/** The assessment page as a pure function of the home component's
    `loading`, `error` and `result` cells: which panels appear, how the result
    is styled, and the state of the submit button. */
module Assessment {
  import opened Wrappers

  /** The prediction service's success body, stored as received. */
  datatype PredictionResult = PredictionResult(
    prediction: real, confidence: real, bmi: real, result: string)

  /** Red is the high-risk styling, green the low-risk one. */
  datatype Tone = Red | Green
  datatype ResultIcon = AlertIcon | CheckIcon
  datatype ButtonIcon = Spinner | TrendingUpIcon

  datatype SubmitButton = SubmitButton(
    disabled: bool, dimmed: bool, icon: ButtonIcon, caption: string)

  datatype ResultPanel = ResultPanel(
    panelTone: Tone, icon: ResultIcon, headline: string, headlineTone: Tone,
    predictionLabel: string, confidenceText: string, bmiText: string)

  /** What the page shows below the form. */
  datatype View = View(
    button: SubmitButton, loadingPanel: bool,
    errorPanel: Option<string>, resultPanel: Option<ResultPanel>)

  const AnalyzingCaption: string := "Analyzing..."
  const PredictCaption: string := "Predict Cardiovascular Risk"
  const HighRiskLabel: string := "High Risk"
  const LowRiskLabel: string := "Low Risk"

  /** The source compares with `prediction === 1`. */
  predicate HighRisk(r: PredictionResult) {
    r.prediction == 1.0
  }

  /** The submit button: disabled, dimmed and spinning exactly while a
      request is loading. */
  function Button(loading: bool): (b: SubmitButton)
    ensures b.disabled == loading && b.dimmed == loading
    ensures b.icon == Spinner <==> loading
    ensures b.caption == (if loading then AnalyzingCaption else PredictCaption)
  {
    SubmitButton(loading, loading,
                 if loading then Spinner else TrendingUpIcon,
                 if loading then AnalyzingCaption else PredictCaption)
  }

  /** The result panel. `show` is JavaScript's conversion of a number to
      text, which this model does not define. */
  function Panel(r: PredictionResult, show: real -> string): (p: ResultPanel)
    ensures p.panelTone == Red <==> HighRisk(r)
    ensures p.panelTone == p.headlineTone
    ensures p.icon == AlertIcon <==> p.panelTone == Red
    ensures p.predictionLabel == HighRiskLabel <==> p.panelTone == Red
    ensures p.predictionLabel == LowRiskLabel <==> p.panelTone == Green
    ensures p.headline == r.result
    ensures p.confidenceText == show(r.confidence) + "%"
    ensures p.bmiText == show(r.bmi)
  {
    ResultPanel(
      if r.prediction == 1.0 then Red else Green,
      if r.prediction == 1.0 then AlertIcon else CheckIcon,
      r.result,
      if r.prediction == 1.0 then Red else Green,
      if r.prediction == 1.0 then HighRiskLabel else LowRiskLabel,
      show(r.confidence) + "%",
      show(r.bmi))
  }

  /** The whole lower part of the page. The error panel follows JavaScript
      truthiness: an empty message shows nothing. */
  function Render(loading: bool, error: Option<string>, result: Option<PredictionResult>,
                  show: real -> string): (v: View)
    ensures v.button.disabled <==> loading
    ensures v.loadingPanel <==> loading
    ensures v.errorPanel.Some? <==> error.Some? && error.value != ""
    ensures v.errorPanel.Some? ==> v.errorPanel.value == error.value
    ensures v.resultPanel.Some? <==> result.Some?
    ensures v.resultPanel.Some? ==> v.resultPanel.value == Panel(result.value, show)
  {
    View(Button(loading),
         loading,
         if error.Some? && error.value != "" then error else None,
         match result
         case Some(r) => Some(Panel(r, show))
         case None => None)
  }
}
