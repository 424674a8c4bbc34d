/** Page identifiers and the navigation requests that the views' controls
    make. A request either sets the current page directly or goes through the
    home component's `openAssessmentPage`, which also resets the form. */
module Navigation {

  const HomePage: string := "home"
  const DisclaimerPage: string := "disclaimer"
  const InsightsPage: string := "insights"
  const ModelInfoPage: string := "modelInfo"
  const AssessmentPage: string := "assessment"

  datatype NavAction =
    | GoTo(page: string)   // setCurrentPage(page)
    | OpenAssessment       // openAssessmentPage()

  /** The two call-to-action buttons of the landing hero. */
  datatype HeroButton = GetYourAssessment | LearnMore

  function HeroAction(b: HeroButton): NavAction {
    match b
    case GetYourAssessment => OpenAssessment
    case LearnMore => GoTo(ModelInfoPage)
  }

  /** The four page links in the footer's "Product" column. */
  datatype FooterLink = FooterHome | FooterRiskAssessment | FooterModelInfo | FooterDisclaimer

  /** Every footer link sets the page directly; the "Risk Assessment" link
      enters the assessment page without `openAssessmentPage`. */
  function FooterAction(l: FooterLink): (a: NavAction)
    ensures a.GoTo?
  {
    match l
    case FooterHome => GoTo(HomePage)
    case FooterRiskAssessment => GoTo(AssessmentPage)
    case FooterModelInfo => GoTo(ModelInfoPage)
    case FooterDisclaimer => GoTo(DisclaimerPage)
  }

  /** The "Back to Home" buttons of the assessment page, the data insights
      page and the model-info page. */
  const AssessmentBack: NavAction := GoTo(HomePage)
  const InsightsBack: NavAction := GoTo(HomePage)
  const ModelInfoBack: NavAction := GoTo(HomePage)
}
