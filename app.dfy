/** The home component: the application's five state cells, the handlers
    that update them, the scroll-to-top effect and the page dispatch.

    `AppState` and `Step` give the state machine as values; the class `Home`
    holds the cells as fields and each of its methods is proved to take the
    step its event names. The outbound request is not performed: `SubmitStart`
    returns the body that would be posted, and its reply arrives later as
    `SubmitSucceed` or `SubmitFail`, in whatever order the environment
    chooses. */
module App {
  import opened Wrappers
  import opened Form
  import opened Navigation
  import opened Assessment
  import NavbarView

  const GenericError: string := "An error occurred. Please try again."

  /** `err.response?.data?.error || 'An error occurred. Please try again.'`:
      a missing or empty server message falls back to the generic one. */
  function FailureMessage(serverError: Option<string>): (m: string)
    ensures m != ""
    ensures m == GenericError || (serverError.Some? && m == serverError.value)
    ensures serverError.Some? && serverError.value != "" ==> m == serverError.value
  {
    match serverError
    case Some(e) => if e != "" then e else GenericError
    case None => GenericError
  }

  /** The top-level views `renderPage` can mount. */
  datatype Screen = DisclaimerScreen | InsightsScreen | ModelInfoScreen | AssessmentScreen | HomeScreen

  function RenderPage(page: string): Screen {
    if page == DisclaimerPage then DisclaimerScreen
    else if page == InsightsPage then InsightsScreen
    else if page == ModelInfoPage then ModelInfoScreen
    else if page == AssessmentPage then AssessmentScreen
    else HomeScreen
  }

  /** The page identifier each view is mounted for. */
  function PageOf(s: Screen): string {
    match s
    case DisclaimerScreen => DisclaimerPage
    case InsightsScreen => InsightsPage
    case ModelInfoScreen => ModelInfoPage
    case AssessmentScreen => AssessmentPage
    case HomeScreen => HomePage
  }

  /** Every view is mounted for its own identifier, and any identifier that
      names none of the four other views mounts the home view. */
  lemma RenderPageCases(page: string, s: Screen)
    ensures RenderPage(PageOf(s)) == s
    ensures RenderPage(page) == s <==>
      page == PageOf(s) ||
      (s == HomeScreen && page !in {DisclaimerPage, InsightsPage, ModelInfoPage, AssessmentPage})
  {
  }

  /** The five state cells, the number of scroll-to-top calls so far, and
      the number of requests posted and not yet answered. */
  datatype AppState = AppState(
    page: string, form: FormData, result: Option<PredictionResult>,
    loading: bool, error: Option<string>, scrolls: nat, pending: nat)

  /** The events that change the state: the handlers and the two outcomes of
      a posted request. */
  datatype Event =
    | SetPage(page: string)
    | Change(field: FieldName, value: string)
    | OpenAssessmentPage
    | SubmitStart
    | SubmitSucceed(body: PredictionResult)
    | SubmitFail(serverError: Option<string>)

  /** The state after the first render: the effect on `currentPage` has run
      once. */
  function Initial(): AppState {
    AppState(HomePage, Defaults, None, false, None, 1, 0)
  }

  /** `setCurrentPage(page)` together with the effect that scrolls to the top
      whenever `currentPage` takes a new value. */
  function WithPage(s: AppState, page: string): AppState {
    s.(page := page, scrolls := if page != s.page then s.scrolls + 1 else s.scrolls)
  }

  function Step(s: AppState, e: Event): AppState {
    match e
    case SetPage(p) => WithPage(s, p)
    case Change(f, v) => s.(form := s.form.With(f, v))
    case OpenAssessmentPage =>
      WithPage(s.(form := Defaults, result := None, error := None), AssessmentPage)
    case SubmitStart =>
      s.(loading := true, error := None, result := None, pending := s.pending + 1)
    case SubmitSucceed(body) =>
      s.(result := Some(body), loading := false,
         pending := if s.pending > 0 then s.pending - 1 else 0)
    case SubmitFail(serverError) =>
      s.(error := Some(FailureMessage(serverError)), loading := false,
         pending := if s.pending > 0 then s.pending - 1 else 0)
  }

  function Run(s: AppState, events: seq<Event>): AppState
    decreases |events|
  {
    if events == [] then s else Run(Step(s, events[0]), events[1..])
  }

  /** The body `SubmitStart` posts: the current form, unconverted. */
  function RequestBody(s: AppState): map<string, string> {
    s.form.Payload()
  }

  /** What the environment allows: a select can only produce one of its
      options (a number input any string); the submit control can be used
      only while it is enabled, that is while nothing is loading (the form's
      `disabled` attribute is the only guard); and only a posted request is
      answered. */
  predicate Allowed(s: AppState, e: Event) {
    match e
    case Change(f, v) => Options(f) != [] ==> v in Values(Options(f))
    case SubmitStart => !Button(s.loading).disabled
    case SubmitSucceed(_) => s.pending > 0
    case SubmitFail(_) => s.pending > 0
    case _ => true
  }

  predicate AllowedRun(s: AppState, events: seq<Event>)
    decreases |events|
  {
    events == [] || (Allowed(s, events[0]) && AllowedRun(Step(s, events[0]), events[1..]))
  }

  /** The application's invariant: every categorical field holds one of its
      select's options; at most one request in flight and `loading` set
      exactly while it is; neither a result nor an error while loading;
      never a result and an error together; and a stored error is never
      empty. */
  predicate Good(s: AppState) {
    && WellFormed(s.form)
    && s.pending <= 1
    && (s.loading <==> s.pending == 1)
    && (s.loading ==> s.result.None? && s.error.None?)
    && !(s.result.Some? && s.error.Some?)
    && (s.error.Some? ==> s.error.value != "")
  }

  /** The application starts on the home view with the default form, no
      result, no error and nothing loading. */
  lemma InitialState()
    ensures Good(Initial())
    ensures RenderPage(Initial().page) == HomeScreen
    ensures Initial().form == Defaults && WellFormed(Initial().form)
    ensures Initial().result.None? && Initial().error.None? && !Initial().loading
  {
    DefaultsWellFormed();
  }

  /** `handleChange` rewrites the one field it is given, and nothing else. */
  lemma ChangeWritesOneField(s: AppState, f: FieldName, v: string, g: FieldName)
    ensures Step(s, Change(f, v)).form.Get(f) == v
    ensures g != f ==> Step(s, Change(f, v)).form.Get(g) == s.form.Get(g)
    ensures Step(s, Change(f, v)) == s.(form := Step(s, Change(f, v)).form)
  {
  }

  /** `openAssessmentPage` yields the literal defaults, no result, no error
      and the assessment page, whatever the state before; it leaves
      `loading` and the request in flight alone, and doing it twice is doing
      it once. */
  lemma OpenAssessmentResets(s: AppState)
    ensures var t := Step(s, OpenAssessmentPage);
      && t.form == FormData("", "1", "", "", "", "", "1", "1", "0", "0", "1")
      && t.result.None? && t.error.None? && t.page == AssessmentPage
      && t.loading == s.loading && t.pending == s.pending
      && Step(t, OpenAssessmentPage) == t
  {
  }

  /** Starting a submission marks it loading, clears the previous outcome,
      posts the form's own values under its eleven keys, and does not touch
      the form. */
  lemma SubmitStartClears(s: AppState)
    ensures var t := Step(s, SubmitStart);
      && t.loading && t.error.None? && t.result.None? && t.form == s.form
    ensures RequestBody(s).Keys == Keys
    ensures forall f :: RequestBody(s)[Key(f)] == s.form.Get(f)
    ensures FromPayload(RequestBody(s)) == Some(s.form)
  {
    PayloadRoundTrip(s.form);
  }

  /** The reply of the one request in flight ends loading and stores either
      the body, as received, or the failure message; a failure never shows a
      result, and a success never shows an error. */
  lemma ResolutionOutcome(s: AppState, body: PredictionResult, serverError: Option<string>)
    requires Good(s) && s.loading
    ensures var t := Step(s, SubmitSucceed(body));
      !t.loading && t.result == Some(body) && t.error.None? && Good(t)
    ensures var t := Step(s, SubmitFail(serverError));
      !t.loading && t.result.None? && t.error == Some(FailureMessage(serverError)) && Good(t)
  {
  }

  /** Each allowed event keeps `Good`. */
  lemma StepKeepsGood(s: AppState, e: Event)
    requires Good(s) && Allowed(s, e)
    ensures Good(Step(s, e))
  {
    match e
    case Change(f, v) =>
      EditKeepsWellFormed(s.form, f, v);
    case OpenAssessmentPage =>
      DefaultsWellFormed();
    case SubmitFail(err) =>
      var m := FailureMessage(err);
      assert m != "";
    case _ =>
  }

  /** Any run of allowed events from a good state stays good; so from the
      initial state, after every reply `loading` is false and a result and an
      error are never both present. */
  lemma {:induction false} RunKeepsGood(s: AppState, events: seq<Event>)
    requires Good(s) && AllowedRun(s, events)
    ensures Good(Run(s, events))
    decreases |events|
  {
    if events != [] {
      StepKeepsGood(s, events[0]);
      RunKeepsGood(Step(s, events[0]), events[1..]);
    }
  }

  /** `currentPage` changes exactly when some event gives it a new value,
      and each such change and only it scrolls to the top. */
  lemma ScrollFollowsPageChanges(s: AppState, e: Event)
    ensures Step(s, e).scrolls == s.scrolls + (if Step(s, e).page != s.page then 1 else 0)
  {
  }

  lemma {:induction false} ScrollsCountRunPageChanges(s: AppState, events: seq<Event>)
    ensures Run(s, events).scrolls == s.scrolls + PageChanges(s, events)
    decreases |events|
  {
    if events != [] {
      ScrollFollowsPageChanges(s, events[0]);
      ScrollsCountRunPageChanges(Step(s, events[0]), events[1..]);
    }
  }

  /** How many events of a run give `currentPage` a new value. */
  function PageChanges(s: AppState, events: seq<Event>): nat
    decreases |events|
  {
    if events == [] then 0
    else
      var t := Step(s, events[0]);
      (if t.page != s.page then 1 else 0) + PageChanges(t, events[1..])
  }

  /** The request each navigation control makes, as an event. */
  function NavEvent(a: NavAction): Event {
    match a
    case GoTo(p) => SetPage(p)
    case OpenAssessment => OpenAssessmentPage
  }

  /** The footer's "Risk Assessment" link enters the assessment page but,
      unlike the hero, the navbar and the mobile menu, keeps the previous
      form, result and error. */
  lemma FooterEntryKeepsState(s: AppState)
    ensures var t := Step(s, NavEvent(FooterAction(FooterRiskAssessment)));
      t.page == AssessmentPage && t.form == s.form && t.result == s.result && t.error == s.error
    ensures NavEvent(HeroAction(GetYourAssessment)) == OpenAssessmentPage
    ensures NavEvent(NavbarView.ControlAction(NavbarView.CheckRiskButton)) == OpenAssessmentPage
  {
  }

  /** The "Back to Home" buttons of the assessment, the data insights and
      the model-info pages return to the home view. They keep the form, the result, the
      error and any request in flight, and they scroll to the top unless the
      page already was home. */
  lemma BackToHome(s: AppState, back: NavAction)
    requires back == AssessmentBack || back == InsightsBack || back == ModelInfoBack
    ensures var t := Step(s, NavEvent(back));
      t.page == HomePage && RenderPage(t.page) == HomeScreen
      && t.form == s.form && t.result == s.result && t.error == s.error
      && t.loading == s.loading && t.pending == s.pending
      && t.scrolls == (if s.page == HomePage then s.scrolls else s.scrolls + 1)
  {
  }

  /** Clicking a highlightable desktop button highlights exactly that
      button. */
  lemma ClickHighlights(s: AppState, c: NavbarView.Control, d: NavbarView.Control)
    requires NavbarView.Target(c).Some?
    ensures var t := Step(s, NavEvent(NavbarView.ControlAction(c)));
      NavbarView.Highlighted(t.page, d) <==> d == c
  {
  }

  /** The assessment view of a state. */
  function AssessmentView(s: AppState, show: real -> string): View {
    Render(s.loading, s.error, s.result, show)
  }

  /** In a good state the view shows exactly one of: the loading panel, the
      error panel, the result panel or nothing; the submit control is enabled
      exactly when nothing is loading. */
  lemma ViewOfGoodState(s: AppState, show: real -> string)
    requires Good(s)
    ensures var v := AssessmentView(s, show);
      && (v.loadingPanel <==> s.loading)
      && (v.errorPanel.Some? <==> s.error.Some?)
      && (v.errorPanel.Some? ==> !v.loadingPanel && v.resultPanel.None?)
      && (v.resultPanel.Some? ==> !v.loadingPanel && v.errorPanel.None?)
      && (v.button.disabled <==> v.loadingPanel)
  {
  }

  /** A failed submission shows its message and re-enables the submit
      control; a successful one shows the result, styled by its
      prediction. */
  lemma ViewAfterReply(s: AppState, body: PredictionResult, serverError: Option<string>,
                       show: real -> string)
    requires Good(s) && s.loading
    ensures var v := AssessmentView(Step(s, SubmitFail(serverError)), show);
      v.errorPanel == Some(FailureMessage(serverError)) && v.resultPanel.None?
      && !v.loadingPanel && !v.button.disabled
    ensures var v := AssessmentView(Step(s, SubmitSucceed(body)), show);
      v.resultPanel == Some(Panel(body, show)) && v.errorPanel.None?
      && !v.loadingPanel && !v.button.disabled
      && (v.resultPanel.value.panelTone == Red <==> body.prediction == 1.0)
  {
  }

  /** Nothing in `handleSubmit` refuses a second submission: if the
      disabled control is bypassed, two overlapping requests can leave a result
      and an error both present. */
  lemma UnguardedDoubleSubmit(body: PredictionResult)
    ensures var t := Run(Initial(), [SubmitStart, SubmitStart, SubmitFail(None), SubmitSucceed(body)]);
      t.result == Some(body) && t.error == Some(GenericError) && !Good(t)
    ensures !AllowedRun(Initial(), [SubmitStart, SubmitStart])
  {
    var b := SubmitSucceed(body);
    var s1 := Step(Initial(), SubmitStart);
    var s2 := Step(s1, SubmitStart);
    var s3 := Step(s2, SubmitFail(None));
    assert Run(s3, [b]) == Step(s3, b);
    assert Run(s2, [SubmitFail(None), b]) == Run(s3, [b]);
    assert Run(s1, [SubmitStart, SubmitFail(None), b]) == Run(s2, [SubmitFail(None), b]);
    assert s1.loading && !Allowed(s1, SubmitStart);
  }

  /** A reply that arrives after the user has left the assessment page and
      re-entered it lands in the new, reset form's result: there is no
      staleness check. */
  lemma LateReplyLands(s: AppState, body: PredictionResult)
    requires Good(s) && s.page == AssessmentPage && !s.loading
    ensures var t := Run(s, [SubmitStart, SetPage(HomePage), OpenAssessmentPage, SubmitSucceed(body)]);
      && t.form == Defaults && t.page == AssessmentPage
      && t.result == Some(body) && !t.loading && Good(t)
    ensures AllowedRun(s, [SubmitStart, SetPage(HomePage), OpenAssessmentPage, SubmitSucceed(body)])
  {
    var b := SubmitSucceed(body);
    var s1 := Step(s, SubmitStart);
    var s2 := Step(s1, SetPage(HomePage));
    var s3 := Step(s2, OpenAssessmentPage);
    assert s3.pending == 1 && s3.loading;
    assert Run(s3, [b]) == Step(s3, b);
    assert Run(s2, [OpenAssessmentPage, b]) == Run(s3, [b]);
    assert Run(s1, [SetPage(HomePage), OpenAssessmentPage, b]) == Run(s2, [OpenAssessmentPage, b]);
    assert AllowedRun(s3, [b]);
    assert AllowedRun(s2, [OpenAssessmentPage, b]);
    assert AllowedRun(s1, [SetPage(HomePage), OpenAssessmentPage, b]);
  }

  /** The form of the three end-to-end scenarios. */
  const SampleForm: FormData :=
    FormData("45", "1", "175", "70", "120", "80", "1", "1", "0", "0", "1")

  /** A success, a server-reported failure and an unreachable service, each
      after filling the form and submitting it. */
  lemma Scenarios(s: AppState, show: real -> string)
    requires Good(s) && !s.loading && s.page == AssessmentPage
    ensures var t := Run(s.(form := SampleForm),
                         [SubmitStart, SubmitSucceed(PredictionResult(0.0, 82.0, 22.9, "Low Risk"))]);
      t.result == Some(PredictionResult(0.0, 82.0, 22.9, "Low Risk")) && t.error.None?
      && AssessmentView(t, show).resultPanel.value.panelTone == Green
    ensures Run(s.(form := SampleForm), [SubmitStart, SubmitFail(Some("Invalid input"))]).error
      == Some("Invalid input")
    ensures Run(s.(form := SampleForm), [SubmitStart, SubmitFail(None)]).error == Some(GenericError)
    ensures Submittable(SampleForm) && WellFormed(SampleForm)
  {
    OptionValues();
    assert [SubmitStart, SubmitFail(Some("Invalid input"))][1..] == [SubmitFail(Some("Invalid input"))];
    assert [SubmitStart, SubmitFail(None)][1..] == [SubmitFail(None)];
    assert [SubmitStart, SubmitSucceed(PredictionResult(0.0, 82.0, 22.9, "Low Risk"))][1..]
      == [SubmitSucceed(PredictionResult(0.0, 82.0, 22.9, "Low Risk"))];
  }

  class Home {
    var currentPage: string
    var formData: FormData
    var result: Option<PredictionResult>
    var loading: bool
    var error: Option<string>
    /** Calls of `window.scrollTo({top: 0})` made by the effect. */
    var scrollsToTop: nat
    /** Requests posted and not yet answered. */
    ghost var pending: nat

    ghost function State(): AppState
      reads this
    {
      AppState(currentPage, formData, result, loading, error, scrollsToTop, pending)
    }

    ghost predicate Valid()
      reads this
    {
      Good(State())
    }

    /** Mounting: the initial cells, and the effect's first scroll. */
    constructor ()
      ensures State() == Initial() && Valid()
      ensures currentPage == HomePage && formData == Defaults
      ensures result.None? && !loading && error.None?
    {
      currentPage := HomePage;
      formData := Defaults;
      result := None;
      loading := false;
      error := None;
      scrollsToTop := 1;
      pending := 0;
      new;
      DefaultsWellFormed();
    }

    method SetCurrentPage(page: string)
      modifies this
      ensures State() == Step(old(State()), SetPage(page))
      ensures currentPage == page
      ensures old(Valid()) ==> Valid()
    {
      if page != currentPage {
        scrollsToTop := scrollsToTop + 1;
      }
      currentPage := page;
      if old(Valid()) {
        StepKeepsGood(old(State()), SetPage(page));
      }
    }

    /** `handleChange` for an input or a select. Each control's `name`
        attribute is `Key(f)` for its field `f`, and `FieldOf` decodes that
        back to `f` (`KeyRoundTrip`), so the field arrives here decoded;
        a select's `value` is one of its options (`Allowed`). */
    method HandleChange(name: FieldName, value: string)
      modifies this
      ensures State() == Step(old(State()), Change(name, value))
      ensures formData == old(formData).With(name, value)
      ensures old(Valid()) && Allowed(old(State()), Change(name, value)) ==> Valid()
    {
      formData := formData.With(name, value);
      if old(Valid()) && Allowed(old(State()), Change(name, value)) {
        StepKeepsGood(old(State()), Change(name, value));
      }
    }

    method OpenAssessmentPage()
      modifies this
      ensures State() == Step(old(State()), Event.OpenAssessmentPage)
      ensures formData == Defaults && result.None? && error.None?
      ensures currentPage == AssessmentPage && loading == old(loading)
      ensures old(Valid()) ==> Valid()
    {
      formData := Defaults;
      result := None;
      error := None;
      SetCurrentPage(AssessmentPage);
      if old(Valid()) {
        StepKeepsGood(old(State()), Event.OpenAssessmentPage);
      }
    }

    /** The synchronous part of `handleSubmit`, up to the post; returns the
        request body. */
    method SubmitStart() returns (body: map<string, string>)
      modifies this
      ensures State() == Step(old(State()), Event.SubmitStart)
      ensures body == RequestBody(old(State()))
      ensures loading && error.None? && result.None?
      ensures old(Valid()) && !old(loading) ==> Valid()
    {
      loading := true;
      error := None;
      result := None;
      body := formData.Payload();
      pending := pending + 1;
      if old(Valid()) && !old(loading) {
        StepKeepsGood(old(State()), Event.SubmitStart);
      }
    }

    /** The `try` branch with its `finally`: the reply's body is stored as
        it came. */
    method SubmitSucceed(data: PredictionResult)
      requires pending > 0
      modifies this
      ensures State() == Step(old(State()), Event.SubmitSucceed(data))
      ensures result == Some(data) && !loading && error == old(error)
      ensures old(Valid()) ==> Valid()
    {
      result := Some(data);
      loading := false;
      pending := pending - 1;
      if old(Valid()) {
        StepKeepsGood(old(State()), Event.SubmitSucceed(data));
      }
    }

    /** The `catch` branch with its `finally`; `serverError` is the `error`
        member of the failure reply's body, `None` when there was no reply or
        no such member. */
    method SubmitFail(serverError: Option<string>)
      requires pending > 0
      modifies this
      ensures State() == Step(old(State()), Event.SubmitFail(serverError))
      ensures error == Some(FailureMessage(serverError)) && !loading && result == old(result)
      ensures old(Valid()) ==> Valid()
    {
      error := Some(FailureMessage(serverError));
      loading := false;
      pending := pending - 1;
      if old(Valid()) {
        StepKeepsGood(old(State()), Event.SubmitFail(serverError));
      }
    }

    /** A navigation request from any view. */
    method Dispatch(a: NavAction)
      modifies this
      ensures State() == Step(old(State()), NavEvent(a))
      ensures old(Valid()) ==> Valid()
    {
      match a
      case GoTo(p) => SetCurrentPage(p);
      case OpenAssessment => OpenAssessmentPage();
    }
  }

  /** A mobile-menu item's handler: its navigation, then closing the menu. */
  method ClickMobileItem(nav: NavbarView.Navbar, home: Home, item: NavbarView.MobileItem)
    modifies nav, home
    ensures home.State() == Step(old(home.State()), NavEvent(NavbarView.MobileAction(item)))
    ensures old(home.Valid()) ==> home.Valid()
    ensures !nav.isMobileMenuOpen
    ensures nav.isScrolled == old(nav.isScrolled) && nav.ticking == old(nav.ticking)
    ensures nav.framesRequested == old(nav.framesRequested)
    ensures old(nav.Valid()) ==> nav.Valid()
  {
    home.Dispatch(NavbarView.MobileAction(item));
    nav.CloseMobileMenu();
  }

  /** A click on the logo or a desktop button. */
  method ClickControl(home: Home, c: NavbarView.Control)
    modifies home
    ensures home.State() == Step(old(home.State()), NavEvent(NavbarView.ControlAction(c)))
    ensures old(home.Valid()) ==> home.Valid()
  {
    home.Dispatch(NavbarView.ControlAction(c));
  }
}
