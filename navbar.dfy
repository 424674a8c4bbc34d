/** The navigation bar: which request each of its controls makes, which
    desktop button is highlighted, and its own state: the mobile-menu flag
    and the scroll handler that samples the scroll position at most once per
    animation frame. */
module NavbarView {
  import opened Wrappers
  import opened Navigation

  /** The logo and the four desktop buttons. */
  datatype Control = Logo | DisclaimerButton | InsightsButton | ModelInfoButton | CheckRiskButton

  /** The four items of the mobile menu. */
  datatype MobileItem = MobileDisclaimer | MobileInsights | MobileModelInfo | MobileCheckRisk

  function ControlAction(c: Control): NavAction {
    match c
    case Logo => GoTo(HomePage)
    case DisclaimerButton => GoTo(DisclaimerPage)
    case InsightsButton => GoTo(InsightsPage)
    case ModelInfoButton => GoTo(ModelInfoPage)
    case CheckRiskButton => OpenAssessment
  }

  /** The navigation part of a mobile item's handler; the handler then closes
      the menu (see `App.ClickMobileItem`). */
  function MobileAction(m: MobileItem): NavAction {
    match m
    case MobileDisclaimer => GoTo(DisclaimerPage)
    case MobileInsights => GoTo(InsightsPage)
    case MobileModelInfo => GoTo(ModelInfoPage)
    case MobileCheckRisk => OpenAssessment
  }

  /** The desktop control each mobile item stands for. */
  function Counterpart(m: MobileItem): Control {
    match m
    case MobileDisclaimer => DisclaimerButton
    case MobileInsights => InsightsButton
    case MobileModelInfo => ModelInfoButton
    case MobileCheckRisk => CheckRiskButton
  }

  /** The mobile menu makes the same requests as the desktop buttons, and
      neither ever enters the assessment page except through
      `openAssessmentPage`. */
  lemma ControlsNeverBypassReset(c: Control, m: MobileItem)
    ensures MobileAction(m) == ControlAction(Counterpart(m))
    ensures ControlAction(c) != GoTo(AssessmentPage)
    ensures MobileAction(m) != GoTo(AssessmentPage)
    ensures ControlAction(c) == OpenAssessment <==> c == CheckRiskButton
  {
  }

  /** The page a highlightable desktop button stands for. */
  function Target(c: Control): (t: Option<string>)
    ensures t.Some? ==> ControlAction(c) == GoTo(t.value)
  {
    match c
    case DisclaimerButton => Some(DisclaimerPage)
    case InsightsButton => Some(InsightsPage)
    case ModelInfoButton => Some(ModelInfoPage)
    case Logo | CheckRiskButton => None
  }

  /** `currentPage === '<target>'` selects the highlighted classes. */
  predicate Highlighted(currentPage: string, c: Control) {
    Target(c).Some? && currentPage == Target(c).value
  }

  /** At most one desktop button is highlighted; on the home and assessment
      pages none is. */
  lemma HighlightUnique(currentPage: string, c: Control, d: Control)
    requires Highlighted(currentPage, c) && Highlighted(currentPage, d)
    ensures c == d
    ensures currentPage != HomePage && currentPage != AssessmentPage
  {
  }

  datatype MenuButtonIcon = MenuIcon | CloseIcon

  /** The mobile menu button's icon, and whether the menu itself is
      rendered. */
  datatype MobileMenuView = MobileMenuView(icon: MenuButtonIcon, menuShown: bool)

  /** The menu is rendered, and the button shows the close icon, exactly
      while the menu flag is set. */
  function MenuView(open: bool): (v: MobileMenuView)
    ensures v.menuShown <==> open
    ensures v.icon == CloseIcon <==> open
  {
    MobileMenuView(if open then CloseIcon else MenuIcon, open)
  }

  class Navbar {
    var isScrolled: bool
    var isMobileMenuOpen: bool
    /** The `ticking` flag of the scroll effect's closure. */
    var ticking: bool
    /** Animation-frame callbacks requested and not yet run. */
    ghost var framesRequested: nat

    /** The throttle's invariant: `ticking` is set exactly while one frame
        callback is outstanding, and there is never more than one. */
    ghost predicate Valid()
      reads this
    {
      framesRequested <= 1 && (ticking <==> framesRequested == 1)
    }

    /** The state at mount: not scrolled, menu closed, no frame pending. */
    constructor ()
      ensures Valid()
      ensures !isScrolled && !isMobileMenuOpen && !ticking && framesRequested == 0
    {
      isScrolled := false;
      isMobileMenuOpen := false;
      ticking := false;
      framesRequested := 0;
    }

    /** The menu button flips the flag, and so shows the menu when it was
        hidden and hides it when it was shown. */
    method ToggleMobileMenu()
      modifies this
      ensures isMobileMenuOpen == !old(isMobileMenuOpen)
      ensures MenuView(isMobileMenuOpen).menuShown == !MenuView(old(isMobileMenuOpen)).menuShown
      ensures isScrolled == old(isScrolled) && ticking == old(ticking)
      ensures framesRequested == old(framesRequested)
    {
      isMobileMenuOpen := !isMobileMenuOpen;
    }

    method CloseMobileMenu()
      modifies this
      ensures !isMobileMenuOpen && !MenuView(isMobileMenuOpen).menuShown
      ensures isScrolled == old(isScrolled) && ticking == old(ticking)
      ensures framesRequested == old(framesRequested)
    {
      isMobileMenuOpen := false;
    }

    /** A scroll event requests a frame only when none is outstanding. */
    method OnScroll() returns (scheduled: bool)
      requires Valid()
      modifies this
      ensures Valid()
      ensures scheduled <==> !old(ticking)
      ensures ticking && framesRequested == 1
      ensures isScrolled == old(isScrolled) && isMobileMenuOpen == old(isMobileMenuOpen)
    {
      scheduled := !ticking;
      if !ticking {
        framesRequested := framesRequested + 1;
        ticking := true;
      }
    }

    /** The frame callback samples the scroll position and re-arms the
        handler. */
    method OnAnimationFrame(scrollY: real)
      requires Valid() && framesRequested > 0
      modifies this
      ensures Valid()
      ensures isScrolled == (scrollY > 50.0)
      ensures !ticking && framesRequested == 0
      ensures isMobileMenuOpen == old(isMobileMenuOpen)
    {
      isScrolled := scrollY > 50.0;
      ticking := false;
      framesRequested := framesRequested - 1;
    }
  }
}
