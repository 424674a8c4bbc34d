# CardioSense AI client state machine in Dafny

This project models the client of CardioSense AI, a single-page application.
The client collects eleven health parameters, posts them to a remote
prediction service and shows the returned cardiovascular-risk
classification. The model covers:

- **`App`** (`cardiosense/app/page.tsx`). The `Home` component's five state
  cells are `currentPage`, `formData`, `result`, `loading` and `error`. Its
  handlers are `handleChange`, `openAssessmentPage` and `handleSubmit`, and
  its effect scrolls to the top when the page changes. `renderPage` picks the
  mounted view. The state machine is given twice. As values, it is
  `AppState` with a step function `Step` over `Event`s. As the class
  `App.Home`, its fields are the state cells and each method is proved to
  take the step its event names. `handleSubmit` is split at its `await`:
  `SubmitStart` returns the request body, and the reply arrives later as
  `SubmitSucceed(body)` or `SubmitFail(serverError)`.
- **`Form`**. The eleven fields, the default set, the JSON body, the option
  sets of the selects and the five `required` number inputs
  (`cardiosense/components/AssessmentPage.tsx`, `cardiosense/app/page.tsx`).
- **`Assessment`** (`cardiosense/components/AssessmentPage.tsx`). The page
  as a pure function of `loading`, `error` and `result`: the submit button,
  the loading, error and result panels, and the high-risk or low-risk styling.
- **`DataInsights`** (`cardiosense/components/DataInsights.tsx`). The
  heat-map colour classifier, proved equal, on every real, to a table-driven
  reference (`DataInsights.CorrelationColorByScale`). Also
  the shape of the lower-triangular correlation matrix, so that every visible
  cell is in bounds, how cells render, the legend's tick offsets and the
  "Top Correlated Factors" chips.
- **`NavbarView`** (`cardiosense/components/Navbar.tsx`). The request each
  control makes and the highlight rule. The class `Navbar` holds the
  mobile-menu flag and the scroll throttle (`ticking`, one animation frame at
  a time).
- **`Navigation`**. Page identifiers and the navigation requests of the hero,
  the footer and the back buttons.

Numbers are Dafny `real`s, so every comparison is exact. JavaScript's
conversion of a number to text is the parameter `show` of
`Assessment.Render`. The service's reply is an input event. No request is
performed.

The central invariant is `App.Good`:

- every categorical field holds one of its select's options;
- at most one request is in flight, and `loading` is set exactly while one is;
- nothing is stored while loading;
- a result and an error are never both present;
- a stored error is never empty.

`App.RunKeepsGood` proves that every run of allowed events keeps it. An
allowed change of a select carries one of its options. The only guard on
submission is the disabled submit button. `App.UnguardedDoubleSubmit` shows
that if that button is bypassed, two overlapping requests break the
invariant.

The model follows the code as written; in particular:

- `handleSubmit` has no busy check of its own.
- A reply that arrives after the user left the assessment page and came back
  still lands in the new page's state (`App.LateReplyLands`).
- The success body is stored without validation.
- The footer's "Risk Assessment" link enters the page without resetting the
  form (`App.FooterEntryKeepsState`).
- Only a prediction of exactly 1 gets high-risk styling.

## Model

| member | source | states |
|---|---|---|
| `Form.FieldOf` | cardiosense/app/page.tsx:49-54 | a control name selects a field exactly when it is one of the eleven keys, and the field's key is that name |
| `Form.KeyRoundTrip` | cardiosense/components/AssessmentPage.tsx:8-20 | every field has a key, and that key selects the same field again |
| `Form.FormData.With` | cardiosense/app/page.tsx:49-54 | the spread-and-overwrite sets field `f` to `v` and leaves the other ten fields as they were |
| `Form.WithOverwrites` | cardiosense/app/page.tsx:49-54 | a second edit of a field replaces the first, and writing a field's own value back changes nothing |
| `Form.WithCommutes` | cardiosense/app/page.tsx:49-54 | edits to two different fields can be applied in either order |
| `Form.FormData.Payload` | cardiosense/app/page.tsx:64 | the posted JSON has exactly the eleven keys, and each key maps to its field's string, unconverted |
| `Form.FromPayload` | backend.py:129-139 | the eleven key lookups succeed exactly when every key is present, and each yields the string posted under its key |
| `Form.PayloadRoundTrip` | cardiosense/app/page.tsx:64 | the body determines the form: reading it back gives the form that was posted |
| `Form.OptionValues` | cardiosense/components/AssessmentPage.tsx:48-68 | gender offers {1,2}, cholesterol and glucose {1,2,3}, and the yes/no selects {0,1} |
| `Form.RequiredIffNumberInput` | cardiosense/components/AssessmentPage.tsx:119-287 | a field carries `required` exactly when it is a number input (age, height, weight, ap_hi, ap_lo) and not a select |
| `Form.DefaultsWellFormed` | cardiosense/app/page.tsx:21-33 | every categorical default is one of its select's options |
| `Form.EditKeepsWellFormed` | cardiosense/components/AssessmentPage.tsx:132-287 | an edit that a control can make (an option of a select, any string for a number input) keeps every categorical field inside its option set |
| `Form.DefaultsNotSubmittable` | cardiosense/app/page.tsx:73-91 | after a reset all five required fields are empty, so the browser blocks submission until they are filled |
| `Navigation.FooterAction` | cardiosense/components/Footer.tsx:18-21 | every footer link sets the page directly, including "Risk Assessment" |
| `Assessment.Button` | cardiosense/components/AssessmentPage.tsx:296-300 | the submit button is disabled, dimmed and spinning exactly while loading; its caption is 'Analyzing...' while loading and 'Predict Cardiovascular Risk' otherwise |
| `Assessment.Panel` | cardiosense/components/AssessmentPage.tsx:334-372 | panel tone, icon, headline colour and prediction label agree: all are high-risk exactly when `prediction === 1`, and 'Low Risk'/green otherwise; the headline is `result.result` verbatim, the confidence is shown with a '%' suffix and the BMI as given |
| `Assessment.Render` | cardiosense/components/AssessmentPage.tsx:296-373 | the button is disabled and the loading panel shown exactly while loading; the error panel is shown exactly for a non-empty error and shows it verbatim; the result panel is shown exactly when there is a result |
| `DataInsights.CorrelationColorByScale` | cardiosense/components/DataInsights.tsx:72-89 | the colour is white for exactly 1. A positive value takes the first red bucket (>0.8, >0.6, >0.4, >0.2, >0.1) that its magnitude exceeds. Any other value takes the first blue bucket (>0.6, >0.4, >0.2, >0.1). A value exceeding none is neutral |
| `DataInsights.StrongerIsNotLighter` | cardiosense/components/DataInsights.tsx:75-88 | of two correlations of the same sign, the one of greater magnitude is never drawn in a lighter shade: each colour `CorrelationColor` picks is the scale's entry at the value's strength, and the stronger value's entry is at least as deep |
| `DataInsights.ScaleAsymmetry` | cardiosense/components/DataInsights.tsx:72-89 | 1 is white and 0 neutral. The negative side has no bucket above 0.6 (-0.9 and -0.7 share a colour), while 0.9 and 0.7 get different reds. No non-positive value is drawn strongest red |
| `DataInsights.MatrixShape` | cardiosense/components/DataInsights.tsx:53-70 | there are 15 features and 15 rows. Row i has i+1 entries. Every diagonal entry is exactly 1, and every other entry lies strictly inside (-1, 1) |
| `DataInsights.RenderCell` | cardiosense/components/DataInsights.tsx:295-309 | on a lower-triangular matrix every cell with column at most row is in bounds and shown, and the others are hidden. A shown cell's colour is the classifier's colour of its value, its text is white exactly when its magnitude exceeds 0.4, and it is '-' on the diagonal and the value itself below it |
| `DataInsights.TickOffset` | cardiosense/components/DataInsights.tsx:328-332 | the offset of a tick in [-1, 1] lies in [0, 100]; 1 maps to 0 and -1 to 100 |
| `DataInsights.TickOffsetDecreasing` | cardiosense/components/DataInsights.tsx:332 | a greater tick value sits strictly higher on the legend |
| `DataInsights.TicksEvenlySpaced` | cardiosense/components/DataInsights.tsx:328-332 | the nine ticks sit at 0%, 12.5%, …, 100% from the top |
| `DataInsights.FactorChip` | cardiosense/components/DataInsights.tsx:246-255 | a chip is red exactly for a `positive` factor and shows '+' exactly when the value is positive |
| `DataInsights.FactorsConsistent` | cardiosense/components/DataInsights.tsx:40-50 | every `positive` flag agrees with the sign of its value, so a chip is red exactly when it shows '+'; the factors are listed by decreasing magnitude |
| `NavbarView.ControlsNeverBypassReset` | cardiosense/components/Navbar.tsx:55-174 | each mobile item makes the same request as its desktop button; no control sets 'assessment' directly; only "Check Your Risk" goes through `openAssessmentPage` |
| `NavbarView.Target` | cardiosense/components/Navbar.tsx:71-109 | a highlightable button's target page is the page its click navigates to |
| `NavbarView.HighlightUnique` | cardiosense/components/Navbar.tsx:76-102 | at most one desktop button is highlighted, and none on the home or assessment page |
| `NavbarView.Navbar.constructor` | cardiosense/components/Navbar.tsx:15-19 | at mount the bar is not scrolled, the menu is closed and no frame is pending |
| `NavbarView.MenuView` | cardiosense/components/Navbar.tsx:126-131 | the mobile menu is rendered, and the button shows the close icon rather than the menu icon, exactly while the menu flag is set |
| `NavbarView.Navbar.ToggleMobileMenu` | cardiosense/components/Navbar.tsx:122-131 | the menu button flips `isMobileMenuOpen`, so a hidden menu is shown and a shown one hidden, and changes nothing else |
| `NavbarView.Navbar.CloseMobileMenu` | cardiosense/components/Navbar.tsx:142 | the menu flag becomes false, so the menu is hidden, and nothing else changes |
| `NavbarView.Navbar.OnScroll` | cardiosense/components/Navbar.tsx:20-28 | a scroll event requests a frame exactly when `ticking` is false, then `ticking` is set; there is never more than one outstanding frame |
| `NavbarView.Navbar.OnAnimationFrame` | cardiosense/components/Navbar.tsx:22-25 | the frame callback sets `isScrolled` to `scrollY > 50` and resets `ticking`, re-arming the handler |
| `App.FailureMessage` | cardiosense/app/page.tsx:66-67 | the message is never empty. It is the server's non-empty `error` when there is one, and otherwise the generic "An error occurred. Please try again." |
| `App.RenderPageCases` | cardiosense/app/page.tsx:94-128 | each view is mounted for its own identifier, and every identifier other than disclaimer, insights, modelInfo and assessment mounts the home view |
| `App.InitialState` | cardiosense/app/page.tsx:18-42 | the app starts on the home view with the default form, no result, no error and nothing loading; this state satisfies the invariant, including every select holding one of its options |
| `App.ChangeWritesOneField` | cardiosense/app/page.tsx:49-54 | `handleChange` sets the named field, keeps the other ten and changes no other cell |
| `App.OpenAssessmentResets` | cardiosense/app/page.tsx:73-91 | opening the assessment page yields the literal defaults, no result, no error and page 'assessment' from any state. It leaves `loading` and the request in flight alone, and is idempotent |
| `App.SubmitStartClears` | cardiosense/app/page.tsx:56-64 | submitting sets loading, clears error and result, and keeps the form. The body holds exactly the eleven keys with the form's strings, and determines the form |
| `App.ResolutionOutcome` | cardiosense/app/page.tsx:62-70 | the reply to the one request in flight ends loading. Success stores the body as received with no error. Failure stores the failure message with no result |
| `App.StepKeepsGood` | cardiosense/app/page.tsx:56-91 | every allowed event (a select's change carrying one of its options, a submission only while the button is enabled, a reply only to a posted request) keeps the invariant |
| `App.RunKeepsGood` | cardiosense/app/page.tsx:56-91 | any run of allowed events from a good state stays good: every select keeps one of its options, after every reply loading is false and a result and an error are never both present |
| `App.ScrollFollowsPageChanges` | cardiosense/app/page.tsx:45-47 | an event scrolls to the top exactly when it gives `currentPage` a new value |
| `App.ScrollsCountRunPageChanges` | cardiosense/app/page.tsx:45-47 | over a run, the number of scrolls to the top grows by exactly the number of page changes |
| `App.BackToHome` | cardiosense/components/AssessmentPage.tsx:85 | the assessment, data insights and model-info pages' "Back to Home" buttons show the home view, keep the form, result, error and any request in flight, and scroll to the top unless already home |
| `App.FooterEntryKeepsState` | cardiosense/components/Footer.tsx:19 | the footer's assessment link enters the page keeping the previous form, result and error. The hero's and the navbar's "Check" buttons go through the reset |
| `App.ClickHighlights` | cardiosense/components/Navbar.tsx:71-109 | after a click on a highlightable desktop button, exactly that button is highlighted |
| `App.ViewOfGoodState` | cardiosense/components/AssessmentPage.tsx:296-373 | in a good state the view shows at most one of the loading, error and result panels, and the submit control is disabled exactly while the loading panel shows |
| `App.ViewAfterReply` | cardiosense/app/page.tsx:62-70 | after a failure the view shows the failure message, no result, and re-enables submit. After a success it shows the result panel, red exactly for prediction 1, with no error |
| `App.UnguardedDoubleSubmit` | cardiosense/app/page.tsx:56-60 | `handleSubmit` itself refuses nothing: two overlapping submissions can leave a result and an error together, and the disabled button is what forbids the second one |
| `App.LateReplyLands` | cardiosense/app/page.tsx:73-91 | a reply arriving after leaving and re-entering the assessment page is stored in the freshly reset page's result |
| `App.Scenarios` | cardiosense/app/page.tsx:56-71 | for the sample form: a success body is stored as is and styled low-risk; a server error "Invalid input" is shown verbatim; an unreachable service gives the generic message |
| `App.Home.constructor` | cardiosense/app/page.tsx:18-42 | the mounted component's cells are the initial state, including the effect's first scroll, and satisfy `Valid` |
| `App.Home.SetCurrentPage` | cardiosense/app/page.tsx:44-47 | sets `currentPage` and scrolls to the top exactly when the value changes; it keeps `Valid` |
| `App.Home.HandleChange` | cardiosense/app/page.tsx:49-54 | the new form is the old one with the named field replaced, and no other cell changes; an allowed change keeps `Valid` |
| `App.Home.OpenAssessmentPage` | cardiosense/app/page.tsx:73-91 | the form becomes the defaults, result and error are cleared, the page is 'assessment', and `loading` is unchanged; it keeps `Valid` |
| `App.Home.SubmitStart` | cardiosense/app/page.tsx:56-64 | loading is set, error and result are cleared, and the returned body is the current form's JSON; started while not loading, it keeps `Valid` |
| `App.Home.SubmitSucceed` | cardiosense/app/page.tsx:64-70 | the reply body becomes the result, loading ends, and the error cell is not touched; it keeps `Valid` |
| `App.Home.SubmitFail` | cardiosense/app/page.tsx:66-70 | the failure message becomes the error, loading ends, and the result cell is not touched; it keeps `Valid` |
| `App.Home.Dispatch` | cardiosense/app/page.tsx:97-125 | a navigation request either sets the page or runs `openAssessmentPage`; it keeps `Valid` |
| `App.ClickMobileItem` | cardiosense/components/Navbar.tsx:139-174 | a mobile item performs its navigation and then closes the menu, leaving the scroll state and the pending-frame count alone; the page's and the navbar's `Valid` are kept |
| `App.ClickControl` | cardiosense/components/Navbar.tsx:55-118 | the logo and the desktop buttons perform their navigation requests; the page's `Valid` is kept |

## Left out

- The network call: the endpoint, `console.log`, transport, timeouts and the asynchrony itself are not modelled. A reply is an event the environment delivers, after `SubmitStart`, in any order.
- Validation of the success body: the source stores `response.data` as is, and neither does the model check it. But the model types the body as `PredictionResult`, so it cannot express a body of another shape.
- `App.FailureMessage`: the server's `error` member is taken to be a string or absent. A truthy non-string value, which JavaScript would store, is not modelled.
- `App.Home.HandleChange`: takes a `FieldName`. A control `name` outside the eleven keys would add a new member to the form object in JavaScript; it is not modelled, since the form has no such control.
- React's render batching and stale closures: each handler is one atomic step on the current state.
- Number formatting (`toFixed`, number-to-text conversion) and the title tooltips of heat-map cells: `show` is an uninterpreted parameter, and a cell's number is carried as its value.
- Presentation: animations, `AnimatePresence`, icon components beyond the branch chosen, Tailwind class strings beyond the colour chosen, and the navbar's scrolled/compact styling. Smooth scrolling is reduced to a counter of scroll-to-top calls.
- Removing the navbar's scroll listener on unmount, and frame callbacks after unmount.
- `DisclaimerPage` is not part of this model (only its identifier is). The model-info page's content is static; its "Back to Home" button is `Navigation.ModelInfoBack` (covered by `App.BackToHome`) and its footer is the shared `Footer` (`Navigation.FooterAction`). The "How it works", logo, icon and layout files hold static content only.
- The prediction service (`backend.py`): loading and running the model and the BMI arithmetic. Only the failure body's `error` member (the `Option<string>` of `SubmitFail`) and the lookup of the eleven keys (`Form.FromPayload`) are modelled.
- `Form.FromPayload`: models only the key lookups. The service's `int`/`float` conversion of each value is not modelled, and neither is its failure on an empty or non-numeric string (which the handler answers with status 500 and the exception's text). So a body that holds all eleven keys, such as that of `Defaults` with `age` empty, gets `Some` here but fails at the service. The optional `id` member, which defaults to 0, is not modelled either.
