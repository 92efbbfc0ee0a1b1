# Wizard and slideshow step state machine

This project models the state logic of two React widgets:

- **Wizard** (`src/Wizard/index.js`): a multi-step flow over a fixed number of
  child steps. It keeps an integer `currentStep`. The next control advances it,
  firing the consumer's `onStart` callback when leaving step 0 unless
  `includeWrappingSteps` is set, and fires `onFinish` instead of moving when
  pressed on the last step. The back link decrements it without a
  lower bound. A new `currentStep` prop is adopted only when it differs both from
  the current step and from the previous prop. The next control's label is the
  start text, the finish text or "Next", and the control is drawn as a button on
  the first and last steps and as a link in between.
- **Slideshow** (`src/SlideShow/index.js`): shows the child at index `current`.
  It remembers in `lastSlide` the index that was current before the most recent
  change, and picks the transition class `slide-left` when `current >= lastSlide`
  and `slide-right` otherwise. An index outside the children shows no panel.

The Dafny model has three modules:

- `Options` (`options.dfy`): an optional prop. `GetOr` applies the component's
  `defaultProps`.
- `SlideShow` (`slideshow.dfy`): the pure transition on the pair
  `Slides(current, lastSlide)`, the direction class, the active-panel lookup, and
  the class `Slideshow` whose methods are proved to follow those functions.
- `Wizard` (`wizard.dfy`): the pure step machine on `Nav(step, fired)`. Here
  `fired` is the log of `onStart`/`onFinish` calls. The module also holds the
  label and control choice, the prop-adoption rule, and the class `Wizard`. The
  class owns the `Slideshow` it renders into (`<Slideshow current={currentStep}>`),
  and after every state change it hands its step to the slideshow. Its invariant
  `Valid()` is that the slideshow shows the wizard's step and children.

The step is an `int`, and two facts about the code shape the model:

- `isLastStep` compares with `>=` (`src/Wizard/index.js:70`), so every step past
  the end also counts as last (`Wizard.IsLast`, `Wizard.BoundaryFlags`).
- Nothing clamps the step. The back link decrements it unconditionally
  (`src/Wizard/index.js:49`), and an adopted prop is taken as it is
  (`src/Wizard/index.js:54`). Back at step 0 gives -1.

## Model

| member | source | states |
|---|---|---|
| `SlideShow.Initial` | src/SlideShow/index.js:33-35 | after construction `lastSlide` equals `current`, so the first direction is `slide-left` |
| `SlideShow.DirectionClass` | src/SlideShow/index.js:48-50 | the class is always one of the two constants; it is `slide-left` iff `current >= lastSlide` and `slide-right` iff `current < lastSlide` |
| `SlideShow.Receive` | src/SlideShow/index.js:38-42 | after a prop change `lastSlide` is the old `current`, so it differs from the new `current`; the same prop leaves the state as it was; `current` becomes the new prop |
| `SlideShow.ActivePanel` | src/SlideShow/index.js:55-61 | there is a panel iff `0 <= current` and `current` is below the number of children, and then it is `children[current]`; otherwise the lookup yields nothing and does not fail |
| `SlideShow.ReceiveIdempotent` | src/SlideShow/index.js:38-42 | receiving the value already held, any number of times, changes nothing |
| `SlideShow.DirectionAfterChange` | src/SlideShow/index.js:38-50 | after a change from `a` to `b != a` the direction is left iff `b > a` and right iff `b < a` |
| `SlideShow.ReceiveAllHistory` | src/SlideShow/index.js:33-50 | after any run of props `current` is the last prop, and `lastSlide == current` holds iff the index never changed |
| `SlideShow.DirectionsExample` | src/SlideShow/index.js:38-50 | for example, props 2, 4, 1, 1 give the directions left, left, right, right; the repeated 1 changes no state |
| `SlideShow.Slideshow.constructor` | src/SlideShow/index.js:30-36 | `current` is the prop or its default 0, and `lastSlide` equals it |
| `SlideShow.Slideshow.ReceiveProps` | src/SlideShow/index.js:38-42 | the new pair is `Receive` of the old pair and the new prop (default 0) |
| `SlideShow.Slideshow.DirectionSlideClass` | src/SlideShow/index.js:48-50 | `slide-left` iff `current >= lastSlide`, and `slide-right` iff `current < lastSlide` |
| `SlideShow.Slideshow.Panel` | src/SlideShow/index.js:52-61 | a panel is shown iff the index is inside the children, and it is the child at that index |
| `Wizard.IsFirst` | src/Wizard/index.js:61-63 | holds iff the step is 0 |
| `Wizard.IsLast` | src/Wizard/index.js:69-71 | inside `[0, N-1]` holds iff the step is N-1; holds for every step from N on; never holds below N-1 |
| `Wizard.LabelAt` | src/Wizard/index.js:117 | by step: start text on step 0 when wrapping steps are excluded; finish text from N-1 on (except that step 0); "Next" strictly in between; never the start text when wrapping steps are included |
| `Wizard.ControlAt` | src/Wizard/index.js:119-125 | a button iff the step is 0 or at least N-1, a link strictly in between; a link always says "Next" |
| `Wizard.GetNextButtonText` | src/Wizard/index.js:86-96 | the start text on the first step with the wrapping steps excluded; otherwise the finish text on the last step; otherwise "Next" |
| `Wizard.NextControl` | src/Wizard/index.js:115-129 | a button iff the step is first or last; a link always carries the "Next" label |
| `Wizard.NextClicked` | src/Wizard/index.js:101-113 | at most one callback per press, and the log only grows; `onFinish` fires iff the step is last; `onStart` fires iff the step is not last, is 0, and wrapping steps are excluded; the step stays on the last step and otherwise grows by 1 |
| `Wizard.Back` | src/Wizard/index.js:49 | the step drops by exactly 1 with no lower bound, and no callback fires |
| `Wizard.Adopt` | src/Wizard/index.js:52-56 | a changed prop always becomes the step; an unchanged prop never overrides the step, so a parent re-render does not undo navigation |
| `Wizard.BoundaryFlags` | src/Wizard/index.js:61-71 | inside `[0, N-1]` the last step is exactly N-1; any step from N on counts as last; step 0 is both first and last iff N <= 1 |
| `Wizard.NextThenBack` | src/Wizard/index.js:101-112 | next from a non-last step followed by back returns to the same step, with no `onFinish` |
| `Wizard.OnePress` | src/Wizard/index.js:101-112 | one press adds `onFinish` on the last step, `onStart` when leaving step 0 with wrapping steps excluded, and nothing otherwise |
| `Wizard.NextTimesEffect` | src/Wizard/index.js:101-112 | `k` presses move the step forward until the last step; each press that does not move fires `onFinish`; `onStart` fires once iff the moves pass off step 0 with wrapping steps excluded (again after going back to 0) |
| `Wizard.BackTimesEffect` | src/Wizard/index.js:49 | `k` presses of back lower the step by `k` and fire nothing |
| `Wizard.AdvanceRetreatRoundTrip` | src/Wizard/index.js:48-49 | `k` presses of next that stay short of the last step move by exactly `k` without `onFinish`, and `k` presses of back return to the start |
| `Wizard.AtLastStepOnlyFinish` | src/Wizard/index.js:103-104 | on the last step every press fires `onFinish` once, never `onStart`, and never moves the step (this includes N = 1) |
| `Wizard.DocumentedLabels` | src/Wizard/index.js:16-23 | the six-step example with Start/Finish shows Start, Next, Next, Next, Next, Finish |
| `Wizard.NavigationDirection` | src/Wizard/index.js:144 | the step handed to the slideshow turns a moving next into `slide-left` and back into `slide-right` |
| `Wizard.DocumentedRevisit` | src/Wizard/index.js:101-112 | in the six-step example, next, back, next fires `onStart` twice and ends on step 1 |
| `Wizard.DocumentedFinish` | src/Wizard/index.js:101-112 | in the six-step example, four presses from step 1 reach step 5 silently; next there fires `onFinish` and stays |
| `Wizard.Wizard.constructor` | src/Wizard/index.js:36-50 | the step is the prop or its default 0; `includeWrappingSteps` defaults to false; the log is empty; the slideshow starts on the same step |
| `Wizard.Wizard.Render` | src/Wizard/index.js:144 | the slideshow receives the wizard's step as its `current` prop |
| `Wizard.Wizard.SetCurrentStep` | src/Wizard/index.js:77-79 | the step becomes the argument and the slideshow receives it; nothing else changes |
| `Wizard.Wizard.ShowNextSlide` | src/Wizard/index.js:48 | the step grows by 1 and the slideshow direction is `slide-left` |
| `Wizard.Wizard.ShowPreviousSlide` | src/Wizard/index.js:49 | the step drops by 1 (`Back`) and the slideshow direction is `slide-right` |
| `Wizard.Wizard.OnNextSlideClicked` | src/Wizard/index.js:101-113 | step and log follow `NextClicked`; on the last step the slideshow is untouched; otherwise it slides left |
| `Wizard.Wizard.ReceiveProps` | src/Wizard/index.js:52-56 | the step follows `Adopt`; the remembered prop becomes the new one (default 0); the log is unchanged; the slideshow receives the step |

## Left out

- Rendering: the JSX markup, `classNames`, the CSS class strings other than the
  two direction classes, and the `TransitionGroup`/`CSSTransition` machinery.
  These are presentation and third-party code.
- The 500 ms `SLIDE_DURATION` timer and the enter/exit animation lifecycle. These
  are timing, not state logic.
- React's asynchronous, batched `setState` and its lifecycle scheduling. Each
  method is one atomic, sequential update, followed by the re-render it causes.
- The callbacks' own effects. `onStart` and `onFinish` are recorded as entries in
  the log `fired`; the `_.noop` defaults are an empty effect and need nothing more.
- Props other than `currentStep` (children, `includeWrappingSteps`, `startText`,
  `finishText`) are fixed for the wizard's lifetime. The `className` and
  `isMobile` props do not affect state.
- `React.Children.count` and `React.Children.toArray` are taken to agree, so the
  step count is the length of the children sequence. The way they treat `null`
  or boolean children is not modelled.
- Steps are integers. A non-integer number such as 1.5 (accepted by
  `PropTypes.number`) and non-numeric props are not modelled.
- A callback passed explicitly as `null` makes `this.props.onFinish()` or
  `this.props.onStart()` throw (`src/Wizard/index.js:104`, `:108`). The model
  only logs the call and does not model that failure.
- `src/index.js` (mounting the demo into the page) is I/O. Its six-step wizard
  appears only as the example in `Wizard.DocumentedLabels`,
  `Wizard.DocumentedRevisit` and `Wizard.DocumentedFinish`.
- `src/Wizard/WizardStep/index.js` only wraps its children. Its `onStepStart` and
  `onStepFinish` props are never called.
