/** The step controller of the wizard: an integer step over a fixed number of
    child steps, moved forward by the next control and back by the back link,
    firing `onStart` when leaving the introduction step and `onFinish` when
    pressing next on the last step. */
module Wizard {
  import opened Options
  import SlideShow

  /** The label of the next control between the wrapping steps. */
  const NEXT_TEXT: string := "Next"

  /** `defaultProps.currentStep` and `defaultProps.includeWrappingSteps`. */
  const DEFAULT_CURRENT_STEP: int := 0
  const DEFAULT_INCLUDE_WRAPPING_STEPS: bool := false

  /** A call of one of the consumer's callbacks. */
  datatype Callback = OnStart | OnFinish

  /** How the next control is drawn. */
  datatype Control = Button | Link

  /** The props that stay fixed: the number of child steps, whether the
      wrapping steps count as progress, and the two labels (either may be
      left out, and then the label is undefined). */
  datatype Settings = Settings(
    count: nat,
    includeWrappingSteps: bool,
    startText: Option<string>,
    finishText: Option<string>)

  /** The step and the callbacks fired so far, oldest first. */
  datatype Nav = Nav(step: int, fired: seq<Callback>)

  /** `isFirstStep`: only step 0 is first; a step reached by going back from
      it (-1) is not. */
  predicate IsFirst(step: int)
    ensures IsFirst(step) <==> step == 0
  {
    step == 0
  }

  /** `isLastStep`: any step at or past the final child counts as last, and
      inside the children only the final one does. */
  predicate IsLast(step: int, count: nat)
    ensures 0 <= step < count ==> (IsLast(step, count) <==> step == count - 1)
    ensures step >= count ==> IsLast(step, count)
    ensures step < count - 1 ==> !IsLast(step, count)
  {
    step >= count - 1
  }

  /** `getNextButtonText`: the start label on the first step when the wrapping
      steps are not progress, else the finish label on the last step, else
      "Next". */
  function GetNextButtonText(cfg: Settings, isFirstStep: bool, isLastStep: bool): (r: Option<string>)
    ensures isFirstStep && !cfg.includeWrappingSteps ==> r == cfg.startText
    ensures !(isFirstStep && !cfg.includeWrappingSteps) && isLastStep ==> r == cfg.finishText
    ensures !(isFirstStep && !cfg.includeWrappingSteps) && !isLastStep ==> r == Some(NEXT_TEXT)
  {
    if isFirstStep && !cfg.includeWrappingSteps then cfg.startText
    else if isLastStep then cfg.finishText
    else Some(NEXT_TEXT)
  }

  /** The choice in `renderNextButton`: a button on the first and last steps,
      a link in between. A link always carries the "Next" label, and a start
      or finish label is only ever shown on a button. */
  function NextControl(cfg: Settings, isFirstStep: bool, isLastStep: bool): (r: Control)
    ensures r == Button <==> isFirstStep || isLastStep
    ensures r == Link ==> GetNextButtonText(cfg, isFirstStep, isLastStep) == Some(NEXT_TEXT)
  {
    if isFirstStep || isLastStep then Button else Link
  }

  /** The label the next control shows at `step`, by position: with the
      wrapping steps excluded the start label on step 0; the finish label on
      every step from N-1 on (other than that step 0); "Next" strictly in
      between. With the wrapping steps included the start label is never
      chosen. */
  function LabelAt(cfg: Settings, step: int): (r: Option<string>)
    ensures !cfg.includeWrappingSteps && step == 0 ==> r == cfg.startText
    ensures (cfg.includeWrappingSteps || step != 0) && step >= cfg.count - 1 ==> r == cfg.finishText
    ensures (cfg.includeWrappingSteps || step != 0) && step < cfg.count - 1 ==> r == Some(NEXT_TEXT)
  {
    GetNextButtonText(cfg, IsFirst(step), IsLast(step, cfg.count))
  }

  /** The control drawn at `step`: a button on step 0 and from step N-1 on,
      a link strictly in between, and a link always says "Next". */
  function ControlAt(cfg: Settings, step: int): (r: Control)
    ensures r == Button <==> step == 0 || step >= cfg.count - 1
    ensures r == Link ==> LabelAt(cfg, step) == Some(NEXT_TEXT)
  {
    NextControl(cfg, IsFirst(step), IsLast(step, cfg.count))
  }

  /** `onNextSlideClicked`: on the last step it fires `onFinish` and stays;
      otherwise it fires `onStart` when leaving the first step with the
      wrapping steps excluded from progress, and then advances by one. */
  function NextClicked(cfg: Settings, nav: Nav): (r: Nav)
    ensures nav.fired <= r.fired && |r.fired| <= |nav.fired| + 1
    ensures OnFinish in r.fired[|nav.fired|..] <==> IsLast(nav.step, cfg.count)
    ensures OnStart in r.fired[|nav.fired|..]
        <==> !IsLast(nav.step, cfg.count) && IsFirst(nav.step) && !cfg.includeWrappingSteps
    ensures r.step == if IsLast(nav.step, cfg.count) then nav.step else nav.step + 1
  {
    if IsLast(nav.step, cfg.count) then
      nav.(fired := nav.fired + [OnFinish])
    else
      var fired := if IsFirst(nav.step) && !cfg.includeWrappingSteps then nav.fired + [OnStart] else nav.fired;
      Nav(nav.step + 1, fired)
  }

  /** `showPreviousSlide`: an unguarded decrement. */
  function Back(nav: Nav): (r: Nav)
    ensures r.step < nav.step && r.fired == nav.fired
    ensures r.step + 1 == nav.step
  {
    nav.(step := nav.step - 1)
  }

  /** The step `componentWillReceiveProps` leaves: the new prop is adopted only
      when it differs both from the step and from the previous prop. So a
      changed prop always wins, and a parent re-rendering with an unchanged
      prop never undoes the user's navigation. */
  function Adopt(step: int, oldProp: int, newProp: int): (r: int)
    ensures newProp != oldProp ==> r == newProp
    ensures newProp == oldProp ==> r == step
  {
    if newProp != step && newProp != oldProp then newProp else step
  }

  /** Pressing next `k` times. */
  function NextTimes(cfg: Settings, nav: Nav, k: nat): Nav
    decreases k
  {
    if k == 0 then nav else NextTimes(cfg, NextClicked(cfg, nav), k - 1)
  }

  /** Pressing back `k` times. */
  function BackTimes(nav: Nav, k: nat): Nav
    decreases k
  {
    if k == 0 then nav else BackTimes(Back(nav), k - 1)
  }

  /** How many of `k` presses of next move the step from `step`: all of them
      until the last step is reached, none from the last step on. */
  function Advanced(cfg: Settings, step: int, k: nat): nat {
    if IsLast(step, cfg.count) then 0
    else if k <= cfg.count - 1 - step then k
    else cfg.count - 1 - step
  }

  /** The bounds of `isFirstStep` and `isLastStep`: inside `[0, N-1]` the last
      step is exactly N-1; any step past the end counts as last; on a
      one-step wizard step 0 is both first and last. */
  lemma BoundaryFlags(cfg: Settings, step: int)
    ensures 0 <= step < cfg.count ==> (IsLast(step, cfg.count) <==> step == cfg.count - 1)
    ensures step >= cfg.count ==> IsLast(step, cfg.count)
    ensures IsFirst(step) && IsLast(step, cfg.count) <==> step == 0 && cfg.count <= 1
  {
  }

  /** Next from a step before the last one followed by back returns to it,
      having fired no `onFinish`. */
  lemma NextThenBack(cfg: Settings, nav: Nav)
    requires !IsLast(nav.step, cfg.count)
    ensures Back(NextClicked(cfg, nav)).step == nav.step
    ensures OnFinish !in Back(NextClicked(cfg, nav)).fired[|nav.fired|..]
  {
  }

  /** One press of next: it fires `onFinish` on the last step, `onStart` when
      leaving step 0 with the wrapping steps excluded, and nothing otherwise;
      a press that moves the step leaves one fewer moving press for the rest. */
  lemma OnePress(cfg: Settings, nav: Nav, k: nat)
    requires k > 0
    ensures multiset(NextClicked(cfg, nav).fired)
         == multiset(nav.fired)
            + if IsLast(nav.step, cfg.count) then multiset{OnFinish}
              else if IsFirst(nav.step) && !cfg.includeWrappingSteps then multiset{OnStart}
              else multiset{}
    ensures Advanced(cfg, nav.step, k)
         == if IsLast(nav.step, cfg.count) then 0 else Advanced(cfg, NextClicked(cfg, nav).step, k - 1) + 1
  {
  }

  /** `k` presses of next: the step moves by `Advanced`, every press that does
      not move it fires `onFinish`, and `onStart` fires once exactly when the
      presses carry the step forward off step 0 with the wrapping steps
      excluded. Nothing already in the log is lost. */
  lemma {:induction false} NextTimesEffect(cfg: Settings, nav: Nav, k: nat)
    ensures NextTimes(cfg, nav, k).step == nav.step + Advanced(cfg, nav.step, k)
    ensures nav.fired <= NextTimes(cfg, nav, k).fired
    ensures multiset(NextTimes(cfg, nav, k).fired)[OnFinish]
         == multiset(nav.fired)[OnFinish] + (k - Advanced(cfg, nav.step, k))
    ensures multiset(NextTimes(cfg, nav, k).fired)[OnStart]
         == multiset(nav.fired)[OnStart]
            + if !cfg.includeWrappingSteps && nav.step <= 0 < nav.step + Advanced(cfg, nav.step, k) then 1 else 0
    decreases k
  {
    if k > 0 {
      var nav1 := NextClicked(cfg, nav);
      NextTimesEffect(cfg, nav1, k - 1);
      OnePress(cfg, nav, k);
    }
  }

  /** `k` presses of back lower the step by `k` and fire nothing. */
  lemma {:induction false} BackTimesEffect(nav: Nav, k: nat)
    ensures BackTimes(nav, k).step == nav.step - k
    ensures BackTimes(nav, k).fired == nav.fired
    decreases k
  {
    if k > 0 {
      BackTimesEffect(Back(nav), k - 1);
    }
  }

  /** Round trip: `k` presses of next that stay short of the last step move
      forward by exactly `k` without firing `onFinish`, and `k` presses of back
      then return to the starting step. */
  lemma AdvanceRetreatRoundTrip(cfg: Settings, nav: Nav, k: nat)
    requires nav.step + k <= cfg.count - 1
    ensures NextTimes(cfg, nav, k).step == nav.step + k
    ensures multiset(NextTimes(cfg, nav, k).fired)[OnFinish] == multiset(nav.fired)[OnFinish]
    ensures BackTimes(NextTimes(cfg, nav, k), k).step == nav.step
  {
    NextTimesEffect(cfg, nav, k);
    BackTimesEffect(NextTimes(cfg, nav, k), k);
  }

  /** Pressing next on the last step any number of times never moves the step,
      fires `onFinish` once per press and never fires `onStart`. */
  lemma AtLastStepOnlyFinish(cfg: Settings, nav: Nav, k: nat)
    requires IsLast(nav.step, cfg.count)
    ensures NextTimes(cfg, nav, k).step == nav.step
    ensures multiset(NextTimes(cfg, nav, k).fired)[OnFinish] == multiset(nav.fired)[OnFinish] + k
    ensures multiset(NextTimes(cfg, nav, k).fired)[OnStart] == multiset(nav.fired)[OnStart]
  {
    NextTimesEffect(cfg, nav, k);
  }

  /** The six-step wizard with labels "Start" and "Finish" shows Start, Next,
      Next, Next, Next, Finish over steps 0 to 5. */
  lemma DocumentedLabels()
    ensures var cfg := Settings(6, false, Some("Start"), Some("Finish"));
            seq(6, i => LabelAt(cfg, i))
            == [Some("Start"), Some("Next"), Some("Next"), Some("Next"), Some("Next"), Some("Finish")]
  {
  }

  /** The step the wizard passes to the slideshow sets the direction: a press
      of next that moves goes left, a press of back goes right. */
  lemma NavigationDirection(cfg: Settings, nav: Nav, slides: SlideShow.Slides)
    requires slides.current == nav.step
    ensures !IsLast(nav.step, cfg.count) ==>
      SlideShow.DirectionClass(SlideShow.Receive(slides, NextClicked(cfg, nav).step)) == SlideShow.SLIDE_LEFT_CLASS
    ensures SlideShow.DirectionClass(SlideShow.Receive(slides, Back(nav).step)) == SlideShow.SLIDE_RIGHT_CLASS
  {
  }

  /** The six-step wizard of the demo page, first part: next from the
      introduction fires `onStart`, back returns to it, and next fires
      `onStart` a second time. */
  lemma DocumentedRevisit()
    ensures var cfg := Settings(6, false, Some("Start"), Some("Finish"));
            var n1 := NextClicked(cfg, Nav(0, []));
            n1 == Nav(1, [OnStart]) && Back(n1) == Nav(0, [OnStart]) &&
            NextClicked(cfg, Back(n1)) == Nav(1, [OnStart, OnStart])
  {
  }

  /** The six-step wizard of the demo page, second part: from step 1 four
      presses of next reach the finish step without firing anything, and next
      there fires `onFinish` without moving. */
  lemma DocumentedFinish(log: seq<Callback>)
    ensures var cfg := Settings(6, false, Some("Start"), Some("Finish"));
            NextTimes(cfg, Nav(1, log), 4) == Nav(5, log) &&
            NextClicked(cfg, Nav(5, log)) == Nav(5, log + [OnFinish])
  {
  }

  /** The wizard component. `currentStep` stands for `this.state.currentStep`,
      `stepProp` for `this.props.currentStep` as last received, `fired` for the
      calls made to `onStart` and `onFinish`. The embedded slideshow always
      shows the wizard's step. */
  class Wizard<Step> {
    const steps: seq<Step>
    const includeWrappingSteps: bool
    const startText: Option<string>
    const finishText: Option<string>
    const slideshow: SlideShow.Slideshow<Step>
    var currentStep: int
    var stepProp: int
    var fired: seq<Callback>

    /** The slideshow was rendered with the wizard's children and step. */
    ghost predicate Valid()
      reads this, slideshow
    {
      slideshow.children == steps && slideshow.current == currentStep
    }

    /** The fixed props as a value. */
    function Config(): Settings {
      Settings(|steps|, includeWrappingSteps, startText, finishText)
    }

    /** The step and the callback log as a value. */
    function Position(): Nav
      reads this
    {
      Nav(currentStep, fired)
    }

    constructor (steps: seq<Step>, currentStepProp: Option<int>, includeWrappingStepsProp: Option<bool>,
                 startText: Option<string>, finishText: Option<string>)
      ensures Valid() && fresh(slideshow)
      ensures this.steps == steps && this.startText == startText && this.finishText == finishText
      ensures includeWrappingSteps == includeWrappingStepsProp.GetOr(DEFAULT_INCLUDE_WRAPPING_STEPS)
      ensures currentStep == currentStepProp.GetOr(DEFAULT_CURRENT_STEP) && stepProp == currentStep
      ensures fired == []
      ensures slideshow.State() == SlideShow.Initial(currentStep)
    {
      var step := currentStepProp.GetOr(DEFAULT_CURRENT_STEP);
      this.steps := steps;
      this.includeWrappingSteps := includeWrappingStepsProp.GetOr(DEFAULT_INCLUDE_WRAPPING_STEPS);
      this.startText := startText;
      this.finishText := finishText;
      currentStep := step;
      stepProp := step;
      fired := [];
      slideshow := new SlideShow.Slideshow(Some(step), steps);
    }

    /** The re-render that hands the step to the slideshow. */
    method Render()
      requires slideshow.children == steps
      modifies slideshow
      ensures Valid()
      ensures slideshow.State() == SlideShow.Receive(old(slideshow.State()), currentStep)
    {
      slideshow.ReceiveProps(Some(currentStep));
    }

    /** `setCurrentStep`: the new state, then the re-render. */
    method SetCurrentStep(slideIndex: int)
      requires Valid()
      modifies this, slideshow
      ensures Valid()
      ensures currentStep == slideIndex && stepProp == old(stepProp) && fired == old(fired)
      ensures slideshow.State() == SlideShow.Receive(old(slideshow.State()), slideIndex)
    {
      currentStep := slideIndex;
      Render();
    }

    /** `showNextSlide`. */
    method ShowNextSlide()
      requires Valid()
      modifies this, slideshow
      ensures Valid()
      ensures currentStep == old(currentStep) + 1 && stepProp == old(stepProp) && fired == old(fired)
      ensures slideshow.State() == SlideShow.Receive(old(slideshow.State()), currentStep)
      ensures slideshow.DirectionSlideClass() == SlideShow.SLIDE_LEFT_CLASS
    {
      SetCurrentStep(currentStep + 1);
    }

    /** `showPreviousSlide`, the back link: no lower bound. */
    method ShowPreviousSlide()
      requires Valid()
      modifies this, slideshow
      ensures Valid()
      ensures Position() == Back(old(Position())) && stepProp == old(stepProp)
      ensures slideshow.State() == SlideShow.Receive(old(slideshow.State()), currentStep)
      ensures slideshow.DirectionSlideClass() == SlideShow.SLIDE_RIGHT_CLASS
    {
      SetCurrentStep(currentStep - 1);
    }

    /** `onNextSlideClicked`. On the last step there is no new state, so the
        slideshow is not touched. */
    method OnNextSlideClicked()
      requires Valid()
      modifies this, slideshow
      ensures Valid()
      ensures Position() == NextClicked(Config(), old(Position())) && stepProp == old(stepProp)
      ensures IsLast(old(currentStep), |steps|) ==> slideshow.State() == old(slideshow.State())
      ensures !IsLast(old(currentStep), |steps|) ==>
        slideshow.State() == SlideShow.Receive(old(slideshow.State()), currentStep)
        && slideshow.DirectionSlideClass() == SlideShow.SLIDE_LEFT_CLASS
    {
      if IsLast(currentStep, |steps|) {
        fired := fired + [OnFinish];
      } else {
        if IsFirst(currentStep) && !includeWrappingSteps {
          fired := fired + [OnStart];
        }
        ShowNextSlide();
      }
    }

    /** `componentWillReceiveProps`, then React adopting the new props and
        re-rendering. */
    method ReceiveProps(nextStepProp: Option<int>)
      requires Valid()
      modifies this, slideshow
      ensures Valid()
      ensures stepProp == nextStepProp.GetOr(DEFAULT_CURRENT_STEP)
      ensures currentStep == Adopt(old(currentStep), old(stepProp), stepProp)
      ensures fired == old(fired)
      ensures slideshow.State() == SlideShow.Receive(old(slideshow.State()), currentStep)
    {
      var next := nextStepProp.GetOr(DEFAULT_CURRENT_STEP);
      if next != currentStep && next != stepProp {
        currentStep := next;
      }
      stepProp := next;
      Render();
    }
  }
}
