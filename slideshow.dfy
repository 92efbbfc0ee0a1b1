/** The slide presenter: it shows the child at index `current` and chooses the
    direction of the transition by comparing `current` with the slide that was
    shown before the most recent change of `current`. */
module SlideShow {
  import opened Options

  /** The two direction classes handed to the transition. */
  const SLIDE_LEFT_CLASS: string := "slide-left"
  const SLIDE_RIGHT_CLASS: string := "slide-right"

  /** `defaultProps.current`. */
  const DEFAULT_CURRENT: int := 0

  /** What the component tracks: the `current` prop and the `lastSlide` state. */
  datatype Slides = Slides(current: int, lastSlide: int)

  /** The state right after construction: `lastSlide` is the first `current`. */
  function Initial(current: int): (s: Slides)
    ensures s.current == current && s.lastSlide == current
    ensures DirectionClass(s) == SLIDE_LEFT_CLASS
  {
    Slides(current, current)
  }

  /** The direction class: left when moving to an index at least as large as the
      previous one, right otherwise. */
  function DirectionClass(s: Slides): (r: string)
    ensures r == SLIDE_LEFT_CLASS || r == SLIDE_RIGHT_CLASS
    ensures r == SLIDE_LEFT_CLASS <==> s.current >= s.lastSlide
    ensures r == SLIDE_RIGHT_CLASS <==> s.current < s.lastSlide
  {
    if s.current >= s.lastSlide then SLIDE_LEFT_CLASS else SLIDE_RIGHT_CLASS
  }

  /** Receiving the `current` prop `next`: when it differs from the previous
      prop, `lastSlide` takes the previous prop; then `current` becomes `next`. */
  function Receive(s: Slides, next: int): (r: Slides)
    ensures r.current == next
    ensures next != s.current ==> r.lastSlide == s.current && r.lastSlide != r.current
    ensures next == s.current ==> r == s
  {
    Slides(next, if next != s.current then s.current else s.lastSlide)
  }

  /** Receiving the props `nexts`, one after the other. */
  function ReceiveAll(s: Slides, nexts: seq<int>): Slides
    decreases |nexts|
  {
    if nexts == [] then s else ReceiveAll(Receive(s, nexts[0]), nexts[1..])
  }

  /** The active panel: the child at index `current`, or no panel at all when
      the index is outside the children (the lookup yields `undefined`). */
  function ActivePanel<T>(children: seq<T>, current: int): (r: Option<T>)
    ensures r.Some? <==> 0 <= current < |children|
    ensures r.Some? ==> r.value == children[current]
  {
    if 0 <= current < |children| then Some(children[current]) else None
  }

  /** Receiving the prop it already holds changes nothing, however often. */
  lemma ReceiveIdempotent(s: Slides, next: int)
    ensures Receive(Receive(s, next), next) == Receive(s, next)
    ensures Receive(s, s.current) == s
  {
  }

  /** After a change from `a` to `b != a` the direction is left exactly when
      the index went up and right exactly when it went down. */
  lemma DirectionAfterChange(s: Slides, b: int)
    requires b != s.current
    ensures DirectionClass(Receive(s, b)) == SLIDE_LEFT_CLASS <==> b > s.current
    ensures DirectionClass(Receive(s, b)) == SLIDE_RIGHT_CLASS <==> b < s.current
  {
  }

  /** After any run of received props, `current` is the last prop received, and
      `lastSlide` equals `current` exactly when `current` never changed: once
      the index has moved, the previous slide is always a different one. */
  lemma {:induction false} ReceiveAllHistory(s: Slides, nexts: seq<int>)
    ensures ReceiveAll(s, nexts).current == if nexts == [] then s.current else nexts[|nexts| - 1]
    ensures ReceiveAll(s, nexts).lastSlide == ReceiveAll(s, nexts).current
        <==> s.lastSlide == s.current && forall i | 0 <= i < |nexts| :: nexts[i] == s.current
    decreases |nexts|
  {
    if nexts != [] {
      var s1 := Receive(s, nexts[0]);
      var rest := nexts[1..];
      ReceiveAllHistory(s1, rest);
      assert forall i | 0 <= i < |rest| :: rest[i] == nexts[i + 1];
      if nexts[0] == s.current {
        assert s1 == s;
        if forall i | 0 <= i < |rest| :: rest[i] == s.current {
          assert forall i | 0 <= i < |nexts| :: nexts[i] == s.current by {
            forall i | 0 <= i < |nexts| ensures nexts[i] == s.current {
              if i > 0 { assert nexts[i] == rest[i - 1]; }
            }
          }
        }
      }
    }
  }

  /** The sequence of props 2, 4, 1, 1 gives the directions left (start),
      left, right, and right again (the repeated 1 changes nothing). */
  lemma DirectionsExample()
    ensures var s0 := Initial(2);
            var s1 := Receive(s0, 4);
            var s2 := Receive(s1, 1);
            var s3 := Receive(s2, 1);
            DirectionClass(s0) == SLIDE_LEFT_CLASS &&
            DirectionClass(s1) == SLIDE_LEFT_CLASS &&
            DirectionClass(s2) == SLIDE_RIGHT_CLASS &&
            s3 == s2 && DirectionClass(s3) == SLIDE_RIGHT_CLASS
  {
  }

  /** The slideshow component. `current` stands for `this.props.current`,
      `lastSlide` for `this.state.lastSlide`. */
  class Slideshow<T> {
    const children: seq<T>
    var current: int
    var lastSlide: int

    /** The tracked pair as a value. */
    function State(): Slides
      reads this
    {
      Slides(current, lastSlide)
    }

    constructor (currentProp: Option<int>, children: seq<T>)
      ensures this.children == children
      ensures State() == Initial(currentProp.GetOr(DEFAULT_CURRENT))
    {
      this.children := children;
      current := currentProp.GetOr(DEFAULT_CURRENT);
      lastSlide := currentProp.GetOr(DEFAULT_CURRENT);
    }

    /** `componentWillReceiveProps`, followed by React adopting the new props. */
    method ReceiveProps(nextCurrent: Option<int>)
      modifies this
      ensures State() == Receive(old(State()), nextCurrent.GetOr(DEFAULT_CURRENT))
    {
      var next := nextCurrent.GetOr(DEFAULT_CURRENT);
      if next != current {
        lastSlide := current;
      }
      current := next;
    }

    /** `getDirectionSlideClass`. */
    function DirectionSlideClass(): (r: string)
      reads this
      ensures r == SLIDE_LEFT_CLASS <==> current >= lastSlide
      ensures r == SLIDE_RIGHT_CLASS <==> current < lastSlide
    {
      DirectionClass(State())
    }

    /** The panel `render` puts on screen. */
    function Panel(): (r: Option<T>)
      reads this
      ensures r.Some? <==> 0 <= current < |children|
      ensures r.Some? ==> r.value == children[current]
    {
      ActivePanel(children, current)
    }
  }
}
