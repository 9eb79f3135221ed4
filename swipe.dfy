/**
 * The paged swipe view: a tracker of the page `index`, the materialised
 * neighbours `left` and `right` of the displayed view `current`, a
 * `scrolling` flag for a driven animation in flight and the pending target
 * `jumpSwap` of an animated jump.
 *
 * Views are opaque handles of type `H`. The delegate's content provider is a
 * function `p: int -> Option<H>` passed to every operation that consults it
 * (a missing delegate is the provider that always answers `None`). The
 * scroll view's `isDecelerating` flag and the page `shift` it settled on are
 * inputs; an animated move returns the page it asks the scroll view to show.
 *
 * The first half gives each operation as a function on a `Pager` value; the
 * class `SwipeView` at the end updates its fields in place and is proved to
 * follow those functions.
 */
module Swipe {
  import opened Options

  /** The tracker's state. */
  datatype Pager<H> = Pager(
    index: int,
    left: Option<H>,
    current: Option<H>,
    right: Option<H>,
    scrolling: bool,
    jumpSwap: Option<int>)

  /** What the page views hold after layout: nothing, or the pages in order with the slot the scroll view shows. */
  datatype Slots<H> = Cleared | Arranged(pages: seq<H>, visible: nat)

  /** No neighbour is materialised without a current view. */
  predicate Centred<H>(s: Pager<H>) {
    s.current.None? ==> s.left.None? && s.right.None?
  }

  /** Beside a current view, a neighbour is missing only when the provider has none for its index. */
  predicate Filled<H>(s: Pager<H>, p: int -> Option<H>) {
    s.current.Some? ==>
      (s.left.None? ==> p(s.index - 1).None?) && (s.right.None? ==> p(s.index + 1).None?)
  }

  /** The triple is exactly what the provider gives around `index`. */
  ghost predicate Fresh<H>(s: Pager<H>, p: int -> Option<H>) {
    && s.current == p(s.index)
    && (s.current.Some? ==> s.left == p(s.index - 1) && s.right == p(s.index + 1))
    && Centred(s)
  }

  // ---------------------------------------------------------------------------
  // Layout

  /** The lazy neighbour fetch of `_layoutSubviews`. */
  function LaidOut<H>(s: Pager<H>, p: int -> Option<H>): (t: Pager<H>)
    ensures t.index == s.index && t.current == s.current
    ensures t.scrolling == s.scrolling && t.jumpSwap == s.jumpSwap
    ensures s.current.None? ==> t == s
    ensures s.left.Some? ==> t.left == s.left
    ensures s.right.Some? ==> t.right == s.right
    ensures s.current.Some? && s.left.None? ==> t.left == p(s.index - 1)
    ensures s.current.Some? && s.right.None? ==> t.right == p(s.index + 1)
    ensures Filled(t, p)
    ensures Centred(s) ==> Centred(t)
  {
    if s.current.None? then s
    else s.(left := s.left.OrElse(p(s.index - 1)), right := s.right.OrElse(p(s.index + 1)))
  }

  /** The slot arrangement of `_layoutSubviews`: one, two or three pages, left before current before right. */
  function Arrange<H>(left: Option<H>, current: Option<H>, right: Option<H>): (a: Slots<H>)
    ensures current.None? <==> a.Cleared?
    ensures a.Arranged? ==>
      && |a.pages| == 1 + |left.Elements()| + |right.Elements()|
      && a.visible == (if left.Some? then 1 else 0)
      && a.visible < |a.pages|
      && a.pages[a.visible] == current.value
      && (left.Some? ==> a.pages[0] == left.value)
      && (right.Some? ==> a.pages[|a.pages| - 1] == right.value)
  {
    if current.None? then Cleared
    else Arranged(left.Elements() + [current.value] + right.Elements(), if left.Some? then 1 else 0)
  }

  /** The page an animated move towards the left neighbour asks for. */
  const LeftPage := 0

  /** The page an animated move towards the right neighbour asks for: right after current. */
  function RightPage<H>(left: Option<H>): (page: int)
    ensures page == 1 + |left.Elements()|
  {
    if left.None? then 1 else 2
  }

  // ---------------------------------------------------------------------------
  // Reload and the non-animated moves

  /** `reload`: fetch `current` at `index`, and its neighbours when it is present. */
  function Reloaded<H>(s: Pager<H>, p: int -> Option<H>): (t: Pager<H>)
    ensures t.index == s.index && t.current == p(s.index)
    ensures t.scrolling == s.scrolling && t.jumpSwap == s.jumpSwap
    ensures t.current.Some? ==> t.left == p(s.index - 1) && t.right == p(s.index + 1)
    ensures Fresh(t, p) && Filled(t, p)
  {
    var c := p(s.index);
    LaidOut(s.(current := c,
               left := if c.Some? then p(s.index - 1) else None,
               right := if c.Some? then p(s.index + 1) else None), p)
  }

  /** Non-animated `swapToLeft`. */
  function SteppedLeft<H>(s: Pager<H>, p: int -> Option<H>): (t: Pager<H>)
    ensures s.left.None? ==> t == s
    ensures s.left.Some? ==>
      && t.index == s.index - 1
      && t.current == s.left
      && t.left == p(s.index - 2)
      && t.right == s.current.OrElse(p(s.index))
      && !t.scrolling && t.jumpSwap.None?
      && Centred(t) && Filled(t, p)
  {
    if s.left.None? then s
    else LaidOut(s.(jumpSwap := None, scrolling := false,
                    right := s.current, current := s.left, left := None,
                    index := s.index - 1), p)
  }

  /** Non-animated `swapToRight`. */
  function SteppedRight<H>(s: Pager<H>, p: int -> Option<H>): (t: Pager<H>)
    ensures s.right.None? ==> t == s
    ensures s.right.Some? ==>
      && t.index == s.index + 1
      && t.current == s.right
      && t.right == p(s.index + 2)
      && t.left == s.current.OrElse(p(s.index))
      && !t.scrolling && t.jumpSwap.None?
      && Centred(t) && Filled(t, p)
  {
    if s.right.None? then s
    else LaidOut(s.(jumpSwap := None, scrolling := false,
                    left := s.current, current := s.right, right := None,
                    index := s.index + 1), p)
  }

  /** Whether `swapToView(target)` does anything at all. */
  predicate JumpApplies<H>(s: Pager<H>, target: int, p: int -> Option<H>) {
    target != s.index && p(target).Some?
  }

  /** Non-animated `swapToView`: both old neighbours are dropped and fetched again around `target`. */
  function JumpedTo<H>(s: Pager<H>, target: int, p: int -> Option<H>): (t: Pager<H>)
    ensures !JumpApplies(s, target, p) ==> t == s
    ensures JumpApplies(s, target, p) ==>
      && t.index == target
      && t.current == p(target)
      && t.left == p(target - 1)
      && t.right == p(target + 1)
      && !t.scrolling && t.jumpSwap.None?
      && Fresh(t, p)
  {
    if !JumpApplies(s, target, p) then s
    else LaidOut(s.(jumpSwap := None, scrolling := false,
                    right := None, current := p(target), left := None,
                    index := target), p)
  }

  // ---------------------------------------------------------------------------
  // The animated moves: they only start a driven scroll

  /** Whether an animated move may start: none is in flight and the scroll view is at rest. */
  predicate Idle<H>(s: Pager<H>, decelerating: bool) {
    !s.scrolling && !decelerating
  }

  /** Animated `swapToLeft`. */
  function StepLeftStarted<H>(s: Pager<H>, decelerating: bool): (t: Pager<H>)
    ensures t.index == s.index && t.left == s.left && t.current == s.current && t.right == s.right
    ensures s.left.None? || !Idle(s, decelerating) ==> t == s
    ensures s.left.Some? && Idle(s, decelerating) ==> t.scrolling && t.jumpSwap.None?
  {
    if s.left.Some? && Idle(s, decelerating) then s.(jumpSwap := None, scrolling := true) else s
  }

  /** Animated `swapToRight`. */
  function StepRightStarted<H>(s: Pager<H>, decelerating: bool): (t: Pager<H>)
    ensures t.index == s.index && t.left == s.left && t.current == s.current && t.right == s.right
    ensures s.right.None? || !Idle(s, decelerating) ==> t == s
    ensures s.right.Some? && Idle(s, decelerating) ==> t.scrolling && t.jumpSwap.None?
  {
    if s.right.Some? && Idle(s, decelerating) then s.(jumpSwap := None, scrolling := true) else s
  }

  /**
   * Animated `swapToView`: the target's view is placed as the neighbour on its
   * side and the jump target is remembered for the settle.
   */
  function JumpStarted<H>(s: Pager<H>, target: int, decelerating: bool, p: int -> Option<H>): (t: Pager<H>)
    ensures t.index == s.index && t.current == s.current
    ensures !(JumpApplies(s, target, p) && Idle(s, decelerating)) ==> t == s
    ensures JumpApplies(s, target, p) && Idle(s, decelerating) ==>
      && t.scrolling && t.jumpSwap == Some(target)
      && (target < s.index ==> t.left == p(target) && (s.right.Some? ==> t.right == s.right))
      && (target < s.index && s.right.None? ==> t.right == (if s.current.Some? then p(s.index + 1) else None))
      && (target > s.index ==> t.right == p(target) && (s.left.Some? ==> t.left == s.left))
      && (target > s.index && s.left.None? ==> t.left == (if s.current.Some? then p(s.index - 1) else None))
  {
    if !(JumpApplies(s, target, p) && Idle(s, decelerating)) then s
    else if target < s.index then
      LaidOut(s.(jumpSwap := Some(target), scrolling := true, left := p(target)), p)
    else
      LaidOut(s.(jumpSwap := Some(target), scrolling := true, right := p(target)), p)
  }

  // ---------------------------------------------------------------------------
  // Settle reconciliation (`endMoving`)

  /** The scroll view came to rest on the left neighbour. */
  predicate SettlesLeft<H>(s: Pager<H>, shift: int) {
    shift == 0 && s.left.Some?
  }

  /** The scroll view came to rest one page after `current`, on the right neighbour. */
  predicate SettlesRight<H>(s: Pager<H>, shift: int) {
    ((s.left.None? && shift == 1) || (s.left.Some? && shift == 2)) && s.right.Some?
  }

  /** `endMoving`: promote the neighbour the scroll view settled on; any other page leaves everything as it was. */
  function Settled<H>(s: Pager<H>, shift: int, p: int -> Option<H>): (t: Pager<H>)
    ensures t.scrolling == s.scrolling && t.jumpSwap == s.jumpSwap
    ensures !SettlesLeft(s, shift) && !SettlesRight(s, shift) ==> t == s
    ensures SettlesLeft(s, shift) ==>
      && t.current == s.left
      && t.index == (if s.jumpSwap.None? then s.index - 1 else s.jumpSwap.value)
      && t.left == p(t.index - 1)
      && t.right == (if s.jumpSwap.None? then s.current else None).OrElse(p(t.index + 1))
      && Centred(t) && Filled(t, p)
    ensures SettlesRight(s, shift) ==>
      && t.current == s.right
      && t.index == (if s.jumpSwap.None? then s.index + 1 else s.jumpSwap.value)
      && t.right == p(t.index + 1)
      && t.left == (if s.jumpSwap.None? then s.current else None).OrElse(p(t.index - 1))
      && Centred(t) && Filled(t, p)
  {
    if SettlesLeft(s, shift) then
      LaidOut(s.(right := if s.jumpSwap.None? then s.current else None,
                 current := s.left, left := None,
                 index := if s.jumpSwap.None? then s.index - 1 else s.jumpSwap.value), p)
    else if SettlesRight(s, shift) then
      LaidOut(s.(left := if s.jumpSwap.None? then s.current else None,
                 current := s.right, right := None,
                 index := if s.jumpSwap.None? then s.index + 1 else s.jumpSwap.value), p)
    else s
  }

  /** `scrollViewDidEndScrollingAnimation`: settle, then leave the driven-animation state whatever happened. */
  function AnimationEnded<H>(s: Pager<H>, shift: int, p: int -> Option<H>): (t: Pager<H>)
    ensures !t.scrolling && t.jumpSwap.None?
    ensures var u := Settled(s, shift, p);
      t.index == u.index && t.left == u.left && t.current == u.current && t.right == u.right
  {
    Settled(s, shift, p).(jumpSwap := None, scrolling := false)
  }

  // ---------------------------------------------------------------------------
  // Properties relating the operations

  /** `reload` makes the triple fresh, and on a fresh state it changes nothing: it is idempotent. */
  lemma ReloadIdempotent<H>(s: Pager<H>, p: int -> Option<H>)
    ensures Fresh(s, p) ==> Reloaded(s, p) == s
    ensures Reloaded(Reloaded(s, p), p) == Reloaded(s, p)
  {
  }

  /** On a fresh state, a non-animated step left undone by a step right restores the state. */
  lemma StepLeftThenRight<H>(s: Pager<H>, p: int -> Option<H>)
    requires Fresh(s, p) && s.left.Some? && !s.scrolling && s.jumpSwap.None?
    ensures SteppedRight(SteppedLeft(s, p), p) == s
  {
  }

  /** On a fresh state, a non-animated step right undone by a step left restores the state. */
  lemma StepRightThenLeft<H>(s: Pager<H>, p: int -> Option<H>)
    requires Fresh(s, p) && s.right.Some? && !s.scrolling && s.jumpSwap.None?
    ensures SteppedLeft(SteppedRight(s, p), p) == s
  {
  }

  /** The steps, animated or not, and the settle when no jump is pending keep the triple fresh. */
  lemma FreshPreserved<H>(s: Pager<H>, shift: int, decelerating: bool, p: int -> Option<H>)
    requires Fresh(s, p)
    ensures Fresh(SteppedLeft(s, p), p) && Fresh(SteppedRight(s, p), p)
    ensures Fresh(StepLeftStarted(s, decelerating), p) && Fresh(StepRightStarted(s, decelerating), p)
    ensures s.jumpSwap.None? ==> Fresh(Settled(s, shift, p), p) && Fresh(AnimationEnded(s, shift, p), p)
  {
  }

  /** An animated step left that settles on the page it aimed at ends where the non-animated step ends. */
  lemma AnimatedStepLeftAgrees<H>(s: Pager<H>, p: int -> Option<H>)
    requires s.left.Some? && Idle(s, false)
    ensures AnimationEnded(StepLeftStarted(s, false), LeftPage, p) == SteppedLeft(s, p)
  {
  }

  /** An animated step right that settles on the page it aimed at ends where the non-animated step ends. */
  lemma AnimatedStepRightAgrees<H>(s: Pager<H>, p: int -> Option<H>)
    requires s.right.Some? && Idle(s, false)
    ensures AnimationEnded(StepRightStarted(s, false), RightPage(s.left), p) == SteppedRight(s, p)
  {
  }

  /** An animated jump that settles on the page it aimed at ends where the non-animated jump ends. */
  lemma AnimatedJumpAgrees<H>(s: Pager<H>, target: int, p: int -> Option<H>)
    requires JumpApplies(s, target, p) && Idle(s, false)
    ensures var t := JumpStarted(s, target, false, p);
      AnimationEnded(t, if target < s.index then LeftPage else RightPage(t.left), p) == JumpedTo(s, target, p)
  {
    var t := JumpStarted(s, target, false, p);
    if target < s.index {
      assert SettlesLeft(t, LeftPage);
    } else {
      assert SettlesRight(t, RightPage(t.left));
    }
  }

  /** While a driven animation is in flight every animated request is ignored. */
  lemma InFlightIgnoresRequests<H>(s: Pager<H>, target: int, decelerating: bool, p: int -> Option<H>)
    requires s.scrolling
    ensures StepLeftStarted(s, decelerating) == s
    ensures StepRightStarted(s, decelerating) == s
    ensures JumpStarted(s, target, decelerating, p) == s
  {
  }

  /** `Centred` is kept by reload, the non-animated moves and the settle. */
  lemma CentredPreserved<H>(s: Pager<H>, target: int, shift: int, p: int -> Option<H>)
    requires Centred(s)
    ensures Centred(Reloaded(s, p))
    ensures Centred(SteppedLeft(s, p)) && Centred(SteppedRight(s, p))
    ensures Centred(JumpedTo(s, target, p))
    ensures Centred(Settled(s, shift, p)) && Centred(AnimationEnded(s, shift, p))
  {
  }

  /** ... but not by an animated jump: with no current view, the jump still places the target beside it. */
  lemma AnimatedJumpCanBreakCentred()
    ensures var p := (i: int) => if i == 0 then None else Some(i);
      var s := Reloaded(Pager(0, None, None, None, false, None), p);
      Centred(s) && !Centred(JumpStarted(s, -3, false, p))
  {
    var p := (i: int) => if i == 0 then None else Some(i);
    var s := Reloaded(Pager(0, None, None, None, false, None), p);
    assert s.current.None?;
    assert JumpApplies(s, -3, p);
  }

  // ---------------------------------------------------------------------------
  // A settle against a pending jump

  /** The page index of the view on the left page: the pending jump target when the jump went left, else index-1. */
  function LeftIndex<H>(s: Pager<H>): (i: int)
    ensures i < s.index
  {
    if s.jumpSwap.Some? && s.jumpSwap.value < s.index then s.jumpSwap.value else s.index - 1
  }

  /** The page index of the view on the right page: the pending jump target when the jump went right, else index+1. */
  function RightIndex<H>(s: Pager<H>): (i: int)
    ensures i > s.index
  {
    if s.jumpSwap.Some? && s.jumpSwap.value > s.index then s.jumpSwap.value else s.index + 1
  }

  /** Every present view is the provider's content at its page index, counting a pending jump's target. */
  ghost predicate Consistent<H>(s: Pager<H>, p: int -> Option<H>) {
    && s.current == p(s.index)
    && (s.left.Some? ==> s.left == p(LeftIndex(s)))
    && (s.right.Some? ==> s.right == p(RightIndex(s)))
  }

  /** Starting an animated jump from a fresh idle state gives a consistent state. */
  lemma JumpStartedConsistent<H>(s: Pager<H>, target: int, decelerating: bool, p: int -> Option<H>)
    requires Fresh(s, p) && s.jumpSwap.None?
    ensures Consistent(JumpStarted(s, target, decelerating, p), p)
  {
  }

  /**
   * `endMoving` as written takes the index from a pending jump on whichever
   * side the scroll view rests. Reload at 5, start an animated jump to 8, and
   * let the scroll view settle on page 0 (the left neighbour, view 4): the
   * index becomes 8 while view 4 is current, and the jump stays pending.
   */
  lemma SettleAgainstPendingJump()
    ensures var p := (i: int) => Some(i);
      var s := JumpStarted(Reloaded(Pager(5, None, None, None, false, None), p), 8, false, p);
      var t := Settled(s, LeftPage, p);
      && Consistent(s, p)
      && t.index == 8 && t.current == Some(4) && t.current != p(t.index)
      && t.jumpSwap == Some(8) && t.scrolling
  {
    var p := (i: int) => Some(i);
    var r := Reloaded(Pager(5, None, None, None, false, None), p);
    assert r.current == Some(5) && r.left == Some(4) && r.right == Some(6);
    var s := JumpStarted(r, 8, false, p);
    assert JumpApplies(r, 8, p);
    assert s.left == Some(4) && s.right == Some(8) && s.jumpSwap == Some(8);
    assert SettlesLeft(s, LeftPage);
  }

  /**
   * `endMoving` as evidently intended: the promoted view's index is the jump
   * target only when the jump went to that side, otherwise one step; and a
   * settle that promotes resolves the pending jump.
   */
  function SettledAsIntended<H>(s: Pager<H>, shift: int, p: int -> Option<H>): (t: Pager<H>)
    ensures t.scrolling == s.scrolling
    ensures !SettlesLeft(s, shift) && !SettlesRight(s, shift) ==> t == s
    ensures SettlesLeft(s, shift) ==> t.current == s.left && t.index == LeftIndex(s) && t.jumpSwap.None?
    ensures SettlesRight(s, shift) ==> t.current == s.right && t.index == RightIndex(s) && t.jumpSwap.None?
    ensures Consistent(s, p) ==> Consistent(t, p)
    ensures Consistent(s, p) && (SettlesLeft(s, shift) || SettlesRight(s, shift)) ==> Fresh(t, p)
    ensures (|| s.jumpSwap.None?
             || (SettlesLeft(s, shift) && s.jumpSwap.value < s.index)
             || (SettlesRight(s, shift) && s.jumpSwap.value > s.index)) ==>
      var u := Settled(s, shift, p);
      t.index == u.index && t.left == u.left && t.current == u.current && t.right == u.right
  {
    if SettlesLeft(s, shift) then
      var jumped := s.jumpSwap.Some? && s.jumpSwap.value < s.index;
      LaidOut(s.(right := if jumped then None else s.current,
                 current := s.left, left := None,
                 index := LeftIndex(s), jumpSwap := None), p)
    else if SettlesRight(s, shift) then
      var jumped := s.jumpSwap.Some? && s.jumpSwap.value > s.index;
      LaidOut(s.(left := if jumped then None else s.current,
                 current := s.right, right := None,
                 index := RightIndex(s), jumpSwap := None), p)
    else s
  }

  // ---------------------------------------------------------------------------
  // Runs: the public operations and scroll callbacks, one after another

  datatype Event<H> =
    | Reload
    | LayoutSubviews
    | SwapToLeft(animated: bool, decelerating: bool)
    | SwapToRight(animated: bool, decelerating: bool)
    | SwapToView(target: int, animated: bool, decelerating: bool)
    | DidEndDecelerating(shift: int)
    | DidEndScrollingAnimation(shift: int)
    | SetIndex(newIndex: int)           // a client assigns the public `index`
    | SetCurrent(view: Option<H>)       // a client assigns the public `current`

  function Apply<H>(s: Pager<H>, e: Event<H>, p: int -> Option<H>): (t: Pager<H>) {
    match e
    case Reload => Reloaded(s, p)
    case LayoutSubviews => LaidOut(s, p)
    case SwapToLeft(animated, decelerating) =>
      if animated then StepLeftStarted(s, decelerating) else SteppedLeft(s, p)
    case SwapToRight(animated, decelerating) =>
      if animated then StepRightStarted(s, decelerating) else SteppedRight(s, p)
    case SwapToView(target, animated, decelerating) =>
      if animated then JumpStarted(s, target, decelerating, p) else JumpedTo(s, target, p)
    case DidEndDecelerating(shift) => Settled(s, shift, p)
    case DidEndScrollingAnimation(shift) => AnimationEnded(s, shift, p)
    case SetIndex(i) => s.(index := i)
    case SetCurrent(c) => s.(current := c)
  }

  function Run<H>(s: Pager<H>, events: seq<Event<H>>, p: int -> Option<H>): (t: Pager<H>)
    decreases |events|
  {
    if events == [] then s else Run(Apply(s, events[0], p), events[1..], p)
  }

  /** The events that cannot break `Centred`: all but an animated `swapToView` and clearing `current`. */
  predicate KeepsCentred<H>(e: Event<H>) {
    !(e.SwapToView? && e.animated) && !(e.SetCurrent? && e.view.None?)
  }

  /** Whether every event of a run is one that keeps `Centred`. */
  predicate AllKeepCentred<H>(events: seq<Event<H>>) {
    forall i :: 0 <= i < |events| ==> KeepsCentred(events[i])
  }

  /** Every operation except an animated jump, and every client assignment except `current = nil`, keeps `Centred`. */
  lemma CentredStep<H>(s: Pager<H>, e: Event<H>, p: int -> Option<H>)
    requires Centred(s) && KeepsCentred(e)
    ensures Centred(Apply(s, e, p))
  {
    match e
    case SwapToView(target, _, _) => CentredPreserved(s, target, 0, p);
    case DidEndDecelerating(shift) => CentredPreserved(s, 0, shift, p);
    case DidEndScrollingAnimation(shift) => CentredPreserved(s, 0, shift, p);
    case _ => CentredPreserved(s, 0, 0, p);
  }

  /** `Centred` holds after any run of such events that starts from a centred state, e.g. one `reload` produced. */
  lemma {:induction false} CentredAlongRun<H>(s: Pager<H>, events: seq<Event<H>>, p: int -> Option<H>)
    requires Centred(s) && AllKeepCentred(events)
    ensures Centred(Run(s, events, p))
    decreases |events|
  {
    if events != [] {
      CentredStep(s, events[0], p);
      assert AllKeepCentred(events[1..]) by {
        forall i | 0 <= i < |events| - 1
          ensures KeepsCentred(events[1..][i])
        {
          assert events[1..][i] == events[i + 1];
        }
      }
      CentredAlongRun(Apply(s, events[0], p), events[1..], p);
    }
  }

  // ---------------------------------------------------------------------------
  // The view itself

  class SwipeView<H> {
    var index: int
    var left: Option<H>
    var current: Option<H>
    var right: Option<H>
    var scrolling: bool
    var jumpSwap: Option<int>
    /** The contents of the page views. */
    var slots: Slots<H>
    /** Every view reported to the delegate as displayed, oldest first. */
    ghost var displayed: seq<H>

    function State(): Pager<H>
      reads this
    {
      Pager(index, left, current, right, scrolling, jumpSwap)
    }

    /** The page views always show the current triple. */
    ghost predicate Valid()
      reads this
    {
      slots == Arrange(left, current, right)
    }

    constructor ()
      ensures Valid()
      ensures State() == Pager(0, None, None, None, false, None)
      ensures displayed == []
    {
      index := 0;
      left, current, right := None, None, None;
      scrolling := false;
      jumpSwap := None;
      slots := Cleared;
      displayed := [];
    }

    /** `_layoutSubviews`, also run by the host's `layoutSubviews`. */
    method LayoutSubviews(p: int -> Option<H>)
      modifies this
      ensures Valid()
      ensures State() == LaidOut(old(State()), p)
      ensures displayed == old(displayed)
    {
      slots := Cleared;
      if current.None? {
        return;
      }
      left := left.OrElse(p(index - 1));
      right := right.OrElse(p(index + 1));
      slots := Arrange(left, current, right);
    }

    method Reload(p: int -> Option<H>)
      modifies this
      ensures Valid()
      ensures State() == Reloaded(old(State()), p)
      ensures displayed == old(displayed) + p(old(index)).Elements()
    {
      current := p(index);
      if current.Some? {
        left := p(index - 1);
        right := p(index + 1);
      } else {
        left := None;
        right := None;
      }
      LayoutSubviews(p);
      if current.Some? {
        displayed := displayed + [current.value];
      }
    }

    /** `swapToView`; when animated, `aim` is the page the scroll view is asked to scroll to. */
    method SwapToView(target: int, animated: bool, decelerating: bool, p: int -> Option<H>) returns (aim: Option<int>)
      requires Valid()
      modifies this
      ensures Valid()
      ensures State() == if animated then JumpStarted(old(State()), target, decelerating, p)
                         else JumpedTo(old(State()), target, p)
      ensures aim == if animated && JumpApplies(old(State()), target, p) && Idle(old(State()), decelerating)
                     then Some(if target < old(index) then LeftPage else RightPage(left))
                     else None
      ensures displayed == old(displayed) +
        (if !animated && JumpApplies(old(State()), target, p) then [p(target).value] else [])
    {
      aim := None;
      if index == target {
        return;
      }
      var jumpView := p(target);
      if jumpView.Some? {
        if animated {
          if !scrolling && !decelerating {
            jumpSwap := Some(target);
            scrolling := true;
            if target < index {
              left := jumpView;
              LayoutSubviews(p);
              aim := Some(LeftPage);
            } else {
              right := jumpView;
              LayoutSubviews(p);
              aim := Some(RightPage(left));
            }
          }
        } else {
          jumpSwap := None;
          scrolling := false;
          right := None;
          current := jumpView;
          left := None;
          index := target;
          LayoutSubviews(p);
          displayed := displayed + [current.value];
        }
      }
    }

    /** `swapToLeft`; when animated, `aim` is the page the scroll view is asked to scroll to. */
    method SwapToLeft(animated: bool, decelerating: bool, p: int -> Option<H>) returns (aim: Option<int>)
      requires Valid()
      modifies this
      ensures Valid()
      ensures State() == if animated then StepLeftStarted(old(State()), decelerating)
                         else SteppedLeft(old(State()), p)
      ensures aim == if animated && old(left).Some? && Idle(old(State()), decelerating)
                     then Some(LeftPage) else None
      ensures displayed == old(displayed) + (if !animated then old(left).Elements() else [])
    {
      aim := None;
      if left.Some? {
        if animated {
          if !scrolling && !decelerating {
            jumpSwap := None;
            scrolling := true;
            aim := Some(LeftPage);
          }
        } else {
          jumpSwap := None;
          scrolling := false;
          right := current;
          current := left;
          left := None;
          index := index - 1;
          LayoutSubviews(p);
          displayed := displayed + [current.value];
        }
      }
    }

    /** `swapToRight`; when animated, `aim` is the page the scroll view is asked to scroll to. */
    method SwapToRight(animated: bool, decelerating: bool, p: int -> Option<H>) returns (aim: Option<int>)
      requires Valid()
      modifies this
      ensures Valid()
      ensures State() == if animated then StepRightStarted(old(State()), decelerating)
                         else SteppedRight(old(State()), p)
      ensures aim == if animated && old(right).Some? && Idle(old(State()), decelerating)
                     then Some(RightPage(old(left))) else None
      ensures displayed == old(displayed) + (if !animated then old(right).Elements() else [])
    {
      aim := None;
      if right.Some? {
        if animated {
          if !scrolling && !decelerating {
            jumpSwap := None;
            scrolling := true;
            aim := Some(RightPage(left));
          }
        } else {
          jumpSwap := None;
          scrolling := false;
          left := current;
          current := right;
          right := None;
          index := index + 1;
          LayoutSubviews(p);
          displayed := displayed + [current.value];
        }
      }
    }

    /** `endMoving`, with `shift` the page the scroll view rests on. */
    method EndMoving(shift: int, p: int -> Option<H>)
      requires Valid()
      modifies this
      ensures Valid()
      ensures State() == Settled(old(State()), shift, p)
      ensures displayed == old(displayed) +
        (if SettlesLeft(old(State()), shift) then old(left).Elements()
         else if SettlesRight(old(State()), shift) then old(right).Elements()
         else [])
    {
      if shift == 0 && left.Some? {
        right := if jumpSwap.None? then current else None;
        current := left;
        left := None;
        if jumpSwap.None? {
          index := index - 1;
        } else {
          index := jumpSwap.value;
        }
        LayoutSubviews(p);
        displayed := displayed + [current.value];
      } else if ((left.None? && shift == 1) || (left.Some? && shift == 2)) && right.Some? {
        left := if jumpSwap.None? then current else None;
        current := right;
        right := None;
        if jumpSwap.None? {
          index := index + 1;
        } else {
          index := jumpSwap.value;
        }
        LayoutSubviews(p);
        displayed := displayed + [current.value];
      }
    }

    /** `scrollViewDidEndDecelerating`: a gesture came to rest; the flags are left as they are. */
    method ScrollViewDidEndDecelerating(shift: int, p: int -> Option<H>)
      requires Valid()
      modifies this
      ensures Valid()
      ensures State() == Settled(old(State()), shift, p)
      ensures scrolling == old(scrolling) && jumpSwap == old(jumpSwap)
      ensures displayed == old(displayed) +
        (if SettlesLeft(old(State()), shift) then old(left).Elements()
         else if SettlesRight(old(State()), shift) then old(right).Elements()
         else [])
    {
      EndMoving(shift, p);
    }

    /** `scrollViewDidEndScrollingAnimation`: a driven scroll ended; the view is no longer scrolling. */
    method ScrollViewDidEndScrollingAnimation(shift: int, p: int -> Option<H>)
      requires Valid()
      modifies this
      ensures Valid()
      ensures State() == AnimationEnded(old(State()), shift, p)
      ensures !scrolling && jumpSwap.None?
      ensures displayed == old(displayed) +
        (if SettlesLeft(old(State()), shift) then old(left).Elements()
         else if SettlesRight(old(State()), shift) then old(right).Elements()
         else [])
    {
      EndMoving(shift, p);
      jumpSwap := None;
      scrolling := false;
    }
  }
}
