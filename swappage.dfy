/**
 * The swappage controller: a container whose child controllers form a stack.
 * Pushing appends a child and crossfades from the old top to it; the pop
 * operations remove children from the top, never the root, and crossfade
 * from the old top to the child that becomes the top.
 *
 * Controllers are opaque handles of type `C`. Each crossfade the controller
 * asks the host to run is recorded as a `Transition` event instead of being
 * animated.
 */
module Swappage {
  import opened Options

  /** A crossfade between two child controllers, as requested of the host. */
  datatype Transition<C> =
    | Push(from: C, to: C, animated: bool)
    | Pop(from: C, to: C, animated: bool)

  /** The position of the first occurrence of `x` in `s` (Swift's `indexOf`). */
  function FirstIndex<C(==)>(s: seq<C>, x: C): (r: Option<nat>)
    ensures r.None? <==> x !in s
    ensures r.Some? ==> r.value < |s| && s[r.value] == x && x !in s[..r.value]
  {
    if s == [] then None
    else if s[0] == x then Some(0)
    else match FirstIndex(s[1..], x)
      case None => None
      case Some(i) =>
        assert s[..i + 1] == [s[0]] + s[1..][..i];
        Some(i + 1)
  }

  /** `s` back to front. */
  function Reversed<C>(s: seq<C>): (r: seq<C>)
    ensures |r| == |s|
    ensures forall i :: 0 <= i < |s| ==> r[i] == s[|s| - 1 - i]
  {
    if s == [] then [] else [s[|s| - 1]] + Reversed(s[..|s| - 1])
  }

  /**
   * The position `popToViewController` truncates after: the first occurrence
   * of `target`, unless `target` is absent or that occurrence is the top.
   */
  function PopTarget<C(==)>(stack: seq<C>, target: C): (r: Option<nat>)
    ensures r.Some? ==> r.value + 1 < |stack| && stack[r.value] == target && target !in stack[..r.value]
    ensures r.None? <==> target !in stack || (stack[|stack| - 1] == target && target !in stack[..|stack| - 1])
  {
    match FirstIndex(stack, target)
    case None => None
    case Some(i) => if i + 1 != |stack| then Some(i) else None
  }

  /** Popping to the root is popping to the first child: it truncates after position 0 unless the root is the top. */
  lemma PopToRootIsPopToFirst<C>(stack: seq<C>)
    requires stack != []
    ensures PopTarget(stack, stack[0]) == if |stack| == 1 then None else Some(0)
  {
    assert stack[..0] == [];
  }

  /** Every controller offered as an unwind destination is one `popToViewController` pops to. */
  lemma {:induction false} UnwindDestinationsPop<C>(stack: seq<C>, i: nat)
    requires |stack| > 1 && i < |stack| - 1
    ensures PopTarget(stack, Reversed(stack[..|stack| - 1])[i]).Some?
  {
    var below := stack[..|stack| - 1];
    var x := Reversed(below)[i];
    assert x == below[|below| - 1 - i];
    assert x in below;
  }

  class SwappageController<C(==)> {
    /** The child controllers, root first, top last. */
    var children: seq<C>
    /** Every crossfade requested of the host, oldest first. */
    var transitions: seq<Transition<C>>

    constructor ()
      ensures children == [] && transitions == []
    {
      children := [];
      transitions := [];
    }

    /** `rootViewController`: the first child, if any. */
    function RootViewController(): (r: Option<C>)
      reads this
      ensures r.None? <==> children == []
      ensures r.Some? ==> r.value == children[0] && r.value in children
    {
      if children == [] then None else Some(children[0])
    }

    /** `pushViewController`: the new controller becomes the top, crossfading from the old top if there was one. */
    method PushViewController(viewController: C, animated: bool)
      modifies this
      ensures children == old(children) + [viewController]
      ensures transitions == old(transitions) +
        (if old(children) == [] then []
         else [Push(old(children)[|old(children)| - 1], viewController, animated)])
    {
      var previous := if children == [] then None else Some(children[|children| - 1]);
      children := children + [viewController];
      if previous.Some? {
        transitions := transitions + [Push(previous.value, viewController, animated)];
      }
    }

    /** `popViewControllerAnimated`: removes and returns the top, but never the root. */
    method PopViewControllerAnimated(animated: bool) returns (popped: Option<C>)
      modifies this
      ensures |old(children)| <= 1 ==>
        popped.None? && children == old(children) && transitions == old(transitions)
      ensures |old(children)| > 1 ==>
        var n := |old(children)|;
        && popped == Some(old(children)[n - 1])
        && children == old(children)[..n - 1]
        && transitions == old(transitions) + [Pop(old(children)[n - 1], old(children)[n - 2], animated)]
    {
      popped := None;
      if |children| > 1 {
        var top := children[|children| - 1];
        transitions := transitions + [Pop(top, children[|children| - 2], animated)];
        children := children[..|children| - 1];
        popped := Some(top);
      }
    }

    /** Each child above position `keep` leaves the container, lowest first. */
    method RemoveChildrenAbove(keep: nat) returns (removed: seq<C>)
      requires keep <= |children|
      modifies this
      ensures children == old(children)[..keep]
      ensures removed == old(children)[keep..]
      ensures transitions == old(transitions)
    {
      removed := children[keep..];
      var k := 0;
      while k < |removed|
        invariant 0 <= k <= |removed|
        invariant children == old(children)[..keep] + removed[k..]
        invariant transitions == old(transitions)
      {
        children := children[..keep] + children[keep + 1..];
        k := k + 1;
      }
    }

    /** `popToViewController`: removes every child above the first occurrence of `target` and returns them in stack order. */
    method PopToViewController(target: C, animated: bool) returns (popped: Option<seq<C>>)
      modifies this
      ensures PopTarget(old(children), target).None? ==>
        popped.None? && children == old(children) && transitions == old(transitions)
      ensures PopTarget(old(children), target).Some? ==>
        var idx := PopTarget(old(children), target).value;
        && children == old(children)[..idx + 1]
        && popped == Some(old(children)[idx + 1..])
        && transitions == old(transitions) + [Pop(old(children)[|old(children)| - 1], target, animated)]
      ensures popped.Some? ==>
        children + popped.value == old(children) && children[|children| - 1] == target && popped.value != []
    {
      popped := None;
      var idx := PopTarget(children, target);
      if idx.Some? {
        transitions := transitions + [Pop(children[|children| - 1], target, animated)];
        var removed := RemoveChildrenAbove(idx.value + 1);
        popped := Some(removed);
      }
    }

    /** `popToRootViewControllerAnimated`: keeps only the root. The source force-unwraps the top and the root, so the stack must not be empty. */
    method PopToRootViewControllerAnimated(animated: bool) returns (popped: Option<seq<C>>)
      requires children != []
      modifies this
      ensures |old(children)| == 1 ==>
        popped.None? && children == old(children) && transitions == old(transitions)
      ensures |old(children)| > 1 ==>
        && children == [old(children)[0]]
        && popped == Some(old(children)[1..])
        && transitions == old(transitions) + [Pop(old(children)[|old(children)| - 1], old(children)[0], animated)]
    {
      popped := None;
      if |children| != 1 {
        transitions := transitions + [Pop(children[|children| - 1], children[0], animated)];
        var removed := RemoveChildrenAbove(1);
        popped := Some(removed);
      }
    }

    /** `canPerformUnwindSegueAction`: an unwind may start from any controller but the root. */
    function CanPerformUnwindSegueAction(source: C): (r: bool)
      reads this
      ensures !r <==> children != [] && children[0] == source
    {
      RootViewController() != Some(source)
    }

    /** `allowedChildViewControllersForUnwindingFromSource`: every child but the top, most recent first. */
    function AllowedChildViewControllersForUnwinding(): (r: seq<C>)
      reads this
      ensures |children| <= 1 ==> r == []
      ensures |children| > 1 ==>
        |r| == |children| - 1 && forall i :: 0 <= i < |r| ==> r[i] == children[|children| - 2 - i]
    {
      if |children| > 1 then Reversed(children[..|children| - 1]) else []
    }

    /** `unwindForSegue`: an animated pop to the unwind's destination. */
    method UnwindForSegue(destination: C)
      modifies this
      ensures PopTarget(old(children), destination).None? ==>
        children == old(children) && transitions == old(transitions)
      ensures PopTarget(old(children), destination).Some? ==>
        var idx := PopTarget(old(children), destination).value;
        && children == old(children)[..idx + 1]
        && transitions == old(transitions) + [Pop(old(children)[|old(children)| - 1], destination, true)]
    {
      var _ := PopToViewController(destination, true);
    }
  }

  /** The parent chain of `vc`: `ancestors` lists its parent, grandparent, ... up to a controller without a parent. */
  ghost predicate ParentChain<C>(vc: C, parentOf: C -> Option<C>, ancestors: seq<C>) {
    && (ancestors == [] ==> parentOf(vc).None?)
    && (ancestors != [] ==> parentOf(vc) == Some(ancestors[0]) && parentOf(ancestors[|ancestors| - 1]).None?)
    && forall i :: 0 <= i < |ancestors| - 1 ==> parentOf(ancestors[i]) == Some(ancestors[i + 1])
  }

  /**
   * The `swappageController` lookup: `vc` itself if it is a swappage
   * controller, otherwise the nearest ancestor that is one, or nothing.
   */
  method SwappageControllerOf<C>(vc: C, isSwappage: C -> bool, parentOf: C -> Option<C>, ghost ancestors: seq<C>)
    returns (r: Option<C>)
    requires ParentChain(vc, parentOf, ancestors)
    ensures isSwappage(vc) ==> r == Some(vc)
    ensures !isSwappage(vc) ==>
      (r.None? <==> forall j :: 0 <= j < |ancestors| ==> !isSwappage(ancestors[j]))
    ensures !isSwappage(vc) && r.Some? ==>
      exists k :: 0 <= k < |ancestors| && r.value == ancestors[k] && isSwappage(ancestors[k])
        && forall j :: 0 <= j < k ==> !isSwappage(ancestors[j])
  {
    if isSwappage(vc) {
      return Some(vc);
    }
    var current := vc;
    ghost var i := 0;
    while parentOf(current).Some?
      invariant 0 <= i <= |ancestors|
      invariant current == if i == 0 then vc else ancestors[i - 1]
      invariant forall j :: 0 <= j < i ==> !isSwappage(ancestors[j])
      invariant i < |ancestors| ==> parentOf(current) == Some(ancestors[i])
      decreases |ancestors| - i
    {
      var parent := parentOf(current).value;
      assert i < |ancestors| && parent == ancestors[i];
      if isSwappage(parent) {
        return Some(parent);
      }
      current := parent;
      i := i + 1;
    }
    return None;
  }
}
