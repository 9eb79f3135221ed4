# SDSlideMenuViewController widgets: a Dafny model of the swipe view and the swappage controller

This project models the discrete state of two UIKit widgets and proves what
they promise.

- **`SDSwipeView`** (module `Swipe`, file `swipe.dfy`) is a paged swipe view.
  It tracks the page `index`, the displayed view `current` and its
  materialised neighbours `left` and `right`. It also tracks a `scrolling`
  flag for a driven scroll animation and the pending target `jumpSwap` of an
  animated jump. Each operation is a function on a `Pager` value:
  `Reloaded`, `LaidOut`, `Arrange`, `SteppedLeft`/`SteppedRight`,
  `JumpedTo`, the animated starts, `Settled` and `AnimationEnded`. The class
  `Swipe.SwipeView` updates the same fields in place. Each of its methods is
  proved to move `State()` exactly as the matching function says. Its
  invariant `Valid()` says that the page views always hold
  `Arrange(left, current, right)`.
- **`SDSwappageController`** (module `Swappage`, file `swappage.dfy`) is a
  container whose child controllers form a stack. Push, pop, pop-to and
  pop-to-root change `children` in place. The removal loops of the source
  are kept as a loop (`RemoveChildrenAbove`). Each crossfade the controller
  asks the host to run is appended to `transitions` as an event
  `Push(from, to, animated)` or `Pop(from, to, animated)`. The unwind rules
  are pure functions of the stack. The `swappageController` lookup walks the
  parent chain.
- `options.dfy` holds `Option` with Swift's `??` (`OrElse`).

Host collaborators become parameters:

- The swipe view's delegate is the content provider `p: int -> Option<H>`. A
  missing delegate is the provider that always answers `None`.
- The delegate's "did display" callback is the ghost log `displayed`.
- The scroll view's `isDecelerating` is the boolean input `decelerating`.
- `endMoving` receives the rounded page `shift` as an integer.
- An animated move returns, as `aim`, the page it asks the scroll view to
  scroll to.
- For the controller lookup, the "is a swappage controller" type test is
  `isSwappage: C -> bool`, and the parent link is `parentOf: C -> Option<C>`.
  A ghost `ancestors` sequence witnesses that the parent chain is finite.

Behaviour of the code worth knowing:

- `Centred` (no neighbour without a current view) is not kept by every
  operation. An animated `swapToView` stores the target view as a neighbour
  even when `current` is nil (SDSwipeView.swift:257-267), and the layout
  that follows returns early (SDSwipeView.swift:197-199).
  `AnimatedJumpCanBreakCentred` exhibits such a state. Clearing the public
  `current` beside a neighbour breaks it too. Every other operation keeps it
  (`CentredPreserved`, `CentredStep`, `CentredAlongRun`).
- A non-animated jump clears both neighbours (SDSwipeView.swift:276-283),
  and the layout that follows fetches them again around the new index
  (SDSwipeView.swift:201-202). `JumpedTo` states the fetched neighbours.
- Popping to the root agrees with popping to the first child on a non-empty
  stack (`PopToRootIsPopToFirst`). On an empty stack the code force-unwraps
  the top and crashes, so `PopToRootViewControllerAnimated` requires a
  non-empty stack.
- A settle that lands against a pending animated jump takes the jump's
  target as the new index (see "## Findings"). The class follows the code
  as written (`Settled`). `SettledAsIntended` is the corrected settle.

## Model

| member | source | states |
|---|---|---|
| `Swipe.LaidOut` | SDSwipeView.swift:197-202 | Layout with no current view changes nothing. Otherwise present neighbours are kept and a missing one is fetched from index∓1, so afterwards a neighbour is missing only if the provider has none (`Filled`). Index, current and flags are unchanged. |
| `Swipe.Arrange` | SDSwipeView.swift:204-248 | No current view means no pages. Otherwise there are 1 + [left present] + [right present] pages: left first, right last, current in the visible slot. The visible slot is 1 exactly when a left neighbour is present. |
| `Swipe.RightPage` | SDSwipeView.swift:317-321 | A rightward animated move aims at the page just after current: page 1 without a left neighbour, page 2 with one. |
| `Swipe.Reloaded` | SDSwipeView.swift:116-129 | `reload` keeps the index and sets current to provider(index). When current is present, the neighbours are provider(index∓1). The result is `Fresh`, and `Centred` in particular. Flags are untouched. |
| `Swipe.SteppedLeft` | SDSwipeView.swift:289-309 | Without a left neighbour: no-op. Otherwise index' = index-1 and current' = old left. right' = old current, or provider(old index) if current was nil. left' = provider(index-2). Both flags are cleared. |
| `Swipe.SteppedRight` | SDSwipeView.swift:310-334 | The mirror image of `SteppedLeft`, with index' = index+1. |
| `Swipe.JumpedTo` | SDSwipeView.swift:251-287 | Non-animated `swapToView` is a no-op when target == index or provider(target) is nil. Otherwise index' = target, current' = provider(target), the neighbours are provider(target∓1), and both flags are cleared. |
| `Swipe.StepLeftStarted` | SDSwipeView.swift:289-297 | Animated `swapToLeft` never changes index or the triple. It is a no-op without a left neighbour, while scrolling, or while decelerating. Otherwise it sets scrolling and clears jumpSwap. |
| `Swipe.StepRightStarted` | SDSwipeView.swift:310-322 | Animated `swapToRight`: the mirror image of `StepLeftStarted` on the right neighbour. |
| `Swipe.JumpStarted` | SDSwipeView.swift:251-275 | Animated `swapToView` never changes index or current. It changes nothing unless the jump applies and the view is idle. Otherwise scrolling is set, jumpSwap = target, and the target's view becomes the neighbour on its side. A neighbour already on the other side is kept. A missing one there is fetched from index±1 when current is present and stays nil otherwise. |
| `Swipe.Settled` | SDSwipeView.swift:351-375 | `endMoving` at shift 0 with a left neighbour promotes left to current. index' is index-1, or jumpSwap when a jump is pending. The old current becomes right only when no jump is pending. The forward case (shift 1 without a left neighbour, shift 2 with one, right present) is symmetric. Any other shift changes nothing, and flags are never touched. |
| `Swipe.AnimationEnded` | SDSwipeView.swift:342-349 | The end of a driven animation reconciles exactly as `endMoving` does. Afterwards scrolling and jumpSwap are always cleared. |
| `Swipe.ReloadIdempotent` | SDSwipeView.swift:116-129 | `reload` leaves a fresh state unchanged, so reloading twice equals reloading once. |
| `Swipe.StepLeftThenRight` | SDSwipeView.swift:289-334 | From a fresh idle state, a non-animated step left followed by a step right restores the state. |
| `Swipe.StepRightThenLeft` | SDSwipeView.swift:289-334 | From a fresh idle state, a non-animated step right followed by a step left restores the state. |
| `Swipe.FreshPreserved` | SDSwipeView.swift:289-375 | From a fresh state (the triple is exactly the provider's views around index), both non-animated steps, both animated starts, and a settle or animation end with no jump pending give a fresh state. |
| `Swipe.AnimatedStepLeftAgrees` | SDSwipeView.swift:289-375 | An animated step left that settles on its aimed page 0 and then ends its animation gives the same state as the non-animated step. |
| `Swipe.AnimatedStepRightAgrees` | SDSwipeView.swift:310-375 | The same as `AnimatedStepLeftAgrees` for the step right and its aimed page `RightPage(left)`. |
| `Swipe.AnimatedJumpAgrees` | SDSwipeView.swift:251-375 | An animated jump that settles on its aimed page and ends its animation gives the same state as the non-animated jump. |
| `Swipe.InFlightIgnoresRequests` | SDSwipeView.swift:259 | While scrolling, every animated step and jump request leaves the state unchanged. This is the re-entrancy guard. |
| `Swipe.CentredPreserved` | SDSwipeView.swift:116-129 | `Centred` (no neighbour without a current view) is kept by reload, the non-animated steps and jump, the settle and the animation end. |
| `Swipe.CentredStep` | SDSwipeView.swift:50-376 | Every public operation, scroll callback and client assignment of `index` or `current` keeps `Centred`, except an animated `swapToView` and assigning nil to `current`. |
| `Swipe.CentredAlongRun` | SDSwipeView.swift:50-376 | Starting from a centred state, any sequence of those events ends in a centred state. |
| `Swipe.AnimatedJumpCanBreakCentred` | SDSwipeView.swift:257-267 | A concrete reloaded state with no current view: an animated jump to index -3 gives it a left neighbour, so `Centred` does not hold after it. |
| `Swipe.JumpStartedConsistent` | SDSwipeView.swift:251-275 | From a fresh idle state, an animated jump leaves every present view equal to the provider's view at its page index, where the neighbour on the jump's side stands for the target. |
| `Swipe.SettleAgainstPendingJump` | SDSwipeView.swift:351-375 | With provider(i) = view i: reload at 5, animated jump to 8, settle on page 0. The result has index 8 but current view 4, and the jump stays pending with scrolling set. |
| `Swipe.SettledAsIntended` | SDSwipeView.swift:351-375 | The corrected settle keeps consistency, and after promoting a neighbour the state is fresh with no jump pending. It agrees with `Settled` on index and triple when no jump is pending or the jump is on the settled side. |
| `Swipe.SwipeView.constructor` | SDSwipeView.swift:50-58 | A new view has index 0, no views, both flags clear, empty page views and an empty display log. |
| `Swipe.SwipeView.LayoutSubviews` | SDSwipeView.swift:182-249 | Updates the triple as `LaidOut` does and rebuilds the page views as `Arrange` of the new triple. |
| `Swipe.SwipeView.Reload` | SDSwipeView.swift:116-130 | The state becomes `Reloaded`. The displayed callback fires exactly once, with provider(index), and only when that is present. |
| `Swipe.SwipeView.SwapToView` | SDSwipeView.swift:251-287 | Animated, the state becomes `JumpStarted` and `aim` is page 0 for a backward jump or `RightPage(left)` for a forward one. Non-animated, it becomes `JumpedTo` and the target's view is reported displayed. |
| `Swipe.SwipeView.SwapToLeft` | SDSwipeView.swift:289-309 | Animated, the state becomes `StepLeftStarted` and a started move aims at page 0. Non-animated, it becomes `SteppedLeft` and reports the old left as displayed. |
| `Swipe.SwipeView.SwapToRight` | SDSwipeView.swift:310-334 | Animated, the state becomes `StepRightStarted` and a started move aims at `RightPage(left)`. Non-animated, it becomes `SteppedRight` and reports the old right as displayed. |
| `Swipe.SwipeView.EndMoving` | SDSwipeView.swift:351-376 | The state becomes `Settled`. The promoted neighbour is reported displayed, and nothing is reported when nothing settles. |
| `Swipe.SwipeView.ScrollViewDidEndDecelerating` | SDSwipeView.swift:336-341 | Reconciles as `Settled` and leaves scrolling and jumpSwap as they were. |
| `Swipe.SwipeView.ScrollViewDidEndScrollingAnimation` | SDSwipeView.swift:342-349 | Reconciles, then always clears scrolling and jumpSwap (`AnimationEnded`). |
| `Swappage.FirstIndex` | SDSwappageController.swift:136 | The first position of `x`: absent exactly when `x` is not in the stack. Otherwise it holds `x` and no earlier position does. |
| `Swappage.Reversed` | SDSwappageController.swift:173 | Same length, and element i is the input's element n-1-i. |
| `Swappage.PopTarget` | SDSwappageController.swift:136 | `popToViewController` truncates after the first occurrence of the target, strictly below the top. It refuses exactly when the target is absent or its first occurrence is the top. |
| `Swappage.PopToRootIsPopToFirst` | SDSwappageController.swift:147-157 | On a non-empty stack, popping to the root truncates after position 0 unless the stack holds only the root. |
| `Swappage.UnwindDestinationsPop` | SDSwappageController.swift:170-180 | Every controller in the allowed unwind list is a target `popToViewController` accepts, so unwinding to it pops something. |
| `Swappage.SwappageController.constructor` | SDSwappageController.swift:28 | A new controller has no children and has requested no transition. |
| `Swappage.SwappageController.RootViewController` | SDSwappageController.swift:87-89 | The root is the first child, and there is none exactly when there are no children. |
| `Swappage.SwappageController.PushViewController` | SDSwappageController.swift:115-122 | Appends the controller as the new top and leaves every earlier child unchanged. It logs a push transition old top → new only when there was an old top. |
| `Swappage.SwappageController.PopViewControllerAnimated` | SDSwappageController.swift:124-132 | With more than one child, it removes and returns exactly the top and logs a pop from the top to the child below. With one or zero children it returns nil and changes nothing, so the root is never popped. |
| `Swappage.SwappageController.RemoveChildrenAbove` | SDSwappageController.swift:138-141 | The removal loop: the children become the first `keep`, and the removed ones are returned in stack order. |
| `Swappage.SwappageController.PopToViewController` | SDSwappageController.swift:134-145 | The stack becomes stack[..idx+1] and stack[idx+1..] is returned, so remaining ++ returned == original and the target is the new top. One pop transition runs from the old top to the target. It returns nil and changes nothing when `PopTarget` refuses. |
| `Swappage.SwappageController.PopToRootViewControllerAnimated` | SDSwappageController.swift:147-158 | On a non-empty stack of more than one child, it keeps only the root, returns every other child in order and logs a pop top → root. On a single child it returns nil. |
| `Swappage.SwappageController.CanPerformUnwindSegueAction` | SDSwappageController.swift:164-167 | False exactly when the source is the root. |
| `Swappage.SwappageController.AllowedChildViewControllersForUnwinding` | SDSwappageController.swift:170-176 | Empty for at most one child. Otherwise it is every child but the top, most recent first. |
| `Swappage.SwappageController.UnwindForSegue` | SDSwappageController.swift:177-180 | Has the effect of an animated `popToViewController` on the destination. |
| `Swappage.SwappageControllerOf` | SDSwappageController.swift:185-200 | Returns the receiver if it is a swappage controller. Otherwise it returns the nearest ancestor on the parent chain that is one, or nil exactly when no ancestor is. |

## Findings

| source | as written | input that shows it | evidently intended | confidence | as-written member | corrected member |
|---|---|---|---|---|---|---|
| SDSwipeView.swift:351-375 | `endMoving` sets the index to a pending `jumpSwap` whichever side the scroll view settles on, and leaves the jump pending | provider(i) = view i; reload at index 5; animated `swapToView(8)`; the user drags back and the scroll decelerates onto page 0 (shift 0): index 8, current view 4 | take the jump target only when settling on the jump's side, otherwise step by one, and resolve the pending jump | medium; not executed | `Swipe.SettleAgainstPendingJump` | `Swipe.SettledAsIntended` |

## Left out

- SDTextField.swift: it relays host keyboard notifications to optional delegate methods. That is I/O plumbing with no state of its own.
- Auto Layout: the constraints and subview insertion of `_layoutOnePage`, `_layoutTwoPage` and `_layoutThreePage` are not modelled. Only the resulting page order and visible slot (`Arrange`) are.
- Scroll geometry: `contentOffset.x / frame.width` rounded with `lround` is not modelled. It becomes the integer input `shift`. The `CGRect` scroll targets become the integer page `aim`. The non-animated scroll reset inside layout is the `visible` slot of `Arrange`.
- The check `scrollView === self.scrollView` in the two scroll callbacks is not modelled: the view has one scroll view, so it always holds.
- Host animation: `transitionFromViewController`, the alpha hooks, the duration and options values and the completion closures are not modelled. Each transition is only an event in `transitions`.
- Host wiring is not modelled. That covers `viewDidLoad`'s root segue, `SDSwappageSegue.perform`, `constructView`, `rootView`, the `bounces`/`swapEnabled` pass-throughs, the delegate's `didSet` that triggers `reload`, and weak delegate storage.
- Scroll callbacks are ordinary method calls made in sequence: the host runs them on one UI thread.
- Swappage.SwappageController: the child list is a plain sequence. UIKit keeps each child controller at most once. The model does not enforce that, and it removes popped children by position rather than by identity.
- Swappage.SwappageController.PopToRootViewControllerAnimated: the crash on an empty stack (force-unwrapped `last!`/`first!`) is not modelled as behaviour. It is excluded by the precondition.
- Swipe.CentredStep: the client assignments to the public `index` and `current` (SDSwipeView.swift:50, 55) appear only as run events (`SetIndex`, `SetCurrent`), not as methods of `Swipe.SwipeView`. Such an assignment leaves the page views stale until the next layout, which `Valid()` does not allow for.
- Integer overflow: Swift traps when `index ± 1`, `-=` or `+=` overflows `Int` (SDSwipeView.swift:120-121, 201-202, 304, 329, 358, 369). The model's index is an unbounded integer, so that trap is not modelled.
- The provider is a fixed function of the index. `ReloadIdempotent`, `StepLeftThenRight`, `StepRightThenLeft` and the three `Animated*Agrees` lemmas rely on that: a delegate whose answers change between calls is not covered. The number and order of provider calls are not modelled either.
