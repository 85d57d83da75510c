# InfiniteHorzScroll: the scroll/recycle engine in Dafny

`InfiniteHorzScroll` turns a row of elements into an endless marquee. Each cycle
picks one element, snaps the scroller to a starting offset, slides it by that
element's width over a time proportional to the width, then moves the element to
the other end of the row, rotates the engine's queue and snaps back to offset 0.

This project models that engine:

- `dom_order.dfy` (module `DomOrder`) covers element handles and the scroller's
  child order. It models `appendChild` and `prepend` of an element that is
  already a child. It also has the queue rotation done by `shift` + `push`, and a
  closed form for `n` rotations.
- `scroll_model.dfy` (module `ScrollModel`) holds the engine state as a value.
  Each step of the cycle is a function of that state: `Init`, `Scrolled`,
  `TransitionStarted`, `Animated` and `AfterDestroy`. `Next` dispatches on the
  pending callback, and `Cycle`/`Cycles` compose whole cycles.
- `scroll_cycles.dfy` (module `ScrollCycles`) holds the lemmas about steps and
  about any number of cycles, in both directions.
- `scroller.dfy` (module `Scroller`) holds the class `InfiniteHorzScroll`. Its
  fields are updated in place, with one method per step. The contracts of the
  constructor, `Scroll`, `StartTransition`, `Animate`, `Step` and `Destroy` tie
  the new fields, read back by `Model()`, to the step function applied to the
  old ones. The smaller methods (`MeasureChildren`, `StripMeasurements`,
  `PrepareWrappers`, `ApplyWidths`, `SetStartingX`) each state the fields they
  change directly.

Timers and animation frames are replaced by a phase that names the pending
callback, with the values its closure captured:

- `Priming`: `scroll` is scheduled.
- `Translating(item, seconds)`: the zero-delay timeout is pending.
- `Settling(item)`: the timer/frame that calls `animate(item)` is pending.
- `Stopped`: nothing is scheduled any more.
- `Destroyed`: the engine was torn down.

Element widths are the cached `data-scroller-total-width` values. An element
that has not been measured has width 0, because `Number(null)` is 0. Durations
are `real`.

Where the code and the design description disagree, the model follows the code:

- In reverse mode the translating leg ends at offset 0, not at `+width`. `scroll`
  first aims `currentX` at `+width`, then `setStartingX` overwrites it with 0
  (src/index.ts:108-109, 140). The leg runs from `-width` to 0.
- In reverse mode, `animate` re-reads the recycle candidate from the queue's tail
  before rotating the queue (src/index.ts:174 runs before :178). So the candidate
  after a cycle is the element that was last before that cycle's rotation. After
  the rotation it sits second to last. From construction, the first two cycles
  animate the same element (`ReverseRepeatsFirstItem`). After `k >= 1` cycles the
  candidate is the tail of the queue as it stood one cycle earlier
  (`ReverseCycles`). With children `a, b, c`, the first two cycles prepend
  `c`, which is already the first child. The third prepends `a` from the
  middle of the row, which leaves the row at `a, c, b`: reordered, not rotated
  (`ReverseScenario`). For children without repeats, the row always holds
  exactly the queued elements, each
  once (`ReverseCyclesKeepChildren`).
- A scroller without children is reported, but `init` still schedules `scroll`.
  `scroll` then throws when it reads a width from `children[0]`, which is
  undefined. The model records this as `NoActiveItem`, and the loop stops.

## Model

| member | source | states |
|---|---|---|
| `DomOrder.Remove` | src/index.ts:173 | a detached element no longer occurs in the child list, and the list does not grow |
| `DomOrder.RemoveCounts` | src/index.ts:173 | detaching an element removes every occurrence and keeps every other element, counted with its multiplicity |
| `DomOrder.MoveToEnd` | src/index.ts:176 | `appendChild` makes the element the last child |
| `DomOrder.MoveToEndKeepsChildren` | src/index.ts:176 | after `appendChild` the moved element occurs once and each other child as often as before |
| `DomOrder.MoveToFront` | src/index.ts:173 | `prepend` makes the element the first child |
| `DomOrder.MoveToFrontKeepsChildren` | src/index.ts:173 | after `prepend` the moved element occurs once and each other child as often as before |
| `DomOrder.Rotate` | src/index.ts:178-180 | `shift` + `push` keeps the queue's length |
| `DomOrder.RotateKeepsMembers` | src/index.ts:178-180 | an element is queued after a rotation exactly when it was queued before |
| `DomOrder.RotateKeepsElements` | src/index.ts:178-180 | `shift` + `push` keeps the queue's multiset of elements |
| `DomOrder.RotateNKeepsElements` | src/index.ts:178-180 | any number of rotations keeps the queue's multiset of elements |
| `DomOrder.RotateNSplits` | src/index.ts:178-180 | `n` rotations equal moving the first `n mod length` elements, in order, behind the rest |
| `DomOrder.RemoveLast` | src/index.ts:80 | prepending the last of a list of distinct children leaves the others in their order |
| `ScrollModel.ItemWidth` | src/index.ts:164-166 | a measured element reads its cached total width; only a measured element can read a non-zero width |
| `ScrollModel.AdjustedDuration` | src/index.ts:159-163 | duration times the standard width equals base duration times the item's width; an item of exactly the standard width takes the base duration |
| `ScrollModel.DirectionOffset` | src/index.ts:167-169 | the target offset has the item's width as its size; for a positive width it is positive exactly in "right" mode |
| `ScrollModel.ActiveItem` | src/index.ts:148-158 | there is no active item exactly when not reversing and the queue is empty; otherwise it is the candidate or a queued element |
| `ScrollModel.MeasurePrefix` | src/index.ts:41-49 | the measuring loop never drops an existing measurement (`MeasuredChildren` states what it records) |
| `ScrollModel.Init` | src/index.ts:16-56 | the queue is the scroller's children, `scroll` is pending, both offsets are 0, and there is a candidate exactly when there are children |
| `ScrollModel.Scrolled` | src/index.ts:103-147 | `scroll` goes on to its translating leg exactly when there is an active item, primes that item, and removes the transition; otherwise it stops |
| `ScrollModel.TransitionStarted` | src/index.ts:117-121 | the translating leg keeps the target, moves the transform to it over the primed duration, and leaves `animate` of the same item pending |
| `ScrollModel.Animated` | src/index.ts:171-187 | `animate` keeps the queue's length, schedules `scroll` again exactly when the queue is non-empty (at offset 0, no transition), and otherwise logs one error |
| `ScrollModel.AfterDestroy` | src/index.ts:188-218 | teardown leaves an empty queue and no step to run |
| `ScrollModel.Next` | src/index.ts:117-128 | a step keeps the queue's length, and a stopped or destroyed engine stays so |
| `ScrollModel.Cycle` | src/index.ts:103-187 | a cycle keeps the queue's length, and a cycle from a pending `scroll` with a non-empty queue schedules `scroll` again |
| `ScrollModel.WidthsApplied` | src/index.ts:88-101 | a measured element is left unchanged; an unmeasured one gets total width = width + margins + paddings and its index; no other element changes |
| `ScrollCycles.MeasuredChildren` | src/index.ts:41-49 | the measuring loop keeps existing measurements, measures every child that is not an image, touches no other element, and leaves an image not measured before unmeasured |
| `ScrollCycles.MeasuredValues` | src/index.ts:41-49 | for children without repeats, every child the loop measures records its own total width and the index `forEach` passed it |
| `ScrollCycles.ApplyWidthsIdempotent` | src/index.ts:89 | measuring twice equals measuring once, and the cached width is the first measurement |
| `ScrollCycles.UnmeasuredItemIsZeroWide` | src/index.ts:164-166 | an unmeasured element reads as width 0, so its leg has duration 0 and offset 0 |
| `ScrollCycles.DurationProportional` | src/index.ts:159-163 | the adjusted duration scales linearly: `k` times the width gives `k` times the duration |
| `ScrollCycles.DurationExamples` | src/index.ts:159-163 | doubling the width doubles the duration; width 100 at base duration 20 (standard 500) gives 4 seconds |
| `ScrollCycles.InitShape` | src/index.ts:24-49 | the queue copies the children in order, the candidate is the last child (null without children, and the error is reported), both offsets are 0, existing measurements are kept, each non-image child records its width and index, and unmeasured images stay unmeasured |
| `ScrollCycles.InitReverseOrder` | src/index.ts:75-81 | in reverse mode the initial child order is the last child followed by the others in order |
| `ScrollCycles.ScrollSnaps` | src/index.ts:103-147 | Priming snaps with no transition. Forward: snap and `startingX` are 0 and the target is `-width(head)`. Reverse: the snap is `-width(candidate)` and the target is 0. The primed duration is the scaled width. With no item, only the error and the stop change the state |
| `ScrollCycles.AnimateRotates` | src/index.ts:178-182 | on a non-empty queue, Settling rotates it head to tail, keeps its length, multiset and distinctness, and rests at 0 with no transition |
| `ScrollCycles.AnimateOnEmptyQueueStops` | src/index.ts:178-186 | on an empty queue, Settling reports the error, keeps the transform and transition, and nothing runs after it |
| `ScrollCycles.ForwardAnimateKeepsOrder` | src/index.ts:171-180 | forward mode: if the child order equals the queue and the item is its head, the order still equals the rotated queue afterwards |
| `ScrollCycles.DestroyResets` | src/index.ts:205-217 | teardown empties the queue, zeroes both offsets, nulls the candidate, clears the transform, strips only the queued elements' measurements, and leaves no step to run |
| `ScrollCycles.PhaseOrder` | src/index.ts:117-128 | Priming leads to Translating or a stop; Translating leads to Settling of the same item; Settling leads to Priming or a stop; the settled item is the one primed |
| `ScrollCycles.NextQueued` | src/index.ts:148-187 | each step keeps the candidate and the pending item among the queued elements, and the item `scroll` primes is queued |
| `ScrollCycles.ActiveItemQueued` | src/index.ts:148-187 | from construction, after any number of steps the candidate, the pending item and the item the next `scroll` animates are all queued |
| `ScrollCycles.NextKeepsQueue` | src/index.ts:171-187 | no step duplicates or loses a queued element |
| `ScrollCycles.StepsKeepQueue` | src/index.ts:178-183 | after any number of steps the queue has the same multiset and size |
| `ScrollCycles.CycleReturnsToRest` | src/index.ts:178-183 | in both modes, a cycle started on a non-empty queue rotates it and ends at offset 0 with no transition, ready to prime again |
| `ScrollCycles.ForwardCycle` | src/index.ts:171-183 | forward mode, one cycle: the child order stays equal to the rotated queue, and the leg went to `-width(head)` |
| `ScrollCycles.ForwardCycles` | src/index.ts:171-183 | forward mode, `n` cycles: the queue is rotated `n` times, the child order equals it, and the loop is still running |
| `ScrollCycles.ForwardCyclesOrder` | src/index.ts:176-180 | forward mode, `n` cycles: queue and child order are the initial queue split at `n mod length` |
| `ScrollCycles.ForwardScenario` | src/index.ts:159-163 | widths 100, 200, 300 and duration 20 in forward mode: the first leg is 4 seconds towards -100, then the queue and child order read 200, 300, 100 |
| `ScrollCycles.ReverseCycle` | src/index.ts:172-180 | reverse mode, one cycle: the candidate is prepended, the queue rotates, and the new candidate is the old tail, now second to last |
| `ScrollCycles.ReverseCycles` | src/index.ts:174-180 | reverse mode, `k >= 1` cycles: the queue is rotated `k` times and the candidate is the tail of the queue after `k - 1` rotations |
| `ScrollCycles.InitReverseAligned` | src/index.ts:75-81 | reverse mode from construction with distinct children: the child list holds exactly the queued elements, each once, and the candidate is queued |
| `ScrollCycles.ReverseCycleKeepsChildren` | src/index.ts:171-183 | reverse mode, one cycle: prepending the candidate neither duplicates nor loses a child, the queue stays without repeats, and the re-read candidate is queued |
| `ScrollCycles.ReverseCyclesKeepChildren` | src/index.ts:171-183 | reverse mode, any number of cycles: the child list keeps exactly the queued elements, each once |
| `ScrollCycles.ReverseScenario` | src/index.ts:171-180 | reverse mode from children `a, b, c`: two cycles animate `c` with the row at `c, a, b`; the third animates `a`, after which the queue is `a, b, c`, the row is `a, c, b` (no rotation of the queue) and the candidate is `b` |
| `ScrollCycles.ReverseRepeatsFirstItem` | src/index.ts:30 | reverse mode from construction: the first two cycles both animate the last child |
| `Scroller.InfiniteHorzScroll.constructor` | src/index.ts:16-56 | the new object's state is `Init`: the queue, the candidate, zero offsets, the measuring loop, the reverse-mode prepend, and `scroll` scheduled |
| `Scroller.InfiniteHorzScroll.MeasureChildren` | src/index.ts:41-49 | the loop leaves exactly the measurements of `MeasurePrefix` over all children, so `MeasuredChildren` applies to the new state |
| `Scroller.InfiniteHorzScroll.PrepareWrappers` | src/index.ts:75-81 | in reverse mode with a candidate, the candidate becomes the first child; otherwise the order is kept |
| `Scroller.InfiniteHorzScroll.ApplyWidths` | src/index.ts:88-101 | a measured element is untouched; otherwise it records its total width and index |
| `Scroller.InfiniteHorzScroll.SetStartingX` | src/index.ts:131-147 | reverse with a candidate: returns `-width(candidate)` and zeroes `currentX`; otherwise zeroes `startingX` and returns 0 |
| `Scroller.InfiniteHorzScroll.Scroll` | src/index.ts:103-114 | the new fields are `Scrolled` of the old: the snap and target as in `ScrollSnaps`, and the primed item and duration |
| `Scroller.InfiniteHorzScroll.StartTransition` | src/index.ts:117-121 | attaches the primed duration and moves to `currentX`, with `animate` of the same item pending |
| `Scroller.InfiniteHorzScroll.Animate` | src/index.ts:171-187 | the new fields are `Animated` of the old: the rotated queue at rest, or the error and a stop on an empty queue |
| `Scroller.InfiniteHorzScroll.Step` | src/index.ts:124-127 | runs exactly the pending callback: the fields become `Next` of the old ones |
| `Scroller.InfiniteHorzScroll.StripMeasurements` | src/index.ts:206-210 | the measurements of exactly the queued elements are removed |
| `Scroller.InfiniteHorzScroll.Destroy` | src/index.ts:188-218 | the new fields are `AfterDestroy` of the old: empty queue, zero offsets, null candidate, queued elements unmeasured |

## Left out

- Width measurement through `window.getComputedStyle` and `parseInt` (src/index.ts:90-96) is a browser call. The five components come in as a `Box` of whole numbers, so a `NaN` width cannot arise.
- The image `load` listeners (src/index.ts:42-45) are left out: the constructor skips image children, and the environment calls `ApplyWidths` when one loads. The interleaving of loads with cycles is whatever order those calls come in.
- `setTimeout` and `requestAnimationFrame` (src/index.ts:52, 117-128, 183) are not modelled. The phase fixes the order of the steps, but elapsed time is not modelled.
- `Scroller.InfiniteHorzScroll.Destroy` puts the engine in a `Destroyed` phase in which no step runs. In the source, callbacks that are already armed still fire after `destroy`, because nothing cancels them.
- Wrapper and mask construction, the static layout styles, and the `replaceChild` re-parenting in `prepareWrappers` and `destroy` (src/index.ts:57-74, 83-86, 189-203) are DOM plumbing. Only the reverse-mode prepend is kept.
- The CSS text of `transform` and `transition` is not modelled. They are an offset and a duration, and `None` stands for the empty string.
- The default argument `options = { duration: 20 }` (src/index.ts:18) is not modelled as a default: the constructor always takes a `Config`, and the default corresponds to `Config(20.0, Left)`.
- A missing scroller, or one that is not an `HTMLElement` (src/index.ts:24-26, 40, 53-54), is not modelled. The scroller is given as its list of children.
- JavaScript floating point in the duration division is replaced by exact `real` arithmetic.
- `firstAnimation` (src/index.ts:13, 36, 216) is written but never read.
- `console.error` output is recorded as entries of the `log` field.
- dist/index.js and dist/index.d.ts are not part of this model. They hold build output and type declarations.
