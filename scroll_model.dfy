/** The state of the scroll/recycle engine as a value, and each step of its cycle
    as a function of that value. Timers and animation frames are replaced by the
    phase: it names the callback that is pending, with the values its closure captured. */
module ScrollModel {
  import opened DomOrder

  datatype Option<T> = None | Some(value: T)

  /** `options.direction`: "right" is Right; "left" and an absent direction are Left. */
  datatype Direction = Left | Right

  /** The options the engine reads: base duration in seconds and direction. */
  datatype Config = Config(duration: real, direction: Direction)

  /** An element's computed style, each component already a whole number of pixels. */
  datatype Box = Box(width: int, marginLeft: int, marginRight: int, paddingLeft: int, paddingRight: int)

  /** What an element carries once measured: `data-scroller-total-width`,
      `data-scroller-item-index` (and `flex-shrink: 0`, set together with them). */
  datatype Meta = Meta(totalWidth: int, itemIndex: nat)

  /** Reports on the diagnostic channel. `NoActiveItem` is the TypeError `scroll`
      raises when there is no element to read a width from. */
  datatype Diagnostic = ScrollerHasNoChildren | NoActiveItem | ElementNotFound

  /** The pending callback. `Priming`: `scroll` is scheduled. `Translating`: the
      zero-delay timeout that starts the transition. `Settling`: the timer (then
      frame) that calls `animate(item)`. `Stopped`: nothing is scheduled any more. */
  datatype Phase =
    | Priming
    | Translating(item: Id, seconds: real)
    | Settling(item: Id)
    | Stopped
    | Destroyed

  datatype State = State(
    children: seq<Id>,           // the element queue
    currentX: int,
    startingX: int,
    prependedItem: Option<Id>,   // the reverse-mode recycle candidate
    dom: seq<Id>,                // the scroller's child order
    transform: Option<int>,      // translateX offset, None when no transform is set
    transition: Option<real>,    // linear transition length, None when none is attached
    startingXAttr: Option<int>,  // data-startingx
    currentXAttr: Option<int>,   // data-currentx
    meta: map<Id, Meta>,
    phase: Phase,
    log: seq<Diagnostic>)

  /** The reference width against which durations are scaled. */
  const Standard: real := 500.0

  function TotalWidth(b: Box): int
  {
    b.width + b.marginLeft + b.marginRight + b.paddingLeft + b.paddingRight
  }

  /** `applyWidths(el, i)`: measures `el` unless it already carries a total width. */
  function WidthsApplied(m: map<Id, Meta>, el: Id, i: nat, b: Box): (r: map<Id, Meta>)
    ensures el in r
    ensures el in m ==> r == m
    ensures el !in m ==> r[el] == Meta(TotalWidth(b), i) && r.Keys == m.Keys + {el}
    ensures forall x :: x in m ==> x in r && r[x] == m[x]
  {
    if el in m then m else m[el := Meta(TotalWidth(b), i)]
  }

  /** `getItemWidth`: the cached total width; `Number(null)` is 0 for an unmeasured element. */
  function ItemWidth(m: map<Id, Meta>, item: Id): (w: int)
    ensures item in m ==> w == m[item].totalWidth
    ensures w != 0 ==> item in m
  {
    if item in m then m[item].totalWidth else 0
  }

  /** `getAdjustedDuration`: the base duration scaled by the width's ratio to the standard. */
  function AdjustedDuration(duration: real, itemWidth: int): (r: real)
    ensures r * Standard == duration * itemWidth as real
    ensures itemWidth as real == Standard ==> r == duration
  {
    duration * (itemWidth as real / Standard)
  }

  /** `getDirection`: the target offset of the translating leg. */
  function DirectionOffset(dir: Direction, width: int): (r: int)
    ensures r == width || r == -width
    ensures width > 0 ==> (r > 0 <==> dir == Right)
  {
    if dir == Right then width else -width
  }

  /** The guard `direction === "right" && this.prependedItem` shared by several steps. */
  predicate Reversing(dir: Direction, prependedItem: Option<Id>)
  {
    dir == Right && prependedItem.Some?
  }

  /** `getItemBasedOnDirection`; None stands for `children[0]` of an empty queue. */
  function ActiveItem(dir: Direction, prependedItem: Option<Id>, children: seq<Id>): (r: Option<Id>)
    ensures r.None? <==> !Reversing(dir, prependedItem) && |children| == 0
    ensures r.Some? ==> r == prependedItem || r.value in children
  {
    if Reversing(dir, prependedItem) then prependedItem
    else if |children| > 0 then Some(children[0])
    else None
  }

  /** The `forEach` of `init` over the first `n` children: every element that is not
      an image is measured with its own index; images wait for their load event. */
  function MeasurePrefix(m: map<Id, Meta>, children: seq<Id>, images: set<Id>,
                         measure: Id -> Box, n: nat): (r: map<Id, Meta>)
    requires n <= |children|
    ensures m.Keys <= r.Keys
  {
    if n == 0 then m
    else
      var prev := MeasurePrefix(m, children, images, measure, n - 1);
      var el := children[n - 1];
      if el in images then prev else WidthsApplied(prev, el, n - 1, measure(el))
  }

  /** The constructor followed by `init`: the queue copies the scroller's children,
      the last of them is the recycle candidate, the children are measured, in
      reverse mode the candidate is prepended, and the first `scroll` is scheduled. */
  function Init(cfg: Config, dom: seq<Id>, meta: map<Id, Meta>, images: set<Id>, measure: Id -> Box): (r: State)
    ensures r.children == dom && r.phase == Priming && r.currentX == 0 && r.startingX == 0
    ensures r.prependedItem.Some? <==> |dom| > 0
  {
    var prepended := if |dom| > 0 then Some(Last(dom)) else None;
    var log := if |dom| > 0 then [] else [ScrollerHasNoChildren];
    var measured := MeasurePrefix(meta, dom, images, measure, |dom|);
    var order := if Reversing(cfg.direction, prepended) then MoveToFront(dom, prepended.value) else dom;
    State(dom, 0, 0, prepended, order, None, None, None, None, measured, Priming, log)
  }

  /** `scroll`: pick the active item, aim `currentX`, then `setStartingX` and snap
      to the starting offset with no transition. An empty queue makes the width
      lookup throw, and nothing is scheduled after that. */
  function Scrolled(cfg: Config, s: State): (r: State)
    requires s.phase == Priming
    ensures r.phase.Translating? || r.phase == Stopped
    ensures r.phase.Translating? <==> ActiveItem(cfg.direction, s.prependedItem, s.children).Some?
    ensures r.phase.Translating? ==>
      Some(r.phase.item) == ActiveItem(cfg.direction, s.prependedItem, s.children) && r.transition == None
  {
    match ActiveItem(cfg.direction, s.prependedItem, s.children)
    case None => s.(phase := Stopped, log := s.log + [NoActiveItem])
    case Some(item) =>
      var itemWidth := ItemWidth(s.meta, item);
      var seconds := AdjustedDuration(cfg.duration, itemWidth);
      var aimed := s.(currentX := DirectionOffset(cfg.direction, itemWidth));
      var (snap, started) :=
        if Reversing(cfg.direction, aimed.prependedItem)
        then (-ItemWidth(aimed.meta, aimed.prependedItem.value), aimed.(currentX := 0))
        else (0, aimed.(startingX := 0));
      started.(transition := None, transform := Some(snap), startingXAttr := Some(snap),
               phase := Translating(item, seconds))
  }

  /** The zero-delay timeout: attach the linear transition and move to `currentX`. */
  function TransitionStarted(s: State): (r: State)
    requires s.phase.Translating?
    ensures r.currentX == s.currentX && r.transform == Some(s.currentX)
    ensures r.transition == Some(s.phase.seconds) && r.phase == Settling(s.phase.item)
  {
    s.(transition := Some(s.phase.seconds), transform := Some(s.currentX),
       currentXAttr := Some(s.currentX), phase := Settling(s.phase.item))
  }

  /** `animate(item)`: move the item across the scroller, in reverse mode re-read
      the candidate from the queue's tail, then rotate the queue, reset the
      transform and schedule `scroll`; an empty queue is reported and ends the loop. */
  function Animated(cfg: Config, s: State): (r: State)
    requires s.phase.Settling?
    ensures |r.children| == |s.children|
    ensures r.phase == Priming <==> |s.children| > 0
    ensures r.phase == Priming ==> r.transform == Some(0) && r.transition == None
    ensures r.phase == Stopped ==> |r.log| == |s.log| + 1
  {
    var item := s.phase.item;
    var moved :=
      if cfg.direction == Right
      then s.(dom := MoveToFront(s.dom, item),
              prependedItem := if |s.children| > 0 then Some(Last(s.children)) else None)
      else s.(dom := MoveToEnd(s.dom, item));
    if |moved.children| > 0 then
      moved.(children := moved.children[1..] + [moved.children[0]],
             transition := None, transform := Some(0), phase := Priming)
    else
      moved.(log := moved.log + [ElementNotFound], phase := Stopped)
  }

  /** `destroy`: strip the measurements from the queued elements and the engine's
      styles and attributes from the scroller, then reset the engine's fields. */
  function AfterDestroy(s: State): (r: State)
    ensures r.children == [] && r.phase == Destroyed
  {
    s.(children := [], currentX := 0, startingX := 0, prependedItem := None,
       transform := None, transition := None, startingXAttr := None, currentXAttr := None,
       meta := s.meta - Members(s.children), phase := Destroyed)
  }

  /** The event loop runs whichever callback is pending. */
  function Next(cfg: Config, s: State): (r: State)
    ensures |r.children| == |s.children|
    ensures s.phase == Stopped || s.phase == Destroyed ==> r.phase == s.phase
  {
    match s.phase
    case Priming => Scrolled(cfg, s)
    case Translating(_, _) => TransitionStarted(s)
    case Settling(_) => Animated(cfg, s)
    case Stopped => s
    case Destroyed => s
  }

  function Steps(cfg: Config, s: State, n: nat): State
  {
    if n == 0 then s else Next(cfg, Steps(cfg, s, n - 1))
  }

  /** One cycle from a pending `scroll`: Priming, then, unless it threw,
      Translating and Settling. Any other state is left as it is. */
  function Cycle(cfg: Config, s: State): (r: State)
    ensures |r.children| == |s.children|
    ensures s.phase == Priming && |s.children| > 0 ==> r.phase == Priming
  {
    if s.phase != Priming then s
    else
      var primed := Scrolled(cfg, s);
      if primed.phase.Translating? then Animated(cfg, TransitionStarted(primed)) else primed
  }

  function Cycles(cfg: Config, s: State, n: nat): State
  {
    if n == 0 then s else Cycle(cfg, Cycles(cfg, s, n - 1))
  }
}
