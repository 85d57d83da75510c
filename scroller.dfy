/** The engine object: its fields are updated in place by the steps of the cycle,
    and `Model()` reads them back as a `ScrollModel.State`. */
module Scroller {
  import opened DomOrder
  import opened ScrollModel

  class InfiniteHorzScroll {
    const options: Config
    var children: seq<Id>
    var currentX: int
    var startingX: int
    var prependedItem: Option<Id>
    // the scroller element: its child order, style and data attributes
    var dom: seq<Id>
    var transform: Option<int>
    var transition: Option<real>
    var startingXAttr: Option<int>
    var currentXAttr: Option<int>
    // the measurement attributes on the elements
    var meta: map<Id, Meta>
    // the pending callback and the diagnostic channel
    var phase: Phase
    var log: seq<Diagnostic>

    ghost function Model(): State
      reads this
    {
      State(children, currentX, startingX, prependedItem, dom, transform, transition,
            startingXAttr, currentXAttr, meta, phase, log)
    }

    /** Takes the scroller's children (`scroller`), the attributes they already
        carry, which of them are images still loading, and their computed styles. */
    constructor (scroller: seq<Id>, options: Config, attributes: map<Id, Meta>,
                 images: set<Id>, measure: Id -> Box)
      ensures this.options == options
      ensures Model() == Init(options, scroller, attributes, images, measure)
      ensures children == scroller && currentX == 0 && startingX == 0 && phase == Priming
      ensures |scroller| > 0 ==> prependedItem == Some(Last(scroller)) && log == []
      ensures |scroller| == 0 ==> prependedItem == None && log == [ScrollerHasNoChildren]
    {
      this.options := options;
      children := scroller;
      currentX, startingX := 0, 0;
      prependedItem := if |scroller| > 0 then Some(scroller[|scroller| - 1]) else None;
      log := if |scroller| > 0 then [] else [ScrollerHasNoChildren];
      dom := scroller;
      transform, transition := None, None;
      startingXAttr, currentXAttr := None, None;
      meta := attributes;
      phase := Priming;
      new;
      MeasureChildren(images, measure);
      PrepareWrappers();
    }

    /** The `forEach` of `init`: every child that is not an image is measured with
        its own index; images are measured when their load event fires. */
    method MeasureChildren(images: set<Id>, measure: Id -> Box)
      modifies this`meta
      ensures meta == MeasurePrefix(old(meta), children, images, measure, |children|)
    {
      var elements := children;
      var i := 0;
      while i < |elements|
        invariant 0 <= i <= |elements|
        invariant meta == MeasurePrefix(old(meta), elements, images, measure, i)
      {
        var el := elements[i];
        if el !in images {
          ApplyWidths(el, i, measure(el));
        }
        i := i + 1;
      }
    }

    /** The reverse-mode part of `prepareWrappers`: the candidate goes first. */
    method PrepareWrappers()
      modifies this`dom
      ensures dom == if Reversing(options.direction, prependedItem)
                     then MoveToFront(old(dom), prependedItem.value) else old(dom)
    {
      if options.direction == Right && prependedItem.Some? {
        dom := MoveToFront(dom, prependedItem.value);
      }
    }

    /** `applyWidths(el, i)`: an element that already carries a total width is left
        as it is; otherwise it records its total width and its index. */
    method ApplyWidths(el: Id, i: nat, box: Box)
      modifies this`meta
      ensures meta == WidthsApplied(old(meta), el, i, box)
      ensures el in old(meta) ==> meta == old(meta)
      ensures el !in old(meta) ==> meta == old(meta)[el := Meta(TotalWidth(box), i)]
    {
      if el !in meta {
        var totalWidth := box.width + box.marginLeft + box.marginRight + box.paddingLeft + box.paddingRight;
        meta := meta[el := Meta(totalWidth, i)];
      }
    }

    /** `setStartingX`: in reverse mode the snap is minus the candidate's width and
        the target is reset to 0; otherwise `startingX` is reset to 0 and returned. */
    method SetStartingX() returns (snap: int)
      modifies this`currentX, this`startingX
      ensures Reversing(options.direction, prependedItem) ==>
        snap == -ItemWidth(meta, prependedItem.value) && currentX == 0 && startingX == old(startingX)
      ensures !Reversing(options.direction, prependedItem) ==>
        snap == 0 && startingX == 0 && currentX == old(currentX)
    {
      snap := startingX;
      if options.direction == Right && prependedItem.Some? {
        snap := -ItemWidth(meta, prependedItem.value);
        currentX := 0;
      } else {
        startingX := 0;
        snap := startingX;
      }
    }

    /** `scroll`: the Priming step. */
    method Scroll()
      requires phase == Priming
      modifies this
      ensures Model() == Scrolled(options, old(Model()))
      ensures phase == Stopped <==> ActiveItem(options.direction, old(prependedItem), old(children)).None?
      ensures phase.Translating? ==>
        && transition == None
        && Some(phase.item) == ActiveItem(options.direction, old(prependedItem), old(children))
        && phase.seconds == AdjustedDuration(options.duration, ItemWidth(meta, phase.item))
      ensures options.direction == Left && |old(children)| > 0 ==>
        transform == Some(0) && startingX == 0 && currentX == -ItemWidth(meta, old(children)[0])
      ensures Reversing(options.direction, old(prependedItem)) ==>
        transform == Some(-ItemWidth(meta, old(prependedItem).value)) && currentX == 0
    {
      var item := ActiveItem(options.direction, prependedItem, children);
      if item.None? {
        log := log + [NoActiveItem];
        phase := Stopped;
        return;
      }
      var itemWidth := ItemWidth(meta, item.value);
      var adjustedDuration := AdjustedDuration(options.duration, itemWidth);
      currentX := DirectionOffset(options.direction, itemWidth);
      var snap := SetStartingX();
      transition := None;
      transform := Some(snap);
      startingXAttr := Some(snap);
      phase := Translating(item.value, adjustedDuration);
    }

    /** The zero-delay timeout of `scroll`: the Translating step. */
    method StartTransition()
      requires phase.Translating?
      modifies this
      ensures Model() == TransitionStarted(old(Model()))
      ensures transform == Some(currentX) && transition == Some(old(phase).seconds)
      ensures phase == Settling(old(phase).item)
    {
      transition := Some(phase.seconds);
      transform := Some(currentX);
      currentXAttr := Some(currentX);
      phase := Settling(phase.item);
    }

    /** `animate(item)`: the Settling step. */
    method Animate()
      requires phase.Settling?
      modifies this
      ensures Model() == Animated(options, old(Model()))
      ensures |old(children)| > 0 ==>
        children == old(children)[1..] + [old(children)[0]] &&
        transform == Some(0) && transition == None && phase == Priming
      ensures |old(children)| == 0 ==>
        children == [] && log == old(log) + [ElementNotFound] && phase == Stopped &&
        transform == old(transform) && transition == old(transition)
    {
      var item := phase.item;
      if options.direction == Right {
        dom := MoveToFront(dom, item);
        prependedItem := if |children| > 0 then Some(children[|children| - 1]) else None;
      } else {
        dom := MoveToEnd(dom, item);
      }
      if |children| > 0 {
        var removedElement := children[0];
        children := children[1..];
        children := children + [removedElement];
        transition := None;
        transform := Some(0);
        phase := Priming;
      } else {
        log := log + [ElementNotFound];
        phase := Stopped;
      }
    }

    /** Runs whichever callback is pending. */
    method Step()
      modifies this
      ensures Model() == Next(options, old(Model()))
    {
      match phase
      case Priming => Scroll();
      case Translating(_, _) => StartTransition();
      case Settling(_) => Animate();
      case Stopped =>
      case Destroyed =>
    }

    /** `destroy`: removes the engine's styles and attributes, strips the queued
        elements' measurements and resets the fields. */
    method Destroy()
      modifies this
      ensures Model() == AfterDestroy(old(Model()))
      ensures children == [] && currentX == 0 && startingX == 0 && prependedItem == None
      ensures forall x :: x in old(children) ==> x !in meta
    {
      ghost var target := AfterDestroy(Model());
      StripMeasurements();
      transition, transform, startingXAttr, currentXAttr := None, None, None, None;
      children, currentX, startingX, prependedItem, phase := [], 0, 0, None, Destroyed;
      assert Model() == target;
    }

    /** The `forEach` of `destroy` over the queue: removes the measurement
        attributes from every queued element and from no other. */
    method StripMeasurements()
      modifies this`meta
      ensures meta == old(meta) - Members(children)
    {
      var elements := children;
      var i := 0;
      while i < |elements|
        invariant 0 <= i <= |elements|
        invariant meta == old(meta) - Members(elements[..i])
      {
        MembersSnoc(elements[..i], elements[i]);
        assert elements[..i + 1] == elements[..i] + [elements[i]];
        meta := meta - {elements[i]};
        i := i + 1;
      }
      assert elements[..i] == elements;
    }
  }
}
