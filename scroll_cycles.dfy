/** What the engine's steps and cycles do, as the code computes it. */
module ScrollCycles {
  import opened DomOrder
  import opened ScrollModel

  // ---- measurement and the single-expression helpers ----

  /** Measuring an element a second time changes nothing, whatever index or
      computed style the second call sees. */
  lemma ApplyWidthsIdempotent(m: map<Id, Meta>, el: Id, i: nat, j: nat, b: Box, b': Box)
    ensures WidthsApplied(WidthsApplied(m, el, i, b), el, j, b') == WidthsApplied(m, el, i, b)
    ensures ItemWidth(WidthsApplied(m, el, i, b), el) == if el in m then m[el].totalWidth else TotalWidth(b)
  {
  }

  /** An element never measured has width 0, so it animates in no time over no distance. */
  lemma UnmeasuredItemIsZeroWide(cfg: Config, m: map<Id, Meta>, item: Id)
    requires item !in m
    ensures ItemWidth(m, item) == 0
    ensures AdjustedDuration(cfg.duration, ItemWidth(m, item)) == 0.0
    ensures DirectionOffset(cfg.direction, ItemWidth(m, item)) == 0
  {
  }

  /** Duration is proportional to width: scaling the width by `k` scales the duration by `k`. */
  lemma {:induction false} DurationProportional(duration: real, width: int, k: nat)
    ensures AdjustedDuration(duration, k * width) == k as real * AdjustedDuration(duration, width)
  {
    if k > 0 {
      DurationProportional(duration, width, k - 1);
      assert (k * width) as real == ((k - 1) * width) as real + width as real;
    }
  }

  /** Doubling the width doubles the duration; width 100 at base duration 20 takes 4 seconds. */
  lemma DurationExamples(duration: real, width: int)
    ensures AdjustedDuration(duration, 2 * width) == 2.0 * AdjustedDuration(duration, width)
    ensures AdjustedDuration(20.0, 100) == 4.0
  {
    DurationProportional(duration, width, 2);
  }

  // ---- construction ----

  /** The measuring loop over the first `n` children keeps every existing
      measurement, measures every child that is not an image, and touches no
      element outside the children it visited. */
  lemma {:induction false} MeasuredChildren(m: map<Id, Meta>, children: seq<Id>, images: set<Id>,
                                            measure: Id -> Box, n: nat)
    requires n <= |children|
    ensures var r := MeasurePrefix(m, children, images, measure, n);
      && (forall x :: x in m ==> x in r && r[x] == m[x])
      && (forall k :: 0 <= k < n && children[k] !in images ==> children[k] in r)
      && (forall x :: x in r ==> x in m || x in children[..n])
      && (forall x :: x in images && x !in m ==> x !in r)
  {
    if n > 0 {
      MeasuredChildren(m, children, images, measure, n - 1);
      assert children[..n] == children[..n - 1] + [children[n - 1]];
    }
  }

  /** Among children without repeats, each child measured by the loop records
      its own total width and the index the loop passed it. */
  lemma {:induction false} MeasuredValues(m: map<Id, Meta>, children: seq<Id>, images: set<Id>,
                                          measure: Id -> Box, n: nat)
    requires n <= |children| && Distinct(children)
    ensures var r := MeasurePrefix(m, children, images, measure, n);
      forall k :: 0 <= k < n && children[k] !in images && children[k] !in m ==>
        children[k] in r && r[children[k]] == Meta(TotalWidth(measure(children[k])), k)
  {
    if n > 0 {
      var prev := MeasurePrefix(m, children, images, measure, n - 1);
      var el := children[n - 1];
      MeasuredValues(m, children, images, measure, n - 1);
      MeasuredChildren(m, children, images, measure, n - 1);
      if el !in m && el !in images {
        assert el !in children[..n - 1];
        assert el !in prev;
      }
    }
  }

  /** The constructor copies the children in order and takes the last as the
      candidate; without children the queue is empty, the candidate null and the
      error reported. Both offsets start at 0 and elements already measured keep
      their measurements; a child that is not an image records its width and
      index, and an image not measured before stays unmeasured. */
  lemma InitShape(cfg: Config, dom: seq<Id>, meta: map<Id, Meta>, images: set<Id>, measure: Id -> Box)
    ensures var s := Init(cfg, dom, meta, images, measure);
      && s.children == dom && s.currentX == 0 && s.startingX == 0
      && s.phase == Priming && s.transform == None
      && (|dom| > 0 ==> s.prependedItem == Some(Last(dom)) && s.log == [])
      && (|dom| == 0 ==> s.prependedItem == None && s.log == [ScrollerHasNoChildren])
      && (forall x :: x in meta ==> x in s.meta && s.meta[x] == meta[x])
      && (forall k :: 0 <= k < |dom| && dom[k] !in images ==> dom[k] in s.meta)
      && (forall x :: x in images && x !in meta ==> x !in s.meta)
      && (Distinct(dom) ==> forall k :: 0 <= k < |dom| && dom[k] !in images && dom[k] !in meta ==>
            dom[k] in s.meta && s.meta[dom[k]] == Meta(TotalWidth(measure(dom[k])), k))
      && (cfg.direction == Left ==> s.dom == dom)
  {
    MeasuredChildren(meta, dom, images, measure, |dom|);
    if Distinct(dom) {
      MeasuredValues(meta, dom, images, measure, |dom|);
    }
  }

  /** In reverse mode the candidate is moved to the front before the loop starts,
      so the child order is the queue with its last element first. */
  lemma InitReverseOrder(cfg: Config, dom: seq<Id>, meta: map<Id, Meta>, images: set<Id>, measure: Id -> Box)
    requires cfg.direction == Right && |dom| > 0 && Distinct(dom)
    ensures Init(cfg, dom, meta, images, measure).dom == [Last(dom)] + dom[..|dom| - 1]
  {
    RemoveLast(dom);
  }

  // ---- one step at a time ----

  /** Priming snaps without a transition. Forward: snap and `startingX` are 0 and
      the target is minus the item's width. Reverse: the snap is minus the
      candidate's width and the target is 0 (the positive offset is overwritten). */
  lemma ScrollSnaps(cfg: Config, s: State)
    requires s.phase == Priming
    ensures var t := Scrolled(cfg, s);
      && (ActiveItem(cfg.direction, s.prependedItem, s.children).None? <==> t.phase == Stopped)
      && (t.phase == Stopped ==> t == s.(phase := Stopped, log := s.log + [NoActiveItem]))
      && (t.phase != Stopped ==> t.transition == None && t.children == s.children && t.dom == s.dom)
      && (cfg.direction == Left && |s.children| > 0 ==>
            var w := ItemWidth(s.meta, s.children[0]);
            && t.phase == Translating(s.children[0], AdjustedDuration(cfg.duration, w))
            && t.transform == Some(0) && t.startingX == 0 && t.currentX == -w)
      && (cfg.direction == Right && s.prependedItem.Some? ==>
            var w := ItemWidth(s.meta, s.prependedItem.value);
            && t.phase == Translating(s.prependedItem.value, AdjustedDuration(cfg.duration, w))
            && t.transform == Some(-w) && t.startingX == s.startingX && t.currentX == 0)
  {
  }

  /** Settling on a non-empty queue rotates it head to tail in both modes: nothing
      is duplicated or lost, and the scroller rests at 0 with no transition. */
  lemma AnimateRotates(cfg: Config, s: State)
    requires s.phase.Settling? && |s.children| > 0
    ensures var t := Animated(cfg, s);
      && t.children == s.children[1..] + [s.children[0]]
      && t.children == Rotate(s.children)
      && |t.children| == |s.children| && multiset(t.children) == multiset(s.children)
      && (Distinct(s.children) ==> Distinct(t.children))
      && t.transform == Some(0) && t.transition == None && t.phase == Priming
  {
    RotateKeepsElements(s.children);
    if Distinct(s.children) {
      DistinctRotate(s.children);
    }
  }

  /** Settling on an empty queue still moves the item, reports the error, leaves
      the transform as it was and schedules nothing: the loop stops. */
  lemma AnimateOnEmptyQueueStops(cfg: Config, s: State)
    requires s.phase.Settling? && |s.children| == 0
    ensures var t := Animated(cfg, s);
      && t.phase == Stopped && t.log == s.log + [ElementNotFound]
      && t.children == [] && t.transform == s.transform && t.transition == s.transition
      && Next(cfg, t) == t
  {
  }

  /** Forward mode: when the child order equals the queue and the item is its
      head, appending the item keeps the child order equal to the rotated queue. */
  lemma ForwardAnimateKeepsOrder(cfg: Config, s: State)
    requires cfg.direction == Left && |s.children| > 0 && s.phase == Settling(s.children[0])
    requires Distinct(s.children) && s.dom == s.children
    ensures Animated(cfg, s).dom == Animated(cfg, s).children
  {
    RemoveFirst(s.children);
  }

  /** `destroy` empties the queue, zeroes both offsets, clears the candidate and
      the scroller's transform, strips the queued elements' measurements, and
      no further step does anything. */
  lemma DestroyResets(cfg: Config, s: State)
    ensures var t := AfterDestroy(s);
      && t.children == [] && t.currentX == 0 && t.startingX == 0 && t.prependedItem == None
      && t.transform == None && t.transition == None
      && (forall x :: x in s.children ==> x !in t.meta)
      && (forall x :: x in s.meta && x !in s.children ==> x in t.meta && t.meta[x] == s.meta[x])
      && t.dom == s.dom
      && Next(cfg, t) == t
  {
  }

  // ---- the scheduling order ----

  /** Every element the engine refers to is queued: the recycle candidate and
      the item of a pending translating or settling step. */
  ghost predicate Queued(s: State)
  {
    && (s.prependedItem.Some? ==> s.prependedItem.value in s.children)
    && (s.phase.Translating? ==> s.phase.item in s.children)
    && (s.phase.Settling? ==> s.phase.item in s.children)
  }

  /** Each step keeps every referenced element queued; in particular the item
      `scroll` picks is always one of the queued elements. */
  lemma NextQueued(cfg: Config, s: State)
    requires Queued(s)
    ensures Queued(Next(cfg, s))
    ensures s.phase == Priming && Next(cfg, s).phase.Translating? ==> Next(cfg, s).phase.item in s.children
  {
    if s.phase.Settling? && |s.children| > 0 {
      RotateKeepsMembers(s.children, Last(s.children));
      if s.prependedItem.Some? {
        RotateKeepsMembers(s.children, s.prependedItem.value);
      }
    }
  }

  /** From construction, after any number of steps the candidate and the pending
      item are queued, and so is the element the next `scroll` would animate. */
  lemma {:induction false} ActiveItemQueued(cfg: Config, dom: seq<Id>, meta: map<Id, Meta>, images: set<Id>,
                                            measure: Id -> Box, n: nat)
    ensures var s := Steps(cfg, Init(cfg, dom, meta, images, measure), n);
      && Queued(s)
      && var active := ActiveItem(cfg.direction, s.prependedItem, s.children);
         active.Some? ==> active.value in s.children
  {
    if n > 0 {
      ActiveItemQueued(cfg, dom, meta, images, measure, n - 1);
      NextQueued(cfg, Steps(cfg, Init(cfg, dom, meta, images, measure), n - 1));
    }
  }

  /** Each step hands over to the next one of the cycle, and the item that
      settles is the one that was primed, after its own translating leg. */
  lemma PhaseOrder(cfg: Config, s: State)
    ensures s.phase == Priming ==> Next(cfg, s).phase.Translating? || Next(cfg, s).phase == Stopped
    ensures s.phase.Translating? ==> Next(cfg, s).phase == Settling(s.phase.item)
    ensures s.phase.Settling? ==> Next(cfg, s).phase == Priming || Next(cfg, s).phase == Stopped
    ensures s.phase == Stopped || s.phase == Destroyed ==> Next(cfg, s) == s
    ensures s.phase == Priming && Next(cfg, s).phase.Translating? ==>
      Some(Next(cfg, s).phase.item) == ActiveItem(cfg.direction, s.prependedItem, s.children)
  {
  }

  lemma SameMultisetSameLength(a: seq<Id>, b: seq<Id>)
    requires multiset(a) == multiset(b)
    ensures |a| == |b|
  {
    assert |a| == |multiset(a)|;
  }

  /** No step duplicates or loses a queued element. */
  lemma NextKeepsQueue(cfg: Config, s: State)
    ensures multiset(Next(cfg, s).children) == multiset(s.children)
  {
    if s.phase.Settling? && |s.children| > 0 {
      AnimateRotates(cfg, s);
    }
  }

  /** The queue holds the same elements after any number of steps. */
  lemma {:induction false} StepsKeepQueue(cfg: Config, s: State, n: nat)
    ensures multiset(Steps(cfg, s, n).children) == multiset(s.children)
    ensures |Steps(cfg, s, n).children| == |s.children|
  {
    if n > 0 {
      var prev := Steps(cfg, s, n - 1);
      StepsKeepQueue(cfg, s, n - 1);
      NextKeepsQueue(cfg, prev);
    }
    SameMultisetSameLength(Steps(cfg, s, n).children, s.children);
  }

  // ---- whole cycles ----

  /** A cycle is three turns of the event loop. */
  lemma CycleIsThreeSteps(cfg: Config, s: State)
    requires s.phase == Priming
    ensures Cycle(cfg, s) == Steps(cfg, s, 3)
  {
    var p := Next(cfg, s);
    assert Steps(cfg, s, 1) == p;
    assert Steps(cfg, s, 2) == Next(cfg, p);
  }

  /** A cycle started with a non-empty queue completes in either mode: it rotates
      the queue and leaves the scroller at offset 0 with no transition. */
  lemma CycleReturnsToRest(cfg: Config, s: State)
    requires s.phase == Priming && |s.children| > 0
    ensures var t := Cycle(cfg, s);
      && t.phase == Priming && t.children == Rotate(s.children)
      && t.transform == Some(0) && t.transition == None && t.meta == s.meta
  {
    var p := Scrolled(cfg, s);
    ScrollSnaps(cfg, s);
    AnimateRotates(cfg, TransitionStarted(p));
  }

  /** Forward mode at a cycle boundary: the next `scroll` is pending, the queue is
      non-empty without repeats, and the child order equals the queue. */
  ghost predicate ForwardAligned(cfg: Config, s: State)
  {
    && cfg.direction == Left && s.phase == Priming
    && |s.children| > 0 && Distinct(s.children) && s.dom == s.children
  }

  /** Forward mode, one cycle: the head moves from the front to the back of both
      the queue and the child order, after a leg to minus its width. */
  lemma ForwardCycle(cfg: Config, s: State)
    requires ForwardAligned(cfg, s)
    ensures var t := Cycle(cfg, s);
      && ForwardAligned(cfg, t) && t.children == Rotate(s.children) && t.meta == s.meta
      && t.startingX == 0 && t.currentX == -ItemWidth(s.meta, s.children[0])
      && t.transform == Some(0) && t.transition == None
  {
    var p := Scrolled(cfg, s);
    ScrollSnaps(cfg, s);
    var q := TransitionStarted(p);
    ForwardAnimateKeepsOrder(cfg, q);
    AnimateRotates(cfg, q);
  }

  /** Forward mode, any number of cycles: the queue is the initial one rotated
      `n` times, the child order stays equal to it and the loop keeps going. */
  lemma {:induction false} ForwardCycles(cfg: Config, s: State, n: nat)
    requires ForwardAligned(cfg, s)
    ensures var t := Cycles(cfg, s, n);
      && ForwardAligned(cfg, t) && t.children == RotateN(s.children, n) && t.meta == s.meta
      && (n > 0 ==> t.transform == Some(0) && t.transition == None)
  {
    if n > 0 {
      ForwardCycles(cfg, s, n - 1);
      ForwardCycle(cfg, Cycles(cfg, s, n - 1));
    }
  }

  /** Forward mode after `n` cycles: the first `n mod |queue|` elements have moved,
      in order, behind the others, in the queue and in the child order alike. */
  lemma ForwardCyclesOrder(cfg: Config, s: State, n: nat)
    requires ForwardAligned(cfg, s)
    ensures var k := n % |s.children|;
      && Cycles(cfg, s, n).children == s.children[k..] + s.children[..k]
      && Cycles(cfg, s, n).dom == s.children[k..] + s.children[..k]
  {
    ForwardCycles(cfg, s, n);
    RotateNSplits(s.children, n);
  }

  /** The forward scenario of three elements 100, 200 and 300 wide at base
      duration 20: the first leg lasts 4 seconds towards -100, and afterwards the
      queue and the child order read 200, 300, 100. */
  lemma ForwardScenario(a: Id, b: Id, c: Id)
    requires a != b && b != c && a != c
    ensures var cfg := Config(20.0, Left);
      var meta := map[a := Meta(100, 0), b := Meta(200, 1), c := Meta(300, 2)];
      var s := State([a, b, c], 0, 0, Some(c), [a, b, c], None, None, None, None, meta, Priming, []);
      && Scrolled(cfg, s).phase == Translating(a, 4.0)
      && Scrolled(cfg, s).currentX == -100
      && Cycle(cfg, s).children == [b, c, a]
      && Cycle(cfg, s).dom == [b, c, a]
  {
    var cfg := Config(20.0, Left);
    var meta := map[a := Meta(100, 0), b := Meta(200, 1), c := Meta(300, 2)];
    var s := State([a, b, c], 0, 0, Some(c), [a, b, c], None, None, None, None, meta, Priming, []);
    assert Distinct([a, b, c]);
    assert ItemWidth(meta, a) == 100;
    ScrollSnaps(cfg, s);
    DurationExamples(20.0, 100);
    ForwardCycle(cfg, s);
    assert Rotate([a, b, c]) == [b, c, a];
  }

  /** Reverse mode, one cycle: the candidate is snapped into place and slides to
      0; afterwards the candidate is the element that was the queue's tail, which
      after the rotation sits second to last. */
  lemma ReverseCycle(cfg: Config, s: State)
    requires cfg.direction == Right && s.phase == Priming
    requires |s.children| > 0 && s.prependedItem.Some?
    ensures var t := Cycle(cfg, s);
      && t.phase == Priming && t.children == Rotate(s.children)
      && t.prependedItem == Some(Last(s.children))
      && t.dom == MoveToFront(s.dom, s.prependedItem.value)
      && (|s.children| > 1 ==> t.prependedItem == Some(t.children[|t.children| - 2]))
      && t.transform == Some(0) && t.transition == None && t.currentX == 0
  {
    var p := Scrolled(cfg, s);
    ScrollSnaps(cfg, s);
    var q := TransitionStarted(p);
    AnimateRotates(cfg, q);
  }

  /** Reverse mode, any number of cycles: after `k >= 1` cycles the queue is the
      initial one rotated `k` times and the candidate is the tail of the queue as
      it stood one cycle earlier. */
  lemma {:induction false} ReverseCycles(cfg: Config, s: State, k: nat)
    requires cfg.direction == Right && s.phase == Priming
    requires |s.children| > 0 && s.prependedItem.Some?
    requires k >= 1
    ensures var t := Cycles(cfg, s, k);
      && t.phase == Priming && t.children == RotateN(s.children, k)
      && t.prependedItem == Some(Last(RotateN(s.children, k - 1)))
  {
    if k > 1 {
      ReverseCycles(cfg, s, k - 1);
    }
    ReverseCycle(cfg, Cycles(cfg, s, k - 1));
    assert Cycles(cfg, s, k) == Cycle(cfg, Cycles(cfg, s, k - 1));
  }

  /** Reverse mode at a cycle boundary: the next `scroll` is pending, the queue
      is non-empty without repeats, the candidate is queued, and the child list
      holds exactly the queued elements, each once. */
  ghost predicate ReverseAligned(cfg: Config, s: State)
  {
    && cfg.direction == Right && s.phase == Priming
    && |s.children| > 0 && Distinct(s.children)
    && s.prependedItem.Some? && s.prependedItem.value in s.children
    && multiset(s.dom) == multiset(s.children)
  }

  /** Reverse mode from construction with children without repeats is aligned. */
  lemma InitReverseAligned(cfg: Config, dom: seq<Id>, meta: map<Id, Meta>, images: set<Id>, measure: Id -> Box)
    requires cfg.direction == Right && |dom| > 0 && Distinct(dom)
    ensures ReverseAligned(cfg, Init(cfg, dom, meta, images, measure))
  {
    DistinctOnce(dom, Last(dom));
    MoveToFrontKeepsChildren(dom, Last(dom));
  }

  /** Reverse mode, one cycle: prepending the candidate neither duplicates nor
      loses a child, and the re-read candidate is queued. */
  lemma ReverseCycleKeepsChildren(cfg: Config, s: State)
    requires ReverseAligned(cfg, s)
    ensures ReverseAligned(cfg, Cycle(cfg, s))
  {
    var p := s.prependedItem.value;
    ReverseCycle(cfg, s);
    DistinctOnce(s.children, p);
    MoveToFrontKeepsChildren(s.dom, p);
    RotateKeepsElements(s.children);
    DistinctRotate(s.children);
    RotateKeepsMembers(s.children, Last(s.children));
  }

  /** Reverse mode, any number of cycles: the child list keeps exactly the
      queued elements, each once. */
  lemma {:induction false} ReverseCyclesKeepChildren(cfg: Config, s: State, n: nat)
    requires ReverseAligned(cfg, s)
    ensures ReverseAligned(cfg, Cycles(cfg, s, n))
  {
    if n > 0 {
      ReverseCyclesKeepChildren(cfg, s, n - 1);
      ReverseCycleKeepsChildren(cfg, Cycles(cfg, s, n - 1));
    }
  }

  /** Reverse mode from construction with children `a, b, c`: the first two
      cycles animate `c` and leave the row as `c, a, b`; the third animates `a`,
      after which the queue is back to `a, b, c` but the row reads `a, c, b`,
      which is no rotation of the queue, and the candidate is `b`. */
  lemma ReverseScenario(a: Id, b: Id, c: Id, meta: map<Id, Meta>, images: set<Id>, measure: Id -> Box)
    requires a != b && b != c && a != c
    ensures var cfg := Config(20.0, Right);
      var s0 := Init(cfg, [a, b, c], meta, images, measure);
      var s1 := Cycle(cfg, s0);
      var s2 := Cycle(cfg, s1);
      var s3 := Cycle(cfg, s2);
      && s0.dom == [c, a, b] && s0.prependedItem == Some(c)
      && s1.dom == [c, a, b] && s1.prependedItem == Some(c)
      && s2.dom == [c, a, b] && s2.prependedItem == Some(a)
      && s3.children == [a, b, c] && s3.dom == [a, c, b] && s3.prependedItem == Some(b)
  {
    var cfg := Config(20.0, Right);
    var s0 := Init(cfg, [a, b, c], meta, images, measure);
    assert Distinct([a, b, c]);
    InitReverseOrder(cfg, [a, b, c], meta, images, measure);
    assert [a, b, c][..2] == [a, b];
    assert Distinct([c, a, b]);
    RemoveFirst([c, a, b]);
    assert [c, a, b][1..] == [a, b];
    ReverseCycle(cfg, s0);
    var s1 := Cycle(cfg, s0);
    ReverseCycle(cfg, s1);
    var s2 := Cycle(cfg, s1);
    ReverseCycle(cfg, s2);
    RemoveAbsent([b], a);
    assert Remove([c, a, b], a) == [c, b];
  }

  /** Reverse mode from construction: the first two cycles both animate the
      queue's last element, because the candidate re-read in the first cycle is
      the tail before that cycle's rotation, which is the same element. */
  lemma ReverseRepeatsFirstItem(cfg: Config, dom: seq<Id>, meta: map<Id, Meta>, images: set<Id>, measure: Id -> Box)
    requires cfg.direction == Right && |dom| > 0
    ensures var s := Init(cfg, dom, meta, images, measure);
      && ActiveItem(cfg.direction, s.prependedItem, s.children) == Some(Last(dom))
      && var t := Cycle(cfg, s);
         && t.phase == Priming
         && ActiveItem(cfg.direction, t.prependedItem, t.children) == Some(Last(dom))
  {
    var s := Init(cfg, dom, meta, images, measure);
    ReverseCycle(cfg, s);
  }
}
