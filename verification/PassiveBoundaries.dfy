/** Where the scheduler's events begin and end, and what they deliver: which samples are coalesced, when a pulse is
    delivered alone because the scene returned to what it showed before it, and when a region is enough. */
module PassiveBoundaries {
  import opened Basics
  import opened Governor
  import opened PassiveTimeline

  // ---------------------------------------------------------------- reversals

  /** A signature with three channels for every block, as every raster has. */
  predicate Full(a: Signature) { |a.samples| == Blocks(a) * 3 }

  predicate SameGrid(a: Signature, b: Signature) { a.width == b.width && a.height == b.height }

  /** `b` differs enough from `a`, and `c` is back at `a`, both in absolute terms and measured by the pulse. */
  predicate Reverses(a: Signature, b: Signature, c: Signature, o: Options) {
    && SameGrid(a, b) && SameGrid(a, c)
    && MeanDistance(b, a) >= o.pulseThreshold
    && MeanDistance(c, a) <= o.returnThreshold && MeanDistance(c, a) <= MeanDistance(b, a) * o.reversalRatio
  }

  predicate AllFull(steps: seq<Step>) { forall e :: e in steps && e.Sample? ==> Full(e.input.view.signature) }

  /** The signatures of the samples whose calls returned, since the last reset. */
  function Returned(o: Options, s: Settings, steps: seq<Step>): seq<Signature>
    requires forall e :: e in steps ==> PassiveTimeline.Well(e)
  {
    if steps == [] then []
    else
      var init, e := steps[..|steps| - 1], steps[|steps| - 1];
      if e.StartOver? then []
      else if e.Sample? && Take(Run(o, s, init), o, s, e).1 then Returned(o, s, init) + [e.input.view.signature]
      else Returned(o, s, init)
  }

  lemma FlushKeepsSignatures(t: Timeline, o: Options, interrupted: bool, rerender: Option<nat>)
    requires t.pending != []
    ensures var t1 := Flushed(t, o, interrupted, rerender).0;
            t1.previous == t.previous && t1.penultimate == t.penultimate
  {
    hide Delivery, EventOf;
  }

  lemma SampleKeepsSignatures(t: Timeline, o: Options, s: Settings, i: Input)
    requires Captured(i.view) && o.preserving
    ensures var (t1, ok) := Sampled(t, o, s, i);
            if ok then t1.penultimate == t.previous && t1.previous == Some(i.view.signature)
            else t1.penultimate == t.penultimate && t1.previous == t.previous
  {
    hide Observed, IsTransientReversal, Flushed, Counted, Accepted, Dropped, Interrupted, Placed;
    var (g, d) := Observed(t.governor, s, i.view, i.cropRenders);
    if d.Some? {
      var n := Counted(t.n, d.value);
      var p := PendingOf(t, i, n, d.value);
      var t0 := Accepted(t.(governor := g, n := n), p);
      AcceptKeepsSignatures(t.(governor := g, n := n), p);
      DropKeepsSignatures(t0, p);
      InterruptKeepsSignatures(t0, o, i);
      var t1 := Interrupted(t0, o, i).0;
      DropKeepsSignatures(t1, p);
      PlaceKeepsSignatures(t1, o, p, i);
    }
  }

  lemma AcceptKeepsSignatures(t: Timeline, p: Pending)
    ensures Accepted(t, p).previous == t.previous && Accepted(t, p).penultimate == t.penultimate
  {
  }

  lemma DropKeepsSignatures(t: Timeline, p: Pending)
    ensures Dropped(t, p).previous == t.previous && Dropped(t, p).penultimate == t.penultimate
  {
  }

  lemma InterruptKeepsSignatures(t: Timeline, o: Options, i: Input)
    ensures var t1 := Interrupted(t, o, i).0; t1.previous == t.previous && t1.penultimate == t.penultimate
  {
    hide Flushed, IsTransientReversal;
    if t.pending != [] { FlushKeepsSignatures(t, o, true, i.interrupt); }
  }

  lemma PlaceKeepsSignatures(t: Timeline, o: Options, p: Pending, i: Input)
    ensures var t1 := Placed(t, o, p, i).0; t1.previous == t.previous && t1.penultimate == t.penultimate
  {
    hide Flushed;
    FlushKeepsSignatures(t.(pending := t.pending + [p]), o, false, i.full);
    if t.pending != [] { FlushKeepsSignatures(t, o, false, i.window); }
    var (t1, ok) := if WindowOver(t, o, i.at) then Flushed(t, o, false, i.window) else (t, true);
    FlushKeepsSignatures(t1.(pending := t1.pending + [p]), o, false, i.full);
  }

  /** The two signatures kept are those of the last two samples that returned. */
  lemma {:induction false} LastTwoAreKept(o: Options, s: Settings, steps: seq<Step>)
    requires o.preserving && forall e :: e in steps ==> PassiveTimeline.Well(e)
    ensures var t, r := Run(o, s, steps), Returned(o, s, steps);
            && t.previous == (if |r| >= 1 then Some(r[|r| - 1]) else None)
            && t.penultimate == (if |r| >= 2 then Some(r[|r| - 2]) else None)
  {
    hide Sampled, Flushed;
    if steps != [] {
      var init, e := steps[..|steps| - 1], steps[|steps| - 1];
      LastTwoAreKept(o, s, init);
      var t := Run(o, s, init);
      assert e in steps;
      if e.Sample? { SampleKeepsSignatures(t, o, s, e.input); }
      if e.FlushNow? && t.pending != [] { FlushKeepsSignatures(t, o, false, e.rerender); }
    }
  }

  lemma {:induction false} ReturnedIsFull(o: Options, s: Settings, steps: seq<Step>)
    requires AllFull(steps) && forall e :: e in steps ==> PassiveTimeline.Well(e)
    ensures forall a :: a in Returned(o, s, steps) ==> Full(a)
  {
    hide Take, Run;
    if steps != [] { ReturnedIsFull(o, s, steps[..|steps| - 1]); }
  }

  /** The reversal test, in terms of the two signatures kept. */
  lemma ReversalIff(t: Timeline, o: Options, c: Signature)
    requires t.previous.Some? && t.penultimate.Some?
    requires Full(t.previous.value) && Full(t.penultimate.value) && Full(c)
    ensures IsTransientReversal(t, o, c) <==> Reverses(t.penultimate.value, t.previous.value, c, o)
  {
    hide MeanDistance;
    var a, b := t.penultimate.value, t.previous.value;
    DifferenceIsDistance(b, a);
    DifferenceIsDistance(c, a);
  }

  lemma DifferenceIsDistance(a: Signature, b: Signature)
    requires Full(a) && Full(b)
    ensures SignatureDifference(a, b) == if SameGrid(a, b) then Some(MeanDistance(a, b)) else None
  {
    if SameGrid(a, b) { SchedulerAndGovernorAgree(a, b); }
  }

  // ---------------------------------------------------------------- where the queue is cut

  /** The scene of the last two returned samples is undone by `c`, while something waits to be delivered. */
  predicate Undone(o: Options, r: seq<Signature>, queue: seq<Pending>, c: Signature) {
    o.preserving && queue != [] && |r| >= 2 && Reverses(r[|r| - 2], r[|r| - 1], c, o)
  }

  /** The queue is closed before the sample: its pulse is undone, or its window is over and no keyframe joins it. */
  predicate CutBefore(undone: bool, o: Options, queue: seq<Pending>, p: Pending) {
    undone || (queue != [] && !Keyed(p) && p.at - queue[0].at >= o.window)
  }

  /** What a sample that returns does to the queue `q`: the batches it closes and what then waits. */
  ghost predicate Cuts(cut: bool, o: Options, q: seq<Pending>, p: Pending, closed: seq<seq<Pending>>,
                       q': seq<Pending>) {
    var before := if cut then [q] else [];
    if p.decision.disposition == Skip then closed == before && q' == if cut then [] else q
    else
      var batch := (if cut then [] else q) + [p];
      if Keyed(p) || |batch| >= o.most then closed == before + [batch] && q' == [] else closed == before && q' == batch
  }

  lemma FlushCloses(t: Timeline, o: Options, interrupted: bool, rerender: Option<nat>)
    requires t.pending != []
    ensures var (t1, ok) := Flushed(t, o, interrupted, rerender);
            && t1.governor == t.governor && t1.n.interruptions == t.n.interruptions
            && (ok ==>
                  && t1.pending == [] && t1.h.batches == t.h.batches + [t.pending]
                  && |t1.events| == |t.events| + 1 && t1.events[..|t.events|] == t.events
                  && t1.events[|t.events|].interrupted == interrupted
                  && (interrupted ==> t1.events[|t.events|].reason == "return_to_recent_visual_state"))
  {
    hide Delivery;
  }

  /** The events appended from the `n`-th on are not interrupted ones. */
  ghost predicate NoneInterrupted(events: seq<SceneEvent>, n: nat) {
    forall k :: n <= k < |events| ==> !events[k].interrupted
  }

  lemma PlaceCuts(t: Timeline, o: Options, p: Pending, i: Input)
    requires p.at == i.at
    ensures var (t1, ok) := Placed(t, o, p, i);
            ok ==>
              && t.h.batches <= t1.h.batches && |t1.events| - |t.events| == |t1.h.batches| - |t.h.batches|
              && Cuts(CutBefore(false, o, t.pending, p), o, t.pending, p, t1.h.batches[|t.h.batches|..], t1.pending)
              && t.events <= t1.events && NoneInterrupted(t1.events, |t.events|)
              && t1.n.interruptions == t.n.interruptions
  {
    hide Flushed;
    if Keyed(p) {
      FlushCloses(t.(pending := t.pending + [p]), o, false, i.full);
    } else {
      if t.pending != [] { FlushCloses(t, o, false, i.window); }
      var (t1, ok) := if WindowOver(t, o, i.at) then Flushed(t, o, false, i.window) else (t, true);
      FlushCloses(t1.(pending := t1.pending + [p]), o, false, i.full);
    }
  }

  /** What a call that returns does, with `undone` telling whether it found a reversal. */
  ghost predicate Bounds(t: Timeline, o: Options, p: Pending, undone: bool, t1: Timeline) {
    var n := |t.events|;
    && t.h.batches <= t1.h.batches && t.events <= t1.events
    && |t1.events| - n == |t1.h.batches| - |t.h.batches|
    && Cuts(CutBefore(undone, o, t.pending, p), o, t.pending, p, t1.h.batches[|t.h.batches|..], t1.pending)
    && (undone ==> |t1.events| > n && t1.events[n].interrupted)
    && (undone ==> t1.events[n].reason == "return_to_recent_visual_state")
    && NoneInterrupted(t1.events, if undone then n + 1 else n)
    && t1.n.interruptions == t.n.interruptions + if undone then 1 else 0
  }

  lemma InterruptCuts(t: Timeline, o: Options, p: Pending, i: Input)
    requires p.at == i.at
    ensures var undone := o.preserving && t.pending != [] && IsTransientReversal(t, o, i.view.signature);
            var (t1, ok1) := Interrupted(t, o, i);
            var (t2, ok2) := Placed(t1, o, p, i);
            ok1 && ok2 ==> Bounds(t, o, p, undone, t2)
  {
    hide Flushed, Placed, IsTransientReversal;
    if t.pending != [] { FlushCloses(t, o, true, i.interrupt); }
    var undone := o.preserving && t.pending != [] && IsTransientReversal(t, o, i.view.signature);
    var (t1, ok1) := Interrupted(t, o, i);
    PlaceCuts(t1, o, p, i);
    var (t2, ok2) := Placed(t1, o, p, i);
    if ok1 && ok2 && undone {
      assert t1.h.batches == t.h.batches + [t.pending] && t1.pending == [];
      assert t2.h.batches[|t.h.batches|..] == [t.pending] + t2.h.batches[|t1.h.batches|..];
    }
  }

  lemma SampledBounds(t: Timeline, o: Options, s: Settings, i: Input)
    requires Captured(i.view)
    ensures var (g, d) := Observed(t.governor, s, i.view, i.cropRenders);
            var (t1, ok) := Sampled(t, o, s, i);
            ok ==>
              && d.Some? && t1.n.interruptions >= t.n.interruptions
              && Bounds(t, o, PendingOf(t, i, Counted(t.n, d.value), d.value),
                        o.preserving && t.pending != [] && IsTransientReversal(t, o, i.view.signature), t1)
  {
    hide Observed, IsTransientReversal, Flushed, Interrupted, Placed, CutBefore, Cuts, NoneInterrupted;
    var (g, d) := Observed(t.governor, s, i.view, i.cropRenders);
    if d.Some? {
      var n := Counted(t.n, d.value);
      var p := PendingOf(t, i, n, d.value);
      InterruptCuts(Accepted(t.(governor := g, n := n), p), o, p, i);
      SameSignatures(t, g, n, p, o, i.view.signature);
    }
  }

  lemma SameSignatures(t: Timeline, g: GovernorState, n: Counters, p: Pending, o: Options, c: Signature)
    ensures IsTransientReversal(Accepted(t.(governor := g, n := n), p), o, c) == IsTransientReversal(t, o, c)
  {
    hide SignatureDifference;
  }

  /**
   * Over every run: a call that returns delivers what waited as an interrupted event, alone and before its own sample,
   * exactly when its frame undoes the pulse of the last two returned samples. Otherwise the queue is closed before the
   * sample exactly when the window is over, and after it exactly for a keyframe or a full batch; nothing else cuts it.
   */
  lemma SampleCutsIff(o: Options, s: Settings, steps: seq<Step>, i: Input)
    requires (forall e :: e in steps ==> PassiveTimeline.Well(e)) && AllFull(steps)
    requires Captured(i.view) && Full(i.view.signature)
    ensures var t := Run(o, s, steps);
            var (t1, ok) := Sampled(t, o, s, i);
            var d := Observed(t.governor, s, i.view, i.cropRenders).1;
            ok ==> d.Some? && Bounds(t, o, PendingOf(t, i, Counted(t.n, d.value), d.value),
                                     Undone(o, Returned(o, s, steps), t.pending, i.view.signature), t1)
  {
    hide Sampled, Observed, Bounds, Returned, Run, Reverses;
    var t, r := Run(o, s, steps), Returned(o, s, steps);
    SampledBounds(t, o, s, i);
    if o.preserving {
      LastTwoAreKept(o, s, steps);
      ReturnedIsFull(o, s, steps);
      if |r| >= 2 { ReversalIff(t, o, i.view.signature); }
    }
  }

  // ---------------------------------------------------------------- what an event delivers

  predicate MadeBy(e: SceneEvent, k: nat, b: seq<Pending>, o: Options, interrupted: bool, rerender: Option<nat>) {
    b != [] && var r := Delivery(b, o, rerender); r.Some? && e == EventOf(k + 1, b, interrupted, r.value)
  }

  /** Event `k` was made from batch `k`, with some raster a flush delivered for it. */
  ghost predicate MadeFrom(e: SceneEvent, k: nat, b: seq<Pending>, o: Options) {
    exists interrupted, rerender :: MadeBy(e, k, b, o, interrupted, rerender)
  }

  ghost predicate AllMade(t: Timeline, o: Options) {
    && |t.events| == |t.h.batches|
    && forall k :: 0 <= k < |t.events| ==> MadeFrom(t.events[k], k, t.h.batches[k], o)
  }

  lemma FlushMakes(t: Timeline, o: Options, interrupted: bool, rerender: Option<nat>)
    requires t.pending != [] && AllMade(t, o)
    ensures AllMade(Flushed(t, o, interrupted, rerender).0, o)
  {
    hide Delivery, EventOf, MadeFrom;
    var r := Delivery(t.pending, o, rerender);
    if r.Some? { OneIsMade(|t.events|, t.pending, o, interrupted, rerender); }
  }

  lemma OneIsMade(k: nat, b: seq<Pending>, o: Options, interrupted: bool, rerender: Option<nat>)
    requires b != [] && Delivery(b, o, rerender).Some?
    ensures MadeFrom(EventOf(k + 1, b, interrupted, Delivery(b, o, rerender).value), k, b, o)
  {
    hide Delivery, EventOf;
    assert MadeBy(EventOf(k + 1, b, interrupted, Delivery(b, o, rerender).value), k, b, o, interrupted, rerender);
  }

  lemma SampleMakes(t: Timeline, o: Options, s: Settings, i: Input)
    requires Captured(i.view) && AllMade(t, o)
    ensures AllMade(Sampled(t, o, s, i).0, o)
  {
    hide Observed, IsTransientReversal, Flushed, Counted, Interrupted, Placed, AllMade;
    var (g, d) := Observed(t.governor, s, i.view, i.cropRenders);
    SameEventsMade(t, t.(governor := g), o);
    if d.Some? {
      var n := Counted(t.n, d.value);
      var p := PendingOf(t, i, n, d.value);
      var t0 := Accepted(t.(governor := g, n := n), p);
      SameEventsMade(t, t0, o);
      SameEventsMade(t0, Dropped(t0, p), o);
      InterruptMakes(t0, o, i);
      var t1 := Interrupted(t0, o, i).0;
      SameEventsMade(t1, Dropped(t1, p), o);
      PlaceMakes(t1, o, p, i);
      SameEventsMade(Placed(t1, o, p, i).0, Sampled(t, o, s, i).0, o);
    }
  }

  lemma SameEventsMade(t: Timeline, t': Timeline, o: Options)
    ensures t'.events == t.events && t'.h.batches == t.h.batches && AllMade(t, o) ==> AllMade(t', o)
  {
    hide MadeFrom;
  }

  lemma InterruptMakes(t: Timeline, o: Options, i: Input)
    requires AllMade(t, o)
    ensures AllMade(Interrupted(t, o, i).0, o)
  {
    hide Flushed, IsTransientReversal, MadeFrom;
    if t.pending != [] { FlushMakes(t, o, true, i.interrupt); }
  }

  lemma PlaceMakes(t: Timeline, o: Options, p: Pending, i: Input)
    requires AllMade(t, o)
    ensures AllMade(Placed(t, o, p, i).0, o)
  {
    hide Flushed, MadeFrom;
    if Keyed(p) {
      FlushMakes(t.(pending := t.pending + [p]), o, false, i.full);
    } else {
      if t.pending != [] { FlushMakes(t, o, false, i.window); }
      var (t1, ok) := if WindowOver(t, o, i.at) then Flushed(t, o, false, i.window) else (t, true);
      if ok { FlushMakes(t1.(pending := t1.pending + [p]), o, false, i.full); }
    }
  }

  lemma {:induction false} EveryEventIsMade(o: Options, s: Settings, steps: seq<Step>)
    requires forall e :: e in steps ==> PassiveTimeline.Well(e)
    ensures AllMade(Run(o, s, steps), o)
  {
    hide Sampled, Flushed, MadeFrom;
    if steps != [] {
      var init, e := steps[..|steps| - 1], steps[|steps| - 1];
      EveryEventIsMade(o, s, init);
      var t := Run(o, s, init);
      assert e in steps;
      if e.Sample? { SampleMakes(t, o, s, e.input); }
      if e.FlushNow? && t.pending != [] { FlushMakes(t, o, false, e.rerender); }
    }
  }

  /** The smallest region that holds all of the batch's takes at most the allowed share of the latest frame. */
  predicate RegionSuffices(b: seq<Pending>, o: Options)
    requires b != []
  {
    var v := Last(b).view;
    && (forall p :: p in b ==> !PassiveTimeline.Whole(p) && p.decision.crop.Some?) && v.width > 0 && v.height > 0
    && var c := UnionCrops(Crops(b), v.width, v.height);
       (c.width * c.height) as real <= o.maxRoi * (v.width * v.height) as real
  }

  /** Over every run, whatever an event delivers: a region exactly when one suffices, and then the union of its samples'
      regions or the only sample's own; otherwise the whole frame. Its scene epochs, disposition and reason follow. */
  lemma EventDelivers(o: Options, s: Settings, steps: seq<Step>, k: nat)
    requires forall e :: e in steps ==> PassiveTimeline.Well(e)
    requires k < |Run(o, s, steps).events| && k < |Run(o, s, steps).h.batches|
    ensures var e, b := Run(o, s, steps).events[k], Run(o, s, steps).h.batches[k];
            && b != [] && (e.crop.Some? <==> RegionSuffices(b, o))
            && (e.crop.Some? ==>
                  var v := Last(b).view;
                  e.crop.value == if |b| == 1 then b[0].decision.crop.value
                                  else UnionCrops(Crops(b), v.width, v.height))
            && e.epochStart == b[0].epoch && e.epochEnd == Last(b).epoch
            && (e.disposition == Keyframe <==> exists p :: p in b && Keyed(p))
            && (e.disposition == Roi <==> e.crop.Some?) && e.disposition != Skip
            && (!e.interrupted ==>
                  e.reason == if |b| == 1 then b[0].decision.reason else "coalesced_visual_burst")
  {
    hide Run;
    EveryEventIsMade(o, s, steps);
    var e, b := Run(o, s, steps).events[k], Run(o, s, steps).h.batches[k];
    assert MadeFrom(e, k, b, o);
    var interrupted, rerender :| MadeBy(e, k, b, o, interrupted, rerender);
    MadeDelivers(k, b, o, interrupted, rerender);
  }

  lemma MadeDelivers(k: nat, b: seq<Pending>, o: Options, interrupted: bool, rerender: Option<nat>)
    requires b != [] && Delivery(b, o, rerender).Some?
    ensures var e := EventOf(k + 1, b, interrupted, Delivery(b, o, rerender).value);
            && (e.crop.Some? <==> RegionSuffices(b, o))
            && (e.crop.Some? ==>
                  var v := Last(b).view;
                  e.crop.value == if |b| == 1 then b[0].decision.crop.value
                                  else UnionCrops(Crops(b), v.width, v.height))
            && (e.disposition == Roi <==> e.crop.Some?) && e.disposition != Skip
  {
    hide UnionCrops;
    assert Last(b) in b;
    if exists p :: p in b && PassiveTimeline.Whole(p) { assert !RegionSuffices(b, o); }
  }

  /** The hull is the smallest: each of its edges is one of some crop. */
  lemma {:induction false} HullIsTight(crops: seq<Crop>)
    requires crops != []
    ensures var e := Hull(crops);
            && (exists c :: c in crops && c.x == e.left) && (exists c :: c in crops && c.y == e.top)
            && (exists c :: c in crops && c.x + c.width == e.right)
            && (exists c :: c in crops && c.y + c.height == e.bottom)
  {
    var own := crops[|crops| - 1];
    assert own in crops;
    if |crops| > 1 {
      var init := crops[..|crops| - 1];
      HullIsTight(init);
      assert forall c :: c in init ==> c in crops;
    }
  }

  // ---------------------------------------------------------------- scene epochs

  /** The frame differs in nothing from the one before it. */
  ghost predicate Unchanged(g: GovernorState, s: Settings, v: View) {
    && g.previous.Some? && SameGeometry(g.previous.value, v) && g.forced == ""
    && MeanDistance(g.previous.value.signature, v.signature) == 0.0
    && forall block: nat :: block < Blocks(v.signature) ==>
         !Changed(g.previous.value.signature, v.signature, s.block, block)
  }

  /** A sample opens a new scene epoch exactly when it is not skipped and its frame is not an unchanged one that only a
      due keyframe delivers. */
  lemma EpochMovesIff(g: GovernorState, s: Settings, v: View, cropRenders: bool, n: Counters)
    requires Captured(v) && (g.sequence > 0 || g.previous.None?)
    ensures var o := Observed(g, s, v, cropRenders).1;
            o.Some? ==>
              var moved := o.value.disposition != Skip && !Unchanged(g, s, v);
              && Counted(n, o.value).epoch == n.epoch + (if moved then 1 else 0)
              && Counted(n, o.value).changes == n.changes + (if moved then 1 else 0)
  {
    hide CropOf, Exceeds, Changed, ScanBlocks, Distance, BlockDistance;
    if g.previous.Some? {
      var p := g.previous.value.signature;
      ScanTotal(p, v.signature, s.block, Blocks(v.signature));
      NothingChangedIff(p, v.signature, s.block, Blocks(v.signature));
      DistanceNotNegative(p, v.signature);
    }
  }

  lemma DistanceNotNegative(a: Signature, b: Signature)
    ensures MeanDistance(a, b) >= 0.0
  {
    hide Distance;
  }
}
