/** The passive observation scheduler: governed samples wait in a queue, and a flush coalesces the queue into one
    scene event. Rasterizing can fail at every point where the program awaits it. */
module PassiveTimeline {
  import opened Basics
  import opened Governor

  // ---------------------------------------------------------------- signatures side by side

  function ChannelDifference(left: seq<nat>, right: seq<nat>, n: nat): nat
    requires n <= |left| == |right|
  {
    if n == 0 then 0 else ChannelDifference(left, right, n - 1) + Abs(left[n - 1] as int - right[n - 1])
  }

  function SignatureDifference(left: Signature, right: Signature): Option<real> {
    if left.width != right.width || left.height != right.height || |left.samples| != |right.samples| then None
    else if |left.samples| == 0 then Some(0.0)
    else Some(ChannelDifference(left.samples, right.samples, |left.samples|) as real / (255.0 * |left.samples| as real))
  }

  method ComputeSignatureDifference(left: Signature, right: Signature) returns (d: Option<real>)
    ensures d == SignatureDifference(left, right)
  {
    if left.width != right.width || left.height != right.height || |left.samples| != |right.samples| { return None; }
    if |left.samples| == 0 { return Some(0.0); }
    var total := 0;
    for index := 0 to |left.samples|
      invariant total == ChannelDifference(left.samples, right.samples, index)
    {
      total := total + Abs(left.samples[index] as int - right.samples[index]);
    }
    d := Some(total as real / (255.0 * |left.samples| as real));
  }

  lemma LastBlock(left: Signature, right: Signature, n: nat)
    requires n + 3 <= |left.samples| == |right.samples| && n % 3 == 0
    ensures ChannelDifference(left.samples, right.samples, n + 3)
         == ChannelDifference(left.samples, right.samples, n) + BlockDistance(left, right, n / 3)
  {
    var a, b := left.samples, right.samples;
    assert n / 3 * 3 == n;
    assert ChannelDifference(a, b, n + 3) == ChannelDifference(a, b, n + 2) + Abs(a[n + 2] as int - b[n + 2]);
    assert ChannelDifference(a, b, n + 2) == ChannelDifference(a, b, n + 1) + Abs(a[n + 1] as int - b[n + 1]);
  }

  lemma {:induction false} ChannelsMakeBlocks(left: Signature, right: Signature, blocks: nat)
    requires blocks * 3 <= |left.samples| == |right.samples|
    ensures ChannelDifference(left.samples, right.samples, blocks * 3) == Distance(left, right, blocks)
  {
    hide BlockDistance;
    if blocks > 0 {
      ChannelsMakeBlocks(left, right, blocks - 1);
      LastBlock(left, right, (blocks - 1) * 3);
    }
  }

  /** On signatures of three channels a block, the scheduler and the governor measure the same distance. */
  lemma SchedulerAndGovernorAgree(left: Signature, right: Signature)
    requires left.width == right.width && left.height == right.height
    requires |left.samples| == |right.samples| == Blocks(right) * 3
    ensures SignatureDifference(left, right) == Some(MeanDistance(left, right))
  {
    var n := Blocks(right);
    ChannelsMakeBlocks(left, right, n);
    assert 255.0 * (n * 3) as real == 765.0 * n as real;
  }

  // ---------------------------------------------------------------- the queue and its events

  datatype Options = Options(window: int, most: nat, maxRoi: real, preserving: bool,
                             returnThreshold: real, pulseThreshold: real, reversalRatio: real)

  predicate Allowed(o: Options) { o.window >= 0 && o.most >= 1 }

  /** A sample waiting to be delivered. `before` is the frame the governor compared it with; only statements use it. */
  datatype Pending = Pending(at: int, index: nat, epoch: nat, view: View, decision: Observation, bytes: nat,
                             before: Option<View>)

  datatype Raster = Raster(crop: Option<Crop>, bytes: nat)

  datatype SceneEvent = SceneEvent(index: nat, epochStart: nat, epochEnd: nat, sampleStart: nat, sampleEnd: nat,
                                   count: nat, disposition: Disposition, reason: string, interrupted: bool,
                                   crop: Option<Crop>, bytes: nat)

  predicate Whole(p: Pending) { p.decision.disposition == Keyframe || p.decision.disposition == FullFrame }

  predicate Keyed(p: Pending) { p.decision.disposition == Keyframe }

  function Last(pending: seq<Pending>): Pending
    requires pending != []
  {
    pending[|pending| - 1]
  }

  /** What the governor promises of a sample it did not skip. */
  ghost predicate Sound(p: Pending, s: Settings) {
    && Captured(p.view) && p.decision.disposition != Skip
    && (p.decision.crop.Some? <==> p.decision.disposition == Roi)
    && (p.decision.disposition == Roi ==>
          && InsideFrame(p.decision.crop.value, p.view.width, p.view.height) && p.before.Some?
          && ShowsChanges(p.decision.crop.value, p.before.value, p.view, s))
  }

  datatype Edges = Edges(left: int, top: int, right: int, bottom: int)

  function Hull(crops: seq<Crop>): Edges
    requires crops != []
  {
    var c := crops[|crops| - 1];
    var own := Edges(c.x, c.y, c.x + c.width, c.y + c.height);
    if |crops| == 1 then own
    else
      var rest := Hull(crops[..|crops| - 1]);
      Edges(Min(rest.left, own.left), Min(rest.top, own.top), Max(rest.right, own.right), Max(rest.bottom, own.bottom))
  }

  function UnionCrops(crops: seq<Crop>, width: nat, height: nat): Crop
    requires crops != []
  {
    var e := Hull(crops);
    var x, y := Max(0, e.left), Max(0, e.top);
    Crop(x, y, Max(1, Min(width, e.right) - x), Max(1, Min(height, e.bottom) - y))
  }

  predicate Contains(outer: Crop, inner: Crop) {
    outer.x <= inner.x && outer.y <= inner.y
    && inner.x + inner.width <= outer.x + outer.width && inner.y + inner.height <= outer.y + outer.height
  }

  /** Not empty, and not before the frame's origin. */
  predicate Sizable(c: Crop) { 0 <= c.x && 0 <= c.y && c.width > 0 && c.height > 0 }

  lemma {:induction false} HullContains(crops: seq<Crop>)
    requires crops != [] && forall c :: c in crops ==> Sizable(c)
    ensures var e := Hull(crops); 0 <= e.left && 0 <= e.top
    ensures var e := Hull(crops);
            forall c :: c in crops ==>
              e.left <= c.x && e.top <= c.y && c.x + c.width <= e.right && c.y + c.height <= e.bottom
  {
    var c := crops[|crops| - 1];
    assert Sizable(c);
    if |crops| > 1 { HullContains(crops[..|crops| - 1]); }
  }

  /** When the latest crop lies inside the frame, so does the union, and it holds exactly the crops that do. */
  lemma UnionHoldsIff(crops: seq<Crop>, latest: Crop, width: nat, height: nat)
    requires latest in crops && InsideFrame(latest, width, height) && forall c :: c in crops ==> Sizable(c)
    ensures InsideFrame(UnionCrops(crops, width, height), width, height)
    ensures forall c :: c in crops ==>
              (Contains(UnionCrops(crops, width, height), c) <==> InsideFrame(c, width, height))
  {
    hide Hull;
    HullContains(crops);
  }

  function Crops(pending: seq<Pending>): (crops: seq<Crop>)
    requires forall p :: p in pending ==> p.decision.crop.Some?
    ensures |crops| == |pending| && forall i :: 0 <= i < |pending| ==> crops[i] == pending[i].decision.crop.value
  {
    seq(|pending|, i requires 0 <= i < |pending| => pending[i].decision.crop.value)
  }

  function Rendered(crop: Option<Crop>, rerender: Option<nat>): Option<Raster> {
    if rerender.None? then None else Some(Raster(crop, rerender.value))
  }

  /** What a flush delivers. (A union is at least one pixel, so on an empty frame its share exceeds every limit.)
      `rerender` is the size of a fresh raster of the latest frame, or nothing when that throws. */
  function Delivery(pending: seq<Pending>, o: Options, rerender: Option<nat>): Option<Raster>
    requires pending != []
  {
    var latest := Last(pending);
    if exists p :: p in pending && Whole(p) then
      if Whole(latest) then Some(Raster(None, latest.bytes)) else Rendered(None, rerender)
    else if exists p :: p in pending && p.decision.crop.None? then Rendered(None, rerender)
    else if latest.view.width == 0 || latest.view.height == 0 then Rendered(None, rerender)
    else
      var crop := UnionCrops(Crops(pending), latest.view.width, latest.view.height);
      if Exceeds(crop, latest.view.width, latest.view.height, o.maxRoi) then Rendered(None, rerender)
      else if |pending| == 1 then Some(Raster(latest.decision.crop, latest.bytes))
      else Rendered(Some(crop), rerender)
  }

  function EventOf(index: nat, pending: seq<Pending>, interrupted: bool, r: Raster): SceneEvent
    requires pending != []
  {
    var first, latest := pending[0], Last(pending);
    SceneEvent(index, first.epoch, latest.epoch, first.index, latest.index, |pending|,
               if exists p :: p in pending && Keyed(p) then Keyframe
               else if (exists p :: p in pending && p.decision.disposition == FullFrame) || r.crop.None?
                       then FullFrame else Roi,
               if interrupted then "return_to_recent_visual_state"
               else if |pending| > 1 then "coalesced_visual_burst" else latest.decision.reason,
               interrupted, r.crop, r.bytes)
  }

  // ---------------------------------------------------------------- the scheduler's state

  /** What was accepted, how it was batched, and how many samples a failed flush dropped. */
  datatype History = History(accepted: seq<Pending>, batches: seq<seq<Pending>>, lost: nat)

  datatype Counters = Counters(samples: nat, epoch: nat, changes: nat, keyframes: nat, fullFrames: nat, roiFrames: nat,
                               skipped: nat, coalesced: nat, interruptions: nat, bytes: nat)

  datatype Timeline = Timeline(governor: GovernorState, pending: seq<Pending>, events: seq<SceneEvent>, n: Counters,
                               previous: Option<Signature>, penultimate: Option<Signature>, h: History)

  const NOTHING := Counters(0, 0, 0, 0, 0, 0, 0, 0, 0, 0)

  const START := Timeline(FRESH, [], [], NOTHING, None, None, History([], [], 0))

  /** One call of `sample`: the clock, the frame, the size of the governed raster, and how each rasterization goes. */
  datatype Input = Input(at: int, view: View, bytes: nat, cropRenders: bool, signatureRenders: bool,
                         interrupt: Option<nat>, window: Option<nat>, full: Option<nat>)

  function Flushed(t: Timeline, o: Options, interrupted: bool, rerender: Option<nat>): (Timeline, bool)
    requires t.pending != []
  {
    var r := Delivery(t.pending, o, rerender);
    if r.None? then (t.(pending := [], h := t.h.(lost := t.h.lost + |t.pending|)), false)
    else
      (t.(pending := [], events := t.events + [EventOf(|t.events| + 1, t.pending, interrupted, r.value)],
          n := t.n.(coalesced := t.n.coalesced + (|t.pending| - 1), bytes := t.n.bytes + r.value.bytes),
          h := t.h.(batches := t.h.batches + [t.pending])), true)
  }

  function Counted(n: Counters, d: Observation): Counters {
    var m := n.(samples := n.samples + 1);
    var k := match d.disposition
      case Keyframe => m.(keyframes := m.keyframes + 1)
      case FullFrame => m.(fullFrames := m.fullFrames + 1)
      case Roi => m.(roiFrames := m.roiFrames + 1)
      case Skip => m.(skipped := m.skipped + 1);
    if d.sequence == 1 || (d.disposition != Skip && (d.score > 0.0 || d.changedFraction > 0.0))
    then k.(epoch := k.epoch + 1, changes := k.changes + 1) else k
  }

  function IsTransientReversal(t: Timeline, o: Options, current: Signature): bool {
    if t.previous.None? || t.penultimate.None? then false
    else
      var returned := SignatureDifference(current, t.penultimate.value);
      var pulse := SignatureDifference(t.previous.value, t.penultimate.value);
      && returned.Some? && pulse.Some?
      && pulse.value >= o.pulseThreshold && returned.value <= o.returnThreshold
      && returned.value <= pulse.value * o.reversalRatio
  }

  predicate WindowOver(t: Timeline, o: Options, at: int) { t.pending != [] && at - t.pending[0].at >= o.window }

  /** A sample that is not skipped and never reaches the queue is lost. */
  function Dropped(t: Timeline, p: Pending): Timeline {
    if p.decision.disposition == Skip then t else t.(h := t.h.(lost := t.h.lost + 1))
  }

  /** Queue the sample, with the flushes its disposition and the clock ask for. */
  function Placed(t: Timeline, o: Options, p: Pending, i: Input): (Timeline, bool) {
    if Keyed(p) then Flushed(t.(pending := t.pending + [p]), o, false, i.full)
    else
      var (t1, ok) := if WindowOver(t, o, i.at) then Flushed(t, o, false, i.window) else (t, true);
      if !ok then (Dropped(t1, p), false)
      else if p.decision.disposition == Skip then (t1, true)
      else
        var t2 := t1.(pending := t1.pending + [p]);
        if |t2.pending| >= o.most then Flushed(t2, o, false, i.full) else (t2, true)
  }

  function Interrupted(t: Timeline, o: Options, i: Input): (Timeline, bool) {
    if o.preserving && IsTransientReversal(t, o, i.view.signature) && t.pending != [] then
      var (t1, ok) := Flushed(t, o, true, i.interrupt);
      (if ok then t1.(n := t1.n.(interruptions := t1.n.interruptions + 1)) else t1, ok)
    else (t, true)
  }

  /** The sample as the queue would hold it. */
  function PendingOf(t: Timeline, i: Input, n: Counters, d: Observation): Pending {
    Pending(i.at, n.samples, n.epoch, i.view, d, i.bytes, t.governor.previous)
  }

  function Accepted(t: Timeline, p: Pending): Timeline {
    if p.decision.disposition == Skip then t else t.(h := t.h.(accepted := t.h.accepted + [p]))
  }

  function Sampled(t: Timeline, o: Options, s: Settings, i: Input): (Timeline, bool)
    requires Captured(i.view)
  {
    var (g, d) := Observed(t.governor, s, i.view, i.cropRenders);
    if d.None? then (t.(governor := g), false)
    else
      var n := Counted(t.n, d.value);
      var p := PendingOf(t, i, n, d.value);
      var t0 := Accepted(t.(governor := g, n := n), p);
      if o.preserving && !i.signatureRenders then (Dropped(t0, p), false)
      else
        var (t1, ok1) := Interrupted(t0, o, i);
        if !ok1 then (Dropped(t1, p), false)
        else
          var (t2, ok2) := Placed(t1, o, p, i);
          if !ok2 then (t2, false)
          else if o.preserving then (t2.(penultimate := t2.previous, previous := Some(i.view.signature)), true)
          else (t2, true)
  }

  class PassiveObservationScheduler {
    const governor: ObservationGovernor
    const options: Options
    var pending: seq<Pending>
    var events: seq<SceneEvent>
    var n: Counters
    var previous: Option<Signature>
    var penultimate: Option<Signature>
    ghost var history: History

    constructor (governor: ObservationGovernor, options: Options)
      requires Allowed(options)
      ensures this.governor == governor && this.options == options
      ensures State() == START.(governor := governor.State())
    {
      this.governor, this.options := governor, options;
      pending, events, previous, penultimate := [], [], None, None;
      n := NOTHING;
      history := History([], [], 0);
    }

    ghost function State(): Timeline
      reads this, governor
    {
      Timeline(governor.State(), pending, events, n, previous, penultimate, history)
    }

    method Reset()
      modifies this, governor
      ensures State() == START
    {
      governor.Reset();
      pending, events, previous, penultimate := [], [], None, None;
      n := NOTHING;
      history := History([], [], 0);
    }

    method FlushPending(interrupted: bool, rerender: Option<nat>) returns (ok: bool)
      requires pending != []
      modifies this
      ensures (State(), ok) == Flushed(old(State()), options, interrupted, rerender)
    {
      hide Delivery, EventOf;
      var batch := pending;
      pending := [];
      var r := Delivery(batch, options, rerender);
      if r.None? {
        history := history.(lost := history.lost + |batch|);
        return false;
      }
      events := events + [EventOf(|events| + 1, batch, interrupted, r.value)];
      n := n.(coalesced := n.coalesced + (|batch| - 1), bytes := n.bytes + r.value.bytes);
      history := history.(batches := history.batches + [batch]);
      ok := true;
    }

    method Flush(rerender: Option<nat>) returns (ok: bool)
      modifies this
      ensures (State(), ok) == FlushedIfAny(old(State()), options, rerender)
    {
      if pending == [] { return true; }
      ok := FlushPending(false, rerender);
    }

    method DetectsReversal(current: Signature) returns (r: bool)
      ensures r == IsTransientReversal(State(), options, current)
    {
      if previous.None? || penultimate.None? { return false; }
      var returned := ComputeSignatureDifference(current, penultimate.value);
      var pulse := ComputeSignatureDifference(previous.value, penultimate.value);
      r := returned.Some? && pulse.Some?
        && pulse.value >= options.pulseThreshold && returned.value <= options.returnThreshold
        && returned.value <= pulse.value * options.reversalRatio;
    }

    /** The counters for one governed frame. */
    method Count(d: Observation)
      modifies `n
      ensures n == Counted(old(n), d)
    {
      n := n.(samples := n.samples + 1);
      match d.disposition {
        case Keyframe => n := n.(keyframes := n.keyframes + 1);
        case FullFrame => n := n.(fullFrames := n.fullFrames + 1);
        case Roi => n := n.(roiFrames := n.roiFrames + 1);
        case Skip => n := n.(skipped := n.skipped + 1);
      }
      if d.sequence == 1 || (d.disposition != Skip && (d.score > 0.0 || d.changedFraction > 0.0)) {
        n := n.(epoch := n.epoch + 1, changes := n.changes + 1);
      }
    }

    ghost method Accept(p: Pending)
      modifies this`history
      ensures State() == Accepted(old(State()), p)
    {
      history := Accepted(State(), p).h;
    }

    ghost method Drop(p: Pending)
      modifies this`history
      ensures State() == Dropped(old(State()), p)
    {
      history := Dropped(State(), p).h;
    }

    method Place(p: Pending, i: Input) returns (ok: bool)
      modifies this
      ensures (State(), ok) == Placed(old(State()), options, p, i)
    {
      hide Flushed;
      if p.decision.disposition == Keyframe {
        pending := pending + [p];
        ok := FlushPending(false, i.full);
        return;
      }
      ok := true;
      if pending != [] && i.at - pending[0].at >= options.window {
        ok := FlushPending(false, i.window);
        if !ok {
          Drop(p);
          return;
        }
      }
      if p.decision.disposition != Skip {
        pending := pending + [p];
        if |pending| >= options.most { ok := FlushPending(false, i.full); }
      }
    }

    method Sample(i: Input) returns (ok: bool)
      requires Captured(i.view)
      modifies this, governor
      ensures (State(), ok) == Sampled(old(State()), options, governor.settings, i)
    {
      hide Observed, Counted, Placed, Flushed, IsTransientReversal, Accepted, Dropped;
      var was := governor.previous;
      var d := governor.Observe(i.view, i.cropRenders);
      if d.None? { return false; }
      Count(d.value);
      var p := Pending(i.at, n.samples, n.epoch, i.view, d.value, i.bytes, was);
      Accept(p);
      if options.preserving && !i.signatureRenders {
        Drop(p);
        return false;
      }
      if options.preserving {
        var reversal := DetectsReversal(i.view.signature);
        if reversal && pending != [] {
          ok := FlushPending(true, i.interrupt);
          if !ok {
            Drop(p);
            return;
          }
          n := n.(interruptions := n.interruptions + 1);
        }
      }
      ok := Place(p, i);
      if ok && options.preserving {
        penultimate := previous;
        previous := Some(i.view.signature);
      }
    }
  }

  // ---------------------------------------------------------------- what every run keeps

  function Flatten(batches: seq<seq<Pending>>): seq<Pending> {
    if batches == [] then [] else Flatten(batches[..|batches| - 1]) + batches[|batches| - 1]
  }

  function Counts(events: seq<SceneEvent>): nat {
    if events == [] then 0 else Counts(events[..|events| - 1]) + events[|events| - 1].count
  }

  function Coalesced(events: seq<SceneEvent>): int {
    if events == [] then 0 else Coalesced(events[..|events| - 1]) + (events[|events| - 1].count - 1)
  }

  function Bytes(events: seq<SceneEvent>): nat {
    if events == [] then 0 else Bytes(events[..|events| - 1]) + events[|events| - 1].bytes
  }

  /** What a flush may find in the queue: a keyframe only at the end, and every other sample within the window. */
  ghost predicate Batch(b: seq<Pending>, o: Options, s: Settings) {
    && 1 <= |b| <= o.most
    && (forall p :: p in b ==> Sound(p, s))
    && (forall i, j :: 0 <= i < j < |b| ==> b[i].index < b[j].index)
    && (forall k :: 0 < k < |b| && !Keyed(b[k]) ==> b[k].at - b[0].at < o.window)
    && (forall k :: 0 <= k < |b| - 1 ==> !Keyed(b[k]))
  }

  ghost predicate Uniform(b: seq<Pending>)
    requires b != []
  {
    Keyed(Last(b)) || forall p :: p in b ==> SameGeometry(p.view, Last(b).view)
  }

  /** The sample's region lies inside the frame the event is rendered from. */
  predicate Fits(p: Pending, latest: Pending)
    requires p.decision.crop.Some?
  {
    InsideFrame(p.decision.crop.value, latest.view.width, latest.view.height)
  }

  /** A region delivered for a batch holds the region of exactly those samples whose region fits the latest frame. */
  ghost predicate Covers(crop: Option<Crop>, b: seq<Pending>)
    requires b != []
  {
    crop.Some? ==> forall p :: p in b ==>
      p.decision.crop.Some? && (Contains(crop.value, p.decision.crop.value) <==> Fits(p, Last(b)))
  }

  ghost predicate Reports(e: SceneEvent, k: nat, b: seq<Pending>)
    requires b != []
  {
    && e.index == k + 1 && e.count == |b|
    && e.sampleStart == b[0].index && e.sampleEnd == Last(b).index && e.epochStart == b[0].epoch
    && e.epochEnd == Last(b).epoch
    && (e.disposition == Keyframe <==> Keyed(Last(b)))
    && Covers(e.crop, b)
  }

  ghost predicate Filed(t: Timeline, o: Options, s: Settings) {
    && |t.events| == |t.h.batches|
    && (forall k :: 0 <= k < |t.events| ==> Batch(t.h.batches[k], o, s) && Reports(t.events[k], k, t.h.batches[k]))
    && (forall j, k :: 0 <= j < k < |t.events| ==> t.events[j].sampleEnd < t.events[k].sampleStart)
    && (forall k :: 0 <= k < |t.events| ==> t.events[k].sampleEnd <= t.n.samples)
  }

  ghost predicate Waiting(t: Timeline, o: Options, s: Settings) {
    t.pending != [] ==>
      && Batch(t.pending, o, s) && Last(t.pending).index <= t.n.samples
      && forall k :: 0 <= k < |t.events| ==> t.events[k].sampleEnd < t.pending[0].index
  }

  predicate Short(t: Timeline, o: Options) {
    |t.pending| < o.most && forall p :: p in t.pending ==> !Keyed(p)
  }

  /** Nothing goes missing but what `lost` counts, and what is left keeps its order. `hand` is the sample taken in and
      not yet queued. */
  ghost predicate Ledger(t: Timeline, hand: seq<Pending>) {
    && |t.h.accepted| == t.n.keyframes + t.n.fullFrames + t.n.roiFrames
    && t.n.samples == |t.h.accepted| + t.n.skipped
    && Counts(t.events) + |t.pending| + |hand| + t.h.lost == |t.h.accepted|
    && Subsequence(Flatten(t.h.batches) + t.pending + hand, t.h.accepted)
    && t.n.coalesced == Coalesced(t.events) && t.n.bytes == Bytes(t.events)
  }

  ghost predicate AllUniform(t: Timeline, o: Options, s: Settings)
    requires Filed(t, o, s)
  {
    t.h.lost == 0 ==> forall b :: b in t.h.batches ==> b != [] && Uniform(b)
  }

  ghost predicate QueueMatches(t: Timeline, frame: Option<View>) {
    t.h.lost == 0 && t.pending != [] ==> frame.Some? && forall p :: p in t.pending ==> SameGeometry(p.view, frame.value)
  }

  /** Between calls. */
  ghost predicate Kept(t: Timeline, o: Options, s: Settings) {
    Filed(t, o, s) && Waiting(t, o, s) && Short(t, o) && Ledger(t, []) && AllUniform(t, o, s)
    && QueueMatches(t, t.governor.previous)
  }

  lemma DeliveryCoversIff(b: seq<Pending>, o: Options, s: Settings, rerender: Option<nat>)
    requires Batch(b, o, s)
    ensures var r := Delivery(b, o, rerender); r.Some? ==> Covers(r.value.crop, b)
  {
    hide UnionCrops, Exceeds, ShowsChanges;
    var latest := Last(b);
    assert latest in b;
    if forall p :: p in b ==> !Whole(p) && p.decision.crop.Some? {
      var crops := Crops(b);
      forall c | c in crops
        ensures Sizable(c)
      {
        var k :| 0 <= k < |b| && crops[k] == c;
        assert b[k] in b && Sound(b[k], s);
      }
      assert crops[|b| - 1] == latest.decision.crop.value && Sound(latest, s);
      UnionHoldsIff(crops, latest.decision.crop.value, latest.view.width, latest.view.height);
      forall p | p in b
        ensures p.decision.crop.value in crops
      {
        var k :| 0 <= k < |b| && b[k] == p;
        assert crops[k] == p.decision.crop.value;
      }
    }
  }

  lemma EventReports(b: seq<Pending>, o: Options, s: Settings, k: nat, interrupted: bool, rerender: Option<nat>)
    requires Batch(b, o, s)
    ensures var r := Delivery(b, o, rerender); r.Some? ==> Reports(EventOf(k + 1, b, interrupted, r.value), k, b)
  {
    hide Delivery, Sound, Contains;
    var r := Delivery(b, o, rerender);
    assert Keyed(Last(b)) <==> exists p :: p in b && Keyed(p) by {
      assert Last(b) in b;
      if p :| p in b && Keyed(p) { var k :| 0 <= k < |b| && b[k] == p; assert k == |b| - 1; }
    }
    DeliveryCoversIff(b, o, s, rerender);
  }

  lemma FlushFiles(t: Timeline, o: Options, s: Settings, interrupted: bool, rerender: Option<nat>)
    requires t.pending != [] && Filed(t, o, s) && Waiting(t, o, s)
    ensures Filed(Flushed(t, o, interrupted, rerender).0, o, s)
  {
    hide Delivery, Batch, Reports, EventOf;
    assert t.pending[0].index <= Last(t.pending).index by { BatchGrows(t.pending, o, s); }
    EventReports(t.pending, o, s, |t.events|, interrupted, rerender);
    var r := Delivery(t.pending, o, rerender);
    if r.Some? { EndsAreEnds(|t.events| + 1, t.pending, interrupted, r.value); }
  }

  predicate EndsOf(e: SceneEvent, b: seq<Pending>)
    requires b != []
  {
    e.sampleStart == b[0].index && e.sampleEnd == Last(b).index && e.count == |b|
  }

  lemma EndsAreEnds(index: nat, b: seq<Pending>, interrupted: bool, r: Raster)
    requires b != []
    ensures EndsOf(EventOf(index, b, interrupted, r), b) && EventOf(index, b, interrupted, r).bytes == r.bytes
  {
  }

  lemma BatchGrows(b: seq<Pending>, o: Options, s: Settings)
    requires Batch(b, o, s)
    ensures b != [] && b[0].index <= Last(b).index
  {
  }

  lemma OneEventMore(events: seq<SceneEvent>, e: SceneEvent, batches: seq<seq<Pending>>, b: seq<Pending>)
    ensures Counts(events + [e]) == Counts(events) + e.count && Bytes(events + [e]) == Bytes(events) + e.bytes
    ensures Coalesced(events + [e]) == Coalesced(events) + (e.count - 1)
    ensures Flatten(batches + [b]) == Flatten(batches) + b
  {
    assert (events + [e])[..|events|] == events && (batches + [b])[..|batches|] == batches;
  }

  lemma FlushBalances(t: Timeline, o: Options, interrupted: bool, rerender: Option<nat>, hand: seq<Pending>)
    requires t.pending != [] && Ledger(t, hand)
    ensures var (t1, ok) := Flushed(t, o, interrupted, rerender);
            && Ledger(t1, hand) && t1.pending == [] && t1.n.samples == t.n.samples && t1.governor == t.governor
            && t1.h.accepted == t.h.accepted
            && (if ok then t1.h.lost == t.h.lost && t1.h.batches == t.h.batches + [t.pending]
                else t1.h.lost == t.h.lost + |t.pending| && t1.h.batches == t.h.batches && t1.events == t.events)
  {
    hide Delivery, EventOf, Flatten, Counts, Coalesced, Bytes, Subsequence;
    var r := Delivery(t.pending, o, rerender);
    if r.Some? {
      var e := EventOf(|t.events| + 1, t.pending, interrupted, r.value);
      EndsAreEnds(|t.events| + 1, t.pending, interrupted, r.value);
      OneEventMore(t.events, e, t.h.batches, t.pending);
      assert Flatten(t.h.batches) + t.pending + hand == Flatten(t.h.batches + [t.pending]) + [] + hand;
    } else {
      SubsequenceDrop(Flatten(t.h.batches), t.pending, hand, t.h.accepted);
      assert Flatten(t.h.batches) + [] + hand == Flatten(t.h.batches) + hand;
    }
  }

  lemma FlushKeeps(t: Timeline, o: Options, s: Settings, interrupted: bool, rerender: Option<nat>, hand: seq<Pending>)
    requires t.pending != [] && Filed(t, o, s) && Waiting(t, o, s) && Ledger(t, hand) && AllUniform(t, o, s)
    requires t.h.lost == 0 ==> Uniform(t.pending)
    ensures var (t1, ok) := Flushed(t, o, interrupted, rerender);
            && Filed(t1, o, s) && Ledger(t1, hand) && t1.pending == [] && AllUniform(t1, o, s)
            && t1.n.samples == t.n.samples && t1.governor == t.governor && t1.h.lost >= t.h.lost
            && (!ok ==> t1.h.lost > 0)
            && (forall k :: 0 <= k < |t1.events| ==> t1.events[k].sampleEnd <= t.n.samples)
  {
    hide Flushed, Ledger, Batch, Reports, Uniform, Last;
    FlushFiles(t, o, s, interrupted, rerender);
    FlushBalances(t, o, interrupted, rerender, hand);
  }

  /** `p` is newer than everything filed or waiting. */
  ghost predicate Newest(t: Timeline, p: Pending) {
    && p.index == t.n.samples
    && (forall k :: 0 <= k < |t.events| ==> t.events[k].sampleEnd < p.index)
    && (forall q :: q in t.pending ==> q.index < p.index)
  }

  function Hand(p: Pending): seq<Pending> { if p.decision.disposition == Skip then [] else [p] }

  lemma PushKeeps(t: Timeline, o: Options, s: Settings, p: Pending)
    requires Allowed(o) && Waiting(t, o, s) && Short(t, o) && Sound(p, s) && Newest(t, p)
    requires Keyed(p) || !WindowOver(t, o, p.at)
    ensures Waiting(t.(pending := t.pending + [p]), o, s)
  {
    hide Sound;
    var b := t.pending + [p];
    assert forall k :: 0 <= k < |t.pending| ==> t.pending[k] in t.pending;
    assert Batch(b, o, s);
  }

  lemma PushBalances(t: Timeline, p: Pending)
    requires Ledger(t, [p])
    ensures Ledger(t.(pending := t.pending + [p]), [])
  {
    hide Subsequence;
    assert Flatten(t.h.batches) + t.pending + [p] == Flatten(t.h.batches) + (t.pending + [p]) + [];
  }

  lemma DropBalances(t: Timeline, p: Pending)
    requires Ledger(t, Hand(p))
    ensures Ledger(Dropped(t, p), [])
  {
    hide Subsequence;
    var kept := Flatten(t.h.batches) + t.pending;
    assert kept + Hand(p) + [] == kept + Hand(p) && kept + [] == kept;
    SubsequenceDrop(kept, Hand(p), [], t.h.accepted);
  }

  /** The queue, with the new sample at its end, is uniform: only a keyframe can follow a change of geometry. */
  ghost predicate Follows(t: Timeline, p: Pending) {
    !Keyed(p) && t.h.lost == 0 ==> forall q :: q in t.pending ==> SameGeometry(q.view, p.view)
  }

  /** The state a sample is queued in. */
  ghost predicate Ready(t: Timeline, o: Options, s: Settings, p: Pending) {
    && Allowed(o) && Filed(t, o, s) && Waiting(t, o, s) && Short(t, o) && AllUniform(t, o, s)
    && Ledger(t, Hand(p)) && Newest(t, p) && Follows(t, p) && (p.decision.disposition != Skip ==> Sound(p, s))
  }

  ghost predicate Settled(t: Timeline, o: Options, s: Settings, frame: View) {
    Filed(t, o, s) && Waiting(t, o, s) && Short(t, o) && Ledger(t, []) && AllUniform(t, o, s)
    && QueueMatches(t, Some(frame))
  }

  lemma QueueIsUniform(t: Timeline, p: Pending)
    requires t.pending != [] && t.h.lost == 0 && Follows(t, p) && !Keyed(p)
    ensures Uniform(t.pending) && Uniform(t.pending + [p])
  {
    assert Last(t.pending) in t.pending;
  }

  /** The flush before queueing, which the coalescing window asks for. */
  lemma WindowFlushKeeps(t: Timeline, o: Options, s: Settings, p: Pending, interrupted: bool, rerender: Option<nat>)
    requires Ready(t, o, s, p) && t.pending != []
    requires !Keyed(p) || t.h.lost > 0 || Uniform(t.pending)
    ensures var (t1, ok) := Flushed(t, o, interrupted, rerender);
            && Ready(t1, o, s, p) && t1.pending == [] && t1.governor == t.governor && t1.h.lost >= t.h.lost
            && (!ok ==> t1.h.lost > 0)
  {
    hide Flushed, Ledger, Filed, AllUniform, Sound, Batch, Reports, Uniform;
    if !Keyed(p) && t.h.lost == 0 { QueueIsUniform(t, p); }
    FlushKeeps(t, o, s, interrupted, rerender, Hand(p));
    EventsAreOld(t, o, s, interrupted, rerender, p);
  }

  lemma EventsAreOld(t: Timeline, o: Options, s: Settings, interrupted: bool, rerender: Option<nat>, p: Pending)
    requires t.pending != [] && Waiting(t, o, s) && Newest(t, p)
    ensures Newest(Flushed(t, o, interrupted, rerender).0, p)
  {
    hide Delivery, Batch;
    assert Last(t.pending) in t.pending;
  }

  /** Queueing the sample, and the flush that may follow it. */
  lemma PushFlushKeeps(t: Timeline, o: Options, s: Settings, p: Pending, rerender: Option<nat>)
    requires Ready(t, o, s, p) && p.decision.disposition != Skip && (Keyed(p) || !WindowOver(t, o, p.at))
    ensures var t2 := t.(pending := t.pending + [p]);
            var (t3, ok) := if Keyed(p) || |t2.pending| >= o.most then Flushed(t2, o, false, rerender) else (t2, true);
            Settled(t3, o, s, p.view) && t3.governor == t.governor && t3.h.lost >= t.h.lost && (!ok ==> t3.h.lost > 0)
  {
    hide Flushed, Ledger, Sound, Batch, Reports;
    var t2 := t.(pending := t.pending + [p]);
    PushKeeps(t, o, s, p);
    PushBalances(t, p);
    if Keyed(p) || |t2.pending| >= o.most {
      assert t.h.lost == 0 ==> Uniform(t2.pending);
      FlushKeeps(t2, o, s, false, rerender, []);
    }
  }

  lemma PlaceKeeps(t: Timeline, o: Options, s: Settings, p: Pending, i: Input)
    requires Ready(t, o, s, p) && p.at == i.at
    ensures var (t1, ok) := Placed(t, o, p, i);
            Settled(t1, o, s, p.view) && t1.governor == t.governor && t1.h.lost >= t.h.lost && (!ok ==> t1.h.lost > 0)
  {
    hide Flushed, Ledger, Sound, Batch, Reports;
    if Keyed(p) {
      PushFlushKeeps(t, o, s, p, i.full);
    } else {
      if WindowOver(t, o, i.at) { WindowFlushKeeps(t, o, s, p, false, i.window); }
      var (t1, ok) := if WindowOver(t, o, i.at) then Flushed(t, o, false, i.window) else (t, true);
      if !ok { DropBalances(t1, p); }
      else if p.decision.disposition != Skip { PushFlushKeeps(t1, o, s, p, i.full); }
    }
  }

  /** What the governor hands over is sound, and only a keyframe follows a change of geometry. */
  lemma ObservedIsSound(t: Timeline, s: Settings, i: Input)
    requires Checked(s) && Captured(i.view)
    ensures var (g, d) := Observed(t.governor, s, i.view, i.cropRenders);
            && g.previous == Some(i.view)
            && (d.Some? ==>
                  var p := PendingOf(t, i, Counted(t.n, d.value), d.value);
                  && (p.decision.disposition != Skip ==> Sound(p, s))
                  && (Keyed(p) || (t.governor.previous.Some? && SameGeometry(t.governor.previous.value, i.view))))
            && (d.None? ==> t.governor.previous.Some? && SameGeometry(t.governor.previous.value, i.view))
  {
    hide DifferenceOf, CropOf, Exceeds, ShowsChanges, InsideFrame, Counted;
    RegionShowsEveryChange(t.governor, s, i.view, i.cropRenders);
  }

  lemma CountsOne(n: Counters, d: Observation)
    ensures Counted(n, d).samples == n.samples + 1
  {
  }

  lemma TakenIn(t: Timeline, o: Options, s: Settings, i: Input)
    requires Allowed(o) && Checked(s) && Captured(i.view) && Kept(t, o, s)
             && Observed(t.governor, s, i.view, i.cropRenders).1.Some?
    ensures var (g, d) := Observed(t.governor, s, i.view, i.cropRenders);
            var n := Counted(t.n, d.value);
            var p := PendingOf(t, i, n, d.value);
            var t0 := Accepted(t.(governor := g, n := n), p);
            Ready(t0, o, s, p) && (t0.h.lost == 0 && t0.pending != [] ==> Uniform(t0.pending))
  {
    hide Observed, Sound, Reports, Ledger, Counted;
    ObservedIsSound(t, s, i);
    CountsOne(t.n, Observed(t.governor, s, i.view, i.cropRenders).1.value);
    var (g, d) := Observed(t.governor, s, i.view, i.cropRenders);
    var n := Counted(t.n, d.value);
    var p := PendingOf(t, i, n, d.value);
    if t.pending != [] { assert Last(t.pending) in t.pending; }
    assert forall q :: q in t.pending ==> q.index <= t.n.samples by {
      forall q | q in t.pending ensures q.index <= t.n.samples {
        var k :| 0 <= k < |t.pending| && t.pending[k] == q;
      }
    }
    assert Ledger(Accepted(t.(governor := g, n := n), p), Hand(p)) by { TakenInBalances(t, g, n, d.value, p); }
  }

  lemma TakenInBalances(t: Timeline, g: GovernorState, n: Counters, d: Observation, p: Pending)
    requires Ledger(t, []) && n == Counted(t.n, d) && p.decision == d
    ensures Ledger(Accepted(t.(governor := g, n := n), p), Hand(p))
  {
    hide Flatten, Counts, Coalesced, Bytes, Subsequence;
    var kept := Flatten(t.h.batches) + t.pending;
    assert kept + [] == kept;
    SubsequencePush(kept, t.h.accepted, p);
  }

  lemma InterruptKeeps(t: Timeline, o: Options, s: Settings, p: Pending, i: Input)
    requires Ready(t, o, s, p) && (t.h.lost == 0 && t.pending != [] ==> Uniform(t.pending))
    ensures var (t1, ok) := Interrupted(t, o, i);
            && Ready(t1, o, s, p) && t1.governor == t.governor && t1.h.lost >= t.h.lost
            && (!ok ==> t1.h.lost > 0 && t1.pending == [])
  {
    hide Flushed, IsTransientReversal, Batch, Reports, Sound, Subsequence, Flatten, Counts, Coalesced, Bytes;
    if t.pending != [] { WindowFlushKeeps(t, o, s, p, true, i.interrupt); }
  }

  lemma DroppedKeeps(t: Timeline, o: Options, s: Settings, p: Pending)
    requires Ready(t, o, s, p)
    ensures Settled(Dropped(t, p), o, s, p.view) && Dropped(t, p).governor == t.governor
  {
    hide Sound, Reports, Batch, Ledger;
    DropBalances(t, p);
  }

  /** The state outside the queue and the books does not matter. */
  lemma SettledIsKept(t: Timeline, o: Options, s: Settings, frame: View, g: GovernorState, a: Option<Signature>,
                      b: Option<Signature>)
    requires Settled(t, o, s, frame) && g.previous == Some(frame)
    ensures Kept(t.(governor := g, previous := a, penultimate := b), o, s)
  {
    hide Sound, Reports, Batch;
  }

  /** One call of `sample` keeps everything, however its rasterizations go. */
  lemma SampleKeeps(t: Timeline, o: Options, s: Settings, i: Input)
    requires Allowed(o) && Checked(s) && Captured(i.view) && Kept(t, o, s)
    ensures Kept(Sampled(t, o, s, i).0, o, s)
  {
    hide Observed, Interrupted, Placed, Dropped, Accepted, Counted, Kept, Ready, Settled;
    ObservedIsSound(t, s, i);
    var (g, d) := Observed(t.governor, s, i.view, i.cropRenders);
    if d.None? {
      UnrecordedKeeps(t, o, s, g, i.view);
    } else {
      var n := Counted(t.n, d.value);
      var p := PendingOf(t, i, n, d.value);
      var t0 := Accepted(t.(governor := g, n := n), p);
      TakenIn(t, o, s, i);
      DroppedKeeps(t0, o, s, p);
      InterruptKeeps(t0, o, s, p, i);
      var (t1, ok1) := Interrupted(t0, o, i);
      DroppedKeeps(t1, o, s, p);
      PlaceKeeps(t1, o, s, p, i);
      var t' := if o.preserving && !i.signatureRenders then Dropped(t0, p) else if !ok1 then Dropped(t1, p)
                else Placed(t1, o, p, i).0;
      assert Settled(t', o, s, i.view) && t'.governor == g by { AcceptedGovernor(t.(governor := g, n := n), p); }
      var r := Sampled(t, o, s, i).0;
      SettledIsKept(t', o, s, i.view, g, r.previous, r.penultimate);
    }
  }

  lemma AcceptedGovernor(t: Timeline, p: Pending)
    ensures Accepted(t, p).governor == t.governor
  {
  }

  lemma UnrecordedKeeps(t: Timeline, o: Options, s: Settings, g: GovernorState, v: View)
    requires Kept(t, o, s) && g.previous == Some(v)
    requires t.governor.previous.Some? && SameGeometry(t.governor.previous.value, v)
    ensures Kept(t.(governor := g), o, s)
  {
    hide Sound, Reports, Batch;
  }

  // ---------------------------------------------------------------- runs

  datatype Step = Sample(input: Input) | FlushNow(rerender: Option<nat>) | Force(reason: string) | StartOver

  predicate Well(e: Step) { e.Sample? ==> Captured(e.input.view) }

  /** `flush` does nothing on an empty queue. */
  function FlushedIfAny(t: Timeline, o: Options, rerender: Option<nat>): (Timeline, bool) {
    if t.pending == [] then (t, true) else Flushed(t, o, false, rerender)
  }

  /** A step, and whether the call returned. */
  function Take(t: Timeline, o: Options, s: Settings, e: Step): (Timeline, bool)
    requires Well(e)
  {
    match e
    case Sample(i) => Sampled(t, o, s, i)
    case FlushNow(rerender) => FlushedIfAny(t, o, rerender)
    case Force(reason) => (t.(governor := t.governor.(forced := reason)), true)
    case StartOver => (START, true)
  }

  function Run(o: Options, s: Settings, steps: seq<Step>): Timeline
    requires forall e :: e in steps ==> Well(e)
  {
    if steps == [] then START else Take(Run(o, s, steps[..|steps| - 1]), o, s, steps[|steps| - 1]).0
  }

  lemma FlushNowKeeps(t: Timeline, o: Options, s: Settings, rerender: Option<nat>)
    requires Allowed(o) && Kept(t, o, s)
    ensures Kept(FlushedIfAny(t, o, rerender).0, o, s)
  {
    hide Sound, Reports, Batch, Flushed;
    if t.pending != [] {
      assert Last(t.pending) in t.pending;
      FlushKeeps(t, o, s, false, rerender, []);
    }
  }

  lemma StartIsKept(o: Options, s: Settings)
    requires Allowed(o)
    ensures Kept(START, o, s)
  {
    hide Sound, Reports, Batch, Uniform, SameGeometry, Keyed, FRESH;
    assert START.events == [] && START.pending == [] && START.h.batches == [] && START.h.accepted == [];
    assert Flatten([]) + [] + [] == [];
  }

  lemma ForceKeeps(t: Timeline, o: Options, s: Settings, reason: string)
    requires Kept(t, o, s)
    ensures Kept(t.(governor := t.governor.(forced := reason)), o, s)
  {
    hide Sound, Reports, Batch;
  }

  lemma TakeKeeps(t: Timeline, o: Options, s: Settings, e: Step)
    requires Allowed(o) && Checked(s) && Well(e) && Kept(t, o, s)
    ensures Kept(Take(t, o, s, e).0, o, s)
  {
    hide Kept, Sampled, FlushedIfAny;
    StartIsKept(o, s);
    if e.Sample? { SampleKeeps(t, o, s, e.input); }
    else if e.FlushNow? { FlushNowKeeps(t, o, s, e.rerender); }
    else if e.Force? { ForceKeeps(t, o, s, e.reason); }
  }

  lemma {:induction false} EveryRunKeeps(o: Options, s: Settings, steps: seq<Step>)
    requires Allowed(o) && Checked(s) && forall e :: e in steps ==> Well(e)
    ensures Kept(Run(o, s, steps), o, s)
  {
    hide Kept, Take;
    if steps == [] {
      StartIsKept(o, s);
    } else {
      EveryRunKeeps(o, s, steps[..|steps| - 1]);
      TakeKeeps(Run(o, s, steps[..|steps| - 1]), o, s, steps[|steps| - 1]);
    }
  }

  // ---------------------------------------------------------------- what a run delivers

  /**
   * Conservation: every sample that is not skipped sits in exactly one event, or waits, or is counted lost. Laid end to
   * end, events and queue hold samples in the order they were accepted, whatever was lost; and they hold all of them
   * exactly when nothing was.
   */
  lemma SamplesAreConserved(o: Options, s: Settings, steps: seq<Step>)
    requires Allowed(o) && Checked(s) && forall e :: e in steps ==> Well(e)
    ensures var t := Run(o, s, steps);
            && Counts(t.events) + |t.pending| + t.h.lost == t.n.samples - t.n.skipped == |t.h.accepted|
            && Subsequence(Flatten(t.h.batches) + t.pending, t.h.accepted)
            && (t.h.lost == 0 <==> Flatten(t.h.batches) + t.pending == t.h.accepted)
            && t.n.coalesced == Coalesced(t.events) && t.n.bytes == Bytes(t.events) && |t.pending| < o.most
  {
    EveryRunKeeps(o, s, steps);
    hide Run, Filed, Waiting, AllUniform, QueueMatches, Subsequence;
    var t := Run(o, s, steps);
    CountsAreLengths(t, o, s);
    assert Flatten(t.h.batches) + t.pending + [] == Flatten(t.h.batches) + t.pending;
    SubsequenceAsLong(Flatten(t.h.batches) + t.pending, t.h.accepted);
  }

  lemma CountsAreLengths(t: Timeline, o: Options, s: Settings)
    requires Filed(t, o, s)
    ensures Counts(t.events) == |Flatten(t.h.batches)|
  {
    hide Batch, Sound, Covers, Uniform;
    CountsOfPrefix(t, o, s, |t.events|);
    assert t.events[..|t.events|] == t.events && t.h.batches[..|t.events|] == t.h.batches;
  }

  lemma {:induction false} CountsOfPrefix(t: Timeline, o: Options, s: Settings, n: nat)
    requires Filed(t, o, s) && n <= |t.events|
    ensures Counts(t.events[..n]) == |Flatten(t.h.batches[..n])|
  {
    hide Batch, Sound, Covers, Uniform;
    if n > 0 {
      CountsOfPrefix(t, o, s, n - 1);
      assert t.events[..n][..n - 1] == t.events[..n - 1] && t.h.batches[..n][..n - 1] == t.h.batches[..n - 1];
    }
  }

  /** Event `k` reports batch `k`: bounded in size, in order, and within the window unless a keyframe closes it. */
  lemma EventsReportTheirSamples(o: Options, s: Settings, steps: seq<Step>)
    requires Allowed(o) && Checked(s) && forall e :: e in steps ==> Well(e)
    ensures var t := Run(o, s, steps);
            && |t.events| == |t.h.batches|
            && (forall k :: 0 <= k < |t.events| ==> Reported(t.events[k], k, t.h.batches[k], o))
            && (forall j, k :: 0 <= j < k < |t.events| ==> t.events[j].sampleEnd < t.events[k].sampleStart)
  {
    EveryRunKeeps(o, s, steps);
    hide Run, Reports, Batch, Waiting, Uniform, Ledger, Keyed;
    var t := Run(o, s, steps);
    forall k | 0 <= k < |t.events|
      ensures Reported(t.events[k], k, t.h.batches[k], o)
    {
      BatchIsReported(t.events[k], k, t.h.batches[k], o, s);
    }
  }

  /** What event `k` says of the samples coalesced into it. */
  ghost predicate Reported(e: SceneEvent, k: nat, b: seq<Pending>, o: Options) {
    && 1 <= e.count == |b| <= o.most && e.index == k + 1
    && e.sampleStart == b[0].index <= e.sampleEnd == Last(b).index
    && (e.disposition == Keyframe <==> exists p :: p in b && Keyed(p))
    && (e.disposition != Keyframe ==> forall j :: 0 < j < |b| ==> b[j].at - b[0].at < o.window)
  }

  lemma BatchIsReported(e: SceneEvent, k: nat, b: seq<Pending>, o: Options, s: Settings)
    requires Batch(b, o, s) && Reports(e, k, b)
    ensures Reported(e, k, b, o)
  {
    hide Sound, Covers, Uniform, Keyed;
    KeyframeIsLast(b, o, s);
  }

  lemma KeyframeIsLast(b: seq<Pending>, o: Options, s: Settings)
    requires Batch(b, o, s)
    ensures b != [] && (Keyed(Last(b)) <==> exists p :: p in b && Keyed(p))
  {
    hide Sound, Keyed;
    assert Last(b) in b;
    if p :| p in b && Keyed(p) { var k :| 0 <= k < |b| && b[k] == p; assert k == |b| - 1; }
  }

  lemma WiderShowsToo(outer: Crop, inner: Crop, before: View, v: View, s: Settings)
    requires Contains(outer, inner) && ShowsChanges(inner, before, v, s)
    ensures ShowsChanges(outer, before, v, s)
  {
    hide Changed, SampledAt;
    forall block: nat | block < Blocks(v.signature) && Changed(before.signature, v.signature, s.block, block)
      ensures Shows(outer, v, block)
    {
      WiderShowsBlock(outer, inner, v, block);
    }
  }

  lemma WiderShowsBlock(outer: Crop, inner: Crop, v: View, block: nat)
    requires Contains(outer, inner) && block < Blocks(v.signature)
    ensures Shows(inner, v, block) ==> Shows(outer, v, block)
  {
    hide SampledAt, CentreWithin;
    RowOfBlock(v.signature, block);
    var gridX, gridY := block % v.signature.width, block / v.signature.width;
    WiderCentre(outer.x, inner.x, inner.x + inner.width, outer.x + outer.width, gridX, v.signature.width, v.width);
    WiderCentre(outer.y, inner.y, inner.y + inner.height, outer.y + outer.height, gridY, v.signature.height, v.height);
  }

  /** The samples of a batch came from frames of one size. */
  predicate OneSize(b: seq<Pending>) { forall p, q :: p in b && q in b ==> SameGeometry(p.view, q.view) }

  /** The event's region, if it has one, shows every block that changed in the sample. */
  ghost predicate ShowsChangesOf(e: SceneEvent, p: Pending, s: Settings) {
    e.crop.Some? ==> p.before.Some? && ShowsChanges(e.crop.value, p.before.value, p.view, s)
  }

  lemma FittingShows(e: SceneEvent, b: seq<Pending>, o: Options, s: Settings, p: Pending)
    requires Batch(b, o, s) && p in b && Covers(e.crop, b)
    ensures e.crop.Some? ==> p.decision.crop.Some? && (Fits(p, Last(b)) ==> ShowsChangesOf(e, p, s))
  {
    hide ShowsChanges, InsideFrame;
    assert Sound(p, s);
    if e.crop.Some? && Fits(p, Last(b)) {
      WiderShowsToo(e.crop.value, p.decision.crop.value, p.before.value, p.view, s);
    }
  }

  /** End-to-end coverage, over every run: the region of an event holds the region governed for one of its samples if
      and only if that region fits the frame the event is rendered from, and then it shows every block that changed in
      the sample; an event without a region shows its whole frame. */
  lemma EventsCoverIff(o: Options, s: Settings, steps: seq<Step>, k: nat, p: Pending)
    requires Allowed(o) && Checked(s) && forall e :: e in steps ==> Well(e)
    requires var t := Run(o, s, steps); k < |t.events| && k < |t.h.batches| && p in t.h.batches[k]
    ensures var t := Run(o, s, steps);
            t.events[k].crop.Some? ==>
              && p.decision.crop.Some?
              && (Contains(t.events[k].crop.value, p.decision.crop.value) <==> Fits(p, Last(t.h.batches[k])))
              && (Fits(p, Last(t.h.batches[k])) ==> ShowsChangesOf(t.events[k], p, s))
  {
    EveryRunKeeps(o, s, steps);
    hide Run, Batch, Contains, Fits, ShowsChangesOf, Ledger, Waiting;
    var t := Run(o, s, steps);
    assert Reports(t.events[k], k, t.h.batches[k]);
    FittingShows(t.events[k], t.h.batches[k], o, s, p);
  }

  lemma SameSizeFits(b: seq<Pending>, o: Options, s: Settings, p: Pending)
    requires Batch(b, o, s) && p in b && p.decision.crop.Some? && SameGeometry(p.view, Last(b).view)
    ensures Fits(p, Last(b))
  {
    hide ShowsChanges;
    assert Sound(p, s);
  }

  /** Hence an event shows every change of its samples when they came from frames of one size. */
  lemma EventsShowEveryChange(o: Options, s: Settings, steps: seq<Step>, k: nat, p: Pending)
    requires Allowed(o) && Checked(s) && forall e :: e in steps ==> Well(e)
    requires var t := Run(o, s, steps); k < |t.events| && k < |t.h.batches| && p in t.h.batches[k]
    ensures var t := Run(o, s, steps); OneSize(t.h.batches[k]) ==> ShowsChangesOf(t.events[k], p, s)
  {
    EveryRunKeeps(o, s, steps);
    EventsCoverIff(o, s, steps, k, p);
    hide Run, Batch, Contains, Fits, Ledger, Waiting;
    var t := Run(o, s, steps);
    var b := t.h.batches[k];
    assert Reports(t.events[k], k, b) && Last(b) in b;
    if OneSize(b) && t.events[k].crop.Some? { SameSizeFits(b, o, s, p); }
  }

  /** So it does while nothing was lost. */
  lemma NothingLostShowsEveryChange(o: Options, s: Settings, steps: seq<Step>, k: nat, p: Pending)
    requires Allowed(o) && Checked(s) && forall e :: e in steps ==> Well(e)
    requires var t := Run(o, s, steps); k < |t.events| && k < |t.h.batches| && p in t.h.batches[k]
    ensures var t := Run(o, s, steps); t.h.lost == 0 ==> ShowsChangesOf(t.events[k], p, s)
  {
    EveryRunKeeps(o, s, steps);
    EventsCoverIff(o, s, steps, k, p);
    hide Run, Batch, Covers, Contains, Fits, Uniform, Ledger, Waiting, Short, QueueMatches, ShowsChangesOf;
    var t := Run(o, s, steps);
    var b := t.h.batches[k];
    assert Reports(t.events[k], k, b);
    WithoutRegionShowsAll(t.events[k], p, s);
    if t.h.lost == 0 && t.events[k].crop.Some? { UniformFits(b, o, s, p, t.events[k].crop); }
  }

  lemma WithoutRegionShowsAll(e: SceneEvent, p: Pending, s: Settings)
    ensures e.crop.None? ==> ShowsChangesOf(e, p, s)
  {
  }

  lemma UniformFits(b: seq<Pending>, o: Options, s: Settings, p: Pending, crop: Option<Crop>)
    requires Batch(b, o, s) && Uniform(b) && p in b && Covers(crop, b) && crop.Some?
    ensures Fits(p, Last(b))
  {
    hide ShowsChanges, Contains, Fits;
    assert Last(b) in b && Sound(Last(b), s);
    SameSizeFits(b, o, s, p);
  }

  // ---------------------------------------------------------------- runs of one frame size

  predicate SizeOf(e: Step, width: nat, height: nat) {
    e.Sample? ==> e.input.view.width == width && e.input.view.height == height
  }

  ghost predicate AllSized(b: seq<Pending>, width: nat, height: nat) {
    forall p :: p in b ==> Captured(p.view) && p.view.width == width && p.view.height == height
  }

  ghost predicate TimelineSized(t: Timeline, width: nat, height: nat) {
    AllSized(t.pending, width, height) && forall b :: b in t.h.batches ==> AllSized(b, width, height)
  }

  lemma FlushStaysSized(t: Timeline, o: Options, interrupted: bool, rerender: Option<nat>, width: nat, height: nat)
    requires t.pending != [] && TimelineSized(t, width, height)
    ensures TimelineSized(Flushed(t, o, interrupted, rerender).0, width, height)
  {
    hide Delivery, EventOf, AllSized;
    EmptyIsSized(width, height);
  }

  lemma EmptyIsSized(width: nat, height: nat)
    ensures AllSized([], width, height)
  {
  }

  lemma PlaceStaysSized(t: Timeline, o: Options, p: Pending, i: Input, width: nat, height: nat)
    requires TimelineSized(t, width, height) && AllSized([p], width, height)
    ensures TimelineSized(Placed(t, o, p, i).0, width, height)
  {
    hide Flushed;
    assert p in [p];
    if t.pending != [] { FlushStaysSized(t, o, false, i.window, width, height); }
    var t1 := if WindowOver(t, o, i.at) then Flushed(t, o, false, i.window).0 else t;
    FlushStaysSized(t.(pending := t.pending + [p]), o, false, i.full, width, height);
    FlushStaysSized(t1.(pending := t1.pending + [p]), o, false, i.full, width, height);
  }

  lemma SampleStaysSized(t: Timeline, o: Options, s: Settings, i: Input)
    requires Captured(i.view) && TimelineSized(t, i.view.width, i.view.height)
    ensures TimelineSized(Sampled(t, o, s, i).0, i.view.width, i.view.height)
  {
    hide Observed, IsTransientReversal, Flushed, Placed, Counted;
    var (g, d) := Observed(t.governor, s, i.view, i.cropRenders);
    if d.Some? {
      var n := Counted(t.n, d.value);
      var p := PendingOf(t, i, n, d.value);
      var t0 := Accepted(t.(governor := g, n := n), p);
      if t0.pending != [] { FlushStaysSized(t0, o, true, i.interrupt, i.view.width, i.view.height); }
      PlaceStaysSized(Interrupted(t0, o, i).0, o, p, i, i.view.width, i.view.height);
    }
  }

  lemma {:induction false} RunStaysSized(o: Options, s: Settings, steps: seq<Step>, width: nat, height: nat)
    requires forall e :: e in steps ==> Well(e) && SizeOf(e, width, height)
    ensures TimelineSized(Run(o, s, steps), width, height)
  {
    hide Sampled, Flushed;
    if steps != [] {
      var t, e := Run(o, s, steps[..|steps| - 1]), steps[|steps| - 1];
      RunStaysSized(o, s, steps[..|steps| - 1], width, height);
      assert Well(e) && SizeOf(e, width, height);
      if e.Sample? { SampleStaysSized(t, o, s, e.input); }
      else if e.FlushNow? && t.pending != [] { FlushStaysSized(t, o, false, e.rerender, width, height); }
    }
  }

  /** In a run whose frames all have one size every event shows every change, whatever rasterization fails. */
  lemma OneSizeShowsEveryChange(o: Options, s: Settings, steps: seq<Step>, width: nat, height: nat, k: nat, p: Pending)
    requires Allowed(o) && Checked(s) && forall e :: e in steps ==> Well(e) && SizeOf(e, width, height)
    requires var t := Run(o, s, steps); k < |t.events| && k < |t.h.batches| && p in t.h.batches[k]
    ensures ShowsChangesOf(Run(o, s, steps).events[k], p, s)
  {
    hide Run, ShowsChangesOf;
    RunStaysSized(o, s, steps, width, height);
    assert AllSized(Run(o, s, steps).h.batches[k], width, height);
    EventsShowEveryChange(o, s, steps, k, p);
  }

  /** What a call loses: nothing when it returns, and nothing when it throws before the frame is taken in. */
  lemma SampleLosesIff(t: Timeline, o: Options, s: Settings, i: Input)
    requires Captured(i.view)
    ensures var (t1, ok) := Sampled(t, o, s, i);
            && t1.h.lost >= t.h.lost
            && (t1.h.lost == t.h.lost <==>
                 ok || t1.n.samples == t.n.samples
                 || (o.preserving && !i.signatureRenders
                     && Observed(t.governor, s, i.view, i.cropRenders).1.value.disposition == Skip))
  {
    hide Observed, IsTransientReversal, Flushed, Interrupted, Placed;
    var (g, d) := Observed(t.governor, s, i.view, i.cropRenders);
    if d.Some? {
      var n := Counted(t.n, d.value);
      CountsOne(t.n, d.value);
      var p := PendingOf(t, i, n, d.value);
      var t0 := Accepted(t.(governor := g, n := n), p);
      InterruptLosesIff(t0, o, i);
      PlaceLosesIff(Interrupted(t0, o, i).0, o, p, i);
    }
  }

  lemma FlushedLoses(t: Timeline, o: Options, interrupted: bool, rerender: Option<nat>)
    requires t.pending != []
    ensures var (t1, ok) := Flushed(t, o, interrupted, rerender);
            t1.pending == [] && t1.n.samples == t.n.samples && t1.h.lost == t.h.lost + if ok then 0 else |t.pending|
  {
    hide Delivery, EventOf;
  }

  lemma InterruptLosesIff(t: Timeline, o: Options, i: Input)
    ensures var (t1, ok) := Interrupted(t, o, i);
            t1.n.samples == t.n.samples && t1.h.lost >= t.h.lost && (t1.h.lost == t.h.lost <==> ok)
  {
    hide Flushed, IsTransientReversal;
    if t.pending != [] { FlushedLoses(t, o, true, i.interrupt); }
  }

  lemma PlaceLosesIff(t: Timeline, o: Options, p: Pending, i: Input)
    ensures var (t1, ok) := Placed(t, o, p, i);
            t1.n.samples == t.n.samples && t1.h.lost >= t.h.lost && (t1.h.lost == t.h.lost <==> ok)
  {
    hide Flushed;
    if t.pending != [] { FlushedLoses(t, o, false, i.window); }
    var t1 := if WindowOver(t, o, i.at) then Flushed(t, o, false, i.window).0 else t;
    FlushedLoses(t.(pending := t.pending + [p]), o, false, i.full);
    FlushedLoses(t1.(pending := t1.pending + [p]), o, false, i.full);
  }

  lemma FlushLosesIff(t: Timeline, o: Options, rerender: Option<nat>)
    ensures var (t1, ok) := FlushedIfAny(t, o, rerender);
            t1.h.lost == t.h.lost + (if ok then 0 else |t.pending|) && (!ok ==> t.pending != [])
  {
    hide Delivery, EventOf;
  }

  predicate AllReturn(o: Options, s: Settings, steps: seq<Step>)
    requires forall e :: e in steps ==> Well(e)
  {
    steps == []
    || (AllReturn(o, s, steps[..|steps| - 1]) && Take(Run(o, s, steps[..|steps| - 1]), o, s, steps[|steps| - 1]).1)
  }

  lemma {:induction false} ReturningCallsLoseNothing(o: Options, s: Settings, steps: seq<Step>)
    requires Allowed(o) && Checked(s) && (forall e :: e in steps ==> Well(e))
    ensures AllReturn(o, s, steps) ==> Run(o, s, steps).h.lost == 0
  {
    hide Sampled, FlushedIfAny;
    if steps != [] && AllReturn(o, s, steps) {
      var t, e := Run(o, s, steps[..|steps| - 1]), steps[|steps| - 1];
      ReturningCallsLoseNothing(o, s, steps[..|steps| - 1]);
      assert Well(e);
      if e.Sample? { SampleLosesIff(t, o, s, e.input); }
      else if e.FlushNow? { FlushLosesIff(t, o, e.rerender); }
    }
  }

  // ---------------------------------------------------------------- a stale queue

  function Wide(level: nat): View { View(Signature(2, 1, [0, 0, 0, level, level, level]), 2, 1) }

  function FrameAt(at: int, v: View, signatureRenders: bool): Input {
    Input(at, v, 10, true, signatureRenders, None, None, None)
  }

  const PATIENT := Options(10, 8, 1.0, true, 0.1, 0.1, 0.1)

  const G1 := GovernorState(Some(Wide(0)), 1, 1, "")
  const G2 := GovernorState(Some(Wide(255)), 2, 1, "")
  const G3 := GovernorState(Some(Flat(0)), 3, 3, "")
  const G4 := GovernorState(Some(Flat(255)), 4, 3, "")

  const FIRST := Observation(1, Keyframe, "initial_keyframe", 0.0, 1.0, None)
  const LOCAL := Observation(2, Roi, "localized_perceptual_change", 0.5, 0.5, Some(Crop(1, 0, 1, 1)))
  const RESIZED := Observation(3, Keyframe, "surface_geometry_changed", 1.0, 1.0, None)
  const SMALL := Observation(4, Roi, "localized_perceptual_change", 1.0, 1.0, Some(Crop(0, 0, 1, 1)))

  lemma WideBlocks()
    ensures BlockDistance(Wide(0).signature, Wide(255).signature, 0) == 0
    ensures BlockDistance(Wide(0).signature, Wide(255).signature, 1) == 765
  {
  }

  lemma WideScan()
    ensures ScanBlocks(Wide(0).signature, Wide(255).signature, 0.1, 2) == Scan(765, 1, Bounds(1, 0, 1, 0))
  {
    hide BlockDistance;
    var a, b := Wide(0).signature, Wide(255).signature;
    WideBlocks();
    assert ScanBlocks(a, b, 0.1, 1) == Scan(0, 0, Bounds(2, 1, -1, -1));
  }

  lemma WideChange()
    ensures DifferenceOf(Wide(0).signature, Wide(255).signature, 0.1)
            == Difference(0.5, 1, 0.5, Some(Bounds(1, 0, 1, 0)))
  {
    hide ScanBlocks;
    WideScan();
  }

  lemma TwoCells()
    ensures LowEdge(1, 2, 2) == 1 && LowEdge(0, 1, 1) == 0 && SampledAt(1, 2, 2) == 1
  {
  }

  lemma TwoCeilings()
    ensures HighEdge(1, 2, 2) == 2 && HighEdge(0, 1, 1) == 1
  {
    assert CeilDiv(4, 2) == 2 && CeilDiv(1, 1) == 1;
  }

  lemma WideEdges()
    ensures Axis(1, 1, 2, 2, 0, 1) == (1, 2) && Axis(0, 0, 1, 1, 0, 1) == (0, 1)
  {
    hide LowEdge, HighEdge;
    TwoCells();
    TwoCeilings();
  }

  lemma WideCrop()
    ensures CropOf(Bounds(1, 0, 1, 0), Wide(255), PLAIN) == Crop(1, 0, 1, 1) && !Exceeds(Crop(1, 0, 1, 1), 2, 1, 1.0)
  {
    hide Axis;
    WideEdges();
  }

  lemma FourObservations()
    ensures Observed(FRESH, PLAIN, Wide(0), true) == (G1, Some(FIRST))
    ensures Observed(G1, PLAIN, Wide(255), true) == (G2, Some(LOCAL))
    ensures Observed(G2, PLAIN, Flat(0), true) == (G3, Some(RESIZED))
    ensures Observed(G3, PLAIN, Flat(255), true) == (G4, Some(SMALL))
  {
    hide DifferenceOf, CropOf, Exceeds;
    WideChange();
    WideCrop();
    FlatFrames();
    FlatCrop();
  }

  const OLD_SIZE := Pending(1, 2, 2, Wide(255), LOCAL, 10, Some(Wide(0)))
  const NEW_SIZE := Pending(3, 4, 4, Flat(255), SMALL, 10, Some(Flat(0)))
  const KEYED := Pending(0, 1, 1, Wide(0), FIRST, 10, None)
  const LOST_KEY := Pending(2, 3, 3, Flat(0), RESIZED, 10, Some(Wide(255)))

  /** What the sample that waits is, apart from the history. */
  function Count4(samples: nat, epoch: nat, keyframes: nat, roiFrames: nat, coalesced: nat, bytes: nat): Counters {
    Counters(samples, epoch, epoch, keyframes, 0, roiFrames, 0, coalesced, 0, bytes)
  }

  const FIRST_EVENT := SceneEvent(1, 1, 1, 1, 1, 1, Keyframe, "initial_keyframe", false, None, 10)
  const STALE_EVENT := SceneEvent(2, 2, 4, 2, 4, 2, Roi, "coalesced_visual_burst", false, Some(Crop(0, 0, 1, 1)), 7)

  const T1 := Timeline(G1, [], [FIRST_EVENT], Count4(1, 1, 1, 0, 0, 10), Some(Wide(0).signature), None,
                       History([KEYED], [[KEYED]], 0))
  const T2 := Timeline(G2, [OLD_SIZE], [FIRST_EVENT], Count4(2, 2, 1, 1, 0, 10), Some(Wide(255).signature),
                       Some(Wide(0).signature), History([KEYED, OLD_SIZE], [[KEYED]], 0))
  const T3 := Timeline(G3, [OLD_SIZE], [FIRST_EVENT], Count4(3, 3, 2, 1, 0, 10), Some(Wide(255).signature),
                       Some(Wide(0).signature), History([KEYED, OLD_SIZE, LOST_KEY], [[KEYED]], 1))
  const T4 := Timeline(G4, [OLD_SIZE, NEW_SIZE], [FIRST_EVENT], Count4(4, 4, 2, 2, 0, 10), Some(Flat(255).signature),
                       Some(Wide(255).signature), History([KEYED, OLD_SIZE, LOST_KEY, NEW_SIZE], [[KEYED]], 1))
  const T5 := Timeline(G4, [], [FIRST_EVENT, STALE_EVENT], Count4(4, 4, 2, 2, 1, 17), Some(Flat(255).signature),
                       Some(Wide(255).signature),
                       History([KEYED, OLD_SIZE, LOST_KEY, NEW_SIZE], [[KEYED], [OLD_SIZE, NEW_SIZE]], 1))

  lemma FirstSample()
    ensures Sampled(START, PATIENT, PLAIN, FrameAt(0, Wide(0), true)) == (T1, true)
  {
    hide Observed;
    FourObservations();
    assert [] + [KEYED] == [KEYED] && KEYED in [KEYED] && Last([KEYED]) == KEYED;
    assert START.pending == [] && START.events == [] && START.h == History([], [], 0) && START.governor == FRESH;
    assert [] + [FIRST_EVENT] == [FIRST_EVENT] && [] + [[KEYED]] == [[KEYED]];
  }

  lemma SecondSample()
    ensures Sampled(T1, PATIENT, PLAIN, FrameAt(1, Wide(255), true)) == (T2, true)
  {
    hide Observed;
    FourObservations();
    assert [] + [OLD_SIZE] == [OLD_SIZE] && [KEYED] + [OLD_SIZE] == [KEYED, OLD_SIZE];
  }

  lemma ThirdSample()
    ensures Sampled(T2, PATIENT, PLAIN, FrameAt(2, Flat(0), false)) == (T3, false)
  {
    hide Observed;
    FourObservations();
    assert [KEYED, OLD_SIZE] + [LOST_KEY] == [KEYED, OLD_SIZE, LOST_KEY];
  }

  lemma FourthSample()
    ensures Sampled(T3, PATIENT, PLAIN, FrameAt(3, Flat(255), true)) == (T4, true)
  {
    hide Observed;
    FourObservations();
    assert [OLD_SIZE] + [NEW_SIZE] == [OLD_SIZE, NEW_SIZE];
    assert [KEYED, OLD_SIZE, LOST_KEY] + [NEW_SIZE] == [KEYED, OLD_SIZE, LOST_KEY, NEW_SIZE];
  }

  lemma StaleFlush()
    ensures FlushedIfAny(T4, PATIENT, Some(7)) == (T5, true)
  {
    var b := [OLD_SIZE, NEW_SIZE];
    assert Crops(b) == [Crop(1, 0, 1, 1), Crop(0, 0, 1, 1)] && Crops(b)[..1] == [Crop(1, 0, 1, 1)];
    assert UnionCrops(Crops(b), 1, 1) == Crop(0, 0, 1, 1);
    assert forall p :: p in b ==> p == OLD_SIZE || p == NEW_SIZE;
    assert [FIRST_EVENT] + [STALE_EVENT] == [FIRST_EVENT, STALE_EVENT] && [[KEYED]] + [b] == [[KEYED], b];
  }

  lemma RunOn(o: Options, s: Settings, steps: seq<Step>, e: Step, t: Timeline, next: Timeline)
    requires Well(e) && forall x :: x in steps ==> Well(x)
    ensures Run(o, s, steps) == t && Take(t, o, s, e).0 == next ==> Run(o, s, steps + [e]) == next
  {
    hide Take;
    assert (steps + [e])[..|steps|] == steps;
  }

  function StaleSteps(): seq<Step> {
    [Sample(FrameAt(0, Wide(0), true)), Sample(FrameAt(1, Wide(255), true)), Sample(FrameAt(2, Flat(0), false)),
     Sample(FrameAt(3, Flat(255), true)), FlushNow(Some(7))]
  }

  lemma StaleRun()
    ensures (forall e :: e in StaleSteps() ==> Well(e)) && Run(PATIENT, PLAIN, StaleSteps()) == T5
  {
    hide Sampled, FlushedIfAny, T1, T2, T3, T4, T5, PATIENT, PLAIN;
    var a, b := Sample(FrameAt(0, Wide(0), true)), Sample(FrameAt(1, Wide(255), true));
    var c, d, f := Sample(FrameAt(2, Flat(0), false)), Sample(FrameAt(3, Flat(255), true)), FlushNow(Some(7));
    FirstSample();
    SecondSample();
    ThirdSample();
    FourthSample();
    StaleFlush();
    assert [] + [a] == [a] && [a] + [b] == [a, b] && [a, b] + [c] == [a, b, c] && [a, b, c] + [d] == [a, b, c, d];
    RunOn(PATIENT, PLAIN, [], a, START, T1);
    RunOn(PATIENT, PLAIN, [a], b, T1, T2);
    RunOn(PATIENT, PLAIN, [a, b], c, T2, T3);
    RunOn(PATIENT, PLAIN, [a, b, c], d, T3, T4);
    RunOn(PATIENT, PLAIN, [a, b, c, d], f, T4, T5);
    assert [a, b, c, d] + [f] == StaleSteps();
  }

  /** Outside those runs coverage can fail: a keyframe for a new frame size is lost when its boundary raster fails, an
      older and larger sample stays in the queue, and the union clipped to the new size drops the block it changed. */
  lemma StaleQueueLosesCoverage()
    ensures Allowed(PATIENT) && Checked(PLAIN) && forall e :: e in StaleSteps() ==> Well(e)
    ensures var t := Run(PATIENT, PLAIN, StaleSteps());
            && |t.events| == |t.h.batches| == 2 && t.h.lost == 1
            && OLD_SIZE in t.h.batches[1] && !ShowsChangesOf(t.events[1], OLD_SIZE, PLAIN)
  {
    hide Run, ShowsChangesOf;
    StaleRun();
    DroppedBlock();
  }

  lemma ShownIsSampledInside(c: Crop, v: View, block: nat)
    requires block < Blocks(v.signature) && Shows(c, v, block)
    ensures v.signature.width > 0 && SampledAt(block % v.signature.width, v.signature.width, v.width) < c.x + c.width
  {
    hide SampledAt, CentreWithin;
    RowOfBlock(v.signature, block);
  }

  lemma DroppedBlock()
    ensures !ShowsChangesOf(STALE_EVENT, OLD_SIZE, PLAIN)
  {
    hide BlockDistance, SampledAt, Shows;
    WideBlocks();
    TwoCells();
    assert Changed(Wide(0).signature, Wide(255).signature, 0.1, 1) && 1 % 2 == 1;
    if Shows(Crop(0, 0, 1, 1), Wide(255), 1) { ShownIsSampledInside(Crop(0, 0, 1, 1), Wide(255), 1); }
  }
}
