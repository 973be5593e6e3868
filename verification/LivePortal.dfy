/** Live portals: a least-recently-used budget of live surfaces, and the coordinator that mounts, moves and unmounts
    provider surfaces whose hosts may fail. Calls do not overlap, and unmounting an evicted surface succeeds. */
module LivePortal {
  import opened Basics

  // ---------------------------------------------------------------- the budget

  /** The list a use moves `id` to the front of, before the cut. */
  function Fronted(order: seq<Id>, id: Id): seq<Id> { [id] + Without(order, id) }

  function Promoted(order: seq<Id>, id: Id, limit: nat): seq<Id> {
    if |Fronted(order, id)| <= limit then Fronted(order, id) else Fronted(order, id)[..limit]
  }

  /** What the cut drops from a list that was within the limit: at most its last id. */
  function Evicted(order: seq<Id>, id: Id, limit: nat): seq<Id> {
    var all := Fronted(order, id);
    if |all| <= limit then [] else [all[|all| - 1]]
  }

  /** `order` lists the active ids by falling clock. */
  ghost predicate Ranks(order: seq<Id>, active: map<Id, nat>, clock: nat) {
    && NoDuplicates(order) && (forall id :: id in order <==> id in active)
    && (forall i, j :: 0 <= i < j < |order| ==> active[order[i]] > active[order[j]])
    && (forall id :: id in active ==> active[id] <= clock)
  }

  lemma {:induction false} WithoutKeepsRanks(order: seq<Id>, id: Id, active: map<Id, nat>)
    requires forall x :: x in order ==> x in active
    requires forall i, j :: 0 <= i < j < |order| ==> active[order[i]] > active[order[j]]
    ensures forall x :: x in Without(order, id) <==> x in order && x != id
    ensures var r := Without(order, id); forall i, j :: 0 <= i < j < |r| ==> active[r[i]] > active[r[j]]
  {
    if order != [] {
      var rest, tail := Without(order[1..], id), order[1..];
      assert forall j :: 0 <= j < |tail| ==> tail[j] == order[j + 1];
      WithoutKeepsRanks(tail, id, active);
      forall j | 0 <= j < |rest| ensures active[order[0]] > active[rest[j]] {
        assert rest[j] in tail;
        var k :| 0 <= k < |tail| && tail[k] == rest[j];
      }
      assert Without(order, id) == if order[0] != id then [order[0]] + rest else rest;
    }
  }

  lemma FrontKeepsRanks(order: seq<Id>, active: map<Id, nat>, clock: nat, id: Id)
    requires Ranks(order, active, clock)
    ensures Ranks(Fronted(order, id), active[id := clock + 1], clock + 1)
  {
    hide Without;
    WithoutKeepsOrder(order, id);
    WithoutKeepsRanks(order, id, active);
    var rest := Without(order, id);
    assert forall j :: 0 <= j < |rest| ==> rest[j] in rest && rest[j] in active;
  }

  lemma DropKeepsRanks(order: seq<Id>, active: map<Id, nat>, clock: nat, id: Id)
    requires Ranks(order, active, clock)
    ensures Ranks(Without(order, id), active - {id}, clock)
  {
    WithoutKeepsOrder(order, id);
    WithoutKeepsRanks(order, id, active);
    var rest := Without(order, id);
    assert forall j :: 0 <= j < |rest| ==> rest[j] in rest;
  }

  lemma CutKeepsRanks(order: seq<Id>, active: map<Id, nat>, clock: nat)
    requires Ranks(order, active, clock) && order != []
    ensures Ranks(order[..|order| - 1], active - {order[|order| - 1]}, clock)
  {
  }

  lemma {:induction false} DistinctCount(order: seq<Id>, ids: set<Id>)
    requires NoDuplicates(order) && forall id :: id in order <==> id in ids
    ensures |ids| == |order|
  {
    if order == [] {
      assert ids == {};
    } else {
      var last, rest := order[|order| - 1], order[..|order| - 1];
      forall id ensures id in rest <==> id in ids - {last} {
        if id in ids - {last} { var k :| 0 <= k < |order| && order[k] == id; assert rest[k] == id; }
      }
      DistinctCount(rest, ids - {last});
    }
  }

  lemma WithoutIsShorter(order: seq<Id>, id: Id)
    ensures |Without(order, id)| <= |order|
    ensures id in order ==> |Without(order, id)| < |order|
  {
    if order != [] { WithoutIsShorter(order[1..], id); }
  }

  lemma FrontIsOneMore(order: seq<Id>, id: Id)
    ensures |Fronted(order, id)| <= |order| + 1
  {
    WithoutIsShorter(order, id);
  }

  lemma TailMember(order: seq<Id>, n: nat)
    requires n <= |order|
    ensures n < |order| ==> order[n] in order[n..]
  {
  }

  class LiveSurfaceBudget {
    const limit: nat
    var active: map<Id, nat>
    var clock: nat
    ghost var order: seq<Id>

    ghost predicate Valid()
      reads this
    {
      limit >= 1 && |order| <= limit && Ranks(order, active, clock)
    }

    constructor (limit: nat)
      requires limit >= 1
      ensures Valid() && this.limit == limit && order == []
    {
      this.limit := limit;
      active, clock, order := map[], 0, [];
    }

    /** The id used longest ago: the smallest clock. */
    method Oldest() returns (id: Id)
      requires active != map[] && Ranks(order, active, clock)
      ensures order != [] && id == order[|order| - 1]
    {
      var keys := active.Keys;
      id :| id in keys;
      keys := keys - {id};
      while keys != {}
        invariant id in active && keys <= active.Keys
        invariant forall k :: k in active && k !in keys ==> active[id] <= active[k]
        decreases keys
      {
        var k :| k in keys;
        if active[k] < active[id] { id := k; }
        keys := keys - {k};
      }
      assert id in order;
      assert order[|order| - 1] in active;
    }

    /** Use an id, and evict until the limit holds. */
    method Activate(id: Id) returns (evicted: seq<Id>)
      requires Valid()
      modifies this
      ensures Valid() && order == Promoted(old(order), id, limit) && evicted == Evicted(old(order), id, limit)
    {
      hide Ranks, Fronted;
      ghost var all := Fronted(order, id);
      FrontKeepsRanks(order, active, clock, id);
      FrontIsOneMore(order, id);
      clock := clock + 1;
      active := active[id := clock];
      order := all;
      evicted := [];
      RankCount(order, active, clock);
      while |active| > limit
        invariant Ranks(order, active, clock) && |active| == |order|
        invariant (order == all && evicted == [])
                  || (|all| == limit + 1 && order == all[..limit] && evicted == [all[limit]])
        decreases |active|
      {
        var oldest := Oldest();
        CutKeepsRanks(order, active, clock);
        active := active - {oldest};
        order := order[..|order| - 1];
        RankCount(order, active, clock);
        evicted := evicted + [oldest];
      }
    }

    method Touch(id: Id) returns (known: bool)
      requires Valid()
      modifies this
      ensures Valid() && known == (id in old(order))
      ensures order == if known then Fronted(old(order), id) else old(order)
    {
      if id !in active { return false; }
      FrontKeepsRanks(order, active, clock, id);
      WithoutIsShorter(order, id);
      clock := clock + 1;
      active := active[id := clock];
      order := Fronted(order, id);
      known := true;
    }

    method Deactivate(id: Id) returns (known: bool)
      requires Valid()
      modifies this
      ensures Valid() && known == (id in old(order)) && order == Without(old(order), id)
    {
      DropKeepsRanks(order, active, clock, id);
      WithoutIsShorter(order, id);
      known := id in active;
      active := active - {id};
      order := Without(order, id);
    }

    method MostRecent(keys: set<Id>) returns (id: Id)
      requires keys != {} && keys <= active.Keys
      ensures id in keys && forall k :: k in keys ==> active[k] <= active[id]
    {
      id :| id in keys;
      var others := keys - {id};
      while others != {}
        invariant id in keys && others <= keys
        invariant forall k :: k in keys && k !in others ==> active[k] <= active[id]
        decreases others
      {
        var k :| k in others;
        if active[k] > active[id] { id := k; }
        others := others - {k};
      }
    }

    /** The active ids, the most recent first. */
    method Active() returns (ids: seq<Id>)
      requires Valid()
      ensures ids == order
    {
      var keys := active.Keys;
      ids := [];
      assert forall k :: k in keys <==> k in order[|ids|..];
      hide Ranks;
      while keys != {}
        invariant |ids| <= |order| && ids == order[..|ids|] && keys <= active.Keys
        invariant forall k :: k in keys <==> k in order[|ids|..]
        decreases keys
      {
        var newest := MostRecent(keys);
        NewestIsNext(order, active, clock, |ids|, keys, newest);
        ids := ids + [newest];
        keys := keys - {newest};
      }
      TailMember(order, |ids|);
    }
  }

  lemma NewestIsNext(order: seq<Id>, active: map<Id, nat>, clock: nat, n: nat, keys: set<Id>, newest: Id)
    requires Ranks(order, active, clock) && n <= |order| && (forall k :: k in keys <==> k in order[n..])
    requires newest in keys && forall k :: k in keys ==> k in active && active[k] <= active[newest]
    ensures n < |order| && order[n] == newest && order[..n + 1] == order[..n] + [newest]
    ensures forall k :: k in keys - {newest} <==> k in order[n + 1..]
  {
    var j :| n <= j < |order| && order[j] == newest;
    TailMember(order, n);
    OneLeft(order, n, keys);
  }

  lemma OneLeft(order: seq<Id>, n: nat, keys: set<Id>)
    requires NoDuplicates(order) && n < |order| && forall k :: k in keys <==> k in order[n..]
    ensures forall k :: k in keys - {order[n]} <==> k in order[n + 1..]
  {
    assert order[n..] == [order[n]] + order[n + 1..];
    assert order[n] !in order[n + 1..];
  }

  lemma RankCount(order: seq<Id>, active: map<Id, nat>, clock: nat)
    requires Ranks(order, active, clock)
    ensures |active| == |order|
  {
    DistinctCount(order, active.Keys);
    assert |active.Keys| == |active|;
  }

  // ---------------------------------------------------------------- overlay geometry

  datatype Box = Box(left: real, top: real, width: real, height: real)

  datatype Placement = Placement(x: real, y: real, width: real, height: real, scaleX: real, scaleY: real)

  datatype Camera = Camera(x: real, y: real, zoom: real)

  datatype OverlayRect = OverlayRect(left: real, top: real, width: real, height: real, visible: bool)

  function Projected(origin: real, world: real, camera: real, zoom: real): real { origin + (world - camera) * zoom }

  function Scaled(size: real, scale: real, zoom: real): real { size * scale * zoom }

  function WorldToOverlay(t: Placement, v: Camera, c: Box): Option<OverlayRect> {
    if v.zoom <= 0.0 || c.width < 0.0 || c.height < 0.0 then None
    else
      var left, top := Projected(c.left, t.x, v.x, v.zoom), Projected(c.top, t.y, v.y, v.zoom);
      var width, height := Scaled(t.width, t.scaleX, v.zoom), Scaled(t.height, t.scaleY, v.zoom);
      Some(OverlayRect(left, top, width, height,
                       width > 0.0 && height > 0.0 && left + width > c.left && top + height > c.top
                       && left < c.left + c.width && top < c.top + c.height))
  }

  predicate Inside(r: OverlayRect, x: real, y: real) { r.left < x < r.left + r.width && r.top < y < r.top + r.height }

  /** The client area with its border; it may be as thin as a line or a point. */
  predicate Within(c: Box, x: real, y: real) { c.left <= x <= c.left + c.width && c.top <= y <= c.top + c.height }

  predicate WithinInterior(c: Box, x: real, y: real) { c.left < x < c.left + c.width && c.top < y < c.top + c.height }

  ghost predicate MeetsArea(r: OverlayRect, c: Box) { exists x, y :: Inside(r, x, y) && Within(c, x, y) }

  ghost predicate MeetsInterior(r: OverlayRect, c: Box) { exists x, y :: Inside(r, x, y) && WithinInterior(c, x, y) }

  /**
   * A rect is visible exactly when its interior meets the client area with its border. For an area that is not empty
   * the interiors then meet; for one without width or height no interior is there to meet.
   */
  lemma VisibleIff(t: Placement, v: Camera, c: Box)
    requires WorldToOverlay(t, v, c).Some?
    ensures var r := WorldToOverlay(t, v, c).value; r.visible <==> MeetsArea(r, c)
    ensures var r := WorldToOverlay(t, v, c).value;
            MeetsInterior(r, c) <==> r.visible && c.width > 0.0 && c.height > 0.0
  {
    hide Projected, Scaled;
    MeetsIff(WorldToOverlay(t, v, c).value, c);
  }

  lemma MeetsIff(r: OverlayRect, c: Box)
    requires c.width >= 0.0 && c.height >= 0.0
    requires r.visible <==>
      (r.width > 0.0 && r.height > 0.0 && r.left + r.width > c.left && r.top + r.height > c.top
       && r.left < c.left + c.width && r.top < c.top + c.height)
    ensures r.visible <==> MeetsArea(r, c)
    ensures MeetsInterior(r, c) <==> r.visible && c.width > 0.0 && c.height > 0.0
  {
    if r.visible {
      var x := Common(r.left, r.left + r.width, c.left, c.left + c.width);
      var y := Common(r.top, r.top + r.height, c.top, c.top + c.height);
      assert Inside(r, x, y) && Within(c, x, y);
      assert c.width > 0.0 && c.height > 0.0 ==> WithinInterior(c, x, y);
    }
  }

  /** A client area of no width, straddled by a rect: visible, though no interior is shared. */
  lemma EmptyAreaIsStraddled()
    ensures var c := Box(0.0, 0.0, 0.0, 2.0);
            var r := WorldToOverlay(Placement(-1.0, 0.0, 2.0, 2.0, 1.0, 1.0), Camera(0.0, 0.0, 1.0), c);
            r.Some? && r.value.visible && !MeetsInterior(r.value, c)
  {
    var t, v, c := Placement(-1.0, 0.0, 2.0, 2.0, 1.0, 1.0), Camera(0.0, 0.0, 1.0), Box(0.0, 0.0, 0.0, 2.0);
    VisibleIff(t, v, c);
    assert Projected(0.0, -1.0, 0.0, 1.0) == -1.0 && Projected(0.0, 0.0, 0.0, 1.0) == 0.0;
    assert Scaled(2.0, 1.0, 1.0) == 2.0;
  }

  /** A point inside the open interval from `a` to `b` and in the closed one from `c` to `d`, inside it if it can be. */
  function Common(a: real, b: real, c: real, d: real): (m: real)
    requires a < b && c <= d && b > c && a < d
    ensures a < m < b && c <= m <= d && (c < d ==> c < m < d)
  {
    var lo := if a < c then c else a;
    var hi := if b < d then b else d;
    (lo + hi) / 2.0
  }

  // ---------------------------------------------------------------- the coordinator

  datatype Handle = Handle(provider: Id, resource: Id)

  datatype PortalState = PortalState(mounted: bool, visible: bool, focused: bool, controlOwner: Option<Id>)

  /** `order` is the budget's list of live ids. */
  datatype Portals = Portals(mounted: map<Id, Handle>, states: map<Id, PortalState>, order: seq<Id>)

  datatype PortalError =
    | NoState | NotLive | NoHost | BadGeometry | HostFailed | NotShown | NoPrincipal | HeldByOther | NotOwner

  /** How the host answers each call it may get. */
  datatype HostAnswers = HostAnswers(updates: bool, mounts: bool, unmounts: bool)

  function Idle(mounted: bool): PortalState { PortalState(mounted, false, false, None) }

  function Wrote(p: Portals, id: Id, st: PortalState): Portals { p.(states := p.states[id := st]) }

  function Unmounted(p: Portals, id: Id): Portals { Wrote(p.(mounted := p.mounted - {id}), id, Idle(false)) }

  function UnmountedAll(p: Portals, ids: seq<Id>): Portals
    decreases |ids|
  {
    if ids == [] then p else UnmountedAll(Unmounted(p, ids[0]), ids[1..])
  }

  /** Off the budget, with everything a shown portal has taken away. */
  function Lowered(p: Portals, id: Id, mounted: bool): Portals {
    Wrote(p.(order := Without(p.order, id)), id, Idle(mounted))
  }

  /** Shown, keeping the focus and control the portal had. */
  function Shown(p: Portals, id: Id): Portals {
    var was := if id in p.states then p.states[id] else Idle(false);
    Wrote(p, id, PortalState(true, true, was.focused, was.controlOwner))
  }

  function Raised(p: Portals, id: Id, limit: nat): Portals {
    UnmountedAll(p.(order := Promoted(p.order, id, limit)), Evicted(p.order, id, limit))
  }

  function Activated(p: Portals, limit: nat, id: Id, h: Handle, visible: bool, a: HostAnswers)
    : (Portals, Option<PortalError>)
  {
    if !visible then
      if id in p.mounted && !a.updates then (p, Some(HostFailed)) else (Lowered(p, id, id in p.mounted), None)
    else
      var q := Raised(p, id, limit);
      if id in q.mounted && q.mounted[id] == h then
        if a.updates then (Shown(q, id), None) else (Lowered(q, id, true), Some(HostFailed))
      else if id in q.mounted && !a.unmounts then (Lowered(q, id, true), Some(HostFailed))
      else if !a.mounts then (Lowered(q.(mounted := q.mounted - {id}), id, false), Some(HostFailed))
      else
        var replaced := if id in q.mounted then Wrote(q, id, Idle(false)) else q;
        (Shown(replaced.(mounted := q.mounted[id := h]), id), None)
  }

  function Deactivated(p: Portals, id: Id): Portals {
    var q := p.(order := Without(p.order, id));
    if id in p.mounted then Unmounted(q, id) else q
  }

  /** What `syncGeometry` knows of an object: whether it is still a live portal, of which resource, and where. */
  datatype PortalObject = PortalObject(live: bool, handle: Handle, rect: Option<OverlayRect>)

  /** One round of the loop over the mounted portals. */
  function SyncedOne(p: Portals, limit: nat, id: Id, o: Option<PortalObject>, updates: bool)
    : (Portals, Option<PortalError>)
  {
    if o.None? || !o.value.live then (Deactivated(p, id), None)
    else if id !in p.mounted then (p, None)
    else if p.mounted[id] != o.value.handle then (Deactivated(p, id), None)
    else if o.value.rect.None? then (p, Some(BadGeometry))
    else if !updates then (Lowered(p, id, true), Some(HostFailed))
    else if !o.value.rect.value.visible then (Lowered(p, id, true), None)
    else (Shown(if id in p.order then p else Raised(p, id, limit), id), None)
  }

  function Synced(p: Portals, limit: nat, ids: seq<Id>, objects: map<Id, PortalObject>, failing: set<Id>)
    : (Portals, Option<PortalError>)
    decreases |ids|
  {
    if ids == [] then (p, None)
    else
      var id := ids[0];
      var (q, e) := SyncedOne(p, limit, id, if id in objects then Some(objects[id]) else None, id !in failing);
      if e.Some? then (q, e) else Synced(q, limit, ids[1..], objects, failing)
  }

  function DeactivatedAll(p: Portals, ids: seq<Id>): Portals
    decreases |ids|
  {
    if ids == [] then p else DeactivatedAll(Deactivated(p, ids[0]), ids[1..])
  }

  function Focused(p: Portals, id: Id, focused: bool): (Portals, Option<PortalError>) {
    if id !in p.states then (p, Some(NoState))
    else if focused && (!p.states[id].mounted || !p.states[id].visible) then (p, Some(NotShown))
    else (Wrote(p, id, p.states[id].(focused := focused)), None)
  }

  /** `principal` is the trimmed name, or nothing when that is empty. */
  function Acquired(p: Portals, id: Id, principal: Option<Id>): (Portals, Option<PortalError>) {
    if principal.None? then (p, Some(NoPrincipal))
    else if id !in p.states then (p, Some(NoState))
    else if !p.states[id].mounted || !p.states[id].visible then (p, Some(NotShown))
    else if p.states[id].controlOwner.Some? && p.states[id].controlOwner != principal then (p, Some(HeldByOther))
    else (Wrote(p, id, p.states[id].(controlOwner := principal)), None)
  }

  function Released(p: Portals, id: Id, principal: Option<Id>): (Portals, Option<PortalError>) {
    if principal.None? then (p, Some(NoPrincipal))
    else if id !in p.states then (p, Some(NoState))
    else if p.states[id].controlOwner != principal then (p, Some(NotOwner))
    else (Wrote(p, id, p.states[id].(controlOwner := None)), None)
  }

  function Revoked(p: Portals, id: Id): (Portals, Option<PortalError>) {
    if id !in p.states then (p, Some(NoState)) else (Wrote(p, id, p.states[id].(controlOwner := None)), None)
  }

  datatype Call =
    | Activate(id: Id, descriptor: Option<Handle>, hosted: bool, rect: Option<OverlayRect>, answers: HostAnswers)
    | SyncGeometry(keys: seq<Id>, objects: map<Id, PortalObject>, failing: set<Id>)
    | Deactivate(id: Id) | DeactivateAll(keys: seq<Id>)
    | SetFocused(id: Id, focused: bool) | AcquireControl(id: Id, principal: Option<Id>)
    | ReleaseControl(id: Id, principal: Option<Id>) | RevokeControl(id: Id)

  /** A descriptor is missing when the object is no portal in live mode. */
  function Do(p: Portals, limit: nat, c: Call): (Portals, Option<PortalError>) {
    match c
    case Activate(id, d, hosted, rect, a) =>
      if d.None? then (p, Some(NotLive)) else if !hosted then (p, Some(NoHost))
      else if rect.None? then (p, Some(BadGeometry))
      else Activated(p, limit, id, d.value, rect.value.visible, a)
    case SyncGeometry(keys, objects, failing) => Synced(p, limit, keys, objects, failing)
    case Deactivate(id) => (Deactivated(p, id), None)
    case DeactivateAll(keys) => (DeactivatedAll(p, keys), None)
    case SetFocused(id, focused) => Focused(p, id, focused)
    case AcquireControl(id, principal) => Acquired(p, id, principal)
    case ReleaseControl(id, principal) => Released(p, id, principal)
    case RevokeControl(id) => Revoked(p, id)
  }

  const NO_PORTALS := Portals(map[], map[], [])

  function Run(limit: nat, calls: seq<Call>): Portals {
    if calls == [] then NO_PORTALS else Do(Run(limit, calls[..|calls| - 1]), limit, calls[|calls| - 1]).0
  }

  class CanvasLivePortalCoordinator {
    const budget: LiveSurfaceBudget
    var mounted: map<Id, Handle>
    var states: map<Id, PortalState>

    ghost predicate Valid()
      reads this, budget
    {
      budget.Valid()
    }

    ghost function State(): Portals
      reads this, budget
    {
      Portals(mounted, states, budget.order)
    }

    constructor (budget: LiveSurfaceBudget)
      requires budget.Valid() && budget.order == []
      ensures Valid() && this.budget == budget && State() == NO_PORTALS
    {
      this.budget := budget;
      mounted, states := map[], map[];
    }

    method WriteState(id: Id, st: PortalState)
      modifies this
      ensures State() == Wrote(old(State()), id, st)
    {
      states := states[id := st];
    }

    method Unmount(id: Id)
      modifies this
      ensures State() == Unmounted(old(State()), id)
    {
      if id in mounted { mounted := mounted - {id}; }
      WriteState(id, Idle(false));
    }

    method UnmountEvicted(evicted: seq<Id>)
      modifies this
      ensures State() == UnmountedAll(old(State()), evicted)
    {
      hide Unmounted;
      for k := 0 to |evicted|
        invariant UnmountedAll(State(), evicted[k..]) == UnmountedAll(old(State()), evicted)
      {
        assert evicted[k..][1..] == evicted[k + 1..];
        Unmount(evicted[k]);
      }
    }

    /** Take the surface off the budget and record it as idle. */
    method Lower(id: Id, stillMounted: bool)
      requires Valid()
      modifies this, budget
      ensures Valid() && State() == Lowered(old(State()), id, stillMounted)
    {
      var _ := budget.Deactivate(id);
      WriteState(id, Idle(stillMounted));
    }

    method Show(id: Id, was: PortalState)
      modifies this
      ensures State() == Wrote(old(State()), id, PortalState(true, true, was.focused, was.controlOwner))
    {
      WriteState(id, PortalState(true, true, was.focused, was.controlOwner));
    }

    method MountSurface(id: Id, h: Handle, mounts: bool) returns (ok: bool)
      requires Valid()
      modifies this, budget
      ensures Valid() && ok == mounts
      ensures State() == if ok then old(State()).(mounted := old(mounted)[id := h])
                         else Lowered(old(State()).(mounted := old(mounted) - {id}), id, false)
    {
      ok := mounts;
      if ok {
        mounted := mounted[id := h];
      } else {
        mounted := mounted - {id};
        Lower(id, false);
      }
    }

    method Raise(id: Id)
      requires Valid()
      modifies this, budget
      ensures Valid() && State() == Raised(old(State()), id, budget.limit)
    {
      var evicted := budget.Activate(id);
      UnmountEvicted(evicted);
    }

    method Place(id: Id, h: Handle, visible: bool, a: HostAnswers) returns (e: Option<PortalError>)
      requires Valid()
      modifies this, budget
      ensures Valid() && (State(), e) == Activated(old(State()), budget.limit, id, h, visible, a)
    {
      hide Raised, Without, Promoted, Evicted;
      if !visible {
        if id in mounted && !a.updates { return Some(HostFailed); }
        Lower(id, id in mounted);
        return None;
      }
      Raise(id);
      ghost var q := State();
      var was := Idle(false);
      if id in mounted && mounted[id] == h {
        if !a.updates {
          Lower(id, true);
          return Some(HostFailed);
        }
        if id in states { was := states[id]; }
      } else {
        if id in mounted {
          if !a.unmounts {
            Lower(id, true);
            return Some(HostFailed);
          }
          mounted := mounted - {id};
          WriteState(id, Idle(false));
        }
        var ok := MountSurface(id, h, a.mounts);
        if !ok {
          assert states == q.states[id := Idle(false)] && mounted == q.mounted - {id};
          return Some(HostFailed);
        }
        assert mounted == q.mounted[id := h];
        if id in states { was := states[id]; }
      }
      Show(id, was);
      e := None;
    }

    /** The checks on descriptor, host and geometry, and then the placing. */
    method Activate(id: Id, descriptor: Option<Handle>, hosted: bool, rect: Option<OverlayRect>, a: HostAnswers)
      returns (e: Option<PortalError>)
      requires Valid()
      modifies this, budget
      ensures Valid() && (State(), e) == Do(old(State()), budget.limit, Call.Activate(id, descriptor, hosted, rect, a))
    {
      hide Activated;
      if descriptor.None? { return Some(NotLive); }
      if !hosted { return Some(NoHost); }
      if rect.None? { return Some(BadGeometry); }
      e := Place(id, descriptor.value, rect.value.visible, a);
    }

    method Deactivate(id: Id) returns (wasMounted: bool)
      requires Valid()
      modifies this, budget
      ensures Valid() && State() == Deactivated(old(State()), id) && wasMounted == (id in old(mounted))
    {
      wasMounted := id in mounted;
      var _ := budget.Deactivate(id);
      if wasMounted { Unmount(id); }
    }

    method SyncOne(id: Id, o: Option<PortalObject>, updates: bool) returns (e: Option<PortalError>)
      requires Valid()
      modifies this, budget
      ensures Valid() && (State(), e) == SyncedOne(old(State()), budget.limit, id, o, updates)
    {
      hide Raised, Deactivated;
      e := None;
      if o.None? || !o.value.live {
        var _ := Deactivate(id);
        return;
      }
      if id !in mounted { return; }
      if mounted[id] != o.value.handle {
        var _ := Deactivate(id);
        return;
      }
      if o.value.rect.None? { return Some(BadGeometry); }
      if !updates {
        Lower(id, true);
        return Some(HostFailed);
      }
      if !o.value.rect.value.visible {
        Lower(id, true);
        return;
      }
      var active := budget.Active();
      if id !in active { Raise(id); }
      Show(id, if id in states then states[id] else Idle(false));
    }

    /** `keys` are the mounted ids, in the order the map yields them. */
    method SyncGeometry(keys: seq<Id>, objects: map<Id, PortalObject>, failing: set<Id>)
      returns (e: Option<PortalError>)
      requires Valid()
      modifies this, budget
      ensures Valid() && (State(), e) == Synced(old(State()), budget.limit, keys, objects, failing)
    {
      hide SyncedOne;
      for k := 0 to |keys|
        invariant Valid()
        invariant Synced(State(), budget.limit, keys[k..], objects, failing)
               == Synced(old(State()), budget.limit, keys, objects, failing)
      {
        assert keys[k..][0] == keys[k] && keys[k..][1..] == keys[k + 1..];
        e := SyncOne(keys[k], if keys[k] in objects then Some(objects[keys[k]]) else None, keys[k] !in failing);
        if e.Some? { return; }
      }
      e := None;
    }

    method DeactivateEach(keys: seq<Id>)
      requires Valid()
      modifies this, budget
      ensures Valid() && State() == DeactivatedAll(old(State()), keys)
    {
      hide Deactivated;
      for k := 0 to |keys|
        invariant Valid() && DeactivatedAll(State(), keys[k..]) == DeactivatedAll(old(State()), keys)
      {
        assert keys[k..][0] == keys[k] && keys[k..][1..] == keys[k + 1..];
        var _ := Deactivate(keys[k]);
      }
    }

    method SetFocused(id: Id, focused: bool) returns (e: Option<PortalError>)
      modifies this
      ensures (State(), e) == Focused(old(State()), id, focused)
    {
      if id !in states { return Some(NoState); }
      if focused && (!states[id].mounted || !states[id].visible) { return Some(NotShown); }
      WriteState(id, states[id].(focused := focused));
      e := None;
    }

    method AcquireControl(id: Id, principal: Option<Id>) returns (e: Option<PortalError>)
      modifies this
      ensures (State(), e) == Acquired(old(State()), id, principal)
    {
      if principal.None? { return Some(NoPrincipal); }
      if id !in states { return Some(NoState); }
      if !states[id].mounted || !states[id].visible { return Some(NotShown); }
      if states[id].controlOwner.Some? && states[id].controlOwner != principal { return Some(HeldByOther); }
      WriteState(id, states[id].(controlOwner := principal));
      e := None;
    }

    method ReleaseControl(id: Id, principal: Option<Id>) returns (e: Option<PortalError>)
      modifies this
      ensures (State(), e) == Released(old(State()), id, principal)
    {
      if principal.None? { return Some(NoPrincipal); }
      if id !in states { return Some(NoState); }
      if states[id].controlOwner != principal { return Some(NotOwner); }
      WriteState(id, states[id].(controlOwner := None));
      e := None;
    }

    method RevokeControl(id: Id) returns (e: Option<PortalError>)
      modifies this
      ensures (State(), e) == Revoked(old(State()), id)
    {
      if id !in states { return Some(NoState); }
      WriteState(id, states[id].(controlOwner := None));
      e := None;
    }
  }

  // ---------------------------------------------------------------- safety

  ghost predicate SafeAt(p: Portals, id: Id) {
    && (id in p.mounted <==> id in p.states && p.states[id].mounted)
    && (id in p.order <==> id in p.states && p.states[id].visible)
    && (id in p.states ==>
          && (p.states[id].visible ==> p.states[id].mounted)
          && (p.states[id].focused || p.states[id].controlOwner.Some? ==> p.states[id].visible))
  }

  /** The record agrees with the mounted map, exactly the portals in the budget are visible, at most `limit` of them,
      and only a visible portal has focus or an owner. */
  ghost predicate Safe(p: Portals, limit: nat) {
    limit >= 1 && NoDuplicates(p.order) && |p.order| <= limit && forall id :: SafeAt(p, id)
  }

  /** Safe but perhaps at `id`. */
  ghost predicate SafeBut(p: Portals, limit: nat, id: Id) {
    limit >= 1 && NoDuplicates(p.order) && |p.order| <= limit && forall x :: x != id ==> SafeAt(p, x)
  }

  lemma LoweredIsSafe(p: Portals, limit: nat, id: Id, mounted: bool)
    requires SafeBut(p, limit, id) && (mounted <==> id in p.mounted)
    ensures Safe(Lowered(p, id, mounted), limit)
  {
    WithoutKeepsOrder(p.order, id);
    WithoutIsShorter(p.order, id);
    var q := Lowered(p, id, mounted);
    forall x ensures SafeAt(q, x) {
      if x != id { assert SafeAt(p, x); }
    }
  }

  lemma UnmountedIsSafe(p: Portals, limit: nat, id: Id, keep: Id)
    requires limit >= 1 && NoDuplicates(p.order) && |p.order| <= limit && id !in p.order
    requires forall x :: x != keep && x != id ==> SafeAt(p, x)
    ensures SafeBut(Unmounted(p, id), limit, keep)
  {
    var q := Unmounted(p, id);
    forall x | x != keep ensures SafeAt(q, x) {
      if x != id { assert SafeAt(p, x); }
    }
  }

  /** Using `id` and unmounting what that evicts leaves everything else safe, and `id` as it was, now in the budget. */
  lemma RaisedIsSafe(p: Portals, limit: nat, id: Id)
    requires Safe(p, limit)
    ensures var q := Raised(p, id, limit);
            && SafeBut(q, limit, id) && id in q.order
            && (id in q.mounted <==> id in p.mounted) && (id in p.mounted ==> q.mounted[id] == p.mounted[id])
            && (id in q.states <==> id in p.states) && (id in p.states ==> q.states[id] == p.states[id])
  {
    WithoutKeepsOrder(p.order, id);
    WithoutIsShorter(p.order, id);
    var all, order := Fronted(p.order, id), Promoted(p.order, id, limit);
    var m := p.(order := order);
    assert order[0] == id;
    if |all| <= limit {
      forall x | x != id ensures SafeAt(m, x) { assert SafeAt(p, x); }
      assert UnmountedAll(m, []) == m;
    } else {
      var last := all[|all| - 1];
      assert all == order + [last];
      assert last == Without(p.order, id)[|all| - 2] && last in Without(p.order, id);
      assert NoDuplicates(all);
      forall x | x != id && x != last ensures SafeAt(m, x) { assert SafeAt(p, x); assert x in order <==> x in all; }
      assert SafeAt(p, id);
      UnmountedIsSafe(m, limit, last, id);
      assert UnmountedAll(m, [last]) == UnmountedAll(Unmounted(m, last), []) == Unmounted(m, last);
    }
  }

  lemma ShownIsSafe(p: Portals, limit: nat, id: Id)
    requires SafeBut(p, limit, id) && id in p.mounted && id in p.order
    ensures Safe(Shown(p, id), limit)
  {
    var q := Shown(p, id);
    forall x ensures SafeAt(q, x) {
      if x != id { assert SafeAt(p, x); }
    }
  }

  /** A change of the mounted map at `id` alone leaves the rest safe. */
  lemma RemountedIsSafe(p: Portals, limit: nat, id: Id, h: Handle)
    requires SafeBut(p, limit, id)
    ensures SafeBut(p.(mounted := p.mounted - {id}), limit, id)
    ensures SafeBut(Wrote(p, id, Idle(false)).(mounted := p.mounted[id := h]), limit, id)
    ensures SafeBut(p.(mounted := p.mounted[id := h]), limit, id)
  {
    var off, on := p.(mounted := p.mounted - {id}), p.(mounted := p.mounted[id := h]);
    var again := Wrote(p, id, Idle(false)).(mounted := p.mounted[id := h]);
    forall x | x != id
      ensures SafeAt(off, x) && SafeAt(on, x) && SafeAt(again, x)
    {
      assert SafeAt(p, x);
    }
  }

  lemma ActivatedIsSafe(p: Portals, limit: nat, id: Id, h: Handle, visible: bool, a: HostAnswers)
    requires Safe(p, limit)
    ensures Safe(Activated(p, limit, id, h, visible, a).0, limit)
  {
    hide SafeAt, Shown, Lowered, Raised;
    if visible {
      var q := Raised(p, id, limit);
      RaisedIsSafe(p, limit, id);
      RemountedIsSafe(q, limit, id, h);
      if id in q.mounted && (q.mounted[id] == h || !a.unmounts) {
        ShownIsSafe(q, limit, id);
        LoweredIsSafe(q, limit, id, true);
      } else if !a.mounts {
        LoweredIsSafe(q.(mounted := q.mounted - {id}), limit, id, false);
      } else {
        var replaced := if id in q.mounted then Wrote(q, id, Idle(false)) else q;
        ShownIsSafe(replaced.(mounted := q.mounted[id := h]), limit, id);
      }
    } else {
      LoweredIsSafe(p, limit, id, id in p.mounted);
    }
  }

  lemma DeactivatedIsSafe(p: Portals, limit: nat, id: Id)
    requires Safe(p, limit)
    ensures Safe(Deactivated(p, id), limit)
  {
    WithoutKeepsOrder(p.order, id);
    WithoutIsShorter(p.order, id);
    var q := p.(order := Without(p.order, id));
    if id in p.mounted {
      forall x | x != id ensures SafeAt(q, x) { assert SafeAt(p, x); }
      UnmountedIsSafe(q, limit, id, id);
      assert SafeAt(Unmounted(q, id), id);
    } else {
      forall x ensures SafeAt(q, x) { assert SafeAt(p, x) && SafeAt(p, id); }
    }
  }

  lemma SyncedOneIsSafe(p: Portals, limit: nat, id: Id, o: Option<PortalObject>, updates: bool)
    requires Safe(p, limit)
    ensures Safe(SyncedOne(p, limit, id, o, updates).0, limit)
  {
    hide SafeAt, Deactivated, Lowered, Shown, Raised;
    DeactivatedIsSafe(p, limit, id);
    RaisedIsSafe(p, limit, id);
    if id in p.mounted {
      LoweredIsSafe(p, limit, id, true);
      ShownIsSafe(if id in p.order then p else Raised(p, id, limit), limit, id);
    }
  }

  lemma {:induction false} SyncedIsSafe(p: Portals, limit: nat, ids: seq<Id>, objects: map<Id, PortalObject>,
                                        failing: set<Id>)
    requires Safe(p, limit)
    ensures Safe(Synced(p, limit, ids, objects, failing).0, limit)
    decreases |ids|
  {
    hide Safe, SyncedOne;
    if ids != [] {
      var o := if ids[0] in objects then Some(objects[ids[0]]) else None;
      SyncedOneIsSafe(p, limit, ids[0], o, ids[0] !in failing);
      SyncedIsSafe(SyncedOne(p, limit, ids[0], o, ids[0] !in failing).0, limit, ids[1..], objects, failing);
    }
  }

  lemma {:induction false} DeactivatedAllIsSafe(p: Portals, limit: nat, ids: seq<Id>)
    requires Safe(p, limit)
    ensures Safe(DeactivatedAll(p, ids), limit)
    decreases |ids|
  {
    hide Safe, Deactivated;
    if ids != [] {
      DeactivatedIsSafe(p, limit, ids[0]);
      DeactivatedAllIsSafe(Deactivated(p, ids[0]), limit, ids[1..]);
    }
  }

  /** A record that keeps its place: same mounted and visible, focus and owner only when visible. */
  lemma WroteIsSafe(p: Portals, limit: nat, id: Id, st: PortalState)
    requires Safe(p, limit) && id in p.states && st.mounted == p.states[id].mounted
             && st.visible == p.states[id].visible
    requires st.focused || st.controlOwner.Some? ==> st.visible
    ensures Safe(Wrote(p, id, st), limit)
  {
    forall x ensures SafeAt(Wrote(p, id, st), x) { assert SafeAt(p, x); }
  }

  /** Every call, whatever its hosts answer, keeps the coordinator safe. */
  lemma CallIsSafe(p: Portals, limit: nat, c: Call)
    requires Safe(p, limit)
    ensures Safe(Do(p, limit, c).0, limit)
  {
    hide Activated, Synced, Deactivated, DeactivatedAll;
    assert c.SyncGeometry? || c.DeactivateAll? || SafeAt(p, c.id);
    match c
    case Activate(id, d, hosted, rect, a) =>
      if d.Some? && rect.Some? { ActivatedIsSafe(p, limit, id, d.value, rect.value.visible, a); }
    case SyncGeometry(keys, objects, failing) => SyncedIsSafe(p, limit, keys, objects, failing);
    case Deactivate(id) => DeactivatedIsSafe(p, limit, id);
    case DeactivateAll(keys) => DeactivatedAllIsSafe(p, limit, keys);
    case SetFocused(id, focused) =>
      if id in p.states && (focused ==> p.states[id].visible) {
        WroteIsSafe(p, limit, id, p.states[id].(focused := focused));
      }
    case AcquireControl(id, principal) =>
      if id in p.states && p.states[id].visible { WroteIsSafe(p, limit, id, p.states[id].(controlOwner := principal)); }
    case ReleaseControl(id, _) => if id in p.states { WroteIsSafe(p, limit, id, p.states[id].(controlOwner := None)); }
    case RevokeControl(id) => if id in p.states { WroteIsSafe(p, limit, id, p.states[id].(controlOwner := None)); }
  }

  /** A visible activation that succeeds puts the portal in front, mounted with its handle, keeping focus and owner
      exactly when the handle did not change; one whose host fails leaves it invisible and off the budget. */
  lemma ActivationShows(p: Portals, limit: nat, id: Id, h: Handle, a: HostAnswers)
    requires Safe(p, limit)
    ensures var (q, e) := Activated(p, limit, id, h, true, a);
            && (e.None? ==>
                  && id in q.mounted && q.mounted[id] == h && id in q.states && q.states[id].visible
                  && q.order == Promoted(p.order, id, limit) && q.order[0] == id
                  && (if id in p.mounted && p.mounted[id] == h
                      then id in p.states && q.states[id] == p.states[id].(visible := true)
                      else q.states[id] == PortalState(true, true, false, None)))
            && (e.Some? ==> id !in q.order && id in q.states && !q.states[id].visible)
  {
    hide Raised, Without, Promoted;
    assert SafeAt(p, id);
    RaisedIsSafe(p, limit, id);
    RaisedOrder(p, limit, id);
    WithoutKeepsOrder(Raised(p, id, limit).order, id);
  }

  lemma RaisedOrder(p: Portals, limit: nat, id: Id)
    requires limit >= 1
    ensures Raised(p, id, limit).order == Promoted(p.order, id, limit) && |Promoted(p.order, id, limit)| > 0
    ensures Promoted(p.order, id, limit)[0] == id
  {
    var m := p.(order := Promoted(p.order, id, limit));
    var evicted := Evicted(p.order, id, limit);
    if evicted != [] {
      assert UnmountedAll(m, evicted) == UnmountedAll(Unmounted(m, evicted[0]), []) == Unmounted(m, evicted[0]);
    }
  }

  /** Safety over all runs. */
  lemma {:induction false} EveryRunIsSafe(limit: nat, calls: seq<Call>)
    requires limit >= 1
    ensures Safe(Run(limit, calls), limit)
  {
    hide Do, SafeAt;
    if calls == [] {
      assert forall id :: SafeAt(NO_PORTALS, id) by { NothingIsSafe(); }
    } else {
      EveryRunIsSafe(limit, calls[..|calls| - 1]);
      CallIsSafe(Run(limit, calls[..|calls| - 1]), limit, calls[|calls| - 1]);
    }
  }

  lemma NothingIsSafe()
    ensures forall id :: SafeAt(NO_PORTALS, id)
  {
  }

  /**
   * What safety means for an outsider: at most `limit` portals are visible, those the budget lists, all of them
   * mounted.
   */
  lemma VisiblePortalsFitTheBudget(limit: nat, calls: seq<Call>)
    requires limit >= 1
    ensures var p := Run(limit, calls);
            var shown := set id | id in p.states && p.states[id].visible;
            && |shown| <= limit && shown <= p.mounted.Keys
            && (forall id :: id in p.states && (p.states[id].focused || p.states[id].controlOwner.Some?) ==>
                  id in shown)
            && (forall id :: id in p.mounted ==> id in p.states && p.states[id].mounted)
  {
    hide Run;
    EveryRunIsSafe(limit, calls);
    var p := Run(limit, calls);
    var shown := set id | id in p.states && p.states[id].visible;
    forall id ensures (id in p.order <==> id in shown) && (id in shown ==> id in p.mounted) { assert SafeAt(p, id); }
    assert forall id :: id in p.states ==> SafeAt(p, id);
    assert forall id :: id in p.mounted ==> SafeAt(p, id);
    DistinctCount(p.order, shown);
  }

  // ---------------------------------------------------------------- control

  function Owner(p: Portals, id: Id): Option<Id> { if id in p.states then p.states[id].controlOwner else None }

  /** Owners stay, or are dropped. */
  ghost predicate OnlyDrops(p: Portals, q: Portals) {
    forall id :: Owner(q, id).None? || Owner(q, id) == Owner(p, id)
  }

  lemma RaisedOnlyDrops(p: Portals, limit: nat, id: Id)
    ensures OnlyDrops(p, Raised(p, id, limit))
  {
    hide Fronted;
    var m := p.(order := Promoted(p.order, id, limit));
    var evicted := Evicted(p.order, id, limit);
    if evicted != [] {
      assert UnmountedAll(m, evicted) == UnmountedAll(Unmounted(m, evicted[0]), []) == Unmounted(m, evicted[0]);
    }
  }

  lemma ActivatedOnlyDrops(p: Portals, limit: nat, id: Id, h: Handle, visible: bool, a: HostAnswers)
    ensures OnlyDrops(p, Activated(p, limit, id, h, visible, a).0)
  {
    hide Raised;
    RaisedOnlyDrops(p, limit, id);
  }

  lemma SyncedOneOnlyDrops(p: Portals, limit: nat, id: Id, o: Option<PortalObject>, updates: bool)
    ensures OnlyDrops(p, SyncedOne(p, limit, id, o, updates).0)
  {
    hide Raised;
    RaisedOnlyDrops(p, limit, id);
  }

  lemma {:induction false} SyncedOnlyDrops(p: Portals, limit: nat, ids: seq<Id>, objects: map<Id, PortalObject>,
                                           failing: set<Id>)
    ensures OnlyDrops(p, Synced(p, limit, ids, objects, failing).0)
    decreases |ids|
  {
    hide SyncedOne, Owner;
    if ids != [] {
      var o := if ids[0] in objects then Some(objects[ids[0]]) else None;
      SyncedOneOnlyDrops(p, limit, ids[0], o, ids[0] !in failing);
      SyncedOnlyDrops(SyncedOne(p, limit, ids[0], o, ids[0] !in failing).0, limit, ids[1..], objects, failing);
    }
  }

  lemma {:induction false} DeactivatedAllOnlyDrops(p: Portals, ids: seq<Id>)
    ensures OnlyDrops(p, DeactivatedAll(p, ids))
    decreases |ids|
  {
    if ids != [] { DeactivatedAllOnlyDrops(Deactivated(p, ids[0]), ids[1..]); }
  }

  /** No call moves control from one principal straight to another. */
  lemma CallHandsOver(p: Portals, limit: nat, c: Call, id: Id)
    ensures var q := Do(p, limit, c).0; Owner(p, id).Some? && Owner(q, id).Some? ==> Owner(q, id) == Owner(p, id)
  {
    hide Activated, Synced, DeactivatedAll;
    match c
    case Activate(i, d, hosted, rect, a) =>
      if d.Some? && rect.Some? { ActivatedOnlyDrops(p, limit, i, d.value, rect.value.visible, a); }
    case SyncGeometry(keys, objects, failing) => SyncedOnlyDrops(p, limit, keys, objects, failing);
    case Deactivate(_) =>
    case DeactivateAll(keys) => DeactivatedAllOnlyDrops(p, keys);
    case SetFocused(_, _) =>
    case AcquireControl(_, _) =>
    case ReleaseControl(_, _) =>
    case RevokeControl(_) =>
  }

  /** Over any run, between two owners of a portal there is a moment without one. */
  lemma {:induction false} ControlPassesThroughNobody(limit: nat, calls: seq<Call>, i: nat, j: nat, id: Id)
    returns (k: nat)
    requires i < j <= |calls|
    requires Owner(Run(limit, calls[..i]), id).Some? && Owner(Run(limit, calls[..j]), id).Some?
    requires Owner(Run(limit, calls[..i]), id) != Owner(Run(limit, calls[..j]), id)
    ensures i < k < j && Owner(Run(limit, calls[..k]), id).None?
    decreases j - i
  {
    hide Do, Owner;
    assert calls[..i + 1][..i] == calls[..i] && calls[..i + 1][i] == calls[i];
    CallHandsOver(Run(limit, calls[..i]), limit, calls[i], id);
    k := i + 1;
    if Owner(Run(limit, calls[..i + 1]), id).Some? { k := ControlPassesThroughNobody(limit, calls, i + 1, j, id); }
  }
}
