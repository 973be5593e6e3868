/** What each call of the portal coordinator does to one portal and leaves of the others, and where an overlay lies. */
module PortalCalls {
  import opened Arithmetic
  import opened Basics
  import opened LivePortal
  import Coordinates

  // ---------------------------------------------------------------- where the overlay lies

  /** From the canvas to the client area and back: the world coordinate that is shown at a client coordinate. */
  function WorldAt(client: real, origin: real, camera: real, zoom: real): real
    requires zoom > 0.0
  {
    Coordinates.ToWorld(camera, zoom, client - origin)
  }

  /** The overlay covers on screen exactly what the object covers on the canvas, at any camera. */
  lemma OverlayCoversObject(t: Placement, v: Camera, c: Box)
    ensures WorldToOverlay(t, v, c).Some? <==> v.zoom > 0.0 && c.width >= 0.0 && c.height >= 0.0
    ensures WorldToOverlay(t, v, c).Some? ==>
              var r := WorldToOverlay(t, v, c).value;
              && WorldAt(r.left, c.left, v.x, v.zoom) == t.x && WorldAt(r.top, c.top, v.y, v.zoom) == t.y
              && WorldAt(r.left + r.width, c.left, v.x, v.zoom) == t.x + t.width * t.scaleX
              && WorldAt(r.top + r.height, c.top, v.y, v.zoom) == t.y + t.height * t.scaleY
  {
    hide WorldAt;
    if v.zoom > 0.0 {
      EdgeAt(c.left, t.x, v.x, v.zoom, t.width, t.scaleX);
      EdgeAt(c.top, t.y, v.y, v.zoom, t.height, t.scaleY);
    }
  }

  lemma EdgeAt(origin: real, world: real, camera: real, zoom: real, size: real, scale: real)
    requires zoom > 0.0
    ensures WorldAt(Projected(origin, world, camera, zoom), origin, camera, zoom) == world
    ensures WorldAt(Projected(origin, world, camera, zoom) + Scaled(size, scale, zoom), origin, camera, zoom)
            == world + size * scale
  {
    Quotient((world - camera) * zoom, world - camera, zoom);
    assert (world - camera) * zoom + size * scale * zoom == (world - camera + size * scale) * zoom;
    Quotient((world - camera) * zoom + size * scale * zoom, world - camera + size * scale, zoom);
  }

  lemma Quotient(x: real, q: real, d: real)
    requires d > 0.0 && x == q * d
    ensures x / d == q
  {
  }

  // ---------------------------------------------------------------- one portal and the others

  predicate Mounted(p: Portals, id: Id) { id in p.mounted }

  predicate Visible(p: Portals, id: Id) { id in p.states && p.states[id].visible }

  /** Mount, record and place in the budget are as they were. */
  ghost predicate Same(p: Portals, q: Portals, id: Id) {
    && (id in q.mounted <==> id in p.mounted) && (id in p.mounted ==> q.mounted[id] == p.mounted[id])
    && (id in q.states <==> id in p.states) && (id in p.states ==> q.states[id] == p.states[id])
    && (id in q.order <==> id in p.order)
  }

  ghost predicate OthersSame(p: Portals, q: Portals, id: Id) { forall x :: x != id ==> Same(p, q, x) }

  /** It was in the budget and is neither mounted nor visible now. */
  ghost predicate MadeRoom(p: Portals, q: Portals, id: Id) {
    id in p.order && id !in q.order && id !in q.mounted && id in q.states && q.states[id] == Idle(false)
  }

  ghost predicate OthersMakeRoom(p: Portals, q: Portals, id: Id) {
    forall x :: x != id ==> Same(p, q, x) || MadeRoom(p, q, x)
  }

  lemma LoweredOthers(p: Portals, limit: nat, id: Id, mounted: bool)
    requires Safe(p, limit)
    ensures OthersSame(p, Lowered(p, id, mounted), id) && id !in Lowered(p, id, mounted).order
  {
    WithoutKeepsOrder(p.order, id);
  }

  lemma RaisedOthers(p: Portals, limit: nat, id: Id)
    requires Safe(p, limit)
    ensures OthersMakeRoom(p, Raised(p, id, limit), id)
    ensures |p.order| < limit || id in p.order ==> OthersSame(p, Raised(p, id, limit), id)
  {
    WithoutKeepsOrder(p.order, id);
    var all, order := Fronted(p.order, id), Promoted(p.order, id, limit);
    var m := p.(order := order);
    RoomIffFits(p.order, id);
    if |all| <= limit {
      assert UnmountedAll(m, []) == m;
    } else {
      var last := all[|all| - 1];
      assert all == order + [last];
      assert last == Without(p.order, id)[|all| - 2] && last in Without(p.order, id);
      assert last !in order by { LastIsAlone(all); }
      assert UnmountedAll(m, [last]) == UnmountedAll(Unmounted(m, last), []) == Unmounted(m, last);
      forall x | x != id && x != last ensures Same(p, Unmounted(m, last), x) { assert x in order <==> x in all; }
    }
  }

  lemma LastIsAlone(all: seq<Id>)
    requires NoDuplicates(all) && all != []
    ensures all[|all| - 1] !in all[..|all| - 1]
  {
  }

  lemma RoomIffFits(order: seq<Id>, id: Id)
    requires NoDuplicates(order)
    ensures |Fronted(order, id)| == |order| + (if id in order then 0 else 1) && NoDuplicates(Fronted(order, id))
  {
    WithoutKeepsOrder(order, id);
    WithoutCount(order, id);
  }

  lemma {:induction false} WithoutCount(order: seq<Id>, id: Id)
    requires NoDuplicates(order)
    ensures |Without(order, id)| == |order| - (if id in order then 1 else 0)
  {
    if order != [] {
      WithoutCount(order[1..], id);
      assert order == [order[0]] + order[1..];
    }
  }

  // ---------------------------------------------------------------- what the calls do

  /** Deactivating takes the portal off the screen, the budget and its host, and touches no other. */
  lemma DeactivateRemoves(p: Portals, limit: nat, id: Id)
    requires Safe(p, limit)
    ensures var q := Deactivated(p, id);
            && !Mounted(q, id) && !Visible(q, id) && id !in q.order && OthersSame(p, q, id)
            && (!Mounted(p, id) ==> Same(p, q, id))
  {
    WithoutKeepsOrder(p.order, id);
    assert SafeAt(p, id);
  }

  /** So does deactivating all: when every mounted portal is listed, none is mounted or visible afterwards. */
  lemma {:induction false} DeactivateAllRemoves(p: Portals, limit: nat, ids: seq<Id>)
    requires Safe(p, limit)
    ensures var q := DeactivatedAll(p, ids);
            && Safe(q, limit) && (forall id :: id in ids ==> !Mounted(q, id) && !Visible(q, id))
            && (forall id :: id !in ids ==> Same(p, q, id))
    decreases |ids|
  {
    hide Safe, Deactivated, Visible;
    if ids != [] {
      var q := Deactivated(p, ids[0]);
      DeactivateRemoves(p, limit, ids[0]);
      DeactivatedIsSafe(p, limit, ids[0]);
      DeactivateAllRemoves(q, limit, ids[1..]);
      var r := DeactivatedAll(q, ids[1..]);
      assert ids == [ids[0]] + ids[1..];
      if ids[0] !in ids[1..] { SameIsGone(q, r, ids[0]); }
      forall id | id !in ids ensures Same(p, r, id) { assert Same(p, q, id) && Same(q, r, id); }
    }
  }

  lemma SameIsGone(p: Portals, q: Portals, id: Id)
    requires Same(p, q, id)
    ensures Mounted(q, id) == Mounted(p, id) && Visible(q, id) == Visible(p, id)
  {
  }

  /** An activation out of sight hides the portal and leaves it mounted if it was, unless the host does not answer. */
  lemma OffscreenHides(p: Portals, limit: nat, id: Id, h: Handle, a: HostAnswers)
    requires Safe(p, limit)
    ensures var (q, e) := Activated(p, limit, id, h, false, a);
            && (e == Some(HostFailed) <==> Mounted(p, id) && !a.updates)
            && (e.Some? ==> e == Some(HostFailed) && q == p)
            && (e.None? ==>
                  && (Mounted(q, id) <==> Mounted(p, id)) && (Mounted(p, id) ==> q.mounted[id] == p.mounted[id])
                  && id in q.states && q.states[id] == Idle(Mounted(p, id)) && id !in q.order && OthersSame(p, q, id))
  {
    LoweredOthers(p, limit, id, id in p.mounted);
  }

  /** A visible activation costs at most one other portal its place, and none while the budget has room. */
  lemma ActivationMakesRoom(p: Portals, limit: nat, id: Id, h: Handle, a: HostAnswers)
    requires Safe(p, limit)
    ensures var q := Activated(p, limit, id, h, true, a).0;
            && OthersMakeRoom(p, q, id) && (|p.order| < limit || id in p.order ==> OthersSame(p, q, id))
            && forall x, y :: x in p.order && y in p.order && x != id && y != id && x !in q.order && y !in q.order ==>
                 x == y
  {
    hide Raised, Safe, Activated, Same;
    var q, r := Raised(p, id, limit), Activated(p, limit, id, h, true, a).0;
    RaisedOthers(p, limit, id);
    OneMakesRoom(p, limit, id);
    PlacedOthers(p, limit, id, h, a);
    forall x | x != id ensures Onward(p, q, r, x) { SameOnward(p, q, r, x); }
    assert OthersMakeRoom(p, r, id) by {
      forall x | x != id ensures Same(p, r, x) || MadeRoom(p, r, x) { assert Onward(p, q, r, x); }
    }
    forall x, y | x in p.order && y in p.order && x != id && y != id && x !in r.order && y !in r.order ensures x == y {
      assert Onward(p, q, r, x) && Onward(p, q, r, y);
    }
    if |p.order| < limit || id in p.order {
      forall x | x != id ensures Same(p, r, x) { assert Onward(p, q, r, x); }
    }
  }

  /** What a step that leaves the portal alone does to statements about it. */
  ghost predicate Onward(p: Portals, q: Portals, r: Portals, id: Id) {
    && (Same(p, q, id) ==> Same(p, r, id)) && (MadeRoom(p, q, id) ==> MadeRoom(p, r, id))
    && (id in r.order <==> id in q.order)
  }

  lemma SameOnward(p: Portals, q: Portals, r: Portals, id: Id)
    requires Same(q, r, id)
    ensures Onward(p, q, r, id)
  {
  }

  lemma PlacedOthers(p: Portals, limit: nat, id: Id, h: Handle, a: HostAnswers)
    requires Safe(p, limit)
    ensures OthersSame(Raised(p, id, limit), Activated(p, limit, id, h, true, a).0, id)
  {
    hide Raised, SafeAt;
    var q := Raised(p, id, limit);
    RaisedIsSafe(p, limit, id);
    WithoutKeepsOrder(q.order, id);
  }

  lemma OneMakesRoom(p: Portals, limit: nat, id: Id)
    requires Safe(p, limit)
    ensures var q := Raised(p, id, limit);
            forall x, y :: x in p.order && y in p.order && x != id && y != id && x !in q.order && y !in q.order ==>
              x == y
  {
    WithoutKeepsOrder(p.order, id);
    RaisedOrder(p, limit, id);
    var all := Fronted(p.order, id);
    forall x | x in p.order && x != id && x !in Promoted(p.order, id, limit) ensures x == all[|all| - 1] {
      assert x in all;
      RoomIffFits(p.order, id);
    }
  }

  /** An activation is refused for an object that is no live portal, a provider without a host, or geometry that cannot
      be placed, in this order, and then changes nothing; otherwise it is placed where its rect is. */
  lemma ActivateChecks(p: Portals, limit: nat, id: Id, d: Option<Handle>, hosted: bool, rect: Option<OverlayRect>,
                       a: HostAnswers)
    ensures var (q, e) := Do(p, limit, Activate(id, d, hosted, rect, a));
            && (d.None? ==> q == p && e == Some(NotLive)) && (d.Some? && !hosted ==> q == p && e == Some(NoHost))
            && (d.Some? && hosted && rect.None? ==> q == p && e == Some(BadGeometry))
            && (d.Some? && hosted && rect.Some? ==> (q, e) == Activated(p, limit, id, d.value, rect.value.visible, a))
  {
    hide Activated;
  }

  /** The object is gone, no longer a live portal, or shows another resource. */
  predicate Outdated(h: Handle, o: Option<PortalObject>) { o.None? || !o.value.live || o.value.handle != h }

  /** One round of the loop for a mounted portal: an outdated one is removed, one whose host fails or whose rect is out
      of sight is hidden but stays mounted, any other is shown with the focus and the owner it had. */
  lemma SyncRound(p: Portals, limit: nat, id: Id, o: Option<PortalObject>, updates: bool)
    requires Safe(p, limit) && Mounted(p, id)
    ensures var (q, e) := SyncedOne(p, limit, id, o, updates);
            if Outdated(p.mounted[id], o) then e.None? && !Mounted(q, id) && !Visible(q, id) && OthersSame(p, q, id)
            else if o.value.rect.None? then e == Some(BadGeometry) && q == p
            else
              && Mounted(q, id) && q.mounted[id] == p.mounted[id] && id in q.states
              && e == (if updates then None else Some(HostFailed)) && id in p.states
              && (if updates && o.value.rect.value.visible
                  then q.states[id] == p.states[id].(visible := true) && id in q.order && OthersMakeRoom(p, q, id)
                       && (id in p.order ==> q.order == p.order && OthersSame(p, q, id))
                  else q.states[id] == Idle(true) && id !in q.order && OthersSame(p, q, id))
  {
    hide Raised, Fronted;
    assert SafeAt(p, id);
    if Outdated(p.mounted[id], o) {
      DeactivateRemoves(p, limit, id);
    } else {
      LoweredOthers(p, limit, id, true);
      RaisedOthers(p, limit, id);
      RaisedIsSafe(p, limit, id);
      var raised := Raised(p, id, limit);
      var shown := Shown(raised, id);
      forall x | x != id ensures Onward(p, raised, shown, x) { SameOnward(p, raised, shown, x); }
      assert OthersMakeRoom(p, shown, id) by {
        forall x | x != id ensures Same(p, shown, x) || MadeRoom(p, shown, x) { assert Onward(p, raised, shown, x); }
      }
    }
  }

  /** The loop goes through the portals in order and stops at the first error. */
  lemma {:induction false} SyncInOrder(p: Portals, limit: nat, a: seq<Id>, b: seq<Id>, objects: map<Id, PortalObject>,
                                       failing: set<Id>)
    ensures var (q, e) := Synced(p, limit, a, objects, failing);
            Synced(p, limit, a + b, objects, failing) == if e.Some? then (q, e)
            else Synced(q, limit, b, objects, failing)
    decreases |a|
  {
    hide SyncedOne;
    if a == [] {
      assert a + b == b;
    } else {
      assert (a + b)[1..] == a[1..] + b;
      var o := if a[0] in objects then Some(objects[a[0]]) else None;
      var (q, e) := SyncedOne(p, limit, a[0], o, a[0] !in failing);
      SyncInOrder(q, limit, a[1..], b, objects, failing);
    }
  }

  // ---------------------------------------------------------------- focus and control

  /** The record of one portal changed its focus or its owner, nothing else did. */
  ghost predicate OnlyRecord(p: Portals, q: Portals, id: Id, st: PortalState) {
    q == p.(states := p.states[id := st])
  }

  /** Control is given to a named principal, of a visible portal, that nobody else controls; only the owner gives it
      back, anyone may revoke it, and a refused call changes nothing. */
  lemma ControlIff(p: Portals, limit: nat, id: Id, who: Option<Id>)
    requires Safe(p, limit)
    ensures var (q, e) := Acquired(p, id, who);
            && (e.None? <==> who.Some? && Visible(p, id) && (Owner(p, id).None? || Owner(p, id) == who))
            && if e.None? then OnlyRecord(p, q, id, p.states[id].(controlOwner := who)) else q == p
    ensures var (q, e) := Released(p, id, who);
            && (e.None? <==> who.Some? && Owner(p, id) == who)
            && if e.None? then OnlyRecord(p, q, id, p.states[id].(controlOwner := None)) else q == p
    ensures var (q, e) := Revoked(p, id);
            && (e.None? <==> id in p.states)
            && if e.None? then OnlyRecord(p, q, id, p.states[id].(controlOwner := None)) else q == p
  {
    assert SafeAt(p, id);
  }

  /** A known portal can always lose the focus, and gets it exactly while it is visible. */
  lemma FocusIff(p: Portals, limit: nat, id: Id, focused: bool)
    requires Safe(p, limit)
    ensures var (q, e) := Focused(p, id, focused);
            && (e.None? <==> id in p.states && (focused ==> Visible(p, id)))
            && if e.None? then OnlyRecord(p, q, id, p.states[id].(focused := focused)) else q == p
  {
    assert SafeAt(p, id);
  }
}
