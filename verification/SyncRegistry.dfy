/** Rooms per canvas over one store, and the replacement of the whole state through every room. */
module SyncRegistry {
  import opened Basics
  import opened StateVectorSync
  import opened SyncLedger
  import CanvasCore
  import CanvasHistory
  import opened CanvasSerialization

  /** Every canvas of the input has a room already or is in the store. */
  predicate AllKnown(rooms: set<Id>, store: CanvasCore.CanvasState, input: Serialized) {
    forall i :: 0 <= i < |input.canvases| ==> input.canvases[i].id in rooms || input.canvases[i].id in store.canvases
  }

  /** The state the store holds after a whole-state replacement, for any set of rooms. */
  function Replaced(rooms: set<Id>, store: CanvasCore.CanvasState, input: Serialized)
    : Result<CanvasCore.CanvasState, CanvasCore.ErrorCode>
  {
    if !AllKnown(rooms, store, input) then Err(CanvasCore.NotFound)
    else if rooms == {} && input.canvases == [] then Ok(store)  // no room, so nothing is replaced
    else
      match Deserialize(input)
      case Err(e) => Err(e)
      case Ok(s) => if CanvasHistory.Restorable(store, s) then Ok(s) else Err(CanvasCore.InvalidOperation)
  }

  /** A canvas's room: the one in memory, or else the one its rows rebuild. */
  ghost function RoomBefore(s: Server, c: Id): RoomState {
    if c in s.rooms then s.rooms[c] else Replay(c, ListRoom(s.rows, c))
  }

  function CanvasIds(input: Serialized): set<Id> { set i | 0 <= i < |input.canvases| :: input.canvases[i].id }

  lemma SerializedIds(t: CanvasCore.CanvasState)
    requires CanvasCore.WellKeyed(t)
    ensures CanvasIds(Serialize(t)) == t.canvases.Keys
  {
    hide Serialize;
    SerializedCanvases(t);
    var listed := Serialize(t).canvases;
    forall c | c in t.canvases ensures c in CanvasIds(Serialize(t)) {
      var i :| 0 <= i < |listed| && listed[i].id == c;
    }
    forall c | c in CanvasIds(Serialize(t)) ensures c in t.canvases {
      var i :| 0 <= i < |listed| && listed[i].id == c;
    }
  }

  /** A state replaces the store's exactly when each of its canvases is known, its objects are valid and it has the
      store's root; an unknown canvas is found out first. */
  lemma ReplacedIff(rooms: set<Id>, store: CanvasCore.CanvasState, t: CanvasCore.CanvasState)
    requires CanvasCore.WellKeyed(t)
    ensures var r, known := Replaced(rooms, store, Serialize(t)), t.canvases.Keys <= rooms + store.canvases.Keys;
            && (r.Ok? <==> known && CanvasCore.AllValid(t) && t.rootCanvasId == store.rootCanvasId)
            && (r.Ok? ==> r.value == t) && (!known ==> r == Err(CanvasCore.NotFound))
  {
    hide Serialize, Deserialize, CanvasCore.ValidObject;
    SerializedIds(t);
    KnownIff(rooms, store, Serialize(t));
    RoundTripIff(t);
    SerializedIsRead(t);
    assert t.rootCanvasId in CanvasIds(Serialize(t));
  }

  lemma KnownIff(rooms: set<Id>, store: CanvasCore.CanvasState, input: Serialized)
    ensures AllKnown(rooms, store, input) <==> CanvasIds(input) <= rooms + store.canvases.Keys
  {
    forall i | 0 <= i < |input.canvases| ensures input.canvases[i].id in CanvasIds(input) { }
  }

  /** Reading a serialized keyed state fails for its objects alone. */
  lemma SerializedIsRead(t: CanvasCore.CanvasState)
    requires CanvasCore.WellKeyed(t)
    ensures Deserialize(Serialize(t)).Ok? ==> Deserialize(Serialize(t)) == Ok(t)
  {
    hide Serialize, CanvasCore.ValidObject;
    SerializedParts(t);
  }

  class CanvasSyncRegistry {
    const store: CanvasCore.CanvasStore
    var server: Server
    var nextUuid: Id

    ghost predicate Valid()
      reads this
    {
      Durable(server) && IdsBelow(server, nextUuid)
    }

    constructor (store: CanvasCore.CanvasStore)
      ensures Valid() && this.store == store && server == Server(map[], [])
    {
      this.store, server, nextUuid := store, Server(map[], []), 0;
      EmptyServerIsDurable();
    }

    method RoomFor(canvasId: Id) returns (r: Result<(), CanvasCore.ErrorCode>)
      requires Valid()
      modifies this
      ensures Valid() && server.rows == old(server.rows)
      ensures r.Ok? <==> canvasId in old(server.rooms) || canvasId in store.state.canvases
      ensures server.rooms.Keys == if r.Ok? then old(server.rooms.Keys) + {canvasId} else old(server.rooms.Keys)
      ensures forall c :: c in server.rooms ==> server.rooms[c] == RoomBefore(old(server), c)
    {
      if canvasId in server.rooms { return Ok(()); }
      if canvasId !in store.state.canvases { return Err(CanvasCore.NotFound); }
      LoadKeepsIdsBelow(server, canvasId, nextUuid);
      ServerStepKeepsDurable(server, true, Load(canvasId));
      server := ServerStep(server, true, Load(canvasId));
      r := Ok(());
    }

    /** `nextStateReplacement` and `applyStateReplacement` of one room, whose callback restores the store. */
    method ReplaceInRoom(c: Id, clientId: Id, snapshotId: nat, input: Serialized)
      returns (r: Result<(), CanvasCore.ErrorCode>)
      requires Valid() && c in server.rooms
      modifies this, store
      ensures Valid()
      ensures r.Ok? <==> Deserialize(input).Ok? && CanvasHistory.Restorable(old(store.state), Deserialize(input).value)
      ensures store.state == if r.Ok? then Deserialize(input).value else old(store.state)
      ensures r.Err? ==> server == old(server)
      ensures r.Ok? ==> ReplacedOnce(old(server.rooms), server.rooms, c, clientId)
    {
      hide Durable, IdsBelow, Guard;
      var state := Deserialize(input);
      if state.Err? { return Err(state.error); }
      var restored := store.Restore(state.value);
      if restored.Err? { return Err(restored.error); }
      var room := server.rooms[c];
      var u := SyncUpdate(nextUuid, c, clientId, Expected(room, clientId), StateReplace, snapshotId);
      ReplacementIsAdmitted(server, c, u, snapshotId);
      server := ServerStep(server, true, ApplyTo(c, u, Some(snapshotId)));
      nextUuid := nextUuid + 1;
      r := Ok(());
    }

    /** The first loop: a room for every canvas of the input, or a failure at the first unknown one. */
    method LoadRooms(input: Serialized) returns (r: Result<(), CanvasCore.ErrorCode>)
      requires Valid()
      modifies this
      ensures Valid() && server.rows == old(server.rows)
      ensures forall c :: c in server.rooms ==> server.rooms[c] == RoomBefore(old(server), c)
      ensures r.Ok? <==> AllKnown(old(server.rooms.Keys), store.state, input)
      ensures r.Ok? ==> server.rooms.Keys == old(server.rooms.Keys) + CanvasIds(input)
    {
      hide Durable, IdsBelow, ListRoom, Replay;
      for i := 0 to |input.canvases|
        invariant Valid() && server.rows == old(server.rows)
        invariant forall c :: c in server.rooms ==> server.rooms[c] == RoomBefore(old(server), c)
        invariant server.rooms.Keys <= old(server.rooms.Keys) + store.state.canvases.Keys
        invariant server.rooms.Keys == old(server.rooms.Keys) + set j | 0 <= j < i :: input.canvases[j].id
        invariant forall j :: 0 <= j < i ==> input.canvases[j].id in server.rooms
      {
        var known := RoomFor(input.canvases[i].id);
        if known.Err? { return Err(known.error); }
      }
      r := Ok(());
    }

    /** The second loop: every room takes the replacement, in any order. */
    method ReplaceInAllRooms(clientId: Id, snapshotId: nat, input: Serialized)
      returns (r: Result<(), CanvasCore.ErrorCode>)
      requires Valid() && server.rooms.Keys != {}
      modifies this, store
      ensures Valid()
      ensures r.Ok? <==> Deserialize(input).Ok? && CanvasHistory.Restorable(old(store.state), Deserialize(input).value)
      ensures store.state == if r.Ok? then Deserialize(input).value else old(store.state)
      ensures r.Ok? ==> AllReplaced(old(server.rooms), server.rooms, clientId)
      ensures r.Err? ==> server == old(server)
    {
      hide Durable, IdsBelow;
      var c0 :| c0 in server.rooms;
      ghost var rooms0 := server.rooms;
      var todo := server.rooms.Keys - {c0};
      var first := ReplaceInRoom(c0, clientId, snapshotId, input);
      if first.Err? { return Err(first.error); }
      while todo != {}
        invariant Valid() && todo <= server.rooms.Keys == rooms0.Keys
        invariant store.state == Deserialize(input).value && CanvasHistory.Restorable(store.state, store.state)
        invariant forall c :: c in todo ==> server.rooms[c] == rooms0[c]
        invariant forall c :: c in rooms0 && c !in todo ==> OneReplacement(rooms0[c], server.rooms[c], clientId)
        decreases todo
      {
        var c :| c in todo;
        var done := ReplaceInRoom(c, clientId, snapshotId, input);
        todo := todo - {c};
      }
      r := Ok(());
    }

    /**
     * It succeeds exactly when every canvas is known and the input is a state of this workspace. The store is then
     * equal to the input, every canvas of the input has a room, and every room, those loaded by the call included, has
     * exactly one new entry. Otherwise the store, the rows and the rooms are untouched but for rooms loaded.
     */
    method ReplaceAll(clientId: Id, snapshotId: nat, input: Serialized) returns (r: Result<(), CanvasCore.ErrorCode>)
      requires Valid()
      modifies this, store
      ensures Valid()
      ensures r.Ok? <==> Replaced(old(server.rooms.Keys), old(store.state), input).Ok?
      ensures r.Ok? ==> store.state == Replaced(old(server.rooms.Keys), old(store.state), input).value
      ensures r.Err? ==> store.state == old(store.state)
      ensures r.Ok? ==> server.rooms.Keys == old(server.rooms.Keys) + CanvasIds(input)
      ensures r.Ok? ==> forall c :: c in server.rooms ==>
                          OneReplacement(RoomBefore(old(server), c), server.rooms[c], clientId)
      ensures r.Err? ==> server.rows == old(server.rows)
      ensures r.Err? ==> forall c :: c in server.rooms ==> server.rooms[c] == RoomBefore(old(server), c)
    {
      var loaded := LoadRooms(input);
      if loaded.Err? { return Err(loaded.error); }
      assert input.canvases != [] ==> input.canvases[0].id in CanvasIds(input);
      if server.rooms.Keys == {} { return Ok(()); }
      r := ReplaceInAllRooms(clientId, snapshotId, input);
    }
  }

  ghost predicate AllReplaced(before: map<Id, RoomState>, after: map<Id, RoomState>, clientId: Id) {
    after.Keys == before.Keys && forall c :: c in before ==> OneReplacement(before[c], after[c], clientId)
  }

  /** The room's log grew by one state replacement of this client, with its next counter. */
  ghost predicate OneReplacement(before: RoomState, after: RoomState, clientId: Id) {
    && |after.updates| == |before.updates| + 1 && before.updates <= after.updates
    && var u := after.updates[|before.updates|].update;
       u.clientId == clientId && u.kind == StateReplace && u.counter == Expected(before, clientId)
  }

  ghost predicate ReplacedOnce(before: map<Id, RoomState>, after: map<Id, RoomState>, c: Id, clientId: Id)
    requires c in before
  {
    && after.Keys == before.Keys && OneReplacement(before[c], after[c], clientId)
    && forall x :: x in before && x != c ==> after[x] == before[x]
  }

  // ---------------------------------------------------------------- fresh ids

  ghost predicate IdsBelow(s: Server, bound: Id) {
    && (forall i :: 0 <= i < |s.rows| ==> s.rows[i].update.updateId < bound)
    && (forall c :: c in s.rooms ==> forall k :: k in s.rooms[c].byId ==> k < bound)
  }

  lemma {:induction false} IdsOfLog(log: seq<Applied>, bound: Id)
    requires forall a :: a in log ==> a.update.updateId < bound
    ensures forall k :: k in ById(log) ==> k < bound
  {
    if log != [] { IdsOfLog(log[..|log| - 1], bound); }
  }

  lemma LoadKeepsIdsBelow(s: Server, c: Id, bound: Id)
    requires IdsBelow(s, bound)
    ensures IdsBelow(ServerStep(s, true, Load(c)), bound)
  {
    var log := ListRoom(s.rows, c);
    ReplayIsIndexed(c, log);
    forall a | a in log ensures a.update.updateId < bound { FilterMember(OfRoom(c), s.rows, a); }
    IdsOfLog(log, bound);
  }

  /** A replacement with the client's next counter and a fresh id is admitted, remembered and persisted. */
  lemma ReplacementIsAdmitted(s: Server, c: Id, u: SyncUpdate, result: nat)
    requires Durable(s) && IdsBelow(s, u.updateId) && c in s.rooms
    requires u.roomId == c && u.kind == StateReplace && u.counter == Expected(s.rooms[c], u.clientId)
    ensures var s' := ServerStep(s, true, ApplyTo(c, u, Some(result)));
            && Durable(s') && IdsBelow(s', u.updateId + 1)
            && s'.rooms == s.rooms[c := Remember(s.rooms[c], Applied(u, result))]
  {
    assert Guard(s.rooms[c], u, true).Admit?;
    ApplyKeepsIdsBelow(s, c, u);
    ServerStepKeepsDurable(s, true, ApplyTo(c, u, Some(result)));
  }

  lemma ApplyKeepsIdsBelow(s: Server, c: Id, u: SyncUpdate)
    requires IdsBelow(s, u.updateId) && c in s.rooms
    ensures FreshId(s.rows, u)
    ensures forall result: nat :: IdsBelow(ServerStep(s, true, ApplyTo(c, u, Some(result))), u.updateId + 1)
  {
  }
}
