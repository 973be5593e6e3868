/** The persisted sync log: an append-only table with two unique keys, filled by insert-or-ignore,
    and the rooms that are rebuilt from it. */
module SyncLedger {
  import opened Basics
  import opened StateVectorSync

  /** The table's unique keys: the update id, and (room, client, counter). */
  predicate Conflicts(row: Applied, a: Applied) {
    || row.update.updateId == a.update.updateId
    || (row.update.roomId == a.update.roomId && row.update.clientId == a.update.clientId
        && row.update.counter == a.update.counter)
  }

  predicate HasConflict(rows: seq<Applied>, a: Applied) {
    exists i :: 0 <= i < |rows| && Conflicts(rows[i], a)
  }

  function InsertOrIgnore(rows: seq<Applied>, a: Applied): seq<Applied> {
    if HasConflict(rows, a) then rows else rows + [a]
  }

  function OfRoom(roomId: Id): Applied -> bool {
    (a: Applied) => a.update.roomId == roomId
  }

  function ListRoom(rows: seq<Applied>, roomId: Id): seq<Applied> { Filter(OfRoom(roomId), rows) }

  class SqliteSyncUpdateLog {
    var rows: seq<Applied>

    constructor ()
      ensures rows == []
    {
      rows := [];
    }

    method Append(a: Applied)
      modifies this
      ensures rows == InsertOrIgnore(old(rows), a)
    {
      var i := 0;
      while i < |rows|
        invariant i <= |rows|
        invariant forall j :: 0 <= j < i ==> !Conflicts(rows[j], a)
        invariant rows == old(rows)
      {
        if Conflicts(rows[i], a) { return; }
        i := i + 1;
      }
      rows := rows + [a];
    }

    method List(roomId: Id) returns (found: seq<Applied>)
      ensures found == ListRoom(rows, roomId)
    {
      found := [];
      for i := 0 to |rows|
        invariant found == ListRoom(rows[..i], roomId)
      {
        assert rows[..i + 1] == rows[..i] + [rows[i]];
        FilterConcat(OfRoom(roomId), rows[..i], [rows[i]]);
        if rows[i].update.roomId == roomId { found := found + [rows[i]]; }
      }
      assert rows[..|rows|] == rows;
    }
  }

  /** Two rows never share a key. */
  ghost predicate KeysUnique(rows: seq<Applied>) {
    forall i, j :: 0 <= i < j < |rows| ==> !Conflicts(rows[i], rows[j])
  }

  lemma InsertKeepsKeysUnique(rows: seq<Applied>, a: Applied)
    requires KeysUnique(rows)
    ensures KeysUnique(InsertOrIgnore(rows, a))
  {
  }

  // ---------------------------------------------------------------- a server: rooms in memory, one table on disk

  datatype Server = Server(rooms: map<Id, RoomState>, rows: seq<Applied>)

  datatype ServerEvent =
    | ApplyTo(roomId: Id, update: SyncUpdate, outcome: Option<nat>)  // an atomic apply in a loaded room
    | Load(roomId: Id)                                               // a room (re)built from the table

  function ServerStep(s: Server, configured: bool, e: ServerEvent): Server {
    match e
    case ApplyTo(roomId, u, outcome) =>
      if roomId in s.rooms && Guard(s.rooms[roomId], u, configured).Admit? && outcome.Some? then
        var a := Applied(u, outcome.value);
        Server(s.rooms[roomId := Remember(s.rooms[roomId], a)], InsertOrIgnore(s.rows, a))
      else s
    case Load(roomId) => s.(rooms := s.rooms[roomId := Replay(roomId, ListRoom(s.rows, roomId))])
  }

  function ServerRun(s: Server, configured: bool, events: seq<ServerEvent>): Server
    decreases |events|
  {
    if events == [] then s else ServerRun(ServerStep(s, configured, events[0]), configured, events[1..])
  }

  ghost predicate RoomOk(r: RoomState, roomId: Id) {
    && r.roomId == roomId && Indexed(r) && GapFree(r.updates) && Strict(r.updates)
    && forall a :: a in r.updates ==> a.update.roomId == roomId
  }

  /** The table holds, for every loaded room, exactly the room's log. */
  ghost predicate Durable(s: Server) {
    && (forall roomId :: roomId in s.rooms ==>
          RoomOk(s.rooms[roomId], roomId) && ListRoom(s.rows, roomId) == s.rooms[roomId].updates)
    && (forall roomId: Id :: Rebuilds(s.rows, roomId))
  }

  ghost predicate Rebuilds(rows: seq<Applied>, roomId: Id) {
    RoomOk(Replay(roomId, ListRoom(rows, roomId)), roomId)
  }

  /** An id is fresh when no row of another room carries it. */
  predicate FreshId(rows: seq<Applied>, u: SyncUpdate) {
    forall i :: 0 <= i < |rows| && rows[i].update.roomId != u.roomId ==> rows[i].update.updateId != u.updateId
  }

  lemma {:induction false} IdIndexed(log: seq<Applied>, a: Applied)
    requires a in log
    ensures a.update.updateId in ById(log)
  {
    if a != log[|log| - 1] {
      IdIndexed(log[..|log| - 1], a);
    }
  }

  /** The room's own rows never conflict with an update its guard admits. */
  lemma OwnRowsDoNotConflict(room: RoomState, rows: seq<Applied>, configured: bool, u: SyncUpdate, result: nat,
                             row: Applied)
    requires Indexed(room) && ListRoom(rows, room.roomId) == room.updates && Guard(room, u, configured).Admit?
    requires row in rows && row.update.roomId == room.roomId
    ensures !Conflicts(row, Applied(u, result))
  {
    FilterMember(OfRoom(room.roomId), rows, row);
    IdIndexed(room.updates, row);
    VectorIsMaximum(room.updates, u.clientId);
  }

  /** An admitted update conflicts with a row exactly when another room's row already has its id. */
  lemma AdmittedConflictsIff(room: RoomState, rows: seq<Applied>, configured: bool, u: SyncUpdate, result: nat)
    requires Indexed(room) && ListRoom(rows, room.roomId) == room.updates && Guard(room, u, configured).Admit?
    ensures HasConflict(rows, Applied(u, result)) <==> !FreshId(rows, u)
  {
    forall i | 0 <= i < |rows| && Conflicts(rows[i], Applied(u, result)) ensures rows[i].update.roomId != u.roomId {
      if rows[i].update.roomId == room.roomId {
        OwnRowsDoNotConflict(room, rows, configured, u, result, rows[i]);
      }
    }
  }

  lemma ListAfterInsert(rows: seq<Applied>, a: Applied, roomId: Id)
    ensures ListRoom(rows + [a], roomId) ==
            if a.update.roomId == roomId then ListRoom(rows, roomId) + [a] else ListRoom(rows, roomId)
  {
    FilterConcat(OfRoom(roomId), rows, [a]);
  }

  /** The in-memory log and the table agree after an admitted apply exactly when its id is fresh across rooms. */
  lemma PersistedIffFresh(s: Server, configured: bool, roomId: Id, u: SyncUpdate, result: nat)
    requires Durable(s) && roomId in s.rooms && Guard(s.rooms[roomId], u, configured).Admit?
    ensures var s' := ServerStep(s, configured, ApplyTo(roomId, u, Some(result)));
            ListRoom(s'.rows, roomId) == s'.rooms[roomId].updates <==> FreshId(s.rows, u)
  {
    AdmittedConflictsIff(s.rooms[roomId], s.rows, configured, u, result);
    ListAfterInsert(s.rows, Applied(u, result), roomId);
  }

  predicate FreshEvent(s: Server, e: ServerEvent) {
    e.ApplyTo? ==> FreshId(s.rows, e.update)
  }

  lemma GrownRoomOk(room: RoomState, configured: bool, u: SyncUpdate, result: nat)
    requires RoomOk(room, room.roomId) && Guard(room, u, configured).Admit?
    ensures var grown := Remember(room, Applied(u, result));
            RoomOk(grown, room.roomId) && Replay(room.roomId, grown.updates) == grown
  {
    ApplyAtomicKeeps(room, u, configured, Some(result));
    IndexedIsReplay(Remember(room, Applied(u, result)));
  }

  lemma RowsAfterApply(s: Server, configured: bool, roomId: Id, u: SyncUpdate, result: nat)
    requires Durable(s) && FreshId(s.rows, u)
    requires roomId in s.rooms && Guard(s.rooms[roomId], u, configured).Admit?
    ensures InsertOrIgnore(s.rows, Applied(u, result)) == s.rows + [Applied(u, result)]
    ensures forall other: Id :: ListRoom(s.rows + [Applied(u, result)], other)
                                == if other == roomId then s.rooms[roomId].updates + [Applied(u, result)]
                                else ListRoom(s.rows, other)
  {
    AdmittedConflictsIff(s.rooms[roomId], s.rows, configured, u, result);
    forall other: Id
      ensures ListRoom(s.rows + [Applied(u, result)], other)
              == if other == roomId then s.rooms[roomId].updates + [Applied(u, result)] else ListRoom(s.rows, other)
    {
      ListAfterInsert(s.rows, Applied(u, result), other);
    }
  }

  lemma ApplyKeepsDurable(s: Server, configured: bool, roomId: Id, u: SyncUpdate, result: nat)
    requires Durable(s) && FreshId(s.rows, u)
    requires roomId in s.rooms && Guard(s.rooms[roomId], u, configured).Admit?
    ensures Durable(ServerStep(s, configured, ApplyTo(roomId, u, Some(result))))
  {
    var a := Applied(u, result);
    var s' := ServerStep(s, configured, ApplyTo(roomId, u, Some(result)));
    RowsAfterApply(s, configured, roomId, u, result);
    GrownRoomOk(s.rooms[roomId], configured, u, result);
    forall other | other in s'.rooms
      ensures RoomOk(s'.rooms[other], other) && ListRoom(s'.rows, other) == s'.rooms[other].updates
    {
      if other != roomId { assert s'.rooms[other] == s.rooms[other]; }
    }
    forall other: Id ensures Rebuilds(s'.rows, other) {
      assert Rebuilds(s.rows, other);
    }
  }

  lemma ServerStepKeepsDurable(s: Server, configured: bool, e: ServerEvent)
    requires Durable(s) && FreshEvent(s, e)
    ensures Durable(ServerStep(s, configured, e))
  {
    match e
    case Load(roomId) =>
      ReplayIsIndexed(roomId, ListRoom(s.rows, roomId));
      assert Rebuilds(s.rows, roomId);
    case ApplyTo(roomId, u, outcome) =>
      if roomId in s.rooms && Guard(s.rooms[roomId], u, configured).Admit? && outcome.Some? {
        ApplyKeepsDurable(s, configured, roomId, u, outcome.value);
      }
  }

  ghost predicate FreshRun(s: Server, configured: bool, events: seq<ServerEvent>)
    decreases |events|
  {
    events == [] || (FreshEvent(s, events[0])
                     && FreshRun(ServerStep(s, configured, events[0]), configured, events[1..]))
  }

  /** Over any run with fresh ids, restarts included, a room rebuilt from the table is the room in memory. */
  lemma {:induction false} RebuiltRoomIsTheRoom(s: Server, configured: bool, events: seq<ServerEvent>, roomId: Id)
    requires Durable(s) && FreshRun(s, configured, events)
    ensures var end := ServerRun(s, configured, events);
            Durable(end) && (roomId in end.rooms ==> Replay(roomId, ListRoom(end.rows, roomId)) == end.rooms[roomId])
    decreases |events|
  {
    if events == [] {
      if roomId in s.rooms { IndexedIsReplay(s.rooms[roomId]); }
    } else {
      ServerStepKeepsDurable(s, configured, events[0]);
      RebuiltRoomIsTheRoom(ServerStep(s, configured, events[0]), configured, events[1..], roomId);
    }
  }

  /** A server starts durable on an empty table. */
  lemma EmptyServerIsDurable()
    ensures Durable(Server(map[], []))
  {
    forall roomId: Id ensures Rebuilds([], roomId) {
      forall c: Id ensures Counters([], c) == UpTo(Seen(VectorOf([]), c)) {}
    }
  }

  /** The failing family is inhabited: one id used in two rooms loses the second room's row. */
  lemma ReusedIdLosesARow()
    ensures var u, v := SyncUpdate(1, 0, 7, 1, TransactionUpdate, 10), SyncUpdate(1, 5, 7, 1, TransactionUpdate, 20);
            var end := ServerRun(Server(map[], []), true,
                                 [Load(0), Load(5), ApplyTo(0, u, Some(0)), ApplyTo(5, v, Some(0))]);
            5 in end.rooms && end.rooms[5].updates == [Applied(v, 0)] && ListRoom(end.rows, 5) == []
  {
    var u, v := SyncUpdate(1, 0, 7, 1, TransactionUpdate, 10), SyncUpdate(1, 5, 7, 1, TransactionUpdate, 20);
    var first := Remember(EmptyRoom(0), Applied(u, 0));
    var s0 := Server(map[], []);
    var s1 := Server(map[0 := EmptyRoom(0)], []);
    var s2 := Server(map[0 := EmptyRoom(0), 5 := EmptyRoom(5)], []);
    var s3 := Server(map[0 := first, 5 := EmptyRoom(5)], [Applied(u, 0)]);
    var s4 := ServerStep(s3, true, ApplyTo(5, v, Some(0)));
    assert ServerStep(s0, true, Load(0)) == s1 && ServerStep(s1, true, Load(5)) == s2;
    assert ServerStep(s2, true, ApplyTo(0, u, Some(0))) == s3 by { assert [] + [Applied(u, 0)] == [Applied(u, 0)]; }
    assert Conflicts(s3.rows[0], Applied(v, 0)) && s4.rows == s3.rows && s4.rooms[5].updates == [Applied(v, 0)];
    FilterNone(OfRoom(5), s4.rows);
    ServerRunSteps([s0, s1, s2, s3, s4], [Load(0), Load(5), ApplyTo(0, u, Some(0)), ApplyTo(5, v, Some(0))]);
  }

  /** A chain of single steps is a run. */
  lemma {:induction false} ServerRunSteps(states: seq<Server>, events: seq<ServerEvent>)
    requires |states| == |events| + 1
    requires forall i :: 0 <= i < |events| ==> ServerStep(states[i], true, events[i]) == states[i + 1]
    ensures ServerRun(states[0], true, events) == states[|events|]
    decreases |events|
  {
    if events != [] { ServerRunSteps(states[1..], events[1..]); }
  }
}
