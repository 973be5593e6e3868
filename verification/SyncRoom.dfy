/** The room object: its fields are changed in place by remembering an update. */
module SyncRoom {
  import opened Basics
  import opened StateVectorSync
  import opened SyncLedger

  class StateVectorSyncRoom {
    const roomId: Id
    const replacementConfigured: bool
    const persistence: SqliteSyncUpdateLog
    var updates: seq<Applied>
    var byId: map<Id, Applied>
    var vector: StateVector

    ghost function State(): RoomState
      reads this
    {
      RoomState(roomId, updates, byId, vector)
    }

    constructor (roomId: Id, replacementConfigured: bool, persistence: SqliteSyncUpdateLog)
      modifies persistence
      ensures this.roomId == roomId && this.persistence == persistence && persistence.rows == old(persistence.rows)
      ensures this.replacementConfigured == replacementConfigured
      ensures State() == Replay(roomId, ListRoom(persistence.rows, roomId)) && Indexed(State())
    {
      this.roomId, this.replacementConfigured, this.persistence := roomId, replacementConfigured, persistence;
      updates, byId, vector := [], map[], map[];
      new;
      var log := persistence.List(roomId);
      for i := 0 to |log|
        invariant State() == Replay(roomId, log[..i])
        invariant persistence.rows == old(persistence.rows)
      {
        RememberApplied(log[i], false);
        assert log[..i + 1][..i] == log[..i];
      }
      assert log[..|log|] == log;
      ReplayIsIndexed(roomId, log);
    }

    method RememberApplied(a: Applied, persist: bool)
      modifies this, persistence
      ensures State() == Remember(old(State()), a)
      ensures persistence.rows == if persist then InsertOrIgnore(old(persistence.rows), a) else old(persistence.rows)
    {
      updates := updates + [a];
      byId := byId[a.update.updateId := a];
      vector := Bump(vector, a.update.clientId, a.update.counter);
      if persist { persistence.Append(a); }
    }

    method FindDuplicate(clientId: Id, counter: int) returns (found: Option<Applied>)
      ensures found == FindSame(updates, clientId, counter)
    {
      var i := 0;
      while i < |updates|
        invariant i <= |updates| && FindSame(updates, clientId, counter) == FindSame(updates[i..], clientId, counter)
      {
        if updates[i].update.clientId == clientId && updates[i].update.counter == counter { return Some(updates[i]); }
        i := i + 1;
      }
      found := None;
    }

    /** Everything `apply` and `applyStateReplacement` do before their `await`. */
    method Enter(u: SyncUpdate) returns (decision: Admission)
      ensures decision == Guard(State(), u, replacementConfigured)
      ensures Indexed(State()) ==> Decided(updates, roomId, u, replacementConfigured, decision)
    {
      hide Decided;
      if Indexed(State()) { GuardDecides(State(), u, replacementConfigured); }
      if u.roomId != roomId { return Reject(RoomMismatch); }
      if u.updateId in byId {
        var existing := byId[u.updateId];
        return if existing.update.kind != u.kind then Reject(KindMismatch) else AlreadyApplied(existing);
      }
      var expected := (if u.clientId in vector then vector[u.clientId] else 0) + 1;
      if u.counter < expected {
        var duplicate := FindDuplicate(u.clientId, u.counter);
        if duplicate.Some? && duplicate.value.update.kind == u.kind { return AlreadyApplied(duplicate.value); }
        return Reject(OutOfOrder);
      }
      if u.counter > expected { return Reject(CounterGap); }
      if u.kind == StateReplace && !replacementConfigured { return Reject(ReplacementNotConfigured); }
      decision := Admit;
    }

    /** The next update of a client is the one the guard admits. */
    method NextUpdate(updateId: Id, clientId: Id, kind: UpdateKind, payload: nat) returns (u: SyncUpdate)
      ensures u == SyncUpdate(updateId, roomId, clientId, Expected(State(), clientId), kind, payload)
      ensures updateId !in byId && (kind == StateReplace ==> replacementConfigured)
              ==> Guard(State(), u, replacementConfigured).Admit?
    {
      var counter := (if clientId in vector then vector[clientId] else 0) + 1;
      u := SyncUpdate(updateId, roomId, clientId, counter, kind, payload);
    }

    /** `apply` and `applyStateReplacement` when nothing runs during the `await`; `None` is a callback that threw. */
    method Apply(u: SyncUpdate, outcome: Option<nat>) returns (r: Result<Applied, SyncError>)
      modifies this, persistence
      ensures State() == ApplyAtomic(old(State()), u, replacementConfigured, outcome)
      ensures r == Reply(old(Guard(State(), u, replacementConfigured)), u, outcome)
      ensures old(Indexed(State())) ==>
                Answered(old(updates), roomId, u, replacementConfigured, outcome, r, updates)
      ensures persistence.rows
              == if old(Guard(State(), u, replacementConfigured)).Admit? && outcome.Some?
                 then InsertOrIgnore(old(persistence.rows), Applied(u, outcome.value)) else old(persistence.rows)
    {
      hide Decided, Guard;
      var decision := Enter(u);
      match decision
      case Reject(e) => r := Err(e);
      case AlreadyApplied(existing) => r := Ok(existing);
      case Admit =>
        if outcome.None? { return Err(TransactionThrew); }
        var a := Applied(u, outcome.value);
        RememberApplied(a, true);
        r := Ok(a);
    }
  }
}
