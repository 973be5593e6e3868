/** The room log of the state-vector protocol: admission, remembering, diff, and what they keep. */
module StateVectorSync {
  import opened Basics

  type StateVector = map<Id, nat>

  datatype UpdateKind = TransactionUpdate | StateReplace

  /** The transaction (or replacement state) travels as an opaque payload. */
  datatype SyncUpdate = SyncUpdate(updateId: Id, roomId: Id, clientId: Id, counter: int, kind: UpdateKind, payload: nat)

  datatype Applied = Applied(update: SyncUpdate, result: nat)

  datatype SyncError =
    | RoomMismatch | KindMismatch | OutOfOrder | CounterGap | ReplacementNotConfigured | TransactionThrew

  /** What the guard before the `await` decides. */
  datatype Admission = Admit | AlreadyApplied(existing: Applied) | Reject(error: SyncError)

  datatype RoomState = RoomState(roomId: Id, updates: seq<Applied>, byId: map<Id, Applied>, vector: StateVector)

  function Seen(v: StateVector, c: Id): nat { if c in v then v[c] else 0 }

  function Bump(v: StateVector, c: Id, n: int): StateVector { v[c := Max(Seen(v, c), n)] }

  function VectorOf(log: seq<Applied>): StateVector {
    if log == [] then map[]
    else
      var u := log[|log| - 1].update;
      Bump(VectorOf(log[..|log| - 1]), u.clientId, u.counter)
  }

  function ById(log: seq<Applied>): map<Id, Applied> {
    if log == [] then map[]
    else
      var last := log[|log| - 1];
      ById(log[..|log| - 1])[last.update.updateId := last]
  }

  function Remember(r: RoomState, a: Applied): RoomState {
    r.(updates := r.updates + [a],
       byId := r.byId[a.update.updateId := a],
       vector := Bump(r.vector, a.update.clientId, a.update.counter))
  }

  function EmptyRoom(roomId: Id): RoomState { RoomState(roomId, [], map[], map[]) }

  /** The room a constructor rebuilds from a persisted log. */
  function Replay(roomId: Id, log: seq<Applied>): RoomState {
    if log == [] then EmptyRoom(roomId)
    else Remember(Replay(roomId, log[..|log| - 1]), log[|log| - 1])
  }

  function Newer(remote: StateVector): Applied -> bool {
    (a: Applied) => a.update.counter > Seen(remote, a.update.clientId)
  }

  function Diff(log: seq<Applied>, remote: StateVector): seq<Applied> { Filter(Newer(remote), log) }

  function FindSame(log: seq<Applied>, c: Id, n: int): Option<Applied> {
    if log == [] then None
    else if log[0].update.clientId == c && log[0].update.counter == n then Some(log[0])
    else FindSame(log[1..], c, n)
  }

  function Expected(r: RoomState, c: Id): nat { Seen(r.vector, c) + 1 }

  /** The synchronous guard of `apply` and `applyStateReplacement`: everything before their `await`. */
  function Guard(r: RoomState, u: SyncUpdate, replacementConfigured: bool): Admission {
    if u.roomId != r.roomId then Reject(RoomMismatch)
    else if u.updateId in r.byId then
      if r.byId[u.updateId].update.kind != u.kind then Reject(KindMismatch)
      else AlreadyApplied(r.byId[u.updateId])
    else if u.counter < Expected(r, u.clientId) then
      match FindSame(r.updates, u.clientId, u.counter)
      case Some(duplicate) =>
        if duplicate.update.kind == u.kind then AlreadyApplied(duplicate) else Reject(OutOfOrder)
      case None => Reject(OutOfOrder)
    else if u.counter > Expected(r, u.clientId) then Reject(CounterGap)
    else if u.kind == StateReplace && !replacementConfigured then Reject(ReplacementNotConfigured)
    else Admit
  }

  /** `apply` with its transaction treated as one step; `None` is a transaction that threw. */
  function ApplyAtomic(r: RoomState, u: SyncUpdate, configured: bool, outcome: Option<nat>): RoomState {
    if Guard(r, u, configured).Admit? && outcome.Some? then Remember(r, Applied(u, outcome.value)) else r
  }

  // ---------------------------------------------------------------- invariants

  /** The vector and the id index are functions of the log. */
  ghost predicate Indexed(r: RoomState) {
    r.vector == VectorOf(r.updates) && r.byId == ById(r.updates)
  }

  function Counters(log: seq<Applied>, c: Id): set<int> {
    set a | a in log && a.update.clientId == c :: a.update.counter
  }

  function UpTo(n: nat): (r: set<int>)
    ensures forall k :: k in r <==> 1 <= k <= n
  {
    if n == 0 then {} else UpTo(n - 1) + {n}
  }

  /** Every client's remembered counters are exactly 1..vector[client]: no gap. */
  ghost predicate GapFree(log: seq<Applied>) {
    forall c: Id :: Counters(log, c) == UpTo(Seen(VectorOf(log), c))
  }

  /** Every client's counters strictly increase along the log, hence are unique. */
  ghost predicate Strict(log: seq<Applied>) {
    forall i, j :: 0 <= i < j < |log| && log[i].update.clientId == log[j].update.clientId
      ==> log[i].update.counter < log[j].update.counter
  }

  ghost predicate Positive(log: seq<Applied>) {
    forall i :: 0 <= i < |log| ==> log[i].update.counter >= 1
  }

  // ---------------------------------------------------------------- the vector of a log

  lemma VectorOfSnoc(log: seq<Applied>, a: Applied)
    ensures VectorOf(log + [a]) == Bump(VectorOf(log), a.update.clientId, a.update.counter)
    ensures ById(log + [a]) == ById(log)[a.update.updateId := a]
  {
    assert (log + [a])[..|log|] == log;
  }

  /** A client's entry is the maximum of its counters. */
  lemma {:induction false} VectorIsMaximum(log: seq<Applied>, c: Id)
    ensures forall i :: 0 <= i < |log| && log[i].update.clientId == c ==>
              log[i].update.counter <= Seen(VectorOf(log), c)
    ensures Seen(VectorOf(log), c) > 0 ==>
              exists i :: 0 <= i < |log| && log[i].update.clientId == c
                          && log[i].update.counter == Seen(VectorOf(log), c)
  {
    if log != [] {
      var init, n := log[..|log| - 1], |log| - 1;
      VectorIsMaximum(init, c);
      assert forall i :: 0 <= i < n ==> init[i] == log[i];
      var before, after := Seen(VectorOf(init), c), Seen(VectorOf(log), c);
      if after > 0 {
        if after == before {
          var i :| 0 <= i < |init| && init[i].update.clientId == c && init[i].update.counter == before;
          assert log[i] == init[i];
        } else {
          assert log[n].update.clientId == c && log[n].update.counter == after;
        }
      }
    }
  }

  lemma {:induction false} VectorGrows(log: seq<Applied>, k: nat, c: Id)
    requires k <= |log|
    ensures Seen(VectorOf(log[..k]), c) <= Seen(VectorOf(log), c)
    decreases |log|
  {
    if k == |log| {
      assert log[..k] == log;
    } else {
      var init := log[..|log| - 1];
      VectorGrows(init, k, c);
      assert init[..k] == log[..k];
    }
  }

  /** A room rebuilt from a log has that log, its vector and its id index. */
  lemma {:induction false} ReplayIsIndexed(roomId: Id, log: seq<Applied>)
    ensures var r := Replay(roomId, log); r.roomId == roomId && r.updates == log && Indexed(r)
  {
    if log != [] {
      ReplayIsIndexed(roomId, log[..|log| - 1]);
      assert log[..|log| - 1] + [log[|log| - 1]] == log;
    }
  }

  /** Hence an indexed room is the one its own log rebuilds: the persisted log loses nothing. */
  lemma IndexedIsReplay(r: RoomState)
    requires Indexed(r)
    ensures Replay(r.roomId, r.updates) == r
  {
    ReplayIsIndexed(r.roomId, r.updates);
  }

  lemma RememberIndexed(r: RoomState, a: Applied)
    requires Indexed(r)
    ensures Indexed(Remember(r, a))
  {
    VectorOfSnoc(r.updates, a);
  }

  // ---------------------------------------------------------------- diff

  lemma {:induction false} NothingNewInPrefix(log: seq<Applied>)
    ensures Diff(log, VectorOf(log)) == []
  {
    forall a | a in log ensures !Newer(VectorOf(log))(a) {
      VectorIsMaximum(log, a.update.clientId);
    }
    FilterNone(Newer(VectorOf(log)), log);
  }

  /** In a strict log, an entry is newer than every prefix that ends before it. */
  lemma NewerThanPrefix(log: seq<Applied>, k: nat, j: nat)
    requires k <= j < |log| && Strict(log) && Positive(log)
    ensures Newer(VectorOf(log[..k]))(log[j])
  {
    var c := log[j].update.clientId;
    VectorIsMaximum(log[..k], c);
    if Seen(VectorOf(log[..k]), c) > 0 {
      var i :| 0 <= i < k && log[..k][i].update.clientId == c
               && log[..k][i].update.counter == Seen(VectorOf(log[..k]), c);
      assert log[i] == log[..k][i];
      assert log[i].update.counter < log[j].update.counter;
    }
  }

  /** In a strict log, the diff of a prefix's vector is the remaining suffix. */
  lemma DiffOfPrefix(log: seq<Applied>, k: nat)
    requires k <= |log| && Strict(log) && Positive(log)
    ensures Diff(log, VectorOf(log[..k])) == log[k..]
  {
    hide Strict, Positive, VectorOf, Newer;
    var p := Newer(VectorOf(log[..k]));
    assert log == log[..k] + log[k..];
    FilterConcat(p, log[..k], log[k..]);
    NothingNewInPrefix(log[..k]);
    forall a | a in log[k..] ensures p(a) {
      var j :| k <= j < |log| && log[j] == a;
      NewerThanPrefix(log, k, j);
    }
    FilterAll(p, log[k..]);
  }

  /** A reconnecting client misses nothing, whatever prefix it holds, exactly when the log is strict. */
  lemma DiffIsExactIffStrict(log: seq<Applied>)
    requires Positive(log)
    ensures (forall k: nat :: k <= |log| ==> Diff(log, VectorOf(log[..k])) == log[k..]) <==> Strict(log)
  {
    if Strict(log) {
      forall k: nat | k <= |log| ensures Diff(log, VectorOf(log[..k])) == log[k..] { DiffOfPrefix(log, k); }
    }
    if forall k: nat :: k <= |log| ==> Diff(log, VectorOf(log[..k])) == log[k..] {
      forall i, j | 0 <= i < j < |log| && log[i].update.clientId == log[j].update.clientId
        ensures log[i].update.counter < log[j].update.counter
      {
        var v := VectorOf(log[..j]);
        assert log[j] == log[j..][0];
        FilterMember(Newer(v), log, log[j]);
        VectorIsMaximum(log[..j], log[i].update.clientId);
        assert log[..j][i] == log[i];
      }
    }
  }

  /** A replica that folded a prefix reaches the server's state by folding the diff it is sent. */
  lemma ReplicaConverges<S(!new)>(step: (S, Applied) -> S, s: S, log: seq<Applied>, k: nat)
    requires k <= |log| && Strict(log) && Positive(log)
    ensures Fold(step, Fold(step, s, log[..k]), Diff(log, VectorOf(log[..k]))) == Fold(step, s, log)
  {
    DiffOfPrefix(log, k);
    FoldConcat(step, s, log[..k], log[k..]);
    assert log[..k] + log[k..] == log;
  }

  function Fold<S>(step: (S, Applied) -> S, s: S, log: seq<Applied>): S {
    if log == [] then s else Fold(step, step(s, log[0]), log[1..])
  }

  lemma {:induction false} FoldConcat<S(!new)>(step: (S, Applied) -> S, s: S, a: seq<Applied>, b: seq<Applied>)
    ensures Fold(step, s, a + b) == Fold(step, Fold(step, s, a), b)
  {
    if a == [] {
      assert a + b == b;
    } else {
      assert (a + b)[1..] == a[1..] + b;
      FoldConcat(step, step(s, a[0]), a[1..], b);
    }
  }

  // ---------------------------------------------------------------- appending one update

  /** Remembering an admitted counter keeps the log gap-free, even when another call used it meanwhile. */
  lemma AppendGapFree(log: seq<Applied>, a: Applied)
    requires GapFree(log)
    requires 1 <= a.update.counter <= Seen(VectorOf(log), a.update.clientId) + 1
    ensures GapFree(log + [a])
  {
    VectorOfSnoc(log, a);
    forall c: Id ensures Counters(log + [a], c) == UpTo(Seen(VectorOf(log + [a]), c)) {
      assert Counters(log, c) == UpTo(Seen(VectorOf(log), c));
      assert forall x :: x in log + [a] <==> x in log || x == a;
      if c == a.update.clientId {
        assert Counters(log + [a], c) == Counters(log, c) + {a.update.counter};
      } else {
        assert Counters(log + [a], c) == Counters(log, c);
      }
    }
  }

  /** It keeps the log strict exactly when the counter is still the expected one. */
  lemma AppendStrictIff(log: seq<Applied>, a: Applied)
    requires Strict(log)
    requires 1 <= a.update.counter <= Seen(VectorOf(log), a.update.clientId) + 1
    ensures Strict(log + [a]) <==> a.update.counter == Seen(VectorOf(log), a.update.clientId) + 1
  {
    var c, n := a.update.clientId, |log|;
    var ext := log + [a];
    VectorIsMaximum(log, c);
    if a.update.counter == Seen(VectorOf(log), c) + 1 {
      forall i, j | 0 <= i < j < |ext| && ext[i].update.clientId == ext[j].update.clientId
        ensures ext[i].update.counter < ext[j].update.counter
      {
        assert ext[i] == log[i];
        if j < n { assert ext[j] == log[j]; }
      }
    } else {
      var i :| 0 <= i < n && log[i].update.clientId == c && log[i].update.counter == Seen(VectorOf(log), c);
      assert ext[i] == log[i] && ext[n] == a;
    }
  }

  lemma StrictPrefix(log: seq<Applied>, more: seq<Applied>)
    requires Strict(log + more)
    ensures Strict(log)
  {
    forall i, j | 0 <= i < j < |log| && log[i].update.clientId == log[j].update.clientId
      ensures log[i].update.counter < log[j].update.counter
    {
      assert (log + more)[i] == log[i] && (log + more)[j] == log[j];
    }
  }

  /** An atomic apply keeps a healthy room healthy; a failed transaction consumes no counter. */
  lemma ApplyAtomicKeeps(r: RoomState, u: SyncUpdate, configured: bool, outcome: Option<nat>)
    requires Indexed(r) && GapFree(r.updates) && Strict(r.updates)
    ensures var r' := ApplyAtomic(r, u, configured, outcome);
            Indexed(r') && GapFree(r'.updates) && Strict(r'.updates)
            && (r'.updates == r.updates || (|r'.updates| == |r.updates| + 1 && r'.updates[..|r.updates|] == r.updates))
    ensures outcome.None? ==> Expected(ApplyAtomic(r, u, configured, outcome), u.clientId) == Expected(r, u.clientId)
  {
    if Guard(r, u, configured).Admit? && outcome.Some? {
      var a := Applied(u, outcome.value);
      RememberIndexed(r, a);
      AppendGapFree(r.updates, a);
      AppendStrictIff(r.updates, a);
    }
  }

  lemma GapFreeIsPositive(log: seq<Applied>)
    requires GapFree(log)
    ensures Positive(log)
  {
    forall i | 0 <= i < |log| ensures log[i].update.counter >= 1 {
      assert log[i].update.counter in Counters(log, log[i].update.clientId);
    }
  }

  // ---------------------------------------------------------------- what a call is answered

  /** The last entry with this id. */
  ghost predicate LastWithId(log: seq<Applied>, id: Id, i: int) {
    0 <= i < |log| && log[i].update.updateId == id && forall j :: i < j < |log| ==> log[j].update.updateId != id
  }

  /** The first entry of the client with this counter. */
  ghost predicate FirstWithCounter(log: seq<Applied>, c: Id, n: int, i: int) {
    && 0 <= i < |log| && log[i].update.clientId == c && log[i].update.counter == n
    && forall j :: 0 <= j < i ==> log[j].update.clientId != c || log[j].update.counter != n
  }

  /** The client has an entry with this counter or a later one; counters start at 1. */
  ghost predicate Spent(log: seq<Applied>, c: Id, n: int) {
    n < 1 || exists i :: 0 <= i < |log| && log[i].update.clientId == c && log[i].update.counter >= n
  }

  /**
   * What the log says must be decided about an update: the remembered one is the answer to its own repetition, by id or
   * else by counter, if it is of the same kind; an unspent counter is admitted if the one before it is spent.
   */
  ghost predicate Decided(log: seq<Applied>, roomId: Id, u: SyncUpdate, configured: bool, d: Admission) {
    if u.roomId != roomId then d == Reject(RoomMismatch)
    else if exists i :: LastWithId(log, u.updateId, i) then
      forall i :: LastWithId(log, u.updateId, i) ==>
        d == if log[i].update.kind == u.kind then AlreadyApplied(log[i]) else Reject(KindMismatch)
    else if Spent(log, u.clientId, u.counter) then
      if exists i :: FirstWithCounter(log, u.clientId, u.counter, i) then
        forall i :: FirstWithCounter(log, u.clientId, u.counter, i) ==>
          d == if log[i].update.kind == u.kind then AlreadyApplied(log[i]) else Reject(OutOfOrder)
      else d == Reject(OutOfOrder)
    else if !Spent(log, u.clientId, u.counter - 1) then d == Reject(CounterGap)
    else d == if u.kind == StateReplace && !configured then Reject(ReplacementNotConfigured) else Admit
  }

  function Reply(d: Admission, u: SyncUpdate, outcome: Option<nat>): Result<Applied, SyncError> {
    match d
    case Reject(e) => Err(e)
    case AlreadyApplied(existing) => Ok(existing)
    case Admit => if outcome.Some? then Ok(Applied(u, outcome.value)) else Err(TransactionThrew)
  }

  /** An answer to an update and the log it leaves, judged by the log before. */
  ghost predicate Answered(log: seq<Applied>, roomId: Id, u: SyncUpdate, configured: bool, outcome: Option<nat>,
                           r: Result<Applied, SyncError>, log': seq<Applied>) {
    exists d :: Decided(log, roomId, u, configured, d) && r == Reply(d, u, outcome)
                && log' == if d.Admit? && outcome.Some? then log + [Applied(u, outcome.value)] else log
  }

  /** There is one decision, so one answer. */
  lemma DecisionIsUnique(log: seq<Applied>, roomId: Id, u: SyncUpdate, configured: bool, d: Admission, e: Admission)
    requires Decided(log, roomId, u, configured, d) && Decided(log, roomId, u, configured, e)
    ensures d == e
  {
    hide LastWithId, FirstWithCounter, Spent;
  }

  lemma {:induction false} ByIdIsLast(log: seq<Applied>, id: Id)
    ensures id in ById(log) <==> exists i :: LastWithId(log, id, i)
    ensures forall i :: LastWithId(log, id, i) ==> id in ById(log) && ById(log)[id] == log[i]
  {
    if log != [] {
      var init, n := log[..|log| - 1], |log| - 1;
      ByIdIsLast(init, id);
      if log[n].update.updateId == id {
        assert LastWithId(log, id, n);
      } else {
        forall i | LastWithId(init, id, i) ensures LastWithId(log, id, i) { }
        forall i | LastWithId(log, id, i) ensures LastWithId(init, id, i) { }
      }
    }
  }

  lemma {:induction false} FindSameIsFirst(log: seq<Applied>, c: Id, n: int)
    ensures FindSame(log, c, n).Some? <==> exists i :: FirstWithCounter(log, c, n, i)
    ensures forall i :: FirstWithCounter(log, c, n, i) ==> FindSame(log, c, n) == Some(log[i])
  {
    if log != [] {
      var rest := log[1..];
      FindSameIsFirst(rest, c, n);
      if log[0].update.clientId == c && log[0].update.counter == n {
        assert FirstWithCounter(log, c, n, 0);
      } else {
        forall i | FirstWithCounter(rest, c, n, i) ensures FirstWithCounter(log, c, n, i + 1) { }
        forall i | FirstWithCounter(log, c, n, i) ensures i > 0 && FirstWithCounter(rest, c, n, i - 1) {
          assert forall j :: 0 <= j < i - 1 ==> rest[j] == log[j + 1];
        }
      }
    }
  }

  lemma SpentIsSeen(log: seq<Applied>, c: Id, n: int)
    ensures Spent(log, c, n) <==> n <= Seen(VectorOf(log), c)
  {
    VectorIsMaximum(log, c);
  }

  /** The guard decides what the log says, about every update. */
  lemma GuardDecides(r: RoomState, u: SyncUpdate, configured: bool)
    requires Indexed(r)
    ensures Decided(r.updates, r.roomId, u, configured, Guard(r, u, configured))
  {
    hide VectorOf, ById, FindSame, Spent, LastWithId, FirstWithCounter;
    ByIdIsLast(r.updates, u.updateId);
    FindSameIsFirst(r.updates, u.clientId, u.counter);
    SpentIsSeen(r.updates, u.clientId, u.counter);
    SpentIsSeen(r.updates, u.clientId, u.counter - 1);
  }

  /** An update sent again, because its answer was lost, is answered as the first time and changes nothing. */
  lemma ResentIsAnsweredAgain(r: RoomState, u: SyncUpdate, configured: bool, result: nat, more: seq<Applied>)
    requires Indexed(r) && Guard(r, u, configured).Admit?
    requires forall a :: a in more ==> a.update.updateId != u.updateId
    ensures var log := r.updates + [Applied(u, result)] + more;
            Guard(Replay(r.roomId, log), u, configured) == AlreadyApplied(Applied(u, result))
  {
    var log, n := r.updates + [Applied(u, result)] + more, |r.updates|;
    ReplayIsIndexed(r.roomId, log);
    assert LastWithId(log, u.updateId, n);
    GuardDecides(Replay(r.roomId, log), u, configured);
  }

  // ---------------------------------------------------------------- every interleaving of calls split at their await

  /** `pending` holds the calls that passed the guard and now await their transaction. */
  datatype Concurrent = Concurrent(room: RoomState, pending: seq<SyncUpdate>)

  datatype CallEvent =
    | Call(update: SyncUpdate)
    | Settle(index: nat, outcome: Option<nat>)

  function Step(s: Concurrent, configured: bool, e: CallEvent): Concurrent {
    match e
    case Call(u) =>
      if Guard(s.room, u, configured).Admit? then s.(pending := s.pending + [u]) else s
    case Settle(i, outcome) =>
      if i >= |s.pending| then s
      else
        var room := if outcome.Some? then Remember(s.room, Applied(s.pending[i], outcome.value)) else s.room;
        Concurrent(room, s.pending[..i] + s.pending[i + 1..])
  }

  function Run(s: Concurrent, configured: bool, events: seq<CallEvent>): Concurrent
    decreases |events|
  {
    if events == [] then s else Run(Step(s, configured, events[0]), configured, events[1..])
  }

  ghost predicate Healthy(s: Concurrent) {
    && Indexed(s.room) && GapFree(s.room.updates)
    && forall i :: 0 <= i < |s.pending| ==>
         1 <= s.pending[i].counter <= Seen(s.room.vector, s.pending[i].clientId) + 1
  }

  lemma SettleKeepsHealthy(s: Concurrent, i: nat, result: nat)
    requires Healthy(s) && i < |s.pending|
    ensures Healthy(Concurrent(Remember(s.room, Applied(s.pending[i], result)), s.pending[..i] + s.pending[i + 1..]))
  {
    var a := Applied(s.pending[i], result);
    RememberIndexed(s.room, a);
    AppendGapFree(s.room.updates, a);
    hide GapFree, Indexed;
  }

  lemma StepKeepsHealthy(s: Concurrent, configured: bool, e: CallEvent)
    requires Healthy(s)
    ensures Healthy(Step(s, configured, e))
    ensures s.room.updates <= Step(s, configured, e).room.updates
  {
    hide GapFree, Indexed;
    if e.Settle? && e.index < |s.pending| && e.outcome.Some? {
      SettleKeepsHealthy(s, e.index, e.outcome.value);
    }
  }

  /** Under every interleaving, each client's remembered counters are exactly 1..vector[client]. */
  lemma {:induction false} EveryInterleavingIsGapFree(s: Concurrent, configured: bool, events: seq<CallEvent>)
    requires Healthy(s)
    ensures Healthy(Run(s, configured, events))
    ensures s.room.updates <= Run(s, configured, events).room.updates
    decreases |events|
  {
    if events != [] {
      StepKeepsHealthy(s, configured, events[0]);
      EveryInterleavingIsGapFree(Step(s, configured, events[0]), configured, events[1..]);
    }
  }

  /** The guard, asked again before remembering: no other call has taken the counter meanwhile. */
  predicate NotOvertakenBy(s: Concurrent, e: CallEvent) {
    e.Settle? && e.outcome.Some? && e.index < |s.pending| ==>
      s.pending[e.index].counter == Expected(s.room, s.pending[e.index].clientId)
  }

  /** No call settles after another call has taken its counter. */
  predicate NeverOvertaken(s: Concurrent, configured: bool, events: seq<CallEvent>)
    decreases |events|
  {
    events == [] || (NotOvertakenBy(s, events[0])
                     && NeverOvertaken(Step(s, configured, events[0]), configured, events[1..]))
  }

  /**
   * Settling keeps the log strict exactly when the counter is still the expected one; no other event adds to the log.
   */
  lemma StepStrictIff(s: Concurrent, configured: bool, e: CallEvent)
    requires Healthy(s) && Strict(s.room.updates)
    ensures Strict(Step(s, configured, e).room.updates) <==> NotOvertakenBy(s, e)
  {
    hide GapFree, Guard, Strict;
    if e.Settle? && e.outcome.Some? && e.index < |s.pending| {
      AppendStrictIff(s.room.updates, Applied(s.pending[e.index], e.outcome.value));
    }
  }

  /** A log that is not strict stays so. */
  lemma NotStrictForGood(s: Concurrent, configured: bool, events: seq<CallEvent>)
    requires Healthy(s) && !Strict(s.room.updates)
    ensures !Strict(Run(s, configured, events).room.updates)
  {
    hide Run, Strict, Healthy;
    EveryInterleavingIsGapFree(s, configured, events);
    var log, end := s.room.updates, Run(s, configured, events).room.updates;
    assert end == log + end[|log|..];
    if Strict(end) { StrictPrefix(log, end[|log|..]); }
  }

  /** A run keeps counters unique and increasing exactly when no call is overtaken at its await. */
  lemma {:induction false} StrictIffNeverOvertaken(s: Concurrent, configured: bool, events: seq<CallEvent>)
    requires Healthy(s) && Strict(s.room.updates)
    ensures Strict(Run(s, configured, events).room.updates) <==> NeverOvertaken(s, configured, events)
    decreases |events|
  {
    hide Strict, Healthy, Step, NotOvertakenBy;
    if events != [] {
      var next := Step(s, configured, events[0]);
      StepKeepsHealthy(s, configured, events[0]);
      StepStrictIff(s, configured, events[0]);
      if Strict(next.room.updates) {
        StrictIffNeverOvertaken(next, configured, events[1..]);
      } else {
        NotStrictForGood(next, configured, events[1..]);
      }
    }
  }

  /** The failing family is inhabited: two overlapping calls with one counter are both remembered, and a
      client that holds the first is never sent the second. */
  lemma OverlappingCallsLoseAnUpdate()
    ensures var u, v := SyncUpdate(1, 0, 7, 1, TransactionUpdate, 10), SyncUpdate(2, 0, 7, 1, TransactionUpdate, 20);
            var log := Run(Concurrent(EmptyRoom(0), []), true,
                           [Call(u), Call(v), Settle(0, Some(0)), Settle(0, Some(0))]).room.updates;
            log == [Applied(u, 0), Applied(v, 0)] && Diff(log, VectorOf(log[..1])) == []
  {
    var u, v := SyncUpdate(1, 0, 7, 1, TransactionUpdate, 10), SyncUpdate(2, 0, 7, 1, TransactionUpdate, 20);
    OverlappingCalls(u, v);
    SecondIsNotNewer([Applied(u, 0), Applied(v, 0)]);
  }

  /** Two calls with first counters, both let past the guard before either settles. */
  lemma OverlappingCalls(u: SyncUpdate, v: SyncUpdate)
    requires u.roomId == v.roomId == 0 && u.counter == v.counter == 1 && u.kind == v.kind == TransactionUpdate
    ensures Run(Concurrent(EmptyRoom(0), []), true, [Call(u), Call(v), Settle(0, Some(0)), Settle(0, Some(0))])
            .room == Remember(Remember(EmptyRoom(0), Applied(u, 0)), Applied(v, 0))
  {
    var call1, call2, settle := Call(u), Call(v), Settle(0, Some(0));
    var one := Remember(EmptyRoom(0), Applied(u, 0));
    var s0, s1, s2 := Concurrent(EmptyRoom(0), []), Concurrent(EmptyRoom(0), [u]), Concurrent(EmptyRoom(0), [u, v]);
    var s3, s4 := Concurrent(one, [v]), Concurrent(Remember(one, Applied(v, 0)), []);
    hide Guard, Remember;
    FirstIsAdmitted(u);
    FirstIsAdmitted(v);
    RunSteps([s0, s1, s2, s3, s4], true, [call1, call2, settle, settle]);
  }

  lemma FirstIsAdmitted(u: SyncUpdate)
    requires u.roomId == 0 && u.counter == 1 && u.kind == TransactionUpdate
    ensures Guard(EmptyRoom(0), u, true).Admit?
  {
    assert Expected(EmptyRoom(0), u.clientId) == 1;
  }

  lemma SecondIsNotNewer(log: seq<Applied>)
    requires |log| == 2 && log[0].update.clientId == log[1].update.clientId
    requires log[0].update.counter == log[1].update.counter == 1
    ensures Diff(log, VectorOf(log[..1])) == []
  {
    var c := log[0].update.clientId;
    VectorOfSnoc([], log[0]);
    assert log[..1] == [] + [log[0]];
    assert Seen(VectorOf(log[..1]), c) == 1;
    FilterNone(Newer(VectorOf(log[..1])), log);
  }

  /** A chain of single steps is a run. */
  lemma {:induction false} RunSteps(states: seq<Concurrent>, configured: bool, events: seq<CallEvent>)
    requires |states| == |events| + 1
    requires forall i :: 0 <= i < |events| ==> Step(states[i], configured, events[i]) == states[i + 1]
    ensures Run(states[0], configured, events) == states[|events|]
    decreases |events|
  {
    if events != [] { RunSteps(states[1..], configured, events[1..]); }
  }

  // ---------------------------------------------------------------- merging vectors

  function MergeTwo(a: StateVector, b: StateVector): StateVector {
    map c | c in a.Keys + b.Keys :: Max(Seen(a, c), Seen(b, c))
  }

  function MergeAll(vectors: seq<StateVector>): StateVector {
    if vectors == [] then map[] else MergeTwo(MergeAll(vectors[..|vectors| - 1]), vectors[|vectors| - 1])
  }

  /** The two nested loops of `mergeStateVectors`; the entries of one vector come in any order. */
  method MergeStateVectors(vectors: seq<StateVector>) returns (merged: StateVector)
    ensures merged == MergeAll(vectors)
  {
    merged := map[];
    for i := 0 to |vectors|
      invariant merged == MergeAll(vectors[..i])
    {
      merged := MergeEntries(merged, vectors[i]);
      assert vectors[..i + 1][..i] == vectors[..i];
    }
    assert vectors[..|vectors|] == vectors;
  }

  method MergeEntries(current: StateVector, incoming: StateVector) returns (merged: StateVector)
    ensures merged == MergeTwo(current, incoming)
  {
    merged := current;
    var entries := incoming.Keys;
    while entries != {}
      invariant entries <= incoming.Keys
      invariant merged.Keys == current.Keys + (incoming.Keys - entries)
      invariant forall c :: c in merged ==>
                  merged[c] == if c in entries then Seen(current, c) else Max(Seen(current, c), Seen(incoming, c))
      decreases entries
    {
      var c :| c in entries;
      merged := Bump(merged, c, incoming[c]);
      entries := entries - {c};
    }
  }

  /** Merging is a pointwise maximum: the least vector above all its arguments. */
  lemma {:induction false} MergeAllIsLeastUpperBound(vectors: seq<StateVector>, c: Id, bound: nat)
    ensures (forall i :: 0 <= i < |vectors| ==> Seen(vectors[i], c) <= bound) <==> Seen(MergeAll(vectors), c) <= bound
  {
    if vectors != [] {
      var init := vectors[..|vectors| - 1];
      MergeAllIsLeastUpperBound(init, c, bound);
      assert forall i :: 0 <= i < |init| ==> init[i] == vectors[i];
      if Seen(MergeAll(vectors), c) <= bound {
        forall i | 0 <= i < |vectors| ensures Seen(vectors[i], c) <= bound {
          if i < |init| { assert Seen(init[i], c) <= bound; }
        }
      }
    }
  }

  /** Merging the vector of a prefix with the vector of the log gives the vector of the log. */
  lemma MergeWithPrefix(log: seq<Applied>, k: nat)
    requires k <= |log|
    ensures MergeTwo(VectorOf(log[..k]), VectorOf(log)) == VectorOf(log)
  {
    VectorKeysGrow(log, k);
    forall c | c in VectorOf(log) ensures Seen(VectorOf(log[..k]), c) <= Seen(VectorOf(log), c) {
      VectorGrows(log, k, c);
    }
  }

  lemma {:induction false} VectorKeysGrow(log: seq<Applied>, k: nat)
    requires k <= |log|
    ensures VectorOf(log[..k]).Keys <= VectorOf(log).Keys
    decreases |log|
  {
    if k == |log| {
      assert log[..k] == log;
    } else {
      var init := log[..|log| - 1];
      VectorKeysGrow(init, k);
      assert init[..k] == log[..k];
    }
  }
}
