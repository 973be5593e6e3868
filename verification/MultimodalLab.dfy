/** The lab: actions leased to a frame, and undo and redo by whole-state replacement. */
module MultimodalLab {
  import opened Basics
  import opened CanvasCore
  import opened CanvasHistory
  import opened CanvasSerialization
  import opened SyncRegistry

  // ---------------------------------------------------------------- frames and freshness

  /** What an observation retains: the view its image was rendered from, and the stamp taken afterwards. */
  datatype Frame = Frame(canvasId: Id, shown: View, revision: nat, stateHash: HashedView)

  /** `observe` renders, awaits, and then reads revision and hash; `rendered` and `stamped` are the two states. */
  function Observe(rendered: CanvasState, stamped: CanvasState, c: Id): Frame
    requires c in rendered.canvases && c in stamped.canvases
  {
    Frame(c, ViewOf(rendered, c), stamped.canvases[c].revision, StateHash(stamped))
  }

  /** The synchronous checks of `#assertFreshFrame`, before its await. */
  predicate Fresh(frame: Frame, s: CanvasState, expectedRevision: nat) {
    && frame.canvasId in s.canvases
    && s.canvases[frame.canvasId].revision == frame.revision
    && frame.revision == expectedRevision
    && StateHash(s) == frame.stateHash
  }

  /** Every lab transaction is guarded by the canvas revision its action names. */
  predicate GuardedBy(tx: Transaction, c: Id, expectedRevision: nat) {
    tx.canvasId == c && CanvasRevision(c, expectedRevision) in tx.preconditions
  }

  lemma CommitMeetsRevision(s: CanvasState, action: Attempt, c: Id, expected: nat)
    requires GuardedBy(action.tx, c, expected) && Commits(s, action.tx, action.sinkOk)
    ensures c in s.canvases && s.canvases[c].revision == expected
  {
    assert Holds(s, CanvasRevision(c, expected));
  }

  lemma SameHashShowsTheSame(s: CanvasState, t: CanvasState, c: Id)
    requires StateHash(s) == StateHash(t) && c in s.canvases
    ensures ViewOf(s, c) == ViewOf(t, c)
  {
  }

  /**
   * When a lab action commits, no other transaction has committed on its canvas since the frame was stamped. The canvas
   * is then the one the frame was stamped with exactly when nothing was placed on it during the last await, and the
   * one its image showed exactly when moreover nothing altered it between rendering and stamping. `inObserve`, `idle`
   * and `inAwait` are the transactions that ran between rendering and stamping, between stamping and the check, and
   * between the check and the commit.
   */
  lemma CommitsOnWhatTheFrameShowed(
    rendered: CanvasState, inObserve: seq<Attempt>, idle: seq<Attempt>, inAwait: seq<Attempt>, c: Id, action: Attempt,
    expected: nat)
    requires WellKeyed(rendered) && c in rendered.canvases
    requires var stamped := Final(rendered, inObserve);
             && c in stamped.canvases
             && Fresh(Observe(rendered, stamped, c), Final(stamped, idle), expected)
             && GuardedBy(action.tx, c, expected)
             && Commits(Final(Final(stamped, idle), inAwait), action.tx, action.sinkOk)
    ensures var stamped := Final(rendered, inObserve);
            var checked := Final(stamped, idle);
            var base := Final(checked, inAwait);
            && c in base.canvases && c in stamped.canvases
            && CommitsOn(checked, inAwait, c) == 0
            && (ViewOf(base, c) == ViewOf(stamped, c) <==> !Altered(checked, inAwait, c))
            && (ViewOf(base, c) == Observe(rendered, stamped, c).shown
                <==> !Altered(rendered, inObserve, c) && !Altered(checked, inAwait, c))
  {
    hide WellKeyed, Commits, GuardedBy, ViewOf, Final, Altered, CommitsOn;
    var stamped := Final(rendered, inObserve);
    var checked := Final(stamped, idle);
    var base := Final(checked, inAwait);
    RevisionCountsCommits(rendered, inObserve, c);
    RevisionCountsCommits(stamped, idle, c);
    RevisionCountsCommits(checked, inAwait, c);
    CommitMeetsRevision(base, action, c, expected);
    SameHashShowsTheSame(checked, stamped, c);
    ViewsShowRevisions(rendered, c);
    ViewsShowRevisions(stamped, c);
    ViewsShowRevisions(base, c);
    if CommitsOn(rendered, inObserve, c) == 0 {
      Squeezed(ViewOf(rendered, c).objects, ViewOf(stamped, c).objects, ViewOf(base, c).objects);
    }
  }

  // ---------------------------------------------------------------- history

  datatype Entry = Entry(actionId: Id, before: CanvasState, after: CanvasState)

  /** `undo` and `redo` are stacks with their top last; `actions` are the recorded action ids. */
  datatype LabState = LabState(store: CanvasState, undo: seq<Entry>, redo: seq<Entry>, actions: set<Id>,
                               initial: CanvasState)

  /** What one action does to the lab. `leased` is the outcome of the freshness check, `observeOk` that of the
      observation taken after the change, `rooms` the sync rooms that exist at that moment. */
  datatype LabEvent =
    | Execute(actionId: Id, tx: Transaction, leased: bool, sinkOk: bool, observeOk: bool)
    | ViewportChange(actionId: Id, leased: bool, observeOk: bool)
    | Undo(actionId: Id, rooms: set<Id>, leased: bool, observeOk: bool)
    | Redo(actionId: Id, rooms: set<Id>, leased: bool, observeOk: bool)
    | ResetBenchmark(actionId: Id, rooms: set<Id>, tx: Transaction, leased: bool, sinkOk: bool, observeOk: bool)

  /** `applyTransaction` returns normally: a commit, or the replay of a known idempotency key. */
  predicate Accepted(s: CanvasState, tx: Transaction, sinkOk: bool) {
    Commits(s, tx, sinkOk) || (ValidTransaction(tx) && tx.canvasId in s.canvases && Replayed(s, tx))
  }

  function Replacement(rooms: set<Id>, store: CanvasState, target: CanvasState): Result<CanvasState, ErrorCode> {
    Replaced(rooms, store, Serialize(target))
  }

  function Recorded(s: LabState, actionId: Id, before: CanvasState, after: CanvasState): LabState {
    LabState(after, s.undo + [Entry(actionId, before, after)], [], s.actions + {actionId}, s.initial)
  }

  function ExecuteStep(s: LabState, actionId: Id, tx: Transaction, sinkOk: bool, observeOk: bool): LabState {
    if !Accepted(s.store, tx, sinkOk) then s
    else
      var after := After(s.store, tx, sinkOk);
      if observeOk then Recorded(s, actionId, s.store, after) else s.(store := after)
  }

  /** When the observation fails, the `catch` pushes the entry back although `redo` already has it. */
  function UndoStep(s: LabState, actionId: Id, rooms: set<Id>, observeOk: bool): LabState {
    if s.undo == [] then s
    else
      var entry := s.undo[|s.undo| - 1];
      match Replacement(rooms, s.store, entry.before)
      case Err(_) => s
      case Ok(store) =>
        if observeOk then LabState(store, s.undo[..|s.undo| - 1], s.redo + [entry], s.actions + {actionId}, s.initial)
        else s.(store := store, redo := s.redo + [entry])
  }

  function RedoStep(s: LabState, actionId: Id, rooms: set<Id>, observeOk: bool): LabState {
    if s.redo == [] then s
    else
      var entry := s.redo[|s.redo| - 1];
      match Replacement(rooms, s.store, entry.after)
      case Err(_) => s
      case Ok(store) =>
        if observeOk then LabState(store, s.undo + [entry], s.redo[..|s.redo| - 1], s.actions + {actionId}, s.initial)
        else s.(store := store, undo := s.undo + [entry])
  }

  function ResetStep(s: LabState, actionId: Id, rooms: set<Id>, tx: Transaction, sinkOk: bool,
                     observeOk: bool): LabState {
    match Replacement(rooms, s.store, s.initial)
    case Err(_) => s
    case Ok(base) =>
      if !Accepted(base, tx, sinkOk) then s.(store := base)
      else
        var after := After(base, tx, sinkOk);
        if observeOk then Recorded(s, actionId, s.store, after) else s.(store := after)
  }

  function Step(s: LabState, e: LabEvent): LabState {
    if e.actionId in s.actions || !e.leased then s
    else
      match e
      case Execute(id, tx, _, sinkOk, observeOk) => ExecuteStep(s, id, tx, sinkOk, observeOk)
      case ViewportChange(id, _, observeOk) => if observeOk then s.(actions := s.actions + {id}) else s
      case Undo(id, rooms, _, observeOk) => UndoStep(s, id, rooms, observeOk)
      case Redo(id, rooms, _, observeOk) => RedoStep(s, id, rooms, observeOk)
      case ResetBenchmark(id, rooms, tx, _, sinkOk, observeOk) => ResetStep(s, id, rooms, tx, sinkOk, observeOk)
  }

  function Run(s: LabState, events: seq<LabEvent>): LabState
    decreases |events|
  {
    if events == [] then s else Run(Step(s, events[0]), events[1..])
  }

  /** The entries form one line of states with the store between the two stacks. */
  ghost predicate Linked(s: LabState) {
    && (forall i :: 0 <= i < |s.undo| - 1 ==> s.undo[i].after == s.undo[i + 1].before)
    && (s.undo != [] ==> s.undo[|s.undo| - 1].after == s.store)
    && (s.redo != [] ==> s.redo[|s.redo| - 1].before == s.store)
    && (forall i :: 0 <= i < |s.redo| - 1 ==> s.redo[i + 1].after == s.redo[i].before)
  }

  /** A state the registry can always go back to: serializable, and with the lab's canvases. */
  ghost predicate Sound(s: CanvasState, initial: CanvasState) {
    WellKeyed(s) && AllValid(s) && s.rootCanvasId == initial.rootCanvasId && s.canvases.Keys == initial.canvases.Keys
  }

  ghost predicate AllSound(s: LabState) {
    && Sound(s.store, s.initial) && Sound(s.initial, s.initial)
    && (forall i :: 0 <= i < |s.undo| ==> Sound(s.undo[i].before, s.initial) && Sound(s.undo[i].after, s.initial))
    && (forall i :: 0 <= i < |s.redo| ==> Sound(s.redo[i].before, s.initial) && Sound(s.redo[i].after, s.initial))
  }

  /** Lab transactions create, patch and delete objects; none creates a canvas. */
  predicate LabTransaction(tx: Transaction) {
    forall i :: 0 <= i < |tx.operations| ==> !tx.operations[i].CreateSubcanvas? && !tx.operations[i].ReorderObject?
  }

  predicate LabBuilt(e: LabEvent) {
    (e.Execute? || e.ResetBenchmark?) ==> LabTransaction(e.tx)
  }

  lemma OperationKeepsSound(d: CanvasState, op: Operation, c: Id, initial: CanvasState)
    requires Sound(d, initial) && ApplyOperation(d, op, c).Ok? && !op.CreateSubcanvas? && !op.ReorderObject?
    ensures Sound(ApplyOperation(d, op, c).value, initial)
  {
    hide ValidObject, Without;
  }

  lemma {:induction false} OperationsKeepSound(d: CanvasState, ops: seq<Operation>, c: Id, initial: CanvasState)
    requires Sound(d, initial) && ApplyOperations(d, ops, c).Ok?
    requires forall i :: 0 <= i < |ops| ==> !ops[i].CreateSubcanvas? && !ops[i].ReorderObject?
    ensures Sound(ApplyOperations(d, ops, c).value, initial)
  {
    if ops != [] {
      var init := ops[..|ops| - 1];
      OperationsKeepSound(d, init, c, initial);
      OperationKeepsSound(ApplyOperations(d, init, c).value, ops[|ops| - 1], c, initial);
    }
  }

  lemma AfterKeepsSound(s: CanvasState, tx: Transaction, sinkOk: bool, initial: CanvasState)
    requires Sound(s, initial) && LabTransaction(tx)
    ensures Sound(After(s, tx, sinkOk), initial)
  {
    if Commits(s, tx, sinkOk) { OperationsKeepSound(s, tx.operations, tx.canvasId, initial); }
  }

  /** Replacing the state leaves the store equal to the target, for any set of rooms. */
  lemma ReplacementIsTarget(rooms: set<Id>, store: CanvasState, target: CanvasState, initial: CanvasState)
    requires Sound(store, initial) && Sound(target, initial)
    ensures Replacement(rooms, store, target) == Ok(target)
  {
    hide Serialize, Deserialize, ValidObject;
    RoundTripIff(target);
    SerializedCanvases(target);
    var listed := Serialize(target).canvases;
    assert exists i :: 0 <= i < |listed| && listed[i].id == target.rootCanvasId;
  }

  lemma StepKeepsSound(s: LabState, e: LabEvent)
    requires AllSound(s) && LabBuilt(e)
    ensures AllSound(Step(s, e)) && Step(s, e).initial == s.initial
  {
    hide Sound, Replacement, After;
    match e
    case Execute(_, tx, _, sinkOk, _) => AfterKeepsSound(s.store, tx, sinkOk, s.initial);
    case ViewportChange(_, _, _) =>
    case Undo(_, rooms, _, _) =>
      if s.undo != [] { ReplacementIsTarget(rooms, s.store, s.undo[|s.undo| - 1].before, s.initial); }
    case Redo(_, rooms, _, _) =>
      if s.redo != [] { ReplacementIsTarget(rooms, s.store, s.redo[|s.redo| - 1].after, s.initial); }
    case ResetBenchmark(_, rooms, tx, _, sinkOk, _) =>
      ReplacementIsTarget(rooms, s.store, s.initial, s.initial);
      AfterKeepsSound(s.initial, tx, sinkOk, s.initial);
  }

  /** The action either changed nothing or was observed, and a benchmark reset was not refused half-way. */
  predicate Completes(s: LabState, e: LabEvent) {
    e.actionId in s.actions || !e.leased ||
    match e
    case Execute(_, tx, _, sinkOk, observeOk) => observeOk || !Accepted(s.store, tx, sinkOk)
    case ViewportChange(_, _, _) => true
    case Undo(_, _, _, observeOk) => observeOk || s.undo == []
    case Redo(_, _, _, observeOk) => observeOk || s.redo == []
    case ResetBenchmark(_, _, tx, _, sinkOk, observeOk) => observeOk && Accepted(s.initial, tx, sinkOk)
  }

  lemma StepKeepsLinked(s: LabState, e: LabEvent)
    requires AllSound(s) && LabBuilt(e) && Linked(s) && Completes(s, e)
    ensures Linked(Step(s, e))
    ensures e.Execute? && Step(s, e) != s ==> Step(s, e).redo == []
  {
    hide Sound, Replacement, After, Accepted;
    if e.Undo? && s.undo != [] { ReplacementIsTarget(e.rooms, s.store, s.undo[|s.undo| - 1].before, s.initial); }
    if e.Redo? && s.redo != [] { ReplacementIsTarget(e.rooms, s.store, s.redo[|s.redo| - 1].after, s.initial); }
    if e.ResetBenchmark? { ReplacementIsTarget(e.rooms, s.store, s.initial, s.initial); }
  }

  predicate CompletesAll(s: LabState, events: seq<LabEvent>)
    decreases |events|
  {
    events == [] || (Completes(s, events[0]) && CompletesAll(Step(s, events[0]), events[1..]))
  }

  /** The action gets through: its id is new, its frame fresh, its change accepted, and the canvas seen afterwards. */
  predicate Effective(s: LabState, e: LabEvent) {
    e.actionId !in s.actions && e.leased && e.observeOk &&
    match e
    case Execute(_, tx, _, sinkOk, _) => Accepted(s.store, tx, sinkOk)
    case ViewportChange(_, _, _) => true
    case Undo(_, _, _, _) => s.undo != []
    case Redo(_, _, _, _) => s.redo != []
    case ResetBenchmark(_, _, tx, _, sinkOk, _) => Accepted(s.initial, tx, sinkOk)
  }

  lemma ActionRecordedIff(s: LabState, e: LabEvent)
    requires AllSound(s) && LabBuilt(e)
    ensures Step(s, e).actions == s.actions + if Effective(s, e) then {e.actionId} else {}
  {
    hide Sound, Replacement, After, Accepted;
    if e.Undo? && s.undo != [] { ReplacementIsTarget(e.rooms, s.store, s.undo[|s.undo| - 1].before, s.initial); }
    if e.Redo? && s.redo != [] { ReplacementIsTarget(e.rooms, s.store, s.redo[|s.redo| - 1].after, s.initial); }
    if e.ResetBenchmark? { ReplacementIsTarget(e.rooms, s.store, s.initial, s.initial); }
  }

  /** Over every run the recorded ids are those of the actions that got through, each of them once: sent again, such an
      action changes nothing, while one that failed may be tried again under its id. */
  lemma {:induction false} EachActionOnce(s: LabState, events: seq<LabEvent>, e: LabEvent)
    requires AllSound(s) && forall i :: 0 <= i < |events| ==> LabBuilt(events[i])
    ensures e.actionId in Run(s, events).actions
            <==> e.actionId in s.actions
                 || exists i :: 0 <= i < |events| && events[i].actionId == e.actionId
                                && Effective(Run(s, events[..i]), events[i])
    ensures e.actionId in Run(s, events).actions ==> Step(Run(s, events), e) == Run(s, events)
    decreases |events|
  {
    hide AllSound, Effective, LabBuilt;
    if events != [] {
      var s', rest := Step(s, events[0]), events[1..];
      StepKeepsSound(s, events[0]);
      ActionRecordedIff(s, events[0]);
      EachActionOnce(s', rest, e);
      assert events[..0] == [];
      forall i | 0 <= i < |rest| ensures rest[i] == events[i + 1] && Run(s', rest[..i]) == Run(s, events[..i + 1]) {
        assert events[..i + 1][1..] == rest[..i] && events[..i + 1][0] == events[0];
      }
      if i :| 0 <= i < |events| && events[i].actionId == e.actionId && Effective(Run(s, events[..i]), events[i]) {
        if i > 0 { assert events[i] == rest[i - 1] && Run(s', rest[..i - 1]) == Run(s, events[..i]); }
      }
    }
  }

  function NewLab(store: CanvasState): LabState { LabState(store, [], [], {}, store) }

  /** Undo and redo form one linear history over every run of completed lab actions. */
  lemma {:induction false} HistoryIsLinear(s: LabState, events: seq<LabEvent>)
    requires AllSound(s) && Linked(s) && CompletesAll(s, events)
    requires forall i :: 0 <= i < |events| ==> LabBuilt(events[i])
    ensures Linked(Run(s, events)) && AllSound(Run(s, events))
    decreases |events|
  {
    hide Linked, AllSound, Completes;
    if events != [] {
      StepKeepsSound(s, events[0]);
      StepKeepsLinked(s, events[0]);
      HistoryIsLinear(Step(s, events[0]), events[1..]);
    }
  }

  /** k undos with fresh action ids, then k redos. */
  function Undos(s: LabState, ids: seq<Id>, rooms: set<Id>): LabState
    decreases |ids|
  {
    if ids == [] then s else Undos(Step(s, Undo(ids[0], rooms, true, true)), ids[1..], rooms)
  }

  function Redos(s: LabState, ids: seq<Id>, rooms: set<Id>): LabState
    decreases |ids|
  {
    if ids == [] then s else Redos(Step(s, Redo(ids[0], rooms, true, true)), ids[1..], rooms)
  }

  /** Going back to the top entry's state, or on to it, cannot fail. */
  lemma UndoReplaces(s: LabState, rooms: set<Id>)
    requires AllSound(s) && s.undo != []
    ensures var entry := s.undo[|s.undo| - 1];
            Replacement(rooms, s.store, entry.before) == Ok(entry.before) && Sound(entry.after, s.initial)
  {
    ReplacementIsTarget(rooms, s.store, s.undo[|s.undo| - 1].before, s.initial);
  }

  lemma RedoReplaces(s: LabState, rooms: set<Id>)
    requires AllSound(s) && s.redo != []
    ensures var entry := s.redo[|s.redo| - 1]; Replacement(rooms, s.store, entry.after) == Ok(entry.after)
  {
    ReplacementIsTarget(rooms, s.store, s.redo[|s.redo| - 1].after, s.initial);
  }

  lemma UndoTopStep(s: LabState, a: Id, rooms: set<Id>)
    requires AllSound(s) && s.undo != [] && a !in s.actions
    ensures var entry := s.undo[|s.undo| - 1];
            Step(s, Undo(a, rooms, true, true))
            == LabState(entry.before, s.undo[..|s.undo| - 1], s.redo + [entry], s.actions + {a}, s.initial)
  {
    hide AllSound, Replacement;
    UndoReplaces(s, rooms);
  }

  lemma UndoTop(s: LabState, a: Id, rooms: set<Id>)
    requires AllSound(s) && Linked(s) && s.undo != [] && a !in s.actions
    ensures var u, entry := Step(s, Undo(a, rooms, true, true)), s.undo[|s.undo| - 1];
            && AllSound(u) && Sound(u.store, s.initial) && Sound(s.store, s.initial) && entry.after == s.store
            && Linked(u) && u.initial == s.initial
            && u == LabState(entry.before, s.undo[..|s.undo| - 1], s.redo + [entry], s.actions + {a}, s.initial)
  {
    assert s.undo[|s.undo| - 1].after == s.store && Sound(s.store, s.initial);
    assert Sound(s.undo[|s.undo| - 1].before, s.initial);
    hide AllSound, Linked, Sound, Step;
    UndoTopStep(s, a, rooms);
    assert Completes(s, Undo(a, rooms, true, true));
    StepKeepsSound(s, Undo(a, rooms, true, true));
    StepKeepsLinked(s, Undo(a, rooms, true, true));
  }

  lemma RedoTop(m: LabState, b: Id, rooms: set<Id>, entry: Entry, below: seq<Entry>)
    requires b !in m.actions && m.redo == below + [entry] && Sound(m.store, m.initial) && Sound(entry.after, m.initial)
    ensures Step(m, Redo(b, rooms, true, true))
            == LabState(entry.after, m.undo + [entry], below, m.actions + {b}, m.initial)
  {
    hide Sound, Replacement;
    ReplacementIsTarget(rooms, m.store, entry.after, m.initial);
    assert m.redo[|m.redo| - 1] == entry && m.redo[..|m.redo| - 1] == below;
    RedoGoesOn(m, b, rooms);
  }

  lemma RedoGoesOn(m: LabState, b: Id, rooms: set<Id>)
    requires b !in m.actions && m.redo != [] && Replacement(rooms, m.store, m.redo[|m.redo| - 1].after).Ok?
    ensures var entry := m.redo[|m.redo| - 1];
            Step(m, Redo(b, rooms, true, true))
            == LabState(Replacement(rooms, m.store, entry.after).value, m.undo + [entry], m.redo[..|m.redo| - 1],
                        m.actions + {b}, m.initial)
  {
    hide Replacement;
  }

  lemma {:induction false} UndosShape(s: LabState, ids: seq<Id>, rooms: set<Id>)
    ensures Undos(s, ids, rooms).actions <= s.actions + IdSet(ids) && Undos(s, ids, rooms).initial == s.initial
    decreases |ids|
  {
    if ids != [] { UndosShape(Step(s, Undo(ids[0], rooms, true, true)), ids[1..], rooms); }
  }

  lemma {:induction false} RedosShape(s: LabState, ids: seq<Id>, rooms: set<Id>)
    ensures Redos(s, ids, rooms).actions <= s.actions + IdSet(ids) && Redos(s, ids, rooms).initial == s.initial
    decreases |ids|
  {
    if ids != [] { RedosShape(Step(s, Redo(ids[0], rooms, true, true)), ids[1..], rooms); }
  }

  lemma {:induction false} RedosSnoc(s: LabState, ids: seq<Id>, b: Id, rooms: set<Id>)
    ensures Redos(s, ids + [b], rooms) == Step(Redos(s, ids, rooms), Redo(b, rooms, true, true))
    decreases |ids|
  {
    if ids == [] {
      assert [] + [b] == [b] && [b][1..] == [];
    } else {
      assert (ids + [b])[1..] == ids[1..] + [b];
      RedosSnoc(Step(s, Redo(ids[0], rooms, true, true)), ids[1..], b, rooms);
    }
  }

  /** k undos reach the state before the k-th last action; k redos then restore store, revisions, idempotency
      keys and both stacks exactly. */
  lemma {:induction false} UndosThenRedosRestore(s: LabState, ids: seq<Id>, ids': seq<Id>, rooms: set<Id>,
                                                 rooms': set<Id>)
    requires AllSound(s) && Linked(s) && 0 < |ids| == |ids'| <= |s.undo|
    requires NoDuplicates(ids + ids') && forall x :: x in ids + ids' ==> x !in s.actions
    ensures Undos(s, ids, rooms).store == s.undo[|s.undo| - |ids|].before
    ensures var end := Redos(Undos(s, ids, rooms), ids', rooms');
            end.store == s.store && end.undo == s.undo && end.redo == s.redo
    decreases |ids|
  {
    hide AllSound, Linked, Step;
    var n, entry := |ids|, s.undo[|s.undo| - 1];
    var a, b := ids[0], ids'[n - 1];
    assert a == (ids + ids')[0] && b == (ids + ids')[n + n - 1];
    assert a !in s.actions && b !in s.actions && a != b;
    UndoTop(s, a, rooms);
    var u := Step(s, Undo(a, rooms, true, true));
    var mid, mid' := ids[1..], ids'[..n - 1];
    assert mid' + [b] == ids';
    if n > 1 {
      Inner(ids, ids', s.actions);
      UndosThenRedosRestore(u, mid, mid', rooms, rooms');
    }
    var m := Redos(Undos(u, mid, rooms), mid', rooms');
    UndosShape(u, mid, rooms);
    RedosShape(Undos(u, mid, rooms), mid', rooms');
    assert b !in IdSet(mid) && b !in IdSet(mid') by { LastIsNew(ids, ids'); }
    RedoTop(m, b, rooms', entry, s.redo);
    RedosSnoc(Undos(u, mid, rooms), mid', b, rooms');
    assert s.undo[..|s.undo| - 1] + [entry] == s.undo;
  }

  lemma Inner(ids: seq<Id>, ids': seq<Id>, used: set<Id>)
    requires 1 < |ids| == |ids'| && NoDuplicates(ids + ids') && forall x :: x in ids + ids' ==> x !in used
    ensures NoDuplicates(ids[1..] + ids'[..|ids'| - 1])
    ensures forall x :: x in ids[1..] + ids'[..|ids'| - 1] ==> x !in used + {ids[0]}
  {
    var all, inner := ids + ids', ids[1..] + ids'[..|ids'| - 1];
    assert forall i :: 0 <= i < |inner| ==> inner[i] == all[i + 1];
    assert all[0] == ids[0];
  }

  lemma LastIsNew(ids: seq<Id>, ids': seq<Id>)
    requires 0 < |ids| == |ids'| && NoDuplicates(ids + ids')
    ensures ids'[|ids'| - 1] !in ids[1..] && ids'[|ids'| - 1] !in ids'[..|ids'| - 1]
  {
    var all, n := ids + ids', |ids|;
    var b, tail, init := ids'[n - 1], ids[1..], ids'[..n - 1];
    assert all[n + n - 1] == b;
    forall i | 0 <= i < |tail| ensures tail[i] != b { assert all[i + 1] == tail[i]; }
    forall i | 0 <= i < |init| ensures init[i] != b { assert all[n + i] == init[i]; }
  }

  // ---------------------------------------------------------------- where the history breaks

  /** An accepted action whose observation fails keeps the history linked exactly when it changed nothing or
      there is no history; the same for the catch branches of undo and redo. */
  lemma UnobservedExecuteIff(s: LabState, e: LabEvent)
    requires Linked(s) && e.Execute? && e.actionId !in s.actions && e.leased && Accepted(s.store, e.tx, e.sinkOk)
    ensures Linked(Step(s, e))
            <==> e.observeOk || After(s.store, e.tx, e.sinkOk) == s.store || (s.undo == [] && s.redo == [])
  {
    hide After, Accepted;
  }

  lemma UnobservedUndoIff(s: LabState, e: LabEvent)
    requires AllSound(s) && Linked(s) && e.Undo? && e.actionId !in s.actions && e.leased && s.undo != []
    ensures Linked(Step(s, e)) <==> e.observeOk || s.undo[|s.undo| - 1].before == s.store
  {
    hide AllSound, Replacement;
    UndoReplaces(s, e.rooms);
  }

  lemma UnobservedRedoIff(s: LabState, e: LabEvent)
    requires AllSound(s) && Linked(s) && e.Redo? && e.actionId !in s.actions && e.leased && s.redo != []
    ensures Linked(Step(s, e)) <==> e.observeOk || s.redo[|s.redo| - 1].after == s.store
  {
    hide AllSound, Replacement;
    RedoReplaces(s, e.rooms);
  }

  /** A reset that is refused after the base state was put in leaves the history linked only if there is none or
      the store was at the base already. */
  lemma RefusedResetIff(s: LabState, e: LabEvent)
    requires AllSound(s) && Linked(s) && e.ResetBenchmark? && e.actionId !in s.actions && e.leased
    requires !Accepted(s.initial, e.tx, e.sinkOk)
    ensures Linked(Step(s, e)) <==> s.initial == s.store || (s.undo == [] && s.redo == [])
  {
    hide Sound, Replacement, Accepted;
    ReplacementIsTarget(e.rooms, s.store, s.initial, s.initial);
  }

  // ---------------------------------------------------------------- runs that reach those failures

  const BLANK := CanvasState(0, map[0 := CanvasDocument(0, None, None, [], 0)], map[], {})

  function Shape(id: Id): CanvasObject {
    CanvasObject(id, 0, Rectangle, map[X := 0.0, Y := 0.0, Width := 1.0, Height := 1.0, Rotation := 0.0, ScaleX := 1.0,
                                       ScaleY := 1.0, ZIndex := 0.0], map[], map[], map[], 0)
  }

  /** A lab action that draws one shape, for a frame of the given revision. */
  function Draw(id: Id, revision: nat): Transaction {
    Transaction(id, 0, [CanvasRevision(0, revision)], [CreateObject(Shape(id))], None)
  }

  lemma ShapeIsValid(id: Id)
    ensures ValidObject(Shape(id)) && ValidTransaction(Draw(id, 0))
  {
    var keys := Shape(id).transform.Keys;
    forall k: TransformKey ensures k in keys { match k { case X => case Y => case _ => } }
  }

  lemma DrawCommits(s: CanvasState, id: Id, revision: nat)
    requires 0 in s.canvases && s.canvases[0].revision == revision && id !in s.objects
    ensures Commits(s, Draw(id, revision), true)
    ensures var s' := After(s, Draw(id, revision), true);
            && 0 in s'.canvases && s'.canvases[0].revision == revision + 1
            && s'.objects == s.objects[id := Shape(id)]
  {
    ShapeIsValid(id);
    var tx := Draw(id, revision);
    assert ApplyOperations(s, tx.operations[..0], 0) == Ok(s);
    assert Holds(s, tx.preconditions[0]);
  }

  /** A frame that is older than its stamp: a shape is drawn between rendering and stamping, and an action leased to the
      frame commits on a canvas that its image did not show. */
  lemma StampedAfterRendering()
    ensures var other, action := Attempt(Draw(1, 0), true), Attempt(Draw(2, 1), true);
            var stamped := Final(BLANK, [other]);
            && 0 in stamped.canvases && Fresh(Observe(BLANK, stamped, 0), stamped, 1)
            && GuardedBy(action.tx, 0, 1) && Commits(stamped, action.tx, action.sinkOk)
            && ViewOf(stamped, 0) != Observe(BLANK, stamped, 0).shown
  {
    hide ApplyOperations, Draft, Commits;
    var other := Attempt(Draw(1, 0), true);
    var stamped := After(BLANK, other.tx, true);
    assert Final(BLANK, [other]) == stamped by { assert [other][1..] == []; }
    DrawCommits(BLANK, 1, 0);
    DrawCommits(stamped, 2, 1);
    assert Draw(2, 1).preconditions[0] == CanvasRevision(0, 1);
    assert ViewOf(stamped, 0).document.revision == 1 && ViewOf(BLANK, 0).document.revision == 0;
  }

  /** The lab after one observed action. */
  function Drawn(): LabState { Step(NewLab(BLANK), Execute(1, Draw(1, 0), true, true, true)) }

  lemma DrawnIsSound()
    ensures var s := After(BLANK, Draw(1, 0), true);
            && Drawn() == LabState(s, [Entry(1, BLANK, s)], [], {1}, BLANK) && s != BLANK
            && 0 in s.canvases && s.canvases[0].revision == 1 && s.objects.Keys == {1}
    ensures AllSound(Drawn()) && Linked(Drawn())
  {
    hide ApplyOperations, Draft, Commits, After, Sound;
    DrawCommits(BLANK, 1, 0);
    BlankIsSound();
    StepKeepsSound(NewLab(BLANK), Execute(1, Draw(1, 0), true, true, true));
  }

  lemma BlankIsSound()
    ensures Sound(BLANK, BLANK)
  {
  }

  /** A second action whose observation fails leaves a history that does not end at the store. */
  lemma UnobservedExecuteBreaks()
    ensures !Linked(Run(NewLab(BLANK), [Execute(1, Draw(1, 0), true, true, true),
                                        Execute(2, Draw(2, 1), true, true, false)]))
  {
    hide Commits, After, AllSound, Linked, Step, Draw;
    var e := Execute(2, Draw(2, 1), true, true, false);
    DrawnIsSound();
    DrawCommits(Drawn().store, 2, 1);
    UnobservedExecuteIff(Drawn(), e);
    RunOfTwo(NewLab(BLANK), Execute(1, Draw(1, 0), true, true, true), e);
  }

  lemma UnobservedUndoBreaks(rooms: set<Id>)
    ensures !Linked(Run(NewLab(BLANK), [Execute(1, Draw(1, 0), true, true, true), Undo(2, rooms, true, false)]))
  {
    hide Commits, After, AllSound, Linked, Step, Draw;
    DrawnIsSound();
    UnobservedUndoIff(Drawn(), Undo(2, rooms, true, false));
    RunOfTwo(NewLab(BLANK), Execute(1, Draw(1, 0), true, true, true), Undo(2, rooms, true, false));
  }

  lemma RunOfTwo(s: LabState, a: LabEvent, b: LabEvent)
    ensures Run(s, [a, b]) == Step(Step(s, a), b)
  {
    hide Step;
    assert [a, b][1..] == [b] && [b][1..] == [];
    assert Run(Step(s, a), [b]) == Run(Step(Step(s, a), b), []);
  }

  /** The lab after an observed action and its observed undo. */
  function Undone(rooms: set<Id>): LabState {
    Run(NewLab(BLANK), [Execute(1, Draw(1, 0), true, true, true), Undo(2, rooms, true, true)])
  }

  lemma UnobservedRedoBreaks(rooms: set<Id>)
    ensures !Linked(Step(Undone(rooms), Redo(3, rooms, true, false)))
  {
    hide ApplyOperations, Draft, Commits, After, AllSound;
    DrawnIsSound();
    UndoTopStep(Drawn(), 2, rooms);
    StepKeepsSound(Drawn(), Undo(2, rooms, true, true));
    RunOfTwo(NewLab(BLANK), Execute(1, Draw(1, 0), true, true, true), Undo(2, rooms, true, true));
    UnobservedRedoIff(Undone(rooms), Redo(3, rooms, true, false));
  }

  lemma SinkRefuses(s: CanvasState, id: Id, revision: nat)
    ensures !Accepted(s, Draw(id, revision), false)
  {
    hide Draft, ValidTransaction;
  }

  /** A reset that the event sink refuses, after the base state was put in. */
  lemma RefusedResetBreaks(rooms: set<Id>)
    ensures !Linked(Run(NewLab(BLANK), [Execute(1, Draw(1, 0), true, true, true),
                                        ResetBenchmark(2, rooms, Draw(1, 0), true, false, true)]))
  {
    hide Accepted, After, AllSound, Linked, Step, Draw;
    var reset := ResetBenchmark(2, rooms, Draw(1, 0), true, false, true);
    DrawnIsSound();
    SinkRefuses(BLANK, 1, 0);
    RefusedResetIff(Drawn(), reset);
    RunOfTwo(NewLab(BLANK), Execute(1, Draw(1, 0), true, true, true), reset);
  }

  // ---------------------------------------------------------------- when a benchmark reset is accepted

  function BenchmarkTransaction(base: CanvasState, c: Id, id: Id, key: Id, ops: seq<Operation>): Transaction
    requires c in base.canvases
  {
    Transaction(id, c, [CanvasRevision(c, base.canvases[c].revision)], ops, Some(key))
  }

  function ItemIds(ops: seq<Operation>): set<Id> {
    set i | 0 <= i < |ops| && ops[i].CreateObject? :: ops[i].item.id
  }

  /** The created objects are valid, on the canvas, new to the state and pairwise distinct. */
  predicate CreatesFit(d: CanvasState, ops: seq<Operation>, c: Id) {
    ops == [] ||
    (var init, last := ops[..|ops| - 1], ops[|ops| - 1];
     && CreatesFit(d, init, c)
     && last.CreateObject? && ValidObject(last.item) && last.item.canvasId == c
     && last.item.id !in d.objects && last.item.id !in ItemIds(init))
  }

  lemma {:induction false} CreatesApplyIff(d: CanvasState, ops: seq<Operation>, c: Id)
    requires c in d.canvases && forall i :: 0 <= i < |ops| ==> ops[i].CreateObject?
    ensures ApplyOperations(d, ops, c).Ok? <==> CreatesFit(d, ops, c)
    ensures ApplyOperations(d, ops, c).Ok? ==>
              var d' := ApplyOperations(d, ops, c).value;
              d'.canvases.Keys == d.canvases.Keys && d'.objects.Keys == d.objects.Keys + ItemIds(ops)
  {
    if ops != [] {
      var init, n := ops[..|ops| - 1], |ops| - 1;
      CreatesApplyIff(d, init, c);
      hide ValidObject;
      ItemIdsSnoc(ops);
    }
  }

  lemma ItemIdsSnoc(ops: seq<Operation>)
    requires ops != [] && ops[|ops| - 1].CreateObject?
    ensures ItemIds(ops) == ItemIds(ops[..|ops| - 1]) + {ops[|ops| - 1].item.id}
  {
    var init, n := ops[..|ops| - 1], |ops| - 1;
    assert forall i :: 0 <= i < n ==> init[i] == ops[i];
    assert ops[n].item.id in ItemIds(ops);
    assert forall i :: 0 <= i < n && init[i].CreateObject? ==> ops[i].item.id in ItemIds(ops);
    assert forall i :: 0 <= i < n && ops[i].CreateObject? ==> init[i].item.id in ItemIds(init);
  }

  /** A reset is accepted exactly when its key is spent already, or its objects are valid and absent from the
      lab's initial state and the event sink takes the event. */
  lemma ResetAcceptedIff(initial: CanvasState, c: Id, id: Id, key: Id, ops: seq<Operation>, sinkOk: bool)
    requires c in initial.canvases && ops != []
    requires forall i :: 0 <= i < |ops| ==> ops[i].CreateObject? && ValidObject(ops[i].item)
    ensures Accepted(initial, BenchmarkTransaction(initial, c, id, key, ops), sinkOk)
            <==> key in initial.keys || (CreatesFit(initial, ops, c) && sinkOk)
  {
    CreatesApplyIff(initial, ops, c);
    hide ValidObject, CreatesFit;
  }

  // ---------------------------------------------------------------- the lab object

  class MultimodalCanvasLab {
    const store: CanvasStore
    const registry: CanvasSyncRegistry
    const initial: CanvasState
    var undo: seq<Entry>
    var redo: seq<Entry>
    var actions: set<Id>

    ghost predicate Valid()
      reads this, registry
    {
      registry.store == store && registry.Valid()
    }

    ghost function State(): LabState
      reads this, store
    {
      LabState(store.state, undo, redo, actions, initial)
    }

    constructor (registry: CanvasSyncRegistry)
      requires registry.Valid()
      ensures Valid() && this.registry == registry && State() == NewLab(registry.store.state)
    {
      this.registry, store, initial := registry, registry.store, registry.store.state;
      undo, redo, actions := [], [], {};
    }

    method ExecuteAction(actionId: Id, tx: Transaction, leased: bool, sinkOk: bool, observeOk: bool)
      modifies this, store
      ensures State() == Step(old(State()), Execute(actionId, tx, leased, sinkOk, observeOk))
    {
      if actionId in actions || !leased { return; }
      var before := store.state;
      var result := store.ApplyTransaction(tx, sinkOk);
      if result.Err? || !observeOk { return; }
      undo := undo + [Entry(actionId, before, store.state)];
      redo := [];
      actions := actions + {actionId};
    }

    method UndoAction(actionId: Id, snapshotId: Id, leased: bool, observeOk: bool)
      requires Valid()
      modifies this, store, registry
      ensures Valid()
      ensures State() == Step(old(State()), Undo(actionId, old(registry.server.rooms.Keys), leased, observeOk))
    {
      hide Replaced, OneReplacement, RoomBefore, CanvasIds, IdsBelow, Serialize;
      if actionId in actions || !leased || undo == [] { return; }
      var entry := undo[|undo| - 1];
      undo := undo[..|undo| - 1];
      var replaced := registry.ReplaceAll(snapshotId, snapshotId, Serialize(entry.before));
      if replaced.Err? {
        undo := undo + [entry];
        return;
      }
      redo := redo + [entry];
      if !observeOk {
        undo := undo + [entry];
        return;
      }
      actions := actions + {actionId};
    }

    method RedoAction(actionId: Id, snapshotId: Id, leased: bool, observeOk: bool)
      requires Valid()
      modifies this, store, registry
      ensures Valid()
      ensures State() == Step(old(State()), Redo(actionId, old(registry.server.rooms.Keys), leased, observeOk))
    {
      hide Replaced, OneReplacement, RoomBefore, CanvasIds, IdsBelow, Serialize;
      if actionId in actions || !leased || redo == [] { return; }
      var entry := redo[|redo| - 1];
      redo := redo[..|redo| - 1];
      var replaced := registry.ReplaceAll(snapshotId, snapshotId, Serialize(entry.after));
      if replaced.Err? {
        redo := redo + [entry];
        return;
      }
      undo := undo + [entry];
      if !observeOk {
        redo := redo + [entry];
        return;
      }
      actions := actions + {actionId};
    }

    method ResetToBenchmark(actionId: Id, snapshotId: Id, tx: Transaction, leased: bool, sinkOk: bool, observeOk: bool)
      requires Valid()
      modifies this, store, registry
      ensures Valid()
      ensures State() == Step(old(State()),
                              ResetBenchmark(actionId, old(registry.server.rooms.Keys), tx, leased, sinkOk, observeOk))
    {
      hide Replaced, Draft, Replayed;
      if actionId in actions || !leased { return; }
      var before := store.state;
      var replaced := registry.ReplaceAll(snapshotId, snapshotId, Serialize(initial));
      if replaced.Err? { return; }
      var result := store.ApplyTransaction(tx, sinkOk);
      if result.Err? || !observeOk { return; }
      undo := undo + [Entry(actionId, before, store.state)];
      redo := [];
      actions := actions + {actionId};
    }
  }
}
