/** What runs of transactions, snapshots and restores keep. */
module CanvasHistory {
  import opened Basics
  import opened CanvasCore

  datatype Attempt = Attempt(tx: Transaction, sinkOk: bool)

  predicate BuiltByCallers(tx: Transaction) {
    forall i :: 0 <= i < |tx.operations| ==> CallerBuilt(tx.operations[i], tx.canvasId)
  }

  // ---------------------------------------------------------------- one transaction

  lemma {:induction false} OperationsKeepIndex(d: CanvasState, ops: seq<Operation>, c: Id)
    requires WellKeyed(d) && ApplyOperations(d, ops, c).Ok?
    requires forall i :: 0 <= i < |ops| ==> CallerBuilt(ops[i], c)
    requires Indexed(d)
    ensures var d' := ApplyOperations(d, ops, c).value; WellKeyed(d') && Indexed(d')
  {
    if ops != [] {
      var init := ops[..|ops| - 1];
      OperationsKeepIndex(d, init, c);
      OperationKeepsIndexIff(ApplyOperations(d, init, c).value, ops[|ops| - 1], c);
    }
  }

  lemma {:induction false} OperationsKeepTree(d: CanvasState, ops: seq<Operation>, c: Id)
    requires Tree(d) && ApplyOperations(d, ops, c).Ok?
    ensures var d' := ApplyOperations(d, ops, c).value;
            Tree(d') && d.canvases.Keys <= d'.canvases.Keys && d'.rootCanvasId == d.rootCanvasId && d'.keys == d.keys
  {
    if ops != [] {
      var init := ops[..|ops| - 1];
      OperationsKeepTree(d, init, c);
      OperationKeepsTree(ApplyOperations(d, init, c).value, ops[|ops| - 1], c);
    }
  }

  lemma TreeIgnoresRevisions(s: CanvasState, s': CanvasState)
    requires Tree(s) && s'.canvases.Keys == s.canvases.Keys && SameLinks(s.canvases, s'.canvases)
             && s'.rootCanvasId == s.rootCanvasId
    ensures Tree(s')
  {
    forall c | c in s'.canvases ensures Rooted(s', c) {
      assert Rooted(s, c);
      var p: seq<Id> :| IsPath(s.canvases, s.rootCanvasId, c, p);
      assert IsPath(s'.canvases, s'.rootCanvasId, c, p);
    }
  }

  lemma AfterKeepsTree(s: CanvasState, a: Attempt)
    requires Tree(s)
    ensures Tree(After(s, a.tx, a.sinkOk)) && After(s, a.tx, a.sinkOk).rootCanvasId == s.rootCanvasId
  {
    if Commits(s, a.tx, a.sinkOk) {
      OperationsKeepTree(s, a.tx.operations, a.tx.canvasId);
      TreeIgnoresRevisions(ApplyOperations(s, a.tx.operations, a.tx.canvasId).value, After(s, a.tx, a.sinkOk));
    }
  }

  lemma AfterKeepsIndex(s: CanvasState, a: Attempt)
    requires WellKeyed(s) && Indexed(s) && BuiltByCallers(a.tx)
    ensures WellKeyed(After(s, a.tx, a.sinkOk)) && Indexed(After(s, a.tx, a.sinkOk))
  {
    if Commits(s, a.tx, a.sinkOk) {
      OperationsKeepIndex(s, a.tx.operations, a.tx.canvasId);
      var d, s' := ApplyOperations(s, a.tx.operations, a.tx.canvasId).value, After(s, a.tx, a.sinkOk);
      forall c | c in s'.canvases ensures IndexedCanvas(s', c) {
        assert IndexedCanvas(d, c);
        assert ObjectsOn(s', c) == ObjectsOn(d, c);
      }
    }
  }

  // ---------------------------------------------------------------- runs with snapshots and restores

  datatype StoreStep =
    | Transact(attempt: Attempt)
    | TakeSnapshot
    | RestoreTo(index: nat)

  datatype Archive = Archive(state: CanvasState, snapshots: seq<CanvasState>)

  predicate Restorable(s: CanvasState, snapshot: CanvasState) {
    snapshot.rootCanvasId == s.rootCanvasId && snapshot.rootCanvasId in snapshot.canvases
  }

  function StoreStepOf(a: Archive, step: StoreStep): Archive {
    match step
    case Transact(attempt) => a.(state := After(a.state, attempt.tx, attempt.sinkOk))
    case TakeSnapshot => a.(snapshots := a.snapshots + [a.state])
    case RestoreTo(i) =>
      if i < |a.snapshots| && Restorable(a.state, a.snapshots[i]) then a.(state := a.snapshots[i]) else a
  }

  function StoreRun(a: Archive, steps: seq<StoreStep>): Archive
    decreases |steps|
  {
    if steps == [] then a else StoreRun(StoreStepOf(a, steps[0]), steps[1..])
  }

  function NewStore(root: Id): Archive {
    Archive(CanvasState(root, map[root := CanvasDocument(root, None, None, [], 0)], map[], {}), [])
  }

  ghost predicate AllTrees(a: Archive) {
    Tree(a.state) && forall i :: 0 <= i < |a.snapshots| ==> Tree(a.snapshots[i])
  }

  ghost predicate AllIndexed(a: Archive) {
    && WellKeyed(a.state) && Indexed(a.state)
    && forall i :: 0 <= i < |a.snapshots| ==> WellKeyed(a.snapshots[i]) && Indexed(a.snapshots[i])
  }

  lemma {:induction false} RunKeepsTrees(a: Archive, steps: seq<StoreStep>)
    requires AllTrees(a)
    ensures AllTrees(StoreRun(a, steps))
    decreases |steps|
  {
    if steps != [] {
      if steps[0].Transact? { AfterKeepsTree(a.state, steps[0].attempt); }
      RunKeepsTrees(StoreStepOf(a, steps[0]), steps[1..]);
    }
  }

  /** In every store reached from a parentless root, whatever the transactions and restores, each canvas has
      exactly one path from the root, so the lineage loop meets neither a cycle nor a missing parent. */
  lemma LineageStaysATree(root: Id, steps: seq<StoreStep>, target: Id)
    ensures var s := StoreRun(NewStore(root), steps).state;
            Tree(s) && (target in s.canvases ==>
              exists p: seq<Id> :: IsPath(s.canvases, s.rootCanvasId, target, p) && NoDuplicates(p)
                && forall q: seq<Id> :: IsPath(s.canvases, s.rootCanvasId, target, q) ==> q == p)
  {
    var start := NewStore(root);
    assert IsPath(start.state.canvases, root, root, [root]);
    assert Rooted(start.state, root);
    RunKeepsTrees(start, steps);
    var s := StoreRun(start, steps).state;
    if target in s.canvases {
      assert Rooted(s, target);
      var p: seq<Id> :| IsPath(s.canvases, s.rootCanvasId, target, p);
      PathHasNoRepeats(s.canvases, s.rootCanvasId, target, p);
      forall q: seq<Id> | IsPath(s.canvases, s.rootCanvasId, target, q) ensures q == p {
        PathIsUnique(s.canvases, s.rootCanvasId, s.rootCanvasId, target, q, p);
      }
    }
  }

  lemma {:induction false} RunKeepsIndex(a: Archive, steps: seq<StoreStep>)
    requires AllIndexed(a)
    requires forall i :: 0 <= i < |steps| && steps[i].Transact? ==> BuiltByCallers(steps[i].attempt.tx)
    ensures AllIndexed(StoreRun(a, steps))
    decreases |steps|
  {
    if steps != [] {
      if steps[0].Transact? { AfterKeepsIndex(a.state, steps[0].attempt); }
      RunKeepsIndex(StoreStepOf(a, steps[0]), steps[1..]);
    }
  }

  /** Every canvas's objectIds is duplicate-free and is what a scan of the object map finds. */
  lemma IndexStaysExact(root: Id, steps: seq<StoreStep>)
    requires forall i :: 0 <= i < |steps| && steps[i].Transact? ==> BuiltByCallers(steps[i].attempt.tx)
    ensures var s := StoreRun(NewStore(root), steps).state; WellKeyed(s) && Indexed(s)
  {
    var start := NewStore(root);
    assert IndexedCanvas(start.state, root) by { assert ObjectsOn(start.state, root) == {}; }
    RunKeepsIndex(start, steps);
  }

  // ---------------------------------------------------------------- events and idempotency keys between restores

  function Final(s: CanvasState, attempts: seq<Attempt>): CanvasState
    decreases |attempts|
  {
    if attempts == [] then s else Final(After(s, attempts[0].tx, attempts[0].sinkOk), attempts[1..])
  }

  function EventsOf(s: CanvasState, attempts: seq<Attempt>): seq<CanvasEvent>
    decreases |attempts|
  {
    if attempts == [] then []
    else
      var a := attempts[0];
      (if Commits(s, a.tx, a.sinkOk) then [EventOf(s, a.tx)] else [])
      + EventsOf(After(s, a.tx, a.sinkOk), attempts[1..])
  }

  /** The keys committed, one entry per commit that has one. */
  function KeysCommitted(s: CanvasState, attempts: seq<Attempt>): seq<Id>
    decreases |attempts|
  {
    if attempts == [] then []
    else
      var a := attempts[0];
      (if Commits(s, a.tx, a.sinkOk) && a.tx.key.Some? then [a.tx.key.value] else [])
      + KeysCommitted(After(s, a.tx, a.sinkOk), attempts[1..])
  }

  predicate Chained(from: HashedView, events: seq<CanvasEvent>, to: HashedView)
    decreases |events|
  {
    if events == [] then from == to
    else events[0].beforeHash == from && Chained(events[0].afterHash, events[1..], to)
  }

  /** The events form one chain of hashes from the first state to the last; nothing changes the state unlogged. */
  lemma {:induction false} EventsChain(s: CanvasState, attempts: seq<Attempt>)
    ensures Chained(StateHash(s), EventsOf(s, attempts), StateHash(Final(s, attempts)))
    decreases |attempts|
  {
    if attempts != [] {
      var a := attempts[0];
      var s' := After(s, a.tx, a.sinkOk);
      EventsChain(s', attempts[1..]);
      var rest := EventsOf(s', attempts[1..]);
      assert Commits(s, a.tx, a.sinkOk) ==> EventsOf(s, attempts)[1..] == rest;
      assert !Commits(s, a.tx, a.sinkOk) ==> EventsOf(s, attempts) == rest;
    }
  }

  lemma {:induction false} OperationsKeepKeys(d: CanvasState, ops: seq<Operation>, c: Id)
    requires ApplyOperations(d, ops, c).Ok?
    ensures ApplyOperations(d, ops, c).value.keys == d.keys
  {
    if ops != [] { OperationsKeepKeys(d, ops[..|ops| - 1], c); }
  }

  /** A commit adds its transaction's key, which was not there. */
  lemma CommitAddsItsKey(s: CanvasState, a: Attempt)
    ensures var s', key := After(s, a.tx, a.sinkOk), a.tx.key;
            if Commits(s, a.tx, a.sinkOk) && key.Some? then key.value !in s.keys && s'.keys == s.keys + {key.value}
            else s'.keys == s.keys
  {
    if Commits(s, a.tx, a.sinkOk) { OperationsKeepKeys(s, a.tx.operations, a.tx.canvasId); }
  }

  /** Between restores each idempotency key commits at most once, and never when it was there before. */
  lemma {:induction false} KeysCommitOnce(s: CanvasState, attempts: seq<Attempt>)
    ensures var keys := KeysCommitted(s, attempts);
            && NoDuplicates(keys) && (forall k :: k in keys ==> k !in s.keys)
            && Final(s, attempts).keys == s.keys + set k | k in keys
    decreases |attempts|
  {
    hide Commits, After;
    if attempts != [] {
      var a := attempts[0];
      var s' := After(s, a.tx, a.sinkOk);
      KeysCommitOnce(s', attempts[1..]);
      CommitAddsItsKey(s, a);
      var rest, keys := KeysCommitted(s', attempts[1..]), KeysCommitted(s, attempts);
      if Commits(s, a.tx, a.sinkOk) && a.tx.key.Some? {
        assert keys == [a.tx.key.value] + rest && a.tx.key.value in s'.keys;
        forall i, j | 0 <= i < j < |keys| ensures keys[i] != keys[j] { assert keys[j] == rest[j - 1]; }
      } else {
        assert keys == rest;
      }
    }
  }

  // ---------------------------------------------------------------- what a canvas revision witnesses

  /** A canvas as it is shown: its document and the objects on it. */
  datatype View = View(document: CanvasDocument, objects: map<Id, CanvasObject>)

  function ViewOf(s: CanvasState, c: Id): View
    requires c in s.canvases
  {
    View(s.canvases[c], ShownOn(s.objects, c))
  }

  function ShownOn(objects: map<Id, CanvasObject>, c: Id): map<Id, CanvasObject> {
    map o | o in objects && objects[o].canvasId == c :: objects[o]
  }

  /** `objects` and perhaps more of them, none of them changed. */
  ghost predicate Extends(objects: map<Id, CanvasObject>, more: map<Id, CanvasObject>) {
    objects.Keys <= more.Keys && forall o :: o in objects ==> more[o] == objects[o]
  }

  /** The operation puts a subcanvas object on canvas `x`; nothing checks that `x` is the transaction's canvas. */
  predicate Places(op: Operation, x: Id) { op.CreateSubcanvas? && op.item.canvasId == x }

  predicate PlacesAny(ops: seq<Operation>, x: Id) { exists i :: 0 <= i < |ops| && Places(ops[i], x) }

  lemma OperationKeepsRevisions(d: CanvasState, op: Operation, c: Id, x: Id)
    requires WellKeyed(d) && ApplyOperation(d, op, c).Ok? && x in d.canvases
    ensures var d' := ApplyOperation(d, op, c).value;
            WellKeyed(d') && x in d'.canvases && d'.canvases[x].revision == d.canvases[x].revision
  {
    hide ValidObject, Without;
  }

  /** A change of one object that is not on canvas `x` shows there only if it puts the object there. */
  lemma OneObjectChanges(before: map<Id, CanvasObject>, after: map<Id, CanvasObject>, id: Id, x: Id)
    requires after - {id} == before - {id} && (id in before ==> before[id].canvasId != x)
    ensures Extends(ShownOn(before, x), ShownOn(after, x))
    ensures ShownOn(after, x) == ShownOn(before, x) <==> !(id in after && after[id].canvasId == x)
  {
    forall o | o != id ensures (o in before <==> o in after) && (o in before ==> before[o] == after[o]) {
      assert o in before <==> o in before - {id};
      assert o in after <==> o in after - {id};
    }
    if id in after && after[id].canvasId == x {
      assert id in ShownOn(after, x) && id !in ShownOn(before, x);
    } else {
      assert ShownOn(after, x) == ShownOn(before, x);
    }
  }

  lemma OperationChangesItsTarget(d: CanvasState, op: Operation, c: Id, x: Id)
    requires WellKeyed(d) && ApplyOperation(d, op, c).Ok? && x in d.canvases && x != c
    ensures var d', id := ApplyOperation(d, op, c).value, TargetOf(op);
            && x in d'.canvases && d'.canvases[x] == d.canvases[x] && d'.objects - {id} == d.objects - {id}
            && (id in d.objects ==> d.objects[id].canvasId != x)
            && (id in d'.objects && d'.objects[id].canvasId == x <==> Places(op, x))
  {
    hide ValidObject, Without;
  }

  /** Another canvas keeps its document, and its objects too unless one is placed there. */
  lemma OperationBeside(d: CanvasState, op: Operation, c: Id, x: Id)
    requires WellKeyed(d) && ApplyOperation(d, op, c).Ok? && x in d.canvases && x != c
    ensures var d' := ApplyOperation(d, op, c).value;
            && x in d'.canvases && d'.canvases[x] == d.canvases[x]
            && Extends(ViewOf(d, x).objects, ViewOf(d', x).objects)
            && (ViewOf(d', x).objects == ViewOf(d, x).objects <==> !Places(op, x))
  {
    hide WellKeyed, ApplyOperation, ShownOn, Extends, Places;
    OperationChangesItsTarget(d, op, c, x);
    OneObjectChanges(d.objects, ApplyOperation(d, op, c).value.objects, TargetOf(op), x);
  }

  /** What two extensions in a row add up to. */
  lemma Squeezed(objects: map<Id, CanvasObject>, more: map<Id, CanvasObject>, most: map<Id, CanvasObject>)
    requires Extends(objects, more) && Extends(more, most)
    ensures Extends(objects, most)
    ensures most == objects <==> more == objects && most == more
  {
    if most == objects { assert more.Keys == objects.Keys; }
  }

  lemma {:induction false} OperationsKeepRevisions(d: CanvasState, ops: seq<Operation>, c: Id, x: Id)
    requires WellKeyed(d) && ApplyOperations(d, ops, c).Ok? && x in d.canvases
    ensures var d' := ApplyOperations(d, ops, c).value;
            WellKeyed(d') && x in d'.canvases && d'.canvases[x].revision == d.canvases[x].revision
  {
    if ops != [] {
      var init := ops[..|ops| - 1];
      OperationsKeepRevisions(d, init, c, x);
      OperationKeepsRevisions(ApplyOperations(d, init, c).value, ops[|ops| - 1], c, x);
    }
  }

  lemma {:induction false} OperationsBeside(d: CanvasState, ops: seq<Operation>, c: Id, x: Id)
    requires WellKeyed(d) && ApplyOperations(d, ops, c).Ok? && x in d.canvases && x != c
    ensures var d' := ApplyOperations(d, ops, c).value;
            && x in d'.canvases && d'.canvases[x] == d.canvases[x]
            && Extends(ViewOf(d, x).objects, ViewOf(d', x).objects)
            && (ViewOf(d', x).objects == ViewOf(d, x).objects <==> !PlacesAny(ops, x))
  {
    if ops != [] {
      hide WellKeyed, ApplyOperation, ViewOf, Extends, PlacesAny, Places;
      var init, n := ops[..|ops| - 1], |ops| - 1;
      var d1, d2 := ApplyOperations(d, init, c).value, ApplyOperations(d, ops, c).value;
      OperationsBeside(d, init, c, x);
      OperationsKeepRevisions(d, init, c, x);
      OperationBeside(d1, ops[n], c, x);
      LastOrEarlier(ops, x);
      Squeezed(ViewOf(d, x).objects, ViewOf(d1, x).objects, ViewOf(d2, x).objects);
    } else {
      Squeezed(ViewOf(d, x).objects, ViewOf(d, x).objects, ViewOf(d, x).objects);
    }
  }

  lemma LastOrEarlier(ops: seq<Operation>, x: Id)
    requires ops != []
    ensures PlacesAny(ops, x) <==> PlacesAny(ops[..|ops| - 1], x) || Places(ops[|ops| - 1], x)
  {
    var init := ops[..|ops| - 1];
    if i :| 0 <= i < |init| && Places(init[i], x) { assert Places(ops[i], x); }
    if i :| 0 <= i < |ops| - 1 && Places(ops[i], x) { assert Places(init[i], x); }
  }

  /** The attempt commits on canvas `x`. */
  predicate CommitsHere(s: CanvasState, a: Attempt, x: Id) { Commits(s, a.tx, a.sinkOk) && a.tx.canvasId == x }

  /** The attempt commits on canvas `x`, or commits elsewhere and places a subcanvas object on `x`. */
  predicate Alters(s: CanvasState, a: Attempt, x: Id) {
    Commits(s, a.tx, a.sinkOk) && (a.tx.canvasId == x || PlacesAny(a.tx.operations, x))
  }

  /** A transaction moves the revision of the canvas it commits on by one, and changes what a canvas shows exactly if
      it commits on that canvas or places a subcanvas object there. */
  lemma CommitMovesOneRevision(s: CanvasState, a: Attempt, x: Id)
    requires WellKeyed(s) && x in s.canvases
    ensures var s' := After(s, a.tx, a.sinkOk);
            && WellKeyed(s') && x in s'.canvases
            && s'.canvases[x].revision == s.canvases[x].revision + (if CommitsHere(s, a, x) then 1 else 0)
            && (!CommitsHere(s, a, x) ==>
                  s'.canvases[x] == s.canvases[x] && Extends(ViewOf(s, x).objects, ViewOf(s', x).objects))
            && (ViewOf(s', x) == ViewOf(s, x) <==> !Alters(s, a, x))
  {
    if Commits(s, a.tx, a.sinkOk) {
      OperationsKeepRevisions(s, a.tx.operations, a.tx.canvasId, x);
      var d, s' := ApplyOperations(s, a.tx.operations, a.tx.canvasId).value, After(s, a.tx, a.sinkOk);
      if a.tx.canvasId == x {
        assert ViewOf(s', x).document.revision != ViewOf(s, x).document.revision;
      } else {
        OperationsBeside(s, a.tx.operations, a.tx.canvasId, x);
        assert ViewOf(s', x) == ViewOf(d, x);
      }
    }
  }

  function CommitsOn(s: CanvasState, attempts: seq<Attempt>, x: Id): nat
    decreases |attempts|
  {
    if attempts == [] then 0
    else
      var a := attempts[0];
      (if CommitsHere(s, a, x) then 1 else 0) + CommitsOn(After(s, a.tx, a.sinkOk), attempts[1..], x)
  }

  predicate Altered(s: CanvasState, attempts: seq<Attempt>, x: Id)
    decreases |attempts|
  {
    attempts != [] && (Alters(s, attempts[0], x)
                       || Altered(After(s, attempts[0].tx, attempts[0].sinkOk), attempts[1..], x))
  }

  /** A canvas's revision counts its commits, and it shows what it showed exactly when nothing altered it; what is
      placed on it without a commit is only added. */
  lemma {:induction false} RevisionCountsCommits(s: CanvasState, attempts: seq<Attempt>, x: Id)
    requires WellKeyed(s) && x in s.canvases
    ensures var s' := Final(s, attempts);
            && WellKeyed(s') && x in s'.canvases
            && s'.canvases[x].revision == s.canvases[x].revision + CommitsOn(s, attempts, x)
            && (CommitsOn(s, attempts, x) == 0 ==>
                  s'.canvases[x] == s.canvases[x] && Extends(ViewOf(s, x).objects, ViewOf(s', x).objects))
            && (ViewOf(s', x) == ViewOf(s, x) <==> !Altered(s, attempts, x))
    decreases |attempts|
  {
    if attempts != [] {
      hide WellKeyed, ViewOf, After, Alters;
      var a := attempts[0];
      var s1, s' := After(s, a.tx, a.sinkOk), Final(s, attempts);
      CommitMovesOneRevision(s, a, x);
      RevisionCountsCommits(s1, attempts[1..], x);
      ViewsShowRevisions(s, x);
      ViewsShowRevisions(s', x);
      ViewsShowRevisions(s1, x);
      if CommitsOn(s, attempts, x) == 0 {
        Squeezed(ViewOf(s, x).objects, ViewOf(s1, x).objects, ViewOf(s', x).objects);
      }
    }
  }

  lemma ViewsShowRevisions(s: CanvasState, x: Id)
    requires x in s.canvases
    ensures ViewOf(s, x).document == s.canvases[x]
  {
  }

  /** A subcanvas object placed on canvas 0 by a transaction on its child canvas 1. */
  function PlacedOnRoot(t: Transform): Operation {
    CreateSubcanvas(CanvasObject(5, 0, Subcanvas, t, map[], map[], map[], 0),
                    CanvasDocument(2, Some(1), Some(5), [], 0))
  }

  /** The alteration without a commit is inhabited: the root's revision stays while the root shows one object more. */
  lemma PlacementMovesNoRevision(t: Transform)
    requires t.Keys == {X, Y, Width, Height, Rotation, ScaleX, ScaleY, ZIndex} && t[Width] >= 0.0 && t[Height] >= 0.0
    ensures var s := CanvasState(0, map[0 := CanvasDocument(0, None, None, [], 0),
                                        1 := CanvasDocument(1, Some(0), Some(9), [], 0)], map[], {});
            var s' := After(s, Transaction(0, 1, [], [PlacedOnRoot(t)], None), true);
            && 0 in s'.canvases && s'.canvases[0].revision == s.canvases[0].revision
            && ViewOf(s', 0) != ViewOf(s, 0)
  {
    var s := CanvasState(0, map[0 := CanvasDocument(0, None, None, [], 0),
                                1 := CanvasDocument(1, Some(0), Some(9), [], 0)], map[], {});
    var tx := Transaction(0, 1, [], [PlacedOnRoot(t)], None);
    assert ApplyOperations(s, tx.operations[..0], 1) == Ok(s);
    assert Places(tx.operations[0], 0);
    CommitMovesOneRevision(s, Attempt(tx, true), 0);
  }
}
