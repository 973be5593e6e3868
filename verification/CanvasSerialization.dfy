/** The serialized form of a canvas state and its way back. */
module CanvasSerialization {
  import opened Basics
  import opened Ordering
  import opened CanvasCore
  import opened CanvasHistory

  datatype Serialized = Serialized(rootCanvasId: Id, canvases: seq<CanvasDocument>, objects: seq<CanvasObject>,
                                   keys: seq<Id>)

  function Values<T>(m: map<Id, T>, ids: seq<Id>): seq<T>
    requires forall id :: id in ids ==> id in m
  {
    seq(|ids|, i requires 0 <= i < |ids| => m[ids[i]])
  }

  /** Collections are listed in id order. */
  function Serialize(s: CanvasState): Serialized {
    Serialized(s.rootCanvasId, Values(s.canvases, SortIds(s.canvases.Keys)), Values(s.objects, SortIds(s.objects.Keys)),
               SortIds(s.keys))
  }

  /** The map a list of items builds; a later item replaces an earlier one with its id. */
  function IndexBy<T>(items: seq<T>, idOf: T -> Id): map<Id, T> {
    if items == [] then map[]
    else IndexBy(items[..|items| - 1], idOf)[idOf(items[|items| - 1]) := items[|items| - 1]]
  }

  const CANVAS_ID: CanvasDocument -> Id := (d: CanvasDocument) => d.id
  const OBJECT_ID: CanvasObject -> Id := (o: CanvasObject) => o.id

  function Deserialize(v: Serialized): Result<CanvasState, ErrorCode> {
    var canvases, objects := IndexBy(v.canvases, CANVAS_ID), IndexBy(v.objects, OBJECT_ID);
    var s := CanvasState(v.rootCanvasId, canvases, objects, IdSet(v.keys));
    if v.rootCanvasId !in s.canvases then Err(InvalidOperation)
    else if exists o :: o in s.objects && !ValidObject(s.objects[o]) then Err(SchemaInvalid)
    else Ok(s)
  }

  lemma {:induction false} IndexIsKeyed<T>(items: seq<T>, idOf: T -> Id)
    ensures forall k :: k in IndexBy(items, idOf) ==> idOf(IndexBy(items, idOf)[k]) == k
  {
    if items != [] { IndexIsKeyed(items[..|items| - 1], idOf); }
  }

  lemma {:induction false} IndexOfValues<T>(m: map<Id, T>, ids: seq<Id>, idOf: T -> Id)
    requires forall id :: id in ids ==> id in m
    requires forall k :: k in m ==> idOf(m[k]) == k
    ensures IndexBy(Values(m, ids), idOf) == map k | k in m && k in ids :: m[k]
  {
    if ids != [] {
      var init := ids[..|ids| - 1];
      IndexOfValues(m, init, idOf);
      assert Values(m, ids)[..|ids| - 1] == Values(m, init);
      assert forall k :: k in ids <==> k in init || k == ids[|ids| - 1];
    } else {
      assert Values(m, ids) == [];
    }
  }

  lemma IndexOfAllValues<T>(m: map<Id, T>, idOf: T -> Id)
    ensures IndexBy(Values(m, SortIds(m.Keys)), idOf) == m <==> forall k :: k in m ==> idOf(m[k]) == k
  {
    var ids := SortIds(m.Keys);
    if forall k :: k in m ==> idOf(m[k]) == k { IndexOfValues(m, ids, idOf); }
    IndexIsKeyed(Values(m, ids), idOf);
  }

  lemma SerializedParts(s: CanvasState)
    ensures var v := Serialize(s);
            && (IndexBy(v.canvases, CANVAS_ID) == s.canvases <==> forall c :: c in s.canvases ==> s.canvases[c].id == c)
            && (IndexBy(v.objects, OBJECT_ID) == s.objects <==> forall o :: o in s.objects ==> s.objects[o].id == o)
            && IdSet(v.keys) == s.keys && v.rootCanvasId == s.rootCanvasId
  {
    IndexOfAllValues(s.canvases, CANVAS_ID);
    IndexOfAllValues(s.objects, OBJECT_ID);
  }

  /** Serializing and reading back gives the state itself exactly when its maps are keyed by id, its root exists
      and its objects are valid. */
  lemma RoundTripIff(s: CanvasState)
    ensures Deserialize(Serialize(s)) == Ok(s) <==> WellKeyed(s) && AllValid(s)
  {
    SerializedParts(s);
    hide Serialize, ValidObject;
  }

  /** The serialized canvases are the state's canvases, each once. */
  lemma SerializedCanvases(s: CanvasState)
    requires WellKeyed(s)
    ensures var listed := Serialize(s).canvases;
            && (forall c :: c in s.canvases <==> exists i :: 0 <= i < |listed| && listed[i].id == c)
            && (forall i, j :: 0 <= i < j < |listed| ==> listed[i].id != listed[j].id)
  {
    var ids, listed := SortIds(s.canvases.Keys), Serialize(s).canvases;
    forall i | 0 <= i < |ids| ensures listed[i].id == ids[i] {
      assert ids[i] in s.canvases;
    }
    forall c | c in s.canvases ensures exists i :: 0 <= i < |listed| && listed[i].id == c {
      var i :| 0 <= i < |ids| && ids[i] == c;
      assert listed[i] == s.canvases[c];
    }
  }

  predicate Ascending(ids: seq<Id>) { forall i, j :: 0 <= i < j < |ids| ==> ids[i] < ids[j] }

  lemma SortedIdsAscend(s: set<Id>)
    ensures Ascending(SortIds(s))
  {
    var ids := SortBy(s, (x: Id) => 0.0);
    forall i, j | 0 <= i < j < |ids| ensures ids[i] < ids[j] {
      assert Before((x: Id) => 0.0, ids[i], ids[j]);
    }
  }

  /** Every list of the serialized form is in strictly rising id order, holds what the state holds and nothing else. */
  lemma SerializedIsCanonical(s: CanvasState)
    requires WellKeyed(s)
    ensures var v := Serialize(s);
            && (forall i, j :: 0 <= i < j < |v.canvases| ==> v.canvases[i].id < v.canvases[j].id)
            && (forall i, j :: 0 <= i < j < |v.objects| ==> v.objects[i].id < v.objects[j].id)
            && Ascending(v.keys)
            && (forall d :: d in v.canvases <==> d.id in s.canvases && s.canvases[d.id] == d)
            && (forall o :: o in v.objects <==> o.id in s.objects && s.objects[o.id] == o)
            && (forall k :: k in v.keys <==> k in s.keys) && v.rootCanvasId == s.rootCanvasId
  {
    hide Values;
    SortedIdsAscend(s.keys);
    ListedInOrder(s.canvases, CANVAS_ID);
    ListedInOrder(s.objects, OBJECT_ID);
  }

  lemma ListedInOrder<T>(m: map<Id, T>, idOf: T -> Id)
    requires forall k :: k in m ==> idOf(m[k]) == k
    ensures var listed := Values(m, SortIds(m.Keys));
            && (forall i, j :: 0 <= i < j < |listed| ==> idOf(listed[i]) < idOf(listed[j]))
            && forall x :: x in listed <==> idOf(x) in m && m[idOf(x)] == x
  {
    var ids, listed := SortIds(m.Keys), Values(m, SortIds(m.Keys));
    SortedIdsAscend(m.Keys);
    forall i | 0 <= i < |ids| ensures idOf(listed[i]) == ids[i] { assert ids[i] in m; }
    forall x | idOf(x) in m && m[idOf(x)] == x ensures x in listed {
      var i :| 0 <= i < |ids| && ids[i] == idOf(x);
      assert listed[i] == x;
    }
  }

  /** Two keyed states have the same serialized form exactly when they are the same state. */
  lemma SameSerializedIff(s: CanvasState, t: CanvasState)
    requires WellKeyed(s) && WellKeyed(t)
    ensures Serialize(s) == Serialize(t) <==> s == t
  {
    hide Serialize;
    SerializedParts(s);
    SerializedParts(t);
  }

  // ---------------------------------------------------------------- every state a store reaches

  ghost predicate AllReadable(a: Archive) {
    && WellKeyed(a.state) && AllValid(a.state)
    && forall i :: 0 <= i < |a.snapshots| ==> WellKeyed(a.snapshots[i]) && AllValid(a.snapshots[i])
  }

  lemma {:induction false} OperationsKeepValid(d: CanvasState, ops: seq<Operation>, c: Id)
    requires WellKeyed(d) && AllValid(d) && ApplyOperations(d, ops, c).Ok?
    ensures var d' := ApplyOperations(d, ops, c).value; WellKeyed(d') && AllValid(d')
  {
    if ops != [] {
      var init := ops[..|ops| - 1];
      OperationsKeepValid(d, init, c);
      OperationKeepsValid(ApplyOperations(d, init, c).value, ops[|ops| - 1], c);
    }
  }

  lemma AfterKeepsValid(s: CanvasState, tx: Transaction, sinkOk: bool)
    requires WellKeyed(s) && AllValid(s)
    ensures WellKeyed(After(s, tx, sinkOk)) && AllValid(After(s, tx, sinkOk))
  {
    if Commits(s, tx, sinkOk) { OperationsKeepValid(s, tx.operations, tx.canvasId); }
  }

  lemma {:induction false} RunKeepsReadable(a: Archive, steps: seq<StoreStep>)
    requires AllReadable(a)
    ensures AllReadable(StoreRun(a, steps))
    decreases |steps|
  {
    if steps != [] {
      if steps[0].Transact? { AfterKeepsValid(a.state, steps[0].attempt.tx, steps[0].attempt.sinkOk); }
      RunKeepsReadable(StoreStepOf(a, steps[0]), steps[1..]);
    }
  }

  /** Whatever transactions, snapshots and restores a store has been through, its objects are valid, and its state
      comes back from its serialized form as it was. */
  lemma EveryStateReadsBack(root: Id, steps: seq<StoreStep>)
    ensures var s := StoreRun(NewStore(root), steps).state; AllValid(s) && Deserialize(Serialize(s)) == Ok(s)
  {
    RunKeepsReadable(NewStore(root), steps);
    RoundTripIff(StoreRun(NewStore(root), steps).state);
  }
}
