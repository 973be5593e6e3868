/** The canvas store: draft-then-commit transactions over a workspace of canvases and objects. Timestamps and
    actors are not modelled; a state hash is the hashed view itself, so equal hashes are equal views. */
module CanvasCore {
  import opened Basics
  import opened Ordering

  datatype ObjectKind =
    | Rectangle | Ellipse | Line | Freehand | Text | Image | Group | FrameBox | Subcanvas | AgentNote | ResourcePortal

  datatype TransformKey = X | Y | Width | Height | Rotation | ScaleX | ScaleY | ZIndex

  /** A transform, or the part of one that a patch sets. */
  type Transform = map<TransformKey, real>

  datatype Value = Number(n: real) | Code(code: Id)

  type Attributes = map<Id, Value>

  datatype CanvasObject = CanvasObject(
    id: Id, canvasId: Id, kind: ObjectKind, transform: Transform,
    style: Attributes, content: Attributes, metadata: Attributes, revision: nat)

  datatype CanvasDocument = CanvasDocument(
    id: Id, parentCanvasId: Option<Id>, parentObjectId: Option<Id>, objectIds: seq<Id>, revision: nat)

  datatype CanvasState = CanvasState(
    rootCanvasId: Id, canvases: map<Id, CanvasDocument>, objects: map<Id, CanvasObject>, keys: set<Id>)

  datatype Patch = Patch(transform: Transform, style: Attributes, content: Attributes, metadata: Attributes)

  datatype Operation =
    | CreateObject(item: CanvasObject)
    | CreateSubcanvas(item: CanvasObject, canvas: CanvasDocument)
    | PatchObject(objectId: Id, expectedRevision: nat, patch: Patch)
    | DeleteObject(objectId: Id, expectedRevision: nat)
    | ReorderObject(objectId: Id, expectedRevision: nat, zIndex: real)

  datatype Precondition =
    | CanvasRevision(target: Id, revision: nat)
    | ObjectExists(target: Id, present: bool)
    | ObjectRevision(target: Id, revision: nat)

  datatype Transaction = Transaction(
    id: Id, canvasId: Id, preconditions: seq<Precondition>, operations: seq<Operation>, key: Option<Id>)

  datatype ErrorCode =
    | NotFound | AlreadyExists | RevisionConflict | PreconditionFailed | InvalidOperation | SchemaInvalid | SinkFailed

  /** What the state hash covers: everything but the idempotency keys. */
  datatype HashedView = HashedView(rootCanvasId: Id, canvases: map<Id, CanvasDocument>, objects: map<Id, CanvasObject>)

  datatype CanvasEvent = CanvasEvent(transactionId: Id, canvasId: Id, beforeHash: HashedView, afterHash: HashedView)

  datatype TransactionResult = TransactionResult(
    transactionId: Id, canvasId: Id, revision: nat, beforeHash: HashedView, afterHash: HashedView)

  function StateHash(s: CanvasState): HashedView { HashedView(s.rootCanvasId, s.canvases, s.objects) }

  predicate ValidObject(o: CanvasObject) {
    && o.transform.Keys == {X, Y, Width, Height, Rotation, ScaleX, ScaleY, ZIndex}
    && o.transform[Width] >= 0.0 && o.transform[Height] >= 0.0
  }

  predicate ValidTransaction(tx: Transaction) {
    && tx.operations != []
    && forall i :: 0 <= i < |tx.operations| && tx.operations[i].CreateObject? ==> ValidObject(tx.operations[i].item)
  }

  predicate Holds(s: CanvasState, p: Precondition) {
    match p
    case CanvasRevision(c, revision) => c in s.canvases && s.canvases[c].revision == revision
    case ObjectExists(o, expected) => (o in s.objects) == expected
    case ObjectRevision(o, revision) => o in s.objects && s.objects[o].revision == revision
  }

  predicate PreconditionsHold(s: CanvasState, ps: seq<Precondition>) {
    forall i :: 0 <= i < |ps| ==> Holds(s, ps[i])
  }

  function Append(d: CanvasDocument, id: Id): CanvasDocument { d.(objectIds := d.objectIds + [id]) }

  function Patched(o: CanvasObject, p: Patch): CanvasObject {
    o.(transform := o.transform + p.transform, style := o.style + p.style, content := o.content + p.content,
       metadata := o.metadata + p.metadata, revision := o.revision + 1)
  }

  function TargetOf(op: Operation): Id {
    match op
    case CreateObject(o) => o.id
    case CreateSubcanvas(o, _) => o.id
    case PatchObject(id, _, _) => id
    case DeleteObject(id, _) => id
    case ReorderObject(id, _, _) => id
  }

  /** The operations that name an existing object. */
  function ApplyToObject(d: CanvasState, op: Operation, c: Id): Result<CanvasState, ErrorCode>
    requires !op.CreateObject? && !op.CreateSubcanvas?
  {
    if TargetOf(op) !in d.objects then Err(NotFound)
    else
      var o := d.objects[TargetOf(op)];
      if o.canvasId != c then Err(InvalidOperation)
      else if o.revision != op.expectedRevision then Err(RevisionConflict)
      else
        match op
        case DeleteObject(_, _) =>
          Ok(d.(objects := d.objects - {o.id},
                canvases := if c in d.canvases
                            then d.canvases[c := d.canvases[c].(objectIds := Without(d.canvases[c].objectIds, o.id))]
                            else d.canvases))
        case ReorderObject(_, _, z) =>
          Ok(d.(objects := d.objects[o.id := o.(transform := o.transform[ZIndex := z], revision := o.revision + 1)]))
        case PatchObject(_, _, patch) =>
          if ValidObject(Patched(o, patch)) then Ok(d.(objects := d.objects[o.id := Patched(o, patch)]))
          else Err(SchemaInvalid)
  }

  /** One operation of a transaction on canvas `c`, on the draft. */
  function ApplyOperation(d: CanvasState, op: Operation, c: Id): Result<CanvasState, ErrorCode> {
    match op
    case CreateObject(o) =>
      if !ValidObject(o) then Err(SchemaInvalid)
      else if o.canvasId != c then Err(InvalidOperation)
      else if o.id in d.objects then Err(AlreadyExists)
      else if c !in d.canvases then Err(NotFound)
      else Ok(d.(objects := d.objects[o.id := o], canvases := d.canvases[c := Append(d.canvases[c], o.id)]))
    case CreateSubcanvas(o, canvas) =>
      if !ValidObject(o) then Err(SchemaInvalid)
      else if o.kind != Subcanvas then Err(InvalidOperation)
      else if o.id in d.objects || canvas.id in d.canvases then Err(AlreadyExists)
      else if canvas.parentCanvasId != Some(c) || canvas.parentObjectId != Some(o.id) then Err(InvalidOperation)
      else if c !in d.canvases then Err(NotFound)
      else Ok(d.(objects := d.objects[o.id := o],
                 canvases := d.canvases[canvas.id := canvas][c := Append(d.canvases[c], o.id)]))
    case _ => ApplyToObject(d, op, c)
  }

  function ApplyOperations(d: CanvasState, ops: seq<Operation>, c: Id): Result<CanvasState, ErrorCode> {
    if ops == [] then Ok(d)
    else
      match ApplyOperations(d, ops[..|ops| - 1], c)
      case Err(e) => Err(e)
      case Ok(draft) => ApplyOperation(draft, ops[|ops| - 1], c)
  }

  function Bumped(d: CanvasState, tx: Transaction): CanvasState
    requires tx.canvasId in d.canvases
  {
    var doc := d.canvases[tx.canvasId];
    d.(canvases := d.canvases[tx.canvasId := doc.(revision := doc.revision + 1)],
       keys := if tx.key.Some? then d.keys + {tx.key.value} else d.keys)
  }

  predicate Replayed(s: CanvasState, tx: Transaction) { tx.key.Some? && tx.key.value in s.keys }

  /** The committed draft, before the event sink is asked. */
  function Draft(s: CanvasState, tx: Transaction): Result<CanvasState, ErrorCode> {
    if !ValidTransaction(tx) then Err(SchemaInvalid)
    else if tx.canvasId !in s.canvases then Err(NotFound)
    else if !PreconditionsHold(s, tx.preconditions) then Err(PreconditionFailed)
    else
      match ApplyOperations(s, tx.operations, tx.canvasId)
      case Err(e) => Err(e)
      case Ok(d) => if tx.canvasId in d.canvases then Ok(Bumped(d, tx)) else Err(NotFound)
  }

  /** A transaction that changes the store: not a replay, every check passed, the sink accepted the event. */
  predicate Commits(s: CanvasState, tx: Transaction, sinkOk: bool) {
    ValidTransaction(tx) && tx.canvasId in s.canvases && !Replayed(s, tx) && Draft(s, tx).Ok? && sinkOk
  }

  function After(s: CanvasState, tx: Transaction, sinkOk: bool): CanvasState {
    if Commits(s, tx, sinkOk) then Draft(s, tx).value else s
  }

  function EventOf(s: CanvasState, tx: Transaction): CanvasEvent
    requires Draft(s, tx).Ok?
  {
    CanvasEvent(tx.id, tx.canvasId, StateHash(s), StateHash(Draft(s, tx).value))
  }

  // ---------------------------------------------------------------- the store object

  class CanvasStore {
    var state: CanvasState
    var events: seq<CanvasEvent>  // what the event sink has accepted

    constructor (rootCanvas: CanvasDocument)
      ensures state == CanvasState(rootCanvas.id, map[rootCanvas.id := rootCanvas], map[], {}) && events == []
    {
      state := CanvasState(rootCanvas.id, map[rootCanvas.id := rootCanvas], map[], {});
      events := [];
    }

    /** A failure of any kind, the sink's included, leaves the state and the events as they were. */
    method ApplyTransaction(tx: Transaction, sinkOk: bool) returns (r: Result<TransactionResult, ErrorCode>)
      modifies this
      ensures state == After(old(state), tx, sinkOk)
      ensures events == old(events) + if Commits(old(state), tx, sinkOk) then [EventOf(old(state), tx)] else []
      ensures r.Err? ==> state == old(state) && events == old(events)
      ensures r.Err? ==> r.error == if Draft(old(state), tx).Err? then Draft(old(state), tx).error else SinkFailed
      ensures r.Ok? <==> Commits(old(state), tx, sinkOk)
                         || (ValidTransaction(tx) && tx.canvasId in old(state).canvases && Replayed(old(state), tx))
      ensures r.Ok? ==> tx.canvasId in state.canvases
                        && r.value == TransactionResult(tx.id, tx.canvasId, state.canvases[tx.canvasId].revision,
                                                        StateHash(old(state)), StateHash(state))
    {
      hide ApplyOperation, ValidTransaction, PreconditionsHold;
      if !ValidTransaction(tx) { return Err(SchemaInvalid); }
      if tx.canvasId !in state.canvases { return Err(NotFound); }
      if tx.key.Some? && tx.key.value in state.keys {
        var hash := StateHash(state);
        return Ok(TransactionResult(tx.id, tx.canvasId, state.canvases[tx.canvasId].revision, hash, hash));
      }
      var ok := CheckPreconditions(tx.preconditions);
      if !ok { return Err(PreconditionFailed); }
      var draft, before := state, StateHash(state);
      for i := 0 to |tx.operations|
        invariant ApplyOperations(state, tx.operations[..i], tx.canvasId) == Ok(draft)
        invariant state == old(state) && events == old(events)
      {
        assert tx.operations[..i + 1][..i] == tx.operations[..i];
        var step := ApplyOperation(draft, tx.operations[i], tx.canvasId);
        if step.Err? {
          FirstErrorWins(state, tx.operations, i + 1, tx.canvasId);
          return Err(step.error);
        }
        draft := step.value;
      }
      assert tx.operations[..|tx.operations|] == tx.operations;
      if tx.canvasId !in draft.canvases { return Err(NotFound); }
      draft := Bumped(draft, tx);
      if !sinkOk { return Err(SinkFailed); }
      events := events + [CanvasEvent(tx.id, tx.canvasId, before, StateHash(draft))];
      state := draft;
      r := Ok(TransactionResult(tx.id, tx.canvasId, draft.canvases[tx.canvasId].revision, before, StateHash(draft)));
    }

    method CheckPreconditions(ps: seq<Precondition>) returns (ok: bool)
      ensures ok == PreconditionsHold(state, ps)
    {
      for i := 0 to |ps|
        invariant PreconditionsHold(state, ps[..i])
      {
        if !Holds(state, ps[i]) { return false; }
      }
      assert forall i :: 0 <= i < |ps| ==> ps[..|ps|][i] == ps[i];
      ok := true;
    }

    method Restore(snapshot: CanvasState) returns (r: Result<(), ErrorCode>)
      modifies this
      ensures events == old(events)
      ensures r.Ok? <==> snapshot.rootCanvasId == old(state).rootCanvasId && snapshot.rootCanvasId in snapshot.canvases
      ensures state == if r.Ok? then snapshot else old(state)
    {
      if snapshot.rootCanvasId != state.rootCanvasId || snapshot.rootCanvasId !in snapshot.canvases {
        return Err(InvalidOperation);
      }
      state := snapshot;
      r := Ok(());
    }
  }

  lemma {:induction false} FirstErrorWins(d: CanvasState, ops: seq<Operation>, k: nat, c: Id)
    requires k <= |ops| && ApplyOperations(d, ops[..k], c).Err?
    ensures ApplyOperations(d, ops, c) == ApplyOperations(d, ops[..k], c)
    decreases |ops|
  {
    if k == |ops| {
      assert ops[..k] == ops;
    } else {
      assert ops[..|ops| - 1][..k] == ops[..k];
      FirstErrorWins(d, ops[..|ops| - 1], k, c);
    }
  }

  // ---------------------------------------------------------------- what an operation does

  predicate AllValid(s: CanvasState) {
    forall o :: o in s.objects ==> ValidObject(s.objects[o])
  }

  /** Maps are keyed by the id of what they hold, and the root canvas exists. */
  ghost predicate WellKeyed(s: CanvasState) {
    && s.rootCanvasId in s.canvases
    && (forall c :: c in s.canvases ==> s.canvases[c].id == c)
    && (forall o :: o in s.objects ==> s.objects[o].id == o)
  }

  /** `after` holds what `set` sets, and for every other key what `before` held. */
  ghost predicate Overlaid<K(!new), V(!new)>(before: map<K, V>, set0: map<K, V>, after: map<K, V>) {
    && (forall k :: k in after <==> k in before || k in set0)
    && (forall k :: k in set0 ==> k in after && after[k] == set0[k])
    && (forall k :: k in before && k !in set0 ==> k in after && after[k] == before[k])
  }

  /** The patched object: every key a patch sets has the patch's value, every other key its old one. */
  ghost predicate IsPatched(o: CanvasObject, p: Patch, o': CanvasObject) {
    && Overlaid(o.transform, p.transform, o'.transform) && Overlaid(o.style, p.style, o'.style)
    && Overlaid(o.content, p.content, o'.content) && Overlaid(o.metadata, p.metadata, o'.metadata)
    && o'.id == o.id && o'.canvasId == o.canvasId && o'.kind == o.kind && o'.revision == o.revision + 1
  }

  /** What the operation finds and what it leaves under its target's id. */
  ghost predicate TargetMoves(d: CanvasState, op: Operation, c: Id, d': CanvasState) {
    var id := TargetOf(op);
    match op
    case CreateObject(item) => id !in d.objects && id in d'.objects && d'.objects[id] == item && item.canvasId == c
    case CreateSubcanvas(item, _) => id !in d.objects && id in d'.objects && d'.objects[id] == item
    case DeleteObject(_, _) => id in d.objects && id !in d'.objects
    case PatchObject(_, _, patch) => id in d.objects && id in d'.objects
                                     && IsPatched(d.objects[id], patch, d'.objects[id])
    case ReorderObject(_, _, z) =>
      && id in d.objects && id in d'.objects
      && IsPatched(d.objects[id], Patch(map[ZIndex := z], map[], map[], map[]), d'.objects[id])
  }

  /** What it leaves of the canvases: only lists of object ids change, and a subcanvas is added. */
  ghost predicate CanvasesMove(d: CanvasState, op: Operation, c: Id, d': CanvasState) {
    && (forall x :: x in d'.canvases <==> x in d.canvases || (op.CreateSubcanvas? && x == op.canvas.id))
    && (op.CreateSubcanvas? ==> op.canvas.id !in d.canvases && d'.canvases[op.canvas.id] == op.canvas
                                && op.canvas.parentCanvasId == Some(c) && op.canvas.parentObjectId == Some(op.item.id))
    && (forall x :: x in d.canvases && x != c ==> d'.canvases[x] == d.canvases[x])
    && (c in d.canvases ==>
          var before, after := d.canvases[c], d'.canvases[c];
          && after == before.(objectIds := after.objectIds)
          && after.objectIds == if op.CreateObject? || op.CreateSubcanvas? then before.objectIds + [op.item.id]
                                else if op.DeleteObject? then Without(before.objectIds, op.objectId)
                                else before.objectIds)
  }

  /** All other objects are as they were. */
  ghost predicate OthersStay(d: CanvasState, id: Id, d': CanvasState) {
    && (forall o :: o != id ==> (o in d'.objects <==> o in d.objects))
    && (forall o :: o != id && o in d.objects ==> o in d'.objects && d'.objects[o] == d.objects[o])
  }

  /** An accepted operation changes its target as it says, the lists of its canvas, and nothing else; an operation on an
      existing object was made for the revision that object had. */
  lemma OperationDoes(d: CanvasState, op: Operation, c: Id)
    requires WellKeyed(d) && ApplyOperation(d, op, c).Ok?
    ensures var d' := ApplyOperation(d, op, c).value;
            && TargetMoves(d, op, c, d') && OthersStay(d, TargetOf(op), d') && CanvasesMove(d, op, c, d')
            && d'.rootCanvasId == d.rootCanvasId && d'.keys == d.keys
            && (!op.CreateObject? && !op.CreateSubcanvas? ==>
                  var o := d.objects[TargetOf(op)]; o.revision == op.expectedRevision && o.canvasId == c)
  {
    hide ValidObject, Without, TargetMoves, OthersStay, CanvasesMove, WellKeyed, Patched;
    TargetDoes(d, op, c);
    CanvasesDo(d, op, c);
  }

  lemma TargetDoes(d: CanvasState, op: Operation, c: Id)
    requires WellKeyed(d) && ApplyOperation(d, op, c).Ok?
    ensures var d' := ApplyOperation(d, op, c).value; TargetMoves(d, op, c, d') && OthersStay(d, TargetOf(op), d')
  {
    hide ValidObject, Without, IsPatched;
    if op.PatchObject? {
      PatchedIs(d.objects[op.objectId], op.patch);
    } else if op.ReorderObject? {
      ReorderedIs(d.objects[op.objectId], op.zIndex);
    }
  }

  lemma PatchedIs(o: CanvasObject, p: Patch)
    ensures IsPatched(o, p, Patched(o, p))
  {
  }

  lemma ReorderedIs(o: CanvasObject, z: real)
    ensures IsPatched(o, Patch(map[ZIndex := z], map[], map[], map[]),
                      o.(transform := o.transform[ZIndex := z], revision := o.revision + 1))
  {
  }

  lemma CanvasesDo(d: CanvasState, op: Operation, c: Id)
    requires WellKeyed(d) && ApplyOperation(d, op, c).Ok?
    ensures CanvasesMove(d, op, c, ApplyOperation(d, op, c).value)
  {
    hide ValidObject, Without, Patched;
  }

  /** The eight numbers every transform has, and no negative size. */
  predicate Complete(t: Transform) {
    && (forall k: TransformKey :: k in t)
    && t[Width] >= 0.0 && t[Height] >= 0.0
  }

  lemma ValidIffComplete(o: CanvasObject)
    ensures ValidObject(o) <==> Complete(o.transform)
  {
    var keys := {X, Y, Width, Height, Rotation, ScaleX, ScaleY, ZIndex};
    forall k: TransformKey ensures k in keys { match k { case X => case Y => case _ => } }
    if Complete(o.transform) { assert o.transform.Keys == keys; }
  }

  /** Exactly these creations are accepted. */
  lemma CreationAcceptedIff(d: CanvasState, op: Operation, c: Id)
    requires op.CreateObject? || op.CreateSubcanvas?
    ensures ApplyOperation(d, op, c).Ok? <==>
              && Complete(op.item.transform) && op.item.id !in d.objects && c in d.canvases
              && (op.CreateObject? ==> op.item.canvasId == c)
              && (op.CreateSubcanvas? ==>
                    && op.item.kind == Subcanvas && op.canvas.id !in d.canvases
                    && op.canvas.parentCanvasId == Some(c) && op.canvas.parentObjectId == Some(op.item.id))
  {
    ValidIffComplete(op.item);
    hide ValidObject, Complete;
  }

  /** An operation on an existing object is refused for a missing target, a target on another canvas, a revision other
      than the one it was made for, or a patch that makes a size negative, in this order, and for nothing else. */
  lemma ChangeRefusedIff(d: CanvasState, op: Operation, c: Id)
    requires WellKeyed(d) && (op.PatchObject? || op.DeleteObject? || op.ReorderObject?)
    requires TargetOf(op) in d.objects ==> ValidObject(d.objects[TargetOf(op)])
    ensures var id, r := TargetOf(op), ApplyOperation(d, op, c);
            && (r == Err(NotFound) <==> id !in d.objects)
            && (id in d.objects ==>
                  var o := d.objects[id];
                  && (r == Err(InvalidOperation) <==> o.canvasId != c)
                  && (r == Err(RevisionConflict) <==> o.canvasId == c && o.revision != op.expectedRevision)
                  && (r == Err(SchemaInvalid) <==>
                        o.canvasId == c && o.revision == op.expectedRevision && op.PatchObject?
                        && exists k :: k in {Width, Height} && k in op.patch.transform && op.patch.transform[k] < 0.0)
                  && (r.Err? ==> r.error in {InvalidOperation, RevisionConflict, SchemaInvalid}))
  {
    if TargetOf(op) in d.objects && op.PatchObject? {
      var o := d.objects[TargetOf(op)];
      ValidIffComplete(o);
      ValidIffComplete(Patched(o, op.patch));
    }
    hide ValidObject;
  }

  /** An object no operation of a list names is the same afterwards. */
  lemma {:induction false} UnnamedStays(d: CanvasState, ops: seq<Operation>, c: Id, o: Id)
    requires WellKeyed(d) && ApplyOperations(d, ops, c).Ok? && forall i :: 0 <= i < |ops| ==> TargetOf(ops[i]) != o
    ensures var d' := ApplyOperations(d, ops, c).value;
            WellKeyed(d') && (o in d'.objects <==> o in d.objects) && (o in d.objects ==> d'.objects[o] == d.objects[o])
  {
    if ops != [] {
      var init, n := ops[..|ops| - 1], |ops| - 1;
      UnnamedStays(d, init, c, o);
      OperationDoes(ApplyOperations(d, init, c).value, ops[n], c);
      OperationKeepsKeyed(ApplyOperations(d, init, c).value, ops[n], c);
    }
  }

  lemma OperationKeepsKeyed(d: CanvasState, op: Operation, c: Id)
    requires WellKeyed(d) && ApplyOperation(d, op, c).Ok?
    ensures WellKeyed(ApplyOperation(d, op, c).value)
  {
    hide ValidObject, Without;
  }

  lemma OperationKeepsValid(d: CanvasState, op: Operation, c: Id)
    requires WellKeyed(d) && AllValid(d) && ApplyOperation(d, op, c).Ok?
    ensures WellKeyed(ApplyOperation(d, op, c).value) && AllValid(ApplyOperation(d, op, c).value)
  {
    OperationKeepsKeyed(d, op, c);
    hide ValidObject, Patched, Without;
    if op.ReorderObject? { ReorderedIsValid(d.objects[op.objectId], op.zIndex); }
  }

  lemma ReorderedIsValid(o: CanvasObject, z: real)
    ensures ValidObject(o) ==> ValidObject(o.(transform := o.transform[ZIndex := z], revision := o.revision + 1))
  {
    ValidIffComplete(o);
    ValidIffComplete(o.(transform := o.transform[ZIndex := z], revision := o.revision + 1));
  }

  lemma TransactionValidIff(tx: Transaction)
    ensures ValidTransaction(tx)
            <==> tx.operations != [] && forall op :: op in tx.operations && op.CreateObject? ==>
                   Complete(op.item.transform)
  {
    hide ValidObject, Complete;
    forall i | 0 <= i < |tx.operations| && tx.operations[i].CreateObject?
      ensures ValidObject(tx.operations[i].item) <==> Complete(tx.operations[i].item.transform)
    {
      ValidIffComplete(tx.operations[i].item);
    }
  }

  lemma {:induction false} CanvasesRemain(d: CanvasState, ops: seq<Operation>, c: Id)
    requires WellKeyed(d) && ApplyOperations(d, ops, c).Ok?
    ensures var d' := ApplyOperations(d, ops, c).value; WellKeyed(d') && d.canvases.Keys <= d'.canvases.Keys
  {
    hide CanvasesMove, WellKeyed, ApplyOperation;
    if ops != [] {
      var init, op := ops[..|ops| - 1], ops[|ops| - 1];
      CanvasesRemain(d, init, c);
      var before := ApplyOperations(d, init, c).value;
      OperationKeepsKeyed(before, op, c);
      CanvasesDo(before, op, c);
      CanvasesOnlyGrow(before, op, c, ApplyOperation(before, op, c).value);
    }
  }

  lemma CanvasesOnlyGrow(d: CanvasState, op: Operation, c: Id, d': CanvasState)
    requires CanvasesMove(d, op, c, d')
    ensures d.canvases.Keys <= d'.canvases.Keys
  {
  }

  /** The checks of a transaction in their order; once its preconditions hold, only an operation can refuse it, for its
      canvas cannot be gone after them. */
  lemma TransactionChecks(s: CanvasState, tx: Transaction)
    requires WellKeyed(s)
    ensures var r, ops := Draft(s, tx), ApplyOperations(s, tx.operations, tx.canvasId);
            if tx.operations == [] || exists op ::
                 op in tx.operations && op.CreateObject? && !Complete(op.item.transform)
            then r == Err(SchemaInvalid)
            else if tx.canvasId !in s.canvases then r == Err(NotFound)
            else if !PreconditionsHold(s, tx.preconditions) then r == Err(PreconditionFailed)
            else (r.Ok? <==> ops.Ok?) && (ops.Err? ==> r.error == ops.error)
  {
    hide ValidTransaction, PreconditionsHold, ApplyOperations, Bumped, Complete;
    TransactionValidIff(tx);
    if ApplyOperations(s, tx.operations, tx.canvasId).Ok? { CanvasesRemain(s, tx.operations, tx.canvasId); }
  }

  /** The preconditions of a transaction, kind by kind. */
  lemma PreconditionsHoldIff(s: CanvasState, ps: seq<Precondition>)
    ensures PreconditionsHold(s, ps) <==>
              && (forall c, n :: CanvasRevision(c, n) in ps ==> c in s.canvases && s.canvases[c].revision == n)
              && (forall o :: ObjectExists(o, true) in ps ==> o in s.objects)
              && (forall o :: ObjectExists(o, false) in ps ==> o !in s.objects)
              && (forall o, n :: ObjectRevision(o, n) in ps ==> o in s.objects && s.objects[o].revision == n)
  {
    if PreconditionsHold(s, ps) {
      forall p | p in ps ensures Holds(s, p) { }
      assert forall o :: ObjectExists(o, true) in ps ==> Holds(s, ObjectExists(o, true));
      assert forall o :: ObjectExists(o, false) in ps ==> Holds(s, ObjectExists(o, false));
      assert forall c, n :: CanvasRevision(c, n) in ps ==> Holds(s, CanvasRevision(c, n));
      assert forall o, n :: ObjectRevision(o, n) in ps ==> Holds(s, ObjectRevision(o, n));
    }
  }

  // ---------------------------------------------------------------- the objectIds index

  /** The ids a scan of the object map finds on a canvas. */
  function ObjectsOn(s: CanvasState, c: Id): set<Id> {
    set o | o in s.objects && s.objects[o].canvasId == c
  }

  ghost predicate Indexed(s: CanvasState) {
    && (forall o :: o in s.objects ==> s.objects[o].canvasId in s.canvases)
    && (forall c :: c in s.canvases ==> IndexedCanvas(s, c))
  }

  function IdSet(ids: seq<Id>): set<Id> { set id | id in ids }

  ghost predicate IndexedCanvas(s: CanvasState, c: Id)
    requires c in s.canvases
  {
    NoDuplicates(s.canvases[c].objectIds) && IdSet(s.canvases[c].objectIds) == ObjectsOn(s, c)
  }

  /** How callers build a subcanvas; the store itself does not check it. */
  predicate CallerBuilt(op: Operation, c: Id) {
    op.CreateSubcanvas? ==> op.item.canvasId == c && op.canvas.objectIds == []
  }

  lemma AppendToIndex(d: CanvasState, c: Id, id: Id)
    requires c in d.canvases && IndexedCanvas(d, c) && id !in d.objects
    ensures var ids := d.canvases[c].objectIds + [id];
            NoDuplicates(ids) && IdSet(ids) == ObjectsOn(d, c) + {id}
  {
    var ids := d.canvases[c].objectIds;
    assert id !in IdSet(ids);
    assert IdSet(ids + [id]) == IdSet(ids) + {id};
  }

  lemma CreateKeepsIndex(d: CanvasState, o: CanvasObject, c: Id)
    requires WellKeyed(d) && Indexed(d) && ApplyOperation(d, CreateObject(o), c).Ok?
    ensures Indexed(ApplyOperation(d, CreateObject(o), c).value)
  {
    var d' := ApplyOperation(d, CreateObject(o), c).value;
    assert IndexedCanvas(d, c);
    AppendToIndex(d, c, o.id);
    forall x | x in d'.canvases ensures IndexedCanvas(d', x) {
      assert IndexedCanvas(d, x);
      assert ObjectsOn(d', x) == if x == c then ObjectsOn(d, x) + {o.id} else ObjectsOn(d, x);
    }
  }

  lemma DeleteKeepsIndex(d: CanvasState, op: Operation, c: Id)
    requires WellKeyed(d) && Indexed(d) && op.DeleteObject? && ApplyOperation(d, op, c).Ok?
    ensures Indexed(ApplyOperation(d, op, c).value)
  {
    var d', id := ApplyOperation(d, op, c).value, op.objectId;
    assert IndexedCanvas(d, c);
    WithoutKeepsOrder(d.canvases[c].objectIds, id);
    forall x | x in d'.canvases ensures IndexedCanvas(d', x) {
      assert IndexedCanvas(d, x);
      assert ObjectsOn(d', x) == if x == c then ObjectsOn(d, x) - {id} else ObjectsOn(d, x);
    }
  }

  lemma UpdateKeepsIndex(d: CanvasState, op: Operation, c: Id)
    requires WellKeyed(d) && Indexed(d) && (op.PatchObject? || op.ReorderObject?) && ApplyOperation(d, op, c).Ok?
    ensures Indexed(ApplyOperation(d, op, c).value)
  {
    var d' := ApplyOperation(d, op, c).value;
    forall x | x in d'.canvases ensures IndexedCanvas(d', x) {
      assert IndexedCanvas(d, x);
      assert ObjectsOn(d', x) == ObjectsOn(d, x);
    }
  }

  lemma SubcanvasKeepsIndexIff(d: CanvasState, op: Operation, c: Id)
    requires WellKeyed(d) && Indexed(d) && op.CreateSubcanvas? && ApplyOperation(d, op, c).Ok?
    ensures Indexed(ApplyOperation(d, op, c).value) <==> CallerBuilt(op, c)
  {
    var d', o, doc := ApplyOperation(d, op, c).value, op.item, op.canvas;
    assert IndexedCanvas(d, c);
    AppendToIndex(d, c, o.id);
    assert d'.canvases[doc.id] == doc;
    assert doc.objectIds != [] ==> doc.objectIds[0] in IdSet(doc.objectIds);
    if CallerBuilt(op, c) {
      forall x | x in d'.canvases ensures IndexedCanvas(d', x) {
        if x == doc.id {
          assert ObjectsOn(d', x) == {};
        } else {
          assert IndexedCanvas(d, x);
          assert ObjectsOn(d', x) == if x == c then ObjectsOn(d, x) + {o.id} else ObjectsOn(d, x);
        }
      }
    }
    if Indexed(d') {
      assert IndexedCanvas(d', c) && IndexedCanvas(d', doc.id);
      assert o.id in IdSet(d'.canvases[c].objectIds);
      assert ObjectsOn(d', doc.id) == {};
    }
  }

  /** An operation keeps the index exactly when it is built as its callers build it. */
  lemma OperationKeepsIndexIff(d: CanvasState, op: Operation, c: Id)
    requires WellKeyed(d) && Indexed(d) && ApplyOperation(d, op, c).Ok?
    ensures WellKeyed(ApplyOperation(d, op, c).value)
    ensures Indexed(ApplyOperation(d, op, c).value) <==> CallerBuilt(op, c)
  {
    match op
    case CreateObject(o) => CreateKeepsIndex(d, o, c);
    case CreateSubcanvas(_, _) => SubcanvasKeepsIndexIff(d, op, c);
    case DeleteObject(_, _) => DeleteKeepsIndex(d, op, c);
    case _ => UpdateKeepsIndex(d, op, c);
  }

  /** The failing family is inhabited: a subcanvas object that names another canvas leaves the index wrong. */
  lemma MisplacedSubcanvasBreaksIndex(t: Transform)
    requires t.Keys == {X, Y, Width, Height, Rotation, ScaleX, ScaleY, ZIndex} && t[Width] >= 0.0 && t[Height] >= 0.0
    ensures var d := CanvasState(0, map[0 := CanvasDocument(0, None, None, [], 0)], map[], {});
            var op := CreateSubcanvas(CanvasObject(5, 9, Subcanvas, t, map[], map[], map[], 0),
                                      CanvasDocument(1, Some(0), Some(5), [], 0));
            Indexed(d) && ApplyOperation(d, op, 0).Ok? && !Indexed(ApplyOperation(d, op, 0).value)
  {
    var d := CanvasState(0, map[0 := CanvasDocument(0, None, None, [], 0)], map[], {});
    var op := CreateSubcanvas(CanvasObject(5, 9, Subcanvas, t, map[], map[], map[], 0),
                              CanvasDocument(1, Some(0), Some(5), [], 0));
    assert IndexedCanvas(d, 0) by { assert ObjectsOn(d, 0) == {}; }
    OperationKeepsIndexIff(d, op, 0);
  }

  // ---------------------------------------------------------------- the tree of canvases

  /** A path of parent links from `from` down to `to`. */
  ghost predicate IsPath(cs: map<Id, CanvasDocument>, from: Id, to: Id, p: seq<Id>) {
    && p != [] && p[0] == from && p[|p| - 1] == to
    && (forall i :: 0 <= i < |p| ==> p[i] in cs)
    && (forall i :: 0 < i < |p| ==> cs[p[i]].parentCanvasId == Some(p[i - 1]))
  }

  /** Every canvas hangs below the parentless root, by a portal object. */
  ghost predicate Tree(s: CanvasState) {
    && s.rootCanvasId in s.canvases && s.canvases[s.rootCanvasId].parentCanvasId == None
    && (forall c :: c in s.canvases && c != s.rootCanvasId ==> s.canvases[c].parentObjectId.Some?)
    && forall c :: c in s.canvases ==> Rooted(s, c)
  }

  ghost predicate Rooted(s: CanvasState, c: Id) {
    exists p: seq<Id> :: IsPath(s.canvases, s.rootCanvasId, c, p)
  }

  /** Parent links are only ever added, for new canvases. */
  ghost predicate SameLinks(cs: map<Id, CanvasDocument>, cs': map<Id, CanvasDocument>) {
    cs.Keys <= cs'.Keys
    && forall c :: c in cs ==>
         cs'[c].parentCanvasId == cs[c].parentCanvasId && cs'[c].parentObjectId == cs[c].parentObjectId
  }

  lemma PathPersists(cs: map<Id, CanvasDocument>, cs': map<Id, CanvasDocument>, from: Id, to: Id, p: seq<Id>)
    requires IsPath(cs, from, to, p) && SameLinks(cs, cs')
    ensures IsPath(cs', from, to, p)
  {
  }

  lemma OperationKeepsLinks(d: CanvasState, op: Operation, c: Id)
    requires ApplyOperation(d, op, c).Ok?
    ensures var d' := ApplyOperation(d, op, c).value;
            && SameLinks(d.canvases, d'.canvases) && d'.rootCanvasId == d.rootCanvasId && d'.keys == d.keys
            && forall x :: x in d'.canvases && x !in d.canvases ==>
                 c in d.canvases && d'.canvases[x].parentCanvasId == Some(c) && d'.canvases[x].parentObjectId.Some?
  {
    hide ValidObject, Patched, Without;
  }

  lemma OperationKeepsTree(d: CanvasState, op: Operation, c: Id)
    requires Tree(d) && ApplyOperation(d, op, c).Ok?
    ensures var d' := ApplyOperation(d, op, c).value;
            Tree(d') && SameLinks(d.canvases, d'.canvases) && d'.rootCanvasId == d.rootCanvasId && d'.keys == d.keys
  {
    hide ApplyOperation;
    var d' := ApplyOperation(d, op, c).value;
    OperationKeepsLinks(d, op, c);
    forall x | x in d'.canvases ensures Rooted(d', x) {
      var nearest := if x in d.canvases then x else c;
      assert Rooted(d, nearest);
      var p: seq<Id> :| IsPath(d.canvases, d.rootCanvasId, nearest, p);
      PathPersists(d.canvases, d'.canvases, d.rootCanvasId, nearest, p);
      if x !in d.canvases {
        assert IsPath(d'.canvases, d.rootCanvasId, x, p + [x]);
      }
    }
  }

  /** The path to a canvas from a parentless start is unique. */
  lemma {:induction false} PathIsUnique(cs: map<Id, CanvasDocument>, a: Id, b: Id, to: Id, p: seq<Id>, q: seq<Id>)
    requires IsPath(cs, a, to, p) && IsPath(cs, b, to, q)
    requires cs[a].parentCanvasId == None && cs[b].parentCanvasId == None
    ensures p == q
    decreases |p|
  {
    var m, n := |p| - 1, |q| - 1;
    assert p[m] == to && q[n] == to;
    assert (m > 0 ==> cs[p[m]].parentCanvasId == Some(p[m - 1]))
           && (n > 0 ==> cs[q[n]].parentCanvasId == Some(q[n - 1]));
    if m == 0 || n == 0 {
      assert m == 0 && n == 0;
      assert p == [to] && q == [to];
    } else {
      assert p[m - 1] == q[n - 1];
      PathIsUnique(cs, a, b, p[m - 1], p[..m], q[..n]);
      assert p == p[..m] + [to] && q == q[..n] + [to];
    }
  }

  /** It never visits a canvas twice. */
  lemma {:induction false} PathHasNoRepeats(cs: map<Id, CanvasDocument>, from: Id, to: Id, p: seq<Id>)
    requires IsPath(cs, from, to, p) && cs[from].parentCanvasId == None
    ensures NoDuplicates(p)
  {
    forall i, j | 0 <= i < j < |p| ensures p[i] != p[j] {
      if p[i] == p[j] {
        assert IsPath(cs, from, p[i], p[..i + 1]) && IsPath(cs, from, p[j], p[..j + 1]);
        PathIsUnique(cs, from, from, p[i], p[..i + 1], p[..j + 1]);
      }
    }
  }

  datatype LineageError = CanvasMissing | CycleAt(canvas: Id)

  datatype Lineage = Lineage(canvasIds: seq<Id>, portalObjectIds: seq<Id>)

  function Portals(cs: map<Id, CanvasDocument>, p: seq<Id>): seq<Id> {
    if p == [] then []
    else (if p[0] in cs && cs[p[0]].parentObjectId.Some? then [cs[p[0]].parentObjectId.value] else [])
         + Portals(cs, p[1..])
  }

  /** In a tree, parent links lead somewhere until the root, and no path of them, whole or partial, repeats. */
  lemma TreeParents(s: CanvasState, c: Id)
    requires Tree(s) && c in s.canvases
    ensures match s.canvases[c].parentCanvasId
            case None => c == s.rootCanvasId
            case Some(parent) => parent in s.canvases
  {
    assert Rooted(s, c);
    var p: seq<Id> :| IsPath(s.canvases, s.rootCanvasId, c, p);
    var n := |p| - 1;
    assert n > 0 ==> s.canvases[p[n]].parentCanvasId == Some(p[n - 1]);
  }

  lemma PartialPathHasNoRepeats(s: CanvasState, from: Id, to: Id, q: seq<Id>)
    requires Tree(s) && IsPath(s.canvases, from, to, q)
    ensures NoDuplicates(q)
  {
    assert Rooted(s, from);
    var p: seq<Id> :| IsPath(s.canvases, s.rootCanvasId, from, p);
    var whole := p + q[1..];
    assert IsPath(s.canvases, s.rootCanvasId, to, whole);
    PathHasNoRepeats(s.canvases, s.rootCanvasId, to, whole);
    forall i, j | 0 <= i < j < |q| ensures q[i] != q[j] {
      var k := |p| - 1;
      assert whole[k + i] == q[i] && whole[k + j] == q[j];
    }
  }

  /** The loop of `canvas.get_lineage`. On a tree its two failures cannot happen and it returns the unique path
      from the root to the target, with the portal object of every step. */
  method GetLineage(s: CanvasState, target: Id) returns (r: Result<Lineage, LineageError>)
    ensures r.Ok? ==> r.value.canvasIds != [] && IsPath(s.canvases, r.value.canvasIds[0], target, r.value.canvasIds)
                      && s.canvases[r.value.canvasIds[0]].parentCanvasId == None
    ensures r.Ok? ==> r.value.portalObjectIds == Portals(s.canvases, r.value.canvasIds[1..])
    ensures Tree(s) && target in s.canvases ==> r.Ok? && r.value.canvasIds[0] == s.rootCanvasId
    ensures target !in s.canvases ==> r == Err(CanvasMissing)
  {
    if target !in s.canvases { return Err(CanvasMissing); }
    var canvasIds: seq<Id>, portals: seq<Id>, current, seen := [], [], target, {};
    while true
      invariant current in s.canvases && seen == IdSet(canvasIds) && seen <= s.canvases.Keys
      invariant IsPath(s.canvases, current, target, [current] + canvasIds)
      invariant portals == Portals(s.canvases, canvasIds)
      decreases s.canvases.Keys - seen
    {
      hide Tree;
      ghost var q := [current] + canvasIds;
      assert forall i :: 0 < i < |q| ==> q[i] == canvasIds[i - 1];
      if current in seen {
        ghost var k :| 0 <= k < |canvasIds| && canvasIds[k] == current;
        assert q[k + 1] == q[0];
        if Tree(s) { PartialPathHasNoRepeats(s, current, target, q); }
        return Err(CycleAt(current));
      }
      seen := seen + {current};
      canvasIds := [current] + canvasIds;
      if Tree(s) { TreeParents(s, current); }
      var doc := s.canvases[current];
      assert q[1..] == canvasIds[1..];
      if doc.parentCanvasId.None? { return Ok(Lineage(canvasIds, portals)); }
      if doc.parentObjectId.Some? { portals := [doc.parentObjectId.value] + portals; }
      if doc.parentCanvasId.value !in s.canvases { return Err(CanvasMissing); }
      assert [doc.parentCanvasId.value] + canvasIds == [doc.parentCanvasId.value] + q;
      current := doc.parentCanvasId.value;
    }
  }
}
