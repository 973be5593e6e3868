/** Delivery of the room log to one client over sockets that are FIFO and may be dropped at any moment.
    Other clients only appear through the updates they commit. */
module SyncProtocol {
  import opened Basics
  import opened StateVectorSync

  // ---------------------------------------------------------------- the client

  datatype ClientState = ClientState(vector: StateVector, received: seq<Applied>, connected: bool, connecting: bool)

  function FinishHello(c: ClientState, vector: StateVector, missing: seq<Applied>): ClientState {
    ClientState(MergeTwo(c.vector, vector), c.received + missing, true, false)
  }

  /** An update frame; without a vector only the update's own counter is taken over. */
  function TakeUpdate(c: ClientState, a: Applied, vector: Option<StateVector>): ClientState {
    var v := if vector.Some? then MergeTwo(c.vector, vector.value)
             else Bump(c.vector, a.update.clientId, a.update.counter);
    c.(vector := v, received := c.received + [a])
  }

  function Unlinked(c: ClientState): ClientState { c.(connected := false, connecting := false) }

  class SecureCanvasSyncClient {
    var vector: StateVector
    var connected: bool
    var connecting: bool
    ghost var received: seq<Applied>  // what the listeners were handed, in order

    ghost function State(): ClientState
      reads this
    {
      ClientState(vector, received, connected, connecting)
    }

    constructor (initial: StateVector)
      ensures State() == ClientState(initial, [], false, false)
    {
      vector, connected, connecting, received := initial, false, false, [];
    }

    method Connect() returns (ok: bool)
      modifies this
      ensures ok == !(old(connected) || old(connecting))
      ensures State() == if ok then old(State()).(connecting := true) else old(State())
    {
      if connected || connecting { return false; }
      connecting := true;
      ok := true;
    }

    method OnHelloAck(incoming: StateVector, missing: seq<Applied>)
      modifies this
      ensures State() == FinishHello(old(State()), incoming, missing)
    {
      connecting, connected := false, true;
      vector := MergeEntries(vector, incoming);
      received := received + missing;
    }

    method OnUpdate(a: Applied, incoming: Option<StateVector>)
      modifies this
      ensures State() == TakeUpdate(old(State()), a, incoming)
    {
      if incoming.Some? {
        vector := MergeEntries(vector, incoming.value);
      } else {
        vector := Bump(vector, a.update.clientId, a.update.counter);
      }
      received := received + [a];
    }

    method OnClosed()
      modifies this
      ensures State() == Unlinked(old(State()))
    {
      connected, connecting := false, false;
    }
  }

  // ---------------------------------------------------------------- sockets and steps

  datatype Frame =
    | Ack(vector: StateVector, missing: seq<Applied>)
    | Update(applied: Applied, vector: StateVector)

  /** Whether the hub counts the socket among its peers. */
  datatype Stage = Fresh | Peer | Gone

  datatype Socket = Socket(
    stage: Stage,
    helloSent: bool,
    hello: Option<StateVector>,  // sent by the client, not yet handled by the hub
    inbound: seq<Frame>,         // written by the hub, not yet delivered
    settled: bool,               // the client's connect promise has resolved or failed
    open: bool,                  // messages still reach the client
    closed: bool)                // the close event has reached the client

  datatype World = World(room: RoomState, sockets: seq<Socket>, client: ClientState)

  datatype Event =
    | Connect
    | Accept(i: nat)
    | Open(i: nat)
    | HandleHello(i: nat)
    | Commit(update: SyncUpdate, outcome: Option<nat>)
    | Deliver(i: nat)
    | HubRemoves(i: nat)
    | Disconnect(i: nat)
    | FailHello(i: nat)
    | CloseEvent(i: nat)

  const NewSocket := Socket(Fresh, false, None, [], false, true, false)

  function Broadcast(sockets: seq<Socket>, f: Frame): seq<Socket> {
    seq(|sockets|, i requires 0 <= i < |sockets| =>
      if sockets[i].stage == Peer then sockets[i].(inbound := sockets[i].inbound + [f]) else sockets[i])
  }

  function With(w: World, i: nat, s: Socket): World
    requires i < |w.sockets|
  {
    w.(sockets := w.sockets[i := s])
  }

  /** A frame reaching the client: before the promise settles only a hello_ack is looked at. */
  function Receive(w: World, i: nat): World
    requires i < |w.sockets| && w.sockets[i].inbound != []
  {
    var s := w.sockets[i];
    var rest := s.(inbound := s.inbound[1..]);
    match s.inbound[0]
    case Ack(v, missing) =>
      if s.settled then With(w, i, rest)
      else With(w, i, rest.(settled := true)).(client := FinishHello(w.client, v, missing))
    case Update(a, v) =>
      if s.settled then With(w, i, rest).(client := TakeUpdate(w.client, a, Some(v)))
      else With(w, i, rest)
  }

  function CommitStep(w: World, u: SyncUpdate, outcome: Option<nat>): World {
    if Guard(w.room, u, true).Admit? && outcome.Some? then
      var a := Applied(u, outcome.value);
      var room := Remember(w.room, a);
      World(room, Broadcast(w.sockets, Update(a, room.vector)), w.client)
    else w
  }

  function Step(w: World, e: Event): World {
    match e
    case Commit(u, outcome) => CommitStep(w, u, outcome)
    case Connect =>
      if w.client.connected || w.client.connecting then w
      else w.(sockets := w.sockets + [NewSocket], client := w.client.(connecting := true))
    case _ =>
      if e.i >= |w.sockets| then w
      else
        var i, s := e.i, w.sockets[e.i];
        match e
        case Accept(_) => if s.stage == Fresh then With(w, i, s.(stage := Peer)) else w
        case Open(_) =>
          if s.stage != Fresh && s.open && !s.helloSent
          then With(w, i, s.(helloSent := true, hello := Some(w.client.vector))) else w
        case HandleHello(_) =>
          if s.stage == Peer && s.hello.Some?
          then With(w, i, s.(hello := None,
                             inbound := s.inbound + [Ack(w.room.vector, Diff(w.room.updates, s.hello.value))]))
          else w
        case Deliver(_) => if s.open && s.inbound != [] then Receive(w, i) else w
        case HubRemoves(_) => if s.stage == Peer then With(w, i, s.(stage := Gone)) else w
        case Disconnect(_) => if s.open then With(w, i, s.(open := false)).(client := Unlinked(w.client)) else w
        case FailHello(_) =>
          if !s.settled then With(w, i, s.(settled := true, open := false)).(client := Unlinked(w.client)) else w
        case CloseEvent(_) =>
          if !s.closed
          then With(w, i, s.(settled := true, open := false, closed := true)).(client := Unlinked(w.client)) else w
        case _ => w
  }

  function Run(w: World, events: seq<Event>): World
    decreases |events|
  {
    if events == [] then w else Run(Step(w, events[0]), events[1..])
  }

  /**
   * A queue from which an unsettled socket hands nothing over: frames to be dropped, then at most an empty hello_ack.
   */
  predicate NothingToHand(q: seq<Frame>) {
    q == [] || (if q[0].Update? then NothingToHand(q[1..]) else q[0].missing == [] && |q| == 1)
  }

  /** The hub has removed the socket and nothing it still carries would reach the listeners. */
  predicate Spent(s: Socket) {
    s.stage == Gone && if s.settled then s.inbound == [] else NothingToHand(s.inbound)
  }

  /** The client acts on a connect only when it takes itself for unconnected. */
  predicate ActsOnConnect(c: ClientState) { !c.connected && !c.connecting }

  /** Beside a new connection no socket is open that could still hand anything over. */
  predicate NoneBeside(w: World) { forall i :: 0 <= i < |w.sockets| && w.sockets[i].open ==> Spent(w.sockets[i]) }

  /** No connection is opened beside such a socket. */
  predicate Disciplined(w: World, events: seq<Event>)
    decreases |events|
  {
    events == [] ||
    ((events[0] == Connect && ActsOnConnect(w.client) ==> NoneBeside(w))
     && Disciplined(Step(w, events[0]), events[1..]))
  }

  // ---------------------------------------------------------------- the invariant

  /** The frame that broadcasts the log's entry `i`, with the vector it led to. */
  function Sent(log: seq<Applied>, i: nat): Frame
    requires i < |log|
  {
    Update(log[i], VectorOf(log[..i + 1]))
  }

  /** The queue holds the updates of the log from `lo` on, in order. */
  ghost predicate Carries(q: seq<Frame>, log: seq<Applied>, lo: nat) {
    && lo + |q| <= |log|
    && forall j :: 0 <= j < |q| ==> q[j] == Sent(log, lo + j)
  }

  /** The queue holds frames to be dropped, then the hello_ack that fills the gap up to some point, then
      the updates from there on. */
  ghost predicate Awaits(q: seq<Frame>, log: seq<Applied>, lo: nat) {
    q != [] &&
    match q[0]
    case Update(_, _) => Awaits(q[1..], log, lo)
    case Ack(v, missing) =>
      && lo + |missing| <= |log| && missing == log[lo..lo + |missing|]
      && v == VectorOf(log[..lo + |missing|]) && Carries(q[1..], log, lo + |missing|)
  }

  /** Where in the log the queue ends. */
  function End(q: seq<Frame>, lo: nat): nat {
    if q == [] then lo
    else match q[0]
         case Update(_, _) => End(q[1..], lo)
         case Ack(_, missing) => lo + |missing| + |q| - 1
  }

  ghost predicate NoAck(q: seq<Frame>) { forall j :: 0 <= j < |q| ==> q[j].Update? }

  ghost predicate LiveOk(s: Socket, log: seq<Applied>, c: ClientState) {
    var lo := |c.received|;
    && (s.stage == Fresh ==> !s.settled && !s.helloSent && s.inbound == [])
    && (s.hello.Some? ==> s.helloSent && !s.settled)
    && (s.settled ==> s.helloSent)
    &&
    if s.settled then
      Carries(s.inbound, log, lo) && (s.stage == Peer ==> lo + |s.inbound| == |log|)
    else if s.hello.Some? || !s.helloSent then
      && NoAck(s.inbound)
      && (s.hello.Some? ==> s.hello.value == c.vector)
    else
      Awaits(s.inbound, log, lo) && (s.stage == Peer ==> End(s.inbound, lo) == |log|)
  }

  ghost predicate RoomHealthy(r: RoomState) {
    Indexed(r) && GapFree(r.updates) && Strict(r.updates)
  }

  /** Merging `v` into `vector` changes nothing. */
  predicate Below(v: StateVector, vector: StateVector) { forall c :: c in v ==> c in vector && v[c] <= vector[c] }

  /** A spent socket's hello_ack, should one come, tells the client nothing new. */
  ghost predicate SpentOk(s: Socket, c: ClientState) {
    Spent(s) && forall j :: 0 <= j < |s.inbound| && s.inbound[j].Ack? ==> Below(s.inbound[j].vector, c.vector)
  }

  /** The client holds a prefix of the log and that prefix's vector. */
  ghost predicate Follows(r: RoomState, c: ClientState) {
    RoomHealthy(r) && c.received <= r.updates && c.vector == VectorOf(c.received)
  }

  /** Of the open sockets only the last may still hand anything over. */
  ghost predicate Inv(w: World) {
    && Follows(w.room, w.client)
    && (forall i :: 0 <= i < |w.sockets| ==> (w.sockets[i].closed ==> !w.sockets[i].open))
    && (forall i :: 0 <= i < |w.sockets| && w.sockets[i].open ==>
          SpentOk(w.sockets[i], w.client) || (i == |w.sockets| - 1 && LiveOk(w.sockets[i], w.room.updates, w.client)))
  }

  // ---------------------------------------------------------------- queue lemmas

  lemma SentInGrown(log: seq<Applied>, a: Applied, i: nat)
    requires i <= |log|
    ensures Sent(log + [a], i) == if i < |log| then Sent(log, i) else Update(a, VectorOf(log + [a]))
  {
    assert i < |log| ==> (log + [a])[..i + 1] == log[..i + 1];
    assert (log + [a])[..|log| + 1] == log + [a];
  }

  lemma CarriesGrows(q: seq<Frame>, log: seq<Applied>, a: Applied, lo: nat)
    requires Carries(q, log, lo)
    ensures Carries(q, log + [a], lo)
    ensures lo + |q| == |log| ==> Carries(q + [Update(a, VectorOf(log + [a]))], log + [a], lo)
  {
    forall i: nat | i <= |log|
      ensures Sent(log + [a], i) == if i < |log| then Sent(log, i) else Update(a, VectorOf(log + [a])) {
      SentInGrown(log, a, i);
    }
  }

  lemma CarriesTail(q: seq<Frame>, log: seq<Applied>, lo: nat)
    requires Carries(q, log, lo) && q != []
    ensures lo < |log| && q[0] == Sent(log, lo) && Carries(q[1..], log, lo + 1)
  {
    forall j | 0 <= j < |q[1..]| ensures q[1..][j] == Sent(log, lo + 1 + j) {
      assert q[1..][j] == q[j + 1];
    }
  }

  lemma MergeAlong(log: seq<Applied>, k: nat, m: nat)
    requires k <= m <= |log|
    ensures MergeTwo(VectorOf(log[..k]), VectorOf(log[..m])) == VectorOf(log[..m])
    ensures log[..k] + log[k..m] == log[..m]
  {
    assert log[..m][..k] == log[..k];
    MergeWithPrefix(log[..m], k);
  }

  lemma PrefixOfGrown(log: seq<Applied>, a: Applied, lo: nat, k: nat)
    requires lo <= k <= |log|
    ensures (log + [a])[..k] == log[..k] && (log + [a])[lo..k] == log[lo..k]
  {
  }

  lemma AckGrows(q: seq<Frame>, log: seq<Applied>, a: Applied, lo: nat)
    requires Awaits(q, log, lo) && q[0].Ack?
    ensures Awaits(q, log + [a], lo)
    ensures End(q, lo) == |log| ==>
              var q' := q + [Update(a, VectorOf(log + [a]))];
              Awaits(q', log + [a], lo) && End(q', lo) == |log| + 1
  {
    var m := lo + |q[0].missing|;
    PrefixOfGrown(log, a, lo, m);
    CarriesGrows(q[1..], log, a, m);
    var q' := q + [Update(a, VectorOf(log + [a]))];
    assert q'[0] == q[0] && q'[1..] == q[1..] + [Update(a, VectorOf(log + [a]))];
  }

  lemma {:induction false} AwaitsGrows(q: seq<Frame>, log: seq<Applied>, a: Applied, lo: nat)
    requires Awaits(q, log, lo)
    ensures Awaits(q, log + [a], lo)
    ensures End(q, lo) == |log| ==>
              var q' := q + [Update(a, VectorOf(log + [a]))];
              Awaits(q', log + [a], lo) && End(q', lo) == |log| + 1
  {
    if q[0].Ack? {
      AckGrows(q, log, a, lo);
    } else {
      AwaitsGrows(q[1..], log, a, lo);
      var q' := q + [Update(a, VectorOf(log + [a]))];
      assert q'[0] == q[0] && q'[1..] == q[1..] + [Update(a, VectorOf(log + [a]))];
    }
  }

  lemma {:induction false} AckClosesTheGap(q: seq<Frame>, log: seq<Applied>, lo: nat)
    requires NoAck(q) && lo <= |log|
    ensures var q' := q + [Ack(VectorOf(log), log[lo..])];
            Awaits(q', log, lo) && End(q', lo) == |log|
  {
    var f := Ack(VectorOf(log), log[lo..]);
    assert log[..|log|] == log;
    if q == [] {
      assert q + [f] == [f] && [f][1..] == [];
    } else {
      assert (q + [f])[1..] == q[1..] + [f];
      AckClosesTheGap(q[1..], log, lo);
    }
  }

  // ---------------------------------------------------------------- every step keeps the invariant

  /** A commit extends the queue of a live socket. */
  lemma CommitSocket(s: Socket, log: seq<Applied>, a: Applied, c: ClientState)
    requires LiveOk(s, log, c)
    ensures var f := Update(a, VectorOf(log + [a]));
            LiveOk(if s.stage == Peer then s.(inbound := s.inbound + [f]) else s, log + [a], c)
  {
    if s.settled {
      CarriesGrows(s.inbound, log, a, |c.received|);
    } else if s.helloSent && s.hello.None? {
      AwaitsGrows(s.inbound, log, a, |c.received|);
    }
  }

  lemma CommitKeeps(w: World, u: SyncUpdate, outcome: Option<nat>)
    requires Inv(w)
    ensures Inv(CommitStep(w, u, outcome))
  {
    if Guard(w.room, u, true).Admit? && outcome.Some? {
      hide LiveOk, Spent, GapFree, Strict;
      var a, w' := Applied(u, outcome.value), CommitStep(w, u, outcome);
      var log := w.room.updates;
      CommitFollows(w, u, outcome);
      forall i | 0 <= i < |w'.sockets| && w'.sockets[i].open
        ensures SpentOk(w'.sockets[i], w'.client)
                || (i == |w'.sockets| - 1 && LiveOk(w'.sockets[i], w'.room.updates, w'.client))
      {
        var s := w.sockets[i];
        if SpentOk(s, w.client) { SpentIsGone(s); } else { CommitSocket(s, log, a, w.client); }
      }
    }
  }

  lemma SpentIsGone(s: Socket)
    requires Spent(s)
    ensures s.stage == Gone
  {
  }

  lemma CommitFollows(w: World, u: SyncUpdate, outcome: Option<nat>)
    requires Follows(w.room, w.client) && Guard(w.room, u, true).Admit? && outcome.Some?
    ensures var w', a := CommitStep(w, u, outcome), Applied(u, outcome.value);
            && Follows(w'.room, w'.client) && w'.client == w.client && w'.room.updates == w.room.updates + [a]
            && w'.room.vector == VectorOf(w'.room.updates)
  {
    ApplyAtomicKeeps(w.room, u, true, outcome);
  }

  /** The hub answers a hello with exactly what the client is missing. */
  lemma DiffIsTheRest(r: RoomState, c: ClientState)
    requires Follows(r, c)
    ensures Diff(r.updates, c.vector) == r.updates[|c.received|..] && r.vector == VectorOf(r.updates)
  {
    assert r.updates[..|c.received|] == c.received;
    GapFreeIsPositive(r.updates);
    DiffOfPrefix(r.updates, |c.received|);
  }

  lemma HelloSocket(s: Socket, r: RoomState, c: ClientState)
    requires Follows(r, c) && LiveOk(s, r.updates, c) && s.stage == Peer && s.hello.Some?
    ensures LiveOk(s.(hello := None, inbound := s.inbound + [Ack(r.vector, Diff(r.updates, s.hello.value))]),
                   r.updates, c)
  {
    hide GapFree, Strict, Diff;
    DiffIsTheRest(r, c);
    AckClosesTheGap(s.inbound, r.updates, |c.received|);
  }

  lemma HelloKeeps(w: World, i: nat)
    requires Inv(w)
    ensures Inv(Step(w, HandleHello(i)))
  {
    hide LiveOk, GapFree, Strict, Diff, NothingToHand;
    if i < |w.sockets| && w.sockets[i].stage == Peer && w.sockets[i].hello.Some? && w.sockets[i].open {
      HelloSocket(w.sockets[i], w.room, w.client);
    }
  }

  /** The client after a delivered update, or after its hello_ack, holds the prefix the queue goes on from. */
  lemma ReceiveUpdate(c: ClientState, q: seq<Frame>, log: seq<Applied>)
    requires c.received <= log && c.vector == VectorOf(c.received) && Carries(q, log, |c.received|) && q != []
    ensures q[0].Update?
    ensures var c' := TakeUpdate(c, q[0].applied, Some(q[0].vector));
            c'.received <= log && c'.vector == VectorOf(c'.received) && Carries(q[1..], log, |c'.received|)
  {
    hide Carries, VectorOf, MergeTwo;
    var k := |c.received|;
    CarriesTail(q, log, k);
    MergeAlong(log, k, k + 1);
    assert log[..k] == c.received && log[k..k + 1] == [log[k]];
  }

  lemma ReceiveAck(c: ClientState, q: seq<Frame>, log: seq<Applied>)
    requires c.received <= log && c.vector == VectorOf(c.received) && Awaits(q, log, |c.received|) && q[0].Ack?
    ensures var c' := FinishHello(c, q[0].vector, q[0].missing);
            && c'.received <= log && c'.vector == VectorOf(c'.received) && Carries(q[1..], log, |c'.received|)
            && |c'.received| + |q[1..]| == End(q, |c.received|)
  {
    var k := |c.received|;
    MergeAlong(log, k, k + |q[0].missing|);
    assert log[..k] == c.received;
  }

  /** What a spent socket delivers changes at most the link flags. */
  lemma SpentDelivery(w: World, i: nat)
    requires i < |w.sockets| && SpentOk(w.sockets[i], w.client) && w.sockets[i].inbound != []
    ensures var w' := Receive(w, i);
            && w'.client.received == w.client.received && w'.client.vector == w.client.vector
            && w'.sockets == w.sockets[i := w'.sockets[i]] && SpentOk(w'.sockets[i], w'.client)
            && w'.sockets[i].open == w.sockets[i].open && w'.sockets[i].closed == w.sockets[i].closed
            && w'.room == w.room
  {
    var q := w.sockets[i].inbound;
    if q[0].Ack? {
      assert MergeTwo(w.client.vector, q[0].vector) == w.client.vector;
    } else {
      assert forall j :: 0 <= j < |q[1..]| ==> q[1..][j] == q[j + 1];
    }
  }

  /** What a live socket delivers keeps the client on the log, and its own queue in step with the client. */
  lemma LiveDelivery(w: World, i: nat)
    requires i < |w.sockets| && Follows(w.room, w.client) && LiveOk(w.sockets[i], w.room.updates, w.client)
             && w.sockets[i].inbound != []
    ensures var w' := Receive(w, i);
            && Follows(w'.room, w'.client) && LiveOk(w'.sockets[i], w'.room.updates, w'.client) && w'.room == w.room
            && w'.sockets == w.sockets[i := w'.sockets[i]] && w.client.received <= w'.client.received
            && w'.sockets[i].open == w.sockets[i].open && w'.sockets[i].closed == w.sockets[i].closed
  {
    hide GapFree, Strict, Indexed;
    var s, log := w.sockets[i], w.room.updates;
    if s.settled {
      ReceiveUpdate(w.client, s.inbound, log);
    } else if s.inbound[0].Ack? {
      ReceiveAck(w.client, s.inbound, log);
    }
  }

  lemma VectorsGrow(r: RoomState, c: ClientState, d: ClientState, v: StateVector)
    requires Follows(r, c) && Follows(r, d) && c.received <= d.received && Below(v, c.vector)
    ensures Below(v, d.vector)
  {
    hide GapFree, Strict, Indexed;
    var k := |c.received|;
    assert d.received[..k] == c.received;
    VectorKeysGrow(d.received, k);
    forall x | x in v ensures x in d.vector && v[x] <= d.vector[x] { VectorGrows(d.received, k, x); }
  }

  lemma SpentStaysOk(s: Socket, r: RoomState, c: ClientState, d: ClientState)
    requires Follows(r, c) && Follows(r, d) && c.received <= d.received && SpentOk(s, c)
    ensures SpentOk(s, d)
  {
    hide Follows, Below, Spent;
    forall j | 0 <= j < |s.inbound| && s.inbound[j].Ack?
      ensures Below(s.inbound[j].vector, d.vector)
    {
      VectorsGrow(r, c, d, s.inbound[j].vector);
    }
  }

  lemma DeliverKeeps(w: World, i: nat)
    requires Inv(w) && i < |w.sockets| && w.sockets[i].open && w.sockets[i].inbound != []
    ensures Inv(Receive(w, i))
  {
    hide Receive, Follows;
    var w' := Receive(w, i);
    if SpentOk(w.sockets[i], w.client) {
      SpentDelivery(w, i);
      FollowsIgnoresFlags(w.room, w.client, w'.client);
      SpentAside(w, w', i);
    } else {
      LiveDelivery(w, i);
      LiveAside(w, w', i);
    }
  }

  lemma FollowsIgnoresFlags(r: RoomState, c: ClientState, d: ClientState)
    requires c.received == d.received && c.vector == d.vector
    ensures Follows(r, c) == Follows(r, d)
  {
  }

  lemma SpentAside(w: World, w': World, i: nat)
    requires Inv(w) && i < |w.sockets| == |w'.sockets| && w'.sockets == w.sockets[i := w'.sockets[i]]
             && w'.room == w.room
    requires w'.client.received == w.client.received && w'.client.vector == w.client.vector
             && Follows(w'.room, w'.client)
    requires SpentOk(w'.sockets[i], w'.client) && (w'.sockets[i].closed ==> !w'.sockets[i].open)
    ensures Inv(w')
  {
    hide Follows, Spent, Carries, Awaits;
  }

  lemma LiveAside(w: World, w': World, i: nat)
    requires Inv(w) && i == |w.sockets| - 1 == |w'.sockets| - 1 && w'.sockets == w.sockets[i := w'.sockets[i]]
             && w'.room == w.room
    requires w.client.received <= w'.client.received && Follows(w'.room, w'.client)
    requires LiveOk(w'.sockets[i], w'.room.updates, w'.client) && (w'.sockets[i].closed ==> !w'.sockets[i].open)
    ensures Inv(w')
  {
    hide Follows, SpentOk, LiveOk;
    forall j | 0 <= j < i && w'.sockets[j].open
      ensures SpentOk(w'.sockets[j], w'.client)
    {
      assert w'.sockets[j] == w.sockets[j];
      SpentStaysOk(w.sockets[j], w.room, w.client, w'.client);
    }
  }

  /** A spent last socket that was live is harmless from now on. */
  lemma LiveSpentIsOk(s: Socket, r: RoomState, c: ClientState)
    requires Follows(r, c) && LiveOk(s, r.updates, c) && Spent(s)
    ensures SpentOk(s, c)
  {
    hide GapFree, Strict, Indexed, Carries;
    if !s.settled && s.helloSent && s.hello.None? { LastAckIsKnown(s.inbound, r.updates, c); }
  }

  lemma {:induction false} LastAckIsKnown(q: seq<Frame>, log: seq<Applied>, c: ClientState)
    requires Awaits(q, log, |c.received|) && NothingToHand(q) && c.received <= log && c.vector == VectorOf(c.received)
    ensures forall j :: 0 <= j < |q| && q[j].Ack? ==> q[j].vector == c.vector
  {
    if q[0].Update? {
      LastAckIsKnown(q[1..], log, c);
      assert forall j :: 0 < j < |q| ==> q[j] == q[1..][j - 1];
    } else {
      assert log[..|c.received|] == c.received;
    }
  }

  lemma ConnectKeeps(w: World)
    requires Inv(w) && (ActsOnConnect(w.client) ==> NoneBeside(w))
    ensures Inv(Step(w, Connect))
  {
    hide GapFree, Strict, Indexed, Spent, Carries, Awaits;
    if ActsOnConnect(w.client) {
      var w' := Step(w, Connect);
      forall i | 0 <= i < |w.sockets| && w.sockets[i].open
        ensures SpentOk(w'.sockets[i], w'.client)
      {
        if !SpentOk(w.sockets[i], w.client) { LiveSpentIsOk(w.sockets[i], w.room, w.client); }
      }
    }
  }

  /** One socket changes, and of the client at most its link flags. */
  lemma SocketChangeKeeps(w: World, i: nat, s: Socket, c: ClientState)
    requires Inv(w) && i < |w.sockets|
    requires c.received == w.client.received && c.vector == w.client.vector
    requires s.closed ==> !s.open
    requires s.open ==> w.sockets[i].open
    requires s.open && LiveOk(w.sockets[i], w.room.updates, w.client) ==> LiveOk(s, w.room.updates, c)
    requires s.open && SpentOk(w.sockets[i], w.client) ==> SpentOk(s, c)
    ensures Inv(With(w, i, s).(client := c))
  {
    hide Spent, Carries, Awaits, GapFree, Strict, Indexed;
    var w' := With(w, i, s).(client := c);
    forall j | 0 <= j < |w'.sockets| && w'.sockets[j].open
      ensures SpentOk(w'.sockets[j], w'.client)
              || (j == |w'.sockets| - 1 && LiveOk(w'.sockets[j], w'.room.updates, w'.client))
    {
      assert w.sockets[j].open;
    }
  }

  lemma SocketStepKeeps(w: World, e: Event)
    requires Inv(w) && !e.Commit? && !e.HandleHello? && !e.Deliver? && !e.Connect?
    ensures Inv(Step(w, e))
  {
    var w' := Step(w, e);
    if w' != w {
      hide Inv, Carries, Awaits, NothingToHand, Below;
      var i := e.i;
      SocketChangeKeeps(w, i, w'.sockets[i], w'.client);
      assert w' == With(w, i, w'.sockets[i]).(client := w'.client);
    }
  }

  lemma StepKeeps(w: World, e: Event)
    requires Inv(w)
    requires e == Connect && ActsOnConnect(w.client) ==> NoneBeside(w)
    ensures Inv(Step(w, e))
  {
    hide Inv;
    match e
    case Commit(u, outcome) => CommitKeeps(w, u, outcome);
    case HandleHello(i) => HelloKeeps(w, i);
    case Deliver(i) =>
      if i < |w.sockets| && w.sockets[i].open && w.sockets[i].inbound != [] { DeliverKeeps(w, i); }
    case Connect => ConnectKeeps(w);
    case _ => SocketStepKeeps(w, e);
  }

  lemma {:induction false} RunKeeps(w: World, events: seq<Event>)
    requires Inv(w) && Disciplined(w, events)
    ensures Inv(Run(w, events))
    decreases |events|
  {
    hide Inv, Step;
    if events != [] {
      StepKeeps(w, events[0]);
      RunKeeps(Step(w, events[0]), events[1..]);
    }
  }

  /** A client that already holds the first `k` updates of a healthy room and has no socket yet. */
  function Start(room: RoomState, k: nat): World
    requires k <= |room.updates|
  {
    World(room, [], ClientState(VectorOf(room.updates[..k]), room.updates[..k], false, false))
  }

  function InFlight(q: seq<Frame>): seq<Applied> {
    if q == [] then []
    else if q[0].Update? then [q[0].applied] + InFlight(q[1..]) else InFlight(q[1..])
  }

  lemma {:induction false} CarriedIsASlice(q: seq<Frame>, log: seq<Applied>, lo: nat)
    requires Carries(q, log, lo)
    ensures InFlight(q) == log[lo..lo + |q|]
  {
    if q != [] {
      CarriesTail(q, log, lo);
      assert log[lo..lo + |q|] == [log[lo]] + log[lo + 1..lo + |q|];
      CarriedIsASlice(q[1..], log, lo + 1);
    }
  }

  lemma InvHasNoDuplicates(w: World)
    requires Inv(w)
    ensures NoDuplicates(w.client.received)
  {
    var log := w.room.updates;
    forall x, y | 0 <= x < y < |w.client.received| ensures w.client.received[x] != w.client.received[y] {
      assert w.client.received[x] == log[x] && w.client.received[y] == log[y];
    }
  }

  /** Exactly once, in order: over any run of commits, drops and reconnects, what the client received is a
      prefix of the log without repeats, its vector is that prefix's vector, and past hello the prefix and
      the frames in flight make up the log as far as the hub has sent it: all of it while it is a peer. */
  lemma ExactlyOnceInOrder(room: RoomState, k: nat, events: seq<Event>)
    requires k <= |room.updates| && RoomHealthy(room) && Disciplined(Start(room, k), events)
    ensures var w := Run(Start(room, k), events);
            && room.updates[..k] <= w.client.received <= w.room.updates
            && NoDuplicates(w.client.received)
            && w.client.vector == VectorOf(w.client.received)
            && forall i :: 0 <= i < |w.sockets| && w.sockets[i].open && w.sockets[i].settled ==>
                 && w.client.received + InFlight(w.sockets[i].inbound) <= w.room.updates
                 && (w.sockets[i].stage == Peer ==>
                     w.client.received + InFlight(w.sockets[i].inbound) == w.room.updates)
  {
    hide Run, Disciplined, LiveOk, Spent;
    RunKeeps(Start(room, k), events);
    ReceivedGrows(Start(room, k), events);
    var w := Run(Start(room, k), events);
    var log, n := w.room.updates, |w.client.received|;
    InvHasNoDuplicates(w);
    forall i | 0 <= i < |w.sockets| && w.sockets[i].open && w.sockets[i].settled
      ensures w.client.received + InFlight(w.sockets[i].inbound) <= log
      ensures w.sockets[i].stage == Peer ==> w.client.received + InFlight(w.sockets[i].inbound) == log
    {
      SettledSocket(w.sockets[i], w.room, w.client);
    }
  }

  /** Past hello, the client's prefix and the frames in flight are a prefix of the log, all of it while a peer. */
  lemma SettledSocket(s: Socket, r: RoomState, c: ClientState)
    requires Follows(r, c) && s.settled && (SpentOk(s, c) || LiveOk(s, r.updates, c))
    ensures c.received + InFlight(s.inbound) <= r.updates
    ensures s.stage == Peer ==> c.received + InFlight(s.inbound) == r.updates
  {
    hide GapFree, Strict, Indexed;
    var q, log, n := s.inbound, r.updates, |c.received|;
    CarriedIsASlice(q, log, n);
    assert log[..n] == c.received && log[..n] + log[n..n + |q|] == log[..n + |q|];
  }

  lemma {:induction false} ReceivedGrows(w: World, events: seq<Event>)
    ensures w.client.received <= Run(w, events).client.received
    decreases |events|
  {
    if events != [] { ReceivedGrows(Step(w, events[0]), events[1..]); }
  }

  // ---------------------------------------------------------------- a connection beside a live socket

  lemma {:induction false} RunConcat(w: World, a: seq<Event>, b: seq<Event>)
    ensures Run(w, a + b) == Run(Run(w, a), b)
    decreases |a|
  {
    if a == [] {
      assert a + b == b;
    } else {
      assert (a + b)[1..] == a[1..] + b;
      RunConcat(Step(w, a[0]), a[1..], b);
    }
  }

  lemma {:induction false} NoConnectIsDisciplined(w: World, events: seq<Event>)
    requires Connect !in events
    ensures Disciplined(w, events)
    decreases |events|
  {
    if events != [] { NoConnectIsDisciplined(Step(w, events[0]), events[1..]); }
  }

  function Drain(i: nat, n: nat): seq<Event> { if n == 0 then [] else [Deliver(i)] + Drain(i, n - 1) }

  lemma {:induction false} DrainHasNoConnect(i: nat, n: nat)
    ensures Connect !in Drain(i, n)
  {
    if n > 0 { DrainHasNoConnect(i, n - 1); }
  }

  /** The queue still holds an update, of a log the client has received in full. */
  ghost predicate Repeats(s: Socket, log: seq<Applied>, lo: nat) {
    && s.open
    && if s.settled then Carries(s.inbound, log, lo) && s.inbound != []
       else Awaits(s.inbound, log, lo) && End(s.inbound, lo) > lo
  }

  lemma SecondCopy(received: seq<Applied>, a: Applied, more: seq<Applied>)
    requires a in received && received + [a] <= more
    ensures !NoDuplicates(more)
  {
    var i :| 0 <= i < |received| && received[i] == a;
    assert more[i] == (received + [a])[i] && more[|received|] == (received + [a])[|received|];
  }

  /** Draining such a queue delivers an update a second time. */
  lemma {:induction false} DrainRepeats(w: World, i: nat, log: seq<Applied>, lo: nat)
    requires i < |w.sockets| && Repeats(w.sockets[i], log, lo) && forall a :: a in log ==> a in w.client.received
    ensures !NoDuplicates(Run(w, Drain(i, |w.sockets[i].inbound|)).client.received)
    decreases |w.sockets[i].inbound|
  {
    var s := w.sockets[i];
    var rest := Drain(i, |s.inbound| - 1);
    var next := Step(w, Deliver(i));
    assert Drain(i, |s.inbound|) == [Deliver(i)] + rest && ([Deliver(i)] + rest)[1..] == rest;
    ReceivedGrows(next, rest);
    if s.settled {
      CarriesTail(s.inbound, log, lo);
      SecondCopy(w.client.received, log[lo], Run(next, rest).client.received);
    } else if s.inbound[0].Update? {
      DrainRepeats(next, i, log, lo);
    } else if s.inbound[0].missing != [] {
      var missing := s.inbound[0].missing;
      assert missing[0] == log[lo] && w.client.received + [log[lo]] <= w.client.received + missing;
      SecondCopy(w.client.received, log[lo], Run(next, rest).client.received);
    } else {
      DrainRepeats(next, i, log, lo);
    }
  }

  /** What brings a socket past its hello: each event that is not due does nothing. */
  function Handshake(i: nat): seq<Event> { [Accept(i), Open(i), HandleHello(i)] }

  function Accepted(s: Socket): Socket { if s.stage == Fresh then s.(stage := Peer) else s }

  function Greeted(s: Socket, c: ClientState): Socket {
    if s.stage != Fresh && s.open && !s.helloSent then s.(helloSent := true, hello := Some(c.vector)) else s
  }

  function Answered(s: Socket, r: RoomState): Socket {
    if s.stage == Peer && s.hello.Some?
    then s.(hello := None, inbound := s.inbound + [Ack(r.vector, Diff(r.updates, s.hello.value))]) else s
  }

  /** The socket after its handshake. */
  function Shaken(s: Socket, r: RoomState, c: ClientState): Socket { Answered(Greeted(Accepted(s), c), r) }

  lemma HandshakeSteps(w: World, i: nat)
    requires i < |w.sockets|
    ensures Step(w, Accept(i)) == With(w, i, Accepted(w.sockets[i]))
    ensures Step(w, Open(i)) == With(w, i, Greeted(w.sockets[i], w.client))
    ensures Step(w, HandleHello(i)) == With(w, i, Answered(w.sockets[i], w.room))
  {
    hide Diff;
    assert w.sockets[i := w.sockets[i]] == w.sockets;
  }

  lemma HandshakeShakes(w: World, i: nat)
    requires i < |w.sockets|
    ensures Run(w, Handshake(i)) == With(w, i, Shaken(w.sockets[i], w.room, w.client))
  {
    hide Step, Run, Accepted, Greeted, Answered;
    var w1 := Step(w, Accept(i));
    HandshakeSteps(w, i);
    var w2 := Step(w1, Open(i));
    HandshakeSteps(w1, i);
    var w3 := Step(w2, HandleHello(i));
    HandshakeSteps(w2, i);
    RunSteps([w, w1, w2, w3], Handshake(i));
  }

  /** A live socket that is not spent has, after its handshake, a queue the hub goes on extending, or one with
      something left to hand over. */
  lemma ShakenHasMore(s: Socket, r: RoomState, c: ClientState)
    requires Follows(r, c) && s.open && LiveOk(s, r.updates, c) && !Spent(s)
    ensures var t := Shaken(s, r, c);
            && t.open && LiveOk(t, r.updates, c) && !Spent(t) && t.helloSent && t.hello.None? && t.stage != Fresh
  {
    hide GapFree, Strict, Indexed, Carries, Awaits, Diff;
    var greeted := Greeted(Accepted(s), c);
    if s.stage == Gone && !s.settled && (s.hello.Some? || !s.helloSent) { NoAckHandsNothing(s.inbound); }
    assert LiveOk(Accepted(s), r.updates, c);
    assert LiveOk(greeted, r.updates, c);
    if greeted.stage == Peer && greeted.hello.Some? { HelloSocket(greeted, r, c); }
  }

  lemma {:induction false} NoAckHandsNothing(q: seq<Frame>)
    requires NoAck(q)
    ensures NothingToHand(q)
  {
    if q != [] {
      assert forall j :: 0 <= j < |q[1..]| ==> q[1..][j] == q[j + 1];
      NoAckHandsNothing(q[1..]);
    }
  }

  /** A queue that awaits nothing new hands nothing over. */
  lemma {:induction false} EndMovesOn(q: seq<Frame>, log: seq<Applied>, lo: nat)
    requires Awaits(q, log, lo) && !NothingToHand(q)
    ensures End(q, lo) > lo
  {
    if q[0].Update? { EndMovesOn(q[1..], log, lo); }
  }

  const CAUGHT_UP := Socket(Peer, true, None, [], true, true, false)

  lemma NewcomerIsAnswered(r: RoomState, c: ClientState)
    requires Follows(r, c)
    ensures Shaken(NewSocket, r, c)
         == Socket(Peer, true, None, [Ack(VectorOf(r.updates), r.updates[|c.received|..])], false, true, false)
  {
    hide GapFree, Strict, Indexed, Diff;
    DiffIsTheRest(r, c);
  }

  lemma AckCatchesUp(r: RoomState, c: ClientState)
    requires Follows(r, c)
    ensures FinishHello(c, VectorOf(r.updates), r.updates[|c.received|..])
            == ClientState(VectorOf(r.updates), r.updates, true, false)
  {
    hide GapFree, Strict, Indexed;
    var log, k := r.updates, |c.received|;
    assert log[..k] == c.received && log[..|log|] == log;
    MergeAlong(log, k, |log|);
  }

  lemma DeliverAck(w: World, j: nat, ack: Frame)
    requires j < |w.sockets| && ack.Ack? && w.sockets[j] == Socket(Peer, true, None, [ack], false, true, false)
    ensures Run(w, [Deliver(j)])
         == World(w.room, w.sockets[j := CAUGHT_UP], FinishHello(w.client, ack.vector, ack.missing))
  {
    assert [ack][1..] == [];
    RunSteps([w, Step(w, Deliver(j))], [Deliver(j)]);
  }

  /** A new connection: after its handshake the hub has written the ack that fills the gap. */
  lemma NewcomerCatchesUp(w: World, j: nat)
    requires j < |w.sockets| && w.sockets[j] == NewSocket && Follows(w.room, w.client)
    ensures Run(w, Handshake(j) + [Deliver(j)])
         == World(w.room, w.sockets[j := CAUGHT_UP], ClientState(VectorOf(w.room.updates), w.room.updates, true, false))
  {
    hide GapFree, Strict, Indexed, Run, Shaken, FinishHello;
    HandshakeShakes(w, j);
    NewcomerIsAnswered(w.room, w.client);
    RunConcat(w, Handshake(j), [Deliver(j)]);
    DeliverAck(Run(w, Handshake(j)), j, Ack(VectorOf(w.room.updates), w.room.updates[|w.client.received|..]));
    AckCatchesUp(w.room, w.client);
  }

  lemma UnusedId(ids: set<Id>) returns (id: Id)
    ensures id !in ids && forall x :: x in ids ==> x < id
    decreases ids
  {
    if ids == {} {
      id := 0;
    } else {
      var x :| x in ids;
      var y := UnusedId(ids - {x});
      id := if x < y then y else x + 1;
      forall z | z in ids ensures z < id { assert z == x || z in ids - {x}; }
    }
  }

  /** Some update is admitted in every room. */
  lemma NextCommit(r: RoomState) returns (u: SyncUpdate)
    ensures Guard(r, u, true).Admit?
  {
    var id := UnusedId(r.byId.Keys);
    u := SyncUpdate(id, r.roomId, 0, Expected(r, 0), TransactionUpdate, 0);
  }

  /** The commit that follows: the new socket delivers it, the old one carries it or what it carried before. */
  lemma CommitOnBoth(w: World, i: nat, j: nat, u: SyncUpdate, c: ClientState)
    requires i < j < |w.sockets| && Guard(w.room, u, true).Admit? && Follows(w.room, c) && Follows(w.room, w.client)
    requires w.client.received == w.room.updates && w.sockets[j] == CAUGHT_UP
    requires var s := w.sockets[i]; LiveOk(s, w.room.updates, c) && s.open && !Spent(s) && s.helloSent && s.hello.None?
    ensures var w' := Run(w, [Commit(u, Some(0)), Deliver(j)]);
            && |w'.sockets| == |w.sockets| && w'.client.received == w'.room.updates
            && Repeats(w'.sockets[i], w'.room.updates, |c.received|)
  {
    hide GapFree, Strict, Indexed, Carries, Awaits, MergeTwo;
    var a, s := Applied(u, 0), w.sockets[i];
    var log := w.room.updates;
    CommitFollows(w, u, Some(0));
    var w1 := Step(w, Commit(u, Some(0)));
    var w2 := Step(w1, Deliver(j));
    RunSteps([w, w1, w2], [Commit(u, Some(0)), Deliver(j)]);
    CommitSocket(s, log, a, c);
    assert w1.sockets[i] == if s.stage == Peer then s.(inbound := s.inbound + [Update(a, VectorOf(log + [a]))]) else s;
    GrownRepeats(w1.sockets[i], log, a, c);
    assert [Update(a, VectorOf(log + [a]))][1..] == [];
  }

  lemma GrownRepeats(s: Socket, log: seq<Applied>, a: Applied, c: ClientState)
    requires LiveOk(s, log + [a], c) && s.open && !Spent(s) && s.helloSent && s.hello.None? && |c.received| <= |log|
    ensures Repeats(s, log + [a], |c.received|)
  {
    hide Carries, Awaits;
    if !s.settled && s.stage == Gone { EndMovesOn(s.inbound, log + [a], |c.received|); }
  }

  /** Beside a socket that may still hand something over, a connection can deliver an update twice. */
  lemma BesideLiveDeliversTwice(w: World, i: nat) returns (more: seq<Event>)
    requires Inv(w) && ActsOnConnect(w.client) && i < |w.sockets| && w.sockets[i].open && !Spent(w.sockets[i])
    ensures Connect !in more && !NoDuplicates(Run(Step(w, Connect), more).client.received)
  {
    hide GapFree, Strict, Indexed, LiveOk, Spent, Step, Run, Shaken, Repeats;
    var j, w0 := |w.sockets|, Step(w, Connect);
    assert w0 == w.(sockets := w.sockets + [NewSocket], client := w.client.(connecting := true)) by { ConnectAdds(w); }
    FlagsAside(w, w0.client, i);
    HandshakeShakes(w0, i);
    ShakenHasMore(w.sockets[i], w.room, w0.client);
    var w1 := Run(w0, Handshake(i));
    NewcomerCatchesUp(w1, j);
    var w2 := Run(w1, Handshake(j) + [Deliver(j)]);
    FollowsAll(w1, w2);
    var u := NextCommit(w2.room);
    CommitOnBoth(w2, i, j, u, w0.client);
    var w3 := Run(w2, [Commit(u, Some(0)), Deliver(j)]);
    DrainRepeats(w3, i, w3.room.updates, |w0.client.received|);
    var n := |w3.sockets[i].inbound|;
    RunConcat(w0, Handshake(i), Handshake(j) + [Deliver(j)]);
    RunConcat(w0, Handshake(i) + (Handshake(j) + [Deliver(j)]), [Commit(u, Some(0)), Deliver(j)]);
    var upTo := Handshake(i) + (Handshake(j) + [Deliver(j)]) + [Commit(u, Some(0)), Deliver(j)];
    RunConcat(w0, upTo, Drain(i, n));
    DrainHasNoConnect(i, n);
    more := upTo + Drain(i, n);
  }

  lemma ConnectAdds(w: World)
    requires ActsOnConnect(w.client)
    ensures Step(w, Connect) == w.(sockets := w.sockets + [NewSocket], client := w.client.(connecting := true))
  {
  }

  lemma FlagsAside(w: World, c: ClientState, i: nat)
    requires Inv(w) && i < |w.sockets| && w.sockets[i].open && !Spent(w.sockets[i])
    requires c.received == w.client.received && c.vector == w.client.vector
    ensures Follows(w.room, c) && LiveOk(w.sockets[i], w.room.updates, c)
  {
    hide GapFree, Strict, Indexed, Spent, Carries, Awaits;
  }

  lemma FollowsAll(w: World, w': World)
    requires Follows(w.room, w.client) && w'.room == w.room && w'.client.received == w.room.updates
             && w'.client.vector == VectorOf(w.room.updates)
    ensures Follows(w'.room, w'.client)
  {
    hide GapFree, Strict, Indexed;
  }

  /** Whatever disciplined events follow, nothing arrives twice. */
  ghost predicate SafeFrom(w: World) {
    forall more :: Disciplined(w, more) ==> NoDuplicates(Run(w, more).client.received)
  }

  /** The exact condition: after any disciplined run, a connect that the client acts on is safe if and only if no socket
      is open that could still hand anything over. */
  lemma ConnectIsSafeIff(room: RoomState, k: nat, events: seq<Event>)
    requires k <= |room.updates| && RoomHealthy(room) && Disciplined(Start(room, k), events)
    ensures var w := Run(Start(room, k), events);
            ActsOnConnect(w.client) ==> (NoneBeside(w) <==> SafeFrom(Step(w, Connect)))
  {
    hide Run, Disciplined, NoneBeside, SafeFrom, Step;
    RunKeeps(Start(room, k), events);
    var w := Run(Start(room, k), events);
    if ActsOnConnect(w.client) { ConnectKeptIff(w); }
  }

  lemma ConnectKeptIff(w: World)
    requires Inv(w) && ActsOnConnect(w.client)
    ensures NoneBeside(w) <==> SafeFrom(Step(w, Connect))
  {
    hide Inv, Step, Run, Spent, Disciplined;
    if NoneBeside(w) {
      forall more | Disciplined(Step(w, Connect), more)
        ensures NoDuplicates(Run(Step(w, Connect), more).client.received)
      {
        ConnectKeeps(w);
        RunKeeps(Step(w, Connect), more);
        InvHasNoDuplicates(Run(Step(w, Connect), more));
      }
    } else {
      var i :| 0 <= i < |w.sockets| && w.sockets[i].open && !Spent(w.sockets[i]);
      var more := BesideLiveDeliversTwice(w, i);
      NoConnectIsDisciplined(Step(w, Connect), more);
    }
  }

  /** What a client can see for itself: it has handled the close event of every earlier socket. */
  predicate AllClosed(w: World) { forall i :: 0 <= i < |w.sockets| ==> w.sockets[i].closed }

  /** The client connects again only then. */
  predicate WaitsForClose(w: World, events: seq<Event>)
    decreases |events|
  {
    events == [] ||
    ((events[0] == Connect && ActsOnConnect(w.client) ==> AllClosed(w))
     && WaitsForClose(Step(w, events[0]), events[1..]))
  }

  lemma {:induction false} WaitingIsDisciplined(w: World, events: seq<Event>)
    requires Inv(w) && WaitsForClose(w, events)
    ensures Disciplined(w, events)
    decreases |events|
  {
    hide Inv, Step, AllClosed, NoneBeside;
    if events != [] {
      if AllClosed(w) { ClosedHandsNothing(w); }
      StepKeeps(w, events[0]);
      WaitingIsDisciplined(Step(w, events[0]), events[1..]);
    }
  }

  lemma ClosedHandsNothing(w: World)
    requires Inv(w) && AllClosed(w)
    ensures NoneBeside(w)
  {
    hide Spent, SpentOk, LiveOk, Follows;
  }

  /** A client that waits for the close event of every earlier socket receives each update once and in order, and its
      next connect is safe once the last of those events has been handled. */
  lemma WaitingClientIsSafe(room: RoomState, k: nat, events: seq<Event>)
    requires k <= |room.updates| && RoomHealthy(room) && WaitsForClose(Start(room, k), events)
    ensures var w := Run(Start(room, k), events);
            && w.client.received <= w.room.updates && NoDuplicates(w.client.received)
            && (ActsOnConnect(w.client) && AllClosed(w) ==> SafeFrom(Step(w, Connect)))
  {
    hide Run, Disciplined, WaitsForClose, NoneBeside, AllClosed, SafeFrom, Step, Inv, InFlight, NoDuplicates;
    assert Inv(Start(room, k)) by { StartIsKept(room, k); }
    WaitingIsDisciplined(Start(room, k), events);
    RunKeeps(Start(room, k), events);
    ExactlyOnceInOrder(room, k, events);
    var w := Run(Start(room, k), events);
    if ActsOnConnect(w.client) && AllClosed(w) {
      ClosedHandsNothing(w);
      ConnectIsSafeIff(room, k, events);
    }
  }

  lemma StartIsKept(room: RoomState, k: nat)
    requires k <= |room.updates| && RoomHealthy(room)
    ensures Inv(Start(room, k))
  {
  }

  const FIRST_CONNECTIONS: seq<Event> := [Connect, FailHello(0), Connect] + (Handshake(1) + [Deliver(1)])
  const THIRD_CONNECTION: seq<Event> := [CloseEvent(0), Connect] + (Handshake(2) + [Deliver(2)])

  function OneUpdate(u: SyncUpdate): seq<Event> { [Commit(u, Some(0)), Deliver(1), Deliver(2)] }

  /** The failing family is reached from the start: the close event of a failed first socket makes the client forget its
      live second one, a third connection is opened beside it, and one update arrives on both. */
  lemma EarlyReconnectDeliversTwice()
    ensures var u := SyncUpdate(1, 0, 7, 1, TransactionUpdate, 10);
            var w := Run(Start(EmptyRoom(0), 0), FIRST_CONNECTIONS + (THIRD_CONNECTION + OneUpdate(u)));
            w.room.updates == [Applied(u, 0)] && w.client.received == [Applied(u, 0), Applied(u, 0)]
  {
    hide Run;
    var room, u := EmptyRoom(0), SyncUpdate(1, 0, 7, 1, TransactionUpdate, 10);
    RunConcat(Start(room, 0), FIRST_CONNECTIONS, THIRD_CONNECTION + OneUpdate(u));
    FirstTwoSockets(room);
    var w := World(room, [FAILED, CAUGHT_UP], ClientState(map[], [], true, false));
    RunConcat(w, THIRD_CONNECTION, OneUpdate(u));
    ThirdSocket(room);
    UpdateOnBoth(room, u);
  }

  const FAILED := Socket(Fresh, false, None, [], true, false, false)
  const CLOSED := Socket(Fresh, false, None, [], true, false, true)

  lemma EmptyIsFollowed(c: ClientState)
    requires c.vector == map[] && c.received == []
    ensures Follows(EmptyRoom(0), c) && VectorOf([]) == map[] && EmptyRoom(0).updates == []
  {
    assert forall x :: Counters([], x) == UpTo(Seen(VectorOf([]), x));
  }

  lemma FirstTwoSockets(room: RoomState)
    requires room == EmptyRoom(0)
    ensures Run(Start(room, 0), FIRST_CONNECTIONS)
         == World(room, [FAILED, CAUGHT_UP], ClientState(map[], [], true, false))
  {
    hide Run, Follows;
    var idle := ClientState(map[], [], false, false);
    var trying := idle.(connecting := true);
    var w0, w1 := Start(room, 0), World(room, [NewSocket], trying);
    var w2, w3 := World(room, [FAILED], idle), World(room, [FAILED, NewSocket], trying);
    assert w0 == World(room, [], idle);
    assert Step(w0, Connect) == w1 && Step(w1, FailHello(0)) == w2 && Step(w2, Connect) == w3;
    RunSteps([w0, w1, w2, w3], [Connect, FailHello(0), Connect]);
    EmptyIsFollowed(trying);
    NewcomerCatchesUp(w3, 1);
    RunConcat(w0, [Connect, FailHello(0), Connect], Handshake(1) + [Deliver(1)]);
    assert [FAILED, NewSocket][1 := CAUGHT_UP] == [FAILED, CAUGHT_UP];
  }

  lemma ThirdSocket(room: RoomState)
    requires room == EmptyRoom(0)
    ensures Run(World(room, [FAILED, CAUGHT_UP], ClientState(map[], [], true, false)), THIRD_CONNECTION)
         == World(room, [CLOSED, CAUGHT_UP, CAUGHT_UP], ClientState(map[], [], true, false))
  {
    hide Run, Follows;
    var idle := ClientState(map[], [], false, false);
    var trying := idle.(connecting := true);
    var w0 := World(room, [FAILED, CAUGHT_UP], idle.(connected := true));
    var w1, w2 := World(room, [CLOSED, CAUGHT_UP], idle), World(room, [CLOSED, CAUGHT_UP, NewSocket], trying);
    assert Step(w0, CloseEvent(0)) == w1 && Step(w1, Connect) == w2;
    RunSteps([w0, w1, w2], [CloseEvent(0), Connect]);
    EmptyIsFollowed(trying);
    NewcomerCatchesUp(w2, 2);
    RunConcat(w0, [CloseEvent(0), Connect], Handshake(2) + [Deliver(2)]);
    assert [CLOSED, CAUGHT_UP, NewSocket][2 := CAUGHT_UP] == [CLOSED, CAUGHT_UP, CAUGHT_UP];
  }

  lemma UpdateOnBoth(room: RoomState, u: SyncUpdate)
    requires room == EmptyRoom(0) && u == SyncUpdate(1, 0, 7, 1, TransactionUpdate, 10)
    ensures var w := Run(World(room, [CLOSED, CAUGHT_UP, CAUGHT_UP], ClientState(map[], [], true, false)),
                         OneUpdate(u));
            w.client.received == [Applied(u, 0), Applied(u, 0)] && w.room.updates == [Applied(u, 0)]
  {
    hide Run;
    var a := Applied(u, 0);
    var w0 := World(room, [CLOSED, CAUGHT_UP, CAUGHT_UP], ClientState(map[], [], true, false));
    var f := Update(a, map[7 := 1]);
    var carrying := CAUGHT_UP.(inbound := [f]);
    assert [] + [f] == [f] && [f][1..] == [];
    var room' := Remember(room, a);
    assert room'.vector == map[7 := 1];
    var w1 := World(room', [CLOSED, carrying, carrying], w0.client);
    var w2 := World(room', [CLOSED, CAUGHT_UP, carrying], TakeUpdate(w0.client, a, Some(map[7 := 1])));
    var w3 := World(room', [CLOSED, CAUGHT_UP, CAUGHT_UP], TakeUpdate(w2.client, a, Some(map[7 := 1])));
    assert Step(w0, Commit(u, Some(0))) == w1;
    assert Step(w1, Deliver(1)) == w2 && Step(w2, Deliver(2)) == w3;
    RunSteps([w0, w1, w2, w3], OneUpdate(u));
  }

  /** A chain of single steps is a run. */
  lemma {:induction false} RunSteps(worlds: seq<World>, events: seq<Event>)
    requires |worlds| == |events| + 1
    requires forall i :: 0 <= i < |events| ==> Step(worlds[i], events[i]) == worlds[i + 1]
    ensures Run(worlds[0], events) == worlds[|events|]
    decreases |events|
  {
    if events != [] { RunSteps(worlds[1..], events[1..]); }
  }
}
