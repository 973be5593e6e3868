/** The HDSRC runtime manager under every interleaving: operations, concurrent starts, failures, retries and stop,
    split exactly where the program awaits. Providers are numbered in the order the factory makes them. */
module RuntimeManager {
  import opened Basics

  type ProviderId = nat

  datatype RunState = Undiscovered | Discovered | Starting | Ready | Degraded | Stopped

  /** Where a failure comes from; everything but the provider's own errors counts as contract. */
  datatype Origin = Transport | Contract | RemoteDomain

  /** A started promise: waiting for discovery, waiting for capabilities, or settled. */
  datatype Start = AwaitDiscover | AwaitCapabilities(pid: ProviderId) | Settled(result: Result<ProviderId, Origin>)

  /** `starts` are the start promises ever made; `startPromise` is the one the manager holds. */
  datatype Manager = Manager(
    state: RunState, descriptor: bool, discovering: bool, provider: Option<ProviderId>, startPromise: Option<nat>,
    epoch: nat, created: nat, closed: set<ProviderId>, starts: seq<Start>)

  const NEW_MANAGER := Manager(Undiscovered, false, false, None, None, 0, 0, {}, [])

  /** What an operation waits for: a start promise (and whether it made it), or an answer already there. */
  datatype Awaiting = OnStart(start: nat, creator: bool) | Answered(result: Result<ProviderId, Origin>)

  function Discover(m: Manager): Manager { if m.descriptor then m else m.(discovering := true) }

  function DiscoverySettled(m: Manager, found: bool): Manager {
    if found && m.state != Stopped then m.(discovering := false, descriptor := true, state := Discovered)
    else m.(discovering := false)
  }

  /** `start`, up to its first await. */
  function Join(m: Manager): (Manager, Awaiting) {
    if m.state == Stopped then (m, Answered(Err(Contract)))
    else if m.provider.Some? && m.state == Ready then (m, Answered(Ok(m.provider.value)))
    else if m.startPromise.Some? then (m, OnStart(m.startPromise.value, false))
    else (Discover(m).(startPromise := Some(|m.starts|), starts := m.starts + [AwaitDiscover]),
          OnStart(|m.starts|, true))
  }

  function Settle(m: Manager, s: nat, r: Result<ProviderId, Origin>): Manager
    requires s < |m.starts|
  {
    m.(starts := m.starts[s := Settled(r)])
  }

  /** The start resumes after discovery; the factory may throw, and that leaves the state at starting. */
  function StartDiscovered(m: Manager, s: nat, failure: Option<Origin>, factory: Option<Origin>): Manager
    requires s < |m.starts|
  {
    if failure.Some? then Settle(m, s, Err(failure.value))
    else if m.state == Stopped then Settle(m, s, Err(Contract))
    else if factory.Some? then Settle(m.(state := Starting), s, Err(factory.value))
    else m.(state := Starting, created := m.created + 1, starts := m.starts[s := AwaitCapabilities(m.created)])
  }

  /** The start resumes after the provider's capabilities. */
  function StartAnswered(m: Manager, s: nat, failure: Option<Origin>): Manager
    requires s < |m.starts| && m.starts[s].AwaitCapabilities?
  {
    var pid := m.starts[s].pid;
    if failure.Some? then
      Settle(m.(closed := m.closed + {pid}, state := if m.state == Stopped then Stopped else Degraded), s,
             Err(failure.value))
    else if m.state == Stopped then Settle(m.(closed := m.closed + {pid}), s, Err(Contract))
    else Settle(m.(provider := Some(pid), epoch := m.epoch + 1, state := Ready), s, Ok(pid))
  }

  function Released(m: Manager): Manager {
    m.(provider := None, closed := if m.provider.Some? then m.closed + {m.provider.value} else m.closed)
  }

  function DegradeAndClose(m: Manager): Manager { if m.state == Stopped then m else Released(m).(state := Degraded) }

  function Stop(m: Manager): Manager { if m.state == Stopped then m else Released(m).(state := Stopped) }

  predicate FailedBeforeRuntimeStart(m: Manager) { m.state == Undiscovered && !m.descriptor && m.provider.None? }

  // ---------------------------------------------------------------- operations

  /** `attempt` is 2 once the operation restarts the runtime. */
  datatype Pc = Waiting(on: Awaiting, attempt: nat) | Invoking(pid: ProviderId, attempt: nat) | Done(ok: bool)

  /** `failure` is the failure that ended the first attempt. */
  datatype Op = Op(safe: bool, pc: Pc, invokes: nat, failure: Option<Origin>)

  datatype World = World(m: Manager, ops: seq<Op>)

  /** The first attempt failed: rethrow, degrade, or restart. */
  function FirstFailed(m: Manager, op: Op, o: Origin): (Manager, Op) {
    var failed := op.(failure := Some(o), pc := Done(false));
    if FailedBeforeRuntimeStart(m) || o == RemoteDomain then (m, failed)
    else
      var d := DegradeAndClose(m);
      if !op.safe || o != Transport then (d, failed)
      else var (j, w) := Join(d); (j, op.(failure := Some(o), pc := Waiting(w, 2)))
  }

  function SecondFailed(m: Manager, op: Op, o: Origin): (Manager, Op) {
    (if o == RemoteDomain then m else DegradeAndClose(m), op.(pc := Done(false)))
  }

  function Failed(m: Manager, op: Op, attempt: nat, o: Origin): (Manager, Op) {
    if attempt == 1 then FirstFailed(m, op, o) else SecondFailed(m, op, o)
  }

  datatype Event =
    | Begin(safe: bool) | CallDiscover | DiscoveryEnds(found: bool)
    | StartContinues(start: nat, failure: Option<Origin>, factory: Option<Origin>)
    | CapabilitiesAnswer(start: nat, failure: Option<Origin>)
    | StartSettles(op: nat) | Resume(op: nat) | InvokeReturns(op: nat) | InvokeFails(op: nat, origin: Origin)
    | StopCalled

  /** An event can happen: a promise settles once, and only what it resolves resumes. */
  predicate Enabled(w: World, e: Event) {
    match e
    case Begin(_) => true
    case CallDiscover => true
    case DiscoveryEnds(_) => w.m.discovering
    case StartContinues(s, failure, _) => s < |w.m.starts| && w.m.starts[s] == AwaitDiscover
                                          && (failure.None? ==> w.m.descriptor)
    case CapabilitiesAnswer(s, _) => s < |w.m.starts| && w.m.starts[s].AwaitCapabilities?
    case StartSettles(k) => k < |w.ops| && w.ops[k].pc.Waiting? && w.ops[k].pc.on.OnStart?
      && w.ops[k].pc.on.start < |w.m.starts| && w.m.starts[w.ops[k].pc.on.start].Settled?
    case Resume(k) => k < |w.ops| && w.ops[k].pc.Waiting? && w.ops[k].pc.on.Answered?
    case InvokeReturns(k) => k < |w.ops| && w.ops[k].pc.Invoking?
    case InvokeFails(k, _) => k < |w.ops| && w.ops[k].pc.Invoking?
    case StopCalled => true
  }

  function Put(w: World, k: nat, r: (Manager, Op)): World
    requires k < |w.ops|
  {
    World(r.0, w.ops[k := r.1])
  }

  /** The creator of a start clears the promise when it settles; every waiter takes the result. */
  function StartTaken(m: Manager, op: Op): (Manager, Op)
    requires op.pc.Waiting? && op.pc.on.OnStart? && op.pc.on.start < |m.starts| && m.starts[op.pc.on.start].Settled?
  {
    (if op.pc.on.creator then m.(startPromise := None) else m,
     op.(pc := Waiting(Answered(m.starts[op.pc.on.start].result), op.pc.attempt)))
  }

  function Resumed(m: Manager, op: Op): (Manager, Op)
    requires op.pc.Waiting? && op.pc.on.Answered?
  {
    if op.pc.on.result.Ok?
      then (m, op.(pc := Invoking(op.pc.on.result.value, op.pc.attempt), invokes := op.invokes + 1))
    else Failed(m, op, op.pc.attempt, op.pc.on.result.error)
  }

  function Happen(w: World, e: Event): World
    requires Enabled(w, e)
  {
    match e
    case Begin(safe) => var (m, on) := Join(w.m); World(m, w.ops + [Op(safe, Waiting(on, 1), 0, None)])
    case CallDiscover => if w.m.state == Stopped then w else w.(m := Discover(w.m))
    case DiscoveryEnds(found) => w.(m := DiscoverySettled(w.m, found))
    case StartContinues(s, failure, factory) => w.(m := StartDiscovered(w.m, s, failure, factory))
    case CapabilitiesAnswer(s, failure) => w.(m := StartAnswered(w.m, s, failure))
    case StartSettles(k) => Put(w, k, StartTaken(w.m, w.ops[k]))
    case Resume(k) => Put(w, k, Resumed(w.m, w.ops[k]))
    case InvokeReturns(k) => Put(w, k, (w.m, w.ops[k].(pc := Done(true))))
    case InvokeFails(k, o) => Put(w, k, Failed(w.m, w.ops[k], w.ops[k].pc.attempt, o))
    case StopCalled => w.(m := Stop(w.m))
  }

  /** An event that cannot happen changes nothing. */
  function Next(w: World, e: Event): World { if Enabled(w, e) then Happen(w, e) else w }

  const NEW_WORLD := World(NEW_MANAGER, [])

  function Run(events: seq<Event>): World {
    if events == [] then NEW_WORLD else Next(Run(events[..|events| - 1]), events[|events| - 1])
  }

  /** The manager, one method for each stretch of code between two awaits. */
  class HdsrcRuntimeManager {
    var state: RunState
    var descriptor: bool
    var discovering: bool
    var provider: Option<ProviderId>
    var startPromise: Option<nat>
    var epoch: nat
    var created: nat
    var closed: set<ProviderId>
    var starts: seq<Start>

    constructor ()
      ensures State() == NEW_MANAGER
    {
      state, descriptor, discovering, provider, startPromise := Undiscovered, false, false, None, None;
      epoch, created, closed, starts := 0, 0, {}, [];
    }

    function State(): Manager
      reads this
    {
      Manager(state, descriptor, discovering, provider, startPromise, epoch, created, closed, starts)
    }

    method BeginDiscovery()
      modifies this
      ensures State() == Discover(old(State()))
    {
      if !descriptor { discovering := true; }
    }

    method EndDiscovery(found: bool)
      modifies this
      ensures State() == DiscoverySettled(old(State()), found)
    {
      discovering := false;
      if found && state != Stopped {
        descriptor := true;
        state := Discovered;
      }
    }

    method JoinStart() returns (on: Awaiting)
      modifies this
      ensures (State(), on) == Join(old(State()))
    {
      if state == Stopped { return Answered(Err(Contract)); }
      if provider.Some? && state == Ready { return Answered(Ok(provider.value)); }
      if startPromise.Some? { return OnStart(startPromise.value, false); }
      startPromise := Some(|starts|);
      starts := starts + [AwaitDiscover];
      BeginDiscovery();
      on := OnStart(|starts| - 1, true);
    }

    method ContinueStart(s: nat, failure: Option<Origin>, factory: Option<Origin>)
      requires s < |starts|
      modifies this
      ensures State() == StartDiscovered(old(State()), s, failure, factory)
    {
      if failure.Some? {
        starts := starts[s := Settled(Err(failure.value))];
      } else if state == Stopped {
        starts := starts[s := Settled(Err(Contract))];
      } else {
        state := Starting;
        if factory.Some? {
          starts := starts[s := Settled(Err(factory.value))];
        } else {
          starts := starts[s := AwaitCapabilities(created)];
          created := created + 1;
        }
      }
    }

    method AnswerCapabilities(s: nat, failure: Option<Origin>)
      requires s < |starts| && starts[s].AwaitCapabilities?
      modifies this
      ensures State() == StartAnswered(old(State()), s, failure)
    {
      var pid := starts[s].pid;
      if failure.None? && state != Stopped {
        provider := Some(pid);
        epoch := epoch + 1;
        state := Ready;
        starts := starts[s := Settled(Ok(pid))];
        return;
      }
      closed := closed + {pid};
      if state != Stopped { state := Degraded; }
      starts := starts[s := Settled(Err(if failure.Some? then failure.value else Contract))];
    }

    method CloseProvider()
      modifies this
      ensures State() == Released(old(State()))
    {
      var p := provider;
      provider := None;
      if p.Some? { closed := closed + {p.value}; }
    }

    method Degrade()
      modifies this
      ensures State() == DegradeAndClose(old(State()))
    {
      if state == Stopped { return; }
      CloseProvider();
      state := Degraded;
    }

    method StopRuntime()
      modifies this
      ensures State() == Stop(old(State()))
    {
      if state == Stopped { return; }
      state := Stopped;
      CloseProvider();
    }

    /** The catch blocks of an operation: rethrow, degrade, or degrade and restart. */
    method Fail(op: Op, attempt: nat, o: Origin) returns (after: Op)
      modifies this
      ensures (State(), after) == Failed(old(State()), op, attempt, o)
    {
      if attempt != 1 {
        if o != RemoteDomain { Degrade(); }
        return op.(pc := Done(false));
      }
      after := op.(failure := Some(o), pc := Done(false));
      if (state == Undiscovered && !descriptor && provider.None?) || o == RemoteDomain { return; }
      Degrade();
      if op.safe && o == Transport {
        var on := JoinStart();
        after := op.(failure := Some(o), pc := Waiting(on, 2));
      }
    }

    /** The `finally` of the call that made the start. */
    method TakeStart(op: Op) returns (after: Op)
      requires op.pc.Waiting? && op.pc.on.OnStart? && op.pc.on.start < |starts| && starts[op.pc.on.start].Settled?
      modifies this
      ensures (State(), after) == StartTaken(old(State()), op)
    {
      if op.pc.on.creator { startPromise := None; }
      after := op.(pc := Waiting(Answered(starts[op.pc.on.start].result), op.pc.attempt));
    }
  }

  // ---------------------------------------------------------------- what the manager keeps

  function Successes(starts: seq<Start>): nat {
    if starts == [] then 0
    else
      var last := starts[|starts| - 1];
      Successes(starts[..|starts| - 1]) + if last.Settled? && last.result.Ok? then 1 else 0
  }

  /** The one start that may be unsettled is the one the manager holds; while it is, there is no provider. */
  ghost predicate OneStart(m: Manager) {
    && (m.startPromise.Some? ==> m.startPromise.value < |m.starts|)
    && (forall s :: 0 <= s < |m.starts| && !m.starts[s].Settled? ==> m.startPromise == Some(s) && m.provider.None?)
    && (forall s :: 0 <= s < |m.starts| && m.starts[s].AwaitCapabilities? ==>
          m.starts[s].pid < m.created && m.starts[s].pid !in m.closed)
    && (forall s :: 0 <= s < |m.starts| && m.starts[s].Settled? && m.starts[s].result.Ok? ==>
          m.starts[s].result.value < m.created)
  }

  /** Who may hold an unclosed provider: the manager, or the start that waits for it. */
  predicate Held(m: Manager, pid: ProviderId) {
    m.provider == Some(pid)
    || (m.startPromise.Some? && m.startPromise.value < |m.starts|
        && m.starts[m.startPromise.value] == AwaitCapabilities(pid))
  }

  ghost predicate ManagerInv(m: Manager) {
    && (m.provider.Some? <==> m.state == Ready)
    && (m.provider.Some? ==> m.provider.value < m.created && m.provider.value !in m.closed)
    && (!m.descriptor ==> (m.state == Undiscovered || m.state == Stopped) && m.created == 0)
    && (m.discovering ==> !m.descriptor)
    && OneStart(m)
    && (forall pid :: pid in m.closed ==> pid < m.created)
    && (forall pid :: 0 <= pid < m.created && pid !in m.closed ==> Held(m, pid))
    && m.epoch == Successes(m.starts)
  }

  lemma {:induction false} SettlingCounts(starts: seq<Start>, s: nat, r: Start)
    requires s < |starts| && !starts[s].Settled?
    ensures Successes(starts[s := r]) == Successes(starts) + if r.Settled? && r.result.Ok? then 1 else 0
  {
    var n := |starts| - 1;
    if s < n {
      SettlingCounts(starts[..n], s, r);
      assert starts[s := r][..n] == starts[..n][s := r];
    } else {
      assert starts[s := r][..n] == starts[..n];
    }
  }

  lemma NewStartCounts(starts: seq<Start>)
    ensures Successes(starts + [AwaitDiscover]) == Successes(starts)
  {
    assert (starts + [AwaitDiscover])[..|starts|] == starts;
  }

  lemma JoinKeeps(m: Manager)
    requires ManagerInv(m)
    ensures ManagerInv(Join(m).0) && |Join(m).0.starts| >= |m.starts| && Join(m).0.created == m.created
  {
    hide Successes;
    NewStartCounts(m.starts);
    var j := Join(m).0;
    forall pid | 0 <= pid < j.created && pid !in j.closed ensures Held(j, pid) { assert Held(m, pid); }
  }

  lemma SettleKeeps(m: Manager, s: nat, r: Result<ProviderId, Origin>)
    requires ManagerInv(m) && s < |m.starts| && m.starts[s] == AwaitDiscover && r.Err?
    ensures ManagerInv(Settle(m, s, r))
  {
    hide Successes;
    SettlingCounts(m.starts, s, Settled(r));
    var n := Settle(m, s, r);
    forall pid | 0 <= pid < n.created && pid !in n.closed ensures Held(n, pid) { assert Held(m, pid); }
  }

  lemma StartDiscoveredKeeps(m: Manager, s: nat, failure: Option<Origin>, factory: Option<Origin>)
    requires ManagerInv(m) && s < |m.starts| && m.starts[s] == AwaitDiscover && (failure.None? ==> m.descriptor)
    ensures ManagerInv(StartDiscovered(m, s, failure, factory))
  {
    hide Successes;
    if failure.Some? { SettleKeeps(m, s, Err(failure.value)); }
    else if m.state == Stopped { SettleKeeps(m, s, Err(Contract)); }
    else {
      assert m.provider.None?;
      if factory.Some? {
        StartingKeeps(m);
        SettleKeeps(m.(state := Starting), s, Err(factory.value));
      } else {
        var n := StartDiscovered(m, s, failure, factory);
        SettlingCounts(m.starts, s, AwaitCapabilities(m.created));
        forall pid | 0 <= pid < n.created && pid !in n.closed ensures Held(n, pid) {
          if pid < m.created { assert Held(m, pid); }
        }
      }
    }
  }

  lemma StartingKeeps(m: Manager)
    requires ManagerInv(m) && m.provider.None? && m.descriptor && m.state != Stopped
    ensures ManagerInv(m.(state := Starting))
  {
    hide Successes;
    var n := m.(state := Starting);
    forall pid | 0 <= pid < n.created && pid !in n.closed ensures Held(n, pid) { assert Held(m, pid); }
  }

  lemma StartAnsweredKeeps(m: Manager, s: nat, failure: Option<Origin>)
    requires ManagerInv(m) && s < |m.starts| && m.starts[s].AwaitCapabilities?
    ensures ManagerInv(StartAnswered(m, s, failure))
  {
    hide Successes;
    var n := StartAnswered(m, s, failure);
    SettlingCounts(m.starts, s, n.starts[s]);
    assert n.starts == m.starts[s := n.starts[s]];
    forall pid | 0 <= pid < n.created && pid !in n.closed ensures Held(n, pid) { assert Held(m, pid); }
  }

  lemma ReleasedKeeps(m: Manager, st: RunState)
    requires ManagerInv(m) && st != Ready && (m.descriptor || st == Stopped)
    ensures ManagerInv(Released(m).(state := st))
  {
    hide Successes;
    var n := Released(m).(state := st);
    forall pid | 0 <= pid < n.created && pid !in n.closed ensures Held(n, pid) { assert Held(m, pid); }
  }

  lemma DegradeKeeps(m: Manager)
    requires ManagerInv(m) && (m.descriptor || m.state == Stopped)
    ensures ManagerInv(DegradeAndClose(m)) && DegradeAndClose(m).starts == m.starts
            && DegradeAndClose(m).startPromise == m.startPromise
  {
    hide ManagerInv;
    if m.state != Stopped { ReleasedKeeps(m, Degraded); }
  }

  lemma DiscoverKeeps(m: Manager)
    requires ManagerInv(m)
    ensures ManagerInv(Discover(m)) && (m.discovering ==> forall found :: ManagerInv(DiscoverySettled(m, found)))
  {
    hide Successes;
    forall pid | 0 <= pid < m.created && pid !in m.closed ensures Held(Discover(m), pid) { assert Held(m, pid); }
    if m.discovering {
      forall found ensures ManagerInv(DiscoverySettled(m, found)) {
        assert m.created == 0;
      }
    }
  }

  // ---------------------------------------------------------------- what the operations keep

  predicate Creator(op: Op) { op.pc.Waiting? && op.pc.on.OnStart? && op.pc.on.creator }

  /** A second attempt: of a safe operation, after a transport failure. */
  predicate Retrying(op: Op, m: Manager) {
    op.safe && op.failure == Some(Transport) && (m.descriptor || m.state == Stopped)
  }

  ghost predicate OpInv(op: Op, m: Manager) {
    match op.pc
    case Waiting(on, attempt) =>
      && (attempt == 1 ==> op.invokes == 0 && op.failure.None?)
      && (attempt != 1 ==> attempt == 2 && Retrying(op, m) && op.invokes <= 1)
      && (on.OnStart? ==> on.start < |m.starts| && (on.creator ==> m.startPromise == Some(on.start)))
      && (on.Answered? && on.result.Ok? ==> on.result.value < m.created)
    case Invoking(pid, attempt) =>
      && pid < m.created
      && (attempt == 1 ==> op.invokes == 1 && op.failure.None?)
      && (attempt != 1 ==> attempt == 2 && Retrying(op, m) && 1 <= op.invokes <= 2)
    case Done(_) => op.invokes <= 2 && (op.invokes == 2 ==> op.safe && op.failure == Some(Transport))
  }

  /** What only grows as the manager moves. */
  ghost predicate Grows(m: Manager, n: Manager) {
    && |m.starts| <= |n.starts| && m.created <= n.created && m.closed <= n.closed && m.epoch <= n.epoch
    && (m.descriptor ==> n.descriptor)
    && (m.state == Stopped ==> n.state == Stopped && n.created == m.created && n.provider == m.provider)
  }

  ghost predicate WorldInv(w: World) {
    && ManagerInv(w.m)
    && (forall k :: 0 <= k < |w.ops| ==> OpInv(w.ops[k], w.m))
    && (forall j, k :: 0 <= j < k < |w.ops| ==> !(Creator(w.ops[j]) && Creator(w.ops[k])))
  }

  lemma OpStays(op: Op, m: Manager, n: Manager)
    requires OpInv(op, m) && Grows(m, n) && (Creator(op) ==> n.startPromise == m.startPromise)
    ensures OpInv(op, n)
  {
  }

  /** The manager moved and keeps its promise, and no operation did: all is kept. */
  lemma ManagerMoved(w: World, n: Manager)
    requires WorldInv(w) && ManagerInv(n) && Grows(w.m, n) && n.startPromise == w.m.startPromise
    ensures WorldInv(w.(m := n))
  {
    hide ManagerInv, OpInv, Grows;
    forall k | 0 <= k < |w.ops| ensures OpInv(w.ops[k], n) { OpStays(w.ops[k], w.m, n); }
  }

  /** The manager and operation `k` moved. A promise changes only when no other operation made it. */
  lemma OperationMoved(w: World, k: nat, n: Manager, op: Op)
    requires WorldInv(w) && k < |w.ops| && ManagerInv(n) && Grows(w.m, n) && OpInv(op, n)
    requires n.startPromise != w.m.startPromise || (Creator(op) && !Creator(w.ops[k]))
      ==> forall j :: 0 <= j < |w.ops| && j != k ==> !Creator(w.ops[j])
    ensures WorldInv(World(n, w.ops[k := op]))
  {
    hide ManagerInv, OpInv, Grows;
    var ops := w.ops[k := op];
    forall j | 0 <= j < |ops| ensures OpInv(ops[j], n) {
      if j != k { OpStays(w.ops[j], w.m, n); }
    }
  }

  lemma JoinGrows(m: Manager)
    requires ManagerInv(m)
    ensures var (n, on) := Join(m);
            && ManagerInv(n) && Grows(m, n) && n.state == m.state && n.descriptor == m.descriptor
            && (on.OnStart? ==> on.start < |n.starts|)
            && (on.OnStart? && on.creator ==> n.startPromise == Some(on.start) && m.startPromise.None?)
            && (n.startPromise != m.startPromise ==> m.startPromise.None?)
            && (on.Answered? && on.result.Ok? ==> on.result.value < n.created)
  {
    JoinKeeps(m);
    hide Successes;
  }

  lemma NoCreators(w: World)
    requires WorldInv(w) && w.m.startPromise.None?
    ensures forall k :: 0 <= k < |w.ops| ==> !Creator(w.ops[k])
  {
    hide ManagerInv;
    forall k | 0 <= k < |w.ops| ensures !Creator(w.ops[k]) { assert OpInv(w.ops[k], w.m); }
  }

  lemma BeginKeeps(w: World, safe: bool)
    requires WorldInv(w)
    ensures WorldInv(Happen(w, Begin(safe))) && Grows(w.m, Happen(w, Begin(safe)).m)
  {
    hide ManagerInv, Join, Grows;
    JoinGrows(w.m);
    var (n, on) := Join(w.m);
    if w.m.startPromise.None? { NoCreators(w); }
    var ops := w.ops + [Op(safe, Waiting(on, 1), 0, None)];
    forall j | 0 <= j < |ops| ensures OpInv(ops[j], n) {
      if j < |w.ops| { assert OpInv(w.ops[j], w.m); OpStays(w.ops[j], w.m, n); }
    }
  }

  lemma DegradeGrows(m: Manager)
    ensures Grows(m, DegradeAndClose(m)) && DegradeAndClose(m).startPromise == m.startPromise
            && DegradeAndClose(m).descriptor == m.descriptor
    ensures DegradeAndClose(m).state == Stopped <==> m.state == Stopped
  {
  }

  /** A failed attempt, first or second, leaves everything in order. */
  lemma FailedKeeps(w: World, k: nat, attempt: nat, o: Origin)
    requires WorldInv(w) && k < |w.ops| && OpInv(w.ops[k], w.m) && !w.ops[k].pc.Done? && attempt == w.ops[k].pc.attempt
    requires !Creator(w.ops[k])
    ensures var (n, op) := Failed(w.m, w.ops[k], attempt, o); WorldInv(Put(w, k, (n, op))) && Grows(w.m, n)
  {
    hide Join, DegradeAndClose, Grows, OneStart, Held, Successes;
    var m, op := w.m, w.ops[k];
    var (n, op') := Failed(m, op, attempt, o);
    DegradeGrows(m);
    GrowsItself(m);
    var d := DegradeAndClose(m);
    if o == RemoteDomain || (attempt == 1 && FailedBeforeRuntimeStart(m)) {
      OperationMoved(w, k, m, op');
    } else {
      DegradeKeeps(m);
      if attempt == 1 && op.safe && o == Transport {
        JoinGrows(d);
        var (j, on) := Join(d);
        GrowsOn(m, d, j);
        if m.startPromise.None? { NoCreators(w); }
        OperationMoved(w, k, j, op');
      } else {
        OperationMoved(w, k, d, op');
      }
    }
  }

  lemma GrowsItself(m: Manager)
    ensures Grows(m, m)
  {
  }

  lemma GrowsOn(a: Manager, b: Manager, c: Manager)
    requires Grows(a, b) && Grows(b, c)
    ensures Grows(a, c)
  {
  }

  lemma SettlesKeep(w: World, k: nat)
    requires WorldInv(w) && Enabled(w, StartSettles(k))
    ensures WorldInv(Happen(w, StartSettles(k))) && Grows(w.m, Happen(w, StartSettles(k)).m)
  {
    hide Held, Successes;
    var (n, op) := StartTaken(w.m, w.ops[k]);
    assert OpInv(w.ops[k], w.m);
    if w.ops[k].pc.on.creator {
      assert OneStart(n);
      forall pid | 0 <= pid < n.created && pid !in n.closed ensures Held(n, pid) {
        assert Held(w.m, pid); ClearedHolds(w.m, pid);
      }
      forall j | 0 <= j < |w.ops| && j != k ensures !Creator(w.ops[j]) { assert Creator(w.ops[k]); }
    }
    OperationMoved(w, k, n, op);
  }

  /** Once its start has settled, what the promise held is the manager's or closed. */
  lemma ClearedHolds(m: Manager, pid: ProviderId)
    requires m.startPromise.Some? && m.startPromise.value < |m.starts| && m.starts[m.startPromise.value].Settled?
    ensures Held(m.(startPromise := None), pid) == Held(m, pid)
  {
  }

  lemma ResumeKeeps(w: World, k: nat)
    requires WorldInv(w) && Enabled(w, Resume(k))
    ensures WorldInv(Happen(w, Resume(k))) && Grows(w.m, Happen(w, Resume(k)).m)
  {
    hide ManagerInv, Grows, Failed;
    var op := w.ops[k];
    assert OpInv(op, w.m);
    GrowsItself(w.m);
    if op.pc.on.result.Ok? {
      OperationMoved(w, k, w.m, Resumed(w.m, op).1);
    } else {
      FailedKeeps(w, k, op.pc.attempt, op.pc.on.result.error);
    }
  }

  lemma InvokeKeeps(w: World, k: nat, e: Event)
    requires WorldInv(w) && Enabled(w, e) && (e == InvokeReturns(k) || (e.InvokeFails? && e.op == k))
    ensures WorldInv(Happen(w, e)) && Grows(w.m, Happen(w, e).m)
  {
    hide ManagerInv, Grows, Failed;
    var op := w.ops[k];
    assert OpInv(op, w.m);
    GrowsItself(w.m);
    if e.InvokeReturns? { OperationMoved(w, k, w.m, op.(pc := Done(true))); }
    else { FailedKeeps(w, k, op.pc.attempt, e.origin); }
  }

  lemma StartMoves(m: Manager, e: Event)
    requires ManagerInv(m) && Enabled(World(m, []), e) && (e.StartContinues? || e.CapabilitiesAnswer?)
    ensures var n := Happen(World(m, []), e).m; ManagerInv(n) && Grows(m, n) && n.startPromise == m.startPromise
  {
    hide Held, Successes;
    if e.StartContinues? { StartDiscoveredKeeps(m, e.start, e.failure, e.factory); }
    else { StartAnsweredKeeps(m, e.start, e.failure); }
  }

  lemma QuietMoves(m: Manager, e: Event)
    requires ManagerInv(m) && Enabled(World(m, []), e) && (e.CallDiscover? || e.DiscoveryEnds? || e.StopCalled?)
    ensures var n := Happen(World(m, []), e).m; ManagerInv(n) && Grows(m, n) && n.startPromise == m.startPromise
  {
    hide Held, Successes;
    DiscoverKeeps(m);
    if e.StopCalled? && m.state != Stopped { ReleasedKeeps(m, Stopped); }
  }

  lemma EventKeeps(w: World, e: Event)
    requires WorldInv(w)
    ensures WorldInv(Next(w, e)) && Grows(w.m, Next(w, e).m)
  {
    hide WorldInv, Grows, ManagerInv, Join, StartDiscovered, StartAnswered, DiscoverySettled, Discover, Stop;
    hide Resumed, Failed, StartTaken;
    GrowsItself(w.m);
    if Enabled(w, e) {
      assert ManagerInv(w.m) by { InvOfManager(w); }
      match e
      case Begin(safe) => BeginKeeps(w, safe);
      case CallDiscover => QuietMoves(w.m, e); ManagerMoved(w, Happen(w, e).m);
      case DiscoveryEnds(_) => QuietMoves(w.m, e); ManagerMoved(w, Happen(w, e).m);
      case StartContinues(_, _, _) => StartMoves(w.m, e); ManagerMoved(w, Happen(w, e).m);
      case CapabilitiesAnswer(_, _) => StartMoves(w.m, e); ManagerMoved(w, Happen(w, e).m);
      case StartSettles(k) => SettlesKeep(w, k);
      case Resume(k) => ResumeKeeps(w, k);
      case InvokeReturns(k) => InvokeKeeps(w, k, e);
      case InvokeFails(k, _) => InvokeKeeps(w, k, e);
      case StopCalled => QuietMoves(w.m, e); ManagerMoved(w, Happen(w, e).m);
    }
  }

  lemma InvOfManager(w: World)
    requires WorldInv(w)
    ensures ManagerInv(w.m)
  {
  }

  lemma {:induction false} EveryRunKeeps(events: seq<Event>)
    ensures WorldInv(Run(events))
  {
    hide Next;
    if events == [] {
      assert NEW_MANAGER.starts == [];
    } else {
      EveryRunKeeps(events[..|events| - 1]);
      EventKeeps(Run(events[..|events| - 1]), events[|events| - 1]);
    }
  }

  // ---------------------------------------------------------------- the guarantees

  predicate Unclosed(m: Manager, pid: ProviderId) { pid < m.created && pid !in m.closed }

  /** In every reachable world: a provider is stored exactly when the state is ready, at most one created provider is
      unclosed, once stopped with no start in flight none is, and the epoch counts the starts that succeeded. */
  lemma ProvidersAreAccountedFor(events: seq<Event>)
    ensures var m := Run(events).m;
            && (m.provider.Some? <==> m.state == Ready)
            && (m.provider.Some? ==> Unclosed(m, m.provider.value))
            && (forall p, q :: Unclosed(m, p) && Unclosed(m, q) ==> p == q)
            && (m.state == Stopped && (forall s :: 0 <= s < |m.starts| ==> m.starts[s].Settled?) ==>
                  forall p :: !Unclosed(m, p))
            && m.epoch == Successes(m.starts)
  {
    EveryRunKeeps(events);
    hide Run, Successes;
    var m := Run(events).m;
    forall p | Unclosed(m, p) ensures Held(m, p) { }
  }

  /** Stopped is for good: nothing that happens later leaves it, makes a provider or stores one. */
  lemma {:induction false} StoppedIsForGood(events: seq<Event>, more: seq<Event>)
    requires Run(events).m.state == Stopped
    ensures var m := Run(events + more).m;
            m.state == Stopped && m.created == Run(events).m.created && m.provider == None
  {
    hide Next, ManagerInv, OpInv;
    if more == [] {
      assert events + more == events;
      EveryRunKeeps(events);
      ReadyIsNotStopped(Run(events).m);
    } else {
      var before := events + more[..|more| - 1];
      StoppedIsForGood(events, more[..|more| - 1]);
      assert (events + more)[..|events + more| - 1] == before;
      EveryRunKeeps(before);
      EventKeeps(Run(before), more[|more| - 1]);
    }
  }

  lemma ReadyIsNotStopped(m: Manager)
    requires ManagerInv(m)
    ensures m.state == Stopped ==> m.provider.None?
  {
    hide OneStart, Held;
  }

  /**
   * A safe operation invokes at most twice, the second time only after a transport failure; an unsafe one at most
   * once.
   */
  lemma InvocationsAreBounded(events: seq<Event>, k: nat)
    requires k < |Run(events).ops|
    ensures var op := Run(events).ops[k];
            op.invokes <= (if op.safe then 2 else 1) && (op.invokes == 2 ==> op.failure == Some(Transport))
  {
    hide Run, ManagerInv;
    EveryRunKeeps(events);
    assert OpInv(Run(events).ops[k], Run(events).m);
  }

  // ---------------------------------------------------------------- what a failure does, and what a start achieves

  /** The attempt of operation `k` fails now: its invocation, or the start it waited for. */
  predicate FailsBy(w: World, k: nat, o: Origin, e: Event) {
    && k < |w.ops|
    && ((e == InvokeFails(k, o) && w.ops[k].pc.Invoking?)
        || (e == Resume(k) && w.ops[k].pc.Waiting? && w.ops[k].pc.on == Answered(Err(o))))
  }

  /** A failure that leaves the manager alone: the provider's own error, or no runtime was ever found. */
  predicate Harmless(m: Manager, attempt: nat, o: Origin) {
    o == RemoteDomain || (attempt == 1 && !m.descriptor && m.state != Stopped)
  }

  /** A second attempt follows: the first failed in transport, may be repeated, and did not fail harmlessly. */
  predicate Retried(w: World, k: nat, o: Origin)
    requires k < |w.ops| && !w.ops[k].pc.Done?
  {
    w.ops[k].pc.attempt == 1 && w.ops[k].safe && o == Transport && !Harmless(w.m, w.ops[k].pc.attempt, o)
  }

  lemma FailureSettles(w: World, k: nat, o: Origin, e: Event)
    requires WorldInv(w) && FailsBy(w, k, o, e)
    ensures var w' := Next(w, e);
            var op, op' := w.ops[k], w'.ops[k];
            && (forall j :: 0 <= j < |w.ops| && j != k ==> w'.ops[j] == w.ops[j])
            && op'.invokes == op.invokes && op'.safe == op.safe
            && (if Retried(w, k, o) then op'.pc.Waiting? && op'.pc.attempt == 2 else op'.pc == Done(false))
            && (Retried(w, k, o) && w.m.state == Stopped ==> op'.pc.on == Answered(Err(Contract)))
            && (Retried(w, k, o) && w.m.state != Stopped ==> op'.pc.on.OnStart?)
  {
    hide OneStart, Held, Successes, Grows;
    assert OpInv(w.ops[k], w.m);
    assert ManagerInv(w.m);
  }

  lemma FailureCosts(w: World, k: nat, o: Origin, e: Event)
    requires WorldInv(w) && FailsBy(w, k, o, e)
    ensures var w' := Next(w, e);
            var harmless := Harmless(w.m, w.ops[k].pc.attempt, o);
            && (harmless ==> w'.m == w.m)
            && (!harmless && w.m.state != Stopped ==> w'.m.state == Degraded && w'.m.provider.None?)
            && (!harmless && w.m.provider.Some? ==> w.m.provider.value in w'.m.closed)
            && (Retried(w, k, o) && w.m.state != Stopped && w'.ops[k].pc.Waiting? && w'.ops[k].pc.on.OnStart? ==>
                  && w'.m.startPromise == Some(w'.ops[k].pc.on.start)
                  && (w.m.startPromise.Some? ==> w'.m.startPromise == w.m.startPromise))
  {
    hide OneStart, Held, Successes, Grows;
    assert OpInv(w.ops[k], w.m);
    assert ManagerInv(w.m);
  }

  /** The operation tries again exactly when it is safe, its first attempt failed in transport, and that was not
      harmless; a failure that is not harmless costs the manager its provider. */
  lemma FailureMoves(events: seq<Event>, k: nat, o: Origin, e: Event)
    requires FailsBy(Run(events), k, o, e)
    ensures var w, w' := Run(events), Next(Run(events), e);
            var op, op', harmless := w.ops[k], w'.ops[k], Harmless(w.m, w.ops[k].pc.attempt, o);
            var retry := Retried(w, k, o);
            && (forall j :: 0 <= j < |w.ops| && j != k ==> w'.ops[j] == w.ops[j])
            && op'.invokes == op.invokes && op'.safe == op.safe
            && (if retry then op'.pc.Waiting? && op'.pc.attempt == 2 else op'.pc == Done(false))
            && (retry && w.m.state == Stopped ==> op'.pc.on == Answered(Err(Contract)))
            && (retry && w.m.state != Stopped ==> op'.pc.on.OnStart? && w'.m.startPromise == Some(op'.pc.on.start))
            && (retry && w.m.state != Stopped && w.m.startPromise.Some? ==> w'.m.startPromise == w.m.startPromise)
            && (harmless ==> w'.m == w.m)
            && (!harmless && w.m.state != Stopped ==> w'.m.state == Degraded && w'.m.provider.None?)
            && (!harmless && w.m.provider.Some? ==> w.m.provider.value in w'.m.closed)
  {
    hide Run, Next, Harmless, Retried;
    EveryRunKeeps(events);
    FailureSettles(Run(events), k, o, e);
    FailureCosts(Run(events), k, o, e);
  }

  /** The worlds that follow `w`. */
  function Later(w: World, events: seq<Event>): World
    decreases |events|
  {
    if events == [] then w else Later(Next(w, events[0]), events[1..])
  }

  lemma {:induction false} RunIsLater(events: seq<Event>, more: seq<Event>)
    ensures Run(events + more) == Later(Run(events), more)
    decreases |more|
  {
    hide Next;
    if more == [] {
      assert events + more == events;
    } else {
      var e := more[0];
      assert (events + [e])[..|events|] == events;
      assert events + more == (events + [e]) + more[1..];
      RunIsLater(events + [e], more[1..]);
    }
  }

  /** What has to go well for the start `s` and the operation that made it. */
  function Succeeds(s: nat, k: nat): seq<Event> {
    [StartContinues(s, None, None), CapabilitiesAnswer(s, None), StartSettles(k), Resume(k), InvokeReturns(k)]
  }

  /** Operation `k` has made start `s`, discovery is over, and nothing has been answered yet. */
  predicate JustStarted(w: World, s: nat, k: nat) {
    && k < |w.ops| && w.ops[k].pc.Waiting? && w.ops[k].pc.on == OnStart(s, true)
    && s < |w.m.starts| && w.m.starts[s] == AwaitDiscover && w.m.descriptor && w.m.state != Stopped
  }

  /** If it does, the operation is answered by a new provider, which the manager keeps. */
  lemma StartSucceeds(w: World, s: nat, k: nat)
    requires JustStarted(w, s, k)
    ensures var w' := Later(w, Succeeds(s, k));
            && |w'.ops| == |w.ops| && w'.ops[k].pc == Done(true) && w'.ops[k].invokes == w.ops[k].invokes + 1
            && w'.m.state == Ready && w'.m.provider == Some(w.m.created) && w'.m.created == w.m.created + 1
            && w'.m.startPromise.None? && w'.m.epoch == w.m.epoch + 1 && w'.m.closed == w.m.closed
  {
    var e := Succeeds(s, k);
    var w1 := Next(w, e[0]);
    var w2 := Next(w1, e[1]);
    var w3 := Next(w2, e[2]);
    var w4 := Next(w3, e[3]);
    var w5 := Next(w4, e[4]);
    assert w1.m.starts[s] == AwaitCapabilities(w.m.created) && w1.ops == w.ops;
    assert w2.m.starts[s] == Settled(Ok(w.m.created)) && w2.ops == w.ops;
    assert w3.ops[k].pc == Waiting(Answered(Ok(w.m.created)), w.ops[k].pc.attempt);
    LaterFive(w, e[0], e[1], e[2], e[3], e[4]);
  }

  lemma LaterFive(w: World, a: Event, b: Event, c: Event, d: Event, e: Event)
    ensures Later(w, [a, b, c, d, e]) == Next(Next(Next(Next(Next(w, a), b), c), d), e)
  {
    hide Next;
    assert [a, b, c, d, e][1..] == [b, c, d, e] && [b, c, d, e][1..] == [c, d, e];
    assert [c, d, e][1..] == [d, e] && [d, e][1..] == [e] && [e][1..] == [];
    var w2 := Next(Next(w, a), b);
    assert Later(w, [a, b, c, d, e]) == Later(w2, [c, d, e]);
    var w4 := Next(Next(w2, c), d);
    assert Later(w2, [c, d, e]) == Later(w4, [e]);
    assert Later(w4, [e]) == Later(Next(w4, e), []);
  }

  /** A safe operation whose invocation fails in transport, in any run, is answered by a fresh provider if the restart
      goes well, and the old provider is closed. */
  lemma RetrySucceeds(events: seq<Event>, k: nat)
    requires var w := Run(events);
             && k < |w.ops| && w.ops[k].safe && w.ops[k].pc.Invoking? && w.ops[k].pc.attempt == 1
             && w.m.startPromise.None? && w.m.state != Stopped
    ensures var w := Run(events);
            var w' := Run(events + ([InvokeFails(k, Transport)] + Succeeds(|w.m.starts|, k)));
            && k < |w'.ops| && w'.ops[k].pc == Done(true) && w'.ops[k].invokes == 2
            && w'.m.state == Ready && w'.m.provider == Some(w.m.created) && w'.m.epoch == w.m.epoch + 1
            && (w.m.provider.Some? ==> w.m.provider.value in w'.m.closed)
  {
    hide Run, Succeeds, Later, OneStart, Held, Successes;
    var w, e := Run(events), InvokeFails(k, Transport);
    EveryRunKeeps(events);
    assert OpInv(w.ops[k], w.m) && ManagerInv(w.m);
    var w1 := Next(w, e);
    RunIsLater(events, [e] + Succeeds(|w.m.starts|, k));
    OneLater(w, e, Succeeds(|w.m.starts|, k));
    StartSucceeds(w1, |w.m.starts|, k);
  }

  lemma OneLater(w: World, e: Event, more: seq<Event>)
    ensures Later(w, [e] + more) == Later(Next(w, e), more)
  {
    hide Next;
    assert ([e] + more)[1..] == more;
  }

  /** Discovery has to succeed too, unless it has already. */
  function Finds(m: Manager): seq<Event> { if m.descriptor then [] else [DiscoveryEnds(true)] }

  /** So is an operation that finds no provider and no start in flight. */
  lemma FirstStartSucceeds(events: seq<Event>, safe: bool)
    requires var m := Run(events).m; m.provider.None? && m.startPromise.None? && m.state != Stopped
    ensures var w := Run(events);
            var w' := Run(events + ([Begin(safe)] + (Finds(w.m) + Succeeds(|w.m.starts|, |w.ops|))));
            && |w'.ops| == |w.ops| + 1 && w'.ops[|w.ops|].pc == Done(true) && w'.ops[|w.ops|].invokes == 1
            && w'.m.state == Ready && w'.m.provider == Some(w.m.created) && w'.m.epoch == w.m.epoch + 1
  {
    hide Run, Succeeds, Later;
    var w, e := Run(events), Begin(safe);
    EveryRunKeeps(events);
    var well := Succeeds(|w.m.starts|, |w.ops|);
    RunIsLater(events, [e] + (Finds(w.m) + well));
    OneLater(w, e, Finds(w.m) + well);
    var w1 := Next(w, e);
    if w.m.descriptor {
      assert [] + well == well;
      StartSucceeds(w1, |w.m.starts|, |w.ops|);
    } else {
      OneLater(w1, DiscoveryEnds(true), well);
      StartSucceeds(Next(w1, DiscoveryEnds(true)), |w.m.starts|, |w.ops|);
    }
  }

  /** Whoever waits for a start gets its result: an operation that begins meanwhile waits for the same start, and each
      waiter invokes the provider the start made, or fails with its error. */
  lemma WaitersShareTheStart(events: seq<Event>, s: nat, safe: bool, k: nat)
    requires var w := Run(events); w.m.startPromise == Some(s) && w.m.state != Stopped && w.m.provider.None?
    ensures var w := Run(events);
            var w' := Next(w, Begin(safe));
            w'.ops == w.ops + [Op(safe, Waiting(OnStart(s, false), 1), 0, None)] && w'.m == w.m
    ensures var w := Run(events);
            k < |w.ops| && w.ops[k].pc.Waiting? && w.ops[k].pc.on.OnStart? && w.ops[k].pc.on.start == s
            && s < |w.m.starts| && w.m.starts[s].Settled? ==>
              var op := Next(w, StartSettles(k)).ops[k];
              op == w.ops[k].(pc := Waiting(Answered(w.m.starts[s].result), w.ops[k].pc.attempt))
  {
    hide Run;
  }

  /** A discovery that finds a runtime before any stop is remembered and is the last; any other leaves the manager as
      it was before it, free to look again until it is stopped. */
  lemma DiscoveryAnswers(events: seq<Event>, found: bool)
    requires Run(events).m.discovering
    ensures var w, w' := Run(events), Next(Run(events), DiscoveryEnds(found));
            var kept := found && w.m.state != Stopped;
            && w'.ops == w.ops && (w'.m.descriptor <==> kept)
            && w'.m.state == (if kept then Discovered else w.m.state)
            && w'.m == w.m.(discovering := false, descriptor := w'.m.descriptor, state := w'.m.state)
            && (Next(w', CallDiscover).m.discovering <==> !kept && w.m.state != Stopped)
  {
    hide Run;
    EveryRunKeeps(events);
    assert ManagerInv(Run(events).m);
  }

  /** A stop, at any moment, closes the stored provider and leaves everything else that waits or runs as it was. */
  lemma StopCloses(events: seq<Event>)
    ensures var w, w' := Run(events), Next(Run(events), StopCalled);
            && w'.ops == w.ops && w'.m.state == Stopped && w'.m.provider.None?
            && w'.m.closed == w.m.closed + (if w.m.provider.Some? then {w.m.provider.value} else {})
            && w'.m.starts == w.m.starts && w'.m.created == w.m.created && w'.m.epoch == w.m.epoch
            && w'.m.startPromise == w.m.startPromise && w'.m.descriptor == w.m.descriptor
  {
    hide Run;
    EveryRunKeeps(events);
    assert ManagerInv(Run(events).m);
  }

  /** From then on an operation fails without invoking anything, and a start that was under way fails, its provider, if
      it has one, closed. */
  lemma StoppedRefuses(w: World, safe: bool, s: nat, failure: Option<Origin>, factory: Option<Origin>)
    requires w.m.state == Stopped
    ensures Next(Next(w, Begin(safe)), Resume(|w.ops|))
            == w.(ops := w.ops + [Op(safe, Done(false), 0, Some(Contract))])
    ensures s < |w.m.starts| && Enabled(w, StartContinues(s, failure, factory)) ==>
              var m := Next(w, StartContinues(s, failure, factory)).m;
              m.starts[s].Settled? && m.starts[s].result.Err? && m == w.m.(starts := m.starts)
    ensures s < |w.m.starts| && w.m.starts[s].AwaitCapabilities? ==>
              var m := Next(w, CapabilitiesAnswer(s, failure)).m;
              && m.starts[s].Settled? && m.starts[s].result.Err? && w.m.starts[s].pid in m.closed
              && m.provider == w.m.provider && m.epoch == w.m.epoch
  {
    var w1 := Next(w, Begin(safe));
    assert w1.ops == w.ops + [Op(safe, Waiting(Answered(Err(Contract)), 1), 0, None)] && w1.m == w.m;
  }
}
