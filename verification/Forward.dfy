/**
 internal/forward/forward.go: one manager of local port forwards per target.

 Ensure opens the operating-system forward between two critical sections, so
 any number of Ensure, Remove and Stop calls interleave.  The state machine
 below takes each critical section, each ssh control operation, each Listen and
 each Close as one atomic step of a thread; `Exec` runs an arbitrary schedule,
 in which a step that is not possible changes nothing.
 */
module ForwardManager {
  import opened Text
  import opened Wrappers

  type Port = int
  type ThreadId = nat

  // What a Forward holds in the operating system: a forward to `host` inside the ssh
  // control master behind `controlPath`, or a listener of this process.
  datatype Resource = ControlForward(controlPath: string, host: string) | Listener(handle: nat)

  // The -L spec of a control forward consists of listenIP, port and host.
  datatype Forward = Forward(port: Port, listenIP: string, resource: Resource)

  type Address = (string, Port)

  function AddressOf(f: Forward): Address { (f.listenIP, f.port) }

  datatype Transport = Transport(sshPath: string, controlPath: string)

  // ----- the fields behind m.mu and the critical sections over them

  datatype Table = Table(byRemote: map<Port, Forward>, stopped: bool)

  datatype Begin = Refused | Existing(f: Forward) | Proceed

  // Ensure, before the transport is asked: decides whether a forward is made at all.
  function BeginRegion(tb: Table, port: Port): Begin {
    if tb.stopped then Refused
    else if port in tb.byRemote then Existing(tb.byRemote[port])
    else Proceed
  }

  datatype Commit = MustDrop | Lost(winner: Forward) | Registered

  // Ensure, after it: decides who owns the forward just made.
  function CommitRegion(tb: Table, f: Forward): (Table, Commit) {
    if tb.stopped then (tb, MustDrop)
    else if f.port in tb.byRemote then (tb, Lost(tb.byRemote[f.port]))
    else (tb.(byRemote := tb.byRemote[f.port := f]), Registered)
  }

  // Remove: from here on the caller alone holds the forward.
  function RemoveRegion(tb: Table, port: Port): (Table, Option<Forward>) {
    (tb.(byRemote := tb.byRemote - {port}), if port in tb.byRemote then Some(tb.byRemote[port]) else None)
  }

  // Stop: the first call takes every forward and refuses later ones.
  function StopRegion(tb: Table): (Table, set<Forward>) {
    if tb.stopped then (tb, {}) else (Table(map[], true), set p | p in tb.byRemote :: tb.byRemote[p])
  }

  class Manager {
    var byRemote: map<Port, Forward>
    var stopped: bool

    function View(): Table reads this { Table(byRemote, stopped) }

    constructor ()
      ensures View() == Table(map[], false)
    {
      byRemote, stopped := map[], false;
    }

    method BeginEnsure(port: Port) returns (begin: Begin)
      ensures begin == BeginRegion(View(), port)
      ensures begin == Proceed <==> !stopped && port !in byRemote
      ensures begin.Existing? ==> port in byRemote && begin.f == byRemote[port]
    {
      if stopped {
        return Refused;
      }
      if port in byRemote {
        return Existing(byRemote[port]);
      }
      return Proceed;
    }

    method CommitEnsure(f: Forward) returns (commit: Commit)
      modifies this
      ensures (View(), commit) == CommitRegion(old(View()), f)
      ensures commit == Registered <==> !old(stopped) && f.port !in old(byRemote)
      ensures commit == Registered ==> f.port in byRemote && byRemote[f.port] == f
      ensures commit == MustDrop <==> old(stopped)
    {
      if stopped {
        return MustDrop;
      }
      if f.port in byRemote {
        return Lost(byRemote[f.port]);
      }
      byRemote := byRemote[f.port := f];
      return Registered;
    }

    method TakeForRemove(port: Port) returns (taken: Option<Forward>)
      modifies this
      ensures (View(), taken) == RemoveRegion(old(View()), port)
      ensures port !in byRemote && (taken.Some? <==> port in old(byRemote))
      ensures taken.Some? ==> taken.value == old(byRemote)[port]
    {
      taken := if port in byRemote then Some(byRemote[port]) else None;
      byRemote := byRemote - {port};
    }

    method TakeForStop() returns (taken: set<Forward>)
      modifies this
      ensures (View(), taken) == StopRegion(old(View()))
      ensures stopped && (!old(stopped) ==> byRemote == map[] && taken == set p | p in old(byRemote) :: old(byRemote)[p])
    {
      if stopped {
        return {};
      }
      stopped, taken := true, set p | p in byRemote :: byRemote[p];
      byRemote := map[];
    }
  }

  // The host of a spec: brackets go, and the remote machine itself is a number.
  function NormalizeRemoteHost(host: string): string {
    var h := Trim(TrimSpace(host), {'[', ']'});
    if h == "" || ToLower(h) == "localhost" then "127.0.0.1" else h
  }

  // ----- threads

  datatype Pc =
    | EnsureStart(port: Port, listenIP: string, remoteHost: string)
    | EnsureOpen(port: Port, listenIP: string, host: string)   // unlocked: about to open the forward
    | EnsureFailed(port: Port)            // the control operation failed: look again
    | EnsureCommit(f: Forward)            // holds an open forward: about to commit
    | Abandoning(f: Forward)              // lost the race: about to close its listener
    | Dropping(fs: set<Forward>)          // owes a drop of each of fs
    | RemoveStart(port: Port)
    | StopStart
    | Returned(result: Option<Forward>)

  datatype State = State(
    table: Table,
    live: map<Address, Resource>,         // local address -> who has it bound
    nextHandle: nat,
    threads: map<ThreadId, Pc>,
    cancels: nat)                         // control operations "cancel" issued

  // Choices of the environment: the transport in force when it is read,
  // whether an operation succeeds, and which owed drop comes next.
  datatype Env = Env(transport: Transport, ok: bool, pick: Forward)

  datatype Step = Call(t: ThreadId, entry: Pc) | Advance(t: ThreadId, env: Env)

  const Init := State(Table(map[], false), map[], 0, map[], 0)

  predicate IsEntry(pc: Pc) {
    pc.EnsureStart? || pc.RemoveStart? || pc.StopStart?
  }

  function Goto(s: State, t: ThreadId, pc: Pc): State {
    s.(threads := s.threads[t := pc])
  }

  // A "forward" operation or a Listen: a local address has one owner, and the
  // control master accepts a spec it already holds.
  function Open(s: State, t: ThreadId, port: Port, listenIP: string, host: string, env: Env): State {
    var at := (listenIP, port);
    if env.transport.controlPath != "" then
      var r := ControlForward(env.transport.controlPath, host);
      if env.transport.sshPath == "" then Goto(s, t, Returned(None))
      else if env.ok && (at in s.live ==> s.live[at] == r) then
        Goto(s.(live := s.live[at := r]), t, EnsureCommit(Forward(port, listenIP, r)))
      else Goto(s, t, EnsureFailed(port))
    else if env.ok && at !in s.live then
      var r := Listener(s.nextHandle);
      Goto(s.(live := s.live[at := r], nextHandle := s.nextHandle + 1), t, EnsureCommit(Forward(port, listenIP, r)))
    else Goto(s, t, Returned(None))
  }

  predicate IsLive(live: map<Address, Resource>, f: Forward) {
    AddressOf(f) in live && live[AddressOf(f)] == f.resource
  }

  function Release(live: map<Address, Resource>, f: Forward): map<Address, Resource> {
    if IsLive(live, f) then live - {AddressOf(f)} else live
  }

  function CommitStep(s: State, t: ThreadId, f: Forward): State {
    var (table, out) := CommitRegion(s.table, f);
    var s' := s.(table := table);
    match out
    case MustDrop => Goto(s', t, Dropping({f}))
    case Lost(winner) => Goto(s', t, if f.resource.Listener? then Abandoning(f) else Returned(Some(winner)))
    case Registered => Goto(s', t, Returned(Some(f)))
  }

  function DropStep(s: State, t: ThreadId, fs: set<Forward>, env: Env): State {
    if fs == {} then Goto(s, t, Returned(None))
    else if env.pick !in fs then s
    else
      Goto(s.(live := Release(s.live, env.pick),
              cancels := s.cancels + if env.pick.resource.ControlForward? then 1 else 0),
           t, Dropping(fs - {env.pick}))
  }

  function Apply(s: State, step: Step): State {
    match step
    case Call(t, entry) => if t !in s.threads && IsEntry(entry) then Goto(s, t, entry) else s
    case Advance(t, env) =>
      if t !in s.threads then s else
      match s.threads[t]
      case EnsureStart(port, listenIP, remoteHost) =>
        (match BeginRegion(s.table, port)
         case Refused => Goto(s, t, Returned(None))
         case Existing(f) => Goto(s, t, Returned(Some(f)))
         case Proceed =>
           Goto(s, t, if listenIP == "" then Returned(None) else EnsureOpen(port, listenIP, NormalizeRemoteHost(remoteHost))))
      case EnsureOpen(port, listenIP, host) => Open(s, t, port, listenIP, host, env)
      case EnsureFailed(port) =>
        Goto(s, t, Returned(if port in s.table.byRemote then Some(s.table.byRemote[port]) else None))
      case EnsureCommit(f) => CommitStep(s, t, f)
      case Abandoning(f) => Goto(s.(live := Release(s.live, f)), t, Returned(None))
      case Dropping(fs) => DropStep(s, t, fs, env)
      case RemoveStart(port) =>
        var (table, taken) := RemoveRegion(s.table, port);
        Goto(s.(table := table), t, Dropping(if taken.Some? then {taken.value} else {}))
      case StopStart =>
        var (table, taken) := StopRegion(s.table);
        Goto(s.(table := table), t, Dropping(taken))
      case Returned(_) => s
  }

  function Exec(s: State, steps: seq<Step>): State {
    if steps == [] then s else Apply(Exec(s, steps[..|steps| - 1]), steps[|steps| - 1])
  }

  // ----- ownership: what leaks, and when

  predicate Holds(pc: Pc, f: Forward) {
    (pc.EnsureCommit? && pc.f == f) || (pc.Abandoning? && pc.f == f) || (pc.Dropping? && f in pc.fs)
  }

  ghost predicate HeldByThread(s: State, f: Forward) {
    exists t :: t in s.threads && Holds(s.threads[t], f)
  }

  ghost predicate InTable(s: State, f: Forward) {
    f.port in s.table.byRemote && s.table.byRemote[f.port] == f
  }

  // Every live OS forward is registered, about to be committed, or about to be
  // dropped.
  ghost predicate NoLeak(s: State) {
    forall f :: IsLive(s.live, f) ==> InTable(s, f) || HeldByThread(s, f)
  }

  // Forwards are filed under their own port, and a stopped manager has none.
  ghost predicate Filed(s: State) {
    && (forall p :: p in s.table.byRemote ==> s.table.byRemote[p].port == p)
    && (s.table.stopped ==> s.table.byRemote == map[])
  }

  predicate Quiescent(s: State) {
    forall t :: t in s.threads ==> s.threads[t].Returned?
  }

  // An Ensure loses to a winner that does not cover its live control forward, which
  // nothing else will drop either: abandon closes listeners only.
  ghost predicate Uncovered(s: State, step: Step) {
    && step.Advance? && step.t in s.threads && s.threads[step.t].EnsureCommit?
    && var f := s.threads[step.t].f;
       && f.resource.ControlForward? && IsLive(s.live, f)
       && CommitRegion(s.table, f).1.Lost? && !InTable(s, f)
       && forall u :: u in s.threads && u != step.t ==> !Holds(s.threads[u], f)
  }

  lemma HolderStays(s: State, s': State, t: ThreadId, f: Forward)
    requires HeldByThread(s, f)
    requires forall u :: u in s.threads && u != t ==> u in s'.threads && s'.threads[u] == s.threads[u]
    requires t in s.threads && Holds(s.threads[t], f) ==> t in s'.threads && Holds(s'.threads[t], f)
    ensures HeldByThread(s', f)
  {
    var u :| u in s.threads && Holds(s.threads[u], f);
    assert u in s'.threads && Holds(s'.threads[u], f);
  }

  lemma FiledStep(s: State, step: Step)
    requires Filed(s)
    ensures Filed(Apply(s, step))
  {
  }

  // A live forward the step does not open keeps its owner.
  lemma OwnerStays(s: State, step: Step, f: Forward)
    requires Filed(s) && !Uncovered(s, step)
    requires InTable(s, f) || HeldByThread(s, f)
    requires IsLive(s.live, f) && IsLive(Apply(s, step).live, f)
    ensures InTable(Apply(s, step), f) || HeldByThread(Apply(s, step), f)
  {
    var s', t := Apply(s, step), step.t;
    if InTable(s, f) {
      if !InTable(s', f) {
        assert Holds(s'.threads[t], f);
      }
    } else if t in s.threads && Holds(s.threads[t], f) {
      if !InTable(s', f) {
        OwnThreadKeeps(s, step, f);
      }
    } else {
      HolderStays(s, s', t, f);
    }
  }

  lemma OwnThreadKeeps(s: State, step: Step, f: Forward)
    requires Filed(s) && !Uncovered(s, step) && !InTable(s, f) && !InTable(Apply(s, step), f)
    requires step.t in s.threads && Holds(s.threads[step.t], f)
    requires IsLive(s.live, f) && IsLive(Apply(s, step).live, f)
    ensures HeldByThread(Apply(s, step), f)
  {
    var s', t := Apply(s, step), step.t;
    if !Holds(s'.threads[t], f) {
      var u :| u in s.threads && u != t && Holds(s.threads[u], f);
      assert u in s'.threads && Holds(s'.threads[u], f);
    }
  }

  lemma UncoveredLeaks(s: State, step: Step)
    requires Uncovered(s, step)
    ensures !NoLeak(Apply(s, step))
  {
    var f, s' := s.threads[step.t].f, Apply(s, step);
    assert IsLive(s'.live, f) && !InTable(s', f);
    assert forall u :: u in s'.threads ==> !Holds(s'.threads[u], f);
  }

  /** Exactly one step leaks: the commit of an Ensure whose live control forward the
      winner does not cover and nobody else holds. */
  lemma NoLeakStepIff(s: State, step: Step)
    requires Filed(s) && NoLeak(s)
    ensures NoLeak(Apply(s, step)) <==> !Uncovered(s, step)
  {
    var s' := Apply(s, step);
    if Uncovered(s, step) {
      UncoveredLeaks(s, step);
    } else {
      forall f | IsLive(s'.live, f) ensures InTable(s', f) || HeldByThread(s', f) {
        if !IsLive(s.live, f) {
          assert Holds(s'.threads[step.t], f);
        } else {
          OwnerStays(s, step, f);
        }
      }
    }
  }

  ghost predicate NeverUncovered(steps: seq<Step>) {
    forall k :: 0 <= k < |steps| ==> !Uncovered(Exec(Init, steps[..k]), steps[k])
  }

  ghost predicate NeverLeaks(steps: seq<Step>) {
    forall k :: 0 <= k <= |steps| ==> NoLeak(Exec(Init, steps[..k]))
  }

  lemma {:induction false} AlwaysFiled(steps: seq<Step>)
    ensures Filed(Exec(Init, steps))
  {
    if steps != [] {
      AlwaysFiled(steps[..|steps| - 1]);
      FiledStep(Exec(Init, steps[..|steps| - 1]), steps[|steps| - 1]);
    }
  }

  lemma ExecPrefix(steps: seq<Step>, k: nat)
    requires k < |steps|
    ensures Exec(Init, steps[..k + 1]) == Apply(Exec(Init, steps[..k]), steps[k])
  {
    assert steps[..k + 1][..k] == steps[..k];
  }

  /** Over every schedule, whatever transports are in force: each live forward always has
      an owner that will keep or drop it, if and only if no such commit happens. */
  lemma NoForwardLeaksIff(steps: seq<Step>)
    ensures NeverLeaks(steps) <==> NeverUncovered(steps)
  {
    if NeverUncovered(steps) {
      forall k: nat | 0 <= k <= |steps| ensures NoLeak(Exec(Init, steps[..k])) {
        CoveredPrefix(steps, k);
      }
    } else {
      var k :| 0 <= k < |steps| && Uncovered(Exec(Init, steps[..k]), steps[k]);
      UncoveredLeaks(Exec(Init, steps[..k]), steps[k]);
      ExecPrefix(steps, k);
    }
  }

  lemma {:induction false} CoveredPrefix(steps: seq<Step>, k: nat)
    requires NeverUncovered(steps) && k <= |steps|
    ensures NoLeak(Exec(Init, steps[..k]))
  {
    if k > 0 {
      CoveredPrefix(steps, k - 1);
      AlwaysFiled(steps[..k - 1]);
      NoLeakStepIff(Exec(Init, steps[..k - 1]), steps[k - 1]);
      ExecPrefix(steps, k - 1);
    }
  }

  // ----- Stop

  // The k-th step is the first one of a call of Stop.
  predicate Stops(steps: seq<Step>, k: nat) {
    && k < |steps| && steps[k].Advance?
    && var s := Exec(Init, steps[..k]); steps[k].t in s.threads && s.threads[steps[k].t].StopStart?
  }

  lemma StaysStopped(s: State, step: Step)
    requires s.table == Table(map[], true)
    ensures Apply(s, step).table == Table(map[], true)
  {
  }

  /** From the first step of a Stop on, the manager is stopped and lists nothing. */
  lemma {:induction false} StopIsFinal(steps: seq<Step>, k: nat)
    requires Stops(steps, k)
    ensures Exec(Init, steps).table == Table(map[], true)
  {
    var n := |steps| - 1;
    if k == n {
      AlwaysFiled(steps[..n]);
    } else {
      assert steps[..n][..k] == steps[..k];
      StopIsFinal(steps[..n], k);
      StaysStopped(Exec(Init, steps[..n]), steps[n]);
    }
  }

  /** So an Ensure that begins afterwards fails and opens nothing, and one that opened its
      forward before is left to drop it. */
  lemma EnsureAfterStop(steps: seq<Step>, k: nat, t: ThreadId, env: Env)
    requires Stops(steps, k) && t in Exec(Init, steps).threads
    ensures var s := Exec(Init, steps); var s' := Exec(Init, steps + [Advance(t, env)]);
            && (s.threads[t].EnsureStart? ==> s'.threads[t] == Returned(None) && s'.live == s.live)
            && (s.threads[t].EnsureCommit? ==> s'.threads[t] == Dropping({s.threads[t].f}))
  {
    StopIsFinal(steps, k);
    assert (steps + [Advance(t, env)])[..|steps|] == steps;
  }

  /** Once a Stop has been called and every call has returned, no forward is live. */
  lemma StopLeavesNothing(steps: seq<Step>, k: nat)
    requires Stops(steps, k) && NeverUncovered(steps) && Quiescent(Exec(Init, steps))
    ensures Exec(Init, steps).live == map[]
  {
    var s := Exec(Init, steps);
    assert steps[..|steps|] == steps;
    StopIsFinal(steps, k);
    CoveredPrefix(steps, |steps|);
    forall at | at in s.live ensures false {
      assert IsLive(s.live, Forward(at.1, at.0, s.live[at]));
    }
  }

  // ----- calls that nothing interleaves with

  // A call, with nothing between its steps.
  function Alone(s: State, t: ThreadId, entry: Pc, env: Env, n: nat): State {
    if n == 0 then Apply(s, Call(t, entry)) else Apply(Alone(s, t, entry, env, n - 1), Advance(t, env))
  }

  lemma ThreeSteps(s: State, t: ThreadId, entry: Pc, env: Env)
    ensures Alone(s, t, entry, env, 3)
         == Apply(Apply(Apply(Apply(s, Call(t, entry)), Advance(t, env)), Advance(t, env)), Advance(t, env))
  {
    assert Alone(s, t, entry, env, 1) == Apply(Alone(s, t, entry, env, 0), Advance(t, env));
    assert Alone(s, t, entry, env, 2) == Apply(Alone(s, t, entry, env, 1), Advance(t, env));
  }

  predicate Openable(s: State, port: Port, listenIP: string, env: Env) {
    && !s.table.stopped && port !in s.table.byRemote && (listenIP, port) !in s.live && listenIP != ""
    && env.ok && env.transport.sshPath != ""
  }

  lemma EnsureStarts(s: State, t: ThreadId, port: Port, listenIP: string, host: string, env: Env)
    requires Openable(s, port, listenIP, env) && t !in s.threads
    ensures Apply(Apply(s, Call(t, EnsureStart(port, listenIP, host))), Advance(t, env))
         == Goto(s, t, EnsureOpen(port, listenIP, NormalizeRemoteHost(host)))
  {
    var s1 := Apply(s, Call(t, EnsureStart(port, listenIP, host)));
    assert s1.threads[t := EnsureOpen(port, listenIP, NormalizeRemoteHost(host))]
        == s.threads[t := EnsureOpen(port, listenIP, NormalizeRemoteHost(host))];
  }

  lemma OpenMakes(s: State, t: ThreadId, port: Port, listenIP: string, host: string, env: Env, f: Forward)
    requires Openable(s, port, listenIP, env) && f.port == port && f.listenIP == listenIP
    requires f.resource == if env.transport.controlPath != "" then ControlForward(env.transport.controlPath, host) else Listener(s.nextHandle)
    ensures var s' := Apply(Goto(s, t, EnsureOpen(port, listenIP, host)), Advance(t, env));
            && s'.threads == s.threads[t := EnsureCommit(f)] && s'.table == s.table
            && s'.live == s.live[(listenIP, port) := f.resource] && s'.cancels == s.cancels
  {
    var s1 := Goto(s, t, EnsureOpen(port, listenIP, host));
    assert s1.threads[t := EnsureCommit(f)] == s.threads[t := EnsureCommit(f)];
  }

  /** An Ensure for a free port and address makes one forward to the host asked for, live
      and listed, and returns it. */
  lemma EnsureForwards(s: State, t: ThreadId, port: Port, listenIP: string, host: string, env: Env)
    requires Openable(s, port, listenIP, env) && t !in s.threads
    ensures var s' := Alone(s, t, EnsureStart(port, listenIP, host), env, 3);
            var path := env.transport.controlPath;
            var f := Forward(port, listenIP, if path != "" then ControlForward(path, NormalizeRemoteHost(host)) else Listener(s.nextHandle));
            && s'.threads == s.threads[t := Returned(Some(f))]
            && s'.table == Table(s.table.byRemote[port := f], false)
            && s'.live == s.live[(listenIP, port) := f.resource] && s'.cancels == s.cancels
  {
    var entry, path, h := EnsureStart(port, listenIP, host), env.transport.controlPath, NormalizeRemoteHost(host);
    var f := Forward(port, listenIP, if path != "" then ControlForward(path, h) else Listener(s.nextHandle));
    var s2 := Apply(Apply(Apply(s, Call(t, entry)), Advance(t, env)), Advance(t, env));
    ThreeSteps(s, t, entry, env);
    EnsureStarts(s, t, port, listenIP, host, env);
    OpenMakes(s, t, port, listenIP, h, env, f);
    EnsureCommits(s2, t, f, env);
    assert s2.threads[t := Returned(Some(f))] == s.threads[t := Returned(Some(f))];
  }

  lemma EnsureCommits(s: State, t: ThreadId, f: Forward, env: Env)
    requires t in s.threads && s.threads[t] == EnsureCommit(f) && !s.table.stopped && f.port !in s.table.byRemote
    ensures Apply(s, Advance(t, env)) == Goto(s.(table := Table(s.table.byRemote[f.port := f], false)), t, Returned(Some(f)))
  {
  }

  /** An Ensure whose control operation fails, as it does when another call has the address,
      returns the forward listed by then, if any. */
  lemma FailedEnsureReturnsListed(s: State, t: ThreadId, port: Port, listenIP: string, host: string, env: Env)
    requires t in s.threads && s.threads[t] == EnsureOpen(port, listenIP, host)
    requires env.transport.controlPath != "" && env.transport.sshPath != "" && !env.ok
    ensures Apply(Apply(s, Advance(t, env)), Advance(t, env)) ==
            Goto(s, t, Returned(if port in s.table.byRemote then Some(s.table.byRemote[port]) else None))
  {
    var s1 := Apply(s, Advance(t, env));
    assert s1 == Goto(s, t, EnsureFailed(port));
    var r := Returned(if port in s.table.byRemote then Some(s.table.byRemote[port]) else None);
    assert s1.threads[t := r] == s.threads[t := r];
  }

  /** An Ensure that lost the race to its own forward's winner returns the winner; one that
      holds a listener closes it. */
  lemma LoserGivesWay(s: State, t: ThreadId, f: Forward, env: Env)
    requires t in s.threads && s.threads[t] == EnsureCommit(f) && !s.table.stopped && f.port in s.table.byRemote && IsLive(s.live, f)
    ensures f.resource.ControlForward? ==> Apply(s, Advance(t, env)) == Goto(s, t, Returned(Some(s.table.byRemote[f.port])))
    ensures f.resource.Listener? ==> Apply(Apply(s, Advance(t, env)), Advance(t, env)).live == s.live - {(f.listenIP, f.port)}
  {
  }

  /** An Ensure for a listed port returns its forward and makes none. */
  lemma EnsureReturnsListed(s: State, t: ThreadId, port: Port, listenIP: string, host: string, env: Env)
    requires t !in s.threads && !s.table.stopped && port in s.table.byRemote
    ensures Alone(s, t, EnsureStart(port, listenIP, host), env, 1) == Goto(s, t, Returned(Some(s.table.byRemote[port])))
  {
    var f, entry := s.table.byRemote[port], EnsureStart(port, listenIP, host);
    assert Alone(s, t, entry, env, 1) == Apply(Alone(s, t, entry, env, 0), Advance(t, env));
    assert s.threads[t := entry][t := Returned(Some(f))] == s.threads[t := Returned(Some(f))];
  }

  /** A Remove of a listed and live forward takes it out of both, and cancels it in the
      control master if it is one. */
  lemma RemoveForwards(s: State, t: ThreadId, port: Port, env: Env)
    requires t !in s.threads && port in s.table.byRemote && env.pick == s.table.byRemote[port] && IsLive(s.live, env.pick)
    ensures var s' := Alone(s, t, RemoveStart(port), env, 3);
            && s'.threads == s.threads[t := Returned(None)]
            && s'.table == s.table.(byRemote := s.table.byRemote - {port})
            && s'.live == s.live - {(env.pick.listenIP, env.pick.port)}
            && s'.cancels == s.cancels + if env.pick.resource.ControlForward? then 1 else 0
  {
    var entry := RemoveStart(port);
    ThreeSteps(s, t, entry, env);
    var s1 := Apply(Apply(s, Call(t, entry)), Advance(t, env));
    var s2 := Apply(s1, Advance(t, env));
    var s3 := Apply(s2, Advance(t, env));
    assert s1.threads[t] == Dropping({env.pick}) && s1.live == s.live;
    assert {env.pick} - {env.pick} == {} && s2.threads[t] == Dropping({});
    assert s3.threads == s.threads[t := s3.threads[t]];
  }

  // ----- with one control path, and one spec for each port, that commit never happens

  // The endpoints of a port: where a forward of it listens and where it leads.
  type Ends = map<Port, (string, string)>

  predicate OfKind(f: Forward, path: string, ends: Ends) {
    if path == "" then f.resource.Listener?
    else f.port in ends && f.listenIP == ends[f.port].0 && f.resource == ControlForward(path, ends[f.port].1)
  }

  predicate HoldsOnly(pc: Pc, path: string, ends: Ends) {
    match pc
    case EnsureStart(port, listenIP, host) => path == "" || (port in ends && ends[port] == (listenIP, NormalizeRemoteHost(host)))
    case EnsureOpen(port, listenIP, host) => path == "" || (port in ends && ends[port] == (listenIP, host))
    case EnsureCommit(f) => OfKind(f, path, ends)
    case Abandoning(f) => OfKind(f, path, ends)
    case Dropping(fs) => forall f :: f in fs ==> OfKind(f, path, ends)
    case _ => true
  }

  ghost predicate Uniform(s: State, path: string, ends: Ends) {
    && Filed(s)
    && (forall p :: p in s.table.byRemote ==> OfKind(s.table.byRemote[p], path, ends))
    && (forall t :: t in s.threads ==> HoldsOnly(s.threads[t], path, ends))
  }

  predicate OneTransport(steps: seq<Step>, path: string) {
    forall i :: 0 <= i < |steps| && steps[i].Advance? ==> steps[i].env.transport.controlPath == path
  }

  // Every Ensure of a port asks for the same spec; without a control path any will do.
  predicate OneSpec(steps: seq<Step>, path: string, ends: Ends) {
    forall i :: 0 <= i < |steps| && steps[i].Call? && steps[i].entry.EnsureStart? ==> HoldsOnly(steps[i].entry, path, ends)
  }

  lemma UniformRun(s: State, t: ThreadId, env: Env, path: string, ends: Ends)
    requires Uniform(s, path, ends) && t in s.threads && env.transport.controlPath == path
    ensures var s' := Apply(s, Advance(t, env));
            && HoldsOnly(s'.threads[t], path, ends)
            && forall p :: p in s'.table.byRemote ==> OfKind(s'.table.byRemote[p], path, ends)
  {
    assert HoldsOnly(s.threads[t], path, ends);
  }

  lemma OtherThread(s: State, step: Step, u: ThreadId)
    requires u != step.t
    ensures var s' := Apply(s, step); (u in s'.threads <==> u in s.threads) && (u in s.threads ==> s'.threads[u] == s.threads[u])
  {
  }

  lemma UniformCall(s: State, t: ThreadId, entry: Pc, path: string, ends: Ends)
    requires Uniform(s, path, ends) && (entry.EnsureStart? ==> HoldsOnly(entry, path, ends))
    ensures Uniform(Apply(s, Call(t, entry)), path, ends)
  {
  }

  lemma UniformStep(s: State, step: Step, path: string, ends: Ends)
    requires Uniform(s, path, ends)
    requires step.Advance? ==> step.env.transport.controlPath == path
    requires step.Call? && step.entry.EnsureStart? ==> HoldsOnly(step.entry, path, ends)
    ensures Uniform(Apply(s, step), path, ends)
  {
    if step.Call? {
      UniformCall(s, step.t, step.entry, path, ends);
    } else if step.t in s.threads {
      var s' := Apply(s, step);
      FiledStep(s, step);
      UniformRun(s, step.t, step.env, path, ends);
      forall u | u in s'.threads ensures HoldsOnly(s'.threads[u], path, ends) {
        if u != step.t {
          OtherThread(s, step, u);
        }
      }
    }
  }

  lemma {:induction false} AlwaysUniform(steps: seq<Step>, path: string, ends: Ends)
    requires OneTransport(steps, path) && OneSpec(steps, path, ends)
    ensures Uniform(Exec(Init, steps), path, ends)
  {
    if steps != [] {
      var n := |steps| - 1;
      AlwaysUniform(steps[..n], path, ends);
      UniformStep(Exec(Init, steps[..n]), steps[n], path, ends);
    }
  }

  /** While every Ensure sees the same control path, and all those of a port ask for the
      same address and host, nothing leaks. */
  lemma NoForwardLeaks(steps: seq<Step>, path: string, ends: Ends)
    requires OneTransport(steps, path) && OneSpec(steps, path, ends)
    ensures NeverUncovered(steps) && NeverLeaks(steps)
  {
    forall k | 0 <= k < |steps| ensures !Uncovered(Exec(Init, steps[..k]), steps[k]) {
      var s := Exec(Init, steps[..k]);
      AlwaysUniform(steps[..k], path, ends);
      if steps[k].Advance? && steps[k].t in s.threads && s.threads[steps[k].t].EnsureCommit? {
        assert HoldsOnly(s.threads[steps[k].t], path, ends);
      }
    }
    NoForwardLeaksIff(steps);
  }

  // ----- runs with only concurrent Ensure calls

  predicate EnsureOnly(steps: seq<Step>) {
    forall i :: 0 <= i < |steps| && steps[i].Call? ==> steps[i].entry.EnsureStart?
  }

  ghost predicate RacingPc(s: State, pc: Pc) {
    match pc
    case EnsureStart(_, _, _) => true
    case EnsureOpen(_, _, _) => true
    case EnsureFailed(_) => true
    case EnsureCommit(f) => IsLive(s.live, f) && (f.resource.Listener? ==> !InTable(s, f))
    case Abandoning(f) => IsLive(s.live, f) && f.resource.Listener? && !InTable(s, f)
    case Returned(result) => result.Some? ==> InTable(s, result.value)
    case _ => false
  }

  predicate HoldsListener(pc: Pc) {
    (pc.EnsureCommit? || pc.Abandoning?) && pc.f.resource.Listener?
  }

  ghost predicate ListenersApart(s: State) {
    forall t, u ::
      (&& t in s.threads && HoldsListener(s.threads[t])
       && u in s.threads && HoldsListener(s.threads[u])
       && AddressOf(s.threads[t].f) == AddressOf(s.threads[u].f)) ==> t == u
  }

  ghost predicate ListedAreLive(s: State) {
    forall p :: p in s.table.byRemote ==> s.table.byRemote[p].port == p && IsLive(s.live, s.table.byRemote[p])
  }

  ghost predicate Racing(s: State) {
    && !s.table.stopped && s.cancels == 0
    && ListedAreLive(s)
    && ListenersApart(s)
    && (forall t :: t in s.threads ==> RacingPc(s, s.threads[t]))
  }

  lemma RacingStep(s: State, step: Step)
    requires Racing(s)
    requires step.Call? ==> step.entry.EnsureStart?
    ensures Racing(Apply(s, step))
  {
    var s' := Apply(s, step);
    RacingTable(s, step);
    RacingListeners(s, step);
    forall t | t in s'.threads
      ensures RacingPc(s', s'.threads[t])
    {
      if t != step.t {
        RacingOther(s, step, t);
      } else {
        RacingOwn(s, step);
      }
    }
  }

  lemma RacingTable(s: State, step: Step)
    requires Racing(s)
    requires step.Call? ==> step.entry.EnsureStart?
    ensures var s' := Apply(s, step); !s'.table.stopped && s'.cancels == 0 && ListedAreLive(s')
  {
    if step.t in s.threads {
      assert RacingPc(s, s.threads[step.t]);
    }
  }

  lemma RacingListeners(s: State, step: Step)
    requires Racing(s)
    requires step.Call? ==> step.entry.EnsureStart?
    ensures ListenersApart(Apply(s, step))
  {
    forall u | u in s.threads && HoldsListener(s.threads[u]) ensures IsLive(s.live, s.threads[u].f) {
      assert RacingPc(s, s.threads[u]);
    }
    if step.t in s.threads {
      assert RacingPc(s, s.threads[step.t]);
    }
  }

  lemma RacingOwn(s: State, step: Step)
    requires Racing(s)
    requires step.Call? ==> step.entry.EnsureStart?
    requires step.t in Apply(s, step).threads
    ensures var s' := Apply(s, step); RacingPc(s', s'.threads[step.t])
  {
    if step.t in s.threads {
      assert RacingPc(s, s.threads[step.t]);
    }
  }

  // What one thread does never invalidates what another holds or returned.
  lemma RacingOther(s: State, step: Step, t: ThreadId)
    requires Racing(s)
    requires t in s.threads && t != step.t
    ensures var s' := Apply(s, step); t in s'.threads && RacingPc(s', s'.threads[t])
  {
    assert RacingPc(s, s.threads[t]);
    if step.t in s.threads {
      assert RacingPc(s, s.threads[step.t]);
    }
  }

  /** However many Ensure calls race, and whatever transports they see, no forward
      is cancelled, every listed forward is live, and every call that succeeded
      returned the forward that is listed. */
  lemma {:induction false} RacingEnsuresCancelNothing(steps: seq<Step>)
    requires EnsureOnly(steps)
    ensures Racing(Exec(Init, steps))
  {
    if steps != [] {
      var n := |steps| - 1;
      RacingEnsuresCancelNothing(steps[..n]);
      RacingStep(Exec(Init, steps[..n]), steps[n]);
    }
  }

  // ----- with two control paths, or two specs, a forward can leak

  predicate Through(steps: seq<Step>, paths: set<string>) {
    forall i :: 0 <= i < |steps| && steps[i].Advance? ==> steps[i].env.transport.controlPath in paths
  }

  // One more step of a schedule from Init.
  lemma Then(steps: seq<Step>, s: State, step: Step, paths: set<string>) returns (steps': seq<Step>, s': State)
    requires s == Exec(Init, steps) && Through(steps, paths)
    requires step.Advance? ==> step.env.transport.controlPath in paths
    ensures s' == Apply(s, step) && s' == Exec(Init, steps') && Through(steps', paths)
  {
    steps', s' := steps + [step], Apply(s, step);
    assert steps'[..|steps|] == steps;
  }

  predicate Controlled(f: Forward, path: string, remoteHost: string) {
    f.listenIP != "" && path != "" && f.resource == ControlForward(path, NormalizeRemoteHost(remoteHost))
  }

  function Via(path: string, f: Forward): Env { Env(Transport("ssh", path), true, f) }

  // Two Ensures are both about to open.
  lemma TwoOpening(a: Forward, path: string, host: string, paths: set<string>) returns (steps: seq<Step>, s: State)
    requires Controlled(a, path, host) && path in paths
    ensures s == Exec(Init, steps) && Through(steps, paths)
    ensures var open := EnsureOpen(a.port, a.listenIP, a.resource.host);
            s == State(Table(map[], false), map[], 0, map[0 := open, 1 := open], 0)
  {
    var entry := EnsureStart(a.port, a.listenIP, host);
    s, steps := Init, [];
    steps, s := Then(steps, s, Call(0, entry), paths);
    steps, s := Then(steps, s, Call(1, entry), paths);
    assert s.threads == map[0 := entry, 1 := entry];
    steps, s := Then(steps, s, Advance(0, Via(path, a)), paths);
    steps, s := Then(steps, s, Advance(1, Via(path, a)), paths);
  }

  // Ensure 0 registers its forward while Ensure 1 still holds an uncommitted one.
  lemma OneOfTwoRegistered(a: Forward, path: string, host: string, paths: set<string>) returns (steps: seq<Step>, s: State)
    requires Controlled(a, path, host) && path in paths
    ensures s == Exec(Init, steps) && Through(steps, paths)
    ensures s == State(Table(map[a.port := a], false), map[AddressOf(a) := a.resource], 0,
                       map[0 := Returned(Some(a)), 1 := EnsureCommit(a)], 0)
  {
    steps, s := TwoOpening(a, path, host, paths);
    steps, s := Then(steps, s, Advance(0, Via(path, a)), paths);
    steps, s := Then(steps, s, Advance(1, Via(path, a)), paths);
    assert s.threads == map[0 := EnsureCommit(a), 1 := EnsureCommit(a)];
    steps, s := Then(steps, s, Advance(0, Via(path, a)), paths);
  }

  // Remove then cancels the registered forward.
  lemma RegisteredRemoved(a: Forward, path: string, host: string, paths: set<string>) returns (steps: seq<Step>, s: State)
    requires Controlled(a, path, host) && path in paths
    ensures s == Exec(Init, steps) && Through(steps, paths)
    ensures s == State(Table(map[], false), map[], 0,
                       map[0 := Returned(Some(a)), 1 := EnsureCommit(a), 2 := Returned(None)], 1)
  {
    steps, s := OneOfTwoRegistered(a, path, host, paths);
    steps, s := Then(steps, s, Call(2, RemoveStart(a.port)), paths);
    steps, s := Then(steps, s, Advance(2, Via(path, a)), paths);
    assert s.threads[2] == Dropping({a}) && s.table.byRemote == map[];
    steps, s := Then(steps, s, Advance(2, Via(path, a)), paths);
    assert s.threads[2] == Dropping({}) && s.live == map[];
    steps, s := Then(steps, s, Advance(2, Via(path, a)), paths);
  }

  /** For any two different control forwards of one port, in the control path or in the
      spec, there is a run in which the loser that abandons the second is not covered by
      the winner, which holds the first, already cancelled: every call returns and a live
      forward stays that nobody will drop. */
  lemma TwoForwardsLeak(a: Forward, pathA: string, hostA: string, b: Forward, pathB: string, hostB: string) returns (steps: seq<Step>)
    requires Controlled(a, pathA, hostA) && Controlled(b, pathB, hostB) && a.port == b.port && a != b
    ensures Quiescent(Exec(Init, steps)) && !NoLeak(Exec(Init, steps)) && Through(steps, {pathA, pathB})
  {
    var s;
    var paths := {pathA, pathB};
    steps, s := RegisteredRemoved(a, pathA, hostA, paths);
    steps, s := Then(steps, s, Call(3, EnsureStart(b.port, b.listenIP, hostB)), paths);
    steps, s := Then(steps, s, Advance(3, Via(pathB, b)), paths);
    assert s.threads[3] == EnsureOpen(b.port, b.listenIP, b.resource.host);
    steps, s := Then(steps, s, Advance(3, Via(pathB, b)), paths);
    assert s.threads[3] == EnsureCommit(b) && s.live == map[AddressOf(b) := b.resource];
    steps, s := Then(steps, s, Advance(1, Via(pathA, a)), paths);
    assert s.table.byRemote == map[a.port := a] && s.threads[1] == Returned(Some(a));
    steps, s := Then(steps, s, Advance(3, Via(pathB, b)), paths);
    assert s.threads.Keys == {0, 1, 2, 3};
    assert IsLive(s.live, b) && !InTable(s, b);
  }

  /** The transport is read anew by every Ensure, so it may move between two of them. */
  lemma TransportChangeLeaks(port: Port, listenIP: string, host: string, pathA: string, pathB: string) returns (steps: seq<Step>)
    requires listenIP != "" && pathA != "" && pathB != "" && pathA != pathB
    ensures Quiescent(Exec(Init, steps)) && !NoLeak(Exec(Init, steps))
  {
    var h := NormalizeRemoteHost(host);
    var a, b := Forward(port, listenIP, ControlForward(pathA, h)), Forward(port, listenIP, ControlForward(pathB, h));
    steps := TwoForwardsLeak(a, pathA, host, b, pathB, host);
  }

  /** With one control path a forward leaks as well, when a port is seen on one host and
      then on another, or is to be reached at another address. */
  lemma SpecChangeLeaks(port: Port, path: string, ipA: string, hostA: string, ipB: string, hostB: string) returns (steps: seq<Step>)
    requires path != "" && ipA != "" && ipB != ""
    requires ipA != ipB || NormalizeRemoteHost(hostA) != NormalizeRemoteHost(hostB)
    ensures OneTransport(steps, path) && Quiescent(Exec(Init, steps)) && !NoLeak(Exec(Init, steps))
  {
    var a := Forward(port, ipA, ControlForward(path, NormalizeRemoteHost(hostA)));
    var b := Forward(port, ipB, ControlForward(path, NormalizeRemoteHost(hostB)));
    steps := TwoForwardsLeak(a, path, hostA, b, path, hostB);
  }
}
