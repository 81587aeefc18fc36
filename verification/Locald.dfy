/**
 internal/locald: the local daemon's leases, targets and names.

 A lease counts on a target record; a target owns one loopback address and one
 DNS name.  Opening a lease looks up or creates the target and commits the lease
 in separate critical sections of s.mu; a released lease leaves the target to a
 grace timer, and a removed target's name is unregistered after the lock is
 dropped.  Each critical section is one atomic step here.
 */
module Locald {
  import opened Wrappers
  import opened Sets
  import Text
  import Domain
  import Loopback

  type Key = string
  type LeaseId = string
  type RecId = nat                     // identity of a targetRecord
  type ThreadId = nat
  type DomainKey = (string, string)    // suffix and DNS address

  datatype Request = Request(
    leaseId: string, sessionId: string,
    targetId: string, sshPath: string, sshArgs: seq<string>, target: string,
    domainSuffix: string, dnsAddr: string)

  function Lease(req: Request): LeaseId { if req.leaseId != "" then req.leaseId else req.sessionId }

  function SSHArgs(req: Request): seq<string> { if |req.sshArgs| > 0 then req.sshArgs else [req.target] }

  function JoinNul(parts: seq<string>): string {
    if parts == [] then "" else if |parts| == 1 then parts[0] else parts[0] + ['\0'] + JoinNul(parts[1..])
  }

  function KeyOf(req: Request): Key {
    if req.targetId != "" then req.targetId else req.sshPath + ['\0'] + JoinNul(SSHArgs(req))
  }

  predicate Complete(req: Request) {
    req.target != "" && req.sshPath != "" && req.domainSuffix != "" && req.dnsAddr != ""
  }

  datatype Target = Target(slot: nat, domain: string, manager: DomainKey, sessions: nat)

  function ListenIP(t: Target): string { Loopback.Address(t.slot) }

  // net.ParseIP of a pool address.
  function Octets(slot: nat): Domain.IPv4
    requires slot < Loopback.Size
  {
    [127, 64, 0, (slot + 1) as Domain.byte]
  }

  datatype DomainManager = DomainManager(suffix: string, records: Domain.Records)

  // ----- the fields behind s.mu

  datatype Server = Server(
    targets: map<Key, RecId>,
    recs: map<RecId, Target>,
    next: RecId,
    sessions: map<LeaseId, Key>,
    domains: map<DomainKey, DomainManager>,
    draining: bool)

  const Empty := Server(map[], map[], 0, map[], map[], false)

  function Used(s: Server): set<nat> {
    set k | k in s.targets && s.targets[k] in s.recs :: s.recs[s.targets[k]].slot
  }

  function FreeSlot(used: set<nat>, i: nat): (slot: Option<nat>)
    ensures slot.Some? ==> i <= slot.value < Loopback.Size && slot.value !in used
    ensures slot.None? ==> forall j: nat :: i <= j < Loopback.Size ==> j in used
    decreases Loopback.Size - i
  {
    if i >= Loopback.Size then None else if i !in used then Some(i) else FreeSlot(used, i + 1)
  }

  // The first critical section of ensureTarget.
  function LookRegion(s: Server, req: Request): Option<RecId> {
    if KeyOf(req) in s.targets then Some(s.targets[KeyOf(req)]) else None
  }

  function DomainKeyOf(req: Request): DomainKey { (req.domainSuffix, req.dnsAddr) }

  // s.domain: starting a manager fails without a suffix, or when the address
  // cannot be bound.
  function DomainRegion(s: Server, req: Request, bound: bool): (Server, bool) {
    if DomainKeyOf(req) in s.domains then (s, true)
    else if Domain.Normalize(req.domainSuffix) == "" || !bound then (s, false)
    else (s.(domains := s.domains[DomainKeyOf(req) := DomainManager(Domain.Normalize(req.domainSuffix), map[])]), true)
  }

  // The second critical section of ensureTarget.
  function CreateRegion(s: Server, req: Request): (Server, Option<RecId>) {
    if KeyOf(req) in s.targets then (s, Some(s.targets[KeyOf(req)]))
    else if DomainKeyOf(req) !in s.domains then (s, None)
    else
      var slot := FreeSlot(Used(s), 0);
      if slot.None? then (s, None) else
      var d := s.domains[DomainKeyOf(req)];
      var (name, records) := Domain.Assign(d.records, req.target, d.suffix, Octets(slot.value));
      (s.(targets := s.targets[KeyOf(req) := s.next],
          recs := s.recs[s.next := Target(slot.value, name, DomainKeyOf(req), 0)],
          next := s.next + 1,
          domains := s.domains[DomainKeyOf(req) := d.(records := records)]),
       Some(s.next))
  }

  function AddSessions(s: Server, rec: RecId, delta: int): map<RecId, Target> {
    if rec in s.recs && s.recs[rec].sessions + delta >= 0
    then s.recs[rec := s.recs[rec].(sessions := s.recs[rec].sessions + delta)] else s.recs
  }

  // openSession, after ensureTarget: the record it got may be stale by now.
  function CommitRegion(s: Server, lease: LeaseId, key: Key, rec: RecId): (Server, bool) {
    if s.draining || lease in s.sessions then (s, false)
    else (s.(sessions := s.sessions[lease := key], recs := AddSessions(s, rec, 1)), true)
  }

  // releaseSessionWithGrace: the key whose timer is started.
  function ReleaseRegion(s: Server, lease: LeaseId): (Server, Option<Key>) {
    if lease !in s.sessions then (s, None) else
    var key := s.sessions[lease];
    (s.(sessions := s.sessions - {lease},
        recs := if key in s.targets then AddSessions(s, s.targets[key], -1) else s.recs),
     Some(key))
  }

  // The part shared by cleanupIdleTarget and releaseSessionNow: an idle target
  // leaves the table, and its name is owed an Unregister.
  function DropIdle(s: Server, key: Key): (Server, Option<(DomainKey, string)>) {
    if key in s.targets && s.targets[key] in s.recs && s.recs[s.targets[key]].sessions == 0 then
      var t := s.recs[s.targets[key]];
      (s.(targets := s.targets - {key}), Some((t.manager, t.domain)))
    else (s, None)
  }

  // The grace timer of a key.
  function CleanupRegion(s: Server, key: Key): (Server, Option<(DomainKey, string)>) {
    var (s', owed) := DropIdle(s, key);
    (s'.(draining := s'.draining || (s'.sessions == map[] && s'.targets == map[])), owed)
  }

  // Release without grace: the target goes with its last lease.
  function ReleaseNowRegion(s: Server, lease: LeaseId): (Server, Option<(DomainKey, string)>) {
    var (s1, key) := ReleaseRegion(s, lease);
    var (s2, owed) := if key.Some? then DropIdle(s1, key.value) else (s1, None);
    (s2.(draining := s2.draining || s2.sessions == map[]), owed)
  }

  // The startup timer: drains a daemon that nobody used.
  function StartupRegion(s: Server): Server {
    if s.sessions == map[] then s.(draining := true) else s
  }

  // Unregister of a removed target, outside the lock and possibly late.
  function UnregisterRegion(s: Server, manager: DomainKey, name: string): Server {
    if manager !in s.domains then s else
    var d := s.domains[manager];
    s.(domains := s.domains[manager := d.(records := Domain.Forget(d.records, name))])
  }

  class LocalServer {
    var targets: map<Key, RecId>
    var recs: map<RecId, Target>
    var next: RecId
    var sessions: map<LeaseId, Key>
    var domains: map<DomainKey, DomainManager>
    var draining: bool

    function View(): Server reads this { Server(targets, recs, next, sessions, domains, draining) }

    constructor ()
      ensures View() == Empty
    {
      targets, recs, next, sessions, domains, draining := map[], map[], 0, map[], map[], false;
    }

    // allocateLoopbackIPLocked: the first pool address no target listens on.
    method AllocateLoopbackIP() returns (slot: Option<nat>)
      requires forall k :: k in targets ==> targets[k] in recs && recs[targets[k]].slot < Loopback.Size
      ensures slot == FreeSlot(Used(View()), 0)
      ensures slot.Some? ==> forall k :: k in targets ==> ListenIP(recs[targets[k]]) != Loopback.Address(slot.value)
    {
      var used := set k | k in targets :: ListenIP(recs[targets[k]]);
      for i := 0 to Loopback.Size
        invariant FreeSlot(Used(View()), 0) == FreeSlot(Used(View()), i)
      {
        forall k | k in targets && ListenIP(recs[targets[k]]) == Loopback.Address(i) ensures recs[targets[k]].slot == i {
          Loopback.AddressInjective(recs[targets[k]].slot, i);
        }
        if Loopback.Address(i) !in used {
          assert forall k :: k in targets ==> ListenIP(recs[targets[k]]) in used;
          return Some(i);
        }
      }
      return None;
    }

    method CreateTarget(req: Request) returns (rec: Option<RecId>)
      requires forall k :: k in targets ==> targets[k] in recs && recs[targets[k]].slot < Loopback.Size
      modifies this
      ensures (View(), rec) == CreateRegion(old(View()), req)
      ensures rec.Some? ==> KeyOf(req) in targets && targets[KeyOf(req)] == rec.value
      ensures KeyOf(req) !in old(targets) && rec.Some? ==>
                && DomainKeyOf(req) in old(domains) && rec.value in recs && FreeSlot(Used(old(View())), 0) == Some(recs[rec.value].slot)
                && var d := old(domains)[DomainKeyOf(req)];
                   recs[rec.value].domain == Domain.Name(Domain.Prefix(req.target), Domain.Free(d.records, req.target, d.suffix), d.suffix)
      ensures rec.None? ==> KeyOf(req) !in old(targets) && (DomainKeyOf(req) !in domains || FreeSlot(Used(old(View())), 0).None?)
    {
      var key := KeyOf(req);
      if key in targets {
        return Some(targets[key]);
      }
      if DomainKeyOf(req) !in domains {
        return None;
      }
      var slot := AllocateLoopbackIP();
      if slot.None? {
        return None;
      }
      var d := domains[DomainKeyOf(req)];
      var (name, records) := Domain.Assign(d.records, req.target, d.suffix, Octets(slot.value));
      domains := domains[DomainKeyOf(req) := d.(records := records)];
      recs := recs[next := Target(slot.value, name, DomainKeyOf(req), 0)];
      targets := targets[key := next];
      rec := Some(next);
      next := next + 1;
    }

    method CommitSession(lease: LeaseId, key: Key, rec: RecId) returns (ok: bool)
      requires rec in recs
      modifies this
      ensures (View(), ok) == CommitRegion(old(View()), lease, key, rec)
      ensures ok <==> !draining && lease !in old(sessions)
      ensures ok ==> lease in sessions && sessions[lease] == key && recs[rec].sessions == old(recs)[rec].sessions + 1
    {
      if draining || lease in sessions {
        return false;
      }
      sessions := sessions[lease := key];
      recs := recs[rec := recs[rec].(sessions := recs[rec].sessions + 1)];
      return true;
    }

    method ReleaseSession(lease: LeaseId) returns (key: Option<Key>)
      modifies this
      ensures (View(), key) == ReleaseRegion(old(View()), lease)
      ensures lease !in sessions && (key.Some? <==> lease in old(sessions))
      ensures key.Some? ==> key.value == old(sessions)[lease]
    {
      if lease !in sessions {
        return None;
      }
      key := Some(sessions[lease]);
      sessions := sessions - {lease};
      if key.value in targets {
        var rec := targets[key.value];
        if rec in recs && recs[rec].sessions > 0 {
          recs := recs[rec := recs[rec].(sessions := recs[rec].sessions - 1)];
        }
      }
    }

    method CleanupIdleTarget(key: Key) returns (owed: Option<(DomainKey, string)>)
      modifies this
      ensures (View(), owed) == CleanupRegion(old(View()), key)
      ensures owed.Some? <==> key in old(targets) && old(targets)[key] in recs && recs[old(targets)[key]].sessions == 0
      ensures owed.Some? ==> key !in targets && owed.value.1 == recs[old(targets)[key]].domain
      ensures draining <==> old(draining) || (sessions == map[] && targets == map[])
    {
      owed := None;
      if key in targets && targets[key] in recs && recs[targets[key]].sessions == 0 {
        owed := Some((recs[targets[key]].manager, recs[targets[key]].domain));
        targets := targets - {key};
      }
      if sessions == map[] && targets == map[] {
        draining := true;
      }
    }

    method ReleaseSessionNow(lease: LeaseId) returns (owed: Option<(DomainKey, string)>)
      modifies this
      ensures (View(), owed) == ReleaseNowRegion(old(View()), lease)
      ensures lease !in sessions && (draining <==> old(draining) || sessions == map[])
    {
      owed := None;
      var key := ReleaseSession(lease);
      if key.Some? && key.value in targets && targets[key.value] in recs && recs[targets[key.value]].sessions == 0 {
        owed := Some((recs[targets[key.value]].manager, recs[targets[key.value]].domain));
        targets := targets - {key.value};
      }
      if sessions == map[] {
        draining := true;
      }
    }

    // s.domain: `bound` says whether the DNS address can be bound.
    method EnsureDomain(req: Request, bound: bool) returns (ok: bool)
      modifies this
      ensures (View(), ok) == DomainRegion(old(View()), req, bound)
      ensures ok <==> DomainKeyOf(req) in domains
      ensures ok <==> DomainKeyOf(req) in old(domains) || (bound && Domain.Normalize(req.domainSuffix) != "")
    {
      if DomainKeyOf(req) in domains {
        return true;
      }
      if Domain.Normalize(req.domainSuffix) == "" || !bound {
        return false;
      }
      domains := domains[DomainKeyOf(req) := DomainManager(Domain.Normalize(req.domainSuffix), map[])];
      return true;
    }
  }

  // ----- threads

  datatype Pc =
    | OpenStart(req: Request)
    | Look(req: Request, open: bool)              // ensureTarget, first look
    | StartDomain(req: Request, open: bool)
    | Create(req: Request, open: bool)
    | Commit(req: Request, rec: RecId)
    | Leased(lease: LeaseId, rec: RecId)          // the lease is live
    | Timer(key: Key)                             // grace timer running
    | Owing(manager: DomainKey, name: string)     // about to Unregister
    | Returned

  datatype State = State(server: Server, grace: bool, threads: map<ThreadId, Pc>)

  datatype Step =
    | Call(t: ThreadId, entry: Pc)
    | Advance(t: ThreadId, ok: bool)              // ok: an address can be bound
    | OpenWhole(t: ThreadId, req: Request, ok: bool)   // an open that nothing interleaves with
    | StartupTimer
    | Shutdown                                    // an explicit shutdown request

  function Init(grace: bool): State { State(Empty, grace, map[]) }

  predicate IsEntry(pc: Pc) { pc.OpenStart? || (pc.Look? && !pc.open) }

  function Goto(s: State, server: Server, t: ThreadId, pc: Pc): State {
    s.(server := server, threads := s.threads[t := pc])
  }

  function Found(req: Request, open: bool, rec: Option<RecId>): Pc {
    if rec.Some? && open then Commit(req, rec.value) else Returned
  }

  function Owe(owed: Option<(DomainKey, string)>): Pc {
    if owed.Some? then Owing(owed.value.0, owed.value.1) else Returned
  }

  function Ensure(s: Server, req: Request, ok: bool): (Server, Option<RecId>) {
    if !Complete(req) then (s, None)
    else if LookRegion(s, req).Some? then (s, LookRegion(s, req))
    else
      var (s1, started) := DomainRegion(s, req, ok);
      if started then CreateRegion(s1, req) else (s1, None)
  }

  function Open(s: State, t: ThreadId, req: Request, ok: bool): State {
    if t in s.threads || Lease(req) == "" || s.server.draining then s else
    var (server, rec) := Ensure(s.server, req, ok);
    if rec.None? then Goto(s, server, t, Returned) else
    var (server', done) := CommitRegion(server, Lease(req), KeyOf(req), rec.value);
    Goto(s, server', t, if done then Leased(Lease(req), rec.value) else Returned)
  }

  function Run(s: State, t: ThreadId, ok: bool): State {
    if t !in s.threads then s else
    match s.threads[t]
    case OpenStart(req) =>
      Goto(s, s.server, t, if Lease(req) == "" || s.server.draining then Returned else Look(req, true))
    case Look(req, open) =>
      if !Complete(req) then Goto(s, s.server, t, Returned)
      else if LookRegion(s.server, req).Some? then Goto(s, s.server, t, Found(req, open, LookRegion(s.server, req)))
      else Goto(s, s.server, t, StartDomain(req, open))
    case StartDomain(req, open) =>
      var (server, started) := DomainRegion(s.server, req, ok);
      Goto(s, server, t, if started then Create(req, open) else Returned)
    case Create(req, open) =>
      var (server, rec) := CreateRegion(s.server, req);
      Goto(s, server, t, Found(req, open, rec))
    case Commit(req, rec) =>
      var (server, done) := CommitRegion(s.server, Lease(req), KeyOf(req), rec);
      Goto(s, server, t, if done then Leased(Lease(req), rec) else Returned)
    case Leased(lease, _) =>
      if s.grace then
        var (server, key) := ReleaseRegion(s.server, lease);
        Goto(s, server, t, if key.Some? then Timer(key.value) else Returned)
      else
        var (server, owed) := ReleaseNowRegion(s.server, lease);
        Goto(s, server, t, Owe(owed))
    case Timer(key) =>
      var (server, owed) := CleanupRegion(s.server, key);
      Goto(s, server, t, Owe(owed))
    case Owing(manager, name) => Goto(s, UnregisterRegion(s.server, manager, name), t, Returned)
    case Returned => s
  }

  function Apply(s: State, step: Step): State {
    match step
    case Call(t, entry) => if t !in s.threads && IsEntry(entry) then Goto(s, s.server, t, entry) else s
    case Advance(t, ok) => Run(s, t, ok)
    case OpenWhole(t, req, ok) => Open(s, t, req, ok)
    case StartupTimer => s.(server := StartupRegion(s.server))
    case Shutdown => s.(server := s.server.(draining := true))
  }

  function Exec(s: State, steps: seq<Step>): State {
    if steps == [] then s else Apply(Exec(s, steps[..|steps| - 1]), steps[|steps| - 1])
  }

  // ----- addresses and names

  ghost predicate OwnsName(s: Server, k: Key, manager: DomainKey, key: string) {
    && k in s.targets && s.targets[k] in s.recs
    && s.recs[s.targets[k]].manager == manager && Domain.Normalize(s.recs[s.targets[k]].domain) == key
  }

  ghost predicate OwesName(s: State, t: ThreadId, manager: DomainKey, key: string) {
    && t in s.threads && s.threads[t].Owing?
    && s.threads[t].manager == manager && Domain.Normalize(s.threads[t].name) == key
  }

  predicate HasRecord(s: Server, manager: DomainKey, key: string) {
    manager in s.domains && key in s.domains[manager].records
  }

  ghost predicate TargetsSound(s: Server) {
    && (forall r: RecId :: r in s.recs ==> r < s.next)
    && (forall k :: k in s.targets ==> s.targets[k] in s.recs)
    && (forall k, l :: k in s.targets && l in s.targets && s.targets[k] == s.targets[l] ==> k == l)
  }

  // Distinct targets listen on distinct addresses of the pool.
  ghost predicate AddressesDistinct(s: Server) {
    && (forall k :: k in s.targets ==> s.targets[k] in s.recs && s.recs[s.targets[k]].slot < Loopback.Size)
    && (forall k, l :: k in s.targets && l in s.targets && k != l ==>
          s.targets[k] in s.recs && s.targets[l] in s.recs && s.recs[s.targets[k]].slot != s.recs[s.targets[l]].slot)
  }

  // Each target's name resolves to its own address.
  ghost predicate NamesResolve(s: Server) {
    forall k :: k in s.targets && s.targets[k] in s.recs ==>
      var t := s.recs[s.targets[k]];
      && t.slot < Loopback.Size
      && HasRecord(s, t.manager, Domain.Normalize(t.domain))
      && s.domains[t.manager].records[Domain.Normalize(t.domain)] == Octets(t.slot)
  }

  // No name has two owners among the live targets and the Unregisters owed.
  ghost predicate NamesOwnedOnce(s: State) {
    && (forall k, l, m, n :: OwnsName(s.server, k, m, n) && OwnsName(s.server, l, m, n) ==> k == l)
    && (forall k, t: ThreadId, m, n :: OwnsName(s.server, k, m, n) ==> !OwesName(s, t, m, n))
    && (forall t: ThreadId, u: ThreadId, m, n ::
          OwesName(s, t, m, n) && OwesName(s, u, m, n) ==> t == u)
    && (forall t: ThreadId, m, n :: OwesName(s, t, m, n) ==> HasRecord(s.server, m, n))
  }

  ghost predicate Sound(s: State) {
    TargetsSound(s.server) && AddressesDistinct(s.server) && NamesResolve(s.server) && NamesOwnedOnce(s)
  }

  // Nothing about addresses or names changes but new, empty DNS managers.
  ghost predicate Keeps(s: Server, s': Server) {
    && s'.targets == s.targets && s'.next == s.next && s'.recs.Keys == s.recs.Keys
    && (forall r: RecId :: r in s.recs ==>
          s'.recs[r].slot == s.recs[r].slot && s'.recs[r].domain == s.recs[r].domain && s'.recs[r].manager == s.recs[r].manager)
    && (forall m :: m in s.domains ==> m in s'.domains && s'.domains[m] == s.domains[m])
  }

  predicate NotOwing(s: State, t: ThreadId) { t in s.threads ==> !s.threads[t].Owing? }

  lemma SoundQuiet(s: State, s': State)
    requires Sound(s) && Keeps(s.server, s'.server)
    requires forall u: ThreadId, m, n :: OwesName(s', u, m, n) <==> OwesName(s, u, m, n)
    ensures Sound(s')
  {
    assert forall k, m, n :: OwnsName(s'.server, k, m, n) <==> OwnsName(s.server, k, m, n);
    assert forall m, n :: HasRecord(s.server, m, n) ==> HasRecord(s'.server, m, n);
  }

  // What creating a target adds, names apart.
  ghost predicate Created(s: Server, s': Server, rec: Option<RecId>, req: Request) {
    var k := KeyOf(req);
    && s'.sessions == s.sessions && s'.draining == s.draining
    && (if s' == s then rec == (if k in s.targets then Some(s.targets[k]) else None)
        else
          && k !in s.targets && DomainKeyOf(req) in s.domains && rec == Some(s.next)
          && s'.targets == s.targets[k := s.next] && s.next in s'.recs
          && s'.recs == s.recs[s.next := s'.recs[s.next]] && s'.next == s.next + 1
          && s'.recs[s.next].slot < Loopback.Size && s'.recs[s.next].slot !in Used(s)
          && s'.recs[s.next].manager == DomainKeyOf(req) && s'.recs[s.next].sessions == 0)
  }

  lemma CreateAdds(s: Server, req: Request)
    requires TargetsSound(s)
    ensures Created(s, CreateRegion(s, req).0, CreateRegion(s, req).1, req)
  {
  }

  lemma CreateNames(s: Server, req: Request)
    requires TargetsSound(s)
    ensures var (s', rec) := CreateRegion(s, req); var m := DomainKeyOf(req);
            s' == s || (&& s.next in s'.recs && m in s.domains && m in s'.domains
                        && var n := Domain.Normalize(s'.recs[s.next].domain);
                           && n !in s.domains[m].records && s'.recs[s.next].slot < Loopback.Size
                           && s'.domains == s.domains[m := s'.domains[m]]
                           && s'.domains[m].records == s.domains[m].records[n := Octets(s'.recs[s.next].slot)])
  {
    if KeyOf(req) !in s.targets && DomainKeyOf(req) in s.domains && FreeSlot(Used(s), 0).Some? {
      var d := s.domains[DomainKeyOf(req)];
      Domain.AssignIsFresh(d.records, req.target, d.suffix, Octets(FreeSlot(Used(s), 0).value));
    }
  }

  lemma CreateOwners(s: State, req: Request, k: Key, m: DomainKey, n: string)
    requires Sound(s)
    requires OwnsName(CreateRegion(s.server, req).0, k, m, n)
    ensures OwnsName(s.server, k, m, n) || (k == KeyOf(req) && !HasRecord(s.server, m, n))
  {
    CreateAdds(s.server, req);
    CreateNames(s.server, req);
  }

  lemma RecordOfOwner(s: Server, k: Key, m: DomainKey, n: string)
    requires NamesResolve(s) && OwnsName(s, k, m, n)
    ensures HasRecord(s, m, n)
  {
  }

  lemma CreateAddresses(s: Server, req: Request)
    requires TargetsSound(s) && AddressesDistinct(s)
    ensures var s' := CreateRegion(s, req).0; TargetsSound(s') && AddressesDistinct(s')
  {
    CreateAdds(s, req);
    CreateTargets(s, req);
    UsedSlots(s);
  }

  lemma UsedSlots(s: Server)
    requires TargetsSound(s)
    ensures forall j :: j in s.targets ==> s.recs[s.targets[j]].slot in Used(s)
  {
  }

  lemma CreateTargets(s: Server, req: Request)
    requires TargetsSound(s)
    ensures TargetsSound(CreateRegion(s, req).0)
  {
    CreateAdds(s, req);
  }

  lemma CreateResolves(s: Server, req: Request)
    requires TargetsSound(s) && NamesResolve(s)
    ensures NamesResolve(CreateRegion(s, req).0)
  {
    CreateAdds(s, req);
    CreateNames(s, req);
  }

  lemma CreateOwnsOnce(s: State, req: Request)
    requires Sound(s)
    ensures NamesOwnedOnce(s.(server := CreateRegion(s.server, req).0))
  {
    var v, v' := s.server, CreateRegion(s.server, req).0;
    CreateAdds(v, req);
    CreateNames(v, req);
    assert forall m, n :: HasRecord(v, m, n) ==> HasRecord(v', m, n);
    assert forall u: ThreadId, m, n :: OwesName(s.(server := v'), u, m, n) <==> OwesName(s, u, m, n);
    forall k, m, n | OwnsName(v', k, m, n)
      ensures OwnsName(v, k, m, n) || (k == KeyOf(req) && !HasRecord(v, m, n))
      ensures OwnsName(v, k, m, n) ==> HasRecord(v, m, n)
    {
      CreateOwners(s, req, k, m, n);
      if OwnsName(v, k, m, n) {
        RecordOfOwner(v, k, m, n);
      }
    }
  }

  lemma SoundCreate(s: State, req: Request)
    requires Sound(s)
    ensures Sound(s.(server := CreateRegion(s.server, req).0))
  {
    CreateAddresses(s.server, req);
    CreateResolves(s.server, req);
    CreateOwnsOnce(s, req);
  }

  lemma DropKeepsRest(s: Server, key: Key)
    requires TargetsSound(s) && AddressesDistinct(s) && NamesResolve(s)
    ensures var s' := DropIdle(s, key).0; TargetsSound(s') && AddressesDistinct(s') && NamesResolve(s')
  {
  }

  lemma DropMovesName(s: Server, key: Key)
    requires TargetsSound(s) && NamesResolve(s)
    ensures var (s', owed) := DropIdle(s, key);
            && s'.domains == s.domains
            && (owed.None? ==> s' == s)
            && (owed.Some? ==> OwnsName(s, key, owed.value.0, Domain.Normalize(owed.value.1))
                               && HasRecord(s, owed.value.0, Domain.Normalize(owed.value.1)))
            && (forall k, m, n :: OwnsName(s', k, m, n) ==> OwnsName(s, k, m, n) && (owed.Some? ==> k != key))
  {
    var (s', owed) := DropIdle(s, key);
    if owed.Some? {
      RecordOfOwner(s, key, owed.value.0, Domain.Normalize(owed.value.1));
    }
  }

  // An idle target leaves; the thread that took it owes its name.
  lemma SoundDrop(s: State, key: Key, t: ThreadId)
    requires Sound(s) && NotOwing(s, t)
    ensures var (server, owed) := DropIdle(s.server, key); Sound(Goto(s, server, t, Owe(owed)))
  {
    var (v', owed) := DropIdle(s.server, key);
    var s' := Goto(s, v', t, Owe(owed));
    DropKeepsRest(s.server, key);
    DropMovesName(s.server, key);
    forall u: ThreadId, m, n | OwesName(s', u, m, n)
      ensures if u == t then owed.Some? && OwnsName(s.server, key, m, n) && m == owed.value.0 && n == Domain.Normalize(owed.value.1)
              else OwesName(s, u, m, n)
    {
    }
    DropOwnsOnce(s, s', key, t, owed);
  }

  lemma DropOwnsOnce(s: State, s': State, key: Key, t: ThreadId, owed: Option<(DomainKey, string)>)
    requires NamesOwnedOnce(s)
    requires s'.server.domains == s.server.domains
    requires owed.Some? ==> HasRecord(s.server, owed.value.0, Domain.Normalize(owed.value.1))
    requires forall k, m, n :: OwnsName(s'.server, k, m, n) ==> OwnsName(s.server, k, m, n) && (owed.Some? ==> k != key)
    requires forall u: ThreadId, m, n :: OwesName(s', u, m, n) ==>
               if u == t then owed.Some? && OwnsName(s.server, key, m, n) && m == owed.value.0 && n == Domain.Normalize(owed.value.1)
               else OwesName(s, u, m, n)
    ensures NamesOwnedOnce(s')
  {
  }

  lemma SoundUnregister(s: State, t: ThreadId)
    requires Sound(s) && t in s.threads && s.threads[t].Owing?
    ensures Sound(Run(s, t, true))
  {
    var m, name := s.threads[t].manager, s.threads[t].name;
    var n := Domain.Normalize(name);
    var v, s' := s.server, Run(s, t, true);
    assert OwesName(s, t, m, n);
    assert forall m', n' :: HasRecord(s'.server, m', n') <==> (HasRecord(v, m', n') && !(m' == m && n' == n));
    forall k | k in v.targets && v.targets[k] in v.recs
      ensures var x := v.recs[v.targets[k]]; !(x.manager == m && Domain.Normalize(x.domain) == n)
    {
      assert OwnsName(v, k, v.recs[v.targets[k]].manager, Domain.Normalize(v.recs[v.targets[k]].domain));
    }
    assert forall k, m', n' :: OwnsName(s'.server, k, m', n') <==> OwnsName(v, k, m', n');
    assert forall u: ThreadId, m', n' :: OwesName(s', u, m', n') <==> (u != t && OwesName(s, u, m', n'));
  }

  lemma RegionsKeep(s: Server, req: Request, ok: bool, lease: LeaseId, key: Key, rec: RecId)
    ensures Keeps(s, DomainRegion(s, req, ok).0)
    ensures Keeps(s, CommitRegion(s, lease, key, rec).0)
    ensures Keeps(s, ReleaseRegion(s, lease).0)
    ensures Keeps(s, StartupRegion(s))
  {
    DomainKeeps(s, req, ok);
    CommitKeeps(s, lease, key, rec);
    ReleaseKeeps(s, lease);
  }

  lemma DomainKeeps(s: Server, req: Request, ok: bool)
    ensures Keeps(s, DomainRegion(s, req, ok).0)
  {
  }

  lemma CommitKeeps(s: Server, lease: LeaseId, key: Key, rec: RecId)
    ensures Keeps(s, CommitRegion(s, lease, key, rec).0)
  {
  }

  lemma ReleaseKeeps(s: Server, lease: LeaseId)
    ensures Keeps(s, ReleaseRegion(s, lease).0)
  {
  }

  // The same threads, but thread t has moved to a place that owes nothing.
  lemma SoundMove(s: State, server: Server, t: ThreadId, pc: Pc)
    requires Sound(s) && Keeps(s.server, server) && NotOwing(s, t) && !pc.Owing?
    ensures Sound(Goto(s, server, t, pc))
  {
    SoundQuiet(s, Goto(s, server, t, pc));
  }

  lemma SoundSwap(s: State, server: Server)
    requires Sound(s) && Keeps(s.server, server)
    ensures Sound(s.(server := server))
  {
    SoundQuiet(s, s.(server := server));
  }

  lemma SoundDropMark(s: State, key: Key, t: ThreadId, mark: bool)
    requires Sound(s) && NotOwing(s, t)
    ensures var (server, owed) := DropIdle(s.server, key); Sound(Goto(s, server.(draining := mark), t, Owe(owed)))
  {
    var (server, owed) := DropIdle(s.server, key);
    SoundDrop(s, key, t);
    SoundSwap(Goto(s, server, t, Owe(owed)), server.(draining := mark));
  }

  lemma SoundLeased(s: State, t: ThreadId)
    requires Sound(s) && t in s.threads && s.threads[t].Leased?
    ensures Sound(Run(s, t, true))
  {
    var lease := s.threads[t].lease;
    RegionsKeep(s.server, Request("", "", "", "", [], "", "", ""), true, lease, "", 0);
    var (s1, key) := ReleaseRegion(s.server, lease);
    if s.grace {
      SoundMove(s, s1, t, if key.Some? then Timer(key.value) else Returned);
    } else {
      SoundSwap(s, s1);
      if key.Some? {
        var s2 := DropIdle(s1, key.value).0;
        SoundDropMark(s.(server := s1), key.value, t, s2.draining || s2.sessions == map[]);
      } else {
        SoundMove(s, s1.(draining := s1.draining || s1.sessions == map[]), t, Returned);
      }
    }
  }

  lemma SoundEnsure(s: State, req: Request, ok: bool)
    requires Sound(s)
    ensures Sound(s.(server := Ensure(s.server, req, ok).0))
  {
    var s1, v := DomainRegion(s.server, req, ok).0, Ensure(s.server, req, ok).0;
    EnsureCases(s.server, req, ok);
    if v == s.server {
      assert s.(server := v) == s;
    } else {
      DomainKeeps(s.server, req, ok);
      SoundSwap(s, s1);
      SoundCreate(s.(server := s1), req);
    }
  }

  lemma EnsureCases(s: Server, req: Request, ok: bool)
    ensures var s1, v := DomainRegion(s, req, ok).0, Ensure(s, req, ok).0;
            v == s || v == s1 || v == CreateRegion(s1, req).0
  {
  }

  lemma SoundOpen(s: State, t: ThreadId, req: Request, ok: bool)
    requires Sound(s)
    ensures Sound(Open(s, t, req, ok))
  {
    if t !in s.threads {
      SoundEnsure(s, req, ok);
      var (server, rec) := Ensure(s.server, req, ok);
      var s1 := s.(server := server);
      if rec.None? {
        SoundMove(s1, server, t, Returned);
      } else {
        RegionsKeep(server, req, ok, Lease(req), KeyOf(req), rec.value);
        var (server', done) := CommitRegion(server, Lease(req), KeyOf(req), rec.value);
        SoundMove(s1, server', t, if done then Leased(Lease(req), rec.value) else Returned);
      }
    }
  }

  // The steps of an open.
  lemma SoundOpening(s: State, t: ThreadId, ok: bool)
    requires Sound(s) && t in s.threads
    requires var pc := s.threads[t]; pc.OpenStart? || pc.Look? || pc.StartDomain? || pc.Create? || pc.Commit?
    ensures Sound(Run(s, t, ok))
  {
    match s.threads[t]
    case OpenStart(req) => SoundMove(s, s.server, t, if Lease(req) == "" || s.server.draining then Returned else Look(req, true));
    case Look(req, open) =>
      SoundMove(s, s.server, t,
                if !Complete(req) then Returned
                else if LookRegion(s.server, req).Some? then Found(req, open, LookRegion(s.server, req)) else StartDomain(req, open));
    case StartDomain(req, open) =>
      RegionsKeep(s.server, req, ok, "", "", 0);
      var (server, started) := DomainRegion(s.server, req, ok);
      SoundMove(s, server, t, if started then Create(req, open) else Returned);
    case Create(req, open) =>
      SoundCreate(s, req);
      var (server, rec) := CreateRegion(s.server, req);
      SoundMove(s.(server := server), server, t, Found(req, open, rec));
    case Commit(req, rec) =>
      RegionsKeep(s.server, req, ok, Lease(req), KeyOf(req), rec);
      var (server, done) := CommitRegion(s.server, Lease(req), KeyOf(req), rec);
      SoundMove(s, server, t, if done then Leased(Lease(req), rec) else Returned);
  }

  lemma SoundRun(s: State, t: ThreadId, ok: bool)
    requires Sound(s)
    ensures Sound(Run(s, t, ok))
  {
    if t in s.threads {
      match s.threads[t]
      case Leased(_, _) => SoundLeased(s, t);
      case Timer(key) =>
        var server := DropIdle(s.server, key).0;
        SoundDropMark(s, key, t, server.draining || (server.sessions == map[] && server.targets == map[]));
      case Owing(_, _) => SoundUnregister(s, t);
      case Returned =>
      case _ => SoundOpening(s, t, ok);
    }
  }

  lemma {:induction false} AlwaysSound(grace: bool, steps: seq<Step>)
    ensures Sound(Exec(Init(grace), steps))
  {
    if steps != [] {
      var n := |steps| - 1;
      var s := Exec(Init(grace), steps[..n]);
      AlwaysSound(grace, steps[..n]);
      match steps[n]
      case Call(t, entry) =>
        if t !in s.threads && IsEntry(entry) {
          SoundMove(s, s.server, t, entry);
        }
      case Advance(t, ok) => SoundRun(s, t, ok);
      case OpenWhole(t, req, ok) => SoundOpen(s, t, req, ok);
      case StartupTimer => SoundSwap(s, StartupRegion(s.server));
      case Shutdown => SoundSwap(s, s.server.(draining := true));
    }
  }

  // ----- the addresses as text

  function Dotted(ip: Domain.IPv4): string {
    Text.Itoa(ip[0] as int) + "." + Text.Itoa(ip[1] as int) + "." + Text.Itoa(ip[2] as int) + "." + Text.Itoa(ip[3] as int)
  }

  lemma SmallNumbers()
    ensures Text.Itoa(127) == "127" && Text.Itoa(64) == "64" && Text.Itoa(0) == "0"
  {
    assert Text.Itoa(1) == "1" && Text.Itoa(12) == Text.Itoa(1) + "2" && Text.Itoa(127) == Text.Itoa(12) + "7";
    assert Text.Itoa(6) == "6" && Text.Itoa(64) == Text.Itoa(6) + "4";
  }

  // The record of a slot is the address that is listened on.
  lemma OctetsOfAddress(slot: nat)
    requires slot < Loopback.Size
    ensures Dotted(Octets(slot)) == Loopback.Address(slot)
  {
    SmallNumbers();
    var n := Text.Itoa(slot + 1);
    assert "127" + "." + "64" + "." + "0" + "." + n == "127.64.0." + n;
  }

  // The key's target is reached under its name: the name resolves, in the target's own DNS
  // manager, to the address it listens on.
  predicate Reachable(s: Server, k: Key) {
    && k in s.targets && s.targets[k] in s.recs
    && var t := s.recs[s.targets[k]];
       && t.manager in s.domains
       && var ip := Domain.Lookup(s.domains[t.manager].records, t.domain);
          ip.Some? && Dotted(ip.value) == ListenIP(t)
  }

  lemma SoundReaches(s: State, k: Key)
    requires Sound(s) && k in s.server.targets
    ensures Reachable(s.server, k)
  {
    SoundResolves(s, k);
    OctetsOfAddress(s.server.recs[s.server.targets[k]].slot);
  }

  lemma SoundSeparates(s: State, k: Key, l: Key)
    requires Sound(s) && k in s.server.targets && l in s.server.targets && k != l
    ensures var v := s.server; var t, u := v.recs[v.targets[k]], v.recs[v.targets[l]];
            && ListenIP(t) != ListenIP(u)
            && (t.manager == u.manager ==> Domain.Normalize(t.domain) != Domain.Normalize(u.domain))
  {
    var v := s.server;
    var t, u := v.recs[v.targets[k]], v.recs[v.targets[l]];
    if ListenIP(t) == ListenIP(u) {
      Loopback.AddressInjective(t.slot, u.slot);
    }
    assert OwnsName(v, k, t.manager, Domain.Normalize(t.domain)) && OwnsName(v, l, u.manager, Domain.Normalize(u.domain));
  }

  /** Over all interleavings of opens, port requests, releases, timers and deferred
      unregistrations: each live target's name resolves to the address it listens on, two of
      them never share an address, or a name of one DNS manager, and a name still owed an
      Unregister belongs to no live target. */
  lemma AddressesAndNamesSound(grace: bool, steps: seq<Step>, k: Key)
    requires k in Exec(Init(grace), steps).server.targets
    ensures var s := Exec(Init(grace), steps); var v := s.server;
            && Reachable(v, k)
            && (forall l :: l in v.targets && l != k ==>
                  && v.targets[l] in v.recs && ListenIP(v.recs[v.targets[l]]) != ListenIP(v.recs[v.targets[k]])
                  && (v.recs[v.targets[l]].manager == v.recs[v.targets[k]].manager ==>
                        Domain.Normalize(v.recs[v.targets[l]].domain) != Domain.Normalize(v.recs[v.targets[k]].domain)))
            && (forall t: ThreadId :: t in s.threads && s.threads[t].Owing? && s.threads[t].manager == v.recs[v.targets[k]].manager ==>
                  Domain.Normalize(s.threads[t].name) != Domain.Normalize(v.recs[v.targets[k]].domain))
  {
    var s := Exec(Init(grace), steps);
    var v := s.server;
    AlwaysSound(grace, steps);
    SoundReaches(s, k);
    forall l | l in v.targets && l != k
      ensures v.targets[l] in v.recs && ListenIP(v.recs[v.targets[l]]) != ListenIP(v.recs[v.targets[k]])
      ensures v.recs[v.targets[l]].manager == v.recs[v.targets[k]].manager ==>
                Domain.Normalize(v.recs[v.targets[l]].domain) != Domain.Normalize(v.recs[v.targets[k]].domain)
    {
      SoundSeparates(s, l, k);
    }
    forall t: ThreadId | t in s.threads && s.threads[t].Owing? && s.threads[t].manager == v.recs[v.targets[k]].manager
      ensures Domain.Normalize(s.threads[t].name) != Domain.Normalize(v.recs[v.targets[k]].domain)
    {
      var m, n := s.threads[t].manager, Domain.Normalize(s.threads[t].name);
      assert OwesName(s, t, m, n);
      assert n == Domain.Normalize(v.recs[v.targets[k]].domain) ==> OwnsName(v, k, m, n);
    }
  }

  /** At most 64 targets exist. */
  lemma PoolBoundsTargets(grace: bool, steps: seq<Step>)
    ensures |Exec(Init(grace), steps).server.targets| <= Loopback.Size
  {
    AlwaysSound(grace, steps);
    var s := Exec(Init(grace), steps).server;
    var slots := map k | k in s.targets :: s.recs[s.targets[k]].slot;
    InjectionFits(s.targets.Keys, slots, Below(Loopback.Size));
  }

  /** The late Unregister removes its own record and no live target's. */
  lemma LateUnregisterIsHarmless(grace: bool, steps: seq<Step>, t: ThreadId, k: Key)
    requires var s := Exec(Init(grace), steps); t in s.threads && s.threads[t].Owing? && k in s.server.targets
    ensures var s := Exec(Init(grace), steps); var v, v' := s.server, Run(s, t, true).server;
            && v'.targets == v.targets && v'.recs == v.recs && Reachable(v', k)
            && !(s.threads[t].manager in v'.domains && Domain.Lookup(v'.domains[s.threads[t].manager].records, s.threads[t].name).Some?)
  {
    var s := Exec(Init(grace), steps);
    AlwaysSound(grace, steps);
    SoundUnregister(s, t);
    UnregisterKeepsTargets(s, t);
    SoundReaches(Run(s, t, true), k);
  }

  lemma UnregisterKeepsTargets(s: State, t: ThreadId)
    requires t in s.threads && s.threads[t].Owing?
    ensures var v' := Run(s, t, true).server; v'.targets == s.server.targets && v'.recs == s.server.recs
  {
  }

  lemma SoundResolves(s: State, k: Key)
    requires Sound(s) && k in s.server.targets
    ensures var v := s.server;
            && v.targets[k] in v.recs
            && var x := v.recs[v.targets[k]];
               && x.manager in v.domains && x.slot < Loopback.Size
               && Domain.Lookup(v.domains[x.manager].records, x.domain) == Some(Octets(x.slot))
  {
  }

  // ----- session counts

  function Leases(s: Server, k: Key): set<LeaseId> {
    set l | l in s.sessions && s.sessions[l] == k
  }

  // Every record's count is covered by leases of its key.
  ghost predicate CountsAtMost(s: Server) {
    TargetsSound(s) && forall k :: k in s.targets ==> s.recs[s.targets[k]].sessions <= |Leases(s, k)|
  }

  // Every lease has its target, and counts are exact.
  ghost predicate CountsExact(s: Server) {
    && TargetsSound(s)
    && (forall l :: l in s.sessions ==> s.sessions[l] in s.targets)
    && (forall k :: k in s.targets ==> s.recs[s.targets[k]].sessions == |Leases(s, k)|)
  }

  // The record is the key's current one, or no longer anybody's.
  ghost predicate RecordOf(s: Server, rec: RecId, key: Key) {
    rec in s.recs && forall k :: k in s.targets && s.targets[k] == rec ==> k == key
  }

  lemma LeaseAdded(s: Server, s': Server, lease: LeaseId, key: Key)
    requires lease !in s.sessions && s'.sessions == s.sessions[lease := key]
    ensures forall k :: |Leases(s', k)| == |Leases(s, k)| + if k == key then 1 else 0
  {
    forall k ensures |Leases(s', k)| == |Leases(s, k)| + if k == key then 1 else 0 {
      LeaseAddedTo(s, s', lease, key, k);
    }
  }

  lemma LeaseAddedTo(s: Server, s': Server, lease: LeaseId, key: Key, k: Key)
    requires lease !in s.sessions && s'.sessions == s.sessions[lease := key]
    ensures |Leases(s', k)| == |Leases(s, k)| + if k == key then 1 else 0
  {
    if k == key {
      assert Leases(s', k) == Leases(s, k) + {lease};
    } else {
      assert Leases(s', k) == Leases(s, k);
    }
  }

  lemma LeaseRemoved(s: Server, s': Server, lease: LeaseId)
    requires lease in s.sessions && s'.sessions == s.sessions - {lease}
    ensures forall k :: |Leases(s', k)| == |Leases(s, k)| - if k == s.sessions[lease] then 1 else 0
  {
    forall k ensures |Leases(s', k)| == |Leases(s, k)| - if k == s.sessions[lease] then 1 else 0 {
      assert k == s.sessions[lease] ==> lease in Leases(s, k);
      assert Leases(s', k) == if k == s.sessions[lease] then Leases(s, k) - {lease} else Leases(s, k);
    }
  }

  lemma CommitAtMost(s: Server, lease: LeaseId, key: Key, rec: RecId)
    requires CountsAtMost(s) && RecordOf(s, rec, key)
    ensures CountsAtMost(CommitRegion(s, lease, key, rec).0)
  {
    var (s', done) := CommitRegion(s, lease, key, rec);
    if done {
      LeaseAdded(s, s', lease, key);
    }
  }

  lemma ReleaseAtMost(s: Server, lease: LeaseId)
    requires CountsAtMost(s)
    ensures CountsAtMost(ReleaseRegion(s, lease).0)
  {
    var (s', key) := ReleaseRegion(s, lease);
    if key.Some? {
      LeaseRemoved(s, s', lease);
      assert lease in Leases(s, key.value);
    }
  }

  lemma SameLeases(s: Server, s': Server)
    requires s'.sessions == s.sessions
    ensures forall k :: Leases(s', k) == Leases(s, k)
  {
  }

  lemma CreateAtMost(s: Server, req: Request)
    requires CountsAtMost(s)
    ensures CountsAtMost(CreateRegion(s, req).0)
  {
    var s' := CreateRegion(s, req).0;
    CreateAdds(s, req);
    SameLeases(s, s');
  }

  lemma DropAtMost(s: Server, key: Key)
    requires CountsAtMost(s)
    ensures CountsAtMost(DropIdle(s, key).0)
  {
    SameLeases(s, DropIdle(s, key).0);
  }

  ghost predicate Pledged(s: State) {
    && CountsAtMost(s.server)
    && forall t: ThreadId :: t in s.threads && s.threads[t].Commit? ==> RecordOf(s.server, s.threads[t].rec, KeyOf(s.threads[t].req))
  }

  // Record numbers are never reused, so a held record never changes key.
  ghost predicate Ages(s: Server, s': Server) {
    && s.recs.Keys <= s'.recs.Keys
    && forall k :: k in s'.targets ==> s'.targets[k] >= s.next || (k in s.targets && s'.targets[k] == s.targets[k])
  }

  lemma RecordAges(s: Server, s': Server, rec: RecId, key: Key)
    requires TargetsSound(s) && RecordOf(s, rec, key) && Ages(s, s')
    ensures RecordOf(s', rec, key)
  {
  }

  lemma PledgedMove(s: State, server: Server, t: ThreadId, pc: Pc)
    requires Pledged(s) && CountsAtMost(server) && Ages(s.server, server)
    requires pc.Commit? ==> RecordOf(server, pc.rec, KeyOf(pc.req))
    ensures Pledged(Goto(s, server, t, pc))
  {
    var s' := Goto(s, server, t, pc);
    forall u: ThreadId | u in s'.threads && s'.threads[u].Commit?
      ensures RecordOf(server, s'.threads[u].rec, KeyOf(s'.threads[u].req))
    {
      if u != t {
        RecordAges(s.server, server, s.threads[u].rec, KeyOf(s.threads[u].req));
      }
    }
  }

  lemma DropAges(s: Server, s1: Server, key: Key)
    requires Ages(s, s1) && s1.targets == s.targets
    ensures Ages(s, DropIdle(s1, key).0)
  {
  }

  lemma PledgedOpening(s: State, t: ThreadId, ok: bool)
    requires Pledged(s) && t in s.threads
    requires var pc := s.threads[t]; pc.OpenStart? || pc.Look? || pc.StartDomain? || pc.Create? || pc.Commit?
    ensures Pledged(Run(s, t, ok))
  {
    match s.threads[t]
    case OpenStart(req) => PledgedMove(s, s.server, t, if Lease(req) == "" || s.server.draining then Returned else Look(req, true));
    case Look(req, open) =>
      PledgedMove(s, s.server, t,
                  if !Complete(req) then Returned
                  else if LookRegion(s.server, req).Some? then Found(req, open, LookRegion(s.server, req)) else StartDomain(req, open));
    case StartDomain(req, open) =>
      var (server, started) := DomainRegion(s.server, req, ok);
      SameLeases(s.server, server);
      PledgedMove(s, server, t, if started then Create(req, open) else Returned);
    case Create(req, open) =>
      CreateAtMost(s.server, req);
      CreateAdds(s.server, req);
      var (server, rec) := CreateRegion(s.server, req);
      PledgedMove(s, server, t, Found(req, open, rec));
    case Commit(req, rec) =>
      CommitAtMost(s.server, Lease(req), KeyOf(req), rec);
      var (server, done) := CommitRegion(s.server, Lease(req), KeyOf(req), rec);
      PledgedMove(s, server, t, if done then Leased(Lease(req), rec) else Returned);
  }

  lemma PledgedLeased(s: State, t: ThreadId)
    requires Pledged(s) && t in s.threads && s.threads[t].Leased?
    ensures Pledged(Run(s, t, true))
  {
    var lease := s.threads[t].lease;
    ReleaseAtMost(s.server, lease);
    var (s1, key) := ReleaseRegion(s.server, lease);
    if s.grace {
      PledgedMove(s, s1, t, if key.Some? then Timer(key.value) else Returned);
    } else {
      var (s2, owed) := if key.Some? then DropIdle(s1, key.value) else (s1, None);
      if key.Some? {
        DropAtMost(s1, key.value);
        DropAges(s.server, s1, key.value);
      }
      SameLeases(s2, s2.(draining := s2.draining || s2.sessions == map[]));
      PledgedMove(s, s2.(draining := s2.draining || s2.sessions == map[]), t, Owe(owed));
    }
  }

  lemma PledgedClosing(s: State, t: ThreadId)
    requires Pledged(s) && t in s.threads && (s.threads[t].Timer? || s.threads[t].Owing?)
    ensures Pledged(Run(s, t, true))
  {
    match s.threads[t]
    case Timer(key) =>
      DropAtMost(s.server, key);
      var (s1, owed) := DropIdle(s.server, key);
      var s2 := CleanupRegion(s.server, key).0;
      SameLeases(s1, s2);
      PledgedMove(s, s2, t, Owe(owed));
    case Owing(manager, name) =>
      var server := UnregisterRegion(s.server, manager, name);
      SameLeases(s.server, server);
      PledgedMove(s, server, t, Returned);
  }

  lemma CreatedPledge(s: Server, s': Server, rec: Option<RecId>, req: Request)
    requires TargetsSound(s) && Created(s, s', rec, req)
    ensures Ages(s, s') && (rec.Some? ==> RecordOf(s', rec.value, KeyOf(req)))
  {
  }

  lemma DomainFrame(s: Server, req: Request, ok: bool)
    ensures var s' := DomainRegion(s, req, ok).0;
            s'.targets == s.targets && s'.recs == s.recs && s'.next == s.next && s'.sessions == s.sessions && s'.draining == s.draining
  {
  }

  lemma EnsureAtMost(s: Server, req: Request, ok: bool)
    requires CountsAtMost(s)
    ensures var (server, rec) := Ensure(s, req, ok);
            CountsAtMost(server) && Ages(s, server) && (rec.Some? ==> RecordOf(server, rec.value, KeyOf(req)))
  {
    var (s1, started) := DomainRegion(s, req, ok);
    DomainFrame(s, req, ok);
    SameLeases(s, s1);
    if Complete(req) && LookRegion(s, req).None? && started {
      CreateAtMost(s1, req);
      CreateAdds(s1, req);
      CreatedPledge(s1, CreateRegion(s1, req).0, CreateRegion(s1, req).1, req);
    }
  }

  lemma PledgedOpen(s: State, t: ThreadId, req: Request, ok: bool)
    requires Pledged(s)
    ensures Pledged(Open(s, t, req, ok))
  {
    EnsureAtMost(s.server, req, ok);
    var (server, rec) := Ensure(s.server, req, ok);
    if rec.None? {
      PledgedMove(s, server, t, Returned);
    } else {
      CommitAtMost(server, Lease(req), KeyOf(req), rec.value);
      var (server', done) := CommitRegion(server, Lease(req), KeyOf(req), rec.value);
      PledgedMove(s, server', t, if done then Leased(Lease(req), rec.value) else Returned);
    }
  }

  /** However opens are split and interleaved, a target's count never exceeds the
      number of its leases. */
  lemma {:induction false} CountsNeverExceedLeases(grace: bool, steps: seq<Step>)
    ensures Pledged(Exec(Init(grace), steps))
  {
    if steps != [] {
      var n := |steps| - 1;
      var s := Exec(Init(grace), steps[..n]);
      CountsNeverExceedLeases(grace, steps[..n]);
      match steps[n]
      case Call(t, entry) =>
        if t !in s.threads && IsEntry(entry) {
          PledgedMove(s, s.server, t, entry);
        }
      case Advance(t, ok) =>
        if t in s.threads && s.threads[t].Leased? {
          PledgedLeased(s, t);
        } else if t in s.threads && (s.threads[t].Timer? || s.threads[t].Owing?) {
          PledgedClosing(s, t);
        } else if t in s.threads && !s.threads[t].Returned? {
          PledgedOpening(s, t, ok);
        }
      case OpenWhole(t, req, ok) => PledgedOpen(s, t, req, ok);
      case StartupTimer => SameLeases(s.server, StartupRegion(s.server));
      case Shutdown => SameLeases(s.server, s.server.(draining := true));
    }
  }

  // ----- when counts are exact

  lemma EnsureExact(s: Server, req: Request, ok: bool)
    requires CountsExact(s)
    ensures var (server, rec) := Ensure(s, req, ok);
            && CountsExact(server) && server.sessions == s.sessions
            && (rec.Some? ==> KeyOf(req) in server.targets && server.targets[KeyOf(req)] == rec.value)
  {
    if Complete(req) && KeyOf(req) !in s.targets {
      DomainFrame(s, req, ok);
      SameLeases(s, DomainRegion(s, req, ok).0);
      CreateExact(DomainRegion(s, req, ok).0, req);
    }
  }

  lemma CreateExact(s: Server, req: Request)
    requires CountsExact(s)
    ensures var (server, rec) := CreateRegion(s, req);
            && CountsExact(server) && server.sessions == s.sessions
            && (rec.Some? ==> KeyOf(req) in server.targets && server.targets[KeyOf(req)] == rec.value)
  {
    CreateAdds(s, req);
    SameLeases(s, CreateRegion(s, req).0);
    if KeyOf(req) !in s.targets {
      assert Leases(s, KeyOf(req)) == {};
    }
  }

  /** A commit keeps the counts exact precisely when the record it was promised is
      still the one filed under its key: it is not when the key's grace timer fired
      between the two halves of the open. */
  lemma CommitExactIffCurrent(s: Server, lease: LeaseId, key: Key, rec: RecId)
    requires CountsExact(s) && RecordOf(s, rec, key) && !s.draining && lease !in s.sessions
    ensures CountsExact(CommitRegion(s, lease, key, rec).0) <==> (key in s.targets && s.targets[key] == rec)
  {
    var s' := CommitRegion(s, lease, key, rec).0;
    LeaseAdded(s, s', lease, key);
    assert s'.sessions[lease] == key;
    if key in s.targets && s.targets[key] != rec {
      assert s'.recs[s'.targets[key]] == s.recs[s.targets[key]];
    }
  }

  lemma ReleaseExact(s: Server, lease: LeaseId)
    requires CountsExact(s)
    ensures CountsExact(ReleaseRegion(s, lease).0)
  {
    var (s', key) := ReleaseRegion(s, lease);
    if key.Some? {
      LeaseRemoved(s, s', lease);
      assert lease in Leases(s, key.value);
    }
  }

  /** No cleanup removes a target that has a lease. */
  lemma DropExact(s: Server, key: Key)
    requires CountsExact(s)
    ensures var (s', owed) := DropIdle(s, key);
            && CountsExact(s') && (owed.Some? ==> Leases(s, key) == {})
            && forall k :: k in s.targets && Leases(s, k) != {} ==> k in s'.targets && s'.targets[k] == s.targets[k]
  {
    var (s', owed) := DropIdle(s, key);
    SameLeases(s, s');
    forall l | l in s'.sessions ensures s'.sessions[l] in s'.targets {
      assert l in Leases(s, s.sessions[l]);
    }
  }

  lemma ReleaseNowExact(s: Server, lease: LeaseId)
    requires CountsExact(s)
    ensures CountsExact(ReleaseNowRegion(s, lease).0)
  {
    ReleaseExact(s, lease);
    var (s1, key) := ReleaseRegion(s, lease);
    var s2 := if key.Some? then DropIdle(s1, key.value).0 else s1;
    if key.Some? {
      DropExact(s1, key.value);
    }
    SameLeases(s2, s2.(draining := s2.draining || s2.sessions == map[]));
  }

  // A successful commit that finds its record replaced or removed.
  ghost predicate Stale(s: State, step: Step) {
    && step.Advance? && step.t in s.threads && s.threads[step.t].Commit?
    && var (v, key) := (s.server, KeyOf(s.threads[step.t].req));
       !v.draining && Lease(s.threads[step.t].req) !in v.sessions && !(key in v.targets && v.targets[key] == s.threads[step.t].rec)
  }

  lemma ExactOpening(s: State, t: ThreadId, ok: bool)
    requires CountsExact(s.server) && t in s.threads
    requires var pc := s.threads[t]; pc.OpenStart? || pc.Look? || pc.StartDomain? || pc.Create?
    ensures CountsExact(Run(s, t, ok).server)
  {
    match s.threads[t]
    case StartDomain(req, open) => SameLeases(s.server, DomainRegion(s.server, req, ok).0);
    case Create(req, open) => CreateExact(s.server, req);
    case _ =>
  }

  lemma ExactCommit(s: State, t: ThreadId, ok: bool)
    requires Pledged(s) && CountsExact(s.server) && t in s.threads && s.threads[t].Commit?
    ensures CountsExact(Run(s, t, ok).server) <==> !Stale(s, Advance(t, ok))
  {
    var req, rec := s.threads[t].req, s.threads[t].rec;
    if !s.server.draining && Lease(req) !in s.server.sessions {
      CommitExactIffCurrent(s.server, Lease(req), KeyOf(req), rec);
    }
  }

  lemma ExactLeased(s: State, t: ThreadId, ok: bool)
    requires CountsExact(s.server) && t in s.threads && s.threads[t].Leased?
    ensures CountsExact(Run(s, t, ok).server)
  {
    if s.grace {
      ReleaseExact(s.server, s.threads[t].lease);
    } else {
      ReleaseNowExact(s.server, s.threads[t].lease);
    }
  }

  lemma ExactCleanup(s: Server, key: Key)
    requires CountsExact(s)
    ensures CountsExact(CleanupRegion(s, key).0)
  {
    DropExact(s, key);
    SameLeases(DropIdle(s, key).0, CleanupRegion(s, key).0);
  }

  lemma ExactClosing(s: State, t: ThreadId, ok: bool)
    requires CountsExact(s.server) && t in s.threads
    requires var pc := s.threads[t]; pc.Timer? || pc.Owing? || pc.Returned?
    ensures CountsExact(Run(s, t, ok).server)
  {
    match s.threads[t]
    case Timer(key) => ExactCleanup(s.server, key);
    case Owing(manager, name) => SameLeases(s.server, UnregisterRegion(s.server, manager, name));
    case Returned =>
  }

  lemma ExactOpen(s: State, t: ThreadId, req: Request, ok: bool)
    requires Pledged(s) && CountsExact(s.server)
    ensures CountsExact(Open(s, t, req, ok).server)
  {
    EnsureExact(s.server, req, ok);
    EnsureAtMost(s.server, req, ok);
    var (server, rec) := Ensure(s.server, req, ok);
    if rec.Some? && !server.draining && Lease(req) !in server.sessions {
      CommitExactIffCurrent(server, Lease(req), KeyOf(req), rec.value);
    }
  }

  /** Exactly one step makes the counts wrong: a commit whose record is stale. */
  lemma ExactStepIff(s: State, step: Step)
    requires Pledged(s) && CountsExact(s.server)
    ensures CountsExact(Apply(s, step).server) <==> !Stale(s, step)
  {
    match step
    case Call(_, _) =>
    case Advance(t, ok) =>
      if t in s.threads {
        var pc := s.threads[t];
        if pc.Commit? {
          ExactCommit(s, t, ok);
        } else if pc.Leased? {
          ExactLeased(s, t, ok);
        } else if pc.Timer? || pc.Owing? || pc.Returned? {
          ExactClosing(s, t, ok);
        } else {
          ExactOpening(s, t, ok);
        }
      }
    case OpenWhole(t, req, ok) => ExactOpen(s, t, req, ok);
    case StartupTimer => SameLeases(s.server, StartupRegion(s.server));
    case Shutdown => SameLeases(s.server, s.server.(draining := true));
  }

  ghost predicate AlwaysExact(grace: bool, steps: seq<Step>) {
    forall n :: 0 <= n <= |steps| ==> CountsExact(Exec(Init(grace), steps[..n]).server)
  }

  ghost predicate NeverStale(grace: bool, steps: seq<Step>) {
    forall n :: 0 <= n < |steps| ==> !Stale(Exec(Init(grace), steps[..n]), steps[n])
  }

  lemma ExecPrefix(grace: bool, steps: seq<Step>, n: nat)
    requires n < |steps|
    ensures Exec(Init(grace), steps[..n + 1]) == Apply(Exec(Init(grace), steps[..n]), steps[n])
  {
    assert steps[..n + 1][..n] == steps[..n];
  }

  lemma {:induction false} ExactPrefix(grace: bool, steps: seq<Step>, n: nat)
    requires NeverStale(grace, steps) && n <= |steps|
    ensures CountsExact(Exec(Init(grace), steps[..n]).server)
  {
    if n > 0 {
      ExactPrefix(grace, steps, n - 1);
      CountsNeverExceedLeases(grace, steps[..n - 1]);
      ExactStepIff(Exec(Init(grace), steps[..n - 1]), steps[n - 1]);
      ExecPrefix(grace, steps, n - 1);
    }
  }

  /** Over every schedule, opens split or not: every lease's target exists and every count
      is the number of leases with its key, all the time, if and only if no commit finds
      its record stale. */
  lemma CountsExactIff(grace: bool, steps: seq<Step>)
    ensures AlwaysExact(grace, steps) <==> NeverStale(grace, steps)
  {
    if NeverStale(grace, steps) {
      forall n: nat | 0 <= n <= |steps| ensures CountsExact(Exec(Init(grace), steps[..n]).server) {
        ExactPrefix(grace, steps, n);
      }
    } else {
      var n :| 0 <= n < |steps| && Stale(Exec(Init(grace), steps[..n]), steps[n]);
      CountsNeverExceedLeases(grace, steps[..n]);
      if CountsExact(Exec(Init(grace), steps[..n]).server) {
        ExactStepIff(Exec(Init(grace), steps[..n]), steps[n]);
        ExecPrefix(grace, steps, n);
      }
    }
  }

  /** So in a run without such a commit a target that has a lease is never taken away or
      replaced: a step that leaves a lease on a key leaves its target. */
  lemma LeasedTargetStays(grace: bool, steps: seq<Step>, step: Step, k: Key)
    requires NeverStale(grace, steps + [step])
    requires k in Exec(Init(grace), steps).server.targets && Leases(Exec(Init(grace), steps + [step]).server, k) != {}
    ensures var v, v' := Exec(Init(grace), steps).server, Exec(Init(grace), steps + [step]).server;
            k in v'.targets && v'.targets[k] == v.targets[k]
  {
    var s, s' := Exec(Init(grace), steps), Exec(Init(grace), steps + [step]);
    assert (steps + [step])[..|steps + [step]|] == steps + [step] && (steps + [step])[..|steps|] == steps;
    ExactPrefix(grace, steps + [step], |steps| + 1);
    CountsNeverExceedLeases(grace, steps);
    var l :| l in Leases(s'.server, k);
    StepMoves(s, step);
  }

  // ----- opens that nothing interleaves with

  predicate WholeOpens(steps: seq<Step>) {
    forall i :: 0 <= i < |steps| && steps[i].Call? ==> steps[i].entry.Look?
  }

  predicate Unsplit(pc: Pc) {
    !pc.OpenStart? && !pc.Commit? && ((pc.Look? || pc.StartDomain? || pc.Create?) ==> !pc.open)
  }

  ghost predicate AllUnsplit(s: State) { forall t: ThreadId :: t in s.threads ==> Unsplit(s.threads[t]) }

  ghost predicate Settled(s: State) { CountsExact(s.server) && AllUnsplit(s) }

  lemma {:induction false} WholeOpensUnsplit(grace: bool, steps: seq<Step>)
    requires WholeOpens(steps)
    ensures AllUnsplit(Exec(Init(grace), steps))
  {
    if steps != [] {
      WholeOpensUnsplit(grace, steps[..|steps| - 1]);
      UnsplitStep(Exec(Init(grace), steps[..|steps| - 1]), steps[|steps| - 1]);
    }
  }

  lemma UnsplitStep(s: State, step: Step)
    requires AllUnsplit(s)
    requires step.Call? ==> step.entry.Look?
    ensures AllUnsplit(Apply(s, step))
  {
    if step.Advance? && step.t in s.threads {
      UnsplitRun(s, step.t, step.ok);
    }
  }

  lemma UnsplitRun(s: State, t: ThreadId, ok: bool)
    requires t in s.threads && Unsplit(s.threads[t])
    ensures var s' := Run(s, t, ok); s'.threads.Keys == s.threads.Keys && Unsplit(s'.threads[t])
    ensures var s' := Run(s, t, ok); forall u: ThreadId :: u in s.threads && u != t ==> s'.threads[u] == s.threads[u]
  {
  }

  /** When opens are not interleaved there is no such commit, whatever port requests,
      releases and timers do. */
  lemma WholeOpensCountExactly(grace: bool, steps: seq<Step>)
    requires WholeOpens(steps)
    ensures NeverStale(grace, steps) && Settled(Exec(Init(grace), steps))
  {
    forall n | 0 <= n < |steps| ensures !Stale(Exec(Init(grace), steps[..n]), steps[n]) {
      WholeOpensUnsplit(grace, steps[..n]);
    }
    WholeOpensUnsplit(grace, steps);
    ExactPrefix(grace, steps, |steps|);
    assert steps[..|steps|] == steps;
  }

  // ----- what an open and a release achieve

  predicate Serves(s: Server, req: Request) {
    && !s.draining && Lease(req) != "" && Lease(req) !in s.sessions && Complete(req)
    && (KeyOf(req) in s.targets || DomainKeyOf(req) in s.domains || Domain.Normalize(req.domainSuffix) != "")
  }

  // Some address of the pool is not listened on.
  predicate HasFreeAddress(s: Server) { exists j: nat :: j < Loopback.Size && j !in Used(s) }

  lemma EnsureGives(s: Server, req: Request)
    requires Serves(s, req) && (KeyOf(req) in s.targets || HasFreeAddress(s))
    ensures var (s', rec) := Ensure(s, req, true);
            rec.Some? && KeyOf(req) in s'.targets && s'.targets[KeyOf(req)] == rec.value && s'.sessions == s.sessions && !s'.draining
  {
    if KeyOf(req) !in s.targets {
      var s1 := DomainRegion(s, req, true).0;
      DomainFrame(s, req, true);
      assert Used(s1) == Used(s);
      var j: nat :| j < Loopback.Size && j !in Used(s);
      assert FreeSlot(Used(s1), 0).Some?;
    }
  }

  /** In any reachable state, an open with a complete request and a new lease, for a target that
      exists or can get an address, ends with the lease held on a target that is reached under
      its name, unless the daemon is draining. */
  lemma OpenServes(grace: bool, steps: seq<Step>, t: ThreadId, req: Request)
    requires var s := Exec(Init(grace), steps);
             t !in s.threads && Serves(s.server, req) && (KeyOf(req) in s.server.targets || HasFreeAddress(s.server))
    ensures var s := Exec(Init(grace), steps); var s' := Exec(Init(grace), steps + [OpenWhole(t, req, true)]);
            && s'.threads[t].Leased? && s'.threads[t].lease == Lease(req)
            && s'.server.sessions == s.server.sessions[Lease(req) := KeyOf(req)] && Reachable(s'.server, KeyOf(req))
  {
    var s := Exec(Init(grace), steps);
    assert (steps + [OpenWhole(t, req, true)])[..|steps|] == steps;
    EnsureGives(s.server, req);
    AlwaysSound(grace, steps + [OpenWhole(t, req, true)]);
    SoundReaches(Exec(Init(grace), steps + [OpenWhole(t, req, true)]), KeyOf(req));
  }

  // An open taken step by step, with nothing in between.
  function Stepwise(s: State, t: ThreadId, req: Request, ok: bool, n: nat): State {
    if n == 0 then Apply(s, Call(t, OpenStart(req))) else Run(Stepwise(s, t, req, ok, n - 1), t, ok)
  }

  lemma StepwiseMore(s: State, t: ThreadId, req: Request, ok: bool, n: nat, a: State, b: State)
    requires Stepwise(s, t, req, ok, n) == a && Run(a, t, ok) == b
    ensures Stepwise(s, t, req, ok, n + 1) == b
  {
  }

  lemma GotoAgain(s: State, v: Server, t: ThreadId, pc: Pc, w: Server, pc': Pc)
    ensures Goto(Goto(s, v, t, pc), w, t, pc') == Goto(s, w, t, pc')
  {
    assert s.threads[t := pc][t := pc'] == s.threads[t := pc'];
  }

  lemma OpeningLooks(s: State, t: ThreadId, req: Request, ok: bool)
    requires t !in s.threads && Lease(req) != "" && !s.server.draining && Complete(req)
    ensures Stepwise(s, t, req, ok, 2) == Goto(s, s.server, t,
              if KeyOf(req) in s.server.targets then Commit(req, s.server.targets[KeyOf(req)]) else StartDomain(req, true))
  {
    var s0, s1 := Goto(s, s.server, t, OpenStart(req)), Goto(s, s.server, t, Look(req, true));
    GotoAgain(s, s.server, t, OpenStart(req), s.server, Look(req, true));
    StepwiseMore(s, t, req, ok, 0, s0, s1);
    var pc := if KeyOf(req) in s.server.targets then Commit(req, s.server.targets[KeyOf(req)]) else StartDomain(req, true);
    GotoAgain(s, s.server, t, Look(req, true), s.server, pc);
    StepwiseMore(s, t, req, ok, 1, s1, Goto(s, s.server, t, pc));
  }

  lemma Commits(s: State, v: Server, t: ThreadId, req: Request, ok: bool, rec: RecId)
    ensures var (w, done) := CommitRegion(v, Lease(req), KeyOf(req), rec);
            Run(Goto(s, v, t, Commit(req, rec)), t, ok) == Goto(s, w, t, if done then Leased(Lease(req), rec) else Returned)
  {
    var (w, done) := CommitRegion(v, Lease(req), KeyOf(req), rec);
    GotoAgain(s, v, t, Commit(req, rec), w, if done then Leased(Lease(req), rec) else Returned);
  }

  lemma Creates(s: State, v: Server, t: ThreadId, req: Request, ok: bool)
    ensures var (w, rec) := CreateRegion(v, req);
            Run(Goto(s, v, t, Create(req, true)), t, ok) == Goto(s, w, t, if rec.Some? then Commit(req, rec.value) else Returned)
  {
    var (w, rec) := CreateRegion(v, req);
    GotoAgain(s, v, t, Create(req, true), w, Found(req, true, rec));
  }

  lemma StartsDomain(s: State, t: ThreadId, req: Request, ok: bool)
    ensures var (v, started) := DomainRegion(s.server, req, ok);
            Run(Goto(s, s.server, t, StartDomain(req, true)), t, ok) == Goto(s, v, t, if started then Create(req, true) else Returned)
  {
    var (v, started) := DomainRegion(s.server, req, ok);
    GotoAgain(s, s.server, t, StartDomain(req, true), v, if started then Create(req, true) else Returned);
  }

  /** The steps of an open, when nothing falls in between, are an open taken as one step: three
      for a target that exists, five for one that is created. */
  lemma StepwiseIsWhole(s: State, t: ThreadId, req: Request, ok: bool)
    requires t !in s.threads && Lease(req) != "" && !s.server.draining && Complete(req)
    requires KeyOf(req) in s.server.targets || Ensure(s.server, req, ok).1.Some?
    ensures Stepwise(s, t, req, ok, if KeyOf(req) in s.server.targets then 3 else 5) == Open(s, t, req, ok)
  {
    OpeningLooks(s, t, req, ok);
    if KeyOf(req) in s.server.targets {
      var rec := s.server.targets[KeyOf(req)];
      Commits(s, s.server, t, req, ok, rec);
      StepwiseMore(s, t, req, ok, 2, Goto(s, s.server, t, Commit(req, rec)), Open(s, t, req, ok));
    } else {
      var v := DomainRegion(s.server, req, ok).0;
      var (w, rec) := CreateRegion(v, req);
      StartsDomain(s, t, req, ok);
      StepwiseMore(s, t, req, ok, 2, Goto(s, s.server, t, StartDomain(req, true)), Goto(s, v, t, Create(req, true)));
      Creates(s, v, t, req, ok);
      StepwiseMore(s, t, req, ok, 3, Goto(s, v, t, Create(req, true)), Goto(s, w, t, Commit(req, rec.value)));
      Commits(s, w, t, req, ok, rec.value);
      StepwiseMore(s, t, req, ok, 4, Goto(s, w, t, Commit(req, rec.value)), Open(s, t, req, ok));
    }
  }

  // The target of the key, and the record of its name, are gone.
  predicate Ended(s: Server, k: Key, t: Target) {
    k !in s.targets && (t.manager in s.domains ==> Domain.Lookup(s.domains[t.manager].records, t.domain) == None)
  }

  lemma LastReleased(s: Server, lease: LeaseId)
    requires CountsExact(s) && lease in s.sessions && Leases(s, s.sessions[lease]) == {lease}
    ensures var s1, k := ReleaseRegion(s, lease).0, s.sessions[lease];
            && lease !in s1.sessions && s1.targets == s.targets && s1.domains == s.domains && s1.draining == s.draining
            && k in s1.targets && s1.targets[k] in s1.recs && s1.recs[s1.targets[k]] == s.recs[s.targets[k]].(sessions := 0)
  {
    assert |Leases(s, s.sessions[lease])| == 1;
  }

  /** With a grace period: when the last lease of a key is released its target stays until the
      timer, which ends it; its name is then unregistered, and the daemon drains if nothing
      else is left. */
  lemma LastLeaseEnds(s: State, t: ThreadId, ok: bool)
    requires CountsExact(s.server) && s.grace && t in s.threads && s.threads[t].Leased? && s.threads[t].lease in s.server.sessions
    requires Leases(s.server, s.server.sessions[s.threads[t].lease]) == {s.threads[t].lease}
    ensures var lease := s.threads[t].lease; var k := s.server.sessions[lease];
            var s1 := Run(s, t, ok); var s2 := Run(s1, t, ok); var s3 := Run(s2, t, ok);
            && lease !in s1.server.sessions && s1.server.targets == s.server.targets && s1.server.domains == s.server.domains
            && k in s.server.targets && s.server.targets[k] in s.server.recs
            && Ended(s3.server, k, s.server.recs[s.server.targets[k]]) && s3.threads[t] == Returned
            && (s3.server.draining <==> s.server.draining || (s1.server.sessions == map[] && s.server.targets - {k} == map[]))
  {
    var lease := s.threads[t].lease;
    var k := s.server.sessions[lease];
    LastReleased(s.server, lease);
    var s1 := Run(s, t, ok);
    assert s1.threads[t] == Timer(k);
    TimerEnds(s1, t, k, ok);
  }

  lemma TimerEnds(s: State, t: ThreadId, k: Key, ok: bool)
    requires t in s.threads && s.threads[t] == Timer(k) && k in s.server.targets && s.server.targets[k] in s.server.recs
    requires s.server.recs[s.server.targets[k]].sessions == 0
    ensures var s1 := Run(s, t, ok); var s2 := Run(s1, t, ok);
            && Ended(s2.server, k, s.server.recs[s.server.targets[k]]) && s2.threads[t] == Returned
            && (s2.server.draining <==> s.server.draining || (s.server.sessions == map[] && s.server.targets - {k} == map[]))
  {
    var x := s.server.recs[s.server.targets[k]];
    var s1 := Run(s, t, ok);
    assert s1.threads[t] == Owing(x.manager, x.domain) && s1.server.targets == s.server.targets - {k};
  }

  /** Without one the target ends with the release. */
  lemma LastLeaseEndsNow(s: State, t: ThreadId, ok: bool)
    requires CountsExact(s.server) && !s.grace && t in s.threads && s.threads[t].Leased? && s.threads[t].lease in s.server.sessions
    requires Leases(s.server, s.server.sessions[s.threads[t].lease]) == {s.threads[t].lease}
    ensures var lease := s.threads[t].lease; var k := s.server.sessions[lease];
            var s1 := Run(s, t, ok); var s2 := Run(s1, t, ok);
            && lease !in s2.server.sessions && k in s.server.targets && s.server.targets[k] in s.server.recs
            && Ended(s2.server, k, s.server.recs[s.server.targets[k]]) && s2.threads[t] == Returned
            && (s2.server.draining <==> s.server.draining || s1.server.sessions == map[])
  {
    var lease := s.threads[t].lease;
    var k := s.server.sessions[lease];
    LastReleased(s.server, lease);
    var x := s.server.recs[s.server.targets[k]];
    var s1 := Run(s, t, ok);
    assert s1.threads[t] == Owing(x.manager, x.domain) && s1.server.targets == s.server.targets - {k};
  }

  /** The startup timer drains a daemon that has no lease, and no other. */
  lemma StartupDrainsIff(s: State)
    ensures Apply(s, StartupTimer) == s.(server := s.server.(draining := s.server.draining || s.server.sessions == map[]))
  {
  }

  // ----- draining

  predicate NoShutdown(steps: seq<Step>) {
    forall i :: 0 <= i < |steps| ==> !steps[i].Shutdown?
  }

  // A draining daemon has no leases, and goes on draining.
  ghost predicate Drains(s: Server, s': Server) {
    (s'.draining ==> s'.sessions == map[]) && (s.draining ==> s'.draining)
  }

  lemma DrainingRegions(s: Server, lease: LeaseId, key: Key, rec: RecId, m: DomainKey, name: string)
    requires s.draining ==> s.sessions == map[]
    ensures Drains(s, CommitRegion(s, lease, key, rec).0)
    ensures Drains(s, ReleaseRegion(s, lease).0)
    ensures Drains(s, ReleaseNowRegion(s, lease).0)
    ensures Drains(s, CleanupRegion(s, key).0)
    ensures Drains(s, UnregisterRegion(s, m, name))
  {
  }

  lemma DrainingRun(s: State, t: ThreadId, ok: bool)
    requires t in s.threads && TargetsSound(s.server) && (s.server.draining ==> s.server.sessions == map[])
    ensures Drains(s.server, Run(s, t, ok).server)
  {
    match s.threads[t]
    case StartDomain(req, _) => DomainFrame(s.server, req, ok);
    case Create(req, _) => CreateAdds(s.server, req);
    case Commit(req, rec) => DrainingRegions(s.server, Lease(req), KeyOf(req), rec, ("", ""), "");
    case Leased(lease, _) => DrainingRegions(s.server, lease, "", 0, ("", ""), "");
    case Timer(key) => DrainingRegions(s.server, "", key, 0, ("", ""), "");
    case Owing(m, name) => DrainingRegions(s.server, "", "", 0, m, name);
    case _ =>
  }

  lemma EnsureDraining(s: Server, req: Request, ok: bool)
    requires TargetsSound(s)
    ensures var s' := Ensure(s, req, ok).0; s'.sessions == s.sessions && s'.draining == s.draining
  {
    DomainFrame(s, req, ok);
    CreateAdds(DomainRegion(s, req, ok).0, req);
  }

  lemma DrainingOpen(s: State, t: ThreadId, req: Request, ok: bool)
    requires TargetsSound(s.server) && (s.server.draining ==> s.server.sessions == map[])
    ensures Drains(s.server, Open(s, t, req, ok).server)
  {
    EnsureDraining(s.server, req, ok);
    var (server, rec) := Ensure(s.server, req, ok);
    if rec.Some? {
      DrainingRegions(server, Lease(req), KeyOf(req), rec.value, ("", ""), "");
    }
  }

  lemma TargetsAlwaysSound(grace: bool, steps: seq<Step>)
    ensures TargetsSound(Exec(Init(grace), steps).server)
  {
    AlwaysSound(grace, steps);
  }

  /** Without an explicit shutdown request, a draining daemon has no leases, from
      then on. */
  lemma {:induction false} DrainingMeansNoLeases(grace: bool, steps: seq<Step>)
    requires NoShutdown(steps)
    ensures var s := Exec(Init(grace), steps).server; s.draining ==> s.sessions == map[]
    ensures steps != [] && Exec(Init(grace), steps[..|steps| - 1]).server.draining ==> Exec(Init(grace), steps).server.draining
  {
    if steps != [] {
      var n := |steps| - 1;
      DrainingMeansNoLeases(grace, steps[..n]);
      TargetsAlwaysSound(grace, steps[..n]);
      var s := Exec(Init(grace), steps[..n]);
      match steps[n]
      case Advance(t, ok) =>
        if t in s.threads {
          DrainingRun(s, t, ok);
        }
      case OpenWhole(t, req, ok) => DrainingOpen(s, t, req, ok);
      case Call(_, _) =>
      case StartupTimer =>
      case Shutdown =>
    }
  }

  // ----- handoff

  // The grace timer of `key` fires at this step.
  predicate Fires(s: State, step: Step, key: Key) {
    step.Advance? && step.t in s.threads && s.threads[step.t] == Timer(key)
  }

  predicate Idle(s: Server, key: Key) {
    key in s.targets && s.targets[key] in s.recs && s.recs[s.targets[key]].sessions == 0
  }

  // The guard of cleanupIdleTarget holds when the timer fires.
  predicate Expires(s: State, step: Step, key: Key) { Fires(s, step, key) && Idle(s.server, key) }

  ghost predicate NeverExpires(s: State, steps: seq<Step>, key: Key) {
    forall i :: 0 <= i < |steps| ==> !Expires(Exec(s, steps[..i]), steps[i], key)
  }

  ghost predicate SameTarget(s: Server, s': Server, key: Key) {
    && key in s.targets && key in s'.targets && s'.targets[key] == s.targets[key]
    && s.targets[key] in s.recs && s.targets[key] in s'.recs
    && s'.recs[s.targets[key]].domain == s.recs[s.targets[key]].domain
    && ListenIP(s'.recs[s.targets[key]]) == ListenIP(s.recs[s.targets[key]])
  }

  lemma KeptTarget(s: Server, s': Server, key: Key)
    requires Keeps(s, s') && key in s.targets && s.targets[key] in s.recs
    ensures SameTarget(s, s', key)
  {
  }

  lemma CreatedTarget(s: Server, s': Server, rec: Option<RecId>, req: Request, key: Key)
    requires TargetsSound(s) && Created(s, s', rec, req) && key in s.targets
    ensures SameTarget(s, s', key)
  {
    assert s.targets[key] in s.recs;
  }

  lemma HandoffRun(s: State, t: ThreadId, ok: bool, key: Key)
    requires s.grace && TargetsSound(s.server) && key in s.server.targets
    requires t in s.threads && (s.threads[t] == Timer(key) ==> !Idle(s.server, key))
    ensures SameTarget(s.server, Run(s, t, ok).server, key)
  {
    assert s.server.targets[key] in s.server.recs;
    match s.threads[t]
    case StartDomain(req, _) =>
      RegionsKeep(s.server, req, ok, "", "", 0);
      KeptTarget(s.server, DomainRegion(s.server, req, ok).0, key);
    case Create(req, _) =>
      CreateAdds(s.server, req);
      CreatedTarget(s.server, CreateRegion(s.server, req).0, CreateRegion(s.server, req).1, req, key);
    case Commit(req, rec) =>
      RegionsKeep(s.server, req, ok, Lease(req), KeyOf(req), rec);
      KeptTarget(s.server, CommitRegion(s.server, Lease(req), KeyOf(req), rec).0, key);
    case Leased(lease, _) =>
      RegionsKeep(s.server, Request("", "", "", "", [], "", "", ""), ok, lease, "", 0);
      KeptTarget(s.server, ReleaseRegion(s.server, lease).0, key);
    case Timer(other) =>
    case Owing(m, name) =>
    case _ =>
  }

  lemma HandoffEnsure(s: Server, req: Request, ok: bool, key: Key)
    requires TargetsSound(s) && key in s.targets
    ensures SameTarget(s, Ensure(s, req, ok).0, key)
  {
    assert s.targets[key] in s.recs;
    var (s1, started) := DomainRegion(s, req, ok);
    DomainFrame(s, req, ok);
    if Complete(req) && LookRegion(s, req).None? && started {
      CreateAdds(s1, req);
      CreatedTarget(s1, CreateRegion(s1, req).0, CreateRegion(s1, req).1, req, key);
    }
  }

  lemma HandoffOpen(s: State, t: ThreadId, req: Request, ok: bool, key: Key)
    requires TargetsSound(s.server) && key in s.server.targets
    ensures SameTarget(s.server, Open(s, t, req, ok).server, key)
  {
    assert s.server.targets[key] in s.server.recs;
    HandoffEnsure(s.server, req, ok, key);
    var (server, rec) := Ensure(s.server, req, ok);
    if rec.Some? {
      RegionsKeep(server, req, ok, Lease(req), KeyOf(req), rec.value);
      KeptTarget(server, CommitRegion(server, Lease(req), KeyOf(req), rec.value).0, key);
    }
  }

  lemma HandoffStep(s: State, step: Step, key: Key)
    requires s.grace && TargetsSound(s.server) && key in s.server.targets && !Expires(s, step, key)
    ensures SameTarget(s.server, Apply(s, step).server, key)
  {
    assert s.server.targets[key] in s.server.recs;
    match step
    case OpenWhole(t, req, ok) => HandoffOpen(s, t, req, ok, key);
    case Advance(t, ok) =>
      if t in s.threads {
        HandoffRun(s, t, ok, key);
      }
    case _ =>
  }

  lemma ExecConcat(s: State, a: seq<Step>, b: seq<Step>)
    ensures Exec(s, a + b) == Exec(Exec(s, a), b)
    decreases |b|
  {
    if b == [] {
      assert a + b == a;
    } else {
      ExecConcat(s, a, b[..|b| - 1]);
      assert (a + b)[..|a + b| - 1] == a + b[..|b| - 1];
    }
  }

  // Record numbers only grow: no key's target is replaced, and those of others are new.
  ghost predicate TargetsMove(s: Server, s': Server) {
    s.next <= s'.next && forall k :: k in s'.targets ==> if k in s.targets then s'.targets[k] == s.targets[k] else s'.targets[k] >= s.next
  }

  lemma EnsureMoves(s: Server, req: Request, ok: bool)
    requires TargetsSound(s)
    ensures TargetsMove(s, Ensure(s, req, ok).0)
  {
    DomainFrame(s, req, ok);
    CreateAdds(DomainRegion(s, req, ok).0, req);
  }

  lemma OpeningMoves(s: State, t: ThreadId, ok: bool)
    requires TargetsSound(s.server) && t in s.threads
    requires var pc := s.threads[t]; pc.StartDomain? || pc.Create? || pc.Commit?
    ensures TargetsMove(s.server, Run(s, t, ok).server)
  {
    match s.threads[t]
    case StartDomain(req, _) => DomainKeeps(s.server, req, ok);
    case Create(req, _) => CreateAdds(s.server, req);
    case Commit(req, rec) => CommitKeeps(s.server, Lease(req), KeyOf(req), rec);
  }

  lemma RunMoves(s: State, t: ThreadId, ok: bool)
    requires TargetsSound(s.server) && t in s.threads
    ensures TargetsMove(s.server, Run(s, t, ok).server)
  {
    var pc := s.threads[t];
    if pc.StartDomain? || pc.Create? || pc.Commit? {
      OpeningMoves(s, t, ok);
    } else if pc.Leased? {
      ReleaseKeeps(s.server, pc.lease);
    }
  }

  lemma StepMoves(s: State, step: Step)
    requires TargetsSound(s.server)
    ensures TargetsMove(s.server, Apply(s, step).server)
  {
    match step
    case OpenWhole(t, req, ok) =>
      EnsureMoves(s.server, req, ok);
      var (server, rec) := Ensure(s.server, req, ok);
      if rec.Some? {
        CommitKeeps(server, Lease(req), KeyOf(req), rec.value);
      }
    case Advance(t, ok) =>
      if t in s.threads {
        RunMoves(s, t, ok);
      }
    case _ =>
  }

  // The key no longer has the record, and never will again.
  predicate Gone(s: Server, key: Key, rec: RecId) { rec < s.next && (key in s.targets ==> s.targets[key] != rec) }

  // How the target of `key` fares from a state to a later one.
  ghost predicate Fares(s: State, more: seq<Step>, s': State, key: Key) {
    && key in s.server.targets
    && (if NeverExpires(s, more, key) then SameTarget(s.server, s'.server, key)
        else Gone(s'.server, key, s.server.targets[key]))
  }

  lemma NeverExpiresStep(s: State, more: seq<Step>, n: nat, key: Key)
    requires |more| == n + 1
    ensures NeverExpires(s, more, key) <==> NeverExpires(s, more[..n], key) && !Expires(Exec(s, more[..n]), more[n], key)
  {
    assert forall i :: 0 <= i < n ==> more[..n][..i] == more[..i] && more[..n][i] == more[i];
  }

  lemma FaresStep(s: State, more: seq<Step>, n: nat, key: Key, mid: State)
    requires |more| == n + 1 && mid == Exec(s, more[..n]) && Fares(s, more[..n], mid, key)
    requires mid.grace && TargetsSound(s.server) && TargetsSound(mid.server)
    ensures Fares(s, more, Apply(mid, more[n]), key)
  {
    NeverExpiresStep(s, more, n, key);
    var s' := Apply(mid, more[n]);
    if NeverExpires(s, more, key) {
      HandoffStep(mid, more[n], key);
      SameTargetThen(s.server, mid.server, s'.server, key);
    } else if NeverExpires(s, more[..n], key) {
      Expired(mid, more[n], key);
    } else {
      StepMoves(mid, more[n]);
      GoneStays(mid.server, s'.server, key, s.server.targets[key]);
    }
  }

  lemma GoneStays(s: Server, s': Server, key: Key, rec: RecId)
    requires Gone(s, key, rec) && TargetsMove(s, s')
    ensures Gone(s', key, rec)
  {
  }

  lemma Expired(s: State, step: Step, key: Key)
    requires TargetsSound(s.server) && Expires(s, step, key)
    ensures Gone(Apply(s, step).server, key, s.server.targets[key])
  {
  }

  lemma SameTargetThen(a: Server, b: Server, c: Server, key: Key)
    requires SameTarget(a, b, key) && SameTarget(b, c, key)
    ensures SameTarget(a, c, key)
  {
  }

  lemma {:induction false} TargetFares(steps: seq<Step>, more: seq<Step>, key: Key)
    requires key in Exec(Init(true), steps).server.targets
    ensures Fares(Exec(Init(true), steps), more, Exec(Init(true), steps + more), key)
    decreases |more|
  {
    TargetsAlwaysSound(true, steps);
    if more == [] {
      assert steps + more == steps;
    } else {
      var n := |more| - 1;
      TargetFares(steps, more[..n], key);
      TargetsAlwaysSound(true, steps + more[..n]);
      GraceIsFixed(steps + more[..n]);
      ExecConcat(Init(true), steps, more[..n]);
      FaresStep(Exec(Init(true), steps), more, n, key, Exec(Init(true), steps + more[..n]));
      assert (steps + more)[..|steps + more| - 1] == steps + more[..n];
    }
  }

  /** A key keeps its target, with its name and address, if and only if none of its grace
      timers fires while the target's count is zero: for all schedules, opens split or
      not, however many leases come and go. */
  lemma HandoffKeepsTargetIff(steps: seq<Step>, more: seq<Step>, key: Key)
    requires key in Exec(Init(true), steps).server.targets
    ensures SameTarget(Exec(Init(true), steps).server, Exec(Init(true), steps + more).server, key)
            <==> NeverExpires(Exec(Init(true), steps), more, key)
  {
    TargetFares(steps, more, key);
  }

  // Whenever a timer of the key fires, some lease is held on it.
  ghost predicate FiresUnderLease(s: State, steps: seq<Step>, key: Key) {
    forall i :: 0 <= i < |steps| && Fires(Exec(s, steps[..i]), steps[i], key) ==> Leases(Exec(s, steps[..i]).server, key) != {}
  }

  /** With opens that nothing interleaves with, that is: a lease is held whenever an old
      timer fires.  So a hand-over before the timer keeps name and address through it. */
  lemma HandoverOutlivesTimers(steps: seq<Step>, more: seq<Step>, key: Key)
    requires WholeOpens(steps + more) && key in Exec(Init(true), steps).server.targets
    ensures SameTarget(Exec(Init(true), steps).server, Exec(Init(true), steps + more).server, key)
            <==> FiresUnderLease(Exec(Init(true), steps), more, key)
  {
    var s := Exec(Init(true), steps);
    forall i | 0 <= i < |more| && Fires(Exec(s, more[..i]), more[i], key) && NeverExpires(s, more[..i], key)
      ensures Expires(Exec(s, more[..i]), more[i], key) <==> Leases(Exec(s, more[..i]).server, key) == {}
    {
      FiringIsExact(steps, more, i, key);
    }
    TargetFares(steps, more, key);
    if !NeverExpires(s, more, key) {
      var i := FirstExpiry(s, more, key);
    } else {
      forall i | 0 <= i < |more| ensures NeverExpires(s, more[..i], key) {
        NeverExpiresPrefix(s, more, i, key);
      }
    }
  }

  lemma NeverExpiresPrefix(s: State, more: seq<Step>, n: nat, key: Key)
    requires NeverExpires(s, more, key) && n <= |more|
    ensures NeverExpires(s, more[..n], key)
  {
    assert forall i :: 0 <= i < n ==> more[..n][..i] == more[..i] && more[..n][i] == more[i];
  }

  lemma {:induction false} FirstExpiry(s: State, more: seq<Step>, key: Key) returns (i: nat)
    requires !NeverExpires(s, more, key)
    ensures i < |more| && NeverExpires(s, more[..i], key) && Expires(Exec(s, more[..i]), more[i], key)
    decreases |more|
  {
    var n := |more| - 1;
    NeverExpiresStep(s, more, n, key);
    if NeverExpires(s, more[..n], key) {
      i := n;
    } else {
      i := FirstExpiry(s, more[..n], key);
      assert more[..n][..i] == more[..i];
    }
  }

  lemma FiringIsExact(steps: seq<Step>, more: seq<Step>, i: nat, key: Key)
    requires WholeOpens(steps + more) && key in Exec(Init(true), steps).server.targets && i < |more|
    requires var s := Exec(Init(true), steps); NeverExpires(s, more[..i], key) && Fires(Exec(s, more[..i]), more[i], key)
    ensures var v := Exec(Exec(Init(true), steps), more[..i]);
            Expires(v, more[i], key) <==> Leases(v.server, key) == {}
  {
    TargetFares(steps, more[..i], key);
    assert steps + more[..i] == (steps + more)[..|steps| + i];
    WholeOpensCountExactly(true, steps + more[..i]);
    ExecConcat(Init(true), steps, more[..i]);
  }

  lemma {:induction false} GraceIsFixed(steps: seq<Step>)
    ensures Exec(Init(true), steps).grace
  {
    if steps != [] {
      GraceIsFixed(steps[..|steps| - 1]);
    }
  }

  // ----- a split open can lose its target

  // One more step of a schedule from Init(true).
  lemma Then(steps: seq<Step>, s: State, step: Step) returns (steps': seq<Step>, s': State)
    requires s == Exec(Init(true), steps)
    ensures s' == Apply(s, step) && s' == Exec(Init(true), steps')
  {
    steps', s' := steps + [step], Apply(s, step);
    assert steps'[..|steps|] == steps;
  }

  lemma FirstOpen(s: State, t: ThreadId, req: Request)
    requires TargetsSound(s.server) && FreeSlot(Used(s.server), 0).Some?
    requires t !in s.threads && Complete(req) && Domain.Normalize(req.domainSuffix) != ""
    requires Lease(req) != "" && Lease(req) !in s.server.sessions && KeyOf(req) !in s.server.targets && !s.server.draining
    ensures var v, s' := s.server, Open(s, t, req, true);
            && s'.grace == s.grace && s'.threads == s.threads[t := Leased(Lease(req), v.next)]
            && s'.server.targets == v.targets[KeyOf(req) := v.next] && s'.server.sessions == v.sessions[Lease(req) := KeyOf(req)]
            && !s'.server.draining && s'.server.next == v.next + 1
            && v.next in s'.server.recs && s'.server.recs[v.next].sessions == 1
            && forall r: RecId :: r in v.recs ==> r in s'.server.recs && s'.server.recs[r] == v.recs[r]
  {
    var (s1, started) := DomainRegion(s.server, req, true);
    DomainFrame(s.server, req, true);
    CreateAdds(s1, req);
    var s2 := CreateRegion(s1, req).0;
    assert Used(s1) == Used(s.server);
    assert s2.targets == s.server.targets[KeyOf(req) := s.server.next];
  }

  const ReqA := Request("a1", "", "A", "ssh", [], "a", "d", "addr")
  const ReqA2 := ReqA.(leaseId := "a2")
  const ReqB := Request("b1", "", "B", "ssh", [], "b", "d", "addr")

  lemma TwoTargets() returns (steps: seq<Step>, s: State)
    ensures s == Exec(Init(true), steps)
    ensures s.grace && s.threads == map[0 := Leased("a1", 0), 1 := Leased("b1", 1)] && !s.server.draining
    ensures s.server.targets == map["A" := 0, "B" := 1] && s.server.sessions == map["a1" := "A", "b1" := "B"]
    ensures 0 in s.server.recs && s.server.recs[0].sessions == 1
  {
    s, steps := Init(true), [];
    assert Used(s.server) == {};
    assert Text.TrimLeft("d", Text.Space) == "d" && Text.TrimLeft("d", {'.'}) == "d";
    assert Domain.Normalize("d") != "";
    FirstOpen(s, 0, ReqA);
    steps, s := Then(steps, s, OpenWhole(0, ReqA, true));
    TargetsAlwaysSound(true, steps);
    assert s.server.targets == map["A" := 0] && s.server.sessions == map["a1" := "A"];
    assert Used(s.server) == {s.server.recs[0].slot};
    assert FreeSlot(Used(s.server), 0).Some?;
    assert s.server.recs[0].sessions == 1;
    var before := s;
    FirstOpen(s, 1, ReqB);
    steps, s := Then(steps, s, OpenWhole(1, ReqB, true));
  }

  // A second open of key A has found its target and not yet committed.
  lemma HalfOpen() returns (steps: seq<Step>, s: State)
    ensures s == Exec(Init(true), steps)
    ensures s.grace && !s.server.draining
    ensures s.threads == map[0 := Leased("a1", 0), 1 := Leased("b1", 1), 2 := Commit(ReqA2, 0)]
    ensures s.server.targets == map["A" := 0, "B" := 1] && s.server.sessions == map["a1" := "A", "b1" := "B"]
    ensures 0 in s.server.recs && s.server.recs[0].sessions == 1
  {
    steps, s := TwoTargets();
    steps, s := Then(steps, s, Call(2, OpenStart(ReqA2)));
    assert s.threads[2] == OpenStart(ReqA2);
    steps, s := Then(steps, s, Advance(2, true));
    assert s.threads[2] == Look(ReqA2, true);
    steps, s := Then(steps, s, Advance(2, true));
  }

  // Meanwhile the first lease ends and its timer fires.
  lemma HalfOpenExpired() returns (steps: seq<Step>, s: State)
    ensures s == Exec(Init(true), steps)
    ensures !s.server.draining && 2 in s.threads && s.threads[2] == Commit(ReqA2, 0)
    ensures "A" !in s.server.targets && s.server.sessions == map["b1" := "B"]
  {
    steps, s := HalfOpen();
    steps, s := Then(steps, s, Advance(0, true));
    assert s.threads[0] == Timer("A") && s.threads[2] == Commit(ReqA2, 0);
    assert s.server.sessions == map["b1" := "B"] && s.server.targets == map["A" := 0, "B" := 1];
    assert s.server.recs[0].sessions == 0 && "b1" in s.server.sessions;
    steps, s := Then(steps, s, Advance(0, true));
  }

  /** With the two halves of an open apart, a grace timer can fire in between: the
      lease is then committed to a target that is gone. */
  lemma SplitOpenLosesTarget() returns (steps: seq<Step>)
    ensures var s := Exec(Init(true), steps).server; "a2" in s.sessions && s.sessions["a2"] !in s.targets
  {
    var s;
    steps, s := HalfOpenExpired();
    steps, s := Then(steps, s, Advance(2, true));
  }
}
