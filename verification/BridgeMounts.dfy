/**
 internal/bridge/remotefs.go: the mounts a server makes for its sessions, one per
 session, and their removal.

 Handlers of mount.create and mount.release share the tables under s.mu.  Each
 critical section and each call into the driver is one atomic step; `Exec` runs an
 arbitrary schedule.  The driver may refuse to mount and may fail to unmount.
 */
module BridgeMounts {
  type SessionId = string
  type MountId = string
  type Handle = nat
  type Chan = nat
  type ThreadId = nat

  // ----- the fields behind s.mu

  datatype LifetimeMount = LifetimeMount(handle: Handle, mountID: MountId)

  datatype Table = Table(
    fsMounting: set<SessionId>,
    fsMounts: map<SessionId, LifetimeMount>,
    fsUnmounting: map<SessionId, Chan>,
    draining: bool)

  // mountRemoteFS: the reservation that keeps a second mount of the session out.
  function ReserveRegion(tb: Table, k: SessionId): (Table, bool) {
    if k in tb.fsMounting || k in tb.fsMounts then (tb, false) else (tb.(fsMounting := tb.fsMounting + {k}), true)
  }

  // The reservation ends without a mount.
  function AbandonRegion(tb: Table, k: SessionId): Table { tb.(fsMounting := tb.fsMounting - {k}) }

  // `gone`: the peer has closed or the request was cancelled.
  function RecordRegion(tb: Table, k: SessionId, m: LifetimeMount, gone: bool): (Table, bool) {
    var tb' := AbandonRegion(tb, k);
    if tb.draining || gone then (tb', false) else (tb'.(fsMounts := tb'.fsMounts[k := m]), true)
  }

  datatype Begin = Busy | Nothing | WaitFor(ch: Chan) | Mine(handle: Handle)

  // unmountRemoteFS: the head of its loop, one caller removes and the others wait.
  function BeginUnmountRegion(tb: Table, k: SessionId, id: MountId, ch: Chan): (Table, Begin) {
    if k in tb.fsMounting then (tb, Busy)
    else if k !in tb.fsMounts || tb.fsMounts[k].mountID != id then (tb, Nothing)
    else if k in tb.fsUnmounting then (tb, WaitFor(tb.fsUnmounting[k]))
    else (tb.(fsUnmounting := tb.fsUnmounting[k := ch]), Mine(tb.fsMounts[k].handle))
  }

  // The removal ends; the mount stays when it could not be unmounted.
  function EndUnmountRegion(tb: Table, k: SessionId, ok: bool): Table {
    tb.(fsMounts := if ok then tb.fsMounts - {k} else tb.fsMounts, fsUnmounting := tb.fsUnmounting - {k})
  }

  class Server {
    var fsMounting: set<SessionId>
    var fsMounts: map<SessionId, LifetimeMount>
    var fsUnmounting: map<SessionId, Chan>
    var draining: bool

    function View(): Table
      reads this
    {
      Table(fsMounting, fsMounts, fsUnmounting, draining)
    }

    constructor ()
      ensures View() == Table({}, map[], map[], false)
    {
      fsMounting, fsMounts, fsUnmounting, draining := {}, map[], map[], false;
    }

    method Reserve(k: SessionId) returns (ok: bool)
      modifies this
      ensures (View(), ok) == ReserveRegion(old(View()), k)
      ensures ok <==> k !in old(fsMounting) && k !in old(fsMounts)
      ensures ok ==> k in fsMounting
    {
      if k in fsMounting || k in fsMounts {
        return false;
      }
      fsMounting := fsMounting + {k};
      ok := true;
    }

    method Abandon(k: SessionId)
      modifies this
      ensures View() == AbandonRegion(old(View()), k)
      ensures k !in fsMounting
    {
      fsMounting := fsMounting - {k};
    }

    method Record(k: SessionId, m: LifetimeMount, gone: bool) returns (recorded: bool)
      modifies this
      ensures (View(), recorded) == RecordRegion(old(View()), k, m, gone)
      ensures k !in fsMounting && (recorded <==> !draining && !gone)
      ensures recorded ==> k in fsMounts && fsMounts[k] == m
    {
      fsMounting := fsMounting - {k};
      if draining || gone {
        return false;
      }
      fsMounts := fsMounts[k := m];
      recorded := true;
    }

    method BeginUnmount(k: SessionId, id: MountId, ch: Chan) returns (begin: Begin)
      modifies this
      ensures (View(), begin) == BeginUnmountRegion(old(View()), k, id, ch)
      ensures begin.Mine? <==> k !in old(fsMounting) && k in old(fsMounts) && old(fsMounts)[k].mountID == id && k !in old(fsUnmounting)
      ensures begin.Mine? ==> begin.handle == fsMounts[k].handle && k in fsUnmounting && fsUnmounting[k] == ch
    {
      if k in fsMounting {
        return Busy;
      }
      if k !in fsMounts || fsMounts[k].mountID != id {
        return Nothing;
      }
      if k in fsUnmounting {
        return WaitFor(fsUnmounting[k]);
      }
      fsUnmounting := fsUnmounting[k := ch];
      begin := Mine(fsMounts[k].handle);
    }

    method EndUnmount(k: SessionId, ok: bool)
      modifies this
      ensures View() == EndUnmountRegion(old(View()), k, ok)
      ensures k !in fsUnmounting && (k in fsMounts <==> k in old(fsMounts) && !ok)
    {
      if ok {
        fsMounts := fsMounts - {k};
      }
      fsUnmounting := fsUnmounting - {k};
    }
  }

  // ----- handlers

  datatype Pc =
    | MountStart(k: SessionId, id: MountId)
    | Mounting(k: SessionId, id: MountId)                 // about to call MountLocal
    | Failing(k: SessionId)                               // it failed
    | Mounted(k: SessionId, id: MountId, h: Handle)
    | Undoing(k: SessionId, h: Handle)                    // lost the race: about to unmount
    | UnmountStart(k: SessionId, id: MountId)
    | Waiting(k: SessionId, id: MountId, ch: Chan)
    | Detaching(k: SessionId, h: Handle, ch: Chan)        // about to call Unmount
    | Ending(k: SessionId, h: Handle, ch: Chan, ok: bool)
    | Returned

  // `detached` counts the Unmount calls that succeeded, `closes` the closes of a
  // channel; `lost` holds the mounts that a race loser failed to unmount, and whose.
  datatype State = State(
    table: Table,
    threads: map<ThreadId, Pc>,
    next: Handle,
    nextChan: Chan,
    detached: map<Handle, nat>,
    lost: map<Handle, SessionId>,
    closes: map<Chan, nat>)

  const Init := State(Table({}, map[], map[], false), map[], 0, 0, map[], map[], map[])

  function Goto(s: State, t: ThreadId, pc: Pc): State { s.(threads := s.threads[t := pc]) }

  function Detachments(s: State, h: Handle): nat { if h in s.detached then s.detached[h] else 0 }

  function Closes(s: State, ch: Chan): nat { if ch in s.closes then s.closes[ch] else 0 }

  function Detach(s: State, h: Handle): State { s.(detached := s.detached[h := Detachments(s, h) + 1]) }

  function BeginStep(s: State, t: ThreadId, k: SessionId, id: MountId): State {
    var (table, begin) := BeginUnmountRegion(s.table, k, id, s.nextChan);
    match begin
    case Busy => Goto(s, t, Returned)
    case Nothing => Goto(s, t, Returned)
    case WaitFor(ch) => Goto(s, t, Waiting(k, id, ch))
    case Mine(h) => Goto(s.(table := table, nextChan := s.nextChan + 1), t, Detaching(k, h, s.nextChan))
  }

  function EndStep(s: State, t: ThreadId, k: SessionId, ch: Chan, ok: bool): State {
    Goto(s.(table := EndUnmountRegion(s.table, k, ok), closes := s.closes[ch := Closes(s, ch) + 1]), t, Returned)
  }

  // `ok`: the driver's call succeeds, or the request is still wanted.
  function Run(s: State, t: ThreadId, ok: bool): State {
    if t !in s.threads then s else
    match s.threads[t]
    case MountStart(k, id) =>
      var (table, reserved) := ReserveRegion(s.table, k);
      Goto(s.(table := table), t, if reserved then Mounting(k, id) else Returned)
    case Mounting(k, id) =>
      if ok then Goto(s.(next := s.next + 1), t, Mounted(k, id, s.next)) else Goto(s, t, Failing(k))
    case Failing(k) => Goto(s.(table := AbandonRegion(s.table, k)), t, Returned)
    case Mounted(k, id, h) =>
      var (table, recorded) := RecordRegion(s.table, k, LifetimeMount(h, id), !ok);
      Goto(s.(table := table), t, if recorded then Returned else Undoing(k, h))
    case Undoing(k, h) => Goto(if ok then Detach(s, h) else s.(lost := s.lost[h := k]), t, Returned)
    case UnmountStart(k, id) => BeginStep(s, t, k, id)
    case Waiting(k, id, ch) =>
      if Closes(s, ch) > 0 then Goto(s, t, UnmountStart(k, id)) else if ok then s else Goto(s, t, Returned)
    case Detaching(k, h, ch) => Goto(if ok then Detach(s, h) else s, t, Ending(k, h, ch, ok))
    case Ending(k, _, ch, ok) => EndStep(s, t, k, ch, ok)
    case Returned => s
  }

  datatype Step = Call(t: ThreadId, entry: Pc) | Advance(t: ThreadId, ok: bool) | Drain

  predicate IsEntry(pc: Pc) { pc.MountStart? || pc.UnmountStart? }

  function Apply(s: State, step: Step): State {
    match step
    case Call(t, entry) => if t in s.threads || !IsEntry(entry) then s else Goto(s, t, entry)
    case Advance(t, ok) => Run(s, t, ok)
    case Drain => s.(table := s.table.(draining := true))
  }

  function Exec(s: State, steps: seq<Step>): State
    decreases |steps|
  {
    if steps == [] then s else Apply(Exec(s, steps[..|steps| - 1]), steps[|steps| - 1])
  }

  // ----- one mount or reservation per session

  ghost predicate Reserves(s: State, t: ThreadId, k: SessionId) {
    t in s.threads && (s.threads[t].Mounting? || s.threads[t].Failing? || s.threads[t].Mounted?) && s.threads[t].k == k
  }

  ghost predicate Removes(s: State, t: ThreadId, k: SessionId) {
    t in s.threads && (s.threads[t].Detaching? || s.threads[t].Ending?) && s.threads[t].k == k
  }

  ghost predicate OneReservation(s: State) {
    && s.table.fsMounting !! s.table.fsMounts.Keys
    && (forall t: ThreadId, k :: Reserves(s, t, k) ==> k in s.table.fsMounting)
    && (forall t: ThreadId, u: ThreadId, k :: Reserves(s, t, k) && Reserves(s, u, k) ==> t == u)
    && (forall k :: k in s.table.fsMounting ==> exists t: ThreadId :: Reserves(s, t, k))
  }

  ghost predicate OneRemoval(s: State) {
    && (forall t: ThreadId, k :: Removes(s, t, k) ==>
          && k in s.table.fsUnmounting && s.table.fsUnmounting[k] == s.threads[t].ch
          && k in s.table.fsMounts && s.table.fsMounts[k].handle == s.threads[t].h)
    && (forall t: ThreadId, u: ThreadId, k :: Removes(s, t, k) && Removes(s, u, k) ==> t == u)
    && (forall k :: k in s.table.fsUnmounting ==> exists t: ThreadId :: Removes(s, t, k))
  }

  ghost predicate Listed(tb: Table, ch: Chan) { exists k :: k in tb.fsUnmounting && tb.fsUnmounting[k] == ch }

  ghost predicate ChannelsClosedOnce(s: State) {
    && (forall k :: k in s.table.fsUnmounting ==> s.table.fsUnmounting[k] < s.nextChan)
    && (forall k, l :: k in s.table.fsUnmounting && l in s.table.fsUnmounting ==>
          s.table.fsUnmounting[k] == s.table.fsUnmounting[l] ==> k == l)
    && (forall ch: Chan :: Closes(s, ch) == if ch < s.nextChan && !Listed(s.table, ch) then 1 else 0)
    && (forall t: ThreadId :: t in s.threads && s.threads[t].Waiting? ==> s.threads[t].ch < s.nextChan)
  }

  // ----- where each mount is

  datatype Owner = InTable(k: SessionId) | OfThread(t: ThreadId) | Detached | Lost

  predicate Holds(pc: Pc, h: Handle) { (pc.Mounted? || pc.Undoing?) && pc.h == h }

  predicate AtEntry(tb: Table, k: SessionId, h: Handle) { k in tb.fsMounts && tb.fsMounts[k].handle == h }

  ghost predicate Entered(tb: Table, h: Handle) { exists k :: k in tb.fsMounts && tb.fsMounts[k].handle == h }

  ghost predicate Owns(s: State, o: Owner, h: Handle) {
    match o
    case InTable(k) => AtEntry(s.table, k, h)
    case OfThread(t) => t in s.threads && Holds(s.threads[t], h)
    case Detached => Detachments(s, h) > 0 && !Entered(s.table, h)
    case Lost => h in s.lost
  }

  ghost predicate OwnedBy(s: State, owner: map<Handle, Owner>) {
    && (forall h: Handle :: h in owner <==> h < s.next)
    && (forall h: Handle :: h in owner ==> Owns(s, owner[h], h))
    && (forall h: Handle, o :: Owns(s, o, h) ==> h in owner && owner[h] == o)
  }

  // Some Unmount of the session's mount has succeeded and is about to be entered.
  ghost predicate Ended(s: State, k: SessionId) {
    exists t: ThreadId :: t in s.threads && s.threads[t].Ending? && s.threads[t].k == k && s.threads[t].ok
  }

  ghost predicate DetachedOnce(s: State) {
    && (forall h: Handle :: Detachments(s, h) <= 1)
    && (forall k :: k in s.table.fsMounts ==> (Detachments(s, s.table.fsMounts[k].handle) > 0 <==> Ended(s, k)))
    && (forall h: Handle :: h >= s.next ==> Detachments(s, h) == 0)
  }

  ghost predicate Sound(s: State) { OneReservation(s) && OneRemoval(s) && ChannelsClosedOnce(s) && DetachedOnce(s) }

  function Moved(s: State, step: Step, owner: map<Handle, Owner>): map<Handle, Owner> {
    if !step.Advance? || step.t !in s.threads then owner else
    var t, ok := step.t, step.ok;
    match s.threads[t]
    case Mounting(_, _) => if ok then owner[s.next := OfThread(t)] else owner
    case Mounted(k, id, h) => if RecordRegion(s.table, k, LifetimeMount(h, id), !ok).1 then owner[h := InTable(k)] else owner
    case Undoing(_, h) => owner[h := if ok then Detached else Lost]
    case Ending(_, h, _, done) => if done then owner[h := Detached] else owner
    case _ => owner
  }

  lemma ReservationStep(s: State, t: ThreadId, ok: bool)
    requires OneReservation(s) && t in s.threads
    ensures OneReservation(Run(s, t, ok))
  {
    var pc := s.threads[t];
    if pc.MountStart? {
      ReservationMade(s, t, ok);
    } else if pc.Failing? || pc.Mounted? {
      ReservationGone(s, t, ok);
    } else {
      ReservationQuiet(s, t, ok);
      ReservationsKept(s, Run(s, t, ok));
    }
  }

  ghost predicate SameReservations(s: State, s': State) {
    && s'.table.fsMounting == s.table.fsMounting && s'.table.fsMounts.Keys <= s.table.fsMounts.Keys
    && forall t: ThreadId, k :: Reserves(s', t, k) <==> Reserves(s, t, k)
  }

  lemma ReservationsKept(s: State, s': State)
    requires OneReservation(s) && SameReservations(s, s')
    ensures OneReservation(s')
  {
    forall k | k in s'.table.fsMounting ensures exists t: ThreadId :: Reserves(s', t, k) {
      var t: ThreadId :| Reserves(s, t, k);
      assert Reserves(s', t, k);
    }
  }

  lemma ReservationQuiet(s: State, t: ThreadId, ok: bool)
    requires t in s.threads && !s.threads[t].MountStart? && !s.threads[t].Failing? && !s.threads[t].Mounted?
    ensures SameReservations(s, Run(s, t, ok))
  {
    if s.threads[t].Mounting? || s.threads[t].Undoing? || s.threads[t].Returned? {
      MounterQuiet(s, t, ok);
    } else {
      UnmounterQuiet(s, t, ok);
    }
  }

  lemma MounterQuiet(s: State, t: ThreadId, ok: bool)
    requires t in s.threads && (s.threads[t].Mounting? || s.threads[t].Undoing? || s.threads[t].Returned?)
    ensures SameReservations(s, Run(s, t, ok))
  {
  }

  lemma UnmounterQuiet(s: State, t: ThreadId, ok: bool)
    requires t in s.threads
    requires var pc := s.threads[t]; pc.UnmountStart? || pc.Waiting? || pc.Detaching? || pc.Ending?
    ensures SameReservations(s, Run(s, t, ok))
  {
  }

  lemma ReservationMade(s: State, t: ThreadId, ok: bool)
    requires OneReservation(s) && t in s.threads && s.threads[t].MountStart?
    ensures OneReservation(Run(s, t, ok))
  {
    var s', mine := Run(s, t, ok), s.threads[t].k;
    if ReserveRegion(s.table, mine).1 {
      assert forall u: ThreadId, k :: Reserves(s', u, k) <==> Reserves(s, u, k) || (u == t && k == mine);
      forall k | k in s'.table.fsMounting ensures exists u: ThreadId :: Reserves(s', u, k) {
        if k == mine {
          assert Reserves(s', t, k);
        } else {
          var u: ThreadId :| Reserves(s, u, k);
          assert Reserves(s', u, k);
        }
      }
    } else {
      assert forall u: ThreadId, k :: Reserves(s', u, k) <==> Reserves(s, u, k);
      ReservationsKept(s, s');
    }
  }

  lemma ReservationGone(s: State, t: ThreadId, ok: bool)
    requires OneReservation(s) && t in s.threads && (s.threads[t].Failing? || s.threads[t].Mounted?)
    ensures OneReservation(Run(s, t, ok))
  {
    var s', mine := Run(s, t, ok), s.threads[t].k;
    assert Reserves(s, t, mine);
    assert forall u: ThreadId, k :: Reserves(s', u, k) <==> Reserves(s, u, k) && u != t;
    forall k | k in s'.table.fsMounting ensures exists u: ThreadId :: Reserves(s', u, k) {
      var u: ThreadId :| Reserves(s, u, k);
      assert Reserves(s', u, k);
    }
  }

  // A step after which the same threads are removing the same mounts.
  ghost predicate SameRemovals(s: State, s': State) {
    && s'.table.fsUnmounting == s.table.fsUnmounting
    && (forall t: ThreadId, k :: Removes(s', t, k) <==> Removes(s, t, k))
    && (forall t: ThreadId, k :: Removes(s, t, k) ==> s'.threads[t].h == s.threads[t].h && s'.threads[t].ch == s.threads[t].ch)
    && (forall k :: k in s.table.fsUnmounting && k in s.table.fsMounts ==>
          k in s'.table.fsMounts && s'.table.fsMounts[k] == s.table.fsMounts[k])
  }

  lemma RemovalsKept(s: State, s': State)
    requires OneRemoval(s) && SameRemovals(s, s')
    ensures OneRemoval(s')
  {
    forall k | k in s'.table.fsUnmounting ensures exists t: ThreadId :: Removes(s', t, k) {
      var t: ThreadId :| Removes(s, t, k);
      assert Removes(s', t, k);
    }
  }

  lemma RemovalStep(s: State, t: ThreadId, ok: bool)
    requires OneReservation(s) && OneRemoval(s) && t in s.threads
    ensures OneRemoval(Run(s, t, ok))
  {
    var pc := s.threads[t];
    if pc.UnmountStart? && BeginUnmountRegion(s.table, pc.k, pc.id, s.nextChan).1.Mine? {
      RemovalBegins(s, t, ok);
    } else if pc.Ending? {
      RemovalEnds(s, t, ok);
    } else {
      RemovalQuiet(s, t, ok);
      RemovalsKept(s, Run(s, t, ok));
    }
  }

  lemma RemovalQuiet(s: State, t: ThreadId, ok: bool)
    requires OneReservation(s) && OneRemoval(s) && t in s.threads && !s.threads[t].Ending?
    requires var pc := s.threads[t]; pc.UnmountStart? ==> !BeginUnmountRegion(s.table, pc.k, pc.id, s.nextChan).1.Mine?
    ensures SameRemovals(s, Run(s, t, ok))
  {
    if s.threads[t].Mounted? {
      assert Reserves(s, t, s.threads[t].k);
      RecordKeepsRemovals(s, t, ok);
    } else {
      RemovalUntouched(s, t, ok);
    }
  }

  lemma RecordKeepsRemovals(s: State, t: ThreadId, ok: bool)
    requires t in s.threads && s.threads[t].Mounted? && s.threads[t].k !in s.table.fsMounts
    ensures SameRemovals(s, Run(s, t, ok))
  {
  }

  lemma RemovalUntouched(s: State, t: ThreadId, ok: bool)
    requires t in s.threads && !s.threads[t].Ending? && !s.threads[t].Mounted?
    requires var pc := s.threads[t]; pc.UnmountStart? ==> !BeginUnmountRegion(s.table, pc.k, pc.id, s.nextChan).1.Mine?
    ensures SameRemovals(s, Run(s, t, ok))
  {
    var pc := s.threads[t];
    if pc.UnmountStart? || pc.Waiting? || pc.Detaching? {
      UnmounterUntouched(s, t, ok);
    } else {
      MounterUntouched(s, t, ok);
    }
  }

  lemma UnmounterUntouched(s: State, t: ThreadId, ok: bool)
    requires t in s.threads && (s.threads[t].UnmountStart? || s.threads[t].Waiting? || s.threads[t].Detaching?)
    requires var pc := s.threads[t]; pc.UnmountStart? ==> !BeginUnmountRegion(s.table, pc.k, pc.id, s.nextChan).1.Mine?
    ensures SameRemovals(s, Run(s, t, ok))
  {
  }

  lemma MounterUntouched(s: State, t: ThreadId, ok: bool)
    requires t in s.threads
    requires var pc := s.threads[t]; pc.MountStart? || pc.Mounting? || pc.Failing? || pc.Undoing? || pc.Returned?
    ensures SameRemovals(s, Run(s, t, ok))
  {
  }

  lemma RemovalBegins(s: State, t: ThreadId, ok: bool)
    requires OneRemoval(s) && t in s.threads && s.threads[t].UnmountStart?
    requires var pc := s.threads[t]; BeginUnmountRegion(s.table, pc.k, pc.id, s.nextChan).1.Mine?
    ensures OneRemoval(Run(s, t, ok))
  {
    var s', mine := Run(s, t, ok), s.threads[t].k;
    assert forall u: ThreadId, k :: Removes(s', u, k) <==> Removes(s, u, k) || (u == t && k == mine);
    forall k | k in s'.table.fsUnmounting ensures exists u: ThreadId :: Removes(s', u, k) {
      if k == mine {
        assert Removes(s', t, k);
      } else {
        var u: ThreadId :| Removes(s, u, k);
        assert Removes(s', u, k);
      }
    }
  }

  lemma RemovalEnds(s: State, t: ThreadId, ok: bool)
    requires OneRemoval(s) && t in s.threads && s.threads[t].Ending?
    ensures OneRemoval(Run(s, t, ok))
  {
    var s', mine := Run(s, t, ok), s.threads[t].k;
    assert Removes(s, t, mine);
    assert forall u: ThreadId, k :: Removes(s', u, k) <==> Removes(s, u, k) && u != t;
    forall k | k in s'.table.fsUnmounting ensures exists u: ThreadId :: Removes(s', u, k) {
      var u: ThreadId :| Removes(s, u, k);
      assert Removes(s', u, k);
    }
  }

  // A step that neither makes nor closes a channel.
  ghost predicate SameChannels(s: State, s': State) {
    && s'.table.fsUnmounting == s.table.fsUnmounting && s'.closes == s.closes && s'.nextChan == s.nextChan
    && (forall t: ThreadId :: t in s'.threads && s'.threads[t].Waiting? ==>
          (t in s.threads && s.threads[t] == s'.threads[t]) || Listed(s.table, s'.threads[t].ch))
  }

  lemma ChannelsKept(s: State, s': State)
    requires ChannelsClosedOnce(s) && SameChannels(s, s')
    ensures ChannelsClosedOnce(s')
  {
    assert forall ch: Chan :: Listed(s'.table, ch) <==> Listed(s.table, ch);
    assert forall ch: Chan :: Closes(s', ch) == Closes(s, ch);
    assert forall ch: Chan :: Listed(s.table, ch) ==> ch < s.nextChan;
  }

  lemma ChannelsQuiet(s: State, t: ThreadId, ok: bool)
    requires t in s.threads && !s.threads[t].Ending?
    requires var pc := s.threads[t]; pc.UnmountStart? ==> !BeginUnmountRegion(s.table, pc.k, pc.id, s.nextChan).1.Mine?
    ensures SameChannels(s, Run(s, t, ok))
  {
    var pc := s.threads[t];
    if pc.UnmountStart? && pc.k in s.table.fsUnmounting {
      assert Listed(s.table, s.table.fsUnmounting[pc.k]);
    }
  }

  lemma ChannelStep(s: State, t: ThreadId, ok: bool)
    requires ChannelsClosedOnce(s) && OneRemoval(s) && t in s.threads
    ensures ChannelsClosedOnce(Run(s, t, ok))
  {
    var pc := s.threads[t];
    if pc.UnmountStart? && BeginUnmountRegion(s.table, pc.k, pc.id, s.nextChan).1.Mine? {
      ChannelMade(s, t, ok);
    } else if pc.Ending? {
      ChannelClosed(s, t, ok);
    } else {
      ChannelsQuiet(s, t, ok);
      ChannelsKept(s, Run(s, t, ok));
    }
  }

  lemma ChannelMade(s: State, t: ThreadId, ok: bool)
    requires ChannelsClosedOnce(s) && t in s.threads && s.threads[t].UnmountStart?
    requires var pc := s.threads[t]; BeginUnmountRegion(s.table, pc.k, pc.id, s.nextChan).1.Mine?
    ensures ChannelsClosedOnce(Run(s, t, ok))
  {
    var s', mine := Run(s, t, ok), s.threads[t].k;
    assert Listed(s'.table, s.nextChan) by { assert s'.table.fsUnmounting[mine] == s.nextChan; }
    forall ch: Chan | ch != s.nextChan ensures Listed(s'.table, ch) <==> Listed(s.table, ch) {
      if Listed(s.table, ch) {
        var k :| k in s.table.fsUnmounting && s.table.fsUnmounting[k] == ch;
        assert k in s'.table.fsUnmounting && s'.table.fsUnmounting[k] == ch;
      }
    }
    assert forall ch: Chan :: Closes(s', ch) == Closes(s, ch);
  }

  lemma ChannelClosed(s: State, t: ThreadId, ok: bool)
    requires ChannelsClosedOnce(s) && OneRemoval(s) && t in s.threads && s.threads[t].Ending?
    ensures ChannelsClosedOnce(Run(s, t, ok))
  {
    var s', mine := Run(s, t, ok), s.threads[t].k;
    assert Removes(s, t, mine);
    var closing := s.table.fsUnmounting[mine];
    assert Listed(s.table, closing);
    forall ch: Chan ensures Listed(s'.table, ch) <==> Listed(s.table, ch) && ch != closing {
      if Listed(s.table, ch) && ch != closing {
        var k :| k in s.table.fsUnmounting && s.table.fsUnmounting[k] == ch;
        assert k in s'.table.fsUnmounting && s'.table.fsUnmounting[k] == ch;
      }
    }
    assert forall ch: Chan :: Closes(s', ch) == Closes(s, ch) + if ch == closing then 1 else 0;
  }

  // ----- every mount has one owner

  lemma NoEntryFor(s: State, owner: map<Handle, Owner>, t: ThreadId, h: Handle)
    requires OwnedBy(s, owner) && t in s.threads && Holds(s.threads[t], h)
    ensures h < s.next && owner[h] == OfThread(t) && h !in s.lost && Detachments(s, h) == 0 && !Entered(s.table, h)
    ensures forall o :: Owns(s, o, h) <==> o == OfThread(t)
  {
    assert Owns(s, OfThread(t), h);
    if k :| k in s.table.fsMounts && s.table.fsMounts[k].handle == h {
      assert Owns(s, InTable(k), h);
    } else if Detachments(s, h) > 0 {
      assert Owns(s, Detached, h);
    } else if h in s.lost {
      assert Owns(s, Lost, h);
    }
    forall o | Owns(s, o, h) ensures o == OfThread(t) {
      assert owner[h] == o;
    }
  }

  lemma EntryIsOnly(s: State, owner: map<Handle, Owner>, k: SessionId)
    requires OwnedBy(s, owner) && k in s.table.fsMounts
    ensures var h := s.table.fsMounts[k].handle;
            && h < s.next
            && (forall l :: l in s.table.fsMounts && s.table.fsMounts[l].handle == h ==> l == k)
            && (forall o :: Owns(s, o, h) <==> o == InTable(k))
  {
    var h := s.table.fsMounts[k].handle;
    assert Owns(s, InTable(k), h);
    forall l | l in s.table.fsMounts && s.table.fsMounts[l].handle == h ensures l == k {
      assert Owns(s, InTable(l), h);
    }
    forall o | Owns(s, o, h) ensures o == InTable(k) {
      assert owner[h] == o;
    }
  }

  lemma EnterOne(tb: Table, tb': Table, k: SessionId, m: LifetimeMount)
    requires k !in tb.fsMounts && tb'.fsMounts == tb.fsMounts[k := m]
    ensures forall h: Handle :: Entered(tb', h) <==> Entered(tb, h) || h == m.handle
  {
    forall h: Handle ensures Entered(tb', h) <==> Entered(tb, h) || h == m.handle {
      if l :| l in tb.fsMounts && tb.fsMounts[l].handle == h {
        assert l in tb'.fsMounts && tb'.fsMounts[l].handle == h;
      } else if h == m.handle {
        assert tb'.fsMounts[k].handle == h;
      }
    }
  }

  lemma LeaveOne(tb: Table, tb': Table, k: SessionId)
    requires k in tb.fsMounts && tb'.fsMounts == tb.fsMounts - {k}
    requires forall l :: l in tb.fsMounts && tb.fsMounts[l].handle == tb.fsMounts[k].handle ==> l == k
    ensures forall h: Handle :: Entered(tb', h) <==> Entered(tb, h) && h != tb.fsMounts[k].handle
  {
    forall h: Handle ensures Entered(tb', h) <==> Entered(tb, h) && h != tb.fsMounts[k].handle {
      if Entered(tb, h) && h != tb.fsMounts[k].handle {
        var l :| l in tb.fsMounts && tb.fsMounts[l].handle == h;
        assert l in tb'.fsMounts && tb'.fsMounts[l].handle == h;
      }
    }
  }

  // Which threads hold which mounts changes at `h` alone.
  ghost predicate SameHolders(s: State, s': State, but: Handle) {
    forall t: ThreadId, h: Handle :: h != but ==>
      ((t in s'.threads && Holds(s'.threads[t], h)) <==> (t in s.threads && Holds(s.threads[t], h)))
  }

  // A step that changes where `h` is, and where no other mount is.
  ghost predicate Relocates(s: State, s': State, h: Handle) {
    && SameHolders(s, s', h)
    && (forall k, x: Handle :: x != h ==> (AtEntry(s'.table, k, x) <==> AtEntry(s.table, k, x)))
    && (forall x: Handle :: x != h ==>
          (Entered(s'.table, x) <==> Entered(s.table, x)) && (x in s'.lost <==> x in s.lost) && Detachments(s', x) == Detachments(s, x))
  }

  lemma OwnerMoves(s: State, s': State, owner: map<Handle, Owner>, h: Handle, o: Owner)
    requires OwnedBy(s, owner) && Relocates(s, s', h)
    requires s'.next == (if h == s.next then s.next + 1 else s.next) && h < s'.next
    requires forall p :: Owns(s', p, h) <==> p == o
    ensures OwnedBy(s', owner[h := o])
  {
    forall x: Handle, p | x != h ensures Owns(s', p, x) <==> Owns(s, p, x) {
    }
  }

  // Nothing about mounts changes.
  ghost predicate Stays(s: State, s': State) {
    && s'.table.fsMounts == s.table.fsMounts && s'.lost == s.lost && s'.detached == s.detached && s'.next == s.next
    && (forall t: ThreadId, h: Handle ::
          (t in s'.threads && Holds(s'.threads[t], h)) <==> (t in s.threads && Holds(s.threads[t], h)))
  }

  lemma OwnersStay(s: State, s': State, owner: map<Handle, Owner>)
    requires OwnedBy(s, owner) && Stays(s, s')
    ensures OwnedBy(s', owner)
  {
    assert forall h: Handle :: Entered(s'.table, h) <==> Entered(s.table, h);
    forall h: Handle, o ensures Owns(s', o, h) <==> Owns(s, o, h) {
    }
  }

  predicate IsQuiet(pc: Pc, ok: bool) {
    pc.MountStart? || (pc.Mounting? && !ok) || pc.Failing? || pc.UnmountStart? || pc.Waiting?
    || (pc.Detaching? && !ok) || (pc.Ending? && !pc.ok) || pc.Returned?
  }

  lemma QuietStays(s: State, t: ThreadId, ok: bool)
    requires t in s.threads && IsQuiet(s.threads[t], ok)
    ensures Stays(s, Run(s, t, ok))
  {
    var pc := s.threads[t];
    if pc.UnmountStart? || pc.Waiting? {
      LookingStays(s, t, ok);
    }
  }

  lemma LookingStays(s: State, t: ThreadId, ok: bool)
    requires t in s.threads && (s.threads[t].UnmountStart? || s.threads[t].Waiting?)
    ensures Stays(s, Run(s, t, ok))
  {
  }

  lemma OwnersMounting(s: State, t: ThreadId, owner: map<Handle, Owner>)
    requires OwnedBy(s, owner) && t in s.threads && s.threads[t].Mounting?
    ensures OwnedBy(Run(s, t, true), owner[s.next := OfThread(t)])
  {
    var s' := Run(s, t, true);
    forall p ensures Owns(s', p, s.next) <==> p == OfThread(t) {
      assert !Owns(s, p, s.next);
    }
    OwnerMoves(s, s', owner, s.next, OfThread(t));
  }

  lemma OwnersMounted(s: State, t: ThreadId, ok: bool, owner: map<Handle, Owner>)
    requires OwnedBy(s, owner) && OneReservation(s) && t in s.threads && s.threads[t].Mounted?
    ensures OwnedBy(Run(s, t, ok), Moved(s, Advance(t, ok), owner))
  {
    var k, id, h := s.threads[t].k, s.threads[t].id, s.threads[t].h;
    var s' := Run(s, t, ok);
    NoEntryFor(s, owner, t, h);
    assert Reserves(s, t, k);
    if RecordRegion(s.table, k, LifetimeMount(h, id), !ok).1 {
      EnterOne(s.table, s'.table, k, LifetimeMount(h, id));
      RecordMoves(s, t, s', k, h);
      OwnerMoves(s, s', owner, h, InTable(k));
    } else {
      OwnersStay(s, s', owner);
    }
  }

  lemma RecordMoves(s: State, t: ThreadId, s': State, k: SessionId, h: Handle)
    requires t in s.threads && Holds(s.threads[t], h) && k !in s.table.fsMounts
    requires forall o :: Owns(s, o, h) <==> o == OfThread(t)
    requires k in s'.table.fsMounts && s'.table.fsMounts[k].handle == h
    requires s' == Goto(s.(table := s'.table), t, Returned) && s'.table.fsMounts == s.table.fsMounts[k := s'.table.fsMounts[k]]
    ensures forall p :: Owns(s', p, h) <==> p == InTable(k)
  {
    forall p ensures Owns(s', p, h) <==> p == InTable(k) {
      assert p != OfThread(t) ==> !Owns(s, p, h);
    }
  }

  lemma OwnersUndoing(s: State, t: ThreadId, ok: bool, owner: map<Handle, Owner>)
    requires OwnedBy(s, owner) && t in s.threads && s.threads[t].Undoing?
    ensures OwnedBy(Run(s, t, ok), owner[s.threads[t].h := if ok then Detached else Lost])
  {
    var h, s' := s.threads[t].h, Run(s, t, ok);
    NoEntryFor(s, owner, t, h);
    var o := if ok then Detached else Lost;
    forall p ensures Owns(s', p, h) <==> p == o {
      assert p != OfThread(t) ==> !Owns(s, p, h);
    }
    OwnerMoves(s, s', owner, h, o);
  }

  lemma OwnersDetaching(s: State, t: ThreadId, owner: map<Handle, Owner>)
    requires OwnedBy(s, owner) && OneRemoval(s) && t in s.threads && s.threads[t].Detaching?
    ensures OwnedBy(Run(s, t, true), owner)
  {
    var k, h, s' := s.threads[t].k, s.threads[t].h, Run(s, t, true);
    assert Removes(s, t, k);
    EntryIsOnly(s, owner, k);
    assert Entered(s'.table, h);
    forall p ensures Owns(s', p, h) <==> p == InTable(k) {
      assert p != InTable(k) ==> !Owns(s, p, h);
    }
    OwnerMoves(s, s', owner, h, InTable(k));
    assert owner[h] == InTable(k) && owner[h := InTable(k)] == owner;
  }

  lemma OwnersEnding(s: State, t: ThreadId, ok: bool, owner: map<Handle, Owner>)
    requires OwnedBy(s, owner) && OneRemoval(s) && DetachedOnce(s) && t in s.threads && s.threads[t].Ending? && s.threads[t].ok
    ensures OwnedBy(Run(s, t, ok), owner[s.threads[t].h := Detached])
  {
    var k, h, s' := s.threads[t].k, s.threads[t].h, Run(s, t, ok);
    assert Removes(s, t, k) && Ended(s, k);
    EntryIsOnly(s, owner, k);
    LeaveOne(s.table, s'.table, k);
    forall p ensures Owns(s', p, h) <==> p == Detached {
      assert p != InTable(k) ==> !Owns(s, p, h);
    }
    OwnerMoves(s, s', owner, h, Detached);
  }

  lemma OwnersStep(s: State, t: ThreadId, ok: bool, owner: map<Handle, Owner>)
    requires OwnedBy(s, owner) && Sound(s) && t in s.threads
    ensures OwnedBy(Run(s, t, ok), Moved(s, Advance(t, ok), owner))
  {
    if IsQuiet(s.threads[t], ok) {
      QuietStays(s, t, ok);
      OwnersStay(s, Run(s, t, ok), owner);
    } else {
      match s.threads[t]
      case Mounting(_, _) => OwnersMounting(s, t, owner);
      case Mounted(_, _, _) => OwnersMounted(s, t, ok, owner);
      case Undoing(_, _) => OwnersUndoing(s, t, ok, owner);
      case Detaching(_, _, _) => OwnersDetaching(s, t, owner);
      case Ending(_, _, _, _) => OwnersEnding(s, t, ok, owner);
    }
  }

  // ----- and is unmounted at most once

  // The thread that has detached the session's mount and not yet said so.
  ghost predicate Enders(s: State, t: ThreadId, k: SessionId) {
    t in s.threads && s.threads[t].Ending? && s.threads[t].k == k && s.threads[t].ok
  }

  lemma SameEnded(s: State, s': State, k: SessionId)
    requires forall t: ThreadId :: Enders(s', t, k) <==> Enders(s, t, k)
    ensures Ended(s', k) <==> Ended(s, k)
  {
    if t: ThreadId :| t in s.threads && s.threads[t].Ending? && s.threads[t].k == k && s.threads[t].ok {
      assert Enders(s', t, k);
    }
    if t: ThreadId :| t in s'.threads && s'.threads[t].Ending? && s'.threads[t].k == k && s'.threads[t].ok {
      assert Enders(s', t, k);
    }
  }

  lemma NotEnded(s: State, t: ThreadId, k: SessionId)
    requires OneRemoval(s)
    requires k !in s.table.fsMounts || (Removes(s, t, k) && (s.threads[t].Detaching? || !s.threads[t].ok))
    ensures !Ended(s, k)
  {
    if u: ThreadId :| u in s.threads && s.threads[u].Ending? && s.threads[u].k == k && s.threads[u].ok {
      assert Removes(s, u, k);
    }
  }

  lemma QuietDetached(s: State, t: ThreadId, ok: bool)
    requires DetachedOnce(s) && OneRemoval(s) && t in s.threads && IsQuiet(s.threads[t], ok)
    ensures DetachedOnce(Run(s, t, ok))
  {
    var s' := Run(s, t, ok);
    QuietStays(s, t, ok);
    QuietEnders(s, t, ok);
    forall k ensures Ended(s', k) <==> Ended(s, k) {
      SameEnded(s, s', k);
    }
    assert forall h: Handle :: Detachments(s', h) == Detachments(s, h);
  }

  lemma QuietEnders(s: State, t: ThreadId, ok: bool)
    requires t in s.threads && IsQuiet(s.threads[t], ok)
    ensures forall u: ThreadId, k :: Enders(Run(s, t, ok), u, k) <==> Enders(s, u, k)
  {
  }

  lemma MountingDetached(s: State, t: ThreadId)
    requires DetachedOnce(s) && t in s.threads && s.threads[t].Mounting?
    ensures DetachedOnce(Run(s, t, true))
  {
    var s' := Run(s, t, true);
    forall k ensures Ended(s', k) <==> Ended(s, k) {
      SameEnded(s, s', k);
    }
    assert forall h: Handle :: Detachments(s', h) == Detachments(s, h);
  }

  lemma MountedDetached(s: State, t: ThreadId, ok: bool, owner: map<Handle, Owner>)
    requires OwnedBy(s, owner) && Sound(s) && t in s.threads && s.threads[t].Mounted?
    ensures DetachedOnce(Run(s, t, ok))
  {
    var k, h, s' := s.threads[t].k, s.threads[t].h, Run(s, t, ok);
    NoEntryFor(s, owner, t, h);
    assert Reserves(s, t, k);
    NotEnded(s, t, k);
    forall l ensures Ended(s', l) <==> Ended(s, l) {
      SameEnded(s, s', l);
    }
    assert forall x: Handle :: Detachments(s', x) == Detachments(s, x);
  }

  lemma UndoingDetached(s: State, t: ThreadId, ok: bool, owner: map<Handle, Owner>)
    requires OwnedBy(s, owner) && Sound(s) && t in s.threads && s.threads[t].Undoing?
    ensures DetachedOnce(Run(s, t, ok))
  {
    var h, s' := s.threads[t].h, Run(s, t, ok);
    NoEntryFor(s, owner, t, h);
    forall l ensures Ended(s', l) <==> Ended(s, l) {
      SameEnded(s, s', l);
    }
    assert forall x: Handle :: Detachments(s', x) == if ok && x == h then 1 else Detachments(s, x);
    assert forall k :: k in s.table.fsMounts ==> Entered(s.table, s.table.fsMounts[k].handle);
  }

  lemma DetachingDetached(s: State, t: ThreadId, owner: map<Handle, Owner>)
    requires OwnedBy(s, owner) && Sound(s) && t in s.threads && s.threads[t].Detaching?
    ensures DetachedOnce(Run(s, t, true))
  {
    var k, h, s' := s.threads[t].k, s.threads[t].h, Run(s, t, true);
    assert Removes(s, t, k);
    EntryIsOnly(s, owner, k);
    NotEnded(s, t, k);
    assert Enders(s', t, k) && Ended(s', k);
    forall l | l != k ensures Ended(s', l) <==> Ended(s, l) {
      SameEnded(s, s', l);
    }
    assert forall x: Handle :: Detachments(s', x) == if x == h then 1 else Detachments(s, x);
  }

  lemma EndingDetached(s: State, t: ThreadId, ok: bool)
    requires Sound(s) && t in s.threads && s.threads[t].Ending? && s.threads[t].ok
    ensures DetachedOnce(Run(s, t, ok))
  {
    var k, s' := s.threads[t].k, Run(s, t, ok);
    forall l | l != k ensures Ended(s', l) <==> Ended(s, l) {
      SameEnded(s, s', l);
    }
    assert forall x: Handle :: Detachments(s', x) == Detachments(s, x);
  }

  lemma DetachStep(s: State, t: ThreadId, ok: bool, owner: map<Handle, Owner>)
    requires OwnedBy(s, owner) && Sound(s) && t in s.threads
    ensures DetachedOnce(Run(s, t, ok))
  {
    if IsQuiet(s.threads[t], ok) {
      QuietDetached(s, t, ok);
    } else {
      match s.threads[t]
      case Mounting(_, _) => MountingDetached(s, t);
      case Mounted(_, _, _) => MountedDetached(s, t, ok, owner);
      case Undoing(_, _) => UndoingDetached(s, t, ok, owner);
      case Detaching(_, _, _) => DetachingDetached(s, t, owner);
      case Ending(_, _, _, _) => EndingDetached(s, t, ok);
    }
  }

  // ----- every run

  lemma {:induction false} MountsAccounted(steps: seq<Step>) returns (owner: map<Handle, Owner>)
    ensures Sound(Exec(Init, steps)) && OwnedBy(Exec(Init, steps), owner)
  {
    if steps == [] {
      owner := map[];
    } else {
      var s, step := Exec(Init, steps[..|steps| - 1]), steps[|steps| - 1];
      owner := MountsAccounted(steps[..|steps| - 1]);
      match step
      case Advance(t, ok) =>
        if t in s.threads {
          ReservationStep(s, t, ok);
          RemovalStep(s, t, ok);
          ChannelStep(s, t, ok);
          DetachStep(s, t, ok, owner);
          OwnersStep(s, t, ok, owner);
          owner := Moved(s, step, owner);
        }
      case Call(t, entry) => CallKeeps(s, t, entry, owner);
      case Drain => DrainKeeps(s, owner);
    }
  }

  lemma CallKeeps(s: State, t: ThreadId, entry: Pc, owner: map<Handle, Owner>)
    requires Sound(s) && OwnedBy(s, owner)
    ensures Sound(Apply(s, Call(t, entry))) && OwnedBy(Apply(s, Call(t, entry)), owner)
  {
    if t !in s.threads && IsEntry(entry) {
      Untouched(s, Goto(s, t, entry), owner);
    }
  }

  lemma DrainKeeps(s: State, owner: map<Handle, Owner>)
    requires Sound(s) && OwnedBy(s, owner)
    ensures Sound(Apply(s, Drain)) && OwnedBy(Apply(s, Drain), owner)
  {
    Untouched(s, Apply(s, Drain), owner);
  }

  lemma Untouched(s: State, s': State, owner: map<Handle, Owner>)
    requires Sound(s) && OwnedBy(s, owner) && SameReservations(s, s') && SameRemovals(s, s') && SameChannels(s, s') && Stays(s, s')
    requires forall t: ThreadId, k :: Enders(s', t, k) <==> Enders(s, t, k)
    ensures Sound(s') && OwnedBy(s', owner)
  {
    ReservationsKept(s, s');
    RemovalsKept(s, s');
    ChannelsKept(s, s');
    OwnersStay(s, s', owner);
    forall k ensures Ended(s', k) <==> Ended(s, k) {
      SameEnded(s, s', k);
    }
    assert forall h: Handle :: Detachments(s', h) == Detachments(s, h);
  }

  ghost predicate Settled(s: State) { forall t: ThreadId :: t in s.threads ==> s.threads[t].Returned? }

  /** No mount leaks and none is unmounted twice.  Once every handler has returned, each
      mount the driver made is in the table, was unmounted exactly once, or is one whose
      only Unmount, by a handler that lost the race, failed. */
  lemma EveryMountIsAccountedFor(steps: seq<Step>, h: Handle)
    requires var s := Exec(Init, steps); Settled(s) && h < s.next
    ensures var s := Exec(Init, steps);
            if h in s.lost then Detachments(s, h) == 0 && !Entered(s.table, h)
            else Entered(s.table, h) <==> Detachments(s, h) == 0
    ensures Detachments(Exec(Init, steps), h) <= 1
  {
    var s := Exec(Init, steps);
    var owner := MountsAccounted(steps);
    assert Owns(s, owner[h], h);
    if h in s.lost {
      assert Owns(s, Lost, h);
      LostOnly(s, owner, h);
    } else if Entered(s.table, h) {
      var k :| AtEntry(s.table, k, h);
      assert !Ended(s, k);
    } else {
      assert owner[h] == Detached;
    }
  }

  lemma LostOnly(s: State, owner: map<Handle, Owner>, h: Handle)
    requires OwnedBy(s, owner) && h in s.lost
    ensures Detachments(s, h) == 0 && !Entered(s.table, h)
  {
    assert Owns(s, Lost, h);
    if Entered(s.table, h) {
      var k :| k in s.table.fsMounts && s.table.fsMounts[k].handle == h;
      assert Owns(s, InTable(k), h);
    } else if Detachments(s, h) > 0 {
      assert Owns(s, Detached, h);
    }
  }

  /** A session has one mount or one mount under way, never both, and one removal at a
      time; who waits for a removal waits on a channel that a running removal will close
      or that is closed already. */
  lemma SessionsAreExclusive(steps: seq<Step>, t: ThreadId, u: ThreadId, k: SessionId)
    requires var s := Exec(Init, steps); t in s.threads && u in s.threads
    ensures var s := Exec(Init, steps);
            && (Reserves(s, t, k) && Reserves(s, u, k) ==> t == u)
            && (Reserves(s, t, k) ==> k !in s.table.fsMounts)
            && (Removes(s, t, k) && Removes(s, u, k) ==> t == u)
            && (s.threads[t].Waiting? ==>
                  Closes(s, s.threads[t].ch) == 1 || exists v: ThreadId, l :: Removes(s, v, l) && s.threads[v].ch == s.threads[t].ch)
  {
    var s := Exec(Init, steps);
    var owner := MountsAccounted(steps);
    if s.threads[t].Waiting? && Closes(s, s.threads[t].ch) != 1 {
      var l :| l in s.table.fsUnmounting && s.table.fsUnmounting[l] == s.threads[t].ch;
      var v: ThreadId :| Removes(s, v, l);
    }
  }

  /** After draining starts no mount is recorded. */
  lemma {:induction false} DrainingRecordsNothing(s: State, steps: seq<Step>)
    requires s.table.draining
    ensures Exec(s, steps).table.draining && Exec(s, steps).table.fsMounts.Keys <= s.table.fsMounts.Keys
    decreases |steps|
  {
    if steps != [] {
      DrainingRecordsNothing(s, steps[..|steps| - 1]);
      DrainingStep(Exec(s, steps[..|steps| - 1]), steps[|steps| - 1]);
    }
  }

  lemma DrainingStep(s: State, step: Step)
    requires s.table.draining
    ensures var s' := Apply(s, step); s'.table.draining && s'.table.fsMounts.Keys <= s.table.fsMounts.Keys
  {
    if step.Advance? && step.t in s.threads {
      if IsQuiet(s.threads[step.t], step.ok) {
        QuietStays(s, step.t, step.ok);
        QuietDrains(s, step.t, step.ok);
      } else {
        DrainingRun(s, step.t, step.ok);
      }
    }
  }

  lemma QuietDrains(s: State, t: ThreadId, ok: bool)
    requires s.table.draining && t in s.threads && IsQuiet(s.threads[t], ok)
    ensures Run(s, t, ok).table.draining
  {
  }

  lemma DrainingRun(s: State, t: ThreadId, ok: bool)
    requires s.table.draining && t in s.threads && !IsQuiet(s.threads[t], ok)
    ensures var s' := Run(s, t, ok); s'.table.draining && s'.table.fsMounts.Keys <= s.table.fsMounts.Keys
  {
  }

  // ----- the loser of a race

  // A mount of the session that the driver made and has not unmounted.
  ghost predicate Live(s: State, k: SessionId, h: Handle) {
    Detachments(s, h) == 0 && (AtEntry(s.table, k, h) || LostFor(s, k, h) || exists t: ThreadId :: HoldsFor(s, t, k, h))
  }

  ghost predicate HoldsFor(s: State, t: ThreadId, k: SessionId, h: Handle) {
    t in s.threads && Holds(s.threads[t], h) && s.threads[t].k == k
  }

  predicate LostFor(s: State, k: SessionId, h: Handle) { h in s.lost && s.lost[h] == k }

  // ... by a handler that gave up: it is about to unmount it, or has failed to.
  ghost predicate GivenUp(s: State, k: SessionId, h: Handle) {
    LostFor(s, k, h) || exists t: ThreadId :: HoldsFor(s, t, k, h) && s.threads[t].Undoing?
  }

  lemma Then(steps: seq<Step>, s: State, step: Step) returns (steps': seq<Step>, s': State)
    requires Exec(Init, steps) == s
    ensures steps' == steps + [step] && s' == Apply(s, step) && Exec(Init, steps') == s'
  {
    steps', s' := steps + [step], Apply(s, step);
    assert steps'[..|steps'| - 1] == steps;
  }

  /** Two mounts of one session can be live at once: the reservation ends before a
      cancelled handler unmounts, so the next mount.create can go ahead. */
  lemma CancelledMountOverlapsNext(k: SessionId, id: MountId) returns (steps: seq<Step>)
    ensures var s := Exec(Init, steps); Live(s, k, 0) && Live(s, k, 1)
  {
    var s;
    steps, s := Then([], Init, Call(0, MountStart(k, id)));
    steps, s := Then(steps, s, Advance(0, true));
    assert s == State(Table({k}, map[], map[], false), map[0 := Mounting(k, id)], 0, 0, map[], map[], map[]);
    steps, s := Then(steps, s, Advance(0, true));
    steps, s := Then(steps, s, Advance(0, false));
    assert s == State(Table({}, map[], map[], false), map[0 := Undoing(k, 0)], 1, 0, map[], map[], map[]);
    steps, s := Then(steps, s, Call(1, MountStart(k, id)));
    steps, s := Then(steps, s, Advance(1, true));
    assert s == State(Table({k}, map[], map[], false), map[0 := Undoing(k, 0), 1 := Mounting(k, id)], 1, 0, map[], map[], map[]);
    steps, s := Then(steps, s, Advance(1, true));
    assert HoldsFor(s, 0, k, 0) && HoldsFor(s, 1, k, 1);
  }

  /** Of two live mounts of a session one has been given up. */
  lemma OneMountNotGivenUp(steps: seq<Step>, k: SessionId, h: Handle, h': Handle)
    requires var s := Exec(Init, steps); Live(s, k, h) && Live(s, k, h') && !GivenUp(s, k, h) && !GivenUp(s, k, h')
    ensures h == h'
  {
    var s := Exec(Init, steps);
    var owner := MountsAccounted(steps);
    if !AtEntry(s.table, k, h) {
      var t: ThreadId :| HoldsFor(s, t, k, h);
      assert Reserves(s, t, k);
    }
    if !AtEntry(s.table, k, h') {
      var t: ThreadId :| HoldsFor(s, t, k, h');
      assert Reserves(s, t, k);
    }
  }

  ghost predicate OneLive(s: State) {
    forall k, h: Handle, h': Handle :: Live(s, k, h) && Live(s, k, h') ==> h == h'
  }

  // The driver makes a mount for the session.
  predicate Makes(s: State, step: Step, k: SessionId) {
    step.Advance? && step.ok && step.t in s.threads && s.threads[step.t].Mounting? && s.threads[step.t].k == k
  }

  // ... while one that was given up is still there.
  ghost predicate Overlaps(s: State, step: Step) { exists k, h: Handle :: Makes(s, step, k) && GivenUp(s, k, h) }

  // Where a thread's mount was before the thread's own step.
  lemma OwnBefore(s: State, t: ThreadId, ok: bool, h: Handle)
    requires t in s.threads
    ensures var pc, pc' := s.threads[t], Run(s, t, ok).threads[t];
            Holds(pc', h) ==> pc'.k == pc.k && (Holds(pc, h) || (pc.Mounting? && ok && h == s.next))
  {
    var pc := s.threads[t];
    if pc.UnmountStart? || pc.Waiting? || pc.Detaching? || pc.Ending? {
      UnmounterHolds(s, t, ok, h);
    }
  }

  lemma UnmounterHolds(s: State, t: ThreadId, ok: bool, h: Handle)
    requires t in s.threads
    requires var pc := s.threads[t]; pc.UnmountStart? || pc.Waiting? || pc.Detaching? || pc.Ending?
    ensures !Holds(Run(s, t, ok).threads[t], h)
  {
  }

  lemma OtherStays(s: State, t: ThreadId, ok: bool, u: ThreadId)
    requires t in s.threads && u != t
    ensures var s' := Run(s, t, ok); (u in s'.threads <==> u in s.threads) && (u in s.threads ==> s'.threads[u] == s.threads[u])
  {
    var pc := s.threads[t];
    if pc.UnmountStart? || pc.Waiting? || pc.Detaching? || pc.Ending? {
      OtherStaysUnmounting(s, t, ok, u);
    }
  }

  lemma OtherStaysUnmounting(s: State, t: ThreadId, ok: bool, u: ThreadId)
    requires t in s.threads && u != t
    requires var pc := s.threads[t]; pc.UnmountStart? || pc.Waiting? || pc.Detaching? || pc.Ending?
    ensures var s' := Run(s, t, ok); (u in s'.threads <==> u in s.threads) && (u in s.threads ==> s'.threads[u] == s.threads[u])
  {
  }

  lemma HeldBefore(s: State, step: Step, u: ThreadId, k: SessionId, h: Handle)
    requires HoldsFor(Apply(s, step), u, k, h)
    ensures HoldsFor(s, u, k, h) || (Makes(s, step, k) && h == s.next)
  {
    if step.Advance? && step.t in s.threads {
      if u == step.t {
        OwnBefore(s, u, step.ok, h);
      } else {
        OtherStays(s, step.t, step.ok, u);
      }
    }
  }

  // What a step enters, or loses, was held by its thread, and nothing is undone.
  lemma EntryBefore(s: State, t: ThreadId, ok: bool, k: SessionId, h: Handle)
    requires t in s.threads
    ensures var s' := Run(s, t, ok);
            && (AtEntry(s'.table, k, h) ==> AtEntry(s.table, k, h) || HoldsFor(s, t, k, h))
            && (LostFor(s', k, h) ==> LostFor(s, k, h) || HoldsFor(s, t, k, h))
  {
    if IsQuiet(s.threads[t], ok) {
      QuietStays(s, t, ok);
    }
  }

  lemma LiveBefore(s: State, step: Step, k: SessionId, h: Handle)
    requires Live(Apply(s, step), k, h)
    ensures Live(s, k, h) || (Makes(s, step, k) && h == s.next)
  {
    var s' := Apply(s, step);
    DetachedStays(s, step, h);
    if AtEntry(s'.table, k, h) || LostFor(s', k, h) {
      if step.Advance? && step.t in s.threads {
        EntryBefore(s, step.t, step.ok, k, h);
      }
    } else {
      var u: ThreadId :| HoldsFor(s', u, k, h);
      HeldBefore(s, step, u, k, h);
    }
  }

  lemma LiveAfter(s: State, step: Step, k: SessionId, h: Handle)
    requires Makes(s, step, k) && GivenUp(s, k, h) && Detachments(s, h) == 0
    ensures Live(Apply(s, step), k, h)
  {
    var s' := Apply(s, step);
    if !LostFor(s, k, h) {
      var t: ThreadId :| HoldsFor(s, t, k, h) && s.threads[t].Undoing?;
      assert HoldsFor(s', t, k, h);
    }
  }

  lemma OverlapDoubles(s: State, step: Step, owner: map<Handle, Owner>, k: SessionId, h: Handle)
    requires Sound(s) && OwnedBy(s, owner) && Makes(s, step, k) && GivenUp(s, k, h)
    ensures h != s.next && Live(Apply(s, step), k, h) && Live(Apply(s, step), k, s.next)
  {
    if LostFor(s, k, h) {
      assert Owns(s, Lost, h);
      LostOnly(s, owner, h);
    } else {
      var t: ThreadId :| HoldsFor(s, t, k, h) && s.threads[t].Undoing?;
      NoEntryFor(s, owner, t, h);
    }
    LiveAfter(s, step, k, h);
    assert HoldsFor(Apply(s, step), step.t, k, s.next) && Detachments(Apply(s, step), s.next) == Detachments(s, s.next);
  }

  // While a session's mount is being made, its only live mounts were given up.
  lemma OthersGivenUp(s: State, step: Step, k: SessionId, h: Handle)
    requires Sound(s) && Makes(s, step, k) && Live(s, k, h)
    ensures GivenUp(s, k, h)
  {
    assert Reserves(s, step.t, k);
    if !LostFor(s, k, h) {
      var u: ThreadId :| HoldsFor(s, u, k, h);
      assert s.threads[u].Mounted? ==> Reserves(s, u, k);
    }
  }

  /** Exactly one step makes a second live mount of a session: the driver's, while a mount
      of the session that was given up is still there. */
  lemma OneLiveStepIff(s: State, step: Step, owner: map<Handle, Owner>)
    requires Sound(s) && OwnedBy(s, owner) && OneLive(s)
    ensures OneLive(Apply(s, step)) <==> !Overlaps(s, step)
  {
    var s' := Apply(s, step);
    if Overlaps(s, step) {
      var k, h: Handle :| Makes(s, step, k) && GivenUp(s, k, h);
      OverlapDoubles(s, step, owner, k, h);
    } else {
      forall k, h: Handle, h': Handle | Live(s', k, h) && Live(s', k, h') ensures h == h' {
        LiveBefore(s, step, k, h);
        LiveBefore(s, step, k, h');
        if Makes(s, step, k) && Live(s, k, h) {
          OthersGivenUp(s, step, k, h);
        }
        if Makes(s, step, k) && Live(s, k, h') {
          OthersGivenUp(s, step, k, h');
        }
      }
    }
  }

  ghost predicate AlwaysOneLive(steps: seq<Step>) { forall n :: 0 <= n <= |steps| ==> OneLive(Exec(Init, steps[..n])) }

  ghost predicate NeverOverlaps(steps: seq<Step>) { forall n :: 0 <= n < |steps| ==> !Overlaps(Exec(Init, steps[..n]), steps[n]) }

  lemma ExecPrefix(steps: seq<Step>, n: nat)
    requires n < |steps|
    ensures Exec(Init, steps[..n + 1]) == Apply(Exec(Init, steps[..n]), steps[n])
  {
    assert steps[..n + 1][..n] == steps[..n];
  }

  lemma {:induction false} OneLivePrefix(steps: seq<Step>, n: nat)
    requires NeverOverlaps(steps) && n <= |steps|
    ensures OneLive(Exec(Init, steps[..n]))
  {
    if n > 0 {
      OneLivePrefix(steps, n - 1);
      var owner := MountsAccounted(steps[..n - 1]);
      OneLiveStepIff(Exec(Init, steps[..n - 1]), steps[n - 1], owner);
      ExecPrefix(steps, n - 1);
    }
  }

  /** Over every schedule: no session ever has two live mounts, if and only if the driver
      never makes one while another of the session, given up, is still there. */
  lemma OneLiveIff(steps: seq<Step>)
    ensures AlwaysOneLive(steps) <==> NeverOverlaps(steps)
  {
    if NeverOverlaps(steps) {
      forall n: nat | 0 <= n <= |steps| ensures OneLive(Exec(Init, steps[..n])) {
        OneLivePrefix(steps, n);
      }
    } else {
      var n :| 0 <= n < |steps| && Overlaps(Exec(Init, steps[..n]), steps[n]);
      var owner := MountsAccounted(steps[..n]);
      if OneLive(Exec(Init, steps[..n])) {
        OneLiveStepIff(Exec(Init, steps[..n]), steps[n], owner);
        ExecPrefix(steps, n);
      }
    }
  }

  // ----- a recorded mount

  predicate Recorded(s: State, k: SessionId, m: LifetimeMount) { k in s.table.fsMounts && s.table.fsMounts[k] == m }

  ghost predicate RecordedOrGone(s: State, k: SessionId, m: LifetimeMount) { Recorded(s, k, m) || Detachments(s, m.handle) > 0 }

  // It is still there, and whoever asks for its removal waits for one or performs it; or
  // it has been unmounted.
  ghost predicate Removable(s: State, k: SessionId, m: LifetimeMount, ch: Chan) {
    if Recorded(s, k, m)
    then var begin := BeginUnmountRegion(s.table, k, m.mountID, ch).1; begin.WaitFor? || begin == Mine(m.handle)
    else Detachments(s, m.handle) == 1
  }

  lemma EntryStays(s: State, t: ThreadId, ok: bool, k: SessionId, m: LifetimeMount)
    requires Sound(s) && Recorded(s, k, m) && t in s.threads
    ensures RecordedOrGone(Run(s, t, ok), k, m)
  {
    var pc := s.threads[t];
    if IsQuiet(pc, ok) {
      QuietStays(s, t, ok);
    } else if pc.Mounted? {
      assert Reserves(s, t, pc.k);
    } else if pc.Ending? {
      assert Removes(s, t, pc.k) && Ended(s, pc.k);
    }
  }

  lemma DetachedStays(s: State, step: Step, h: Handle)
    ensures Detachments(s, h) <= Detachments(Apply(s, step), h)
  {
  }

  lemma RecordedStep(s: State, step: Step, k: SessionId, m: LifetimeMount)
    requires Sound(s) && RecordedOrGone(s, k, m)
    ensures RecordedOrGone(Apply(s, step), k, m)
  {
    DetachedStays(s, step, m.handle);
    if Recorded(s, k, m) && step.Advance? && step.t in s.threads {
      EntryStays(s, step.t, step.ok, k, m);
    }
  }

  lemma {:induction false} StaysRecorded(steps: seq<Step>, more: seq<Step>, k: SessionId, m: LifetimeMount)
    requires Recorded(Exec(Init, steps), k, m)
    ensures RecordedOrGone(Exec(Init, steps + more), k, m)
  {
    if more == [] {
      assert steps + more == steps;
    } else {
      var front := more[..|more| - 1];
      StaysRecorded(steps, front, k, m);
      OneMore(steps, more);
      var owner := MountsAccounted(steps + front);
      RecordedStep(Exec(Init, steps + front), more[|more| - 1], k, m);
    }
  }

  lemma OneMore(steps: seq<Step>, more: seq<Step>)
    requires more != []
    ensures Exec(Init, steps + more) == Apply(Exec(Init, steps + more[..|more| - 1]), more[|more| - 1])
  {
    assert (steps + more)[..|steps + more| - 1] == steps + more[..|more| - 1];
  }

  /** A mount that was recorded stays so until it has been unmounted, and no request to
      remove it before is refused as busy or finds nothing. */
  lemma RecordedIsRemovable(steps: seq<Step>, more: seq<Step>, k: SessionId, ch: Chan)
    requires k in Exec(Init, steps).table.fsMounts
    ensures Removable(Exec(Init, steps + more), k, Exec(Init, steps).table.fsMounts[k], ch)
  {
    var s, m := Exec(Init, steps + more), Exec(Init, steps).table.fsMounts[k];
    var owner := MountsAccounted(steps + more);
    StaysRecorded(steps, more, k, m);
  }

  // ----- calls that nothing interleaves with

  function Alone(s: State, t: ThreadId, entry: Pc, ok: bool, n: nat): State {
    if n == 0 then Apply(s, Call(t, entry)) else Apply(Alone(s, t, entry, ok, n - 1), Advance(t, ok))
  }

  lemma ThreeSteps(s: State, t: ThreadId, entry: Pc, ok: bool)
    ensures Alone(s, t, entry, ok, 3) == Run(Run(Run(Apply(s, Call(t, entry)), t, ok), t, ok), t, ok)
  {
    assert Alone(s, t, entry, ok, 1) == Apply(Alone(s, t, entry, ok, 0), Advance(t, ok));
    assert Alone(s, t, entry, ok, 2) == Apply(Alone(s, t, entry, ok, 1), Advance(t, ok));
  }

  /** A mount.create for a session without a mount, on a server that is not draining, makes
      one mount and records it. */
  lemma CreateRecords(s: State, t: ThreadId, k: SessionId, id: MountId)
    requires t !in s.threads && k !in s.table.fsMounting && k !in s.table.fsMounts && !s.table.draining
    ensures Alone(s, t, MountStart(k, id), true, 3) ==
            s.(table := s.table.(fsMounts := s.table.fsMounts[k := LifetimeMount(s.next, id)]), next := s.next + 1,
               threads := s.threads[t := Returned])
  {
    ThreeSteps(s, t, MountStart(k, id), true);
    var s1 := Run(Apply(s, Call(t, MountStart(k, id))), t, true);
    assert s1.threads == s.threads[t := Mounting(k, id)];
    var s2 := Run(s1, t, true);
    assert s2.threads == s.threads[t := Mounted(k, id, s.next)];
    assert s2.threads[t := Returned] == s.threads[t := Returned];
    assert s.table.fsMounting + {k} - {k} == s.table.fsMounting;
  }

  /** A mount.create for a session that has a mount is refused and changes nothing; so is one
      for a session whose mount is being made. */
  lemma CreateIsRefused(s: State, t: ThreadId, k: SessionId, id: MountId, ok: bool)
    requires t !in s.threads && (k in s.table.fsMounting || k in s.table.fsMounts)
    ensures Run(Apply(s, Call(t, MountStart(k, id))), t, ok) == Goto(s, t, Returned)
  {
    assert s.threads[t := MountStart(k, id)][t := Returned] == s.threads[t := Returned];
  }

  // The session's removal under way, by `t`.
  function Begun(s: State, t: ThreadId, k: SessionId): State
    requires k in s.table.fsMounts
  {
    s.(table := s.table.(fsUnmounting := s.table.fsUnmounting[k := s.nextChan]), nextChan := s.nextChan + 1,
       threads := s.threads[t := Detaching(k, s.table.fsMounts[k].handle, s.nextChan)])
  }

  lemma RemovalStarts(s: State, t: ThreadId, k: SessionId, id: MountId, ok: bool)
    requires t !in s.threads && k !in s.table.fsMounting && k in s.table.fsMounts && k !in s.table.fsUnmounting
    requires id == s.table.fsMounts[k].mountID
    ensures Run(Apply(s, Call(t, UnmountStart(k, id))), t, ok) == Begun(s, t, k)
  {
    var pc := Detaching(k, s.table.fsMounts[k].handle, s.nextChan);
    assert s.threads[t := UnmountStart(k, id)][t := pc] == s.threads[t := pc];
  }

  lemma RemovalRuns(s: State, t: ThreadId, k: SessionId, h: Handle, ch: Chan, ok: bool)
    requires t in s.threads && s.threads[t] == Detaching(k, h, ch)
    ensures var s' := Run(Run(s, t, ok), t, ok);
            && s'.threads == s.threads[t := Returned] && s'.table == EndUnmountRegion(s.table, k, ok)
            && s'.detached == (if ok then s.detached[h := Detachments(s, h) + 1] else s.detached)
  {
    var s1 := Run(s, t, ok);
    assert s1.threads == s.threads[t := Ending(k, h, ch, ok)];
    assert s1.threads[t := Returned] == s.threads[t := Returned];
  }

  lemma RemovalAlone(s: State, t: ThreadId, k: SessionId, id: MountId, ok: bool)
    requires t !in s.threads && k !in s.table.fsMounting && k in s.table.fsMounts && k !in s.table.fsUnmounting
    requires id == s.table.fsMounts[k].mountID
    ensures var s1, s', h := Begun(s, t, k), Alone(s, t, UnmountStart(k, id), ok, 3), s.table.fsMounts[k].handle;
            && s'.threads == s1.threads[t := Returned] && s'.table == EndUnmountRegion(s1.table, k, ok)
            && s'.detached == (if ok then s1.detached[h := Detachments(s1, h) + 1] else s1.detached)
  {
    ThreeSteps(s, t, UnmountStart(k, id), ok);
    RemovalStarts(s, t, k, id, ok);
    RemovalRuns(Begun(s, t, k), t, k, s.table.fsMounts[k].handle, s.nextChan, ok);
  }

  /** A removal of a recorded mount unmounts it and takes it out of the table; if the driver
      fails the mount stays, recorded and not unmounted. */
  lemma RemoveUnmounts(s: State, t: ThreadId, k: SessionId, ok: bool)
    requires t !in s.threads && k !in s.table.fsMounting && k in s.table.fsMounts && k !in s.table.fsUnmounting
    ensures var m := s.table.fsMounts[k]; var s' := Alone(s, t, UnmountStart(k, m.mountID), ok, 3);
            && s'.threads == s.threads[t := Returned]
            && s'.table == (if ok then s.table.(fsMounts := s.table.fsMounts - {k}) else s.table)
            && s'.detached == (if ok then s.detached[m.handle := Detachments(s, m.handle) + 1] else s.detached)
  {
    RemovalAlone(s, t, k, s.table.fsMounts[k].mountID, ok);
    assert Begun(s, t, k).threads[t := Returned] == s.threads[t := Returned];
    assert s.table.fsUnmounting[k := s.nextChan] - {k} == s.table.fsUnmounting;
  }

  /** Who waited for a removal looks again when it has ended, and removes the mount itself if
      it is still there. */
  lemma WaiterLooksAgain(s: State, t: ThreadId, k: SessionId, id: MountId, ch: Chan, ok: bool)
    requires t in s.threads && s.threads[t] == Waiting(k, id, ch) && Closes(s, ch) > 0
    ensures Run(s, t, ok) == Goto(s, t, UnmountStart(k, id))
    ensures k !in s.table.fsMounting && k in s.table.fsMounts && s.table.fsMounts[k].mountID == id && k !in s.table.fsUnmounting ==>
              Run(Run(s, t, ok), t, ok).threads[t] == Detaching(k, s.table.fsMounts[k].handle, s.nextChan)
    ensures k !in s.table.fsMounting && k !in s.table.fsMounts ==> Run(Run(s, t, ok), t, ok).threads[t] == Returned
  {
  }
}
