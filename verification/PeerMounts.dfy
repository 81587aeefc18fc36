/**
 internal/remotefs/peer.go: the mounts a peer owns.

 A mount.create handler calls OnMount, then records the mount unless the peer
 has closed or the request was cancelled; mount.release, a cancel frame and
 close each take a mount out of the table and call OnUnmount.  The table is
 locked only while it is touched, so all of these interleave: each critical
 section and each callback is one atomic step here.
 */
module PeerMounts {
  type MountId = string
  type ThreadId = nat

  // ----- the fields behind p.mountMu

  datatype Table = Table(mounts: set<MountId>, closed: bool)

  // mount.create, after OnMount: decides who owns the mount just made.
  function RecordRegion(tb: Table, id: MountId, cancelled: bool): (Table, bool) {
    if tb.closed || cancelled then (tb, false) else (tb.(mounts := tb.mounts + {id}), true)
  }

  // mount.release after OnUnmount, and a cancel frame before it.
  function ForgetRegion(tb: Table, id: MountId): Table {
    tb.(mounts := tb.mounts - {id})
  }

  // close: takes every mount, and none is recorded afterwards.
  function CloseRegion(tb: Table): (Table, set<MountId>) {
    (Table({}, true), tb.mounts)
  }

  class MountTable {
    var mounts: set<MountId>
    var mountClosed: bool

    function View(): Table reads this { Table(mounts, mountClosed) }

    constructor ()
      ensures View() == Table({}, false)
    {
      mounts, mountClosed := {}, false;
    }

    method Record(id: MountId, cancelled: bool) returns (recorded: bool)
      modifies this
      ensures (View(), recorded) == RecordRegion(old(View()), id, cancelled)
      ensures recorded <==> !old(mountClosed) && !cancelled
      ensures recorded ==> id in mounts
    {
      if mountClosed || cancelled {
        return false;
      }
      mounts := mounts + {id};
      return true;
    }

    method Forget(id: MountId)
      modifies this
      ensures View() == ForgetRegion(old(View()), id)
      ensures id !in mounts
    {
      mounts := mounts - {id};
    }

    method CloseAll() returns (taken: set<MountId>)
      modifies this
      ensures (View(), taken) == CloseRegion(old(View()))
      ensures taken == old(mounts) && mounts == {} && mountClosed
    {
      taken := mounts;
      mounts, mountClosed := {}, true;
    }
  }

  // ----- threads

  datatype Pc =
    | CreateStart(id: MountId)            // about to call OnMount
    | CreateMounted(id: MountId)          // OnMount succeeded, nothing recorded yet
    | ReleaseStart(id: MountId)           // about to call OnUnmount
    | ReleaseUnmounted(id: MountId)       // OnUnmount succeeded, still in the table
    | CancelStart(victim: ThreadId, id: MountId)   // cancel frame carrying a mount
    | CancelForget(id: MountId)
    | CloseStart                          // close: about to cancel the active handlers
    | CloseTake
    | Unmounting(ids: set<MountId>)       // owes an OnUnmount of each of ids
    | Returned

  datatype State = State(
    table: Table,
    closeBegun: bool,                     // closeOnce
    live: set<MountId>,                   // produced by OnMount, not yet undone
    cancelled: set<ThreadId>,             // handlers whose context is done
    threads: map<ThreadId, Pc>)

  // `Interrupt` is a handler's parent context ending, at any time.
  datatype Step =
    | Call(t: ThreadId, entry: Pc)
    | Interrupt(t: ThreadId)
    | Advance(t: ThreadId, ok: bool, pick: MountId)

  const Init := State(Table({}, false), false, {}, {}, map[])

  predicate IsEntry(pc: Pc) {
    pc.CreateStart? || pc.ReleaseStart? || pc.CancelStart? || pc.CloseStart?
  }

  function Goto(s: State, t: ThreadId, pc: Pc): State {
    s.(threads := s.threads[t := pc])
  }

  function Apply(s: State, step: Step): State {
    match step
    case Call(t, entry) => if t !in s.threads && IsEntry(entry) then Goto(s, t, entry) else s
    case Interrupt(t) => s.(cancelled := s.cancelled + {t})
    case Advance(t, ok, pick) =>
      if t !in s.threads then s else
      match s.threads[t]
      case CreateStart(id) => if ok then Goto(s.(live := s.live + {id}), t, CreateMounted(id)) else Goto(s, t, Returned)
      case CreateMounted(id) =>
        var (table, recorded) := RecordRegion(s.table, id, t in s.cancelled);
        Goto(s.(table := table), t, if recorded then Returned else Unmounting({id}))
      case ReleaseStart(id) =>
        if ok then Goto(s.(live := s.live - {id}), t, ReleaseUnmounted(id)) else Goto(s, t, Returned)
      case ReleaseUnmounted(id) => Goto(s.(table := ForgetRegion(s.table, id)), t, Returned)
      case CancelStart(victim, id) => Goto(s.(cancelled := s.cancelled + {victim}), t, CancelForget(id))
      case CancelForget(id) => Goto(s.(table := ForgetRegion(s.table, id)), t, Unmounting({id}))
      case CloseStart =>
        if s.closeBegun then Goto(s, t, Returned)
        else Goto(s.(closeBegun := true, cancelled := s.cancelled + s.threads.Keys), t, CloseTake)
      case CloseTake =>
        var (table, taken) := CloseRegion(s.table);
        Goto(s.(table := table), t, Unmounting(taken))
      case Unmounting(ids) =>
        if ids == {} then Goto(s, t, Returned)
        else if pick in ids then Goto(s.(live := s.live - {pick}), t, Unmounting(ids - {pick}))
        else s
      case Returned => s
  }

  function Exec(s: State, steps: seq<Step>): State {
    if steps == [] then s else Apply(Exec(s, steps[..|steps| - 1]), steps[|steps| - 1])
  }

  // ----- conservation

  predicate Covers(pc: Pc, id: MountId) {
    (pc.CreateMounted? && pc.id == id) || (pc.Unmounting? && id in pc.ids)
  }

  ghost predicate CoveredByThread(s: State, id: MountId) {
    exists t :: t in s.threads && Covers(s.threads[t], id)
  }

  // Every live mount is in the table, held by a handler that has not recorded
  // it, or covered by an OnUnmount still to come.
  ghost predicate Conserved(s: State) {
    forall id :: id in s.live ==> id in s.table.mounts || CoveredByThread(s, id)
  }

  // A release deletes the entry of a mount that is live again, and nothing covers it.
  ghost predicate Loses(s: State, step: Step) {
    && step.Advance? && step.t in s.threads && s.threads[step.t].ReleaseUnmounted?
    && var id := s.threads[step.t].id; id in s.live && !CoveredByThread(s, id)
  }

  lemma CoverStays(s: State, step: Step, id: MountId)
    requires CoveredByThread(s, id)
    requires id in s.live && id in Apply(s, step).live
    ensures CoveredByThread(Apply(s, step), id) || id in Apply(s, step).table.mounts
  {
    var t :| t in s.threads && Covers(s.threads[t], id);
    var s' := Apply(s, step);
    if id !in s'.table.mounts {
      assert t in s'.threads && Covers(s'.threads[t], id);
    }
  }

  /** Exactly one step loses a mount: that deletion. */
  lemma ConservedStepIff(s: State, step: Step)
    requires Conserved(s)
    ensures Conserved(Apply(s, step)) <==> !Loses(s, step)
  {
    var s' := Apply(s, step);
    if Loses(s, step) {
      var id := s.threads[step.t].id;
      forall t | t in s'.threads ensures !Covers(s'.threads[t], id) {
        if t != step.t {
          assert s'.threads[t] == s.threads[t];
        }
      }
      assert id in s'.live && id !in s'.table.mounts && !CoveredByThread(s', id);
    } else {
      forall id | id in s'.live ensures id in s'.table.mounts || CoveredByThread(s', id) {
        if id !in s.live {
          assert Covers(s'.threads[step.t], id);
        } else if CoveredByThread(s, id) {
          CoverStays(s, step, id);
        } else if id !in s'.table.mounts {
          assert Covers(s'.threads[step.t], id);
        }
      }
    }
  }

  ghost predicate NeverLoses(steps: seq<Step>) {
    forall k :: 0 <= k < |steps| ==> !Loses(Exec(Init, steps[..k]), steps[k])
  }

  ghost predicate AlwaysConserved(steps: seq<Step>) {
    forall k :: 0 <= k <= |steps| ==> Conserved(Exec(Init, steps[..k]))
  }

  lemma ExecPrefix(steps: seq<Step>, k: nat)
    requires k < |steps|
    ensures Exec(Init, steps[..k + 1]) == Apply(Exec(Init, steps[..k]), steps[k])
  {
    assert steps[..k + 1][..k] == steps[..k];
  }

  lemma {:induction false} ConservedPrefix(steps: seq<Step>, k: nat)
    requires NeverLoses(steps) && k <= |steps|
    ensures Conserved(Exec(Init, steps[..k]))
  {
    if k > 0 {
      ConservedPrefix(steps, k - 1);
      ConservedStepIff(Exec(Init, steps[..k - 1]), steps[k - 1]);
      ExecPrefix(steps, k - 1);
    }
  }

  /** Over every schedule of creates, releases, cancels and close: each live mount is
      always in the table, held by a handler or covered, if and only if no release makes
      such a deletion. */
  lemma ConservedIff(steps: seq<Step>)
    ensures AlwaysConserved(steps) <==> NeverLoses(steps)
  {
    if NeverLoses(steps) {
      forall k: nat | 0 <= k <= |steps| ensures Conserved(Exec(Init, steps[..k])) {
        ConservedPrefix(steps, k);
      }
    } else {
      var k :| 0 <= k < |steps| && Loses(Exec(Init, steps[..k]), steps[k]);
      if Conserved(Exec(Init, steps[..k])) {
        ConservedStepIff(Exec(Init, steps[..k]), steps[k]);
        ExecPrefix(steps, k);
      }
    }
  }

  // ----- what a caller can avoid

  // An OnMount succeeds while a release of the same ID stands between its OnUnmount and
  // its deletion.
  ghost predicate Mid(s: State, step: Step) {
    && step.Advance? && step.ok && step.t in s.threads && s.threads[step.t].CreateStart?
    && exists u :: u in s.threads && s.threads[u] == ReleaseUnmounted(s.threads[step.t].id)
  }

  ghost predicate NeverMid(steps: seq<Step>) {
    forall k :: 0 <= k < |steps| ==> !Mid(Exec(Init, steps[..k]), steps[k])
  }

  // A release that has unmounted has left nothing live.
  ghost predicate Undone(s: State) {
    forall t :: t in s.threads && s.threads[t].ReleaseUnmounted? ==> s.threads[t].id !in s.live
  }

  lemma UndoneStep(s: State, step: Step)
    requires Undone(s) && !Mid(s, step)
    ensures Undone(Apply(s, step))
  {
    var s' := Apply(s, step);
    forall t | t in s'.threads && s'.threads[t].ReleaseUnmounted? ensures s'.threads[t].id !in s'.live {
      if t != step.t {
        assert s'.threads[t] == s.threads[t];
      }
    }
  }

  lemma {:induction false} UndonePrefix(steps: seq<Step>, k: nat)
    requires NeverMid(steps) && k <= |steps|
    ensures Undone(Exec(Init, steps[..k]))
  {
    if k > 0 {
      UndonePrefix(steps, k - 1);
      UndoneStep(Exec(Init, steps[..k - 1]), steps[k - 1]);
      ExecPrefix(steps, k - 1);
    }
  }

  /** While no OnMount falls into that gap, no interleaving of creates, releases,
      cancels and close loses track of a mount.  Other overlaps are harmless. */
  lemma MountsAreConserved(steps: seq<Step>)
    requires NeverMid(steps)
    ensures NeverLoses(steps) && AlwaysConserved(steps)
  {
    forall k: nat | 0 <= k < |steps| ensures !Loses(Exec(Init, steps[..k]), steps[k]) {
      UndonePrefix(steps, k);
    }
    ConservedIff(steps);
  }

  /** An OnMount that does fall into it can lose its mount, whatever else the peer is
      doing: it does when recording comes before the deletion. */
  lemma GapLosesMount(s: State, t: ThreadId, u: ThreadId, id: MountId)
    requires t in s.threads && s.threads[t] == CreateStart(id) && t !in s.cancelled && !s.table.closed
    requires u in s.threads && s.threads[u] == ReleaseUnmounted(id)
    requires !CoveredByThread(s, id)
    ensures var s1 := Apply(s, Advance(t, true, id)); var s2 := Apply(s1, Advance(t, true, id));
            Mid(s, Advance(t, true, id)) && Loses(s2, Advance(u, true, id)) && !Conserved(Apply(s2, Advance(u, true, id)))
  {
    var s1 := Apply(s, Advance(t, true, id));
    var s2 := Apply(s1, Advance(t, true, id));
    var s3 := Apply(s2, Advance(u, true, id));
    assert s2.threads == s.threads[t := Returned];
    forall v | v in s3.threads ensures !Covers(s3.threads[v], id) {
      if v != t && v != u {
        assert s3.threads[v] == s.threads[v];
      }
    }
    assert id in s3.live && id !in s3.table.mounts;
  }

  predicate Quiescent(s: State) {
    forall t :: t in s.threads ==> s.threads[t].Returned?
  }

  ghost predicate ClosedIsEmpty(s: State) { s.table.closed ==> s.table.mounts == {} }

  lemma {:induction false} AlwaysClosedIsEmpty(steps: seq<Step>)
    ensures ClosedIsEmpty(Exec(Init, steps))
  {
    if steps != [] {
      AlwaysClosedIsEmpty(steps[..|steps| - 1]);
    }
  }

  // The k-th step is the first one of a close.
  predicate Closes(steps: seq<Step>, k: nat) {
    && k < |steps| && steps[k].Advance?
    && var s := Exec(Init, steps[..k]); steps[k].t in s.threads && s.threads[steps[k].t].CloseStart?
  }

  // A close that began has closed the table, or is about to.
  ghost predicate WillClose(s: State) {
    s.closeBegun ==> s.table.closed || exists t :: t in s.threads && s.threads[t].CloseTake?
  }

  lemma WillCloseStep(s: State, step: Step)
    requires WillClose(s)
    ensures WillClose(Apply(s, step)) && (s.closeBegun ==> Apply(s, step).closeBegun)
  {
    var s' := Apply(s, step);
    if s.closeBegun && !s.table.closed {
      var t :| t in s.threads && s.threads[t].CloseTake?;
      assert s'.table.closed || (t in s'.threads && s'.threads[t].CloseTake?);
    } else if s'.closeBegun && !s.closeBegun {
      assert step.t in s'.threads && s'.threads[step.t].CloseTake?;
    }
  }

  lemma {:induction false} AlwaysWillClose(steps: seq<Step>)
    ensures WillClose(Exec(Init, steps))
  {
    if steps != [] {
      AlwaysWillClose(steps[..|steps| - 1]);
      WillCloseStep(Exec(Init, steps[..|steps| - 1]), steps[|steps| - 1]);
    }
  }

  lemma {:induction false} CloseIsBegun(steps: seq<Step>, k: nat)
    requires Closes(steps, k)
    ensures Exec(Init, steps).closeBegun
  {
    var n := |steps| - 1;
    if k < n {
      assert steps[..n][..k] == steps[..k];
      CloseIsBegun(steps[..n], k);
      AlwaysWillClose(steps[..n]);
      WillCloseStep(Exec(Init, steps[..n]), steps[n]);
    }
  }

  /** Once close has been called and every call has returned, the table is closed and empty,
      and no mount is left if no release has lost one. */
  lemma CloseLeavesNoMount(steps: seq<Step>, k: nat)
    requires Closes(steps, k) && Quiescent(Exec(Init, steps))
    ensures Exec(Init, steps).table == Table({}, true)
    ensures NeverLoses(steps) ==> Exec(Init, steps).live == {}
  {
    var s := Exec(Init, steps);
    CloseIsBegun(steps, k);
    AlwaysWillClose(steps);
    AlwaysClosedIsEmpty(steps);
    if NeverLoses(steps) {
      assert steps[..|steps|] == steps;
      ConservedPrefix(steps, |steps|);
      assert forall id :: id !in s.live;
    }
  }

  // ----- calls that nothing interleaves with

  function Alone(s: State, t: ThreadId, entry: Pc, id: MountId, n: nat): State {
    if n == 0 then Apply(s, Call(t, entry)) else Apply(Alone(s, t, entry, id, n - 1), Advance(t, true, id))
  }

  lemma FourSteps(s: State, t: ThreadId, entry: Pc, id: MountId)
    ensures var go := Advance(t, true, id); var s2 := Apply(Apply(Apply(s, Call(t, entry)), go), go);
            Alone(s, t, entry, id, 2) == s2 && Alone(s, t, entry, id, 4) == Apply(Apply(s2, go), go)
  {
    var go := Advance(t, true, id);
    assert Alone(s, t, entry, id, 1) == Apply(Alone(s, t, entry, id, 0), go);
    assert Alone(s, t, entry, id, 3) == Apply(Alone(s, t, entry, id, 2), go);
  }

  /** A create mounts, and records the mount on an open peer; of a cancelled request or a
      closed peer it unmounts it again and records nothing. */
  lemma CreateMounts(s: State, t: ThreadId, id: MountId)
    requires t !in s.threads
    ensures !s.table.closed && t !in s.cancelled ==>
              Alone(s, t, CreateStart(id), id, 2) ==
              s.(table := s.table.(mounts := s.table.mounts + {id}), live := s.live + {id}, threads := s.threads[t := Returned])
    ensures s.table.closed || t in s.cancelled ==>
              Alone(s, t, CreateStart(id), id, 4) == s.(live := s.live - {id}, threads := s.threads[t := Returned])
  {
    FourSteps(s, t, CreateStart(id), id);
    var go := Advance(t, true, id);
    var s1 := Apply(Apply(s, Call(t, CreateStart(id))), go);
    var s2 := Apply(s1, go);
    assert s1.threads == s.threads[t := CreateMounted(id)];
    if s.table.closed || t in s.cancelled {
      assert s2 == s.(live := s.live + {id}, threads := s.threads[t := Unmounting({id})]);
      UnmountsOne(s2, t, id);
      assert s.live + {id} - {id} == s.live - {id} && s2.threads[t := Returned] == s.threads[t := Returned];
    } else {
      assert s2.threads == s.threads[t := Returned];
    }
  }

  lemma UnmountsOne(s: State, t: ThreadId, id: MountId)
    requires t in s.threads && s.threads[t] == Unmounting({id})
    ensures var go := Advance(t, true, id); Apply(Apply(s, go), go) == s.(live := s.live - {id}, threads := s.threads[t := Returned])
  {
    var s1 := Apply(s, Advance(t, true, id));
    assert {id} - {id} == {} && s1.threads == s.threads[t := Unmounting({})];
    assert s1.threads[t := Returned] == s.threads[t := Returned];
  }

  /** A request that is cancelled after OnMount has its mount undone, too. */
  lemma InterruptedCreateUndoes(s: State, t: ThreadId, id: MountId)
    requires t in s.threads && s.threads[t] == CreateMounted(id)
    ensures var go := Advance(t, true, id); var s1 := Apply(s, Interrupt(t));
            Apply(Apply(Apply(s1, go), go), go) == s1.(live := s.live - {id}, threads := s.threads[t := Returned]) && t in s1.cancelled
  {
    var s1 := Apply(s, Interrupt(t));
    var s2 := Apply(s1, Advance(t, true, id));
    assert s2 == s1.(threads := s.threads[t := Unmounting({id})]);
    UnmountsOne(s2, t, id);
    assert s2.threads[t := Returned] == s.threads[t := Returned];
  }

  /** A release unmounts and forgets. */
  lemma ReleaseUnmounts(s: State, t: ThreadId, id: MountId)
    requires t !in s.threads
    ensures Alone(s, t, ReleaseStart(id), id, 2) ==
            s.(table := s.table.(mounts := s.table.mounts - {id}), live := s.live - {id}, threads := s.threads[t := Returned])
  {
    FourSteps(s, t, ReleaseStart(id), id);
    var s1 := Apply(Apply(s, Call(t, ReleaseStart(id))), Advance(t, true, id));
    assert s1.threads == s.threads[t := ReleaseUnmounted(id)];
    assert s1.threads[t := Returned] == s.threads[t := Returned];
  }

  /** A cancel frame that names a mount cancels its handler, forgets the mount and unmounts it. */
  lemma CancelUnmounts(s: State, t: ThreadId, victim: ThreadId, id: MountId)
    requires t !in s.threads
    ensures Alone(s, t, CancelStart(victim, id), id, 4) ==
            s.(table := s.table.(mounts := s.table.mounts - {id}), live := s.live - {id},
               cancelled := s.cancelled + {victim}, threads := s.threads[t := Returned])
  {
    FourSteps(s, t, CancelStart(victim, id), id);
    var go := Advance(t, true, id);
    var s1 := Apply(Apply(s, Call(t, CancelStart(victim, id))), go);
    var s2 := Apply(s1, go);
    assert s1.threads == s.threads[t := CancelForget(id)];
    assert s2.threads == s.threads[t := Unmounting({id})];
    UnmountsOne(s2, t, id);
    assert s2.threads[t := Returned] == s.threads[t := Returned];
  }

  // One more step of a schedule from Init.
  lemma Then(steps: seq<Step>, s: State, step: Step) returns (steps': seq<Step>, s': State)
    requires s == Exec(Init, steps)
    ensures s' == Apply(s, step) && s' == Exec(Init, steps')
  {
    steps', s' := steps + [step], Apply(s, step);
    assert steps'[..|steps|] == steps;
  }

  lemma ForgottenByRelease() returns (steps: seq<Step>, s: State)
    ensures s == Exec(Init, steps)
    ensures s == State(Table({}, false), false, {"m"}, {}, map[0 := Returned, 1 := Returned])
  {
    s, steps := Init, [];
    steps, s := Then(steps, s, Call(0, ReleaseStart("m")));
    steps, s := Then(steps, s, Call(1, CreateStart("m")));
    assert s.threads == map[0 := ReleaseStart("m"), 1 := CreateStart("m")];
    steps, s := Then(steps, s, Advance(0, true, ""));
    steps, s := Then(steps, s, Advance(1, true, ""));
    assert s == State(Table({}, false), false, {"m"}, {}, map[0 := ReleaseUnmounted("m"), 1 := CreateMounted("m")]);
    steps, s := Then(steps, s, Advance(1, true, ""));
    assert s == State(Table({"m"}, false), false, {"m"}, {}, map[0 := ReleaseUnmounted("m"), 1 := Returned]);
    steps, s := Then(steps, s, Advance(0, true, ""));
  }

  /** The proviso is needed: a create that fits between a release's OnUnmount and
      its deletion from the table is forgotten, and survives even close. */
  lemma OverlappingReleaseLosesMount() returns (steps: seq<Step>)
    ensures var s := Exec(Init, steps); s.table.closed && Quiescent(s) && s.live == {"m"}
  {
    var s;
    steps, s := ForgottenByRelease();
    steps, s := Then(steps, s, Call(2, CloseStart));
    steps, s := Then(steps, s, Advance(2, true, ""));
    assert s.threads[2] == CloseTake && s.live == {"m"};
    steps, s := Then(steps, s, Advance(2, true, ""));
    assert s.threads[2] == Unmounting({}) && s.live == {"m"};
    steps, s := Then(steps, s, Advance(2, true, ""));
    assert s.threads.Keys == {0, 1, 2};
  }
}
