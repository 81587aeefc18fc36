/**
 internal/cli/ssh_bridge_mount.go: the client's table of local FUSE mounts.

 OnMount mounts outside the lock and looks again before it records the mount;
 Close raises a flag, waits for the counter of calls in progress and takes what
 is left.  Each critical section, each driver Mount and each Unmount call is one
 atomic step; `Exec` runs an arbitrary schedule of any number of OnMount,
 OnUnmount, Execute and Close calls.
 */
module MountManager {
  import opened Wrappers

  type MountId = string
  type Handle = nat                // a mount the driver returned, numbered in order
  type ThreadId = nat

  // ----- the fields behind m.mu

  datatype Table = Table(mounts: map<MountId, Handle>, closing: bool, active: int)

  datatype Begin = Refused | Existing(h: Handle) | Proceed

  // OnMount, before the driver is asked.
  function MountRegion(tb: Table, id: MountId, initErr: bool): (Table, Begin) {
    if tb.closing || initErr then (tb, Refused)
    else if id in tb.mounts then (tb, Existing(tb.mounts[id]))
    else (tb.(active := tb.active + 1), Proceed)
  }

  datatype Commit = LostTo(winner: Handle) | Abort | Recorded

  // OnMount, after it: decides who owns the mount just made.
  function RecordRegion(tb: Table, id: MountId, h: Handle, cancelled: bool): (Table, Commit) {
    if id in tb.mounts then (tb, LostTo(tb.mounts[id]))
    else if tb.closing || cancelled then (tb, Abort)
    else (tb.(mounts := tb.mounts[id := h]), Recorded)
  }

  // OnUnmount: from here on the caller alone holds the mount.
  function TakeRegion(tb: Table, id: MountId): (Table, Option<Handle>) {
    (tb.(mounts := tb.mounts - {id}), if id in tb.mounts then Some(tb.mounts[id]) else None)
  }

  // Execute: Close waits for whoever is counted here.
  function UseRegion(tb: Table, id: MountId, initErr: bool): (Table, bool) {
    if tb.closing || initErr || id !in tb.mounts then (tb, false) else (tb.(active := tb.active + 1), true)
  }

  // Close: only the first call goes on.
  function CloseRegion(tb: Table): (Table, bool) {
    (tb.(closing := true), !tb.closing)
  }

  // Close, once the counter is zero.
  function TakeAllRegion(tb: Table): (Table, set<Handle>) {
    (tb.(mounts := map[]), set id | id in tb.mounts :: tb.mounts[id])
  }

  class RemoteMountManager {
    var mounts: map<MountId, Handle>
    var closing: bool
    var active: int

    function View(): Table reads this { Table(mounts, closing, active) }

    constructor ()
      ensures View() == Table(map[], false, 0)
    {
      mounts, closing, active := map[], false, 0;
    }

    method BeginMount(id: MountId, initErr: bool) returns (begin: Begin)
      modifies this
      ensures (View(), begin) == MountRegion(old(View()), id, initErr)
      ensures begin == Proceed <==> !closing && !initErr && id !in mounts
      ensures begin == Proceed ==> active == old(active) + 1
    {
      if closing || initErr {
        return Refused;
      }
      if id in mounts {
        return Existing(mounts[id]);
      }
      active := active + 1;
      return Proceed;
    }

    method Record(id: MountId, h: Handle, cancelled: bool) returns (commit: Commit)
      modifies this
      ensures (View(), commit) == RecordRegion(old(View()), id, h, cancelled)
      ensures commit == Recorded <==> id !in old(mounts) && !closing && !cancelled
      ensures commit == Recorded ==> id in mounts && mounts[id] == h
    {
      if id in mounts {
        return LostTo(mounts[id]);
      }
      if closing || cancelled {
        return Abort;
      }
      mounts := mounts[id := h];
      return Recorded;
    }

    method Take(id: MountId) returns (taken: Option<Handle>)
      modifies this
      ensures (View(), taken) == TakeRegion(old(View()), id)
      ensures id !in mounts && (taken.Some? <==> id in old(mounts))
      ensures taken.Some? ==> taken.value == old(mounts)[id]
    {
      taken := if id in mounts then Some(mounts[id]) else None;
      mounts := mounts - {id};
    }

    method BeginExecute(id: MountId, initErr: bool) returns (ok: bool)
      modifies this
      ensures (View(), ok) == UseRegion(old(View()), id, initErr)
      ensures ok <==> !closing && !initErr && id in mounts
      ensures ok ==> active == old(active) + 1
    {
      ok := !closing && !initErr && id in mounts;
      if ok {
        active := active + 1;
      }
    }

    method BeginClose() returns (first: bool)
      modifies this
      ensures (View(), first) == CloseRegion(old(View()))
      ensures closing && first == !old(closing)
    {
      first := !closing;
      closing := true;
    }

    method TakeAll() returns (taken: set<Handle>)
      modifies this
      ensures (View(), taken) == TakeAllRegion(old(View()))
      ensures mounts == map[] && taken == old(mounts).Values
    {
      taken := set id | id in mounts :: mounts[id];
      mounts := map[];
    }
  }

  // ----- threads

  datatype Pc =
    | MountStart(id: MountId)
    | Mounting(id: MountId)                              // counted: about to call the driver
    | Mounted(id: MountId, h: Handle)                    // counted: holds an unrecorded mount
    | Undoing(h: Handle, result: Option<Handle>)         // counted: about to unmount
    | Leaving(result: Option<Handle>)                    // counted: about to call active.Done
    | UnmountStart(id: MountId)
    | Unmounting(h: Handle)
    | ExecuteStart(id: MountId)
    | CloseStart
    | CloseWaiting                                       // in active.Wait
    | CloseTaking
    | CloseUnmounting(hs: set<Handle>)
    | Returned(mount: Option<Handle>)

  datatype State = State(
    table: Table,
    next: Handle,                       // mounts the driver has returned so far
    unmounts: map<Handle, nat>,         // Unmount calls per mount
    threads: map<ThreadId, Pc>)

  // Choices of the environment: whether the manager failed to initialise,
  // whether the driver mounts, whether the request was cancelled by now, and
  // which mount Close unmounts next.
  datatype Env = Env(initErr: bool, ok: bool, cancelled: bool, pick: Handle)

  datatype Step = Call(t: ThreadId, entry: Pc) | Advance(t: ThreadId, env: Env)

  const Init := State(Table(map[], false, 0), 0, map[], map[])

  predicate IsEntry(pc: Pc) {
    pc.MountStart? || pc.UnmountStart? || pc.ExecuteStart? || pc.CloseStart?
  }

  function Goto(s: State, t: ThreadId, pc: Pc): State {
    s.(threads := s.threads[t := pc])
  }

  function Calls(s: State, h: Handle): nat {
    if h in s.unmounts then s.unmounts[h] else 0
  }

  function Unmount(s: State, h: Handle): State {
    s.(unmounts := s.unmounts[h := Calls(s, h) + 1])
  }

  function MountStep(s: State, t: ThreadId, id: MountId, env: Env): State {
    var (table, begin) := MountRegion(s.table, id, env.initErr);
    Goto(s.(table := table), t,
         match begin
         case Refused => Returned(None)
         case Existing(h) => Returned(Some(h))
         case Proceed => Mounting(id))
  }

  function RecordStep(s: State, t: ThreadId, id: MountId, h: Handle, env: Env): State {
    var (table, commit) := RecordRegion(s.table, id, h, env.cancelled);
    Goto(s.(table := table), t,
         match commit
         case LostTo(winner) => Undoing(h, Some(winner))
         case Abort => Undoing(h, None)
         case Recorded => Leaving(Some(h)))
  }

  function Apply(s: State, step: Step): State {
    match step
    case Call(t, entry) => if t !in s.threads && IsEntry(entry) then Goto(s, t, entry) else s
    case Advance(t, env) =>
      if t !in s.threads then s else
      match s.threads[t]
      case MountStart(id) => MountStep(s, t, id, env)
      case Mounting(id) =>
        if env.ok then Goto(s.(next := s.next + 1), t, Mounted(id, s.next)) else Goto(s, t, Leaving(None))
      case Mounted(id, h) => RecordStep(s, t, id, h, env)
      case Undoing(h, result) => Goto(Unmount(s, h), t, Leaving(result))
      case Leaving(result) => Goto(s.(table := s.table.(active := s.table.active - 1)), t, Returned(result))
      case UnmountStart(id) =>
        var (table, taken) := TakeRegion(s.table, id);
        Goto(s.(table := table), t, if taken.Some? then Unmounting(taken.value) else Returned(None))
      case Unmounting(h) => Goto(Unmount(s, h), t, Returned(None))
      case ExecuteStart(id) =>
        var (table, ok) := UseRegion(s.table, id, env.initErr);
        Goto(s.(table := table), t, if ok then Leaving(None) else Returned(None))
      case CloseStart =>
        var (table, first) := CloseRegion(s.table);
        Goto(s.(table := table), t, if first then CloseWaiting else Returned(None))
      case CloseWaiting => if s.table.active == 0 then Goto(s, t, CloseTaking) else s
      case CloseTaking =>
        var (table, taken) := TakeAllRegion(s.table);
        Goto(s.(table := table), t, CloseUnmounting(taken))
      case CloseUnmounting(hs) =>
        if hs == {} then Goto(s, t, Returned(None))
        else if env.pick in hs then Goto(Unmount(s, env.pick), t, CloseUnmounting(hs - {env.pick}))
        else s
      case Returned(_) => s
  }

  function Exec(s: State, steps: seq<Step>): State {
    if steps == [] then s else Apply(Exec(s, steps[..|steps| - 1]), steps[|steps| - 1])
  }

  // ----- every mount has exactly one owner until its one Unmount call

  datatype Owner = InTable(id: MountId) | OfThread(t: ThreadId) | Unmounted

  predicate Holds(pc: Pc, h: Handle) {
    match pc
    case Mounted(_, g) => g == h
    case Undoing(g, _) => g == h
    case Unmounting(g) => g == h
    case CloseUnmounting(hs) => h in hs
    case _ => false
  }

  ghost predicate Owns(s: State, o: Owner, h: Handle) {
    match o
    case InTable(id) => id in s.table.mounts && s.table.mounts[id] == h
    case OfThread(t) => t in s.threads && Holds(s.threads[t], h)
    case Unmounted => Calls(s, h) > 0
  }

  // `owner` names, for each mount the driver returned, the only place it is in.
  ghost predicate OwnedBy(s: State, owner: map<Handle, Owner>) {
    && (forall h: Handle :: h in owner <==> h < s.next)
    && (forall h: Handle :: h in owner ==> Owns(s, owner[h], h))
    && (forall h: Handle, o :: Owns(s, o, h) ==> h in owner && owner[h] == o)
    && (forall h: Handle :: Calls(s, h) <= 1)
  }

  ghost predicate Conserved(s: State) {
    exists owner :: OwnedBy(s, owner)
  }

  // ----- the counter

  predicate Counted(pc: Pc) {
    pc.Mounting? || pc.Mounted? || pc.Undoing? || pc.Leaving?
  }

  function InProgress(s: State): set<ThreadId> {
    set t | t in s.threads && Counted(s.threads[t])
  }

  predicate PastWait(pc: Pc) {
    pc.CloseTaking? || pc.CloseUnmounting?
  }

  predicate WillTake(pc: Pc) {
    pc.CloseWaiting? || pc.CloseTaking?
  }

  ghost predicate Counting(s: State) {
    && s.table.active == |InProgress(s)|
    && (forall t :: t in s.threads && s.threads[t].CloseWaiting? ==> s.table.closing)
    && (forall t :: t in s.threads && PastWait(s.threads[t]) ==> s.table.closing && s.table.active == 0)
    && (s.table.closing && (forall t :: t in s.threads ==> !WillTake(s.threads[t])) ==>
          s.table.mounts == map[] && s.table.active == 0)
  }

  // Where each mount is after one step.
  function Moved(s: State, step: Step, owner: map<Handle, Owner>): map<Handle, Owner> {
    if step.Call? || step.t !in s.threads then owner else
    var t, env := step.t, step.env;
    match s.threads[t]
    case Mounting(id) => if env.ok then owner[s.next := OfThread(t)] else owner
    case Mounted(id, h) => if RecordRegion(s.table, id, h, env.cancelled).1.Recorded? then owner[h := InTable(id)] else owner
    case Undoing(h, _) => owner[h := Unmounted]
    case Unmounting(h) => owner[h := Unmounted]
    case UnmountStart(id) => if id in s.table.mounts then owner[s.table.mounts[id] := OfThread(t)] else owner
    case CloseTaking =>
      var taken := TakeAllRegion(s.table).1;
      map h | h in owner :: if h in taken then OfThread(t) else owner[h]
    case CloseUnmounting(hs) => if env.pick in hs then owner[env.pick := Unmounted] else owner
    case _ => owner
  }

  lemma OwnedStep(s: State, step: Step, owner: map<Handle, Owner>)
    requires OwnedBy(s, owner)
    ensures OwnedBy(Apply(s, step), Moved(s, step, owner))
  {
    var s', owner' := Apply(s, step), Moved(s, step, owner);
    forall h: Handle ensures (h in owner' <==> h < s'.next) && (h in owner' ==> Owns(s', owner'[h], h)) {
      OwnsForth(s, step, owner, h);
    }
    forall h: Handle, o | Owns(s', o, h) ensures h in owner' && owner'[h] == o {
      OwnsBack(s, step, owner, h, o);
    }
    forall h: Handle ensures Calls(s', h) <= 1 {
      CalledOnce(s, step, owner, h);
    }
  }

  // The two steps that take mounts out of the table.
  predicate Takes(s: State, step: Step) {
    !step.Call? && step.t in s.threads && (s.threads[step.t].UnmountStart? || s.threads[step.t].CloseTaking?)
  }

  lemma OwnsForth(s: State, step: Step, owner: map<Handle, Owner>, h: Handle)
    requires OwnedBy(s, owner)
    ensures var s', owner' := Apply(s, step), Moved(s, step, owner);
            (h in owner' <==> h < s'.next) && (h in owner' ==> Owns(s', owner'[h], h))
  {
    if Takes(s, step) {
      OwnsForthTaking(s, step, owner, h);
    } else {
      OwnsForthOther(s, step, owner, h);
    }
  }

  predicate MountSide(s: State, step: Step) {
    step.Advance? && step.t in s.threads && (s.threads[step.t].Mounting? || s.threads[step.t].Mounted? || s.threads[step.t].Undoing?)
  }

  lemma OwnsForthOther(s: State, step: Step, owner: map<Handle, Owner>, h: Handle)
    requires OwnedBy(s, owner) && !Takes(s, step)
    ensures var s', owner' := Apply(s, step), Moved(s, step, owner);
            (h in owner' <==> h < s'.next) && (h in owner' ==> Owns(s', owner'[h], h))
  {
    if MountSide(s, step) {
      OwnsForthMounting(s, step, owner, h);
    } else {
      OwnsForthClosing(s, step, owner, h);
    }
  }

  lemma OwnsForthMounting(s: State, step: Step, owner: map<Handle, Owner>, h: Handle)
    requires OwnedBy(s, owner) && MountSide(s, step)
    ensures var s', owner' := Apply(s, step), Moved(s, step, owner);
            (h in owner' <==> h < s'.next) && (h in owner' ==> Owns(s', owner'[h], h))
  {
    if h in owner {
      assert Owns(s, owner[h], h);
    }
    if Holds(s.threads[step.t], h) {
      assert Owns(s, OfThread(step.t), h);
    }
  }

  lemma OwnsForthClosing(s: State, step: Step, owner: map<Handle, Owner>, h: Handle)
    requires OwnedBy(s, owner) && !Takes(s, step) && !MountSide(s, step)
    ensures var s', owner' := Apply(s, step), Moved(s, step, owner);
            (h in owner' <==> h < s'.next) && (h in owner' ==> Owns(s', owner'[h], h))
  {
    if h in owner {
      assert Owns(s, owner[h], h);
    }
    if step.t in s.threads && Holds(s.threads[step.t], h) {
      assert Owns(s, OfThread(step.t), h);
    }
  }

  lemma OwnsForthTaking(s: State, step: Step, owner: map<Handle, Owner>, h: Handle)
    requires OwnedBy(s, owner) && Takes(s, step)
    ensures var s', owner' := Apply(s, step), Moved(s, step, owner);
            (h in owner' <==> h < s'.next) && (h in owner' ==> Owns(s', owner'[h], h))
  {
    if h in owner {
      assert Owns(s, owner[h], h);
    }
    var t := step.t;
    if Holds(s.threads[t], h) {
      assert Owns(s, OfThread(t), h);
    }
    if s.threads[t].UnmountStart? && s.threads[t].id in s.table.mounts {
      assert Owns(s, InTable(s.threads[t].id), s.table.mounts[s.threads[t].id]);
    }
  }

  lemma CalledOnce(s: State, step: Step, owner: map<Handle, Owner>, h: Handle)
    requires OwnedBy(s, owner)
    ensures Calls(Apply(s, step), h) <= 1
  {
    if Calls(Apply(s, step), h) != Calls(s, h) {
      assert Owns(s, OfThread(step.t), h);
      assert Calls(s, h) > 0 ==> Owns(s, Unmounted, h);
    }
  }

  lemma OwnsBack(s: State, step: Step, owner: map<Handle, Owner>, h: Handle, o: Owner)
    requires OwnedBy(s, owner)
    requires Owns(Apply(s, step), o, h)
    ensures h in Moved(s, step, owner) && Moved(s, step, owner)[h] == o
  {
    if Takes(s, step) {
      OwnsBackTaking(s, step, owner, h, o);
    } else {
      OwnsBackOther(s, step, owner, h, o);
    }
  }

  lemma OwnsBackOther(s: State, step: Step, owner: map<Handle, Owner>, h: Handle, o: Owner)
    requires OwnedBy(s, owner) && !Takes(s, step)
    requires Owns(Apply(s, step), o, h)
    ensures h in Moved(s, step, owner) && Moved(s, step, owner)[h] == o
  {
    if step.t in s.threads && Holds(s.threads[step.t], h) {
      OwnsBackHolder(s, step, owner, h, o);
    } else if Owns(s, o, h) {
      assert h in owner && owner[h] == o;
    }
  }

  lemma OwnsBackHolder(s: State, step: Step, owner: map<Handle, Owner>, h: Handle, o: Owner)
    requires OwnedBy(s, owner) && !Takes(s, step)
    requires step.t in s.threads && Holds(s.threads[step.t], h)
    requires Owns(Apply(s, step), o, h)
    ensures h in Moved(s, step, owner) && Moved(s, step, owner)[h] == o
  {
    assert Owns(s, OfThread(step.t), h);
    if Owns(s, o, h) {
      assert owner[h] == o;
    }
  }

  lemma OwnsBackTaking(s: State, step: Step, owner: map<Handle, Owner>, h: Handle, o: Owner)
    requires OwnedBy(s, owner) && Takes(s, step)
    requires Owns(Apply(s, step), o, h)
    ensures h in Moved(s, step, owner) && Moved(s, step, owner)[h] == o
  {
    if Owns(s, o, h) {
      assert h in owner && owner[h] == o;
    }
    var t := step.t;
    if s.threads[t].UnmountStart? && s.threads[t].id in s.table.mounts {
      assert Owns(s, InTable(s.threads[t].id), s.table.mounts[s.threads[t].id]);
    } else if s.threads[t].CloseTaking? && h in TakeAllRegion(s.table).1 {
      var id :| id in s.table.mounts && s.table.mounts[id] == h;
      assert Owns(s, InTable(id), h);
    }
  }

  /** Over every schedule, each mount the driver returned is in exactly one place:
      recorded, held by one thread, or unmounted; and Unmount is called on it at
      most once. */
  lemma {:induction false} MountsConserved(steps: seq<Step>)
    ensures Conserved(Exec(Init, steps))
  {
    if steps == [] {
      assert OwnedBy(Init, map[]);
    } else {
      var n := |steps| - 1;
      MountsConserved(steps[..n]);
      var owner :| OwnedBy(Exec(Init, steps[..n]), owner);
      OwnedStep(Exec(Init, steps[..n]), steps[n], owner);
    }
  }

  lemma OthersStay(s: State, step: Step, u: ThreadId)
    requires u != step.t
    ensures var s' := Apply(s, step); (u in s'.threads <==> u in s.threads) && (u in s.threads ==> s'.threads[u] == s.threads[u])
  {
  }

  // A thread is counted when it starts to count and uncounted when it stops.
  ghost predicate CountMoves(s: State, s': State, t: ThreadId) {
    s'.table.active - s.table.active == (if t in InProgress(s') then 1 else 0) - (if t in InProgress(s) then 1 else 0)
  }

  lemma CountChange(s: State, step: Step)
    ensures CountMoves(s, Apply(s, step), step.t)
  {
    if step.Advance? && step.t in s.threads {
      if Counted(s.threads[step.t]) {
        CountedMoves(s, step);
      } else {
        UncountedMoves(s, step);
      }
    }
  }

  lemma CountedMoves(s: State, step: Step)
    requires step.Advance? && step.t in s.threads && Counted(s.threads[step.t])
    ensures CountMoves(s, Apply(s, step), step.t)
  {
  }

  lemma UncountedMoves(s: State, step: Step)
    requires step.Advance? && step.t in s.threads && !Counted(s.threads[step.t])
    ensures CountMoves(s, Apply(s, step), step.t)
  {
  }

  lemma InProgressStep(s: State, step: Step)
    requires s.table.active == |InProgress(s)|
    ensures Apply(s, step).table.active == |InProgress(Apply(s, step))|
  {
    var t := step.t;
    var before, after := InProgress(s), InProgress(Apply(s, step));
    CountChange(s, step);
    forall u | u != t ensures u in after <==> u in before {
      OthersStay(s, step, u);
    }
    assert after - {t} == before - {t};
    assert |before| == |before - {t}| + if t in before then 1 else 0 by {
      assert t !in before ==> before == before - {t};
    }
    assert |after| == |after - {t}| + if t in after then 1 else 0 by {
      assert t !in after ==> after == after - {t};
    }
  }

  lemma TakenStep(s: State, step: Step)
    requires Counting(s)
    requires var s' := Apply(s, step);
             s'.table.closing && forall u :: u in s'.threads ==> !WillTake(s'.threads[u])
    ensures Apply(s, step).table.mounts == map[] && Apply(s, step).table.active == 0
  {
    var s', t := Apply(s, step), step.t;
    InProgressStep(s, step);
    forall u | u in s.threads && u != t ensures !WillTake(s.threads[u]) {
      OthersStay(s, step, u);
    }
    if t in s.threads {
      assert t in s'.threads;
      assert Counted(s.threads[t]) ==> t in InProgress(s);
      assert PastWait(s.threads[t]) ==> s.table.active == 0;
    }
  }

  lemma WaitersStep(s: State, step: Step)
    requires Counting(s)
    ensures var s' := Apply(s, step);
            && (forall u :: u in s'.threads && s'.threads[u].CloseWaiting? ==> s'.table.closing)
            && (forall u :: u in s'.threads && PastWait(s'.threads[u]) ==> s'.table.closing && s'.table.active == 0)
  {
    if step.t in s.threads && Counted(s.threads[step.t]) {
      assert step.t in InProgress(s);
    }
  }

  lemma CountingStep(s: State, step: Step)
    requires Counting(s)
    ensures Counting(Apply(s, step))
  {
    var s' := Apply(s, step);
    InProgressStep(s, step);
    WaitersStep(s, step);
    if s'.table.closing && forall u :: u in s'.threads ==> !WillTake(s'.threads[u]) {
      TakenStep(s, step);
    }
  }

  lemma {:induction false} CounterIsExact(steps: seq<Step>)
    ensures Counting(Exec(Init, steps))
  {
    if steps == [] {
      assert InProgress(Init) == {};
    } else {
      var n := |steps| - 1;
      CounterIsExact(steps[..n]);
      CountingStep(Exec(Init, steps[..n]), steps[n]);
    }
  }

  // The k-th step is the first one of a call of Close.
  predicate Closes(steps: seq<Step>, k: nat) {
    && k < |steps| && steps[k].Advance?
    && var s := Exec(Init, steps[..k]); steps[k].t in s.threads && s.threads[steps[k].t].CloseStart?
  }

  lemma ClosingStep(s: State, step: Step)
    requires s.table.closing
    ensures var s' := Apply(s, step);
            && s'.table.closing && s'.table.active <= s.table.active
            && (step.Advance? && step.t in s.threads && (s.threads[step.t].MountStart? || s.threads[step.t].ExecuteStart?)
                ==> s'.threads[step.t] == Returned(None))
  {
  }

  lemma {:induction false} CloseSetsClosing(steps: seq<Step>, k: nat)
    requires Closes(steps, k)
    ensures Exec(Init, steps).table.closing
  {
    var n := |steps| - 1;
    if k < n {
      assert steps[..n][..k] == steps[..k];
      CloseSetsClosing(steps[..n], k);
      ClosingStep(Exec(Init, steps[..n]), steps[n]);
    }
  }

  /** From the first step of a Close on the manager is closing, the counter never grows, and
      an OnMount or Execute that starts then is refused. */
  lemma ClosingIsFinal(steps: seq<Step>, k: nat, step: Step)
    requires Closes(steps, k)
    ensures var s := Exec(Init, steps); var s' := Apply(s, step);
            && s.table.closing && s'.table.closing
            && s'.table.active <= s.table.active
            && (step.Advance? && step.t in s.threads && (s.threads[step.t].MountStart? || s.threads[step.t].ExecuteStart?)
                ==> s'.threads[step.t] == Returned(None))
  {
    CloseSetsClosing(steps, k);
    ClosingStep(Exec(Init, steps), step);
  }

  predicate Quiescent(s: State) {
    forall t :: t in s.threads ==> s.threads[t].Returned?
  }

  /** Once Close has been called and every call has returned, the table is empty and each mount
      the driver ever returned has been unmounted exactly once. */
  lemma CloseUnmountsEverythingOnce(steps: seq<Step>, k: nat)
    requires Closes(steps, k) && Quiescent(Exec(Init, steps))
    ensures var s := Exec(Init, steps);
            && s.table.mounts == map[] && s.table.active == 0
            && forall h: Handle :: Calls(s, h) == if h < s.next then 1 else 0
  {
    var s := Exec(Init, steps);
    CloseSetsClosing(steps, k);
    CounterIsExact(steps);
    MountsConserved(steps);
    var owner :| OwnedBy(s, owner);
    forall h: Handle ensures Calls(s, h) == if h < s.next then 1 else 0 {
      if h < s.next {
        assert Owns(s, owner[h], h);
      } else if Calls(s, h) > 0 {
        assert Owns(s, Unmounted, h);
      }
    }
  }

  // ----- calls that nothing interleaves with

  /** An OnMount of a new ID on an open manager records the driver's mount and returns it;
      if the request is cancelled meanwhile it unmounts it and records nothing. */
  lemma MountRecords(s: State, t: ThreadId, id: MountId, env: Env)
    requires t !in s.threads && !s.table.closing && !env.initErr && id !in s.table.mounts && env.ok
    ensures var go := Advance(t, env);
            var s3 := Apply(Apply(Apply(Apply(s, Call(t, MountStart(id))), go), go), go);
            if env.cancelled then
              var s5 := Apply(Apply(s3, go), go);
              s5.threads == s.threads[t := Returned(None)] && s5.table == s.table && s5.unmounts == s.unmounts[s.next := Calls(s, s.next) + 1]
            else
              var s4 := Apply(s3, go);
              && s4.threads == s.threads[t := Returned(Some(s.next))] && s4.unmounts == s.unmounts
              && s4.table == s.table.(mounts := s.table.mounts[id := s.next])
  {
    var go := Advance(t, env);
    var s1 := Apply(Apply(s, Call(t, MountStart(id))), go);
    assert s1.threads == s.threads[t := Mounting(id)];
    var s2 := Apply(s1, go);
    assert s2.threads == s.threads[t := Mounted(id, s.next)];
    MountedAlone(s2, t, id, s.next, env);
  }

  lemma MountedAlone(s: State, t: ThreadId, id: MountId, h: Handle, env: Env)
    requires t in s.threads && s.threads[t] == Mounted(id, h) && !s.table.closing && id !in s.table.mounts
    ensures var go := Advance(t, env); var s1 := Apply(s, go);
            if env.cancelled then
              Apply(Apply(s1, go), go) == Unmount(s, h).(table := s.table.(active := s.table.active - 1), threads := s.threads[t := Returned(None)])
            else
              Apply(s1, go) == s.(table := Table(s.table.mounts[id := h], false, s.table.active - 1), threads := s.threads[t := Returned(Some(h))])
  {
    var go := Advance(t, env);
    var s1 := Apply(s, go);
    var s2 := Apply(s1, go);
    if env.cancelled {
      assert s1.threads == s.threads[t := Undoing(h, None)] && s2.threads == s.threads[t := Leaving(None)];
      assert s2.threads[t := Returned(None)] == s.threads[t := Returned(None)];
    } else {
      assert s1.threads[t := Returned(Some(h))] == s.threads[t := Returned(Some(h))];
    }
  }

  /** An OnMount that finds its ID recorded meanwhile unmounts its own mount and returns the
      winner's. */
  lemma LoserReturnsWinner(s: State, t: ThreadId, id: MountId, h: Handle, env: Env)
    requires t in s.threads && s.threads[t] == Mounted(id, h) && id in s.table.mounts
    ensures var go := Advance(t, env);
            Apply(Apply(Apply(s, go), go), go) ==
            Unmount(s, h).(table := s.table.(active := s.table.active - 1), threads := s.threads[t := Returned(Some(s.table.mounts[id]))])
  {
    var s1 := Apply(s, Advance(t, env));
    var s2 := Apply(s1, Advance(t, env));
    assert s1.threads == s.threads[t := Undoing(h, Some(s.table.mounts[id]))];
    assert s2.threads == s.threads[t := Leaving(Some(s.table.mounts[id]))];
    assert s2.threads[t := Returned(Some(s.table.mounts[id]))] == s.threads[t := Returned(Some(s.table.mounts[id]))];
  }

  /** An OnUnmount takes the mount out of the table and unmounts it. */
  lemma UnmountRemoves(s: State, t: ThreadId, id: MountId, env: Env)
    requires t !in s.threads && id in s.table.mounts
    ensures var go := Advance(t, env); var s' := Apply(Apply(Apply(s, Call(t, UnmountStart(id))), go), go); var h := s.table.mounts[id];
            && s'.threads == s.threads[t := Returned(None)] && s'.table == s.table.(mounts := s.table.mounts - {id})
            && s'.unmounts == s.unmounts[h := Calls(s, h) + 1]
  {
    var s1 := Apply(Apply(s, Call(t, UnmountStart(id))), Advance(t, env));
    assert s1.threads == s.threads[t := Unmounting(s.table.mounts[id])];
  }

  /** An OnMount of a listed ID returns its mount and makes none. */
  lemma MountReturnsListed(s: State, t: ThreadId, id: MountId, env: Env)
    requires t !in s.threads && !s.table.closing && !env.initErr && id in s.table.mounts
    ensures Apply(Apply(s, Call(t, MountStart(id))), Advance(t, env)) == s.(threads := s.threads[t := Returned(Some(s.table.mounts[id]))])
  {
    assert s.threads[t := MountStart(id)][t := Returned(Some(s.table.mounts[id]))] == s.threads[t := Returned(Some(s.table.mounts[id]))];
  }

  /** An Execute is counted while it runs, if and only if its ID is listed on an open manager. */
  lemma ExecuteIsCounted(s: State, t: ThreadId, id: MountId, env: Env)
    requires t !in s.threads
    ensures var go := Advance(t, env); var s1 := Apply(Apply(s, Call(t, ExecuteStart(id))), go);
            if !s.table.closing && !env.initErr && id in s.table.mounts then
              s1.table == s.table.(active := s.table.active + 1) && Apply(s1, go).table == s.table
            else s1 == s.(threads := s.threads[t := Returned(None)])
  {
    assert s.threads[t := ExecuteStart(id)][t := Returned(None)] == s.threads[t := Returned(None)];
  }

  /** A Close waits while a call is counted; with none it takes every mount, and unmounts the
      ones it took. */
  lemma CloseTakesAll(s: State, t: ThreadId, env: Env)
    requires t !in s.threads && !s.table.closing
    ensures var go := Advance(t, env); var s1 := Apply(Apply(s, Call(t, CloseStart)), go);
            && s1.table == s.table.(closing := true) && s1.threads == s.threads[t := CloseWaiting]
            && (s.table.active != 0 ==> Apply(s1, go) == s1)
            && (s.table.active == 0 ==>
                  var s3 := Apply(Apply(s1, go), go); var taken := set id | id in s.table.mounts :: s.table.mounts[id];
                  && s3.table == Table(map[], true, 0) && s3.threads == s.threads[t := CloseUnmounting(taken)]
                  && (env.pick in taken ==> Apply(s3, go).unmounts == s.unmounts[env.pick := Calls(s, env.pick) + 1]))
  {
    var s1 := Apply(Apply(s, Call(t, CloseStart)), Advance(t, env));
    assert s1.threads == s.threads[t := CloseWaiting];
    if s.table.active == 0 {
      var s2 := Apply(s1, Advance(t, env));
      assert s2.threads == s.threads[t := CloseTaking] && s2.table == s1.table;
    }
  }
}
