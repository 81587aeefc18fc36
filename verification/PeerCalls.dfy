/**
 internal/remotefs/peer.go: requests, responses and cancels between two peers.

 Either peer issues requests, serves the other's, and reads one FIFO stream of
 frames.  The model has two such peers and two streams.  Each critical section,
 atomic counter, channel operation and frame write is one atomic step; `Exec`
 runs an arbitrary schedule of callers, handlers, read loops and close.

 Every frame carries, as history, the call it belongs to.  No step looks at it:
 a read loop finds the waiting caller by ID alone.
 */
module PeerCalls {
  import opened Wrappers
  import opened Sets

  type Id = nat
  type CallId = nat                 // a goroutine inside request

  const MaxInFlight := 64

  datatype Kind = Request | Response | Cancel

  datatype Frame = Frame(kind: Kind, id: Id, call: CallId)

  // ----- the shared fields of a peer

  // The one-element channel a caller waits on.
  datatype Slot = Empty | Full(frame: Frame) | Taken

  datatype Phase = Open | ConnClosed | ActiveCleared | Done

  datatype Core = Core(
    nextID: Id,
    pending: set<Id>,
    slots: map<Id, Slot>,
    active: set<Id>,
    outgoing: nat,                  // tokens taken from p.outgoing
    sem: nat,                       // tokens taken from p.sem
    phase: Phase)

  function Start(base: Id): Core { Core(base, {}, map[], {}, 0, 0, Open) }

  function SlotOf(c: Core, id: Id): Slot {
    if id in c.slots then c.slots[id] else Empty
  }

  // The atomic add of a caller that needs an ID.
  function NextIdRegion(c: Core): (Core, Id) { (c.(nextID := c.nextID + 2), c.nextID + 2) }

  // Under pendingMu, before the request is written.
  function RegisterRegion(c: Core, id: Id): Core {
    c.(pending := c.pending + {id}, slots := c.slots[id := Empty])
  }

  // Under pendingMu, when the caller returns.
  function DeregisterRegion(c: Core, id: Id): Core { c.(pending := c.pending - {id}) }

  // The non-blocking send into a one-element channel: dropped when it is full.
  function DeliverRegion(c: Core, f: Frame): Core {
    if SlotOf(c, f.id).Full? then c else c.(slots := c.slots[f.id := Full(f)])
  }

  // A request takes a slot, then its entry is inserted under activeMu.  The two
  // are one step, placed at the insertion: only the read loop takes slots, so in
  // between the free ones can only grow, and it does nothing else itself.  A
  // refused request never reaches the insertion.
  function AdmitRegion(c: Core, id: Id): (Core, bool) {
    if c.sem < MaxInFlight then (c.(sem := c.sem + 1, active := c.active + {id}), true) else (c, false)
  }

  // A handler deletes its entry under activeMu, then gives its slot back.  The two
  // are one step, placed at the second: its context is cancelled already, so whoever
  // still finds the entry, a cancel or close, changes nothing by cancelling it, and
  // no other request has its ID (IdsAreSplitAndFresh).
  function ExitRegion(c: Core, id: Id): Core {
    c.(active := c.active - {id}, sem := if c.sem > 0 then c.sem - 1 else 0)
  }

  class Peer {
    var nextID: Id
    var pending: set<Id>
    var slots: map<Id, Slot>
    var active: set<Id>
    var outgoing: nat
    var sem: nat
    var phase: Phase

    function View(): Core reads this { Core(nextID, pending, slots, active, outgoing, sem, phase) }

    constructor (requestIDBase: Id)
      ensures View() == Start(requestIDBase)
    {
      nextID, pending, slots, active := requestIDBase, {}, map[], {};
      outgoing, sem, phase := 0, 0, Open;
    }

    method NextId() returns (id: Id)
      modifies this
      ensures (View(), id) == NextIdRegion(old(View()))
      ensures id == nextID == old(nextID) + 2
    {
      nextID := nextID + 2;
      id := nextID;
    }

    method Register(id: Id)
      modifies this
      ensures View() == RegisterRegion(old(View()), id)
      ensures id in pending && id in slots && slots[id] == Empty
    {
      pending, slots := pending + {id}, slots[id := Empty];
    }

    method Deregister(id: Id)
      modifies this
      ensures View() == DeregisterRegion(old(View()), id)
      ensures id !in pending
    {
      pending := pending - {id};
    }

    method Deliver(f: Frame)
      modifies this
      ensures View() == DeliverRegion(old(View()), f)
      ensures f.id !in old(slots) || !old(slots)[f.id].Full? ==> f.id in slots && slots[f.id] == Full(f)
    {
      if f.id !in slots || !slots[f.id].Full? {
        slots := slots[f.id := Full(f)];
      }
    }

    method Admit(id: Id) returns (ok: bool)
      modifies this
      ensures (View(), ok) == AdmitRegion(old(View()), id)
      ensures ok <==> old(sem) < 64
      ensures ok ==> id in active && sem == old(sem) + 1
    {
      ok := sem < MaxInFlight;
      if ok {
        sem, active := sem + 1, active + {id};
      }
    }

    method Exit(id: Id)
      modifies this
      ensures View() == ExitRegion(old(View()), id)
      ensures id !in active && (old(sem) > 0 ==> sem == old(sem) - 1)
    {
      active := active - {id};
      if sem > 0 {
        sem := sem - 1;
      }
    }
  }

  // ----- callers, handlers and the read loop

  datatype Caller =
    | Wanting                                   // waits for an outgoing token
    | Admitted
    | Numbered(id: Id)
    | Registered(id: Id)
    | Waiting(id: Id)                           // its request is on the wire
    | Cancelling(id: Id)
    | Leaving(id: Id, answer: Option<Frame>)    // about to deregister
    | Releasing(answer: Option<Frame>)          // about to return its token
    | Finished(answer: Option<Frame>)

  datatype HandlerPc = Running | Replying | Exiting

  datatype Handler = Handler(call: CallId, cancelled: bool, pc: HandlerPc)

  datatype Reader = Idle | Got(frame: Frame) | Delivering(frame: Frame) | Refusing(frame: Frame)

  datatype PeerState = PeerState(
    core: Core,
    callers: map<CallId, Caller>,
    handlers: map<Id, Handler>,
    reader: Reader,
    issued: map<Id, CallId>)                    // history: who issued each ID

  // One peer with the stream it reads and the stream it writes.
  datatype End = End(me: PeerState, inbound: seq<Frame>, outbound: seq<Frame>)

  datatype Choice = Receive | CtxDone | PeerDone

  datatype Action =
    | Begin(t: CallId)
    | CallerStep(t: CallId, choice: Choice, ok: bool)
    | ReaderStep(ok: bool)
    | HandlerStep(id: Id, ok: bool)
    | Interrupt(id: Id)                         // a handler's parent context ends
    | CloseStep

  // p.send: nothing is written once the connection is closed, and a write may fail.
  function Send(e: End, f: Frame, ok: bool): (End, bool) {
    if e.me.core.phase.Open? && ok then (e.(outbound := e.outbound + [f]), true) else (e, false)
  }

  function SetCaller(e: End, t: CallId, c: Caller): End { e.(me := e.me.(callers := e.me.callers[t := c])) }

  function SetReader(e: End, r: Reader): End { e.(me := e.me.(reader := r)) }

  function SetHandler(e: End, id: Id, h: Handler): End { e.(me := e.me.(handlers := e.me.handlers[id := h])) }

  function SetCore(e: End, c: Core): End { e.(me := e.me.(core := c)) }

  function DoWant(e: End, t: CallId, choice: Choice): End {
    var c := e.me.core;
    match choice
    case Receive =>
      if c.outgoing < MaxInFlight then SetCaller(SetCore(e, c.(outgoing := c.outgoing + 1)), t, Admitted) else e
    case CtxDone => SetCaller(e, t, Finished(None))
    case PeerDone => if c.phase.Done? then SetCaller(e, t, Finished(None)) else e
  }

  function DoNumber(e: End, t: CallId): End {
    var (core, id) := NextIdRegion(e.me.core);
    var e' := SetCaller(SetCore(e, core), t, Numbered(id));
    e'.(me := e'.me.(issued := e'.me.issued[id := t]))
  }

  function DoWait(e: End, t: CallId, id: Id, choice: Choice): End {
    var c := e.me.core;
    match choice
    case Receive =>
      var slot := SlotOf(c, id);
      if slot.Full? then SetCaller(SetCore(e, c.(slots := c.slots[id := Taken])), t, Leaving(id, Some(slot.frame))) else e
    case CtxDone => SetCaller(e, t, Cancelling(id))
    case PeerDone => if c.phase.Done? then SetCaller(e, t, Leaving(id, None)) else e
  }

  function DoCaller(e: End, t: CallId, choice: Choice, ok: bool): End {
    if t !in e.me.callers then e else
    var c := e.me.core;
    match e.me.callers[t]
    case Wanting => DoWant(e, t, choice)
    case Admitted => DoNumber(e, t)
    case Numbered(id) => SetCaller(SetCore(e, RegisterRegion(c, id)), t, Registered(id))
    case Registered(id) =>
      var (e', sent) := Send(e, Frame(Request, id, t), ok);
      SetCaller(e', t, if sent then Waiting(id) else Leaving(id, None))
    case Waiting(id) => DoWait(e, t, id, choice)
    case Cancelling(id) => SetCaller(Send(e, Frame(Cancel, id, t), ok).0, t, Leaving(id, None))
    case Leaving(id, answer) => SetCaller(SetCore(e, DeregisterRegion(c, id)), t, Releasing(answer))
    case Releasing(answer) =>
      SetCaller(SetCore(e, c.(outgoing := if c.outgoing > 0 then c.outgoing - 1 else 0)), t, Finished(answer))
    case Finished(_) => e
  }

  function Dispatch(e: End, f: Frame): End {
    match f.kind
    case Response => SetReader(e, if f.id in e.me.core.pending then Delivering(f) else Idle)
    case Cancel =>
      var e' := if f.id in e.me.core.active && f.id in e.me.handlers
                then SetHandler(e, f.id, e.me.handlers[f.id].(cancelled := true)) else e;
      SetReader(e', Idle)
    case Request =>
      var (core, ok) := AdmitRegion(e.me.core, f.id);
      if ok then SetReader(SetHandler(SetCore(e, core), f.id, Handler(f.call, false, Running)), Idle)
      else SetReader(e, Refusing(f))
  }

  function DoReader(e: End, ok: bool): End {
    match e.me.reader
    case Idle =>
      if e.me.core.phase.Open? && e.inbound != [] then SetReader(e.(inbound := e.inbound[1..]), Got(e.inbound[0])) else e
    case Got(f) => Dispatch(e, f)
    case Delivering(f) => SetReader(SetCore(e, DeliverRegion(e.me.core, f)), Idle)
    case Refusing(f) => SetReader(Send(e, Frame(Response, f.id, f.call), ok).0, Idle)
  }

  function DoHandler(e: End, id: Id, ok: bool): End {
    if id !in e.me.handlers then e else
    var h := e.me.handlers[id];
    match h.pc
    case Running => SetHandler(e, id, h.(pc := if h.cancelled then Exiting else Replying))
    case Replying => SetHandler(Send(e, Frame(Response, id, h.call), ok).0, id, h.(pc := Exiting))
    case Exiting => e.(me := e.me.(core := ExitRegion(e.me.core, id), handlers := e.me.handlers - {id}))
  }

  function CancelAll(p: PeerState): map<Id, Handler> {
    map id | id in p.handlers :: if id in p.core.active then p.handlers[id].(cancelled := true) else p.handlers[id]
  }

  function DoClose(e: End): End {
    var c := e.me.core;
    match c.phase
    case Open => SetCore(e, c.(phase := ConnClosed))
    case ConnClosed =>
      e.(me := e.me.(core := c.(phase := ActiveCleared, active := {}), handlers := CancelAll(e.me)))
    case ActiveCleared => SetCore(e, c.(phase := Done))
    case Done => e
  }

  function Act(e: End, a: Action): End {
    match a
    case Begin(t) => if t in e.me.callers then e else SetCaller(e, t, Wanting)
    case CallerStep(t, choice, ok) => DoCaller(e, t, choice, ok)
    case ReaderStep(ok) => DoReader(e, ok)
    case HandlerStep(id, ok) => DoHandler(e, id, ok)
    case Interrupt(id) =>
      if id in e.me.handlers then SetHandler(e, id, e.me.handlers[id].(cancelled := true)) else e
    case CloseStep => DoClose(e)
  }

  // ----- two peers

  datatype System = System(connect: PeerState, accept: PeerState, toAccept: seq<Frame>, toConnect: seq<Frame>)

  datatype Step = Connector(a: Action) | Acceptor(a: Action)

  function Fresh(base: Id): PeerState { PeerState(Start(base), map[], map[], Idle, map[]) }

  const Init := System(Fresh(1), Fresh(0), [], [])

  function ConnectEnd(s: System): End { End(s.connect, s.toConnect, s.toAccept) }

  function AcceptEnd(s: System): End { End(s.accept, s.toAccept, s.toConnect) }

  function Apply(s: System, step: Step): System {
    match step
    case Connector(a) => var e := Act(ConnectEnd(s), a); System(e.me, s.accept, e.outbound, e.inbound)
    case Acceptor(a) => var e := Act(AcceptEnd(s), a); System(s.connect, e.me, e.inbound, e.outbound)
  }

  function Exec(s: System, steps: seq<Step>): System {
    if steps == [] then s else Apply(Exec(s, steps[..|steps| - 1]), steps[|steps| - 1])
  }

  // ----- numbering and bounds of one peer

  predicate HasId(c: Caller) {
    c.Numbered? || c.Registered? || c.Waiting? || c.Cancelling? || c.Leaving?
  }

  predicate HoldsToken(c: Caller) { !c.Wanting? && !c.Finished? }

  function Holders(p: PeerState): set<CallId> {
    set t | t in p.callers && HoldsToken(p.callers[t])
  }

  ghost predicate Numbering(p: PeerState, base: Id) {
    && p.core.nextID >= base && p.core.nextID % 2 == base % 2
    && (forall id: Id :: id in p.issued ==> base < id <= p.core.nextID && id % 2 == base % 2)
    && (forall t: CallId :: t in p.callers && HasId(p.callers[t]) ==>
          p.callers[t].id in p.issued && p.issued[p.callers[t].id] == t)
  }

  ghost predicate Bounded(p: PeerState) {
    && p.core.outgoing == |Holders(p)| <= MaxInFlight
    && (forall id: Id :: id in p.core.pending ==>
          && id in p.issued && p.issued[id] in p.callers
          && HasId(p.callers[p.issued[id]]) && p.callers[p.issued[id]].id == id)
  }

  // ----- where the request of each ID is: exactly one place at a time

  datatype Stage =
    | Unsent | Sent           // the second: a request frame on the wire
    | Read                    // held by the server's read loop
    | Handled                 // a handler has not answered yet
    | Answered                // a response frame on the wire
    | Arriving                // held by the client's read loop
    | Settled                 // answered, dropped or given up

  ghost predicate Tagged(f: Frame, issued: map<Id, CallId>) {
    f.id in issued && issued[f.id] == f.call
  }

  ghost predicate At(f: Frame, issued: map<Id, CallId>, stage: map<Id, Stage>, st: Stage) {
    Tagged(f, issued) && f.id in stage && stage[f.id] == st
  }

  ghost predicate WireAt(wire: seq<Frame>, kind: Kind, issued: map<Id, CallId>, stage: map<Id, Stage>, st: Stage) {
    && (forall k :: 0 <= k < |wire| && wire[k].kind == kind ==> At(wire[k], issued, stage, st))
    && (forall j, k :: 0 <= j < k < |wire| && wire[j].kind == kind && wire[k].kind == kind ==> wire[j].id != wire[k].id)
  }

  // A filled channel holds the response of its own ID, and is filled last.
  ghost predicate SlotOk(c: Core, id: Id, issued: map<Id, CallId>, stage: map<Id, Stage>) {
    && (!SlotOf(c, id).Empty? ==> id in stage && stage[id] == Settled)
    && (SlotOf(c, id).Full? ==>
          var f := SlotOf(c, id).frame; f.id == id && f.kind == Response && Tagged(f, issued))
  }

  ghost predicate ReaderOk(r: Reader, issued: map<Id, CallId>, stage: map<Id, Stage>) {
    && (!r.Idle? && r.frame.kind == Response ==> At(r.frame, issued, stage, Arriving))
    && (r.Delivering? ==> r.frame.kind == Response)
    && (r.Refusing? ==> r.frame.kind == Request)
  }

  ghost predicate CallerOk(c: Caller, t: CallId, stage: map<Id, Stage>) {
    && (c.Numbered? || c.Registered? ==> c.id in stage && stage[c.id] == Unsent)
    && OwnAnswer(c, t)
  }

  // The client's own view of its calls.
  ghost predicate ClientSide(c: PeerState, stage: map<Id, Stage>) {
    && stage.Keys == c.issued.Keys
    && (forall id: Id :: SlotOk(c.core, id, c.issued, stage))
    && ReaderOk(c.reader, c.issued, stage)
    && (forall t: CallId :: t in c.callers ==> CallerOk(c.callers[t], t, stage))
  }

  predicate OwnAnswer(c: Caller, t: CallId) {
    (c.Leaving? || c.Releasing? || c.Finished?) && c.answer.Some? ==> c.answer.value.kind == Response && c.answer.value.call == t
  }

  predicate Past(st: Stage) { st.Handled? || st.Answered? || st.Arriving? || st.Settled? }

  // The server's view of the client's calls.
  ghost predicate ServerSide(s: PeerState, issued: map<Id, CallId>, stage: map<Id, Stage>) {
    && (!s.reader.Idle? && s.reader.frame.kind == Request ==> At(s.reader.frame, issued, stage, Read))
    && (s.reader.Refusing? ==> s.reader.frame.kind == Request)
    && (s.reader.Delivering? ==> s.reader.frame.kind == Response)
    && (forall id: Id :: id in s.handlers ==> id in stage && Past(stage[id]))
    && (forall id: Id :: id in s.handlers && !s.handlers[id].pc.Exiting? ==>
          id in issued && issued[id] == s.handlers[id].call && stage[id] == Handled)
    && s.core.sem == |s.handlers| <= MaxInFlight
    && s.core.active <= s.handlers.Keys
  }

  // Everything about the requests one peer, c, sends to the other, s.
  ghost predicate Direction(c: PeerState, s: PeerState, out: seq<Frame>, back: seq<Frame>, stage: map<Id, Stage>) {
    && ClientSide(c, stage)
    && ServerSide(s, c.issued, stage)
    && WireAt(out, Request, c.issued, stage, Sent)
    && WireAt(back, Response, c.issued, stage, Answered)
  }

  // ----- the streams

  predicate Absent(wire: seq<Frame>, kind: Kind, id: Id) {
    forall k :: 0 <= k < |wire| && wire[k].kind == kind ==> wire[k].id != id
  }

  lemma Restage(wire: seq<Frame>, kind: Kind, issued: map<Id, CallId>, stage: map<Id, Stage>, st: Stage, id: Id, to: Stage)
    requires WireAt(wire, kind, issued, stage, st)
    requires Absent(wire, kind, id)
    ensures WireAt(wire, kind, issued, stage[id := to], st)
  {
  }

  lemma Issue(wire: seq<Frame>, kind: Kind, issued: map<Id, CallId>, stage: map<Id, Stage>, st: Stage, id: Id, t: CallId)
    requires WireAt(wire, kind, issued, stage, st)
    requires id !in issued
    ensures WireAt(wire, kind, issued[id := t], stage[id := Unsent], st)
  {
  }

  lemma Pop(wire: seq<Frame>, kind: Kind, issued: map<Id, CallId>, stage: map<Id, Stage>, st: Stage)
    requires WireAt(wire, kind, issued, stage, st)
    requires wire != []
    ensures WireAt(wire[1..], kind, issued, stage, st)
    ensures wire[0].kind == kind ==> At(wire[0], issued, stage, st) && Absent(wire[1..], kind, wire[0].id)
  {
    var rest := wire[1..];
    forall k | 0 <= k < |rest| && rest[k].kind == kind
      ensures At(rest[k], issued, stage, st)
      ensures wire[0].kind == kind ==> rest[k].id != wire[0].id
    {
      assert wire[k + 1].kind == kind;
    }
    forall j, k | 0 <= j < k < |rest| && rest[j].kind == kind && rest[k].kind == kind ensures rest[j].id != rest[k].id {
      assert wire[j + 1].kind == kind && wire[k + 1].kind == kind;
    }
  }

  lemma Push(wire: seq<Frame>, f: Frame, kind: Kind, issued: map<Id, CallId>, stage: map<Id, Stage>, st: Stage)
    requires WireAt(wire, kind, issued, stage, st)
    requires f.kind == kind ==> Tagged(f, issued) && f.id in stage && stage[f.id] != st
    ensures f.kind == kind ==> WireAt(wire + [f], kind, issued, stage[f.id := st], st)
    ensures f.kind != kind ==> WireAt(wire + [f], kind, issued, stage, st)
  {
  }

  // ----- one step of the client

  function ClientStage(e: End, a: Action, stage: map<Id, Stage>): map<Id, Stage> {
    match a
    case CallerStep(t, choice, ok) =>
      if t !in e.me.callers then stage else
      (match e.me.callers[t]
       case Admitted => stage[e.me.core.nextID + 2 := Unsent]
       case Registered(id) => if e.me.core.phase.Open? && ok then stage[id := Sent] else stage
       case _ => stage)
    case ReaderStep(ok) =>
      (match e.me.reader
       case Idle =>
         if e.me.core.phase.Open? && e.inbound != [] && e.inbound[0].kind == Response then stage[e.inbound[0].id := Arriving] else stage
       case Got(f) => if f.kind == Response && f.id !in e.me.core.pending then stage[f.id := Settled] else stage
       case Delivering(f) => stage[f.id := Settled]
       case Refusing(_) => stage)
    case _ => stage
  }

  // The server's view when the client moves the stage of one ID.
  lemma ServerUnmoved(s: PeerState, issued: map<Id, CallId>, stage: map<Id, Stage>, id: Id, to: Stage)
    requires ServerSide(s, issued, stage)
    requires id in stage && !stage[id].Read? && !stage[id].Handled?
    requires Past(stage[id]) ==> Past(to)
    ensures ServerSide(s, issued, stage[id := to])
  {
  }

  lemma ServerIssue(s: PeerState, issued: map<Id, CallId>, stage: map<Id, Stage>, id: Id, t: CallId)
    requires ServerSide(s, issued, stage)
    requires id !in issued && stage.Keys == issued.Keys
    ensures ServerSide(s, issued[id := t], stage[id := Unsent])
  {
  }

  // Caller steps that neither number nor send a request.
  lemma QuietCaller(e: End, t: CallId, choice: Choice, ok: bool, stage: map<Id, Stage>, base: Id)
    requires Numbering(e.me, base) && ClientSide(e.me, stage)
    requires t in e.me.callers && !e.me.callers[t].Admitted? && !e.me.callers[t].Registered?
    ensures ClientSide(DoCaller(e, t, choice, ok).me, stage)
  {
    var me, me' := e.me, DoCaller(e, t, choice, ok).me;
    var c := me.callers[t];
    assert CallerOk(c, t, stage);
    assert HasId(c) ==> c.id in me.issued && me.issued[c.id] == t && SlotOk(me.core, c.id, me.issued, stage);
    forall id: Id ensures SlotOk(me'.core, id, me'.issued, stage) {
      assert SlotOk(me.core, id, me.issued, stage);
    }
    forall u: CallId | u in me'.callers ensures CallerOk(me'.callers[u], u, stage) {
      assert u != t ==> CallerOk(me.callers[u], u, stage);
    }
  }

  lemma NumberingCaller(e: End, t: CallId, stage: map<Id, Stage>, base: Id)
    requires Numbering(e.me, base) && ClientSide(e.me, stage)
    requires t in e.me.callers && e.me.callers[t].Admitted?
    ensures e.me.core.nextID + 2 !in e.me.issued
    ensures ClientSide(DoNumber(e, t).me, stage[e.me.core.nextID + 2 := Unsent])
  {
    var me, me' := e.me, DoNumber(e, t).me;
    var stage' := stage[me.core.nextID + 2 := Unsent];
    forall id: Id ensures SlotOk(me'.core, id, me'.issued, stage') {
      assert SlotOk(me.core, id, me.issued, stage);
    }
    forall u: CallId | u in me'.callers ensures CallerOk(me'.callers[u], u, stage') {
      assert u != t ==> CallerOk(me.callers[u], u, stage);
    }
  }

  lemma SendingCaller(e: End, t: CallId, choice: Choice, ok: bool, stage: map<Id, Stage>, base: Id)
    requires Numbering(e.me, base) && ClientSide(e.me, stage)
    requires t in e.me.callers && e.me.callers[t].Registered?
    ensures ClientSide(DoCaller(e, t, choice, ok).me, ClientStage(e, CallerStep(t, choice, ok), stage))
  {
    var me, me' := e.me, DoCaller(e, t, choice, ok).me;
    var stage' := ClientStage(e, CallerStep(t, choice, ok), stage);
    assert CallerOk(me.callers[t], t, stage);
    forall id: Id ensures SlotOk(me'.core, id, me'.issued, stage') {
      assert SlotOk(me.core, id, me.issued, stage);
    }
    forall u: CallId | u in me'.callers ensures CallerOk(me'.callers[u], u, stage') {
      assert u != t ==> CallerOk(me.callers[u], u, stage);
      assert HasId(me.callers[t]) && (HasId(me.callers[u]) && u != t ==> me.callers[u].id != me.callers[t].id);
    }
  }

  // What such a step leaves alone; it writes a cancel frame at most.
  lemma QuietFrame(e: End, t: CallId, choice: Choice, ok: bool)
    requires t in e.me.callers && !e.me.callers[t].Admitted? && !e.me.callers[t].Registered?
    ensures var e' := DoCaller(e, t, choice, ok);
            && e'.me.issued == e.me.issued && e'.inbound == e.inbound
            && (e'.outbound == e.outbound
                || (e.me.callers[t].Cancelling? && e'.outbound == e.outbound + [Frame(Cancel, e.me.callers[t].id, t)]))
  {
  }

  lemma ClientQuiet(e: End, t: CallId, choice: Choice, ok: bool, s: PeerState, stage: map<Id, Stage>, base: Id)
    requires Numbering(e.me, base)
    requires Direction(e.me, s, e.outbound, e.inbound, stage)
    requires t in e.me.callers && !e.me.callers[t].Admitted? && !e.me.callers[t].Registered?
    ensures var e' := DoCaller(e, t, choice, ok); Direction(e'.me, s, e'.outbound, e'.inbound, stage)
  {
    QuietFrame(e, t, choice, ok);
    QuietCaller(e, t, choice, ok, stage, base);
    if e.me.callers[t].Cancelling? {
      Push(e.outbound, Frame(Cancel, e.me.callers[t].id, t), Request, e.me.issued, stage, Sent);
    }
  }

  lemma ClientNumbers(e: End, t: CallId, s: PeerState, stage: map<Id, Stage>, base: Id)
    requires Numbering(e.me, base)
    requires Direction(e.me, s, e.outbound, e.inbound, stage)
    requires t in e.me.callers && e.me.callers[t].Admitted?
    ensures var e' := DoNumber(e, t);
            Direction(e'.me, s, e'.outbound, e'.inbound, stage[e.me.core.nextID + 2 := Unsent])
  {
    var id := e.me.core.nextID + 2;
    NumberingCaller(e, t, stage, base);
    ServerIssue(s, e.me.issued, stage, id, t);
    Issue(e.outbound, Request, e.me.issued, stage, Sent, id, t);
    Issue(e.inbound, Response, e.me.issued, stage, Answered, id, t);
  }

  lemma ClientSends(e: End, t: CallId, choice: Choice, s: PeerState, stage: map<Id, Stage>, base: Id)
    requires Numbering(e.me, base)
    requires Direction(e.me, s, e.outbound, e.inbound, stage)
    requires t in e.me.callers && e.me.callers[t].Registered? && e.me.core.phase.Open?
    ensures var e' := DoCaller(e, t, choice, true);
            Direction(e'.me, s, e'.outbound, e'.inbound, stage[e.me.callers[t].id := Sent])
  {
    var id := e.me.callers[t].id;
    SendingCaller(e, t, choice, true, stage, base);
    assert HasId(e.me.callers[t]) && CallerOk(e.me.callers[t], t, stage);
    ServerUnmoved(s, e.me.issued, stage, id, Sent);
    Push(e.outbound, Frame(Request, id, t), Request, e.me.issued, stage, Sent);
    Restage(e.inbound, Response, e.me.issued, stage, Answered, id, Sent);
  }

  lemma ClientCaller(e: End, t: CallId, choice: Choice, ok: bool, s: PeerState, stage: map<Id, Stage>, base: Id)
    requires Numbering(e.me, base)
    requires Direction(e.me, s, e.outbound, e.inbound, stage)
    ensures var a := CallerStep(t, choice, ok); var e' := DoCaller(e, t, choice, ok);
            Direction(e'.me, s, e'.outbound, e'.inbound, ClientStage(e, a, stage))
  {
    if t !in e.me.callers {
    } else if e.me.callers[t].Admitted? {
      ClientNumbers(e, t, s, stage, base);
    } else if !e.me.callers[t].Registered? {
      ClientQuiet(e, t, choice, ok, s, stage, base);
    } else if e.me.core.phase.Open? && ok {
      ClientSends(e, t, choice, s, stage, base);
    } else {
      SendingCaller(e, t, choice, ok, stage, base);
    }
  }

  // The read loop moves the stage of one response frame it handles.
  lemma ClientMoves(e: End, s: PeerState, stage: map<Id, Stage>, id: Id, to: Stage, stage': map<Id, Stage>)
    requires Direction(e.me, s, e.outbound, e.inbound, stage)
    requires stage' == stage[id := to]
    requires id in stage && (stage[id].Answered? || stage[id].Arriving?) && (to.Arriving? || to.Settled?)
    requires Absent(e.inbound, Response, id)
    ensures ServerSide(s, e.me.issued, stage')
    ensures WireAt(e.outbound, Request, e.me.issued, stage', Sent)
    ensures WireAt(e.inbound, Response, e.me.issued, stage', Answered)
    ensures forall i: Id :: SlotOk(e.me.core, i, e.me.issued, stage')
    ensures forall t: CallId :: t in e.me.callers ==> CallerOk(e.me.callers[t], t, stage')
  {
    ServerUnmoved(s, e.me.issued, stage, id, to);
    Restage(e.inbound, Response, e.me.issued, stage, Answered, id, to);
    Restage(e.outbound, Request, e.me.issued, stage, Sent, id, to);
    forall i: Id ensures SlotOk(e.me.core, i, e.me.issued, stage') {
      assert SlotOk(e.me.core, i, e.me.issued, stage);
    }
    forall t: CallId | t in e.me.callers ensures CallerOk(e.me.callers[t], t, stage') {
      assert CallerOk(e.me.callers[t], t, stage);
    }
  }

  lemma ClientReads(e: End, s: PeerState, stage: map<Id, Stage>)
    requires e.me.reader.Idle? && e.me.core.phase.Open? && e.inbound != []
    requires Direction(e.me, s, e.outbound, e.inbound, stage)
    ensures var e' := DoReader(e, true);
            Direction(e'.me, s, e'.outbound, e'.inbound, ClientStage(e, ReaderStep(true), stage))
  {
    Pop(e.inbound, Response, e.me.issued, stage, Answered);
    if e.inbound[0].kind == Response {
      ClientMoves(e.(inbound := e.inbound[1..]), s, stage, e.inbound[0].id, Arriving, stage[e.inbound[0].id := Arriving]);
    }
  }

  lemma ClientDispatches(e: End, s: PeerState, stage: map<Id, Stage>)
    requires e.me.reader.Got?
    requires Direction(e.me, s, e.outbound, e.inbound, stage)
    ensures var e' := Dispatch(e, e.me.reader.frame);
            Direction(e'.me, s, e'.outbound, e'.inbound, ClientStage(e, ReaderStep(true), stage))
  {
    var f := e.me.reader.frame;
    var e' := Dispatch(e, f);
    if f.kind == Response && f.id !in e.me.core.pending {
      ClientMoves(e, s, stage, f.id, Settled, stage[f.id := Settled]);
    } else {
      SlotsFrame(e.me.core, e'.me.core, e.me.issued, stage);
    }
  }

  lemma SlotsFrame(c: Core, c': Core, issued: map<Id, CallId>, stage: map<Id, Stage>)
    requires c'.slots == c.slots
    requires forall id: Id :: SlotOk(c, id, issued, stage)
    ensures forall id: Id :: SlotOk(c', id, issued, stage)
  {
    forall id: Id ensures SlotOk(c', id, issued, stage) {
      assert SlotOk(c, id, issued, stage);
    }
  }

  lemma ClientDelivers(e: End, s: PeerState, stage: map<Id, Stage>)
    requires e.me.reader.Delivering?
    requires Direction(e.me, s, e.outbound, e.inbound, stage)
    ensures var e' := DoReader(e, true);
            Direction(e'.me, s, e'.outbound, e'.inbound, stage[e.me.reader.frame.id := Settled])
  {
    var f := e.me.reader.frame;
    var stage' := stage[f.id := Settled];
    ClientMoves(e, s, stage, f.id, Settled, stage[f.id := Settled]);
    var core' := DeliverRegion(e.me.core, f);
    forall id: Id ensures SlotOk(core', id, e.me.issued, stage') {
      assert SlotOk(e.me.core, id, e.me.issued, stage');
    }
  }

  lemma ClientReader(e: End, ok: bool, s: PeerState, stage: map<Id, Stage>)
    requires Direction(e.me, s, e.outbound, e.inbound, stage)
    ensures var a := ReaderStep(ok); var e' := Act(e, a);
            Direction(e'.me, s, e'.outbound, e'.inbound, ClientStage(e, a, stage))
  {
    match e.me.reader
    case Idle =>
      if e.me.core.phase.Open? && e.inbound != [] {
        ClientReads(e, s, stage);
      }
    case Got(f) => ClientDispatches(e, s, stage);
    case Delivering(f) => ClientDelivers(e, s, stage);
    case Refusing(f) => Push(e.outbound, Frame(Response, f.id, f.call), Request, e.me.issued, stage, Sent);
  }

  lemma OtherClientSide(c: PeerState, c': PeerState, t: CallId, stage: map<Id, Stage>)
    requires ClientSide(c, stage)
    requires c'.reader == c.reader && c'.issued == c.issued && c'.core.slots == c.core.slots
    requires c'.callers == c.callers || c'.callers == c.callers[t := Wanting]
    ensures ClientSide(c', stage)
  {
    SlotsFrame(c.core, c'.core, c.issued, stage);
    forall u: CallId | u in c'.callers ensures CallerOk(c'.callers[u], u, stage) {
      assert u in c.callers ==> CallerOk(c.callers[u], u, stage);
    }
  }

  // What a step of no caller and no read loop leaves alone.
  lemma OtherFrame(e: End, a: Action)
    requires !a.CallerStep? && !a.ReaderStep?
    ensures var e' := Act(e, a);
            && e'.me.reader == e.me.reader && e'.me.issued == e.me.issued && e'.me.core.slots == e.me.core.slots
            && (e'.me.callers == e.me.callers || (a.Begin? && e'.me.callers == e.me.callers[a.t := Wanting]))
            && e'.inbound == e.inbound
            && (e'.outbound == e.outbound
                || (a.HandlerStep? && a.id in e.me.handlers
                    && e'.outbound == e.outbound + [Frame(Response, a.id, e.me.handlers[a.id].call)]))
  {
  }

  lemma ClientOther(e: End, a: Action, s: PeerState, stage: map<Id, Stage>)
    requires !a.CallerStep? && !a.ReaderStep?
    requires Direction(e.me, s, e.outbound, e.inbound, stage)
    ensures var e' := Act(e, a); Direction(e'.me, s, e'.outbound, e'.inbound, stage)
  {
    OtherFrame(e, a);
    OtherClientSide(e.me, Act(e, a).me, if a.Begin? then a.t else 0, stage);
    if a.HandlerStep? && a.id in e.me.handlers {
      Push(e.outbound, Frame(Response, a.id, e.me.handlers[a.id].call), Request, e.me.issued, stage, Sent);
    }
  }

  // ----- one step of the server

  function ServerStage(e: End, a: Action, stage: map<Id, Stage>): map<Id, Stage> {
    match a
    case ReaderStep(ok) =>
      (match e.me.reader
       case Idle =>
         if e.me.core.phase.Open? && e.inbound != [] && e.inbound[0].kind == Request then stage[e.inbound[0].id := Read] else stage
       case Got(f) => if f.kind == Request && e.me.core.sem < MaxInFlight then stage[f.id := Handled] else stage
       case Delivering(_) => stage
       case Refusing(f) => stage[f.id := if e.me.core.phase.Open? && ok then Answered else Settled])
    case HandlerStep(id, ok) =>
      if id !in e.me.handlers then stage else
      (match e.me.handlers[id].pc
       case Running => if e.me.handlers[id].cancelled then stage[id := Settled] else stage
       case Replying => stage[id := if e.me.core.phase.Open? && ok then Answered else Settled]
       case Exiting => stage)
    case _ => stage
  }

  // The client's view when the server moves the stage of one ID.
  lemma ClientUnmoved(c: PeerState, stage: map<Id, Stage>, id: Id, stage': map<Id, Stage>)
    requires ClientSide(c, stage)
    requires id in stage && (stage[id].Sent? || stage[id].Read? || stage[id].Handled?)
    requires stage'.Keys == stage.Keys && forall i: Id :: i in stage && i != id ==> stage'[i] == stage[i]
    ensures ClientSide(c, stage')
  {
    forall i: Id ensures SlotOk(c.core, i, c.issued, stage') {
      assert SlotOk(c.core, i, c.issued, stage);
    }
    forall t: CallId | t in c.callers ensures CallerOk(c.callers[t], t, stage') {
      assert CallerOk(c.callers[t], t, stage);
    }
  }

  // Both streams when the server moves one ID that is on neither.
  lemma WiresUnmoved(c: PeerState, e: End, stage: map<Id, Stage>, id: Id, to: Stage)
    requires WireAt(e.inbound, Request, c.issued, stage, Sent)
    requires WireAt(e.outbound, Response, c.issued, stage, Answered)
    requires id in stage && (stage[id].Sent? || stage[id].Read? || stage[id].Handled?)
    requires Absent(e.inbound, Request, id)
    ensures WireAt(e.inbound, Request, c.issued, stage[id := to], Sent)
    ensures WireAt(e.outbound, Response, c.issued, stage[id := to], Answered)
  {
    Restage(e.inbound, Request, c.issued, stage, Sent, id, to);
    Restage(e.outbound, Response, c.issued, stage, Answered, id, to);
  }

  lemma ServerReads(c: PeerState, e: End, stage: map<Id, Stage>)
    requires e.me.reader.Idle? && e.me.core.phase.Open? && e.inbound != []
    requires Direction(c, e.me, e.inbound, e.outbound, stage)
    ensures var e' := DoReader(e, true);
            Direction(c, e'.me, e'.inbound, e'.outbound, ServerStage(e, ReaderStep(true), stage))
  {
    Pop(e.inbound, Request, c.issued, stage, Sent);
    if e.inbound[0].kind == Request {
      var id := e.inbound[0].id;
      ClientUnmoved(c, stage, id, stage[id := Read]);
      WiresUnmoved(c, e.(inbound := e.inbound[1..]), stage, id, Read);
    }
  }

  // The server's own view when it settles or takes over one request.
  lemma SideWith(s: PeerState, s': PeerState, issued: map<Id, CallId>, stage: map<Id, Stage>, id: Id, to: Stage)
    requires ServerSide(s, issued, stage)
    requires id in stage && (stage[id].Read? || stage[id].Handled?) && Past(to)
    requires s'.reader.Idle? || (s'.reader == s.reader && stage[id].Handled?)
    requires forall i: Id :: i in s'.handlers && i != id ==> i in s.handlers && s'.handlers[i] == s.handlers[i]
    requires id in s'.handlers && !s'.handlers[id].pc.Exiting? ==> Tagged(Frame(Request, id, s'.handlers[id].call), issued) && to.Handled?
    requires s'.core.sem == |s'.handlers| <= MaxInFlight && s'.core.active <= s'.handlers.Keys
    ensures ServerSide(s', issued, stage[id := to])
  {
  }

  lemma ServerAdmits(c: PeerState, e: End, stage: map<Id, Stage>)
    requires e.me.reader.Got? && e.me.reader.frame.kind == Request && e.me.core.sem < MaxInFlight
    requires Direction(c, e.me, e.inbound, e.outbound, stage)
    ensures e.me.reader.frame.id !in e.me.handlers
    ensures var e' := Dispatch(e, e.me.reader.frame);
            Direction(c, e'.me, e'.inbound, e'.outbound, stage[e.me.reader.frame.id := Handled])
  {
    var f := e.me.reader.frame;
    ClientUnmoved(c, stage, f.id, stage[f.id := Handled]);
    WiresUnmoved(c, e, stage, f.id, Handled);
    var e' := Dispatch(e, f);
    assert e'.me.handlers == e.me.handlers[f.id := Handler(f.call, false, Running)];
    assert |e'.me.handlers| == |e.me.handlers| + 1;
    SideWith(e.me, e'.me, c.issued, stage, f.id, Handled);
  }

  lemma ServerDispatches(c: PeerState, e: End, stage: map<Id, Stage>)
    requires e.me.reader.Got?
    requires Direction(c, e.me, e.inbound, e.outbound, stage)
    ensures var e' := Dispatch(e, e.me.reader.frame);
            Direction(c, e'.me, e'.inbound, e'.outbound, ServerStage(e, ReaderStep(true), stage))
  {
    var f := e.me.reader.frame;
    if f.kind == Request && e.me.core.sem < MaxInFlight {
      ServerAdmits(c, e, stage);
    } else if f.kind == Cancel {
      var e' := Dispatch(e, f);
      assert e'.me.handlers.Keys == e.me.handlers.Keys;
      assert |e'.me.handlers| == |e'.me.handlers.Keys|;
    }
  }

  // The server answers, or gives up, the request of `id`.
  lemma ServerAnswers(c: PeerState, e: End, stage: map<Id, Stage>, f: Frame, ok: bool)
    requires ClientSide(c, stage)
    requires WireAt(e.inbound, Request, c.issued, stage, Sent)
    requires WireAt(e.outbound, Response, c.issued, stage, Answered)
    requires f.kind == Response && Tagged(f, c.issued) && f.id in stage && (stage[f.id].Read? || stage[f.id].Handled?)
    ensures var (e', sent) := Send(e, f, ok); var stage' := stage[f.id := if sent then Answered else Settled];
            && ClientSide(c, stage')
            && WireAt(e'.inbound, Request, c.issued, stage', Sent)
            && WireAt(e'.outbound, Response, c.issued, stage', Answered)
  {
    var (e', sent) := Send(e, f, ok);
    var to := if sent then Answered else Settled;
    ClientUnmoved(c, stage, f.id, stage[f.id := to]);
    WiresUnmoved(c, e, stage, f.id, to);
    if sent {
      Push(e.outbound, f, Response, c.issued, stage, Answered);
    }
  }

  lemma ServerReader(c: PeerState, e: End, ok: bool, stage: map<Id, Stage>)
    requires Direction(c, e.me, e.inbound, e.outbound, stage)
    ensures var a := ReaderStep(ok); var e' := DoReader(e, ok);
            Direction(c, e'.me, e'.inbound, e'.outbound, ServerStage(e, a, stage))
  {
    match e.me.reader
    case Idle =>
      if e.me.core.phase.Open? && e.inbound != [] {
        ServerReads(c, e, stage);
      }
    case Got(f) => ServerDispatches(c, e, stage);
    case Delivering(f) =>
    case Refusing(f) => ServerAnswers(c, e, stage, Frame(Response, f.id, f.call), ok);
  }

  lemma ServerHandler(c: PeerState, e: End, id: Id, ok: bool, stage: map<Id, Stage>)
    requires Direction(c, e.me, e.inbound, e.outbound, stage)
    ensures var a := HandlerStep(id, ok); var e' := DoHandler(e, id, ok);
            Direction(c, e'.me, e'.inbound, e'.outbound, ServerStage(e, a, stage))
  {
    if id in e.me.handlers {
      match e.me.handlers[id].pc
      case Running => ServerFinishes(c, e, id, stage);
      case Replying => ServerReplies(c, e, id, ok, stage);
      case Exiting => ServerExits(c, e, id, stage);
    }
  }

  lemma ServerFinishes(c: PeerState, e: End, id: Id, stage: map<Id, Stage>)
    requires Direction(c, e.me, e.inbound, e.outbound, stage)
    requires id in e.me.handlers && e.me.handlers[id].pc.Running?
    ensures var e' := DoHandler(e, id, true);
            Direction(c, e'.me, e'.inbound, e'.outbound, ServerStage(e, HandlerStep(id, true), stage))
  {
    var h, e' := e.me.handlers[id], DoHandler(e, id, true);
    assert e'.me.handlers.Keys == e.me.handlers.Keys && |e'.me.handlers| == |e'.me.handlers.Keys|;
    if h.cancelled {
      ClientUnmoved(c, stage, id, stage[id := Settled]);
      WiresUnmoved(c, e, stage, id, Settled);
      SideWith(e.me, e'.me, c.issued, stage, id, Settled);
    }
  }

  lemma ServerReplies(c: PeerState, e: End, id: Id, ok: bool, stage: map<Id, Stage>)
    requires Direction(c, e.me, e.inbound, e.outbound, stage)
    requires id in e.me.handlers && e.me.handlers[id].pc.Replying?
    ensures var e' := DoHandler(e, id, ok);
            Direction(c, e'.me, e'.inbound, e'.outbound, ServerStage(e, HandlerStep(id, ok), stage))
  {
    var h, e' := e.me.handlers[id], DoHandler(e, id, ok);
    ServerAnswers(c, e, stage, Frame(Response, id, h.call), ok);
    assert e'.me.handlers.Keys == e.me.handlers.Keys && |e'.me.handlers| == |e'.me.handlers.Keys|;
    SideWith(e.me, e'.me, c.issued, stage, id, if e.me.core.phase.Open? && ok then Answered else Settled);
  }

  lemma ServerExits(c: PeerState, e: End, id: Id, stage: map<Id, Stage>)
    requires Direction(c, e.me, e.inbound, e.outbound, stage)
    requires id in e.me.handlers && e.me.handlers[id].pc.Exiting?
    ensures var e' := DoHandler(e, id, true); Direction(c, e'.me, e'.inbound, e'.outbound, stage)
  {
    var e' := DoHandler(e, id, true);
    assert e.me.handlers.Keys == e'.me.handlers.Keys + {id};
    assert |e'.me.handlers| == |e'.me.handlers.Keys| && |e.me.handlers| == |e.me.handlers.Keys|;
  }

  // A step of the server's own calls, or of close.
  lemma ServerFrame(e: End, a: Action)
    requires a.CallerStep? || a.Begin? || a.Interrupt? || a.CloseStep?
    ensures var e' := Act(e, a);
            && e'.me.reader == e.me.reader && e'.me.core.sem == e.me.core.sem && e'.inbound == e.inbound
            && (e'.me.core.active == e.me.core.active || e'.me.core.active == {})
            && e'.me.handlers.Keys == e.me.handlers.Keys
            && (forall id: Id :: id in e.me.handlers ==>
                  e'.me.handlers[id].pc == e.me.handlers[id].pc && e'.me.handlers[id].call == e.me.handlers[id].call)
            && (e'.outbound == e.outbound
                || exists f: Frame :: f.kind != Response && e'.outbound == e.outbound + [f])
  {
    if a.CallerStep? && a.t in e.me.callers {
      var c := e.me.callers[a.t];
      if c.Registered? {
        assert Frame(Request, c.id, a.t).kind != Response;
      } else if c.Cancelling? {
        assert Frame(Cancel, c.id, a.t).kind != Response;
      }
    }
  }

  lemma ServerOther(c: PeerState, e: End, a: Action, stage: map<Id, Stage>)
    requires a.CallerStep? || a.Begin? || a.Interrupt? || a.CloseStep?
    requires Direction(c, e.me, e.inbound, e.outbound, stage)
    ensures var e' := Act(e, a); Direction(c, e'.me, e'.inbound, e'.outbound, stage)
  {
    ServerFrame(e, a);
    var e' := Act(e, a);
    assert |e'.me.handlers| == |e'.me.handlers.Keys|;
    if e'.outbound != e.outbound {
      var f: Frame :| f.kind != Response && e'.outbound == e.outbound + [f];
      Push(e.outbound, f, Response, c.issued, stage, Answered);
    }
  }

  // ----- numbering and bounds are kept by every step

  // Only caller steps touch the calls of a peer.
  lemma CallsFrame(e: End, a: Action)
    requires !a.CallerStep?
    ensures SameCalls(e.me, Act(e, a).me, a)
  {
    if !a.Begin? {
      OtherCallsFrame(e, a);
    }
  }

  ghost predicate SameCalls(p: PeerState, p': PeerState, a: Action) {
    && p'.issued == p.issued && p'.core.nextID == p.core.nextID
    && p'.core.outgoing == p.core.outgoing && p'.core.pending == p.core.pending
    && (p'.callers == p.callers || (a.Begin? && a.t !in p.callers && p'.callers == p.callers[a.t := Wanting]))
  }

  lemma OtherCallsFrame(e: End, a: Action)
    requires !a.CallerStep? && !a.Begin?
    ensures SameCalls(e.me, Act(e, a).me, a)
  {
  }

  lemma OnlyCaller(e: End, t: CallId, choice: Choice, ok: bool)
    requires t in e.me.callers
    ensures var p, p' := e.me, DoCaller(e, t, choice, ok).me;
            && t in p'.callers
            && forall u: CallId :: u != t ==>
                 (u in p'.callers <==> u in p.callers) && (u in p.callers ==> p'.callers[u] == p.callers[u])
  {
    assert forall c: Caller, f: End :: SetCaller(f, t, c).me.callers == f.me.callers[t := c];
  }

  lemma IdFrame(e: End, t: CallId, choice: Choice, ok: bool)
    requires t in e.me.callers
    ensures var p, p' := e.me, DoCaller(e, t, choice, ok).me; var c := p.callers[t];
            && t in p'.callers
            && (if c.Admitted? then p'.callers[t] == Numbered(p.core.nextID + 2) && p'.core.nextID == p.core.nextID + 2
                                    && p'.issued == p.issued[p.core.nextID + 2 := t]
                else
                  && p'.issued == p.issued && p'.core.nextID == p.core.nextID
                  && (HasId(p'.callers[t]) ==> HasId(c) && p'.callers[t].id == c.id))
  {
  }

  lemma PendingFrame(e: End, t: CallId, choice: Choice, ok: bool)
    requires t in e.me.callers
    ensures var p, p' := e.me, DoCaller(e, t, choice, ok).me; var c := p.callers[t];
            && t in p'.callers
            && (HasId(c) && !c.Leaving? ==> HasId(p'.callers[t]) && p'.callers[t].id == c.id)
            && p'.core.pending == (if c.Numbered? then p.core.pending + {c.id}
                                   else if c.Leaving? then p.core.pending - {c.id} else p.core.pending)
  {
  }

  lemma TokenFrame(e: End, t: CallId, choice: Choice, ok: bool)
    requires t in e.me.callers
    requires HoldsToken(e.me.callers[t]) ==> e.me.core.outgoing > 0
    ensures var p, p' := e.me, DoCaller(e, t, choice, ok).me; var c := p.callers[t];
            && t in p'.callers
            && p'.core.outgoing - p.core.outgoing
               == (if HoldsToken(p'.callers[t]) then 1 else 0) - (if HoldsToken(c) then 1 else 0)
            && (p'.core.outgoing > p.core.outgoing ==> p.core.outgoing < MaxInFlight)
  {
  }

  lemma NumberingCallerStep(e: End, t: CallId, choice: Choice, ok: bool, base: Id)
    requires Numbering(e.me, base) && Bounded(e.me) && t in e.me.callers
    requires HoldsToken(e.me.callers[t]) ==> e.me.core.outgoing > 0
    ensures Numbering(DoCaller(e, t, choice, ok).me, base)
  {
    OnlyCaller(e, t, choice, ok);
    IdFrame(e, t, choice, ok);
    var p, p' := e.me, DoCaller(e, t, choice, ok).me;
    assert HasId(p.callers[t]) ==> p.callers[t].id in p.issued;
    forall u: CallId | u in p'.callers && HasId(p'.callers[u])
      ensures p'.callers[u].id in p'.issued && p'.issued[p'.callers[u].id] == u
    {
      if u != t {
        assert u in p.callers && HasId(p.callers[u]);
      }
    }
  }

  lemma TokenCount(e: End, t: CallId, choice: Choice, ok: bool)
    requires Bounded(e.me) && t in e.me.callers
    requires HoldsToken(e.me.callers[t]) ==> e.me.core.outgoing > 0
    ensures var p' := DoCaller(e, t, choice, ok).me; p'.core.outgoing == |Holders(p')| <= MaxInFlight
  {
    OnlyCaller(e, t, choice, ok);
    TokenFrame(e, t, choice, ok);
    var before, after := Holders(e.me), Holders(DoCaller(e, t, choice, ok).me);
    assert after - {t} == before - {t};
    assert |before| == |before - {t}| + if t in before then 1 else 0 by {
      assert t !in before ==> before == before - {t};
    }
    assert |after| == |after - {t}| + if t in after then 1 else 0 by {
      assert t !in after ==> after == after - {t};
    }
  }

  lemma BoundedCallerStep(e: End, t: CallId, choice: Choice, ok: bool, base: Id)
    requires Numbering(e.me, base) && Bounded(e.me) && t in e.me.callers
    requires HoldsToken(e.me.callers[t]) ==> e.me.core.outgoing > 0
    ensures Bounded(DoCaller(e, t, choice, ok).me)
  {
    OnlyCaller(e, t, choice, ok);
    IdFrame(e, t, choice, ok);
    PendingFrame(e, t, choice, ok);
    TokenCount(e, t, choice, ok);
    var p, p' := e.me, DoCaller(e, t, choice, ok).me;
    assert HasId(p.callers[t]) ==> p.callers[t].id in p.issued && p.issued[p.callers[t].id] == t;
    forall id: Id | id in p'.core.pending
      ensures && id in p'.issued && p'.issued[id] in p'.callers
              && HasId(p'.callers[p'.issued[id]]) && p'.callers[p'.issued[id]].id == id
    {
      if id in p.core.pending {
        assert id in p.issued && p.issued[id] in p.callers;
      }
    }
  }

  lemma OwnStep(e: End, a: Action, base: Id)
    requires Numbering(e.me, base) && Bounded(e.me)
    ensures Numbering(Act(e, a).me, base) && Bounded(Act(e, a).me)
  {
    if a.CallerStep? {
      if a.t in e.me.callers {
        assert HoldsToken(e.me.callers[a.t]) ==> a.t in Holders(e.me);
        NumberingCallerStep(e, a.t, a.choice, a.ok, base);
        BoundedCallerStep(e, a.t, a.choice, a.ok, base);
      }
    } else {
      CallsFrame(e, a);
      assert Holders(Act(e, a).me) == Holders(e.me);
    }
  }

  // ----- the two peers together

  ghost predicate Inv(s: System, ours: map<Id, Stage>, theirs: map<Id, Stage>) {
    && Numbering(s.connect, 1) && Bounded(s.connect)
    && Numbering(s.accept, 0) && Bounded(s.accept)
    && Direction(s.connect, s.accept, s.toAccept, s.toConnect, ours)
    && Direction(s.accept, s.connect, s.toConnect, s.toAccept, theirs)
  }

  // A step of either end, seen as client and as server.
  lemma EndStep(e: End, other: PeerState, a: Action, mine: map<Id, Stage>, theirs: map<Id, Stage>, base: Id)
    requires Numbering(e.me, base) && Bounded(e.me)
    requires Direction(e.me, other, e.outbound, e.inbound, mine)
    requires Direction(other, e.me, e.inbound, e.outbound, theirs)
    ensures var e' := Act(e, a);
            && Numbering(e'.me, base) && Bounded(e'.me)
            && Direction(e'.me, other, e'.outbound, e'.inbound, ClientStage(e, a, mine))
            && Direction(other, e'.me, e'.inbound, e'.outbound, ServerStage(e, a, theirs))
  {
    OwnStep(e, a, base);
    match a
    case CallerStep(t, choice, ok) =>
      ClientCaller(e, t, choice, ok, other, mine, base);
      ServerOther(other, e, a, theirs);
    case ReaderStep(ok) =>
      ClientReader(e, ok, other, mine);
      ServerReader(other, e, ok, theirs);
    case HandlerStep(id, ok) =>
      ClientOther(e, a, other, mine);
      ServerHandler(other, e, id, ok, theirs);
    case Begin(_) =>
      ClientOther(e, a, other, mine);
      ServerOther(other, e, a, theirs);
    case Interrupt(_) =>
      ClientOther(e, a, other, mine);
      ServerOther(other, e, a, theirs);
    case CloseStep =>
      ClientOther(e, a, other, mine);
      ServerOther(other, e, a, theirs);
  }

  ghost predicate Reached(s: System) {
    exists ours, theirs :: Inv(s, ours, theirs)
  }

  lemma {:induction false} Invariant(steps: seq<Step>)
    ensures Reached(Exec(Init, steps))
  {
    if steps == [] {
      assert Holders(Init.connect) == {} && Holders(Init.accept) == {};
      assert Inv(Init, map[], map[]);
    } else {
      var n := |steps| - 1;
      Invariant(steps[..n]);
      var s, s' := Exec(Init, steps[..n]), Exec(Init, steps);
      var ours, theirs :| Inv(s, ours, theirs);
      match steps[n]
      case Connector(a) =>
        EndStep(ConnectEnd(s), s.accept, a, ours, theirs, 1);
        assert Inv(s', ClientStage(ConnectEnd(s), a, ours), ServerStage(ConnectEnd(s), a, theirs));
      case Acceptor(a) =>
        EndStep(AcceptEnd(s), s.connect, a, theirs, ours, 0);
        assert Inv(s', ServerStage(AcceptEnd(s), a, ours), ClientStage(AcceptEnd(s), a, theirs));
    }
  }

  // ----- what follows for the callers

  // A response that c is about to read, is reading, or has been given belongs
  // to the call that c numbered so.
  ghost predicate Correlated(c: PeerState, inbound: seq<Frame>) {
    && (forall k :: 0 <= k < |inbound| && inbound[k].kind == Response ==> Tagged(inbound[k], c.issued))
    && (!c.reader.Idle? && c.reader.frame.kind == Response ==> Tagged(c.reader.frame, c.issued))
    && (forall t: CallId :: t in c.callers ==> OwnAnswer(c.callers[t], t))
  }

  /** In every reachable state of two peers, under every interleaving of cancels,
      late responses, refusals and close, a response with ID i answers the request
      the receiving peer numbered i; so a call that returns an answer returns its
      own. */
  lemma AnswersAreCorrelated(steps: seq<Step>)
    ensures var s := Exec(Init, steps); Correlated(s.connect, s.toConnect) && Correlated(s.accept, s.toAccept)
  {
    Invariant(steps);
    var s := Exec(Init, steps);
    var ours, theirs :| Inv(s, ours, theirs);
    forall t: CallId | t in s.connect.callers ensures OwnAnswer(s.connect.callers[t], t) {
      assert CallerOk(s.connect.callers[t], t, ours);
    }
    forall t: CallId | t in s.accept.callers ensures OwnAnswer(s.accept.callers[t], t) {
      assert CallerOk(s.accept.callers[t], t, theirs);
    }
  }

  // At most one response per ID is ever under way to c, none once c has taken
  // one, and the channel it is sent to is empty: no answer is dropped for want
  // of room and no call is answered twice.
  ghost predicate AnsweredOnce(c: PeerState, inbound: seq<Frame>) {
    && (forall j, k :: 0 <= j < k < |inbound| && inbound[j].kind == Response && inbound[k].kind == Response ==>
          inbound[j].id != inbound[k].id)
    && (forall k :: 0 <= k < |inbound| && inbound[k].kind == Response ==> SlotOf(c.core, inbound[k].id).Empty?)
    && (!c.reader.Idle? && c.reader.frame.kind == Response ==>
          SlotOf(c.core, c.reader.frame.id).Empty? && Absent(inbound, Response, c.reader.frame.id))
  }

  lemma DirectionAnswersOnce(c: PeerState, s: PeerState, out: seq<Frame>, back: seq<Frame>, stage: map<Id, Stage>)
    requires Direction(c, s, out, back, stage)
    ensures AnsweredOnce(c, back)
  {
    forall k | 0 <= k < |back| && back[k].kind == Response ensures SlotOf(c.core, back[k].id).Empty? {
      assert SlotOk(c.core, back[k].id, c.issued, stage);
    }
    if !c.reader.Idle? && c.reader.frame.kind == Response {
      assert SlotOk(c.core, c.reader.frame.id, c.issued, stage);
    }
  }

  lemma CallsAreAnsweredOnce(steps: seq<Step>)
    ensures var s := Exec(Init, steps); AnsweredOnce(s.connect, s.toConnect) && AnsweredOnce(s.accept, s.toAccept)
  {
    Invariant(steps);
    var s := Exec(Init, steps);
    var ours, theirs :| Inv(s, ours, theirs);
    DirectionAnswersOnce(s.connect, s.accept, s.toAccept, s.toConnect, ours);
    DirectionAnswersOnce(s.accept, s.connect, s.toConnect, s.toAccept, theirs);
  }

  lemma PendingBounded(p: PeerState)
    requires Bounded(p)
    ensures |p.core.pending| <= MaxInFlight
  {
    forall i: Id | i in p.core.pending ensures p.issued[i] in Holders(p) {
    }
    InjectionFits(p.core.pending, p.issued, Holders(p));
  }

  /** Each peer has at most 64 calls pending and at most 64 handlers running, and
      every entry of its active table is a running handler. */
  lemma InFlightIsBounded(steps: seq<Step>)
    ensures var s := Exec(Init, steps);
            && |s.connect.core.pending| <= MaxInFlight && |s.accept.core.pending| <= MaxInFlight
            && |s.connect.handlers| <= MaxInFlight && |s.accept.handlers| <= MaxInFlight
            && s.connect.core.active <= s.connect.handlers.Keys && s.accept.core.active <= s.accept.handlers.Keys
  {
    Invariant(steps);
    var s := Exec(Init, steps);
    var ours, theirs :| Inv(s, ours, theirs);
    PendingBounded(s.connect);
    PendingBounded(s.accept);
  }

  // Every ID issued has the peer's parity, and so does the next, which is new.
  ghost predicate Parity(p: PeerState, bit: nat) {
    && (forall id: Id :: id in p.issued ==> id % 2 == bit)
    && p.core.nextID + 2 !in p.issued && (p.core.nextID + 2) % 2 == bit
  }

  // A request the read loop holds never finds a handler under its ID.
  ghost predicate NoClobber(p: PeerState) {
    p.reader.Got? && p.reader.frame.kind == Request ==> p.reader.frame.id !in p.handlers
  }

  lemma NumberingParity(p: PeerState, base: Id)
    requires Numbering(p, base)
    ensures Parity(p, base % 2)
  {
  }

  lemma NeverClobbers(p: PeerState, issued: map<Id, CallId>, stage: map<Id, Stage>)
    requires ServerSide(p, issued, stage)
    ensures NoClobber(p)
  {
  }

  lemma InvFacts(s: System, ours: map<Id, Stage>, theirs: map<Id, Stage>)
    requires Inv(s, ours, theirs)
    ensures Numbering(s.connect, 1) && Numbering(s.accept, 0)
    ensures ServerSide(s.accept, s.connect.issued, ours) && ServerSide(s.connect, s.accept.issued, theirs)
  {
  }

  /** The connecting peer issues odd IDs, the accepting peer even ones, and neither
      issues an ID twice; nor does a request ever replace a running handler. */
  lemma {:induction false} IdsAreSplitAndFresh(steps: seq<Step>)
    ensures var s := Exec(Init, steps);
            Parity(s.connect, 1) && Parity(s.accept, 0) && NoClobber(s.connect) && NoClobber(s.accept)
  {
    Invariant(steps);
    var s := Exec(Init, steps);
    var ours, theirs :| Inv(s, ours, theirs);
    InvFacts(s, ours, theirs);
    FactsSplit(s, ours, theirs);
  }

  lemma FactsSplit(s: System, ours: map<Id, Stage>, theirs: map<Id, Stage>)
    requires Numbering(s.connect, 1) && Numbering(s.accept, 0)
    requires ServerSide(s.accept, s.connect.issued, ours) && ServerSide(s.connect, s.accept.issued, theirs)
    ensures Parity(s.connect, 1) && Parity(s.accept, 0) && NoClobber(s.connect) && NoClobber(s.accept)
  {
    NumberingParity(s.connect, 1);
    NumberingParity(s.accept, 0);
    NeverClobbers(s.accept, s.connect.issued, ours);
    NeverClobbers(s.connect, s.accept.issued, theirs);
  }

  // ----- what reaches the caller

  // One side of the pair, the connecting one if `mine`, and its steps.
  function Near(s: System, mine: bool): End { if mine then ConnectEnd(s) else AcceptEnd(s) }

  function On(mine: bool, a: Action): Step { if mine then Connector(a) else Acceptor(a) }

  function Ons(mine: bool, actions: seq<Action>): seq<Step> {
    if actions == [] then [] else Ons(mine, actions[..|actions| - 1]) + [On(mine, actions[|actions| - 1])]
  }

  function Acts(e: End, actions: seq<Action>): End {
    if actions == [] then e else Act(Acts(e, actions[..|actions| - 1]), actions[|actions| - 1])
  }

  lemma {:induction false} OneSideActs(s: System, mine: bool, actions: seq<Action>)
    ensures var s', e := Exec(s, Ons(mine, actions)), Acts(Near(s, mine), actions);
            Near(s', mine) == e && Near(s', !mine) == End(Near(s, !mine).me, e.outbound, e.inbound)
  {
    if actions != [] {
      var n := |actions| - 1;
      OneSideActs(s, mine, actions[..n]);
      assert Ons(mine, actions)[..|Ons(mine, actions)| - 1] == Ons(mine, actions[..n]);
    }
  }

  lemma {:induction false} ExecConcat(s: System, a: seq<Step>, b: seq<Step>)
    ensures Exec(s, a + b) == Exec(Exec(s, a), b)
  {
    if b == [] {
      assert a + b == a;
    } else {
      ExecConcat(s, a, b[..|b| - 1]);
      assert (a + b)[..|a + b| - 1] == a + b[..|b| - 1];
    }
  }

  lemma TwoActs(e: End, a: Action, b: Action)
    ensures Acts(e, [a, b]) == Act(Act(e, a), b)
  {
    assert [a, b][..1] == [a] && [a][..0] == [];
    assert Acts(e, [a]) == Act(Acts(e, []), a) == Act(e, a);
  }

  /** Whatever has happened before, a response the read loop holds for a waiting call
      reaches it: the read loop delivers it and the call leaves with it. */
  lemma ResponseReachesCaller(steps: seq<Step>, mine: bool, t: CallId, ok: bool, ok': bool)
    requires var p := Near(Exec(Init, steps), mine).me;
             p.reader.Delivering? && t in p.callers && p.callers[t] == Waiting(p.reader.frame.id)
    ensures var p := Near(Exec(Init, steps), mine).me;
            var p' := Near(Exec(Init, steps + Ons(mine, [ReaderStep(ok), CallerStep(t, Receive, ok')])), mine).me;
            t in p'.callers && p'.callers[t] == Leaving(p.reader.frame.id, Some(p.reader.frame))
  {
    var s, actions := Exec(Init, steps), [ReaderStep(ok), CallerStep(t, Receive, ok')];
    DeliveredSlotIsEmpty(steps, mine);
    ExecConcat(Init, steps, Ons(mine, actions));
    OneSideActs(s, mine, actions);
    DeliveryReaches(Near(s, mine), t, ok, ok');
  }

  lemma DeliveredSlotIsEmpty(steps: seq<Step>, mine: bool)
    requires Near(Exec(Init, steps), mine).me.reader.Delivering?
    ensures var p := Near(Exec(Init, steps), mine).me; SlotOf(p.core, p.reader.frame.id).Empty?
  {
    var s := Exec(Init, steps);
    CallsAreAnsweredOnce(steps);
    Invariant(steps);
    var ours, theirs :| Inv(s, ours, theirs);
    assert ReaderOk(s.connect.reader, s.connect.issued, ours) && ReaderOk(s.accept.reader, s.accept.issued, theirs);
  }

  lemma DeliveryReaches(e: End, t: CallId, ok: bool, ok': bool)
    requires e.me.reader.Delivering? && t in e.me.callers && e.me.callers[t] == Waiting(e.me.reader.frame.id)
    requires SlotOf(e.me.core, e.me.reader.frame.id).Empty?
    ensures var f, e' := e.me.reader.frame, Acts(e, [ReaderStep(ok), CallerStep(t, Receive, ok')]);
            t in e'.me.callers && e'.me.callers[t] == Leaving(f.id, Some(f))
  {
    TwoActs(e, ReaderStep(ok), CallerStep(t, Receive, ok'));
  }

  // ----- a call that nothing interleaves with

  function Ask(t: CallId): seq<Action> { var c := CallerStep(t, Receive, true); [Begin(t), c, c, c, c] }

  function Answer(id: Id): seq<Action> {
    var r, h := ReaderStep(true), HandlerStep(id, true); [r, r, h, h, h]
  }

  function Collect(t: CallId): seq<Action> {
    var r, c := ReaderStep(true), CallerStep(t, Receive, true); [r, r, r, c, c, c]
  }

  lemma MoreActs(e: End, actions: seq<Action>, a: Action)
    ensures Acts(e, actions + [a]) == Act(Acts(e, actions), a)
  {
    assert (actions + [a])[..|actions|] == actions;
  }

  lemma FiveActs(e: End, a: Action, b: Action, c: Action, d: Action, f: Action)
    ensures Acts(e, [a, b, c, d, f]) == Act(Act(Act(Act(Act(e, a), b), c), d), f)
  {
    TwoActs(e, a, b);
    MoreActs(e, [a, b], c);
    MoreActs(e, [a, b, c], d);
    MoreActs(e, [a, b, c, d], f);
    assert [a, b] + [c] == [a, b, c] && [a, b, c] + [d] == [a, b, c, d] && [a, b, c, d] + [f] == [a, b, c, d, f];
  }

  // The client with its request of ID `id` on the wire.
  function Asked(e: End, t: CallId, id: Id): End {
    var c := e.me.core;
    End(e.me.(core := c.(nextID := id, pending := c.pending + {id}, slots := c.slots[id := Empty], outgoing := c.outgoing + 1),
              callers := e.me.callers[t := Waiting(id)], issued := e.me.issued[id := t]),
        e.inbound, e.outbound + [Frame(Request, id, t)])
  }

  lemma AskSends(e: End, t: CallId)
    requires t !in e.me.callers && e.me.core.outgoing < 64 && e.me.core.phase.Open?
    ensures Acts(e, Ask(t)) == Asked(e, t, e.me.core.nextID + 2)
  {
    var c := CallerStep(t, Receive, true);
    FiveActs(e, Begin(t), c, c, c, c);
    AskNumbers(e, t);
    AskRegisters(Act(Act(Act(e, Begin(t)), c), c), t, e.me.core.nextID + 2);
    assert e.me.callers[t := Numbered(e.me.core.nextID + 2)][t := Waiting(e.me.core.nextID + 2)]
        == e.me.callers[t := Waiting(e.me.core.nextID + 2)];
  }

  lemma AskNumbers(e: End, t: CallId)
    requires t !in e.me.callers && e.me.core.outgoing < 64
    ensures var c := CallerStep(t, Receive, true); var id := e.me.core.nextID + 2;
            Act(Act(Act(e, Begin(t)), c), c) ==
            e.(me := e.me.(core := e.me.core.(nextID := id, outgoing := e.me.core.outgoing + 1),
                              callers := e.me.callers[t := Numbered(id)], issued := e.me.issued[id := t]))
  {
    var c, id := CallerStep(t, Receive, true), e.me.core.nextID + 2;
    var e1 := Act(e, Begin(t));
    var e2 := Act(e1, c);
    assert e2.me.callers == e.me.callers[t := Admitted];
    assert e2.me.callers[t := Numbered(id)] == e.me.callers[t := Numbered(id)];
  }

  lemma AskRegisters(e: End, t: CallId, id: Id)
    requires t in e.me.callers && e.me.callers[t] == Numbered(id) && e.me.core.phase.Open?
    ensures var c := CallerStep(t, Receive, true);
            Act(Act(e, c), c) ==
            End(e.me.(core := RegisterRegion(e.me.core, id), callers := e.me.callers[t := Waiting(id)]),
                e.inbound, e.outbound + [Frame(Request, id, t)])
  {
    var c := CallerStep(t, Receive, true);
    var e1 := Act(e, c);
    assert e1.me.callers[t := Waiting(id)] == e.me.callers[t := Waiting(id)];
  }

  lemma AnswerSends(e: End, f: Frame)
    requires e.inbound == [f] && f.kind == Request && e.me.reader.Idle? && e.me.core.phase.Open? && e.me.core.sem < 64
    requires f.id !in e.me.handlers && f.id !in e.me.core.active
    ensures Acts(e, Answer(f.id)) == End(e.me, [], e.outbound + [Frame(Response, f.id, f.call)])
  {
    var r, h, id := ReaderStep(true), HandlerStep(f.id, true), f.id;
    FiveActs(e, r, r, h, h, h);
    AnswerStarts(e, f);
    AnswerRuns(Act(Act(e, r), r), f);
    assert e.me.core.active + {id} - {id} == e.me.core.active;
    assert e.me.handlers[id := Handler(f.call, false, Exiting)] - {id} == e.me.handlers;
  }

  lemma AnswerStarts(e: End, f: Frame)
    requires e.inbound == [f] && f.kind == Request && e.me.reader.Idle? && e.me.core.phase.Open? && e.me.core.sem < 64
    ensures Act(Act(e, ReaderStep(true)), ReaderStep(true))
         == End(e.me.(core := e.me.core.(sem := e.me.core.sem + 1, active := e.me.core.active + {f.id}),
                      handlers := e.me.handlers[f.id := Handler(f.call, false, Running)]), [], e.outbound)
  {
  }

  lemma AnswerRuns(e: End, f: Frame)
    requires f.id in e.me.handlers && e.me.handlers[f.id] == Handler(f.call, false, Running)
    requires e.me.core.phase.Open? && e.me.core.sem > 0
    ensures var h := HandlerStep(f.id, true);
            Act(Act(Act(e, h), h), h) ==
            End(e.me.(core := e.me.core.(sem := e.me.core.sem - 1, active := e.me.core.active - {f.id}),
                      handlers := e.me.handlers - {f.id}), e.inbound, e.outbound + [Frame(Response, f.id, f.call)])
  {
    var h := HandlerStep(f.id, true);
    var e1 := Act(e, h);
    var e2 := Act(e1, h);
    assert e1.me.handlers == e.me.handlers[f.id := Handler(f.call, false, Replying)];
    assert e2.me.handlers - {f.id} == e.me.handlers - {f.id};
  }

  // The client once the answer has arrived and the call has returned.
  function Collected(e: End, t: CallId, f: Frame): End
    requires e.me.core.outgoing > 0
  {
    var c := e.me.core;
    End(e.me.(core := c.(pending := c.pending - {f.id}, slots := c.slots[f.id := Taken], outgoing := c.outgoing - 1),
              callers := e.me.callers[t := Finished(Some(f))]),
        [], e.outbound)
  }

  lemma CollectTakes(e: End, t: CallId, f: Frame)
    requires e.inbound == [f] && f.kind == Response && e.me.reader.Idle? && e.me.core.phase.Open?
    requires t in e.me.callers && e.me.callers[t] == Waiting(f.id) && f.id in e.me.core.pending
    requires SlotOf(e.me.core, f.id).Empty? && e.me.core.outgoing > 0
    ensures Acts(e, Collect(t)) == Collected(e, t, f)
  {
    var r, c := ReaderStep(true), CallerStep(t, Receive, true);
    FiveActs(e, r, r, r, c, c);
    MoreActs(e, [r, r, r, c, c], c);
    assert [r, r, r, c, c] + [c] == Collect(t);
    CollectDelivers(e, t, f);
    CollectLeaves(Act(Act(Act(e, r), r), r), t, f);
    assert e.me.core.slots[f.id := Full(f)][f.id := Taken] == e.me.core.slots[f.id := Taken];
  }

  lemma CollectDelivers(e: End, t: CallId, f: Frame)
    requires e.inbound == [f] && f.kind == Response && e.me.reader.Idle? && e.me.core.phase.Open?
    requires f.id in e.me.core.pending && SlotOf(e.me.core, f.id).Empty?
    ensures var r := ReaderStep(true);
            Act(Act(Act(e, r), r), r) ==
            End(e.me.(core := e.me.core.(slots := e.me.core.slots[f.id := Full(f)])), [], e.outbound)
  {
  }

  lemma CollectLeaves(e: End, t: CallId, f: Frame)
    requires t in e.me.callers && e.me.callers[t] == Waiting(f.id) && SlotOf(e.me.core, f.id) == Full(f) && e.me.core.outgoing > 0
    ensures var c, core := CallerStep(t, Receive, true), e.me.core;
            Act(Act(Act(e, c), c), c) ==
            e.(me := e.me.(core := core.(pending := core.pending - {f.id}, slots := core.slots[f.id := Taken], outgoing := core.outgoing - 1),
                           callers := e.me.callers[t := Finished(Some(f))]))
  {
    var c := CallerStep(t, Receive, true);
    var e1 := Act(e, c);
    var e2 := Act(e1, c);
    assert e1.me.callers == e.me.callers[t := Leaving(f.id, Some(f))];
    assert e2.me.callers == e.me.callers[t := Releasing(Some(f))];
    assert e2.me.callers[t := Finished(Some(f))] == e.me.callers[t := Finished(Some(f))];
  }

  predicate Quiet(s: System) {
    && s.connect.reader.Idle? && s.accept.reader.Idle? && s.toAccept == [] && s.toConnect == []
    && s.connect.core.phase.Open? && s.accept.core.phase.Open?
  }

  function RoundTrip(mine: bool, t: CallId, id: Id): seq<Step> {
    Ons(mine, Ask(t)) + Ons(!mine, Answer(id)) + Ons(mine, Collect(t))
  }

  lemma NextIsUnknown(steps: seq<Step>, mine: bool)
    ensures var s := Exec(Init, steps); var id, far := Near(s, mine).me.core.nextID + 2, Near(s, !mine).me;
            id !in far.handlers && id !in far.core.active
  {
    Invariant(steps);
    var s := Exec(Init, steps);
    var ours, theirs :| Inv(s, ours, theirs);
  }

  lemma QuietAsks(s: System, mine: bool, t: CallId)
    requires Quiet(s) && t !in Near(s, mine).me.callers && Near(s, mine).me.core.outgoing < 64
    ensures var e, s' := Near(s, mine), Exec(s, Ons(mine, Ask(t))); var id := e.me.core.nextID + 2;
            Near(s', mine) == Asked(e, t, id) && Near(s', !mine) == End(Near(s, !mine).me, [Frame(Request, id, t)], [])
  {
    OneSideActs(s, mine, Ask(t));
    AskSends(Near(s, mine), t);
  }

  lemma FarAnswers(s: System, mine: bool, f: Frame)
    requires var e := Near(s, !mine);
             && e.inbound == [f] && e.outbound == [] && f.kind == Request && e.me.reader.Idle? && e.me.core.phase.Open? && e.me.core.sem < 64
             && f.id !in e.me.handlers && f.id !in e.me.core.active
    ensures var s' := Exec(s, Ons(!mine, Answer(f.id)));
            Near(s', !mine) == End(Near(s, !mine).me, [], [Frame(Response, f.id, f.call)])
            && Near(s', mine) == End(Near(s, mine).me, [Frame(Response, f.id, f.call)], [])
  {
    OneSideActs(s, !mine, Answer(f.id));
    AnswerSends(Near(s, !mine), f);
  }

  lemma NearCollects(s: System, mine: bool, t: CallId, f: Frame)
    requires var e := Near(s, mine);
             && e.inbound == [f] && e.outbound == [] && f.kind == Response && e.me.reader.Idle? && e.me.core.phase.Open?
             && t in e.me.callers && e.me.callers[t] == Waiting(f.id) && f.id in e.me.core.pending
             && SlotOf(e.me.core, f.id).Empty? && e.me.core.outgoing > 0
    ensures var s' := Exec(s, Ons(mine, Collect(t)));
            Near(s', mine) == Collected(Near(s, mine), t, f) && Near(s', !mine) == End(Near(s, !mine).me, [], [])
  {
    OneSideActs(s, mine, Collect(t));
    CollectTakes(Near(s, mine), t, f);
  }

  lemma RoundTripParts(s: System, mine: bool, t: CallId, id: Id)
    ensures Exec(s, RoundTrip(mine, t, id))
         == Exec(Exec(Exec(s, Ons(mine, Ask(t))), Ons(!mine, Answer(id))), Ons(mine, Collect(t)))
  {
    ExecConcat(s, Ons(mine, Ask(t)) + Ons(!mine, Answer(id)), Ons(mine, Collect(t)));
    ExecConcat(s, Ons(mine, Ask(t)), Ons(!mine, Answer(id)));
  }

  lemma QuietRoundTrip(s: System, mine: bool, t: CallId, id: Id)
    requires Quiet(s) && t !in Near(s, mine).me.callers && Near(s, mine).me.core.outgoing < 64 && Near(s, !mine).me.core.sem < 64
    requires id == Near(s, mine).me.core.nextID + 2 && id !in Near(s, !mine).me.handlers && id !in Near(s, !mine).me.core.active
    ensures var s' := Exec(s, RoundTrip(mine, t, id)); var asked := Asked(Near(s, mine), t, id);
            && Near(s', !mine) == Near(s, !mine)
            && Near(s', mine) == Collected(End(asked.me, [], []), t, Frame(Response, id, t))
  {
    RoundTripParts(s, mine, t, id);
    QuietAsks(s, mine, t);
    var s1 := Exec(s, Ons(mine, Ask(t)));
    FarAnswers(s1, mine, Frame(Request, id, t));
    NearCollects(Exec(s1, Ons(!mine, Answer(id))), mine, t, Frame(Response, id, t));
  }

  /** In any reachable state of two open peers with nothing under way, a call on either side
      that has room gets its own answer, and everything else is as before. */
  lemma QuietCallIsAnswered(steps: seq<Step>, mine: bool, t: CallId)
    requires var s := Exec(Init, steps);
             Quiet(s) && t !in Near(s, mine).me.callers && Near(s, mine).me.core.outgoing < 64 && Near(s, !mine).me.core.sem < 64
    ensures var s := Exec(Init, steps); var p, id := Near(s, mine).me, Near(s, mine).me.core.nextID + 2;
            var s' := Exec(Init, steps + RoundTrip(mine, t, id)); var p' := Near(s', mine).me;
            && Quiet(s') && Near(s', !mine).me == Near(s, !mine).me
            && p'.callers == p.callers[t := Finished(Some(Frame(Response, id, t)))]
            && p'.core.pending == p.core.pending - {id} && p'.core.outgoing == p.core.outgoing && p'.core.nextID == id
  {
    var s := Exec(Init, steps);
    var id := Near(s, mine).me.core.nextID + 2;
    ExecConcat(Init, steps, RoundTrip(mine, t, id));
    NextIsUnknown(steps, mine);
    QuietRoundTrip(s, mine, t, id);
    TripResult(Near(s, mine), t, id);
  }

  lemma TripResult(e: End, t: CallId, id: Id)
    ensures var f := Frame(Response, id, t);
            var p := Collected(End(Asked(e, t, id).me, [], []), t, f).me;
            && p.reader == e.me.reader && p.core.phase == e.me.core.phase && p.callers == e.me.callers[t := Finished(Some(f))]
            && p.core.pending == e.me.core.pending - {id} && p.core.outgoing == e.me.core.outgoing && p.core.nextID == id
  {
    assert e.me.callers[t := Waiting(id)][t := Finished(Some(Frame(Response, id, t)))]
        == e.me.callers[t := Finished(Some(Frame(Response, id, t)))];
    assert e.me.core.pending + {id} - {id} == e.me.core.pending - {id};
  }

  // ----- refusals, cancels and close

  /** A request beyond the 64th is refused with a response of its own ID and starts nothing. */
  lemma BusyIsRefused(e: End, f: Frame, ok: bool)
    requires e.me.reader == Got(f) && f.kind == Request && e.me.core.sem >= 64 && e.me.core.phase.Open?
    ensures Acts(e, [ReaderStep(ok), ReaderStep(true)])
         == End(e.me.(reader := Idle), e.inbound, e.outbound + [Frame(Response, f.id, f.call)])
  {
    TwoActs(e, ReaderStep(ok), ReaderStep(true));
  }

  /** A cancel frame reaches the handler of its ID, which then ends without a response. */
  lemma CancelEndsHandler(e: End, f: Frame, ok: bool)
    requires e.me.reader == Got(f) && f.kind == Cancel && f.id in e.me.core.active && f.id in e.me.handlers
    requires e.me.handlers[f.id].pc.Running?
    ensures var e' := Acts(e, [ReaderStep(ok), HandlerStep(f.id, ok)]);
            && e'.me.handlers == e.me.handlers[f.id := Handler(e.me.handlers[f.id].call, true, Exiting)]
            && e'.outbound == e.outbound && e'.me.reader.Idle?
  {
    TwoActs(e, ReaderStep(ok), HandlerStep(f.id, ok));
    assert Act(e, ReaderStep(ok)).me.handlers == e.me.handlers[f.id := e.me.handlers[f.id].(cancelled := true)];
  }

  /** A waiting call whose context ends sends a cancel of its ID and leaves without an answer. */
  lemma EndedCallCancels(e: End, t: CallId, id: Id)
    requires t in e.me.callers && e.me.callers[t] == Waiting(id) && e.me.core.phase.Open?
    ensures var e' := Acts(e, [CallerStep(t, CtxDone, true), CallerStep(t, CtxDone, true)]);
            e'.me.callers == e.me.callers[t := Leaving(id, None)] && e'.outbound == e.outbound + [Frame(Cancel, id, t)]
  {
    var c := CallerStep(t, CtxDone, true);
    TwoActs(e, c, c);
    assert Act(e, c).me.callers == e.me.callers[t := Cancelling(id)];
  }

  /** A handler whose own context ends before it has answered ends without a response. */
  lemma InterruptEndsHandler(e: End, id: Id, ok: bool)
    requires id in e.me.handlers && e.me.handlers[id].pc.Running?
    ensures var e' := Acts(e, [Interrupt(id), HandlerStep(id, ok)]);
            e'.me.handlers == e.me.handlers[id := Handler(e.me.handlers[id].call, true, Exiting)] && e'.outbound == e.outbound
  {
    TwoActs(e, Interrupt(id), HandlerStep(id, ok));
    assert Act(e, Interrupt(id)).me.handlers == e.me.handlers[id := e.me.handlers[id].(cancelled := true)];
  }

  /** Close, whatever its peer does: every handler it finds active is cancelled, no frame goes
      out any more, and every waiting call can leave. */
  lemma CloseEndsCalls(e: End, t: CallId, id: Id, ok: bool)
    requires e.me.core.phase.Open?
    ensures var e' := Act(Act(Act(e, CloseStep), CloseStep), CloseStep);
            && e'.me.core.phase.Done? && e'.me.core.active == {} && e'.outbound == e.outbound
            && (forall h: Id :: h in e.me.handlers && h in e.me.core.active ==> h in e'.me.handlers && e'.me.handlers[h].cancelled)
            && (forall f, fine :: Send(e', f, fine) == (e', false))
            && (t in e.me.callers && e.me.callers[t] == Waiting(id) ==>
                  Act(e', CallerStep(t, PeerDone, ok)).me.callers[t] == Leaving(id, None))
  {
  }
}
