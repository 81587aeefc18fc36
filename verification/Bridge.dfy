/**
 internal/bridge: the server's clients, its RemoteFS peers, and the exports and
 mount offers it makes at most once per session and mount.

 Requesters, client connections, RemoteFS connections and the lease monitor share
 one table under s.mu.  Each critical section, each call into a peer and each
 CloseBackend is one atomic step; `Exec` runs an arbitrary schedule.

 The nested tables of the code (session, then mount) are flat here, and the two
 tables of flights in progress, fsExporting and fsOffering, are one table keyed
 by the kind of flight.
 */
module Bridge {
  import opened Wrappers

  type SessionId = string
  type MountId = string
  type ClientId = nat
  type PeerId = nat
  type BackendId = nat
  type Chan = nat
  type ConnId = nat
  type ThreadId = nat

  datatype Client = Client(sessionId: SessionId, id: ClientId)

  datatype Kind = Export | Offer

  datatype FlightKey = FlightKey(kind: Kind, session: SessionId, mount: MountId)

  type MountKey = (SessionId, MountId)

  // ----- the fields behind s.mu

  datatype Table = Table(
    clients: seq<Client>,
    fsPeers: map<SessionId, PeerId>,
    fsBackends: map<MountKey, BackendId>,
    fsClientMounts: set<MountKey>,
    flights: map<FlightKey, Chan>,
    fsConnecting: set<SessionId>,
    connections: set<ConnId>,
    draining: bool)

  const Empty := Table([], map[], map[], {}, map[], {}, {}, false)

  predicate HasClient(tb: Table, session: SessionId) {
    exists i :: 0 <= i < |tb.clients| && tb.clients[i].sessionId == session
  }

  // addClient: at most one client of a session, none once draining.
  function AddClientRegion(tb: Table, c: Client): (Table, bool) {
    if tb.draining || HasClient(tb, c.sessionId) then (tb, false) else (tb.(clients := tb.clients + [c]), true)
  }

  function IndexOf(clients: seq<Client>, id: ClientId): (i: nat)
    ensures i <= |clients| && (i < |clients| ==> clients[i].id == id)
    ensures forall j :: 0 <= j < i ==> clients[j].id != id
  {
    if clients == [] || clients[0].id == id then 0 else 1 + IndexOf(clients[1..], id)
  }

  // What removeClient takes out of the tables under the lock.
  datatype Taken = Taken(peer: Option<PeerId>, backends: map<MountKey, BackendId>)

  function RemoveClientRegion(tb: Table, id: ClientId): (Table, Option<Taken>) {
    var i := IndexOf(tb.clients, id);
    if i == |tb.clients| then (tb, None) else
    var session := tb.clients[i].sessionId;
    (tb.(clients := tb.clients[..i] + tb.clients[i + 1..],
         fsPeers := tb.fsPeers - {session},
         fsBackends := map k | k in tb.fsBackends && k.0 != session :: tb.fsBackends[k],
         fsClientMounts := set k | k in tb.fsClientMounts && k.0 != session),
     Some(Taken(if session in tb.fsPeers then Some(tb.fsPeers[session]) else None,
                map k | k in tb.fsBackends && k.0 == session :: tb.fsBackends[k])))
  }

  // The first critical section of ensureExportBackend and ensureClientMount.
  datatype Flight = AlreadyDone | WaitFor(ch: Chan) | Begun

  predicate IsDone(tb: Table, k: FlightKey) {
    match k.kind
    case Export => (k.session, k.mount) in tb.fsBackends
    case Offer => (k.session, k.mount) in tb.fsClientMounts
  }

  // The start of an export or an offer: done already, in flight, or begun here.
  function BeginRegion(tb: Table, k: FlightKey, next: Chan): (Table, Flight) {
    if IsDone(tb, k) then (tb, AlreadyDone)
    else if k in tb.flights then (tb, WaitFor(tb.flights[k]))
    else (tb.(flights := tb.flights[k := next]), Begun)
  }

  // finish: the channel to close, if the flight is still listed.
  function FinishRegion(tb: Table, k: FlightKey): (Table, Option<Chan>) {
    (tb.(flights := tb.flights - {k}), if k in tb.flights then Some(tb.flights[k]) else None)
  }

  datatype Store = PeerGone | Existing | Stored

  // The end of an export, whose peer may have gone meanwhile.
  function StoreExportRegion(tb: Table, k: FlightKey, peer: PeerId, b: BackendId): (Table, Store) {
    if k.session !in tb.fsPeers || tb.fsPeers[k.session] != peer then (tb, PeerGone)
    else if (k.session, k.mount) in tb.fsBackends then (tb, Existing)
    else (tb.(fsBackends := tb.fsBackends[(k.session, k.mount) := b]), Stored)
  }

  // The end of an offer, under the same condition.
  function StoreOfferRegion(tb: Table, k: FlightKey, peer: PeerId): (Table, bool) {
    if k.session !in tb.fsPeers || tb.fsPeers[k.session] != peer then (tb, false)
    else (tb.(fsClientMounts := tb.fsClientMounts + {(k.session, k.mount)}), true)
  }

  // handleFSConn: the reservation inside the handshake, and the registration.
  function ReserveRegion(tb: Table, session: SessionId): (Table, bool) {
    if session in tb.fsPeers || session in tb.fsConnecting then (tb, false)
    else (tb.(fsConnecting := tb.fsConnecting + {session}), true)
  }

  // handleFSConn: the registration, where the session may have ended meanwhile.
  function AttachRegion(tb: Table, session: SessionId, peer: PeerId): (Table, bool) {
    if session in tb.fsPeers || tb.draining || !HasClient(tb, session) then (tb, false)
    else (tb.(fsPeers := tb.fsPeers[session := peer]), true)
  }

  // handleFSConn: a served peer leaves, unless another took its place.
  function DetachRegion(tb: Table, session: SessionId, peer: PeerId): Table {
    if session in tb.fsPeers && tb.fsPeers[session] == peer then tb.(fsPeers := tb.fsPeers - {session}) else tb
  }

  // The accept loop counts a connection.
  function AcceptRegion(tb: Table, c: ConnId): (Table, bool) {
    if tb.draining then (tb, false) else (tb.(connections := tb.connections + {c}), true)
  }

  // The last look of monitorLeases before it drains.
  function DrainRegion(tb: Table): (Table, bool) {
    var idle := tb.clients == [] && tb.connections == {};
    (if idle then tb.(draining := true) else tb, idle)
  }

  class Server {
    var clients: seq<Client>
    var fsPeers: map<SessionId, PeerId>
    var fsBackends: map<MountKey, BackendId>
    var fsClientMounts: set<MountKey>
    var flights: map<FlightKey, Chan>
    var fsConnecting: set<SessionId>
    var connections: set<ConnId>
    var draining: bool

    function View(): Table reads this {
      Table(clients, fsPeers, fsBackends, fsClientMounts, flights, fsConnecting, connections, draining)
    }

    constructor ()
      ensures View() == Empty
    {
      clients, fsPeers, fsBackends, fsClientMounts := [], map[], map[], {};
      flights, fsConnecting, connections, draining := map[], {}, {}, false;
    }

    method AddClient(c: Client) returns (ok: bool)
      modifies this
      ensures (View(), ok) == AddClientRegion(old(View()), c)
      ensures ok <==> !draining && forall i :: 0 <= i < |old(clients)| ==> old(clients)[i].sessionId != c.sessionId
      ensures ok ==> clients == old(clients) + [c]
    {
      if draining {
        return false;
      }
      for i := 0 to |clients|
        invariant forall j :: 0 <= j < i ==> clients[j].sessionId != c.sessionId
        invariant View() == old(View())
      {
        if clients[i].sessionId == c.sessionId {
          return false;
        }
      }
      clients := clients + [c];
      return true;
    }

    // The loop of removeClient that looks for the client.
    method Search(id: ClientId) returns (i: nat)
      ensures i == IndexOf(clients, id)
    {
      i := 0;
      while i < |clients| && clients[i].id != id
        invariant 0 <= i <= |clients|
        invariant IndexOf(clients, id) == i + IndexOf(clients[i..], id)
      {
        assert clients[i..][1..] == clients[i + 1..];
        i := i + 1;
      }
    }

    method RemoveClient(id: ClientId) returns (taken: Option<Taken>)
      modifies this
      ensures (View(), taken) == RemoveClientRegion(old(View()), id)
    {
      var i := Search(id);
      if i == |clients| {
        return None;
      }
      var session := clients[i].sessionId;
      taken := Some(Taken(if session in fsPeers then Some(fsPeers[session]) else None,
                          map k | k in fsBackends && k.0 == session :: fsBackends[k]));
      clients := clients[..i] + clients[i + 1..];
      fsPeers := fsPeers - {session};
      fsBackends := map k | k in fsBackends && k.0 != session :: fsBackends[k];
      fsClientMounts := set k | k in fsClientMounts && k.0 != session;
    }

    method Begin(k: FlightKey, next: Chan) returns (flight: Flight)
      modifies this
      ensures (View(), flight) == BeginRegion(old(View()), k, next)
      ensures flight.Begun? ==> k !in old(flights) && k in flights && flights[k] == next
    {
      if IsDone(View(), k) {
        return AlreadyDone;
      }
      if k in flights {
        return WaitFor(flights[k]);
      }
      flights := flights[k := next];
      return Begun;
    }

    method Finish(k: FlightKey) returns (ch: Option<Chan>)
      modifies this
      ensures (View(), ch) == FinishRegion(old(View()), k)
      ensures k !in flights && (ch.Some? <==> k in old(flights))
      ensures ch.Some? ==> ch.value == old(flights)[k]
    {
      ch := if k in flights then Some(flights[k]) else None;
      flights := flights - {k};
    }

    method StoreExport(k: FlightKey, peer: PeerId, b: BackendId) returns (out: Store)
      modifies this
      ensures (View(), out) == StoreExportRegion(old(View()), k, peer, b)
      ensures out.PeerGone? <==> !(k.session in fsPeers && fsPeers[k.session] == peer)
      ensures out.Stored? <==> !out.PeerGone? && (k.session, k.mount) !in old(fsBackends)
      ensures out.Stored? ==> (k.session, k.mount) in fsBackends && fsBackends[(k.session, k.mount)] == b
    {
      if k.session !in fsPeers || fsPeers[k.session] != peer {
        return PeerGone;
      }
      if (k.session, k.mount) in fsBackends {
        return Existing;
      }
      fsBackends := fsBackends[(k.session, k.mount) := b];
      return Stored;
    }

    method Attach(session: SessionId, peer: PeerId) returns (ok: bool)
      modifies this
      ensures (View(), ok) == AttachRegion(old(View()), session, peer)
      ensures ok <==> session !in old(fsPeers) && !draining && HasClient(View(), session)
      ensures ok ==> session in fsPeers && fsPeers[session] == peer
    {
      ok := !(session in fsPeers || draining || !HasClient(View(), session));
      if ok {
        fsPeers := fsPeers[session := peer];
      }
    }

    method StoreOffer(k: FlightKey, peer: PeerId) returns (ok: bool)
      modifies this
      ensures (View(), ok) == StoreOfferRegion(old(View()), k, peer)
      ensures ok <==> k.session in fsPeers && fsPeers[k.session] == peer
      ensures ok ==> (k.session, k.mount) in fsClientMounts
    {
      if k.session !in fsPeers || fsPeers[k.session] != peer {
        return false;
      }
      fsClientMounts := fsClientMounts + {(k.session, k.mount)};
      return true;
    }

    method Reserve(session: SessionId) returns (ok: bool)
      modifies this
      ensures (View(), ok) == ReserveRegion(old(View()), session)
      ensures ok <==> session !in fsPeers && session !in old(fsConnecting)
      ensures ok ==> session in fsConnecting
    {
      if session in fsPeers || session in fsConnecting {
        return false;
      }
      fsConnecting := fsConnecting + {session};
      return true;
    }

    method Detach(session: SessionId, peer: PeerId)
      modifies this
      ensures View() == DetachRegion(old(View()), session, peer)
      ensures session in fsPeers ==> session in old(fsPeers) && fsPeers[session] == old(fsPeers)[session] != peer
    {
      if session in fsPeers && fsPeers[session] == peer {
        fsPeers := fsPeers - {session};
      }
    }

    method Accept(c: ConnId) returns (ok: bool)
      modifies this
      ensures (View(), ok) == AcceptRegion(old(View()), c)
      ensures ok <==> !draining
      ensures ok ==> c in connections
    {
      if draining {
        return false;
      }
      connections := connections + {c};
      return true;
    }

    method Drain() returns (ok: bool)
      modifies this
      ensures (View(), ok) == DrainRegion(old(View()))
      ensures ok <==> clients == [] && connections == {}
      ensures ok ==> draining
    {
      ok := clients == [] && connections == {};
      if ok {
        draining := true;
      }
    }
  }

  // ----- threads

  datatype Pc =
    | Look(k: FlightKey, peer: PeerId)
    | Waiting(k: FlightKey, peer: PeerId, ch: Chan)               // <-wait
    | Opening(k: FlightKey, peer: PeerId, ch: Chan)               // exports: about to open the backend
    | Registering(k: FlightKey, peer: PeerId, ch: Chan, b: BackendId)
    | Storing(k: FlightKey, peer: PeerId, ch: Chan, b: BackendId)
    | Undoing(k: FlightKey, peer: PeerId, ch: Chan, b: BackendId) // about to unregister from the peer
    | Discarding(k: FlightKey, ch: Chan, b: BackendId)            // about to close the backend
    | Offering(k: FlightKey, peer: PeerId, ch: Chan)              // offers: about to call mount.create
    | OfferStoring(k: FlightKey, peer: PeerId, ch: Chan)
    | Finishing(k: FlightKey, ch: Chan)
    | Removing(client: ClientId)
    | Closing(taken: Taken)                                       // removeClient, after the lock
    | Validating(session: SessionId)
    | Reserving(session: SessionId)
    | Greeting(session: SessionId)                                // holds the reservation
    | Attaching(session: SessionId)
    | Serving(session: SessionId, peer: PeerId)
    | Returned

  datatype State = State(
    table: Table,
    peerBackends: map<(PeerId, MountId), BackendId>,   // each peer's own backend table
    peersClosed: set<PeerId>,
    nextPeer: PeerId,
    nextBackend: BackendId,
    closed: set<BackendId>,                            // CloseBackend has been called
    nextChan: Chan,
    closes: map<Chan, nat>,                            // times each wait channel was closed
    threads: map<ThreadId, Pc>)

  datatype Step =
    | Call(t: ThreadId, entry: Pc)
    | Advance(t: ThreadId, ok: bool, pick: MountKey)
    | AddClient(c: Client)
    | Connect(conn: ConnId)
    | Disconnect(conn: ConnId)
    | PeerCloses(peer: PeerId)
    | Monitor

  const Init := State(Empty, map[], {}, 0, 0, {}, 0, map[], map[])

  predicate IsEntry(pc: Pc) { pc.Look? || pc.Removing? || pc.Validating? }

  function Goto(s: State, t: ThreadId, pc: Pc): State { s.(threads := s.threads[t := pc]) }

  function Times(s: State, ch: Chan): nat { if ch in s.closes then s.closes[ch] else 0 }

  // peer.UnregisterBackend: takes the entry out and closes it.
  function Unregister(s: State, peer: PeerId, mount: MountId): State {
    if (peer, mount) in s.peerBackends
    then s.(peerBackends := s.peerBackends - {(peer, mount)}, closed := s.closed + {s.peerBackends[(peer, mount)]})
    else s
  }

  function CloseBackend(s: State, b: BackendId): State { s.(closed := s.closed + {b}) }

  // peer.Close: every backend of the peer's own table is closed.
  function ClosePeer(s: State, peer: PeerId): State {
    s.(peersClosed := s.peersClosed + {peer},
       closed := s.closed + (set k | k in s.peerBackends && k.0 == peer :: s.peerBackends[k]),
       peerBackends := map k | k in s.peerBackends && k.0 != peer :: s.peerBackends[k])
  }

  function LookStep(s: State, t: ThreadId, k: FlightKey, peer: PeerId): State {
    var (table, flight) := BeginRegion(s.table, k, s.nextChan);
    match flight
    case AlreadyDone => Goto(s, t, Returned)
    case WaitFor(ch) => Goto(s, t, Waiting(k, peer, ch))
    case Begun =>
      Goto(s.(table := table, nextChan := s.nextChan + 1), t,
           if k.kind == Export then Opening(k, peer, s.nextChan) else Offering(k, peer, s.nextChan))
  }

  function RegisterStep(s: State, t: ThreadId, pc: Pc): State
    requires pc.Registering?
  {
    if pc.peer in s.peersClosed || (pc.peer, pc.k.mount) in s.peerBackends
    then Goto(s, t, Discarding(pc.k, pc.ch, pc.b))
    else Goto(s.(peerBackends := s.peerBackends[(pc.peer, pc.k.mount) := pc.b]), t, Storing(pc.k, pc.peer, pc.ch, pc.b))
  }

  function StoreStep(s: State, t: ThreadId, pc: Pc): State
    requires pc.Storing?
  {
    var (table, out) := StoreExportRegion(s.table, pc.k, pc.peer, pc.b);
    Goto(s.(table := table), t, if out.Stored? then Finishing(pc.k, pc.ch) else Undoing(pc.k, pc.peer, pc.ch, pc.b))
  }

  function FinishStep(s: State, t: ThreadId, k: FlightKey): State {
    var (table, ch) := FinishRegion(s.table, k);
    Goto(s.(table := table, closes := if ch.Some? then s.closes[ch.value := Times(s, ch.value) + 1] else s.closes), t, Returned)
  }

  function CloseStep(s: State, t: ThreadId, taken: Taken, pick: MountKey): State {
    if taken.backends == map[] then
      Goto(if taken.peer.Some? then ClosePeer(s, taken.peer.value) else s, t, Returned)
    else if pick !in taken.backends then s
    else
      var s' := if taken.peer.Some? then Unregister(s, taken.peer.value, pick.1) else s;
      Goto(CloseBackend(s', taken.backends[pick]), t, Closing(taken.(backends := taken.backends - {pick})))
  }

  function Run(s: State, t: ThreadId, ok: bool, pick: MountKey): State {
    if t !in s.threads then s else
    match s.threads[t]
    case Look(k, peer) => LookStep(s, t, k, peer)
    case Waiting(k, peer, ch) => if Times(s, ch) > 0 then Goto(s, t, Look(k, peer)) else s
    case Opening(k, peer, ch) =>
      if ok then Goto(s.(nextBackend := s.nextBackend + 1), t, Registering(k, peer, ch, s.nextBackend))
      else Goto(s, t, Finishing(k, ch))
    case Registering(_, _, _, _) => RegisterStep(s, t, s.threads[t])
    case Storing(_, _, _, _) => StoreStep(s, t, s.threads[t])
    case Undoing(k, peer, ch, b) => Goto(Unregister(s, peer, k.mount), t, Discarding(k, ch, b))
    case Discarding(k, ch, b) => Goto(CloseBackend(s, b), t, Finishing(k, ch))
    case Offering(k, peer, ch) => Goto(s, t, if ok then OfferStoring(k, peer, ch) else Finishing(k, ch))
    case OfferStoring(k, peer, ch) => Goto(s.(table := StoreOfferRegion(s.table, k, peer).0), t, Finishing(k, ch))
    case Finishing(k, _) => FinishStep(s, t, k)
    case Removing(client) =>
      var (table, taken) := RemoveClientRegion(s.table, client);
      Goto(s.(table := table), t, if taken.Some? then Closing(taken.value) else Returned)
    case Closing(taken) => CloseStep(s, t, taken, pick)
    case Validating(session) => Goto(s, t, if HasClient(s.table, session) then Reserving(session) else Returned)
    case Reserving(session) =>
      var (table, reserved) := ReserveRegion(s.table, session);
      Goto(s.(table := table), t, if reserved then Greeting(session) else Returned)
    case Greeting(session) =>
      Goto(s.(table := s.table.(fsConnecting := s.table.fsConnecting - {session})), t, if ok then Attaching(session) else Returned)
    case Attaching(session) =>
      var (table, attached) := AttachRegion(s.table, session, s.nextPeer);
      var s' := s.(table := table, nextPeer := s.nextPeer + 1);
      if attached then Goto(s', t, Serving(session, s.nextPeer)) else Goto(ClosePeer(s', s.nextPeer), t, Returned)
    case Serving(session, peer) =>
      if peer in s.peersClosed then Goto(s.(table := DetachRegion(s.table, session, peer)), t, Returned) else s
    case Returned => s
  }

  function Apply(s: State, step: Step): State {
    match step
    case Call(t, entry) => if t !in s.threads && IsEntry(entry) then Goto(s, t, entry) else s
    case Advance(t, ok, pick) => Run(s, t, ok, pick)
    case AddClient(c) => s.(table := AddClientRegion(s.table, c).0)
    case Connect(conn) => s.(table := AcceptRegion(s.table, conn).0)
    case Disconnect(conn) => s.(table := s.table.(connections := s.table.connections - {conn}))
    case PeerCloses(peer) => ClosePeer(s, peer)
    case Monitor => s.(table := DrainRegion(s.table).0)
  }

  function Exec(s: State, steps: seq<Step>): State {
    if steps == [] then s else Apply(Exec(s, steps[..|steps| - 1]), steps[|steps| - 1])
  }

  // ----- the tables: unique sessions, no orphan entries, drain

  ghost predicate TablesSound(tb: Table) {
    && (forall i, j :: 0 <= i < j < |tb.clients| ==> tb.clients[i].sessionId != tb.clients[j].sessionId)
    && (forall session :: session in tb.fsPeers ==> HasClient(tb, session))
    && (forall k: MountKey :: k in tb.fsBackends ==> HasClient(tb, k.0))
    && (forall k: MountKey :: k in tb.fsClientMounts ==> HasClient(tb, k.0))
    && (tb.draining ==> tb.clients == [] && tb.connections == {})
  }

  // A region that adds entries only for sessions with a client.
  lemma SameClients(tb: Table, tb': Table)
    requires TablesSound(tb)
    requires tb'.clients == tb.clients
    requires forall session :: session in tb'.fsPeers ==> session in tb.fsPeers || HasClient(tb, session)
    requires forall k: MountKey :: k in tb'.fsBackends ==> k in tb.fsBackends || HasClient(tb, k.0)
    requires forall k: MountKey :: k in tb'.fsClientMounts ==> k in tb.fsClientMounts || HasClient(tb, k.0)
    requires tb'.draining ==> tb'.clients == [] && tb'.connections == {}
    ensures TablesSound(tb')
  {
    assert forall session :: HasClient(tb', session) <==> HasClient(tb, session);
  }

  lemma AddClientSound(tb: Table, c: Client)
    requires TablesSound(tb)
    ensures TablesSound(AddClientRegion(tb, c).0)
  {
    var (tb', ok) := AddClientRegion(tb, c);
    if ok {
      forall session | HasClient(tb, session) ensures HasClient(tb', session) {
        var i :| 0 <= i < |tb.clients| && tb.clients[i].sessionId == session;
        assert tb'.clients[i].sessionId == session;
      }
      assert forall i :: 0 <= i < |tb.clients| ==> tb.clients[i].sessionId != c.sessionId;
    }
  }

  lemma RemoveClientSound(tb: Table, id: ClientId)
    requires TablesSound(tb)
    ensures TablesSound(RemoveClientRegion(tb, id).0)
  {
    var (tb', taken) := RemoveClientRegion(tb, id);
    if taken.Some? {
      var at := IndexOf(tb.clients, id);
      forall session | HasClient(tb, session) && session != tb.clients[at].sessionId ensures HasClient(tb', session) {
        var i :| 0 <= i < |tb.clients| && tb.clients[i].sessionId == session;
        var j := if i < at then i else i - 1;
        assert tb'.clients[j].sessionId == session;
      }
    }
  }

  lemma BeginFinishSound(tb: Table, k: FlightKey, ch: Chan)
    requires TablesSound(tb)
    ensures TablesSound(BeginRegion(tb, k, ch).0) && TablesSound(FinishRegion(tb, k).0)
  {
    SameClients(tb, BeginRegion(tb, k, ch).0);
    SameClients(tb, FinishRegion(tb, k).0);
  }

  lemma StoreOfferSound(tb: Table, k: FlightKey, peer: PeerId)
    requires TablesSound(tb)
    ensures TablesSound(StoreOfferRegion(tb, k, peer).0)
  {
    SameClients(tb, StoreOfferRegion(tb, k, peer).0);
  }

  lemma StoreExportSound(tb: Table, k: FlightKey, peer: PeerId, b: BackendId)
    requires TablesSound(tb)
    ensures TablesSound(StoreExportRegion(tb, k, peer, b).0)
  {
    SameClients(tb, StoreExportRegion(tb, k, peer, b).0);
  }

  lemma PeerRegionsSound(tb: Table, session: SessionId, peer: PeerId)
    requires TablesSound(tb)
    ensures TablesSound(AttachRegion(tb, session, peer).0)
    ensures TablesSound(DetachRegion(tb, session, peer))
  {
    SameClients(tb, AttachRegion(tb, session, peer).0);
    SameClients(tb, DetachRegion(tb, session, peer));
  }

  lemma ConnectionsSound(tb: Table, conn: ConnId, connecting: set<SessionId>)
    requires TablesSound(tb)
    ensures TablesSound(AcceptRegion(tb, conn).0)
    ensures TablesSound(tb.(connections := tb.connections - {conn}))
    ensures TablesSound(tb.(fsConnecting := connecting))
    ensures TablesSound(DrainRegion(tb).0)
  {
    SameClients(tb, AcceptRegion(tb, conn).0);
    SameClients(tb, tb.(connections := tb.connections - {conn}));
    SameClients(tb, tb.(fsConnecting := connecting));
    SameClients(tb, DrainRegion(tb).0);
  }

  // The table after a thread's step, region by region.
  function TableAfter(s: State, pc: Pc): Table {
    match pc
    case Look(k, _) => BeginRegion(s.table, k, s.nextChan).0
    case Storing(k, peer, _, b) => StoreExportRegion(s.table, k, peer, b).0
    case OfferStoring(k, peer, _) => StoreOfferRegion(s.table, k, peer).0
    case Finishing(k, _) => FinishRegion(s.table, k).0
    case Removing(client) => RemoveClientRegion(s.table, client).0
    case Reserving(session) => ReserveRegion(s.table, session).0
    case Greeting(session) => s.table.(fsConnecting := s.table.fsConnecting - {session})
    case Attaching(session) => AttachRegion(s.table, session, s.nextPeer).0
    case Serving(session, peer) => if peer in s.peersClosed then DetachRegion(s.table, session, peer) else s.table
    case _ => s.table
  }

  lemma TableOfFlight(s: State, t: ThreadId, ok: bool, pick: MountKey)
    requires t in s.threads && (s.threads[t].Look? || s.threads[t].Waiting? || InFlight(s.threads[t]))
    ensures Run(s, t, ok, pick).table == TableAfter(s, s.threads[t])
  {
  }

  lemma TableOfClosing(s: State, t: ThreadId, ok: bool, pick: MountKey)
    requires t in s.threads && s.threads[t].Closing?
    ensures Run(s, t, ok, pick).table == s.table
  {
  }

  lemma TableOf(s: State, t: ThreadId, ok: bool, pick: MountKey)
    requires t in s.threads
    ensures Run(s, t, ok, pick).table == TableAfter(s, s.threads[t])
  {
    var pc := s.threads[t];
    if pc.Look? || pc.Waiting? || InFlight(pc) {
      TableOfFlight(s, t, ok, pick);
    } else if pc.Closing? {
      TableOfClosing(s, t, ok, pick);
    } else {
      match pc
      case Removing(_) =>
      case Validating(_) =>
      case Reserving(_) =>
      case Greeting(_) =>
      case Attaching(_) =>
      case Serving(_, _) =>
      case Returned =>
    }
  }

  lemma TableAfterSound(s: State, pc: Pc)
    requires TablesSound(s.table)
    ensures TablesSound(TableAfter(s, pc)) && (s.table.draining ==> TableAfter(s, pc).draining)
  {
    match pc
    case Look(k, _) => BeginFinishSound(s.table, k, s.nextChan);
    case Storing(k, peer, _, b) => StoreExportSound(s.table, k, peer, b);
    case OfferStoring(k, peer, _) => StoreOfferSound(s.table, k, peer);
    case Finishing(k, _) => BeginFinishSound(s.table, k, 0);
    case Removing(client) => RemoveClientSound(s.table, client);
    case _ => PeerTableSound(s, pc);
  }

  lemma PeerTableSound(s: State, pc: Pc)
    requires TablesSound(s.table)
    requires !pc.Look? && !pc.Storing? && !pc.OfferStoring? && !pc.Finishing? && !pc.Removing?
    ensures TablesSound(TableAfter(s, pc)) && (s.table.draining ==> TableAfter(s, pc).draining)
  {
    match pc
    case Reserving(session) => ConnectionsSound(s.table, 0, s.table.fsConnecting + {session});
    case Greeting(session) => ConnectionsSound(s.table, 0, s.table.fsConnecting - {session});
    case Attaching(session) => PeerRegionsSound(s.table, session, s.nextPeer);
    case Serving(session, peer) => PeerRegionsSound(s.table, session, peer);
    case _ =>
  }

  /** Session IDs of clients are unique; peers, exports and mount offers exist only
      for sessions with a client; and a draining server has neither clients nor
      connections, from then on. */
  lemma {:induction false} TablesStaySound(steps: seq<Step>)
    ensures TablesSound(Exec(Init, steps).table)
    ensures steps != [] && Exec(Init, steps[..|steps| - 1]).table.draining ==> Exec(Init, steps).table.draining
  {
    if steps != [] {
      var n := |steps| - 1;
      var s := Exec(Init, steps[..n]);
      TablesStaySound(steps[..n]);
      match steps[n]
      case Advance(t, ok, pick) =>
        if t in s.threads {
          TableOf(s, t, ok, pick);
          TableAfterSound(s, s.threads[t]);
        }
      case AddClient(c) => AddClientSound(s.table, c);
      case Connect(conn) => ConnectionsSound(s.table, conn, {});
      case Disconnect(conn) => ConnectionsSound(s.table, conn, {});
      case Monitor => ConnectionsSound(s.table, 0, {});
      case Call(_, _) =>
      case PeerCloses(_) =>
    }
  }

  // ----- single flight

  predicate InFlight(pc: Pc) {
    pc.Opening? || pc.Registering? || pc.Storing? || pc.Undoing? || pc.Discarding? || pc.Offering? || pc.OfferStoring? || pc.Finishing?
  }

  // An export that has not stored its backend.
  predicate Unstored(pc: Pc) {
    pc.Opening? || pc.Registering? || pc.Storing? || pc.Undoing? || pc.Discarding?
  }

  ghost predicate Flies(s: State, t: ThreadId, k: FlightKey) {
    t in s.threads && InFlight(s.threads[t]) && s.threads[t].k == k
  }

  ghost predicate Listed(tb: Table, ch: Chan) {
    exists k :: k in tb.flights && tb.flights[k] == ch
  }

  ghost predicate SingleFlight(s: State) {
    && (forall t: ThreadId, k :: Flies(s, t, k) ==> k in s.table.flights && s.table.flights[k] == s.threads[t].ch)
    && (forall t: ThreadId, u: ThreadId, k :: Flies(s, t, k) && Flies(s, u, k) ==> t == u)
    && (forall k :: k in s.table.flights ==> exists t: ThreadId :: Flies(s, t, k))
  }

  // A wait channel is open exactly while its flight is listed.
  ghost predicate ChannelsClosedOnce(s: State) {
    && (forall k :: k in s.table.flights ==> s.table.flights[k] < s.nextChan)
    && (forall k, l :: k in s.table.flights && l in s.table.flights && s.table.flights[k] == s.table.flights[l] ==> k == l)
    && (forall ch: Chan :: Times(s, ch) == if ch < s.nextChan && !Listed(s.table, ch) then 1 else 0)
    && (forall t: ThreadId :: t in s.threads && s.threads[t].Waiting? ==> s.threads[t].ch < s.nextChan)
  }

  ghost predicate ExportsPending(s: State) {
    forall t: ThreadId :: t in s.threads && Unstored(s.threads[t]) ==>
      s.threads[t].k.kind == Export && (s.threads[t].k.session, s.threads[t].k.mount) !in s.table.fsBackends
  }

  ghost predicate Flights(s: State) { SingleFlight(s) && ChannelsClosedOnce(s) && ExportsPending(s) }

  // A step that neither begins nor finishes a flight.
  ghost predicate Neutral(s: State, s': State, t: ThreadId) {
    && s'.table.flights == s.table.flights && s'.nextChan == s.nextChan && s'.closes == s.closes
    && (forall u: ThreadId :: u != t ==>
          (u in s'.threads <==> u in s.threads) && (u in s.threads ==> s'.threads[u] == s.threads[u]))
    && (t in s.threads <==> t in s'.threads)
    && (t in s.threads && InFlight(s.threads[t]) ==>
          InFlight(s'.threads[t]) && s'.threads[t].k == s.threads[t].k && s'.threads[t].ch == s.threads[t].ch)
    && (t in s.threads && InFlight(s'.threads[t]) ==> InFlight(s.threads[t]))
    && (t in s.threads && Unstored(s'.threads[t]) ==> Unstored(s.threads[t]))
    && (t in s.threads && s'.threads[t].Waiting? ==>
          s.threads[t] == s'.threads[t] || (s.threads[t].Look? && Listed(s.table, s'.threads[t].ch)))
    && (forall k :: k in s'.table.fsBackends ==>
          k in s.table.fsBackends
          || (t in s.threads && s.threads[t].Storing? && s'.threads[t].Finishing? && k == (s.threads[t].k.session, s.threads[t].k.mount)))
  }

  lemma NeutralSingle(s: State, s': State, t: ThreadId)
    requires SingleFlight(s) && Neutral(s, s', t)
    ensures SingleFlight(s')
  {
    assert forall u: ThreadId, k :: Flies(s', u, k) <==> Flies(s, u, k);
    forall k | k in s'.table.flights ensures exists u: ThreadId :: Flies(s', u, k) {
      var u: ThreadId :| Flies(s, u, k);
      assert Flies(s', u, k);
    }
  }

  lemma NeutralChannels(s: State, s': State, t: ThreadId)
    requires ChannelsClosedOnce(s) && Neutral(s, s', t)
    ensures ChannelsClosedOnce(s')
  {
    forall ch: Chan ensures Times(s', ch) == if ch < s'.nextChan && !Listed(s'.table, ch) then 1 else 0 {
      assert Times(s', ch) == Times(s, ch) && (Listed(s'.table, ch) <==> Listed(s.table, ch));
    }
  }

  lemma NeutralPending(s: State, s': State, t: ThreadId)
    requires SingleFlight(s) && ExportsPending(s) && Neutral(s, s', t)
    ensures ExportsPending(s')
  {
    forall u: ThreadId | u in s'.threads && Unstored(s'.threads[u])
      ensures s'.threads[u].k.kind == Export && (s'.threads[u].k.session, s'.threads[u].k.mount) !in s'.table.fsBackends
    {
      assert u in s.threads && Unstored(s.threads[u]);
      if t in s.threads && s.threads[t].Storing? && u != t {
        assert Flies(s, u, s.threads[u].k) && Flies(s, t, s.threads[t].k);
      }
    }
  }

  lemma NeutralFlights(s: State, s': State, t: ThreadId)
    requires Flights(s) && Neutral(s, s', t)
    ensures Flights(s')
  {
    NeutralSingle(s, s', t);
    NeutralChannels(s, s', t);
    NeutralPending(s, s', t);
  }

  lemma BeginFlight(s: State, t: ThreadId)
    requires Flights(s) && t in s.threads && s.threads[t].Look? && BeginRegion(s.table, s.threads[t].k, s.nextChan).1.Begun?
    ensures Flights(Run(s, t, true, ("", "")))
  {
    var k, s' := s.threads[t].k, LookStep(s, t, s.threads[t].k, s.threads[t].peer);
    BeginSingle(s, t, s');
    BeginChannels(s, t, s');
  }

  lemma BeginSingle(s: State, t: ThreadId, s': State)
    requires Flights(s) && t in s.threads && s.threads[t].Look? && BeginRegion(s.table, s.threads[t].k, s.nextChan).1.Begun?
    requires s' == LookStep(s, t, s.threads[t].k, s.threads[t].peer)
    ensures SingleFlight(s') && ExportsPending(s')
  {
    var k := s.threads[t].k;
    assert forall u: ThreadId, l :: Flies(s', u, l) <==> (Flies(s, u, l) || (u == t && l == k));
    assert forall l :: l in s.table.flights ==> exists u: ThreadId :: Flies(s, u, l);
    forall l | l in s'.table.flights ensures exists u: ThreadId :: Flies(s', u, l) {
      if l == k {
        assert Flies(s', t, k);
      } else {
        var u: ThreadId :| Flies(s, u, l);
        assert Flies(s', u, l);
      }
    }
  }

  lemma BeginChannels(s: State, t: ThreadId, s': State)
    requires Flights(s) && t in s.threads && s.threads[t].Look? && BeginRegion(s.table, s.threads[t].k, s.nextChan).1.Begun?
    requires s' == LookStep(s, t, s.threads[t].k, s.threads[t].peer)
    ensures ChannelsClosedOnce(s')
  {
    var k := s.threads[t].k;
    assert Listed(s'.table, s.nextChan) by { assert s'.table.flights[k] == s.nextChan; }
    forall ch: Chan | ch != s.nextChan ensures Listed(s'.table, ch) <==> Listed(s.table, ch) {
      if Listed(s.table, ch) {
        var l :| l in s.table.flights && s.table.flights[l] == ch;
        assert l in s'.table.flights && s'.table.flights[l] == ch;
      }
    }
    forall ch: Chan ensures Times(s', ch) == if ch < s'.nextChan && !Listed(s'.table, ch) then 1 else 0 {
      assert Times(s', ch) == Times(s, ch);
    }
  }

  lemma FinishFlight(s: State, t: ThreadId)
    requires Flights(s) && t in s.threads && s.threads[t].Finishing?
    ensures Flights(Run(s, t, true, ("", "")))
    ensures var ch := s.threads[t].ch; Times(s, ch) == 0 && Times(Run(s, t, true, ("", "")), ch) == 1
  {
    var k, ch := s.threads[t].k, s.threads[t].ch;
    var s' := FinishStep(s, t, k);
    assert Flies(s, t, k);
    assert s.table.flights[k] == ch && Listed(s.table, ch);
    assert forall u: ThreadId, l :: Flies(s', u, l) <==> (Flies(s, u, l) && u != t);
    forall l | l in s'.table.flights ensures exists u: ThreadId :: Flies(s', u, l) {
      var u: ThreadId :| Flies(s, u, l);
      assert Flies(s', u, l);
    }
    forall c: Chan ensures Listed(s'.table, c) <==> (Listed(s.table, c) && c != ch) {
      if Listed(s.table, c) && c != ch {
        var l :| l in s.table.flights && s.table.flights[l] == c;
        assert l in s'.table.flights && s'.table.flights[l] == c;
      }
    }
    forall c: Chan ensures Times(s', c) == if c < s'.nextChan && !Listed(s'.table, c) then 1 else 0 {
      assert Times(s', c) == Times(s, c) + if c == ch then 1 else 0;
    }
  }

  lemma RunNeutral(s: State, t: ThreadId, ok: bool, pick: MountKey)
    requires t in s.threads && !s.threads[t].Finishing?
    requires s.threads[t].Look? ==> !BeginRegion(s.table, s.threads[t].k, s.nextChan).1.Begun?
    requires Flights(s)
    ensures Neutral(s, Run(s, t, ok, pick), t)
  {
    var pc := s.threads[t];
    if pc.Look? || pc.Waiting? || pc.Opening? || pc.Offering? || pc.OfferStoring? || pc.Discarding? {
      RunNeutralFlight(s, t, ok, pick);
    } else if pc.Registering? || pc.Storing? || pc.Undoing? {
      RunNeutralExport(s, t, ok, pick);
    } else if pc.Closing? {
      RunNeutralClosing(s, t, ok, pick);
    } else {
      RunNeutralPeers(s, t, ok, pick);
    }
  }

  lemma RunNeutralFlight(s: State, t: ThreadId, ok: bool, pick: MountKey)
    requires t in s.threads && Flights(s)
    requires var pc := s.threads[t];
             pc.Look? || pc.Waiting? || pc.Opening? || pc.Offering? || pc.OfferStoring? || pc.Discarding?
    requires s.threads[t].Look? ==> !BeginRegion(s.table, s.threads[t].k, s.nextChan).1.Begun?
    ensures Neutral(s, Run(s, t, ok, pick), t)
  {
    if s.threads[t].Look? || s.threads[t].Waiting? {
      RunNeutralWaiter(s, t, ok, pick);
    }
  }

  lemma RunNeutralWaiter(s: State, t: ThreadId, ok: bool, pick: MountKey)
    requires t in s.threads && Flights(s) && (s.threads[t].Look? || s.threads[t].Waiting?)
    requires s.threads[t].Look? ==> !BeginRegion(s.table, s.threads[t].k, s.nextChan).1.Begun?
    ensures Neutral(s, Run(s, t, ok, pick), t)
  {
    var pc := s.threads[t];
    if pc.Look? && pc.k in s.table.flights {
      assert Listed(s.table, s.table.flights[pc.k]);
    }
  }

  lemma RunNeutralExport(s: State, t: ThreadId, ok: bool, pick: MountKey)
    requires t in s.threads && (s.threads[t].Registering? || s.threads[t].Storing? || s.threads[t].Undoing?)
    ensures Neutral(s, Run(s, t, ok, pick), t)
  {
  }

  lemma RunNeutralClosing(s: State, t: ThreadId, ok: bool, pick: MountKey)
    requires t in s.threads && s.threads[t].Closing?
    ensures Neutral(s, Run(s, t, ok, pick), t)
  {
    TableOfClosing(s, t, ok, pick);
  }

  lemma RunNeutralRemoving(s: State, t: ThreadId, ok: bool, pick: MountKey)
    requires t in s.threads && s.threads[t].Removing?
    ensures Neutral(s, Run(s, t, ok, pick), t)
  {
  }

  lemma RunNeutralAttaching(s: State, t: ThreadId, ok: bool, pick: MountKey)
    requires t in s.threads && s.threads[t].Attaching?
    ensures Neutral(s, Run(s, t, ok, pick), t)
  {
  }

  lemma RunNeutralPeers(s: State, t: ThreadId, ok: bool, pick: MountKey)
    requires t in s.threads
    requires var pc := s.threads[t];
             pc.Removing? || pc.Validating? || pc.Reserving? || pc.Greeting? || pc.Attaching? || pc.Serving? || pc.Returned?
    ensures Neutral(s, Run(s, t, ok, pick), t)
  {
    if s.threads[t].Removing? {
      RunNeutralRemoving(s, t, ok, pick);
    } else if s.threads[t].Attaching? {
      RunNeutralAttaching(s, t, ok, pick);
    }
  }

  lemma FlightsRun(s: State, t: ThreadId, ok: bool, pick: MountKey)
    requires Flights(s) && t in s.threads
    ensures Flights(Run(s, t, ok, pick))
  {
    var pc := s.threads[t];
    if pc.Finishing? {
      FinishFlight(s, t);
    } else if pc.Look? && BeginRegion(s.table, pc.k, s.nextChan).1.Begun? {
      BeginFlight(s, t);
    } else {
      RunNeutral(s, t, ok, pick);
      NeutralFlights(s, Run(s, t, ok, pick), t);
    }
  }

  // A step of no thread.
  lemma FlightsElsewhere(s: State, s': State)
    requires Flights(s)
    requires s'.table.flights == s.table.flights && s'.nextChan == s.nextChan && s'.closes == s.closes && s'.threads == s.threads
    requires s'.table.fsBackends == s.table.fsBackends
    ensures Flights(s')
  {
    assert forall u: ThreadId, k :: Flies(s', u, k) <==> Flies(s, u, k);
    assert forall k :: k in s.table.flights ==> exists u: ThreadId :: Flies(s, u, k);
    NeutralChannelsSame(s, s');
  }

  lemma NeutralChannelsSame(s: State, s': State)
    requires ChannelsClosedOnce(s)
    requires s'.table.flights == s.table.flights && s'.nextChan == s.nextChan && s'.closes == s.closes && s'.threads == s.threads
    ensures ChannelsClosedOnce(s')
  {
    forall ch: Chan ensures Times(s', ch) == if ch < s'.nextChan && !Listed(s'.table, ch) then 1 else 0 {
      assert Times(s', ch) == Times(s, ch) && (Listed(s'.table, ch) <==> Listed(s.table, ch));
    }
  }

  lemma FlightsCall(s: State, t: ThreadId, entry: Pc)
    requires Flights(s) && t !in s.threads && IsEntry(entry)
    ensures Flights(Goto(s, t, entry))
  {
    var s' := Goto(s, t, entry);
    assert forall u: ThreadId, k :: Flies(s', u, k) <==> Flies(s, u, k);
    forall k | k in s'.table.flights ensures exists u: ThreadId :: Flies(s', u, k) {
      var u: ThreadId :| Flies(s, u, k);
      assert Flies(s', u, k);
    }
    forall ch: Chan ensures Times(s', ch) == if ch < s'.nextChan && !Listed(s'.table, ch) then 1 else 0 {
      assert Times(s', ch) == Times(s, ch);
    }
  }

  /** Over every schedule at most one flight per session and mount is in progress;
      its wait channel stays open until the flight ends, on whatever path, and is
      then closed exactly once; and while an export runs, nothing is stored under
      its key. */
  lemma {:induction false} FlightsAreSingle(steps: seq<Step>)
    ensures Flights(Exec(Init, steps))
  {
    if steps == [] {
      assert forall ch: Chan :: Times(Init, ch) == 0;
    } else {
      var n := |steps| - 1;
      var s := Exec(Init, steps[..n]);
      FlightsAreSingle(steps[..n]);
      match steps[n]
      case Advance(t, ok, pick) =>
        if t in s.threads {
          FlightsRun(s, t, ok, pick);
        }
      case Call(t, entry) =>
        if t !in s.threads && IsEntry(entry) {
          FlightsCall(s, t, entry);
        }
      case _ => FlightsElsewhere(s, Exec(Init, steps));
    }
  }

  /** No waiter is stranded: what it waits for is closed, or a flight in progress
      will close it. */
  lemma WaitersAreWoken(steps: seq<Step>, t: ThreadId)
    requires var s := Exec(Init, steps); t in s.threads && s.threads[t].Waiting?
    ensures var s := Exec(Init, steps); var ch := s.threads[t].ch;
            Times(s, ch) == 1 || exists u: ThreadId :: u in s.threads && InFlight(s.threads[u]) && s.threads[u].ch == ch
  {
    FlightsAreSingle(steps);
    var s := Exec(Init, steps);
    var ch := s.threads[t].ch;
    if Times(s, ch) != 1 {
      var k :| k in s.table.flights && s.table.flights[k] == ch;
      var u: ThreadId :| Flies(s, u, k);
      assert s.threads[u].ch == ch;
    }
  }

  /** The branch that finds a backend already stored after registering one is never
      taken. */
  lemma ExistingIsUnreachable(steps: seq<Step>, t: ThreadId)
    requires var s := Exec(Init, steps); t in s.threads && s.threads[t].Storing?
    ensures var s := Exec(Init, steps); var pc := s.threads[t];
            !StoreExportRegion(s.table, pc.k, pc.peer, pc.b).1.Existing?
  {
    FlightsAreSingle(steps);
  }

  // ----- no backend leaks

  predicate HoldsBackend(pc: Pc, b: BackendId) {
    ((pc.Registering? || pc.Storing? || pc.Undoing? || pc.Discarding?) && pc.b == b)
    || (pc.Closing? && exists k :: k in pc.taken.backends && pc.taken.backends[k] == b)
  }

  ghost predicate StoredBackend(tb: Table, b: BackendId) {
    exists k :: k in tb.fsBackends && tb.fsBackends[k] == b
  }

  ghost predicate HeldBackend(s: State, b: BackendId) {
    exists t: ThreadId :: t in s.threads && HoldsBackend(s.threads[t], b)
  }

  // Every backend opened and not closed is stored, or held by a call that will
  // store or close it.
  ghost predicate NoBackendLeaks(s: State) {
    forall b: BackendId :: b < s.nextBackend ==> b in s.closed || StoredBackend(s.table, b) || HeldBackend(s, b)
  }

  lemma ClosedGrows(s: State, t: ThreadId, ok: bool, pick: MountKey)
    requires t in s.threads
    ensures var s' := Run(s, t, ok, pick); s.closed <= s'.closed && t in s'.threads
    ensures var s' := Run(s, t, ok, pick);
            forall u: ThreadId :: u in s.threads && u != t ==> u in s'.threads && s'.threads[u] == s.threads[u]
  {
    if s.threads[t].Closing? {
      ClosingGrows(s, t, s.threads[t].taken, pick);
    } else {
      if IsFlight(s.threads[t]) {
        FlightGrows(s, t, ok, pick);
      } else {
        PeerGrows(s, t, ok, pick);
      }
    }
  }

  ghost predicate Grows(s: State, t: ThreadId, s': State) {
    && s.closed <= s'.closed && t in s'.threads
    && forall u: ThreadId :: u in s.threads && u != t ==> u in s'.threads && s'.threads[u] == s.threads[u]
  }

  predicate IsFlight(pc: Pc) {
    pc.Look? || pc.Waiting? || pc.Opening? || pc.Registering? || pc.Storing? || pc.Undoing? || pc.Discarding?
    || pc.Offering? || pc.OfferStoring? || pc.Finishing?
  }

  lemma FlightGrows(s: State, t: ThreadId, ok: bool, pick: MountKey)
    requires t in s.threads && IsFlight(s.threads[t])
    ensures Grows(s, t, Run(s, t, ok, pick))
  {
  }

  lemma PeerGrows(s: State, t: ThreadId, ok: bool, pick: MountKey)
    requires t in s.threads && !IsFlight(s.threads[t]) && !s.threads[t].Closing?
    ensures Grows(s, t, Run(s, t, ok, pick))
  {
  }

  lemma ClosingGrows(s: State, t: ThreadId, taken: Taken, pick: MountKey)
    requires t in s.threads
    ensures var s' := CloseStep(s, t, taken, pick); s.closed <= s'.closed && t in s'.threads
    ensures var s' := CloseStep(s, t, taken, pick);
            forall u: ThreadId :: u in s.threads && u != t ==> u in s'.threads && s'.threads[u] == s.threads[u]
  {
  }

  // What thread t held is closed, stored, or still held by t.
  lemma HeldMoves(s: State, t: ThreadId, ok: bool, pick: MountKey, b: BackendId)
    requires t in s.threads && HoldsBackend(s.threads[t], b)
    ensures var s' := Run(s, t, ok, pick);
            t in s'.threads && (b in s'.closed || StoredBackend(s'.table, b) || HoldsBackend(s'.threads[t], b))
  {
    var pc := s.threads[t];
    match pc
    case Storing(k, peer, _, _) =>
      var (table, out) := StoreExportRegion(s.table, k, peer, b);
      if out.Stored? {
        assert table.fsBackends[(k.session, k.mount)] == b;
      }
    case Closing(taken) =>
      var k :| k in taken.backends && taken.backends[k] == b;
      if pick in taken.backends && k != pick {
        assert k in (taken.backends - {pick});
      }
    case _ =>
  }

  // What was stored stays stored, or is taken over by the removeClient at t.
  lemma StoredMoves(s: State, t: ThreadId, ok: bool, pick: MountKey, b: BackendId)
    requires t in s.threads && StoredBackend(s.table, b)
    ensures var s' := Run(s, t, ok, pick);
            StoredBackend(s'.table, b) || (t in s'.threads && HoldsBackend(s'.threads[t], b))
  {
    TableOf(s, t, ok, pick);
    var k :| k in s.table.fsBackends && s.table.fsBackends[k] == b;
    var s' := Run(s, t, ok, pick);
    if k in s'.table.fsBackends {
      StaysStored(s, s.threads[t], k);
    } else {
      RemovedIsHeld(s, s.threads[t], k);
      assert s.threads[t].Removing?;
      var taken := RemoveClientRegion(s.table, s.threads[t].client).1.value;
      assert s'.threads[t] == Closing(taken) && taken.backends[k] == b;
    }
  }

  lemma StaysStored(s: State, pc: Pc, k: MountKey)
    requires k in s.table.fsBackends && k in TableAfter(s, pc).fsBackends
    ensures TableAfter(s, pc).fsBackends[k] == s.table.fsBackends[k]
  {
  }

  lemma RemovedIsHeld(s: State, pc: Pc, k: MountKey)
    requires k in s.table.fsBackends && k !in TableAfter(s, pc).fsBackends
    ensures pc.Removing? && RemoveClientRegion(s.table, pc.client).1.Some?
    ensures var taken := RemoveClientRegion(s.table, pc.client).1.value;
            k in taken.backends && taken.backends[k] == s.table.fsBackends[k]
  {
  }

  lemma OpenedIsHeld(s: State, t: ThreadId, ok: bool, pick: MountKey)
    requires t in s.threads
    ensures var s' := Run(s, t, ok, pick);
            s'.nextBackend == s.nextBackend
            || (s'.nextBackend == s.nextBackend + 1 && t in s'.threads && HoldsBackend(s'.threads[t], s.nextBackend))
  {
  }

  lemma LeakRun(s: State, t: ThreadId, ok: bool, pick: MountKey)
    requires NoBackendLeaks(s) && t in s.threads
    ensures NoBackendLeaks(Run(s, t, ok, pick))
  {
    var s' := Run(s, t, ok, pick);
    ClosedGrows(s, t, ok, pick);
    OpenedIsHeld(s, t, ok, pick);
    forall b: BackendId | b < s'.nextBackend ensures b in s'.closed || StoredBackend(s'.table, b) || HeldBackend(s', b) {
      if b == s.nextBackend {
        assert HoldsBackend(s'.threads[t], b);
      } else if b in s.closed {
      } else if StoredBackend(s.table, b) {
        StoredMoves(s, t, ok, pick, b);
      } else {
        var u: ThreadId :| u in s.threads && HoldsBackend(s.threads[u], b);
        if u == t {
          HeldMoves(s, t, ok, pick, b);
        } else {
          assert HoldsBackend(s'.threads[u], b);
        }
      }
    }
  }

  // A step of no thread, or a call: nothing stored or held changes.
  lemma LeakElsewhere(s: State, s': State)
    requires NoBackendLeaks(s)
    requires s'.table.fsBackends == s.table.fsBackends && s'.nextBackend == s.nextBackend && s.closed <= s'.closed
    requires forall u: ThreadId :: u in s.threads ==> u in s'.threads && s'.threads[u] == s.threads[u]
    ensures NoBackendLeaks(s')
  {
    forall b: BackendId | b < s'.nextBackend ensures b in s'.closed || StoredBackend(s'.table, b) || HeldBackend(s', b) {
      if b !in s.closed && !StoredBackend(s.table, b) {
        var u: ThreadId :| u in s.threads && HoldsBackend(s.threads[u], b);
        assert HoldsBackend(s'.threads[u], b);
      }
    }
  }

  /** However exports, client removals and peer closes interleave, every backend
      opened is closed, stored for a session that has a client, or held by a call
      that will store or close it. */
  lemma {:induction false} BackendsNeverLeak(steps: seq<Step>)
    ensures NoBackendLeaks(Exec(Init, steps))
  {
    if steps != [] {
      var n := |steps| - 1;
      var s := Exec(Init, steps[..n]);
      BackendsNeverLeak(steps[..n]);
      match steps[n]
      case Advance(t, ok, pick) =>
        if t in s.threads {
          LeakRun(s, t, ok, pick);
        }
      case _ => LeakElsewhere(s, Exec(Init, steps));
    }
  }

  /** Once every call has returned and no client is left, every backend ever opened
      has been closed. */
  lemma IdleServerHasNoBackends(steps: seq<Step>)
    requires var s := Exec(Init, steps);
             s.table.clients == [] && forall t: ThreadId :: t in s.threads ==> s.threads[t].Returned?
    ensures var s := Exec(Init, steps); forall b: BackendId :: b < s.nextBackend ==> b in s.closed
  {
    BackendsNeverLeak(steps);
    TablesStaySound(steps);
    var s := Exec(Init, steps);
    assert forall k: MountKey :: k !in s.table.fsBackends by {
      assert forall session :: !HasClient(s.table, session);
    }
  }

  // ----- what an export and an offer achieve

  predicate Attached(s: State, session: SessionId, peer: PeerId) {
    session in s.table.fsPeers && s.table.fsPeers[session] == peer
  }

  lemma StoreAttached(s: State, t: ThreadId, pc: Pc)
    requires pc.Storing? && (pc.k.session, pc.k.mount) !in s.table.fsBackends
    ensures StoreStep(s, t, pc) ==
            if Attached(s, pc.k.session, pc.peer)
            then Goto(s.(table := s.table.(fsBackends := s.table.fsBackends[(pc.k.session, pc.k.mount) := pc.b])), t, Finishing(pc.k, pc.ch))
            else Goto(s, t, Undoing(pc.k, pc.peer, pc.ch, pc.b))
  {
  }

  /** In any reachable state an opened backend is stored for its session and mount if and only
      if the session's peer is still the one it was opened for; otherwise nothing is stored,
      and two steps later it is out of the peer's own table and closed. */
  lemma ExportIsStoredIff(steps: seq<Step>, t: ThreadId, ok: bool, pick: MountKey)
    requires t in Exec(Init, steps).threads && Exec(Init, steps).threads[t].Storing?
    ensures var s := Exec(Init, steps); var pc := s.threads[t]; var key := (pc.k.session, pc.k.mount);
            var s' := Run(s, t, ok, pick);
            && (key in s'.table.fsBackends && s'.table.fsBackends[key] == pc.b <==> Attached(s, pc.k.session, pc.peer))
            && (if Attached(s, pc.k.session, pc.peer)
                then s'.threads[t] == Finishing(pc.k, pc.ch) && s'.table.fsBackends - {key} == s.table.fsBackends
                else s'.table == s.table && Run(Run(s', t, ok, pick), t, ok, pick).threads[t] == Finishing(pc.k, pc.ch)
                     && pc.b in Run(Run(s', t, ok, pick), t, ok, pick).closed)
  {
    var s := Exec(Init, steps);
    var pc := s.threads[t];
    NothingStoredYet(steps, t);
    StoreAttached(s, t, pc);
    if !Attached(s, pc.k.session, pc.peer) {
      UndoingCloses(Run(s, t, ok, pick), t, ok, pick);
    }
  }

  lemma NothingStoredYet(steps: seq<Step>, t: ThreadId)
    requires t in Exec(Init, steps).threads && Exec(Init, steps).threads[t].Storing?
    ensures var s := Exec(Init, steps); (s.threads[t].k.session, s.threads[t].k.mount) !in s.table.fsBackends
  {
    FlightsAreSingle(steps);
  }

  lemma UndoingCloses(s: State, t: ThreadId, ok: bool, pick: MountKey)
    requires t in s.threads && s.threads[t].Undoing?
    ensures var pc := s.threads[t]; var s' := Run(Run(s, t, ok, pick), t, ok, pick);
            s'.threads[t] == Finishing(pc.k, pc.ch) && pc.b in s'.closed && (pc.peer, pc.k.mount) !in s'.peerBackends
  {
  }

  /** An offer is recorded under the same condition. */
  lemma OfferIsRecordedIff(s: State, t: ThreadId, ok: bool, pick: MountKey)
    requires t in s.threads && s.threads[t].OfferStoring?
    ensures var pc := s.threads[t]; var s' := Run(s, t, ok, pick);
            && s'.threads[t] == Finishing(pc.k, pc.ch)
            && s'.table.fsClientMounts == s.table.fsClientMounts + if Attached(s, pc.k.session, pc.peer) then {(pc.k.session, pc.k.mount)} else {}
  {
  }

  /** What is stored or recorded is found: a later call for it returns at once, and opens and
      offers nothing. */
  lemma DoneIsFound(s: State, t: ThreadId, ok: bool, pick: MountKey)
    requires t in s.threads && s.threads[t].Look?
    requires var k := s.threads[t].k;
             (k.kind.Export? && (k.session, k.mount) in s.table.fsBackends) || (k.kind.Offer? && (k.session, k.mount) in s.table.fsClientMounts)
    ensures Run(s, t, ok, pick) == Goto(s, t, Returned)
  {
  }

  /** Removing a client takes it out, and with it everything of its session, which its thread
      then holds in order to close it; of other sessions nothing changes. */
  lemma RemovalTakesSession(s: State, t: ThreadId, ok: bool, pick: MountKey, i: nat)
    requires t in s.threads && s.threads[t].Removing? && i < |s.table.clients| && s.table.clients[i].id == s.threads[t].client
    requires forall j :: 0 <= j < i ==> s.table.clients[j].id != s.threads[t].client
    ensures var s' := Run(s, t, ok, pick); var tb, tb', session := s.table, s'.table, s.table.clients[i].sessionId;
            && tb'.clients == tb.clients[..i] + tb.clients[i + 1..]
            && tb'.fsPeers == tb.fsPeers - {session}
            && (forall k: MountKey :: k in tb'.fsBackends <==> k in tb.fsBackends && k.0 != session)
            && (forall k: MountKey :: k in tb'.fsBackends ==> tb'.fsBackends[k] == tb.fsBackends[k])
            && (forall k: MountKey :: k in tb'.fsClientMounts <==> k in tb.fsClientMounts && k.0 != session)
            && s'.threads[t].Closing?
            && (forall k: MountKey :: k in tb.fsBackends && k.0 == session ==>
                  k in s'.threads[t].taken.backends && s'.threads[t].taken.backends[k] == tb.fsBackends[k])
            && (session in tb.fsPeers ==> s'.threads[t].taken.peer == Some(tb.fsPeers[session]))
  {
    assert IndexOf(s.table.clients, s.threads[t].client) == i;
  }

  // ----- calls that nothing interleaves with

  predicate ByOnly(steps: seq<Step>, t: ThreadId) {
    forall i :: 0 <= i < |steps| ==> (steps[i].Call? || (steps[i].Advance? && steps[i].ok)) && steps[i].t == t
  }

  // Steps of `t` alone lead from `s` to `s'`, when the peer and the driver do their part.
  ghost predicate Leads(s: State, t: ThreadId, s': State) { exists steps :: ByOnly(steps, t) && Exec(s, steps) == s' }

  lemma LeadsFirst(s: State, t: ThreadId, entry: Pc)
    requires t !in s.threads && IsEntry(entry)
    ensures Leads(s, t, Goto(s, t, entry))
  {
    assert [Call(t, entry)][..0] == [];
    assert Exec(s, [Call(t, entry)]) == Goto(s, t, entry) && ByOnly([Call(t, entry)], t);
  }

  lemma LeadsOn(s: State, t: ThreadId, a: State, b: State)
    requires Leads(s, t, a) && Run(a, t, true, ("", "")) == b
    ensures Leads(s, t, b)
  {
    var steps :| ByOnly(steps, t) && Exec(s, steps) == a;
    var more := steps + [Advance(t, true, ("", ""))];
    assert more[..|steps|] == steps;
    assert ByOnly(more, t) && Exec(s, more) == b;
  }

  lemma LookBegins(s: State, t: ThreadId, k: FlightKey, peer: PeerId)
    requires t in s.threads && s.threads[t] == Look(k, peer) && !IsDone(s.table, k) && k !in s.table.flights
    ensures Run(s, t, true, ("", "")) ==
            Goto(s.(table := s.table.(flights := s.table.flights[k := s.nextChan]), nextChan := s.nextChan + 1), t,
                 if k.kind.Export? then Opening(k, peer, s.nextChan) else Offering(k, peer, s.nextChan))
  {
  }

  lemma OpeningOpens(s: State, t: ThreadId, k: FlightKey, peer: PeerId, ch: Chan)
    requires t in s.threads && s.threads[t] == Opening(k, peer, ch)
    ensures Run(s, t, true, ("", "")) == Goto(s.(nextBackend := s.nextBackend + 1), t, Registering(k, peer, ch, s.nextBackend))
  {
  }

  lemma RegisteringRegisters(s: State, t: ThreadId, k: FlightKey, peer: PeerId, ch: Chan, b: BackendId)
    requires t in s.threads && s.threads[t] == Registering(k, peer, ch, b)
    requires peer !in s.peersClosed && (peer, k.mount) !in s.peerBackends
    ensures Run(s, t, true, ("", "")) == Goto(s.(peerBackends := s.peerBackends[(peer, k.mount) := b]), t, Storing(k, peer, ch, b))
  {
  }

  lemma StoringStores(s: State, t: ThreadId, k: FlightKey, peer: PeerId, ch: Chan, b: BackendId)
    requires t in s.threads && s.threads[t] == Storing(k, peer, ch, b)
    requires Attached(s, k.session, peer) && (k.session, k.mount) !in s.table.fsBackends
    ensures Run(s, t, true, ("", "")) ==
            Goto(s.(table := s.table.(fsBackends := s.table.fsBackends[(k.session, k.mount) := b])), t, Finishing(k, ch))
  {
  }

  lemma OfferingOffers(s: State, t: ThreadId, k: FlightKey, peer: PeerId, ch: Chan)
    requires t in s.threads && s.threads[t] == Offering(k, peer, ch)
    ensures Run(s, t, true, ("", "")) == Goto(s, t, OfferStoring(k, peer, ch))
  {
  }

  lemma OfferStoringRecords(s: State, t: ThreadId, k: FlightKey, peer: PeerId, ch: Chan)
    requires t in s.threads && s.threads[t] == OfferStoring(k, peer, ch) && Attached(s, k.session, peer)
    ensures Run(s, t, true, ("", "")) ==
            Goto(s.(table := s.table.(fsClientMounts := s.table.fsClientMounts + {(k.session, k.mount)})), t, Finishing(k, ch))
  {
  }

  lemma FinishingEnds(s: State, t: ThreadId, k: FlightKey, ch: Chan)
    requires t in s.threads && s.threads[t] == Finishing(k, ch) && k in s.table.flights && s.table.flights[k] == ch
    ensures Run(s, t, true, ("", "")) ==
            Goto(s.(table := s.table.(flights := s.table.flights - {k}), closes := s.closes[ch := Times(s, ch) + 1]), t, Returned)
  {
  }

  lemma GotoTwice(s: State, t: ThreadId, a: Pc, b: Pc)
    ensures Goto(Goto(s, t, a), t, b) == Goto(s, t, b)
  {
    assert s.threads[t := a][t := b] == s.threads[t := b];
  }

  // The state of `s` in the middle of the flight of `k` that `t` flies.
  function Flying(s: State, t: ThreadId, k: FlightKey, pc: Pc): State {
    Goto(s.(table := s.table.(flights := s.table.flights[k := s.nextChan]), nextChan := s.nextChan + 1), t, pc)
  }

  lemma FlightBegins(s: State, t: ThreadId, k: FlightKey, peer: PeerId)
    requires t !in s.threads && !IsDone(s.table, k) && k !in s.table.flights
    ensures Leads(s, t, Flying(s, t, k, if k.kind.Export? then Opening(k, peer, s.nextChan) else Offering(k, peer, s.nextChan)))
  {
    var s0 := Goto(s, t, Look(k, peer));
    var pc := if k.kind.Export? then Opening(k, peer, s.nextChan) else Offering(k, peer, s.nextChan);
    LeadsFirst(s, t, Look(k, peer));
    LookBegins(s0, t, k, peer);
    GotoTwice(s.(table := s.table.(flights := s.table.flights[k := s.nextChan]), nextChan := s.nextChan + 1), t, Look(k, peer), pc);
    LeadsOn(s, t, s0, Flying(s, t, k, pc));
  }

  lemma FlightEnds(s: State, x: State, t: ThreadId, k: FlightKey, y: State, z: State)
    requires k !in s.table.flights && x.table.flights == s.table.flights && x.closes == s.closes
    requires y == Goto(x.(table := x.table.(flights := x.table.flights[k := s.nextChan])), t, Finishing(k, s.nextChan))
    requires z == Goto(x.(closes := s.closes[s.nextChan := Times(s, s.nextChan) + 1]), t, Returned)
    ensures Run(y, t, true, ("", "")) == z
  {
    FinishingEnds(y, t, k, s.nextChan);
    assert x.table.flights[k := s.nextChan] - {k} == x.table.flights;
    assert y.threads[t := Returned] == z.threads;
  }

  // `s` with an export of `k` through `peer` opened, and registered with the peer.
  function Opened(s: State): State { s.(nextBackend := s.nextBackend + 1) }

  function Registered(s: State, k: FlightKey, peer: PeerId): State {
    Opened(s).(peerBackends := s.peerBackends[(peer, k.mount) := s.nextBackend])
  }

  lemma ExportRegisters(s: State, t: ThreadId, k: FlightKey, peer: PeerId)
    requires t !in s.threads && k.kind.Export? && peer !in s.peersClosed && (peer, k.mount) !in s.peerBackends
    requires (k.session, k.mount) !in s.table.fsBackends && k !in s.table.flights
    ensures Leads(s, t, Flying(Registered(s, k, peer), t, k, Storing(k, peer, s.nextChan, s.nextBackend)))
  {
    var ch, b := s.nextChan, s.nextBackend;
    FlightBegins(s, t, k, peer);
    var s1, s2 := Flying(s, t, k, Opening(k, peer, ch)), Flying(Opened(s), t, k, Registering(k, peer, ch, b));
    var s3 := Flying(Registered(s, k, peer), t, k, Storing(k, peer, ch, b));
    assert s.threads[t := Opening(k, peer, ch)][t := Registering(k, peer, ch, b)] == s.threads[t := Registering(k, peer, ch, b)];
    assert s.threads[t := Registering(k, peer, ch, b)][t := Storing(k, peer, ch, b)] == s.threads[t := Storing(k, peer, ch, b)];
    OpeningOpens(s1, t, k, peer, ch);
    LeadsOn(s, t, s1, s2);
    RegisteringRegisters(s2, t, k, peer, ch, b);
    LeadsOn(s, t, s2, s3);
  }

  // The table of `s` with the export of `k` stored, or its offer recorded.
  function WithExport(s: State, k: FlightKey): Table {
    s.table.(fsBackends := s.table.fsBackends[(k.session, k.mount) := s.nextBackend])
  }

  function WithOffer(s: State, k: FlightKey): Table {
    s.table.(fsClientMounts := s.table.fsClientMounts + {(k.session, k.mount)})
  }

  // The flight of `k` about to end, and ended.
  function Landing(s: State, x: State, t: ThreadId, k: FlightKey): State {
    Goto(x.(table := x.table.(flights := x.table.flights[k := s.nextChan])), t, Finishing(k, s.nextChan))
  }

  function Landed(s: State, x: State, t: ThreadId): State {
    Goto(x.(closes := s.closes[s.nextChan := Times(s, s.nextChan) + 1]), t, Returned)
  }

  lemma ExportLands(s: State, x: State, t: ThreadId, k: FlightKey, peer: PeerId)
    requires t !in s.threads && k.kind.Export? && Attached(s, k.session, peer) && peer !in s.peersClosed
    requires (k.session, k.mount) !in s.table.fsBackends && k !in s.table.flights && (peer, k.mount) !in s.peerBackends
    requires x == Registered(s, k, peer).(nextChan := s.nextChan + 1, table := WithExport(s, k))
    ensures Leads(s, t, Landing(s, x, t, k))
  {
    var ch, b := s.nextChan, s.nextBackend;
    ExportRegisters(s, t, k, peer);
    var s3 := Flying(Registered(s, k, peer), t, k, Storing(k, peer, ch, b));
    StoringStores(s3, t, k, peer, ch, b);
    assert s.threads[t := Storing(k, peer, ch, b)][t := Finishing(k, ch)] == s.threads[t := Finishing(k, ch)];
    LeadsOn(s, t, s3, Landing(s, x, t, k));
  }

  lemma Lands(s: State, x: State, t: ThreadId, k: FlightKey)
    requires Leads(s, t, Landing(s, x, t, k))
    requires k !in s.table.flights && x.table.flights == s.table.flights && x.closes == s.closes
    ensures Leads(s, t, Landed(s, x, t))
  {
    FlightEnds(s, x, t, k, Landing(s, x, t, k), Landed(s, x, t));
    LeadsOn(s, t, Landing(s, x, t, k), Landed(s, x, t));
  }

  /** An export through the session's open peer opens one backend, registers it with the peer
      and stores it; its flight ends and its channel is closed once. */
  lemma ExportStores(s: State, t: ThreadId, k: FlightKey, peer: PeerId)
    requires t !in s.threads && k.kind.Export? && Attached(s, k.session, peer) && peer !in s.peersClosed
    requires (k.session, k.mount) !in s.table.fsBackends && k !in s.table.flights && (peer, k.mount) !in s.peerBackends
    ensures Leads(s, t,
            s.(table := s.table.(fsBackends := s.table.fsBackends[(k.session, k.mount) := s.nextBackend]), nextBackend := s.nextBackend + 1,
               peerBackends := s.peerBackends[(peer, k.mount) := s.nextBackend],
               nextChan := s.nextChan + 1, closes := s.closes[s.nextChan := Times(s, s.nextChan) + 1],
               threads := s.threads[t := Returned]))
  {
    var x := Registered(s, k, peer).(nextChan := s.nextChan + 1, table := WithExport(s, k));
    ExportLands(s, x, t, k, peer);
    Lands(s, x, t, k);
  }

  lemma OfferLands(s: State, x: State, t: ThreadId, k: FlightKey, peer: PeerId)
    requires t !in s.threads && k.kind.Offer? && Attached(s, k.session, peer)
    requires (k.session, k.mount) !in s.table.fsClientMounts && k !in s.table.flights
    requires x == s.(nextChan := s.nextChan + 1, table := WithOffer(s, k))
    ensures Leads(s, t, Landing(s, x, t, k))
  {
    var ch := s.nextChan;
    var s2 := Flying(s, t, k, OfferStoring(k, peer, ch));
    OfferCalls(s, t, k, peer);
    OfferStoringRecords(s2, t, k, peer, ch);
    assert s.threads[t := OfferStoring(k, peer, ch)][t := Finishing(k, ch)] == s.threads[t := Finishing(k, ch)];
    LeadsOn(s, t, s2, Landing(s, x, t, k));
  }

  lemma OfferCalls(s: State, t: ThreadId, k: FlightKey, peer: PeerId)
    requires t !in s.threads && k.kind.Offer? && (k.session, k.mount) !in s.table.fsClientMounts && k !in s.table.flights
    ensures Leads(s, t, Flying(s, t, k, OfferStoring(k, peer, s.nextChan)))
  {
    var ch := s.nextChan;
    FlightBegins(s, t, k, peer);
    OfferingOffers(Flying(s, t, k, Offering(k, peer, ch)), t, k, peer, ch);
    assert s.threads[t := Offering(k, peer, ch)][t := OfferStoring(k, peer, ch)] == s.threads[t := OfferStoring(k, peer, ch)];
    LeadsOn(s, t, Flying(s, t, k, Offering(k, peer, ch)), Flying(s, t, k, OfferStoring(k, peer, ch)));
  }

  /** An offer to the session's peer records the mount in the same way. */
  lemma OfferRecords(s: State, t: ThreadId, k: FlightKey, peer: PeerId)
    requires t !in s.threads && k.kind.Offer? && Attached(s, k.session, peer)
    requires (k.session, k.mount) !in s.table.fsClientMounts && k !in s.table.flights
    ensures Leads(s, t,
            s.(table := s.table.(fsClientMounts := s.table.fsClientMounts + {(k.session, k.mount)}),
               nextChan := s.nextChan + 1, closes := s.closes[s.nextChan := Times(s, s.nextChan) + 1],
               threads := s.threads[t := Returned]))
  {
    var x := s.(nextChan := s.nextChan + 1, table := WithOffer(s, k));
    OfferLands(s, x, t, k, peer);
    Lands(s, x, t, k);
  }

  lemma Handshake(s: State, t: ThreadId, session: SessionId)
    requires t in s.threads && s.threads[t] == Reserving(session)
    requires session !in s.table.fsPeers && session !in s.table.fsConnecting
    ensures Run(Run(s, t, true, ("", "")), t, true, ("", "")) == Goto(s, t, Attaching(session))
  {
    var s1 := Run(s, t, true, ("", ""));
    assert s1 == Goto(s.(table := s.table.(fsConnecting := s.table.fsConnecting + {session})), t, Greeting(session));
    assert s.table.fsConnecting + {session} - {session} == s.table.fsConnecting;
    assert s1.threads[t := Attaching(session)] == s.threads[t := Attaching(session)];
  }

  lemma AttachingAttaches(s: State, t: ThreadId, session: SessionId)
    requires t in s.threads && s.threads[t] == Attaching(session)
    requires HasClient(s.table, session) && !s.table.draining && session !in s.table.fsPeers
    ensures Run(s, t, true, ("", "")) ==
            Goto(s.(table := s.table.(fsPeers := s.table.fsPeers[session := s.nextPeer]), nextPeer := s.nextPeer + 1), t,
                 Serving(session, s.nextPeer))
  {
  }

  lemma ConnectionGreets(s: State, t: ThreadId, session: SessionId)
    requires t !in s.threads && HasClient(s.table, session) && session !in s.table.fsPeers && session !in s.table.fsConnecting
    ensures Leads(s, t, Goto(s, t, Attaching(session)))
  {
    var e, s0, s1 := Validating(session), Goto(s, t, Validating(session)), Goto(s, t, Reserving(session));
    GotoTwice(s, t, e, Reserving(session));
    LeadsFirst(s, t, e);
    assert Run(s0, t, true, ("", "")) == s1;
    LeadsOn(s, t, s0, s1);
    Handshake(s1, t, session);
    GotoTwice(s, t, Reserving(session), Attaching(session));
    LeadsOn(s, t, s1, Run(s1, t, true, ("", "")));
    LeadsOn(s, t, Run(s1, t, true, ("", "")), Goto(s, t, Attaching(session)));
  }

  /** A RemoteFS connection of a session with a client and without a peer becomes its peer. */
  lemma ConnectionAttaches(s: State, t: ThreadId, session: SessionId)
    requires t !in s.threads && HasClient(s.table, session) && !s.table.draining
    requires session !in s.table.fsPeers && session !in s.table.fsConnecting
    ensures Leads(s, t,
            s.(table := s.table.(fsPeers := s.table.fsPeers[session := s.nextPeer]), nextPeer := s.nextPeer + 1,
               threads := s.threads[t := Serving(session, s.nextPeer)]))
  {
    var s3 := Goto(s, t, Attaching(session));
    var s4 := s.(table := s.table.(fsPeers := s.table.fsPeers[session := s.nextPeer]), nextPeer := s.nextPeer + 1,
                 threads := s.threads[t := Serving(session, s.nextPeer)]);
    ConnectionGreets(s, t, session);
    AttachingAttaches(s3, t, session);
    assert s3.threads[t := Serving(session, s.nextPeer)] == s4.threads;
    LeadsOn(s, t, s3, s4);
  }

  /** A call that waited for another's flight looks again when it has ended: it returns if that
      one stored or recorded what it is for, and begins its own flight otherwise. */
  lemma WaiterLooksAgain(s: State, t: ThreadId, k: FlightKey, peer: PeerId, ch: Chan, ok: bool, pick: MountKey)
    requires t in s.threads && s.threads[t] == Waiting(k, peer, ch) && Times(s, ch) > 0 && k !in s.table.flights
    ensures var done := match k.kind
                        case Export => (k.session, k.mount) in s.table.fsBackends
                        case Offer => (k.session, k.mount) in s.table.fsClientMounts;
            var s' := Run(Run(s, t, ok, pick), t, ok, pick);
            if done then s' == Goto(s, t, Returned) else k in s'.table.flights && s'.table.flights[k] == s.nextChan
  {
    var s1 := Run(s, t, ok, pick);
    assert s1 == Goto(s, t, Look(k, peer));
    GotoTwice(s, t, Look(k, peer), Returned);
  }
}
