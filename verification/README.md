# Verified models of sshx

sshx keeps one SSH connection useful for more than a shell: it forwards the
remote machine's ports to local names, mounts file systems in both directions
and lets remote commands run locally. Most of its code is plumbing around small
concurrent protocols guarded by locks, and a few exact transformations of text
and bytes. This project models those and proves what they are for.

Verify everything with `dafny verify dfyconfig.toml` (Dafny 4.11).

## How the models are built

**Concurrent parts.** A mutex-protected region of the code is one atomic step;
everything between two regions (a driver call, a control operation, a channel
wait) is a step of its own, so any two calls can interleave there. Each module
has

- a class with the code's fields, whose methods are the regions, each proved
  equal to a *region function* on the field values;
- a `State` with those values and a program counter per goroutine, a `Step`
  type and `Exec(Init, steps)`, which runs an arbitrary schedule built from the
  same region functions. A step that is not possible changes nothing, so the
  theorems about `Exec` hold for every finite schedule.

Theorems are invariants over all `steps`, and beside them what each call achieves
when nothing interferes (the functions `Alone`, `Acts` and `Stepwise` and the
predicate `Leads` are runs of one call), or in any reachable state. Where the natural claim fails at this
grain, a lemma exhibits the run and another gives the condition under which the
claim holds.

**Transformations.** A loop of the code is a method with the same loop, proved
equal to a function; the lemmas are about that function, over every input, and
refer to an independent definition: option lists as items, a reader of the DNS
message format, path elements, the last scans.

| file | models |
|---|---|
| `PeerCalls.dfy`, `PeerMounts.dfy`, `Frames.dfy` | the RemoteFS peer: requests, responses and cancels; mount ownership; the framed stream |
| `Locald.dfy`, `Domain.dfy`, `Dns.dfy`, `Loopback.dfy` | the local daemon: leases, targets, addresses, names; the DNS responder (section 4.1 of RFC 1035) |
| `Forward.dfy` | the port forward manager |
| `Bridge.dfy`, `BridgeMounts.dfy`, `Ports.dfy` | the bridge server: clients, peers, exports, offers; its mounts; port scans |
| `MountManager.dfy` | the client's mount manager |
| `SshCompat.dfy`, `SshControl.dfy`, `Identity.dfy` | the SSH argument scanners |
| `Layout.dfy` | the mount-path algebra |
| `Aliases.dfy` | the Include closure of an SSH configuration |
| `Sorting.dfy`, `Sets.dfy`, `Text.dfy`, `Wrappers.dfy` | library operations the above share |

## Claims that fail, and when they hold

- Forwards leak when two Ensure calls for one port differ in the control path
  (`TransportChangeLeaks`) or, with one control path, in the remote host or the
  listen address (`SpecChangeLeaks`); any two different control forwards of a port
  can (`TwoForwardsLeak`). A run leaks if and only if some Ensure loses to a winner
  other than its own live control forward while no other call holds that forward
  (`NoForwardLeaksIff`); with one control path and one spec for each port this
  never happens (`NoForwardLeaks`).
- A mount is lost when a mount.create overlaps a mount.release of the same ID
  (`OverlappingReleaseLosesMount`). A run loses one if and only if a release takes
  the entry of a live mount that nothing else covers (`ConservedIff`); none does
  unless OnMount succeeds between the OnUnmount of a release and its deletion
  (`MountsAreConserved`), and from there one can be lost (`GapLosesMount`).
- A hand-over keeps the target's name and address if and only if no grace timer
  of its key fires while the count is zero (`HandoffKeepsTargetIff`); with opens
  that nothing interleaves with, if and only if a lease is held whenever one
  fires (`HandoverOutlivesTimers`).
- A timer between the two halves of an open leaves a lease without a target
  (`SplitOpenLosesTarget`). Over a run, opens split or not, every lease has its
  target and every count is exact if and only if no commit finds the record it was
  promised replaced or removed (`CountsExactIff`).
- Two mounts of one bridge session can be live at once
  (`CancelledMountOverlapsNext`): in a run this happens if and only if the driver
  makes a mount while another one of the session, given up by its handler, has not
  been unmounted (`OneLiveIff`).
- RegisterTarget does not shorten a long host, so under a normalised suffix the
  name it registers can be asked for if and only if its first label has at most 63
  bytes and its encoding at most 255 (`AssignedNameIsQueryableIff`); a host of 64
  letters fails (`LongHostIsNotQueryable`).
- InsertBeforeTarget takes a "--" in front of the target for the end of the
  options even when it is the value of an option. Inserted options then change
  the target; otherwise they never do (`InsertKeepsTargetIff`). The probe has the
  same condition (`ProbeIgnoresInsertedIff`).
- CleanSSHArgs looks at every word, the remote command included, and at option
  values. It leaves a word alone, whatever follows, if and only if no pass acts on
  it (`InertIff`), and cleaning twice is cleaning once on every list whose option
  values are such words where a pass meets them (`CleanIsIdempotent`). With a value
  like "-N" or "-S" the second cleaning can even drop the target
  (`CleaningTwiceCanDiffer`).
- The probe does not know that "-Q" takes a value, unlike Parse: it ends with
  Parse's target if and only if there is no bare "-Q" or the value of the first
  one is that target (`ProbeEndsWithTargetIff`).
- A mounted working directory keeps its absolute path if and only if the exported
  root is not "/" and the path has neither NUL nor backslash
  (`CwdKeepsItsHierarchy`).
- `send` does not close the peer when the write of a request or a cancel fails.
  The reader stays in step with the writer if and only if nothing follows a frame
  that was cut inside (`ReadsEveryStartIff`): behind any such cut reading stops or
  swallows the first bytes of the next frame (`CutMisaligns`).

## Model

| member | source | states |
|---|---|---|
| `PeerCalls.Peer.NextId` | internal/remotefs/peer.go:226 | the next ID is the last plus two |
| `PeerCalls.Peer.Register` | internal/remotefs/peer.go:229-232 | the call is pending with an empty one-element channel |
| `PeerCalls.Peer.Deregister` | internal/remotefs/peer.go:233-237 | the call is no longer pending |
| `PeerCalls.Peer.Deliver` | internal/remotefs/peer.go:289-298 | a response goes into the channel unless it is full |
| `PeerCalls.Peer.Admit` | internal/remotefs/peer.go:314-320 | a request gets one of 64 handler slots, or is refused |
| `PeerCalls.Peer.Exit` | internal/remotefs/peer.go:322-328 | a handler gives back its slot and its table entry |
| `PeerCalls.AnswersAreCorrelated` | internal/remotefs/peer.go:217-268 | over every schedule of two peers, with cancels, late responses, refusals and close, a response with ID i that is on the wire, read or delivered answers the request the receiver issued as i; no caller gets another's answer |
| `PeerCalls.ResponseReachesCaller` | internal/remotefs/peer.go:289-298 | after any schedule, a response the read loop holds for a waiting call is received by it: in the read loop's next step and the call's next the call leaves with exactly that response |
| `PeerCalls.QuietCallIsAnswered` | internal/remotefs/peer.go:217-349 | in any reachable state of two open peers with nothing under way, a call on either side for which there is room returns its own answer, and both peers are otherwise as before, table entries and slots included |
| `PeerCalls.BusyIsRefused` | internal/remotefs/peer.go:340-345 | a 65th request starts no handler and is answered with a response of its ID |
| `PeerCalls.EndedCallCancels` | internal/remotefs/peer.go:253-261 | a waiting call whose context ends puts a cancel of its ID on the wire and leaves without an answer |
| `PeerCalls.CancelEndsHandler` | internal/remotefs/peer.go:299-305 | a cancel frame reaches the active handler of its ID, which then ends without a response |
| `PeerCalls.InterruptEndsHandler` | internal/remotefs/peer.go:329-332 | so does a handler whose own context has ended |
| `PeerCalls.CloseEndsCalls` | internal/remotefs/peer.go:478-508 | close cancels every handler it finds active, lets no frame out afterwards and lets every waiting call leave |
| `PeerCalls.CallsAreAnsweredOnce` | internal/remotefs/peer.go:281-349 | at most one response per call is ever under way, never after one was delivered, and its channel has room for it |
| `PeerCalls.InFlightIsBounded` | internal/remotefs/peer.go:133-134 | at most 64 calls are pending and 64 handlers active per peer; every active entry is a running handler |
| `PeerCalls.IdsAreSplitAndFresh` | internal/remotefs/peer.go:137-140 | connect-side IDs are odd, accept-side even, none is issued twice, and no request replaces a running handler |
| `PeerMounts.MountTable.Record` | internal/remotefs/peer.go:375-388 | a created mount is recorded unless the peer closed or the request was cancelled |
| `PeerMounts.MountTable.Forget` | internal/remotefs/peer.go:307-309 | a released or cancelled mount leaves the table |
| `PeerMounts.MountTable.CloseAll` | internal/remotefs/peer.go:499-506 | close takes every mount and lets none in afterwards |
| `PeerMounts.CreateMounts` | internal/remotefs/peer.go:366-388 | from any state a create mounts and records; of a cancelled request, or on a closed peer, it unmounts again and records nothing |
| `PeerMounts.InterruptedCreateUndoes` | internal/remotefs/peer.go:375-386 | the same when the request is cancelled after OnMount |
| `PeerMounts.ReleaseUnmounts` | internal/remotefs/peer.go:390-400 | a release unmounts the mount and takes it out of the table |
| `PeerMounts.CancelUnmounts` | internal/remotefs/peer.go:299-313 | a cancel frame with a mount cancels the handler, forgets the mount and unmounts it |
| `PeerMounts.ConservedStepIff` | internal/remotefs/peer.go:366-400 | from any state where every mount is accounted for, one step loses a mount if and only if it is the deletion at the end of a release whose ID is live again with nothing else covering it |
| `PeerMounts.ConservedIff` | internal/remotefs/peer.go:366-400 | over every schedule, every mount OnMount made is always in the table, held by a handler that has not recorded it, or covered by a pending OnUnmount, if and only if no release makes such a deletion |
| `PeerMounts.MountsAreConserved` | internal/remotefs/peer.go:390-400 | while no OnMount succeeds between the OnUnmount of a release of its ID and the deletion, nothing is lost; every other overlap is harmless |
| `PeerMounts.GapLosesMount` | internal/remotefs/peer.go:366-400 | from any state with a create about to call OnMount in that gap, the table open and the ID not covered otherwise, recording before the deletion loses the mount |
| `PeerMounts.CloseLeavesNoMount` | internal/remotefs/peer.go:478-519 | once close has been called and all calls have returned, the table is closed and empty, and no mount is left unless a release made such a deletion |
| `PeerMounts.OverlappingReleaseLosesMount` | internal/remotefs/peer.go:390-400 | a run in which an overlapping create and release leave a mount that nothing owns |
| `Frames.DecodesWhole` | internal/remotefs/protocol.go:48-116 | reading what was written gives the frame back and stops exactly at its end, whatever follows |
| `Frames.DecodesCut` | internal/remotefs/protocol.go:88-116 | a frame cut anywhere before its end never decodes, and which cuts look like a closed stream |
| `Frames.StreamDecodes` | internal/remotefs/protocol.go:48-116 | for any sequence of writes, failed ones included, in which nothing follows a frame cut inside, the reader gets exactly the frames that went out whole, in order, then the end of the stream or an unexpected end |
| `Frames.CutMisaligns` | internal/remotefs/protocol.go:88-116 | whatever follows a frame cut anywhere inside, reading stops there or takes the first bytes of what follows for the rest of that frame |
| `Frames.CutInDataIsFilled` | internal/remotefs/protocol.go:110-115 | a frame cut inside its data is delivered with the bytes that follow in place of the missing ones, although its write failed |
| `Frames.ReadsEveryStartIff` | internal/remotefs/peer.go:238-240 | the reader reaches the start of every frame with bytes on the stream if and only if nothing follows a frame cut inside |
| `Frames.WholeAfterCutIsLost` | internal/remotefs/peer.go:238-240 | an instance: a frame written after four bytes of another, longer one never arrives although its write succeeds |
| `Frames.EveryResponseIsAnswered` | internal/remotefs/peer.go:351-364 | every response reaches the reader as one frame with its ID, unchanged if it fits and as a too-large error otherwise; refusing one loses no other |
| `Frames.Conn.WriteAll` | internal/remotefs/protocol.go:74-86 | under any short writes, what reaches the stream is a prefix of the data, and all of it on success |
| `Frames.Conn.ReadFull` | internal/remotefs/protocol.go:88-92 | under any chunking exactly n bytes are taken, or the error says whether any arrived |
| `Frames.Conn.ReadWireFrame` | internal/remotefs/protocol.go:88-116 | reads what Decoded says of the bytes that have arrived, and leaves the rest |
| `Frames.Peer.WriteWireFrame` | internal/remotefs/protocol.go:48-72 | an oversized frame writes nothing; otherwise the whole encoding, or a prefix of it on failure |
| `Frames.Peer.SendResponse` | internal/remotefs/peer.go:351-364 | either the response or its stand-in goes out whole, or the peer closes |
| `Locald.LocalServer.AllocateLoopbackIP` | internal/locald/server_target.go:91-103 | the least pool address that no target listens on, none when all are taken |
| `Locald.LocalServer.CreateTarget` | internal/locald/server_target.go:62-88 | the second critical section of ensureTarget: finds the target or creates it with a free address and a new name |
| `Locald.LocalServer.EnsureDomain` | internal/locald/server_target.go:150-166 | finds or starts the manager of a suffix and address |
| `Locald.LocalServer.CommitSession` | internal/locald/server_session.go:53-74 | commits a lease and counts it, unless draining or already there |
| `Locald.LocalServer.ReleaseSession` | internal/locald/server_session.go:119-132 | takes the lease out and uncounts it |
| `Locald.LocalServer.CleanupIdleTarget` | internal/locald/server_session.go:146-157 | drops a target without leases and says which name to unregister |
| `Locald.LocalServer.ReleaseSessionNow` | internal/locald/server_session.go:174-195 | takes the lease out and its target with the last one |
| `Locald.AddressesAndNamesSound` | internal/locald/server_target.go:62-103 | over every interleaving each live target's name resolves, as dotted decimal, to the address it listens on, no two targets share an address or a name of one DNS manager, and a name waiting to be unregistered belongs to no live target |
| `Locald.PoolBoundsTargets` | internal/locald/server_target.go:91-103 | at most 64 targets exist |
| `Locald.LateUnregisterIsHarmless` | internal/locald/server_session.go:158-163 | the deferred Unregister removes its own record and leaves every live target resolving to the address it listens on |
| `Locald.OpenServes` | internal/locald/server_session.go:41-75 | in any reachable state of a daemon that is not draining, an open with a complete request and a new lease, for a target that exists or for which an address is free, ends with the lease held and the target reached under its name |
| `Locald.StepwiseIsWhole` | internal/locald/server_session.go:41-75 | the separate critical sections of an open, when nothing falls in between, amount to an open taken as one step |
| `Locald.LastLeaseEnds` | internal/locald/server_session.go:118-167 | with exact counts the target of a key outlives its last release until the timer, which takes it away; its name then has no record, and the daemon drains exactly if nothing else is left |
| `Locald.LastLeaseEndsNow` | internal/locald/server_session.go:169-205 | without a grace period the same happens with the release |
| `Locald.StartupDrainsIff` | internal/locald/locald.go:227-244 | the startup timer drains a daemon exactly when it has no lease |
| `Locald.CountsNeverExceedLeases` | internal/locald/server_session.go:118-205 | however opens are split, a target's count never exceeds the number of its leases |
| `Locald.CommitExactIffCurrent` | internal/locald/server_session.go:53-74 | one commit keeps exact counts exact if and only if the record it was given is the key's current target |
| `Locald.ExactStepIff` | internal/locald/server_session.go:41-205 | one step of any kind makes exact counts wrong if and only if it is a successful commit whose record is stale |
| `Locald.CountsExactIff` | internal/locald/server_session.go:41-205 | over every schedule, opens split or not: always every lease's target exists and every count is the number of leases with its key, if and only if no commit is stale |
| `Locald.LeasedTargetStays` | internal/locald/server_session.go:141-205 | in such a run no step takes away or replaces the target of a key that has a lease |
| `Locald.DropExact` | internal/locald/server_session.go:141-167 | with exact counts no cleanup removes a target that has a lease |
| `Locald.WholeOpensCountExactly` | internal/locald/server_session.go:41-75 | with an open taken as one step no commit is stale, so every lease's target exists and every count is the number of leases with its key |
| `Locald.DrainingMeansNoLeases` | internal/locald/locald.go:227-244 | without an explicit shutdown request, draining implies there are no leases, from then on |
| `Locald.HandoffKeepsTargetIff` | internal/locald/server_session.go:118-167 | over every schedule, a key keeps its target with its name and address, however many leases come and go, if and only if none of its grace timers fires while the count is zero |
| `Locald.HandoverOutlivesTimers` | internal/locald/server_session.go:118-205 | with an open taken as one step, the target outlives the timers of old leases if and only if some lease is held on it whenever one fires |
| `Locald.SplitOpenLosesTarget` | internal/locald/server_session.go:41-75 | a run in which a timer between the halves of an open leaves a lease without its target |
| `Loopback.AddressInjective` | internal/loopback/pool.go:19-24 | different pool slots have different addresses |
| `Loopback.AddressOfPool` | internal/loopback/pool.go:19-24 | the pool is 127.64.0.1 to 127.64.0.64 |
| `Domain.TargetPrefix` | internal/domain/domain.go:165-186 | the loop computes the dashed, trimmed form of the target |
| `Domain.PrefixJoinsRuns` | internal/domain/domain.go:165-186 | the prefix is the target's maximal runs of letters and digits, in lower case, joined by single dashes, or "host" when it has none |
| `Domain.PrefixIsLabelShaped` | internal/domain/domain.go:165-186 | for every target the prefix consists of letters, digits and single inner dashes; its length is not limited |
| `Domain.KeysDistinct` | internal/domain/domain.go:93-99 | the candidates of a prefix are pairwise distinct after normalisation, for any suffix |
| `Domain.TakenFitsTable` | internal/domain/domain.go:93-105 | if the first k candidates are taken then k is at most the number of records |
| `Domain.FreeFrom` | internal/domain/domain.go:93-105 | the least free number exists for every finite table |
| `Domain.AssignIsFresh` | internal/domain/domain.go:92-104 | the assigned name was free, now resolves to the target's address, and no other record changes |
| `Domain.Manager.Register` | internal/domain/domain.go:62-78 | adds the record unless the name is taken or the address is not IPv4 |
| `Domain.Manager.RegisterTarget` | internal/domain/domain.go:80-106 | terminates, and registers the target under its least free name |
| `Domain.Manager.Unregister` | internal/domain/domain.go:108-112 | removes exactly that record |
| `Dns.ParseQName` | internal/domain/domain.go:218-238 | terminates on every message and agrees with the recursive scan, errors included |
| `Dns.ScanInvertsEncode` | internal/domain/domain.go:218-238 | scanning the encoding of any labels of 1 to 63 bytes gives them back, wherever they stand |
| `Dns.ScanAcceptsOnlyEncodings` | internal/domain/domain.go:218-238 | whatever the scan accepts is the encoding of the labels it returns |
| `Dns.BuildDNSResponse` | internal/domain/domain.go:188-216 | the response bytes, with every index in range |
| `Dns.ResponseDecodes` | internal/domain/domain.go:188-216 | read by an independent decoder that follows compression pointers, the response has the query's ID and question, and one A record with the registered address exactly when the name was found and QTYPE is 1 or 255; otherwise none, and a name error when it was not found |
| `Dns.ServeAnswers` | internal/domain/domain.go:135-159 | for every table and one-question query, in terms of the records alone: an A or ANY query for a registered name is answered with its address, any other type with no record and no error, an unregistered name with a name error |
| `Dns.ServeIgnores` | internal/domain/domain.go:141-147 | a datagram gets a response exactly when it holds an uncompressed name with room for a type and a class behind it |
| `Dns.RegisteredTargetResolves` | internal/domain/domain.go:135-159 | every well-formed A or ANY query that spells the name RegisterTarget returned is answered with the target's address |
| `Dns.QueryableIff` | internal/domain/domain.go:165-186 | a candidate under a normalised suffix is spelled by some query name within the limits of section 3.1 of RFC 1035 if and only if its first label has at most 63 bytes and the whole at most 255; under any suffix both directions but the total length |
| `Dns.AssignedNameIsQueryableIff` | internal/domain/domain.go:80-106 | the name a target is assigned can be asked for under a normalised suffix if and only if it keeps both limits, for every target and table |
| `Dns.LongHostIsNotQueryable` | internal/domain/domain.go:165-186 | a host of 64 or more letters "a" is registered under a name that no query can carry |
| `ForwardManager.Manager.BeginEnsure` | internal/forward/forward.go:53-62 | the first critical section of Ensure |
| `ForwardManager.Manager.CommitEnsure` | internal/forward/forward.go:101-114 | the second: stopped, lost the race, or registered |
| `ForwardManager.Manager.TakeForRemove` | internal/forward/forward.go:128-131 | Remove takes the entry out |
| `ForwardManager.Manager.TakeForStop` | internal/forward/forward.go:138-149 | the first Stop takes all entries |
| `ForwardManager.EnsureForwards` | internal/forward/forward.go:52-115 | from any state an Ensure for a free port and address makes one forward to the host asked for, live and listed, and returns it |
| `ForwardManager.EnsureReturnsListed` | internal/forward/forward.go:58-62 | an Ensure for a listed port returns its forward and makes none |
| `ForwardManager.FailedEnsureReturnsListed` | internal/forward/forward.go:77-84 | one whose control operation fails returns the forward listed meanwhile, if any |
| `ForwardManager.LoserGivesWay` | internal/forward/forward.go:107-111 | one that finds its port listed returns that forward, cancels nothing and closes its own listener |
| `ForwardManager.RemoveForwards` | internal/forward/forward.go:127-135 | a Remove of a live forward takes it out of the table and of the operating system, with a cancel if it is a control forward |
| `ForwardManager.NoLeakStepIff` | internal/forward/forward.go:101-111 | one step leaks a forward if and only if it is the commit of an Ensure whose live control forward is not the winner and is held by nobody else |
| `ForwardManager.NoForwardLeaksIff` | internal/forward/forward.go:52-115 | over every schedule, whatever control paths, listen addresses and remote hosts the calls use, each live forward is always registered, held by an Ensure before its commit, or about to be dropped, if and only if no such commit happens |
| `ForwardManager.NoForwardLeaks` | internal/forward/forward.go:64-111 | with one control path, and one listen address and remote host for each port, no such commit happens |
| `ForwardManager.StopIsFinal` | internal/forward/forward.go:137-149 | after the first step of any Stop, whatever follows, the manager is stopped and lists nothing |
| `ForwardManager.EnsureAfterStop` | internal/forward/forward.go:53-57 | an Ensure that begins then fails and opens nothing, and one that opened before drops what it opened |
| `ForwardManager.StopLeavesNothing` | internal/forward/forward.go:137-175 | once a Stop has been called and every call has returned, no forward is live, unless such a commit happened |
| `ForwardManager.RacingEnsuresCancelNothing` | internal/forward/forward.go:107-111 | in runs of Ensure calls alone no cancel is issued and every registered forward is live |
| `ForwardManager.TwoForwardsLeak` | internal/forward/forward.go:67-111 | for any two different control forwards of a port, a run that ends with every call returned and one of them live and owned by nothing |
| `ForwardManager.TransportChangeLeaks` | internal/forward/forward.go:67-111 | a run in which the control path moves between two Ensure calls, from any one to any other, ends with a live forward that nothing owns |
| `ForwardManager.SpecChangeLeaks` | internal/forward/forward.go:76-84 | the same with one control path throughout, for any two remote hosts that differ after normalisation and any two different listen addresses |
| `Bridge.Server.AddClient` | internal/bridge/bridge.go:480-495 | adds the client unless draining or its session has one |
| `Bridge.Server.RemoveClient` | internal/bridge/bridge.go:497-517 | removes the client and takes its session's peer, backends and offers |
| `Bridge.Server.Begin` | internal/bridge/remotefs.go:316-333 | the first critical section of an export or an offer: done, wait, or begun |
| `Bridge.Server.Finish` | internal/bridge/remotefs.go:335-347 | ends the flight and gives the channel to close |
| `Bridge.Server.StoreExport` | internal/bridge/remotefs.go:362-381 | stores the backend unless the peer changed or one is there |
| `Bridge.Server.StoreOffer` | internal/bridge/remotefs.go:429-440 | records the offer unless the peer changed |
| `Bridge.Server.Reserve` | internal/bridge/remotefs.go:77-84 | reserves the session for a connecting peer |
| `Bridge.Server.Attach` | internal/bridge/remotefs.go:107-121 | registers the peer unless draining, taken or without a client |
| `Bridge.Server.Detach` | internal/bridge/remotefs.go:124-128 | forgets the peer if it is still the session's |
| `Bridge.Server.Accept` | internal/bridge/bridge.go:198-206 | counts a connection unless draining |
| `Bridge.Server.Drain` | internal/bridge/bridge.go:262-267 | starts draining when no client and no connection is left |
| `Bridge.ExportIsStoredIff` | internal/bridge/remotefs.go:362-383 | in any reachable state an opened backend is stored exactly when the session's peer is still the one it was opened for, and the flight then ends; otherwise nothing is stored and the backend is unregistered and closed |
| `Bridge.OfferIsRecordedIff` | internal/bridge/remotefs.go:429-440 | an offer is recorded under the same condition |
| `Bridge.DoneIsFound` | internal/bridge/remotefs.go:314-320 | a call for what is stored or recorded returns at once |
| `Bridge.ExportStores` | internal/bridge/remotefs.go:314-384 | from any state an export through the attached open peer alone leads to one backend, registered and stored, with its channel closed once |
| `Bridge.OfferRecords` | internal/bridge/remotefs.go:386-442 | an offer likewise leads to the recorded mount |
| `Bridge.ConnectionAttaches` | internal/bridge/remotefs.go:64-121 | a connection for a session with a client and without a peer leads to that peer being attached |
| `Bridge.WaiterLooksAgain` | internal/bridge/remotefs.go:321-326 | a call that waited for a flight looks again when it has ended, and returns if that one succeeded or begins its own |
| `Bridge.RemovalTakesSession` | internal/bridge/bridge.go:497-517 | removing a client takes its session's peer, backends and offers out of the tables, hands peer and backends to the remover, and touches no other session |
| `Bridge.TablesStaySound` | internal/bridge/bridge.go:480-532 | session IDs of clients are unique; peers, backends and offers exist only for sessions with a client; draining implies no clients and no connections, from then on |
| `Bridge.FlightsAreSingle` | internal/bridge/remotefs.go:314-384 | at most one flight per session and mount; each wait channel is closed exactly once, on every path; while an export runs nothing is stored under its key |
| `Bridge.WaitersAreWoken` | internal/bridge/remotefs.go:321-326 | what a waiter waits on is closed, or a flight in progress will close it |
| `Bridge.ExistingIsUnreachable` | internal/bridge/remotefs.go:373-379 | the branch that finds a backend already stored is never taken |
| `Bridge.BackendsNeverLeak` | internal/bridge/remotefs.go:349-383 | every backend opened is closed, stored for a session with a client, or held by a call that will store or close it |
| `Bridge.IdleServerHasNoBackends` | internal/bridge/bridge.go:497-532 | with no call running and no client left every backend has been closed |
| `BridgeMounts.Server.Reserve` | internal/bridge/remotefs.go:146-152 | one mount or reservation per session |
| `BridgeMounts.Server.Abandon` | internal/bridge/remotefs.go:168-171 | a failed mount ends the reservation |
| `BridgeMounts.Server.Record` | internal/bridge/remotefs.go:175-194 | the mount is recorded unless draining, closed or cancelled; the reservation ends either way |
| `BridgeMounts.Server.BeginUnmount` | internal/bridge/remotefs.go:213-234 | busy, nothing to do, wait for a removal, or begin one |
| `BridgeMounts.Server.EndUnmount` | internal/bridge/remotefs.go:237-244 | a successful removal takes the mount out; the removal ends either way |
| `BridgeMounts.CreateRecords` | internal/bridge/remotefs.go:137-196 | from any state a mount.create for a session without a mount makes one mount and records it, unless draining |
| `BridgeMounts.CreateIsRefused` | internal/bridge/remotefs.go:146-151 | for a session that has one, or whose mount is being made, it changes nothing |
| `BridgeMounts.RemoveUnmounts` | internal/bridge/remotefs.go:211-250 | a removal of a recorded mount unmounts it and takes it out; if the driver fails it stays recorded |
| `BridgeMounts.WaiterLooksAgain` | internal/bridge/remotefs.go:222-230 | who waited for a removal looks again when it has ended, and removes the mount itself if it is still there |
| `BridgeMounts.EveryMountIsAccountedFor` | internal/bridge/remotefs.go:137-250 | no mount is unmounted twice, and once all handlers have returned each is in the table, was unmounted exactly once, or is one whose only Unmount, by a race loser, failed |
| `BridgeMounts.SessionsAreExclusive` | internal/bridge/remotefs.go:146-234 | per session one reservation or one mount, one removal at a time, and no waiter is stranded |
| `BridgeMounts.DrainingRecordsNothing` | internal/bridge/remotefs.go:183-190 | once draining, no mount is recorded |
| `BridgeMounts.CancelledMountOverlapsNext` | internal/bridge/remotefs.go:176-186 | a run in which two mounts of one session are live |
| `BridgeMounts.OneMountNotGivenUp` | internal/bridge/remotefs.go:137-195 | of two live mounts of a session one has been given up: its handler is about to unmount it or has failed to |
| `BridgeMounts.OneLiveStepIff` | internal/bridge/remotefs.go:146-186 | one step makes a second live mount of a session if and only if it is the driver making one while a mount of the session that was given up is still there |
| `BridgeMounts.OneLiveIff` | internal/bridge/remotefs.go:137-195 | over every schedule no session ever has two live mounts, if and only if no such step happens |
| `BridgeMounts.RecordedIsRemovable` | internal/bridge/remotefs.go:211-250 | a recorded mount stays recorded until it has been unmounted, over every schedule, and until then a request to remove it is never refused as busy and never finds nothing |
| `MountManager.RemoteMountManager.BeginMount` | internal/cli/ssh_bridge_mount.go:91-107 | the first critical section of OnMount |
| `MountManager.RemoteMountManager.Record` | internal/cli/ssh_bridge_mount.go:124-142 | the second: lost the race, closing or cancelled, or recorded |
| `MountManager.RemoteMountManager.Take` | internal/cli/ssh_bridge_mount.go:147-154 | OnUnmount takes the entry out |
| `MountManager.RemoteMountManager.BeginExecute` | internal/cli/ssh_bridge_mount.go:172-188 | Execute counts itself unless closing, failed or without a mount |
| `MountManager.RemoteMountManager.BeginClose` | internal/cli/ssh_bridge_mount.go:208-214 | only the first Close goes on |
| `MountManager.RemoteMountManager.TakeAll` | internal/cli/ssh_bridge_mount.go:216-222 | Close takes what is left |
| `MountManager.MountRecords` | internal/cli/ssh_bridge_mount.go:87-144 | from any state an OnMount of a new ID on an open manager records the driver's mount and returns it, or unmounts it and records nothing when the request is cancelled |
| `MountManager.MountReturnsListed` | internal/cli/ssh_bridge_mount.go:98-104 | an OnMount of a listed ID returns its mount and makes none |
| `MountManager.LoserReturnsWinner` | internal/cli/ssh_bridge_mount.go:124-132 | an OnMount that lost a race unmounts its own mount and returns the winner's |
| `MountManager.UnmountRemoves` | internal/cli/ssh_bridge_mount.go:146-163 | an OnUnmount takes the mount out and unmounts it |
| `MountManager.ExecuteIsCounted` | internal/cli/ssh_bridge_mount.go:172-190 | an Execute is counted while it runs, exactly when its mount is listed on an open manager |
| `MountManager.CloseTakesAll` | internal/cli/ssh_bridge_mount.go:207-242 | a Close waits while a call is counted; with none it empties the table and unmounts what it took |
| `MountManager.MountsConserved` | internal/cli/ssh_bridge_mount.go:87-163 | each mount the driver returned is in exactly one place: the table, one call's hands, or unmounted exactly once |
| `MountManager.ClosingIsFinal` | internal/cli/ssh_bridge_mount.go:207-215 | from the first step of any Close on the manager is closing, its counter never grows and no OnMount or Execute that starts succeeds |
| `MountManager.CounterIsExact` | internal/cli/ssh_bridge_mount.go:106-108 | the active counter is the number of OnMount and Execute calls between Add and Done |
| `MountManager.CloseUnmountsEverythingOnce` | internal/cli/ssh_bridge_mount.go:207-242 | once Close has been called and all calls have returned, the table is empty and each mount was unmounted exactly once |
| `Ports.Server.ApplyPortScan` | internal/bridge/ports.go:46-84 | the loops compute the next view; the outputs are the set differences of the views, in increasing order |
| `Ports.Server.CurrentPorts` | internal/bridge/ports.go:86-95 | the listed ports in increasing order |
| `Ports.ViewIsRecentUnion` | internal/bridge/ports.go:58-80 | after any scans the listed ports are the union of the last two (of any number of tolerated misses) |
| `Ports.EventsExactly` | internal/bridge/ports.go:58-80 | a port is new, or gone, exactly for these patterns of the last three scans |
| `Ports.ReplayRebuildsView` | internal/bridge/ports.go:36-43 | replaying the broadcast events rebuilds the view, and each tells a listener something new |
| `Ports.EventsAlternate` | internal/bridge/ports.go:36-43 | the events about one port alternate observed, gone, and their parity says whether it is listed |
| `SshCompat.Parse` | internal/sshcompat/parse.go:21-59 | both loops compute ParseOf |
| `SshCompat.InsertBeforeTarget` | internal/sshcompat/parse.go:72-85 | builds the spliced list |
| `SshCompat.FindSkipsItems` | internal/sshcompat/parse.go:31-57 | well-formed options in front of any words only shift where the target is found |
| `SshCompat.NoWrapIff` | internal/sshcompat/parse.go:22-30 | the wrapping flag is found and taken out wherever it stands, and nothing else is |
| `SshCompat.InfoModeIff` | internal/sshcompat/parse.go:31-57 | on well-formed options Parse sees the information mode exactly when one of them is -V, -G or a -Q |
| `SshCompat.InsertKeepsTarget` | internal/sshcompat/parse.go:72-85 | inserting well-formed options keeps the target and the remote command of every list whose "--" ends the options |
| `SshCompat.InsertKeepsTargetIff` | internal/sshcompat/parse.go:76-79 | that condition is exact; otherwise the first inserted value becomes the target |
| `SshControl.IsTTYRequestFlag` | internal/forward/control.go:132-142 | true exactly for "-t", "-tt" and so on |
| `SshControl.StripControlSSHOptions` | internal/forward/control.go:43-69 | the first pass computes StripControl |
| `SshControl.StripAuxiliarySSHOptions` | internal/forward/control.go:71-89 | the second pass computes StripAuxiliary |
| `SshControl.StripForwardingConfigOptions` | internal/forward/control.go:91-111 | the third pass computes StripForwarding |
| `SshControl.CleanSSHArgs` | internal/forward/control.go:39-41 | the passes composed |
| `SshControl.CleanIsFilter` | internal/forward/control.go:39-111 | on options, with values no pass acts on, followed by anything the three passes are one filter on options, order kept, and the rest is cleaned separately |
| `SshControl.CleanCommandLine` | internal/forward/control.go:39-111 | a cleaned command line has the kept options, the same "--" and target, and the cleaned remote command |
| `SshControl.InertIff` | internal/forward/control.go:39-142 | cleaning keeps a word and goes on behind it, whatever follows, if and only if it is none of the words the passes look for |
| `SshControl.CleanPieces` | internal/forward/control.go:39-111 | on any list of such options and such words, in any order and the remote command included, cleaning drops the unwanted options and nothing else |
| `SshControl.CleanIsIdempotent` | internal/forward/control.go:39-41 | on all those lists cleaning twice is cleaning once |
| `SshControl.CleaningTwiceCanDiffer` | internal/forward/control.go:43-89 | for every host, a list with option values that start with "-" on which the second cleaning drops more, the host included |
| `SshControl.CleanKeepsTarget` | internal/forward/control.go:12-21 | Parse finds the same target after cleaning, and the same remote command if it has no options |
| `SshControl.ControlOperationArgs` | internal/forward/control.go:12-21 | cleaned, parsed, and the operation's options inserted |
| `SshControl.OperationReachesTarget` | internal/forward/control.go:12-21 | the arguments of a control operation are the kept options, then the operation's, then the same target |
| `Identity.ConfigProbeArgs` | internal/identity/identity.go:156-203 | the loop computes Probe |
| `Identity.ScannersAgree` | internal/identity/identity.go:156-203 | without a bare "-Q", whenever Parse's scan finds a target the probe ends with it |
| `Identity.ProbeFindsParsedTarget` | internal/sshcompat/parse.go:21-59 | the same for Parse itself, on lists without "--no-wrap" |
| `Identity.ProbeEndsWithTargetIff` | internal/identity/identity.go:156-203 | on every well-formed command line the probe ends with the value of the first bare "-Q", else with the target; so it ends with Parse's target if and only if there is no such option or its value is that target |
| `Identity.ProbeIsSelectorsAndTarget` | internal/identity/identity.go:150-203 | without a bare "-Q" the probe of a well-formed command line is exactly its configuration selectors in order, without flags, actions and control settings, and then the target |
| `Identity.ProbeIgnoresInserted` | internal/identity/identity.go:156-203 | inserting control options before the target leaves the probe unchanged when the "--" ends the options |
| `Identity.ProbeIgnoresInsertedIff` | internal/sshcompat/parse.go:76-79 | that condition is exact |
| `Layout.CleanIsIdempotent` | internal/remotefs/layout.go:92 | a cleaned path is a fixed point in normal form |
| `Layout.PathWithinIff` | internal/remotefs/layout.go:46-64 | PathWithin holds exactly when the elements of the root begin those of the path |
| `Layout.AcceptedIffStaysBelow` | internal/remotefs/layout.go:88-97 | a hierarchy is accepted exactly when it has neither NUL nor backslash, is relative, and leads strictly below every directory it can be resolved against |
| `Layout.AcceptedHierarchyIsSound` | internal/remotefs/layout.go:88-106 | an accepted hierarchy is a fixed point, resolves below any base to where the unclean one leads, and PathWithin agrees |
| `Layout.WorkspaceStaysWithin` | internal/remotefs/layout.go:108-121 | a relative directory is accepted exactly when it has neither NUL nor backslash, is relative and leads to or below every directory it can be resolved against; the result is where it leads |
| `Layout.RootAndRelativeGiveCwd` | internal/remotefs/layout.go:23-44 | the exported root joined with the relative directory is the cleaned cwd; the root is the home directory if the cwd is within it, else the cwd itself |
| `Layout.CwdKeepsItsHierarchy` | internal/remotefs/layout.go:66-121 | below any base the mounted cwd is at base followed by its own path if and only if the root is not "/" and the path has neither NUL nor backslash |
| `Layout.BaseFollowedByCwd` | internal/remotefs/layout.go:100-121 | as strings this is the base followed by the cwd |
| `Aliases.Collector.CollectAliases` | internal/sshconfig/aliases.go:49-70 | terminates on cyclic includes; visits only files reached from the path, and on success all of them with their aliases |
| `Aliases.Collector.CollectAliasesFile` | internal/sshconfig/aliases.go:72-122 | the same for one file |
| `Aliases.IncludeResolves` | internal/sshconfig/aliases.go:92-122 | an Include argument is resolved below the home directory, as an absolute path, or from the directory of the file it stands in |
| `Aliases.VisitedIsReached` | internal/sshconfig/aliases.go:49-122 | a traversal that ends well has visited exactly the reachable files and gathered exactly their aliases |
| `Aliases.Aliases` | internal/sshconfig/aliases.go:20-35 | fails exactly when something to be read cannot be; otherwise lists exactly the concrete host patterns of all reachable files, sorted and without duplicates |
| `Aliases.NamesMeans` | internal/sshconfig/aliases.go:93-103 | an alias of a path is a non-empty word without *, ? and ! in a Host block of some file reached from it |
| `Aliases.HasAlias` | internal/sshconfig/aliases.go:37-47 | says whether some reachable file names the target |
| `Aliases.ListIsDetermined` | internal/sshconfig/aliases.go:30-34 | the sorted list does not depend on the order of the traversal |

## Left out

- Sockets, timers, contexts, processes, FUSE, os.Root, flock, smux, JSON and YAML codecs, SHA-256 and UUIDs: abstract actions, parameters or nondeterministic steps.
- Command-line dispatch, help text, Docker, bootstrap and shell generation, the npm launcher, install and process locks, shell quoting, errno tables, open-flag bits: only easier members.
- 64-bit wrap-around of request IDs: IDs are unbounded.
- PeerCalls.Invariant: a failed frame write puts nothing on the wire there; Frames models writes cut in the middle.
- PeerCalls.Peer.Admit: taking a slot and inserting the table entry are one step, and so are deleting the entry and giving the slot back in PeerCalls.Peer.Exit; each pair commutes with what others can do in between.
- PeerMounts.ConservedIff: assumes that OnUnmount succeeds. A bridge server never refuses to unmount a recorded mount (BridgeMounts.RecordedIsRemovable); what remains is a driver that fails, or a caller that stops waiting.
- ForwardManager.NoForwardLeaksIff: assumes that cancel operations succeed.
- MountManager.MountsConserved: counts Unmount calls; a failing Unmount is not retried by the code and not distinguished here.
- Locald.DrainingMeansNoLeases: runs without an explicit shutdown request, which drains at any time.
- Locald: forwarders (one manager per target key) are not part of the daemon's table; Forward.dfy models one manager.
- Locald: target records and mounts are numbered instead of being pointers, and a removed record is kept under its number, as the holder of a pointer keeps it.
- Bridge: the nested tables (session, then mount) are flat, and the exporting and offering tables are one table keyed by kind; the empty inner maps of the code are not modelled.
- Bridge: handleRequester's choice of a client, its retries and the frames it relays; requests enter as calls of ensureExportBackend and ensureClientMount for any session, mount and peer.
- Bridge: capabilities, tokens and heartbeat times; a client may be removed at any time.
- BridgeMounts: directories made and removed around a mount, and the cleanup of stale mounts at start.
- Ports: the host a port is announced with, and the snapshot sent to a new client.
- Aliases: the text of Host and Include lines is decoded by a parameter; aliases and include arguments arrive as words. A decoded file is the same whenever it is read.
- Dns.QueryableIff: suffixes that are not labels of 1 to 63 bytes themselves; and for one that ends in spaces or dots, which normalisation removes, the exact total length.
- Layout: Windows volumes and separators; path.Clean and filepath.Join, Abs and Rel are modelled by their documented effect, since their code is not part of the repository.
- Text is ASCII: Unicode case folding and spaces are not modelled, and sorting is by character.
- SshControl.CleanIsIdempotent: one way only. After a word that is not inert, what the second cleaning does depends on the words that the first one moved next to each other, at any distance, so a condition for single words cannot be exact for whole lists.
- ForwardManager: LocalForwardSpec's text; a spec is its listen address, port and normalised remote host.
- Identity: the two copies of the control-option test (forward and identity) are one predicate.
