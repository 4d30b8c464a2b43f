# wireproxy, verified

A Dafny model of the parts of wireproxy where state, concurrency or arithmetic
make the code hard to judge by reading it, with proofs of what those parts are
for.

- **UDP proxy tunnel** (`SessionTable`, `SessionProtocol`, `SessionProofs`,
  `SessionTheorems`, `SessionRelay`). The session table is a class with the
  source's critical sections. Callers of getOrCreateSession, the cleaner and one handler per
  session then interleave as a step system, one step per critical section or
  blocking call. The theorems hold in every state of every run: who is in the
  table, who owns each connection, what eviction means, how closing drains, and
  what becomes of every datagram in either direction.
- **Liveness monitor** (`Health`, `Probing`, `ProbingCode`, `ProbingTheorems`,
  `ProbingMargin`, `ProbingTightness`). Seeding, ping rounds, probes, pongs
  stored as whole seconds, and requests that copy records and look at them
  later, for any number of connections under one clock in nanoseconds; requests
  are served once all connections have been started, as in the daemon. The
  answers of `/readyz` are bounded against real silence, and the delays that a
  healthy link may have are determined exactly.
- **Validation and sandbox** (`Connections`, `ConnectionTheorems`,
  `ValidMeaning`, `Routing`, `Sandbox`, `Names`, `HostPort`, `Paths`,
  `Config`). The one-pass checker is proved equal to a declarative condition, to
  a pairwise one, and to one written out over the fields of the configuration.
  The route and the address of every connect are determined by the request. The
  Landlock rules are proved to be exactly the needed ones and to cover every
  listener and every direct connect.
- **Configuration file** (`Grouping`, `Emission`, `Sorting`). Sections are
  partitioned into connections and routines are emitted; the result is a stable
  partition followed by a stable sort, and the only such list.
- **IPC text** (`Ipc`, `Redaction`). The printer against an independent decoder
  of the line format of the WireGuard cross-platform interface (section
  "Configuration Protocol"), and the redaction of dumps.
- **Forwarding** (`Sni`, `Forwarding`). The peeked ClientHello is forwarded
  without loss. Handlers and forwarders interleave as a step system, one step
  per blocking call, close or `go` statement, and every accepted or dialled
  connection is accounted for in every state.

`Text` and `Wrappers` hold the string functions and result types that the other
modules share. Time, the network, dial results, the order in which Go ranges
over maps, regular expression matching and the case folding of host names are
inputs everywhere, so the theorems hold for all of them.

These results say exactly when the code has a property that it does not have
unconditionally. Redaction hides every secret, and is idempotent, exactly when
no line without `=` completes the name of a secret key (`RedactHidesIff`,
`RedactTwiceIff`, and `StrayLineExposes` for a family of inputs); dumps made of
key=value lines meet that condition. The IPC round trip works exactly for
configurations whose strings contain no newline (`RoundTripIff`). Healthy links
are never reported stale exactly when round, reply and check delays fit the
margin of every checked connection (`MarginIsExact`): with an interval of at
least one second they may add up to one second and one nanosecond.

Where the documentation and the code differ, the model follows the code: the
README calls `[Resolve]` global by default, but the code keeps it in the group
of sections without a connection name (`Grouping.KeyOf`).

## Model

| member | source | states |
|---|---|---|
| SessionTable.UdpTable.RemoveSession | udp_proxy.go:52-59 | keeps the table consistent, leaves the session closed, touches no other session and no successor under the same address |
| SessionTable.UdpTable.CleanerPass | udp_proxy.go:67-76 | in any iteration order, exactly the expired entries go and exactly their channels are closed |
| SessionTable.UdpTable.LookupSession | udp_proxy.go:85-91 | finds the open session of the source and stamps it, or changes nothing |
| SessionTable.UdpTable.NewSession | udp_proxy.go:98-102 | a session no entry of the table refers to, everything else unchanged |
| SessionTable.UdpTable.PublishSession | udp_proxy.go:104-113 | installs the session or yields to the one installed meanwhile; either way the result is the table's session for that source |
| SessionTable.UdpTable.TouchSession | udp_proxy.go:142-144 | stamps a session, whether or not it is still in the table |
| SessionTable.EvictOneMore | udp_proxy.go:70-74 | one iteration of the cleaner is eviction of one more key |
| SessionTable.EvictKeepsTable | udp_proxy.go:69-75 | eviction of any set of entries keeps table membership and open channels in step |
| SessionProofs.InvPublish | udp_proxy.go:104-113 | publishing a session keeps the whole ownership invariant |
| SessionProofs.InvDrop | udp_proxy.go:105-111 | closing the duplicate after a lost race keeps it |
| SessionProofs.InvEvict | udp_proxy.go:67-76 | so does a cleaner pass with a clock sampled before the lock |
| SessionProofs.InvRemove | udp_proxy.go:155-159 | so does a handler taking itself out of the table |
| SessionProofs.InvNext | udp_proxy.go:44-200 | every step of every participant keeps the invariant |
| SessionProofs.InvTrace | udp_proxy.go:44-200 | it holds in every state of every run |
| SessionTheorems.PublishedIffOpen | udp_proxy.go:44-59 | a published session is in the table, under its own address, exactly while its channel is open; no channel is closed twice and the already-closed branch is never taken |
| SessionTheorems.OneOpenSessionPerSource | udp_proxy.go:84-118 | two sessions of one source are never open together, although dialling happens without the lock |
| SessionTheorems.ConnsConserved | udp_proxy.go:93-159 | every successful dial is in flight, served, or closed, exactly one of the three, and closed at most once |
| SessionTheorems.OpenSessionIsServed | udp_proxy.go:112-117 | a session in the table has a live handler or a caller about to start it |
| SessionTheorems.QuiescentLeaksNothing | udp_proxy.go:93-159 | once callers have returned and handlers have finished, the table is empty and every connection closed |
| SessionTheorems.SessionsGrow | udp_proxy.go:44-200 | time, sessions, activity stamps and closed channels only move forward |
| SessionTheorems.StampIsRemembered | udp_proxy.go:84-187 | the activity stamp of a session never falls behind any step that stamps it |
| SessionTheorems.WritesFollowStamps | udp_proxy.go:142-199 | every datagram to a session and every reply for it follows a stamp by the same caller, or by the handler in the same turn |
| SessionTheorems.EvictionExact | udp_proxy.go:67-76 | what a pass removes has been idle for the timeout when it is removed, what it leaves is not due |
| SessionTheorems.EvictionMeansSilence | udp_proxy.go:67-76 | an evicted session was not stamped in the whole run for the length of the timeout |
| SessionTheorems.WhoRemoves | udp_proxy.go:52-76 | a session leaves the table through its own handler or an expired pass; without a timeout only through its handler |
| SessionTheorems.SessionsAreIsolated | udp_proxy.go:136-200 | datagrams go to the session of their source, replies to the source of their session |
| SessionTheorems.SuccessorsSurvive | udp_proxy.go:52-59 | a finishing handler leaves a successor under the same address in the table and open |
| SessionTheorems.ClosedSessionDrains | udp_proxy.go:155-200 | after closing, a handler does at most one read, one delivery and six steps in any later stretch of the run, and no read or delivery if it had not been started yet |
| SessionTheorems.DrainedIsClosed | udp_proxy.go:155-159 | nothing is left to do only when the handler has removed itself and closed its connection |
| SessionRelay.HandlerBalance | udp_proxy.go:162-199 | each deed of a handler is followed up once: an open look at the channel by a read, a timeout by a second look, a datagram by a stamp, a stamp by a delivery |
| SessionRelay.ReadsAreDelivered | udp_proxy.go:170-199 | reads that returned data are as many as deliveries, and one more exactly while the handler has a datagram in hand |
| SessionRelay.RepliesAreExact | udp_proxy.go:189-199 | the log of replies is one reply to the source of the session for each delivery whose address resolves, in order |
| SessionRelay.GivesUpIff | udp_proxy.go:162-199 | a handler gives up exactly when a read or a delivery fails or a look at the channel finds it closed |
| SessionRelay.SentIsExact | udp_proxy.go:142-148 | the log of datagrams is one write on the held session and its connection for each forwarding caller, in order |
| SessionRelay.EndsOnce | udp_proxy.go:124-149 | a caller that is done has forwarded its datagram once or failed to dial once, and no other has done either |
| SessionRelay.ForwardedTo | udp_proxy.go:84-145 | a datagram goes to the session its lookup found under its source, or, if there was none, to the one the second critical section left in the table |
| SessionRelay.DialsOnlyIfMissing | udp_proxy.go:85-96 | a caller dials only after its lookup found no session of its source |
| Health.OverdueBounds | health.go:55-67 | truncation to whole seconds moves the staleness test by less than a second, towards stale |
| Health.IsStale | health.go:55-67 | stale exactly when a checked connection has a record older than interval + 2 seconds, in any iteration order |
| Health.VirtualTun.StartPingIPs | routine.go:531-543 | seeds exactly the CheckAlive addresses, on WireGuard connections that have any |
| Health.VirtualTun.RecordPong | routine.go:524-526 | afterwards only that address has changed; it is not overdue for interval + 1 seconds and is overdue after interval + 2 |
| Health.VirtualTun.CopyRecords | health.go:76-87 | an exact copy of the records; the check flag is set exactly for WireGuard connections with CheckAlive addresses |
| Health.SortIsUnique | health.go:89-90 | with distinct names any sort gives the same list, whatever the order of registration |
| Text.LessIff | health.go:90 | the order of names: a proper prefix first, else the smaller character where they first differ |
| Health.HealthRegistry.Add | health.go:35-39 | the list of snapshots gains the one of the new connection and keeps the rest |
| Health.HealthRegistry.Snapshot | health.go:69-92 | a name-sorted permutation of the snapshots of all connections |
| Health.HealthRegistry.Readyz | health.go:96-104 | not ready exactly when a WireGuard connection with CheckAlive addresses has a record more than interval + 2 seconds old; with distinct names the report maps each connection to its records |
| Health.ReportIsComplete | health.go:98-100 | with distinct names, one entry per snapshot holding its records, and no others |
| Health.AcceptedNamesDiffer | connections.go:149-156 | connections accepted by validation have distinct names, in any order of starting |
| Health.StartOrderIrrelevant | health.go:69-104 | any two orders of Add calls give the same sorted list and a report with exactly one entry per started connection |
| Probing.InvNext | routine.go:452-558 | every step of ping loops, probes and requests keeps the monitor's invariant |
| ProbingCode.Start | routine.go:531-543 | StartPingIPs is the Seed step and starts the loop exactly when that step is enabled |
| ProbingCode.Answer | routine.go:524-526 | storing a pong is the Pong step of its probe |
| ProbingCode.Copy | health.go:75-88 | copying the records is the TakeCopy step |
| ProbingCode.Judge | health.go:55-67 | in any order of the map, the Look steps find a copy stale exactly when the code does |
| ProbingTheorems.RecordKeys | routine.go:531-543 | from seeding on, records are kept for exactly the CheckAlive addresses |
| ProbingTheorems.RecordsNeverDecrease | routine.go:524-543 | no record disappears or goes back in time |
| ProbingTheorems.LastHeard | routine.go:524-543 | a record holds the second in which its address was last heard or seeded |
| ProbingTheorems.CopyKept | health.go:74-88 | a request judges each connection as it was when its records were copied |
| ProbingTheorems.NextRoundIff | routine.go:545-557 | after a round the next can begin exactly when the interval, but at least one second, has passed |
| ProbingTheorems.RoundDialsAll | routine.go:452-458 | a round dials every address once, in order, and can end exactly when all have been dialled |
| ProbingTheorems.LaunchProbes | routine.go:453-487 | a successful dial launches a probe of the address whose turn it is |
| ProbingTheorems.ReadyMeansHeard | health.go:55-104 | ready implies that every address of every checked WireGuard connection was heard or seeded within interval + 2 seconds of the copy |
| ProbingTheorems.UnreadyMeansSilence | health.go:55-104 | 503 implies a WireGuard connection with a checked address silent for more than interval + 1 seconds |
| ProbingMargin.RecordIsFresh | routine.go:452-558 | how old a record can be in a timely state of a run without losses |
| ProbingMargin.FedNext | routine.go:452-558 | every lossless step of a timely run keeps each address recently heard or awaiting an answer |
| ProbingMargin.HealthyNeverUnready | health.go:55-67 | if the delays fit the margin of every checked connection, no request of a healthy run is answered 503 |
| ProbingTightness.Coast | routine.go:545-557 | any number of connections can be kept healthy up to any moment |
| ProbingTightness.BeyondMargin | health.go:55-67 | for any connections, one of them checked with delays beyond its margin, a healthy run of all of them in which a request finds that one stale |
| ProbingTightness.MarginIsExact | routine.go:545-557 | for any connections with any intervals, and any delays: no 503 in any healthy run if and only if the delays fit the margin of every checked connection |
| ProbingTightness.OneSecondIsEnough | health.go:60-62 | with intervals of at least one second on checked connections, delays adding up to a second are harmless |
| Connections.SamePort | connections.go:247-254 | normalized ports are equal exactly when the texts are, or denote one number |
| Connections.AddBind | connections.go:134-141 | the address contributes its bind or is rejected as malformed |
| Connections.CheckRoutine | connections.go:183-222 | one routine is accepted exactly when it is fit for its backend and its tunnel port is new |
| Connections.CheckRoutines | connections.go:182-224 | the routines of a connection are accepted exactly when all are, and their binds are collected in order |
| Connections.CheckConflicts | connections.go:227-239 | an error exactly when two binds of one kind and port overlap in host |
| Connections.CheckIdentity | connections.go:150-181 | an error exactly when name, host name, state directory or listen port was seen before, or the connection is malformed |
| Connections.ValidateConnections | connections.go:120-242 | accepts exactly the lists that satisfy the declarative condition |
| ValidMeaning.ValidMeans | connections.go:120-242 | the condition written out over the fields: readable addresses, names, host names, state directories, device ports, tunnel ports, backends, and no two listeners of one kind and port number with equal or wildcard hosts |
| ConnectionTheorems.ValidIffPairwise | connections.go:120-242 | valid exactly when each connection is acceptable alone and every two are compatible |
| ConnectionTheorems.ValidSelection | connections.go:120-242 | any selection of a valid list in any order is valid |
| ConnectionTheorems.OrderIrrelevant | connections.go:120-242 | the verdict does not depend on the order of the list |
| Config.DerivedStateDirsDiffer | tailscale_config.go:93-102 | different names that match the pattern have different derived state directories, although paths are cleaned |
| Config.DottedNamesCollide | tailscale_config.go:93-102 | without the pattern they may coincide: a leading "./" is cleaned away |
| ConnectionTheorems.DerivedStateDirsNeverClash | connections.go:166-170 | two connections with different well-formed names and no explicit state directory never collide on one |
| Names.SanitizeConnectionName | connections.go:40-51 | the loop computes the rune-wise image, trimmed |
| Names.SanitizedMatches | connections.go:35-51 | a sanitized name is empty or matches the name pattern |
| Names.SanitizeFixedPoints | connections.go:40-51 | fixed points are exactly the clean names, so sanitizing is idempotent |
| Names.SanitizeFoldsCase | connections.go:40-51 | spellings that differ in case are one name, and a clean name in capitals is that name |
| Names.SeparatorBecomesDash | connections.go:40-51 | any other character inside a name becomes a dash |
| HostPort.SplitJoin | connections.go:134-141 | splitting undoes joining exactly for hosts without brackets and ports without brackets or colons |
| HostPort.SplitIff | connections.go:134-141 | a text is split into host and port exactly when it reads host:port or [host]:port without further brackets or colons |
| HostPort.ResplitJoined | cmd/wireproxy/main.go:177-189 | joining a split address and splitting it again changes nothing |
| Routing.LeavesTunnelIff | routine.go:185-240 | exactly the split-routed proxies and the server tunnels with a usable target can connect outside the tunnel |
| Routing.TryPatterns | router.go:28-39 | the loop over the patterns decides the route |
| Routing.RoutesByName | router.go:28-63 | a proxy uses the tunnel exactly when it has no TunnelDomains or one matches the lower-cased requested name without its trailing dot, and connects to the requested address, with port 443 or 80 if it had none |
| Routing.EveryRequestAsks | routine.go:185-209 | every request a proxy serves asks for some host, and it dials for no others |
| Routing.TunnelsDialTarget | routine.go:147-159 | a tunnel connects to its target exactly when that reads host:port with a number up to 65535, server tunnels on the host and the others through the tunnel |
| Sandbox.NeedsOpenEgress | connections.go:260-283 | true exactly when some connection may dial out directly |
| Sandbox.RuleForSection | cmd/wireproxy/main.go:212-248 | the rule of one routine, or failure |
| Sandbox.LockNetwork | cmd/wireproxy/main.go:191-254 | by kinds of routines: skipped for Tailscale and split-routed proxies, failed for a missing port, else exactly one bind rule per listener port and one connect rule per server tunnel target |
| Sandbox.ListenersAreAllowed | cmd/wireproxy/main.go:191-254 | every TCP listener of the health endpoint or a routine has a bind rule for its port |
| Sandbox.ConnectsAreAllowed | cmd/wireproxy/main.go:191-254 | for every request and matcher, a routine connects through the tunnel or is a server tunnel whose port has a connect rule |
| Sandbox.ValidatedListenersAreAllowed | cmd/wireproxy/main.go:191-254 | every TCP bind that validation saw has a rule |
| Grouping.SplitIntoGroups | config.go:565-611 | groups in first-appearance order, each bucket the file-order filter of the sections; an error exactly for malformed names |
| Grouping.GroupsByFirstAppearance | config.go:565-611 | the connections are exactly the named ones, each once, ordered by their first sections |
| Grouping.DottedSection | config.go:578-588 | a section with a clean prefix belongs to the connection of that name, whatever follows the first dot |
| Grouping.PlainSection | config.go:570-576 | a section without a dot belongs to the unnamed connection, the DEFAULT section in any case to none |
| Grouping.SlotTexts | config.go:597-608 | the four structural section types by their texts; all others are routines |
| Emission.AppendRoutines | config.go:896-918 | known types in canonical order, any other type an error |
| Emission.EmissionIsStableSort | config.go:531-611 | success exactly when all routine sections have known types and parse; the result is each parsed once, by parser rank then file position |
| Emission.StableSortIsUnique | config.go:531-542 | those clauses admit one list only |
| Emission.EmittedInOrder | config.go:531-542 | the order of the seven section types written out |
| Emission.PatternRejectsOnlyEmpty | config.go:958-982 | on the names of parsed connections the pattern check of validation rejects exactly the empty one |
| Emission.ParseConfigSource | config.go:947-989 | one connection per group in order of first appearance with its emitted routines; named after its group, else the root name, else the file; an error exactly for the listed reasons |
| Ipc.CreateIPCRequest | wireguard.go:53-88 | the text is the lines of the device, with every key text, the order and the two default routes written out |
| Ipc.DecodeRender | wireguard.go:53-88 | decoding the printed request gives the configuration back with default routes written out |
| Ipc.RenderInjective | wireguard.go:53-88 | two clean configurations print alike exactly when they are equal up to default routes |
| Ipc.RoundTripIff | wireguard.go:53-88 | the round trip works exactly for configurations without newlines in their strings |
| Redaction.WriteRedactedIpc | health.go:148-163 | appends the redacted dump to the buffer |
| Redaction.SecretsDoNotMatter | health.go:148-163 | dumps that differ only in secret values give the same output |
| Redaction.KeysDoNotMatter | health.go:148-163 | any two dumps that differ only after "private_key=" or "preshared_key=" are redacted alike |
| Redaction.DumpIsShown | health.go:148-163 | in a redacted dump of key=value lines, lines that begin with one of the two key texts end in REDACTED and all others are the dump's own, in place |
| Redaction.RedactHidesIff | health.go:148-163 | every secret is hidden exactly when no stray line turns a key into a secret one |
| Redaction.DumpHidesSecrets | health.go:148-163 | dumps of key=value lines have all secrets hidden |
| Redaction.DumpKeepsLines | health.go:148-163 | such dumps keep all lines in order, with only the secret values replaced |
| Redaction.RedactTwiceIff | health.go:148-163 | redaction is idempotent exactly on the dumps it does not expose |
| Redaction.StrayLineExposes | health.go:148-163 | a line without = that completes the name of a secret key exposes its value |
| Sni.PeekConn.Handshake | sni.go:16-39 | whatever the TLS library reads and writes, no byte is lost and nothing is written |
| Sni.PeekClientHello | sni.go:29-58 | the wrapped connection still has the whole stream unread |
| Sni.WrappedConn.Read | sni.go:41-49 | reads are consecutive pieces of peeked bytes, then of the connection, ending only when all is read |
| Sni.WrappedConn.Copy | routine.go:279-287 | the backend gets a prefix of the unread bytes, all of them at the end of the stream |
| Sni.Session | sni.go:61-89 | end to end, for all sizes and failures: a prefix of the client's stream, the whole stream if undisturbed, and nothing sent to the client |
| Forwarding.Host.HandleRequest | http.go:53-94 | a dial whose write fails is closed, otherwise handed on |
| Forwarding.Host.ServeHttp | http.go:96-151 | the client is closed once, or joined to the peer by two opposite forwarders |
| Forwarding.Host.SniProxyForward | sni.go:61-89 | changes nothing on failure, joins the two connections on success |
| Forwarding.Host.ServeSni | sni.go:91-96 | the client is closed once or joined |
| Forwarding.Host.ServeTunnel | routine.go:290-309 | the client is closed once or joined |
| Forwarding.StepsAreTheCode | http.go:53-151 | left alone, the steps of a handler close and join exactly what its code closes and joins |
| Forwarding.InvNext | routine.go:279-309 | every step of handlers and forwarders keeps the account of each connection |
| Forwarding.InvTrace | routine.go:279-309 | it holds in every state of every interleaving of handlers and forwarders |
| Forwarding.ConnsAccounted | http.go:53-151 | every connection is held by a handler that has not returned, given up by its handler and closed once, or forwarded; exactly one of the three |
| Forwarding.OneOppositePair | routine.go:307-308 | a forwarded connection belongs to one handler only, whose two forwarders are opposite directions between the same connections; the second may not have been started |
| Forwarding.OpenIffOwned | routine.go:279-309 | a connection is open exactly while a running handler holds it, or it belongs to a pair no started direction of which has closed it |
| Forwarding.EitherEndClosesBoth | routine.go:279-287 | when either direction has ended, both connections are closed, even if the other was never started |
| Forwarding.AllClosedAtRest | routine.go:376-396 | once all handlers have returned and all forwarders have ended everything is closed, and nothing is ever closed more than twice |
| Forwarding.HandlersComeToRest | http.go:96-151 | every action brings a handler and its forwarders closer to rest, and only at rest is none left |

## Left out

- Parsing of single section fields, base64 and hex conversion, go-ini itself: inputs (parsers) of the model.
- Peer files named by WGConfig and interface overrides (config.go:735-895), among them the override of CheckAliveInterval.
- filepath.Base and filepath.Ext: the stem of the file name is a parameter, and so is the user cache directory; Join and Clean are modelled for slash-separated paths.
- Error messages and log output; the owner strings that the bind check puts into its message.
- Name resolution and DNS over TCP; sockets, TLS, Landlock, tsnet and the SOCKS library themselves.
- HTTP proxy authentication and the parsing and serialization of requests: their outcomes are inputs of the forwarding model; a dial that reports success without a connection is not modelled.
- The period of the cleaner's ticker: a pass may happen at any time.
- Delivery over UDP: a write to a connection or a client is logged, whether or not it arrives.
- The read deadline and the packet format of a probe: a pong or a loss may happen at any time while the probe is in flight.
- Health.IsStale: does not model overflow of time.Duration for intervals of centuries.
- Ipc.DecodeRender: the decoder appends a peer for every public_key line; it does not merge repeated keys as a running device does.
- Session objects and connections are indices into sequences, which stand for pointer identity.
- The ping loop is modelled as steps (one per round, dial and sleep), not as a method; StartPingIPs up to the loop and the storing of a pong are methods.
- Equality of byte streams through the HTTP proxy: its handlers are modelled for ownership of connections only.
- Structural sections that the configuration parser ignores, such as a second resolve section: the parser of those buckets is an input.
- The `/metrics` endpoint apart from redaction; its ordering is the one of `/readyz`.
