# rabbit-digger, verified

A Dafny model of the parts of rabbit-digger (a rule-based proxy) that carry its
correctness and do not depend on sockets: building the graph of nets from a config,
accounting for connections, relaying bytes and datagrams, ordering dependencies, choosing
a rule, and the packed formats in between. `dafny verify dfyconfig.toml` checks everything.

## What is modelled

**Net graph** (`NetConfig`, `NetBuilder`, `NetGraph`, `NetFlattening`, `NetBuilderProof`,
`NetMeaning`, `NetUnreached`, `NetFreshness`, `NetCollisions`, `ConfigVisitor`,
`RunningNets`). A config maps names to nets;
a net's options hold references to other nets, by name or inline. The builder resolves
them depth first: an inline net gets a generated name and an entry of its own, an entry
being built is replaced by a "circular reference" placeholder, a built net is cached and
shared. `Get`, `Build`, `Visit` and `BuildServers` are the build as functions of the
builder's state, total for every config; the class `BuildContext` does the same in place.
The reference definition is `IsFlattening`: all inline nets flattened at once. The main
theorems say that the lazy build succeeds exactly when the flat graph is sound, what it
leaves, that the meaning of every name and reference (its unfolding, at every depth) is
kept, in the record and in what runs, and that building again changes nothing. They assume
that generated names are fresh (`Fresh`), and `NetUnreached` needs that only for entries a
server can reach. `NetFreshness` derives freshness from the config alone, exactly for
configs without slashes and nested paths; `NetCollisions` says exactly when a collision
does no harm and builds configs in which it does. A shared `Arc<RunningNet>` is a position
in an arena.

**Connection accounting** (`Connections`, `ConnectionsProof`, `ConnectionAccounts`,
`ConnectionStreams`). Connections keep local counters and flush them into one channel; a
consumer applies events to a map and totals. Each atomic step is a constructor of `Step`;
the theorems hold in every state of every run, for any number of connections and any
interleaving, and speak of the steps of the run. `ConnectionAccounts` shows that whatever
the objects do is such a run; `ConnectionStreams` is where bytes are counted.

**Relays** (`TcpRelay`, `UdpRelay`, `UdpSessions`, `UdpConnections`, `UdpForward`). The
poll-driven loops are methods over endpoints that answer from arbitrary scripts, with ghost
logs of what was read, accepted and flushed. `UdpSessions` is the per-source session layer
as a state machine over all interleavings; every poll of a session's worker
(`UdpConnections`) and of the forwarder (`UdpForward`) is shown to be a sequence of its
steps, so its theorems are about the poll loops.

**The rest.** `TopologicalSort` (Kahn's algorithm against cycles as walks; the foreign
container's `pop` takes out any node without predecessor), `Rules` (first match, its
cache, merging), `CompactVecString` (module `PackedStrings`), `Socks5Udp`.

Parameters stand for what is foreign: whether a type's options deserialize and build, the
result of `get_deps`, CIDR and country tests, reading an IP address, UTF-8 validity, and
every answer of a socket.

Where code and comments differ the model follows the code: the comment on `connect_udp`
(rd-std/src/context/connect_udp.rs:197) says that one side's end closes the other, but
neither direction ever completes without an error (`UdpRelay.PollRelay`).

Found on the way: a net called "net" (or "server") makes generated names collide even if
no name has a slash (`NetCalledNetShares`, `NetCalledServerShares`), and only such a net
does (`FreshIffSpecialApart`). Two inline nets in a `SingleOrVec` share one generated name,
so both references get the first net while the config records the second: right exactly
when the two mean the same, and recorded right exactly when the second is the flat form of
the first, which even the same net twice need not be (`TwoAtOnePath`,
`SameTwiceIsNotRecorded`). Domain rules are merged without comparing methods, which is
right exactly when the methods agree (`MergeSafeIffSameMethod`). A UDP send is counted with
the length of the buffer whatever the socket reports, and a UDP receive with the whole
filled buffer (`WrapUdpSocket`).

## Model

| member | source | states |
|---|---|---|
| NetBuilder.Get | src/rabbit_digger.rs:522-580 | Resolution is total for every config, cyclic ones included: the entries that can still be taken never grow, which is what each nested call is measured by |
| NetBuilder.BuildContext.GetNet | src/rabbit_digger.rs:522-580 | The in-place builder returns and leaves exactly what the state function `Get` says, or the same error |
| NetBuilder.BuildContext.BuildItem | src/rabbit_digger.rs:421-454 | Type lookup, options, references, builder: the in-place form agrees with `Build`, error for error |
| NetBuilder.BuildContext.ResolveNet | rd-interface/src/registry.rs:94-108 | The visitor replaces each reference, left to right, by the name it resolved to, and stops at the first error |
| NetBuilder.BuildContext.BuildServerEntries | src/rabbit_digger.rs:466-494 | All servers in file order against one shared builder agree with `BuildServers` |
| NetBuilder.BuildInPlace | src/rabbit_digger.rs:457-500 | The whole of build_entities, default nets first, equals the function the theorems are about |
| NetConfig.WithDefaults | src/config.rs:130-153 | Adds noop, blackhole and local, each of the type it is called after and without references, never over an entry the user wrote |
| NetBuilderProof.GetCorrect | src/rabbit_digger.rs:522-580 | The induction: a success caches the reference's flat name with its invariant and reaches everything new from it; a failure means something undefined, unbuildable, in progress or cyclic can be reached |
| NetBuilderProof.VisitCorrect | rd-interface/src/registry.rs:94-108 | The same for a list of references: on success they are the flat references, each with the running net of its name |
| NetBuilderProof.BuildSucceedsExactly | src/rabbit_digger.rs:457-580 | Building succeeds if and only if every server can be built and every net reachable from a server is defined, can be built, and lies on no cycle |
| NetBuilderProof.ErrorIsTrue | src/rabbit_digger.rs:421-579 | When a build fails its error is true of a server or of a net that servers reach: the type is missing or refuses the options, the name is not defined, the reference is none, or there is a cycle |
| NetBuilderProof.BuildResult | src/rabbit_digger.rs:547-579 | After success the running nets are exactly the reachable names, each built once from its flat entry and sharing the nets its references name; all other entries are as before |
| NetBuilderProof.NoPlaceholderLeft | src/rabbit_digger.rs:528-573 | No "circular reference" placeholder survives a successful build |
| NetMeaning.UnfoldRefSame | src/rabbit_digger.rs:530-546 | Replacing an inline net by a generated name keeps the unfolding of the reference, at every depth |
| NetMeaning.BuildKeepsNets | src/rabbit_digger.rs:530-579 | Every net of the config means the same after the build |
| NetMeaning.BuildKeepsServers | src/rabbit_digger.rs:581-593 | Every server reference becomes a plain name that means what the reference meant |
| NetMeaning.BuildRunsMeaning | src/rabbit_digger.rs:547-593 | The running net handed to a server for a reference means, with all the running nets below it, what the reference meant in the config |
| NetMeaning.RebuildChangesNothing | src/rabbit_digger.rs:456-500 | Building the built config succeeds again and changes neither nets nor servers |
| NetUnreached.ServersWith | src/rabbit_digger.rs:522-580 | Entries that nothing leads to are neither read nor changed: with or without them the build gives the same result |
| NetUnreached.ReachedBuildIsExact | src/rabbit_digger.rs:457-580 | With names fresh just where servers reach, the build succeeds exactly when what is reached is sound, and leaves exactly the reached nets running |
| NetUnreached.ReachedBuildKeepsMeaning | src/rabbit_digger.rs:530-593 | Likewise the meaning of every server reference is kept, recorded and running |
| NetUnreached.ReachedRebuildChangesNothing | src/rabbit_digger.rs:456-500 | Likewise building again changes nothing |
| NetUnreached.DefaultNetRuns | src/config.rs:130-153 | A server that refers to a default net the user has not defined gets a running net of that type, with the default options |
| NetFreshness.FlatteningExists | src/rabbit_digger.rs:530-546 | With fresh names the flat config that the theorems speak of exists |
| NetFreshness.PlainIsFresh | src/rabbit_digger.rs:532-537 | Names without slash, none of them "net" or "server", and reference paths none of which begins another, make all generated names fresh |
| NetFreshness.PlainBuildIsExact | src/rabbit_digger.rs:457-500 | For such configs build_entities succeeds exactly when the flattening is sound |
| NetFreshness.FreshIffSpecialApart | src/rabbit_digger.rs:532-537 | If no name has a slash and no path begins another, names are fresh if and only if those below a net called "net" or "server" stay apart from the others |
| NetCollisions.ReplacedUnfolds | src/rabbit_digger.rs:537-537 | Inserting over an entry a net that means the same changes the meaning of nothing |
| NetCollisions.SecondRunsRightIff | src/rabbit_digger.rs:530-557 | A second inline net under one generated name, in any state of a build: its reference runs into the first net, which is right if and only if the two mean the same |
| NetCollisions.SecondIsMeantIff | src/rabbit_digger.rs:530-557 | The recorded config then keeps the meaning of both references if and only if the two mean the same |
| NetCollisions.SecondIsRecordedIff | src/rabbit_digger.rs:530-557 | The record then describes what runs if and only if the second net is the flat form of the first, in any state |
| NetCollisions.TwoAtOnePath | rd-interface/src/config/single_or_vec.rs:16-28 | A whole build with two inline nets at one path: it succeeds exactly as with the first alone, and the three conditions above are exact |
| NetCollisions.TwoTypesGoWrong | rd-interface/src/config/single_or_vec.rs:16-28 | With nets of two types at one path the second reference always gets a wrong net |
| NetCollisions.SameTwiceIsNotRecorded | rd-interface/src/config/single_or_vec.rs:16-28 | The same net twice, with an inline net in it, is never recorded as it runs |
| NetCollisions.NetCalledNetShares | src/rabbit_digger.rs:533-537 | In a config with a net called "net" the build succeeds and hands one running net to two references with different nets, one of which is never built |
| NetCollisions.NetCalledNetIsNotFresh | src/rabbit_digger.rs:533-537 | That config has no slash in any name and no path that begins another, and still its names are not fresh |
| NetCollisions.NetCalledServerShares | src/rabbit_digger.rs:533-537 | The same for a net called "server" and a net nested in a server |
| NetCollisions.NetCalledServerIsNotFresh | src/rabbit_digger.rs:533-537 | That config too is plain but not fresh |
| ConfigVisitor.VisitorContext.Visit | rd-interface/src/config.rs:110-147 | The walk sees the references in order with their paths, ends at the first refusal, and restores the path on success |
| ConfigVisitor.VisitsEveryReference | rd-interface/src/config.rs:118-147 | Every reference that can be reached by following indices into containers is visited exactly once, in file order, with the keys on the way as its path, and nothing else is |
| ConfigVisitor.IndexedIsPrefixFree | rd-interface/src/config.rs:118-147 | If keys in a container differ and no unkeyed list has two elements, no reference path begins another |
| ConfigVisitor.ListIsIndexed | rd-interface/src/config.rs:118-132 | Enumerating a list gives each element a key of its own |
| ConfigVisitor.UnkeyedSharesPath | rd-interface/src/config/single_or_vec.rs:16-28 | Two elements of a SingleOrVec are visited at one path |
| RunningNets.StartIsConsistent | src/rabbit_digger.rs:200-233 | What a start records describes every running net it starts |
| RunningNets.UpdateKeepsConsistent | src/rabbit_digger.rs:337-358 | An update takes effect exactly when the new entry can run; names, identities and all other entries stay |
| RunningNets.RunKeepsConsistent | src/rabbit_digger.rs:323-365 | After any updates each running net is the one its recorded entry describes, and what no call named is untouched |
| RunningNets.StartedRunIsConsistent | src/rabbit_digger.rs:200-365 | The same for one start followed by any updates |
| RunningNets.ReferencesSeeCurrentNet | src/rabbit_digger/running.rs:31-47 | After one start and any updates every reference handed out, to servers and to nets, leads to the net that its recorded entry describes now |
| RunningNets.ResolvedIsDescribed | src/rabbit_digger.rs:345-353 | While running, references resolve exactly if all are names of running nets, to those nets |
| RunningNets.UpdateErrorIsTrue | src/rabbit_digger.rs:343-353 | An update that fails says truly why: the type refuses the entry, or a reference is no name of a running net |
| RunningNets.BuildRunningNet | src/rabbit_digger.rs:343-353 | The running build visits references left to right and reports the first error |
| RunningNets.RabbitDigger.StartConfig | src/rabbit_digger.rs:200-233 | A config that does not build leaves the running one alone; otherwise the old servers are stopped and exactly the new ones run |
| RunningNets.RabbitDigger.UpdateNet | src/rabbit_digger.rs:323-365 | Fails exactly when not running or when the new entry cannot run, and then changes nothing; otherwise both sides change together |
| TopologicalSort.Sort | src/util.rs:20-65 | None exactly when the dependencies of the whole map have a cycle; otherwise no key twice, dependencies first, and exactly the entries that are roots, have dependencies or are one |
| TopologicalSort.Collect | src/util.rs:29-44 | The graph holds exactly the dependencies and the root edges, unless some get_deps fails, whose error is returned |
| TopologicalSort.PopAll | src/util.rs:46-55 | Popping lists dependencies before dependents; what is left over has a cycle |
| TopologicalSort.Select | src/util.rs:57-64 | Taking listed keys out of the map keeps the order and drops only keys that are no entries |
| TopologicalSort.StuckHasCycle | src/util.rs:53-55 | A non-empty set in which everything has a predecessor contains a cycle |
| TopologicalSort.OrderedHasNoCycle | src/util.rs:46-55 | A list with dependencies first rules out every cycle |
| TopologicalSort.AllIsPermutation | src/util.rs:36-38 | With All the result is a permutation of the map |
| TopologicalSort.ReachableIsSorted | src/util.rs:40-44 | With Key every entry reachable from a root is in the result |
| Connections.ConnectionState.InputEvent | src/rabbit_digger/connection_manager.rs:77-145 | A batch is its events applied one after another |
| Connections.ConnectionState.StopConnection | src/rabbit_digger/connection_manager.rs:224-232 | Takes the sender; true exactly if there was one and its connection lives |
| Connections.ConnectionState.StopConnections | src/rabbit_digger/connection_manager.rs:233-243 | Takes every sender, touches nothing else, and counts exactly the connections reached |
| Connections.Connection.constructor | src/rabbit_digger/connection_manager.rs:322-342 | Starts at zero and announces itself with New and SetStopper in one batch |
| Connections.Connection.GetEvents | src/rabbit_digger/connection_manager.rs:268-306 | Flushing reports exactly what was held in each direction, one event for each UDP peer, and resets |
| Connections.Connection.Poll | src/rabbit_digger/connection_manager.rs:343-356 | A heartbeat flushes, nothing else does; the poll fails exactly on a stop |
| Connections.Connection.Close | src/rabbit_digger/connection_manager.rs:398-404 | Dropping flushes what is held and then sends Close |
| Connections.Drain | src/rabbit_digger/connection_manager.rs:296-305 | Draining a counter map in any order yields each entry once and the map's sum |
| Connections.CountedHeld | src/rabbit_digger/connection_manager.rs:372-396 | Counting raises what is held in its direction by its size and leaves the other direction |
| Connections.CountedForPeer | src/rabbit_digger/connection_manager.rs:372-396 | A datagram is counted for its own peer and direction, and nothing else changes |
| ConnectionsProof.RunKeepsInv | src/rabbit_digger/connection_manager.rs:77-404 | The invariant holds in every state of every run |
| ConnectionsProof.Conservation | src/rabbit_digger/connection_manager.rs:77-145 | In every reachable state the bytes that the steps so far have counted equal total plus queued plus held, in all and for each connection that lives or is being dropped; totals fit 64 bits if the bytes counted do |
| ConnectionsProof.CountsNeverLost | src/rabbit_digger/connection_manager.rs:116-139 | No count event is ever applied to a missing entry |
| ConnectionsProof.EventsInOrder | src/rabbit_digger/connection_manager.rs:322-404 | Each connection's events are New, SetStopper, counts, Close, though other connections may send between its last counts and its Close |
| ConnectionsProof.DrainedMapIsLive | src/rabbit_digger/connection_manager.rs:140-148 | With the channel drained the map holds exactly the connections that have not sent their Close, each with exactly what it flushed |
| ConnectionsProof.EntriesAreAsMade | src/rabbit_digger/connection_manager.rs:82-107 | In every reachable state an entry has the protocol and the address with which its connection was made, and a live connection counts by that protocol |
| ConnectionsProof.EntriesWereMade | src/rabbit_digger/connection_manager.rs:82-107 | There is no entry for a connection that was not made |
| ConnectionsProof.StopsAtMostOnce | src/rabbit_digger/connection_manager.rs:224-243 | Each connection gets at most one stop signal, so successful stops never exceed connections created; one not yet stopped can be |
| ConnectionsProof.StopperNeverDropped | src/rabbit_digger/connection_manager.rs:348-354 | A live connection's stop channel ends only by a stop signal |
| ConnectionAccounts.Accounts.Close | src/rabbit_digger/connection_manager.rs:398-404 | Dropping a connection object is two steps of the protocol |
| ConnectionAccounts.Accounts.Poll | src/rabbit_digger/connection_manager.rs:343-356 | A poll with a heartbeat is one step, one without is none |
| ConnectionAccounts.Accounts.ConsumeNext | src/rabbit_digger/connection_manager.rs:77-145 | The manager taking the next event is a step |
| ConnectionAccounts.Accounts.StopConnection | src/rabbit_digger/connection_manager.rs:224-232 | A stop request is a step, and true exactly if the signal is delivered |
| ConnectionAccounts.AccountsAreConserved | src/rabbit_digger/connection_manager.rs:77-404 | Whatever has been called on the objects, bytes counted are in the manager's totals, in the channel or in the connections' own counters; with the channel empty the manager lists exactly the connections there are |
| ConnectionStreams.WrapTcpStream.PollRead | src/rabbit_digger/running.rs:296-312 | Hands up what the inner stream delivered behind what the buffer held, and over any poll outcomes counts exactly that; a stop ends the poll before it is asked |
| ConnectionStreams.WrapTcpStream.PollWrite | src/rabbit_digger/running.rs:313-321 | Bytes counted as written are those the inner stream accepted |
| ConnectionStreams.WrapUdpSocket.PollRecvFrom | src/rabbit_digger/running.rs:242-253 | Hands up the datagram and peer that the inner socket gave, and counts the whole filled part of the buffer for that peer |
| ConnectionStreams.WrapUdpSocket.PollSendTo | src/rabbit_digger/running.rs:254-264 | Counts the length of the buffer for each datagram sent, whatever length the socket reports |
| TcpRelay.CopyBuffer.FillBuffer | rd-std/src/context/connect_tcp.rs:49-75 | Reading keeps the stream; waiting for the reader leaves everything read accepted and flushed, or the flush Pending |
| TcpRelay.CopyBuffer.DrainBuffer | rd-std/src/context/connect_tcp.rs:78-91 | Partial writes keep the stream and the count; it stops only empty, Pending on a write, or on an error or a write of nothing |
| TcpRelay.CopyBuffer.PollCopy | rd-std/src/context/connect_tcp.rs:36-100 | At every suspension bytes read are bytes accepted plus the buffer; done means the whole stream up to its end was accepted, counted and flushed |
| TcpRelay.Transfer.TransferOneDirection | rd-std/src/context/connect_tcp.rs:116-143 | Done means shutdown completed and was first asked for after a flush of everything written; nothing is written after that |
| TcpRelay.CopyBidirectional.Poll | rd-std/src/context/connect_tcp.rs:152-168 | Ends when one side is done, or with the first error of an endpoint; Pending only with both sides waiting |
| UdpRelay.CopyBuffer.Grow | rd-std/src/context/connect_udp.rs:76-82 | Doubles up to the maximum without underflow, only with an empty pool |
| UdpRelay.CopyBuffer.BorrowBack | rd-std/src/context/connect_udp.rs:66-75 | Gives a blank last packet, and none exactly when the queue holds the maximum, all filled; buffers never get fewer |
| UdpRelay.CopyBuffer.PopFront | rd-std/src/context/connect_udp.rs:60-65 | Drops just the oldest datagram and recycles its buffer |
| UdpRelay.FillQueue | rd-std/src/context/connect_udp.rs:101-112 | Taking datagrams keeps first-in first-out with addresses; it ends full, waiting or failed |
| UdpRelay.SendQueue | rd-std/src/context/connect_udp.rs:113-128 | Sending keeps it too; it ends with nothing filled queued, waiting on a filled packet, or failed |
| UdpRelay.Turn | rd-std/src/context/connect_udp.rs:100-132 | A turn that registers nothing has sent exactly a full queue |
| UdpRelay.PollRelay | rd-std/src/context/connect_udp.rs:94-133 | Datagrams taken are those accepted followed by those queued, in order, also after errors; Pending only with a waker where progress is possible; it never completes and ends with the first error of an endpoint |
| UdpRelay.CopyBidirectional.Poll | rd-std/src/context/connect_udp.rs:186-194 | Both directions keep this, and packets coming back always have a socket address |
| UdpSessions.RunKeepsInv | rd-std/src/util/forward_udp.rs:89-137 | The session invariant holds in every state of every run |
| UdpSessions.SourcesAreServed | rd-std/src/util/forward_udp.rs:89-112 | What the sessions of one source have received, in the order they were made, is datagram by datagram what the steps brought in from it: the address it was sent to, and the first 8192 bytes; a new session is made only after the one before was evicted |
| UdpSessions.EmittedInOrder | rd-std/src/util/forward_udp.rs:89-112 | A session receives an unbroken part of its own source's datagrams, drops one exactly when its worker ended or its channel is full, and emits the others in order, each once, to the address its source sent it to, cut to 2048 bytes |
| UdpSessions.HandedInOrder | rd-std/src/util/forward_udp/send_back.rs:56-84 | Packet k handed back for a session is the k-th reply to it: from the peer that sent it, to the session's source, cut to 2048 bytes; none is lost or repeated across Pending, and all are handed back once nothing is queued |
| UdpSessions.HandedHasSession | rd-std/src/util/forward_udp.rs:113-137 | Nothing is handed back that no session sent |
| UdpSessions.SessionsHaveSources | rd-std/src/util/forward_udp.rs:89-99 | A session is made only for a source that has sent something |
| UdpSessions.ActsAreSteps | rd-std/src/util/forward_udp/connection.rs:18-40 | What a worker does by itself is a sequence of steps of the whole that changes only its session and what enters the shared channel |
| UdpSessions.OthersKeepSession | rd-std/src/util/forward_udp.rs:89-112 | Any other step leaves a session alone or delivers to it a datagram of its own source |
| UdpSessions.StepsExtendRun | rd-std/src/util/forward_udp.rs:146-155 | Polls made of steps continue a run, so what holds in every run holds after them |
| UdpConnections.BackChannel.PollSendTo | rd-std/src/util/forward_udp/send_back.rs:36-54 | Hands out the oldest datagram cut to the packet buffer; an error only when closed and empty |
| UdpConnections.BackChannel.PollRecvFrom | rd-std/src/util/forward_udp/send_back.rs:56-84 | A packet offered again after Pending is started once in all |
| UdpConnections.UdpConnection.Send | rd-std/src/util/forward_udp/connection.rs:41-45 | A datagram is dropped exactly when the worker has ended or the channel is full |
| UdpConnections.UdpConnection.PollSendTo | rd-std/src/context/connect_udp.rs:94-133 | Relaying from the channel to the socket is a sequence of Take and Emit acts; Pending only with the channel empty and nothing queued, or the socket waiting |
| UdpConnections.UdpConnection.SendReply | rd-std/src/context/connect_udp.rs:154-173 | The front packet is offered until its flush completes, and only then leaves the queue; the acts are those of the session |
| UdpConnections.UdpConnection.PollRecvFrom | rd-std/src/context/connect_udp.rs:134-180 | Relaying from the socket to the channel, with the channel itself as the sink, is a sequence of acts of the session |
| UdpConnections.UdpConnection.Poll | rd-std/src/context/connect_udp.rs:186-194 | Every poll of a worker is a sequence of acts of its session, each of them possible; Pending only with nothing left to move or an endpoint, asked in this poll, that waits, in both directions; the first error ends it |
| UdpConnections.StartedOnce | rd-std/src/util/forward_udp/send_back.rs:56-84 | Between polls the back sender has been given exactly the replies no longer queued, and the front one if it is being flushed |
| UdpForward.OfferedInOrder | rd-std/src/util/forward_udp.rs:89-110 | Each session that does not vanish is given a subsequence of its own source's datagrams, within its capacity; other sessions are untouched |
| UdpForward.FromIsArrived | rd-std/src/util/forward_udp.rs:100-110 | The datagrams offered for a source are those that arrived from it, in order, with the address they were sent to and the first 8192 bytes |
| UdpForward.HappenedIsStep | rd-std/src/util/forward_udp.rs:89-112 | What an arrival or a vanishing session does to the table is a step of the state machine |
| UdpForward.ForwardUdp.PollRecvPacket | rd-std/src/util/forward_udp.rs:100-112 | Takes in exactly what arrives before the source waits or fails, as Recv steps, with sessions vanishing in between |
| UdpForward.ForwardUdp.PollSendBack | rd-std/src/util/forward_udp.rs:113-137 | Nothing is lost, repeated or reordered between channel, send_buf and source, also on error; every move is a step |
| UdpForward.ForwardUdp.Poll | rd-std/src/util/forward_udp.rs:146-155 | Every poll of the forwarder is a sequence of steps of the state machine that bring in exactly what arrived; Pending only with nothing left to hand back or the source waiting; the first error of either direction ends it |
| Rules.MatchRuleMeans | rd-std/src/rule/config.rs:170-180 | Every matcher matches exactly what it is for: domain patterns by splitting the host name asked for, address blocks and countries by the IP address gone to, source blocks by the source address |
| Rules.TestOneMeans | rd-std/src/rule/domain.rs:20-37 | Keyword, suffix and match patterns, `+.` included, said by splitting the domain |
| Rules.OnlySrcLooksAtSource | rd-std/src/rule/ipcidr.rs:12-37 | Only a source matcher looks at the source, and it looks at nothing else |
| Rules.ScanDecides | rd-std/src/rule/rule_net.rs:72-81 | The scan finds the first matching rule, or none matches |
| Rules.Rule.GetRule | rd-std/src/rule/rule_net.rs:62-82 | With or without a cache hit the answer is the first rule whose matcher is meant for the context, or none is, and the cache stays right |
| Rules.CacheIsTransparent | rd-std/src/rule/rule_net.rs:62-82 | For any interleaving of lookups and evictions every answer is the scan's and every cached index is the first match |
| Rules.RuleCell.Merge | rd-std/src/rule/config.rs:148-156 | Merges only rules of one target and mergeable kinds; otherwise nothing changes |
| Rules.MergedIff | rd-std/src/rule/config.rs:111-138 | Matchers merge exactly if they are of one kind other than a country, keeping the entries of both in order; otherwise nothing changes |
| Rules.MergedIsEither | rd-std/src/rule/config.rs:111-138 | A merged matcher matches exactly what either did, for domain rules of one method |
| Rules.MergeKeepsChoice | rd-std/src/rule/config.rs:148-156 | Merging two adjacent rules changes the chosen target for no context |
| Rules.MergeSafeIffSameMethod | rd-std/src/rule/config.rs:114-117 | Merging adjacent domain rules keeps the chosen target for all rules and contexts if and only if their methods are equal |
| Rules.MergeGoesWrong | rd-std/src/rule/config.rs:114-117 | For any two different methods, two rules and a context for which merging changes the choice |
| PackedStrings.EqualIffSameStrings | rd-interface/src/config/compact_vec_string.rs:12-16 | Derived equality is equality of the lists |
| PackedStrings.RefinesList | rd-interface/src/config/compact_vec_string.rs:37-46 | Under any pushes, pops and extends the packed list is a list of strings |
| PackedStrings.PushPop | rd-interface/src/config/compact_vec_string.rs:37-46 | Pop undoes push, and pushing the last string back undoes pop |
| PackedStrings.StringAt | rd-interface/src/config/compact_vec_string.rs:63-74 | Slicing between neighbouring starts gives the string pushed |
| PackedStrings.SerdeRoundTrip | rd-interface/src/config/compact_vec_string.rs:137-194 | Deserializing what was serialized gives back the very same representation |
| PackedStrings.SerializedForm | rd-interface/src/config/compact_vec_string.rs:137-152 | One string is written bare, any other number as an array of them |
| PackedStrings.DeserializedForm | rd-interface/src/config/compact_vec_string.rs:153-194 | A bare string is read as a list of one, an array of strings as these |
| PackedStrings.RefusedIffNotStrings | rd-interface/src/config/compact_vec_string.rs:165-180 | A sequence is refused exactly when some element is no string |
| PackedStrings.CompactVecString.Push | rd-interface/src/config/compact_vec_string.rs:37-41 | Appends one string |
| PackedStrings.CompactVecString.Pop | rd-interface/src/config/compact_vec_string.rs:42-46 | Removes the last string, if any |
| PackedStrings.CompactVecString.Get | rd-interface/src/config/compact_vec_string.rs:63-74 | The string at an index, none past the end |
| PackedStrings.CompactVecString.Extend | rd-interface/src/config/compact_vec_string.rs:85-91 | Appends what another packed list iterates over |
| PackedStrings.CompactVecString.Join | rd-interface/src/config/compact_vec_string.rs:60-62 | The strings with the separator between them, as generated names are made |
| Socks5Udp.ParseUndoesPack | rd-std/src/socks5/common.rs:12-47 | Parsing a packed datagram gives back address and payload, for every payload and every address with a wire form |
| Socks5Udp.PackUndoesParse | rd-std/src/socks5/common.rs:12-47 | Whatever parses is the packed form of what it parses to |
| Socks5Udp.PackedLayout | rd-std/src/socks5/common.rs:39-47 | The bytes on the wire: three zeros, the address type 1, 3 or 4, the address, the port high byte first, the payload |
| Socks5Udp.ParseUdp | rd-std/src/socks5/common.rs:12-37 | The shift in place leaves exactly the payload; on error nothing changes |
| Socks5Udp.PackUdp | rd-std/src/socks5/common.rs:39-47 | For every address, what is written parses back to address and payload if and only if the address has a wire form |

## Left out

- Necessity of fresh names in general: a collision between nets that mean the same is harmless, so freshness is sufficient but not necessary; exact conditions are given for any two nets under one generated name.
- NetCollisions.SecondIsMeantIff: a second net that refers by hand to a generated name is not covered, because its meaning changes with the build itself; the same holds for TwoAtOnePath.
- Acyclicity after update_net: an update may make two nets refer to each other; only a build guarantees a graph without cycles.
- Start, stop and join of RabbitDigger under concurrent callers, and what a server's worker does; neither stopping nor starting one can fail (src/rabbit_digger/running.rs:374-406).
- Serialisation of the recorded config and of a net's options, taken to give back what went in.
- Whether a type's own builder looks at more than its options: buildable is a fixed function of them.
- Wrap-around of 64-bit counters: counters are unbounded here; Conservation bounds the totals by the bytes counted.
- The instant between adding to a connection's count and to the total: one step here.
- ConnectionAccounts.Accounts.Close: the two batches of a drop follow each other; that others may send between them is covered by ConnectionsProof.
- The moment between sending a connection's Close and the end of its stop receiver: a stop counts as delivered only before the Close is sent.
- Packet buffers as boxed memory: UDP packet buffers are values, so that aliasing and reuse of one allocation are not captured; the TCP buffer is an array.
- A result limited to what the roots reach, for the sort with Key: the code also emits unreachable entries that have dependencies or are one.
- Exactly-once delivery through the rule net's UDP connector, which sends its first datagram twice.
- Cache expiry and least-recently-used order: any entry may vanish at any time.
- The SOCKS5 address codec is not part of the repository; it is modelled after section 5 of RFC 1928, and what it does with a host name over 255 bytes is a parameter.
- The sender of the shared back channel is not part of the repository: a started packet enters the channel in start_send or during the flush, and a completed flush means that it has.
- Sockets, TLS, HTTP, the transparent proxy, the DNS resolver and sniffer, the GeoIP database, address text, and the small nets (alias, combine, noop, blackhole): foreign calls, or easy.
