# Verified model of the relay federation and its clients

The programs modelled here let a phone app follow coding-agent sessions that run on many machines.
Relays connect machines and apps; relays peer with each other and pass advertisements, updates and
forwarded messages along. The machine-side extension shows sessions, dialogs and subagents to the
app, and the command-line client turns the wire stream into a transcript and a plan view.

Each part that changes state in place is a class, or a method with loops, proved against functions on
values; the theorems are then about those functions, over every run. `dafny verify dfyconfig.toml`
checks everything.

## What is modelled

**Relay federation** (`relay/src/peering.rs`)
- `PeeringModel` is the routing database of one relay as a value, with every operation as a function;
  `PeeringRelay.FederatedSessions` is the object that changes it in place.
- `RouteChoice` proves which route a forward takes and exactly when it has none, `PeerRooms` what single
  rooms coming and going do.
- `RouteDatabase` proves what the database keeps over every sequence of frames, local pushes and link
  deaths, `RouteTables` what each table holds after them, entry by entry. `OwnerSets` is about
  machine-signed owner sets, `Advertisement` about the exchange of advertisements between two relays,
  `GroupedView` about the read side.
- `ForwardNetwork` is a network of any finite number of uniquely named relays with frames in flight;
  `ForwardDelivery` proves what every run of it keeps; `BacklinkQueue` holds the facts about the bounded
  queue of return paths, `Rerouting` that the operations on the database are steps of the network,
  `ForwardContents` what forwards say and what their answers mean.
- `Flooding` is the spread of one incremental update over a network of links; `OnwardCopies` ties it
  to what the relay object sends.

**Plan view** (`unbien-cli/src/plan.ts`): `PlanGraph` is the graph theory of unsatisfied blockers,
`StableSort` the sort, `Plan` the layering loop, the row order and the sections, `PlanOrder` what they mean
item by item.

**Edit hunks** (`extension/src/enrich_tool_args.ts`): `Lines` is about cutting texts into lines,
`EditHunk` builds a hunk and proves when it tells the truth about both texts, `EditSearch` finds where each
edit of a call belongs, `EditExtent` says how much a hunk shows.

**Transcript** (`unbien-cli/src/reduce.ts`): `Reducer` is the fold that changes tool cards already in
the output, `Replay` the replay of stored history through it, `TranscriptParts` what a
transcript is made of.

**Room subscriptions** (`relay/src/rooms.rs`): `Rooms` is the object with its two inverse indexes,
`RoomSteps` the interleaving of subscribe requests and allow-list pushes, lock by lock, `RoomOrder` when it
comes out right, told from the order of the calls alone.

**Mesh delivery** (`extension/src/index.ts`): `MeshModel` is the event loop as a step system,
`MeshDelivery` the module's variables and handlers.

**Subagents** (`extension/src/subagent_rooms.ts`): `SubagentModel` is the correlation of records and
sessions over every order of events, `SubagentRooms` the controller, `SubagentMatching` which record gets
which session and which sessions get rooms.

**Dialogs** (`extension/src/extension_ui_bridge.ts`): `UiModel` is the race between terminal and app
over every order of answers, expiries and closings, `UiBridge` the bridge, `UiAnswers` whose answer
counts and who is told.

## Where the code and its comments differ

The model follows the code; the theorems named here say what holds instead.
- `relay/src/peering.rs:2834` says the self-origin and never-back rules end propagation. They do
  exactly when no link cycle that avoids the origin can be reached (`FloodEndsIffNoCycle`); round a
  cycle the update circulates for ever (`CyclingNeverDies`).
- `learn_via` skips empty names, but `set_peer_rooms` and `add_room` store what comes with them. A segment
  of an empty origin name has no way back and outlives its link (`UnnamedOriginOutlivesItsLink`); so may a
  room that an inbound peer sends before its first segment has named the link
  (`UnnamedLinkLeavesNoWayBack`). `WayBackIff` is the exact condition.
- `relay/src/rooms.rs:172-177` promises that a subscription is honoured and a revoked owner dropped whatever
  the order. Neither holds. The handler records, filters and subscribes in three steps, so a grant that lands
  between the last two is lost (`GrantInTheGapIsLost`). A push is stored and reconciled in two steps
  (`relay/src/handlers/peer.rs:411-463`), and one machine may push over several connections
  (`relay/src/peers/registry.rs:84-105`), so an owner revoked by the later push may watch again
  (`RevokedOwnerWatchesAgain`). `ApplyIsExactIff`, `ReconcileIsExactIff` and `CancelIsExactIff` are the exact
  conditions call by call, `RunIsExactIff` over a run, and `OrderlyRunsAreExact` gives an order of the calls
  that suffices.
- `extension/src/subagent_rooms.ts:539-540` says that binding a record checks both sides first. It
  checks neither; two named markers can share a session (`TwoMarkersShareASession`), and
  `NamedMarkerKeepsInjectiveIff` is the exact condition.
- `extension/src/extension_ui_bridge.ts:196-198` says that an expired dialog resolves its caller. It
  does not (`ExpiredNeverResolves`): only the terminal can still answer.
- `extension/src/index.ts:1715-1716` has the flag guarded against a run that started first. A send that
  starts a run and then throws takes the flag down beside that run all the same (`ThrowBesideARun`);
  `FlagIsExactIff` is the exact condition.
- An edit inside a line is shown as if the piece were the whole line (`MidLineEditsMislead`);
  `HunkAgreesWithBothTexts` is the exact condition.

## Model

| member | source | states |
|---|---|---|
| ForwardDelivery.RunKeepsInv | relay/src/peering.rs:1398-1503 | Every run of a network of uniquely named relays keeps: one frame per forward; every backlink of a forward sits on its path and leads to the relay before; only the issuer holds it pending; each answer is final |
| ForwardNetwork.StepKeepsInv | relay/src/peering.rs:1308-1391 | Each step of the network (issue, delivery of a forward or an ack, lost frame, link down, cancel, any routing change) keeps that invariant |
| ForwardDelivery.OneLiveToken | relay/src/peering.rs:1398-1503 | In every run from an idle network a request id has at most one frame in flight, forward or ack, and that frame once |
| ForwardDelivery.VisitedIsThePath | relay/src/peering.rs:2952-3003 | While a forward is in flight its visited list has no repeats and is no longer than the number of relays, and every backlink for it anywhere sits at a visited relay after the first and leads to its predecessor |
| ForwardDelivery.HopMakesProgress | relay/src/peering.rs:1413-1417 | Handling a forward replaces its frame by exactly one other: an ack if the relay was visited before; a forward has the same payload and target, and visited grown by this relay within the number of relays |
| ForwardDelivery.AckRetraces | relay/src/peering.rs:1384-1390 | An ack at the j-th relay of its path moves, unchanged, to the relay before it or nowhere |
| ForwardDelivery.TrailsStartAtIssuers | relay/src/peering.rs:3017-3064 | The path of every forward starts at the relay that issued it, in every run |
| ForwardDelivery.AnsweredAtMostOnce | relay/src/peering.rs:3122-3128 | Over every run a forward is answered at most once, at its issuer, with the status of the one relay that judged it, and nothing of it is left in flight or pending |
| ForwardDelivery.AnsweredExactlyOnce | relay/src/peering.rs:1398-1503 | When no frame, live backlink or pending entry of this forward is lost, whatever other forwards lose, it is carried by a frame with backlinks exactly along its path until it is answered; its frames are delivered at most twice per relay, and that many deliveries answer it |
| ForwardDelivery.StepMoves | relay/src/peering.rs:2945-3011 | Each such delivery of the forward's own frame brings its answer strictly nearer, and no other step moves it away |
| ForwardNetwork.HandleForwardFacts | relay/src/peering.rs:1398-1503 | A relay answers each forward with exactly one frame on one of its own connections: the forward itself only if it has not been here and with the backlink recorded, otherwise an ack straight back |
| ForwardContents.ForwardsSayWhatWasAsked | relay/src/peering.rs:3017-3064 | In every run each forward in flight, at whatever hop, has the id, sender, target and payload of the issue that set it on its way, and its signature passes the check of the relay it is for |
| ForwardContents.ForwardedIffDelivered | relay/src/peering.rs:1461-1481 | In every run a request is answered 'forwarded' exactly if some relay off its path handed it to one of its own machines; that relay is the one that judged it, and no second one did |
| ForwardContents.IssuedIsAsked | relay/src/peering.rs:3017-3064 | A frame issued has the id, sender, target and payload asked for, this relay as the only one visited, and a signature that checks |
| ForwardContents.AnswerMeans | relay/src/peering.rs:1398-1503 | A relay answers 'forwarded' exactly for a new, signed forward it delivered itself, sends on exactly a new, signed one for elsewhere with an open route, and refuses all others |
| ForwardContents.UnsignedIsRefused | relay/src/peering.rs:1413-1432 | If only signed messages pass the check, a forward not signed just as it stands is refused and changes nothing |
| ForwardContents.ForwardsTeachTheWayBack | relay/src/peering.rs:1433-1440 | A forward taken in teaches exactly the route back to its sender, behind the routes known before; a refused one teaches nothing |
| ForwardContents.SenderCanBeAnswered | relay/src/peering.rs:1433-1440 | A relay that has taken a forward in over an open link can issue one back to its sender |
| BacklinkQueue.RecordFacts | relay/src/peering.rs:2993-3003 | Recording keeps ids distinct and the queue within its bound, adds the one entry, and drops no live entry while there is room |
| BacklinkQueue.TakeFacts | relay/src/peering.rs:3005-3011 | Taking removes at most the entry of that id, keeps every other live one, and misses it only if it has expired |
| BacklinkQueue.TakeSpares | relay/src/peering.rs:3005-3011 | Taking one id's entry leaves every other unexpired id as it was |
| BacklinkQueue.RecordSparesIff | relay/src/peering.rs:2993-3003 | Recording leaves another id as it was if and only if its entry is neither expired nor evicted to make room |
| BacklinkQueue.OldestMakeRoom | relay/src/peering.rs:2993-3003 | An unexpired entry makes room for a new one exactly if at least 1023 unexpired ones were recorded after it |
| BacklinkQueue.ExpiryKeepsOrder | relay/src/peering.rs:2993-3003 | Entries of 30 seconds or more go, and the others keep their order |
| RouteChoice.SenderForIff | relay/src/peering.rs:2353-2372 | A name resolves exactly when some open channel of its own link or of a link its data came by is left: to the oldest open channel of its own link, else of the first such link that has one |
| RouteChoice.PickRouteIff | relay/src/peering.rs:2945-2975 | A route is found exactly when there is one, and it is the first candidate that has one |
| RouteChoice.RefusedIffNoRoute | relay/src/peering.rs:1484-1503 | A new, signed forward for elsewhere is refused exactly when no open route avoids the arrival link and every visited relay; one sent on leaves by another link than it came, towards a name not visited |
| RouteChoice.IssuedIffRoute | relay/src/peering.rs:3017-3064 | A new forward is issued, and pending, exactly when some route to its target is open |
| RouteChoice.UnregisteringKeepsRoutes | relay/src/peering.rs:2821-2826 | Dropping closed channels leaves none of them and changes no route |
| RouteChoice.RegisteringOpensTheLink | relay/src/peering.rs:2809-2816 | A new channel opens its link if it was not open, and takes over from none that is |
| PeerRooms.UpsertIsExact | relay/src/peering.rs:2405-2424 | An added room replaces the one of its id and no other |
| PeerRooms.UpsertReplaces | relay/src/peering.rs:2405-2424 | It takes the place of the first room of its id, and the others stay where they are |
| PeerRooms.UpsertAppends | relay/src/peering.rs:2405-2424 | A room of a new id goes to the end |
| PeerRooms.DropIsExact | relay/src/peering.rs:2425-2445 | Every room of the removed id goes, and no other |
| PeerRooms.DropSnoc | relay/src/peering.rs:2425-2445 | The rooms left keep their order |
| PeerRooms.RemoveUndoesAddIff | relay/src/peering.rs:2405-2445 | Removing a room just added under a new id restores the whole database if and only if the machine was hosted there before or the peer was not already a route to it |
| PeeringRelay.FederatedSessions.constructor | relay/src/peering.rs:2299-2311 | A new relay knows nothing but its own name |
| PeeringRelay.FederatedSessions.LearnRoute | relay/src/peering.rs:2324-2330 | The whole new database is that of learning one route, none twice |
| PeeringRelay.FederatedSessions.LearnVia | relay/src/peering.rs:2338-2347 | The whole new database is that of learning one via link; empty names are ignored |
| PeeringRelay.FederatedSessions.SetPeerRooms | relay/src/peering.rs:2382-2402 | The loop over a peer's rooms replaces exactly that peer's sessions and routes |
| PeeringRelay.FederatedSessions.AddRoom | relay/src/peering.rs:2405-2424 | One room is replaced or appended, and its machine is routable |
| PeeringRelay.FederatedSessions.RemoveRoom | relay/src/peering.rs:2425-2445 | One room goes; session and route entries left empty go too |
| PeeringRelay.FederatedSessions.LearnMachinePairings | relay/src/peering.rs:2453-2496 | The loop over claims is the run of single arrivals, each kept only if verified and newer |
| PeeringRelay.FederatedSessions.ClearPeer | relay/src/peering.rs:2674-2708 | The whole new database after a link's death, of which `ClearPeerIsExact` says what it means |
| PeeringRelay.FederatedSessions.RegisterSender | relay/src/peering.rs:2809-2816 | The link gains one connection |
| PeeringRelay.FederatedSessions.UnregisterSender | relay/src/peering.rs:2821-2826 | The link loses exactly its closed connections |
| PeeringRelay.FederatedSessions.SenderForCandidate | relay/src/peering.rs:2353-2372 | Finds the first open connection of the direct link, then of the origin's via links, never the excluded link |
| PeeringRelay.FederatedSessions.ResolveRoute | relay/src/peering.rs:2945-2975 | Finds the first candidate not to be skipped that resolves to an open connection |
| PeeringRelay.FederatedSessions.RecordHopBacklink | relay/src/peering.rs:2993-3003 | The popping loop leaves exactly the newest unexpired entries that fit, then the new one |
| PeeringRelay.FederatedSessions.TakeHopBacklink | relay/src/peering.rs:3005-3011 | Takes the first unexpired entry of the id, and nothing else |
| PeeringRelay.FederatedSessions.ForwardToFederated | relay/src/peering.rs:3017-3064 | A new forward is pending exactly if it was sent, and what is sent names this relay as visited |
| PeeringRelay.FederatedSessions.CancelForward | relay/src/peering.rs:3069-3071 | Only the pending entry goes |
| PeeringRelay.FederatedSessions.HandleRelayForward | relay/src/peering.rs:1398-1503 | New database and the one frame sent are those of handling a forward: refused, delivered here, or sent on with its backlink |
| PeeringRelay.FederatedSessions.HandleForwardAck | relay/src/peering.rs:1384-1390 | New database, frame sent on and answer given are those of handling an ack |
| PeeringRelay.FederatedSessions.SendToLinks | relay/src/peering.rs:2656-2666 | Every connection of every link but the arrival link is sent the frame, link by link in some order |
| PeeringRelay.FederatedSessions.LearnPeerListSegment | relay/src/peering.rs:1218-1246 | A segment changes the database as learning its via link, rooms and owner sets; one of our own name changes nothing |
| PeeringRelay.FederatedSessions.HandleRoomAdded | relay/src/peering.rs:1315-1331 | The room is learnt, and the update goes on to every other link unless it is our own |
| PeeringRelay.FederatedSessions.HandleRoomRemoved | relay/src/peering.rs:1333-1341 | The room is forgotten, and the update goes on to every other link unless it is our own |
| PeeringRelay.FederatedSessions.HandlePairingUpdate | relay/src/peering.rs:1346-1376 | The owner set is learnt under its origin, the arrival link if none is named, and goes on to every other link unless it is our own |
| PeeringRelay.FederatedSessions.LearnLocalMachinePairing | relay/src/peering.rs:2540-2566 | A local machine's push is learnt with this relay as origin and source |
| PeeringRelay.FederatedSessions.SharedClaims | relay/src/peering.rs:2907-2922 | The loop finds exactly the owner sets of one origin that did not come by the link |
| PeeringRelay.FederatedSessions.AdvertisementSegments | relay/src/peering.rs:2837-2936 | The result is an advertisement: own segment first, then one segment for each origin that may be shared with this peer, with distinct names, none the peer's or learnt over the link |
| RouteDatabase.RouteIndexRefinesSessions | relay/src/peering.rs:2382-2445 | After every sequence of operations each session is indexed by its machine, index lists are nonempty and duplicate-free, and every listed name is a session origin or a learnt route |
| RouteTables.ViaIsHistory | relay/src/peering.rs:2338-2347 | After any operations a link is a way back to an origin exactly if some advertisement, room or owner set of that origin came over it and it has not died since |
| RouteTables.RunStores | relay/src/peering.rs:2382-2445 | If no segment lists a room twice, each operation of a run leaves exactly these rooms: its own segment's, the added one for all others of its id, the removed one's id gone, and none that rode a dead link |
| RouteTables.NoRoomIsStoredTwice | relay/src/peering.rs:2405-2424 | If no segment lists a room twice, none is ever stored twice for a machine of an origin |
| RouteTables.ApplyRoutes | relay/src/peering.rs:2324-2445 | Each operation leaves exactly these routes: an origin's segment decides its own, a room or a forward adds one, the last room's removal takes one, a dead link takes what rode it |
| RouteTables.RoutesKeepOrder | relay/src/peering.rs:2324-2330 | Whatever is learnt or forgotten, routes known earlier keep their order and stay ahead of new ones |
| RouteTables.ViaKeepsOrder | relay/src/peering.rs:2338-2347 | The same for via links |
| RouteTables.OwnerSetsWereBrought | relay/src/peering.rs:2453-2496 | Every stored owner set is a claim some operation brought, stored under that operation's origin and its arrival link |
| RouteTables.ApplyPairings | relay/src/peering.rs:2453-2496 | An operation stores nothing but its own claims, and each claim that verifies or something at least as new |
| RouteDatabase.WayBackIff | relay/src/peering.rs:2338-2347 | All through a run every session of a named origin has a via link, if and only if no operation stores one, of an origin without a via link, over a link that has not named itself |
| RouteDatabase.SessionsHaveAWayBack | relay/src/peering.rs:2338-2347 | When each link that brings a session is named, a session's origin has a via link exactly when it has a name; via lists are nonempty and duplicate-free |
| RouteDatabase.NeverItsOwnPeer | relay/src/peering.rs:1225-1231 | This relay is never an origin or a via key, whatever the links are called |
| RouteDatabase.UnnamedLinkLeavesNoWayBack | relay/src/peering.rs:1143-1148 | The counterexample: a room of a named origin that arrives before the first segment has named the link is stored without a way back, and no death of a link not called like that origin removes it |
| RouteDatabase.ClearPeerIsExact | relay/src/peering.rs:2674-2708 | A link's death removes exactly what rode it: its name from every via list, the sessions and routes of origins named by it or reachable by no other link, and the owner sets that came by it or from them; all else is unchanged, and the lists stay nonempty and duplicate-free |
| RouteDatabase.OwnPairingsSurvive | relay/src/peering.rs:2540-2566 | Owner sets pushed by this relay's own machines survive every other link's death, if no link bears this relay's own name |
| RouteDatabase.UnnamedOriginOutlivesItsLink | relay/src/peering.rs:2338-2347 | The counterexample: a segment of an empty origin name gets no via link and no named link's death removes it |
| RouteDatabase.OpsOnlyReroute | relay/src/peering.rs:2382-2496 | Learning and forgetting never touch connections, backlinks or pending forwards |
| Rerouting.OpsAreALegalRun | relay/src/peering.rs:1308-1391 | Any operations at any relay, in any state of a network, are a legal run of it, which changes that relay's database as they would alone, and nothing else |
| Rerouting.RegisteringIsEnabledIff | relay/src/peering.rs:2809-2816 | Registering a channel is a step of the network too if and only if it is an end of one of the relay's connections |
| Rerouting.UnregisteringIsEnabled | relay/src/peering.rs:2821-2826 | Dropping a link's closed channels is always such a step |
| GroupedView.GroupSessionsByEpk | relay/src/peering.rs:2265-2291 | In whatever order the table yields entries, each machine's group holds exactly the room ids stored for it, each once |
| GroupedView.DaemonsAreSkipped | relay/src/peering.rs:2265-2291 | A grouping that skips daemon rooms lists every other stored room id and no daemon; one that does not lists all |
| GroupedView.GroupingsAgree | relay/src/peering.rs:2265-2291 | Two iteration orders list the same machines and the same room ids |
| GroupedView.GroupedMachinesAreRoutable | relay/src/peering.rs:2731-2734 | A machine appears in the grouped view exactly when it has sessions, and then the route index can reach the relay it is shown under |
| OwnerSets.StoredSetsWereSigned | relay/src/peering.rs:2453-2496 | Whatever arrives, forged or not, every stored owner set is one its machine signed at the stored version |
| OwnerSets.HighestVersionWins | relay/src/peering.rs:2453-2496 | The stored entry is the verified document of highest version ever offered, and every offered version is at most it |
| OwnerSets.ArrivalOrderIsIrrelevant | relay/src/peering.rs:2453-2496 | With one document per machine and version, any order, links and repetitions leave the same versions and owners |
| OwnerSets.BatchIsArrivals | relay/src/peering.rs:2453-2496 | A batch is the run of its single arrivals |
| Advertisement.ReceiverLearnsAll | relay/src/peering.rs:1117-1153 | However other frames and events interleave with the segments, a current peer learns every segment sent, in order, and an older one exactly the sender's own, each among the others as it came |
| Advertisement.WhoIsAdvertised | relay/src/peering.rs:2837-2936 | Past its own segment a relay tells a peer of exactly the origins that are neither of the two nor the link, were not learnt over the link, and have a machine here or an owner set that came by another link |
| Advertisement.WhichSetsAreTold | relay/src/peering.rs:2907-2922 | Of such an origin exactly the owner sets that came by another link are told, as they were stored |
| Advertisement.ExchangeIsARoundTrip | relay/src/peering.rs:1218-1288 | After an exchange, for each origin that nothing arriving in between concerns, the receiver holds exactly the sender's sessions if it was advertised and is not the receiver, and is as before if not |
| Advertisement.LearnedSessions | relay/src/peering.rs:1218-1246 | Among any operations, the one segment that concerns an origin leaves exactly its rooms for that origin |
| Advertisement.NothingEchoes | relay/src/peering.rs:2837-2936 | While the link lives, what a relay has just learnt over it may not be shared back down it, whatever arrived in between |
| Advertisement.TransitKeepsOwnerSets | relay/src/peering.rs:2907-2922 | If no link dies meanwhile, a shared owner set reaches the receiver verbatim: it is at least as recent there, with the same owners at the same version, whatever else arrived in between |
| Flooding.FloodEndsIffNoCycle | relay/src/peering.rs:2651-2666 | Deliveries of one update are bounded over all schedules if and only if the flood cannot reach a cycle that avoids the origin |
| Flooding.CyclingNeverDies | relay/src/peering.rs:1315-1376 | Once a frame crosses such a cycle every schedule keeps one crossing it for ever |
| Flooding.RunsAreShort | relay/src/peering.rs:2651-2666 | Where walks are simple, the deliveries left are bounded by a weight that every delivery lowers |
| Flooding.TreeFloodIsExactlyOnce | relay/src/peering.rs:2651-2666 | On a tree every schedule ends, and then every other relay has handled the update exactly once and the origin never |
| Flooding.OnwardFacts | relay/src/peering.rs:1315-1331 | The copies a relay sends are exactly the ways the frame's walk can go on without turning back, each once |
| OnwardCopies.HandlersFlood | relay/src/peering.rs:2656-2666 | With one connection per neighbour, the connections the relay object sends on serve exactly the copies of the flood, each once |
| OnwardCopies.SentOnAllOthers | relay/src/peering.rs:2656-2666 | An update goes out on exactly the channels of the links it may go to, and on each once |
| PlanGraph.WaveIsLongestChain | unbien-cli/src/plan.ts:69-84 | A placed item's wave is exactly the length of its longest chain of unsatisfied blockers |
| PlanGraph.CircularIffCycle | unbien-cli/src/plan.ts:69-90 | An item stays unplaced exactly when some chain of its unsatisfied blockers runs into a cycle |
| PlanGraph.LayeringIsUnique | unbien-cli/src/plan.ts:69-84 | The layering is determined by the blocker graph alone |
| PlanGraph.FewerBlockersNeverHurt | unbien-cli/src/plan.ts:57-84 | Removing blockers never raises a wave and never makes an item circular |
| PlanGraph.NextWave | unbien-cli/src/plan.ts:73-84 | One pass of the loop keeps the layering and moves its frontier up by one |
| Plan.Layer | unbien-cli/src/plan.ts:69-84 | The loop terminates, and its result is the layering: each placed item one above its highest blocker, each other waiting on one unplaced |
| Plan.WaveOrder | unbien-cli/src/plan.ts:57-112 | The result is a permutation of the items' rows, sorted by done, wave, kind and id |
| Plan.EveryRowIsRight | unbien-cli/src/plan.ts:86-96 | Every row is right: circular exactly when its chains reach a cycle, otherwise the wave of its longest chain, and actionable exactly when a plan, not done, with no unsatisfied blocker |
| Plan.ActionableIffFree | unbien-cli/src/plan.ts:86-96 | An item is actionable exactly when it is a plan, not done, with no unsatisfied blocker |
| Plan.ComparatorIsAnOrder | unbien-cli/src/plan.ts:98-111 | The row comparator is total and transitive |
| Plan.BlockersComeFirst | unbien-cli/src/plan.ts:98-111 | Every not-done blocker of a placed, not-done item comes before it |
| PlanOrder.WhoBlocks | unbien-cli/src/plan.ts:22-38 | One item blocks another exactly if that one names it, it is another and on the list, and it is a plan or of unknown kind and not done, or a design and tainted; the last item of an id stands for it |
| PlanOrder.BlockedCountCounts | unbien-cli/src/plan.ts:59-67 | The count shown is the number of dependencies that block the item, each as often as it is listed |
| PlanOrder.WhatComesFirst | unbien-cli/src/plan.ts:98-111 | Of two rows the earlier is not done unless the later is; of two alike in that it is in no later wave, circular ones last; in one wave plans precede designs, notes and the rest; and of one kind the ids are in order |
| Plan.SatisfyingNeverHurts | unbien-cli/src/plan.ts:29-38 | Satisfying items never raises another item's wave and never makes it circular |
| Plan.BucketsAreContiguous | unbien-cli/src/plan.ts:116-120 | Between two sorted rows of one section every row is of that section |
| Plan.SectionRows | unbien-cli/src/plan.ts:121-131 | The grouping loop, run on sorted rows, moves none of them |
| Plan.WaveSections | unbien-cli/src/plan.ts:115-132 | The sections are nonempty, have distinct titles and single-titled rows, and concatenate back to exactly the order |
| PlanOrder.WhatASectionHolds | unbien-cli/src/plan.ts:116-120 | A section holds just the done rows, the circular ones, those free now, or those of one wave, as its title says |
| PlanOrder.SectionOrder | unbien-cli/src/plan.ts:114-132 | The sections come available now first, then the waves in order, then the cycle, then done |
| StableSort.SortSorts | unbien-cli/src/plan.ts:98-111 | Sorting by an order sorts |
| StableSort.SortPermutes | unbien-cli/src/plan.ts:98-111 | Sorting permutes |
| StableSort.SortIsStable | unbien-cli/src/plan.ts:98-111 | Elements the comparator does not tell apart keep their order |
| EditHunk.BuildEditHunk | extension/src/enrich_tool_args.ts:94-178 | The loops build exactly the hunk of the file's lines, the line of the match and both texts' lines |
| EditHunk.HunkAgreesWithBothTexts | extension/src/enrich_tool_args.ts:94-178 | For all texts around and in the edit, every line shown is the line of that number in the file before and after, if and only if the match starts a line, both texts stop where a line does, and both or neither take their newline along or only blank lines follow |
| EditHunk.MidLineEditsMislead | extension/src/enrich_tool_args.ts:94-178 | The counterexample: an edit inside a line is not shown truthfully |
| EditHunk.PrefixIsMaximal | extension/src/enrich_tool_args.ts:121-128 | The trimmed prefix is common and cannot be longer |
| EditHunk.SuffixIsMaximal | extension/src/enrich_tool_args.ts:130-138 | The trimmed suffix is common, never overlaps the prefix, and cannot be longer |
| EditHunk.TrimPrefix | extension/src/enrich_tool_args.ts:121-128 | The counting loop finds the longest common prefix |
| EditHunk.TrimSuffix | extension/src/enrich_tool_args.ts:130-138 | The counting loop finds the longest common suffix of what the prefix leaves |
| EditHunk.MiddleRestoresBoth | extension/src/enrich_tool_args.ts:140-166 | The middle section's context and removed texts are the old lines, its context and added texts the new ones, each numbered consecutively |
| EditHunk.SidesAreNumbered | extension/src/enrich_tool_args.ts:112-176 | On either side the numbers run without a gap through the whole hunk, and the texts are the lines before, the edit's own, and the window after |
| EditExtent.FourLinesAround | extension/src/enrich_tool_args.ts:94-118 | Either side shows exactly the edit's own lines and up to four lines of the file on either hand |
| EditExtent.DotsSayThereIsMore | extension/src/enrich_tool_args.ts:112-176 | A hunk opens with dots exactly if it leaves lines out before, ends with dots exactly if it does after, and has no others |
| EditExtent.OnlyDifferencesAreMarked | extension/src/enrich_tool_args.ts:121-166 | The removed and added lines are what is left of the two texts once their common ends are off, differ in their first and last lines, and no line is added before another is removed |
| EditHunk.MatchOffset | extension/src/enrich_tool_args.ts:58-64 | The text before a match's offset is what precedes the match |
| Lines.LineNumberAt | extension/src/enrich_tool_args.ts:180-184 | The counted line is one more than the newlines before the offset |
| Lines.SplitConcat | extension/src/enrich_tool_args.ts:101-101 | Joining two texts joins the last line of one to the first line of the other |
| Lines.MiddleLines | extension/src/enrich_tool_args.ts:186-191 | Which lines a text inside another holds and which follow it, and exactly when its preview lines stand there whole |
| Lines.LastLineEmpty | extension/src/enrich_tool_args.ts:186-191 | The last line is empty exactly when the text is, or ends in a newline |
| EditSearch.EnrichEdits | extension/src/enrich_tool_args.ts:34-70 | The loop over a call's edits gives one hunk for each that says anything, in order, each at the next match after the last, else the first in the file, else where the search stands |
| EditSearch.WhichMatch | extension/src/enrich_tool_args.ts:58-62 | An edit is shown at the next match at or after where the search stands; if there is none ahead, at the first in the file; and if the file has none, or nothing is replaced, where the search stands |
| EditSearch.LaterEditsLieBehind | extension/src/enrich_tool_args.ts:58-66 | Edits found one ahead of the other are shown in order, at matches that neither overlap nor coincide |
| EditSearch.FoundEditsAreTruthfulIff | extension/src/enrich_tool_args.ts:58-66 | For an edit whose old text is in the file, the offset found splits the file around it, and its hunk is truthful exactly when that match is line-aligned |
| EditSearch.FindIsFirst | extension/src/enrich_tool_args.ts:58-62 | The match found is the first at or after the start, and none is found only if there is none |
| EditSearch.HunksAreNeverEmpty | extension/src/enrich_tool_args.ts:64-65 | An edit that says anything always shows something |
| Reducer.Reduce | unbien-cli/src/reduce.ts:104-171 | The loop that changes cards already put out shows, at the end, each row with the result it ends up with, and no card twice |
| Reducer.ReduceConcat | unbien-cli/src/reduce.ts:104-171 | Two streams in a row give the rows of the first, changed only in results of cards the second ends before restarting, then exactly the rows of the second |
| Reducer.RowsSnoc | unbien-cli/src/reduce.ts:110-168 | One more frame adds its row, or sets the result in the row of the last start of its id |
| TranscriptParts.TranscriptIsItsParts | unbien-cli/src/reduce.ts:104-171 | A transcript shows exactly the messages but for tools' results, the tools started and the warnings and errors of its stream, each once and in order, and nothing else |
| TranscriptParts.OwnResultIsShown | unbien-cli/src/reduce.ts:121-146 | A call started and ended once stands where it was started, with the content, details and error flag of its end as they came; one not ended stands there without a result |
| Replay.EntriesToEnvelopes | unbien-cli/src/reduce.ts:47-93 | The nested loops emit exactly the frames of each entry in order |
| TranscriptParts.ReplaySaysTheHistory | unbien-cli/src/reduce.ts:47-93 | Replay streams exactly the messages of a history but for the system record and tools' results, its assistant's calls and its tools' results, each once and in order |
| Replay.ReplayIsTheTranscript | unbien-cli/src/reduce.ts:47-93 | Replayed history shows each message that is neither system nor tool result once, in order, followed by its cards, each with its own last result |
| Replay.LastEndIsAnswer | unbien-cli/src/reduce.ts:60-91 | In the replayed stream a card's result is the last tool result for it before its id is called again |
| Replay.LoneAnswerIsShown | unbien-cli/src/reduce.ts:60-91 | A call answered once, later, and never repeated is shown with that answer |
| Rooms.RoomManager.constructor | relay/src/rooms.rs:105-107 | A new manager has no edges and no intents |
| Rooms.RoomManager.Subscribe | relay/src/rooms.rs:111-130 | The indexes stay inverse, and the subscriber's edges are exactly the new list |
| Rooms.RoomManager.Unsubscribe | relay/src/rooms.rs:133-143 | The indexes stay inverse, and exactly the named edges go |
| Rooms.RoomManager.UnsubscribeAll | relay/src/rooms.rs:146-156 | The indexes stay inverse, and all the subscriber's edges and its intent go |
| Rooms.RoomManager.SetRequested | relay/src/rooms.rs:162-170 | Only the subscriber's intent changes; an empty one is forgotten |
| Rooms.RoomManager.ReconcileSubscribers | relay/src/rooms.rs:178-206 | The indexes stay inverse, and the machine's edges are exactly its requesters that are allowed |
| Rooms.RoomManager.SubscribersOf | relay/src/rooms.rs:209-215 | The subscribers found are those of the edges, and those whose own index names the peer |
| RoomSteps.StepKeepsExact | relay/src/rooms.rs:111-206 | A step whose write is right when made, or about to be overwritten, keeps: wherever nothing is under way, watching is exactly asking and being allowed |
| RoomSteps.IntentsAreSaid | relay/src/rooms.rs:146-170 | After any run what is on record is what each subscriber last asked for, and never an empty wish |
| RoomSteps.RunIsExactIff | relay/src/rooms.rs:111-206 | Over every interleaving that stays so throughout if and only if each write was right when made, or about to be overwritten |
| RoomOrder.OrderlyRunsAreExact | relay/src/rooms.rs:172-206 | A run is exact, and once quiet watching is exactly asking and being allowed, if its calls merely come in this order: requests of a subscriber applied as asked, pushes of a machine reconciled as made, and between filter and subscribe no leaving and no push for a machine asked for that is reconciled before |
| RoomOrder.OrderlyIsCurrent | relay/src/handlers/peer.rs:331-343 | In a run so ordered, told from the calls alone, every list applied and every owner set reconciled is right when written |
| RoomOrder.QuietIff | relay/src/rooms.rs:111-206 | Nothing is under way exactly when every request asked has been applied and every push reconciled |
| RoomSteps.ReconcileIsExactIff | relay/src/handlers/peer.rs:411-463 | Reconciling a push leaves watching exact if and only if, among those who asked, it names exactly the owners the machine allows by then |
| RoomSteps.ApplyIsExactIff | relay/src/handlers/peer.rs:331-343 | Applying a filtered list leaves watching exact if and only if the list is still what the filter would give |
| RoomSteps.CancelIsExactIff | relay/src/rooms.rs:133-143 | The separate unsubscribe call leaves watching exact if and only if it cancels nothing in force |
| RoomSteps.RevokedOwnerWatchesAgain | relay/src/handlers/peer.rs:411-463 | The counterexample: two pushes of one machine over two connections are reconciled the other way round, and an owner revoked by the second watches again though nothing is under way any more |
| RoomSteps.GrantInTheGapIsLost | relay/src/handlers/peer.rs:331-343 | The counterexample: a grant pushed and reconciled between filter and subscribe is lost though nothing is under way any more |
| MeshModel.EveryRunDelivers | extension/src/index.ts:2332-2407 | In every run: what was sent, is being sent or waits is exactly what has arrived since the agent was bound, in order, as the events alone tell; each batch asks for a turn once, with its last message, if handed over whole; a nonempty queue is scheduled, behind a run, in a drain, or left by a failed one |
| MeshModel.RunTakesInAll | extension/src/index.ts:2375-2407 | Every message that arrives once an agent is bound is taken in, in order, whatever the agent is doing |
| MeshModel.RunKeepsInv | extension/src/index.ts:2332-2407 | Every run keeps conservation, turns batch by batch, that the flag is never up without a cause, and that no queue is forgotten |
| MeshModel.StepConserves | extension/src/index.ts:2345-2364 | No step loses, repeats or reorders a message, also when a send throws or messages arrive during a drain |
| MeshModel.StepSendsByBatch | extension/src/index.ts:2348-2358 | What was sent is what the drains handed over, only the last message of a batch asking for a turn |
| MeshModel.OneTurnPerCompleteBatch | extension/src/index.ts:2348-2358 | As many turns are asked for as batches were handed over completely |
| MeshModel.StepKeepsFlagIff | extension/src/index.ts:1702-1734 | A step keeps the flag up exactly while the agent runs, owes a turn, has a run of this generation left to settle, or is being handed a batch, if and only if it is not a send that throws once the agent has become busy, nor settles a run that ended inside a drain which then asked for a turn |
| MeshModel.FlagIsExactIff | extension/src/index.ts:2332-2373 | The flag is exact all through a run if and only if no step of it is one of those |
| MeshModel.StepKeepsFlag | extension/src/index.ts:1702-1734 | Whatever happens, the flag is up only while the agent is busy or is being handed a batch |
| MeshModel.ThrowBesideARun | extension/src/index.ts:2359-2364 | The counterexample: a send that starts a run and then throws leaves the flag down beside it, and the next batch is handed to a busy agent |
| MeshModel.StepForgetsNothing | extension/src/index.ts:2332-2343 | A nonempty queue is always scheduled, behind the flag, or left by a failed drain |
| MeshModel.DrainsStartIdle | extension/src/index.ts:2338-2347 | While no step has taken the flag down too early, a drain starts only when the agent neither runs nor owes a turn nor has a run left to settle |
| MeshModel.ScheduledQueueIsDelivered | extension/src/index.ts:2332-2373 | From any reachable state a scheduled queue before an idle agent can be handed over whole, after which all received messages have been sent |
| MeshModel.SettlingReschedules | extension/src/index.ts:1712-1724 | A queue behind a run, or left by a failed drain, is scheduled once a run has ended and settled |
| MeshDelivery.Delivery.DeliverMeshMessageToAgent | extension/src/index.ts:2375-2407 | A message is queued and the drain scheduled, or dropped while no agent is bound |
| MeshDelivery.Delivery.ScheduleMeshMessageDrain | extension/src/index.ts:2332-2334 | The drain is scheduled once, and only for a nonempty queue |
| MeshDelivery.Delivery.RunMicrotask | extension/src/index.ts:2335-2372 | The microtask takes exactly the steps of its script: nothing, a whole batch, or a batch up to the first refusal with the rest put back in front |
| MeshDelivery.Delivery.OnAgentStart | extension/src/index.ts:1702-1706 | A run starts in a new generation |
| MeshDelivery.Delivery.OnAgentEnd | extension/src/index.ts:1712-1734 | The run's generation is put off to settle |
| MeshDelivery.Delivery.SettleRun | extension/src/index.ts:1718-1724 | The flag comes down only if no newer run has started |
| SubagentModel.RunKeepsBindings | extension/src/subagent_rooms.ts:404-503 | While no event names a pair of its own, over every event order records and sessions are bound one to one, only to sessions that have started, and for good |
| SubagentModel.StepKeepsBindings | extension/src/subagent_rooms.ts:404-503 | Each such event keeps that, and takes no binding back |
| SubagentModel.RunKeepsQueue | extension/src/subagent_rooms.ts:330-337 | Whatever events carry, no session waits twice or waits while it is bound |
| SubagentModel.RunKeepsRooms | extension/src/subagent_rooms.ts:588-667 | However builds, releases and closings interleave, a released session never has a room, and every room is the one its session names |
| SubagentModel.OwnRoomIsNeverForeign | extension/src/subagent_rooms.ts:822-846 | Closing a session's own room is never refused as foreign, and leaves it released and without a room |
| SubagentModel.NamedMarkerKeepsInjectiveIff | extension/src/subagent_rooms.ts:320-329 | A marker that names its record keeps bindings one to one if and only if no other record has the session |
| SubagentModel.NamedRecordKeepsInjectiveIff | extension/src/subagent_rooms.ts:469-485 | A record that names its session keeps bindings one to one if and only if no other record has the session |
| SubagentModel.TwoMarkersShareASession | extension/src/subagent_rooms.ts:541-545 | The counterexample: two markers naming different records bind both to one session |
| SubagentModel.StepExtends | extension/src/subagent_rooms.ts:486-503 | Each such event binds at most one record, unbound before, to a session that was waiting and has started |
| SubagentMatching.WhichSession | extension/src/subagent_rooms.ts:444-518 | A record not yet bound is bound to the session it names, if the panel has it; else to the first in the queue whose file the service names; else, started or resumed, to the first in the queue that has started; the others keep their places, and without any of these nothing changes |
| SubagentMatching.FileDecides | extension/src/subagent_rooms.ts:559-580 | A record whose file some waiting session has is bound to a waiting session of that file |
| SubagentMatching.MarkerAnnounces | extension/src/subagent_rooms.ts:295-385 | A marker without a record's id puts its session at the end of the queue, unless it waits or is bound, and on the panel, and no more |
| SubagentMatching.StartAnnounces | extension/src/subagent_rooms.ts:704-795 | A session start remembers the file and, while the parent is open, puts the session at the end of the queue, as started, and on the panel |
| SubagentMatching.OnlyOwnRoomIds | extension/src/subagent_rooms.ts:120-138 | A room goes by its session's own id whatever id is put forward; only an empty one is left as it is |
| SubagentMatching.StartedSessionsGetRooms | extension/src/subagent_rooms.ts:588-667 | After any events a session that starts while the parent is open has a room under its own id, or a build whose end gives it one |
| SubagentMatching.FinishedBuildOpens | extension/src/subagent_rooms.ts:642-666 | A finished build opens its session's room unless everything or the session was closed meanwhile |
| SubagentMatching.WhatCloses | extension/src/subagent_rooms.ts:400-427 | A disposed session is closed for good unless it started in this process; a close from the app closes it exactly if allowed and not under another's room id; a room that closes takes only itself along |
| SubagentMatching.TeardownClearsRooms | extension/src/subagent_rooms.ts:859-870 | After teardown, whatever happened before and happens later, there is no room |
| SubagentRooms.Controller.OnChildMarker | extension/src/subagent_rooms.ts:295-385 | The controller's whole new state is that of a marker |
| SubagentRooms.Controller.OnChildSession | extension/src/subagent_rooms.ts:704-795 | The controller's whole new state is that of a session start |
| SubagentRooms.Controller.OnRecord | extension/src/subagent_rooms.ts:444-518 | The controller's whole new state is that of a record: matched by file, or the first waiting session that has started |
| SubagentRooms.Controller.BindRecord | extension/src/subagent_rooms.ts:541-545 | The pair is bound and the session's queue entry goes |
| SubagentRooms.Controller.BindByServiceMatch | extension/src/subagent_rooms.ts:559-580 | The first waiting session of the record's file is bound, or nothing changes |
| SubagentRooms.Controller.EnsureChildRoom | extension/src/subagent_rooms.ts:588-642 | A build starts only if the session has no room and none is on the way, under the session's own room id |
| SubagentRooms.Controller.OnChildDisposed | extension/src/subagent_rooms.ts:400-427 | A session that never started here is released; one that did lingers |
| SubagentRooms.Controller.TerminateChildRoom | extension/src/subagent_rooms.ts:822-846 | The session is released unless the gate or a foreign room id refuses, and the result says so |
| SubagentRooms.Controller.OnBuilt | extension/src/subagent_rooms.ts:642-666 | A finished build is registered unless everything or the session was closed meanwhile |
| SubagentRooms.Controller.OnRoomClosed | extension/src/subagent_rooms.ts:641-641 | The closed room's entry goes |
| SubagentRooms.Controller.Dispose | extension/src/subagent_rooms.ts:859-870 | No room is left, and no event counts any more |
| UiModel.WhoHearsWhat | extension/src/extension_ui_bridge.ts:177-238 | In every run, a dialog that has left was told to the app, once, exactly if it was answered at the terminal, expired or was cancelled; the bridge resolved its caller, once, exactly if the app answered, it was cancelled or all was torn down |
| UiModel.RunKeepsInv | extension/src/extension_ui_bridge.ts:177-472 | Every run keeps: each dialog is pending or has left once; timers run for exactly the pending dialogs and no cleared timeout can fire; app and caller are told what the exits say; the caller has the first answer |
| UiModel.StepKeepsInv | extension/src/extension_ui_bridge.ts:189-472 | Each event (open, answer of either side, timeout, cancel-all, replay, teardown, continuation) keeps that |
| UiModel.CallerGetsTheFirstAnswer | extension/src/extension_ui_bridge.ts:710-726 | Once all continuations have run, each caller has the value of whoever answered first, terminal or app |
| UiAnswers.FirstToAnswerDecides | extension/src/extension_ui_bridge.ts:710-726 | Whoever first answers a dialog, the app, the terminal or a cancel of all, decides what its caller gets, whatever is answered later |
| UiAnswers.AnswersArrive | extension/src/extension_ui_bridge.ts:240-248 | A cancel, a text or a decision sent by the app arrives as such; a cancel overrides all else, and a text a decision |
| UiAnswers.ShownAsOpened | extension/src/extension_ui_bridge.ts:213-224 | In every run the app is shown exactly the dialogs opened, as they were asked for, each once and in order |
| UiAnswers.PendingAsOpened | extension/src/extension_ui_bridge.ts:417-427 | In every run the pending dialogs are the opened ones that have not left, oldest first |
| UiAnswers.WhoLeaves | extension/src/extension_ui_bridge.ts:177-472 | Each event closes exactly these: the one the app answers, the one whose timeout fires, the one whose terminal answer is continued, all of them at a cancel of all or a teardown, and none otherwise |
| UiAnswers.WhatIsTold | extension/src/extension_ui_bridge.ts:189-238 | In every run the app is told 'expired' exactly of the dialogs that expired and 'resolved' of those dismissed or cancelled; the bridge gives a caller the app's own answer, or none after a cancel of all or a teardown, and nothing else |
| UiAnswers.RunKeepsAborts | extension/src/extension_ui_bridge.ts:710-726 | In every run the terminal's dialogs closed by the race are exactly those whose caller has heard from the bridge |
| UiAnswers.ReplayRestartsTheClocks | extension/src/extension_ui_bridge.ts:417-427 | After a replay every pending dialog has a new timeout and none from before can fire |
| UiModel.ExpiredNeverResolves | extension/src/extension_ui_bridge.ts:189-208 | A dialog that expired is never resolved by the bridge, whatever happens later |
| UiModel.LeaveAllKeepsInv | extension/src/extension_ui_bridge.ts:434-472 | Closing all dialogs, oldest first, leaves none and keeps the ledger |
| UiBridge.Bridge.OpenStock | extension/src/extension_ui_bridge.ts:213-224 | The dialog is pending, shown to the app, and has a timer |
| UiBridge.Bridge.DismissStock | extension/src/extension_ui_bridge.ts:229-238 | A pending dialog leaves with a notice; one already gone changes nothing |
| UiBridge.Bridge.Respond | extension/src/extension_ui_bridge.ts:324-334 | A pending dialog leaves with its caller resolved and no notice; one already gone changes nothing |
| UiBridge.Bridge.OnTimeout | extension/src/extension_ui_bridge.ts:189-208 | The dialog of the timeout leaves with a notice, its caller unresolved |
| UiBridge.Bridge.CancelAllPending | extension/src/extension_ui_bridge.ts:434-459 | Every dialog leaves resolved and with a notice, and the count is how many there were |
| UiBridge.Bridge.PendingRequests | extension/src/extension_ui_bridge.ts:417-427 | The pending dialogs are returned oldest first, each with a fresh timer in place of its old one |
| UiBridge.Bridge.Dispose | extension/src/extension_ui_bridge.ts:460-472 | Every caller is resolved, the app is told nothing, and no dialog or timer is left |
| UiBridge.Bridge.RunContinuation | extension/src/extension_ui_bridge.ts:710-726 | The first queued answer reaches its caller; one from the app closes the terminal's dialog, one from the terminal dismisses the app's |
| UiBridge.TornDownIs | extension/src/extension_ui_bridge.ts:460-472 | Clearing all timers first and resolving all callers after is the same as closing the dialogs one by one |

## Left out

- Input, output and scheduling: sockets, the async runtime, reconnecting, file watching, configuration files and the handshake between relays; only the frames they exchange are events here.
- Signatures, base64 and JSON: a signature check is an unknown function from envelopes to documents, and frames arrive decoded. The signed text of a forward is a record of its fields, not the joined string.
- ForwardNetwork.StepKeepsInv: request ids are fresh and relays uniquely named, as the code assumes of 64-bit random numbers and of names; closed connections are a set fixed during a step, and a send on a channel that has just closed is a lost frame.
- Room fields other than the id and the daemon flag are one opaque text; peer documents (`learn_peer_doc`), the federated list pushed to local apps and metrics are not modelled.
- PeeringRelay.FederatedSessions.AdvertisementSegments: the order of the segments after the first is not stated, because the code sorts it only to be reproducible; the document and version fields added to the first segment are left out.
- PeeringRelay.FederatedSessions.SendToLinks: the order of links is not stated, because the code iterates over a hash table.
- Flooding.FloodEndsIffNoCycle: each neighbour is reached by one connection and one link name; two relays may hold two connections to each other, and then each update crosses twice.
- Advertisement.ReceiverLearnsAll: of a forward or an ack that arrives between two segments only the route it teaches is seen there; the frames it sends are those of the network of forwards.
- Flooding is about the frames only: what a relay stores for an update is proved separately for the relay object.
- Plan.WaveOrder: locale comparison of ids is an unknown ranking; section titles are a datatype, and item kinds and statuses arrive decoded.
- `agentItems`, the chronological list of subagents, is a plain sort by start time and would only add an easy member.
- Reading the edited file and picking the text fields of an edit out of its arguments; an edit is its old and new text, and the file a text or nothing.
- Tool arguments, details and block texts are opaque strings; `toEnvelope` is left out. Ids are compared as given, without the conversion to string.
- RoomSteps.StepKeepsExact: the filter reads all allow-lists in one step, while the code reads one target at a time; a signed push that is stale or badly signed never starts.
- `relay/src/presence.rs` is the same graph without the intent table.
- MeshModel.EveryRunDelivers: the agent's runs do not overlap; a run that starts counts as the turn that was owed, and a batch that ends while the agent runs as a follow-up to that run. The inbox, the observer event and the text built for the agent are left out.
- SubagentModel.RunKeepsRooms: does not say that at most one room is ever built for a session, because a session released while its room is being built and then started again may build two.
- Labels, statuses and parentage of subagents, the attaching of a producer to a room, and the panel broadcast are left out; panel rows are their room ids.
- UiModel.RunKeepsInv: flows of the clarification extension (`activeFlows`) are left out, as are the texts of notices; timeouts fire at any time. The wrapping of each `ctx.ui` method is the race only: the path without an attached peer calls the original.
- The prototypes under `app/Prototypes`, launchers, rendering and themes.
