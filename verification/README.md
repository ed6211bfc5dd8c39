# QKD network simulator: a verified model

The simulator this project models runs key managers, quantum links and applications that
consume quantum keys.  The model covers the parts in which several components have to
agree, one Dafny module per component:

* **Routing between key managers.**  `LocationRegister` (routing tables and neighbour
  lists), `Topology` and `LinkHelper` (numbering the key managers, building their graph,
  filling one table per key manager), `LinkDijkstra` (search with lazy deletion),
  `CenController` and `CenDijkstra` (the central controller, which pops its queue by vertex
  number), `CenWeights` and `CenRuns` (links up and down), `CenTables` and `CenStale` (what
  becomes of the tables then), on top of `Graphs`, `Relaxation`, `PriorityQueue` and
  `Routes`.
* **ETSI GS QKD 004 streams.**  `KeyStream` (keys on the heap, index-ordered streams),
  `App004` (one application), `App004Runs`, `App004Sender` and `App004Queue` (all runs of a
  sender, the packets in them, and how long its queue gets), `App004Handshake` and
  `App004Receiver` (how a receiver fills its queue, which arrivals it takes, and which keys
  they use), `Stream004` (all runs of sender, lossy channel and receiver).
* **ETSI GS QKD 014 key agreement.**  `App014` (one application), `Agreement014` (master,
  slave, key managers and channels as one system), `AgreementSteps`, `AgreementRuns`,
  `AgreementUses` (how often a key is used) and `AgreementTimers` (the timers of the master).
* **Buffers.**  `QBuffers`, `QBufferRuns` and `TotalGraph`.
* **Round trips.**  `AppHeader`, `KeyIds` and `Reframing` (data packets over TCP), `Csv`
  (statistics of several CPUs), `Encryptor` (one-time pads), on top of `Text` (decimals)
  and `Division`.

Objects whose methods update their fields are classes here; each method is proved against
a function on values, and runs are sequences of such functions.  `std::map` iterates in
ascending key order (`OrderedKeys`); `uint32_t` arithmetic is modular (`UInt32`); thrown
exceptions and null pointers are `Option` values (`Options`).

## What the code does where its documentation says something else

* `ClearRoutingTable` is empty and `AddEntry` never overwrites, so the central controller
  never changes a table after registration (`CenTables.TablesNeverChange`).  An EMPTY link,
  for which LinkDown is called, stays in use (`CenStale.EmptyLinkStaysInUse`,
  `CenStale.StaleAfterSwitch`).  `HopsSurviveLinkUp` and `HopsSurviveLinkDown` give the exact
  condition under which one hop count stays right, `CenStale.ReroutingWorksIff` that
  under which all of them are.  The stale tables still deliver (`CenTables.TablesDeliver`).
* The 004 application notes every key request under the encryption stream, so that keys for
  the authentication stream never reach it: with VMAC, the setting of its documented
  example, it sends no packet (`NothingSentWithVmac`, `PacketsFlowIff`).  `App004Runs` says
  what a sender with the other settings keeps (`SenderNeverStalls`).
* Authentication type 3 of the 004 application sets nothing: the type in use stays what
  memory held (`App004Runs.AuthenticationInUse`).
* The start-up guard "lifetime at least the packet size" of the 004 application is not what
  makes the receiver outlast the sender: `SenderStopsFirst` holds for every lifetime.
* A 004 packet that is not encrypted, and is the last one an arrival completes, leaves its
  receiver in DECRYPT_DATA, where it takes no further arrival (`ReadyAgainIff`,
  `LeftInDecryptData`); one that completes with others behind it does no harm
  (`SameArrivalOrNext`).
* With one-time pad the 014 application never erases an encryption key: the first key of
  its store pads every packet (`PadKeyStays`, `PadIsReused`).  With AES a key is used for
  the packets its lifetime is good for (`MasterUses`); it is used beyond its lifetime exactly
  if that is below the packet size, which StartApplication lets pass for 0 (`OverusedIff`).
* Closing the authentication session of the 004 sender clears its encryption session, too
  (`CloseLosesEncryption`); the receiver, too, never gets ready with VMAC (`VmacNeverReady`).
* With one-time pad and a packet length that makes the key size a multiple of 2^32 bits the
  014 master asks for no key and uses one all the same (`FirstPacketFailsIff`).
* A denied request leaves its type in the queue of the 014 master (`RequestsLineUpIff`), so
  that later keys can be filed under the wrong type (`OneDenialMisfiles`); that can happen
  exactly with settings that need keys of both types (`MisfilingPossibleIff`).
* WARNING and CHARGING are documented as falling and rising levels.  Both can be the other
  way (`ChargingWhileFalling`, `WarningWhileRising`); `GetChargesIff` and `StoreWarnsIff`
  give the exact conditions, and `StatusInEveryRun` the transition graph that holds.
* A CSV file loses an empty name at the end of its header line, and columns longer than
  the first are cut (`RoundTripIff`).

## Assumptions about the surroundings

* Key managers hand the 004 sender rising indices and the 004 receiver each index at most
  once, with the same value per index (GET_KEY, section 6 of ETSI GS QKD 004).
* Key managers answer the requests of one 014 connection in order, hand out every key id
  once and the same key under the same id on both sides (Get key and Get key with key IDs,
  section 5 of ETSI GS QKD 014); a granted request carries at least one key.
* A 004 key manager answers requests that were made, and hands out each index of a session
  once; two sessions count independently, so that their indices can be equal.  The 004
  receiver confirms a session and the queues once.
* Signalling between 014 applications is in order.  Data packets may be lost and, for 014,
  overtake each other; they are not duplicated.
* A handler is one step.

## Model

| member | source | states |
|---|---|---|
| Graphs.SameDistances | helper/qkd-link-helper.cc:417-479 | two label arrays that are shortest for the same source agree on the distance of every vertex |
| Graphs.SimpleIsShort | helper/qkd-link-helper.cc:417-479 | a path that visits no vertex twice has fewer steps than there are vertices |
| Relaxation.NoWrap | helper/qkd-link-helper.cc:463-470 | while path sums stay below INF the 32-bit sum of a label and an edge weight does not wrap |
| Relaxation.UpdateKeeps | helper/qkd-link-helper.cc:466-473 | lowering one label keeps it a true path sum: every finite label is the weight of some path that its predecessors spell out |
| Relaxation.LabelIsLeast | helper/qkd-link-helper.cc:417-479 | once no edge can lower a label, no path is lighter than the label of its end |
| Relaxation.RelaxedIsShortest | helper/qkd-link-helper.cc:417-479 | then the labels are exactly the distances, INF exactly for unreachable vertices, and each reachable vertex but the source has a real neighbour as predecessor with dist[v] = dist[prev] + weight |
| PriorityQueue.Top | helper/qkd-link-helper.cc:433-452 | top of the queue: no entry is smaller |
| LinkDijkstra.PopCurrent | helper/qkd-link-helper.cc:448-457 | an entry that is not stale belongs to a vertex not expanded before |
| LinkDijkstra.VisitNeighbours | helper/qkd-link-helper.cc:459-475 | one vertex: all its edges are relaxed, every lowered vertex is queued again, and the search invariant holds as before |
| LinkDijkstra.DijkstraSP | helper/qkd-link-helper.cc:417-479 | terminates on every graph with positive weights whose path sums stay below INF, with the exact distance of every vertex and correct predecessors; the vertices expanded are exactly the reached ones, none twice |
| CenDijkstra.VisitFriends | model/qcen-control.cc:224-241 | one popped vertex in the label-correcting variant: its edges are relaxed and everything lowered waits in the queue |
| CenDijkstra.Pop | model/qcen-control.cc:217-222 | popping keeps every vertex with an unrelaxed edge in the queue, or makes it the one being visited |
| CenDijkstra.DijkstraSP | model/qcen-control.cc:194-245 | popping by vertex number without a stale check still terminates on every such graph, with exact distances and predecessors |
| CenDijkstra.SameAsLinkHelper | model/qcen-control.cc:194-245 | both searches give the same distance for every vertex of every such graph |
| Routes.ChainStep | helper/qkd-link-helper.cc:524-541 | one step back along the stored predecessors stays reachable and comes strictly closer to the source |
| Routes.FirstHopIsCloser | helper/qkd-link-helper.cc:524-560 | the first hop of a predecessor chain is a neighbour of the source, and its own distance to the destination is smaller by exactly the weight of that edge |
| Routes.NextHopStoresLess | helper/qkd-link-helper.cc:492-588 | tables of different sources, each from its own search, fit together: the next hop stores less, by exactly the weight of the link to it |
| Routes.ForwardingArrives | helper/qkd-link-helper.cc:492-588 | whatever the weights, passing a message from table to table reaches every destination in the table of its start |
| Routes.ForwardingIsExactAndLoopFree | helper/qkd-link-helper.cc:492-588 | with unit weights it arrives after exactly the number of hops stored at the start and meets no key manager twice |
| Routes.BuiltEntryIsRight | helper/qkd-link-helper.cc:558-580 | the entry built from a label and a first hop has the exact distance and a closer neighbour as next hop |
| Routes.SumsStayBelow | helper/qkd-link-helper.cc:424-431 | at most INF / 2 vertices with unit weights (or few enough with larger ones) keep all path sums below INF |
| Routes.UnitDistance | helper/qkd-link-helper.cc:515-521 | with unit weights a reachable vertex has a distance below the number of vertices, so that the INF / 2 test skips exactly the unreachable ones |
| Routes.Shortcut | model/qcen-control.cc:194-245 | every path can be shortened to one without repeated vertices that uses no more links of either weight |
| Routes.FilledFresh | model/qcen-control.cc:249-298 | filling an empty table gives an entry for exactly the other reachable vertices, each of them right |
| Routes.FilledComplete | model/qcen-control.cc:249-298 | filling a table that has an entry for every other vertex changes nothing |
| Routes.AllFilledFresh | helper/qkd-link-helper.cc:484-590 | tables that were all empty are all right after filling |
| OrderedKeys.AscendingUnique | helper/qkd-link-helper.cc:345-355 | the iteration order of a std::map is determined by its keys |
| LocationRegister.QKDLocationRegister.AddEntry | model/qkd-location-register.cc:58-70 | an entry is added unless its destination has one or it leads from the node to itself; nothing is overwritten |
| LocationRegister.QKDLocationRegister.Lookup | model/qkd-location-register.cc:79-97 | the entry of the id, or none |
| LocationRegister.QKDControl.RegisterQKDModulePair | model/qkd-control.cc:144-196 | the remote key manager joins the neighbour list exactly if it is new |
| LocationRegister.QKDControl.GetRemoteKmNodeIds | model/qkd-control.cc:134-142 | the neighbour list, in order |
| LocationRegister.QKDControl.AddRouteEntry | model/qkd-control.cc:331-336 | adds to the register of this controller and changes nothing else |
| LocationRegister.QKDControl.GetRoute | model/qkd-control.cc:315-323 | the installed route, or none |
| LocationRegister.QKDControl.ClearRoutingTable | model/qkd-control.cc:325-329 | nothing is cleared |
| LocationRegister.FileControllers | helper/qkd-link-helper.cc:334-337 | one controller for every id that occurs, and it is the first of the list with that id |
| Topology.ConnectKeeps | helper/qkd-link-helper.cc:396-404 | adding both directions of a missing link keeps the rows symmetric and free of duplicates and self-loops |
| Topology.GraphOkIsSearchable | helper/qkd-link-helper.cc:424-431 | such a graph with at most INF / 2 key managers satisfies what the search needs |
| Topology.PartialDone | helper/qkd-link-helper.cc:358-408 | after the last neighbour list there is an edge exactly where one of two different key managers lists the other |
| LinkHelper.IndexMapIsBijection | helper/qkd-link-helper.cc:345-355 | numbering the keys of a map in order is a bijection |
| LinkHelper.QKDLinkHelper.GetColumn | helper/qkd-link-helper.cc:291-301 | the index of a known id |
| LinkHelper.QKDLinkHelper.ReverseColumn | helper/qkd-link-helper.cc:303-312 | the id at an index |
| LinkHelper.QKDLinkHelper.RowHas | helper/qkd-link-helper.cc:390-394 | the scan of a row finds a target exactly if there is an edge to it |
| LinkHelper.QKDLinkHelper.NumberControllers | helper/qkd-link-helper.cc:345-355 | ids and indices are in bijection afterwards |
| LinkHelper.QKDLinkHelper.BuildAdjacency | helper/qkd-link-helper.cc:358-408 | the adjacency list of the neighbour lists: symmetric, duplicate-free, self-loop-free, and with exactly the listed links |
| LinkHelper.QKDLinkHelper.CreateTopologyGraph | helper/qkd-link-helper.cc:315-411 | afterwards ids and indices are in bijection and the graph joins exactly the different key managers one of which has the other as neighbour |
| LinkHelper.QKDLinkHelper.WalkBack | helper/qkd-link-helper.cc:523-541 | the walk from a reachable destination ends at the source with the first hop last; the broken-chain branch is never taken |
| LinkHelper.QKDLinkHelper.RouteTo | helper/qkd-link-helper.cc:507-588 | one destination: an entry exactly if it is reachable and not the source itself; the invalid-length branch is never taken |
| LinkHelper.QKDLinkHelper.InstallRoutes | helper/qkd-link-helper.cc:492-588 | one key manager, whatever its table held: exactly the missing reachable destinations get an entry, each of them right, and no entry changes |
| LinkHelper.QKDLinkHelper.PopulateRoutingTables | helper/qkd-link-helper.cc:484-590 | on any tables: every entry stays, and every key manager gets one for exactly the other reachable ones it had none for, with the exact hop count and a direct neighbour as next hop; no error branch is taken |
| LinkHelper.QKDLinkHelper.FreshTablesAreRight | helper/qkd-link-helper.cc:484-590 | tables that were empty before the call are right after it |
| LinkHelper.QKDLinkHelper.RoutesDeliver | helper/qkd-link-helper.cc:484-590 | in the graph CreateTopologyGraph built, right tables deliver every listed destination in exactly the stored hops, without a loop |
| CenWeights.DistanceCountsDownLinks | model/qcen-control.cc:101-119 | in a graph with weights 1 and 100 on at most 100 nodes, distance / 100 is the least number of down links and distance % 100 the fewest up links that go with it |
| CenWeights.SetLinkSwitches | model/qcen-control.cc:151-190 | the two scans set exactly the edges between the two nodes and leave everything else, order included |
| CenWeights.SwitchKeepsSymmetry | model/qcen-control.cc:151-190 | switching a link keeps the weights symmetric |
| CenWeights.SwitchKeepsConnected | model/qcen-control.cc:151-190 | switching a link changes no reachability |
| CenWeights.WalkEndsIffReachable | model/qcen-control.cc:264-268 | the unchecked walk along the predecessors meets the source exactly for reachable vertices; elsewhere it stands still for ever |
| CenController.DownGraphOk | model/qcen-control.cc:78-119 | the initial graph: every link down, symmetric, without duplicates |
| CenController.QCenController.GetColumn | model/qcen-control.cc:127-138 | the position of an id among the registered ones |
| CenController.QCenController.WalkBack | model/qcen-control.cc:262-268 | ends for every reachable vertex, with the first hop last |
| CenController.QCenController.RegisterDControllers | model/qcen-control.cc:78-119 | all links start down, and the registers of the controllers, which they share, are filled |
| CenController.QCenController.LinkUp | model/qcen-control.cc:172-190 | exactly the edges between the two nodes get weight 1; then missing entries are added and no entry changes |
| CenController.QCenController.LinkDown | model/qcen-control.cc:151-169 | exactly the edges between the two nodes get weight 100; then missing entries are added and no entry changes |
| CenController.QCenController.PopulateRoutingTables | model/qcen-control.cc:249-298 | existing entries stay as they are, every missing one is added with the current distance and first hop |
| CenRuns.RunKeeps | model/qcen-control.cc:151-190 | after any sequence of LinkUp and LinkDown the weights are 1 or 100 and symmetric and the network is as connected as before |
| CenRuns.WeightIsLastSwitch | model/qcen-control.cc:151-190 | after any sequence every link has the weight of its last switch |
| CenRuns.ComputedDistances | model/qcen-control.cc:194-245 | after any sequence on at most 100 nodes every computed distance has the least possible number of down links in its hundreds and the fewest up links in the rest |
| CenRuns.HopsSurviveLinkUp | model/qcen-control.cc:172-190 | an installed hop count is still exact after LinkUp(a, b) if and only if no route across that link, in either direction, is shorter by the distances known before |
| CenRuns.HopsSurviveLinkDown | model/qcen-control.cc:151-169 | a hop count is still exact after LinkDown(a, b) if and only if some path of that length did without the link while it was up |
| CenTables.TablesNeverChange | model/qcen-control.cc:249-298 | over any run of LinkUp and LinkDown on a connected network: the tables after every switch are the complete ones of the registration |
| CenTables.RegisteredTablesAreRight | model/qcen-control.cc:78-119 | registration on empty tables makes every table right |
| CenTables.TablesDeliver | model/qcen-control.cc:249-298 | after any run the tables, stale or not, deliver every message in at most the stored number of hops |
| CenTables.NextHopIsStillLinked | model/qcen-control.cc:151-190 | and every stored next hop is still a neighbour |
| CenStale.TablesExactIffAllDown | model/qcen-control.h:37-40 | the documented rerouting: after any run the installed hop counts are the distances if and only if every link is down again |
| CenStale.ReroutingWorksIff | model/qcen-control.cc:78-119 | so it is for every network as it is registered, with empty tables |
| CenStale.LinkDownKeepsExact | model/qkd-key-manager-system-application.cc:181-184 | after any run LinkDown leaves every installed hop count exact that was exact |
| CenStale.StaleAfterSwitch | model/qcen-control.h:37-40 | two key managers and a link that is switched, up or down: the table filled before keeps its hop count (100 or 1) while the distance is 1 or 100 |
| CenStale.EmptyLinkStaysInUse | model/qkd-key-manager-system-application.cc:181-184 | a triangle in which the EMPTY link is taken down by LinkDown: the installed route is still that link, at 100, although the way round takes two links that are up |
| KeyStream.AppKey.UseLifetime | model/app-key.cc:70-75 | saturating subtraction |
| KeyStream.KeyStreamSession.AddKey | model/app-key-stream.cc:58-60 | an index that is taken keeps its key |
| KeyStream.KeyStreamSession.GetKey | model/app-key-stream.cc:62-77 | the front key, charged once; it leaves the stream exactly when nothing is left of it |
| KeyStream.KeyStreamSession.SyncStream | model/app-key-stream.cc:91-100 | everything before a known index goes, an unknown index changes nothing; in step exactly if the index is at the front (or stream and index are both missing) |
| KeyStream.KeyStreamSession.TakeForSending | model/qkd-app-004.cc:1102-1112 | GetKey and the second charge on the same shared key object: the effect on the stream as a value |
| KeyStream.KeyStreamSession.TakeForReceiving | model/qkd-app-004.cc:1227-1240 | skip to the named key, then take it: the effect on the stream as a value |
| App004.QKDApp004.constructor | model/qkd-app-004.cc:226-252 | an application as installed: both sessions empty, no request under way |
| App004.QKDApp004.StartApplication | model/qkd-app-004.cc:1010-1043 | fatal exactly for settings or a tag length out of range, or a wrong state; otherwise the settings are in use and the sender opens its sessions, or sends at once if it needs no key |
| App004.QKDApp004.SetCryptoSettings | model/qkd-app-004.cc:1895-1925 | the types 0 to 2 set the encryption, 0 to 2 the authentication (2 being SHA1), any other leaves it |
| App004.QKDApp004.SetState | model/qkd-app-004.cc:1867-1884 | on the way back from SEND_DATA an open session without keys means WAIT |
| App004.QKDApp004.PushHttpKmsRequest | model/qkd-app-004.cc:980-984 | the type is noted under the URI |
| App004.QKDApp004.PopHttpKmsRequest | model/qkd-app-004.cc:987-999 | the oldest type noted under the URI, which is forgotten; EMPTY without one |
| App004.QKDApp004.GetKeyFromKMS | model/qkd-app-004.cc:1346-1382 | every key request is noted under the encryption type, whatever session it is for |
| App004.QKDApp004.SendPacket | model/qkd-app-004.cc:1084-1175 | in READY one packet leaves with the settings in use, the front key of the encryption stream, charged twice, and the front key of the authentication stream, which is gone, each if the settings need one; without one of them it sends and schedules nothing, and a missing authentication key has then cost a use of the encryption key |
| App004.QKDApp004.ProcessDataPacket | model/qkd-app-004.cc:1178-1256 | whatever the state: the settings follow the header; the packet is checked with the authentication key and decrypted with the encryption key its header names, after the skip to it; a missing key, a wrong tag and an unencrypted packet each leave their own state |
| App004.QKDApp004.DataPacketReceived | model/qkd-app-004.cc:779-818 | READY is asked for once per arrival; then all packets the arrival completes are processed in turn |
| App004.QKDApp004.CheckQueues | model/qkd-app-004.cc:929-966 | one request for every confirmed session that is short of keys; if none is, the queues are established or the other side is waited for |
| App004.QKDApp004.CheckStreamSessions | model/qkd-app-004.cc:905-926 | when no open session is unconfirmed the queues are asked for and checked |
| App004.QKDApp004.ProcessOpenConnectResponse | model/qkd-app-004.cc:1431-1487 | at the sender the session of the type noted gets its id; at the receiver it is confirmed, or cleared if it was refused |
| App004.QKDApp004.ProcessKsidResponse | model/qkd-app-004.cc:1573-1602 | a confirmed session is checked, a refused one is closed |
| App004.QKDApp004.ProcessQueuesResponse | model/qkd-app-004.cc:1603-1609 | the other side is ready, and with this side ready too sending starts |
| App004.QKDApp004.ProcessKsidRequest | model/qkd-app-004.cc:1613-1638 | at the receiver the session gets the id of the sender and is opened with its own key manager |
| App004.QKDApp004.ProcessQueuesRequest | model/qkd-app-004.cc:1640-1642 | at the receiver the queues are checked |
| App004.QKDApp004.ProcessGetKeyResponse | model/qkd-app-004.cc:1491-1551 | the key joins the stream of the type noted, and sets going what waited for it; a refused request of the sender is repeated later |
| App004.QKDApp004.ProcessCloseResponse | model/qkd-app-004.cc:1554-1569 | the stream of the type noted is cleared |
| App004.QKDApp004.Close | model/qkd-app-004.cc:1387-1412 | the session of the id is cleared and the request noted |
| App004.QKDApp004.StopApplication | model/qkd-app-004.cc:1046-1081 | the sender closes its open sessions; both streams are empty and the state is STOPPED |
| App004Runs.AuthenticationStreamStaysEmpty | model/qkd-app-004.h:545 | in no run does a key reach the authentication stream of the sender |
| App004Runs.NothingSentWithVmac | doc/qkdnetsim.rst:498-508 | a sender with VMAC sends no packet in any run, as in the sample output of the documentation |
| App004Runs.EqualIndices | model/s-buffer.cc:565-566 | such a run: the key manager counts both sessions from 0, and the first authentication key is lost on the first encryption key |
| App004Runs.AuthenticationInUse | model/qkd-app-004.cc:1915-1925 | the authentication in use after the start: type 2 is SHA1, and type 3 leaves what memory held |
| App004Runs.PacketsFlowIff | model/qkd-app-004.cc:1762-1800 | some run sends a packet if and only if the settings are accepted, the authentication in use is not VMAC, and the encryption queue has a length where keys are needed |
| App004Runs.SenderNeverStalls | model/qkd-app-004.cc:1084-1175 | in all runs of such settings: nothing is fatal; READY and WAIT always have the next packet scheduled; READY sends exactly one; WAIT has a key on its way; keys in the queue and on their way never make up less than the length of the queue |
| App004Queue.QueueKeepsLengthIff | model/qkd-app-004.cc:1106-1112 | keys in the queue and on their way make up exactly its length in every run if and only if no key of the configured lifetime is asked for while it stays |
| App004Queue.WastefulIff | model/qkd-app-004.cc:1106-1112 | with packets of p bytes that is so exactly for lifetimes L of 0 or with (L - 1) mod 2p below p |
| App004Sender.SendMakes | model/qkd-app-004.cc:1084-1175 | a READY sender that has its keys sends exactly one packet more, with the settings in use, index and value of the least key of each stream it needs one from and no other key; of the encryption stream only that key changes, losing twice the packet size, and is gone exactly if one packet uses it up; the authentication key is gone |
| App004Sender.SendAsks | model/qkd-app-004.cc:1106-1133 | and what it asks for, under every URI: one key for an encryption key of which two packets leave nothing, one for every authentication key, all noted for the encryption stream |
| App004Sender.SendElsewhere | model/qkd-app-004.cc:1169-1174 | in WAIT it only tries again later; in any state but READY, SEND_DATA and WAIT it is fatal; nothing leaves and no key is used |
| App004Sender.StepSends | model/qkd-app-004.cc:1084-1551 | no handler of a started sender sends more than one packet, and that packet is made with the front key of its stream, or of its stream with the key that has just been answered |
| App004Sender.PacketsAreRight | model/qkd-app-004.cc:1101-1155 | every packet of every run has the settings given; it names, with its value, a key that came in an answer of the key manager exactly if the encryption takes one, and never an authentication key |
| App004Sender.AcceptedIff | model/qkd-app-004.cc:1010-1036 | StartApplication accepts exactly encryption 0 to 2, authentication 0 to 3, tags of 128 or 256 bits and a lifetime of 0 or at least the packet size |
| App004Sender.OpenedFatalIff | model/qkd-app-004.cc:1431-1487 | an answer to open_connect is fatal exactly if it opens a session without an id |
| App004Sender.AnswerFatalIff | model/qkd-app-004.cc:1491-1551 | an answer to get_key is fatal exactly if the session of the type noted is not open, as after it has been cleared |
| App004Sender.AsksForQueuesIff | model/qkd-app-004.cc:905-926 | an answer to send_ksid makes the sender ask for the queues exactly if it confirms the last open session that was not confirmed |
| App004Sender.CloseLosesEncryption | model/qkd-app-004.cc:1387-1412 | closing the authentication session the peer refused ends with the encryption session cleared, too: the request is noted under the encryption type |
| App004Sender.StopCloses | model/qkd-app-004.cc:1046-1081 | after StopApplication both sessions are closed and empty and nothing is scheduled |
| App004Sender.StopAsks | model/qkd-app-004.cc:1046-1056 | it asks, under every URI, for exactly the open sessions of the sender to be closed |
| App004Sender.StoppedForGood | model/qkd-app-004.cc:1046-1081 | in every run, whatever follows StopApplication changes nothing but timers running out |
| App004Receiver.ReadyAgainIff | model/qkd-app-004.cc:779-818 | an arrival opens all its packets; the receiver takes another arrival if and only if the key to check the last packet was missing, or that packet passed and was encrypted |
| App004Receiver.SameArrivalOrNext | model/qkd-app-004.cc:784-812 | behind an unencrypted packet an encrypted one is opened if it completes with the same arrival, and dropped with the next |
| App004Receiver.PacketUses | model/qkd-app-004.cc:1178-1256 | what any data packet does to the keys: one that passes and is encrypted uses the key its header names as encryption key, or the first if there is none of that index: all before it are gone, it has lost the packet size or is gone, all behind it are untouched; no other packet touches the encryption stream; likewise for the authentication key, which is gone |
| App004Receiver.ArrivalUses | model/qkd-app-004.cc:779-818 | the last packet of an arrival in READY does that to what the packets before it have left |
| App004Receiver.PacketAsks | model/qkd-app-004.cc:1199-1240 | and what it asks for, under every URI: one key when the index named is not at the front, one for a key used up and one when there is no key at all |
| App004Receiver.LeftInDecryptData | model/qkd-app-004.cc:784-816 | a receiver that an arrival left in DECRYPT_DATA stays there, and uses no key again, whatever arrivals, answers and timers follow |
| App004Handshake.SessionSettles | model/qkd-app-004.cc:1613-1638 | a receiver that is told its session waits for its key manager, and then has it confirmed or cleared as the answer says |
| App004Handshake.ReceiverHandshake | model/qkd-app-004.cc:929-966 | in every handshake, whatever is refused and repeated: as long as keys are missing it asks for one at a time and has not replied; with the last key of its queue it is READY and has replied; the stream holds exactly the keys that came, with the configured lifetime |
| App004Handshake.RefusedSession | model/qkd-app-004.cc:1474-1486 | a receiver whose key manager refused the session has none; asked for its queues all the same it replies, and is READY without a key |
| App004Handshake.BothSettle | model/qkd-app-004.cc:980-999 | with two sessions the answers settle them in the order in which they were named |
| App004Handshake.VmacNeverReady | model/qkd-app-004.cc:1346-1382 | with an authentication session confirmed and a queue for its keys the receiver never gets READY and never replies, whatever keys come |
| App004Handshake.RefusedWhenReady | model/qkd-app-004.cc:1540-1550 | a READY receiver does not repeat a refused request |
| Stream004.SendUsesFormula | model/qkd-app-004.cc:1102-1112 | a key of lifetime L is used by the sender exactly ceil((L + p) / 2p) times |
| Stream004.ReceiveUsesFormula | model/qkd-app-004.cc:1227-1240 | the receiver could use it max(1, ceil(L / p)) times |
| Stream004.SenderStopsFirst | model/qkd-app-004.cc:1021-1029 | the first number never exceeds the second, for every lifetime |
| Stream004.OneTimePadOnce | model/qkd-app-004.cc:1028-1029 | a one-time pad key is used exactly once on either side |
| Stream004.ConfigsThatWork | model/qkd-app-004.cc:1021-1029 | equal lifetimes, or one-time pad at the sender, are settings under which the receiver outlasts the sender |
| Stream004.AnySender | model/qkd-app-004.cc:1084-1175 | the Send step of the runs below is what SendPacket does in every READY sender that encrypts without VMAC |
| Stream004.AnyReceiver | model/qkd-app-004.cc:1178-1256 | their Deliver step is what ProcessDataPacket does in every receiver with an encrypted packet that passes |
| Stream004.EveryRunKeeps | model/qkd-app-004.cc:1083-1256 | in every lossy in-order run in which no packet wastes a key it does not name, for every index, the key at the receiver has enough uses left for the packets under way and those still to be sent |
| Stream004.DecryptedWithTheSendersKey | model/qkd-app-004.cc:1227-1240 | in every such run the next packet is decrypted with exactly the key it names, with the value of the sender, if and only if that key has been loaded at the receiver |
| Stream004.EncryptedWithTheNamedKey | model/qkd-app-004.cc:1102-1118 | the sender encrypts with the value the key managers gave for the index it names |
| Stream004.ForeignKeyUsedIff | model/app-key-stream.cc:91-100 | a packet is decrypted with a key it does not name if and only if its own has not been loaded while the receiver has others |
| Stream004.UnloadedDeliveryHarms | model/app-key-stream.cc:91-100 | a concrete run: delivering a packet whose key is not loaded spends another key, whose own packet then finds none |
| App014.StoredIs | model/qkd-app-014.cc:1355-1368 | inserting the keys of an answer: exactly the new ids are added, with the given type and lifetime and their own secret; ids that are taken keep their key |
| App014.MovedIs | model/qkd-app-014.cc:1411-1430 | every confirmed key leaves the common store and is, unchanged, in the store of its type; nothing else moves |
| App014.TransitionsAre | model/qkd-app-014.cc:148-162 | the transitions of the matrix, pair by pair |
| App014.QKDApp014.SwitchAppState | model/qkd-app-014.cc:150-164 | a transition of the matrix is taken, any other is noted as a fault and leaves the state |
| App014.QKDApp014.CheckAppState | model/qkd-app-014.cc:914-934 | WAIT becomes READY exactly if every needed store has a key, READY becomes WAIT exactly if one has not |
| App014.QKDApp014.GetKeysFromKMS | model/qkd-app-014.cc:1226-1275 | queues the type of the request, unless the key size is 0, which is a fault |
| App014.QKDApp014.ManageStores | model/qkd-app-014.cc:832-846 | the master asks once for each needed store that is empty and then checks its state |
| App014.QKDApp014.GetLocalKey | model/qkd-app-014.cc:848-903 | the master takes the front key of the store, the slave the named one, each as it was before; a worn AES key and every authentication key of the master is erased, others are charged |
| App014.QKDApp014.StartApplication | model/qkd-app-014.cc:993-1018 | settings out of range are fatal; otherwise the master is READY at once exactly if it needs no keys, the slave always |
| App014.AcceptedIff | model/qkd-app-014.cc:993-1018 | StartApplication accepts exactly encryption 0 to 2, authentication 0 to 3, tags of 128 or 256 bits and a lifetime of 0 or at least the packet size; then it waits exactly if it is the master and needs keys |
| App014.QKDApp014.StopApplication | model/qkd-app-014.cc:1021-1035 | the stores are cleared and the state is STOPPED |
| App014.QKDApp014.SendDataPacket | model/qkd-app-014.cc:1038-1129 | READY sends one packet that names the keys taken and checks its stores; WAIT sends nothing |
| App014.QKDApp014.ProcessDataPacket | model/qkd-app-014.cc:1132-1186 | READY takes over the settings of the header and looks up and uses the keys it names |
| App014.ReceivedMeans | model/qkd-app-014.cc:1132-1186 | what a READY slave makes of any packet, key by key: its settings are those of the packet; with VMAC the authentication key named is used, then the encryption key; a used key is gone if it is an authentication key or has less than two packets left with AES, and else has lost the size of this packet; all others are untouched |
| App014.QKDApp014.ProcessEncKeys | model/qkd-app-014.cc:1353-1370 | the oldest queued type is popped and types the keys, which go to the common store and are proposed |
| App014.QKDApp014.ProcessDecKeys | model/qkd-app-014.cc:1382-1396 | the slave stores the keys of a granted lookup and passes the status on |
| App014.QKDApp014.ProcessKeyIdsResponse | model/qkd-app-014.cc:1402-1461 | the oldest proposal is popped: confirmed keys move to their stores; refused ones are erased and asked for again by the type of the last of them |
| Agreement014.UsesWithout | model/qkd-app-014.cc:1132-1186 | a packet that leaves the channel takes exactly its own key uses with it |
| AgreementSteps.SentUsesKey | model/qkd-app-014.cc:1045-1118 | sending keeps every key of the master within its lifetime and only ever uses keys of its stores |
| AgreementSteps.GrantedIs | model/qkd-app-014.cc:1353-1370 | what a granted request makes of the master: the ids of the answer join the common store under the secrets of the key manager, of the oldest queued type, with the AES lifetime for AES encryption keys and the packet size for all others; keys that were there stay as they were |
| AgreementSteps.GrantKeeps | model/qkd-app-014.cc:1353-1370 | a granted request keeps the invariant of the pair |
| AgreementSteps.LookupKeeps | model/qkd-app-014.cc:1382-1396 | a lookup at the slave, granted or not, keeps the invariant |
| AgreementSteps.ConfirmKeeps | model/qkd-app-014.cc:1402-1433 | a confirmation keeps the invariant |
| AgreementSteps.RefuseKeeps | model/qkd-app-014.cc:1435-1456 | a refusal keeps the invariant |
| AgreementSteps.TransmitKeeps | model/qkd-app-014.cc:1038-1129 | sending keeps the invariant |
| AgreementSteps.DeliverKeeps | model/qkd-app-014.cc:1132-1186 | a delivery, in whatever order, keeps the invariant |
| AgreementRuns.StepKeeps | model/qkd-app-014.cc:1038-1461 | every step of master, slave, key managers and channels keeps the invariant, except a keyless master that sends |
| AgreementRuns.KeylessMeans | model/qkd-app-014.cc:1738-1758 | the exceptional settings are exactly one-time pad with a packet whose length in bits is a multiple of 2^32 |
| AgreementRuns.NothingGoesWrong | model/qkd-app-014.cc:150-164 | at every handler boundary of every run the master is in WAIT, READY or STOPPED and the slave in READY or STOPPED, a READY master has every key it needs, and no unsupported transition, missing key, request of size 0 or pop of an empty queue has happened |
| AgreementRuns.FirstPacketFailsIff | model/qkd-app-014.cc:1064-1066 | up to its first packet every run is sound, and that packet meets a missing key if and only if the settings are keyless |
| AgreementRuns.NoKeyLostOrDoubled | model/qkd-app-014.cc:1408-1448 | in every run every key ever granted is in exactly one of the three stores, used up, or refused; the common store holds exactly the keys of the proposals under way, each once |
| AgreementRuns.RefusalAsksAgain | model/qkd-app-014.cc:1435-1456 | in every run a refused proposal leaves no trace of its keys, which are all of one type, and leads to exactly one request, for that type |
| AgreementUses.LifeIs | model/qkd-app-014.cc:858-864 | closed form: with AES a key of lifetime L is good for max(1, L / size) packets; after n of them it has L - n * size left |
| AgreementUses.PacketNamesFirst | model/qkd-app-014.cc:1045-1118 | in every run a READY master sends one packet, which names the least key of the encryption store and, with VMAC, the least of the authentication store, and touches no other key |
| AgreementUses.MasterUses | model/qkd-app-014.cc:848-866 | with AES, in every run: a key is named by at most max(1, L / size) packets; while it is in the store it has been named less often and has exactly the lifetime they left; it leaves the store exactly with the last of them |
| AgreementUses.SlaveUses | model/qkd-app-014.cc:882-895 | the copy of the slave is there exactly while fewer packets than that have been delivered |
| AgreementUses.PadKeyStays | model/qkd-app-014.cc:858-864 | with one-time pad no key ever leaves the encryption store before the master stops |
| AgreementUses.PadIsReused | model/qkd-app-014.cc:858-864 | without VMAC there is, for every number n, a run in which n packets are padded with the same key |
| AgreementUses.NeverOverused | model/qkd-app-014.cc:1003-1008 | with AES and a lifetime of at least one packet no key is used beyond its lifetime, in any run |
| AgreementUses.OverusedIff | model/qkd-app-014.cc:1003-1008 | without VMAC some run uses an AES key beyond its lifetime if and only if the lifetime, which can be 0, is below the packet size |
| AgreementRuns.OneDenialMisfiles | model/qkd-app-014.cc:1373-1380 | for all settings that need keys of both types: two requests and one denial, and the next answer, to an authentication request, will be filed as encryption keys |
| AgreementRuns.RequestsLineUpIff | model/qkd-app-014.cc:943-984 | in every live run the type queue lists exactly the requests under way if and only if none was denied |
| AgreementRuns.FiledAsAskedIff | model/qkd-app-014.cc:1353-1368 | the keys of an answer are filed under the type they were asked for if and only if the head of the type queue is the oldest request |
| AgreementRuns.MisfilingPossibleIff | model/qkd-app-014.cc:1373-1380 | some run comes to file keys under the wrong type if and only if the settings need keys of both types |
| AgreementRuns.SlaveHasItFirst | model/qkd-app-014.cc:1382-1394 | in every run every usable key of the master was stored at the slave first, under the same secret, and is still there unless the slave has used it or stopped |
| AgreementRuns.DeliveryFindsItsKeys | model/qkd-app-014.cc:887-899 | in every run, whatever was lost or overtaken, the slave finds the keys a delivered packet names, with the secrets the master used, and is READY afterwards |
| AgreementTimers.TimedRunIsRun | model/qkd-app-014.cc:265-286 | a run in which the master acts only on its timers and answers is a run of the pair, so that all results hold there |
| AgreementTimers.MasterNeverStalls | model/qkd-app-014.cc:1114-1127 | in every such run a master that has not stopped has its next send pending; in READY that sends one packet, in WAIT it makes ManageStores pending, which asks for every missing key or ends the wait |
| QBuffers.SortDescending | model/q-buffer.cc:194-197 | some arrangement of the entries in descending order of their values |
| QBuffers.QBuffer.CheckState | model/q-buffer.cc:427-463 | the status by level, rising flag and status before; the previous status follows |
| QBuffers.QBuffer.KeyCalculation | model/q-buffer.cc:199-226 | the window after one more record: older entries cut to the period, the new one in, greatest first |
| QBuffers.QBuffer.StoreKey | model/q-buffer.cc:283-354 | a key that does not fit is refused; otherwise it is inserted unless its id is taken, and with traces the level is raised and recorded |
| QBuffers.QBuffer.GetKey | model/q-buffer.cc:358-405 | the key with the id, or any key without one, leaves; with traces the level drops by its size |
| QBufferRuns.StatusIs | model/q-buffer.cc:427-463 | one check in full: READY exactly from the threshold up, EMPTY exactly at the minimum or below it; between them CHARGING exactly out of EMPTY or CHARGING, or out of WARNING with the rising flag set |
| QBufferRuns.StatusInEveryRun | model/q-buffer.cc:134-170 | from Init on, whatever the flag then held: the status agrees with the level at every check, and EMPTY to WARNING, READY to CHARGING and CHARGING to WARNING never happen |
| QBufferRuns.ChargingLasts | model/q-buffer.cc:427-463 | a charging buffer is charging until it is ready or empty |
| QBufferRuns.ChargingWhileFalling | model/q-buffer.h:58-62 | the documented meaning of CHARGING fails: a concrete run turns WARNING into CHARGING while the level falls |
| QBufferRuns.WarningWhileRising | model/q-buffer.h:58-62 | the documented meaning of WARNING fails: a concrete run in which a store raises the level and the status is WARNING |
| QBufferRuns.GetChargesIff | model/q-buffer.cc:427-463 | a traced get that lands between minimum and threshold ends in CHARGING if and only if the buffer was charging or empty, or in WARNING with the rising flag set |
| QBufferRuns.StoreWarnsIff | model/q-buffer.cc:427-463 | a traced store that lands there ends in WARNING if and only if it was WARNING before and the rising flag was off before and is off after |
| QBufferRuns.StoreRecords | model/q-buffer.cc:199-226 | a traced store keeps exactly the highest of the older entries, joins the new level to it under the number of the record, and sets the rising flag exactly if the new one comes first |
| QBufferRuns.WarningIsNoNewHigh | model/q-buffer.cc:199-226 | a store that ends in WARNING is not above every level recorded before |
| QBufferRuns.RisingMeansNewHigh | model/q-buffer.cc:199-226 | in every run of up to 2^32 records the window has at most two entries and its head is the highest level ever recorded, so that the rising flag means that the latest record is a new high (with equal levels either way) |
| QBufferRuns.StoreBalancesIff | model/q-buffer.cc:283-312 | a store keeps level = initial amount + bits of the keys if and only if it is refused, or fires its traces just when the id is new, or carries a multiple of 2^32 bits |
| QBufferRuns.GetBalancesIff | model/q-buffer.cc:358-405 | a get keeps it if and only if there is no such key, or it fires its traces, or the key carries a multiple of 2^32 bits |
| QBufferRuns.LedgerInEveryRun | model/q-buffer.cc:228-264 | from Init on, in every run of such calls with sizes that cannot wrap the counter, the level is exactly the initial amount plus the bits of the keys and never exceeds the maximum |
| QBufferRuns.TooLargeKeyTakenIff | model/q-buffer.cc:297-305 | a key that does not fit is taken if and only if the sum passes 2^32 and ends up at the maximum or below it; the level then falls |
| TotalGraph.QKDTotalGraph.ProcessMCurrent | model/qkd-total-graph.cc:147-160 | the value changes by the amount, as a uint32_t, and the peak follows |
| TotalGraph.CallFires | model/q-buffer.cc:307-312 | a call changes the level of its buffer by exactly what it fires towards the graph |
| TotalGraph.TotalInEveryRun | model/qkd-total-graph.cc:147-160 | from a graph without buffers on, in every run: it shows the sum of the levels of the buffers registered so far, modulo 2^32, and its peak is the highest value shown, at least 100 |
| AppHeader.U32RoundTrip | model/qkd-app-header.cc:56-57 | network byte order and back |
| AppHeader.EncodeLayout | model/qkd-app-header.cc:53-69 | the 106 bytes of a header, position by position, in network byte order |
| AppHeader.DecodeLayout | model/qkd-app-header.cc:71-110 | the fields of 106 bytes or more, position by position |
| AppHeader.DecodeEncodeIff | model/qkd-app-header.cc:53-110 | deserializing gives back what was serialized if and only if every field has its width |
| AppHeader.EncodeDecode | model/qkd-app-header.cc:53-110 | and every 106 bytes are the serialization of what they deserialize to |
| AppHeader.QKDAppHeader.SetEncryptionKeyId | model/qkd-app-header.cc:169-181 | pads on the left with zeros to 32 bytes |
| AppHeader.QKDAppHeader.SetAuthenticationKeyId | model/qkd-app-header.cc:191-203 | pads on the left with zeros to 32 bytes |
| AppHeader.QKDAppHeader.SetAuthTag | model/qkd-app-header.cc:212-231 | pads on the left with zeros to 32 bytes |
| AppHeader.QKDAppHeader.SetEncrypted | model/qkd-app-header.cc:240-244 | keeps the low 8 bits |
| AppHeader.QKDAppHeader.Serialize | model/qkd-app-header.cc:53-69 | the buffer from the iterator on: byte i of length and message id is the number divided by 256^(3 - i), modulo 256, then one byte each for encryption and authentication, then the two key ids and the tag, each at its own length; the iterator is behind them |
| AppHeader.QKDAppHeader.Deserialize | model/qkd-app-header.cc:71-110 | the fields of which the 106 bytes at the iterator are that layout; the iterator is behind them |
| KeyIds.CreateKeyIdField | model/qkd-app-014.cc:1718-1723 | the id without its dashes: every other byte, behind the ones kept before it, and nothing else |
| KeyIds.ReadKeyIdField | model/qkd-app-014.cc:1725-1735 | bytes 0-7, 8-11, 12-15, 16-19 and the rest of the field with dashes between them |
| KeyIds.FieldRoundTrip | model/qkd-app-014.cc:1718-1735 | a field without dashes becomes a UUID and back |
| KeyIds.KeyIdRoundTripIff | model/qkd-app-014.cc:1718-1735 | a key id is read back if and only if it is laid out as a UUID |
| KeyIds.KeyIdTravels | model/qkd-app-014.cc:1101-1104 | a UUID of 36 characters arrives unchanged through field, header, wire and back |
| KeyIds.IndexRoundTrip | model/qkd-app-004.cc:1150-1152 | a key index written as a padded decimal is read back by stoi if and only if it fits an int |
| Text.DecimalSpells | model/qkd-app-004.cc:1150-1152 | std::to_string: digit i from the right is n divided by 10^i, modulo 10 |
| Text.ValueSpells | model/qkd-app-004.cc:1229 | std::stoi reads that numeral, and no other value has it |
| Reframing.Receiver.DataPacketReceived | model/qkd-app-014.cc:708-749 | one arrival from one of the senders, with what it delivers, keeps and aborts on; outside READY the bytes are dropped |
| Reframing.ArrivalDelivers | model/qkd-app-014.cc:724-744 | an arrival in a framed stream aborts if and only if it leaves less than a header in the buffer; otherwise exactly the complete packets are delivered, if and only if the buffer does not end exactly with a bare header behind another packet, which then stays |
| Reframing.AnyChunkingDelivers | model/qkd-app-014.cc:708-749 | for any chunking in which every arrival leaves at least a header: nothing aborts, and the packets delivered are exactly the packets completed, in order, with header and payload as sent; but for the last if the stream ends with a bare header and the last arrival was cut from more than that |
| Reframing.WholeStreamDelivers | model/qkd-app-004.cc:779-818 | a stream that has arrived whole has been delivered whole if and only if its last packet has payload, or came alone |
| Reframing.BareHeaderWaits | model/qkd-app-014.cc:739-742 | a packet without payload behind another one stays in the buffer although it is complete |
| Csv.WriteCsv | examples/examples_qkdnetsim_etsi_combined_input.cc:110-143 | the text of the file, or none where at() throws |
| Csv.ReadCsv | examples/examples_qkdnetsim_etsi_combined_input.cc:146-207 | the data set of a text, or none where at() throws |
| Csv.WrittenLayout | examples/examples_qkdnetsim_etsi_combined_input.cc:110-143 | the bytes of a file: a line of names and one line for every value of the first column, ended by byte 10; between bytes 44 stand the names, and in line i the i-th values of all columns in decimal |
| Csv.SignExtracted | examples/examples_qkdnetsim_etsi_combined_input.cc:186-200 | a number with a sign: plus is passed over, minus negates modulo 2^32, a number of more than 32 bits is not read |
| Csv.NothingExtracted | examples/examples_qkdnetsim_etsi_combined_input.cc:186-200 | no number is read from text that begins, behind blanks, with anything but a digit or a sign and a digit |
| Csv.NumbersJoined | examples/examples_qkdnetsim_etsi_combined_input.cc:186-200 | the numbers of a data line are read back |
| Csv.PiecesJoined | examples/examples_qkdnetsim_etsi_combined_input.cc:165-176 | the names of a header line are read back, except an empty one at the end |
| Csv.ReadsBackTop | examples/examples_qkdnetsim_etsi_combined_input.cc:110-207 | with clean names the first columns' worth of rows is read back; longer columns are cut |
| Csv.RoundTripIff | examples/examples_qkdnetsim_etsi_combined_input.cc:110-207 | a data set of 32-bit values is read back if and only if it has a column, its columns have one length, its names have no commas and newlines, and its last name is not empty |
| Csv.MergeCpus | examples/examples_qkdnetsim_etsi_combined_input.cc:691-703 | the values of all CPUs merged into those of the first, or failure exactly where at() throws |
| Csv.MergesIff | examples/examples_qkdnetsim_etsi_combined_input.cc:691-703 | merging succeeds if and only if every value of every further CPU, but for the first of its column, has a place in the data set of the first |
| Csv.AlikeMerge | examples/examples_qkdnetsim_etsi_combined_input.cc:691-703 | so that CPUs with as many columns as the first, of the same lengths, always merge |
| Csv.MergedIsTotal | examples/examples_qkdnetsim_etsi_combined_input.cc:693-705 | from the second value on a merged column is the sum over all CPUs modulo 2^32; names, lengths and first values are those of the first CPU |
| Encryptor.XorTwice | model/qkd-encryptor.cc:265-267 | exclusive or with the same number twice gives the number back |
| Encryptor.OTP | model/qkd-encryptor.cc:253-272 | bit i of every byte is set exactly if the bits of key and text differ there; none (fatal) when the lengths differ |
| Encryptor.OtpTwice | model/qkd-encryptor.cc:253-272 | the pad undoes itself |
| Encryptor.XorBits | model/qkd-encryptor.cc:265-267 | bit by bit, the exclusive or of two numbers |
| Encryptor.OnePadKey | model/qkd-encryptor.cc:253-272 | for every text and every ciphertext of its length exactly one key leads from one to the other; key and text can change places; the zero key changes nothing |
| Encryptor.COTP | model/qkd-encryptor.cc:284-308 | character by character through the table; none when the lengths differ or an index is outside it |
| Encryptor.CotpFailsIff | model/qkd-encryptor.cc:284-308 | it fails exactly for different lengths and where one of two characters is in the alphabet and the other is not |
| Encryptor.CotpBits | model/qkd-encryptor.cc:274-303 | position by position in the alphabet 0-9 a-z A-Z * $: the position put out has its bits exactly where those of key and text differ |
| Encryptor.CotpCharIff | model/qkd-encryptor.cc:274-303 | an index is found if and only if both characters are in the alphabet or both are outside; only in the first case can it be undone |
| Encryptor.CotpTwice | model/qkd-encryptor.cc:284-308 | COTP is closed on its 64 characters and undoes itself |
| Encryptor.CotpRoundTripIff | model/qkd-encryptor.cc:284-308 | it can be undone with the same key if and only if key and text are in the alphabet |
| Encryptor.RelayReturnsMessage | README.md:894-899 | encrypting and decrypting hop by hop, with any printable keys of its length, returns a printable message; every hop carries it under its own key, position by position |
| Encryptor.LastLayer | model/qkd-encryptor.cc:284-308 | each key is applied to what the keys before it have left |
| Encryptor.UnwrapReturnsMessage | model/qkd-encryptor.cc:284-308 | layers of several keys come off in reverse order |
| Encryptor.QKDEncryptor.ChangeSettings | model/qkd-encryptor.cc:103-116 | fatal exactly for a tag length other than 128 and 256, which sets nothing; otherwise all three settings change |
| Encryptor.QKDEncryptor.EncryptMsg | model/qkd-encryptor.cc:144-164 | unchanged; or as long as the message, each bit set exactly if message and key differ there; or AES; none (fatal) exactly for a pad that is too short |
| Encryptor.QKDEncryptor.DecryptMsg | model/qkd-encryptor.cc:167-190 | the same for the other direction |
| Encryptor.QKDEncryptor.DecryptUndoesEncryptIff | model/qkd-encryptor.cc:144-190 | decryption undoes encryption: always without encryption, with one-time pad if and only if the key is at least as long as the message, with AES as far as AES does |

## Left out

- The key manager itself, `s-buffer`, post-processing, HTTP and JSON: environments with the contracts above stand for them.
- Sockets, connection handling, scheduling, tracing, attributes, logging: each handler is one step; which events can follow each other is left open.
- AES, VMAC, MD5, SHA1, Base64 and hex coding: calls into Crypto++. `Encryptor` takes AES as a pair of functions.
- `QKDLocationRegister::DijkstraSP`, its `PopulateRoutingTables`, `DeleteEntry` and `LookupByKms`: private, unused, or without routing logic.
- The replies of the 004 receiver in the handshake: signalling messages are not part of the model, only what they do.
- Timeouts towards the key manager in the 014 application: a timeout resends without removing its queue entry, and nothing below is claimed after one.
- LocationRegister.QKDControl.RegisterQKDModulePair: the list of modules and the buffers set up at the key manager are not part of it.
- Average charging time, charging time stamps and `qkd-link-budget.h`: floating point and clocks.
- Plotting and graph manager wiring: only the counters of the total graph are modelled.
- Python tools, example main functions, install helpers: orchestration.
- CenController.QCenController.RegisterDControllers: requires one call with controllers of different nodes whose neighbour lists are symmetric and connect them; on an unreachable vertex the original does not end (`CenWeights.WalkEndsIffReachable`).
- CenController.QCenController.LinkUp: requires ids that are registered; for an unknown id the original indexes beyond its rows.
- CenController.QCenController.LinkDown: requires registered ids, as LinkUp does.
- CenRuns.ComputedDistances: at most 100 nodes; with more, the up links of a path can add up to a down link.
- LinkHelper.QKDLinkHelper.CreateTopologyGraph: the decentralised case and a non-empty list of controllers; the branch that creates a central controller only forwards to it.
- LinkHelper.QKDLinkHelper.PopulateRoutingTables: at most INF / 2 key managers (INF is 1000000007); entries carry ids and hop counts, not addresses.
- App004.QKDApp004.SendPacket: packet contents, tags and the packet counter are not part of it; `Encryptor` has the encryption.
- App014.QKDApp014.SendDataPacket: packet contents and authentication tags are not part of it; with AES the ciphertext is as long as the text.
- App014.QKDApp014.GetKeysFromKMS: the number of keys per request (at least one) is not part of it.
- AgreementRuns.SlaveHasItFirst: both sides are started with the same settings, as the application helper sets them up.
- AgreementUses.OverusedIff: settings without VMAC; with VMAC only `NeverOverused` is stated.
- AgreementUses.PadIsReused: settings without VMAC; `PadKeyStays` covers VMAC, too.
- Handlers of the 014 application after StopApplication: sockets are closed then, and runs have no such steps.
- QBuffers.QBuffer.StoreKey: requires the state Init and earlier calls leave behind (`QBuffers.Steady`), in which at most one older entry is kept; the list of charging periods is not part of it.
- Direct calls of `LogUpdate` by `s-buffer`, and Init of a buffer that was in use.
- App004.QKDApp004.ProcessDataPacket: decryption and the comparison of tags are not part of it; the verdict on the tag is a parameter.
- App014.QKDApp014.ProcessDataPacket: decryption and the comparison of tags are not part of it; they change no state.
- AppHeader.QKDAppHeader.SetEncryptionKeyId: requires at most 32 bytes, as the assertion in the original does.
- Reframing.Receiver.DataPacketReceived: what the application does with each packet inside the loop is not part of it; `App004.QKDApp004.DataPacketReceived` takes the packets from there.
- Csv.ReadCsv: a missing file is not part of it.
- Csv.MergeCpus: the merged values, not the JSON they are copied into.
