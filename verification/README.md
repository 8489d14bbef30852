# Verification of Virgo-fleet's coordinator

Virgo-fleet is one process that connects browsers, users and nodes. This project models the in-memory protocols and the
two small algorithms of that process, and proves what they keep over every run. `dafny verify dfyconfig.toml` checks it.

## How the models are built

Code that changes maps, sets and timers in place is a class whose methods are the handlers, one method per stretch of code
that runs without suspending (`Signalling`, `Limiter`, `Forest`, `EventTable`, `Assets`, `DocumentBuffer`, `SessionMaps`,
`Multiplexer`, `NodePeering`). Each method is proved to take the abstract state to the value of a specification function,
loops over snapshots included. The properties are then proved about those functions, in two kinds that need each other.
One says what every event keeps, for single steps and for whole runs in which events of every kind come in any order. The
other says what every event brings about (`...Exactly`), in terms of the event and the table before it: which sessions,
sockets, calls and requests begin, move and end, for which causes, and what is sent; and that ordinary courses succeed
(`NegotiationSucceeds`, `TransferIsWhole`, `RunLosesNoCall`, `ExpiredSocketsEnd`).

| part | files |
|---|---|
| WebRTC signalling sessions | Signal, SignalInvariant, SignalLog, SignalBudget, SignalRuns, SignalResume, SignalEndings, SignalGrace, SignalById, SignalEffects, SignalBeginnings, SignalMessages, SignalNegotiation, SignalProgress, SignalTable, Index, InsertionOrder |
| clusters of peering nodes | Clusters, NodeNames, InsertionOrder |
| connectivity bar and its log | Connectivity, ConnectivityLog, ConnectivityTable |
| chunked asset transfer | NodeAssets, AssetProgress, AssetRuns, AssetTable, Documents |
| sockets of revoked logins | SessionSockets, SessionRuns, SessionFates, SessionTable |
| control-socket multiplexer | NodeProxy, NodeProxyRuns, NodeProxyEffects, NodeProxyCalls, NodeProxyTable |
| machines and peers | Peering, PeeringEffects, PeeringTable, Text |
| deleting a user | Deletion |
| fixed-window limiter | RateLimit |

A few of the statements one would like to make are false of the code. Each has a concrete input, named first, and the
exact condition under which it holds, named second:

- different clusters have different ids: two groups of node ids can join to one name, as "a:b", "c" and "a", "b:c" do
  (`ColonsCollide`). It holds, whatever the nodes report, exactly when no two disjoint groups of two or more of the ids do
  so (`NamesDifferExactly`); ids without a colon never do (`PlainNeverCollide`);
- the kept connectivity log shows what all reports show: two transitions of a node in one millisecond can lose the next
  report (`TiedReportsCollide`). It holds, whichever newest row the database returns, exactly when no report follows two
  such transitions (`TiesDecideExactly`, and `ReportDecidesExactly` for one report);
- dropping repeated reports never shows in the bar: it does for two equal reports 24 h apart that live presence
  contradicts (`RepeatedReportShows`), and `RecordingLosesNothing` says exactly when;
- a CONNECTED session whose node is away has a timer: a node socket that replaces another and drops before announcing
  leaves one without (`NodeSideGraceGap`). In every run it holds exactly when no event abandons a session in this way
  (`RunGuardedExactly`, `NodeSideGraceExactly`), and then such a session ends within 60 s (`NodelessEndsInTime`);
- two halves of a resume meet in either order: not if a browser of another user already waits for the id
  (`StrangerWaits`), and otherwise always (`HalvesMeetInEitherOrder`);
- a buffered document resolves whole: an oversized one whose end is handled before its rejection resolves cut short
  (`TruncatedDocument`, `EndedWhole`);
- a socket of a revoked session ends closed: not one tracked after the tombstone was swept, more than five minutes after
  its session row was read (`LateSocketSurvives`, `TrackAfterRevoke`);
- memory and rows agree on machine ids: a machine id with surrounding blanks is stored otherwise than it is remembered
  (`BlankReport`, `ReportAgreesExactly`);
- deleting a user refreshes every owner whose group list changes: not one who shared a node with a group of that user
  without being a member of it (`OwnerNotTold`, `GroupListsCoveredExactly`).

The limiter's interval bound is sharper than twice the maximum: the attempt that opens a window is one of the window's
own, so 2*max-1 is the most (`IntervalBound`, `IntervalBoundIsTight`).

## What is taken as given

- Generated ids are fresh. A socket's user and node do not change; a node socket registers again under its own node. One
  signalling client socket per connection, and in the multiplexer disconnecting a client takes its whole connection down
  and runs the handlers before anything else.
- Messages sent are entries of a log per session, or of a trace per request; emitting never fails.
- Time is an integer number of milliseconds. Timers fire when due: a run moves the clock past no armed timer.
- The results of database queries at a suspension point (whether access is allowed, whether the node has a token, whether
  a row exists) arrive as parameters of the continuing step.
- Database rows are sequences, maps and sets; each modelled query runs as one step, and recordings of connectivity
  come one after another. Events of one node that share a time are read in id order.
- A request id, session id or machine id is an opaque string or number; database keys are positive and so never read as
  missing. Strings hold no unpaired surrogates, and node ids are sorted as JavaScript compares strings, by 16-bit units.

## Model

| member | source | states |
|---|---|---|
| SignalRuns.RunKeepsOwnership | src/utils/webrtc_signal.js:151-169 | in every run a session belongs to the node of both its sockets and to its browser's user, and its id is no pending resume |
| SignalRuns.RunKeepsHalves | src/utils/webrtc_signal.js:180-205 | in every run a pending resume holds exactly one half, a connected socket of the pending node; its timer is armed and it is never older than 60 s |
| SignalRuns.RunKeepsTimers | src/utils/webrtc_signal.js:353-360 | in every run the negotiation timer is armed exactly while a session is not CONNECTED; none negotiates past 30 s, none whose browser left stays longer than 60 s |
| SignalRuns.RunKeepsOrder | src/utils/webrtc_signal.js:228-245 | per session id and across resumed lives: at most one offer goes to the node and one answer to the browser, the answer after the offer, neither after CONNECTED |
| SignalRuns.RunKeepsBudget | src/utils/webrtc_signal.js:288-349 | over every run a browser socket holds at most 4 sessions plus the resumes and adoptions onto it |
| SignalRuns.RankNeverDecreases | src/utils/webrtc_signal.js:41-48 | between any two moments of a run through which a session lives, its state does not go back |
| SignalRuns.StepKeepsRank | src/utils/webrtc_signal.js:27-48 | no event lowers the state of a session that survives it |
| SignalRuns.RunIsSafe | src/utils/webrtc_signal.js:53-59 | ownership, timers, message order and the session budget hold together after any sequence of events |
| SignalRuns.StepKeepsInv | src/utils/webrtc_signal.js:288-515 | every browser, node, timer, disconnect and withdrawal event keeps ownership, timer discipline and the shape of pending resumes |
| SignalRuns.StepKeepsLogs | src/utils/webrtc_signal.js:222-286 | every event keeps the order of what was sent about each session |
| SignalEndings.EndingIsTold | src/utils/webrtc_signal.js:111-131 | whichever event ends a session, its browser is told unless it hung up or left, and its node is told unless the node ended it, lost it or cannot be reached |
| SignalEndings.LeavingTold | src/utils/webrtc_signal.js:439-449 | a browser that leaves ends only its own sessions, and their nodes are told |
| SignalEndings.RevokedUserTold | src/utils/webrtc_signal.js:490-506 | withdrawing a user's access ends sessions only with a message to both ends |
| SignalEndings.NodeLossTold | src/utils/webrtc_signal.js:465-476 | a session that ends with its node socket is reported to its browser |
| SignalEndings.AnnouncementTold | src/utils/webrtc_signal.js:279-284 | a session that an announcement leaves out is reported to its browser |
| SignalInvariant.FinishRequestKeeps | src/utils/webrtc_signal.js:305-362 | finishing a suspended session request keeps the invariant, whatever happened while it waited |
| SignalInvariant.ClientsLeaveKeeps | src/utils/webrtc_signal.js:439-458 | after browsers leave, no negotiating session is without its browser and no resume half refers to them |
| SignalInvariant.NodeLeaveKeeps | src/utils/webrtc_signal.js:465-485 | after a node socket drops no negotiating session is bound to it and no resume half refers to it |
| SignalInvariant.NodeRegisterKeeps | src/modules/node/register.js:69-70 | a node socket that registers, even again or after it dropped, keeps the invariant |
| SignalInvariant.OfferResumeKeeps | src/utils/webrtc_signal.js:180-205 | offering a half keeps the invariant: two halves become one CONNECTED session of one node, one half waits |
| SignalInvariant.HalvesMatch | src/utils/webrtc_signal.js:180-205 | the half that arrives and the half that waits, if they meet, are connected sockets of the same node |
| SignalInvariant.AnnounceKeeps | src/utils/webrtc_signal.js:260-285 | an announcement keeps ownership, timers and pending resumes |
| SignalInvariant.ClientResumeKeeps | src/utils/webrtc_signal.js:417-437 | a browser resuming keeps the invariant, live session or pending resume |
| SignalInvariant.RefreshKeeps | src/utils/webrtc_signal.js:133-149 | looking at a session's ends again arms the 60 s timer in time when its browser is away |
| SignalInvariant.RevokeUserKeeps | src/utils/webrtc_signal.js:490-506 | withdrawing a user's access keeps the invariant |
| SignalLog.ProgressMeans | src/utils/webrtc_signal.js:228-245 | the progress automaton is right exactly when the log has one offer and one answer at most, in order, none after CONNECTED |
| SignalLog.ClientOfferLog | src/utils/webrtc_signal.js:394-400 | an accepted offer does reach the session's node socket, and keeps the order |
| SignalLog.NodeAnswerLog | src/utils/webrtc_signal.js:234-240 | an answer is passed on only once, after an offer and before CONNECTED |
| SignalLog.ClientResumeLog | src/utils/webrtc_signal.js:417-437 | resuming puts no offer or answer after CONNECTED |
| SignalBudget.RequestWithinFour | src/utils/webrtc_signal.js:317-349 | a granted request leaves its browser with at most 4 sessions, however many requests were suspended at the access check |
| SignalResume.HalvesMeetInEitherOrder | src/utils/webrtc_signal.js:180-205 | either order of the two halves yields the same CONNECTED session exactly when no browser of another user already waits for the id |
| SignalResume.Reconciled | src/utils/webrtc_signal.js:260-285 | after a node socket announced a set: every CONNECTED session of the node is in it and bound to that socket, every announced id lives or waits held by it, other nodes' sessions are unchanged |
| SignalResume.AnnounceAt | src/utils/webrtc_signal.js:260-285 | what an announcement makes of each single id, announced or left out |
| SignalResume.RevokedUserKeepsNothing | src/utils/webrtc_signal.js:490-506 | no session and no waiting browser half of the user on the node is left, its signal sockets are gone, and every other session is unchanged |
| SignalResume.RevokedLoginKeepsNothing | src/utils/webrtc_signal.js:508-515 | exactly the sessions whose browser used a revoked login end |
| SignalResume.NodeSideGraceExactly | src/utils/webrtc_signal.js:465-476 | when a node's last socket drops, a CONNECTED session whose browser is online gets a grace timer exactly when it was bound to that socket |
| SignalGrace.RunGuardedExactly | src/utils/webrtc_signal.js:133-149 | in a run every CONNECTED session whose node cannot be reached has an armed grace timer at every moment, exactly when no live registered socket is taken away while a timer-less CONNECTED session of its node is bound to another dead socket |
| SignalGrace.GuardedExactly | src/utils/webrtc_signal.js:465-476 | one event keeps all such timers armed exactly when it does not abandon a session in that way |
| SignalGrace.StepKeepsTimer | src/utils/webrtc_signal.js:133-149 | no event moves or clears the armed timer of a session whose node stays unreachable |
| SignalGrace.NodelessEndsInTime | src/utils/webrtc_signal.js:133-149 | after a run without abandoning events a CONNECTED session whose node stays unreachable ends within 60 s |
| SignalResume.StrangerWaits | src/utils/webrtc_signal.js:180-205 | a run to a table where a browser of another user waits for the id and the two orders of the halves end differently |
| SignalResume.NodeSideGraceGap | src/utils/webrtc_signal.js:468 | a run that leaves a CONNECTED session without a node and without any timer: a replacement socket dropped before announcing |
| Index.LookupInverts | src/utils/webrtc_signal.js:61-80 | looking a key up in an inverse index finds exactly the ids with that key |
| Index.AddInverts | src/utils/webrtc_signal.js:61-69 | adding an id keeps the index the exact inverse image, with no empty set |
| Index.RemoveInverts | src/utils/webrtc_signal.js:71-80 | removing an id keeps the index the exact inverse image, with no empty set |
| SignalTable.LookupSessions | src/utils/webrtc_signal.js:53-59 | the by-node, by-user and by-client indexes answer as a scan of the session map does |
| SignalTable.LeaveOneMore | src/utils/webrtc_signal.js:439-458 | disconnecting browsers one after another is disconnecting them together |
| SignalTable.ApplyOneMore | src/utils/webrtc_signal.js:465-476 | closing sessions one after another over a snapshot is closing them together |
| SignalTable.Signalling.AddSession | src/utils/webrtc_signal.js:346-349 | stores a session and keeps all three indexes exact |
| SignalTable.Signalling.ForgetSession | src/utils/webrtc_signal.js:84-99 | removes a session and keeps all three indexes exact |
| SignalTable.Signalling.ReassignSessionClient | src/utils/webrtc_signal.js:105-109 | moves a session to another browser socket in the map and in the client index |
| SignalTable.Signalling.CountSessionsForClient | src/utils/webrtc_signal.js:101-103 | the indexed count equals a brute-force count |
| SignalTable.Signalling.TellSessionNode | src/utils/webrtc_signal.js:111-119 | sends to the bound socket, else to the registered one, else nowhere |
| SignalTable.Signalling.CloseSession | src/utils/webrtc_signal.js:121-131 | tells both ends and removes the session |
| SignalTable.Signalling.RefreshOrphanState | src/utils/webrtc_signal.js:133-149 | arms or clears the grace timer as the two ends require |
| SignalTable.Signalling.CloseAll | src/utils/webrtc_signal.js:490-500 | the loop over an index snapshot closes exactly the given sessions |
| SignalTable.Signalling.ClientDisconnect | src/utils/webrtc_signal.js:439-458 | the loops of the disconnect handler have the effect of the browser leaving |
| SignalTable.Signalling.NodeDisconnect | src/utils/webrtc_signal.js:465-485 | the loops over sessions and pending resumes have the effect of the node socket leaving |
| SignalTable.Signalling.SweepNodeSocket | src/utils/webrtc_signal.js:466-476 | negotiating sessions on the socket end, CONNECTED ones are re-examined, others are skipped |
| SignalTable.Signalling.BeginRequest | src/utils/webrtc_signal.js:289-300 | the checks before the access check, with the same refusal in the same order |
| SignalTable.Signalling.FinishRequest | src/utils/webrtc_signal.js:305-362 | the checks after it, and the new session |
| SignalTable.Signalling.OnOffer | src/utils/webrtc_signal.js:394-400 | accepts an offer only from the session's own browser, once |
| SignalTable.Signalling.OnAnswer | src/utils/webrtc_signal.js:228-245 | accepts an answer only from the session's node, after an offer |
| SignalTable.Signalling.OnConnected | src/utils/webrtc_signal.js:251-259 | marks the session CONNECTED and clears the negotiation timer |
| SignalTable.Signalling.OnNodeHangup | src/utils/webrtc_signal.js:240-243 | tells the browser and forgets the session |
| SignalTable.Signalling.OnClientHangup | src/utils/webrtc_signal.js:409-415 | tells the node and forgets the session |
| SignalTable.Signalling.OfferResume | src/utils/webrtc_signal.js:180-205 | joins two halves, or keeps one waiting; says whether they met |
| SignalTable.Signalling.AdoptSession | src/utils/webrtc_signal.js:151-169 | installs a CONNECTED session of the two halves |
| SignalTable.Signalling.OnResume | src/utils/webrtc_signal.js:417-437 | refuses exactly the resumes of another node or user, or of a session still negotiating |
| SignalTable.Signalling.OnAnnounce | src/utils/webrtc_signal.js:260-285 | the two loops of an announcement have its effect |
| SignalTable.Signalling.OnRecheck | src/utils/webrtc_signal.js:207-216 | an access re-check that fails closes the session if it still lives |
| SignalTable.Signalling.OnNegotiationTimer | src/utils/webrtc_signal.js:353-360 | closes a session that is not CONNECTED |
| SignalTable.Signalling.OnOrphanTimer | src/utils/webrtc_signal.js:144-147 | closes the session |
| SignalTable.Signalling.OnResumeTimer | src/utils/webrtc_signal.js:188-194 | drops the pending resume and tells its half |
| SignalTable.Signalling.CloseForUser | src/utils/webrtc_signal.js:490-506 | the two loops have the effect of withdrawing the user's access |
| SignalTable.Signalling.CloseForLogins | src/utils/webrtc_signal.js:508-515 | closes exactly the sessions of the revoked logins |
| RateLimit.IntervalBound | src/utils/socket_rate_limit.js:25-34 | any half-open interval of one window's length admits at most 2*max-1 attempts per key (max at least 1), from any counted state |
| RateLimit.IntervalBoundIsTight | src/utils/socket_rate_limit.js:25-34 | a run that reaches that bound |
| RateLimit.WindowBound | src/utils/socket_rate_limit.js:28-33 | each fixed window admits at most max attempts |
| RateLimit.SweepsNeverChangeAnswers | src/utils/socket_rate_limit.js:14-21 | sweeps at any times change no answer of any run |
| RateLimit.Limiter.Consume | src/utils/socket_rate_limit.js:25-34 | counts in the live bucket or opens a new one, and admits accordingly |
| RateLimit.Limiter.Sweep | src/utils/socket_rate_limit.js:14-21 | the sweep loop removes exactly the expired buckets |
| Clusters.BuildClusters | src/modules/node/proxy.js:95-137 | names exactly the components of at least two nodes, each by its sorted members |
| Clusters.NamesDifferExactly | src/modules/node/proxy.js:133-134 | whatever the nodes report, no two nodes without a chain of reports between them are in clusters of one id, exactly when no two disjoint groups of two or more of the node ids join to one name |
| Clusters.CollisionClashes | src/modules/node/proxy.js:112-134 | from two groups of ids that join to one name, reports under which both are clusters of that one id |
| Clusters.ClashCollides | src/modules/node/proxy.js:112-134 | two separate clusters of one id are two such groups |
| Clusters.SameClusterWithoutCollision | src/modules/node/proxy.js:133-134 | if no groups of ids collide, two nodes share a cluster id exactly when a chain of reports connects them |
| Clusters.PlainNeverCollide | src/modules/node/proxy.js:133 | ids without a colon never collide |
| Clusters.SameClusterExactly | src/modules/node/proxy.js:133-134 | connected nodes always share a cluster id; for ids without a colon nodes with one id are connected too |
| Clusters.SingletonsUnnamed | src/modules/node/proxy.js:129-132 | a node has a cluster id exactly when another accessible node is connected to it |
| Clusters.ClustersIgnoreOrder | src/modules/node/proxy.js:112-119 | the result depends only on the accessible nodes and the links, not on any order |
| Clusters.ColonsCollide | src/modules/node/proxy.js:133 | ids with colons for which two separate clusters get one id |
| Clusters.HalvingKeeps | src/modules/node/proxy.js:98-104 | path halving changes no representative and keeps the forest's falling measure |
| Clusters.JoiningKeeps | src/modules/node/proxy.js:105-111 | hanging one root below another keeps the forest and merges the two classes |
| Clusters.SameClass | src/modules/node/proxy.js:98-111 | two nodes have the same representative exactly when a chain of links connects them |
| Clusters.LinkJoinsClasses | src/modules/node/proxy.js:112-119 | one more link joins the two classes it connects and no others |
| Clusters.Forest.Find | src/modules/node/proxy.js:98-104 | returns the representative, terminates, and changes no representative |
| Clusters.Forest.Union | src/modules/node/proxy.js:105-111 | merges exactly the classes of the two nodes |
| Clusters.MergeNode | src/modules/node/proxy.js:113-119 | merging one node's reports extends the classes by exactly its links |
| Clusters.MergeReports | src/modules/node/proxy.js:112-119 | after all reports the classes are the connected components |
| Clusters.GroupByRoot | src/modules/node/proxy.js:120-127 | collects each class under its root, every node once |
| Clusters.NameGroups | src/modules/node/proxy.js:128-136 | gives every member of a group of two or more the group's sorted, joined name |
| NodeNames.JoinInjective | src/modules/node/proxy.js:133 | joined names of colon-free ids determine the ids |
| NodeNames.AscendingUnique | src/modules/node/proxy.js:133 | a set of ids has one sorted order |
| Connectivity.BuildSegments | src/utils/connectivity.js:21-67 | for any events the segments tile the window without gap or overlap, neighbours differ, and each instant shows the last event at or before it, or live presence when nothing happened inside the window; the degenerate windows as in the code |
| Connectivity.Sweep | src/utils/connectivity.js:34-46 | the in-window loop yields tiles that show the recorded state, up to the last transition |
| Connectivity.Collapse | src/utils/connectivity.js:57-66 | merging equal neighbours keeps the tiling and what is shown, and leaves no equal neighbours |
| Connectivity.CanonicalUnique | src/utils/connectivity.js:57-66 | two tilings without equal neighbours that show the same are the same |
| Connectivity.BarUnique | src/utils/connectivity.js:21-67 | a bar is determined by what it must show |
| Connectivity.SortKeepsLatest | src/utils/connectivity.js:22-25 | the stable sort changes the state at no instant |
| Connectivity.LatestMeans | src/utils/connectivity.js:34 | the state at an instant is that of the greatest time at or before it, the last of equals, and unknown exactly when there is none |
| Connectivity.WithinIsSlice | src/utils/connectivity.js:34-35 | the seed filter is a prefix of the sorted history and the window filter the slice after it |
| ConnectivityLog.PruneInvisible | src/services/data_service.js:925-940 | a log with non-decreasing times, pruned with 25 h retention and then extended by anything, renders the same 24 h bar from then on, and no history becomes empty |
| ConnectivityLog.TiesDecideExactly | src/services/data_service.js:885-940 | for any plan of reports and prunings: whichever of the newest rows each lookup returns, the kept log stays sorted, alternates and shows from 25 h back what all reports show, exactly when no report follows two transitions of one millisecond |
| ConnectivityLog.ReportDecidesExactly | src/services/data_service.js:890-896 | after a faithful run one more report is recorded faithfully, whichever newest row is looked at, exactly when the last two kept rows differ in time |
| ConnectivityLog.PickDecides | src/services/data_service.js:893-896 | recording after a lookup stays faithful exactly when the row looked at shows the state of the last one |
| ConnectivityLog.RunFaithful | src/services/data_service.js:885-940 | in every run in which no report follows two transitions of one millisecond the kept log is sorted, alternates, and shows from 25 h back what the full log shows |
| ConnectivityLog.IdealFaithful | src/services/data_service.js:885-940 | were the last row inserted always the one looked at, that would hold of every run |
| ConnectivityLog.TieFreeIsIdeal | src/services/data_service.js:890-893 | without such a report what is kept is what would be kept if the last row inserted were always looked at |
| ConnectivityLog.ApartIsTieFree | src/services/data_service.js:890-893 | reports at distinct times leave no two transitions in one millisecond |
| ConnectivityLog.RecordingLosesNothing | src/services/data_service.js:885-898 | in every run in which no report follows two transitions of one millisecond: the bar of the kept log equals the bar of all reports, except exactly when live presence contradicts the last report and all in-window reports were dropped as repeats; the kept log alternates |
| ConnectivityLog.RepeatedReportShows | src/services/data_service.js:885-898 | a run of two equal reports after which, live presence contradicting them, the two bars differ |
| ConnectivityLog.NewestDecides | src/services/data_service.js:890-893 | every newest row shows the last state exactly when no other row shares its time |
| ConnectivityLog.TiedReportsCollide | src/services/data_service.js:890-896 | two transitions in one millisecond after which a report is lost |
| ConnectivityTable.PruneEachNode | src/services/data_service.js:925-940 | pruning the shared table prunes each node's log on its own |
| ConnectivityLog.PruneKeepsLatest | src/services/data_service.js:934-939 | pruning changes the state at no instant from the cutoff on |
| ConnectivityTable.EventTable.Record | src/services/data_service.js:885-898 | appends a transition or nothing, for any choice among equally new rows; other nodes' logs are unchanged |
| ConnectivityTable.EventTable.Seeds | src/services/data_service.js:927-933 | finds for each node the largest id at or before the cutoff |
| ConnectivityTable.EventTable.Prune | src/services/data_service.js:925-940 | deletes exactly the superseded rows, for every node |
| NodeAssets.RunSettlesOnce | src/utils/node_assets.js:37-154 | for every run of one request, whatever the interleaving of suspended handlers: pending exactly while unsettled, nothing after the settlement, the consumer gets exactly chunks 0, 1, 2, ... in order, each is acked at most once and after it arrived |
| NodeAssets.RunKeepsDeadlines | src/utils/node_assets.js:61-76 | in every run of one request the initial timer is armed exactly before the response and the chunk timer exactly after it: 15 s from sending, 30 s without progress and 300 s in all bound it |
| NodeAssets.RunKeepsInv | src/utils/node_assets.js:101-143 | every event at any point of a request's life keeps its invariant |
| NodeAssets.OrderlyMeans | src/utils/node_assets.js:114-136 | what an orderly trace means, position by position |
| NodeAssets.ArriveKeeps | src/utils/node_assets.js:101-124 | a chunk advances the expected number, or fails the request |
| NodeAssets.ResumeKeeps | src/utils/node_assets.js:125-142 | continuing a suspended chunk handler acks only a live request, or fails it |
| NodeAssets.FailKeeps | src/utils/node_assets.js:37-47 | failing settles an open request once and does nothing to a settled one |
| Documents.EndedWhole | src/utils/node_assets.js:241-267 | a buffered document that ends is whole exactly when no rejection for its size is still waiting to be handled |
| Documents.TruncatedDocument | src/utils/node_assets.js:257-266 | a run in which an oversized document resolves cut short, because its end is handled before the rejection |
| Documents.FitsIsLongest | src/utils/node_assets.js:257-263 | the kept chunks are the longest prefix of at most 1 MiB, and all of them exactly when they fit |
| Documents.DocumentBuffer.OnChunk | src/utils/node_assets.js:257-263 | keeps the longest fitting prefix and throws exactly when the total exceeds the cap |
| Documents.DocumentBuffer.OnEnd | src/utils/node_assets.js:264-266 | joins the kept chunks |
| AssetTable.Assets.Proxy | src/utils/node_assets.js:174-208 | opens a pending request with both timers, or refuses when the node is offline |
| AssetTable.Assets.FailPending | src/utils/node_assets.js:37-47 | settles one request and leaves all others alone |
| AssetTable.Assets.FailForNode | src/utils/node_assets.js:53-59 | the loop fails exactly the requests of the node, in any order |
| AssetTable.Assets.ResetChunkTimeout | src/utils/node_assets.js:61-76 | swaps the initial timer for a fresh chunk timer |
| AssetTable.Assets.HandleResponse | src/utils/node_assets.js:78-86 | is the response step of that request only |
| AssetTable.Assets.HandleChunk | src/utils/node_assets.js:101-124 | is the chunk step of that request only, with its two refusals |
| AssetTable.Assets.ContinueChunk | src/utils/node_assets.js:125-142 | is the continuation step of that request only |
| AssetTable.Assets.HandleEnd | src/utils/node_assets.js:145-154 | is the end step of that request only |
| AssetTable.Assets.HandleError | src/utils/node_assets.js:156-161 | is the error step of that request only |
| AssetRuns.TableRunIsSafe | src/utils/node_assets.js:13-161 | in every run of the table all requests at once: each lives the run of its own story from its own opening, whatever the others do, is settled once and fed in order, and is pending past no deadline on the one clock |
| AssetRuns.RunTellsStories | src/utils/node_assets.js:13-161 | a request is in the table exactly when it was opened, and its life is the run of the events that concern it since |
| AssetRuns.LostNodeHasNone | src/utils/node_assets.js:53-59 | a node socket that drops settles all pending requests of its node and touches no other |
| AssetRuns.TableRunKeeps | src/utils/node_assets.js:13-161 | in every run of the table every request keeps its invariant on the table's clock |
| AssetRuns.OnKeeps | src/utils/node_assets.js:37-154 | every step of one request keeps the invariant of all |
| AssetTable.Assets.Dispatch | src/utils/node_assets.js:163-172 | whatever arrives for one request, its handler takes that request's step and touches no other |
| AssetTable.Assets.Take | src/utils/node_assets.js:13-208 | every event of a run, handled, takes the table to the next state of that run |
| SessionRuns.RevokedSocketsEndClosed | src/utils/session_sockets.js:82-119 | for every interleaving of row reads, deletions, revocations, sweeps and tracking: once a session's revocation was handled its sockets are closed and untracked, if each read-to-track gap is within 5 minutes |
| SessionRuns.TrackAfterRevoke | src/utils/session_sockets.js:82-96 | a socket tracked after its session was revoked closes exactly when the tombstone was not swept away, and a gap within 5 minutes suffices |
| SessionRuns.LateSocketSurvives | src/utils/session_sockets.js:49-55 | a run in which a socket tracked after a late sweep outlives its deleted, revoked session |
| SessionRuns.RunKeepsTables | src/utils/session_sockets.js:14-22 | in every run no id is both tombstoned and tracked, tracked sets are non-empty, expiry entries exist only for tracked sessions, and every live tracked-once socket is tracked |
| SessionRuns.StepKeeps | src/utils/socket_auth.js:6-26 | every event, including the gap between reading the row and tracking, keeps tombstones, rows and lookups consistent |
| SessionSockets.TrackKeeps | src/utils/session_sockets.js:82-104 | tracking keeps the three tables consistent, tombstone or not |
| SessionSockets.SweepKeeps | src/utils/session_sockets.js:49-72 | a sweep keeps the three tables consistent |
| SessionSockets.RevokeKeeps | src/utils/session_sockets.js:108-119 | revoking keeps the three tables consistent |
| SessionTable.SessionMaps.Untrack | src/utils/session_sockets.js:24-35 | removes the socket, and the session with its last socket |
| SessionTable.SessionMaps.Close | src/utils/session_sockets.js:41-47 | closes a socket; a connected one runs its disconnect handler |
| SessionTable.SessionMaps.Track | src/utils/session_sockets.js:82-104 | closes on a tombstone, tracks otherwise |
| SessionTable.SessionMaps.DisconnectSessions | src/utils/session_sockets.js:108-119 | the loops over ids and sockets revoke exactly these sessions |
| SessionTable.SessionMaps.UntrackDead | src/utils/session_sockets.js:56-62 | the nested loops untrack exactly the dead sockets |
| SessionTable.SessionMaps.Sweep | src/utils/session_sockets.js:49-72 | drops lapsed tombstones and dead sockets and revokes the expired sessions |
| SessionTable.RevokeMore | src/utils/session_sockets.js:110-117 | revoking one more session afterwards is revoking it with the others |
| NodeProxyRuns.RunAcknowledgesOnce | src/utils/node_proxy.js:40-48 | in every run each call is acked at most once, never after its client left; each call in flight is under a session live on that socket and was placed at most 60 s ago |
| NodeProxyRuns.ClientSetIsUnion | src/utils/node_proxy.js:9-20 | a node's client set is the union of the session tables of its sockets |
| NodeProxyRuns.DroppedSocketIsEmpty | src/utils/node_proxy.js:150-154 | no session and no call is left on a node socket that dropped |
| NodeProxyRuns.OthersUntouched | src/modules/node/index.js:341-363 | when a replaced node socket drops, a client over another socket and on another connection keeps its connection, session, calls and place |
| NodeProxyRuns.CloseIsDisconnect | src/utils/node_proxy.js:50-56 | a close message from the node does what disconnecting the client does |
| NodeProxyRuns.StepKeeps | src/utils/node_proxy.js:25-148 | every event keeps sessions, calls, clients and node sets linked |
| NodeProxyRuns.StepKeepsLog | src/utils/node_proxy.js:40-113 | every event keeps acknowledgements apart from earlier ones and from clients that left |
| NodeProxy.GoneKeeps | src/utils/node_proxy.js:107-114 | clients leaving keeps the tables linked |
| NodeProxy.LoseNodeKeeps | src/modules/node/index.js:341-363 | a node socket dropping keeps the tables linked, replaced or not |
| NodeProxyTable.Multiplexer.DropSessionCalls | src/utils/node_proxy.js:61-72 | removes exactly the calls of the session |
| NodeProxyTable.Multiplexer.ClientGone | src/utils/node_proxy.js:107-114 | the disconnect handler has the effect of that one client leaving |
| NodeProxyTable.Multiplexer.ConnectionGone | src/utils/node_proxy.js:107-114 | all clients of a connection leave, in any order |
| NodeProxyTable.Multiplexer.DisconnectEach | src/utils/node_proxy.js:144-146 | the loop over a snapshot disconnects exactly these clients and the others on their connections |
| NodeProxyTable.Multiplexer.DisconnectNodeClients | src/utils/node_proxy.js:139-148 | disconnects every client of the node and drops its set |
| NodeProxyTable.Multiplexer.DisconnectNodeUser | src/utils/node_proxy.js:160-168 | disconnects the user's clients of the node |
| NodeProxyTable.Multiplexer.OnConnection | src/utils/node_proxy.js:74-86 | bridges a client over the node's current socket, or refuses it with its connection |
| NodeProxyTable.Multiplexer.OnCall | src/utils/node_proxy.js:88-105 | places a call with its timeout |
| NodeProxyTable.Multiplexer.OnReply | src/utils/node_proxy.js:40-48 | acks and removes a call only under its own session |
| NodeProxyTable.Multiplexer.OnTimeout | src/utils/node_proxy.js:98-101 | acks and removes an overdue call |
| NodeProxyTable.Multiplexer.OnClose | src/utils/node_proxy.js:50-56 | removes the session and disconnects its client |
| NodeProxyTable.Multiplexer.OnNodeDisconnected | src/modules/node/index.js:341-363 | drops the socket's clients, and the node's when the socket was still its current one |
| NodeProxyTable.GoneMore | src/utils/node_proxy.js:144-153 | clients leaving one after another is their leaving together |
| Peering.RestartChangesNothing | src/modules/node/index.js:156-170 | after any run of additions, reports under trimmed ids and removals, rebuilding from the rows gives the same answer to every machine and peer lookup |
| Peering.RunKeepsInverse | src/modules/node/index.js:304-325 | whatever nodes report, the two maps are mutually inverse and machine ids are unique in the rows |
| Peering.ReportAgreesExactly | src/modules/node/index.js:304-325 | persisting a report of a node with a row keeps memory and rows in agreement exactly when the machine id is trimmed |
| Peering.BlankReport | src/modules/node/index.js:304-325 | a report of a machine id with a leading blank after which memory and rows disagree |
| Peering.ReportInverse | src/modules/node/index.js:305-316 | a report keeps the two maps mutually inverse |
| Peering.ForgetAgrees | src/modules/node/index.js:172-192 | forgetting a node keeps memory and rows in agreement |
| Peering.PersistStored | src/services/data_service.js:1208-1231 | storing a report keeps machine ids unique and trimmed in the rows |
| Peering.SameAnswers | src/modules/node/index.js:156-170 | memories that agree with the same rows answer alike |
| PeeringTable.NodePeering.OnPeers | src/modules/node/index.js:304-325 | updates the three maps and the rows as one report |
| PeeringTable.NodePeering.SetNodePeering | src/services/data_service.js:1208-1231 | takes the machine from other rows and stores machine and peers |
| PeeringTable.NodePeering.Forget | src/modules/node/index.js:172-192 | removes the node and its machine from every peer list, in memory and rows |
| PeeringTable.NodePeering.ForgetMaps | src/modules/node/index.js:172-187 | removes the node and its machine from the three maps |
| PeeringTable.NodePeering.RemoveNodePeer | src/services/data_service.js:1187-1206 | removes the machine from every stored peer list |
| PeeringTable.NodePeering.Initialize | src/modules/node/index.js:156-170 | the loop over the rows rebuilds exactly the maps they describe |
| Deletion.DeletionReachesEveryone | src/services/data_service.js:1298-1347 | every other user whose reachable nodes or whose node's admins change under the cascade is in the set computed beforehand, and the deleted user is not |
| Deletion.GroupListsCoveredExactly | src/modules/node/proxy.js:186-190 | the group lists owners see are covered exactly when every owner who shares with a group the user created is that user, is in such a group, reaches a node the user owns, or has invited the user |
| Deletion.ReachedIsAffected | src/services/data_service.js:1298-1347 | who is in the set, in terms of the rows alone |
| Deletion.ListNew | src/services/data_service.js:1024-1033 | appends nodes not listed yet, whatever their order |
| Deletion.ListGroup | src/services/data_service.js:1034-1050 | appends one group's nodes that are not listed yet |
| Deletion.OwnerNotTold | src/modules/node/proxy.js:186-190 | an owner whose group list changes without being in the set |
| Deletion.CascadeIntact | src/database/models/associations.js:41-73 | the cascade leaves no dangling reference and removes exactly the owned nodes |
| Deletion.ListUsersAffectedByUserDeletion | src/services/data_service.js:1298-1347 | the loops accumulate exactly the affected users |
| Deletion.ListNodeOwnersForMember | src/services/data_service.js:1354-1374 | the owners of the nodes the user is directly invited to, without the user |
| Deletion.ListAccessibleNodes | src/services/data_service.js:1014-1052 | lists exactly the accessible nodes, each once and with its label, direct nodes before those through groups |
| Deletion.InventoryCovered | src/services/data_service.js:1298-1347 | a surviving user outside the set keeps the same nodes with the same kind of access |
| Deletion.AdminsCovered | src/services/data_service.js:1354-1374 | an owner outside the set keeps the same admins on every node |
| SignalTable.Signalling.StartSession | src/utils/webrtc_signal.js:336-361 | a granted request becomes an OPEN_SENT session with an armed negotiation timer, and the node is told |
| SignalTable.Signalling.DropClientHalf | src/utils/webrtc_signal.js:450-457 | the loop drops the browser's half of every pending resume, and the resume with its last half |
| SignalTable.Signalling.DropNodeHalf | src/utils/webrtc_signal.js:477-484 | the loop drops the node socket's half of every pending resume, and the resume with its last half |
| SignalTable.Signalling.WaitFor | src/utils/webrtc_signal.js:180-197 | finds the pending resume of the node or replaces one of another node |
| SignalTable.Signalling.ResumeLive | src/utils/webrtc_signal.js:430-433 | moves a live session to the browser's new socket and looks at its ends again |
| SignalTable.Signalling.OnAnnounceOne | src/utils/webrtc_signal.js:263-278 | one announced id: a half, a refusal or a rebinding |
| SignalTable.Signalling.CloseSessionsOfUser | src/utils/webrtc_signal.js:494-500 | closes exactly the user's sessions on the node |
| SignalTable.Signalling.DisconnectAll | src/utils/webrtc_signal.js:501-505 | disconnects exactly the given signal sockets, one after another |
| SignalTable.Signalling.OnRegister | src/modules/node/register.js:69-70 | a socket already attached, or gone by now, becomes its node's registered one |
| SignalTable.Signalling.NodeConnect | src/modules/node/index.js:82-86 | a node socket becomes its node's registered one unless it is transient |
| AssetTable.Assets.ClearPending | src/utils/node_assets.js:15-30 | removes the entry and with it its timers |
| AssetTable.Assets.Deliver | src/utils/node_assets.js:122-126 | advances the expected number, restarts the chunk timer and hands the chunk over; other requests are unchanged |
| AssetTable.Assets.InitialTimer | src/utils/node_assets.js:193-195 | fails a request whose initial timer is due |
| AssetTable.Assets.ChunkTimer | src/utils/node_assets.js:73-75 | fails a request whose chunk timer is due |
| AssetTable.Assets.MaxTimer | src/utils/node_assets.js:196-198 | fails a request that has lasted 300 s |
| AssetTable.TookIsOn | src/utils/node_assets.js:13 | a handler that changed one request by a step changed the table by that step only |
| AssetRuns.OnEachKeeps | src/utils/node_assets.js:53-59 | a step of all requests at once keeps the invariant of each |
| SessionSockets.SweepExactly | src/utils/session_sockets.js:49-72 | a sweep closes exactly the live sockets of expired sessions, keeps exactly the other live ones tracked, and leaves exactly the tombstones within the retention and of the sessions it ended |
| SessionTable.SessionMaps.Forget | src/utils/session_sockets.js:19-22 | removes a session from both maps |
| SessionTable.SessionMaps.CloseSockets | src/utils/session_sockets.js:114-116 | closes exactly the sockets of a session already forgotten, touching neither map |
| SessionTable.SessionMaps.RevokeOne | src/utils/session_sockets.js:111-117 | leaves the tombstone, forgets the session, closes its sockets |
| NodeProxyTable.Multiplexer.EnsureDispatcher | src/utils/node_proxy.js:25-33 | gives a node socket its tables once |
| NodeProxyTable.Multiplexer.TrackClient | src/utils/node_proxy.js:11-16 | adds the client to its node's set |
| NodeProxyTable.Multiplexer.UntrackClient | src/utils/node_proxy.js:18-20 | removes the client from its node's set |
| NodeProxyTable.Multiplexer.DisconnectClient | src/utils/node_proxy.js:50-56 | skips a client that already left, and takes down the connection of any other |
| NodeProxyTable.Multiplexer.DisconnectNodeSocketClients | src/utils/node_proxy.js:150-154 | disconnects the clients in the socket's session table |
| NodeProxyTable.Multiplexer.OnLeave | src/utils/node_proxy.js:107-114 | one client leaving |
| NodeProxyTable.Multiplexer.OnConnectionLost | src/utils/node_proxy.js:107-114 | all clients of a lost connection leaving |
| NodeProxyTable.Multiplexer.OnNodeRegistered | src/modules/node/register.js:69-70 | a socket already attached, or gone by now, becomes its node's current one |
| NodeProxyRuns.RegisterKeeps | src/modules/node/register.js:69-70 | that keeps sessions, calls, clients and node sets linked |
| NodeProxyTable.Multiplexer.OnNodeConnected | src/modules/node/index.js:82-86 | registers a node socket in place of an older one |
| NodeProxyTable.DisconnectMore | src/utils/node_proxy.js:144-153 | disconnecting one more client afterwards is disconnecting it with the others |
| PeeringTable.NodePeering.DropPeer | src/modules/node/index.js:182-186 | removes the machine from every remembered peer list |
| Deletion.AddViewers | src/services/data_service.js:1315-1327 | adds the owner, the direct users and the members of the sharing groups of one node |
| Deletion.AddCreatedGroups | src/services/data_service.js:1329-1337 | adds the members of every group the user created |
| ConnectivityLog.RecordingIsInvisible | src/services/data_service.js:885-898 | for reports at distinct times and prunings: the bar of the kept log is the bar of all reports whenever live presence is the last report |
| ConnectivityLog.PruneIsSuffix | src/services/data_service.js:934-939 | pruning a log in time order drops a prefix of it |
| Text.TrimTwice | src/services/data_service.js:1209-1212 | a trimmed string has nothing left to trim |
| InsertionOrder.DistinctHasNoRepeats | src/utils/webrtc_signal.js:262 | the announced ids, each once, in the order of first mention |
| SignalEffects.LiveSessionsExactly | src/utils/webrtc_signal.js:133-515 | for every event and every live session: whether it ends, and if not its phase, its browser, its node socket and its timers; it ends for the listed causes only, and for each of them it does |
| SignalEffects.SocketsExactly | src/utils/webrtc_signal.js:439-506 | for every event: which browsers and nodes are connected afterwards, and which socket is registered for each node |
| SignalBeginnings.AbsentIdsExactly | src/utils/webrtc_signal.js:180-205 | for every event and every id without a session: a session begins exactly when a request is admitted or two halves meet, and is what the request or the halves say; a half waits exactly until it meets the other, its socket goes or its time is up |
| SignalBeginnings.RequestDecides | src/utils/webrtc_signal.js:305-361 | a request opens a session exactly when access is granted, the node has a token, the browser is connected with fewer than four sessions and the node is online; it is then OPEN_SENT on the registered socket, which was sent open; without access the browser is disconnected, and any other refusal changes nothing |
| SignalBeginnings.RefusalsAreTrue | src/utils/webrtc_signal.js:289-335 | a refusal names a reason that holds, and what passes the checks at the door passes the same checks after the access check |
| SignalBeginnings.GrantsExactly | src/utils/webrtc_signal.js:151-205 | what a browser holds beyond four is counted as exactly its resumes and adoptions |
| SignalMessages.MessagesExactly | src/utils/webrtc_signal.js:111-245 | for every event and every id: which messages are sent about it, to whom, in which order and with which reason |
| SignalMessages.AnnounceSaysAt | src/utils/webrtc_signal.js:260-285 | what an announcement sends about each id, announced or left out |
| SignalNegotiation.NegotiationSucceeds | src/utils/webrtc_signal.js:228-259 | from any reachable table an admitted request, its offer, its node's answer and connected message, with any other events between them that leave the session alive, end CONNECTED without a negotiation timer, after exactly open, offer, answer and connected |
| SignalNegotiation.OrdinaryNegotiation | src/utils/webrtc_signal.js:336-400 | the same with nothing in between, over the node's registered socket, each step being possible |
| SignalProgress.ClockCanMove | src/utils/webrtc_signal.js:353-360 | from any table that keeps the invariant any later time is reached by timers that fire as they fall due and time that passes, so no bound on time holds for want of a run |
| SignalProgress.TargetMeans | src/utils/webrtc_signal.js:111-119 | a message for the node goes to the bound socket while that is connected, else to the registered one if that is |
| SignalById.LeaveAt | src/utils/webrtc_signal.js:439-449 | what browsers leaving make of each single session |
| AssetProgress.StepExactly | src/utils/node_assets.js:37-161 | for every event and every request: whether and how it settles, what is handed over or acknowledged, and when its timers are due; a settled request is left alone |
| AssetProgress.RunAcksAll | src/utils/node_assets.js:125-136 | in every run, while a request is pending, each chunk it handed over is acknowledged or still being consumed |
| AssetProgress.TransferIsWhole | src/utils/node_assets.js:101-154 | in every run: if the request is still pending when the node sends the end after its response, it resolves, and the consumer got exactly the payloads streamed after the response, each acknowledged or still being consumed |
| AssetProgress.TableRunAcksAll | src/utils/node_assets.js:125-136 | the same for all requests of the table at once |
| SessionFates.SocketsExactly | src/utils/session_sockets.js:41-119 | for every event and every socket: it closes for the listed causes only and for each of them it does, and belongs to the session it was authenticated from |
| SessionFates.TrackRecords | src/utils/session_sockets.js:82-99 | tracking a socket of a session without a tombstone records it, and the expiry its row had |
| SessionFates.RunKeepsExpiry | src/utils/session_sockets.js:97-99 | in every run exactly the tracked sessions have an expiry entry, and it is when their row expires |
| SessionFates.ExpiredSocketsEnd | src/utils/session_sockets.js:49-72 | in every run, after a sweep no socket of an expired session lives or is tracked, and every live socket of any other session lives on, tracked |
| NodeProxyEffects.ClientsExactly | src/utils/node_proxy.js:107-168 | for every event and every connected client: it is disconnected exactly when the event says so of it or of a client on its connection, and keeps everything else |
| NodeProxyEffects.BridgeOpens | src/utils/node_proxy.js:121-137 | a new client is bridged under its session over its node's current socket exactly when that socket is connected |
| NodeProxyEffects.NodesExactly | src/modules/node/index.js:341-363 | for every event: which node sockets are connected and which one is a node's current one |
| NodeProxyCalls.CallsExactly | src/utils/node_proxy.js:40-114 | for every event and every call in flight: it leaves the table exactly when it is answered or its caller is disconnected |
| NodeProxyCalls.ReplyReaches | src/utils/node_proxy.js:40-48 | a reply under the call's own session acknowledges it at once, whenever it comes; any other reply changes nothing |
| NodeProxyCalls.AskPlaces | src/utils/node_proxy.js:88-105 | a connected client's call is always placed on its own node socket, due after 60 s |
| NodeProxyCalls.TimeoutAnswers | src/utils/node_proxy.js:98-101 | an overdue call is acknowledged by its timeout |
| NodeProxyCalls.RunLosesNoCall | src/utils/node_proxy.js:40-114 | in every run each call placed is in flight, or was acknowledged under its own session, or its caller has left |
| PeeringEffects.HolderExactly | src/modules/node/index.js:304-316 | for every operation: which node each machine is known as |
| PeeringEffects.PeersExactly | src/modules/node/index.js:317-318 | for every operation: which peers each node is known to have; a removed node's machine is in no list |
| PeeringEffects.RowsExactly | src/services/data_service.js:1187-1231 | for every operation: what each row holds |
| PeeringEffects.WithoutMeans | src/modules/node/index.js:182-186 | leaving a machine out of a peer list removes it and nothing else |
| PeeringEffects.LookupIsLastReport | src/modules/node/index.js:304-316 | in every run a machine is known as the node that reported it last, unless that node reported another or is gone |
| Text.TrimMeans | src/services/data_service.js:1209-1212 | trimming leaves the string between blanks, which neither starts nor ends with one |
| ConnectivityTable.PruneExactly | src/services/data_service.js:925-940 | pruning keeps exactly the rows after the cutoff and of each node's older rows the one inserted last |
| RateLimit.RefusedExactly | src/utils/socket_rate_limit.js:14-34 | after any run an attempt is refused exactly when it falls into a window an earlier attempt opened, in which at least max attempts on its key were already made |
| Deletion.CascadeExactly | src/database/models/associations.js:63-73 | of all users only the deleted one goes, and any other row goes exactly when a row it refers to goes |
| Deletion.OwnerListsMean | src/modules/node/proxy.js:184-190 | which admins and groups an owner sees on a node, in terms of the rows alone |
| Deletion.InventoryMeans | src/services/data_service.js:1014-1052 | which nodes a user reaches and how, in terms of the rows alone |

## Left out

- The contents of session descriptions, of ICE candidates and of event arguments, the relaying of candidates, session
  tokens and `stateChangedAt`: opaque, and no modelled decision reads them.
- The time-based limiter in front of session requests: the limiter itself is modelled, its call there is not.
- Access withdrawn during an access check of the signalling namespace: the code does not serialise the two, so withdrawal
  is claimed for the sessions and sockets that exist at that step.
- Interleaved reads and writes inside one `recordConnectivityEvent`: recordings are taken one after another.
- The order in which the database returns events of one node with equal times: id order is assumed.
- A node socket that registers under another node id than before: its node is fixed.
- `streamNodeAsset` and write back-pressure: a consumer that suspends and may throw is all that the transfer sees of them.
- An `onEnd` handler that throws: the modelled consumers do not.
- Whether an abort message reaches the node: the trace records that it was attempted, as for a node that just dropped.
- Notices of `sessions:connection`: revoking forgets a session without such a notice, and nothing modelled depends on them.
- Several sockets of different logins on one connection in `SessionSockets`: each socket closes on its own.
- Proxied events without acknowledgement, in both directions: they change no table.
- `requestUnregister` and the domain release when a node is removed: only the peering maps and rows are modelled.
- Peering reports of nodes without a row, or still being stored while the next arrives: not covered by the restart theorem.
- Clusters' persisted copy, connectivity events and domain rows in the cascade: nothing in the affected set derives from
  them.
- TURN, ACME, domains, e-mail, push, TOTP, WebAuthn, cookies, HTTP controllers and the update, storage and job summaries:
  foreign services, plumbing or single-branch logic.
