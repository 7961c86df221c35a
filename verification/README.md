# ovn-controller, modelled and proved in Dafny

ovn-controller keeps three views of an OpenFlow table in agreement: the flows
the southbound database asks for, the flows it believes are on the switch, and
the flows the switch holds. This project models that machinery and the
allocators and protocols around it, and proves what they keep over all inputs
and all runs.

`dafny verify dfyconfig.toml` checks everything (Dafny 4.11).

## Parts

- Flow reconciliation, `controller/ofctrl.c`: `FlowModel` (flows, the switch,
  the invariant), `FlowSteps` and `FlowSync` (list and index steps as functions
  with the lemmas that they keep the invariant), `FlowMerge` (merging of tracked
  changes, full comparison), `SbIndex` (rows, references, address sets, flood
  closure), `FlowTable` (the tables as a class), `Reconciler` (both tables
  against one switch, any run), `AddressIndex` (the address index over runs) and
  `FlowOrigins` (what flows are made of, and which rows have which, over runs).
- The connection, `controller/ofctrl.c` and `controller/ofctrl-wait-before-clear.c`:
  `OfctrlState` (the state machine with the messages in flight), `OfctrlProofs`
  (what every run keeps), `OfctrlConn` (the static data as a class).
- Notifications, `controller/ofctrl-seqno.c` and `controller/if-status.c`:
  `Seqno`, `IfStatus`, `IfStatusModel` (the manager as a state machine, and its
  runs), `IfStatusMgr` (the same as a class), `Acknowledged`, which puts requests
  on top of the connection, and `Progress` (that configurations are reached).
- All of it together: `Delivery` (what was sent on its way to the switch) and
  `EndToEnd` (manager, requests, both tables, connection and switch, as a state
  machine), whose steps the classes take (`Controller`).
- `ConjIds` (`controller/lflow-conj-ids.c`), `LocalData`
  (`controller/local_data.c`), `PortSec` (out-port security in
  `controller/lflow.c`), `HaChassis` (`controller/ha-chassis.c`), `LflowCache`
  (`controller/lflow-cache.c`), `TunnelId` (`controller/encaps.c`). `Lists` has
  intrusive lists as duplicate-free sequences; `Options` and `Ints` are shared.

Where the source changes data in place, the model is a class with the same
fields, and each method is proved against a function of the old state; the
lemmas are about those functions. Hash maps are maps or sets, a match is an
opaque key, and an OpenFlow connection is the list of messages sent on it, with
barriers answered in order (section 6.2 of the OpenFlow Switch Specification
1.5.1; flow-mods as in section 6.4).

## What callers have to respect

- Conjunction actions come only through `ofctrl_add_or_append_flow`, and a row
  is appended to a flow it references at most once (the assert at
  `controller/ofctrl.c:1617`).
- All flows use one meter id: the desired lookup compares it
  (`controller/ofctrl.c:1781`), the installed lookup does not.
- The logical and the physical table use different keys, a table that changed
  since `ofctrl_put` was last called is reported to it as changed, and no flow-mod
  is oversized.
- After a connection was made or its loss noticed, both desired tables are cleared
  and computed again before the next `ofctrl_put`: a reconnect forces a recompute
  (`controller/ovn-controller.c:5973-5983`), the loss updates an input of all of
  it (`controller/ovn-controller.c:1314-1329`), and while recomputing is not
  allowed there is no put (`lib/inc-proc-eng.c:535-555`,
  `controller/ovn-controller.c:6170-6199`). Existing flows may be cleared before
  that. A table that tracked changes then is stale, and clearing it is the first
  thing that happens to it.
- Without an OpenFlow connection no message arrives, and `ofctrl_put` finds a
  backlog (`controller/ofctrl.c:842`, `controller/ofctrl.c:2699-2700`).

## Where the code and what is promised differ

- `lflow_conj_ids_alloc` can return 0 while a block is free
  (`ConjIds.MissesFreeBlock`): blocks that contain the first id tried, but not
  as their first id, are never considered. `ConjIds.FindBlock` has the exact
  condition; for single ids the promise holds.
- A request made after the connection was lost can be acknowledged before any
  flow is sent (`Acknowledged.EarlyRequest`): `ofctrl_seqno_flush` restarts the
  request numbers, but the current configuration is kept. It happens exactly if
  the request's number is not above the current configuration
  (`Acknowledged.AcknowledgedAtOnce`). Any other request is acknowledged only
  after a put that came after it, and after the switch, on the same connection and
  since that put, held flows that realise both tables as they were then
  (`Acknowledged.AcknowledgedIsSettled`, `EndToEnd.AckedIsRealised`). For an
  interface that was always claimed as a vif, being past INSTALL_FLOWS means the
  same of the latest request made for it (`EndToEnd.UpIsRealised`).
- That everything up to a put is answered does not by itself mean that the current
  configuration has reached the put's (`Progress.SettledNotReached`): a later put
  with messages for the same configuration defers it. `Progress.ReachedExactly` has
  the exact condition, over all runs.
- Because request numbers restart, the current configuration can also go back
  (`Acknowledged.ConfigurationGoesBack`); `OfctrlProofs.PutGoesBack` has the
  exact condition.
- `add_local_datapath_peer_port` leaves the lists asymmetric exactly if the
  peer's datapath is new and the peer does not lead back by itself
  (`LocalData.LocalDatapaths.AddPeerPort`, with `LocalData.LosesSymmetry`).
- The subtraction in `compare_chassis_prio_` could overflow an int, but the
  schema keeps priorities within 0 to 32767 (`ovn-sb.ovsschema:421-423`), so it
  does not; priorities have that range here.
- The branch of `merge_tracked_flows` for a flow that is linked already
  (`controller/ofctrl.c:2574-2578`) cannot be taken (`FlowMerge.MergeLinks`), so
  it has no counterpart.

## Model

| member | source | states |
|---|---|---|
| `FlowModel.Preferred` | controller/ofctrl.c:1019-1037 | `flow_is_preferred`: a flow that allows, that is has actions and none is a conjunction, before one that does not; and one without actions before one with a conjunction; its unreachable end is a precondition that every caller here meets |
| `FlowModel.RealizesLeast` | controller/ofctrl.c:1019-1069 | a switch that realises a table has an entry for every desired key, which allows if some flow of the key does, otherwise has no actions if some flow of the key has none, and otherwise has conjunctions |
| `FlowModel.ApplyAllFrame` | controller/ofctrl.c:2379-2450 | flow-mods for the keys of one table act on that part of the switch and leave the rest alone |
| `FlowModel.ModMsgReplaces` | controller/ofctrl.c:2400-2433 | ADD on a changed cookie and MODIFY_STRICT otherwise both leave exactly the new actions and cookie |
| `FlowSteps.InsertPos` | controller/ofctrl.c:1048-1069 | the insertion point is after everything at least as preferred and before the first less preferred flow |
| `FlowSteps.InsertSorted` | controller/ofctrl.c:1048-1069 | linking keeps `desired_refs` sorted with at most one conjunctive flow; the head is the new flow or the old head |
| `FlowSteps.LinkOk` | controller/ofctrl.c:1048-1069 | linking keeps both directions of the link relation and no installed content moves |
| `FlowSteps.UnlinkOk` | controller/ofctrl.c:1091-1100 | unlinking keeps both directions of the link relation and no installed content moves |
| `FlowSteps.AddFlowInv` | controller/ofctrl.c:1289-1322 | adding a flow keeps the whole invariant (links, tracking, sorted refs, contents, deletions before additions) |
| `FlowSteps.ModifyFlowInv` | controller/ofctrl.c:1381-1467 | changing a conjunctive flow in place keeps the whole invariant |
| `FlowSteps.RemoveFlowInv` | controller/ofctrl.c:1129-1165 | taking a flow out of the match table keeps the whole invariant and changes no other desired flow and no installed content |
| `FlowSteps.RemoveAllInv` | controller/ofctrl.c:1598-1682 | the same for any list of distinct flows |
| `FlowSync.TrackedAddCanLink` | controller/ofctrl.c:1019-1069 | a tracked flow about to be linked never meets another conjunctive flow among the refs, so the unreachable at 1036 is not reached |
| `FlowSync.HeadDeletedOk` | controller/ofctrl.c:2604-2633 | processing a tracked deletion keeps the invariant, and its flow-mods turn the old installed contents into the new ones |
| `FlowSync.HeadAddedOk` | controller/ofctrl.c:2634-2661 | the same for a tracked addition or modification |
| `FlowMerge.MergeLinks` | controller/ofctrl.c:2516-2592 | the asserts at 2531 and 2577 hold: a tracked deleted flow is linked, and a flow it can be merged with is not |
| `FlowMerge.MergedInv` | controller/ofctrl.c:2552-2592 | cancelling a deletion against a later identical addition keeps the invariant, the desired flows and the installed contents |
| `FlowMerge.MergeStep` | controller/ofctrl.c:2552-2592 | after a merge the part of the list already scanned still has nothing to merge |
| `FlowMerge.AdoptInv` | controller/ofctrl.c:2461-2484 | comparison: an installed flow still desired takes on a desired flow; message sent iff actions or cookie differ |
| `FlowMerge.DiscardInv` | controller/ofctrl.c:2461-2484 | comparison: an installed flow no longer desired is deleted on the switch and here |
| `FlowMerge.ComparedOk` | controller/ofctrl.c:2486-2511 | comparison: every desired flow ends up linked, and its key shows its most preferred flow |
| `FlowMerge.SyncedRealizes` | controller/ofctrl.c:2452-2664 | when nothing is left to track, the installed keys are exactly the desired keys, each with the actions and cookie of a most preferred desired flow |
| `FlowMerge.ComparedSynced` | controller/ofctrl.c:2452-2511 | full comparison ends in the same condition as tracking |
| `SbIndex.LinkNewOk` | controller/ofctrl.c:1215-1274 | a new reference keeps both directions of the row/flow relation and the address index (indexed flows have one reference) |
| `SbIndex.LinkSharedOk` | controller/ofctrl.c:1441-1459 | a flow that becomes shared leaves every address index first, so the index stays sound |
| `SbIndex.DropRefOk` | controller/ofctrl.c:1598-1650 | dropping a reference, and the flow with its last one, keeps both indexes |
| `SbIndex.AddrFlow` | controller/ofctrl.c:1556-1577 | a flow indexed under an address has exactly that row as its reference: the asserts of `ofctrl_remove_flows_for_as_ip` hold |
| `SbIndex.ClosureLeast` | controller/ofctrl.c:1500-1522 | the closure under "shares a desired flow with" contains the given rows, is closed, and is the least such set |
| `SbIndex.FloodedClosure` | controller/ofctrl.c:1485-1522 | the rows a finished flood removal has visited are exactly that closure |
| `FlowTables.FlowTable.constructor` | controller/ofctrl.c:1940-1947 | a new table satisfies the invariant |
| `FlowTables.FindInsertPos` | controller/ofctrl.c:1048-1069 | the loop finds that insertion point |
| `FlowTables.NewActionsAre` | controller/ofctrl.c:1410-1424 | which of the new actions are appended, and in which order: all but the conjunctions that the flow has |
| `FlowTables.NewActionsMeans` | controller/ofctrl.c:1396-1428 | what the appended flow has, said without the loop: both flows' actions, and no conjunction of the first one more often than before |
| `FlowTables.FlowTable.LinkInstalledToDesired` | controller/ofctrl.c:1048-1069 | the new state, and that the result says whether the new flow is the active one |
| `FlowTables.FlowTable.UnlinkInstalledToDesired` | controller/ofctrl.c:1091-1100 | the new state, and that the result says whether the flow was the active one |
| `FlowTables.FlowTable.UnlinkAllRefs` | controller/ofctrl.c:1102-1109 | no flow stays linked to the installed flow |
| `FlowTables.FlowTable.TrackFlowAddOrModify` | controller/ofctrl.c:1111-1127 | the flow goes to the back of the tracked list iff changes are tracked |
| `FlowTables.FlowTable.TakeOutFlow` | controller/ofctrl.c:1129-1165 | a flow that was never installed vanishes, any other is queued for deletion, or without tracking is unlinked and destroyed |
| `FlowTables.FlowTable.LinkFlowToSb` | controller/ofctrl.c:1215-1274 | both directions of the reference and, if given, the address index |
| `FlowTables.FlowTable.CheckAndAddFlow` | controller/ofctrl.c:1289-1322 | a flow of the same key already referenced by the row leaves everything unchanged; otherwise exactly one new flow, referenced by the row and indexed under its address; invariants kept |
| `FlowTables.FlowTable.Compound` | controller/ofctrl.c:1396-1428 | the existing actions first; an action is in the result iff it is in one of the two; no conjunction that was there is repeated; the rest is in the order of the new ones |
| `FlowTables.FlowTable.AddOrAppendFlow` | controller/ofctrl.c:1381-1467 | an existing conjunctive flow gets exactly the actions of both, one more reference, and leaves every address index, otherwise exactly one new flow, indexed under its address; invariants kept |
| `FlowTables.FlowTable.UnindexFlow` | controller/ofctrl.c:1441-1459 | address tracking of the flow is dropped for all its rows, nothing else |
| `FlowTables.FlowTable.DropRow` | controller/ofctrl.c:1598-1650 | flows only this row references go, shared ones lose the reference, the others are untouched |
| `FlowTables.FlowTable.RemoveFlows` | controller/ofctrl.c:1469-1483 | exactly the flows referenced by the row alone leave, and the row; every other flow keeps its other references and every other row its lists; invariants kept |
| `FlowTables.FlowTable.DetachAll` | controller/ofctrl.c:1650-1664 | the flows waiting to be removed are off every row's list, so nested calls do not meet them |
| `FlowTables.FlowTable.FloodRemoveRow` | controller/ofctrl.c:1485-1498 | the recursion terminates and visits only rows of any closed set it started in |
| `FlowTables.FlowTable.FloodRemoveFlows` | controller/ofctrl.c:1500-1522 | the argument becomes exactly its closure, its rows and every flow referenced by them go, all other flows, references and rows are untouched; invariants kept |
| `FlowTables.FlowTable.RemoveFlowsForAsIp` | controller/ofctrl.c:1529-1593 | deletes exactly the flows indexed under the address for that row, and that index; result true iff the count is the expected one; invariants kept |
| `FlowTables.FlowTable.Clear` | controller/ofctrl.c:1949-1969 | the desired table is empty and untracked, installed contents are unchanged; also right for a table whose installed flows were forgotten while changes were tracked |
| `FlowTables.FlowTable.ClearInstalled` | controller/ofctrl.c:1981-1996 | nothing is installed or linked any more, whether changes are tracked or not; the whole invariant is kept if they are not, and otherwise enough of it to clear the table |
| `FlowTables.FlowTable.InstalledFlowMod` | controller/ofctrl.c:2400-2433 | the installed content is the new one, and the message depends on the cookie |
| `FlowTables.FlowTable.UpdateDeleted` | controller/ofctrl.c:2604-2633 | the state and messages of a tracked deletion |
| `FlowTables.FlowTable.UpdateAdded` | controller/ofctrl.c:2634-2661 | the state and messages of a tracked addition or modification |
| `FlowTables.FlowTable.UpdateHead` | controller/ofctrl.c:2594-2664 | every turn keeps the invariant, shortens the list, and its messages have the right effect |
| `FlowTables.FlowTable.MergeTrackedFlows` | controller/ofctrl.c:2552-2592 | nothing a put can see changes, and no deletion before an identical addition is left |
| `FlowTables.FlowTable.UpdateByTrack` | controller/ofctrl.c:2594-2664 | nothing is left to track, and the messages turn the old installed contents into the new ones |
| `FlowTables.FlowTable.CompareInstalledFlows` | controller/ofctrl.c:2461-2484 | every installed flow is one a desired flow asks for, with matching messages |
| `FlowTables.FlowTable.CompareDesiredFlow` | controller/ofctrl.c:2486-2511 | the state and messages for one desired flow |
| `FlowTables.FlowTable.UpdateByCompare` | controller/ofctrl.c:2452-2511 | ends in the same condition as tracking, with messages of the right effect |
| `FlowTables.FlowTable.PutFlows` | controller/ofctrl.c:2880-2908 | by tracking or by comparison: invariant, nothing left to track, messages of the right effect |
| `Reconcilers.ApplyOp` | controller/ofctrl.c:1289-1593 | any operation has exactly its effect on the desired flows, the references and the lists of every row, and keeps the invariant, the installed contents and the keys of the two tables apart; clearing a stale table, whose installed flows were forgotten while changes were tracked, brings the whole invariant back |
| `Reconcilers.Reconciler.constructor` | controller/ofctrl.c:714-751 | nothing is assumed of the switch before the first put |
| `Reconcilers.Reconciler.ChangeLogical` | controller/ofctrl.c:1289-1593 | the logical table changes as the operation says and is not stale, the other table and what is believed of the switch do not change |
| `Reconcilers.Reconciler.ChangePhysical` | controller/ofctrl.c:1289-1593 | the same for the physical table |
| `Reconcilers.Reconciler.ClearFlows` | controller/ofctrl.c:714-751 | in any state: both installed tables are forgotten, the desired flows are not, the next put starts with a delete-all, and a table that tracked changes is stale |
| `Reconcilers.Reconciler.Put` | controller/ofctrl.c:2833-2908 | the sent flow-mods take the switch to one equal to both installed tables, each realising its desired table; desired flows and references unchanged |
| `Reconcilers.Step` | controller/ofctrl.c:1289-2908 | one operation: its effect on both tables, what it sends, and that a put leaves the switch in sync |
| `Reconcilers.TryStep` | controller/ofctrl.c:1289-2908 | an operation happens exactly if its caller may issue it in this state, and then has its effect; flows may be cleared at any time |
| `Reconcilers.RunFrom` | controller/ofctrl.c:1289-2908 | the same for a run from any state about to be cleared |
| `Reconcilers.Run` | controller/ofctrl.c:1289-2908 | for every run of adds, appends, removals, flood removals, clears, reconnects and puts: exactly the operations that may be issued happen, the desired tables and their indexes follow them, and after each put the switch equals the installed tables, its keys are the desired keys, and each entry is a desired flow of the key that allows if one allows, otherwise drops if one drops |
| `AddressIndex.OpTags` | controller/ofctrl.c:1215-1593 | every operation keeps the address index equal to the live flows tagged with that row and address |
| `AddressIndex.RunIndexed` | controller/ofctrl.c:1529-1593 | over every run: the flows indexed under a row and an address are exactly the live ones that the row inserted with that address and that were never appended to since |
| `FlowOrigins.OpOrigins` | controller/ofctrl.c:1289-1593 | every operation keeps each desired flow made of what was brought to it |
| `FlowOrigins.RunOrigins` | controller/ofctrl.c:1381-1467 | over every run: a desired flow has the key and cookie it was inserted with, and exactly the actions, conjunctions among them, that its insertion and later appends brought |
| `FlowOrigins.OpServes` | controller/ofctrl.c:1289-1593 | which row has a flow of which key after each operation: adding or appending gives exactly that row that key, removals take exactly the rows' own, and adding again changes nothing |
| `FlowOrigins.SeenServes` | controller/ofctrl.c:1289-1593 | the same for every operation of a run, issued or not |
| `OfctrlProofs.StepNet` | controller/ofctrl.c:826-932 | every event keeps: barriers in flight in order, flow updates in barrier order, every unanswered batch covered by an update |
| `OfctrlProofs.TrackXids` | controller/ofctrl.c:2998-3033 | the loop that records a barrier keeps the updates in barrier order and ends with the new one |
| `OfctrlProofs.BarrierReaches` | controller/ofctrl.c:776-805 | the reply to the oldest barrier makes cur_cfg at least the configuration of every update that waits for it or an earlier one, raises it to nothing else, and leaves exactly the later updates |
| `OfctrlProofs.RunReaches` | controller/ofctrl.c:783-787 | the same in S_UPDATE_FLOWS over every run, whatever is requested |
| `OfctrlProofs.StepZones` | controller/ofctrl.c:2777-2786 | a zone in OF_SENT always waits for a barrier in flight that followed its flush on this connection |
| `OfctrlProofs.ZoneReplySeen` | controller/ofctrl.c:776-805 | while a zone waits, flow updates are not empty, so its reply is not skipped |
| `OfctrlProofs.ZoneSent` | controller/ofctrl.c:2777-2786 | a queued zone is flushed exactly by a put that gets to the flow tables, before the barrier it then waits for |
| `OfctrlProofs.ZoneFlushed` | controller/ofctrl.c:776-805 | OF_SENT becomes DB_QUEUED iff the reply is to the barrier the zone waits for |
| `OfctrlProofs.StepCfg` | controller/ofctrl.c:2741-2762 | with non-decreasing requests: updates strictly increasing, cur_cfg never decreases, and when it advances all batches up to it are answered |
| `OfctrlProofs.PutGoesBack` | controller/ofctrl.c:2741-2762 | without that assumption: exactly when a put takes cur_cfg back |
| `OfctrlProofs.StepWait` | controller/ofctrl.c:846-881 | the deadline is the one of this connection's timer, readiness the last report on this connection |
| `OfctrlProofs.ClearEntered` | controller/ofctrl.c:640-677 | exactly when S_CLEAR_FLOWS is entered |
| `OfctrlProofs.RunKeeps` | controller/ofctrl.c:826-932 | the barrier, zone and wait invariants hold in every reachable state |
| `OfctrlProofs.RunAdvances` | controller/ofctrl.c:2977-3043 | over every run with non-decreasing requests: cur_cfg monotone, flow updates strictly increasing, batches answered when it advances |
| `OfctrlProofs.RunFlushesZones` | controller/ofctrl.c:863-870 | over every run with reconnects: a flush counts as done exactly on the reply to a barrier that followed it on the current connection |
| `OfctrlProofs.RunWritesZones` | controller/ofctrl.c:795-803 | over every run: a zone is written to the database as flushed only after the reply to a barrier that followed its flush, and was not queued again since |
| `OfctrlProofs.RunForgetsZones` | controller/ovn-controller.c:6320-6330 | over every run: a zone is forgotten exactly when the write that says it is flushed was committed |
| `OfctrlProofs.RunClears` | controller/ofctrl-wait-before-clear.c:19-35 | over every run with reconnects: cleared only for wait 0, readiness reported since the reconnect, or this connection's timer being over |
| `OfctrlProofs.RunWaitEnds` | controller/ofctrl.c:640-677 | over every run: the timer starts with the first turn that waits and is not moved, so existing flows are cleared by the first turn that comes the configured time later, if not before |
| `OfctrlProofs.RunSent` | controller/ofctrl.c:449-638 | over every run: no transaction id is used twice on a connection, and replies are compared with ids of messages that were sent |
| `OfctrlProofs.RunNegotiates` | controller/ofctrl.c:491-638 | over every run: exactly how each message moves the negotiation of the tunnel option |
| `OfctrlConn.Connection.constructor` | controller/ofctrl.c:428-446 | the initial state |
| `OfctrlConn.Connection.Reconnected` | controller/ofctrl.c:846-870 | the state after a reconnect is the one of the state machine |
| `OfctrlConn.Connection.RunWaitBeforeClear` | controller/ofctrl.c:640-677 | the loop-free step is the one of the state machine |
| `OfctrlConn.Connection.RunClearFlows` | controller/ofctrl.c:714-751 | all flow updates are dropped and the next put clears |
| `OfctrlConn.Connection.RecvBarrierReply` | controller/ofctrl.c:776-805 | if the reply is for the front update, it goes and cur_cfg becomes the greater of both, otherwise neither changes; zones change as in the state machine |
| `OfctrlConn.Connection.TrackFlowUpdate` | controller/ofctrl.c:2998-3033 | the backward loop with removal computes the same list as the specification |
| `OfctrlConn.Connection.FlushZones` | controller/ofctrl.c:2777-2786 | exactly the queued zones are flushed and remember the barrier |
| `OfctrlConn.Connection.NeedsPut` | controller/ofctrl.c:2741-2762 | the early part of `ofctrl_put` decides as in the state machine |
| `OfctrlConn.Connection.Put` | controller/ofctrl.c:2741-3043 | the whole configuration and zone part of `ofctrl_put` is the state machine's step |
| `Acknowledged.NextKeeps` | controller/ovn-controller.c:6149-6209 | every step of requests, connection, `ofctrl_seqno_run` and lost connections keeps requests accounted for, and a put due until barriers are processed |
| `Acknowledged.TakesUpLive` | controller/ofctrl.c:2741-2762 | a put takes its configuration up only on a connection that is up and in S_UPDATE_FLOWS, although `need_put` may be false: a new or lost connection has the next put told that flows changed |
| `Acknowledged.SettledMeans` | controller/ofctrl.c:776-805 | a put is settled only by a time after it, on the same connection with no clearing of flows in between, when everything sent up to it was answered |
| `Acknowledged.AcknowledgedIsSettled` | controller/ovn-controller.c:6186-6204 | over every run, lost and unnoticed reconnections included: a request above cur_cfg when made, at k, is acknowledged only if a put was made at g and everything sent up to it was answered at j, with k < g < j, on one connection from g to j |
| `Acknowledged.AcknowledgedAtOnce` | controller/ofctrl-seqno.c:173-185 | a request is acknowledged by the next `ofctrl_seqno_run`, with no put, iff its number is not above cur_cfg |
| `Acknowledged.EarlyRequest` | controller/ovn-controller.c:1314-1329 | a concrete run (connect, put, barrier reply, lost connection, request) in which that happens: losing the connection restarts the numbers but keeps cur_cfg |
| `Acknowledged.ConfigurationGoesBack` | controller/ofctrl.c:2741-2762 | a concrete run in which a put takes cur_cfg back, for the same reason |
| `Progress.ProgKeeps` | controller/ofctrl.c:2977-3043 | every event keeps: each put since flows were cleared is reached, or stood for by an update whose barrier reply reaches it and no earlier one does |
| `Progress.ReachedExactly` | controller/ofctrl.c:776-805 | over every run, with any losses and reconnections: while barriers are processed, cur_cfg has reached the configuration of a put iff it had when the put was made, or everything sent before the put is due is answered |
| `Progress.DueMeans` | controller/ofctrl.c:2998-3033 | when a put is due: with itself, or with a later put that was for the configuration of the put before it |
| `Progress.FieldsMean` | controller/ofctrl.c:2741-2762 | what is recorded of a put: its configuration, the current one at the time, and where its messages end |
| `Progress.AcknowledgesUpTo` | controller/ofctrl-seqno.c:173-185 | `ofctrl_seqno_run` acknowledges exactly the requests not above cur_cfg |
| `Progress.AnsweredIsAcknowledged` | controller/ovn-controller.c:6186-6204 | over every run: once everything up to a put is answered, and no later put was for the configuration of the put before it, the next `ofctrl_seqno_run` acknowledges every request up to its configuration |
| `Progress.SettledNotReached` | controller/ofctrl.c:2998-3033 | a concrete run without that condition: two puts for configuration 1, the first barrier answered, and cur_cfg still 0 |
| `Delivery.ProcessedKeeps` | controller/ofctrl.c:2977-3043 | the switch may process what was sent at any time: what is known about it stays right |
| `Delivery.AnsweredReached` | controller/ofctrl.c:776-805 | once everything up to a put is answered, the switch has held the flows of that put, after it and on the same connection |
| `Delivery.PassedKeeps` | controller/ofctrl.c:826-932 | every event on the connection, with reconnections to a switch that holds anything, keeps: the flows of settled puts have been held since the put, and on a live connection those of the others have been or will be |
| `EndToEnd.PutIssued` | controller/ofctrl.c:2882-2909 | with truthful changed flags, `lflows_changed || skipped_last_time` never leaves out a table that has something to put, and no table is stale |
| `EndToEnd.AfreshReported` | controller/ovn-controller.c:5973-5983 | when both tables are computed again after a connection was made or lost, the first put is told that flows changed |
| `EndToEnd.WholeKeeps` | controller/ovn-controller.c:5970-6212 | every step of manager, tables, connection, switch, acknowledgement and loss keeps all of it together |
| `Controller.DoManager` | controller/if-status.c:290-690 | the class takes the step of the whole: what the manager does, and the request it makes |
| `Controller.DoTable` | controller/ofctrl.c:1289-1593 | the same for an operation on a flow table |
| `Controller.DoConnection` | controller/ofctrl.c:2732-3043 | the same for the flow tables at an event on the connection: cleared, put with the flow-mods that are sent, or left alone |
| `Controller.DoSeqno` | controller/ovn-controller.c:6204 | the same for `ofctrl_seqno_run` with the current configuration |
| `Controller.DoLost` | controller/ovn-controller.c:1320-1324 | the same for a lost connection |
| `EndToEnd.AckedIsRealised` | controller/ovn-controller.c:6186-6204 | over every run of the whole: an acknowledged request, made at k, was early, or there was a put at g and at h the switch held flows that realise both tables as wanted at g, with k < g < h, on one connection from g to h |
| `EndToEnd.UpIsRealised` | controller/if-status.c:636-690 | over every run of the whole: an interface always claimed as a vif and past INSTALL_FLOWS has had a request on this connection, and the latest one, made at k, was early, or there was a put at g and at h the switch held flows realising both tables as wanted at g, with k < g < h, on one connection from g to h |
| `Seqno.PrefixIsUpTo` | controller/ofctrl-seqno.c:173-185 | in a list ordered by configuration, stopping at the first unanswered request misses none |
| `Seqno.AckConserves` | controller/ofctrl-seqno.c:247-254 | acking moves requests from in flight to acked: created = consumed ++ acked ++ in flight |
| `Seqno.CreateConserves` | controller/ofctrl-seqno.c:151-167 | a new request keeps that equation for every type |
| `Seqno.ConsumeConserves` | controller/ofctrl-seqno.c:74-89 | handing out keeps that equation |
| `Seqno.Tracker.constructor` | controller/ofctrl-seqno.c:121-125 | no types and no requests |
| `Seqno.Tracker.AddType` | controller/ofctrl-seqno.c:128-146 | a new type; earlier types keep their acked lists but their counters restart |
| `Seqno.Tracker.UpdateCreate` | controller/ofctrl-seqno.c:151-167 | an unchanged configuration is no request; otherwise exactly one more, with the next number |
| `Seqno.Tracker.CfgRun` | controller/ofctrl-seqno.c:247-254 | the request becomes the last acked one of its type only |
| `Seqno.Tracker.Run` | controller/ofctrl-seqno.c:173-185 | exactly the requests with flow_cfg <= f become acked, in order, per type; the others stay in flight |
| `Seqno.Tracker.AckedGet` | controller/ofctrl-seqno.c:74-89 | all acked requests of the type are handed out once, in order, and the last one is reported |
| `Seqno.Tracker.Flush` | controller/ofctrl-seqno.c:197-205 | no request is left and numbering restarts |
| `IfStatus.PassesDecide` | controller/if-status.c:468-633 | the five passes of `if_status_mgr_update` together make one decision per interface, given as a table |
| `IfStatus.AckWakeUps` | controller/if-status.c:647-690 | handing out acked numbers wakes exactly the interfaces whose own request was answered, 32-bit wrap included |
| `IfStatus.QuietReady` | controller/if-status.c:468-633 | an update without newly claimed interfaces loses no wake-up |
| `IfStatus.RequestReady` | controller/if-status.c:580-632 | a request for newly claimed interfaces keeps every wake-up pending |
| `IfStatus.AfterAckOne` | controller/if-status.c:660-684 | only an acked number takes an interface out of INSTALL_FLOWS, to MARK_UP iff its ovn-installed is known to be absent, and otherwise to REM_OLD_OVN_INSTALLED |
| `IfStatusModel.RunKeeps` | controller/if-status.c:647-690 | exactly the interfaces whose request was answered leave INSTALL_FLOWS |
| `IfStatusModel.AfterKeeps` | controller/if-status.c:290-690 | every event keeps: an interface in INSTALL_FLOWS has its own request pending; one always claimed as a vif is past it only if its latest request was answered |
| `IfStatusModel.VifOnlyMeans` | controller/if-status.c:290-337 | which interfaces count as always claimed as a vif, in terms of the events |
| `IfStatusModel.EntryMeans` | controller/if-status.c:600-632 | which request an interface is recorded with: the latest one made for it on this connection, and its configuration |
| `IfStatusModel.UpWasAnswered` | controller/if-status.c:636-690 | over every run: an interface always claimed as a vif and past INSTALL_FLOWS has had a request on this connection, and the latest one is not in flight |
| `IfStatusModel.WaitingIsPending` | controller/if-status.c:636-690 | over every run: an interface in INSTALL_FLOWS has the latest request for it in flight, or acked and not handed out |
| `IfStatusModel.DownMeans` | controller/if-status.c:290-378 | over every run: an interface is in MARK_DOWN or UPDATE_PORT iff the latest claim or release of it was a release, and is a vif as its latest claim said |
| `IfStatusModel.LeavesWhen` | controller/if-status.c:542-613 | over every run: exactly when an interface goes: a lost connection, or an update while it is taken down, with the port down if still bound and the database writable otherwise |
| `IfStatusModel.ClaimedUntil` | controller/if-status.c:580-598 | over every run: exactly when CLAIMED is left, and for which state |
| `IfStatusModel.InstalledMeans` | controller/if-status.c:503-540 | over every run: an interface is INSTALLED only if it was reported up, with its chassis set or able to be, after its latest claim, and not released since |
| `IfStatusModel.MarkedMeans` | controller/if-status.c:667-682 | over every run: an interface always claimed as a vif is marked up only if it was seen without ovn-installed after the latest request for its flows |
| `IfStatusMgr.Manager.constructor` | controller/if-status.c:235-247 | no interfaces, no requests, a sequence number type of its own |
| `IfStatusMgr.Manager.SetIface` | controller/if-status.c:802-814 | the interface moves, and the per-state sets stay its grouping by state |
| `IfStatusMgr.Manager.DestroyIface` | controller/if-status.c:776-790 | the interface goes from the map and from its per-state set |
| `IfStatusMgr.Manager.Claim` | controller/if-status.c:290-337 | the state after a claim is the one of the state machine; the interface is there, not being taken down, not INSTALLED, and a vif as claimed; no other one changes |
| `IfStatusMgr.Manager.Release` | controller/if-status.c:345-378 | the same for a release: the interface, if there, is being taken down; no other one changes |
| `IfStatusMgr.Manager.DoPass` | controller/if-status.c:520-632 | a pass changes exactly the interfaces of its state |
| `IfStatusMgr.Manager.UpdateIfaces` | controller/if-status.c:468-633 | the same for an update: the decision for every interface, at most one new request, and which interfaces it is recorded for |
| `IfStatusMgr.Manager.Run` | controller/if-status.c:647-690 | the same for handing out acked requests |
| `IfStatusMgr.Manager.SeqnoRun` | controller/ofctrl-seqno.c:173-185 | the same for acking |
| `IfStatusMgr.Manager.OtherCreate` | controller/ofctrl-seqno.c:151-167 | the same for a request of another type |
| `IfStatusMgr.Manager.OtherGet` | controller/ofctrl-seqno.c:74-89 | the same for consumption by another type |
| `IfStatusMgr.Manager.Clear` | controller/if-status.c:249-267 | no interface is left |
| `IfStatusMgr.Manager.ConnectionLost` | controller/ovn-controller.c:1320-1324 | the same for a lost connection: no interface, no request and nothing recorded is left |
| `IfStatusMgr.RunEvents` | controller/if-status.c:290-690 | any run of the class goes through the states of a run of the state machine |
| `ConjIds.ScanBlock` | controller/lflow-conj-ids.c:122-153 | how trying one block ends, and what that says about its ids |
| `ConjIds.FindBlock` | controller/lflow-conj-ids.c:116-159 | terminates; the first free block in cyclic order from the hash, or 0 exactly if no candidate block is free |
| `ConjIds.TurnMeans` | controller/lflow-conj-ids.c:116-159 | the cyclic order of the search: from the hash upwards, and after the greatest id from 1 |
| `ConjIds.FirstFreeUnique` | controller/lflow-conj-ids.c:116-159 | that block is unique |
| `ConjIds.SingleNoneFree` | controller/lflow-conj-ids.c:84-103 | for one id, failure means all ids are in use |
| `ConjIds.MissesFreeBlock` | controller/lflow-conj-ids.c:84-103 | a run of the allocator in which, for any starting point above 1, the search for two ids fails although a block is free: one around its starting point |
| `ConjIds.PartitionInsert` | controller/lflow-conj-ids.c:315-348 | ids in use stay the disjoint union of the recorded blocks when a free block is added |
| `ConjIds.PartitionRemove` | controller/lflow-conj-ids.c:367-392 | and when a block is freed |
| `ConjIds.FreedIds` | controller/lflow-conj-ids.c:216-229 | freeing a logical flow releases precisely its ids |
| `ConjIds.Allocator.constructor` | controller/lflow-conj-ids.c:231-237 | no ids in use |
| `ConjIds.Allocator.Insert` | controller/lflow-conj-ids.c:315-348 | the three indexes agree after the block is recorded |
| `ConjIds.Allocator.FreeBlock` | controller/lflow-conj-ids.c:367-392 | exactly the block's ids are released; the indexes agree |
| `ConjIds.Allocator.FreeForLflowDp` | controller/lflow-conj-ids.c:394-411 | releases the owner's block, if any |
| `ConjIds.Allocator.Alloc` | controller/lflow-conj-ids.c:104-164 | n = 0 changes nothing; otherwise the owner's old block is given up and the first free block recorded, or none on failure |
| `ConjIds.Allocator.AllocSpecified` | controller/lflow-conj-ids.c:171-201 | succeeds iff the block is within range and free once the owner's old block is given up |
| `ConjIds.Allocator.Available` | controller/lflow-conj-ids.c:183-196 | the loop decides whether a block is free and does not wrap |
| `ConjIds.Allocator.Find` | controller/lflow-conj-ids.c:205-213 | the recorded start, 0 iff there is none |
| `ConjIds.Allocator.FreeLflow` | controller/lflow-conj-ids.c:216-229 | all blocks of the logical flow and precisely their ids go |
| `LocalData.LimitIsDeep` | controller/local_data.c:573-577 | the depth limit is met only if more than that many datapaths are reachable |
| `LocalData.LeadsMeans` | controller/local_data.c:132-181 | `need_add_peer_to_local` with the peer lookups, in terms of the columns of the rows |
| `LocalData.FoundMore` | controller/local_data.c:583-606 | a search that goes on from a peer's datapath finds only datapaths that new ones lead to |
| `LocalData.PairAddedGood` | controller/local_data.c:604-605 | adding both ends keeps the lists duplicate-free and symmetric |
| `LocalData.LocalDatapaths.constructor` | controller/ovn-controller.c:1662 | no local datapaths |
| `LocalData.LocalDatapaths.PeerPortAdd` | controller/local_data.c:628-651 | the entry is added unless the local port is listed |
| `LocalData.LocalDatapaths.Add` | controller/local_data.c:549-613 | terminates; adds only reachable datapaths; unless too many are reachable, the new ones are closed and list all their leading ports; lists stay good |
| `LocalData.LocalDatapaths.AddLocalDatapath` | controller/local_data.c:183-197 | adds only reachable datapaths; with at most 100 reachable, the peer's datapath is local for every port of a new datapath that opens it (patch without redirect, with a redirect port not always redirecting or with this chassis in its group, or gateway port on this chassis); each new datapath but the root was opened that way from a new one; all reachable ones are local if the old ones were closed; lists stay duplicate-free and symmetric for mutual peers |
| `LocalData.LocalDatapaths.AddPeerPort` | controller/local_data.c:199-232 | adds only datapaths reachable from the peer; with at most 99 of them the new ones are closed and list all their leading ports; symmetry is kept iff the peer's datapath was local or the peer leads back by itself |
| `LocalData.LosesSymmetry` | controller/local_data.c:199-232 | a concrete run in which it is not: a switch port on its own, then attached to a router |
| `LocalData.LocalDatapaths.RemovePeerPort` | controller/local_data.c:234-267 | terminates; exactly the entries of the port and its peer go; lists stay duplicate-free and symmetric |
| `LocalData.SwapRemovedOk` | controller/local_data.c:252-257 | moving the last entry into the gap removes exactly that entry |
| `LocalData.ReachesLocal` | controller/local_data.h:36-46 | from a local datapath only local ones are reachable once all are closed |
| `PortSec.MaskedRange` | controller/lflow.c:3084-3088 | a masked match is the range from network to broadcast address |
| `PortSec.LinkLocalMeans` | controller/lflow.c:3169-3175 | the link-local address is, byte by byte, fe80::/64, the first byte with one bit inverted, two bytes, ff fe, and the last three bytes of the Ethernet address |
| `PortSec.LinkLocalInjective` | controller/lflow.c:3169-3175 | different Ethernet addresses have different link-local addresses |
| `PortSec.Lets4Means` | controller/lflow.c:3011-3107 | the priority-95 IPv4 rules of an entry match exactly its hosts, subnets, subnet and limited broadcast and multicast |
| `PortSec.Lets6Means` | controller/lflow.c:3109-3188 | the priority-95 IPv6 rules of an entry match exactly its hosts, subnets, link-local address and multicast |
| `PortSec.TopDecides` | controller/lflow.c:3239-3261 | rules of one priority act alike, so overlapping rules never disagree |
| `PortSec.CompiledMeans` | controller/lflow.c:2991-3188 | for every entry list and packet: the highest-priority matching rule allows it iff the entries permit it |
| `PortSec.Builder.constructor` | controller/lflow.c:3223-3227 | no rules |
| `PortSec.Builder.AddFlow` | controller/ofctrl.c:1289-1332 | exactly this rule is in the table in addition; a second one with the same priority and match is dropped |
| `PortSec.Builder.BuildNoIp` | controller/lflow.c:2991-3009 | exactly the entry's rule of priority 85 |
| `PortSec.Builder.BuildIp4` | controller/lflow.c:3011-3107 | exactly the entry's IPv4 rules |
| `PortSec.Builder.BuildIp6` | controller/lflow.c:3109-3188 | exactly the entry's IPv6 rules |
| `PortSec.Builder.Consider` | controller/lflow.c:3239-3261 | delivers a packet to the port iff the entries permit it; rules of other ports are unchanged |
| `PortSec.Builder.ConsiderPort` | controller/lflow.c:3190-3268 | invalid entries are skipped; without a valid one there are no rules |
| `HaChassis.StrCmpAt` | controller/ha-chassis.c:31-33 | names compare at their first difference, and a proper prefix is less |
| `HaChassis.CompareIsBefore` | controller/ha-chassis.c:25-35 | for the priorities the schema allows, the comparison is: greater priority first, then greater name |
| `HaChassis.Sort` | controller/ha-chassis.c:124-127 | a permutation, ordered |
| `HaChassis.GetOrdered` | controller/ha-chassis.c:62-134 | none iff no candidate, or one that sees no reference chassis; otherwise the candidates, ordered |
| `HaChassis.IsLocalOnlyCandidate` | controller/ha-chassis.c:149-165 | true iff the only set member is the local chassis |
| `HaChassis.IsActive` | controller/ha-chassis.c:169-203 | true iff the chassis is the master, said without sorting |
| `HaChassis.MasterIsGreatest` | controller/ha-chassis.c:169-203 | with two or more live members that see each other, a member is master iff it is the greatest by priority, then name |
| `HaChassis.OneMaster` | controller/ha-chassis.c:169-203 | exactly one live member finds itself the master |
| `HaChassis.AloneMaster` | controller/ha-chassis.c:169-203 | exactly when a member that sees no other one is the master |
| `LflowCache.PushCurrent` | controller/lflow-cache.c:332-368 | adding a value keeps "cached values are the last ones added" iff the logical flow missed before |
| `LflowCache.TrimmedMeans` | controller/lflow-cache.c:396-419 | an unforced trim lowers the watermark, to the count, iff it is above the limit and the count, and the count is at most the percentage of it |
| `LflowCache.Cache.constructor` | controller/lflow-cache.c:85-96 | empty and disabled |
| `LflowCache.Cache.DeleteExpr` | controller/lflow-cache.c:370-394 | counters follow; the entry is gone |
| `LflowCache.Cache.DeleteMatches` | controller/lflow-cache.c:370-394 | counters follow; the entry is gone |
| `LflowCache.Cache.Trim` | controller/lflow-cache.c:396-419 | exactly when the watermark drops to the count, forced or not, with the percentage taken in 32 bits |
| `LflowCache.Cache.Flush` | controller/lflow-cache.c:98-114 | empty, watermark 0 |
| `LflowCache.Cache.Enable` | controller/lflow-cache.c:131-175 | flushes iff it disables or shrinks below what is held; counters, bounds and "empty when disabled" kept |
| `LflowCache.Cache.Get` | controller/lflow-cache.c:244-265 | nothing iff not cached; otherwise the value added last |
| `LflowCache.Cache.Delete` | controller/lflow-cache.c:267-282 | the logical flow is not cached any more; bounds kept |
| `LflowCache.Cache.MakeRoom` | controller/lflow-cache.c:284-303 | evicts one expression, and only for matches; matches are never evicted |
| `LflowCache.Cache.Add` | controller/lflow-cache.c:332-368 | exactly when the value is added; count = entries <= capacity, memory = sum of sizes <= limit, watermark >= count |
| `TunnelId.Tokenizer.Next` | controller/encaps.c:127-163 | one token of `strtok_r` and what it leaves |
| `TunnelId.Parse` | controller/encaps.c:127-163 | the three tokens, or failure |
| `TunnelId.Match` | controller/encaps.c:175-206 | true iff the id matches |
| `TunnelId.RoundTrip` | controller/encaps.c:99-163 | parsing a created id gives its parts back iff the chassis is non-empty without @, the remote non-empty without %, and the local non-empty |
| `TunnelId.LegacyRoundTrip` | controller/encaps.c:111-163 | the legacy form parses to (chassis, remote, none) iff the first two conditions hold |
| `TunnelId.CreatedMatches` | controller/encaps.c:175-206 | a created id matches iff every supplied component is equal |
| `TunnelId.LegacyMatches` | controller/encaps.c:175-206 | a legacy id ignores the local address |
| `TunnelId.CreateInjective` | controller/encaps.c:99-105 | different well-formed parts give different ids |
| `TunnelId.MatchesParsed` | controller/encaps.c:127-206 | matching agrees with parsing for every id that parses |

## Left out

- `Reconcilers.Run`: an operation that a caller may not issue in the current state (see above) is skipped instead of being excluded from the run.
- `FlowTables.FlowTable.AddOrAppendFlow`: meters are not modelled, so lookups compare table, priority and match only.
- `FlowTables.FlowTable.DropRow`: the lists of references are sets, because nothing observes their order.
- `IfStatusMgr.Manager.UpdateIfaces`: with 2^32 or more requests pending the update is skipped, so that pending 32-bit numbers are different.
- `EndToEnd.UpIsRealised`: says that the switch held the flows after the put, not that it still does: later puts change them, and a switch that is restarted loses them. Groups and meters that the flows refer to are not modelled.
- `IfStatusMgr.Manager.Release`: the interface name that `if_status_mgr_delete_iface` compares first, MTU updates and the table of interfaces whose `ovn-installed` is being removed are not modelled.
- `Seqno.Tracker.AddType`: what happens to requests made before a later type is registered is modelled, but the interface manager's invariant assumes all types are registered before the first request.
- `LflowCache.Cache.Add`: assumes the cached entries and the new one fit a 64-bit address space together.
- `HaChassis.IsActive`: `qsort` is an insertion sort here.
- `LocalData.LocalDatapaths.Add`: the tracked-datapath list and memory accounting are not modelled; a datapath is its tunnel key.
- `PortSec.Builder.ConsiderPort`: the text of an entry is parsed elsewhere, and in-port security (about the same number of rules again, for ARP and neighbour discovery) is not modelled.
- `TunnelId.Tokenizer.Next`: strings are sequences of characters without a terminating zero.
- `OfctrlConn.Connection.Put`: the negotiation of the Geneve option is only part of the state machine (`OfctrlState.RecvTlvTable`), not of the class.
- Meters, groups, bundles, load-balancer tuples and packet injection: other message kinds of `ofctrl_put`, which only matter here as "there was something to send".
- OVSDB rows, transactions and indexes, the incremental engine and `controller/binding.c`: inputs.
- Expression and action parsing, and the translation of logical flows.
- `controller/pinctrl.c`, `controller/physical.c`, `controller/mac-cache.c`, `controller/chassis.c`, northd and the utilities.
- Logging, coverage counters, memory statistics, poll wake-ups and the test mode of the id allocator.
