# Location service model

A model, in Dafny, of the stateful core of a GPS hardware abstraction layer, with proofs of what
that core is for. It covers

* the timer service: the ranked heap of `LocHeap`, the order of deadlines, and the protocol by
  which client threads, a poll thread and a message task start, stop and expire timers;
* the tracking multiplexer of `GnssAdapter`, which runs many sessions on an engine that takes one
  interval, and its limiter of on-demand position injection (ODCPI) requests;
* the assisted-GPS connection state machines and the manager that owns them;
* structures that must agree with each other: the subscription maps of `SystemStatusOsObserver`,
  the id/session dictionary `BiDict` with the geofence and session calls that drive it, the adapter
  array of `LocApiBase`, and the two ends of the `LocIpc` framing.

## How it is built

Each component has a specification on values (`HeapTree`, `TimerProtocol`, `AgpsSpec`,
`TrackingSpec`, `OsObserverSpec`, `SetMaps`, `LocIpcFraming`, `BiDictSpec`, `ClientSessionsSpec`,
`AdaptersSpec`) that follows the code branch by branch, and, as the source is imperative, classes
with the source's fields and loops (`LocHeap`, `LocTimer`, `Agps`, `Tracking`, `Odcpi`,
`OsObserver`, `SetMaps.LocUnorderedSetMap`, `LocIpc`, `LocationClient`, `LocApiBase`) whose methods
are proved to do exactly what the specification says. The promises are then lemmas about the
specification, most of them about every reachable state of every run. Several say what a run comes to
in terms of the calls made alone: which sessions are saved (`SessionsAreSaved`), who has subscribed to
what (`RunsStand`), when each timer is due (`EntriesCarryTimeouts`), when the framework is asked
(`RunsArePrompt`), what each connection handle is told (`HandlesDecide`). `dafny verify dfyconfig.toml`
checks everything.

The timer protocol keeps memory explicit: `new` picks any free address, also one used before,
`delete` frees it, and following a pointer to nothing raises a fault that no run can reach. The poll
thread is finer than one step: waking, disarming, leaving the poll and queueing the Expire message
are separate steps, between which clients and the message task move. The round of the expire loop
is a step too, so that clients can start and stop timers between two callbacks.

## Premises

* A body run under a timer's lock, a message of a message task, and a round of the expire loop are
  atomic. Message queues are first-in first-out.
* The clock is such that all deadlines lie within 2^31 seconds, 68 years, from boot
  (`TimerOrder.BootTime`); across a wider span `ranks` is no order, which is proved as well.
* The kernel may report an armed and polled timer at any moment, early reports included.
* The ULP proxy is the base one, which handles no fix. A failed engine call leaves the engine as it
  was; the `startFix` of a restart succeeds. At most 2^32 - 2 session ids are generated.
* The location API hands out each session once and above 0. It serves a client's calls in the order
  they are made, as the one message queue of an adapter does, and does not respond to a call about a
  session it does not run. Served in another order they can leak a session (`OutOfOrderLeaks`). That
  starts, stops and updates succeed is no premise.
* IPC datagrams are neither lost, repeated nor reordered, and come from one sender.

## Where code and comments disagree

The code was followed in each case.

* `LocUnorderedSetMap::update` (gps/utils/LocUnorderedSetMap.h:173-187) is said to return the values
  removed from the entry; it returns those that stay. `updateSubscription` therefore takes the client
  out of the entries of the items it keeps and leaves it in those it gives up. The maps stay inverse
  exactly when the client had no subscription (`UpdateKeepsInverseIff`, `UpdateForgetsKeptItem`); with
  the documented return value they always would (`DocumentedUpdateKeeps`).
* `LocHeap.h` says `remove` looks for a node that ranks the same; it looks for the very object.
* The first pop of an Expire message is unconditional, so a timer can be called back before its
  deadline (`StaleExpireFiresEarly`); when exactly is `EarlyOnlyOnFirstPop`, and why `EarlyIsOvertaken`.
  The branch of `updateSoonestTime` that disarms the kernel for an empty heap is never taken
  (`NoCallDisarms`).
* `OnlyPollDisarms` says of every run what follows from that: the poll thread alone disarms a kernel
  timer.
* A session that is changed or ended while another has the same interval can leave the engine in its
  mode (`TieLeavesMode`); exactly when it does not is `EngineServesIff`.
* An open message still under way when the last adapter leaves opens the engine again after its
  `close()`; exactly when it stays closed is `StaysClosedIff`.
* The queue of session requests is popped by any response about a known session, so that a request
  whose call is never answered takes the response of another. A client that stops an id twice before
  the first stop is answered makes the next session leak (`DoubleStopLeaks`). Just how much care it
  takes is `SafeIffCareful`.
* `deleteSubscriber` is handed the list's own entry by `processAgpsEventUnsubscribe`, deletes it, and
  goes on to compare the entries behind it with it (gps/gnss/Agps.cpp:427-431). The model passes the
  handle by value, which is what the comparison is meant to read.

## Model

| member | source | states |
|---|---|---|
| HeapTree.PushIsSound | gps/utils/LocHeap.cpp:107-124 | pushing onto a heap gives a heap whose elements are the old ones and exactly the new one |
| HeapTree.PushKeepsBalance | gps/utils/LocHeap.cpp:118-122 | a push enters the smaller subtree, so siblings that differ in size by at most one still do |
| HeapTree.BalancedIsShallow | gps/utils/LocHeap.h:54-58 | a balanced tree of n nodes is at most floor(log2 n) + 1 deep |
| HeapTree.PushesBuildHeap | gps/utils/LocHeap.cpp:228-235 | after any number of pushes the tree is a heap of exactly what was pushed |
| HeapTree.PushesStayBalanced | gps/utils/LocHeap.cpp:101-106 | after any number of pushes from empty, sizes are right, the tree is balanced at every node and logarithmically deep |
| HeapTree.PopCounts | gps/utils/LocHeap.cpp:134-164 | pop hands out the top and frees one node, and every size stays right |
| HeapTree.PopRestoresOrder | gps/utils/LocHeap.cpp:144-154 | order comes back although data is handed down out of place: pop needs order only below the top |
| HeapTree.PopIsSound | gps/utils/LocHeap.cpp:126-133 | popping a heap leaves a heap that lost exactly the element popped, which nothing stored outranks |
| HeapTree.DrainSorts | gps/utils/LocHeap.cpp:245-254 | popping until empty lists all that was stored, in rank order |
| HeapTree.HeapSort | gps/utils/LocHeap.cpp:228-254 | pushing any elements and draining them gives a rank-sorted permutation of them |
| HeapTree.RemoveFinds | gps/utils/LocHeap.cpp:173-193 | pruning by rank never hides the object: it is found exactly when it is stored, and otherwise the tree is unchanged |
| HeapTree.RemoveTakesOne | gps/utils/LocHeap.cpp:170-193 | a successful remove takes one occurrence of the object and touches no other |
| HeapTree.RemoveIsExact | gps/utils/LocHeap.cpp:166-193 | remove leaves a heap, and is exact both when the object is stored and when it is not |
| HeapTree.RemoveKeepsTop | gps/utils/LocHeap.cpp:176-190 | removing anything but the top leaves the top |
| HeapTree.CheckNodesIsHeap | gps/utils/LocHeap.cpp:197-220 | checkNodes, which only compares neighbours, is true exactly of trees whose sizes and order are right throughout |
| HeapTree.RunsStayHeaps | gps/utils/LocHeap.cpp:228-267 | no run of pushes, pops and removes makes checkNodes false |
| LocHeap.LocHeapNode.Push | gps/utils/LocHeap.cpp:107-124 | the in-place push has the effect of the tree function and keeps the node links a tree |
| LocHeap.LocHeapNode.Pop | gps/utils/LocHeap.cpp:134-164 | the in-place pop has the effect of the tree function; the node cut off is a leaf carrying the old top |
| LocHeap.LocHeapNode.Remove | gps/utils/LocHeap.cpp:170-193 | the in-place remove has the effect of the tree function; the node cut off is a leaf carrying the object, or there is none |
| LocHeap.LocHeapNode.CheckNodes | gps/utils/LocHeap.cpp:197-220 | the recursive check computes the neighbour check of the tree it heads |
| LocHeap.LocHeap.Push | gps/utils/LocHeap.cpp:228-235 | adds the element to the contents as the tree push does, from empty too |
| LocHeap.LocHeap.Pop | gps/utils/LocHeap.cpp:245-254 | hands out the top, or nothing when empty |
| LocHeap.LocHeap.Remove | gps/utils/LocHeap.cpp:256-267 | hands back the object when it was stored and nothing otherwise |
| TimerOrder.Truncate32 | gps/utils/LocTimer.cpp:515-519 | the narrowing to int of a difference of times: the one value in range that is congruent modulo 2^32 |
| TimerOrder.RanksIsTimeOrderIff | gps/utils/LocTimer.cpp:509-523 | ranks tells which deadline is sooner exactly when truncation keeps the sign of the difference |
| TimerOrder.RanksIsTimeOrder | gps/utils/LocTimer.cpp:513-520 | within 2^31 seconds ranks has the sign of the difference of the deadlines |
| TimerOrder.RanksBreaksAt2To31 | gps/utils/LocTimer.cpp:515 | at exactly 2^31 seconds each of two deadlines ranks below the other |
| TimerOrder.EntriesAreRanked | gps/utils/LocTimer.cpp:509-523 | on deadlines in the window outRanks is the strict weak order the heap needs |
| TimerOrder.FutureTimeIsExact | gps/utils/LocTimer.cpp:557-564 | start computes a normalized deadline exactly the timeout after now, with no overflow on the way |
| TimerTheorems.NoTimerIsStranded | gps/utils/LocTimer.cpp:283-385 | in every reachable state a started timer's delegate is either once in its heap or has one Push pending, and a heap that holds anything is armed for its minimum or has an expiry under way |
| TimerTheorems.NeverStuck | gps/utils/LocTimer.cpp:450-474 | while a timer is started, the poll thread, the kernel or the message task can take a step |
| TimerTheorems.MessageTaskComesToRest | gps/utils/LocTimer.cpp:363-377 | each message and each round of the expire loop leaves less work, although callbacks queue messages: the loop ends |
| TimerTheorems.NoRunFaults | gps/utils/LocTimer.cpp:311-353 | no run follows a pointer to a deleted delegate, timer or lock |
| TimerTheorems.EachDelegateIsFreedOnce | gps/utils/LocTimer.cpp:331-353 | each start's delegate is alive or was freed, once; heaps and queue name living delegates only; a Remove is never ahead of its Push |
| TimerTheorems.LockDiesWithLastHolder | gps/utils/LocSharedLock.h:42-57 | a shared lock counts its timer and its undeleted delegates, and lives exactly while there are any |
| TimerTheorems.CallbackAtMostOnce | gps/utils/LocTimer.cpp:491-538 | a delegate names a client exactly when that client's timer names it; every start is running, called back once, or stopped, and only one of these |
| TimerTheorems.NoCallbackAfterStop | gps/utils/LocTimer.cpp:578-591 | once stop() has returned true for a start its callback never runs, however the run goes on |
| TimerTheorems.RecordGrows | gps/utils/LocTimer.cpp:526-538 | no step takes back a callback, a stop or a delete |
| TimerTheorems.ExpireDrainsWhatIsDue | gps/utils/LocTimer.cpp:363-377 | an Expire message pops, in order of deadlines, exactly the top it found and all timers due by its now; what is left is due later |
| TimerTheorems.EarlyOnlyOnFirstPop | gps/utils/LocTimer.cpp:370-372 | a pop is before its deadline exactly when it is the first of a message that found a top later than now |
| TimerTheorems.StaleExpireFiresEarly | gps/utils/LocTimer.cpp:370 | a run in which a timer restarted for ten seconds is called back at once |
| TimerProgress.CallbackIsReachable | gps/utils/LocTimer.cpp:283-474 | from wherever a run has led, steps of poll thread, kernel and message task alone can bring about the callback of any running timer, whatever the clock says |
| TimerProgress.EarlyIsOvertaken | gps/utils/LocTimer.cpp:363-385 | with a kernel that is never early, a timer is popped before its deadline only if every entry an expiry had been reported for left the heap before the Expire message was taken from the queue |
| TimerProgress.WokenForTop | gps/utils/LocTimer.cpp:450-474 | the expiry reported is that of the heap's top, unless an earlier Expire has not been dealt with |
| TimerProgress.NoCallDisarms | gps/utils/LocTimer.cpp:292-297 | none of the three calls of updateSoonestTime takes the branch for an emptied heap |
| TimerProgress.OnlyPollDisarms | gps/utils/LocTimer.cpp:380-383 | in every run the poll thread alone disarms a kernel timer and takes it out of the poll |
| TimerStarts.StartBegins | gps/utils/LocTimer.cpp:553-576 | after any run, a start that finds no running timer and gets a container makes the timer own a delegate due the timeout after now, to the nanosecond, with its push queued for the container asked for; any other start changes nothing |
| TimerStarts.EntriesCarryTimeouts | gps/utils/LocTimer.cpp:557-570 | in every run every heap entry and every popped entry is of a start that asked for that container, and its time is that start's now plus timeout |
| TimerStarts.CallbackIsDue | gps/utils/LocTimer.cpp:363-377 | a start is called back only by a round of the expire loop that pops it from its container, and after its now plus timeout by the message's clock unless it is the first popped; one at a time, and never a stopped one |
| TimerStarts.PopCallsBack | gps/utils/LocTimer.cpp:526-538 | a round that pops calls the start back there and then, unless a client has stopped it |
| TimerStarts.StopEnds | gps/utils/LocTimer.cpp:545-591 | a stop or the destructor ends the start its timer is running and no other, and that start is never called back, however the run goes on |
| TimerInvariants.RunsKeep | gps/utils/LocTimer.cpp:283-591 | the joint invariant of heaps, queue, kernel timers, locks and record holds in every state of every run |
| LocTimer.LocTimerContainer.UpdateSoonestTime | gps/utils/LocTimer.cpp:283-309 | arms, disarms or leaves the kernel timer as the protocol step says |
| LocTimer.LocTimerContainer.PopIfOutRanks | gps/utils/LocTimer.cpp:387-394 | pops the top unless the given time outranks it |
| LocTimer.TimerService.Start | gps/utils/LocTimer.cpp:553-576 | a start is the protocol's start step, of which StartBegins says what it comes to; it succeeds exactly when no timer was running and a container is available |
| LocTimer.TimerService.Stop | gps/utils/LocTimer.cpp:578-591 | a stop is the protocol's stop step; it succeeds exactly when a timer was running |
| LocTimer.TimerService.DeleteTimer | gps/utils/LocTimer.cpp:545-551 | the destructor stops the timer and drops the lock |
| LocTimer.TimerService.DropLock | gps/utils/LocSharedLock.h:52 | a drop counts down, and the last one frees the lock |
| LocTimer.TimerService.PushMessage | gps/utils/LocTimer.cpp:320-324 | the Push message inserts the delegate and updates the soonest time |
| LocTimer.TimerService.RemoveMessage | gps/utils/LocTimer.cpp:337-349 | the Remove message takes the delegate out, updates the soonest time if it was the top, and frees it |
| LocTimer.TimerService.ExpireDelegate | gps/utils/LocTimer.cpp:526-538 | an expiry stops the timer that still owns the delegate and only then calls back |
| LocTimer.TimerService.Receive | gps/utils/LocTimer.cpp:363-377 | a message processed to its end, the loop of an Expire included, is the protocol's receive step and all its rounds, and leads from a state of the invariant to another |
| TrackingSpec.IdsRepeat | gps/core/LocAdapterBase.cpp:53-61 | session ids repeat exactly with period 2^32 - 2 |
| TrackingSpec.StartKeeps | gps/gnss/GnssAdapter.cpp:1488-1511 | the comparison start makes keeps the engine at the minimum interval |
| TrackingSpec.UpdateKeeps | gps/gnss/GnssAdapter.cpp:1636-1672 | the comparisons update makes keep the engine at the minimum interval |
| TrackingSpec.StopKeeps | gps/gnss/GnssAdapter.cpp:1714-1745 | the comparison stop makes keeps the engine at the minimum interval, or stops it with the last session |
| TrackingSpec.StartKeepsIff | gps/gnss/GnssAdapter.cpp:1473-1476 | for a start whose key is in use: exactly when the law survives that |
| TrackingSpec.StaleKeyBreaksLaw | gps/gnss/GnssAdapter.cpp:1503-1507 | a reused key with a longer interval leaves the engine too fast |
| TrackingSpec.EngineRunsAtMinimum | gps/gnss/GnssAdapter.cpp:1133-1745 | over all runs of start, update, stop, client removal, engine up and restart: the engine runs exactly when there are sessions, at their minimum interval, unless a restart is queued |
| TrackingSpec.SessionsAreSaved | gps/gnss/GnssAdapter.cpp:1473-1701 | in every state of every run a session is there, with these options, exactly if the last successful command about its key was a start or an update with them |
| TrackingSpec.EngineServesIff | gps/gnss/GnssAdapter.cpp:1488-1745 | in a run the engine always runs in the mode and at the interval of a session there is, exactly if every change or end of a session starts it anew, or leaves it one that it runs for |
| TrackingSpec.UntiedKeepsServing | gps/gnss/GnssAdapter.cpp:1659-1740 | so it is where the session changed or ended shares its interval with no other |
| TrackingSpec.TieLeavesMode | gps/gnss/GnssAdapter.cpp:1736-1740 | with such a tie, the engine can go on in the mode of a session that has ended |
| Tracking.GnssAdapter.SmallestInterval | gps/gnss/GnssAdapter.cpp:1650-1658 | the scan finds a session with the smallest interval among those other than the one left out |
| Tracking.GnssAdapter.StartTrackingMultiplex | gps/gnss/GnssAdapter.cpp:1488-1511 | makes the engine call of the start step, and fails exactly when the engine refuses one that no other session's pace spares |
| Tracking.GnssAdapter.UpdateTrackingMultiplex | gps/gnss/GnssAdapter.cpp:1636-1672 | makes the engine call of the update step, and fails exactly when the engine refuses one that no other session's pace spares |
| Tracking.GnssAdapter.StopTrackingMultiplex | gps/gnss/GnssAdapter.cpp:1714-1745 | makes the engine call of the stop step, and fails exactly when the engine refuses one that no other session's pace spares |
| Tracking.GnssAdapter.StartTrackingCommand | gps/gnss/GnssAdapter.cpp:1464-1479 | refuses a missing callback and empty options; saves the session exactly if it answers success, which it does exactly if the engine takes the call or a session as fast makes one needless |
| Tracking.GnssAdapter.UpdateTrackingOptionsCommand | gps/gnss/GnssAdapter.cpp:1612-1629 | saves the options of a known session exactly if it answers success, and says exactly when it does; nothing is reported of an unknown one |
| Tracking.GnssAdapter.StopTrackingCommand | gps/gnss/GnssAdapter.cpp:1693-1707 | erases a known session exactly if it answers success, and says exactly when it does; nothing is reported of an unknown one |
| Tracking.GnssAdapter.StopClientSessions | gps/gnss/GnssAdapter.cpp:1133-1147 | is a run of stops of sessions of that client, leaves all others as they are, and leaves of the client's own only such whose call the engine would refuse |
| Tracking.GnssAdapter.RestartSessions | gps/gnss/GnssAdapter.cpp:1212-1235 | restarts the engine with the smallest interval, or not at all without sessions |
| Tracking.SessionIds.GenerateSessionId | gps/core/LocAdapterBase.cpp:53-61 | yields the next id of the sequence, never 0 and never 0xFFFFFFFF |
| Odcpi.RunsAreLimited | gps/gnss/GnssAdapter.cpp:2547-2684 | in every run an active request implies an active timer flag, and between two calls to the framework a timer expiry was processed unless the second is an upgrade to emergency |
| Odcpi.RunsArePrompt | gps/gnss/GnssAdapter.cpp:2547-2684 | in every run the framework is asked at once, and for the request last started, exactly after a START that finds neither a request active nor the timer, a START that turns the request into an emergency, and an expiry with a request active |
| Odcpi.StartKeeps | gps/gnss/GnssAdapter.cpp:2557-2580 | each branch of a START request keeps the limit |
| Odcpi.ExpireKeeps | gps/gnss/GnssAdapter.cpp:2671-2684 | an expiry keeps the limit, whether or not it calls |
| Odcpi.OdcpiAdapter.ReportOdcpiRequest | gps/gnss/GnssAdapter.cpp:2547-2590 | the branches, with the timer's start, stop and restart, are the start and stop steps of which RunsArePrompt and RunsAreLimited say when they ask the framework |
| Odcpi.OdcpiAdapter.OdcpiTimerExpire | gps/gnss/GnssAdapter.cpp:2671-2684 | is the expiry step |
| AgpsSpec.SubscribeKeeps | gps/gnss/Agps.cpp:72-114 | a subscribe keeps the laws of connection, list and every handle |
| AgpsSpec.UnsubscribeKeeps | gps/gnss/Agps.cpp:116-178 | an unsubscribe keeps them |
| AgpsSpec.GrantedKeeps | gps/gnss/Agps.cpp:180-201 | a GRANTED event keeps them |
| AgpsSpec.ReleasedKeeps | gps/gnss/Agps.cpp:203-248 | a RELEASED event keeps them |
| AgpsSpec.DeniedKeeps | gps/gnss/Agps.cpp:250-290 | a DENIED event keeps them |
| AgpsSpec.DropKeeps | gps/gnss/Agps.cpp:502-513 | dropping all subscribers on modem SSR keeps them |
| AgpsSpec.NoticesSay | gps/gnss/Agps.cpp:316-349 | notifyAllSubscribers tells each addressed subscriber, once, and no one else |
| AgpsSpec.OneFinalStatusEach | gps/gnss/Agps.cpp:351-386 | every time a handle joined, one final status or one silent drop has followed, except for the membership it has now |
| AgpsSpec.RequestsAlternate | gps/gnss/Agps.cpp:296-314 | REQUEST is sent only while the connection is closed, RELEASE only while it is requested or open |
| AgpsManagerSpec.RunsAreLawful | gps/gnss/Agps.cpp:770-912 | in every run of the manager both machines obey all laws: the connection is requested or open exactly in PENDING and ACQUIRED, an active subscriber is granted exactly in ACQUIRED, handles are unique, RELEASED has no subscribers; without SSR the other states have the subscribers they need |
| AgpsHandles.HandlesDecide | gps/gnss/Agps.cpp:72-912 | after every run, whatever happens next: each machine gets the event that type and handle call for and no other; each handle is told just what its own standing says, be it out, in since a request of some type, or about to leave, and goes where that says; the machine's next state and its dealings with the framework follow from whether any handle is left and any active |
| AgpsHandles.ListIsViews | gps/gnss/Agps.cpp:139-151 | whether the list is empty and whether anyone in it is active is what the handles' own standings say |
| AgpsHandles.RefusalsAre | gps/gnss/Agps.cpp:777-824 | a request is refused exactly for want of a machine, a release exactly of a handle that is in neither |
| AgpsHandles.ReleaseIsAnswered | gps/gnss/Agps.cpp:127-171 | a release is answered at once and the handle leaves, unless its membership began with an emergency request: then it stays, about to leave, without an answer |
| AgpsHandles.EmergencyWaits | gps/gnss/Agps.cpp:203-290 | an emergency member is told of a close exactly by the peer's release in ACQUIRED, or in RELEASING once it has asked to leave, or by a denial there |
| Agps.AgpsStateMachine.AddSubscriber | gps/gnss/Agps.cpp:398-417 | appends a subscriber unless its handle is in the list |
| Agps.AgpsStateMachine.DeleteSubscriber | gps/gnss/Agps.cpp:419-436 | erases every entry with the handle while iterating, in order |
| Agps.AgpsStateMachine.AnyActiveSubscribers | gps/gnss/Agps.cpp:438-448 | is true exactly when some subscriber is active |
| Agps.AgpsStateMachine.GetSubscriber | gps/gnss/Agps.cpp:472-485 | finds the first entry with the handle |
| Agps.AgpsStateMachine.NotifyAllSubscribers | gps/gnss/Agps.cpp:316-349 | notifies the audience in list order, and erases it if asked to |
| Agps.AgpsStateMachine.DropAllSubscribers | gps/gnss/Agps.cpp:502-513 | empties the list without a word |
| Agps.AgpsStateMachine.ProcessSubscribe | gps/gnss/Agps.cpp:72-114 | is the subscribe step |
| Agps.AgpsStateMachine.ProcessUnsubscribe | gps/gnss/Agps.cpp:116-178 | is the unsubscribe step |
| Agps.AgpsStateMachine.ProcessGranted | gps/gnss/Agps.cpp:180-201 | is the granted step |
| Agps.AgpsStateMachine.ProcessReleased | gps/gnss/Agps.cpp:203-248 | is the released step |
| Agps.AgpsStateMachine.ProcessDenied | gps/gnss/Agps.cpp:250-290 | is the denied step |
| Agps.AgpsManager.RequestATL | gps/gnss/Agps.cpp:770-796 | subscribes with the machine of the type, an emergency request so that it waits for the close, or answers the failure when there is none |
| Agps.AgpsManager.ReleaseATL | gps/gnss/Agps.cpp:798-830 | unsubscribes the handle from the first machine that has it, or answers the failure |
| Agps.AgpsManager.HandleModemSSR | gps/gnss/Agps.cpp:887-900 | drops the subscribers of every machine |
| SetMaps.LocUnorderedSetMap.TrimOrRemove | gps/utils/LocUnorderedSetMap.h:76-140 | takes the values out of the entries, drops those it empties, and reports both |
| SetMaps.LocUnorderedSetMap.AddAll | gps/utils/LocUnorderedSetMap.h:143-171 | adds the values to all entries and reports the new ones |
| SetMaps.LocUnorderedSetMap.RemoveAndReturnInterset | gps/utils/LocUnorderedSetMap.h:57-70 | takes the common elements out of both sets and returns them |
| SetMaps.LocUnorderedSetMap.UpdateEntry | gps/utils/LocUnorderedSetMap.h:176-187 | replaces the entry, returns the values that stay and leaves the new ones in the argument |
| OsObserverSpec.SubscribeKeeps | gps/core/SystemStatusOsObserver.cpp:102-126 | a subscribe or requestData keeps the maps inverse, without empty entries, and the framework in step |
| OsObserverSpec.UpdateKeepsInverseIff | gps/core/SystemStatusOsObserver.cpp:150-175 | an update keeps the maps inverse exactly when the client had no subscription |
| OsObserverSpec.UpdateRegisters | gps/core/SystemStatusOsObserver.cpp:171-199 | an update always leaves no empty entry and the framework asked for exactly the keys of the item map |
| OsObserverSpec.UpdateForgetsKeptItem | gps/core/SystemStatusOsObserver.cpp:159-172 | a subscriber of item 1 that updates to items 1 and 2 is no longer listed for item 1 |
| OsObserverSpec.DocumentedUpdateKeeps | gps/core/SystemStatusOsObserver.cpp:154-175 | the update its comments describe would always keep the law |
| OsObserverSpec.UnsubscribeKeeps | gps/core/SystemStatusOsObserver.cpp:222-241 | an unsubscribe keeps the law |
| OsObserverSpec.UnsubscribeAllKeeps | gps/core/SystemStatusOsObserver.cpp:261-282 | an unsubscribeAll keeps the law |
| OsObserverSpec.RunsAreLawful | gps/core/SystemStatusOsObserver.cpp:60-290 | in every run entries are non-empty and the framework follows the item map; the maps stay inverse in every run whose updates come from clients not yet subscribed |
| OsObserverSpec.SubscribeGets | gps/core/SystemStatusOsObserver.cpp:102-105 | a subscribe adds the items to the client's set and the client to theirs, and changes no other entry |
| OsObserverSpec.UnsubscribeGets | gps/core/SystemStatusOsObserver.cpp:225-230 | an unsubscribe takes just the items named out of the client's set, and the client out of those of them it had |
| OsObserverSpec.UnsubscribeAllGets | gps/core/SystemStatusOsObserver.cpp:262-267 | an unsubscribeAll empties the client's set and takes it out of those items' entries |
| OsObserverSpec.UpdateGets | gps/core/SystemStatusOsObserver.cpp:159-175 | what an update makes of every entry of both maps |
| OsObserverSpec.RunsStand | gps/core/SystemStatusOsObserver.cpp:60-290 | in every run, whether a client has an item follows from the last request that says so, and whether the item lists the client from the requests about the two alone, updates that forget kept items included |
| OsObserverSpec.FrameworkHasUnion | gps/core/SystemStatusOsObserver.cpp:69-79 | under the law the framework is asked for exactly the items some client subscribes to |
| OsObserverSpec.UpdatedOrSame | gps/core/SystemStatusOsObserver.cpp:541-572 | after a notification items not reported as updated are cached as before, and updated ones are all cached |
| OsObserverSpec.CacheIs | gps/core/SystemStatusOsObserver.cpp:541-572 | an item is cached exactly if it was or a taken report of it could be made an entry, with the value of the last report taken |
| OsObserverSpec.UpdatedIff | gps/core/SystemStatusOsObserver.cpp:547-572 | the items that count as updated are exactly those whose cached value some report changed |
| OsObserverSpec.RunsCache | gps/core/SystemStatusOsObserver.cpp:309-318 | the cache at the end of a run is that of all its notifications; nothing else touches it |
| OsObserverSpec.NotifyReachesListed | gps/core/SystemStatusOsObserver.cpp:309-342 | whatever became of the maps: who is notified, and of what |
| OsObserverSpec.NotifyReachesSubscribers | gps/core/SystemStatusOsObserver.cpp:309-342 | a client is notified exactly when one of its items was updated, with each updated item of its own, nothing else, at its present value |
| OsObserverSpec.NoSubscriberMissesChange | gps/core/SystemStatusOsObserver.cpp:309-342 | an item whose cached value changed is sent to every client that has it |
| OsObserver.SystemStatusOsObserver.SetSubscriptionObject | gps/core/SystemStatusOsObserver.cpp:69-79 | a new subscription object is asked for all items in the map |
| OsObserver.SystemStatusOsObserver.SubscribeTo | gps/core/SystemStatusOsObserver.cpp:102-126 | is the subscribe step, and answers with the cached items |
| OsObserver.SystemStatusOsObserver.Update | gps/core/SystemStatusOsObserver.cpp:150-199 | is the update step, and answers with the cached items among the new ones |
| OsObserver.SystemStatusOsObserver.UnsubscribeFrom | gps/core/SystemStatusOsObserver.cpp:222-241 | is the unsubscribe step, of which UnsubscribeGets and RunsStand say what it takes out |
| OsObserver.SystemStatusOsObserver.UnsubscribeFromAll | gps/core/SystemStatusOsObserver.cpp:261-282 | is the unsubscribeAll step |
| OsObserver.SystemStatusOsObserver.HandleNotify | gps/core/SystemStatusOsObserver.cpp:309-342 | updates the cache and sends the deliveries, one message to each client |
| LocIpcFraming.Narrow | gps/utils/LocIpc.cpp:176-178 | a string is sent whole exactly when its length fits 32 bits, else its front of the length modulo 2^32 |
| LocIpcFraming.Chunks | gps/utils/LocIpc.cpp:217-231 | a message is cut into non-empty parts of 8192 bytes, the last of what is left |
| LocIpcFraming.ChunksJoin | gps/utils/LocIpc.cpp:217-231 | the parts joined are the message |
| LocIpcFraming.ScanOverDecimal | gps/utils/LocIpc.cpp:123 | the reader's scan over the writer's decimal gives the number, and goes on into what is behind it |
| LocIpcFraming.HeaderIs | gps/utils/LocIpc.cpp:121-124 | the header of any message fits the buffer and gives the message's length exactly when no digit follows |
| LocIpcFraming.ArrivesIffClear | gps/utils/LocIpc.cpp:102-138 | after any message before it, a message arrives, once and unchanged, exactly when leftovers do not extend its header or complete a marker |
| LocIpcFraming.FirstArrivesIff | gps/utils/LocIpc.cpp:102-138 | into a fresh buffer: exactly every message over 8192 bytes, and every shorter non-empty one without a marker in front |
| LocIpcFraming.RunArrives | gps/utils/LocIpc.cpp:102-138 | a run of messages clear of each other's leftovers arrives whole, whatever follows it on the wire |
| LocIpcFraming.RunArrivesIff | gps/utils/LocIpc.cpp:102-138 | every message of a run has arrived, once, in order and unchanged, by the time it is sent, exactly when each is clear of the one before |
| LocIpcFraming.StaleDigitLosesMessage | gps/utils/LocIpc.cpp:104-124 | a digit left behind where a long message ends its header keeps the reader waiting, and the message is lost |
| LocIpcFraming.AbortStops | gps/utils/LocIpc.cpp:112-115 | after a run of messages clear of each other's leftovers, the abort message ends the reader, and all of them have arrived |
| LocIpcFraming.EmptyIsPassed | gps/utils/LocIpc.cpp:108-110 | an empty message is not handed over, and the reader goes on |
| LocIpcFraming.EmptyIsHarmless | gps/utils/LocIpc.cpp:104-110 | the message behind it arrives exactly if it would have without it |
| LocIpcFraming.PlainArrives | gps/utils/LocIpc.cpp:117-120 | any other datagram that shows no marker is handed over, cut off where the buffer ends |
| LocIpcFraming.BrokenEnds | gps/utils/LocIpc.cpp:127-136 | a long message that breaks off ends the reader: what came before has arrived, nothing after it does |
| LocIpc.LocIpc.SendData | gps/utils/LocIpc.cpp:199-235 | sends the frames up to the first the socket does not take, and succeeds exactly when it takes all |
| LocIpc.LocIpc.Send | gps/utils/LocIpc.cpp:176-178 | sends the message its length narrows to |
| LocIpc.LocIpc.StartListeningBlocking | gps/utils/LocIpc.cpp:100-148 | the receive loops hand over exactly the messages of the reader's function, and the result is whether a stop was asked for, before or while the loop ran |
| LocIpc.LocIpc.ReceiveRest | gps/utils/LocIpc.cpp:125-130 | the inner loop fills the message across datagrams or gives up on an empty or missing one |
| BiDictSpec.SetKeepsIff | gps/location/LocationAPIClientBase.h:291-297 | set keeps the maps inverse, with the same sessions in the third, exactly for a pair that is all new or already a pair |
| BiDictSpec.RmKeepsIff | gps/location/LocationAPIClientBase.h:305-318 | both removals keep the law for what is known; rmBySession of an unknown session keeps it exactly when 0 is no id |
| BiDictSpec.ExtByIdKeepsIff | gps/location/LocationAPIClientBase.h:339-352 | getExtById keeps the law exactly for a known id |
| BiDictSpec.SetAnswers | gps/location/LocationAPIClientBase.h:291-352 | the lookups after a set give the new pair and what is kept with it, and for others what they gave |
| BiDictSpec.RmAnswers | gps/location/LocationAPIClientBase.h:305-352 | after either removal of a pair it is unknown, and others are answered as before |
| BiDictSpec.RemoveAllSplits | gps/location/LocationAPIClientBase.cpp:624-633 | removing a list of ids splits the dictionary: removed are exactly the known ids with all that is kept with them, whatever unknown ids and repetitions the list has, and the engine is told each session once |
| BiDictSpec.PartsConserve | gps/location/LocationAPIClientBase.cpp:622-633 | the two parts are lawful, disjoint, and together the dictionary |
| BiDictSpec.SetAllKeeps | gps/location/LocationAPIClientBase.cpp:598-600 | adding distinct new ids with distinct new sessions keeps the law |
| BiDictSpec.SetAllPairs | gps/location/LocationAPIClientBase.cpp:598-600 | each id gets the session and the mask at the same place of the lists |
| BiDictSpec.SetAllSpares | gps/location/LocationAPIClientBase.cpp:598-600 | and other ids keep theirs |
| BiDictSpec.AddThenRemove | gps/location/LocationAPIClientBase.cpp:584-649 | adding geofences and removing them again gives the dictionary there was |
| BiDictSpec.RemovedAnswers | gps/location/LocationAPIClientBase.h:447-461 | on the response each session told leads back to its removed id |
| ClientSessionsSpec.StartKeeps | gps/location/LocationAPIClientBase.cpp:377-434 | a start keeps dictionary, queue, calls and running sessions in agreement |
| ClientSessionsSpec.StopKeeps | gps/location/LocationAPIClientBase.cpp:436-466 | so does a careful stop |
| ClientSessionsSpec.UpdateKeeps | gps/location/LocationAPIClientBase.cpp:468-555 | so does a careful update, across a switch between tracking and batching too |
| ClientSessionsSpec.ServeStartKeeps | gps/location/LocationAPIClientBase.h:383-393 | so does a start that is served, succeed or fail, with the response that pops the queue |
| ClientSessionsSpec.ServeStopKeeps | gps/location/LocationAPIClientBase.h:395-405 | so does a stop that is served, of a known or of a forgotten session |
| ClientSessionsSpec.EndTripKeeps | gps/location/LocationAPIClientBase.cpp:828-849 | so does a trip that ends with nothing unanswered about it |
| ClientSessionsSpec.StopEnds | gps/location/LocationAPIClientBase.cpp:436-466 | a stop, once served, ends the session of the id, whichever kind it is, and no other, and frees the id; one the API refuses changes nothing |
| ClientSessionsSpec.UpdateSwitches | gps/location/LocationAPIClientBase.cpp:481-545 | after an update the id has a session of the kind asked for: the same, which the API is told to update, or a new one to be started, with the old one told to stop and forgotten |
| ClientSessionsSpec.SwitchServed | gps/location/LocationAPIClientBase.cpp:481-545 | a switch, once served, has the old session replaced by the new one among those that run |
| ClientSessionsSpec.StartServed | gps/location/LocationAPIClientBase.cpp:377-434 | a start, once served, has the session run that was handed out, of the kind asked for, for its id; one the API refuses leaves everything as it was |
| ClientSessionsSpec.GetBatchedAsks | gps/location/LocationAPIClientBase.cpp:562-579 | locations are asked of the id's batching session, and of no tracking session |
| ClientSessionsSpec.RunsNeverLeak | gps/location/LocationAPIClientBase.cpp:893-914 | in every careful run, failed starts and stops included, no session runs that nobody could stop any more |
| ClientLeaks.SafeIffCareful | gps/location/LocationAPIClientBase.cpp:893-914 | after any careful run an action is safe, so that no careful continuation leaks a session, exactly if it is careful: nothing is asked of an id whose start or stop is unanswered or whose start failed, nothing is switched while a request is unanswered, no stop after a switch is refused and no trip ends under a request |
| ClientLeaks.StaleLeaks | gps/location/LocationAPIClientBase.cpp:907-911 | any request left in the queue with nothing unanswered can make a session leak |
| ClientLeaks.DoubleStopLeaks | gps/location/LocationAPIClientBase.cpp:442-461 | from any settled state, two stops of one id before the first is answered make the next session of another id leak as soon as it begins |
| ClientLeaks.OutOfOrderLeaks | gps/location/LocationAPIClientBase.cpp:907-911 | a start served before a stop that was asked first leaks its session |
| LocationClient.BiDict.SetPair | gps/location/LocationAPIClientBase.h:291-297 | writes all three maps |
| LocationClient.BiDict.RemoveById | gps/location/LocationAPIClientBase.h:305-311 | removes as the specification says, entries made by [] included |
| LocationClient.BiDict.RemoveBySession | gps/location/LocationAPIClientBase.h:312-318 | removes as the specification says, entries made by [] included |
| LocationClient.BiDict.GetExtById | gps/location/LocationAPIClientBase.h:339-352 | finds what is kept with the id's session, and leaves an entry behind for an unknown id |
| LocationClient.RequestQueue.Pop | gps/location/LocationAPIClientBase.h:96-103 | hands out the front, or nothing |
| LocationClient.GeofenceClient.AddGeofences | gps/location/LocationAPIClientBase.cpp:598-600 | pairs ids, sessions and masks in order |
| LocationClient.GeofenceClient.RemoveGeofences | gps/location/LocationAPIClientBase.cpp:624-633 | the compacting loop computes the split and the sessions to tell |
| LocationClient.SessionClient.StartSession | gps/location/LocationAPIClientBase.cpp:384-428 | is the start step; a started id is refused |
| LocationClient.SessionClient.StopSession | gps/location/LocationAPIClientBase.cpp:442-461 | is the stop step; an unknown id is refused |
| LocationClient.SessionClient.UpdateSessionOptions | gps/location/LocationAPIClientBase.cpp:475-551 | is the update step; an unknown id is refused |
| LocationClient.SessionClient.GetBatchedLocations | gps/location/LocationAPIClientBase.cpp:562-579 | asks for a batching session's locations; tracking sessions and unknown ids are refused |
| LocationClient.SessionClient.OnResponse | gps/location/LocationAPIClientBase.cpp:851-863 | pops the queue for a known session and does what the popped request does with the response |
| LocationClient.SessionClient.BeforeBatchingStatus | gps/location/LocationAPIClientBase.cpp:831-846 | ends the listed trips one after another and collects their client ids |
| LocationClient.TripIdsAre | gps/location/LocationAPIClientBase.cpp:831-846 | the ids reported complete are exactly those whose trip sessions were listed, each once; they are forgotten and all others keep their sessions |
| AdaptersSpec.AddedIs | gps/core/LocApiBase.cpp:158-167 | an adapter is registered once, and not at all when ten are |
| AdaptersSpec.RemovedIs | gps/core/LocApiBase.cpp:169-203 | moving the last adapter into the gap removes exactly the named one and makes no duplicate |
| AdaptersSpec.EvtMaskHas | gps/core/LocApiBase.cpp:136-143 | an event is in the mask exactly when some adapter has it and it is not excluded |
| AdaptersSpec.RunsSettle | gps/core/LocApiBase.cpp:108-203 | in every run, when no open message is under way the engine has just the events of the adapters there are |
| AdaptersSpec.EngineHas | gps/core/LocApiBase.cpp:108-203 | in every run, with no open message under way, the engine has an event exactly if an adapter there is was last given a mask with it and it is not excluded |
| AdaptersSpec.RunRegisters | gps/core/LocApiBase.cpp:158-203 | in runs that add no new adapter while all slots are taken the registered adapters are those last added rather than removed |
| AdaptersSpec.StaysClosedIff | gps/core/LocApiBase.cpp:115-199 | when the last adapter leaves the engine is closed, and until another comes it stays so exactly if no open message was under way or none is processed, and no mask is changed; else it is open for no event |
| AdaptersSpec.StaleOpenReopens | gps/core/LocApiBase.cpp:115-117 | an open message under way opens the engine after the close() of its last adapter |
| LocApiBase.LocApiBase.GetEvtMask | gps/core/LocApiBase.cpp:136-143 | scans to the first null and yields the mask of all adapters |
| LocApiBase.LocApiBase.AddAdapter | gps/core/LocApiBase.cpp:158-167 | puts the adapter into the first free slot unless it is there, and queues an open message |
| LocApiBase.LocApiBase.FillGap | gps/core/LocApiBase.cpp:175-192 | moves the last adapter into the gap and leaves no hole |
| LocApiBase.LocApiBase.RemoveAdapter | gps/core/LocApiBase.cpp:169-203 | keeps the array without holes or duplicates, and closes the engine exactly when it became empty |

## Left out

- AgpsManagerSpec.RunsAreLawful: the data-service machine `DSStateMachine` (gps/gnss/Agps.cpp:518-695) is not modelled; with its configuration switch off, emergency requests go to the AGNSS machine with a wait for the close, as modelled.
- Agps.AgpsManager.RequestATL: the same; and reports for a type without a machine are excluded, since the code dereferences the null machine without a check (gps/gnss/Agps.cpp:859-884).
- Agps.AgpsManager.ReleaseATL: does not look into the data-service machine.
- Agps.AgpsManager.HandleModemSSR: does not drop the data-service machine's subscribers nor restart its client.
- Agps.AgpsStateMachine.DeleteSubscriber: the handle is passed by value, so that the entry is not read after it is deleted.
- SetMaps.LocUnorderedSetMap.RemoveAndReturnInterset: the source's loop goes on from an erased iterator, and trimOrRemove reads the key of an erased entry. The intended effect is modelled.
- OsObserverSpec.UpdatedOrSame: the copy of a data item is taken to store the new value and to report a change exactly when it differs; the concrete items and their factory are not part of this model.
- LocIpcFraming.ScanOverDecimal: white space and signs, which sscanf would accept before the digits, and lengths beyond the machine's memory are not modelled; the writer sends neither.
- LocIpc.LocIpc.StartListeningBlocking: sockets and their errors are reduced to the datagrams received before the end.
- TimerTheorems.NoTimerIsStranded: no claim that a timer's callback comes within a given time, as the schedule is arbitrary; nor that an empty heap leaves the kernel disarmed, which it does not.
- TrackingSpec.EngineRunsAtMinimum: tracking started and stopped by the ULP proxy is not modelled.
- LocTimer.TimerService.DeleteTimer: the unlocked read of a delegate's client by the expire loop is taken to be atomic with the round it is in.
- AdaptersSpec.EvtMaskHas: an event mask of 64 bits is modelled as the set of its bits.
- AdaptersSpec.RunsSettle: the reset message of an engine restart, which closes and reopens, is not modelled.
- AgpsHandles.HandlesDecide: the order in which the handles of one machine are told is not claimed.
- Odcpi.RunsAreLimited: the framework's request callback is taken to be registered.
- ClientLeaks.SafeIffCareful: a client whose tracking and batching sessions are served by two adapters with message queues of their own is outside the premise on order; the queues of the single tracking session and of network-initiated responses, which are searched first, are taken to be for other sessions.
- LocationClient.SessionClient.BeforeBatchingStatus: takes no client lock in the source; it is modelled as if nothing came between its steps.
- The C interface loc_timer_start and loc_timer_stop, and its narrowing of milliseconds to 32 bits.
- turnOn and turnOff of the observer, the connect/disconnect requests for the backhaul, and its name and logging.
- locAPIRemoveAllGeofences, locAPIModifyGeofences, locAPIPauseGeofences and locAPIResumeGeofences.
- Enum conversions, configuration, NMEA and position reports, HIDL glue, and the services beside the location stack.
