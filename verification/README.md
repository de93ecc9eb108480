# Verification of the MAVLink service protocols

A Dafny model of the hand-written protocol logic of this package: the outbound queue, mission transfer, packet
routing, dialect resolution and layout, commands and parameters, frame patching and signing, the vehicle-state
events and the fan-out dispatcher. Each part is modelled branch by branch as the JavaScript has it and proved
against the property it exists for.

Verify everything with `dafny verify dfyconfig.toml`.

## How the model is laid out

One Dafny file stands for one source file; `StableSorting.dfy` holds `Array.prototype.sort` and `filter`, which
four of them share, and `Wrappers.dfy` the option type.

Code that changes state appears twice. A pure `State` with a `Step` function says what each entry from the event
loop does: a message delivered, a send completed or rejected, a timer fired, a method called. A class keeps the
source's own fields, and each of its methods is proved to take exactly that step
(`Abs() == Step(..., old(Abs()), ...)`).
The theorems are about every sequence of steps, so about every interleaving of timers, replies and send completions.

- **Outbound queue.** Time is a real number read once per step. An item is its identity; a promise is settled
  once and the first settlement counts. The theorems are conservation (an accepted item is waiting, in flight or
  settled, never two of these), first-in first-out within a band in spite of re-sorting with aging, and freedom
  from starvation: an aged item waits behind at most as many non-emergency writes as older items were ahead of it.
- **Mission upload.** The ground station, a vehicle that pulls items in order, and a network that loses, repeats,
  reorders and, if asked to, invents stale acceptances.
- **Mission download.** A vehicle with a fixed mission, and a network that may deliver any true answer at any
  moment and any number of times.
- **Routing.** The one-pass scan with its shadow set against the existential question it answers.
- **Dialects.** Upstream files and a disk are finite maps from names to includes. The catalog's snapshot is fed
  into the include resolver.
- **Commands and parameters.** Any number of command workflows over one lock table; parameter lists against a
  vehicle that reports one count.
- **Frames and signing.** Byte buffers are arrays changed in place; the checksum is any function of the bytes and
  the CRC extra.
- **Vehicle state.** Engine, snapshots and the node's comparison with the last snapshot, over any run of messages
  and clock readings. The clock need not be monotone.
- **Fan-out.** Suspension points of the dispatch loop as states. A target's promise settles first and leaves the
  in-flight set later, as `finally` makes it.

## What the code does not promise

The following behaviours came out of the proofs. The model keeps them as they are.

- A download can keep items twice. `_requestItem` arms its timer when the send completes, and if the answer has
  overtaken that completion, the timer asks again for an item that is already stored. For every non-empty mission,
  retries and a type other than ALL, some run with true answers completes with one item too many
  (`ItemIsKeptTwice`), and in no other case can it happen (`DownloadIsFaithfulIff`). Items are never lost
  (`NothingIsLost`). In a single run it takes a stale timer that fires (`DownloadIsFaithful`, `StaleTimerSpoils`),
  and none is armed if replies are handled only after the request has been written (`PromptDownloadIsFaithful`).
- A download need not end. A list request that completes after its answer arms the timer for the list, which starts
  the transfer over and resets the retries, so with retries the number of frames has no bound
  (`FramesAreBoundedIff`), except in runs without such a timer (`FramesAreBounded`, `PromptFramesAreBounded`).
- A stale ACCEPTED acknowledgement can complete an upload that the vehicle does not hold. For a mission with items
  it takes the time between the last item's send and its arrival, and exactly that item is missing
  (`StaleAckLosesLastItem`). An empty mission, which asks for a clear, is completed by any stale acceptance, even
  before the vehicle has heard of it (`StaleAckSkipsClear`). Nothing else can happen (`UploadIsSafe`), and without
  stale acceptances none of it can (`CompletionMeansStoredIff`).
- The phase is not final. An item's send that completes after the upload has settled writes it again, and any late
  completion arms a timer (`PhaseAfterSettling`); every mission with items can show it
  (`LateCompletionReopensPhase`). It sends nothing (`NothingAfterSettling`).
- `routeWorkflowTarget(s, 0)` accepts a target nobody can answer for in two configurations: only an unusable
  default profile is left, or all 255 components have broken routes of their own. `WorkflowTargetDecidesViability`
  shows the answer to be right exactly outside of these.
- The lock handle of an owner `''` or null does not release its lock: the manager stores `unknown` for it
  (`HandleReleasesIff`). Commands never use such an owner.
- An acknowledgement can settle two running commands exactly when they agree on system and command and one of them
  addresses any component, or, after the locks were cleared, both the same (`TwoSettledIff`).
- Clearing the locks is harmless while nothing is running and breaks the match of locks and workflows otherwise
  (`ExclusiveIffClearsWhenIdle`): a twin of each running workflow can then start (`ClearedLocksDoNotExclude`).
- Vehicle events replay to the state exactly when nothing known becomes unknown again (`DiffReplays`). The engine
  guarantees that, so the events of the node are complete (`EventsReplayState`).

## Model

| member | source | states |
|---|---|---|
| OutboundQueues.RunKeepsInv | lib/runtime/outbound-queue.js:110-395 | in every run each accepted item is in exactly one of queue, flight and settled; the queue never exceeds `maxLength`; at most one queued item per coalesce key; `onWrite` fires at most once per item and only for a finished, uncleared write; the loop drains whenever something is queued |
| OutboundQueues.SettledForGood | lib/runtime/outbound-queue.js:323-395 | the first settlement of a promise is final, whatever write, drop or clear follows |
| OutboundQueues.SettlementSaysWhy | lib/runtime/outbound-queue.js:110-395 | a step settles a promise exactly for the reason the settlement names: superseded by the key or the predicate, cleared while queued or written, written, failed by the writer or by its hook |
| OutboundQueues.EnqueueQueuesItsItem | lib/runtime/outbound-queue.js:131-168 | an accepted enqueue queues an item with the caller's priority, key and hook, dated now or as the oldest item it supersedes |
| OutboundQueues.RejectedIffFull | lib/runtime/outbound-queue.js:131-150 | an enqueue is rejected iff the queue is full and holds nothing it supersedes |
| OutboundQueues.SupersedingFits | lib/runtime/outbound-queue.js:131-150 | an enqueue that superseded something is never rejected as QUEUE_FULL |
| OutboundQueues.EvictAccounted | lib/runtime/outbound-queue.js:182-270 | eviction conserves every item, removes exactly the matching ones and leaves no item with a matching key |
| OutboundQueues.EmergencyGoesFirst | lib/runtime/outbound-queue.js:288-345 | while an emergency item is queued the next write is an emergency write, however old the others are |
| OutboundQueues.BandIsEffective | lib/runtime/outbound-queue.js:288-294 | the effective priority is the band reached by going up one per full period waited, not above the floor |
| OutboundQueues.MostUrgentIsStarted | lib/runtime/outbound-queue.js:307-345 | the next write goes to the lowest band, and within it to the item queued first |
| OutboundQueues.OvertakingTakesAge | lib/runtime/outbound-queue.js:288-345 | an item is written before a more urgent one only if it has waited as many periods as bands lie between them, and never before an emergency |
| OutboundQueues.WithoutAgingPriorityIsStrict | lib/runtime/outbound-queue.js:288-345 | without aging no item is written before a more urgent one |
| OutboundQueues.WrittenInEnqueueOrder | lib/runtime/outbound-queue.js:288-345 | with a nondecreasing clock, uncoalesced items of one band are written in the order of their enqueueing despite aging and re-sorting |
| OutboundQueues.OlderIsAhead | lib/runtime/outbound-queue.js:288-313 | of two items of one band the older never sorts behind, with floor division and both floors |
| OutboundQueues.AgedIsAtFloor | lib/runtime/outbound-queue.js:288-294 | an aged item sits at the non-emergency floor |
| OutboundQueues.StepMakesProgress | lib/runtime/outbound-queue.js:110-395 | no step increases the number of items at least as old as an aged item plus the non-emergency writes done |
| OutboundQueues.AgedItemIsNotStarved | lib/runtime/outbound-queue.js:110-395 | over any run in which an aged item waits, each non-emergency write uses up one of the items ahead of it |
| OutboundQueues.WaitingItemIsNotStarved | lib/runtime/outbound-queue.js:288-360 | no starvation: once an item of band 2 or more has waited (band - 1) * agePromotionMs, in any continuation of any run it sees at most as many non-emergency writes as there are other items at least as old |
| OutboundQueues.ResendKeepsAge | lib/runtime/outbound-queue.js:131-168 | superseding a queued item inherits its age, so the resent item has no more items ahead of it than the old one |
| OutboundQueues.OutboundQueue.EnqueueBuffer | lib/runtime/outbound-queue.js:110-168 | an enqueue supersedes, inherits age, rejects when full, pushes, and starts the drain if none is running |
| OutboundQueues.OutboundQueue.RemoveMatching | lib/runtime/outbound-queue.js:182-190 | splits the queue into what stays and what matches, both in order |
| OutboundQueues.OutboundQueue.DropSuperseded | lib/runtime/outbound-queue.js:215-225 | settles the superseded items and returns the oldest of their enqueue times |
| OutboundQueues.OutboundQueue.DropCoalesced | lib/runtime/outbound-queue.js:242-270 | evicts and settles exactly the matching items and counts them |
| OutboundQueues.OutboundQueue.StartWrite | lib/runtime/outbound-queue.js:307-340 | takes into flight the item that the order theorems are about, or stops draining |
| OutboundQueues.OutboundQueue.OnWriteSettled | lib/runtime/outbound-queue.js:340-364 | settles the written item, fires `onWrite` unless the write was cleared, and goes on draining |
| OutboundQueues.OutboundQueue.ClearAll | lib/runtime/outbound-queue.js:372-395 | rejects everything queued and the write in flight, which then does not fire `onWrite` |
| IncludeResolver.ResolveXmlIncludeGraph | lib/dialects/xml-include-resolver.js:44-110 | terminates on every graph; succeeds iff all that is reachable is readable with its includes found and no cycle is reachable; the order has no duplicates, is exactly the reachable set, has dependencies first and the root last; an error names a real defect |
| IncludeResolver.Search.Visit | lib/dialects/xml-include-resolver.js:73-105 | a visit restores the stack, lists the file after its includes, or reports a reachable missing include or an actual cycle |
| IncludeResolver.Search.Leave | lib/dialects/xml-include-resolver.js:99-105 | listing a finished file keeps the order dependency first |
| IncludeResolver.OrderedMeansLoadable | lib/dialects/xml-include-resolver.js:44-110 | a duplicate-free dependency-first list that holds the root holds all it reaches and excludes every cycle |
| XmlCatalog.FetchAll | lib/dialects/xml-catalog.js:205-234 | the worklist attempts each reachable file exactly once, records all of them, and stops iff an unsafe include name is reached |
| XmlCatalog.MissingInClosure | lib/dialects/xml-catalog.js:305-321 | collects exactly the failed files that the root reaches |
| XmlCatalog.ClassifyRoots | lib/dialects/xml-catalog.js:245-284 | splits the downloaded roots into those that miss nothing and those that miss exactly the listed files |
| XmlCatalog.Update | lib/dialects/xml-catalog.js:175-294 | the manifest lists what exists and what is missing of the reachable files; a root is usable iff all it reaches was fetched |
| XmlCatalog.UsableMeansComplete | lib/dialects/xml-catalog.js:245-284 | a downloaded root is usable iff every file the resolver reaches from it in the snapshot is complete |
| XmlCatalog.LoadUsable | lib/dialects/xml-include-resolver.js:87-96 | resolving a usable root in its snapshot never fails for a missing file; only a reachable cycle can stop it |
| Routing.MatchFindsBest | lib/routing/route-table.js:56-105 | the first hit in the sorted table is the matching entry that none beats, an exact system id counting before an exact component id, and the first configured of those alike; no hit means no entry matches |
| Routing.RouteDecides | lib/routing/packet-router.js:45-75 | with a table the best entry decides by whether its profile resolves, and the unmatched policy decides for everyone else; without one both filters must let the packet through, and the reason names the filter |
| Routing.RouteWorkflowTarget | lib/routing/packet-router.js:93-198 | the scan with its shadow set computes the decision function the lemmas are about |
| Routing.WorkflowTargetDecidesViability | lib/routing/packet-router.js:45-198 | for component 0 it accepts iff some component in 1..255 is accepted by `route` with a usable profile, exactly outside two named configurations, and then hands out the profile of such a component; for a real component it accepts iff `route` does with a usable profile, with the same decision |
| Routing.UsableDefaultSuffices | lib/routing/packet-router.js:93-198 | a usable default profile and one component without a broken route of its own make the answer right |
| Routing.RejectionSaysWhy | lib/routing/packet-router.js:132-180 | the reason of a rejected component broadcast is real: unmatched iff no route concerns the system, otherwise a route that does lacks its profile in that way |
| Routing.AllBrokenIsAccepted | lib/routing/packet-router.js:132-172 | with broken routes for all 255 components a later wildcard route is still accepted |
| MissionWorkflows.UploadCommandsTheSamePoint | lib/mission/mission-upload.js:267-323 | whichever message carries it, the item commands the authored place, to half a unit of 1e-7 degrees in MISSION_ITEM_INT and exactly in MISSION_ITEM, keeps NaN, and every other field is the given one or its default: relative-altitude frame of the message, current on item 0 only, autocontinue, zero parameters, `z` or else `alt` or else 0 |
| MissionWorkflows.DownloadShowsWhatWasAuthored | lib/mission/mission-download.js:213-238 | an item uploaded in either message and extracted again shows what was authored: every raw field, and for a global frame `lat` for x and `lon` for y, to half a unit; neither for any other frame |
| MissionWorkflows.ScreeningTells | lib/mission/mission-state-machine.js:219-307 | a packet is taken iff it comes from the vehicle, is not for someone else and is about our mission type; of the others only a MAVLink 1 packet of the plain type is reported |
| MissionWorkflows.DownloadUploadRoundTrip | lib/mission/mission-download.js:213-238 | an extracted item uploads again as the same wire item, and to the same place in the other message type; a MISSION_ITEM_INT comes back unchanged from a detour through MISSION_ITEM |
| MissionUploads.FramesAreBounded | lib/mission/mission-upload.js:78-220 | every run sends at most (maxRetries + 1) * (1 + count * (maxRetries + 1)) frames, against any vehicle and interleaving |
| MissionUploads.NothingAfterSettling | lib/mission/mission-state-machine.js:360-444 | once settled, no event sends a frame or changes the outcome |
| MissionUploads.OutcomeSaysWhy | lib/mission/mission-upload.js:93-200 | the outcome of every run is the first event that decides it: ACCEPTED after the last item was asked for, any other result, a request beyond the end or one too many, the silence after `maxRetries` others, a failed send, an abort |
| MissionUploads.EveryFrameIsCalledFor | lib/mission/mission-upload.js:78-220 | in every run an event sends a frame iff it calls for it: the item asked for in the message asked for, or what the timer was armed for in the message last asked for |
| MissionUploads.TimerTells | lib/mission/mission-state-machine.js:360-411 | the timer is armed for what the last completed send was about, until an item is asked for, it fires or the upload settles |
| MissionUploads.CompletedSendIsRepeated | lib/mission/mission-upload.js:107-220 | a timeout after a completed send repeats what was sent |
| MissionUploads.PhaseTells | lib/mission/mission-upload.js:78-155 | the phase of a running upload says whether an item is being sent, and that of the event that settles it says the outcome |
| MissionUploads.UploadIsSafe | lib/mission/mission-upload.js:93-200 | the vehicle's store, read with the message that carried each item, always commands a prefix of the mission; on completion it is the whole mission, except that with stale acceptances exactly the last item can be missing, or a clear can be unheard of; the last item was sent |
| MissionUploads.CompletionMeansStoredIff | lib/mission/mission-upload.js:157-199 | every run that completes leaves the mission on the vehicle iff no stale acceptance can arrive or the type is ALL, for which nothing completes |
| MissionUploads.StaleAckLosesLastItem | lib/mission/mission-upload.js:157-199 | for every mission with items some run with a stale acceptance completes with exactly the last item missing |
| MissionUploads.StaleAckSkipsClear | lib/mission/mission-upload.js:157-199 | for every empty mission some run completes before the vehicle has heard of the clear |
| MissionUploads.PhaseAfterSettling | lib/mission/mission-upload.js:143-155 | after settling an event changes the phase iff it completes an item's send, and then to waiting; the timer is armed iff some send completes or it was armed and did not fire |
| MissionUploads.LateCompletionReopensPhase | lib/mission/mission-upload.js:107-155 | some run changes the phase after settling iff the mission has items and its type is not ALL |
| MissionUploads.MissionUpload.AnswerRequest | lib/mission/mission-upload.js:107-155 | a request is answered, refused or ignored as the step says |
| MissionUploads.MissionUpload.HandleAck | lib/mission/mission-upload.js:157-199 | an acknowledgement completes, fails or is ignored as the step says |
| MissionUploads.MissionUpload.TimerExpired | lib/mission/mission-state-machine.js:360-387 | a timeout fails the upload or repeats what the timer was armed for |
| MissionDownloads.DownloadIsFaithfulIff | lib/mission/mission-download.js:55-195 | over a network that delays, repeats, reorders and loses: in every run the items are a prefix of the mission, and likewise every completed download is exactly the mission, iff no retries are allowed, the mission is empty or the type is ALL |
| MissionDownloads.DownloadIsFaithful | lib/mission/mission-download.js:55-195 | in each single run, as long as no stale timer fires: items are a prefix of the mission, a completed download is the whole mission, and later requests use the type of the last request for item 0 |
| MissionDownloads.RequestsKeepOneType | lib/mission/mission-download.js:69-92 | in every run and against any vehicle all requests beyond item 0 use the type of the last request for item 0 |
| MissionDownloads.OutcomeSaysWhy | lib/mission/mission-download.js:101-195 | the outcome of every run is the first event that decides it: the end of the final acknowledgement's send, a rejecting acknowledgement, the silence after `maxRetries` others, a failed send, an abort |
| MissionDownloads.EveryFrameIsCalledFor | lib/mission/mission-download.js:55-195 | in every run an event sends a frame iff it calls for it: the next item in the type in use, the acknowledgement after the last, or what the timer was armed for, falling back to the float type once |
| MissionDownloads.TimerTells | lib/mission/mission-state-machine.js:360-411 | the timer is armed for what the last completed request was about, until a count or item is taken, it fires or the download settles |
| MissionDownloads.CompletedSendIsRepeated | lib/mission/mission-download.js:55-92 | a timeout after a completed request repeats it |
| MissionDownloads.DownloadShowsAuthoredMission | lib/mission/mission-download.js:213-238 | a download that returns an authored mission shows every item as it was authored, in place |
| MissionDownloads.NothingIsLost | lib/mission/mission-download.js:101-195 | in every run with a truthful vehicle, stale timers or not: once the final acknowledgement is on the link, and on completion, every item of the mission is among the items and nothing else is |
| MissionDownloads.StaleTimerSpoils | lib/mission/mission-download.js:69-92 | from every run in which a stale timer is armed, its firing allows true answers with which the download completes with more items than the mission has |
| MissionDownloads.StaleTimerHappens | lib/mission/mission-download.js:69-92 | for every non-empty mission, with retries and a type other than ALL, an answer that overtakes the send completion arms a stale timer |
| MissionDownloads.ItemIsKeptTwice | lib/mission/mission-download.js:69-195 | in the same cases some run with true answers completes with one item too many |
| MissionDownloads.PromptDownloadIsFaithful | lib/mission/mission-download.js:55-170 | if replies are handled only after their request was written, no stale timer arises, the items are a prefix of the mission, and a completed download is the whole of it |
| MissionDownloads.MissionDownload.Receive | lib/mission/mission-download.js:101-170 | a message is screened and handled as the step says |
| MissionDownloads.MissionDownload.RequestMissionItem | lib/mission/mission-download.js:69-92 | a request falls back to the float type once, and only before anything arrived |
| MissionDownloads.FinalAckMeansAllArrived | lib/mission/mission-download.js:101-195 | if moreover no stale timer fires, what has arrived by the final acknowledgement is the mission in order |
| MissionDownloads.FramesAreBounded | lib/mission/mission-download.js:55-195 | against any vehicle, as long as no timer goes back to an earlier stage, a run sends at most (count + 1) * (maxRetries + 1) + 1 frames |
| MissionDownloads.PromptFramesAreBounded | lib/mission/mission-download.js:55-195 | the same bound if replies are handled only after their request was written |
| MissionDownloads.FramesAreBoundedIff | lib/mission/mission-download.js:55-61 | against a truthful vehicle the frames of all runs have a common bound iff no retries are allowed or the type is ALL |
| LockManagers.HandleReleasesIff | lib/runtime/lock-manager.js:21-52 | a handle undoes its own acquisition iff the owner is neither null nor the empty string |
| LockManagers.LockManager.Acquire | lib/runtime/lock-manager.js:21-34 | refuses a held key, naming its holder, and otherwise takes it |
| LockManagers.LockManager.Release | lib/runtime/lock-manager.js:44-52 | releases only a held key whose owner matches |
| CommandWorkflows.NoFrameAfterProgress | lib/command/command-workflow.js:244-332 | after the first IN_PROGRESS, and after settling, no sequence of events sends a frame or changes a settled outcome |
| CommandWorkflows.OutcomeSaysWhy | lib/command/command-workflow.js:244-372 | the outcome of every run is the first event that decides it: acknowledged by a matching result 0, rejected by any other final result with that result, timed out by the silence after `maxRetries` others since the last IN_PROGRESS, failed by a send, aborted |
| CommandWorkflows.LifeAwaits | lib/command/command-workflow.js:206-332 | in every run phase, counters, sends awaited and timer are what the events say, and a running workflow always waits for a send or its timer |
| CommandWorkflows.MatchTells | lib/command/command-workflow.js:309-400 | an acknowledgement counts iff it is of our command, from the addressed system and component or any if none is addressed, and not for someone else |
| CommandWorkflows.RunStaysExclusive | lib/command/command-workflow.js:149-185 | in every run that clears the locks only while nothing is running: at most one unsettled workflow per system, component and command, and the locks held are exactly theirs; frame k carries confirmation k mod 256, there are at most maxRetries + 1 frames, and each settled workflow released its lock exactly once |
| CommandWorkflows.ExclusiveIffClearsWhenIdle | lib/runtime/lock-manager.js:21-69 | this holds at every moment of a run iff the run never clears the locks under a running workflow |
| CommandWorkflows.RunStaysRegular | lib/command/command-workflow.js:206-372 | whatever happens to the locks, each workflow keeps its frame count, its confirmation counters and its single release |
| CommandWorkflows.DispatchSettlesAtMostOne | lib/command/command-workflow.js:309-372 | in the same runs, handing one acknowledgement to all subscribers settles at most one workflow among those that address one component |
| CommandWorkflows.TwoSettledIff | lib/command/command-workflow.js:309-400 | in any run, some acknowledgement settles two running workflows iff they share system and command and one takes any component or both name the same one |
| CommandWorkflows.ClearedLocksDoNotExclude | lib/runtime/lock-manager.js:67-69 | from every run with a running workflow: after a clear its twin starts beside it, and when the first settles the second runs on without its lock |
| CommandWorkflows.CommandSend.Begin | lib/command/command-workflow.js:149-185 | takes the lock, or settles as busy |
| CommandWorkflows.CommandSend.Receive | lib/command/command-workflow.js:309-372 | takes the acknowledgement step that the outcome theorems are about, with the lock table afterwards |
| CommandWorkflows.CommandSend.TimerExpired | lib/command/command-workflow.js:244-299 | retransmits, waits on, or fails |
| ParamLists.Pigeonhole | lib/param/param-workflow.js:856-910 | n distinct indices below n, sorted, are parameter i at position i |
| ParamLists.FirstMissingFacts | lib/param/param-workflow.js:843-850 | the first missing index is missing and nothing before it is |
| ParamLists.ListIsComplete | lib/param/param-workflow.js:790-910 | a completed list holds exactly the N parameters, in index order |
| ParamLists.RequestsAreBounded | lib/param/param-workflow.js:800-838 | every run sends at most 1 + maxRetries * max(1, N) requests |
| ParamLists.OutcomeSaysWhy | lib/param/param-workflow.js:827-910 | the outcome of every run is the first event that decides it: as many values as named have arrived, or a silent vehicle turns out to have sent all; the silence after `maxRetries` others; a failed send; an abort |
| ParamLists.EveryFrameIsCalledFor | lib/param/param-workflow.js:800-838 | in every run a frame is sent iff the timer fires within the retries: the list request while no count is known, else the lowest missing index |
| ParamLists.RunWaits | lib/param/param-workflow.js:450-490 | the sends awaited and the timer are what the events say |
| ParamLists.ReadingTells | lib/param/param-workflow.js:216-246 | a value read bytewise with an integer type is the integer whose byte union arrived, and the plain number otherwise |
| ParamLists.SourceTells | lib/param/param-workflow.js:393-415 | whose values count |
| ParamLists.ParamList.Receive | lib/param/param-workflow.js:856-891 | a value is recorded, ignored or completes the list |
| ParamLists.ParamList.TimerExpired | lib/param/param-workflow.js:827-838 | a stall asks for the first missing index, repeats the list request, or fails |
| MavlinkCodec.EnsureMinV2Payload | lib/protocol/mavlink-codec.js:32-42 | an empty payload becomes one zero byte with a right length and checksum, any other frame is untouched |
| MavlinkCodec.PatchField | lib/protocol/mavlink-codec.js:61-87 | the frame stays well formed, its payload re-extended with zeros where it was cut short and the bits in place |
| MavlinkCodec.ApplyExactFloatBits | lib/protocol/mavlink-codec.js:61-87 | patches every named field and recomputes the checksum, or refuses a field that is no float |
| MavlinkCodec.PatchTouchesOnlyNamedFields | lib/protocol/mavlink-codec.js:61-87 | after any number of patches every payload byte is what the last patch of its field wrote; outside all named fields it is the old byte, or zero where regrown |
| MavlinkCodec.PatchedBitsAreCaptured | lib/protocol/message-normalizer.js:86-93 | the bits written are the bits captured, however many trailing zeros the link trimmed |
| MavlinkCodec.UnionRoundTrip | lib/param/param-workflow.js:125-155 | for each of the six integer types every in-range value survives the byte union |
| MavlinkCodec.RangeFillsWidth | lib/param/param-workflow.js:32-39 | each type's range is exactly what its width and sign can hold |
| MavlinkCodec.UnionIsLittleEndian | lib/param/param-workflow.js:147-155 | the word holds the two's complement in its low bytes, little-endian, and zeros above |
| MavlinkCodec.ByteUnionEndToEnd | lib/param/param-workflow.js:684-699 | a value written into the frame's bits, sent with trimmed zeros and captured, decodes to the same value |
| ReplayTrackers.TrackerFollowsRules | lib/protocol/replay-tracker.js:78-112 | the constant-size tracker decides as the signing rules prescribe on the whole history; at most 256 streams |
| ReplayTrackers.AcceptedStrictlyIncrease | lib/protocol/replay-tracker.js:78-112 | accepted timestamps strictly increase on each stream, so nothing is accepted twice |
| ReplayTrackers.ReplayTracker.CheckFrame | lib/protocol/replay-tracker.js:78-112 | accepts and records as the decision function says |
| LinkStates.LinkState.TakeSignTimestampMs | lib/protocol/link-state.js:69-76 | the timestamp exceeds the stream's last and is not behind the clock |
| LinkStates.SequencesAreIndependent | lib/protocol/link-state.js:50-55 | the k-th frame of an identity carries k mod 256, however identities interleave |
| LinkStates.HonestFramesAreAccepted | lib/protocol/link-state.js:69-76 | on an open stream every arriving frame of an honest sender is accepted even if its clock stalls or runs back, and every repetition is refused |
| DialectCompilers.BuildFields | lib/dialects/xml-dialect-compiler.js:128-149 | the emitted fields are those of the wire order with their declared name, type, sizes and kind, the first at byte 0 and each next one right behind the one before |
| DialectCompilers.WireOrderIsPrescribed | lib/dialects/xml-dialect-compiler.js:128-130 | the order is base fields by falling element size, equal sizes as declared, then extensions as declared, and no other order is |
| DialectCompilers.NoFieldIsLost | lib/dialects/xml-dialect-compiler.js:128-149 | the result is a permutation of the declared fields |
| DialectCompilers.FieldsTilePayload | lib/dialects/xml-dialect-compiler.js:131-147 | each payload byte lies in the range of exactly one emitted field |
| DialectCompilers.BaseFieldsAreAligned | lib/dialects/xml-dialect-compiler.js:128-149 | an emitted base field's offset is a multiple of its element size |
| DialectCompilers.ExtensionsMoveNothing | lib/dialects/xml-dialect-compiler.js:128-149 | the fields emitted without the extensions are a prefix of those emitted with them |
| DialectCompilers.AppendedExtensionComesLast | lib/dialects/xml-dialect-compiler.js:128-149 | an extension declared last is emitted where the old payload ended, and all earlier fields stay |
| VehicleStates.DiffReplays | lib/state/vehicle-state.js:400-490 | folding the events of a diff over the first snapshot's view gives the second's iff nothing known became unknown |
| VehicleStates.EventsReplayState | lib/state/vehicle-state.js:105-490 | over any run of messages, clock readings and snapshots of many vehicles the folded events equal the latest view: connected, armed, mode, landed, fix, home, live components, unhealthy sensors |
| VehicleStates.EventsMeanChange | lib/state/vehicle-state.js:400-490 | no event iff the views agree and no sensor left the masks while healthy |
| VehicleStates.EventsContinue | lib/state/vehicle-state.js:400-490 | the events between two snapshots form a chain: each starts from what is known before it and tells of a change |
| VehicleStates.EventsSayBoth | lib/state/vehicle-state.js:441-487 | the home set and both health readings of a sensor event are those of the two snapshots |
| VehicleStates.SnapshotShowsFreshHeartbeats | lib/state/vehicle-state.js:239-351 | a snapshot lists a component iff a heartbeat was received from it, and shows it live, and the vehicle connected, iff the last one is fresh |
| VehicleStates.SnapshotShowsLatestMessages | lib/state/vehicle-state.js:105-387 | fix, home, landed state, armed flag, mode and sensors of a snapshot are those of the autopilot's latest message of the kind, and unknown before the first |
| VehicleStates.KnownIffHeard | lib/state/vehicle-state.js:105-133 | exactly the vehicles are known from which a message that counts was received |
| VehicleStates.SensorsSayTheirMasks | lib/state/vehicle-state.js:370-387 | the sensors come in ascending order and say which masks they are in |
| VehicleStates.BitsMakeMask | lib/state/vehicle-state.js:370-387 | the bits tested are those of the mask |
| VehicleStates.VehicleStateEngine.IngestPayload | lib/state/vehicle-state.js:105-226 | a message updates the record of its vehicle, and an ignored one changes nothing and creates no vehicle |
| VehicleStates.HealthSection | lib/state/vehicle-state.js:370-387 | the sensors are the bits of the three masks in ascending order |
| VehicleStates.DiffVehicleState | lib/state/vehicle-state.js:400-490 | the loops emit the event list of the specification, in order |
| Fanouts.EveryTargetIsReportedOnce | nodes/mavlink-ai-fanout.js:275-369 | in every interleaving at most `concurrency` targets are in flight, and a published result reports each target in exactly one list; skipped is an in-order suffix, non-empty only after a failure under stop-on-error |
| Fanouts.ListsTellOutcomes | nodes/mavlink-ai-fanout.js:275-322 | in every run each list holds exactly the targets with that outcome, those that could not be started counting as failed, and dispatching is aborted iff something went wrong under stop-on-error |
| Fanouts.SpacingSeparatesLaunches | nodes/mavlink-ai-fanout.js:343-348 | with a spacing each target but the first is launched by the end of a delay, one at a time; without one there is no delay |
| Fanouts.NothingLaunchedAfterStop | nodes/mavlink-ai-fanout.js:331-354 | after a close or an abort no further target is launched |
| Fanouts.NeverStuck | nodes/mavlink-ai-fanout.js:331-355 | in every reachable state some completion or wake-up is possible until the dispatcher is done |
| Fanouts.EveryRunEnds | nodes/mavlink-ai-fanout.js:331-369 | a run has at most 5 * count + 5 events, and one that cannot go on has published or was closed |
| Fanouts.FanoutDispatcher.Loop | nodes/mavlink-ai-fanout.js:331-354 | runs from the head of the loop to the next suspension |
| Fanouts.FanoutDispatcher.OnSettled | nodes/mavlink-ai-fanout.js:275-322 | takes the recording step that the list theorems are about |
| Fanouts.FanoutDispatcher.OnDrained | nodes/mavlink-ai-fanout.js:355-369 | publishes with the skipped suffix, or nothing when closed |

## Left out

- Outbound queue: the pass-through mode (`enabled` false), callbacks that re-enter the queue, and more than one
  clock reading inside a step.
- Mission items: arithmetic is over the reals, with `Math.round` to whole units of 1e-7 degrees but without the
  rounding of floating-point numbers.
- Mission transfer: enum names, progress events, texts, non-numeric parameter values, MissionClear, and a `connection.send` that throws
  synchronously.
- CommandWorkflows.RunStaysExclusive: does not cover connections without `acquireLock`, or acknowledgements
  delivered to a workflow after it unsubscribed.
- ParamLists.ListIsComplete: the float fallback when a PARAM_VALUE carries no exact bits.
- Parameters: ParamRead, the confirmation half of ParamSet and ParamSetAuto.
- Routing: parsing and normalising of ids, and resolvers that return nothing.
- Catalog: fetching, commit resolution, manifest files on disk, and the sorting of the manifest's lists.
- Include resolver: the URL, containment and symbolic-link checks, which fold into whether an include was found.
- Codec: the checksum is a parameter; serialisation, packet parsing and signatures belong to `node-mavlink`.
- Vehicle state: position, battery and status text sections, and enum names other than the mode's.
- Fanouts.EveryTargetIsReportedOnce: targets are indices, so the `results` object, which holds one entry per
  system id even when a system is targeted twice, is not modelled.
- Fan-out build delivery and everything in Node-RED wiring, transports, the SubscriptionRegistry and the
  connection node.
