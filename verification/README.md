# CodeHarbor relay, modelled and proved in Dafny

CodeHarbor connects a browser to a local Codex process: a Gateway next to Codex keeps
a durable event log and runs turns, a Relay in between routes requests and replays
events, and the browser shows a timeline. This project models the parts that have to
survive restarts, races and lost frames, and proves what each of them keeps in every
run. `dafny verify dfyconfig.toml` checks all of it.

| module | models |
|---|---|
| `OrderedMaps` | JavaScript's insertion-ordered Map and the LRU caches built on it |
| `EventLog`, `EventLogRefinement`, `EventLogExactness` | the Gateway's event log with write queue, cache and repair, its refinement of an append-only sequence, and exactly when it reads back whole |
| `RequestLedger` | idempotency keys with reservations |
| `EventPaging` | pages of events in Gateway, Relay and browser |
| `ResumeReplay`, `BrowserCursor`, `BrowserRows` | replay after a reconnect, the browser's cursors composed with it, and which events become rows |
| `ProxyRouting`, `DeviceLease`, `ByteBudget` | the Relay's pending table, its device lease across instances, and the byte budget of a peer's queue |
| `TurnControl`, `TurnStart` | turn admission, continuations, interrupts and Codex events, and what an accepted turn achieves |
| `CodexFraming`, `Approvals` | the Codex bridge: line framing, approvals, policy memory |
| `SessionOwnership`, `DevicePairing` | the Relay's memory store |
| `Timeline` | the browser's event reducer |

Objects whose fields the source updates are classes, and loops are loops; each is proved
equal to a specification function on values, and the run theorems are about those
functions. Concurrent parts are state machines whose steps are single critical sections
or the code between two awaits. Clocks, random values, ids and outcomes of calls into
other programs are parameters of the steps.

What the proofs found about the code:

- The store refines append-only logs operation by operation if and only if the run is
  quiescent (`RunMatchesIff`). After a quiescent run, a read is exact if and only if a cache
  miss finds no queued write and an incomplete tail covers the queued writes
  (`ListingExactIff`). A read or an append that misses the cache with writes queued caches
  the short file as complete, and later reads stay short: the exact conditions are in
  `ReadsBackAfterRunIff`, a run in `ReadsStayShort`. Such a read also pulls the counter
  back: the exact condition is `NumbersIncreaseIff`, and `NumbersRepeat` is a run in which
  number 2 is handed out twice.
- When frames arrive in order, a truncated resume reply never triggers the follow-up
  resume the browser has code for, because its cursors already reached the returned ones
  (`ResumeReplyNeverMoves`). The rest arrives through live frames, snapshots or the next
  reconnect.
- A zero cursor on a log whose start was removed gets no gap announcement
  (`SessionFollowsIff`). The browser itself only stores positive cursors.
- An event above the byte cap ends both paging and what a reader can reach
  (`FollowRelayIs`, `FollowRelayCompleteIff`).
- A timeout that has started races with the response it waits for: two answers are
  possible (`TwoAnswersFromStart`). `OneAnswerIff` says exactly when there is one, read off
  the entry as its timer is stopped; `AnswersDecided` gives the number for every entry that
  has left the table with its timer stopped or started.
- documentation/protocol.md says an interrupt settles the session as cancelled; the code
  stores completed, also after a failed start (`StoredAsCompleted`). The model follows the
  code.
- An accepted turn clears the stored turn id and its own status message restores the
  previous one (`AcceptedTurnKeepsOldId`).
- When the first user input of a session with a placeholder turn arrives live, and no
  event named a turn before it, the placeholder stays as one turn more than a reload shows,
  unless the input repeats its prompt while it is streaming (`PlaceholderStaysIff`).
- Ten thousand newer tombstones make the gateway forget an interrupt
  (`CrowdedOutIff`); interrupting a session again does not renew its tombstone.
- A synced session without a date is dated anew by every sync (`UndatedItemIsRedated`).

## Model

| member | source | states |
|---|---|---|
| `OrderedMaps.EvictOldest` | gateway/acode-upstream/server/src/gatewayStore.ts:511-515 | the eviction loop equals trimming, which keeps exactly the newest keys (TrimKeepsNewest) |
| `OrderedMaps.TrimKeepsNewest` | gateway/acode-upstream/server/src/gatewayStore.ts:511-515 | eviction keeps the most recently inserted keys with their values, in order |
| `OrderedMaps.TouchMovesToEnd` | gateway/acode-upstream/server/src/gatewayStore.ts:493-510 | deleting and re-setting a key makes it the newest one and changes no other value |
| `OrderedMaps.LruKeepsMostRecent` | gateway/acode-upstream/server/src/gatewayStore.ts:493-516 | touching keys one by one with eviction after each keeps exactly the most recently used distinct keys of the whole history |
| `OrderedMaps.EvictedExactlyWhenCrowdedOut` | gateway/acode-upstream/server/src/gatewayStore.ts:493-516 | a key is in the cache if and only if fewer than `capacity` other keys were touched since |
| `EventLog.ReadEventsFromDisk` | gateway/acode-upstream/server/src/gatewayStore.ts:369-397 | the parsing loop yields the repaired numbering of the file's lines for the session |
| `EventLog.RepairAscends` | gateway/acode-upstream/server/src/gatewayStore.ts:369-397 | repair always yields strictly increasing positive numbers, whatever is in the file |
| `EventLog.RepairKeepsHealthy` | gateway/acode-upstream/server/src/gatewayStore.ts:369-397 | repair is the identity on lines already numbered increasingly from a positive number |
| `EventLog.RepairStableUnderAppend` | gateway/acode-upstream/server/src/gatewayStore.ts:369-397 | appending further increasing lines never renumbers what was read before |
| `EventLog.RepairKeepsBodies` | gateway/acode-upstream/server/src/gatewayStore.ts:369-397 | whatever happens to the numbers, repair keeps every readable event of the session with its body, in order |
| `EventLog.MergeEvents` | gateway/acode-upstream/server/src/gatewayStore.ts:518-530 | the merge loop yields the merge by sequence number of the file and the cached tail |
| `EventLog.MergeRebuildsIff` | gateway/acode-upstream/server/src/gatewayStore.ts:518-530 | merging a file that lacks the last `unwritten` entries with a tail of `tail` entries rebuilds the log if and only if the tail reaches back to the file's end |
| `EventLog.GatewayStore.CacheEvents` | gateway/acode-upstream/server/src/gatewayStore.ts:502-516 | the cache becomes: session newest, last 512 entries, completeness flag, at most 64 sessions |
| `EventLog.GatewayStore.GetCachedEvents` | gateway/acode-upstream/server/src/gatewayStore.ts:493-500 | a hit moves the session to the newest place and changes nothing else |
| `EventLog.GatewayStore.ListEvents` | gateway/acode-upstream/server/src/gatewayStore.ts:215-236 | returns the listing of the store state (complete cache, merged tail or file) and updates cache and latest number accordingly |
| `EventLog.GatewayStore.AppendEvent` | gateway/acode-upstream/server/src/gatewayStore.ts:193-213 | assigns a larger supplied number or the next one, extends cache and write queue, and refuses the empty session id |
| `EventLog.GatewayStore.CompleteWrite` | gateway/acode-upstream/server/src/gatewayStore.ts:399-412 | one queued line reaches the file, first in first out, per session |
| `EventLogRefinement.EveryRunReadsWhatWasAppended` | gateway/acode-upstream/server/src/gatewayStore.ts:193-224 | in every run of appends, reads, write completions and evictions that is quiescent, every read returns exactly the repaired initial file plus all events appended so far, and assigned numbers are those of a plain append-only log |
| `EventLogRefinement.RunRefines` | gateway/acode-upstream/server/src/gatewayStore.ts:193-236 | store runs and append-only-log runs give the same outputs, and the store keeps representing the log |
| `EventLogRefinement.StepRefines` | gateway/acode-upstream/server/src/gatewayStore.ts:193-236 | one operation of the store refines one of the append-only log |
| `EventLogRefinement.ListingExactIff` | gateway/acode-upstream/server/src/gatewayStore.ts:215-224 | in a state that represents the log, which every quiescent run reaches, a read returns the whole log if and only if a cache miss finds no queued write and an incomplete tail covers the queued ones |
| `EventLogExactness.ReadThenReadIff` | gateway/acode-upstream/server/src/gatewayStore.ts:215-224 | after a read and any number of completed writes, the next read is exact if and only if the first found the session cached with at most 512 writes now left, or missed with nothing queued, or missed with a file above 512 entries and all writes completed since: otherwise the short file was cached as complete |
| `EventLogExactness.AppendThenReadIff` | gateway/acode-upstream/server/src/gatewayStore.ts:205-222 | after an append and any number of completed writes, the next read is exact if and only if the append found the session cached or nothing queued and at most 512 writes are left, or the file fills the cache and everything queued before has completed |
| `EventLogExactness.ReadsBackAfterRunIff` | gateway/acode-upstream/server/src/gatewayStore.ts:193-236 | all three conditions after every quiescent run over any files |
| `EventLogExactness.StepMatchesIff` | gateway/acode-upstream/server/src/gatewayStore.ts:193-236 | one operation of a represented store matches the append-only log in output and state if and only if it is quiescent: the conditions on reads and on appends are both needed |
| `EventLogExactness.RunMatchesIff` | gateway/acode-upstream/server/src/gatewayStore.ts:193-236 | a run over any files refines the append-only logs operation by operation if and only if it is quiescent |
| `EventLogExactness.ReadsStayShort` | gateway/acode-upstream/server/src/gatewayStore.ts:205-222 | a quiescent run from an empty directory after which a read lists one of two events, lists one again after the other's write completed, and an append hides the second event from the next read |
| `EventLogRefinement.ReadThenAppendFreshIff` | gateway/acode-upstream/server/src/gatewayStore.ts:195-222 | after a read, the next assigned number is beyond the whole log if and only if the read found the session cached, nothing queued or nothing on disk, or the supplied number is beyond it |
| `EventLogRefinement.NumbersIncreaseIff` | gateway/acode-upstream/server/src/gatewayStore.ts:195-222 | the same after every quiescent run over any files |
| `EventLogRefinement.StaleNumberRepeatsIff` | gateway/acode-upstream/server/src/gatewayStore.ts:205-222 | otherwise the next number is the one after the file, and it was handed out before if and only if the first queued write carries it |
| `EventLogRefinement.NumbersRepeat` | gateway/acode-upstream/server/src/gatewayStore.ts:205-222 | a quiescent run from an empty directory (one event on disk, one queued, 64 other sessions read) after which a read and an append hand out number 2 again |
| `EventLogRefinement.CacheHoldsMostRecent` | gateway/acode-upstream/server/src/gatewayStore.ts:493-516 | after any run the cache holds exactly the 64 most recently used sessions |
| `EventLogRefinement.MissExactlyWhenCrowdedOut` | gateway/acode-upstream/server/src/gatewayStore.ts:493-516 | a used session misses the cache if and only if at least 64 other sessions were used since |
| `RequestLedger.EveryRunStaysBounded` | gateway/acode-upstream/server/src/gatewayStore.ts:482-491 | in every run each session's ledger is duplicate-free with at most 128 ids and there are at most 10,001 reservations |
| `RequestLedger.ReservedIsRefused` | gateway/acode-upstream/server/src/gatewayStore.ts:332-345 | an accepted key that is neither released nor remembered is refused until its lifetime ends or 10,000 newer reservations were accepted |
| `RequestLedger.AcceptedAgainIff` | gateway/acode-upstream/server/src/gatewayStore.ts:332-345 | an accepted key that was left alone is accepted again if and only if some pruning since, at the latest that of the new attempt, found its lifetime over or 10,000 newer reservations alive |
| `RequestLedger.ReleasedIsAccepted` | gateway/acode-upstream/server/src/gatewayStore.ts:342-345 | a released key is accepted at once if and only if it was not remembered, and no other reservation changes |
| `RequestLedger.RememberedKnownIff` | gateway/acode-upstream/server/src/gatewayStore.ts:454-491 | a remembered id is known if and only if fewer than 128 new ids of its session were added since it was itself added; remembering a listed id again keeps its place |
| `RequestLedger.DropExpired` | gateway/acode-upstream/server/src/gatewayStore.ts:532-542 | the deletion loop keeps exactly the keys younger than the cutoff, in order |
| `RequestLedger.RequestTable.PruneReservations` | gateway/acode-upstream/server/src/gatewayStore.ts:532-542 | expired keys go first, then the oldest beyond 10,000 |
| `RequestLedger.RequestTable.ReserveClientRequest` | gateway/acode-upstream/server/src/gatewayStore.ts:332-340 | prunes, then accepts exactly a key that is neither reserved nor remembered |
| `RequestLedger.RequestTable.ReleaseClientRequest` | gateway/acode-upstream/server/src/gatewayStore.ts:342-345 | removes exactly that reservation |
| `RequestLedger.RequestTable.RememberClientRequest` | gateway/acode-upstream/server/src/gatewayStore.ts:482-491 | appends the id once, keeps the last 128 and drops the reservation |
| `EventPaging.CopyEventsAfter` | cloud-relay-go/store.go:527-541 | the loop returns exactly the events after the cursor, in order |
| `EventPaging.CapEventBatch` | cloud-relay-go/store.go:578-588 | returns the longest prefix whose bytes fit the cap (FittingIsLongest) |
| `EventPaging.FittingIsLongest` | cloud-relay-go/store.go:578-588 | the capped prefix fits, and one more event would not |
| `EventPaging.ListEventsPage` | cloud-relay-go/store.go:489-515 | the page is a prefix of the events after the cursor, limited by rows and bytes |
| `EventPaging.ListEventsAfterLimited` | gateway/acode-upstream/server/src/gatewayStore.ts:256-263 | the page, its next cursor and its truncated flag are those of the events after the cursor cut at the limit |
| `EventPaging.SessionEvents` | cloud-relay-go/api.go:366-402 | the handler with its sentinel row returns the page cut at limit and byte cap, with truncated and nextCursor telling whether and where more follows, and availableFrom when the start of the history is missing |
| `EventPaging.GapMeansMissing` | cloud-relay-go/api.go:385-392 | a gap is announced if and only if every retained event is later than the one after the cursor |
| `EventPaging.FollowGatewayIsComplete` | gateway/acode-upstream/server/src/gatewayStore.ts:256-263 | following nextCursor while truncated ends and concatenates to exactly the events after the start, for any limit |
| `EventPaging.FollowRelayIs` | cloud-relay-go/api.go:366-399 | following the relay's pages yields exactly the events after the start up to the first one above the byte cap |
| `EventPaging.FollowRelayCompleteIff` | cloud-relay-go/api.go:366-399 | it yields all of them if and only if none exceeds the byte cap |
| `EventPaging.LoadSessionEvents` | gateway/acode-upstream/app/src/hooks/useCodeHarbor.ts:281-315 | the paging loop returns the concatenation of at most 100 pages of 1000, and meets no gap in a fixed log |
| `EventPaging.LoadedIsPrefix` | gateway/acode-upstream/app/src/hooks/useCodeHarbor.ts:281-315 | what the loader returns is a prefix of the log, and everything before the first oversized event if and only if the pages needed for that are at most the pages allowed |
| `EventPaging.LoadedIsComplete` | gateway/acode-upstream/app/src/hooks/useCodeHarbor.ts:281-315 | events that fit one batch together are loaded whole, up to 1000 per page |
| `ResumeReplay.SendBatches` | cloud-relay-go/main.go:434-464 | the batch loop sends, reports and truncates as specified by Batches |
| `ResumeReplay.BatchesSendStretch` | cloud-relay-go/main.go:434-464 | the batches send a stretch right after the cursor, non-empty if anything is left, and all of it unless truncated |
| `ResumeReplay.ServeSession` | cloud-relay-go/main.go:421-464 | gap announcement, batches and returned cursor of one session |
| `ResumeReplay.ResumeBrowser` | cloud-relay-go/main.go:379-471 | the loop over the cursors sends exactly ResumeFrames: session cap, malformed cursors, gaps, events, final reply, and an empty reply to a frame without a cursor map |
| `ResumeReplay.ResumeServes` | cloud-relay-go/main.go:391-470 | every session gets a contiguous block right after its effective cursor and its last number back, all of it unless the reply is truncated |
| `ResumeReplay.ResumeSendsOwnSessions` | cloud-relay-go/main.go:379-471 | whatever cursors a frame names, every event and gap sent is about a session of the asking user, and every event is in that session's log |
| `ResumeReplay.ResumeSeesOnlyOwnSessions` | cloud-relay-go/store.go:459-503 | two stores with the same sessions of a user give that user the same frames, whatever else they hold |
| `ResumeReplay.ForeignCursorComesBack` | cloud-relay-go/main.go:421-441 | a session of another owner gets its own cursor back, no event and no gap, and marks the reply truncated |
| `ResumeReplay.GapAnnouncedIff` | cloud-relay-go/main.go:421-433 | a gap is announced if and only if the history right after a positive cursor was removed, with cursor, first and last retained number |
| `ResumeReplay.BadCursorTruncates` | cloud-relay-go/main.go:391-420 | an unusable cursor or more than 512 sessions mark the reply truncated |
| `ResumeReplay.SmallReplayIsWhole` | cloud-relay-go/main.go:434-464 | up to a thousand events that fit one batch are sent whole and the reply is not truncated |
| `ResumeReplay.ResumeEndsWithReply` | cloud-relay-go/main.go:379-384 | every resume ends with exactly one reply, also one without a cursor map |
| `ResumeReplay.TruncatedMeansProgress` | cloud-relay-go/main.go:391-470 | a truncated reply has sent at least one event of a session that had some outstanding |
| `ResumeReplay.BlocksJoin` | cloud-relay-go/main.go:391-470 | blocks of successive resumes join without hole or overlap |
| `ResumeReplay.TruncatedRoundShrinks` | cloud-relay-go/main.go:391-470 | every truncated round reduces the number of outstanding events |
| `ResumeReplay.RoundsSendEverythingOnce` | cloud-relay-go/main.go:391-470 | repeating resume from the returned cursors ends within the number of outstanding events and has then sent every retained event after the start exactly once, in order, whatever order each round visits the sessions in |
| `BrowserCursor.Browser.Save` | gateway/acode-upstream/app/src/hooks/useCodeHarbor.ts:149-166 | saveCursor: only larger numbers, trimming beyond 10,000 sessions to the newest 8,000 |
| `BrowserCursor.Browser.OnEvent` | gateway/acode-upstream/app/src/hooks/useCodeHarbor.ts:526-574 | an event is shown if and only if it is the number after the cursor and neither its request key nor its own key was seen; the cursors and keys afterwards |
| `BrowserCursor.Browser.OnUnnumbered` | gateway/acode-upstream/app/src/hooks/useCodeHarbor.ts:537-567 | a frame without session or number is shown if and only if its request was not seen, and remembered by its request alone |
| `BrowserCursor.Browser.OnResumeComplete` | gateway/acode-upstream/app/src/hooks/useCodeHarbor.ts:494-514 | the resume-complete branch: saves the returned cursors and asks again exactly if some cursor advanced |
| `BrowserCursor.SnapshotIsTruthful` | gateway/acode-upstream/app/src/hooks/useCodeHarbor.ts:281-331 | of the numbers a snapshot passes, those it covers are in the loaded list and the others are no longer in the retained log |
| `BrowserCursor.EveryRunAccounts` | gateway/acode-upstream/app/src/hooks/useCodeHarbor.ts:494-574 | in every run of the system the marks of each session tile the numbers from first to last cursor: applied, matched, loaded by a snapshot or removed before it, never skipped by a resume reply |
| `BrowserCursor.BetweenResets` | gateway/acode-upstream/app/src/hooks/useCodeHarbor.ts:494-574 | between retention resets the cursor never decreases, shown numbers strictly increase, and every number passed is accounted for by exactly one truthful mark |
| `BrowserCursor.ComposedBetweenResets` | cloud-relay-go/main.go:379-471 | the same from login on for the frames resumeBrowser sends over contiguous retained logs, in any interleaving with lost, repeated or reordered live frames, snapshots, optimistic rows and reconnects; no follow-up resume is ever sent |
| `BrowserCursor.WireRefines` | cloud-relay-go/main.go:379-471 | every interleaving of the relay's own frames with the browser's steps is a run of the system with the same marks |
| `BrowserCursor.SendIsStep` | cloud-relay-go/main.go:449-470 | the relay's next frame is a legal replay step that puts exactly that frame on the socket |
| `BrowserCursor.PositionMeans` | gateway/acode-upstream/app/src/hooks/useCodeHarbor.ts:526-574 | what tiling means: growth, strict order, and exactly one mark per number |
| `BrowserRows.ShownUnlessRepeated` | gateway/acode-upstream/app/src/hooks/useCodeHarbor.ts:540-574 | in every run from login a delivered next number is shown, unless its request has an optimistic row or came alone before, or it was itself shown before; within 2,000 steps matched exactly then |
| `BrowserRows.ShownUnlessNoted` | gateway/acode-upstream/app/src/hooks/useCodeHarbor.ts:540-574 | without a retention reset it is shown if and only if its request was not noted: no event is rendered twice and none is swallowed |
| `BrowserRows.SeenKeysHaveSources` | gateway/acode-upstream/app/src/hooks/useCodeHarbor.ts:540-567 | in every run each seen key comes from a noted request or a shown event, and below the seen limit every such source is still seen |
| `BrowserRows.FollowUpIff` | gateway/acode-upstream/app/src/hooks/useCodeHarbor.ts:494-514 | a further resume is asked for if and only if the reply is truncated, fewer than ten were asked for, and a returned cursor is ahead of the browser's |
| `BrowserRows.SaveBeyondLimit` | gateway/acode-upstream/app/src/hooks/useCodeHarbor.ts:149-166 | beyond 10,000 sessions the 8,000 newest cursors stay, with their numbers |
| `BrowserCursor.ResumeReplyNeverMoves` | gateway/acode-upstream/app/src/hooks/useCodeHarbor.ts:494-514 | delivering a resume reply never moves a cursor and therefore never sends the follow-up resume of a truncated reply |
| `BrowserCursor.StepKeeps` | gateway/acode-upstream/app/src/hooks/useCodeHarbor.ts:494-574 | every step keeps each cursor able to reach what the replay has sent |
| `BrowserCursor.CompleteIdle` | gateway/acode-upstream/app/src/hooks/useCodeHarbor.ts:494-514 | a reply whose cursors were reached changes nothing |
| `BrowserCursor.SessionFollowsIff` | cloud-relay-go/main.go:421-464 | one session's replay frames are consecutive from the cursor, with the announced gap, if and only if the cursor is positive or the log starts at most at 1: a zero cursor on a pruned log gets no gap announcement |
| `BrowserCursor.ResumeFollows` | cloud-relay-go/main.go:391-470 | all frames of a resume from positive cursors are legal replay steps, and the reply returns the positions they lead to |
| `ProxyRouting.EveryRunIsSafe` | cloud-relay-go/main.go:312-376 | in every reachable state each accepted request was answered, or its timer is armed, or an answer is in flight, or its browser is gone; it asks a device of the browser's own owner; answers go only to the asking browser and from the asked device and owner; at most one of each kind; at most 128 entries per browser, 8 browsers per user, every entry's browser registered |
| `ProxyRouting.StepKeeps` | cloud-relay-go/main.go:325-376 | every critical section and every action outside the lock keeps that |
| `ProxyRouting.ProgressOk` | cloud-relay-go/main.go:351-376 | a goroutine working on its entry never loses the answer it owes |
| `ProxyRouting.EveryReachableStateIsSafe` | cloud-relay-go/main.go:325-376 | from the empty relay every reachable state is safe, and a request with no timer armed and nothing in flight was answered or its browser left |
| `ProxyRouting.OneAnswerIff` | cloud-relay-go/main.go:351-376 | read off the entry when its timer is stopped: it gets a timeout answer if and only if the callback had started, and exactly one answer if and only if it had not and, for a response or disconnect, the routing had not failed, for a failed routing, nobody had claimed it |
| `ProxyRouting.AnswersDecided` | cloud-relay-go/main.go:351-376 | once an entry left the table with its timer stopped or started, the number of answers it ends with is known |
| `ProxyRouting.StoppedNeverAnswers` | cloud-relay-go/main.go:351-358 | a timer stopped in time never answers in any continuation |
| `ProxyRouting.FiringEntryAnswersTwice` | cloud-relay-go/main.go:351-358 | whenever a listed entry's callback has started, a response can still be forwarded and the browser gets two answers |
| `ProxyRouting.TwoAnswersFromStart` | cloud-relay-go/main.go:351-358 | a run from the empty relay that ends with two answers to one request |
| `ProxyRouting.ResponseIsForwarded` | cloud-relay-go/main.go:654-673 | a response of the asked device and owner to a listed request reaches the asking browser, once, and unlists it |
| `ProxyRouting.TimerAnswers` | cloud-relay-go/main.go:351-358 | an armed timer left to run answers its browser |
| `ProxyRouting.OfflineAnswers` | cloud-relay-go/main.go:371-375 | a request that cannot be routed is answered as offline |
| `ProxyRouting.DisconnectAnswers` | cloud-relay-go/main.go:1008-1032 | when a current device leaves, exactly the listed requests to it are answered as disconnected |
| `ProxyRouting.DeletionScopes` | cloud-relay-go/main.go:351-373 | a timer unlists only its own entry, the offline path whatever is listed under its request id |
| `ProxyRouting.CountPending` | cloud-relay-go/main.go:325-331 | the counting loop returns the number of the browser's entries |
| `ProxyRouting.Table.Accept` | cloud-relay-go/main.go:312-360 | forbidden if and only if the device is not of the browser's owner, then missing id, 128 entries, duplicate, accepted, each exactly; only acceptance changes the table |
| `ProxyRouting.Table.Claim` | cloud-relay-go/main.go:654-663 | a response takes an entry out exactly if device and owner match |
| `ProxyRouting.Table.Drop` | cloud-relay-go/main.go:1008-1032 | remove: unregisters the peer, stops timers, answers the other browsers' entries of a current device |
| `ProxyRouting.Table.Sweep` | cloud-relay-go/main.go:1019-1029 | the loop, in any order, removes exactly the affected entries |
| `DeviceLease.ValueNamesToken` | cloud-relay-go/main.go:723-723 | a register value determines owner and token, because tokens contain no bar |
| `DeviceLease.OthersLeaveLeaseAlone` | cloud-relay-go/main.go:717-807 | no hello, heartbeat, cleanup or pairing of another peer changes or deletes a held lease |
| `DeviceLease.HeldThroughout` | cloud-relay-go/main.go:717-807 | a peer that holds its lease at the end of a run without rebind held it at every moment since its hello |
| `DeviceLease.RenewedTwice` | cloud-relay-go/main.go:782-797 | between two successful renewals without rebind the peer held the lease at every moment and no other peer did |
| `DeviceLease.LeaseLasts` | cloud-relay-go/main.go:782-797 | a lease lasts until its expiry whatever other peers do |
| `DeviceLease.AcquireIff` | cloud-relay-go/main.go:717-725 | a hello gets the lease, for 45 seconds, if and only if nobody holds one, and is accepted exactly then or without an owner |
| `DeviceLease.RenewIff` | cloud-relay-go/main.go:782-797 | a renewal succeeds if and only if an owned peer holds the lease of an unrevoked device; the lease then ends 45 seconds later, and only a loss ends the connection |
| `DeviceLease.RenewedLeaseLasts` | cloud-relay-go/main.go:782-797 | after a renewal the peer holds the lease for the next 45 seconds, whatever other peers do |
| `DeviceLease.ClearFrees` | cloud-relay-go/main.go:799-807 | a peer's cleanup frees its own lease and touches no other device |
| `DeviceLease.BindIff` | cloud-relay-go/main.go:730-753 | pairing takes the register if and only if it is free or the peer's own, under the new owner |
| `DeviceLease.RevokedLeaseRunsOut` | cloud-relay-go/main.go:786-797 | heartbeats of a revoked device neither stop the peer nor extend the lease, which is gone within 45 seconds |
| `ByteBudget.EveryRunIsBalanced` | cloud-relay-go/peer_io.go:10-109 | with any number of senders and one writer the counter is queued plus reserved plus dequeued-but-unsubtracted bytes, between 0 and 32 MiB; the queue is first-in first-out with at most 256 payloads; only a closed peer refused a payload that fits |
| `ByteBudget.EveryReachablePeerIsBalanced` | cloud-relay-go/peer_io.go:10-109 | the same for every state a new peer can reach |
| `ByteBudget.StepKeepsBalance` | cloud-relay-go/peer_io.go:10-109 | every atomic step keeps the byte equation |
| `ByteBudget.StepKeepsOrder` | cloud-relay-go/peer_io.go:10-94 | accepted payloads are those written, in hand and queued, in order |
| `ByteBudget.StepKeepsHonest` | cloud-relay-go/peer_io.go:32-97 | a send of a fitting payload fails only on a closed peer |
| `ByteBudget.SwapGrantsIff` | cloud-relay-go/peer_io.go:99-109 | a swap grants the bytes if and only if the counter is as loaded and has room |
| `ByteBudget.UndisturbedSendSucceeds` | cloud-relay-go/peer_io.go:32-52 | a send that is not disturbed, with room in counter and queue, ends at the back of the queue and reports success |
| `ByteBudget.WriterDrains` | cloud-relay-go/peer_io.go:10-30 | the writer hands the oldest payload to the socket and frees exactly its bytes |
| `ByteBudget.GiveBackReturnsBytes` | cloud-relay-go/peer_io.go:42-97 | a send that finds the peer closed or the channel full returns its bytes, and retries exactly if it blocks and is not late |
| `ByteBudget.ReserveOutboundBytes` | cloud-relay-go/peer_io.go:99-109 | against any interference the loop is granted only by one swap that adds the size to an unchanged counter with room, refused exactly when a loaded value leaves none, and otherwise still trying |
| `TurnControl.SupersededNeverActs` | gateway/acode-upstream/server/src/index.ts:757-787 | erasing all later steps of a superseded continuation from any run leaves the same sessions, gate, live set, tombstones, broadcasts, other continuations and started turns |
| `TurnStart.AcceptedTurnIsStarted` | gateway/acode-upstream/server/src/index.ts:757-777 | an accepted turn that stays current, with any other steps in between, starts exactly one Codex turn, after thread and attachments are ready, none if an await was rejected before, and the id the start returns is stored |
| `TurnStart.EveryAcceptedTurnIsStarted` | gateway/acode-upstream/server/src/index.ts:757-777 | the same for every turn a new process accepts |
| `TurnStart.StartStoresTurn` | gateway/acode-upstream/server/src/index.ts:776-776 | a current start stores its turn id and changes nothing else |
| `TurnStart.LateTurnIsInterrupted` | gateway/acode-upstream/server/src/index.ts:772-775 | a start that returns to a superseded continuation is interrupted in Codex and changes nothing here |
| `TurnStart.MessageIsRecorded` | gateway/acode-upstream/server/src/index.ts:1601-1661 | a message that is not stale is sent on; its status is stored and decides the live set; no other session changes |
| `TurnStart.RoutesAnnounce` | gateway/acode-upstream/server/src/index.ts:734-755 | what an accepted turn, an interrupt and a failed start broadcast |
| `TurnControl.EveryRunKeepsGenerations` | gateway/acode-upstream/server/src/sessionRunState.ts:4-16 | in every run generations of a session's continuations increase, no two of them are both current, and superseded stays superseded |
| `TurnControl.EveryReachableState` | gateway/acode-upstream/server/src/index.ts:1870-1876 | every state a new process reaches numbers its continuations and holds at most 10,000 distinct tombstones |
| `TurnControl.InterruptedUntilNextTurn` | gateway/acode-upstream/server/src/index.ts:1870-1896 | from any interrupt until the next accepted turn no Codex status, session or finished event, continuation, interrupt or turn elsewhere makes the session live again, and a live status changes nothing, while fewer than 10,000 tombstones are or become newer than its own |
| `TurnControl.SettledStays` | gateway/acode-upstream/server/src/index.ts:1601-1661 | the same from any settled state, with the exact number of newer tombstones |
| `TurnControl.EntombOther` | gateway/acode-upstream/server/src/index.ts:1870-1876 | a tombstone outlives another interrupt if and only if that session has one already or fewer than 9,999 are newer |
| `TurnControl.CrowdedOutIff` | gateway/acode-upstream/server/src/index.ts:1620-1656 | after one more interrupt elsewhere a stale live status gets through if and only if 9,999 tombstones were already newer |
| `TurnControl.OneTurnAtATime` | gateway/acode-upstream/server/src/turnGate.ts:3-22 | an accepted turn is live, and until a step that ends it no second turn of the session is accepted in any run |
| `TurnControl.GateHeldIff` | gateway/acode-upstream/server/src/index.ts:1601-1661 | a held gate is given up if and only if the step is a finished event, a terminal status, an interrupt, a failed start of the current continuation or the idle release |
| `TurnControl.StoredAsCompleted` | gateway/acode-upstream/server/src/index.ts:1703-1710 | interrupt and failed start both end with the stored status completed |
| `TurnControl.AcceptedTurnKeepsOldId` | gateway/acode-upstream/server/src/index.ts:716-755 | the status message of an accepted turn brings back the previous turn id |
| `TurnControl.InferFinishedStatus` | gateway/acode-upstream/server/src/index.ts:1703-1710 | a finished event never stores a live status |
| `TurnControl.TurnGate.Acquire` | gateway/acode-upstream/server/src/turnGate.ts:8-13 | duplicate, busy or accepted; only acceptance changes the set |
| `TurnControl.TurnGate.Release` | gateway/acode-upstream/server/src/turnGate.ts:15-17 | removes exactly that session |
| `TurnControl.SessionRunState.BeginRun` | gateway/acode-upstream/server/src/sessionRunState.ts:4-8 | the next generation of that session, all others unchanged |
| `TurnControl.Gateway.BroadcastGateway` | gateway/acode-upstream/server/src/index.ts:1601-1661 | live set, gate, stored session and outgoing message after every kind of event |
| `TurnControl.Gateway.SettleInterruptedSession` | gateway/acode-upstream/server/src/index.ts:1870-1896 | the whole state after an interrupt |
| `TurnControl.Gateway.AcceptTurn` | gateway/acode-upstream/server/src/index.ts:706-755 | the whole state after admission, or no change |
| `TurnControl.Gateway.ContinueTurn` | gateway/acode-upstream/server/src/index.ts:757-787 | the state, the next stage and the calls to Codex after each await of a continuation, current or superseded |
| `CodexFraming.StdoutReader.HandleStdoutChunk` | gateway/acode-upstream/server/src/codexBridge.ts:394-414 | the loop handles exactly the trimmed non-empty complete lines and keeps the remainder, or drops the buffer on overflow |
| `CodexFraming.ChunksDoNotMatter` | gateway/acode-upstream/server/src/codexBridge.ts:394-414 | for every cutting into chunks the handled lines and the remainder are those of the whole output, unless a chunk overflows, and exactly when one does |
| `CodexFraming.SameOutputSameLines` | gateway/acode-upstream/server/src/codexBridge.ts:394-414 | two cuttings of the same output that do not overflow agree |
| `CodexFraming.OverflowStartsOver` | gateway/acode-upstream/server/src/codexBridge.ts:394-406 | after a chunk that is too much, what follows is handled as if it came first |
| `CodexFraming.ByteLengthIsUtf8` | gateway/acode-upstream/server/src/codexBridge.ts:396-396 | the measured length is that of the UTF-8 encoding |
| `CodexFraming.PiecesRebuild` | gateway/acode-upstream/server/src/codexBridge.ts:407-413 | pieces and remainder rebuild the output |
| `CodexFraming.PiecesAreLines` | gateway/acode-upstream/server/src/codexBridge.ts:407-413 | neither pieces nor remainder contain a newline |
| `CodexFraming.PiecesUnique` | gateway/acode-upstream/server/src/codexBridge.ts:407-413 | that is the only way to cut an output into newline-free parts |
| `CodexFraming.TrimmedAwayIff` | gateway/acode-upstream/server/src/codexBridge.ts:410-412 | a line is dropped if and only if it is all white space |
| `Approvals.EveryRunIsSound` | gateway/acode-upstream/server/src/codexBridge.ts:462-577 | in every run each approval is settled at most once; a request that was asked is answered positively if and only if its settlement is a matching approve, with exactly the rules of its amendment; one that was not asked is accepted only with full access; at most 256 are pending |
| `Approvals.EveryReachableBridgeIsSound` | gateway/acode-upstream/server/src/codexBridge.ts:462-577 | the same for every state a new bridge can reach |
| `Approvals.ApproveIsAnswered` | gateway/acode-upstream/server/src/codexBridge.ts:305-316 | after a matching approve, with any steps in between, the request is still waiting or answered positively, with the amendment's rules |
| `Approvals.SettlementDecides` | gateway/acode-upstream/server/src/codexBridge.ts:522-564 | once settled, a request's answer is decided: positive if and only if it was approved |
| `Approvals.ListedIsSettled` | gateway/acode-upstream/server/src/codexBridge.ts:305-316 | how a listed request is settled by a matching decision, its expiry and a reject-all |
| `Approvals.ChosenExactly` | gateway/acode-upstream/server/src/codexBridge.ts:462-473 | accepted at once if and only if it is an approval request with full access now, asked if and only if it is one with a thread and without that, denied at once without a thread |
| `Approvals.PostIff` | gateway/acode-upstream/server/src/codexBridge.ts:509-521 | an asked request waits with its timer running if and only if fewer than 256 wait already, and is denied otherwise |
| `Approvals.AutomaticIsPlainApprove` | gateway/acode-upstream/server/src/codexBridge.ts:524-564 | full access answers what an approval without amendment would |
| `Approvals.StepKeeps` | gateway/acode-upstream/server/src/codexBridge.ts:462-577 | every step between two awaits keeps that |
| `Approvals.SettledExactlyOnce` | gateway/acode-upstream/server/src/codexBridge.ts:509-521 | a waiting approval is in the table with its timer running, or was settled exactly once |
| `Approvals.FullAccessExactly` | gateway/acode-upstream/server/src/codexBridge.ts:295-303 | the bounded memory answers full access if and only if that is the thread's latest policy and fewer than 10,000 other threads were used since |
| `Approvals.ApprovalResult` | gateway/acode-upstream/server/src/codexBridge.ts:555-564 | the result is positive if and only if the decision is approve |
| `Approvals.AutomaticResult` | gateway/acode-upstream/server/src/codexBridge.ts:524-540 | outside confirm mode the result is positive exactly for approval requests |
| `Approvals.CodexBridge.RememberPolicy` | gateway/acode-upstream/server/src/codexBridge.ts:295-303 | the thread becomes the newest policy, oldest ones beyond 10,000 go |
| `Approvals.CodexBridge.ResolveApproval` | gateway/acode-upstream/server/src/codexBridge.ts:305-316 | a decision is taken if and only if it names a pending request, its non-empty turn, and no other thread; the table and the request afterwards |
| `Approvals.CodexBridge.RejectAllApprovals` | gateway/acode-upstream/server/src/codexBridge.ts:572-576 | the loop settles every pending approval with deny, once, and empties the table |
| `SessionOwnership.OtherAccountsChangeNothing` | cloud-relay-go/store.go:374-396 | no run of syncs and appends by other accounts changes an owned session or its events |
| `SessionOwnership.EveryRunKeepsOwnersAndNumbers` | cloud-relay-go/store.go:374-396 | in every run owners and devices stay once set, event lists only grow, and event numbers are exactly 1..n |
| `SessionOwnership.SyncSparesOthers` | cloud-relay-go/session_sync.go:85-91 | a sync leaves alone what another account or device owns |
| `SessionOwnership.SyncIsIdempotent` | cloud-relay-go/session_sync.go:78-99 | repeating a sync of the same normalized items changes nothing, even if they name a session several times with different dates and missing titles |
| `SessionOwnership.UndatedItemIsRedated` | cloud-relay-go/session_sync.go:69-71 | an accepted item without a date is dated by each sync, so repeating it changes nothing if and only if the time is the same |
| `SessionOwnership.ItemStoredIff` | cloud-relay-go/session_sync.go:85-96 | an item is stored, with exactly its fields, if and only if its session is new, or the sender's or nobody's on this device or none, and incomplete or not dated later |
| `SessionOwnership.AppendCreatesSession` | cloud-relay-go/store.go:381-383 | an event for an unknown session creates it for the sender without a device |
| `SessionOwnership.MemoryStore.AppendOwnedEvent` | cloud-relay-go/store.go:374-396 | refused exactly for a session of another owner; otherwise one event with the next number |
| `SessionOwnership.MemoryStore.SyncSessions` | cloud-relay-go/session_sync.go:30-51 | all items are checked before any is stored; counts accepted and skipped |
| `SessionOwnership.MemoryStore.SyncMemory` | cloud-relay-go/session_sync.go:78-99 | the loop stores exactly SyncAll and counts accepted and skipped items |
| `DevicePairing.EveryRunKeepsOwners` | cloud-relay-go/store.go:613-751 | in every run no device disappears, a non-empty owner never changes, a revoked device stays as it is, and each device has at most one unused pair code |
| `DevicePairing.EveryReachableRegistryIsSound` | cloud-relay-go/store.go:613-751 | the same between any two points of a run from an empty registry |
| `DevicePairing.AuthenticatesExactly` | cloud-relay-go/store.go:736-751 | in every reachable state authentication succeeds exactly for the last issued secret of an unrevoked device, and returns its owner |
| `DevicePairing.ConsumeMeans` | cloud-relay-go/pairing.go:120-146 | a consumed code pairs the device it was last handed out for, within ten minutes, unowned or already the user's, and nothing else changes |
| `DevicePairing.CodesPairOnce` | cloud-relay-go/pairing.go:120-146 | a used or expired code can never be consumed until the same text is handed out again |
| `DevicePairing.RevokedNeverAuthenticates` | cloud-relay-go/device_revoke.go:15-36 | exactly the owner can revoke a device, and it then never authenticates again in any run |
| `DevicePairing.EnrolledAuthenticates` | cloud-relay-go/store.go:613-646 | enrollment succeeds exactly for a new device or one that is unrevoked and unowned or the user's, and its secret then authenticates as the user |
| `DevicePairing.LegacyAuthenticates` | cloud-relay-go/store.go:680-704 | the shared token registers exactly unowned, unrevoked devices, without an owner |
| `DevicePairing.CreatedIsUsable` | cloud-relay-go/pairing.go:34-66 | a code is handed out exactly for a known, unrevoked, unowned device, lasts ten minutes, and retires the device's other codes |
| `DevicePairing.ConsumedIff` | cloud-relay-go/pairing.go:120-146 | exactly when a code is consumed; a refusal changes nothing |
| `DevicePairing.DeviceStore.EnrollDevice` | cloud-relay-go/store.go:613-646 | the new registry and the error, in the source's order of checks |
| `DevicePairing.DeviceStore.CreatePairCode` | cloud-relay-go/pairing.go:34-66 | the loop marks the device's codes used before the new one is stored |
| `DevicePairing.DeviceStore.ConsumePairCode` | cloud-relay-go/pairing.go:120-146 | the new registry and the outcome of consuming a code |
| `DevicePairing.DeviceStore.RevokeDevice` | cloud-relay-go/device_revoke.go:15-36 | only the owner revokes |
| `DevicePairing.DeviceStore.CleanupExpired` | cloud-relay-go/store.go:233-240 | the loop removes exactly the expired codes |
| `Timeline.FoldGrows` | gateway/acode-upstream/app/src/aggregator.ts:128-527 | over any events no turn, tool or approval is removed or reordered, old text is a prefix of new text, prompts stay, and a turn that has shown output keeps its id |
| `Timeline.DeltaAddsItsLength` | gateway/acode-upstream/app/src/aggregator.ts:409-418 | an agent delta lengthens the total text by exactly its own length |
| `Timeline.OthersAddNoText` | gateway/acode-upstream/app/src/aggregator.ts:203-527 | events other than the agent's messages leave the total text unchanged |
| `Timeline.CommandDeltaAddsItsLength` | gateway/acode-upstream/app/src/aggregator.ts:419-438 | a command delta lengthens the turn's command output by exactly its own length, in one running command, and changes nothing else |
| `Timeline.SettledUntilAskedAgain` | gateway/acode-upstream/app/src/aggregator.ts:314-353 | once resolved or expired, a request shows that verdict, or that of a later settlement, in every turn that lists it, over any events, until it is asked for again |
| `Timeline.SettlingEndsWaiting` | gateway/acode-upstream/app/src/aggregator.ts:314-353 | settling a request ends the waiting of exactly the turns that list it |
| `Timeline.LastTurnShows` | gateway/acode-upstream/app/src/aggregator.ts:238-276 | a status or a finish is shown by the last turn, and by no other |
| `Timeline.InputIsShown` | gateway/acode-upstream/app/src/aggregator.ts:214-236 | a user input that repeats nothing becomes the last turn, streaming, with its prompt and request |
| `Timeline.DuplicateAddsNothing` | gateway/acode-upstream/app/src/aggregator.ts:214-225 | an input that repeats a request, or a streaming prompt, adds no turn |
| `Timeline.OutputIsShown` | gateway/acode-upstream/app/src/aggregator.ts:409-520 | what each output does to its turn: text appended or set once, prompt, diffs, completed commands and changed files |
| `Timeline.KnownToolIsUpdated` | gateway/acode-upstream/app/src/aggregator.ts:463-501 | a completed command or changed file with a known id is updated in place |
| `Timeline.PendingIsAdopted` | gateway/acode-upstream/app/src/aggregator.ts:172-201 | an event that names an unknown turn gives its name to the last pending turn, or adds one empty turn if none is pending |
| `Timeline.InitialShows` | gateway/acode-upstream/app/src/aggregator.ts:106-119 | the placeholder is there if and only if there is a prompt and no input event, and shows the session's status |
| `Timeline.FoldKeepsIds` | gateway/acode-upstream/app/src/aggregator.ts:153-201 | turn ids stay distinct as long as user inputs bring new ones |
| `Timeline.LandsInItsTurn` | gateway/acode-upstream/app/src/aggregator.ts:153-201 | an event that names a turn changes only the turn that then has that id |
| `Timeline.LiveEqualsBatch` | gateway/acode-upstream/app/src/aggregator.ts:106-126 | reloading the history gives what live updates gave whenever the placeholder decision is the same |
| `Timeline.SameStartIff` | gateway/acode-upstream/app/src/aggregator.ts:106-119 | when that is: no prompt, an input already in the first part, or none in the second |
| `Timeline.PlaceholderStaysIff` | gateway/acode-upstream/app/src/aggregator.ts:106-126 | when the first user input arrives live after events that name no turn, live updates show the placeholder as one turn more than a reload if and only if the input does not duplicate it; otherwise the same number |
| `Timeline.PlaceholderStaysForGood` | gateway/acode-upstream/app/src/aggregator.ts:106-201 | if the placeholder had finished by then, live updates show it in front of the reloaded turns for as long as the session goes on |
| `Timeline.FindPendingTurn` | gateway/acode-upstream/app/src/aggregator.ts:177-190 | the backward search finds the last pending turn |
| `Timeline.GetOrCreateTurn` | gateway/acode-upstream/app/src/aggregator.ts:153-201 | placeholder, existing, pending or new turn, in that order |
| `Timeline.AnswerApprovals` | gateway/acode-upstream/app/src/aggregator.ts:314-353 | the loop updates the first matching approval of every turn |
| `Timeline.AggregateEventsToTurns` | gateway/acode-upstream/app/src/aggregator.ts:106-126 | the loop is the fold from the placeholder decision |

## Left out

- HTTP and WebSocket plumbing, PostgreSQL branches, Redis clients, cookies, tokens and login limits: only the memory store and one register per Redis key are modelled; Redis errors and unavailability are not.
- Cryptography: digests are an injective constructor, random tokens and codes are parameters.
- Session deletion, failed disk writes, unreadable snapshots and debounced persistence of session records: the log refinement assumes that writes succeed.
- Reservations of create requests: the same map discipline as client requests.
- Numbers beyond 2^53 and fractional event numbers in the browser, and the rounding of cursors at 2^63: numbers are mathematical integers; session ids do not contain the key separator of the ledger.
- The merge by sequence number is modelled as a list kept in sequence order, not as a Map sorted afterwards; for equal numbers the cached entry wins in both.
- More than 10,000 cursors in the browser: trimming is modelled in Browser.Save, but the run theorems hold below it, where no cursor is forgotten. Gap-recovery timers are not modelled, because snapshots may happen at any time in every run.
- Retention that removes events while a replay or a load is running, and sockets that deliver frames after their successor was opened.
- Limits on device connections and subscriptions, and the fan-out of events to subscribed browsers: no result above depends on them.
- Other routes that acquire the turn gate without a new generation, interjections, and the last client request id of a session; the id compared at admission is a parameter of the step.
- ProxyRouting.EveryRunIsSafe: allows a browser to leave while its own reader is still routing a request, which the source excludes; it holds all the more without that step.
- Approvals.CodexBridge.ResolveApproval: a decision without a thread id is accepted for any thread, as in the source; request ids of unanswered requests are assumed distinct.
- DeviceLease.RenewedTwice: a rebind of the same peer in between is excluded, because pairing sets the register again without checking that it was held.
- SessionOwnership.MemoryStore.SyncSessions: trimming and length limits of the fields are not modelled; an item that fails them is the missing item, a blank owner or device the flag.
- DevicePairing.DeviceStore.EnrollDevice: normalization of device ids is a parameter.
- Timeline.LiveEqualsBatch: the generated ids (clock-based turn ids and input ids) and the session record are the same values in both folds, while the source draws new ids and may read a newer record on a reload.
- ResumeReplay.ResumeBrowser: every send succeeds. A failed send closes the peer, so that the browser got an initial part of these frames; BrowserCursor.ComposedBetweenResets holds for every initial part, because the relay may stop sending at any point.
- EventPaging.LoadSessionEvents: all pages of one load see the same log, and no page fails.
- SessionOwnership.SyncIsIdempotent: is about items after normalization, which dates undated ones.
- Timeline.FoldGrows: reasoning, token usage, attachments and times of a turn are not modelled.
- relayClient.ts, the React components, the launcher, attachments, thread import and path resolution.
