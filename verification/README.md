# The Codex connector's protocol kernels, modelled and proved

The connector runs a Codex app-server over private stdio and offers it again over HTTP. This project models its
stateful kernels in Dafny and proves what they guarantee, over every input, every run and every interleaving.

- `json`, `text`: JSON values as `serde_json` keeps them (integers apart from floats), and the string operations the
  kernels use: trimming, ordering, decimal `u64`.
- `cursor`, `sse`: stream cursors, and server-sent events as a client reads them by sections 9.2.5 and 9.2.6 of the
  WHATWG HTML Living Standard.
- `event_store`, `notification_stream`, `stream`, `frame_links`, `late_reader`, `skipping_run`: the bounded log with
  its live queues as a class refining a specification, the serving loops, and whole runs with connector restarts and
  clients that come and go, those that keep the id of their last frame and those that lose it to keepalives.
- `events`, `publisher`: the identities of domain events, the worker that hands them to the host, and the host's
  receipt.
- `threads`, `thread_identity`, `thread_merge`, `pages`: merging thread projections in place, what that keeps, and the
  page loop over an arbitrary or an honest app-server.
- `thread_state`: the unread flags, their persisted store, and a thread's history.
- `rpc`, `lifecycle`, `server_requests`: the pending-call table, sessions and their handshake, and the table of
  requests the app-server makes. `rpc` and `server_requests` hold the session's methods as classes; all three are also
  transition systems whose steps are the atomic steps of callers, reader, poller and shutdown.
- `employees`, `invocation`, `access`: the employee file, the closed parameters of a remote call, and both in any
  interleaving.
- `locks`: which code takes which mutex under which, and why nothing waits in a circle.

Concurrency is modelled as steps: an action names what one thread does next, an action that is not enabled changes
nothing, and a run is any sequence of actions. Where a property of the code holds only under a condition, the lemma
says exactly when, and a concrete failing input or the other direction of the equivalence shows that the condition is
needed.

Six things the code does that its documentation does not say:

- A keepalive comment ends with a blank line. Read by section 9.2.6, a blank line commits the connection's empty ID
  buffer, so a reader that starts each connection with an empty buffer loses its last event ID when a connection
  carries keepalives and no frame (`Sse.CursorSurvivesUnlessOnlyKeepalives`), and then skips what is pushed before it
  returns (`LateReaders.SkipsExactlyWhenLate`, `SkippingRuns.AStrictClientSkips`).
- A NUL inside a thread or turn id lets two different turns share an event identity (`Events.TurnIdentity`, `Events.ANulLetsTurnsCollide`).
- A `threadId` that is not a string can make a merged projection answer to another id than the index says
  (`ThreadIdentity.MergeKeepsId`, `ThreadIdentity.NumericThreadIdLosesIdentity`).
- A revision (`updatedAt`) of null is written to the unread store as null and read back as absent, so the next listing
  of that thread notes it again and saves again (`ThreadStates.EnrichIsIdempotent`).
- A status or a timestamp of only white space counts when projections are compared and is missing when they are filled,
  so a merge can be less live than the projection it prefers, or of a rank that no projection has
  (`ThreadMerge.MergeKeepsRank`, `ThreadMerge.FoldRanksBest`).
- A save of the employee file that fails in syncing its directory answers with an error and has replaced the file
  (`Employees.ErrorsKeepTheFile`).

## Model

| member | source | states |
|---|---|---|
| Json.MembersAre | src/invoke.rs:802-807 | a member is read as the value under its key of an object, and as a text only when it is one |
| Json.UnsignedAre | src/invoke.rs:637-640 | exactly the integers from 0 to 2^64 - 1 are read as unsigned |
| Json.RealsAre | src/invoke.rs:779-792 | numbers compare by their values |
| Text.ParseThenFormat | src/app_server/event_store.rs:41-54 | a number read from a cursor formats back to its own text exactly when that text has no plus sign and no leading zero |
| Text.FormatThenParse | src/app_server/event_store.rs:41-54 | every `u64` is read back from its decimal text |
| Text.TrimIs | src/invoke.rs:727-733 | trimming takes all white space, and nothing else, off both ends |
| Text.LessIs | src/invoke.rs:779-792 | text order is that of the first place two texts differ, a proper beginning being less |
| Cursors.EncodeThenParse | src/app_server/event_store.rs:41-54 | parsing an encoded cursor gives the cursor exactly when its stream id is not empty and free of control characters and its sequence is a `u64`; colons in the id are harmless |
| Cursors.ParsedParts | src/app_server/event_store.rs:41-50 | an accepted text is its stream id, the last colon and the digits of its sequence |
| Cursors.ParseThenEncode | src/app_server/event_store.rs:41-54 | an accepted Last-Event-ID is a valid cursor, and its own text exactly when its digits are canonical |
| Cursors.EncodeInjective | src/app_server/event_store.rs:52-54 | distinct cursors have distinct texts |
| Sse.CutStreamDeliversWholeFrames | src/notification_stream.rs:40-74 | wherever a connection is cut, a standard reader has dispatched exactly the frames that arrived whole, with event, id and data as written, in order |
| Sse.CursorSurvivesUnlessOnlyKeepalives | src/notification_stream.rs:49-60 | the reader's last event ID is that of its last frame, or the one it came with, exactly unless the connection brought keepalives and no frame; that case loses it |
| Sse.AKeepaliveAloneLosesTheCursor | src/notification_stream.rs:52-55 | one keepalive comment on a fresh connection does lose it |
| Sse.StreamReadsBack | src/notification_stream.rs:40-74 | an uncut stream of frames and keepalive comments is read back as exactly the written (event, id, data) triples |
| EventStores.PushLogs | src/app_server/event_store.rs:128-154 | after any push the retained events are the last 1000 of everything pushed, numbered consecutively |
| EventStores.PushWired | src/app_server/event_store.rs:155-157 | after any push no live queue holds more than 1024 events and each subscriber is registered once |
| EventStores.KeptIs | src/app_server/event_store.rs:155-157 | a push keeps exactly the subscribers whose `try_send` succeeds |
| EventStores.OpenedIs | src/app_server/event_store.rs:167-203 | a subscription resumes with the log from its cursor on, and resyncs exactly when the cursor is of another stream, ahead of the tail, or more than 1000 events behind |
| EventStores.RecentIs | src/app_server/event_store.rs:205-228 | `recent` gives a contiguous end of the log after the sequence asked for, as many as retention and the clamped limit allow |
| EventStores.Channel.TrySend | src/app_server/event_store.rs:155-157 | a send succeeds exactly on an open queue with room, and then appends |
| EventStores.EventStore.constructor | src/app_server/event_store.rs:329-335 | a new store is empty under its stream id |
| EventStores.EventStore.Push | src/app_server/event_store.rs:128-158 | the whole new state is the specified push: next sequence, trimmed window, every subscriber's queue, the dropped ones gone |
| EventStores.EventStore.Retain | src/app_server/event_store.rs:151-154 | trimming from the front leaves the last 1000 |
| EventStores.EventStore.RetainSubscribers | src/app_server/event_store.rs:155-157 | one in-place pass sends to every subscriber once and keeps those that took the event, in order |
| EventStores.EventStore.Subscribe | src/app_server/event_store.rs:167-203 | resync or backlog as specified, and a fresh empty registered channel, in one atomic step |
| EventStores.EventStore.Recent | src/app_server/event_store.rs:205-228 | the tail and the events the specification names, with the defaults and the clamp to 1..500 |
| NotificationStreams.WriteEvent | src/notification_stream.rs:67-74 | one frame on the wire: its kind, its cursor's text and its data, each its own |
| NotificationStreams.WriteEntry | src/notification_stream.rs:63-65 | a notification frame has its event's sequence, time, method and params |
| NotificationStreams.Serve | src/notification_stream.rs:31-61 | what is written is the resync, the backlog and the live events in order, each with its own event name, cursor and members, with only keepalives between |
| NotificationStreams.ServeBacklog | src/notification_stream.rs:46-48 | the backlog loop writes each entry once, in order |
| NotificationStreams.ServeLive | src/notification_stream.rs:49-60 | the live loop writes each received event once and a keepalive for each timeout, until disconnected |
| NotificationStreams.CutClientResumesAfterLastFrame | src/notification_stream.rs:15-74 | wherever the connection is cut, the client has a prefix of the frames owed, each with its event name, cursor and data, and the Last-Event-ID it sends is parsed as the cursor of the last of them; keepalives and no frame leave it none, nothing whole leaves it its own |
| Streams.StepKeeps | src/app_server/event_store.rs:120-203 | every step of producers, serving threads, clients, drops and restarts keeps each client's frames, received and coming, one gapless chain |
| Streams.ReconnectContinues | src/app_server/event_store.rs:167-203 | what a reconnecting client is given continues what it has, up to the tail |
| Streams.PushComing | src/app_server/event_store.rs:151-157 | a push adds its event at the end of what a registered client will receive and nothing for a dropped one |
| Streams.ExactlyOnce | src/app_server/event_store.rs:120-203 | in every run of a client that keeps the id of its last frame, each notification received is the true one, its sequence one more than the previous frame's in the same stream; gaps only by resync; no cursor twice |
| Streams.NothingMissing | src/app_server/event_store.rs:167-203 | in every run any connected client's frames continue gaplessly from what it knew, and reach the tail of the log while it is registered |
| Streams.FreshStart | src/app_server/event_store.rs:167-203 | without a Last-Event-ID a connection starts at the tail, with nothing behind it |
| Streams.SlowSubscriberStopsShort | src/app_server/event_store.rs:128-158 | in every run the window holds the last min(sequence, 1000) events and no queue passes 1024; a subscriber is dropped only when it cannot take an event, and its frames stop at the event before |
| Streams.DroppedStaysDropped | src/app_server/event_store.rs:155-157 | from then on, for as long as it stays connected, whatever happens, a dropped subscriber is never registered again and the frames it has and is still to receive stay the same |
| FrameLinks.StepLinks | src/app_server/event_store.rs:167-203 | every step keeps each frame of each client following the frame before it or the place where the client last started without an id |
| LateReaders.LostExactlyWhenIdle | src/notification_stream.rs:49-60 | in every run a client's id is lost exactly when it has read a keepalive on a connection without frames since its last frame |
| LateReaders.MarksAreNewStarts | src/app_server/event_store.rs:178-195 | the recorded new starts are exactly the connections opened without a Last-Event-ID, each at the tail of that moment |
| FrameLinks.NothingTwice | src/app_server/event_store.rs:167-203 | in every run every client, strict or not, receives only true frames and none twice |
| LateReaders.SkipsExactlyWhenLate | src/notification_stream.rs:49-60 | in every run a notification skips others without a resync exactly when its client is strict, lost its id to keepalives on a connection without frames just before it, and came back when the stream had moved on |
| SkippingRuns.AStrictClientSkips | src/notification_stream.rs:49-60 | in a run of thirteen steps, on any stream and with any notification, a strict client receives the first event and then the third, with no resync between |
| Events.StableEventId | src/events.rs:132-141 | the loop digests tag, name and parts, each behind a NUL |
| Events.SeparatedReadsBack | src/events.rs:132-141 | the digested parts can be told apart exactly when none contains a NUL |
| Events.PreimageSplits | src/events.rs:132-141 | equal digested texts mean equal event names and equal separated parts, and conversely |
| Events.TurnIdentity | src/events.rs:57-96 | a completion's identity is unique to its thread and turn exactly when no NUL allows the boundary to move |
| Events.ANulLetsTurnsCollide | src/events.rs:132-141 | a NUL on either side of the boundary does give two turns one identity |
| Events.TurnEventIs | src/events.rs:57-96 | a completed turn is an event exactly when it names its thread, its turn and one of three final statuses, and the event has those, the turn's times and error, and no other member |
| Events.LifecycleEventIs | src/events.rs:20-122 | closed, archived and deleted threads give the event of that name with its members exactly when the thread is named; other notifications give none |
| Events.LifecycleIdentity | src/events.rs:98-122 | a lifecycle identity fixes kind, stream, sequence and thread |
| Events.IdentitiesOverALog | src/events.rs:20-141 | over all that one process pushed, two domain events share an identity exactly when they are the same lifecycle push or completions of the same thread and turn text, whatever their sequences |
| Publishers.BackoffBounded | src/app_server/event_store.rs:280-316 | backoff starts at 100 ms, doubles eight times and stays there; it never decreases, is at least the base and at most 256 times it |
| Publishers.Publish | src/app_server/event_store.rs:280-316 | the worker returns on the first response that is a success whose closed body names the version, the event, the app and one of the two acceptances, and on no other; every attempt sends the identical request with the job's own fields |
| Publishers.AcceptsIs | src/app_server/host_receipt.rs:5-33 | the decoder and its comparison accept exactly the receipts described |
| Publishers.NothingLost | src/app_server/event_store.rs:258-316 | in every run jobs enqueued are, in order, those accepted (each on such a receipt of its own app and event id), the one in flight and those queued (at most 256); requests carry their job's fields and never go back to an earlier job |
| Publishers.BlocksWhenFull | src/app_server/event_store.rs:267-270 | an event waits while the queue holds 256, and is never discarded |
| Publishers.LeavesWhenReleased | src/app_server/event_store.rs:293-305 | a job leaves the worker exactly on such a receipt, and stays with it on any other response |
| Publishers.StepKeeps | src/app_server/event_store.rs:258-316 | each enqueue, take and attempt keeps that account |
| Threads.MergeThreadProjections | src/invoke.rs:735-800 | the fill loop prefers the incoming projection exactly when it is live and the other not, or as live and later by its first timestamp; the preferred one's members stand, and a blank one gives way to the other's |
| Threads.OutranksIs | src/invoke.rs:756-792 | the comparison is by liveness and then by the first timestamp there is, as the members say |
| Threads.LogicalIdIs | src/invoke.rs:727-733 | the logical id is the first string of threadId, sessionId and id, trimmed, unless that leaves nothing |
| Threads.MergeUniqueThreads | src/invoke.rs:708-725 | the vector and the index, updated in place, are the specified fold |
| Threads.AddAllConcat | src/invoke.rs:708-725 | two merges in a row are one merge of both lists |
| Threads.MergingIsGrouping | src/invoke.rs:708-725 | merging in place gives the groups of equal logical id in order of first occurrence, each folded, and an index that holds exactly the ids seen, each at its group |
| ThreadIdentity.MergeKeepsId | src/invoke.rs:727-754 | a merge keeps the shared logical id except in exactly one case: a preferred `threadId` that is no string, shadowed by a filled `sessionId` |
| ThreadIdentity.MergeKeepsPlainIds | src/invoke.rs:735-754 | string, null or absent id members stay so, and then that case cannot arise |
| ThreadIdentity.NumericThreadIdLosesIdentity | src/invoke.rs:727-754 | a numeric `threadId` does lose the id |
| ThreadIdentity.AddAgrees | src/invoke.rs:713-724 | one more record keeps index and list in agreement exactly unless its id is indexed and its merge is the shadowed case |
| ThreadIdentity.IndexAgrees | src/invoke.rs:708-733 | index and list agree after every prefix of any merges exactly when no record displaces another: the index maps each id to the one position carrying it, and every record with an id is indexed at its place |
| ThreadIdentity.PlainIndexAgrees | src/invoke.rs:708-733 | with string, null or absent id members throughout they always agree |
| ThreadIdentity.OrderKept | src/invoke.rs:708-725 | all along any merges, ids keep first-occurrence order and records without an id are all kept, exactly when no record displaces another |
| ThreadIdentity.AddOrder | src/invoke.rs:713-724 | one more record leaves the ids in place, its own appended if new, exactly unless it displaces another |
| ThreadMerge.FoldLosesNothing | src/invoke.rs:735-800 | a member is missing from a fold exactly when all segments miss it, and its value is some segment's |
| ThreadMerge.MergeKeepsLiveness | src/invoke.rs:735-777 | a merge is as live as the projection it prefers exactly unless a blank status was overwritten |
| ThreadMerge.MergeKeepsRank | src/invoke.rs:735-800 | a merge ranks as the projection it preferred exactly when no blank status of it is filled by one that is not live and no blank timestamp of it is filled |
| ThreadMerge.BestIsEarliest | src/invoke.rs:756-792 | the running best segment is outranked by none and is the earliest such |
| ThreadMerge.FoldRanksBest | src/invoke.rs:735-800 | the fold ranks as the best segment so far, all along any list, exactly when no segment spoils the rank by a blank status or a blank timestamp, which can be read off the segments |
| ThreadMerge.FoldKeepsBest | src/invoke.rs:735-800 | unless a segment spoils it, the fold has the greatest (live, recency) rank of its segments, and the earliest greatest segment's non-missing members all survive |
| ThreadMerge.BlankTimestampInventsARank | src/invoke.rs:735-800 | a blank timestamp does give a merge a rank no segment has |
| ThreadMerge.BlankStatusIsLost | src/invoke.rs:735-777 | a blank status does make a merge less live than the segment it prefers |
| ThreadMerge.CompareTransitive | src/invoke.rs:756-792 | the comparison is transitive on segments with timestamps of one kind |
| Pages.RequestUniqueThreads | src/invoke.rs:631-706 | whatever the server answers, the result is the first page with, for its data, all items of all answers with their nested threads lifted and merged by logical id, and the last answer's cursor; an error is the last answer's |
| Pages.AnyServer | src/invoke.rs:631-706 | whatever the server answers: at most 100 requests, one without a limit, no cursor twice, every request the caller's own but for cursor and a limit within the caller's, an error exactly when an answer was one |
| Pages.LimitIs | src/invoke.rs:637-640 | the limit is an unsigned integer brought into 1..100, or none |
| Pages.ShowsWhatCame | src/invoke.rs:656-706 | the listing is what came, on all servers |
| Pages.ListsASlice | src/invoke.rs:631-706 | from an honest server: the contiguous slice from the requested offset, nested threads lifted and de-duplicated, with the cursor of its end; with a limit it fits it and stops early only at the list's end, an empty page or the hundredth request |
| Pages.NextCallContinues | src/invoke.rs:631-706 | the call from `nextCursor` shows the slice that follows: nothing is skipped |
| Pages.HitsAreShownOnce | src/invoke.rs:620-725 | of an honest search's hits those whose nested threads share an id are shown as one, every hit is shown, and nothing else |
| ThreadStates.ThreadReadStore.EnrichThreadList | src/thread_state.rs:46-143 | each item of a thread is shown with seven members made from its own status and turns, any other as it came; the items are enriched as computed, the file is written exactly when the entries changed and then loads as the computed entries; every error, a failed save among them, leaves the file as it was |
| ThreadStates.ThreadReadStore.Save | src/thread_state.rs:256-296 | a save that succeeds is the whole new document, one that fails leaves the old one |
| ThreadStates.ThreadReadStore.EnrichItem | src/thread_state.rs:55-137 | one item's entry, assigned step by step, and its seven shown members, each from the item's own status and turns |
| ThreadStates.EnrichedIs | src/thread_state.rs:107-135 | the written members, by the item's own status and turns |
| ThreadStates.SightIs | src/thread_state.rs:55-75 | what a listing notes of a thread, by the item's own members: its revision, its status type, the status of its last turn |
| ThreadStates.NamesIs | src/thread_state.rs:179-185 | the thread of an item is the first string of three members, if not empty |
| ThreadStates.DesktopIs | src/thread_state.rs:209-237 | the desktop's marks are the ids of its local host; members of another kind are errors |
| ThreadStates.ThreadReadStore.SetThreadReadState | src/thread_state.rs:145-167 | the entry takes the flag, a given revision and the present desktop mark; an error, a failed save among them, changes nothing |
| ThreadStates.ThreadReadStore.MarkThreadUnread | src/thread_state.rs:169-177 | the flag is set and nothing else; an error, a failed save among them, changes nothing |
| ThreadStates.EntryRemembers | src/thread_state.rs:76-105 | an entry is what was last observed of its thread, a null revision being forgotten at the next save |
| ThreadStates.UnreadIsItsHistory | src/thread_state.rs:76-105 | a thread is unread exactly when its last explicit setting said so or, since then, it completed, gained a desktop mark, or showed a new revision together with finished activity |
| ThreadStates.OnlyExplicitClears | src/thread_state.rs:145-167 | only an explicit setting clears the flag |
| ThreadStates.StoreIsHistories | src/thread_state.rs:46-177 | in every run of listings, settings and completions each stored entry is the replay of its own thread's history |
| ThreadStates.UnreadInEveryRun | src/thread_state.rs:46-177 | in every run a thread is tracked exactly when something happened to it, and its stored flag is what its history says |
| ThreadStates.UnreadBetweenListings | src/thread_state.rs:87-105 | listed twice with a revision, a thread is unread after the second exactly when it was before, or its turn or activity was under way and is no longer with a new revision, or the desktop has newly marked it |
| ThreadStates.ReportsTheStoredFlag | src/thread_state.rs:133-136 | each reported flag is the stored one, for a thread listed once or at its last place; earlier places show the flag of that moment, unread only if the stored one is |
| ThreadStates.LaterItemsOnlyRaise | src/thread_state.rs:87-105 | within a call later items never clear a flag and leave other threads' entries alone |
| ThreadStates.EnrichIsPointwise | src/thread_state.rs:55-137 | what becomes of a listed thread depends on its own item and entry alone |
| ThreadStates.OrderIrrelevant | src/thread_state.rs:55-137 | a permuted list of distinct threads gives the same store and the same shown items |
| ThreadStates.EnrichConcat | src/thread_state.rs:55-137 | within one call, enriching a list is enriching its front and then its back |
| ThreadStates.PagesAcrossCalls | src/thread_state.rs:46-143 | distinct threads listed in two calls, with a save between, give the shown items and the stored entries of one call |
| ThreadStates.ReadsNothingWritten | src/thread_state.rs:107-135 | no member that enrichment writes is one it reads |
| ThreadStates.EnrichIsIdempotent | src/thread_state.rs:46-143 | enriching again in the next call changes neither items nor store, and the save is skipped exactly when no listed thread has a null revision |
| ThreadStates.ANullRevisionIsSavedAgain | src/thread_state.rs:139-141 | a null revision does make the same listing save again |
| Rpc.ReplyChannel.Send | src/app_server.rs:442-446 | a send fills the empty one-place channel, and drops the reply when the receiver is gone |
| Rpc.ProcessSession.Register | src/app_server.rs:437-446 | a live session hands out an id never used before with a fresh channel under it; a dead one changes nothing |
| Rpc.ProcessSession.RemovePending | src/app_server.rs:487-491 | exactly the entry with that id goes |
| Rpc.ProcessSession.GiveUp | src/app_server.rs:447-460 | after a failed write or a timeout the entry and the receiver go, and the other calls stay as they are |
| Rpc.ProcessSession.DispatchResponse | src/app_server.rs:540-563 | exactly the call with the frame's id gets the reply, once, and leaves the table |
| Rpc.ProcessSession.SetExit | src/app_server.rs:654-661 | the first cause is recorded and clears `initialized`; a later one changes nothing |
| Rpc.ProcessSession.FailPending | src/app_server.rs:663-677 | the table is emptied and every call that was in it is failed once |
| Rpc.ProcessSession.MarkExited | src/app_server.rs:649-652 | both, keeping an earlier cause |
| Rpc.ProcessSession.RefreshProcessState | src/app_server.rs:612-629 | an exited child of a live session kills it and fails its calls; otherwise nothing changes |
| Rpc.StepKeeps | src/app_server.rs:437-466 | every step keeps a call's reply in exactly one place until it returns, ids distinct, and each response frame with one call or reported |
| Rpc.OneReply | src/app_server.rs:437-466 | in every run ids never repeat; a returned value came from the one frame with the call's id, without a method, read after the call was registered: without an error member it is that frame's result or null, with one it is an error of that message, code and data; the disconnected branch is never reached; no send is a second one or blocks |
| Rpc.OneCallPerFrame | src/app_server.rs:540-563 | in every run a response frame goes to at most one call and is reported as unmatched exactly when it goes to none |
| Rpc.ResponseIs | src/app_server.rs:535-560 | which frames are responses, and what they give their caller, member by member |
| Rpc.FrameIs | src/app_server.rs:535-570 | which frames are requests and notifications, and a notification's method and params |
| Rpc.OutcomesAreFinal | src/app_server.rs:437-466 | whatever happens later, a finished call keeps its outcome and has left nothing in the table |
| Rpc.LateCallsFail | src/app_server.rs:437-466 | a call registered after the reader has gone ends only by write error, timeout or the failure of a later drain, and only by write error once input is closed |
| Rpc.NeverStuck | src/app_server.rs:437-466 | an unfinished call's own next step is always possible and brings it nearer to its return, and nobody moves it back |
| Lifecycle.StepKeeps | src/app_server.rs:201-246 | every step of `ensure_session`, calls, replies, `shutdown` and exits keeps mutual exclusion, one live session, and the order of every session's log |
| Lifecycle.AtMostOneLive | src/app_server.rs:201-241 | in every run at most one session is alive |
| Lifecycle.HandshakeFirst | src/app_server.rs:187-234 | in every session's log each call and each reply comes after `initialized`, which comes after a successful `initialize`, once, and with no `initialize` after it, even when greeting is retried or the process dies before the flag is stored |
| Lifecycle.FirstExitOnly | src/app_server.rs:654-661 | a dead session stays dead, and the only cause it ever records is the first one given |
| ServerRequests.KeyInjective | src/app_server/server_requests.rs:88-96 | different ids have different keys: the JSON texts of 7 and "7", or of any two strings, differ |
| ServerRequests.PendingRequests.Receive | src/app_server/server_requests.rs:62-101 | a frame with an integer or string id, one of the three methods and a thread and turn in its params is admitted and announced with those fields if there is room and its id is new, and answered -32000 if not; any other is answered -32601 |
| ServerRequests.PendingRequests.ValidateReply | src/app_server/server_requests.rs:121-160 | 403 exactly for another thread, turn or id, else 400 exactly unless a decision meets an approval or as many answers meet the questions, one for each id |
| ServerRequests.PendingRequests.Respond | src/app_server/server_requests.rs:103-118 | an unknown id is 409, another thread or turn 403, a result that does not suit the request 400, and these change nothing; any other reply removes its request and writes one result frame, and a failed write is not repeated |
| ServerRequests.PendingRequests.Notice | src/app_server.rs:565-599 | a resolution removes only the named request of the named thread, a completed turn only its own requests, any other notification none |
| ServerRequests.PendingRequests.Resolved | src/app_server.rs:571-585 | exactly the entry with that key and thread goes |
| ServerRequests.PendingRequests.TurnCompleted | src/app_server.rs:586-597 | exactly the entries of that thread and turn go |
| ServerRequests.PendingRequests.PendingFor | src/app_server/server_requests.rs:169-182 | exactly the thread's pending requests, no two with one id |
| ServerRequests.Connection.DispatchValue | src/app_server.rs:535-600 | by the frame's own members: a response fills the channel of the call with its id, with the result or with the error's message, code and data, and touches nothing else; a request is admitted or not; a notification removes exactly the requests it resolves or completes |
| ServerRequests.StepKeeps | src/app_server/server_requests.rs:62-118 | every arrival, reply and notification keeps the account of admissions |
| ServerRequests.Conservation | src/app_server/server_requests.rs:62-160 | in every run each admission is pending or has one end that is its own: a reply of its thread, turn and id that suits its method and questions, a resolution of its thread and id, or its turn's completion; the pending ones are the table, at most 128, each under its own key; one result frame exactly for each written reply |
| ServerRequests.EverythingCame | src/app_server/server_requests.rs:62-118 | in every run each admitted request came in a frame that carries it, and each end is a reply, a resolution or a completion that came |
| ServerRequests.EndsAreFinal | src/app_server/server_requests.rs:103-118 | an ended admission keeps its end |
| Employees.EmployeeFile.Save | src/employee.rs:100-137 | an invalid employee or a failed write leaves the file as it was; a directory sync that fails after the rename is an error with the new employee on file |
| Employees.EmployeeFile.Change | src/employee_management.rs:54-107 | the stepwise change answers with the specified employee or status and leaves the specified file, which stays valid |
| Employees.EmployeeFile.Assign | src/employee_management.rs:70-104 | the field assignments of each operation |
| Employees.ErrorsKeepTheFile | src/employee.rs:100-137 | a change that answers with an employee has it on file; one that answers with an error has left the file as it was exactly unless a valid new employee was renamed into place and the directory sync failed |
| Employees.ValidIs | src/employee.rs:33-54 | what makes an employee valid, and which refusal is which |
| Employees.RefusedWith | src/employee_management.rs:59-104 | which change is refused with which status before it is saved |
| Employees.AnErrorCanChangeTheFile | src/employee.rs:128-136 | such an error can disable the employee |
| Employees.ChangeIsConfined | src/employee_management.rs:54-107 | each change that reaches the file, whatever it answers, changes its own fields only, and workspaces are added only by an authorization whose listing has them |
| Employees.ChangeDoes | src/employee_management.rs:54-107 | what each change that reaches the file puts there: the new identity, the prepared directory, exactly the workspaces named |
| Invocations.AllAllowed | src/employee_invocation.rs:50-54 | the early-exit loop accepts exactly key sets within the contract |
| Invocations.CheckParameters | src/employee_invocation.rs:44-108 | the checks, in order, with their statuses, and the body with the directory put in |
| Invocations.AcceptedWhen | src/employee_invocation.rs:44-108 | which bodies are accepted, and with which status the others are refused |
| Invocations.TurnKeysAre | src/employee_invocation.rs:22-38 | the members the methods of turns may have |
| Invocations.ModePasses | src/employee_invocation.rs:79-92 | the modes that pass: none, or the closed default one of the model asked for |
| Invocations.Confined | src/invoke.rs:20-214 | whichever request to the app-server an accepted remote call leads to, be it a listing, a search, a read or a turn, it has no parameter outside its method's closed set and names no directory but the employee's; startThread, resumeThread and startTurn do name it, and startThread the legacy history |
| Invocations.SettingsStayLocal | src/employee_invocation.rs:50-78 | such a request sets no approval policy, sandbox, permissions or configuration |
| Invocations.StartSends | src/invoke.rs:98-108 | thread/start with the model and directory, legacy history and the rest of the params; refused exactly on another history mode |
| Invocations.ResumeSends | src/invoke.rs:109-121 | thread/resume of the named thread |
| Invocations.TurnSends | src/invoke.rs:122-142 | turn/start of the named thread with the input, a text as the one text item, the model and the directory |
| Invocations.SteerSends | src/invoke.rs:143-163 | turn/steer with the input, the thread and the turn as the expected one |
| Invocations.InterruptSends | src/invoke.rs:164-175 | turn/interrupt of the named turn |
| Invocations.ListSends | src/invoke.rs:191-213 | thread/list with the members given and the default sort where none is |
| Invocations.SearchSends | src/invoke.rs:22-46 | thread/search, refused exactly without a search term |
| Invocations.ReadSends | src/invoke.rs:222-238 | thread/read and thread/turns/list of the thread named, the body's own first |
| Invocations.AppsSend | src/invoke.rs:94-97 | app/list with the members given |
| Invocations.StaysInside | src/employee_invocation.rs:44-108 | the accepted body of any method but startThread, resumeThread, startTurn, steerTurn and interruptTurn has only that method's properties, in it and in `params`, and names no directory but the employee's |
| Invocations.StartIsNeverRefused | src/history.rs:7-21 | a remote caller cannot make the history check refuse |
| Invocations.Preserved | src/employee_invocation.rs:44-108 | every accepted member but the directory is passed on unchanged |
| Access.StepKeeps | src/invoke_dispatch.rs:10-37 | every call and change keeps calls tied to the employee they were accepted with, and grants to the listing they came from |
| Access.DecidesSo | src/invoke_dispatch.rs:10-19 | which calls are accepted, and which refusal is which |
| Access.AuthorisedAndConfined | src/invoke_dispatch.rs:10-37 | in every run each call that reached a handler was accepted, after it was asked, by the employee then on file, enabled, with the workspace granted and a directory set; the request it led to is confined to that employee's directory, and a call without a request went on with a confined body |
| Access.EveryPageIsConfined | src/invoke.rs:631-706 | every page request of a confined listing or search is confined too, whatever the app-server answers |
| Access.GrantsWereListed | src/employee_management.rs:82-103 | in every run each grant in any version of the file, those left by a change that answered with an error included, was added by a change whose listing had the workspace, and has stood since |
| Access.RevocationIsImmediate | src/invoke_dispatch.rs:10-19 | once access is revoked no waiting call is accepted until a management change, and calls never change the file |
| Access.AcceptanceStands | src/invoke_dispatch.rs:10-37 | whatever changes follow, an accepted call keeps the employee it was accepted with and ends as that employee's call |
| Locks.TasksAscend | src/app_server.rs:127-136 | every function, the home and checkout ones included, takes its locks in strictly increasing rank |
| Locks.NoCircularWait | src/app_server.rs:201-246 | in every run the wait-for graph has no circle of any length, with readers waiting for writers that hold the lock or wait for it |
| Locks.NoDeadlock | src/app_server.rs:415-427 | in every run, while any thread is unfinished some thread can step, and its step leaves it less to do |
| Locks.MutualExclusion | src/app_server.rs:612-647 | in every run a thread that holds a lock for writing is its only holder |

## Left out

- Process spawning, pipes, HTTP parsing and headers, environment lookup and file modes: their outcomes are inputs of the steps (a write succeeds or not, a child has exited or not, how a save ended).
- Mutex poisoning: locks never fail.
- Wrap-around of `u64` sequence and call-id counters: they are naturals.
- SHA-256: an event identity is the text that is digested.
- Random stream ids: two connector processes never share one, which is a condition of the restart step.
- Timestamps, the connector version and random bytes: inputs.
- The JSON text of `data` lines: any text without raw line breaks. Two different cursors of the app-server are taken to have different texts.
- Floating-point rounding in recency comparison: numbers compare as reals.
- Text order is by code point, which is the order of UTF-8 bytes.
- CodexClient.ensure_session and shutdown in class form: they are steps of `lifecycle`, because what matters is what other threads do between them.
- Binary inspection and version checks before a start: a start succeeds or fails.
- The JSON decoding of management requests and of server-request replies: a request that does not decode is an input of its own.
- Replacing a file on Windows, where the unread store removes the old file before it renames the new one, and where the employee directory is not synced: files are replaced as on Unix.
- A path is absolute when it starts with a slash, as on Unix.
- JSON ids of `serverRequest/resolved` that are literals, floats, arrays or objects: their texts equal no key.
- Interleaving inside a load, change and save of the unread store: each call is one step.
- ThreadStates.ThreadReadStore.EnrichThreadList: when its save fails the code has already rewritten the items in memory; they are not returned, so the model does not show them.
- The order in which a drained table's senders are used: every order is allowed.
- `list_projects`, the line-based config scan, `read_thread_projects`, `list_turns` and the desktop's project state: paths and files, with no protocol state.
- The unread-store's hook from domain events: a completion is a step.
- Publishers.NothingLost: stated in enqueue order; the store lock is released before a job is enqueued, so two pushes may enqueue in either order.
