# Verification of firefox-ctl

firefox-ctl drives Firefox from the command line: a Go host sits between CLI clients on a unix
socket and a browser extension on native messaging. This project models the parts of both that
have to stay correct while many things interleave, and the arithmetic and transformations that
feed them, and proves what they promise. `dafny verify dfyconfig.toml` checks all of it.

Each stretch of TypeScript between two awaits, and each mutex section or system call in Go, is one
atomic step. A protocol is a machine: a state, events, a function `Step`, and a run that is any
sequence of events. Its invariant is proved for every step and so for every run, and the theorems
are read off it. Beside each machine stands a class with the source's own fields, whose methods
assign them as the source does and are proved to make exactly the machine's step and to keep its
invariant; loops are proved against the function that says what they compute.

| file | what it models |
|---|---|
| Memo, Lock | the memoised attempt with its epoch fence; the promise-chain mutex |
| Tabs, Preamble, Pool, Dispatcher | session state and attachments, the shared preamble with its two layers of restores, the state commands behind the lock, and the dispatcher that runs them |
| Handlers, Restores, Progress | what each state command makes of the tabs in any run, what the restores bring back, and that nobody waits for nothing |
| Capture | the per-tab screenshot lock, eviction by deadline and the duty to clear badges |
| Tee, Recorder, Hops | the HAR recorder: stream filters and the byte budget, cutting of request bodies, hops and pages |
| Utf8, Json, HarLog, HarBodies, HarExport | UTF-8 lengths, a concrete `JSON.stringify`, and the way from a recording to a reply: building the log, what its entries show, redacting it, fitting it |
| Host, Replies | the request table raced by replies, timeouts, refusals and disconnects, and who wins |
| SocketOwner | hosts that start, close and die around one socket path |
| Framing | length-prefixed frames over streams that move any number of bytes at a time |
| Frames, Link | the registry of child frames; the reconnecting native link |
| CookieKeys, Cookies, CookieImport | cookie identities, deletion over a store keyed by them, accounting of an import |
| TagPath | the child-path printer against a matcher for child combinators and :nth-of-type |

The environment is given: Firefox, storage, timers, sockets and the file system answer what they
like, when they like, within these limits. Ids that Firefox or a random generator makes are fresh.
Messages to one tab arrive in order, and a removal of annotations takes effect or the document is
gone. A stream filter moves between the states Firefox documents. A refused dial means that nobody
listens, an inode number in use is not given out again, and the kernel frees the lock of a process
that dies. A cookie set with a past date removes the cookie stored under that identity or leaves it,
and nothing else writes the store during a batch.

Three places where the code does less than a reader may expect are stated as they are, each with
the condition under which it does not. A removal of the socket file from outside leaves one listener
if and only if nobody was listening on it (`SocketOwner.RemovalIsSafeExactly`); otherwise some run
ends with two, and `SocketOwner.RemovalAllowsTwo` shows one. Printed child paths are unique if and
only if the root segment is (`TagPath.UniqueIffRootOnce`), and `TagPath.TwoBodies` is a tree in which
it is not; `uniqueSelector` checks every candidate, so it then returns another selector or none. A
tombstone hits its cookie unless that is partitioned under a site its host is outside of and lacks
the ancestor flag (`CookieKeys.TombstoneIsExact`, `CookieKeys.MissedTombstone`). No set makes such a
cookie (`CookieKeys.SetsAreNeverForeign`); that Firefox answers none from elsewhere is what the
comment at cookies.ts:325-330 takes for granted, and a deletion that misses one is reported failed.

## Model

| member | source | states |
|---|---|---|
| Memo.RestoreMemo.Run | extension/src/memo.ts:21-38 | starts an attempt in the current epoch or shares the one held; only a tracked caller is counted |
| Memo.RestoreMemo.Abandon | extension/src/memo.ts:50-60 | takes one waiter off, and evicts the attempt exactly when it was the last; an attempt no longer held is left alone |
| Memo.RestoreMemo.Evict | extension/src/memo.ts:62-69 | drops the held attempt and moves the epoch on; any other attempt is left alone |
| Memo.FenceHolds | extension/src/memo.ts:21-69 | in every run of joins, abandonments, failures and results, an attempt is in its epoch exactly while its promise is the one held |
| Memo.EvictionIsFinal | extension/src/memo.ts:40-43 | an attempt that left its epoch never gets back into it, whatever follows |
| Lock.StateLock.Acquire | extension/src/lock.ts:14-20 | each caller queues behind the tail and becomes the tail |
| Lock.StateLock.Release | extension/src/lock.ts:21-27 | hands the lock on once; a second release changes nothing |
| Lock.MutualExclusion | extension/src/lock.ts:14-28 | two tickets that are both inside are the same ticket |
| Lock.FirstComeFirstServed | extension/src/lock.ts:14-28 | in every run tickets enter in the order they were acquired, and at most one is inside |
| Preamble.RunKeeps | extension/src/dispatch.ts:225-334 | in every run the preamble memo counts exactly the commands that share its attempt; a restore still unsettled in its memo is counted once if the current attempt is blocked in it and not at all otherwise; a settled one succeeded |
| Preamble.NoHandlerOnUnfinishedPreamble | extension/src/dispatch.ts:238-334 | in every run, a command past `prepare` awaited an attempt that finished the session restore, the attached restore and the pool drop, all three still in their epoch |
| Preamble.AfterPassing | extension/src/dispatch.ts:301-334 | once one command passed, no step starts, evicts or fails an attempt or restore, and the preamble never writes memory again |
| Preamble.StaleIsHarmless | extension/src/session.ts:189-251 | a stale restore or attempt that runs on changes neither session state nor attachments, nor the memo, the epochs or the record of any other attempt or restore |
| Preamble.NotEvictedWhileWaiting | extension/src/memo.ts:45-60 | while a command waits, neither its attempt nor the unsettled restore that blocks it is evicted |
| Preamble.AbandonmentIsComplete | extension/src/dispatch.ts:220-236 | giving up evicts the attempt if and only if nobody else waits; then the unsettled restore goes with it and the next command starts both afresh |
| Preamble.AbandonPre | extension/src/dispatch.ts:225-228 | one command leaves the sharers of its attempt, which is evicted exactly when that command was the only one |
| Dispatching.Dispatcher.Handle | extension/src/dispatch.ts:306-323 | a command joins or starts the shared attempt, which joins or starts the session restore |
| Dispatching.Dispatcher.AbandonPreamble | extension/src/dispatch.ts:225-236 | the expired command leaves its attempt, and the last one to leave abandons the restore in flight |
| Dispatching.Dispatcher.AfterSession | extension/src/dispatch.ts:321-329 | a stale attempt stops here and resolves; a current one starts the attached restore |
| Dispatching.Dispatcher.AfterAttached | extension/src/dispatch.ts:328-333 | a stale attempt stops here; a current one drops pool tabs from the attachments |
| Dispatching.Dispatcher.AfterDrop | extension/src/attached.ts:89-94 | the write of the drop, once more when the attempt went stale meanwhile |
| Dispatching.Dispatcher.Run | extension/src/dispatch.ts:246-262 | failure and deadline are looked at before a state command queues for the lock |
| Dispatching.Dispatcher.AfterStorage | extension/src/session.ts:193-200 | what storage answered is used only inside the epoch |
| Dispatching.Dispatcher.AfterWindow | extension/src/session.ts:201-246 | the restored state is assigned, trimmed to the pool size, only inside the epoch |
| Dispatching.Dispatcher.AfterWrite | extension/src/session.ts:204-213 | a write that outlived its attempt is followed by one of the live state, a write in the epoch is not |
| Dispatching.Dispatcher.AfterRead | extension/src/session.ts:88-94 | a stale restore does not sweep |
| Dispatching.Dispatcher.AfterItems | extension/src/attached.ts:109-129 | the stored attachments are read one by one, then written back |
| Dispatching.Dispatcher.AfterTab | extension/src/attached.ts:111-120 | a stored attachment is taken only inside the epoch and only if its tab was found to exist |
| Dispatching.Dispatcher.Enter | extension/src/dispatch.ts:262-269 | a command that expired while it queued releases the lock unused; any other runs the first stretch of its handler |
| Dispatching.Dispatcher.Resume | extension/src/handlers/window.ts:46-142 | every later stretch of the five state commands, as `Handlers` tells of each |
| Dispatching.Dispatcher.OnMessage | extension/src/dispatch.ts:306-323 | a command joins the preamble, and everything the machine promises still holds of the objects |
| Dispatching.Dispatcher.OnGiveUp | extension/src/dispatch.ts:225-236 | giving up keeps the counts of both layers of memos exact |
| Dispatching.Dispatcher.OnSessionAnswer | extension/src/session.ts:189-251 | any answer to a session restore, in its epoch or out of it, keeps what the machine promises |
| Dispatching.Dispatcher.OnAttachedAnswer | extension/src/attached.ts:109-129 | the same for the restore of the attachments |
| Dispatching.Dispatcher.OnAttemptAnswer | extension/src/dispatch.ts:317-334 | the same for an attempt of the preamble and its pool drop |
| Dispatching.Dispatcher.OnPrepared | extension/src/dispatch.ts:246-262 | a command that goes past `prepare` finds its attempt finished, all in the epoch, and pool and attachments apart |
| Dispatching.Dispatcher.OnLock | extension/src/dispatch.ts:259-269 | whoever is inside after the lock opened is inside alone |
| Dispatching.Dispatcher.OnAnswer | extension/src/handlers/window.ts:46-142 | after any stretch of a handler the pool is within MAX_TABS and shares no tab with the attachments |
| Dispatching.Dispatcher.OnTabEvent | extension/src/session.ts:253-286 | a listener that fires while handlers and restores wait keeps what they rely on |
| Dispatching.Dispatcher.React | extension/src/dispatch.ts:238-334 | for any next event the objects take the machine's step and the invariant holds of them again |
| Dispatching.Live | extension/src/dispatch.ts:116-334 | the objects after any run are the machine after it: the pool is bounded, and a command past `prepare` has its preamble finished and pool and attachments apart |
| Tabs.Session.OnTabRemoved | extension/src/session.ts:262-277 | the tab leaves the pool and an active tab that went is replaced by the last |
| Tabs.Session.OnWindowRemoved | extension/src/session.ts:253-260 | only the session's own window clears it |
| Tabs.Session.OnTabActivated | extension/src/session.ts:279-286 | only a pool tab of the session's window becomes active |
| Tabs.AttachedTabs.DropPoolTabs | extension/src/attached.ts:77-88 | exactly the pool tabs go from the attachments, and the answer tells whether any did |
| Tabs.ListenersShrink | extension/src/session.ts:253-286 | no browser event adds a tab to the pool or to the attachments |
| Pool.RunKeeps | extension/src/dispatch.ts:256-269 | lock, pool and attachments stay consistent in every interleaving of commands, restores and browser events |
| Pool.PoolStaysSound | extension/src/handlers/window.ts:72-106 | in every run the pool never exceeds MAX_TABS and, once a command passed its preamble, shares no tab with the attachments |
| Pool.StateCommandsTakeTurns | extension/src/lock.ts:14-28 | one state command is inside at a time, those acquired earlier have left, and a queue never stands still with nobody to go |
| Pool.ExpiredWaiterNeverEnters | extension/src/dispatch.ts:264-266 | a command that expired in the queue is never inside after any step, and its turn leaves memory as it was |
| Pool.ExpiredWaiterStaysOut | extension/src/dispatch.ts:264-266 | the same from any prefix of a run to its end |
| Pool.BeginIsSafe | extension/src/handlers/attached.ts:13-33 | the first stretch of each handler keeps the pool bounded and apart from the attachments |
| Pool.OnwardIsSafe | extension/src/handlers/window.ts:72-142 | so does every later stretch, given what still holds when the handler resumes |
| Handlers.Isolated | extension/src/dispatch.ts:256-269 | in every run a handler that is inside finds memory as its own events and the tab listeners left it, whatever else goes on, up to its release of the lock |
| Handlers.CommandsRunAlone | extension/src/dispatch.ts:256-269 | so a command that the lock lets in makes of memory what it would make of it alone, as long as no listener fires |
| Handlers.CreateWindowAdds | extension/src/handlers/window.ts:72-106 | one whole createWindow on a session whose window is there: the pool is the tabs that were there in order, without the oldest exactly when they were MAX_TABS, then the new tab, which is active; session and attachments stay |
| Handlers.CreateWindowFails | extension/src/handlers/window.ts:72-106 | when the tab cannot be made nothing joins the pool and a tab evicted for it stays out |
| Handlers.CreateWindowRefuses | extension/src/handlers/window.ts:79-84 | a request for the other mode changes nothing |
| Handlers.CreateWindowOpens | extension/src/handlers/window.ts:108-140 | without a session, or with one whose window is gone, a new one is opened with one tab, which is active |
| Handlers.CloseTabCloses | extension/src/handlers/tabs.ts:69-98 | an attached tab is forgotten, a pool tab leaves the pool in order and the last takes over if it was active, any other changes nothing |
| Handlers.CloseWindowEnds | extension/src/handlers/tabs.ts:100-129 | the session ends and the attachments stay |
| Handlers.AttachTabAttaches | extension/src/handlers/attached.ts:13-33 | exactly a tab that exists and is not of the pool is attached |
| Handlers.DetachTabDetaches | extension/src/handlers/attached.ts:35-38 | that tab alone is forgotten |
| Handlers.PoolMoves | extension/src/handlers/window.ts:96-106 | in every run the pool changes only by these events and in these ways: a tab is evicted only from a full pool and only its first, one joins only at the end, and the order never changes |
| Handlers.ListenersTell | extension/src/session.ts:253-286 | what each listener makes of pool, active tab and attachments, exactly |
| Restores.EntriesAreThosePut | extension/src/attached.ts:95-129 | in every run the attachments are exactly the ids that a restore in its epoch found to exist or attachTab attached, and that nothing took out since |
| Restores.AttachedRestoreIsExact | extension/src/attached.ts:109-129 | a restore that finished looked up every stored id and put among the attachments exactly those whose tab it was told exists |
| Restores.PutIsPut | extension/src/attached.ts:112-119 | each of those by one of its own steps |
| Restores.PutStays | extension/src/attached.ts:95-103 | and it stays until a step takes it out |
| Restores.SessionRestoreIsExact | extension/src/session.ts:189-251 | a restore done in its epoch looked up the window of the session it found stored and, if it is there, opened a session of the last MAX_TABS of the tabs that come back; none opens any other |
| Restores.RestoredSessionIsHeld | extension/src/session.ts:236-246 | from that step on memory holds the stored window, those tabs and the last of them as the active one |
| Restores.PassedCommandsFindThemRestored | extension/src/dispatch.ts:317-334 | a command past `prepare` has both restores of its attempt behind it, as exact as that |
| Tabs.RestoredInOrder | extension/src/session.ts:215-228 | the tabs that come back: the stored ones still in the window in stored order, then, in a window of its own, each other tab of it once in window order |
| Progress.AnswersMoveRestores | extension/src/session.ts:189-251 | every answer takes a restore further, in its epoch or out of it, until it has settled |
| Progress.SettledRestoresMoveAttempts | extension/src/dispatch.ts:317-334 | an attempt moves on once what it awaits settled: to failure, to its end if its epoch is over, or to its next stage |
| Progress.SettledAttemptsLetCommandsGo | extension/src/dispatch.ts:238-258 | a command whose attempt settled goes past `prepare` unless the attempt failed or the deadline fired |
| Progress.CommandsJoin | extension/src/dispatch.ts:300-323 | a new command waits for the attempt there is or for one of its own, and the startup restore is nobody's to wait for |
| Progress.CommandsCanGetThrough | extension/src/dispatch.ts:238-334 | from every reachable state a waiting command that has not expired and whose attempt met no failure can get through the preamble |
| Progress.HandlersMoveOn | extension/src/handlers/window.ts:46-142 | every answer a handler gets, and the tab it asked for, takes it further |
| Progress.PassedCommandsQueue | extension/src/dispatch.ts:259-262 | a state command that passed takes its place in the queue with its own plan, and any other takes none |
| Capture.RunKeeps | extension/src/handlers/screenshot.ts:284-372 | one un-evicted holder at most, and what the flags say of the page, in every run |
| Capture.OneLive | extension/src/handlers/screenshot.ts:284-315 | two holders that are both un-evicted are the same |
| Capture.DutyIsNeverLost | extension/src/handlers/screenshot.ts:309-372 | while badges are on the page or on their way, an un-evicted holder is bound to clear them or the next holder inherits the duty |
| Capture.NoForeignBadges | extension/src/handlers/screenshot.ts:345-368 | no un-evicted plain capture shows badges, and an annotated one shows only its own |
| Capture.RenderShowsBadges | extension/src/handlers/screenshot.ts:352-360 | an un-evicted annotated capture has asked for its badges by the time it renders, and its image shows them and only them unless the document went since; one of a plain capture shows none |
| Capture.ImagesShowBadges | extension/src/handlers/screenshot.ts:352-360 | so it is with every image of every run |
| Capture.RequestsQueueAndDeadlinesEvict | extension/src/handlers/screenshot.ts:284-328 | a capture queues as it was asked for; a deadline in the section takes the lock from its holder and passes its duty on |
| Capture.CapturesMoveOn | extension/src/handlers/screenshot.ts:329-372 | the lock lets a capture into its section or, too late, out of it, and each message handled or image made takes it further |
| Capture.EvictedOnlyEnds | extension/src/handlers/screenshot.ts:316-328 | from its eviction on a capture sends no message and starts no rendering |
| Capture.TabCapture.EvictHolder | extension/src/handlers/screenshot.ts:309-315 | eviction hands the duty on exactly when the section was entered with badges of its own or inherited |
| Capture.TabCapture.EnterSection | extension/src/handlers/screenshot.ts:335-353 | a holder past its deadline leaves at once; any other takes over a duty left behind |
| Capture.TabCapture.Continue | extension/src/handlers/screenshot.ts:352-368 | each stretch after an await of the critical section |
| Capture.TabCapture.Leave | extension/src/handlers/screenshot.ts:369-372 | the lock is released at the end, once |
| Capture.TabCapture.OnDeadline | extension/src/handlers/screenshot.ts:309-328 | after the timer the capture is no live holder, and somebody is still bound to clear its badges |
| Capture.TabCapture.OnLock | extension/src/handlers/screenshot.ts:335-353 | a capture that the lock let in is the one live holder |
| Capture.TabCapture.OnAnswer | extension/src/handlers/screenshot.ts:352-372 | whatever a holder does after an await, the duty stays with somebody |
| Capture.TabCapture.OnPage | extension/src/handlers/screenshot.ts:345-368 | every image so far of an un-evicted capture shows its own badges or none |
| Capture.TabCapture.React | extension/src/handlers/screenshot.ts:284-372 | for any next event the tab takes the machine's step and its invariant holds again |
| Tee.RunKeeps | extension/src/har-recorder.ts:429-508 | the budget, every body and every filter stay consistent for any events, in any order |
| Tee.PageSeesTheChannel | extension/src/har-recorder.ts:446-508 | the page has exactly the channel's bytes and its end, at every point of every run, and no filter call is made where Firefox throws |
| Tee.StoredIsPrefix | extension/src/har-recorder.ts:451-475 | the stored chunks are a prefix of the body within the cap; complete means all of it, truncated a strict prefix with size the bytes seen |
| Tee.BudgetIsConserved | extension/src/har-recorder.ts:429-470 | budget and all stored bytes add up to the initial budget, and the budget is never negative |
| Tee.DroppedOnlyWhenSpent | extension/src/har-recorder.ts:430-466 | a response body is dropped only when the budget is spent |
| Tee.HopsAreCaptured | extension/src/har-recorder.ts:429-445 | while there is budget every response is captured through a filter, or marked with an error; without, it counts as dropped |
| Tee.ChunksAreKept | extension/src/har-recorder.ts:451-470 | of a chunk everything is kept that cap and budget have room for, and the filter lets go exactly when that is not all |
| Tee.StoppedBodiesAreComplete | extension/src/har-recorder.ts:471-476 | a channel that stops while its filter transfers has its body complete, all the channel sent, from then on in every run |
| Tee.OnlyTheseAreComplete | extension/src/har-recorder.ts:471-476 | a body is complete exactly when its filter was closed at the channel's stop |
| Tee.FittingBodiesComplete | extension/src/har-recorder.ts:446-476 | a body that fits cap and budget is kept whole and complete, in however many chunks it comes |
| Tee.FailedFiltersTell | extension/src/har-recorder.ts:477-482 | a filter that fails marks its body and lets the page go on from the channel |
| Tee.FlagExcludesPayload | extension/src/har-recorder.ts:461-466 | a body flagged as dropped holds nothing |
| Tee.OnDataOk | extension/src/har-recorder.ts:446-470 | one chunk: written through first, stored as far as cap and budget go, the filter disconnected when some of it was not |
| Recorder.CutForm | extension/src/har-recorder.ts:715-730 | the longest run of pairs that fits, its UTF-8 size, and whether any pair was left out |
| Recorder.CutField | extension/src/har-recorder.ts:719-727 | the same within one field |
| Recorder.CutRaw | extension/src/har-recorder.ts:732-756 | every part kept and trimmed to the room the parts before it left, so exactly the first `limit` bytes of all of them, and whether bytes were left out |
| Recorder.CutBody | extension/src/har-recorder.ts:705-713 | the prefix of an error, a form or raw parts that fits, with its size and whether it is less than all |
| Recorder.HarRecording.StoreBody | extension/src/har-recorder.ts:650-662 | a payload is dropped whole once the budget is spent; otherwise what is kept is the prefix that cap and budget have room for, and the budget pays its size |
| Recorder.HarRecording.CaptureResponse | extension/src/har-recorder.ts:429-443 | a filter is opened unless the budget is spent or Firefox refuses |
| Recorder.HarRecording.BeforeRequest | extension/src/har-recorder.ts:396-422 | a hop with the prefix kept of its request body, paid for, and its filter |
| Recorder.HarRecording.OnData | extension/src/har-recorder.ts:446-470 | the data handler is one step of the tee |
| Recorder.HarRecording.OnStop | extension/src/har-recorder.ts:471-476 | the stop handler closes the filter and marks the body complete unless the recording stopped |
| Recorder.HarRecording.ReleaseFilters | extension/src/har-recorder.ts:489-508 | every started filter is disconnected, one not started on its start, and the recording is stopped |
| Recorder.HarRecording.OnBeforeRequest | extension/src/har-recorder.ts:269-273 | one more hop keeps the budget conserved and every hop's account of its request body right |
| Recorder.HarRecording.OnChannel | extension/src/har-recorder.ts:446-482 | any event of any channel keeps them, and the page goes on seeing exactly the channel |
| Recorder.HarRecording.OnStopHar | extension/src/har-recorder.ts:207-224 | so does stopping, after which nothing is stored |
| Hops.EndedHopsAreFrozen | extension/src/har-recorder.ts:514-648 | a hop that ended keeps its end, error and redirect whatever comes, and every hop keeps its page |
| Hops.HopsAndPages | extension/src/har-recorder.ts:615-648 | a hop is pending exactly when nothing ended it, page ids are distinct, and every hop's page is recorded |
| Hops.SidesBindOnce | extension/src/har-recorder.ts:348-386 | each side of a page takes one event at most, the page already loaded takes none, and no two requests share a page |
| Hops.OneRequestOnePage | extension/src/har-recorder.ts:374-393 | all hops of a top-level request are on the one page its navigation is bound to, however often it redirects |
| Hops.OneNavigationOnePage | extension/src/har-recorder.ts:353-386 | the request, the before and the commit of one navigation, in whatever order, open one page and are all on it, and so is its hop |
| Hops.SidesShare | extension/src/har-recorder.ts:359-364 | two sides of one url are on one page unless it had the second already |
| Hops.SecondBeforeIsIgnored | extension/src/har-recorder.ts:356-359 | a before repeated ahead of the commit changes nothing |
| Hops.RedirectKeepsThePage | extension/src/har-recorder.ts:374-383 | after a redirect the commit of the new url lands on the request's page |
| Hops.SubresourcesStayOnTheirPage | extension/src/har-recorder.ts:388-393 | a request that is no navigation starts on the latest page and stays on its page while it goes on |
| Hops.EndsTheLatestHop | extension/src/har-recorder.ts:510-520 | an ending event ends the latest hop of its request if that is open and of its url, with its stamp, error and redirect, and changes no other |
| Hops.HopLog.Bind | extension/src/har-recorder.ts:353-372 | the latest page if it waits for this side of this url, else a new one |
| Hops.HopLog.PageOfNavigation | extension/src/har-recorder.ts:374-386 | a redirect stays on the page of its request |
| Hops.HopLog.AddHop | extension/src/har-recorder.ts:388-422 | a hop on the page of its navigation, of its request's previous hop, or the latest |
| Hops.HopLog.Navigated | extension/src/har-recorder.ts:252-257 | the latest page has this side of a navigation, and still no side of any page took two |
| Hops.HopLog.OnBeforeRequest | extension/src/har-recorder.ts:270-273 | one more hop, a top-level one on its navigation's page; the page of every hop and navigation stays |
| Hops.HopLog.OnEnd | extension/src/har-recorder.ts:615-648 | only the open hop of that url ends; an ended hop is frozen and every page stays |
| Utf8.LengthIsEncoded | extension/src/reply.ts:11-27 | the length is the number of bytes the encoding of RFC 3629, section 3, has |
| Utf8.Utf8Length | extension/src/reply.ts:11-27 | the index loop computes the length of the encoding, a lone surrogate taking the bytes of U+FFFD |
| Utf8.Additive | extension/src/reply.ts:11-27 | lengths add up exactly, except where a cut splits a surrogate pair, which then costs two bytes more |
| Json.PrintWellFormed | extension/src/reply.ts:33-36 | JSON output holds no lone surrogate, so the size of a value is the sum of its parts |
| Json.ItemReplaced | extension/src/har.ts:893-895 | replacing one item changes the size of an array by the difference of the two |
| Json.MemberReplaced | extension/src/har.ts:894-895 | the same for the value of a member |
| Json.DigitsGrow | extension/src/har.ts:871-875 | a larger counter never takes fewer digits |
| Json.StringReadsBack | extension/src/cookies.ts:279-287 | a JSON string literal gives back its string, whatever follows it |
| HarLog.CountBodies | extension/src/har.ts:779-786 | the loop counts the flagged bodies of responses and requests |
| HarLog.ShellFlags | extension/src/har.ts:830-847 | the shell flags exactly the bodies it empties, reports their number, and leaves no body both flagged and filled |
| HarLog.ReplyChange | extension/src/har.ts:893-895 | swapping one entry and the counter changes the reply by the change of both |
| HarLog.Candidates | extension/src/har.ts:856-869 | the loop and the sort give the queue of the specification |
| HarLog.QueueIsSorted | extension/src/har.ts:856-869 | the queue holds exactly the entries a drop makes smaller, each once, the largest saving first |
| HarLog.FittedEntry | extension/src/har.ts:881-895 | an entry no dropped candidate names is unchanged and a named one is its shell |
| HarLog.NextSize | extension/src/har.ts:894-895 | one more drop saves no more than its saving, so the running size is a lower bound |
| HarLog.Shrink | extension/src/har.ts:885-899 | the loop stops at the first prefix that fits, or after the last when none does |
| HarLog.FitLog | extension/src/har.ts:876-901 | the log with the shortest prefix of the queue dropped whose reply fits; it fails if and only if no prefix fits |
| HarLog.FittingKeepsTheCount | extension/src/har.ts:893-894 | droppedBodies keeps telling the number of flagged bodies |
| HarLog.BuildLogIsSound | extension/src/har.ts:788-815 | a log counts its dropped bodies right, flags exactly the responses and requests that lost theirs, and none that has a payload |
| HarBodies.ContentIsShown | extension/src/har.ts:490-520 | the content of a response shows its record key by key: the text whenever there is a body, its encoding, what it lacks and why |
| HarBodies.PostIsShown | extension/src/har.ts:410-483 | the post data of a request shows exactly what was kept of its body |
| HarBodies.ShellShows | extension/src/har.ts:830-847 | an emptied entry flags each body it lacks, shows the other one and keeps every other member |
| HarBodies.DropsAreTold | extension/src/har.ts:669-683 | a budget drop is told of exactly for a response that came and could have a body |
| HarExport.RecordsAreSound | extension/src/har-recorder.ts:758-776 | in every state the recorder can be in, no hop handed over is marked dropped and has a body |
| HarExport.RedactionHides | extension/src/har.ts:627-652 | no credential header and no cookie shows its value; every other member, header and attribute is as it was |
| HarExport.CredentialsAreSensitive | extension/src/network.ts:28-38 | the six credential headers, in whatever case, are shown with the stand-in value |
| HarExport.RedactionKeepsFlags | extension/src/har.ts:637-652 | redaction changes no count of dropped bodies |
| HarExport.DroppedBodiesAreTold | extension/src/handlers/har.ts:75-83 | for every run of the recorder, redacted or not, and after any fitting: droppedBodies is the number of flagged bodies and no flagged body has a payload |
| HarExport.HarOf | extension/src/handlers/har.ts:75-83 | the reply fits, counts its dropped bodies right and, redacted, shows no credential; it fails if and only if no prefix of drops fits; its entries are those of the hops in the given order, whole or emptied, each showing as text exactly the form of the stored bytes and the kept request body, or flagging it |
| Host.RunKeeps | cli/internal/host/host.go:289-332 | table, id sets, timers, replies and writes agree at every unlock of every run |
| Host.TableAgrees | cli/internal/host/host.go:413-416 | a request is in the table under a client if and only if its id is in that client's set |
| Host.OneWinner | cli/internal/host/host.go:501-515 | every request is in the table or was won once, by a reply, its timeout, a refusal or a disconnect, and the winner never changes |
| Host.OneReply | cli/internal/host/host.go:464-499 | `reply` is called once for each request that was won so, for its own client, and for no other request |
| Host.OneAnswer | cli/internal/host/host.go:517-550 | a request gets at most one line, written to the client that sent it and only when a reply, its timeout or a refusal won it; once that winner's `reply` has come to its write there is exactly one, unless the encoding failed or the client was closed |
| Replies.ReplyTakes | cli/internal/host/host.go:489-515 | a reply to a pending request is its winner: the request leaves the table, its client's set and the armed timers, and one answer to its client starts; a reply to any other id changes nothing |
| Replies.TimeoutTakes | cli/internal/host/host.go:464-476 | so does a timer that fires first; one that finds nothing only has run |
| Replies.RefusalTakes | cli/internal/host/host.go:451-462 | so does the refusal of a frame too large, answered before the reader goes on |
| Replies.CloseTakesAll | cli/internal/host/host.go:612-628 | a close ends every pending request of its client and of no other |
| Replies.FirstEventWins | cli/internal/host/host.go:489-515 | in every run the winner of a request is the first of these events that came while it was pending, and it is pending until one comes |
| Replies.ForwardGoesThrough | cli/internal/host/host.go:406-460 | a request that is forwarded undisturbed is in the table under its client with its timer armed, and the reader goes on |
| Replies.ForwardStopsLate | cli/internal/host/host.go:422-428 | a request taken while it was forwarded leaves no armed timer |
| Replies.ArmedTimersEnd | cli/internal/host/host.go:464-476 | an armed timer that goes off ends its request |
| Replies.AnswersAreWritten | cli/internal/host/host.go:517-541 | a winner's answer is written as soon as nobody else writes, unless its client is closed |
| Replies.FailedWritesClose | cli/internal/host/host.go:541-549 | a failed write closes its client and ends all its requests |
| Replies.ClosesEnd | cli/internal/host/host.go:606-637 | a client that anybody closes is closed, with nothing left of it in the table |
| Replies.HangupReturns | cli/internal/host/host.go:289-332 | a client that hangs up is closed and its `serve` returns |
| Host.TimersMatch | cli/internal/host/host.go:418-428 | past `forward`'s second section a pending request has its timer armed or firing, and an armed timer has a pending request |
| Host.NothingOutlivesServe | cli/internal/host/host.go:289-332 | once `serve` returned, nothing pending, no armed timer and no counted write is left of the client, then and ever after |
| Host.Table.Forward | cli/internal/host/host.go:410-416 | the first section of `forward` registers the request with its client |
| Host.Table.AfterFunc | cli/internal/host/host.go:418-420 | the timer is armed outside the mutex |
| Host.Table.KeepStop | cli/internal/host/host.go:422-428 | the second section keeps the timer's stop, or stops the timer of a request that is gone |
| Host.Table.TakeLocked | cli/internal/host/host.go:501-515 | a request leaves the table, its client's set and its timer, or there is none |
| Host.Table.ClaimReply | cli/internal/host/host.go:489-499 | a reply takes a pending request out of the table, is its winner and starts one answer to its client; otherwise nothing changes |
| Host.Table.ExpireRequest | cli/internal/host/host.go:464-476 | a timeout wins a pending request and answers it |
| Host.Table.RefuseFrame | cli/internal/host/host.go:451-462 | an oversize frame wins its own request, if it is still there |
| Host.Table.EndRequests | cli/internal/host/host.go:615-623 | the loop of `closeClient` drops every request of the client and stops its timer |
| Host.Table.CloseClient | cli/internal/host/host.go:612-628 | the section of `closeClient` leaves nothing of the client in the table |
| Host.Table.LockForWrite | cli/internal/host/host.go:517-541 | nothing is written to a closed client, and a write is counted under the connection's mutex |
| Host.Table.UnlockAfterWrite | cli/internal/host/host.go:536-549 | a client that failed a write is closed before its count goes down |
| Host.Table.SetClosed | cli/internal/host/host.go:635-637 | closed is set under the mutex, after the requests went |
| SocketOwner.RunKeeps | cli/internal/ipc/ipc.go:65-134 | what each process may rely on between two system calls, in every run of any number of them |
| SocketOwner.NoLiveFileUnlinked | cli/internal/ipc/ipc.go:182-210 | a host that unlinks the file at the path unlinks a socket no process has open, holding the setup lock |
| SocketOwner.OneOwner | cli/internal/ipc/ipc.go:65-98 | the file at the path belongs to one process at most, and one process is inside the lock |
| SocketOwner.OneListener | cli/internal/ipc/ipc.go:55-64 | unless the file of a listener was removed from outside there is one live listener at most, and the path leads to it from the end of its `Listen` to its `Close`, always if only files nobody had open were removed |
| SocketOwner.RemovalIsSafeExactly | cli/internal/ipc/ipc.go:55-64 | a removal from outside leaves at most one listener in every run that follows if and only if no host has the file for its listener when it strikes, the same being true of the removals before |
| SocketOwner.RemovalLetsAnotherIn | cli/internal/ipc/ipc.go:182-210 | from any state in which a host listens, its file removed, some run of host steps ends with two listeners |
| SocketOwner.RemovalAllowsTwo | cli/internal/ipc/ipc.go:55-64 | a concrete run: after a removal from outside two hosts listen at once |
| SocketOwner.OtherFilesStay | cli/internal/ipc/ipc.go:197-199 | a file at the path that is no socket is never removed |
| SocketOwner.TakesOver | cli/internal/ipc/ipc.go:182-210 | a host that died at any step keeps nobody out: the next one takes the path over |
| SocketOwner.SecondHostsGiveUp | cli/internal/ipc/ipc.go:182-210 | beside a live listener, or a file that is no socket, a host ends with its own error and leaves everything as it was |
| SocketOwner.FailedCallsEnd | cli/internal/ipc/ipc.go:65-98 | a call that fails ends `Listen` with its own error, gives up socket and lock and leaves the path alone; a `Close` without the lock leaves the file |
| SocketOwner.CloseUnlinksOwn | cli/internal/ipc/ipc.go:116-134 | a close with the lock free takes away the file it made and no other |
| SocketOwner.Hosts.AcquireSetupLock | cli/internal/ipc/ipc.go:160-175 | the lock, for `Listen` and `Close`; a `Close` without it leaves the file |
| SocketOwner.Hosts.ReleaseSetupLock | cli/internal/ipc/ipc.go:177-180 | the lock is given back at the end of either |
| SocketOwner.Hosts.StatStale | cli/internal/ipc/ipc.go:187-199 | nothing there, something else there, or a socket to probe |
| SocketOwner.Hosts.ProbeStale | cli/internal/ipc/ipc.go:201-227 | only a refused dial counts as stale |
| SocketOwner.Hosts.RemoveStale | cli/internal/ipc/ipc.go:205-209 | the stale file goes, or `Listen` fails |
| SocketOwner.Hosts.Bind | cli/internal/ipc/ipc.go:76-79 | bind makes the file, and fails on one that is there |
| SocketOwner.Hosts.SetUp | cli/internal/ipc/ipc.go:81-97 | listen, chmod and the identity; a failure closes the socket and leaves the file |
| SocketOwner.Hosts.Close | cli/internal/ipc/ipc.go:116-126 | `Close` takes effect once |
| SocketOwner.Hosts.UnlinkOwn | cli/internal/ipc/ipc.go:128-130 | the file is unlinked only when it is the one this listener made |
| Framing.HeaderRoundTrip | cli/internal/nativemsg/nativemsg.go:75-133 | the length header and its number are inverses in either byte order |
| Framing.FramesReadBack | cli/internal/nativemsg/nativemsg.go:66-107 | whole frames read back in order, an oversize one as one report, and what follows is read as on its own |
| Framing.RoundTrip | cli/internal/nativemsg/nativemsg.go:63-65 | any frames, and nothing else, end in a clean EOF |
| Framing.Truncated | cli/internal/nativemsg/nativemsg.go:63-95 | any cut yields the whole frames before it, then EOF if and only if it is on a frame boundary |
| Framing.EveryStream | cli/internal/nativemsg/nativemsg.go:66-94 | any bytes at all are whole frames and a part of one, read as such; the end is clean exactly when the part is empty |
| Framing.Reader.ReadFull | cli/internal/nativemsg/nativemsg.go:67-67 | reads of any size fill the buffer or exhaust the stream |
| Framing.Reader.Discard | cli/internal/nativemsg/nativemsg.go:97-107 | an oversize payload is read away to its last byte and reported, or the stream ended inside it |
| Framing.Reader.Read | cli/internal/nativemsg/nativemsg.go:66-94 | the next payload and the rest of the stream, as the specification has them |
| Framing.Writer.WriteFull | cli/internal/nativemsg/nativemsg.go:148-163 | short writes add up to the whole frame, or to a part of it and an error |
| Framing.Writer.WriteFrame | cli/internal/nativemsg/nativemsg.go:121-144 | a payload over the limit writes nothing; any other becomes its frame, or a part of it and an error |
| Frames.MatchingIsExact | extension/src/frames.ts:354-366 | the observed frames a criterion is after, each once, by ascending id |
| Frames.RunKeeps | extension/src/frames.ts:102-316 | watches, records, frames and waits stay consistent in every run |
| Frames.ObservedFits | extension/src/frames.ts:285-316 | every observed frame has an id other than 0 and a url its watch is for |
| Frames.WaitsEndOnce | extension/src/frames.ts:182-216 | a wait is outstanding, with a live timer and no matching frame observed, or was settled exactly once |
| Frames.FoundIsTrue | extension/src/frames.ts:338-345 | `found` names at least one frame and only such as were asked for |
| Frames.EventsSettle | extension/src/frames.ts:122-138 | an outstanding wait ends by its watch's end, told apart from the tab's close, by its timer, or with the one frame just admitted if it is for that, and by nothing else |
| Frames.AwaitSettles | extension/src/frames.ts:188-216 | a new wait is answered at once when its tab is not watched, a frame is there or no time is left, and is outstanding otherwise |
| Frames.FirstEventSettles | extension/src/frames.ts:182-216 | in every run a wait ends at once or by the first event that can from then on, and so |
| Frames.WatchesTell | extension/src/frames.ts:102-138 | a watch starts empty, records matching documents, loses the records of others and of failed injections, and its end takes everything |
| Frames.AdmittedIsObserved | extension/src/frames.ts:300-316 | an admitted port is observed from then on, with the url and parent on record |
| Frames.RemovedFramesGo | extension/src/frames.ts:166-175 | a frame goes by its own port's disconnect and by a `forget` aimed at that port or at none |
| Frames.EntriesLeave | extension/src/frames.ts:318-325 | an entry goes only by its own port, a `forget` aimed at it or at all, its watch, or a newer document |
| Frames.AdmittedWasLoaded | extension/src/frames.ts:39-46 | an observed frame finished its document under the watch that lists it, never under an earlier one |
| Frames.AdmittedIsCurrent | extension/src/frames.ts:223-242 | a port that is admitted was opened by the last document its frame finished, with a url the tab is watched for |
| Frames.FrameRegistry.DoWatch | extension/src/frames.ts:102-115 | a second watch of a tab is refused |
| Frames.FrameRegistry.DoUnwatch | extension/src/frames.ts:122-138 | the watch goes, its waits end, and the number of frames released is told |
| Frames.FrameRegistry.OnTabRemoved | extension/src/frames.ts:327-336 | the watch goes and its waits end as closed |
| Frames.FrameRegistry.ForgetFrame | extension/src/frames.ts:166-175 | a given port guards the entry |
| Frames.FrameRegistry.FrameDisconnected | extension/src/frames.ts:320-325 | only the port on record counts |
| Frames.FrameRegistry.AwaitFrame | extension/src/frames.ts:188-216 | answered at once, or enrolled with a timer |
| Frames.FrameRegistry.TimerFired | extension/src/frames.ts:211-213 | the wait ends as timed out |
| Frames.FrameRegistry.FrameLoaded | extension/src/frames.ts:223-242 | a matching document is recorded before its injection; a frame that left the pattern loses its record |
| Frames.FrameRegistry.OnInjectFailed | extension/src/frames.ts:264-276 | only the record this injection was made for goes |
| Frames.FrameRegistry.Connected | extension/src/frames.ts:279-316 | admitted exactly under the conditions of `admit`, and the waits are told |
| Frames.FrameRegistry.NotifyWaits | extension/src/frames.ts:338-345 | the loop settles exactly the waits that match |
| Frames.FrameRegistry.EndWaits | extension/src/frames.ts:347-351 | the loop settles every wait |
| Link.PortOrTimer | extension/src/port.ts:71-123 | a port and a reconnect never coexist, a stable timer needs a port, and without one nothing is pending |
| Link.SendsEndOnce | extension/src/port.ts:99-123 | a `send` is pending with its timer live, or was settled once and its timer is gone |
| Link.OutcomeIsFinal | extension/src/port.ts:99-123 | how a `send` ended never changes |
| Link.OutcomeIsEarned | extension/src/port.ts:107-198 | a `send` ends only for what happened: an answer to its id, its own timer, a failed post, a disconnect |
| Link.EventsSettle | extension/src/port.ts:99-198 | an answer settles its pending request, resolved on success and refused otherwise; so do its timer and the loss of the port, and nothing else; a new one is pending unless it cannot be sent |
| Link.FirstEventSettles | extension/src/port.ts:99-198 | in every run a `send` ends by the first event that can, and in that way |
| Link.BackoffIsBounded | extension/src/port.ts:209-230 | between resets at most ten reconnects are scheduled, 104886.71875 ms in all at most |
| Link.StabilityResets | extension/src/port.ts:84-95 | a new connection keeps the counter until its timer fires or its own first message comes; then it starts over |
| Link.TriesTenTimes | extension/src/port.ts:209-230 | after a stable connection each delay is tried in turn; the tenth failure leaves no timer and a counter at zero |
| Link.NativeLink.OnConnect | extension/src/port.ts:71-96 | a port is taken and the reconnect timer goes, or a reconnect is scheduled |
| Link.NativeLink.OnSend | extension/src/port.ts:99-123 | rejected without a port, pending with a timer, or rejected when the port throws |
| Link.NativeLink.OnReceive | extension/src/port.ts:134-174 | a message of the current port makes it stable; an answer settles its request |
| Link.NativeLink.OnTimeout | extension/src/port.ts:107-111 | a request still pending is rejected |
| Link.NativeLink.RejectAll | extension/src/port.ts:192-198 | the loop rejects every pending request and clears its timer |
| Link.NativeLink.OnDisconnect | extension/src/port.ts:176-190 | only the current port counts; its requests end and a reconnect is scheduled |
| Link.NativeLink.ScheduleReconnect | extension/src/port.ts:209-230 | the next delay, or giving up with the counter reset |
| Link.NativeLink.OnReconnect | extension/src/port.ts:226-229 | the timer fires and connects |
| Link.NativeLink.OnStable | extension/src/port.ts:200-207 | the counter is reset while the stable timer runs |
| CookieKeys.KeyIsIdentity | extension/src/cookies.ts:275-288 | two key strings are equal if and only if the seven fields that tell cookies apart are, whatever characters they hold |
| CookieKeys.TombstoneIsExact | extension/src/cookies.ts:253-273 | the expired cookie is stored under its target's identity if and only if the target is not foreign to its partition site without the ancestor flag |
| CookieKeys.SetsAreNeverForeign | extension/src/cookies.ts:325-356 | a cookie stored by any set has the flag when its host is outside its site, so its tombstone hits it |
| CookieKeys.MissedTombstone | extension/src/cookies.ts:253-273 | a concrete cookie without the flag, whose tombstone lands beside it |
| CookieKeys.TombstonesAreTaken | extension/src/cookies.ts:247-273 | a tombstone is a set Firefox does not turn down, for the cookie's own name, path and partition, with a date long past |
| CookieKeys.ImportIsExact | extension/src/cookies.ts:170-192 | a cookie written as exported is stored under the identity it had, under the same condition |
| CookieKeys.StoredHostOfCanonical | extension/src/cookies.ts:299-310 | the host stored for a canonical cookie's details is the cookie's own, in all three forms |
| Cookies.Store.ExpireAll | extension/src/handlers/cookies.ts:124-131 | the loop overwrites each target, exactly those go for which the store obeys, and what each set threw is kept |
| Cookies.Report | extension/src/handlers/cookies.ts:133-142 | the loop splits the targets, in order, by whether they remain |
| Cookies.Store.DeleteCookies | extension/src/handlers/cookies.ts:113-144 | every target is deleted or failed, by whether the store still has it, and every other cookie is untouched; a target not foreign to its site is deleted exactly when the store obeyed its set |
| CookieImport.Send | extension/src/handlers/cookies.ts:200-219 | malformed, expired and refused entries fail; the others are sent |
| CookieImport.PartitionSites | extension/src/handlers/cookies.ts:171-185 | one answer for each site asked for |
| CookieImport.Place | extension/src/handlers/cookies.ts:223-239 | an entry of an unknown site fails, and so does one that a later entry for the same cookie follows |
| CookieImport.ImportCookies | extension/src/handlers/cookies.ts:195-249 | imported and failed account for each entry once, each failure with its own reason; imported are exactly the last entries whose value the store has |
| CookieImport.ReasonsTell | extension/src/handlers/cookies.ts:195-249 | an entry is imported exactly when Firefox took it, knows its site, no later entry replaced it and the store has its value; else the first of these that fails is its reason |
| CookieImport.ExportsImport | extension/src/handlers/cookies.ts:195-249 | exported cookies import back whole into a store that keeps what is set, each as the one it was |
| TagPath.TagPathOf | extension/src/content/unique-selector.ts:63-75 | the walk up prints the path from body or the document element, and none for a detached tree |
| TagPath.PathMatchesItsElement | extension/src/content/unique-selector.ts:53-75 | a path matches the element it was printed for, in any tree |
| TagPath.PathIsUnique | extension/src/content/unique-selector.ts:53-75 | if one element of the document matches the root segment, the path matches no other element than its own |
| TagPath.UniqueIffRootOnce | extension/src/content/unique-selector.ts:53-75 | all paths printed from a root are unique if and only if its own segment matches it alone |
| TagPath.TagOnceIsEnough | extension/src/content/unique-selector.ts:53-60 | so they are when the root tag occurs once |
| TagPath.PositionIsEnough | extension/src/content/unique-selector.ts:53-60 | a document whose root tag occurs twice and whose paths are unique all the same |
| TagPath.TwoBodies | extension/src/content/unique-selector.ts:63-75 | a concrete tree in which the path printed for an element from document.body matches a second one |
| TagPath.AllIsTheTree | extension/src/content/unique-selector.ts:43-51 | the document order lists every element once |
| TagPath.UniqueSelector | extension/src/content/unique-selector.ts:82-119 | what is returned finds this element alone; an attached element gets a selector if and only if some candidate or its path does so, and always when its root segment is unique |

## Left out

- Preamble.StaleIsHarmless: memory and records only; what storage ends up with under reordered writes is not claimed, since the code only corrects after abandoned restores.
- Restores.AttachedRestoreIsExact: what storage lists and what each tab lookup answers are inputs of a run.
- Dispatching.Dispatcher.Repoint: only while the session the tab was closed in is still the session, since one that went took the active tab with it; the active tab of `getSession` is not modelled.
- Tabs.Session.OnTabRemoved: group ids, creation times and the incognito mark of attachments are left out, and so are the writes to storage.
- Capture.NoForeignBadges: one tab's lock; the map of locks by tab id and its pruning are lookups.
- Tee.PageSeesTheChannel: `filter.onerror` ends the filter and its text is not kept.
- Recorder.CutForm: form fields come as a list of names with values, in the order of the object.
- Hops.HopLog.OnEnd: headers, statuses, page titles, load times and security info are set on the open hop and carry no claim.
- HarExport.HarOf: the order of the entries is given, where the code sorts them by start; pages, timings, sizes, cookie parsing, charsets and base64 are inputs, given as they are written.
- Host.RunKeeps: encoding, logging, idle deadlines, the accept semaphore and the drain at shutdown are left out; a fatal write to the extension only ends the process.
- SocketOwner.NoLiveFileUnlinked: other programs may remove the file at the path and do not put another there.
- Framing.Writer.WriteFrame: JSON is bytes; the writer's mutex makes a frame one step among concurrent writers.
- Frames.FrameRegistry.OnInjectFailed: the text of injection errors is left out; `sort` and `filter` of the observed frames are one function.
- Link.NativeLink.OnReceive: commands and the replies posted for them are left out, and so are reasons and logging.
- CookieKeys.TombstoneIsExact: hosts are ASCII in the form Firefox keeps them, sites are those Firefox answers, and the public suffix list and URL parsing are inputs.
- Cookies.Store.DeleteCookies: targets come as the sorted list getAll answers; whether the store obeys a set that does not throw is given, one answer for each target.
- CookieImport.ImportCookies: an entry is reported by its index, which stands for its name and domain; validation of raw objects is an input.
- TagPath.PathIsUnique: tag names of other namespaces, which compare case-sensitively, are left out.
- Page actions over a live DOM, text targets, consent and suggestions: they depend on layout and computed styles.
- The image ladder of screenshots: encoders are opaque, so nothing can be said of sizes.
- Network tracking, console capture, settings, devices and CLI plumbing: ring buffers, lookups and flags that would only add easy members.
