# A verified model of the shell core

This project models the parts of the shell core whose behaviour is hardest to
see from any one function, and proves what they keep, in Dafny 4.11. It needs
nothing but its own files: `dafny verify dfyconfig.toml` checks all of it.

| file | what it models |
|---|---|
| `PollLoop.dfy`, `Dispatcher.dfy`, `Supervisor.dfy` | the browser-chat dispatcher: a poll loop's records and choices, the interleaved protocol, one supervisor cycle |
| `DispatchSafety.dfy`, `DispatchRepeats.dfy`, `DispatchCovers.dfy` | what every interleaving keeps; when a message is run twice; when it is answered twice |
| `FlagForest.dfy`, `FlagStore.dfy`, `FlagSchedule.dfy` | the flag table as a forest, its endpoints, and the recursive schedule view |
| `LoginBackoff.dfy`, `Totp.dfy` | login backoff derived from the event log; the TOTP replay guard and rate limit |
| `Secrets.dfy` | the secret table, KEK rotation and the TTL cache |
| `BootRender.dfy`, `BootDocs.dfy` | the boot document's rendered sections and the write paths that re-render stored documents |
| `UniversalBlocks.dfy` | the universal-block file's parser and writer |
| `Transcript.dfy`, `Translation.dfy`, `Trim.dfy` | the bounded tool loop, the OpenAI and Ollama translations, trimming to a context window |
| `Patch.dfy`, `Promotion.dfy` | batch patches against single edits; promotion of local models |
| `Prelude.dfy`, `Text.dfy` | shared types and the string operations |

Modelling conventions. Code that updates state in place is a class or a method
with loops, proved against a function of the old state; the laws are lemmas
about those functions, over every input, every run or every reachable state.
SQL tables are maps and sequences; SQL NULL and Python None are `None`. An HTTP
handler or a broker store call is one atomic step, and one that fails on a
duplicate key rolls back. The dispatcher is finer: every database statement and
every hold of a lock is a step of its own, and the environment may insert
messages, mark them read, delete them, open sessions and flip `browser_chat`
between any two. Dates are whole days, event times whole seconds, monotonic
clocks reals; `estimated_days` is a real that is floored at each hop. Messages
are numbered in (sent_at, message_id) order, new ones last, and nothing resets
`read_by_shell`. Ciphertext is the datatype `Sealed(key, payload)`, TOTP digests
are an abstract code book, the model and the tools are arbitrary functions, and
JSON is an abstract tree.

Four results are about behaviour a reader might not expect:

- `post_reply` reports status 0 or 200, so the `status >= 400` branch never runs:
  a turn whose POST is not carried out, that of a blank reply included, leaves its
  message open (`DispatchRepeats.TurnEndsOneWay`) and is run again, without any
  bound (`DispatchRepeats.LostRepliesRepeat`);
- releasing a session only after its message is marked read does not by itself
  prevent a second turn of a message that was answered
  (`DispatchRepeats.StaleFetchRepeats` gives the run).
  `DispatchRepeats.SubmittedAgainIff` says, over all runs, exactly when a read
  message is submitted: since the poll's fetch a writer outside marked it or,
  before the poll's snapshot, a worker's turn settled it; and that before an
  unread one every earlier turn left it open. What stands between such a turn and
  a second answer is the skip of a covered message: it fails only if the first
  answer has been deleted, a later message of the session has come in, or the
  message is out of the history window's reach (`DispatchCovers.AnsweredAgainIf`),
  which happens (`DispatchCovers.StaleFetchAnswersTwice`). The second look at
  `in_flight` under the lock never finds anything
  (`DispatchRepeats.RecheckNeverFires`);
- the TOTP row is found by account id or by email but updated by the given
  identifier as an account id. A step accepted by id is never accepted again
  (`Totp.AcceptedByIdIsPassed`); in any store a run can reach, the step last
  accepted can be accepted again if and only if the call that used it did not
  name the account by its id (`Totp.RepeatsIff`, and `Totp.EmailReplays` for the
  run), and the attempt limit counts each spelling of the email apart
  (`Totp.EverySpellingGetsFive`);
- a batch patch takes blank patterns and null paths, which a single edit refuses.
  The batch does what the edits in turn do if and only if there is a hunk and none
  with a null or blank path or a blank pattern is reached
  (`Patch.PatchRefinesEditsIff`).

## Model

| member | source | states |
|---|---|---|
| DispatchSafety.RunKeepsInv | shell_core/services/dispatch_live.py:503-722 | every state of every interleaving of supervisor, poll loops, workers and environment satisfies the loop, record, marker, list and order invariants |
| DispatchSafety.OneTurnPerSession | shell_core/services/dispatch_live.py:545-613 | at most one turn per (shell, session) is queued or running, across drain and re-join |
| DispatchSafety.InFlightIsLiveWork | shell_core/services/dispatch_live.py:539-542 | `in_flight` is exactly the sessions with a live worker of that loop; `in_flight_started` has the same keys and `in_flight_warned` is a subset |
| DispatchSafety.OneLoopPerShell | shell_core/services/dispatch_live.py:689-716 | of two loops of one shell at least one has ended |
| DispatchSafety.MarkersNameLiveWork | shell_core/services/dispatch_live.py:144-157 | once its shell has joined, a session's non-null turn marker names the message a live worker holds, whatever markers a past run left |
| DispatchSafety.TurnsInOrder | shell_core/services/dispatch_live.py:251-258 | over a whole run the turns of a session never go back in (sent_at, message_id), and everything before a submitted message is read or deleted |
| DispatchSafety.SubmittedAfterItsRivals | shell_core/services/dispatch_live.py:588-605 | at the step that submits a message, every earlier message of its shell and session is already settled, although the list was fetched outside the lock |
| DispatchSafety.JoinKeepsLoops | shell_core/services/dispatch_live.py:707-716 | starting a loop for a member that is neither running nor draining leaves at most one live loop per shell |
| DispatchSafety.LeaveKeepsLoops | shell_core/services/dispatch_live.py:701-705 | stopping a loop and moving it to `draining` keeps every live loop accounted for and nothing about to be started still draining |
| DispatchSafety.FetchIsOk | shell_core/services/dispatch_live.py:251-258 | a fresh unread list names nothing before an earlier turn of its session |
| DispatchSafety.ChoiceIsOk | shell_core/services/dispatch_live.py:588-596 | what is chosen from a list, however stale, has nothing open before it |
| DispatchSafety.BoundsHold | shell_core/services/dispatch_live.py:588-605 | the bounds on messages and loops that the steps assume hold in every reachable state, so they hold no step back |
| DispatchSafety.NoWorkerIsStuck | shell_core/services/dispatch_live.py:503-542 | in every reachable state a live worker can take its next step; only a release may wait, and then for a submit loop that can go on |
| DispatchRepeats.RecheckNeverFires | shell_core/services/dispatch_live.py:598-605 | the check of `in_flight` under the lock never skips: every chosen message is submitted |
| DispatchRepeats.SubmittedAgainIff | shell_core/services/dispatch_live.py:569-605 | over all runs, the poll about to submit a message fetched it unread; it is read by then if and only if since the fetch an outside writer marked it or, before the snapshot, a worker's turn settled it; if it is unread every earlier worker that held it left it open |
| DispatchRepeats.EarlierTurnsEnded | shell_core/services/dispatch_live.py:503-542 | when a message is about to be submitted every earlier worker that held it is gone, and left it open unless it is read |
| DispatchRepeats.TurnEndsOneWay | shell_core/services/dispatch_live.py:509-542 | over any run a worker that has done its work has settled its message or left it open, and not both; a failed marker write leaves it open too |
| DispatchRepeats.ReadIffMarkedInGap | shell_core/services/dispatch_live.py:577-605 | during one poll the read mark of a message it will submit is set exactly by outside writers or, before the snapshot, by the worker holding it |
| DispatchRepeats.PollBegan | shell_core/services/dispatch_live.py:569-578 | every poll under way began with a fetch and has been under way since |
| DispatchRepeats.UnreadFromSnapshotToSubmit | shell_core/services/dispatch_live.py:588-605 | between the snapshot and the submit only writers outside the dispatcher change a chosen message's read mark |
| DispatchRepeats.StaleFetchRepeats | shell_core/services/dispatch_live.py:503-506 | a concrete run submits the same message twice although its first turn replied and it is read |
| DispatchRepeats.LostRepliesRepeat | shell_core/services/dispatch_live.py:344-357 | for every n a run submits one message n times, each time because its reply was lost |
| DispatchCovers.CoversIff | shell_core/services/dispatch_live.py:231-248 | a message is skipped if and only if the newest row of its session is the shell's own and an inbound row is left in the window |
| DispatchCovers.CoversIsTheSkip | shell_core/services/dispatch_live.py:370-391 | that skip is `process_inbound`'s, whatever the texts of the rows |
| DispatchCovers.AnsweredIsCovered | shell_core/services/dispatch_live.py:376-391 | an answered message in the window's reach is skipped until its answer is deleted or a later message of its session comes in |
| DispatchCovers.ReplyStands | shell_core/services/dispatch_live.py:344-357 | over any run a posted reply stays a row behind its message |
| DispatchCovers.AnsweredAgainIf | shell_core/services/dispatch_live.py:365-391 | over all runs a message is answered twice only if, when the second turn loads the history, the first answer has been deleted, a later message of the session has come in, or the message is out of the window's reach |
| DispatchCovers.StaleFetchAnswersTwice | shell_core/services/dispatch_live.py:376-391 | a concrete run in which a turn of an answered, read message is about to answer again |
| PollLoop.FetchFacts | shell_core/services/dispatch_live.py:251-258 | a fetch lists exactly the shell's unread inbound messages, in order |
| PollLoop.PickFacts | shell_core/services/dispatch_live.py:588-596 | the picks are the first unread message of every session outside the snapshot, one a session, and nothing else |
| PollLoop.PickedIsOldest | shell_core/services/dispatch_live.py:588-596 | no listed message of the same session precedes a picked one |
| PollLoop.SubmittedFacts | shell_core/services/dispatch_live.py:598-605 | the submit loop adds exactly the sessions that were free, one message each |
| PollLoop.ShellLoop.WarnStuckSessions | shell_core/services/dispatch_live.py:580-586 | every session in flight longer than 300 s is reported, once |
| PollLoop.ShellLoop.Pick | shell_core/services/dispatch_live.py:588-596 | the pick loop computes the specified choice |
| PollLoop.ShellLoop.SubmitPicked | shell_core/services/dispatch_live.py:598-605 | the submit loop's new records and submitted messages; the three records stay consistent |
| PollLoop.ShellLoop.Release | shell_core/services/dispatch_live.py:538-542 | releasing a session removes it from all three records |
| Supervisor.StillDrainingFacts | shell_core/services/dispatch_live.py:695 | pruning keeps exactly the draining loops whose thread has not ended |
| Supervisor.Membership.Reconcile | shell_core/services/dispatch_live.py:695-716 | one cycle: members keep their loop or get one unless still draining, everyone else is told to stop, and no shell is ever running and draining at once |
| Supervisor.CycleIsRun | shell_core/services/dispatch_live.py:693-722 | what one such cycle makes of `running` and `draining` is what the protocol's state shows after a prune, a discovery and the leaves and joins in the same orders |
| Supervisor.OthersKeepShown | shell_core/services/dispatch_live.py:545-613 | between cycles no step of a loop, a worker or the environment changes what the supervisor keeps |
| FlagForest.CycleCheckExact | shell_core/api/routers/flags.py:46-62 | on a forest the parent walk meets the flag if and only if the new edge would close a cycle; otherwise a new well-founded rank exists |
| FlagForest.LinkKeepsForest | shell_core/api/routers/flags.py:457-479 | an accepted re-parent keeps the forest and points at no deleted row |
| FlagForest.SpliceKeepsForest | shell_core/api/routers/flags.py:361-366 | splice-delete keeps the forest |
| FlagForest.SpliceChain | shell_core/api/routers/flags.py:361-366 | delete removes exactly the deleted flag from every other row's ancestry, in place and in order |
| FlagForest.SpliceUnlinks | shell_core/api/routers/flags.py:361-366 | the deleted row keeps its own ancestry and no row, live or deleted, points at it |
| FlagStore.ApplyKeepsForest | shell_core/api/routers/flags.py:196-253 | every endpoint keeps a forest in which no row points at a deleted row |
| FlagStore.ReachableIsForest | shell_core/api/routers/flags.py:195-492 | so does every run of requests from the empty table; no flag is its own ancestor |
| FlagStore.OtherChainsUnchanged | shell_core/api/routers/flags.py:196-492 | every request other than an accepted re-parent, clear-parent or delete, rejected ones included, leaves every ancestry alone |
| FlagStore.FlagTable.CheckNoCycle | shell_core/api/routers/flags.py:46-62 | the walk halts and raises exactly when the edge would make the table cyclic |
| FlagStore.FlagTable.CreateFlag | shell_core/api/routers/flags.py:196-253 | new table and reply, including the rejected parents, statuses and projects |
| FlagStore.FlagTable.UpdateFlag | shell_core/api/routers/flags.py:447-492 | new table and reply; Tracking reopens when a start date is given, a parent wins over clear-parent |
| FlagStore.FlagTable.UpdateStartDate | shell_core/api/routers/flags.py:269-287 | sets or clears the start date and moves the status with it |
| FlagStore.FlagTable.ResolveFlag | shell_core/api/routers/flags.py:402-443 | the three transitions and their dates; the status is checked before visibility |
| FlagStore.FlagTable.DeleteFlag | shell_core/api/routers/flags.py:357-369 | re-parents every child to the grandparent, then soft-deletes |
| FlagSchedule.RunView | shell_core/schema.sql:867-932 | the recursive walk halts and yields each live flag exactly once, with the slot the forest gives it |
| FlagSchedule.ListNeitherDropsNorDuplicates | shell_core/api/routers/flags.py:27-30 | the LEFT JOIN returns each selected live flag once, in order, with its slot |
| FlagSchedule.StartsWhenParentEnds | shell_core/schema.sql:895-899 | a flag without its own start begins when its parent ends, or three days after its creation |
| FlagSchedule.StartIsSumOfEstimates | shell_core/schema.sql:891-915 | along unresolved, estimated flags without own starts, the start is the root's start plus the floored estimates of all chain ancestors |
| FlagSchedule.DeleteShiftsSubtree | shell_core/api/routers/flags.py:361-366 | deleting a flag inside such a chain, whatever the chain hangs under, brings everything below it forward by exactly its floored estimate |
| LoginBackoff.OnlyCountedEventsMatter | shell_core/api/routers/auth.py:53-72 | only a counted failure or a success of the same email, ASCII case aside, can change its wait |
| LoginBackoff.BlockedNeverExtends | shell_core/api/routers/auth.py:42-46 | a blocked attempt never changes anyone's wait |
| LoginBackoff.WaitRunsDown | shell_core/api/routers/auth.py:73-78 | without new events the wait falls by at least a second per second |
| LoginBackoff.WaitIsEnough | shell_core/api/routers/auth.py:53-78 | after the returned number of seconds without a new event the wait is 0 |
| LoginBackoff.NextFailureWaits | shell_core/api/routers/auth.py:73-78 | the next failure of a success-free window keeps the whole cooldown from the one before |
| LoginBackoff.FailuresSpread | shell_core/api/routers/auth.py:42-50 | n failures in a success-free window span at least the sum of the first n - 1 cooldowns |
| LoginBackoff.RunKeepsInv | shell_core/api/routers/auth.py:88-103 | with attempts for one email serialised, every logged failure passed a gate that was clear for it |
| LoginBackoff.AtMostTwelveFailures | shell_core/api/routers/auth.py:42-97 | any one-hour window without a successful login holds at most 12 counted failures of an email |
| LoginBackoff.TwelveAreReachable | shell_core/api/routers/auth.py:42-97 | a run with 12 failures in a success-free hour exists, so the bound is tight |
| LoginBackoff.AuthLog.Login | shell_core/api/routers/auth.py:88-146 | status, Retry-After and exactly which events one request appends, for each of the six answers |
| Totp.MatchStepIsWithinOne | shell_core/broker/auth_store.py:237-246 | a code matches if and only if it is the code of a step at most one away, and the step returned is one that shows it (RFC 6238, section 5.2) |
| Totp.PruningIsHarmless | shell_core/broker/auth_store.py:210-215 | pruning the attempt list earlier loses nothing that counts later |
| Totp.VerdictAgrees | shell_core/broker/auth_store.py:210-215 | the pruned list admits exactly the attempts a full log would |
| Totp.WindowAdmitsFive | shell_core/broker/auth_store.py:210-215 | under one spelling of a name no window shorter than 60 s admits more than 5 attempts |
| Totp.DoKeepsGuard | shell_core/broker/auth_store.py:218-295 | each call, by id or by email, keeps: every step accepted by id since the reset is covered by the guard and below every later one |
| Totp.AcceptedByIdIsPassed | shell_core/broker/auth_store.py:218-295 | over any run of enrol, confirm, verify and reset under any names, a step accepted under the account's id is below every step accepted later, until a reset |
| Totp.RepeatsIff | shell_core/broker/auth_store.py:218-295 | in every store a run can reach, some call is accepted at or below an account's last accepted step if and only if that acceptance did not name the account by its id |
| Totp.ByIdStepsIncrease | shell_core/broker/auth_store.py:218-295 | an account whose codes are never submitted under its email has strictly increasing accepted steps, so no more than the steps that passed |
| Totp.ReplayIff | shell_core/broker/auth_store.py:268-285 | a code just accepted is accepted once more, under any name of the account, if and only if the first call did not name it by its id |
| Totp.EmailReplays | shell_core/broker/auth_store.py:268-285 | from any table an account that enrols under its id and is then verified by email with one code twice, ninety seconds on, has all four calls accepted |
| Totp.SpellingsShareTheRow | shell_core/broker/auth_store.py:150-155 | spellings of an email that differ in ASCII case find the same row |
| Totp.EverySpellingGetsFive | shell_core/broker/auth_store.py:210-215 | at one moment every spelling of an account's name, however many, gets five attempts past the limit |
| Totp.AuthStore.RateOk | shell_core/broker/auth_store.py:210-215 | records the attempt and judges it as the full log would |
| Totp.AuthStore.Row | shell_core/broker/auth_store.py:150-155 | finds the row by account id or, emails being unique without regard to ASCII case, by email |
| Totp.AuthStore.EnrollBegin | shell_core/broker/auth_store.py:218-234 | the reply by the row found under either name; a fresh seed and an empty guard are stored only under an account id |
| Totp.AuthStore.EnrollConfirm | shell_core/broker/auth_store.py:249-265 | succeeds exactly within the limit of the name given, with a pending seed and a matching code of the row found; enrols and seeds the guard only under an account id |
| Totp.AuthStore.Verify | shell_core/broker/auth_store.py:268-285 | succeeds exactly within the limit of the name given, for an enrolled row found under either name, with a code of a later step than its guard; the guard moves if and only if the name is an account id |
| Totp.AuthStore.ResetTotp | shell_core/broker/auth_store.py:288-295 | clears seed, enrolment and guard of the account it names |
| Secrets.SetThenGet | shell_core/broker/secrets_store.py:106-139 | a write reads back under its key, under no other key, and disturbs no other name |
| Secrets.RewrapKeepsSecrets | shell_core/broker/secrets_store.py:167-178 | rotation leaves every decrypted value equal under the new key, unreadable under the old one, and every ciphertext untouched |
| Secrets.RewrapRoundTrip | shell_core/broker/secrets_store.py:167-178 | rotating there and back restores the table |
| Secrets.Broker.SetSecret | shell_core/broker/secrets_store.py:106-128 | upsert that keeps `created_at`, and eviction of the cached value; a cache that agreed with the table, or was grounded in past reads, still does |
| Secrets.RewrapAll | shell_core/broker/secrets_store.py:171-175 | the loop re-wraps every row, or fails exactly when some row is under another key |
| Secrets.Broker.RotateKek | shell_core/broker/secrets_store.py:167-178 | all rows re-wrapped and the cache emptied, or, when one row is under another key, nothing changed |
| Secrets.Broker.OutsideWrite | shell_core/broker/secrets_store.py:181-200 | a write by another process, of the table or the key file, leaves every cached value grounded in the read it came from |
| Secrets.Broker.GetCached | shell_core/broker/secrets_store.py:186-200 | with in-process writers only the result always equals the stored secret; whatever others write, a hit returns what the store held at the start of a read that ended less than `ttl` ago |
| BootRender.SortSorts | shell_core/shell_render.py:59-84 | a listing shows the query's rows, each once, in (date, id) order |
| BootRender.NewestFirstFacts | shell_core/shell_render.py:236-253 | the decisions listed are the newest ones, newest first, and nothing left out is newer |
| BootRender.EntryRetired | shell_core/shell_render.py:59-84 | retiring an entry changes no other shell's sections and lengthens none |
| BootDocs.WriteThenRender | shell_core/api/services/boot_document.py:78-87 | a write to one shell's rows followed by a render of its active sessions keeps every session up to date |
| BootDocs.WritesOneRow | shell_core/api/routers/shells.py:71-645 | a write request adds or changes at most one row, one of its own shell; entries only below their cap |
| BootDocs.OthersAgreeAfterWrite | shell_core/api/routers/shells.py:289-645 | no write changes the four sections of another shell |
| BootDocs.UnrenderedWriteAgrees | shell_core/api/routers/shells.py:378-386 | a write that renders nothing leaves the written shell's four sections as they were |
| BootDocs.SessionRequestKeeps | shell_core/api/routers/shells.py:912-1151 | session requests keep every active session up to date |
| BootDocs.RunKeepsCoherent | shell_core/api/services/boot_document.py:66-104 | in every reachable state each active session's stored document is NULL or its IDENTITY, SEED, LESSONS & STANCES and RECENT DECISIONS sections equal a fresh render |
| BootDocs.RunReopensNone | shell_core/api/routers/shells.py:912-1151 | a deactivated session never becomes active again, and no session disappears or changes hands |
| BootDocs.RenderIsComplete | shell_core/api/services/boot_document.py:78-87 | after a write that renders, every active session of the shell holds the fresh render of all six modelled sections |
| BootDocs.UnrenderedWriteIsWholeIff | shell_core/api/routers/shells.py:378-386 | after a write that renders nothing, a whole document is whole if and only if both text sections render as before |
| BootDocs.PutSectionGoesStale | shell_core/api/routers/shells.py:290-309 | a section edit leaves the stored document stale exactly when the new text renders differently |
| BootDocs.PatchGoesStale | shell_core/api/routers/shells.py:378-386 | a shell patch leaves it stale exactly when it gives only `connections` and they render differently |
| BootDocs.RunKeepsCaps | shell_core/schema.sql:366-386 | at most 10 live seed entries and 20 lessons and stances a shell, and no identity entry is ever rewritten, removed or brought back |
| BootDocs.ShellStore.RerenderBootDocument | shell_core/api/services/boot_document.py:66-75 | writes a fresh render into one session and nothing else |
| BootDocs.ShellStore.RerenderShellSessions | shell_core/api/services/boot_document.py:78-87 | the loop renders exactly the shell's active sessions |
| BootDocs.ShellStore.UpdateShell | shell_core/api/routers/shells.py:339-394 | new row, reply, and a render exactly when one of the six identity fields is given |
| BootDocs.ShellStore.CreateIdentityEntry | shell_core/api/routers/shells.py:406-442 | validation, count caps, the stripped row, and the render |
| BootDocs.ShellStore.UpdateIdentityEntry | shell_core/api/routers/shells.py:469-491 | retirement only, once, of the shell's own entry |
| BootDocs.ShellStore.CreateDecision | shell_core/api/routers/shells.py:526-553 | validation, the stripped row with a default date, and the render |
| BootDocs.ShellStore.UpdateDecision | shell_core/api/routers/shells.py:611-645 | the given fields change, and a render unless none is given |
| BootDocs.ShellStore.PutPromptSection | shell_core/api/routers/shells.py:290-309 | CURRENT STATE and OPERATING CONTEXT replace exactly their column of the named shell, unstripped; universal sections and rejected ones change no shell; no session is touched or rendered |
| BootDocs.ShellStore.CreateChatSession | shell_core/api/routers/shells.py:913-932 | the user's sessions of the shell close and a rendered one opens |
| BootDocs.ShellStore.UpdateSession | shell_core/api/routers/shells.py:953-992 | counters and model; a render exactly when the model changes |
| BootDocs.ShellStore.ClearSession | shell_core/api/routers/shells.py:996-1003 | the session closes |
| BootDocs.ShellStore.PostShellChatReply | shell_core/api/routers/shells.py:1029-1131 | token accounting, the warning at 80 %, and at 95 % the session closes and a rendered one with its model opens |
| BootDocs.ShellStore.SessionStartPayload | shell_core/api/services/boot_document.py:90-104 | a missing document is rendered on the spot, a stored one is returned as it is |
| BootDocs.ShellStore.DeleteShellChat | shell_core/api/routers/shells.py:1135-1151 | exactly the active sessions of that shell and user close; no other column of any session changes and none reopens |
| UniversalBlocks.RenderUniversal | shell_core/shell_render.py:128-144 | the line loop computes the parse |
| UniversalBlocks.FindIsBlock | shell_core/shell_render.py:153-166 | the marker search finds the key's block and its end, or nothing exactly when no marker names the key |
| UniversalBlocks.WriteUniversalBlock | shell_core/shell_render.py:147-180 | the search loop and the rebuild compute the write, or reject an unknown key |
| UniversalBlocks.WriteThenParse | shell_core/shell_render.py:128-180 | writing then parsing gives the stripped body for that key and every other block unchanged |
| UniversalBlocks.WriteKeepsMarkers | shell_core/shell_render.py:147-151 | a write keeps the file's markers, in order |
| UniversalBlocks.WriteTwice | shell_core/shell_render.py:147-180 | writing the same body again changes no parsed block |
| UniversalBlocks.WritesCommute | shell_core/shell_render.py:147-180 | writes to different keys commute at the parsed level |
| UniversalBlocks.ReadsBackIffNoMarker | shell_core/shell_render.py:128-180 | a written block reads back as its stripped body if and only if that body has no marker line |
| Transcript.AssistantMessage | shell_core/services/providers/base.py:127-141 | the block loop builds the text block, if any, then one tool-use block a call |
| Transcript.ToolResultMessage | shell_core/services/providers/base.py:144-159 | one result block a result, in order |
| Transcript.HistoryFacts | shell_core/services/dispatch_live.py:231-248 | the history is a run of the session's newest messages, at most the window, and opens on a user turn |
| Transcript.OutboundRowCovers | shell_core/services/dispatch_live.py:370-387 | any outbound row behind a message, a model-switch note included, makes the next turn skip it, exactly when a user turn is left in the history |
| Transcript.LoadHistory | shell_core/services/dispatch_live.py:231-248 | the popping loop computes that history |
| Transcript.RoundPairsIds | shell_core/services/dispatch_live.py:447-459 | a tool-use turn and the result turn after it carry the same ids in the same order |
| Transcript.LoopFacts | shell_core/services/dispatch_live.py:426-470 | at most 20 model calls; after k rounds the transcript is the opening plus exactly 2k messages, each pair a round; the j-th request carries the first j rounds |
| Transcript.ExtendsKeepsUserEnds | shell_core/services/dispatch_live.py:447-459 | a transcript that begins and ends on a user turn still does after any number of rounds |
| Transcript.RunLoop | shell_core/services/dispatch_live.py:426-470 | the tool loop computes the specified run, its three endings included |
| Transcript.ProcessInbound | shell_core/services/dispatch_live.py:365-491 | skipped exactly when the history ends on an assistant turn; every request sent begins and ends on a user turn; the reply text of each ending |
| Translation.ExtendsIsBuildable | shell_core/services/dispatch_live.py:426-459 | whatever the tool loop builds from a plain opening is a transcript the translations are stated for |
| Translation.ToNativeMessages | shell_core/services/providers/openai_adapter.py:61-104 | the append loop computes the translation |
| Translation.DecodeInverts | shell_core/services/providers/openai_adapter.py:61-104 | decoding an OpenAI translation gives the transcript back with `is_error` erased, when every tool round makes a call; otherwise messages are lost |
| Translation.InverseIff | shell_core/services/providers/base.py:127-133 | the decoding restores a transcript, error marks aside, exactly when its every tool turn makes a call, as `assistant_message` expects |
| Translation.IdleRoundsShareTranslationIff | shell_core/services/providers/openai_adapter.py:61-104 | a transcript with a round that makes no call translates like another, whose rounds all call, if and only if each such round has a text; no decoding then tells the two apart |
| Translation.OllamaMessages | shell_core/services/providers/ollama_adapter.py:135-175 | the append loop computes the translation |
| Translation.OllamaKeepsItems | shell_core/services/providers/ollama_adapter.py:135-175 | the same texts, calls and results pass, in the same order |
| Translation.NamesInOrder | shell_core/services/providers/ollama_adapter.py:166-174 | the tool messages carry, in order, the names found under the ids of the transcript's calls |
| Translation.ResultsNameTheirCalls | shell_core/services/providers/ollama_adapter.py:142-174 | each tool message names the call it answers if and only if no id is shared by calls of different names |
| Trim.OllamaAdapter.NewestThatFit | shell_core/services/providers/ollama_adapter.py:118-126 | the newest-first walk keeps the longest suffix that fits, or the last message |
| Trim.OllamaAdapter.DropLeading | shell_core/services/providers/ollama_adapter.py:127-129 | the pops remove exactly the leading turns that are not the user's |
| Trim.OllamaAdapter.Trim | shell_core/services/providers/ollama_adapter.py:102-130 | a non-empty suffix that fits `num_ctx` beside the system text and 2048 reserved tokens, or exactly the last message; it opens on a user turn whenever the transcript ends on one |
| Trim.TrimIsDetermined | shell_core/services/providers/ollama_adapter.py:102-130 | the cut and the opening that `Trim` promises are unique, so its result is determined |
| Patch.CountZeroIff | shell_core/services/tools/files.py:80-82 | the greedy count is 0 if and only if there is no occurrence |
| Patch.CountOneIff | shell_core/services/tools/files.py:80-84 | it is 1 if and only if no occurrence starts at or after the end of the leftmost one |
| Patch.ReplacesLeftmost | shell_core/services/tools/files.py:85 | the edit changes the text at the leftmost occurrence and nowhere else |
| Patch.PreflightIsEdit | shell_core/services/tools/files.py:253-280 | one pre-flighted hunk is one edit of the files as the cache would leave them |
| Patch.PatchRefinesEditsIff | shell_core/services/tools/files.py:245-291 | the batch equals editing hunk by hunk (the same files, or the first failing hunk and its code) if and only if there is a hunk and none with a null or blank path or a blank pattern is reached |
| Patch.BlankPatternPatchesIff | shell_core/services/tools/files.py:259-280 | a blank pattern, which an edit always refuses, patches a file exactly when it occurs once there; an empty one, when the file is empty |
| Patch.SpacePartsBatchFromEdit | shell_core/services/tools/files.py:65-67 | a single space in `a b`: the edit refuses it, the batch replaces it |
| Patch.FileTools.HandleEdit | shell_core/services/tools/files.py:65-86 | the files after one edit, or its error code and no change |
| Patch.FileTools.PreflightHunk | shell_core/services/tools/files.py:253-280 | the checks on one hunk, in their order, against the cached text |
| Patch.FileTools.HandleApplyPatch | shell_core/services/tools/files.py:245-291 | all hunks land or no file changes; the error names the first failing hunk |
| Promotion.Upsert | shell_core/scripts/model_sync.py:321-372 | the row one installed model leaves, and what it is counted as |
| Promotion.PromoteLocalModels | shell_core/scripts/model_sync.py:312-384 | the registry mirrors what is installed, and the three counts are exact |
| Promotion.ActiveIffInstalledAndCapable | shell_core/scripts/model_sync.py:342-383 | a local row is active if and only if its model is installed and both flags are 1 |
| Promotion.OtherProvidersUntouched | shell_core/scripts/model_sync.py:346-383 | another provider's row is left alone if and only if no installed model has its name |
| Promotion.PromotionKeepsChoices | shell_core/scripts/model_sync.py:335-345 | label, credential and any non-NULL flag of every row survive a promotion |
| Promotion.ChoicesSurviveAnyRun | shell_core/scripts/model_sync.py:335-340 | and any later sequence of promotions |
| Promotion.RepeatChangesNothing | shell_core/scripts/model_sync.py:312-384 | repeating a promotion with the same inputs changes nothing |
| Promotion.RepeatCountsNothing | shell_core/scripts/model_sync.py:369-384 | and reports (0, 0, 0) |

## Left out

- LoginBackoff.AtMostTwelveFailures: attempts for one email are serialised; several that pass the gate before the first of them is logged are not bounded by it.
- DispatchSafety.MarkersNameLiveWork: a worker's clearing of its own marker is taken to succeed; if that statement fails the marker stays behind until the shell joins again.
- DispatchSafety.InFlightIsLiveWork: handing a turn to the pool is taken to succeed; a failure there leaves the session in flight.
- Dispatcher.Next: what a worker's turn does to the tables is its effect on messages; each way a POST can end and an exception are allowed at any time, the history window is any number, and warning or marker rows are environment inserts. Repeated POSTs by the HTTP retry have no effect of their own.
- Dispatcher.Next: the SIGTERM handler, the process lock, the model reaper and the pool's worker count, which only delays queued turns.
- FlagStore.Apply: the membership-and-privacy rule is one visibility bit per request; display columns, notes and the event log are not kept.
- FlagSchedule.SlotOf: dates are unbounded integers; SQLite's date range and non-finite estimates are not modelled. A negative estimate yields NULL, as its date modifier is malformed; the sum and shift laws are about chains of non-negative ones.
- LoginBackoff.WaitSeconds: whole seconds, without `julianday` rounding.
- LoginBackoff.AuthLog.Login: a broker that cannot start TOTP enrolment, and the session and cookie that a success mints.
- Totp.MatchStep: the submitted code is compared as given; the handler strips it first.
- Totp.RowOf: an identifier that is one account's id and another's email finds the account with that id; SQL leaves the choice open.
- Totp.AuthStore.Verify: sealing of the TOTP seed. KEK rotation does not re-wrap those seeds, so the rotation results are about the `secrets` table alone.
- BootDocs.RunKeepsCoherent: the claim is about four sections. OPERATING CONTEXT and CURRENT STATE are covered by the staleness lemmas; BOOT, TOOLS, SKILLS, PROJECTS, FLAGS and the universal sections are not rendered again by their writers and are not part of the stored document here.
- BootDocs.Apply: ownership checks, `api_endpoints`, `active_archive_id`, `api_auth`, parent decisions and the messages a request deletes or posts; the token thresholds are exact fractions.
- BootRender.Less: dates compare as text by code point; a decision date that SQLite would store as a number is not treated apart. `lower()` on a short name folds ASCII only.
- UniversalBlocks.Parse: `\n` is the only line break and `\w` is ASCII.
- Text.Strip: ASCII white space only.
- Patch.EditHunk: a pattern or replacement that is neither a string nor null makes a single edit raise; here it is refused like a missing one.
- Patch.FileTools.HandleApplyPatch: a permission error while writing, and two paths that name one file.
- Trim.MsgTokens: the JSON text of a block list is a parameter.
- Translation.ToOllama: `format_request`'s system message, its folding of volatile blocks into the last user turn, and tool schemas; a trimmed transcript can open on a result turn, so pairing is stated before trimming.
- Promotion.PromoteLocalModels: catalogue sync, hardware probing and the VRAM estimate, whose results are its inputs.
- Strength of scrypt, Fernet and the TOTP digest; HTTP, SDK clients, streaming, the user interface, seeding, migrations and routine record keeping.
