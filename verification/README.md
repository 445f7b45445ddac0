# Verification of the review worker

This project models the parts of the pull-request review worker whose correctness is hardest to see
from the code, and proves what its documentation and tests promise of them.

## What is modelled

**The durable review machine.** Webhook handlers append deliveries to a queue; one worker claims the
oldest runnable row and performs a review: optional reset, read the budget, fetch the diff, call the
engine, post and record comments one by one, post or edit the summary, save its id, save cycle and
head, finish. `Machine` has one step for every durable write and every call of forge or engine, with
a crash possible between any two. Each operation ends in one of three outcomes: acknowledged; took
effect but reported an error; refused. A crash loses the worker's memory; the tables and the history
of what the forge accepted survive. A failed or unacknowledged claim and a failed `Finish` leave the row running.
A run (`Exec`) is any sequence of possible steps from the empty database.

`Safety`, `Verdicts`, `ReviewOrder`, `ReviewBudget`, `Deliveries`, `Comments`, `Notices`, `FailureNotes`, `Drain`, `Isolation` and `Limits` prove properties
of every run. The history (`History`) counts what happened in the whole run, or since the last reset of
a pull request. At-most-once results carry an exact count of what faults can add.

`DurableStore.Store` and `ReviewWorker.Worker` are the objects as the program has them. The answers of the
surroundings, and the deliveries that arrive before each operation, are a parameter (`World.Answer`). Every
method of the worker ensures `Performed`: it went through exactly the states that the machine prescribes for
those answers, so skipping, repeating or reordering an operation, or storing anything else, breaks its
contract. What the machine prescribes is said once more in `Verdicts`, of states, answers and rows alone. By `StaysReachable` whatever holds of every run holds between any two operations, and
`Restart` continues after a crash at any such point.

**Comment selection.** `Selection` is filter, deduplication, dedup against records, stable sort and cap.

**Intake and wake-up.** `Webhook` maps decoded payloads to deliveries and their idempotency keys and serves
them; `Keys` reads every key back. `Wakeup` is the protocol of handlers, the one-slot channel and the waiting worker.

**The JSON extractor.** `Json` is a syntax tree and printer for the grammar of RFC 8259 (sections 2 to 7), keeping
white space and escapes. `Scanner` and `Extract` are the brace scanner and the segmentation of an engine's
output. Prose is text whose every `{` is followed, after JSON white space, by something other than a
quote or `}`; that includes prose without `{`, and prose where `{` stands before a letter.

**Two small pieces.** `GitLab` is the single-slot memo of diff refs; `LimitedWriter` is the capped output buffer.

Conventions: `digest` stands for the fingerprint hash, about which nothing is assumed; `valid` and `decode` stand for the
JSON library, and where a round trip needs it `valid` is assumed to
accept, among texts from an opening to a closing brace, exactly those of the grammar, with Go's nesting limit of 10000. Those are the
only texts it is asked about, so white space around a value does not matter. A row's id is its position, since ids are only compared. The diff is
represented by its scope and by whether it is blank. A character stands for a byte.

## Where the code and its documents disagree

The model follows the code.

- ADR-0004 says a reopen resets the budget. A crash or an error before the reset loses it for good
  (`ResetCanBeLost`, `NowOrNever`, `ResetOnlyNow`).
- ADR-0004 says the notice answers the first push after the budget is spent. The spent check precedes the
  same-head check, so a re-run behind the last pass posts it too: `RerunAfterPass` says exactly when,
  `NoticeWithoutPush` gives a run for every budget, and without a fault it does not happen (`NoticeAnswersPush`).
- ADR-0011 says a retried job never leaves two summaries. A crash between post and save does (`TwoSummaries`);
  `OneSummaryUnlessLost` gives the exact condition.
- ADR-0012 and the comment at internal/worker/worker.go:141-143 say that a dead job always gets its note and is not
  retried. A crash or a refusal while posting drops the note (`SilentDrop`), and when the write that marks the row dead
  is refused the note is posted and the job runs again (`NoteThenRetry`). `NotesBounded` and `NoteWithoutDeath` give
  the exact conditions.
- ADR-0011 describes one step that returns and records new fingerprints. The code reads first and records each
  fingerprint after the forge accepted it.

## Model

| member | source | states |
|---|---|---|
| `World.OpsReachable` | internal/worker/worker.go:95-123 | Whatever the database, the forge and the engine answer, and whatever arrives meanwhile, any number of worker operations from a reachable state ends in a reachable one, so every result about all runs holds between any two operations |
| `Safety.AlwaysSafe` | internal/worker/worker.go:95-284 | In every run, with crashes, lost acknowledgements and refused writes anywhere: delivery ids are unique, a row ever claimed has only finished rows before it, the job in hand is a running row, and the budget in memory equals the stored one except for the fields about to be written |
| `Safety.HeadOfLine` | internal/store/store.go:172-244 | Head-of-line order over a whole run: at most one row is running, everything before a row ever claimed is done or dead, claimed ids never decrease, and the claimed rows are exactly those with an attempt |
| `ReviewBudget.BudgetAgrees` | internal/worker/worker.go:202-281 | In every reachable state the stored cycle equals the number of passes completed since the last reset and stays within MaxCycles; the stored head is the one reviewed last; Cycle <= SummaryCycle <= Cycle+1; the head is set exactly with Cycle >= 1, the summary id exactly with SummaryCycle >= 1, and the notice flag only with a spent budget; and consecutive passes chain: full diff first, then the comparison with the head reviewed just before (or its full-diff fallback), on differing heads |
| `Deliveries.OneCyclePerDelivery` | internal/worker/worker.go:202-221 | Over its whole life, whatever crashes or is retried, a delivery spends at most one review cycle and resets at most once, and only a reopened one resets |
| `Deliveries.BoundedAttempts` | internal/worker/worker.go:144-178 | Attempts never exceed max(1, MaxAttempts) plus the times the row was left running with nobody on it; a dead delivery that spent a cycle met a fault |
| `Deliveries.PassesBounded` | internal/store/store.go:325-345 | The resets of a pull request belong to different reopened deliveries of its own, and its completed passes over all epochs are at most MaxCycles times one plus the number of those deliveries |
| `Deliveries.SpentStep` | internal/worker/worker.go:276-281 | A delivery's cycle is spent by exactly one kind of step: its own joint write of cycle and head taking effect |
| `Comments.CommentsBounded` | internal/worker/worker.go:362-391 | Per pull request and epoch the forge accepts a fingerprint at most once more often than an accepted comment lost its record, and a recorded fingerprint really was accepted in that epoch |
| `Comments.FpAlwaysOk` | internal/store/store.go:403-414 | The exact account behind it: accepts equal the committed record plus lost records plus the one being written; a fingerprint is in the table exactly when its record committed since the last reset |
| `Comments.NeverAfterRecord` | internal/store/store.go:352-399 | At the moment any comment is accepted, its fingerprint has no record since the last reset |
| `Comments.SummariesBounded` | internal/worker/worker.go:410-427 | Per pull request, epoch and cycle one new summary plus one per lost id, whichever delivery posts it; a summary is edited exactly when an id for that cycle is stored |
| `Comments.SummaryAlwaysOk` | internal/worker/worker.go:262-274 | The exact account of summaries: posts equal the stored id plus lost ids plus the id being stored |
| `Comments.NoticesBounded` | internal/worker/worker.go:432-459 | One budget notice per epoch plus one per lost flag, and none before the budget is spent |
| `Verdicts.AfterTheClaim` | internal/worker/worker.go:191-206 | A claimed delivery without a provider fails; any other resets next if and only if it is a reopen on its first attempt, and else reads the budget, a reopen on a later attempt included |
| `Verdicts.AfterTheBudget` | internal/worker/worker.go:208-221 | What the budget read, in terms of the stored row and the settings, leads to: the notice, success, or the review |
| `Verdicts.AfterTheReset` | internal/worker/worker.go:202-206 | A reset removes budget and fingerprints of one pull request together, and only its acknowledgement lets the review go on |
| `Verdicts.AfterTheDiff` | internal/worker/worker.go:228-241 | A diff that cannot be had fails the review, an empty one ends it with success, any other goes to the engine with its scope |
| `Verdicts.AfterTheEngine` | internal/worker/worker.go:243-255 | All of the engine's findings are selected from, or the review fails |
| `Verdicts.AfterAComment` | internal/worker/worker.go:365-385 | An accepted comment is recorded next; a rejected one is skipped |
| `Verdicts.AfterARecord` | internal/worker/worker.go:387-391 | A record adds its fingerprint alone; without its acknowledgement the review fails, and with it the next comment or the summary follows |
| `Verdicts.AfterTheSummary` | internal/worker/worker.go:262-270 | The stored id is kept if and only if it is for this cycle; the id is then stored with this cycle |
| `Verdicts.AfterTheSaves` | internal/worker/worker.go:272-281 | First the summary's id is stored, then cycle and head together |
| `Verdicts.AfterTheNotice` | internal/worker/worker.go:452-458 | The notice is posted first and flagged then |
| `Verdicts.EndsExactly` | internal/worker/worker.go:191-284 | A review ends with success if and only if a pass was saved, the diff was empty, the head was reviewed already, or the spent budget is announced or never is; and with failure if and only if the provider is missing or an operation other than a comment, or a lookup that is not needed, failed |
| `Verdicts.DoneHasReason` | internal/worker/worker.go:144-158 | Over every run a done row has such a success behind it, on that row, and a configured provider |
| `Verdicts.DeadAfterTries` | internal/worker/worker.go:160-177 | Over every run a row is dead only after a failed review on an attempt not below MaxAttempts, and failed only below it |
| `Verdicts.AfterTheVerdict` | internal/worker/worker.go:150-177 | The one write that decides a row: done, failed below the limit, dead at it; and a note is due exactly for a dead one with a provider |
| `Verdicts.RetriedNext` | internal/worker/worker.go:160-170 | A review that failed below the limit leaves a failed row and no note, and whatever arrives meanwhile the next claim takes that row with one more attempt |
| `ReviewOrder.StagesInOrder` | internal/worker/worker.go:208-284 | Over every run a pass is saved only after, in the same attempt and in this order, the budget was read, a diff that is not empty was fetched, the engine answered, the records were looked up, the summary was accepted and its id was stored |
| `Drain.WorkerDecreases` | internal/worker/worker.go:95-178 | Every worker step that is no fault decreases (runnable rows, tries left, place in the review, comments to go) |
| `Drain.NeverStuck` | internal/worker/worker.go:95-123 | Unless the worker is idle and every row is done or dead, it has a step that is no fault |
| `Drain.QueueDrains` | internal/worker/worker.go:95-178 | Under every schedule of outcomes whose faults end at some step, and without further arrivals, the worker becomes idle, no row is lost, and every row is done, or dead after at least MaxAttempts attempts |
| `Isolation.OtherStep` | internal/store/store.go:290-345 | A step that does not concern a pull request changes none of its rows, budget, fingerprints, history or work in progress |
| `Isolation.OwnStep` | internal/worker/worker.go:200-284 | A step that concerns a pull request is the same step on its part of the state, including every decision |
| `Isolation.RunsAlone` | internal/worker/worker.go:191-284 | Every interleaved run of the whole system, projected onto one pull request, is a run of that pull request's deliveries alone, ends in its part of the state, and leaves the same stored budget and fingerprints |
| `Arrivals.ArrivalsAreOwn` | internal/store/store.go:138-166 | With commit ids as heads, no delivery is taken for a known one because of another pull request's row: a pull request's own rows decide, in the whole run and in its projection alike |
| `Selection.CollectExact` | internal/worker/worker.go:330-346 | Filtering and deduplication keep exactly the eligible findings, first occurrence per fingerprint, each fingerprint once |
| `Selection.TopK` | internal/worker/worker.go:348-360 | Exact top-k: eligible unrecorded fingerprints split without loss or repeat into attempted and over the cap; at most the cap is attempted, all of them unless there are more; no attempted one ranks below one left over |
| `Selection.SeverityOrder` | internal/reviewer/reviewer.go:31-47 | One severity is at least another exactly if it stands no lower in the chain nit, minor, major, critical, where anything else stands with nit |
| `Selection.FingerprintOf` | internal/reviewer/reviewer.go:58-64 | Whatever the hash, the fingerprint depends on file and title and on nothing else of a finding |
| `Selection.MostSevereFirst` | internal/worker/worker.go:352-360 | Of two findings, one attempted and one left over the cap, the attempted one stands at least as high in that chain |
| `Selection.SortPermutes` | internal/worker/worker.go:353-355 | The sort loses and invents nothing |
| `Selection.CollectOrder` | internal/worker/worker.go:330-346 | Fingerprints are collected in the order in which the engine first named them |
| `Selection.UnseenOrder` | internal/store/store.go:390-398 | One fingerprint stands before another in the result exactly when it does so in the list given and neither has a record |
| `Selection.EqualRanksKeepOrder` | internal/worker/worker.go:353-360 | Of two unrecorded first occurrences of the same rank, the one that the engine named first stands first across the attempted and the over-cap part |
| `Selection.StableSortUnique` | internal/worker/worker.go:353-355 | Descending rank and unchanged order inside each rank determine the result, so the model's sort is the stable sort |
| `DurableStore.Store.Enqueue` | internal/store/store.go:141-166 | One fresh row per delivery id; a known id changes nothing and is reported as not inserted |
| `DurableStore.Store.ClaimNext` | internal/store/store.go:172-224 | Claims the oldest queued, running or failed row, with only done and dead ones before it, makes it running with one more attempt and leaves all others alone; without an acknowledgement the claim may still have committed |
| `Tables.HeadIsOldest` | internal/store/store.go:183-188 | The row to claim is the first that is queued, running or failed; there is none exactly if all are done or dead |
| `DurableStore.Store.Finish` | internal/store/store.go:227-244 | Writes the outcome of one row, or nothing |
| `DurableStore.Store.PRState` | internal/store/store.go:261-287 | Reads the stored budget; an unknown pull request reads as the zero budget |
| `DurableStore.Store.SavePRState` | internal/store/store.go:290-320 | Writes one budget row and no other table |
| `DurableStore.Store.ResetPRState` | internal/store/store.go:325-345 | Deletes budget and fingerprints of one pull request together |
| `DurableStore.Store.UnseenFingerprints` | internal/store/store.go:352-399 | Exactly the fingerprints without a record, each pair in the order given; an empty list is answered without a query that could fail |
| `DurableStore.Store.RecordFingerprint` | internal/store/store.go:403-414 | Adds one fingerprint to one pull request's set |
| `Tables.WritesAreLocal` | internal/store/store.go:290-345 | No write to budget or fingerprints reaches another pull request's |
| `ReviewWorker.Defaults` | internal/worker/worker.go:59-81 | Each zero setting is replaced by its default (2 cycles, 3 attempts, 20 comments, minor); each other one, and everything else, is kept |
| `ReviewWorker.Worker.constructor` | internal/worker/worker.go:51-91 | A new worker starts in the machine's initial state |
| `ReviewWorker.Worker.Restart` | internal/worker/worker.go:95-123 | A process started on the tables of one that crashed in any reachable state is in the machine's state after that crash |
| `ReviewWorker.Worker.StaysReachable` | internal/worker/worker.go:95-284 | What the worker performs is exactly the machine's operations on the same answers, and stays reachable |
| `ReviewWorker.Worker.Run` | internal/worker/worker.go:95-123 | Any number of turns goes through exactly the machine's states for the answers given and ends ready; it ends early only when the context is cancelled |
| `ReviewWorker.Worker.RunJob` | internal/worker/worker.go:144-178 | A claimed job is reviewed, its row gets the verdict of that review, and a dead one is reported, each exactly as the machine does |
| `ReviewWorker.Worker.Review` | internal/worker/worker.go:191-284 | A review pass takes exactly the machine's steps and returns success exactly when the machine is about to record success; without a provider it fails without an operation, and with one it never ends without an operation |
| `ReviewWorker.Worker.ReviewBudgeted` | internal/worker/worker.go:208-221 | The spent-budget check comes before the same-head check, on the budget just read |
| `ReviewWorker.Worker.ScopedDiff` | internal/worker/worker.go:290-316 | The whole diff exactly on the first cycle or without a reviewed head, else the comparison with that head, else the whole diff; an error if and only if the last call made fails, all in terms of the answers |
| `ReviewWorker.Worker.CollectFindings` | internal/worker/worker.go:330-346 | The loop computes the specified table and order |
| `ReviewWorker.Worker.RankAndCap` | internal/worker/worker.go:353-360 | Sorted by rank and cut only at a positive cap; nothing tried is less severe, in the chain of severities, than anything over the cap |
| `ReviewWorker.Worker.PostAll` | internal/worker/worker.go:365-391 | Each accepted comment is recorded before the next one is posted; accepted and rejected findings together are exactly those tried, each in order |
| `ReviewWorker.Worker.PostFindings` | internal/worker/worker.go:323-406 | No selected finding is lost: posted and unposted are exactly the tried ones shuffled with the rejected ones first and the over-cap ones behind |
| `ReviewWorker.EveryFindingShown` | internal/worker/worker.go:318-322 | Every first eligible occurrence without a record is among the findings posted or the findings left for the summary |
| `ReviewWorker.Worker.Conclude` | internal/worker/worker.go:255-284 | Summary, then its id, then cycle and head in one write, each only after the one before succeeded |
| `ReviewWorker.Worker.PostSummary` | internal/worker/worker.go:410-427 | The stored id is kept when the same cycle's summary is edited; otherwise the new comment's id is returned |
| `ReviewWorker.Worker.HandleExhausted` | internal/worker/worker.go:432-459 | Silent without any operation when notices are off or one was posted; otherwise post, then flag |
| `ReviewWorker.Worker.ReportFailure` | internal/worker/worker.go:463-480 | Exactly one note is tried with a provider and none without; the worker is ready afterwards whatever became of it |
| `Webhook.GitHubJob` | internal/webhook/webhook.go:167-234 | Accepted exactly for opened, ready_for_review, reopened and synchronize with a head, ignored exactly for other events and actions; says which payload field becomes repository, number, head, base and event, and that the id is built from exactly the five facts |
| `Webhook.GitLabJob` | internal/webhook/webhook.go:237-304 | The same for open, reopen, and update with an old revision, of merge requests; the head comes from the last commit when the merge request names none |
| `Webhook.SameIdSameFacts` | internal/webhook/webhook.go:215-233 | Two deliveries share an id exactly when provider, repository, number, head and being a reopen agree |
| `Webhook.QueueOfDeliveries` | internal/store/store.go:138-166 | After any sequence of deliveries the queue holds one fresh row per distinct delivery in order of first arrival |
| `Webhook.FirstsExact` | internal/store/store.go:138-166 | That list represents every delivery and has no two of the same facts |
| `Webhook.Handler.Serve` | internal/webhook/webhook.go:82-126 | Status, queue and wake-up token for every parse result and every database outcome; a token is left exactly by a new job |
| `Arrivals.NoDeliveryLost` | internal/store/store.go:138-166 | Over a whole run with crashes the queue lists exactly the distinct deliveries so far, in order: the worker never adds, drops or reorders a row |
| `Wakeup.NoLostWakeup` | internal/worker/worker.go:95-139 | With any number of concurrent handlers, the one-slot channel, and processes that crash and start again on the queue: while the worker waits on what was an empty queue and a runnable row exists, a token is buffered or a handler is about to send one, unless an enqueue inserted its row and reported an error |
| `Wakeup.SilentEnqueueNeedsTimer` | internal/webhook/webhook.go:96-102 | That exception is real: only the poll timer finds such a row |
| `Wakeup.FailedClaimNeedsTimer` | internal/worker/worker.go:107-114 | So is a wait after a failed claim |
| `Keys.KeysAsWritten` | internal/webhook/webhook.go:215-233 | The text of each key for one pull request |
| `Keys.PRKeyRoundTrip` | internal/store/store.go:54-56 | A pull-request key reads back to provider, repository and number whatever the repository is called, so keys never collide |
| `Keys.DeliveryIdRoundTrip` | internal/webhook/webhook.go:215-233 | A delivery id reads back to all five parts when the head is a commit id, even if the repository holds ':' or '#' |
| `Keys.HeadsWithColonsCollide` | internal/webhook/webhook.go:215-222 | Why the head must be a commit id: otherwise two different deliveries share one id |
| `Keys.NoteIdRoundTrip` | internal/provider/gitlab.go:264-275 | An update of a GitLab summary addresses the merge request and note that the post created |
| `Keys.RefsKeyRoundTrip` | internal/provider/gitlab.go:178-179 | The memo's key reads back to repository, number and head and is never empty |
| `GitLab.DiffRefs.Lookup` | internal/provider/gitlab.go:178-199 | Answers from the slot on a hit, else asks once and overwrites key and refs together; a failed fetch changes nothing |
| `GitLab.SlotHolds` | internal/provider/gitlab.go:194-196 | Over every call sequence the slot's key and refs belong to one and the same revision |
| `GitLab.MemoIsTransparent` | internal/provider/gitlab.go:178-199 | Over every call sequence each answer is the true one for its revision, and there is an answer exactly when the forge gives one or the last answered call was about the same revision |
| `GitLab.FetchesAreSwitches` | internal/provider/gitlab.go:181-196 | Successful fetches equal the changes of revision along the answered calls |
| `LimitedWriter.Writer.Write` | internal/reviewer/cli.go:158-176 | Stores what fits and reports the whole write; on a failing sink stores and reports what the sink took |
| `LimitedWriter.TakeIsPrefix` | internal/reviewer/cli.go:163-166 | What is taken of a write is a prefix of it, as long as fits |
| `LimitedWriter.KeepsTheHead` | internal/reviewer/cli.go:153-176 | However the output is cut into writes, the sink is the prefix of it whose length is the cap or the whole, nothing for a negative cap, and the rest of the cap remains |
| `Scanner.BalancedObject` | internal/reviewer/reviewer.go:221-251 | The loop returns the text up to the brace where the specified scan stops, or fails when it does not stop |
| `Scanner.ShortestBalanced` | internal/reviewer/reviewer.go:221-251 | Started at a brace, the result is the unique shortest prefix whose unquoted braces balance |
| `Scanner.UnquotedBraces` | internal/reviewer/reviewer.go:227-247 | Which braces count, JSON or not: those outside of string literals, where a backslash hides the next character inside a literal and means nothing outside |
| `Scanner.ValueQuiet` | internal/reviewer/reviewer.go:227-247 | Any printed JSON value leaves the scanner in the state it found and never stops it below the top level |
| `Scanner.ObjectComesBack` | internal/reviewer/reviewer.go:221-251 | Started at any printed object, whatever follows, the scan returns exactly that object's text |
| `Extract.ExtractLast` | internal/reviewer/reviewer.go:173-217 | The loop, for any test of what a payload is, returns the last object that passes it, else the last object, and tells no brace from no balanced object |
| `Extract.ExtractJson` | internal/reviewer/reviewer.go:173-217 | Returns the last payload among the top-level objects, else the last object, and tells no brace from no balanced object |
| `Extract.ObjectsStand` | internal/reviewer/reviewer.go:184-206 | Of any text: the objects found stand one behind the other, and outside of them no object begins |
| `Extract.ObjectAtMeans` | internal/reviewer/reviewer.go:189-192 | An object begins a text exactly as the shortest balanced prefix, if that is valid |
| `Extract.SuffixSurvives` | internal/reviewer/reviewer.go:184-195 | Behind a text in which no object begins, malformed ones included, the rest is searched as if it stood alone |
| `Extract.ExtractMeans` | internal/reviewer/reviewer.go:173-217 | For any text: an error exactly without a valid object, else the last of its objects with "findings" or "summary" anywhere in it, else the last one |
| `Basics.ContainsAnywhere` | internal/reviewer/reviewer.go:198 | The payload test finds its word at any place of the text |
| `Extract.ObjectsComeBack` | internal/reviewer/reviewer.go:184-206 | The objects cut out of any prose interleaved with printed objects are exactly those objects, in order |
| `Extract.ExtractComesBack` | internal/reviewer/reviewer.go:173-217 | Round trip: out of any prose and printed objects comes the last object with "findings" or "summary" at any place of its text, else the last one; without objects it fails |
| `Extract.ParseResult` | internal/reviewer/reviewer.go:139-167 | The loop keeps exactly the specified findings of the chosen payload; a missing or undecodable payload is an error |
| `Extract.KeptUsable` | internal/reviewer/reviewer.go:149-164 | The kept findings are exactly those with a file and a title, in the payload's order, each with one of the four severities |
| `Extract.NormalMeans` | internal/reviewer/reviewer.go:156-158 | A severity other than the four becomes "minor"; file, line, title and body stay |
| `Limits.ResetCanBeLost` | docs/adr/0004-two-review-cycles-per-pull-request.md:48-53 | A run in which a crash between claim and reset leaves a runnable reopened delivery that has not reset |
| `Limits.NowOrNever` | internal/worker/worker.go:202-206 | Once a delivery was claimed and its worker is not in front of the reset, no continuation of the run resets for it |
| `Limits.ResetOnlyNow` | internal/worker/worker.go:202-206 | A claimed delivery can still reset if and only if the worker stands in front of its reset |
| `Notices.OwnPassIsLast` | internal/worker/worker.go:276-281 | An unfinished delivery that has spent its cycle made the last completed pass of its pull request |
| `Notices.RerunAfterPass` | internal/worker/worker.go:213-221 | A re-run behind the saved pass is never reviewed again; it leads to the notice if and only if its own pass was the last of the budget, notices are on and none is stored, and else it finishes |
| `Notices.NoticeAnswersPush` | docs/adr/0004-two-review-cycles-per-pull-request.md:21-23 | The notice comes from a delivery that spent no cycle, or a fault made the delivery of the last pass run again on the head reviewed last |
| `Notices.NoticeWithoutPush` | internal/worker/worker.go:213-221 | For every budget a run with only as many pushes as it has cycles, each of them reviewed, that ends in the budget notice |
| `Limits.OneSummaryUnlessLost` | docs/adr/0011-comment-dedup-by-fingerprint.md:22-25 | The exact condition for at most one summary per pass |
| `Limits.TwoSummaries` | docs/adr/0011-comment-dedup-by-fingerprint.md:22-25 | A run in which a retried job leaves two summaries of one pass |
| `FailureNotes.NotesAlwaysOk` | internal/worker/worker.go:141-178 | The exact account of failure notes: a row marked dead with a provider is owed one, each death that was not saved owes one more, and every note owed was accepted, was lost, or is being posted |
| `FailureNotes.NotesBounded` | internal/worker/worker.go:463-480 | A delivery gets at most one note more often than its row was left running and none without a provider; the exact condition under which a dead row has its note |
| `FailureNotes.NoteWithoutDeath` | internal/worker/worker.go:169-177 | The exact condition under which a delivery that is not dead has a note; without an unsaved death every note is final |
| `FailureNotes.NoteThenRetry` | docs/adr/0012-failure-handling-retry-dead-letter-note.md:17-24 | For every number of attempts a run in which the note is accepted and the delivery is reviewed again |
| `FailureNotes.SilentDrop` | internal/worker/worker.go:141-143 | For every number of attempts a run that ends with a dead row and no note |

## Left out

- ReviewWorker.Worker.Run: takes a number of turns, because the endless loop has no end to state a result about; the results hold for every number.
- ReviewWorker.Worker.FetchDiff: the metadata call and the diff calls are one operation, because none of them writes anything.
- Crashes inside a method of the worker: a crash is a step of the machine between any two operations, and `Restart` takes over from there.
- Machine.Enabled: a successful summary post returns an id that is not empty, as both providers build it.
- Wakeup.NoLostWakeup: has its own small state, because a blocked worker and the channel are not part of a crash-free run of `Worker`; durations of the poll timer and of retries are not modelled.
- Isolation.RunsAlone: the projected run renumbers rows, because a row's id is its position.
- SQL text, the driver, transactions and pragmas: each Store method is atomic over the single connection.
- HTTP, form and payload decoding, signature and token checks, body limits, the health endpoint and PendingCount.
- The text of comments, summaries, notices and failure notes, the prompt and the rate-limit pattern.
- The engine chain's fallback loop: an engine call here succeeds with findings or fails.
- Process control of the command-line engines: start, timeout, kill and exit codes.
- json.Valid as code and the JSON decoder: parameters with the meaning of the grammar.
- The hash behind fingerprints: two findings may share one, and nothing here claims otherwise.
- What a full diff covers: the forge answers for its current head, which may not be the job's, so the chain of passes is about heads and scopes only.
- Operators editing the database, and settings that change between restarts.
- The mutex of the diff-refs memo: lookups are taken one after another; two that overlap may both ask the forge.
