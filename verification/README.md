# Verified model of rsdecider

A Dafny model of the parts of rsdecider that carry its promises: the coalescing, batching scheduler; the
assembly of token sequences; the Python-style JSON printer; idempotency records; cache keys; the join of a
request; the start-up checks; and the export gate. `dafny verify dfyconfig.toml` checks the whole project.

## How it is laid out

| files | what they model |
|---|---|
| `Types` | values shared by the other modules |
| `Pick`, `Batcher` | choosing a batch from the reorder buffer, in place |
| `SchedulerModel` | the scheduler as a state machine: any number of clients, models and workers, one step per atomic action |
| `SchedulerInvariant`, `SchedulerSteps` | one invariant, and that every step keeps it |
| `SchedulerTheorems`, `SchedulerLiveness` | what follows for every run: ownership, values, conservation, the worker handshake and its loss, admission, bounded waiting, draining |
| `Verdict` | when a request is admitted and what admission does, in plain numbers |
| `Answers`, `ScanTimes` | what each item of a batch is told, that who is waited for is answered, that nothing too late is dispatched |
| `SchedulerWitness` | runs spelled out, to states where a theorem's condition is needed |
| `Admission`, `RunJobs` | `admit` and `run_jobs` as imperative code, refining the state machine's admission step and a turn-by-turn specification |
| `PyJson`, `JsonParser`, `JsonRoundTrip`, `JsonTheorems`, `JsonSpelled` | the printer, a reader written from RFC 8259 alone, that they undo each other, and what the reader leaves open |
| `Sequence`, `Questions`, `Prefix`, `Padding` | from a client's question to tokens, to a padded batch, and back to one row of logits |
| `IdempotencyModel`, `IdempotencyAnswers`, `IdempotencyTheorems`, `IdempotencyExclusion`, `Idempotency` | records shared by many requests and instances, each store command a step |
| `Cache`, `Decide` | cache keys, the two cache tiers, and the join of cached and computed answers |
| `EndToEnd` | one request over a run of the scheduler: each layer's assumptions met by the layer below, and one theorem over all of them |
| `Settings`, `Gate` | start-up checks and the export decision gate |

An admitted item's generation is its index in the state's list of items. An item is followed through its whole
life, including the stages of its drop: tokens, then map entry, then sender, then permit. A subscription is a
strong handle on an item's one-shot channel, so an entry can be joined exactly while somebody holds one.

## What the proofs turned up

- A rejected admission may already have raised deadlines of entries it joined (`src/scheduler.rs:232-233`);
  everything else is untouched. It leaves no trace exactly when no such entry had an earlier deadline.
  `SchedulerTheorems.RejectionRaisesDeadlinesOnly`, `SchedulerTheorems.RejectionChangesNothingIff`,
  `SchedulerWitness.RejectedButRaised`.
- A backend factory that panics while a worker is being rebuilt (`src/scheduler.rs:455`) is outside the unwinding
  guard. The worker's thread ends, its idle permit comes back, and the live count stays. A dispatch may then wait
  in the channel while no worker waits for it, though there is always room to send it
  (`SchedulerWitness.DispatchWithoutWorker`, `SchedulerTheorems.SendNeverBlocks`). If it was the last thread, the
  next send fails: its batch and the buffer are dropped unanswered, the batcher ends and the queue closes
  (`src/scheduler.rs:344-346`), but the model still counts as live, so `ready` goes on saying ready
  (`SchedulerWitness.LastCrashEndsTheModel`, `SchedulerTheorems.CrashedModelLooksLive`). Every permit handed out has
  its waiting worker exactly in the runs in which no rebuild panicked: `SchedulerTheorems.HandshakeHoldsIff`.
- A computation for a key can happen more than once: the cache lookup and the admission are separate moments,
  and an orphan may run beside a new item (`SchedulerWitness.OrphanBesideSuccessor`). What holds is that only one of those with their map entry still ahead has
  subscribers. An item past that stage may still have some, until its sender is dropped.
  `SchedulerTheorems.OneSubscribedItemPerKey`, `SchedulerWitness.TwoSubscribedPastEntry`.
- The idempotency store writes a response unconditionally, so a request that finishes after its pending record
  expired replaces another's record. That is harmless if and only if responses are kept at least as long as
  pending records (`idempotency_ttl_secs` against the request timeout plus five seconds). The defaults satisfy
  this; no start-up check demands it. A lifetime of zero is covered too: the shared store refuses to write it, the
  in-process one writes a record that is gone at once. `IdempotencyExclusion.LatenessIsHarmlessIff`.
- The start-up check that the largest request fits a model's queue multiplies machine words
  (`src/config.rs:189`). A release build lets the product wrap, and the check then says nothing; it does what it
  should exactly when the product does not wrap. `Settings.ValidatedRequestsFitIff`, `Settings.WrappedLimitsPass`.
- In real arithmetic the gate's first condition, disagreement on a decisive question, follows from the second
  and never decides alone (`tools/export_onnx.py:97`). `Gate.GateIsTheMaxima`.

## What is assumed

- The network answers row by row (`Padding.AnswersRowwise`), the hash has no collisions, equal fingerprints mean
  equal models, the second cache tier returns what was put under a key, and texts are shorter than 2^64 bytes.
- The tokenizer looks at most 64 bytes past a word's end: texts that agree up to the end of a word have the same
  tokens up to 64 bytes before it (`Prefix.Local`). Nothing is assumed of places inside a word that follows white
  space. For the theorems on masks it makes the mask token only of text that spells the mask, and bytes spell the
  mask only where the text does, as they do in UTF-8 (`Decide.SpellsAlike`).
- A float is the shortest decimal its formatter reports: sign, digits with a nonzero first one or a plain zero,
  exponent. JSON integers are unbounded here.
- Library pieces are taken as what they document: semaphores with atomic acquisition, an unbounded queue in
  order, a bounded channel, one-shot channels, a store whose commands are atomic and whose entries expire.

## Model

| member | source | states |
|---|---|---|
| SchedulerInvariant.InitInv | src/scheduler.rs:127-179 | A freshly started scheduler, with any limits for any number of models, satisfies the invariant. |
| SchedulerSteps.StepKeepsInv | src/scheduler.rs:81-470 | Every atomic action of every client, admitting task, batcher, worker and dropping item keeps the invariant: ownership of entries, conservation of permits and tokens, the idle handshake, right values. |
| SchedulerSteps.AdmitKeeps | src/scheduler.rs:224-286 | One admission, rejected or not, keeps the invariant for every request whose keys are unique. |
| SchedulerSteps.NextBatchDivides | src/scheduler.rs:341-342 | A batch and what it leaves in the buffer divide the buffer without repeats, and the oldest item leads. |
| SchedulerSteps.FreshIsNovel | src/scheduler.rs:230-239 | The new items are exactly the jobs without a live entry, and their keys stay unique. |
| SchedulerSteps.StepKeepsRaws | src/scheduler.rs:410-427 | In every step, what a delivering worker holds are its batch's outputs, one for each item, in the batch's order. |
| SchedulerSteps.OutputIsRight | src/scheduler.rs:427-434 | The output delivered by position to an item is the answer for that item's own key. |
| SchedulerTheorems.RunKeepsInv | src/scheduler.rs:81-470 | The invariant holds in every state of every run. |
| SchedulerTheorems.OneSubscribedItemPerKey | src/scheduler.rs:228-239 | In every reachable state at most one item of a key that still has its entry stage ahead has subscribers, though an orphan may still be queued or running. |
| SchedulerWitness.TwoSubscribedPastEntry | src/scheduler.rs:86-100 | A reachable state in which two outstanding items of one key have subscribers, one of them past its entry stage: the condition of the row above cannot be dropped. |
| SchedulerWitness.OrphanBesideSuccessor | src/scheduler.rs:228-239 | A run in which a client leaves while its item runs and another asks for the same key: both items are with workers at once, one of them subscribed. A key may be computed twice. |
| SchedulerTheorems.DropRemovesOwnEntryOnly | src/scheduler.rs:92-100 | Dropping an item removes the entry it owns or none; an entry left standing belongs to another item that is still outstanding. |
| SchedulerTheorems.DeadItemIsUnlisted | src/scheduler.rs:92-100 | An item that died without a result is no longer listed, so nobody can join it again. |
| SchedulerTheorems.GoneItemsAreResolved | src/scheduler.rs:86-100 | No subscriber is left waiting on an item that has gone, on any exit path. |
| SchedulerTheorems.DeliveredAnswersAreRight | src/scheduler.rs:427-434 | Whatever the interleaving, every successful result a client receives is the backend's output for its own key. |
| SchedulerTheorems.CachedBeforeUnlisted | src/scheduler.rs:429-434 | A computed result is in L1, and right, before its entry can disappear, unless its key was evicted since it was last cached. |
| SchedulerTheorems.Conservation | src/scheduler.rs:111-113 | Free permits plus outstanding items are always the limit, and the token counter is the summed length of the items that have not given theirs back. |
| SchedulerTheorems.TokensNeverUnderflow | src/scheduler.rs:94 | The subtraction on drop never goes below zero. |
| SchedulerTheorems.NothingLeft | src/scheduler.rs:111-113 | With nothing outstanding for a model, what is held and counted for it is zero. |
| SchedulerTheorems.DispatchHasWorker | src/scheduler.rs:322-346 | Unless a rebuild panicked, a dispatch waiting in the channel always has a worker ready to take it. |
| SchedulerTheorems.SendNeverBlocks | src/scheduler.rs:343-346 | Whenever the batcher sends, the bounded channel has room and some thread can receive, panicked rebuilds or not. |
| SchedulerTheorems.LastRetirementLeavesNothing | src/scheduler.rs:453-467 | Once the last worker has retired the channel is empty, no item is in a batch, and the batcher holds no idle permit. |
| SchedulerTheorems.PromisedAndWaiting | src/scheduler.rs:322-346 | Idle permits that are free, held by the batcher or in the channel are as many as the waiting workers and the workers lost to panicked rebuilds together. |
| SchedulerTheorems.HandshakeHoldsIff | src/scheduler.rs:453-467 | At the end of any run from a fresh start, each such permit has its waiting worker if and only if no rebuild of the model panicked in the run. |
| SchedulerTheorems.CrashedModelLooksLive | src/scheduler.rs:453-467 | After a panicked rebuild the live count stays positive and the idle semaphore is never closed; with no thread left nothing is sent or taken any more. |
| SchedulerTheorems.FailedDispatchEndsTheModel | src/scheduler.rs:344-346 | The first dispatch after the last thread is gone drops batch and buffer unanswered, ends the batcher and lets the queue close, while the model counts as live. |
| SchedulerTheorems.ClosedQueueFailsFast | src/scheduler.rs:296-303 | An item handed to a closed queue is failed at once. |
| SchedulerTheorems.DroppedIsNeverAnswered | src/scheduler.rs:86-100 | What is dropped without an answer never gets one in any run; once it is gone its channel is closed. |
| SchedulerWitness.DispatchWithoutWorker | src/scheduler.rs:453-467 | A run to a state where one worker was lost, one is busy, and a second dispatch waits in the channel with nobody waiting for it. |
| SchedulerWitness.LastCrashEndsTheModel | src/scheduler.rs:344-346 | A run in which both workers are lost: the next item is dropped unanswered, the batcher has ended, the queue is closed, and two workers still count as live. |
| SchedulerTheorems.RejectionRaisesDeadlinesOnly | src/scheduler.rs:230-272 | A rejected request leaves entries, permits, tokens and generations alone; it may have raised deadlines of entries it could join, to its own deadline. |
| SchedulerTheorems.RejectionChangesNothingIff | src/scheduler.rs:230-234 | A rejection leaves the state as it was if and only if no entry the request could join has a deadline before the request's own. |
| SchedulerWitness.RejectedButRaised | src/scheduler.rs:230-267 | A run to a request that is rejected for lack of permits after it raised the deadline of an item it could have joined. |
| SchedulerTheorems.IdleModelsAdmit | src/scheduler.rs:249-269 | With nothing outstanding for the models it touches, a request with no more jobs for a model than its limit is admitted whatever the cost estimate, and reaches an open queue while a thread lives. |
| SchedulerTheorems.AdmittedSubscribesAll | src/scheduler.rs:230-239 | An admitted request holds a subscription for each of its keys on the entry now listed: the old one where it could join, a new one otherwise. |
| Verdict.AdmittedIff | src/scheduler.rs:242-272 | In plain numbers: a request is admitted if and only if for every model with n > 0 new jobs there are n free permits and there is no estimate, or no tokens are ahead, or (tokens ahead + own) x estimate / workers is at most headroom x time left. |
| Verdict.CountedFitIff | src/scheduler.rs:242-272 | The same verdict for jobs already counted model by model. |
| Verdict.MoreRoomNeverRejects | src/scheduler.rs:249-259 | More time, more headroom, more permits or fewer tokens ahead never turn an admission into a rejection. |
| Verdict.JoinedAreRaised | src/scheduler.rs:230-234 | Whatever the verdict, the deadline of each item joined becomes the later of its own and the request's; every other item stays as it was. |
| Verdict.NewAreRegistered | src/scheduler.rs:273-285 | Each new job of an admitted request gets an item of its own: its job, unanswered, not yet queued, the request's deadline, listed under its key, a handle for the client. |
| SchedulerWitness.BusyShedsAndAdmits | src/scheduler.rs:256-262 | A run to a busy model with an estimate, four tokens ahead and two workers: four more tokens mean two seconds of work; with two seconds left the request is shed, with three it is admitted. |
| SchedulerLiveness.LineStep | src/scheduler.rs:319-347 | No step moves a waiting item back in buffer and queue; each dispatch of its model moves it forward or takes it; it leaves only in a batch, dead, or with the batcher's end. |
| SchedulerLiveness.WaitIsBounded | src/scheduler.rs:319-347 | An item at position p that stays wanted is in a batch before its model has dispatched more than p times. |
| SchedulerLiveness.LineWithinLimit | src/scheduler.rs:319-320 | Buffer and queue together never hold more than max_pending items. |
| SchedulerLiveness.LeavesWithinMaxPending | src/scheduler.rs:319-376 | A wanted item leaves in a batch within max_pending dispatches, whatever arrives later. |
| SchedulerLiveness.NeverStuck | src/scheduler.rs:313-470 | While an item is outstanding, some action of the scheduler itself is possible. |
| SchedulerLiveness.InternalStepsUseUpWork | src/scheduler.rs:313-470 | Every action of the scheduler itself decreases a measure of the work left. |
| SchedulerLiveness.NoEndlessWork | src/scheduler.rs:313-470 | Left alone, the scheduler never runs forever. |
| SchedulerLiveness.QuietIsRestored | src/scheduler.rs:66-100 | When no action is left, nothing is outstanding and permits, tokens and lists are back at their start values, after success, error, skip, panic and retirement alike. |
| SchedulerLiveness.Drains | src/scheduler.rs:66-100 | From any state satisfying the invariant a run of the scheduler's own actions restores everything. |
| Answers.BatchTellsAll | src/scheduler.rs:404-450 | Whatever a batch's run comes back with and whatever else happens meanwhile, once its worker is done with it each item has been told what the reply says for its own position: its own output, or to all the backend's error, a wrong number of outputs, a panic. |
| Answers.RunEnds | src/scheduler.rs:410-443 | One output an item updates the estimate, eight tenths old and two tenths new, the first taken whole; anything else leaves it and is a failure. |
| Answers.DeliveryEnds | src/scheduler.rs:450-467 | A worker is rebuilt after a panic and only then; otherwise it waits again and its idle permit comes back. |
| Answers.QueuesIfOpen | src/scheduler.rs:299 | Handed to an open queue an item is the last in it. |
| Answers.SmoothRunsAnswer | src/scheduler.rs:313-470 | An item somebody waits for, with time left, at a model with an open queue and a living worker: whatever the scheduler does without a failed run or rebuild, when it has nothing left to do the item has been answered with its own key's answer. |
| Answers.WaitedForIsAnswered | src/scheduler.rs:313-470 | From every reachable state there is such a run of the scheduler's own steps. |
| Pick.ChosenIsGood | src/scheduler.rs:353-369 | The chosen positions rise, each length is within 2x of the leader's, items and padded tokens stay within the caps, and no compatible item left behind could still be added unless the item cap is reached. |
| Pick.SplitIsPartition | src/scheduler.rs:371-375 | Batch followers and remaining buffer together are the buffer, item for item. |
| Pick.FollowersAt | src/scheduler.rs:371-374 | The followers are the items at the chosen positions, in arrival order. |
| Pick.StaysInOrder | src/scheduler.rs:371-373 | An item left behind stays in the buffer and never moves back. |
| Pick.StaysBehind | src/scheduler.rs:371-373 | Two items left behind keep their order. |
| Pick.PickedIsGood | src/scheduler.rs:353-376 | In plain numbers on lengths: at most max_batch_items; all within twice and half of the leader; items times the longest at most max_batch_tokens, or the leader alone if it is longer; and nobody compatible left behind who could still be added below the item cap. Batch and rest keep their order and make up the buffer. |
| Pick.PickBatch | src/scheduler.rs:353-376 | In place: the batch is the leader and the chosen items in arrival order, the buffer keeps the others in order. |
| Pick.TakeOut | src/scheduler.rs:370-374 | Removing the highest index first takes out exactly the chosen items and leaves the rest in order. |
| Batcher.Retain | src/scheduler.rs:340 | Exactly the items that pass stay, in order. |
| Batcher.DispatchLeads | src/scheduler.rs:341-346 | In every reachable state a dispatch sends a batch led by the oldest buffered item that is good, in the sense of the row above, by the model's own limits and the items' token counts, and leaves the rest in order. |
| Batcher.NextBatchLeads | src/scheduler.rs:341-342 | The same of the next batch of any line of known items. |
| Batcher.NextDispatch | src/scheduler.rs:339-342 | Of the buffer exactly the items stay that have no outcome, a subscriber and time left; the oldest leads a good batch by the model's limits, as the state machine dispatches it; none when all were dead. |
| Batcher.ScanIsRetain | src/scheduler.rs:339-342 | A scan item by item at one instant leaves exactly what keeping the live items leaves, and leads to the same next batch. |
| ScanTimes.ScanDropsIff | src/scheduler.rs:82-84 | The scan drops an item if and only if it was told already, nobody holds a handle on it, or its deadline has come by the scan's moment. |
| ScanTimes.ScanStartsNow | src/scheduler.rs:339 | A scan is for the moment at which it begins. |
| ScanTimes.DispatchedInTime | src/scheduler.rs:339-346 | In every reachable state each item dispatched had time left when the scan before it began. |
| Admission.Scheduler.Admit | src/scheduler.rs:227-286 | The critical section, run on mutable state with early exits, has exactly the effect and the verdict of the all-or-nothing admission step, hands out consecutive new generations, and admits if and only if the new jobs fit each model in plain numbers. |
| Admission.Scheduler.Join | src/scheduler.rs:228-239 | Live entries are joined and their deadlines raised; the other jobs are collected as new, in order. |
| Admission.Scheduler.Acquire | src/scheduler.rs:242-272 | Permits are taken for every model or, on the first refusal, for none; all are taken if and only if each model has the permits and the time for its new jobs. |
| Admission.Scheduler.Count | src/scheduler.rs:240-241 | Each model's count is the number of new items for it. |
| Admission.Scheduler.Release | src/scheduler.rs:261-267 | Giving back on refusal restores the permits already taken. |
| Admission.Scheduler.RegisterParts | src/scheduler.rs:273-285 | The new items are registered one by one; each finds a permit of its model left to split off. |
| Admission.Scheduler.RegisterOne | src/scheduler.rs:274-284 | One item gets an entry, a generation, one held permit and its tokens counted. |
| Admission.Scheduler.HandOver | src/scheduler.rs:288-305 | After the lock, items enter their queues in order; a closed queue fails the item instead. |
| RunJobs.TurnsAnswerExactly | src/scheduler.rs:187-220 | At most four admissions; success answers exactly the requested keys, each with a good value, also when items died and were admitted again. `EndToEnd.WorldOfRun` shows that a run of the scheduler gives good values. |
| RunJobs.SmoothRunSucceeds | src/scheduler.rs:194-219 | If every wait ends with a value, one admission suffices. |
| RunJobs.TurnsEndAsMet | src/scheduler.rs:194-219 | A request fails with an error exactly when the last turn it reaches ends with it: admission refused, deadline passed before or during the wait, the first failed outcome, or items still dropped at the last readmission. It succeeds exactly when that turn brings a value for all that is left. Each turn is one admission unless it came too late. |
| RunJobs.OwedIsDropped | src/scheduler.rs:201-217 | After a turn that goes on, exactly the keys whose items were dropped are still owed, with the jobs they had. |
| RunJobs.GoesOnIff | src/scheduler.rs:201-217 | A request admits again after one of its first three turns, if no outcome was a failure and some item was dropped, and only then. |
| RunJobs.FourAdmissionsAtMost | src/scheduler.rs:53 | Four admissions at most, whatever it meets. |
| RunJobs.FourDeathsEnd | src/scheduler.rs:212-217 | If all its items always die, four admissions and then the error for dropped items. |
| RunJobs.AnsweredTurn | src/scheduler.rs:201-217 | After a turn, answered and owed keys are disjoint, and the outcome is an error, the end, or one more admission for what is owed. |
| RunJobs.Run | src/scheduler.rs:187-193 | A job for an unknown model is refused before anything is admitted; otherwise the loop's result, over whatever the admissions and waits bring. |
| RunJobs.Loop | src/scheduler.rs:194-219 | The loop over todo, done and readmits computes the result and the number of admissions of the turn-by-turn specification, over whatever the admissions and waits bring. |
| RunJobs.TakeIn | src/scheduler.rs:201-217 | One turn ends the request with an error, or moves answered keys over and uses up one readmission if an item was dropped. |
| RunJobs.Settle | src/scheduler.rs:201-211 | Outcomes are taken in order up to the first failure. |
| PyJson.Dumps | src/model/pyjson.rs:5-9 | The printer's buffer ends up holding the text whose reading-back is proved below. |
| PyJson.Out.WriteValue | src/model/pyjson.rs:11-45 | Appends exactly one value's text to what was there, recursively. |
| PyJson.Out.WriteStr | src/model/pyjson.rs:47-69 | Appends the quoted text, character by character. |
| PyJson.Out.WriteChar | src/model/pyjson.rs:50-66 | Appends one character's short, \u or plain form. |
| PyJson.Out.WriteItems | src/model/pyjson.rs:22-27 | Appends a list's items with separators between them. |
| PyJson.Out.WriteFields | src/model/pyjson.rs:33-40 | Appends names and values with their separators. |
| JsonTheorems.DumpsRoundTrip | src/model/pyjson.rs:5-45 | For every value with finite numbers, in both modes, a reader written from RFC 8259 alone reads the printed text, followed by nothing or any delimiter, back to the same value and the same rest. |
| JsonTheorems.DumpsIsInjective | src/model/pyjson.rs:5-45 | Different values never print alike, across modes too. |
| JsonTheorems.NumbersPrintApart | src/model/pyjson.rs:15-20 | Integers show only sign and digits; a float shows an 'e' exactly in scientific layout and a point otherwise. |
| JsonTheorems.FloatTextIsExact | src/model/pyjson.rs:73-95 | For any sign, digits and exponent, what is read back is a float of that sign and exactly that decimal value. |
| JsonTheorems.CanonKeeps | src/model/pyjson.rs:73-80 | Normalising digits keeps the exact real value and yields a shortest decimal. |
| JsonTheorems.AsciiIsPlain | src/model/pyjson.rs:59-64 | ASCII mode emits only characters from space to tilde. |
| JsonTheorems.UnicodeEscapes | src/model/pyjson.rs:59-64 | Beyond the first plane a character becomes a surrogate pair that denotes it, as in section 7 of RFC 8259. |
| JsonSpelled.WordsAreSpelled | src/model/pyjson.rs:13-14 | null, true and false. |
| JsonSpelled.ListIsSpelled | src/model/pyjson.rs:22-31 | A list's values in order with a comma and one space between them, in brackets. |
| JsonSpelled.ObjectIsSpelled | src/model/pyjson.rs:32-43 | An object's fields in order, each the quoted name, a colon, one space, the value; a comma and one space between them. |
| JsonSpelled.StringIsSpelled | src/model/pyjson.rs:47-69 | Character by character: the seven short escapes, four lower-case hexadecimal digits for other control characters and in ASCII mode for what is beyond the tilde, as two units beyond the first plane; everything else itself. |
| JsonSpelled.IntIsSpelled | src/model/pyjson.rs:15-17 | Sign and decimal digits without needless zeros. |
| JsonSpelled.FloatIsSpelled | src/model/pyjson.rs:73-95 | Scientific below 1e-4 and from 1e16 on, with signed exponent of at least two digits; otherwise the point in its place, and .0 behind whole numbers. |
| JsonRoundTrip.LayoutIsText | src/model/pyjson.rs:81-94 | Each of the four layouts is an integer part, fraction and exponent valid under section 6 of RFC 8259. |
| JsonRoundTrip.LayoutKeepsValue | src/model/pyjson.rs:80-94 | Whichever layout is chosen, its digits and point denote the decimal that was given. |
| JsonRoundTrip.ValueReads | src/model/pyjson.rs:11-45 | At any place in any text, a printed value followed by a delimiter is read back, with the place after it. |
| JsonRoundTrip.StrReads | src/model/pyjson.rs:47-69 | A printed string is read back whatever it contains. |
| Sequence.Assemble | src/model/sequence.rs:139-167 | The pushing, truncating and retaining code produces the layout stated by position in the rows below. |
| Sequence.TruncateEach | src/model/sequence.rs:147 | Each option is cut in place to the given length. |
| Sequence.PushOptions | src/model/sequence.rs:154-159 | Each option is appended, its start recorded. |
| Sequence.RetainBelow | src/model/sequence.rs:165 | Exactly the markers below the limit are kept. |
| Sequence.PiecesAreOptions | src/model/sequence.rs:141-149 | Every option keeps its mask and a prefix of its tokens, never more than 48 of them. |
| Sequence.PiecesFit | src/model/sequence.rs:143-149 | If the full options, or 4 places an option, leave 16 of the head's limit, the cut options do. |
| Sequence.HeadAndOptionsFit | src/model/sequence.rs:143-150 | Then head and options together fit the head's limit. |
| Sequence.AssembledIsWellFormed | src/model/sequence.rs:139-167 | For all inputs: length at most max_len, markers strictly rising, each at a mask followed by its own option as far as the sequence goes. |
| Sequence.AllSurviveIff | src/model/sequence.rs:154-165 | All markers survive exactly when the last option starts before max_len. |
| Sequence.NothingIsCutOff | src/model/sequence.rs:139-167 | Under the fitting conditions and max_len >= head_max_len + 4, nothing is cut off and the sequence closes with the separator after as much state as there is room for. |
| Sequence.OnlyThePrefixShows | src/model/sequence.rs:161-164 | Two states that agree on the first max_len - 4 tokens give the same sequence. |
| Sequence.MasksAreMarkers | src/model/sequence.rs:139-167 | If head, options and state hold no mask token, the mask tokens are exactly those the markers point at. |
| Sequence.AssembledIsLaidOut | src/model/sequence.rs:139-167 | By position: the class token; the head's first tokens, all that fit in what the options leave of head_max_len and at least 8; the separator; each option behind its mask, its first 48 tokens if all leave 16 places, else an even share of at least 4; the separator; as much state as leaves room; the separator; cut at max_len. The markers are the masks' places below it. |
| Sequence.LaidOutIsOne | src/model/sequence.rs:139-167 | That layout leaves nothing open: it determines the tokens and the markers. |
| Questions.CollectPairs | src/model/sequence.rs:68-84 | The dedup loop keeps the first appearance of each label and refuses anything but strings. |
| Questions.Prepare | src/model/sequence.rs:64-127 | With the dedup loop inside, every question ends up as the preparation, or the refusal, that the lemmas below are about. |
| Questions.PreparedOptions | src/model/sequence.rs:85-113 | A prepared choice has 2-255 options with distinct labels, a score 2-10 levels, a noul two sides. |
| Questions.PreparationIsRight | src/model/sequence.rs:64-127 | Kind by kind: a choice's option k carries label k and its criterion, a list's labels once each in order of first appearance; a score's option k is level k; a noul's first option is the false side, its second the true side, with the default words where none are given; and each refusal exactly when it is due. |
| Questions.ReplacedIsSplit | src/model/sequence.rs:120-134 | Replacing splits a text at the mask, each occurrence found as early as it can be, and joins the parts with spaces. |
| Questions.ReplacedHoldsNoMask | src/model/sequence.rs:120-133 | After replacement the mask string occurs nowhere, not even across a replaced occurrence. |
| Questions.PreparedHoldsNoMask | src/model/sequence.rs:118-124 | No option text holds the mask; the head holds it only if the type's own words do. |
| Questions.Encode | src/model/sequence.rs:170-181 | An accepted question is its head's and options' tokens laid out by position over the state; a refused one failed on the first text the tokenizer refuses, or its last option would start at or past max_len. |
| Questions.TokenizeAll | src/model/sequence.rs:172 | The options' tokens in order, or the error of the first option the tokenizer refuses. |
| Questions.EncodedIsWellFormed | src/model/sequence.rs:170-181 | An accepted question has one marker an option, each at a mask, and fits max_len. |
| Questions.RefusedIff | src/model/sequence.rs:173-179 | A question is refused for length exactly when its last option would start at or past max_len. |
| Questions.EncodesIff | src/model/sequence.rs:170-181 | A question is accepted exactly when it has such a layout with one marker an option. |
| Questions.EncodingIsOne | src/model/sequence.rs:170-181 | It has one at most. |
| Questions.PreparedAlwaysFits | src/model/sequence.rs:139-181 | A prepared question is never refused when the limits leave 4 places an option and 16 for the head: 56 suffice for score and noul, 1036 for all. |
| Questions.OnlyMarkersAreMasks | src/model/sequence.rs:118-181 | From client text to tokens: no state, question or option text can add a mask token beside the markers. |
| Prefix.TokenizePrefix | src/model/mod.rs:101-120 | The mutable cut, walked back to a character and to white space, gives the tokens of the part that end 64 bytes or more before the cut, if they are as many as asked for, and all tokens otherwise; a short text is tokenized whole. |
| Prefix.CountClear | src/model/mod.rs:117 | Counts the leading tokens that end the margin before the cut. |
| Prefix.CutIsSound | src/model/mod.rs:105-114 | The text is only sliced between characters, at the last white space within the budget if there is one. |
| Prefix.CutEndsAWord | src/model/mod.rs:108-114 | The white-space search makes the cut the end of a word, in the text and in the part, unless there is no white space before it. |
| Prefix.OnlyTheBudgetIsRead | src/model/mod.rs:101-120 | If the beginning has tokens enough, the text is read no further than eight bytes a token wanted and the byte after. |
| Prefix.LeadingRefinesFull | src/model/mod.rs:99-120 | If the tokenizer is local at word ends, the result is all tokens, or the first ones and at least as many as asked for, wherever the budget falls in a word. |
| Prefix.LeadingFailsOnlyIf | src/model/mod.rs:99-120 | It fails only where the tokenizer fails on the text or on a part of it. |
| Prefix.LeadingHoldsNoMask | src/model/mod.rs:99-120 | Cut or whole, a text that does not spell the mask gives no mask token, local tokenizer or not. |
| Prefix.SameQuestionEitherWay | src/api.rs:378-379 | With max_len asked for and a tokenizer local at word ends, every question encodes as it would from the whole text. |
| Padding.Pad | src/model/session.rs:22-48 | Row by row and cell by cell: the row's values and then the pad, ones and then zeros in the masks, rows as wide as the longest and no wider, the types in order. |
| Padding.FillRow | src/model/session.rs:36-43 | Writing row i changes no cell of the rows before it and none beyond its own. |
| Padding.CellsApart | src/model/session.rs:37-42 | Cells of different rows or columns are different places. |
| Padding.UnpackIsRow | src/model/session.rs:22-48 | Reading a row through its mask gives back the row that was packed, whatever its length. |
| Padding.RowIsItem | src/model/session.rs:22-48 | Each row of a packed batch reads back as its own item's ids, markers and type. |
| Padding.SliceInRow | src/model/session.rs:101-110 | The logits slice for row i lies inside row i and inside the buffer. |
| Padding.Rows | src/model/session.rs:101-110 | Each item gets its own slice, its own probability and its own token count. |
| Padding.RunBatch | src/model/session.rs:88-111 | With a network that answers row by row, every item gets the logits, the act probability and the token count it would get alone: batching changes no answer. |
| IdempotencyTheorems.StepKeepsRecords | src/idempotency.rs:68-159 | Every command of every request, lost, late or applied, keeps all finished records and replies traceable to a finish. |
| IdempotencyTheorems.StepKeepsLog | src/idempotency.rs:119-131 | Whatever is kept is within the size limit and was handed in once, by a request for that key and body. |
| IdempotencyTheorems.ReplaysAreEarned | src/idempotency.rs:68-182 | Over all runs, with expiry, re-ownership and fallback: a replayed response was handed in earlier by another request with the same key and body, within the size limit. |
| IdempotencyTheorems.ProceedsOnlyWhenFree | src/idempotency.rs:79-102 | A request is let through only by a store that had no live record for its key, and leaves its own there. |
| IdempotencyTheorems.ReleaseTakesOnlyOwn | src/idempotency.rs:47-49 | A release removes nothing but the releaser's own pending record: no other owner's, no finished one. |
| IdempotencyAnswers.LocalBegins | src/idempotency.rs:79-86 | In-process: a live finished record of the same body answers with its response, a pending one with the time it has left, another body with a mismatch; a free slot takes the request's record for its timeout and five seconds, and lets it through. |
| IdempotencyAnswers.SetsIfFree | src/idempotency.rs:97-102 | SET NX takes a free slot, whether the reply comes or not, and leaves a live record alone. |
| IdempotencyAnswers.ReadsWhatIsThere | src/idempotency.rs:103-107 | GET remembers the live record, or that there is none. |
| IdempotencyAnswers.AnswersWhatWasRead | src/idempotency.rs:108-115 | PTTL: the record read answers as above, with at least a second to wait; without one the request starts over, twice at most, and then falls back. |
| IdempotencyAnswers.LateSetLands | src/idempotency.rs:97-99 | A SET NX given up on may still take a free slot, in the name of the request that gave up. |
| IdempotencyAnswers.EndsAsItLeaves | src/idempotency.rs:119-159 | A response small enough is kept for the configured time; otherwise the request's own live pending record goes, and nothing else. In the shared store at once, late or never. |
| IdempotencyAnswers.LandsAsItLeaves | src/idempotency.rs:132-145 | A command that was on its way lands like one applied at once. |
| IdempotencyAnswers.KeptIsReplayed | src/idempotency.rs:79-115 | Over all runs: after a response was kept, a later request with the same key and body is told exactly that response if it is told anything, and never let through, as long as the record is live, nobody evicts or writes over it, and the request's commands are answered. |
| IdempotencyAnswers.ReplayedWithinThree | src/idempotency.rs:79-115 | Such a request is told by its next command in process, by its next three at the shared store. |
| IdempotencyExclusion.StepKeepsExclusion | src/idempotency.rs:68-159 | Exclusion is inductive over steps without eviction, when responses are kept long enough or written in time. |
| IdempotencyExclusion.AtMostOneOpen | src/idempotency.rs:68-159 | Of two requests open for one key in one store, one is at least five seconds past its deadline. |
| IdempotencyExclusion.LatenessIsHarmlessIff | src/idempotency.rs:59-60 | However late requests finish, and for any lifetimes, zero among them, no two in-time requests are ever open for one key in one store, if and only if responses are kept at least as long as pending records. |
| IdempotencyExclusion.LateOwnerLetsTwoIn | src/idempotency.rs:132-139 | Otherwise there is a run, without eviction or lost commands, in which a late owner's response lets a third request in beside the second. |
| Idempotency.BeginShared | src/idempotency.rs:89-115 | Three rounds of SET NX, GET and PTTL: the first round that finds the slot free lets through, that misses a reply falls back, that reads a record answers as it says; after three the in-process store is asked. These are the phases the state machine takes. |
| Idempotency.TalkEnds | src/idempotency.rs:97-115 | Asking the shared store always ends: let through, answered, or sent to the in-process store. |
| Idempotency.Records.BeginLocal | src/idempotency.rs:79-86 | The in-process begin has the state machine's effect and verdict: replay, time to wait or mismatch by the live record, or its own record in a free slot. |
| Idempotency.Records.FinishLocal | src/idempotency.rs:148-157 | The in-process finish keeps a response that is small enough and otherwise removes its own live pending record, as the state machine does. |
| Cache.KeyOf | src/cache.rs:16-26 | Feeding the hasher segment by segment hashes the whole frame, laid out by position as below. |
| Cache.FramedInjective | src/cache.rs:21-24 | Length-prefixed segments can be told apart wherever their borders fall. |
| Cache.FrameInjective | src/cache.rs:15-26 | What is hashed is equal exactly for equal fingerprint, type and segments. |
| Cache.KeysTellApart | src/cache.rs:15-26 | With a collision-free hash, keys are equal exactly for the same model, type and segments. |
| Cache.FrameIsSpelled | src/cache.rs:13-26 | By position: rsdecider-cache-v1, the fingerprint, the type byte, and each segment behind its length in eight bytes, least significant first. |
| Cache.Store.Put | src/cache.rs:72-74 | Replaces one entry and no other. |
| Cache.Store.Get | src/cache.rs:78-109 | The first tier wins when its value has the length asked for; else a fitting second-tier value is promoted; else a miss that changes nothing. |
| Cache.LookupsAreGood | src/cache.rs:78-109 | Over a good second tier, lookups keep the first tier good and return good answers of the asked length, and miss exactly what neither tier has at that length. |
| Decide.SameKeySameQuestion | src/api.rs:326-328 | Equal keys mean the same model, type, state, head and options. |
| Decide.KeyIsSpelled | src/api.rs:326-328 | The key hashes the model's fingerprint, the type, and the state, the head and the options in this order. |
| Decide.KeysDetermineEncodings | src/api.rs:326-388 | Over all requests a key determines the tokens, which is what coalescing and the scheduler's jobs rely on. |
| Decide.EncodingIsWhole | src/api.rs:375-388 | For a tokenizer local at word ends that accepts the text and its beginnings, a question encodes as e if and only if e is its tokens laid out over the tokens of the whole state. |
| Decide.JobIsLaidOver | src/api.rs:378-388 | So every job's tokens are the question's over the whole state. |
| Decide.ErrorIsBlamed | src/api.rs:378-388 | A question that does not encode failed because the tokenizer refused the state or a beginning of it, or for its own reason. |
| Decide.OnlyMarkersAreMasksInJobs | src/api.rs:349-390 | From client text to the tokens of a job, with only as much of the state tokenized as can show: the mask tokens are exactly those at the markers. |
| Decide.CollectQs | src/api.rs:303-333 | Every question of every item, in order, with its item and key. |
| Decide.LookUp | src/api.rs:336-341 | Each question's lookup finds the first tier's output under its key if it has a logit for each option, else the second tier's if that has, else nothing; and what it finds is good. |
| Decide.TakeHits | src/api.rs:336-347 | The answered keys are exactly the hit ones; each value fits its question. |
| Decide.Missing | src/api.rs:353-354 | One item's questions that nobody asked before and no hit answers, in order: afterwards exactly the unanswered keys of the items so far are seen. |
| Decide.EncodeMissing | src/api.rs:378-389 | Each missing question becomes a job with its own tokens, those over the whole state; an error is that of the first that does not encode, and the tokenizer's or the question's own. |
| Decide.BuildJobs | src/api.rs:349-390 | One job for each key not answered, made from the first question that asks for it; a refusal is that of the first such question refused, by its item's gate or its encoding, and none is refused if jobs are built. |
| Decide.OwedIsOne | src/api.rs:349-390 | What a request owes the scheduler is determined: key by key, the job of the first question that asks. |
| Decide.OwedExists | src/api.rs:349-390 | If no question is refused there are jobs for all that is not answered. |
| Decide.Compute | src/api.rs:394-401 | Running the jobs answers exactly their keys, each with a good output of its question's length; it succeeds exactly when the last turn reached brings all that is left, and else refuses as that turn does. |
| Decide.FoundFits | src/api.rs:411-412 | Whatever is found under a question's key has a logit for each of its options. |
| Decide.ReadBack | src/api.rs:406-414 | The final lookup never misses; every item gets its replies in order, each saying where its answer came from. |
| Decide.DecideItems | src/api.rs:300-419 | A request that succeeds answers every question of every item with a good output for its own key, one logit an option, marked as cached exactly where a lookup for its key hit. It succeeds exactly when no question without a hit is refused and the last turn of its jobs brings all that is left; otherwise the first refused question or that last turn gives the reason. |
| EndToEnd.KeysDetermineAnswers | src/api.rs:326-388 | Whatever model and request a key comes from, its tokens and the network's answer to them are the same. |
| EndToEnd.EnvIsRight | src/api.rs:326-388 | The question and the answer the scheduler associates with a key are those of any request that asks it. |
| EndToEnd.JobsMayBeAdmitted | src/scheduler.rs:187-199 | The jobs built for a request, and any part of them again, are what admission asks of its callers. |
| EndToEnd.RunItems | src/scheduler.rs:404-415 | A worker's run of a batch through the padded session is accepted and brings, position by position, what the state machine expects of a run. |
| EndToEnd.AdmittedHandles | src/scheduler.rs:228-285 | After its admission a client's handles are for its own jobs' keys only, each on the entry then listed. |
| EndToEnd.HeardIsRight | src/scheduler.rs:201-211 | In any run, each outcome heard on a handle is resolved, is for a key still owed, and if a value, that key's answer. |
| EndToEnd.WorldOfRun | src/scheduler.rs:187-220 | A request that meets what happens in a run of the scheduler gets good values for keys it owes and nothing else. |
| EndToEnd.NextHandleIsNew | src/scheduler.rs:205-217 | A key whose item died unanswered is admitted again on an item of another generation. |
| EndToEnd.LooksAreRight | src/cache.rs:78-109 | Lookups into the first tier of any states of a run, and into a right second tier, are good. |
| EndToEnd.LastOfTurns | src/scheduler.rs:194-219 | If each turn of a list is for what the one before left owed, and only the last does not go on, the last turn the loop reaches is the last of the list. |
| EndToEnd.TurnsDecide | src/api.rs:394-401 | A request that is not refused succeeds exactly when its turns end answered, and fails as the last of them does. |
| EndToEnd.RefusalShows | src/scheduler.rs:194-217 | Overloaded: the run has a rejected admission of what was owed. Deadline: a state of the run at or past the request's deadline. An error: a handle of that turn heard an item fail with it, or die. |
| EndToEnd.Serve | src/api.rs:300-419 | Over any run, with other clients, evictions, panics and retirements in it, a request that succeeds answers every question of every item, in order, with exactly what its model's network answers to that question's own tokens, laid out by position over the tokens of the whole state. It succeeds if and only if no question without a hit is refused and its turns end answered; otherwise it fails for its first refused question, or as its last turn does, and the run shows why. |
| Gate.Stats.Update | tools/export_onnx.py:75-93 | The six statistics move as one observation of the specification. |
| Gate.Judge | tools/export_onnx.py:75-97 | Updating question by question and judging gives the verdict over the sequence: a failure exactly when something is off by more than 0.05. |
| Gate.ArgMaxIsFirst | tools/export_onnx.py:80 | Top-1 is the largest probability, and the first of equals. |
| Gate.GapBounds | tools/export_onnx.py:92 | No option's probability differs by more than the recorded gap. |
| Gate.TopTwo | tools/export_onnx.py:84-85 | Sorting puts the largest first, and of any two options one is at most the second. |
| Gate.SmallGapAgrees | tools/export_onnx.py:76-79 | If no probability moved by more than 0.05, a decisive question keeps its first-index argmax. |
| Gate.CloseAgrees | tools/export_onnx.py:75-93 | For any sequence, max_dp <= 0.05 implies agree_decisive equals n_decisive. |
| Gate.GateIsTheMaxima | tools/export_onnx.py:96-97 | The gate fails exactly when max_dp or max_dact exceeds 0.05. |
| Gate.FailsIff | tools/export_onnx.py:75-97 | The gate fails if and only if some option's probability or some act probability is off by more than 0.05. |
| Gate.TallyIsCount | tools/export_onnx.py:80-91 | Each count is the number of questions it is for: decisive, with a single option or one ahead of all others by more than 0.10; agreeing, with the same first largest option; near ties and flips the rest. |
| Gate.DecisiveIff | tools/export_onnx.py:81-85 | The top-two margin exceeds 0.10 exactly when one option is ahead of every other by more than that. |
| Gate.MaxIsMet | tools/export_onnx.py:92 | max_dp is the difference of one option of one question. |
| Gate.TallyCounts | tools/export_onnx.py:81-91 | Decisive and near-tie questions add up to all; agreements and flips are among them. |
| Gate.TallyBounds | tools/export_onnx.py:92-93 | The maxima bound every single question. |
| Gate.PassedFlipsAreNearTies | tools/export_onnx.py:76-97 | After a pass a changed decision was a near tie and costs at most 0.10 of the reference's probability. |
| Gate.MarginIsTight | tools/export_onnx.py:85 | At a margin of exactly 0.10 a change of 0.05 can turn the decision, so the comparison must be strict. |
| Settings.Validate | src/config.rs:162-225 | Passes exactly the valid configurations, through its loops and early returns, and otherwise reports the first problem in the order of the checks. |
| Settings.CheckModels | src/config.rs:169-196 | Passes if names are unique and every model entry is in order; otherwise reports the problem of the first entry that has one. |
| Settings.CheckModel | src/config.rs:174-195 | One entry's checks, in their order, with the product of the limits as the machine computes it; the first that fails is reported. |
| Settings.CheckKeys | src/config.rs:206-223 | Passes if key names are unique and every key entry is in order; otherwise reports the problem of the first entry that has one. |
| Settings.CheckKnobs | src/knobs.rs:42-62 | Passes exactly when no number is zero, a stored record fits the store and the headroom is in (0, 1]. |
| Settings.IsSha | src/config.rs:210-212 | 64 characters, digits or a to f. |
| Settings.ValidatedRequestsFitIff | src/config.rs:189-195 | Passing implies that the largest request fits every queue exactly when the product of the limits does not wrap. |
| Settings.WrappedLimitsPass | src/config.rs:189-195 | A configuration that passes although its largest request could never be admitted. |
| Settings.ValidRequestsAreAdmitted | src/api.rs:236-308 | Every request within validated limits is admitted when nothing is outstanding for the models it touches. |
| Settings.BatchesStayWithinTokens | src/api.rs:114-119 | With max_batch_tokens >= max_len every accepted question fits a batch, and any batch it leads stays within the token cap. |

## Left out

- SchedulerModel.AdmitSection: the critical section of `admit` is one step. It runs under the map lock, but permits, queued tokens and subscribers' handles are returned outside it, so in the program they may go while the section is under way: a check may see more left than at its end, or an entry as joinable whose other handles are just going. No entry is added or removed meanwhile.
- The wording of the error for a wrong number of outputs, which names both numbers.
- Panics outside a backend's run and a worker's rebuild.
- Shutdown: dropping the scheduler's handles, which ends batcher and workers by closing their channels, is not a step; retirement of every worker, which takes the same paths, is.
- Deadlines as real time: the cost estimate's effect on admission is modelled, its accuracy is not; its floating-point update is in real numbers.
- Batch collection limits: how long and how far the batcher collects before a dispatch is left open, so every choice of `max_wait` and of the early stop is covered.
- Requests dropped while waiting: a client gives up its handles one by one, at any time; what else ends with its task is not modelled.
- The second cache tier, its commands and its serialized values, beyond what it answers to one lookup.
- Clock differences between the shared store and the instances: idempotency runs use one clock.
- IdempotencyExclusion.AtMostOneOpen: says nothing about eviction, which can drop a pending record early, or about two stores at once: a request that lost contact with the shared store may be let through by its own instance.
- Records in the shared store that were not written by this program, such as text that does not parse.
- Gate.Stats.Update: probabilities are real numbers, so thresholds are exact; floating-point comparison is not modelled.
- Validation of a request's shape, language detection and routing, the temperature-scaled answer, metrics, headers and error bodies in `src/api.rs`.
- Decide.BuildJobs: the deadline and the tokenizing queue appear as a refusal that may come for any item, not as the semaphores behind it.
- UTF-8 itself: texts are turned into bytes by a function assumed injective, and character boundaries are read off the bytes.
- The fingerprint of a model folder, which hashes files, and the download and publishing of models.
- Model forward passes, the tokenizer's internals, the rate limiter and the HTTP layer.
- Sequence.Assemble: the casts between 32- and 64-bit integers are not modelled; lengths and token ids are taken to fit them.
- PyJson.Dumps: integers are unbounded, of which the source's 64-bit ones are a part; a map is a list of named fields.
