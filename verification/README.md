# A verified model of the merge-request reviewer

The reviewer lets language models read a merge request, but every outcome a person sees is
decided by ordinary code. This project models that code in Dafny and proves what it keeps
whatever the models, the forge, the database and the schedulers do: their answers, losses,
delays and interleavings are arbitrary inputs of the model.

The modules follow the program's components.

- **Published messages** (`Markers`, `Comments`, `CommentMarks`, `CommentReadings`,
  `CommentProtocol`, `CommentEdits`, `CommentMessages`, `CommentRejections`, `CommentRemovals`,
  `Publications`, `CommentManager`, `CommentPublisher`).
  A stored row per message, its intent, and a forge that may lose responses, hide notes and
  let the process die between any two steps. Runs are sequences of reconciliations and owner
  actions, each with its own reading, remote fate and crash point; `CommentRemovals` adds what
  the forge really holds, and `Publications` the reviewer's own publication of its report.
  Message bodies are texts, and the marker patterns search them character by character.
- **Diffs and line following** (`Diffs`, `Rereview`, `Identities`). Edit scripts and the
  unified diffs that describe them; the old-to-new line map; the identities findings keep.
- **Packing** (`FileOrder`, `Partition`, `Segments`, `Chunks`, `ChunkProperties`, `Units`,
  `FileContext`, `UnitPlan`). The order of files, hunks, widened runs, byte-bounded chunks, work
  units, what a unit is told of a file, and the breadth-first schedule.
- **Deduplication and streaming** (`Findings`, `Dedup`, `Deduplication`, `Streaming`,
  `StreamingRuns`, `FileStreams`). The two merge passes, why they are local to a file, and
  the protocol that prepares a file while other units still run. `prepare` may return
  anything, and something else on every call, except where deduplication itself is at stake.
- **Review lifecycle** (`ReviewStates`, `Reviews`, `ReviewStore`, `Runners`, `EventStream`,
  `Sse`). Each transaction is one step. A review is known by its position in admission order,
  which stands for a fresh random id. The reader of the event log loses connections at will.
- **Concurrent work and budget** (`Stages`, `UnitPool`, `StageStreaming`, `Budgets`). A worker pool
  over a shared plan, how its announcements drive the stream, and the token budget.
- **Decisions and accounts** (`Policies`, `Decisions`, `Accounts`, `AccountService`).
- **Bounded arithmetic** (`Documents`, `Evaluation`).

Each algorithm or object that changes state in the program is a method or a class here,
proved equal to a specification function; the theorems are about those functions, over every
input and every run. `Sequences` and `Orders` hold shared vocabulary.

## What the code does not promise

Eight expectations fail, and each has its exact condition and a failing input.

- *A message is sent at most once.* The posts of a message are limited to one
  (`CommentProtocol.PostedAtMostOnce`), but a draft of it may also be published: a reading
  that hides the draft lets the message be posted, and a later reading that shows the draft
  and hides the posted note lets it be published as well. No run sends a second message
  exactly when the drafts present and the possibility of a direct post number at most one
  (`CommentMessages.AtMostOnceExactly`); `CommentMessages.SecondMessage` builds the run
  otherwise.
- *Publishing and acting post a message at most once.* The publisher stores no intent before
  it posts and goes by what its reading shows. A publication that dies between the post and
  the row, or reads nothing of a message posted before, leaves room for a second post. Over
  every run of publications and actions, the most posts a message can get are one for each
  publication that read nothing of it, and one more from the owner if the row was still the
  owner's to post; none when the owner removed it or an inline cap is zero
  (`Publications.PostsBounded`, `Publications.SlotsAreUsed`). So it is certain to be posted at
  most once exactly when that number is at most one (`Publications.PostedOnceExactly`).
- *A pending removal settles once the note is gone.* It settles as soon as one reading shows
  neither the pinned note nor a draft. The message then stays in the forge for good exactly
  when that reading hid it (`CommentRemovals.RemovalLeavesHiddenMessages`);
  `CommentRemovals.RemovalSettlesTooEarly` is such a run, for any message, and
  `CommentRemovals.TooEarlyRunHides` an own note it leaves behind.
- *An edited message stays the same message.* An edit that brings a complete marker or footer
  is refused, but a reading already disowns a note that merely opens a recheck marker, and
  takes the first owner named, footers being carried over ahead of the markers. An accepted
  edit keeps a note exactly when the replacement opens no recheck marker and the footers name
  no other owner (`CommentEdits.EditKeepsIdentityExactly`). `CommentEdits.EditLosesMessage` is
  the replacement `see <!-- ai-review:recheck=`, `CommentEdits.FooterLosesMessage` an own note
  that every accepted edit loses to its footer, and `CommentEdits.EditedAway` says that the
  owner can then do nothing more with it.
- *Reconciling the same reading again changes nothing.* It changes a row whose stored note
  vanished, which first takes up a draft and then finds other notes carrying its marker in
  its way, and no other row (`CommentReadings.SyncIsStableExactly`);
  `CommentReadings.ReadingTwiceDiffers` is a row stored with note 5 that reads note 7 and
  draft 9.
- *A refused post can be tried again.* It can exactly when the action recognizes the refusal
  (`CommentRejections.RetriedExactlyWhenRecognized`). An inline post answered with 400 reaches
  it as a position error, and its row waits for good for a note that was never created
  (`CommentRejections.PositionErrorsAreNotRecognized`).
- *A recovered review can always continue.* It can at the milestone that left it. A review
  left in the analysis states by a full run cannot be taken up below milestone 5: its next
  advance is refused. `Runners.RecoverableStates` lists, for every plan, exactly the states
  it can take up, and `Runners.UnrecoverableRunsAreRefused` gives the failing run otherwise.
- *A frame's id persists for the stream.* Section 9.2.6 of the WHATWG HTML Living Standard
  keeps the last event id across events; the page's parser forgets it at every blank line.
  The two read a printed stream alike exactly when no frame without an id comes after one with
  an id (`Sse.IdsPersistExactly`), which fails on the stream of every finished review with
  activity (`Sse.FinishedStreamsLoseId`). Every frame that carries an id is read back with it
  (`Sse.PrintedStreamsReadBack`).

## Model

| member | source | states |
|---|---|---|
| `Comments.SeedingKeepsRows` | reviewer/publish/comments.py:64-92 | tracking a stored report's messages never overwrites a row already stored |
| `CommentManager.Manager.Seed` | reviewer/publish/comments.py:64-92 | after any number of saved seeds the durable rows are exactly those the report, its summary and the findings ask for, first come first kept |
| `CommentManager.Manager.Sync` | reviewer/publish/comments.py:99-197 | one reading turns every durable row into its reconciled form, and a crash before the final save leaves the rows as they were |
| `CommentManager.Manager.Act` | reviewer/publish/comments.py:205-318 | an owner action is one step of the protocol: its durable rows, remote calls and answer are those of the specification for every reading, remote fate and crash point |
| `CommentManager.Manager.ActPost` | reviewer/publish/comments.py:280-304 | the publish intent is durable before the post, and only a definitive rejection clears it |
| `CommentManager.Manager.ActPublish` | reviewer/publish/comments.py:248-304 | a draft is published, an unsent message posted within the inline limits, anything already sent or unsendable skipped |
| `CommentManager.Manager.ActRemove` | reviewer/publish/comments.py:234-247 | the owner's removal is durable before the deletion is attempted |
| `CommentManager.Manager.ActEdit` | reviewer/publish/comments.py:223-233 | an edit reaches the note or draft the row names and is stored once answered |
| `CommentManager.Manager.ActResolve` | reviewer/publish/comments.py:218-222 | only an open thread of a committed message is resolved |
| `CommentReadings.SyncIsStableExactly` | reviewer/publish/comments.py:109-193 | reconciling a row twice with one reading is the same as once, exactly unless a vanished note let it take up a draft beside other notes |
| `CommentReadings.ReadingTwiceDiffers` | reviewer/publish/comments.py:126-181 | a row stored with note 5 that reads note 7 and draft 9 takes up the draft first and is in conflict the second time |
| `CommentProtocol.PostedAtMostOnce` | reviewer/publish/comments.py:99-197 | over every run a message is posted directly at most once, attempts the forge definitively refused aside |
| `CommentProtocol.NeverUnpublishedAgain` | reviewer/publish/comments.py:182-187 | a row that left `not_published` never returns to it |
| `CommentProtocol.OwnerRemovalIsPermanent` | reviewer/publish/comments.py:134-141 | after a stored removal every later call for the message is a deletion, and after it settles there is none and the row stays removed |
| `CommentProtocol.RemovalsStayStored` | reviewer/publish/comments.py:234-247 | a removal by the owner is always stored together with its pending intent or its settled state |
| `CommentRemovals.RemovalLeavesHiddenMessages` | reviewer/publish/comments.py:182-187 | over every run in which an owner's removal settles, a message of it stays in the forge exactly when the settling reading hid one still there, and the row stays removed |
| `CommentRemovals.RemovalSettlesTooEarly` | reviewer/publish/comments.py:182-187 | a lost deletion and one reading that hides the note settle the removal with the note still there |
| `CommentRemovals.ClosedKeepsNote` | reviewer/publish/comments.py:134-141 | after the removal settled no call of any later run touches a note that carries this message's marker alone |
| `CommentRemovals.TooEarlyRunHides` | reviewer/publish/comments.py:182-187 | for every key and account that run is possible on an own note, its settling reading hides the note, and the note stays through every later run |
| `Publications.PostsBounded` | reviewer/publish/publisher.py:65-243 | over every run of publications and owner actions, with a death at any point, a message is posted at most once for each publication that read nothing of it and once more if its row was still the owner's to post; not at all once the owner removed it or under a cap of zero |
| `Publications.SlotsAreUsed` | reviewer/publish/publisher.py:132-202 | that number is reached by some run, from any stored row and for any number of such publications |
| `Publications.PostedOnceExactly` | reviewer/publish/publisher.py:132-202 | all runs with at most so many such publications post a message at most once exactly when that number is at most one |
| `CommentPublisher.Publisher.PublishInline` | reviewer/publish/publisher.py:132-203 | one inline message takes exactly the publication step: left alone when removed, shown, waiting or without room; saved before it is sent; the answer stored, a refused position as ineligible |
| `CommentPublisher.Publisher.PublishSummary` | reviewer/publish/publisher.py:204-243 | the summary is saved in any case, and sent unless it is withdrawn or the reading shows it |
| `Markers.EditKeepsMarks` | reviewer/publish/comments.py:33-40 | a complete marker is in an edited text exactly when it was in the text before, whatever the accepted replacement |
| `Markers.EditKeepsOwner` | reviewer/publish/publisher.py:14-17 | the first owner of an edited text is the first one its footers name, else the first of the text before |
| `CommentMarks.OwnTextIsOwn` | reviewer/publish/comments.py:94-117 | for every key, head and owner some text is recognized as this review's own |
| `CommentMarks.OwnTextIsSole` | reviewer/publish/comments.py:94-117 | and that text carries the mark of no other key |
| `CommentEdits.EditKeepsIdentityExactly` | reviewer/publish/comments.py:33-40 | for every own note and accepted replacement, the note stays own exactly when the replacement opens no recheck marker and the footers name no other owner |
| `CommentEdits.EditKeepsDraftExactly` | reviewer/publish/comments.py:118-125 | a draft is not tested for rechecks, so only its footers decide |
| `CommentEdits.OpenedRecheckIsAccepted` | reviewer/publish/comments.py:33-35 | any replacement that opens a recheck marker and closes nothing is accepted and loses the note |
| `CommentEdits.EditLosesMessage` | reviewer/publish/comments.py:33-40 | the replacement `see <!-- ai-review:recheck=` is one |
| `CommentEdits.FooterChangesOwner` | reviewer/publish/comments.py:36-40 | a text whose footer names another owner is its owner's before any accepted edit and the other's after it |
| `CommentEdits.FooterLosesMessage` | reviewer/publish/comments.py:36-40 | for every key and account with an owner there is an own note, its footer naming another owner, that every accepted edit loses |
| `CommentEdits.StrandedReading` | reviewer/publish/comments.py:142-151 | a row pinned to a note it no longer recognizes stays so, every reading that shows the note is a conflict, and any other leaves the row removed |
| `CommentEdits.EditedAway` | reviewer/publish/comments.py:205-233 | after such an edit no action of any later run reaches the forge for the message while no draft of it turns up |
| `CommentProtocol.CallsAddressOwnMessages` | reviewer/publish/comments.py:205-247 | every edit, deletion, resolution and draft publication names a note, thread or draft read in the same action as this review's own |
| `CommentMessages.MessagesBounded` | reviewer/publish/comments.py:248-304 | from any stored row and under any caps, the messages every run sends number at most the own drafts ever shown plus one direct post if the row can be posted, and none when the row was removed, is ineligible or is capped at zero |
| `CommentMessages.SecondMessage` | reviewer/publish/comments.py:248-304 | from any stored row with two ways to send, some run sends twice |
| `CommentMessages.AtMostOnceExactly` | reviewer/publish/comments.py:248-304 | from any stored row, all runs send at most one message exactly when there is at most one way to send it |
| `CommentRejections.RetriedExactlyWhenRecognized` | reviewer/publish/comments.py:280-303 | after a definitive refusal some run of empty readings sends the message again exactly when the refusal is a recognized one |
| `CommentRejections.WaitingRowsAreSilent` | reviewer/publish/comments.py:188-193 | a row with a stored publish intent makes no call on any run of empty readings and keeps waiting |
| `CommentRejections.PositionErrorsAreNotRecognized` | reviewer/services/forge/gitlab.py:222-229 | status 400 on an inline post is a definitive refusal that leaves the row waiting |
| `Diffs.PlaceHoldsText` | reviewer/publish/rereview.py:25-46 | the place an edit script gives a surviving old line holds that line's text in the new file |
| `Rereview.Follow` | reviewer/publish/rereview.py:25-46 | the two loops compute the line map of the diff |
| `Rereview.FollowAgreesWithScript` | reviewer/publish/rereview.py:25-46 | for every diff that describes an edit script, a surviving old line, shown or outside all hunks, is followed exactly to its place under the script |
| `Rereview.FollowFindsText` | reviewer/publish/rereview.py:25-46 | so the followed line of the new file reads as the old line did |
| `Identities.Reanchor` | reviewer/publish/rereview.py:6-22 | a finding moves to the first place its snippet's digest occurs, or is given up when it occurs nowhere |
| `Identities.AdoptIdentities` | reviewer/publish/rereview.py:49-90 | rewriting fingerprints in place computes the adoption of every published identity in turn |
| `Identities.AdoptionKeepsDistinct` | reviewer/publish/rereview.py:49-90 | fingerprints stay pairwise distinct through adoption |
| `Identities.AdoptionIsExplained` | reviewer/publish/rereview.py:49-90 | a changed fingerprint is that of a published finding of the same category lying near the claim in the new head |
| `Identities.AdoptionIsComplete` | reviewer/publish/rereview.py:49-90 | no published identity is left unadopted while an unidentified claim could have carried it |
| `Partition.SizeIsJoinedLength` | reviewer/context/partition.py:98-143 | the size the packer adds up is the byte length of the joined text |
| `Partition.HunkLines` | reviewer/context/partition.py:44-58 | the loop splits a file's lines by the hunks' declared counts |
| `Partition.HunksKeepLines` | reviewer/context/partition.py:44-58 | whatever the headers claim, the split neither loses nor repeats a line |
| `Partition.HunksAreChanges` | reviewer/context/partition.py:44-58 | for a well-formed diff the hunks are exactly the script's changes |
| `Segments.SegmentRuns` | reviewer/context/partition.py:61-95 | the widening loops compute the specified runs |
| `Segments.SegmentsKeepDiff` | reviewer/context/partition.py:61-95 | dropping scope lines from the runs gives the diff back, and supplied numbers strictly increase when the scope names no diff line |
| `Chunks.SplitRun` | reviewer/context/partition.py:114-143 | the line-by-line loop computes the specified packing |
| `Chunks.FileChunks` | reviewer/context/partition.py:98-143 | the chunking loop computes the specified chunks |
| `ChunkProperties.ChunksKeepDiff` | reviewer/context/partition.py:98-143 | concatenating the chunks and dropping gap marks and scope lines gives exactly the file's diff lines in order, with supplied numbers increasing across chunks |
| `ChunkProperties.ChunksFit` | reviewer/context/partition.py:98-143 | every chunk fits the limit or is a single line |
| `ChunkProperties.DefinitionsStayWhole` | reviewer/context/partition.py:114-143 | with nested ranges, the largest definition starting at a line is shown whole in one chunk whenever its measured size fits one |
| `FileOrder.TestsFollowSources` | reviewer/context/partition.py:146-191 | between a source and a test that exercises it lie only other tests of that source |
| `FileOrder.OrderedIsPermutation` | reviewer/context/partition.py:181-191 | the packing order neither loses nor repeats a file |
| `Units.CoherentUnits` | reviewer/context/partition.py:221-292 | the loops compute the specified units of the reviewed files in packing order, each with its cap on findings and with what it is told of each section's file |
| `Units.ContextsSpellContent` | reviewer/context/partition.py:229-256 | in every unit that is not omitted the supplied ranges, section by section, spell out exactly the line numbers the unit displays |
| `Units.ContextsTellOfSections` | reviewer/context/partition.py:194-218 | each section's ranges spell out its own displayed numbers, none continuing another, and its file is called complete exactly if the unit is not omitted and all its lines are displayed in order |
| `FileContext.ContextFor` | reviewer/context/partition.py:194-218 | the loop over the displayed numbers computes the specified context |
| `FileContext.ContextTells` | reviewer/context/partition.py:194-218 | the ranges of a context spell out exactly the displayed line numbers, no two of them joining, and a file is called complete exactly when all its lines are displayed in order and nothing is omitted |
| `Units.UnitsLaySections` | reviewer/context/partition.py:221-292 | every file section lies in exactly one unit, in order |
| `Units.UnitsFit` | reviewer/context/partition.py:221-292 | every unit that is not omitted fits the byte limit, and one is omitted only for a section over it: a single source line, or a title that leaves no room for one |
| `Units.UnitIdsAreDistinct` | reviewer/context/partition.py:240-289 | no two units share an id |
| `UnitPlan.Plan` | reviewer/orchestrator/unit_plan.py:11-39 | the schedule runs in rounds over the paths in priority order and keeps every file's units in their order |
| `UnitPlan.PathOrderIs` | reviewer/orchestrator/unit_plan.py:19-33 | the priority order lists each leading path once, code files first, then by changed lines, then by path |
| `UnitPlan.RoundsOfPath` | reviewer/orchestrator/unit_plan.py:34-38 | after any number of rounds each file has contributed that many of its first units |
| `UnitPlan.SchedulesArePermutations` | reviewer/orchestrator/unit_plan.py:11-39 | such a schedule is a permutation of the units |
| `Deduplication.Combine` | reviewer/findings/dedup.py:27-41 | merging rewrites severity, evidence and stages of the first finding only, to the specified values |
| `Deduplication.Deduplicate` | reviewer/findings/dedup.py:68-85 | the two in-place passes compute the specified deduplication |
| `Dedup.ResultsSumTheirGroups` | reviewer/findings/dedup.py:68-85 | the findings split into one group per result, whose identity is its first member's, with the group's worst proposed severity and all its evidence, each member being there by fingerprint or nearness |
| `Dedup.EvidenceIsConserved` | reviewer/findings/dedup.py:27-41 | no evidence is lost and none invented |
| `Dedup.ResultsAreApart` | reviewer/findings/dedup.py:50-85 | results have distinct fingerprints and are pairwise unrelated, and deduplicating again changes nothing |
| `Dedup.DeduplicationIsLocal` | reviewer/findings/dedup.py:50-85 | when fingerprints determine files, deduplication restricted to a file is deduplication of that file's findings |
| `FileStreams.FileStream.Plan` | reviewer/orchestrator/streaming.py:32-36 | the pending counters become the specified ones |
| `FileStreams.FileStream.Finished` | reviewer/orchestrator/streaming.py:38-56 | a finished unit's proposals are gathered, its paths released, and every file now settled is started |
| `FileStreams.FileStream.Finish` | reviewer/orchestrator/streaming.py:58-77 | reuse, fresh preparation and the awaits are the specified ones, and nothing stays started |
| `StreamingRuns.EarlyWorkStartsWhenSettled` | reviewer/orchestrator/streaming.py:38-56 | after any completion order a file's early work has started exactly when every unit naming it finished and a proposal for it arrived |
| `StreamingRuns.EarlyWorkStartsOnce` | reviewer/orchestrator/streaming.py:47-56 | early work starts at most once per file, on that file's proposals alone |
| `StreamingRuns.FinishPreparesEveryFile` | reviewer/orchestrator/streaming.py:58-77 | finishing returns, file by file, what one call of `prepare` made of a permutation of that file's proposals, and every call was awaited |
| `StreamingRuns.GatheredFiles` | reviewer/orchestrator/streaming.py:59-61 | the files of a finish are those with proposals, each with exactly its own |
| `StreamingRuns.StreamingRefinesDeduplication` | reviewer/orchestrator/pipeline.py:467-490 | verdicts aside, finishing after any early work gives file by file what validating and deduplicating the whole stage's proposals at once gives in some order |
| `ReviewStates.BuildTable` | reviewer/orchestrator/states.py:40-109 | the table built by the module-level loops holds exactly the legal moves |
| `ReviewStates.PathsMoveForward` | reviewer/orchestrator/states.py:40-109 | a legal history only moves forward, so no state is entered twice |
| `ReviewStore.Store.Accept` | reviewer/store/repositories.py:93-165 | admission is the specified step: existing, refused or started, a displaced review superseded |
| `ReviewStore.Store.Transition` | reviewer/store/repositories.py:237-252 | a finished review is left alone, an illegal move refused with nothing written, a legal one recorded |
| `ReviewStore.Store.Stop` | reviewer/store/repositories.py:254-284 | a review is stopped exactly when it runs and is not publishing |
| `ReviewStore.Store.Cancel` | reviewer/store/repositories.py:332-346 | the running review of the merge request is cancelled through a transition |
| `ReviewStore.CancellationEndsTheRunningReview` | reviewer/store/repositories.py:332-346 | after a cancellation nothing runs on the merge request and other rows are untouched |
| `ReviewStore.Store.Record` | reviewer/store/repositories.py:687-698 | an event gets the highest sequence plus one |
| `ReviewStore.Store.AppendEvent` | reviewer/store/repositories.py:700-714 | an activity event is appended to an existing review's log only |
| `Reviews.RunsStayConsistent` | reviewer/store/repositories.py:93-284 | in every reachable state at most one review runs per merge request or page, event ids are admitted once, histories are legal paths the gapless event log announces, supersession points forward, and finished reviews never change |
| `Reviews.RedeliveryChangesNothing` | reviewer/store/repositories.py:117-121 | an admitted event delivered again later changes nothing |
| `Reviews.AdmissionDecides` | reviewer/store/repositories.py:93-235 | a review starts exactly when its project is known, its event is new and no other owner's running review stands in the way; what it displaces ends superseded by it |
| `Reviews.Latest` | reviewer/store/repositories.py:140-144 | supersession chains end, at an unsuperseded review of the same subject |
| `Reviews.OthersOnlyEndReviews` | reviewer/store/repositories.py:254-284 | transactions other than a runner's moves leave a working review's state alone or end it, and a publishing review cannot be stopped |
| `Runners.Advance` | reviewer/orchestrator/pipeline.py:1062-1073 | an advance is stale on a finished review, moves forward only, and reports an illegal move |
| `Runners.Execute` | reviewer/orchestrator/pipeline.py:292-318 | an undisturbed run publishes exactly when its plan can take up the review's state |
| `Runners.EveryAttemptIsLegal` | reviewer/orchestrator/pipeline.py:1062-1104 | under any deaths, recoveries, stops, cancellations and supersessions no attempted transition is illegal and states only move forward |
| `Runners.RecoverableStates` | reviewer/orchestrator/states.py:40-109 | which states each of the three plans can take up, exactly |
| `Runners.OwnStatesAreRecoverable` | reviewer/orchestrator/document_pipeline.py:361-366 | every state a plan's own runs leave, and the legacy states for full runs, can be taken up |
| `Runners.RunsAtOneLevelAreNeverRefused` | reviewer/orchestrator/pipeline.py:1062-1073 | at a fixed level, from the start, from anything such runs leave, and for full runs from the legacy states, no run ever attempts an illegal transition, and it leaves only such states again |
| `Runners.UnrecoverableRunsAreRefused` | reviewer/orchestrator/states.py:97-99 | from any other state an undisturbed run attempts an illegal transition |
| `Runners.MachineMovesAreLegal` | reviewer/orchestrator/machine.py:31-59 | every move of the infrastructure-check runner is legal for what it read, or ignored |
| `EventStream.ReadersSeeTheLog` | reviewer/api/events.py:71-101 | under appends, batches and lost connections a reader has shown exactly a prefix of the log, each event once, and is told it is complete only after the terminal transition and once everything then in the log was shown |
| `EventStream.ReadersCatchUp` | reviewer/api/events.py:86-97 | left alone, a reader reaches the end of a log of any length in batches, and on a finished review the closing frame |
| `EventStream.SelectIsSlice` | reviewer/store/repositories.py:984-1001 | a batch is the next slice of the numbered log |
| `Sse.Parser.Feed` | frontend/public/sse.js:5-25 | one chunk advances the parser as specified |
| `Sse.ChunksDoNotMatter` | frontend/public/sse.js:7-25 | any cutting of a text into chunks parses alike |
| `Sse.PrintedStreamsReadBack` | reviewer/api/events.py:31-33 | printed frames, retry lines and heartbeats read back as exactly the frames' events, ids and data, in order |
| `Sse.IdsPersistExactly` | frontend/public/sse.js:14-16 | however it is cut, a printed stream reads as section 9.2.6 of the WHATWG HTML Living Standard prescribes exactly when no frame without an id comes after one with an id |
| `Sse.StandardReads` | reviewer/api/events.py:31-33 | read by the standard's rules, printed frames come out in order, each under the last id printed so far |
| `Sse.FinishedStreamsLoseId` | reviewer/api/events.py:88-97 | the stream of a finished review with activity ends in frames without an id |
| `Sequences.DigitsReadBack` | frontend/public/app.js:1400-1401 | a decimal id stands for the number it was printed from |
| `UnitPool.ReviewUnit` | reviewer/orchestrator/stages.py:136-220 | the attempts at a unit end as specified, examined or skipped and partial |
| `UnitPool.Workers.Take` | reviewer/orchestrator/stages.py:104-134 | a free worker takes the next unit, settling cached, omitted and late ones at once |
| `UnitPool.Workers.Settle` | reviewer/orchestrator/stages.py:136-222 | a finished unit leaves the running counter for exactly one other |
| `Stages.TriedCovers` | reviewer/orchestrator/stages.py:136-220 | whatever the attempts return, a unit ends exactly one of examined and skipped, and a skip is partial |
| `Stages.WorkersKeepAccount` | reviewer/orchestrator/stages.py:97-243 | in every interleaving each taken unit is with one worker or announced once, and the counters are true and add up |
| `Stages.MergeResults` | reviewer/orchestrator/stages.py:235-244 | the merge loop joins the results in plan order |
| `Stages.StagesCoverTheirPlan` | reviewer/orchestrator/stages.py:97-256 | a finished stage lists each planned unit in exactly one of examined and skipped, in plan order, announced each once, and any skip makes it partial |
| `Stages.CompleteStagesExaminedEverything` | reviewer/orchestrator/stages.py:235-244 | a finished stage that is not partial examined every planned unit |
| `StageStreaming.StagesDriveStreams` | reviewer/orchestrator/stages.py:78-83 | the workers tell the stream of distinct planned units only, and when the stage is over exactly the planned files with proposals have been started |
| `Budgets.BudgetTracker.Reserve` | reviewer/orchestrator/budget.py:21-42 | one pass of the reservation loop grants, refuses or waits as specified |
| `Budgets.BudgetTracker.Settle` | reviewer/orchestrator/budget.py:49-53 | a settlement returns the reservation, books the use and wakes everyone |
| `Budgets.BudgetsStayBalanced` | reviewer/orchestrator/budget.py:21-53 | over every interleaving reserved is the sum of grants, use stays within the ceiling plus overruns, and nobody waits for nobody |
| `Budgets.IdleTrackersAnswer` | reviewer/orchestrator/budget.py:27-47 | after every interleaving that leaves nothing outstanding, all waiting callers have been told to look again and are answered when they do |
| `Budgets.ProtectedShareIsLeft` | reviewer/orchestrator/budget.py:22-25 | over every interleaving, use and promises exceed the ceiling less the protected share, or the initial use, by no more than overruns and what was granted to verification |
| `Budgets.ShareIsUntouched` | reviewer/orchestrator/budget.py:22-25 | which is nothing as long as no verification asks |
| `Policies.Claim.Normalize` | reviewer/findings/policy.py:30-57 | a live finding ends required, nit or informational exactly when its category, verification, evidence, confidence and origin say so, else a suggestion, and never a blocker |
| `Decisions.Triage` | reviewer/agents/severity_triage.py:117-145 | the batch loop applies the specified judgements in place |
| `Decisions.TriageOnlyLowers` | reviewer/agents/severity_triage.py:49-81 | no model answer raises a severity or touches a finding that could fail a gating check |
| `Decisions.TriageKeepsTheStatus` | reviewer/orchestrator/pipeline.py:600-626 | in every enforcement mode the commit status is what it would be without the model, through adoption and deduplication |
| `Decisions.FailedCommits` | reviewer/decision/engine.py:12-38 | a failed status means exactly: gating, nothing partial, and a failed required check or a live verified blocker or introduced requirement |
| `Decisions.FailedCommitsExaminedEverything` | reviewer/orchestrator/pipeline.py:627-650 | so a failed status implies every planned unit was examined |
| `AccountService.Service.Create` | reviewer/accounts/service.py:101-122 | creation is the specified step, refused exactly when it should be |
| `AccountService.Service.Activate` | reviewer/accounts/service.py:124-149 | activation sets the password and ends the account's sessions |
| `AccountService.Service.Begin` | reviewer/accounts/service.py:177-188 | a snapshot is returned exactly when the login names an active account whose password was verified, and it is that account's |
| `AccountService.Service.Commit` | reviewer/accounts/service.py:189-215 | the session is issued only if the account is still what was read |
| `AccountService.Service.Manage` | reviewer/accounts/service.py:227-297 | role, activity, recovery, removal and revocation are the specified steps |
| `AccountService.Service.ChangePassword` | reviewer/api/accounts.py:208-236 | the password changes only if the verified one is still current, ending all sessions |
| `Accounts.RunsStaySound` | reviewer/accounts/service.py:101-303 | in every reachable state sessions belong to active accounts unchanged since issue, tokens are unique per account, and removed accounts keep nothing |
| `Accounts.RunsStayGoverned` | reviewer/accounts/service.py:237-280 | once some admin is active, some admin always is |
| `Accounts.BootstrapGoverns` | reviewer/accounts/service.py:108-121 | bootstrap works on an empty table alone and leaves one active admin |
| `Accounts.RemovalIsComplete` | reviewer/accounts/service.py:266-294 | a removed account stays inactive without password, session, token or active credential |
| `Documents.ApplyTokenCap` | reviewer/context/documents.py:246-266 | each section is visited once from the least important role up; a corpus over budget, noted as degraded, ends fairly, any other is untouched; and what was cut is marked with its page |
| `Documents.CappingIsFair` | reviewer/context/documents.py:246-266 | truncation ends at the budget or with every section at the floor, keeps prefixes, and touches a role only after all lower ones are at the floor |
| `Documents.VisitsDescend` | reviewer/context/documents.py:252-257 | sorting the pages makes the visited sections descend in role |
| `Documents.VisitsEverySection` | reviewer/context/documents.py:252-257 | every section is visited exactly once |
| `Documents.OrderedKeepsRoles` | reviewer/context/documents.py:252-256 | the sort keeps the pages of one role in their order |
| `Documents.Units` | reviewer/context/documents.py:364-378 | units partition the sections in order, each within budget or a single section, none with room for the next |
| `Documents.TightUnits` | reviewer/context/documents.py:364-378 | the same for each unit and its successor |
| `Evaluation.Pair` | scripts/evaluate_regression.py:34-44 | the greedy pairing is one-to-one, matching and maximal |
| `Evaluation.GreedyIsHalfOptimal` | scripts/evaluate_regression.py:34-44 | no one-to-one matching is more than twice as large |
| `Evaluation.Unique` | scripts/evaluate_regression.py:47-52 | the same items, each once |
| `Evaluation.Evaluate` | scripts/evaluate_regression.py:55-78 | below fifty merge requests there is no score; else precision and recall are the matched shares, within [0, 1], the fabrication rate is that of the proposals, the latency has the ninety-fifth percentile's rank, and passing is exactly the three thresholds |
| `Evaluation.SortedHasRank` | scripts/evaluate_regression.py:69-70 | the value at a place of the sorted latencies has at most that many values below it and more not above it |

## Left out

- Models, the forge, the database engine and the network: arbitrary answers; a transaction is one atomic step, and the advisory lock around a message action is taken to serialize it.
- Redaction, hashing, encryption and token generation: redaction leaves message bodies as they are; revisions are body equality; fingerprints and heads are hexadecimal; ids and tokens are fresh; digests of snippets are a function.
- Timestamps and deadlines: only whether a deadline has passed, as an arbitrary boolean.
- Publications.PostsBounded: which findings are published and under what text is an input, and so are the places already taken by drafts and by the publication's earlier comments; the report it returns is left out. The other theorems on messages are about runs of reconciliations and owner actions.
- CommentRemovals.RemovalLeavesHiddenMessages: others may add messages at any time but not change or delete these; a message carries the marker of one key.
- The view of rows returned to the page, and forge permission checks.
- The diff text parser and line splitting: diffs are well-formed ones of arbitrary edit scripts, and arbitrary line lists where that suffices.
- Identities.AdoptionIsExplained: published anchors whose first line lies after their last are excluded, since findings never carry them.
- FileOrder.TestsFollowSources: paths have no empty or dot components, and lower-casing is that of ASCII.
- FileContext.ContextFor: the displayed numbers are those of the lines themselves, not searched for in the rendered text.
- Unit identity hashes, prompts and the planning of context.
- Claim normalization and fingerprint hashing: claims are word sets and fingerprints labels; that equal fingerprints name one file is a hypothesis where it is needed, since path normalization could alias two spellings.
- Deduplication.Find: the dictionary lookup of the first pass is a search in insertion order.
- StreamingRuns.StreamingRefinesDeduplication: validation is a function of the proposal that keeps its file, and verification changes nothing but the outcome.
- FileStreams.FileStream.Finish: proposals are compared directly rather than by their serialized keys, which are taken to be injective.
- Execution freezing, provisioning metadata, trigger rows and the fields a transition carries along: they decide no state.
- `Runners`: one worker runs a review at a time, as the queue's job lock ensures; what a stage does between two advances is left out.
- EventStream.ReadersSeeTheLog: snapshots, retry lines, heartbeats, session expiry and the delay between passes are left out.
- UTF-8 decoding and JSON: chunks are texts, and data is one line, as the serializer prints it.
- UnitPool.ReviewUnit: external cancellation is left out; findings of an answer are those with a failure scenario.
- Budgets: the wake-up order of callers.
- Login throttling, session and token expiry other than as a boolean, and audit events.
- DocumentCorpus collection, heading parsing and search.
- Evaluation.Evaluate: the comparison with a baseline, and the rounding of the percentile's place.
- Dashboards, routing, schemas, configuration, prompts, sandboxed builds and telemetry.
