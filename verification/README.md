# Accord server: verified models

These Dafny modules model the parts of the Accord server whose correctness rests on several pieces of code
acting together, and prove what those parts promise. `dafny verify dfyconfig.toml` checks everything.

## What is modelled

**AutoMod uploads.** An uploaded file is pending, quarantined, rejected, published or removed. Three mutexes, a
compare-and-set on the status column, a private and a public file area, a durable queue of URLs to delete and an
append-only ledger have to stay consistent while uploads, workers, reviewers, policy edits, expiry, message
deletion and crashes interleave.

- `Policies` holds rules, the worker's lazy walk over them, its claim loop, preflight and policy validation;
  `VideoScan` the combination of a video's frames.
- `Uploads` holds the tables and their transactions, once as functions and once as a connection that runs them
  statement by statement.
- `Lifecycle` is the step system: SQL transactions are one step, every file operation is a step (a write is two,
  with arbitrary bytes in between), and any task can be dropped before any step. `LifecycleInvariant` and
  `HeldTotals` prove what every step keeps, `LifecycleTheorems` what follows for every run, and
  `LifecycleExample` gives a run that goes over the limit on held uploads.

**The scanner.** `BoxSuppression` is the detector's post-processing (cutoff, stable sort, greedy suppression,
label scores) and `ModelInput` its input (padding and bilinear resampling, with a copying path for 320 pixels).

**Federation.** `Mapping` holds qualified IDs and the authority rule; `Replica` the events a peer may send and the
statements they lead to; `Inbox` the appliers and the endpoint, statement by statement, with a database that may
fail to execute any of them; `ReplicaTheorems` what no event can touch, `ReplicaEffects` what an acknowledged one has
done, and `Redelivery` which failures lose an event. `DirectMessages` is the two-server protocol that elects a home
for a direct message channel, opens it from either side and mirrors it; `Consent` says which blocks its check looks
for and whose consent a channel has after any run of announcements and opens.

**Smaller machines.** `Snowflake` generates IDs, `ReadStates` turns them into read positions and unread channels,
`Text` says how numerals compare as strings, `Admission` is the keyed gate of semaphores, `Base64` the decoder,
`Slugs` space slugs and the search for a free one, and `ChannelUpdate` the dynamic `UPDATE` of a channel. `Wrappers`
holds the option and result types that all of them use.

## What does not hold

Some things one would like to be true are not. The lemmas named here show how each fails and say exactly when it
holds.

- An admitted batch can leave more held than the limit, because withdrawing a published file is not admitted by
  anybody and may happen between the check and the commit (`CommitOverLimit`, `BatchCommitsWithinBudget`).
- A peer's deletion of its own message reaches messages homed elsewhere: replies to it lose their reference, and
  messages in its thread go with it. `Server/src/federation/apply.rs:4-8` promises that only the signer's rows are
  written (`ForeignDeletionTouchesOurReply`, `MessagesElsewhereStay`).
- A mirrored direct message channel can hold a user and somebody the user blocks, although
  `Server/src/federation/dm.rs:320-324` wants the list enforced against every other participant. The check compares
  IDs as they are written and looks at one snapshot at a time. It overlooks blocks between two users of this server,
  whose IDs are stored bare (`BlockedCompanionIsOverlooked`), blocks under another spelling of a domain
  (`OtherSpellingIsOverlooked`), and blocks of users who came with different announcements of the channel
  (`SecondAnnouncementIsOverlooked`), even if the second names an owner nobody knows (`OwnerIsNeededOnce`).
  `OverlookedIff` gives the reasons, `MirroredWithConsentIff` and `RunConsent` say exactly when consent holds.
- `Server/src/federation/dm.rs:296-304` binds an announcement to the announcing peer, but an answer to an open is bound
  to nobody: it may name a channel of ours or of a third server (`AnswerMayNameOurChannel`), and `AnswersAreFramedIff`
  says exactly which answers do not. What a snapshot calls its home is not checked either (`OriginIsTheHomeIff`).
- `Server/src/db/users.rs:113-119` wants only a user's own home to refresh a profile; a snapshot renames users of any
  server but ours (`ListedAreRenamed`, `OnlyListedAreRenamed`).
- Taking back a refused direct message deletes the channel even if it had been in use before
  (`RollbackRestoresOnlyNew`).
- Taking the mark of a failed event back does not save it from a database that stays broken: such an event is lost
  (`BrokenDatabase`). Nor does it help when the lookup of the event's row fails, since that is taken for a row that is
  not mirrored, and acknowledged (`OneFailure`). `FirstDeliveryEnds` covers every pattern of failures.
- The newest-message pointer goes backwards when mirrored messages arrive out of order, and is never set for one
  whose first delivery broke off (`OutOfOrderHidesAMessage`, `PostKeepsPointer`, `StrandedMessageStays`).
- IDs sort as strings only among numerals of one length. Their length grows in July 2031; from then on a
  channel that was read up to an older message looks read, until IDs are ten times as great as that message's
  (`DigitRollover`, `UnreadAcrossRollover`, `RolloverHidesAMessage`).
- `slugify` is documented to truncate to 100 characters, but a number of 99 or 100 digits gets two more
  (`LongNumbersMakeInvalidSlugs`, `SlugifyMeetsTheRules`).
- A vanishingly small box does not suppress its own duplicate (`DuplicateIsDroppedIff`).
- The decoder accepts texts that are no encoding, because it ignores the stray bits of a last letter
  (`DecodedReencodes`).

## Assumptions

The content digest and the scanner are functions of the bytes; where it matters the digest is taken to be injective
(`WorkerUsesTheFilesScan` says so). Clock readings, fresh IDs, the outcome of network requests, the statements a
database fails to execute, the point at which a task breaks off, and the row an unordered `LIMIT 1` returns are
parameters. Which author may still post, and whether an uploader is exempt, are parameters as well. Blocks are set
by users of the server itself, whose IDs are bare (`OwnBlocks` says so where it matters).

## Model

| member | source | states |
|---|---|---|
| LifecycleTheorems.HeldOriginalSurvives | Server/src/automod/mod.rs:538-688 | In every reachable state, with a crash or an abandoned request possible before any step, a pending, quarantined or rejected upload has its private original, and that hashes to the recorded digest |
| LifecycleTheorems.LiveUploadIsOnDisk | Server/src/storage.rs:451-499 | Whatever the deletion queue holds and however release, withdrawal and draining interleave, an upload with an attachment row is published and its public file is on disk with the recorded digest |
| LifecycleTheorems.DownloadsArePublished | Server/src/storage.rs:514-523 | The URL of an upload can be downloaded exactly while its attachment row lives, and only while it is published |
| LifecycleTheorems.StatusGateIsRedundant | Server/src/storage.rs:514-523 | In reachable states the status half of the download check never changes the answer |
| LifecycleTheorems.WorkerCommitsTheCurrentDecision | Server/src/automod/mod.rs:388-524 | What a worker commits after scanning without a lock is the decision on the row, policy and denylist as they stand at the commit, on a row still pending; a release whose message is gone is held, or not committed at all |
| LifecycleTheorems.WorkerUsesTheFilesScan | Server/src/automod/mod.rs:275-345 | With an injective hash, the scan behind a commit, cached or fresh, is the model's answer on the stored bytes |
| LifecycleTheorems.StaleClaimIsHarmless | Server/src/automod/mod.rs:399-406 | In every run, a claim leaves the state as it is, but for forgetting its worker, exactly if somebody else has decided the row in the meantime |
| LifecycleTheorems.ScannedClaimDecides | Server/src/automod/mod.rs:445-491 | A claim with a scan in hand never asks for another one |
| LifecycleTheorems.ReleaseFindsItsOriginal | Server/src/automod/mod.rs:555-590 | A release of an upload whose message stands always finds the original with the right digest |
| LifecycleTheorems.CompareAndSetNeverFails | Server/src/automod/mod.rs:608-625 | Under the processing lock the status compare-and-set always succeeds, the attachment insert never meets an existing row, and the transaction is refused only when the message was deleted since the copy |
| LifecycleTheorems.DecisionTakesEffect | Server/src/automod/mod.rs:608-685 | A decision that commits can be downloaded exactly if it is published now; a withdrawn upload has its URL queued, its original back and a new retention period; the ledger has one entry more |
| LifecycleTheorems.RunExtends | Server/src/automod/mod.rs:598-634 | No step of a run loses a row, changes what it is about, reopens a removed upload, moves its retention date except on leaving published, or rewrites the ledger |
| LifecycleTheorems.RemovedIsFinal | Server/src/automod/routes.rs:158-163 | Once removed, an upload is removed in every later state |
| LifecycleTheorems.LedgerTellsTheStatus | Server/src/automod/mod.rs:626-634 | Replaying the event ledger gives the status of every upload in every reachable state; the ledger only grows |
| LifecycleTheorems.HeldTotalsAreConserved | Server/src/automod/mod.rs:184-190 | Held count and bytes equal enqueued plus withdrawn less released less removed, and exceed the limits by no more than was withdrawn |
| LifecycleTheorems.BatchCommitsWithinBudget | Server/src/automod/mod.rs:218-248 | A committed batch leaves count and bytes within the limits but for what was withdrawn since its check, and exactly within them if those withdrawals fit into what was free then or became free since |
| LifecycleExample.CommitOverLimit | Server/src/automod/routes.rs:180-204 | A reachable run in which an admitted batch leaves two uploads held although the limit is one |
| LifecycleInvariant.EnvironmentKeeps | Server/src/automod/routes.rs:54-97 | Policy edits, denylist edits, message deletion, other uploads, cache eviction, crashes and abandoned requests keep the invariant |
| LifecycleInvariant.IntakeKeeps | Server/src/automod/mod.rs:218-248 | Every step of storing a batch, of undoing one, and of reaping private files without a row keeps the invariant |
| LifecycleInvariant.BatchCommitKeeps | Server/src/automod/mod.rs:229-240 | Enqueueing a stored batch in one transaction keeps the invariant |
| LifecycleInvariant.WorkKeeps | Server/src/automod/mod.rs:388-470 | Every step of picking, claiming and scanning a candidate keeps the invariant |
| LifecycleInvariant.SettleKeeps | Server/src/automod/routes.rs:144-215 | Every step of a review and of the common end of all decisions keeps the invariant |
| LifecycleInvariant.CommitSucceeds | Server/src/automod/mod.rs:608-625 | Exactly when the decision transaction goes through in a state of the invariant |
| LifecycleInvariant.HousekeepingKeeps | Server/src/automod/mod.rs:791-823 | Every step of expiry, of retried unlinks and of draining the deletion queue keeps the invariant |
| LifecycleInvariant.StepKeeps | Server/src/automod/mod.rs:760-790 | Every step of the whole system keeps the invariant |
| LifecycleInvariant.RunKeeps | Server/src/automod/mod.rs:760-790 | The invariant holds in every state of every run |
| HeldTotals.HeldUpdate | Server/src/automod/mod.rs:184-184 | Writing one row moves the held count and bytes by that row alone |
| HeldTotals.InsertedWeight | Server/src/automod/mod.rs:229-240 | The enqueue transaction adds exactly the number and size of its rows to what is held |
| Uploads.Connection.Finish | Server/src/automod/mod.rs:608-685 | The decision transaction statement by statement: all of it is committed, or nothing |
| Uploads.Connection.UpdateStatus | Server/src/automod/mod.rs:609-613 | The status update touches the row only if its status is the one that was read |
| Uploads.Connection.Enqueue | Server/src/automod/mod.rs:231-238 | The enqueue loop commits one pending row for each stored file |
| Uploads.Connection.Delete | Server/src/db/messages.rs:403-409 | Deleting messages removes their attachment rows and queues exactly the URLs of those |
| Policies.WalkIsFirstMatch | Server/src/automod/mod.rs:445-491 | The rule loop with a scan in hand ends at the first applicable rule that fires or cannot be answered, and at none if there is none |
| Policies.ScansOnlyWhenReached | Server/src/automod/mod.rs:445-491 | Without a scan the loop asks for one exactly when it reaches a media rule before a rule has fired, and else agrees with the loop that has one |
| Policies.DecisionMeaning | Server/src/automod/mod.rs:407-505 | A decision carries the action of the first settling rule, quarantine if that lacks a category, and publishes if there is none |
| Policies.BlockedIsPublishedOnlyByFlag | Server/src/automod/mod.rs:415-505 | A digest on the denylist is published only when the first rule that fires is a flag |
| Policies.WalkStopsBy | Server/src/automod/mod.rs:445-491 | A rule without model evidence that fires bounds the walk |
| Policies.NonMediaMatch | Server/src/automod/policy.rs:200-232 | When a rule fires without the model |
| Policies.WalkRules | Server/src/automod/mod.rs:445-491 | The loop over the rules computes the walk |
| Policies.ClaimLoop | Server/src/automod/mod.rs:396-524 | The claim loop makes at most two passes and one scan, and commits the decision on what its last pass read, or nothing |
| Policies.CheckBatch | Server/src/automod/mod.rs:161-214 | Exactly which batches are published directly, enqueued, blocked, over budget or rejected; a rejection names the first rule that rejects the first file any rule rejects |
| Policies.Validate | Server/src/automod/policy.rs:90-140 | Exactly which policies are accepted, with the lengths of text in bytes |
| VideoScan.CombineFrames | Server/src/automod/mod.rs:301-330 | The frame loop computes the combined result, with an error rather than a partial one |
| VideoScan.Absorb | Server/src/automod/mod.rs:320-324 | Scores are merged category by category into their maximum |
| VideoScan.CombinesIffCoherent | Server/src/automod/mod.rs:309-329 | Frames combine exactly if each was scanned, is valid and has the model version and categories of the first |
| VideoScan.CombinedMatchesFirst | Server/src/automod/mod.rs:309-329 | The combined result has the version and categories of the first frame |
| VideoScan.CombinedIsValid | Server/src/automod/scanner.rs:39-54 | A combined result is itself a valid scanner response |
| VideoScan.CombinedScoreIsMax | Server/src/automod/mod.rs:320-324 | Each combined score is the maximum over the frames |
| VideoScan.RuleFiresIffSomeFrameFires | Server/src/automod/mod.rs:445-491 | A media rule fires on the combined result exactly if it fires on some frame |
| VideoScan.FrameOrderIsIrrelevant | Server/src/automod/mod.rs:309-329 | The same frames in another order combine to the same scores, or fail alike |
| BoxSuppression.TopClassIsTheLastBest | Server/src/automod/scanner.rs:277-280 | The top class of a box is the last one of those with the best score |
| BoxSuppression.BoxesStayInside | Server/src/automod/scanner.rs:284-298 | Clipped boxes lie inside the picture |
| BoxSuppression.CandidatesAreCandidates | Server/src/automod/scanner.rs:276-300 | Exactly the boxes whose top score passes the cutoff are candidates |
| BoxSuppression.SortIsStable | Server/src/automod/scanner.rs:301-301 | Sorting orders by falling score and leaves equal scores in output order |
| BoxSuppression.OverlapIsARatio | Server/src/automod/scanner.rs:305-310 | Overlap lies between 0 and 1 |
| BoxSuppression.DuplicateIsDroppedIff | Server/src/automod/scanner.rs:305-310 | A box suppresses its own duplicate exactly if its area exceeds 0.45 times the guard on the denominator |
| BoxSuppression.OverlapIsSymmetric | Server/src/automod/scanner.rs:305-310 | Overlap does not depend on the order of the boxes |
| BoxSuppression.KeptAreApart | Server/src/automod/scanner.rs:304-315 | No two kept boxes overlap by more than 0.45 |
| BoxSuppression.DroppedAreCovered | Server/src/automod/scanner.rs:304-315 | Every dropped box overlaps a kept one of at least its score by more than 0.45 |
| BoxSuppression.KeepIsTheGreedySelection | Server/src/automod/scanner.rs:304-315 | The kept boxes are the one and only greedy selection |
| BoxSuppression.EachLabelGetsItsBest | Server/src/automod/scanner.rs:303-315 | Each label gets the best score of its kept boxes, or 0 |
| BoxSuppression.StrongestSurvives | Server/src/automod/scanner.rs:266-317 | The greatest label score is the greatest top score above 0.25 in the raw output, or 0 |
| BoxSuppression.BestClass | Server/src/automod/scanner.rs:277-280 | The maximum over the classes computes the top class |
| BoxSuppression.CollectBoxes | Server/src/automod/scanner.rs:272-300 | Output is refused exactly for a wrong length or an invalid top score, and else gives the candidates |
| BoxSuppression.Suppress | Server/src/automod/scanner.rs:302-315 | The suppression loop computes the kept boxes' label scores |
| BoxSuppression.Postprocess | Server/src/automod/scanner.rs:266-317 | The whole computation, and exactly when it fails |
| ModelInput.ValuesAreNormalised | Server/src/automod/scanner.rs:170-176 | Every output value lies in [0, 1] in steps of 1/255 |
| ModelInput.Low | Server/src/automod/scanner.rs:155-161 | The lower sampling index is in range |
| ModelInput.High | Server/src/automod/scanner.rs:157-162 | The upper sampling index is in range |
| ModelInput.Weight | Server/src/automod/scanner.rs:158-163 | Interpolation weights lie in [0, 1) |
| ModelInput.CopyIsExact | Server/src/automod/scanner.rs:142-153 | For a picture whose longer side is 320 the general path gives every pixel unchanged |
| ModelInput.SlotsAreDistinct | Server/src/automod/scanner.rs:174-175 | No two values share a place in the tensor |
| ModelInput.SlotsCoverTheTensor | Server/src/automod/scanner.rs:174-175 | Every place in the tensor belongs to a value |
| ModelInput.Resample | Server/src/automod/scanner.rs:154-179 | The nested loops fill the whole tensor |
| ModelInput.CopyPixels | Server/src/automod/scanner.rs:142-148 | The copying loops fill the whole tensor with the same values |
| ModelInput.Input | Server/src/automod/scanner.rs:132-185 | Whichever path is taken, each place holds the resampled value |
| Admission.GateIsBounded | Server/src/security.rs:20-48 | After any history of calls and drops neither the global cap nor any key's is exceeded, and the permits of a key, and only those, share a semaphore |
| Admission.MapStaysSmall | Server/src/security.rs:36-43 | After each call to enter, the key map has at most one entry more than there are keys with live permits |
| Admission.RefusedIffFull | Server/src/security.rs:29-45 | A call is refused exactly when the gate or the key is at its cap |
| Admission.EnterKeeps | Server/src/security.rs:29-48 | A refused call changes no permit; an admitted one adds one; the map then has the keys with live permits |
| Admission.DropKeeps | Server/src/security.rs:15-18 | Dropping a permit keeps the invariant |
| Admission.HistoryKeeps | Server/src/security.rs:20-48 | The invariant holds after every history |
| Admission.Gate.TryEnter | Server/src/security.rs:29-48 | The call statement by statement computes the specified step |
| Admission.Gate.Find | Server/src/security.rs:36-42 | Pruning and looking up or making the key's semaphore |
| Admission.Gate.Release | Server/src/security.rs:15-18 | Both halves of a permit are given back |
| Base64.DecodesEncodings | Server/src/storage.rs:354-420 | Any text that cleans to the letters of an encoding decodes to the encoded data |
| Base64.RoundTrip | Server/src/storage.rs:354-420 | Encoded data decodes to itself, with and without padding |
| Base64.InsertionIsInvisible | Server/src/storage.rs:380-384 | A space, line break or padding character can be put in anywhere |
| Base64.FailsIff | Server/src/storage.rs:392-414 | Decoding fails exactly on a foreign byte or a cleaned length of 1 modulo 4 |
| Base64.DecodedReencodes | Server/src/storage.rs:398-412 | What decodes is the encoding of its result exactly when the last letter carries no stray bits |
| Base64.DecodeTable | Server/src/storage.rs:356-378 | The table loops give each letter its value and mark everything else |
| Base64.Filter | Server/src/storage.rs:380-384 | The filter drops padding, line breaks and spaces and nothing else |
| Base64.ReadChunk | Server/src/storage.rs:390-397 | A chunk is read exactly if it has no foreign letter |
| Base64.Base64Decode | Server/src/storage.rs:354-420 | The loops compute the specified result on every input |
| Text.StringOrderOfNumbers | Server/src/db/read_states.rs:48-52 | Exactly when a smaller number comes first in string order |
| Snowflake.Generator.Generate | Server/src/snowflake.rs:17-39 | One call, including the wait on sequence overflow, which ends |
| Snowflake.NextIsGreater | Server/src/snowflake.rs:17-39 | Each ID is greater than the one before, also past 4096 in a millisecond |
| Snowflake.IdsIncrease | Server/src/snowflake.rs:17-39 | IDs given out one after the other increase strictly |
| Snowflake.IdsSortAsStrings | Server/src/db/read_states.rs:48-52 | As strings they sort in the same order exactly as far as leading digits go, in particular at equal length |
| Snowflake.OrderAcrossRollover | Server/src/db/read_states.rs:48-52 | Of two generated IDs, one from before and one from after a growth of the digits, the first comes first as a string exactly if the second is ten times as great |
| Snowflake.DigitRollover | Server/src/snowflake.rs:17-39 | A generator that gives out an ID in each of two consecutive milliseconds of July 2031 gives out two whose string order is wrong |
| Snowflake.TimestampRoundTrip | Server/src/snowflake.rs:41-47 | Every ID, bare or qualified, tells the millisecond of its making |
| ReadStates.AckKeepsTheMaximum | Server/src/db/read_states.rs:76-104 | However often and in whatever order messages are acknowledged, the position is the greatest ID |
| ReadStates.AckOrderIsIrrelevant | Server/src/db/read_states.rs:76-104 | Two histories that acknowledge the same messages end at the same position |
| ReadStates.PointerAnswers | Server/src/db/read_states.rs:48-52 | The newest-message pointer answers for every position exactly if it is at a greatest ID |
| ReadStates.PostKeepsPointer | Server/src/db/messages.rs:312-318 | Posting keeps it there exactly if the new ID does not come before it |
| ReadStates.RisingPointerIsNewest | Server/src/db/messages.rs:312-318 | With rising IDs the pointer is at the newest message exactly unless that message was stored without the statement that moves the pointer |
| ReadStates.UnreadMeansNewer | Server/src/db/read_states.rs:26-72 | Then a channel is unread exactly if a top-level message newer than the position was stored |
| ReadStates.GeneratedIdsRise | Server/src/db/messages.rs:246-257 | Generated IDs of equal length are rising in that sense |
| ReadStates.UnreadAcrossRollover | Server/src/db/read_states.rs:76-104 | Across a growth of the digits a new message is noticed, and acknowledging it moves the position, exactly if its ID is ten times that of the message read before |
| ReadStates.RolloverHidesAMessage | Server/src/db/read_states.rs:48-52 | Two generated IDs of July 2031 of which the second looks read and cannot be acknowledged |
| ReadStates.TablesFollowHistory | Server/src/db/read_states.rs:26-72 | After any run of acknowledgements, mentions, posts, mirrored and system messages, deletions and membership changes, of any users and channels, the tables show of a channel what its own history says |
| ReadStates.HistoryTellsWhatIsStored | Server/src/db/messages.rs:246-320 | That history tells of every stored top-level message of the channel, and of no other unless messages were deleted |
| ReadStates.UnreadChannelsAreExact | Server/src/db/read_states.rs:26-72 | After any run, a channel is among a user's unread ones exactly if the user sees it and its history has a top-level message newer than the position, as long as IDs rise and the newest message moved the pointer |
| ReadStates.UnreadMeansStored | Server/src/db/read_states.rs:26-72 | Exactly if such a message is stored, when none was deleted |
| ReadStates.StrandedStays | Server/src/db/messages.rs:286-321 | A mirrored message stored without moving the pointer never moves it when it comes again |
| ReadStates.OutOfOrderHidesAMessage | Server/src/db/messages.rs:286-320 | Messages mirrored out of order can leave a newer one unnoticed |
| ReadStates.RetryAfterIsLeast | Server/src/db/messages.rs:213-226 | The refused author is told the least number of seconds after which the message is admitted |
| ReadStates.Store.AckChannel | Server/src/db/read_states.rs:76-104 | The upsert moves the position by the specified rule and clears the mentions |
| ReadStates.Store.IncrementMentionCount | Server/src/db/read_states.rs:107-130 | The upsert counts one mention and leaves the position alone |
| ReadStates.Store.CreateMessage | Server/src/db/messages.rs:178-260 | One transaction: cooldown, message, and the pointer only for a top-level message; nothing on refusal |
| ReadStates.Store.InsertRemoteMessage | Server/src/db/messages.rs:286-321 | A mirrored message that is known is passed over, one for a missing channel is refused, any other is stored and moves the pointer, unless the database stops in between |
| ReadStates.Store.CreateSystemMessage | Server/src/db/messages.rs:325-357 | A system message is stored in one statement and moves the pointer in another, which may not be reached |
| Slugs.SlugifyMeetsTheRules | Server/src/slug.rs:6-46 | A made slug is empty or passes every check but the length, which a number of 99 or 100 digits exceeds |
| Slugs.LongNumbersMakeInvalidSlugs | Server/src/slug.rs:40-46 | Such numbers do give invalid slugs |
| Slugs.ValidSlugsAreFixed | Server/src/slug.rs:48-73 | The valid slugs are exactly the nonempty names that are their own slug |
| Slugs.CollapseHyphens | Server/src/slug.rs:18-30 | The loop collapses runs of hyphens |
| Slugs.ValidateSlug | Server/src/slug.rs:52-73 | Which slugs pass |
| Slugs.EnsureUniqueSlug | Server/src/db/spaces.rs:401-435 | For every finite table the search ends, at the first candidate that nobody else has |
| Slugs.CandidatesDiffer | Server/src/db/spaces.rs:431-433 | No candidate comes twice |
| Slugs.SuffixKeepsTheRules | Server/src/db/spaces.rs:431-433 | A suffix keeps a valid slug valid exactly up to the length limit |
| ChannelUpdate.StatementAppliesPatch | Server/src/db/channels.rs:113-186 | For every patch, running the built assignments with the built values applies it field by field, with positional or numbered placeholders |
| ChannelUpdate.ListsMatch | Server/src/db/channels.rs:150-183 | The three value lists stay in step with the placeholders |
| ChannelUpdate.NumberingIsIdle | Server/src/db/mod.rs:52-68 | Numbered placeholders take the same values as positional ones |
| ChannelUpdate.RewrittenStatement | Server/src/db/mod.rs:52-68 | Rewriting the statement's text numbers its placeholders in binding order |
| ChannelUpdate.Q | Server/src/db/mod.rs:52-68 | The scanning loop computes the rewriting, and leaves the text alone for SQLite |
| ChannelUpdate.TextReadsOneWay | Server/src/db/channels.rs:169-172 | A statement text can be read as one list of assignments and one key only |
| ChannelUpdate.RewrittenTextReads | Server/src/db/mod.rs:52-68 | The rewritten text reads as the numbered assignments |
| ChannelUpdate.RewrittenTextAppliesPatch | Server/src/db/channels.rs:113-186 | However the rewritten text is read, executing it with the bound values selects the row by the bound ID and applies the patch |
| ChannelUpdate.Build | Server/src/db/channels.rs:113-160 | The pushes and loops build the specified lists |
| ChannelUpdate.EmptyIffNoWish | Server/src/db/channels.rs:162-164 | Only the empty patch runs no statement |
| ChannelUpdate.Channels.UpdateChannel | Server/src/db/channels.rs:93-187 | The whole operation: what changes, what does not, and exactly when it fails and how |
| ChannelUpdate.Channels.CheckParent | Server/src/db/channels.rs:240-259 | Which parents are accepted |
| Mapping.QualifiedParts | Server/src/federation/mapping.rs:12-33 | A qualified ID gives back its local part and domain |
| Mapping.QualifyTwice | Server/src/federation/mapping.rs:12-18 | Qualifying is idempotent, and locality survives it |
| Mapping.BareIds | Server/src/federation/mapping.rs:20-33 | An ID without an at sign is its own local part; any other is put together from its parts |
| Mapping.OnlyTheHomeSpeaks | Server/src/federation/authority.rs:14-43 | An event is admitted for one peer only, and one about a space only from the space's home |
| ReplicaTheorems.EventsAreFramed | Server/src/federation/apply.rs:68-124 | Whatever an event asks for and whichever statements fail: no local user, space, channel or emoji changes, none homed elsewhere than on the signer does, memberships change only in the signer's spaces, nothing is queued |
| ReplicaTheorems.CascadeIsLeast | Server/migrations/009_threads.sql:4-4 | What a deletion takes along is the least set with the message in it that no thread leads out of |
| ReplicaTheorems.MessagesElsewhereStay | Server/src/federation/apply.rs:334-363 | Messages homed elsewhere stay as they are exactly unless one of them answers, or hangs in a thread under, a message the event deletes |
| ReplicaTheorems.PlansAreAllowed | Server/src/federation/apply.rs:157-661 | No applier asks for a write outside the signer's domain, and only a removal deletes messages |
| ReplicaTheorems.ForeignDeletionTouchesOurReply | Server/src/federation/apply.rs:334-363 | A local reply loses its reference when the foreign message it answers is deleted |
| ReplicaTheorems.OurRowsSurvive | Server/src/federation/apply.rs:1-8 | After any run of deliveries the local rows and the outbox are what they were |
| ReplicaTheorems.OurMessagesSurvive | Server/src/federation/apply.rs:334-363 | So are the local messages, as long as none refers to a foreign one |
| ReplicaEffects.AcknowledgedMessageIsStored | Server/src/federation/apply.rs:213-247 | An acknowledged new message is stored as sent, under the channel's own space, is the channel's newest, and its author is known |
| ReplicaEffects.AcknowledgedDirectMessageIsStored | Server/src/federation/dm.rs:540-602 | An acknowledged new direct message is stored outside any space, is the channel's newest, and its author's profile is the one sent, whoever the peer is |
| ReplicaEffects.KnownMessageStays | Server/src/db/messages.rs:286-310 | A stored message and its channel stay as they are however often it is delivered again and whatever fails |
| ReplicaEffects.AcknowledgedEdit | Server/src/federation/apply.rs:282-326 | An acknowledged edit by the message's home changes exactly the fields it names; by anybody else, nothing at all |
| ReplicaEffects.AcknowledgedRemoval | Server/src/federation/apply.rs:334-363 | An acknowledged removal by the message's home takes the message and what hangs under it; by anybody else, nothing |
| ReplicaEffects.AcknowledgedReaction | Server/src/federation/apply.rs:470-540 | An acknowledged reaction is there or gone, the one who reacted has a row, and no profile known before is changed |
| ReplicaEffects.AcknowledgedMembership | Server/src/federation/apply.rs:371-456 | An acknowledged join makes a member, an acknowledged leave unmakes one |
| ReplicaEffects.AcknowledgedEmoji | Server/src/db/emojis.rs:167-212 | An acknowledged emoji has the row its home sent, in the space it was first in, and is restricted to exactly the named roles that are mirrored |
| Redelivery.AcknowledgedOnce | Server/src/federation/inbox.rs:50-66 | An acknowledged event is never applied again |
| Redelivery.MarkedIsLeftAlone | Server/src/federation/inbox.rs:53-60 | A marked event is marked for good: in any run of deliveries of any events, with any failures, delivering it again changes nothing |
| Redelivery.FirstDeliveryEnds | Server/src/federation/inbox.rs:31-95 | A first delivery is acknowledged exactly if it was complete or its row could not be looked up; it is open for another delivery exactly if it could not be marked, or failed and its mark was taken back; else it is lost |
| Redelivery.UnmarkingFollows | Server/src/federation/inbox.rs:21-30 | The mark is taken back by the statement right after the write that failed |
| Redelivery.BrokenDatabase | Server/src/federation/inbox.rs:21-30 | A database that breaks for good loses an acceptable event exactly if it breaks after the mark and before the last write |
| Redelivery.OneFailure | Server/src/federation/apply.rs:199-206 | If a single statement fails, an acceptable event is lost exactly if that is the lookup whose error reads like a missing row |
| Redelivery.RefusedStaysOpen | Server/src/federation/inbox.rs:82-93 | A refused event is open for another delivery when no statement fails |
| Redelivery.StrandedMessageStays | Server/src/db/messages.rs:286-321 | A message whose delivery breaks off between storing it and moving its channel's pointer is stored; its redelivery is acknowledged, and nothing moves the pointer for it any more |
| Inbox.Applier.MirrorUser | Server/src/federation/mod.rs:71-126 | The row of a mentioned user: our own profile for our users, the peer's word for its own, and no overwriting for others |
| Inbox.Applier.ApplyMessageCreate | Server/src/federation/apply.rs:157-273 | Checks and lookup, then author, message and, if it is new, pointer in order, each under failure |
| Inbox.Applier.StoreMessage | Server/src/db/messages.rs:286-324 | The insert is sent for a known message too and leaves it alone; the pointer moves only for a new one |
| Inbox.Applier.ApplyMessageUpdate | Server/src/federation/apply.rs:282-326 | Checks and lookup, then one statement for each field that is named |
| Inbox.Applier.ApplyMessageRemove | Server/src/federation/apply.rs:334-363 | Only replica rows of the signer are deleted |
| Inbox.Applier.ApplyMemberJoin | Server/src/federation/apply.rs:371-422 | Members join mirrored spaces only |
| Inbox.Applier.ApplyMemberLeave | Server/src/federation/apply.rs:429-456 | Members leave mirrored spaces only |
| Inbox.Applier.ApplyReaction | Server/src/federation/apply.rs:470-540 | Checks and lookup, then the user's row and the reaction, in order |
| Inbox.Applier.ApplyEmojiUpsert | Server/src/federation/apply.rs:563-621 | Checks and lookup, then the row and its restrictions, in order |
| Inbox.Applier.UpsertRemoteEmoji | Server/src/db/emojis.rs:167-212 | The row first, then its role restrictions wholesale |
| Inbox.Applier.ApplyEmojiRemove | Server/src/federation/apply.rs:629-661 | Only replica rows of the signer are deleted |
| Inbox.Applier.ApplyDirectMessage | Server/src/federation/dm.rs:540-603 | Checks and lookup, then author, message and, if it is new, pointer, each under failure |
| Inbox.Applier.ApplyEvent | Server/src/federation/apply.rs:68-124 | Each event type goes to its applier |
| Inbox.Applier.Receive | Server/src/federation/inbox.rs:31-95 | Authority, the statement that marks, the applier's statements, and the statement that takes the mark back on failure |
| DirectMessages.ExactlyOneHome | Server/src/federation/dm.rs:45-52 | Both servers elect the same home, the domain of one of the two; of different servers exactly one takes itself for it |
| DirectMessages.OpenedAsHome | Server/src/federation/dm.rs:105-168 | After an open from the home both copies have the same participants exactly if the replica had nobody else before, or for a channel used again, exactly the condition on the two rows before |
| DirectMessages.OpenedAsReplica | Server/src/federation/dm.rs:170-280 | The same after an open from the other side |
| DirectMessages.CreatedMembers | Server/src/db/dm_participants.rs:141-186 | A new 1:1 channel has exactly its two participants; one used again is left as it is |
| DirectMessages.MirroredMembers | Server/src/federation/dm.rs:314-380 | What a snapshot does to any channel, whether it goes through or not: whom it enrols, that no other channel is touched, and exactly when it goes through: nobody refuses, no name is somebody else's, the owner of a new channel has a row, and the participants who are ours exist |
| DirectMessages.MirroredChannel | Server/src/federation/dm.rs:314-380 | A mirrored channel, new or known before, has the participants it had and all of the snapshot's |
| DirectMessages.AnswersAreFramedIff | Server/src/federation/dm.rs:170-195 | An announcement leaves every channel homed elsewhere and our own alone; the answer to an open does exactly if its channel is homed on the server that was asked, or it is not accepted, or it says nothing new |
| DirectMessages.AnswerMayNameOurChannel | Server/src/federation/dm.rs:193-194 | An answer that names one of our own channels makes it a replica and brings its participant in |
| DirectMessages.OriginIsTheHomeIff | Server/src/federation/dm.rs:299-309 | An announced channel has its own home for an origin exactly if the peer names itself as the home |
| DirectMessages.OnlyListedAreRenamed | Server/src/federation/dm.rs:338-350 | A snapshot leaves the names of our own users and of everybody who is not in it alone, gone through or not |
| DirectMessages.ListedAreRenamed | Server/src/db/users.rs:86-110 | Everybody else in an accepted snapshot has the name it gave last, whichever server sent it |
| DirectMessages.RollbackRestoresOnlyNew | Server/src/federation/dm.rs:153-163 | Taking a refused channel back restores the state exactly if the channel was new |
| DirectMessages.RemoteParticipantDomains | Server/src/federation/dm.rs:624-641 | Every other server of a channel once, and never our own |
| DirectMessages.Store.CreateDmChannel | Server/src/db/dm_participants.rs:141-186 | No channel without recipients; else the channel row, then the participant rows in a loop |
| DirectMessages.Store.Agrees | Server/src/federation/dm.rs:320-336 | One of our users agrees exactly if no other participant, as written, is among the blocks |
| DirectMessages.Store.UpsertRemoteUser | Server/src/db/users.rs:86-110 | The row is inserted or renamed, unless somebody else has the name |
| DirectMessages.Store.UpsertRemoteDmChannel | Server/src/db/federation.rs:282-302 | A known channel gets the origin and nothing else; a new one needs its owner's row |
| DirectMessages.Store.MirrorDm | Server/src/federation/dm.rs:314-380 | Consent and rows first, then the channel row, then the participants, stopping at whatever fails |
| DirectMessages.Store.OpenDmAsHome | Server/src/federation/dm.rs:105-168 | The recipient's row, the channel, the announcement, and the deletion when it is refused |
| DirectMessages.Store.HandleOpen | Server/src/federation/dm.rs:224-280 | Who asks, whether the recipient is ours and agrees, the opener's row, the channel and the answer |
| Consent.AcceptsIff | Server/src/federation/dm.rs:318-362 | A snapshot is accepted exactly if names are free, a new channel's owner has a row, and the check looks for no block that there is: one of a local participant who is not the opener, on somebody written in the snapshot exactly as in the block |
| Consent.OverlookedIff | Server/src/federation/dm.rs:318-336 | The check overlooks a block of one of our users exactly if one of the two is not in the snapshot, or the blocked one is written otherwise there, or the blocking one is there as the opener only |
| Consent.IntrudesIff | Server/src/federation/dm.rs:314-380 | Whoever a snapshot enrols brings a block into the channel exactly if one slips through the check: it was not between members before, is between them then, and is overlooked for one of these reasons |
| Consent.MirroredWithConsentIff | Server/src/federation/dm.rs:314-380 | After a snapshot everybody in its channel has consented exactly if everybody had before and no block slips through, however the members are written |
| Consent.StepMembers | Server/src/federation/dm.rs:105-380 | Whom an announcement, an answer, a served open or an own open brings into any channel, and when a channel is emptied |
| Consent.RunConsent | Server/src/federation/dm.rs:105-380 | After any run of announcements and answers of any servers, served opens, and own opens kept or taken back, everybody in a channel has consented exactly if no block was brought in since the channel was last emptied, or, if it never was, if everybody had consented before and none was brought in |
| Consent.RunLeavesAlone | Server/src/federation/dm.rs:105-380 | No run touches the row or the participants of a channel unless its home announces or an answer or an open names it |
| Consent.OtherSpellingIsOverlooked | Server/src/federation/dm.rs:329-335 | A block of the opener under another spelling of the domain is overlooked |
| Consent.SecondAnnouncementIsOverlooked | Server/src/federation/dm.rs:316-336 | A block is overlooked when the blocked user comes with a second announcement of the channel |
| Consent.BlockedCompanionIsOverlooked | Server/src/federation/dm.rs:318-336 | A block between two users of this server is overlooked when both are drawn into a group |
| Consent.OwnerIsNeededOnce | Server/src/db/federation.rs:289-292 | A second announcement whose owner has no row brings a blocked user in; it would not go through if the channel were new |
| Consent.OneToOneConsent | Server/src/federation/dm.rs:286-337 | A 1:1 channel announced for the first time has our user's consent exactly if the user blocks its opener under no other spelling |
| Consent.ServedWithConsentIff | Server/src/federation/dm.rs:224-264 | So has a new 1:1 channel opened for a peer; one that is used again has the consent it had |

## Left out

- LifecycleTheorems.WorkerUsesTheFilesScan: for videos the sampler opens the stored file again instead of using the bytes that were hashed; the model scans the bytes that were hashed.
- LifecycleTheorems.WorkerCommitsTheCurrentDecision: which of several due uploads a worker picks first is not modelled; any due one may be picked.
- LifecycleTheorems.HeldOriginalSurvives: a file copy whose task was dropped can go on after its locks are released and truncate a private original that is held by then; in the model a dropped task writes nothing more.
- LifecycleTheorems.LiveUploadIsOnDisk: likewise for a late write to a public file; and the hourly sweep of public files without a row (`reconcile_attachment_orphans`), which takes no lock and goes by file times, is not among the steps. A queued URL that spells a live file's path in another way, which `delete_file` would resolve to that file, has no counterpart either, since a `Url` has one spelling; the code queues only URLs as it made them.
- LifecycleTheorems.DownloadsArePublished: a download that passed its check before a withdrawal and opens the file after it is not modelled.
- LifecycleTheorems.CompareAndSetNeverFails: a commit whose outcome the client never learns, and file operations that go on after their task was dropped, are not modelled.
- Uploads.Connection.Finish: the audit entry, the report of a flag, the timeout of the author, the cached dimensions and the recorded reason, which change no table of the model.
- Policies.CheckBatch: the resolution of exempt roles and permissions, and the event it records for a refusal.
- Policies.NonMediaMatch: reading ages and roles from the database; they are parameters.
- BoxSuppression.Postprocess: the check for values that are not finite and IEEE rounding, because numbers are reals; labels are numbers instead of names.
- ModelInput.Input: decoding the picture and its size limits, and the rounding of the result to 32 bits.
- Snowflake.Generator.Generate: parallel calls; the two atomics are read and written one call at a time.
- Admission.Gate.TryEnter: parallel calls and permits dropped while a call holds the mutex.
- Slugs.SlugifyMeetsTheRules: the Unicode lowercase table; it is a parameter without ASCII capitals.
- ReadStates.UnreadChannelsAreExact: the user and the author of a call are taken to exist, and a deleted user's rows are not followed.
- ReadStates.Store.CreateMessage: mention resolution, embeds and the other columns of a message.
- ChannelUpdate.Channels.UpdateChannel: reading the row back is one step with the update.
- Replica.Cascade: attachments and pins of deleted messages, which follow the same foreign key.
- Redelivery.FirstDeliveryEnds: of the reads, only the lookup of the event's row can fail; those of a local profile, of an emoji's space and image, of roles, and of a row just written are taken to succeed and are not counted.
- Redelivery.AcknowledgedOnce: marks older than a day are pruned, after which an event would be applied once more.
- Inbox.Applier.Receive: signature verification, the trust gate and rate limits in front of it; JSON that does not parse is one kind of event.
- Consent.RunConsent: blocks set after a channel was mirrored are not checked by the server either, so the theorem is about blocks that stay; groups and 1:1 channels that clients open among users of this server, and participants they add or remove, are not among the steps.
- DirectMessages.OpenedAsHome: an announcement lost on the way leaves the channel on the home alone; only exchanges that end with a mirrored channel or a refusal are covered.
- DirectMessages.Store.MirrorDm: of the profiles of remote participants only the user name is modelled, and a database that refuses a statement for no reason of its own is not.
- Forwarding, joins and outbound fan-out of spaces, and the delivery queue of the sender.
- Everything served to clients: routes, permissions, gateway events, notifications and voice.
- All client code, the model runtime, FFmpeg, LiveKit, signatures, password hashing and database bootstrap.
