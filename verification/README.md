# Verified model of the Fixiyi platform core

A Dafny model of the parts of the platform where a mistake is hard to see: masking contact
details in chat, progressive dispatch to providers, the chat log and its client copy,
refresh-token rotation together with the browser tab that refreshes, the catalogue tree, and
one-time codes behind the rate limiter. Check everything with `dafny verify dfyconfig.toml`.

## How to read it

Code that changes state is modelled by methods and classes with the fields, loops and branches
of the program. Each method is proved equal to a function of its inputs or of the old state, and
the promises are then proved about those functions, for every input, every interleaving or every
run. Protocols with several awaits are step machines: each await is a place where other
operations may step in.

| file | what it models |
|---|---|
| `NumberWords.dfy`, `ShippedLexicon.dfy` | the cursor parser for spelled numbers, and the program's own lexicon |
| `Normalize.dfy` | the normaliser with its map back to the original text |
| `PhoneRuns.dfy` | the greedy phone segmenter |
| `Redaction.dfy` | priority filter, interval merge, right-to-left splice |
| `Sorting.dfy`, `Ranking.dfy`, `BoundedWaiting.dfy` | ranking, batch selection, exposure of new providers over rounds |
| `Eligibility.dfy` | hard filters and the search that widens the radius |
| `Dispatch.dfy` | one request's matching as a state machine driven by delayed jobs |
| `ChatLog.dfy` | sends, edits, receipts and the contact unlock of one conversation, interleaved |
| `Thread.dfy` | the web client's copy of the conversation |
| `Sessions.dfy` | rotation, reuse detection and revocation, interleaved |
| `RefreshClient.dfy` | one browser tab composed with the session server |
| `Catalog.dfy` | level rule, tree building on the heap, ancestry, inherited display |
| `OneTimeCodes.dfy` | fixed-window limiter and one-time codes |

Where the code is weaker than its comments, the model follows the code and says exactly when the
promise holds:

- Dictated numbers are read back if and only if no two neighbours fuse (`RoundTrip`). A value goes
  above 99, up to 101, if and only if a word worth 90 is joined by "et" to one worth 10 or 11
  (`AboveNinetyNine`).
- A configuration lets no provider be passed over for ever if and only if it reserves an exploration
  seat or weighs exploration more than distance, availability, verification and experience together
  (`LockOutExactly`).
- A valid number loses some of its text if and only if an address kept meets it, or a detected number
  that itself overlaps neither an address nor a number kept before it (`NumberIsHitExactly`). So every
  detected number is hit (`DetectedNumberIsHit`), but in "@212 612345678", where the digits of the
  handle and the number after it make one number, the number after the handle stays
  (`NumberBesideAHandleStays`).
- An ACTIVE match has its next job pending if and only if it has dispatched once; a start leaves one
  that has not if and only if it is DIRECT and names no known provider (`StallsExactly`), and widening
  the radius sets such a match going again (`DirectCanStall`).
- A reconnect completes a thread if and only if nothing was missing up to its cursor
  (`CatchUpCompletes`); a message stored late between two held ones is brought neither by catching up
  nor by paging back (`GapIsNeverFilled`).
- A stretch as long as the limiter's window can see up to 2 * limit - 1 allowed calls, and never more
  (`StretchIsBounded`, `BoundIsReached`); it is held to the limit if and only if no open window with
  allowance left lapses inside it (`OneLimitExactly`).
- An hour can see up to 2 * maxPerHour - 1 codes (`IssuingIsBounded`), nine at the program's own
  settings (`NineInOneHour`). It keeps the cap if and only if no number of codes in the open window
  leaves time, cooldowns included, for one too many (`HourlyCapExactly`).
- A candidacy that lapsed can become live again exactly by being viewed before a batch run
  (`ViewingRevives`).
- The right code is accepted if and only if fewer than maxAttempts wrong ones were tried while it stood
  (`AcceptedExactly`).
- Presenting a rotated token again, as after a lost reply, revokes the session (`ReplayIsReuse`).

## Model

| member | source | states |
|---|---|---|
| NumberWords.Cursor.TakeDixCompound | apps/api/src/chat/contact-detection/number-words.ts:85-93 | advances past "dix" and a unit of at least 7, and only then |
| NumberWords.Cursor.TakeSixtyOrEightyTail | apps/api/src/chat/contact-detection/number-words.ts:96-105 | value and new index are those of the specified tail, with no "et" |
| NumberWords.Cursor.TakeTensTail | apps/api/src/chat/contact-detection/number-words.ts:108-123 | value and new index are those of the specified tail, "et" up to 11 included |
| NumberWords.Cursor.ParseOne | apps/api/src/chat/contact-detection/number-words.ts:125-142 | reads exactly the one number specified at the cursor and always advances |
| NumberWords.ParseNumberWords | apps/api/src/chat/contact-detection/number-words.ts:149-163 | the loop ends on any words and gives exactly the specified numbers with their spans |
| NumberWords.SpansAreOrdered | apps/api/src/chat/contact-detection/number-words.ts:149-163 | on any words, spans are in order, disjoint and inside the input |
| NumberWords.SpansCover | apps/api/src/chat/contact-detection/number-words.ts:153-161 | every word except "et" lies in some span |
| NumberWords.ValuesAreBounded | apps/api/src/chat/contact-detection/number-words.ts:107-142 | no input of any valid lexicon gives a value above 101 |
| NumberWords.AboveNinetyNine | apps/api/src/chat/contact-detection/number-words.ts:108-116 | a number above 99 is read exactly from a word worth 90, "et" and a word worth 10 or 11 |
| NumberWords.LargestValue | apps/api/src/chat/contact-detection/number-words.ts:108-116 | "ninety et onze" does give 101 |
| NumberWords.OneSpelling | apps/api/src/chat/contact-detection/number-words.ts:125-142 | a spelled 0..99 is read back on exactly its words if and only if the next number is not drawn in |
| NumberWords.RoundTrip | apps/api/src/chat/contact-detection/number-words.ts:144-163 | any dictated list of 0..99 is read back, spans included, if and only if no neighbours fuse |
| ShippedLexicon.LexiconIsValid | apps/api/src/chat/contact-detection/number-words.ts:22-47 | the program's own tables satisfy what the theorems ask of a lexicon |
| ShippedLexicon.LargestShippedValue | apps/api/src/chat/contact-detection/number-words.ts:22-47 | with the program's own tables 101 is read, and no words give more |
| Normalize.NormalizeChars | apps/api/src/chat/contact-detection/normalize.ts:25-37 | same length; digits of the four scripts keep their value, full-width "@" and "." are narrowed, every other unit stays |
| Normalize.UnmaskLookalikes | apps/api/src/chat/contact-detection/normalize.ts:50-55 | same length; a mostly numeric token becomes all digits, any other is untouched |
| Normalize.CollectNumberRun | apps/api/src/chat/contact-detection/normalize.ts:112-129 | gives exactly the maximal number run at a token, none for a lone "et" |
| Normalize.RunIsOrdered | apps/api/src/chat/contact-detection/normalize.ts:112-126 | a run's positions increase, are number words or "et", and begin at the token when it is one |
| Normalize.RunIsMaximal | apps/api/src/chat/contact-detection/normalize.ts:112-126 | a run leaves out only joiners with a word of it right after them, and stops before a token that can be no part of a run |
| Normalize.MappedBuilder.PushSpanning | apps/api/src/chat/contact-detection/normalize.ts:92-96 | appends units that all stand for one original range |
| Normalize.MappedBuilder.PushAligned | apps/api/src/chat/contact-detection/normalize.ts:99-103 | appends units that each stand for their own position |
| Normalize.DecimalDenotes | apps/api/src/chat/contact-detection/normalize.ts:138 | the digits written for a value are worth it, read place by place from the front, with no leading zero |
| Normalize.WrittenReads | apps/api/src/chat/contact-detection/normalize.ts:131-140 | values written one space apart, split at the spaces, read back as exactly those values |
| Normalize.RunUnitsRead | apps/api/src/chat/contact-detection/normalize.ts:131-140 | whatever numbers a run holds, its digits read back as their values, in order |
| Normalize.EmitNumberRun | apps/api/src/chat/contact-detection/normalize.ts:131-140 | what it appends, split at its spaces, reads place by place as exactly the run's values in order, each standing for its words |
| Normalize.ExpandNumbers | apps/api/src/chat/contact-detection/normalize.ts:146-169 | ends on any tokens and builds exactly the specified mapped text, whose runs read as their numbers (`ExpandedRunReads`) |
| Normalize.ExpandIsSound | apps/api/src/chat/contact-detection/normalize.ts:142-169 | starts and ends never go back, stay inside the original, and are empty only for separators |
| Normalize.OutsideIsExact | apps/api/src/chat/contact-detection/normalize.ts:163-166 | a token outside number runs is carried over with each unit mapped to its own position |
| Normalize.NumberWordsAreCovered | apps/api/src/chat/contact-detection/normalize.ts:155-161 | every spelled number word lies under some digit of the expanded text |
| Normalize.DictatedRun | apps/api/src/chat/contact-detection/normalize.ts:131-140 | a dictated list without fusion comes out as text that, split at its spaces, reads place by place as exactly that list |
| Normalize.DictatedUnits | apps/api/src/chat/contact-detection/normalize.ts:131-140 | and that text stands from the first of its words to the last |
| Normalize.ExpandHolds | apps/api/src/chat/contact-detection/normalize.ts:150-167 | what a token the loop comes to adds stands unbroken in the expanded text |
| Normalize.ExpandedRunReads | apps/api/src/chat/contact-detection/normalize.ts:146-169 | every run the loop comes to stands in the expanded text as its numbers, from its first number word to its last |
| Normalize.PlainTextStays | apps/api/src/chat/contact-detection/normalize.ts:163-166 | a text without number words and look-alikes is expanded to itself, unit for unit |
| Normalize.StretchIsMapped | apps/api/src/chat/contact-detection/contact-detection.ts:92-97 | the range read off a stretch is non-empty, in bounds and contains the source of each unit |
| PhoneRuns.LongestPhoneFrom | apps/api/src/chat/contact-detection/contact-detection.ts:65-75 | gives the longest valid run from a group, none exactly when there is none; the break at 15 digits loses nothing |
| PhoneRuns.PhoneMeans | apps/api/src/chat/contact-detection/contact-detection.ts:65-75 | what is looked up is 8 to 15 digits, the "+" in front only for the first ones of the match |
| PhoneRuns.DetectInMatch | apps/api/src/chat/contact-detection/contact-detection.ts:83-99 | the inner loop gives exactly the ranges of the specified runs |
| PhoneRuns.DetectPhones | apps/api/src/chat/contact-detection/contact-detection.ts:77-102 | over all matches, exactly the specified original ranges, in order |
| PhoneRuns.RunsAreLongestAndOrdered | apps/api/src/chat/contact-detection/contact-detection.ts:83-99 | detected runs are valid, none from the same group is longer, and they are ordered and disjoint |
| PhoneRuns.RunsMissNothing | apps/api/src/chat/contact-detection/contact-detection.ts:83-99 | every run of groups that is a valid number shares a group with a detected one |
| PhoneRuns.RangesOfRuns | apps/api/src/chat/contact-detection/contact-detection.ts:92-97 | the ranges detected are those of the runs, one for one |
| PhoneRuns.RunRangeIsSound | apps/api/src/chat/contact-detection/contact-detection.ts:92-97 | a run's range is non-empty, in bounds and contains the source of every unit it spans |
| PhoneRuns.PhoneRangesAreSound | apps/api/src/chat/contact-detection/contact-detection.ts:77-102 | all phone ranges are non-empty and inside the original text |
| Redaction.WithoutOverlaps | apps/api/src/chat/contact-detection/contact-detection.ts:159-165 | the loop keeps exactly what the specified filter keeps |
| Redaction.DetectContacts | apps/api/src/chat/contact-detection/contact-detection.ts:168-185 | filtering kind after kind equals one filter over all kinds in priority order |
| Redaction.KeepInLayers | apps/api/src/chat/contact-detection/contact-detection.ts:172-176 | filtering a lower layer against what the higher kept is one pass over both |
| Redaction.KeptAreDisjoint | apps/api/src/chat/contact-detection/contact-detection.ts:152-165 | kept ranges are pairwise disjoint |
| Redaction.DroppedForAHigherOne | apps/api/src/chat/contact-detection/contact-detection.ts:158-165 | a dropped detection overlaps a kept one of at least its priority |
| Redaction.MergedAreGapped | apps/api/src/chat/contact-detection/contact-detection.ts:200-206 | merged ranges are in the text and strictly apart |
| Redaction.MergeCovers | apps/api/src/chat/contact-detection/contact-detection.ts:200-206 | merging covers the same positions, no more and no less |
| Redaction.MergedRangesFit | apps/api/src/chat/contact-detection/contact-detection.ts:195-206 | filter, sort and merge give ranges the splice can use, covering exactly the detections |
| Redaction.Splice | apps/api/src/chat/contact-detection/contact-detection.ts:208-211 | the right-to-left splice is the original with one placeholder per merged range |
| Redaction.MaskingIsReversible | apps/api/src/chat/contact-detection/contact-detection.ts:208-211 | output and removed slices give the original back |
| Redaction.RedactContacts | apps/api/src/chat/contact-detection/contact-detection.ts:193-213 | the masked text and the kinds of every detection, masked or not |
| Redaction.PipelineFits | apps/api/src/chat/contact-detection/contact-detection.ts:168-213 | whatever the patterns match, all detections fit the original, so masking is well defined |
| Redaction.DetectedNumberIsHit | apps/api/src/chat/contact-detection/contact-detection.ts:77-213 | end to end: every detected number loses some of its original text, and all of it when kept |
| Redaction.EveryNumberIsReached | apps/api/src/chat/contact-detection/contact-detection.ts:77-213 | every valid number among matched digits shares a group with a detected, hit one; kept, the shared group is masked whole |
| Redaction.DictatedNumberIsHit | apps/api/src/chat/contact-detection/contact-detection.ts:77-213 | a dictated list whose digits are a detected run loses some of its own words, and all of them when kept |
| Redaction.KeptPassedTheGuard | apps/api/src/chat/contact-detection/contact-detection.ts:158-165 | the filter keeps exactly what overlapped nothing taken or kept when its turn came |
| Redaction.StretchIsHitExactly | apps/api/src/chat/contact-detection/contact-detection.ts:152-213 | any stretch of the original loses text exactly when a kept address, or a number that passed the guard, meets it |
| Redaction.NumberIsHitExactly | apps/api/src/chat/contact-detection/contact-detection.ts:77-213 | so a valid number is hit exactly under that condition |
| Redaction.NumberBesideAHandleStays | apps/api/src/chat/contact-detection/contact-detection.ts:134-176 | in a text like "@212 612345678" the number after the handle stays when both groups make a number |
| Sorting.SortForgetsOrder | apps/api/src/matching/ranking.ts:106 | sorting by an order without ties gives the same list for every permutation |
| Ranking.ComputeScore | apps/api/src/matching/ranking.ts:47-53 | the loop adds every signal times its weight once |
| Ranking.ScoreIsBounded | apps/api/src/matching/ranking.ts:32-73 | a score is between 0 and the sum of the weights |
| Ranking.SignalsAtTheirEnds | apps/api/src/matching/ranking.ts:32-90 | when each signal is full and when it is nothing, and the four without data are 0 |
| Ranking.BetterNeverScoresLess | apps/api/src/matching/ranking.ts:32-73 | a provider in no respect behind another never scores less, whatever the weights |
| Ranking.ScoreIsTheSum | apps/api/src/matching/ranking.ts:47-53 | the score is the sum of the nine signals, each times its own weight |
| Ranking.RankingIsSorted | apps/api/src/matching/ranking.ts:96-107 | every candidate once, best score first, smaller id on equal scores |
| Ranking.RankingForgetsOrder | apps/api/src/matching/ranking.ts:92-107 | the ranking is the same for every permutation of the candidates |
| Ranking.BatchIsExact | apps/api/src/matching/ranking.ts:114-142 | exactly min(batchSize, n) different providers of the ranking, the top one included |
| Ranking.BatchParts | apps/api/src/matching/ranking.ts:122-141 | merit seats are the ranking's head, the rest the head of the others in exploration order |
| Ranking.OmittedAreBehind | apps/api/src/matching/ranking.ts:125-141 | nobody left out outranks a merit seat or precedes an explorer |
| BoundedWaiting.BoundedWait | apps/api/src/matching/ranking.ts:109-142 | with a reserved seat a provider waits at most the others' dispatch deficit, whatever the scores |
| BoundedWaiting.SeatBoundsWait | apps/api/src/matching/ranking.ts:109-142 | the same for rounds ranked from candidates as the engine ranks them |
| BoundedWaiting.WeightBoundsWait | apps/api/src/matching/ranking.ts:63-73 | without a seat, an exploration weight above the merit weights together still bounds every wait |
| BoundedWaiting.NoSeatNoBound | apps/api/src/matching/ranking.ts:96-142 | otherwise, rankings of real candidates pass over the last of a pool one larger than the batch for any number of rounds |
| BoundedWaiting.LockOutExactly | apps/api/src/matching/dispatch.service.ts:110-128 | nobody is locked out if and only if a seat is reserved or exploration outweighs merit |
| Eligibility.EligibilityGrows | apps/api/src/providers/provider.service.ts:142-159 | who is eligible within a radius is eligible within any wider one |
| Eligibility.EligibleAreFiltered | apps/api/src/matching/eligibility.service.ts:46-85 | every candidate is a provider that passes every filter, none excluded, described as its profile and history say |
| Eligibility.NearestIsLeast | apps/api/src/matching/eligibility.service.ts:101-104 | the distance of a provider is that of one of its areas, and none is nearer |
| Eligibility.EveryEligibleIsFound | apps/api/src/matching/eligibility.service.ts:46-85 | every provider that passes every filter is a candidate, and there are exactly as many |
| Eligibility.BatchOfTheEligible | apps/api/src/matching/dispatch.service.ts:96-129 | exactly min(batch size, number eligible) different eligible providers, none excluded, each with its nearest area, past count, availability and score; empty exactly when nobody is eligible |
| Eligibility.SelectNextBatch | apps/api/src/matching/dispatch.service.ts:79-94 | ends within ceil((max - r0) / step) + 1 tries at the first radius with a batch, or at the cap |
| Eligibility.SearchIsComplete | apps/api/src/matching/dispatch.service.ts:75-94 | the search is empty exactly when nobody is eligible within the widest radius |
| Dispatch.Dispatcher.RunBatch | apps/api/src/matching/dispatch.service.ts:38-73 | the new state is the specified one: no-op, cancelled, exhausted, or one more batch |
| Dispatch.Dispatcher.PersistBatch | apps/api/src/matching/dispatch.service.ts:131-181 | contacts with their scores, batch, match and next job are written together with one index |
| Dispatch.Dispatcher.ExpireStaleCandidates | apps/api/src/matching/dispatch.service.ts:192-197 | exactly the NOTIFIED contacts past their expiry become EXPIRED |
| Dispatch.Dispatcher.Start | apps/api/src/matching/matching.service.ts:43-81 | idempotent start in both modes, with the failure that leaves an ACTIVE match |
| Dispatch.Dispatcher.ExpandRadius | apps/api/src/matching/matching.service.ts:106-123 | refuses a radius that is not wider, else caps it and runs a batch |
| Dispatch.Dispatcher.MarkViewed | apps/api/src/matching/matching.service.ts:317-322 | only a NOTIFIED contact becomes VIEWED |
| Dispatch.Dispatcher.Decline | apps/api/src/matching/matching.service.ts:182-191 | declines once, with the reason; a second decline is an error that changes nothing |
| Dispatch.Dispatcher.Submit | apps/api/src/requests/request.service.ts:165-177 | only a complete DRAFT becomes REQUESTED |
| Dispatch.Dispatcher.Withdraw | apps/api/src/requests/request.service.ts:179-187 | a live request is cancelled once |
| Dispatch.Dispatcher.FireJob | apps/api/src/matching/matching.queue.ts:36-43 | a pending job runs one batch and is removed |
| Dispatch.EveryRunKeeps | apps/api/src/matching/dispatch.service.ts:38-205 | over every run: batches numbered without gap and within size, contacts equal to their members, nobody twice, next job pending |
| Dispatch.ContactsAreBounded | apps/api/src/matching/dispatch.service.ts:53-72 | from creation on, at most maxBatches times the batch size contacts, all different |
| Dispatch.EveryRunMovesOn | apps/api/src/matching/dispatch.service.ts:37-51 | over every run: records only grow, terminal states absorb, nobody is contacted after matching is left, only NOTIFIED contacts expire |
| Dispatch.EffectiveRunsAreBounded | apps/api/src/matching/dispatch.service.ts:53-57 | effective runs plus runs left never exceed the maxBatches - batchCount + 1 left at the start, in any interleaving |
| Dispatch.DispatchEnds | apps/api/src/matching/dispatch.service.ts:53-57 | firing the pending job maxBatches - batchCount + 1 times always ends a match that has dispatched |
| Dispatch.ExhaustedMeansNobodyLeft | apps/api/src/matching/dispatch.service.ts:53-70 | a run ends EXHAUSTED exactly at the batch limit or when no uncontacted provider is eligible within the widest radius |
| Dispatch.AddedContactSuits | apps/api/src/matching/eligibility.service.ts:46-85 | each contact a run adds is to an available provider with the service, the skills, verification if required, an area near enough and a travel radius that reaches, not asked before; it tells its distance, signals and score, and is NOTIFIED for the set time |
| Dispatch.ContactIsEarned | apps/api/src/matching/dispatch.service.ts:38-73 | whatever step adds a contact, it is the one a DIRECT start named or one that suits in that way |
| Dispatch.EndsExactly | apps/api/src/matching/dispatch.service.ts:43-70 | a run cancels exactly when the request was withdrawn, is EXHAUSTED exactly at the limit or when no provider suits within the widest radius, and else dispatches |
| Dispatch.BatchKeepsPace | apps/api/src/matching/dispatch.service.ts:124-173 | an urgent request gets the urgent batch size and delay, another the normal ones, and no contact stays NOTIFIED past its expiry |
| Dispatch.BatchKeepsLive | apps/api/src/matching/matching.service.ts:344-355 | a batch run cuts off no live candidacy and revives none: what it writes agrees with the read-time rule |
| Dispatch.ViewingRevives | apps/api/src/matching/matching.service.ts:317-322 | viewing makes a contact live again exactly when it is NOTIFIED past its expiry |
| Dispatch.StallsExactly | apps/api/src/matching/matching.service.ts:61-80 | a start leaves an ACTIVE match without its job exactly when DIRECT and naming nobody |
| Dispatch.DirectCanStall | apps/api/src/matching/matching.service.ts:194-198 | such a match has no job; widening the radius then dispatches or ends it, with its job if it stays ACTIVE |
| Dispatch.RequestChangesExactly | apps/api/src/requests/request.service.ts:121-187 | when a request may be edited, submitted and withdrawn, and what each changes |
| Dispatch.AnswersExactly | apps/api/src/matching/matching.service.ts:171-191 | viewing and declining change the named contact only; the reason is kept and a second decline refused |
| Dispatch.DirectStartExactly | apps/api/src/matching/matching.service.ts:194-238 | a DIRECT start asks the one provider named, for the set time, and ends the match at once |
| ChatLog.FindByKey | apps/api/src/chat/message.service.ts:111-116 | finds a message with the sender's key, none only when there is none |
| ChatLog.ChatStore.AllocateSeq | apps/api/src/chat/conversation.service.ts:163-173 | raises the last number by one and returns it |
| ChatLog.ChatStore.InsertOnce | apps/api/src/chat/message.service.ts:252-266 | stores the message unless an index refuses it, then returns the one already there |
| ChatLog.ChatStore.SendMessage | apps/api/src/chat/message.service.ts:107-140 | does exactly what the interleaved steps of one send do when nothing interrupts them |
| ChatLog.SendAlonePaths | apps/api/src/chat/message.service.ts:107-140 | the steps of a lone send: replay, refusal, stored, or lost to the one that was first |
| ChatLog.SendSucceedsExactly | apps/api/src/chat/message.service.ts:107-140 | a new key is stored exactly when the request is open, the candidacy live or the contact unlocked, the media attachable and the reply target present; as drafted, unmasked exactly when UNLOCKED, numbered next |
| ChatLog.SentExactlyOnce | apps/api/src/chat/message.service.ts:252-266 | in any interleaving the rethrow is unreachable and all completed sends of a key return its only message |
| ChatLog.NumberIsNew | apps/api/src/chat/schemas/message.schema.ts:83 | a number in flight never collides with a stored one |
| ChatLog.LogStepKeeps | apps/api/src/chat/message.service.ts:107-140 | every step keeps numbers and keys unique and each number stored, in flight or burnt |
| ChatLog.NumbersAreConserved | apps/api/src/chat/conversation.service.ts:159-173 | last number = stored + in flight + burnt, in any interleaving |
| ChatLog.RetryReturnsStored | apps/api/src/chat/message.service.ts:111-116 | a retry returns the stored message after any further steps, without looking at any guard |
| ChatLog.ChatStore.AdvanceWatermarks | apps/api/src/chat/conversation.service.ts:182-199 | new watermarks are the maximum of the old and the clamped ones |
| ChatLog.AckKeeps | apps/api/src/chat/conversation.service.ts:175-199 | with a stale clamp, read <= delivered <= last number still holds and no watermark falls |
| ChatLog.AckReaches | apps/api/src/chat/conversation.service.ts:175-199 | a message becomes read or delivered exactly if acknowledged and existing when the call began; the other side is untouched |
| ChatLog.ChatStore.UnlockContact | apps/api/src/chat/conversation.service.ts:144-157 | unlocks once and keeps the first time |
| ChatLog.FirstUnlockStays | apps/api/src/chat/conversation.service.ts:144-157 | the first unlock's moment is kept whatever follows |
| ChatLog.ChatStore.EditMessage | apps/api/src/chat/message.service.ts:179-192 | the log becomes the specified one, of which `OnlyItsSenderEdits` says exactly when and how a message changes |
| ChatLog.OnlyItsSenderEdits | apps/api/src/chat/message.service.ts:179-192 | a step changes a message's words exactly when it saves an edit of its own sender, live and in time; the body is the edit's text, masked unless UNLOCKED was read, detections are added |
| ChatLog.OnlyItsSenderRemoves | apps/api/src/chat/message.service.ts:195-203 | a step deletes a message exactly when its sender removes it in time |
| ChatLog.OnlyOnesOwnReaction | apps/api/src/chat/message.service.ts:206-219 | a step sets or takes back the reacting user's reaction only, on a live message of an open conversation |
| ChatLog.NobodySpeaksForAnother | apps/api/src/chat/message.service.ts:107-298 | over every interleaving a message's words, attachments, reply target, deletion and reactions each trace to a step of the user they stand for, and its send to passed guards |
| ChatLog.ChatStore.RemoveMessage | apps/api/src/chat/message.service.ts:195-203 | soft delete of one's own message, one version up |
| ChatLog.ChatStore.SetReaction | apps/api/src/chat/message.service.ts:206-219 | one reaction per user, replaced or removed, one version up |
| ChatLog.EveryRunKeeps | apps/api/src/chat/contact-detection/contact-detection.service.ts:18-23 | over every interleaving, also of edits and stale reads, watermarks are consistent and while PROTECTED every stored body is masked |
| ChatLog.EveryRunMovesOn | apps/api/src/chat/conversation.service.ts:132-199 | over every interleaving: identities fixed, versions, watermarks and recorded detections only grow, the policy moves once, a completed send keeps its answer |
| ChatLog.RepliesPointBack | apps/api/src/chat/message.service.ts:268-274 | over every interleaving a reply points to an earlier message of the conversation |
| ChatLog.AttachmentsAreDistinct | apps/api/src/chat/message.service.ts:132 | a message carries each attachment named, once |
| ChatLog.VersionNamesContent | apps/api/src/chat/schemas/message.schema.ts:65-67 | over any run, one message at one version has one content |
| Thread.UpsertMessages | apps/web/src/lib/use-chat-thread.ts:44-53 | the loop is the fold of single merges |
| Thread.UpsertIsLatest | apps/web/src/lib/use-chat-thread.ts:44-53 | one message per id ever seen, with the highest version |
| Thread.LastOfEqualsWins | apps/web/src/lib/use-chat-thread.ts:46-51 | among equal highest versions the last one received is shown |
| Thread.ThreadsConverge | apps/web/src/lib/use-chat-thread.ts:44-53 | threads that saw the same messages in any order, number and batching hold the same ids and contents |
| Thread.BatchesCompose | apps/web/src/lib/use-chat-thread.ts:126-128 | merging batch after batch is merging their concatenation |
| Thread.ApplyReceipts | apps/web/src/lib/use-chat-thread.ts:60-74 | the loop ticks each message once and changes nothing else |
| Thread.TicksRefineServer | apps/api/src/chat/message-view.ts:39-47 | ticks after any receipts are the server's at the pointwise maximum of all watermarks |
| Thread.ReceiptsRaise | apps/web/src/lib/use-chat-thread.ts:60-74 | any events raise each tick exactly to the furthest watermarks received |
| Thread.ReceiptsForgetOrder | apps/web/src/lib/use-chat-thread.ts:55-74 | order and repetition of receipts do not matter |
| Thread.TicksNeverFall | apps/web/src/lib/use-chat-thread.ts:55-59 | no event lowers a tick or touches anything else |
| Thread.CatchUp | apps/web/src/lib/use-chat-thread.ts:289-298 | ends and merges exactly the messages above the cursor, each once and in order |
| Thread.NextCursor | apps/api/src/chat/message.service.ts:149-164 | the page's last number leaves exactly what the page did not hold |
| Thread.CatchUpCompletes | apps/web/src/lib/use-chat-thread.ts:289-298 | complete after catching up if and only if complete up to the cursor |
| Thread.MaxSeq | apps/web/src/lib/use-chat-thread.ts:76-80 | the highest number held, 0 for none |
| Thread.Reconnect | apps/web/src/lib/use-chat-thread.ts:262-267 | a reconnect completes the thread if and only if it was complete up to its highest number |
| Thread.GapIsNeverFilled | apps/web/src/lib/use-chat-thread.ts:76-80 | a message stored late below the cursor is never fetched |
| Thread.EveryOlderMessageIsReached | apps/web/src/lib/use-chat-thread.ts:161-167 | paging back from the first page reaches the whole log and then says so |
| Thread.ScrolledIsSuffix | apps/web/src/lib/use-chat-thread.ts:161-167 | after any number of older pages the thread is an unbroken end of the log |
| Sessions.SessionStore.CreateSession | apps/api/src/auth/session/session.service.ts:46-63 | a new session starts ACTIVE at version 0, as the create step of the interleaved model |
| Sessions.SessionStore.Rotate | apps/api/src/auth/session/session.service.ts:73-91 | an uninterrupted rotation, its result and every effect |
| Sessions.SessionStore.ExplainFailedRotation | apps/api/src/auth/session/session.service.ts:94-112 | why nothing matched, revoking exactly when it is reuse |
| Sessions.SessionStore.Revoke | apps/api/src/auth/session/session.service.ts:136-141 | only an ACTIVE session is revoked, so the first reason stays |
| Sessions.SessionStore.RevokeAllForUser | apps/api/src/auth/session/session.service.ts:143-149 | exactly the user's other ACTIVE sessions are revoked |
| Sessions.AloneIsTheSteps | apps/api/src/auth/session/session.service.ts:73-112 | the steps of one rotation, uninterrupted, do what the method does |
| Sessions.AnswersExactly | apps/api/src/auth/session/session.service.ts:73-112 | the condition of each answer of a rotation, and what it leaves of the session and of every other |
| Sessions.AtMostOneRotation | apps/api/src/auth/session/session.service.ts:65-91 | in any interleaving at most one call rotates a (session, version), and it began before that session's expiry, stored still or deleted |
| Sessions.ReuseIsReal | apps/api/src/auth/session/session.service.ts:94-112 | a reuse answer means an older version was presented to a live session, which is then dead |
| Sessions.DeadStaysDead | apps/api/src/auth/session/session.service.ts:136-149 | a revoked or deleted session is never rotated again |
| Sessions.RevokeAllIsFinal | apps/api/src/auth/session/session.service.ts:143-149 | after a sign-out everywhere every other session of the user is dead for good and nobody else's is touched |
| Sessions.VersionsNeverFall | apps/api/src/auth/schemas/user-session.schema.ts:25-53 | versions never fall, expiries never move, the first revocation reason stays |
| Sessions.EveryRunKeeps | apps/api/src/auth/auth.service.ts:116-138 | every step keeps tokens no newer than their session, calls consistent with what they saw, and one winner per version |
| RefreshClient.BrowserTab.RefreshSession | apps/web/src/lib/api-client.ts:87-92 | joins the refresh in flight or starts one with the token held |
| RefreshClient.BrowserTab.OnUnauthorized | apps/web/src/lib/api-client.ts:95-117 | replays at once if the token changed meanwhile, else waits on the shared refresh |
| RefreshClient.BrowserTab.OnConnectError | apps/web/src/lib/realtime.ts:45-57 | one shared refresh per refusal |
| RefreshClient.BrowserTab.OnReply | apps/web/src/lib/api-client.ts:56-80 | a success stores the new pair, anything else stores nothing |
| RefreshClient.BrowserTab.Settle | apps/web/src/lib/api-client.ts:87-92 | the flight is cleared and everyone waiting is told as specified; what they then get is `WaitingCallGets` and `WaitingSocketGets` |
| RefreshClient.BrowserTab.Continue | apps/web/src/lib/api-client.ts:103-117 | a waiting call retries, or clears the session |
| RefreshClient.WaitingCallGets | apps/web/src/lib/api-client.ts:103-117 | once the server answered, a waiting call is replayed with the new pair held after a success, and signed out with nothing held after any other answer |
| RefreshClient.WaitingSocketGets | apps/web/src/lib/realtime.ts:50-57 | the same for the socket's wait |
| RefreshClient.RefusalAsks | apps/web/src/lib/realtime.ts:41-57 | a refused call or socket waits on the flight, starting one with the held token if there is none; a socket that was up may ask again |
| RefreshClient.CallHearsTheOutcome | apps/web/src/lib/api-client.ts:87-92 | over every run, what a call is told is how the very refresh it waited for ended |
| RefreshClient.DroppedOnlyAfterRefusal | apps/web/src/lib/api-client.ts:103-117 | over every run the tokens are dropped only by a logout or after a refresh, waited for, that did not succeed |
| RefreshClient.RetriedOnlyAfterSuccess | apps/web/src/lib/api-client.ts:103-117 | over every run a call is replayed only on a changed token or after its refresh succeeded, and signed out only after it did not |
| RefreshClient.MissMeansEnded | apps/api/src/auth/session/session.service.ts:94-112 | a conditional update missed by this tab missed because the session had ended |
| RefreshClient.NeverTakenForReuse | apps/web/src/lib/api-client.ts:41-92 | in any interleaving of 401s, socket refusals, logins and server steps no refresh is taken for reuse, and one is refused only when its session ended |
| RefreshClient.HeldIsCurrentAtRest | apps/web/src/lib/api-client.ts:41-80 | with no refresh in flight the tab holds its session's current token |
| RefreshClient.BurstRotatesOnce | apps/web/src/lib/api-client.ts:95-117 | any number of 401s of calls sent with one access token rotate the tokens at most once, plus once for each time a refused socket asks, in any interleaving |
| RefreshClient.ReplayIsReuse | apps/api/src/auth/session/session.service.ts:105-111 | presenting a rotated token once more revokes the live session |
| Catalog.OperationKeepsLevelRule | apps/api/src/catalog/catalog.service.ts:58-137 | creating or updating a node keeps every node under a parent of the level above |
| Catalog.CreateExactly | apps/api/src/catalog/catalog.service.ts:58-78 | accepted exactly when parent and skills are right; then the new node shows what was asked, else nothing changes |
| Catalog.UpdateExactly | apps/api/src/catalog/catalog.service.ts:80-101 | accepted exactly when the node exists and given skills are right; given fields are shown, all else stays |
| Catalog.EveryCatalogueObeysLevels | packages/contracts/src/catalog.ts:10-17 | every reachable catalogue obeys the level rule, so it has no cycle |
| Catalog.FetchedFromCatalogue | apps/api/src/catalog/catalog.service.ts:36-44 | any filtered, reordered list of stored nodes can be built into a tree |
| Catalog.RootsAre | apps/api/src/catalog/catalog.service.ts:212-218 | a node is a root exactly when its parent is absent from the list |
| Catalog.ChainLinks | apps/api/src/catalog/catalog.service.ts:206-221 | a parent chain goes up level by level to a root |
| Catalog.BuildTree | apps/api/src/catalog/catalog.service.ts:206-221 | the linked objects form exactly the specified forest, one object per node |
| Catalog.ForestKeepsEveryNode | apps/api/src/catalog/catalog.service.ts:206-221 | the forest holds exactly the listed nodes, each once |
| Catalog.SiblingsKeepOrder | apps/api/src/catalog/catalog.service.ts:212-218 | siblings stay in the order of the list |
| Catalog.AncestryIsTheChain | apps/web/src/lib/catalog.ts:86-101 | the depth-first search returns the reversed parent chain of every node |
| Catalog.UnknownHasNoAncestry | apps/web/src/lib/catalog.ts:86-101 | an id outside the tree has an empty ancestry |
| Catalog.DisplayIsNearest | apps/api/src/catalog/catalog.service.ts:195-204 | each node shows the first icon and colour set up its own chain |
| OneTimeCodes.SubjectKeys.Consume | apps/api/src/auth/rate-limit/rate-limit.service.ts:22-34 | counts every call in its window; verdict, remaining calls and time to wait |
| OneTimeCodes.SubjectKeys.Issue | apps/api/src/auth/otp/otp.service.ts:43-63 | cooldown, hourly cap, then a fresh code without attempts, each with its time to wait |
| OneTimeCodes.SubjectKeys.Verify | apps/api/src/auth/otp/otp.service.ts:65-94 | every verdict and what remains of the code, as specified; `AcceptedExactly` says which candidate is accepted |
| OneTimeCodes.AcceptedExactly | apps/api/src/auth/otp/otp.service.ts:65-94 | after an issue and any steps that issue no code and accept none, a candidate is accepted exactly if it is the code, unexpired, and fewer than maxAttempts wrong ones were tried; a mismatch exactly if wrong and not the last allowed |
| OneTimeCodes.WaitIsExact | apps/api/src/auth/otp/otp.service.ts:43-63 | a request repeated sooner than told is refused for the same reason, later not for that one |
| OneTimeCodes.WindowIsExact | apps/api/src/auth/rate-limit/rate-limit.service.ts:22-34 | of n calls in a window exactly min(n, limit) pass |
| OneTimeCodes.StretchIsBounded | apps/api/src/auth/rate-limit/rate-limit.service.ts:15-34 | after any earlier calls, a window-long stretch sees at most 2 * limit - 1 allowed calls, and at most limit if no open window spills into it |
| OneTimeCodes.OneLimitExactly | apps/api/src/auth/rate-limit/rate-limit.service.ts:22-34 | no call pattern of a stretch gets more than limit through if and only if no open window with allowance left lapses inside it |
| OneTimeCodes.BoundIsReached | apps/api/src/auth/rate-limit/rate-limit.service.ts:22-34 | from an empty key, 2 * limit - 1 is reached for every limit |
| OneTimeCodes.CodesAreSpent | apps/api/src/auth/otp/otp.service.ts:65-94 | each issued code is accepted at most once and compared at most maxAttempts times |
| OneTimeCodes.IssuesAreAllowed | apps/api/src/auth/otp/otp.service.ts:43-63 | the codes issued in any run are exactly the attempts past the cooldown that the limiter allows |
| OneTimeCodes.IssuingIsBounded | apps/api/src/auth/otp/otp.service.ts:43-63 | in any hour, whatever came before, at most 2 * maxPerHour - 1 codes; maxPerHour if no window spills into it |
| OneTimeCodes.HourlyCapExactly | apps/api/src/auth/otp/otp.service.ts:43-63 | every run of an hour keeps the cap if and only if no number of codes in the open window leaves time, cooldowns included, for one too many |
| OneTimeCodes.NineInOneHour | apps/api/src/auth/auth.constants.ts:10-11 | at a cooldown of 60 and a cap of 5, nine codes can be issued within one hour |
| OneTimeCodes.GuessingIsBounded | apps/api/src/auth/otp/otp.service.ts:43-94 | in any hour the candidates compared are those an older code still allowed and at most (2 * maxPerHour - 1) * maxAttempts more; maxPerHour * maxAttempts if no window spills into it |
| OneTimeCodes.OnlyTheLatestIsAccepted | apps/api/src/auth/otp/otp.service.ts:65-94 | only the latest code is accepted, before its expiry, which wrong attempts do not extend |

## Left out

- Regular expressions, Unicode tables and libphonenumber: tokens, matches and validity are inputs, constrained only as a regular expression guarantees.
- Accent folding and case folding of words; words reach the parser folded. Property names inherited by the lookup tables, such as "constructor", are not words of the lexicon.
- Scores and distances are reals, so rounding of floating point is not modelled; haversine and the spherical index are abstract distances.
- Comparing ids with `localeCompare` is modelled as their place in that order.
- Overlapping executions of `runBatch` for one match, and crashes between its writes: it is one step.
- A configuration that changes during a run, or a default radius above the maximum, which no schema forbids.
- Failed jobs: a job that fires completes and is removed.
- ChatLog.ChatStore.SendMessage: whether media may be attached is an input, since it is another module's; events and views are not modelled.
- ChatLog.ChatStore.EditMessage: a message's read-modify-write is one step; two edits of one message at the same instant are outside.
- Opening conversations and the participants' access checks; a conversation is given.
- Message search, typing indicators, and edits made to older messages while the client was offline.
- Thread.UpsertMessages: equal versions may overwrite the delivery tick, so convergence is stated for everything else.
- JWT signing: a token is its claims; devices, addresses and user agents are not stored.
- Other tabs on the same session and lost refresh replies: reuse detection revokes the session then (`ReplayIsReuse`).
- RefreshClient.NeverTakenForReuse: assumes that the user of a rotated session still exists, since the program answers 401 after rotating otherwise.
- Whether a late refusal may clear a newer login of the same tab: the program allows it and nothing is claimed.
- Catalogue names, order numbers and search; the order of a fetched list is arbitrary.
- Hash collisions of one-time codes, concurrent verifications, and a crash between the counter's increment and its expiry.
- Companies, offers, wallets, verification cases, media, transport quotes, seeds, controllers, guards and all user interface: they would add only easy members.
