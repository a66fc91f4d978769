# DingTalk channel SDK: verified model of its state machines

The SDK sits between DingTalk and an agent. This project models its three stateful parts in Dafny
and proves what they promise over whole runs, for every input and every interleaving.

**Inbound safety pipeline.** A pushed message passes staleness, dedup, self-sent filter, policy and
a processing lock, then a per-conversation queue, a media batch or the handler itself; afterwards
locks are released and ids marked as seen.

- `SeenCache.dfy`, `Deduper.dfy`, `ProcessingLock.dfy`, `ChatQueue.dfy`, `Media.dfy` and
  `SafetyPipeline.dfy` hold the objects as classes that change their fields in place. Each method is
  proved equal to a step on values: `Recency.dfy`, `QueueSpec.dfy`, `MediaSpec.dfy`, `Pipeline.dfy`.
  `MediaRuns.dfy` proves what whole runs of the media buckets launch.
- `SeenRuns.dfy` proves what the dedup cache answers after any run; `DedupAgreement.dfy` compares it
  with the older cache and with the ideal "marked less than TTL ago".
- `Pipeline.dfy` is the global machine, one step per critical section: pushes, workers, timers
  (stale ones too), media goroutines and sweeps interleave freely. `PipelineSafety.dfy` proves, on
  every run, conservation of messages, ownership of locks and mutual exclusion per id.
  `PipelineAdmission.dfy` and `PipelineEffects.dfy` say key by key which pushes are admitted, where they
  go and what a finished call leaves behind; `PipelineArrivals.dfy` and `PipelineHomes.dfy` follow
  messages through whole runs: what two that pass dedup may share, and whose queue they wait in.
  `PipelineOnce.dfy` (marking on entry) and `PipelineAfter.dfy` (marking after the handler) prove
  at-most-once on the same machine, with the exact race that breaks it; `PipelineRaces.dfy` gives
  runs from an idle pipeline in which each race happens.

**Outbound content.** `Splitter.dfy` (splitting with code fences closed and reopened), `Chunks.dfy`
(cutting the rest, and what a finished card plus its remainder deliver), `Markdown.dfy`,
`Newlines.dfy` and `CardText.dfy` (normalising for the card renderer), `SecondPass.dfy` (when normalising newlines again
changes nothing), `StreamSpec.dfy` and `Streamer.dfy` (the
streaming card: captures, throttle, sealing).

**Outbound rate.** `BucketSpec.dfy` and `RateLimit.dfy` (the token bucket over real time, with a
potential function) and `Retry.dfy` (retries, and the rate-limited calls they are made of).

Shared: `Text.dfy` (join and split), `Messages.dfy` (messages and batch merging), `Options.dfy`.

`dafny verify dfyconfig.toml` checks everything.

Results that go against a comment or document of the repository, each proved, with the exact
condition where there is one:

- the seen cache's sweep is documented as walking a list sorted by time; a hit moves an entry without
  renewing it, so a sweep can leave expired entries (`SeenRuns.SweepCanLeaveExpired`); it leaves none
  exactly when no expired entry sits in front of a live one (`Recency.SweepComplete`);
- the old Deduper's order slice is documented as LRU order; eviction takes the keys marked longest ago
  exactly when the slice is in order of last mark (`Dedupers.EvictsOldestExactly`), which runs without
  re-marks and sweeps keep (`Dedupers.FirstMarksKeepOrder`), a re-mark breaks
  (`Dedupers.OldEvictsNewestMark`) and a sweep may break (`Dedupers.SweepLosesOrder`); old and new
  caches differ exactly TTL after a mark (`DedupAgreement.BoundaryIsTheDifference`);
- the seen cache's CheckAndMark is documented as atomic but takes its mutex twice: a key passes twice
  within the TTL exactly when a push passes its check while another that passed it has not marked it yet
  (`PipelineOnce.EntryAtMostOnce`; it happens in `PipelineRaces.EntryRace`);
- a flush releases its locks before it marks, and a push checks before it locks: an id handled before
  is admitted again exactly when the gate takes its lock while a finished call has still to mark it, or
  after it was marked since the push's check (`PipelineAfter.AdmittedAgainExactly`; these happen in
  `PipelineRaces.ReleaseRace` and `PipelineRaces.AfterRace`); without such a gate nothing is handled
  twice (`PipelineAfter.AfterAtMostOnce`);
- a fresh processing lock excludes exactly when its TTL is positive
  (`ProcessingLocks.ExclusionNeedsPositiveTtl`);
- a text chunk can be one rune over its limit, exactly when the first rune that does not fit is a
  newline (`Chunks.ChunkOverLimit`);
- the table fix inserts blank lines inside code: code survives normalising exactly when no table in
  code needs one (`CardText.NormalizeForCard`);
- two captures of a streaming card can be closer than the throttle, exactly when an append overtakes
  an overdue flush (`StreamSpec.OvertakingBreaksThrottle`), and one can (`StreamSpec.ThrottleBreaks`);
- the newline rewriting is not idempotent: a second pass changes nothing exactly when no two lines of the
  first's output, outside code, are quotes that follow each other (`SecondPass.SecondPassExactly`), which
  the unanchored block-start expression allows (`SecondPass.QuotesCanTouch`) and an anchored one would
  not (`SecondPass.AnchoredIsStable`);
- a card rate below one per second never grants a call, on any run (`BucketSpec.EverGrants`);
- a media batch text shows its count correctly exactly up to nine (`MediaSpec.CountShown`).

## Model

| member | source | states |
|---|---|---|
| Recency.HasMeaning | internal/safety/seen_cache.go:119-158 | A lookup is true exactly when some given non-empty key is live; the key hit heads the list afterwards; only expired keys are forgotten |
| Recency.LookupExactly | internal/safety/seen_cache.go:119-158 | Key by key what a lookup does to the list: the asked keys it passes are not live and are deleted; the first live one goes to the front with its old expiry; every other entry keeps its place, and on a miss no asked key is left |
| Recency.SweepMeaning | internal/safety/seen_cache.go:100-115 | A sweep removes expired keys only and keeps every expiry it leaves |
| Recency.SweepComplete | internal/safety/seen_cache.go:100-115 | A sweep leaves no expired entry iff no expired entry sits in front of a live one |
| Recency.PrefixEntries | internal/safety/seen_cache.go:200-207 | Capacity eviction, a cut at the back of the list, adds and changes nothing and duplicates no key |
| SeenRuns.RunKeeps | internal/safety/seen_cache.go:100-221 | On every run the list has no duplicates, fits the bound, is in order of last use, and a missing key has expired or has seen as many other keys used since as the cache holds |
| SeenRuns.SeenAnswer | internal/safety/seen_cache.go:119-221 | After any run: true only for a key marked less than TTL ago; false for such a key only after maxEntries other keys were used since |
| SeenRuns.LookExact | internal/safety/seen_cache.go:119-158 | With no more keys in play than the cache holds, the answer is exactly "some key was last marked less than TTL ago" |
| SeenRuns.LookExactWithRoom | internal/safety/seen_cache.go:119-158 | The same however many keys were ever used, as long as fewer than maxEntries others were used since each key asked for that is not a TTL old |
| SeenRuns.EvictedIsOldest | internal/safety/seen_cache.go:200-207 | The key evicted is the one used longest ago: every other key held has been used since |
| SeenRuns.SweepCanLeaveExpired | internal/safety/seen_cache.go:100-115 | A four-operation run after which a sweep leaves an expired entry |
| SeenCaches.SeenCache.constructor | internal/safety/seen_cache.go:47-69 | An empty cache whose map and list agree |
| SeenCaches.SeenCache.Has | internal/safety/seen_cache.go:119-158 | On map and linked list in place: equals the lookup on the recency list; map and list keep the same elements |
| SeenCaches.SeenCache.AddToMemory | internal/safety/seen_cache.go:187-208 | A held key gets the new expiry in place and moves to the front; a new one goes in front and the oldest go while the list is too long |
| SeenCaches.SeenCache.Add | internal/safety/seen_cache.go:163-184 | All non-empty keys are marked in order with one expiry |
| SeenCaches.SeenCache.CheckAndMark | internal/safety/seen_cache.go:212-221 | Lookup, then on a miss the mark, as two critical sections |
| SeenCaches.SeenCache.SweepExpired | internal/safety/seen_cache.go:100-115 | The loop from the back of the list equals the sweep of the recency list |
| Dedupers.Deduper.constructor | internal/safety/dedup.go:23-41 | Non-positive settings become 5 minutes and 10000 entries |
| Dedupers.Deduper.CheckAndMark | internal/safety/dedup.go:73-102 | Duplicate iff some key was marked at most TTL ago; a hit changes nothing; a miss marks all keys and evicts from the front of the order |
| Dedupers.Deduper.SweepExpired | internal/safety/dedup.go:56-71 | Deletes exactly the keys marked more than TTL ago; the order slice still lists each key once, in any order |
| Dedupers.ShrinkMeaning | internal/safety/dedup.go:92-100 | Eviction drops a prefix of the order slice, exactly as much as the bound asks for |
| DedupAgreement.CachesAgree | internal/safety/dedup.go:56-102 | Old cache, new cache and "last marked less than TTL ago" answer alike on every run on which neither cache goes over its bound and nothing is asked exactly TTL after an event, however sweeps walk the old map |
| DedupAgreement.NewStepIsCheckAndMark | internal/safety/seen_cache.go:212-221 | The new cache's step in that comparison is SeenCache.CheckAndMark with one clock reading |
| DedupAgreement.BoundaryIsTheDifference | internal/safety/dedup.go:82-88 | From the same marks the caches answer differently iff some key was marked exactly TTL ago and none more recently |
| Dedupers.EvictsOldestExactly | internal/safety/dedup.go:92-100 | Eviction drops only keys marked no later than those it keeps, to whatever size, iff the order slice is in order of last mark |
| Dedupers.FirstMarksKeepOrder | internal/safety/dedup.go:73-102 | On every run without a sweep and without a re-mark of a held key, the order slice stays in order of last mark |
| Dedupers.OldEvictsNewestMark | internal/safety/dedup.go:73-102 | A run of checks from empty after which a key marked at 20 is evicted before one marked at 5, and passes as new at 22 |
| Dedupers.SweepLosesOrder | internal/safety/dedup.go:56-71 | A sweep whose walk leaves the order slice out of order of last mark |
| ProcessingLocks.ProcessingLock.Acquire | internal/safety/processing_lock.go:29-41 | Succeeds iff nobody holds an unexpired claim; then the claim is the caller's until now + ttl |
| ProcessingLocks.ProcessingLock.SweepExpired | internal/safety/processing_lock.go:61-71 | Exactly the expired claims go |
| ProcessingLocks.SweepKeepsHolders | internal/safety/processing_lock.go:61-71 | A sweep changes nobody's hold, now or later |
| ProcessingLocks.ExclusionNeedsPositiveTtl | internal/safety/processing_lock.go:29-41 | A fresh claim excludes a second one iff the TTL is positive |
| Messages.MergeBatch | internal/safety/chat_queue.go:201-258 | The merging loops compute the merged message that MergeMeaning and MergedTextGrows describe |
| Messages.MergeMeaning | internal/safety/chat_queue.go:201-258 | A single message is itself; otherwise "mention all" iff anyone asked, each resource first with its download code and each mention first with its user id (or name) in order, every other field from the last message |
| Messages.MergedTextGrows | internal/safety/chat_queue.go:208-214 | Message by message: an empty text adds nothing, any other follows what is there after a blank line |
| Messages.GatheredInOrder | internal/safety/chat_queue.go:225-247 | What these first occurrences are taken from: the lists of the messages, one after another |
| Messages.FirstByMeaning | internal/safety/chat_queue.go:225-247 | First occurrences: exactly the elements that are first with their key, in their order; every key once, none lost, none added |
| Messages.BatchBoundaries | internal/safety/chat_queue.go:201-258 | Merging two merged batches is merging their messages at once: where batches were cut does not matter |
| QueueSpec.FlushMoves | internal/safety/chat_queue.go:160-199 | A flush moves exactly the buffered ids to the channel in order, within the batch bound, and empties the buffer |
| QueueSpec.Fifo | internal/safety/chat_queue.go:48-199 | On every run, stale callbacks included: the dispatches that entered the channel, then the buffer, partition the pushed messages in push order; each dispatch is the merge of its batch with its ids and first callback, in serial mode the message itself; bufferChars is the sum of the buffered lengths; each batch fits its bounds; a non-empty buffer has a callback coming |
| QueueSpec.FifoFromNew | internal/safety/chat_queue.go:35-199 | The same from a new queue of either mode |
| QueueSpec.NoTextLost | internal/safety/chat_queue.go:160-214 | On every run the non-empty texts handed over and waiting, joined by a blank line, are the pushed texts joined the same way; in serial mode exactly the pushed messages are handed over |
| QueueSpec.PushWaitsExactly | internal/safety/chat_queue.go:63-103 | A push waits iff under both limits, with a delay, in batch mode; then the one new callback has the media, long or short delay and the stopped one is gone; otherwise the buffer is empty and no timer is set |
| QueueSpec.FireEmpties | internal/safety/chat_queue.go:97-102 | A callback that runs, stale or not, leaves nothing waiting and no timer set |
| QueueSpec.BatchesUnderBounds | internal/safety/chat_queue.go:67-102 | On every run each batch that entered the channel has one message, or at most MaxMessages and less than MaxChars of text without the last |
| QueueSpec.JobAfterEarlierPushes | internal/safety/chat_queue.go:106-121 | A task of Run enters the channel behind every message pushed before it, whatever happens between its flush and its send |
| ChatQueues.ChatQueue.Push | internal/safety/chat_queue.go:63-103 | In place: buffer, count, first handler, then flush at a bound, at zero delay or in serial mode, else a restarted timer |
| ChatQueues.ChatQueue.EnqueueFlush | internal/safety/chat_queue.go:160-199 | The loops compute the flush that Fifo and NoTextLost are about: one merged task, or one task per message in serial mode; the buffer is emptied, and dropped if no handler came with it |
| ChatQueues.ChatQueue.Run | internal/safety/chat_queue.go:106-121 | What is buffered is flushed before the task joins the channel |
| ChatQueues.ChatQueue.TimerFired | internal/safety/chat_queue.go:92-102 | A callback, stale or not, clears the timer field and flushes |
| ChatQueues.ChatQueue.Take | internal/safety/chat_queue.go:48-60 | The worker receives the oldest task |
| ChatQueues.ChatQueueManager.GetOrCreate | internal/safety/chat_queue.go:290-311 | One queue per scope; it keeps the mode it was made with |
| ChatQueues.ChatQueueManager.Push | internal/safety/chat_queue.go:314-317 | A push changes the queue of its scope and no other |
| ChatQueues.ChatQueueManager.Run | internal/safety/chat_queue.go:319-322 | So does Run |
| MediaSpec.FlushSound | internal/safety/media_pipeline.go:132-153 | A flush keeps: no bucket is empty, full, misfiled or without a callback of its own coming |
| MediaSpec.FlushKeysSound | internal/safety/media_pipeline.go:111-129 | Flushing a list of keys keeps this and removes exactly those buckets |
| MediaSpec.FireSound | internal/safety/media_pipeline.go:98-108 | A timer callback keeps it |
| MediaSpec.PushSound | internal/safety/media_pipeline.go:75-108 | A push keeps it |
| MediaSpec.SourcesRecovered | internal/safety/media_pipeline.go:201-229 | The flush callback recovers exactly the merged messages, single or many |
| MediaSpec.ChatKeyExact | internal/safety/media_pipeline.go:181-197 | A batch key matches its own conversation and no other iff the conversation id has no NUL |
| MediaSpec.BucketsApart | internal/safety/media_pipeline.go:181-188 | Media messages share a bucket iff conversation and type agree |
| MediaSpec.RepliesApart | internal/safety/media_pipeline.go:181-188 | Replies in one conversation share a batch key iff the hashes of what they quote agree |
| MediaSpec.CountShown | internal/safety/media_pipeline.go:248-253 | The count in the batch text is the decimal count iff it is at most nine |
| MediaRuns.FlushMeaning | internal/safety/media_pipeline.go:132-253 | A flushed bucket launches one message: a single source itself; of several the last with the resources of all in push order, the sources, and a text naming the kind by its type; no other bucket and no other callback is touched |
| MediaRuns.PushMeaning | internal/safety/media_pipeline.go:75-108 | A push waits iff its bucket then holds fewer than maxItems; it has one new callback and the stopped one is gone; a full bucket is launched whole |
| MediaRuns.NothingLost | internal/safety/media_pipeline.go:75-153 | On every run of pushes, callbacks and flushes the launched messages carry batches of at most maxItems pushed messages, and for every batch key those batches followed by the waiting bucket are the messages pushed with it, in push order |
| MediaRuns.ResourcesConserved | internal/safety/media_pipeline.go:211-219 | On every run, for every key, launched resources followed by waiting ones are the pushed ones, each once, in push order |
| MediaRuns.Defaults | internal/safety/media_pipeline.go:52-60 | Missing or non-positive settings become 800 ms and nine items |
| MediaPipelines.MediaPipelineManager.Push | internal/safety/media_pipeline.go:75-108 | In place on the bucket map: add, stop the timer, flush a full bucket or restart its window |
| MediaPipelines.MediaPipelineManager.FlushBucket | internal/safety/media_pipeline.go:132-153 | An empty or missing bucket is left; otherwise it is removed, its timer cancelled, and the message launched carries its sources: all resources in order, all other fields of the last, a text naming the kind |
| MediaPipelines.MediaPipelineManager.FlushIncompatibleFor | internal/safety/media_pipeline.go:111-129 | Flushes exactly the buckets of the message's conversation, in map order |
| MediaPipelines.MediaPipelineManager.TimerFired | internal/safety/media_pipeline.go:98-108 | The window of a bucket ends: its key is flushed |
| PipelineSafety.PushHolds | internal/safety/chat_queue.go:63-103 | A push to a queue adds one pending message and one claim, through every flush branch |
| PipelineSafety.MediaPushHolds | internal/safety/media_pipeline.go:75-108 | So does a push to the media buckets |
| PipelineSafety.NextKeeps | internal/safety/pipeline.go:104-270 | Every step of the machine keeps the global invariant |
| PipelineSafety.PipelineBalanced | internal/safety/pipeline.go:104-270 | Conservation and lock ownership on every run in which no claim outlives its TTL: for each id, pushes in flight plus settled ones are the pushes made, and the lock is held iff exactly one claim on it is in flight |
| PipelineSafety.Exclusion | internal/safety/processing_lock.go:29-47 | Two activities never claim the same id |
| PipelineSafety.NoOverlap | internal/safety/pipeline.go:142-183 | No two handler calls overlap on an id, and no call covers an id twice, merged batches included |
| PipelineSafety.NoLeak | internal/safety/pipeline.go:235-270 | With nothing in flight no lock is held and every push is settled once |
| PipelineOnce.EntryAtMostOnce | internal/safety/pipeline.go:111-127 | Marking on entry, on every run on which no key is crowded out of the cache: passes of a key through dedup are at least the TTL apart iff no push passes its check while another push has passed it with a shared key less than TTL ago and not yet marked it |
| PipelineArrivals.SharedKeyApart | internal/safety/pipeline.go:111-127 | Marking on entry, on every run without crowding and without that race: two messages that share a delivery id, a message id, or a content fingerprint (with text and timestamp) do not both pass dedup within the TTL |
| PipelineOnce.AtomicChecksDoNotRace | internal/safety/seen_cache.go:212-221 | With each check followed at once by its mark there is no such race, whatever else interleaves |
| PipelineOnce.PassApartExactly | internal/safety/pipeline.go:111-127 | One check: the new pass is apart from all earlier ones iff it does not race |
| PipelineAfter.AdmittedAgainExactly | internal/safety/pipeline.go:111-150 | Marking after the handler, on every run without crowding in which pushes reach the gate within a TTL: an id handled and not forgotten is admitted again iff a gate takes its lock while a finished call still owes its mark, or after a mark made since the push's check |
| PipelineAfter.AfterAtMostOnce | internal/safety/pipeline.go:235-270 | Without such a gate, and with no claim outliving its TTL, successful calls covering a non-empty id are at least the TTL apart, on every run without crowding |
| PipelineAfter.AdmittedAtOnceDoesNotRace | internal/safety/pipeline.go:111-150 | When gates follow their checks at once and no call is half finished at a gate, no gate races, whatever else interleaves |
| PipelineAfter.MarksComeFromSuccess | internal/safety/pipeline.go:235-270 | When marking waits for the handler, every key ever marked is a key of a call that succeeded |
| PipelineAdmission.AdmittedExactly | internal/safety/pipeline.go:104-150 | From any state: a message push ends with one reject event carrying the first objection, or is admitted and locked; duplicate means its delivery id, its message id or its fingerprint (with text and timestamp) was marked less than TTL ago |
| PipelineAdmission.AdmissionMarks | internal/safety/pipeline.go:111-127 | Marked on entry, a message neither stale nor duplicate leaves all these keys and no other marked, even if turned away later; otherwise no mark changes |
| PipelineEffects.ActionAdmittedExactly | internal/safety/pipeline.go:188-203 | An action is let through iff neither its event id nor an extra key was marked within the TTL and its event id is not locked; then it holds that lock; on entry exactly these keys are marked |
| PipelineEffects.LightAdmittedExactly | internal/safety/pipeline.go:220-227 | A light event is let through iff its id was not marked within the TTL, and takes no lock |
| PipelineEffects.MessagesFinished | internal/safety/pipeline.go:235-270 | A returned call on messages releases exactly their locks and marks exactly their ids iff it succeeded in mark-after mode |
| PipelineEffects.ActionFinished | internal/safety/pipeline.go:205-212 | A returned action releases exactly its lock and marks exactly its event id and extra keys iff it succeeded in mark-after mode |
| PipelineEffects.LightHandled | internal/safety/pipeline.go:220-231 | A light event let through is handled at once, releases nothing and is marked iff it succeeded in mark-after mode |
| PipelineHomes.EverybodyAtHome | internal/safety/pipeline.go:152-168 | On every run a conversation's queue buffers, queues and is sent messages of that conversation only, merged ones included |
| PipelineAdmission.FinishEffect | internal/safety/pipeline.go:235-270 | A finished call releases all its locks and, after success in mark-after mode only, marks its key groups in order |
| PipelineAdmission.FailureForgets | internal/safety/pipeline.go:260-269 | A failed call leaves the cache as it was and releases its locks |
| PipelineAdmission.FailedIsRedeliverable | internal/safety/pipeline.go:251-270 | A message whose handler failed is admitted when redelivered iff it is not stale, not self-sent, not refused by policy, and none of its keys was marked within the TTL |
| PipelineRaces.EntryRace | internal/safety/seen_cache.go:212-221 | A run from idle: two pushes check before either marks, and one event is handled successfully twice |
| PipelineRaces.AfterRace | internal/safety/pipeline.go:111-119 | A run from idle: a push checks the cache while another is handled and takes the lock after its release and mark: handled twice |
| PipelineRaces.ReleaseRace | internal/safety/pipeline.go:260-269 | A run from idle: a push passes check, gate and handler between another call's release and its mark: handled twice |
| SafetyPipelines.SafetyPipeline.constructor | internal/safety/pipeline.go:77-101 | An idle pipeline |
| SafetyPipelines.SafetyPipeline.Dedup | internal/safety/pipeline.go:111-127 | Check only in mark-after mode, check and mark otherwise |
| SafetyPipelines.SafetyPipeline.Admit | internal/safety/pipeline.go:104-150 | The stages in order, each with its reject reason, on the keys of AdmittedExactly; equals the admission of the machine |
| SafetyPipelines.SafetyPipeline.PushMessage | internal/safety/pipeline.go:104-183 | The whole new state of cache, locks, queues and buckets after a push, admitted or rejected |
| SafetyPipelines.SafetyPipeline.PushAction | internal/safety/pipeline.go:188-217 | A card action: dedup over all its keys, lock, serial execution on its scope or a direct call |
| SafetyPipelines.SafetyPipeline.PushLight | internal/safety/pipeline.go:220-231 | A light event: dedup only; marked on entry, or after success |
| SafetyPipelines.SafetyPipeline.Flushed | internal/safety/pipeline.go:235-270 | After a flush callback: all source locks released, then sources marked iff it succeeded in mark-after mode |
| SafetyPipelines.SafetyPipeline.Work | internal/safety/chat_queue.go:48-60 | The worker takes the oldest task, runs it and closes it |
| SafetyPipelines.SafetyPipeline.RunLaunched | internal/safety/media_pipeline.go:146-153 | The goroutine of a flushed media batch releases and marks each recovered source |
| SafetyPipelines.AdmissionIsMachine | internal/safety/pipeline.go:104-150 | The admission by the methods is four steps of the machine |
| SafetyPipelines.FinishedIsMachine | internal/safety/pipeline.go:235-270 | So is the end of a call |
| SafetyPipelines.PushIsMachine | internal/safety/pipeline.go:104-183 | A whole push by the methods is a run of the machine, media flushes included, with the same event |
| SafetyPipelines.ActionIsMachine | internal/safety/pipeline.go:188-217 | An action push by the methods is the machine's admission, route and call of the same action |
| Splitter.SplitWithCodeFences | internal/outbound/splitter.go:15-71 | A text within the limit stays whole; otherwise the chunks are the pieces between cuts made exactly where the greedy rule, the heading rule included, asks for one |
| Splitter.Flush | internal/outbound/splitter.go:25-41 | Closes open code in the chunk and reopens it, with its language, in the next; does nothing on an empty buffer |
| Splitter.EvenFences | internal/outbound/splitter.go:57-64 | A text ends outside code iff its number of fences is even |
| Splitter.ChunkReadsAlone | internal/outbound/splitter.go:25-69 | A chunk read on its own has an even number of fences, and each original line is read in it as in the whole text: in or out of code, in the same language |
| Splitter.SplitKeepsMeaning | internal/outbound/splitter.go:19-69 | All chunks read alone, none holds only added lines, and dropping the added fences from the chunks and joining their lines by newline gives the text back |
| Splitter.ChunkSize | internal/outbound/splitter.go:43-69 | A chunk of several lines exceeds the limit at most by the fence that closes it; the size of a one-line chunk is exact |
| Splitter.SplitSize | internal/outbound/splitter.go:43-69 | Every chunk is at most max(limit, longest reopen line + 1 + longest line) + 4 |
| Splitter.CutReasons | internal/outbound/splitter.go:43-54 | No line stays in a chunk that it takes over the limit, and no heading in one already three quarters full; each line that begins a next chunk would have filled the one before, or is a heading after three quarters |
| Splitter.FenceMeaning | internal/outbound/splitter.go:9 | A fence is three backticks and word characters, nothing else |
| Splitter.HeadingMeaning | internal/outbound/splitter.go:10 | A heading is one to six marks and a blank |
| Chunks.ChunkText | reply.go:43-71 | Short texts whole, fenced ones through the splitter, others cut rune by rune |
| Chunks.ChunkRunes | reply.go:50-70 | The shrinking-slice loop cuts after the last newline between limit/2 and limit, else at the limit |
| Chunks.CutKeepsAll | reply.go:50-70 | The chunks concatenate to the text and none is empty |
| Chunks.PrefersNewline | reply.go:57-66 | A text over the limit is first cut behind the last newline from half the limit to the limit, or at the limit if there is none |
| Chunks.FenceMeaning | reply.go:43-49 | A text goes to the splitter iff three backticks stand somewhere in it |
| Chunks.ChunkCount | reply.go:57-66 | All chunks but the last hold more than half the limit |
| Chunks.ChunkStartsThere | reply.go:57-66 | Where each chunk begins, as a function of the text and the limit |
| Chunks.ChunkOverLimit | reply.go:57-66 | Any chunk is over the limit iff the rune at index limit from where it begins is a newline, and then by one |
| Chunks.LimitExceeded | reply.go:57-66 | A concrete text cut at 10 whose first chunk has 11 runes |
| Chunks.Webhook | reply.go:122-144 | Chunks are sent in order until one delivery fails; success iff none does |
| Chunks.Finish | card.go:361-475 | Frame plus webhook chunks are the finished content; where the splitter added fences, once they are dropped from the chunks sent; a failed delivery leaves a prefix |
| Markdown.EnsureTableBlankLines | internal/outbound/markdown.go:26-40 | The loop adds a blank line before exactly the table heads that follow a paragraph |
| Markdown.BlankLinesExactly | internal/outbound/markdown.go:26-40 | Input line i stands directly behind line i - 1 in the output, or behind one blank line iff it is a row with a divider below and follows a line that is neither blank nor a row |
| Markdown.UnixAppend | internal/outbound/markdown.go:18-27 | Line ends: a carriage return with a newline counts once, either alone too, and texts that do not join one are converted apart |
| Markdown.UnixEnds | internal/outbound/markdown.go:18-27 | The three line ends become a newline and every other character stays |
| Markdown.OnlyBlanksAdded | internal/outbound/markdown.go:26-40 | The result is the input lines in order with blank lines added |
| Markdown.FixSeparates | internal/outbound/markdown.go:26-40 | Afterwards every non-first row before a divider has a blank line or a row before it |
| Markdown.TableFixTwice | internal/outbound/markdown.go:26-40 | As texts, line endings included, fixing twice is fixing once |
| Markdown.TableFixKeepsCode | internal/outbound/markdown.go:26-40 | The fix leaves code lines as they are iff no table head in code follows a paragraph line |
| Markdown.TableInCodeIsSplit | internal/outbound/markdown.go:26-40 | A concrete fenced block the fix changes |
| Newlines.MergeQuotes | internal/outbound/markdown.go:50-88 | The first pass reads every line once: opening, inside or closing code, plain, or part of a maximal run of quotes, whose text RunText gives |
| CardText.RunText | internal/outbound/markdown.go:75-81 | The text of a run of quotes is its first line, then "<br>" and what is left of each further line without at most three blanks, the mark and one blank |
| Newlines.OneReading | internal/outbound/markdown.go:50-88 | The lines have only one such reading |
| Newlines.PassesAgree | internal/outbound/markdown.go:50-109 | The code status toggled over the input lines and over the merged lines is the same, and so is the code |
| Newlines.Separate | internal/outbound/markdown.go:90-110 | The second pass keeps a newline exactly in code, next to an empty line, before a fence or before a block start; else "<br>" |
| Newlines.FenceStays | internal/outbound/markdown.go:14-15 | What follows "<br>" on a line neither makes a fence of it nor unmakes one |
| CardText.FixNewlines | internal/outbound/markdown.go:47-111 | The output is the input lines in order, each whole, only a quote that goes on a quote outside code without its mark; between two lines "<br>", or a newline exactly in code, next to an empty line, before a fence and before a block start |
| CardText.EmitByLine | internal/outbound/markdown.go:47-111 | The one reading of the lines, emitted, is that text line by line |
| CardText.MarksMeaning | internal/outbound/markdown.go:14-17 | A quote is at most three blanks, the mark and anything; a fence the same with three backticks |
| CardText.InCodeMeaning | internal/outbound/markdown.go:90-109 | A line is in code iff an odd number of fences precedes it |
| Newlines.CodeSurvives | internal/outbound/markdown.go:47-111 | Reading the output's lines gives exactly the code of the input: every opening fence and code line verbatim on its own line, in order |
| CardText.NormalizeForCard | internal/outbound/markdown.go:21-23 | The whole normalising is the table fix followed by that line-by-line rewriting; it keeps code iff no table inside code needs a blank line |
| SecondPass.SecondPassExactly | internal/outbound/markdown.go:47-111 | A second pass over the output changes nothing iff no two of its lines outside code are quotes that follow each other, for block starts that do not depend on the end of the line |
| SecondPass.QuotesCanTouch | internal/outbound/markdown.go:14-17 | A quote, a line of text and a quote that starts a block make such an output |
| SecondPass.QuotesTouchHere | internal/outbound/markdown.go:14-17 | For example "> a", "b", "> c\|d" |
| SecondPass.AnchoredIsStable | internal/outbound/markdown.go:14-17 | If no quote line starts a block, a second pass never changes anything |
| StreamSpec.RunKeeps | card.go:298-522 | On every run: the card shows or will show the whole text while open; at most one closing status; a final frame only once and last |
| StreamSpec.SealedAsFirst | card.go:298-522 | Every run of a card ends as its first sealing call says: text and time of the final capture, the status issued FINISHED after Finish or the watchdog and FAILED after Abort or Fail; earlier captures are what was gathered at some moment; with no such call it is open and holds every delta |
| StreamSpec.WithoutCard | card.go:298-522 | Without a card nothing is captured or issued, and only the caller's own calls seal the stream |
| StreamSpec.AppendCapturesExactly | card.go:298-326 | An append is captured at once iff the last capture is at least a throttle and at most two seconds old; otherwise the flush waits 300 ms, or until a throttle after the last capture, or as scheduled |
| StreamSpec.FlushIsSoon | card.go:309-345 | On every run a scheduled flush is due within the throttle or 300 ms of now |
| StreamSpec.SealedForGood | card.go:409-522 | Once sealed by any of the four ways, text and captures never change; only the one closing status can still go out |
| StreamSpec.FlushShowsAll | card.go:328-345 | A trailing flush captures also what was appended after it was scheduled |
| StreamSpec.RunPaced | card.go:309-345 | Captures are a throttle apart on every run in which no append overtakes an overdue flush |
| StreamSpec.FromOpened | card.go:298-522 | Both from an opened stream |
| StreamSpec.OvertakingBreaksThrottle | card.go:309-345 | An append lets the waiting flush break the throttle iff it captures while that flush is overdue |
| StreamSpec.ThrottleBreaks | card.go:309-345 | A run from an opened stream whose next append overtakes the flush, and both capture at once |
| Streamers.CardStreamer.constructor | reply.go:243-280 | An open stream, with or without a card |
| Streamers.CardStreamer.Append | card.go:298-326 | Refused once sealed; else appended, then captured, scheduled or left to the flush already scheduled |
| Streamers.CardStreamer.PendingFired | card.go:328-345 | Captures the whole text unless sealed |
| Streamers.CardStreamer.WatchdogFired | card.go:402-421 | Seals an open card with the text so far |
| Streamers.CardStreamer.Finish | card.go:432-458 | Seals once as finished; a non-empty text replaces the accumulated one |
| Streamers.CardStreamer.Abort | card.go:479-498 | Seals once as failed with the text so far |
| Streamers.CardStreamer.Fail | card.go:501-522 | Seals once as failed with the error text |
| BucketSpec.StepSane | ratelimit.go:26-71 | Tokens stay between 0 and the rate, and refill time is at most one backoff ahead |
| BucketSpec.GrantsWithinBudget | ratelimit.go:26-71 | The potential: no run grants more by time t than the bucket holds plus what it earns until t |
| BucketSpec.WindowBound | ratelimit.go:26-71 | On every run, any waiters and backoffs: at most rate + rate * (t2 - t1) grants in [t1, t2] |
| BucketSpec.GrantedIsCount | ratelimit.go:37-62 | The tokens counted in a window are those whose grant times fall in it |
| BucketSpec.AfterBackoff | ratelimit.go:65-71 | After a backoff nothing for two seconds, then at most rate * d in d seconds, on every run |
| BucketSpec.EverGrants | ratelimit.go:37-62 | Some run grants a token iff the rate is at least one |
| BucketSpec.OneSleepSuffices | ratelimit.go:52-61 | Outside backoff, with rate at least one, who slept as told finds a token |
| BucketSpec.SleepExactly | ratelimit.go:40-61 | A waiter that looks again is served iff it has slept as told; during a backoff nobody is, and the sleep is what is left of it |
| BucketSpec.BackoffExactly | ratelimit.go:40-71 | Alone after a backoff, a token is there exactly when the rate has earned one since two seconds after it |
| BucketSpec.BurstExactly | ratelimit.go:37-49 | Of n takers at once exactly the first min(n, whole tokens) are served |
| BucketSpec.IdleFills | ratelimit.go:26-34 | A bucket unused for a second after its backoff is full |
| TokenBuckets.TokenBucket.RefillLocked | ratelimit.go:26-34 | Earned tokens are added up to the rate; a refill time in the future adds nothing |
| TokenBuckets.TokenBucket.TriggerBackoff | ratelimit.go:65-71 | Tokens gone, refill and grants postponed by two seconds |
| TokenBuckets.TokenBucket.Poll | ratelimit.go:40-58 | One pass of the loop: sleep out a backoff, take a token, or sleep for the missing part |
| TokenBuckets.TokenBucket.WaitFor | ratelimit.go:37-62 | A lone waiter's passes are a run of the bucket that grants its one token, or none if cancelled; never inside a backoff; with rate at least one at most one sleep for the backoff and one for a token; with less, never |
| Retries.Retry | internal/outbound/retry.go:25-56 | Attempts are numbered 1..k and stop at the first success, non-retryable error, last attempt or cancellation; sent iff the last succeeded, else its error or the cancellation is reported; the delays add up to base * (3^(k-1) - 1) / 2 |
| Retries.FilledMeaning | internal/outbound/retry.go:14-36 | Three attempts and half a second for missing or non-positive options |
| Retries.CallRaw | card.go:98-157 | A call's part of the bucket's run grants exactly the grants of its log; at most two HTTP calls, each at its own grant; a second only on a QPS refusal, at least two seconds after the first |
| Retries.Send | send.go:123-160 | The retry loop over CallRaw on one bucket: stops as Retry does, waits at least its delays, makes at most 2 * MaxAttempts calls, each at its own grant of the bucket's run, and at least one if it succeeds |
| Retries.SendWithinRate | send.go:123-160 | In any window a send makes no more calls than the bucket grants in it, so at most rate plus what it earns |
| Retries.DelaysInAll | internal/outbound/retry.go:48-53 | The first k delays together are base * (3^k - 1) / 2 |

## Left out

- SeenCache: the Redis tier; the pipeline passes nil, and its backfill extends a key past its original TTL.
- Policy gate: a finite decision list, taken here as a verdict that accepts or gives a reason.
- Fingerprints, reply hashes and HMAC: uninterpreted functions of the message.
- Clocks: parameters of the methods, integers in milliseconds or nanoseconds, reals for the bucket; monotone where a theorem needs it.
- Lock expiry: conservation, exclusion and PipelineAfter.AfterAtMostOnce assume no claim outlives the lock TTL; with expiry another push may take over a running message, as the TTL intends.
- PipelineAfter.AdmittedAgainExactly: is about admission to the handler; whether the second call then succeeds is up to the handler.
- Channel capacity: the task channel (capacity 100) is an unbounded queue; a sender blocked by a full channel is not modelled.
- Dispose and FlushAll: shutdown paths, and the light batcher in internal/safety/batching.go that the channel does not use.
- Media timers in the global machine: any bucket may be flushed at any time, which includes every timer and every incompatible message.
- Delivery order across media flushes: each handler runs in a goroutine of its own.
- Reject callbacks: one event per rejected message is recorded; panics in callbacks are not modelled.
- ChatQueues.ChatQueue.Run: models the call up to the point where it waits for its task's result.
- Chunks.ChunkText: one char stands for one rune; the splitter counts bytes, so on the fenced branch a char stands for one byte; invalid UTF-8 is not modelled.
- Chunks.Finish: states the frame as it is handed to the card client, before normalising; footers and send hooks are not modelled, and every card call succeeds.
- Regular expressions: headings, fences, quotes and rows are written out; what looks like a divider, what starts a block, and which characters a trim removes are parameters of the Markdown theorems.
- Streaming card: HTTP calls run outside the mutex, so the order in which frames reach the server is not modelled; neither is the gap kept before the first and final frame.
- TokenBuckets.TokenBucket.WaitFor: exact real arithmetic; the rounding of a sleep to nanoseconds, which may cost one more short sleep, is not modelled.
- Retries.Retry: exact integers; the delay's overflow at very many attempts is not modelled, and the classification of errors is a parameter.
- Retries.Send: the replies, and how late each wait ends, are given functions of the attempt's number; other waiters on the bucket take part in the theorems of BucketSpec but not in the loops of WaitFor, CallRaw and Send.
- Connection handling, OAPI uploads, token fetching, emotion calls, lifecycle hooks, configuration loading and the SSRF guard: plumbing or decision lists.
