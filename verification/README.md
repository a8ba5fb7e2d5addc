# Verified models of the inference engine's distributed runtime and decoding logic

Dafny models of the parts of the engine where several threads, machines or caches have to
agree, each proved against what the code promises.

* **Distributed runtime.** The pipelined prefill is a state machine of the producer, the
  sender thread, the workers and the result reader (`PrefillPipeline`, on `SlotRing` and
  `WorkerChain`): safety in every run, no lost wakeup, termination with success when nothing
  fails. `PrefixAgreement` follows the token hashes through restarts, snapshot restores,
  failed evaluations and late or repeated frames. `Forwarder` is the linked list of
  outstanding requests, `ForwardSteps` the step that forwards a frame taken apart, and
  `PrefillFailures` what becomes of the prefill when something fails. `FinePipeline` carries
  the prefill's results over to workers that take those steps apart. `RouteSearch`,
  `RouteBlob` and `Registry` are the route planner, the route as it travels, and the cached
  route. `KvSnapshot` and `KvPayload` are the session snapshot that is gathered from one route
  and split again for another.
* **Speculative decoding.** `SpeculativeVerify` states verify, commit and rewind on ring
  caches and proves them equal to serial decoding; `SpeculativeSession` performs them on the
  buffers. `DrafterRings` and `DrafterBuffers` are the drafter's own feature and key rings.
* **Engram lookup.** `EngramHash` is the rolling n-gram hash and its window definition,
  `EngramBatch` the sorted, shared-out batch reader, `EngramReader` the reusable
  multi-threaded token reader.
* **Admission and printing.** `Admission` is the draft admission controller, `ThinkFilter`
  the printer's think-tag filter.

`Words`, `Bytes`, `Division` and `Wrappers` hold the machine words, byte orders, remainders
and optional values the others share.

Code that changes state step by step is a class or a method over arrays, proved equal to a
function on plain values; the laws are lemmas about that function. Threads are atomic steps,
one per critical section or stretch between two; a sleeping thread is a separate state that
only a signal or a spurious wakeup leaves. Engine calls are parameters: `eval` is a decode
step, `Outcome` what a worker's engine calls return, `Project` the drafter's key projection,
`Model` the model's layer sizes, a `sort` argument the C library's sort, assumed to be some
sorting function.

Four promises turned out to have an exception, which is stated and proved exactly.

* A commit past the last kept row is let through when the block starts at position 0 and the
  rewind dropped all of it, because a rewind mark of 0 also stands for none
  (`CommitPastRefused`, `CommitPastOrigin`). This is one of `ds41_dspark_commit` itself: its
  one caller that rewinds, the speculative-prefix restore of ds4.c, asks for a position below
  the mark first and so never meets it.
* When corrections have been decoded into dropped rows and the mark put back, the commit also
  lets a rewind through that ends among them, past the rows kept. It gives the serial state
  exactly when the block's own last row is that state's (`RewindIntoCorrections`).
* The drafter's keys can be stale after a commit below the projected position when the draft
  that follows keeps them: exactly when they end at or below the new position, still lie in
  its window, and a position they cover has had features accepted since that give another key
  (`DraftExact`, `LiveKeysProjected`; `StaleRun` is such a run).
* A saved session is not always one that can be loaded again: the load refuses one whose
  tokens fill the context, while the save writes it (`SessionLoaded` says exactly when the
  load succeeds, `FullSessionRefused` is such a session).

Check with `dafny verify dfyconfig.toml --resource-limit 2000000`.

## Model

| member | source | states |
|---|---|---|
| `TokenHash.UpdateToken` | ds4_distributed.c:1495-1502 | One token's four bytes, low byte first, are folded into the hash |
| `TokenHash.UpdateSpan` | ds4_distributed.c:1504-1507 | A span's hash is the fold over its tokens |
| `TokenHash.SpanConcat` | ds4_distributed.c:1504-1511 | Hashing in pieces is hashing the whole: what lets every hop extend the prefix hash it holds |
| `WorkerSession.WorkerKv.Evaluate` | ds4_distributed.c:7276-7285 | A hop's handling of one WORK frame, with every refusal, leaves exactly the session the specification says (the rest of the handler is at lines 7455-7520) |
| `PrefixAgreement.ProcessAgrees` | ds4_distributed.c:7469-7517 | An evaluation that succeeds ran on a timeline with the coordinator's prefix hash, and the hash a worker holds stays that of its timeline |
| `PrefixAgreement.RunKeepsInv` | ds4_distributed.c:7455-7517 | Running a frame, well or badly, keeps every frame in flight true of what the hops did |
| `PrefixAgreement.AcceptedSpansAgree` | ds4_distributed.c:2670-2784 | In every run with restarts, restores, remote errors and lost, late or repeated frames, an accepted span was evaluated by every hop, on that hop's layers and on a session whose hash is the coordinator's prefix hash; the hop's timeline is then the coordinator's, unless the hash collides |
| `PrefixAgreement.EveryLayerEvaluated` | ds4_distributed.c:7229-7233 | Every layer of an accepted span's route was so evaluated, by the one hop that has it (the route's own check is at lines 7372-7377) |
| `PrefixAgreement.MismatchRefused` | ds4_distributed.c:7484-7490 | A hop on another prefix refuses the span and keeps its timeline |
| `PrefixAgreement.ReplayRepairs` | ds4_distributed.c:2948-2987 | Replaying the transcript from position zero repairs a session whatever state it is in |
| `PrefixAgreement.RouteRecovers` | ds4_distributed.c:2948-2987 | A route whose hops all evaluate a replay from position zero, in whatever spans and from whatever states, holds the transcript at every hop, with the coordinator's hash |
| `PrefixAgreement.ReplayAccepted` | ds4_distributed.c:2948-2987 | Without further failures every hop does evaluate the replay |
| `WorkerChain.SmoothProcess` | ds4_distributed.c:7455-7517 | A hop that has kept up evaluates the next request and has then kept up with it |
| `WorkerChain.RunKeepsInv` | ds4_distributed.c:6718-6792 | Evaluating and forwarding, as one step, keeps every link holding consecutive requests and every pending list the requests forwarded and unanswered; `ForwardSteps` takes the step apart |
| `WorkerChain.RelayKeepsInv` | ds4_distributed.c:6525-6541 | A relay pairs a result with its own request and keeps the rest in place |
| `WorkerChain.PushKeepsInv` | ds4_distributed.c:3206-3230 | Writing a consecutive request to the first hop keeps the chain's invariant |
| `WorkerChain.PopKeepsInv` | ds4_distributed.c:3353-3374 | The result the coordinator reads is the answer to its oldest unanswered request |
| `WorkerChain.TelemetryPerHop` | ds4_distributed.c:6571-6601 | One telemetry record per hop, the last hop's first |
| `WorkerChain.ResultsInWorkOrder` | ds4_distributed.c:6437-6632 | In every fault-free run relays pair results with their own requests and results come back in work order, with one record per hop |
| `WorkerChain.UnansweredMoves` | ds4_distributed.c:6319-6348 | While a request is unanswered some hop, relay or the reader can move: the windows cannot deadlock the chain |
| `WorkerChain.WindowKept` | ds4_distributed.c:6325-6329 | No hop ever has more requests outstanding than its window, faults or not |
| `WorkerChain.HopRank` | ds4_distributed.c:6718-6792 | A hop's step brings the chain one move nearer its end |
| `ForwardSteps.EnqueueRefines` | ds4_distributed.c:6745-6768 | Queueing the pending entry before the frame is sent is the point at which a hop's step takes effect: what the relay sees in between is a state of the one-step chain |
| `ForwardSteps.FineResultsInWorkOrder` | ds4_distributed.c:6745-6792 | With evaluating, queueing and sending apart and relays running in between, relays still pair results with their own requests and results come back in work order, in every fault-free run |
| `ForwardSteps.FineMoves` | ds4_distributed.c:6325-6329 | Hops that wait for room only after they evaluated their frame cannot deadlock |
| `ForwardSteps.FineWindowKept` | ds4_distributed.c:6325-6342 | No hop has more requests outstanding than its window in any run, failed evaluations and sends included |
| `ForwardSteps.FailedSendTakesBack` | ds4_distributed.c:6774-6782 | The first send to fail takes exactly its own entry out of the list, whatever the relay took from it since it was queued |
| `Forwarder.Queue.TryEnqueue` | ds4_distributed.c:6319-6348 | Queueing appends at the tail, waits at the window, and is refused once closing |
| `Forwarder.Queue.Pop` | ds4_distributed.c:6350-6372 | Takes the oldest request; head, tail and count stay those of the list |
| `Forwarder.Queue.Remove` | ds4_distributed.c:6374-6396 | Unlinks the first entry for a request, wherever it is, and no other |
| `Forwarder.Queue.NoteSendDone` | ds4_distributed.c:6398-6412 | Changes only the send time of the first entry for the request |
| `Forwarder.Queue.Clear` | ds4_distributed.c:6414-6428 | Empties the list, its tail and its count |
| `Forwarder.Queue.Close` | ds4_distributed.c:6430-6435 | Closing keeps the list and refuses further requests |
| `Forwarder.FailedSendUndone` | ds4_distributed.c:6755-6782 | A failed send takes back exactly the entry it queued, noted or not |
| `SlotRing.Sender.AcquireSlot` | ds4_distributed.c:3152-3169 | The slot granted to the producer is not the one the sender holds |
| `SlotRing.Sender.FillSlot` | ds4_distributed.c:3685-3693 | Filling the granted slot outside the lock writes that slot and nothing else |
| `SlotRing.Sender.EnqueueSlot` | ds4_distributed.c:3171-3187 | Enqueueing moves the tail on, or refuses after a stop; the tail stays the head plus what is queued |
| `SlotRing.Sender.Finish` | ds4_distributed.c:3189-3194 | Marks the producer done |
| `SlotRing.Sender.Cancel` | ds4_distributed.c:3196-3204 | Marks the producer done and stops the ring |
| `SlotRing.Sender.TakeSlot` | ds4_distributed.c:3206-3216 | The sender sends the oldest slot enqueued, never the one the producer may fill, sleeps only with nothing queued, and ends with slots unsent only after a stop |
| `SlotRing.Sender.SendDone` | ds4_distributed.c:3240-3263 | Releases the sent slot, or records the failure and stops |
| `SlotRing.GrantsExclusive` | ds4_distributed.c:3165-3216 | With something queued and room left, head and tail are different slots |
| `PrefillPipeline.SendDepth` | ds4_distributed.c:468-481 | Between one and eight slots, no more than chunks |
| `PrefillPipeline.FlowWindow` | ds4_distributed.c:3476-3504 | Between one and sixty-four, no more than chunks; larger requests are refused |
| `PrefillPipeline.Chunks` | ds4_distributed.c:3535-3536 | The chunk positions are those of the loops that add chunk after chunk, and cover the span exactly |
| `PrefillPipeline.ExpectedHashes` | ds4_distributed.c:3593-3602 | Entry i of the expected hashes is the hash of the prompt up to the end of chunk i |
| `PrefillPipeline.EmitProgress` | ds4_distributed.c:3279-3299 | Reports each finished chunk once, in order |
| `PrefillPipeline.FillKeepsInv` | ds4_distributed.c:3652-3693 | Filling a slot describes the next chunk and disturbs no queued one |
| `PrefillPipeline.SentKeepsInv` | ds4_distributed.c:3260-3263 | Releasing a slot keeps the ring holding the chunks still queued |
| `PrefillPipeline.TakenKeepsInv` | ds4_distributed.c:3353-3415 | The reader takes only results that answer its next chunk |
| `PrefillPipeline.EveryRunInBounds` | ds4_distributed.c:3206-3266 | No slot index, chunk index or count is ever out of range, in any run |
| `PrefillPipeline.EveryRunSafe` | ds4_distributed.c:3206-3419 | In every run, faults included: the flow window holds, chunks go out in order under contiguous ids with their own hashes, accepted results name the prompt up to their chunk's end, reports strictly increase, and the threads never hold the same slot |
| `PrefillPipeline.SuccessIsComplete` | ds4_distributed.c:3513-3778 | Success means the whole span was sent, every chunk answered once, and the last report is the end of the span |
| `PrefillPipeline.FaultFreeNeverStuck` | ds4_distributed.c:3206-3341 | A fault-free run that has not returned can go on without a fault or a spurious wakeup, and one that has returned succeeded: no wakeup is lost |
| `PrefillPipeline.RankDecreases` | ds4_distributed.c:3206-3419 | Every genuine step of any thread, hop or relay brings the end nearer |
| `PrefillPipeline.FaultFreeTerminates` | ds4_distributed.c:3513-3778 | Fault-free runs are finite and end in success |
| `PrefillFailures.NeverStuck` | ds4_distributed.c:3206-3419 | In every run, whatever fails, one of the coordinator's threads can go on until the prefill returns, unless nothing has failed there and an open connection owes an answer: no wakeup is lost, and a failed thread's shutdown ends the reader's wait |
| `PrefillFailures.EveryRunEnds` | ds4_distributed.c:3206-3778 | Every run, faults included, takes at most 43 steps of the coordinator's threads for each chunk and 43 more, and four for each spurious wakeup |
| `FinePipeline.RunRefines` | ds4_distributed.c:3206-3778 | Every run of the pipeline over workers that evaluate, queue and send in separate steps is a run of the one-step pipeline, faults included |
| `FinePipeline.EverySteppedRunSafe` | ds4_distributed.c:3206-3419 | So every such run is safe as EveryRunSafe says |
| `FinePipeline.SteppedNeverStuck` | ds4_distributed.c:3206-3419 | No such run is stuck, whatever fails, unless an open connection owes an answer |
| `FinePipeline.SteppedRunTerminates` | ds4_distributed.c:3513-3778 | Without faults such a run takes a bounded number of steps, is never stuck and ends in success |
| `RouteSearch.Search` | ds4_distributed.c:1954-1989 | The backtracking search is sound, complete and terminating; on failure the layer it reports is the furthest any admissible chain reaches, and the path never overruns its array |
| `RouteSearch.BuildPlan` | ds4_distributed.c:2201-2259 | The planner finds a complete route exactly when one exists, and reports the furthest layer otherwise |
| `RouteSearch.AllTried` | ds4_distributed.c:1964-1987 | Once the sorted workers that start at a layer are tried, there is nothing else to try |
| `RouteSearch.CountStep` | ds4_distributed.c:1971-1985 | A path is never longer than the workers that start before its end |
| `RouteBlob.EncodedRouteDecodes` | ds4_distributed.c:2135-2199 | The encoding of a sound route validates, entry i decodes to entry i, and the return target to upstream |
| `RouteBlob.ValidatedLookups` | ds4_distributed.c:6131-6229 | Whatever validates is the encoding of one sound route: every later lookup succeeds and the ranges are consecutive |
| `RouteBlob.LookUpEntry` | ds4_distributed.c:6011-6062 | The entry lookup's loop finds what the parser specification says |
| `RouteBlob.LookUpReturn` | ds4_distributed.c:6064-6129 | The return lookup's loop, with its laxer entry checks, finds what its specification says |
| `RouteBlob.ValidateBlob` | ds4_distributed.c:6131-6229 | The validator's loop accepts exactly the valid payloads |
| `RouteBlob.BuildBlob` | ds4_distributed.c:2135-2199 | The planner's payload is the route's encoding, or nothing for a host that cannot be sent or a payload too large |
| `RouteBlob.PlannedRouteOk` | ds4_distributed.c:2261-2312 | Every route the planner finds over registered workers is one the validator accepts |
| `Registry.ValidateHello` | ds4_distributed.c:4166-4246 | Which registrations are accepted: exactly those the handler's checks let through, each of which every route payload can carry |
| `Registry.AcceptedRegistered` | ds4_distributed.c:4166-4250 | An accepted registration fits every later route payload |
| `Registry.Registry.AddWorker` | ds4_distributed.c:1883-1914 | Adding replaces every entry of the same slice, is refused on shutdown, and bumps the generation |
| `Registry.Registry.RemoveWorker` | ds4_distributed.c:4095-4118 | Removes the first entry of a connection and then bumps the generation |
| `Registry.Registry.ForgetRoute` | ds4_distributed.c:2102-2133 | Removes at most one entry for every worker of a failed route; the generation moves once if any went |
| `Registry.AddedUnique` | ds4_distributed.c:1888-1912 | No two registered workers share host, model, range and output |
| `Registry.GenerationBumps` | ds4_distributed.c:1913-2129 | A change of the workers always has a new generation |
| `Registry.CachedRouteAgrees` | ds4_distributed.c:4332-4348 | In every run a session's plan is complete over the workers of its generation, the current ones while the generation stands, and its payload is one every worker accepts |
| `Registry.EnsuredRouteCurrent` | ds4_distributed.c:4332-4348 | A request for a route that succeeds has one over the current workers |
| `Bytes.DecodeEncode` | ds4_distributed.c:591-609 | Little-endian words read back as written |
| `Bytes.EncodeDecode` | ds4_distributed.c:591-609 | Any bytes read as words are those words' encoding |
| `KvPayload.LayerSize` | ds4_distributed.c:4597-4664 | A layer's tensor bytes, refused exactly when they need more than 64 bits |
| `KvPayload.RangeSize` | ds4_distributed.c:4778-4788 | A range's tensor bytes, refused exactly on overflow |
| `KvPayload.ValidateRoute` | ds4_distributed.c:4891-4918 | A route is accepted exactly when its ranges are consecutive from layer 0 to the last |
| `KvPayload.ParseLayers` | ds4_distributed.c:4692-4804 | The shard parser's reads agree with its specification, write the counts in their places and locate the tensors |
| `KvPayload.Collect` | ds4_distributed.c:5141-5185 | All shards of the route are parsed against one layout and put together in layer order |
| `KvPayload.SavePayload` | ds4_distributed.c:5092-5223 | The save is the specified one, or nothing |
| `KvPayload.CutShard` | ds4_distributed.c:4998-5042 | A shard's payload is its header, its counts and its own part of the tensor bytes |
| `KvPayload.LoadPayload` | ds4_distributed.c:5225-5391 | The load is the specified one, or nothing |
| `KvSnapshot.ParseSound` | ds4_distributed.c:4692-4804 | Whatever the shard parser accepts is the payload of what it reports |
| `KvSnapshot.ShardAccepted` | ds4_distributed.c:4832-4867 | Every route's layer payloads are accepted, with the layers' own counts and bytes |
| `KvSnapshot.SavedPayload` | ds4_distributed.c:5092-5223 | The session payload does not depend on the route it was saved under |
| `KvSnapshot.SessionLoaded` | ds4_distributed.c:5225-5391 | A saved payload loads exactly when the session's context and vocabulary allow it, and gives every range its own shard |
| `KvSnapshot.FullSessionRefused` | ds4_distributed.c:5092-5391 | A session whose tokens fill its context is saved, and its own load refuses the payload |
| `KvSnapshot.TopologyIndependent` | ds4_distributed.c:4582-4596 | What one route saved any other loads: accepted layer payloads, unchanged counts and bytes, nothing left over; saving again gives the same payload |
| `SpeculativeVerify.SameSteps` | ds4_deepseek41_dspark.h:369-371 | States equal up to the frontier stay so under any further decoding |
| `SpeculativeVerify.RestoredSlots` | ds4_deepseek41_dspark.h:488-498 | Putting the dropped rows' slots back leaves the ring as if they had not been written |
| `SpeculativeVerify.CommitIsSerial` | ds4_deepseek41_dspark.h:369-514 | Verify then commit of the first rows is serial decoding of those tokens: rings, carries, residual, position, history, logits and drafter features |
| `SpeculativeVerify.GenerationIsSerial` | ds4_deepseek41_dspark.h:369-514 | Any mix of plain steps, speculative blocks, corrections decoded into their first dropped rows, and repeated rewinds to rows kept is serial decoding of the tokens kept |
| `SpeculativeVerify.RewindComposes` | ds4_deepseek41_dspark.h:478-514 | Committing fewer rows after a commit is committing the fewer at once |
| `SpeculativeVerify.CommitPastRefused` | ds4_deepseek41_dspark.h:480-482 | Taking back a rewind is refused, except exactly when the block starts at position 0 and the rewind dropped all of it |
| `SpeculativeVerify.CommitPastOrigin` | ds4_deepseek41_dspark.h:480-512 | In the excepted case the commit is let through and the state is not the serial one |
| `SpeculativeVerify.CommitAfterStepRefused` | ds4_deepseek41_dspark.h:131-134 | After a further step's capture the block can no longer be committed, unless the caller puts the rewind mark back |
| `SpeculativeVerify.CommitBehind` | ds4_deepseek41_dspark.h:478-514 | With the mark put back after corrections, going back to rows kept before gives what committing them at once would have given |
| `SpeculativeVerify.CorrectAllNext` | ds4_deepseek41_dspark.h:131-134 | Decoding corrections one after another, the mark put back after each, is decoding them all |
| `SpeculativeVerify.RewindIntoCorrections` | ds4_deepseek41_dspark.h:480-482 | After corrections the commit also lets a rewind through that ends among them; it gives the state there if and only if the block's own last row is that state's |
| `SpeculativeSession.Session.VerifyBlock` | ds4_deepseek41_dspark.h:373-476 | The verify on the buffers does what its specification says, or refuses and changes nothing |
| `SpeculativeSession.Session.CommitRows` | ds4_deepseek41_dspark.h:478-514 | The commit on the buffers does what its specification says, or refuses and changes nothing |
| `SpeculativeSession.Session.RunRow` | ds4_deepseek41_dspark.h:444-449 | A row runs as one serial step on the shared rings; its results are kept with the row |
| `DrafterBuffers.CopyWrapped` | ds4_deepseek41_dspark.h:148-151 | A copy in two parts fills the wrapped slots and no others |
| `DrafterBuffers.DraftBuffers.CaptureStage` | ds4_deepseek41_dspark.h:131-156 | A capture writes the last 128 rows of a chunk with their positions and forgets the rewind mark |
| `DrafterBuffers.DraftBuffers.CaptureRows` | ds4_deepseek41_dspark.h:131-156 | The three stages' captures of a chunk are the specified one |
| `DrafterBuffers.DraftBuffers.Gather` | ds4_deepseek41_dspark.h:179-188 | A seed goes ahead exactly when every row it needs was captured |
| `DrafterBuffers.DraftBuffers.Seed` | ds4_deepseek41_dspark.h:174-208 | The seed projects the newly accepted rows, or a whole window, into their slots |
| `DrafterBuffers.DraftBuffers.DraftForward` | ds4_deepseek41_dspark.h:294-333 | The forward pass seeds, then writes every stage's scratch rows; a failed seed invalidates the keys |
| `DrafterBuffers.DraftBuffers.Reset` | ds4_deepseek41_dspark.h:37-44 | A reset leaves no position, no keys and no block |
| `DrafterRings.ScratchBeyond` | ds4_deepseek41_dspark.h:232-253 | The scratch rows lie behind every row a live position uses |
| `DrafterRings.CommitKeepsInv` | ds4_deepseek41_dspark.h:478-498 | A commit leaves captured features true of the kept tokens |
| `DrafterRings.CorrectionKeepsInv` | ds4_deepseek41_dspark.h:131-156 | A correction in a dropped row's slot leaves captured features true, with the rows kept before still rewindable |
| `DrafterRings.DraftExact` | ds4_deepseek41_dspark.h:174-208 | After a draft the live keys are right if and only if the seed does not keep a key whose position has since had features accepted that give another key |
| `DrafterRings.LiveKeysProjected` | ds4_deepseek41_dspark.h:174-208 | In every run, each draft leaves every live key row projected from the feature accepted at its position if and only if its seed keeps no key that what was accepted since would change; so always when the seed keeps no keys from `stable` on |
| `DrafterRings.UnchangedFeatures` | ds4_deepseek41_dspark.h:174-178 | With a projection that tells features apart, that condition is one on the accepted features alone |
| `DrafterRings.LiveKeysThroughout` | ds4_deepseek41_dspark.h:174-208 | In a run whose commits stay at or above the projected keys, the live keys are right in every state |
| `DrafterRings.RewindThenDraftRight` | ds4_deepseek41_dspark.h:176-178 | A draft straight after a rewind below the keys drops them, and all live rows are right |
| `DrafterRings.RewindBelowKeysStale` | ds4_deepseek41_dspark.h:174-178 | Rewind below the keys and decode to any position at which the seed's test passes again: one live position with other features leaves stale keys taken for current |
| `DrafterRings.StaleRun` | ds4_deepseek41_dspark.h:174-208 | A concrete run from the start ends in stale keys: a block of two kept, a draft, its second row taken back, another token, a draft |
| `EngramHash.ValidateLayout` | ds4_engram.c:22-42 | Which layouts are valid |
| `EngramHash.Hash` | ds4_engram.c:48-89 | The rolling hash gives the window definition's row for every token, layer and column, leaves the last three ids as history, and a refused call changes nothing |
| `EngramHash.BlockedMeans` | ds4_engram.c:65-71 | An n-gram is padded from the first masked or missing position on, and only then |
| `EngramHash.HashFits` | ds4_engram.c:30-76 | No product and no hash leaves 63 bits |
| `EngramHash.ColumnRange` | ds4_engram.c:74-83 | Each row lies in its own column's range, below the table's rows |
| `EngramHash.ColumnsDisjoint` | ds4_engram.c:74-83 | Different columns never share a row |
| `EngramHash.RowLocal` | ds4_engram.c:62-86 | A row depends on the last four positions and nothing else |
| `EngramHash.ChunksCompose` | ds4_engram.c:48-89 | Two chunks one after the other give the rows and the history of one call |
| `EngramBatch.SortedRequests` | ds4_engram.c:293-299 | Sorting keeps exactly one request per output |
| `EngramBatch.ReadPart` | ds4_engram.c:229-247 | A part writes its own outputs and fails exactly at a row that cannot be read |
| `EngramBatch.RunParts` | ds4_engram.c:304-327 | All parts run, in whatever order threads could be started |
| `EngramBatch.ReadBatch` | ds4_engram.c:267-340 | The batch read is the simple read, or fails for unusable arguments or an unreadable row |
| `EngramBatch.AnySchedule` | ds4_engram.c:229-327 | In every interleaving of the parts each output is written once, with its own row |
| `EngramBatch.ScheduleIsBatch` | ds4_engram.c:267-340 | However the parts of a block interleave, its outputs are those of the batch read |
| `EngramReader.Reader.StartJob` | ds4_engram.c:492-516 | A start checks the ids, is refused while active, and clears counters and errors |
| `EngramReader.Reader.ReportTable` | ds4_engram.c:444-450 | A report keeps the first error and ends the job with the last worker's second table |
| `EngramReader.Reader.AwaitWork` | ds4_engram.c:433-437 | A worker sleeps, leaves or enters the current generation |
| `EngramReader.Reader.AwaitTable` | ds4_engram.c:518-531 | A wait is refused without a job, sleeps, or returns the table's error |
| `EngramReader.Reader.Shutdown` | ds4_engram.c:533-538 | Shutting down sets its flag and nothing else |
| `EngramReader.ReportKeepsInv` | ds4_engram.c:438-452 | A report keeps counters, parts and sleepers consistent |
| `EngramReader.CountersExact` | ds4_engram.c:444-450 | The counters count exactly the workers done with each table in this generation |
| `EngramReader.GenerationsInTurn` | ds4_engram.c:433-437 | No worker misses or repeats a generation |
| `EngramReader.JobStable` | ds4_engram.c:500-514 | The job is replaced only while no worker is inside it |
| `EngramReader.WaitComplete` | ds4_engram.c:518-531 | A wait that succeeds returns only when all of the table's columns hold their rows |
| `EngramReader.JobMoves` | ds4_engram.c:427-456 | While a job is active a worker that still owes the table its report can go on |
| `EngramReader.CallerReturns` | ds4_engram.c:427-531 | A waiting caller returns, with every worker done with its table: no run goes on for more steps than the job has left, and two for each spurious wakeup, before it does |
| `EngramReader.WaitMoves` | ds4_engram.c:518-531 | While a caller waits, it or a worker can go on: no wakeup is lost |
| `Division.ShareOwner` | ds4_engram.c:232-233 | Shares cover all items without overlap |
| `Admission.Controller.SerialToken` | ds4_deepseek41_admission.h:46-61 | A serial token's bookkeeping, with the price the median of the ring |
| `Admission.Controller.PriceToken` | ds4_deepseek41_admission.h:53-60 | The insertion sort's middle is the median |
| `Admission.Controller.DraftedCycle` | ds4_deepseek41_admission.h:69-87 | A cycle's bookkeeping and the judgement of a full window |
| `Admission.MedianHalves` | ds4_deepseek41_admission.h:53-60 | No more than half of the values lie on either side of the median |
| `Admission.PriceAndDebt` | ds4_deepseek41_admission.h:47-87 | In every run the price is the median of the last nine serial times, with no more than half of them on either side, and the debt the largest suffix sum of window losses since the last back-off |
| `Admission.BackoffExactly` | ds4_deepseek41_admission.h:77-86 | With drafting open, a cycle starts a back-off exactly when it completes a window that saved nothing and the latest losses since the last back-off, this one included, come to more than half the median serial time; in a row they last 16, 32, 64, 128, 128 |
| `Admission.ReopensWithin128` | ds4_deepseek41_admission.h:36-67 | Drafting is open again after at most 128 undrafted tokens |
| `ThinkFilter.TokenPrinter.Process` | ds4_cli.c:421-465 | The scan over held-back text and a chunk prints and holds back what its specification says |
| `ThinkFilter.TokenPrinter.FinishText` | ds4_cli.c:467-473 | Finishing prints what was held back and closes the colour |
| `ThinkFilter.HeldBackFits` | ds4_cli.c:450-459 | Held-back text is a proper prefix of a tag and fits the buffer |
| `ThinkFilter.ConsumeConcat` | ds4_cli.c:421-465 | Text may be cut anywhere |
| `ThinkFilter.ChunkInvariance` | ds4_cli.c:421-473 | Any chunks of a text print the same bytes and leave the same printer as the whole, with nothing pending |
| `ThinkFilter.ThinkBlockPrinted` | ds4_cli.c:401-449 | What a think block prints: no tags, grey thought, the answer on its own line |

## Left out

- Sockets, DNS, time limits, temporary files and frame headers: links are queues of whole messages and files are byte sequences; a broken link or file is a fault step or a failed read.
- Bounded socket buffers: a write to a link never blocks, so the windows are the only back-pressure.
- The engine's arithmetic, GPU kernels, activation codecs and tensor contents: parameters or opaque values.
- Allocation failure, thread creation failure (except in the batch reader) and errors of the mutex and condition calls.
- Order and exactly-once of error results: a hop sends an error upstream at once, so both are claimed for fault-free runs only.
- A relay ends after a mismatched result: the chain's relay goes on instead, which no fault-free run can tell apart and which only allows more runs where faults are allowed.
- Telemetry times, profiling counters and debug output: a telemetry record keeps its route index, position and token count.
- PrefillFailures.NeverStuck: says nothing of a worker that stays silent for ever on an open connection; by default the source sets no limit on that wait, and one that is set is a failed read.
- The early return when the transcript holds nothing new: it sends no span, so the prefix agreement says nothing about it.
- WorkerSession.WorkerKv.Evaluate: leaves out the hidden-state payload and evaluates and answers in one step; the checks of the frame's layers against the worker's slice and the route entry are those of PrefixAgreement.RunWork.
- PrefixAgreement.AcceptedSpansAgree: the hidden states that travel with the frames are not part of the model.
- SpeculativeVerify.CommitIsSerial: takes each row of a batched block as the serial step, as the engine promises of its batch kernels; the rows other sessions add to a block and failed GPU commands are not modelled.
- SpeculativeSession.Session.RunRow: the index keys and compressed latents, which are published together, are one value per entry.
- DrafterRings.LiveKeysProjected: a failed GPU command in the middle of a seed is a refused seed; its half-written keys are then invalid either way.
- KvSnapshot.TopologyIndependent: the layer payloads are taken as the engine lays them out, layer after layer; the transport of the shards is a byte sequence.
- KvPayload.LoadPayload: restoring a shard in the engine or on a worker can still fail; the model ends where the shards and the logits are ready.
- EngramReader.WaitComplete: the caller keeps one buffer per job and does not write it while the job is active, as its interface asks.
- EngramBatch.ReadBatch: size checks against the machine's address range are left out; the row ids are as many as the arguments say.
- EngramBatch.RunParts: runs the parts one after another; `AnySchedule` and `ScheduleIsBatch` say that any interleaving gives the same.
- EngramBatch.AnySchedule: copying or decoding one row is one step.
- Decoding a table row's 264 bytes to 256 floats: a finite lookup table, kept as a map of the rows that decode.
- The confidence test on a drafted row compares two numbers: it would only add an easy member.
- Admission.PriceAndDebt: times are reals, so rounding is not modelled.
- ThinkFilter.ChunkInvariance: the output file accepts every byte.
- The worker registry's linked list is a sequence that the methods reassign; closing and duplicating connections is left out.
- The generation counter, request ids and the rewind mark are unbounded numbers; positions stay below the drafter's "no position" value.
- JSON and UTF-8 checks, command lines, the benchmark and the GPU argument parser: they would only add easy members.
