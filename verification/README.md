# rmw_zenoh_pico in Dafny

rmw_zenoh_pico is a ROS 2 middleware layer on top of zenoh-pico. This project
models four of its components and proves what they are for.

**Hashing.** The vendored xxHash computes every endpoint GID. `Bits`,
`BitLemmas`, `Mixers` and `Mult128` define machine words as bounded integers
with every wrap-around written out, so that the mixers and the 64x64 to 128 bit
multiplication are the real ones. `Xxh32` and `Xxh64` hold the two older
hashes, `Xxh3Kernel` to `Xxh3Long` the parts of XXH3, `Xxh3Stream` its one-shot
forms, `Xxh3State` the streaming state object and `Xxh3Runs` whole histories of
resets, updates and digests. The specification of each hash is a function of the whole
input; the loops, the vector lanes, the block loop and the buffered streaming
state are methods proved to compute it. The `Known` modules compute the
specification on given inputs, at least one for each branch, and arrive at the
values that the published algorithm has there; `WordValues` and `Xxh3Words` are
what they compute with. `KnownGid` does so for a topic key, down to the 16 bytes
of the GID. `Xxh3Injective` shows that short keys do
not collide, `Xxh3Mismatch` where the 128-bit streaming digest departs from the
one-shot hash. `EndpointGid` is the GID.

**Receiving, waiting, services.** `RecvMsgList` is the linked receive queue,
`Take` takes from it, `Service` and `Client` use it. `RequestReply` puts any
number of clients, a network that delays, reorders and loses, and a service into
one state machine; `ServiceSteps` proves that the methods of `Service` and
`Client` make its steps, `RoundTrip` what becomes of a request. `WaitProtocol` is a state machine of transport callbacks,
guard triggers, taking threads and one thread in `rmw_wait`, interleaved at
every mutex operation; `WaitLocks` proves its lock discipline, `WaitSafety` its
invariants, `WaitTheorems` what follows for every run, `WaitReport` that what
is there is reported, and `WaitRuns` builds runs. `WaitQueues` ties the counts of
the protocol to the linked queues.

**Keys.** `CText` has `snprintf`; `Liveliness`, `TopicKey`, `QosKey` and
`TypeHash` build the key strings in fixed buffers and prove what a reader of a
key can recover; `LivelinessReader` and `QosReader` are such readers, written from
the format alone.

**Ownership.** `RefCount` has the reference counts of node data, node info,
entities and topic info.

Nine results say where the code falls short of what one would expect, each with
the exact condition and with an input on which it happens:

- the 128-bit streaming digest tests `seed` where the 64-bit one tests
  `useSeed`, so with a secret and seed 0 it differs from the one-shot hash on
  short inputs (`Xxh3Mismatch.AgreementCondition`, `Xxh3Mismatch.Disagreement`);
- clients of one service share a GID and number their requests alike, so a
  service can hand one client the answer to another's request: when it answers
  out of order, and also when it answers in order but an earlier request did not
  deserialise and still waits (`RequestReply.CrossingPossibleExactly`, whose proof
  builds both runs); a single
  answer goes right exactly when no query that has waited longer has the same id
  (`RequestReply.AnswerGoesRightExactly`);
- a guard condition marks the wait set but does not signal it, so an untimed
  wait that lists one can sleep through it (`WaitTheorems.SleepsThroughExactly`,
  `WaitTheorems.GuardCanBeSleptThrough`);
- a timed wait does not look at `triggered` before it sleeps, so it can sleep on a
  message that came after its queue was found empty
  (`WaitRuns.TimedSleepsThroughExactly`, `WaitRuns.MessageCanBeSleptThrough`);
- a service or client releases a node reference that it never took, so the node
  is freed under handles in use once as many services and clients have been made
  (`RefCount.Lifetime`, `RefCount.OneServiceFreesNode`);
- names that differ in their leading slash have one topic key
  (`TopicKey.KeysCollideExactly`, `TopicKey.LeadingSlashCollides`);
- the topic key builder keeps to its buffer only while the part before the type
  does (`TopicKey.RosTopicNameToZenohKey`, `TopicKey.LongNameRunsOver`);
- the unsigned size left of the QoS builder wraps around when a number does not
  fit, and unless that number is the last the next write is outside the buffer
  (`QosKey.StaysInsideExactly`), as with infinite durations and a large depth
  (`QosKey.UnboundedRunsOver`);
- `rmw_send_response` reports an id without a match but goes on to use the null
  result (`Service.ServiceData.SendResponse`), as in a second answer to one request
  (`Service.AnswerTwice`).

The comment in `rmw_take.c` on an emptied queue ("no error, but there was
nothing left") does not describe the code: the queue running out is reported as
an error, and the model follows the code.

## Model

| member | source | states |
|---|---|---|
| Mult128.Mult64To128Exact | rmw_zenoh_pico/include/utilities/xxhash.h:4411-4425 | the portable multiplication returns the exact 128-bit product of any two words; no intermediate sum overflows |
| Mult128.Carries | rmw_zenoh_pico/include/utilities/xxhash.h:4417-4421 | the cross sum and upper word of the column method fit 64 bits |
| Mixers.Xxh64AvalancheInjective | rmw_zenoh_pico/include/utilities/xxhash.h:3385-3393 | distinct words have distinct XXH64 avalanches |
| Mixers.Xxh3AvalancheInjective | rmw_zenoh_pico/include/utilities/xxhash.h:4457-4463 | distinct words have distinct XXH3 avalanches |
| Mixers.RotateMixInjective | rmw_zenoh_pico/include/utilities/xxhash.h:4470-4473 | xoring a word with two of its rotations loses nothing |
| Mixers.RrmxmxInjective | rmw_zenoh_pico/include/utilities/xxhash.h:4470-4478 | rrmxmx is injective for every length up to 8 |
| Xxh32.FinalizeLoop | rmw_zenoh_pico/include/utilities/xxhash.h:2943-2970 | the tail loop computes the tail function for every remaining length |
| Xxh32.OneShot | rmw_zenoh_pico/include/utilities/xxhash.h:3032-3062 | the lane loop over 16-byte stripes computes the hash of the input |
| Xxh32.State.Reset | rmw_zenoh_pico/include/utilities/xxhash.h:3106-3115 | afterwards the state stands for the empty input under the seed |
| Xxh32.State.Update | rmw_zenoh_pico/include/utilities/xxhash.h:3119-3170 | the state stands for the old input followed by the new chunk, of any length |
| Xxh32.State.Digest | rmw_zenoh_pico/include/utilities/xxhash.h:3174-3190 | returns the one-shot hash of all input fed since the reset |
| Xxh32.LengthWraps | rmw_zenoh_pico/include/utilities/xxhash.h:3131-3132 | the 32-bit length is the true length modulo 2^32, and `large_len` still tells whether 16 bytes were reached |
| Xxh32.HashChunks | rmw_zenoh_pico/include/utilities/xxhash.h:3106-3190 | every chunking of every input, past 2^32 bytes too, gives the one-shot hash |
| Xxh64.FinalizeLoop | rmw_zenoh_pico/include/utilities/xxhash.h:3413-3437 | the tail loop computes the tail function for every remaining length |
| Xxh64.OneShot | rmw_zenoh_pico/include/utilities/xxhash.h:3457-3491 | the lane loop over 32-byte stripes computes the hash of the input |
| Xxh64.State.Reset | rmw_zenoh_pico/include/utilities/xxhash.h:3535-3544 | afterwards the state stands for the empty input under the seed |
| Xxh64.State.Update | rmw_zenoh_pico/include/utilities/xxhash.h:3547-3595 | the state stands for the old input followed by the new chunk, of any length |
| Xxh64.State.Digest | rmw_zenoh_pico/include/utilities/xxhash.h:3599-3616 | returns the one-shot hash of all input fed since the reset |
| Xxh64.HashChunks | rmw_zenoh_pico/include/utilities/xxhash.h:3535-3616 | every chunking of every input gives the one-shot hash |
| Xxh32Known.Ramp31Known | rmw_zenoh_pico/include/utilities/xxhash.h:3032-3062 | the hash of the bytes 0 to 30, with a stripe and a tail of words and bytes, is the published algorithm's |
| Xxh32Known.EmptyKnown | rmw_zenoh_pico/include/utilities/xxhash.h:3032-3062 | so is that of the empty input |
| Xxh64Known.Ramp47Known | rmw_zenoh_pico/include/utilities/xxhash.h:3457-3491 | the hash of the bytes 0 to 46, with a stripe and every kind of tail step, is the published algorithm's |
| Xxh64Known.EmptyKnown | rmw_zenoh_pico/include/utilities/xxhash.h:3457-3491 | so is that of the empty input |
| Xxh3Kernel.AccumulateScalar512 | rmw_zenoh_pico/include/utilities/xxhash.h:5591-5630 | the in-place scalar loop with its cross-lane additions computes the simultaneous lane formula |
| Xxh3Kernel.ScrambleScalar | rmw_zenoh_pico/include/utilities/xxhash.h:5640-5670 | the scalar loop scrambles every lane |
| Xxh3Vector.AccumulateVector512 | rmw_zenoh_pico/include/utilities/xxhash.h:5052-5085 | the SSE2 and AVX2 shuffles and widening multiplications compute the same lane formula |
| Xxh3Vector.SplitMultiply | rmw_zenoh_pico/include/utilities/xxhash.h:5089-5115 | two 32x32 products, one shifted, add up to the 64-bit product with the prime |
| Xxh3Vector.ScrambleVector | rmw_zenoh_pico/include/utilities/xxhash.h:4981-5008 | the SSE2 and AVX2 scrambles agree with the scalar one |
| Xxh3Vector.Accumulate | rmw_zenoh_pico/include/utilities/xxhash.h:4773-4789 | any number of stripes, on any kernel, advances the lanes as the stripe recursion says |
| Xxh3Secret.InitCustomSecretScalar | rmw_zenoh_pico/include/utilities/xxhash.h:5672-5732 | fills the buffer with the secret derived from the seed |
| Xxh3Secret.InitCustomSecretVector | rmw_zenoh_pico/include/utilities/xxhash.h:5117-5148 | the vector form, which adds the seed and its negation, derives the same secret |
| Xxh3Secret.SeedZeroDerivesDefault | rmw_zenoh_pico/include/utilities/xxhash.h:5924-5943 | seed 0 derives the default secret, so the builds that take the short cut and those that do not agree |
| Xxh3Secret.SeedShiftsSecret | rmw_zenoh_pico/include/utilities/xxhash.h:5672-5732 | every seed is added to the even words of the default secret and taken from the odd ones |
| Xxh3Short.UnrolledIsRolled | rmw_zenoh_pico/include/utilities/xxhash.h:4639-4673 | the nested branches and the size-optimised loop mix the same pairs in the same order |
| Xxh3Short.Len17To128Rolled_64 | rmw_zenoh_pico/include/utilities/xxhash.h:4648-4655 | the size-optimised loop computes the unrolled hash |
| Xxh3Short.Len17To128Rolled_128 | rmw_zenoh_pico/include/utilities/xxhash.h:6592-6612 | and the 128-bit one the unrolled 128-bit hash |
| Xxh3Short.Len129To240Loop_64 | rmw_zenoh_pico/include/utilities/xxhash.h:4680-4737 | the two loops compute the medium-length hash |
| Xxh3Short.Len129To240Loop_128 | rmw_zenoh_pico/include/utilities/xxhash.h:6625-6681 | the two loops compute the 128-bit medium-length hash |
| Xxh3Short.ShortHash64 | rmw_zenoh_pico/include/utilities/xxhash.h:5973-5978 | the hash of every input of at most 240 bytes, from these loops, in the default and in the size-optimised build |
| Xxh3Short.ShortHash128 | rmw_zenoh_pico/include/utilities/xxhash.h:6783-6788 | and the 128-bit one |
| Xxh3Short.HighTermsAgree | rmw_zenoh_pico/include/utilities/xxhash.h:6499-6533 | the 32-bit and 64-bit branches for lengths 9 to 16 agree modulo 2^64 |
| Xxh3Short.CombinedValue | rmw_zenoh_pico/include/utilities/xxhash.h:4525-4529 | the four shifted bytes that are or-ed together do not overlap: the word is their sum |
| Xxh3Injective.ShortestKeysDistinct64 | rmw_zenoh_pico/include/utilities/xxhash.h:4514-4534 | distinct keys of 1 to 3 bytes, of different lengths too, have distinct 64-bit hashes for every secret and seed |
| Xxh3Injective.ShortestKeysDistinct128 | rmw_zenoh_pico/include/utilities/xxhash.h:6419-6446 | and distinct low halves of their 128-bit hashes |
| Xxh3Injective.Keys4To8Distinct64 | rmw_zenoh_pico/include/utilities/xxhash.h:4536-4550 | distinct keys of one length in 4 to 8 have distinct 64-bit hashes |
| Xxh3Injective.Keys4To8Distinct128 | rmw_zenoh_pico/include/utilities/xxhash.h:6448-6473 | and distinct 128-bit hashes |
| Xxh3Injective.Keys9To16Distinct128 | rmw_zenoh_pico/include/utilities/xxhash.h:6475-6545 | distinct keys of one length in 9 to 16 have distinct 128-bit hashes |
| Xxh3Injective.ShortKeysDistinct | rmw_zenoh_pico/include/utilities/xxhash.h:6550-6565 | no two keys of one length up to 16 share a 128-bit hash |
| Xxh3Long.BlockArithmetic | rmw_zenoh_pico/include/utilities/xxhash.h:5801-5820 | whole blocks and last partial block together hold every stripe but the last |
| Xxh3Long.HashLongLoop | rmw_zenoh_pico/include/utilities/xxhash.h:5795-5826 | the block loop equals one stripe after another with a scramble at each block end, then the last stripe |
| Xxh3Long.MergeAccsLoop | rmw_zenoh_pico/include/utilities/xxhash.h:5836-5861 | the merge loop folds all four lane pairs |
| Xxh3Long.ConsumeSplit | rmw_zenoh_pico/include/utilities/xxhash.h:6213-6247 | consuming stripes in two goes is consuming them at once, across block ends |
| Xxh3Stream.Hash64 | rmw_zenoh_pico/include/utilities/xxhash.h:5905-6010 | the one-shot 64-bit hash in its four keyings, short loops, derived secret buffer and block loop together, for every kernel and build |
| Xxh3Stream.Hash128Bits | rmw_zenoh_pico/include/utilities/xxhash.h:6738-6828 | the one-shot 128-bit hash likewise |
| Xxh3KnownShort.EmptyKnown | rmw_zenoh_pico/include/utilities/xxhash.h:4569-4578 | both hashes of the empty input are the published algorithm's |
| Xxh3KnownShort.Ramp3Known | rmw_zenoh_pico/include/utilities/xxhash.h:4514-4534 | so are those of 3 bytes with a seed |
| Xxh3KnownShort.Ramp6Known | rmw_zenoh_pico/include/utilities/xxhash.h:4536-4550 | of 6 bytes with a seed |
| Xxh3KnownShort.Ramp14Known64 | rmw_zenoh_pico/include/utilities/xxhash.h:4552-4567 | of 14 bytes with a seed, 64 bits wide |
| Xxh3KnownShort.Ramp14Known128 | rmw_zenoh_pico/include/utilities/xxhash.h:6475-6545 | and 128 bits wide |
| Xxh3KnownMid.Ramp40Known64 | rmw_zenoh_pico/include/utilities/xxhash.h:4639-4673 | of 40 bytes with a seed, 64 bits wide |
| Xxh3KnownMid.Ramp40Known128 | rmw_zenoh_pico/include/utilities/xxhash.h:6581-6623 | and 128 bits wide |
| Xxh3KnownMid.Ramp192Known64 | rmw_zenoh_pico/include/utilities/xxhash.h:4680-4737 | of 192 bytes with a seed, with late blocks and the last one, 64 bits wide |
| Xxh3KnownMid.Ramp192Known128 | rmw_zenoh_pico/include/utilities/xxhash.h:6625-6681 | and 128 bits wide |
| Xxh3KnownLong.Long241Known | rmw_zenoh_pico/include/utilities/xxhash.h:5795-5861 | both hashes of 241 bytes: three stripes, the last one and the merges |
| Xxh3KnownLong.Zeros577Known | rmw_zenoh_pico/include/utilities/xxhash.h:5795-5861 | the hash of 577 bytes with a secret of 136: a whole block, its scramble and the last stripe |
| Xxh3Stream.ConsumeStripes | rmw_zenoh_pico/include/utilities/xxhash.h:6213-6247 | whole blocks and partial blocks from any block position match stripe-by-stripe consumption, and the returned position is right |
| Xxh3State.State.ResetInternal | rmw_zenoh_pico/include/utilities/xxhash.h:6125-6150 | the fields every reset leaves |
| Xxh3State.State.Reset | rmw_zenoh_pico/include/utilities/xxhash.h:6153-6159 | ready for the default hash of an empty input, whatever came before |
| Xxh3State.State.ResetWithSecret | rmw_zenoh_pico/include/utilities/xxhash.h:6162-6170 | accepted exactly for a secret of at least 136 bytes, and then ready for it |
| Xxh3State.State.ResetWithSeed | rmw_zenoh_pico/include/utilities/xxhash.h:6173-6182 | ready for the seed even when deriving its secret is skipped, because the cache is sound |
| Xxh3State.State.ResetWithSecretAndSeed | rmw_zenoh_pico/include/utilities/xxhash.h:6185-6194 | accepted exactly for a long enough secret; a refusal changes nothing |
| Xxh3State.State.Update | rmw_zenoh_pico/include/utilities/xxhash.h:6257-6334 | the state stands for the old input followed by the new chunk; keeps buffer, block position and catch-up bytes in step with the one-shot block loop |
| Xxh3State.State.DigestLong | rmw_zenoh_pico/include/utilities/xxhash.h:6345-6380 | a copy of the lanes, the buffered stripes and the last 64 bytes give the one-shot lanes; the state is unchanged |
| Xxh3State.State.Digest64 | rmw_zenoh_pico/include/utilities/xxhash.h:6383-6398 | the one-shot 64-bit hash of everything fed |
| Xxh3State.State.Digest128 | rmw_zenoh_pico/include/utilities/xxhash.h:6881-6904 | the 128-bit hash of everything fed, the one-shot one but for the seed test |
| Xxh3Runs.Apply | rmw_zenoh_pico/include/utilities/xxhash.h:6125-6194 | every reset, accepted or refused, keeps the cached secret the one of the remembered seed |
| Xxh3Runs.Session | rmw_zenoh_pico/include/utilities/xxhash.h:6125-6398 | in any sequence of resets, accepted or refused, updates and digests, every digest is the hash of what was fed since the last reset that took effect |
| Xxh3Runs.HashChunks | rmw_zenoh_pico/include/utilities/xxhash.h:6125-6398 | after any history of resets, updates and digests, any chunking under any keying digests to the hash of the concatenation |
| Xxh3Mismatch.Disagreement | rmw_zenoh_pico/include/utilities/xxhash.h:6899-6904 | for each length up to 240 an input and a secret on which streaming and one-shot differ at seed 0 |
| Xxh3Mismatch.AgreementCondition | rmw_zenoh_pico/include/utilities/xxhash.h:6899-6904 | secret-and-seed streaming agrees with one-shot for all secrets and inputs of a length if and only if the seed is not 0 or the length is over 240 |
| EndpointGid.GidOf | rmw_zenoh_pico/src/zenoh_pico/zenoh_pico_gid.c:41-54 | the low word in the first eight bytes, the high word in the last eight |
| EndpointGid.GidsEqualExactly | rmw_zenoh_pico/src/zenoh_pico/zenoh_pico_gid.c:27-54 | two keys share a GID if and only if their 128-bit hashes agree |
| KnownGid.TopicGid | rmw_zenoh_pico/src/zenoh_pico/zenoh_pico_gid.c:27-54 | the GID of the key of one topic, all 16 bytes in numbers |
| RecvMsgList.List.constructor | rmw_zenoh_pico/src/zenoh_pico/zenoh_pico_rosMessage.c:281-288 | an empty queue |
| RecvMsgList.List.Append | rmw_zenoh_pico/src/zenoh_pico/zenoh_pico_rosMessage.c:310-337 | the message becomes the last, links, ends and count stay those of the sequence |
| RecvMsgList.List.Pop | rmw_zenoh_pico/src/zenoh_pico/zenoh_pico_rosMessage.c:339-365 | removes the first message, or reports that there is none |
| RecvMsgList.List.Pickup | rmw_zenoh_pico/src/zenoh_pico/zenoh_pico_rosMessage.c:367-422 | removes exactly the first match and keeps the order of the rest; without a match nothing changes; the loop ends |
| RecvMsgList.List.Empty | rmw_zenoh_pico/src/zenoh_pico/zenoh_pico_rosMessage.c:440-446 | true exactly when no message is queued |
| RecvMsgList.List.Follow | rmw_zenoh_pico/src/zenoh_pico/zenoh_pico_rosMessage.c:310-422 | following links from the top visits the messages in order and then ends, so there is no cycle |
| Take.TakeOne | rmw_zenoh_pico/src/rmw_take.c:18-45 | the first message goes, delivered or not |
| Take.TakeSequence | rmw_zenoh_pico/src/rmw_take.c:97-177 | delivers the longest readable run at the front up to the count, in order, and leaves the other slots alone; succeeds exactly when the count is reached; drops the unreadable message that stopped it |
| Service.ServiceData.AddNewRequestMessage | rmw_zenoh_pico/src/rmw_service.c:222-229 | the query joins the end of the request queue and no other place |
| Service.ServiceData.TakeRequest | rmw_zenoh_pico/src/rmw_service.c:479-520 | the oldest request moves to the response queue and its id is handed out; the failure cases |
| Service.ServiceData.PopRequest | rmw_zenoh_pico/src/rmw_service.c:506-507 | the first half of a take: the oldest request is in the hands of the call, and everything else may go on |
| Service.ServiceData.QueueResponse | rmw_zenoh_pico/src/rmw_service.c:517 | the second half: it joins the end of the response queue |
| Service.ServiceData.SendResponse | rmw_zenoh_pico/src/rmw_service.c:540-620 | answers the first waiting query whose id equals the header's, removes it and replies at most once; what each failure leaves behind |
| Service.ServiceData.ExactlyOnePlace | rmw_zenoh_pico/src/rmw_service.c:506-613 | every received query is in exactly one of request queue, response queue, the hands of a call, and disposed |
| Service.TakenIdFindsQuery | rmw_zenoh_pico/src/rmw_service.c:522-538 | the id of a waiting query finds a match, and that very query exactly when none before it has the same id |
| Service.AnswerTwice | rmw_zenoh_pico/src/rmw_service.c:566-574 | the second answer to any request uses the null result |
| Client.ClientData.SendRequest | rmw_zenoh_pico/src/rmw_client.c:306-318 | the caller gets the number before the increment, the attachment carries that plus one |
| Client.ClientData.AddNewReplyMessage | rmw_zenoh_pico/src/rmw_client.c:228-235 | the reply joins the end of the queue |
| Client.ClientData.TakeResponse | rmw_zenoh_pico/src/rmw_client.c:375-392 | replies come out in arrival order, one that does not deserialise is lost |
| RequestReply.StepConserves | rmw_zenoh_pico/src/rmw_service.c:506-613 | every step moves one request and keeps the rest; only sending adds one |
| RequestReply.EveryRequestInOnePlace | rmw_zenoh_pico/src/rmw_service.c:222-613 | in every run, takes and answers in several threads included, each request sent is in exactly one place and nothing else is in any |
| RequestReply.RepliesAreTruthful | rmw_zenoh_pico/src/rmw_service.c:566-613 | in every run every reply carries the id of its own query and answers some issued request with that id |
| RequestReply.ReplyIdentifiesRequest | rmw_zenoh_pico/src/rmw_client.c:306-392 | a taken reply carries the number of exactly one earlier request of that client, the one it was sent on |
| RequestReply.AnsweredAtMostOnce | rmw_zenoh_pico/src/rmw_service.c:566-613 | no request is answered to its client twice |
| RequestReply.AnswerGoesRightExactly | rmw_zenoh_pico/src/rmw_service.c:522-538 | an answer goes to the request it is for if and only if that request waits and no query that has waited longer has the same id |
| RequestReply.CrossingNeedsSharedGid | rmw_zenoh_pico/src/rmw_service.c:522-538 | a reply with the answer to another request needs two clients with one GID at the same number |
| RequestReply.CrossingPossibleExactly | rmw_zenoh_pico/src/rmw_service.c:522-538 | some run hands one client the answer to another's request if and only if the two share a GID; so it is for applications that can read every request and for applications that answer in order |
| RequestReply.ClientsOfOneServiceCanCross | rmw_zenoh_pico/src/rmw_service.c:130-135 | the GID hashes the topic key alone, so any two clients of a service can cross |
| RequestReply.InOrderNeverCrosses | rmw_zenoh_pico/src/rmw_service.c:509-572 | an application that answers the requests it is handed in order, and can read every one, always answers the right client |
| ServiceSteps.DeliverStep | rmw_zenoh_pico/src/rmw_service.c:222-229 | receiving a query changes the service's queues as the state machine's delivery does |
| ServiceSteps.PopStep | rmw_zenoh_pico/src/rmw_service.c:506-507 | the first half of a take is the machine's pop, and fails exactly when that is not possible |
| ServiceSteps.HandStep | rmw_zenoh_pico/src/rmw_service.c:517 | the second half is its hand-over, from any position among the takes under way |
| ServiceSteps.TakeRequestSteps | rmw_zenoh_pico/src/rmw_service.c:479-520 | a whole take is the two in a row, and the id handed out is that of the machine's query |
| ServiceSteps.SameMatch | rmw_zenoh_pico/src/rmw_service.c:522-538 | the search for an id stops at the same query in both |
| ServiceSteps.PickStep | rmw_zenoh_pico/src/rmw_service.c:566-573 | picking up a query to answer is the machine's pick, and finds none exactly when that is not possible |
| ServiceSteps.ReplyStep | rmw_zenoh_pico/src/rmw_service.c:579-619 | being done with it is the machine's reply: what is reported as accepted is on the network and not lost, anything else is lost |
| ServiceSteps.SendResponseSteps | rmw_zenoh_pico/src/rmw_service.c:540-620 | a whole answer is the two in a row, and it is on the network exactly when the call returns OK; where the machine has no step the code uses null or reports an error |
| ServiceSteps.SendStep | rmw_zenoh_pico/src/rmw_client.c:306-318 | sending is the machine's send, with the id it issues |
| ServiceSteps.ReceiveStep | rmw_zenoh_pico/src/rmw_client.c:228-235 | an arriving reply joins the client's part of the machine's inbox |
| ServiceSteps.TakeStep | rmw_zenoh_pico/src/rmw_client.c:375-392 | taking a reply takes the one that the machine takes |
| ServiceSteps.OthersLeaveService | rmw_zenoh_pico/src/rmw_service.c:222-620 | the other events leave the service's queues alone |
| ServiceSteps.OthersLeaveClient | rmw_zenoh_pico/src/rmw_client.c:228-392 | and a client's queue and counter |
| RoundTrip.Tally | rmw_zenoh_pico/src/rmw_service.c:479-620 | in every run each failed send, reply or take and each loss on the network loses one request and nothing else does; the requests handed out and the answers taken are as many as the events that say so |
| RoundTrip.RequestIsAnswered | rmw_zenoh_pico/src/rmw_client.c:306-392 | whenever nothing is under way, a request that every step treats well is answered to its client with its own answer, and nothing is lost |
| RoundTrip.EveryClientCanBeAnswered | rmw_zenoh_pico/src/rmw_client.c:306-392 | so every client can be answered |
| WaitSafety.WorkKeepsHeard | rmw_zenoh_pico/src/zenoh_pico/zenoh_pico_condition.c:49-65 | an append and its trigger keep every attached non-empty queue heard of |
| WaitSafety.AttachKeepsHeard | rmw_zenoh_pico/src/zenoh_pico/zenoh_pico_condition.c:67-85 | so does attaching after the queue was found empty, callbacks in between or not |
| WaitSafety.SleepKeepsHeard | rmw_zenoh_pico/src/rmw_wait.c:140-170 | so does testing `triggered`, sleeping and waking |
| WaitSafety.InvAlways | rmw_zenoh_pico/src/rmw_wait.c:119-254 | the protocol's invariants hold in every reachable state of every interleaving |
| WaitTheorems.NoLostWakeup | rmw_zenoh_pico/src/rmw_wait.c:140-170 | while an untimed wait sleeps, a listed non-empty queue has a callback between append and signal, and `triggered` is false unless a callback is about to signal or a guard was tripped |
| WaitTheorems.QuietMeansEmpty | rmw_zenoh_pico/src/rmw_subscription.c:175-186 | asleep with no callback running, every listed queue is empty |
| WaitTheorems.WorkShortens | rmw_zenoh_pico/src/zenoh_pico/zenoh_pico_condition.c:49-65 | a step of a callback or a take uses up some of its finite work |
| WaitTheorems.WorkIsBounded | rmw_zenoh_pico/src/zenoh_pico/zenoh_pico_condition.c:49-65 | every run of them is at most as long as the work they have left, so maximal runs exist |
| WaitTheorems.WakesOrDrains | rmw_zenoh_pico/src/rmw_wait.c:140-170 | every maximal run of the callbacks and takes that have begun wakes the sleeper or leaves all listed queues empty |
| WaitTheorems.CallIsBounded | rmw_zenoh_pico/src/rmw_wait.c:119-253 | from any point of a call, wait, callbacks and takes together make at most as many steps as they have left, and a wait that has been woken by a signal, has had its timeout or polls does not go to sleep |
| WaitTheorems.CallEnds | rmw_zenoh_pico/src/rmw_wait.c:119-253 | every maximal run of a call and of the callbacks and takes that have begun ends with `rmw_wait` back or asleep; back, if it polls, had its timeout or was woken by a signal |
| WaitTheorems.TimeoutEndsCall | rmw_zenoh_pico/src/rmw_wait.c:155-170 | a timed wait comes back once the timeout has passed |
| WaitTheorems.PollReturns | rmw_zenoh_pico/src/rmw_wait.c:150-170 | a wait with a zero timeout comes back |
| WaitTheorems.ReturnsOrDrains | rmw_zenoh_pico/src/rmw_wait.c:140-253 | every maximal run of the sleeping wait and of the callbacks and takes that have begun ends with `rmw_wait` back, or asleep with all listed queues empty |
| WaitTheorems.WaitResult | rmw_zenoh_pico/src/rmw_wait.c:180-253 | on return a slot is left exactly if its count was not zero, the code is OK exactly if some slot is left, and nothing points at the wait set, even after an early stop |
| WaitTheorems.CountsAreReadAtDetach | rmw_zenoh_pico/src/zenoh_pico/zenoh_pico_condition.c:87-99 | each of those counts was the queue's length, or the guard's flag, at that slot's own detach step in the same call |
| WaitReport.CountLaw | rmw_zenoh_pico/src/zenoh_pico/zenoh_pico_rosMessage.c:310-365 | in every run a queue holds as many messages as were appended less those taken, and a guard is set exactly when it was tripped |
| WaitReport.ReadyIsReported | rmw_zenoh_pico/src/rmw_wait.c:119-253 | a call that begins while a listed entity is ready does not sleep, and reports it unless somebody takes from it meanwhile |
| WaitQueues.AppendStep | rmw_zenoh_pico/src/zenoh_pico/zenoh_pico_rosMessage.c:310-337 | an append to the linked queue is the protocol's step: its length stays the count |
| WaitQueues.PopStep | rmw_zenoh_pico/src/zenoh_pico/zenoh_pico_rosMessage.c:339-365 | so is a pop, which finds nothing exactly at count zero |
| WaitQueues.ProbeStep | rmw_zenoh_pico/src/zenoh_pico/zenoh_pico_rosMessage.c:424-446 | what the wait reads is whether the linked queue is empty |
| WaitRuns.SleeperIsWoken | rmw_zenoh_pico/src/rmw_wait.c:140-253 | a message that arrives while an untimed wait sleeps on its queue wakes it, is reported, and `triggered` is reset |
| WaitRuns.PollFinds | rmw_zenoh_pico/src/rmw_wait.c:119-253 | a message that is there before a wait with a zero timeout is reported |
| WaitRuns.TimedSleepsThroughExactly | rmw_zenoh_pico/src/rmw_wait.c:153-163 | a timed wait on given slots can be left asleep with a message in a listed queue and `triggered` set if and only if it lists a queue |
| WaitTheorems.SleepsThroughExactly | rmw_zenoh_pico/src/rmw_guard_condition.c:18-31 | an untimed wait on given slots can be left asleep with `triggered` set and nothing running if and only if it lists a guard condition |
| WaitLocks.WorkKeepsLocks | rmw_zenoh_pico/src/zenoh_pico/zenoh_pico_condition.c:49-65 | on every path of an append, trigger or take the mutexes held are those the place in the code says |
| WaitLocks.MutualExclusion | rmw_zenoh_pico/src/zenoh_pico/zenoh_pico_condition.c:51-64 | two threads are never both between lock and unlock of one mutex |
| WaitLocks.AcquiredInOrder | rmw_zenoh_pico/src/zenoh_pico/zenoh_pico_condition.c:67-99 | a thread that wants a mutex holds only mutexes of lower rank, condition mutexes being lowest |
| WaitLocks.LockWaitsAreAcyclic | rmw_zenoh_pico/src/zenoh_pico/zenoh_pico_condition.c:49-99 | chains of lock waits have at most three threads and no repetition |
| WaitTheorems.NoCycleOfLockWaits | rmw_zenoh_pico/src/zenoh_pico/zenoh_pico_condition.c:49-99 | no reachable state has a cycle of lock waits |
| WaitTheorems.NeverDeadlocked | rmw_zenoh_pico/src/zenoh_pico/zenoh_pico_rosMessage.c:424-438 | a thread inside a call can go on, or waits for one that can, or for one that waits for one that can |
| CText.SplitOfJoin | rmw_zenoh_pico/src/zenoh_pico/zenoh_pico_liveliness.c:126-138 | splitting at the delimiter undoes joining when no part contains it |
| Liveliness.MangleName | rmw_zenoh_pico/src/zenoh_pico/zenoh_pico_liveliness.c:51-57 | replaces exactly the slashes of the first `size` characters, in place |
| Liveliness.DemangleName | rmw_zenoh_pico/src/zenoh_pico/zenoh_pico_liveliness.c:59-65 | puts the slashes back, in place |
| Liveliness.KeyBuffer.AddString | rmw_zenoh_pico/src/zenoh_pico/zenoh_pico_liveliness.c:82-101 | one more mangled value, cut at 127 characters and at the space left |
| Liveliness.GenerateLiveliness | rmw_zenoh_pico/src/zenoh_pico/zenoh_pico_liveliness.c:149-216 | for every entity and buffer size the key is the ideal '/'-joined text of its 9 or 13 fields cut at the size less two, all writes in bounds |
| Liveliness.RecoverableField | rmw_zenoh_pico/src/zenoh_pico/zenoh_pico_liveliness.c:51-101 | a field comes back exactly if it is under 128 characters and has no replacement character |
| Liveliness.DecodableExactly | rmw_zenoh_pico/src/zenoh_pico/zenoh_pico_liveliness.c:149-216 | for every buffer size a key decodes to all its fields if and only if the whole fits and each of the entity's own strings is recoverable |
| LivelinessReader.EntityRecoveredExactly | rmw_zenoh_pico/src/zenoh_pico/zenoh_pico_liveliness.c:149-216 | for every entity and buffer size a reader who knows the format gets the entity back, its kind, numbers and strings each at their place, if and only if the whole fits, the strings are recoverable and the numbers are below 2^31 |
| LivelinessReader.NodeKey | rmw_zenoh_pico/src/zenoh_pico/zenoh_pico_liveliness.c:24-65 | the key of one node in characters |
| TopicKey.RosTopicNameToZenohKey | rmw_zenoh_pico/src/zenoh_pico/zenoh_pico_topicInfo.c:109-152 | for every topic and buffer size: the ideal key cut at the size less one, as long as the part before the type does not run past the buffer; beyond that the builder writes outside |
| TopicKey.LongNameRunsOver | rmw_zenoh_pico/src/zenoh_pico/zenoh_pico_topicInfo.c:121-147 | for every buffer size some topic makes the builder write outside |
| TopicKey.KeyWholeExactly | rmw_zenoh_pico/src/zenoh_pico/zenoh_pico_topicInfo.c:109-152 | the key is whole if and only if it leaves room for the terminator |
| TopicKey.NameRecoveredExactly | rmw_zenoh_pico/src/zenoh_pico/zenoh_pico_topicInfo.c:109-152 | a key parses back to domain, name without leading slash, type and hash if and only if the name does not end in a slash (or is only one) |
| TopicKey.KeysCollideExactly | rmw_zenoh_pico/src/zenoh_pico/zenoh_pico_topicInfo.c:109-152 | two topics share a key if and only if all but the slashes around their names agrees |
| TopicKey.LeadingSlashCollides | rmw_zenoh_pico/src/zenoh_pico/zenoh_pico_topicInfo.c:128-137 | a name with and without its leading slash give one key |
| QosKey.QosToKeyexpr | rmw_zenoh_pico/src/zenoh_pico/zenoh_pico_liveliness.c:326-401 | for every profile, with the unsigned size wrapping as it does: the text of the builder, or nothing once a write is outside the buffer |
| QosKey.StaysInsideExactly | rmw_zenoh_pico/src/zenoh_pico/zenoh_pico_liveliness.c:326-401 | all writes are in bounds if and only if no number but the last runs over the end |
| QosKey.UnboundedRunsOver | rmw_zenoh_pico/src/zenoh_pico/zenoh_pico_liveliness.c:326-401 | infinite durations and a depth of 1000000 make it write outside |
| QosKey.WholeTextExactly | rmw_zenoh_pico/src/zenoh_pico/zenoh_pico_liveliness.c:357-401 | the whole text is returned if and only if it has at most 62 characters, or 63 of which the last is a separator |
| QosKey.QosDecodes | rmw_zenoh_pico/src/zenoh_pico/zenoh_pico_liveliness.c:357-401 | every QoS text parses back to all eleven numbers |
| QosReader.FieldsRead | rmw_zenoh_pico/src/zenoh_pico/zenoh_pico_liveliness.c:357-401 | a reader that tells the two separators apart finds each of the eleven numbers at its place |
| QosReader.QosRecoveredExactly | rmw_zenoh_pico/src/zenoh_pico/zenoh_pico_liveliness.c:357-401 | the text of a profile gives the profile back if and only if its numbers are below 2^31 |
| QosReader.ShortProfile | rmw_zenoh_pico/src/zenoh_pico/zenoh_pico_liveliness.c:357-401 | the text of one profile in characters |
| TypeHash.ConvertHash | rmw_zenoh_pico/src/zenoh_pico/zenoh_pico_liveliness.c:233-269 | the prefix and two hexadecimal digits a byte |
| TypeHash.TextDecodes | rmw_zenoh_pico/src/zenoh_pico/zenoh_pico_liveliness.c:228-269 | the text is 71 characters, begins with RIHS01_ and decodes to the same 32 bytes |
| TypeHash.DigitsAre | rmw_zenoh_pico/src/zenoh_pico/zenoh_pico_liveliness.c:243-260 | the digits are the lower-case ones, upper half first |
| RefCount.Counted.Release | rmw_zenoh_pico/src/zenoh_pico/zenoh_pico_data.c:46-52 | one reference less, and whether it was the last; never on freed memory |
| RefCount.Counted.Destroy | rmw_zenoh_pico/src/zenoh_pico/zenoh_pico_data.c:31-38 | frees exactly at count zero, and only memory not freed yet |
| RefCount.DestroyEntity | rmw_zenoh_pico/src/zenoh_pico/zenoh_pico_entity.c:218-244 | frees the entity and gives back its node info and topic info references |
| RefCount.DestroyNodeData | rmw_zenoh_pico/src/rmw_node.c:89-111 | one node reference less; at the last one the node, its entity and a node info reference go |
| RefCount.CloseNode | rmw_zenoh_pico/src/rmw_node.c:177-194 | gives back the handle's reference; publishers and subscriptions stay intact |
| RefCount.CreateEndpoint | rmw_zenoh_pico/src/rmw_publisher.c:294-298 | a publisher or subscription takes one node and one node info reference |
| RefCount.CreateService | rmw_zenoh_pico/src/rmw_service.c:369-374 | a service or client takes a node info reference only |
| RefCount.DestroyEndpoint | rmw_zenoh_pico/src/rmw_subscription.c:107-159 | gives both back and frees what it owned; the others stay intact |
| RefCount.NodeData.LiveWhileHeld | rmw_zenoh_pico/src/rmw_node.c:89-111 | node data and node entity are in memory exactly while references are left, node info while they or an endpoint is |
| RefCount.Lifetime | rmw_zenoh_pico/src/rmw_publisher.c:115-148 | for every sequence of creations and destructions of publishers, subscriptions, services and clients, in any order, the node counts the handles in use less the services and clients ever made; it is freed if and only if at least as many of these have been made as handles are in use; all other memory is freed exactly with its last reference |
| RefCount.HandlesKeepNode | rmw_zenoh_pico/src/rmw_node.c:89-111 | without services and clients the count is the handles in use and whoever holds a handle finds the node in memory |
| RefCount.OneServiceFreesNode | rmw_zenoh_pico/src/rmw_service.c:167-170 | making and destroying one service leaves the node freed while its handle is open |

## Left out

- zenoh-pico, CDR, rcutils and rosidl calls: attachments and payloads are values, deserialisation a yes-or-no input.
- Sessions, transport, init options, logging, debug dumps and the functions that report "not implemented".
- Events: their table is empty, so `rmw_wait` has no event lists here.
- User data callbacks between append and trigger.
- Null pointer checks on the arguments of the C functions.
- NEON, VSX, SVE and AVX512 kernels, prefetching and alignment; vector lanes are sequences of words, not machine registers.
- The switch-based variant of the XXH32 tail; the tail loop is modelled.
- An external XXH3 secret is the bytes it had at the reset: a caller that changes it between updates is not modelled.
- Xxh3State.State.ResetWithSecret: a secret that is too short leaves a state that must be reset before use, as in the code; what hashing with it would do is not modelled.
- Mutexes inside `RecvMsgList.List` and `Service.ServiceData`: the methods are atomic; locking is the subject of `WaitProtocol`.
- `recv_msg_list_destroy`.
- Client.ClientData.SendRequest: a counter at the largest 64-bit number is excluded, because incrementing it is undefined in C.
- RequestReply: lost messages are never sent again, and an answer without a match ends the run, as the null result does in the code.
- ServiceSteps: each call is one step or two of the machine; driving a whole run over many client objects is not composed.
- WaitTheorems.NoLostWakeup: untimed waits only; for timed ones it is false, as `WaitRuns.TimedSleepsThroughExactly` shows.
- WaitProtocol: one wait set and one thread in `rmw_wait`; any number of entities, callbacks, guard triggers and takes.
- Liveliness: texts without embedded NUL are what C passes; a NUL in a model string ends it.
- RefCount.Lifetime: what an operation on a node that has been freed does; `HandlesAfter` is then `None`.
- RefCount: allocation failures; concurrent destruction; the receive queue a subscription drains. Nodes share no memory, so one node stands for all.
- TopicKey.RosTopicNameToZenohKey and QosKey.QosToKeyexpr: what a write outside the buffer does; the result is then `None`.
- The entity and node id counters and the getters are not modelled.
