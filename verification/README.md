# simplegoserver: the frame protocol, modelled and proved

This project models the TCP frame-protocol half of simplegoserver in Dafny and proves what its parts promise
together: a publish/subscribe server with resumable sessions and the client that acknowledges what it receives,
the fragmenting codec with its recycled buffers, the reactor's dispatch and shutdown, request multiplexing over
one connection, and the ring, the weighted balancers and the handler pipeline. `dafny verify dfyconfig.toml`
checks everything.

How the model is laid out:

| file | what it holds |
|---|---|
| `Wire.dfy` | the wire format and the streaming decoder as functions of byte sequences |
| `Pool.dfy`, `Decoder.dfy`, `Encoder.dfy`, `Codec.dfy` | the code that computes those functions, over real arrays and a shared pool |
| `PoolRaces.dfy` | the pool between many users, in every interleaving |
| `PubSub.dfy`, `PubSubSteps.dfy` | what each lock section of the server does to its tables |
| `PubSubTables.dfy`, `PubSubSessions.dfy` | the same said of single members, sessions and cached frames, and how long a subscription and a session last |
| `PubSubServer.dfy` | the handler class, each method proved to do that |
| `PubSubRuns.dfy` | invariants over every run, with each publish as one step |
| `PubSubRaces.dfy`, `PubSubOverlap.dfy`, `PubSubTraces.dfy` | the same server at the granularity of its lock sections: what every interleaving keeps, exactly when the rest is kept, and runs in which it is not |
| `PubSubSections.dfy` | a publish nothing overlaps is its sections in a row |
| `Resilient.dfy` | the client's replay bookkeeping, with and without acknowledgements |
| `EndToEnd.dfy` | server and client together, at the granularity of lock sections, writes, replayed frames and the steps of the client's read loops |
| `Delivery.dfy` | where a replay starts, in which order frames arrive, and what the logs of the application mean |
| `AtMostOnce.dfy`, `Silence.dfy`, `EndToEndTraces.dfy` | exactly when a publish is accepted only once, exactly when none is lost to a member, and the runs that fail |
| `Reactor.dfy`, `ReactorShutdown.dfy`, `Registry.dfy` | dispatch, worker loops, handlers and shutdown in every interleaving |
| `Mux.dfy`, `MuxCalls.dfy` | calls, responses, timeouts and disconnects in every interleaving |
| `Ring.dfy`, `RingKeys.dfy`, `RingBalancer.dfy` | the consistent-hash ring, its hash and its members |
| `Weighted.dfy`, `WeightedBalancers.dfy` | weighted round robin and weighted random |
| `Pipeline.dfy` | the doubly linked handler pipeline |

## What is true only under a condition

Where the code does not meet a promise in every case, the model keeps the code as it is, shows a concrete
failing run, and proves exactly when the promise holds.

- With overlapping publishes, every state of a run keeps caches and counters to held topics if and only if no
  publish makes a counter or leaves a frame cached for a topic that has lost its last holder
  (`PubSubOverlap.RunLivelyIff`, failing run in `PubSubTraces.AbandonedCacheReachable`). Whether a section is
  able to do that is decided before it runs (`RememberLivelyIff`, `CounterLivelyIff`).
- With overlapping publishes, every cache is always in increasing order if and only if no frame is cached behind
  one that was numbered later (`PubSubOverlap.RunOrderedIff`, failing run in `PubSubTraces.OvertakenReachable`).
- The acknowledging client filters a publish, hands it to the application and acknowledges it in three steps, and a
  read loop outlives its connection. Each number is accepted at most once in every run in which no frame passes the
  filter while another loop has its number in hand and no reported number is adopted below the cursor
  (`AtMostOnce.AcceptedAtMostOnce`; `OnceIff` says that what keeps it so lasts in exactly those runs). Either way out
  of it leads to a publish accepted twice: `DoubleCanBeAcceptedTwice`, and the whole runs in `DoubleReachable` (a slow
  handler on a connection that was given up) and `LoweredReachable` (`Subscribe` adopts the zero it was told after the
  first publish has been accepted).
- A publish writes to the members it found when it began, so a client that subscribes or resumes while one is under
  way gets neither the frame nor a replay of it until its next resume. And a replay whose write fails is given up
  while the connection stays a member. In every run no frame is lost to a member if and only if no publish caches its
  frame while the client is a member it had not found, and no replay is given up with a cached publish left in it that
  is nowhere else (`Silence.NothingLostIff`; the first as a guard on the tables and the call in `RiskyIff`; failing
  runs in `LostFrameReachable` and `AbandonedReplayReachable`). A member whose live write failed is taken out of the
  topic, also with its connection left open; from then on the client is not a member.
- The client without acknowledgements is documented to receive every publish exactly once. What it is replayed it has
  never seen, but it is replayed every cached publish it has not seen if and only if it has seen all that are older
  than one it has seen (`Resilient.PlainCatchesUpIff`, failing input in `PlainSkips`).
- `release` is documented as idempotent. A second release does nothing exactly if nobody has acquired the frame since
  (`PoolRaces.SecondReleaseIff`); in a run every user keeps its frames exactly if there is no such release
  (`RunExactIff`, failing run in `TwoUsersReachable`).
- A payload above the stream limit is encoded without complaint and then refused by every decoder:
  `Wire.SplitThenAssemble` has the bound on both sides.
- `alignReplayState` lets later publishes through if and only if the topic was seen to be reset or nothing
  parked lies ahead (`Resilient.AlignLetsFutureThrough`, failing input in `StaleParkedSwallows`).
- The comment in `AddConn` says a worker loop exits only through its cancelled context; the code has a second
  exit, on a registry rejection. A connection queued between that exit and the cancellation is never closed:
  `Reactor.OrphanedExactlyBy`, `LateSendCanOrphan`, `OrphanForGood`, and the whole run in
  `ReactorShutdown.CleanVerdictWithOrphan`.
- Shutdown reads zero active handlers, but a loop between the registry and the counter can still start one:
  `ReactorShutdown.VerdictIsFinal` (exactly when not) and `HandlerAfterCleanVerdict` (a run in which it does).
- The client's mutex keeps fragmented requests apart, but a single-frame request is written outside it and can
  land inside another's fragments: `Mux.OrderlyIffConsiderate`, `TornReachable`, `TornIsRejected`.
- A call without a timeout that registers after the read loop has failed the pending calls waits forever:
  `Mux.AnsweredUnlessLate`, `StrandedForGood`, `StrandedReachable`.
- Removing a backend keeps every ring point owned if and only if no other member has a point in common with it
  (`Ring.LeaveCompleteIff`). The server's own ids collide with more than ten replicas, since "worker:1" + "10"
  and "worker:11" + "0" are the same key (`Ring.NumberedWorkersShare`, `OwnerlessPoint`).
- Inserting behind the last pipeline node panics after it has already damaged the list
  (`Pipeline.LinkedPipeline.AddHandler` has the exact condition).
- The documentation of `Decode` says that a stream ending inside a frame gives an unexpected-end error. It does
  exactly when the cut is behind the header (`Wire.CutFrame`, failing input in `CutHeaderLooksClean`). The
  streaming reader takes even a message cut behind a flagged fragment for a clean end
  (`CutMessageLooksClean`); `CleanEndExactly` says which inputs it takes for one.

## Model

| member | source | states |
|---|---|---|
| `Wire.HeaderRoundTrip` | pkg/proto/codec.go:37-70 | parsing the ten bytes of a header gives the header back, for every header the encoder may write |
| `Wire.ParseHeaderInverse` | pkg/proto/codec.go:57-70 | an accepted header is the encoding of what it was parsed to, so no two byte strings mean the same header |
| `Wire.HeaderLayout` | pkg/proto/codec.go:37-42 | the ten bytes of a header, one by one: type, flags, stream id and length with the highest byte first |
| `Wire.DecodeFrameOfBytes` | pkg/proto/codec.go:88-124 | the bytes of a well-formed frame with anything behind them decode to that frame and leave the rest |
| `Wire.DecodeFrameInverse` | pkg/proto/codec.go:88-124 | whatever decodes is the bytes of a well-formed frame followed by what is left |
| `Wire.AssembleAccepts` | pkg/proto/stream.go:54-116 | a chain of continuing fragments assembles to the concatenation, or to the size error exactly when it is too large |
| `Wire.AssembleWitness` | pkg/proto/stream.go:54-116 | a successful assembly has read exactly such a chain |
| `Wire.ChainDecodes` | pkg/proto/stream.go:54-116 | every chain within the limit, followed by anything, decodes to what it means |
| `Wire.DecodeStreamExact` | pkg/proto/stream.go:54-116 | the streaming decoder succeeds on exactly the inputs that start with a chain of well-formed frames of one id and type, flagged on all but the last and within the stream limit; payload, header and rest are those of the chain |
| `Wire.OverlongIsRefused` | pkg/proto/codec.go:57-70 | a frame is refused as too large exactly if its header announces a negative length or more than 2^20, whatever follows |
| `Wire.ViolationsAreNamed` | pkg/proto/stream.go:77-99 | behind flagged fragments a frame of another id, of another type, or one too many bytes gives the error that says so, in that order |
| `Wire.NextFrameDecides` | pkg/proto/stream.go:68-116 | what the assembly does with a frame behind any run of flagged fragments, case by case |
| `Wire.CutFrame` | pkg/proto/codec.go:72-124 | a frame cut at any byte gives a plain end of stream inside the header and the count of what arrived inside the payload |
| `Wire.CutHeaderLooksClean` | pkg/proto/codec.go:97-103 | one byte of a header reads like no byte at all |
| `Wire.CutMessageLooksClean` | pkg/proto/stream.go:69-76 | a message cut behind a flagged fragment reads like the end of a connection |
| `Wire.CleanEndExactly` | pkg/proto/stream.go:54-116 | the streaming decoder reports a plain end of stream exactly on a possibly empty run of flagged fragments of one type and id within the limit, followed by less than a header |
| `Wire.RunsDryExactly` | pkg/proto/stream.go:54-116 | for every way a reader ends, the streaming decoder runs out of input exactly on such a run of fragments followed by a frame cut short, and its error is that of the cut frame |
| `Wire.FragmentsContinue` | pkg/proto/stream.go:215-237 | splitting a payload gives a chain whose payloads concatenate to it |
| `Wire.SplitThenAssemble` | pkg/proto/stream.go:183-238 | for every type, id, threshold and non-empty payload the encoded bytes decode to that message and leave the rest if the payload is within the stream limit, and to the size error otherwise |
| `Wire.BuffersAre` | pkg/proto/stream.go:183-237 | with m the threshold if it is between 1 and 2^20, and 2^20 otherwise: the payload takes (length + m - 1) / m buffers, buffer i is the frame of the i-th m bytes, flagged unless it is the last, and all but the last are full |
| `Wire.WrittenInPieces` | pkg/proto/protocol.go:842-874 | joined, piece i of a message lies at i times (10 + m), and nothing follows the last |
| `Wire.TranscriptRoundTrip` | pkg/proto/stream.go:54-238 | any concatenation of encoded messages decodes to the same list in the same order |
| `Pool.ClassIndexForSize` | pkg/proto/pool.go:41-51 | the smallest class that holds the size; none exactly when the size is not positive or above the largest class |
| `Pool.ClassIndexForCap` | pkg/proto/pool.go:57-69 | the largest class the capacity can serve; none exactly when it is below the smallest or above the largest |
| `Pool.Append` | pkg/proto/stream.go:91-91 | the appended bytes follow the old ones, in place or in a fresh array |
| `Pool.EncodeHeaderTo` | pkg/proto/codec.go:37-42 | writes exactly the ten header bytes and touches nothing behind them |
| `Pool.Backend.GetPayload` | pkg/proto/pool.go:117-124 | a parked buffer of just that class, taken out, or a new one of exactly its size; nobody owns it |
| `Pool.Backend.PutPayloadArray` | pkg/proto/pool.go:202-212 | nothing changes if the capacity is outside 2^8 to 2^20; otherwise one entry more, the array in its own cell, in the largest class its capacity serves |
| `Pool.Backend.AcquireFrame` | pkg/proto/pool.go:133-138 | a clean frame that was lent to nobody |
| `Pool.Backend.AcquirePayload` | pkg/proto/pool.go:150-155 | attaches a buffer of the smallest class that fits, cut to the asked length, to a frame that becomes its only owner |
| `Pool.Backend.ReleasePayload` | pkg/proto/pool.go:186-197 | the pool afterwards, entry by entry: one array more if the backing is the same, both if the aggregate grew, each in its class and only if it has one |
| `Pool.Release` | pkg/proto/pool.go:167-179 | returns a frame and its arrays, each to its class, leaves it zeroed, and does nothing to a plain or already released frame |
| `Decoder.DecodeFrameFrom` | pkg/proto/codec.go:88-124 | with any pool or none the outcome is that of the byte-level decoder; on failure frame and buffer are back in the pool |
| `Decoder.TakeFragment` | pkg/proto/stream.go:77-99 | a fragment is appended and recycled, or both frames are recycled with the error of the first test that fails |
| `Decoder.AppendFragments` | pkg/proto/stream.go:68-116 | the assembly loop reaches the outcome of the byte-level assembler, even when the aggregate moves to a grown array |
| `Decoder.DecodeStreamed` | pkg/proto/stream.go:54-116 | for every input and every pool content the outcome is that of the byte-level decoder; every frame but the returned one is back, and only pooled arrays were written |
| `Encoder.EncodeFrameInto` | pkg/proto/stream.go:260-282 | the frame's bytes, in a pooled or exact buffer that nobody else owns |
| `Encoder.EncodeFragments` | pkg/proto/stream.go:213-237 | the fragment loop produces the frames of the splitting function, in order, each in an array of its own |
| `Encoder.TakeBuffer` | pkg/proto/stream.go:260-282 | a parked or new buffer of the smallest class that fits, or an exact allocation without a pool or above the largest class |
| `Encoder.EncodeMessage` | pkg/proto/stream.go:183-238 | with any pool or none the buffers are those of the byte-level encoder, which `Wire.BuffersAre` describes; nothing else changes hands |
| `Encoder.ReleaseMessage` | pkg/proto/stream.go:165-178 | the buffers leave the message and are parked in order, each in the class of its capacity: a lone one in any case, a fragment's if it came from a cell; a second call parks nothing |
| `Encoder.NothingShared` | pkg/proto/pool.go:165-212 | a parked array is in no live frame and no unreleased message, two owners share none, none is parked twice, and each is large enough for its class |
| `PoolRaces.RunKeepsApart` | pkg/proto/pool.go:94-212 | whatever many users do between one another's pool calls, even with stray releases, no array is in two frames or parked while in one, and each parked array is large enough for its class |
| `PoolRaces.HeldToItself` | pkg/proto/pool.go:5-26 | in every run a held frame keeps its holder, its arrays and its payload bytes until somebody acts through a pointer to that very frame |
| `PoolRaces.ArraysAreConserved` | pkg/proto/pool.go:167-212 | an array is lost to the pool by exactly three steps: it serves no class, the collector takes it, or a payload outgrew it that was not the pooled one |
| `PoolRaces.LentIsLargeEnough` | pkg/proto/pool.go:117-155 | what a frame is lent holds what was asked for |
| `PoolRaces.SecondReleaseIff` | pkg/proto/pool.go:157-179 | a release by one who has released before does nothing exactly if nobody has acquired the frame since |
| `PoolRaces.RunExactIff` | pkg/proto/pool.go:157-179 | in every run users have exactly the frames they acquired and did not release, throughout, if and only if no release hits a frame another has acquired since |
| `PoolRaces.TwoUsersReachable` | pkg/proto/pool.go:157-179 | a run with one release too many, after which two users have the same frame |
| `Codec.HandleRead` | pkg/proto/protocol.go:812-830 | handlers see exactly the decoded message, or the connection closes with the decoder's error, quietly on a plain end and on an expired deadline and with a report otherwise; afterwards the pool has lent out what it had before |
| `Codec.QuietExactly` | pkg/proto/protocol.go:814-827 | a connection is closed quietly exactly on a clean end, or when the deadline expires between messages or inside one that had no violation in it yet |
| `Codec.ReadAll` | pkg/proto/protocol.go:812-830 | read to its end through one shared pool, a connection yields every message of its bytes in order and closes with the error that ended them |
| `Codec.HandleWrite` | pkg/proto/protocol.go:842-874 | one write, the pieces of the size the threshold says one after the other; its bytes decode to the message exactly when that is within the stream limit; other messages' buffers are untouched |
| `PubSub.EvictedLargestFirst` | pkg/proto/protocol.go:478-494 | eviction takes whole topics, none smaller than one that stayed, none that could have stayed, and nothing when the budget is met |
| `PubSub.AppendBytes` | pkg/proto/protocol.go:460-472 | the byte total after one append and trim is the old one plus the new frame less the dropped one |
| `PubSub.NewerAreAbove` | pkg/proto/protocol.go:444-454 | exactly the entries above the cursor are replayed |
| `PubSubTables.SubscribeMeans` | pkg/proto/protocol.go:561-592 | a subscribe makes the connection a member and its session record the topic; every other member, topic, session, cache and counter is as before |
| `PubSubTables.UnsubscribeMeans` | pkg/proto/protocol.go:561-594 | after an unsubscribe the connection is no member and its session does not record the topic; others are as before, and the topic's cache and counter go exactly if nobody wants it |
| `PubSubTables.HelloMeans` | pkg/proto/protocol.go:345-438 | who is member of what, which sessions there are and whose they are, after a handshake that resumes, opens or is refused |
| `PubSubTables.TouchMeans` | pkg/proto/protocol.go:258-270 | only the connection's own session is heard from |
| `PubSubTables.ReapMeans` | pkg/proto/protocol.go:223-250 | the sweep ends exactly the sessions that were silent for longer than the limit, takes exactly their connections out of exactly their topics, and spares what is still wanted |
| `PubSubTables.ExpelMeans` | pkg/proto/protocol.go:703-718 | exactly the failing connections leave exactly this topic, and no session changes |
| `PubSubTables.ReplaySends` | pkg/proto/protocol.go:444-454 | the buffers sent are exactly those of cached frames above the cursor sent for their topic, or above zero |
| `PubSubSessions.GivenUpForGood` | pkg/proto/protocol.go:583-594 | in every run: a topic given up and not subscribed to again by that session is not rejoined by resuming it |
| `PubSubSessions.SessionLife` | pkg/proto/protocol.go:223-270 | in every run: a session is there exactly until a sweep finds it silent for longer than the limit, and a handshake resumes it exactly if it comes in time |
| `PubSubSessions.PublishMeans` | pkg/proto/protocol.go:644-693 | one publish: the number used, the refusal of an empty or overlong payload, the very frame cached and the 64 newest kept, what is evicted, and which members leave |
| `PubSubSessions.PublishReadsBack` | pkg/proto/protocol.go:671-678 | a cached publish decodes to a frame of type 2 with its number and its payload |
| `PubSubSessions.EncodableIff` | pkg/proto/codec.go:19-33 | a publish is refused exactly if it is empty or would not read back |
| `PubSubServer.ProtocolHandler.constructor` | pkg/proto/protocol.go:160-185 | a new handler's tables are empty and its accounts in order |
| `PubSubServer.ProtocolHandler.Heaviest` | pkg/proto/protocol.go:478-494 | the scan finds a heaviest topic, and the empty name only if nothing has any weight |
| `PubSubServer.ProtocolHandler.EnforceCacheBudget` | pkg/proto/protocol.go:478-494 | the loop ends within the budget by evictions, and the reset for drifted accounts is reached only if the empty topic is cached |
| `PubSubServer.ProtocolHandler.RememberPublish` | pkg/proto/protocol.go:460-472 | append, trim to 64 and meet the budget, with the byte count exact; the reset branch is not reached |
| `PubSubServer.ProtocolHandler.DropTopicCache` | pkg/proto/protocol.go:510-532 | cache and counter go exactly when neither a subscriber nor a session holds the topic |
| `PubSubServer.ProtocolHandler.RemoveSubscriber` | pkg/proto/protocol.go:703-718 | the transport leaves the topic, no empty member set stays, and the topic is forgotten if nobody holds it |
| `PubSubServer.ProtocolHandler.TouchSession` | pkg/proto/protocol.go:258-270 | only the connection's own session is refreshed |
| `PubSubServer.ProtocolHandler.HandleSubscribe` | pkg/proto/protocol.go:561-621 | on the tables themselves: the connection is in or out of the topic and of its session's record, everybody else stays, cache and counter go exactly if nobody wants the topic; the reported number is the topic's last; the empty topic changes nothing |
| `PubSubServer.ProtocolHandler.CollectReplay` | pkg/proto/protocol.go:444-454 | the buffers of exactly the cached entries above the cursors, oldest first within each topic |
| `PubSubServer.ProtocolHandler.AttachSession` | pkg/proto/protocol.go:406-438 | resumes exactly a live session under a known token, with its missed frames, and otherwise opens a fresh one |
| `PubSubServer.ProtocolHandler.HandleHello` | pkg/proto/protocol.go:345-388 | accepted once per connection and only for a supported version; token, resume flag and replay as attached |
| `PubSubServer.ProtocolHandler.ReapExpiredSessions` | pkg/proto/protocol.go:223-250 | the sweep ends exactly the expired sessions and takes their transports out of all their topics |
| `PubSubServer.ProtocolHandler.Snapshot` | pkg/proto/protocol.go:649-662 | a publish's first section: the members, and whether anybody holds the topic; it is the entering step of the overlapping calls |
| `PubSubServer.ProtocolHandler.FindCounter` | pkg/proto/protocol.go:664-670 | its second, which is that of finding or creating the counter |
| `PubSubServer.ProtocolHandler.TakeNumber` | pkg/proto/protocol.go:671-675 | its third, outside the lock, which is that of taking a number, whatever has become of the topic |
| `PubSubServer.ProtocolHandler.MintSequence` | pkg/proto/protocol.go:663-670 | the topic's next number, from a counter of its own created on first use |
| `PubSubServer.ProtocolHandler.Publish` | pkg/proto/protocol.go:644-693 | numbered if anybody wants the topic, even when the payload is then refused for being empty or above 2^20 bytes; cached, written to the members, failing members removed, as `PublishMeans` says; the count is of the writes that succeeded |
| `PubSubRuns.StepKeeps` | pkg/proto/protocol.go:80-119 | every event keeps transports and sessions inverse to each other, no empty member set, only held topics cached or counted, caches in order within 64 entries and within the byte budget |
| `PubSubRuns.RunKeeps` | pkg/proto/protocol.go:80-119 | so every state of every run from the empty server satisfies all of that |
| `PubSubRuns.CounterStep` | pkg/proto/protocol.go:510-532 | a counter survives an event exactly when somebody still holds its topic, and a numbered publish raises it by one |
| `PubSubRuns.SequenceRises` | pkg/proto/protocol.go:644-693 | while somebody holds a topic its number grows by exactly the number of publishes to it, so numbers strictly increase |
| `PubSubRuns.CacheStep` | pkg/proto/protocol.go:460-520 | a topic's cache grows only at its end, is trimmed only at its front, or goes as a whole |
| `PubSubRuns.CacheIsNewest` | pkg/proto/protocol.go:460-494 | in every reachable state a cache is the newest 64 of what was encoded for the topic since it was last evicted or dropped |
| `PubSubRuns.RisingMeans` | pkg/proto/protocol.go:460-472 | cached numbers are strictly increasing, none beyond the counter, each on the frame that carries it |
| `PubSubRuns.ReplayIsTail` | pkg/proto/protocol.go:444-454 | the entries above a cursor are exactly a tail of the cache |
| `PubSubRuns.CachedFrameDecodes` | pkg/proto/protocol.go:663-678 | a cached frame decodes, at the client, to the publish with its number |
| `PubSubRuns.ResumeMovesMembers` | pkg/proto/protocol.go:406-438 | a resume puts the new transport into all the session's topics, takes the old one out of all of them and changes no other membership |
| `PubSubRuns.SweepLeavesNoPhantom` | pkg/proto/protocol.go:223-250 | a swept session's transport is in none of its topics and in no index |
| `PubSubRaces.EveryInterleaving` | pkg/proto/protocol.go:644-693 | with publishes overlapping at every lock section the byte budget, the session index and the genuineness of cached frames still hold |
| `PubSubSections.PublishIsSections` | pkg/proto/protocol.go:644-693 | whatever a publish may do to the tables when nothing overlaps it, its sections in a row can do, amid any other calls |
| `PubSubSections.RunIsRace` | pkg/proto/protocol.go:644-693 | every run with each publish as one step ends where some run of lock sections ends, so what holds of all interleavings holds of it |
| `PubSubOverlap.SparedIff` | pkg/proto/protocol.go:478-494 | an eviction can spare a topic exactly when it fits the budget together with everything lighter |
| `PubSubOverlap.RememberLivelyIff` | pkg/proto/protocol.go:675-678 | caching is sure to keep unheld topics uncached exactly when the topic is still held or too heavy to stay |
| `PubSubOverlap.CounterLivelyIff` | pkg/proto/protocol.go:663-670 | creating a counter keeps unheld topics uncounted exactly when the topic is still held |
| `PubSubOverlap.RunLivelyIff` | pkg/proto/protocol.go:644-693 | in every run of overlapping calls, all states keep caches and counters to held topics if and only if no publish counts or leaves a frame cached for an unheld one |
| `PubSubOverlap.AppendOrderIff` | pkg/proto/protocol.go:460-472 | appending keeps a cache in order exactly when its newest number is below the new one |
| `PubSubOverlap.RunOrderedIff` | pkg/proto/protocol.go:644-693 | in every run of overlapping calls, all caches are always in order if and only if no frame is cached behind one numbered later |
| `PubSubOverlap.StepCurrent` | pkg/proto/protocol.go:663-678 | while somebody holds a topic, overlapping publishes never repeat a number and never pass its counter |
| `PubSubOverlap.RunCurrent` | pkg/proto/protocol.go:644-693 | so in a run in which a topic stays held from its first publish on, its frames carry distinct numbers |
| `PubSubTraces.AbandonedCacheReachable` | pkg/proto/protocol.go:649-678 | a run in which the last subscriber leaves mid-publish and a cache and counter stay behind |
| `PubSubTraces.OvertakenReachable` | pkg/proto/protocol.go:663-678 | a run in which two publishes numbered 1 and 2 are cached in the other order |
| `Resilient.AcknowledgeAdds` | pkg/proto/resilient.go:99-133 | acknowledging adds exactly one number to the accepted set and keeps parked numbers beyond the cursor's neighbour |
| `Resilient.FilterIsNonMembership` | pkg/proto/resilient.go:87-97 | the delivery filter is exactly non-membership |
| `Resilient.CursorIsMaximal` | pkg/proto/resilient.go:99-133 | the cursor is the largest number below which everything is accepted |
| `Resilient.TrackerIsTheAcknowledgedSet` | pkg/proto/resilient.go:87-133 | after any acknowledgements in any order, cursor and parked set together are what was acknowledged |
| `Resilient.TrackerIsCanonical` | pkg/proto/resilient.go:56-74 | two trackers that stand for the same set are equal |
| `Resilient.OrderIsIrrelevant` | pkg/proto/resilient.go:99-133 | the order of acknowledgements and repetitions make no difference |
| `Resilient.MissingNumberHoldsTheCursor` | pkg/proto/resilient.go:99-133 | a number never acknowledged keeps the cursor below it and every later number parked |
| `Resilient.AlignLetsFutureThrough` | pkg/proto/resilient.go:285-290 | later publishes pass the filter exactly when the reset was seen or nothing parked lies ahead |
| `Resilient.StaleParkedSwallows` | pkg/proto/resilient.go:285-290 | the parked number 3 of an earlier life swallows the fresh publish 3 |
| `Resilient.PlainCatchesUpIff` | pkg/proto/resilient.go:162-176 | the client that acknowledges nothing is replayed only what it has not seen, and all of it exactly when it has seen every cached publish older than one it has seen |
| `Resilient.PlainSkips` | pkg/proto/resilient.go:162-176 | a client that has seen publish 2 but not publish 1 is never replayed the first, in whichever order they are cached |
| `Resilient.ResilientClient.SetPublishCursor` | pkg/proto/resilient.go:76-82 | raises one topic's cursor, never lowers it |
| `Resilient.ResilientClient.ShouldDeliverPublish` | pkg/proto/resilient.go:87-97 | the filter on the topic's tracker |
| `Resilient.ResilientClient.AcknowledgePublish` | pkg/proto/resilient.go:99-133 | the absorb loop ends and leaves the acknowledged tracker; other topics are untouched |
| `Resilient.ResilientClient.AlignReplayState` | pkg/proto/resilient.go:285-290 | only a lower server number changes anything, and then it clears the parked set |
| `Resilient.ResilientClient.SnapshotCursors` | pkg/proto/resilient.go:136-145 | the reported cursors are those of the trackers |
| `Resilient.ResilientClient.NoteSubscribed` | pkg/proto/resilient.go:257-270 | the topic is recorded and its tracker aligned with the reported number |
| `Resilient.ResilientClient.NoteUnsubscribed` | pkg/proto/resilient.go:293-310 | the topic and all its replay state are forgotten |
| `Resilient.ResilientClient.Swap` | pkg/proto/resilient.go:436-474 | a new client is installed and the old one shut, or the new one is shut because Close came first; none is ever lost |
| `Resilient.ResilientClient.Close` | pkg/proto/resilient.go:336-348 | every client ever installed is shut |
| `EndToEnd.ActGood` | pkg/proto/resilient.go:87-133 | every lock section, write, replayed frame, read, answer of the application, adopted number, lost connection, dial and late handshake keeps what the tracker stands for, and every cursor sent, within what was accepted |
| `EndToEnd.UnacceptedIsRecoverable` | pkg/proto/protocol.go:406-471 | in every run, whatever overlaps, a cached unaccepted publish lies above the cursor, is in the replay of the next handshake and of every handshake still on its way, and passes the filter |
| `AtMostOnce.ActOnceIff` | pkg/proto/resilient.go:184-196 | one action breaks "accepted once, remembered, and in one hand at most" exactly if it lets a frame through that another read loop has in hand, or adopts a number below the cursor |
| `AtMostOnce.AcceptedAtMostOnce` | pkg/proto/resilient.go:178-196 | in every run without such an action each number is accepted at most once |
| `AtMostOnce.OnceIff` | pkg/proto/resilient.go:178-196 | and that invariant holds throughout a run if and only if no action is one of the two |
| `AtMostOnce.DoubleCanBeAcceptedTwice` | pkg/proto/resilient.go:184-196 | whenever a frame passes the filter while another loop has its number, both can go on to be accepted |
| `AtMostOnce.LoweredLetsThroughAgain` | pkg/proto/resilient.go:285-290 | after a number below the cursor is adopted the filter lets exactly the numbers above it through, accepted or not |
| `AtMostOnce.CatchUpAcceptsOnce` | pkg/proto/resilient.go:367-381 | from a state of a careful run in which no handler is running, a resume's catch-up accepts every frame once |
| `AtMostOnce.DoubleReachable` | pkg/proto/resilient.go:367-381 | a run in which a lost connection's handler and the next connection's both accept publish 1 |
| `AtMostOnce.LoweredReachable` | pkg/proto/resilient.go:257-270 | a run in which a subscription's answer is adopted after publish 1 was accepted, and the next resume has it accepted again |
| `Silence.ActKnown` | pkg/proto/protocol.go:663-678 | a frame about to be cached carries a number that nothing sent, cached, accepted or refused carries |
| `Silence.LosesExactly` | pkg/proto/protocol.go:378-399 | one action loses a member a frame exactly if it caches one for a member the publish had not found, or gives up a replay to a member with a cached publish in it that is not accepted, refused, owed or on the wire |
| `Silence.NothingLostIff` | pkg/proto/protocol.go:644-693 | in every run, with publishes, resumes, failed replays and old read loops, no frame is lost to a member if and only if no action does either |
| `Silence.NothingLostInSilence` | pkg/proto/protocol.go:644-693 | in such a run a publish cached since the client subscribed is accepted, in its connection, about to be replayed or written, refused by the application, or the client is not a member |
| `Silence.RiskyIff` | pkg/proto/protocol.go:678-691 | caching is sure to lose nothing exactly when the client is no member, was found by the publish, or the topic is too heavy to stay |
| `Silence.LostFrameReachable` | pkg/proto/protocol.go:649-691 | a run in which a client subscribes mid-publish and is never sent the frame |
| `Silence.AbandonedReplayReachable` | pkg/proto/protocol.go:378-399 | a run in which a replay write fails and the client stays a member without the cached publish |
| `EndToEnd.ResumeCatchesUp` | pkg/proto/protocol.go:406-454 | from any reachable state, with publishes and old read loops under way, dialling, resuming and taking the catch-up leaves exactly what was accepted plus what was cached |
| `EndToEnd.ReplayOfTopic` | pkg/proto/protocol.go:444-454 | however the topics are walked, each one's share of a replay is its newer entries in order |
| `Delivery.ReplayStartsAtTheDial` | pkg/proto/resilient.go:367-381 | a connection dialled in one state and attached in a later one is replayed exactly what is cached then above the cursor the client had when it dialled |
| `Delivery.WireIsFifo` | pkg/proto/client.go:355-373 | until a connection is lost, what was written to it is what was read from it followed by what is on its wire, in that order |
| `Delivery.ReplayInOrder` | pkg/proto/protocol.go:390-399 | until one of its writes fails, a replay is written as it was collected, front to back |
| `Delivery.ReportedIs` | pkg/proto/resilient.go:257-270 | the numbers a subscriber can come to adopt are exactly those the server answered its subscriptions with |
| `Delivery.CatchUpInOrder` | pkg/proto/protocol.go:406-454 | a resume adds to what was accepted exactly what was missing of the cache, in the order of the cache |
| `Delivery.AcceptedIsWhatWasTaken` | pkg/proto/resilient.go:184-196 | the log of acceptances is what the application took, in order |
| `Delivery.RefusedSinceResume` | pkg/proto/resilient.go:178-196 | a number counts as refused exactly if the application refused it since the connection last resumed |
| `Delivery.PardonedSinceJoin` | pkg/proto/protocol.go:561-592 | a number is not promised only because it was cached when the client became a member, and it has not resumed since |
| `Reactor.StepKeepsBase` | pkg/reactor/worker.go:179-328 | every step of callers, loops, handlers and shutdown keeps each sent connection in exactly one place, registered ones open only while listed, and the sweep's work covering what is open |
| `Reactor.OwnedOrOrphan` | pkg/reactor/worker.go:90-111 | a dispatched connection has an owner or is an orphan, never both |
| `Reactor.OrphanedExactlyBy` | pkg/reactor/worker.go:179-197 | a connection is orphaned exactly by a re-check that finds no cancellation while the loop has exited with it queued, and stays so |
| `Reactor.EveryConnectionHasAnOwner` | pkg/reactor/worker.go:90-111 | in every interleaving without a send between a rejection exit and the cancellation, every dispatched connection is closed, held by its caller, at a loop that has not exited, or owned by a handler |
| `Reactor.LateSendCanOrphan` | pkg/reactor/worker.go:220-232 | any such send can be followed by a re-check that orphans the connection |
| `Reactor.OrphanForGood` | pkg/reactor/worker.go:244-255 | no continuation ever closes an orphan |
| `ReactorShutdown.SweepCatchesAll` | pkg/reactor/registry.go:62-74 | once the sweep is over every accepted connection has been closed and no step accepts another |
| `ReactorShutdown.SweptForGood` | pkg/reactor/registry.go:33-41 | and that remains so in every continuation, so a handler that still runs has a closed connection |
| `ReactorShutdown.CountersAreExact` | pkg/reactor/worker.go:134-153 | in every interleaving `active` and every worker's `count` are the numbers of handlers between their two counting steps |
| `ReactorShutdown.CleanShutdown` | pkg/reactor/reactor.go:177-207 | when the loops have exited, calls returned and no handler is active, every connection ever dispatched is closed |
| `ReactorShutdown.VerdictIsFinal` | pkg/reactor/worker.go:142-153 | after the sweep a reading of zero is final exactly when no loop is between registering and counting |
| `ReactorShutdown.VerdictIff` | pkg/reactor/worker.go:142-153 | in every run the verdict is a success exactly if no handler is between being counted and giving its count back when it is read |
| `ReactorShutdown.VerdictWasTrue` | pkg/reactor/reactor.go:188-204 | a run that ends with a verdict has passed through a swept state with all workers cancelled of which it was true |
| `ReactorShutdown.FailedVerdictReachable` | pkg/reactor/reactor.go:195-197 | a run in which a handler does not return and shutdown reports failure |
| `ReactorShutdown.CleanShutdownReachable` | pkg/reactor/reactor.go:177-207 | a run that serves a connection to its end and shuts down with success and nothing left |
| `ReactorShutdown.HandlerCanEnd` | pkg/reactor/worker.go:295-301 | a serving handler can always close, leave the registry and give both counts back |
| `ReactorShutdown.CallerCanGiveUp` | pkg/reactor/worker.go:90-111 | a caller without a worker, or with one cancelled while it waits, can always close its connection and return an error |
| `ReactorShutdown.CallerCanQueue` | pkg/reactor/worker.go:179-197 | a caller can queue while there is room, at the end, and the re-check decides between success and closing it |
| `ReactorShutdown.LoopCanDrain` | pkg/reactor/worker.go:244-255 | a loop that drains closes the first connection queued, or leaves when there is none |
| `ReactorShutdown.QueueIsBounded` | pkg/reactor/worker.go:158-172 | in every run a queue holds at most a hundred connections |
| `ReactorShutdown.CleanVerdictWithOrphan` | pkg/reactor/reactor.go:188-204 | a run whose shutdown reports success with an open connection nobody will close |
| `ReactorShutdown.HandlerAfterCleanVerdict` | pkg/reactor/worker.go:213-236 | a run in which a handler starts after shutdown has reported success |
| `Registry.LifecycleConn.Close` | pkg/reactor/worker.go:274-280 | closes the socket once; every later call is a success that does nothing |
| `Registry.AdmitAdds` | pkg/reactor/worker.go:220-234 | the loop's registration step does to the books what `Add` does |
| `Registry.UnlistRemoves` | pkg/reactor/worker.go:295-301 | the handler's step does to them what `Remove` does |
| `Registry.SweepIsCloseAll` | pkg/reactor/reactor.go:188-191 | the sweep's steps together do to them what `CloseAll` does |
| `Registry.ConnectionRegistry.Add` | pkg/reactor/registry.go:33-41 | accepted and tracked exactly until the registry is closed, and then not at all |
| `Registry.ConnectionRegistry.Remove` | pkg/reactor/registry.go:43-47 | forgets one connection, which if still open nobody will close |
| `Registry.ConnectionRegistry.CloseAll` | pkg/reactor/registry.go:62-74 | closes everything ever accepted but what was removed while open, and the registry for good; the count is of the closes that were a success |
| `Mux.StepKeepsInv` | pkg/proto/client.go:270-409 | every step keeps pending channels untouched, distinct and under their own ids |
| `Mux.AtMostOneAnswer` | pkg/proto/client.go:270-409 | over all interleavings, with ids wrapping around, a channel gets at most one send or one close and never both, and a delivered response has its caller's id |
| `Mux.ReaderNeverStuck` | pkg/proto/client.go:375-409 | in every run the read loop never sends on a full or closed channel and never closes one twice |
| `Mux.AnsweredUnlessLate` | pkg/proto/client.go:355-409 | once the read loop has given up, a waiting caller has something to collect exactly when it registered before |
| `Mux.StrandedForGood` | pkg/proto/client.go:315-321 | a late call without a timeout waits in every continuation |
| `Mux.StrandedReachable` | pkg/proto/client.go:271-281 | a run that strands a caller |
| `MuxCalls.NoEntryAfterClose` | pkg/proto/client.go:270-275 | in every run no call passes the closed check after the client was closed, by its user or by the read loop |
| `MuxCalls.GivenUpIsForgotten` | pkg/proto/client.go:283-340 | in every run, with ids wrapping around, a call that failed has left the table |
| `MuxCalls.TimedOutLeaves` | pkg/proto/client.go:322-340 | a call that times out is dropped and its id is free |
| `MuxCalls.UnencodedLeaves` | pkg/proto/client.go:283-292 | a call that cannot be encoded writes nothing and its id is free |
| `MuxCalls.AnswerReachesItsCaller` | pkg/proto/client.go:375-398 | a response to a waiting call's id is what the call gets |
| `MuxCalls.WholeRequestIsWritten` | pkg/proto/client.go:293-309 | in every run a call that waits or was answered has all frames of its message on the wire, in order, only the last unflagged |
| `MuxCalls.AnsweredReachable` | pkg/proto/client.go:270-320 | a run in which a call gets its answer |
| `Mux.TornExactlyBy` | pkg/proto/client.go:293-309 | a message on the wire is torn exactly by beginning another inside it |
| `Mux.OrderlyIffConsiderate` | pkg/proto/client.go:293-309 | the frames of every message are back to back in exactly the runs in which no call starts writing inside another's message |
| `Mux.TornReachable` | pkg/proto/client.go:293-301 | a single-frame call that writes between another's fragments |
| `Mux.TornIsRejected` | pkg/proto/stream.go:77-82 | the peer's decoder answers such a wire with a stream violation |
| `Mux.StepsOnTable` | pkg/proto/client.go:277-292 | registering, removing and failing do to the table what the class's methods do |
| `Mux.OtherStepsOffTable` | pkg/proto/client.go:270-409 | no other step touches the table, nor does a response to an unknown id |
| `Mux.ResolveOnTable` | pkg/proto/client.go:375-398 | taking a channel out and sending on it together do what `ResolvePending` does |
| `Mux.Client.Register` | pkg/proto/client.go:277-281 | the next id, wrapping at 2^32, and a fresh channel under it |
| `Mux.Client.RemovePending` | pkg/proto/client.go:336-340 | only the given id is forgotten |
| `Mux.Client.ResolvePending` | pkg/proto/client.go:375-398 | a known id's channel is taken out and gets its response; an unknown id changes nothing |
| `Mux.Client.FailPending` | pkg/proto/client.go:402-409 | every pending channel is closed once and forgotten |
| `Ring.StepKeepsInv` | internal/balancer/ip_hashing.go:61-103 | whatever the hashes, the points are those of the members and an owned point belongs to its owner |
| `Ring.LeaveCompleteIff` | internal/balancer/ip_hashing.go:81-103 | after a removal every point still has an owner exactly when no other member shares a point with the one removed |
| `Ring.RingIsItsMembers` | internal/balancer/ip_hashing.go:61-103 | with distinct hashes, after any history the owned points are the members' points and each member owns all of its own |
| `Ring.NextIsUnique` | internal/balancer/ip_hashing.go:36-51 | a hash has one next point clockwise |
| `Ring.LeavingRemapsOnlyOwned` | internal/balancer/ip_hashing.go:81-103 | removing a backend moves only the keys it owned, and moves them away |
| `Ring.JoiningTakesOnlyForItself` | internal/balancer/ip_hashing.go:61-79 | after adding a backend a key keeps its owner or goes to the newcomer |
| `Ring.LeaveUndoesJoin` | internal/balancer/ip_hashing.go:61-103 | removing the backend just added restores the ring |
| `Ring.SharedPointLosesItsOwner` | internal/balancer/ip_hashing.go:89-98 | when one of two members with a common point leaves, a lookup there finds nobody |
| `Ring.NumberedWorkersShare` | internal/balancer/ip_hashing.go:67-71 | workers 1 and 11 have a virtual node in common with more than ten replicas |
| `Ring.OwnerlessPoint` | internal/balancer/ip_hashing.go:81-103 | so once worker 1 has left, the key "worker:110" finds no owner |
| `RingKeys.KnownHashes` | internal/balancer/ip_hashing.go:53-59 | the hash has the published values of FNV-1a for the empty key, "a" and "b" |
| `RingKeys.LastByteCounts` | internal/balancer/ip_hashing.go:53-59 | keys that differ in their last byte only hash differently |
| `RingKeys.ItoaReadsBack` | internal/balancer/ip_hashing.go:67-71 | a virtual node's number is spelled in decimal without a leading zero and reads back |
| `RingKeys.NodesAreSpelledApart` | internal/balancer/ip_hashing.go:67-71 | one backend's virtual nodes are spelled differently |
| `RingKeys.MembersAre` | internal/balancer/ip_hashing.go:61-103 | after any history the members are those registered and not unregistered since |
| `RingKeys.OwnKeyFindsOwner` | internal/balancer/ip_hashing.go:36-79 | with distinct hashes the key that spells a member's virtual node finds that member |
| `RingBalancer.Search` | internal/balancer/ip_hashing.go:44-46 | the binary search finds the first hash at or above the key's |
| `RingBalancer.SearchIsNext` | internal/balancer/ip_hashing.go:44-50 | with the wrap to the front that is the nearest point clockwise |
| `RingBalancer.IPHashingBalancer.constructor` | internal/balancer/ip_hashing.go:24-34 | an empty ring with at least three replicas |
| `RingBalancer.IPHashingBalancer.Next` | internal/balancer/ip_hashing.go:36-51 | an error exactly when nothing is owned; otherwise the owner of the next point clockwise, or nobody if that point lost its owner |
| `RingBalancer.IPHashingBalancer.Register` | internal/balancer/ip_hashing.go:61-79 | the ring with the backend joined, the list sorted, one member more unless it was there |
| `RingBalancer.IPHashingBalancer.Unregister` | internal/balancer/ip_hashing.go:81-103 | the ring with the backend gone, the list sorted, one member fewer; unknown backends change nothing |
| `Weighted.PickIsShare` | internal/balancer/weighted_round_robin.go:40-47 | the subtracting walk gives each backend the interval of its weight behind those before it, so the fallback is never used |
| `Weighted.DrawsAreWeights` | internal/balancer/weighted_random.go:51-58 | of the possible draws exactly as many select a backend as its weight |
| `Weighted.WindowIsFair` | internal/balancer/weighted_round_robin.go:27-48 | any window of total-weight picks selects every backend exactly its weight times |
| `Weighted.CounterIs` | internal/balancer/weighted_round_robin.go:39-39 | the counter after k picks is the start plus k, modulo the total |
| `WeightedBalancers.WeightedRoundRobin.Serve` | internal/balancer/weighted_round_robin.go:27-48 | as many consecutive calls of `Next` as the total weight serve each backend exactly its weight times, wherever the counter stands |
| `WeightedBalancers.WeightedRoundRobin.Next` | internal/balancer/weighted_round_robin.go:27-48 | advances the counter and serves the backend it falls to; one backend is served without counting, none is an error |
| `WeightedBalancers.WeightedRoundRobin.Register` | internal/balancer/weighted_round_robin.go:50-69 | refuses a weight that is not positive, updates a known id in place or appends, and keeps the total exact |
| `WeightedBalancers.WeightedRoundRobin.Unregister` | internal/balancer/weighted_round_robin.go:71-84 | takes out the backend with the id and keeps the total exact |
| `WeightedBalancers.SearchAbove` | internal/balancer/weighted_random.go:52-58 | the search over running totals selects the same backend as the subtracting walk |
| `WeightedBalancers.WeightedRandom.Next` | internal/balancer/weighted_random.go:24-59 | chooses exactly when there are backends and every weight at the last rebuild was positive, and says which of three conditions failed otherwise |
| `WeightedBalancers.WeightedRandom.BuildPreSum` | internal/balancer/weighted_random.go:61-67 | the running totals of the current weights |
| `WeightedBalancers.WeightedRandom.Register` | internal/balancer/weighted_random.go:69-87 | refuses a weight that is not positive, ignores a known id, and otherwise appends and rebuilds |
| `WeightedBalancers.WeightedRandom.Unregister` | internal/balancer/weighted_random.go:89-103 | takes out the backend with the id and rebuilds |
| `Pipeline.LinkedPipeline.constructor` | internal/handler/linked_pipeline.go:68-78 | head and tail, linked both ways |
| `Pipeline.LinkedPipeline.AddFirst` | internal/handler/linked_pipeline.go:88-103 | the handlers stand behind the head in reverse order; links stay inverse, acyclic and as many as `size` |
| `Pipeline.LinkedPipeline.AddLast` | internal/handler/linked_pipeline.go:105-121 | the handlers stand before the tail in order |
| `Pipeline.LinkedPipeline.AddHandler` | internal/handler/linked_pipeline.go:123-154 | where the handlers end up for every position, and the exact conditions of a panic, among them the last position |
| `Pipeline.LinkedPipeline.IndexOf` | internal/handler/linked_pipeline.go:16-27 | the first match, or -1 exactly when there is none |
| `Pipeline.LinkedPipeline.LastIndexOf` | internal/handler/linked_pipeline.go:31-42 | the last match, or -1 exactly when there is none |
| `Pipeline.LinkedPipeline.ContextAt` | internal/handler/linked_pipeline.go:44-56 | the node at the position, or none outside the list |
| `Pipeline.LinkedPipeline.Forward` | internal/handler/node_context.go:90-147 | an inbound event reaches the nearest capable node behind, or nobody when none is capable |
| `Pipeline.LinkedPipeline.Backward` | internal/handler/node_context.go:115-123 | an outbound event reaches the nearest capable node in front |
| `Pipeline.LinkedPipeline.Write` | internal/handler/node_context.go:55-70 | a write from any context but the head's finds a handler |
| `Pipeline.LinkedPipeline.FireException` | internal/handler/node_context.go:127-135 | an exception fired at any context but the tail's finds a handler |

## Assumptions

- Session tokens are fresh, and a topic's counter does not reach the end of its 32-bit range while runs are
  considered (`PubSubRuns.Assumed`). `Mux.AnsweredUnlessLate` is about fewer than 2^32 calls; the other claims
  about the client hold with wrap-around.
- `PubSubServer` and `PubSubRuns` let no other call run inside a publish; the modules named above for overlapping
  publishes do.
- Topics, tokens and connections are names, modelled as numbers with zero for the empty one.
- Clocks, entropy, write failures and connection loss are parameters or free choices of the run.
- `EndToEnd`, `AtMostOnce` and `Silence` follow runs in which the session keeps recording the topic, so the topic is
  not reset, from the moment the server has recorded a first subscription, in any state in which publishes under way
  use the topic's present counter (`PubSubOverlap.RunCurrent` says when that is so).

## Left out

- JSON encoding of messages (pkg/proto/json.go): payloads are opaque bytes.
- The message dispatch by frame type, strict handshake mode and the request handlers of `ProtocolHandler.HandleRead`: single branches.
- The scratch buffer inside a pooled frame: header bytes are read as a value.
- Partial writes: a failed write leaves nothing on the wire in `Mux`.
- Double release of a frame by two owners on the heap: `Pool` takes one release per acquisition, as the ownership notes of the source demand; `PoolRaces` has the second release, on values.
- PoolRaces.RunKeepsApart: a release tests and zeroes the frame in one step, although two users who release one frame at the same moment could both pass the test.
- A pipeline initializer that fails: the handler takes the same closing steps and the process then ends.
- `Reactor.Unregister` and sockets closed from outside the server while queued.
- Timers, deadlines, back-off and the accept loop; liveness that depends on the scheduler.
- PubSubServer.ProtocolHandler.Publish: runs without other calls in between here; overlapping publishes are in `PubSubRaces`, `PubSubOverlap`, `EndToEnd` and `Silence` at lock granularity, on values, and `PubSubSections.PublishIsSections` ties the two.
- Decoder.AppendFragments: how far an array grows when appending is left open; any sufficient capacity is allowed.
- Reactor.StepKeepsBase: the loops and handlers are steps on values, because they run concurrently; only the registry and the connection wrapper are classes.
- Codec.HandleRead: the text of what is logged or reported.
- Weights changed behind a balancer's back, except that weighted random refuses them after a rebuild.
- Random, round-robin, least-connections and adaptive balancers, the executor, the HTTP service, configuration and signal handling: simple scans and single branches.
