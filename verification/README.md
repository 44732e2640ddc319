# CoreDesk: a verified model

CoreDesk indexes a directory tree for search and sends files to other machines. This project models
the parts of it whose correctness is hardest to see from the code, and proves what they promise.
`dafny verify dfyconfig.toml` checks everything.

**File transfer.** `Bytes`, `FrameCodec` and `ChunkCodec` are the wire format. `TransferClient` is the
sending end with the manager that owns it, `TransferServer` the receiving end with its directory, both
as step functions on values. `SendingClient` and `ReceivingServer`, with `Connections` and `Disk`, are the
same two as the objects they are: decoders, open files, the table of live connections, a directory whose
files a handle may lead to as well. Every method is proved to carry out its step on what these objects
stand for, and says what a caller can see of it. `SenderInvariant`, `ReceiverInvariant`,
`NonInterference`, `PublishedFiles`, `SenderDecisions`, `SenderEndings`, `ReceiverDecisions` and
`ReceiverAnswers` say what each end guarantees on its own, whatever the other one sends: which frames it
acts on, what it answers, and with which result a send ends; `PartNameClash` is one run that goes wrong.
`TransferSystem` joins the two by byte streams that may be cut anywhere and proves the end-to-end
theorem, with `HonestReceiver`, `SenderHistory` and `ServerHistory` as its steps. `Delivery` proves that a
transfer comes to its end, with `SenderProgress`, `ReceiverProgress` and `ReliableReceiver`.

**Search.** `Tokenizer` and `IndexBuilder` make snapshots, `Candidates`, `Ranking` and `SearchEngine`
answer queries, `LruCache` keeps answers. The specification of an answer, `SearchEngine.IsAnswer`,
speaks of the records only: which of them match every token, else which names contain the query, and
which of those rank first. `SearchProperties` and `SubstringFallback` derive what a user sees of it.
`Service` is the controller as a state machine in which every locked region is a step, so that every
interleaving of a scan with any number of searches is a run; `ServiceController` is the object.
`Staleness` says what a caller can tell from a reply.

**Concurrency.** `ThreadPool` is the pool as a monitor (section 32.6 of ISO/IEC 14882:2020): each
region that holds the mutex is a step, a wait is a sleep and a wake-up, wake-ups may be spurious, and
`notify_one` may pick any sleeper. `ThreadPoolMonitor` is the object.

Where something is taken for granted it is a parameter or a named predicate:

- `Messages.World` holds SHA-256 (section 6.2 of FIPS 180-4) and the JSON codec as functions;
  `Messages.Faithful` says that messages are validated both ways and decode to what was encoded, and
  `SenderInvariant.SmallControl` that a client's control messages are no longer than a chunk.
  `Delivery.CanTalk` says that the messages of one transfer can be encoded, and answers are short.
- An `Io` value says what the file system and the socket do during one step: failing or partial
  writes, a failing flush or rename, any number of bytes accepted. A rename refuses an existing target,
  as Qt's does; removing a part file that exists succeeds; nobody else writes to the receive directory.
- The file being sent does not change. Sockets are not reused. A timer fires only while its flag is set.
- Tasks of the pool end and do not wait for the pool themselves.
- `std::sort` may order equal elements in any way; nothing depends on which.

Histories (bytes accepted by a socket, frames sent, publications, failures, names used for part files)
are fields of the step models so that invariants can speak of them; the code has no counterpart for
them, and in the objects they are ghost.

Four promises one might expect do not hold, and the exact conditions under which they do are proved:
a failing push loses the good frames it shares with the bad header (`FrameCodec.GoodFrameIsLost`,
`FrameCodec.NoFrameIsLostIff`); the substring fallback is the best of all matches only up to 100 of them
(`SubstringFallback.BestExactlyUpToTheLimit`); a stale flag that is not set does not say that the reply is
for the current snapshot (`Staleness.NotStaleYetSuperseded`, `Staleness.NotStaleMeans`), which comparing
generations does (`Staleness.CurrentIffGenerationsAgree`); a second concurrent shutdown may return before
the drain (`ThreadPool.SecondShutdownIsDrainedIffJoined`), after which a wait_idle helps
(`ThreadPool.WaitIdleAfterShutdownIsFinal`). A fifth is less expected: a published file whose name ends in
`.coredesk.part` is removed by an offer of the name without that ending, even by one that is then rejected
because the part file cannot be opened (`PartNameClash.RejectedOfferRemovesPublishedFile`,
`PublishedFiles.FileSurvivesRun`).

In two places the repository's design document and its code differ, and the model follows the code: a
chunk carries at most 1 MiB less its 44-byte prefix, not a whole MiB (src/protocol/JsonPayload.cpp:19-20),
and a chunk at the wrong offset is answered as an invalid argument, not as a protocol error
(adapters/qt_network/TcpTransferServer.cpp:343-346).

## Model

| member | source | states |
|---|---|---|
| Bytes.ReadAfterWrite | src/protocol/FrameCodec.cpp:24-67 | Reading back a big-endian number of any width gives the number that was written, if it fits the width |
| Bytes.WriteAfterRead | src/protocol/FrameCodec.cpp:24-67 | Writing back a number that was read gives the bytes it was read from |
| Bytes.BigEndianAt | src/protocol/FrameCodec.cpp:38-44 | Byte i of the representation is what the shift by the lower bytes and the mask leave |
| FrameCodec.WriteU16 | src/protocol/FrameCodec.cpp:24-28 | Two bytes of the buffer become the big-endian value; every other byte stays |
| FrameCodec.WriteU32 | src/protocol/FrameCodec.cpp:30-36 | The same for four bytes |
| FrameCodec.WriteU64 | src/protocol/FrameCodec.cpp:38-44 | The same for eight bytes, written by the shifting loop |
| FrameCodec.ReadU16 | src/protocol/FrameCodec.cpp:46-50 | Two bytes combine to the number they represent |
| FrameCodec.ReadU32 | src/protocol/FrameCodec.cpp:52-58 | Four bytes combine to the number they represent |
| FrameCodec.ReadU64 | src/protocol/FrameCodec.cpp:60-67 | The shifting loop yields the number the eight bytes represent |
| FrameCodec.Encode | src/protocol/FrameCodec.cpp:134-158 | Succeeds exactly for known types and payloads up to 1 MiB, with the documented layout; which error otherwise |
| FrameCodec.HeaderFields | src/protocol/FrameCodec.cpp:148-157 | Every header field stands at its offset and reads back, whatever follows the header |
| FrameCodec.HeadOfLayout | src/protocol/FrameCodec.cpp:134-207 | An encoded frame is recognised at the front of any buffer, and nothing past it is consumed |
| FrameCodec.LayoutOfHead | src/protocol/FrameCodec.cpp:165-203 | A frame that is taken off a buffer encodes to exactly the bytes it came from |
| FrameCodec.BadHeader | src/protocol/FrameCodec.cpp:165-190 | A header is bad exactly if no frame starts with it, and the error names its first wrong field |
| FrameCodec.DrainSplit | src/protocol/FrameCodec.cpp:160-207 | Draining a buffer in two goes is draining it at once |
| FrameCodec.DrainCanonical | src/protocol/FrameCodec.cpp:160-207 | The emitted frames, encoded again, and the residual are all the bytes fed; the residual is shorter than a header and a maximal payload |
| FrameCodec.DrainOfLayouts | src/protocol/FrameCodec.cpp:134-207 | The decoder inverts the encoder over any number of frames, whatever follows |
| FrameCodec.DrainOfPrefix | src/protocol/FrameCodec.cpp:160-207 | A prefix of an encoded stream decodes without error to a prefix of the frames |
| FrameCodec.ChunkingIndependence | src/protocol/FrameCodec.cpp:160-207 | Any two ways to cut a stream without a bad header give the same frames and the same residual |
| FrameCodec.BadHeaderUnderEveryCutting | src/protocol/FrameCodec.cpp:160-207 | With a bad header every cutting fails with the same error, at the push that completes that header, having emitted exactly what earlier pushes completed |
| FrameCodec.NoFrameIsLostIff | src/protocol/FrameCodec.cpp:160-207 | All good frames before the bad header come out exactly if the pushes before the failing one reach that header |
| FrameCodec.GoodFrameIsLost | src/protocol/FrameCodec.cpp:165-168 | Any good frame followed by a bad header in the same push is lost |
| FrameCodec.FrameDecoder.Push | src/protocol/FrameCodec.cpp:160-207 | The erasing loop returns and keeps what draining the fed bytes says |
| FrameCodec.FrameDecoder.Reset | src/protocol/FrameCodec.cpp:209-212 | The buffer is empty |
| ChunkCodec.DecodeEncode | src/protocol/JsonPayload.cpp:1165-1213 | Every chunk the encoder accepts survives the wire, within the payload limit |
| ChunkCodec.EncodeDecode | src/protocol/JsonPayload.cpp:1165-1213 | Every payload the decoder accepts is the encoding of what was read from it |
| ChunkCodec.DecodesEncodings | src/protocol/JsonPayload.cpp:1185-1213 | The decoder accepts exactly the encodings of chunks |
| ChunkCodec.AppendBigEndian | src/protocol/JsonPayload.cpp:92-104 | The downward shifting loops append the big-endian bytes |
| ChunkCodec.ReadBigEndian | src/protocol/JsonPayload.cpp:106-122 | The reading loops yield the number the bytes represent |
| ChunkCodec.EncodeFileChunkPayload | src/protocol/JsonPayload.cpp:1165-1183 | Succeeds exactly for a well-formed identifier and data that fits, else says which of the two is wrong; what it builds decodes to the chunk |
| ChunkCodec.DecodeFileChunkPayload | src/protocol/JsonPayload.cpp:1185-1213 | Succeeds exactly on the encoding of some chunk, yielding that chunk; else reports the first of five defects of size, identifier and length |
| ThreadPool.ReachableStatesAreSafe | src/concurrency/ThreadPool.cpp:9-125 | In every run, spurious wake-ups included: every thread in one place, queue bounded and in submission order, every taken task running once or finished, no wake-up lost, every sleeper covered by shutdown's broadcasts |
| ThreadPool.InvStep | src/concurrency/ThreadPool.cpp:27-125 | Each region that holds the mutex keeps all of that |
| ThreadPool.NoLostWakeupStep | src/concurrency/ThreadPool.cpp:34-43 | While somebody sleeps unnotified, work never outnumbers the notifications under way, for workers and submitters; an idle pool has no idle sleeper |
| ThreadPool.TakenInOrder | src/concurrency/ThreadPool.cpp:42-108 | In every run accepted = queued + active + finished, and tasks are taken once each in submission order |
| ThreadPool.ExceptionsAreCounted | src/concurrency/ThreadPool.cpp:111-115 | Over every run the exception count grows by the number of tasks that threw, which are exactly those whose workers reported so; every other task that ended returned |
| ThreadPool.WaitIdleReturnsWhenFinished | src/concurrency/ThreadPool.cpp:47-53 | wait_idle returns only when every accepted task has finished |
| ThreadPool.ShutdownReturnsDrained | src/concurrency/ThreadPool.cpp:55-78 | After the first shutdown call has returned every accepted task is finished and no run accepts another |
| ThreadPool.SecondShutdownIsDrainedIffJoined | src/concurrency/ThreadPool.cpp:59-61 | A further shutdown call returns at once; that all tasks are finished by then is certain, over all runs of all pools, exactly if the first call has joined the workers |
| ThreadPool.WaitIdleAfterShutdownIsFinal | src/concurrency/ThreadPool.cpp:47-61 | What a second caller can do about it: once shutdown has been called and a wait_idle returns, every accepted task is finished and no run accepts another |
| ThreadPool.StuckIsAtRest | src/concurrency/ThreadPool.cpp:27-125 | When no thread inside the pool can move, nothing is left to do and nobody is blocked in a call: no deadlock |
| ThreadPool.InternalRunsEnd | src/concurrency/ThreadPool.cpp:27-125 | Without new calls and spurious wake-ups the pool makes only a bounded number of steps: no livelock |
| ThreadPool.InternalRunsEndAtRest | src/concurrency/ThreadPool.cpp:27-125 | and a run that cannot be continued has left the pool at rest |
| ThreadPoolMonitor.Create | src/concurrency/ThreadPool.cpp:9-20 | A thread count of zero is refused; the queue bound is the one asked for, and one for zero |
| ThreadPoolMonitor.Monitor.SubmitRegion | src/concurrency/ThreadPool.cpp:33-44 | The locked region sleeps, refuses or appends the task and notifies one worker, keeping the invariant |
| ThreadPoolMonitor.Monitor.WaitIdleRegion | src/concurrency/ThreadPool.cpp:49-52 | Leaves only with everything finished |
| ThreadPoolMonitor.Monitor.ShutdownRegion | src/concurrency/ThreadPool.cpp:57-63 | Sets the flag once and tells the first caller from later ones |
| ThreadPoolMonitor.Monitor.BroadcastToWorkers | src/concurrency/ThreadPool.cpp:65 | The first broadcast, outside the mutex |
| ThreadPoolMonitor.Monitor.BroadcastToSubmitters | src/concurrency/ThreadPool.cpp:66 | The second broadcast |
| ThreadPoolMonitor.Monitor.BroadcastIdle | src/concurrency/ThreadPool.cpp:68-77 | After the join: everything is finished when idle waiters are woken |
| ThreadPoolMonitor.Monitor.WorkerRegion | src/concurrency/ThreadPool.cpp:95-109 | Takes the oldest task and becomes active with it, or on an empty queue sleeps, in shutdown exits; a taken task notifies one submitter |
| ThreadPoolMonitor.Monitor.FinishRegion | src/concurrency/ThreadPool.cpp:111-123 | The exception count grows by one exactly if the task threw, the active count falls by one, and an idle pool has finished everything and has no idle sleeper left |
| LruCache.PresentIffRecentlyTouched | include/coredesk/index/LruCache.h:20-57 | Over any puts and gets a key yields its last put value as long as fewer than capacity other keys were put or hit since, and is absent from then on |
| LruCache.HoldsMostRecent | include/coredesk/index/LruCache.h:20-50 | The cache holds the most recently touched keys, in order of recency |
| LruCache.HoldsLatest | include/coredesk/index/LruCache.h:20-50 | What it holds for a key is the value of the last put |
| LruCache.PutThenGet | include/coredesk/index/LruCache.h:20-50 | What has just been put is found, and finding it changes nothing |
| LruCache.Cache.constructor | include/coredesk/index/LruCache.h:15-18 | Starts empty; a capacity of zero counts as one |
| LruCache.Cache.Lookup | include/coredesk/index/LruCache.h:20-30 | List and map refine a recency sequence of distinct keys: a hit moves its entry to the front, a miss changes nothing |
| LruCache.Cache.Insert | include/coredesk/index/LruCache.h:32-50 | Inserts or overwrites at the front; beyond the capacity the least recent entry goes |
| LruCache.Cache.Clear | include/coredesk/index/LruCache.h:52-57 | Leaves nothing |
| Tokenizer.NormalizeIndexText | src/index/Tokenizer.cpp:57-65 | Lower-cases ASCII letters and nothing else, byte by byte |
| Tokenizer.TrimAscii | src/index/Tokenizer.cpp:67-80 | Computes the trimmed text |
| Tokenizer.TrimKeepsMiddle | src/index/Tokenizer.cpp:67-80 | What trimming drops on either side is spaces, and what it keeps neither begins nor ends with one |
| Tokenizer.TrimOfPadded | src/index/Tokenizer.cpp:67-80 | Whatever spaces surround a text, trimming gives the text back |
| Tokenizer.Tokenize | src/index/Tokenizer.cpp:82-107 | The loop with its flushes yields the token sequence |
| Tokenizer.TokensAreRuns | src/index/Tokenizer.cpp:82-107 | The tokens are the maximal separator-free runs, in lower case and cut to 128 bytes, and nothing else |
| Tokenizer.TokensAreTokens | src/index/Tokenizer.cpp:82-107 | Every token is lower-case, separator-free, 1 to 128 bytes long and occurs in the normalised text |
| Tokenizer.TokensOfNormalized | src/index/Tokenizer.cpp:57-107 | Tokens do not depend on letter case |
| Tokenizer.WholeToken | src/index/Tokenizer.cpp:82-107 | A text is one whole token of its own exactly if it is lower-case, separator-free and 1 to 128 bytes long |
| IndexBuilder.NormalizedRecordName | src/index/IndexBuilder.cpp:12-18 | The searched name is file name, space and relative path, normalised |
| IndexBuilder.AddTokensForPath | src/index/IndexBuilder.cpp:20-27 | The record is added under each distinct token of the path, and nothing else changes |
| IndexBuilder.RecordTokensAreRuns | src/index/IndexBuilder.cpp:60-62 | A record is found under exactly the tokens of the runs of its file name, its extension and its relative path |
| IndexBuilder.Pass | src/index/IndexBuilder.cpp:46-63 | The pass numbers the records from one and names them; a record is gathered under a text exactly if that is the token of a run of its file name, extension or relative path; cancelled exactly if one of its polls hits |
| IndexBuilder.BuildPostings | src/index/IndexBuilder.cpp:65-78 | Each token gets its identifiers in ascending order, or the build is cancelled |
| IndexBuilder.SortTokens | src/index/IndexBuilder.cpp:80-82 | The token list is sorted, each token once |
| IndexBuilder.Build | src/index/IndexBuilder.cpp:31-85 | Fails exactly if one of its cancellation polls hits; else a record is in the posting of a text exactly if that is the token of a run of its file name, extension or relative path, postings ascend, the token list is sorted, and numbering and names are in step with the records |
| IndexBuilder.VocabularyByRuns | src/index/IndexBuilder.cpp:65-78 | The tokens polled for and posted are exactly those some record is found under |
| IndexBuilder.AnyPollMeans | src/index/IndexBuilder.cpp:46-78 | A build is cancelled by any one of its polls |
| Candidates.LowerBound | src/index/SearchEngine.cpp:46 | The binary search finds the first token not less than the given one |
| Candidates.ContinuationsAreContiguous | src/index/SearchEngine.cpp:46-52 | The tokens that start with a prefix are exactly those from the lower bound to the first that does not |
| Candidates.MergePrefixPostings | src/index/SearchEngine.cpp:43-57 | The identifiers posted under any listed continuation of the token, each once, ascending; listed tokens without postings are passed over |
| Candidates.CandidatesForToken | src/index/SearchEngine.cpp:59-66 | Exactly the records with the token if any record has it, else with a token that starts with it |
| Candidates.MatchesByRuns | src/index/SearchEngine.cpp:59-66 | What a token asks for, in terms of runs: the records with a run of that token in name, extension or path if there are any, else those with a run whose token starts with it |
| Candidates.IntersectSorted | src/index/SearchEngine.cpp:68-74 | Walking down two ascending lists in step yields exactly what they share, ascending |
| Candidates.IntersectAll | src/index/SearchEngine.cpp:265-272 | Whatever the order by size and however early it stops, the result is what all lists share |
| Candidates.FindCandidates | src/index/SearchEngine.cpp:259-272 | The candidates are exactly the records that match every query token, ascending |
| Ranking.TopHits | src/index/SearchEngine.cpp:162-177 | The selection is the best of the collected hits, in order, as many as the limit allows |
| Sorting.LexByFirstDifference | src/index/SearchEngine.cpp:131-142 | Paths compare where they first differ, a prefix before its continuations |
| Ranking.RankIsTotalPreorder | src/index/SearchEngine.cpp:131-142 | The comparison is a total preorder: by score, then shorter name, then path |
| Ranking.KeysAreDetermined | src/index/SearchEngine.cpp:162-177 | Which keys are selected does not depend on how the sort orders equal hits |
| Ranking.SmallerLimitIsPrefix | src/index/SearchEngine.cpp:162-177 | The keys under a smaller limit are a prefix of those under a larger one |
| Ranking.NoOmittedOutranks | src/index/SearchEngine.cpp:162-177 | No hit left out outranks one returned |
| SearchEngine.ClampLimit | src/index/SearchEngine.cpp:27-33 | The limit in force is the largest one from 1 to 100 that is not above the requested one; a request of zero asks for 100 |
| SearchEngine.CacheKeyInjective | src/index/SearchEngine.cpp:35-41 | Two searches share a cache key only if they agree on query and limit, newlines in queries included |
| SearchEngine.BuildIndexHits | src/index/SearchEngine.cpp:179-196 | The candidates that belong to a record, each scored, then the best of them; others are passed over |
| SearchEngine.BuildSubstringHits | src/index/SearchEngine.cpp:198-210 | The first 100 records whose name contains the query, with score 30, then the best of them |
| SearchEngine.ComputeHits | src/index/SearchEngine.cpp:252-278 | The uncached search meets the specification over all records |
| SearchEngine.SearchEngine.Search | src/index/SearchEngine.cpp:219-284 | What one search answers and does to the cache, in every branch |
| SearchEngine.SearchIsTransparent | src/index/SearchEngine.cpp:219-284 | With a sound cache a search answers as an uncached one on its snapshot may, fails exactly for queries over 256 bytes and with that error, and leaves the cache sound |
| SearchEngine.SearchedForPadded | src/index/SearchEngine.cpp:224-231 | Letter case and surrounding spaces of a query do not matter |
| SearchEngine.AskedAgainIsCached | src/index/SearchEngine.cpp:236-284 | A search asked again on the same index is answered from the cache with the same hits, and the cache stays as it is |
| SearchEngine.SearchEngine.ClearCache | src/index/SearchEngine.cpp:286-289 | Empties the cache |
| SearchProperties.IdsAreDistinct | src/index/SearchEngine.cpp:144-210 | No record is returned twice |
| SearchProperties.ExactQueryFinds | src/index/SearchEngine.cpp:252-278 | If some record is found under every query token, by runs of its name, extension or path, the search collects exactly the records that are |
| SearchProperties.WholeTokenFinds | src/index/SearchEngine.cpp:59-99 | For a query that is one whole token every record with that run in its file name, extension or relative path is collected |
| SearchProperties.HitsAreCollected | src/index/SearchEngine.cpp:162-210 | Every hit was collected, and if the limit allows for all that was, each of them is a hit |
| SearchProperties.AnswerIsRanked | src/index/SearchEngine.cpp:131-177 | Hits come by higher score, then shorter file name, then path, and are as many as limit and matches allow |
| SearchProperties.OmittedRankBehind | src/index/SearchEngine.cpp:162-210 | No collected match that is not returned outranks one that is, in both branches |
| SearchProperties.SmallerLimitReturnsPrefix | src/index/SearchEngine.cpp:27-33 | Under a smaller limit a search returns what ranks first under a larger one, in both branches |
| SearchProperties.ScoreClasses | src/index/SearchEngine.cpp:101-129 | A fallback answer holds only 30s and an indexed one none; 100 and 80 mean equality and prefix of the file name; 60 and 50 never meet, since whether any query token is indexed decides between them for every hit |
| SearchProperties.AgreesWithLinearScan | src/index/SearchEngine.cpp:198-278 | For a query that is one whole token every hit's name contains it, and there is a hit exactly if some name does, given that extensions end file names |
| SubstringFallback.BestWhenFew | src/index/SearchEngine.cpp:198-210 | With at most 100 matches the fallback answers with the best of them all |
| SubstringFallback.BestExactlyUpToTheLimit | src/index/SearchEngine.cpp:203 | For a given number of matches the fallback is the best of all for every index exactly if there are at most 100 |
| Service.CacheIsTransparent | src/service/ServiceController.cpp:240-268 | Under every interleaving of searches with installs and clears an answered search answers for the snapshot it captured as an uncached search on it may, even if an older one stores after the clear |
| Service.InvStep | src/service/ServiceController.cpp:149-268 | Every locked region keeps cache, searches and published snapshots consistent |
| Service.GenerationsIncrease | src/service/ServiceController.cpp:149-175 | Published generations are consecutive from one, and the current snapshot is the latest published |
| Service.PublishedByInstalls | src/service/ServiceController.cpp:171-175 | A run publishes as many snapshots as it has installs, after those already there |
| Service.ScansPublishOnceOrFail | src/service/ServiceController.cpp:64-223 | Every accepted scan publishes exactly one snapshot, or fails and publishes none |
| Staleness.CurrentIffGenerationsAgree | src/service/ServiceController.cpp:242-288 | In every run, at any time after a reply: it is for the current snapshot exactly if its generation is the one the status then reports |
| Staleness.NotStaleMeans | src/service/ServiceController.cpp:253-257 | A flag that is not set says that no scan was under way when it was read, and no more: the snapshot is current later exactly if it was so then and nothing was installed since, which takes a newly accepted scan |
| Staleness.NotStaleYetSuperseded | src/service/ServiceController.cpp:242-269 | A run from the start whose reply is not stale though the status already reports a later generation |
| ServiceController.Controller.StartScan | src/service/ServiceController.cpp:73-83 | Refused in shutdown or while scanning, each with its error; else the state is scanning |
| ServiceController.Controller.InstallSnapshot | src/service/ServiceController.cpp:171-175 | Publishes the snapshot and moves the next generation past it |
| ServiceController.Controller.ClearSearchCache | src/service/ServiceController.cpp:176 | The cache is empty |
| ServiceController.Controller.FinishScanState | src/service/ServiceController.cpp:329-344 | Ready if there is a snapshot, else no index; in shutdown the state is left alone |
| ServiceController.Controller.RunScan | src/service/ServiceController.cpp:106-195 | Fails exactly if the scanner failed or a poll of the build hits, with the error of the first or Cancelled, changing neither snapshot, generation nor cache; success installs a well-formed index of exactly the scanned records under the next generation with an empty cache; afterwards the status says whether there is a snapshot, unless a shutdown was requested |
| ServiceController.Controller.Search | src/service/ServiceController.cpp:240-268 | An uninterrupted search answers for the current snapshot, or reports that there is none |
| ServiceController.Controller.RequestShutdown | src/service/ServiceController.cpp:290-301 | Only the first call goes on, and cancels a scan under way |
| ServiceController.Controller.CompleteShutdown | src/service/ServiceController.cpp:305-312 | The final state says whether there is a snapshot |
| ReceivingServer.TcpTransferServer.constructor | adapters/qt_network/TcpTransferServer.cpp:89-98 | Starts with no connection and no transfer over the given directory |
| ReceivingServer.TcpTransferServer.HandleHelloFrame | adapters/qt_network/TcpTransferServer.cpp:242-263 | The first hello that can be read is acknowledged and completes the handshake; any other costs the connection |
| ReceivingServer.TcpTransferServer.HandleFileOffer | adapters/qt_network/TcpTransferServer.cpp:265-312 | With no transfer active the connection owns one afterwards exactly if the offer can be taken and the answer went out; its part file is then open and empty; every offer is answered, a rejected one with the first thing against it |
| ReceivingServer.TcpTransferServer.HandleFileChunk | adapters/qt_network/TcpTransferServer.cpp:314-369 | The owner's expected chunk is appended to the part file and hashed if all of it can be written; any other ends the transfer, removes the part file and is answered with one FileResult that bears the frame's request, the transfer and the first check that failed; a stranger's chunk changes nothing but costs it the connection, after an answer |
| ReceivingServer.TcpTransferServer.HandleFileFinish | adapters/qt_network/TcpTransferServer.cpp:371-515 | The owner's finish ends the transfer; the target appears with the received bytes exactly if they are all there, hash as offered and can be renamed; the part file is gone either way and the owner gets one FileResult for this request, positive or with the first check that failed; a stranger's finish changes nothing but costs it the connection, after an answer |
| ReceivingServer.TcpTransferServer.Send | adapters/qt_network/TcpTransferServer.cpp:542-573 | Sent exactly if the connection is known, nothing is left over, the frame can be encoded, all that is pending stays within the limit and the socket does not fail; then wire and left-over have grown by its bytes |
| ReceivingServer.TcpTransferServer.BytesWritten | adapters/qt_network/TcpTransferServer.cpp:575-586 | A connection that is to be closed is closed exactly once nothing is left over; else the left-over is scheduled |
| ReceivingServer.TcpTransferServer.FlushRemainder | adapters/qt_network/TcpTransferServer.cpp:604-635 | The connection outlives a flush exactly unless the socket fails or it is to be closed and nothing is left; then no byte is lost and none sent twice |
| ReceivingServer.TcpTransferServer.ReadyRead | adapters/qt_network/TcpTransferServer.cpp:182-203 | The bytes go through the connection's own decoder and the frames are dispatched while the connection lasts; a stream that cannot be decoded costs the connection and its transfer |
| ReceivingServer.TcpTransferServer.HandleDisconnected | adapters/qt_network/TcpTransferServer.cpp:205-212 | A lost connection is forgotten and owns no transfer any more, keeping the invariant |
| ReceivingServer.TcpTransferServer.HandleNewConnection | adapters/qt_network/TcpTransferServer.cpp:159-180 | A new connection gets a record with a decoder of its own; everything else stays, keeping the invariant |
| ReceivingServer.TcpTransferServer.Close | adapters/qt_network/TcpTransferServer.cpp:118-139 | No connection and no transfer is left, nor the part file of one, keeping the invariant |
| Connections.ConnectionTable.Push | adapters/qt_network/TcpTransferServer.cpp:189-191 | The bytes go to the decoder of that connection, and no other connection changes |
| Connections.ConnectionTable.Hand | adapters/qt_network/TcpTransferServer.cpp:563-571 | What the socket does not take of a frame is kept for a flush; no other connection changes |
| Connections.ConnectionTable.Forget | adapters/qt_network/TcpTransferServer.cpp:711 | The table forgets the connection, whose history stays as that of a closed one |
| Disk.ReceiveDirectory.Create | adapters/qt_network/TcpTransferServer.cpp:444-447 | A new empty file by that name, which the handle leads to |
| Disk.ReceiveDirectory.Write | adapters/qt_network/TcpTransferServer.cpp:360-364 | What is written through the handle is what the name then leads to; no other file changes |
| Disk.ReceiveDirectory.Rename | adapters/qt_network/TcpTransferServer.cpp:490 | The file goes on under the new name, which must be free; a handle keeps leading to it |
| ReceiverInvariant.EveryRunIsSafe | adapters/qt_network/TcpTransferServer.cpp:182-712 | Over any mix of connections, malformed frames, failed sends and disconnects: the active transfer has a live owner past the handshake; its part file holds the hashed bytes, as many as the expected offset and at most those offered; targets appear only with the offered size and hash; no part file outlives its transfer; success is reported only of published transfers |
| ReceiverInvariant.InvStep | adapters/qt_network/TcpTransferServer.cpp:182-712 | Every event keeps all of that |
| ReceiverInvariant.SendFrameKeeps | adapters/qt_network/TcpTransferServer.cpp:542-573 | and so does sending: what the socket accepted and the left-over are the frames sent, in order |
| ReceiverInvariant.PublishKeeps | adapters/qt_network/TcpTransferServer.cpp:484-501 | and publishing, even when the report of success cannot be sent |
| ReceiverDecisions.SendDecision | adapters/qt_network/TcpTransferServer.cpp:542-573 | A control frame goes out exactly if nothing is left over, it can be encoded, all that is pending stays within 256 KiB and the socket does not fail |
| ReceiverAnswers.SendAnswers | adapters/qt_network/TcpTransferServer.cpp:637-693 | A message goes out as one frame of its kind that answers the request and decodes to it, exactly if it can be encoded and the frame can be sent; else the connection is lost |
| ReceiverAnswers.FailAnswers | adapters/qt_network/TcpTransferServer.cpp:504-515 | Whoever fails a transfer gets one FileResult with the request, the transfer, ok = false and the reason, and the connection survives exactly if that can be sent |
| ReceiverAnswers.RejectDismisses | adapters/qt_network/TcpTransferServer.cpp:517-526 | Whoever owns no transfer gets its answer, and the connection is closed once nothing of it is left |
| ReceiverDecisions.ChunkDecision | adapters/qt_network/TcpTransferServer.cpp:314-369 | The owner's chunk is appended exactly if it has the right identifier, offset and size and the write is complete; any other ends the transfer without its part file, and the owner is told which of identifier, offset, bounds or write failed first |
| ReceiverDecisions.FinishDecision | adapters/qt_network/TcpTransferServer.cpp:371-515 | The owner's finish publishes exactly the complete transfer with the offered size and hash; any other ends it, and the owner is told which of payload, identifier, size, flush, hash or rename failed first |
| ReceiverDecisions.OfferDecision | adapters/qt_network/TcpTransferServer.cpp:265-463 | With none active an offer begins a transfer exactly if it is well formed, its target is free, the part file opens and the answer can be sent; which files there are then |
| ReceiverDecisions.OfferIsAnswered | adapters/qt_network/TcpTransferServer.cpp:265-312 | Every offer is answered: accepted exactly if it can be taken, else rejected for the first of payload, busy, directory, target and part file that stands against it |
| ReceiverDecisions.StrangerDecision | adapters/qt_network/TcpTransferServer.cpp:314-408 | A chunk or finish from a connection that owns no transfer changes neither transfer nor files; it is answered, and the connection closed |
| ReceiverDecisions.HelloDecision | adapters/qt_network/TcpTransferServer.cpp:242-263 | The first readable hello is acknowledged, and the connection has then shaken hands |
| ReceiverDecisions.ClosingDecision | adapters/qt_network/TcpTransferServer.cpp:575-586 | Bytes written: a connection that is to be closed is, exactly once nothing is left over |
| ReceiverDecisions.FlushDecision | adapters/qt_network/TcpTransferServer.cpp:604-635 | When a connection outlives a flush, and that nothing is lost if it does |
| ReceiverDecisions.OutOfTurnCloses | adapters/qt_network/TcpTransferServer.cpp:214-263 | A frame out of turn costs the connection, and with it its transfer |
| PublishedFiles.FileSurvivesUnlessNameIsTaken | adapters/qt_network/TcpTransferServer.cpp:439-447 | A file other than the active part file comes through the handling of a frame exactly if the frame is not an offer that passes the target checks and whose part file takes its name, accepted or not |
| PublishedFiles.FileSurvivesRun | adapters/qt_network/TcpTransferServer.cpp:439-447 | and it is there throughout a run exactly if no such offer is in the run |
| PartNameClash.RejectedOfferRemovesPublishedFile | adapters/qt_network/TcpTransferServer.cpp:439-449 | A run that publishes a file and at whose end it is gone, by an offer of another name that was rejected |
| NonInterference.OthersDoNotInterfere | adapters/qt_network/TcpTransferServer.cpp:214-408 | From accept to terminal result, deleting everything other connections do leaves transfer, part file, target and the owner's connection as they were |
| NonInterference.OthersEvent | adapters/qt_network/TcpTransferServer.cpp:392-399 | One event of another connection leaves the owner's view alone |
| HonestReceiver.HonestDispatch | adapters/qt_network/TcpTransferServer.cpp:314-502 | Facing an honest sender nothing but the receiver's own file system fails the transfer, and the part file holds the source up to the offset |
| SendingClient.HashFile | adapters/qt_network/TcpTransferClient.cpp:71-87 | Hashing a file read in pieces is hashing its contents |
| SendingClient.SourceFile.Read | adapters/qt_network/TcpTransferClient.cpp:584 | The next piece of the file, of at most 256 KiB, and the position moves by its length |
| SendingClient.TcpTransferClient.SendFrame | adapters/qt_network/TcpTransferClient.cpp:740-762 | Sent exactly if connected, nothing is left over, the frame can be encoded and the socket does not fail, each with its own error otherwise; then wire and left-over have grown by its bytes |
| SendingClient.TcpTransferClient.WriteLeftOver | adapters/qt_network/TcpTransferClient.cpp:655-662 | What the socket takes of the left-over moves to the wire; no byte is lost or sent twice |
| SendingClient.TcpTransferClient.LetGo | adapters/qt_network/TcpTransferClient.cpp:620-627 | The socket lets go of bytes: a waiting pump is scheduled exactly once there is room below the mark |
| SendingClient.Outgoing.constructor | adapters/qt_network/TcpTransferClient.cpp:91-111 | Starts idle, with nothing sent |
| SendingClient.Outgoing.StartSending | apps/service/transfer/TransferManager.cpp:149-222 | Accepted exactly if no send is active, the path leads to a readable regular file, and host and port are given; a refusal says why and changes nothing, an accepted send gets a client of its own |
| SendingClient.Outgoing.Stop | apps/service/transfer/TransferManager.cpp:100-106 | An active send ends as cancelled, and the client lets go of socket and file; without one nothing is completed |
| SendingClient.Outgoing.Connected | adapters/qt_network/TcpTransferClient.cpp:251-257 | The client greets with its request identifier, or the send ends with what kept it from doing so |
| SendingClient.Outgoing.HashDone | adapters/qt_network/TcpTransferClient.cpp:513-545 | A stale or unwanted hash is dropped; else the file is opened and offered by name, size and hash, or the send ends with the first thing in the way |
| SendingClient.Outgoing.Pump | adapters/qt_network/TcpTransferClient.cpp:566-606 | A firing at or above the mark sends nothing; below it the next chunk goes out or, after the last one, the finish, or the send ends with the error of file, encoder or socket |
| SendingClient.Outgoing.Flush | adapters/qt_network/TcpTransferClient.cpp:642-669 | A flush ends the send exactly if something is left over and the socket fails; else no byte is lost and what is still left over waits for the next one |
| SendingClient.Outgoing.Dispatch | adapters/qt_network/TcpTransferClient.cpp:314-466 | The acknowledgement of this hello, the accept of this offer and the positive result of this finish lead on; a reject of this offer and a negative result complete the send with exactly the error they carry, any other frame with the error of its kind; nothing completes without an active send |
| SendingClient.Outgoing.SocketError | adapters/qt_network/TcpTransferClient.cpp:300-312 | An active send ends with a connection error, and the client lets go of socket and file |
| SendingClient.Outgoing.BytesWritten | adapters/qt_network/TcpTransferClient.cpp:620-627 | A waiting pump is scheduled exactly once there is room below the mark, keeping the invariant |
| SendingClient.Outgoing.Disconnected | adapters/qt_network/TcpTransferClient.cpp:275-298 | An active send ends for the lost connection, and the client lets go of socket and file |
| SendingClient.Outgoing.ReadyRead | adapters/qt_network/TcpTransferClient.cpp:259-273 | What has arrived goes through the client's own decoder and every frame is dispatched; a stream that cannot be decoded ends the send |
| SenderInvariant.InvStep | adapters/qt_network/TcpTransferClient.cpp:154-762 | Every event, whatever the other side sends, keeps the sender's invariant |
| SenderInvariant.PumpNeverStalls | adapters/qt_network/TcpTransferClient.cpp:566-669 | In every reachable sending state the pump is scheduled, or a left-over waits for a scheduled flush, or the socket holds at least 2 MiB whose draining wakes the pump |
| SenderInvariant.DrainWakesPump | adapters/qt_network/TcpTransferClient.cpp:608-627 | Waiting for the socket, the pump is scheduled by exactly the drain that brings it below the mark |
| SenderInvariant.PumpIsNeverBusy | adapters/qt_network/TcpTransferClient.cpp:745-747 | A firing pump never finds the previous frame unaccepted |
| SenderInvariant.StreamIsConserved | adapters/qt_network/TcpTransferClient.cpp:642-682 | While a transfer is live the accepted bytes and the left-over are the encoded frames in order, pending bytes stay below 2 MiB and one frame, and no left-over is stranded |
| SenderInvariant.CompletedExactlyOnce | apps/service/transfer/TransferManager.cpp:149-254 | At every step accepted sends are completions and the active one, and no ended client leaves a send active |
| SenderInvariant.ScriptGrows | adapters/qt_network/TcpTransferClient.cpp:566-606 | Frames go out in the order hello, offer, chunks of the source without gap, finish after the last |
| SenderDecisions.HandshakeDecision | adapters/qt_network/TcpTransferClient.cpp:336-356 | Exactly the acknowledgement of this hello leads on, if the file is there; any other frame ends the send, with which error |
| SenderDecisions.AcceptDecision | adapters/qt_network/TcpTransferClient.cpp:358-430 | Exactly the accept of this offer starts the sending; its reject ends the send with exactly the error it carries, and any other frame with an error of the client |
| SenderDecisions.ResultDecision | adapters/qt_network/TcpTransferClient.cpp:432-466 | Every frame ends the send: with success exactly the positive result for this finish, with its own error the negative one, and any other with which error |
| SenderDecisions.SurpriseDecision | adapters/qt_network/TcpTransferClient.cpp:314-466 | Where no frame is awaited any frame ends the send, with which error |
| SenderDecisions.PumpSendsNext | adapters/qt_network/TcpTransferClient.cpp:579-605 | Below the mark a firing sends the next chunk or, after the last one, the finish |
| SenderEndings.SendOrError | adapters/qt_network/TcpTransferClient.cpp:740-762 | A frame goes out unless one of four things keeps it, and the first of them is the error |
| SenderEndings.GreetingDecision | adapters/qt_network/TcpTransferClient.cpp:468-483 | The hello goes out, or the send ends with the reason |
| SenderEndings.HashDecision | adapters/qt_network/TcpTransferClient.cpp:513-545 | The offer goes out under the identifiers later answers must bear, or the send ends with the reason, or a stale hash is dropped |
| SenderEndings.PumpDecision | adapters/qt_network/TcpTransferClient.cpp:566-606 | Every firing of a scheduled pump: rests, sends the next frame of the script, or ends the send with the reason |
| SenderEndings.FlushDecision | adapters/qt_network/TcpTransferClient.cpp:642-669 | Every scheduled flush: no byte is lost, or the send ends with the reason |
| SenderEndings.EndingDecision | adapters/qt_network/TcpTransferClient.cpp:275-312 | Stop, a lost connection and a socket error end an active send, each with its own error |
| SenderEndings.BadStreamEnds | adapters/qt_network/TcpTransferClient.cpp:259-268 | A stream that cannot be decoded ends the send |
| SenderHistory.DispatchAnswers | adapters/qt_network/TcpTransferClient.cpp:314-466 | A frame completes a send with success only if it confirms the identifier that was offered |
| TransferSystem.EndToEnd | adapters/qt_network/TcpTransferClient.cpp:566-762 | For every source, every pattern of partial writes and every cutting of the streams: a send completed with success has published exactly the source under its name, still there unless that name was taken for a part file after the publication; nothing but the receiver's own file system ever failed the transfer; its part file always holds the source up to the expected offset |
| Delivery.SendEndsDelivered | adapters/qt_network/TcpTransferClient.cpp:468-762 | Liveness: without failures and with nothing else for the receiver to do, every run of a send is over after a bounded number of steps, and one that cannot go on has succeeded, with the source there under its name |
| Delivery.SomethingIsGood | adapters/qt_network/TcpTransferClient.cpp:566-669 | As long as such a send is under way some step of it is possible: no deadlock between pump, left-overs, handshake and answers |
| Delivery.GoodStep | adapters/qt_network/TcpTransferClient.cpp:468-762 | Each step of such a send keeps sender and receiver in step and leaves less to do |
| ReceiverProgress.FrameServed | adapters/qt_network/TcpTransferServer.cpp:214-502 | A reliable receiver takes each frame of an honest script and gives the one answer it calls for |
| TransferSystem.ConfirmedMeansDelivered | adapters/qt_network/TcpTransferServer.cpp:495-502 | A result that confirms a transfer was sent after its publication |
| TransferSystem.InvStep | adapters/qt_network/TcpTransferServer.cpp:314-502 | Every event at either end and every delivery keeps both ends in step |

## Left out

- The user interface, the command line, the benchmarks and the build: presentation and wiring.
- JSON text and its field readers: messages are values of a datatype, and the codec is a parameter.
- `LocalIpcClient` and `LocalIpcServer`: dispatch around the same frame codec.
- `FileScanner`: its records are arbitrary input. Where it matters the extension is a suffix of the file name, as the scanner splits names (src/filesystem/FileScanner.cpp:242-243).
- The texts of error messages: errors carry the source's codes and a fixed text for each place they arise.
- Logging, progress callbacks, elapsed times, and the mapping of hits to the fields of a search response.
- Paths are byte strings; the conversion of a path to generic UTF-8 (src/index/Tokenizer.cpp:46-55) is not part of this model.
- Wrap-around of generations at 2^64 and of record counts; request identifiers do wrap.
- `cancel_scan` and `status`, which read or set one field: a cancellation is any answer of the polls.
- Two `start_scan` calls that race for the thread object: the model starts a scan only by the locked region.
- The empty task, which `submit` refuses before it takes the mutex (src/concurrency/ThreadPool.cpp:29-31).
- The client's public `send_file_offer` without a file, and a client used for more than one connection: the manager makes a new client for every send and sends exactly one file with it.
- The client's `offer_state`, which is reported but decides nothing.
- Signals that Qt delivers inside a handler: a disconnect that happens at once is part of the step that asks for it at the receiving end, and the next step at the sending end.
- Timers left over from a transfer that has ended; their handlers find nothing to do.
- A part file that cannot be removed, and files changed by other programs.
- The list iterators of the cache map: the model finds a node by walking the list.
- The in-place algorithms of `std::sort` and `std::partial_sort`: what they promise is proved of an insertion sort.
- The order in which hash tables are traversed, which is arbitrary and fixed only by what it covers.
- Delivery.SendEndsDelivered: no other connection acts meanwhile, because one whose offer comes first holds the only transfer and this send is then refused, as it should be.
- Connections refused by the system, and a host that cannot be reached, are socket errors; looking up the host is not part of this model.
