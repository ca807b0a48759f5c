# Verification of the 0-stor client and its storage formats

This project models the storage engine of the 0-stor client and the formats that make its results
findable again, and proves what the design promises of them. All files form one Dafny program;
`dafny verify dfyconfig.toml` checks it.

## What is modelled

**Goroutine networks.** `Network` is a step relation for a producer, any number of worker groups
connected by bounded channels, a closer per group, a sink, an error group and a shared context that is
cancelled by the first error. One step is one receive, send, call, close or return; the schedule is
arbitrary. `NetworkSafety` proves over all runs that nothing is lost, doubled or mixed up and that an
error has a cause, `NetworkProgress` that no reachable state is stuck and that a measure falls on every
step. The splitter's Write, Read, Check and Repair, the part reader of erasure-coded chunks and the
replica checker are instances.

**Races.** `Race` is the other protocol: workers compete for requests (parts or tokens) and for one-shot
resources (shards or objects). Its theorems are counting arguments: a race for n requests is won if and
only if at least n resources are good, under every schedule, and the results match requests and resources
one to one.

**Chunk storage.** `Erasure`, `Distributed`, `Replicated`, `ReplicatedRepair` and `ShardCluster` state
when chunk operations succeed and what the shards then hold. The Reed–Solomon library appears as the
promise it makes (any k correct parts restore the data parts); `ParityCode` keeps that promise with one
additive parity part, so it can be kept.

**Pipelines.** `Splitter`, `SplitterWrite`, `SplitterRead`, `SplitterChecks` and `EndToEnd`: the read loop,
the collector with its growing buffer, the re-ordering composer, and the theorem that what is written is
read back through both pipelines and the damaged storage.

**Metadata on the wire.** `Wire`, `Codec`, `Marshal`, `MarshalTo` and `Buffers` follow the Protocol
Buffers encoding ("Base 128 Varints" and "Message Structure" of its specification). Encoded metadata is a
sequence of records with a meaning defined without bytes; parsing is proved to find that meaning. `Grammar`
says which bytes are metadata at all, and the parsers are proved to accept exactly these.

**Linked metadata.** `Linked` is a machine of concurrent Write, WriteLinked and Repair calls over a store
with conflict detection, `Commits` says what each of its steps changes field by field, and `StaleRepair` what
a retried Repair does to a Write; `Traverse` has the iterators over the resulting chains.

**Server.** `Crc`, `CrcValues` and `ObjectEncoding` are the checksummed blob, `Sequences` and `Keys` the leased
sequence cache and the keys made from its numbers.

`Metatypes`, `Lists` and `Scatter` hold what the others share.

Modelling decisions: goroutines of one group are interchangeable, so a group is a number of idle
goroutines and the items the others hold. What a call to a shard, processor or writer answers is a
parameter that is fixed per item (for shards: during one operation). Random choices, clocks and hash
functions are parameters. Integers are unbounded except in the codec, where the 64 bit words and the 32
bit field numbers are written out. An empty byte string stands for a nil one.

Where the code does less than its comments say it is kept as it is, with an input that shows it and the
condition under which it does not happen:

- The splitter forgets bytes that a reader returns together with the end of the stream
  (`Splitter.StreamCanVanish`, `Splitter.SplitterKeepsAllIff`, `EndToEnd.VanishedIsNotReadBack`).
- Unmarshalling into metadata that already has chunks keeps those chunks if the encoded metadata has none
  (`Marshal.RoundTripInto`), so that a retried WriteLinked can commit chunks that an empty Write has
  replaced (`Linked.EmptyWriteLeaks`, `Linked.RetryKeepsSizesIff`).
- A plain Write over a node that another one links to leaves a link to a node that does not link back
  (`Linked.PlainWriteBreaksLink`, `Linked.LinksOkIff`).
- A Repair whose transaction is retried puts the chunks it has repaired over those of a Write that came in
  between (`StaleRepair.RetriedRepairUndoesWrite`, `StaleRepair.LastWriteStaysIff`).
- A replicated repair of a single object returns it as it is, however many copies are wanted
  (`ReplicatedRepair.RepairCountIff`).
- A replicated repair that finds only objects of a wrong size copies the last one it read and reports
  success (`ReplicatedRepair.RepairCanSpreadWrongData`, `ReplicatedRepair.RepairKeepsSizeIff`).
- A sequence whose renewal fails to commit goes on with the lease it did not get, so that numbers, and keys
  made from them, come out twice (`Sequences.OneLostCommitDoubles`, `Sequences.NewNumbersIff`).

## Model

| member | source | states |
|---|---|---|
| `NetworkSafety.ReceivedSound` | client/datastor/pipeline/async_splitter.go:132-276 | in every reachable state, failing runs included, the sink holds no item twice, and each with exactly the value its stages compute from the input of that index |
| `NetworkSafety.NoErrorNoLoss` | client/datastor/pipeline/async_splitter.go:132-276 | when all goroutines have returned without error and the sink did not leave early, every input was delivered exactly once |
| `NetworkSafety.ErrorHasCause` | client/datastor/pipeline/async_splitter.go:132-276 | an error always goes back to the reader, a failing call or the sink; cancellation alone never makes one |
| `NetworkSafety.FirstErrorIsKept` | client/datastor/pipeline/async_splitter.go:526-615 | when only workers can fail, the error of a network is that of the first call that failed, which the schedule decides |
| `NetworkProgress.DeadlockFree` | client/datastor/pipeline/async_splitter.go:132-270 | every reachable state in which some goroutine has not returned has an enabled step, also after errors and cancellation |
| `NetworkProgress.StepBurnsFuel` | client/datastor/pipeline/async_splitter.go:132-270 | a measure falls on every step of every goroutine |
| `NetworkProgress.RunsAreBounded` | client/datastor/pipeline/async_splitter.go:132-270 | no run from a state is longer than the measure of that state |
| `NetworkProgress.EveryRunCompletes` | client/datastor/pipeline/async_splitter.go:132-270 | from every reachable state there is a run at whose end all goroutines have returned |
| `NetworkProgress.MaximalRunsComplete` | client/datastor/pipeline/async_splitter.go:132-270 | every schedule is finite, and when it cannot be continued all goroutines have returned |
| `EndToEnd.WriteNeverHangs` | client/datastor/pipeline/async_splitter.go:127-276 | Write makes progress in every reachable state, no run exceeds its bound, and a schedule that cannot be continued has all goroutines returned, whatever fails |
| `EndToEnd.ReadNeverHangs` | client/datastor/pipeline/async_splitter.go:317-503 | the same for Read |
| `Splitter.SplitStream` | client/datastor/pipeline/async_splitter.go:804-830 | the read loop with its reused buffer: one block per read before the one that ends the stream, in order, with exactly its bytes and at most chunkSize of them; an error exactly if that read failed |
| `Splitter.CutDelivers` | client/datastor/pipeline/async_splitter.go:804-830 | what the reader handed over is the blocks, in order, and then what its ending read carried |
| `Splitter.SplitterKeepsAllIff` | client/datastor/pipeline/async_splitter.go:811-817 | the blocks are everything that was handed over if and only if the ending read carried no bytes |
| `Splitter.StreamCanVanish` | client/datastor/pipeline/async_splitter.go:811-817 | any data that comes in one read together with the end leaves no block and no error |
| `SplitterWrite.CollectChunks` | client/datastor/pipeline/async_splitter.go:226-275 | for any arrival order the buffer, regrown as needed, ends up with chunk i in slot i, and the count test is that of the specification |
| `SplitterWrite.GrowKeeps` | client/datastor/pipeline/async_splitter.go:241-247 | regrowing the buffer keeps every slot that was filled |
| `SplitterWrite.GapTestExact` | client/datastor/pipeline/async_splitter.go:253-265 | for distinct indices, received = max + 1 holds exactly if there are no gaps |
| `SplitterWrite.WriteExact` | client/datastor/pipeline/async_splitter.go:127-276 | over every interleaving, Write fails exactly if the reader, a processor or the storage does; otherwise chunk i is the stored form and the hash of the i-th block |
| `SplitterWrite.WriteStreamExact` | client/datastor/pipeline/async_splitter.go:127-276 | Write of a stream fails if and only if the reader broke off, or the processor or the storage refused what some read returned; otherwise chunk i has the hash of read i and says where its processed form is |
| `SplitterRead.Composer.constructor` | client/datastor/pipeline/async_splitter.go:468-474 | nothing expected but block 0, nothing buffered, nothing written |
| `SplitterRead.Composer.Accept` | client/datastor/pipeline/async_splitter.go:475-482 | after each arrival the output is all blocks before the first missing one, in order, up to a failing write; false exactly if a write failed |
| `SplitterRead.Composer.Flush` | client/datastor/pipeline/async_splitter.go:483-495 | the due block and all buffered ones that follow it go out |
| `SplitterRead.OutputIsPrefix` | client/datastor/pipeline/async_splitter.go:425-502 | at every step of every run, failing ones included, the output is a prefix of the hash-verified blocks in order |
| `SplitterRead.ReadExact` | client/datastor/pipeline/async_splitter.go:335-503 | the network of Read fails exactly if a chunk cannot be fetched, unprocessed or verified, or a write fails; otherwise all blocks are out, in order |
| `SplitterRead.ReadCallExact` | client/datastor/pipeline/async_splitter.go:317-503 | every call of Read, for any number of chunks and any schedule, succeeds if and only if there is a chunk, every chunk can be fetched and verified and no write fails; the output is then the blocks in order |
| `SplitterChecks.PerChunkExact` | client/datastor/pipeline/async_splitter.go:524-597 | the shared network of Check and Repair fails exactly if one of its calls does, and otherwise every result arrives once |
| `SplitterChecks.FoldFlags` | client/datastor/pipeline/async_splitter.go:590-597 | the result fetcher computes whether all flags are set |
| `SplitterChecks.CheckExact` | client/datastor/pipeline/async_splitter.go:506-619 | Check, for any number of chunks, any answers of the storage and any schedule: Optimal and Valid are the worst status of all chunks, Invalid is that of some chunk, an error that of some call or of an empty list |
| `SplitterChecks.CheckIsWorst` | client/datastor/pipeline/async_splitter.go:506-619 | so, when no storage call fails, Check answers the worst status of all chunks, under every schedule |
| `SplitterChecks.CollectRepaired` | client/datastor/pipeline/async_splitter.go:705-716 | results in any order end up in the slots of their chunks with the original hashes |
| `SplitterChecks.RepairExact` | client/datastor/pipeline/async_splitter.go:623-721 | Repair fails exactly if the repair of some chunk does; otherwise index i holds chunk i's repaired configuration and chunk i's hash |
| `SplitterChecks.RepairCallExact` | client/datastor/pipeline/async_splitter.go:622-721 | the same for every call of Repair: no chunks are refused, and a single one is repaired without goroutines |
| `SplitterChecks.PerChunkReturns` | client/datastor/pipeline/async_splitter.go:526-721 | Check and Repair make progress in every reachable state, no run exceeds its bound, and a schedule that cannot be continued has all goroutines returned |
| `EndToEnd.ChunkSurvives` | client/datastor/pipeline/storage/distributed.go:89-373 | a chunk that lost up to m objects after it was written is read back, whatever both schedules were |
| `EndToEnd.WrittenIsReadBack` | client/datastor/pipeline/async_splitter.go:127-503 | for every stream: after a Write without error and the loss of up to m objects per chunk, a Read succeeds if and only if there was a block, and outputs exactly the blocks; it gives back all bytes if and only if there was a block and the ending read carried none |
| `EndToEnd.VanishedIsNotReadBack` | client/datastor/pipeline/async_splitter.go:317-320 | a stream whose first read ends it, with or without bytes, is written without error and refused by Read |
| `Race.ResultsMatch` | client/datastor/pipeline/storage/distributed.go:89-230 | at every moment the results pair distinct requests with distinct good resources |
| `Race.RaceResult` | client/datastor/pipeline/storage/distributed.go:89-230 | a finished race served all requests if and only if there are as many good resources; a race that does not give up serves as many as possible |
| `Race.DeadlockFree` | client/datastor/pipeline/storage/distributed.go:89-230 | every reachable state in which a goroutine is left has an enabled step |
| `Race.StepBurnsFuel` | client/datastor/pipeline/storage/distributed.go:89-230 | a measure falls on every step |
| `Race.RunsAreBounded` | client/datastor/pipeline/storage/distributed.go:89-230 | no run is longer than the measure of its first state |
| `Race.EveryRunCompletes` | client/datastor/pipeline/storage/distributed.go:89-230 | from every reachable state there is a run at whose end all goroutines have returned |
| `Race.MaximalRunsComplete` | client/datastor/pipeline/storage/distributed.go:89-230 | every schedule is finite, and when it cannot be continued all goroutines have returned |
| `Erasure.PadLen` | client/datastor/pipeline/storage/distributed.go:741-749 | less than 256 k bytes of padding, and the padded length is a multiple of 256 k |
| `Erasure.SplitData` | client/datastor/pipeline/storage/distributed.go:720-739 | the parts are the slices of the padded data, all in range |
| `Erasure.SlicesCover` | client/datastor/pipeline/storage/distributed.go:720-728 | the parts, one after the other, are the padded data |
| `Erasure.SplitCovers` | client/datastor/pipeline/storage/distributed.go:720-755 | the k parts are of one size, and together they are the data followed by zeros |
| `Erasure.EncodedUniform` | client/datastor/pipeline/storage/distributed.go:674-684 | k + m parts of one size, which is not zero for non-empty data |
| `Erasure.Decode` | client/datastor/pipeline/storage/distributed.go:687-708 | the copying loop never leaves the buffer and yields the first `size` bytes of the restored parts |
| `Erasure.DecodeInvertsEncode` | client/datastor/pipeline/storage/distributed.go:674-708 | with any at most m parts missing, decoding with the original size gives exactly the data |
| `ParityCode.SumCodeSound` | client/datastor/pipeline/storage/distributed.go:622-638 | the promise asked of the library is kept by a code with one parity part, for every k |
| `Distributed.CollectParts` | client/datastor/pipeline/storage/distributed.go:233-373 | parts that arrive in any order are put into their slots until k are there |
| `Distributed.ReadCount` | client/datastor/pipeline/storage/distributed.go:233-373 | under every schedule the collector ends with k parts, or with all readable ones if they are fewer |
| `Distributed.ReadChunkExact` | client/datastor/pipeline/storage/distributed.go:233-373 | ReadChunk returns the data if at least k objects are readable, and fails otherwise |
| `Distributed.ReadRefusesIff` | client/datastor/pipeline/storage/distributed.go:233-373 | whatever the objects hold: a wrong number of objects is refused, shards are unavailable exactly if fewer than k objects are readable, and data is never of another size |
| `Distributed.ReadReturns` | client/datastor/pipeline/storage/distributed.go:233-373 | every schedule of ReadChunk is finite and ends with an answer |
| `Distributed.CollectObjects` | client/datastor/pipeline/storage/distributed.go:89-230 | objects are put into the slots of their parts, and counted |
| `Distributed.WriteChunkExact` | client/datastor/pipeline/storage/distributed.go:89-231 | whatever the schedule, a write succeeds if and only if there is data and k + m listed shards accept it; part i is then in slot i and no two parts share a shard; objects that are not listed in the result are untouched |
| `Distributed.WriteReturns` | client/datastor/pipeline/storage/distributed.go:89-230 | every schedule of WriteChunk is finite and ends with an answer |
| `Distributed.CheckChunkExact` | client/datastor/pipeline/storage/distributed.go:376-534 | a wrong number of objects is refused; otherwise Optimal and Invalid depend on the number of readable objects alone, in both modes |
| `Distributed.CheckAgreesWithRead` | client/datastor/pipeline/storage/distributed.go:233-534 | a check, slow or fast, says Invalid exactly if a read fails |
| `Distributed.RepairExact` | client/datastor/pipeline/storage/distributed.go:537-543 | a repair succeeds if and only if k objects are readable and k + m shards accept a part; nothing that was stored is lost, and the new objects hold the same data on distinct shards |
| `Distributed.RepairRestores` | client/datastor/pipeline/storage/distributed.go:537-543 | a repaired chunk is Optimal for every later check, and every later read gives the same data |
| `ShardCluster.FilteredSlice` | client/datastor/grpc/cluster.go:153-177 | the listed shards without the excepted ones, in order |
| `ShardCluster.FilteredExact` | client/datastor/grpc/cluster.go:153-177 | a shard is in the slice exactly if it is listed and not excepted |
| `ShardCluster.FilteredCluster` | client/datastor/grpc/cluster.go:153-177 | the slice lists no shard twice |
| `ShardCluster.RandomShardIterator.constructor` | client/datastor/cluster.go:190-196 | nothing drawn yet |
| `ShardCluster.RandomShardIterator.Next` | client/datastor/cluster.go:208-218 | for any random choice, one more shard is drawn, and the slice stays a permutation of what it was |
| `ShardCluster.DrawAll` | client/datastor/cluster.go:105-129 | whatever the random choices, every shard of the slice is handed out exactly once |
| `ShardCluster.OrderIrrelevant` | client/datastor/cluster.go:105-129 | all orders have distinct shards, none excepted, and equally many that accept |
| `ShardCluster.WriteChunkOnCluster` | client/datastor/pipeline/storage/distributed.go:89-230 | whether WriteChunk succeeds depends only on how many listed shards accept |
| `Replicated.ReadChunk` | client/datastor/pipeline/storage/replicated.go:88-127 | the content of the first object that can be read and has the right size, and an error exactly if there is none |
| `Replicated.CopiesExact` | client/datastor/pipeline/storage/replicated.go:469-585 | writing n copies succeeds if and only if n shards outside the exceptions accept; the copies are on distinct shards, none excepted, and hold the data; all other objects are untouched |
| `Replicated.CopySurvives` | client/datastor/pipeline/storage/replicated.go:89-127 | of a chunk written as copies, ReadChunk finds the data as long as one copy can be read |
| `Replicated.CopiesReturn` | client/datastor/pipeline/storage/replicated.go:469-585 | for every order of the shards every schedule is finite and ends with an answer |
| `Replicated.CheckCopiesExact` | client/datastor/pipeline/storage/replicated.go:130-262 | Invalid exactly if no object is OK, Optimal exactly if n are (a fast check: only if n = 1); no objects are refused |
| `Replicated.SplitResults` | client/datastor/pipeline/storage/replicated.go:458-466 | reports in any order are sorted into valid and invalid objects |
| `Replicated.SplitExact` | client/datastor/pipeline/storage/replicated.go:368-466 | under every schedule exactly the OK objects are reported valid, exactly those whose shard gives no status invalid, each once |
| `ReplicatedRepair.PickSource` | client/datastor/pipeline/storage/replicated.go:303-341 | the first good object's content and the objects from it on; if there is none, what the last attempt left behind |
| `ReplicatedRepair.RepairRestores` | client/datastor/pipeline/storage/replicated.go:265-364 | a repair of objects on distinct shards that returns no error keeps the size, and its objects are on distinct shards and hold the data, whatever order the goroutines report in; there are n of them if and only if at least two were listed or n is 1 |
| `ReplicatedRepair.RepairCountIff` | client/datastor/pipeline/storage/replicated.go:265-364 | that count, without trust in OK objects |
| `ReplicatedRepair.EnoughIsKept` | client/datastor/pipeline/storage/replicated.go:265-301 | when n objects are OK, exactly the OK ones are kept and nothing is written; a single object is returned as it is |
| `ReplicatedRepair.RepairLosesNothing` | client/datastor/pipeline/storage/replicated.go:265-364 | whatever the outcome, nothing that was stored is lost, and a failure names its reason |
| `ReplicatedRepair.RepairExact` | client/datastor/pipeline/storage/replicated.go:265-364 | it succeeds if and only if n objects are OK, or one gives the data, the input listed n objects, and enough shards outside those of the kept and the silent objects accept; only which unreadable objects were tried first depends on the schedule. A single object has to be OK |
| `ReplicatedRepair.RepairExactWhenRead` | client/datastor/pipeline/storage/replicated.go:265-364 | when OK objects can be read, nothing depends on the schedule |
| `ReplicatedRepair.RepairedIsOptimal` | client/datastor/pipeline/storage/replicated.go:130-364 | after a repair without error, a later check that sees what the shards hold answers Optimal if and only if at least two objects were listed or n is 1 |
| `ReplicatedRepair.RepairKeepsSizeIff` | client/datastor/pipeline/storage/replicated.go:265-364 | without trust in OK objects, a successful repair keeps the size if and only if there was a single object, n objects are OK or some OK object has that size |
| `ReplicatedRepair.RepairCanSpreadWrongData` | client/datastor/pipeline/storage/replicated.go:303-347 | a successful repair that returns another size, for any such object, size and cluster |
| `Wire.DecodeVarint` | client/metastor/encoding/proto/metadata.pb.go:844-857 | the shift loop reads what the specification says, with both errors |
| `Wire.VarintSize` | client/metastor/encoding/proto/metadata.pb.go:778-787 | the number of bytes the varint takes |
| `Buffers.Cursor.PutVarint` | client/metastor/encoding/proto/metadata.pb.go:552-560 | appends exactly the varint and touches nothing behind it |
| `Wire.VarRoundTrip` | client/metastor/encoding/proto/metadata.pb.go:552-857 | reading inverts writing for every 64 bit value, wherever it stands |
| `Wire.TagRoundTrip` | client/metastor/encoding/proto/metadata.pb.go:858-865 | field number and wire type of a tag are read back |
| `Wire.SkipField` | client/metastor/encoding/proto/metadata.pb.go:1310-1402 | the skipper, which calls itself for groups, terminates and computes the end of the field |
| `Wire.SkipFields` | client/metastor/encoding/proto/metadata.pb.go:1369-1397 | the loop over a group ends behind its end tag |
| `Wire.SkipExact` | client/metastor/encoding/proto/metadata.pb.go:1310-1402 | exactly one well-formed field of any wire type is consumed, groups nested to any depth included |
| `Codec.NextField` | client/metastor/encoding/proto/metadata.pb.go:841-1061 | one round of the parsing loop, with all its errors |
| `Codec.FieldRoundTrip` | client/metastor/encoding/proto/metadata.pb.go:841-1061 | a written field is read back, and reading ends where the field ends |
| `Codec.UnmarshalObject` | client/metastor/encoding/proto/metadata.pb.go:1200-1309 | the loop computes the specified parse |
| `Codec.UnmarshalChunk` | client/metastor/encoding/proto/metadata.pb.go:1069-1199 | the loop with its nested objects computes the specified parse |
| `Codec.Unmarshal` | client/metastor/encoding/proto/metadata.pb.go:838-1068 | the loop with its nested chunks computes the specified parse |
| `Codec.DecodeFindsMeaning` | client/metastor/encoding/proto/metadata.pb.go:838-1309 | every well-formed sequence of records, in any order and repetition, is parsed to its meaning |
| `Grammar.VarExact` | client/metastor/encoding/proto/metadata.pb.go:843-859 | a varint is read exactly where one stands, of any length up to ten bytes, with the value of its digits; the two errors tell too many bytes from too few |
| `Grammar.FieldExact` | client/metastor/encoding/proto/metadata.pb.go:838-1412 | for any bytes, a field is read exactly where the grammar has one: tag, wire type, length, nested groups |
| `Grammar.UnmarshalExact` | client/metastor/encoding/proto/metadata.pb.go:838-1412 | Unmarshal accepts exactly the bytes that are a sequence of fields of metadata, chunks and objects, and finds the metadata they spell |
| `Grammar.UnmarshalIntoExact` | client/metastor/encoding/proto/proto.go:58-97 | so does unmarshalling into existing metadata, which keeps its chunks if there are none in the bytes |
| `Marshal.MetadataMeaning` | client/metastor/encoding/proto/metadata.pb.go:428-550 | the records that are written for metadata mean that metadata |
| `Marshal.RoundTrip` | client/metastor/encoding/proto/proto.go:25-97 | unmarshalling inverts marshalling for all metadata, with any nesting, lengths and 64 bit numbers, negative ones included |
| `Marshal.UnknownFieldsIgnored` | client/metastor/encoding/proto/metadata.pb.go:1048-1061 | unknown fields at any boundary of any message do not change the result |
| `Marshal.RoundTripInto` | client/metastor/encoding/proto/proto.go:79-94 | into existing metadata the round trip holds exactly if chunks are decoded or none were there |
| `MarshalTo.ObjectSize` | client/metastor/encoding/proto/metadata.pb.go:764-776 | the length of the encoded object |
| `MarshalTo.ChunkSize` | client/metastor/encoding/proto/metadata.pb.go:745-762 | the length of the encoded chunk |
| `MarshalTo.Size` | client/metastor/encoding/proto/metadata.pb.go:712-743 | the length of the encoded metadata |
| `MarshalTo.PutObject` | client/metastor/encoding/proto/metadata.pb.go:532-550 | appends exactly the encoded object |
| `MarshalTo.PutChunk` | client/metastor/encoding/proto/metadata.pb.go:491-520 | appends exactly the encoded chunk, objects with their sizes in front |
| `MarshalTo.MarshalInto` | client/metastor/encoding/proto/metadata.pb.go:428-479 | writes exactly Size() bytes, stays inside the buffer and leaves the rest of it alone |
| `MarshalTo.MarshalMetadata` | client/metastor/encoding/proto/metadata.pb.go:418-426 | a buffer of Size() bytes is filled to the last byte |
| `Linked.AddSizes` | client/client.go:268-272 | the accumulating loop adds the sum of the chunk sizes |
| `Linked.TotalSum` | client/client.go:268-272 | the sum of the sizes of two lists of chunks is that of both together |
| `Linked.IntoIsUnmarshal` | client/metastor/client.go:182-199 | what an attempt decodes into the structure of the previous one |
| `Linked.IntoKeepsSizeIff` | client/metastor/client.go:182-199 | when chunks of an earlier attempt that stay break the size |
| `Linked.LocalStep` | client/client_linked_data.go:88-138 | every step keeps what each process knows about its own data, node and repair |
| `Linked.InvStep` | client/client_linked_data.go:88-138 | every step that does not overwrite a node its predecessor links to keeps the links and what each process knows of the store |
| `Linked.LinkPublication` | client/client_linked_data.go:88-138 | in every state of every run with any conflicts, in which no plain Write overwrites a node its predecessor links to, a visible a.NextKey = b implies that b is stored with PreviousKey = a; data and node are written at most once |
| `Linked.WithoutPlainWrites` | client/client_linked_data.go:88-138 | runs of WriteLinked and Repair alone meet that condition |
| `Linked.PlainWriteBreaksIff` | client/client.go:249-277 | a plain Write breaks the links if and only if a predecessor links to the node it overwrites |
| `Linked.LinksOkIff` | client/client_linked_data.go:88-138 | after every run without such a Write, a step leaves all links leading to nodes that link back if and only if it is not such a Write |
| `Linked.PlainWriteBreaksLink` | client/client.go:249-277 | the failing run: a plain Write over the second of any two linked nodes |
| `Linked.FinishedIsPublished` | client/client_linked_data.go:101-138 | a WriteLinked that succeeded wrote its data once, its node is stored and links back, and the node it made describes what it wrote field by field |
| `Linked.MadeIsWritten` | client/client_linked_data.go:88-138 | however often it is retried, a call remembers the metadata of what it wrote: key, chunks, size, times, predecessor |
| `Linked.StoredIsWritten` | client/client.go:249-277 | in every run, what a call stores under its key is exactly that, and no other key changes |
| `Commits.CommitExact` | client/client.go:360-406 | in every run, a commit that conflicts changes nothing, and one that does not changes its key alone: a WriteLinked the link, a Repair chunks, size and time of the last write |
| `Commits.PublishedContent` | client/client_linked_data.go:88-138 | in every state of every run, a linked node has the key, creation time and predecessor of the call that wrote it, and, unless it is repaired, its size, time and chunks |
| `Linked.SizeConservation` | client/client.go:249-406 | in every state of every run, empty data included, in which no retry of WriteLinked meets metadata that has lost its chunks, each stored size is the sum of its chunks' sizes |
| `Linked.SizeConservationOnData` | client/client.go:249-406 | on data that is not empty, without any further condition |
| `Linked.RetryKeepsSizesIff` | client/metastor/client.go:182-199 | a retry that comes through keeps all sizes if and only if it does not meet such metadata |
| `Linked.EmptyWriteLeaks` | client/metastor/client.go:182-199 | the failing run: an empty Write under a WriteLinked leaves size 0 with the old chunks |
| `Linked.RepairsOnce` | client/client.go:360-406 | a Repair call repairs at most once, and exactly once if it succeeds, however often its transaction is retried |
| `StaleRepair.LastWriteStaysIff` | client/client.go:360-406 | as long as no Repair has committed over a Write that came after its repair, each key holds the data of its last Write, and a step keeps it so if and only if it does not do that |
| `StaleRepair.FirstAttemptOverrulesNobody` | client/client.go:373-406 | a Repair that commits in the attempt in which it repaired never does, whatever others do in between |
| `StaleRepair.RetriedRepairUndoesWrite` | client/client.go:366-406 | the failing run: a Write comes between the repair and its retry; both succeed, and the chunks are those from before the Write |
| `Traverse.StoredKeepsChain` | client/client_linked_data.go:126-130 | a node that is stored but not linked yet leaves every chain as it is |
| `Traverse.HalfAppendedIsChain` | client/client_linked_data.go:126-136 | between storing a node and linking it, the chain is that of the nodes before it |
| `Traverse.BuiltIsChain` | client/client_linked_data.go:88-138 | every store built by tail appends has the chain of its nodes, linked in both directions and otherwise as stored |
| `Linked.WriteLinkedExtends` | client/client_linked_data.go:88-138 | a WriteLinked that nobody disturbs is such an append |
| `Linked.CallsBuildChain` | client/client_linked_data.go:88-138 | a Write and any number of WriteLinked calls, one after the other, leave a chain that can be traversed, each node with the key, chunks, size and times of its call |
| `Traverse.RefusedIff` | client/client_linked_data.go:159-227 | both traversals are refused exactly without a key or for an empty range, and such a range holds nothing |
| `Traverse.FilterPicks` | client/client_linked_data.go:159-349 | the nodes of a traversal are, in order, exactly those that can be fetched and were created neither before a positive lower nor after a positive upper bound |
| `Traverse.ForwardIterator.constructor` | client/client_linked_data.go:172-180 | everything from the start key on is pending |
| `Traverse.ForwardIterator.Next` | client/client_linked_data.go:278-303 | yields the first pending node in range, or false exactly if there is none; a node that cannot be fetched ends the traversal |
| `Traverse.ForwardIterator.Drain` | client/client_linked_data.go:278-303 | repeated Next terminates and yields all that is pending |
| `Traverse.BackwardIterator.constructor` | client/client_linked_data.go:218-227 | everything up to the start key is pending |
| `Traverse.BackwardIterator.Next` | client/client_linked_data.go:324-349 | the same in the other direction |
| `Traverse.BackwardIterator.Drain` | client/client_linked_data.go:324-349 | repeated Next terminates and yields all that is pending |
| `Traverse.TraverseAll` | client/client_linked_data.go:159-303 | a forward traversal yields exactly the nodes in range from the start key on, in order, up to the first that cannot be fetched |
| `Traverse.TraversePostOrderAll` | client/client_linked_data.go:204-349 | a backward traversal yields exactly the nodes in range back to the head, in reverse order, up to the first that cannot be fetched |
| `Traverse.BackwardMirrorsForward` | client/client_linked_data.go:159-349 | on a chain that can be fetched, backward from the tail with swapped bounds is the reverse of forward from the head |
| `Traverse.TraverseAppended` | client/client_linked_data.go:88-303 | traversing any chain built by tail appends yields exactly the appended nodes in range, in order, unchanged but for their NextKey |
| `Crc.BitStepInjective` | server/encoding/encoding.go:363-373 | a bit step can be undone, since the polynomial's top bit is set |
| `Crc.RunLinear` | server/encoding/encoding.go:289-372 | the difference of two checksum runs is the run of the differences |
| `Crc.MakeTable` | server/encoding/encoding.go:372 | every table entry is the eight bit steps of its index |
| `Crc.TableStep` | server/encoding/encoding.go:289-372 | the table look-up equals eight bit steps on the whole word |
| `Crc.Update` | server/encoding/encoding.go:289-372 | the table-driven loop computes the bitwise checksum |
| `Crc.Recover` | server/encoding/encoding.go:289-372 | an error of at most four bytes whose trace vanishes was already in the register |
| `Crc.BurstChangesSum` | server/encoding/encoding.go:289-372 | a nonzero change within four consecutive bytes changes the checksum, for messages of any length |
| `CrcValues.ClearedSum` | server/encoding/encoding.go:289-372 | four bytes of ones clear the register, so the checksum of what follows is that of a register without a start |
| `CrcValues.CheckValueOfOnes` | server/encoding/encoding.go:289-372 | a checksum in numbers, which pins the first register and the inversion |
| `CrcValues.CheckValueOfBit` | server/encoding/encoding.go:363-372 | a checksum in numbers, which pins the polynomial 0xD5828281 |
| `CrcValues.LeadingZeroCounts` | server/encoding/encoding.go:289-372 | a zero byte in front of any message changes its checksum |
| `CrcValues.LostZeroIsDetected` | server/encoding/encoding.go:289-313 | an object that lost a leading zero byte is reported as an invalid checksum |
| `ObjectEncoding.PackageData` | server/encoding/encoding.go:317-328 | the first four bytes become the little endian checksum of the rest |
| `ObjectEncoding.EncodeObject` | server/encoding/encoding.go:73-90 | checksum and data, or an error exactly without data |
| `ObjectEncoding.DecodeObject` | server/encoding/encoding.go:105-119 | the verdict of the specification, with both errors |
| `ObjectEncoding.ValidateData` | server/encoding/encoding.go:289-313 | no error exactly if the data can be decoded, and the same error otherwise |
| `ObjectEncoding.DecodeInvertsEncode` | server/encoding/encoding.go:73-119 | decoding inverts encoding |
| `ObjectEncoding.DecodeExact` | server/encoding/encoding.go:73-119 | data is decoded to a blob if and only if it is the encoding of that blob, and too short exactly if it has no room for one |
| `ObjectEncoding.LittleEndianValue` | server/encoding/encoding.go:317-328 | the four checksum bytes are the digits of the number, the lowest first |
| `ObjectEncoding.BurstIsDetected` | server/encoding/encoding.go:289-372 | corruption of up to four consecutive blob bytes is reported as an invalid checksum |
| `ObjectEncoding.ChecksumDamageIsDetected` | server/encoding/encoding.go:289-372 | so is any corruption of the stored checksum alone |
| `Sequences.IncrementKeeps` | server/db/badger/cache.go:48-112 | through hits, misses, evictions and failures, unless a renewal loses its commit, the next number of no scope ever falls, and a number handed out lies between the old and the new one |
| `Sequences.IncrementAnswersIff` | server/db/badger/cache.go:77-112 | IncrementKey answers if and only if the database does not refuse a renewal, a new lease or the release of the oldest one, and which number it answers, evictions included |
| `Sequences.NumbersAreConsecutive` | server/db/badger/cache.go:77-112 | after a number was handed out for a scope the one after it comes next, and nothing changes for other scopes, evicted ones included |
| `Sequences.AlwaysAnswers` | server/db/badger/cache.go:48-127 | in every state of every run, whatever has failed, no bucket holds more than 64 scopes and a database that answers gets every scope a number |
| `Sequences.AnswerUses` | server/db/badger/cache.go:77-112 | an answer makes its scope the most recently used one; of a full bucket exactly the least recently used scope leaves |
| `Sequences.NoNumberTwice` | server/db/badger/cache.go:48-127 | over every run of increments, evictions, purges and crashes in which no renewal loses its commit, whatever else fails, no scope receives a number twice |
| `Sequences.LostCommitDoubles` | vendor/github.com/dgraph-io/badger/db.go:1123-1148 | a renewal that loses its commit, in any state, makes a number come out twice although the database never fails again |
| `Sequences.PhantomDoublesAlive` | vendor/github.com/dgraph-io/badger/db.go:1091-1103 | it does so without a crash, too, once the lease that was never committed is used up |
| `Sequences.OneLostCommitDoubles` | server/db/badger/cache.go:77-112 | the failing run: the first lease of any scope is used up, and its renewal loses the commit |
| `Sequences.NewNumbersIff` | server/db/badger/cache.go:48-127 | after a run without lost commits, a step leaves all later numbers new, while the database answers, if and only if it loses no commit |
| `Sequences.SequenceCache.constructor` | server/db/badger/cache.go:36-42 | sixteen empty buckets |
| `Sequences.SequenceCache.IncrementKey` | server/db/badger/cache.go:77-112 | the new state and the number, whatever fails, and, as long as no commit is lost, a number that was never handed out for the scope before |
| `Sequences.SequenceCache.PurgeBucket` | server/db/badger/cache.go:114-127 | the bucket is empty, all else is as before, and so is the next number of every scope; a release that fails panics and ends the process, which costs no number its uniqueness |
| `Sequences.SequenceCache.Purge` | server/db/badger/cache.go:60-64 | all buckets are empty, and the next number of every scope is what it was unless a release fails |
| `Keys.MakeScopedSequenceKey` | server/db/keys.go:34-43 | the scope followed by the eight bytes of the number |
| `Keys.MakeDataKey` | server/db/keys.go:47-62 | the byte by byte filled key is that of the specification |
| `Keys.MakeDataScopeKey` | server/db/keys.go:66-76 | the byte by byte filled scope key is that of the specification |
| `Keys.MakeNamespaceKey` | server/db/keys.go:79-88 | the byte by byte filled namespace key is that of the specification |
| `Keys.MakeUnlistedKey` | server/db/keys.go:90-101 | so is the key that is not listed |
| `Keys.LittleEndianValue` | server/db/keys.go:34-43 | the bytes of a number are its digits, the lowest first |
| `Keys.SequenceKeyIsDataKey` | server/db/keys.go:34-76 | a number issued in the scope of a label makes a data key of that label |
| `Keys.DataKeyInjective` | server/db/keys.go:47-62 | equal data keys have the same label and generated key if and only if the generated keys are of the same length |
| `Keys.DataKeyAmbiguity` | server/db/keys.go:47-62 | otherwise any colon may end the label |
| `Keys.KindsApart` | server/db/keys.go:47-107 | objects, namespaces, stored sequence numbers and the statistics never share a key, whatever the labels |
| `Keys.CreateNeverOverwrites` | server/db/badger/cache.go:48-127 | over every run without a lost commit, all keys made for objects of all labels are different |
| `Keys.LostCommitOverwrites` | server/db/badger/cache.go:48-127 | after one lost commit two objects of any label get the same key |

## Left out

- gRPC clients and servers, TLS, daemon and command line, configuration, benchmarks: plumbing and table look-ups.
- Authentication and token caches: external services and wall-clock time.
- Compression, encryption, hashing and Reed–Solomon arithmetic: libraries that are not part of this model; a processor is a function with an inverse, a hash any function, an erasure code its promise.
- Badger, etcd and the LRU list: their contracts only (conflict-detecting transactions, a bounded map with an eviction callback); of the vendored badger only the sequence is modelled.
- Sequence numbers are unbounded in the cache; the key theorem asks that they have 64 bits. A transaction that reports an error is taken not to have been committed.
- Deleting chunks and data: the same networks with fewer results.
- Lengths in malformed bytes that are so large that adding them to an index overflows: they are an error here where the code would panic.
- Hasher and processor constructors that fail, nil arguments, and the copy of shared processor buffers.
- Etcd and in-memory metadata stores, and the other generated codecs: the same shapes again.
- Namespace and statistics encodings: fixed-width fields around the same checksum.
- buffer.go in server/encoding: its cursors are only used for the four checksum bytes, which are written here by copying.
- GetShard with its table of unlisted shards: whether a shard can be reached is part of how an object looks.
- Linked.SizeConservation: 64 bit overflow of the sum is not modelled.
- StaleRepair.LastWriteStaysIff: which Write data is of is told by a history; that metadata without chunks can pick up old ones is the matter of Linked.RetryKeepsSizesIff.
- Linked.RepairsOnce: assumes the clock never reads zero, which the code uses as its mark for not yet repaired.
- Distributed.WriteChunkExact: an object that a cancelled goroutine has stored but could not report is not part of the world after a failed write, nor is it for Replicated.CopiesExact.
