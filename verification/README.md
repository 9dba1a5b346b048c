# A model of the SPARQ file transfer, in Dafny

The project models the file-transfer protocol of `sct-core` as one system of sender, network and
receiver, and four smaller state machines around it: the sender's packet pipeline, the daemon's queue
and its recovery from snapshot and log, the telemetry framing, and the windowed filters (two BBR
controllers, the datagram loss window, the reorder buffer). `dafny verify dfyconfig.toml` checks all of
it.

**The network** delivers any frame that was handed to it, any number of times and in any order. Frames
are QUIC streams (ordered only within themselves, section 2 of RFC 9000) or datagrams (which may be lost
or reordered, section 5 of RFC 9221), and the sender may repeat packets.

**Libraries** are function values with stated laws (`Wire.Codecs`, `Wire.Lawful`): bincode and zstd
decode what they encode, BLAKE3 returns 32 bytes. No claim rests on a hash being injective; where a hash
comparison matters (skipping chunks on resume) the absence of a collision among the strings compared is a
hypothesis. The erasure code is not assumed at all: `ReedSolomon` is a systematic code by interpolation
over any field of characteristic two, and `Fields` proves that any `n` rows give the data back. `Tower`
builds the field with 256 elements, and `Samples` puts together codecs that satisfy all laws at once.

**Oracles.** Path utilities, straggler estimates, completion forecasts, loss and mode decisions come from
floating-point heuristics. They are arbitrary inputs here, so every result holds for all their values.
Clocks and feedback arrival are inputs. Integers are unbounded; the casts to `u32` and the saturating
operations on `u64` are written out. A chunk size has to fit `u32` together with a frame header, because the
manifest and the descriptors cast sizes to `u32`; files are below 2^63 bytes. Every session of a file
chooses its chunk size, compression and shard counts anew.

How the modules build on each other:

| modules | content |
|---|---|
| `Arith`, `Bytes`, `Fields`, `Tower`, `ReedSolomon` | arithmetic, byte strings, the erasure code |
| `Wire`, `Source` | frames, compression, what a sender emits for a file |
| `Receiver`, `Session` | the receiver's data path and accept loop, as functions and as the class that runs them |
| `Safety`, `Delivery`, `Exactness`, `Runs` | what any delivery leads to: safety, recovery, exact outcome, stream limit |
| `Packets`, `Encoder`, `Stage`, `Collect`, `Protection`, `Collector`, `Optimizer`, `Scheduler`, `Pipeline`, `Sender` | the sending side |
| `Joint`, `Resume`, `Histories`, `Samples` | both sides together, crashes and restarts, non-vacuity |
| `Daemon`, `Workers`, `Journal`, `Ledger` | the queue, its workers and permits, the snapshot and the log, and all of them together |
| `Telemetry`, `Datagrams`, `Reorder`, `Congestion` | framing and windowed filters |

## Promises that the code does not keep

*A receiver takes every frame of the sender.* A stream is read with a limit of 32 MiB, and a longer one ends
the session with an error (`crates/sct-core/src/receiver/mod.rs:211-217`), while nothing bounds the chunk
size below 4 GiB. A session fails exactly when it reads such a stream (`Runs.SessionSafety`), and some order
of events makes it fail if and only if the transfer has such a frame (`Runs.SessionCanFail`).
`Runs.SessionNeverFails` gives a bound on the chunk size that excludes it, `Runs.LargeChunksFail` the family
of uncompressed transfers with a chunk of 32 MiB or more on which it happens.

*The resume file only names chunks that are in the part file.* This fails in four ways. A session with
`resume_partial` off truncates the part file and leaves the resume file of an earlier session in place
(`crates/sct-core/src/receiver/mod.rs:160-169`). At the end of a transfer the part file is renamed before
the resume file is removed (`crates/sct-core/src/receiver/mod.rs:288-291`); after a crash between the two, a
new session of the same transfer starts from an empty part file, and a crash before its first save leaves
the stale list next to it. And the resume file is written while the last chunk may still be in memory: the
part file is flushed only at the end (`crates/sct-core/src/receiver/mod.rs:242-254`), so a kill can keep the
list and lose the chunk. `Histories.StaleResumeFile` reaches the same stale disk by each of these three.
Fourth, both files are found by name, size and content (`crates/sct-core/src/sender/mod.rs:100-105`), and
the list is taken over without a look at the chunk size (`crates/sct-core/src/receiver/mod.rs:113-120`),
which is a setting of the sender (`crates/sct-daemon/src/main.rs:766`). In `Histories.OtherChunkSize` a
session with a larger chunk size is full at once with a file that is not the source. With `verify_checksums`
on, as the daemon has it, the comparison of the whole file (`crates/sct-core/src/receiver/mod.rs:269-279`)
then fails, both files stay, and the next session of that size starts from the same state; with it off the
file is renamed. `Resume.BeginSafe` is the exact condition for a start from a given disk,
`Histories.SizesDecide` the exact condition on the two plans for all disks that safe histories leave, which
is equality of the chunk sizes, or a file of one chunk, when the source has no zero byte
(`Histories.FitMeansAgree`). `Resume.LostWriteSafe` is the exact condition for a lost write;
`Resume.ListedAtOnce` says which chunks are exposed to it. `Resume.ResumeSafety` is the guarantee for every
history whose starts and lost writes meet these conditions.

*A resumed session ends once the rest has arrived.* The sender also skips the chunks that match by hash
(`crates/sct-core/src/sender/mod.rs:136-158`), and the receiver only counts what is listed or arrives. A
chunk that matches and is not listed is never sent, never retransmitted and in no group with parity, so it
is never counted (`Joint.SkippedNeverCounted`): the part file is the source (`Joint.ResumedFileIsSource`),
and the session ends if and only if every matching chunk is listed (`Joint.ResumedSessionFills`).
`Joint.StalledRun` is a run that waits for good. Above 32 chunks only every 32nd count is saved, so a crash
in between leaves such chunks.

*Every submitted job is started.* It waits for one of `max_concurrent_transfers` permits, and that number
may be zero. Without further requests the queue drains if and only if there is a permit
(`Workers.QueueDrains`); `Workers.ZeroPermitsStall` is the failing run.

*A job has one worker, and an active job has one.* An update of the priority queues a job again that is
about to start or still runs. A second worker comes exactly from a check that passes while the first is
under way (`Workers.OneWorkerEach`, with the run `Workers.TwoWorkers`). And the cancellation channel of a
job fires once and for all: a job that was cancelled and queued again may stay active without a worker
(`Workers.CancelledStaysActive`). Every active job has a worker at all times if and only if the last worker
of an active job is never stopped (`Workers.NeverOrphaned`), which only the channel of that job can do
(`Workers.ActiveHasWorker`).

*Active jobs are queued again after a restart.* A restarted job is active if and only if the last status
that the log carries for it is active (`Journal.ActiveAfterRestart`), and `Journal.Restart` shows that it
then has no entry in the queue. `Journal.StaysActive` is an instance; for a snapshot alone the promise holds
(`Journal.SnapshotRequeues`).

*The log tells the status that a record had.* A worker that runs through writes that its job is completed,
even when the job was cancelled in the meantime (`crates/sct-daemon/src/main.rs:914-940`), and progress
reports, each a task of its own, say that it is active whenever they come
(`crates/sct-daemon/src/main.rs:770-812`). A restart finds every job with the status it had, at any time and
with any snapshot, if and only if neither happens (`Ledger.LogTellsStatus`). `Ledger.CancelledThenCompleted`
and `Ledger.LateProgress` are runs of the daemon that end otherwise; after the second a completed job is
active again, and in no queue.

## Model

| member | source | states |
|---|---|---|
| `Fields.Reinterpolate` | crates/sct-core/src/receiver/mod.rs:587-599 | values of a polynomial of degree below n at any n distinct points determine its value everywhere, over every lawful field |
| `Tower.GFLawful` | crates/sct-core/src/receiver/mod.rs:83-90 | the field of 256 elements that the code works over exists: the tower of quadratic extensions satisfies every field law |
| `ReedSolomon.ReconstructCorrect` | crates/sct-core/src/receiver/mod.rs:587-599 | any n present rows of a codeword give back exactly the n data rows |
| `Wire.CompressionRoundTrip` | crates/sct-core/src/compression/mod.rs:21-49 | decompressing exactly when the body got shorter restores the chunk, for every mode, including the expansion guard and the skip of compressed formats |
| `Wire.TakesTheShorter` | crates/sct-core/src/compression/mod.rs:21-42 | with zstd a body that starts with no mark is the shorter of the chunk and its compressed form, and one that starts with a mark is the chunk itself |
| `Wire.MarksDetected` | crates/sct-core/src/compression/mod.rs:5-19 | a chunk is taken for compressed if and only if it has four bytes and starts with one of eight marks |
| `Wire.ParseFrame` | crates/sct-core/src/receiver/mod.rs:296-310 | parsing a frame gives its descriptor and body, whatever bytes follow, such as the zeros of a padded shard |
| `Wire.HeaderLimit` | crates/sct-core/src/receiver/mod.rs:296-310 | a frame is parsed if and only if its descriptor is not empty and takes at most one mebibyte |
| `Source.ChunkRange` | crates/sct-core/src/sender/mod.rs:516-535 | the chunks below the chunk count are exactly the non-empty ones, and each is its slice of the file |
| `Source.ChunkOfByte` | crates/sct-core/src/sender/mod.rs:86-92 | every byte of the file lies in one of the chunks |
| `Source.DescriptorTells` | crates/sct-core/src/sender/mod.rs:486-514 | a data frame gives index, place, group and both lengths of its chunk, the hash of the body that was sent, and whether that body is compressed, which is so exactly when zstd is on, the chunk has no mark and the compressed form is shorter |
| `Source.ParityDescriptorTells` | crates/sct-core/src/adaptive/mod.rs:741-756 | a parity frame gives the length and hash of a row as long as the longest frame of its group, its slot and its group, and no place in the file |
| `Source.ParityIndexApart` | crates/sct-core/src/adaptive/mod.rs:741-750 | the index of a parity frame names no chunk of the file if and only if the count down from the top of u64 stays above the chunks |
| `Source.ParityIndexUnique` | crates/sct-core/src/adaptive/mod.rs:741-750 | while it does, parity frames of encoders with one parity count have different indices |
| `Safety.PersistHonest` | crates/sct-core/src/receiver/mod.rs:487-522 | a data frame, padded or not, is accepted and leaves its chunk in place; no byte is changed except to the source's byte |
| `Safety.WriteKeepsSafe` | crates/sct-core/src/receiver/mod.rs:509-520 | writing one chunk disturbs no other chunk |
| `Safety.ShardsFormCodeword` | crates/sct-core/src/receiver/mod.rs:580-596 | with a parity shard present, the receiver pads to the length the sender padded to, so the padded shards are rows of the sender's codeword |
| `Safety.ReadyHasParity` | crates/sct-core/src/receiver/mod.rs:542-554 | a group that is ready while a data slot is empty holds a parity shard |
| `Safety.TryRecoverHonest` | crates/sct-core/src/receiver/mod.rs:564-623 | recovery never fails on the sender's shards, completes a group that is ready, touches no other group and writes only source bytes |
| `Safety.BodyFits` | crates/sct-core/src/receiver/mod.rs:324-333 | the receiver's body limit admits every data and parity frame of the sender, for every chunk size |
| `Receiver.DamagedRefused` | crates/sct-core/src/receiver/mod.rs:313-408 | whoever sent it, a frame that does not parse, is too large, is cut short or fails its checksum is answered with an error and changes nothing |
| `Receiver.IntactTaken` | crates/sct-core/src/receiver/mod.rs:487-522 | without parity, an intact data frame is taken if and only if its chunk is known or unpacks; its index is counted, a new chunk is written at its offset and a known one is not written again |
| `Receiver.IngestGrows` | crates/sct-core/src/receiver/mod.rs:313-408 | no frame whatsoever takes an index away, changes the file without counting a new index, or touches the shards of another group |
| `Receiver.OnlyCompleteDropped` | crates/sct-core/src/receiver/mod.rs:616-621 | whatever shards arrived, a group is let go only when each of its data chunks is counted or held |
| `Samples.BoundIsTight` | crates/sct-core/src/receiver/mod.rs:324-333 | the descriptor bound used there is the largest one: with one byte more, a parity frame of a 16 KiB chunk is answered with an error in every state |
| `Samples.LongDescriptorsExist` | crates/sct-core/src/receiver/mod.rs:324-333 | there are codecs with descriptors of that length |
| `Delivery.IngestHonest` | crates/sct-core/src/receiver/mod.rs:313-408 | every frame of the sender is accepted in every reachable state, forgets nothing and keeps the receiver's invariant |
| `Delivery.EndToEnd` | crates/sct-core/src/receiver/mod.rs:189-252 | for every delivery sequence, each received index has the source bytes at its range, and a full count means the part file is the source |
| `Delivery.FecCompleteness` | crates/sct-core/src/receiver/mod.rs:525-623 | n distinct frames of a group, one of them data, in any order and with anything else in between, put all its chunks in place |
| `Exactness.ReceivedExactly` | crates/sct-core/src/receiver/mod.rs:313-408 | a chunk is received if and only if its frame arrived or enough distinct shards of its group did: order and repetition make no difference |
| `Session.MaxShardLen` | crates/sct-core/src/receiver/mod.rs:580-583 | the loop finds the length of the longest shard present |
| `Runs.ReportTruthful` | crates/sct-core/src/receiver/mod.rs:411-460 | in every reachable state a report calls a group complete only when all its chunks are received, and lists the first 64 missing chunks in order, all of them if there are no more |
| `Session.MissingExact` | crates/sct-core/src/receiver/mod.rs:428-432 | the list is increasing, and every missing chunk is in it or lies behind a full list |
| `Session.ReportAppended` | crates/sct-core/src/receiver/mod.rs:411-460 | a report is appended exactly at the positive multiples of the interval, with the group of the frame and that list |
| `Session.SavedExactly` | crates/sct-core/src/receiver/mod.rs:242-251 | the resume file is written with the last chunk, at every count up to 32 and at every multiple of 32, and otherwise stays |
| `Session.SavedOften` | crates/sct-core/src/receiver/mod.rs:242-251 | as long as frames bring one chunk at a time, the list lags by less than 32 chunks |
| `Session.FileReceiver.constructor` | crates/sct-core/src/receiver/mod.rs:160-169 | the part file is opened at the manifest's length with the loaded indices |
| `Session.FileReceiver.PersistFramedChunk` | crates/sct-core/src/receiver/mod.rs:487-522 | the in-place update is the specification function on file and index set, including each error |
| `Session.FileReceiver.PersistRecovered` | crates/sct-core/src/receiver/mod.rs:600-615 | the loop over missing slots persists the usable rows and reports whether there was one |
| `Session.FileReceiver.TryFecGroupRecover` | crates/sct-core/src/receiver/mod.rs:564-623 | the in-place recovery is the specification function, group removal included |
| `Session.FileReceiver.StoreShardAndRecover` | crates/sct-core/src/receiver/mod.rs:355-376 | storing a shard creates the group on first use and then tries to recover it |
| `Session.FileReceiver.IngestWireFrame` | crates/sct-core/src/receiver/mod.rs:313-408 | the frame handler is the specification function that the theorems are about |
| `Session.FileReceiver.HandleFrame` | crates/sct-core/src/receiver/mod.rs:220-251 | a handled frame updates data path, feedback log and resume file together; what is reported and saved is stated by the lemmas above |
| `Session.FileReceiver.HandleEvent` | crates/sct-core/src/receiver/mod.rs:198-219 | a new stream is counted and queued; a stream read to its end or a datagram is handled, and a stream longer than 32 MiB is an error |
| `Session.FileReceiver.AcceptLoop` | crates/sct-core/src/receiver/mod.rs:189-252 | the accept loop, for every order of events, ends as its specification says: filled, incomplete, failed or waiting |
| `Session.ParallelBounded` | crates/sct-core/src/receiver/mod.rs:187-219 | no session reads more streams at once than permitted, or takes more than the limit |
| `Session.StreamTaken` | crates/sct-core/src/receiver/mod.rs:205-219 | while chunks are missing a stream is taken if and only if it stays within both limits |
| `Runs.StepFails` | crates/sct-core/src/receiver/mod.rs:198-219 | in every reachable state an event of the sender's frames fails if and only if it ends a stream longer than 32 MiB |
| `Runs.SessionSafety` | crates/sct-core/src/receiver/mod.rs:74-293 | a session on the sender's frames fails if and only if it reads a stream longer than 32 MiB; indices counted, reported complete or saved are chunks in place; a filled session has the source file |
| `Runs.SessionCanFail` | crates/sct-core/src/receiver/mod.rs:211-217 | some order of events makes an unfinished session fail if and only if the transfer has a frame longer than 32 MiB |
| `Runs.SessionNeverFails` | crates/sct-core/src/receiver/mod.rs:211-217 | no session fails when a chunk and two frame headers fit 32 MiB |
| `Runs.LargeChunksFail` | crates/sct-core/src/receiver/mod.rs:211-217 | an uncompressed file with a full chunk of 32 MiB or more ends its session with the first stream |
| `Runs.StreamCap` | crates/sct-core/src/receiver/mod.rs:171-197 | the incomplete-transfer error fires only when the accepted streams exceed their distinct contents by more than the limit exceeds the kinds of frames, which is 256 unless the limit saturates; the streams accepted then are exactly that many |
| `Packets.IncreasingUnique` | crates/sct-core/src/adaptive/mod.rs:715-716 | packets with distinct numbers have one increasing arrangement |
| `Packets.SortArranges` | crates/sct-core/src/adaptive/mod.rs:1462-1476 | the sort arranges every sequence by any order that decides all pairs |
| `Encoder.EncodeBlock` | crates/sct-core/src/adaptive/mod.rs:706-773 | the encoder's loop sends the sorted block followed by its parity packets |
| `Encoder.OrderIndependent` | crates/sct-core/src/adaptive/mod.rs:706-773 | any arrival order of a full block yields the same encoded block |
| `Encoder.EncodedKeepsData` | crates/sct-core/src/adaptive/mod.rs:706-773 | encoding neither loses, repeats nor invents a data packet |
| `Encoder.EncodedHonest` | crates/sct-core/src/adaptive/mod.rs:735-773 | the parity packets of a group's block are the group's parity frames, with indices below the manifest's parity count |
| `Encoder.ParityUrgency` | crates/sct-core/src/adaptive/mod.rs:736-768 | parity is as urgent as the most urgent packet of its block, has the earliest deadline of it, and is numbered after it |
| `Stage.RemoveAll` | crates/sct-core/src/adaptive/mod.rs:799-803 | removing positions in descending order takes out exactly those packets and leaves the others intact and in order |
| `Stage.Positions` | crates/sct-core/src/adaptive/mod.rs:792-798 | the search succeeds exactly when every number of the range is present, and finds each first position once |
| `Stage.DrainBlock` | crates/sct-core/src/adaptive/mod.rs:787-805 | draining succeeds exactly when the group's numbers are all there, and otherwise changes nothing |
| `Collect.DrainEmpties` | crates/sct-core/src/adaptive/mod.rs:787-805 | a full group buffer is drained whole |
| `Stage.NewestWins` | crates/sct-core/src/adaptive/mod.rs:777-784 | of several packets with one number the newest is kept, and the others stay as they are |
| `Collector.FecStage.constructor` | crates/sct-core/src/adaptive/mod.rs:1495-1496 | the stage starts with nothing stashed and nothing sent |
| `Collector.FecStage.StashPacket` | crates/sct-core/src/adaptive/mod.rs:777-784 | the stash replaces a packet with the same number and otherwise appends |
| `Collector.FecStage.DrainOnce` | crates/sct-core/src/adaptive/mod.rs:787-805 | a group's buffer is sent as an encoded block and emptied exactly when it holds every number of the group |
| `Collector.FecStage.DrainGroup` | crates/sct-core/src/adaptive/mod.rs:1523-1529 | the drain loop terminates, keeps the balance between consumed, held and sent packets, and leaves no full buffer behind |
| `Protection.ServedProtects` | crates/sct-core/src/adaptive/mod.rs:1519-1530 | when every group is sent or waiting for a number that has not come, a group that came whole has been sent with its parity |
| `Collector.FecStage.Run` | crates/sct-core/src/adaptive/mod.rs:1519-1543 | each input number comes out at least once and at most as often as it went in, no data packet is invented, parity comes only from a block with every number of its group, every group that went in whole comes out with its parity, and at each point of the input exactly the groups that are whole by then have been sent |
| `Optimizer.ScheduleBlock` | crates/sct-core/src/adaptive/mod.rs:1218-1249 | an incomplete block gets three shards twice if it is a straggler, two twice if it lacks at most two, and otherwise one to three, as close as possible to what it requires |
| `Optimizer.MakeBlocks` | crates/sct-core/src/adaptive/mod.rs:1103-1123 | one block for each group, with nothing acknowledged, requiring all packets but the parity |
| `Optimizer.NearlyDoneFromTheStart` | crates/sct-core/src/adaptive/mod.rs:1218-1249 | such a block, with at most two packets beyond its shards, may send its first shards twice |
| `Optimizer.SendShards` | crates/sct-core/src/adaptive/mod.rs:1374-1432 | a block sends as many shards as decided or as it has, each twice if it is urgent, once if it is not to be repeated |
| `Optimizer.GroupPackets` | crates/sct-core/src/adaptive/mod.rs:1299-1307 | completed groups are left out, every other packet is filed under its group |
| `Optimizer.OptimizeTransfer` | crates/sct-core/src/adaptive/mod.rs:1285-1450 | it terminates for all utilities and outputs each packet of a group not completed once or twice, and nothing else |
| `Scheduler.MultiPathScheduler.RefillTokens` | crates/sct-core/src/adaptive/mod.rs:608-617 | the bucket gains the credit of the elapsed time, up to a tenth of a second, and never exceeds two full packets |
| `Scheduler.PacketPaysForItself` | crates/sct-core/src/adaptive/mod.rs:355-363 | a packet costs exactly what the target rate earns in the time it stands for |
| `Scheduler.MultiPathScheduler.DistributeAndSend` | crates/sct-core/src/adaptive/mod.rs:338-587 | while there is a path no packet is dropped: it goes to the best path, or to the second best when the scheduler explores, a second copy goes to the best path left exactly when the rule calls for one, copies in flight stay within the budget and 64, and only the deadline changes |
| `Scheduler.PickBest` | crates/sct-core/src/adaptive/mod.rs:493-503 | the loop finds the path that comes first by utility and then by index, leaving one out |
| `Scheduler.CopiedInNeed` | crates/sct-core/src/adaptive/mod.rs:521-560 | a packet below 128 KiB is sent twice if and only if a copy is worth more than the path and fits the limits, the path is poor or the deadline at most 15 ms away, strong parity does not cover a known block, and from 64 KiB on a datagram path is nearly lossless |
| `Scheduler.LargeCopiedInNeed` | crates/sct-core/src/adaptive/mod.rs:521-560 | a larger one if and only if a copy is worthwhile, its deadline is at most 15 ms away, the path is lossy or slow, the parity ratio is at most 0.24 and the second path is a stream |
| `Scheduler.CopyMonotone` | crates/sct-core/src/adaptive/mod.rs:532-560 | fewer copies in flight never take a copy away |
| `Scheduler.LargeOnlyInNeed` | crates/sct-core/src/adaptive/mod.rs:533-560 | a packet of 128 KiB or more is sent twice only near its deadline, with a parity ratio of at most 0.24 and over a stream, and never when the scheduler has just set its deadline |
| `Pipeline.ParityFor` | crates/sct-core/src/adaptive/mod.rs:1497-1518 | every group gets the base count within the cap, and one more exactly when it is a straggler and the base is below both the cap and half of the data shards |
| `Pipeline.AutopilotRuntime.RunPipeline` | crates/sct-core/src/adaptive/mod.rs:1452-1610 | every packet of a group not completed is handed to a path; if the batch carries chunks of the file, everything handed out is a data frame of the batch or a parity frame, with an index the receiver has a slot for, of a group that is whole in it, and a group that is whole in the batch goes out with all its parity frames; packets are sent in the order of the parity stage, fed by priority and then deadline |
| `Pipeline.SortsByPriority` | crates/sct-core/src/adaptive/mod.rs:1462-1476 | the batch is arranged by priority, and within one priority by deadline, packets without one last |
| `Pipeline.UrgentFirst` | crates/sct-core/src/adaptive/mod.rs:1462-1530 | a group whose packets are all more urgent than some number of another group is sent whole before anything of that group |
| `Sender.PlanFec` | crates/sct-core/src/sender/mod.rs:68-84 | the announced dimensions are two or four data shards and one to three parity shards, which the decoder accepts |
| `Sender.PlanIs` | crates/sct-core/src/sender/mod.rs:68-84 | a path within 120 ms and 8 % loss gets two parity shards for four, any other one to three for two |
| `Sender.PlanMonotone` | crates/sct-core/src/sender/mod.rs:68-84 | more loss or delay never gives larger chunks or groups, nor a smaller share of parity |
| `Sender.ChunkSizeIs` | crates/sct-core/src/adaptive/mod.rs:925-934 | each of two tests on round trip and loss divides the chunk size of 1 MiB by four |
| `Sender.ParityAfterFeedback` | crates/sct-core/src/sender/mod.rs:683-696 | the parity count after feedback stays within the manifest's count and the cap, for every loss and mode |
| `Sender.FeedbackMonotone` | crates/sct-core/src/sender/mod.rs:683-696 | more loss, more jitter or a bolder mode never takes parity away |
| `Sender.FeedbackExact` | crates/sct-core/src/sender/mod.rs:683-696 | where the bounds allow, the modes are one shard apart, and heavy loss calls for all the parity there is unless the mode is conservative |
| `Sender.PacketSize` | crates/sct-core/src/sender/mod.rs:450-474 | the size that the scheduler goes by is that of the chunk in the file |
| `Sender.RetransmitsAhead` | crates/sct-core/src/sender/mod.rs:450-474 | a retransmission is more urgent than a chunk sent for the first time, except among the first two chunks |
| `Sender.FileSender.constructor` | crates/sct-core/src/sender/mod.rs:269-300 | a sender starts at chunk zero with nothing sent and no block completed |
| `Sender.FileSender.ApplyFeedback` | crates/sct-core/src/sender/mod.rs:652-709 | exactly the block reported reconstructable is added to the completed ones |
| `Sender.FileSender.PushNackRetransmits` | crates/sct-core/src/sender/mod.rs:619-646 | at most eight missing chunks are added, none that is skipped or was retransmitted before, each as its data frame with the priority of a retransmission, and each of the first eight that is named, not skipped and new is added |
| `Sender.FileSender.FlushBatch` | crates/sct-core/src/sender/mod.rs:407-448 | a flush is one step of the sender's state machine: feedback, retransmissions, pipeline; as long as reports name chunks of the file, only frames of the transfer go out, with the parity that protects each group sent whole, and each of the first eight chunks named as missing is sent now unless it is skipped, was sent again before or belongs to a completed block |
| `Sender.FileSender.SendAdaptive` | crates/sct-core/src/sender/mod.rs:199-404 | on return every chunk was skipped, handed to a path, or belongs to a block that was reported complete, whatever the reports say; if they only name chunks of the file, nothing but frames of the transfer was handed out; the batches are as few as their size allows |
| `Joint.RunInv` | crates/sct-core/src/sender/mod.rs:343-387 | the joint invariant of sender, feedback and receiver holds in every world of every run |
| `Joint.CancelSafety` | crates/sct-core/src/adaptive/mod.rs:1299-1307 | a packet that a flush drops because its block is regarded as complete, a retransmission included, carries a chunk the part file holds, even when the feedback is stale |
| `Joint.WholeGroupsShielded` | crates/sct-core/src/adaptive/mod.rs:1519-1543 | a group that a flush sends whole has, from then on, all its data frames and as many parity frames handed out as the count in use says within the cap, which is at least one unless parity is withheld |
| `Joint.WholeGroupsGetParity` | crates/sct-core/src/sender/mod.rs:296-332 | with parity announced and no chunk of the first group skipped, a group sent whole always goes out with parity, and with all that was announced until the first report is read |
| `Joint.NoParityAfterGap` | crates/sct-core/src/sender/mod.rs:296-332 | when a chunk of the first group is skipped, no parity frame is handed out in any world of any run |
| `Joint.TransferSurvivesLoss` | crates/sct-core/src/sender/mod.rs:199-404 | when the sender is done and every group that lost a data frame was sent with some parity, lost no more frames than that and kept a data frame, every chunk not skipped is received, and if the skipped ones were in place the file is the source |
| `Joint.TransferCompletes` | crates/sct-core/src/sender/mod.rs:199-404 | the same when nothing is lost, whichever way the groups were sent |
| `Joint.ResumedFileIsSource` | crates/sct-core/src/sender/mod.rs:134-162 | under the same losses the part file of a resumed transfer becomes the source, with the skip set the sender computes from acknowledgements and hashes |
| `Joint.SkippedNeverCounted` | crates/sct-core/src/sender/mod.rs:343-387 | in every run a skipped chunk is counted exactly when it was from the start: it is not sent, not retransmitted, and its group gets no parity |
| `Joint.SessionFills` | crates/sct-core/src/receiver/mod.rs:189-252 | when the sender is done and the losses are tolerable, the receiver counts all chunks if and only if it counted every skipped one from the start |
| `Joint.ResumedSessionFills` | crates/sct-core/src/sender/mod.rs:134-162 | a resumed session then ends if and only if every chunk that matches by hash is listed |
| `Joint.UnlistedMatchStalls` | crates/sct-core/src/sender/mod.rs:136-158 | with a chunk that matches and is not listed, no world of any run counts all chunks |
| `Joint.StalledRun` | crates/sct-core/src/sender/mod.rs:136-158 | a run of a file of one chunk in which the sender is done without handing anything out, the file is the source, and the receiver waits |
| `Resume.BeginSafe` | crates/sct-core/src/receiver/mod.rs:113-169 | starting a session, with any chunk size, keeps the resume file truthful if and only if the bytes it keeps have every listed range in the sizes of the new session |
| `Resume.StartsFrom` | crates/sct-core/src/receiver/mod.rs:113-169 | without a part file or the wish to resume a session counts nothing and starts from zeros, otherwise it takes over the list and as much of the file as fits; the list on disk stays |
| `Histories.SizesDecide` | crates/sct-core/src/receiver/mod.rs:113-120 | a session may resume whatever safe histories that end with a given plan have left if and only if what each of its ranges has beyond that plan's range of the same index is zero in the source |
| `Histories.FitMeansAgree` | crates/sct-core/src/receiver/mod.rs:113-120 | equal chunk sizes, or a file in one chunk before, always fit, and nothing else does when the source has no zero byte |
| `Resume.ResumeSafety` | crates/sct-core/src/receiver/mod.rs:113-293 | over any number of crashes, torn writes, harmless lost writes, failures and restarts that start safely, each with its own chunk size, saved indices are chunks in place, a filled session has the source file, and an event fails only on a stream longer than 32 MiB |
| `Resume.BeginSafeTestable` | crates/sct-core/src/receiver/mod.rs:113-169 | when the sizes agree and no listed chunk is all zeros, that means an existing part file is resumed or the list is empty |
| `Resume.LostWriteSafe` | crates/sct-core/src/receiver/mod.rs:242-254 | losing an unflushed chunk keeps the resume file truthful if and only if the chunk is not listed |
| `Resume.ListedAtOnce` | crates/sct-core/src/receiver/mod.rs:242-254 | a chunk is listed by the frame that brings it exactly when a save is due at that count |
| `Histories.StaleResumeFile` | crates/sct-core/src/receiver/mod.rs:288-291 | three histories from an empty disk end at a resume file that names a chunk the part file lacks |
| `Histories.OtherChunkSize` | crates/sct-core/src/receiver/mod.rs:113-120 | a history whose steps are all safe but the last start, which takes over a list of another chunk size: the session is filled at once with a file that is not the source, which is renamed without the comparison of checksums, and with it never is |
| `Histories.RenamedIsSource` | crates/sct-core/src/receiver/mod.rs:254-292 | after any history at all, a file is renamed only by a full session whose file passed, so it is the source when checksums are compared and do not collide |
| `Resume.HashExistingChunks` | crates/sct-core/src/receiver/mod.rs:462-485 | each chunk of the part file that has a byte is hashed, up to the ends of the file and of the transfer |
| `Resume.ComputeSkip` | crates/sct-core/src/sender/mod.rs:136-158 | the skip set is what was acknowledged plus what matches by hash |
| `Resume.SkipSafe` | crates/sct-core/src/sender/mod.rs:136-158 | every skipped chunk is in the part file as the session opens it |
| `Samples.TransfersExist` | crates/sct-core/src/sender/mod.rs:86-132 | transfers that meet every assumption exist, for every file below 2^63 bytes |
| `Daemon.NextKeepsInv` | crates/sct-daemon/src/main.rs:369-377 | every lock section of every handler, of the scheduler and of a worker keeps the queue's invariant |
| `Daemon.NeverStranded` | crates/sct-daemon/src/main.rs:633-665 | in every interleaving each queued job has a heap entry or an enqueue with its current priority, is in the scheduler's hand, waits for a permit, or is about to start |
| `Daemon.PopsBest` | crates/sct-daemon/src/main.rs:633-650 | whatever happens between the pop and the check, an entry that starts its job then has the smallest priority number of the entries of the heap at the pop that are still live, and among equals it is the newest |
| `Daemon.RecordMoves` | crates/sct-daemon/src/main.rs:510-732 | what each of the eleven actions does to status, priority and attempts of a job, and that it leaves the other jobs alone |
| `Daemon.SubmittedIsNew` | crates/sct-daemon/src/main.rs:439-467 | a submitted job is queued, has not been tried, and nothing else changes |
| `Daemon.ConcurrencyBounded` | crates/sct-daemon/src/main.rs:649-656 | in every run the permits free and held stay as many as there were, and no more workers than that are under way |
| `Workers.WorkRunsOut` | crates/sct-daemon/src/main.rs:633-732 | without new requests, the steps of handlers, scheduler and workers, the ends of workers included, are bounded by a measure of the state |
| `Workers.QueueDrains` | crates/sct-daemon/src/main.rs:633-732 | a run without requests that cannot go on leaves no job queued if and only if there is a permit, free or held, or no job was queued |
| `Workers.ZeroPermitsStall` | crates/sct-daemon/src/main.rs:649 | without a permit, a submitted job stays queued for good |
| `Workers.OneWorkerEach` | crates/sct-daemon/src/main.rs:641-656 | no job ever has two workers if and only if no check passes while its job has one under way |
| `Workers.TwoWorkers` | crates/sct-daemon/src/main.rs:544-562 | a run with two workers for one job: its priority is updated before it has started |
| `Workers.NeverOrphaned` | crates/sct-daemon/src/main.rs:684-700 | from a state in which every active job has a worker, that stays so at all times if and only if no step stops the last worker of an active job |
| `Workers.ActiveHasWorker` | crates/sct-daemon/src/main.rs:684-700 | in every run that starts without active jobs, an active job has a worker or its cancellation channel has fired |
| `Workers.CancelledStaysActive` | crates/sct-daemon/src/main.rs:686-700 | a run after which a job, cancelled and queued again, is active in a daemon with nothing left to do |
| `Daemon.EmptyHeapMeansIdle` | crates/sct-daemon/src/main.rs:633-640 | when the heap is empty and nothing is in flight, no job is queued |
| `Daemon.RebuildQueue` | crates/sct-daemon/src/main.rs:295-303 | the rebuilt queue has exactly one entry per queued record, with its priority, and no other |
| `Daemon.Scheduler.constructor` | crates/sct-daemon/src/main.rs:295-303 | a restarted scheduler attends to every queued job |
| `Daemon.Scheduler.SubmitTransfer` | crates/sct-daemon/src/main.rs:439-467 | a submitted job is queued with its clamped priority and an enqueue on its way |
| `Daemon.Scheduler.EnqueueTransfer` | crates/sct-daemon/src/main.rs:369-377 | an enqueue turns into a heap entry with a new sequence number |
| `Daemon.Scheduler.CancelTransfer` | crates/sct-daemon/src/main.rs:510-518 | a known job becomes cancelled; its entries go stale |
| `Daemon.Scheduler.UpdatePriority` | crates/sct-daemon/src/main.rs:544-562 | the priority changes, and unless the job is active it is queued again with an enqueue of that priority |
| `Daemon.Scheduler.PopNext` | crates/sct-daemon/src/main.rs:635-640 | the top entry of the heap is taken, if there is one |
| `Daemon.Scheduler.CheckEntry` | crates/sct-daemon/src/main.rs:641-649 | the popped entry starts its job exactly when the job is queued with the entry's priority |
| `Daemon.Scheduler.SignalCancel` | crates/sct-daemon/src/main.rs:519-521 | the cancellation channel fires if it is there |
| `Daemon.Scheduler.AcquirePermit` | crates/sct-daemon/src/main.rs:649-656 | a free permit passes to the waiting job, and the number of permits stays the same |
| `Daemon.Scheduler.Start` | crates/sct-daemon/src/main.rs:656-667 | the job becomes active unless it was cancelled, in which case its worker leaves |
| `Daemon.Scheduler.Finish` | crates/sct-daemon/src/main.rs:697-732 | a failure is recorded, a success does not overwrite a cancellation, and a worker that is stopped or finds its job cancelled leaves the record as it is |
| `Daemon.Scheduler.ReleasePermit` | crates/sct-daemon/src/main.rs:656-732 | a worker that is done gives its permit back |
| `Journal.ApplyEvent` | crates/sct-daemon/src/main.rs:318-350 | the record gets every field that the event carries and keeps the others |
| `Journal.LoadRecords` | crates/sct-daemon/src/main.rs:253-293 | the loops are the replay of the log over the normalised snapshot |
| `Journal.ApplyMerge` | crates/sct-daemon/src/main.rs:318-350 | applying two events is applying their merge, in which the later value wins |
| `Journal.LastWins` | crates/sct-daemon/src/main.rs:318-350 | the merge of a log carries, for each field, the last value in the log |
| `Journal.FieldsAreFields` | crates/sct-daemon/src/main.rs:318-350 | that holds of all nine fields an event may carry |
| `Journal.LogDecides` | crates/sct-daemon/src/main.rs:266-293 | recovery knows exactly the transfers of snapshot and log, and gives every field of every one: the last value the log carries, or else the snapshot's, or else the blank record's |
| `Journal.FieldsAfter` | crates/sct-daemon/src/main.rs:253-293 | field by field: nine fields have the last value in the log or else what the record had, attempts stay, the update time is that of the last event, and a creation time that is set stays |
| `Journal.CreatedFirst` | crates/sct-daemon/src/main.rs:346-349 | a transfer that only the log knows was created at the time of its first event |
| `Journal.ActiveAfterRestart` | crates/sct-daemon/src/main.rs:253-293 | a recovered job is active if and only if the last status in the log is active |
| `Journal.StaysActive` | crates/sct-daemon/src/main.rs:253-293 | an active job of the snapshot is queued again without a log and stays active with a log of one event |
| `Journal.StatusAfter` | crates/sct-daemon/src/main.rs:266-293 | recovery gives a job the last status in the log, or else that of the snapshot, or else queued |
| `Ledger.RecoversMeansAgree` | crates/sct-daemon/src/main.rs:253-293 | restarts with all possible snapshots find the live statuses if and only if the last logged status of every job is the one its record has |
| `Ledger.ActAgrees` | crates/sct-daemon/src/main.rs:439-942 | each action of daemon and progress reports, with the line it writes, keeps that agreement unless it is a success of a cancelled job or a report on a job that is not active |
| `Ledger.LogTellsStatus` | crates/sct-daemon/src/main.rs:439-942 | in every run, restarts at all times find the live statuses if and only if no worker runs through a cancelled job and no progress report comes when its job is not active |
| `Ledger.CancelledThenCompleted` | crates/sct-daemon/src/main.rs:914-940 | a run after which a job is cancelled and every restart finds it completed |
| `Ledger.LateProgress` | crates/sct-daemon/src/main.rs:770-812 | a run after which a job is completed and every restart finds it active |
| `Journal.SnapshotIndependent` | crates/sct-daemon/src/main.rs:253-293 | with any snapshot, recovery agrees with recovery from the log alone on every field the log carries |
| `Journal.ReplayIdempotent` | crates/sct-daemon/src/main.rs:266-293 | replaying the log a second time changes nothing |
| `Journal.SnapshotRequeues` | crates/sct-daemon/src/main.rs:256-265 | a snapshot restored without a log gives each listed job its last record: an active one is queued, every other status and all other fields stay, and no job is added |
| `Journal.Restart` | crates/sct-daemon/src/main.rs:253-304 | a restarted daemon has the replayed records; a job has a queue entry if and only if it is queued, and is active if and only if the log says so last; priority, status and attempts are those of the record, and a queue entry has the priority of its job |
| `Telemetry.FrameEventBatch` | crates/sc-transport-quic/src/lib.rs:136-161 | the loop builds the batch frame, or fails exactly when a length or the count exceeds 32 bits |
| `Telemetry.ParseFramedEvents` | crates/sc-transport-quic/src/lib.rs:163-204 | the cursor loop parses what the recursive grammar of batches describes, with each error |
| `Telemetry.ReadFramed` | crates/sc-transport-quic/src/lib.rs:230-253 | reading takes exactly one frame, single or batch, off the stream and returns its events |
| `Telemetry.StreamRoundTrip` | crates/sc-transport-quic/src/lib.rs:103-253 | any sequence of single and batch frames reads back as the events in order, none lost and none repeated |
| `Telemetry.ReadLimit` | crates/sc-transport-quic/src/lib.rs:230-253 | a frame that was built is read if and only if its payload takes at most 64 MiB |
| `Telemetry.TruncatedRefused` | crates/sc-transport-quic/src/lib.rs:230-253 | a frame that breaks off anywhere is refused |
| `Telemetry.Reader.ReadFramedEvents` | crates/sc-transport-quic/src/lib.rs:230-253 | the stream advances past the frame that is returned |
| `Telemetry.Reader.ReadToEnd` | crates/sc-transport-quic/src/lib.rs:230-253 | repeated reads return all events of the stream |
| `Datagrams.RecordKeepsLast` | crates/sc-transport-datagrams/src/lib.rs:149-155 | one push and one pop keep the last W outcomes, for every window size, zero included |
| `Datagrams.DatagramTransport.RecordLossSample` | crates/sc-transport-datagrams/src/lib.rs:149-155 | the loss window is the last W outcomes recorded |
| `Datagrams.LossyIs` | crates/sc-transport-datagrams/src/lib.rs:157-182 | the window is too lossy if and only if it holds ten outcomes and the losses exceed the threshold |
| `Datagrams.LastOutcomesDecide` | crates/sc-transport-datagrams/src/lib.rs:157-182 | whatever the threshold, a window of losses falls back from ten outcomes on, one of deliveries never, and a window of less than ten never |
| `Datagrams.OneInEvery` | crates/sc-transport-datagrams/src/lib.rs:120-126 | of any n progress events in a row exactly one is dropped for its rate |
| `Datagrams.EncodedFits` | crates/sc-transport-datagrams/src/lib.rs:184-215 | an event can be encoded if and only if what goes into the datagram fits, and it goes in whole whenever that fits |
| `Datagrams.DatagramTransport.SendEvent` | crates/sc-transport-datagrams/src/lib.rs:442-560 | window and published log are functions of the whole history of events and routes, and status and counters say what became of the event: a loss falls back exactly when the window is too lossy |
| `Datagrams.PublishedOnce` | crates/sc-transport-datagrams/src/lib.rs:442-560 | each event is published exactly once and in order unless it was dropped before the send |
| `Datagrams.LifecycleSurvives` | crates/sc-transport-datagrams/src/lib.rs:120-147 | a lifecycle event is dropped if and only if it is marked lost or cannot be encoded, and is not forced to fall back |
| `Datagrams.Transparent` | tests/integration/transport_transparency.rs:17-36 | if no lifecycle event is marked lost or impossible to encode, subscribers derive the final state of what was sent |
| `Reorder.ReorderBuffer.constructor` | crates/sct-core/src/adaptive/mod.rs:627-636 | a new buffer holds nothing and waits for number zero |
| `Reorder.ReorderBuffer.Ingest` | crates/sct-core/src/adaptive/mod.rs:639-648 | no packet still due is lost, even when the set of ids seen is cleared |
| `Reorder.ReorderBuffer.ReassembleReady` | crates/sct-core/src/adaptive/mod.rs:650-666 | the packets emitted over all calls are numbers 0, 1, 2, ... up to the first gap in everything offered |
| `Reorder.FirstGapUnique` | crates/sct-core/src/adaptive/mod.rs:650-666 | what has been emitted after a call is determined by what was offered |
| `Congestion.DropOld` | crates/sc-transport-quic/src/congestion.rs:78-84 | popping from the front keeps exactly the samples at or after the cutoff |
| `Congestion.SinceTwice` | crates/sct-core/src/congestion/mod.rs:97-105 | two cutoffs in turn are the larger of the two |
| `Congestion.MaxRateIsMaximum` | crates/sc-transport-quic/src/congestion.rs:85 | the fold is the maximum of the rates and zero |
| `Congestion.LeastIsMinimum` | crates/sc-transport-quic/src/congestion.rs:88-98 | the fold over the round trips is their minimum |
| `Congestion.PipeLaw` | crates/sc-transport-quic/src/congestion.rs:75-103 | a path that carries some bytes in some time has, over a round trip, a delay product of that many bytes in proportion |
| `Congestion.RateUnit` | crates/sc-transport-quic/src/congestion.rs:75-76 | a rate is in bits per second |
| `Congestion.WindowsOrdered` | crates/sc-transport-quic/src/congestion.rs:151-168 | with usual gains the drain window is at most the delay product, probing at least, startup the largest, and the probe of the round trip at most the initial window; each is its gain times the product, rounded down |
| `Congestion.DefaultsAreUsual` | crates/sc-transport-quic/src/congestion.rs:19-31 | the default gains are usual |
| `Congestion.GainsEvenOut` | crates/sc-transport-quic/src/congestion.rs:158-160 | the gains of a cycle add up to eight, first up and then down |
| `Congestion.BbrWindowsOrdered` | crates/sct-core/src/congestion/mod.rs:140-181 | the same of the other controller, with or without a limit by the application |
| `Congestion.RestingWindow` | crates/sct-core/src/congestion/mod.rs:171-178 | its probe of the round trip shrinks the window, but not below four packets |
| `Congestion.ReachesProbing` | crates/sct-core/src/congestion/mod.rs:140-178 | once three rounds were flat and the minimum is old, two acknowledgements lead from any state to probing for bandwidth |
| `Congestion.StaysUntilDue` | crates/sct-core/src/congestion/mod.rs:140-178 | startup and the probe of the round trip are left for no other reason |
| `Congestion.QuicController.UpdateBandwidthModel` | crates/sc-transport-quic/src/congestion.rs:75-86 | the deque is exactly the samples of the last three seconds of the whole history, with their maximum |
| `Congestion.QuicController.UpdateRttModel` | crates/sc-transport-quic/src/congestion.rs:88-98 | the minimum round trip is the minimum since the filter was last reset |
| `Congestion.QuicController.OnAck` | crates/sc-transport-quic/src/congestion.rs:139-172 | an acknowledgement keeps both filters true to the history, sets the window to the target of the new state and at least two segments, and steps through the gain cycle; over any sequence of acknowledgements startup lasts exactly until three in a row see no growth by a quarter and never comes back, and no visit to ProbeRtt outlasts its duration; after the first acknowledgement the delay product is the bytes it covers or the initial window, and while draining the window is at most that product |
| `Congestion.QuicController.OnCongestionEvent` | crates/sc-transport-quic/src/congestion.rs:174-183 | loss does not shrink the window |
| `Congestion.BbrController.UpdateBandwidth` | crates/sct-core/src/congestion/mod.rs:96-116 | the deque is the history at or after the largest cutoff so far; the maximum is renewed unless the sender was limited by the application |
| `Congestion.BbrController.UpdateMinRtt` | crates/sct-core/src/congestion/mod.rs:118-126 | the minimum round trip is the minimum since the last filter reset, which also enters ProbeRtt |
| `Congestion.BbrController.OnAcked` | crates/sct-core/src/congestion/mod.rs:88-181 | an acknowledgement keeps both filters true to the history and the delay product at four packets or more; over any sequence of them startup lasts exactly until three in a row see no growth by a twentieth or the filter is reset, and ProbeRtt less than 200 ms after the last new minimum; it gives the window, the next state, the place in the gain cycle and the delay product exactly, after the first acknowledgement in terms of the bytes covered |
| `Congestion.BbrController.OnMtuUpdate` | crates/sct-core/src/congestion/mod.rs:208-211 | the window grows to four packets of the new size and never shrinks |
| `Congestion.BbrController.Window` | crates/sct-core/src/congestion/mod.rs:213-215 | the window is at least two packets |

## Left out

- TLS, sockets, QUIC endpoints, HTTP routes, the command line, benchmarks and plugins: wrappers around I/O.
- The formulas of the utility and forecast heuristics: their values are inputs, and any values are allowed.
- Errors of the file system and of the network: apart from the limit on the length of a stream, a read or write succeeds.
- Buffering of more than one write: a kill may tear the write under way or lose one completed chunk that is not flushed.
- Length-prefixed control messages and the final acknowledgement with the whole-file hash.
- The order in which handlers append their lines to the log: a line is taken to be written with the action it tells of, except for progress reports, which may come at any time.
- Whether the cancellation channel of a job exists and has a listener when it is fired: both outcomes are allowed.
- The single-event reader on batch frames, which keeps only the first event; subscriber lag in the event stream; the simulated-loss test hooks.
- The set of blocks known to be reconstructable in the scheduler: whether a block is in it is an input of the rule for second copies.
- Resume.SkipSafe: assumes that no chunk of the part file collides with a different chunk of the source under BLAKE3.
- Sender.FileSender.FlushBatch: assumes that the numbers in a report leave room for a group below 2^64; nearer to that limit the search for a group saturates and finds fewer numbers. The receiver's reports name chunks of the file (Runs.ReportTruthful).
- Sender.FileSender.SendAdaptive: assumes the same of every report.
- Optimizer.OptimizeTransfer: does not model the index into an empty list of paths; the sender always has two.
- Congestion.QuicController.OnAck: rates and gains are real numbers, without floating-point rounding, and times are whole microseconds.
- Congestion.BbrController.OnAcked: as above; the variance estimate and the pacing rate are not modelled.
- Scheduler.MultiPathScheduler.DistributeAndSend: utilities, loss, delay and the two limits on copies are inputs, as real numbers; the limits are bounded as the code clamps them.
