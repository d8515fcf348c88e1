# Source nodes of the streaming engine, and the file-scan descriptor

This project models two sequential pieces of the Polars query engine in Dafny.

**The source-node adapter** (`io_sources.dfy`, module `IoSources`). `SourceComputeNode` wraps a
source node, a producer of morsels, as a compute node of the streaming engine. It has three jobs:

- Each phase it reports the readiness of its single send port.
- On the first `spawn` it starts the producer's background tasks. Later phases reuse them.
- Each phase it registers one driving task. That task hands the producer a `SourceOutput` through
  a single-slot connector and waits for the producer to drop it. If the phase was stopped, the task
  returns. Otherwise it drains the background join handles and returns the first error.

The engine runs these as asynchronous tasks. The model replaces them with a sequential abstraction:

- A join handle is the result its task ends with. The handle set is the sequence of those results
  in completion order.
- The connector send is a boolean outcome.
- The wait group is a counter of tokens not yet dropped.
- The producer's handling of one output is one step, `ConsumePhaseOutput`.
- `PhaseOutcomeToken` wraps a heap cell (`StopFlag`), so clones alias one flag, as `Arc<AtomicBool>`
  clones do.

`scenarios.dfy` holds client methods. They drive a node through phase sequences using only the
contracts: natural finish, a stop and then a resumed phase, first error wins, a producer that has
already shut down, and stopping through a clone.

**The file-scan descriptor** (`file_scan.dfy`, module `FileScanDsl`). `FileScan` says which format a
scan reads: Csv, NDJson, Parquet, Ipc or Anonymous. Plans are cached using its equality and hash, so
the model proves these facts about them:

- Equality ignores cached metadata.
- Equality never holds for `Anonymous`.
- The hash agrees with equality.
- `remove_metadata` keeps a scan equal to its original and keeps its capabilities.

The option, metadata and cloud-option payloads are opaque types with equality.

## Model

| member | source | states |
|---|---|---|
| FileScanDsl.RemoveMetadata | crates/polars-plan/src/dsl/file_scan.rs:161-173 | Parquet and Ipc lose their metadata, their options and cloud options are kept, and every other variant is unchanged |
| FileScanDsl.Eq | crates/polars-plan/src/dsl/file_scan.rs:59-112 | equal scans have the same variant and neither is Anonymous; equal exactly when not Anonymous and equal once metadata is removed |
| FileScanDsl.Discriminant | crates/polars-plan/src/dsl/file_scan.rs:119 | one of five values, a distinct one per variant (see DiscriminantIdentifiesVariant) |
| FileScanDsl.DiscriminantIdentifiesVariant | crates/polars-plan/src/dsl/file_scan.rs:119 | two scans have the same discriminant exactly when they are of the same variant |
| FileScanDsl.HashInput | crates/polars-plan/src/dsl/file_scan.rs:117-157 | the hasher is fed the discriminant first, then the variant's own options, then (except for Anonymous) the cloud options; Anonymous feeds only its options, never its scan function; the discriminant appears only first |
| FileScanDsl.HashInputDeterminedBy | crates/polars-plan/src/dsl/file_scan.rs:117-157 | two scans feed the hasher the same components exactly when they are equal, or both are Anonymous with the same options |
| FileScanDsl.Flags | crates/polars-plan/src/dsl/file_scan.rs:175-188 | SPECIALIZED_PREDICATE_FILTER is set exactly for Parquet, and no other bit is ever set |
| FileScanDsl.SortProjection | crates/polars-plan/src/dsl/file_scan.rs:190-201 | true exactly for Csv, and for Ipc when a row index is requested |
| FileScanDsl.Streamable | crates/polars-plan/src/dsl/file_scan.rs:203-216 | true exactly for Csv and Parquet |
| FileScanDsl.EqReflexiveExceptAnonymous | crates/polars-plan/src/dsl/file_scan.rs:110-115 | a scan equals itself exactly when it is not Anonymous, although the type declares `Eq` |
| FileScanDsl.EqSymmetric | crates/polars-plan/src/dsl/file_scan.rs:59-112 | equality is symmetric |
| FileScanDsl.EqTransitive | crates/polars-plan/src/dsl/file_scan.rs:59-112 | equality is transitive |
| FileScanDsl.EqIgnoresMetadata | crates/polars-plan/src/dsl/file_scan.rs:73-98 | two Parquet, or two Ipc, scans that differ only in metadata are equal |
| FileScanDsl.RemoveMetadataKeepsEq | crates/polars-plan/src/dsl/file_scan.rs:161-173 | a non-Anonymous scan stays equal to itself with its metadata removed |
| FileScanDsl.HashConsistentWithEq | crates/polars-plan/src/dsl/file_scan.rs:117-157 | equal scans feed the hasher identical components |
| FileScanDsl.EqFromHashInput | crates/polars-plan/src/dsl/file_scan.rs:117-157 | for non-Anonymous scans, identical hash components imply equality |
| FileScanDsl.HashIgnoresMetadata | crates/polars-plan/src/dsl/file_scan.rs:129-146 | removing the metadata does not change the hash components |
| FileScanDsl.RemoveMetadataIdempotent | crates/polars-plan/src/dsl/file_scan.rs:161-173 | removing metadata twice is the same as removing it once |
| FileScanDsl.RemoveMetadataPreservesCapabilities | crates/polars-plan/src/dsl/file_scan.rs:161-216 | flags, sort_projection and streamable do not change when metadata is removed |
| FileScanDsl.EqPreservesCapabilities | crates/polars-plan/src/dsl/file_scan.rs:59-216 | equal scans report the same flags, sort_projection and streamable |
| IoSources.SendPort.SerialSender | crates/polars-stream/src/nodes/io_sources/mod.rs:122 | `send.serial()` gives the single sender, that of lane 0 |
| IoSources.SendPort.ParallelSenders | crates/polars-stream/src/nodes/io_sources/mod.rs:120 | `send.parallel()` gives one sender per pipeline, the i-th for lane i |
| IoSources.SourceOutputPort.IntoSerial | crates/polars-stream/src/nodes/io_sources/mod.rs:245-250 | defined only on a Serial port (the source panics otherwise), returning the sender it wraps |
| IoSources.SourceOutputPort.IntoParallel | crates/polars-stream/src/nodes/io_sources/mod.rs:252-257 | defined only on a Parallel port (the source panics otherwise), returning the senders it wraps |
| IoSources.PhaseOutcomeToken.New | crates/polars-stream/src/nodes/io_sources/mod.rs:161-165 | a new token has a fresh flag, is not stopped and reports finished |
| IoSources.PhaseOutcomeToken.Clone | crates/polars-stream/src/nodes/io_sources/mod.rs:153-158 | a clone shares the same flag, so it reads the same outcome |
| IoSources.PhaseOutcomeToken.DidFinish | crates/polars-stream/src/nodes/io_sources/mod.rs:172-180 | was_stopped reads the flag shared by all clones, and did_finish is exactly its negation |
| IoSources.PhaseOutcomeToken.Stop | crates/polars-stream/src/nodes/io_sources/mod.rs:167-170 | after stop, was_stopped is true and did_finish is false, whatever the flag was, so stop is idempotent; of all methods only Stop and ConsumePhaseOutput have an existing flag in their frame, and their contracts only ever set it; every other method modifies only objects that hold no flag, or flags it has just allocated |
| IoSources.WaitGroup.constructor | crates/polars-stream/src/nodes/io_sources/mod.rs:207 | a new wait group has no live token |
| IoSources.WaitGroup.Token | crates/polars-stream/src/nodes/io_sources/mod.rs:211 | issues a fresh token of this group, adding it to the live tokens and incrementing the outstanding count |
| IoSources.WaitGroup.Drop | crates/polars-stream/src/nodes/io_sources/mod.rs:188-190 | dropping a live token removes it and decrements the outstanding count |
| IoSources.WaitGroup.WaitResolves | crates/polars-stream/src/nodes/io_sources/mod.rs:129 | `wait()` resolves exactly when no issued token is still live |
| IoSources.SourceOutput.FromPort | crates/polars-stream/src/nodes/io_sources/mod.rs:204-215 | a fresh unstopped token, a fresh wait group whose one live token the output holds, and an output whose outcome aliases the returned token |
| IoSources.MorselOutput.FromPort | crates/polars-stream/src/nodes/io_sources/mod.rs:218-233 | the same for a single lane, and the output keeps the given sender and source token |
| IoSources.ConsumePhaseOutput | crates/polars-stream/src/nodes/io_sources/mod.rs:268-273 | the producer sets the outcome to stopped exactly when stopped, and dropping the output releases its wait token |
| IoSources.NextSendState | crates/polars-stream/src/nodes/io_sources/mod.rs:72-82 | the port becomes Done exactly when it was Done or the node is exhausted, otherwise Ready, and never Blocked |
| IoSources.ChooseOutputPort | crates/polars-stream/src/nodes/io_sources/mod.rs:115-123 | Parallel exactly when the source prefers parallel output for the receiver's seriality, with one sender per pipeline; Serial otherwise |
| IoSources.FirstError | crates/polars-stream/src/nodes/io_sources/mod.rs:140-144 | the drain fails exactly when some handle failed, and the error it returns is one of the handles' errors |
| IoSources.RemainingAfterDrain | crates/polars-stream/src/nodes/io_sources/mod.rs:140-142 | the handles left after the drain are a suffix of the handles, strictly shorter when there were any |
| IoSources.DrainStopsAtFirstError | crates/polars-stream/src/nodes/io_sources/mod.rs:140-142 | when the handle at i is the first to fail, the drain returns its error and keeps exactly the handles after it |
| IoSources.DrainAllSucceed | crates/polars-stream/src/nodes/io_sources/mod.rs:140-144 | when every handle succeeds, the drain returns Ok and leaves no handles |
| IoSources.DrainEmptiesHandles | crates/polars-stream/src/nodes/io_sources/mod.rs:140-144 | no handle is left after the drain exactly when it succeeded or the first failure was the last handle |
| IoSources.StartedSourceComputeNode.DrainJoinHandles | crates/polars-stream/src/nodes/io_sources/mod.rs:140-144 | the `while let` loop returns FirstError of the handles and leaves RemainingAfterDrain of them |
| IoSources.SourceComputeNode.constructor | crates/polars-stream/src/nodes/io_sources/mod.rs:50-55 | a new node keeps its source and has not started |
| IoSources.SourceComputeNode.UpdateState | crates/polars-stream/src/nodes/io_sources/mod.rs:63-85 | requires no receive port and exactly one send port; the send port becomes NextSendState of its old state and of whether the node is started with no handles left; returns Ok |
| IoSources.SourceComputeNode.Spawn | crates/polars-stream/src/nodes/io_sources/mod.rs:87-124 | requires the same port shape and a present send port; calls spawn_source only if not started, so it runs once; never resets or replaces the started state; takes the send port; registers a driver over ChooseOutputPort |
| IoSources.SourceComputeNode.RunPhaseDriver | crates/polars-stream/src/nodes/io_sources/mod.rs:124-145 | a sent and stopped phase returns Ok and leaves the handles untouched; otherwise it returns FirstError of the handles and keeps RemainingAfterDrain of them; an exhausted node stays exhausted |
| IoSources.UpdateStateIdempotent | crates/polars-stream/src/nodes/io_sources/mod.rs:72-82 | a second readiness check gives the same port state as the first |
| IoSources.DoneIsSticky | crates/polars-stream/src/nodes/io_sources/mod.rs:80-82 | a Done port stays Done whatever the node's state |

## Left out

- Asynchronous execution is replaced by the sequential abstraction described above. Left out are
  `scope.spawn_task` and its priority, the connector channel, the waker mechanics of
  `WaitGroup::wait`, `FuturesUnordered` polling and the `AbortOnDropHandle` cancellation.
  The wait group's own module is not part of this model. It is a token counter (`WaitGroup`), and
  its `wait()` is the predicate `WaitResolves`.
- The memory ordering of the `AtomicBool` is left out. The flag is a plain shared `bool`.
- `config::verbose()` and `eprintln!` logging are left out, and so is `name()`, which only feeds
  that logging. These are I/O.
- `SourceNode::spawn_source` implementations are not part of this model. The node's source carries
  the results its tasks will complete with, and its `is_source_output_parallel` as a total function.
  The optional row-count `oneshot` sender (always `None` in `spawn`) is left out.
- `SendPort::serial` and `SendPort::parallel` belong to the compute-node prelude, which is not part
  of this model. A send port is its receiver's seriality and its pipeline count.
- `StreamingExecutionState` is left out, since the adapter only passes it through.
- `RowRestriction` is left out: it only wraps an opaque predicate, with no logic here.
- The submodules `batch`, `csv`, `ipc`, `ndjson`, `parquet`, `multi_scan` and `multi_file_reader`
  are not part of this model.
- The option, metadata, cloud-option and `AnonymousScan` types are opaque types with equality.
  Concrete hasher behaviour is left out (the hash is modelled as the components fed to it), and so
  are serde, `IntoStaticStr` and feature gating. Every format feature is assumed enabled.
- Cancelling sibling tasks is left out. When the drain returns on the first error, the code keeps
  the remaining handles in the node's started state, which it holds by `&mut`. It does not drop or
  abort them at that point. The model keeps them too (`RemainingAfterDrain`), so a node that failed
  this way does not report `Done` while handles remain after the failing one. Dropping the node,
  which would abort them, is outside the model.
