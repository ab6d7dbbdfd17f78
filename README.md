# ProcessorSampler, modelled in Dafny

`ProcessorSampler` (cirq_google) adapts a remote quantum processor to the
`cirq.Sampler` interface. It keeps a processor and an execution identity: a
run name and a device configuration name. Construction requires that the two
names are both empty or both given. A sweep run becomes exactly one processor
sweep job carrying that identity. A batch run becomes one processor batch job
when all the circuits' repetition counts are equal. Every other batch goes to
the per-circuit path inherited from `cirq.Sampler`, and that includes the
empty batch.

The model is one module, `ProcessorSampling`, in `processor_sampler.dfy`:

- Circuits, sweeps and engine results are abstract types. Their contents are
  never looked at.
- `ValidateIdentity` is the construction check. `ChooseRoute` is the dispatch
  test `len(set(repetitions)) == 1`. Both are pure functions, with lemmas about
  them.
- `Processor` stands for the remote processor. It records every job submitted
  to it in `submissions`; a job is its index there. It answers job j with
  `sweepResults(j)` or `batchResults(j)`, functions fixed when it is made and
  keyed by the job, not by its content. So two identical submissions may get
  different results, and a result is tied to the job that produced it.
- `ProcessorSampler` keeps `processor`, `runName` and `deviceConfigName` as
  `const` fields, so a run cannot change them. `Valid()` says the stored
  identity is consistent. The constructor establishes it, and every run
  requires it and passes it on to each job it submits. `Create` is the
  constructor that can fail.
- `RunSweep` and `RunBatch` state exactly which jobs reach the processor, and
  which job's answer each returned result is. `BaseRunBatch` is the per-circuit path inherited from
  `cirq.Sampler`, which `super()` reaches on the sampler itself. It submits
  one sweep job per circuit, through `RunSweep`, in circuit order, and its
  result k is the answer to job k of the run. `PerCircuitJobs` lists those jobs.
- `Client` shows what a caller can conclude from those contracts alone.
  It uses the example batches `[3, 3, 3]`, `[2, 5]` and the empty batch.
  The last two become two sweep jobs and no job at all.

## Model

| member | source | states |
|---|---|---|
| `ProcessorSampling.ValidateIdentity` | cirq-google/cirq_google/engine/processor_sampler.py:52-53 | fails with ValueError and the source's message exactly when one name is empty and the other is not; passes exactly when both are empty or both are set |
| `ProcessorSampling.SingleDistinctIffUniform` | cirq-google/cirq_google/engine/processor_sampler.py:89 | a repetitions list has exactly one distinct value if and only if it is non-empty and all of its entries are equal |
| `ProcessorSampling.ChooseRoute` | cirq-google/cirq_google/engine/processor_sampler.py:89-99 | picks the batch job exactly when the counts are non-empty and uniform; the job then carries `repetitions[0]`, which every entry equals; the empty list is delegated |
| `ProcessorSampling.MixedRepetitionsDelegate` | cirq-google/cirq_google/engine/processor_sampler.py:99-103 | two different counts anywhere in the list send the batch to the inherited path |
| `ProcessorSampling.IdenticalRepetitionsBatch` | cirq-google/cirq_google/engine/processor_sampler.py:84-89 | a non-empty list of identical counts n, which is also a broadcast scalar n, takes the batch path with count n |
| `ProcessorSampling.RouteDependsOnlyOnDistinctValues` | cirq-google/cirq_google/engine/processor_sampler.py:89 | two count lists with the same set of values take the same route, with the same count; order and multiplicity do not matter |
| `ProcessorSampling.ProcessorSampler.Create` | cirq-google/cirq_google/engine/processor_sampler.py:52-57 | fails exactly when `ValidateIdentity` fails, with its error; otherwise it returns a new, valid sampler that stores the processor and both names unchanged, and whose `processor` accessor gives back that processor |
| `ProcessorSampling.ProcessorSampler.constructor` | cirq-google/cirq_google/engine/processor_sampler.py:55-57 | stores the processor and both names unchanged and establishes `Valid()`, the consistent identity; only reachable once the identity has been checked |
| `ProcessorSampling.ProcessorSampler.GetProcessor` | cirq-google/cirq_google/engine/processor_sampler.py:107-109 | the `processor` property returns the stored processor |
| `ProcessorSampling.ProcessorSampler.RunSweep` | cirq-google/cirq_google/engine/processor_sampler.py:59-69 | appends exactly one sweep job to the processor, carrying the program, params, repetitions and the stored, consistent names; returns the answer to that new job |
| `ProcessorSampling.ProcessorSampler.RunBatch` | cirq-google/cirq_google/engine/processor_sampler.py:73-103 | on the batch route, appends exactly one batch job with all programs, the params list, `repetitions[0]` and the stored names, and returns that job's batched answer; on the other route, the empty batch included, it appends no batch job, only the per-circuit sweep jobs of `PerCircuitJobs`, and returns one result list per circuit, list k being the answer to the k-th new sweep job, which runs circuit k; every appended job carries a consistent identity |
| `ProcessorSampling.ProcessorSampler.BaseRunBatch` | cirq-google/cirq_google/engine/processor_sampler.py:102 | the inherited per-circuit path run on the sampler itself: appends exactly `PerCircuitJobs`, one sweep job per circuit with its own params and count and the stored names, and returns that many result lists, list k being the answer to the k-th new job, which runs circuit k |
| `ProcessorSampling.PerCircuitJobs` | cirq-google/cirq_google/engine/processor_sampler.py:99-103 | one sweep job per circuit, job k carrying circuit k, its params, its repetition count and the given identity |
| `ProcessorSampling.Processor.RunSweep` | cirq-google/cirq_google/engine/processor_sampler.py:62-68 | the remote sweep submission: records one sweep job and returns its index |
| `ProcessorSampling.Processor.Results` | cirq-google/cirq_google/engine/processor_sampler.py:69 | the results of a submitted job are the processor's answer to that job, keyed by the job |
| `ProcessorSampling.Processor.RunBatch` | cirq-google/cirq_google/engine/processor_sampler.py:91-97 | the remote batch submission: records one batch job and returns its index |
| `ProcessorSampling.Processor.BatchedResults` | cirq-google/cirq_google/engine/processor_sampler.py:98 | the batched results of a submitted job are the processor's answer to that job, keyed by the job |

## Left out

- The argument normaliser `_normalize_batch_args` (line 88) comes from `cirq.Sampler` and is not part of this model. `RunBatch` takes its output. The one thing assumed of that output is the precondition that the params list and the repetitions list have one entry per program. That a scalar count becomes a list of equal counts is likewise assumed; `IdenticalRepetitionsBatch` covers such lists.
- The body of the inherited `cirq.Sampler.run_batch_async` (line 102) is not in the modelled source. `BaseRunBatch` assumes that it makes one `run_sweep_async` call on the sampler per circuit, with results in circuit order. The model submits those jobs one after another, in circuit order. Whether the inherited path runs them concurrently, and so in what order the processor receives them, is not captured. Any re-normalising of the arguments inside that path is not modelled either.
- The remote processor's job protocol, including `run_sweep_async`, `run_batch_async`, `results_async` and `batched_results_async`, is network I/O. Each call is a recorded submission, and each result is a fixed function of the job, not a sampled outcome. Backend errors, which the sampler passes on unchanged, are not modelled.
- ProcessorSampling.ProcessorSampler.RunBatch: on the batch route it returns the processor's batched answer unchecked, as line 98 does. So the promise of one result list per circuit, in circuit order, holds there only if the processor keeps to it. The model states that promise only for the per-circuit route.
- The `duet.sync` wrappers `run_sweep` and `run_batch` (lines 71 and 105) only run the asynchronous methods to completion. Asynchrony and concurrency are not modelled: each call is one sequential step.
- The `cast` at line 100 only matters to the type checker and has no counterpart here.
- The contents of circuits, sweeps and `EngineResult` are not modelled, and neither are the default argument values.
