/** A model of cirq_google's ProcessorSampler: an adapter that exposes a remote
    quantum processor through the Sampler interface.

    The sampler keeps three immutable things (the processor, a run name and a
    device configuration name), checks at construction that the two names are
    given together or not at all, forwards single sweeps to the processor, and
    submits a whole batch as one processor job exactly when every circuit asks
    for the same number of repetitions; other batches go to the per-circuit
    path the sampler inherits from the generic Sampler.

    Circuits, sweeps and results are not interpreted, so they are abstract
    types. The remote processor is external: a class that records the jobs it
    was handed and answers each with results picked by functions fixed when it
    was made. The inherited per-circuit path runs one sweep per circuit through
    the sampler itself, so its jobs reach that same processor.
 */
module ProcessorSampling {

  /** A circuit (cirq.AbstractCircuit); its contents are not modelled. */
  type Circuit

  /** A parameter sweep (cirq.Sweepable); its contents are not modelled. */
  type Sweep

  /** One result of running a circuit at one sweep point (cg.EngineResult). */
  type EngineResult

  /** The error raised when the execution identity is only half given. */
  datatype ConfigError = ValueError(message: string)

  const OnlyOneIdentityName: string :=
    "Cannot specify only one of `run_name` and `device_config_name`"

  datatype Result<T> = Success(value: T) | Failure(error: ConfigError)

  // ---------------------------------------------------------------------------
  // Execution identity

  /** Python's truth value of a string: it is true when the string is not empty. */
  predicate IsSet(name: string) {
    |name| > 0
  }

  /** The identities the sampler accepts: both names empty, or both given. */
  predicate ConsistentIdentity(runName: string, deviceConfigName: string) {
    (!IsSet(runName) && !IsSet(deviceConfigName)) || (IsSet(runName) && IsSet(deviceConfigName))
  }

  /** The check made when a sampler is built: it fails exactly when one of the
      two names is given and the other is empty. */
  function ValidateIdentity(runName: string, deviceConfigName: string): (r: Result<()>)
    ensures r.Success? <==> ConsistentIdentity(runName, deviceConfigName)
    ensures r.Failure? ==> r.error == ValueError(OnlyOneIdentityName)
  {
    if IsSet(runName) != IsSet(deviceConfigName) then Failure(ValueError(OnlyOneIdentityName)) else Success(())
  }

  // ---------------------------------------------------------------------------
  // The batch dispatch decision

  /** The set of distinct repetition counts of a batch (Python's set(repetitions)). */
  function DistinctRepetitions(repetitions: seq<int>): set<int> {
    set r | r in repetitions
  }

  /** Every circuit of a non-empty batch asks for the same number of repetitions. */
  predicate Uniform(repetitions: seq<int>) {
    |repetitions| > 0 && forall i | 0 <= i < |repetitions| :: repetitions[i] == repetitions[0]
  }

  /** Where a batch goes: one processor batch job with a shared repetition count,
      or the inherited per-circuit path. */
  datatype Route = BatchJob(repetitions: int) | Delegated

  /** A batch has exactly one distinct repetition count just when it is
      non-empty and uniform. */
  lemma SingleDistinctIffUniform(repetitions: seq<int>)
    ensures |DistinctRepetitions(repetitions)| == 1 <==> Uniform(repetitions)
  {
    var distinct := DistinctRepetitions(repetitions);
    if Uniform(repetitions) {
      assert repetitions[0] in distinct;
      assert distinct == {repetitions[0]};
    }
    if |distinct| == 1 {
      assert |repetitions| > 0;
      var x := repetitions[0];
      assert x in distinct;
      assert |distinct - {x}| == 0;
      assert distinct == {x};
      forall i | 0 <= i < |repetitions|
        ensures repetitions[i] == x
      {
        assert repetitions[i] in distinct;
      }
    }
  }

  /** The dispatch test of run_batch_async: one batch job, carrying the first
      count, exactly when the batch has a single distinct repetition count. */
  function ChooseRoute(repetitions: seq<int>): (route: Route)
    ensures route.BatchJob? <==> Uniform(repetitions)
    ensures route.BatchJob? ==> forall i | 0 <= i < |repetitions| :: repetitions[i] == route.repetitions
    ensures route.BatchJob? ==> route.repetitions == repetitions[0]
    ensures repetitions == [] ==> route == Delegated
  {
    SingleDistinctIffUniform(repetitions);
    if |DistinctRepetitions(repetitions)| == 1 then BatchJob(repetitions[0]) else Delegated
  }

  /** Two different counts anywhere in the batch send it down the per-circuit path. */
  lemma MixedRepetitionsDelegate(repetitions: seq<int>, i: nat, j: nat)
    requires i < |repetitions| && j < |repetitions| && repetitions[i] != repetitions[j]
    ensures ChooseRoute(repetitions) == Delegated
  {
  }

  /** A list of identical counts (which is also what a scalar count becomes once
      it is broadcast to every circuit) takes the batch path with that count. */
  lemma IdenticalRepetitionsBatch(repetitions: seq<int>, n: int)
    requires |repetitions| > 0
    requires forall i | 0 <= i < |repetitions| :: repetitions[i] == n
    ensures ChooseRoute(repetitions) == BatchJob(n)
  {
  }

  /** The decision depends only on which counts occur, not on their order or on
      how often each occurs. */
  lemma RouteDependsOnlyOnDistinctValues(a: seq<int>, b: seq<int>)
    requires DistinctRepetitions(a) == DistinctRepetitions(b)
    ensures ChooseRoute(a) == ChooseRoute(b)
  {
  }

  // ---------------------------------------------------------------------------
  // What is handed to the external collaborators

  /** A job submitted to the remote processor, with everything the sampler passes on. */
  datatype Submission =
    | SweepSubmission(program: Circuit, params: Sweep, repetitions: int,
                      runName: string, deviceConfigName: string)
    | BatchSubmission(programs: seq<Circuit>, paramsList: seq<Sweep>, repetitions: int,
                      runName: string, deviceConfigName: string)

  /** The remote processor (cg.engine.AbstractProcessor). It keeps the list of
      jobs submitted to it; a job is its index in that list. The results of a
      job are whatever the processor's answer functions give for that job, so
      two jobs with the same content may be answered differently, as two runs
      on hardware are. */
  class Processor {
    var submissions: seq<Submission>
    const sweepResults: nat -> seq<EngineResult>
    const batchResults: nat -> seq<seq<EngineResult>>

    constructor (sweepResults: nat -> seq<EngineResult>,
                 batchResults: nat -> seq<seq<EngineResult>>)
      ensures submissions == []
      ensures this.sweepResults == sweepResults && this.batchResults == batchResults
    {
      submissions := [];
      this.sweepResults := sweepResults;
      this.batchResults := batchResults;
    }

    /** Submits one circuit with its sweep; returns the new job. */
    method RunSweep(program: Circuit, params: Sweep, repetitions: int,
                    runName: string, deviceConfigName: string) returns (job: nat)
      modifies this
      ensures submissions == old(submissions) + [SweepSubmission(program, params, repetitions, runName, deviceConfigName)]
      ensures job == |old(submissions)|
    {
      job := |submissions|;
      submissions := submissions + [SweepSubmission(program, params, repetitions, runName, deviceConfigName)];
    }

    /** Submits several circuits that share one repetition count; returns the new job. */
    method RunBatch(programs: seq<Circuit>, paramsList: seq<Sweep>, repetitions: int,
                    runName: string, deviceConfigName: string) returns (job: nat)
      modifies this
      ensures submissions == old(submissions) + [BatchSubmission(programs, paramsList, repetitions, runName, deviceConfigName)]
      ensures job == |old(submissions)|
    {
      job := |submissions|;
      submissions := submissions + [BatchSubmission(programs, paramsList, repetitions, runName, deviceConfigName)];
    }

    /** The results of a submitted sweep job. */
    method Results(job: nat) returns (results: seq<EngineResult>)
      requires job < |submissions|
      ensures results == sweepResults(job)
    {
      results := sweepResults(job);
    }

    /** The results of a submitted batch job, one list per circuit. */
    method BatchedResults(job: nat) returns (results: seq<seq<EngineResult>>)
      requires job < |submissions|
      ensures results == batchResults(job)
    {
      results := batchResults(job);
    }
  }

  // ---------------------------------------------------------------------------
  // The sampler

  /** A submission that carries an identity the sampler would accept. */
  predicate ConsistentSubmission(job: Submission) {
    ConsistentIdentity(job.runName, job.deviceConfigName)
  }

  /** The sweep jobs of the per-circuit path: job k runs circuit k with its
      own sweep, its own repetition count and the given identity. */
  function PerCircuitJobs(programs: seq<Circuit>, paramsList: seq<Sweep>, repetitions: seq<int>,
                          runName: string, deviceConfigName: string): (jobs: seq<Submission>)
    requires |paramsList| == |programs| && |repetitions| == |programs|
    ensures |jobs| == |programs|
    ensures forall k | 0 <= k < |jobs| ::
              jobs[k] == SweepSubmission(programs[k], paramsList[k], repetitions[k], runName, deviceConfigName)
  {
    if programs == [] then []
    else [SweepSubmission(programs[0], paramsList[0], repetitions[0], runName, deviceConfigName)]
         + PerCircuitJobs(programs[1..], paramsList[1..], repetitions[1..], runName, deviceConfigName)
  }

  class ProcessorSampler {
    const processor: Processor
    const runName: string
    const deviceConfigName: string

    /** The invariant construction establishes: no sampler holds a half-given
        identity, so none can hand one to the processor. */
    predicate Valid() {
      ConsistentIdentity(runName, deviceConfigName)
    }

    /** Stores the fields; only called once the identity has been checked. */
    constructor (processor: Processor, runName: string, deviceConfigName: string)
      requires ConsistentIdentity(runName, deviceConfigName)
      ensures Valid()
      ensures this.processor == processor
      ensures this.runName == runName && this.deviceConfigName == deviceConfigName
    {
      this.processor := processor;
      this.runName := runName;
      this.deviceConfigName := deviceConfigName;
    }

    /** Builds a sampler, or fails with ValueError when exactly one of the two
        names is given. */
    static method Create(processor: Processor, runName: string, deviceConfigName: string)
      returns (r: Result<ProcessorSampler>)
      ensures r.Failure? <==> ValidateIdentity(runName, deviceConfigName).Failure?
      ensures r.Failure? ==> r.error == ValueError(OnlyOneIdentityName)
      ensures r.Success? ==> fresh(r.value) && r.value.Valid()
      ensures r.Success? ==> r.value.processor == processor
      ensures r.Success? ==> r.value.runName == runName && r.value.deviceConfigName == deviceConfigName
      ensures r.Success? ==> r.value.GetProcessor() == processor
    {
      var check := ValidateIdentity(runName, deviceConfigName);
      if check.Failure? {
        return Failure(check.error);
      }
      var sampler := new ProcessorSampler(processor, runName, deviceConfigName);
      return Success(sampler);
    }

    /** The `processor` property: the processor the sampler was built with. */
    function GetProcessor(): (p: Processor)
      ensures p == processor
    {
      processor
    }

    /** Runs one circuit over a sweep: exactly one sweep job carrying the stored
        identity, and that job's results. */
    method RunSweep(program: Circuit, params: Sweep, repetitions: int) returns (results: seq<EngineResult>)
      requires Valid()
      modifies processor
      ensures processor.submissions ==
              old(processor.submissions) + [SweepSubmission(program, params, repetitions, runName, deviceConfigName)]
      ensures ConsistentSubmission(processor.submissions[|processor.submissions| - 1])
      ensures results == processor.sweepResults(|old(processor.submissions)|)
    {
      var job := processor.RunSweep(program, params, repetitions, runName, deviceConfigName);
      results := processor.Results(job);
    }

    /** The per-circuit run_batch_async inherited from cirq.Sampler, which the
        sampler reaches through `super()`: one RunSweep per circuit, in circuit
        order, with the results collected in that order. */
    method BaseRunBatch(programs: seq<Circuit>, paramsList: seq<Sweep>, repetitions: seq<int>)
      returns (results: seq<seq<EngineResult>>)
      requires Valid()
      requires |paramsList| == |programs| && |repetitions| == |programs|
      modifies processor
      ensures processor.submissions ==
              old(processor.submissions) + PerCircuitJobs(programs, paramsList, repetitions, runName, deviceConfigName)
      ensures |results| == |programs|
      ensures forall k | 0 <= k < |programs| ::
                results[k] == processor.sweepResults(|old(processor.submissions)| + k)
    {
      results := [];
      var i := 0;
      while i < |programs|
        invariant 0 <= i <= |programs|
        invariant |processor.submissions| == |old(processor.submissions)| + i
        invariant processor.submissions[..|old(processor.submissions)|] == old(processor.submissions)
        invariant forall k | 0 <= k < i ::
                    processor.submissions[|old(processor.submissions)| + k] ==
                    SweepSubmission(programs[k], paramsList[k], repetitions[k], runName, deviceConfigName)
        invariant |results| == i
        invariant forall k | 0 <= k < i ::
                    results[k] == processor.sweepResults(|old(processor.submissions)| + k)
      {
        var r := RunSweep(programs[i], paramsList[i], repetitions[i]);
        results := results + [r];
        i := i + 1;
      }
      var jobs := PerCircuitJobs(programs, paramsList, repetitions, runName, deviceConfigName);
      assert processor.submissions == old(processor.submissions) + jobs;
    }

    /** Runs a batch whose params_list and repetitions have already been
        normalised to one entry per circuit. A batch with one shared count is a
        single processor batch job, answered with that job's batched results;
        any other batch, the empty one included, takes the inherited
        per-circuit path: one sweep job per circuit and no batch job. Every job
        either path submits carries the stored, consistent identity. */
    method RunBatch(programs: seq<Circuit>, paramsList: seq<Sweep>, repetitions: seq<int>)
      returns (results: seq<seq<EngineResult>>)
      requires Valid()
      requires |paramsList| == |programs| && |repetitions| == |programs|
      modifies processor
      ensures ChooseRoute(repetitions).BatchJob? ==>
                && processor.submissions == old(processor.submissions) +
                     [BatchSubmission(programs, paramsList, repetitions[0], runName, deviceConfigName)]
                && results == processor.batchResults(|old(processor.submissions)|)
      ensures ChooseRoute(repetitions).Delegated? ==>
                && processor.submissions == old(processor.submissions) +
                     PerCircuitJobs(programs, paramsList, repetitions, runName, deviceConfigName)
                && |results| == |programs|
                && forall k | 0 <= k < |programs| ::
                     results[k] == processor.sweepResults(|old(processor.submissions)| + k)
      ensures forall k | |old(processor.submissions)| <= k < |processor.submissions| ::
                ConsistentSubmission(processor.submissions[k])
    {
      var route := ChooseRoute(repetitions);
      if route.BatchJob? {
        var job := processor.RunBatch(programs, paramsList, repetitions[0], runName, deviceConfigName);
        results := processor.BatchedResults(job);
      } else {
        results := BaseRunBatch(programs, paramsList, repetitions);
      }
    }
  }

  /** What a caller can conclude from the contracts alone: a half-given
      identity is refused, a batch of equal counts is one processor batch job,
      and a batch of mixed counts is one sweep job per circuit, in order. */
  method Client(processor: Processor, a: Circuit, b: Circuit, c: Circuit, s: Sweep)
    modifies processor
  {
    var refused := ProcessorSampler.Create(processor, "run", "");
    assert refused == Failure(ValueError(OnlyOneIdentityName));

    var created := ProcessorSampler.Create(processor, "run", "config");
    assert created.Success?;
    var sampler := created.value;

    var before := processor.submissions;
    var _ := sampler.RunBatch([a, b, c], [s, s, s], [3, 3, 3]);
    assert Uniform([3, 3, 3]);
    var batched := BatchSubmission([a, b, c], [s, s, s], 3, "run", "config");
    assert processor.submissions == before + [batched];

    var mixed := sampler.RunBatch([a, b], [s, s], [2, 5]);
    MixedRepetitionsDelegate([2, 5], 0, 1);
    assert processor.submissions ==
           before + [batched, SweepSubmission(a, s, 2, "run", "config"), SweepSubmission(b, s, 5, "run", "config")];
    assert |mixed| == 2;
    assert mixed[0] == processor.sweepResults(|before| + 1) && mixed[1] == processor.sweepResults(|before| + 2);

    var none := sampler.RunBatch([], [], []);
    assert processor.submissions ==
           before + [batched, SweepSubmission(a, s, 2, "run", "config"), SweepSubmission(b, s, 5, "run", "config")];
    assert none == [];
  }
}
