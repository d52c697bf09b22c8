/** `process_batch_operations`: the operations are stably sorted by `order`
    and run one after another, each reading the file the previous one wrote;
    the first failure ends the batch, and after each successful step the
    file it read is deleted unless it is the batch's original input. */
module Batch {
  import opened Wrappers
  import opened Json
  import opened Invocation
  import opened Engine
  import opened StableSort
  import opened Requests

  /** One step the chain performed: the file it read, the operation and the
      step's result. */
  datatype Call<E> = Call(input: Path, op: Operation, result: Result<Path, E>)

  /** Everything one run of the chain did: its result, the steps in order,
      the files it deleted in order, the intermediates it left on disk and
      the file `current_input` held when it stopped. */
  datatype ChainRun<E> = ChainRun(
    outcome: Result<Path, E>,
    calls: seq<Call<E>>,
    removed: seq<Path>,
    alive: set<Path>,
    current: Path)

  /** A step as the chain sees it: step index, input file and operation in,
      output file or error out. */
  type Stage<E> = (nat, Path, Operation) -> Result<Path, E>

  /** Each step but the last succeeded and wrote the file the next one read. */
  predicate Linked<E>(calls: seq<Call<E>>) {
    |calls| <= 1 ||
      (calls[0].result.Success? && calls[1].input == calls[0].result.value && Linked(calls[1..]))
  }

  /** `Linked` read at one position. */
  lemma {:induction false} LinkedAt<E>(calls: seq<Call<E>>, j: nat)
    requires Linked(calls) && 0 < j < |calls|
    ensures calls[j - 1].result.Success? && calls[j].input == calls[j - 1].result.value
  {
    if j > 1 {
      LinkedAt(calls[1..], j - 1);
    }
  }

  /** The files the loop deletes: the input of every successful step, unless
      that input is the original. */
  function Removals<E>(original: Path, calls: seq<Call<E>>): seq<Path> {
    if |calls| == 0 then []
    else
      (if calls[0].result.Success? && calls[0].input != original then [calls[0].input] else [])
      + Removals(original, calls[1..])
  }

  /** The intermediates alive while the loop holds `current`: none when it
      holds the original, otherwise exactly `current`. */
  function Holding(original: Path, current: Path): set<Path> {
    if current == original then {} else {current}
  }

  /** Every step wrote a file other than the original and other than its own input. */
  ghost predicate FreshOutputs<E>(original: Path, calls: seq<Call<E>>) {
    forall j :: 0 <= j < |calls| && calls[j].result.Success? ==>
      calls[j].result.value != original && calls[j].result.value != calls[j].input
  }

  /** The loop of `process_batch_operations` from step `index` on, holding
      `current` with the intermediates `alive` on disk. */
  function Chain<E>(original: Path, current: Path, alive: set<Path>, ops: seq<Operation>,
                    index: nat, stage: Stage<E>): (run: ChainRun<E>)
    decreases |ops|
    ensures |run.calls| <= |ops|
    ensures |run.calls| > 0 ==> run.calls[0] == Call(current, ops[0], stage(index, current, ops[0]))
    ensures |ops| == 0 ==> run == ChainRun(Success(current), [], [], alive, current)
  {
    if |ops| == 0 then ChainRun(Success(current), [], [], alive, current)
    else
      var call := Call(current, ops[0], stage(index, current, ops[0]));
      match call.result
      case Failure(e) =>
        ChainRun(Failure(e), [call], [], alive, current)
      case Success(out) =>
        var rest := Chain(original, out, AfterStep(original, current, out, alive), ops[1..], index + 1, stage);
        ChainRun(rest.outcome, [call] + rest.calls, Dropped(original, current) + rest.removed, rest.alive, rest.current)
  }

  /** The input file the loop deletes after a successful step. */
  function Dropped(original: Path, current: Path): seq<Path> {
    if current != original then [current] else []
  }

  /** The intermediates on disk after a step read `current` and wrote `out`. */
  function AfterStep(original: Path, current: Path, out: Path, alive: set<Path>): set<Path> {
    if current != original then (alive + {out}) - {current} else alive + {out}
  }

  /** One unfolding of `Chain` after a successful first step. */
  lemma ChainUnfold<E>(original: Path, current: Path, alive: set<Path>, ops: seq<Operation>,
                       index: nat, stage: Stage<E>)
    requires |ops| > 0 && stage(index, current, ops[0]).Success?
    ensures var out := stage(index, current, ops[0]).value;
      var run := Chain(original, current, alive, ops, index, stage);
      var rest := Chain(original, out, AfterStep(original, current, out, alive), ops[1..], index + 1, stage);
      && run.outcome == rest.outcome
      && run.calls == [Call(current, ops[0], Success(out))] + rest.calls
      && run.calls[1..] == rest.calls
      && run.removed == Dropped(original, current) + rest.removed
      && run.alive == rest.alive
      && run.current == rest.current
  {
  }

  /** The steps the loop performs follow the operations in order, each one
      given by the stage oracle on the file it read. */
  lemma {:induction false} ChainFollowsStages<E>(original: Path, current: Path, alive: set<Path>,
                                                ops: seq<Operation>, index: nat, stage: Stage<E>)
    decreases |ops|
    ensures var run := Chain(original, current, alive, ops, index, stage);
      forall j :: 0 <= j < |run.calls| ==>
        run.calls[j].op == ops[j] && run.calls[j].result == stage(index + j, run.calls[j].input, ops[j])
  {
    var run := Chain(original, current, alive, ops, index, stage);
    forall j | 0 <= j < |run.calls|
      ensures run.calls[j].op == ops[j] && run.calls[j].result == stage(index + j, run.calls[j].input, ops[j])
    {
      ChainCallAt(original, current, alive, ops, index, stage, j);
    }
  }

  /** `ChainFollowsStages` at one position. */
  lemma {:induction false} ChainCallAt<E>(original: Path, current: Path, alive: set<Path>,
                                         ops: seq<Operation>, index: nat, stage: Stage<E>, j: nat)
    requires j < |Chain(original, current, alive, ops, index, stage).calls|
    ensures var call := Chain(original, current, alive, ops, index, stage).calls[j];
      call.op == ops[j] && call.result == stage(index + j, call.input, ops[j])
    decreases j
  {
    if j > 0 {
      var out := stage(index, current, ops[0]).value;
      ChainUnfold(original, current, alive, ops, index, stage);
      ChainCallAt(original, out, AfterStep(original, current, out, alive), ops[1..], index + 1, stage, j - 1);
      assert ops[1..][j - 1] == ops[j];
    }
  }

  /** Each step the loop performs reads the file the step before it wrote,
      which means every step but the last succeeded. */
  lemma {:induction false} ChainIsLinked<E>(original: Path, current: Path, alive: set<Path>,
                                           ops: seq<Operation>, index: nat, stage: Stage<E>)
    decreases |ops|
    ensures Linked(Chain(original, current, alive, ops, index, stage).calls)
  {
    if |ops| > 0 && stage(index, current, ops[0]).Success? {
      var out := stage(index, current, ops[0]).value;
      var rest := Chain(original, out, AfterStep(original, current, out, alive), ops[1..], index + 1, stage);
      var run := Chain(original, current, alive, ops, index, stage);
      ChainUnfold(original, current, alive, ops, index, stage);
      ChainIsLinked(original, out, AfterStep(original, current, out, alive), ops[1..], index + 1, stage);
      if |rest.calls| > 0 {
        assert rest.calls[0].input == out;
      }
      assert Linked(run.calls);
    }
  }

  /** The first failing step is the last one performed and fixes the error;
      a run without failure performs every step and ends on the last output. */
  lemma {:induction false} ChainOutcome<E>(original: Path, current: Path, alive: set<Path>,
                                          ops: seq<Operation>, index: nat, stage: Stage<E>)
    decreases |ops|
    ensures var run := Chain(original, current, alive, ops, index, stage);
      && (run.outcome.Success? ==> |run.calls| == |ops| && run.outcome.value == run.current)
      && (run.outcome.Success? && |ops| > 0 ==> run.calls[|ops| - 1].result == Success(run.current))
      && (run.outcome.Failure? ==>
            && |run.calls| > 0
            && run.calls[|run.calls| - 1].result == Failure(run.outcome.error)
            && run.current == run.calls[|run.calls| - 1].input)
  {
    if |ops| > 0 && stage(index, current, ops[0]).Success? {
      var out := stage(index, current, ops[0]).value;
      var rest := Chain(original, out, AfterStep(original, current, out, alive), ops[1..], index + 1, stage);
      var run := Chain(original, current, alive, ops, index, stage);
      ChainUnfold(original, current, alive, ops, index, stage);
      ChainOutcome(original, out, AfterStep(original, current, out, alive), ops[1..], index + 1, stage);
      if |rest.calls| > 0 {
        assert run.calls[|run.calls| - 1] == rest.calls[|rest.calls| - 1];
      }
    }
  }

  /** The loop deletes exactly the input of each successful step that is
      not the original, in step order. */
  lemma {:induction false} ChainRemovals<E>(original: Path, current: Path, alive: set<Path>,
                                           ops: seq<Operation>, index: nat, stage: Stage<E>)
    decreases |ops|
    ensures var run := Chain(original, current, alive, ops, index, stage);
      run.removed == Removals(original, run.calls)
  {
    if |ops| > 0 && stage(index, current, ops[0]).Success? {
      var out := stage(index, current, ops[0]).value;
      ChainUnfold(original, current, alive, ops, index, stage);
      ChainRemovals(original, out, AfterStep(original, current, out, alive), ops[1..], index + 1, stage);
    }
  }

  /** The original is never among the deleted files. */
  lemma {:induction false} OriginalNeverRemoved<E>(original: Path, calls: seq<Call<E>>)
    ensures original !in Removals(original, calls)
  {
    if |calls| > 0 {
      OriginalNeverRemoved(original, calls[1..]);
    }
  }

  /** When every step writes a new file, the loop keeps at most one
      intermediate on disk: the file it holds, unless that is the original. */
  lemma {:induction false} ChainKeepsOneIntermediate<E>(original: Path, current: Path, alive: set<Path>,
                                                       ops: seq<Operation>, index: nat, stage: Stage<E>)
    requires alive == Holding(original, current)
    requires FreshOutputs(original, Chain(original, current, alive, ops, index, stage).calls)
    decreases |ops|
    ensures var run := Chain(original, current, alive, ops, index, stage);
      run.alive == Holding(original, run.current)
  {
    if |ops| > 0 && stage(index, current, ops[0]).Success? {
      var out := stage(index, current, ops[0]).value;
      var alive' := AfterStep(original, current, out, alive);
      ChainUnfold(original, current, alive, ops, index, stage);
      var run := Chain(original, current, alive, ops, index, stage);
      var rest := Chain(original, out, alive', ops[1..], index + 1, stage);
      assert run.calls[0].result == Success(out);
      assert out != original && out != current;
      assert alive' == Holding(original, out);
      forall j | 0 <= j < |rest.calls| && rest.calls[j].result.Success?
        ensures rest.calls[j].result.value != original && rest.calls[j].result.value != rest.calls[j].input
      {
        assert run.calls[j + 1] == rest.calls[j];
      }
      ChainKeepsOneIntermediate(original, out, alive', ops[1..], index + 1, stage);
    }
  }

  function OrderKey(op: Operation): int {
    op.order
  }

  /** The step `process_batch_operations` performs: `process_single_operation`
      with the `index`-th identifier for its output file. */
  function StepOf(dir: Path, uuids: nat -> string, display: F64 -> string, ffmpeg: Ffmpeg): Stage<ProcessError> {
    (index: nat, input: Path, op: Operation) =>
      ProcessSingle(dir, uuids(index), input, op.opType, op.parameters, display, ffmpeg).result
  }

  /** `process_batch_operations` on `input`, with `stage` standing for
      `process_single_operation` and step `j` of the batch given the index
      `first + j` (the index picks the identifier of its output file): the
      steps run in the stable order of `order`, the first one on `input`
      (each later one on the previous step's output, see
      `BatchStepsAreLinked`); the empty batch returns `input` itself; a
      successful batch runs every step and returns the last step's output; a
      failed one stops at the failing step; `input` is never deleted. */
  function ProcessBatchOperations<E>(input: Path, operations: seq<Operation>, first: nat, stage: Stage<E>)
    : (run: ChainRun<E>)
    ensures |run.calls| <= |operations|
    ensures forall j :: 0 <= j < |run.calls| ==>
      && run.calls[j].op == SortByKey(operations, OrderKey)[j]
      && run.calls[j].result == stage(first + j, run.calls[j].input, run.calls[j].op)
    ensures forall i, j :: 0 <= i < j < |run.calls| ==> run.calls[i].op.order <= run.calls[j].op.order
    ensures |run.calls| > 0 ==> run.calls[0].input == input
    ensures operations == [] ==> run.outcome == Success(input) && run.calls == [] && run.removed == []
    ensures run.outcome.Success? && operations != [] ==>
      |run.calls| == |operations| && run.calls[|run.calls| - 1].result == Success(run.outcome.value)
    ensures run.outcome.Failure? ==>
      |run.calls| > 0 && run.calls[|run.calls| - 1].result == Failure(run.outcome.error)
    ensures input !in run.removed
  {
    var sorted := SortByKey(operations, OrderKey);
    RunFromOriginal(input, sorted, first, stage);
    Chain(input, input, {}, sorted, first, stage)
  }

  /** A whole run, started on the original with nothing on disk, over
      operations sorted by `order`. */
  lemma RunFromOriginal<E>(input: Path, sorted: seq<Operation>, first: nat, stage: Stage<E>)
    requires SortedBy(sorted, OrderKey)
    ensures var run := Chain(input, input, {}, sorted, first, stage);
      && |run.calls| <= |sorted|
      && (forall j :: 0 <= j < |run.calls| ==>
            run.calls[j].op == sorted[j] && run.calls[j].result == stage(first + j, run.calls[j].input, sorted[j]))
      && (forall i, j :: 0 <= i < j < |run.calls| ==> run.calls[i].op.order <= run.calls[j].op.order)
      && (|run.calls| > 0 ==> run.calls[0].input == input)
      && (sorted == [] ==> run.outcome == Success(input) && run.calls == [] && run.removed == [])
      && (run.outcome.Success? && sorted != [] ==>
            |run.calls| == |sorted| && run.calls[|sorted| - 1].result == Success(run.outcome.value))
      && (run.outcome.Failure? ==>
            |run.calls| > 0 && run.calls[|run.calls| - 1].result == Failure(run.outcome.error))
      && input !in run.removed
  {
    RunInOrder(input, sorted, first, stage);
    RunEnds(input, sorted, first, stage);
  }

  lemma RunInOrder<E>(input: Path, sorted: seq<Operation>, first: nat, stage: Stage<E>)
    requires SortedBy(sorted, OrderKey)
    ensures var run := Chain(input, input, {}, sorted, first, stage);
      && (forall j :: 0 <= j < |run.calls| ==>
            run.calls[j].op == sorted[j] && run.calls[j].result == stage(first + j, run.calls[j].input, sorted[j]))
      && (forall i, j :: 0 <= i < j < |run.calls| ==> run.calls[i].op.order <= run.calls[j].op.order)
  {
    var run := Chain(input, input, {}, sorted, first, stage);
    ChainFollowsStages(input, input, {}, sorted, first, stage);
    assert forall i, j :: 0 <= i < j < |run.calls| ==> OrderKey(sorted[i]) <= OrderKey(sorted[j]);
  }

  lemma RunEnds<E>(input: Path, sorted: seq<Operation>, first: nat, stage: Stage<E>)
    ensures var run := Chain(input, input, {}, sorted, first, stage);
      && |run.calls| <= |sorted|
      && (|run.calls| > 0 ==> run.calls[0].input == input)
      && (sorted == [] ==> run.outcome == Success(input) && run.calls == [] && run.removed == [])
      && (run.outcome.Success? && sorted != [] ==>
            |run.calls| == |sorted| && run.calls[|sorted| - 1].result == Success(run.outcome.value))
      && (run.outcome.Failure? ==>
            |run.calls| > 0 && run.calls[|run.calls| - 1].result == Failure(run.outcome.error))
      && input !in run.removed
  {
    var run := Chain(input, input, {}, sorted, first, stage);
    ChainOutcome(input, input, {}, sorted, first, stage);
    ChainRemovals(input, input, {}, sorted, first, stage);
    OriginalNeverRemoved(input, run.calls);
  }

  /** Each step of the batch reads the file the step before it wrote. */
  lemma BatchStepsAreLinked<E>(input: Path, operations: seq<Operation>, first: nat, stage: Stage<E>)
    ensures Linked(ProcessBatchOperations(input, operations, first, stage).calls)
  {
    BatchIsChain(input, operations, first, stage);
    ChainIsLinked(input, input, {}, SortByKey(operations, OrderKey), first, stage);
  }

  /** After each successful step the batch deletes the file that step read,
      unless it is the original; nothing else is deleted. */
  lemma BatchRemovals<E>(input: Path, operations: seq<Operation>, first: nat, stage: Stage<E>)
    ensures var run := ProcessBatchOperations(input, operations, first, stage);
      run.removed == Removals(input, run.calls)
  {
    BatchIsChain(input, operations, first, stage);
    ChainRemovals(input, input, {}, SortByKey(operations, OrderKey), first, stage);
  }

  /** The batch is the chain over the sorted operations, started on the original. */
  lemma BatchIsChain<E>(input: Path, operations: seq<Operation>, first: nat, stage: Stage<E>)
    ensures ProcessBatchOperations(input, operations, first, stage)
         == Chain(input, input, {}, SortByKey(operations, OrderKey), first, stage)
  {
  }

  /** With `process_single_operation` as the stage, step `j` writes
      `output_<uuid>` for the identifier `uuids(first + j)`, and a successful
      non-empty batch returns the output of its last step. */
  lemma BatchWritesOutputPaths(dir: Path, uuids: nat -> string, first: nat, input: Path,
                               operations: seq<Operation>, display: F64 -> string, ffmpeg: Ffmpeg)
    ensures var run := ProcessBatchOperations(input, operations, first, StepOf(dir, uuids, display, ffmpeg));
      && (forall j :: 0 <= j < |run.calls| && run.calls[j].result.Success? ==>
            run.calls[j].result.value == OutputPath(dir, uuids(first + j)))
      && (run.outcome.Success? && operations != [] ==>
            run.outcome.value == OutputPath(dir, uuids(first + |operations| - 1)))
  {
    StepWritesOutputPath(dir, uuids, display, ffmpeg);
    RunWritesOutputPaths(input, operations, first, StepOf(dir, uuids, display, ffmpeg), dir, uuids);
  }

  /** A step writes the output file named by its own identifier. */
  lemma StepWritesOutputPath(dir: Path, uuids: nat -> string, display: F64 -> string, ffmpeg: Ffmpeg)
    ensures forall index: nat, input: Path, op: Operation ::
      StepOf(dir, uuids, display, ffmpeg)(index, input, op).Success? ==>
        StepOf(dir, uuids, display, ffmpeg)(index, input, op).value == OutputPath(dir, uuids(index))
  {
  }

  /** When every successful step writes the output file of its own index,
      so does every step of the batch, and a successful run ends on the file
      of the last step. */
  lemma RunWritesOutputPaths<E>(input: Path, operations: seq<Operation>, first: nat, stage: Stage<E>,
                                dir: Path, uuids: nat -> string)
    requires forall index: nat, current: Path, op: Operation ::
      stage(index, current, op).Success? ==> stage(index, current, op).value == OutputPath(dir, uuids(index))
    ensures var run := ProcessBatchOperations(input, operations, first, stage);
      && (forall j :: 0 <= j < |run.calls| && run.calls[j].result.Success? ==>
            run.calls[j].result.value == OutputPath(dir, uuids(first + j)))
      && (run.outcome.Success? && operations != [] ==>
            run.outcome.value == OutputPath(dir, uuids(first + |operations| - 1)))
  {
    var run := ProcessBatchOperations(input, operations, first, stage);
    forall j | 0 <= j < |run.calls| && run.calls[j].result.Success?
      ensures run.calls[j].result.value == OutputPath(dir, uuids(first + j))
    {
      assert run.calls[j].result == stage(first + j, run.calls[j].input, run.calls[j].op);
    }
    if run.outcome.Success? && operations != [] {
      var last := |operations| - 1;
      assert run.calls[last].result == stage(first + last, run.calls[last].input, run.calls[last].op);
    }
  }

  ghost predicate Injective(uuids: nat -> string) {
    forall i, j :: i != j ==> uuids(i) != uuids(j)
  }

  /** With distinct identifiers and the original being a downloaded
      `input_<uuid>` file, at most one intermediate is on disk when the loop
      stops, and it is the file the loop held. */
  lemma BatchKeepsOneIntermediate(dir: Path, uuids: nat -> string, first: nat, uuid: string,
                                  operations: seq<Operation>, display: F64 -> string, ffmpeg: Ffmpeg)
    requires Injective(uuids)
    ensures var input := InputPath(dir, uuid);
      var run := ProcessBatchOperations(input, operations, first, StepOf(dir, uuids, display, ffmpeg));
      run.alive == Holding(input, run.current) && |run.alive| <= 1
  {
    var input := InputPath(dir, uuid);
    StepWritesOutputPath(dir, uuids, display, ffmpeg);
    forall index: nat
      ensures OutputPath(dir, uuids(index)) != input
    {
      InputIsNeverOutput(dir, uuid, uuids(index));
    }
    forall i: nat, j: nat | j == i + 1
      ensures OutputPath(dir, uuids(i)) != OutputPath(dir, uuids(j))
    {
      OutputPathInjective(dir, uuids(i), uuids(j));
    }
    RunOutputsFresh(input, operations, first, StepOf(dir, uuids, display, ffmpeg), dir, uuids);
    RunKeepsOneIntermediate(input, operations, first, StepOf(dir, uuids, display, ffmpeg));
  }

  /** When each step writes the output file of its index, no output file is
      the original and consecutive output files differ, no step of the batch
      writes the original or its own input. */
  lemma RunOutputsFresh<E>(input: Path, operations: seq<Operation>, first: nat, stage: Stage<E>,
                           dir: Path, uuids: nat -> string)
    requires forall index: nat, current: Path, op: Operation ::
      stage(index, current, op).Success? ==> stage(index, current, op).value == OutputPath(dir, uuids(index))
    requires forall index: nat :: OutputPath(dir, uuids(index)) != input
    requires forall i: nat, j: nat :: j == i + 1 ==> OutputPath(dir, uuids(i)) != OutputPath(dir, uuids(j))
    ensures FreshOutputs(input, ProcessBatchOperations(input, operations, first, stage).calls)
  {
    var run := ProcessBatchOperations(input, operations, first, stage);
    RunWritesOutputPaths(input, operations, first, stage, dir, uuids);
    BatchStepsAreLinked(input, operations, first, stage);
    forall j | 0 <= j < |run.calls| && run.calls[j].result.Success?
      ensures run.calls[j].result.value != input && run.calls[j].result.value != run.calls[j].input
    {
      if j > 0 {
        LinkedAt(run.calls, j);
        assert run.calls[j].input == OutputPath(dir, uuids(first + (j - 1)));
      }
    }
  }

  /** When no step writes the original or its own input, the batch leaves at
      most the file it held on disk. */
  lemma RunKeepsOneIntermediate<E>(input: Path, operations: seq<Operation>, first: nat, stage: Stage<E>)
    requires FreshOutputs(input, ProcessBatchOperations(input, operations, first, stage).calls)
    ensures var run := ProcessBatchOperations(input, operations, first, stage);
      run.alive == Holding(input, run.current) && |run.alive| <= 1
  {
    var sorted := SortByKey(operations, OrderKey);
    var run := Chain(input, input, {}, sorted, first, stage);
    BatchIsChain(input, operations, first, stage);
    assert {} == Holding(input, input);
    ChainKeepsOneIntermediate(input, input, {}, sorted, first, stage);
    assert run.alive == Holding(input, run.current);
  }
}
