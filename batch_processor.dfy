/** `BatchProcessor`: runs a file processor over a list of drawings, one
    result per input, with cancellation and stop-on-error. The file system
    is the set of paths that exist; the processor is a function from input
    and output path to what the call returned or raised. */
module BatchProcessor {
  import opened Wrappers
  import opened Strings
  import opened Paths

  datatype BatchItemStatus = Pending | Processing | Completed | Failed | Skipped

  datatype BatchItemResult = BatchItemResult(
    inputPath: Path,
    outputPath: Option<Path>,
    status: BatchItemStatus,
    errorMessage: Option<string>,
    statistics: map<string, int>)

  predicate IsSuccess(item: BatchItemResult) {
    item.status == Completed
  }

  predicate IsFailed(item: BatchItemResult) {
    item.status == Failed
  }

  datatype BatchResult = BatchResult(items: seq<BatchItemResult>, cancelled: bool)

  function TotalCount(r: BatchResult): nat {
    |r.items|
  }

  /** How many items have the given status. */
  function CountStatus(items: seq<BatchItemResult>, st: BatchItemStatus): (n: nat)
    ensures n <= |items|
  {
    if |items| == 0 then 0
    else CountStatus(items[..|items| - 1], st) + (if items[|items| - 1].status == st then 1 else 0)
  }

  function CompletedCount(r: BatchResult): nat {
    CountStatus(r.items, Completed)
  }

  function FailedCount(r: BatchResult): nat {
    CountStatus(r.items, Failed)
  }

  function SkippedCount(r: BatchResult): nat {
    CountStatus(r.items, Skipped)
  }

  /** The three status counts never exceed the number of items, and equal
      it when every item is finished. */
  lemma {:induction false} CountsBound(items: seq<BatchItemResult>)
    ensures CountStatus(items, Completed) + CountStatus(items, Failed) + CountStatus(items, Skipped) <= |items|
    ensures (forall k :: 0 <= k < |items| ==> items[k].status in {Completed, Failed, Skipped}) ==>
      CountStatus(items, Completed) + CountStatus(items, Failed) + CountStatus(items, Skipped) == |items|
  {
    if |items| > 0 {
      var init := items[..|items| - 1];
      CountsBound(init);
      assert forall k :: 0 <= k < |init| ==> init[k] == items[k];
    }
  }

  /** `success_rate`: zero for an empty batch, otherwise the percentage of
      completed items. */
  function SuccessRate(r: BatchResult): (rate: real)
    ensures 0.0 <= rate <= 100.0
    ensures TotalCount(r) == 0 ==> rate == 0.0
    ensures TotalCount(r) > 0 ==> rate * (TotalCount(r) as real) == (CompletedCount(r) as real) * 100.0
  {
    if TotalCount(r) == 0 then 0.0
    else
      var c := CompletedCount(r) as real;
      var t := TotalCount(r) as real;
      RateBounds(c, t);
      (c / t) * 100.0
  }

  lemma RateBounds(c: real, t: real)
    requires 0.0 <= c <= t && t > 0.0
    ensures 0.0 <= (c / t) * 100.0 <= 100.0
    ensures (c / t) * 100.0 * t == c * 100.0
  {
    assert (c / t) * t == c;
  }

  /** The items with the given status, in order. */
  function WithStatus(items: seq<BatchItemResult>, st: BatchItemStatus): (r: seq<BatchItemResult>)
    ensures |r| == CountStatus(items, st)
    ensures forall k :: 0 <= k < |r| ==> r[k].status == st && r[k] in items
    ensures forall x :: x in items && x.status == st ==> x in r
  {
    if |items| == 0 then []
    else
      var init := items[..|items| - 1];
      var prev := WithStatus(init, st);
      assert forall k :: 0 <= k < |prev| ==> prev[k] in items by {
        forall k | 0 <= k < |prev| ensures prev[k] in items {
          var i :| 0 <= i < |init| && init[i] == prev[k];
          assert items[i] == init[i];
        }
      }
      assert forall x :: x in items ==> x in init || x == items[|items| - 1] by {
        forall x | x in items ensures x in init || x == items[|items| - 1] {
          var i :| 0 <= i < |items| && items[i] == x;
          if i < |items| - 1 {
            assert init[i] == x;
          }
        }
      }
      prev + (if items[|items| - 1].status == st then [items[|items| - 1]] else [])
  }

  /** The filter keeps a single item iff it has the status. */
  lemma WithStatusSingle(x: BatchItemResult, st: BatchItemStatus)
    ensures WithStatus([x], st) == (if x.status == st then [x] else [])
  {
    assert [x][..0] == [];
  }

  /** Filtering distributes over concatenation, so the picked items keep
      their input order and multiplicity. */
  lemma {:induction false} WithStatusAppend(a: seq<BatchItemResult>, b: seq<BatchItemResult>, st: BatchItemStatus)
    ensures WithStatus(a + b, st) == WithStatus(a, st) + WithStatus(b, st)
    decreases |b|
  {
    if |b| == 0 {
      assert a + b == a;
    } else {
      var b' := b[..|b| - 1];
      assert (a + b)[..|a + b| - 1] == a + b';
      assert (a + b)[|a + b| - 1] == b[|b| - 1];
      WithStatusAppend(a, b', st);
      var tail := if b[|b| - 1].status == st then [b[|b| - 1]] else [];
      assert WithStatus(a + b, st) == WithStatus(a + b', st) + tail;
      assert WithStatus(b, st) == WithStatus(b', st) + tail;
      assert (WithStatus(a, st) + WithStatus(b', st)) + tail == WithStatus(a, st) + (WithStatus(b', st) + tail);
    }
  }

  /** `get_failed_items`. */
  function FailedItems(r: BatchResult): seq<BatchItemResult> {
    WithStatus(r.items, Failed)
  }

  /** `get_completed_items`. */
  function CompletedItems(r: BatchResult): seq<BatchItemResult> {
    WithStatus(r.items, Completed)
  }

  /** What a call of the file processor did. */
  datatype ProcessorOutcome = Returned(stats: Option<map<string, int>>) | Raised(message: string)

  datatype BatchOptions = BatchOptions(
    outputDirectory: Option<Path>,
    outputSuffix: string,
    overwriteExisting: bool,
    stopOnError: bool,
    skipInvalidFiles: bool)

  const DEFAULT_BATCH_OPTIONS: BatchOptions := BatchOptions(None, "_processed", false, false, true)

  /** `_get_output_path`: the input's stem, the output suffix and the
      input's suffix, in the output directory or beside the input. */
  function OutputPath(o: BatchOptions, input: Path): (r: Path)
    ensures Name(r) == Stem(Name(input)) + o.outputSuffix + Suffix(Name(input))
    ensures Parent(r) == (if o.outputDirectory.Some? then o.outputDirectory.value else Parent(input))
  {
    var dir := if o.outputDirectory.Some? then o.outputDirectory.value else Parent(input);
    var name := Stem(Name(input)) + o.outputSuffix + Suffix(Name(input));
    ChildParts(dir, name);
    Child(dir, name)
  }

  /** The output name is the input name with the output suffix inserted
      before its extension. */
  lemma OutputNameInserts(o: BatchOptions, input: Path)
    ensures var n := Name(input);
      Name(OutputPath(o, input)) == n[..|Stem(n)|] + o.outputSuffix + n[|Stem(n)|..]
  {
    var n := Name(input);
    StemSuffix(n);
    assert n[..|Stem(n)|] == Stem(n) && n[|Stem(n)|..] == Suffix(n);
  }

  const DXF: string := ".dxf"

  /** The input's suffix is ".dxf" in any letter case. */
  predicate IsDxf(p: Path) {
    ToLower(Suffix(Name(p))) == DXF
  }

  function FinishedItem(input: Path, output: Option<Path>, status: BatchItemStatus, message: string): BatchItemResult {
    BatchItemResult(input, output, status, Some(message), map[])
  }

  /** `_process_single_file`: missing input fails, a non-DXF input is skipped
      or fails as the options say, an existing output is skipped unless
      overwriting, and otherwise the processor's call decides. */
  function SingleFile(o: BatchOptions, input: Path, fs: set<Path>, processor: (Path, Path) -> ProcessorOutcome): BatchItemResult {
    if input !in fs then FinishedItem(input, None, Failed, "File not found: " + PathString(input))
    else if !IsDxf(input) then FinishedItem(input, None, if o.skipInvalidFiles then Skipped else Failed, "Not a DXF file")
    else
      var output := OutputPath(o, input);
      if output in fs && !o.overwriteExisting then FinishedItem(input, Some(output), Skipped, "Output file already exists")
      else match processor(input, output)
        case Returned(stats) => BatchItemResult(input, Some(output), Completed, None, if stats.Some? then stats.value else map[])
        case Raised(message) => FinishedItem(input, Some(output), Failed, message)
  }

  /** `validate_files`' test: the file exists and is a DXF file. */
  predicate ValidFile(p: Path, fs: set<Path>) {
    p in fs && IsDxf(p)
  }

  /** A single file is completed exactly when it is valid, its output may be
      written and the processor returns; an invalid file is never completed,
      and every item comes back finished. */
  lemma SingleFileOutcome(o: BatchOptions, input: Path, fs: set<Path>, processor: (Path, Path) -> ProcessorOutcome)
    ensures var item := SingleFile(o, input, fs, processor);
      item.inputPath == input && item.status in {Completed, Failed, Skipped} &&
      (item.status == Completed <==>
        ValidFile(input, fs) && !(OutputPath(o, input) in fs && !o.overwriteExisting) &&
        processor(input, OutputPath(o, input)).Returned?) &&
      (item.outputPath.Some? <==> ValidFile(input, fs)) &&
      (item.status == Failed && ValidFile(input, fs) ==> processor(input, OutputPath(o, input)).Raised?) &&
      (input !in fs ==> item.status == Failed)
  {
  }

  const CANCELLED_MESSAGE: string := "Cancelled by user"
  const STOPPED_MESSAGE: string := "Stopped due to previous error"

  function SkipAll(inputs: seq<Path>, message: string): (r: seq<BatchItemResult>)
    ensures |r| == |inputs|
    ensures forall k :: 0 <= k < |inputs| ==> r[k] == FinishedItem(inputs[k], None, Skipped, message)
  {
    seq(|inputs|, k requires 0 <= k < |inputs| => FinishedItem(inputs[k], None, Skipped, message))
  }

  /** A successful processor call leaves its output file behind. */
  function Written(fs: set<Path>, item: BatchItemResult): set<Path> {
    if item.status == Completed && item.outputPath.Some? then fs + {item.outputPath.value} else fs
  }

  /** What `process` does from file `i` on, given whether a cancel was
      requested while the previous file was dispatched: the items, whether
      the batch was cancelled, how many files were dispatched and the final
      cancel flag. */
  datatype Trace = Trace(items: seq<BatchItemResult>, cancelled: bool, dispatched: nat, cancelFlag: bool)

  function Run(o: BatchOptions, inputs: seq<Path>, fs: set<Path>, processor: (Path, Path) -> ProcessorOutcome,
               cancelAt: set<nat>, i: nat, flag: bool): (t: Trace)
    requires i <= |inputs|
    ensures |t.items| == |inputs| - i && t.dispatched <= |t.items|
    ensures flag ==> t.dispatched == 0
    ensures forall k :: 0 <= k < |t.items| ==> t.items[k].inputPath == inputs[i + k]
    decreases |inputs| - i
  {
    if i >= |inputs| then Trace([], false, 0, flag)
    else if flag then
      SkipPaths(inputs, i, CANCELLED_MESSAGE);
      Trace(SkipAll(inputs[i..], CANCELLED_MESSAGE), true, 0, true)
    else
      var item := SingleFile(o, inputs[i], fs, processor);
      SingleFileOutcome(o, inputs[i], fs, processor);
      var requested := i in cancelAt;
      if item.status == Failed && o.stopOnError then
        SkipPaths(inputs, i + 1, STOPPED_MESSAGE);
        ConsPaths(inputs, i, item, SkipAll(inputs[i + 1..], STOPPED_MESSAGE));
        Trace([item] + SkipAll(inputs[i + 1..], STOPPED_MESSAGE), true, 1, requested)
      else
        var rest := Run(o, inputs, Written(fs, item), processor, cancelAt, i + 1, requested);
        ConsPaths(inputs, i, item, rest.items);
        Trace([item] + rest.items, rest.cancelled, rest.dispatched + 1, rest.cancelFlag)
  }

  /** The skipped items of the files from `i` on name those files. */
  lemma SkipPaths(inputs: seq<Path>, i: nat, message: string)
    requires i <= |inputs|
    ensures |SkipAll(inputs[i..], message)| == |inputs| - i
    ensures forall k :: 0 <= k < |inputs| - i ==> SkipAll(inputs[i..], message)[k].inputPath == inputs[i + k]
  {
    var r := SkipAll(inputs[i..], message);
    forall k | 0 <= k < |inputs| - i ensures r[k].inputPath == inputs[i + k] {
      assert inputs[i..][k] == inputs[i + k];
    }
  }

  /** The item of file `i` followed by items naming the files after it
      names the files from `i` on. */
  lemma ConsPaths(inputs: seq<Path>, i: nat, item: BatchItemResult, rest: seq<BatchItemResult>)
    requires i < |inputs| && item.inputPath == inputs[i] && |rest| == |inputs| - i - 1
    requires forall k :: 0 <= k < |rest| ==> rest[k].inputPath == inputs[i + 1 + k]
    ensures |[item] + rest| == |inputs| - i
    ensures forall k :: 0 <= k < |[item] + rest| ==> ([item] + rest)[k].inputPath == inputs[i + k]
  {
    forall k | 0 <= k < |[item] + rest| ensures ([item] + rest)[k].inputPath == inputs[i + k] {
      if k > 0 {
        assert ([item] + rest)[k] == rest[k - 1];
      }
    }
  }

  datatype ProgressEvent = ProgressEvent(current: nat, total: nat, name: string)

  /** The callback's calls for the first `n` dispatched files. */
  function Dispatches(inputs: seq<Path>, n: nat): (r: seq<ProgressEvent>)
    requires n <= |inputs|
    ensures |r| == n
    ensures forall k :: 0 <= k < n ==> r[k] == ProgressEvent(k, |inputs|, Name(inputs[k]))
  {
    seq(n, k requires 0 <= k < n => ProgressEvent(k, |inputs|, Name(inputs[k])))
  }

  lemma AppendAssoc(a: seq<BatchItemResult>, b: seq<BatchItemResult>, c: seq<BatchItemResult>)
    ensures a + (b + c) == (a + b) + c
  {
  }

  /** `whole` is the run of the batch when `before` holds the items of the
      files before `index` and the run goes on from `index` with `files` on
      disk and the cancel flag `flag`. */
  predicate Resumes(o: BatchOptions, inputs: seq<Path>, files: set<Path>, processor: (Path, Path) -> ProcessorOutcome,
                    cancelAt: set<nat>, index: nat, flag: bool, whole: Trace, before: seq<BatchItemResult>)
  {
    index <= |inputs| &&
    var t := Run(o, inputs, files, processor, cancelAt, index, flag);
    whole == Trace(before + t.items, t.cancelled, index + t.dispatched, t.cancelFlag)
  }

  /** `process`'s loop, one file on: `whole` is the run of the batch and
      `before` the items of the files before `index`. A cancel request
      skips the rest. */
  lemma RunCancelled(o: BatchOptions, inputs: seq<Path>, fs: set<Path>, processor: (Path, Path) -> ProcessorOutcome,
                     cancelAt: set<nat>, index: nat, whole: Trace, before: seq<BatchItemResult>)
    requires index < |inputs|
    requires Resumes(o, inputs, fs, processor, cancelAt, index, true, whole, before)
    ensures whole == Trace(before + SkipAll(inputs[index..], CANCELLED_MESSAGE), true, index, true)
  {
    RunUnfold(o, inputs, fs, processor, cancelAt, index, true);
  }

  /** A failure under stop-on-error skips the rest after the failed file. */
  lemma RunStopped(o: BatchOptions, inputs: seq<Path>, fs: set<Path>, processor: (Path, Path) -> ProcessorOutcome,
                   cancelAt: set<nat>, index: nat, whole: Trace, before: seq<BatchItemResult>)
    requires index < |inputs|
    requires var item := SingleFile(o, inputs[index], fs, processor);
      item.status == Failed && o.stopOnError
    requires Resumes(o, inputs, fs, processor, cancelAt, index, false, whole, before)
    ensures var item := SingleFile(o, inputs[index], fs, processor);
      whole == Trace((before + [item]) + SkipAll(inputs[index + 1..], STOPPED_MESSAGE), true, index + 1, index in cancelAt)
  {
    RunUnfold(o, inputs, fs, processor, cancelAt, index, false);
    var item := SingleFile(o, inputs[index], fs, processor);
    AppendAssoc(before, [item], SkipAll(inputs[index + 1..], STOPPED_MESSAGE));
  }

  /** Otherwise the run goes on from the next file, with the output of this
      one on disk. */
  lemma RunContinued(o: BatchOptions, inputs: seq<Path>, fs: set<Path>, processor: (Path, Path) -> ProcessorOutcome,
                     cancelAt: set<nat>, index: nat, whole: Trace, before: seq<BatchItemResult>)
    requires index < |inputs|
    requires var item := SingleFile(o, inputs[index], fs, processor);
      !(item.status == Failed && o.stopOnError)
    requires Resumes(o, inputs, fs, processor, cancelAt, index, false, whole, before)
    ensures var item := SingleFile(o, inputs[index], fs, processor);
      Resumes(o, inputs, Written(fs, item), processor, cancelAt, index + 1, index in cancelAt, whole, before + [item])
  {
    RunUnfold(o, inputs, fs, processor, cancelAt, index, false);
    var item := SingleFile(o, inputs[index], fs, processor);
    var rest := Run(o, inputs, Written(fs, item), processor, cancelAt, index + 1, index in cancelAt);
    AppendAssoc(before, [item], rest.items);
  }

  /** The callback's call for file `n` follows those for the files before. */
  lemma DispatchesSnoc(inputs: seq<Path>, n: nat)
    requires n < |inputs|
    ensures Dispatches(inputs, n + 1) == Dispatches(inputs, n) + [ProgressEvent(n, |inputs|, Name(inputs[n]))]
  {
  }

  /** One step of `Run`: a raised cancel flag skips the rest, a failure
      under stop-on-error skips the rest after it, and otherwise the item is
      followed by the run from the next file. */
  lemma RunUnfold(o: BatchOptions, inputs: seq<Path>, fs: set<Path>, processor: (Path, Path) -> ProcessorOutcome,
                  cancelAt: set<nat>, i: nat, flag: bool)
    requires i < |inputs|
    ensures flag ==> Run(o, inputs, fs, processor, cancelAt, i, flag) == Trace(SkipAll(inputs[i..], CANCELLED_MESSAGE), true, 0, true)
    ensures var item := SingleFile(o, inputs[i], fs, processor);
      !flag && item.status == Failed && o.stopOnError ==>
      Run(o, inputs, fs, processor, cancelAt, i, flag) == Trace([item] + SkipAll(inputs[i + 1..], STOPPED_MESSAGE), true, 1, i in cancelAt)
    ensures var item := SingleFile(o, inputs[i], fs, processor);
      var rest := Run(o, inputs, Written(fs, item), processor, cancelAt, i + 1, i in cancelAt);
      !flag && !(item.status == Failed && o.stopOnError) ==>
      Run(o, inputs, fs, processor, cancelAt, i, flag) == Trace([item] + rest.items, rest.cancelled, rest.dispatched + 1, rest.cancelFlag)
  {
  }

  /** Every item comes back finished. */
  lemma {:induction false} RunItems(o: BatchOptions, inputs: seq<Path>, fs: set<Path>, processor: (Path, Path) -> ProcessorOutcome,
                                    cancelAt: set<nat>, i: nat, flag: bool)
    requires i <= |inputs|
    ensures var t := Run(o, inputs, fs, processor, cancelAt, i, flag);
      forall k :: 0 <= k < |t.items| ==> t.items[k].status in {Completed, Failed, Skipped}
    decreases |inputs| - i
  {
    if i < |inputs| {
      RunUnfold(o, inputs, fs, processor, cancelAt, i, flag);
      if !flag {
        var item := SingleFile(o, inputs[i], fs, processor);
        SingleFileOutcome(o, inputs[i], fs, processor);
        if !(item.status == Failed && o.stopOnError) {
          RunItems(o, inputs, Written(fs, item), processor, cancelAt, i + 1, i in cancelAt);
        }
      }
    }
  }

  /** The files after the dispatched ones are skipped, with the reason, and
      skipping any marks the batch cancelled; a cancelled batch either skipped
      files or ended on a failure under stop-on-error. */
  ghost predicate SkipShape(o: BatchOptions, inputs: seq<Path>, i: nat, t: Trace) {
    i <= |inputs| && |t.items| == |inputs| - i && t.dispatched <= |t.items| &&
    (forall k :: t.dispatched <= k < |t.items| ==>
      t.items[k] == FinishedItem(inputs[i + k], None, Skipped, CANCELLED_MESSAGE) ||
      t.items[k] == FinishedItem(inputs[i + k], None, Skipped, STOPPED_MESSAGE)) &&
    (t.dispatched < |t.items| ==> t.cancelled) &&
    (t.cancelled ==> t.dispatched < |t.items| || (o.stopOnError && 0 < t.dispatched && t.items[t.dispatched - 1].status == Failed))
  }

  /** Nothing is dispatched after a file during which a cancel was
      requested, nor, under stop-on-error, after a failed file. */
  ghost predicate StopShape(o: BatchOptions, inputs: seq<Path>, cancelAt: set<nat>, i: nat, t: Trace) {
    t.dispatched <= |t.items| &&
    (forall k :: i <= k < i + t.dispatched - 1 ==> k !in cancelAt) &&
    (o.stopOnError ==> forall k :: 0 <= k < t.dispatched - 1 ==> t.items[k].status != Failed)
  }

  /** Putting a dispatched, non-stopping item in front of a run keeps both
      shapes. */
  lemma ShapeStep(o: BatchOptions, inputs: seq<Path>, cancelAt: set<nat>, i: nat, item: BatchItemResult, rest: Trace, t: Trace)
    requires i < |inputs|
    requires !(item.status == Failed && o.stopOnError)
    requires rest.dispatched > 0 ==> i !in cancelAt
    requires SkipShape(o, inputs, i + 1, rest) && StopShape(o, inputs, cancelAt, i + 1, rest)
    requires t == Trace([item] + rest.items, rest.cancelled, rest.dispatched + 1, rest.cancelFlag)
    ensures SkipShape(o, inputs, i, t) && StopShape(o, inputs, cancelAt, i, t)
  {
    assert forall k :: 1 <= k < |t.items| ==> t.items[k] == rest.items[k - 1];
  }

  /** Both shapes of a run cut short by a cancel request or by a failure
      under stop-on-error. */
  lemma ShapeEnd(o: BatchOptions, inputs: seq<Path>, cancelAt: set<nat>, i: nat, t: Trace)
    requires i < |inputs|
    requires t == Trace(SkipAll(inputs[i..], CANCELLED_MESSAGE), true, 0, true) ||
      (o.stopOnError && |t.items| > 0 && t.items[0].status == Failed &&
       t == Trace([t.items[0]] + SkipAll(inputs[i + 1..], STOPPED_MESSAGE), true, 1, t.cancelFlag))
    ensures SkipShape(o, inputs, i, t) && StopShape(o, inputs, cancelAt, i, t)
  {
    if t.dispatched == 1 {
      assert forall k :: 1 <= k < |t.items| ==> t.items[k] == SkipAll(inputs[i + 1..], STOPPED_MESSAGE)[k - 1];
    }
  }

  /** Both shapes hold of every run. */
  lemma {:induction false} RunShapes(o: BatchOptions, inputs: seq<Path>, fs: set<Path>, processor: (Path, Path) -> ProcessorOutcome,
                                     cancelAt: set<nat>, i: nat, flag: bool)
    requires i <= |inputs|
    ensures SkipShape(o, inputs, i, Run(o, inputs, fs, processor, cancelAt, i, flag))
    ensures StopShape(o, inputs, cancelAt, i, Run(o, inputs, fs, processor, cancelAt, i, flag))
    decreases |inputs| - i
  {
    var t := Run(o, inputs, fs, processor, cancelAt, i, flag);
    if i < |inputs| {
      RunUnfold(o, inputs, fs, processor, cancelAt, i, flag);
      var item := SingleFile(o, inputs[i], fs, processor);
      if flag || (item.status == Failed && o.stopOnError) {
        ShapeEnd(o, inputs, cancelAt, i, t);
      } else {
        var rest := Run(o, inputs, Written(fs, item), processor, cancelAt, i + 1, i in cancelAt);
        RunShapes(o, inputs, Written(fs, item), processor, cancelAt, i + 1, i in cancelAt);
        ShapeStep(o, inputs, cancelAt, i, item, rest, t);
      }
    }
  }

  /** With no cancel request and no stop-on-error every file is dispatched
      and the batch is not cancelled. */
  lemma {:induction false} RunAll(o: BatchOptions, inputs: seq<Path>, fs: set<Path>, processor: (Path, Path) -> ProcessorOutcome,
                                  cancelAt: set<nat>, i: nat)
    requires i <= |inputs|
    requires cancelAt == {} && !o.stopOnError
    ensures var t := Run(o, inputs, fs, processor, cancelAt, i, false);
      t.dispatched == |inputs| - i && !t.cancelled
    decreases |inputs| - i
  {
    if i < |inputs| {
      RunUnfold(o, inputs, fs, processor, cancelAt, i, false);
      var item := SingleFile(o, inputs[i], fs, processor);
      RunAll(o, inputs, Written(fs, item), processor, cancelAt, i + 1);
    }
  }

  /** A whole batch: one item per input, so the status counts add up to the
      total. */
  lemma BatchCounts(o: BatchOptions, inputs: seq<Path>, fs: set<Path>, processor: (Path, Path) -> ProcessorOutcome, cancelAt: set<nat>)
    ensures var t := Run(o, inputs, fs, processor, cancelAt, 0, false);
      var r := BatchResult(t.items, t.cancelled);
      TotalCount(r) == |inputs| && CompletedCount(r) + FailedCount(r) + SkippedCount(r) == TotalCount(r)
  {
    RunItems(o, inputs, fs, processor, cancelAt, 0, false);
    CountsBound(Run(o, inputs, fs, processor, cancelAt, 0, false).items);
  }

  /** `validate_files`' two lists. */
  function ValidOf(files: seq<Path>, fs: set<Path>): (r: seq<Path>)
    ensures forall k :: 0 <= k < |r| ==> ValidFile(r[k], fs)
  {
    if |files| == 0 then []
    else ValidOf(files[..|files| - 1], fs) + (if ValidFile(files[|files| - 1], fs) then [files[|files| - 1]] else [])
  }

  function InvalidOf(files: seq<Path>, fs: set<Path>): (r: seq<Path>)
    ensures forall k :: 0 <= k < |r| ==> !ValidFile(r[k], fs)
  {
    if |files| == 0 then []
    else InvalidOf(files[..|files| - 1], fs) + (if ValidFile(files[|files| - 1], fs) then [] else [files[|files| - 1]])
  }

  /** The split of a single file. */
  lemma ValidOfSingle(f: Path, fs: set<Path>)
    ensures ValidOf([f], fs) == (if ValidFile(f, fs) then [f] else [])
    ensures InvalidOf([f], fs) == (if ValidFile(f, fs) then [] else [f])
  {
    assert [f][..0] == [];
  }

  /** Both lists distribute over concatenation, so each keeps the input
      order. */
  lemma {:induction false} ValidOfAppend(a: seq<Path>, b: seq<Path>, fs: set<Path>)
    ensures ValidOf(a + b, fs) == ValidOf(a, fs) + ValidOf(b, fs)
    ensures InvalidOf(a + b, fs) == InvalidOf(a, fs) + InvalidOf(b, fs)
    decreases |b|
  {
    if |b| == 0 {
      assert a + b == a;
    } else {
      var b' := b[..|b| - 1];
      var last := b[|b| - 1];
      assert (a + b)[..|a + b| - 1] == a + b';
      assert (a + b)[|a + b| - 1] == last;
      ValidOfAppend(a, b', fs);
      var vt := if ValidFile(last, fs) then [last] else [];
      var it := if ValidFile(last, fs) then [] else [last];
      assert ValidOf(a + b, fs) == ValidOf(a + b', fs) + vt;
      assert InvalidOf(a + b, fs) == InvalidOf(a + b', fs) + it;
      assert (ValidOf(a, fs) + ValidOf(b', fs)) + vt == ValidOf(a, fs) + (ValidOf(b', fs) + vt);
      assert (InvalidOf(a, fs) + InvalidOf(b', fs)) + it == InvalidOf(a, fs) + (InvalidOf(b', fs) + it);
    }
  }

  /** A non-empty sequence is its prefix followed by its last element. */
  lemma SnocSplit(s: seq<Path>)
    requires |s| > 0
    ensures s == s[..|s| - 1] + [s[|s| - 1]]
  {
  }

  /** One step of `ValidatePartition`: appending a file to the input appends
      it to exactly one of the two lists. */
  lemma ValidateStep(files: seq<Path>, init: seq<Path>, last: Path, fs: set<Path>)
    requires files == init + [last]
    requires |ValidOf(init, fs)| + |InvalidOf(init, fs)| == |init|
    requires multiset(ValidOf(init, fs)) + multiset(InvalidOf(init, fs)) == multiset(init)
    ensures |ValidOf(files, fs)| + |InvalidOf(files, fs)| == |files|
    ensures multiset(ValidOf(files, fs)) + multiset(InvalidOf(files, fs)) == multiset(files)
  {
    assert files[..|files| - 1] == init;
    var v, inv := ValidOf(init, fs), InvalidOf(init, fs);
    assert multiset(files) == multiset(init) + multiset{last};
    if ValidFile(last, fs) {
      assert ValidOf(files, fs) == v + [last];
      assert InvalidOf(files, fs) == inv;
      assert multiset(v + [last]) == multiset(v) + multiset{last};
    } else {
      assert ValidOf(files, fs) == v;
      assert InvalidOf(files, fs) == inv + [last];
      assert multiset(inv + [last]) == multiset(inv) + multiset{last};
    }
  }

  /** The two lists split the input: together they hold every file as often
      as the input does. */
  lemma {:induction false} ValidatePartition(files: seq<Path>, fs: set<Path>)
    ensures multiset(ValidOf(files, fs)) + multiset(InvalidOf(files, fs)) == multiset(files)
    ensures |ValidOf(files, fs)| + |InvalidOf(files, fs)| == |files|
  {
    if |files| > 0 {
      var init := files[..|files| - 1];
      ValidatePartition(init, fs);
      SnocSplit(files);
      ValidateStep(files, init, files[|files| - 1], fs);
    }
  }

  /** A valid file is never rejected for being missing or not a DXF file,
      and an invalid one is never completed. */
  lemma ValidFileItems(o: BatchOptions, input: Path, fs: set<Path>, processor: (Path, Path) -> ProcessorOutcome)
    ensures ValidFile(input, fs) ==> SingleFile(o, input, fs, processor).outputPath == Some(OutputPath(o, input))
    ensures !ValidFile(input, fs) ==> SingleFile(o, input, fs, processor).status != Completed
  {
  }

  class BatchProcessor {
    const options: BatchOptions
    var cancelRequested: bool

    constructor(options: BatchOptions)
      ensures this.options == options && !cancelRequested
    {
      this.options := options;
      cancelRequested := false;
    }

    /** `cancel`. */
    method Cancel()
      modifies this
      ensures cancelRequested
    {
      cancelRequested := true;
    }

    /** `_get_output_path`. */
    method GetOutputPath(input: Path) returns (output: Path)
      ensures output == OutputPath(options, input)
    {
      var dir := if options.outputDirectory.Some? then options.outputDirectory.value else Parent(input);
      var stem := Stem(Name(input));
      var suffix := Suffix(Name(input));
      output := Child(dir, stem + options.outputSuffix + suffix);
    }

    /** `_process_single_file`. */
    method ProcessSingleFile(input: Path, fs: set<Path>, processor: (Path, Path) -> ProcessorOutcome)
      returns (item: BatchItemResult)
      ensures item == SingleFile(options, input, fs, processor)
    {
      item := BatchItemResult(input, None, Processing, None, map[]);
      if input !in fs {
        item := item.(status := Failed, errorMessage := Some("File not found: " + PathString(input)));
        return;
      }
      if ToLower(Suffix(Name(input))) != DXF {
        if options.skipInvalidFiles {
          item := item.(status := Skipped, errorMessage := Some("Not a DXF file"));
        } else {
          item := item.(status := Failed, errorMessage := Some("Not a DXF file"));
        }
        return;
      }
      var output := GetOutputPath(input);
      item := item.(outputPath := Some(output));
      if output in fs && !options.overwriteExisting {
        item := item.(status := Skipped, errorMessage := Some("Output file already exists"));
        return;
      }
      match processor(input, output) {
        case Returned(stats) =>
          item := item.(status := Completed, statistics := if stats.Some? then stats.value else map[]);
        case Raised(message) =>
          item := item.(status := Failed, errorMessage := Some(message));
      }
    }

    /** `process`. `cancelAt` holds the indices of the files during whose
        dispatch `cancel` is called (from the callback or the processor);
        the callback's calls are returned in order when there is one. */
    method Process(inputs: seq<Path>, fs: set<Path>, processor: (Path, Path) -> ProcessorOutcome,
                   cancelAt: set<nat>, hasCallback: bool)
      returns (result: BatchResult, progress: seq<ProgressEvent>)
      modifies this
      ensures var t := Run(options, inputs, fs, processor, cancelAt, 0, false);
        result == BatchResult(t.items, t.cancelled) && cancelRequested == t.cancelFlag &&
        t.dispatched <= |inputs| &&
        progress == (if hasCallback then Dispatches(inputs, t.dispatched) + [ProgressEvent(|inputs|, |inputs|, "Complete")] else [])
    {
      ghost var whole := Run(options, inputs, fs, processor, cancelAt, 0, false);
      cancelRequested := false;
      var items: seq<BatchItemResult> := [];
      var cancelled := false;
      var files := fs;
      progress := [];
      var total := |inputs|;
      var index := 0;
      ghost var dispatched := 0;
      while index < |inputs|
        invariant 0 <= index <= |inputs|
        invariant |items| == index && dispatched == index
        invariant Resumes(options, inputs, files, processor, cancelAt, index, cancelRequested, whole, items)
        invariant !cancelled
        invariant progress == if hasCallback then Dispatches(inputs, index) else []
        decreases |inputs| - index
      {
        ghost var before := items;
        if cancelRequested {
          RunCancelled(options, inputs, files, processor, cancelAt, index, whole, before);
          cancelled := true;
          items := items + SkipAll(inputs[index..], CANCELLED_MESSAGE);
          break;
        }
        if hasCallback {
          DispatchesSnoc(inputs, index);
          progress := progress + [ProgressEvent(index, total, Name(inputs[index]))];
        }
        var item := ProcessSingleFile(inputs[index], files, processor);
        items := items + [item];
        if index in cancelAt {
          Cancel();
        }
        if item.status == Failed && options.stopOnError {
          RunStopped(options, inputs, files, processor, cancelAt, index, whole, before);
          cancelled := true;
          items := items + SkipAll(inputs[index + 1..], STOPPED_MESSAGE);
          dispatched := index + 1;
          break;
        }
        RunContinued(options, inputs, files, processor, cancelAt, index, whole, before);
        files := Written(files, item);
        index := index + 1;
        dispatched := index;
      }
      assert whole == Trace(items, cancelled, dispatched, cancelRequested);
      assert progress == if hasCallback then Dispatches(inputs, dispatched) else [];
      if hasCallback {
        progress := progress + [ProgressEvent(total, total, "Complete")];
      }
      result := BatchResult(items, cancelled);
    }

    /** `validate_files`. */
    method ValidateFiles(files: seq<Path>, fs: set<Path>) returns (valid: seq<Path>, invalid: seq<Path>)
      ensures valid == ValidOf(files, fs) && invalid == InvalidOf(files, fs)
    {
      valid := [];
      invalid := [];
      var i := 0;
      while i < |files|
        invariant 0 <= i <= |files|
        invariant valid == ValidOf(files[..i], fs) && invalid == InvalidOf(files[..i], fs)
      {
        assert files[..i + 1][..i] == files[..i];
        var p := files[i];
        if p !in fs {
          invalid := invalid + [p];
        } else if ToLower(Suffix(Name(p))) != DXF {
          invalid := invalid + [p];
        } else {
          valid := valid + [p];
        }
        i := i + 1;
      }
      assert files[..|files|] == files;
    }
  }
}
