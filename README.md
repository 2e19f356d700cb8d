# stagecraft core, modelled in Dafny

stagecraft is a Python library for building ETL pipelines out of stages. This
project models the parts of it that decide what happens when a pipeline runs,
and proves properties about them.

- **`PipelineRunner`** (`runner.dfy`) sets up a run's context and metadata. It
  binds the context to every stage and executes the stages in order. For each
  stage it records the outcome (skipped, completed or failed), tells the
  memory manager which results may be auto-cleared, and finalizes the
  pipeline metadata. It stops at the first failing stage.
- **`StageLoop`** (`loops.dfy`) is a composite stage. It re-runs its child
  stages while a condition holds and the iteration cap allows, and it keeps
  per-child and per-iteration timings and their means.
- **The decorators `exceptional` and `nullable`** (`wrappers.dfy`) change
  which exceptions a wrapped call lets through.
- **`resolve_svaluable`** (`helpers.dfy`) turns a constant, a zero-argument
  producer or a stage-taking producer into a value.
- **`LoggingManager`** (`logging.dfy`) configures logging once. It picks a log
  file path that does not clash with existing files. Its `_StreamToLogger`
  proxy turns stream writes into one log record per non-blank line.
  `color_fmt` wraps a message in ANSI codes.
- **`DFVarSchema`** (`schemas.dfy`) is the schema base class. Its
  `__init_subclass__` gathers the declared fields into dtype groups,
  annotations and field options. `to_vect_dict` and `from_dict` convert
  records to a dict of columns and back.

The supporting modules are:

- `errors.dfy`: the exception kinds and the `Result`/`Outcome` wrappers.
- `stages.dfy`: stages, their scripted behaviour and stage metadata.
- `text.dfy`: string helpers.

Collaborators the core calls but does not define become parameters of the
model:

- the context's `validate`;
- the memory manager's `invert_dependency_map` and auto-clear;
- what a stage does when it runs;
- the loop condition's answers, each a verdict or an exception;
- clocks and the file system's existing names.

Python's `x or default` falls back on every falsy value. The model keeps that:
an empty name or description, a zero console level, and an absent config or
index list all take the default.

## Model

| member | source | states |
|---|---|---|
| Helpers.ResolveSValuable | src/stagecraft/pipeline/helpers.py:13-27 | None resolves to None. A constant is returned as is. A zero-argument producer is called. A stage-taking producer is applied to the stage, or raises the library's ValueError when there is no stage. A producer's own exception propagates unchanged, and a value produced is never None-wrapped away. |
| Helpers.StageIrrelevantUnlessStageBound | src/stagecraft/pipeline/helpers.py:17-27 | Unless the value takes a stage, resolution does not depend on whether a stage is given, and it can raise only what a zero-argument producer itself raised. |
| Helpers.ResolvesWithStage | src/stagecraft/pipeline/helpers.py:17-27 | With a stage supplied, resolving is exactly using the value with that stage. The missing-stage ValueError cannot arise, and any exception is the producer's own. |
| Decorators.Exceptional | src/stagecraft/core/wrappers.py:13-32 | Return values pass through. KeyboardInterrupt, AppException and SystemExit propagate unchanged. CriticalException becomes SystemExit. Any other ordinary exception is wrapped into an AppException naming the function. Only those three kinds can escape. |
| Decorators.Nullable | src/stagecraft/core/wrappers.py:43-64 | Return values pass through. Any ordinary exception becomes the default value. KeyboardInterrupt and SystemExit still propagate, so nothing ordinary escapes. |
| Decorators.NullableNone | src/stagecraft/core/wrappers.py:43-64 | Without a default, an ordinary exception yields None. Returns and KeyboardInterrupt are untouched. |
| Decorators.ExceptionalIdempotent | src/stagecraft/core/wrappers.py:13-32 | Applying `exceptional` twice behaves like applying it once. |
| Decorators.NullableIdempotent | src/stagecraft/core/wrappers.py:50-60 | Stacking `nullable` gives the inner default. |
| Decorators.NullableOverExceptional | src/stagecraft/core/wrappers.py:13-60 | Inside `nullable`, `exceptional` still turns a CriticalException into SystemExit. Every other ordinary exception ends as the default. |
| Text.NatToDecimal | src/stagecraft/core/logging.py:332 | The decimal text of a counter is a non-empty string of digits, and it is one character long exactly for numbers below ten. |
| Text.NatToDecimalInjective | src/stagecraft/core/logging.py:330-335 | Distinct counters give distinct decimal texts. |
| Text.RStripNewlines | src/stagecraft/core/logging.py:389 | The result is a prefix of the input that does not end in a newline, and everything removed is a newline. |
| Stages.NameSetMonotone | src/stagecraft/pipeline/runner.py:192-200 | The set of names of the stages done so far only grows as the pipeline advances. |
| Stages.NameSetCovers | src/stagecraft/pipeline/runner.py:137-146 | Every name in a stage's tree is in the pipeline's name set. |
| Logging.Code | src/stagecraft/core/logging.py:18-73 | Every colour code is an escape sequence of the form ESC [ ... m. |
| Logging.EndCode | src/stagecraft/core/logging.py:73 | The reset code is ESC [0m. |
| Logging.StripColorFmt | src/stagecraft/core/logging.py:76-77 | Stripping the colour from a formatted message gives back the message. |
| Logging.FirstNewlineIsFirst | src/stagecraft/core/logging.py:381-382 | The split point is the first newline, or the end of the text when there is none. |
| Logging.LinesThenRest | src/stagecraft/core/logging.py:377-385 | The split lines, each followed by its newline, and then the kept remainder rebuild the buffered text exactly, so nothing is lost. |
| Logging.NoNewlineLeft | src/stagecraft/core/logging.py:381-385 | Neither the kept remainder nor any split line contains a newline. |
| Logging.RecordsAreNonBlank | src/stagecraft/core/logging.py:383-384 | Every record emitted has the proxy's level and a non-blank message taken from one of the lines. |
| Logging.SplitFirstLine | src/stagecraft/core/logging.py:381-384 | One pass of the loop removes the first line and its newline, and emits that line if it is not blank. |
| Logging.StreamToLogger.constructor | src/stagecraft/core/logging.py:372-375 | A new proxy has the given level, an empty buffer and has emitted nothing. |
| Logging.StreamToLogger.Write | src/stagecraft/core/logging.py:377-385 | An empty write changes nothing and returns 0. Otherwise it returns the length written. The buffer becomes what follows the last newline. Exactly the non-blank complete lines are logged, in order. |
| Logging.StreamToLogger.Flush | src/stagecraft/core/logging.py:387-390 | Flushing empties the buffer and logs the right-stripped remainder, unless it is blank. |
| Logging.WriteLeavesNoNewline | src/stagecraft/core/logging.py:377-390 | After a write the buffer holds no newline, so a flush logs it unchanged. |
| Logging.NoLogTruncatedUnlessOverwrite | src/stagecraft/core/logging.py:294-299 | The log file is opened for truncation only when overwriting is requested, and then it is the base path. Otherwise the handler appends to a file that did not exist before. |
| Logging.CandidatePathInjective | src/stagecraft/core/logging.py:330-335 | Different suffix counters give different candidate paths. |
| Logging.LogPathUnique | src/stagecraft/core/logging.py:323-337 | For a given configuration, timestamp and set of existing files, there is only one valid log path. |
| Logging.LogPathIsFresh | src/stagecraft/core/logging.py:328-335 | When not overwriting, the chosen log path is not an existing file. |
| Logging.LoggingManager.constructor | src/stagecraft/core/logging.py:229-252 | A new manager has the default configuration and is unconfigured, with no handlers, no log path and no capture. |
| Logging.LoggingManager.MakeLogPath | src/stagecraft/core/logging.py:323-337 | Overwriting returns the base path. Otherwise the first candidate (base, then `_1`, `_2`, ...) that does not exist is returned. |
| Logging.LoggingManager.Configure | src/stagecraft/core/logging.py:266-321 | A second call changes nothing. The first call adopts the given configuration, or keeps the current one when none is given. It records the run timestamp and root level, and installs a console handler at the console level. It installs a file handler on a fresh log path with the configured mode. It captures the standard streams exactly when asked. |
| Loops.ValidateLoopArgs | src/stagecraft/pipeline/loops.py:61-63 | Construction fails exactly when there are no stages, the condition is falsy or the cap is not positive. It fails with an AssertionError carrying the message of the first assertion that fails, in source order. |
| Loops.LoopNameNonEmpty | src/stagecraft/pipeline/loops.py:68-69 | Whatever name and description are passed, the loop's name and description are never empty. |
| Loops.DefaultNameShape | src/stagecraft/pipeline/loops.py:68 | The default name is `loop_`, then the first two child names joined by `_`, then `_etc`. |
| Loops.StageLoop.constructor | src/stagecraft/pipeline/loops.py:41-80 | A new loop holds its stages, condition and cap, with the name and description chosen as above and all counters, means and events at zero or empty. |
| Loops.StageLoop.Create | src/stagecraft/pipeline/loops.py:41-80 | Creation returns exactly the AssertionError that validation reports. Otherwise it returns a fresh valid loop with the given stages, condition, cap and context flag, the chosen name and description, and zero counters, means, metadata and events. |
| Loops.StageLoop.SetContext | src/stagecraft/pipeline/loops.py:88-91 | After a context is bound, the loop's context check passes. Counters, means, metadata and events are unchanged. |
| Loops.StageLoop.CollectAllStages | src/stagecraft/pipeline/loops.py:82-86 | The loop's stage list is its own list followed by every child's whole tree, in order. |
| Loops.StageLoop.ShouldContinue | src/stagecraft/pipeline/loops.py:88-94 | Without a context it raises RuntimeError. Otherwise it returns the condition's verdict, or raises the exception that resolving or asking the condition raised. |
| Loops.PlannedIsFirstStop | src/stagecraft/pipeline/loops.py:102-108 | The number of rounds the condition and cap allow is the first round where either says stop. |
| Loops.CapBoundsIterations | src/stagecraft/pipeline/loops.py:102-106 | A cap of n allows at most n rounds, and exactly n when the condition never says stop. |
| Loops.InitiallyFalse | src/stagecraft/pipeline/loops.py:107-108 | A condition that does not answer true at the start, because it is false or raises, runs no round. |
| Loops.ConditionRaisesAtStart | src/stagecraft/pipeline/loops.py:93-94 | When the cap allows a first round and the first condition check raises, the loop escapes with that exception after zero rounds, and that check is its only call. |
| Loops.FirstRaiseIsFirst | src/stagecraft/pipeline/loops.py:115-116 | Within a round, the children before the first raising child all ran normally. |
| Loops.FailIterIsFirst | src/stagecraft/pipeline/loops.py:102-118 | The failing round is the first round in which some child raises. |
| Loops.TimesLength | src/stagecraft/pipeline/loops.py:99-118 | After k rounds, each child name holds k times as many timings as there are children with that name. |
| Loops.NoIterationMeans | src/stagecraft/pipeline/loops.py:123-128 | With no rounds, every mean is 0. |
| Loops.EachIterationRunsAllChildren | src/stagecraft/pipeline/loops.py:115-116 | k uninterrupted rounds execute the children in order, k times over. |
| Loops.ChildNamesAreKeys | src/stagecraft/pipeline/loops.py:99 | Every child's name is a key of the timing map. |
| Loops.TimesMapKeys | src/stagecraft/pipeline/loops.py:99-118 | Rounds never add or drop timing keys. |
| Loops.AddRowEntry | src/stagecraft/pipeline/loops.py:115-118 | One round appends the child's timings to that child's entry. |
| Loops.TimesMapEntry | src/stagecraft/pipeline/loops.py:99-118 | After k rounds, each child's entry is the sequence of its timings over those rounds. |
| Loops.MeansOfTimesMap | src/stagecraft/pipeline/loops.py:123-125 | The recorded mean loop times are the per-child means of the timing map. |
| Loops.StoppedOutcome | src/stagecraft/pipeline/loops.py:93-121 | When no child raises before the condition or cap stops the loop, the loop ends after the planned number of rounds. Its error is the final condition check's exception, if that check was made and raised, and none otherwise. Its calls are those rounds' condition checks and child runs, then the final check. |
| Loops.FailedOutcome | src/stagecraft/pipeline/loops.py:102-121 | When a child raises, the loop ends in the first failing round. It carries that child's exception, and the calls stop right after that child. |
| Loops.StageLoop.RunIteration | src/stagecraft/pipeline/loops.py:115-118 | One round runs the children in order until one raises. It appends each child's timing to the map and reports the first exception. |
| Loops.StageLoop.AskCondition | src/stagecraft/pipeline/loops.py:88-108 | The `while` test when the cap allows round `it`. With a context the check is recorded as a call. Going on means exactly that `it` is below the planned number of rounds. A raising check gives the loop's error, count and calls. |
| Loops.StageLoop.PlannedRound | src/stagecraft/pipeline/loops.py:109-121 | A round the condition allowed. It completes and advances timings, iteration times and calls by one round. Otherwise it ends the loop with the loop's error, count and calls. |
| Loops.StageLoop.RunRound | src/stagecraft/pipeline/loops.py:107-121 | One round plus its iteration time. The timing map, iteration times and call trace advance by exactly one round, or stop at the raising child. |
| Loops.StageLoop.Iterate | src/stagecraft/pipeline/loops.py:98-121 | Without a context it raises RuntimeError before any round. Otherwise the error, the iteration count and the calls are those fixed by the condition's answers, the cap and the first raising child. The error can come from a raising child or from a raising condition check. On normal exit the timings are those of the rounds run. |
| Loops.StageLoop.RecordStats | src/stagecraft/pipeline/loops.py:122-131 | Records the iteration count, the per-child means and the mean iteration time. Sets exactly the three metadata entries. |
| Loops.StageLoop.Recipe | src/stagecraft/pipeline/loops.py:93-131 | The whole recipe: the events it produces and the iteration count are as in Iterate. Statistics are recorded only on normal exit. An exception, whether from a child or from the condition check, leaves them untouched. |
| Runner.PipelineRunner.constructor | src/stagecraft/pipeline/runner.py:20-23 | A new runner has no pipeline or metadata. Its memory config is the given one, or the default when none is given. |
| Runner.ContextConfigAdopted | src/stagecraft/pipeline/runner.py:72-77 | Whatever context `run` gets, the runner's memory config afterwards equals the context's. It is unchanged unless a context object is supplied. |
| Runner.MetadataMirrorsStage | src/stagecraft/pipeline/runner.py:105-125 | A stage's record mirrors its whole tree: the same names in the same order, one sub-record per sub-stage, and the same status throughout. |
| Runner.SubMetadataMirrors | src/stagecraft/pipeline/runner.py:121-123 | Sub-stage records carry the sub-stage names, no error and the parent's status. |
| Runner.AppendRecordsTwice | src/stagecraft/pipeline/runner.py:100-103 | Recording two batches of stage records equals recording them together. |
| Runner.Finalize | src/stagecraft/pipeline/runner.py:37-55 | Absent metadata stays absent. Otherwise the status becomes COMPLETED or FAILED, and the end time and duration are set. The error is set only on failure. Name, start time and executed stages are kept. |
| Runner.FreshRunnerValidationFailure | src/stagecraft/pipeline/runner.py:37-39 | A runner that never ran reports no metadata when validation fails. |
| Runner.ReusedRunnerValidationFailure | src/stagecraft/pipeline/runner.py:95-98 | A reused runner whose validation fails reports the previous run's metadata, re-marked FAILED with the new error. |
| Runner.MarkCompleted | src/stagecraft/pipeline/runner.py:137-138 | Marking a stage done adds exactly the names of its tree to the completed set. |
| Runner.FirstFailureIsFirst | src/stagecraft/pipeline/runner.py:186-200 | The failing stage is the first stage whose step raises, and all stages before it passed. |
| Runner.NoFailure | src/stagecraft/pipeline/runner.py:192-200 | Without a failing stage every stage runs. |
| Runner.ExecutedInOrder | src/stagecraft/pipeline/runner.py:192-200 | The stages execute in pipeline order, each once. |
| Runner.AutoClearCount | src/stagecraft/pipeline/runner.py:140-146 | Auto-clear is requested once per successfully completed stage. |
| Runner.AutoClearInverted | src/stagecraft/pipeline/runner.py:192-198 | Every auto-clear request uses the inverted dependency map of the pipeline. |
| Runner.AutoClearSets | src/stagecraft/pipeline/runner.py:127-163 | The completed sets passed to auto-clear only grow, and each is within the names of the stages done so far. |
| Runner.RecordsBeforeFailure | src/stagecraft/pipeline/runner.py:127-146 | Before the first failure, the metadata holds one passed record per stage, in order. |
| Runner.FailedRecord | src/stagecraft/pipeline/runner.py:148-152 | When a stage fails with an ordinary exception, the last record is that stage's, marked FAILED with that exception. |
| Runner.PipelineRunner.InitializeExecution | src/stagecraft/pipeline/runner.py:25-35 | Starting a run sets the current pipeline and fresh RUNNING metadata with no stages executed. |
| Runner.PipelineRunner.FinalizeExecution | src/stagecraft/pipeline/runner.py:37-55 | Finalizing applies Finalize to the current metadata. |
| Runner.PipelineRunner.ExecuteSingleStage | src/stagecraft/pipeline/runner.py:165-188 | A skipped stage records SKIPPED. A completed one records COMPLETED, marks its tree done and requests auto-clear. A failing one records FAILED and returns its exception, and so does a failing auto-clear. |
| Runner.PipelineRunner.ExecuteStageAt | src/stagecraft/pipeline/runner.py:194-200 | Executing stage i extends the events and records of the first i stages to those of the first i+1. When it passes, the completed set becomes the names of the first i+1 stages. |
| Runner.PipelineRunner.ExecutePipelineStages | src/stagecraft/pipeline/runner.py:190-200 | The stages run in order up to and including the first failing one. The error returned is that stage's. The events and records are exactly those of the stages run. |
| Runner.PipelineRunner.BindStages | src/stagecraft/pipeline/runner.py:83-84 | The context is bound to every stage, in order. |
| Runner.PipelineRunner.Run | src/stagecraft/pipeline/runner.py:57-98 | Full run. Only KeyboardInterrupt or SystemExit escape. Failures before any stage finalize earlier metadata and run nothing. A successful run executes every stage, adds the memory summary when enabled and returns success. A failed stage stops the run and is reported with FAILED metadata. The result's success flag holds exactly when there is no error. |
| Schemas.StandardizeDtype | src/stagecraft/pipeline/schemas.py:89-103 | Only unsupported types map to "Other". Every name is non-empty. A supported type's name is capitalised exactly when it is nullable. |
| Schemas.DtypeRoundTrip | src/stagecraft/pipeline/schemas.py:89-103 | A supported type and its nullability are recovered from the dtype name. |
| Schemas.ParsedDtypeRoundTrip | src/stagecraft/pipeline/schemas.py:89-103 | Every recognised dtype name is the standard name of what it parses to. |
| Schemas.BuildFieldInfo | src/stagecraft/pipeline/schemas.py:75-86 | Field options exist exactly when constraints are given or the field is nullable. Given options are kept with nullability OR-ed in. A bare nullable field gets `Field(nullable=True)`. |
| Schemas.MissingIndexColumns | src/stagecraft/pipeline/schemas.py:148 | The missing columns are exactly the index columns that are not declared fields. |
| Schemas.SchemaClass.constructor | src/stagecraft/pipeline/schemas.py:132-134 | A schema class starts with no model and no dtype groups. |
| Schemas.SchemaClass.InitSubclass | src/stagecraft/pipeline/schemas.py:136-192 | Fails with the library's ValueError exactly when some index column is not declared, and then changes nothing. Otherwise it stores the dtype groups and a model built from the annotations, field options and configuration. |
| Schemas.CollectFields | src/stagecraft/pipeline/schemas.py:159-175 | The field loop builds exactly the dtype groups, annotations and field options of the declared fields. |
| Schemas.GroupedIsBuckets | src/stagecraft/pipeline/schemas.py:159-167 | A dtype has a group exactly when some field has that dtype. The group lists those fields in declaration order. |
| Schemas.ExactlyOneBucket | src/stagecraft/pipeline/schemas.py:159-167 | Every field is in the group of its own dtype, in no other group, and at most once. |
| Schemas.AnnotationsOfFields | src/stagecraft/pipeline/schemas.py:160-169 | Every field is annotated with its type. It is an Index annotation exactly when it is an index column, and a Series annotation otherwise. |
| Schemas.AnnotationsOnlyFields | src/stagecraft/pipeline/schemas.py:159-169 | Only declared fields are annotated. |
| Schemas.FieldsOfHints | src/stagecraft/pipeline/schemas.py:171-173 | A field has options in the model exactly when it has constraints or is nullable, and they are its built options. |
| Schemas.FieldsOnlyDeclared | src/stagecraft/pipeline/schemas.py:171-173 | Undeclared names have no field options. |
| Schemas.KindOfDtype | src/stagecraft/pipeline/schemas.py:215-229 | A typed numpy array is chosen exactly for the recognised dtype names, and an object array otherwise. |
| Schemas.KindForMatchesDeclaration | src/stagecraft/pipeline/schemas.py:212-229 | With corrected lookup, every field's column gets the array kind of its own declared dtype. |
| Schemas.AsWrittenLooksUpByName | src/stagecraft/pipeline/schemas.py:213-229 | As written, a schema with one `int` field `x` groups it under "int64", yet the column for `x` is built as an object array. |
| Schemas.Gather | src/stagecraft/pipeline/schemas.py:215-229 | Collecting an attribute succeeds exactly when every instance has it and yields the values in instance order. It fails with an AttributeError naming the attribute. |
| Schemas.ToVectDict | src/stagecraft/pipeline/schemas.py:201-232 | The column-building loop computes the dict of columns of the instances: one per slot, in slot order, or the first AttributeError. Each array type comes from the lookup as written at line 213. |
| Schemas.AsWrittenTypedOnlyForDtypeNames | src/stagecraft/pipeline/schemas.py:212-229 | As written, a column gets a typed array only when its field is itself named like one of the schema's dtype groups. |
| Schemas.ColumnsErrorStays | src/stagecraft/pipeline/schemas.py:212-231 | Once a column fails, the whole conversion fails with that error. |
| Schemas.ColumnsDefined | src/stagecraft/pipeline/schemas.py:207-232 | The conversion succeeds exactly when every instance has every slot, and its only error is AttributeError. |
| Schemas.ColumnsShape | src/stagecraft/pipeline/schemas.py:207-232 | On success there is one column per slot, named by the slot, with the array type the as-written lookup picks. Each column holds each instance's value in order. |
| Schemas.EmptyVectDict | src/stagecraft/pipeline/schemas.py:204-205 | An empty list gives an empty dict. |
| Schemas.SingleInstanceVectDict | src/stagecraft/pipeline/schemas.py:202-203 | A single instance converts like a one-element list, giving one single-value column per slot. |
| Schemas.FromDict | src/stagecraft/pipeline/schemas.py:234-242 | An empty dict gives no records. Otherwise there is one record per value of the first column, each with the class's slots. An IndexError arises exactly when some column is shorter than the first. |
| Schemas.RowLookup | src/stagecraft/pipeline/schemas.py:242 | Row i maps every column's name to that column's i-th value. |
| Schemas.RowKeys | src/stagecraft/pipeline/schemas.py:242 | Row i has exactly the column names as keys. |
| Schemas.RecordsRoundTrip | src/stagecraft/pipeline/schemas.py:201-242 | Converting records of one class to columns and back gives the same records. |
| Schemas.ColumnsRoundTrip | src/stagecraft/pipeline/schemas.py:201-242 | Converting equal-length slot columns to records and back gives the same column names and values. |

## Left out

- Wall-clock time and float durations: stage durations, loop timings and start/end times are supplied values. `mean_*` values are exact means, without the source's rounding.
- Loops.StageLoop.RunIteration: the iteration time is read from the loop's script. The source adds `.microseconds` of a timedelta, which drops whole seconds. That arithmetic on clock values is not modelled.
- The loop condition is a finite script of answers (a verdict or an exception raised while resolving or asking it) rather than a callable over a live context. A condition that reads `current_iteration` sees it through that script.
- Skipped children inside a loop iteration are run like other children. Their own skip logic lives in the ETL stage class, which is not part of this model.
- The ETL stage class itself (`run`, `set_context`, `all_stages`, `skip`), the context's `validate`, the memory manager's `invert_dependency_map` and auto-clear are not part of this model. The outcomes of `validate` and auto-clear and the map `invert_dependency_map` returns are parameters.
- Runner.PipelineRunner.Run: `stage.set_context` (runner.py:83-84), `context.log_memory_summary()` (runner.py:89-90) and `invert_dependency_map` (runner.py:198) are taken never to raise. In the source an ordinary exception from any of them is caught at runner.py:95-98 and gives success=False. The model's "every stage passed ==> success" holds only under that assumption.
- Loops.StageLoop.Iterate: the condition is a finite script that answers false past its end. So a loop without `max_iterations` whose condition never turns false cannot be represented. In the source that loop runs forever, because `max_iterations` is its only bound (loops.py:102-108). Every modelled run terminates.
- Helpers.ResolveSValuable: the arity that `inspect.signature` finds is the variant tag. A callable with two or more required parameters, which Python would call with one argument and so fail with a TypeError, is not modelled.
- Logging side effects are reduced to the handler and path state they set: logger objects, formatters, directory creation, the thread lock, the singleton `__new__`, the `atexit` cleanup, `_redirect_stdout_stderr`'s stream swap and the actual writes.
- Logging.LoggingManager.MakeLogPath: the file system is the set of existing names passed in. The timestamp string is given rather than read from the clock.
- `pandera` model synthesis, `pyarrow` schema conversion, the signature hash and `_SCHEMA_CACHE`, and the typing introspection of `_collect_annotations` and `_parse_type`: the declared fields are given as already-parsed hints.
- numpy arrays are sequences. The array kind is recorded, but element conversion (int64, float64, bool or str casts) is not.
- Schemas.FromDict: the dataclass constructor's keyword check (an unknown or missing column raising TypeError) is not modelled. Every row is built with the class's slots. Dataclass field defaults are not modelled either. In the source a field with a default that is absent from the dict takes that default (schemas.py:242). In the model such a record has no value under that name, so a later `Schemas.ToVectDict` reports an AttributeError for it.
- Schemas.SchemaClass.InitSubclass: the ValueError message does not list the missing columns, whose order in the source comes from a Python set.
- Schemas.SchemaClass.InitSubclass: `_SCHEMA_CACHE` is not modelled. Its `model ==` clause describes a cache miss. The cache key (schemas.py:41-43, 106-117) records each field's name, type, nullability, configuration and checks. It leaves out whether the field is an index and the field options other than checks. On a hit (schemas.py:178-180) the class takes an earlier class's model. For example, a class declaring `id: int` and `v: float` with `index_cols=["id"]`, followed by one declaring the same fields without index columns, gives the second class the first class's model, in which `id` is an index.
- The `__slots__` used by `to_vect_dict` are those of the instance's own class, given with the instance.
- Metadata objects are values, so aliasing between the runner's metadata and the result returned is not modelled.
- `pandera.py`, `dataclass.py`, `serializable.py`, `pipeline/logger.py`, `__init__.py` and the example pipeline are thin wrappers or usage samples outside this model.

## Findings

| source | as written | input that shows it | evidently intended | confidence | as-written member | corrected member |
|---|---|---|---|---|---|---|
| src/stagecraft/pipeline/schemas.py:213 | `to_vect_dict` looks up the field name in `cls.dtypes`. That dict is keyed by dtype name and maps to field names. | A schema with one field `x: int`: `dtypes == {"int64": ["x"]}`, the lookup of `"x"` misses, and the column is built as an object array. | Each column gets the array type of its field's declared dtype (an int64 array here). | medium, not executed | Schemas.AsWrittenLooksUpByName | Schemas.KindForMatchesDeclaration |
