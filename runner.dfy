/**
 * `PipelineRunner`: runs the top-level stages of a pipeline in list order,
 * records one metadata tree per stage, marks finished stages as completed for
 * memory management, asks the context to auto-clear after every successful
 * stage, and turns any ordinary exception into a failed `PipelineResult`.
 *
 * Collaborators whose code is not part of this model are parameters: whether
 * building the context or validating the pipeline raises, the function that
 * inverts the dependency map, and what the context's auto-clear raises after
 * each stage.  Calls the runner makes on stages and on the context are
 * recorded, in order, as events.
 */
module Runner {
  import opened Errors
  import opened Text
  import opened Stages

  type DependencyMap = map<string, set<string>>

  datatype MemoryConfig = MemoryConfig(enabled: bool, logMemoryUsage: bool)

  /** A `PipelineContext`: its initial key-value data and its memory manager's configuration. */
  datatype Context = Context(initial: map<string, string>, memoryConfig: MemoryConfig)

  /** The `context` argument of `run`: nothing, a plain dict, or a ready context. */
  datatype ContextArg = NoContext | ConfigDict(values: map<string, string>) | Supplied(context: Context)

  datatype Pipeline = Pipeline(name: string, stages: seq<Stage>, dependencyMap: DependencyMap)

  /** `PipelineExecutionMetadata` */
  datatype PipelineMeta = PipelineMeta(
    pipelineName: string,
    startTime: int,
    endTime: Option<int>,
    duration: Option<int>,
    status: Status,
    stagesExecuted: seq<StageMeta>,
    error: Option<Exception>)

  datatype PipelineResult = PipelineResult(success: bool, metadata: Option<PipelineMeta>, error: Option<Exception>)

  /** How the collaborators outside the model behave in one run, and the clock readings. */
  datatype Collaborators = Collaborators(
    contextError: Option<Exception>,
    validationError: Option<Exception>,
    invert: DependencyMap -> DependencyMap,
    clearError: nat -> Option<Exception>,
    startTime: int,
    endTime: int)

  /** A call the runner makes: `stage.set_context`, `stage.execute`, `context.auto_clear_unused_variables`, `context.log_memory_summary`. */
  datatype Event =
    | BindContext(stage: string)
    | Execute(stage: string)
    | AutoClear(completed: set<string>, inverted: DependencyMap)
    | MemorySummary

  // ----- context and metadata ---------------------------------------------------

  /** The context `run` works with, and the runner's memory configuration afterwards. */
  function NewContext(arg: ContextArg, runnerConfig: MemoryConfig): (r: (Context, MemoryConfig))
    ensures arg.Supplied? ==> r.0 == arg.context && r.1 == arg.context.memoryConfig
    ensures !arg.Supplied? ==> r.0.memoryConfig == runnerConfig && r.1 == runnerConfig
    ensures arg.ConfigDict? ==> r.0.initial == arg.values
    ensures arg.NoContext? ==> r.0.initial == map[]
  {
    match arg
    case ConfigDict(values) => (Context(values, runnerConfig), runnerConfig)
    case NoContext => (Context(map[], runnerConfig), runnerConfig)
    case Supplied(c) => (c, c.memoryConfig)
  }

  /** Whichever context `run` is given, the runner's memory configuration afterwards is the context's. */
  lemma ContextConfigAdopted(arg: ContextArg, runnerConfig: MemoryConfig)
    ensures NewContext(arg, runnerConfig).0.memoryConfig == NewContext(arg, runnerConfig).1
    ensures !arg.Supplied? ==> NewContext(arg, runnerConfig).1 == runnerConfig
  {
  }

  /** `(end_time - start_time).total_seconds()`, or 0 when a timestamp is missing. */
  function StageDuration(s: Stage): int {
    if s.startTime.Some? && s.endTime.Some? then s.endTime.value - s.startTime.value else 0
  }

  /** `__create_stage_execution_metadata`: a record tree mirroring the stage tree. */
  function CreateStageMetadata(s: Stage, status: Status, error: Option<Exception>): (m: StageMeta)
    ensures m.name == s.name && m.status == status && m.error == error && m.additionalInfo == s.info
    decreases s, 1
  {
    StageMeta(s.name, StageDuration(s), status, error, CreateSubMetadata(s.subStages, status), s.info)
  }

  function CreateSubMetadata(ss: seq<Stage>, status: Status): (ms: seq<StageMeta>)
    ensures |ms| == |ss|
    decreases ss, 0
  {
    if |ss| == 0 then [] else [CreateStageMetadata(ss[0], status, None)] + CreateSubMetadata(ss[1..], status)
  }

  /**
   * The record tree has the stage tree's shape and names, in the same depth-first
   * order; every record in it carries the given status and only the root carries
   * the error.
   */
  lemma {:induction false} MetadataMirrorsStage(s: Stage, status: Status, error: Option<Exception>)
    ensures var m := CreateStageMetadata(s, status, error);
            && m.duration == StageDuration(s)
            && |m.subStages| == |s.subStages|
            && Uniform(m, status)
            && MetaNames(m) == AllNames(s)
    decreases s, 1
  {
    SubMetadataMirrors(s.subStages, status);
  }

  lemma {:induction false} SubMetadataMirrors(ss: seq<Stage>, status: Status)
    ensures var ms := CreateSubMetadata(ss, status);
            && MetaNamesOf(ms) == AllNamesOf(ss)
            && forall i :: 0 <= i < |ms| ==>
                 ms[i].name == ss[i].name && ms[i].error.None? && Uniform(ms[i], status)
    decreases ss, 0
  {
    if |ss| > 0 {
      var ms := CreateSubMetadata(ss, status);
      MetadataMirrorsStage(ss[0], status, None);
      SubMetadataMirrors(ss[1..], status);
      assert ms[1..] == CreateSubMetadata(ss[1..], status);
      forall i | 0 < i < |ms|
        ensures ms[i].name == ss[i].name && ms[i].error.None? && Uniform(ms[i], status)
      {
        assert ms[i] == ms[1..][i - 1];
      }
    }
  }

  /** `__record_stage_metadata`, for several records: appended only when metadata exists. */
  function AppendRecords(meta: Option<PipelineMeta>, recs: seq<StageMeta>): Option<PipelineMeta> {
    if meta.None? then None else Some(meta.value.(stagesExecuted := meta.value.stagesExecuted + recs))
  }

  lemma AppendRecordsTwice(meta: Option<PipelineMeta>, a: seq<StageMeta>, b: seq<StageMeta>)
    ensures AppendRecords(AppendRecords(meta, a), b) == AppendRecords(meta, a + b)
  {
    if meta.Some? {
      assert meta.value.stagesExecuted + a + b == meta.value.stagesExecuted + (a + b);
    }
  }

  lemma AppendNothing(meta: Option<PipelineMeta>)
    ensures AppendRecords(meta, []) == meta
  {
    if meta.Some? {
      assert meta.value.stagesExecuted + [] == meta.value.stagesExecuted;
    }
  }

  /** Before the first stage: no events, no records and no completed names yet. */
  lemma NothingRunYet(p: Pipeline, env: Collaborators, evs: seq<Event>, meta: Option<PipelineMeta>)
    ensures evs + EventsThrough(p, env, 0) == evs
    ensures AppendRecords(meta, RecordsThrough(p, env, 0)) == meta
    ensures NameSet(p.stages[..0]) == {}
  {
    AppendNothing(meta);
  }

  /** `__finalize_execution`: nothing without metadata; otherwise end time, duration and final status. */
  function Finalize(meta: Option<PipelineMeta>, success: bool, error: Option<Exception>, now: int): (r: Option<PipelineMeta>)
    ensures r.None? <==> meta.None?
    ensures r.Some? ==> r.value.status == (if success then Completed else Failed)
    ensures r.Some? ==> r.value.endTime == Some(now) && r.value.duration == Some(now - meta.value.startTime)
    ensures r.Some? ==> r.value.error == (if success then meta.value.error else error)
    ensures r.Some? ==> r.value.pipelineName == meta.value.pipelineName && r.value.startTime == meta.value.startTime
    ensures r.Some? ==> r.value.stagesExecuted == meta.value.stagesExecuted
  {
    if meta.None? then None
    else
      var m := meta.value.(endTime := Some(now), duration := Some(now - meta.value.startTime));
      if success then Some(m.(status := Completed)) else Some(m.(status := Failed, error := error))
  }

  // ----- one stage ----------------------------------------------------------------

  /** The exception `__execute_single_stage` lets out: the stage's own, or the auto-clear's after a success. */
  function StepError(s: Stage, clearError: Option<Exception>): Option<Exception> {
    match s.script
    case Skip => None
    case Complete => clearError
    case Fail(e) => Some(e)
  }

  /** The completed set after the stage: a skip or a success adds all its names, a failure adds nothing. */
  function CompletedAfter(s: Stage, completed: set<string>): set<string> {
    if s.script.Fail? then completed else completed + Elems(AllNames(s))
  }

  /** The calls made for one stage: `execute`, then auto-clear only if the stage ran to completion. */
  function StageEvents(s: Stage, completedAfter: set<string>, inverted: DependencyMap): seq<Event> {
    [Execute(s.name)] + (if s.script.Complete? then [AutoClear(completedAfter, inverted)] else [])
  }

  /**
   * The records appended for one stage.  An exception that is not an `Exception`
   * bypasses the handler, so it adds no FAILED record; an auto-clear that raises
   * after a success adds a FAILED record after the COMPLETED one.
   */
  function StageRecords(s: Stage, clearError: Option<Exception>): seq<StageMeta> {
    match s.script
    case Skip => [CreateStageMetadata(s, Skipped, None)]
    case Complete =>
      [CreateStageMetadata(s, Completed, None)]
      + (if clearError.Some? && IsOrdinary(clearError.value) then [CreateStageMetadata(s, Failed, clearError)] else [])
    case Fail(e) => if IsOrdinary(e) then [CreateStageMetadata(s, Failed, Some(e))] else []
  }

  /** `for s in stage.all_stages: completed_stages.add(s.name)` */
  method MarkCompleted(completed: set<string>, names: seq<string>) returns (r: set<string>)
    ensures r == completed + Elems(names)
  {
    r := completed;
    for i := 0 to |names|
      invariant r == completed + Elems(names[..i])
    {
      assert names[..i + 1] == names[..i] + [names[i]];
      r := r + {names[i]};
    }
    assert names[..|names|] == names;
  }

  // ----- the whole stage list -----------------------------------------------------

  /** `invert_dependency_map(pipeline.dependency_map)` */
  function Inverted(p: Pipeline, env: Collaborators): DependencyMap {
    env.invert(p.dependencyMap)
  }

  /** What auto-clear raises after the stage at index `i`, if anything. */
  function ClearErrorAt(env: Collaborators, i: nat): Option<Exception> {
    env.clearError(i)
  }

  function StepErrorAt(p: Pipeline, env: Collaborators, i: nat): Option<Exception>
    requires i < |p.stages|
  {
    StepError(p.stages[i], env.clearError(i))
  }

  function FailureFrom(p: Pipeline, env: Collaborators, i: nat): nat
    requires i <= |p.stages|
    decreases |p.stages| - i
  {
    if i == |p.stages| then i
    else if StepErrorAt(p, env, i).Some? then i
    else FailureFrom(p, env, i + 1)
  }

  /** The index of the first stage that raises, or the number of stages when none does. */
  function FirstFailure(p: Pipeline, env: Collaborators): nat {
    FailureFrom(p, env, 0)
  }

  /** How many stages have `execute` called: up to and including the first that raises. */
  function StagesRun(p: Pipeline, env: Collaborators): nat {
    if FirstFailure(p, env) < |p.stages| then FirstFailure(p, env) + 1 else |p.stages|
  }

  /** The calls made for the first `k` stages. */
  function EventsThrough(p: Pipeline, env: Collaborators, k: nat): seq<Event>
    requires k <= |p.stages|
  {
    if k == 0 then []
    else EventsThrough(p, env, k - 1) + StageEvents(p.stages[k - 1], NameSet(p.stages[..k]), env.invert(p.dependencyMap))
  }

  /** The records appended for the first `k` stages. */
  function RecordsThrough(p: Pipeline, env: Collaborators, k: nat): seq<StageMeta>
    requires k <= |p.stages|
  {
    if k == 0 then [] else RecordsThrough(p, env, k - 1) + StageRecords(p.stages[k - 1], env.clearError(k - 1))
  }

  /** `stage.set_context(context)` for every top-level stage. */
  function Binds(ss: seq<Stage>): seq<Event> {
    if |ss| == 0 then [] else Binds(ss[..|ss| - 1]) + [BindContext(ss[|ss| - 1].name)]
  }

  /** The final memory summary, when memory management and its logging are on. */
  function Summary(c: MemoryConfig): seq<Event> {
    if c.enabled && c.logMemoryUsage then [MemorySummary] else []
  }

  /** The exception raised before any stage runs: building the context, then validating. */
  function PreStageError(arg: ContextArg, env: Collaborators): Option<Exception> {
    if !arg.Supplied? && env.contextError.Some? then env.contextError else env.validationError
  }

  // ----- properties of the stage list run --------------------------------------------

  /** The first failure really is the first: every earlier stage passes and it raises. */
  lemma {:induction false} FailureFromIsFirst(p: Pipeline, env: Collaborators, i: nat)
    requires i <= |p.stages|
    ensures i <= FailureFrom(p, env, i) <= |p.stages|
    ensures FailureFrom(p, env, i) < |p.stages| ==> StepErrorAt(p, env, FailureFrom(p, env, i)).Some?
    ensures forall j :: i <= j < FailureFrom(p, env, i) ==> StepErrorAt(p, env, j).None?
    decreases |p.stages| - i
  {
    if i < |p.stages| && StepErrorAt(p, env, i).None? {
      FailureFromIsFirst(p, env, i + 1);
    }
  }

  lemma FirstFailureIsFirst(p: Pipeline, env: Collaborators)
    ensures FirstFailure(p, env) <= |p.stages|
    ensures FirstFailure(p, env) < |p.stages| ==> StepErrorAt(p, env, FirstFailure(p, env)).Some?
    ensures forall j :: 0 <= j < FirstFailure(p, env) ==> StepErrorAt(p, env, j).None?
  {
    FailureFromIsFirst(p, env, 0);
  }

  lemma BeforeFirstFailure(p: Pipeline, env: Collaborators, j: nat)
    requires j < FirstFailure(p, env) && j < |p.stages|
    ensures StepErrorAt(p, env, j).None?
  {
    FirstFailureIsFirst(p, env);
  }

  lemma FailureContinues(p: Pipeline, env: Collaborators, i: nat)
    requires i < |p.stages| && i <= FirstFailure(p, env) && StepErrorAt(p, env, i).None?
    ensures i < FirstFailure(p, env)
  {
    FirstFailureIsFirst(p, env);
  }

  lemma FailureStops(p: Pipeline, env: Collaborators, i: nat)
    requires i < |p.stages| && i <= FirstFailure(p, env) && StepErrorAt(p, env, i).Some?
    ensures i == FirstFailure(p, env) && StagesRun(p, env) == i + 1
  {
    FirstFailureIsFirst(p, env);
  }

  lemma NoFailure(p: Pipeline, env: Collaborators)
    requires |p.stages| <= FirstFailure(p, env)
    ensures FirstFailure(p, env) == |p.stages| == StagesRun(p, env)
  {
    FirstFailureIsFirst(p, env);
  }

  /** The `execute` calls, in order. */
  function Executed(evs: seq<Event>): seq<string> {
    if |evs| == 0 then []
    else Executed(evs[..|evs| - 1]) + (if evs[|evs| - 1].Execute? then [evs[|evs| - 1].stage] else [])
  }

  lemma {:induction false} ExecutedAppend(a: seq<Event>, b: seq<Event>)
    ensures Executed(a + b) == Executed(a) + Executed(b)
    decreases |b|
  {
    if |b| == 0 {
      assert a + b == a;
    } else {
      ExecutedAppend(a, b[..|b| - 1]);
      assert (a + b)[..|a + b| - 1] == a + b[..|b| - 1];
      assert (a + b)[|a + b| - 1] == b[|b| - 1];
    }
  }

  /** One more stage: its calls extend the trace, and unless it raised its names join the completed set. */
  lemma StageStep(p: Pipeline, env: Collaborators, i: nat, c: set<string>)
    requires i < |p.stages| && c == CompletedAfter(p.stages[i], NameSet(p.stages[..i]))
    ensures EventsThrough(p, env, i + 1) == EventsThrough(p, env, i) + StageEvents(p.stages[i], c, env.invert(p.dependencyMap))
    ensures !p.stages[i].script.Fail? ==> c == NameSet(p.stages[..i + 1])
  {
    assert p.stages[..i + 1][..i] == p.stages[..i];
  }

  lemma StageExecuted(s: Stage, done: set<string>, inverted: DependencyMap)
    ensures Executed(StageEvents(s, done, inverted)) == [s.name]
  {
    var evs := StageEvents(s, done, inverted);
    ExecutedAppend([Execute(s.name)], evs[1..]);
    assert evs == [Execute(s.name)] + evs[1..];
    assert Executed([Execute(s.name)]) == [s.name] by {
      assert [Execute(s.name)][..0] == [];
    }
  }

  /** Top-level stages are executed exactly once each, in list order, and none after the first failure. */
  lemma {:induction false} ExecutedInOrder(p: Pipeline, env: Collaborators, k: nat)
    requires k <= |p.stages|
    ensures Executed(EventsThrough(p, env, k)) == Names(p.stages[..k])
  {
    if k > 0 {
      var s := p.stages[k - 1];
      var evs := StageEvents(s, NameSet(p.stages[..k]), env.invert(p.dependencyMap));
      ExecutedInOrder(p, env, k - 1);
      ExecutedAppend(EventsThrough(p, env, k - 1), evs);
      StageExecuted(s, NameSet(p.stages[..k]), env.invert(p.dependencyMap));
      assert p.stages[..k][..k - 1] == p.stages[..k - 1];
    }
  }

  /** The stages that ran to completion, counted. */
  function CountComplete(ss: seq<Stage>): nat {
    if |ss| == 0 then 0 else CountComplete(ss[..|ss| - 1]) + (if ss[|ss| - 1].script.Complete? then 1 else 0)
  }

  /** The completed sets passed to auto-clear, in order. */
  function ClearSets(evs: seq<Event>): seq<set<string>> {
    if |evs| == 0 then []
    else ClearSets(evs[..|evs| - 1]) + (if evs[|evs| - 1].AutoClear? then [evs[|evs| - 1].completed] else [])
  }

  lemma {:induction false} ClearSetsAppend(a: seq<Event>, b: seq<Event>)
    ensures ClearSets(a + b) == ClearSets(a) + ClearSets(b)
    decreases |b|
  {
    if |b| == 0 {
      assert a + b == a;
    } else {
      ClearSetsAppend(a, b[..|b| - 1]);
      assert (a + b)[..|a + b| - 1] == a + b[..|b| - 1];
      assert (a + b)[|a + b| - 1] == b[|b| - 1];
    }
  }

  lemma StageClearSets(s: Stage, done: set<string>, inverted: DependencyMap)
    ensures ClearSets(StageEvents(s, done, inverted)) == (if s.script.Complete? then [done] else [])
    ensures forall e :: e in StageEvents(s, done, inverted) && e.AutoClear? ==> e.inverted == inverted
  {
    var evs := StageEvents(s, done, inverted);
    if s.script.Complete? {
      assert evs == [Execute(s.name), AutoClear(done, inverted)];
      assert evs[..1] == [Execute(s.name)] && evs[..1][..0] == [];
      assert ClearSets(evs[..1]) == [];
    } else {
      assert evs == [Execute(s.name)] && evs[..0] == [];
    }
  }

  /** The sets in `cs` only grow, and none holds more than `bound`. */
  predicate Growing(cs: seq<set<string>>, bound: set<string>) {
    (forall c :: c in cs ==> c <= bound)
    && (forall a, b :: 0 <= a < b < |cs| ==> cs[a] <= cs[b])
  }

  lemma GrowingAppend(cs: seq<set<string>>, bound: set<string>, d: set<string>)
    requires Growing(cs, bound) && bound <= d
    ensures Growing(cs + [d], d)
  {
    forall a, b | 0 <= a < b < |cs + [d]|
      ensures (cs + [d])[a] <= (cs + [d])[b]
    {
      if b < |cs| {
        assert (cs + [d])[b] == cs[b];
      } else {
        assert cs[a] in cs;
      }
    }
  }

  lemma ClearSetsStep(p: Pipeline, env: Collaborators, k: nat)
    requires 0 < k <= |p.stages|
    ensures ClearSets(EventsThrough(p, env, k))
         == ClearSets(EventsThrough(p, env, k - 1)) + (if p.stages[k - 1].script.Complete? then [NameSet(p.stages[..k])] else [])
  {
    var s := p.stages[k - 1];
    var done := NameSet(p.stages[..k]);
    ClearSetsAppend(EventsThrough(p, env, k - 1), StageEvents(s, done, env.invert(p.dependencyMap)));
    StageClearSets(s, done, env.invert(p.dependencyMap));
  }

  lemma GrowingWider(cs: seq<set<string>>, bound: set<string>, wider: set<string>)
    requires Growing(cs, bound) && bound <= wider
    ensures Growing(cs + [], wider)
  {
    assert cs + [] == cs;
  }

  /** Auto-clear runs once per stage that ran to completion. */
  lemma {:induction false} AutoClearCount(p: Pipeline, env: Collaborators, k: nat)
    requires k <= |p.stages|
    ensures |ClearSets(EventsThrough(p, env, k))| == CountComplete(p.stages[..k])
  {
    if k > 0 {
      AutoClearCount(p, env, k - 1);
      ClearSetsStep(p, env, k);
      assert p.stages[..k][..k - 1] == p.stages[..k - 1];
    }
  }

  /** Every auto-clear receives the inversion of the pipeline's dependency map. */
  lemma {:induction false} AutoClearInverted(p: Pipeline, env: Collaborators, k: nat)
    requires k <= |p.stages|
    ensures forall e :: e in EventsThrough(p, env, k) && e.AutoClear? ==> e.inverted == env.invert(p.dependencyMap)
  {
    if k > 0 {
      AutoClearInverted(p, env, k - 1);
      StageClearSets(p.stages[k - 1], NameSet(p.stages[..k]), env.invert(p.dependencyMap));
    }
  }

  /**
   * The completed sets that auto-clear sees only grow, and hold nothing but
   * the names of the stages handled so far.
   */
  lemma {:induction false} AutoClearSets(p: Pipeline, env: Collaborators, k: nat)
    requires k <= |p.stages|
    ensures Growing(ClearSets(EventsThrough(p, env, k)), NameSet(p.stages[..k]))
  {
    if k > 0 {
      var prev := ClearSets(EventsThrough(p, env, k - 1));
      AutoClearSets(p, env, k - 1);
      NameSetMonotone(p.stages, k - 1, k);
      ClearSetsStep(p, env, k);
      if p.stages[k - 1].script.Complete? {
        GrowingAppend(prev, NameSet(p.stages[..k - 1]), NameSet(p.stages[..k]));
      } else {
        GrowingWider(prev, NameSet(p.stages[..k - 1]), NameSet(p.stages[..k]));
      }
    }
  }

  /** The record of a stage that did not raise: SKIPPED or COMPLETED, without an error. */
  function PassedRecord(s: Stage): StageMeta {
    CreateStageMetadata(s, if s.script.Skip? then Skipped else Completed, None)
  }

  lemma PassedStageRecords(p: Pipeline, env: Collaborators, j: nat)
    requires j < |p.stages| && StepErrorAt(p, env, j).None?
    ensures RecordsThrough(p, env, j + 1) == RecordsThrough(p, env, j) + [PassedRecord(p.stages[j])]
  {
    assert StageRecords(p.stages[j], env.clearError(j)) == [PassedRecord(p.stages[j])];
  }

  lemma PassedAppended(prev: seq<StageMeta>, ss: seq<Stage>, k: nat)
    requires k < |ss| && |prev| == k
    requires forall i :: 0 <= i < k ==> prev[i] == PassedRecord(ss[i])
    ensures forall i :: 0 <= i <= k ==> (prev + [PassedRecord(ss[k])])[i] == PassedRecord(ss[i])
  {
  }

  /** Before the first failure every stage leaves exactly one record: SKIPPED or COMPLETED, without an error. */
  lemma {:induction false} RecordsBeforeFailure(p: Pipeline, env: Collaborators, k: nat)
    requires k <= FirstFailure(p, env) && k <= |p.stages|
    ensures |RecordsThrough(p, env, k)| == k
    ensures forall i :: 0 <= i < k ==> RecordsThrough(p, env, k)[i] == PassedRecord(p.stages[i])
  {
    if k > 0 {
      BeforeFirstFailure(p, env, k - 1);
      RecordsBeforeFailure(p, env, k - 1);
      PassedStageRecords(p, env, k - 1);
      PassedAppended(RecordsThrough(p, env, k - 1), p.stages, k - 1);
    }
  }

  /** The failing stage's last record is FAILED with the error that stopped the run. */
  lemma FailedRecord(p: Pipeline, env: Collaborators)
    requires FirstFailure(p, env) < |p.stages|
    requires var e := StepErrorAt(p, env, FirstFailure(p, env)); e.Some? && IsOrdinary(e.value)
    ensures var recs := RecordsThrough(p, env, StagesRun(p, env));
            |recs| > 0 && recs[|recs| - 1].status == Failed
            && recs[|recs| - 1].error == StepErrorAt(p, env, FirstFailure(p, env))
            && recs[|recs| - 1].name == p.stages[FirstFailure(p, env)].name
  {
    FirstFailureIsFirst(p, env);
  }

  // ----- the runner ---------------------------------------------------------------

  class PipelineRunner {
    var currentPipeline: Option<Pipeline>
    var executionMetadata: Option<PipelineMeta>
    var memoryConfig: MemoryConfig
    /** The calls made on stages and contexts, oldest first. */
    var events: seq<Event>

    /** `PipelineRunner(memory_config)`; `defaultConfig` stands for `MemoryConfig()`. */
    constructor (given: Option<MemoryConfig>, defaultConfig: MemoryConfig)
      ensures currentPipeline.None? && executionMetadata.None? && events == []
      ensures memoryConfig == (if given.Some? then given.value else defaultConfig)
    {
      currentPipeline := None;
      executionMetadata := None;
      memoryConfig := if given.Some? then given.value else defaultConfig;
      events := [];
    }

    /** `__initialize_execution` */
    method InitializeExecution(p: Pipeline, now: int)
      modifies this`currentPipeline, this`executionMetadata
      ensures currentPipeline == Some(p)
      ensures executionMetadata == Some(PipelineMeta(p.name, now, None, None, Running, [], None))
    {
      currentPipeline := Some(p);
      executionMetadata := Some(PipelineMeta(p.name, now, None, None, Running, [], None));
    }

    /** `__finalize_execution` */
    method FinalizeExecution(success: bool, error: Option<Exception>, now: int)
      modifies this`executionMetadata
      ensures executionMetadata == Finalize(old(executionMetadata), success, error, now)
    {
      executionMetadata := Finalize(executionMetadata, success, error, now);
    }

    /** `__execute_single_stage` with its `__handle_*` helpers. */
    method ExecuteSingleStage(s: Stage, inverted: DependencyMap, completed: set<string>, clearError: Option<Exception>)
      returns (completedOut: set<string>, err: Option<Exception>)
      modifies this`events, this`executionMetadata
      ensures err == StepError(s, clearError)
      ensures completedOut == CompletedAfter(s, completed)
      ensures events == old(events) + StageEvents(s, completedOut, inverted)
      ensures executionMetadata == AppendRecords(old(executionMetadata), StageRecords(s, clearError))
    {
      events := events + [Execute(s.name)];
      completedOut := completed;
      match s.script {
        case Fail(e) =>
          if IsOrdinary(e) {
            executionMetadata := AppendRecords(executionMetadata, [CreateStageMetadata(s, Failed, Some(e))]);
          } else {
            AppendNothing(executionMetadata);
          }
          err := Some(e);
        case Skip =>
          executionMetadata := AppendRecords(executionMetadata, [CreateStageMetadata(s, Skipped, None)]);
          completedOut := MarkCompleted(completed, AllNames(s));
          err := None;
        case Complete =>
          var done := CreateStageMetadata(s, Completed, None);
          executionMetadata := AppendRecords(executionMetadata, [done]);
          completedOut := MarkCompleted(completed, AllNames(s));
          events := events + [AutoClear(completedOut, inverted)];
          err := clearError;
          if clearError.Some? && IsOrdinary(clearError.value) {
            var failed := CreateStageMetadata(s, Failed, clearError);
            AppendRecordsTwice(old(executionMetadata), [done], [failed]);
            executionMetadata := AppendRecords(executionMetadata, [failed]);
          } else {
            assert StageRecords(s, clearError) == [done];
          }
      }
    }

    /** One turn of the loop in `__execute_pipeline_stages`: the stage at index `i`, on top of the runs before it. */
    method ExecuteStageAt(p: Pipeline, env: Collaborators, i: nat, completed: set<string>,
                          ghost events0: seq<Event>, ghost meta0: Option<PipelineMeta>)
      returns (completedOut: set<string>, err: Option<Exception>)
      requires i < |p.stages| && completed == NameSet(p.stages[..i])
      requires events == events0 + EventsThrough(p, env, i)
      requires executionMetadata == AppendRecords(meta0, RecordsThrough(p, env, i))
      modifies this`events, this`executionMetadata
      ensures err == StepErrorAt(p, env, i)
      ensures err.None? ==> completedOut == NameSet(p.stages[..i + 1])
      ensures events == events0 + EventsThrough(p, env, i + 1)
      ensures executionMetadata == AppendRecords(meta0, RecordsThrough(p, env, i + 1))
    {
      var inverted, clearError := Inverted(p, env), ClearErrorAt(env, i);
      completedOut, err := ExecuteSingleStage(p.stages[i], inverted, completed, clearError);
      StageStep(p, env, i, completedOut);
      AppendAssoc(events0, EventsThrough(p, env, i), StageEvents(p.stages[i], completedOut, inverted));
      AppendRecordsTwice(meta0, RecordsThrough(p, env, i), StageRecords(p.stages[i], clearError));
    }

    /** `__execute_pipeline_stages`: the stages in list order until one raises. */
    method ExecutePipelineStages(p: Pipeline, env: Collaborators) returns (err: Option<Exception>)
      modifies this`events, this`executionMetadata
      ensures err == (if FirstFailure(p, env) < |p.stages| then StepErrorAt(p, env, FirstFailure(p, env)) else None)
      ensures events == old(events) + EventsThrough(p, env, StagesRun(p, env))
      ensures executionMetadata == AppendRecords(old(executionMetadata), RecordsThrough(p, env, StagesRun(p, env)))
    {
      NothingRunYet(p, env, events, executionMetadata);
      var completed: set<string> := {};
      var i := 0;
      while i < |p.stages|
        invariant i <= FirstFailure(p, env) && i <= |p.stages|
        invariant completed == NameSet(p.stages[..i])
        invariant events == old(events) + EventsThrough(p, env, i)
        invariant executionMetadata == AppendRecords(old(executionMetadata), RecordsThrough(p, env, i))
      {
        var c, e := ExecuteStageAt(p, env, i, completed, old(events), old(executionMetadata));
        if e.Some? {
          FailureStops(p, env, i);
          return e;
        }
        FailureContinues(p, env, i);
        completed := c;
        i := i + 1;
      }
      NoFailure(p, env);
      err := None;
    }

    /** `stage.set_context(context)` for every top-level stage. */
    method BindStages(ss: seq<Stage>)
      modifies this`events
      ensures events == old(events) + Binds(ss)
    {
      for i := 0 to |ss|
        invariant events == old(events) + Binds(ss[..i])
      {
        assert ss[..i + 1][..i] == ss[..i];
        events := events + [BindContext(ss[i].name)];
      }
      assert ss[..|ss|] == ss;
    }

    /** `run(pipeline, context)`: only an exception that is not an `Exception` escapes. */
    method Run(p: Pipeline, arg: ContextArg, env: Collaborators) returns (out: Outcome<PipelineResult>)
      modifies this
      ensures memoryConfig == NewContext(arg, old(memoryConfig)).1
      ensures out.Raised? ==> !IsOrdinary(out.error)
      ensures out.Returned? ==> out.value.metadata == executionMetadata
      ensures out.Returned? ==> (out.value.success <==> out.value.error.None?)
      // failing before any stage runs: nothing is executed and any earlier metadata is finalized
      ensures PreStageError(arg, env).Some? ==>
                var e := PreStageError(arg, env).value;
                && currentPipeline == old(currentPipeline) && events == old(events)
                && (IsOrdinary(e) ==> out == Returned(PipelineResult(false, executionMetadata, Some(e)))
                                      && executionMetadata == Finalize(old(executionMetadata), false, Some(e), env.endTime))
                && (!IsOrdinary(e) ==> out == Raised(e) && executionMetadata == old(executionMetadata))
      // running the stages
      ensures PreStageError(arg, env).None? ==>
                var running := PipelineMeta(p.name, env.startTime, None, None, Running,
                                            RecordsThrough(p, env, StagesRun(p, env)), None);
                var f := FirstFailure(p, env);
                && currentPipeline == Some(p)
                && (f == |p.stages| ==>
                      && events == old(events) + Binds(p.stages) + EventsThrough(p, env, |p.stages|) + Summary(memoryConfig)
                      && executionMetadata == Finalize(Some(running), true, None, env.endTime)
                      && out == Returned(PipelineResult(true, executionMetadata, None)))
                && (f < |p.stages| ==>
                      var e := StepErrorAt(p, env, f);
                      && e.Some?
                      && events == old(events) + Binds(p.stages) + EventsThrough(p, env, f + 1)
                      && (IsOrdinary(e.value) ==> out == Returned(PipelineResult(false, executionMetadata, e))
                                                  && executionMetadata == Finalize(Some(running), false, e, env.endTime))
                      && (!IsOrdinary(e.value) ==> out == Raised(e.value) && executionMetadata == Some(running)))
    {
      var ctx, adopted := NewContext(arg, memoryConfig).0, NewContext(arg, memoryConfig).1;
      memoryConfig := adopted;
      var pre := PreStageError(arg, env);
      if pre.Some? {
        if !IsOrdinary(pre.value) {
          return Raised(pre.value);
        }
        FinalizeExecution(false, pre, env.endTime);
        return Returned(PipelineResult(false, executionMetadata, pre));
      }
      InitializeExecution(p, env.startTime);
      BindStages(p.stages);
      FirstFailureIsFirst(p, env);
      var err := ExecutePipelineStages(p, env);
      assert [] + RecordsThrough(p, env, StagesRun(p, env)) == RecordsThrough(p, env, StagesRun(p, env));
      if err.Some? {
        if !IsOrdinary(err.value) {
          return Raised(err.value);
        }
        FinalizeExecution(false, err, env.endTime);
        return Returned(PipelineResult(false, executionMetadata, err));
      }
      if memoryConfig.enabled && memoryConfig.logMemoryUsage {
        events := events + [MemorySummary];
      }
      FinalizeExecution(true, None, env.endTime);
      out := Returned(PipelineResult(true, executionMetadata, None));
    }
  }

  /** A runner that never ran reports no metadata when validation fails. */
  lemma FreshRunnerValidationFailure(e: Exception, now: int)
    ensures Finalize(None, false, Some(e), now) == None
  {
  }

  /** A reused runner that fails validation reports the previous run's metadata, re-marked FAILED. */
  lemma ReusedRunnerValidationFailure(previous: PipelineMeta, e: Exception, now: int)
    ensures var r := Finalize(Some(previous), false, Some(e), now);
            r.Some? && r.value.pipelineName == previous.pipelineName
            && r.value.stagesExecuted == previous.stagesExecuted
            && r.value.status == Failed && r.value.error == Some(e)
  {
  }
}
