/**
 * `StageLoop`: a composite stage that runs its children, in order, once per
 * iteration, for as long as its condition holds and an optional positive cap
 * allows.
 *
 * Evaluating the condition (`_resolve_condition`, `should_execute`), running a
 * child (`ETLStage.execute`) and reading the clock are outside the model; a
 * `LoopScript` says what each of them yields in one run of `recipe`.  The
 * condition's answers are a finite list, and every check past its end answers
 * false.
 */
module Loops {
  import opened Errors
  import opened Text
  import opened Stages

  /** The `condition` argument: a context variable name, a literal flag, or a condition object or producer. */
  datatype Condition = VariableName(variable: string) | Flag(value: bool) | Evaluator

  /** Python truthiness of the condition argument. */
  predicate Truthy(c: Condition) {
    match c
    case VariableName(v) => v != ""
    case Flag(b) => b
    case Evaluator => true
  }

  const NoStagesMessage: string := "At least one stage must be provided for StageLoop"
  const NoConditionMessage: string := "Condition must be provided for StageLoop"
  const NonPositiveMaxMessage: string := "max_iterations must be positive"
  const NoContextMessage: string := "PipelineContext is not set for StageLoop"

  /** The three assertions at the top of `StageLoop.__init__`, in order. */
  function ValidateLoopArgs(stages: seq<Stage>, condition: Condition, maxIterations: Option<int>): (r: Option<Exception>)
    ensures r.None? <==> |stages| > 0 && Truthy(condition) && (maxIterations.None? || maxIterations.value > 0)
    ensures |stages| == 0 ==> r == Some(AssertionError(NoStagesMessage))
    ensures |stages| > 0 && !Truthy(condition) ==> r == Some(AssertionError(NoConditionMessage))
    ensures |stages| > 0 && Truthy(condition) && maxIterations.Some? && maxIterations.value <= 0
            ==> r == Some(AssertionError(NonPositiveMaxMessage))
  {
    if |stages| == 0 then Some(AssertionError(NoStagesMessage))
    else if !Truthy(condition) then Some(AssertionError(NoConditionMessage))
    else if maxIterations.Some? && maxIterations.value <= 0 then Some(AssertionError(NonPositiveMaxMessage))
    else None
  }

  /** The default loop name: `loop_`, the first two child names joined by `_`, then `_etc`. */
  function DefaultName(stages: seq<Stage>): string {
    "loop_" + Join(Names(if |stages| <= 2 then stages else stages[..2]), "_") + "_etc"
  }

  lemma DefaultNameShape(stages: seq<Stage>)
    ensures |stages| == 1 ==> DefaultName(stages) == "loop_" + stages[0].name + "_etc"
    ensures |stages| >= 2 ==> DefaultName(stages) == "loop_" + stages[0].name + "_" + stages[1].name + "_etc"
  {
    if |stages| >= 2 {
      var two := if |stages| <= 2 then stages else stages[..2];
      assert Names(two) == [stages[0].name, stages[1].name];
      assert Join(Names(two), "_") == stages[0].name + "_" + Join([stages[1].name], "_");
    }
  }

  /** `f"Loop executing {len(stages)} stages"` */
  function DefaultDescription(stages: seq<Stage>): string {
    "Loop executing " + NatToDecimal(|stages|) + " stages"
  }

  /** Python `x or default` on an optional string. */
  function OrDefault(given: Option<string>, default: string): (r: string)
    ensures given.Some? && given.value != "" ==> r == given.value
    ensures given.None? || given.value == "" ==> r == default
  {
    if given.Some? && given.value != "" then given.value else default
  }

  /** A loop stage always gets a non-empty name and description, whatever it was given. */
  lemma LoopNameNonEmpty(stages: seq<Stage>, givenName: Option<string>, givenDescription: Option<string>)
    ensures |OrDefault(givenName, DefaultName(stages))| > 0
    ensures |OrDefault(givenDescription, DefaultDescription(stages))| > 0
  {
  }

  // ----- the scripted run ------------------------------------------------------------

  /** What `execute()` of one child does in one iteration: returns after `millis`, or raises. */
  datatype ChildRun = Ran(millis: real) | Raised(error: Exception)

  /**
   * One run's environment: what `_resolve_condition` and `should_execute` give
   * before each iteration (an answer, or an exception), what each child does,
   * and each iteration's duration.
   */
  datatype LoopScript = LoopScript(
    checks: seq<Outcome<bool>>,
    child: (nat, nat) -> ChildRun,
    iterationMillis: nat -> real)

  /** A call the loop makes: the condition check before an iteration, and each child's `execute`. */
  datatype LoopEvent = CheckCondition(iteration: nat) | ExecuteChild(iteration: nat, index: nat, name: string)

  /** The `loop_times` values stored in `execution_metadata`. */
  datatype MetaValue = IntValue(i: int) | RealValue(r: real) | RealMap(m: map<string, real>)

  predicate Allowed(maxIterations: Option<nat>, k: nat) {
    maxIterations.None? || k < maxIterations.value
  }

  /** What asking the condition before iteration `k` (counting from 0) gives; past the script it says stop. */
  function Answer(script: LoopScript, k: nat): Outcome<bool> {
    if k < |script.checks| then script.checks[k] else Returned(false)
  }

  /** The condition says go on before iteration `k`. */
  predicate Check(script: LoopScript, k: nat) {
    Answer(script, k) == Returned(true)
  }

  /** The exception the condition raises before iteration `k`, when the cap lets that check happen. */
  function ConditionError(maxIterations: Option<nat>, script: LoopScript, k: nat): Option<Exception> {
    if Allowed(maxIterations, k) && Answer(script, k).Raised? then Some(Answer(script, k).error) else None
  }

  function Bound(maxIterations: Option<nat>, script: LoopScript): nat {
    if maxIterations.Some? then maxIterations.value else |script.checks|
  }

  function PlannedFrom(maxIterations: Option<nat>, script: LoopScript, k: nat): nat
    requires k <= Bound(maxIterations, script)
    decreases Bound(maxIterations, script) - k
  {
    if Allowed(maxIterations, k) && Check(script, k) then PlannedFrom(maxIterations, script, k + 1) else k
  }

  /** How many iterations begin when no child raises: the first `k` the cap or the condition stops at. */
  function Planned(maxIterations: Option<nat>, script: LoopScript): nat {
    PlannedFrom(maxIterations, script, 0)
  }

  lemma {:induction false} PlannedFromIsFirstStop(maxIterations: Option<nat>, script: LoopScript, k: nat)
    requires k <= Bound(maxIterations, script)
    ensures k <= PlannedFrom(maxIterations, script, k) <= Bound(maxIterations, script)
    ensures forall i :: k <= i < PlannedFrom(maxIterations, script, k) ==> Allowed(maxIterations, i) && Check(script, i)
    ensures !(Allowed(maxIterations, PlannedFrom(maxIterations, script, k)) && Check(script, PlannedFrom(maxIterations, script, k)))
    decreases Bound(maxIterations, script) - k
  {
    if Allowed(maxIterations, k) && Check(script, k) {
      PlannedFromIsFirstStop(maxIterations, script, k + 1);
    }
  }

  /** The loop stops at the first check that fails or the first iteration the cap forbids. */
  lemma PlannedIsFirstStop(maxIterations: Option<nat>, script: LoopScript)
    ensures Planned(maxIterations, script) <= Bound(maxIterations, script)
    ensures forall i :: 0 <= i < Planned(maxIterations, script) ==> Allowed(maxIterations, i) && Check(script, i)
    ensures !(Allowed(maxIterations, Planned(maxIterations, script)) && Check(script, Planned(maxIterations, script)))
  {
    PlannedFromIsFirstStop(maxIterations, script, 0);
  }

  lemma PlannedWithinBound(maxIterations: Option<nat>, script: LoopScript)
    ensures Planned(maxIterations, script) <= Bound(maxIterations, script)
  {
    PlannedFromIsFirstStop(maxIterations, script, 0);
  }

  /** With a cap of `N` at most `N` iterations run, and exactly `N` when the condition always holds. */
  lemma CapBoundsIterations(n: nat, script: LoopScript)
    ensures Planned(Some(n), script) <= n
    ensures (forall k :: 0 <= k < n ==> Check(script, k)) ==> Planned(Some(n), script) == n
  {
    PlannedIsFirstStop(Some(n), script);
  }

  /** A condition that is false at the start gives no iteration. */
  lemma InitiallyFalse(maxIterations: Option<nat>, script: LoopScript)
    requires !Check(script, 0)
    ensures Planned(maxIterations, script) == 0
  {
  }

  function FirstRaiseFrom(script: LoopScript, n: nat, it: nat, j: nat): (r: nat)
    requires j <= n
    ensures j <= r <= n && (r < n ==> script.child(it, r).Raised?)
    decreases n - j
  {
    if j == n then n else if script.child(it, j).Raised? then j else FirstRaiseFrom(script, n, it, j + 1)
  }

  /** The first child that raises in iteration `it`, or `n` when none does. */
  function FirstRaise(script: LoopScript, n: nat, it: nat): (r: nat)
    ensures r <= n && (r < n ==> script.child(it, r).Raised?)
  {
    FirstRaiseFrom(script, n, it, 0)
  }

  lemma {:induction false} FirstRaiseFromIsFirst(script: LoopScript, n: nat, it: nat, j: nat)
    requires j <= n
    ensures j <= FirstRaiseFrom(script, n, it, j) <= n
    ensures FirstRaiseFrom(script, n, it, j) < n ==> script.child(it, FirstRaiseFrom(script, n, it, j)).Raised?
    ensures forall c :: j <= c < FirstRaiseFrom(script, n, it, j) ==> script.child(it, c).Ran?
    decreases n - j
  {
    if j < n && script.child(it, j).Ran? {
      FirstRaiseFromIsFirst(script, n, it, j + 1);
    }
  }

  lemma FirstRaiseIsFirst(script: LoopScript, n: nat, it: nat)
    ensures FirstRaise(script, n, it) <= n
    ensures FirstRaise(script, n, it) < n ==> script.child(it, FirstRaise(script, n, it)).Raised?
    ensures forall c :: 0 <= c < FirstRaise(script, n, it) ==> script.child(it, c).Ran?
  {
    FirstRaiseFromIsFirst(script, n, it, 0);
  }

  function FailIterFrom(script: LoopScript, n: nat, k: nat, it: nat): (r: nat)
    requires it <= k
    ensures it <= r <= k && (r < k ==> FirstRaise(script, n, r) < n)
    decreases k - it
  {
    if it == k then k else if FirstRaise(script, n, it) < n then it else FailIterFrom(script, n, k, it + 1)
  }

  /** The first of the first `k` iterations in which a child raises, or `k` when none does. */
  function FailIter(script: LoopScript, n: nat, k: nat): (r: nat)
    ensures r <= k && (r < k ==> FirstRaise(script, n, r) < n)
  {
    FailIterFrom(script, n, k, 0)
  }

  lemma {:induction false} FailIterFromIsFirst(script: LoopScript, n: nat, k: nat, it: nat)
    requires it <= k
    ensures it <= FailIterFrom(script, n, k, it) <= k
    ensures FailIterFrom(script, n, k, it) < k ==> FirstRaise(script, n, FailIterFrom(script, n, k, it)) < n
    ensures forall i :: it <= i < FailIterFrom(script, n, k, it) ==> FirstRaise(script, n, i) == n
    decreases k - it
  {
    if it < k {
      FirstRaiseIsFirst(script, n, it);
      if FirstRaise(script, n, it) == n {
        FailIterFromIsFirst(script, n, k, it + 1);
      }
    }
  }

  lemma FailIterIsFirst(script: LoopScript, n: nat, k: nat)
    ensures FailIter(script, n, k) <= k
    ensures FailIter(script, n, k) < k ==> FirstRaise(script, n, FailIter(script, n, k)) < n
    ensures forall i :: 0 <= i < FailIter(script, n, k) ==> FirstRaise(script, n, i) == n
  {
    FailIterFromIsFirst(script, n, k, 0);
  }

  lemma FirstRaiseStops(script: LoopScript, n: nat, it: nat, j: nat)
    requires j < n && j <= FirstRaise(script, n, it) && script.child(it, j).Raised?
    ensures j == FirstRaise(script, n, it)
  {
    FirstRaiseIsFirst(script, n, it);
  }

  lemma PlannedContinues(maxIterations: Option<nat>, script: LoopScript, i: nat)
    requires i <= Planned(maxIterations, script)
    requires Allowed(maxIterations, i) && Check(script, i)
    ensures i < Planned(maxIterations, script)
  {
    PlannedIsFirstStop(maxIterations, script);
  }

  lemma PlannedStops(maxIterations: Option<nat>, script: LoopScript, i: nat)
    requires i <= Planned(maxIterations, script)
    requires !(Allowed(maxIterations, i) && Check(script, i))
    ensures i == Planned(maxIterations, script)
  {
    PlannedIsFirstStop(maxIterations, script);
  }

  lemma FailIterContinues(script: LoopScript, n: nat, k: nat, i: nat)
    requires i < k && i <= FailIter(script, n, k) && FirstRaise(script, n, i) == n
    ensures i < FailIter(script, n, k)
  {
  }

  lemma FailIterStops(script: LoopScript, n: nat, k: nat, i: nat)
    requires i < k && i <= FailIter(script, n, k) && FirstRaise(script, n, i) < n
    ensures i == FailIter(script, n, k)
  {
    FailIterIsFirst(script, n, k);
  }

  /** The first `j` child executions of iteration `it`. */
  function Row(stages: seq<Stage>, it: nat, j: nat): seq<LoopEvent>
    requires j <= |stages|
  {
    if j == 0 then [] else Row(stages, it, j - 1) + [ExecuteChild(it, j - 1, stages[j - 1].name)]
  }

  /** The calls of the first `k` complete iterations: a check, then every child. */
  function Trace(stages: seq<Stage>, k: nat): seq<LoopEvent> {
    if k == 0 then [] else Trace(stages, k - 1) + [CheckCondition(k - 1)] + Row(stages, k - 1, |stages|)
  }

  lemma TraceStep(stages: seq<Stage>, k: nat)
    ensures Trace(stages, k + 1) == Trace(stages, k) + [CheckCondition(k)] + Row(stages, k, |stages|)
  {
  }

  function MillisOf(r: ChildRun): real {
    if r.Ran? then r.millis else 0.0
  }

  /** The times the first `j` children of iteration `it` add to the list kept under `name`. */
  function RowTimes(script: LoopScript, stages: seq<Stage>, it: nat, j: nat, name: string): seq<real>
    requires j <= |stages|
  {
    if j == 0 then []
    else RowTimes(script, stages, it, j - 1, name)
         + (if stages[j - 1].name == name then [MillisOf(script.child(it, j - 1))] else [])
  }

  /** `loop_times[name]` after `k` complete iterations; children sharing a name share a list. */
  function TimesOf(script: LoopScript, stages: seq<Stage>, k: nat, name: string): seq<real> {
    if k == 0 then [] else TimesOf(script, stages, k - 1, name) + RowTimes(script, stages, k - 1, |stages|, name)
  }

  function IterationTimes(script: LoopScript, k: nat): (r: seq<real>)
    ensures |r| == k
  {
    if k == 0 then [] else IterationTimes(script, k - 1) + [script.iterationMillis(k - 1)]
  }

  lemma IterationTimesStep(script: LoopScript, k: nat)
    ensures IterationTimes(script, k + 1) == IterationTimes(script, k) + [script.iterationMillis(k)]
  {
  }

  function Sum(ts: seq<real>): real {
    if |ts| == 0 then 0.0 else Sum(ts[..|ts| - 1]) + ts[|ts| - 1]
  }

  /** `sum(t) / len(t) if t else 0.0`, without the rounding to three places. */
  function Mean(ts: seq<real>): (r: real)
    ensures |ts| == 0 ==> r == 0.0
  {
    if |ts| == 0 then 0.0 else Sum(ts) / (|ts| as real)
  }

  /** How many children carry `name`. */
  function Count(stages: seq<Stage>, j: nat, name: string): nat
    requires j <= |stages|
  {
    if j == 0 then 0 else Count(stages, j - 1, name) + (if stages[j - 1].name == name then 1 else 0)
  }

  lemma {:induction false} RowTimesLength(script: LoopScript, stages: seq<Stage>, it: nat, j: nat, name: string)
    requires j <= |stages|
    ensures |RowTimes(script, stages, it, j, name)| == Count(stages, j, name)
  {
    if j > 0 {
      RowTimesLength(script, stages, it, j - 1, name);
    }
  }

  /** After `k` iterations each child's list holds one time per iteration (per child of that name). */
  lemma {:induction false} TimesLength(script: LoopScript, stages: seq<Stage>, k: nat, name: string)
    ensures |TimesOf(script, stages, k, name)| == k * Count(stages, |stages|, name)
  {
    if k > 0 {
      TimesLength(script, stages, k - 1, name);
      RowTimesLength(script, stages, k - 1, |stages|, name);
      assert (k - 1) * Count(stages, |stages|, name) + Count(stages, |stages|, name) == k * Count(stages, |stages|, name);
    }
  }

  /** With no iteration every mean is 0.0. */
  lemma NoIterationMeans(script: LoopScript, stages: seq<Stage>, name: string)
    ensures Mean(TimesOf(script, stages, 0, name)) == 0.0
    ensures Mean(IterationTimes(script, 0)) == 0.0
  {
  }

  /** The names of the children executed, in order. */
  function Executed(evs: seq<LoopEvent>): seq<string> {
    if |evs| == 0 then []
    else Executed(evs[..|evs| - 1]) + (if evs[|evs| - 1].ExecuteChild? then [evs[|evs| - 1].name] else [])
  }

  lemma {:induction false} ExecutedAppend(a: seq<LoopEvent>, b: seq<LoopEvent>)
    ensures Executed(a + b) == Executed(a) + Executed(b)
    decreases |b|
  {
    if |b| == 0 {
      assert a + b == a;
    } else {
      ExecutedAppend(a, b[..|b| - 1]);
      assert (a + b)[..|a + b| - 1] == a + b[..|b| - 1];
      assert (a + b)[|a + b| - 1] == b[|b| - 1];
    }
  }

  lemma {:induction false} RowExecutes(stages: seq<Stage>, it: nat, j: nat)
    requires j <= |stages|
    ensures Executed(Row(stages, it, j)) == Names(stages[..j])
  {
    if j > 0 {
      RowExecutes(stages, it, j - 1);
      var r := Row(stages, it, j);
      assert r[..|r| - 1] == Row(stages, it, j - 1);
      assert stages[..j][..j - 1] == stages[..j - 1];
    }
  }

  /** `k` copies of `xs`, one after another. */
  function Repeat(xs: seq<string>, k: nat): (r: seq<string>)
    ensures |r| == k * |xs|
  {
    if k == 0 then [] else Repeat(xs, k - 1) + xs
  }

  /** Every iteration executes every child exactly once, in list order. */
  lemma {:induction false} EachIterationRunsAllChildren(stages: seq<Stage>, k: nat)
    ensures Executed(Trace(stages, k)) == Repeat(Names(stages), k)
  {
    if k > 0 {
      EachIterationRunsAllChildren(stages, k - 1);
      var prefix := Trace(stages, k - 1) + [CheckCondition(k - 1)];
      ExecutedAppend(prefix, Row(stages, k - 1, |stages|));
      ExecutedAppend(Trace(stages, k - 1), [CheckCondition(k - 1)]);
      assert [CheckCondition(k - 1)][..0] == [];
      RowExecutes(stages, k - 1, |stages|);
      assert stages[..|stages|] == stages;
    }
  }

  // ----- the loop stage -----------------------------------------------------------------

  lemma {:induction false} AllNamesOfSnoc(ss: seq<Stage>, i: nat)
    requires i < |ss|
    ensures AllNamesOf(ss[..i + 1]) == AllNamesOf(ss[..i]) + AllNames(ss[i])
  {
    if i == 0 {
      assert ss[..1][1..] == [];
    } else {
      AllNamesOfSnoc(ss[1..], i - 1);
      assert ss[1..][..i] == ss[..i + 1][1..];
      assert ss[1..][..i - 1] == ss[..i][1..];
      assert ss[1..][i - 1] == ss[i];
    }
  }

  /** The keys of `loop_times`: the children's names. */
  function NameKeys(stages: seq<Stage>): set<string> {
    set c | 0 <= c < |stages| :: stages[c].name
  }

  lemma ChildNamesAreKeys(stages: seq<Stage>)
    ensures forall c :: 0 <= c < |stages| ==> stages[c].name in NameKeys(stages)
  {
  }

  /** `current_iteration` when `recipe` ends: the iterations begun. */
  function LoopCount(stages: seq<Stage>, maxIterations: Option<nat>, script: LoopScript): nat {
    var k := Planned(maxIterations, script);
    var f := FailIter(script, |stages|, k);
    if f == k then k else f + 1
  }

  /** What `recipe` lets escape: the first exception a child or the final condition check raised, if any. */
  function LoopError(stages: seq<Stage>, maxIterations: Option<nat>, script: LoopScript): Option<Exception> {
    var k := Planned(maxIterations, script);
    var f := FailIter(script, |stages|, k);
    if f == k then ConditionError(maxIterations, script, k) else Some(script.child(f, FirstRaise(script, |stages|, f)).error)
  }

  /**
   * The calls `recipe` makes: every completed iteration, then either the check
   * that stopped the loop by saying stop or by raising (none when the cap
   * stopped it) or the partial
   * iteration up to the child that raised.
   */
  function LoopCalls(stages: seq<Stage>, maxIterations: Option<nat>, script: LoopScript): seq<LoopEvent> {
    var k := Planned(maxIterations, script);
    var f := FailIter(script, |stages|, k);
    if f == k then Trace(stages, k) + (if Allowed(maxIterations, k) then [CheckCondition(k)] else [])
    else Trace(stages, f) + [CheckCondition(f)] + Row(stages, f, FirstRaise(script, |stages|, f) + 1)
  }

  /**
   * The outcome when the loop stops before any child raises, at `c` iterations:
   * no error unless the last condition check raised.
   */
  lemma StoppedOutcome(stages: seq<Stage>, maxIterations: Option<nat>, script: LoopScript, c: nat)
    requires c == Planned(maxIterations, script) && FailIter(script, |stages|, c) == c
    ensures LoopError(stages, maxIterations, script) == ConditionError(maxIterations, script, c)
    ensures LoopCount(stages, maxIterations, script) == c
    ensures LoopCalls(stages, maxIterations, script)
            == Trace(stages, c) + (if Allowed(maxIterations, c) then [CheckCondition(c)] else [])
  {
  }

  /** A condition that raises at its first check escapes at once: no iteration, and only that check. */
  lemma ConditionRaisesAtStart(stages: seq<Stage>, maxIterations: Option<nat>, script: LoopScript)
    requires Allowed(maxIterations, 0) && Answer(script, 0).Raised?
    ensures LoopError(stages, maxIterations, script) == Some(Answer(script, 0).error)
    ensures LoopCount(stages, maxIterations, script) == 0
    ensures LoopCalls(stages, maxIterations, script) == [CheckCondition(0)]
  {
    InitiallyFalse(maxIterations, script);
  }

  /** The outcome when a child raises in iteration `c`. */
  lemma FailedOutcome(stages: seq<Stage>, maxIterations: Option<nat>, script: LoopScript, c: nat)
    requires c < Planned(maxIterations, script) && c == FailIter(script, |stages|, Planned(maxIterations, script))
    ensures var j := FirstRaise(script, |stages|, c);
            && LoopError(stages, maxIterations, script) == Some(script.child(c, j).error)
            && LoopCount(stages, maxIterations, script) == c + 1
            && LoopCalls(stages, maxIterations, script) == Trace(stages, c) + [CheckCondition(c)] + Row(stages, c, j + 1)
  {
  }

  /** `loop_times` once the first `j` children of iteration `it` have appended their times, as the loop builds it. */
  function AddRow(times: map<string, seq<real>>, script: LoopScript, stages: seq<Stage>, it: nat, j: nat)
    : (m: map<string, seq<real>>)
    requires j <= |stages|
  {
    if j == 0 then times
    else
      var before := AddRow(times, script, stages, it, j - 1);
      var n := stages[j - 1].name;
      if n in before then before[n := before[n] + [MillisOf(script.child(it, j - 1))]] else before
  }

  /** `loop_times` after `k` complete iterations: one empty list per child name, then each iteration's row. */
  function TimesMap(script: LoopScript, stages: seq<Stage>, k: nat): map<string, seq<real>> {
    if k == 0 then map n | n in NameKeys(stages) :: []
    else AddRow(TimesMap(script, stages, k - 1), script, stages, k - 1, |stages|)
  }

  /** `mean_loop_time` after `k` complete iterations. */
  function MeanLoopTimes(script: LoopScript, stages: seq<Stage>, k: nat): map<string, real> {
    map n | n in NameKeys(stages) :: Mean(TimesOf(script, stages, k, n))
  }

  /** A row adds no key. */
  lemma {:induction false} AddRowKeys(times: map<string, seq<real>>, script: LoopScript, stages: seq<Stage>, it: nat, j: nat)
    requires j <= |stages|
    ensures AddRow(times, script, stages, it, j).Keys == times.Keys
  {
    if j > 0 {
      AddRowKeys(times, script, stages, it, j - 1);
    }
  }

  /** `loop_times` has one key per child name, whatever the iteration. */
  lemma {:induction false} TimesMapKeys(script: LoopScript, stages: seq<Stage>, k: nat)
    ensures TimesMap(script, stages, k).Keys == NameKeys(stages)
  {
    if k > 0 {
      TimesMapKeys(script, stages, k - 1);
      AddRowKeys(TimesMap(script, stages, k - 1), script, stages, k - 1, |stages|);
    }
  }

  /** A row appends to a list exactly the times of the children carrying its name, in order. */
  lemma {:induction false} AddRowEntry(times: map<string, seq<real>>, script: LoopScript, stages: seq<Stage>, it: nat, j: nat,
                                       n: string)
    requires j <= |stages| && n in times
    requires forall c :: 0 <= c < |stages| ==> stages[c].name in times
    ensures n in AddRow(times, script, stages, it, j)
    ensures AddRow(times, script, stages, it, j)[n] == times[n] + RowTimes(script, stages, it, j, n)
  {
    if j == 0 {
      assert times[n] + [] == times[n];
    } else {
      AddRowEntry(times, script, stages, it, j - 1, n);
      AddRowKeys(times, script, stages, it, j - 1);
      var t := MillisOf(script.child(it, j - 1));
      AppendAssoc(times[n], RowTimes(script, stages, it, j - 1, n), if stages[j - 1].name == n then [t] else []);
    }
  }

  /** The map the loop accumulates holds, under every child name, exactly that name's list of times. */
  lemma {:induction false} TimesMapEntry(script: LoopScript, stages: seq<Stage>, k: nat, n: string)
    requires n in NameKeys(stages)
    ensures n in TimesMap(script, stages, k)
    ensures TimesMap(script, stages, k)[n] == TimesOf(script, stages, k, n)
  {
    if k > 0 {
      var prev := TimesMap(script, stages, k - 1);
      TimesMapEntry(script, stages, k - 1, n);
      TimesMapKeys(script, stages, k - 1);
      ChildNamesAreKeys(stages);
      AddRowEntry(prev, script, stages, k - 1, |stages|, n);
    }
  }

  /** The means `recipe` computes from the map it accumulated are the means of each name's times. */
  lemma MeansOfTimesMap(script: LoopScript, stages: seq<Stage>, k: nat)
    ensures (map n | n in TimesMap(script, stages, k) :: Mean(TimesMap(script, stages, k)[n]))
            == MeanLoopTimes(script, stages, k)
  {
    TimesMapKeys(script, stages, k);
    forall n | n in NameKeys(stages) ensures TimesMap(script, stages, k)[n] == TimesOf(script, stages, k, n) {
      TimesMapEntry(script, stages, k, n);
    }
  }

  class StageLoop {
    const loopStages: seq<Stage>
    const condition: Condition
    const maxIterations: Option<nat>
    const name: string
    const description: string
    var hasContext: bool
    var currentIteration: nat
    var totalIterations: nat
    var meanLoopTime: map<string, real>
    var meanIterationTime: real
    var executionMetadata: map<string, MetaValue>
    /** The condition checks and child executions, oldest first. */
    var events: seq<LoopEvent>

    /** The arguments `__init__` accepted. */
    predicate Valid() {
      |loopStages| > 0 && Truthy(condition) && (maxIterations.None? || maxIterations.value > 0)
    }

    /** `__init__` once its assertions have passed; `Create` carries them. */
    constructor (stages: seq<Stage>, cond: Condition, maxIters: Option<nat>, givenName: Option<string>,
                 givenDescription: Option<string>, withContext: bool)
      requires ValidateLoopArgs(stages, cond, if maxIters.Some? then Some(maxIters.value as int) else None).None?
      ensures Valid()
      ensures loopStages == stages && condition == cond && maxIterations == maxIters && hasContext == withContext
      ensures name == OrDefault(givenName, DefaultName(stages))
      ensures description == OrDefault(givenDescription, DefaultDescription(stages))
      ensures currentIteration == 0 && totalIterations == 0 && meanIterationTime == 0.0
      ensures meanLoopTime == map[] && executionMetadata == map[] && events == []
    {
      loopStages := stages;
      condition := cond;
      maxIterations := maxIters;
      name := OrDefault(givenName, DefaultName(stages));
      description := OrDefault(givenDescription, DefaultDescription(stages));
      hasContext := withContext;
      currentIteration := 0;
      totalIterations := 0;
      meanLoopTime := map[];
      meanIterationTime := 0.0;
      executionMetadata := map[];
      events := [];
    }

    /** `StageLoop(...)`: an AssertionError, or a new loop stage. */
    static method Create(stages: seq<Stage>, cond: Condition, maxIters: Option<int>, givenName: Option<string>,
                         givenDescription: Option<string>, withContext: bool)
      returns (r: Result<StageLoop, Exception>)
      ensures r.Err? <==> ValidateLoopArgs(stages, cond, maxIters).Some?
      ensures r.Err? ==> r.error == ValidateLoopArgs(stages, cond, maxIters).value
      ensures r.Ok? ==> fresh(r.value) && r.value.Valid() && r.value.loopStages == stages
                        && r.value.name == OrDefault(givenName, DefaultName(stages))
                        && r.value.description == OrDefault(givenDescription, DefaultDescription(stages))
                        && r.value.condition == cond && r.value.hasContext == withContext
                        && r.value.maxIterations == (if maxIters.Some? then Some(maxIters.value as nat) else None)
                        && r.value.currentIteration == 0 && r.value.totalIterations == 0
                        && r.value.meanIterationTime == 0.0 && r.value.meanLoopTime == map[]
                        && r.value.executionMetadata == map[] && r.value.events == []
    {
      var check := ValidateLoopArgs(stages, cond, maxIters);
      if check.Some? {
        return Err(check.value);
      }
      var cap: Option<nat> := if maxIters.Some? then Some(maxIters.value as nat) else None;
      assert (if cap.Some? then Some(cap.value as int) else None) == maxIters;
      var loop := new StageLoop(stages, cond, cap, givenName, givenDescription, withContext);
      r := Ok(loop);
    }

    /** `set_context` */
    method SetContext()
      modifies this
      ensures hasContext
      ensures currentIteration == old(currentIteration) && totalIterations == old(totalIterations)
      ensures meanLoopTime == old(meanLoopTime) && meanIterationTime == old(meanIterationTime)
      ensures executionMetadata == old(executionMetadata) && events == old(events)
    {
      hasContext := true;
    }

    /** `collect_all_stages`: the base list, then each child's `all_stages`, once each. */
    method CollectAllStages(base: seq<string>) returns (r: seq<string>)
      ensures r == base + AllNamesOf(loopStages)
    {
      r := base;
      for i := 0 to |loopStages|
        invariant r == base + AllNamesOf(loopStages[..i])
      {
        AllNamesOfSnoc(loopStages, i);
        r := r + AllNames(loopStages[i]);
      }
      assert loopStages[..|loopStages|] == loopStages;
    }

    /**
     * `_should_continue_loop`: a RuntimeError without a context, else what
     * resolving and asking the condition gave, its answer or its exception.
     */
    method ShouldContinue(answer: Outcome<bool>) returns (r: Result<bool, Exception>)
      ensures hasContext && answer.Returned? ==> r == Ok(answer.value)
      ensures hasContext && answer.Raised? ==> r == Err(answer.error)
      ensures !hasContext ==> r == Err(RuntimeError(NoContextMessage))
    {
      if !hasContext {
        return Err(RuntimeError(NoContextMessage));
      }
      match answer
      case Returned(verdict) => r := Ok(verdict);
      case Raised(e) => r := Err(e);
    }

    /** The inner `for stage in self.loop_stages` of iteration `it`, with the calls it makes. */
    method RunIteration(script: LoopScript, it: nat, times: map<string, seq<real>>)
      returns (timesOut: map<string, seq<real>>, calls: seq<LoopEvent>, err: Option<Exception>)
      requires times.Keys == NameKeys(loopStages)
      ensures FirstRaise(script, |loopStages|, it) == |loopStages| ==>
                && err.None?
                && calls == Row(loopStages, it, |loopStages|)
                && timesOut == AddRow(times, script, loopStages, it, |loopStages|)
      ensures FirstRaise(script, |loopStages|, it) < |loopStages| ==>
                var j := FirstRaise(script, |loopStages|, it);
                && err == Some(script.child(it, j).error)
                && calls == Row(loopStages, it, j + 1)
    {
      ChildNamesAreKeys(loopStages);
      timesOut := times;
      calls := [];
      var j := 0;
      while j < |loopStages|
        invariant j <= FirstRaise(script, |loopStages|, it) && j <= |loopStages|
        invariant calls == Row(loopStages, it, j)
        invariant timesOut == AddRow(times, script, loopStages, it, j)
      {
        var child := loopStages[j];
        calls := calls + [ExecuteChild(it, j, child.name)];
        var run := script.child(it, j);
        if run.Raised? {
          FirstRaiseStops(script, |loopStages|, it, j);
          return timesOut, calls, Some(run.error);
        }
        AddRowKeys(times, script, loopStages, it, j);
        timesOut := timesOut[child.name := timesOut[child.name] + [run.millis]];
        j := j + 1;
      }
      err := None;
    }

    /**
     * One pass of the `while` body once the condition said go on: iteration `it`
     * runs its children, and, when none raises, its time joins `iteration_times`.
     */
    method RunRound(script: LoopScript, it: nat, times: map<string, seq<real>>, iterationTimes: seq<real>,
                    calls: seq<LoopEvent>)
      returns (timesOut: map<string, seq<real>>, iterationTimesOut: seq<real>, callsOut: seq<LoopEvent>,
               err: Option<Exception>)
      requires times == TimesMap(script, loopStages, it)
      requires iterationTimes == IterationTimes(script, it)
      requires calls == Trace(loopStages, it) + [CheckCondition(it)]
      ensures FirstRaise(script, |loopStages|, it) == |loopStages| ==>
                && err.None?
                && timesOut == TimesMap(script, loopStages, it + 1)
                && iterationTimesOut == IterationTimes(script, it + 1)
                && callsOut == Trace(loopStages, it + 1)
      ensures FirstRaise(script, |loopStages|, it) < |loopStages| ==>
                var j := FirstRaise(script, |loopStages|, it);
                && err == Some(script.child(it, j).error)
                && callsOut == calls + Row(loopStages, it, j + 1)
    {
      var row;
      TimesMapKeys(script, loopStages, it);
      timesOut, row, err := RunIteration(script, it, times);
      callsOut := calls + row;
      iterationTimesOut := iterationTimes;
      if err.None? {
        TraceStep(loopStages, it);
        IterationTimesStep(script, it);
        iterationTimesOut := iterationTimes + [script.iterationMillis(it)];
      }
    }

    /** A round the condition allowed: it completes, or its raising child ends `recipe` with the loop's outcome. */
    method PlannedRound(script: LoopScript, it: nat, times: map<string, seq<real>>, iterationTimes: seq<real>,
                        calls: seq<LoopEvent>)
      returns (timesOut: map<string, seq<real>>, iterationTimesOut: seq<real>, callsOut: seq<LoopEvent>,
               err: Option<Exception>)
      requires it < Planned(maxIterations, script)
      requires it <= FailIter(script, |loopStages|, Planned(maxIterations, script))
      requires times == TimesMap(script, loopStages, it)
      requires iterationTimes == IterationTimes(script, it)
      requires calls == Trace(loopStages, it) + [CheckCondition(it)]
      ensures err.None? ==>
                && it < FailIter(script, |loopStages|, Planned(maxIterations, script))
                && timesOut == TimesMap(script, loopStages, it + 1)
                && iterationTimesOut == IterationTimes(script, it + 1)
                && callsOut == Trace(loopStages, it + 1)
      ensures err.Some? ==>
                && err == LoopError(loopStages, maxIterations, script)
                && it + 1 == LoopCount(loopStages, maxIterations, script)
                && callsOut == LoopCalls(loopStages, maxIterations, script)
    {
      var k := Planned(maxIterations, script);
      timesOut, iterationTimesOut, callsOut, err := RunRound(script, it, times, iterationTimes, calls);
      if err.Some? {
        FailIterStops(script, |loopStages|, k, it);
        FailedOutcome(loopStages, maxIterations, script, it);
      } else {
        FailIterContinues(script, |loopStages|, k, it);
      }
    }

    /**
     * The `while` test once the cap allows iteration `it`: the condition check
     * and the call it records; a check that raises ends the loop's run.
     */
    method AskCondition(script: LoopScript, it: nat, calls: seq<LoopEvent>)
      returns (go: Result<bool, Exception>, callsOut: seq<LoopEvent>)
      requires Allowed(maxIterations, it) && it <= Planned(maxIterations, script)
      requires FailIter(script, |loopStages|, Planned(maxIterations, script)) >= it
      requires calls == Trace(loopStages, it)
      ensures !hasContext ==> go == Err(RuntimeError(NoContextMessage)) && callsOut == calls
      ensures hasContext ==> callsOut == calls + [CheckCondition(it)]
      ensures go.Ok? ==> hasContext && go.value == Check(script, it)
      ensures go.Ok? ==> ConditionError(maxIterations, script, it) == None
      ensures go.Ok? ==> (go.value <==> it < Planned(maxIterations, script))
      ensures hasContext && go.Err? ==>
                && Some(go.error) == LoopError(loopStages, maxIterations, script)
                && it == LoopCount(loopStages, maxIterations, script)
                && callsOut == LoopCalls(loopStages, maxIterations, script)
    {
      go := ShouldContinue(Answer(script, it));
      callsOut := calls;
      if hasContext {
        callsOut := calls + [CheckCondition(it)];
        if go.Err? || !go.value {
          PlannedStops(maxIterations, script, it);
          StoppedOutcome(loopStages, maxIterations, script, it);
        } else {
          PlannedContinues(maxIterations, script, it);
        }
      }
    }

    /** The `while` loop of `recipe`, with `loop_times`, `iteration_times` and the calls it makes. */
    method Iterate(script: LoopScript)
      returns (times: map<string, seq<real>>, iterationTimes: seq<real>, calls: seq<LoopEvent>, err: Option<Exception>)
      requires Valid()
      modifies this`currentIteration
      ensures !hasContext ==> err == Some(RuntimeError(NoContextMessage)) && currentIteration == 0 && calls == []
      ensures hasContext ==>
                && err == LoopError(loopStages, maxIterations, script)
                && currentIteration == LoopCount(loopStages, maxIterations, script)
                && calls == LoopCalls(loopStages, maxIterations, script)
      ensures hasContext && err.None? ==>
                && times == TimesMap(script, loopStages, currentIteration)
                && iterationTimes == IterationTimes(script, currentIteration)
    {
      var k := Planned(maxIterations, script);
      ghost var n := |loopStages|;
      var count := 0;
      ghost var ctx := hasContext;
      currentIteration := 0;
      times := map name | name in NameKeys(loopStages) :: [];
      iterationTimes := [];
      calls := [];
      PlannedWithinBound(maxIterations, script);
      while Allowed(maxIterations, count)
        invariant currentIteration == count
        invariant count <= k <= Bound(maxIterations, script) && count <= FailIter(script, n, k)
        invariant times == TimesMap(script, loopStages, count)
        invariant iterationTimes == IterationTimes(script, count)
        invariant calls == Trace(loopStages, count)
        invariant hasContext == ctx
        invariant count > 0 ==> ctx
        decreases Bound(maxIterations, script) - count
      {
        var go;
        go, calls := AskCondition(script, count, calls);
        if go.Err? {
          return times, iterationTimes, calls, Some(go.error);
        }
        if !go.value {
          break;
        }
        currentIteration := count + 1;
        times, iterationTimes, calls, err := PlannedRound(script, count, times, iterationTimes, calls);
        if err.Some? {
          return;
        }
        count := count + 1;
      }
      if !Allowed(maxIterations, count) {
        PlannedStops(maxIterations, script, count);
      }
      StoppedOutcome(loopStages, maxIterations, script, count);
      err := None;
    }

    /** The end of `recipe`: the iteration count, the exact means and the three metadata entries. */
    method RecordStats(script: LoopScript, times: map<string, seq<real>>, iterationTimes: seq<real>)
      requires times == TimesMap(script, loopStages, currentIteration)
      requires iterationTimes == IterationTimes(script, currentIteration)
      modifies this`totalIterations, this`meanLoopTime, this`meanIterationTime, this`executionMetadata
      ensures totalIterations == currentIteration
      ensures meanLoopTime == MeanLoopTimes(script, loopStages, currentIteration)
      ensures meanIterationTime == Mean(IterationTimes(script, currentIteration))
      ensures executionMetadata == old(executionMetadata)["total_iterations" := IntValue(currentIteration)]
                ["mean_iteration_time" := RealValue(meanIterationTime)]
                ["mean_loop_time" := RealMap(meanLoopTime)]
    {
      MeansOfTimesMap(script, loopStages, currentIteration);
      totalIterations := currentIteration;
      meanLoopTime := map name | name in times :: Mean(times[name]);
      meanIterationTime := Mean(iterationTimes);
      executionMetadata := executionMetadata["total_iterations" := IntValue(totalIterations)];
      executionMetadata := executionMetadata["mean_iteration_time" := RealValue(meanIterationTime)];
      executionMetadata := executionMetadata["mean_loop_time" := RealMap(meanLoopTime)];
    }

    /** `recipe`: the loop, then the iteration count and the means. */
    method Recipe(script: LoopScript) returns (err: Option<Exception>)
      requires Valid()
      modifies this`currentIteration, this`events
      modifies this`totalIterations, this`meanLoopTime, this`meanIterationTime, this`executionMetadata
      ensures !hasContext ==> err == Some(RuntimeError(NoContextMessage)) && currentIteration == 0 && events == old(events)
      ensures hasContext ==>
                && err == LoopError(loopStages, maxIterations, script)
                && currentIteration == LoopCount(loopStages, maxIterations, script)
                && events == old(events) + LoopCalls(loopStages, maxIterations, script)
      // on normal exit the counters and means are recorded
      ensures err.None? ==>
                && totalIterations == currentIteration
                && meanLoopTime == MeanLoopTimes(script, loopStages, currentIteration)
                && meanIterationTime == Mean(IterationTimes(script, currentIteration))
                && executionMetadata == old(executionMetadata)["total_iterations" := IntValue(currentIteration)]
                     ["mean_iteration_time" := RealValue(meanIterationTime)]
                     ["mean_loop_time" := RealMap(meanLoopTime)]
      // an exception leaves them as they were
      ensures err.Some? ==>
                && totalIterations == old(totalIterations)
                && meanLoopTime == old(meanLoopTime) && meanIterationTime == old(meanIterationTime)
                && executionMetadata == old(executionMetadata)
    {
      var times, iterationTimes, calls;
      times, iterationTimes, calls, err := Iterate(script);
      events := events + calls;
      if err.Some? {
        return;
      }
      RecordStats(script, times, iterationTimes);
    }
  }
}
