/**
 * The stage abstraction the runner and the loop work with.  The stage
 * implementation itself (`ETLStage.execute`, its condition, recipe and
 * bindings) is not part of this model: a stage is a tree of named stages whose
 * `execute()` in a run has a scripted outcome, with the timestamps and the
 * free-form metadata it leaves behind.
 */
module Stages {
  import opened Errors

  datatype Status = Pending | Running | Completed | Skipped | Failed

  /** What `stage.execute()` does in a run: returns False (skipped), returns True, or raises. */
  datatype Script = Skip | Complete | Fail(error: Exception)

  datatype Stage = Stage(
    name: string,
    subStages: seq<Stage>,
    script: Script,
    startTime: Option<int>,
    endTime: Option<int>,
    info: map<string, string>)

  /** `stage.all_stages`, as names: the stage, then every nested stage, depth first. */
  function AllNames(s: Stage): (r: seq<string>)
    ensures |r| >= 1 && r[0] == s.name
    decreases s, 1
  {
    [s.name] + AllNamesOf(s.subStages)
  }

  function AllNamesOf(ss: seq<Stage>): seq<string>
    decreases ss, 0
  {
    if |ss| == 0 then [] else AllNames(ss[0]) + AllNamesOf(ss[1..])
  }

  /** The top-level names of a list of stages, in order. */
  function Names(stages: seq<Stage>): (r: seq<string>)
    ensures |r| == |stages| && forall i :: 0 <= i < |stages| ==> r[i] == stages[i].name
  {
    if |stages| == 0 then [] else Names(stages[..|stages| - 1]) + [stages[|stages| - 1].name]
  }

  /** The names of a list of stages and everything nested in them, as a set. */
  function NameSet(ss: seq<Stage>): set<string>
  {
    if |ss| == 0 then {} else NameSet(ss[..|ss| - 1]) + Elems(AllNames(ss[|ss| - 1]))
  }

  function Elems(xs: seq<string>): (r: set<string>)
    ensures forall x :: x in r <==> x in xs
  {
    if |xs| == 0 then {} else {xs[0]} + Elems(xs[1..])
  }

  /** Growing the list of stages only grows its name set. */
  lemma {:induction false} NameSetMonotone(ss: seq<Stage>, i: nat, j: nat)
    requires i <= j <= |ss|
    ensures NameSet(ss[..i]) <= NameSet(ss[..j])
    decreases j - i
  {
    if i < j {
      NameSetMonotone(ss, i, j - 1);
      assert ss[..j][..j - 1] == ss[..j - 1];
    }
  }

  /** Every name of every stage in the list is in its name set. */
  lemma {:induction false} NameSetCovers(ss: seq<Stage>, i: nat)
    requires i < |ss|
    ensures forall n :: n in AllNames(ss[i]) ==> n in NameSet(ss)
  {
    NameSetMonotone(ss, i + 1, |ss|);
    assert ss[..i + 1][..i] == ss[..i];
    assert ss[..|ss|] == ss;
  }

  /** One record of `StageExecutionMetadata`. */
  datatype StageMeta = StageMeta(
    name: string,
    duration: int,
    status: Status,
    error: Option<Exception>,
    subStages: seq<StageMeta>,
    additionalInfo: map<string, string>)

  /** The names in a metadata tree, depth first. */
  function MetaNames(m: StageMeta): seq<string>
    decreases m, 1
  {
    [m.name] + MetaNamesOf(m.subStages)
  }

  function MetaNamesOf(ms: seq<StageMeta>): seq<string>
    decreases ms, 0
  {
    if |ms| == 0 then [] else MetaNames(ms[0]) + MetaNamesOf(ms[1..])
  }

  /** Every record in the tree has `status`, and every nested record has no error. */
  ghost predicate Uniform(m: StageMeta, status: Status)
    decreases m
  {
    && m.status == status
    && forall i :: 0 <= i < |m.subStages| ==> m.subStages[i].error.None? && Uniform(m.subStages[i], status)
  }
}
