/** Jobs of a manifest and the derivation of their execution kind. */
module Manifest {
  import opened Wrappers

  /** How a job is executed; `ExecEmpty` when it names no target. */
  datatype JobExecType = ExecEmpty | ExecPlugin | ExecTask | ExecMixin

  /** One job of a task. A `None` name is a nil pointer in the manifest. */
  datatype Job = Job(
    condition: string,
    description: string,
    taskName: Option<string>,
    pluginName: Option<string>,
    mixinName: Option<string>,
    delay: nat,
    vars: map<string, string>)

  /** True exactly when the job carries a description of its own. */
  function HasDescription(j: Job): (r: bool)
    ensures r <==> |j.description| > 0
  {
    j.description != ""
  }

  /** The first name of `names` that is set, scanning left to right. */
  function FirstSet(names: seq<Option<string>>): (r: Option<string>)
    ensures r.None? <==> forall i :: 0 <= i < |names| ==> names[i].None?
    ensures r.Some? ==>
      exists i :: 0 <= i < |names| && names[i] == r && forall k :: 0 <= k < i ==> names[k].None?
  {
    if names == [] then None
    else if names[0].Some? then names[0]
    else
      var r := FirstSet(names[1..]);
      assert r.Some? ==>
          exists i :: 1 <= i < |names| && names[i] == r && forall k :: 0 <= k < i ==> names[k].None?
        by {
          if r.Some? {
            var i :| 0 <= i < |names[1..]| && names[1..][i] == r &&
                     forall k :: 0 <= k < i ==> names[1..][k].None?;
            assert names[i + 1] == r;
            assert forall k :: 0 <= k < i + 1 ==> names[k].None? by {
              forall k | 0 <= k < i + 1 ensures names[k].None? {
                if k > 0 { assert names[k] == names[1..][k - 1]; }
              }
            }
          }
        }
      r
  }

  /** The kind of a job: the first target set in the order plugin, task, mixin. */
  function Type(j: Job): (r: JobExecType)
    ensures r == ExecPlugin <==> j.pluginName.Some?
    ensures r == ExecTask <==> j.pluginName.None? && j.taskName.Some?
    ensures r == ExecMixin <==> j.pluginName.None? && j.taskName.None? && j.mixinName.Some?
    ensures r == ExecEmpty <==> j.pluginName.None? && j.taskName.None? && j.mixinName.None?
  {
    if j.pluginName.Some? then ExecPlugin
    else if j.taskName.Some? then ExecTask
    else if j.mixinName.Some? then ExecMixin
    else ExecEmpty
  }

  /** Priority of a kind when several targets are set: lower wins. */
  function Rank(t: JobExecType): nat {
    match t
    case ExecPlugin => 0
    case ExecTask => 1
    case ExecMixin => 2
    case ExecEmpty => 3
  }

  /** The kinds whose target name the job sets. */
  function DeclaredKinds(j: Job): set<JobExecType> {
    (if j.pluginName.Some? then {ExecPlugin} else {}) +
    (if j.taskName.Some? then {ExecTask} else {}) +
    (if j.mixinName.Some? then {ExecMixin} else {})
  }

  /** The target name of the kind `Type` selected, "" for an empty job. */
  function SelectedName(j: Job): string {
    match Type(j)
    case ExecPlugin => j.pluginName.value
    case ExecTask => j.taskName.value
    case ExecMixin => j.mixinName.value
    case ExecEmpty => ""
  }

  /** The description, or else the name of the target the job runs. */
  function FormatDescription(j: Job): (r: string)
    ensures HasDescription(j) ==> r == j.description
    ensures !HasDescription(j) ==> r == SelectedName(j)
  {
    if j.description != "" then j.description
    else
      var names := [j.pluginName, j.taskName, j.mixinName];
      var first := FirstSet(names);
      assert first.GetOr("") == SelectedName(j) by {
        if first.Some? {
          var i :| 0 <= i < |names| && names[i] == first && forall k :: 0 <= k < i ==> names[k].None?;
          if j.pluginName.Some? {
            assert i == 0;
          } else if j.taskName.Some? {
            assert names[0].None? && names[1].Some?;
            assert i == 1;
          } else {
            assert names[0].None? && names[1].None?;
            assert i == 2;
          }
        } else {
          assert names[0].None? && names[1].None? && names[2].None?;
        }
      }
      first.GetOr("")
  }

  /**
   * The first-match quirk: of all declared targets the one of highest
   * priority is the job's kind, and the others are ignored.
   */
  lemma TypeIsHighestPriorityDeclared(j: Job)
    ensures Type(j) == ExecEmpty <==> DeclaredKinds(j) == {}
    ensures DeclaredKinds(j) != {} ==>
      Type(j) in DeclaredKinds(j) && forall k :: k in DeclaredKinds(j) ==> Rank(Type(j)) <= Rank(k)
  {
  }

  /** Adding or changing lower-priority targets never changes the kind. */
  lemma LowerTargetsIgnored(j: Job, task: Option<string>, mixin: Option<string>)
    ensures j.pluginName.Some? ==>
      Type(j.(taskName := task, mixinName := mixin)) == ExecPlugin &&
      FormatDescription(j.(taskName := task, mixinName := mixin)) == FormatDescription(j)
    ensures j.pluginName.None? && j.taskName.Some? ==>
      Type(j.(mixinName := mixin)) == ExecTask &&
      FormatDescription(j.(mixinName := mixin)) == FormatDescription(j)
  {
  }
}
