/** The post step of the action (src/post.ts): after the job, save each
    artifact the provisioning run downloaded into the remote cache.

    It reads back the state the provisioning run recorded (`dir_<tool>` and
    `cache_key_<tool>`), walks the two tools in a fixed order, and for each
    one whose directory and key are both recorded points
    `GITHUB_WORKSPACE` and the working directory at that directory and saves
    the tool's directory under its key.  A failure is reported as a warning
    and the loop goes on.  The `Finalizer` holds the process state the loop
    changes; the outcome of each `chdir` and `saveCache` is a parameter. */
module Finalize {

  import opened Wrappers
  import Provision

  /** The tools, in the order they are saved. */
  const Tools: seq<string> := [Provision.WordPressTool, Provision.TestLibraryTool]

  /** `core.getState`: a name that was never saved reads as the empty string. */
  function StateOf(state: map<string, string>, name: string): string {
    if name in state then state[name] else ""
  }

  function DirOf(state: map<string, string>, tool: string): string {
    StateOf(state, Provision.DirState(tool))
  }

  function KeyOf(state: map<string, string>, tool: string): string {
    StateOf(state, Provision.KeyState(tool))
  }

  /** The guard of the loop body: both the directory and the key are non-empty. */
  predicate Attempts(state: map<string, string>, tool: string) {
    DirOf(state, tool) != "" && KeyOf(state, tool) != ""
  }

  /** How one attempted save ends. */
  datatype Attempt = Saved | ChdirFails(message: string) | SaveFails(message: string)

  /** What the step does that is visible outside the process. */
  datatype Step =
    | SaveCache(paths: seq<string>, key: string, cwd: string)   // cache.saveCache, from cwd
    | Warning(message: string)                                  // core.warning

  function SaveWarning(tool: string, message: string): string {
    "\U{26A0}\U{FE0F} Failed to save cache for " + tool + ": " + message
  }

  // ---------------------------------------------------------------------
  // Specification of the loop, tool by tool
  // ---------------------------------------------------------------------

  /** The steps of one iteration. */
  function StepsFor(state: map<string, string>, tool: string, outcome: Attempt): (r: seq<Step>)
    ensures r == [] <==> !Attempts(state, tool)
    ensures |r| <= 2
    ensures forall k :: 0 <= k < |r| && r[k].SaveCache? ==>
              r[k] == SaveCache([tool], KeyOf(state, tool), DirOf(state, tool))
  {
    if !Attempts(state, tool) then []
    else
      var dir := DirOf(state, tool);
      var key := KeyOf(state, tool);
      match outcome
      case Saved => [SaveCache([tool], key, dir)]
      case ChdirFails(m) => [Warning(SaveWarning(tool, m))]
      case SaveFails(m) => [SaveCache([tool], key, dir), Warning(SaveWarning(tool, m))]
  }

  /** The steps of the first `k` iterations. */
  function Trace(state: map<string, string>, outcomes: seq<Attempt>, k: nat): (r: seq<Step>)
    requires k <= |Tools| && k <= |outcomes|
    ensures |r| <= 2 * k
  {
    if k == 0 then []
    else Trace(state, outcomes, k - 1) + StepsFor(state, Tools[k - 1], outcomes[k - 1])
  }

  /** `GITHUB_WORKSPACE` after the first `k` iterations: each attempt sets it,
      before anything can fail. */
  function WorkspaceAfter(state: map<string, string>, w: Option<string>, k: nat): (r: Option<string>)
    requires k <= |Tools|
    ensures r == w || (r.Some? && r.value != "")
  {
    if k == 0 then w
    else if Attempts(state, Tools[k - 1]) then Some(DirOf(state, Tools[k - 1]))
    else WorkspaceAfter(state, w, k - 1)
  }

  /** The working directory after the first `k` iterations: it changes
      only when `chdir` succeeds. */
  function CwdAfter(state: map<string, string>, outcomes: seq<Attempt>, cwd: string, k: nat): (r: string)
    requires k <= |Tools| && k <= |outcomes|
    ensures r == cwd || r != ""
  {
    if k == 0 then cwd
    else if Attempts(state, Tools[k - 1]) && !outcomes[k - 1].ChdirFails? then DirOf(state, Tools[k - 1])
    else CwdAfter(state, outcomes, cwd, k - 1)
  }

  /** The tools among the first `k` whose save is attempted, in order. */
  function Attempted(state: map<string, string>, k: nat): (r: seq<string>)
    requires k <= |Tools|
    ensures |r| <= k
    ensures forall t :: t in r ==> Attempts(state, t)
  {
    if k == 0 then []
    else Attempted(state, k - 1) + (if Attempts(state, Tools[k - 1]) then [Tools[k - 1]] else [])
  }

  /** The tools whose directories were handed to `saveCache`, in order. */
  function SavedTools(es: seq<Step>): seq<string> {
    if es == [] then []
    else SavedTools(es[..|es| - 1]) + (if es[|es| - 1].SaveCache? then es[|es| - 1].paths else [])
  }

  // ---------------------------------------------------------------------
  // The post step
  // ---------------------------------------------------------------------

  class Finalizer {
    /** The state the provisioning run saved; the post step only reads it. */
    const state: map<string, string>
    var workspace: Option<string>
    var cwd: string
    var log: seq<Step>

    constructor(state0: map<string, string>, workspace0: Option<string>, cwd0: string)
      ensures state == state0 && workspace == workspace0 && cwd == cwd0 && log == []
    {
      state := state0;
      workspace := workspace0;
      cwd := cwd0;
      log := [];
    }

    /** `run`: one iteration per tool; `outcomes[k]` is how the k-th
        attempted save ends, and is not consulted for a tool that is skipped. */
    method Run(outcomes: seq<Attempt>)
      requires |outcomes| == |Tools|
      modifies this
      ensures log == old(log) + Trace(state, outcomes, |Tools|)
      ensures workspace == WorkspaceAfter(state, old(workspace), |Tools|)
      ensures cwd == CwdAfter(state, outcomes, old(cwd), |Tools|)
    {
      for k := 0 to |Tools|
        invariant log == old(log) + Trace(state, outcomes, k)
        invariant workspace == WorkspaceAfter(state, old(workspace), k)
        invariant cwd == CwdAfter(state, outcomes, old(cwd), k)
      {
        var tool := Tools[k];
        var dir := StateOf(state, Provision.DirState(tool));
        var key := StateOf(state, Provision.KeyState(tool));
        if dir != "" && key != "" {
          workspace := Some(dir);
          match outcomes[k]
          case ChdirFails(m) =>
            log := log + [Warning(SaveWarning(tool, m))];
          case Saved =>
            cwd := dir;
            log := log + [SaveCache([tool], key, dir)];
          case SaveFails(m) =>
            cwd := dir;
            log := log + [SaveCache([tool], key, dir), Warning(SaveWarning(tool, m))];
        }
      }
    }
  }

  // ---------------------------------------------------------------------
  // Properties
  // ---------------------------------------------------------------------

  lemma ToolsDistinct()
    ensures Tools[0] != Tools[1]
  {
    assert |Tools[0]| != |Tools[1]|;
  }

  /** A tool is attempted exactly when both its directory and its key are
      recorded, and at most once. */
  lemma {:induction false} AttemptedExactly(state: map<string, string>, k: nat)
    requires k <= |Tools|
    ensures forall t :: t in Attempted(state, k) <==> t in Tools[..k] && Attempts(state, t)
    ensures forall a, b :: 0 <= a < b < |Attempted(state, k)| ==> Attempted(state, k)[a] != Attempted(state, k)[b]
    ensures |Attempted(state, k)| <= k
  {
    if k > 0 {
      AttemptedExactly(state, k - 1);
      ToolsDistinct();
      assert Tools[..k] == Tools[..k - 1] + [Tools[k - 1]];
      assert Tools[k - 1] !in Tools[..k - 1];
    }
  }

  lemma SavedToolsAppend(a: seq<Step>, b: seq<Step>)
    ensures SavedTools(a + b) == SavedTools(a) + SavedTools(b)
    decreases |b|
  {
    if b == [] {
      assert a + b == a;
    } else {
      var c := b[..|b| - 1];
      assert (a + b)[..|a + b| - 1] == a + c;
      SavedToolsAppend(a, c);
    }
  }

  /** Every save runs from the tool's recorded directory, with the tool's
      own recorded key, and only for a tool that passed the guard. */
  lemma {:induction false} OwnKey(state: map<string, string>, outcomes: seq<Attempt>, k: nat)
    requires k <= |Tools| && k <= |outcomes|
    ensures forall e :: e in Trace(state, outcomes, k) && e.SaveCache? ==>
              |e.paths| == 1 && e.paths[0] in Tools[..k] && Attempts(state, e.paths[0]) &&
              e.key == KeyOf(state, e.paths[0]) && e.cwd == DirOf(state, e.paths[0])
  {
    if k > 0 {
      OwnKey(state, outcomes, k - 1);
      assert Tools[..k] == Tools[..k - 1] + [Tools[k - 1]];
    }
  }

  /** When no `chdir` fails, the tools handed to `saveCache` are exactly the
      attempted ones, in order: as many saves as tools passing the guard. */
  lemma {:induction false} SavesMatchAttempts(state: map<string, string>, outcomes: seq<Attempt>, k: nat)
    requires k <= |Tools| && k <= |outcomes|
    requires forall j :: 0 <= j < k ==> !outcomes[j].ChdirFails?
    ensures SavedTools(Trace(state, outcomes, k)) == Attempted(state, k)
  {
    if k > 0 {
      SavesMatchAttempts(state, outcomes, k - 1);
      var steps := StepsFor(state, Tools[k - 1], outcomes[k - 1]);
      SavedToolsAppend(Trace(state, outcomes, k - 1), steps);
      if Attempts(state, Tools[k - 1]) && outcomes[k - 1].SaveFails? {
        assert steps[..1] == [steps[0]];
      }
    }
  }

  /** Whatever the outcomes, the saved tools are among the attempted ones. */
  lemma {:induction false} SavesWithinAttempts(state: map<string, string>, outcomes: seq<Attempt>, k: nat)
    requires k <= |Tools| && k <= |outcomes|
    ensures forall t :: t in SavedTools(Trace(state, outcomes, k)) ==> t in Attempted(state, k)
    ensures |SavedTools(Trace(state, outcomes, k))| <= |Attempted(state, k)|
  {
    if k > 0 {
      SavesWithinAttempts(state, outcomes, k - 1);
      var steps := StepsFor(state, Tools[k - 1], outcomes[k - 1]);
      SavedToolsAppend(Trace(state, outcomes, k - 1), steps);
      if Attempts(state, Tools[k - 1]) && outcomes[k - 1].SaveFails? {
        assert steps[..1] == [steps[0]];
      }
    }
  }

  /** No tool is saved twice in one run. */
  lemma SavedAtMostOnce(state: map<string, string>, outcomes: seq<Attempt>)
    requires |outcomes| == |Tools|
    ensures var s := SavedTools(Trace(state, outcomes, |Tools|));
            forall a, b :: 0 <= a < b < |s| ==> s[a] != s[b]
  {
    var s := SavedTools(Trace(state, outcomes, |Tools|));
    SavesWithinAttempts(state, outcomes, |Tools|);
    AttemptedExactly(state, |Tools|);
    if |s| == 2 {
      SavedPairDistinct(state, outcomes);
      ToolsDistinct();
    }
  }

  /** With two saves, the first is the first tool's and the second the second's. */
  lemma SavedPairDistinct(state: map<string, string>, outcomes: seq<Attempt>)
    requires |outcomes| == |Tools|
    requires |SavedTools(Trace(state, outcomes, |Tools|))| == 2
    ensures SavedTools(Trace(state, outcomes, |Tools|)) == Tools
  {
    var first := StepsFor(state, Tools[0], outcomes[0]);
    var second := StepsFor(state, Tools[1], outcomes[1]);
    assert Trace(state, outcomes, 1) == [] + first;
    assert [] + first == first;
    SavedToolsAppend(first, second);
    SavedOfSteps(state, Tools[0], outcomes[0]);
    SavedOfSteps(state, Tools[1], outcomes[1]);
  }

  /** One iteration saves its own tool at most once. */
  lemma SavedOfSteps(state: map<string, string>, tool: string, outcome: Attempt)
    ensures SavedTools(StepsFor(state, tool, outcome)) ==
            if Attempts(state, tool) && !outcome.ChdirFails? then [tool] else []
  {
    var steps := StepsFor(state, tool, outcome);
    if Attempts(state, tool) && outcome.SaveFails? {
      assert steps[0].SaveCache? && steps[0].paths == [tool] && !steps[1].SaveCache?;
      assert steps[..1][..0] == [];
      assert SavedTools(steps[..1]) == [tool];
    } else if Attempts(state, tool) {
      assert steps[..0] == [];
    }
  }

  /** A failure in the first iteration does not stop or change the second:
      the second tool's steps are the same whatever the first one's outcome. */
  lemma FailureContained(state: map<string, string>, outcomes: seq<Attempt>, others: seq<Attempt>)
    requires |outcomes| == |others| == |Tools|
    requires outcomes[1] == others[1]
    ensures var n := |StepsFor(state, Tools[0], outcomes[0])|;
            var m := |StepsFor(state, Tools[0], others[0])|;
            n <= |Trace(state, outcomes, 2)| && m <= |Trace(state, others, 2)| &&
            Trace(state, outcomes, 2)[n..] == Trace(state, others, 2)[m..] &&
            (Trace(state, outcomes, 2)[n..] != [] <==> Attempts(state, Tools[1]))
  {
    var first := StepsFor(state, Tools[0], outcomes[0]);
    var first' := StepsFor(state, Tools[0], others[0]);
    var second := StepsFor(state, Tools[1], outcomes[1]);
    assert Trace(state, outcomes, 1) == [] + first;
    assert Trace(state, others, 1) == [] + first';
    assert ([] + first + second)[|first|..] == second;
    assert ([] + first' + second)[|first'|..] == second;
  }

  /** The workspace is not restored: afterwards it names the directory of
      the last tool whose save was attempted, or is what it was if none was. */
  lemma {:induction false} WorkspaceIsLastAttempted(state: map<string, string>, w: Option<string>, k: nat)
    requires k <= |Tools|
    ensures var att := Attempted(state, k);
            WorkspaceAfter(state, w, k) == if att == [] then w else Some(DirOf(state, att[|att| - 1]))
  {
    if k > 0 {
      WorkspaceIsLastAttempted(state, w, k - 1);
    }
  }

  /** The working directory follows the saves: afterwards it is the
      directory of the last tool handed to `saveCache`, or unchanged if none was. */
  lemma {:induction false} CwdIsLastSaved(state: map<string, string>, outcomes: seq<Attempt>, cwd: string, k: nat)
    requires k <= |Tools| && k <= |outcomes|
    ensures var s := SavedTools(Trace(state, outcomes, k));
            CwdAfter(state, outcomes, cwd, k) == if s == [] then cwd else DirOf(state, s[|s| - 1])
  {
    if k > 0 {
      CwdIsLastSaved(state, outcomes, cwd, k - 1);
      SavedToolsAppend(Trace(state, outcomes, k - 1), StepsFor(state, Tools[k - 1], outcomes[k - 1]));
      SavedOfSteps(state, Tools[k - 1], outcomes[k - 1]);
    }
  }

  /** Across the two steps: a remote-cache miss the provisioning run records
      for a tool leads the post step to save that tool under the very key
      it was looked up with, from the work directory, provided the work
      directory is non-empty. */
  lemma MissLeadsToSave(saved: map<string, string>, i: Provision.Inputs,
                        wpFind: Provision.ToolCacheAnswer, wpRestore: Provision.Restore,
                        libFind: Provision.ToolCacheAnswer, libRestore: Provision.Restore,
                        outcomes: seq<Attempt>, k: nat)
    requires |outcomes| == |Tools| && k < |Tools|
    requires i.hasCache
    requires (if k == 0 then wpRestore else libRestore) == Provision.Miss
    requires !Provision.ToolCacheDecides(i, if k == 0 then wpFind else libFind)
    requires outcomes[k] == Saved
    ensures var state := Provision.Recorded(Provision.Recorded(saved, i, Provision.WordPressTool, wpFind, wpRestore),
                                            i, Provision.TestLibraryTool, libFind, libRestore);
            (Attempts(state, Tools[k]) <==> i.dir != "") &&
            (i.dir != "" ==>
               SaveCache([Tools[k]], Provision.CacheKey(i.cachePrefix, Tools[k], i.semver), i.dir)
                 in Trace(state, outcomes, |Tools|))
  {
    var once := Provision.Recorded(saved, i, Provision.WordPressTool, wpFind, wpRestore);
    var state := Provision.Recorded(once, i, Provision.TestLibraryTool, libFind, libRestore);
    ToolsDistinct();
    Provision.MissRecordsKey(if k == 0 then saved else once, i, Tools[k],
                             if k == 0 then wpRestore else libRestore, if k == 0 then wpFind else libFind);
    assert Provision.DirState(Tools[0]) != Provision.DirState(Tools[1]) by {
      assert |Provision.DirState(Tools[0])| != |Provision.DirState(Tools[1])|;
    }
    assert Provision.KeyState(Tools[0]) != Provision.KeyState(Tools[1]) by {
      assert |Provision.KeyState(Tools[0])| != |Provision.KeyState(Tools[1])|;
    }
    assert DirOf(state, Tools[k]) == i.dir;
    assert KeyOf(state, Tools[k]) == Provision.CacheKey(i.cachePrefix, Tools[k], i.semver);
    var steps := StepsFor(state, Tools[k], outcomes[k]);
    var before := Trace(state, outcomes, k);
    assert Trace(state, outcomes, k + 1) == before + steps;
    if i.dir != "" {
      assert steps[0] in Trace(state, outcomes, k + 1);
      if k == 0 {
        assert Trace(state, outcomes, 2) == Trace(state, outcomes, 1) + StepsFor(state, Tools[1], outcomes[1]);
      }
    }
  }
}
