/**
 * What the two `ProtTardisSeg` revisions (`protocol_tardis_seg.py` and
 * `protocol_membrane_prediction_base.py`) share: the segmentation target and
 * the program it selects, the per-tomogram working paths, the step plan, and
 * the shape of a command-line argument with its rendering. Each revision
 * builds its own argument list.
 */
module Common {
  import opened Wrappers
  import opened Host
  import Paths
  import Text

  /** `TardisSegTargets`: membranes = 0, microtubules = 1. */
  datatype Target = Membranes | Microtubules

  /** `'tardis_mem' if self._segTargetIsMembrane() else 'tardis_mt'`. */
  function ProgramFor(target: Target): (program: string)
    ensures program == "tardis_mem" <==> target == Membranes
    ensures program == "tardis_mt" <==> target == Microtubules
  {
    match target
    case Membranes => "tardis_mem"
    case Microtubules => assert "tardis_mt" != "tardis_mem" by { assert |"tardis_mt"| == 9; } "tardis_mt"
  }

  // ---------------------------------------------------------------- paths

  /** `_getCurrentTomoDir(tsId)`: `<extra>/<tsId>`. */
  function CurrentTomoDir(extra: string, tsId: string): string {
    Paths.ExtraPath(extra, [tsId])
  }

  /** `_getCurrentTomoFile(tsId)`: the linked input, `<tsId>.mrc` inside the working directory. */
  function CurrentTomoFile(extra: string, tsId: string): string {
    Paths.Join(CurrentTomoDir(extra, tsId), tsId + ".mrc")
  }

  /** For a plain tsId the working directory and the linked input sit at fixed places under `extra`. */
  lemma TomoPaths(extra: string, tsId: string)
    requires Paths.IsDir(extra) && Paths.IsName(tsId)
    ensures CurrentTomoDir(extra, tsId) == Text.JoinWith("/", [extra, tsId])
    ensures CurrentTomoFile(extra, tsId) == Text.JoinWith("/", [extra, tsId, tsId + ".mrc"])
  {
    Paths.JoinAllNames(extra, [tsId]);
    var dir := CurrentTomoDir(extra, tsId);
    var file := tsId + ".mrc";
    assert [extra] + [tsId] == [extra, tsId];
    assert file[0] == tsId[0];
    assert tsId[0] != '/' by { assert tsId[0] in tsId; }
    assert Paths.Join(dir, file) == dir + "/" + file;
    Text.JoinWithAppend("/", [extra, tsId], file);
    assert [extra, tsId] + [file] == [extra, tsId, file];
  }

  // ---------------------------------------------------------- command line

  /** An argument value: literal text, or a float printed with a fixed number of decimals. */
  datatype Value = Word(text: string) | Fixed(x: real, places: nat)

  /** One `--flag value` element of the argument list. */
  datatype Arg = Arg(flag: string, value: Value)

  /**
   * `fmt(x, n)` stands for Python's `f'{x:.nf}'`; it is a parameter because
   * float-to-text conversion is not modelled.
   */
  function RenderArg(a: Arg, fmt: (real, nat) -> string): string {
    a.flag + " " + match a.value
      case Word(t) => t
      case Fixed(x, n) => fmt(x, n)
  }

  function RenderAll(args: seq<Arg>, fmt: (real, nat) -> string): (texts: seq<string>)
    ensures |texts| == |args|
    ensures forall i :: 0 <= i < |args| ==> texts[i] == RenderArg(args[i], fmt)
  {
    seq(|args|, i requires 0 <= i < |args| => RenderArg(args[i], fmt))
  }

  /** `' '.join(args)` over the rendered arguments. */
  function CmdLine(args: seq<Arg>, fmt: (real, nat) -> string): string {
    Text.JoinWith(" ", RenderAll(args, fmt))
  }

  /** Rendering and joining keep the arguments in order, each separated by one space. */
  lemma {:induction false} CmdLineAppend(args: seq<Arg>, a: Arg, fmt: (real, nat) -> string)
    requires args != []
    ensures CmdLine(args + [a], fmt) == CmdLine(args, fmt) + " " + RenderArg(a, fmt)
  {
    assert RenderAll(args + [a], fmt) == RenderAll(args, fmt) + [RenderArg(a, fmt)];
    Text.JoinWithAppend(" ", RenderAll(args, fmt), RenderArg(a, fmt));
  }

  /** How many arguments carry `flag`. */
  function FlagCount(args: seq<Arg>, flag: string): nat
    decreases |args|
  {
    if args == [] then 0
    else (if args[|args| - 1].flag == flag then 1 else 0) + FlagCount(args[..|args| - 1], flag)
  }

  lemma FlagCountAppend(args: seq<Arg>, a: Arg, flag: string)
    ensures FlagCount(args + [a], flag) == FlagCount(args, flag) + (if a.flag == flag then 1 else 0)
  {
    assert (args + [a])[..|args|] == args;
  }

  /** `FlagCount` counts the positions at which `flag` occurs. */
  lemma {:induction false} FlagCountPositions(args: seq<Arg>, flag: string)
    ensures FlagCount(args, flag) == 0 <==> forall i :: 0 <= i < |args| ==> args[i].flag != flag
    ensures FlagCount(args, flag) == 1 ==> exists i :: 0 <= i < |args| && args[i].flag == flag
    decreases |args|
  {
    if args != [] {
      var init := args[..|args| - 1];
      FlagCountPositions(init, flag);
      if args[|args| - 1].flag != flag {
        assert forall i :: 0 <= i < |init| ==> init[i] == args[i];
      } else {
        assert args[|args| - 1].flag == flag;
      }
    }
  }

  // -------------------------------------------------------------- step plan

  /** The protocol functions a step runs. */
  datatype Step = SegmentStep(tsId: string) | CreateOutputStep(tsId: string) | CloseOutputSet

  /**
   * The steps `_insertAllSteps` inserts for `keys`, after `base` earlier steps:
   * per tsId, a GPU segmentation step with no prerequisites and a non-GPU
   * output step that depends on it (step ids are 1-based positions).
   */
  function PerTomoSteps(keys: seq<string>, base: nat): seq<Insertion<Step>>
    decreases |keys|
  {
    if keys == [] then []
    else
      var n := |keys| - 1;
      PerTomoSteps(keys[..n], base)
        + [ Insertion(SegmentStep(keys[n]), Explicit([]), Some(true)),
            Insertion(CreateOutputStep(keys[n]), Explicit([base + 2 * n + 1]), Some(false)) ]
  }

  /** The whole plan: the per-tomogram steps, then the close step with the host's default prerequisites. */
  function SegPlan(keys: seq<string>, base: nat): seq<Insertion<Step>> {
    PerTomoSteps(keys, base) + [Insertion(CloseOutputSet, HostDefault, None)]
  }

  /**
   * For n tsIds the plan has 2n+1 steps: step 2i segments the i-th tsId on the
   * GPU with no prerequisites, step 2i+1 builds its output without the GPU and
   * depends only on step 2i (whose id is base + 2i + 1), and the last step
   * closes the outputs without the collected output-step ids.
   */
  lemma {:induction false} SegPlanShape(keys: seq<string>, base: nat)
    ensures |SegPlan(keys, base)| == 2 * |keys| + 1
    ensures forall i :: 0 <= i < |keys| ==>
      && SegPlan(keys, base)[2 * i] == Insertion(SegmentStep(keys[i]), Explicit([]), Some(true))
      && SegPlan(keys, base)[2 * i + 1] == Insertion(CreateOutputStep(keys[i]), Explicit([base + 2 * i + 1]), Some(false))
    ensures SegPlan(keys, base)[2 * |keys|] == Insertion(CloseOutputSet, HostDefault, None)
  {
    PerTomoStepsShape(keys, base);
  }

  lemma {:induction false} PerTomoStepsShape(keys: seq<string>, base: nat)
    ensures |PerTomoSteps(keys, base)| == 2 * |keys|
    ensures forall i :: 0 <= i < |keys| ==>
      && PerTomoSteps(keys, base)[2 * i] == Insertion(SegmentStep(keys[i]), Explicit([]), Some(true))
      && PerTomoSteps(keys, base)[2 * i + 1] == Insertion(CreateOutputStep(keys[i]), Explicit([base + 2 * i + 1]), Some(false))
    decreases |keys|
  {
    if keys != [] {
      var n := |keys| - 1;
      PerTomoStepsShape(keys[..n], base);
      forall i | 0 <= i < n
        ensures keys[..n][i] == keys[i]
      {
      }
    }
  }

  /**
   * The loop of `_insertAllSteps`: for each tsId in order, insert its
   * segmentation step (no prerequisites, on the GPU) and its output step
   * (after the segmentation step, off the GPU), then the close step. The
   * output-step ids are collected in `closeSetDeps` but not passed on.
   */
  method InsertSegPlan(stepList: StepList<Step>, keys: seq<string>)
    modifies stepList
    ensures stepList.steps == old(stepList.steps) + SegPlan(keys, |old(stepList.steps)|)
  {
    var closeSetDeps: seq<nat> := [];
    ghost var start := stepList.steps;
    var i := 0;
    while i < |keys|
      invariant 0 <= i <= |keys|
      invariant stepList.steps == start + PerTomoSteps(keys[..i], |start|)
      invariant |closeSetDeps| == i
    {
      PerTomoStepsShape(keys[..i], |start|);
      var segId := stepList.Insert(SegmentStep(keys[i]), Explicit([]), Some(true));
      var cOutId := stepList.Insert(CreateOutputStep(keys[i]), Explicit([segId]), Some(false));
      closeSetDeps := closeSetDeps + [cOutId];
      assert keys[..i + 1][..i] == keys[..i];
      i := i + 1;
    }
    assert keys[..i] == keys;
    var _ := stepList.Insert(CloseOutputSet, HostDefault, None);
  }
}
