/**
 * The earlier `ProtTardisSeg` revision of
 * `protocol_membrane_prediction_base.py`: instance or semantic mode, a
 * fixed `mrc_npy` output format, a patch size and one threshold.
 */
module MembraneBase {
  import opened Wrappers
  import opened Host
  import opened Tomo
  import opened Common
  import Text

  /** `TardisSegModes` of this revision: instance = 0, semantic = 1. */
  datatype SegMode = Instance | Semantic

  /** `patchSizeValDict`, in insertion order: patch size name and the choice index it stands for. */
  const PatchSizeValDict: seq<(string, nat)> :=
    [("32", 0), ("64", 1), ("96", 2), ("128", 3), ("256", 4), ("512", 5)]

  /** `patchSizeValDict[name]`, or nothing for a name it does not hold. */
  function PatchSizeValue(name: string): Option<nat> {
    if exists i :: 0 <= i < |PatchSizeValDict| && PatchSizeValDict[i].0 == name
    then var i :| 0 <= i < |PatchSizeValDict| && PatchSizeValDict[i].0 == name; Some(PatchSizeValDict[i].1)
    else None
  }

  /** The patch size form default, `patchSizeValDict['128']`. */
  const DefaultPatchSize: nat := 3

  /**
   * The labels are the six allowed sizes, each name's value is its own
   * position, so the EnumParam choice index and the dict value agree, and
   * the default is the entry for 128.
   */
  lemma PatchSizeTable()
    ensures |PatchSizeValDict| == 6
    ensures forall i :: 0 <= i < |PatchSizeValDict| ==> PatchSizeValDict[i].1 == i
    ensures forall i :: 0 <= i < |PatchSizeValDict| ==> PatchSizeValue(PatchSizeValDict[i].0) == Some(i)
    ensures PatchSizeValue("128") == Some(DefaultPatchSize)
    ensures PatchSizeValue("100") == None
  {
    LabelsDistinct();
    forall i | 0 <= i < |PatchSizeValDict|
      ensures PatchSizeValue(PatchSizeValDict[i].0) == Some(i)
    {
      var j :| 0 <= j < |PatchSizeValDict| && PatchSizeValDict[j].0 == PatchSizeValDict[i].0;
      assert j == i;
    }
    assert PatchSizeValDict[3].0 == "128";
    assert forall i :: 0 <= i < |PatchSizeValDict| ==> PatchSizeValDict[i].0 != "100" by {
      assert "100"[1] == '0' && "128"[1] == '2';
      assert |"100"| == 3 && |"32"| == 2 && |"64"| == 2 && |"96"| == 2;
      assert "256"[0] == '2' && "512"[0] == '5';
    }
  }

  lemma LabelsDistinct()
    ensures forall i, j :: 0 <= i < j < |PatchSizeValDict| ==> PatchSizeValDict[i].0 != PatchSizeValDict[j].0
  {
    assert "32"[0] == '3' && "64"[0] == '6' && "96"[0] == '9';
    assert "128"[0] == '1' && "256"[0] == '2' && "512"[0] == '5';
    assert |"32"| == 2 && |"64"| == 2 && |"96"| == 2 && |"128"| == 3 && |"256"| == 3 && |"512"| == 3;
  }

  /** The form values of this revision; `patchSize` is the EnumParam value, a choice index. */
  datatype Params = Params(target: Target, mode: SegMode, cnnThreshold: real, distThreshold: real, patchSize: nat)

  /**
   * The `GE(0)` / `LE(1)` validators on the threshold the form shows (cnn in
   * semantic mode, distance in instance mode) and the EnumParam's range of
   * choices.
   */
  predicate ValidParams(p: Params) {
    && (p.mode == Semantic ==> 0.0 <= p.cnnThreshold <= 1.0)
    && (p.mode == Instance ==> 0.0 <= p.distThreshold <= 1.0)
    && p.patchSize < |PatchSizeValDict|
  }

  /** `_segModeIsSemantic`. */
  function SegModeIsSemantic(mode: SegMode): (b: bool)
    ensures b <==> mode != Instance
  {
    mode == Semantic
  }

  /** `_getOutputFileNameArg`: `mrc_mrc` for instance mode, else `mrc_None`. Nothing uses it. */
  function OutputFileNameArg(mode: SegMode): (fmt: string)
    ensures |fmt| >= 7 && fmt[..4] == "mrc_"
    ensures mode == Instance ==> fmt[4..] == "mrc"
    ensures mode == Semantic ==> fmt[4..] == "None"
  {
    if mode == Instance then "mrc_mrc" else "mrc_None"
  }

  /** The five arguments every call starts with, for the patch size text `patch`. */
  function BaseArgs(tsId: string, samplingRate: SamplingRate, patch: string): seq<Arg> {
    [ Arg("--path", Word(tsId + ".mrc")),
      Arg("--output_format", Word("mrc_npy")),
      Arg("--correct_px", Fixed(samplingRate, 3)),
      Arg("--patch_size", Word(patch)),
      Arg("--device", Word("gpu")) ]
  }

  /** The patch size in pixels that the choice index `index` stands for. */
  function PatchSizeLabel(index: nat): (name: string)
    requires index < |PatchSizeValDict|
    ensures PatchSizeValue(name) == Some(index)
    ensures index == DefaultPatchSize ==> name == "128"
  {
    PatchSizeTable();
    PatchSizeValDict[index].0
  }

  /**
   * `_getCmdArgs` before the join: path, the fixed `mrc_npy` format (never
   * `_getOutputFileNameArg`), pixel size, the patch size in pixels, device,
   * and then exactly one threshold: the CNN threshold in semantic mode, the
   * distance threshold otherwise. The patch size is the one the chosen index
   * stands for, as evidently intended; the code as written passes the index
   * itself (`CmdArgListAsWritten`).
   */
  function CmdArgList(tsId: string, samplingRate: SamplingRate, p: Params): (args: seq<Arg>)
    requires ValidParams(p)
    ensures |args| == 6 && args[..5] == BaseArgs(tsId, samplingRate, PatchSizeLabel(p.patchSize))
    ensures PatchSizeValue(args[3].value.text) == Some(p.patchSize)
    ensures args[1].value == Word("mrc_npy") && args[1].value != Word(OutputFileNameArg(p.mode))
    ensures args[5] == Arg("--cnn_threshold", Fixed(p.cnnThreshold, 2)) <==> SegModeIsSemantic(p.mode)
    ensures args[5] == Arg("--dist_threshold", Fixed(p.distThreshold, 2)) <==> !SegModeIsSemantic(p.mode)
    ensures FlagCount(args, "--cnn_threshold") + FlagCount(args, "--dist_threshold") == 1
    ensures 0.0 <= args[5].value.x <= 1.0
  {
    var base := BaseArgs(tsId, samplingRate, PatchSizeLabel(p.patchSize));
    var cnn := Arg("--cnn_threshold", Fixed(p.cnnThreshold, 2));
    var dist := Arg("--dist_threshold", Fixed(p.distThreshold, 2));
    BaseFlags(tsId, samplingRate, PatchSizeLabel(p.patchSize));
    FlagCountPositions(base, "--cnn_threshold");
    FlagCountPositions(base, "--dist_threshold");
    FlagCountAppend(base, cnn, "--cnn_threshold");
    FlagCountAppend(base, cnn, "--dist_threshold");
    FlagCountAppend(base, dist, "--cnn_threshold");
    FlagCountAppend(base, dist, "--dist_threshold");
    assert "mrc_npy"[4] == 'n' && "mrc_mrc"[4] == 'm' && |"mrc_None"| == 8;
    if SegModeIsSemantic(p.mode) then base + [cnn] else base + [dist]
  }

  lemma BaseFlags(tsId: string, samplingRate: SamplingRate, patch: string)
    ensures "--cnn_threshold" != "--dist_threshold"
    ensures forall a :: a in BaseArgs(tsId, samplingRate, patch) ==>
      a.flag != "--cnn_threshold" && a.flag != "--dist_threshold"
  {
    assert "--cnn_threshold"[2] == 'c' && "--dist_threshold"[2] == 'd';
    assert "--path"[2] == 'p' && "--output_format"[2] == 'o' && "--patch_size"[2] == 'p';
    assert |"--correct_px"| == 12 && |"--device"| == 8;
  }

  /** `_getCmdArgs(tsId)`: the argument list joined by single spaces. */
  function CmdArgs(tsId: string, samplingRate: SamplingRate, p: Params, fmt: (real, nat) -> string): string
    requires ValidParams(p)
  {
    CmdLine(CmdArgList(tsId, samplingRate, p), fmt)
  }

  /**
   * The argument list as written: `--patch_size` carries the EnumParam value,
   * which is the choice index, and everything else is as intended.
   */
  function CmdArgListAsWritten(tsId: string, samplingRate: SamplingRate, p: Params): (args: seq<Arg>)
    requires ValidParams(p)
    ensures |args| == 6 && args[3] == Arg("--patch_size", Word(Text.NatText(p.patchSize)))
    ensures forall i :: 0 <= i < 6 && i != 3 ==> args[i] == CmdArgList(tsId, samplingRate, p)[i]
  {
    CmdArgList(tsId, samplingRate, p)[3 := Arg("--patch_size", Word(Text.NatText(p.patchSize)))]
  }

  /**
   * As written, the default 128 px patch is passed to TARDIS as `3`, a size
   * it does not stand for, where the intended argument is `128`.
   */
  lemma DefaultPatchArgIsIndex(tsId: string, samplingRate: SamplingRate, p: Params)
    requires ValidParams(p) && p.patchSize == DefaultPatchSize
    ensures CmdArgListAsWritten(tsId, samplingRate, p)[3] == Arg("--patch_size", Word("3"))
    ensures PatchSizeValue("3") == None
    ensures CmdArgList(tsId, samplingRate, p)[3] == Arg("--patch_size", Word("128"))
  {
    assert Text.NatText(3) == "3";
    PatchSizeTable();
    assert forall i :: 0 <= i < |PatchSizeValDict| ==> PatchSizeValDict[i].0 != "3" by {
      assert |"3"| == 1 && |"32"| == 2 && |"64"| == 2 && |"96"| == 2;
      assert |"128"| == 3 && |"256"| == 3 && |"512"| == 3;
    }
  }

  /** The mask `_createInstanceOutput` appends (its file name comes from a helper this revision lacks). */
  datatype BaseMask = BaseMask(tsId: string, volName: string, samplingRate: SamplingRate)

  class ProtTardisSegBase {
    const params: Params
    const inTomos: seq<Tomogram>
    const stepList: StepList<Step>

    var program: string
    var tsIds: seq<string>
    var inTomosDict: map<string, Tomogram>
    var masks: seq<BaseMask>              // the output set's contents

    constructor (params: Params, inTomos: seq<Tomogram>)
      requires ValidParams(params)
      ensures this.params == params && this.inTomos == inTomos
      ensures fresh(stepList) && stepList.steps == []
      ensures program == "" && tsIds == [] && inTomosDict == map[] && masks == []
    {
      this.params := params;
      this.inTomos := inTomos;
      stepList := new StepList();
      program := "";
      tsIds := [];
      inTomosDict := map[];
      masks := [];
    }

    /** `_initialize`: choose the program and index the input tomograms by tsId. */
    method Initialize()
      modifies this
      ensures program == ProgramFor(params.target)
      ensures tsIds == KeyOrder(inTomos) && inTomosDict == ByTsId(inTomos)
      ensures masks == old(masks)
    {
      program := ProgramFor(params.target);
      tsIds, inTomosDict := IndexByTsId(inTomos);
    }

    /** `_insertAllSteps`: the same plan as the current protocol. */
    method InsertAllSteps()
      modifies this, stepList
      ensures program == ProgramFor(params.target)
      ensures tsIds == KeyOrder(inTomos) && inTomosDict == ByTsId(inTomos)
      ensures stepList.steps == old(stepList.steps) + SegPlan(tsIds, |old(stepList.steps)|)
      ensures masks == old(masks)
    {
      Initialize();
      InsertSegPlan(stepList, tsIds);
    }

    /** `_createSemanticOutput`: does nothing. */
    method CreateSemanticOutput(tsId: string)
      ensures masks == old(masks)
    {
    }

    /** `_createInstanceOutput`: append one mask for `tsId`, copying its input's information. */
    method CreateInstanceOutput(tsId: string)
      requires tsId in inTomosDict
      modifies this
      ensures inTomosDict == old(inTomosDict) && tsIds == old(tsIds) && program == old(program)
      ensures masks == old(masks) + [BaseMask(tsId, inTomosDict[tsId].fileName, inTomosDict[tsId].samplingRate)]
    {
      var inTomo := inTomosDict[tsId];
      masks := masks + [BaseMask(tsId, inTomo.fileName, inTomo.samplingRate)];
    }

    /** `createOutputStep`: semantic mode adds nothing; instance mode adds one mask for `tsId`. */
    method CreateOutputStep(tsId: string)
      requires tsId in inTomosDict
      modifies this
      ensures inTomosDict == old(inTomosDict) && tsIds == old(tsIds) && program == old(program)
      ensures SegModeIsSemantic(params.mode) ==> masks == old(masks)
      ensures !SegModeIsSemantic(params.mode) ==>
        masks == old(masks) + [BaseMask(tsId, inTomosDict[tsId].fileName, inTomosDict[tsId].samplingRate)]
    {
      if SegModeIsSemantic(params.mode) {
        CreateSemanticOutput(tsId);
      } else {
        CreateInstanceOutput(tsId);
      }
    }
  }
}
