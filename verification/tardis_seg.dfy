/**
 * The current segmentation protocol, `ProtTardisSeg` in
 * `protocol_tardis_seg.py`: semantic masks, instance meshes or both, for
 * membranes or microtubules, one tomogram per pair of steps.
 */
module TardisSeg {
  import opened Wrappers
  import opened Host
  import opened Tomo
  import opened Common
  import Paths
  import Plugin
  import Text

  /** `TardisSegModes`: instances = 0, semantic = 1, both = 2. */
  datatype SegMode = Instances | Semantic | Both

  /** The protocol's form values. */
  datatype Params = Params(target: Target, mode: SegMode, cnnThreshold: real, distThreshold: real, boxSize: int)

  /**
   * The `GE(0)` / `LE(1)` validators, checked by the host before any step
   * runs on the thresholds the form shows: the cnn threshold in semantic and
   * both modes, the distance threshold in instances and both modes.
   */
  predicate ValidThresholds(p: Params) {
    && (p.mode != Instances ==> 0.0 <= p.cnnThreshold <= 1.0)
    && (p.mode != Semantic ==> 0.0 <= p.distThreshold <= 1.0)
  }

  /** The first (semantic mask) channel of the output format. */
  function SemanticChannel(mode: SegMode): string {
    if mode == Instances then "None" else "mrc"
  }

  /** The second (instance coordinates) channel of the output format. */
  function InstanceChannel(mode: SegMode): string {
    if mode == Semantic then "None" else "csv"
  }

  /**
   * `_getOutputFormatArg`: `<semantic>_<instances>`, where a channel the mode
   * does not produce is the literal `None`.
   */
  function OutputFormatArg(mode: SegMode): (fmt: string)
    ensures fmt == SemanticChannel(mode) + "_" + InstanceChannel(mode)
  {
    match mode
    case Both => "mrc_csv"
    case Semantic => "mrc_None"
    case Instances => "None_csv"
  }

  /** The four arguments every call starts with. */
  function BaseArgs(tsId: string, samplingRate: SamplingRate, mode: SegMode): seq<Arg> {
    [ Arg("--path", Word(tsId + ".mrc")),
      Arg("--output_format", Word(OutputFormatArg(mode))),
      Arg("--correct_px", Fixed(samplingRate, 3)),
      Arg("--device", Word("gpu")) ]
  }

  /**
   * `_getCmdArgs` before the final join: the base arguments, then the CNN
   * threshold when a semantic mask is asked for and the distance threshold
   * when instances are asked for, in that order, and nothing else.
   */
  function CmdArgList(tsId: string, samplingRate: SamplingRate, p: Params): (args: seq<Arg>)
    requires ValidThresholds(p)
    ensures |args| >= 5 && args[..4] == BaseArgs(tsId, samplingRate, p.mode)
    ensures FlagCount(args, "--cnn_threshold") == (if p.mode == Instances then 0 else 1)
    ensures FlagCount(args, "--dist_threshold") == (if p.mode == Semantic then 0 else 1)
    ensures forall i :: 4 <= i < |args| ==>
      || args[i] == Arg("--cnn_threshold", Fixed(p.cnnThreshold, 2))
      || args[i] == Arg("--dist_threshold", Fixed(p.distThreshold, 2))
    ensures p.mode == Both ==> |args| == 6 && args[4].flag == "--cnn_threshold" && args[5].flag == "--dist_threshold"
    ensures forall i :: 4 <= i < |args| ==> 0.0 <= args[i].value.x <= 1.0
  {
    var cnn := Arg("--cnn_threshold", Fixed(p.cnnThreshold, 2));
    var dist := Arg("--dist_threshold", Fixed(p.distThreshold, 2));
    var base := BaseArgs(tsId, samplingRate, p.mode);
    FlagsDiffer();
    FlagCountPositions(base, "--cnn_threshold");
    FlagCountPositions(base, "--dist_threshold");
    FlagCountAppend(base, cnn, "--cnn_threshold");
    FlagCountAppend(base, cnn, "--dist_threshold");
    FlagCountAppend(base, dist, "--cnn_threshold");
    FlagCountAppend(base, dist, "--dist_threshold");
    FlagCountAppend(base + [cnn], dist, "--cnn_threshold");
    FlagCountAppend(base + [cnn], dist, "--dist_threshold");
    assert base + [cnn] + [dist] == base + [cnn, dist];
    match p.mode
    case Both => base + [cnn, dist]
    case Semantic => base + [cnn]
    case Instances => base + [dist]
  }

  lemma FlagsDiffer()
    ensures "--cnn_threshold" != "--dist_threshold"
    ensures "--path" != "--cnn_threshold" && "--path" != "--dist_threshold"
    ensures "--output_format" != "--cnn_threshold" && "--output_format" != "--dist_threshold"
    ensures "--correct_px" != "--cnn_threshold" && "--correct_px" != "--dist_threshold"
    ensures "--device" != "--cnn_threshold" && "--device" != "--dist_threshold"
  {
    assert "--cnn_threshold"[2] == 'c' && "--dist_threshold"[2] == 'd';
    assert "--path"[2] == 'p' && "--output_format"[2] == 'o';
    assert |"--correct_px"| == 12 && |"--device"| == 8;
  }

  /** `_getCmdArgs(tsId)`: the argument list joined by single spaces. */
  function CmdArgs(tsId: string, samplingRate: SamplingRate, p: Params, fmt: (real, nat) -> string): string
    requires ValidThresholds(p)
  {
    CmdLine(CmdArgList(tsId, samplingRate, p), fmt)
  }

  /** The threshold elements of the argument list, as text, in the order the mode adds them. */
  function ThresholdTexts(p: Params, fmt: (real, nat) -> string): seq<string> {
    match p.mode
    case Both => ["--cnn_threshold " + fmt(p.cnnThreshold, 2), "--dist_threshold " + fmt(p.distThreshold, 2)]
    case Semantic => ["--cnn_threshold " + fmt(p.cnnThreshold, 2)]
    case Instances => ["--dist_threshold " + fmt(p.distThreshold, 2)]
  }

  /**
   * The argument string as TARDIS receives it: path, output format, pixel
   * size to three decimals and device, then the thresholds to two decimals,
   * joined by single spaces.
   */
  lemma CmdArgsText(tsId: string, samplingRate: SamplingRate, p: Params, fmt: (real, nat) -> string)
    requires ValidThresholds(p)
    ensures CmdArgs(tsId, samplingRate, p, fmt)
      == Text.JoinWith(" ", [ "--path " + tsId + ".mrc",
                              "--output_format " + OutputFormatArg(p.mode),
                              "--correct_px " + fmt(samplingRate, 3),
                              "--device gpu" ] + ThresholdTexts(p, fmt))
  {
    var args := CmdArgList(tsId, samplingRate, p);
    var texts := [ "--path " + tsId + ".mrc",
                   "--output_format " + OutputFormatArg(p.mode),
                   "--correct_px " + fmt(samplingRate, 3),
                   "--device gpu" ] + ThresholdTexts(p, fmt);
    assert "--path" + " " + (tsId + ".mrc") == "--path " + tsId + ".mrc";
    assert "--output_format" + " " + OutputFormatArg(p.mode) == "--output_format " + OutputFormatArg(p.mode);
    assert "--correct_px" + " " + fmt(samplingRate, 3) == "--correct_px " + fmt(samplingRate, 3);
    assert "--device" + " " + "gpu" == "--device gpu";
    assert "--cnn_threshold" + " " + fmt(p.cnnThreshold, 2) == "--cnn_threshold " + fmt(p.cnnThreshold, 2);
    assert "--dist_threshold" + " " + fmt(p.distThreshold, 2) == "--dist_threshold " + fmt(p.distThreshold, 2);
    assert RenderAll(args, fmt) == texts;
  }

  // ------------------------------------------------------------------ paths

  /** `_getOutputFileName(tsId, suffix, ext)`: `<extra>/<tsId>/Predictions/<tsId>_<suffix>.<ext>`. */
  function OutputFileName(extra: string, tsId: string, suffix: string, ext: string): string {
    Paths.Join(Paths.ExtraPath(extra, [tsId, "Predictions"]), tsId + "_" + suffix + "." + ext)
  }

  /**
   * For a plain tsId the prediction `<tsId>_<suffix>.<ext>` sits in
   * `<extra>/<tsId>/Predictions`; masks use (`semantic`, `mrc`) and points
   * (`instances`, `csv`).
   */
  lemma OutputPaths(extra: string, tsId: string, suffix: string, ext: string)
    requires Paths.IsDir(extra) && Paths.IsName(tsId)
    ensures OutputFileName(extra, tsId, suffix, ext)
      == Text.JoinWith("/", [extra, tsId, "Predictions", tsId + "_" + suffix + "." + ext])
  {
    assert Paths.IsName("Predictions") by {
      assert forall i :: 0 <= i < |"Predictions"| ==> "Predictions"[i] != '/';
    }
    Paths.JoinAllNames(extra, [tsId, "Predictions"]);
    assert [extra] + [tsId, "Predictions"] == [extra, tsId, "Predictions"];
    var dir := Paths.ExtraPath(extra, [tsId, "Predictions"]);
    var file := tsId + "_" + suffix + "." + ext;
    assert file[0] == tsId[0];
    assert tsId[0] != '/' by { assert tsId[0] in tsId; }
    assert Paths.Join(dir, file) == dir + "/" + file;
    Text.JoinWithAppend("/", [extra, tsId, "Predictions"], file);
    assert [extra, tsId, "Predictions"] + [file] == [extra, tsId, "Predictions", file];
  }

  // ------------------------------------------------------ instance points

  /** One row of the instance table: `[groupId, x, y, z]`, coordinates in physical units. */
  datatype Row = Row(groupId: real, x: real, y: real, z: real)

  function ToPoint(tomo: Tomogram, row: Row): MeshPoint {
    var sr := tomo.samplingRate;
    MeshPoint(tomo, Trunc(row.groupId), row.x / sr, row.y / sr, row.z / sr)
  }

  /**
   * The points a table yields: one per row, in row order, grouped by the
   * truncated first column, and placed so that scaling the position back by
   * the tomogram's sampling rate gives the row's coordinates.
   */
  function MeshPointsOf(tomo: Tomogram, rows: seq<Row>): (points: seq<MeshPoint>)
    ensures |points| == |rows|
    ensures forall i :: 0 <= i < |rows| ==>
      && points[i].volume == tomo
      && points[i].groupId == Trunc(rows[i].groupId)
      && points[i].x * tomo.samplingRate == rows[i].x
      && points[i].y * tomo.samplingRate == rows[i].y
      && points[i].z * tomo.samplingRate == rows[i].z
  {
    seq(|rows|, i requires 0 <= i < |rows| => ToPoint(tomo, rows[i]))
  }

  /** Converting one more row appends its point. */
  lemma MeshPointsOfSnoc(tomo: Tomogram, rows: seq<Row>, i: nat)
    requires i < |rows|
    ensures MeshPointsOf(tomo, rows[..i + 1]) == MeshPointsOf(tomo, rows[..i]) + [ToPoint(tomo, rows[i])]
  {
    assert rows[..i + 1][..i] == rows[..i];
  }

  /** A header and the row (1, 10, 20, 30) at sampling rate 5 give one point of group 1 at (2, 4, 6). */
  lemma PointConversionExample(tomo: Tomogram)
    requires tomo.samplingRate == 5.0
    ensures MeshPointsOf(tomo, [Row(1.0, 10.0, 20.0, 30.0)]) == [MeshPoint(tomo, 1, 2.0, 4.0, 6.0)]
  {
    var p := MeshPointsOf(tomo, [Row(1.0, 10.0, 20.0, 30.0)]);
    assert p[0].groupId == 1;
  }

  /**
   * What `np.loadtxt(fnCsv, delimiter=',', skiprows=1)` returns for the data
   * rows: a two-dimensional table, except that a single data row is squeezed
   * to a one-dimensional array of its columns.
   */
  datatype Loaded = Table(rows: seq<Row>) | Flat(row: Row)

  function LoadTxt(rows: seq<Row>): Loaded {
    if |rows| == 1 then Flat(rows[0]) else Table(rows)
  }

  /**
   * The points `_addMeshPoints` obtains as written: iterating a squeezed
   * single row yields bare numbers, and `row[0]` on a number fails.
   */
  function PointsAsWritten(tomo: Tomogram, rows: seq<Row>): Option<seq<MeshPoint>> {
    match LoadTxt(rows)
    case Table(rs) => Some(MeshPointsOf(tomo, rs))
    case Flat(_) => None
  }

  /** A table with exactly one data row yields no point as written, where one point was evidently meant. */
  lemma OneRowTableFails(tomo: Tomogram, row: Row)
    ensures PointsAsWritten(tomo, [row]).None?
    ensures |MeshPointsOf(tomo, [row])| == 1
  {
  }

  /** For any other number of rows the code as written gives the intended points. */
  lemma AsWrittenAgreesOtherwise(tomo: Tomogram, rows: seq<Row>)
    requires |rows| != 1
    ensures PointsAsWritten(tomo, rows) == Some(MeshPointsOf(tomo, rows))
  {
  }

  // -------------------------------------------------------- output sets

  /** A mask of the output: the predicted file, the input it came from and its copied sampling rate. */
  datatype TomoMask = TomoMask(fileName: string, volName: string, samplingRate: SamplingRate)

  datatype StreamState = StreamOpen | StreamClosed

  /** The `segmentations` output (a SetOfTomoMasks); `reopened` counts `enableAppend` calls. */
  datatype MaskSet = MaskSet(masks: seq<TomoMask>, samplingRate: SamplingRate, stream: StreamState, reopened: nat)

  /** The `meshes` output (a SetOfMeshes). */
  datatype MeshSet = MeshSet(points: seq<MeshPoint>, boxSize: int, samplingRate: SamplingRate,
                             stream: StreamState, reopened: nat)

  class ProtTardisSeg {
    const extra: string                       // the protocol's extra directory
    const params: Params
    const inTomos: seq<Tomogram>              // the input set, in iteration order
    const inSetSamplingRate: SamplingRate     // the input set's own sampling rate
    const stepList: StepList<Step>

    var program: string
    var tsIds: seq<string>                    // keys of inTomosDict, in dict order
    var inTomosDict: map<string, Tomogram>
    var segmentations: Option<MaskSet>
    var meshes: Option<MeshSet>

    constructor (extra: string, params: Params, inTomos: seq<Tomogram>, inSetSamplingRate: SamplingRate)
      requires ValidThresholds(params)
      ensures this.extra == extra && this.params == params && this.inTomos == inTomos
      ensures this.inSetSamplingRate == inSetSamplingRate
      ensures fresh(stepList) && stepList.steps == []
      ensures program == "" && tsIds == [] && inTomosDict == map[]
      ensures segmentations == None && meshes == None
    {
      this.extra := extra;
      this.params := params;
      this.inTomos := inTomos;
      this.inSetSamplingRate := inSetSamplingRate;
      stepList := new StepList();
      program := "";
      tsIds := [];
      inTomosDict := map[];
      segmentations := None;
      meshes := None;
    }

    /** The masks appended so far. */
    function Masks(): seq<TomoMask>
      reads this
    {
      if segmentations.Some? then segmentations.value.masks else []
    }

    /** The mesh points appended so far. */
    function Points(): seq<MeshPoint>
      reads this
    {
      if meshes.Some? then meshes.value.points else []
    }

    /** `_initialize`: choose the program and index the input tomograms by tsId. */
    method Initialize()
      modifies this
      ensures program == ProgramFor(params.target)
      ensures tsIds == KeyOrder(inTomos) && inTomosDict == ByTsId(inTomos)
      ensures segmentations == old(segmentations) && meshes == old(meshes)
    {
      program := ProgramFor(params.target);
      tsIds, inTomosDict := IndexByTsId(inTomos);
    }

    /**
     * `_insertAllSteps`: initialize, then per tsId a segmentation step and an
     * output step depending on it, then the close step.
     */
    method InsertAllSteps()
      modifies this, stepList
      ensures program == ProgramFor(params.target)
      ensures tsIds == KeyOrder(inTomos) && inTomosDict == ByTsId(inTomos)
      ensures stepList.steps == old(stepList.steps) + SegPlan(tsIds, |old(stepList.steps)|)
      ensures segmentations == old(segmentations) && meshes == old(meshes)
    {
      Initialize();
      InsertSegPlan(stepList, tsIds);
    }

    /**
     * `segmentStep` (paths and calls only): create `<extra>/<tsId>`, link the
     * tomogram there as `<tsId>.mrc`, and launch the chosen program there with
     * this tomogram's arguments on GPU `'0'`.
     */
    method SegmentStep(tsId: string, host: Host, cfg: Plugin.Config, osEnv: map<string, string>,
                       fmt: (real, nat) -> string)
      requires tsId in inTomosDict && ValidThresholds(params)
      modifies host
      ensures host.effects == old(host.effects)
        + [MakePath(CurrentTomoDir(extra, tsId))]
        + [CreateLink(inTomosDict[tsId].fileName, CurrentTomoFile(extra, tsId))]
        + [RunJob(Plugin.TardisJob(cfg, osEnv, program, CmdArgs(tsId, inTomosDict[tsId].samplingRate, params, fmt),
                                   Some(CurrentTomoDir(extra, tsId)), Plugin.DefaultGpuId))]
    {
      var tomo := inTomosDict[tsId];
      var args := CmdArgs(tsId, tomo.samplingRate, params, fmt);
      StageAndLaunch(tsId, tomo.fileName, args, host, cfg, osEnv);
    }

    /** The three host requests of `segmentStep`, for a tomogram file and an argument text already built. */
    method StageAndLaunch(tsId: string, fileName: string, args: string, host: Host, cfg: Plugin.Config,
                          osEnv: map<string, string>)
      modifies host
      ensures host.effects == old(host.effects)
        + [MakePath(CurrentTomoDir(extra, tsId))]
        + [CreateLink(fileName, CurrentTomoFile(extra, tsId))]
        + [RunJob(Plugin.TardisJob(cfg, osEnv, program, args, Some(CurrentTomoDir(extra, tsId)), Plugin.DefaultGpuId))]
    {
      var tomoPath := CurrentTomoDir(extra, tsId);
      host.Record(MakePath(tomoPath));
      host.Record(CreateLink(fileName, CurrentTomoFile(extra, tsId)));
      Plugin.RunTardis(cfg, osEnv, host, program, args, Some(tomoPath), Plugin.DefaultGpuId);
    }

    /**
     * The mask set `_getOutputMaskSet` leaves: an existing set reopened for
     * appending with its masks, sampling rate and stream state kept, or a new
     * empty open set with the input set's sampling rate.
     */
    function MaskSetAfterGet(s: Option<MaskSet>): (r: MaskSet)
      ensures s.Some? ==> r.masks == s.value.masks && r.samplingRate == s.value.samplingRate
                          && r.stream == s.value.stream && r.reopened == s.value.reopened + 1
      ensures s.None? ==> r.masks == [] && r.samplingRate == inSetSamplingRate && r.stream == StreamOpen
                          && r.reopened == 0
    {
      match s
      case Some(existing) => existing.(reopened := existing.reopened + 1)
      case None => MaskSet([], inSetSamplingRate, StreamOpen, 0)
    }

    /**
     * The mesh set `_getOutputMeshes` leaves: an existing set reopened for
     * appending with its points, box size, sampling rate and stream state
     * kept, or a new empty open set with the form's box size and the input
     * set's sampling rate.
     */
    function MeshSetAfterGet(s: Option<MeshSet>): (r: MeshSet)
      ensures s.Some? ==> r.points == s.value.points && r.boxSize == s.value.boxSize
                          && r.samplingRate == s.value.samplingRate && r.stream == s.value.stream
                          && r.reopened == s.value.reopened + 1
      ensures s.None? ==> r.points == [] && r.boxSize == params.boxSize && r.samplingRate == inSetSamplingRate
                          && r.stream == StreamOpen && r.reopened == 0
    {
      match s
      case Some(existing) => existing.(reopened := existing.reopened + 1)
      case None => MeshSet([], params.boxSize, inSetSamplingRate, StreamOpen, 0)
    }

    /** `_getOutputMaskSet`: reopen the existing mask set, or create it open, with the input set's info. */
    method GetOutputMaskSet()
      modifies this
      ensures segmentations == Some(MaskSetAfterGet(old(segmentations)))
      ensures meshes == old(meshes) && program == old(program) && inTomosDict == old(inTomosDict)
      ensures tsIds == old(tsIds)
    {
      if segmentations.Some? {
        segmentations := Some(segmentations.value.(reopened := segmentations.value.reopened + 1));
      } else {
        segmentations := Some(MaskSet([], inSetSamplingRate, StreamOpen, 0));
      }
    }

    /**
     * `_getOutputMeshes`: reopen the existing mesh set, or create it open with
     * the form's box size and the input set's sampling rate.
     */
    method GetOutputMeshes()
      modifies this
      ensures meshes == Some(MeshSetAfterGet(old(meshes)))
      ensures segmentations == old(segmentations) && program == old(program) && inTomosDict == old(inTomosDict)
      ensures tsIds == old(tsIds)
    {
      if meshes.Some? {
        meshes := Some(meshes.value.(reopened := meshes.value.reopened + 1));
      } else {
        meshes := Some(MeshSet([], params.boxSize, inSetSamplingRate, StreamOpen, 0));
      }
    }

    /** The mask `_createSemanticOutput` appends for `tsId`. */
    function SemanticMask(tsId: string): TomoMask
      requires tsId in inTomosDict
      reads this
    {
      TomoMask(OutputFileName(extra, tsId, "semantic", "mrc"), inTomosDict[tsId].fileName,
               inTomosDict[tsId].samplingRate)
    }

    /** `_createSemanticOutput`: append exactly one mask, for `tsId`, to the mask set. */
    method CreateSemanticOutput(tsId: string)
      requires tsId in inTomosDict
      modifies this
      ensures meshes == old(meshes) && program == old(program) && inTomosDict == old(inTomosDict)
      ensures tsIds == old(tsIds)
      ensures segmentations == Some(MaskSetAfterGet(old(segmentations)).(masks := old(Masks()) + [SemanticMask(tsId)]))
    {
      GetOutputMaskSet();
      var outputSet := segmentations.value;
      segmentations := Some(outputSet.(masks := outputSet.masks + [SemanticMask(tsId)]));
    }

    /** The path `_addMeshPoints` reads for `tsId`. */
    function InstancesFile(tsId: string): string
      reads this
    {
      OutputFileName(extra, tsId, "instances", "csv")
    }

    /**
     * `_addMeshPoints`: read the instance table of `tsId` from `files` (the
     * data rows after the header) and append one point per row, in order. A
     * missing file raises before any point is appended. A table with a single
     * data row gives its one point here, as evidently intended; the code as
     * written fails on it (`PointsAsWritten`).
     */
    method AddMeshPoints(tsId: string, files: map<string, seq<Row>>) returns (ok: bool)
      requires tsId in inTomosDict && meshes.Some?
      modifies this
      ensures segmentations == old(segmentations) && program == old(program) && inTomosDict == old(inTomosDict)
      ensures tsIds == old(tsIds)
      ensures ok <==> InstancesFile(tsId) in files
      ensures meshes.Some?
      ensures ok ==> meshes.value == old(meshes).value.(points := old(meshes).value.points
                                        + MeshPointsOf(inTomosDict[tsId], files[InstancesFile(tsId)]))
      ensures !ok ==> meshes == old(meshes)
    {
      var tomo := inTomosDict[tsId];
      var fnCsv := InstancesFile(tsId);
      if fnCsv !in files {
        return false;
      }
      var rows := files[fnCsv];
      var added: seq<MeshPoint> := [];
      var i := 0;
      while i < |rows|
        modifies {}
        invariant 0 <= i <= |rows|
        invariant added == MeshPointsOf(tomo, rows[..i])
      {
        MeshPointsOfSnoc(tomo, rows, i);
        added := added + [ToPoint(tomo, rows[i])];
        i := i + 1;
      }
      assert rows[..i] == rows;
      meshes := Some(meshes.value.(points := meshes.value.points + added));
      ok := true;
    }

    /** The points `_addMeshPoints` adds for `tsId`: those of its table, or none when the table is missing. */
    function InstancePoints(tsId: string, files: map<string, seq<Row>>): seq<MeshPoint>
      requires tsId in inTomosDict
      reads this
    {
      if InstancesFile(tsId) in files then MeshPointsOf(inTomosDict[tsId], files[InstancesFile(tsId)]) else []
    }

    /** `_createInstanceOutput`: get or create the mesh set, then add the points of `tsId`. */
    method CreateInstanceOutput(tsId: string, files: map<string, seq<Row>>) returns (ok: bool)
      requires tsId in inTomosDict
      modifies this
      ensures segmentations == old(segmentations) && program == old(program) && inTomosDict == old(inTomosDict)
      ensures tsIds == old(tsIds)
      ensures ok <==> InstancesFile(tsId) in files
      ensures meshes == Some(MeshSetAfterGet(old(meshes)).(points := old(Points()) + InstancePoints(tsId, files)))
    {
      ghost var reopened := MeshSetAfterGet(meshes);
      GetOutputMeshes();
      assert reopened.points == old(Points());
      ok := AddMeshPoints(tsId, files);
      if !ok {
        assert reopened.(points := old(Points()) + []) == reopened;
      }
    }

    /**
     * `createOutputStep`: `both` builds the mask and then the points,
     * `semantic` only the mask, `instances` only the points.
     */
    method CreateOutputStep(tsId: string, files: map<string, seq<Row>>) returns (ok: bool)
      requires tsId in inTomosDict
      modifies this
      ensures program == old(program) && inTomosDict == old(inTomosDict) && tsIds == old(tsIds)
      ensures segmentations == if params.mode == Instances then old(segmentations)
        else Some(MaskSetAfterGet(old(segmentations)).(masks := old(Masks()) + [SemanticMask(tsId)]))
      ensures meshes == if params.mode == Semantic then old(meshes)
        else Some(MeshSetAfterGet(old(meshes)).(points := old(Points()) + InstancePoints(tsId, files)))
      ensures ok <==> params.mode == Semantic || InstancesFile(tsId) in files
    {
      match params.mode
      case Both =>
        CreateSemanticOutput(tsId);
        ok := CreateInstanceOutput(tsId, files);
      case Semantic =>
        CreateSemanticOutput(tsId);
        ok := true;
      case Instances =>
        ok := CreateInstanceOutput(tsId, files);
    }
  }
}
