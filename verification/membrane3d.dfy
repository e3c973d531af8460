/**
 * `ProtTardisMembrans3d` (`protocol_membrane_prediction3D.py`): one TARDIS
 * run per tomogram with a hand-built argument string, and an instance output
 * read from the CSV tables TARDIS leaves under `Predictions`.
 */
module Membrane3D {
  import opened Wrappers
  import opened Host
  import opened Tomo
  import Common
  import Paths
  import Plugin
  import Text
  import TardisSeg

  /** The EnumParam values of `typeOfSegmentation` and `whatSegment`. */
  const InstanceSegmentation: int := 0
  const SemanticSegmentation: int := 1
  const MembraneSegmentation: int := 0
  const MicrotubuleSegmentation: int := 1

  /** The mesh box size `createOutputStep` sets. */
  const MeshBoxSize: int := 10

  /** The steps this protocol inserts. */
  datatype Step = SegmentStep(tomId: string) | CreateOutputStep

  /** One segmentation step per tomogram, in set order, without removing repeated tsIds. */
  function SegmentSteps(tomos: seq<Tomogram>): seq<Insertion<Step>>
    decreases |tomos|
  {
    if tomos == [] then []
    else
      var n := |tomos| - 1;
      SegmentSteps(tomos[..n]) + [Insertion(SegmentStep(tomos[n].tsId), HostDefault, None)]
  }

  /** `_insertAllSteps`: the segmentation steps, then the output step; all with the host's default prerequisites and GPU setting. */
  function Plan(tomos: seq<Tomogram>): seq<Insertion<Step>> {
    SegmentSteps(tomos) + [Insertion(CreateOutputStep, HostDefault, None)]
  }

  /** The plan has one segmentation step per input tomogram, at its position, and ends with the output step. */
  lemma PlanShape(tomos: seq<Tomogram>)
    ensures |Plan(tomos)| == |tomos| + 1
    ensures forall i :: 0 <= i < |tomos| ==>
      Plan(tomos)[i] == Insertion(SegmentStep(tomos[i].tsId), HostDefault, None)
    ensures Plan(tomos)[|tomos|] == Insertion(CreateOutputStep, HostDefault, None)
  {
    SegmentStepsShape(tomos);
  }

  lemma {:induction false} SegmentStepsShape(tomos: seq<Tomogram>)
    ensures |SegmentSteps(tomos)| == |tomos|
    ensures forall i :: 0 <= i < |tomos| ==>
      SegmentSteps(tomos)[i] == Insertion(SegmentStep(tomos[i].tsId), HostDefault, None)
    decreases |tomos|
  {
    if tomos != [] {
      var n := |tomos| - 1;
      SegmentStepsShape(tomos[..n]);
      forall i | 0 <= i < n ensures tomos[..n][i] == tomos[i] { }
    }
  }

  /** The first tomogram of `tomos` whose tsId is `tsId` (the set lookup `inputData[{'_tsId': tomId}]`). */
  function FindTomo(tomos: seq<Tomogram>, tsId: string): (r: Option<Tomogram>)
    ensures r.Some? ==> r.value in tomos && r.value.tsId == tsId
    ensures r.None? <==> forall t :: t in tomos ==> t.tsId != tsId
    decreases |tomos|
  {
    if tomos == [] then None
    else if tomos[0].tsId == tsId then Some(tomos[0])
    else FindTomo(tomos[1..], tsId)
  }

  /** The output format chosen by the segmentation type: `mrc_csv` for both values; any other value leaves it unbound. */
  function OutFileName(segType: int): (r: Option<string>)
    ensures r.Some? <==> segType == InstanceSegmentation || segType == SemanticSegmentation
    ensures r.Some? ==> r.value == "mrc_csv"
  {
    if segType == InstanceSegmentation then Some("mrc_csv")
    else if segType == SemanticSegmentation then Some("mrc_csv")
    else None
  }

  /** The program chosen by the segmentation target: the current protocol's choice for 0 and 1, nothing otherwise. */
  function ProgramOf(whatSegment: int): (r: Option<string>)
    ensures whatSegment == MembraneSegmentation ==> r == Some(Common.ProgramFor(Common.Membranes))
    ensures whatSegment == MicrotubuleSegmentation ==> r == Some(Common.ProgramFor(Common.Microtubules))
    ensures r.None? <==> whatSegment != MembraneSegmentation && whatSegment != MicrotubuleSegmentation
  {
    if whatSegment == MembraneSegmentation then Some("tardis_mem")
    else if whatSegment == MicrotubuleSegmentation then Some("tardis_mt")
    else None
  }

  /**
   * The four pieces `segmentStep` appends to `args`, in order; `fmt(x, 6)`
   * stands for `'%f' % x`.
   */
  function ArgFragments(tomId: string, samplingRate: SamplingRate, dt: real, fmt: (real, nat) -> string): seq<string> {
    [ " -dir " + tomId + ".mrc -out " + "mrc_csv" + " ",
      " -px " + fmt(samplingRate, 6) + " ",
      " -dt " + fmt(dt, 6) + " ",
      " -dv gpu " ]
  }

  /** The argument string of `segmentStep`. */
  function SegmentArgs(tomId: string, samplingRate: SamplingRate, dt: real, fmt: (real, nat) -> string): string {
    Text.Concat(ArgFragments(tomId, samplingRate, dt, fmt))
  }

  /**
   * The argument string is the four pieces back to back: input file and
   * `mrc_csv`, the set's pixel size, the distance threshold (passed whatever
   * the segmentation type) and the GPU device.
   */
  lemma {:induction false} SegmentArgsText(tomId: string, samplingRate: SamplingRate, dt: real, fmt: (real, nat) -> string)
    ensures var f := ArgFragments(tomId, samplingRate, dt, fmt);
      SegmentArgs(tomId, samplingRate, dt, fmt) == f[0] + f[1] + f[2] + f[3]
  {
    var f := ArgFragments(tomId, samplingRate, dt, fmt);
    Text.ConcatAppend([], f[0]);
    assert f[..1] == [] + [f[0]];
    Text.ConcatAppend(f[..1], f[1]);
    assert f[..2] == f[..1] + [f[1]];
    Text.ConcatAppend(f[..2], f[2]);
    assert f[..3] == f[..2] + [f[2]];
    Text.ConcatAppend(f[..3], f[3]);
    assert f == f[..3] + [f[3]];
  }

  /** `int(float(m))`, `float(z)`, `float(y)`, `float(x)` all succeed on the unpacked row `m, z, y, x`. */
  predicate GoodRow(row: seq<string>, parse: string -> Option<real>) {
    |row| == 4 && parse(row[0]).Some? && parse(row[1]).Some? && parse(row[2]).Some? && parse(row[3]).Some?
  }

  /**
   * The point `addMeshPoints` makes from one CSV row: the group id is the
   * truncated first column, and the position keeps the file's column order,
   * each coordinate divided by the set's sampling rate.
   */
  function RowPoint(tomo: Tomogram, row: seq<string>, sampling: SamplingRate, parse: string -> Option<real>): (p: MeshPoint)
    requires GoodRow(row, parse)
    ensures p.volume == tomo && p.groupId == Trunc(parse(row[0]).value)
    ensures p.x * sampling == parse(row[1]).value
    ensures p.y * sampling == parse(row[2]).value
    ensures p.z * sampling == parse(row[3]).value
  {
    MeshPoint(tomo, Trunc(parse(row[0]).value),
              parse(row[1]).value / sampling, parse(row[2]).value / sampling, parse(row[3]).value / sampling)
  }

  /**
   * With the tomogram's own sampling rate, a parsed row gives the same point
   * as the current protocol's conversion of the row (group, first, second,
   * third column).
   */
  lemma RowPointAgrees(tomo: Tomogram, row: seq<string>, parse: string -> Option<real>)
    requires GoodRow(row, parse)
    ensures RowPoint(tomo, row, tomo.samplingRate, parse)
      == TardisSeg.ToPoint(tomo, TardisSeg.Row(parse(row[0]).value, parse(row[1]).value,
                                               parse(row[2]).value, parse(row[3]).value))
  {
  }

  /** The points of a whole table, in row order, or nothing when some row does not convert. */
  function RowsPoints(tomo: Tomogram, rows: seq<seq<string>>, sampling: SamplingRate,
                      parse: string -> Option<real>): Option<seq<MeshPoint>>
    decreases |rows|
  {
    if rows == [] then Some([])
    else
      var n := |rows| - 1;
      var prev := RowsPoints(tomo, rows[..n], sampling, parse);
      if prev.None? || !GoodRow(rows[n], parse) then None
      else Some(prev.value + [RowPoint(tomo, rows[n], sampling, parse)])
  }

  /** A table converts exactly when every row does, and then gives one point per row, in row order. */
  lemma {:induction false} RowsPointsShape(tomo: Tomogram, rows: seq<seq<string>>, sampling: SamplingRate,
                                          parse: string -> Option<real>)
    ensures RowsPoints(tomo, rows, sampling, parse).Some? <==> forall i :: 0 <= i < |rows| ==> GoodRow(rows[i], parse)
    ensures RowsPoints(tomo, rows, sampling, parse).Some? ==>
      && |RowsPoints(tomo, rows, sampling, parse).value| == |rows|
      && forall i :: 0 <= i < |rows| ==>
           GoodRow(rows[i], parse) && RowsPoints(tomo, rows, sampling, parse).value[i] == RowPoint(tomo, rows[i], sampling, parse)
    decreases |rows|
  {
    if rows != [] {
      var n := |rows| - 1;
      RowsPointsShape(tomo, rows[..n], sampling, parse);
      assert forall i :: 0 <= i < n ==> rows[..n][i] == rows[i];
    }
  }

  /**
   * `readCSVinstances`: the rows of the table at `fnCsv` after the first
   * (header) row, unchanged and in file order; a missing file or a file
   * without even a header row raises, modelled as nothing.
   */
  method ReadCSVInstances(fnCsv: string, files: map<string, seq<seq<string>>>) returns (coords: Option<seq<seq<string>>>)
    ensures coords.None? <==> fnCsv !in files || files[fnCsv] == []
    ensures coords.Some? ==> coords.value == files[fnCsv][1..]
  {
    if fnCsv !in files || files[fnCsv] == [] {
      return None;
    }
    var csvFile := files[fnCsv];
    var acc: seq<seq<string>> := [];
    var i := 1;
    while i < |csvFile|
      invariant 1 <= i <= |csvFile|
      invariant acc == csvFile[1..i]
    {
      acc := acc + [csvFile[i]];
      i := i + 1;
    }
    return Some(acc);
  }

  /**
   * `addMeshPoints`: convert the rows in order, one point per row, and stop
   * at the first row that does not unpack into four numbers; `points` are
   * those appended to the mesh, `ok` says whether every row converted.
   */
  method AddMeshPoints(tomogram: Tomogram, coordinates: seq<seq<string>>, sampling: SamplingRate,
                       parse: string -> Option<real>)
    returns (points: seq<MeshPoint>, ok: bool)
    ensures |points| <= |coordinates|
    ensures forall i :: 0 <= i < |points| ==>
      GoodRow(coordinates[i], parse) && points[i] == RowPoint(tomogram, coordinates[i], sampling, parse)
    ensures ok <==> |points| == |coordinates|
    ensures !ok ==> !GoodRow(coordinates[|points|], parse)
    ensures ok <==> RowsPoints(tomogram, coordinates, sampling, parse).Some?
    ensures ok ==> RowsPoints(tomogram, coordinates, sampling, parse) == Some(points)
  {
    points := [];
    var i := 0;
    while i < |coordinates|
      invariant 0 <= i <= |coordinates| && |points| == i
      invariant RowsPoints(tomogram, coordinates[..i], sampling, parse) == Some(points)
      invariant forall j :: 0 <= j < i ==>
        GoodRow(coordinates[j], parse) && points[j] == RowPoint(tomogram, coordinates[j], sampling, parse)
    {
      if !GoodRow(coordinates[i], parse) {
        RowsPointsShape(tomogram, coordinates, sampling, parse);
        return points, false;
      }
      assert coordinates[..i + 1][..i] == coordinates[..i];
      points := points + [RowPoint(tomogram, coordinates[i], sampling, parse)];
      i := i + 1;
    }
    assert coordinates[..i] == coordinates;
    ok := true;
  }

  /** `_getExtraPath(tsId, 'Predictions', tsId + '_instances.csv')`. */
  function InstancesCsv(extra: string, tsId: string): string {
    Paths.ExtraPath(extra, [tsId, "Predictions", tsId + "_instances.csv"])
  }

  /** The table is the one the current protocol reads for the same tsId. */
  lemma InstancesCsvSameFile(extra: string, tsId: string)
    ensures InstancesCsv(extra, tsId) == TardisSeg.OutputFileName(extra, tsId, "instances", "csv")
  {
    var file := tsId + "_instances.csv";
    assert tsId + "_" + "instances" + "." + "csv" == file;
    assert [tsId, "Predictions", file] == [tsId, "Predictions"] + [file];
    Paths.JoinAllSnoc(extra, [tsId, "Predictions"], file);
  }

  /**
   * The points of the instance branch of `createOutputStep` over `tomos`, in
   * set order and row order, or nothing when a table is missing, empty or
   * has a row that does not convert.
   */
  function InstanceOutcome(extra: string, tomos: seq<Tomogram>, files: map<string, seq<seq<string>>>,
                           sampling: SamplingRate, parse: string -> Option<real>): Option<seq<MeshPoint>>
    decreases |tomos|
  {
    if tomos == [] then Some([])
    else
      var n := |tomos| - 1;
      var prev := InstanceOutcome(extra, tomos[..n], files, sampling, parse);
      var here := TableOutcome(extra, tomos[n], files, sampling, parse);
      if prev.None? || here.None? then None else Some(prev.value + here.value)
  }

  /** The points one tomogram's table gives: nothing when it is missing, has no header or has a bad row. */
  function TableOutcome(extra: string, tomo: Tomogram, files: map<string, seq<seq<string>>>,
                        sampling: SamplingRate, parse: string -> Option<real>): Option<seq<MeshPoint>>
  {
    var fnCsv := InstancesCsv(extra, tomo.tsId);
    if fnCsv !in files || files[fnCsv] == [] then None
    else RowsPoints(tomo, files[fnCsv][1..], sampling, parse)
  }

  /** One pass of the output loop: read the tomogram's table, then convert its rows. */
  method ReadTomogramPoints(extra: string, tomo: Tomogram, files: map<string, seq<seq<string>>>,
                            sampling: SamplingRate, parse: string -> Option<real>)
    returns (pts: Option<seq<MeshPoint>>)
    ensures pts == TableOutcome(extra, tomo, files, sampling, parse)
  {
    var fnCsv := InstancesCsv(extra, tomo.tsId);
    var coordinates := ReadCSVInstances(fnCsv, files);
    if coordinates.None? {
      return None;
    }
    var points, good := AddMeshPoints(tomo, coordinates.value, sampling, parse);
    if !good {
      return None;
    }
    return Some(points);
  }

  /** The tomogram's table is present, has a header, and has only rows that convert. */
  predicate TableGood(extra: string, tomo: Tomogram, files: map<string, seq<seq<string>>>,
                      parse: string -> Option<real>)
  {
    var fnCsv := InstancesCsv(extra, tomo.tsId);
    && fnCsv in files && files[fnCsv] != []
    && forall j :: 1 <= j < |files[fnCsv]| ==> GoodRow(files[fnCsv][j], parse)
  }

  /** A table is good exactly when it is present with a header and its data rows convert. */
  lemma TableGoodIff(extra: string, tomo: Tomogram, files: map<string, seq<seq<string>>>,
                     sampling: SamplingRate, parse: string -> Option<real>)
    ensures TableGood(extra, tomo, files, parse) <==> TableOutcome(extra, tomo, files, sampling, parse).Some?
  {
    var fnCsv := InstancesCsv(extra, tomo.tsId);
    if fnCsv in files && files[fnCsv] != [] {
      var rows := files[fnCsv][1..];
      RowsPointsShape(tomo, rows, sampling, parse);
      assert forall j :: 0 <= j < |rows| ==> rows[j] == files[fnCsv][j + 1];
      if !TableGood(extra, tomo, files, parse) {
        var j :| 1 <= j < |files[fnCsv]| && !GoodRow(files[fnCsv][j], parse);
        assert rows[j - 1] == files[fnCsv][j];
      }
    }
  }

  /** Every tomogram of the set has a good table. */
  predicate AllTablesGood(extra: string, tomos: seq<Tomogram>, files: map<string, seq<seq<string>>>,
                          parse: string -> Option<real>)
  {
    forall i :: 0 <= i < |tomos| ==> TableGood(extra, tomos[i], files, parse)
  }

  /** All tables are good exactly when those of the first tomograms are and the last one is. */
  lemma AllTablesGoodSnoc(extra: string, tomos: seq<Tomogram>, files: map<string, seq<seq<string>>>,
                          parse: string -> Option<real>)
    requires tomos != []
    ensures AllTablesGood(extra, tomos, files, parse) <==>
      AllTablesGood(extra, tomos[..|tomos| - 1], files, parse) && TableGood(extra, tomos[|tomos| - 1], files, parse)
  {
    var n := |tomos| - 1;
    var init := tomos[..n];
    var good := (t: Tomogram) => TableGood(extra, t, files, parse);
    AllSnoc(tomos, good);
    assert AllTablesGood(extra, init, files, parse) <==> forall i :: 0 <= i < n ==> good(tomos[i]) by {
      assert forall i :: 0 <= i < n ==> init[i] == tomos[i];
    }
  }

  /** A property holds of every element exactly when it holds of all but the last and of the last. */
  lemma AllSnoc<T>(s: seq<T>, p: T -> bool)
    requires s != []
    ensures (forall i :: 0 <= i < |s| ==> p(s[i])) <==> (forall i :: 0 <= i < |s| - 1 ==> p(s[i])) && p(s[|s| - 1])
  {
  }

  /** The instance output is produced exactly when every tomogram's table is good. */
  lemma {:induction false} InstanceOutcomeIff(extra: string, tomos: seq<Tomogram>, files: map<string, seq<seq<string>>>,
                                             sampling: SamplingRate, parse: string -> Option<real>)
    ensures InstanceOutcome(extra, tomos, files, sampling, parse).Some? <==> AllTablesGood(extra, tomos, files, parse)
    decreases |tomos|
  {
    if tomos != [] {
      InstanceOutcomeIff(extra, tomos[..|tomos| - 1], files, sampling, parse);
      InstanceOutcomeStep(extra, tomos, files, sampling, parse);
      AllTablesGoodSnoc(extra, tomos, files, parse);
    }
  }

  /** One more tomogram: the output is produced when it was for the others and this table is good. */
  lemma InstanceOutcomeStep(extra: string, tomos: seq<Tomogram>, files: map<string, seq<seq<string>>>,
                            sampling: SamplingRate, parse: string -> Option<real>)
    requires tomos != []
    ensures InstanceOutcome(extra, tomos, files, sampling, parse).Some? <==>
      InstanceOutcome(extra, tomos[..|tomos| - 1], files, sampling, parse).Some?
      && TableGood(extra, tomos[|tomos| - 1], files, parse)
  {
    TableGoodIff(extra, tomos[|tomos| - 1], files, sampling, parse);
  }

  /** Every point of the instance output belongs to one of the input tomograms. */
  lemma {:induction false} InstanceOutcomeVolumes(extra: string, tomos: seq<Tomogram>, files: map<string, seq<seq<string>>>,
                                                 sampling: SamplingRate, parse: string -> Option<real>)
    requires InstanceOutcome(extra, tomos, files, sampling, parse).Some?
    ensures forall p :: p in InstanceOutcome(extra, tomos, files, sampling, parse).value ==> p.volume in tomos
    decreases |tomos|
  {
    if tomos != [] {
      var n := |tomos| - 1;
      var prev := InstanceOutcome(extra, tomos[..n], files, sampling, parse);
      InstanceOutcomeVolumes(extra, tomos[..n], files, sampling, parse);
      var fnCsv := InstancesCsv(extra, tomos[n].tsId);
      var pts := TableOutcome(extra, tomos[n], files, sampling, parse).value;
      RowsPointsShape(tomos[n], files[fnCsv][1..], sampling, parse);
      assert InstanceOutcome(extra, tomos, files, sampling, parse).value == prev.value + pts;
      forall p | p in prev.value + pts ensures p.volume in tomos {
        if p in prev.value {
          assert p.volume in tomos[..n];
        }
      }
    }
  }

  /** Once a prefix of the tomograms fails, the whole instance output fails. */
  lemma {:induction false} InstanceOutcomeFailsLater(extra: string, tomos: seq<Tomogram>, k: nat,
                                                   files: map<string, seq<seq<string>>>,
                                                   sampling: SamplingRate, parse: string -> Option<real>)
    requires k <= |tomos|
    requires InstanceOutcome(extra, tomos[..k], files, sampling, parse).None?
    ensures InstanceOutcome(extra, tomos, files, sampling, parse).None?
    decreases |tomos| - k
  {
    if k < |tomos| {
      assert tomos[..k + 1][..k] == tomos[..k];
      InstanceOutcomeFailsLater(extra, tomos, k + 1, files, sampling, parse);
    } else {
      assert tomos[..k] == tomos;
    }
  }

  class ProtTardisMembrans3d {
    const extra: string                       // the protocol's extra directory
    const inTomos: seq<Tomogram>              // the input set, in iteration order
    const samplingRate: SamplingRate          // the input set's sampling rate
    const whatSegment: int
    const typeOfSegmentation: int
    const dt: real
    const stepList: StepList<Step>

    var meshes: Option<TardisSeg.MeshSet>     // the `meshes` output, once defined

    constructor (extra: string, inTomos: seq<Tomogram>, samplingRate: SamplingRate,
                 whatSegment: int, typeOfSegmentation: int, dt: real)
      ensures this.extra == extra && this.inTomos == inTomos && this.samplingRate == samplingRate
      ensures this.whatSegment == whatSegment && this.typeOfSegmentation == typeOfSegmentation && this.dt == dt
      ensures fresh(stepList) && stepList.steps == [] && meshes == None
    {
      this.extra := extra;
      this.inTomos := inTomos;
      this.samplingRate := samplingRate;
      this.whatSegment := whatSegment;
      this.typeOfSegmentation := typeOfSegmentation;
      this.dt := dt;
      stepList := new StepList();
      meshes := None;
    }

    /** `_insertAllSteps`. */
    method InsertAllSteps()
      modifies stepList
      ensures stepList.steps == old(stepList.steps) + Plan(inTomos)
    {
      ghost var start := stepList.steps;
      var i := 0;
      while i < |inTomos|
        invariant 0 <= i <= |inTomos|
        invariant stepList.steps == start + SegmentSteps(inTomos[..i])
      {
        var tomId := inTomos[i].tsId;
        var _ := stepList.Insert(Step.SegmentStep(tomId), HostDefault, None);
        assert inTomos[..i + 1][..i] == inTomos[..i];
        i := i + 1;
      }
      assert inTomos[..i] == inTomos;
      var _ := stepList.Insert(Step.CreateOutputStep, HostDefault, None);
    }

    /**
     * What `setupFolderStep` asks of the host for one tomogram: its working
     * directory, then, when the set holds that tomogram, its file copied in.
     */
    function SetupEffects(tomId: string): seq<Effect> {
      var dir := Common.CurrentTomoDir(extra, tomId);
      match FindTomo(inTomos, tomId)
      case None => [MakePath(dir)]
      case Some(tomo) => [MakePath(dir), CopyFile(tomo.fileName, Common.CurrentTomoFile(extra, tomId))]
    }

    /**
     * `setupFolderStep`: create `<extra>/<tomId>`, look the tomogram up in the
     * set and copy its file there as `<tomId>.mrc`; the lookup failing raises,
     * after the folder exists.
     */
    method SetupFolderStep(tomId: string, host: Host) returns (tomoPath: Option<string>)
      modifies host
      ensures host.effects == old(host.effects) + SetupEffects(tomId)
      ensures tomoPath.None? <==> FindTomo(inTomos, tomId).None?
      ensures tomoPath.Some? ==> tomoPath.value == Common.CurrentTomoDir(extra, tomId)
    {
      var path := Paths.ExtraPath(extra, [tomId]);
      host.Record(MakePath(path));
      var tomo := FindTomo(inTomos, tomId);
      if tomo.None? {
        return None;
      }
      var dst := Paths.Join(path, tomId + ".mrc");
      host.Record(CopyFile(tomo.value.fileName, dst));
      return Some(path);
    }

    /**
     * The argument string of `segmentStep`, appended to piece by piece, for
     * the output format `outFileName` (always `mrc_csv` where it is bound).
     */
    static method BuildArgs(tomId: string, outFileName: string, samplingRate: SamplingRate, dt: real,
                            fmt: (real, nat) -> string)
      returns (args: string)
      requires outFileName == "mrc_csv"
      ensures args == SegmentArgs(tomId, samplingRate, dt, fmt)
    {
      ghost var pieces := ArgFragments(tomId, samplingRate, dt, fmt);
      var inputFilename := tomId + ".mrc";
      args := " -dir " + inputFilename + " -out " + outFileName + " ";
      assert args == "" + pieces[0];
      Text.NextFragment("", pieces, 0, args);
      args := args + " -px " + fmt(samplingRate, 6) + " ";
      Text.NextFragment("", pieces, 1, args);
      args := args + " -dt " + fmt(dt, 6) + " ";
      Text.NextFragment("", pieces, 2, args);
      args := args + " -dv gpu ";
      Text.NextFragment("", pieces, 3, args);
      assert pieces[..4] == pieces;
    }

    /**
     * `segmentStep`: stage the tomogram, then (for a known segmentation type)
     * build the argument string piece by piece and launch the program the
     * target selects in `<extra>/<tomId>`; an unknown target launches
     * nothing. `ok` is false where the source raises.
     */
    method SegmentStep(tomId: string, host: Host, cfg: Plugin.Config, osEnv: map<string, string>,
                       fmt: (real, nat) -> string)
      returns (ok: bool)
      modifies host
      ensures ok <==> FindTomo(inTomos, tomId).Some? && OutFileName(typeOfSegmentation).Some?
      ensures host.effects == old(host.effects) + SetupEffects(tomId) + (if ok then LaunchEffects(tomId, cfg, osEnv, fmt) else [])
    {
      var tomoPath := SetupFolderStep(tomId, host);
      if tomoPath.None? {
        return false;
      }
      var outFileName := OutFileName(typeOfSegmentation);
      if outFileName.None? {
        return false;
      }
      LaunchSegmentation(tomId, outFileName.value, host, cfg, osEnv, fmt);
      return true;
    }

    /**
     * What the launch half of `segmentStep` asks of the host: the TARDIS job
     * for the chosen program, run in the tomogram's folder, or nothing when
     * no program is chosen.
     */
    function LaunchEffects(tomId: string, cfg: Plugin.Config, osEnv: map<string, string>,
                           fmt: (real, nat) -> string): seq<Effect>
    {
      match ProgramOf(whatSegment)
      case None => []
      case Some(program) =>
        [RunJob(Plugin.TardisJob(cfg, osEnv, program, SegmentArgs(tomId, samplingRate, dt, fmt),
                                 Some(Common.CurrentTomoDir(extra, tomId)), Plugin.DefaultGpuId))]
    }

    /** The launch half of `segmentStep`: the chosen program, if any, runs in the tomogram's folder. */
    method LaunchSegmentation(tomId: string, outFileName: string, host: Host, cfg: Plugin.Config,
                              osEnv: map<string, string>, fmt: (real, nat) -> string)
      requires outFileName == "mrc_csv"
      modifies host
      ensures host.effects == old(host.effects) + LaunchEffects(tomId, cfg, osEnv, fmt)
    {
      var tsIdFolder := Common.CurrentTomoDir(extra, tomId);
      var args := BuildArgs(tomId, outFileName, samplingRate, dt, fmt);
      var program := ProgramOf(whatSegment);
      if program.Some? {
        Plugin.RunTardis(cfg, osEnv, host, program.value, args, Some(tsIdFolder), Plugin.DefaultGpuId);
      }
    }

    /**
     * `createOutputStep`. The semantic branch raises on names it never
     * defines, so it defines nothing here. Otherwise a new mesh set (box size
     * 10) receives, tomogram by tomogram in set order, the points of that
     * tomogram's instance table; once every table has been read the set gets
     * the input set's sampling rate, is left open and is reopened for
     * appending, and is defined as the `meshes` output. A missing or empty
     * table or a bad row raises before the output is defined.
     */
    method CreateOutputStep(files: map<string, seq<seq<string>>>, parse: string -> Option<real>)
      returns (ok: bool)
      modifies this
      ensures typeOfSegmentation == SemanticSegmentation ==> !ok && meshes == old(meshes)
      ensures typeOfSegmentation != SemanticSegmentation ==>
        (ok <==> InstanceOutcome(extra, inTomos, files, samplingRate, parse).Some?)
      ensures ok ==> meshes == Some(TardisSeg.MeshSet(InstanceOutcome(extra, inTomos, files, samplingRate, parse).value,
                                                       MeshBoxSize, samplingRate, TardisSeg.StreamOpen, 1))
      ensures !ok ==> meshes == old(meshes)
    {
      if typeOfSegmentation == SemanticSegmentation {
        return false;
      }
      var points: seq<MeshPoint> := [];
      var i := 0;
      while i < |inTomos|
        invariant 0 <= i <= |inTomos|
        modifies {}
        invariant InstanceOutcome(extra, inTomos[..i], files, samplingRate, parse) == Some(points)
      {
        assert inTomos[..i + 1][..i] == inTomos[..i];
        var pts := ReadTomogramPoints(extra, inTomos[i], files, samplingRate, parse);
        if pts.None? {
          InstanceOutcomeFailsLater(extra, inTomos, i + 1, files, samplingRate, parse);
          return false;
        }
        points := points + pts.value;
        i := i + 1;
      }
      assert inTomos[..i] == inTomos;
      meshes := Some(TardisSeg.MeshSet(points, MeshBoxSize, samplingRate, TardisSeg.StreamOpen, 1));
      ok := true;
    }
  }
}
