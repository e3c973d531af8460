# TARDIS segmentation plugin — a verified model

This project models the core of the Scipion plugin that runs TARDIS (a
deep-learning segmenter of membranes and microtubules in cryo-electron
tomograms). It covers three things:

- the `Plugin` class, which prepares the environment and the command lines
  that launch TARDIS and builds the installation command;
- the current segmentation protocol `ProtTardisSeg`
  (`protocol_tardis_seg.py`);
- two earlier revisions of that protocol: `protocol_membrane_prediction_base.py`
  and `ProtTardisMembrans3d` (`protocol_membrane_prediction3D.py`).

Each protocol model covers its step plan, its working paths, the argument
string passed to TARDIS, and how its outputs are built from the files TARDIS
writes: a mask set, and a mesh set of points read from a CSV table.

Modules, one concept each:

- `Wrappers`: `Option`.
- `Paths`: `os.path.join` and `_getExtraPath`.
- `Text`: joining and concatenating strings, and decimal digits.
- `Tomo`: tomograms, mesh points, truncation, and the tsId-keyed dictionary.
- `Host`: what the host framework does for the plugin. Effects it performs
  (make a directory, link or copy a file, run a job) are recorded in order,
  and the step list receives insertions with 1-based ids.
- `Plugin`: the plugin class.
- `Common`: what both `ProtTardisSeg` revisions share: program choice, working
  paths, argument rendering and the step plan.
- `TardisSeg`, `MembraneBase`, `Membrane3D`: the three protocols.

Three modelling conventions:

- Float-to-text conversion (`:.3f`, `:.2f`, `%f`) is a parameter
  `fmt(x, decimals)`, so every statement about argument strings holds for
  whatever the formatter prints.
- Numeric parsing of CSV fields (`float(...)`) is a parameter
  `parse: string -> Option<real>`.
- Files TARDIS writes are a map from path to parsed rows.

Where the source raises an exception, the model returns `ok == false`, or
`None`, and leaves the state as the contract says.

## Model

| member | source | states |
|---|---|---|
| Paths.Join | tardis/__init__.py:71 | an absolute second part replaces the first; after a directory name, a relative part is added after one `/`; the second part always ends the result |
| Paths.JoinAllSnoc | tardis/protocols/protocol_tardis_seg.py:241-242 | joining several parts and then one more is the same as joining that last part onto the joined result |
| Paths.JoinAllNames | tardis/protocols/protocol_tardis_seg.py:241-242 | joining plain names onto a directory lays them out after it with exactly one `/` between each two (`dir/a/b/c`), and the result is again a directory name |
| Text.JoinWithAppend | tardis/protocols/protocol_tardis_seg.py:224 | `' '.join` of one more element appends the separator and that element |
| Text.ConcatAppend | tardis/__init__.py:92-108 | concatenating one more fragment appends it to the text built so far |
| Text.NatText | tardis/protocols/protocol_membrane_prediction_base.py:236 | the text `str()` prints for a natural number: non-empty, decimal digits only, denoting exactly that number, and without a leading zero unless the number is 0 |
| Tomo.Trunc | tardis/protocols/protocol_tardis_seg.py:281 | `int()` of a float truncates toward zero: the result lies within one of the value, on the side of zero |
| Tomo.IndexByTsId | tardis/protocols/protocol_tardis_seg.py:159 | the loop builds the dictionary and its key order: keys in first-occurrence order, each mapped to the last tomogram with that tsId |
| Tomo.IndexShape | tardis/protocols/protocol_tardis_seg.py:159 | keys are distinct and are exactly the input tsIds and the dictionary's domain; each value is an input tomogram carrying its key as tsId; there are at most as many keys as tomograms |
| Tomo.IndexOfDistinct | tardis/protocols/protocol_tardis_seg.py:159 | with distinct tsIds, the keys are the tsIds in input order and every tomogram is found under its own tsId |
| Common.ProgramFor | tardis/protocols/protocol_tardis_seg.py:158 | the program is `tardis_mem` exactly for membranes and `tardis_mt` exactly for microtubules |
| Common.TomoPaths | tardis/protocols/protocol_tardis_seg.py:189-193 | the working directory is `<extra>/<tsId>` and the linked input is `<extra>/<tsId>/<tsId>.mrc` |
| Common.CmdLineAppend | tardis/protocols/protocol_tardis_seg.py:216-224 | adding one argument to the list appends a space and that argument's `flag value` text to the command line |
| Common.SegPlanShape | tardis/protocols/protocol_tardis_seg.py:144-155 | for n keys the plan has 2n+1 steps: step 2i segments key i on the GPU with no prerequisites, step 2i+1 builds its output off the GPU after step 2i, and the last step closes the outputs with the host's default prerequisites, without `closeSetDeps` |
| Common.InsertSegPlan | tardis/protocols/protocol_tardis_seg.py:145-155 | the loop appends exactly that plan to the step list |
| Plugin.TardisEnviron | tardis/__init__.py:48-56 | the launch environment has no `PYTHONPATH`, has `CUDA_VISIBLE_DEVICES` set to the GPU id, and copies every other variable of the process environment unchanged |
| Plugin.GetEnviron | tardis/__init__.py:48-56 | the copy-delete-update sequence builds exactly that environment |
| Plugin.EnvironUnique | tardis/__init__.py:48-56 | that description fixes the environment: two maps that both meet it are equal |
| Plugin.TardisJob | tardis/__init__.py:63-67 | the job passes its arguments and working directory through unchanged and runs in the environment `getEnviron` describes |
| Plugin.RunTardis | tardis/__init__.py:63-67 | exactly one job is appended and nothing earlier changes: `<conda> <tardisEnv>  && CUDA_VISIBLE_DEVICES=%(GPU)s <program> ` with those arguments, working directory and environment |
| Plugin.TardisProgram | tardis/__init__.py:69-71 | for a home directory and a plain program name the path is `<home>/bin/<program>` |
| Plugin.TardisCmd | tardis/__init__.py:119-131 | the command is ` <conda> <tardisEnv> && <home>/bin/<program>` |
| Plugin.GetDependencies | tardis/__init__.py:73-80 | `conda` is needed exactly when the conda activation command is empty, nothing else is ever needed, and the list is exactly `['conda']` or empty accordingly |
| Plugin.AddTardisPackage | tardis/__init__.py:86-117 | one command tuple: activation, `conda create -y -n <env> python=3.11 && `, `conda activate`, `git clone`, `cd TARDIS`, `pip install .`, `cd ..`, then `touch tardis_<version>_installed`, with that marker as the tuple's target; `void.tgz`, default package; the needed programs are exactly `['conda']` when the activation command is empty and none otherwise |
| Plugin.ChainSteps | tardis/__init__.py:96-106 | the six `+=` statements leave the activation command followed by the six fragments, in order |
| Plugin.InstallEndsWithMarker | tardis/__init__.py:107-110 | the installation command ends with the command that creates the package's target marker |
| TardisSeg.OutputFormatArg | tardis/protocols/protocol_tardis_seg.py:198-208 | the format is `<semantic>_<instances>`: the semantic channel is `mrc` unless the mode is instances, the instance channel is `csv` unless the mode is semantic, and an absent channel is the literal `None` |
| TardisSeg.CmdArgList | tardis/protocols/protocol_tardis_seg.py:210-223 | path, output format, this tomogram's pixel size and device come first in that order. `--cnn_threshold` appears once iff the mode is semantic or both, and `--dist_threshold` once iff the mode is instances or both. In both mode cnn precedes dist, nothing else follows, and the thresholds lie in [0, 1] |
| TardisSeg.CmdArgsText | tardis/protocols/protocol_tardis_seg.py:210-224 | the string is `--path <tsId>.mrc`, `--output_format <fmt>`, `--correct_px <sr to 3 places>`, `--device gpu` and then the thresholds to 2 places, joined by single spaces |
| TardisSeg.OutputPaths | tardis/protocols/protocol_tardis_seg.py:241-242 | for a directory and a plain tsId, an output file is `<extra>/<tsId>/Predictions/<tsId>_<suffix>.<ext>`: masks use `semantic.mrc`, points come from `instances.csv` |
| TardisSeg.MeshPointsOf | tardis/protocols/protocol_tardis_seg.py:278-291 | one point per data row, in row order, on this tomogram; the group is the truncated first column, and multiplying the position back by the tomogram's sampling rate gives columns 1 to 3 |
| TardisSeg.PointConversionExample | tardis/protocols/protocol_tardis_seg.py:280-290 | the row (1, 10, 20, 30) at sampling rate 5 gives one point of group 1 at (2, 4, 6) |
| TardisSeg.OneRowTableFails | tardis/protocols/protocol_tardis_seg.py:277-281 | as written, a table with exactly one data row yields no points, where one point is intended |
| TardisSeg.AsWrittenAgreesOtherwise | tardis/protocols/protocol_tardis_seg.py:277-278 | for any other number of data rows, the code as written yields the intended points |
| TardisSeg.ProtTardisSeg.Initialize | tardis/protocols/protocol_tardis_seg.py:157-159 | the program follows the target, and the dictionary and key order are those of the input set; the outputs are untouched |
| TardisSeg.ProtTardisSeg.InsertAllSteps | tardis/protocols/protocol_tardis_seg.py:144-155 | after initialising, the step list gains exactly the 2n+1-step plan over the dictionary's keys |
| TardisSeg.ProtTardisSeg.SegmentStep | tardis/protocols/protocol_tardis_seg.py:161-168 | three effects in order: make `<extra>/<tsId>`, link the tomogram's file to `<extra>/<tsId>/<tsId>.mrc`, run the chosen program there with this tomogram's argument string on GPU `0`; nothing earlier changes |
| TardisSeg.ProtTardisSeg.StageAndLaunch | tardis/protocols/protocol_tardis_seg.py:164-168 | the same three effects for a given file and argument string |
| TardisSeg.ProtTardisSeg.MaskSetAfterGet | tardis/protocols/protocol_tardis_seg.py:244-255 | an existing mask set keeps its masks, sampling rate and stream state and is reopened once more; with none, the set is new, empty, open, with the input set's sampling rate and no reopen |
| TardisSeg.ProtTardisSeg.GetOutputMaskSet | tardis/protocols/protocol_tardis_seg.py:244-255 | the mask output becomes exactly that set; nothing else changes |
| TardisSeg.ProtTardisSeg.MeshSetAfterGet | tardis/protocols/protocol_tardis_seg.py:257-271 | an existing mesh set keeps its points, box size, sampling rate and stream state and is reopened once more; with none, the set is new, empty, open, with the form's box size, the input set's sampling rate and no reopen |
| TardisSeg.ProtTardisSeg.GetOutputMeshes | tardis/protocols/protocol_tardis_seg.py:257-271 | the mesh output becomes exactly that set; nothing else changes |
| TardisSeg.ProtTardisSeg.CreateSemanticOutput | tardis/protocols/protocol_tardis_seg.py:226-234 | the mask output is the got-or-created set with exactly one mask appended: the `semantic.mrc` prediction of this tsId, with the input's file as volume and its sampling rate; the meshes are untouched |
| TardisSeg.ProtTardisSeg.AddMeshPoints | tardis/protocols/protocol_tardis_seg.py:273-291 | succeeds iff the instance table exists; it then appends exactly this tomogram's points in row order, and otherwise the mesh set is unchanged |
| TardisSeg.ProtTardisSeg.CreateInstanceOutput | tardis/protocols/protocol_tardis_seg.py:236-239 | the mesh output is the got-or-created set with this tsId's points appended (none when its table is missing, which fails); masks are untouched |
| TardisSeg.ProtTardisSeg.CreateOutputStep | tardis/protocols/protocol_tardis_seg.py:170-180 | both mode does both of the above, semantic mode only the mask output, instances mode only the mesh output; each untouched output keeps its whole value; it fails only when the points are wanted and the table is missing |
| MembraneBase.PatchSizeTable | tardis/protocols/protocol_membrane_prediction_base.py:62-69 | the table holds `32, 64, 96, 128, 256, 512` in that order; each maps to its own position, so the choice index and the value agree; `128` maps to the default 3; other sizes are absent |
| MembraneBase.PatchSizeLabel | tardis/protocols/protocol_membrane_prediction_base.py:134-137 | the size shown for a choice is the one the table maps to that choice; the default choice shows `128` |
| MembraneBase.SegModeIsSemantic | tardis/protocols/protocol_membrane_prediction_base.py:219-220 | true exactly for semantic mode |
| MembraneBase.OutputFileNameArg | tardis/protocols/protocol_membrane_prediction_base.py:227-228 | `mrc_mrc` for instance mode, `mrc_None` otherwise |
| MembraneBase.CmdArgList | tardis/protocols/protocol_membrane_prediction_base.py:230-242 | path, the fixed `mrc_npy` format (never `_getOutputFileNameArg`), pixel size, patch size (the size the chosen index stands for) and device, then one threshold: cnn iff semantic, dist otherwise, never both, within [0, 1] |
| MembraneBase.CmdArgListAsWritten | tardis/protocols/protocol_membrane_prediction_base.py:233-237 | as written, `--patch_size` carries the decimal choice index; every other argument is as intended |
| MembraneBase.DefaultPatchArgIsIndex | tardis/protocols/protocol_membrane_prediction_base.py:236 | with the default choice, the code as written passes `--patch_size 3`, which names no allowed size, where `--patch_size 128` is intended |
| MembraneBase.ProtTardisSegBase.Initialize | tardis/protocols/protocol_membrane_prediction_base.py:167-169 | the program follows the target, and the dictionary and key order are those of the input set |
| MembraneBase.ProtTardisSegBase.InsertAllSteps | tardis/protocols/protocol_membrane_prediction_base.py:154-165 | the same 2n+1-step plan as the current protocol |
| MembraneBase.ProtTardisSegBase.CreateSemanticOutput | tardis/protocols/protocol_membrane_prediction_base.py:244-245 | changes nothing |
| MembraneBase.ProtTardisSegBase.CreateInstanceOutput | tardis/protocols/protocol_membrane_prediction_base.py:247-256 | appends exactly one mask for this tsId, carrying the input's file and sampling rate |
| MembraneBase.ProtTardisSegBase.CreateOutputStep | tardis/protocols/protocol_membrane_prediction_base.py:179-183 | semantic mode leaves the output set unchanged; otherwise exactly that one mask is appended; the program, key order and dictionary are untouched |
| Membrane3D.PlanShape | tardis/protocols/protocol_membrane_prediction3D.py:110-116 | one segmentation step per input tomogram, in input order and even for repeated tsIds, then one output step, all with default prerequisites |
| Membrane3D.ProtTardisMembrans3d.InsertAllSteps | tardis/protocols/protocol_membrane_prediction3D.py:110-116 | the loop appends exactly that plan |
| Membrane3D.FindTomo | tardis/protocols/protocol_membrane_prediction3D.py:123-124 | the lookup finds an input tomogram with the asked tsId, and finds nothing only when no input tomogram has it |
| Membrane3D.OutFileName | tardis/protocols/protocol_membrane_prediction3D.py:141-144 | the output format is `mrc_csv` for both instance and semantic; for any other value it is unbound |
| Membrane3D.ProgramOf | tardis/protocols/protocol_membrane_prediction3D.py:156-159 | membrane and microtubule pick the same programs as the current protocol; any other value picks none |
| Membrane3D.SegmentArgsText | tardis/protocols/protocol_membrane_prediction3D.py:148-154 | the string is ` -dir <tomId>.mrc -out mrc_csv `, ` -px <s> `, ` -dt <dt> `, ` -dv gpu ` back to back; `-dt` is passed whatever the mode |
| Membrane3D.ProtTardisMembrans3d.BuildArgs | tardis/protocols/protocol_membrane_prediction3D.py:148-154 | the four `+=` steps build exactly that string |
| Membrane3D.ProtTardisMembrans3d.SetupFolderStep | tardis/protocols/protocol_membrane_prediction3D.py:118-132 | makes `<extra>/<tomId>`; when a tomogram has that tsId, copies its file to `<extra>/<tomId>/<tomId>.mrc` and returns `<extra>/<tomId>`; otherwise fails after making the folder |
| Membrane3D.ProtTardisMembrans3d.SegmentStep | tardis/protocols/protocol_membrane_prediction3D.py:134-159 | staging first; it then succeeds exactly when the tomogram exists and the segmentation type is known, and only then may launch |
| Membrane3D.ProtTardisMembrans3d.LaunchSegmentation | tardis/protocols/protocol_membrane_prediction3D.py:148-159 | the program chosen by the target runs once, in `<extra>/<tomId>`, with the argument string above on GPU `0`; an unknown target runs nothing |
| Membrane3D.ReadCSVInstances | tardis/protocols/protocol_membrane_prediction3D.py:202-210 | drops exactly the header row and returns the other rows unchanged, in file order; a missing or empty file fails |
| Membrane3D.RowPoint | tardis/protocols/protocol_membrane_prediction3D.py:213-217 | the group is the truncated first field; multiplying the position back by the set's sampling rate gives fields 2, 3 and 4 in file order |
| Membrane3D.RowPointAgrees | tardis/protocols/protocol_membrane_prediction3D.py:212-218 | at the tomogram's own sampling rate, a row converts to the same point as in the current protocol |
| Membrane3D.RowsPointsShape | tardis/protocols/protocol_membrane_prediction3D.py:212-218 | a table converts exactly when each of its rows does, and then gives one point per row, in row order |
| Membrane3D.AddMeshPoints | tardis/protocols/protocol_membrane_prediction3D.py:212-218 | one point per row in order, stopping at the first row that does not unpack into four numbers; it succeeds exactly when every row converts |
| Membrane3D.ReadTomogramPoints | tardis/protocols/protocol_membrane_prediction3D.py:188-192 | one pass of the output loop gives exactly the points of that tomogram's table, or fails when the table is missing, has no header or has a bad row |
| Membrane3D.TableGoodIff | tardis/protocols/protocol_membrane_prediction3D.py:188-192 | a tomogram's table gives points exactly when it exists, has a header, and every data row unpacks into four numbers |
| Membrane3D.InstancesCsvSameFile | tardis/protocols/protocol_membrane_prediction3D.py:190 | the table read for a tsId is the same file the current protocol reads |
| Membrane3D.InstanceOutcomeIff | tardis/protocols/protocol_membrane_prediction3D.py:186-193 | the instance output is produced exactly when every tomogram's table exists, has a header, and has only rows that convert |
| Membrane3D.InstanceOutcomeVolumes | tardis/protocols/protocol_membrane_prediction3D.py:188-192 | every point of the instance output belongs to an input tomogram |
| Membrane3D.ProtTardisMembrans3d.CreateOutputStep | tardis/protocols/protocol_membrane_prediction3D.py:161-199 | the semantic branch defines nothing. Otherwise the mesh output is defined exactly when all tables are good: the points of every tomogram in set order, box size 10, the set's sampling rate, left open and reopened once for appending |

## Left out

- Running processes, creating directories, linking and copying files: recorded as effects and not performed. Reading files from disk: tables arrive already parsed.
- Float-to-text formatting and text-to-float parsing: parameters, not modelled.
- Concurrency and scheduling: `STEPS_PARALLEL`, `self._lock` and GPU assignment are not modelled. Steps are modelled one at a time; `needsGPU` is kept only as a recorded flag.
- Host persistence and metadata are not modelled: `_store`, `_defineOutputs`, `_defineSourceRelation`, `copyInfo`, `setPrecedents`, `_closeOutputSet` and the `.sqlite` templates. Output sets are values holding their contents, sampling rate, stream state and a count of `enableAppend` calls.
- `getInTomos` and the pointer it returns: the input set is a constructor argument, its tomograms in iteration order, with its own sampling rate.
- The host's truth test on an output set (`if outputSet:`) is modelled as "the output exists". An existing but empty set, which a host may treat as false, is not distinguished.
- Step ids: the model assumes ids are 1-based positions in the step list. The host code that assigns them is not part of this model.
- Division by a zero sampling rate: sampling rates are positive by type.
- Mesh point coordinate origin (`BOTTOM_LEFT_CORNER`) and the `additionalArgs` form field are not modelled; neither changes a modelled value in these files.
- Form definitions (`_defineParams`) are not modelled. The threshold validators become the preconditions `ValidThresholds` and `ValidParams`, each bounding only the thresholds the form shows in the chosen mode, and the patch-size choice range is part of `ValidParams`.
- `getTardisEnvName`, `TARDIS_FOLDER`, `TARDIS_VERSION` and the conda and TARDIS activation commands: parameters. `tardis/constants.py` and the host's variable lookup are not part of this model.
- Membrane3D.ProtTardisMembrans3d.CreateOutputStep: the semantic branch is modelled only as defining no output. It uses names the file never defines (`segType`, `tomoMaskSet`), so no intended behaviour can be read from it.
- Membrane3D.ProtTardisMembrans3d.CreateOutputStep: for an empty input set, the semantic branch defines an empty mask output before it raises; this corner case is not modelled.
- Membrane3D.AddMeshPoints: the mesh set it appends to is passed by reference in the source. The model returns the appended points, and `CreateOutputStep` adds them to the set it builds.
- MembraneBase.ProtTardisSegBase.CreateInstanceOutput: the mask's file name comes from `_getOutputFileName` and the set from `_getOutputSet`, which that file never defines. Only the one-append-per-tsId shape is modelled, and the mask records tsId, volume and sampling rate.
- `protocol_microtubule_prediction3D.py`, the tests and the protocol registration: not part of this model.
- `TardisSeg.ProtTardisSeg.AddMeshPoints` and `MembraneBase.CmdArgs` use the corrected behaviour from the findings below. The as-written behaviour is kept in `TardisSeg.PointsAsWritten` and `MembraneBase.CmdArgListAsWritten`.

## Findings

| source | as written | input that shows it | evidently intended | confidence | as-written member | corrected member |
|---|---|---|---|---|---|---|
| tardis/protocols/protocol_tardis_seg.py:277-281 | `np.loadtxt(..., skiprows=1)` returns a one-dimensional array when the table has exactly one data row; iterating it gives numbers, and `row[0]` fails | an instance table with a header and the single row `1,10,20,30` | one mesh point for the single row, as for any other row count (e.g. with `ndmin=2`) | high, not executed | TardisSeg.OneRowTableFails | TardisSeg.MeshPointsOf |
| tardis/protocols/protocol_membrane_prediction_base.py:236 | `--patch_size {self.patchSize.get()}` prints the EnumParam value, which is the choice index (the default is `patchSizeValDict['128']`, i.e. 3) | the default form: the argument is `--patch_size 3` | `--patch_size 128`, the size the chosen index stands for | high, not executed | MembraneBase.DefaultPatchArgIsIndex | MembraneBase.CmdArgList |
