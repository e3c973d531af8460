/**
 * The plugin class of `tardis/__init__.py`: the environment TARDIS is
 * launched in, how a TARDIS program is launched, and how it is installed.
 */
module Plugin {
  import opened Wrappers
  import opened Host
  import Paths
  import Text

  const DefaultGpuId := "0"
  const PythonPath := "PYTHONPATH"
  const CudaDevices := "CUDA_VISIBLE_DEVICES"

  /**
   * Values the plugin reads from the host: the conda activation command, the
   * command that activates TARDIS's own environment, and TARDIS_HOME.
   */
  datatype Config = Config(condaActivationCmd: string, tardisEnvActivation: string, home: string)

  /** `env` is `osEnv` without PYTHONPATH and with CUDA_VISIBLE_DEVICES set to `gpuId`. */
  ghost predicate IsTardisEnviron(osEnv: map<string, string>, gpuId: string, env: map<string, string>) {
    && PythonPath !in env
    && CudaDevices in env && env[CudaDevices] == gpuId
    && forall k :: k != PythonPath && k != CudaDevices ==>
         (k in env <==> k in osEnv) && (k in env ==> env[k] == osEnv[k])
  }

  /** The environment `getEnviron(gpuId)` builds, as one map. */
  function TardisEnviron(osEnv: map<string, string>, gpuId: string): (env: map<string, string>)
    ensures IsTardisEnviron(osEnv, gpuId, env)
  {
    (osEnv - {PythonPath})[CudaDevices := gpuId]
  }

  /** `Plugin.getEnviron(gpuId)`: copy the process environment, drop PYTHONPATH, select the GPU. */
  method GetEnviron(osEnv: map<string, string>, gpuId: string) returns (env: map<string, string>)
    ensures IsTardisEnviron(osEnv, gpuId, env)
    ensures env == TardisEnviron(osEnv, gpuId)
  {
    env := osEnv;
    if PythonPath in env {
      env := env - {PythonPath};
    }
    env := env[CudaDevices := gpuId];
  }

  /** The environment of `getEnviron` is fully determined by its inputs. */
  lemma EnvironUnique(osEnv: map<string, string>, gpuId: string, e1: map<string, string>, e2: map<string, string>)
    requires IsTardisEnviron(osEnv, gpuId, e1) && IsTardisEnviron(osEnv, gpuId, e2)
    ensures e1 == e2
  {
    assert forall k :: k in e1 <==> k in e2 by {
      forall k ensures k in e1 <==> k in e2 {
        if k != PythonPath && k != CudaDevices {
          assert (k in e1 <==> k in osEnv) && (k in e2 <==> k in osEnv);
        }
      }
    }
    assert e1.Keys == e2.Keys;
    forall k | k in e1 ensures e1[k] == e2[k] {
      if k != CudaDevices {
        assert k != PythonPath;
        assert e1[k] == osEnv[k] && e2[k] == osEnv[k];
      }
    }
  }

  /** The program string `runTardis` passes to `runJob` (`%(GPU)s` is filled in by the host). */
  function LaunchProgram(cfg: Config, program: string): string {
    cfg.condaActivationCmd + " " + cfg.tardisEnvActivation + " " + " && CUDA_VISIBLE_DEVICES=%(GPU)s " + program + " "
  }

  /**
   * `Plugin.runTardis`: exactly one job is launched, running `program` after
   * both activations, with `args` and `cwd` unchanged and the environment of
   * `getEnviron(gpuId)`.
   */
  method RunTardis(cfg: Config, osEnv: map<string, string>, host: Host, program: string, args: string,
                   cwd: Option<string>, gpuId: string)
    modifies host
    ensures host.effects == old(host.effects) + [RunJob(TardisJob(cfg, osEnv, program, args, cwd, gpuId))]
  {
    var env := GetEnviron(osEnv, gpuId);
    host.Record(RunJob(Job(LaunchProgram(cfg, program), args, env, cwd)));
  }

  /**
   * The job `runTardis` starts: `program` launched after both activations,
   * in the environment `getEnviron(gpuId)` builds, with the arguments and
   * working directory passed through.
   */
  function TardisJob(cfg: Config, osEnv: map<string, string>, program: string, args: string,
                     cwd: Option<string>, gpuId: string): (job: Job)
    ensures job.args == args && job.cwd == cwd
    ensures IsTardisEnviron(osEnv, gpuId, job.env)
  {
    Job(LaunchProgram(cfg, program), args, TardisEnviron(osEnv, gpuId), cwd)
  }

  /** `Plugin.getTardisProgram`: `<TARDIS_HOME>/bin/<program>`. */
  function TardisProgram(cfg: Config, program: string): (path: string)
    ensures Paths.IsDir(cfg.home) && Paths.IsName(program) ==> path == cfg.home + "/bin/" + program
  {
    Paths.Join(Paths.Join(cfg.home, "bin"), program)
  }

  /** `Plugin.getTardisCmd`: both activations, then the program under TARDIS_HOME. */
  function TardisCmd(cfg: Config, program: string): (cmd: string)
    ensures Paths.IsDir(cfg.home) && Paths.IsName(program) ==>
      cmd == " " + cfg.condaActivationCmd + " " + cfg.tardisEnvActivation + " && " + cfg.home + "/bin/" + program
  {
    " " + cfg.condaActivationCmd + " " + cfg.tardisEnvActivation + " && " + TardisProgram(cfg, program)
  }

  /** `Plugin.getDependencies`: conda is needed exactly when no activation command is configured. */
  method GetDependencies(condaActivationCmd: string) returns (neededProgs: seq<string>)
    ensures "conda" in neededProgs <==> condaActivationCmd == ""
    ensures forall p :: p in neededProgs ==> p == "conda"
    ensures |neededProgs| <= 1
    ensures neededProgs == (if condaActivationCmd == "" then ["conda"] else [])
  {
    neededProgs := [];
    if condaActivationCmd == "" {
      neededProgs := neededProgs + ["conda"];
    }
  }

  /** The marker file whose existence tells the host that `version` is installed. */
  function InstalledFlag(version: string): string {
    "tardis_" + version + "_installed"
  }

  /** The installation fragments, in the order they are run, each chained with `&&`. */
  function InstallSteps(envName: string): seq<string> {
    [ "conda create -y -n " + envName + " python=3.11 && ",
      "conda activate " + envName + " && ",
      "git clone https://github.com/SMLC-NYSBC/TARDIS.git && ",
      "cd TARDIS && ",
      "pip install . && ",
      "cd .. && " ]
  }

  /** The arguments of `env.addPackage(...)` made by `addTardisPackage`. */
  datatype Package = Package(name: string, version: string, tar: string,
                             commands: seq<(string, string)>, neededProgs: seq<string>, isDefault: bool)

  /**
   * `Plugin.addTardisPackage`: one command, made of the conda activation, the
   * installation fragments in order and a final `touch` of the marker file,
   * whose target is that same marker file. `envName` is
   * `getTardisEnvName(version)`; `folder` and `tardisVersion` are the plugin's
   * TARDIS_FOLDER and TARDIS_VERSION.
   */
  method AddTardisPackage(cfg: Config, folder: string, tardisVersion: string, version: string, envName: string)
    returns (pkg: Package)
    ensures |pkg.commands| == 1
    ensures pkg.commands[0].1 == InstalledFlag(version)
    ensures pkg.commands[0].0 == cfg.condaActivationCmd + Text.Concat(InstallSteps(envName) + ["touch " + InstalledFlag(version)])
    ensures pkg.name == folder && pkg.version == tardisVersion && pkg.tar == "void.tgz" && pkg.isDefault
    ensures pkg.neededProgs == (if cfg.condaActivationCmd == "" then ["conda"] else [])
  {
    var installed := InstalledFlag(version);
    var installationCmd := ChainSteps(cfg.condaActivationCmd, InstallSteps(envName));
    installationCmd := installationCmd + "touch " + installed;
    Text.ConcatAppend(InstallSteps(envName), "touch " + installed);
    var needed := GetDependencies(cfg.condaActivationCmd);
    pkg := Package(folder, tardisVersion, "void.tgz", [(installationCmd, installed)], needed, true);
  }

  /** The six `installationCmd += ...` statements of `addTardisPackage`, one fragment after another. */
  method ChainSteps(prefix: string, steps: seq<string>) returns (cmd: string)
    requires |steps| == 6
    ensures cmd == prefix + Text.Concat(steps)
  {
    cmd := prefix;
    assert cmd == prefix + Text.Concat(steps[..0]);
    cmd := cmd + steps[0];
    Text.NextFragment(prefix, steps, 0, cmd);
    cmd := cmd + steps[1];
    Text.NextFragment(prefix, steps, 1, cmd);
    cmd := cmd + steps[2];
    Text.NextFragment(prefix, steps, 2, cmd);
    cmd := cmd + steps[3];
    Text.NextFragment(prefix, steps, 3, cmd);
    cmd := cmd + steps[4];
    Text.NextFragment(prefix, steps, 4, cmd);
    cmd := cmd + steps[5];
    Text.NextFragment(prefix, steps, 5, cmd);
    assert steps[..6] == steps;
  }

  /** The installation command ends by creating the marker file named as the command's target. */
  lemma InstallEndsWithMarker(cfg: Config, envName: string, version: string)
    ensures var cmd := cfg.condaActivationCmd + Text.Concat(InstallSteps(envName) + ["touch " + InstalledFlag(version)]);
      var tail := "touch " + InstalledFlag(version);
      |tail| <= |cmd| && cmd[|cmd| - |tail|..] == tail
  {
    Text.ConcatAppend(InstallSteps(envName), "touch " + InstalledFlag(version));
  }
}
