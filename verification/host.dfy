/**
 * What the protocols ask of their host, recorded rather than performed:
 * directory creation, linking and copying of files, jobs launched, and the
 * steps inserted into the protocol's step list.
 */
module Host {
  import opened Wrappers

  /** One `protocol.runJob(program, args, env=..., cwd=...)` call. */
  datatype Job = Job(program: string, args: string, env: map<string, string>, cwd: Option<string>)

  datatype Effect =
    | MakePath(path: string)
    | CreateLink(source: string, target: string)
    | CopyFile(source: string, target: string)
    | RunJob(job: Job)

  /** The host's record of what a run asked for, in order. */
  class Host {
    var effects: seq<Effect>

    constructor ()
      ensures effects == []
    {
      effects := [];
    }

    method Record(e: Effect)
      modifies this
      ensures effects == old(effects) + [e]
    {
      effects := effects + [e];
    }
  }

  /** Prerequisites passed to `_insertFunctionStep`, or none (the host's default). */
  datatype Prerequisites = Explicit(ids: seq<nat>) | HostDefault

  /** One `_insertFunctionStep(step, prerequisites=..., needsGPU=...)` call. */
  datatype Insertion<S> = Insertion(step: S, prerequisites: Prerequisites, needsGpu: Option<bool>)

  /** A protocol's list of inserted steps; a step's id is its 1-based position. */
  class StepList<S> {
    var steps: seq<Insertion<S>>

    constructor ()
      ensures steps == []
    {
      steps := [];
    }

    method Insert(step: S, prerequisites: Prerequisites, needsGpu: Option<bool>) returns (id: nat)
      modifies this
      ensures steps == old(steps) + [Insertion(step, prerequisites, needsGpu)]
      ensures id == |steps|
    {
      steps := steps + [Insertion(step, prerequisites, needsGpu)];
      id := |steps|;
    }
  }
}
