/** `Docker.build` and `Docker.run` (src/model/docker.js lines 6-100) as steps
    on a host: a set of existing directories, which `fs.mkdirSync` extends,
    and a log of the commands handed to `exec`. */
module Docker {
  import opened Wrappers
  import opened Images
  import opened Invocation
  import opened Commands

  /** One call of `exec`: the command, whether its output was silenced, the
      directories that existed when it started, and whether it succeeded. */
  datatype Execution = Execution(command: Command, silent: bool, visibleDirs: set<string>, succeeded: bool)

  /** The machine the action runs on, reduced to what `Docker` touches. */
  class Host {
    var dirs: set<string>
    var executions: seq<Execution>

    constructor(existing: set<string>)
      ensures dirs == existing && executions == []
    {
      dirs := existing;
      executions := [];
    }

    /** `fs.mkdirSync(path, { recursive: true })`: the directory exists
        afterwards, and one that already existed is not an error. */
    method MakeDirRecursive(path: string)
      modifies this
      ensures dirs == old(dirs) + {path}
      ensures path in old(dirs) ==> dirs == old(dirs)
      ensures executions == old(executions)
    {
      dirs := dirs + {path};
    }

    /** `await exec(command, undefined, { silent })`: the command runs to
        completion and is logged; whether it succeeds is not up to the caller. */
    method Exec(command: Command, silent: bool) returns (ok: bool)
      modifies this
      ensures executions == old(executions) + [Execution(command, silent, old(dirs), ok)]
      ensures dirs == old(dirs)
    {
      ok :| true;
      executions := executions + [Execution(command, silent, dirs, ok)];
    }
  }

  /** Builds the builder image and returns its tag once the build has finished. */
  method Build(host: Host, p: BuildParameters, silent: bool) returns (r: Result<ImageTag>)
    modifies host
    ensures host.dirs == old(host.dirs)
    ensures |host.executions| == |old(host.executions)| + 1
    ensures host.executions[..|old(host.executions)|] == old(host.executions)
    ensures var e := host.executions[|host.executions| - 1];
      && e.command == BuildCommand(p) && e.silent == silent
      && (r.Ok? <==> e.succeeded)
      && (r.Ok? ==> r.value == TagFor(p.baseImage) && OptionValues(e.command.args, "--tag") == [Tag(r.value)])
  {
    var tag := TagFor(p.baseImage);
    var command := BuildCommand(p);
    var ok := host.Exec(command, silent);
    if ok {
      r := Ok(tag);
    } else {
      r := Failed;
    }
  }

  /** Creates the two scratch directories, then runs the build container. */
  method Run(host: Host, image: ImageTag, p: RunParameters, silent: bool) returns (r: Result<()>)
    modifies host
    ensures host.dirs == old(host.dirs) + {HomeScratch(p), WorkflowScratch(p)}
    ensures |host.executions| == |old(host.executions)| + 1
    ensures host.executions[..|old(host.executions)|] == old(host.executions)
    ensures var e := host.executions[|host.executions| - 1];
      && e.command == RunCommand(image, p) && e.silent == silent
      && HomeScratch(p) in e.visibleDirs && WorkflowScratch(p) in e.visibleDirs
      && e.visibleDirs == host.dirs
      && (r.Ok? <==> e.succeeded)
  {
    var command := RunCommand(image, p);
    host.MakeDirRecursive(HomeScratch(p));
    host.MakeDirRecursive(WorkflowScratch(p));
    var ok := host.Exec(command, silent);
    r := if ok then Ok(()) else Failed;
  }
}
