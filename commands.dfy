/** The two command lines `Docker.build` and `Docker.run` synthesise
    (src/model/docker.js lines 17-23 and 51-94), as argument records. */
module Commands {
  import opened Wrappers
  import opened Images
  import opened Invocation

  /** The fields of the parameter record that `build` destructures. */
  datatype BuildParameters = BuildParameters(
    path: string,
    dockerfile: string,
    baseImage: BaseImage,
    uid: int,
    gid: int)

  /** The fields of the parameter record that `run` destructures, each as the
      text it interpolates into the command. */
  datatype RunParameters = RunParameters(
    version: string,
    workspace: string,
    runnerTempPath: string,
    platform: string,
    projectPath: string,
    buildName: string,
    buildPath: string,
    buildFile: string,
    buildMethod: string,
    buildVersion: string,
    androidVersionCode: string,
    androidKeystoreName: string,
    androidKeystoreBase64: string,
    androidKeystorePass: string,
    androidKeyaliasName: string,
    androidKeyaliasPass: string,
    customParameters: string)

  const ContainerWorkspace: string := "/github/workspace"
  const ContainerHome: string := "/github/home"
  const ContainerWorkflow: string := "/github/workflow"
  const DockerSocket: string := "/var/run/docker.sock"

  // ---------------------------------------------------------------- build

  /** `docker build <path> --file <dockerfile> --build-arg IMAGE=<img>
      --build-arg UID=<uid> --build-arg GID=<gid> --tag <tag>` */
  function BuildCommand(p: BuildParameters): (c: Command)
    ensures c.program == ["docker", "build"]
    ensures |c.args| == 6 && c.args[0] == Word(Text(p.path))
    ensures c.args[1] == Opt("--file", Text(p.dockerfile))
    ensures c.args[5] == Opt("--tag", Tag(TagFor(p.baseImage)))
    ensures OptionValues(c.args, "--file") == [Text(p.dockerfile)]
    ensures BuildArgs(c.args) ==
      [("IMAGE", Image(ResolveImage(p.baseImage))), ("UID", Number(p.uid)), ("GID", Number(p.gid))]
    ensures OptionValues(c.args, "--tag") == [Tag(TagFor(p.baseImage))]
    ensures Volumes(c.args) == [] && PassedEnv(c.args) == [] && AssignedEnv(c.args) == []
  {
    BuildOptions(p);
    BuildArgValues(p);
    BuildNoRunSettings(p);
    Command(["docker", "build"], BuildArgList(p))
  }

  /** The six arguments of the build command, in the template's order. */
  function BuildArgList(p: BuildParameters): seq<Arg> {
    var (a0, a1, a2, a3, a4, a5) := BuildArgElements(p);
    [a0] + [a1] + [a2] + [a3] + [a4] + [a5]
  }

  function BuildArgElements(p: BuildParameters): (Arg, Arg, Arg, Arg, Arg, Arg) {
    (Word(Text(p.path)),
     Opt("--file", Text(p.dockerfile)),
     BuildArg("IMAGE", Image(ResolveImage(p.baseImage))),
     BuildArg("UID", Number(p.uid)),
     BuildArg("GID", Number(p.gid)),
     Opt("--tag", Tag(TagFor(p.baseImage))))
  }

  /** The build command names one Dockerfile and one tag. */
  lemma BuildOptions(p: BuildParameters)
    ensures OptionValues(BuildArgList(p), "--file") == [Text(p.dockerfile)]
    ensures OptionValues(BuildArgList(p), "--tag") == [Tag(TagFor(p.baseImage))]
  {
    var (a0, a1, a2, a3, a4, a5) := BuildArgElements(p);
    SelectSix(a0, a1, a2, a3, a4, a5, OptionOf("--file"));
    SelectSix(a0, a1, a2, a3, a4, a5, OptionOf("--tag"));
  }

  /** The build arguments are `IMAGE`, `UID` and `GID`, in that order. */
  lemma BuildArgValues(p: BuildParameters)
    ensures BuildArgs(BuildArgList(p)) ==
      [("IMAGE", Image(ResolveImage(p.baseImage))), ("UID", Number(p.uid)), ("GID", Number(p.gid))]
  {
    var (a0, a1, a2, a3, a4, a5) := BuildArgElements(p);
    SelectSix(a0, a1, a2, a3, a4, a5, BuildArgOf);
  }

  /** The build command mounts nothing and sets no container environment. */
  lemma BuildNoRunSettings(p: BuildParameters)
    ensures Volumes(BuildArgList(p)) == [] && PassedEnv(BuildArgList(p)) == []
    ensures AssignedEnv(BuildArgList(p)) == []
  {
    var (a0, a1, a2, a3, a4, a5) := BuildArgElements(p);
    SelectSix(a0, a1, a2, a3, a4, a5, MountOf);
    SelectSix(a0, a1, a2, a3, a4, a5, PassedNameOf);
    SelectSix(a0, a1, a2, a3, a4, a5, AssignmentOf);
  }

  /** Picking from six arguments picks from each in turn. */
  lemma SelectSix<T>(a0: Arg, a1: Arg, a2: Arg, a3: Arg, a4: Arg, a5: Arg, pick: Arg -> Option<T>)
    ensures Select([a0] + [a1] + [a2] + [a3] + [a4] + [a5], pick) ==
      Picked(a0, pick) + Picked(a1, pick) + Picked(a2, pick) +
      Picked(a3, pick) + Picked(a4, pick) + Picked(a5, pick)
  {
    SelectOne(a0, pick); SelectOne(a1, pick); SelectOne(a2, pick);
    SelectOne(a3, pick); SelectOne(a4, pick); SelectOne(a5, pick);
    SelectAppend([a0], [a1], pick);
    SelectAppend([a0] + [a1], [a2], pick);
    SelectAppend([a0] + [a1] + [a2], [a3], pick);
    SelectAppend([a0] + [a1] + [a2] + [a3], [a4], pick);
    SelectAppend([a0] + [a1] + [a2] + [a3] + [a4], [a5], pick);
  }

  // ------------------------------------------------------------------ run

  /** Forwarded from the caller's environment, before the assignments. */
  const LicenseEnv: seq<EnvVar> :=
    [UNITY_LICENSE, UNITY_LICENSE_FILE, UNITY_EMAIL, UNITY_PASSWORD, UNITY_SERIAL]

  /** Forwarded after the `HOME` assignment and before `GITHUB_WORKSPACE`. */
  const GithubEnv: seq<EnvVar> :=
    [GITHUB_REF, GITHUB_SHA, GITHUB_REPOSITORY, GITHUB_ACTOR, GITHUB_WORKFLOW,
     GITHUB_HEAD_REF, GITHUB_BASE_REF, GITHUB_EVENT_NAME]

  /** Forwarded after the `GITHUB_WORKSPACE` assignment. */
  const RunnerEnv: seq<EnvVar> :=
    [GITHUB_ACTION, GITHUB_EVENT_PATH, RUNNER_OS, RUNNER_TOOL_CACHE, RUNNER_TEMP,
     RUNNER_WORKSPACE]

  /** Every variable the run command forwards without a value. */
  const ForwardedEnv: seq<EnvVar> := LicenseEnv + GithubEnv + RunnerEnv

  /** The assignments taken from the parameter record. */
  function ParameterEnv(p: RunParameters): seq<(EnvVar, string)> {
    [(UNITY_VERSION, p.version),
     (PROJECT_PATH, p.projectPath),
     (BUILD_TARGET, p.platform),
     (BUILD_NAME, p.buildName),
     (BUILD_PATH, p.buildPath),
     (BUILD_FILE, p.buildFile),
     (BUILD_METHOD, p.buildMethod),
     (VERSION, p.buildVersion),
     (ANDROID_VERSION_CODE, p.androidVersionCode),
     (ANDROID_KEYSTORE_NAME, p.androidKeystoreName),
     (ANDROID_KEYSTORE_BASE64, p.androidKeystoreBase64),
     (ANDROID_KEYSTORE_PASS, p.androidKeystorePass),
     (ANDROID_KEYALIAS_NAME, p.androidKeyaliasName),
     (ANDROID_KEYALIAS_PASS, p.androidKeyaliasPass),
     (CUSTOM_PARAMETERS, p.customParameters)]
  }

  /** The scratch directory mounted as the container's home. */
  function HomeScratch(p: RunParameters): string {
    p.runnerTempPath + "/_github_home"
  }

  /** The scratch directory mounted as the workflow-metadata directory. */
  function WorkflowScratch(p: RunParameters): string {
    p.runnerTempPath + "/_github_workflow"
  }

  function Mounts(p: RunParameters): seq<Mount> {
    [Mount(DockerSocket, DockerSocket),
     Mount(HomeScratch(p), ContainerHome),
     Mount(WorkflowScratch(p), ContainerWorkflow),
     Mount(p.workspace, ContainerWorkspace)]
  }

  function PassEnvArgs(names: seq<EnvVar>): seq<Arg> {
    Wrapped(names, PassEnvArg)
  }

  function SetEnvArgs(env: seq<(EnvVar, string)>): seq<Arg> {
    Wrapped(env, SetEnvArg)
  }

  function VolumeArgs(mounts: seq<Mount>): seq<Arg> {
    Wrapped(mounts, VolumeArg)
  }

  /** The arguments of `docker run` in the order of the source's template:
      working directory and removal, the licence variables forwarded, the
      assignments up to `HOME`, the GitHub variables forwarded, the
      `GITHUB_WORKSPACE` assignment, the runner variables forwarded, the
      mounts, and the image. */
  function RunLayout(licence: seq<EnvVar>, settings: seq<(EnvVar, string)>, github: seq<EnvVar>,
                     runner: seq<EnvVar>, mounts: seq<Mount>, image: ImageTag): seq<Arg>
  {
    [Opt("--workdir", Text(ContainerWorkspace)), Flag("--rm")]
    + PassEnvArgs(licence)
    + SetEnvArgs(settings)
    + PassEnvArgs(github)
    + [SetEnv(GITHUB_WORKSPACE, ContainerWorkspace)]
    + PassEnvArgs(runner)
    + VolumeArgs(mounts)
    + [Word(Tag(image))]
  }

  function RunArgs(image: ImageTag, p: RunParameters): seq<Arg> {
    RunLayout(LicenseEnv, ParameterEnv(p) + [(HOME, ContainerHome)], GithubEnv, RunnerEnv, Mounts(p), image)
  }

  /** `docker run <arguments of RunLayout>`: 43 arguments, one per line of
      the template between `docker run` and the image, and the image. Its
      content is stated by `RunCommandShape`, `RunEnvironment` and
      `ForwardedNotAssigned`. */
  function RunCommand(image: ImageTag, p: RunParameters): (c: Command)
    ensures c.program == ["docker", "run"] && |c.args| == 43
  {
    RunArgsMiddle(image, p);
    Command(["docker", "run"], RunArgs(image, p))
  }

  /** The run command: working directory and removal first, the image last,
      exactly the four mounts, the forwarded names, and the assignments in
      the order of the template. */
  lemma RunCommandShape(image: ImageTag, p: RunParameters)
    ensures var c := RunCommand(image, p);
      && c.program == ["docker", "run"]
      && |c.args| > 2
      && c.args[0] == Opt("--workdir", Text(ContainerWorkspace)) && c.args[1] == Flag("--rm")
      && c.args[|c.args| - 1] == Word(Tag(image))
      && |c.args| == 43
      && (forall i :: 2 <= i < |c.args| - 1 ==> c.args[i].PassEnv? || c.args[i].SetEnv? || c.args[i].Volume?)
      && Volumes(c.args) ==
        [Mount(DockerSocket, DockerSocket),
         Mount(HomeScratch(p), ContainerHome),
         Mount(WorkflowScratch(p), ContainerWorkflow),
         Mount(p.workspace, ContainerWorkspace)]
      && PassedEnv(c.args) == ForwardedEnv
      && AssignedEnv(c.args) ==
        ParameterEnv(p) + [(HOME, ContainerHome)] + [(GITHUB_WORKSPACE, ContainerWorkspace)]
  {
    RunArgsEnds(image, p);
    RunArgsMiddle(image, p);
    RunArgsVolumes(image, p);
    RunArgsForwarded(image, p);
    RunArgsAssigned(image, p);
  }

  lemma RunArgsEnds(image: ImageTag, p: RunParameters)
    ensures var args := RunArgs(image, p);
      && |args| > 2
      && args[0] == Opt("--workdir", Text(ContainerWorkspace)) && args[1] == Flag("--rm")
      && args[|args| - 1] == Word(Tag(image))
  {
    LayoutEnds(LicenseEnv, ParameterEnv(p) + [(HOME, ContainerHome)], GithubEnv, RunnerEnv, Mounts(p), image);
  }

  lemma RunArgsMiddle(image: ImageTag, p: RunParameters)
    ensures var args := RunArgs(image, p);
      && |args| == 43
      && forall i :: 2 <= i < |args| - 1 ==> EnvOrVolume(args[i])
  {
    LayoutMiddle(LicenseEnv, ParameterEnv(p) + [(HOME, ContainerHome)], GithubEnv, RunnerEnv, Mounts(p), image);
  }

  lemma RunArgsVolumes(image: ImageTag, p: RunParameters)
    ensures Volumes(RunArgs(image, p)) == Mounts(p)
  {
    LayoutVolumes(LicenseEnv, ParameterEnv(p) + [(HOME, ContainerHome)], GithubEnv, RunnerEnv, Mounts(p), image);
  }

  lemma RunArgsForwarded(image: ImageTag, p: RunParameters)
    ensures PassedEnv(RunArgs(image, p)) == ForwardedEnv
  {
    LayoutForwarded(LicenseEnv, ParameterEnv(p) + [(HOME, ContainerHome)], GithubEnv, RunnerEnv, Mounts(p), image);
  }

  lemma RunArgsAssigned(image: ImageTag, p: RunParameters)
    ensures AssignedEnv(RunArgs(image, p)) == RunEnv(p)
  {
    LayoutAssigned(LicenseEnv, ParameterEnv(p) + [(HOME, ContainerHome)], GithubEnv, RunnerEnv, Mounts(p), image);
  }

  /** All assignments of the run command: the parameter fields, then the two constants. */
  function RunEnv(p: RunParameters): seq<(EnvVar, string)> {
    ParameterEnv(p) + [(HOME, ContainerHome)] + [(GITHUB_WORKSPACE, ContainerWorkspace)]
  }

  /** No variable is assigned twice. */
  lemma RunEnvDistinct(p: RunParameters)
    ensures DistinctNames(RunEnv(p))
  {
  }

  /** Each assignment of the run command is what a lookup of its name finds. */
  lemma RunEnvironment(image: ImageTag, p: RunParameters)
    ensures var env := AssignedEnv(RunCommand(image, p).args);
      && DistinctNames(env)
      && forall k :: 0 <= k < |env| ==> Lookup(env, env[k].0) == Some(env[k].1)
  {
    RunArgsAssigned(image, p);
    RunEnvDistinct(p);
    LookupAll(RunEnv(p));
  }

  /** No forwarded name is among the assigned names. */
  lemma ForwardedDisjointFromAssigned(p: RunParameters)
    ensures forall i, j :: 0 <= i < |ForwardedEnv| && 0 <= j < |RunEnv(p)| ==>
      ForwardedEnv[i] != RunEnv(p)[j].0
  {
  }

  /** The forwarded variables carry no value: none of them is assigned. */
  lemma ForwardedNotAssigned(image: ImageTag, p: RunParameters)
    ensures forall n :: n in PassedEnv(RunCommand(image, p).args) ==>
      Lookup(AssignedEnv(RunCommand(image, p).args), n) == None
  {
    RunArgsForwarded(image, p);
    RunArgsAssigned(image, p);
    ForwardedDisjointFromAssigned(p);
    LookupAbsent(RunEnv(p), ForwardedEnv);
  }

  /** The fixed arguments of the run layout: what each query picks from them. */
  lemma FixedRunArgs(image: ImageTag)
    ensures var head := [Opt("--workdir", Text(ContainerWorkspace)), Flag("--rm")];
      Select(head, MountOf) == [] && Select(head, PassedNameOf) == [] && Select(head, AssignmentOf) == []
    ensures var ws := [SetEnv(GITHUB_WORKSPACE, ContainerWorkspace)];
      Select(ws, MountOf) == [] && Select(ws, PassedNameOf) == [] &&
      Select(ws, AssignmentOf) == [(GITHUB_WORKSPACE, ContainerWorkspace)]
    ensures var last := [Word(Tag(image))];
      Select(last, MountOf) == [] && Select(last, PassedNameOf) == [] && Select(last, AssignmentOf) == []
  {
  }

  lemma PassEnvQueries(names: seq<EnvVar>)
    ensures Select(PassEnvArgs(names), MountOf) == []
    ensures Select(PassEnvArgs(names), PassedNameOf) == names
    ensures Select(PassEnvArgs(names), AssignmentOf) == []
  {
    SelectWrappedNothing(names, PassEnvArg, MountOf);
    SelectWrapped(names, PassEnvArg, PassedNameOf);
    SelectWrappedNothing(names, PassEnvArg, AssignmentOf);
  }

  lemma SetEnvQueries(env: seq<(EnvVar, string)>)
    ensures Select(SetEnvArgs(env), MountOf) == []
    ensures Select(SetEnvArgs(env), PassedNameOf) == []
    ensures Select(SetEnvArgs(env), AssignmentOf) == env
  {
    SelectWrappedNothing(env, SetEnvArg, MountOf);
    SelectWrappedNothing(env, SetEnvArg, PassedNameOf);
    SelectWrapped(env, SetEnvArg, AssignmentOf);
  }

  lemma VolumeQueries(mounts: seq<Mount>)
    ensures Select(VolumeArgs(mounts), MountOf) == mounts
    ensures Select(VolumeArgs(mounts), PassedNameOf) == []
    ensures Select(VolumeArgs(mounts), AssignmentOf) == []
  {
    SelectWrapped(mounts, VolumeArg, MountOf);
    SelectWrappedNothing(mounts, VolumeArg, PassedNameOf);
    SelectWrappedNothing(mounts, VolumeArg, AssignmentOf);
  }

  /** The run layout opens with the working directory and removal and ends with the image. */
  lemma LayoutEnds(licence: seq<EnvVar>, settings: seq<(EnvVar, string)>, github: seq<EnvVar>,
                   runner: seq<EnvVar>, mounts: seq<Mount>, image: ImageTag)
    ensures var args := RunLayout(licence, settings, github, runner, mounts, image);
      && |args| > 2
      && args[0] == Opt("--workdir", Text(ContainerWorkspace)) && args[1] == Flag("--rm")
      && args[|args| - 1] == Word(Tag(image))
  {
  }

  /** The arguments between the fixed head and the image: environment
      entries and mounts only. */
  predicate EnvOrVolume(a: Arg) {
    a.PassEnv? || a.SetEnv? || a.Volume?
  }

  predicate AllEnvOrVolume(s: seq<Arg>) {
    forall i :: 0 <= i < |s| ==> EnvOrVolume(s[i])
  }

  /** The run layout has one argument per name, assignment and mount, plus
      four fixed ones, and everything between head and image is an
      environment entry or a mount. */
  lemma LayoutMiddle(licence: seq<EnvVar>, settings: seq<(EnvVar, string)>, github: seq<EnvVar>,
                     runner: seq<EnvVar>, mounts: seq<Mount>, image: ImageTag)
    ensures var args := RunLayout(licence, settings, github, runner, mounts, image);
      && |args| == 2 + |licence| + |settings| + |github| + 1 + |runner| + |mounts| + 1
      && forall i :: 2 <= i < |args| - 1 ==> EnvOrVolume(args[i])
  {
    var s0 := [Opt("--workdir", Text(ContainerWorkspace)), Flag("--rm")];
    var s1, s2, s3 := PassEnvArgs(licence), SetEnvArgs(settings), PassEnvArgs(github);
    var s4 := [SetEnv(GITHUB_WORKSPACE, ContainerWorkspace)];
    var s5, s6, s7 := PassEnvArgs(runner), VolumeArgs(mounts), [Word(Tag(image))];
    WrappedAt(licence, PassEnvArg);
    WrappedAt(settings, SetEnvArg);
    WrappedAt(github, PassEnvArg);
    WrappedAt(runner, PassEnvArg);
    WrappedAt(mounts, VolumeArg);
    MiddleSegments(s0, s1, s2, s3, s4, s5, s6, s7);
  }

  lemma AllAppend(a: seq<Arg>, b: seq<Arg>)
    requires AllEnvOrVolume(a) && AllEnvOrVolume(b)
    ensures AllEnvOrVolume(a + b)
  {
    forall i | 0 <= i < |a + b| ensures EnvOrVolume((a + b)[i]) {
      if i >= |a| {
        assert (a + b)[i] == b[i - |a|];
      }
    }
  }

  /** Between a head and a tail, eight segments whose middle six hold only
      environment entries and mounts. */
  lemma MiddleSegments(s0: seq<Arg>, s1: seq<Arg>, s2: seq<Arg>, s3: seq<Arg>,
                       s4: seq<Arg>, s5: seq<Arg>, s6: seq<Arg>, s7: seq<Arg>)
    requires AllEnvOrVolume(s1) && AllEnvOrVolume(s2) && AllEnvOrVolume(s3)
    requires AllEnvOrVolume(s4) && AllEnvOrVolume(s5) && AllEnvOrVolume(s6)
    ensures var all := s0 + s1 + s2 + s3 + s4 + s5 + s6 + s7;
      forall i :: |s0| <= i < |all| - |s7| ==> EnvOrVolume(all[i])
  {
    AllAppend(s1, s2);
    AllAppend(s1 + s2, s3);
    AllAppend(s1 + s2 + s3, s4);
    AllAppend(s1 + s2 + s3 + s4, s5);
    AllAppend(s1 + s2 + s3 + s4 + s5, s6);
    var m := s1 + s2 + s3 + s4 + s5 + s6;
    var all := s0 + s1 + s2 + s3 + s4 + s5 + s6 + s7;
    assert all == s0 + m + s7;
    forall i | |s0| <= i < |all| - |s7| ensures EnvOrVolume(all[i]) {
      assert all[i] == m[i - |s0|];
    }
  }

  /** The mounts of the run layout are exactly the mounts laid out. */
  lemma LayoutVolumes(licence: seq<EnvVar>, settings: seq<(EnvVar, string)>, github: seq<EnvVar>,
                      runner: seq<EnvVar>, mounts: seq<Mount>, image: ImageTag)
    ensures Volumes(RunLayout(licence, settings, github, runner, mounts, image)) == mounts
  {
    var s0 := [Opt("--workdir", Text(ContainerWorkspace)), Flag("--rm")];
    var s1, s2, s3 := PassEnvArgs(licence), SetEnvArgs(settings), PassEnvArgs(github);
    var s4 := [SetEnv(GITHUB_WORKSPACE, ContainerWorkspace)];
    var s5, s6, s7 := PassEnvArgs(runner), VolumeArgs(mounts), [Word(Tag(image))];
    FixedRunArgs(image);
    PassEnvQueries(licence);
    SetEnvQueries(settings);
    PassEnvQueries(github);
    PassEnvQueries(runner);
    VolumeQueries(mounts);
    SegmentQueries(s0, s1, s2, s3, s4, s5, s6, s7, MountOf, [], [], [], [], [], [], mounts, []);
    DropEmpty6(mounts);
  }

  /** The forwarded names of the run layout are its three name lists, in order. */
  lemma LayoutForwarded(licence: seq<EnvVar>, settings: seq<(EnvVar, string)>, github: seq<EnvVar>,
                      runner: seq<EnvVar>, mounts: seq<Mount>, image: ImageTag)
    ensures PassedEnv(RunLayout(licence, settings, github, runner, mounts, image)) == licence + github + runner
  {
    var s0 := [Opt("--workdir", Text(ContainerWorkspace)), Flag("--rm")];
    var s1, s2, s3 := PassEnvArgs(licence), SetEnvArgs(settings), PassEnvArgs(github);
    var s4 := [SetEnv(GITHUB_WORKSPACE, ContainerWorkspace)];
    var s5, s6, s7 := PassEnvArgs(runner), VolumeArgs(mounts), [Word(Tag(image))];
    FixedRunArgs(image);
    PassEnvQueries(licence);
    SetEnvQueries(settings);
    PassEnvQueries(github);
    PassEnvQueries(runner);
    VolumeQueries(mounts);
    SegmentQueries(s0, s1, s2, s3, s4, s5, s6, s7, PassedNameOf, [], licence, [], github, [], runner, [], []);
    DropEmpty135(licence, github, runner);
  }

  /** The assignments of the run layout are its settings, then `GITHUB_WORKSPACE`. */
  lemma LayoutAssigned(licence: seq<EnvVar>, settings: seq<(EnvVar, string)>, github: seq<EnvVar>,
                      runner: seq<EnvVar>, mounts: seq<Mount>, image: ImageTag)
    ensures AssignedEnv(RunLayout(licence, settings, github, runner, mounts, image)) ==
      settings + [(GITHUB_WORKSPACE, ContainerWorkspace)]
  {
    var s0 := [Opt("--workdir", Text(ContainerWorkspace)), Flag("--rm")];
    var s1, s2, s3 := PassEnvArgs(licence), SetEnvArgs(settings), PassEnvArgs(github);
    var s4 := [SetEnv(GITHUB_WORKSPACE, ContainerWorkspace)];
    var s5, s6, s7 := PassEnvArgs(runner), VolumeArgs(mounts), [Word(Tag(image))];
    FixedRunArgs(image);
    PassEnvQueries(licence);
    SetEnvQueries(settings);
    PassEnvQueries(github);
    PassEnvQueries(runner);
    VolumeQueries(mounts);
    SegmentQueries(s0, s1, s2, s3, s4, s5, s6, s7, AssignmentOf,
                   [], [], settings, [], [(GITHUB_WORKSPACE, ContainerWorkspace)], [], [], []);
    DropEmpty24(settings, [(GITHUB_WORKSPACE, ContainerWorkspace)]);
  }

  // Concatenations with empty parts, settled apart from the larger proofs
  // above, where the solver handles them poorly.

  lemma DropEmpty6<T>(a: seq<T>)
    ensures [] + [] + [] + [] + [] + [] + a + [] == a
  {
  }

  lemma DropEmpty135<T>(a: seq<T>, b: seq<T>, c: seq<T>)
    ensures [] + a + [] + b + [] + c + [] + [] == a + b + c
  {
  }

  lemma DropEmpty24<T>(a: seq<T>, b: seq<T>)
    ensures [] + [] + a + [] + b + [] + [] + [] == a + b
  {
  }

  /** Picking from eight consecutive segments picks from each in turn. */
  lemma SegmentQueries<T>(s0: seq<Arg>, s1: seq<Arg>, s2: seq<Arg>, s3: seq<Arg>,
                          s4: seq<Arg>, s5: seq<Arg>, s6: seq<Arg>, s7: seq<Arg>, pick: Arg -> Option<T>,
                          r0: seq<T>, r1: seq<T>, r2: seq<T>, r3: seq<T>,
                          r4: seq<T>, r5: seq<T>, r6: seq<T>, r7: seq<T>)
    requires Select(s0, pick) == r0 && Select(s1, pick) == r1 && Select(s2, pick) == r2
    requires Select(s3, pick) == r3 && Select(s4, pick) == r4 && Select(s5, pick) == r5
    requires Select(s6, pick) == r6 && Select(s7, pick) == r7
    ensures Select(s0 + s1 + s2 + s3 + s4 + s5 + s6 + s7, pick) == r0 + r1 + r2 + r3 + r4 + r5 + r6 + r7
  {
    SelectAppend(s0, s1, pick);
    SelectAppend(s0 + s1, s2, pick);
    SelectAppend(s0 + s1 + s2, s3, pick);
    SelectAppend(s0 + s1 + s2 + s3, s4, pick);
    SelectAppend(s0 + s1 + s2 + s3 + s4, s5, pick);
    SelectAppend(s0 + s1 + s2 + s3 + s4 + s5, s6, pick);
    SelectAppend(s0 + s1 + s2 + s3 + s4 + s5 + s6, s7, pick);
  }
}
