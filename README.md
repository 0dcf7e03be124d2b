# unity-builder `Docker` model

A Dafny model of `Docker` in `src/model/docker.js` of unity-builder, the
GitHub Action that builds Unity projects inside a container. `Docker` has two
operations:

- `build` picks the base image for the builder image. Android gets a fixed,
  digest-pinned image; everything else gets the requested base image. It then
  derives the builder image's tag, runs `docker build` and returns the tag.
- `run` creates two scratch directories under the runner's temporary
  directory, then runs `docker run`. The command sets the working directory,
  forwards and assigns environment variables, mounts four volumes and ends
  with the image.

The model has five modules:

- `Wrappers`: `Option` and `Result`.
- `Images`: the base-image descriptor, the image tag, the `IMAGE` choice
  (`ResolveImage`) and the tag derivation (`TagFor`).
- `Invocation`: command lines as a program plus a sequence of argument
  records (`--env NAME`, `--env NAME=value`, `--volume host:container`, …).
  It also holds `Select`, an order-preserving filter. The queries `Volumes`,
  `PassedEnv`, `AssignedEnv`, `BuildArgs` and `OptionValues` are built on it,
  so contracts can say which mounts, which variables and which option values
  a command carries. `Lookup` finds the value assigned to a variable's name.
  The run command assigns each name once (`RunEnvDistinct`), so this is the
  value it gives the variable whatever the container engine does with
  repeated names.
- `Commands`: the two command lines as functions of the parameter records,
  with their contracts.
- `Docker`: a `Host` class whose fields are the set of existing directories
  and the log of executed commands. `Build` and `Run` are methods that update
  it in the order the source does.

The platform test compares `platform` with the two literal spellings
`'android'` and `'Android'` (src/model/docker.js:11). The model follows the
code, so `'ANDROID'` and any other spelling keep the base image. This
differs from a case-insensitive reading of the platform name.

## Model

| member | source | states |
|---|---|---|
| Images.ResolveImage | src/model/docker.js:10-15 | The `IMAGE` argument is the pinned `gableroux/unity3d@sha256:d975…7593` reference exactly when the platform is `android` or `Android`; otherwise it is the base image unchanged |
| Images.AndroidIgnoresVersionAndSuffix | src/model/docker.js:11-14 | For an Android platform the chosen image is the pinned reference whatever the version and suffix are |
| Images.OtherSpellingsKeepBaseImage | src/model/docker.js:10-11 | Any platform other than the two literal spellings keeps the base image |
| Images.UpperCaseAndroidKeepsBaseImage | src/model/docker.js:11 | `ANDROID` is not matched and keeps the base image |
| Images.TagFor | src/model/docker.js:17 | The tag has an empty repository and the name `unity-builder`, and copies version, platform and suffix from the base image |
| Images.TagDeterminedByBaseImage | src/model/docker.js:17 | Two base images give equal tags if and only if their version, platform and suffix agree |
| Commands.BuildCommand | src/model/docker.js:18-23 | `docker build` with six arguments in template order: the context path, `--file` with the Dockerfile, the build arguments `IMAGE`, `UID`, `GID` in that order (the only three, so they fill positions 2-4), and last `--tag` with the derived tag. There is exactly one `--file` and exactly one `--tag`, and no mounts and no environment |
| Commands.BuildOptions | src/model/docker.js:19-23 | The build arguments carry exactly one `--file` and exactly one `--tag` value |
| Commands.BuildArgValues | src/model/docker.js:20-22 | The build arguments are `IMAGE` (the chosen image), `UID` and `GID`, in that order |
| Commands.BuildNoRunSettings | src/model/docker.js:18-23 | The build arguments hold no volume and no environment entry |
| Commands.RunCommand | src/model/docker.js:51-94 | `docker run` with 43 arguments: one per line of the template, plus the image. Its content is stated by `RunCommandShape`, `RunEnvironment` and `ForwardedNotAssigned` |
| Commands.RunCommandShape | src/model/docker.js:51-94 | `docker run` has exactly 43 arguments. It starts with `--workdir /github/workspace` and `--rm` and ends with the image. Every argument in between is an `--env NAME`, an `--env NAME=value` or a `--volume`, so there is no other option. It has exactly four mounts, in order: the Docker socket, `<runnerTempPath>/_github_home` → `/github/home`, `<runnerTempPath>/_github_workflow` → `/github/workflow`, and the workspace → `/github/workspace`. The 19 forwarded names are listed in template order, and the assignments are the 15 parameter fields followed by `HOME` and `GITHUB_WORKSPACE` |
| Commands.RunEnvDistinct | src/model/docker.js:59-83 | No variable is assigned twice by the run command |
| Commands.RunEnvironment | src/model/docker.js:59-83 | The assigned names are distinct, and every assignment in the run command is what a lookup of its name finds |
| Commands.ForwardedDisjointFromAssigned | src/model/docker.js:54-89 | No forwarded name is among the assigned names |
| Commands.ForwardedNotAssigned | src/model/docker.js:54-89 | Every forwarded name of the run command is given no value anywhere in the command |
| Docker.Host.MakeDirRecursive | src/model/docker.js:96-97 | The directory exists afterwards; a directory that already existed is not an error and leaves the set unchanged; the execution log is untouched |
| Docker.Host.Exec | src/model/docker.js:99 | The command is appended to the execution log, together with the directories that existed when it started and its outcome; directories are untouched |
| Docker.Build | src/model/docker.js:6-28 | Exactly one command is executed, the build command, with the caller's `silent`. On success the result is the derived tag, which is the same value as the command's `--tag` argument. Failure of the build is failure of `build`. No directory is created |
| Docker.Run | src/model/docker.js:30-100 | Both scratch directories are added to the host, and the run command is executed exactly once afterwards. At the moment it starts, both directories exist. Its outcome is the outcome of `run` |

## Left out

- `exec` (src/model/docker.js:25, 99) runs a foreign process. It is modelled as appending to an execution log with an outcome the caller does not choose. How failures are reported (exit codes, exceptions, output) is not modelled.
- `fs.mkdirSync` (src/model/docker.js:96-97) is modelled as inserting the path into a set of existing directories. Creating intermediate directories and filesystem errors are not modelled.
- The textual rendering of `ImageTag` (`./image-tag`) is not part of this model. The tag stays a record, and nothing is claimed about its string form or injectivity.
- The rendering of `baseImage` when it is interpolated as `IMAGE` is not visible. It is kept as the abstract `FromBase` value.
- The numeric rendering of `uid` and `gid` is kept as a `Number` value.
- Shell parsing, quoting and injection. Commands are modelled at the token level. A field containing spaces or quotes would split or merge tokens in the real shell string. An empty unquoted field yields no token at all there: an empty `path` or `dockerfile` in the build template (src/model/docker.js:18-19) disappears, while the model keeps `Word(Text(""))` or `Opt("--file", Text(""))`. The model claims no safety property the source lacks.
- The backslash-newline whitespace of the template strings is not modelled.
- `async`/`await` scheduling is not modelled. Each method is one sequential flow.
- The values of the forwarded variables in the runner's environment are not modelled; only their names are.
- Missing or `undefined` parameter fields are not modelled. Every field is a string, an integer or a base-image record.
- Commands.RunCommandShape: states the argument count, the first two arguments, the last one, and that everything in between is an environment entry or a mount. Order is stated within each kind (mounts, forwarded names, assignments). The interleaving of forwarded names and assignments across kinds is fixed by `RunLayout`, and no contract restates it.
- The `silent = false` default of `build` and `run` (src/model/docker.js:6, 30) is not a separate entry point. A call that omits it is `Build` or `Run` with `silent` set to `false`.
