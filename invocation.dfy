/** Container-engine command lines at the token level. A command is the
    program words followed by argument records; the backslash-newline layout
    and the shell quoting of the source's template strings are not modelled. */
module Invocation {
  import opened Wrappers
  import opened Images

  /** A value interpolated into a command line. */
  datatype Value =
    | Text(text: string)
    | Number(n: int)
    | Image(ref: ImageRef)
    | Tag(tag: ImageTag)

  /** The environment variables a command line names. Each constructor is
      spelled exactly as the variable is named on the command line. */
  datatype EnvVar =
    | UNITY_LICENSE | UNITY_LICENSE_FILE | UNITY_EMAIL | UNITY_PASSWORD | UNITY_SERIAL
    | UNITY_VERSION | PROJECT_PATH | BUILD_TARGET | BUILD_NAME | BUILD_PATH | BUILD_FILE
    | BUILD_METHOD | VERSION
    | ANDROID_VERSION_CODE | ANDROID_KEYSTORE_NAME | ANDROID_KEYSTORE_BASE64
    | ANDROID_KEYSTORE_PASS | ANDROID_KEYALIAS_NAME | ANDROID_KEYALIAS_PASS
    | CUSTOM_PARAMETERS | HOME
    | GITHUB_REF | GITHUB_SHA | GITHUB_REPOSITORY | GITHUB_ACTOR | GITHUB_WORKFLOW
    | GITHUB_HEAD_REF | GITHUB_BASE_REF | GITHUB_EVENT_NAME | GITHUB_WORKSPACE
    | GITHUB_ACTION | GITHUB_EVENT_PATH
    | RUNNER_OS | RUNNER_TOOL_CACHE | RUNNER_TEMP | RUNNER_WORKSPACE

  /** A host path bind-mounted at a path inside the container. */
  datatype Mount = Mount(host: string, container: string)

  /** One argument of a command line. */
  datatype Arg =
    | Word(v: Value)                         // positional argument
    | Flag(flag: string)                     // e.g. --rm
    | Opt(option: string, v: Value)          // e.g. --file <v>, --tag <v>
    | BuildArg(key: string, v: Value)        // --build-arg KEY=<v>
    | PassEnv(name: EnvVar)                  // --env NAME (value inherited)
    | SetEnv(name: EnvVar, value: string)    // --env NAME=<value>
    | Volume(mount: Mount)                   // --volume "<host>":"<container>"

  datatype Command = Command(program: seq<string>, args: seq<Arg>)

  /** What `pick` makes of one argument: at most one value. */
  function Picked<T>(a: Arg, pick: Arg -> Option<T>): seq<T> {
    match pick(a)
    case Some(x) => [x]
    case None => []
  }

  /** The values picked out of `args`, in order, by `pick`. */
  function Select<T>(args: seq<Arg>, pick: Arg -> Option<T>): (r: seq<T>)
    ensures |r| <= |args|
  {
    if args == [] then [] else Picked(args[0], pick) + Select(args[1..], pick)
  }

  lemma SelectOne<T>(a: Arg, pick: Arg -> Option<T>)
    ensures Select([a], pick) == Picked(a, pick)
  {
    assert [a][1..] == [];
  }

  lemma {:induction false} SelectAppend<T>(a: seq<Arg>, b: seq<Arg>, pick: Arg -> Option<T>)
    ensures Select(a + b, pick) == Select(a, pick) + Select(b, pick)
  {
    if a == [] {
      assert a + b == b;
    } else {
      assert (a + b)[1..] == a[1..] + b;
      SelectAppend(a[1..], b, pick);
    }
  }

  /** The arguments made by wrapping each of `xs`, in order. */
  function Wrapped<T>(xs: seq<T>, wrap: T -> Arg): seq<Arg> {
    if xs == [] then [] else [wrap(xs[0])] + Wrapped(xs[1..], wrap)
  }

  /** Wrapping keeps the length and wraps each element in place. */
  lemma {:induction false} WrappedAt<T>(xs: seq<T>, wrap: T -> Arg)
    ensures |Wrapped(xs, wrap)| == |xs|
    ensures forall i :: 0 <= i < |xs| ==> Wrapped(xs, wrap)[i] == wrap(xs[i])
  {
    if xs != [] {
      WrappedAt(xs[1..], wrap);
      assert Wrapped(xs, wrap) == [wrap(xs[0])] + Wrapped(xs[1..], wrap);
    }
  }

  /** Picking with the inverse of the wrapper gives back what was wrapped. */
  lemma {:induction false} SelectWrapped<T>(xs: seq<T>, wrap: T -> Arg, pick: Arg -> Option<T>)
    requires forall x :: pick(wrap(x)) == Some(x)
    ensures Select(Wrapped(xs, wrap), pick) == xs
  {
    if xs != [] {
      assert Wrapped(xs, wrap)[1..] == Wrapped(xs[1..], wrap);
      SelectWrapped(xs[1..], wrap, pick);
    }
  }

  /** Picking with a function that ignores the wrapper gives nothing. */
  lemma {:induction false} SelectWrappedNothing<T, U>(xs: seq<T>, wrap: T -> Arg, pick: Arg -> Option<U>)
    requires forall x :: pick(wrap(x)) == None
    ensures Select(Wrapped(xs, wrap), pick) == []
  {
    if xs != [] {
      assert Wrapped(xs, wrap)[1..] == Wrapped(xs[1..], wrap);
      SelectWrappedNothing(xs[1..], wrap, pick);
    }
  }

  function PassEnvArg(name: EnvVar): Arg { PassEnv(name) }
  function SetEnvArg(e: (EnvVar, string)): Arg { SetEnv(e.0, e.1) }
  function VolumeArg(m: Mount): Arg { Volume(m) }

  function MountOf(a: Arg): Option<Mount> {
    if a.Volume? then Some(a.mount) else None
  }

  function PassedNameOf(a: Arg): Option<EnvVar> {
    if a.PassEnv? then Some(a.name) else None
  }

  function AssignmentOf(a: Arg): Option<(EnvVar, string)> {
    if a.SetEnv? then Some((a.name, a.value)) else None
  }

  function BuildArgOf(a: Arg): Option<(string, Value)> {
    if a.BuildArg? then Some((a.key, a.v)) else None
  }

  /** The bind mounts a command requests, in order. */
  function Volumes(args: seq<Arg>): seq<Mount> {
    Select(args, MountOf)
  }

  /** The names of the environment variables forwarded without a value. */
  function PassedEnv(args: seq<Arg>): seq<EnvVar> {
    Select(args, PassedNameOf)
  }

  /** The explicit environment assignments, in order. */
  function AssignedEnv(args: seq<Arg>): seq<(EnvVar, string)> {
    Select(args, AssignmentOf)
  }

  /** The build-time arguments, in order. */
  function BuildArgs(args: seq<Arg>): seq<(string, Value)> {
    Select(args, BuildArgOf)
  }

  function OptionOf(option: string): Arg -> Option<Value> {
    (a: Arg) => if a.Opt? && a.option == option then Some(a.v) else None
  }

  /** The values given to option `option`, in order. */
  function OptionValues(args: seq<Arg>, option: string): seq<Value> {
    Select(args, OptionOf(option))
  }

  /** The value assigned to `name` by the first assignment of it in `env`. */
  function Lookup(env: seq<(EnvVar, string)>, name: EnvVar): (r: Option<string>)
    ensures r.Some? ==> (name, r.value) in env
    ensures r.None? ==> forall i :: 0 <= i < |env| ==> env[i].0 != name
  {
    if env == [] then None
    else if env[0].0 == name then Some(env[0].1)
    else Lookup(env[1..], name)
  }

  /** No name is assigned twice. */
  predicate DistinctNames(env: seq<(EnvVar, string)>) {
    forall i, j :: 0 <= i < j < |env| ==> env[i].0 != env[j].0
  }

  /** With distinct names, each name finds its own value. */
  lemma {:induction false} LookupDistinct(env: seq<(EnvVar, string)>, k: nat)
    requires DistinctNames(env) && k < |env|
    ensures Lookup(env, env[k].0) == Some(env[k].1)
  {
    if k > 0 {
      assert env[k].0 == env[1..][k - 1].0;
      LookupDistinct(env[1..], k - 1);
    }
  }

  /** With distinct names, every entry is what a lookup of its name finds. */
  lemma LookupAll(env: seq<(EnvVar, string)>)
    requires DistinctNames(env)
    ensures forall k :: 0 <= k < |env| ==> Lookup(env, env[k].0) == Some(env[k].1)
  {
    forall k | 0 <= k < |env| ensures Lookup(env, env[k].0) == Some(env[k].1) {
      LookupDistinct(env, k);
    }
  }

  /** A name that no entry carries is not found. */
  lemma LookupAbsent(env: seq<(EnvVar, string)>, names: seq<EnvVar>)
    requires forall i, j :: 0 <= i < |names| && 0 <= j < |env| ==> names[i] != env[j].0
    ensures forall n :: n in names ==> Lookup(env, n) == None
  {
    forall n | n in names ensures Lookup(env, n) == None {
      var i :| 0 <= i < |names| && names[i] == n;
      if Lookup(env, n).Some? {
        assert false;
      }
    }
  }
}
