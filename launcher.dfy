/**
 * The profile resolver of main.go: looking a profile up by name, deriving
 * its run options, and the chain lookup -> derive -> argument vector that
 * main's closure performs.
 */
module Launcher {
  import opened Wrappers
  import opened Docker

  /** One entry of the `containers` list of the YAML configuration. */
  datatype ContainerConfig = ContainerConfig(
    name: string,
    image: string,
    stdin: bool,
    asUser: bool,
    mountWorkdir: bool,
    mounts: seq<string>,
    cmd: seq<string>)

  /** The parsed configuration: profiles in declaration order. */
  datatype Config = Config(containers: seq<ContainerConfig>)

  /** The errors main's closure can return before docker is started. */
  datatype Error =
    | MissingContainerName            // fewer than two command-line arguments
    | ContainerNotFound               // no profile carries the requested name
    | WorkdirUnavailable(cause: string)  // os.Getwd failed while mounting the workdir

  // ---------------------------------------------------------------------
  // Lookup
  // ---------------------------------------------------------------------

  /** i is the position of the first profile named `name`. */
  ghost predicate IsFirstMatch(cs: seq<ContainerConfig>, name: string, i: int) {
    && 0 <= i < |cs|
    && cs[i].name == name
    && forall j :: 0 <= j < i ==> cs[j].name != name
  }

  /** The position of the first profile named `name`, if there is one. */
  function FirstIndex(cs: seq<ContainerConfig>, name: string): (r: Option<nat>)
    ensures r.Some? ==> IsFirstMatch(cs, name, r.value)
    ensures r.None? <==> forall i :: 0 <= i < |cs| ==> cs[i].name != name
  {
    if |cs| == 0 then None
    else if cs[0].name == name then Some(0)
    else match FirstIndex(cs[1..], name)
      case None => None
      case Some(k) => Some(k + 1)
  }

  /** The profile GetContainerConfig returns, as a function. */
  function Lookup(cfg: Config, name: string): Option<ContainerConfig> {
    match FirstIndex(cfg.containers, name)
    case None => None
    case Some(i) => Some(cfg.containers[i])
  }

  /**
   * Config.GetContainerConfig: a linear scan in declaration order that
   * returns the first profile whose name equals `name` exactly, or None.
   */
  method GetContainerConfig(cfg: Config, name: string) returns (r: Option<ContainerConfig>)
    ensures r == Lookup(cfg, name)
    ensures r.None? <==> forall i :: 0 <= i < |cfg.containers| ==> cfg.containers[i].name != name
    ensures r.Some? ==> exists i :: IsFirstMatch(cfg.containers, name, i) && r.value == cfg.containers[i]
  {
    var i := 0;
    while i < |cfg.containers|
      invariant 0 <= i <= |cfg.containers|
      invariant forall j :: 0 <= j < i ==> cfg.containers[j].name != name
    {
      if cfg.containers[i].name == name {
        assert IsFirstMatch(cfg.containers, name, i);
        return Some(cfg.containers[i]);
      }
      i := i + 1;
    }
    return None;
  }

  /** A profile found by name carries exactly that name: no normalisation. */
  lemma LookupExactName(cfg: Config, name: string)
    requires Lookup(cfg, name).Some?
    ensures Lookup(cfg, name).value.name == name
    ensures Lookup(cfg, name).value in cfg.containers
  {
  }

  /** The first match wins: no later profile of the same name is ever chosen. */
  lemma LookupFirstMatch(cs: seq<ContainerConfig>, name: string, i: nat)
    requires i < |cs| && cs[i].name == name
    ensures FirstIndex(cs, name).Some? && FirstIndex(cs, name).value <= i
    ensures Lookup(Config(cs), name) == Some(cs[FirstIndex(cs, name).value])
  {
  }

  /** Profiles appended after a match do not change the result. */
  lemma {:induction false} LookupStableUnderAppend(cs: seq<ContainerConfig>, more: seq<ContainerConfig>, name: string)
    requires Lookup(Config(cs), name).Some?
    ensures Lookup(Config(cs + more), name) == Lookup(Config(cs), name)
  {
    if cs[0].name != name {
      assert (cs + more)[1..] == cs[1..] + more;
      LookupStableUnderAppend(cs[1..], more, name);
    }
  }

  /** [A, B, A'] with A and A' sharing a name resolves that name to A. */
  lemma DuplicateNameResolvesToFirst(a: ContainerConfig, b: ContainerConfig, a': ContainerConfig)
    requires a'.name == a.name
    ensures Lookup(Config([a, b, a']), a.name) == Some(a)
  {
  }

  // ---------------------------------------------------------------------
  // Run-option derivation
  // ---------------------------------------------------------------------

  /** The set of paths listed in a sequence of mounts. */
  function PathSet(mounts: seq<string>): set<string> {
    set m | m in mounts
  }

  /** The volume map in which every path of `paths` is bound to itself. */
  function SelfMap(paths: set<string>): map<string, string> {
    map p | p in paths :: p
  }

  /** The paths that become volumes: the working directory, if mounted, and the mounts. */
  function VolumePaths(c: ContainerConfig, pwd: string): set<string> {
    (if c.mountWorkdir then {pwd} else {}) + PathSet(c.mounts)
  }

  /**
   * The run options getRunOptions yields for profile `c` when os.Getwd
   * would report `cwd`; the working directory is consulted only when the
   * profile mounts it.
   */
  function DeriveRunOptions(c: ContainerConfig, cwd: Result<string, string>): Result<RunOptions, Error> {
    if c.mountWorkdir && cwd.Failure? then Failure(WorkdirUnavailable(cwd.error))
    else
      var pwd := if c.mountWorkdir then cwd.value else "";
      Success(RunOptions(c.name, c.image, c.stdin, c.asUser, "",
                         SelfMap(VolumePaths(c, pwd)), pwd, c.cmd))
  }

  /**
   * What getRunOptions promises of its result `r`: it fails exactly when the
   * working directory is wanted and unavailable; otherwise the identity
   * fields are copied, the entrypoint is unset, the command is copied, every
   * volume binds a path to itself, and the volume paths are the mounts plus,
   * when asked for, the working directory, which then is also WorkDir.
   */
  ghost predicate DerivationHolds(c: ContainerConfig, cwd: Result<string, string>, r: Result<RunOptions, Error>) {
    && (r.Failure? <==> c.mountWorkdir && cwd.Failure?)
    && (r.Failure? ==> r.error == WorkdirUnavailable(cwd.error))
    && (r.Success? ==>
         var o := r.value;
         && o.name == c.name && o.image == c.image && o.stdin == c.stdin && o.asUser == c.asUser
         && o.entryPoint == "" && o.cmd == c.cmd
         && (forall p :: p in o.volumes ==> o.volumes[p] == p)
         && (!c.mountWorkdir ==> o.volumes.Keys == PathSet(c.mounts) && o.workDir == "")
         && (c.mountWorkdir ==> o.volumes.Keys == {cwd.value} + PathSet(c.mounts) && o.workDir == cwd.value))
  }

  lemma DeriveRunOptionsMeaning(c: ContainerConfig, cwd: Result<string, string>)
    ensures DerivationHolds(c, cwd, DeriveRunOptions(c, cwd))
  {
  }

  /**
   * ContainerConfig.getRunOptions: copies the identity fields, binds the
   * working directory (when asked) and every mount to itself, and copies
   * the command when it is non-empty. `cwd` is what os.Getwd returns.
   */
  method GetRunOptions(c: ContainerConfig, cwd: Result<string, string>) returns (r: Result<RunOptions, Error>)
    ensures r == DeriveRunOptions(c, cwd)
    ensures DerivationHolds(c, cwd, r)
  {
    var opts := RunOptions(c.name, c.image, c.stdin, c.asUser, "", map[], "", []);
    if c.mountWorkdir {
      if cwd.Failure? {
        return Failure(WorkdirUnavailable(cwd.error));
      }
      var pwd := cwd.value;
      opts := opts.(volumes := opts.volumes[pwd := pwd]);
      opts := opts.(workDir := pwd);
    }
    ghost var before := opts;
    ghost var base := opts.volumes.Keys;
    var i := 0;
    while i < |c.mounts|
      invariant 0 <= i <= |c.mounts|
      invariant opts == before.(volumes := opts.volumes)
      invariant opts.volumes.Keys == base + PathSet(c.mounts[..i])
      invariant forall p :: p in opts.volumes ==> opts.volumes[p] == p
    {
      var mount := c.mounts[i];
      assert PathSet(c.mounts[..i + 1]) == PathSet(c.mounts[..i]) + {mount} by {
        assert c.mounts[..i + 1] == c.mounts[..i] + [mount];
      }
      opts := opts.(volumes := opts.volumes[mount := mount]);
      i := i + 1;
    }
    assert c.mounts[..i] == c.mounts;
    assert base == (if c.mountWorkdir then {before.workDir} else {});
    SelfMapOfKeys(opts.volumes, VolumePaths(c, before.workDir));
    if |c.cmd| > 0 {
      opts := opts.(cmd := c.cmd);
    } else {
      assert c.cmd == [];
    }
    r := Success(opts);
    DeriveRunOptionsMeaning(c, cwd);
  }

  /** A map whose keys are `paths` and that binds each key to itself is SelfMap(paths). */
  lemma SelfMapOfKeys(m: map<string, string>, paths: set<string>)
    requires m.Keys == paths
    requires forall p :: p in m ==> m[p] == p
    ensures m == SelfMap(paths)
  {
  }

  /** When the working directory is not mounted, os.Getwd's answer is irrelevant. */
  lemma GetwdIgnoredWithoutMountWorkdir(c: ContainerConfig, cwd1: Result<string, string>, cwd2: Result<string, string>)
    requires !c.mountWorkdir
    ensures DeriveRunOptions(c, cwd1) == DeriveRunOptions(c, cwd2)
    ensures DeriveRunOptions(c, cwd1).Success?
  {
  }

  /** A path mounted twice yields one volume entry: duplicates collapse. */
  lemma DuplicateMountCollapses(c: ContainerConfig, cwd: Result<string, string>, p: string)
    requires p in c.mounts
    ensures DeriveRunOptions(c.(mounts := c.mounts + [p]), cwd) == DeriveRunOptions(c, cwd)
  {
    assert PathSet(c.mounts + [p]) == PathSet(c.mounts);
  }

  /** The order of the mounts list does not matter, only the paths it holds. */
  lemma MountOrderIrrelevant(c: ContainerConfig, cwd: Result<string, string>, mounts: seq<string>)
    requires multiset(mounts) == multiset(c.mounts)
    ensures DeriveRunOptions(c.(mounts := mounts), cwd) == DeriveRunOptions(c, cwd)
  {
    assert forall m :: m in mounts <==> m in multiset(mounts);
    assert PathSet(mounts) == PathSet(c.mounts);
  }

  /** A list of n mounts gives at most n distinct paths. */
  lemma {:induction false} PathSetSize(mounts: seq<string>)
    ensures |PathSet(mounts)| <= |mounts|
  {
    if mounts != [] {
      assert PathSet(mounts) == PathSet(mounts[1..]) + {mounts[0]};
      PathSetSize(mounts[1..]);
    }
  }

  /** There are never more volumes than mounts plus the working directory. */
  lemma VolumeCount(c: ContainerConfig, cwd: Result<string, string>)
    requires DeriveRunOptions(c, cwd).Success?
    ensures |DeriveRunOptions(c, cwd).value.volumes| <= |c.mounts| + (if c.mountWorkdir then 1 else 0)
  {
    var pwd := if c.mountWorkdir then cwd.value else "";
    var vols := DeriveRunOptions(c, cwd).value.volumes;
    assert vols.Keys == VolumePaths(c, pwd);
    PathSetSize(c.mounts);
  }

  /** The same path listed twice gives exactly one volume, bound to itself. */
  lemma SameMountTwice(c: ContainerConfig, cwd: Result<string, string>, p: string)
    requires !c.mountWorkdir && c.mounts == [p, p]
    ensures DeriveRunOptions(c, cwd).value.volumes == map[p := p]
  {
    assert PathSet(c.mounts) == {p};
  }

  // ---------------------------------------------------------------------
  // The composed invocation of main's closure
  // ---------------------------------------------------------------------

  /**
   * The docker argument vector main's closure would run, or the error it
   * returns first. `argv` is os.Args (program name first), `cfg` the
   * configuration readConfig produced, `cwd` os.Getwd's answer and
   * `uid`/`gid` the effective ids.
   */
  function Invocation(cfg: Config, argv: seq<string>, cwd: Result<string, string>, uid: nat, gid: nat): Result<seq<string>, Error> {
    if |argv| < 2 then Failure(MissingContainerName)
    else match Lookup(cfg, argv[1])
      case None => Failure(ContainerNotFound)
      case Some(c) =>
        match DeriveRunOptions(c, cwd)
        case Failure(e) => Failure(e)
        case Success(o) => Success(ExpectedArgs(o, uid, gid))
  }

  /** main's closure up to the point where docker is started. */
  method PrepareInvocation(cfg: Config, argv: seq<string>, cwd: Result<string, string>, uid: nat, gid: nat)
    returns (r: Result<seq<string>, Error>)
    ensures r == Invocation(cfg, argv, cwd, uid, gid)
    ensures r == Failure(MissingContainerName) <==> |argv| < 2
    ensures r == Failure(ContainerNotFound) <==>
      |argv| >= 2 && forall i :: 0 <= i < |cfg.containers| ==> cfg.containers[i].name != argv[1]
  {
    if |argv| < 2 {
      return Failure(MissingContainerName);
    }
    var containerCfg := GetContainerConfig(cfg, argv[1]);
    if containerCfg.None? {
      return Failure(ContainerNotFound);
    }
    var runOpts := GetRunOptions(containerCfg.value, cwd);
    if runOpts.Failure? {
      return Failure(runOpts.error);
    }
    var args := Args(runOpts.value, uid, gid);
    return Success(args);
  }

  /** A successful invocation runs the first matching profile's image and command. */
  lemma InvocationRunsFirstMatch(cfg: Config, argv: seq<string>, cwd: Result<string, string>, uid: nat, gid: nat)
    requires Invocation(cfg, argv, cwd, uid, gid).Success?
    ensures var c := Lookup(cfg, argv[1]).value;
      var args := Invocation(cfg, argv, cwd, uid, gid).value;
      && c.name == argv[1]
      && args[..2] == ["run", "--rm"]
      && |args| == 3 + (if c.asUser then 6 else 0) + |c.cmd|
      && args[|args| - |c.cmd| - 1] == c.image
      && args[|args| - |c.cmd|..] == c.cmd
  {
  }
}
