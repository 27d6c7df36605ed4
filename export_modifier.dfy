/**
 * The `poetry export` overrides: a package wrapper whose `all_requires`
 * pins directory dependencies, a locker wrapper that pins the main group of
 * each locked directory package, and `ExportModifier.execute`, which gives
 * the command a copy of its context carrying both wrappers.
 */
module ExportModifier {
  import opened Values
  import opened Paths
  import opened Config
  import opened Dependencies
  import opened Pinning
  import opened Discovery
  import opened GroupRewrite
  import opened Console
  import opened Host
  import PathDepPinner

  /**
   * `[pin(dep) if isinstance(dep, DirectoryDependency) else dep for dep in deps]`:
   * the first pin that fails ends the comprehension with its error.
   */
  function PinRequires(deps: seq<Dependency>, pin: DirectoryDependency -> Result<Dependency, PinError>): (r: Result<seq<Dependency>, PinError>)
    ensures r.Ok? ==> |r.value| == |deps|
  {
    if deps == [] then Ok([])
    else
      var head := if deps[0].source.Directory? then pin(deps[0]) else Ok(deps[0]);
      match head
      case Err(e) => Err(e)
      case Ok(h) =>
        match PinRequires(deps[1..], pin)
        case Err(e) => Err(e)
        case Ok(t) => Ok([h] + t)
  }

  /** A dependency a pin fails on. */
  predicate FailsOn(d: Dependency, pin: DirectoryDependency -> Result<Dependency, PinError>)
  {
    d.source.Directory? && pin(d).Err?
  }

  /**
   * When no pin fails, the list keeps its length and order: each directory
   * dependency is replaced by its pinned form and every other entry is kept.
   */
  lemma {:induction false} PinRequiresShape(deps: seq<Dependency>, pin: DirectoryDependency -> Result<Dependency, PinError>)
    ensures PinRequires(deps, pin).Ok? <==> forall i :: 0 <= i < |deps| ==> !FailsOn(deps[i], pin)
    ensures PinRequires(deps, pin).Ok? ==>
      var r := PinRequires(deps, pin).value;
      && |r| == |deps|
      && forall i :: 0 <= i < |deps| ==>
           r[i] == if deps[i].source.Directory? then pin(deps[i]).value else deps[i]
  {
    if deps != [] {
      PinRequiresShape(deps[1..], pin);
      assert forall i :: 1 <= i < |deps| ==> deps[i] == deps[1..][i - 1];
    }
  }

  /** A failure is the error of the first dependency a pin fails on. */
  lemma {:induction false} PinRequiresFirstError(deps: seq<Dependency>, pin: DirectoryDependency -> Result<Dependency, PinError>)
    ensures PinRequires(deps, pin).Err? ==>
      exists i :: 0 <= i < |deps| && FailsOn(deps[i], pin) && pin(deps[i]).error == PinRequires(deps, pin).error &&
        forall j :: 0 <= j < i ==> !FailsOn(deps[j], pin)
  {
    if deps != [] && PinRequires(deps, pin).Err? && !FailsOn(deps[0], pin) {
      PinRequiresFirstError(deps[1..], pin);
      var i :| 0 <= i < |deps[1..]| && FailsOn(deps[1..][i], pin) && pin(deps[1..][i]).error == PinRequires(deps[1..], pin).error &&
        forall j :: 0 <= j < i ==> !FailsOn(deps[1..][j], pin);
      assert deps[i + 1] == deps[1..][i];
      forall j | 0 <= j < i + 1 ensures !FailsOn(deps[j], pin) {
        if j > 0 {
          assert deps[j] == deps[1..][j - 1];
        }
      }
    }
  }

  /**
   * `all_requires` of a package, given what poetry-core's property returns
   * for it: a wrapper pins its directory dependencies with its pinner, a
   * plain package returns the list as it is.
   */
  function AllRequires(pkg: Package, inherited: seq<Dependency>, fs: map<Path, Manifest>): (r: Result<seq<Dependency>, PinError>)
    ensures r.Ok? ==> |r.value| == |inherited|
  {
    match pkg.pinner
    case None => Ok(inherited)
    case Some(conf) => PinRequires(inherited, PathDepPinner.PinFor(conf, fs))
  }

  /** `PathDepPinningPackage.from_package(package, pinner)`: every field copied, the pinner added. */
  function FromPackage(pkg: Package, conf: MonorangerConfig): (r: Package)
    ensures r.pinner == Some(conf) && r.(pinner := pkg.pinner) == pkg
  {
    pkg.(pinner := Some(conf))
  }

  /** A wrapped package pins with the corrected pinner; every other field is the original's. */
  lemma FromPackageRequires(pkg: Package, conf: MonorangerConfig, inherited: seq<Dependency>, fs: map<Path, Manifest>)
    ensures FromPackage(pkg, conf).name == pkg.name && FromPackage(pkg, conf).groups == pkg.groups
    ensures FromPackage(pkg, conf).sourceType == pkg.sourceType && FromPackage(pkg, conf).sourceUrl == pkg.sourceUrl
    ensures AllRequires(FromPackage(pkg, conf), inherited, fs) == PinRequires(inherited, PathDepPinner.PinFor(conf, fs))
    ensures pkg.pinner.None? ==> AllRequires(pkg, inherited, fs) == Ok(inherited)
  {
  }

  /**
   * `PathDepPinningLocker._get_locked_package`, given the package the base
   * locker built: a directory package loses its source and has its main
   * group pinned in place; any other package comes back as it was.
   */
  method GetLockedPackage(pinner: MonorangerConfig, io: IO, package: Package, fs: map<Path, Manifest>, v2: bool)
    returns (p: Package, raised: Option<PinError>)
    modifies io
    modifies if package.sourceType == Some("directory") && MainGroup in package.groups
             then {package.groups[MainGroup]} else {}
    ensures package.sourceType != Some("directory") ==>
      p == package && raised == None && io.lines == old(io.lines)
    ensures package.sourceType == Some("directory") ==>
      p == package.(sourceType := None, sourceUrl := None)
    ensures package.sourceType == Some("directory") && MainGroup !in package.groups ==>
      raised == None && io.lines == old(io.lines)
    ensures package.sourceType == Some("directory") && MainGroup in package.groups ==>
      var grp := package.groups[MainGroup];
      var out := Rewrite(old(grp.dependencies), old(io.lines),
        DirectoryDeps(v2, old(grp.poetryDependencies), old(grp.dependencies), old(grp.dependenciesForLocking)),
        PathDepPinner.PinFor(pinner, fs));
      && grp.dependencies == out.deps && io.lines == out.lines && raised == out.raised
      && grp.poetryDependencies == old(grp.poetryDependencies)
      && grp.dependenciesForLocking == old(grp.dependenciesForLocking)
    ensures io.packagesArgument == old(io.packagesArgument)
  {
    p := package;
    raised := None;
    if package.sourceType == Some("directory") {
      p := package.(sourceType := None, sourceUrl := None);
      if MainGroup in package.groups {
        raised := PathDepPinner.PinDepGroup(pinner, package.groups[MainGroup], io, fs, v2);
      }
    }
  }

  const RootNotice := "Running command from monorepo root directory"

  /**
   * `ExportModifier(conf).execute(event)`: after a notice and a reload of
   * Poetry's settings, a context is created at the monorepo root; the
   * command then gets a shallow copy of its own context whose package is
   * wrapped with a pinner and whose locker is the root context's, wrapped.
   * The original context object is left as it was.
   */
  method Execute(conf: MonorangerConfig, event: Event, host: Host) returns (raised: Option<Fault>)
    modifies event.command, event.io, host
    ensures event.command.kind != Export ==>
      raised == Some(AssertionFailed) && event.command.poetry == old(event.command.poetry) &&
      event.io.lines == old(event.io.lines) && host.poetryRequests == old(host.poetryRequests) &&
      host.configReloads == old(host.configReloads)
    ensures event.command.kind == Export ==>
      event.io.lines == old(event.io.lines) + [RootNotice] &&
      host.configReloads == old(host.configReloads) + 1
    ensures event.command.kind == Export && !conf.monorepoRoot.Str? ==>
      raised == Some(RootNotText(conf.monorepoRoot)) && event.command.poetry == old(event.command.poetry) &&
      host.poetryRequests == old(host.poetryRequests)
    ensures event.command.kind == Export && conf.monorepoRoot.Str? ==>
      var original := old(event.command.poetry);
      var root := RootDir(original.pyprojectPath, conf.monorepoRoot.s);
      var copy := event.command.poetry;
      && raised == None
      && host.poetryRequests == old(host.poetryRequests) + [PoetryRequest(root, event.io, original.disableCache)]
      && fresh(copy) && copy != original
      && copy.pyprojectPath == original.pyprojectPath && copy.file == original.file
      && copy.pool == original.pool && copy.config == original.config
      && copy.disableCache == original.disableCache
      && copy.package == FromPackage(original.package, conf)
      && copy.locker == PinningLocker(host.projectAt(root).locker, conf, event.io)
    ensures unchanged(old(event.command.poetry))
    ensures event.command.installer == old(event.command.installer) && event.command.env == old(event.command.env)
    ensures event.io.packagesArgument == old(event.io.packagesArgument)
    ensures host.venvRequests == old(host.venvRequests)
  {
    var command := event.command;
    if command.kind != Export {
      return Some(AssertionFailed);
    }
    var io := event.io;
    io.WriteLine(RootNotice);
    host.ReloadConfig();
    var original := command.poetry;
    var root := MonorepoRoot(original.pyprojectPath, conf);
    if root.Err? {
      return Some(root.error);
    }
    var rootPoetry := host.CreatePoetry(root.value, io, original.disableCache);
    var poetry := new Poetry.Copy(original);
    poetry.package := FromPackage(poetry.package, conf);
    poetry.locker := PinningLocker(rootPoetry.locker, conf, io);
    command.poetry := poetry;
    raised := None;
  }
}
