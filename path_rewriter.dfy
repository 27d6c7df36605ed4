/**
 * `PathRewriter`: during `poetry build`, each directory dependency of the
 * main group is replaced by a dependency on the version the target
 * subproject declares, constrained by `version_rewrite_rule`.
 */
module PathRewriter {
  import opened Values
  import opened Paths
  import opened Config
  import opened Dependencies
  import opened Pinning
  import opened Discovery
  import opened GroupRewrite
  import opened Console
  import opened Host
  import opened Versions

  /** `poetry.pyproject_path.parent / dependency.path / "pyproject.toml"` */
  function TargetPath(pyprojectPath: Path, dep: DirectoryDependency): Path
  {
    Resolve(Join(Join(Parent(pyprojectPath), Parse(dep.source.path)), Path(false, ["pyproject.toml"])))
  }

  /**
   * The target's name and version: from `[tool.poetry]` when the manifest has
   * that table, from `[project]` only when it has not. A `[tool.poetry]`
   * table without a name or version raises `KeyError`, which nothing catches.
   */
  function NameAndVersion(m: Manifest): (r: Result<(string, string), PinError>)
    ensures r.Err? ==> !Recoverable(r.error)
  {
    match PoetryConfig(m)
    case Some(pc) =>
      (match NameVersionIn(pc)
       case Ok(nv) => AsText(nv)
       case Err(e) => Err(e))
    case None =>
      match ProjectNameVersion(m)
      case Ok(nv) => AsText(nv)
      case Err(e) => Err(e)
  }

  /** `_pin_dependency(poetry, dependency)` */
  function PinDependency(pyprojectPath: Path, rule: Value, fs: map<Path, Manifest>,
                         dep: DirectoryDependency): (r: Result<Dependency, PinError>)
    ensures r.Ok? ==> r.value.source == Registry && r.value.groups == dep.groups
    ensures r.Ok? ==> KnownRule(rule)
  {
    match OpenManifest(fs, TargetPath(pyprojectPath, dep), dep.source.path)
    case Err(e) => Err(e)
    case Ok(m) =>
      match NameAndVersion(m)
      case Err(e) => Err(e)
      case Ok((name, version)) => PinTo(dep, rule, name, version)
  }

  /** The pin the loop applies to each dependency. */
  function PinFor(pyprojectPath: Path, rule: Value, fs: map<Path, Manifest>): DirectoryDependency -> Result<Dependency, PinError>
  {
    (dep: DirectoryDependency) => PinDependency(pyprojectPath, rule, fs, dep)
  }

  /**
   * A pin succeeds exactly when the target manifest exists, is a Poetry
   * project, yields a textual name and version, the rule is one of the four
   * and the version parses (so that the constraint made of it parses). The result carries the target's name, that
   * constraint, and the groups, optional flag and extras of the directory
   * dependency, and no longer points at a directory.
   */
  lemma PinDependencySucceeds(pyprojectPath: Path, rule: Value, fs: map<Path, Manifest>, dep: DirectoryDependency)
    ensures var t := TargetPath(pyprojectPath, dep);
      PinDependency(pyprojectPath, rule, fs, dep).Ok? <==>
        && t in fs && IsPoetryProject(fs[t])
        && NameAndVersion(fs[t]).Ok?
        && KnownRule(rule) && ParseVersion(NameAndVersion(fs[t]).value.1).Some?
    ensures var t := TargetPath(pyprojectPath, dep);
      PinDependency(pyprojectPath, rule, fs, dep).Ok? ==>
        var r := PinDependency(pyprojectPath, rule, fs, dep).value;
        var (name, version) := NameAndVersion(fs[t]).value;
        && r.name == name && r.constraint == Constraint(rule, version).value
        && r.groups == dep.groups && r.optional == dep.optional && r.features == dep.features
        && r.source == Registry
  {
  }

  /**
   * A missing or non-Poetry target, an unknown rule, or a version that does
   * not parse (under `>=,<` when the version is parsed, under the other rules
   * when the constraint is) is an error the loop catches; a target whose
   * `[tool.poetry]` value lacks a name, or is not a table, is one it does not.
   */
  lemma PinDependencyErrors(pyprojectPath: Path, rule: Value, fs: map<Path, Manifest>, dep: DirectoryDependency)
    ensures TargetPath(pyprojectPath, dep) !in fs ==>
      PinDependency(pyprojectPath, rule, fs, dep) == Err(ManifestMissing(dep.source.path))
    ensures var t := TargetPath(pyprojectPath, dep);
      t in fs && IsPoetryProject(fs[t]) && NameAndVersion(fs[t]).Ok? && !KnownRule(rule) ==>
        PinDependency(pyprojectPath, rule, fs, dep) == Err(InvalidRule(rule))
    ensures var t := TargetPath(pyprojectPath, dep);
      t in fs && IsPoetryProject(fs[t]) && NameAndVersion(fs[t]).Ok? && KnownRule(rule) &&
      ParseVersion(NameAndVersion(fs[t]).value.1).None? ==>
        var version := NameAndVersion(fs[t]).value.1;
        PinDependency(pyprojectPath, rule, fs, dep) ==
          Err(if rule == Str(">=,<") then InvalidVersion(version) else InvalidConstraint(Lead(rule) + version))
    ensures var t := TargetPath(pyprojectPath, dep);
      t in fs && PoetryConfig(fs[t]).Some? && !(PoetryConfig(fs[t]).value.Table? && HasKey(PoetryConfig(fs[t]).value.entries, "name")) ==>
        PinDependency(pyprojectPath, rule, fs, dep) ==
          Err(if PoetryConfig(fs[t]).value.Table? then MissingKey("name") else NotATable("name"))
  {
    var t := TargetPath(pyprojectPath, dep);
    if t in fs && IsPoetryProject(fs[t]) && NameAndVersion(fs[t]).Ok? && KnownRule(rule) {
      var (name, version) := NameAndVersion(fs[t]).value;
      if ParseVersion(version).None? {
        UnparsableVersionIsCaught(dep, rule, name, version);
      }
    }
  }

  /** Only the `[project]` table is read when `[tool.poetry]` is absent. */
  lemma NameAndVersionFallback(m: Manifest)
    requires PoetryConfig(m).None?
    ensures NameAndVersion(m).Ok? <==>
      HasKey(m.data, "project") && Lookup(m.data, "project").value.Table? &&
      var p := Lookup(m.data, "project").value.entries;
      HasKey(p, "name") && HasKey(p, "version") &&
      Lookup(p, "name").value.Str? && Lookup(p, "version").value.Str?
  {
  }

  /**
   * `PathRewriter(conf).execute(event)`: the main group of the build
   * command's package is rewritten in place by the pinning loop over the
   * directory dependencies it holds.
   */
  method Execute(conf: MonorangerConfig, event: Event, fs: map<Path, Manifest>, v2: bool)
    returns (raised: Option<Fault>)
    modifies event.io
    modifies if event.command.kind == Build && MainGroup in event.command.poetry.package.groups
             then {event.command.poetry.package.groups[MainGroup]} else {}
    ensures event.command.kind != Build ==>
      raised == Some(AssertionFailed) && event.io.lines == old(event.io.lines)
    ensures event.command.kind == Build && MainGroup !in event.command.poetry.package.groups ==>
      raised == Some(NoMainGroup) && event.io.lines == old(event.io.lines)
    ensures event.command.kind == Build && MainGroup in event.command.poetry.package.groups ==>
      var grp := event.command.poetry.package.groups[MainGroup];
      var out := Rewrite(old(grp.dependencies), old(event.io.lines),
        DirectoryDeps(v2, old(grp.poetryDependencies), old(grp.dependencies), old(grp.dependenciesForLocking)),
        PinFor(event.command.poetry.pyprojectPath, conf.versionRewriteRule, fs));
      && grp.dependencies == out.deps && event.io.lines == out.lines
      && raised == (if out.raised.Some? then Some(PinFailed(out.raised.value)) else None)
      && grp.poetryDependencies == old(grp.poetryDependencies)
      && grp.dependenciesForLocking == old(grp.dependenciesForLocking)
    ensures event.io.packagesArgument == old(event.io.packagesArgument)
  {
    var command := event.command;
    if command.kind != Build {
      return Some(AssertionFailed);
    }
    var io := event.io;
    var poetry := command.poetry;
    if MainGroup !in poetry.package.groups {
      return Some(NoMainGroup);
    }
    var mainDepsGroup := poetry.package.groups[MainGroup];
    var directoryDeps := GetDirectoryDeps(mainDepsGroup, v2);
    var e := PinGroup(mainDepsGroup, directoryDeps, PinFor(poetry.pyprojectPath, conf.versionRewriteRule, fs), io);
    raised := if e.Some? then Some(PinFailed(e.value)) else None;
  }
}
