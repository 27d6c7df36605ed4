/**
 * `PathDepPinner`, the pinning code the export wrappers use. It differs from
 * `PathRewriter` in three ways: the target manifest is found through the
 * dependency's `source_url`; the `[project]` table is also used when
 * `[tool.poetry]` lacks a name or version; and the rule is read from a
 * settings field named `version_pinning_rule`, which `MonorangerConfig`
 * does not have.
 */
module PathDepPinner {
  import opened Values
  import opened Paths
  import opened Config
  import opened Dependencies
  import opened Pinning
  import opened Discovery
  import opened GroupRewrite
  import opened Console
  import opened Host
  import opened Versions

  /** `Path(dependency.source_url) / "pyproject.toml"` */
  function TargetPath(dep: DirectoryDependency): Path
  {
    Resolve(Join(Parse(dep.source.url), Path(false, ["pyproject.toml"])))
  }

  /** The `[project]` table's name and version. */
  function ProjectFields(m: Manifest): Result<(string, string), PinError>
  {
    match ProjectNameVersion(m)
    case Ok(nv) => AsText(nv)
    case Err(e) => Err(e)
  }

  /**
   * The target's name and version: from `[tool.poetry]` when that table
   * holds both, otherwise (`PyProjectError` or `KeyError`) from `[project]`;
   * a `[tool.poetry]` value that is not a table raises `TypeError`, which
   * is not caught.
   */
  function NameAndVersion(m: Manifest): (r: Result<(string, string), PinError>)
    ensures r.Err? ==> !Recoverable(r.error)
  {
    match PoetryConfig(m)
    case Some(pc) =>
      (match NameVersionIn(pc)
       case Ok(nv) => AsText(nv)
       case Err(e) => if e.MissingKey? then ProjectFields(m) else Err(e))
    case None => ProjectFields(m)
  }

  /**
   * `_pin_dependency` as written: once the target's name and version are
   * read, `self.plugin_conf.version_pinning_rule` raises `AttributeError`.
   */
  function PinDependencyAsWritten(conf: MonorangerConfig, fs: map<Path, Manifest>,
                                  dep: DirectoryDependency): (r: Result<Dependency, PinError>)
    ensures r.Err?
  {
    match OpenManifest(fs, TargetPath(dep), dep.source.path)
    case Err(e) => Err(e)
    case Ok(m) =>
      match NameAndVersion(m)
      case Err(e) => Err(e)
      case Ok(_) => Err(MissingAttribute("version_pinning_rule"))
  }

  /** `_pin_dependency` with the rule read from the settings' rewrite rule. */
  function PinDependency(conf: MonorangerConfig, fs: map<Path, Manifest>,
                         dep: DirectoryDependency): (r: Result<Dependency, PinError>)
    ensures r.Ok? ==> r.value.source == Registry && r.value.groups == dep.groups
    ensures r.Ok? ==> KnownRule(conf.versionRewriteRule)
  {
    match OpenManifest(fs, TargetPath(dep), dep.source.path)
    case Err(e) => Err(e)
    case Ok(m) =>
      match NameAndVersion(m)
      case Err(e) => Err(e)
      case Ok((name, version)) => PinTo(dep, conf.versionRewriteRule, name, version)
  }

  function PinFor(conf: MonorangerConfig, fs: map<Path, Manifest>): DirectoryDependency -> Result<Dependency, PinError>
  {
    (dep: DirectoryDependency) => PinDependency(conf, fs, dep)
  }

  function PinForAsWritten(conf: MonorangerConfig, fs: map<Path, Manifest>): DirectoryDependency -> Result<Dependency, PinError>
  {
    (dep: DirectoryDependency) => PinDependencyAsWritten(conf, fs, dep)
  }

  /**
   * As written, no dependency is ever pinned: every call fails, and when the
   * target is a readable Poetry project the failure is an `AttributeError`
   * that the group loop does not catch.
   */
  lemma AsWrittenNeverPins(conf: MonorangerConfig, fs: map<Path, Manifest>, dep: DirectoryDependency)
    ensures PinDependencyAsWritten(conf, fs, dep).Err?
    ensures var t := TargetPath(dep);
      t in fs && IsPoetryProject(fs[t]) && NameAndVersion(fs[t]).Ok? ==>
        PinDependencyAsWritten(conf, fs, dep) == Err(MissingAttribute("version_pinning_rule")) &&
        !Recoverable(PinDependencyAsWritten(conf, fs, dep).error)
  {
  }

  /**
   * As written, the group loop warns about each dependency whose target is
   * missing or not a Poetry project, and stops at the first readable target
   * with the group unchanged and the `AttributeError` propagating.
   */
  lemma AsWrittenGroupAborts(deps: seq<Dependency>, lines: seq<string>, conf: MonorangerConfig,
                             fs: map<Path, Manifest>, skipped: seq<DirectoryDependency>,
                             dep: DirectoryDependency, rest: seq<DirectoryDependency>)
    requires forall k :: 0 <= k < |skipped| ==>
      !(TargetPath(skipped[k]) in fs && IsPoetryProject(fs[TargetPath(skipped[k])]))
    requires TargetPath(dep) in fs && IsPoetryProject(fs[TargetPath(dep)])
    requires NameAndVersion(fs[TargetPath(dep)]).Ok?
    ensures Rewrite(deps, lines, skipped + [dep] + rest, PinForAsWritten(conf, fs)) ==
      Outcome(deps, lines + Warnings(skipped), Some(MissingAttribute("version_pinning_rule")))
  {
    var pin := PinForAsWritten(conf, fs);
    forall k | 0 <= k < |skipped| ensures pin(skipped[k]).Err? && Recoverable(pin(skipped[k]).error) {
      assert pin(skipped[k]) == PinDependencyAsWritten(conf, fs, skipped[k]);
    }
    assert skipped + [dep] + rest == skipped + ([dep] + rest);
    RewriteSkipsCaught(deps, lines, skipped, [dep] + rest, pin);
    assert pin(dep) == Err(MissingAttribute("version_pinning_rule"));
  }

  /**
   * With the rule read from `version_rewrite_rule`, a pin succeeds exactly
   * when the target is a readable Poetry project, the rule is one of the
   * four and the target's version parses; the result keeps the groups, optional flag
   * and extras of the directory dependency.
   */
  lemma PinDependencySucceeds(conf: MonorangerConfig, fs: map<Path, Manifest>, dep: DirectoryDependency)
    ensures var t := TargetPath(dep);
      PinDependency(conf, fs, dep).Ok? <==>
        && t in fs && IsPoetryProject(fs[t])
        && NameAndVersion(fs[t]).Ok?
        && KnownRule(conf.versionRewriteRule) && ParseVersion(NameAndVersion(fs[t]).value.1).Some?
    ensures var t := TargetPath(dep);
      PinDependency(conf, fs, dep).Ok? ==>
        var r := PinDependency(conf, fs, dep).value;
        var (name, version) := NameAndVersion(fs[t]).value;
        && r.name == name && r.constraint == Constraint(conf.versionRewriteRule, version).value
        && r.groups == dep.groups && r.optional == dep.optional && r.features == dep.features
        && r.source == Registry
  {
  }

  /**
   * Unlike `PathRewriter`, a `[tool.poetry]` table without a name or version
   * falls back to `[project]`; a `[tool.poetry]` value that is not a table
   * fails with the `TypeError` of its first lookup.
   */
  lemma NameAndVersionFallback(m: Manifest)
    requires PoetryConfig(m).Some?
    requires NameVersionIn(PoetryConfig(m).value).Err?
    ensures PoetryConfig(m).value.Table? ==> NameAndVersion(m) == ProjectFields(m)
    ensures !PoetryConfig(m).value.Table? ==> NameAndVersion(m) == Err(NotATable("name"))
  {
  }

  /** `_pin_dep_grp(dep_grp, io)` */
  method PinDepGroup(conf: MonorangerConfig, grp: DependencyGroup, io: IO, fs: map<Path, Manifest>, v2: bool)
    returns (raised: Option<PinError>)
    modifies grp, io
    ensures var out := Rewrite(old(grp.dependencies), old(io.lines),
        DirectoryDeps(v2, old(grp.poetryDependencies), old(grp.dependencies), old(grp.dependenciesForLocking)),
        PinFor(conf, fs));
      grp.dependencies == out.deps && io.lines == out.lines && raised == out.raised
    ensures grp.poetryDependencies == old(grp.poetryDependencies)
    ensures grp.dependenciesForLocking == old(grp.dependenciesForLocking)
    ensures io.packagesArgument == old(io.packagesArgument)
  {
    var directoryDeps := GetDirectoryDeps(grp, v2);
    raised := PinGroup(grp, directoryDeps, PinFor(conf, fs), io);
  }

  /** `PathDepPinner(conf).execute(event)`: the build command's main group is pinned in place. */
  method Execute(conf: MonorangerConfig, event: Event, fs: map<Path, Manifest>, v2: bool)
    returns (raised: Option<Fault>)
    modifies event.io
    modifies if event.command.kind == Build && MainGroup in event.command.poetry.package.groups
             then {event.command.poetry.package.groups[MainGroup]} else {}
    ensures event.command.kind != Build ==>
      raised == Some(AssertionFailed) && event.io.lines == old(event.io.lines)
    ensures event.command.kind == Build && MainGroup !in event.command.poetry.package.groups ==>
      raised == Some(NoMainGroup) && event.io.lines == old(event.io.lines)
    ensures event.command.kind == Build && MainGroup in event.command.poetry.package.groups ==>
      var grp := event.command.poetry.package.groups[MainGroup];
      var out := Rewrite(old(grp.dependencies), old(event.io.lines),
        DirectoryDeps(v2, old(grp.poetryDependencies), old(grp.dependencies), old(grp.dependenciesForLocking)),
        PinFor(conf, fs));
      && grp.dependencies == out.deps && event.io.lines == out.lines
      && raised == (if out.raised.Some? then Some(PinFailed(out.raised.value)) else None)
      && grp.poetryDependencies == old(grp.poetryDependencies)
      && grp.dependenciesForLocking == old(grp.dependenciesForLocking)
    ensures event.io.packagesArgument == old(event.io.packagesArgument)
  {
    var command := event.command;
    if command.kind != Build {
      return Some(AssertionFailed);
    }
    var poetry := command.poetry;
    if MainGroup !in poetry.package.groups {
      return Some(NoMainGroup);
    }
    var e := PinDepGroup(conf, poetry.package.groups[MainGroup], event.io, fs, v2);
    raised := if e.Some? then Some(PinFailed(e.value)) else None;
  }
}
