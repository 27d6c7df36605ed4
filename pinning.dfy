/**
 * What `PathRewriter` and `PathDepPinner` share when they pin one directory
 * dependency: reading the target subproject's `pyproject.toml`, the errors
 * that can arise, turning the rewrite rule and the target's version into a
 * constraint, and the pinned dependency that results.
 */
module Pinning {
  import opened Values
  import opened Versions
  import opened Dependencies
  import opened Paths

  /** A `pyproject.toml` document (poetry-core's `PyProjectTOML.data`). */
  datatype Manifest = Manifest(data: seq<Entry>)

  /** Why pinning one dependency failed, named after the Python exception. */
  datatype PinError =
    | ManifestMissing(path: string)    // RuntimeError
    | NotPoetryProject(path: string)   // RuntimeError
    | InvalidRule(rule: Value)         // ValueError
    | InvalidVersion(version: string)  // poetry-core's InvalidVersion, a ValueError
    | InvalidConstraint(text: string)  // poetry-core's ParseConstraintError, a ValueError
    | MissingKey(key: string)          // KeyError
    | NotATable(key: string)           // TypeError: indexing a value that is not a table
    | NotAString(key: string)          // a name or version that is not text
    | MissingAttribute(name: string)   // AttributeError

  /** The errors the pinning loops catch (`RuntimeError`, `ValueError`): warn and go on. */
  predicate Recoverable(e: PinError)
  {
    e.ManifestMissing? || e.NotPoetryProject? || e.InvalidRule? || e.InvalidVersion? || e.InvalidConstraint?
  }

  /**
   * `_get_dependency_pyproject`: the manifest at `target`, which must exist
   * and describe a Poetry project; errors name the dependency's path as written.
   */
  function OpenManifest(fs: map<Path, Manifest>, target: Path, shownPath: string): (r: Result<Manifest, PinError>)
    ensures r.Ok? <==> target in fs && IsPoetryProject(fs[target])
    ensures r.Ok? ==> r.value == fs[target]
    ensures r.Err? ==> Recoverable(r.error)
  {
    if target !in fs then Err(ManifestMissing(shownPath))
    else if !IsPoetryProject(fs[target]) then Err(NotPoetryProject(shownPath))
    else Ok(fs[target])
  }

  /**
   * `t[k]` on a TOML value: a table without `k` raises `KeyError`, a value
   * that is not a table raises `TypeError`.
   */
  function Get(t: Value, k: string): (r: Result<Value, PinError>)
    ensures r.Ok? <==> t.Table? && HasKey(t.entries, k)
    ensures r.Ok? ==> Lookup(t.entries, k) == Some(r.value)
    ensures r.Err? ==> r.error == (if t.Table? then MissingKey(k) else NotATable(k))
  {
    if !t.Table? then Err(NotATable(k))
    else if HasKey(t.entries, k) then Ok(Lookup(t.entries, k).value)
    else Err(MissingKey(k))
  }

  /**
   * `PyProjectTOML.poetry_config`: the `[tool.poetry]` table, or `None`
   * where poetry-core raises `PyProjectError`.
   */
  function PoetryConfig(m: Manifest): Option<Value>
  {
    match Lookup(m.data, "tool")
    case Some(Table(tool)) => Lookup(tool, "poetry")
    case _ => None
  }

  /**
   * `PyProjectTOML.is_poetry_project()` for a file that exists: it has a
   * `[tool.poetry]` table, or a `[project]` table with a name and a version
   * and no dynamic fields.
   */
  predicate IsPoetryProject(m: Manifest)
  {
    || PoetryConfig(m).Some?
    || (match Lookup(m.data, "project")
        case Some(Table(p)) =>
          && Lookup(p, "name").Some? && Truthy(Lookup(p, "name").value)
          && Lookup(p, "version").Some? && Truthy(Lookup(p, "version").value)
          && !(Lookup(p, "dynamic").Some? && Truthy(Lookup(p, "dynamic").value))
        case _ => false)
  }

  /** `t["name"]` then `t["version"]`. */
  function NameVersionIn(t: Value): (r: Result<(Value, Value), PinError>)
    ensures r.Ok? <==> t.Table? && HasKey(t.entries, "name") && HasKey(t.entries, "version")
    ensures r.Err? ==> r.error == (if t.Table? then MissingKey(if HasKey(t.entries, "name") then "version" else "name")
                                  else NotATable("name"))
  {
    match Get(t, "name")
    case Err(e) => Err(e)
    case Ok(name) =>
      match Get(t, "version")
      case Err(e) => Err(e)
      case Ok(version) => Ok((name, version))
  }

  /** `data["project"]["name"]` and `data["project"]["version"]`. */
  function ProjectNameVersion(m: Manifest): (r: Result<(Value, Value), PinError>)
    ensures r.Err? ==> r.error.MissingKey? || r.error.NotATable?
  {
    match Get(Table(m.data), "project")
    case Err(e) => Err(e)
    case Ok(p) => NameVersionIn(p)
  }

  /** The name and version must be text for the pinned dependency to be built from them. */
  function AsText(nv: (Value, Value)): (r: Result<(string, string), PinError>)
    ensures r.Ok? <==> nv.0.Str? && nv.1.Str?
    ensures r.Ok? ==> r.value == (nv.0.s, nv.1.s)
  {
    if !nv.0.Str? then Err(NotAString("name"))
    else if !nv.1.Str? then Err(NotAString("version"))
    else Ok((nv.0.s, nv.1.s))
  }

  // ---- the rewrite rule ----

  /** The text a rule puts before the version in the constraint. */
  function Lead(rule: Value): string
  {
    if rule == Str("~") then "~"
    else if rule == Str("^") then "^"
    else if rule == Str(">=,<") then ">="
    else ""
  }

  /**
   * The constraint a rule makes of a version: `~V`, `^V`, `V` for `==`, and
   * `>=V,<N` for `>=,<`, where N is the next patch release of V with its
   * pre-release and development parts dropped.
   */
  function Constraint(rule: Value, version: string): (r: Result<string, PinError>)
    ensures r.Ok? ==> KnownRule(rule)
    ensures r.Err? ==> Recoverable(r.error)
  {
    if rule == Str("~") || rule == Str("^") then Ok(rule.s + version)
    else if rule == Str("==") then Ok(version)
    else if rule == Str(">=,<") then
      match ParseVersion(version)
      case None => Err(InvalidVersion(version))
      case Some(v) => Ok(">=" + version + ",<" + Text(NextPatch(v)))
    else Err(InvalidRule(rule))
  }

  predicate KnownRule(rule: Value)
  {
    rule == Str("~") || rule == Str("^") || rule == Str("==") || rule == Str(">=,<")
  }

  /**
   * A constraint is made exactly when the rule is one of the four and, for
   * `>=,<`, the version parses; every failure is one the pinning loops catch,
   * and an unknown rule is reported as such whatever the version.
   */
  lemma ConstraintSucceedsIff(rule: Value, version: string)
    ensures Constraint(rule, version).Ok? <==>
      KnownRule(rule) && (rule == Str(">=,<") ==> ParseVersion(version).Some?)
    ensures Constraint(rule, version).Err? ==> Recoverable(Constraint(rule, version).error)
    ensures !KnownRule(rule) ==> Constraint(rule, version) == Err(InvalidRule(rule))
  {
  }

  /** Under `>=,<` the constraint starts with ">=" and the version. */
  lemma RangeKeepsVersion(version: string)
    requires Constraint(Str(">=,<"), version).Ok?
    ensures var c := Constraint(Str(">=,<"), version).value;
      2 + |version| <= |c| && c[..2] == ">=" && c[2..2 + |version|] == version
  {
    var tail := ",<" + Text(NextPatch(ParseVersion(version).value));
    var c := Constraint(Str(">=,<"), version).value;
    assert c == ">=" + version + tail;
  }

  /**
   * The version text appears unchanged in the constraint, right after the
   * rule's lead; with `==` the constraint is the version itself.
   */
  lemma ConstraintKeepsVersion(rule: Value, version: string)
    requires Constraint(rule, version).Ok?
    ensures var c := Constraint(rule, version).value;
      |Lead(rule)| + |version| <= |c| &&
      c[..|Lead(rule)|] == Lead(rule) &&
      c[|Lead(rule)|..|Lead(rule)| + |version|] == version
    ensures rule == Str("==") ==> Constraint(rule, version).value == version
    ensures rule != Str(">=,<") ==> |Constraint(rule, version).value| == |Lead(rule)| + |version|
  {
    var c := Constraint(rule, version).value;
    var lead := Lead(rule);
    if rule == Str(">=,<") {
      RangeKeepsVersion(version);
      assert lead == ">=";
    } else if rule == Str("==") {
      assert lead == [] && c == version;
    } else {
      assert lead == rule.s && c == lead + version;
      assert c[..|lead|] == lead && c[|lead|..] == version;
    }
  }

  /**
   * Under `>=,<` the upper bound is the text of a final release that parses
   * back, lies above the version, and keeps its major and minor numbers.
   */
  lemma BoundedConstraint(version: string)
    requires Constraint(Str(">=,<"), version).Ok?
    ensures ParseVersion(version).Some?
    ensures var v := ParseVersion(version).value;
      exists upper: string ::
        && Constraint(Str(">=,<"), version).value == ">=" + version + ",<" + upper
        && ParseVersion(upper) == Some(NextPatch(v))
        && ReleaseLess(v, NextPatch(v))
        && Part(NextPatch(v), 0) == Part(v, 0) && Part(NextPatch(v), 1) == Part(v, 1)
  {
    var v := ParseVersion(version).value;
    var upper := Text(NextPatch(v));
    TextParses(NextPatch(v));
    NextPatchAbove(v);
    assert Constraint(Str(">=,<"), version).value == ">=" + version + ",<" + upper;
  }

  /**
   * The dependency a pin produces: the target's name and the constraint, with
   * the groups, optional flag and extras of the directory dependency it
   * replaces; it no longer points at a directory.
   */
  function Pinned(dep: DirectoryDependency, name: string, constraint: string): (r: Dependency)
    ensures r.name == name && r.constraint == constraint && r.source == Registry
    ensures r.groups == dep.groups && r.optional == dep.optional && r.features == dep.features
  {
    Dependency(name, constraint, dep.groups, dep.optional, dep.features, Registry)
  }

  /**
   * `Dependency(name, constraint, ...)` after the rule has made the
   * constraint: poetry-core parses the constraint text and raises
   * `ParseConstraintError` when it cannot. Each rule puts an operator (or
   * nothing) before the version, so the constraint parses when the version
   * does; the pin succeeds exactly for a known rule and a version that
   * parses, and every failure is one the pinning loops catch.
   */
  function PinTo(dep: DirectoryDependency, rule: Value, name: string, version: string): (r: Result<Dependency, PinError>)
    ensures r.Ok? <==> KnownRule(rule) && ParseVersion(version).Some?
    ensures r.Ok? ==> r.value == Pinned(dep, name, Constraint(rule, version).value)
    ensures r.Err? ==> Recoverable(r.error)
    ensures !KnownRule(rule) ==> r == Err(InvalidRule(rule))
  {
    ConstraintSucceedsIff(rule, version);
    match Constraint(rule, version)
    case Err(e) => Err(e)
    case Ok(c) => if ParseVersion(version).None? then Err(InvalidConstraint(c)) else Ok(Pinned(dep, name, c))
  }

  /** A version outside the grammar fails under every known rule, with the error each rule gives. */
  lemma UnparsableVersionIsCaught(dep: DirectoryDependency, rule: Value, name: string, version: string)
    requires KnownRule(rule) && ParseVersion(version).None?
    ensures PinTo(dep, rule, name, version) ==
      Err(if rule == Str(">=,<") then InvalidVersion(version) else InvalidConstraint(Lead(rule) + version))
  {
    if rule == Str("~") || rule == Str("^") {
      assert Constraint(rule, version) == Ok(Lead(rule) + version);
    } else if rule == Str("==") {
      assert Lead(rule) + version == version;
    }
  }

  /** A version such as "latest" is not pinned under `^`: the constraint "^latest" does not parse. */
  lemma CaretLatestIsCaught(dep: DirectoryDependency, name: string)
    ensures PinTo(dep, Str("^"), name, "latest") == Err(InvalidConstraint("^latest"))
  {
    assert !IsDigit('l');
    assert ParseVersion("latest").None?;
    UnparsableVersionIsCaught(dep, Str("^"), name, "latest");
    assert Lead(Str("^")) + "latest" == "^latest";
  }
}
