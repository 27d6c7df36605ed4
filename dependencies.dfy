/**
 * Dependencies of a package and the dependency group that holds them
 * (poetry-core's `Dependency`, `DirectoryDependency` and `DependencyGroup`),
 * reduced to what the plugin reads and changes.
 */
module Dependencies {
  import opened Values

  /** Where a dependency comes from: a package index, or a directory on disk. */
  datatype Source =
    | Registry
    | Directory(path: string, url: string)  // the path as written, and `source_url`

  /**
   * A dependency: its name, its version constraint as text, the groups it
   * belongs to, whether it is optional, and the extras it asks for (poetry-core
   * calls them `features`; `extras` reads the same set).
   */
  datatype Dependency = Dependency(
    name: string,
    constraint: string,
    groups: set<string>,
    optional: bool,
    features: set<string>,
    source: Source)

  type DirectoryDependency = d: Dependency | d.source.Directory?
    witness Dependency("", "*", {}, false, {}, Directory("", ""))

  const MainGroup := "main"

  /** How many entries of a list carry a name. */
  function Count(deps: seq<Dependency>, name: string): nat
  {
    if deps == [] then 0 else (if deps[0].name == name then 1 else 0) + Count(deps[1..], name)
  }

  /** The entries of a list whose name differs from `name`, in order. */
  function Without(deps: seq<Dependency>, name: string): (r: seq<Dependency>)
    ensures forall d :: d in r <==> d in deps && d.name != name
    ensures |r| + Count(deps, name) == |deps|
    ensures Count(r, name) == 0
  {
    if deps == [] then []
    else
      var head := if deps[0].name == name then [] else [deps[0]];
      CountAppend(head, Without(deps[1..], name), name);
      head + Without(deps[1..], name)
  }

  /** Removing one name leaves the count of every other name as it was. */
  lemma {:induction false} WithoutCountOther(deps: seq<Dependency>, name: string, other: string)
    requires other != name
    ensures Count(Without(deps, name), other) == Count(deps, other)
  {
    if deps != [] {
      WithoutCountOther(deps[1..], name, other);
      var head := if deps[0].name == name then [] else [deps[0]];
      CountAppend(head, Without(deps[1..], name), other);
    }
  }

  lemma {:induction false} CountAppend(a: seq<Dependency>, b: seq<Dependency>, name: string)
    ensures Count(a + b, name) == Count(a, name) + Count(b, name)
  {
    if a != [] {
      assert (a + b)[1..] == a[1..] + b;
      CountAppend(a[1..], b, name);
    } else {
      assert a + b == b;
    }
  }

  /**
   * A dependency group. `dependencies` is the view the plugin rewrites;
   * `poetryDependencies` (absent before Poetry 2) and `dependenciesForLocking`
   * are the other two views it reads extras from.
   */
  class DependencyGroup {
    const name: string
    var dependencies: seq<Dependency>
    var poetryDependencies: Option<seq<Dependency>>
    var dependenciesForLocking: seq<Dependency>

    constructor(name: string, dependencies: seq<Dependency>,
                poetryDependencies: Option<seq<Dependency>>,
                dependenciesForLocking: seq<Dependency>)
      ensures this.name == name && this.dependencies == dependencies
      ensures this.poetryDependencies == poetryDependencies
      ensures this.dependenciesForLocking == dependenciesForLocking
    {
      this.name := name;
      this.dependencies := dependencies;
      this.poetryDependencies := poetryDependencies;
      this.dependenciesForLocking := dependenciesForLocking;
    }

    /** `remove_dependency(name)`: every entry of that name goes. */
    method RemoveDependency(n: string)
      modifies this
      ensures dependencies == Without(old(dependencies), n)
      ensures poetryDependencies == old(poetryDependencies)
      ensures dependenciesForLocking == old(dependenciesForLocking)
    {
      dependencies := Without(dependencies, n);
    }

    /** `add_dependency(d)`: the entry goes last. */
    method AddDependency(d: Dependency)
      modifies this
      ensures dependencies == old(dependencies) + [d]
      ensures poetryDependencies == old(poetryDependencies)
      ensures dependenciesForLocking == old(dependenciesForLocking)
    {
      dependencies := dependencies + [d];
    }
  }
}
