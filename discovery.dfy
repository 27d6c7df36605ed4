/**
 * Finding the directory dependencies of a group, as `_get_directory_deps`
 * does in both `PathRewriter` and `PathDepPinner` (the two copies are the
 * same). Before Poetry 2 it keeps the directory entries of `dependencies`.
 * From Poetry 2 on it first gathers, for each name, the extras that any of
 * the group's three views asks for, and indexes the locking view by name;
 * then each entry of `dependencies` that is a directory dependency, or whose
 * name the locking view holds as one, is taken with the gathered extras.
 */
module Discovery {
  import opened Values
  import opened Dependencies

  // ---- the tables the loops build ----

  /** `features[name]` on a `defaultdict(set)`. */
  function FeaturesAt(table: map<string, set<string>>, name: string): set<string>
  {
    if name in table then table[name] else {}
  }

  /** `if dep.features: features[dep.name].update(dep.features)` */
  function AddFeatures(table: map<string, set<string>>, d: Dependency): map<string, set<string>>
  {
    if d.features != {} then table[d.name := FeaturesAt(table, d.name) + d.features] else table
  }

  /** The feature table after visiting every entry of `deps`. */
  function CollectFeatures(table: map<string, set<string>>, deps: seq<Dependency>): map<string, set<string>>
  {
    if deps == [] then table
    else AddFeatures(CollectFeatures(table, deps[..|deps| - 1]), deps[|deps| - 1])
  }

  /** The feature table after visiting every view in turn. */
  function CollectViews(table: map<string, set<string>>, views: seq<seq<Dependency>>): map<string, set<string>>
  {
    if views == [] then table
    else CollectFeatures(CollectViews(table, views[..|views| - 1]), views[|views| - 1])
  }

  /** `[_poetry_dependencies, dependencies, dependencies_for_locking]`, skipping a `None`. */
  function Views(poetryDeps: Option<seq<Dependency>>, deps: seq<Dependency>, locking: seq<Dependency>): seq<seq<Dependency>>
  {
    (if poetryDeps.Some? then [poetryDeps.value] else []) + [deps, locking]
  }

  /** `{dep.name: dep for dep in locking}` */
  function LockingTable(locking: seq<Dependency>): map<string, Dependency>
  {
    if locking == [] then map[]
    else LockingTable(locking[..|locking| - 1])[locking[|locking| - 1].name := locking[|locking| - 1]]
  }

  /** The directory dependency one entry of `dependencies` stands for, if any. */
  function Select(d: Dependency, lockingTable: map<string, Dependency>): Option<DirectoryDependency>
  {
    if d.source.Directory? then Some(d)
    else if d.name in lockingTable && lockingTable[d.name].source.Directory? then Some(lockingTable[d.name])
    else None
  }

  /** The list the final loop appends to, after visiting every entry of `deps`. */
  function Gather(deps: seq<Dependency>, lockingTable: map<string, Dependency>,
                  features: map<string, set<string>>): seq<DirectoryDependency>
  {
    if deps == [] then []
    else
      var prefix := Gather(deps[..|deps| - 1], lockingTable, features);
      match Select(deps[|deps| - 1], lockingTable)
      case None => prefix
      case Some(dd) => prefix + [dd.(features := FeaturesAt(features, dd.name))]
  }

  /** `[dep for dep in deps if isinstance(dep, DirectoryDependency)]` */
  function DirectoryOnly(deps: seq<Dependency>): (r: seq<DirectoryDependency>)
    ensures |r| <= |deps|
  {
    if deps == [] then []
    else
      var prefix := DirectoryOnly(deps[..|deps| - 1]);
      var d := deps[|deps| - 1];
      if d.source.Directory? then prefix + [d] else prefix
  }

  /** What `_get_directory_deps` returns for a group with these three views. */
  function DirectoryDeps(v2: bool, poetryDeps: Option<seq<Dependency>>, deps: seq<Dependency>,
                         locking: seq<Dependency>): (r: seq<DirectoryDependency>)
    ensures !v2 ==> |r| <= |deps|
  {
    if !v2 then DirectoryOnly(deps)
    else Gather(deps, LockingTable(locking), CollectViews(map[], Views(poetryDeps, deps, locking)))
  }

  /** `_get_directory_deps(dep_grp)`, loop for loop. */
  method GetDirectoryDeps(grp: DependencyGroup, v2: bool) returns (r: seq<DirectoryDependency>)
    ensures r == DirectoryDeps(v2, grp.poetryDependencies, grp.dependencies, grp.dependenciesForLocking)
  {
    var deps := grp.dependencies;
    if !v2 {
      r := [];
      for i := 0 to |deps|
        invariant r == DirectoryOnly(deps[..i])
      {
        assert deps[..i + 1][..i] == deps[..i];
        if deps[i].source.Directory? {
          r := r + [deps[i]];
        }
      }
      assert deps[..|deps|] == deps;
      return;
    }
    var views := Views(grp.poetryDependencies, deps, grp.dependenciesForLocking);
    var features: map<string, set<string>> := map[];
    for j := 0 to |views|
      invariant features == CollectViews(map[], views[..j])
    {
      assert views[..j + 1][..j] == views[..j];
      var view := views[j];
      var before := features;
      for i := 0 to |view|
        invariant features == CollectFeatures(before, view[..i])
      {
        assert view[..i + 1][..i] == view[..i];
        var d := view[i];
        if d.features != {} {
          features := features[d.name := FeaturesAt(features, d.name) + d.features];
        }
      }
      assert view[..|view|] == view;
    }
    assert views[..|views|] == views;
    var locking := grp.dependenciesForLocking;
    var lockingTable: map<string, Dependency> := map[];
    for i := 0 to |locking|
      invariant lockingTable == LockingTable(locking[..i])
    {
      assert locking[..i + 1][..i] == locking[..i];
      lockingTable := lockingTable[locking[i].name := locking[i]];
    }
    assert locking[..|locking|] == locking;
    r := [];
    for i := 0 to |deps|
      invariant r == Gather(deps[..i], lockingTable, features)
    {
      assert deps[..i + 1][..i] == deps[..i];
      var d := deps[i];
      var dirDep: DirectoryDependency;
      if d.source.Directory? {
        dirDep := d;
      } else if d.name in lockingTable && lockingTable[d.name].source.Directory? {
        dirDep := lockingTable[d.name];
      } else {
        continue;
      }
      r := r + [dirDep.(features := FeaturesAt(features, dirDep.name))];
    }
    assert deps[..|deps|] == deps;
  }

  // ---- the same, without tables ----

  /** Every extra any entry of `deps` named `name` asks for. */
  function ExtrasOf(deps: seq<Dependency>, name: string): set<string>
  {
    if deps == [] then {}
    else (if deps[0].name == name then deps[0].features else {}) + ExtrasOf(deps[1..], name)
  }

  /** Every extra asked for under `name` in any of the views. */
  function ExtrasOfAll(views: seq<seq<Dependency>>, name: string): set<string>
  {
    if views == [] then {} else ExtrasOf(views[0], name) + ExtrasOfAll(views[1..], name)
  }

  /** The last entry of `deps` with that name. */
  function LastNamed(deps: seq<Dependency>, name: string): Option<Dependency>
  {
    if deps == [] then None
    else if deps[|deps| - 1].name == name then Some(deps[|deps| - 1])
    else LastNamed(deps[..|deps| - 1], name)
  }

  lemma {:induction false} ExtrasOfSnoc(deps: seq<Dependency>, d: Dependency, name: string)
    ensures ExtrasOf(deps + [d], name) == ExtrasOf(deps, name) + (if d.name == name then d.features else {})
  {
    if deps != [] {
      assert (deps + [d])[1..] == deps[1..] + [d];
      ExtrasOfSnoc(deps[1..], d, name);
    } else {
      assert ([] + [d])[1..] == [];
    }
  }

  lemma {:induction false} ExtrasOfAllSnoc(views: seq<seq<Dependency>>, v: seq<Dependency>, name: string)
    ensures ExtrasOfAll(views + [v], name) == ExtrasOfAll(views, name) + ExtrasOf(v, name)
  {
    if views != [] {
      assert (views + [v])[1..] == views[1..] + [v];
      ExtrasOfAllSnoc(views[1..], v, name);
    } else {
      assert ([] + [v])[1..] == [];
    }
  }

  /** The feature table holds, under each name, the union of the extras asked for under it. */
  lemma {:induction false} CollectFeaturesAt(table: map<string, set<string>>, deps: seq<Dependency>, name: string)
    ensures FeaturesAt(CollectFeatures(table, deps), name) == FeaturesAt(table, name) + ExtrasOf(deps, name)
  {
    if deps != [] {
      var prefix := deps[..|deps| - 1];
      CollectFeaturesAt(table, prefix, name);
      ExtrasOfSnoc(prefix, deps[|deps| - 1], name);
      assert prefix + [deps[|deps| - 1]] == deps;
    }
  }

  lemma {:induction false} CollectViewsAt(table: map<string, set<string>>, views: seq<seq<Dependency>>, name: string)
    ensures FeaturesAt(CollectViews(table, views), name) == FeaturesAt(table, name) + ExtrasOfAll(views, name)
  {
    if views != [] {
      var prefix := views[..|views| - 1];
      CollectViewsAt(table, prefix, name);
      CollectFeaturesAt(CollectViews(table, prefix), views[|views| - 1], name);
      ExtrasOfAllSnoc(prefix, views[|views| - 1], name);
      assert prefix + [views[|views| - 1]] == views;
    }
  }

  /** The name index of the locking view holds, for each name, its last entry. */
  lemma {:induction false} LockingTableAt(locking: seq<Dependency>, name: string)
    ensures name in LockingTable(locking) <==> LastNamed(locking, name).Some?
    ensures name in LockingTable(locking) ==> LockingTable(locking)[name] == LastNamed(locking, name).value
  {
    if locking != [] {
      LockingTableAt(locking[..|locking| - 1], name);
    }
  }

  /** The directory dependency an entry stands for, read off the views themselves. */
  function Reference(d: Dependency, locking: seq<Dependency>): Option<DirectoryDependency>
  {
    if d.source.Directory? then Some(d)
    else match LastNamed(locking, d.name)
      case Some(l) => if l.source.Directory? then Some(l) else None
      case None => None
  }

  /** The entries found, in the order of `dependencies`, with the extras of all views. */
  function ReferenceDeps(deps: seq<Dependency>, locking: seq<Dependency>, views: seq<seq<Dependency>>): seq<DirectoryDependency>
  {
    if deps == [] then []
    else
      var prefix := ReferenceDeps(deps[..|deps| - 1], locking, views);
      match Reference(deps[|deps| - 1], locking)
      case None => prefix
      case Some(dd) => prefix + [dd.(features := ExtrasOfAll(views, dd.name))]
  }

  lemma {:induction false} GatherIsReference(deps: seq<Dependency>, locking: seq<Dependency>, views: seq<seq<Dependency>>)
    ensures Gather(deps, LockingTable(locking), CollectViews(map[], views)) == ReferenceDeps(deps, locking, views)
  {
    if deps != [] {
      var d := deps[|deps| - 1];
      GatherIsReference(deps[..|deps| - 1], locking, views);
      LockingTableAt(locking, d.name);
      assert Select(d, LockingTable(locking)) == Reference(d, locking);
      if Reference(d, locking).Some? {
        var dd := Reference(d, locking).value;
        CollectViewsAt(map[], views, dd.name);
        assert FeaturesAt(CollectViews(map[], views), dd.name) == ExtrasOfAll(views, dd.name);
      }
    }
  }

  /**
   * From Poetry 2 on, discovery takes, in the order of `dependencies`, each
   * entry that is a directory dependency, or else the last same-name entry of
   * the locking view when that one is; each carries every extra that any of
   * the three views asks for under its name.
   */
  lemma DiscoveryV2(poetryDeps: Option<seq<Dependency>>, deps: seq<Dependency>, locking: seq<Dependency>)
    ensures DirectoryDeps(true, poetryDeps, deps, locking) ==
      ReferenceDeps(deps, locking, Views(poetryDeps, deps, locking))
  {
    GatherIsReference(deps, locking, Views(poetryDeps, deps, locking));
  }

  /** Each entry found is a directory dependency named like an entry of `dependencies`. */
  lemma {:induction false} ReferenceDepsNamed(deps: seq<Dependency>, locking: seq<Dependency>, views: seq<seq<Dependency>>)
    ensures |ReferenceDeps(deps, locking, views)| <= |deps|
    ensures forall r :: r in ReferenceDeps(deps, locking, views) ==>
      r.features == ExtrasOfAll(views, r.name) && exists d :: d in deps && d.name == r.name
  {
    if deps != [] {
      var prefix := deps[..|deps| - 1];
      ReferenceDepsNamed(prefix, locking, views);
      var d := deps[|deps| - 1];
      if Reference(d, locking).Some? && !d.source.Directory? {
        LastNamedName(locking, d.name);
      }
      forall r | r in ReferenceDeps(deps, locking, views)
        ensures exists e :: e in deps && e.name == r.name
      {
        if r in ReferenceDeps(prefix, locking, views) {
          var e :| e in prefix && e.name == r.name;
          assert e in deps;
        } else {
          assert r.name == d.name;
        }
      }
    }
  }

  lemma {:induction false} LastNamedName(deps: seq<Dependency>, name: string)
    ensures LastNamed(deps, name).Some? ==> LastNamed(deps, name).value.name == name
  {
    if deps != [] {
      LastNamedName(deps[..|deps| - 1], name);
    }
  }

  /**
   * An entry of `dependencies` that is itself a directory dependency is
   * always found, carrying the extras of every view.
   */
  lemma {:induction false} ReferenceDepsComplete(deps: seq<Dependency>, locking: seq<Dependency>, views: seq<seq<Dependency>>, i: nat)
    requires i < |deps| && deps[i].source.Directory?
    ensures deps[i].(features := ExtrasOfAll(views, deps[i].name)) in ReferenceDeps(deps, locking, views)
  {
    if i < |deps| - 1 {
      ReferenceDepsComplete(deps[..|deps| - 1], locking, views, i);
    }
  }

  /**
   * Before Poetry 2, discovery keeps exactly the directory entries of
   * `dependencies`, whatever the other two views hold.
   */
  lemma {:induction false} DiscoveryV1(poetryDeps: Option<seq<Dependency>>, deps: seq<Dependency>,
                                       locking: seq<Dependency>)
    ensures forall d :: d in DirectoryDeps(false, poetryDeps, deps, locking) <==> d in deps && d.source.Directory?
    ensures |DirectoryDeps(false, poetryDeps, deps, locking)| <= |deps|
  {
    if deps != [] {
      DiscoveryV1(poetryDeps, deps[..|deps| - 1], locking);
      assert deps == deps[..|deps| - 1] + [deps[|deps| - 1]];
    }
  }

  /** The filter of directory entries distributes over concatenation. */
  lemma {:induction false} DirectoryOnlyAppend(front: seq<Dependency>, back: seq<Dependency>)
    ensures DirectoryOnly(front + back) == DirectoryOnly(front) + DirectoryOnly(back)
    decreases |back|
  {
    if back == [] {
      assert front + back == front;
    } else {
      var n := |back| - 1;
      DirectoryOnlyAppend(front, back[..n]);
      assert (front + back)[..|front + back| - 1] == front + back[..n];
      assert (front + back)[|front + back| - 1] == back[n];
      assert DirectoryOnly(back) == DirectoryOnly(back[..n]) + (if back[n].source.Directory? then [back[n]] else []);
    }
  }

  /**
   * Before Poetry 2, discovery also keeps the entries in their order: it
   * distributes over concatenation, and a single entry is kept iff it is a
   * directory dependency.
   */
  lemma DiscoveryV1InOrder(poetryDeps: Option<seq<Dependency>>, front: seq<Dependency>,
                           back: seq<Dependency>, locking: seq<Dependency>)
    ensures DirectoryDeps(false, poetryDeps, front + back, locking) ==
            DirectoryDeps(false, poetryDeps, front, locking) + DirectoryDeps(false, poetryDeps, back, locking)
    ensures forall d :: DirectoryDeps(false, poetryDeps, [d], locking) == (if d.source.Directory? then [d] else [])
  {
    DirectoryOnlyAppend(front, back);
    forall d: Dependency
      ensures DirectoryDeps(false, poetryDeps, [d], locking) == (if d.source.Directory? then [d] else [])
    {
      assert [d][..0] == [];
    }
  }


}
