/**
 * The plugin's entry point (`Monoranger`): the settings are read from the
 * project's manifest merged over the defaults; when the plugin is enabled
 * two listeners are registered, one that runs the matching interceptors
 * before a command and one that finishes `add` and `remove` after it.
 */
module Plugin {
  import opened Values
  import opened Paths
  import opened Config
  import opened Pinning
  import opened Console
  import opened Host
  import opened Dependencies
  import VenvModifier
  import LockModifier
  import MonorepoAdder
  import PathRewriter
  import GroupRewrite
  import Discovery

  // ---- merging the manifest over the defaults ----

  /**
   * The first `n` steps of `_merge_dicts(base, a)`: each entry of the
   * addition is stored over the result, merged with the base's value when
   * both are tables.
   */
  function MergeTables(base: seq<Entry>, a: Value, n: nat): seq<Entry>
    requires a.Table? && n <= |a.entries|
    decreases a, n
  {
    if n == 0 then base
    else
      var e := a.entries[n - 1];
      assert e in a.entries;
      Put(MergeTables(base, a, n - 1), e.key, Combine(base, e, a))
  }

  /** The value an entry of the addition leaves in the result. */
  function Combine(base: seq<Entry>, e: Entry, a: Value): Value
    requires a.Table? && e in a.entries
    decreases a, 0
  {
    if e.val.Table? && Lookup(base, e.key).Some? && Lookup(base, e.key).value.Table?
    then Table(MergeTables(Lookup(base, e.key).value.entries, e.val, |e.val.entries|))
    else e.val
  }

  /** `_merge_dicts(base, addition)` */
  function Merge(base: seq<Entry>, addition: seq<Entry>): seq<Entry>
  {
    MergeTables(base, Table(addition), |addition|)
  }

  /** `_merge_dicts`, loop for loop; the base is only read. */
  method MergeDicts(base: seq<Entry>, addition: seq<Entry>) returns (result: seq<Entry>)
    ensures result == Merge(base, addition)
    decreases Table(addition)
  {
    result := base;
    for i := 0 to |addition|
      invariant result == MergeTables(base, Table(addition), i)
    {
      var key, value := addition[i].key, addition[i].val;
      assert addition[i] in Table(addition).entries;
      if value.Table? && Lookup(base, key).Some? && Lookup(base, key).value.Table? {
        var sub := MergeDicts(Lookup(base, key).value.entries, value.entries);
        result := Put(result, key, Table(sub));
      } else {
        result := Put(result, key, value);
      }
    }
  }

  /** The last entry of a list with that key. */
  function LastEntry(es: seq<Entry>, k: string): (r: Option<Entry>)
    ensures r.Some? ==> r.value in es && r.value.key == k
    ensures r.None? <==> !HasKey(es, k)
  {
    if es == [] then None
    else
      HasKeySnoc(es[..|es| - 1], es[|es| - 1], k);
      assert es[..|es| - 1] + [es[|es| - 1]] == es;
      if es[|es| - 1].key == k then Some(es[|es| - 1])
      else LastEntry(es[..|es| - 1], k)
  }

  lemma {:induction false} HasKeySnoc(es: seq<Entry>, e: Entry, k: string)
    ensures HasKey(es + [e], k) <==> HasKey(es, k) || e.key == k
  {
    if es != [] {
      assert (es + [e])[1..] == es[1..] + [e];
      HasKeySnoc(es[1..], e, k);
    } else {
      assert ([] + [e])[1..] == [];
    }
  }

  /**
   * After merging, a key of the addition holds its merged value (the
   * base's table merged with the addition's when both are tables, the
   * addition's value otherwise); any other key holds the base's value.
   */
  lemma {:induction false} MergeTablesLookup(base: seq<Entry>, a: Value, n: nat, k: string)
    requires a.Table? && n <= |a.entries|
    ensures Lookup(MergeTables(base, a, n), k) ==
      match LastEntry(a.entries[..n], k)
      case None => Lookup(base, k)
      case Some(e) => Some(Combine(base, e, a))
  {
    if n > 0 {
      var e := a.entries[n - 1];
      assert e in a.entries;
      MergeTablesLookup(base, a, n - 1, k);
      PutLookup(MergeTables(base, a, n - 1), e.key, Combine(base, e, a), k);
      assert a.entries[..n][..n - 1] == a.entries[..n - 1];
    }
  }

  /** The merged table's keys are those of the base and those of the addition. */
  lemma MergeKeys(base: seq<Entry>, addition: seq<Entry>, k: string)
    ensures HasKey(Merge(base, addition), k) <==> HasKey(base, k) || HasKey(addition, k)
  {
    MergeTablesLookup(base, Table(addition), |addition|, k);
    assert addition[..|addition|] == addition;
  }

  /**
   * A key only the base has keeps the base's value; a key of the addition
   * takes the addition's value unless both values are tables, which are
   * merged in turn.
   */
  lemma MergeValues(base: seq<Entry>, addition: seq<Entry>, k: string)
    ensures !HasKey(addition, k) ==> Lookup(Merge(base, addition), k) == Lookup(base, k)
    ensures HasKey(addition, k) ==>
      var v := LastEntry(addition, k).value.val;
      Lookup(Merge(base, addition), k) ==
        if v.Table? && Lookup(base, k).Some? && Lookup(base, k).value.Table?
        then Some(Table(Merge(Lookup(base, k).value.entries, v.entries)))
        else Some(v)
  {
    MergeTablesLookup(base, Table(addition), |addition|, k);
    assert addition[..|addition|] == addition;
  }

  lemma {:induction false} KeyListSnoc(es: seq<Entry>, e: Entry)
    ensures KeyList(es + [e]) == KeyList(es) + [e.key]
  {
    if es != [] {
      assert (es + [e])[1..] == es[1..] + [e];
      KeyListSnoc(es[1..], e);
    } else {
      assert ([] + [e])[1..] == [];
    }
  }

  /**
   * The result starts with the base's keys in the base's order; keys new to
   * it follow. A base without repeated keys gives a result without them.
   */
  lemma {:induction false} MergeTablesShape(base: seq<Entry>, a: Value, n: nat)
    requires a.Table? && n <= |a.entries|
    ensures |MergeTables(base, a, n)| >= |base|
    ensures KeyList(MergeTables(base, a, n))[..|base|] == KeyList(base)
    ensures UniqueKeys(base) ==> UniqueKeys(MergeTables(base, a, n))
  {
    if n > 0 {
      var e := a.entries[n - 1];
      assert e in a.entries;
      var prev := MergeTables(base, a, n - 1);
      var v := Combine(base, e, a);
      MergeTablesShape(base, a, n - 1);
      PutShape(prev, e.key, v);
      if UniqueKeys(base) {
        PutUnique(prev, e.key, v);
      }
      if !HasKey(prev, e.key) {
        KeyListSnoc(prev, Entry(e.key, v));
        assert KeyList(prev + [Entry(e.key, v)])[..|base|] == KeyList(prev)[..|base|];
      }
    }
  }

  // ---- activation ----

  const PluginKey := "poetry-monoranger-plugin"

  /** `_default_plugin_config()` */
  const DefaultPluginConfig := [Entry("tool", Table([Entry(PluginKey, Table([Entry("enabled", Bool(false))]))]))]

  /**
   * `_merge_dicts(_default_plugin_config(), data)["tool"]["poetry-monoranger-plugin"]`,
   * which fails with `TypeError` when either level is not a table.
   */
  function PluginTable(data: seq<Entry>): Result<seq<Entry>, Fault>
  {
    match Lookup(Merge(DefaultPluginConfig, data), "tool")
    case Some(Table(tool)) =>
      (match Lookup(tool, PluginKey)
       case Some(Table(p)) => Ok(p)
       case _ => Err(BadPluginTable))
    case _ => Err(BadPluginTable)
  }

  /** The value a table's last `k` entry holds, if any. */
  function LastValue(es: seq<Entry>, k: string): Option<Value>
  {
    match LastEntry(es, k)
    case Some(e) => Some(e.val)
    case None => None
  }

  /**
   * The plugin table always holds `enabled`: the manifest's own value when
   * its plugin table sets one, `False` otherwise. A manifest without a
   * `tool` table gives the defaults.
   */
  lemma PluginTableEnabled(data: seq<Entry>)
    requires PluginTable(data).Ok?
    ensures Lookup(PluginTable(data).value, "enabled") ==
      match LastValue(data, "tool")
      case Some(Table(tool)) =>
        (match LastValue(tool, PluginKey)
         case Some(Table(p)) => (if HasKey(p, "enabled") then LastValue(p, "enabled") else Some(Bool(false)))
         case _ => Some(Bool(false)))
      case _ => Some(Bool(false))
    ensures !HasKey(data, "tool") ==> PluginTable(data) == Ok([Entry("enabled", Bool(false))])
  {
    var dTool := [Entry(PluginKey, Table([Entry("enabled", Bool(false))]))];
    var dPlugin := [Entry("enabled", Bool(false))];
    assert Lookup(DefaultPluginConfig, "tool") == Some(Table(dTool));
    assert Lookup(dTool, PluginKey) == Some(Table(dPlugin));
    MergeValues(DefaultPluginConfig, data, "tool");
    if HasKey(data, "tool") {
      var tv := LastEntry(data, "tool").value.val;
      if tv.Table? {
        var tool := tv.entries;
        MergeValues(dTool, tool, PluginKey);
        if HasKey(tool, PluginKey) {
          var pv := LastEntry(tool, PluginKey).value.val;
          if pv.Table? {
            MergeValues(dPlugin, pv.entries, "enabled");
          }
        }
      }
    }
  }

  /** Listeners the plugin registers with the application's event dispatcher. */
  datatype Listener = CommandListener | TerminateListener

  /** The application the plugin is activated in. */
  class Application {
    /** `application.poetry.pyproject.data`; `None` where reading it raises `RuntimeError`. */
    const pyprojectData: Option<seq<Entry>>
    const poetry: Poetry
    var listeners: seq<Listener>

    constructor(pyprojectData: Option<seq<Entry>>, poetry: Poetry)
      ensures this.pyprojectData == pyprojectData && this.poetry == poetry && listeners == []
    {
      this.pyprojectData := pyprojectData;
      this.poetry := poetry;
      listeners := [];
    }
  }

  /** The interceptors that can run before a command. */
  datatype Interceptor = VenvStep | LockStep | AddRemoveStep | BuildStep

  /**
   * The interceptors the command listener runs, in order: each test is made
   * independently of the others.
   */
  function Dispatch(kind: Kind, isEnv: bool, isSelf: bool): (r: seq<Interceptor>)
    ensures |r| <= 2
    ensures VenvStep in r <==> isEnv && !isSelf
    ensures BuildStep in r <==> kind == Build
  {
    EnvironmentInterceptors(kind, isEnv, isSelf) + ProjectInterceptors(kind)
  }

  /** The interceptors that act on the environment and the root project: venv, then lock. */
  function EnvironmentInterceptors(kind: Kind, isEnv: bool, isSelf: bool): seq<Interceptor>
  {
    (if isEnv && !isSelf then [VenvStep] else [])
    + (if kind == Lock || kind == Install || kind == Update then [LockStep] else [])
  }

  /** The interceptors that act on the subproject itself: add/remove, then build. */
  function ProjectInterceptors(kind: Kind): seq<Interceptor>
  {
    (if kind == Add || kind == Remove then [AddRemoveStep] else [])
    + (if kind == Build then [BuildStep] else [])
  }

  /** Where an interceptor sits in the listener's fixed order. */
  function Rank(i: Interceptor): nat
  {
    match i
    case VenvStep => 0
    case LockStep => 1
    case AddRemoveStep => 2
    case BuildStep => 3
  }

  /**
   * Each interceptor runs exactly for the commands of its kind, at most once,
   * and always in the order environment, lock, add/remove, build; at most one
   * of the last three runs.
   */
  lemma DispatchRuns(kind: Kind, isEnv: bool, isSelf: bool)
    ensures VenvStep in Dispatch(kind, isEnv, isSelf) <==> isEnv && !isSelf
    ensures LockStep in Dispatch(kind, isEnv, isSelf) <==> kind == Lock || kind == Install || kind == Update
    ensures AddRemoveStep in Dispatch(kind, isEnv, isSelf) <==> kind == Add || kind == Remove
    ensures BuildStep in Dispatch(kind, isEnv, isSelf) <==> kind == Build
    ensures forall i, j :: 0 <= i < j < |Dispatch(kind, isEnv, isSelf)| ==>
      Rank(Dispatch(kind, isEnv, isSelf)[i]) < Rank(Dispatch(kind, isEnv, isSelf)[j])
    ensures |Dispatch(kind, isEnv, isSelf)| <= 2
  {
  }

  /** An update command given no packages is limited to the subproject's own package. */
  function DefaultPackages(kind: Kind, packages: Option<seq<string>>, ownName: string): (r: Option<seq<string>>)
    ensures kind == Update && (packages.None? || packages == Some([])) ==> r == Some([ownName])
    ensures !(kind == Update && (packages.None? || packages == Some([]))) ==> r == packages
  {
    if kind == Update && (packages.None? || packages.value == []) then Some([ownName]) else packages
  }

  /**
   * The environment step: the venv interceptor runs. When it succeeds outside
   * an activated environment, the command's environment is the one created
   * for the monorepo root's manifest (and so is its installer's); inside one,
   * environment and installer are left alone. The command keeps its Poetry
   * object and its package arguments.
   */
  method RunVenv(conf: MonorangerConfig, event: Event, host: Host, environ: map<string, string>)
    returns (raised: Option<Fault>)
    modifies event.command, event.io, host
    ensures raised.None? ==> event.command.isEnv && !event.command.isSelf
    ensures raised.None? && VenvModifier.InVenv(environ) ==>
      event.command.env == old(event.command.env) && event.command.installer == old(event.command.installer)
    ensures raised.None? && !VenvModifier.InVenv(environ) ==>
      && conf.monorepoRoot.Str?
      && var poetry := old(event.command.poetry);
         var rootManifest := Join(RootDir(poetry.pyprojectPath, conf.monorepoRoot.s), Path(false, ["pyproject.toml"]));
         && event.command.env == host.venvAt(rootManifest)
         && (event.command.isInstaller ==>
               event.command.installer == VenvModifier.VenvInstaller(event.io, event.command.env, poetry.package,
                                                                     poetry.locker, poetry.pool, poetry.config,
                                                                     poetry.disableCache))
    ensures event.command.poetry == old(event.command.poetry)
    ensures event.io.packagesArgument == old(event.io.packagesArgument)
  {
    raised := VenvModifier.Execute(conf, event, host, environ);
  }

  /**
   * The lock step: an update command given no packages is first limited to
   * the subproject's own package, then the lock interceptor runs. When it
   * succeeds, the command works on the monorepo root's project, through an
   * installer built for the root in the command's environment.
   */
  method UpdateDefaultThenLock(conf: MonorangerConfig, event: Event, host: Host) returns (raised: Option<Fault>)
    modifies event.command, event.io, host
    ensures event.io.packagesArgument ==
      DefaultPackages(event.command.kind, old(event.io.packagesArgument), old(event.command.poetry.package.name))
    ensures LockModifier.LockFamily(event.command.kind) ==>
      event.io.lines == old(event.io.lines) + [LockModifier.RootNotice]
    ensures raised.None? ==>
      && LockModifier.LockFamily(event.command.kind) && conf.monorepoRoot.Str?
      && var root := RootDir(old(event.command.poetry.pyprojectPath), conf.monorepoRoot.s);
         && event.command.poetry.package == host.projectAt(root).package
         && event.command.poetry.locker == host.projectAt(root).locker
         && event.command.poetry.pool == host.projectAt(root).pool
         && event.command.poetry.config == host.projectAt(root).config
         && event.command.poetry.file.content == host.projectAt(root).manifest
         && event.command.installer == LockModifier.RootInstaller(event.io, event.command.env, host.projectAt(root),
                                                                  old(event.command.poetry.disableCache))
    ensures event.command.env == old(event.command.env)
  {
    var command := event.command;
    event.io.packagesArgument := DefaultPackages(command.kind, event.io.packagesArgument, command.poetry.package.name);
    raised := LockModifier.Execute(conf, event, host);
  }

  /**
   * The build step: the path rewriter runs. For a build with a main group,
   * the group's dependencies become those of the rewrite loop over its
   * directory dependencies, and the step raises what the loop raised.
   */
  method RunBuild(conf: MonorangerConfig, event: Event, fs: map<Path, Manifest>, v2: bool)
    returns (raised: Option<Fault>)
    modifies event.io
    modifies if event.command.kind == Build && MainGroup in event.command.poetry.package.groups
             then {event.command.poetry.package.groups[MainGroup]} else {}
    ensures event.command.kind == Build && MainGroup in event.command.poetry.package.groups ==>
      var grp := event.command.poetry.package.groups[MainGroup];
      var out := GroupRewrite.Rewrite(old(grp.dependencies), [],
        Discovery.DirectoryDeps(v2, old(grp.poetryDependencies), old(grp.dependencies), old(grp.dependenciesForLocking)),
        PathRewriter.PinFor(event.command.poetry.pyprojectPath, conf.versionRewriteRule, fs));
      && grp.dependencies == out.deps
      && raised == (if out.raised.Some? then Some(PinFailed(out.raised.value)) else None)
    ensures event.command.kind == Build && MainGroup !in event.command.poetry.package.groups ==>
      raised == Some(NoMainGroup)
    ensures event.io.packagesArgument == old(event.io.packagesArgument)
  {
    raised := PathRewriter.Execute(conf, event, fs, v2);
    if event.command.kind == Build && MainGroup in event.command.poetry.package.groups {
      var grp := event.command.poetry.package.groups[MainGroup];
      GroupRewrite.RewriteIgnoresLines(old(grp.dependencies), old(event.io.lines), [],
        Discovery.DirectoryDeps(v2, old(grp.poetryDependencies), old(grp.dependencies), old(grp.dependenciesForLocking)),
        PathRewriter.PinFor(event.command.poetry.pyprojectPath, conf.versionRewriteRule, fs));
    }
  }

  /**
   * The first half of the command listener: the venv step, then the lock
   * step, stopping at the first that raises.
   */
  method RunEnvironmentSteps(conf: MonorangerConfig, event: Event, host: Host, environ: map<string, string>)
    returns (ran: seq<Interceptor>, raised: Option<Fault>)
    modifies event.command, event.io, host
    ensures raised.None? ==> ran == EnvironmentInterceptors(event.command.kind, event.command.isEnv, event.command.isSelf)
    ensures raised.Some? ==>
      ran != [] && ran <= EnvironmentInterceptors(event.command.kind, event.command.isEnv, event.command.isSelf)
    ensures AddRemoveStep !in ran && BuildStep !in ran
    ensures LockStep in ran ==> LockModifier.LockFamily(event.command.kind)
    ensures raised.None? && VenvStep in ran && !VenvModifier.InVenv(environ) ==>
      && conf.monorepoRoot.Str?
      && event.command.env == host.venvAt(Join(RootDir(old(event.command.poetry.pyprojectPath), conf.monorepoRoot.s),
                                               Path(false, ["pyproject.toml"])))
    ensures raised.None? && LockStep in ran ==>
      && conf.monorepoRoot.Str?
      && var root := RootDir(old(event.command.poetry.pyprojectPath), conf.monorepoRoot.s);
         && event.command.poetry.package == host.projectAt(root).package
         && event.command.installer == LockModifier.RootInstaller(event.io, event.command.env, host.projectAt(root),
                                                                  old(event.command.poetry.disableCache))
    ensures event.command.kind == Update && LockStep in ran ==>
      event.io.packagesArgument ==
        DefaultPackages(Update, old(event.io.packagesArgument), old(event.command.poetry.package.name))
    ensures event.command.kind != Update ==> event.io.packagesArgument == old(event.io.packagesArgument)
    ensures !LockModifier.LockFamily(event.command.kind) ==> event.command.poetry == old(event.command.poetry)
  {
    var command := event.command;
    ran, raised := [], None;
    if command.isEnv && !command.isSelf {
      ran := [VenvStep];
      raised := RunVenv(conf, event, host, environ);
      if raised.Some? {
        return;
      }
    }
    if command.kind == Lock || command.kind == Install || command.kind == Update {
      ran := ran + [LockStep];
      raised := UpdateDefaultThenLock(conf, event, host);
    }
  }

  class Monoranger {
    var poetry: Option<Poetry>
    var pluginConf: Option<MonorangerConfig>
    /** `self.ctx`: the add/remove interceptor handed from the first listener to the second. */
    var ctx: map<Kind, MonorepoAdder.MonorepoAdderRemover>

    constructor()
      ensures poetry == None && pluginConf == None && ctx == map[]
    {
      poetry := None;
      pluginConf := None;
      ctx := map[];
    }

    /**
     * `activate(application)`: outside a Poetry project nothing happens; a
     * plugin table that is not a table raises; a disabled plugin registers
     * nothing; otherwise both listeners are registered, the context is kept
     * and the settings are built from the plugin table, which may raise for an
     * unknown key after the listeners are in place.
     */
    method Activate(app: Application) returns (raised: Option<Fault>)
      modifies this, app
      ensures ctx == old(ctx)
      ensures app.pyprojectData.None? ==>
        raised == None && app.listeners == old(app.listeners) &&
        poetry == old(poetry) && pluginConf == old(pluginConf)
      ensures app.pyprojectData.Some? && PluginTable(app.pyprojectData.value).Err? ==>
        raised == Some(BadPluginTable) && app.listeners == old(app.listeners) &&
        poetry == old(poetry) && pluginConf == old(pluginConf)
      ensures app.pyprojectData.Some? && PluginTable(app.pyprojectData.value).Ok? ==>
        var p := PluginTable(app.pyprojectData.value).value;
        HasKey(p, "enabled") &&
        (!Truthy(Lookup(p, "enabled").value) ==>
           raised == None && app.listeners == old(app.listeners) &&
           poetry == old(poetry) && pluginConf == old(pluginConf)) &&
        (Truthy(Lookup(p, "enabled").value) ==>
           app.listeners == old(app.listeners) + [CommandListener, TerminateListener] &&
           poetry == Some(app.poetry) &&
           match FromDict(p)
           case Ok(c) => pluginConf == Some(c) && raised == None
           case Err(UnexpectedKeyword(k)) => pluginConf == old(pluginConf) && raised == Some(BadConfig(k)))
    {
      if app.pyprojectData.None? {
        return None;
      }
      var localConfig := app.pyprojectData.value;
      var merged := MergeDicts(DefaultPluginConfig, localConfig);
      var tool := Lookup(merged, "tool");
      if !(tool.Some? && tool.value.Table?) {
        return Some(BadPluginTable);
      }
      var plugin := Lookup(tool.value.entries, PluginKey);
      if !(plugin.Some? && plugin.value.Table?) {
        return Some(BadPluginTable);
      }
      var pluginConfig := plugin.value.entries;
      PluginTableEnabled(localConfig);
      if !Truthy(Lookup(pluginConfig, "enabled").value) {
        return None;
      }
      app.listeners := app.listeners + [CommandListener, TerminateListener];
      poetry := Some(app.poetry);
      var conf := FromDict(pluginConfig);
      if conf.Err? {
        return Some(BadConfig(conf.error.key));
      }
      pluginConf := Some(conf.value);
      raised := None;
    }

    /**
     * The add/remove step: a new interceptor is stored in `ctx` for the
     * second listener, then run. For `add` and `remove` the stored
     * interceptor holds the manifest as it was before the command, and the
     * command runs on a copy of its `Poetry` with a dummy installer.
     */
    method StashAndAddRemove(event: Event) returns (raised: Option<Fault>)
      requires pluginConf.Some?
      modifies this, event.command
      ensures poetry == old(poetry) && pluginConf == old(pluginConf)
      ensures Add in ctx && fresh(ctx[Add]) && ctx[Add].pluginConf == pluginConf.value
      ensures ctx == old(ctx)[Add := ctx[Add]]
      ensures MonorepoAdder.AddOrRemove(event.command.kind) ==>
        && raised == None
        && ctx[Add].preAddPyproject == Some(old(event.command.poetry.file.content))
        && fresh(event.command.poetry) && event.command.poetry.SameFields(old(event.command.poetry))
        && event.command.installer == Dummy(old(event.command.installer))
      ensures !MonorepoAdder.AddOrRemove(event.command.kind) ==>
        && raised == Some(AssertionFailed) && ctx[Add].preAddPyproject == None
        && event.command.poetry == old(event.command.poetry)
        && event.command.installer == old(event.command.installer)
      ensures event.command.env == old(event.command.env)
    {
      var adderRemover := new MonorepoAdder.MonorepoAdderRemover(pluginConf.value);
      ctx := ctx[Add := adderRemover];
      raised := adderRemover.Execute(event);
    }

    /**
     * `console_command_event_listener`: the interceptors of `Dispatch` run in
     * turn until one raises; an update command with no packages is first
     * limited to the subproject's package; the add/remove interceptor is
     * stashed for the second listener before it runs. What each step leaves
     * behind is stated here too: the root's environment after the venv step,
     * the root's package and installer after the lock step, and the rewritten
     * main group after the build step.
     */
    method OnCommand(event: Event, host: Host, environ: map<string, string>, fs: map<Path, Manifest>, v2: bool)
      returns (ran: seq<Interceptor>, raised: Option<Fault>)
      requires pluginConf.Some?
      modifies this, event.command, event.io, host
      modifies if event.command.kind == Build && MainGroup in event.command.poetry.package.groups
               then {event.command.poetry.package.groups[MainGroup]} else {}
      ensures poetry == old(poetry) && pluginConf == old(pluginConf)
      ensures raised.None? ==> ran == Dispatch(event.command.kind, event.command.isEnv, event.command.isSelf)
      ensures raised.Some? ==>
        (ran != [] && ran <= Dispatch(event.command.kind, event.command.isEnv, event.command.isSelf))
      ensures event.command.kind == Update && LockStep in ran ==>
        event.io.packagesArgument ==
          DefaultPackages(Update, old(event.io.packagesArgument), old(event.command.poetry.package.name))
      ensures event.command.kind != Update ==> event.io.packagesArgument == old(event.io.packagesArgument)
      ensures AddRemoveStep in ran ==>
        && Add in ctx && fresh(ctx[Add]) && ctx[Add].pluginConf == pluginConf.value
        && ctx[Add].preAddPyproject == Some(old(event.command.poetry.file.content))
      ensures AddRemoveStep !in ran ==> ctx == old(ctx)
      ensures raised.None? && VenvStep in ran && !VenvModifier.InVenv(environ) ==>
        && pluginConf.value.monorepoRoot.Str?
        && event.command.env == host.venvAt(Join(RootDir(old(event.command.poetry.pyprojectPath),
                                                         pluginConf.value.monorepoRoot.s),
                                                 Path(false, ["pyproject.toml"])))
      ensures raised.None? && LockStep in ran ==>
        && pluginConf.value.monorepoRoot.Str?
        && var root := RootDir(old(event.command.poetry.pyprojectPath), pluginConf.value.monorepoRoot.s);
           && event.command.poetry.package == host.projectAt(root).package
           && event.command.installer == LockModifier.RootInstaller(event.io, event.command.env, host.projectAt(root),
                                                                    old(event.command.poetry.disableCache))
      ensures BuildStep in ran && MainGroup in old(event.command.poetry.package.groups) ==>
        var grp := old(event.command.poetry.package.groups[MainGroup]);
        var out := GroupRewrite.Rewrite(old(grp.dependencies), [],
          Discovery.DirectoryDeps(v2, old(grp.poetryDependencies), old(grp.dependencies), old(grp.dependenciesForLocking)),
          PathRewriter.PinFor(old(event.command.poetry.pyprojectPath), pluginConf.value.versionRewriteRule, fs));
        && grp.dependencies == out.deps
        && raised == (if out.raised.Some? then Some(PinFailed(out.raised.value)) else None)
    {
      var envRan, projectRan;
      var command := event.command;
      assert Dispatch(command.kind, command.isEnv, command.isSelf) ==
        EnvironmentInterceptors(command.kind, command.isEnv, command.isSelf) + ProjectInterceptors(command.kind);
      envRan, raised := RunEnvironmentSteps(pluginConf.value, event, host, environ);
      if raised.Some? {
        return envRan, raised;
      }
      if ProjectInterceptors(event.command.kind) == [] {
        return envRan, raised;
      }
      assert LockStep !in envRan && event.command.poetry == old(event.command.poetry);
      assert event.command.poetry.package == old(event.command.poetry.package);
      ghost var env := event.command.env;
      projectRan, raised := RunProjectSteps(event, fs, v2);
      ran := envRan + projectRan;
      assert LockStep !in ran && event.command.env == env;
    }

    /**
     * The second half of the command listener: the add/remove step, then
     * the build step, stopping at the first that raises.
     */
    method RunProjectSteps(event: Event, fs: map<Path, Manifest>, v2: bool)
      returns (ran: seq<Interceptor>, raised: Option<Fault>)
      requires pluginConf.Some?
      modifies this, event.command, event.io
      modifies if event.command.kind == Build && MainGroup in event.command.poetry.package.groups
               then {event.command.poetry.package.groups[MainGroup]} else {}
      ensures poetry == old(poetry) && pluginConf == old(pluginConf)
      ensures raised.None? ==> ran == ProjectInterceptors(event.command.kind)
      ensures raised.Some? ==> ran != [] && ran <= ProjectInterceptors(event.command.kind)
      ensures VenvStep !in ran && LockStep !in ran
      ensures event.io.packagesArgument == old(event.io.packagesArgument)
      ensures event.command.env == old(event.command.env)
      ensures !MonorepoAdder.AddOrRemove(event.command.kind) ==>
        event.command.poetry == old(event.command.poetry) && event.command.installer == old(event.command.installer)
      ensures AddRemoveStep in ran ==>
        && Add in ctx && fresh(ctx[Add]) && ctx[Add].pluginConf == pluginConf.value
        && ctx[Add].preAddPyproject == Some(old(event.command.poetry.file.content))
      ensures AddRemoveStep !in ran ==> ctx == old(ctx)
      ensures BuildStep in ran && MainGroup in old(event.command.poetry.package.groups) ==>
        var grp := old(event.command.poetry.package.groups[MainGroup]);
        var out := GroupRewrite.Rewrite(old(grp.dependencies), [],
          Discovery.DirectoryDeps(v2, old(grp.poetryDependencies), old(grp.dependencies), old(grp.dependenciesForLocking)),
          PathRewriter.PinFor(old(event.command.poetry.pyprojectPath), pluginConf.value.versionRewriteRule, fs));
        && grp.dependencies == out.deps
        && raised == (if out.raised.Some? then Some(PinFailed(out.raised.value)) else None)
    {
      var command := event.command;
      ran, raised := [], None;
      if command.kind == Add || command.kind == Remove {
        ran := [AddRemoveStep];
        raised := StashAndAddRemove(event);
        return;
      }
      if command.kind == Build {
        ran := ran + [BuildStep];
        raised := RunBuild(pluginConf.value, event, fs, v2);
      }
    }

    /**
     * `post_console_command_event_listener`: for add and remove, the stashed
     * interceptor is taken out of `ctx` (a fresh one, with no snapshot, when
     * there is none) and finishes the command: nothing happens when the
     * manifest still equals the snapshot; otherwise the root installer runs,
     * its status becomes the exit code, and the manifest is restored to the
     * snapshot when the installer fails outside a dry run.
     */
    method OnTerminate(event: Event, host: Host) returns (raised: Option<Fault>)
      requires pluginConf.Some?
      modifies this, event, event.io, host, event.command.poetry.file
      ensures poetry == old(poetry) && pluginConf == old(pluginConf)
      ensures !MonorepoAdder.AddOrRemove(event.command.kind) ==>
        raised == None && ctx == old(ctx) && event.exitCode == old(event.exitCode) &&
        event.command.poetry.file.content == old(event.command.poetry.file.content) &&
        event.io.lines == old(event.io.lines) && host.poetryRequests == old(host.poetryRequests)
      ensures MonorepoAdder.AddOrRemove(event.command.kind) ==> ctx == old(ctx) - {Add}
      ensures MonorepoAdder.AddOrRemove(event.command.kind) ==>
        var snapshot := if Add in old(ctx) then old(ctx[Add].preAddPyproject) else None;
        var conf := if Add in old(ctx) then old(ctx[Add]).pluginConf else pluginConf.value;
        var before := old(event.command.poetry.file.content);
        var command := event.command;
        var p := command.poetry;
        && (MonorepoAdder.Unchanged(snapshot, before) ==>
              raised == None && event.exitCode == old(event.exitCode) && p.file.content == before &&
              event.io.lines == old(event.io.lines) && host.poetryRequests == old(host.poetryRequests))
        && (!MonorepoAdder.Unchanged(snapshot, before) && !conf.monorepoRoot.Str? ==>
              raised == Some(RootNotText(conf.monorepoRoot)) && event.exitCode == old(event.exitCode) &&
              p.file.content == before &&
              event.io.lines == old(event.io.lines) && host.poetryRequests == old(host.poetryRequests))
        && (!MonorepoAdder.Unchanged(snapshot, before) && conf.monorepoRoot.Str? ==>
              var root := RootDir(p.pyprojectPath, conf.monorepoRoot.s);
              var status := host.statusOf(MonorepoAdder.PostInstaller(event.io, command.env, host.projectAt(root),
                p.disableCache, command.dryRun, command.lockOnly, old(p.package.name)));
              var rollsBack := MonorepoAdder.RollsBack(status, command.dryRun, snapshot);
              && raised == None && event.exitCode == Some(status)
              && host.poetryRequests == old(host.poetryRequests) + [PoetryRequest(root, event.io, p.disableCache)]
              && p.file.content == (if rollsBack then snapshot.value else before)
              && event.io.lines == old(event.io.lines) + (if rollsBack then [MonorepoAdder.RollbackNotice] else []))
      ensures event.io.packagesArgument == old(event.io.packagesArgument)
      ensures host.venvRequests == old(host.venvRequests) && host.configReloads == old(host.configReloads)
      ensures event.command.poetry == old(event.command.poetry)
    {
      var command := event.command;
      raised := None;
      if command.kind == Add || command.kind == Remove {
        var adderRemover: MonorepoAdder.MonorepoAdderRemover;
        if Add in ctx {
          adderRemover := ctx[Add];
          ctx := ctx - {Add};
        } else {
          adderRemover := new MonorepoAdder.MonorepoAdderRemover(pluginConf.value);
        }
        raised := adderRemover.PostExecute(event, host);
      }
    }
  }
}
