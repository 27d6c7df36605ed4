/**
 * `LockModifier`: `poetry lock`, `install` and `update` run against the
 * monorepo root. The command's context becomes a context created at the
 * root, and its installer one built from that root context with the
 * command's current environment.
 */
module LockModifier {
  import opened Values
  import opened Paths
  import opened Config
  import opened Console
  import opened Host

  predicate LockFamily(k: Kind)
  {
    k == Lock || k == Install || k == Update
  }

  const RootNotice := "Running command from monorepo root directory"

  /** The installer `LockModifier` builds: the command's env, everything else from the root context. */
  function RootInstaller(io: IO, env: Env, root: Project, disableCache: bool): (i: Installer)
    ensures i.Installer? && i.io == io && i.env == env && i.flags == DefaultFlags
    ensures i.package == root.package && i.locker == root.locker && i.pool == root.pool
    ensures i.config == root.config && i.disableCache == disableCache
  {
    Installer(io, env, root.package, root.locker, root.pool, root.config, disableCache, DefaultFlags)
  }

  /** `LockModifier(conf).execute(event)` */
  method Execute(conf: MonorangerConfig, event: Event, host: Host) returns (raised: Option<Fault>)
    modifies event.command, event.io, host
    ensures !LockFamily(event.command.kind) ==>
      && raised == Some(AssertionFailed) && event.io.lines == old(event.io.lines)
      && event.command.poetry == old(event.command.poetry)
      && event.command.installer == old(event.command.installer)
      && host.poetryRequests == old(host.poetryRequests)
    ensures LockFamily(event.command.kind) ==> event.io.lines == old(event.io.lines) + [RootNotice]
    ensures LockFamily(event.command.kind) && !conf.monorepoRoot.Str? ==>
      && raised == Some(RootNotText(conf.monorepoRoot))
      && event.command.poetry == old(event.command.poetry)
      && event.command.installer == old(event.command.installer)
      && host.poetryRequests == old(host.poetryRequests)
    ensures LockFamily(event.command.kind) && conf.monorepoRoot.Str? ==>
      var root := RootDir(old(event.command.poetry.pyprojectPath), conf.monorepoRoot.s);
      && raised == None
      && host.poetryRequests == old(host.poetryRequests) + [PoetryRequest(root, event.io, old(event.command.poetry.disableCache))]
      && fresh(event.command.poetry)
      && event.command.poetry.pyprojectPath == Join(root, Path(false, ["pyproject.toml"]))
      && event.command.poetry.package == host.projectAt(root).package
      && event.command.poetry.locker == host.projectAt(root).locker
      && event.command.poetry.pool == host.projectAt(root).pool
      && event.command.poetry.config == host.projectAt(root).config
      && event.command.poetry.file.content == host.projectAt(root).manifest
      && event.command.poetry.disableCache == old(event.command.poetry.disableCache)
      && event.command.installer == RootInstaller(event.io, old(event.command.env), host.projectAt(root),
                                                  old(event.command.poetry.disableCache))
    ensures event.command.env == old(event.command.env)
    ensures event.io.packagesArgument == old(event.io.packagesArgument)
    ensures host.venvRequests == old(host.venvRequests) && host.configReloads == old(host.configReloads)
  {
    var command := event.command;
    if !LockFamily(command.kind) {
      return Some(AssertionFailed);
    }
    var io := event.io;
    io.WriteLine(RootNotice);
    var root := MonorepoRoot(command.poetry.pyprojectPath, conf);
    if root.Err? {
      return Some(root.error);
    }
    var rootPoetry := host.CreatePoetry(root.value, io, command.poetry.disableCache);
    var installer := Installer(io, command.env, rootPoetry.package, rootPoetry.locker, rootPoetry.pool,
                               rootPoetry.config, rootPoetry.disableCache, DefaultFlags);
    command.poetry := rootPoetry;
    command.installer := installer;
    raised := None;
  }
}
