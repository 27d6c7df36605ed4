/**
 * `MonorepoAdderRemover`: `poetry add` and `remove` edit the subproject's
 * manifest only, and the shared lock file at the monorepo root is updated
 * afterwards. Before the command, the context is copied, the manifest
 * snapshotted and the installer disabled; after it, unless the manifest is
 * unchanged, a root installer runs, the manifest is restored if that run
 * fails outside a dry run, and the run's status becomes the exit code.
 */
module MonorepoAdder {
  import opened Values
  import opened Paths
  import opened Config
  import opened Pinning
  import opened Console
  import opened Host

  predicate AddOrRemove(k: Kind)
  {
    k == Add || k == Remove
  }

  /** `DummyInstaller.from_installer(installer)`: whatever it wraps, running it reports success. */
  lemma DummyRunsClean(inner: Installer, statusOf: Installer -> int)
    ensures RunStatus(Dummy(inner), statusOf) == 0
  {
  }

  /**
   * The installer `post_execute` builds: the command's env, the root
   * context's package, locker, pool, settings and cache flag, and the flags
   * the add and remove commands would set themselves.
   */
  function PostInstaller(io: IO, env: Env, root: Project, disableCache: bool,
                         dryRun: bool, lockOnly: bool, packageName: string): (i: Installer)
    ensures i.Installer? && i.io == io && i.env == env
    ensures i.package == root.package && i.locker == root.locker && i.pool == root.pool
    ensures i.config == root.config && i.disableCache == disableCache
    ensures i.flags.dryRun == dryRun && i.flags.verbose == io.verbose && i.flags.update
    ensures i.flags.executeOperations == !lockOnly && i.flags.whitelist == [packageName]
  {
    Installer(io, env, root.package, root.locker, root.pool, root.config, disableCache,
              Flags(dryRun, io.verbose, true, !lockOnly, [packageName]))
  }

  /** Whether `post_execute` returns at once: a non-empty snapshot equal to the manifest now. */
  predicate Unchanged(snapshot: Option<Manifest>, current: Manifest)
  {
    snapshot.Some? && snapshot.value.data != [] && current == snapshot.value
  }

  /** Whether the manifest is restored after the root installer reports `status`. */
  predicate RollsBack(status: int, dryRun: bool, snapshot: Option<Manifest>)
  {
    status != 0 && !dryRun && snapshot.Some?
  }

  /**
   * A restore needs a failed run, a real run and a snapshot; a successful run
   * or a dry run never touches the manifest.
   */
  lemma RollbackOnlyOnFailure(status: int, dryRun: bool, snapshot: Option<Manifest>)
    ensures RollsBack(status, dryRun, snapshot) ==> status != 0 && snapshot.Some?
    ensures status == 0 || dryRun || snapshot.None? ==> !RollsBack(status, dryRun, snapshot)
  {
  }

  const RollbackNotice := "An error occurred during the installation. Rolling back changes..."

  class MonorepoAdderRemover {
    const pluginConf: MonorangerConfig
    /** The manifest as it was before the command edited it. */
    var preAddPyproject: Option<Manifest>

    constructor(pluginConf: MonorangerConfig)
      ensures this.pluginConf == pluginConf && preAddPyproject == None
    {
      this.pluginConf := pluginConf;
      preAddPyproject := None;
    }

    /**
     * `execute(event)`: the command gets a shallow copy of its context (the
     * original object is not touched), the manifest is snapshotted, and the
     * installer is wrapped so that running it does nothing.
     */
    method Execute(event: Event) returns (raised: Option<Fault>)
      modifies this, event.command
      ensures !AddOrRemove(event.command.kind) ==>
        raised == Some(AssertionFailed) && preAddPyproject == old(preAddPyproject) &&
        event.command.poetry == old(event.command.poetry) && event.command.installer == old(event.command.installer)
      ensures AddOrRemove(event.command.kind) ==>
        && raised == None
        && fresh(event.command.poetry) && event.command.poetry.SameFields(old(event.command.poetry))
        && preAddPyproject == Some(old(event.command.poetry.file.content))
        && event.command.installer == Dummy(old(event.command.installer))
      ensures unchanged(old(event.command.poetry))
      ensures event.command.env == old(event.command.env)
    {
      var command := event.command;
      if !AddOrRemove(command.kind) {
        return Some(AssertionFailed);
      }
      var poetry := new Poetry.Copy(command.poetry);
      command.poetry := poetry;
      preAddPyproject := Some(poetry.file.content);
      command.installer := Dummy(command.installer);
      raised := None;
    }

    /**
     * `post_execute(event)`: unless the manifest still equals a non-empty
     * snapshot, a context is created at the monorepo root, the root
     * installer runs, the manifest is restored on a failed real run when a
     * snapshot exists, and the exit code is the run's status.
     */
    method PostExecute(event: Event, host: Host) returns (raised: Option<Fault>)
      modifies event, event.io, host, event.command.poetry.file
      ensures !AddOrRemove(event.command.kind) ==>
        raised == Some(AssertionFailed) && event.exitCode == old(event.exitCode) &&
        event.command.poetry.file.content == old(event.command.poetry.file.content) &&
        event.io.lines == old(event.io.lines) &&
        host.poetryRequests == old(host.poetryRequests)
      ensures AddOrRemove(event.command.kind) && Unchanged(preAddPyproject, old(event.command.poetry.file.content)) ==>
        && raised == None && event.exitCode == old(event.exitCode)
        && event.command.poetry.file.content == old(event.command.poetry.file.content)
        && event.io.lines == old(event.io.lines)
        && host.poetryRequests == old(host.poetryRequests)
      ensures AddOrRemove(event.command.kind) && !Unchanged(preAddPyproject, old(event.command.poetry.file.content))
              && !pluginConf.monorepoRoot.Str? ==>
        && raised == Some(RootNotText(pluginConf.monorepoRoot)) && event.exitCode == old(event.exitCode)
        && event.command.poetry.file.content == old(event.command.poetry.file.content)
        && event.io.lines == old(event.io.lines)
        && host.poetryRequests == old(host.poetryRequests)
      ensures AddOrRemove(event.command.kind) && !Unchanged(preAddPyproject, old(event.command.poetry.file.content))
              && pluginConf.monorepoRoot.Str? ==>
        var poetry := event.command.poetry;
        var root := RootDir(poetry.pyprojectPath, pluginConf.monorepoRoot.s);
        var installer := PostInstaller(event.io, event.command.env, host.projectAt(root), poetry.disableCache,
                                       event.command.dryRun, event.command.lockOnly, old(poetry.package.name));
        var status := host.statusOf(installer);
        && raised == None
        && host.poetryRequests == old(host.poetryRequests) + [PoetryRequest(root, event.io, poetry.disableCache)]
        && event.exitCode == Some(status)
        && (RollsBack(status, event.command.dryRun, preAddPyproject) ==>
              poetry.file.content == preAddPyproject.value &&
              event.io.lines == old(event.io.lines) + [RollbackNotice])
        && (!RollsBack(status, event.command.dryRun, preAddPyproject) ==>
              poetry.file.content == old(poetry.file.content) && event.io.lines == old(event.io.lines))
      ensures event.command.poetry == old(event.command.poetry)
      ensures event.io.packagesArgument == old(event.io.packagesArgument)
      ensures host.venvRequests == old(host.venvRequests) && host.configReloads == old(host.configReloads)
    {
      var command := event.command;
      if !AddOrRemove(command.kind) {
        return Some(AssertionFailed);
      }
      var io := event.io;
      var poetry := command.poetry;
      var snapshot := preAddPyproject;
      if snapshot.Some? && snapshot.value.data != [] && poetry.file.content == snapshot.value {
        return None;
      }
      var root := MonorepoRoot(poetry.pyprojectPath, pluginConf);
      if root.Err? {
        return Some(root.error);
      }
      var rootPoetry := host.CreatePoetry(root.value, io, poetry.disableCache);
      var installer := PostInstaller(io, command.env, Project(rootPoetry.file.content, rootPoetry.package,
                                     rootPoetry.locker, rootPoetry.pool, rootPoetry.config),
                                     rootPoetry.disableCache, command.dryRun, command.lockOnly, poetry.package.name);
      var status := RunStatus(installer, host.statusOf);
      if status != 0 && !command.dryRun && snapshot.Some? {
        io.WriteLine(RollbackNotice);
        poetry.file.content := snapshot.value;
      }
      event.exitCode := Some(status);
      raised := None;
    }
  }
}
