/**
 * `VenvModifier`: commands that need an environment use the monorepo root's
 * virtual environment, unless one is already active.
 */
module VenvModifier {
  import opened Values
  import opened Paths
  import opened Config
  import opened Console
  import opened Host

  /** `os.environ.get(k, default)` */
  function EnvGet(environ: map<string, string>, k: string, default: Option<string>): Option<string>
  {
    if k in environ then Some(environ[k]) else default
  }

  /**
   * The in-venv test: `VIRTUAL_ENV`, or else `CONDA_PREFIX`, is set, and
   * `CONDA_DEFAULT_ENV` is not `base`.
   */
  predicate InVenv(environ: map<string, string>)
  {
    var envPrefix := EnvGet(environ, "VIRTUAL_ENV", EnvGet(environ, "CONDA_PREFIX", None));
    var condaEnvName := EnvGet(environ, "CONDA_DEFAULT_ENV", None);
    envPrefix.Some? && condaEnvName != Some("base")
  }

  /**
   * Already inside an environment exactly when either variable naming one is
   * set and Conda's `base` environment is not the active one.
   */
  lemma InVenvIff(environ: map<string, string>)
    ensures InVenv(environ) <==>
      ("VIRTUAL_ENV" in environ || "CONDA_PREFIX" in environ) &&
      !("CONDA_DEFAULT_ENV" in environ && environ["CONDA_DEFAULT_ENV"] == "base")
  {
  }

  /** The installer for an installer command: the root venv, everything else from the command's own context. */
  function VenvInstaller(io: IO, env: Env, package: Package, locker: Locker, pool: Pool,
                         config: Settings, disableCache: bool): (i: Installer)
    ensures i.Installer? && i.env == env && i.io == io && i.flags == DefaultFlags
    ensures i.package == package && i.locker == locker && i.pool == pool
    ensures i.config == config && i.disableCache == disableCache
  {
    Installer(io, env, package, locker, pool, config, disableCache, DefaultFlags)
  }

  function VenvNotice(root: Path): string
  {
    "Using monorepo root venv " + (if root.parts == [] then "" else root.parts[|root.parts| - 1])
  }

  /** `VenvModifier(conf).execute(event)`, with `os.environ` given as a map. */
  method Execute(conf: MonorangerConfig, event: Event, host: Host, environ: map<string, string>)
    returns (raised: Option<Fault>)
    modifies event.command, event.io, host
    ensures !(event.command.isEnv && !event.command.isSelf) ==> raised == Some(AssertionFailed)
    ensures !(event.command.isEnv && !event.command.isSelf) || InVenv(environ) ==>
      && event.command.env == old(event.command.env)
      && event.command.installer == old(event.command.installer)
      && event.io.lines == old(event.io.lines)
      && host.poetryRequests == old(host.poetryRequests) && host.venvRequests == old(host.venvRequests)
      && host.configReloads == old(host.configReloads)
    ensures event.command.isEnv && !event.command.isSelf && InVenv(environ) ==> raised == None
    ensures event.command.isEnv && !event.command.isSelf && !InVenv(environ) ==>
      host.configReloads == old(host.configReloads) + 1
    ensures event.command.isEnv && !event.command.isSelf && !InVenv(environ) && !conf.monorepoRoot.Str? ==>
      && raised == Some(RootNotText(conf.monorepoRoot))
      && event.io.lines == old(event.io.lines)
      && event.command.env == old(event.command.env)
      && event.command.installer == old(event.command.installer)
      && host.poetryRequests == old(host.poetryRequests) && host.venvRequests == old(host.venvRequests)
    ensures event.command.isEnv && !event.command.isSelf && !InVenv(environ) && conf.monorepoRoot.Str? ==>
      var poetry := old(event.command.poetry);
      var root := RootDir(poetry.pyprojectPath, conf.monorepoRoot.s);
      var rootManifest := Join(root, Path(false, ["pyproject.toml"]));
      var env := host.venvAt(rootManifest);
      && raised == None
      && host.poetryRequests == old(host.poetryRequests) + [PoetryRequest(root, event.io, poetry.disableCache)]
      && host.venvRequests == old(host.venvRequests) + [rootManifest]
      && event.io.lines == old(event.io.lines) + [VenvNotice(root)]
      && event.command.env == env
      && (event.command.isInstaller ==>
            event.command.installer == VenvInstaller(event.io, env, poetry.package, poetry.locker,
                                                     poetry.pool, poetry.config, poetry.disableCache))
      && (!event.command.isInstaller ==> event.command.installer == old(event.command.installer))
    ensures event.command.poetry == old(event.command.poetry)
    ensures event.io.packagesArgument == old(event.io.packagesArgument)
  {
    var command := event.command;
    if !(command.isEnv && !command.isSelf) {
      return Some(AssertionFailed);
    }
    var envPrefix := EnvGet(environ, "VIRTUAL_ENV", EnvGet(environ, "CONDA_PREFIX", None));
    var condaEnvName := EnvGet(environ, "CONDA_DEFAULT_ENV", None);
    var inVenv := envPrefix.Some? && condaEnvName != Some("base");
    if inVenv {
      return None;
    }
    var io := event.io;
    var poetry := command.poetry;
    host.ReloadConfig();
    var root := MonorepoRoot(poetry.pyprojectPath, conf);
    if root.Err? {
      return Some(root.error);
    }
    var rootPoetry := host.CreatePoetry(root.value, io, poetry.disableCache);
    io.WriteLine(VenvNotice(root.value));
    var rootEnv := host.CreateVenv(rootPoetry);
    command.env := rootEnv;
    raised := None;
    if !command.isInstaller {
      return;
    }
    var installer := Installer(io, rootEnv, command.poetry.package, command.poetry.locker, command.poetry.pool,
                               command.poetry.config, command.poetry.disableCache, DefaultFlags);
    command.installer := installer;
  }
}
