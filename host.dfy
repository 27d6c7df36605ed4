/**
 * The Poetry objects the interceptors read and replace, reduced to the fields
 * the plugin touches, and the host services it calls (`Factory.create_poetry`,
 * `EnvManager.create_venv`, `Config.create`, `Installer.run`). What a host
 * service produces is given as data; each call is logged so that contracts can
 * say which calls were made, with which arguments.
 */
module Host {
  import opened Values
  import opened Paths
  import opened Config
  import opened Dependencies
  import opened Pinning
  import opened Console

  /** Opaque host values: a Python environment, a repository pool, Poetry's own settings. */
  datatype Env = Env(id: nat)
  datatype Pool = Pool(id: nat)
  datatype Settings = Settings(id: nat)

  /**
   * A package. `pinner` is set on the export wrapper (`PathDepPinningPackage`)
   * and holds the plugin settings its `PathDepPinner` was built with.
   */
  datatype Package = Package(
    name: string,
    sourceType: Option<string>,
    sourceUrl: Option<string>,
    groups: map<string, DependencyGroup>,
    pinner: Option<MonorangerConfig>)

  /** A lock file handler; the export wrapper adds a pinner and a console. */
  datatype Locker =
    | Locker(id: nat)
    | PinningLocker(base: Locker, pinner: MonorangerConfig, io: IO)

  /** The installer settings the plugin sets through `dry_run`, `verbose`, `update`, `execute_operations`, `whitelist`. */
  datatype Flags = Flags(dryRun: bool, verbose: bool, update: bool, executeOperations: bool, whitelist: seq<string>)

  /** The settings of a new `Installer`. */
  const DefaultFlags := Flags(false, false, false, true, [])

  datatype Installer =
    | Installer(io: IO, env: Env, package: Package, locker: Locker, pool: Pool,
                config: Settings, disableCache: bool, flags: Flags)
    | Dummy(inner: Installer)  // `DummyInstaller.from_installer(inner)`

  /** `installer.run()`: a `DummyInstaller` reports success without doing anything. */
  function RunStatus(i: Installer, statusOf: Installer -> int): (status: int)
    ensures i.Dummy? ==> status == 0
    ensures i.Installer? ==> status == statusOf(i)
  {
    if i.Dummy? then 0 else statusOf(i)
  }

  /** A `pyproject.toml` on disk (`poetry.file`). */
  class ManifestFile {
    var content: Manifest

    constructor(content: Manifest)
      ensures this.content == content
    {
      this.content := content;
    }
  }

  /** A `Poetry` context: one project's manifest and the objects built from it. */
  class Poetry {
    const pyprojectPath: Path
    const file: ManifestFile
    var package: Package
    var locker: Locker
    var pool: Pool
    var config: Settings
    var disableCache: bool

    constructor(pyprojectPath: Path, file: ManifestFile, package: Package, locker: Locker,
                pool: Pool, config: Settings, disableCache: bool)
      ensures this.pyprojectPath == pyprojectPath && this.file == file
      ensures this.package == package && this.locker == locker && this.pool == pool
      ensures this.config == config && this.disableCache == disableCache
    {
      this.pyprojectPath := pyprojectPath;
      this.file := file;
      this.package := package;
      this.locker := locker;
      this.pool := pool;
      this.config := config;
      this.disableCache := disableCache;
    }

    /** `Poetry.__new__(Poetry)` then `__dict__.update(other.__dict__)`: a shallow copy. */
    constructor Copy(other: Poetry)
      ensures SameFields(other)
    {
      this.pyprojectPath := other.pyprojectPath;
      this.file := other.file;
      this.package := other.package;
      this.locker := other.locker;
      this.pool := other.pool;
      this.config := other.config;
      this.disableCache := other.disableCache;
    }

    predicate SameFields(other: Poetry)
      reads this, other
    {
      && pyprojectPath == other.pyprojectPath && file == other.file
      && package == other.package && locker == other.locker && pool == other.pool
      && config == other.config && disableCache == other.disableCache
    }
  }

  /** The command classes the plugin tells apart. */
  datatype Kind = Add | Remove | Lock | Install | Update | Build | Export | Other

  /**
   * A running command. `isEnv`, `isInstaller` and `isSelf` say whether its
   * class derives from `EnvCommand`, `InstallerCommand` and `SelfCommand`;
   * `dryRun` and `lockOnly` are its `--dry-run` and `--lock` options.
   */
  class Command {
    const kind: Kind
    const isEnv: bool
    const isInstaller: bool
    const isSelf: bool
    const dryRun: bool
    const lockOnly: bool
    var poetry: Poetry
    var installer: Installer
    var env: Env

    constructor(kind: Kind, isEnv: bool, isInstaller: bool, isSelf: bool, dryRun: bool, lockOnly: bool,
                poetry: Poetry, installer: Installer, env: Env)
      ensures this.kind == kind && this.isEnv == isEnv && this.isInstaller == isInstaller
      ensures this.isSelf == isSelf && this.dryRun == dryRun && this.lockOnly == lockOnly
      ensures this.poetry == poetry && this.installer == installer && this.env == env
    {
      this.kind := kind;
      this.isEnv := isEnv;
      this.isInstaller := isInstaller;
      this.isSelf := isSelf;
      this.dryRun := dryRun;
      this.lockOnly := lockOnly;
      this.poetry := poetry;
      this.installer := installer;
      this.env := env;
    }
  }

  /** A console event: the command, its console, and the exit code a listener set. */
  class Event {
    const command: Command
    const io: IO
    var exitCode: Option<int>

    constructor(command: Command, io: IO)
      ensures this.command == command && this.io == io && this.exitCode == None
    {
      this.command := command;
      this.io := io;
      this.exitCode := None;
    }
  }

  /** An exception that leaves an interceptor. */
  datatype Fault =
    | AssertionFailed             // a command of the wrong kind
    | RootNotText(root: Value)    // `monorepo_root` is not a string: `/` raises TypeError
    | NoMainGroup                 // `dependency_group("main")` raises ValueError
    | PinFailed(error: PinError)  // a pin error the loop does not catch
    | BadPluginTable              // the plugin table is not a table: indexing raises TypeError
    | BadConfig(key: string)      // `MonorangerConfig(**d)` raises TypeError

  /**
   * `(poetry.pyproject_path.parent / plugin_conf.monorepo_root).resolve()`,
   * the directory every interceptor runs from.
   */
  function MonorepoRoot(pyprojectPath: Path, conf: MonorangerConfig): (r: Result<Path, Fault>)
    ensures r.Ok? <==> conf.monorepoRoot.Str?
    ensures r.Ok? ==> r.value == RootDir(pyprojectPath, conf.monorepoRoot.s) && Resolved(r.value)
    ensures r.Err? ==> r.error == RootNotText(conf.monorepoRoot)
  {
    if conf.monorepoRoot.Str? then Ok(RootDir(pyprojectPath, conf.monorepoRoot.s))
    else Err(RootNotText(conf.monorepoRoot))
  }

  /** What `Factory().create_poetry(cwd)` finds in a directory. */
  datatype Project = Project(manifest: Manifest, package: Package, locker: Locker, pool: Pool, config: Settings)

  /** A `create_poetry` call: the directory, the console and the `disable_cache` flag passed. */
  datatype PoetryRequest = PoetryRequest(cwd: Path, io: IO, disableCache: bool)

  /** The host: the projects and environments it would build, and the calls made to it. */
  class Host {
    const projectAt: Path -> Project
    const venvAt: Path -> Env
    const statusOf: Installer -> int
    var poetryRequests: seq<PoetryRequest>
    var venvRequests: seq<Path>
    var configReloads: nat

    constructor(projectAt: Path -> Project, venvAt: Path -> Env, statusOf: Installer -> int)
      ensures this.projectAt == projectAt && this.venvAt == venvAt && this.statusOf == statusOf
      ensures poetryRequests == [] && venvRequests == [] && configReloads == 0
    {
      this.projectAt := projectAt;
      this.venvAt := venvAt;
      this.statusOf := statusOf;
      poetryRequests := [];
      venvRequests := [];
      configReloads := 0;
    }

    /** `Factory().create_poetry(cwd=cwd, io=io, disable_cache=disableCache)`: a new context. */
    method CreatePoetry(cwd: Path, io: IO, disableCache: bool) returns (p: Poetry)
      modifies this
      ensures fresh(p) && fresh(p.file)
      ensures p.pyprojectPath == Join(cwd, Path(false, ["pyproject.toml"]))
      ensures p.file.content == projectAt(cwd).manifest
      ensures p.package == projectAt(cwd).package && p.locker == projectAt(cwd).locker
      ensures p.pool == projectAt(cwd).pool && p.config == projectAt(cwd).config
      ensures p.disableCache == disableCache
      ensures poetryRequests == old(poetryRequests) + [PoetryRequest(cwd, io, disableCache)]
      ensures venvRequests == old(venvRequests) && configReloads == old(configReloads)
    {
      var project := projectAt(cwd);
      var file := new ManifestFile(project.manifest);
      p := new Poetry(Join(cwd, Path(false, ["pyproject.toml"])), file, project.package,
                      project.locker, project.pool, project.config, disableCache);
      poetryRequests := poetryRequests + [PoetryRequest(cwd, io, disableCache)];
    }

    /** `EnvManager(poetry, io=io).create_venv()` */
    method CreateVenv(poetry: Poetry) returns (env: Env)
      modifies this
      ensures env == venvAt(poetry.pyprojectPath)
      ensures venvRequests == old(venvRequests) + [poetry.pyprojectPath]
      ensures poetryRequests == old(poetryRequests) && configReloads == old(configReloads)
    {
      env := venvAt(poetry.pyprojectPath);
      venvRequests := venvRequests + [poetry.pyprojectPath];
    }

    /** `Config.create(reload=True)` */
    method ReloadConfig()
      modifies this
      ensures configReloads == old(configReloads) + 1
      ensures poetryRequests == old(poetryRequests) && venvRequests == old(venvRequests)
    {
      configReloads := configReloads + 1;
    }
  }
}
