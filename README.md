# poetry-monoranger-plugin, modelled in Dafny

The plugin lets every subproject of a monorepo share one lock file and one
virtual environment. The shared root is given as a path relative to each
subproject. The plugin reads its settings from the subproject manifest's
`[tool.poetry-monoranger-plugin]` table. When it is enabled, it changes
Poetry commands before they run:

- commands that need an environment use the root's venv;
- `lock`, `install` and `update` run against the root project;
- `add` and `remove` edit only the subproject's manifest, then relock the
  root and roll the manifest back if that fails;
- `build` replaces each directory (path) dependency of the main group with a
  version constraint read from the target project's own manifest.

A second, unwired interceptor does the same pinning for `export`.

The model keeps the plugin's own structure:

- one module per source file (`Config`, `PathRewriter`, `PathDepPinner`,
  `ExportModifier`, `LockModifier`, `VenvModifier`, `MonorepoAdder`,
  `Plugin`);
- shared modules for the values the plugin handles (`Values`, `Paths`,
  `Versions`, `Dependencies`, `Pinning`);
- the discovery and pinning loops that two files share (`Discovery`,
  `GroupRewrite`);
- the Poetry objects the interceptors update in place (`Host`, `Console`).

Python dicts are ordered lists of entries, because the plugin's dict code
depends on insertion order. Objects that the plugin mutates (command, event,
IO, dependency group, Poetry context, manifest file, the plugin itself) are
classes, and their methods state their whole new state. Loops are methods
proved against specification functions. Exceptions are `Result`/`Option`
values named after the Python exception they stand for.

Some descriptions of this plugin mention things the code does not do. The
model follows the code:

- there is no deprecated `version-pinning-rule` alias and no mutual
  exclusion check; the field is `version_rewrite_rule`;
- post-add rollback happens on a non-zero status only and never re-raises;
- export does not copy the lock file;
- Poetry's global settings are reloaded only by the venv and export
  interceptors.

## Model

| member | source | states |
|---|---|---|
| Config.Underscored | poetry_monoranger_plugin/config.py:36 | every '-' of a key becomes '_', nothing else changes, and the result holds no '-' |
| Config.FirstUnknown | poetry_monoranger_plugin/config.py:37 | `None` exactly when every key is a field of the dataclass; otherwise a key of the table that is not one |
| Config.NormalizeKeysLookup | poetry_monoranger_plugin/config.py:36 | the normalised dict holds, for each normalised key, the value of the last input entry that normalises to it |
| Config.NormalizeKeysHasKey | poetry_monoranger_plugin/config.py:36 | a key is in the normalised dict iff some input key normalises to it |
| Config.FromDictSucceedsIff | poetry_monoranger_plugin/config.py:26-37 | `from_dict` succeeds iff every key, with '-' replaced by '_', names one of the three fields (otherwise `TypeError`) |
| Config.FromDictFields | poetry_monoranger_plugin/config.py:22-37 | on success each field is the last value given for it, unvalidated, or the default `False`, `"../"`, `"^"` |
| Config.FromDict | poetry_monoranger_plugin/config.py:36-37 | a rejected table is reported with a key that names none of the three fields |
| Config.UnderscoredNoDash | poetry_monoranger_plugin/config.py:36 | a key without '-' is unchanged by normalisation |
| Values.Lookup | poetry_monoranger_plugin/plugin.py:44 | `d.get(k)` finds a value iff `k in d` |
| Values.PutLookup | poetry_monoranger_plugin/plugin.py:45-47 | after `d[k] = v`, `k` holds `v`, every other key keeps its value, and the key set gains exactly `k` |
| Values.PutShape | poetry_monoranger_plugin/plugin.py:45-47 | storing under an existing key keeps the key order; a new key is appended |
| Values.PutUnique | poetry_monoranger_plugin/plugin.py:45-47 | storing never duplicates a key |
| Plugin.MergeDicts | poetry_monoranger_plugin/plugin.py:41-48 | the loop, with its recursive calls on nested tables, computes `Merge(base, addition)` |
| Plugin.MergeTablesLookup | poetry_monoranger_plugin/plugin.py:41-48 | after n steps a key holds the combined value of its last entry among the first n of the addition, or the base's value if none |
| Plugin.MergeKeys | poetry_monoranger_plugin/plugin.py:41-48 | the merged dict's keys are exactly the base's keys and the addition's keys |
| Plugin.MergeValues | poetry_monoranger_plugin/plugin.py:41-48 | a base-only key keeps the base's value; an addition key takes the addition's value, unless both are tables, which are merged recursively |
| Plugin.MergeTablesShape | poetry_monoranger_plugin/plugin.py:41-48 | the result starts with the base's keys in the base's order, and a base without duplicate keys gives a result without them |
| Plugin.LastEntry | poetry_monoranger_plugin/plugin.py:43 | the last entry of a dict with the key, found iff the key is present |
| Plugin.PluginTableEnabled | poetry_monoranger_plugin/plugin.py:37-38 | the merged plugin table always holds `enabled`: the manifest's own value when it sets one, `False` otherwise; a manifest without `tool` gives `{enabled: False}` |
| Plugin.DispatchRuns | poetry_monoranger_plugin/plugin.py:101-125 | each interceptor runs exactly for its command kinds (venv for env commands other than `self`; lock for lock/install/update; adder for add/remove; rewriter for build), once, in the fixed order, at most two per command |
| Plugin.Dispatch | poetry_monoranger_plugin/plugin.py:101-125 | at most two interceptors run; the venv one exactly for env commands other than `self`, the rewriter exactly for `build` |
| Plugin.DefaultPackages | poetry_monoranger_plugin/plugin.py:110-111 | an update given no packages (absent or empty) is limited to the subproject's package; any other command keeps its arguments |
| Plugin.Application.constructor | poetry_monoranger_plugin/plugin.py:61-68 | the application holds the manifest data (absent when reading it raises `RuntimeError`) and no listeners |
| Plugin.Monoranger.constructor | poetry_monoranger_plugin/plugin.py:54-59 | no context, no settings, empty `ctx` |
| Plugin.Monoranger.Activate | poetry_monoranger_plugin/plugin.py:61-88 | no manifest: nothing happens; a non-table plugin entry raises `TypeError`; disabled: nothing is registered; enabled: both listeners are registered, in order, before the settings are built, and an unknown key raises after registration |
| Plugin.RunVenv | poetry_monoranger_plugin/plugin.py:101-104 | the venv step succeeds only for env commands other than `self`; after it succeeds outside an activated venv the command's environment is the venv created for the monorepo root's manifest, and an installer command has a new installer on it built from the command's own context; inside an activated venv environment and installer stay; the command keeps its Poetry context and package arguments |
| Plugin.UpdateDefaultThenLock | poetry_monoranger_plugin/plugin.py:106-112 | the package arguments are defaulted before the lock interceptor runs and stay so after it; a lock-family command gets the root notice; after success the command has the monorepo root's package, locker, pool, config and manifest contents and an installer built for the root in its unchanged environment |
| Plugin.RunBuild | poetry_monoranger_plugin/plugin.py:122-125 | for a build with a main group, the group's dependencies become those the pinning loop leaves over its directory dependencies, and the step raises exactly what the loop lets escape; a build without a main group raises `ValueError` |
| Plugin.RunEnvironmentSteps | poetry_monoranger_plugin/plugin.py:101-112 | the venv step then the lock step run for their command kinds, stopping at the first error (a non-empty prefix of them); after them the command has the root venv and the root's package and installer as those steps leave them, and an update's package arguments are defaulted |
| Plugin.Monoranger.StashAndAddRemove | poetry_monoranger_plugin/plugin.py:114-120 | a new interceptor with the plugin's settings is stored in `ctx` under `add` before it runs; other entries of `ctx` stay; for add/remove the stored interceptor holds the manifest as it was before the command, and the command runs on a fresh copy of its context with a dummy installer; for other kinds the assertion fails with the command untouched |
| Plugin.Monoranger.RunProjectSteps | poetry_monoranger_plugin/plugin.py:114-125 | the add/remove step then the build step run for their command kinds, stopping at the first error; `ctx` holds the stashed interceptor with the pre-command manifest exactly when add/remove ran; a build leaves the main group as the pinning loop does; the environment stays, and outside add/remove so do the Poetry context and installer |
| Plugin.Monoranger.OnCommand | poetry_monoranger_plugin/plugin.py:90-125 | without an error every interceptor of `Dispatch` runs; an error stops the chain after a non-empty prefix of it; the update default is applied; `ctx` changes only for add/remove, where it then holds the manifest as it was before the command; only a build may change the main group; after a successful venv step outside a venv the command's environment is the root's venv; after a successful lock step the command has the root's package and an installer for the root; after a build step the main group holds the pinning loop's dependencies and the listener raises what the loop let escape |
| Plugin.Monoranger.OnTerminate | poetry_monoranger_plugin/plugin.py:127-142 | for add/remove the stashed interceptor is popped from `ctx` (or a fresh one with no snapshot made) and finishes the command with that snapshot: a manifest equal to a non-empty snapshot ends it; a non-text root raises; otherwise the root context is requested, the root installer's status is the exit code, and the manifest is restored to the snapshot, with the rollback notice written, exactly when the installer fails outside a dry run; on every other path the console and the host's requests stay; the package arguments, venv requests and settings reloads never change; other commands change nothing |
| Paths.SplitSlash | poetry_monoranger_plugin/path_rewriter.py:99 | at least one piece, none holding '/' |
| Paths.SplitSlashJoins | poetry_monoranger_plugin/path_rewriter.py:99 | splitting a path string at '/' loses nothing: joining the pieces gives it back |
| Paths.Parse | poetry_monoranger_plugin/path_rewriter.py:99 | a path is absolute iff its text starts with '/', and its parts are named segments |
| Paths.ResolveIsResolved | poetry_monoranger_plugin/lock_modifier.py:52 | `resolve()` leaves no empty or "." part, no ".." in an absolute path and only leading ".." in a relative one |
| Paths.CollapseResolved | poetry_monoranger_plugin/lock_modifier.py:52 | resolving a resolved path changes nothing |
| Paths.ResolveIdempotent | poetry_monoranger_plugin/lock_modifier.py:52 | resolving twice is resolving once |
| Paths.UpIsParent | poetry_monoranger_plugin/lock_modifier.py:52 | joining ".." to a resolved absolute path and resolving gives its parent |
| Paths.RootDir | poetry_monoranger_plugin/lock_modifier.py:52 | the monorepo root is resolved, and absolute when the manifest path is |
| Paths.DefaultRootIsGrandparent | poetry_monoranger_plugin/config.py:23 | with the default root "../" the monorepo root is the directory above the subproject's |
| Versions.NatText | poetry_monoranger_plugin/path_rewriter.py:142 | a number's text is non-empty and all digits |
| Versions.NatTextValue | poetry_monoranger_plugin/path_rewriter.py:142 | reading a number's text gives the number back |
| Versions.DigitRun | poetry_monoranger_plugin/path_rewriter.py:140 | the leading digit run is within the string and all digits |
| Versions.ParseVersion | poetry_monoranger_plugin/path_rewriter.py:140 | a parsed version has one to three release numbers |
| Versions.TextParses | poetry_monoranger_plugin/path_rewriter.py:140-142 | the text of a final three-part release parses back to that release |
| Versions.NextPatchAbove | poetry_monoranger_plugin/path_rewriter.py:141 | `next_patch` of the version with pre and dev dropped lies strictly above it, keeps major and minor, and is final |
| Dependencies.Without | poetry_monoranger_plugin/path_rewriter.py:64 | removal keeps exactly the entries of other names, in number the list minus those of that name, and leaves none of that name |
| Dependencies.WithoutCountOther | poetry_monoranger_plugin/path_rewriter.py:64 | removing one name leaves every other name's count unchanged |
| Dependencies.DependencyGroup.constructor | poetry_monoranger_plugin/path_rewriter.py:74 | a group holds its three views as given |
| Dependencies.DependencyGroup.RemoveDependency | poetry_monoranger_plugin/path_rewriter.py:64 | `remove_dependency` drops every entry of the name from `dependencies`; the other views stay |
| Dependencies.DependencyGroup.AddDependency | poetry_monoranger_plugin/path_rewriter.py:65 | `add_dependency` appends the entry; the other views stay |
| Console.IO.WriteLine | poetry_monoranger_plugin/path_rewriter.py:61 | a written line is appended to the console output; the command arguments stay |
| Console.IO.constructor | poetry_monoranger_plugin/plugin.py:110 | the console holds its verbosity and package arguments and no output |
| Discovery.DirectoryDeps | poetry_monoranger_plugin/path_rewriter.py:68-70 | before Poetry 2 the result has no more entries than the group |
| Discovery.GetDirectoryDeps | poetry_monoranger_plugin/path_rewriter.py:67-96 | the nested loops compute `DirectoryDeps` of the group's three views |
| Discovery.CollectFeaturesAt | poetry_monoranger_plugin/path_rewriter.py:78-80 | after a view is visited, a name's feature set gains exactly the extras its entries ask for |
| Discovery.CollectViewsAt | poetry_monoranger_plugin/path_rewriter.py:74-80 | after all views, a name's feature set is the union of the extras all views ask for under it |
| Discovery.LockingTableAt | poetry_monoranger_plugin/path_rewriter.py:83 | the locking index holds a name iff the locking view has it, mapped to its last entry |
| Discovery.GatherIsReference | poetry_monoranger_plugin/path_rewriter.py:85-96 | the final loop equals the reference definition read off the views directly |
| Discovery.DiscoveryV2 | poetry_monoranger_plugin/path_rewriter.py:72-96 | from Poetry 2 on, discovery takes each directory entry of `dependencies`, or else the last same-name locking entry when that is one, with the extras of all views |
| Discovery.ReferenceDepsNamed | poetry_monoranger_plugin/path_rewriter.py:85-96 | at most one result per entry; each is a directory dependency carrying all views' extras and named like an entry of `dependencies` |
| Discovery.ReferenceDepsComplete | poetry_monoranger_plugin/path_rewriter.py:87-88 | every directory entry of `dependencies` is found, with all views' extras |
| Discovery.DiscoveryV1 | poetry_monoranger_plugin/path_rewriter.py:69-70 | before Poetry 2, exactly the directory entries of `dependencies` are kept, whatever the other two views hold |
| Discovery.DiscoveryV1InOrder | poetry_monoranger_plugin/path_rewriter.py:69-70 | before Poetry 2, discovery keeps the entries in their order: it distributes over concatenation, and a single entry is kept iff it is a directory dependency |
| Pinning.OpenManifest | poetry_monoranger_plugin/path_rewriter.py:98-109 | the target is opened iff it exists and is a Poetry project; otherwise a `RuntimeError`, which the loops catch |
| Pinning.Get | poetry_monoranger_plugin/path_rewriter.py:132 | subscripting succeeds iff the value is a table with the key, and gives its value; a table without the key raises `KeyError`, any other value `TypeError` |
| Pinning.NameVersionIn | poetry_monoranger_plugin/path_rewriter.py:128-129 | a name and version are read iff the value is a table with both; otherwise `KeyError` for the first missing key, or `TypeError` for a non-table |
| Pinning.ProjectNameVersion | poetry_monoranger_plugin/path_rewriter.py:132-133 | reading the `[project]` table fails only with `KeyError` or `TypeError` |
| Pinning.AsText | poetry_monoranger_plugin/path_rewriter.py:128-129 | the name and version are usable iff both are strings, and are those strings |
| Pinning.ConstraintSucceedsIff | poetry_monoranger_plugin/path_rewriter.py:135-144 | a constraint is made iff the rule is one of `~ ^ == >=,<` and, for `>=,<`, the version parses; failures are caught by the loop; an unknown rule is `ValueError` whatever the version |
| Pinning.Constraint | poetry_monoranger_plugin/path_rewriter.py:135-144 | a constraint is made only for one of the four rules, and every failure is a `ValueError` the loops catch |
| Pinning.ConstraintKeepsVersion | poetry_monoranger_plugin/path_rewriter.py:135-142 | the constraint is the rule's lead followed by the version text; `==` gives the version itself |
| Pinning.BoundedConstraint | poetry_monoranger_plugin/path_rewriter.py:139-142 | under `>=,<` the upper bound is a final release's text that parses back, lies above the version and keeps major and minor |
| Pinning.Pinned | poetry_monoranger_plugin/path_rewriter.py:146-152 | the new dependency has the target's name and the constraint, the old groups, optional flag and extras, and no directory source |
| Pinning.PinTo | poetry_monoranger_plugin/path_rewriter.py:135-152 | the pin succeeds iff the rule is one of the four and the version parses, so that `Dependency` can parse the constraint; it is then `Pinned` with the rule's constraint; every failure (`ValueError`, `InvalidVersion`, `ParseConstraintError`) is caught by the loops |
| Pinning.UnparsableVersionIsCaught | poetry_monoranger_plugin/path_rewriter.py:139-152 | under a known rule an unparsable version fails with `InvalidVersion` for `>=,<` and with `ParseConstraintError` on the constraint for the other rules |
| Pinning.CaretLatestIsCaught | poetry_monoranger_plugin/path_rewriter.py:135-152 | the version "latest" under `^` fails with `ParseConstraintError` on "^latest" instead of being pinned |
| GroupRewrite.PinGroup | poetry_monoranger_plugin/path_rewriter.py:57-65 | the loop rewrites the group and console as `Rewrite` says, and only `dependencies` changes |
| GroupRewrite.Rewrite | poetry_monoranger_plugin/path_rewriter.py:57-65 | an error that leaves the loop is one it does not catch; the loop adds at most one console line per dependency and removes none |
| GroupRewrite.RewriteAllFail | poetry_monoranger_plugin/path_rewriter.py:60-62 | when every pin fails with a caught error, the group is unchanged and one warning per dependency is written, in order |
| GroupRewrite.RewriteAppendsLines | poetry_monoranger_plugin/path_rewriter.py:61 | the loop only appends console lines |
| GroupRewrite.RewriteRaised | poetry_monoranger_plugin/path_rewriter.py:58-62 | an error leaves the loop iff some pin raises an uncaught one |
| GroupRewrite.RewriteRaisedFirst | poetry_monoranger_plugin/path_rewriter.py:58-62 | an error that leaves the loop is the one some pin raised, and every earlier pin succeeded or failed with a caught error |
| GroupRewrite.Warnings | poetry_monoranger_plugin/path_rewriter.py:61 | one warning per skipped dependency, naming it, in order |
| GroupRewrite.RewriteSkipsCaught | poetry_monoranger_plugin/path_rewriter.py:58-62 | a run of dependencies whose pins all fail with caught errors only adds their warnings, in order, before the loop goes on with the rest |
| GroupRewrite.RewriteIgnoresLines | poetry_monoranger_plugin/path_rewriter.py:57-65 | the group the loop leaves and the error it lets escape do not depend on the console lines written before it |
| GroupRewrite.RewriteKeepsOthers | poetry_monoranger_plugin/path_rewriter.py:64-65 | an entry whose name no directory dependency carries stays in the group |
| GroupRewrite.RewriteAddsPinned | poetry_monoranger_plugin/path_rewriter.py:64-65 | without uncaught errors, each successful pin's result ends up in the group unless a later dependency has its name |
| GroupRewrite.NoneRaised | poetry_monoranger_plugin/path_rewriter.py:58-62 | when no pin raises an uncaught error the loop completes |
| GroupRewrite.RewriteKeepsSize | poetry_monoranger_plugin/path_rewriter.py:64-65 | distinct dependencies that each occur once, pinned under their own names, leave the group's size unchanged |
| PathRewriter.NameAndVersion | poetry_monoranger_plugin/path_rewriter.py:127-133 | a failure to read the name and version is one the loop does not catch |
| PathRewriter.PinDependency | poetry_monoranger_plugin/path_rewriter.py:111-152 | a pinned dependency comes from a known rule, keeps the groups and has no directory source |
| PathRewriter.PinDependencySucceeds | poetry_monoranger_plugin/path_rewriter.py:111-152 | a pin succeeds iff the target manifest next to the subproject exists, is a Poetry project, gives a string name and version, the rule is one of the four and the version parses; the result is `Pinned` with that name and the rule's constraint |
| PathRewriter.PinDependencyErrors | poetry_monoranger_plugin/path_rewriter.py:98-152 | a missing target, an unknown rule, or an unparsable version (`InvalidVersion` under `>=,<`, `ParseConstraintError` otherwise) gives the caught error; a `[tool.poetry]` value without a name gives `KeyError`, or `TypeError` when it is not a table, neither caught |
| PathRewriter.NameAndVersionFallback | poetry_monoranger_plugin/path_rewriter.py:130-133 | `[project]` is read only when `[tool.poetry]` is absent |
| PathRewriter.Execute | poetry_monoranger_plugin/path_rewriter.py:40-65 | a non-build command fails the assertion with nothing changed (the group is outside its frame); a build rewrites the main group in place by the pinning loop over its directory dependencies, keeping the other two views |
| PathDepPinner.NameAndVersion | poetry_monoranger_plugin/path_dep_pinner.py:132-138 | a failure to read the name and version is one the loop does not catch |
| PathDepPinner.PinDependencyAsWritten | poetry_monoranger_plugin/path_dep_pinner.py:117-149 | as written every pin fails |
| PathDepPinner.AsWrittenNeverPins | poetry_monoranger_plugin/path_dep_pinner.py:140-149 | as written no pin ever succeeds; a readable target ends in an uncaught `AttributeError` |
| PathDepPinner.AsWrittenGroupAborts | poetry_monoranger_plugin/path_dep_pinner.py:58-69 | as written the group loop warns about each target before the first readable one that is missing or not a Poetry project, then stops at that readable target with an uncaught `AttributeError`, the group unchanged |
| PathDepPinner.PinDependency | poetry_monoranger_plugin/path_dep_pinner.py:117-157 | corrected pin: a pinned dependency comes from a known rule, keeps the groups and has no directory source |
| PathDepPinner.PinDependencySucceeds | poetry_monoranger_plugin/path_dep_pinner.py:117-157 | with the rule read from `version_rewrite_rule` (corrected pin), a pin succeeds iff the target at the dependency's source URL is a readable Poetry project, the rule is one of the four and the version parses; the result is `Pinned` with that name and the rule's constraint |
| PathDepPinner.NameAndVersionFallback | poetry_monoranger_plugin/path_dep_pinner.py:132-138 | a `[tool.poetry]` table without a name or version falls back to `[project]`; a `[tool.poetry]` value that is not a table raises the uncaught `TypeError` |
| PathDepPinner.PinDepGroup | poetry_monoranger_plugin/path_dep_pinner.py:58-69 | the group is rewritten in place by the pinning loop with the corrected pin |
| PathDepPinner.Execute | poetry_monoranger_plugin/path_dep_pinner.py:41-56 | a non-build command fails the assertion with nothing changed (the group is outside its frame); a build pins the main group in place with the corrected pin, keeping the other two views |
| ExportModifier.PinRequires | poetry_monoranger_plugin/export_modifier.py:87 | a successful comprehension has one entry per requirement |
| ExportModifier.PinRequiresShape | poetry_monoranger_plugin/export_modifier.py:85-88 | the comprehension succeeds iff no pin fails, and then keeps length and order, pinning directory entries and keeping the rest |
| ExportModifier.PinRequiresFirstError | poetry_monoranger_plugin/export_modifier.py:87 | a failure is the error of the first entry a pin fails on |
| ExportModifier.FromPackage | poetry_monoranger_plugin/export_modifier.py:70-77 | the wrapper equals the package in every field but the pinner, which it sets |
| ExportModifier.AllRequires | poetry_monoranger_plugin/export_modifier.py:79-88 | when requirements are returned there is one per inherited requirement |
| ExportModifier.FromPackageRequires | poetry_monoranger_plugin/export_modifier.py:70-88 | the wrapped package keeps every field and pins its requirements with the corrected pinner; an unwrapped one returns them as they are |
| ExportModifier.GetLockedPackage | poetry_monoranger_plugin/export_modifier.py:48-62 | a directory package loses its source and has its main group's dependencies pinned in place with the corrected pinner, the group's other two views kept; any other package is returned as it was |
| ExportModifier.Execute | poetry_monoranger_plugin/export_modifier.py:101-137 | after a notice and a settings reload, the command gets a copy of its context whose package is wrapped and whose locker is the root's, wrapped; the original context is untouched |
| LockModifier.RootInstaller | poetry_monoranger_plugin/lock_modifier.py:57-65 | the installer uses the command's environment with the root context's package, locker, pool, config and cache flag |
| LockModifier.Execute | poetry_monoranger_plugin/lock_modifier.py:34-68 | after a notice, the command is given a new context for the root, with the root's manifest path and contents, package, locker, pool and config and the command's cache flag, and an installer for it; a non-text root raises with the command unchanged; a non-lock command fails the assertion with nothing changed |
| VenvModifier.InVenvIff | poetry_monoranger_plugin/venv_modifier.py:58-62 | the process is in a venv iff `VIRTUAL_ENV` or else `CONDA_PREFIX` is set and the conda env is not `base` |
| VenvModifier.VenvInstaller | poetry_monoranger_plugin/venv_modifier.py:83-91 | the installer keeps the command's own context and uses the root venv |
| VenvModifier.Execute | poetry_monoranger_plugin/venv_modifier.py:39-92 | a command that is not an env command fails the assertion with nothing changed; in a venv nothing changes; otherwise the settings are reloaded, then a non-text root raises with the console, command and host requests unchanged, and a text root has its context requested, its venv created and attached, a notice written, and an installer command gets a new installer on it |
| MonorepoAdder.DummyRunsClean | poetry_monoranger_plugin/monorepo_adder.py:45-52 | the dummy installer's run always returns 0 |
| MonorepoAdder.PostInstaller | poetry_monoranger_plugin/monorepo_adder.py:131-146 | the root installer takes the dry-run flag, verbosity, `update`, operations unless lock-only, and a whitelist of the subproject's package |
| MonorepoAdder.RollbackOnlyOnFailure | poetry_monoranger_plugin/monorepo_adder.py:150 | rollback happens only on a non-zero status with a snapshot, and never on success, dry run or no snapshot |
| MonorepoAdder.MonorepoAdderRemover.constructor | poetry_monoranger_plugin/monorepo_adder.py:78-80 | the interceptor keeps the settings and has no snapshot |
| MonorepoAdder.MonorepoAdderRemover.Execute | poetry_monoranger_plugin/monorepo_adder.py:82-105 | the command gets a copy of its context and a dummy installer; the manifest is snapshotted; the original context is untouched |
| MonorepoAdder.MonorepoAdderRemover.PostExecute | poetry_monoranger_plugin/monorepo_adder.py:107-155 | a command that is not add/remove fails the assertion with nothing changed; an unchanged manifest ends the command; a non-text root raises with the console and host requests unchanged; otherwise the root context is requested, the root installer runs, the snapshot is written back with a notice exactly when the run fails outside a dry run, and the exit code is the status |
| Host.RunStatus | poetry_monoranger_plugin/monorepo_adder.py:148 | a dummy installer's run returns 0 |
| Host.MonorepoRoot | poetry_monoranger_plugin/lock_modifier.py:52 | a string root gives `RootDir`; any other value raises `TypeError` |
| Host.Poetry.Copy | poetry_monoranger_plugin/monorepo_adder.py:98-99 | a shallow copy has every field of the original |
| Host.Host.CreatePoetry | poetry_monoranger_plugin/lock_modifier.py:53-55 | a new context for the directory's manifest is made and the request logged |
| Host.Host.CreateVenv | poetry_monoranger_plugin/venv_modifier.py:75-76 | the root context's venv is returned and the request logged |
| Host.Host.ReloadConfig | poetry_monoranger_plugin/venv_modifier.py:70 | a reload is counted |

## Left out

- I/O is not modelled as such. The file system is a map from resolved paths to parsed manifests. Environment variables are a map. The console is a list of lines. The installer's run result is a host function of the installer.
- Console text keeps only the message. Cleo markup, the error text after "Could not pin dependency NAME" and the trailing newline of the venv notice are dropped.
- Path resolution is lexical. Symbolic links and the working directory of a relative manifest path are not modelled.
- Poetry's `Factory`, `EnvManager`, `Config.create`, `Installer`, `Locker` and the base `ProjectPackage.all_requires` are external. They are given as host data, and their requests are logged. Factory's search for a manifest in parent directories is not modelled.
- poetry-core's `PyProjectTOML.is_poetry_project` and `poetry_config` are modelled after poetry-core 2.x.
- `Version.parse` covers releases of one to three numbers with optional `aN`/`bN`/`rcN` and `.devN`. Epochs, post releases, local versions, longer releases and normalisation of spelling variants are not modelled; such text counts as unparsable (`InvalidVersion`).
- poetry-core's `parse_constraint`, run by `Dependency(...)`, is modelled through the same grammar: the constraint a rule makes parses iff its version does. A version poetry-core accepts outside that grammar is treated as a caught `ParseConstraintError`.
- A `[tool]` value that is not a table is treated as having no `[tool.poetry]` table; poetry-core would raise an `AttributeError` there.
- The Poetry major version (`POETRY_V2`) is a parameter of the discovery functions.
- `remove_dependency` compares names exactly. Name canonicalisation is not modelled.
- Dependency groups are modelled by their three views of dependencies only.
- Dependencies.DependencyGroup.AddDependency and Dependencies.DependencyGroup.RemoveDependency treat the three views as independent stores: they change `dependencies` only. This is an assumption about poetry-core's `DependencyGroup`, which may derive one view from the others or update several at once; the frames that keep `poetry_dependencies` and `dependencies_for_locking` rest on it.
- `copy.deepcopy` and `__dict__` copies are value copies of datatypes or new objects with equal fields. Aliasing inside the copied values is not modelled.
- PathRewriter.NameAndVersion: a name or version that is not a string is treated as an uncaught error (`NotAString`). The source casts without checking and would build a dependency from whatever value it finds.
- PathDepPinner.NameAndVersion: the same simplification for non-string names and versions.
- The `ExportModifier` is not dispatched by `plugin.py`'s listener. It is modelled on its own and not wired into `Plugin.Monoranger.OnCommand`.
- The `isinstance` checks on events and commands are modelled by a command kind and three flags. The assertions on event types are not modelled.
- Plugin.Monoranger.OnCommand: when an interceptor raises, the Python exception propagates. The model returns it as a value and states only which interceptors ran.

## Findings

| source | as written | input that shows it | evidently intended | confidence | as-written member | corrected member |
|---|---|---|---|---|---|---|
| poetry_monoranger_plugin/path_dep_pinner.py:140-149 | `_pin_dependency` reads `self.plugin_conf.version_pinning_rule`, but `MonorangerConfig` (config.py:22-24) has only `version_rewrite_rule`, so the read raises `AttributeError`, which the group loop does not catch | any directory dependency whose target `pyproject.toml` exists and gives a name and version, e.g. a target with `[tool.poetry] name = "a"`, `version = "1.0.0"` | read `version_rewrite_rule`, as `path_rewriter.py:135-144` does | high; not executed | PathDepPinner.PinDependencyAsWritten | PathDepPinner.PinDependency |
