# Dotfiles deployment, modelled in Dafny

This project models `deploy/deploy.py`, the script that installs a set of dotfiles into a home directory by making symbolic links to the files in the dotfiles checkout. The model covers:

- how `Dotfile.__init__` resolves the source, the destination and the destination's parent directory;
- the queries `is_broken_link`, `exists`, `is_deployed` and `parent_dir_exists`;
- `backup`, `create_parent_dir` and `deploy`;
- `main`: mapping the system name to a platform, and the fixed list of dotfiles deployed for each platform, in order.

The host filesystem is a map from path strings to entries: a regular file, a directory, or a symbolic link holding its target text (`FileSystems`). The `os.path` queries the script uses are predicates over this map. `exists` and `isfile` follow links, with the Linux limit of 40 links per resolution (see "Left out" for the other platforms). `lexists` and `islink` do not follow links.

The `os` calls that change the filesystem (`mkdir`, `rename`, `unlink`, `symlink`) appear twice:

- as functions over the map. `mkdir` and `symlink` give the new map and the exception raised when the map shows one is due: the entry already exists, or the containing directory does not resolve to a directory. `rename` and `unlink` have no error result. Their failing cases are excluded by preconditions: a missing source for `rename`, a directory for `unlink`. The call sites guarantee both. `backup` only renames a destination that resolves to a regular file (deploy/deploy.py:98-104). `deploy` only unlinks a broken link, which is an entry that is a symbolic link (deploy/deploy.py:144-146);
- as methods of a `FileSystem` class that update the map in place.

`Dotfile` is a class. Its methods `Backup`, `CreateParentDir` and `Deploy` follow the source statement by statement. `CompileDotfile` stands in for `compile_dotfile` as an opaque step (see "Left out"). Each method is proved equal to a specification function (`BackupEffect`, `CreateParentDirEffect`, `Compiled`, `DeployStep`). `deploy` runs the compile step under Python's truth test on the script name, so neither None nor the empty string compiles. The lemmas state what `deploy` promises in terms of those functions:

- which paths it may touch;
- that the link it makes points at the source;
- what happens to a file, a dangling link or a foreign link already at the destination;
- that a second run finds the dotfile deployed.

`main` becomes `Manifest.Run`. It calls `DeployEntries`, a loop over the manifest that makes a `Dotfile` for each entry and deploys it. The loop is proved against `DeployAll`, and `Run` against `RunMain`.

The destination is resolved with a substring test on home, not a prefix test. The model keeps that test as written and proves its consequences:

- a destination that already contains home is used unchanged, and resolving twice changes nothing;
- with `HOME=/`, every destination containing a '/' (such as `.ssh/config`) stays relative;
- with `HOME=/`, every destination without a '/' gets a doubled slash: `.vimrc` becomes `//.vimrc`;
- a home occurring after the start of a relative destination (`/mc` in `.config/mc/ini`) also leaves it relative.

## Model

| member | source | states |
|---|---|---|
| Paths.Contains | deploy/deploy.py:22 | Python's `home in dst` on strings: true exactly when `home` occurs at some position of `dst` |
| Paths.Dirname | deploy/deploy.py:25 | `os.path.dirname`: a prefix of the path; strictly shorter when the path does not end in '/'; empty when the path has no '/' |
| Paths.DirnameOfJoin | deploy/deploy.py:24-25 | the parent of `home + "/" + name` is `home`, for a home without a trailing '/' and a name without '/' |
| Paths.ResolveSrc | deploy/deploy.py:20 | the source is the dotfiles directory, a '/', then the source as given |
| Paths.ResolveDst | deploy/deploy.py:22-24 | home occurs in the resolved destination; the destination is kept unchanged when home occurs in it, and otherwise becomes home, '/', then the destination |
| Paths.ResolveDstIdempotent | deploy/deploy.py:21-24 | resolving an already resolved destination changes nothing, so relative and home-absolute destinations are both handled |
| Paths.RootHomeLeavesNestedDestinationRelative | deploy/deploy.py:22-24 | with home "/", every destination with a '/' at some position is left relative |
| Paths.RootHomeDoublesSlash | deploy/deploy.py:22-24 | with home "/", every destination without '/' resolves to "//" followed by the destination |
| Paths.HomeInsideRelativeDestination | deploy/deploy.py:22-24 | for every home and destination, a home occurring at any position of the destination, the middle included, suppresses the prefix, so the destination stays as given |
| FileSystems.Exists | deploy/deploy.py:61-62 | `os.path.exists` (also behind `exists` at 66-71 and `parent_dir_exists` at 108-111): what resolves has an entry; see also `ExistsClassification` |
| FileSystems.LExists | deploy/deploy.py:62 | `os.path.lexists`: whatever `exists` reports is also there without following links |
| FileSystems.IsLink | deploy/deploy.py:76 | `os.path.islink`: exactly an entry that does not resolve without following a link |
| FileSystems.IsFile | deploy/deploy.py:98 | `os.path.isfile`: a regular file exists and is not a directory |
| FileSystems.Follow | deploy/deploy.py:61 | resolution through links succeeds only at an existing non-link entry, and a non-link entry resolves to itself |
| FileSystems.ExistsClassification | deploy/deploy.py:55-64 | what `exists` reports has an entry; an entry that does not resolve is a link; a file or directory exists |
| FileSystems.FollowAfterAdding | deploy/deploy.py:149 | adding an entry at a new path leaves every successful resolution unchanged |
| FileSystems.CreationError | deploy/deploy.py:117-118 | creating an entry fails exactly when the path is taken or its containing directory does not resolve to a directory, and the error names that path |
| FileSystems.MkdirEffect | deploy/deploy.py:117-118 | `os.mkdir` adds a directory at a free path under an existing directory; otherwise it raises and changes nothing |
| FileSystems.SymlinkEffect | deploy/deploy.py:149 | `os.symlink` adds a link holding the source text at a free path under an existing directory; otherwise it raises and changes nothing |
| FileSystems.Renamed | deploy/deploy.py:104 | `os.rename` moves the entry itself to the new path and changes no other path |
| FileSystems.Unlinked | deploy/deploy.py:146 | `os.unlink` removes exactly that entry |
| FileSystems.FileSystem.Mkdir | deploy/deploy.py:117-118 | the in-place `mkdir` has the effect and error of `MkdirEffect` |
| FileSystems.FileSystem.Symlink | deploy/deploy.py:149 | the in-place `symlink` has the effect and error of `SymlinkEffect` |
| FileSystems.FileSystem.Rename | deploy/deploy.py:104 | the in-place `rename` leaves the entries `Renamed` gives |
| FileSystems.FileSystem.Unlink | deploy/deploy.py:146 | the in-place `unlink` leaves the entries `Unlinked` gives |
| Deployment.BackupPath | deploy/deploy.py:93 | the backup path extends the destination, so it is never the destination itself |
| Deployment.IsBrokenLink | deploy/deploy.py:55-64 | `is_broken_link` holds exactly for a link whose target does not resolve within the remaining 39 links; see also `DestinationStates` |
| Deployment.IsDeployed | deploy/deploy.py:73-89 | `is_deployed` holds exactly when the destination is a link whose text is the source and the source resolves within the remaining 39 links; see also `DestinationStates` |
| Deployment.CompileScriptSet | deploy/deploy.py:123 | Python's truth test on the script name: None and the empty string do not compile; `ManifestShape` shows only the SSH config entry passes it |
| Deployment.DeployStep | deploy/deploy.py:120-149 | `deploy` as a function of the entries: a completed run leaves the link to the source, and a backup is only made on a path that goes on to the link call; `Dotfile.Deploy` is proved equal to it; `DeployLinks`, `DeployChangesOnlyTouched`, `DeployIdempotent` and the `DeployOver*` lemmas state the rest |
| Deployment.DestinationStates | deploy/deploy.py:55-89 | `is_deployed` holds exactly when the destination resolves and is a link whose text is the source; a broken link is a link and never deployed; nothing at the destination means neither exists nor broken; a resolving destination has an entry and is not a broken link |
| Deployment.BackupEffect | deploy/deploy.py:91-106 | `backup` refuses exactly when the backup path exists or the destination is not a regular file, and then changes nothing; otherwise it moves the destination entry to the backup path; only those two paths change |
| Deployment.CreateParentDirEffect | deploy/deploy.py:113-118 | on success the parent is a new directory; an error names the parent or its parent |
| Deployment.Compiled | deploy/deploy.py:123-124 | the compile step changes only the source path, leaving its output there |
| Deployment.Prepared | deploy/deploy.py:121-124 | before the deployed check, errors come only from the two directory creations, and without a compile step the parent then exists |
| Deployment.EntriesAtSymlink | deploy/deploy.py:126-146 | when `os.symlink` is reached nothing is at the destination, and a destination that existed is kept at the backup path; the call is not reached exactly when the dotfile is deployed or the backup is refused |
| Deployment.LinkStage | deploy/deploy.py:126-149 | a made link holds the source; the deployed and skip returns change nothing and back up nothing; skip happens exactly when the destination exists, is not deployed, and cannot be backed up; the symlink never finds the destination taken |
| Deployment.CreateParentDirOnlyAdds | deploy/deploy.py:113-118 | `create_parent_dir` changes no path other than the parent and its parent, and keeps every existing entry |
| Deployment.PreparedChangesOnly | deploy/deploy.py:121-124 | before the deployed check, only the parent, its parent and, when compiling, the source change |
| Deployment.LinkStageChangesOnly | deploy/deploy.py:126-149 | from the deployed check on, only the destination and its backup path change |
| Deployment.DeployChangesOnlyTouched | deploy/deploy.py:120-149 | `deploy` changes nothing outside the destination, the backup, the parent, its parent and the compiled source |
| Deployment.DeployLinks | deploy/deploy.py:149 | a deployment that completes leaves the destination a link to the source |
| Deployment.DeployNeverFindsDestinationTaken | deploy/deploy.py:117-149 | no deployment raises "already exists" for the destination itself |
| Deployment.DeployEarlyReturnKeepsDestination | deploy/deploy.py:126-141 | after an early return the destination entry is exactly as before, no backup is made, and only the preparation changed anything |
| Deployment.ParentPresent | deploy/deploy.py:121-126 | with the parent present and no compile script, `deploy` starts at the deployed check |
| Deployment.DeployOverNothing | deploy/deploy.py:143-149 | with nothing at the destination, the link is added and nothing else changes |
| Deployment.DeployOverFile | deploy/deploy.py:131-133 | a regular file at the destination moves to the backup path and the link takes its place |
| Deployment.DeployOverBrokenLink | deploy/deploy.py:143-149 | a dangling link at the destination is replaced by the new link, with no backup |
| Deployment.DeploySkipsWhenBackupRefused | deploy/deploy.py:131-141 | a foreign destination that cannot be backed up is skipped with nothing changed |
| Deployment.DeployIdempotent | deploy/deploy.py:120-128 | deploying again after a successful deploy stops at the deployed check, changing nothing beyond the compile step |
| Deployment.Dotfile.constructor | deploy/deploy.py:10-27 | the fields hold the resolved source, the resolved destination and its dirname |
| Deployment.Dotfile.Backup | deploy/deploy.py:91-106 | the in-place `backup` returns and leaves what `BackupEffect` gives, and records the backup path when it moves |
| Deployment.Dotfile.CreateParentDir | deploy/deploy.py:113-118 | the in-place `create_parent_dir` has the effect of `CreateParentDirEffect` |
| Deployment.Dotfile.CompileDotfile | deploy/deploy.py:32-47 | the compile step leaves the entries `Compiled` gives |
| Deployment.Dotfile.Deploy | deploy/deploy.py:120-149 | the in-place `deploy` ends with the outcome and entries of `DeployStep`, and records a backup exactly when one was made |
| Manifest.Classify | deploy/deploy.py:153-164 | each of the four system names maps to its platform, and only that name does |
| Manifest.ClassifyAcceptsFourNames | deploy/deploy.py:153-164 | a platform is found exactly for Darwin, Linux, FreeBSD and CYGWIN_NT-10.0-WOW |
| Manifest.CommonEntries | deploy/deploy.py:166-202 | the fifteen entries every platform deploys, only the eleventh (the SSH config) with a compile script |
| Manifest.PlatformEntries | deploy/deploy.py:203-218 | three extra entries on OSX, one on FreeBSD, none elsewhere, none with a compile script |
| Manifest.ManifestFor | deploy/deploy.py:166-218 | the entries of one platform, in order; no two name the same destination; `ManifestShape` states the layout |
| Manifest.DeployAll | deploy/deploy.py:166-218 | the run of `deploy` over the entries in order, ending with the first exception; `DeployEntries` is proved equal to it and `DeployAllChangesOnlyTouched` frames it |
| Manifest.ManifestShape | deploy/deploy.py:166-218 | 15 common dotfiles come first; OSX adds Xmodmap, bash_mac and tmuxpowerline; FreeBSD adds xinitrc; Linux and Cygwin add none; only the SSH config has a compile script, and it is the only one that passes the truth test |
| Manifest.DeployAllChangesOnlyTouched | deploy/deploy.py:166-218 | a run changes nothing outside the paths of the dotfiles it deploys |
| Manifest.RunMain | deploy/deploy.py:152-218 | an unsupported system exits with 1 and nothing changed; every exit status is 0 or 1 |
| Manifest.DeployEntries | deploy/deploy.py:166-218 | the in-place deployment of the entries, one after another, has the effect of `DeployAll` |
| Manifest.Run | deploy/deploy.py:152-218 | `main` ends with the exit status and the entries of `RunMain` |
| Scenarios.VimrcPaths | deploy/deploy.py:170 | the vimrc entry resolves to `/tmp/dotfiles/vim/vimrc` and `/tmp/h/.vimrc`, with parent `/tmp/h` |
| Scenarios.LinkToDirectoryIsSkipped | deploy/deploy.py:98-101 | a link to a directory at the destination is not a regular file, so the vimrc entry is skipped and nothing changes |

## Left out

- Output: the debug and status messages are not modelled. The platform check's message is one of them.
- The exception from `main` is reduced to exit status 1. An uncaught Python exception exits with status 1.
- `compile_dotfile` is an opaque step: a parameter gives what the script leaves at the source path. The working-directory changes, the check that the script exists, and `os.system` are not modelled. All entries of one run share the same output; only the SSH config entry compiles.
- Inputs taken from the host are parameters:
  - the dotfiles directory, derived from `os.path.realpath(__file__)`;
  - `HOME`;
  - the system name from `uname()`.
- An unset `HOME`, which makes `home not in dst` raise a `TypeError`, is not modelled.
- Errors that the entry map cannot show are not modelled: permissions, read-only filesystems, races with other processes.
- Paths are plain strings, with no normalisation:
  - relative link targets are not resolved against the link's directory;
  - a symbolic link in an intermediate directory of a path is not followed;
  - only a link at the path itself is followed.
- In the model a doubled slash is not the root: `//` and `/` are different keys. With `HOME=/` the destination `//.vimrc` has parent `//`, which does not resolve, so the model raises at `create_parent_dir` where the program, for which `//` is the root, links `/.vimrc`.
- `os.rename` onto an existing directory is not modelled. `backup` only reaches `rename` when the backup path does not resolve.
- `__repr__` and `__str__` are not modelled; they only format the name.
- Each entry of `main` gets a fresh Dotfile object, so nothing is carried between entries except the filesystem. The `backup_dst` each one records is dropped with it.
- Deployment.DeployIdempotent: the lemma needs the source to resolve within 39 links. The destination's own link uses the fortieth.
- `compile_dotfile` first changes into the directory of the source (deploy/deploy.py:38). That `os.chdir` raises OSError when the directory does not resolve to a directory, and `main` then exits with status 1. The map could show this case, but the model's compile step never raises. An error from `Prepared` names only the parent directories.
- `compile_dotfile` also checks whether the script exists, relative to that directory, and prints a warning when it does not. Neither the check nor the warning is modelled.
- Symbolic links are followed up to 40 times, the Linux MAXSYMLINKS. macOS and FreeBSD, two of the platforms `main` accepts, stop at 32. A chain of 33 to 40 links resolves in the model but fails with ELOOP on those systems.
