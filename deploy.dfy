/** The per-dotfile deployment of deploy/deploy.py: the queries on the
    destination, `backup`, `create_parent_dir`, and the `deploy` sequence that
    ends in a symbolic link from the destination to the source. */
module Deployment {
  import opened Paths
  import opened FileSystems

  /** How one call of `deploy` ends: at the already-deployed return, at the
      skip after a failed backup, after the link was made, or with an `os` call
      raising. */
  datatype Outcome = AlreadyDeployed | Skipped | Linked | Raised(error: OsError)

  /** The outcome of a stage, the entries it leaves, and whether `backup`
      moved the old destination away during it. */
  datatype Step = Step(outcome: Outcome, entries: Entries, backedUp: bool)

  /** Where `backup` moves the destination. */
  function BackupPath(dst: string): (r: string)
    ensures r != dst && |r| > |dst| && r[..|dst|] == dst
  {
    dst + ".backup"
  }

  /** `is_broken_link`: the destination does not resolve but an entry is there. */
  predicate IsBrokenLink(m: Entries, dst: string)
    ensures IsBrokenLink(m, dst) <==> IsLink(m, dst) && !Follow(m, m[dst].target, MaxSymlinkHops - 1).Some?
  {
    !Exists(m, dst) && LExists(m, dst)
  }

  /** `is_deployed`: the destination resolves, is itself a symbolic link, and
      its link text is the source path, compared as strings. */
  predicate IsDeployed(m: Entries, src: string, dst: string)
    ensures IsDeployed(m, src, dst) <==> dst in m && m[dst] == Link(src) && Follow(m, src, MaxSymlinkHops - 1).Some?
  {
    Exists(m, dst) && IsLink(m, dst) && m[dst].target == src
  }

  /** The states `deploy` tells apart at the destination (resolving, broken
      link, nothing there) exclude each other; a broken link is always a
      symbolic link, and a deployed destination is the link to the source. */
  lemma DestinationStates(m: Entries, src: string, dst: string)
    ensures IsDeployed(m, src, dst) <==> Exists(m, dst) && m[dst] == Link(src)
    ensures IsBrokenLink(m, dst) ==> m[dst].Link? && !IsDeployed(m, src, dst)
    ensures !LExists(m, dst) ==> !Exists(m, dst) && !IsBrokenLink(m, dst)
    ensures Exists(m, dst) ==> LExists(m, dst) && !IsBrokenLink(m, dst)
  {
    ExistsClassification(m, dst);
  }

  /** What `backup` returns and the entries it leaves. */
  datatype BackupOutcome = BackupOutcome(moved: bool, entries: Entries)

  /** `backup`: refuses, changing nothing, when the backup path already resolves
      or the destination does not resolve to a regular file; otherwise moves the
      destination entry (a link to a file is moved as a link) to the backup path. */
  function BackupEffect(m: Entries, dst: string): (r: BackupOutcome)
    ensures !r.moved <==> Exists(m, BackupPath(dst)) || !IsFile(m, dst)
    ensures !r.moved ==> r.entries == m
    ensures r.moved ==> dst in m && dst !in r.entries && BackupPath(dst) in r.entries
    ensures r.moved ==> r.entries[BackupPath(dst)] == m[dst]
    ensures AgreeOutside(m, r.entries, {dst, BackupPath(dst)})
  {
    var backup := BackupPath(dst);
    if Exists(m, backup) then BackupOutcome(false, m)
    else if !IsFile(m, dst) then BackupOutcome(false, m)
    else BackupOutcome(true, Renamed(m, dst, backup))
  }

  /** `create_parent_dir`: makes the grandparent first when it does not resolve,
      then the parent; an exception from the first mkdir stops it. */
  function CreateParentDirEffect(m: Entries, parent: string): (r: Effect)
    ensures r.error.None? ==> parent in r.entries && r.entries[parent] == Dir
    ensures r.error.None? ==> !LExists(m, parent)
    ensures r.error.Some? ==> r.error.value.path in {parent, Dirname(parent)}
  {
    var grandparent := Dirname(parent);
    if !Exists(m, grandparent) then
      var first := MkdirEffect(m, grandparent);
      if first.error.Some? then first else MkdirEffect(first.entries, parent)
    else MkdirEffect(m, parent)
  }

  /** Whether `deploy` runs the compile step: Python's truth test on the script
      name, false for None and for the empty string. */
  predicate CompileScriptSet(script: Option<string>)
  {
    script.Some? && script.value != ""
  }

  /** `compile_dotfile`, taken as an opaque step: the script leaves `output` at
      the source path (None: nothing). */
  function Compiled(m: Entries, src: string, output: Option<Node>): (r: Entries)
    ensures AgreeOutside(m, r, {src})
    ensures output.Some? <==> src in r
    ensures output.Some? ==> r[src] == output.value
  {
    if output.Some? then m[src := output.value] else m - {src}
  }

  /** The part of `deploy` before the already-deployed check: the parent
      directory is created when it does not resolve, then the compile step runs. */
  function Prepared(src: string, parent: string, compiles: bool, output: Option<Node>, m: Entries): (r: Effect)
    ensures r.error.Some? ==> r.error.value.path in {parent, Dirname(parent)}
    ensures r.error.None? && !compiles ==> Exists(r.entries, parent)
  {
    var made := if Exists(m, parent) then Effect(None, m) else CreateParentDirEffect(m, parent);
    if made.error.Some? then made
    else
      assert made.error.None? ==> Exists(made.entries, parent) by {
        ExistsClassification(made.entries, parent);
      }
      Effect(None, if compiles then Compiled(made.entries, src, output) else made.entries)
  }

  /** The entries at the moment `deploy` calls `os.symlink`, or None when it
      returns before. Nothing is at the destination then, not even a dangling
      link: the backup moved it, the broken link was unlinked, or nothing was
      there. */
  function EntriesAtSymlink(m: Entries, src: string, dst: string): (r: Option<Entries>)
    ensures r.Some? ==> dst !in r.value
    ensures r.Some? && Exists(m, dst) ==> BackupPath(dst) in r.value && r.value[BackupPath(dst)] == m[dst]
    ensures r.None? <==> IsDeployed(m, src, dst) || (Exists(m, dst) && !BackupEffect(m, dst).moved)
  {
    if IsDeployed(m, src, dst) then None
    else if Exists(m, dst) then
      var b := BackupEffect(m, dst);
      if b.moved then Some(b.entries) else None
    else if IsBrokenLink(m, dst) then
      DestinationStates(m, src, dst);
      Some(Unlinked(m, dst))
    else Some(m)
  }

  /** `deploy` from the already-deployed check on. */
  function LinkStage(m: Entries, src: string, dst: string): (r: Step)
    ensures r.outcome == Linked ==> dst in r.entries && r.entries[dst] == Link(src)
    ensures r.outcome in {AlreadyDeployed, Skipped} ==> r.entries == m && !r.backedUp
    ensures r.outcome == Skipped <==> Exists(m, dst) && !IsDeployed(m, src, dst) && !BackupEffect(m, dst).moved
    ensures r.outcome != Raised(AlreadyExists(dst))
  {
    if IsDeployed(m, src, dst) then Step(AlreadyDeployed, m, false)
    else match EntriesAtSymlink(m, src, dst)
      case None => Step(Skipped, m, false)
      case Some(before) =>
        var made := SymlinkEffect(before, src, dst);
        Step(if made.error.Some? then Raised(made.error.value) else Linked, made.entries, Exists(m, dst))
  }

  /** The last step of `deploy`: the link call decides the outcome. */
  lemma LinkStageAtSymlink(m: Entries, src: string, dst: string, before: Entries, err: Option<OsError>, after: Entries)
    requires EntriesAtSymlink(m, src, dst) == Some(before)
    requires Effect(err, after) == SymlinkEffect(before, src, dst)
    ensures LinkStage(m, src, dst) == Step(if err.Some? then Raised(err.value) else Linked, after, Exists(m, dst))
  {
  }

  /** The whole of `deploy` for a dotfile whose resolved paths are `src`, `dst`
      and `parent`, that has a compile script when `compiles`. */
  function DeployStep(src: string, dst: string, parent: string, compiles: bool, output: Option<Node>, m: Entries): (r: Step)
    ensures r.outcome == Linked ==> dst in r.entries && r.entries[dst] == Link(src)
    ensures r.backedUp ==> r.outcome != AlreadyDeployed && r.outcome != Skipped
  {
    var prepared := Prepared(src, parent, compiles, output, m);
    if prepared.error.Some? then Step(Raised(prepared.error.value), prepared.entries, false)
    else LinkStage(prepared.entries, src, dst)
  }

  /** The paths one `deploy` may change: the destination, its backup, the parent
      directory and its parent, and the source when a compile script runs. */
  function Touched(src: string, dst: string, parent: string, compiles: bool): set<string>
  {
    {dst, BackupPath(dst), parent, Dirname(parent)} + (if compiles then {src} else {})
  }

  /** `create_parent_dir` only adds entries, at most the parent and its parent. */
  lemma CreateParentDirOnlyAdds(m: Entries, parent: string)
    ensures AgreeOutside(m, CreateParentDirEffect(m, parent).entries, {parent, Dirname(parent)})
    ensures forall p :: p in m ==>
      (p in CreateParentDirEffect(m, parent).entries && CreateParentDirEffect(m, parent).entries[p] == m[p])
  {
  }

  /** Before the already-deployed check only the parent directories and, when a
      compile script runs, the source may have changed. */
  lemma PreparedChangesOnly(src: string, parent: string, compiles: bool, output: Option<Node>, m: Entries)
    ensures AgreeOutside(m, Prepared(src, parent, compiles, output, m).entries,
                         {parent, Dirname(parent)} + (if compiles then {src} else {}))
  {
    CreateParentDirOnlyAdds(m, parent);
  }

  /** From the already-deployed check on, only the destination and its backup
      path may change. */
  lemma LinkStageChangesOnly(m: Entries, src: string, dst: string)
    ensures AgreeOutside(m, LinkStage(m, src, dst).entries, {dst, BackupPath(dst)})
  {
  }

  /** Every entry outside the touched paths is the same after `deploy`. */
  lemma DeployChangesOnlyTouched(src: string, dst: string, parent: string, compiles: bool, output: Option<Node>, m: Entries)
    ensures AgreeOutside(m, DeployStep(src, dst, parent, compiles, output, m).entries, Touched(src, dst, parent, compiles))
  {
    PreparedChangesOnly(src, parent, compiles, output, m);
    LinkStageChangesOnly(Prepared(src, parent, compiles, output, m).entries, src, dst);
  }

  /** A `deploy` that reaches the end leaves the destination a symbolic link
      whose text is the source path. */
  lemma DeployLinks(src: string, dst: string, parent: string, compiles: bool, output: Option<Node>, m: Entries)
    requires DeployStep(src, dst, parent, compiles, output, m).outcome == Linked
    ensures dst in DeployStep(src, dst, parent, compiles, output, m).entries
    ensures DeployStep(src, dst, parent, compiles, output, m).entries[dst] == Link(src)
  {
  }

  /** `deploy` never finds the destination taken when it creates the link: the
      only exceptions naming an existing entry come from the directories
      `create_parent_dir` makes, which are shorter paths than the destination. */
  lemma DeployNeverFindsDestinationTaken(src: string, dst: string, compiles: bool, output: Option<Node>, m: Entries)
    requires dst != [] && dst[|dst| - 1] != '/'
    ensures DeployStep(src, dst, Dirname(dst), compiles, output, m).outcome != Raised(AlreadyExists(dst))
  {
    var parent := Dirname(dst);
    assert |Dirname(parent)| <= |parent| < |dst|;
  }

  /** When `deploy` returns early (already deployed, or the destination is in
      the way and cannot be backed up) it creates no link and leaves the
      destination entry exactly as it was; only the parent directories and the
      compile step may have changed anything. */
  lemma {:induction false} DeployEarlyReturnKeepsDestination(src: string, dst: string, compiles: bool, output: Option<Node>, m: Entries)
    requires dst != [] && dst[|dst| - 1] != '/'
    requires compiles ==> src != dst
    requires DeployStep(src, dst, Dirname(dst), compiles, output, m).outcome in {AlreadyDeployed, Skipped}
    ensures var r := DeployStep(src, dst, Dirname(dst), compiles, output, m);
      && r.entries == Prepared(src, Dirname(dst), compiles, output, m).entries
      && !r.backedUp
      && dst in m && dst in r.entries && r.entries[dst] == m[dst]
  {
    var parent := Dirname(dst);
    assert |Dirname(parent)| <= |parent| < |dst|;
    var prepared := Prepared(src, parent, compiles, output, m);
    PreparedChangesOnly(src, parent, compiles, output, m);
    assert Exists(prepared.entries, dst);
    ExistsClassification(prepared.entries, dst);
  }

  /** With the parent directory in place, a `deploy` without compile script
      goes straight to the already-deployed check. */
  lemma ParentPresent(src: string, dst: string, parent: string, m: Entries)
    requires parent in m && m[parent] == Dir
    ensures DeployStep(src, dst, parent, false, None, m) == LinkStage(m, src, dst)
  {
  }

  /** Nothing at the destination: the link is made and nothing else changes. */
  lemma {:induction false} DeployOverNothing(src: string, dst: string, m: Entries)
    requires dst != [] && dst[|dst| - 1] != '/'
    requires Dirname(dst) in m && m[Dirname(dst)] == Dir
    requires dst !in m
    ensures DeployStep(src, dst, Dirname(dst), false, None, m) == Step(Linked, m[dst := Link(src)], false)
  {
    ParentPresent(src, dst, Dirname(dst), m);
    assert EntriesAtSymlink(m, src, dst) == Some(m);
    LinkStageAtSymlink(m, src, dst, m, None, m[dst := Link(src)]);
  }

  /** A regular file at the destination is moved to the backup path and the
      link takes its place. */
  lemma {:induction false} DeployOverFile(src: string, dst: string, m: Entries)
    requires dst != [] && dst[|dst| - 1] != '/'
    requires Dirname(dst) in m && m[Dirname(dst)] == Dir
    requires dst in m && m[dst] == File
    requires BackupPath(dst) !in m
    ensures DeployStep(src, dst, Dirname(dst), false, None, m)
      == Step(Linked, m[BackupPath(dst) := File][dst := Link(src)], true)
  {
    var parent := Dirname(dst);
    ParentPresent(src, dst, parent, m);
    var moved := Renamed(m, dst, BackupPath(dst));
    assert EntriesAtSymlink(m, src, dst) == Some(moved) by {
      assert IsFile(m, dst) && !Exists(m, BackupPath(dst));
    }
    assert moved[parent] == Dir;
    LinkStageAtSymlink(m, src, dst, moved, None, moved[dst := Link(src)]);
    assert moved[dst := Link(src)] == m[BackupPath(dst) := File][dst := Link(src)];
  }

  /** A dangling link at the destination is unlinked and replaced by the new
      link; nothing is backed up. */
  lemma {:induction false} DeployOverBrokenLink(src: string, dst: string, m: Entries)
    requires dst != [] && dst[|dst| - 1] != '/'
    requires Dirname(dst) in m && m[Dirname(dst)] == Dir
    requires dst in m && m[dst].Link? && !Exists(m, dst)
    ensures DeployStep(src, dst, Dirname(dst), false, None, m) == Step(Linked, m[dst := Link(src)], false)
  {
    var parent := Dirname(dst);
    ParentPresent(src, dst, parent, m);
    var unlinked := Unlinked(m, dst);
    assert EntriesAtSymlink(m, src, dst) == Some(unlinked) by {
      assert !IsDeployed(m, src, dst) && IsBrokenLink(m, dst);
    }
    assert unlinked[parent] == Dir;
    LinkStageAtSymlink(m, src, dst, unlinked, None, unlinked[dst := Link(src)]);
    assert unlinked[dst := Link(src)] == m[dst := Link(src)];
  }

  /** A destination that resolves but is not the deployed link, and cannot be
      backed up (the backup path is taken, or it is not a regular file), makes
      `deploy` skip the dotfile with nothing changed. */
  lemma {:induction false} DeploySkipsWhenBackupRefused(src: string, dst: string, m: Entries)
    requires Dirname(dst) in m && m[Dirname(dst)] == Dir
    requires Exists(m, dst) && !IsDeployed(m, src, dst)
    requires Exists(m, BackupPath(dst)) || !IsFile(m, dst)
    ensures DeployStep(src, dst, Dirname(dst), false, None, m) == Step(Skipped, m, false)
  {
    ParentPresent(src, dst, Dirname(dst), m);
  }

  /** Deploying again after a `deploy` that made the link stops at the
      already-deployed check and changes nothing beyond what the compile step
      does, provided the source still resolves with one link fewer than the
      kernel allows (the destination's own link takes one). */
  lemma {:induction false} DeployIdempotent(src: string, dst: string, compiles: bool, first: Option<Node>, second: Option<Node>, m: Entries)
    requires src != dst
    requires DeployStep(src, dst, Dirname(dst), compiles, first, m).outcome == Linked
    requires var deployed := DeployStep(src, dst, Dirname(dst), compiles, first, m).entries;
      Follow(if compiles then Compiled(deployed, src, second) else deployed, src, MaxSymlinkHops - 1).Some?
    ensures var deployed := DeployStep(src, dst, Dirname(dst), compiles, first, m).entries;
      DeployStep(src, dst, Dirname(dst), compiles, second, deployed)
        == Step(AlreadyDeployed, if compiles then Compiled(deployed, src, second) else deployed, false)
  {
    var parent := Dirname(dst);
    var prepared := Prepared(src, parent, compiles, first, m);
    var before := EntriesAtSymlink(prepared.entries, src, dst).value;
    var deployed := DeployStep(src, dst, parent, compiles, first, m).entries;
    assert deployed == before[dst := Link(src)];
    assert IsDir(before, parent);
    FollowAfterAdding(before, dst, Link(src), parent, MaxSymlinkHops);
    assert Exists(deployed, parent);
    var compiled := if compiles then Compiled(deployed, src, second) else deployed;
    assert Prepared(src, parent, compiles, second, deployed).entries == compiled;
    assert compiled[dst] == Link(src);
    assert IsDeployed(compiled, src, dst);
  }

  /** One dotfile of the manifest, with the paths `__init__` resolves. */
  class Dotfile {
    const name: string
    const src: string
    const dst: string
    const dstParentDir: string
    const compileScript: Option<string>
    /** Set by `Backup` once it has moved the destination away. */
    var backupDst: Option<string>

    /** `__init__`: the source is placed under the dotfiles directory, the
        destination under home unless home already occurs in it. */
    constructor (name: string, src: string, dst: string, compileScript: Option<string>,
                 dotfilesDirectory: string, home: string)
      ensures this.name == name && this.compileScript == compileScript
      ensures this.src == ResolveSrc(dotfilesDirectory, src)
      ensures this.dst == ResolveDst(home, dst)
      ensures dstParentDir == Dirname(this.dst)
      ensures backupDst == None
    {
      this.name := name;
      this.src := dotfilesDirectory + "/" + src;
      var resolved := dst;
      if !Contains(resolved, home) {
        resolved := home + "/" + resolved;
      }
      this.dst := resolved;
      dstParentDir := Dirname(resolved);
      this.compileScript := compileScript;
      backupDst := None;
    }

    /** `backup`. */
    method Backup(fs: FileSystem) returns (moved: bool)
      modifies fs, this`backupDst
      ensures BackupOutcome(moved, fs.entries) == BackupEffect(old(fs.entries), dst)
      ensures backupDst == if moved then Some(BackupPath(dst)) else old(backupDst)
    {
      var backup := dst + ".backup";
      if Exists(fs.entries, backup) {
        return false;
      }
      if !IsFile(fs.entries, dst) {
        return false;
      }
      fs.Rename(dst, backup);
      backupDst := Some(backup);
      return true;
    }

    /** `create_parent_dir`. */
    method CreateParentDir(fs: FileSystem) returns (err: Option<OsError>)
      modifies fs
      ensures Effect(err, fs.entries) == CreateParentDirEffect(old(fs.entries), dstParentDir)
    {
      var parentOfParent := Dirname(dstParentDir);
      if !Exists(fs.entries, parentOfParent) {
        err := fs.Mkdir(parentOfParent);
        if err.Some? {
          return;
        }
      }
      err := fs.Mkdir(dstParentDir);
    }

    /** `compile_dotfile`, as the step that leaves `output` at the source. */
    method CompileDotfile(fs: FileSystem, output: Option<Node>)
      modifies fs
      ensures fs.entries == Compiled(old(fs.entries), src, output)
    {
      if output.Some? {
        fs.entries := fs.entries[src := output.value];
      } else {
        fs.entries := fs.entries - {src};
      }
    }

    /** `deploy`. */
    method Deploy(fs: FileSystem, output: Option<Node>) returns (outcome: Outcome)
      modifies fs, this`backupDst
      ensures var r := DeployStep(src, dst, dstParentDir, CompileScriptSet(compileScript), output, old(fs.entries));
        outcome == r.outcome && fs.entries == r.entries
        && backupDst == if r.backedUp then Some(BackupPath(dst)) else old(backupDst)
    {
      ghost var r := DeployStep(src, dst, dstParentDir, CompileScriptSet(compileScript), output, fs.entries);
      ghost var prepared := Prepared(src, dstParentDir, CompileScriptSet(compileScript), output, fs.entries);
      if !Exists(fs.entries, dstParentDir) {
        var err := CreateParentDir(fs);
        if err.Some? {
          assert r == Step(Raised(err.value), fs.entries, false);
          return Raised(err.value);
        }
      }
      if CompileScriptSet(compileScript) {
        CompileDotfile(fs, output);
      }
      assert prepared == Effect(None, fs.entries);
      assert r == LinkStage(fs.entries, src, dst);
      ghost var checked := fs.entries;
      if IsDeployed(fs.entries, src, dst) {
        return AlreadyDeployed;
      }
      if Exists(fs.entries, dst) {
        var moved := Backup(fs);
        if !moved {
          return Skipped;
        }
        assert EntriesAtSymlink(checked, src, dst) == Some(fs.entries);
      } else if IsBrokenLink(fs.entries, dst) {
        DestinationStates(fs.entries, src, dst);
        fs.Unlink(dst);
        assert EntriesAtSymlink(checked, src, dst) == Some(fs.entries);
      } else {
        assert EntriesAtSymlink(checked, src, dst) == Some(fs.entries);
      }
      ghost var before := fs.entries;
      var err := fs.Symlink(src, dst);
      outcome := if err.Some? then Raised(err.value) else Linked;
      LinkStageAtSymlink(checked, src, dst, before, err, fs.entries);
      assert r == Step(outcome, fs.entries, true) || r == Step(outcome, fs.entries, false);
    }
  }
}
