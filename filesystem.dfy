/** The part of a POSIX filesystem that the deploy script observes and changes:
    a map from path strings to entries, the `os.path` queries over it, and the
    `os` calls that change it (mkdir, rename, unlink, symlink). */
module FileSystems {
  import opened Paths

  datatype Option<T> = None | Some(value: T)

  /** What `lstat` finds at a path: a regular file, a directory, or a symbolic
      link holding its target text. */
  datatype Node = File | Dir | Link(target: string)

  type Entries = map<string, Node>

  /** How many symbolic links the kernel follows while resolving one path before
      it gives up with ELOOP (MAXSYMLINKS on Linux). */
  const MaxSymlinkHops: nat := 40

  /** The file or directory `p` leads to when at most `hops` symbolic links are
      followed; None when nothing is there, a link dangles or the chain is too long. */
  function Follow(m: Entries, p: string, hops: nat): (r: Option<Node>)
    ensures r.Some? ==> p in m && !r.value.Link?
    ensures p in m && !m[p].Link? ==> r == Some(m[p])
    decreases hops
  {
    if p !in m then None
    else match m[p]
      case Link(t) => if hops == 0 then None else Follow(m, t, hops - 1)
      case n => Some(n)
  }

  /** `os.path.exists`: the path resolves, following links. */
  predicate Exists(m: Entries, p: string)
    ensures Exists(m, p) ==> p in m
  {
    Follow(m, p, MaxSymlinkHops).Some?
  }

  /** `os.path.lexists`: there is an entry, links not followed. */
  predicate LExists(m: Entries, p: string)
    ensures Exists(m, p) ==> LExists(m, p)
  {
    p in m
  }

  /** `os.path.islink`. */
  predicate IsLink(m: Entries, p: string)
    ensures IsLink(m, p) <==> LExists(m, p) && Follow(m, p, 0).None?
  {
    p in m && m[p].Link?
  }

  /** `os.path.isfile`: the path resolves to a regular file. */
  predicate IsFile(m: Entries, p: string)
    ensures IsFile(m, p) ==> Exists(m, p) && !IsDir(m, p)
  {
    Follow(m, p, MaxSymlinkHops) == Some(File)
  }

  /** The path resolves to a directory. */
  predicate IsDir(m: Entries, p: string)
  {
    Follow(m, p, MaxSymlinkHops) == Some(Dir)
  }

  /** Whatever resolves has an entry of its own, and what has an entry but does
      not resolve can only be a symbolic link (dangling, or one of a chain too long). */
  lemma ExistsClassification(m: Entries, p: string)
    ensures Exists(m, p) ==> LExists(m, p)
    ensures LExists(m, p) && !Exists(m, p) ==> IsLink(m, p)
    ensures IsFile(m, p) || IsDir(m, p) ==> Exists(m, p)
  {
  }

  /** An entry added at a path nothing resolved through leaves every resolution
      that succeeded before unchanged. */
  lemma {:induction false} FollowAfterAdding(m: Entries, key: string, n: Node, p: string, hops: nat)
    requires key !in m
    requires Follow(m, p, hops).Some?
    ensures Follow(m[key := n], p, hops) == Follow(m, p, hops)
    decreases hops
  {
    match m[p]
    case Link(t) => FollowAfterAdding(m, key, n, t, hops - 1);
    case _ =>
  }

  /** `a` and `b` hold the same entries at every path outside `changed`. */
  ghost predicate AgreeOutside(a: Entries, b: Entries, changed: set<string>)
  {
    forall p :: p !in changed ==> (p in a <==> p in b) && (p in a ==> a[p] == b[p])
  }

  /** The errors the `os` calls below raise for reasons visible in the entries. */
  datatype OsError =
    | AlreadyExists(path: string)   // EEXIST
    | NoParentDirectory(path: string)   // ENOENT or ENOTDIR on the containing directory

  /** The entries after an `os` call, and the exception it raised if any. */
  datatype Effect = Effect(error: Option<OsError>, entries: Entries)

  /** Why creating an entry at `p` fails: something is already there, links not
      followed, or the containing directory does not resolve to a directory. */
  function CreationError(m: Entries, p: string): (r: Option<OsError>)
    ensures r.None? <==> p !in m && IsDir(m, Dirname(p))
    ensures r.Some? ==> r.value.path == p
  {
    if p in m then Some(AlreadyExists(p))
    else if !IsDir(m, Dirname(p)) then Some(NoParentDirectory(p))
    else None
  }

  /** `os.mkdir(p)`. */
  function MkdirEffect(m: Entries, p: string): (r: Effect)
    ensures r.error.None? ==> p !in m && r.entries == m[p := Dir]
    ensures r.error.Some? ==> r.entries == m
    ensures r.error.Some? <==> LExists(m, p) || !IsDir(m, Dirname(p))
    ensures r.error.Some? ==> r.error.value.path == p
  {
    var e := CreationError(m, p);
    if e.Some? then Effect(e, m) else Effect(None, m[p := Dir])
  }

  /** `os.symlink(target, p)`: the link text is stored as given. */
  function SymlinkEffect(m: Entries, target: string, p: string): (r: Effect)
    ensures r.error.None? ==> p !in m && r.entries == m[p := Link(target)]
    ensures r.error.Some? ==> r.entries == m
    ensures r.error.Some? <==> LExists(m, p) || !IsDir(m, Dirname(p))
  {
    var e := CreationError(m, p);
    if e.Some? then Effect(e, m) else Effect(None, m[p := Link(target)])
  }

  /** `os.rename(from, to)` for a non-directory `to`: the entry itself moves
      (a link is moved, not what it points to) and replaces whatever was at `to`. */
  function Renamed(m: Entries, from: string, to: string): (r: Entries)
    requires from in m && from != to
    ensures from !in r && to in r && r[to] == m[from]
    ensures AgreeOutside(m, r, {from, to})
  {
    (m - {from})[to := m[from]]
  }

  /** `os.unlink(p)` of a non-directory entry. */
  function Unlinked(m: Entries, p: string): (r: Entries)
    requires p in m && !m[p].Dir?
    ensures p !in r && AgreeOutside(m, r, {p})
  {
    m - {p}
  }

  /** The filesystem of the host, changed in place by the `os` calls. */
  class FileSystem {
    var entries: Entries

    constructor (entries: Entries)
      ensures this.entries == entries
    {
      this.entries := entries;
    }

    method Mkdir(p: string) returns (err: Option<OsError>)
      modifies this
      ensures Effect(err, entries) == MkdirEffect(old(entries), p)
    {
      err := CreationError(entries, p);
      if err.None? {
        entries := entries[p := Dir];
      }
    }

    method Symlink(target: string, p: string) returns (err: Option<OsError>)
      modifies this
      ensures Effect(err, entries) == SymlinkEffect(old(entries), target, p)
    {
      err := CreationError(entries, p);
      if err.None? {
        entries := entries[p := Link(target)];
      }
    }

    method Rename(from: string, to: string)
      requires from in entries && from != to
      modifies this
      ensures entries == Renamed(old(entries), from, to)
    {
      var n := entries[from];
      entries := (entries - {from})[to := n];
    }

    method Unlink(p: string)
      requires p in entries && !entries[p].Dir?
      modifies this
      ensures entries == Unlinked(old(entries), p)
    {
      entries := entries - {p};
    }
  }
}
