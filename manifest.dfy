/** `main` of deploy/deploy.py: the platform taken from the system name, the
    fixed list of dotfiles chosen for it, and the run that deploys them in order. */
module Manifest {
  import opened Paths
  import opened FileSystems
  import opened Deployment

  datatype Platform = OSX | Linux | FreeBSD | Cygwin

  /** The platform for the system name `uname()[0]`; None for every other name,
      where `main` prints a message and exits with status 1. */
  function Classify(system: string): (r: Option<Platform>)
    ensures r == Some(OSX) <==> system == "Darwin"
    ensures r == Some(Linux) <==> system == "Linux"
    ensures r == Some(FreeBSD) <==> system == "FreeBSD"
    ensures r == Some(Cygwin) <==> system == "CYGWIN_NT-10.0-WOW"
  {
    if system == "Darwin" then Some(OSX)
    else if system == "Linux" then Some(Linux)
    else if system == "FreeBSD" then Some(FreeBSD)
    else if system == "CYGWIN_NT-10.0-WOW" then Some(Cygwin)
    else None
  }

  /** Exactly four system names are accepted. */
  lemma ClassifyAcceptsFourNames(system: string)
    ensures Classify(system).Some? <==> system in {"Darwin", "Linux", "FreeBSD", "CYGWIN_NT-10.0-WOW"}
  {
  }

  /** The arguments of one `Dotfile(...)` call in `main`. */
  datatype Entry = Entry(name: string, src: string, dst: string, compileScript: Option<string>)

  /** The dotfiles deployed on every platform, in the order `main` deploys them. */
  function CommonEntries(): (r: seq<Entry>)
    ensures |r| == 15
    ensures forall i :: 0 <= i < |r| ==> (r[i].compileScript.Some? <==> i == 10)
  {
    [ Entry("curlrc", "curl/curlrc", ".curlrc", None),
      Entry("mostrc", "most/mostrc", ".mostrc", None),
      Entry("vimrc", "vim/vimrc", ".vimrc", None),
      Entry("screen", "screen/screenrc", ".screenrc", None),
      Entry("gitconfig", "git/gitconfig", ".gitconfig", None),
      Entry("bash_profile", "bash/bash_profile", ".bash_profile", None),
      Entry("colors", "bash/colors", ".colors", None),
      Entry("functions", "bash/functions", ".functions", None),
      Entry("bashrc", "bash/bashrc", ".bashrc", None),
      Entry("bash_aliases", "bash/bash_aliases", ".bash_aliases", None),
      Entry("ssh config", "ssh/ssh_config", ".ssh/config", Some("compile.sh")),
      Entry("ansiblerc", "bash/ansiblerc", ".ansiblerc", None),
      Entry("tmux", "tmux/tmux.conf", ".tmux.conf", None),
      Entry("tmuxp", "tmuxp/dev.yaml", ".tmuxp/dev.yaml", None),
      Entry("mc", "mc/ini", ".config/mc/ini", None) ]
  }

  /** The dotfiles deployed after the common ones, per platform. */
  function PlatformEntries(p: Platform): (r: seq<Entry>)
    ensures |r| == match p case OSX => 3 case FreeBSD => 1 case _ => 0
    ensures forall i :: 0 <= i < |r| ==> r[i].compileScript == None
  {
    match p
    case OSX =>
      [ Entry("Xmodmap", "osx/Xmodmap", ".Xmodmap", None),
        Entry("bash_mac", "bash/bash_mac", ".bash_mac", None),
        Entry("tmuxpowerline", "tmux/tmux.powerline.osx.conf", ".tmux.powerline.osx.conf", None) ]
    case FreeBSD => [Entry("xinitrc", "x/xinitrc", ".xinitrc", None)]
    case _ => []
  }

  /** Everything `main` deploys on platform `p`, in order. No two entries
      name the same destination. */
  function ManifestFor(p: Platform): (r: seq<Entry>)
    ensures forall i, j :: 0 <= i < j < |r| ==> r[i].dst != r[j].dst
  {
    CommonEntries() + PlatformEntries(p)
  }

  /** Fifteen common dotfiles come first; OSX adds three, FreeBSD one, Linux and
      Cygwin none. Only the SSH configuration has a compile script. */
  lemma ManifestShape(p: Platform)
    ensures |CommonEntries()| == 15
    ensures |ManifestFor(p)| == 15 + (match p case OSX => 3 case FreeBSD => 1 case _ => 0)
    ensures ManifestFor(p)[..15] == CommonEntries()
    ensures p == OSX ==>
      (ManifestFor(p)[15].name == "Xmodmap" && ManifestFor(p)[16].name == "bash_mac"
       && ManifestFor(p)[17].name == "tmuxpowerline")
    ensures p == FreeBSD ==> ManifestFor(p)[15].name == "xinitrc"
    ensures forall i :: 0 <= i < |ManifestFor(p)| ==>
      (ManifestFor(p)[i].compileScript.Some? <==> i == 10)
    ensures ManifestFor(p)[10].compileScript == Some("compile.sh")
    ensures forall i :: 0 <= i < |ManifestFor(p)| ==>
      (CompileScriptSet(ManifestFor(p)[i].compileScript) <==> i == 10)
  {
  }

  /** `main` after the platform check: each entry is resolved against the
      dotfiles directory and home and deployed; an exception ends the run.
      Every compile script leaves `output` at its source. */
  function DeployAll(entries: seq<Entry>, dotfilesDirectory: string, home: string,
                     output: Option<Node>, m: Entries): (r: Effect)
    decreases |entries|
  {
    if entries == [] then Effect(None, m)
    else
      var e := entries[0];
      var dst := ResolveDst(home, e.dst);
      var step := DeployStep(ResolveSrc(dotfilesDirectory, e.src), dst, Dirname(dst),
                             CompileScriptSet(e.compileScript), output, m);
      if step.outcome.Raised? then Effect(Some(step.outcome.error), step.entries)
      else DeployAll(entries[1..], dotfilesDirectory, home, output, step.entries)
  }

  /** The first deployment of a run decides whether it goes on. */
  lemma DeployAllFirst(entries: seq<Entry>, dotfilesDirectory: string, home: string,
                       output: Option<Node>, m: Entries, outcome: Outcome, after: Entries)
    requires entries != []
    requires var dst := ResolveDst(home, entries[0].dst);
      var step := DeployStep(ResolveSrc(dotfilesDirectory, entries[0].src), dst, Dirname(dst),
                             CompileScriptSet(entries[0].compileScript), output, m);
      outcome == step.outcome && after == step.entries
    ensures DeployAll(entries, dotfilesDirectory, home, output, m)
      == if outcome.Raised? then Effect(Some(outcome.error), after)
         else DeployAll(entries[1..], dotfilesDirectory, home, output, after)
  {
  }

  /** The paths the deployment of `entries` may change. */
  function TouchedByAll(entries: seq<Entry>, dotfilesDirectory: string, home: string): set<string>
    decreases |entries|
  {
    if entries == [] then {}
    else
      var dst := ResolveDst(home, entries[0].dst);
      Touched(ResolveSrc(dotfilesDirectory, entries[0].src), dst, Dirname(dst), CompileScriptSet(entries[0].compileScript))
        + TouchedByAll(entries[1..], dotfilesDirectory, home)
  }

  /** A run changes nothing outside the paths of the dotfiles it deploys. */
  lemma {:induction false} DeployAllChangesOnlyTouched(entries: seq<Entry>, dotfilesDirectory: string, home: string,
                                                         output: Option<Node>, m: Entries)
    ensures AgreeOutside(m, DeployAll(entries, dotfilesDirectory, home, output, m).entries,
                         TouchedByAll(entries, dotfilesDirectory, home))
    decreases |entries|
  {
    if entries != [] {
      var e := entries[0];
      var src := ResolveSrc(dotfilesDirectory, e.src);
      var dst := ResolveDst(home, e.dst);
      DeployChangesOnlyTouched(src, dst, Dirname(dst), CompileScriptSet(e.compileScript), output, m);
      var step := DeployStep(src, dst, Dirname(dst), CompileScriptSet(e.compileScript), output, m);
      if !step.outcome.Raised? {
        DeployAllChangesOnlyTouched(entries[1..], dotfilesDirectory, home, output, step.entries);
      }
    }
  }

  /** The exit status `main` ends with and the entries it leaves: 1 with nothing
      changed for an unsupported system, 1 after an exception, 0 otherwise. */
  function RunMain(system: string, dotfilesDirectory: string, home: string,
                   output: Option<Node>, m: Entries): (r: (int, Entries))
    ensures Classify(system).None? ==> r == (1, m)
    ensures r.0 == 0 || r.0 == 1
  {
    match Classify(system)
    case None => (1, m)
    case Some(p) =>
      var done := DeployAll(ManifestFor(p), dotfilesDirectory, home, output, m);
      (if done.error.Some? then 1 else 0, done.entries)
  }

  /** The sequence of `Dotfile(...)` and `deploy()` calls in `main`, one entry
      after another; an exception from a deployment ends it. */
  method DeployEntries(fs: FileSystem, entries: seq<Entry>, dotfilesDirectory: string, home: string,
                       output: Option<Node>) returns (err: Option<OsError>)
    modifies fs
    ensures Effect(err, fs.entries) == DeployAll(entries, dotfilesDirectory, home, output, old(fs.entries))
  {
    var i := 0;
    assert entries[0..] == entries;
    while i < |entries|
      invariant 0 <= i <= |entries|
      invariant DeployAll(entries, dotfilesDirectory, home, output, old(fs.entries))
        == DeployAll(entries[i..], dotfilesDirectory, home, output, fs.entries)
    {
      var e := entries[i];
      ghost var before := fs.entries;
      var dotfile := new Dotfile(e.name, e.src, e.dst, e.compileScript, dotfilesDirectory, home);
      var outcome := dotfile.Deploy(fs, output);
      DeployAllFirst(entries[i..], dotfilesDirectory, home, output, before, outcome, fs.entries);
      assert entries[i..][1..] == entries[i + 1..];
      if outcome.Raised? {
        return Some(outcome.error);
      }
      i := i + 1;
    }
    assert entries[i..] == [];
    return None;
  }

  /** `main`, with the system name, the dotfiles directory and home given
      instead of read from the host. */
  method Run(fs: FileSystem, system: string, dotfilesDirectory: string, home: string, output: Option<Node>)
    returns (exitStatus: int)
    modifies fs
    ensures (exitStatus, fs.entries) == RunMain(system, dotfilesDirectory, home, output, old(fs.entries))
  {
    var platform := Classify(system);
    if platform.None? {
      return 1;
    }
    var err := DeployEntries(fs, ManifestFor(platform.value), dotfilesDirectory, home, output);
    exitStatus := if err.Some? then 1 else 0;
  }
}
