/** A concrete run of `deploy` for the vimrc entry, with home at /tmp/h and the
    dotfiles at /tmp/dotfiles. */
module Scenarios {
  import opened Paths
  import opened FileSystems
  import opened Deployment

  const Source := "/tmp/dotfiles/vim/vimrc"
  const Destination := "/tmp/h/.vimrc"

  /** A host with the source checked out and home present. */
  function Host(): Entries
  {
    map["/tmp" := Dir, "/tmp/h" := Dir, "/tmp/dotfiles/vim" := Dir, Source := File]
  }

  /** The vimrc entry resolves to the source under the dotfiles directory and
      to a destination directly in home. */
  lemma {:induction false} VimrcPaths()
    ensures ResolveSrc("/tmp/dotfiles", "vim/vimrc") == Source
    ensures ResolveDst("/tmp/h", ".vimrc") == Destination
    ensures Dirname(Destination) == "/tmp/h"
  {
    if IsSubstring("/tmp/h", ".vimrc") {
      var k :| OccursAt("/tmp/h", ".vimrc", k);
    }
    DirnameOfJoin("/tmp/h", ".vimrc");
  }

  /** A link to a directory is in the way and cannot be backed up, since it does
      not resolve to a regular file: the entry is skipped and nothing changes. */
  lemma LinkToDirectoryIsSkipped(m: Entries)
    requires m == Host()[Destination := Link("/tmp")]
    ensures DeployStep(Source, Destination, "/tmp/h", false, None, m) == Step(Skipped, m, false)
  {
    VimrcPaths();
    assert Follow(m, "/tmp", MaxSymlinkHops - 1) == Some(Dir);
    DeploySkipsWhenBackupRefused(Source, Destination, m);
  }
}
