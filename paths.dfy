/** String work on paths as `Dotfile.__init__` does it: the substring test behind
    `home not in dst`, POSIX `os.path.dirname`, and the two path resolutions. */
module Paths {

  /** `sub` occurs somewhere in `s` (Python's `sub in s` on strings). */
  ghost predicate IsSubstring(sub: string, s: string)
  {
    exists k :: OccursAt(sub, s, k)
  }

  ghost predicate OccursAt(sub: string, s: string, k: int)
  {
    0 <= k <= |s| - |sub| && s[k..k + |sub|] == sub
  }

  lemma SubstringOfTail(sub: string, s: string)
    requires s != []
    ensures IsSubstring(sub, s[1..]) ==> IsSubstring(sub, s)
    ensures IsSubstring(sub, s) && (|sub| > |s| || s[..|sub|] != sub) ==> IsSubstring(sub, s[1..])
  {
    if IsSubstring(sub, s[1..]) {
      var k :| OccursAt(sub, s[1..], k);
      assert s[k + 1..k + 1 + |sub|] == s[1..][k..k + |sub|];
      assert OccursAt(sub, s, k + 1);
    }
    if IsSubstring(sub, s) && (|sub| > |s| || s[..|sub|] != sub) {
      var k :| OccursAt(sub, s, k);
      assert k != 0;
      assert s[1..][k - 1..k - 1 + |sub|] == s[k..k + |sub|];
      assert OccursAt(sub, s[1..], k - 1);
    }
  }

  /** Python's `sub in s`: a scan over every start position of `s`. */
  function Contains(s: string, sub: string): (r: bool)
    ensures r <==> IsSubstring(sub, s)
  {
    if |sub| > |s| then false
    else if s[..|sub|] == sub then (assert OccursAt(sub, s, 0); true)
    else (SubstringOfTail(sub, s); Contains(s[1..], sub))
  }

  /** Position just after the last '/' of `p`, 0 when there is none (`p.rfind('/') + 1`). */
  function SlashEnd(p: string): (i: nat)
    ensures i <= |p|
    ensures i > 0 ==> p[i - 1] == '/'
    ensures forall k :: i <= k < |p| ==> p[k] != '/'
  {
    if p == [] then 0
    else if p[|p| - 1] == '/' then |p|
    else SlashEnd(p[..|p| - 1])
  }

  predicate AllSlashes(s: string)
  {
    forall k :: 0 <= k < |s| ==> s[k] == '/'
  }

  /** `s.rstrip('/')`. */
  function StripTrailingSlashes(s: string): (r: string)
    ensures |r| <= |s| && r == s[..|r|]
    ensures r == [] || r[|r| - 1] != '/'
    ensures forall k :: |r| <= k < |s| ==> s[k] == '/'
  {
    if s != [] && s[|s| - 1] == '/' then StripTrailingSlashes(s[..|s| - 1]) else s
  }

  /** POSIX `os.path.dirname`: everything up to the last '/', with the trailing
      slashes removed unless nothing but slashes is left. */
  function Dirname(p: string): (r: string)
    ensures |r| <= |p| && r == p[..|r|]
    ensures p != [] && p[|p| - 1] != '/' ==> |r| < |p|
    ensures (forall k :: 0 <= k < |p| ==> p[k] != '/') ==> r == []
  {
    var head := p[..SlashEnd(p)];
    if head != [] && !AllSlashes(head) then StripTrailingSlashes(head) else head
  }

  /** The parent of `dir + "/" + name` is `dir` itself, for a directory written
      without a trailing slash and a name without one. */
  lemma {:induction false} DirnameOfJoin(dir: string, name: string)
    requires dir != [] && dir[|dir| - 1] != '/'
    requires forall k :: 0 <= k < |name| ==> name[k] != '/'
    ensures Dirname(dir + "/" + name) == dir
  {
    var p := dir + "/" + name;
    var i := SlashEnd(p);
    assert p[|dir|] == '/';
    assert forall k :: |dir| < k < |p| ==> p[k] == name[k - |dir| - 1];
    assert i == |dir| + 1;
    var head := p[..i];
    assert head == dir + "/";
    assert !AllSlashes(head) by {
      assert head[|dir| - 1] == dir[|dir| - 1];
    }
    var r := StripTrailingSlashes(head);
    assert r == dir by {
      assert StripTrailingSlashes(head) == StripTrailingSlashes(head[..|head| - 1]);
      assert head[..|head| - 1] == dir;
    }
  }

  /** `self.src`: the source is always placed under the dotfiles directory. */
  function ResolveSrc(dotfilesDirectory: string, src: string): (r: string)
    ensures |r| == |dotfilesDirectory| + 1 + |src|
    ensures r[..|dotfilesDirectory|] == dotfilesDirectory && r[|dotfilesDirectory|] == '/'
    ensures r[|dotfilesDirectory| + 1..] == src
  {
    dotfilesDirectory + "/" + src
  }

  /** `self.dst`: the home prefix is added only when `home` does not already
      occur anywhere in `dst`. */
  function ResolveDst(home: string, dst: string): (r: string)
    ensures IsSubstring(home, r)
    ensures IsSubstring(home, dst) ==> r == dst
    ensures !IsSubstring(home, dst) ==> |r| == |home| + 1 + |dst|
    ensures !IsSubstring(home, dst) ==> r[..|home|] == home && r[|home|] == '/' && r[|home| + 1..] == dst
  {
    if Contains(dst, home) then dst
    else
      var r := home + "/" + dst;
      assert OccursAt(home, r, 0);
      r
  }

  /** Resolving an already resolved destination changes nothing, so a manifest
      may give destinations relative to home or already under it. */
  lemma ResolveDstIdempotent(home: string, dst: string)
    ensures ResolveDst(home, ResolveDst(home, dst)) == ResolveDst(home, dst)
  {
  }

  /** The test is for a substring, not a prefix: with HOME set to "/" every
      destination that has a '/' in it (".ssh/config", say) is left relative.
      A corollary of `ResolveDst`'s contract. */
  lemma RootHomeLeavesNestedDestinationRelative(dst: string, k: int)
    requires 0 <= k < |dst| && dst[k] == '/'
    ensures ResolveDst("/", dst) == dst
  {
    assert OccursAt("/", dst, k);
  }

  /** With HOME set to "/" a destination without '/' (".vimrc", say) gets a
      doubled slash. */
  lemma RootHomeDoublesSlash(dst: string)
    requires forall k :: 0 <= k < |dst| ==> dst[k] != '/'
    ensures ResolveDst("/", dst) == "//" + dst
  {
    forall k
      ensures !OccursAt("/", dst, k)
    {
      if 0 <= k < |dst| {
        assert dst[k..k + 1][0] == dst[k];
      }
    }
  }

  /** The same test fires wherever home occurs in a destination, also in the
      middle of a relative one (home "/mc" in ".config/mc/ini", say), which is
      then not placed under home. A corollary of `ResolveDst`'s contract. */
  lemma HomeInsideRelativeDestination(home: string, dst: string, k: int)
    requires OccursAt(home, dst, k)
    ensures ResolveDst(home, dst) == dst
  {
  }
}
