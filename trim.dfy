/** Go's cutset trimming (strings.TrimLeft / strings.TrimRight) and the
    two-element case of path/filepath.Join, on strings as seq<char>. A Go
    cutset string stands for the set of the characters it contains. */
module Trim {

  /** strings.TrimLeft: every leading character that occurs in cutset is
      removed, not one fixed prefix. */
  function TrimLeft(s: string, cutset: set<char>): string
  {
    if s != [] && s[0] in cutset then TrimLeft(s[1..], cutset) else s
  }

  /** strings.TrimRight: every trailing character that occurs in cutset is
      removed, not one fixed suffix. */
  function TrimRight(s: string, cutset: set<char>): string
  {
    if s != [] && s[|s| - 1] in cutset then TrimRight(s[..|s| - 1], cutset) else s
  }

  /** TrimLeft keeps a suffix of s, drops only cutset characters, and stops
      at the first character outside the cutset. */
  lemma {:induction false} TrimLeftShape(s: string, cutset: set<char>)
    ensures var r := TrimLeft(s, cutset);
      |r| <= |s| && r == s[|s| - |r|..] &&
      (forall i :: 0 <= i < |s| - |r| ==> s[i] in cutset) &&
      (r == [] || r[0] !in cutset)
  {
    if s != [] && s[0] in cutset {
      var r := TrimLeft(s[1..], cutset);
      TrimLeftShape(s[1..], cutset);
      assert forall i :: 1 <= i < |s| - |r| ==> s[i] == s[1..][i - 1];
    }
  }

  /** TrimRight keeps a prefix of s, drops only cutset characters, and stops
      at the last character outside the cutset. */
  lemma {:induction false} TrimRightShape(s: string, cutset: set<char>)
    ensures var r := TrimRight(s, cutset);
      |r| <= |s| && r == s[..|r|] &&
      (forall i :: |r| <= i < |s| ==> s[i] in cutset) &&
      (r == [] || r[|r| - 1] !in cutset)
  {
    if s != [] && s[|s| - 1] in cutset {
      var r := TrimRight(s[..|s| - 1], cutset);
      TrimRightShape(s[..|s| - 1], cutset);
      assert forall i :: |r| <= i < |s| - 1 ==> s[i] == s[..|s| - 1][i];
    }
  }

  /** TrimLeft removes exactly the longest prefix made of cutset characters:
      any split point k with only cutset characters before it and a
      non-cutset character (or the end) at it is where TrimLeft cuts. */
  lemma TrimLeftUnique(s: string, cutset: set<char>, k: nat)
    requires k <= |s|
    requires forall i :: 0 <= i < k ==> s[i] in cutset
    requires k == |s| || s[k] !in cutset
    ensures TrimLeft(s, cutset) == s[k..]
  {
    TrimLeftShape(s, cutset);
  }

  /** TrimRight removes exactly the longest suffix made of cutset characters. */
  lemma TrimRightUnique(s: string, cutset: set<char>, k: nat)
    requires k <= |s|
    requires forall i :: k <= i < |s| ==> s[i] in cutset
    requires k == 0 || s[k - 1] !in cutset
    ensures TrimRight(s, cutset) == s[..k]
  {
    TrimRightShape(s, cutset);
  }

  /** Trimming twice removes nothing more. */
  lemma TrimLeftIdempotent(s: string, cutset: set<char>)
    ensures TrimLeft(TrimLeft(s, cutset), cutset) == TrimLeft(s, cutset)
  {
    TrimLeftShape(s, cutset);
    TrimLeftUnique(TrimLeft(s, cutset), cutset, 0);
  }

  lemma TrimRightIdempotent(s: string, cutset: set<char>)
    ensures TrimRight(TrimRight(s, cutset), cutset) == TrimRight(s, cutset)
  {
    TrimRightShape(s, cutset);
    var r := TrimRight(s, cutset);
    TrimRightUnique(r, cutset, |r|);
  }

  /** filepath.Join(dir, elem) for a clean, non-empty elem: an empty dir is
      ignored; otherwise the trailing separators of dir are collapsed into
      exactly one before elem. */
  function Join(dir: string, elem: string): string
  {
    if dir == [] then elem else TrimRight(dir, {'/'}) + "/" + elem
  }

  /** The joined path is elem below dir: with dir non-empty, it is dir with
      its trailing separators replaced by exactly one, followed by elem. */
  lemma JoinShape(dir: string, elem: string)
    ensures var p := Join(dir, elem);
      (dir == [] ==> p == elem) &&
      (dir != [] ==>
        |p| > |elem| && p[|p| - |elem|..] == elem && p[|p| - |elem| - 1] == '/' &&
        var base := p[..|p| - |elem| - 1];
        |base| <= |dir| && base == dir[..|base|] &&
        (forall i :: |base| <= i < |dir| ==> dir[i] == '/') &&
        (base == [] || base[|base| - 1] != '/'))
  {
    if dir != [] {
      var base := TrimRight(dir, {'/'});
      TrimRightShape(dir, {'/'});
      var p := base + "/" + elem;
      assert p[..|p| - |elem| - 1] == base;
      assert forall i :: |base| <= i < |dir| ==> dir[i] in {'/'};
    }
  }
}
