/** Which archive entry names may be read. */
module Paths {
  function NormalizeChar(c: char): char {
    if c == '\\' then '/' else c
  }

  function Normalize(name: string): (r: string)
    ensures |r| == |name| && forall i :: 0 <= i < |name| ==> r[i] == NormalizeChar(name[i])
  {
    seq(|name|, i requires 0 <= i < |name| => NormalizeChar(name[i]))
  }

  predicate NoSlash(s: string, i: int, j: int) {
    forall n :: 0 <= i <= n < j && n < |s| ==> s[n] != '/'
  }

  /** The position of the first slash, or the length. */
  function FirstSlash(s: string): (f: nat)
    ensures f <= |s| && NoSlash(s, 0, f) && (f < |s| ==> s[f] == '/')
  {
    if s == "" || s[0] == '/' then 0
    else
      var f := FirstSlash(s[1..]);
      assert forall n :: 0 < n < f + 1 ==> s[n] == s[1..][n - 1];
      f + 1
  }

  /** split("/"). */
  function Split(s: string): (parts: seq<string>)
    ensures parts != []
  {
    var f := FirstSlash(s);
    if f == |s| then [s] else [s[..f]] + Split(s[f + 1..])
  }

  predicate UnsafePath(name: string) {
    var normalized := Normalize(name);
    (normalized != "" && normalized[0] == '/') || ".." in Split(normalized)
  }

  // ---- What splitting means ----

  predicate Boundary(s: string, i: int)
    requires 0 <= i <= |s|
  {
    i == |s| || s[i] == '/'
  }

  /** s[i..j] is a whole path component: slash-free, and bounded by slashes or the ends. */
  predicate IsComponent(s: string, i: int, j: int) {
    0 <= i <= j <= |s| && NoSlash(s, i, j) && (i == 0 || s[i - 1] == '/') && Boundary(s, j)
  }

  ghost predicate HasComponent(s: string, part: string) {
    exists i, j :: IsComponent(s, i, j) && s[i..j] == part
  }

  lemma FirstComponent(s: string, j: int)
    requires IsComponent(s, 0, j)
    ensures j == FirstSlash(s)
  {}

  /** A later component of s is a component of what follows the first slash, and conversely. */
  lemma LaterComponent(s: string, t: string, i: int, j: int, f: nat)
    requires f < |s| && s[f] == '/' && t == s[f + 1..] && 0 <= i <= j <= |t|
    ensures IsComponent(s, i + f + 1, j + f + 1) <==> IsComponent(t, i, j)
    ensures s[i + f + 1..j + f + 1] == t[i..j]
  {}

  lemma ComponentsFollowSlashes(s: string, i: int, j: int)
    requires IsComponent(s, i, j) && i > 0
    ensures FirstSlash(s) < i
  {}

  /** The parts are exactly the components. */
  lemma SplitFindsComponents(s: string, part: string)
    ensures part in Split(s) <==> HasComponent(s, part)
  {
    if part in Split(s) { PartIsComponent(s, part); }
    if HasComponent(s, part) {
      var i, j :| IsComponent(s, i, j) && s[i..j] == part;
      ComponentIsSplitOff(s, i, j, part);
    }
  }

  lemma {:induction false} PartIsComponent(s: string, part: string)
    requires part in Split(s)
    ensures HasComponent(s, part)
    decreases |s|
  {
    var f := FirstSlash(s);
    assert s[..f] == s[0..f];
    if part == s[..f] {
      assert IsComponent(s, 0, f);
    } else {
      var t := s[f + 1..];
      PartIsComponent(t, part);
      var i, j :| IsComponent(t, i, j) && t[i..j] == part;
      LaterComponent(s, t, i, j, f);
      assert IsComponent(s, i + f + 1, j + f + 1);
    }
  }

  lemma {:induction false} FirstIsSplitOff(s: string, j: int)
    requires IsComponent(s, 0, j)
    ensures s[0..j] in Split(s)
  {
    FirstComponent(s, j);
    assert s[0..j] == Split(s)[0];
  }

  lemma {:induction false} LaterIsSplitOff(s: string, f: nat, part: string)
    requires f == FirstSlash(s) && f < |s| && part in Split(s[f + 1..])
    ensures part in Split(s)
  {}

  lemma DropFirst(s: string, i: int, j: int, f: nat, part: string) returns (t: string, a: int, b: int)
    requires f == FirstSlash(s) && IsComponent(s, i, j) && i > 0 && part == s[i..j]
    ensures f < |s| && t == s[f + 1..] && IsComponent(t, a, b) && part == t[a..b]
  {
    ComponentsFollowSlashes(s, i, j);
    t, a, b := s[f + 1..], i - f - 1, j - f - 1;
    LaterComponent(s, t, a, b, f);
  }

  lemma {:induction false} ComponentIsSplitOff(s: string, i: int, j: int, part: string)
    requires IsComponent(s, i, j) && part == s[i..j]
    ensures part in Split(s)
    decreases |s|
  {
    if i == 0 {
      FirstIsSplitOff(s, j);
    } else {
      var f := FirstSlash(s);
      var t, a, b := DropFirst(s, i, j, f, part);
      ComponentIsSplitOff(t, a, b, part);
      LaterIsSplitOff(s, f, part);
    }
  }

  /** A name is safe iff it is relative and no component, under either separator, is the parent directory. */
  lemma SafePathsStayInside(name: string)
    ensures UnsafePath(name) <==>
            || (name != "" && (name[0] == '/' || name[0] == '\\'))
            || HasComponent(Normalize(name), "..")
  {
    SplitFindsComponents(Normalize(name), "..");
  }
}
