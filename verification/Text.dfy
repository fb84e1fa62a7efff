// Trimming text the two ways the repository does: `String.prototype.trim` in the
// web app, `strings.TrimSpace` in the bridge.
module Text {

  // ----------------------------------------------------------- in the web app

  predicate IsSpace(c: char) {
    c == ' ' || '\U{0009}' <= c <= '\U{000D}' || c == '\U{00A0}' || c == '\U{1680}' ||
    '\U{2000}' <= c <= '\U{200A}' || c == '\U{2028}' || c == '\U{2029}' || c == '\U{202F}' ||
    c == '\U{205F}' || c == '\U{3000}' || c == '\U{FEFF}'
  }

  function TrimStart(s: string): string {
    if s != "" && IsSpace(s[0]) then TrimStart(s[1..]) else s
  }

  function TrimEnd(s: string): string {
    if s != "" && IsSpace(s[|s| - 1]) then TrimEnd(s[..|s| - 1]) else s
  }

  function Trim(s: string): string {
    TrimEnd(TrimStart(s))
  }

  lemma {:induction false} TrimEndTwice(s: string)
    ensures TrimEnd(TrimEnd(s)) == TrimEnd(s)
    ensures s != "" && !IsSpace(s[0]) ==> TrimEnd(s) != "" && TrimEnd(s)[0] == s[0]
  {
    if s != "" && IsSpace(s[|s| - 1]) { TrimEndTwice(s[..|s| - 1]); }
  }

  lemma {:induction false} TrimStartStops(s: string)
    ensures TrimStart(s) == "" || !IsSpace(TrimStart(s)[0])
  {
    if s != "" && IsSpace(s[0]) { TrimStartStops(s[1..]); }
  }

  lemma TrimTwice(s: string)
    ensures Trim(Trim(s)) == Trim(s)
  {
    TrimStartStops(s);
    TrimEndTwice(TrimStart(s));
  }

  // What is left when white space is cut off at both ends.
  lemma TrimIs(left: string, core: string, right: string)
    requires forall i :: 0 <= i < |left| ==> IsSpace(left[i])
    requires forall i :: 0 <= i < |right| ==> IsSpace(right[i])
    requires core != "" && !IsSpace(core[0]) && !IsSpace(core[|core| - 1])
    ensures Trim(left + core + right) == core
  {
    hide IsSpace;
    TrimStartIs(left, core + right);
    assert left + core + right == left + (core + right);
    TrimEndIs(core, right);
  }

  lemma {:induction false} TrimStartIs(left: string, rest: string)
    requires forall i :: 0 <= i < |left| ==> IsSpace(left[i])
    requires rest != "" && !IsSpace(rest[0])
    ensures TrimStart(left + rest) == rest
  {
    hide IsSpace;
    if left == "" {
      assert left + rest == rest;
    } else {
      assert (left + rest)[1..] == left[1..] + rest;
      TrimStartIs(left[1..], rest);
    }
  }

  lemma {:induction false} TrimEndIs(rest: string, right: string)
    requires forall i :: 0 <= i < |right| ==> IsSpace(right[i])
    requires rest != "" && !IsSpace(rest[|rest| - 1])
    ensures TrimEnd(rest + right) == rest
  {
    hide IsSpace;
    if right == "" {
      assert rest + right == rest;
    } else {
      var n := |right| - 1;
      assert (rest + right)[..|rest| + n] == rest + right[..n] && (rest + right)[|rest| + n] == right[n];
      TrimEndIs(rest, right[..n]);
    }
  }

  lemma {:induction false} BlankIsTrimmedAway(s: string)
    requires forall i :: 0 <= i < |s| ==> IsSpace(s[i])
    ensures Trim(s) == ""
  {
    hide IsSpace;
    if s != "" { BlankIsTrimmedAway(s[1..]); }
  }

  // ----------------------------------------------------------- in the bridge

  predicate IsUnicodeSpace(c: char) {
    '\U{0009}' <= c <= '\U{000D}' || c == ' ' || c == '\U{0085}' || c == '\U{00A0}' || c == '\U{1680}' ||
    '\U{2000}' <= c <= '\U{200A}' || c == '\U{2028}' || c == '\U{2029}' || c == '\U{202F}' ||
    c == '\U{205F}' || c == '\U{3000}'
  }

  function TrimSpace(s: string): string {
    if s != "" && IsUnicodeSpace(s[0]) then TrimSpace(s[1..])
    else if s != "" && IsUnicodeSpace(s[|s| - 1]) then TrimSpace(s[..|s| - 1])
    else s
  }

  // The same for the bridge.
  lemma {:induction false} TrimSpaceIs(left: string, core: string, right: string)
    requires forall i :: 0 <= i < |left| ==> IsUnicodeSpace(left[i])
    requires forall i :: 0 <= i < |right| ==> IsUnicodeSpace(right[i])
    requires core != "" ==> !IsUnicodeSpace(core[0]) && !IsUnicodeSpace(core[|core| - 1])
    ensures TrimSpace(left + core + right) == core
    decreases |left| + |right|
  {
    hide IsUnicodeSpace;
    var s := left + core + right;
    if left != "" {
      assert s[0] == left[0] && s[1..] == left[1..] + core + right;
      TrimSpaceIs(left[1..], core, right);
    } else if right != "" && core != "" {
      assert s[0] == core[0] && s[|s| - 1] == right[|right| - 1];
      assert s[..|s| - 1] == left + core + right[..|right| - 1];
      TrimSpaceIs(left, core, right[..|right| - 1]);
    } else if right != "" {
      assert s == right && s[1..] == left + core + right[1..];
      TrimSpaceIs(left, core, right[1..]);
    } else {
      assert s == core;
    }
  }

  lemma {:induction false} TrimSpaceTwice(s: string)
    ensures TrimSpace(TrimSpace(s)) == TrimSpace(s)
    decreases |s|
  {
    if s != "" && IsUnicodeSpace(s[0]) {
      TrimSpaceTwice(s[1..]);
    } else if s != "" && IsUnicodeSpace(s[|s| - 1]) {
      TrimSpaceTwice(s[..|s| - 1]);
    }
  }
}
