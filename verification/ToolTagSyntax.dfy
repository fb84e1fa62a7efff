// Tokens, identifiers and JSON-style quoting of the tool-tag language,
// `<t:ID>args</t>` (apps/web/lib/toolTagText.shared.ts), together with the two
// searches both parsers rest on: the first occurrence of a token, and the
// first close token outside a JSON string.
module ToolTagSyntax {
  import opened Options
  import opened Text

  const OPEN_TOKEN := "<t:"
  const CLOSE_TOKEN := "</t>"

  // ---------------------------------------------------------------- searching

  ghost predicate OccursAt(s: string, token: string, k: int) {
    0 <= k <= |s| && token <= s[k..]
  }

  function Shift(r: Option<nat>, n: nat): Option<nat> {
    match r
    case None => None
    case Some(k) => Some(k + n)
  }

  // The position `String.indexOf` finds, `None` standing for -1.
  function IndexOf(s: string, token: string): (r: Option<nat>)
    requires token != ""
    ensures r.Some? ==> r.value + |token| <= |s|
  {
    if token <= s then Some(0) else if s == "" then None else Shift(IndexOf(s[1..], token), 1)
  }

  // It is the first occurrence.
  lemma {:induction false} IndexOfIsFirst(s: string, token: string)
    requires token != ""
    ensures var r := IndexOf(s, token);
            && (r.Some? ==> OccursAt(s, token, r.value))
            && (forall k :: 0 <= k < (if r.Some? then r.value else |s| + 1) ==> !OccursAt(s, token, k))
  {
    if !(token <= s) && s != "" {
      IndexOfIsFirst(s[1..], token);
      assert forall k :: 0 < k <= |s| ==> s[k..] == s[1..][k - 1..];
      assert forall k :: 0 < k ==> (OccursAt(s, token, k) <==> OccursAt(s[1..], token, k - 1));
    }
  }

  // And nothing else is: the two properties determine it.
  lemma IndexOfIs(s: string, token: string, i: nat)
    requires token != "" && OccursAt(s, token, i)
    requires forall k :: 0 <= k < i ==> !OccursAt(s, token, k)
    ensures IndexOf(s, token) == Some(i)
  {
    IndexOfIsFirst(s, token);
  }

  // A text is what precedes an occurrence, the token, and what follows it.
  lemma SplitAtToken(s: string, token: string, i: nat)
    requires OccursAt(s, token, i)
    ensures i + |token| <= |s| && s == s[..i] + token + s[i + |token|..]
  {
    assert s == s[..i] + s[i..] && s[i..] == token + s[i..][|token|..];
    assert s[i..][|token|..] == s[i + |token|..];
  }

  // A prefix without occurrences can be cut off.
  lemma {:induction false} IndexOfSkip(s: string, token: string, n: nat)
    requires token != "" && n <= |s|
    requires forall k :: 0 <= k < n ==> !OccursAt(s, token, k)
    ensures IndexOf(s, token) == Shift(IndexOf(s[n..], token), n)
  {
    if n == 0 {
      assert s[0..] == s;
    } else {
      assert s[0..] == s && !OccursAt(s, token, 0);
      forall k | 0 <= k < n - 1 ensures !OccursAt(s[1..], token, k) {
        assert s[1..][k..] == s[k + 1..] && !OccursAt(s, token, k + 1);
      }
      IndexOfSkip(s[1..], token, n - 1);
      assert s[1..][n - 1..] == s[n..];
    }
  }

  // Cutting the text before its first occurrence leaves none.
  lemma NoOccurrenceBefore(s: string, token: string)
    requires token != ""
    ensures var r := IndexOf(s, token);
            r.Some? ==> IndexOf(s[..r.value], token).None?
  {
    IndexOfIsFirst(s, token);
    match IndexOf(s, token) {
      case None =>
      case Some(i) =>
        IndexOfIsFirst(s[..i], token);
        forall k | 0 <= k && OccursAt(s[..i], token, k) ensures OccursAt(s, token, k) && k < i {
          assert s[..i][k..] <= s[k..];
        }
    }
  }

  lemma IndexOfChar(s: string, c: char)
    ensures match IndexOf(s, [c]) case None => c !in s case Some(i) => s[i] == c && c !in s[..i]
  {
    IndexOfIsFirst(s, [c]);
    assert forall k :: 0 <= k < |s| ==> (OccursAt(s, [c], k) <==> s[k] == c) by {
      assert forall k :: 0 <= k < |s| ==> s[k..][0] == s[k];
    }
  }

  // -------------------------------------------------------------- identifiers

  predicate AllDigits(s: string) {
    forall i :: 0 <= i < |s| ==> '0' <= s[i] <= '9'
  }

  function ParseDecimal(s: string): nat
    requires AllDigits(s)
  {
    if s == "" then 0
    else 10 * ParseDecimal(s[..|s| - 1]) + (s[|s| - 1] as int - '0' as int)
  }

  predicate IsValidToolTagID(value: string) {
    value != "" && AllDigits(value) && ParseDecimal(value) > 0
  }

  lemma {:induction false} ParseDecimalPositive(s: string)
    requires AllDigits(s)
    ensures ParseDecimal(s) > 0 <==> exists i :: 0 <= i < |s| && s[i] != '0'
  {
    if s != "" {
      var front := s[..|s| - 1];
      ParseDecimalPositive(front);
      if exists i :: 0 <= i < |s| && s[i] != '0' {
        var i :| 0 <= i < |s| && s[i] != '0';
        if i < |front| { assert front[i] != '0'; }
      }
      if exists i :: 0 <= i < |front| && front[i] != '0' {
        var i :| 0 <= i < |front| && front[i] != '0';
        assert s[i] != '0';
      }
    }
  }

  // The identifiers that open a call are the digit strings that are not all
  // zeros, and such a string is its own trimmed form.
  lemma ValidIDs(value: string)
    ensures IsValidToolTagID(value) <==>
              AllDigits(value) && exists i :: 0 <= i < |value| && value[i] != '0'
    ensures IsValidToolTagID(value) ==> Trim(value) == value && '>' !in value
  {
    if AllDigits(value) {
      ParseDecimalPositive(value);
      if value != "" { assert '0' <= value[0] <= '9' && '0' <= value[|value| - 1] <= '9'; }
    }
  }

  // ------------------------------------------------------------------ quoting

  datatype Quote = Outside | Inside | Escaped

  function NextQuote(q: Quote, c: char): Quote {
    match q
    case Outside => if c == '"' then Inside else Outside
    case Inside => if c == '\\' then Escaped else if c == '"' then Outside else Inside
    case Escaped => Inside
  }

  function Scan(q: Quote, s: string): Quote
    decreases |s|
  {
    if s == "" then q else Scan(NextQuote(q, s[0]), s[1..])
  }

  lemma {:induction false} ScanConcat(q: Quote, a: string, b: string)
    ensures Scan(q, a + b) == Scan(Scan(q, a), b)
    decreases |a|
  {
    if a == "" {
      assert a + b == b;
    } else {
      assert (a + b)[1..] == a[1..] + b;
      ScanConcat(NextQuote(q, a[0]), a[1..], b);
    }
  }

  // A close token starts at `k`, outside every JSON string.
  ghost predicate ClosesAt(q: Quote, s: string, k: int) {
    0 <= k <= |s| && Scan(q, s[..k]) == Outside && CLOSE_TOKEN <= s[k..]
  }

  function FindClose(q: Quote, s: string): (r: Option<nat>)
    ensures r.Some? ==> r.value + |CLOSE_TOKEN| <= |s|
    decreases |s|
  {
    if q == Outside && CLOSE_TOKEN <= s then Some(0)
    else if s == "" then None
    else Shift(FindClose(NextQuote(q, s[0]), s[1..]), 1)
  }

  // It is the first close token outside a string.
  lemma {:induction false} FindCloseIsFirst(q: Quote, s: string)
    ensures var r := FindClose(q, s);
            && (r.Some? ==> ClosesAt(q, s, r.value))
            && (forall k :: 0 <= k < (if r.Some? then r.value else |s| + 1) ==> !ClosesAt(q, s, k))
    decreases |s|
  {
    if !(q == Outside && CLOSE_TOKEN <= s) && s != "" {
      var q', t := NextQuote(q, s[0]), s[1..];
      FindCloseIsFirst(q', t);
      forall k | 0 < k <= |s| ensures ClosesAt(q, s, k) <==> ClosesAt(q', t, k - 1) {
        assert s[k..] == t[k - 1..] && s[..k][1..] == t[..k - 1];
      }
    }
    assert s[0..] == s && s[..0] == "";
  }

  // Cutting the text before it leaves none.
  lemma NoCloseBefore(q: Quote, s: string)
    ensures match FindClose(q, s)
            case None => true
            case Some(k) => FindClose(q, s[..k]).None? && Scan(q, s[..k]) == Outside
  {
    FindCloseIsFirst(q, s);
    match FindClose(q, s) {
      case None =>
      case Some(k) =>
        FindCloseIsFirst(q, s[..k]);
        forall i | 0 <= i && ClosesAt(q, s[..k], i) ensures ClosesAt(q, s, i) && i < k {
          assert s[..k][..i] == s[..i] && s[..k][i..] <= s[i..];
        }
    }
  }

  // One character that does not start a close token can be stepped over.
  lemma FindCloseStep(q: Quote, s: string)
    requires s != "" && !(q == Outside && CLOSE_TOKEN <= s)
    ensures FindClose(q, s) == Shift(FindClose(NextQuote(q, s[0]), s[1..]), 1)
  {
  }

  // ------------------------------------------- neither token overlaps itself

  lemma OpenTokenStaysWhole(t: string, rest: string, k: nat)
    requires k < |t| && OPEN_TOKEN <= rest && OccursAt(t + rest, OPEN_TOKEN, k)
    ensures OccursAt(t, OPEN_TOKEN, k)
  {
    var s := t + rest;
    assert s[k..][0] == s[k] && s[k..][1] == s[k + 1] && s[k..][2] == s[k + 2];
    assert s[|t|] == rest[0] == '<';
    assert t[k..][..3] == s[k..][..3];
  }

  lemma OpenTokenDoesNotOverlap(t: string, rest: string)
    requires IndexOf(t, OPEN_TOKEN).None?
    requires rest == "" || OPEN_TOKEN <= rest
    ensures IndexOf(t + rest, OPEN_TOKEN) == if rest == "" then None else Some(|t|)
  {
    if rest == "" {
      assert t + rest == t;
    } else {
      IndexOfIsFirst(t, OPEN_TOKEN);
      forall k | 0 <= k < |t| && OccursAt(t + rest, OPEN_TOKEN, k) ensures OccursAt(t, OPEN_TOKEN, k) {
        OpenTokenStaysWhole(t, rest, k);
      }
      assert (t + rest)[|t|..] == rest;
      IndexOfIs(t + rest, OPEN_TOKEN, |t|);
    }
  }

  lemma CloseTokenStaysWhole(args: string, rest: string)
    requires args != "" && CLOSE_TOKEN <= args + CLOSE_TOKEN + rest
    ensures CLOSE_TOKEN <= args
  {
    var s := args + CLOSE_TOKEN + rest;
    assert s[|args|] == '<' && s[1] == '/' && s[2] == 't' && s[3] == '>';
    assert s[..4] == args[..4];
  }

  lemma {:induction false} CloseTokenDoesNotOverlap(q: Quote, args: string, rest: string)
    requires FindClose(q, args).None? && Scan(q, args) == Outside
    ensures FindClose(q, args + CLOSE_TOKEN + rest) == Some(|args|)
    decreases |args|
  {
    var s := args + CLOSE_TOKEN + rest;
    if args == "" {
      assert s == CLOSE_TOKEN + rest;
    } else {
      if CLOSE_TOKEN <= s { CloseTokenStaysWhole(args, rest); }
      FindCloseStep(q, args);
      assert s[1..] == args[1..] + CLOSE_TOKEN + rest;
      CloseTokenDoesNotOverlap(NextQuote(q, args[0]), args[1..], rest);
      FindCloseStep(q, s);
    }
  }
}
