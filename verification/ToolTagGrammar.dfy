// The reference grammar of tool-tag texts. A document is a list of segments;
// well-formedness is a local condition on the segments, and every text is the
// rendering of exactly one well-formed document.
module ToolTagGrammar {
  import opened Options
  import opened Text
  import opened ToolTagSyntax

  datatype Segment =
    | Plain(text: string)                                   // text without an open token
    | Rejected(body: string)                                // `<t:` body `>` whose body is no identifier
    | Call(rawID: string, args: string, closed: bool)       // `<t:` rawID `>` args, and `</t>` if closed
    | Dangling(body: string)                                // `<t:` body, and the text ends

  datatype ParsedCall = ParsedCall(toolId: string, argsText: string)

  // What a reader of the text sees, in order.
  datatype Item = Shown(c: char) | Invoked(call: ParsedCall)

  // ---------------------------------------------------------------- documents

  predicate Terminal(seg: Segment) {
    seg.Dangling? || (seg.Call? && !seg.closed)
  }

  predicate WellFormedSegment(seg: Segment) {
    match seg
    case Plain(text) => text != "" && IndexOf(text, OPEN_TOKEN).None?
    case Rejected(body) => '>' !in body && !IsValidToolTagID(Trim(body))
    case Call(rawID, args, closed) =>
      '>' !in rawID && IsValidToolTagID(Trim(rawID)) && FindClose(Outside, args).None? &&
      (closed ==> Scan(Outside, args) == Outside)
    case Dangling(body) => '>' !in body
  }

  predicate WellFormed(doc: seq<Segment>) {
    doc == [] ||
    ( WellFormedSegment(doc[0]) &&
      (Terminal(doc[0]) ==> |doc| == 1) &&
      (doc[0].Plain? && |doc| > 1 ==> !doc[1].Plain?) &&
      WellFormed(doc[1..]))
  }

  function RenderSegment(seg: Segment): string {
    match seg
    case Plain(text) => text
    case Rejected(body) => OPEN_TOKEN + body + ">"
    case Call(rawID, args, closed) => OPEN_TOKEN + rawID + ">" + args + (if closed then CLOSE_TOKEN else "")
    case Dangling(body) => OPEN_TOKEN + body
  }

  function Render(doc: seq<Segment>): string {
    if doc == [] then "" else RenderSegment(doc[0]) + Render(doc[1..])
  }

  // --------------------------------------------------------------- the reader

  function PlainSegment(text: string): seq<Segment> {
    if text == "" then [] else [Plain(text)]
  }

  function Segments(s: string): seq<Segment>
    decreases |s|
  {
    match IndexOf(s, OPEN_TOKEN)
    case None => PlainSegment(s)
    case Some(i) => PlainSegment(s[..i]) + TagSegments(s[i + 3..])
  }

  // The segments of `<t:` + body.
  function TagSegments(body: string): (doc: seq<Segment>)
    ensures doc != [] && !doc[0].Plain?
    decreases |body|
  {
    match IndexOf(body, ">")
    case None => [Dangling(body)]
    case Some(j) =>
      if !IsValidToolTagID(Trim(body[..j])) then
        [Rejected(body[..j])] + Segments(body[j + 1..])
      else
        CallSegments(body[..j], body[j + 1..])
  }

  // The segments of `<t:` + rawID + `>` + tail, for a valid identifier.
  function CallSegments(rawID: string, tail: string): (doc: seq<Segment>)
    ensures doc != [] && doc[0].Call?
    decreases |tail|
  {
    match FindClose(Outside, tail)
    case None => [Call(rawID, tail, false)]
    case Some(k) => [Call(rawID, tail[..k], true)] + Segments(tail[k + 4..])
  }

  // ------------------------------------------------------------------ meaning

  function Chars(t: string): seq<Item> {
    seq(|t|, i requires 0 <= i < |t| => Shown(t[i]))
  }

  lemma CharsConcat(a: string, b: string)
    ensures Chars(a + b) == Chars(a) + Chars(b)
  {
  }

  function SegmentMeaning(seg: Segment): seq<Item> {
    match seg
    case Call(rawID, args, _) => [Invoked(ParsedCall(Trim(rawID), args))]
    case _ => Chars(RenderSegment(seg))
  }

  function Meaning(doc: seq<Segment>): seq<Item> {
    if doc == [] then [] else SegmentMeaning(doc[0]) + Meaning(doc[1..])
  }

  function VisibleText(items: seq<Item>): string {
    if items == [] then ""
    else (if items[0].Shown? then [items[0].c] else "") + VisibleText(items[1..])
  }

  function CallsOf(items: seq<Item>): seq<ParsedCall> {
    if items == [] then []
    else (if items[0].Invoked? then [items[0].call] else []) + CallsOf(items[1..])
  }

  lemma {:induction false} VisibleTextConcat(a: seq<Item>, b: seq<Item>)
    ensures VisibleText(a + b) == VisibleText(a) + VisibleText(b)
  {
    if a == [] {
      assert a + b == b;
    } else {
      assert (a + b)[1..] == a[1..] + b && (a + b)[0] == a[0];
      VisibleTextConcat(a[1..], b);
      Assoc(if a[0].Shown? then [a[0].c] else "", VisibleText(a[1..]), VisibleText(b));
    }
  }

  lemma {:induction false} CallsOfConcat(a: seq<Item>, b: seq<Item>)
    ensures CallsOf(a + b) == CallsOf(a) + CallsOf(b)
  {
    if a == [] {
      assert a + b == b;
    } else {
      assert (a + b)[1..] == a[1..] + b && (a + b)[0] == a[0];
      CallsOfConcat(a[1..], b);
    }
  }

  lemma ProjectionsConcat(a: seq<Item>, b: seq<Item>)
    ensures VisibleText(a + b) == VisibleText(a) + VisibleText(b)
    ensures CallsOf(a + b) == CallsOf(a) + CallsOf(b)
  {
    VisibleTextConcat(a, b);
    CallsOfConcat(a, b);
  }

  lemma {:induction false} VisibleChars(t: string)
    ensures VisibleText(Chars(t)) == t && CallsOf(Chars(t)) == []
  {
    if t != "" {
      assert Chars(t)[1..] == Chars(t[1..]);
      VisibleChars(t[1..]);
    }
  }

  lemma {:induction false} MeaningConcat(a: seq<Segment>, b: seq<Segment>)
    ensures Meaning(a + b) == Meaning(a) + Meaning(b)
  {
    if a == [] {
      assert a + b == b;
    } else {
      assert (a + b)[1..] == a[1..] + b;
      MeaningConcat(a[1..], b);
    }
  }

  lemma MeaningOfPlain(t: string)
    ensures Meaning(PlainSegment(t)) == Chars(t)
  {
    if t != "" { assert [Plain(t)][1..] == []; }
  }

  // ------------------------------------- one well-formed document per text

  lemma Cons(seg: Segment, rest: seq<Segment>)
    ensures Render([seg] + rest) == RenderSegment(seg) + Render(rest)
    ensures Meaning([seg] + rest) == SegmentMeaning(seg) + Meaning(rest)
    ensures WellFormed([seg] + rest) <==>
              WellFormedSegment(seg) && (Terminal(seg) ==> rest == []) &&
              (seg.Plain? && rest != [] ==> !rest[0].Plain?) && WellFormed(rest)
  {
    assert ([seg] + rest)[1..] == rest;
  }

  // What follows the open token in the rendering of `seg` and then `after`.
  function TagBody(seg: Segment, after: string): string {
    match seg
    case Call(rawID, args, closed) => rawID + ">" + (args + (if closed then CLOSE_TOKEN else "") + after)
    case Rejected(body) => body + ">" + after
    case Dangling(body) => body + after
    case Plain(text) => text + after
  }

  lemma Assoc(a: string, b: string, c: string)
    ensures a + b + c == a + (b + c)
  {
  }

  lemma Regroup(a: string, b: string, c: string, d: string)
    ensures a + b + c + d == a + (b + c + d)
  {
  }

  lemma TagRendering(seg: Segment, rest: seq<Segment>)
    requires !seg.Plain?
    ensures Render([seg] + rest) == OPEN_TOKEN + TagBody(seg, Render(rest))
  {
    Cons(seg, rest);
    hide Render;
    var after := Render(rest);
    match seg {
      case Call(rawID, args, closed) =>
        var end := if closed then CLOSE_TOKEN else "";
        Regroup(OPEN_TOKEN + rawID + ">", args, end, after);
        Regroup(OPEN_TOKEN, rawID, ">", args + end + after);
      case Rejected(body) =>
        Regroup(OPEN_TOKEN, body, ">", after);
      case Dangling(body) =>
        assert OPEN_TOKEN + body + after == OPEN_TOKEN + (body + after);
    }
  }

  // Reading loses nothing and yields a well-formed document.
  lemma {:induction false} ReadingIsLossless(s: string)
    ensures Render(Segments(s)) == s && WellFormed(Segments(s))
    decreases |s|
  {
    match IndexOf(s, OPEN_TOKEN) {
      case None =>
        RenderPlain(s, []);
        assert PlainSegment(s) + [] == PlainSegment(s);
      case Some(i) =>
        hide TagSegments, Render, WellFormed, IndexOf;
        IndexOfIsFirst(s, OPEN_TOKEN);
        SplitAtToken(s, OPEN_TOKEN, i);
        NoOccurrenceBefore(s, OPEN_TOKEN);
        TagReadingIsLossless(s[i + 3..]);
        RenderPlain(s[..i], TagSegments(s[i + 3..]));
        Assoc(s[..i], OPEN_TOKEN, s[i + 3..]);
    }
  }

  lemma RenderPlain(t: string, rest: seq<Segment>)
    requires IndexOf(t, OPEN_TOKEN).None?
    requires WellFormed(rest) && (rest != [] ==> !rest[0].Plain?)
    ensures Render(PlainSegment(t) + rest) == t + Render(rest)
    ensures WellFormed(PlainSegment(t) + rest)
  {
    if t == "" { assert PlainSegment(t) + rest == rest; } else { Cons(Plain(t), rest); }
  }

  lemma {:induction false} TagReadingIsLossless(body: string)
    ensures Render(TagSegments(body)) == OPEN_TOKEN + body && WellFormed(TagSegments(body))
    decreases |body|
  {
    IndexOfChar(body, '>');
    match IndexOf(body, ">") {
      case None =>
        Cons(Dangling(body), []);
      case Some(j) =>
        var head, tail := body[..j], body[j + 1..];
        assert body == head + ">" + tail;
        if IsValidToolTagID(Trim(head)) {
          CallReadingIsLossless(head, tail);
        } else {
          ReadingIsLossless(tail);
          Cons(Rejected(head), Segments(tail));
          TagRendering(Rejected(head), Segments(tail));
        }
    }
  }

  lemma {:induction false} CallReadingIsLossless(rawID: string, tail: string)
    requires '>' !in rawID && IsValidToolTagID(Trim(rawID))
    ensures Render(CallSegments(rawID, tail)) == OPEN_TOKEN + (rawID + ">" + tail)
    ensures WellFormed(CallSegments(rawID, tail))
    decreases |tail|
  {
    match FindClose(Outside, tail) {
      case None =>
        Cons(Call(rawID, tail, false), []);
        TagRendering(Call(rawID, tail, false), []);
      case Some(k) =>
        FindCloseIsFirst(Outside, tail);
        NoCloseBefore(Outside, tail);
        SplitAtToken(tail, CLOSE_TOKEN, k);
        ReadingIsLossless(tail[k + 4..]);
        Cons(Call(rawID, tail[..k], true), Segments(tail[k + 4..]));
        TagRendering(Call(rawID, tail[..k], true), Segments(tail[k + 4..]));
    }
  }

  // The other direction: no other well-formed document renders to the text.
  // This is where both tokens must not overlap themselves.
  lemma {:induction false} ReadingIsUnique(doc: seq<Segment>)
    requires WellFormed(doc)
    ensures Segments(Render(doc)) == doc
    ensures doc != [] && !doc[0].Plain? ==>
              OPEN_TOKEN <= Render(doc) && TagSegments(Render(doc)[3..]) == doc
    decreases |doc|, 1
  {
    if doc != [] {
      var rest, s := doc[1..], Render(doc);
      assert doc == [doc[0]] + rest;
      if doc[0].Plain? {
        ReadingIsUnique(rest);
        PlainReadingIsUnique(doc[0].text, rest);
      } else {
        TagReadingIsUnique(doc);
        assert s[0..] == s && OccursAt(s, OPEN_TOKEN, 0);
        IndexOfIs(s, OPEN_TOKEN, 0);
      }
    }
  }

  lemma PlainReadingIsUnique(t: string, rest: seq<Segment>)
    requires WellFormed([Plain(t)] + rest)
    requires rest == [] || (OPEN_TOKEN <= Render(rest) && TagSegments(Render(rest)[3..]) == rest)
    ensures Segments(Render([Plain(t)] + rest)) == [Plain(t)] + rest
  {
    hide TagSegments, IndexOf;
    Cons(Plain(t), rest);
    var s := t + Render(rest);
    OpenTokenDoesNotOverlap(t, Render(rest));
    assert s[..|t|] == t && s[|t|..] == Render(rest);
    if rest == [] { assert s == t; } else { assert s[|t| + 3..] == s[|t|..][3..]; }
  }

  lemma {:induction false} TagReadingIsUnique(doc: seq<Segment>)
    requires WellFormed(doc) && doc != [] && !doc[0].Plain?
    ensures OPEN_TOKEN <= Render(doc) && TagSegments(Render(doc)[3..]) == doc
    decreases |doc|, 0
  {
    var s, rest := Render(doc), doc[1..];
    assert doc == [doc[0]] + rest;
    ReadingIsUnique(rest);
    TagRendering(doc[0], rest);
    match doc[0] {
      case Dangling(body) =>
        assert s[3..] == body;
        IndexOfChar(body, '>');
      case Rejected(body) =>
        assert s[3..] == body + ">" + Render(rest);
        CutAtAngle(body, Render(rest));
      case Call(rawID, args, closed) =>
        var tail := args + (if closed then CLOSE_TOKEN else "") + Render(rest);
        assert s[3..] == rawID + ">" + tail;
        CutAtAngle(rawID, tail);
        CallReadingIsUnique(rawID, args, closed, rest);
    }
  }

  lemma CutAtAngle(body: string, rest: string)
    requires '>' !in body
    ensures var s := body + ">" + rest;
            IndexOf(s, ">") == Some(|body|) && s[..|body|] == body && s[|body| + 1..] == rest
  {
    var s := body + ">" + rest;
    IndexOfChar(s, '>');
    assert s[|body|] == '>' && forall k :: 0 <= k < |body| ==> s[k] == body[k];
  }

  lemma CallReadingIsUnique(rawID: string, args: string, closed: bool, rest: seq<Segment>)
    requires WellFormed([Call(rawID, args, closed)] + rest) && Segments(Render(rest)) == rest
    ensures var tail := args + (if closed then CLOSE_TOKEN else "") + Render(rest);
            CallSegments(rawID, tail) == [Call(rawID, args, closed)] + rest
  {
    Cons(Call(rawID, args, closed), rest);
    var tail := args + (if closed then CLOSE_TOKEN else "") + Render(rest);
    if closed {
      CloseTokenDoesNotOverlap(Outside, args, Render(rest));
      assert tail[..|args|] == args && tail[|args| + 4..] == Render(rest);
    } else {
      assert tail == args;
    }
  }
}
