// The batch parser (apps/web/lib/toolTagText.parse.ts): a cursor that jumps from
// token to token, specified against the reference grammar.
module ToolTagParse {
  import opened Options
  import opened Text
  import opened ToolTagSyntax
  import opened ToolTagGrammar

  // The loop stops as soon as the cursor reaches the end of the text, so a tag
  // that is still half open there, `<t:` or `<t:N>` with nothing after it, is lost.
  predicate HalfOpen(seg: Segment) {
    seg == Dangling("") || (seg.Call? && !seg.closed && seg.args == "")
  }

  predicate EndsHalfOpen(doc: seq<Segment>) {
    doc != [] && HalfOpen(doc[|doc| - 1])
  }

  function Kept(doc: seq<Segment>): seq<Segment> {
    if EndsHalfOpen(doc) then doc[..|doc| - 1] else doc
  }

  // What the batch parser makes of a text.
  function BatchMeaning(text: string): seq<Item> {
    Meaning(Kept(Segments(text)))
  }

  lemma KeptAppend(front: seq<Segment>, doc: seq<Segment>)
    ensures Kept(front + doc) == if doc == [] then Kept(front) else front + Kept(doc)
  {
    if doc == [] {
      assert front + doc == front;
    } else if EndsHalfOpen(doc) {
      assert (front + doc)[..|front + doc| - 1] == front + doc[..|doc| - 1];
    }
  }

  datatype Mode = NormalMode | CaptureID | CaptureArgs

  // What a run that is in `mode`, with `rest` of the text ahead, still delivers.
  function Pending(mode: Mode, id: string, rest: string): seq<Item> {
    match mode
    case NormalMode => BatchMeaning(rest)
    case CaptureID => Meaning(Kept(TagSegments(rest)))
    case CaptureArgs => Meaning(Kept(CallSegments(id, rest)))
  }

  lemma NothingPending(mode: Mode, id: string, rest: string)
    requires rest == ""
    ensures Pending(mode, id, rest) == []
  {
    assert Kept(TagSegments("")) == [] && Kept(CallSegments(id, "")) == [];
  }

  lemma LastJump(seg: Segment)
    requires !HalfOpen(seg)
    ensures Meaning(Kept([seg])) == SegmentMeaning(seg) + []
  {
    Cons(seg, []);
    assert [seg] + [] == [seg];
  }

  lemma SegmentJump(seg: Segment, rest: string)
    requires !HalfOpen(seg)
    ensures Meaning(Kept([seg] + Segments(rest))) == SegmentMeaning(seg) + BatchMeaning(rest)
  {
    KeptAppend([seg], Segments(rest));
    Cons(seg, Kept(Segments(rest)));
    if Segments(rest) == [] { assert Kept([seg]) == [seg] + []; }
  }

  // `indexOf` with a start position: -1, or the first occurrence at or after it.
  function IndexFrom(text: string, token: string, from: nat): (r: int)
    requires token != "" && from <= |text|
    ensures r == -1 || from <= r <= |text| - |token|
  {
    match IndexOf(text[from..], token)
    case None => -1
    case Some(i) => from + i
  }

  // The close token found from a position on, or -1.
  function CloseFrom(text: string, index: nat, q: Quote): (r: int)
    requires index <= |text|
    ensures r == -1 || index <= r <= |text| - 4
  {
    match FindClose(q, text[index..])
    case None => -1
    case Some(k) => index + k
  }

  lemma CloseFromStep(text: string, index: nat, q: Quote)
    requires index < |text|
    ensures CloseFrom(text, index, q) ==
              if q == Outside && index + 4 <= |text| && text[index..index + 4] == CLOSE_TOKEN then index
              else CloseFrom(text, index + 1, NextQuote(q, text[index]))
  {
    var s := text[index..];
    assert s[0] == text[index] && s[1..] == text[index + 1..];
    if index + 4 <= |text| { assert s[..4] == text[index..index + 4]; }
  }

  function QuoteOf(inString: bool, escaped: bool): Quote {
    if !inString then Outside else if escaped then Escaped else Inside
  }

  // --------------------------------------- the three jumps of the cursor

  // `items` is the text `shown`, then the calls `made`, then `rest`.
  ghost predicate Delivers(items: seq<Item>, shown: string, made: seq<ParsedCall>, rest: seq<Item>) {
    VisibleText(items) == shown + VisibleText(rest) && CallsOf(items) == made + CallsOf(rest)
  }

  lemma DeliversText(t: string, rest: seq<Item>)
    ensures Delivers(Chars(t) + rest, t, [], rest)
  {
    ProjectionsConcat(Chars(t), rest);
    VisibleChars(t);
  }

  lemma DeliversCall(call: ParsedCall, rest: seq<Item>)
    ensures Delivers([Invoked(call)] + rest, "", [call], rest)
  {
    ProjectionsConcat([Invoked(call)], rest);
    assert [Invoked(call)][1..] == [];
  }

  // The same, on the text that is still ahead.
  lemma PlainAhead(s: string)
    ensures match IndexOf(s, OPEN_TOKEN)
            case None => Delivers(BatchMeaning(s), s, [], [])
            case Some(i) => Delivers(BatchMeaning(s), s[..i], [], Meaning(Kept(TagSegments(s[i + 3..]))))
  {
    match IndexOf(s, OPEN_TOKEN) {
      case None =>
        hide Meaning, Chars, Delivers;
        MeaningOfPlain(s);
        assert !EndsHalfOpen(PlainSegment(s));
        DeliversText(s, []);
        assert Chars(s) + [] == Chars(s);
      case Some(i) =>
        var plain, tag := PlainSegment(s[..i]), TagSegments(s[i + 3..]);
        hide TagSegments, Meaning, Chars, Delivers, IndexOf;
        KeptAppend(plain, tag);
        MeaningConcat(plain, Kept(tag));
        MeaningOfPlain(s[..i]);
        DeliversText(s[..i], Meaning(Kept(tag)));
    }
  }

  lemma TagAhead(body: string)
    ensures match IndexOf(body, ">")
            case None => Delivers(Meaning(Kept(TagSegments(body))), OPEN_TOKEN + body, [], []) || body == ""
            case Some(j) =>
              var head, tail := body[..j], body[j + 1..];
              if IsValidToolTagID(Trim(head)) then
                TagSegments(body) == CallSegments(head, tail)
              else
                Delivers(Meaning(Kept(TagSegments(body))), OPEN_TOKEN + head + ">", [], BatchMeaning(tail))
  {
    hide Delivers, Meaning, Kept, IsValidToolTagID, Trim, Chars, CallSegments;
    match IndexOf(body, ">") {
      case None =>
        if body != "" {
          LastJump(Dangling(body));
          assert SegmentMeaning(Dangling(body)) == Chars(OPEN_TOKEN + body);
          DeliversText(OPEN_TOKEN + body, []);
        }
      case Some(j) =>
        var head, tail := body[..j], body[j + 1..];
        if !IsValidToolTagID(Trim(head)) {
          SegmentJump(Rejected(head), tail);
          DeliversText(OPEN_TOKEN + head + ">", BatchMeaning(tail));
        }
    }
  }

  lemma NormalJump(text: string, cursor: nat, id: string)
    requires cursor < |text|
    ensures var open, all := IndexFrom(text, OPEN_TOKEN, cursor), Pending(NormalMode, id, text[cursor..]);
            if open < 0 then Delivers(all, text[cursor..], [], [])
            else text[open..open + 3] == OPEN_TOKEN &&
                 Delivers(all, text[cursor..open], [], Pending(CaptureID, "", text[open + 3..]))
  {
    hide BatchMeaning, TagSegments, Meaning, Kept, Delivers;
    var s := text[cursor..];
    PlainAhead(s);
    IndexOfIsFirst(s, OPEN_TOKEN);
    match IndexOf(s, OPEN_TOKEN) {
      case None =>
      case Some(i) =>
        assert s[i..][..3] == text[cursor + i..cursor + i + 3];
        assert s[..i] == text[cursor..cursor + i] && s[i + 3..] == text[cursor + i + 3..];
    }
  }

  lemma IDJump(text: string, cursor: nat, id: string)
    requires 3 <= cursor < |text| && text[cursor - 3..cursor] == OPEN_TOKEN
    ensures var end, all := IndexFrom(text, ">", cursor), Pending(CaptureID, id, text[cursor..]);
            if end < 0 then Delivers(all, text[cursor - 3..], [], [])
            else
              var rawID := Trim(text[cursor..end]);
              if !IsValidToolTagID(rawID) then
                Delivers(all, text[cursor - 3..end + 1], [], Pending(NormalMode, id, text[end + 1..]))
              else
                all == Pending(CaptureArgs, rawID, text[end + 1..])
  {
    hide BatchMeaning, TagSegments, CallSegments, Meaning, Kept, Delivers, IsValidToolTagID, Trim;
    var body := text[cursor..];
    TagAhead(body);
    match IndexOf(body, ">") {
      case None =>
        assert text[cursor - 3..] == OPEN_TOKEN + body;
      case Some(j) =>
        var head, tail := text[cursor..cursor + j], text[cursor + j + 1..];
        IndexOfChar(body, '>');
        assert body[..j] == head && body[j + 1..] == tail;
        assert text[cursor - 3..cursor + j + 1] == OPEN_TOKEN + head + ">";
        if IsValidToolTagID(Trim(head)) { TrimmedIDSuffices(head, tail); }
    }
  }

  lemma ArgsJump(text: string, cursor: nat, id: string)
    requires cursor < |text| && IsValidToolTagID(id)
    ensures var close, all := CloseFrom(text, cursor, Outside), Pending(CaptureArgs, id, text[cursor..]);
            if close < 0 then Delivers(all, "", [ParsedCall(id, text[cursor..])], [])
            else Delivers(all, "", [ParsedCall(id, text[cursor..close])], Pending(NormalMode, id, text[close + 4..]))
  {
    hide Segments, Meaning, Kept, Delivers;
    var tail := text[cursor..];
    ValidIDs(id);
    match FindClose(Outside, tail) {
      case None =>
        LastJump(Call(id, tail, false));
        DeliversCall(ParsedCall(id, tail), []);
      case Some(k) =>
        assert tail[..k] == text[cursor..cursor + k] && tail[k + 4..] == text[cursor + k + 4..];
        SegmentJump(Call(id, tail[..k], true), tail[k + 4..]);
        DeliversCall(ParsedCall(id, tail[..k]), BatchMeaning(tail[k + 4..]));
    }
  }

  // Only the trimmed identifier is reported, so trimming it early changes nothing.
  lemma TrimmedIDSuffices(rawID: string, tail: string)
    requires IsValidToolTagID(Trim(rawID))
    ensures Pending(CaptureArgs, rawID, tail) == Pending(CaptureArgs, Trim(rawID), tail)
  {
    ValidIDs(Trim(rawID));
    if tail == "" {
      NothingPending(CaptureArgs, rawID, tail);
      NothingPending(CaptureArgs, Trim(rawID), tail);
    } else {
      match FindClose(Outside, tail) {
        case None =>
          LastJump(Call(rawID, tail, false));
          LastJump(Call(Trim(rawID), tail, false));
        case Some(k) =>
          SegmentJump(Call(rawID, tail[..k], true), tail[k + 4..]);
          SegmentJump(Call(Trim(rawID), tail[..k], true), tail[k + 4..]);
      }
    }
  }

  // ------------------------------------------------------------------ the run

  function Join(parts: seq<string>): string {
    if parts == [] then "" else parts[0] + Join(parts[1..])
  }

  lemma {:induction false} JoinAppend(parts: seq<string>, part: string)
    ensures Join(parts + [part]) == Join(parts) + part
  {
    if parts == [] {
      assert [part][1..] == [];
    } else {
      assert (parts + [part])[1..] == parts[1..] + [part];
      JoinAppend(parts[1..], part);
    }
  }

  lemma TextDelivered(parts: seq<string>, part: string, calls: seq<ParsedCall>, all: seq<Item>, rest: seq<Item>)
    requires Delivers(all, part, [], rest)
    ensures Join(parts + [part]) + VisibleText(rest) == Join(parts) + VisibleText(all)
    ensures calls + CallsOf(rest) == calls + CallsOf(all)
  {
    JoinAppend(parts, part);
    assert Join(parts) + part + VisibleText(rest) == Join(parts) + (part + VisibleText(rest));
    assert [] + CallsOf(rest) == CallsOf(rest);
  }

  lemma CallDelivered(parts: seq<string>, calls: seq<ParsedCall>, call: ParsedCall, all: seq<Item>, rest: seq<Item>)
    requires Delivers(all, "", [call], rest)
    ensures Join(parts) + VisibleText(rest) == Join(parts) + VisibleText(all)
    ensures calls + [call] + CallsOf(rest) == calls + CallsOf(all)
  {
    assert calls + [call] + CallsOf(rest) == calls + ([call] + CallsOf(rest));
    assert "" + VisibleText(rest) == VisibleText(rest);
  }

  class ToolTagParseContext {
    const text: string
    var calls: seq<ParsedCall>
    var cursor: nat
    var mode: Mode
    var rawTagStart: int
    var toolIdBuffer: string
    var argsStart: int
    var inString: bool
    var escaped: bool
    var visibleParts: seq<string>

    constructor (text: string)
      ensures this.text == text && Valid() && cursor == 0 && mode == NormalMode
      ensures calls == [] && visibleParts == []
    {
      this.text := text;
      calls, cursor, mode, visibleParts := [], 0, NormalMode, [];
      rawTagStart, toolIdBuffer, argsStart, inString, escaped := -1, "", -1, false, false;
    }

    ghost predicate Valid()
      reads this
    {
      && cursor <= |text|
      && (cursor < |text| ==>
            match mode
            case NormalMode => true
            case CaptureID => 0 <= rawTagStart == cursor - 3 && text[rawTagStart..cursor] == OPEN_TOKEN
            case CaptureArgs => argsStart == cursor && !inString && !escaped && IsValidToolTagID(toolIdBuffer))
    }

    // The two results of the run, once what is pending has been delivered.
    ghost function FinalText(): string
      reads this
      requires Valid()
    {
      Join(visibleParts) + VisibleText(Pending(mode, toolIdBuffer, text[cursor..]))
    }

    ghost function FinalCalls(): seq<ParsedCall>
      reads this
      requires Valid()
    {
      calls + CallsOf(Pending(mode, toolIdBuffer, text[cursor..]))
    }

    method ParseNextToolTagSpan()
      requires Valid() && cursor < |text|
      modifies this
      ensures Valid() && old(cursor) < cursor
      ensures FinalText() == old(FinalText()) && FinalCalls() == old(FinalCalls())
    {
      if mode == NormalMode {
        ParseNormalSpan();
      } else if mode == CaptureID {
        ParseToolIdSpan();
      } else {
        ParseArgsSpan();
      }
    }

    method ParseNormalSpan()
      requires Valid() && cursor < |text| && mode == NormalMode
      modifies this
      ensures Valid() && old(cursor) < cursor
      ensures FinalText() == old(FinalText()) && FinalCalls() == old(FinalCalls())
    {
      hide Pending, Join, VisibleText, CallsOf, Delivers;
      ghost var all := Pending(mode, toolIdBuffer, text[cursor..]);
      NormalJump(text, cursor, toolIdBuffer);
      var openIndex := IndexFrom(text, OPEN_TOKEN, cursor);
      if openIndex < 0 {
        TextDelivered(visibleParts, text[cursor..], calls, all, []);
        visibleParts := visibleParts + [text[cursor..]];
        cursor := |text|;
        NothingPending(mode, toolIdBuffer, text[cursor..]);
        return;
      }
      TextDelivered(visibleParts, text[cursor..openIndex], calls, all, Pending(CaptureID, "", text[openIndex + 3..]));
      visibleParts := visibleParts + [text[cursor..openIndex]];
      mode := CaptureID;
      rawTagStart := openIndex;
      toolIdBuffer := "";
      cursor := openIndex + 3;
    }

    method ParseToolIdSpan()
      requires Valid() && cursor < |text| && mode == CaptureID
      modifies this
      ensures Valid() && old(cursor) < cursor
      ensures FinalText() == old(FinalText()) && FinalCalls() == old(FinalCalls())
    {
      hide Pending, Join, VisibleText, CallsOf, Delivers;
      ghost var all := Pending(mode, toolIdBuffer, text[cursor..]);
      IDJump(text, cursor, toolIdBuffer);
      var closeOfID := IndexFrom(text, ">", cursor);
      if closeOfID < 0 {
        TextDelivered(visibleParts, text[rawTagStart..], calls, all, []);
        visibleParts := visibleParts + [text[rawTagStart..]];
        cursor := |text|;
        NothingPending(mode, toolIdBuffer, text[cursor..]);
        return;
      }
      var rawID := Trim(text[cursor..closeOfID]);
      if !IsValidToolTagID(rawID) {
        TextDelivered(visibleParts, text[rawTagStart..closeOfID + 1], calls, all,
                      Pending(NormalMode, toolIdBuffer, text[closeOfID + 1..]));
        visibleParts := visibleParts + [text[rawTagStart..closeOfID + 1]];
        mode := NormalMode;
        cursor := closeOfID + 1;
        return;
      }
      mode := CaptureArgs;
      toolIdBuffer := rawID;
      argsStart := closeOfID + 1;
      inString := false;
      escaped := false;
      cursor := closeOfID + 1;
    }

    method ParseArgsSpan()
      requires Valid() && cursor < |text| && mode == CaptureArgs
      modifies this
      ensures Valid() && old(cursor) < cursor
      ensures FinalText() == old(FinalText()) && FinalCalls() == old(FinalCalls())
    {
      hide Pending, Join, VisibleText, CallsOf, Delivers;
      ghost var all := Pending(mode, toolIdBuffer, text[cursor..]);
      ArgsJump(text, cursor, toolIdBuffer);
      var closeIndex := FindToolTagCloseIndex();
      if closeIndex < 0 {
        CallDelivered(visibleParts, calls, ParsedCall(toolIdBuffer, text[argsStart..]), all, []);
        calls := calls + [ParsedCall(toolIdBuffer, text[argsStart..])];
        cursor := |text|;
        NothingPending(mode, toolIdBuffer, text[cursor..]);
        return;
      }
      CallDelivered(visibleParts, calls, ParsedCall(toolIdBuffer, text[argsStart..closeIndex]), all,
                    Pending(NormalMode, toolIdBuffer, text[closeIndex + 4..]));
      calls := calls + [ParsedCall(toolIdBuffer, text[argsStart..closeIndex])];
      mode := NormalMode;
      cursor := closeIndex + 4;
    }

    // Scans on from the cursor, tracking strings and escapes in the two flags.
    method FindToolTagCloseIndex() returns (index: int)
      requires cursor <= |text| && !inString && !escaped
      modifies this`inString, this`escaped
      ensures index == CloseFrom(text, cursor, Outside)
      ensures index >= 0 ==> !inString && !escaped
    {
      index := cursor;
      while index < |text|
        invariant cursor <= index <= |text|
        invariant escaped ==> inString
        invariant CloseFrom(text, cursor, Outside) == CloseFrom(text, index, QuoteOf(inString, escaped))
      {
        CloseFromStep(text, index, QuoteOf(inString, escaped));
        var c := text[index];
        if inString {
          if escaped {
            escaped := false;
            index := index + 1;
            continue;
          }
          if c == '\\' {
            escaped := true;
            index := index + 1;
            continue;
          }
          if c == '"' {
            inString := false;
          }
          index := index + 1;
          continue;
        }
        if c == '"' {
          inString := true;
          index := index + 1;
          continue;
        }
        if index + 4 <= |text| && text[index..index + 4] == CLOSE_TOKEN {
          return index;
        }
        index := index + 1;
      }
      index := -1;
    }
  }

  datatype ToolTagParseResult = ToolTagParseResult(visibleText: string, hasToolTags: bool, calls: seq<ParsedCall>)

  method ParseToolTagText(text: string) returns (result: ToolTagParseResult)
    ensures result.visibleText == VisibleText(BatchMeaning(text))
    ensures result.calls == CallsOf(BatchMeaning(text))
    ensures result.hasToolTags <==> result.calls != []
  {
    var context := new ToolTagParseContext(text);
    assert text[0..] == text;
    while context.cursor < |text|
      invariant context.Valid() && context.text == text && fresh(context)
      invariant context.FinalText() == VisibleText(BatchMeaning(text))
      invariant context.FinalCalls() == CallsOf(BatchMeaning(text))
      decreases |text| - context.cursor
    {
      context.ParseNextToolTagSpan();
    }
    NothingPending(context.mode, context.toolIdBuffer, text[context.cursor..]);
    result := ToolTagParseResult(Join(context.visibleParts), |context.calls| > 0, context.calls);
  }

  method StripToolTagCalls(text: string) returns (visible: string)
    ensures visible == VisibleText(BatchMeaning(text))
  {
    var parsed := ParseToolTagText(text);
    visible := parsed.visibleText;
  }

  // A text that is nothing but calls and white space.
  method IsPureToolTagDocument(text: string) returns (pure: bool)
    ensures pure <==>
              CallsOf(BatchMeaning(text)) != [] &&
              forall c :: c in VisibleText(BatchMeaning(text)) ==> IsSpace(c)
  {
    var parsed := ParseToolTagText(text);
    TrimBlank(parsed.visibleText);
    pure := parsed.hasToolTags && |Trim(parsed.visibleText)| == 0;
  }

  lemma {:induction false} TrimEndBlank(s: string)
    ensures TrimEnd(s) == "" <==> forall c :: c in s ==> IsSpace(c)
  {
    if s != "" {
      assert s == s[..|s| - 1] + [s[|s| - 1]];
      if IsSpace(s[|s| - 1]) { TrimEndBlank(s[..|s| - 1]); } else { assert s[|s| - 1] in s; }
    }
  }

  lemma {:induction false} TrimBlank(s: string)
    ensures Trim(s) == "" <==> forall c :: c in s ==> IsSpace(c)
  {
    if s != "" && IsSpace(s[0]) {
      assert s == [s[0]] + s[1..];
      TrimBlank(s[1..]);
    } else {
      TrimEndBlank(s);
    }
  }
}
