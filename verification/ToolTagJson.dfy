// What the two parsers make of a message as a sender puts it together: texts and
// calls whose arguments are JSON, with any characters inside its strings. Nothing in
// the statements depends on how the parsers track quoting.
module ToolTagJson {
  import opened Text
  import opened ToolTagSyntax
  import opened ToolTagGrammar
  import opened ToolTagParse
  import opened ToolTagTheorems

  // ------------------------------------------------------------- JSON arguments

  // One character of a JSON string as it is written: itself, or a backslash and any
  // character (section 7 of RFC 8259).
  datatype StringChar = Literal(c: char) | Escape(c: char)

  // A JSON text is a sequence of strings and of what is written between them.
  datatype Piece = Bare(text: string) | Quoted(chars: seq<StringChar>)

  predicate ValidChars(cs: seq<StringChar>) {
    forall i :: 0 <= i < |cs| && cs[i].Literal? ==> cs[i].c != '"' && cs[i].c != '\\'
  }

  predicate ValidPiece(p: Piece) {
    match p
    case Bare(text) => '"' !in text && '<' !in text
    case Quoted(cs) => ValidChars(cs)
  }

  predicate ValidPieces(ps: seq<Piece>) {
    forall i :: 0 <= i < |ps| ==> ValidPiece(ps[i])
  }

  function WriteChar(c: StringChar): string {
    match c
    case Literal(c) => [c]
    case Escape(c) => ['\\', c]
  }

  function WriteChars(cs: seq<StringChar>): string {
    if cs == [] then "" else WriteChar(cs[0]) + WriteChars(cs[1..])
  }

  function WritePiece(p: Piece): string {
    match p
    case Bare(text) => text
    case Quoted(cs) => "\"" + WriteChars(cs) + "\""
  }

  function WritePieces(ps: seq<Piece>): string {
    if ps == [] then "" else WritePiece(ps[0]) + WritePieces(ps[1..])
  }

  // -------------------------------------------------------- how they are scanned

  // Between the quotes nothing closes, and the closing quote ends the string.
  lemma {:induction false} StringIsClosed(cs: seq<StringChar>, rest: string)
    requires ValidChars(cs)
    ensures var s := WriteChars(cs) + "\"" + rest;
            && Scan(Inside, s) == Scan(Outside, rest)
            && FindClose(Inside, s) == Shift(FindClose(Outside, rest), |WriteChars(cs)| + 1)
    decreases |cs|
  {
    var s := WriteChars(cs) + "\"" + rest;
    if cs == [] {
      assert s == "\"" + rest && s[1..] == rest;
    } else {
      var w, tail := WriteChar(cs[0]), WriteChars(cs[1..]) + "\"" + rest;
      assert s == w + tail;
      assert forall i :: 0 <= i < |cs[1..]| ==> cs[1..][i] == cs[i + 1];
      StringIsClosed(cs[1..], rest);
      match cs[0] {
        case Literal(c) =>
          assert s[0] == c && s[1..] == tail;
        case Escape(c) =>
          assert s[0] == '\\' && s[1..] == [c] + tail && s[1..][0] == c && s[1..][1..] == tail;
          assert Scan(Inside, s) == Scan(Escaped, s[1..]) == Scan(Inside, tail);
          FindCloseStep(Inside, s);
          FindCloseStep(Escaped, s[1..]);
      }
    }
  }

  lemma {:induction false} BareIsSkipped(text: string, rest: string)
    requires '"' !in text && '<' !in text
    ensures Scan(Outside, text + rest) == Scan(Outside, rest)
    ensures FindClose(Outside, text + rest) == Shift(FindClose(Outside, rest), |text|)
  {
    var s := text + rest;
    if text == "" {
      assert s == rest;
    } else {
      assert s[0] == text[0] && s[1..] == text[1..] + rest && text[0] in text;
      BareIsSkipped(text[1..], rest);
      FindCloseStep(Outside, s);
    }
  }

  lemma QuotedIsSkipped(cs: seq<StringChar>, rest: string)
    requires ValidChars(cs)
    ensures var s := "\"" + WriteChars(cs) + "\"" + rest;
            && Scan(Outside, s) == Scan(Outside, rest)
            && FindClose(Outside, s) == Shift(FindClose(Outside, rest), |WriteChars(cs)| + 2)
  {
    hide WriteChars, ValidChars;
    var s := "\"" + WriteChars(cs) + "\"" + rest;
    assert s[0] == '"' && s[1..] == WriteChars(cs) + "\"" + rest;
    StringIsClosed(cs, rest);
    FindCloseStep(Outside, s);
  }

  lemma {:induction false} PiecesAreScanned(ps: seq<Piece>, rest: string)
    requires ValidPieces(ps)
    ensures Scan(Outside, WritePieces(ps) + rest) == Scan(Outside, rest)
    ensures FindClose(Outside, WritePieces(ps) + rest) == Shift(FindClose(Outside, rest), |WritePieces(ps)|)
    decreases |ps|
  {
    hide Scan, FindClose, WriteChars, ValidChars;
    if ps == [] {
      assert WritePieces(ps) + rest == rest;
    } else {
      var tail := WritePieces(ps[1..]) + rest;
      assert WritePieces(ps) + rest == WritePiece(ps[0]) + tail && ValidPiece(ps[0]);
      assert forall i :: 0 <= i < |ps[1..]| ==> ps[1..][i] == ps[i + 1];
      PiecesAreScanned(ps[1..], rest);
      match ps[0] {
        case Bare(text) => BareIsSkipped(text, tail);
        case Quoted(cs) => QuotedIsSkipped(cs, tail);
      }
    }
  }

  lemma PiecesAreBalanced(ps: seq<Piece>)
    requires ValidPieces(ps)
    ensures Scan(Outside, WritePieces(ps)) == Outside && FindClose(Outside, WritePieces(ps)).None?
  {
    PiecesAreScanned(ps, "");
    assert WritePieces(ps) + "" == WritePieces(ps);
  }

  // ---------------------------------------------------------------- messages

  // A call is written under its number, possibly with white space around it.
  datatype Part = Says(text: string) | Asks(left: string, id: string, right: string, args: seq<Piece>)

  predicate Blank(s: string) {
    forall i :: 0 <= i < |s| ==> IsSpace(s[i])
  }

  ghost predicate ValidPart(p: Part) {
    match p
    case Says(text) => text != "" && forall k :: !OccursAt(text, "<t:", k)
    case Asks(left, id, right, args) =>
      && Blank(left) && Blank(right) && ValidPieces(args)
      && AllDigits(id) && exists i :: 0 <= i < |id| && id[i] != '0'
  }

  // Texts and calls in any order; neighbouring texts are one.
  ghost predicate ValidParts(parts: seq<Part>) {
    && (forall i :: 0 <= i < |parts| ==> ValidPart(parts[i]))
    && (forall i :: 0 <= i < |parts| - 1 ==> parts[i].Says? ==> parts[i + 1].Asks?)
  }

  function WritePart(p: Part): string {
    match p
    case Says(text) => text
    case Asks(left, id, right, args) => "<t:" + left + id + right + ">" + WritePieces(args) + "</t>"
  }

  function Write(parts: seq<Part>): string {
    if parts == [] then "" else WritePart(parts[0]) + Write(parts[1..])
  }

  // What a reader should get: every character of the texts, and every call under its
  // number and with its arguments, in order.
  function ReadPart(p: Part): seq<Item> {
    match p
    case Says(text) => seq(|text|, i requires 0 <= i < |text| => Shown(text[i]))
    case Asks(_, id, _, args) => [Invoked(ParsedCall(id, WritePieces(args)))]
  }

  function Read(parts: seq<Part>): seq<Item> {
    if parts == [] then [] else ReadPart(parts[0]) + Read(parts[1..])
  }

  function ToSegment(p: Part): Segment {
    match p
    case Says(text) => Plain(text)
    case Asks(left, id, right, args) => Call(left + id + right, WritePieces(args), true)
  }

  function ToSegments(parts: seq<Part>): seq<Segment> {
    if parts == [] then [] else [ToSegment(parts[0])] + ToSegments(parts[1..])
  }

  lemma PartIsSegment(p: Part)
    requires ValidPart(p)
    ensures WellFormedSegment(ToSegment(p)) && !Terminal(ToSegment(p)) && !HalfOpen(ToSegment(p))
    ensures RenderSegment(ToSegment(p)) == WritePart(p) && SegmentMeaning(ToSegment(p)) == ReadPart(p)
  {
    match p
    case Says(text) => IndexOfIsFirst(text, OPEN_TOKEN);
    case Asks(left, id, right, args) =>
      PiecesAreBalanced(args);
      ValidIDs(id);
      DigitsAreTrimmed(left, id, right);
      assert '>' !in left + id + right by {
        assert !IsSpace('>');
      }
      assert "<t:" + left + id + right + ">" + WritePieces(args) + "</t>" ==
             OPEN_TOKEN + (left + id + right) + ">" + WritePieces(args) + CLOSE_TOKEN;
  }

  lemma DigitsAreTrimmed(left: string, id: string, right: string)
    requires Blank(left) && Blank(right) && AllDigits(id) && id != ""
    ensures Trim(left + id + right) == id
  {
    TrimIs(left, id, right);
  }

  lemma {:induction false} PartsAreSegments(parts: seq<Part>)
    requires ValidParts(parts)
    ensures var doc := ToSegments(parts);
            && WellFormed(doc) && !EndsHalfOpen(doc) && (doc == [] <==> parts == [])
            && (doc != [] ==> (doc[0].Plain? <==> parts[0].Says?))
            && Render(doc) == Write(parts) && Meaning(doc) == Read(parts)
  {
    hide WellFormedSegment, HalfOpen, ValidPart, RenderSegment, SegmentMeaning, WritePart, ReadPart;
    if parts != [] {
      var rest := parts[1..];
      assert forall i :: 0 <= i < |rest| ==> rest[i] == parts[i + 1];
      PartsAreSegments(rest);
      PartIsSegment(parts[0]);
      Cons(ToSegment(parts[0]), ToSegments(rest));
      assert rest != [] ==> parts[1] == rest[0];
      var doc := ToSegments(parts);
      if rest != [] { assert doc[|doc| - 1] == ToSegments(rest)[|doc| - 2]; }
    }
  }

  // Whatever is in the strings of its arguments, close tokens and escaped quotes
  // included, both parsers read every message as it was written.
  lemma WrittenIsRead(parts: seq<Part>)
    requires ValidParts(parts)
    ensures BatchMeaning(Write(parts)) == StreamMeaning(Write(parts)) == Read(parts)
  {
    PartsAreSegments(parts);
    RoundTrip(ToSegments(parts));
  }

  // The same for what callers get.
  lemma WrittenIsReadResults(parts: seq<Part>)
    requires ValidParts(parts)
    ensures var batch, stream := BatchMeaning(Write(parts)), StreamMeaning(Write(parts));
            && VisibleText(batch) == VisibleText(stream) == Texts(parts)
            && CallsOf(batch) == CallsOf(stream) == Calls(parts)
  {
    WrittenIsRead(parts);
    ReadResults(parts);
  }

  function Texts(parts: seq<Part>): string {
    if parts == [] then "" else (if parts[0].Says? then parts[0].text else "") + Texts(parts[1..])
  }

  function Calls(parts: seq<Part>): seq<ParsedCall> {
    if parts == [] then []
    else (if parts[0].Asks? then [ParsedCall(parts[0].id, WritePieces(parts[0].args))] else []) + Calls(parts[1..])
  }

  lemma {:induction false} ReadResults(parts: seq<Part>)
    ensures VisibleText(Read(parts)) == Texts(parts) && CallsOf(Read(parts)) == Calls(parts)
  {
    if parts != [] {
      ReadResults(parts[1..]);
      ProjectionsConcat(ReadPart(parts[0]), Read(parts[1..]));
      match parts[0] {
        case Says(text) =>
          VisibleChars(text);
          assert ReadPart(parts[0]) == Chars(text);
        case Asks(_, id, _, args) =>
          assert ReadPart(parts[0])[1..] == [];
      }
    }
  }

  // ------------------------------------------------- any text as an argument

  // `t` as the contents of a JSON string.
  function Escaping(t: string): string {
    if t == "" then ""
    else (if t[0] == '"' || t[0] == '\\' then ['\\', t[0]] else [t[0]]) + Escaping(t[1..])
  }

  function EscapingChars(t: string): (cs: seq<StringChar>)
    ensures ValidChars(cs) && WriteChars(cs) == Escaping(t)
  {
    if t == "" then []
    else
      var rest, c := EscapingChars(t[1..]), if t[0] == '"' || t[0] == '\\' then Escape(t[0]) else Literal(t[0]);
      assert ([c] + rest)[1..] == rest;
      [c] + rest
  }

  // Every text can be passed as an argument.
  lemma AnyTextIsPassed(t: string)
    ensures var args := "\"" + Escaping(t) + "\"";
            var text := Render([Call("1", args, true)]);
            BatchMeaning(text) == StreamMeaning(text) == [Invoked(ParsedCall("1", args))]
  {
    hide BatchMeaning, StreamMeaning, EscapingChars;
    OneCallIsRead([Quoted(EscapingChars(t))]);
    OneQuoted(EscapingChars(t));
  }

  lemma OneQuoted(cs: seq<StringChar>)
    ensures WritePieces([Quoted(cs)]) == "\"" + WriteChars(cs) + "\""
  {
    assert [Quoted(cs)][1..] == [];
  }

  lemma OneCallIsRead(ps: seq<Piece>)
    requires ValidPieces(ps)
    ensures var text := Render([Call("1", WritePieces(ps), true)]);
            BatchMeaning(text) == StreamMeaning(text) == [Invoked(ParsedCall("1", WritePieces(ps)))]
  {
    hide BatchMeaning, StreamMeaning, WritePieces, ValidPieces;
    var parts, doc := [Asks("", "1", "", ps)], [Call("1", WritePieces(ps), true)];
    assert parts[1..] == [] && doc[1..] == [] && "1"[0] != '0';
    assert "" + "1" + "" == "1";
    WrittenIsRead(parts);
    assert Write(parts) == Render(doc);
  }

  // An argument whose last string is not closed takes in all that follows, close
  // tokens included.
  lemma UnclosedStringTakesAll(id: string, ps: seq<Piece>, cs: seq<StringChar>)
    requires IsValidToolTagID(id) && ValidPieces(ps) && ValidChars(cs)
    ensures var args := WritePieces(ps) + "\"" + WriteChars(cs);
            var text := "<t:" + id + ">" + args;
            BatchMeaning(text) == StreamMeaning(text) == [Invoked(ParsedCall(id, args))]
  {
    var args := WritePieces(ps) + "\"" + WriteChars(cs);
    var doc := [Call(id, args, false)];
    StringIsOpen(cs);
    var rest := "\"" + WriteChars(cs);
    assert rest[0] == '"' && rest[1..] == WriteChars(cs);
    FindCloseStep(Outside, rest);
    PiecesAreScanned(ps, rest);
    assert args == WritePieces(ps) + rest && doc[1..] == [];
    ValidIDs(id);
    assert Render(doc) == "<t:" + id + ">" + args;
    RoundTrip(doc);
  }

  lemma {:induction false} StringIsOpen(cs: seq<StringChar>)
    requires ValidChars(cs)
    ensures FindClose(Inside, WriteChars(cs)).None?
  {
    if cs != [] {
      var s, tail := WriteChars(cs), WriteChars(cs[1..]);
      assert forall i :: 0 <= i < |cs[1..]| ==> cs[1..][i] == cs[i + 1];
      StringIsOpen(cs[1..]);
      match cs[0] {
        case Literal(c) => assert s[0] == c && s[1..] == tail;
        case Escape(c) =>
          assert s[0] == '\\' && s[1..] == [c] + tail && s[1..][0] == c && s[1..][1..] == tail;
          FindCloseStep(Inside, s);
          FindCloseStep(Escaped, s[1..]);
      }
    }
  }

  // ------------------------------------------------------ texts without a call

  // Where no call is found, nothing is hidden: the visible text is the text.
  lemma TextWithoutCallsIsShown(text: string)
    ensures CallsOf(StreamMeaning(text)) == [] ==> VisibleText(StreamMeaning(text)) == text
    ensures CallsOf(BatchMeaning(text)) == [] && !EndsHalfOpen(Segments(text)) ==>
              VisibleText(BatchMeaning(text)) == text
  {
    StreamRecognisesGrammar(text);
    ReadingIsLossless(text);
    NoCallsNoChange(Segments(text));
  }

  lemma {:induction false} NoCallsNoChange(doc: seq<Segment>)
    ensures CallsOf(Meaning(doc)) == [] ==> VisibleText(Meaning(doc)) == Render(doc)
  {
    hide RenderSegment;
    if doc != [] {
      NoCallsNoChange(doc[1..]);
      ProjectionsConcat(SegmentMeaning(doc[0]), Meaning(doc[1..]));
      VisibleChars(RenderSegment(doc[0]));
      if doc[0].Call? { assert CallsOf(SegmentMeaning(doc[0])) != []; }
    }
  }
}
