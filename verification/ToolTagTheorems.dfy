// What the two recognisers of the tool-tag language promise: the stream machine
// reads every text as the grammar does, the batch parser does so except on texts
// that end with a half-open tag, rendering and reading are inverse, and chunking
// is invisible.
module ToolTagTheorems {
  import opened Options
  import opened Text
  import opened ToolTagSyntax
  import opened ToolTagGrammar
  import opened ToolTagMachine
  import opened ToolTagParse

  // ------------------------------------------------ what emitted units mean

  function UnitMeaning(u: Unit): seq<Item> {
    match u
    case TextUnit(t) => Chars(t)
    case CloseUnit(_, id, args) => [Invoked(ParsedCall(id, args))]
    case _ => []
  }

  function Transcript(us: seq<Unit>): seq<Item> {
    if us == [] then [] else UnitMeaning(us[0]) + Transcript(us[1..])
  }

  lemma {:induction false} TranscriptConcat(a: seq<Unit>, b: seq<Unit>)
    ensures Transcript(a + b) == Transcript(a) + Transcript(b)
  {
    if a == [] {
      assert a + b == b;
    } else {
      assert (a + b)[1..] == a[1..] + b;
      TranscriptConcat(a[1..], b);
    }
  }

  lemma TranscriptOne(u: Unit)
    ensures Transcript([u]) == UnitMeaning(u)
  {
    assert [u][1..] == [];
  }

  lemma {:induction false} TranscriptOfText(t: string)
    ensures Transcript(TextUnits(t)) == Chars(t)
  {
    if t != "" {
      assert TextUnits(t)[1..] == TextUnits(t[1..]) && [t[0]] + t[1..] == t;
      TranscriptOfText(t[1..]);
      CharsConcat([t[0]], t[1..]);
    }
  }

  lemma {:induction false} TranscriptOfArgs(n: nat, t: string)
    ensures Transcript(ArgsUnits(n, t)) == []
  {
    if t != "" {
      assert ArgsUnits(n, t)[1..] == ArgsUnits(n, t[1..]);
      TranscriptOfArgs(n, t[1..]);
    }
  }

  // The transcript of a run that begins in `m` and ends with the stream.
  function FullTranscript(m: Machine, s: string): seq<Item> {
    Transcript(Feed(m, s, true).1)
  }

  // What a run has emitted is final: more text only appends to it.
  lemma {:induction false} FullTranscriptSplit(m: Machine, a: string, b: string)
    ensures FullTranscript(m, a + b) == Transcript(Run(m, a).1) + FullTranscript(Run(m, a).0, b)
  {
    hide Run, Transcript, Finish;
    RunConcat(m, a, b);
    var (m1, u1) := Run(m, a);
    var (m2, u2) := Run(m1, b);
    var u3 := Finish(m2).1;
    assert u1 + u2 + u3 == u1 + (u2 + u3);
    TranscriptConcat(u1, u2 + u3);
  }

  // ------------------------------------------------------- the normal mode

  lemma OccurrenceCovers(w: string, rest: string, token: string, k: nat)
    requires k <= |w| && |w| - k <= |token| && OccursAt(w + rest, token, k)
    ensures w[k..] <= token
  {
    assert (w + rest)[k..][..|w| - k] == w[k..];
    assert token[..|w| - k] == w[k..];
  }

  // No token starts at a position that was shed.
  lemma ShedSkips(w: string, rest: string, token: string)
    requires token != "" && |w| <= |token|
    ensures forall k :: 0 <= k < Shed(w, token) ==> !OccursAt(w + rest, token, k)
  {
    ShedIsLeast(w, token);
    forall k | 0 <= k < Shed(w, token) && OccursAt(w + rest, token, k)
      ensures w[k..] <= token
    {
      OccurrenceCovers(w, rest, token, k);
    }
  }

  lemma MoveOne(p: string, s: string)
    requires s != ""
    ensures p + s == p + [s[0]] + s[1..]
  {
  }

  lemma CutAhead(v: string, rest: string, k: nat)
    requires k <= |v|
    ensures (v + rest)[k..] == v[k..] + rest && v + rest == v[..k] + (v[k..] + rest)
  {
  }

  lemma IndexAtStart(token: string, rest: string)
    requires token != ""
    ensures IndexOf(token + rest, token) == Some(0)
  {
  }

  // One character of the normal mode moves text from what is ahead to what has
  // been emitted, and the open token keeps its distance.
  lemma NormalAdvance(p: string, s: string)
    requires p < OPEN_TOKEN && s != ""
    ensures var v := p + [s[0]]; var k := Shed(v, OPEN_TOKEN);
            if v == OPEN_TOKEN then k == 0 && IndexOf(p + s, OPEN_TOKEN) == Some(0)
            else
              v[k..] < OPEN_TOKEN && p + s == v[..k] + (v[k..] + s[1..]) &&
              IndexOf(p + s, OPEN_TOKEN) == Shift(IndexOf(v[k..] + s[1..], OPEN_TOKEN), k)
  {
    hide IndexOf, Shed, OccursAt;
    var v, rest, w := p + [s[0]], s[1..], p + s;
    var k := Shed(v, OPEN_TOKEN);
    MoveOne(p, s);
    CutAhead(v, rest, k);
    ShedPending(p, s[0], OPEN_TOKEN);
    ShedSkips(v, rest, OPEN_TOKEN);
    if v == OPEN_TOKEN {
      IndexAtStart(v, rest);
    } else {
      IndexOfSkip(w, OPEN_TOKEN, k);
    }
  }

  // Up to and including the next open token, the machine emits exactly the text
  // before it; without one, everything but what it holds back.
  ghost predicate EmitsText(m: Machine, p: string, s: string) {
    var w := p + s;
    match IndexOf(w, OPEN_TOKEN)
    case None =>
      var (m', us) := Run(m, s);
      m'.lexer.Normal? && m'.openedCalls == m.openedCalls && Transcript(us) + Chars(m'.lexer.pending) == Chars(w)
    case Some(i) =>
      var n := i + 3 - |p|;
      0 < n <= |s| && Run(m, s[..n]).0 == m.(lexer := InID("")) && Transcript(Run(m, s[..n]).1) == Chars(w[..i])
  }

  lemma {:induction false} RunNormal(m: Machine, p: string, s: string)
    requires m.lexer == Normal(p) && p < OPEN_TOKEN
    ensures EmitsText(m, p, s)
    decreases |s|
  {
    hide IndexOf, Transcript, Run, Chars, TextUnits, Shed, EmitsText;
    if s == "" {
      EmitsNothing(m, p);
    } else if p + [s[0]] == OPEN_TOKEN {
      EmitsTag(m, p, s);
    } else {
      var v := p + [s[0]];
      var k := Shed(v, OPEN_TOKEN);
      ShedPending(p, s[0], OPEN_TOKEN);
      RunNormal(m.(lexer := Normal(v[k..])), v[k..], s[1..]);
      EmitsOneMore(m, p, s);
    }
  }

  lemma EmitsNothing(m: Machine, p: string)
    requires m.lexer == Normal(p) && p < OPEN_TOKEN
    ensures EmitsText(m, p, "")
  {
    hide IndexOf, Chars;
    assert p + "" == p && Run(m, "") == (m, []) by { RunNothing(m, ""); }
    assert Transcript([]) == [] by { MeaningOfNone(); }
    assert [] + Chars(p) == Chars(p);
    ShortHasNone(p);
  }

  lemma EmitsTag(m: Machine, p: string, s: string)
    requires m.lexer == Normal(p) && s != "" && p + [s[0]] == OPEN_TOKEN
    ensures EmitsText(m, p, s)
  {
    hide IndexOf, Run, Chars;
    NormalAdvance(p, s);
    RunOne(m, s);
    NoChars((p + s)[..0]);
    MeaningOfNone();
  }

  lemma EmitsOneMore(m: Machine, p: string, s: string)
    requires m.lexer == Normal(p) && p < OPEN_TOKEN && s != "" && p + [s[0]] != OPEN_TOKEN
    requires var v := p + [s[0]]; var q := v[Shed(v, OPEN_TOKEN)..];
             EmitsText(m.(lexer := Normal(q)), q, s[1..])
    ensures EmitsText(m, p, s)
  {
    hide IndexOf, Transcript, Run, Chars, TextUnits, Shed;
    var v := p + [s[0]];
    var k := Shed(v, OPEN_TOKEN);
    NormalAdvance(p, s);
    var a, b := v[..k], v[k..] + s[1..];
    var m1, u1 := m.(lexer := Normal(v[k..])), TextUnits(a);
    ShedPending(p, s[0], OPEN_TOKEN);
    assert Step(m, s[0]) == (m1, u1);
    TranscriptOfText(a);
    match IndexOf(b, OPEN_TOKEN) {
      case None =>
        RunStepToEnd(m, s, m1, u1);
        CharsConcat(a, b);
      case Some(j) =>
        RunStepTo(m, s, m1, u1, j + k + 3 - |p|);
        TextUpTo(a, b, j);
        CharsConcat(a, b[..j]);
    }
  }

  lemma NoChars(t: string)
    requires t == ""
    ensures Chars(t) == []
  {
  }

  lemma RunNothing(m: Machine, s: string)
    requires s == ""
    ensures Run(m, s) == (m, [])
  {
  }

  lemma ShortHasNone(p: string)
    requires |p| < 3
    ensures IndexOf(p, OPEN_TOKEN).None?
  {
  }

  lemma RunOne(m: Machine, s: string)
    requires s != ""
    ensures Run(m, s[..1]) == Step(m, s[0])
  {
    assert s[..1][1..] == "";
    assert Step(m, s[0]).1 + [] == Step(m, s[0]).1;
  }

  // One character, then the rest: for every prefix of the text.
  lemma RunStep(m: Machine, s: string, m1: Machine, u1: seq<Unit>)
    requires s != "" && Step(m, s[0]) == (m1, u1)
    ensures forall n :: 0 < n <= |s| ==>
              Run(m, s[..n]).0 == Run(m1, s[1..][..n - 1]).0 &&
              Transcript(Run(m, s[..n]).1) == Transcript(u1) + Transcript(Run(m1, s[1..][..n - 1]).1)
    ensures Run(m, s).0 == Run(m1, s[1..]).0
    ensures Transcript(Run(m, s).1) == Transcript(u1) + Transcript(Run(m1, s[1..]).1)
  {
    hide Transcript, Step;
    forall n | 0 < n <= |s|
      ensures Run(m, s[..n]).0 == Run(m1, s[1..][..n - 1]).0
      ensures Transcript(Run(m, s[..n]).1) == Transcript(u1) + Transcript(Run(m1, s[1..][..n - 1]).1)
    {
      assert s[..n][1..] == s[1..][..n - 1];
      TranscriptConcat(u1, Run(m1, s[1..][..n - 1]).1);
    }
    TranscriptConcat(u1, Run(m1, s[1..]).1);
  }

  // --------------------------------------------------- the identifier mode

  lemma {:induction false} RunInID(m: Machine, body: string, s: string)
    requires m.lexer == InID(body) && '>' !in s
    ensures Run(m, s) == (m.(lexer := InID(body + s)), [])
    decreases |s|
  {
    if s == "" {
      assert body + s == body;
    } else {
      assert body + [s[0]] + s[1..] == body + s && s[0] in s;
      assert Step(m, s[0]) == (m.(lexer := InID(body + [s[0]])), []);
      var none: seq<Unit> := [];
      assert none + none == none;
      RunInID(m.(lexer := InID(body + [s[0]])), body + [s[0]], s[1..]);
    }
  }

  // ---------------------------------------------------- the argument mode

  lemma {:induction false} FindCloseSkip(q: Quote, w: string, n: nat)
    requires n <= |w|
    requires forall k :: 0 <= k < n ==> !OccursAt(w, CLOSE_TOKEN, k)
    ensures FindClose(q, w) == Shift(FindClose(Scan(q, w[..n]), w[n..]), n)
    decreases n
  {
    hide FindClose;
    if n == 0 {
      assert w[0..] == w && w[..0] == "";
    } else {
      OccursLater(w, CLOSE_TOKEN, n);
      FindCloseStep(q, w);
      FindCloseSkip(NextQuote(q, w[0]), w[1..], n - 1);
      assert w[1..][n - 1..] == w[n..] && w[1..][..n - 1] == w[..n][1..];
    }
  }

  lemma OccursLater(w: string, token: string, n: nat)
    requires 0 < n <= |w| && forall k :: 0 <= k < n ==> !OccursAt(w, token, k)
    ensures !(token <= w) && forall k :: 0 <= k < n - 1 ==> !OccursAt(w[1..], token, k)
  {
    assert w[0..] == w && !OccursAt(w, token, 0);
    forall k | 0 <= k < n - 1 ensures !OccursAt(w[1..], token, k) {
      assert w[1..][k..] == w[k + 1..] && !OccursAt(w, token, k + 1);
    }
  }

  lemma PendingHasNoClose(q: Quote, p: string)
    requires |p| < 4
    ensures FindClose(q, p).None?
  {
    FindCloseIsFirst(q, p);
  }

  // How many characters the argument mode collects when it reads `c`.
  function Collected(p: string, q: Quote, c: char): nat {
    if q == Outside then Shed(p + [c], CLOSE_TOKEN) else 1
  }

  // One character of the argument mode moves text from what is ahead to the
  // collected arguments, and the close token keeps its distance.
  lemma ArgsAdvance(p: string, q: Quote, s: string)
    requires p < CLOSE_TOKEN && (q != Outside ==> p == "") && s != ""
    requires !(q == Outside && p + [s[0]] == CLOSE_TOKEN)
    ensures var w, v := p + s, p + [s[0]];
            var k := Collected(p, q, s[0]);
            k <= |v| && v[k..] < CLOSE_TOKEN && w == v[..k] + (v[k..] + s[1..]) &&
            FindClose(q, w) == Shift(FindClose(Scan(q, v[..k]), v[k..] + s[1..]), k)
  {
    hide FindClose, Shed;
    var w, v := p + s, p + [s[0]];
    var k := Collected(p, q, s[0]);
    MoveOne(p, s);
    CutAhead(v, s[1..], k);
    if q == Outside {
      ShedPending(p, s[0], CLOSE_TOKEN);
      ShedSkips(v, s[1..], CLOSE_TOKEN);
      FindCloseSkip(q, w, k);
      assert w[..k] == v[..k];
    } else {
      assert v == [s[0]] && v[..1] == v && v[1..] == "" && w[1..] == s[1..];
      FindCloseStep(q, w);
    }
  }

  lemma ArgsStep(m: Machine, c: char)
    requires m.lexer.InArgs? && Valid(m)
    requires !(m.lexer.quote == Outside && m.lexer.pending + [c] == CLOSE_TOKEN)
    ensures var InArgs(id, args, p, q) := m.lexer;
            var v, k := p + [c], Collected(p, q, c);
            k <= |v| && Step(m, c) ==
              (m.(lexer := InArgs(id, args + v[..k], v[k..], Scan(q, v[..k]))), ArgsUnits(m.openedCalls, v[..k]))
  {
    var InArgs(id, args, p, q) := m.lexer;
    if q != Outside {
      assert p + [c] == [c] && [c][..1] == [c] && [c][1..] == "" == p;
    }
  }

  // Up to and including the close token, the machine collects exactly the text
  // before it and closes the call with it; without one, it goes on collecting.
  ghost predicate CollectsArgs(m: Machine, s: string)
    requires m.lexer.InArgs?
  {
    var InArgs(id, args, p, q) := m.lexer;
    var w := p + s;
    match FindClose(q, w)
    case None =>
      var (m', us) := Run(m, s);
      m'.lexer.InArgs? && m'.openedCalls == m.openedCalls && m'.lexer.toolId == id &&
      m'.lexer.args + m'.lexer.pending == args + w && Transcript(us) == []
    case Some(i) =>
      var n := i + 4 - |p|;
      0 < n <= |s| && Run(m, s[..n]).0 == m.(lexer := Normal("")) &&
      Transcript(Run(m, s[..n]).1) == [Invoked(ParsedCall(id, args + w[..i]))]
  }

  lemma {:induction false} RunInArgs(m: Machine, s: string)
    requires m.lexer.InArgs? && Valid(m)
    ensures CollectsArgs(m, s)
    decreases |s|
  {
    hide FindClose, Transcript, Run, IsValidToolTagID, Scan, Step, Collected;
    var InArgs(id, args, p, q) := m.lexer;
    if s == "" {
      assert p + s == p;
      RunNothing(m, s);
      MeaningOfNone();
      PendingHasNoClose(q, p);
    } else if q == Outside && p + [s[0]] == CLOSE_TOKEN {
      CloseCall(m, s);
    } else {
      hide CollectsArgs;
      ArgsStep(m, s[0]);
      StepValid(m, s[0]);
      RunInArgs(Step(m, s[0]).0, s[1..]);
      CollectsOneMore(m, s);
    }
  }

  lemma CollectsOneMore(m: Machine, s: string)
    requires m.lexer.InArgs? && Valid(m) && s != ""
    requires !(m.lexer.quote == Outside && m.lexer.pending + [s[0]] == CLOSE_TOKEN)
    requires Step(m, s[0]).0.lexer.InArgs? && CollectsArgs(Step(m, s[0]).0, s[1..])
    ensures CollectsArgs(m, s)
  {
    hide FindClose, Transcript, Run, IsValidToolTagID, Scan, Step, Collected;
    var InArgs(id, args, p, q) := m.lexer;
    var (m1, u1) := Step(m, s[0]);
    var v, k := p + [s[0]], Collected(p, q, s[0]);
    ArgsAdvance(p, q, s);
    ArgsStep(m, s[0]);
    TranscriptOfArgs(m.openedCalls, v[..k]);
    var a, b := v[..k], v[k..] + s[1..];
    Assoc(args, a, b);
    match FindClose(Scan(q, a), b) {
      case None =>
        RunStepToEnd(m, s, m1, u1);
      case Some(j) =>
        var n := j + k + 4 - |p|;
        RunStepTo(m, s, m1, u1, n);
        TextUpTo(a, b, j);
        Assoc(args, a, b[..j]);
    }
  }

  lemma RunStepTo(m: Machine, s: string, m1: Machine, u1: seq<Unit>, n: nat)
    requires s != "" && Step(m, s[0]) == (m1, u1) && 0 < n <= |s|
    ensures Run(m, s[..n]).0 == Run(m1, s[1..][..n - 1]).0
    ensures Transcript(Run(m, s[..n]).1) == Transcript(u1) + Transcript(Run(m1, s[1..][..n - 1]).1)
  {
    hide Step, Run, Transcript;
    RunStep(m, s, m1, u1);
  }

  lemma RunStepToEnd(m: Machine, s: string, m1: Machine, u1: seq<Unit>)
    requires s != "" && Step(m, s[0]) == (m1, u1)
    ensures Run(m, s).0 == Run(m1, s[1..]).0
    ensures Transcript(Run(m, s).1) == Transcript(u1) + Transcript(Run(m1, s[1..]).1)
  {
    hide Step, Run, Transcript;
    RunStep(m, s, m1, u1);
  }

  lemma TextUpTo(a: string, b: string, j: nat)
    requires j <= |b|
    ensures (a + b)[..|a| + j] == a + b[..j]
  {
  }

  lemma CloseCall(m: Machine, s: string)
    requires m.lexer.InArgs? && m.lexer.quote == Outside && s != ""
    requires m.lexer.pending + [s[0]] == CLOSE_TOKEN
    ensures FindClose(Outside, m.lexer.pending + s) == Some(0)
    ensures Run(m, s[..1]).0 == m.(lexer := Normal(""))
    ensures Transcript(Run(m, s[..1]).1) ==
            [Invoked(ParsedCall(m.lexer.toolId, m.lexer.args + (m.lexer.pending + s)[..0]))]
  {
    var w := m.lexer.pending + s;
    assert w == CLOSE_TOKEN + s[1..];
    RunOne(m, s);
    TranscriptOne(Step(m, s[0]).1[0]);
    assert w[..0] == "" && m.lexer.args + "" == m.lexer.args;
  }

  // ----------------------------------------------- the machine is the grammar

  lemma {:induction false} MachineReadsText(m: Machine, s: string)
    requires m.lexer == Normal("")
    ensures FullTranscript(m, s) == Meaning(Segments(s))
    decreases |s|
  {
    hide Run, Transcript, Meaning, TagSegments, Step;
    RunNormal(m, "", s);
    assert "" + s == s;
    match IndexOf(s, OPEN_TOKEN) {
      case None =>
        var (m1, u1) := Run(m, s);
        TranscriptConcat(u1, Finish(m1).1);
        FinishNormal(m1);
        MeaningOfPlain(s);
      case Some(i) =>
        var m1 := Run(m, s[..i + 3]).0;
        assert s == s[..i + 3] + s[i + 3..];
        FullTranscriptSplit(m, s[..i + 3], s[i + 3..]);
        MachineReadsTag(m1, s[i + 3..]);
        MeaningConcat(PlainSegment(s[..i]), TagSegments(s[i + 3..]));
        MeaningOfPlain(s[..i]);
    }
  }

  lemma FinishNormal(m: Machine)
    requires m.lexer.Normal?
    ensures Transcript(Finish(m).1) == Chars(m.lexer.pending)
  {
    if m.lexer.pending != "" { TranscriptOne(Finish(m).1[0]); }
  }

  lemma {:induction false} MachineReadsTag(m: Machine, body: string)
    requires m.lexer == InID("")
    ensures FullTranscript(m, body) == Meaning(TagSegments(body))
    decreases |body|
  {
    hide Run, Transcript, Meaning, CallSegments, Segments, IsValidToolTagID, Trim;
    IndexOfChar(body, '>');
    match IndexOf(body, ">") {
      case None =>
        RunInID(m, "", body);
        assert "" + body == body;
        var u := Finish(Run(m, body).0).1;
        TranscriptOne(u[0]);
        CallOrTagAlone(Dangling(body));
        assert [] + u == u;
      case Some(j) =>
        var head, tail := body[..j], body[j + 1..];
        assert body == head + (">" + tail) && (">" + tail)[..1] == ">" && ">" + tail == body[j..];
        RunInID(m, "", head);
        assert "" + head == head;
        var m1 := m.(lexer := InID(head));
        FullTranscriptSplit(m, head, ">" + tail);
        RunOne(m1, ">" + tail);
        FullTranscriptSplit(m1, ">", tail);
        assert Transcript([]) == [] by { MeaningOfNone(); }
        var (m2, u2) := Step(m1, '>');
        TranscriptOne(u2[0]);
        if IsValidToolTagID(Trim(head)) {
          ValidIDs(Trim(head));
          MachineReadsArgs(m2, head, tail);
        } else {
          MachineReadsText(m2, tail);
          Cons(Rejected(head), Segments(tail));
        }
    }
  }

  lemma CallOrTagAlone(seg: Segment)
    ensures Meaning([seg]) == SegmentMeaning(seg)
  {
    Cons(seg, []);
    assert [seg] + [] == [seg];
  }

  lemma MeaningOfNone()
    ensures Meaning([]) == [] && Transcript([]) == []
  {
  }

  lemma {:induction false} MachineReadsArgs(m: Machine, rawID: string, tail: string)
    requires m.lexer == InArgs(Trim(rawID), "", "", Outside) && m.openedCalls > 0
    requires IsValidToolTagID(Trim(rawID))
    ensures FullTranscript(m, tail) == Meaning(CallSegments(rawID, tail))
    decreases |tail|
  {
    hide Run, Transcript, Meaning, Segments, IsValidToolTagID, Trim;
    RunInArgs(m, tail);
    assert "" + tail == tail;
    match FindClose(Outside, tail) {
      case None =>
        var (m1, u1) := Run(m, tail);
        var InArgs(id, args, p, _) := m1.lexer;
        TranscriptConcat(u1, Finish(m1).1);
        TranscriptConcat(ArgsUnits(m1.openedCalls, p), [CloseUnit(m1.openedCalls, id, args + p)]);
        TranscriptOfArgs(m1.openedCalls, p);
        TranscriptOne(CloseUnit(m1.openedCalls, id, args + p));
        CallOrTagAlone(Call(rawID, tail, false));
      case Some(k) =>
        var m1 := Run(m, tail[..k + 4]).0;
        assert tail == tail[..k + 4] + tail[k + 4..];
        FullTranscriptSplit(m, tail[..k + 4], tail[k + 4..]);
        MachineReadsText(m1, tail[k + 4..]);
        Cons(Call(rawID, tail[..k], true), Segments(tail[k + 4..]));
        assert "" + tail[..k] == tail[..k];
    }
  }

  // -------------------------------------------------------------- the results

  function StreamMeaning(text: string): seq<Item> {
    FullTranscript(INITIAL, text)
  }

  // The stream machine recognises the grammar, on every text, text and calls in
  // their order.
  lemma StreamRecognisesGrammar(text: string)
    ensures StreamMeaning(text) == Meaning(Segments(text))
  {
    MachineReadsText(INITIAL, text);
  }

  // The batch parser and the stream agree unless the text ends with a half-open
  // tag; then the batch result lacks exactly that tag, the three characters of a
  // lone open token or one call without arguments.
  lemma BatchAgainstStream(text: string)
    ensures BatchMeaning(text) == StreamMeaning(text) <==> !EndsHalfOpen(Segments(text))
    ensures EndsHalfOpen(Segments(text)) ==>
              var doc := Segments(text);
              match doc[|doc| - 1]
              case Call(rawID, _, _) =>
                StreamMeaning(text) == BatchMeaning(text) + [Invoked(ParsedCall(Trim(rawID), ""))]
              case _ =>
                StreamMeaning(text) == BatchMeaning(text) + Chars(OPEN_TOKEN)
  {
    hide Segments, Meaning, StreamMeaning, Chars;
    StreamRecognisesGrammar(text);
    var doc := Segments(text);
    if EndsHalfOpen(doc) {
      var front, last := doc[..|doc| - 1], doc[|doc| - 1];
      assert doc == front + [last];
      MeaningConcat(front, [last]);
      CallOrTagAlone(last);
      TagIsSeen(last);
    }
  }

  // A concrete text on which they differ: the batch parser loses it altogether.
  lemma LoneOpenTokenIsLost()
    ensures BatchMeaning("<t:") == [] && StreamMeaning("<t:") == Chars("<t:")
  {
    var doc := [Dangling("")];
    assert doc[1..] == [] && RenderSegment(doc[0]) == "<t:" && Render(doc) == "<t:";
    ReadingIsUnique(doc);
    BatchAgainstStream("<t:");
    assert Kept(doc) == [];
    MeaningOfNone();
  }

  lemma TagIsSeen(seg: Segment)
    ensures !seg.Plain? ==> |SegmentMeaning(seg)| > 0
    ensures seg == Dangling("") ==> SegmentMeaning(seg) == Chars(OPEN_TOKEN)
  {
    assert OPEN_TOKEN + "" == OPEN_TOKEN;
  }

  // The same in the terms of the two results a caller gets.
  lemma BatchAgainstStreamResults(text: string)
    ensures var batch, stream := BatchMeaning(text), StreamMeaning(text);
            var doc := Segments(text);
            if !EndsHalfOpen(doc) then
              VisibleText(batch) == VisibleText(stream) && CallsOf(batch) == CallsOf(stream)
            else if doc[|doc| - 1].Call? then
              VisibleText(batch) == VisibleText(stream) &&
              CallsOf(stream) == CallsOf(batch) + [ParsedCall(Trim(doc[|doc| - 1].rawID), "")]
            else
              VisibleText(stream) == VisibleText(batch) + OPEN_TOKEN && CallsOf(batch) == CallsOf(stream)
  {
    hide Trim, HalfOpen, Chars, Segments, BatchMeaning;
    BatchAgainstStream(text);
    var doc := Segments(text);
    if EndsHalfOpen(doc) {
      var last := doc[|doc| - 1];
      if last.Call? {
        var call := ParsedCall(Trim(last.rawID), "");
        ProjectionsConcat(BatchMeaning(text), [Invoked(call)]);
        assert [Invoked(call)][1..] == [];
      } else {
        ProjectionsConcat(BatchMeaning(text), Chars(OPEN_TOKEN));
        VisibleChars(OPEN_TOKEN);
      }
    }
  }

  // A text ends half open exactly when it is a document, whose last tag is not
  // open, followed by `<t:` or by `<t:N>` with a valid identifier.
  lemma HalfOpenEndings(text: string)
    ensures EndsHalfOpen(Segments(text)) <==>
              exists doc: seq<Segment>, last: Segment ::
                WellFormed(doc + [last]) && HalfOpen(last) && text == Render(doc + [last])
  {
    hide Segments, Render, WellFormed, HalfOpen;
    var all := Segments(text);
    ReadingIsLossless(text);
    if EndsHalfOpen(all) {
      assert all == all[..|all| - 1] + [all[|all| - 1]];
    }
    forall doc: seq<Segment>, last: Segment |
      WellFormed(doc + [last]) && HalfOpen(last) && text == Render(doc + [last])
      ensures EndsHalfOpen(all)
    {
      ReadingIsUnique(doc + [last]);
    }
  }

  // Rendering and reading are inverse: a well-formed document is read back
  // exactly, by the stream always and by the batch parser unless its last tag is
  // half open. Closed calls and text without open tokens are well formed.
  lemma {:induction false} RoundTrip(doc: seq<Segment>)
    requires WellFormed(doc)
    ensures StreamMeaning(Render(doc)) == Meaning(doc)
    ensures BatchMeaning(Render(doc)) == Meaning(doc) <==> !EndsHalfOpen(doc)
  {
    ReadingIsUnique(doc);
    StreamRecognisesGrammar(Render(doc));
    BatchAgainstStream(Render(doc));
  }

  // An alternation of text and calls, as a sender writes it.
  predicate Sendable(doc: seq<Segment>) {
    doc == [] ||
    ( (match doc[0]
       case Plain(t) => t != "" && IndexOf(t, OPEN_TOKEN).None? && (|doc| > 1 ==> doc[1].Call?)
       case Call(id, args, closed) =>
         closed && IsValidToolTagID(id) && FindClose(Outside, args).None? && Scan(Outside, args) == Outside
       case _ => false) &&
      Sendable(doc[1..]))
  }

  lemma {:induction false} SendableIsWellFormed(doc: seq<Segment>)
    requires Sendable(doc)
    ensures WellFormed(doc) && !EndsHalfOpen(doc)
  {
    if doc != [] {
      assert doc[1..] == [] || doc[|doc| - 1] == doc[1..][|doc| - 2];
      SendableIsWellFormed(doc[1..]);
      if doc[0].Call? { ValidIDs(doc[0].rawID); }
    }
  }

  // What a sender writes, both parsers return: the text and the calls.
  lemma {:induction false} SentIsReceived(doc: seq<Segment>)
    requires Sendable(doc)
    ensures BatchMeaning(Render(doc)) == StreamMeaning(Render(doc)) == Meaning(doc)
  {
    SendableIsWellFormed(doc);
    RoundTrip(doc);
  }

  // -------------------------------------------------------------- chunking

  function Flatten(chunks: seq<string>): string {
    if chunks == [] then "" else chunks[0] + Flatten(chunks[1..])
  }

  // The calls of the consumer, one per chunk, and a last one that finalizes; the
  // joined units each of them returns.
  function FeedAll(m: Machine, chunks: seq<string>): (Machine, seq<seq<Unit>>)
    decreases |chunks|
  {
    if chunks == [] then
      var (m', us) := Feed(m, "", true);
      (m', [Joined(us)])
    else
      var (m1, us) := Feed(m, chunks[0], false);
      var (m2, rest) := FeedAll(m1, chunks[1..]);
      (m2, [Joined(us)] + rest)
  }

  function Concat(returned: seq<seq<Unit>>): seq<Unit> {
    if returned == [] then [] else returned[0] + Concat(returned[1..])
  }

  // However the text is cut, the stream ends in the same state, and the units of
  // all calls, joined, are those of a single call with the whole text.
  lemma {:induction false} ChunkInvariance(m: Machine, chunks: seq<string>, acc: seq<Unit>)
    ensures FeedAll(m, chunks).0 == Feed(m, Flatten(chunks), true).0
    ensures PushAll(acc, Concat(FeedAll(m, chunks).1)) == PushAll(acc, Feed(m, Flatten(chunks), true).1)
    decreases |chunks|
  {
    hide Joined, PushAll, Run, Finish;
    if chunks == [] {
      var us := Feed(m, "", true).1;
      JoinedInParts(acc, us);
      assert [Joined(us)][1..] == [] && Joined(us) + [] == Joined(us);
    } else {
      var rest := Flatten(chunks[1..]);
      var (m1, us) := Feed(m, chunks[0], false);
      var more := FeedAll(m1, chunks[1..]).1;
      ChunkInvariance(m1, chunks[1..], PushAll(acc, us));
      JoinedInParts(acc, us);
      PushAllConcat(acc, Joined(us), Concat(more));
      assert ([Joined(us)] + more)[1..] == more;
      RunConcat(m, chunks[0], rest);
      var (m2, u2) := Run(m1, rest);
      var u3 := Finish(m2).1;
      assert us + u2 + u3 == us + (u2 + u3);
      PushAllConcat(acc, us, u2 + u3);
    }
  }

  // Over the calls of the consumer, from any state on, the units they return
  // follow the protocol without a break: a call stays open across chunks.
  lemma {:induction false} StreamFollowsProtocol(m: Machine, chunks: seq<string>)
    ensures Follow(PhaseOf(m), Concat(FeedAll(m, chunks).1)) == PhaseOf(FeedAll(m, chunks).0)
    decreases |chunks|
  {
    hide Joined, Run, Finish, Follow, PhaseOf;
    if chunks == [] {
      ReturnedUnitsFollow(m, "", true);
      var us := Joined(Feed(m, "", true).1);
      assert FeedAll(m, chunks).1 == [us] && Concat([us]) == us by { assert [us][1..] == [] && us + [] == us; }
    } else {
      var (m1, us) := Feed(m, chunks[0], false);
      var more := FeedAll(m1, chunks[1..]).1;
      ReturnedUnitsFollow(m, chunks[0], false);
      StreamFollowsProtocol(m1, chunks[1..]);
      assert ([Joined(us)] + more)[1..] == more;
      FollowConcat(PhaseOf(m), Joined(us), Concat(more));
    }
  }

  // The calls opened so far.
  function Opened(phase: Phase): nat {
    match phase
    case Between(done) => done
    case During(n, _, _) => n
    case Broken => 0
  }

  function OpenNumbers(us: seq<Unit>): seq<nat> {
    if us == [] then [] else (if us[0].OpenUnit? then [us[0].callSeq] else []) + OpenNumbers(us[1..])
  }

  // Under the protocol, calls are numbered one after the other.
  lemma {:induction false} OpensAreNumbered(phase: Phase, us: seq<Unit>)
    requires phase != Broken && Follow(phase, us) != Broken
    ensures Opened(phase) <= Opened(Follow(phase, us))
    ensures |OpenNumbers(us)| == Opened(Follow(phase, us)) - Opened(phase)
    ensures forall i :: 0 <= i < |OpenNumbers(us)| ==> OpenNumbers(us)[i] == Opened(phase) + 1 + i
    decreases |us|
  {
    if us != [] {
      if Advance(phase, us[0]) == Broken { FollowBroken(us[1..]); }
      OpensAreNumbered(Advance(phase, us[0]), us[1..]);
    }
  }

  // A whole stream opens calls 1, 2, 3 and so on, and leaves none open.
  lemma StreamNumbersCalls(chunks: seq<string>)
    ensures var numbers := OpenNumbers(Concat(FeedAll(INITIAL, chunks).1));
            && |numbers| == FeedAll(INITIAL, chunks).0.openedCalls
            && (forall i :: 0 <= i < |numbers| ==> numbers[i] == i + 1)
            && FeedAll(INITIAL, chunks).0.lexer == Normal("")
  {
    var (m, returned) := FeedAll(INITIAL, chunks);
    StreamFollowsProtocol(INITIAL, chunks);
    ChunkInvariance(INITIAL, chunks, []);
    OpensAreNumbered(Between(0), Concat(returned));
  }

  // The transcript is not affected by joining either, so the visible text and the
  // calls of a chunked stream are those of the grammar.
  lemma PushTranscript(acc: seq<Unit>, u: Unit)
    ensures Transcript(Push(acc, u)) == Transcript(acc) + UnitMeaning(u)
  {
    hide Transcript, Chars;
    if u.TextUnit? && u.text == "" {
      NoChars(u.text);
    } else if acc != [] && Joins(acc[|acc| - 1], u) {
      var front, l := acc[..|acc| - 1], acc[|acc| - 1];
      assert acc == front + [l];
      TranscriptConcat(front, [l]);
      TranscriptConcat(front, [JoinUnits(l, u)]);
      TranscriptOne(l);
      TranscriptOne(JoinUnits(l, u));
      assert UnitMeaning(JoinUnits(l, u)) == UnitMeaning(l) + UnitMeaning(u) by {
        if l.TextUnit? { CharsConcat(l.text, u.text); }
      }
      assert Transcript(front) + UnitMeaning(l) + UnitMeaning(u) ==
             Transcript(front) + (UnitMeaning(l) + UnitMeaning(u));
    } else {
      TranscriptConcat(acc, [u]);
      TranscriptOne(u);
    }
  }

  lemma {:induction false} PushAllTranscript(acc: seq<Unit>, us: seq<Unit>)
    ensures Transcript(PushAll(acc, us)) == Transcript(acc) + Transcript(us)
    decreases |us|
  {
    if us != [] {
      PushTranscript(acc, us[0]);
      PushAllTranscript(Push(acc, us[0]), us[1..]);
    }
  }

  lemma ChunkedStreamRecognisesGrammar(chunks: seq<string>)
    ensures Transcript(Concat(FeedAll(INITIAL, chunks).1)) == Meaning(Segments(Flatten(chunks)))
  {
    var text := Flatten(chunks);
    var returned := Concat(FeedAll(INITIAL, chunks).1);
    ChunkInvariance(INITIAL, chunks, []);
    PushAllTranscript([], returned);
    assert [] + Transcript(returned) == Transcript(returned);
    assert [] + StreamMeaning(text) == StreamMeaning(text);
    MeaningOfNone();
    PushAllTranscript([], Feed(INITIAL, text, true).1);
    StreamRecognisesGrammar(text);
  }

  // The calls of the consumer so far, none of them the last.
  function FeedSome(m: Machine, chunks: seq<string>): (Machine, seq<seq<Unit>>)
    decreases |chunks|
  {
    if chunks == [] then (m, [])
    else
      var (m1, us) := Feed(m, chunks[0], false);
      var (m2, rest) := FeedSome(m1, chunks[1..]);
      (m2, [Joined(us)] + rest)
  }

  lemma {:induction false} FeedSomeRuns(m: Machine, chunks: seq<string>)
    requires Valid(m)
    ensures FeedSome(m, chunks).0 == Run(m, Flatten(chunks)).0 && Valid(FeedSome(m, chunks).0)
    ensures Transcript(Concat(FeedSome(m, chunks).1)) == Transcript(Run(m, Flatten(chunks)).1)
    decreases |chunks|
  {
    hide Joined, Transcript, Run, Valid;
    if chunks == [] {
      RunNothing(m, "");
      MeaningOfNone();
    } else {
      var (m1, us) := Feed(m, chunks[0], false);
      var more := FeedSome(m1, chunks[1..]).1;
      FeedValid(m, chunks[0], false);
      FeedSomeRuns(m1, chunks[1..]);
      assert ([Joined(us)] + more)[1..] == more;
      RunConcat(m, chunks[0], Flatten(chunks[1..]));
      TranscriptConcat(Joined(us), Concat(more));
      TranscriptConcat(us, Run(m1, Flatten(chunks[1..])).1);
      JoinedTranscript(us);
    }
  }

  lemma JoinedTranscript(us: seq<Unit>)
    ensures Transcript(Joined(us)) == Transcript(us)
  {
    PushAllTranscript([], us);
    assert [] + Transcript(us) == Transcript(us);
  }

  // Nothing returned is ever taken back: whatever comes after these chunks, what
  // the calls so far returned is a prefix of what the grammar says about the whole
  // text, and what the consumer holds back in normal mode is at most two characters.
  lemma NothingIsTakenBack(chunks: seq<string>, more: string)
    ensures var (m, returned) := FeedSome(INITIAL, chunks);
            && Transcript(Concat(returned)) <= Meaning(Segments(Flatten(chunks) + more))
            && (m.lexer.Normal? ==> |m.lexer.pending| <= 2)
  {
    var text := Flatten(chunks);
    FeedSomeRuns(INITIAL, chunks);
    FullTranscriptSplit(INITIAL, text, more);
    StreamRecognisesGrammar(text + more);
  }

  // ------------------------------------------------------- events and units

  function WithoutText(us: seq<Unit>): seq<Unit> {
    if us == [] then [] else (if us[0].TextUnit? then [] else [us[0]]) + WithoutText(us[1..])
  }

  lemma {:induction false} WithoutTextConcat(a: seq<Unit>, b: seq<Unit>)
    ensures WithoutText(a + b) == WithoutText(a) + WithoutText(b)
  {
    if a == [] {
      assert a + b == b;
    } else {
      assert (a + b)[1..] == a[1..] + b;
      WithoutTextConcat(a[1..], b);
    }
  }

  lemma WithoutTextOne(u: Unit)
    ensures WithoutText([u]) == if u.TextUnit? then [] else [u]
  {
    assert [u][1..] == [];
  }

  lemma PushWithoutText(acc: seq<Unit>, u: Unit)
    requires u.ArgsUnit? && acc != [] ==> !acc[|acc| - 1].TextUnit?
    ensures WithoutText(Push(acc, u)) == PushAll(WithoutText(acc), WithoutText([u]))
  {
    hide WithoutText, PushAll;
    WithoutTextOne(u);
    if acc == [] {
      WithoutTextNone();
      PushAllNone([]);
      PushAllOne([], u);
      assert [] + [u] == [u];
    } else if Joins(acc[|acc| - 1], u) {
      PushWithoutTextJoins(acc[..|acc| - 1], acc[|acc| - 1], u);
      assert acc == acc[..|acc| - 1] + [acc[|acc| - 1]];
    } else {
      PushAllNone(WithoutText(acc));
      PushAllOne(WithoutText(acc), u);
      WithoutTextConcat(acc, [u]);
      if u.ArgsUnit? {
        WithoutTextConcat(acc[..|acc| - 1], [acc[|acc| - 1]]);
        WithoutTextOne(acc[|acc| - 1]);
        assert acc == acc[..|acc| - 1] + [acc[|acc| - 1]];
      }
      assert WithoutText(acc) + [] == WithoutText(acc);
    }
  }

  lemma PushWithoutTextJoins(front: seq<Unit>, l: Unit, u: Unit)
    requires Joins(l, u)
    ensures WithoutText(Push(front + [l], u)) == PushAll(WithoutText(front + [l]), WithoutText([u]))
  {
    hide WithoutText, PushAll;
    var kept := WithoutText(front);
    WithoutTextOne(u);
    WithoutTextOne(l);
    WithoutTextOne(JoinUnits(l, u));
    WithoutTextConcat(front, [l]);
    WithoutTextConcat(front, [JoinUnits(l, u)]);
    assert (front + [l])[..|front|] == front;
    if u.TextUnit? {
      PushAllNone(kept);
      assert kept + [] == kept;
    } else {
      PushAllOne(kept + [l], u);
      assert (kept + [l])[..|kept|] == kept;
    }
  }

  lemma WithoutTextNone()
    ensures WithoutText([]) == []
  {
  }

  lemma PushAllNone(acc: seq<Unit>)
    ensures PushAll(acc, []) == acc
  {
  }

  lemma {:induction false} EventsByPushing(phase: Phase, acc: seq<Unit>, us: seq<Unit>)
    requires Follow(phase, us) != Broken
    requires phase.During? && acc != [] ==> !acc[|acc| - 1].TextUnit?
    ensures WithoutText(PushAll(acc, us)) == PushAll(WithoutText(acc), WithoutText(us))
    decreases |us|
  {
    if us != [] {
      var u := us[0];
      if Advance(phase, u) == Broken { FollowBroken(us[1..]); }
      assert us == [u] + us[1..];
      PushWithoutText(acc, u);
      EventsByPushing(Advance(phase, u), Push(acc, u), us[1..]);
      WithoutTextConcat([u], us[1..]);
      PushAllConcat(WithoutText(acc), WithoutText([u]), WithoutText(us[1..]));
    }
  }

  // Per call of the consumer, the events it returns, joined on their own, are the
  // units it returns, without the text.
  lemma EventsAreUnitsWithoutText(m: Machine, chunk: string, finalize: bool)
    ensures var us := Feed(m, chunk, finalize).1;
            Joined(WithoutText(us)) == WithoutText(Joined(us))
  {
    FeedFollows(m, chunk, finalize);
    assert WithoutText([]) == [];
    EventsByPushing(PhaseOf(m), [], Feed(m, chunk, finalize).1);
  }

  // The events returned by the calls of the consumer.
  function EventsOfAll(m: Machine, chunks: seq<string>): seq<seq<Unit>>
    decreases |chunks|
  {
    if chunks == [] then [Joined(WithoutText(Feed(m, "", true).1))]
    else
      var (m1, us) := Feed(m, chunks[0], false);
      [Joined(WithoutText(us))] + EventsOfAll(m1, chunks[1..])
  }

  lemma {:induction false} AllEventsAreUnits(m: Machine, chunks: seq<string>)
    ensures Concat(EventsOfAll(m, chunks)) == WithoutText(Concat(FeedAll(m, chunks).1))
    decreases |chunks|
  {
    hide Joined, Feed, WithoutText;
    if chunks == [] {
      var us := Feed(m, "", true).1;
      EventsAreUnitsWithoutText(m, "", true);
      ConcatOne(Joined(WithoutText(us)));
      ConcatOne(Joined(us));
    } else {
      var (m1, us) := Feed(m, chunks[0], false);
      var events, units := EventsOfAll(m1, chunks[1..]), FeedAll(m1, chunks[1..]).1;
      EventsAreUnitsWithoutText(m, chunks[0], false);
      AllEventsAreUnits(m1, chunks[1..]);
      assert ([Joined(WithoutText(us))] + events)[1..] == events && ([Joined(us)] + units)[1..] == units;
      WithoutTextConcat(Joined(us), Concat(units));
    }
  }

  lemma ConcatOne(us: seq<Unit>)
    ensures Concat([us]) == us
  {
    assert [us][1..] == [] && us + [] == us;
  }

  // However the text is cut, the events of all calls, joined, are those of a single
  // call with the whole text.
  lemma EventsChunkInvariance(m: Machine, chunks: seq<string>)
    ensures Joined(Concat(EventsOfAll(m, chunks))) == Joined(WithoutText(Feed(m, Flatten(chunks), true).1))
  {
    hide Follow, Feed, FeedAll, EventsOfAll;
    var returned := Concat(FeedAll(m, chunks).1);
    AllEventsAreUnits(m, chunks);
    StreamFollowsProtocol(m, chunks);
    WithoutTextNone();
    EventsByPushing(PhaseOf(m), [], returned);
    ChunkInvariance(m, chunks, []);
    EventsAreUnitsWithoutText(m, Flatten(chunks), true);
  }
}
