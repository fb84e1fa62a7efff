// The streaming consumer (apps/web/lib/toolTagText.stream.ts): an object that is
// updated in place, character by character, and an output it pushes to. Each
// method is one transition of the machine in ToolTagMachine.
module ToolTagStream {
  import opened Text
  import opened ToolTagSyntax
  import opened ToolTagGrammar
  import opened ToolTagMachine
  import opened ToolTagTheorems
  import opened ToolTagParse

  class ToolTagStreamOutput {
    var events: seq<Unit>
    var textParts: seq<string>
    var units: seq<Unit>
    ghost var emitted: seq<Unit>   // everything appended, before joining

    constructor ()
      ensures Valid() && emitted == []
    {
      events, textParts, units, emitted := [], [], [], [];
    }

    ghost predicate Valid()
      reads this
    {
      && units == Joined(emitted)
      && events == Joined(WithoutText(emitted))
      && Join(textParts) == VisibleText(Transcript(emitted))
    }

    method AppendTextPart(text: string)
      requires Valid()
      modifies this
      ensures Valid() && emitted == old(emitted) + [TextUnit(text)]
    {
      hide Joined, WithoutText, Transcript, VisibleText, Join;
      ghost var u := TextUnit(text);
      Appended(emitted, u);
      emitted := emitted + [u];
      if text == "" {
        return;
      }
      JoinAppend(textParts, text);
      textParts := textParts + [text];
      if units != [] && units[|units| - 1].TextUnit? {
        units := units[..|units| - 1] + [TextUnit(units[|units| - 1].text + text)];
        return;
      }
      units := units + [TextUnit(text)];
    }

    method AppendToolStreamEvent(event: Unit)
      requires Valid() && !event.TextUnit?
      modifies this
      ensures Valid() && emitted == old(emitted) + [event]
    {
      Appended(emitted, event);
      emitted := emitted + [event];
      if !event.ArgsUnit? {
        events := events + [event];
        units := units + [event];
        return;
      }
      events := AppendArgs(events, event);
      units := AppendArgs(units, event);
    }
  }

  // Joining an arguments event to the last one of the same call.
  function AppendArgs(us: seq<Unit>, event: Unit): (r: seq<Unit>)
    requires event.ArgsUnit?
    ensures r == Push(us, event)
  {
    if us != [] && us[|us| - 1].ArgsUnit? && us[|us| - 1].callSeq == event.callSeq then
      us[..|us| - 1] + [ArgsUnit(event.callSeq, us[|us| - 1].argsDelta + event.argsDelta)]
    else
      us + [event]
  }

  lemma Appended(emitted: seq<Unit>, u: Unit)
    ensures Joined(emitted + [u]) == Push(Joined(emitted), u)
    ensures Joined(WithoutText(emitted + [u])) ==
              if u.TextUnit? then Joined(WithoutText(emitted)) else Push(Joined(WithoutText(emitted)), u)
    ensures VisibleText(Transcript(emitted + [u])) ==
              VisibleText(Transcript(emitted)) + if u.TextUnit? then u.text else ""
  {
    PushAllConcat([], emitted, [u]);
    PushAllOne(Joined(emitted), u);
    WithoutTextConcat(emitted, [u]);
    WithoutTextOne(u);
    if u.TextUnit? {
      assert WithoutText(emitted) + [] == WithoutText(emitted);
      VisibleChars(u.text);
    } else {
      PushAllConcat([], WithoutText(emitted), [u]);
      PushAllOne(Joined(WithoutText(emitted)), u);
      NoVisible(u);
    }
    TranscriptConcat(emitted, [u]);
    TranscriptOne(u);
    ProjectionsConcat(Transcript(emitted), UnitMeaning(u));
  }

  lemma NoVisible(u: Unit)
    requires !u.TextUnit?
    ensures VisibleText(UnitMeaning(u)) == ""
  {
    if u.CloseUnit? { assert UnitMeaning(u)[1..] == []; }
  }

  // The text of a tag whose identifier is still being read.
  ghost predicate RawTag(raw: string, id: string) {
    raw == OPEN_TOKEN + id
  }

  lemma RawTagGrows(raw: string, id: string, c: char)
    requires RawTag(raw, id)
    ensures RawTag(raw + [c], id + [c]) && raw + ">" == OPEN_TOKEN + id + ">"
  {
    Assoc(OPEN_TOKEN, id, [c]);
  }

  class ToolTagStreamState {
    var mode: Mode
    var normalCandidate: string
    var rawTagPrefix: string
    var currentToolId: string
    var closeCandidate: string
    var argsBuffer: string
    var inString: bool
    var escaped: bool
    var currentCallSeq: nat
    var nextCallSeq: nat

    constructor ()
      ensures Valid() && View() == INITIAL
    {
      mode, normalCandidate, rawTagPrefix, currentToolId := NormalMode, "", "", "";
      closeCandidate, argsBuffer, inString, escaped := "", "", false, false;
      currentCallSeq, nextCallSeq := 0, 1;
    }

    // Whatever a mode does not use is reset, so equal views are equal states.
    ghost predicate Valid()
      reads this
    {
      && nextCallSeq > 0
      && (escaped ==> inString)
      && (mode != NormalMode ==> normalCandidate == "")
      && (mode == CaptureID ==> RawTag(rawTagPrefix, currentToolId))
      && (mode != CaptureID ==> rawTagPrefix == "")
      && (mode == NormalMode ==> currentToolId == "")
      && (mode == CaptureArgs ==> currentCallSeq == nextCallSeq - 1)
      && (mode != CaptureArgs ==> currentCallSeq == 0 && closeCandidate == argsBuffer == "" && !inString && !escaped)
      && ToolTagMachine.Valid(View())
    }

    ghost function View(): Machine
      reads this
    {
      Machine(
        match mode
        case NormalMode => Normal(normalCandidate)
        case CaptureID => InID(currentToolId)
        case CaptureArgs => InArgs(currentToolId, argsBuffer, closeCandidate, QuoteOf(inString, escaped)),
        if nextCallSeq > 0 then nextCallSeq - 1 else 0)
    }

    method ConsumeNormalChar(c: char, output: ToolTagStreamOutput)
      requires Valid() && output.Valid() && mode == NormalMode
      modifies this, output
      ensures Valid() && output.Valid()
      ensures View() == Step(old(View()), c).0
      ensures output.emitted == old(output.emitted) + Step(old(View()), c).1
    {
      StepOfNormal(View(), c);
      hide ToolTagStreamOutput.Valid, ToolTagMachine.Valid, Step, Shed, TextUnits, RawTag;
      normalCandidate := normalCandidate + [c];
      ShedNormalCandidate(output);
      if normalCandidate == OPEN_TOKEN {
        EnterCaptureID();
      }
    }

    method EnterCaptureID()
      modifies this`mode, this`rawTagPrefix, this`currentToolId, this`normalCandidate
      ensures mode == CaptureID && normalCandidate == "" && currentToolId == "" && RawTag(rawTagPrefix, currentToolId)
    {
      mode := CaptureID;
      rawTagPrefix := OPEN_TOKEN;
      currentToolId := "";
      normalCandidate := "";
      assert OPEN_TOKEN + "" == OPEN_TOKEN;
    }

    // The loop: text is given up until the rest can start an open token.
    method ShedNormalCandidate(output: ToolTagStreamOutput)
      requires output.Valid()
      modifies this`normalCandidate, output
      ensures output.Valid()
      ensures var w := old(normalCandidate); var n := Shed(w, OPEN_TOKEN);
              normalCandidate == w[n..] && output.emitted == old(output.emitted) + TextUnits(w[..n])
    {
      hide ToolTagStreamOutput.Valid, Shed, TextUnits;
      ghost var w, before := normalCandidate, output.emitted;
      ghost var k := 0;
      TextUnitsNone(w);
      while |normalCandidate| > 0
        invariant 0 <= k <= Shed(w, OPEN_TOKEN) && normalCandidate == w[k..]
        invariant output.Valid() && output.emitted == before + TextUnits(w[..k])
      {
        ShedNow(w, OPEN_TOKEN, k);
        if normalCandidate <= OPEN_TOKEN {
          return;
        }
        output.AppendTextPart(normalCandidate[..1]);
        TextUnitsSnoc(before, w, k);
        normalCandidate := normalCandidate[1..];
        k := k + 1;
      }
      ShedNow(w, OPEN_TOKEN, k);
    }

    method ConsumeCaptureIDChar(c: char, output: ToolTagStreamOutput)
      requires Valid() && output.Valid() && mode == CaptureID
      modifies this, output
      ensures Valid() && output.Valid()
      ensures View() == Step(old(View()), c).0
      ensures output.emitted == old(output.emitted) + Step(old(View()), c).1
    {
      StepOfID(View(), c);
      RawTagGrows(rawTagPrefix, currentToolId, c);
      hide ToolTagStreamOutput.Valid, ToolTagMachine.Valid, Step, IsValidToolTagID, Trim, RawTag;
      rawTagPrefix := rawTagPrefix + [c];
      if c != '>' {
        currentToolId := currentToolId + [c];
        return;
      }
      var toolID := Trim(currentToolId);
      if !IsValidToolTagID(toolID) {
        output.AppendTextPart(rawTagPrefix);
        ResetToNormal();
        return;
      }
      OpenCall(toolID, output);
    }

    method OpenCall(toolID: string, output: ToolTagStreamOutput)
      requires output.Valid() && nextCallSeq > 0 && normalCandidate == "" && IsValidToolTagID(toolID)
      modifies this, output
      ensures Valid() && output.Valid()
      ensures View() == Machine(InArgs(toolID, "", "", Outside), old(nextCallSeq))
      ensures output.emitted == old(output.emitted) + [OpenUnit(old(nextCallSeq), toolID)]
    {
      hide ToolTagStreamOutput.Valid, IsValidToolTagID, RawTag;
      mode := CaptureArgs;
      currentToolId := toolID;
      argsBuffer := "";
      closeCandidate := "";
      inString := false;
      escaped := false;
      currentCallSeq := nextCallSeq;
      nextCallSeq := nextCallSeq + 1;
      rawTagPrefix := "";
      output.AppendToolStreamEvent(OpenUnit(currentCallSeq, currentToolId));
    }

    method ConsumeCaptureArgsChar(c: char, output: ToolTagStreamOutput)
      requires Valid() && output.Valid() && mode == CaptureArgs
      modifies this, output
      ensures Valid() && output.Valid()
      ensures View() == Step(old(View()), c).0
      ensures output.emitted == old(output.emitted) + Step(old(View()), c).1
    {
      StepOfArgs(View(), c);
      hide ToolTagStreamOutput.Valid, ToolTagMachine.Valid, Step, Shed, Scan, ArgsUnits, RawTag;
      if !inString {
        closeCandidate := closeCandidate + [c];
        if closeCandidate <= CLOSE_TOKEN {
          if closeCandidate == CLOSE_TOKEN {
            output.AppendToolStreamEvent(CloseUnit(currentCallSeq, currentToolId, argsBuffer));
            ResetToNormal();
          }
          return;
        }
        FlushCloseCandidateAsArgs(output);
        return;
      }
      AppendArgsChar(c, output);
    }

    method FlushCloseCandidateAsArgs(output: ToolTagStreamOutput)
      requires output.Valid() && !inString && !escaped
      modifies this`closeCandidate, this`argsBuffer, this`inString, this`escaped, output
      ensures output.Valid() && (escaped ==> inString)
      ensures var w := old(closeCandidate); var n := Shed(w, CLOSE_TOKEN);
              closeCandidate == w[n..] && argsBuffer == old(argsBuffer) + w[..n] &&
              QuoteOf(inString, escaped) == Scan(Outside, w[..n]) &&
              output.emitted == old(output.emitted) + ArgsUnits(currentCallSeq, w[..n])
    {
      hide ToolTagStreamOutput.Valid;
      ghost var w, before, args := closeCandidate, output.emitted, argsBuffer;
      ghost var k := 0;
      while |closeCandidate| > 0 && !(closeCandidate <= CLOSE_TOKEN)
        invariant 0 <= k <= Shed(w, CLOSE_TOKEN) && closeCandidate == w[k..] && argsBuffer == args + w[..k]
        invariant output.Valid() && output.emitted == before + ArgsUnits(currentCallSeq, w[..k])
        invariant (escaped ==> inString) && QuoteOf(inString, escaped) == Scan(Outside, w[..k])
      {
        ShedNow(w, CLOSE_TOKEN, k);
        var nextChar := closeCandidate[0];
        closeCandidate := closeCandidate[1..];
        AppendArgsChar(nextChar, output);
        assert w[..k + 1] == w[..k] + [nextChar];
        assert ArgsUnits(currentCallSeq, w[..k + 1]) ==
               ArgsUnits(currentCallSeq, w[..k]) + [ArgsUnit(currentCallSeq, [nextChar])];
        ScanConcat(Outside, w[..k], [nextChar]);
        ScanOne(Scan(Outside, w[..k]), nextChar);
        k := k + 1;
      }
      ShedNow(w, CLOSE_TOKEN, k);
    }

    method AppendArgsChar(c: char, output: ToolTagStreamOutput)
      requires output.Valid() && (escaped ==> inString)
      modifies this`argsBuffer, this`inString, this`escaped, output
      ensures output.Valid() && (escaped ==> inString)
      ensures argsBuffer == old(argsBuffer) + [c]
      ensures QuoteOf(inString, escaped) == NextQuote(old(QuoteOf(inString, escaped)), c)
      ensures output.emitted == old(output.emitted) + [ArgsUnit(currentCallSeq, [c])]
    {
      argsBuffer := argsBuffer + [c];
      output.AppendToolStreamEvent(ArgsUnit(currentCallSeq, [c]));
      if inString {
        if escaped {
          escaped := false;
          return;
        }
        if c == '\\' {
          escaped := true;
          return;
        }
        if c == '"' {
          inString := false;
        }
        return;
      }
      if c == '"' {
        inString := true;
      }
    }

    method FinalizeToolTagStreamState(output: ToolTagStreamOutput)
      requires Valid() && output.Valid()
      modifies this, output
      ensures Valid() && output.Valid()
      ensures View() == Finish(old(View())).0
      ensures output.emitted == old(output.emitted) + Finish(old(View())).1
    {
      hide ToolTagStreamOutput.Valid, IsValidToolTagID;
      if mode == NormalMode {
        if normalCandidate != "" {
          output.AppendTextPart(normalCandidate);
          normalCandidate := "";
        }
        return;
      }
      if mode == CaptureID {
        output.AppendTextPart(rawTagPrefix);
        ResetToNormal();
        return;
      }
      ghost var w, before, args := closeCandidate, output.emitted, argsBuffer;
      if closeCandidate != "" {
        for i := 0 to |closeCandidate|
          invariant closeCandidate == w && argsBuffer == args + w[..i] && (escaped ==> inString)
          invariant output.Valid() && output.emitted == before + ArgsUnits(currentCallSeq, w[..i])
          invariant unchanged(`mode) && unchanged(`normalCandidate) && unchanged(`rawTagPrefix)
          invariant unchanged(`currentToolId) && unchanged(`currentCallSeq) && unchanged(`nextCallSeq)
        {
          AppendArgsChar(closeCandidate[i], output);
          assert w[..i + 1] == w[..i] + [w[i]];
          assert ArgsUnits(currentCallSeq, w[..i + 1]) ==
                 ArgsUnits(currentCallSeq, w[..i]) + [ArgsUnit(currentCallSeq, [w[i]])];
        }
        closeCandidate := "";
      }
      assert w[..|w|] == w && args + "" == args;
      output.AppendToolStreamEvent(CloseUnit(currentCallSeq, currentToolId, argsBuffer));
      ResetToNormal();
    }

    method ResetToNormal()
      requires nextCallSeq > 0
      modifies this
      ensures Valid() && View() == Machine(Normal(""), old(nextCallSeq) - 1)
    {
      mode := NormalMode;
      normalCandidate := "";
      rawTagPrefix := "";
      currentToolId := "";
      closeCandidate := "";
      argsBuffer := "";
      inString := false;
      escaped := false;
      currentCallSeq := 0;
    }

    method ConsumeToolTagStreamChunk(chunk: string, finalize: bool)
      returns (visibleText: string, events: seq<Unit>, units: seq<Unit>)
      requires Valid()
      modifies this
      ensures Valid()
      ensures View() == Feed(old(View()), chunk, finalize).0
      ensures units == Joined(Feed(old(View()), chunk, finalize).1)
      ensures events == Joined(WithoutText(Feed(old(View()), chunk, finalize).1))
      ensures visibleText == VisibleText(Transcript(Feed(old(View()), chunk, finalize).1))
    {
      if chunk == "" && !finalize {
        return "", [], [];
      }
      hide ToolTagMachine.Valid, Step, Transcript, RawTag;
      var output := new ToolTagStreamOutput();
      ghost var start := View();
      assert chunk[..0] == "" && chunk[..|chunk|] == chunk;
      for i := 0 to |chunk|
        invariant Valid() && output.Valid() && fresh(output)
        invariant (View(), output.emitted) == Run(start, chunk[..i])
      {
        RunSnoc(start, chunk, i);
        ghost var here, emitted := View(), output.emitted;
        if mode == NormalMode {
          ConsumeNormalChar(chunk[i], output);
        } else if mode == CaptureID {
          ConsumeCaptureIDChar(chunk[i], output);
        } else {
          ConsumeCaptureArgsChar(chunk[i], output);
        }
        assert View() == Step(here, chunk[i]).0 && output.emitted == emitted + Step(here, chunk[i]).1;
      }
      if finalize {
        FinalizeToolTagStreamState(output);
      }
      return Join(output.textParts), output.events, output.units;
    }
  }

  lemma RunSnoc(m: Machine, s: string, i: nat)
    requires i < |s|
    ensures var (m1, u1) := Run(m, s[..i]);
            Run(m, s[..i + 1]) == (Step(m1, s[i]).0, u1 + Step(m1, s[i]).1)
  {
    hide Step;
    assert s[..i + 1] == s[..i] + [s[i]];
    RunConcat(m, s[..i], [s[i]]);
    assert [s[i]][..1] == [s[i]];
    RunOne(Run(m, s[..i]).0, [s[i]]);
  }

  lemma TextUnitsNone(w: string)
    ensures w[0..] == w && TextUnits(w[..0]) == []
  {
  }

  lemma TextUnitsSnoc(before: seq<Unit>, w: string, k: nat)
    requires k < |w|
    ensures before + TextUnits(w[..k]) + [TextUnit(w[k..][..1])] == before + TextUnits(w[..k + 1])
    ensures w[k..][1..] == w[k + 1..]
  {
    assert w[k..][..1] == [w[k]];
    assert TextUnits(w[..k + 1]) == TextUnits(w[..k]) + [TextUnit([w[k]])];
    assert before + TextUnits(w[..k]) + [TextUnit(w[k..][..1])] ==
           before + (TextUnits(w[..k]) + [TextUnit(w[k..][..1])]);
  }

  lemma StepOfNormal(m: Machine, c: char)
    requires ToolTagMachine.Valid(m) && m.lexer.Normal?
    ensures var w := m.lexer.pending + [c]; var k := Shed(w, OPEN_TOKEN);
            Step(m, c) == (m.(lexer := if w[k..] == OPEN_TOKEN then InID("") else Normal(w[k..])), TextUnits(w[..k]))
    ensures ToolTagMachine.Valid(Step(m, c).0)
  {
    StepValid(m, c);
  }

  lemma StepOfID(m: Machine, c: char)
    requires ToolTagMachine.Valid(m) && m.lexer.InID?
    ensures Step(m, c) == StepInID(m, m.lexer.body, c)
    ensures ToolTagMachine.Valid(Step(m, c).0)
  {
    StepValid(m, c);
  }

  // A character inside a string, the end of the close token, the middle of it,
  // and a character that breaks it off.
  lemma StepOfArgs(m: Machine, c: char)
    requires ToolTagMachine.Valid(m) && m.lexer.InArgs?
    ensures var InArgs(id, args, pending, quote) := m.lexer;
            var w := pending + [c]; var k := Shed(w, CLOSE_TOKEN);
            Step(m, c) ==
              if quote != Outside then
                (m.(lexer := InArgs(id, args + [c], pending, NextQuote(quote, c))), [ArgsUnit(m.openedCalls, [c])])
              else if w == CLOSE_TOKEN then
                (m.(lexer := Normal("")), [CloseUnit(m.openedCalls, id, args)])
              else if w <= CLOSE_TOKEN then
                (m.(lexer := InArgs(id, args, w, Outside)), [])
              else
                (m.(lexer := InArgs(id, args + w[..k], w[k..], Scan(Outside, w[..k]))),
                 ArgsUnits(m.openedCalls, w[..k]))
    ensures ToolTagMachine.Valid(Step(m, c).0)
  {
    StepValid(m, c);
    var InArgs(id, args, pending, quote) := m.lexer;
    var w := pending + [c];
    assert ArgsUnits(m.openedCalls, [c]) == [ArgsUnit(m.openedCalls, [c])];
    if w <= CLOSE_TOKEN {
      assert w[..0] == "" && w[0..] == w && args + "" == args && ArgsUnits(m.openedCalls, "") == [];
    }
  }

  lemma ScanOne(q: Quote, c: char)
    ensures Scan(q, [c]) == NextQuote(q, c)
  {
    assert [c][1..] == "";
  }

  // The flush loop gives up exactly the characters that `Shed` counts.
  lemma ShedNow(w: string, token: string, k: nat)
    requires k <= Shed(w, token)
    ensures w[k..] <= token <==> k == Shed(w, token)
    ensures w[k..] == "" ==> k == Shed(w, token)
  {
    ShedIsLeast(w, token);
  }
}
