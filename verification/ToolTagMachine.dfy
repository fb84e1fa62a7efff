// The streaming recogniser as a state machine over single characters: what
// apps/web/lib/toolTagText.stream.ts keeps between characters, and what each
// character makes it emit. The classes of ToolTagStream refine it.
module ToolTagMachine {
  import opened Text
  import opened ToolTagSyntax
  import opened ToolTagGrammar

  // ------------------------------------------------------------------- units

  datatype Unit =
    | TextUnit(text: string)
    | OpenUnit(callSeq: nat, toolId: string)
    | ArgsUnit(callSeq: nat, argsDelta: string)
    | CloseUnit(callSeq: nat, toolId: string, argsText: string)

  datatype Lexer =
    | Normal(pending: string)                                             // a prefix of the open token
    | InID(body: string)
    | InArgs(toolId: string, args: string, pending: string, quote: Quote) // a prefix of the close token

  datatype Machine = Machine(lexer: Lexer, openedCalls: nat)

  const INITIAL := Machine(Normal(""), 0)

  // A pending token is a proper prefix of it, and there is none inside a string.
  predicate Valid(m: Machine) {
    match m.lexer
    case Normal(pending) => pending < OPEN_TOKEN
    case InID(body) => '>' !in body
    case InArgs(id, _, pending, quote) =>
      pending < CLOSE_TOKEN && (quote != Outside ==> pending == "") && IsValidToolTagID(id) && m.openedCalls > 0
  }

  // How many characters of `w` must be given up before the rest can start `token`.
  function Shed(w: string, token: string): (n: nat)
    ensures n <= |w|
  {
    if w <= token then 0 else 1 + Shed(w[1..], token)
  }

  // The rest can start the token, and nothing longer could have.
  lemma {:induction false} ShedIsLeast(w: string, token: string)
    ensures Shed(w, token) <= |w| && w[Shed(w, token)..] <= token
    ensures forall k :: 0 <= k < Shed(w, token) ==> !(w[k..] <= token)
    decreases |w|
  {
    var n := Shed(w, token);
    assert w[0..] == w;
    if !(w <= token) {
      ShedIsLeast(w[1..], token);
      DropTwice(w, n);
      forall k | 0 <= k < n ensures !(w[k..] <= token) {
        if k > 0 { DropTwice(w, k); }
      }
    }
  }

  lemma DropTwice(w: string, k: nat)
    requires 0 < k <= |w|
    ensures w[k..] == w[1..][k - 1..]
  {
  }

  function TextUnits(t: string): seq<Unit> {
    seq(|t|, i requires 0 <= i < |t| => TextUnit([t[i]]))
  }

  function ArgsUnits(callSeq: nat, t: string): seq<Unit> {
    seq(|t|, i requires 0 <= i < |t| => ArgsUnit(callSeq, [t[i]]))
  }

  function StepNormal(m: Machine, w: string): (Machine, seq<Unit>) {
    var n := Shed(w, OPEN_TOKEN);
    if w[n..] == OPEN_TOKEN then (m.(lexer := InID("")), TextUnits(w[..n]))
    else (m.(lexer := Normal(w[n..])), TextUnits(w[..n]))
  }

  function StepInID(m: Machine, body: string, c: char): (Machine, seq<Unit>) {
    if c != '>' then (m.(lexer := InID(body + [c])), [])
    else if !IsValidToolTagID(Trim(body)) then (m.(lexer := Normal("")), [TextUnit(OPEN_TOKEN + body + ">")])
    else (Machine(InArgs(Trim(body), "", "", Outside), m.openedCalls + 1), [OpenUnit(m.openedCalls + 1, Trim(body))])
  }

  function StepInArgs(m: Machine, c: char): (Machine, seq<Unit>)
    requires m.lexer.InArgs?
  {
    var InArgs(id, args, pending, quote) := m.lexer;
    if quote != Outside then
      (m.(lexer := InArgs(id, args + [c], pending, NextQuote(quote, c))), ArgsUnits(m.openedCalls, [c]))
    else
      var w := pending + [c];
      if w == CLOSE_TOKEN then (m.(lexer := Normal("")), [CloseUnit(m.openedCalls, id, args)])
      else
        var n := Shed(w, CLOSE_TOKEN);
        (m.(lexer := InArgs(id, args + w[..n], w[n..], Scan(Outside, w[..n]))), ArgsUnits(m.openedCalls, w[..n]))
  }

  function Step(m: Machine, c: char): (Machine, seq<Unit>) {
    match m.lexer
    case Normal(pending) => StepNormal(m, pending + [c])
    case InID(body) => StepInID(m, body, c)
    case InArgs(_, _, _, _) => StepInArgs(m, c)
  }

  function Run(m: Machine, s: string): (Machine, seq<Unit>)
    decreases |s|
  {
    if s == "" then (m, [])
    else
      var (m1, u1) := Step(m, s[0]);
      var (m2, u2) := Run(m1, s[1..]);
      (m2, u1 + u2)
  }

  // The end of the stream.
  function Finish(m: Machine): (Machine, seq<Unit>) {
    match m.lexer
    case Normal(pending) => (m.(lexer := Normal("")), if pending == "" then [] else [TextUnit(pending)])
    case InID(body) => (m.(lexer := Normal("")), [TextUnit(OPEN_TOKEN + body)])
    case InArgs(id, args, pending, _) =>
      (m.(lexer := Normal("")), ArgsUnits(m.openedCalls, pending) + [CloseUnit(m.openedCalls, id, args + pending)])
  }

  // One call of the consumer: a chunk, and possibly the end of the stream.
  function Feed(m: Machine, chunk: string, finalize: bool): (Machine, seq<Unit>) {
    var (m1, u1) := Run(m, chunk);
    if finalize then
      var (m2, u2) := Finish(m1);
      (m2, u1 + u2)
    else (m1, u1)
  }

  lemma {:induction false} RunConcat(m: Machine, a: string, b: string)
    ensures Run(m, a + b) ==
              var (m1, u1) := Run(m, a); var (m2, u2) := Run(m1, b); (m2, u1 + u2)
    decreases |a|
  {
    hide Step;
    if a == "" {
      assert a + b == b && [] + Run(m, b).1 == Run(m, b).1;
    } else {
      var (m1, u1) := Step(m, a[0]);
      var (m2, u2) := Run(m1, a[1..]);
      var (m3, u3) := Run(m2, b);
      assert (a + b)[1..] == a[1..] + b;
      RunConcat(m1, a[1..], b);
      assert u1 + (u2 + u3) == (u1 + u2) + u3;
    }
  }

  // ---------------------------------------------------------------- invariant

  lemma ShedPending(p: string, c: char, token: string)
    requires p < token && |token| > 0
    ensures var w := p + [c]; var n := Shed(w, token);
            (w == token <==> w[n..] == token) && (w != token ==> w[n..] < token)
  {
    var w := p + [c];
    ShedIsLeast(w, token);
    if w == token { assert Shed(w, token) == 0; }
  }

  // A quote never stays pending: no token contains one.
  lemma ShedQuote(p: string, c: char)
    requires p < CLOSE_TOKEN
    ensures var w := p + [c]; var n := Shed(w, CLOSE_TOKEN);
            Scan(Outside, w[..n]) != Outside ==> w[n..] == ""
  {
    var w := p + [c];
    var n := Shed(w, CLOSE_TOKEN);
    ShedIsLeast(w, CLOSE_TOKEN);
    if n < |w| {
      forall i | 0 <= i < n ensures w[i] != '"' { assert w[i] == p[i] == CLOSE_TOKEN[i]; }
      NoQuoteNoString(w[..n]);
    }
  }

  lemma {:induction false} NoQuoteNoString(s: string)
    requires forall i :: 0 <= i < |s| ==> s[i] != '"'
    ensures Scan(Outside, s) == Outside
  {
    if s != "" { NoQuoteNoString(s[1..]); }
  }

  lemma StepValid(m: Machine, c: char)
    requires Valid(m)
    ensures Valid(Step(m, c).0)
  {
    match m.lexer {
      case Normal(pending) => ShedPending(pending, c, OPEN_TOKEN);
      case InID(body) =>
      case InArgs(id, args, pending, quote) =>
        if quote == Outside {
          ShedPending(pending, c, CLOSE_TOKEN);
          ShedQuote(pending, c);
        }
    }
  }

  lemma {:induction false} RunValid(m: Machine, s: string)
    requires Valid(m)
    ensures Valid(Run(m, s).0)
    decreases |s|
  {
    if s != "" {
      StepValid(m, s[0]);
      RunValid(Step(m, s[0]).0, s[1..]);
    }
  }

  lemma FeedValid(m: Machine, chunk: string, finalize: bool)
    requires Valid(m)
    ensures Valid(Feed(m, chunk, finalize).0)
  {
    RunValid(m, chunk);
  }

  // ------------------------------------------------------------- the protocol

  // The order in which a consumer of the units may see them: text between calls;
  // a call is opened under the next number, receives only its own arguments, and
  // is closed under the same number and identifier with exactly those arguments.
  datatype Phase = Between(done: nat) | During(callSeq: nat, toolId: string, args: string) | Broken

  function Advance(phase: Phase, u: Unit): Phase {
    match phase
    case Between(done) =>
      (match u
       case TextUnit(_) => phase
       case OpenUnit(n, id) => if n == done + 1 then During(n, id, "") else Broken
       case _ => Broken)
    case During(n, id, args) =>
      (match u
       case ArgsUnit(n', delta) => if n' == n then During(n, id, args + delta) else Broken
       case CloseUnit(n', id', all) => if n' == n && id' == id && all == args then Between(n) else Broken
       case _ => Broken)
    case Broken => Broken
  }

  function Follow(phase: Phase, units: seq<Unit>): Phase
    decreases |units|
  {
    if units == [] then phase else Follow(Advance(phase, units[0]), units[1..])
  }

  lemma {:induction false} FollowConcat(phase: Phase, a: seq<Unit>, b: seq<Unit>)
    ensures Follow(phase, a + b) == Follow(Follow(phase, a), b)
    decreases |a|
  {
    if a == [] {
      assert a + b == b;
    } else {
      assert (a + b)[1..] == a[1..] + b;
      FollowConcat(Advance(phase, a[0]), a[1..], b);
    }
  }

  function PhaseOf(m: Machine): Phase {
    match m.lexer
    case InArgs(id, args, _, _) => During(m.openedCalls, id, args)
    case _ => Between(m.openedCalls)
  }

  lemma {:induction false} FollowText(done: nat, t: string)
    ensures Follow(Between(done), TextUnits(t)) == Between(done)
    decreases |t|
  {
    if t != "" {
      assert TextUnits(t)[1..] == TextUnits(t[1..]);
      FollowText(done, t[1..]);
    }
  }

  lemma {:induction false} FollowArgs(n: nat, id: string, args: string, t: string)
    ensures Follow(During(n, id, args), ArgsUnits(n, t)) == During(n, id, args + t)
    decreases |t|
  {
    if t == "" {
      assert args + t == args;
    } else {
      assert ArgsUnits(n, t)[1..] == ArgsUnits(n, t[1..]);
      assert args + [t[0]] + t[1..] == args + t;
      FollowArgs(n, id, args + [t[0]], t[1..]);
    }
  }

  lemma FollowOne(phase: Phase, u: Unit)
    ensures Follow(phase, [u]) == Advance(phase, u)
  {
    assert [u][1..] == [];
  }

  lemma StepFollows(m: Machine, c: char)
    ensures Follow(PhaseOf(m), Step(m, c).1) == PhaseOf(Step(m, c).0)
  {
    match m.lexer {
      case Normal(pending) =>
        var w := pending + [c];
        FollowText(m.openedCalls, w[..Shed(w, OPEN_TOKEN)]);
      case InID(body) =>
        if c == '>' { FollowOne(PhaseOf(m), Step(m, c).1[0]); }
      case InArgs(id, args, pending, quote) =>
        var w := pending + [c];
        FollowArgs(m.openedCalls, id, args, [c]);
        FollowArgs(m.openedCalls, id, args, w[..Shed(w, CLOSE_TOKEN)]);
        FollowOne(PhaseOf(m), CloseUnit(m.openedCalls, id, args));
    }
  }

  lemma {:induction false} RunFollows(m: Machine, s: string)
    ensures Follow(PhaseOf(m), Run(m, s).1) == PhaseOf(Run(m, s).0)
    decreases |s|
  {
    if s != "" {
      var (m1, u1) := Step(m, s[0]);
      StepFollows(m, s[0]);
      RunFollows(m1, s[1..]);
      FollowConcat(PhaseOf(m), u1, Run(m1, s[1..]).1);
    }
  }

  // Every feed of the machine continues the protocol.
  lemma FeedFollows(m: Machine, chunk: string, finalize: bool)
    ensures Follow(PhaseOf(m), Feed(m, chunk, finalize).1) == PhaseOf(Feed(m, chunk, finalize).0)
  {
    RunFollows(m, chunk);
    if finalize {
      var (m1, u1) := Run(m, chunk);
      var (m2, u2) := Finish(m1);
      FollowConcat(PhaseOf(m), u1, u2);
      match m1.lexer {
        case Normal(pending) => if pending != "" { FollowOne(PhaseOf(m1), u2[0]); }
        case InID(body) => FollowOne(PhaseOf(m1), u2[0]);
        case InArgs(id, args, pending, _) =>
          FollowArgs(m1.openedCalls, id, args, pending);
          FollowOne(During(m1.openedCalls, id, args + pending), CloseUnit(m1.openedCalls, id, args + pending));
          FollowConcat(PhaseOf(m1), ArgsUnits(m1.openedCalls, pending),
                       [CloseUnit(m1.openedCalls, id, args + pending)]);
      }
    }
  }

  // ------------------------------------------------- joining adjacent units

  predicate Joins(last: Unit, u: Unit) {
    (last.TextUnit? && u.TextUnit?) ||
    (last.ArgsUnit? && u.ArgsUnit? && last.callSeq == u.callSeq)
  }

  function JoinUnits(last: Unit, u: Unit): Unit
    requires Joins(last, u)
  {
    if last.TextUnit? then TextUnit(last.text + u.text) else ArgsUnit(last.callSeq, last.argsDelta + u.argsDelta)
  }

  // Push one unit, joining it to the last one if possible; empty text is dropped.
  function Push(acc: seq<Unit>, u: Unit): seq<Unit> {
    if u.TextUnit? && u.text == "" then acc
    else if acc != [] && Joins(acc[|acc| - 1], u) then acc[..|acc| - 1] + [JoinUnits(acc[|acc| - 1], u)]
    else acc + [u]
  }

  function PushAll(acc: seq<Unit>, us: seq<Unit>): seq<Unit>
    decreases |us|
  {
    if us == [] then acc else PushAll(Push(acc, us[0]), us[1..])
  }

  function Joined(us: seq<Unit>): seq<Unit> {
    PushAll([], us)
  }

  lemma {:induction false} PushAllConcat(acc: seq<Unit>, a: seq<Unit>, b: seq<Unit>)
    ensures PushAll(acc, a + b) == PushAll(PushAll(acc, a), b)
    decreases |a|
  {
    if a == [] {
      assert a + b == b;
    } else {
      assert (a + b)[1..] == a[1..] + b;
      PushAllConcat(Push(acc, a[0]), a[1..], b);
    }
  }

  lemma PushAllOne(acc: seq<Unit>, u: Unit)
    ensures PushAll(acc, [u]) == Push(acc, u)
  {
    assert [u][1..] == [];
  }

  // Pushing a joined unit is pushing its two parts.
  lemma PushJoined(acc: seq<Unit>, l: Unit, u: Unit)
    requires Joins(l, u) && !(u.TextUnit? && u.text == "") && !(l.TextUnit? && l.text == "")
    ensures Push(Push(acc, l), u) == Push(acc, JoinUnits(l, u))
  {
    if acc != [] && Joins(acc[|acc| - 1], l) {
      var last := acc[|acc| - 1];
      if l.TextUnit? {
        assert last.text + l.text + u.text == last.text + (l.text + u.text);
      } else {
        assert last.argsDelta + l.argsDelta + u.argsDelta == last.argsDelta + (l.argsDelta + u.argsDelta);
      }
    }
  }

  predicate NoEmptyText(us: seq<Unit>) {
    forall i :: 0 <= i < |us| && us[i].TextUnit? ==> us[i].text != ""
  }

  lemma {:induction false} PushAllNoEmptyText(acc: seq<Unit>, us: seq<Unit>)
    requires NoEmptyText(acc)
    ensures NoEmptyText(PushAll(acc, us))
    decreases |us|
  {
    if us != [] { PushAllNoEmptyText(Push(acc, us[0]), us[1..]); }
  }

  lemma PushThrough(acc: seq<Unit>, xs: seq<Unit>, u: Unit)
    requires NoEmptyText(xs)
    ensures PushAll(acc, Push(xs, u)) == Push(PushAll(acc, xs), u)
  {
    if u.TextUnit? && u.text == "" {
    } else if xs != [] && Joins(xs[|xs| - 1], u) {
      var front, l := xs[..|xs| - 1], xs[|xs| - 1];
      assert xs == front + [l];
      PushAllConcat(acc, front, [l]);
      PushAllOne(PushAll(acc, front), l);
      PushAllConcat(acc, front, [JoinUnits(l, u)]);
      PushAllOne(PushAll(acc, front), JoinUnits(l, u));
      PushJoined(PushAll(acc, front), l, u);
    } else {
      PushAllConcat(acc, xs, [u]);
      PushAllOne(PushAll(acc, xs), u);
    }
  }

  // Joining the units of a part first does not change what the whole joins to.
  lemma {:induction false} JoinedInParts(acc: seq<Unit>, us: seq<Unit>)
    ensures PushAll(acc, Joined(us)) == PushAll(acc, us)
    decreases |us|
  {
    if us != [] {
      var front, u := us[..|us| - 1], us[|us| - 1];
      assert us == front + [u];
      JoinedInParts(acc, front);
      PushAllNoEmptyText([], front);
      PushAllConcat([], front, [u]);
      PushAllOne(Joined(front), u);
      PushThrough(acc, Joined(front), u);
      PushAllConcat(acc, front, [u]);
      PushAllOne(PushAll(acc, front), u);
    }
  }

  // Joining keeps the protocol.
  lemma FollowPush(phase: Phase, acc: seq<Unit>, u: Unit)
    requires Advance(Follow(phase, acc), u) != Broken
    ensures Follow(phase, Push(acc, u)) == Advance(Follow(phase, acc), u)
  {
    if u.TextUnit? && u.text == "" {
    } else if acc != [] && Joins(acc[|acc| - 1], u) {
      var front, l := acc[..|acc| - 1], acc[|acc| - 1];
      assert acc == front + [l];
      FollowConcat(phase, front, [l]);
      FollowOne(Follow(phase, front), l);
      FollowConcat(phase, front, [JoinUnits(l, u)]);
      FollowOne(Follow(phase, front), JoinUnits(l, u));
      match Follow(phase, front) {
        case During(n, id, args) =>
          if l.ArgsUnit? { assert args + l.argsDelta + u.argsDelta == args + (l.argsDelta + u.argsDelta); }
        case _ =>
      }
    } else {
      FollowConcat(phase, acc, [u]);
      FollowOne(Follow(phase, acc), u);
    }
  }

  lemma {:induction false} FollowBroken(us: seq<Unit>)
    ensures Follow(Broken, us) == Broken
  {
    if us != [] { FollowBroken(us[1..]); }
  }

  lemma {:induction false} FollowJoined(phase: Phase, acc: seq<Unit>, us: seq<Unit>)
    requires Follow(Follow(phase, acc), us) != Broken
    ensures Follow(phase, PushAll(acc, us)) == Follow(Follow(phase, acc), us)
    decreases |us|
  {
    if us != [] {
      if Advance(Follow(phase, acc), us[0]) == Broken { FollowBroken(us[1..]); }
      FollowPush(phase, acc, us[0]);
      FollowJoined(phase, Push(acc, us[0]), us[1..]);
    }
  }

  // Over the calls of the consumer from the start of a stream, the units it
  // returns, chunk after chunk, follow the protocol.
  lemma ReturnedUnitsFollow(m: Machine, chunk: string, finalize: bool)
    ensures Follow(PhaseOf(m), Joined(Feed(m, chunk, finalize).1)) == PhaseOf(Feed(m, chunk, finalize).0)
  {
    FeedFollows(m, chunk, finalize);
    FollowJoined(PhaseOf(m), [], Feed(m, chunk, finalize).1);
  }
}
