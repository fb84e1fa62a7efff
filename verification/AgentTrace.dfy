// What an observer of a run sees: calls of the completer, deltas handed to the
// bridge, and stream events delivered or failed. Monitors watch a trace for the
// rules of the run; the lemmas say what a rule that was never broken means.
module AgentTrace {
  import opened AgentMessages

  datatype Event =
    | RunStarted
    | ToolStarted(turn: nat, step: nat)
    | ToolFinished(turn: nat, step: nat, ok: bool)
    | AwaitingHumanAsked(turn: nat, step: nat)
    | MessageSent(text: string)
    | Done
    | ErrorReported

  // What executing a tool and post-processing its output comes to.
  datatype ToolAnswer =
    ExecutionFailed | PostProcessFailed | Plain(output: string) | AsksHuman(output: string) | HandsOff(output: string)

  datatype Action =
    | TurnBegins(turn: nat)
    | CompleterCalled
    | DeltaPassed                                  // the bridge is handed a delta
    | CompletionFailed(retryable: bool)            // the requests of an attempt, or the hook before them, failed
    | Delivered(event: Event)
    | Undelivered(event: Event, retryable: bool)   // building or emitting it failed
    | HandlerFailed(retryable: bool)               // a text handler returned an error
    | TextDeclined                                 // a text handler did not recognize the text
    | ToolMissing                                  // no tool has the name that a call gives
    | ToolRan(answer: ToolAnswer)                  // a tool was executed
    | ToolTurnEnded                                // a native tool-call turn was processed to its end

  // A sink or a text handler failed with the error that means "ask the completer
  // again", which is the completer's own.
  predicate Odd(a: Action) {
    (a.Undelivered? && a.retryable) || (a.HandlerFailed? && a.retryable)
  }

  // A failure after which a turn may be attempted once more.
  predicate ProtocolFailure(a: Action) {
    Odd(a) || (a.CompletionFailed? && a.retryable)
  }

  predicate IsTerminal(a: Action) {
    a == Delivered(Done) || a == Delivered(ErrorReported)
  }

  // ------------------------------------------------------ attempts and deltas

  datatype CompletionWatch =
    CompletionWatch(turns: nat, calls: nat, turnCalls: nat, deltaInTurn: bool, mixed: bool)

  function WatchCompletion(w: CompletionWatch, a: Action): CompletionWatch {
    match a
    case TurnBegins(_) => w.(turns := w.turns + 1, turnCalls := 0, deltaInTurn := false)
    case CompleterCalled => w.(calls := w.calls + 1, turnCalls := w.turnCalls + 1, mixed := w.mixed || w.deltaInTurn)
    case DeltaPassed => w.(deltaInTurn := true)
    case _ => w
  }

  // ------------------------------------------------------------- tool events

  // Between a start and its finish; after a failure no tool event may follow,
  // and the completer may be asked again only if that is excused: by the failure
  // itself being odd, or by an odd action after it.
  datatype ToolPhase = NoCall | InCall(turn: nat, step: nat) | Cut(excused: bool)

  // A tool that asks a human or hands off ends the run.
  predicate Stops(answer: ToolAnswer) {
    answer.AsksHuman? || answer.HandsOff?
  }

  // `stopping`: a tool stopped the run, and nothing odd has happened since.
  datatype ToolWatch = ToolWatch(phase: ToolPhase, steps: seq<nat>, stopping: bool, broken: bool)

  function WatchTools(w: ToolWatch, a: Action): ToolWatch {
    match a
    case TurnBegins(_) => w.(broken := w.broken || w.stopping)
    case CompleterCalled =>
      ToolWatch(NoCall, [], false, w.broken || w.phase.InCall? || w.phase == Cut(false) || w.stopping)
    case ToolRan(answer) => w.(stopping := w.stopping || Stops(answer))
    case Delivered(ToolStarted(turn, step)) =>
      w.(phase := InCall(turn, step), steps := w.steps + [step],
         broken := w.broken || w.phase != NoCall || step in w.steps || w.stopping)
    case Delivered(ToolFinished(turn, step, _)) =>
      w.(phase := NoCall, broken := w.broken || w.phase != InCall(turn, step))
    case Undelivered(ToolStarted(_, _), retryable) =>
      w.(phase := Cut(retryable), stopping := w.stopping && !retryable, broken := w.broken || w.phase != NoCall)
    case Undelivered(ToolFinished(turn, step, _), retryable) =>
      w.(phase := Cut(retryable), stopping := w.stopping && !retryable,
         broken := w.broken || w.phase != InCall(turn, step))
    case _ =>
      if Odd(a) then w.(phase := if w.phase.Cut? then Cut(true) else w.phase, stopping := false) else w
  }

  // ------------------------------------------------ turns that execute nothing

  const MAX_CONSECUTIVE_NON_EXECUTABLE_TOOL_CALL_TURNS := 3

  // `ended` counts the tool-call turns and `streak` those since the last one that
  // ran a tool; `excused` says whether something odd happened after the last one.
  datatype TurnWatch = TurnWatch(ran: bool, ended: nat, streak: nat, excused: bool, late: bool)

  function WatchTurns(w: TurnWatch, a: Action): TurnWatch {
    match a
    case TurnBegins(_) => w.(late := w.late || TooMany(w))
    case CompleterCalled => w.(ran := false, late := w.late || TooMany(w))
    case ToolRan(_) => w.(ran := true)
    case ToolTurnEnded => w.(ended := w.ended + 1, streak := if w.ran then 0 else w.streak + 1, excused := false)
    case _ => w.(excused := w.excused || Odd(a))
  }

  predicate TooMany(w: TurnWatch) {
    w.streak >= MAX_CONSECUTIVE_NON_EXECUTABLE_TOOL_CALL_TURNS && !w.excused
  }

  // ------------------------------------------------------ the end of the run

  // `ended`: the last action told the client that the run is over; `protocol`: a
  // protocol failure happened since the last request; `again`: something followed
  // such an end without one.
  datatype EndWatch = EndWatch(ended: bool, protocol: bool, again: bool)

  function WatchEnd(w: EndWatch, a: Action): EndWatch {
    EndWatch(IsTerminal(a), !a.CompleterCalled? && (w.protocol || ProtocolFailure(a)),
             w.again || (w.ended && !w.protocol))
  }

  // --------------------------------------------------------------- the monitor

  predicate HasTurn(a: Action) {
    (a.Delivered? || a.Undelivered?) &&
    (a.event.ToolStarted? || a.event.ToolFinished? || a.event.AwaitingHumanAsked?)
  }

  // `odd`: something odd happened since the last request; `misplaced`: a tool event did
  // not carry the number of the turn it happened in.
  datatype Monitor = Monitor(
    completion: CompletionWatch, tools: ToolWatch, turns: TurnWatch, end: EndWatch, odd: bool, misplaced: bool)

  const START :=
    Monitor(CompletionWatch(0, 0, 0, false, false), ToolWatch(NoCall, [], false, false),
            TurnWatch(false, 0, 0, false, false),
            EndWatch(false, false, false), false, false)

  function Observe(m: Monitor, a: Action): Monitor {
    Monitor(WatchCompletion(m.completion, a), WatchTools(m.tools, a), WatchTurns(m.turns, a), WatchEnd(m.end, a),
            !a.CompleterCalled? && (m.odd || Odd(a)),
            m.misplaced || (HasTurn(a) && a.event.turn + 1 != m.completion.turns))
  }

  function Watch(trace: seq<Action>): Monitor {
    if trace == [] then START else Observe(Watch(trace[..|trace| - 1]), trace[|trace| - 1])
  }

  lemma WatchSnoc(trace: seq<Action>, a: Action)
    ensures Watch(trace + [a]) == Observe(Watch(trace), a)
  {
    assert (trace + [a])[..|trace|] == trace;
  }

  // --------------------------------------------------- what the monitors mean

  ghost predicate DeltaSinceTurnBegan(trace: seq<Action>, j: int)
    requires 0 <= j <= |trace|
  {
    exists i :: 0 <= i < j && trace[i].DeltaPassed? && forall k :: i < k < j ==> !trace[k].TurnBegins?
  }

  // No completer call after a delta of the same turn.
  ghost predicate NoAttemptAfterDelta(trace: seq<Action>) {
    forall j :: 0 <= j < |trace| && trace[j].CompleterCalled? ==> !DeltaSinceTurnBegan(trace, j)
  }

  lemma DeltaSincePrefix(trace: seq<Action>, a: Action, j: int)
    requires 0 <= j <= |trace|
    ensures DeltaSinceTurnBegan(trace + [a], j) == DeltaSinceTurnBegan(trace, j)
  {
    if DeltaSinceTurnBegan(trace, j) {
      var i :| 0 <= i < j && trace[i].DeltaPassed? && forall k :: i < k < j ==> !trace[k].TurnBegins?;
      assert (trace + [a])[i].DeltaPassed? && forall k :: i < k < j ==> !(trace + [a])[k].TurnBegins?;
    }
    if DeltaSinceTurnBegan(trace + [a], j) {
      var i :| 0 <= i < j && (trace + [a])[i].DeltaPassed? && forall k :: i < k < j ==> !(trace + [a])[k].TurnBegins?;
      assert trace[i].DeltaPassed? && forall k :: i < k < j ==> (trace + [a])[k] == trace[k];
    }
  }

  lemma DeltaSinceSnoc(trace: seq<Action>, a: Action)
    ensures DeltaSinceTurnBegan(trace + [a], |trace| + 1) <==>
              a.DeltaPassed? || (!a.TurnBegins? && DeltaSinceTurnBegan(trace, |trace|))
  {
    var t, n := trace + [a], |trace|;
    if a.DeltaPassed? {
      assert t[n].DeltaPassed?;
    } else if DeltaSinceTurnBegan(t, n + 1) {
      var i :| 0 <= i < n + 1 && t[i].DeltaPassed? && forall k :: i < k < n + 1 ==> !t[k].TurnBegins?;
      assert i < n && t[n] == a && trace[i].DeltaPassed?;
      assert forall k :: i < k < n ==> t[k] == trace[k];
    }
    if !a.TurnBegins? && DeltaSinceTurnBegan(trace, n) {
      var i :| 0 <= i < n && trace[i].DeltaPassed? && forall k :: i < k < n ==> !trace[k].TurnBegins?;
      assert t[i].DeltaPassed? && forall k :: i < k < n + 1 ==> !t[k].TurnBegins?;
    }
  }

  lemma {:induction false} MixedMeans(trace: seq<Action>)
    ensures Watch(trace).completion.deltaInTurn == DeltaSinceTurnBegan(trace, |trace|)
    ensures Watch(trace).completion.mixed <==> !NoAttemptAfterDelta(trace)
  {
    if trace != [] {
      hide Watch, DeltaSinceTurnBegan, NoAttemptAfterDelta;
      var front, a := trace[..|trace| - 1], trace[|trace| - 1];
      assert trace == front + [a];
      MixedMeans(front);
      DeltaSinceSnoc(front, a);
      WatchedDeltas(front, a);
      NoAttemptSnoc(front, a);
    }
  }

  lemma WatchedDeltas(trace: seq<Action>, a: Action)
    ensures var w, w' := Watch(trace).completion, Watch(trace + [a]).completion;
            && w'.deltaInTurn == (a.DeltaPassed? || (!a.TurnBegins? && w.deltaInTurn))
            && w'.mixed == (w.mixed || (a.CompleterCalled? && w.deltaInTurn))
  {
    WatchSnoc(trace, a);
  }

  lemma NoAttemptSnoc(trace: seq<Action>, a: Action)
    ensures NoAttemptAfterDelta(trace + [a]) <==>
              NoAttemptAfterDelta(trace) && (a.CompleterCalled? ==> !DeltaSinceTurnBegan(trace, |trace|))
  {
    hide DeltaSinceTurnBegan;
    var t, n := trace + [a], |trace|;
    forall j | 0 <= j <= n ensures DeltaSinceTurnBegan(t, j) == DeltaSinceTurnBegan(trace, j) {
      DeltaSincePrefix(trace, a, j);
    }
    assert t[n] == a && forall j :: 0 <= j < n ==> t[j] == trace[j];
    if !NoAttemptAfterDelta(trace) {
      var j :| 0 <= j < n && trace[j].CompleterCalled? && DeltaSinceTurnBegan(trace, j);
      assert t[j].CompleterCalled? && DeltaSinceTurnBegan(t, j);
    }
  }

  // The positions at which the completer is called.
  ghost function Requests(trace: seq<Action>): set<int> {
    set i | 0 <= i < |trace| && trace[i].CompleterCalled?
  }

  lemma {:induction false} CallsMean(trace: seq<Action>)
    ensures Watch(trace).completion.calls == |Requests(trace)|
  {
    if trace != [] {
      var front, n := trace[..|trace| - 1], |trace| - 1;
      CallsMean(front);
      assert Requests(trace) == Requests(front) + if trace[n].CompleterCalled? then {n} else {};
    }
  }

  // The positions at which a turn begins.
  ghost function Turns(trace: seq<Action>): set<int> {
    set i | 0 <= i < |trace| && trace[i].TurnBegins?
  }

  lemma {:induction false} TurnsMean(trace: seq<Action>)
    ensures Watch(trace).completion.turns == |Turns(trace)|
  {
    if trace != [] {
      var front, n := trace[..|trace| - 1], |trace| - 1;
      TurnsMean(front);
      assert Turns(trace) == Turns(front) + if trace[n].TurnBegins? then {n} else {};
    }
  }

  // Every event of a tool call carries the number of the turn it happens in: one less
  // than the turns that have begun.
  ghost predicate TurnsNumbered(trace: seq<Action>) {
    forall i :: 0 <= i < |trace| && HasTurn(trace[i]) ==> trace[i].event.turn + 1 == |Turns(trace[..i])|
  }

  lemma {:induction false} PlacesMean(trace: seq<Action>)
    requires !Watch(trace).misplaced
    ensures TurnsNumbered(trace)
  {
    if trace != [] {
      var front, n := trace[..|trace| - 1], |trace| - 1;
      PlacesMean(front);
      TurnsMean(front);
      forall i | 0 <= i < |trace| && HasTurn(trace[i]) ensures trace[i].event.turn + 1 == |Turns(trace[..i])| {
        if i < n {
          assert trace[i] == front[i] && trace[..i] == front[..i];
        }
      }
    }
  }

  predicate IsToolEvent(a: Action) {
    (a.Delivered? || a.Undelivered?) && (a.event.ToolStarted? || a.event.ToolFinished?)
  }

  // `j` is the next thing that happens to tool calls after `i`.
  ghost predicate NextToolAction(trace: seq<Action>, i: int, j: int) {
    0 <= i < j < |trace| && (IsToolEvent(trace[j]) || trace[j].CompleterCalled?) &&
    forall k :: i < k < j ==> !IsToolEvent(trace[k]) && !trace[k].CompleterCalled?
  }

  // A delivered start is next met by its own finish, delivered or failed, and a
  // finish is next met by a start or a new request. After a tool event that failed
  // only a new request can follow, and only if something odd happened in between,
  // the failure itself included; otherwise the run ends.
  ghost predicate ToolEventsPaired(trace: seq<Action>) {
    forall i, j :: NextToolAction(trace, i, j) && IsToolEvent(trace[i]) ==> Paired(trace, i, j)
  }

  ghost predicate Paired(trace: seq<Action>, i: int, j: int)
    requires NextToolAction(trace, i, j) && IsToolEvent(trace[i])
  {
    if trace[i].Delivered? && trace[i].event.ToolStarted? then
      IsToolEvent(trace[j]) && trace[j].event.ToolFinished? &&
      trace[j].event.turn == trace[i].event.turn && trace[j].event.step == trace[i].event.step
    else if trace[i].Delivered? then
      trace[j].CompleterCalled? || trace[j].event.ToolStarted?
    else
      trace[j].CompleterCalled? && exists k :: i <= k < j && Odd(trace[k])
  }

  lemma WatchedPhase(trace: seq<Action>, a: Action)
    requires !IsToolEvent(a) && !a.CompleterCalled?
    ensures var p, p' := Watch(trace).tools.phase, Watch(trace + [a]).tools.phase;
            p' == if Odd(a) && p.Cut? then Cut(true) else p
  {
    WatchSnoc(trace, a);
  }

  // The phase is set by the last action that concerns tool calls.
  lemma {:induction false} PhaseMeans(trace: seq<Action>, i: int)
    requires 0 <= i < |trace| && IsToolEvent(trace[i])
    requires forall k :: i < k < |trace| ==> !IsToolEvent(trace[k]) && !trace[k].CompleterCalled?
    ensures var phase := Watch(trace).tools.phase;
            if trace[i].Undelivered? then
              phase.Cut? && (phase.excused <==> exists k :: i <= k < |trace| && Odd(trace[k]))
            else if trace[i].event.ToolStarted? then phase == InCall(trace[i].event.turn, trace[i].event.step)
            else phase == NoCall
  {
    var front, n := trace[..|trace| - 1], |trace| - 1;
    if i < n {
      hide Odd, Watch, WatchTools;
      assert front[i] == trace[i] && forall k :: i < k < n ==> front[k] == trace[k];
      PhaseMeans(front, i);
      assert front + [trace[n]] == trace;
      WatchedPhase(front, trace[n]);
      if exists k :: i <= k < n && Odd(front[k]) {
        var k :| i <= k < n && Odd(front[k]);
        assert Odd(trace[k]);
      }
    }
  }

  lemma {:induction false} PairedMeans(trace: seq<Action>)
    requires !Watch(trace).tools.broken
    ensures ToolEventsPaired(trace)
  {
    if trace != [] {
      var front, n := trace[..|trace| - 1], |trace| - 1;
      PairedMeans(front);
      forall i, j | NextToolAction(trace, i, j) && IsToolEvent(trace[i]) ensures Paired(trace, i, j) {
        assert forall k :: 0 <= k < n ==> trace[k] == front[k];
        if j < n {
          assert NextToolAction(front, i, j) && Paired(front, i, j);
          if trace[i].Undelivered? {
            var k :| i <= k < j && Odd(front[k]);
            assert Odd(trace[k]);
          }
        } else {
          PhaseMeans(front, i);
          if trace[i].Undelivered? {
            var k :| i <= k < n && Odd(front[k]);
            assert Odd(trace[k]);
          }
        }
      }
    }
  }

  // Within one response, no step is started twice.
  ghost predicate StepsDistinct(trace: seq<Action>) {
    forall i, j :: 0 <= i < j < |trace| && trace[i].Delivered? && trace[i].event.ToolStarted? &&
      trace[j].Delivered? && trace[j].event.ToolStarted? && (forall k :: i < k < j ==> !trace[k].CompleterCalled?)
      ==> trace[i].event.step != trace[j].event.step
  }

  lemma {:induction false} StepsMean(trace: seq<Action>, i: int)
    requires 0 <= i < |trace| && trace[i].Delivered? && trace[i].event.ToolStarted?
    requires forall k :: i < k < |trace| ==> !trace[k].CompleterCalled?
    ensures trace[i].event.step in Watch(trace).tools.steps
  {
    var front := trace[..|trace| - 1];
    if i < |front| {
      assert front[i] == trace[i] && forall k :: i < k < |front| ==> front[k] == trace[k];
      StepsMean(front, i);
    }
  }

  lemma {:induction false} DistinctMeans(trace: seq<Action>)
    requires !Watch(trace).tools.broken
    ensures StepsDistinct(trace)
  {
    if trace != [] {
      var front, n := trace[..|trace| - 1], |trace| - 1;
      DistinctMeans(front);
      forall i, j | 0 <= i < j < |trace| && trace[i].Delivered? && trace[i].event.ToolStarted? &&
        trace[j].Delivered? && trace[j].event.ToolStarted? && (forall k :: i < k < j ==> !trace[k].CompleterCalled?)
        ensures trace[i].event.step != trace[j].event.step
      {
        assert forall k :: 0 <= k < n ==> trace[k] == front[k];
        if j == n {
          StepsMean(front, i);
        }
      }
    }
  }

  // A tool that asks a human or hands off ends the run: no turn begins, no request
  // is made and no tool starts after it, unless something odd happened in between.
  ghost predicate StopsEndTheRun(trace: seq<Action>) {
    forall i, j :: 0 <= i < j < |trace| && trace[i].ToolRan? && Stops(trace[i].answer) && GoingOn(trace[j])
      ==> exists k :: i < k < j && Odd(trace[k])
  }

  predicate GoingOn(a: Action) {
    a.TurnBegins? || a.CompleterCalled? || (a.Delivered? && a.event.ToolStarted?)
  }

  // In the response at hand a tool stopped the run, and nothing odd has happened since.
  ghost predicate ToolStopped(trace: seq<Action>) {
    exists i :: 0 <= i < |trace| && trace[i].ToolRan? && Stops(trace[i].answer) &&
                forall k :: i < k < |trace| ==> !Odd(trace[k]) && !trace[k].CompleterCalled?
  }

  lemma RunsAreNotOdd(a: Action)
    ensures a.ToolRan? ==> !Odd(a)
  {
  }

  lemma WatchedStops(trace: seq<Action>, a: Action)
    ensures var stopping := Watch(trace).tools.stopping || (a.ToolRan? && Stops(a.answer));
            Watch(trace + [a]).tools.stopping == (stopping && !Odd(a) && !a.CompleterCalled?)
  {
    WatchSnoc(trace, a);
  }

  lemma {:induction false} StoppedMeans(trace: seq<Action>)
    ensures Watch(trace).tools.stopping == ToolStopped(trace)
  {
    if trace != [] {
      hide Watch, Odd, Stops;
      var front, n := trace[..|trace| - 1], |trace| - 1;
      StoppedMeans(front);
      assert trace == front + [trace[n]];
      WatchedStops(front, trace[n]);
      RunsAreNotOdd(trace[n]);
      assert forall k :: 0 <= k < n ==> trace[k] == front[k];
      if ToolStopped(front) && !Odd(trace[n]) && !trace[n].CompleterCalled? {
        var i :| 0 <= i < n && front[i].ToolRan? && Stops(front[i].answer) &&
                 forall k :: i < k < n ==> !Odd(front[k]) && !front[k].CompleterCalled?;
        assert trace[i].ToolRan? && forall k :: i < k < n + 1 ==> !Odd(trace[k]) && !trace[k].CompleterCalled?;
      }
      if ToolStopped(trace) {
        var i :| 0 <= i < n + 1 && trace[i].ToolRan? && Stops(trace[i].answer) &&
                 forall k :: i < k < n + 1 ==> !Odd(trace[k]) && !trace[k].CompleterCalled?;
        if i < n {
          assert front[i].ToolRan? && forall k :: i < k < n ==> !Odd(front[k]) && !front[k].CompleterCalled?;
        }
      }
    }
  }

  lemma {:induction false} StoppingMeans(trace: seq<Action>, i: int)
    requires 0 <= i < |trace| && trace[i].ToolRan? && Stops(trace[i].answer)
    requires forall k :: i < k < |trace| ==> !Odd(trace[k])
    ensures Watch(trace).tools.stopping || Watch(trace).tools.broken
  {
    var front := trace[..|trace| - 1];
    if i < |front| {
      assert front[i] == trace[i] && forall k :: i < k < |front| ==> front[k] == trace[k];
      StoppingMeans(front, i);
    }
  }

  lemma {:induction false} StopsMean(trace: seq<Action>)
    requires !Watch(trace).tools.broken
    ensures StopsEndTheRun(trace)
  {
    if trace != [] {
      var front, n := trace[..|trace| - 1], |trace| - 1;
      StopsMean(front);
      forall i, j | 0 <= i < j < |trace| && trace[i].ToolRan? && Stops(trace[i].answer) && GoingOn(trace[j])
        ensures exists k :: i < k < j && Odd(trace[k])
      {
        assert forall k :: 0 <= k < n ==> trace[k] == front[k];
        if forall k :: i < k < j ==> !Odd(front[k]) {
          if j == n {
            StoppingMeans(front, i);
          }
          assert false;
        }
        var k :| i < k < j && Odd(front[k]);
        assert Odd(trace[k]);
      }
    }
  }

  // ------------------------------------------------------- fruitless turns

  // A tool ran in the response that is being processed at `j`.
  ghost predicate ToolRanBefore(trace: seq<Action>, j: int)
    requires 0 <= j <= |trace|
  {
    exists i :: 0 <= i < j && trace[i].ToolRan? && forall k :: i < k < j ==> !trace[k].CompleterCalled?
  }

  // A tool-call turn that ended without a tool having run.
  ghost predicate Fruitless(trace: seq<Action>, j: int) {
    0 <= j < |trace| && trace[j].ToolTurnEnded? && !ToolRanBefore(trace, j)
  }

  // Of the tool-call turns before `p`, the last three ended at `a`, `b` and `c`.
  ghost predicate LastThree(trace: seq<Action>, a: int, b: int, c: int, p: int) {
    0 <= a < b < c < p <= |trace| && forall k :: a < k < p && k != b && k != c ==> !trace[k].ToolTurnEnded?
  }

  // Three fruitless tool-call turns in a row end the run: no turn begins and no
  // request is made after them, unless something odd happened after the third.
  ghost predicate FruitlessTurnsEndTheRun(trace: seq<Action>) {
    forall a, b, c, p :: LastThree(trace, a, b, c, p) && p < |trace| &&
      Fruitless(trace, a) && Fruitless(trace, b) && Fruitless(trace, c) &&
      (trace[p].TurnBegins? || trace[p].CompleterCalled?)
      ==> exists k :: c < k < p && Odd(trace[k])
  }

  lemma {:induction false} RanMeans(trace: seq<Action>)
    ensures Watch(trace).turns.ran == ToolRanBefore(trace, |trace|)
  {
    if trace != [] {
      var front, n := trace[..|trace| - 1], |trace| - 1;
      RanMeans(front);
      assert forall k :: 0 <= k < n ==> trace[k] == front[k];
      if trace[n].ToolRan? {
        assert ToolRanBefore(trace, n + 1);
      } else if ToolRanBefore(front, n) && !trace[n].CompleterCalled? {
        var i :| 0 <= i < n && front[i].ToolRan? && forall k :: i < k < n ==> !front[k].CompleterCalled?;
        assert trace[i].ToolRan? && forall k :: i < k < n + 1 ==> !trace[k].CompleterCalled?;
      }
      if ToolRanBefore(trace, n + 1) && !trace[n].ToolRan? {
        var i :| 0 <= i < n + 1 && trace[i].ToolRan? && forall k :: i < k < n + 1 ==> !trace[k].CompleterCalled?;
        assert front[i].ToolRan? && forall k :: i < k < n ==> front[k] == trace[k];
      }
    }
  }

  lemma WatchedTurns(trace: seq<Action>, a: Action)
    requires !a.ToolTurnEnded?
    ensures var w, w' := Watch(trace).turns, Watch(trace + [a]).turns;
            w'.streak == w.streak && w'.excused == (w.excused || Odd(a))
  {
    WatchSnoc(trace, a);
  }

  // What the watch knows after the last tool-call turn, which ended at `c`.
  lemma {:induction false} SinceLastTurn(trace: seq<Action>, c: int)
    requires 0 <= c < |trace| && trace[c].ToolTurnEnded?
    requires forall k :: c < k < |trace| ==> !trace[k].ToolTurnEnded?
    ensures var w, before := Watch(trace).turns, Watch(trace[..c]).turns;
            && w.streak == (if ToolRanBefore(trace[..c], c) then 0 else before.streak + 1)
            && (w.excused <==> exists k :: c < k < |trace| && Odd(trace[k]))
    decreases |trace|
  {
    var front, n := trace[..|trace| - 1], |trace| - 1;
    if c < n {
      hide ToolRanBefore, Odd, Watch;
      WatchedTurns(front, trace[n]);
      assert front + [trace[n]] == trace;
      assert front[..c] == trace[..c] && forall k :: c <= k < n ==> front[k] == trace[k];
      SinceLastTurn(front, c);
      if exists k :: c < k < n && Odd(front[k]) {
        var k :| c < k < n && Odd(front[k]);
        assert Odd(trace[k]);
      }
    } else {
      hide ToolRanBefore, Watch;
      RanMeans(front);
      assert trace[..c] == front && front + [ToolTurnEnded] == trace;
      WatchedEnd(front);
    }
  }

  lemma WatchedEnd(trace: seq<Action>)
    ensures var w, w' := Watch(trace).turns, Watch(trace + [ToolTurnEnded]).turns;
            w'.streak == (if w.ran then 0 else w.streak + 1) && !w'.excused
  {
    WatchSnoc(trace, ToolTurnEnded);
  }

  lemma FruitlessInPrefix(trace: seq<Action>, j: int, n: int)
    requires 0 <= j < n <= |trace|
    ensures Fruitless(trace[..n], j) == Fruitless(trace, j)
    ensures ToolRanBefore(trace[..j], j) == ToolRanBefore(trace, j)
  {
    assert forall k :: 0 <= k < j ==> trace[..n][k] == trace[k] == trace[..j][k];
    if ToolRanBefore(trace, j) {
      var i :| 0 <= i < j && trace[i].ToolRan? && forall k :: i < k < j ==> !trace[k].CompleterCalled?;
      assert trace[..j][i].ToolRan? && trace[..n][i].ToolRan?;
    }
  }

  // Three fruitless turns in a row make a streak of at least three.
  lemma StreakMeans(trace: seq<Action>, a: int, b: int, c: int)
    requires LastThree(trace, a, b, c, |trace|)
    requires Fruitless(trace, a) && Fruitless(trace, b) && Fruitless(trace, c)
    ensures Watch(trace).turns.streak >= 3
    ensures Watch(trace).turns.excused <==> exists k :: c < k < |trace| && Odd(trace[k])
  {
    hide Watch;
    var toC, toB := trace[..c], trace[..b];
    assert toC[..b] == toB && toB[..a] == trace[..a];
    assert forall k :: 0 <= k < c ==> toC[k] == trace[k];
    assert forall k :: 0 <= k < b ==> toB[k] == trace[k];
    SinceLastTurn(trace, c);
    FruitlessInPrefix(trace, c, |trace|);
    SinceLastTurn(toC, b);
    FruitlessInPrefix(trace, b, c);
    FruitlessInPrefix(toC, b, c);
    SinceLastTurn(toB, a);
    FruitlessInPrefix(trace, a, b);
    FruitlessInPrefix(toB, a, b);
  }

  // The last three tool-call turns ran no tool.
  ghost predicate ThreeFruitless(trace: seq<Action>) {
    exists a, b, c ::
      LastThree(trace, a, b, c, |trace|) && Fruitless(trace, a) && Fruitless(trace, b) && Fruitless(trace, c)
  }

  lemma {:induction false} LastOfStreak(trace: seq<Action>) returns (c: int)
    requires Watch(trace).turns.streak > 0
    ensures 0 <= c < |trace| && Fruitless(trace, c) && forall k :: c < k < |trace| ==> !trace[k].ToolTurnEnded?
    ensures Watch(trace[..c]).turns.streak == Watch(trace).turns.streak - 1
  {
    var front, n := trace[..|trace| - 1], |trace| - 1;
    assert trace == front + [trace[n]];
    if trace[n].ToolTurnEnded? {
      c := n;
      RanMeans(front);
      FruitlessInPrefix(trace, n, n + 1);
    } else {
      hide ToolRanBefore, Odd, Watch;
      WatchedTurns(front, trace[n]);
      c := LastOfStreak(front);
      FruitlessInPrefix(trace, c, n);
      assert trace[..c] == front[..c] && forall k :: c < k < n ==> trace[k] == front[k];
    }
  }

  lemma StreakIsFruitless(trace: seq<Action>)
    ensures Watch(trace).turns.streak >= 3 <==> ThreeFruitless(trace)
  {
    hide Watch, ToolRanBefore, Fruitless;
    if Watch(trace).turns.streak >= 3 {
      var c := LastOfStreak(trace);
      var b := LastOfStreak(trace[..c]);
      var a := LastOfStreak(trace[..c][..b]);
      assert trace[..c][..b] == trace[..b];
      FruitlessInPrefix(trace, b, c);
      FruitlessInPrefix(trace, a, b);
      assert forall k :: 0 <= k < c ==> trace[..c][k] == trace[k];
      assert forall k :: 0 <= k < b ==> trace[..b][k] == trace[k];
      assert LastThree(trace, a, b, c, |trace|);
    }
    if ThreeFruitless(trace) {
      var a, b, c :|
        LastThree(trace, a, b, c, |trace|) && Fruitless(trace, a) && Fruitless(trace, b) && Fruitless(trace, c);
      StreakMeans(trace, a, b, c);
    }
  }

  lemma {:induction false} LateMeans(trace: seq<Action>)
    requires !Watch(trace).turns.late
    ensures FruitlessTurnsEndTheRun(trace)
  {
    if trace != [] {
      var front, n := trace[..|trace| - 1], |trace| - 1;
      LateMeans(front);
      forall a, b, c, p | LastThree(trace, a, b, c, p) && p < |trace| &&
        Fruitless(trace, a) && Fruitless(trace, b) && Fruitless(trace, c) &&
        (trace[p].TurnBegins? || trace[p].CompleterCalled?)
        ensures exists k :: c < k < p && Odd(trace[k])
      {
        assert forall k :: 0 <= k < n ==> trace[k] == front[k];
        FruitlessInPrefix(trace, a, n);
        FruitlessInPrefix(trace, b, n);
        FruitlessInPrefix(trace, c, n);
        assert LastThree(front, a, b, c, p);
        if p == n { StreakMeans(front, a, b, c); }
        var k :| c < k < p && Odd(front[k]);
        assert Odd(trace[k]);
      }
    }
  }

  ghost predicate OddSinceRequest(trace: seq<Action>) {
    exists k :: 0 <= k < |trace| && Odd(trace[k]) && forall l :: k < l < |trace| ==> !trace[l].CompleterCalled?
  }

  lemma {:induction false} OddMeans(trace: seq<Action>)
    ensures Watch(trace).odd == OddSinceRequest(trace)
  {
    if trace != [] {
      var front, n := trace[..|trace| - 1], |trace| - 1;
      OddMeans(front);
      assert forall k :: 0 <= k < n ==> trace[k] == front[k];
      if Odd(trace[n]) {
        assert OddSinceRequest(trace);
      } else if OddSinceRequest(front) && !trace[n].CompleterCalled? {
        var k :| 0 <= k < n && Odd(front[k]) && forall l :: k < l < n ==> !front[l].CompleterCalled?;
        assert Odd(trace[k]) && forall l :: k < l < n + 1 ==> !trace[l].CompleterCalled?;
      }
      if OddSinceRequest(trace) && !Odd(trace[n]) {
        var k :| 0 <= k < n + 1 && Odd(trace[k]) && forall l :: k < l < n + 1 ==> !trace[l].CompleterCalled?;
        assert Odd(front[k]) && forall l :: k < l < n ==> front[l] == trace[l];
      }
    }
  }

  // ----------------------------------------------------------- the last event

  // The end of the run is told once, as the last thing that happens, unless a
  // protocol failure happened between the last request and it.
  ghost predicate EndIsLast(trace: seq<Action>) {
    forall i :: 0 <= i < |trace| - 1 && IsTerminal(trace[i]) ==> FailedByProtocol(trace, i + 1)
  }

  ghost predicate FailedByProtocol(trace: seq<Action>, j: int)
    requires 0 <= j <= |trace|
  {
    exists k :: 0 <= k < j && ProtocolFailure(trace[k]) && forall l :: k < l < j ==> !trace[l].CompleterCalled?
  }

  lemma {:induction false} ProtocolMeans(trace: seq<Action>)
    ensures Watch(trace).end.protocol ==> FailedByProtocol(trace, |trace|)
  {
    if trace != [] && Watch(trace).end.protocol {
      var front, n := trace[..|trace| - 1], |trace| - 1;
      ProtocolMeans(front);
      if ProtocolFailure(trace[n]) {
        assert FailedByProtocol(trace, n + 1);
      } else {
        var k :| 0 <= k < n && ProtocolFailure(front[k]) && forall l :: k < l < n ==> !front[l].CompleterCalled?;
        assert ProtocolFailure(trace[k]) && forall l :: k < l < n ==> trace[l] == front[l];
      }
    }
  }

  lemma {:induction false} EndMeans(trace: seq<Action>)
    requires !Watch(trace).end.again
    ensures EndIsLast(trace)
  {
    if trace != [] {
      var front, n := trace[..|trace| - 1], |trace| - 1;
      EndMeans(front);
      forall i | 0 <= i < n && IsTerminal(trace[i]) ensures FailedByProtocol(trace, i + 1) {
        assert forall k :: 0 <= k < n ==> trace[k] == front[k];
        if i == n - 1 { ProtocolMeans(front); }
        assert FailedByProtocol(front, i + 1);
        var k :| 0 <= k < i + 1 && ProtocolFailure(front[k]) &&
                 forall l :: k < l < i + 1 ==> !front[l].CompleterCalled?;
        assert ProtocolFailure(trace[k]) && forall l :: k < l < i + 1 ==> trace[l] == front[l];
      }
    }
  }

  // Without a protocol failure, no run tells its end twice.
  lemma OneEndPerRun(trace: seq<Action>, i: int, j: int)
    requires EndIsLast(trace) && forall k :: 0 <= k < |trace| ==> !ProtocolFailure(trace[k])
    requires 0 <= i < |trace| && 0 <= j < |trace| && IsTerminal(trace[i]) && IsTerminal(trace[j])
    ensures i == j == |trace| - 1
  {
  }
}
