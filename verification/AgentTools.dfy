// Executing the tool calls of one response (core/bridge/agent/tool_executor.go,
// tool_executor_execute.go, tool_executor_resolution.go).
module AgentTools {
  import opened Options
  import opened Text
  import opened AgentMessages
  import opened AgentTrace
  import opened AgentEvents

  datatype CallOutcome = CallOutcome(executed: bool, stopErr: Option<Failure>)

  const NOT_EXECUTED := CallOutcome(false, None)
  const EXECUTED := CallOutcome(true, None)
  const AWAITS_HUMAN := CallOutcome(true, Some(Failure(AwaitingHuman, false, false, false)))
  const HANDED_OFF := CallOutcome(true, Some(Failure(IterationHandoff, false, false, false)))

  datatype TurnStats = TurnStats(totalCalls: nat, executed: nat) {
    predicate NonExecutable() {
      totalCalls > 0 && executed == 0
    }
  }

  predicate IsResult(m: Message, callID: string) {
    m.role == ToolRole && m.toolCallID == callID && m.toolCalls == []
  }

  // The results answer the calls in their order, from the first one on.
  predicate AnswersInOrder(results: seq<Message>, calls: seq<IndexedCall>) {
    |results| <= |calls| &&
    forall i :: 0 <= i < |results| ==> IsResult(results[i], TrimSpace(calls[i].call.id))
  }

  // The last thing a client could see.
  ghost predicate LastIs(trace: seq<Action>, a: Action) {
    trace != [] && trace[|trace| - 1] == a
  }

  // The finish of a call was the last thing that happened.
  ghost predicate Finished(trace: seq<Action>, turn: nat, step: nat) {
    || LastIs(trace, Delivered(ToolFinished(turn, step, true)))
    || LastIs(trace, Delivered(ToolFinished(turn, step, false)))
  }

  // The start of a call failed: its event did, or nothing happened after the finish
  // of the call before it, or since execution began.
  ghost predicate StartFailed(
    f: Failure, begun: seq<Action>, trace: seq<Action>, turn: nat, calls: seq<IndexedCall>, at: nat)
    requires at < |calls|
  {
    || LastIs(trace, Undelivered(ToolStarted(turn, calls[at].index), f.retryable))
    || (f == PLAIN && Before(begun, trace, turn, calls, at))
  }

  // All calls before `at` have been executed and nothing has happened since.
  ghost predicate Before(begun: seq<Action>, trace: seq<Action>, turn: nat, calls: seq<IndexedCall>, at: nat)
    requires at <= |calls|
  {
    if at == 0 then trace == begun else Finished(trace, turn, calls[at - 1].index)
  }

  // Execution ended at call `at` with `f`, after `results` results; `steps` are the
  // steps it started, `begun` is what had happened before it and `trace` what happened
  // up to its end. The last action tells which way it ended: the call asked a human, or
  // handed off after its finish was delivered, or could not be started, or one of its
  // events failed. Its result is there if it handed off, or if what failed was the
  // finish of a call that failed.
  ghost predicate StoppedAt(
    f: Failure, begun: seq<Action>, trace: seq<Action>, turn: nat, calls: seq<IndexedCall>, at: nat,
    steps: seq<nat>, results: nat)
  {
    && at < |calls| && begun <= trace
    && var step := calls[at].index;
       match f.kind
       case AwaitingHuman =>
         results == at && steps == Indices(calls[..at + 1]) && LastIs(trace, Delivered(AwaitingHumanAsked(turn, step)))
       case IterationHandoff =>
         results == at + 1 && steps == Indices(calls[..at + 1]) &&
         LastIs(trace, Delivered(ToolFinished(turn, step, true)))
       case _ =>
         || (results == at && steps == Indices(calls[..at]) && StartFailed(f, begun, trace, turn, calls, at))
         || (steps == Indices(calls[..at + 1]) && at <= results && EventFailed(f, trace, turn, step, results - at))
  }

  // The events of a started call that can fail.
  predicate FailedIn(e: Event, turn: nat, step: nat) {
    e == ToolFinished(turn, step, true) || e == ToolFinished(turn, step, false) || e == AwaitingHumanAsked(turn, step)
  }

  // What failed last was an event of a started call, after `added` results for it.
  ghost predicate EventFailed(f: Failure, trace: seq<Action>, turn: nat, step: nat, added: nat) {
    trace != [] &&
    var a := trace[|trace| - 1];
    && a.Undelivered? && a.retryable == f.retryable && FailedIn(a.event, turn, step)
    && added == if a.event == ToolFinished(turn, step, false) then 1 else 0
  }

  // A tool ran exactly once since the trace was `before`.
  ghost predicate RanOnce(before: seq<Action>, after: seq<Action>) {
    exists i :: |before| <= i < |after| && after[i].ToolRan? &&
                forall k :: |before| <= k < |after| && after[k].ToolRan? ==> k == i
  }

  ghost predicate NoneRan(before: seq<Action>, after: seq<Action>) {
    forall k :: |before| <= k < |after| ==> !after[k].ToolRan?
  }

  // How one started call can end. `added` is its result, if it has one by then.
  ghost predicate CallEnded(
    outcome: CallOutcome, err: Option<Failure>, trace: seq<Action>, turn: nat, step: nat, added: nat)
  {
    match err
    case Some(f) =>
      (f == PLAIN || f.kind == EmitFailed) && EventFailed(f, trace, turn, step, added)
    case None =>
      && (outcome == AWAITS_HUMAN ==> added == 0 && LastIs(trace, Delivered(AwaitingHumanAsked(turn, step))))
      && (outcome == HANDED_OFF ==> added == 1 && LastIs(trace, Delivered(ToolFinished(turn, step, true))))
      && (outcome.stopErr.None? ==> Finished(trace, turn, step))
  }

  // No tool was found for a call since the trace was `before`.
  ghost predicate Missed(before: seq<Action>, after: seq<Action>) {
    exists i :: |before| <= i < |after| && after[i].ToolMissing?
  }

  // What comes of a tool's answer.
  ghost predicate AnsweredAs(outcome: CallOutcome, answer: ToolAnswer) {
    && outcome.executed && (outcome == AWAITS_HUMAN <==> answer.AsksHuman?)
    && (outcome == HANDED_OFF <==> answer.HandsOff?)
  }

  // Execution stopped because a tool asked for it, or because something failed.
  ghost predicate StopExplained(before: seq<Failure>, after: seq<Failure>, stop: Option<Failure>, m: Monitor) {
    if stop == AWAITS_HUMAN.stopErr || stop == HANDED_OFF.stopErr then after == before && m.tools.stopping
    else Explained(before, after, stop)
  }

  class ToolCallExecutor {
    const history: History
    const events: AgentEventEmitter

    constructor (history: History, events: AgentEventEmitter)
      ensures this.history == history && this.events == events
    {
      this.history, this.events := history, events;
    }

    // A step may be started: no call is open, no tool has stopped the run, and the
    // step is new.
    ghost predicate Ready(turn: nat, step: nat)
      reads events
    {
      var m := events.M();
      InTurn(m, turn) && m.tools.phase == NoCall && !m.tools.stopping && step !in m.tools.steps
    }

    // A call is open.
    ghost predicate Open(turn: nat, step: nat)
      reads events
    {
      InTurn(events.M(), turn) && events.M().tools.phase == InCall(turn, step)
    }

    method StartToolCall(turn: nat, step: nat) returns (err: Option<Failure>)
      requires Ready(turn, step)
      modifies events
      ensures Explained(old(events.faults), events.faults, err) && !events.M().tools.stopping
      ensures OnlyTools(old(events.M()), events.M()) && SameTurns(old(events.M().turns), events.M().turns)
      ensures err.None? ==> Open(turn, step) && events.M().tools.steps == old(events.M().tools.steps) + [step]
      ensures err.Some? ==> !events.M().tools.phase.InCall? && events.M().tools.steps == old(events.M().tools.steps)
      ensures err.Some? ==> err.value == PLAIN || err.value.kind == EmitFailed
      ensures err.Some? && err.value.retryable ==> JustOdd(events.M())
      ensures old(events.trace) <= events.trace
      ensures NoneRan(old(events.trace), events.trace)
      ensures err.None? ==> events.trace == old(events.trace) + [Delivered(ToolStarted(turn, step))]
      ensures err.Some? ==>
                || LastIs(events.trace, Undelivered(ToolStarted(turn, step), err.value.retryable))
                || (err.value == PLAIN && events.trace == old(events.trace))
    {
      hide Watch;
      var badStepID := events.Fails(PLAIN);
      if badStepID {
        return Some(PLAIN);
      }
      err := events.Emit(ToolStarted(turn, step));
    }

    method FinishToolCall(turn: nat, step: nat, ok: bool) returns (err: Option<Failure>)
      requires Open(turn, step)
      modifies events
      ensures Explained(old(events.faults), events.faults, err)
      ensures err.None? || !old(events.M().tools.stopping) ==>
                events.M().tools.stopping == old(events.M().tools.stopping)
      ensures OnlyTools(old(events.M()), events.M()) && SameTurns(old(events.M().turns), events.M().turns)
      ensures events.M().tools.steps == old(events.M().tools.steps)
      ensures events.M().tools.phase == if err.None? then NoCall else Cut(err.value.retryable)
      ensures err.Some? ==> err.value == PLAIN || err.value.kind == EmitFailed
      ensures err.Some? && err.value.retryable ==> JustOdd(events.M())
      ensures events.trace == old(events.trace) +
                [if err.None? then Delivered(ToolFinished(turn, step, ok))
                 else Undelivered(ToolFinished(turn, step, ok), err.value.retryable)]
    {
      err := events.Emit(ToolFinished(turn, step, ok));
    }

    method AppendToolResult(callID: string) returns (ghost result: Message)
      modifies history`messages
      ensures IsResult(result, callID)
      ensures history.messages == AppendAll(old(history.messages), [result], history.maxMessages)
    {
      var text := Arbitrary<string>();
      var message := Message(ToolRole, text, [], callID);
      history.Append(message);
      result := message;
    }

    // The tool is looked up, run, and its outcome reported; the result goes to
    // the history before the event when the call failed, after it when it did not.
    method RunResolvedToolCall(turn: nat, step: nat, callID: string)
      returns (outcome: CallOutcome, err: Option<Failure>, ghost added: seq<Message>)
      requires Open(turn, step) && !events.M().tools.stopping
      modifies history`messages, events
      ensures Explained(old(events.faults), events.faults, err)
      ensures var n := |old(events.trace)|;
              n < |events.trace| && events.trace[n].ToolRan? &&
              (err.None? ==> AnsweredAs(outcome, events.trace[n].answer))
      ensures err.None? ==> events.M().tools.stopping == outcome.stopErr.Some?
      ensures OnlyTools(old(events.M()), events.M())
      ensures events.M().tools.steps == old(events.M().tools.steps) && !events.M().tools.phase.InCall?
      ensures err.None? ==> events.M().tools.phase == NoCall && outcome.executed && events.M().turns.ran
      ensures err.Some? ==> err.value == PLAIN || err.value.kind == EmitFailed
      ensures err.Some? && err.value.retryable ==> JustOdd(events.M())
      ensures outcome in {NOT_EXECUTED, EXECUTED, AWAITS_HUMAN, HANDED_OFF} && (err.Some? ==> outcome == NOT_EXECUTED)
      ensures |added| <= 1 && (added != [] ==> IsResult(added[0], callID))
      ensures err.None? ==> (added == [] <==> outcome == AWAITS_HUMAN)
      ensures history.messages == AppendAll(old(history.messages), added, history.maxMessages)
      ensures old(events.trace) <= events.trace
      ensures RanOnce(old(events.trace), events.trace)
      ensures CallEnded(outcome, err, events.trace, turn, step, |added|)
    {
      hide Watch, RanOnce, NoneRan, AppendAll, CallEnded;
      added := [];
      var answer := Arbitrary<ToolAnswer>();
      events.Record(ToolRan(answer));
      if answer.ExecutionFailed? || answer.PostProcessFailed? {
        outcome, err, added := FinishToolFailure(turn, step, callID);
      } else {
        outcome, err, added := FinishSuccessfulToolCall(turn, step, callID, answer);
      }
      RanThenNone(old(events.trace), answer, events.trace);
    }

    method FinishToolFailure(turn: nat, step: nat, callID: string)
      returns (outcome: CallOutcome, err: Option<Failure>, ghost added: seq<Message>)
      requires Open(turn, step) && !events.M().tools.stopping
      modifies history`messages, events
      ensures Explained(old(events.faults), events.faults, err) && !events.M().tools.stopping
      ensures OnlyTools(old(events.M()), events.M()) && SameTurns(old(events.M().turns), events.M().turns)
      ensures events.M().tools.steps == old(events.M().tools.steps)
      ensures events.M().tools.phase == if err.None? then NoCall else Cut(err.value.retryable)
      ensures err.Some? ==> err.value == PLAIN || err.value.kind == EmitFailed
      ensures err.Some? && err.value.retryable ==> JustOdd(events.M())
      ensures outcome == if err.None? then EXECUTED else NOT_EXECUTED
      ensures |added| == 1 && IsResult(added[0], callID)
      ensures history.messages == AppendAll(old(history.messages), added, history.maxMessages)
      ensures old(events.trace) <= events.trace
      ensures NoneRan(old(events.trace), events.trace)
      ensures CallEnded(outcome, err, events.trace, turn, step, |added|)
    {
      hide Watch, AppendAll;
      ghost var result := AppendToolResult(callID);
      added := [result];
      err := FinishToolCall(turn, step, false);
      outcome := if err.Some? then NOT_EXECUTED else EXECUTED;
    }

    method FinishSuccessfulToolCall(turn: nat, step: nat, callID: string, answer: ToolAnswer)
      returns (outcome: CallOutcome, err: Option<Failure>, ghost added: seq<Message>)
      requires Open(turn, step) && !answer.ExecutionFailed? && !answer.PostProcessFailed?
      requires events.M().tools.stopping == Stops(answer)
      modifies history`messages, events
      ensures Explained(old(events.faults), events.faults, err)
      ensures err.None? ==> events.M().tools.stopping == outcome.stopErr.Some?
      ensures OnlyTools(old(events.M()), events.M()) && SameTurns(old(events.M().turns), events.M().turns)
      ensures events.M().tools.steps == old(events.M().tools.steps) && !events.M().tools.phase.InCall?
      ensures err.None? ==> events.M().tools.phase == NoCall
      ensures err.Some? ==> err.value == PLAIN || err.value.kind == EmitFailed
      ensures err.Some? && err.value.retryable ==> JustOdd(events.M())
      ensures err.Some? ==> outcome == NOT_EXECUTED && added == []
      ensures err.None? ==>
                outcome ==
                  (if answer.AsksHuman? then AWAITS_HUMAN else if answer.HandsOff? then HANDED_OFF else EXECUTED)
      ensures |added| <= 1 && (added != [] ==> IsResult(added[0], callID))
      ensures err.None? ==> (added == [] <==> answer.AsksHuman?)
      ensures history.messages == AppendAll(old(history.messages), added, history.maxMessages)
      ensures old(events.trace) <= events.trace
      ensures NoneRan(old(events.trace), events.trace)
      ensures CallEnded(outcome, err, events.trace, turn, step, |added|)
    {
      hide Watch, AppendAll, OnlyTools, JustOdd;
      ghost var m := events.M();
      AppendAllNothing(history.messages, history.maxMessages);
      added, outcome := [], NOT_EXECUTED;
      err := FinishToolCall(turn, step, true);
      if err.Some? {
        return;
      }
      if answer.AsksHuman? {
        ghost var m' := events.M();
        err := AskHuman(turn, step);
        ToolsThenTools(m, m', events.M());
        outcome := if err.Some? then NOT_EXECUTED else AWAITS_HUMAN;
        return;
      }
      ghost var result := AppendToolResult(callID);
      added := [result];
      outcome := if answer.HandsOff? then HANDED_OFF else EXECUTED;
    }

    // The question for a human, after the finish of the call that asks it.
    method AskHuman(turn: nat, step: nat) returns (err: Option<Failure>)
      requires InTurn(events.M(), turn) && events.M().tools.phase == NoCall && events.M().tools.stopping
      modifies events
      ensures Explained(old(events.faults), events.faults, err)
      ensures OnlyTools(old(events.M()), events.M()) && SameTurns(old(events.M().turns), events.M().turns)
      ensures events.M().tools.steps == old(events.M().tools.steps) && events.M().tools.phase == NoCall
      ensures err.None? ==> events.M().tools.stopping
      ensures err.Some? ==> err.value == PLAIN || err.value.kind == EmitFailed
      ensures err.Some? && err.value.retryable ==> JustOdd(events.M())
      ensures events.trace == old(events.trace) +
                [if err.None? then Delivered(AwaitingHumanAsked(turn, step))
                 else Undelivered(AwaitingHumanAsked(turn, step), err.value.retryable)]
    {
      err := events.Emit(AwaitingHumanAsked(turn, step));
    }

    // One call of a response: started, resolved, and run unless it turns out to
    // be invalid or its tool missing.
    method ExecuteIndexedCall(turn: nat, indexed: IndexedCall)
      returns (outcome: CallOutcome, err: Option<Failure>, ghost added: seq<Message>)
      requires Ready(turn, indexed.index)
      modifies history`messages, events
      ensures Explained(old(events.faults), events.faults, err)
      ensures err.None? ==> events.M().tools.stopping == outcome.stopErr.Some?
      ensures err.None? && Executable(indexed.call) ==> outcome.executed || Missed(old(events.trace), events.trace)
      ensures OnlyTools(old(events.M()), events.M()) && !events.M().tools.phase.InCall?
      ensures err.None? ==> events.M().tools.phase == NoCall
      ensures err.None? ==> events.M().tools.steps == old(events.M().tools.steps) + [indexed.index]
      ensures err.None? ==> (events.M().turns.ran <==> old(events.M().turns.ran) || outcome.executed)
      ensures err.Some? ==> err.value == PLAIN || err.value.kind == EmitFailed
      ensures err.Some? && err.value.retryable ==> JustOdd(events.M())
      ensures outcome in {NOT_EXECUTED, EXECUTED, AWAITS_HUMAN, HANDED_OFF} && (err.Some? ==> outcome == NOT_EXECUTED)
      ensures |added| <= 1 && (added != [] ==> IsResult(added[0], TrimSpace(indexed.call.id)))
      ensures Executable(indexed.call) && err.None? ==> (added == [] <==> outcome == AWAITS_HUMAN)
      ensures history.messages == AppendAll(old(history.messages), added, history.maxMessages)
      ensures old(events.trace) <= events.trace
      ensures NoneRan(old(events.trace), events.trace) || RanOnce(old(events.trace), events.trace)
      ensures outcome.executed ==> RanOnce(old(events.trace), events.trace)
      ensures err.None? ==> CallEnded(outcome, err, events.trace, turn, indexed.index, |added|)
      ensures err.Some? && Executable(indexed.call) ==>
                || (events.M().tools.steps == old(events.M().tools.steps) && added == [] &&
                    (LastIs(events.trace, Undelivered(ToolStarted(turn, indexed.index), err.value.retryable)) ||
                     (err.value == PLAIN && events.trace == old(events.trace))))
                || (events.M().tools.steps == old(events.M().tools.steps) + [indexed.index] &&
                    CallEnded(outcome, err, events.trace, turn, indexed.index, |added|))
    {
      hide Watch, AppendAll, RanOnce, NoneRan, CallEnded, LastIs, TrimSpace, ValidateToolCall, Executable;
      hide OnlyTools, JustOdd;
      ghost var m := events.M();
      AppendAllNothing(history.messages, history.maxMessages);
      outcome, added := NOT_EXECUTED, [];
      err := StartToolCall(turn, indexed.index);
      if err.Some? {
        return;
      }
      ghost var started, m' := events.trace, events.M();
      var callID := TrimSpace(indexed.call.id);
      var issue := ValidateToolCall(indexed.call);
      if issue.Some? {
        if callID != "" {
          ghost var result := AppendToolResult(callID);
          added := [result];
        }
        err := FinishUnresolved(turn, indexed.index, |added|);
        ToolsThenTools(m, m', events.M());
        NoneThenNone(old(events.trace), started, events.trace);
        return;
      }
      var missing := ToolIsMissing(turn, indexed.index);
      ToolsThenTools(m, m', events.M());
      NoneThenNone(old(events.trace), started, events.trace);
      started, m' := events.trace, events.M();
      if missing {
        ghost var result := AppendToolResult(callID);
        added := [result];
        err := FinishUnresolved(turn, indexed.index, 1);
        ToolsThenTools(m, m', events.M());
        NoneThenNone(old(events.trace), started, events.trace);
        MissedBefore(old(events.trace), started, events.trace);
        return;
      }
      outcome, err, added := RunResolvedToolCall(turn, indexed.index, callID);
      ToolsThenTools(m, m', events.M());
      NoneThenRan(old(events.trace), started, events.trace);
    }

    // The catalog is asked for the tool.
    method ToolIsMissing(turn: nat, step: nat) returns (missing: bool)
      requires Open(turn, step) && !events.M().tools.stopping
      modifies events`trace
      ensures OnlyTools(old(events.M()), events.M()) && SameTurns(old(events.M().turns), events.M().turns)
      ensures events.M().tools == old(events.M().tools)
      ensures events.trace == old(events.trace) + if missing then [ToolMissing] else []
      ensures NoneRan(old(events.trace), events.trace) && (missing ==> LastIs(events.trace, ToolMissing))
    {
      missing := Arbitrary();
      if missing {
        events.Record(ToolMissing);
      }
    }

    // The finish of a call that no tool was run for.
    method FinishUnresolved(turn: nat, step: nat, ghost results: nat) returns (err: Option<Failure>)
      requires Open(turn, step) && !events.M().tools.stopping
      modifies events
      ensures Explained(old(events.faults), events.faults, err) && !events.M().tools.stopping
      ensures OnlyTools(old(events.M()), events.M()) && SameTurns(old(events.M().turns), events.M().turns)
      ensures events.M().tools.steps == old(events.M().tools.steps)
      ensures events.M().tools.phase == if err.None? then NoCall else Cut(err.value.retryable)
      ensures err.Some? ==> err.value == PLAIN || err.value.kind == EmitFailed
      ensures err.Some? && err.value.retryable ==> JustOdd(events.M())
      ensures old(events.trace) <= events.trace && NoneRan(old(events.trace), events.trace)
      ensures err.None? || results == 1 ==> CallEnded(NOT_EXECUTED, err, events.trace, turn, step, results)
    {
      err := FinishToolCall(turn, step, false);
    }

    // All calls of a response, in order, up to the first one that stops the turn.
    method Execute(turn: nat, calls: seq<IndexedCall>)
      returns (stats: TurnStats, err: Option<Failure>, ghost added: seq<Message>, ghost at: nat)
      requires InTurn(events.M(), turn) && events.M().tools.phase == NoCall
      requires !events.M().tools.stopping && !events.M().turns.ran
      requires Distinct(events.M().tools.steps + Indices(calls))
      requires forall i :: 0 <= i < |calls| ==> Executable(calls[i].call)
      modifies history`messages, events
      ensures StopExplained(old(events.faults), events.faults, err, events.M())
      ensures err.None? ==> !events.M().tools.stopping
      ensures OnlyTools(old(events.M()), events.M()) && !events.M().tools.phase.InCall?
      ensures err.None? ==> events.M().tools.phase == NoCall
      ensures err.None? ==> stats.totalCalls == |calls| && (stats.executed > 0 <==> events.M().turns.ran)
      ensures err.Some? && err.value.retryable ==> JustOdd(events.M())
      ensures old(events.trace) <= events.trace && AnswersInOrder(added, calls)
      ensures err.None? ==> |added| == |calls| && events.M().tools.steps == old(events.M().tools.steps) + Indices(calls)
      ensures err.Some? ==>
                var before, steps := old(events.M().tools.steps), events.M().tools.steps;
                before <= steps &&
                StoppedAt(err.value, old(events.trace), events.trace, turn, calls, at, steps[|before|..], |added|)
      ensures history.messages == AppendAll(old(history.messages), added, history.maxMessages)
    {
      hide Watch, AppendAll, Indices, Distinct, TrimSpace, Executable, CallEnded, StoppedAt, NoneRan, RanOnce;
      hide LastIs, Before, InTurn;
      stats, err, added, at := TurnStats(|calls|, 0), None, [], 0;
      NothingBefore(events.trace, turn, calls);
      ghost var steps, before := events.M().tools.steps, history.messages;
      assert calls[..|calls|] == calls;
      NothingYet(steps, calls, before, history.maxMessages);
      for i := 0 to |calls|
        invariant OnlyTools(old(events.M()), events.M()) && events.M().tools.phase == NoCall
        invariant InTurn(events.M(), turn)
        invariant !events.M().tools.stopping && events.faults == old(events.faults)
        invariant events.M().tools.steps == steps + Indices(calls[..i])
        invariant old(events.trace) <= events.trace && Before(old(events.trace), events.trace, turn, calls, i)
        invariant stats.totalCalls == |calls| && (stats.executed > 0 <==> events.M().turns.ran)
        invariant err.None? && |added| == i && AnswersInOrder(added, calls)
        invariant history.messages == AppendAll(before, added, history.maxMessages)
      {
        at := i;
        NextStepIsNew(steps, calls, i);
        ghost var here, m := events.trace, events.M();
        var outcome, callErr;
        ghost var result;
        outcome, callErr, result := ExecuteIndexedCall(turn, calls[i]);
        ToolsInTurn(m, events.M(), turn);
        AppendAllConcat(before, added, result, history.maxMessages);
        added := added + result;
        IndicesSnoc(calls, i);
        if callErr.Some? {
          err := callErr;
          FailedAt(err.value, old(events.trace), here, events.trace, turn, calls, at, steps, events.M().tools.steps,
                   |result|);
          return;
        }
        if outcome.executed {
          stats := stats.(executed := stats.executed + 1);
        }
        if outcome.stopErr.Some? {
          err := outcome.stopErr;
          EndedAt(outcome, old(events.trace), events.trace, turn, calls, at, steps, events.M().tools.steps, |result|);
          return;
        }
        WentOn(outcome, old(events.trace), events.trace, turn, calls, i, |result|);
      }
    }

    // The calls that were rejected before: reported, but not put into the history.
    method ReportInvalidCalls(turn: nat, issues: seq<Rejection>) returns (err: Option<Failure>)
      requires InTurn(events.M(), turn) && !events.M().tools.stopping
      requires events.M().tools.phase == NoCall && events.M().tools.steps == []
      requires Distinct(Indices(Rejected(issues)))
      modifies events
      ensures Explained(old(events.faults), events.faults, err) && !events.M().tools.stopping
      ensures OnlyTools(old(events.M()), events.M()) && SameTurns(old(events.M().turns), events.M().turns)
      ensures !events.M().tools.phase.InCall? && old(events.trace) <= events.trace
      ensures err.None? ==> events.M().tools.phase == NoCall && events.M().tools.steps == Indices(Rejected(issues))
      ensures err.Some? ==> err.value == PLAIN || err.value.kind == EmitFailed
      ensures err.Some? && err.value.retryable ==> JustOdd(events.M())
    {
      hide Watch, OnlyTools, JustOdd, NoneRan, LastIs;
      err := None;
      ghost var m := events.M();
      NoTools(m);
      ghost var calls := Rejected(issues);
      for i := 0 to |issues|
        invariant OnlyTools(old(events.M()), events.M()) && SameTurns(old(events.M().turns), events.M().turns)
        invariant events.M().tools.phase == NoCall && events.M().tools.steps == Indices(calls[..i])
        invariant err.None? && old(events.trace) <= events.trace && InTurn(events.M(), turn)
        invariant !events.M().tools.stopping && events.faults == old(events.faults)
      {
        assert [] + Indices(calls) == Indices(calls) && [] + Indices(calls[..i]) == Indices(calls[..i]);
        NextStepIsNew([], calls, i);
        ghost var here := events.M();
        err := ReportInvalidCall(turn, issues[i].index);
        ToolsThenTools(m, here, events.M());
        ToolsInTurn(here, events.M(), turn);
        if err.Some? {
          return;
        }
        assert Indices(calls[..i + 1]) == Indices(calls[..i]) + [calls[i].index];
      }
      assert calls[..|issues|] == calls;
    }

    method ReportInvalidCall(turn: nat, step: nat) returns (err: Option<Failure>)
      requires Ready(turn, step)
      modifies events
      ensures Explained(old(events.faults), events.faults, err) && !events.M().tools.stopping
      ensures OnlyTools(old(events.M()), events.M()) && SameTurns(old(events.M().turns), events.M().turns)
      ensures err.None? ==> events.M().tools.phase == NoCall
      ensures err.None? ==> events.M().tools.steps == old(events.M().tools.steps) + [step]
      ensures !events.M().tools.phase.InCall? && old(events.trace) <= events.trace
      ensures err.None? ==>
                events.trace ==
                  old(events.trace) + [Delivered(ToolStarted(turn, step)), Delivered(ToolFinished(turn, step, false))]
      ensures err.Some? ==> err.value == PLAIN || err.value.kind == EmitFailed
      ensures err.Some? && err.value.retryable ==> JustOdd(events.M())
    {
      hide Watch, OnlyTools, JustOdd, NoneRan, LastIs;
      ghost var m := events.M();
      err := StartToolCall(turn, step);
      if err.Some? {
        return;
      }
      ghost var m' := events.M();
      err := FinishToolCall(turn, step, false);
      ToolsThenTools(m, m', events.M());
    }

    // A call that a text handler asked for: its arguments come from the handler,
    // and an invalid one is an error of the turn.
    method ExecuteSingleWithStepIndex(turn: nat, step: nat, call: ToolCall)
      returns (outcome: CallOutcome, err: Option<Failure>, ghost added: seq<Message>)
      requires Ready(turn, step)
      modifies history`messages, events
      ensures err.None? || Executable(call) ==> Explained(old(events.faults), events.faults, err)
      ensures err.None? ==> events.M().tools.stopping == outcome.stopErr.Some?
      ensures err.None? ==> outcome.executed || Missed(old(events.trace), events.trace)
      ensures OnlyTools(old(events.M()), events.M()) && !events.M().tools.phase.InCall?
      ensures err.None? ==> events.M().tools.phase == NoCall
      ensures err.None? ==> events.M().tools.steps == old(events.M().tools.steps) + [step]
      ensures err.Some? ==> err.value == PLAIN || err.value.kind == EmitFailed
      ensures err.Some? && err.value.retryable ==> JustOdd(events.M())
      ensures outcome in {NOT_EXECUTED, EXECUTED, AWAITS_HUMAN, HANDED_OFF} && (err.Some? ==> outcome == NOT_EXECUTED)
      ensures |added| <= 1 && (added != [] ==> IsResult(added[0], TrimSpace(call.id)))
      ensures err.None? ==> Executable(call) && (added == [] <==> outcome == AWAITS_HUMAN)
      ensures history.messages == AppendAll(old(history.messages), added, history.maxMessages)
      ensures old(events.trace) <= events.trace
      ensures err.None? ==> CallEnded(outcome, err, events.trace, turn, step, |added|)
      ensures err.Some? && Executable(call) ==>
                || (events.M().tools.steps == old(events.M().tools.steps) && added == [] &&
                    (LastIs(events.trace, Undelivered(ToolStarted(turn, step), err.value.retryable)) ||
                     (err.value == PLAIN && events.trace == old(events.trace))))
                || (events.M().tools.steps == old(events.M().tools.steps) + [step] &&
                    CallEnded(outcome, err, events.trace, turn, step, |added|))
    {
      hide Watch, AppendAll, RanOnce, NoneRan, CallEnded, LastIs, TrimSpace, ValidateToolCall, Executable;
      hide OnlyTools, JustOdd;
      ghost var m := events.M();
      AppendAllNothing(history.messages, history.maxMessages);
      outcome, added := NOT_EXECUTED, [];
      err := StartToolCall(turn, step);
      if err.Some? {
        return;
      }
      ghost var m' := events.M();
      var callID := TrimSpace(call.id);
      var issue := ValidateToolCall(call);
      if issue.Some? {
        err := FinishToolCall(turn, step, false);
        ToolsThenTools(m, m', events.M());
        if err.None? {
          err := Some(PLAIN);
        }
        return;
      }
      var missing := ToolIsMissing(turn, step);
      ToolsThenTools(m, m', events.M());
      m' := events.M();
      if missing {
        ghost var here := events.trace;
        ghost var result := AppendToolResult(callID);
        added := [result];
        err := FinishUnresolved(turn, step, 1);
        ToolsThenTools(m, m', events.M());
        MissedBefore(old(events.trace), here, events.trace);
        return;
      }
      outcome, err, added := RunResolvedToolCall(turn, step, callID);
      ToolsThenTools(m, m', events.M());
    }
  }

  lemma ToolsInTurn(m: Monitor, m': Monitor, turn: nat)
    requires OnlyTools(m, m')
    ensures InTurn(m', turn) == InTurn(m, turn)
  {
  }

  lemma NoTools(m: Monitor)
    ensures OnlyTools(m, m)
  {
  }

  lemma ToolsThenTools(m: Monitor, m': Monitor, m'': Monitor)
    requires OnlyTools(m, m') && OnlyTools(m', m'')
    ensures OnlyTools(m, m'')
  {
  }

  lemma NoneThenNone(before: seq<Action>, mid: seq<Action>, after: seq<Action>)
    requires before <= mid <= after && NoneRan(before, mid) && NoneRan(mid, after)
    ensures NoneRan(before, after)
  {
    assert forall k :: 0 <= k < |mid| ==> after[k] == mid[k];
  }

  lemma RanThenNone(before: seq<Action>, answer: ToolAnswer, after: seq<Action>)
    requires before + [ToolRan(answer)] <= after && NoneRan(before + [ToolRan(answer)], after)
    ensures RanOnce(before, after)
  {
    assert after[|before|] == (before + [ToolRan(answer)])[|before|];
  }

  lemma NoneThenRan(before: seq<Action>, mid: seq<Action>, after: seq<Action>)
    requires before <= mid <= after && NoneRan(before, mid) && RanOnce(mid, after)
    ensures RanOnce(before, after)
  {
    assert forall k :: 0 <= k < |mid| ==> after[k] == mid[k];
    var i :| |mid| <= i < |after| && after[i].ToolRan? &&
             forall k :: |mid| <= k < |after| && after[k].ToolRan? ==> k == i;
    assert forall k :: |before| <= k < |after| && after[k].ToolRan? ==> k == i;
  }

  lemma MissedBefore(before: seq<Action>, mid: seq<Action>, after: seq<Action>)
    requires before < mid <= after && LastIs(mid, ToolMissing)
    ensures Missed(before, after)
  {
    assert after[|mid| - 1] == mid[|mid| - 1];
  }

  lemma NothingBefore(trace: seq<Action>, turn: nat, calls: seq<IndexedCall>)
    ensures Before(trace, trace, turn, calls, 0)
  {
  }

  lemma WentOn(outcome: CallOutcome, begun: seq<Action>, trace: seq<Action>, turn: nat, calls: seq<IndexedCall>,
               i: nat, added: nat)
    requires i < |calls| && outcome.stopErr.None? && CallEnded(outcome, None, trace, turn, calls[i].index, added)
    ensures Before(begun, trace, turn, calls, i + 1)
  {
  }

  lemma FailedAt(f: Failure, begun: seq<Action>, here: seq<Action>, trace: seq<Action>, turn: nat,
                 calls: seq<IndexedCall>, at: nat, steps: seq<nat>, after: seq<nat>, added: nat)
    requires at < |calls| && (f == PLAIN || f.kind == EmitFailed)
    requires begun <= trace && Before(begun, here, turn, calls, at)
    requires || (after == steps + Indices(calls[..at]) && added == 0 &&
                 (LastIs(trace, Undelivered(ToolStarted(turn, calls[at].index), f.retryable)) ||
                  (f == PLAIN && trace == here)))
             || (after == steps + Indices(calls[..at]) + [calls[at].index] &&
                 CallEnded(NOT_EXECUTED, Some(f), trace, turn, calls[at].index, added))
    ensures steps <= after && StoppedAt(f, begun, trace, turn, calls, at, after[|steps|..], at + added)
  {
    hide Indices, EventFailed, LastIs, Before;
    IndicesSnoc(calls, at);
    assert after[|steps|..] == Indices(calls[..at]) || after[|steps|..] == Indices(calls[..at + 1]);
  }

  lemma EndedAt(outcome: CallOutcome, begun: seq<Action>, trace: seq<Action>, turn: nat, calls: seq<IndexedCall>,
                at: nat, steps: seq<nat>, after: seq<nat>, added: nat)
    requires at < |calls| && (outcome == AWAITS_HUMAN || outcome == HANDED_OFF) && begun <= trace
    requires after == steps + Indices(calls[..at]) + [calls[at].index]
    requires CallEnded(outcome, None, trace, turn, calls[at].index, added)
    ensures steps <= after &&
            StoppedAt(outcome.stopErr.value, begun, trace, turn, calls, at, after[|steps|..], at + added)
  {
    hide Indices;
    IndicesSnoc(calls, at);
    assert after[|steps|..] == Indices(calls[..at + 1]);
  }

  lemma NothingYet(steps: seq<nat>, calls: seq<IndexedCall>, messages: seq<Message>, max: int)
    ensures steps + Indices(calls[..0]) == steps && AppendAll(messages, [], max) == messages
  {
  }

  lemma IndicesSnoc(calls: seq<IndexedCall>, i: nat)
    requires i < |calls|
    ensures Indices(calls[..i + 1]) == Indices(calls[..i]) + [calls[i].index]
  {
  }

  lemma NextStepIsNew(steps: seq<nat>, calls: seq<IndexedCall>, i: nat)
    requires i < |calls| && Distinct(steps + Indices(calls))
    ensures calls[i].index !in steps + Indices(calls[..i])
  {
    var all := steps + Indices(calls);
    var before := steps + Indices(calls[..i]);
    assert all[|steps| + i] == calls[i].index;
    forall k | 0 <= k < |before| ensures before[k] == all[k] && before[k] != calls[i].index {
      assert before[k] == all[k];
    }
  }
}
