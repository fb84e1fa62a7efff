// The run loop of the agent (core/bridge/agent/loop.go, loop_finish.go,
// loop_assistant_text.go, loop_history.go, loop_runtime.go, turn_retry.go).
module AgentLoop {
  import opened Options
  import opened Text
  import opened AgentMessages
  import opened AgentTrace
  import opened AgentEvents
  import opened AgentCompletion
  import opened AgentTools

  datatype TurnOutcome = TurnOutcome(output: string, done: bool)

  const CONTINUE := TurnOutcome("", false)

  // What a text handler answers. An invocation is a tool call with the feedback
  // to append after it.
  datatype TextInvocation = TextInvocation(call: ToolCall, feedback: seq<Message>)

  datatype TextResult = TextResult(
    recognized: bool, toolName: string, toolCallID: string, invocations: seq<TextInvocation>,
    asksHuman: bool, askerName: string, askerCallID: string, feedback: seq<Message>)

  predicate ValidToolRef(name: string, callID: string) {
    TrimSpace(name) != "" && TrimSpace(callID) != ""
  }

  predicate ValidTextResult(r: TextResult) {
    && (if r.invocations == [] then ValidToolRef(r.toolName, r.toolCallID)
        else forall i :: 0 <= i < |r.invocations| ==> Executable(r.invocations[i].call))
    && (r.asksHuman ==> ValidToolRef(r.askerName, r.askerCallID))
  }

  // The assistant message of a text turn, with the calls found in it.
  function TextCallMessage(message: Message, invocations: seq<TextInvocation>): Message {
    message.(toolCalls := seq(|invocations|, i requires 0 <= i < |invocations| => invocations[i].call))
  }

  // ------------------------------------------------------ what a turn adds

  // A call of a text turn adds its result and then, unless its tool is missing,
  // the handler's feedback.
  ghost predicate AnswersInvocation(part: seq<Message>, invocation: TextInvocation) {
    && part != [] && IsResult(part[0], TrimSpace(invocation.call.id))
    && (part[1..] == [] || part[1..] == invocation.feedback)
  }

  ghost function Flat(parts: seq<seq<Message>>): seq<Message> {
    if parts == [] then [] else Flat(parts[..|parts| - 1]) + parts[|parts| - 1]
  }

  lemma FlatSnoc(parts: seq<seq<Message>>, part: seq<Message>)
    ensures Flat(parts + [part]) == Flat(parts) + part
  {
    assert (parts + [part])[..|parts|] == parts;
  }

  // What a text turn that was handled appends: the message and the handler's
  // feedback, or the message with the calls found in it, what each call adds, and
  // the feedback at the end.
  ghost predicate TextTurnMessages(msg: Message, added: seq<Message>) {
    added != [] &&
    (added[0] == msg || exists invocations, parts, feedback :: CallsAnswered(msg, invocations, parts, feedback, added))
  }

  ghost predicate CallsAnswered(
    msg: Message, invocations: seq<TextInvocation>, parts: seq<seq<Message>>, feedback: seq<Message>,
    added: seq<Message>)
  {
    && added == [TextCallMessage(msg, invocations)] + Flat(parts) + feedback
    && |parts| == |invocations| && forall i :: 0 <= i < |parts| ==> AnswersInvocation(parts[i], invocations[i])
  }

  // The messages a native tool-call turn appends: the notice that nothing could
  // be executed, or the assistant message with its executable calls, followed by
  // results that answer these calls in order.
  ghost predicate ToolTurnMessages(msg: Message, added: seq<Message>) {
    var calls := Select(msg.toolCalls, true);
    added == [] ||
    if calls == [] then
      |added| == 1 && added[0].role == Assistant && added[0].toolCalls == []
    else
      added[0] == msg.(toolCalls := Calls(calls)) && AnswersInOrder(added[1..], calls)
  }

  // What a text turn that failed has appended: nothing, the message, or the message
  // with the calls found in it and what the first of these calls added.
  ghost predicate TextPart(msg: Message, added: seq<Message>) {
    || added == []
    || added == [msg]
    || exists invocations, parts :: CallsBegun(msg, invocations, parts, added)
  }

  ghost predicate CallsBegun(
    msg: Message, invocations: seq<TextInvocation>, parts: seq<seq<Message>>, added: seq<Message>)
  {
    && added == [TextCallMessage(msg, invocations)] + Flat(parts)
    && |parts| <= |invocations| && forall i :: 0 <= i < |parts| ==> AnswersInvocation(parts[i], invocations[i])
  }

  predicate IsNative(resp: Response) {
    resp.message.toolCalls != [] || resp.finish == FinishToolCalls
  }

  // What a turn that succeeds appends.
  ghost predicate TurnMessages(resp: Response, done: bool, added: seq<Message>) {
    if IsNative(resp) then
      !done && |added| == 1 + |Select(resp.message.toolCalls, true)| && ToolTurnMessages(resp.message, added)
    else if done then added == [resp.message]
    else TextTurnMessages(resp.message, added)
  }

  // What a turn that fails has appended.
  ghost predicate PartOfTurn(resp: Response, added: seq<Message>) {
    if IsNative(resp) then ToolTurnMessages(resp.message, added) else TextPart(resp.message, added)
  }

  // An attempt at a turn: the response, if there was one, the messages it appended,
  // how it ended, everything that had happened by then, and what had failed since the
  // response arrived, or since the attempt began if none did.
  datatype Attempt = Attempt(
    resp: Option<Response>, added: seq<Message>, err: Option<Failure>, done: bool, seen: seq<Action>,
    faults: seq<Failure>)

  // Every error has its cause: the last failure, or else the response itself.
  ghost predicate AttemptAccounted(a: Attempt, strict: bool) {
    a.err.Some? ==>
      if a.faults == [] then a.resp.Some? && HasCause(a.resp.value, a.err, a.seen, strict)
      else ComesFrom(a.err.value, a.faults[|a.faults| - 1])
  }

  // Why a response ends the run with an error although nothing has failed: it cannot
  // be processed, a tool or a text handler stops the run, or the last three tool-call
  // turns ran no tool.
  ghost predicate HasCause(resp: Response, err: Option<Failure>, seen: seq<Action>, strict: bool) {
    || (err == Some(PLAIN) && (Unprocessable(resp, strict) || (IsNative(resp) && ThreeFruitless(seen))))
    || (IsStop(err) && (ToolStopped(seen) || (!IsNative(resp) && HumanAsked(seen))))
  }

  // The last thing that happened is that a human was asked.
  ghost predicate HumanAsked(trace: seq<Action>) {
    trace != [] && var a := trace[|trace| - 1]; a.Delivered? && a.event.AwaitingHumanAsked?
  }

  // The same, as the monitor sees it.
  ghost predicate EndsRun(resp: Response, err: Option<Failure>, seen: seq<Action>, strict: bool) {
    || (err == Some(PLAIN) && Unprocessable(resp, strict))
    || if IsNative(resp) then ToolTurnEnds(err, Watch(seen)) else TextTurnEnds(err, seen)
  }

  // Native calls where only the text protocol is allowed, an unknown finish reason,
  // and a text that was cut off before it began.
  predicate Unprocessable(resp: Response, strict: bool) {
    if IsNative(resp) then strict
    else resp.finish == FinishOther || (resp.finish == FinishLength && TrimSpace(resp.message.text) == "")
  }

  // The conversation goes on from the response, unless calls were left out of it or
  // the turn had no calls at all.
  function ConversationAfter(resp: Response, before: string): string {
    if !IsNative(resp) then resp.conversationState
    else if Select(resp.message.toolCalls, false) != [] then ""
    else if Select(resp.message.toolCalls, true) != [] then resp.conversationState
    else before
  }

  // An attempt that succeeds appends exactly its messages, one that fails some of
  // them; and none if it asks for a new attempt, unless since its last request a sink
  // or a text handler failed with the error that does so.
  ghost predicate AttemptAppends(a: Attempt) {
    match a.resp
    case None => a.added == [] && a.err.Some?
    case Some(resp) =>
      match a.err
      case None => TurnMessages(resp, a.done, a.added)
      case Some(f) => PartOfTurn(resp, a.added) && (f.retryable && !OddSinceRequest(a.seen) ==> a.added == [])
  }

  // Another attempt or turn follows.
  predicate GoesOn(a: Attempt) {
    if a.err.None? then !a.done else a.err.value.retryable
  }

  // What had happened before an attempt, `begun` being what happened before them all.
  ghost function Since(begun: seq<Action>, attempts: seq<Attempt>, i: nat): seq<Action>
    requires i < |attempts|
  {
    if i == 0 then begun else attempts[i - 1].seen
  }

  // An attempt made between `before` and `trace`; its response was asked for in it.
  ghost predicate MadeIn(before: seq<Action>, a: Attempt, trace: seq<Action>) {
    && AttemptAppends(a) && before <= a.seen <= trace
    && (a.resp.Some? ==> |Requests(before)| < |Requests(a.seen)|)
  }

  // The attempts of a run or of a turn, in order: all but the last one went on.
  ghost predicate AttemptsOf(begun: seq<Action>, attempts: seq<Attempt>, trace: seq<Action>) {
    && begun <= trace
    && (forall i :: 0 <= i < |attempts| ==> MadeIn(Since(begun, attempts, i), attempts[i], trace))
    && (forall i :: 0 <= i < |attempts| - 1 ==> GoesOn(attempts[i]))
  }

  ghost predicate AllGoOn(attempts: seq<Attempt>) {
    forall i :: 0 <= i < |attempts| ==> GoesOn(attempts[i])
  }

  ghost function Appended(attempts: seq<Attempt>): seq<Message> {
    if attempts == [] then [] else Appended(attempts[..|attempts| - 1]) + attempts[|attempts| - 1].added
  }

  // What handling a response leaves alone.
  ghost predicate OnlyHandling(m: Monitor, m': Monitor) {
    && m'.completion == m.completion && m'.misplaced == m.misplaced
    && m'.turns.late == m.turns.late
    && m'.tools.broken == m.tools.broken && !m'.tools.phase.InCall?
    && m'.end.again == m.end.again
    && (m.odd ==> m'.odd)
  }

  // After success the turn is over and the run goes on. After a failure that asks
  // for it the turn may be attempted again; unless something odd happened, it then
  // failed before anything was appended.
  ghost predicate MayGoOn(err: Option<Failure>, m: Monitor) {
    && (err.None? ==> m.tools.phase == NoCall && !m.end.ended && Continuable(m))
    && (err.Some? && err.value.retryable ==> Continuable(m) && (!m.odd ==> m.tools.phase == NoCall))
  }

  // Processing the calls of a response: the messages appended, the error that
  // stopped execution, if any, at which call, and what had happened before execution
  // and by its end.
  datatype Execution = Execution(
    added: seq<Message>, stop: Option<Failure>, at: nat, begun: seq<Action>, seen: seq<Action>)

  const NOT_BEGUN := Execution([], None, 0, [], [])

  // `steps` are the steps that execution started and `turns` the tool-call turns
  // that it brought to an end.
  ghost predicate ExecutionEnded(x: Execution, turn: nat, calls: seq<IndexedCall>, steps: seq<nat>, turns: int) {
    match x.stop
    case None => |x.added| == 1 + |calls| && steps == Indices(calls) && turns == 1
    case Some(f) =>
      && x.added != [] && StoppedAt(f, x.begun, x.seen, turn, calls, x.at, steps, |x.added| - 1)
      && Watch(x.begun).tools.phase == NoCall && turns == 0
  }

  // The calls found in a text, at their positions.
  function Invoked(invocations: seq<TextInvocation>): seq<IndexedCall> {
    seq(|invocations|, i requires 0 <= i < |invocations| => IndexedCall(i, invocations[i].call))
  }

  // The same for the calls of a text turn: each call that has a result has its part,
  // the last one without the feedback if execution was stopped there.
  ghost predicate InvocationsEnded(
    x: Execution, turn: nat, invocations: seq<TextInvocation>, parts: seq<seq<Message>>, steps: seq<nat>)
  {
    && |parts| <= |invocations| && (forall i :: 0 <= i < |parts| ==> AnswersInvocation(parts[i], invocations[i]))
    && match x.stop
       case None => |parts| == |invocations| && steps == Indices(Invoked(invocations))
       case Some(f) =>
         && StoppedAt(f, x.begun, x.seen, turn, Invoked(invocations), x.at, steps, |parts|)
         && (|parts| > x.at ==> |parts[x.at]| == 1)
  }

  // What comes back from a turn that was stopped: the error itself, with nothing
  // more happening, except that one which is no emit error is reported first. And what
  // comes back as a question or a handoff is what stopped the turn.
  ghost predicate StopIsReturned(x: Execution, err: Option<Failure>, trace: seq<Action>) {
    && (x.stop.Some? ==>
          && err.Some? && (x.stop.value.kind != OtherFailure ==> err == x.stop && trace == x.seen)
          && Reported(x.seen, trace, err.value.retryable))
    && (err.Some? && (err.value.kind == AwaitingHuman || err.value.kind == IterationHandoff) ==> x.stop == err)
  }

  // Nothing but an error event that was delivered or not.
  ghost predicate Reported(before: seq<Action>, after: seq<Action>, retryable: bool) {
    || after == before
    || after == before + [Delivered(ErrorReported)]
    || after == before + [Undelivered(ErrorReported, retryable)]
  }

  // A turn that was stopped is committed if it waits for a human or hands off, and
  // if an event failed after a result was appended.
  predicate CommitsPartially(stop: Failure, messages: seq<Message>) {
    match stop.kind
    case EmitFailed => messages != [] && messages[|messages| - 1].role == ToolRole
    case AwaitingHuman => true
    case IterationHandoff => true
    case OtherFailure => false
  }

  // Why a tool-call turn ends the run although nothing has failed: a tool has stopped
  // it, or too many turns in a row ran no tool.
  ghost predicate ToolTurnEnds(err: Option<Failure>, m: Monitor) {
    || (IsStop(err) && m.tools.stopping)
    || (err == Some(PLAIN) && m.turns.streak >= MAX_CONSECUTIVE_NON_EXECUTABLE_TOOL_CALL_TURNS)
  }

  // The handlers are asked unless the text is blank.
  ghost function Askable(resp: Response, state: AgentRunState): nat {
    if TrimSpace(resp.message.text) == "" then 0 else state.handlers
  }

  // Since `before`, `n` handlers declined the text.
  ghost predicate Declined(before: seq<Action>, after: seq<Action>, n: nat) {
    |before| + n <= |after| && forall k :: |before| <= k < |before| + n ==> after[k] == TextDeclined
  }

  // What became of a text turn whose handler failed, or did not.
  ghost predicate HandlerSettled(
    handlerErr: Option<Failure>, before: seq<Failure>, after: seq<Failure>, err: Option<Failure>, cause: bool)
  {
    if handlerErr.None? then Accounted(before, after, err, cause)
    else before <= after && after != [] && err.Some? && ComesFrom(err.value, after[|after| - 1])
  }

  // Why a text turn ends the run although nothing has failed.
  ghost predicate TextTurnEnds(err: Option<Failure>, seen: seq<Action>) {
    IsStop(err) && (Watch(seen).tools.stopping || HumanAsked(seen))
  }

  predicate IsStop(err: Option<Failure>) {
    err == AWAITS_HUMAN.stopErr || err == HANDED_OFF.stopErr
  }

  predicate Commits(stop: Option<Failure>, err: Option<Failure>, messages: seq<Message>) {
    if stop.Some? then CommitsPartially(stop.value, messages) else err.None?
  }

  class AgentRunState {
    const history: History
    const events: AgentEventEmitter
    const attempt: CompletionAttemptState
    const completion: CompletionRunner
    const toolCalls: ToolCallExecutor
    const handlers: nat
    const hasHook: bool
    const strictToolCallProtocol: bool
    var consecutiveNonExecutableToolCallTurns: nat

    constructor (history: History, retryCount: nat, streaming: bool, handlers: nat, hasHook: bool, strict: bool)
      ensures Wired() && fresh(events) && fresh(attempt) && fresh(completion) && fresh(toolCalls)
      ensures this.history == history && this.handlers == handlers && this.hasHook == hasHook
      ensures completion.retryCount == retryCount && completion.streaming == streaming
      ensures strictToolCallProtocol == strict
      ensures consecutiveNonExecutableToolCallTurns == 0 && events.trace == []
    {
      var events := new AgentEventEmitter();
      var attempt := new CompletionAttemptState();
      var completion := new CompletionRunner(attempt, events, retryCount, streaming);
      var toolCalls := new ToolCallExecutor(history, events);
      this.history, this.events, this.attempt := history, events, attempt;
      this.completion, this.toolCalls := completion, toolCalls;
      this.handlers, this.hasHook, strictToolCallProtocol := handlers, hasHook, strict;
      consecutiveNonExecutableToolCallTurns := 0;
    }

    predicate Wired() {
      toolCalls.history == history && toolCalls.events == events &&
      completion.events == events && completion.attempt == attempt
    }

    // The counter is the number of tool-call turns since the last one that ran a tool.
    ghost predicate Counted()
      reads this, events
    {
      consecutiveNonExecutableToolCallTurns == events.M().turns.streak
    }

    // A response has just arrived and nothing has been done with it.
    ghost predicate AtResponse(turn: nat)
      reads this, events
    {
      var m := events.M();
      && Wired() && Counted() && InTurn(m, turn)
      && m.tools.phase == NoCall && m.tools.steps == [] && !m.tools.stopping && !m.turns.ran
      && !TooMany(m.turns) && !m.end.ended && !m.odd
    }

    method PrepareToolCallTurn(turn: nat, msg: Message)
      returns (out: Message, calls: seq<IndexedCall>, issues: seq<Rejection>, err: Option<Failure>)
      requires AtResponse(turn)
      modifies events, history`conversationState
      ensures Explained(old(events.faults), events.faults, err) && (err.None? ==> !events.M().tools.stopping)
      ensures history.conversationState ==
                if err.None? && issues != [] then "" else old(history.conversationState)
      ensures OnlyHandling(old(events.M()), events.M()) && SameTurns(old(events.M().turns), events.M().turns)
      ensures old(events.trace) <= events.trace
      ensures MayGoOn(err, events.M()) && (err.Some? && err.value.retryable ==> events.M().odd)
      ensures err.Some? ==> err.value.kind == OtherFailure || err.value.kind == EmitFailed
      ensures err.None? ==> out == msg.(toolCalls := Calls(calls)) && calls == Select(msg.toolCalls, true)
      ensures err.None? ==> (issues == [] <==> Select(msg.toolCalls, false) == [])
      ensures err.None? ==> events.M().tools.steps == Indices(Select(msg.toolCalls, false))
      ensures err.None? ==> Distinct(events.M().tools.steps + Indices(calls))
    {
      hide Watch;
      out, calls, issues := SanitizeAssistantToolCalls(msg);
      err := None;
      CallsArePartitioned(msg.toolCalls);
      StepsOfParts(Indices(Rejected(issues)), Indices(calls));
      if issues == [] {
        assert [] + Indices(calls) == Indices(Rejected(issues)) + Indices(calls);
        return;
      }
      err := toolCalls.ReportInvalidCalls(turn, issues);
      if err.Some? {
        return;
      }
      history.SetConversationState("");
    }

    // The end of a tool-call turn, with the counter brought up to date.
    ghost predicate TurnCounted(m: Monitor, ran: bool, err: Option<Failure>)
      reads this, events
    {
      var m' := events.M();
      && Counted() && m'.turns.ended == m.turns.ended + 1 && m'.turns.streak == (if ran then 0 else m.turns.streak + 1)
      && m'.completion == m.completion && m'.misplaced == m.misplaced
      && SameTools(m.tools, m'.tools) && m'.turns.late == m.turns.late
      && (m.odd ==> m'.odd) && m'.end.again == m.end.again
      && (err.None? <==> consecutiveNonExecutableToolCallTurns < MAX_CONSECUTIVE_NON_EXECUTABLE_TOOL_CALL_TURNS)
      && (err.None? ==> !m'.end.ended && m'.tools == m.tools)
      && (err.Some? ==> err.value.kind == OtherFailure || err.value.kind == EmitFailed)
      && (err.Some? && err.value.retryable ==> JustOdd(m'))
    }

    method RecordNonExecutableToolCallTurn() returns (err: Option<Failure>, ghost notice: Message)
      requires Wired() && Counted() && !events.M().turns.ran && !events.M().end.ended
      modifies this`consecutiveNonExecutableToolCallTurns, events, history`messages
      ensures Accounted(old(events.faults), events.faults, err, err == Some(PLAIN))
      ensures TurnCounted(old(events.M()), false, err) && old(events.trace) <= events.trace
      ensures notice.role == Assistant && notice.toolCalls == []
      ensures history.messages == AppendAll(old(history.messages), [notice], history.maxMessages)
    {
      hide Watch;
      var text := Arbitrary<string>();
      var message := Message(Assistant, text, [], "");
      notice := message;
      history.Append(message);
      events.Record(ToolTurnEnded);
      consecutiveNonExecutableToolCallTurns := consecutiveNonExecutableToolCallTurns + 1;
      if consecutiveNonExecutableToolCallTurns < MAX_CONSECUTIVE_NON_EXECUTABLE_TOOL_CALL_TURNS {
        return None, notice;
      }
      var f := events.TerminalRunError(PLAIN);
      err := Some(f);
    }

    method FinalizeToolCallTurn(stats: TurnStats) returns (err: Option<Failure>)
      requires Wired() && Counted() && stats.totalCalls > 0 && (stats.executed > 0 <==> events.M().turns.ran)
      requires !events.M().end.ended
      modifies this`consecutiveNonExecutableToolCallTurns, events
      ensures Accounted(old(events.faults), events.faults, err, err == Some(PLAIN))
      ensures TurnCounted(old(events.M()), stats.executed > 0, err) && old(events.trace) <= events.trace
    {
      hide Watch;
      events.Record(ToolTurnEnded);
      if stats.NonExecutable() {
        consecutiveNonExecutableToolCallTurns := consecutiveNonExecutableToolCallTurns + 1;
      } else {
        consecutiveNonExecutableToolCallTurns := 0;
      }
      if consecutiveNonExecutableToolCallTurns < MAX_CONSECUTIVE_NON_EXECUTABLE_TOOL_CALL_TURNS {
        return None;
      }
      var f := events.TerminalRunError(PLAIN);
      err := Some(f);
    }

    // The hook may change the history as it likes, and may fail.
    method AskCompletion() returns (r: Completed)
      requires Wired() && MayAsk(events.M())
      modifies history`messages, history`conversationState, attempt, events
      ensures completion.Ended(r, old(events.faults), old(events.M().completion.calls)) ||
              (hasHook && r.NotCompleted? && Blames(old(events.faults), events.faults, r.failure))
      ensures OnlyRequests(old(events.M()), events.M(), completion.MaxAttempts())
      ensures old(events.trace) <= events.trace
      ensures events.M().completion.deltaInTurn ==> attempt.completionDeltaEmitted
      ensures r.Completed? ==> events.M().completion.calls > old(events.M().completion.calls)
      ensures r.Completed? ==> r.resp.message.role != NoRole
      ensures !hasHook ==>
                history.messages == old(history.messages) &&
                history.conversationState == old(history.conversationState)
    {
      if hasHook {
        history.messages := Arbitrary();
        history.conversationState := Arbitrary();
        var hookErr := events.FailsWith();
        if hookErr.Some? {
          return NotCompleted(hookErr.value);
        }
      }
      r := completion.Complete();
    }

    method ReportCompletionFailure(failure: Failure) returns (f: Failure)
      requires Continuable(events.M())
      modifies events
      ensures Told(failure, f, old(events.faults), events.faults)
      ensures OnlyEvents(old(events.M()), events.M()) && (f.retryable ==> Continuable(events.M()))
      ensures old(events.trace) <= events.trace
    {
      hide Watch;
      events.Record(CompletionFailed(failure.retryable));
      f := events.TerminalRunError(failure);
    }

    // Reasoning is checked for assistant messages only; the check is an oracle.
    method ValidateAssistantReasoningReplay(candidate: Message) returns (err: Option<Failure>)
      modifies events`faults
      ensures Explained(old(events.faults), events.faults, err)
      ensures candidate.role != Assistant ==> err.None?
      ensures err.Some? ==> err.value.kind == OtherFailure
    {
      if candidate.role != Assistant {
        return None;
      }
      var issue := Arbitrary<Failure>();
      issue := issue.(kind := OtherFailure);
      var invalid := events.Fails(issue);
      err := if invalid then Some(issue) else None;
    }

    method AcceptAssistantTurn(message: Message, conversationState: string)
      modifies history`messages, history`conversationState
      ensures history.messages == AppendAll(old(history.messages), [message], history.maxMessages)
      ensures history.conversationState == conversationState
    {
      history.Append(message);
      history.SetConversationState(conversationState);
    }

    method AppendFeedback(feedback: seq<Message>)
      modifies history`messages
      ensures history.messages == AppendAll(old(history.messages), feedback, history.maxMessages)
    {
      ghost var before := history.messages;
      assert feedback[..0] == [] && feedback[..|feedback|] == feedback;
      for i := 0 to |feedback|
        invariant history.messages == AppendAll(before, feedback[..i], history.maxMessages)
      {
        assert feedback[..i + 1] == feedback[..i] + [feedback[i]];
        AppendAllSnoc(before, feedback[..i], feedback[i], history.maxMessages);
        history.Append(feedback[i]);
      }
    }
  }

  lemma StepsOfParts(rejected: seq<nat>, executable: seq<nat>)
    requires Distinct(rejected + executable)
    ensures Distinct(rejected)
  {
    assert forall i :: 0 <= i < |rejected| ==> (rejected + executable)[i] == rejected[i];
  }

  class Agent {
    var history: History
    var lastTurn: nat
    const maxTurns: nat
    const retryCount: nat
    const streaming: bool
    const handlers: nat
    const hasHook: bool
    const strictToolCallProtocol: bool

    constructor (
      history: History, maxTurns: int, retryCount: nat, streaming: bool, handlers: nat, hasHook: bool, strict: bool)
      ensures this.history == history && this.retryCount == retryCount && this.hasHook == hasHook
      ensures this.maxTurns == (if maxTurns <= 0 then 20 else maxTurns) && lastTurn == 0
    {
      this.history, lastTurn := history, 0;
      this.maxTurns := if maxTurns <= 0 then 20 else maxTurns;
      this.retryCount, this.streaming, this.handlers := retryCount, streaming, handlers;
      this.hasHook, strictToolCallProtocol := hasHook, strict;
    }

    // Commits by reference: from then on the run's history is the agent's.
    method CommitTurn(history: History)
      modifies this`history
      ensures this.history == history
    {
      this.history := history;
    }

    method HandleToolCallExecutionError(err: Failure, state: AgentRunState) returns (f: Failure)
      requires state.Wired()
      modifies this`history, state.events
      ensures if err.kind == OtherFailure then Told(err, f, old(state.events.faults), state.events.faults)
              else state.events.faults == old(state.events.faults)
      ensures OnlyEvents(old(state.events.M()), state.events.M())
      ensures Reported(old(state.events.trace), state.events.trace, f.retryable)
      ensures history == if CommitsPartially(err, state.history.messages) then state.history else old(history)
      ensures err.kind != OtherFailure ==> f == err && state.events.trace == old(state.events.trace)
      ensures err.kind == OtherFailure ==> f == err || f == PLAIN || f == CANCELED || f.kind == EmitFailed
      ensures f.retryable && !err.retryable ==> JustOdd(state.events.M())
    {
      if err.kind == EmitFailed {
        var messages := state.history.messages;
        if |messages| > 0 && messages[|messages| - 1].role == ToolRole {
          CommitTurn(state.history);
        }
        return err;
      }
      if err.kind == AwaitingHuman || err.kind == IterationHandoff {
        CommitTurn(state.history);
        return err;
      }
      f := state.events.TerminalRunError(err);
    }

    // A response with tool calls in the provider's own protocol.
    method HandleToolCallTurn(turn: nat, resp: Response, state: AgentRunState)
      returns (err: Option<Failure>, ghost x: Execution)
      requires state.AtResponse(turn)
      modifies this`history, state`consecutiveNonExecutableToolCallTurns, state.events
      modifies state.history`messages, state.history`conversationState
      ensures Accounted(old(state.events.faults), state.events.faults, err, ToolTurnEnds(err, state.events.M()))
      ensures state.Wired() && state.Counted() && OnlyHandling(old(state.events.M()), state.events.M())
      ensures MayGoOn(err, state.events.M())
      ensures err.Some? && err.value.retryable && !state.events.M().odd ==> x.added == []
      ensures history == if Commits(x.stop, err, state.history.messages) then state.history else old(history)
      ensures StopIsReturned(x, err, state.events.trace) && (err.None? ==> x.added != [])
      ensures old(state.events.trace) <= state.events.trace && (x.stop.Some? ==> old(state.events.trace) <= x.begun)
      ensures ToolTurnMessages(resp.message, x.added)
      ensures state.history.messages == AppendAll(old(state.history.messages), x.added, state.history.maxMessages)
      ensures var calls, rejected := Select(resp.message.toolCalls, true), |Select(resp.message.toolCalls, false)|;
              x.added != [] && calls != [] ==>
                var m, m' := old(state.events.M()), state.events.M();
                rejected <= |m'.tools.steps| &&
                ExecutionEnded(x, turn, calls, m'.tools.steps[rejected..], m'.turns.ended - m.turns.ended)
      ensures err.None? ==>
                state.history.conversationState ==
                  (if Select(resp.message.toolCalls, false) != [] then ""
                   else if Select(resp.message.toolCalls, true) != [] then resp.conversationState
                   else old(state.history.conversationState))
    {
      hide Watch, AppendAll, Select, Distinct, TrimSpace, ExecutionEnded, Executable;
      x := NOT_BEGUN;
      AppendAllNothing(state.history.messages, state.history.maxMessages);
      var msg, calls, issues;
      msg, calls, issues, err := state.PrepareToolCallTurn(turn, resp.message);
      if err.Some? {
        return;
      }
      SelectedCalls(resp.message.toolCalls, true);
      if |msg.toolCalls| == 0 {
        ghost var notice;
        err, notice := state.RecordNonExecutableToolCallTurn();
        x := NOT_BEGUN.(added := [notice]);
        if err.None? {
          CommitTurn(state.history);
        }
        return;
      }
      err := state.ValidateAssistantReasoningReplay(msg);
      if err.Some? {
        return;
      }
      err, x := ExecuteToolCallTurn(turn, resp, msg, calls, |issues| > 0, state);
    }

    // The second half of the turn, from the accepted assistant message on.
    method ExecuteToolCallTurn(
      turn: nat, resp: Response, msg: Message, calls: seq<IndexedCall>, clearConversationState: bool,
      state: AgentRunState
    ) returns (err: Option<Failure>, ghost x: Execution)
      requires state.Wired() && state.Counted() && InTurn(state.events.M(), turn) && calls != []
      requires state.events.M().tools.phase == NoCall && !state.events.M().turns.ran && !state.events.M().end.ended
      requires !state.events.M().tools.stopping
      requires Distinct(state.events.M().tools.steps + Indices(calls))
      requires forall i :: 0 <= i < |calls| ==> Executable(calls[i].call)
      modifies this`history, state`consecutiveNonExecutableToolCallTurns, state.events
      modifies state.history`messages, state.history`conversationState
      ensures Accounted(old(state.events.faults), state.events.faults, err, ToolTurnEnds(err, state.events.M()))
      ensures state.Counted() && OnlyHandling(old(state.events.M()), state.events.M())
      ensures MayGoOn(err, state.events.M()) && (err.Some? && err.value.retryable ==> state.events.M().odd)
      ensures history == if Commits(x.stop, err, state.history.messages) then state.history else old(history)
      ensures StopIsReturned(x, err, state.events.trace)
      ensures old(state.events.trace) <= state.events.trace && x.begun == old(state.events.trace)
      ensures x.added != [] && x.added[0] == msg && AnswersInOrder(x.added[1..], calls)
      ensures var m, m' := old(state.events.M()), state.events.M();
              m.tools.steps <= m'.tools.steps &&
              ExecutionEnded(x, turn, calls, m'.tools.steps[|m.tools.steps|..], m'.turns.ended - m.turns.ended)
      ensures state.history.conversationState == if clearConversationState then "" else resp.conversationState
      ensures state.history.messages == AppendAll(old(state.history.messages), x.added, state.history.maxMessages)
    {
      hide Watch, AppendAll, Distinct, TrimSpace, Executable, StoppedAt, Indices, AnswersInOrder, Trimmed;
      hide Commits, MayGoOn, JustOdd;
      state.AcceptAssistantTurn(msg, if clearConversationState then "" else resp.conversationState);
      var stats, stop;
      ghost var results, at;
      ghost var m := state.events.M();
      stats, stop, results, at := state.toolCalls.Execute(turn, calls);
      ghost var m' := state.events.M();
      x := Execution([msg] + results, stop, at, old(state.events.trace), state.events.trace);
      assert x.added[1..] == results && x.added[0] == msg;
      AppendAllConcat(old(state.history.messages), [msg], results, state.history.maxMessages);
      assert (m.tools.steps + Indices(calls))[|m.tools.steps|..] == Indices(calls);
      err := FinishToolCallTurn(stats, stop, state);
      ToolsThenEnd(m, m', state.events.M());
    }

    // What follows execution: the error that stopped it is handled, or the turn is
    // counted and committed.
    method FinishToolCallTurn(stats: TurnStats, stop: Option<Failure>, state: AgentRunState)
      returns (err: Option<Failure>)
      requires state.Wired() && state.Counted() && !state.events.M().tools.phase.InCall? && !state.events.M().end.ended
      requires stop.Some? && stop.value.retryable ==> JustOdd(state.events.M())
      requires stop.None? ==>
                 state.events.M().tools.phase == NoCall && !state.events.M().tools.stopping &&
                 stats.totalCalls > 0 && (stats.executed > 0 <==> state.events.M().turns.ran)
      modifies this`history, state`consecutiveNonExecutableToolCallTurns, state.events
      ensures match stop
              case None =>
                Accounted(old(state.events.faults), state.events.faults, err, ToolTurnEnds(err, state.events.M()))
              case Some(f) =>
                err.Some? &&
                if f.kind == OtherFailure then Told(f, err.value, old(state.events.faults), state.events.faults)
                else state.events.faults == old(state.events.faults)
      ensures state.Counted() && OnlyHandling(old(state.events.M()), state.events.M())
      ensures state.events.M().tools.steps == old(state.events.M().tools.steps)
      ensures state.events.M().turns.ended == old(state.events.M().turns.ended) + if stop.None? then 1 else 0
      ensures MayGoOn(err, state.events.M()) && (err.Some? && err.value.retryable ==> state.events.M().odd)
      ensures history == if Commits(stop, err, state.history.messages) then state.history else old(history)
      ensures StopIsReturned(Execution([], stop, 0, [], old(state.events.trace)), err, state.events.trace)
      ensures old(state.events.trace) <= state.events.trace
    {
      hide Watch, CommitsPartially;
      if stop.Some? {
        var f := HandleToolCallExecutionError(stop.value, state);
        err := Some(f);
        return;
      }
      err := state.FinalizeToolCallTurn(stats);
      if err.None? {
        CommitTurn(state.history);
      }
    }

    // ---------------------------------------------------------- text turns

    method HandleCompletedTextTurn(turn: nat, resp: Response, state: AgentRunState, output: string)
      returns (outcome: TurnOutcome, err: Option<Failure>, ghost added: seq<Message>)
      requires state.AtResponse(turn) && IsAnswer(output, resp.message)
      modifies this`history, state.events, state.history`messages, state.history`conversationState
      ensures Accounted(old(state.events.faults), state.events.faults, err, TextTurnEnds(err, state.events.trace))
      ensures err.None? ==> state.history.conversationState == resp.conversationState
      ensures outcome.done ==> Declined(old(state.events.trace), state.events.trace, Askable(resp, state))
      ensures state.Counted() && OnlyHandling(old(state.events.M()), state.events.M())
      ensures old(state.events.trace) <= state.events.trace
      ensures outcome.done ==> err.None?
      ensures !outcome.done ==> MayGoOn(err, state.events.M())
      ensures err.None? ==> history == state.history
      ensures err.Some? ==> history == old(history) || history == state.history
      ensures outcome.done ==> outcome.output == output && EndsWithSuccess(state.events.trace, output)
      ensures outcome.done ==> EndsWithAnswer(history, output) && added == [resp.message]
      ensures err.None? && !outcome.done ==> TextTurnMessages(resp.message, added)
      ensures err.Some? ==> TextPart(resp.message, added)
      ensures err.Some? && err.value.retryable && !state.events.M().odd ==> added == []
      ensures state.history.messages == AppendAll(old(state.history.messages), added, state.history.maxMessages)
    {
      hide Watch, TrimSpace, AppendAll, TextTurnMessages, EndsWithAnswer, EndsWithSuccess, CallsBegun;
      AppendAllNothing(state.history.messages, state.history.maxMessages);
      outcome, added := CONTINUE, [];
      err := state.ValidateAssistantReasoningReplay(resp.message);
      if err.Some? {
        return;
      }
      var handled;
      handled, err, added := HandleAssistantTextTurn(turn, resp, state);
      if err.Some? || handled {
        return;
      }
      added := [resp.message];
      outcome, err := FinalizeCompletedTextTurn(turn, resp, state, output);
    }

    method FinalizeCompletedTextTurn(turn: nat, resp: Response, state: AgentRunState, output: string)
      returns (outcome: TurnOutcome, err: Option<Failure>)
      requires state.Wired() && IsAnswer(output, resp.message) && !state.events.M().end.ended
      modifies this`history, state.events, state.history`messages, state.history`conversationState
      ensures Explained(old(state.events.faults), state.events.faults, err)
      ensures state.history.conversationState == resp.conversationState
      ensures OnlyEvents(old(state.events.M()), state.events.M()) && history == state.history
      ensures old(state.events.trace) <= state.events.trace
      ensures err.Some? ==> !outcome.done && (err.value.retryable ==> JustOdd(state.events.M()))
      ensures err.None? ==> outcome == TurnOutcome(output, true) && EndsWithSuccess(state.events.trace, output)
      ensures EndsWithAnswer(history, output)
      ensures state.history.messages ==
                AppendAll(old(state.history.messages), [resp.message], state.history.maxMessages)
    {
      hide Watch, TrimSpace;
      if state.history.maxMessages > 1 {
        AppendedIsLast(state.history.messages, resp.message, state.history.maxMessages);
      }
      state.AcceptAssistantTurn(resp.message, resp.conversationState);
      CommitTurn(state.history);
      err := state.events.TerminalSuccess(output);
      outcome := if err.Some? then CONTINUE else TurnOutcome(output, true);
    }

    // The handlers are asked in turn until one recognizes the text.
    method HandleAssistantTextTurn(turn: nat, resp: Response, state: AgentRunState)
      returns (handled: bool, err: Option<Failure>, ghost added: seq<Message>)
      requires state.AtResponse(turn)
      modifies this`history, state.events, state.history`messages, state.history`conversationState
      ensures Accounted(old(state.events.faults), state.events.faults, err, TextTurnEnds(err, state.events.trace))
      ensures err.None? && handled ==> state.history.conversationState == resp.conversationState
      ensures !handled ==>
                && |state.events.trace| == |old(state.events.trace)| + Askable(resp, state)
                && Declined(old(state.events.trace), state.events.trace, Askable(resp, state))
      ensures state.Counted() && OnlyHandling(old(state.events.M()), state.events.M())
      ensures old(state.events.trace) <= state.events.trace
      ensures MayGoOn(err, state.events.M()) && (err.Some? && err.value.retryable ==> state.events.M().odd)
      ensures err.Some? ==> handled && (history == old(history) || history == state.history)
      ensures err.Some? ==> TextPart(resp.message, added)
      ensures err.None? && handled ==> history == state.history && TextTurnMessages(resp.message, added)
      ensures !handled ==> state.AtResponse(turn) && history == old(history) && added == []
      ensures state.history.messages == AppendAll(old(state.history.messages), added, state.history.maxMessages)
    {
      hide Watch, TextTurnMessages, AppendAll, TrimSpace, CallsBegun;
      AppendAllNothing(state.history.messages, state.history.maxMessages);
      handled, err, added := false, None, [];
      if TrimSpace(resp.message.text) == "" {
        return;
      }
      for i := 0 to state.handlers
        invariant !handled && err.None? && state.AtResponse(turn) && history == old(history) && added == []
        invariant OnlyHandling(old(state.events.M()), state.events.M())
        invariant old(state.events.trace) <= state.events.trace && state.events.faults == old(state.events.faults)
        invariant |state.events.trace| == |old(state.events.trace)| + i
        invariant Declined(old(state.events.trace), state.events.trace, i)
        invariant state.history.messages == old(state.history.messages)
      {
        handled, err, added := RunAssistantTextHandler(turn, resp, state);
        if err.Some? || handled {
          return;
        }
      }
    }

    method RunAssistantTextHandler(turn: nat, resp: Response, state: AgentRunState)
      returns (handled: bool, err: Option<Failure>, ghost added: seq<Message>)
      requires state.AtResponse(turn)
      modifies this`history, state.events, state.history`messages, state.history`conversationState
      ensures Accounted(old(state.events.faults), state.events.faults, err, TextTurnEnds(err, state.events.trace))
      ensures err.None? && handled ==> state.history.conversationState == resp.conversationState
      ensures !handled ==> state.events.trace == old(state.events.trace) + [TextDeclined]
      ensures state.Counted() && OnlyHandling(old(state.events.M()), state.events.M())
      ensures old(state.events.trace) <= state.events.trace
      ensures MayGoOn(err, state.events.M()) && (err.Some? && err.value.retryable ==> state.events.M().odd)
      ensures err.Some? ==> handled && (history == old(history) || history == state.history)
      ensures err.Some? ==> TextPart(resp.message, added)
      ensures err.None? && handled ==> history == state.history && TextTurnMessages(resp.message, added)
      ensures !handled ==> state.AtResponse(turn) && history == old(history) && added == []
      ensures !handled ==> state.history.messages == old(state.history.messages)
      ensures state.history.messages == AppendAll(old(state.history.messages), added, state.history.maxMessages)
    {
      hide Watch, TextTurnMessages, AppendAll, CallsBegun, Executable;
      AppendAllNothing(state.history.messages, state.history.maxMessages);
      added := [];
      var result, handlerErr := AskHandler(turn, state);
      if !result.recognized {
        return false, None, [];
      }
      handled := true;
      if !ValidTextResult(result) {
        var f := state.events.TerminalRunError(PLAIN);
        return true, Some(f), [];
      }
      err, added := FinalizeAssistantTextTurn(turn, resp, state, result, handlerErr);
    }

    // A handler answers anything; an error counts only if it recognized the text.
    method AskHandler(turn: nat, state: AgentRunState) returns (result: TextResult, handlerErr: Option<Failure>)
      requires state.AtResponse(turn)
      modifies state.events`trace, state.events`faults
      ensures state.Counted() && OnlyHandling(old(state.events.M()), state.events.M())
      ensures if result.recognized then AtHandledResponse(turn, state, handlerErr) else state.AtResponse(turn)
      ensures state.events.trace == old(state.events.trace) +
                (if !result.recognized then [TextDeclined]
                 else if handlerErr.Some? then [HandlerFailed(handlerErr.value.retryable)] else [])
      ensures state.events.faults == old(state.events.faults) +
                (if result.recognized && handlerErr.Some? then [handlerErr.value] else []) +
                (if result.recognized && !ValidTextResult(result) then [PLAIN] else [])
    {
      hide Watch, ValidTextResult;
      result := Arbitrary();
      handlerErr := None;
      if !result.recognized {
        state.events.Record(TextDeclined);
        return;
      }
      handlerErr := state.events.FailsWith();
      if handlerErr.Some? {
        state.events.Record(HandlerFailed(handlerErr.value.retryable));
      }
      if !ValidTextResult(result) {
        state.events.faults := state.events.faults + [PLAIN];
      }
    }

    // The response is as it arrived, save that its handler may have failed.
    ghost predicate AtHandledResponse(turn: nat, state: AgentRunState, handlerErr: Option<Failure>)
      reads state, state.events
    {
      var m := state.events.M();
      && state.Wired() && state.Counted() && InTurn(m, turn)
      && m.tools.phase == NoCall && m.tools.steps == [] && !m.tools.stopping && !TooMany(m.turns) && !m.end.ended
      && (handlerErr.Some? && handlerErr.value.retryable ==> JustOdd(m))
    }

    method FinalizeAssistantTextTurn(
      turn: nat, resp: Response, state: AgentRunState, result: TextResult, handlerErr: Option<Failure>
    ) returns (err: Option<Failure>, ghost added: seq<Message>)
      requires AtHandledResponse(turn, state, handlerErr) && HasJustFailed(state, handlerErr)
      requires forall i :: 0 <= i < |result.invocations| ==> Executable(result.invocations[i].call)
      modifies this`history, state.events, state.history`messages, state.history`conversationState
      ensures HandlerSettled(handlerErr, old(state.events.faults), state.events.faults, err,
                             TextTurnEnds(err, state.events.trace) && (result.invocations == [] ==> result.asksHuman))
      ensures err.None? && result.invocations == [] ==> !result.asksHuman
      ensures err.None? ==> state.history.conversationState == resp.conversationState
      ensures state.Counted() && OnlyHandling(old(state.events.M()), state.events.M())
      ensures old(state.events.trace) <= state.events.trace
      ensures MayGoOn(err, state.events.M()) && (err.Some? && err.value.retryable ==> state.events.M().odd)
      ensures err.Some? ==> (history == old(history) || history == state.history) && TextPart(resp.message, added)
      ensures err.None? ==> history == state.history && TextTurnMessages(resp.message, added)
      ensures err.None? && result.invocations == [] ==> added == [resp.message] + result.feedback
      ensures state.history.messages == AppendAll(old(state.history.messages), added, state.history.maxMessages)
    {
      hide Watch, AppendAll, TextTurnMessages, TextPart, AnswersInvocation, Flat, TextCallMessage, TrimSpace;
      hide Executable, StoppedAt, Indices;
      AppendAllNothing(state.history.messages, state.history.maxMessages);
      if result.invocations == [] {
        err, added := FinishAssistantTextTurn(turn, resp, state, result.asksHuman, result.feedback, handlerErr);
        return;
      }
      if handlerErr.Some? {
        var f := state.events.TerminalRunError(handlerErr.value);
        NothingIsPart(resp.message);
        return Some(f), [];
      }
      ghost var parts, x;
      err, parts, x := FinishAssistantTextToolInvocations(turn, resp, state, result);
      added := x.added;
      if err.None? {
        CallsWereAnswered(resp.message, result.invocations, parts, result.feedback, added);
      } else {
        CallsWereBegun(resp.message, result.invocations, parts, added);
      }
    }

    // The handler's error is the last failure there was.
    ghost predicate HasJustFailed(state: AgentRunState, handlerErr: Option<Failure>)
      reads state, state.events
    {
      handlerErr.Some? ==> var faults := state.events.faults; faults != [] && faults[|faults| - 1] == handlerErr.value
    }

    // A text turn whose tool the handler has run itself.
    method FinishAssistantTextTurn(
      turn: nat, resp: Response, state: AgentRunState, asksHuman: bool, feedback: seq<Message>,
      handlerErr: Option<Failure>
    ) returns (err: Option<Failure>, ghost added: seq<Message>)
      requires AtHandledResponse(turn, state, handlerErr) && HasJustFailed(state, handlerErr)
      modifies this`history, state.events, state.history`messages, state.history`conversationState
      ensures HandlerSettled(handlerErr, old(state.events.faults), state.events.faults, err,
                             asksHuman && err == AWAITS_HUMAN.stopErr && HumanAsked(state.events.trace))
      ensures err.None? ==> !asksHuman && state.history.conversationState == resp.conversationState
      ensures state.Counted() && OnlyHandling(old(state.events.M()), state.events.M())
      ensures old(state.events.trace) <= state.events.trace
      ensures MayGoOn(err, state.events.M()) && (err.Some? && err.value.retryable ==> state.events.M().odd)
      ensures err.None? ==> history == state.history && TextTurnMessages(resp.message, added)
      ensures err.None? ==> added == [resp.message] + feedback
      ensures err.Some? ==> TextPart(resp.message, added)
      ensures err.Some? ==>
                history == if added != [] && LastIs(state.events.trace, Delivered(AwaitingHumanAsked(turn, 0)))
                           then state.history else old(history)
      ensures state.history.messages == AppendAll(old(state.history.messages), added, state.history.maxMessages)
    {
      hide Watch, AppendAll, TextTurnMessages, Trimmed, NoneRan, TrimSpace, CallsBegun, LastIs;
      hide OnlyTools, OnlyHandling, MayGoOn, JustOdd;
      added := [];
      AppendAllNothing(state.history.messages, state.history.maxMessages);
      ghost var m := state.events.M();
      err := state.toolCalls.StartToolCall(turn, 0);
      ghost var m' := state.events.M();
      if err.Some? {
        ToolsFailed(m, m', err.value);
        return;
      }
      state.AcceptAssistantTurn(resp.message, resp.conversationState);
      added := [resp.message];
      if handlerErr.Some? {
        StillOdd(m, m');
        var f := FinishAssistantTextTurnWithError(turn, state, handlerErr.value);
        ToolsThenEnd(m, m', state.events.M());
        return Some(f), added;
      }
      err := state.toolCalls.FinishToolCall(turn, 0, true);
      ToolsThenTools(m, m', state.events.M());
      m' := state.events.M();
      if err.Some? {
        ToolsFailed(m, m', err.value);
        LastOfMore(state.events.trace, Undelivered(ToolFinished(turn, 0, true), err.value.retryable));
        return;
      }
      if asksHuman {
        var f := FinishAssistantTextTurnAwaitingHuman(turn, state);
        ToolsThenEnd(m, m', state.events.M());
        return Some(f), added;
      }
      ToolsSucceeded(m, m');
      AppendAllConcat(old(state.history.messages), [resp.message], feedback, state.history.maxMessages);
      state.AppendFeedback(feedback);
      CommitTurn(state.history);
      added := [resp.message] + feedback;
      StartsWithMessage(resp.message, added);
    }

    // The handler's tool failed, and so did the turn.
    method FinishAssistantTextTurnWithError(turn: nat, state: AgentRunState, handlerErr: Failure) returns (f: Failure)
      requires state.Wired() && state.toolCalls.Open(turn, 0) && !state.events.M().end.ended
      requires !state.events.M().tools.stopping && (handlerErr.retryable ==> JustOdd(state.events.M()))
      modifies state.events
      ensures Told(handlerErr, f, old(state.events.faults), state.events.faults) ||
              Blames(old(state.events.faults), state.events.faults, f)
      ensures OnlyHandling(old(state.events.M()), state.events.M())
      ensures SameTurns(old(state.events.M().turns), state.events.M().turns)
      ensures MayGoOn(Some(f), state.events.M()) && (f.retryable ==> state.events.M().odd)
      ensures old(state.events.trace) <= state.events.trace
      ensures !LastIs(state.events.trace, Delivered(AwaitingHumanAsked(turn, 0)))
    {
      hide Watch;
      var err := state.toolCalls.FinishToolCall(turn, 0, false);
      if err.Some? {
        return err.value;
      }
      f := state.events.TerminalRunError(handlerErr);
    }

    // The turn waits for a human exactly if the question could be sent.
    method FinishAssistantTextTurnAwaitingHuman(turn: nat, state: AgentRunState) returns (f: Failure)
      requires InTurn(state.events.M(), turn) && state.events.M().tools.phase == NoCall && !state.events.M().end.ended
      modifies this`history, state.events
      ensures if LastIs(state.events.trace, Delivered(AwaitingHumanAsked(turn, 0)))
              then state.events.faults == old(state.events.faults) && HumanAsked(state.events.trace)
              else Blames(old(state.events.faults), state.events.faults, f)
      ensures OnlyHandling(old(state.events.M()), state.events.M())
      ensures SameTurns(old(state.events.M().turns), state.events.M().turns)
      ensures MayGoOn(Some(f), state.events.M()) && (f.retryable ==> state.events.M().odd)
      ensures old(state.events.trace) <= state.events.trace
      ensures var asked := LastIs(state.events.trace, Delivered(AwaitingHumanAsked(turn, 0)));
              && history == (if asked then state.history else old(history))
              && (Some(f) == AWAITS_HUMAN.stopErr <==> asked)
    {
      hide Watch;
      var err := state.events.Emit(AwaitingHumanAsked(turn, 0));
      if err.Some? {
        return err.value;
      }
      CommitTurn(state.history);
      f := AWAITS_HUMAN.stopErr.value;
    }

    // The calls that a handler found in the text, run one after the other; `parts`
    // is what each of them adds to the history, up to the one that stops the turn.
    method FinishAssistantTextToolInvocations(turn: nat, resp: Response, state: AgentRunState, result: TextResult)
      returns (err: Option<Failure>, ghost parts: seq<seq<Message>>, ghost x: Execution)
      requires AtHandledResponse(turn, state, None) && result.invocations != []
      requires forall i :: 0 <= i < |result.invocations| ==> Executable(result.invocations[i].call)
      modifies this`history, state.events, state.history`messages, state.history`conversationState
      ensures Accounted(old(state.events.faults), state.events.faults, err,
                        IsStop(err) && state.events.M().tools.stopping)
      ensures state.history.conversationState == resp.conversationState
      ensures state.Counted() && OnlyHandling(old(state.events.M()), state.events.M())
      ensures old(state.events.trace) <= state.events.trace && x.begun == old(state.events.trace)
      ensures MayGoOn(err, state.events.M()) && (err.Some? && err.value.retryable ==> state.events.M().odd)
      ensures history == if Commits(x.stop, err, state.history.messages) then state.history else old(history)
      ensures StopIsReturned(x, err, state.events.trace) && (err.Some? <==> x.stop.Some?)
      ensures InvocationsEnded(x, turn, result.invocations, parts, state.events.M().tools.steps)
      ensures x.added == [TextCallMessage(resp.message, result.invocations)] + Flat(parts) +
                         if err.None? then result.feedback else []
      ensures state.history.messages == AppendAll(old(state.history.messages), x.added, state.history.maxMessages)
    {
      hide Watch, AppendAll, TrimSpace, Executable, Flat, TextCallMessage, StoppedAt;
      hide Indices, JustOdd, OnlyTools, OnlyHandling, MayGoOn, OnlyEvents, TooMany;
      hide StopExplained, Accounted, Told, AnswersInvocation, Reported;
      var invocations, message := result.invocations, TextCallMessage(resp.message, result.invocations);
      ghost var begun, m := state.events.trace, state.events.M();
      ghost var before, max := state.history.messages, state.history.maxMessages;
      state.AcceptAssistantTurn(message, resp.conversationState);
      var stop;
      ghost var at;
      stop, parts, at := RunTextInvocations(turn, invocations, state);
      AppendAllConcat(before, [message], Flat(parts), max);
      ToolsKeepStreak(m, state.events.M());
      x := Execution([message] + Flat(parts), stop, at, begun, state.events.trace);
      if stop.Some? {
        ghost var faults, m' := state.events.faults, state.events.M();
        var f := HandleToolCallExecutionError(stop.value, state);
        StopAccounted(old(state.events.faults), faults, state.events.faults, stop, f, m', state.events.M());
        StopReturned(x, f, state.events.trace);
        OddGoesOn(m, m', state.events.M(), stop.value, f);
        return Some(f), parts, x;
      }
      NotStopped(old(state.events.faults), state.events.faults, stop, state.events.M());
      ToolsSucceeded(m, state.events.M());
      AppendAllConcat(before, x.added, result.feedback, max);
      state.AppendFeedback(result.feedback);
      CommitTurn(state.history);
      err, x := None, x.(added := x.added + result.feedback);
    }

    // The calls themselves, up to the one that stops the turn, which is call `at`.
    method RunTextInvocations(turn: nat, invocations: seq<TextInvocation>, state: AgentRunState)
      returns (stop: Option<Failure>, ghost parts: seq<seq<Message>>, ghost at: nat)
      requires AtHandledResponse(turn, state, None)
      requires forall i :: 0 <= i < |invocations| ==> Executable(invocations[i].call)
      modifies state.events, state.history`messages
      ensures StopExplained(old(state.events.faults), state.events.faults, stop, state.events.M())
      ensures OnlyTools(old(state.events.M()), state.events.M()) && !state.events.M().tools.phase.InCall?
      ensures stop.None? ==> state.events.M().tools.phase == NoCall && !state.events.M().tools.stopping
      ensures stop.Some? && stop.value.retryable ==> JustOdd(state.events.M())
      ensures old(state.events.trace) <= state.events.trace
      ensures InvocationsEnded(Execution([], stop, at, old(state.events.trace), state.events.trace), turn, invocations,
                               parts, state.events.M().tools.steps)
      ensures state.history.messages == AppendAll(old(state.history.messages), Flat(parts), state.history.maxMessages)
    {
      hide Watch, AppendAll, TrimSpace, Executable, Flat, AnswersInvocation, CallEnded, StoppedAt;
      hide Before, LastIs, Indices, JustOdd, OnlyTools, TooMany;
      stop, parts, at := None, [], 0;
      NothingFlat();
      ghost var calls := Invoked(invocations);
      ghost var m, begun := state.events.M(), state.events.trace;
      ghost var before, max := state.history.messages, state.history.maxMessages;
      NoTools(m);
      NothingBefore(begun, turn, calls);
      NoSteps(calls);
      AppendAllNothing(before, max);
      for index := 0 to |invocations|
        invariant OnlyTools(m, state.events.M()) && stop.None?
        invariant InTurn(state.events.M(), turn) && state.events.M().tools.phase == NoCall
        invariant !state.events.M().tools.stopping && state.events.faults == old(state.events.faults)
        invariant state.events.M().tools.steps == Indices(calls[..index])
        invariant begun <= state.events.trace && Before(begun, state.events.trace, turn, calls, index)
        invariant |parts| == index && forall i :: 0 <= i < index ==> AnswersInvocation(parts[i], invocations[i])
        invariant state.history.messages == AppendAll(before, Flat(parts), max)
      {
        at := index;
        ghost var m', earlier := state.events.M(), parts;
        ghost var part;
        NextInvocation(calls, index);
        stop, part := RunTextInvocation(turn, index, invocations[index], state, begun, calls);
        AppendAllConcat(before, Flat(parts), part, max);
        ToolsThenTools(m, m', state.events.M());
        ToolsInTurn(m', state.events.M(), turn);
        FlatSnoc(parts, part);
        if stop.Some? {
          parts := if part == [] then parts else parts + [part];
          assert Flat(earlier) + [] == Flat(earlier);
          return;
        }
        parts := parts + [part];
      }
      assert calls[..|invocations|] == calls;
    }

    // One call found in a text, and the feedback that goes with it.
    method RunTextInvocation(
      turn: nat, index: nat, invocation: TextInvocation, state: AgentRunState,
      ghost begun: seq<Action>, ghost calls: seq<IndexedCall>
    ) returns (stop: Option<Failure>, ghost part: seq<Message>)
      requires state.Wired() && Executable(invocation.call)
      requires index < |calls| && calls[index] == IndexedCall(index, invocation.call)
      requires state.toolCalls.Ready(turn, index) && state.events.M().tools.steps == Indices(calls[..index])
      requires begun <= state.events.trace && Before(begun, state.events.trace, turn, calls, index)
      modifies state.events, state.history`messages
      ensures StopExplained(old(state.events.faults), state.events.faults, stop, state.events.M())
      ensures stop.None? ==> !state.events.M().tools.stopping
      ensures stop.None? ==>
                (part != [] && part[1..] == invocation.feedback) ||
                Missed(old(state.events.trace), state.events.trace)
      ensures OnlyTools(old(state.events.M()), state.events.M()) && !state.events.M().tools.phase.InCall?
      ensures old(state.events.trace) <= state.events.trace
      ensures state.history.messages == AppendAll(old(state.history.messages), part, state.history.maxMessages)
      ensures stop.None? ==>
                && state.events.M().tools.phase == NoCall
                && state.events.M().tools.steps == Indices(calls[..index + 1])
                && Before(begun, state.events.trace, turn, calls, index + 1) && AnswersInvocation(part, invocation)
      ensures stop.Some? ==>
                && (part != [] ==> |part| == 1 && AnswersInvocation(part, invocation))
                && StoppedAt(stop.value, begun, state.events.trace, turn, calls, index, state.events.M().tools.steps,
                             index + |part|)
      ensures stop.Some? && stop.value.retryable ==> JustOdd(state.events.M())
    {
      hide Watch, AppendAll, TrimSpace, Executable, CallEnded, StoppedAt, Before, LastIs, Indices, OnlyTools, JustOdd;
      ghost var steps, here := state.events.M().tools.steps, state.events.trace;
      IndicesSnoc(calls, index);
      assert [] + Indices(calls[..index]) == Indices(calls[..index]);
      var outcome, err;
      outcome, err, part := state.toolCalls.ExecuteSingleWithStepIndex(turn, index, invocation.call);
      if err.Some? {
        FailedAt(err.value, begun, here, state.events.trace, turn, calls, index, [], state.events.M().tools.steps,
                 |part|);
        return err, part;
      }
      if outcome.stopErr.Some? {
        EndedAt(outcome, begun, state.events.trace, turn, calls, index, [], state.events.M().tools.steps, |part|);
        return outcome.stopErr, part;
      }
      WentOn(outcome, begun, state.events.trace, turn, calls, index, |part|);
      if outcome.executed {
        AppendAllConcat(old(state.history.messages), part, invocation.feedback, state.history.maxMessages);
        state.AppendFeedback(invocation.feedback);
        part := part + invocation.feedback;
      }
      return None, part;
    }

    // ------------------------------------------------------------- the turn

    method HandleTurnResponse(turn: nat, resp: Response, state: AgentRunState)
      returns (outcome: TurnOutcome, err: Option<Failure>, ghost added: seq<Message>)
      requires state.AtResponse(turn) && resp.message.role != NoRole
      modifies this`history, state`consecutiveNonExecutableToolCallTurns, state.events
      modifies state.history`messages, state.history`conversationState
      ensures Accounted(old(state.events.faults), state.events.faults, err,
                        EndsRun(resp, err, state.events.trace, state.strictToolCallProtocol))
      ensures err.None? ==> !Unprocessable(resp, state.strictToolCallProtocol)
      ensures err.None? ==>
                state.history.conversationState == ConversationAfter(resp, old(state.history.conversationState))
      ensures outcome.done ==> Declined(old(state.events.trace), state.events.trace, Askable(resp, state))
      ensures outcome.done ==> history.conversationState == resp.conversationState
      ensures state.Counted() && OnlyHandling(old(state.events.M()), state.events.M())
      ensures old(state.events.trace) <= state.events.trace
      ensures outcome.done ==> err.None?
      ensures !outcome.done ==> MayGoOn(err, state.events.M())
      ensures err.None? ==> history == state.history
      ensures err.Some? ==> history == old(history) || history == state.history
      ensures outcome.done ==>
                EndsWithSuccess(state.events.trace, outcome.output) && EndsWithAnswer(history, outcome.output)
      ensures err.None? ==> TurnMessages(resp, outcome.done, added)
      ensures err.Some? ==> PartOfTurn(resp, added)
      ensures err.Some? && err.value.retryable && !state.events.M().odd ==> added == []
      ensures state.history.messages == AppendAll(old(state.history.messages), added, state.history.maxMessages)
    {
      hide Watch, Select, AppendAll, TextTurnMessages, ToolTurnMessages, CallsBegun;
      hide EndsWithAnswer, EndsWithSuccess, TrimSpace, Declined;
      outcome, added := CONTINUE, [];
      AppendAllNothing(state.history.messages, state.history.maxMessages);
      if |resp.message.toolCalls| > 0 {
        err, added := HandleNativeTurn(turn, resp, state);
        return;
      }
      match resp.finish {
        case FinishStop =>
          outcome, err, added := HandleCompletedTextTurn(turn, resp, state, resp.message.text);
        case FinishToolCalls =>
          err, added := HandleNativeTurn(turn, resp, state);
        case FinishLength =>
          var content := TrimSpace(resp.message.text);
          if content == "" {
            var f := state.events.TerminalRunError(PLAIN);
            return CONTINUE, Some(f), [];
          }
          outcome, err, added := HandleCompletedTextTurn(turn, resp, state, content);
        case FinishOther =>
          var f := state.events.TerminalRunError(PLAIN);
          err := Some(f);
      }
    }

    // Native tool calls are an error where only the text protocol is allowed.
    method HandleNativeTurn(turn: nat, resp: Response, state: AgentRunState)
      returns (err: Option<Failure>, ghost added: seq<Message>)
      requires state.AtResponse(turn) && IsNative(resp)
      modifies this`history, state`consecutiveNonExecutableToolCallTurns, state.events
      modifies state.history`messages, state.history`conversationState
      ensures Accounted(old(state.events.faults), state.events.faults, err,
                        EndsRun(resp, err, state.events.trace, state.strictToolCallProtocol))
      ensures err.None? ==>
                state.history.conversationState == ConversationAfter(resp, old(state.history.conversationState))
      ensures state.Counted() && OnlyHandling(old(state.events.M()), state.events.M())
      ensures old(state.events.trace) <= state.events.trace
      ensures MayGoOn(err, state.events.M())
      ensures err.None? ==> history == state.history
      ensures err.Some? ==> history == old(history) || history == state.history
      ensures err.None? ==> TurnMessages(resp, false, added)
      ensures err.Some? ==> PartOfTurn(resp, added)
      ensures err.Some? && err.value.retryable && !state.events.M().odd ==> added == []
      ensures state.history.messages == AppendAll(old(state.history.messages), added, state.history.maxMessages)
      ensures state.strictToolCallProtocol ==> err.Some? && added == []
    {
      hide Watch, Select, AppendAll, ToolTurnMessages, StoppedAt, Indices;
      added := [];
      AppendAllNothing(state.history.messages, state.history.maxMessages);
      if state.strictToolCallProtocol {
        var f := state.events.TerminalRunError(PLAIN);
        NothingIsPartOfTurn(resp);
        return Some(f), [];
      }
      ghost var x;
      err, x := HandleToolCallTurn(turn, resp, state);
      added := x.added;
      if err.None? && Select(resp.message.toolCalls, true) == [] { NoticeIsOne(resp.message, added); }
    }

    // One attempt at a turn; `a` is what there is to know of it afterwards.
    method RunTurnOnce(turn: nat, state: AgentRunState)
      returns (outcome: TurnOutcome, err: Option<Failure>, ghost a: Attempt)
      requires state.Wired() && state.Counted() && MayAsk(state.events.M()) && InTurn(state.events.M(), turn)
      modifies this`history, state`consecutiveNonExecutableToolCallTurns, state.events, state.attempt
      modifies state.history`messages, state.history`conversationState
      ensures AttemptAccounted(a, state.strictToolCallProtocol)
      ensures a.resp.Some? && err.None? ==> !Unprocessable(a.resp.value, state.strictToolCallProtocol)
      ensures a.resp.Some? ==>
                && state.attempt.answer.Answered? && state.attempt.answer.resp.Some?
                && IsNormal(a.resp.value, state.attempt.answer.resp.value)
      ensures a.resp.Some? && err.None? && !state.hasHook ==>
                state.history.conversationState ==
                  ConversationAfter(a.resp.value, old(state.history.conversationState))
      ensures state.events.M().completion.turns == old(state.events.M().completion.turns)
      ensures outcome.done ==> AnsweredBy(history, a)
      ensures state.Counted() && OneAttempt(old(state.events.M()), state.events.M(), state.completion.MaxAttempts())
      ensures old(state.events.trace) <= state.events.trace == a.seen
      ensures state.events.M().completion.deltaInTurn ==> state.attempt.completionDeltaEmitted
      ensures outcome.done ==> err.None?
      ensures err.None? && !outcome.done ==>
                state.events.M().tools.phase == NoCall && !state.events.M().end.ended && Continuable(state.events.M())
      ensures err.Some? && err.value.retryable ==> Continuable(state.events.M())
      ensures err.None? ==> history == state.history
      ensures err.Some? ==> history == old(history) || history == state.history
      ensures err.None? ==> state.events.M().completion.calls > old(state.events.M().completion.calls)
      ensures outcome.done ==>
                EndsWithSuccess(state.events.trace, outcome.output) && EndsWithAnswer(history, outcome.output)
      ensures AttemptsOf(old(state.events.trace), [a], state.events.trace) && a.err == err && a.done == outcome.done
      ensures !state.hasHook ==>
                state.history.messages == AppendAll(old(state.history.messages), a.added, state.history.maxMessages)
    {
      hide Watch, EndsWithSuccess, EndsWithAnswer, TurnMessages, PartOfTurn, AppendAll, Trimmed, IsNative, Requests;
      hide OddSinceRequest, EndsRun, ConversationAfter, Unprocessable, IsNormal, Declined, AttemptAccounted, Accounted;
      hide Told, Blames, FaultsSince, OnlyRequests, OnlyHandling, OnlyEvents, OneAttempt, Continuable, TooMany;
      ghost var m, most := state.events.M(), state.completion.MaxAttempts();
      AppendAllNothing(state.history.messages, state.history.maxMessages);
      ghost var faults := state.events.faults;
      var completed := state.AskCompletion();
      ghost var answered, m' := state.events.faults, state.events.M();
      AfterAsking(m, m', most);
      if completed.NotCompleted? {
        var f := state.ReportCompletionFailure(completed.failure);
        ThenReported(m, m', state.events.M(), most);
        a := Attempt(None, [], Some(f), false, state.events.trace,
                     FaultsSince(faults, state.events.faults));
        AskingFailed(faults, answered, state.events.faults, completed.failure, a, state.strictToolCallProtocol);
        OneOf(old(state.events.trace), a);
        return CONTINUE, Some(f), a;
      }
      ghost var added;
      outcome, err, added := HandleTurnResponse(turn, completed.resp, state);
      ThenHandled(m, m', state.events.M(), most);
      OddMeans(state.events.trace);
      a := Attempt(Some(completed.resp), added, err, outcome.done, state.events.trace,
                   FaultsSince(answered, state.events.faults));
      ProcessingFailed(answered, state.events.faults, a, state.strictToolCallProtocol);
      OneOf(old(state.events.trace), a);
    }

    // Attempts of one turn. A failed attempt is repeated only if it failed with
    // the completion protocol error and the client has seen none of it.
    method RunTurn(turn: nat, state: AgentRunState)
      returns (outcome: TurnOutcome, err: Option<Failure>, ghost attempts: seq<Attempt>)
      requires state.Wired() && state.Counted() && Continuable(state.events.M())
      requires state.events.M().completion.turns == turn
      modifies this`history, this`lastTurn, state`consecutiveNonExecutableToolCallTurns, state.events, state.attempt
      modifies state.history`messages, state.history`conversationState
      ensures state.Counted() && lastTurn == turn
      ensures state.events.M().completion.turns == old(state.events.M().completion.turns) + 1
      ensures attempts != [] && (outcome.done ==> AnsweredBy(history, attempts[|attempts| - 1]))
      ensures err.Some? ==> TurnFailed(err.value, attempts[|attempts| - 1], state.strictToolCallProtocol)
      ensures err.Some? && attempts[|attempts| - 1].err.value.retryable &&
              !state.events.gaveUp && !state.attempt.completionDeltaEmitted ==>
                |attempts| == state.completion.MaxAttempts()
      ensures var most := state.completion.MaxAttempts();
              OneAttempt(old(state.events.M()), state.events.M(), most * most)
      ensures old(state.events.trace) <= state.events.trace
      ensures outcome.done ==> err.None?
      ensures err.None? && !outcome.done ==>
                state.events.M().tools.phase == NoCall && !state.events.M().end.ended && Continuable(state.events.M())
      ensures err.None? ==> history == state.history
      ensures err.Some? ==> history == old(history) || history == state.history
      ensures err.None? ==> state.events.M().completion.calls > old(state.events.M().completion.calls)
      ensures outcome.done ==>
                EndsWithSuccess(state.events.trace, outcome.output) && EndsWithAnswer(history, outcome.output)
      ensures AttemptsOf(old(state.events.trace), attempts, state.events.trace)
      ensures err.None? ==> attempts != [] && EndsAs(attempts[|attempts| - 1], outcome)
      ensures !state.hasHook ==>
                state.history.messages ==
                  AppendAll(old(state.history.messages), Appended(attempts), state.history.maxMessages)
    {
      hide Watch, EndsWithSuccess, EndsWithAnswer, AttemptAppends, AppendAll, Appended, AttemptsOf, AllGoOn;
      hide OneAttempt, OnlyEvents, Observe, TooMany, Live, GoesOn, AttemptAccounted, IsNormal, ConversationAfter;
      hide Unprocessable, FailedWith, TurnFailed, Told;
      ghost var m := state.events.M();
      ghost var before, max := state.history.messages, state.history.maxMessages;
      attempts := [];
      NothingAppended(before, max);
      lastTurn := turn;
      ghost var begun := state.events.trace;
      state.events.Record(TurnBegins(turn));
      var maxAttempts := state.completion.MaxAttempts();
      var lastErr := PLAIN;
      ghost var limit := Times(maxAttempts, maxAttempts);
      assert limit == maxAttempts * maxAttempts && Times(0, maxAttempts) == 0;
      hide Times;
      TurnBegun(m, turn);
      NoAttempts(begun, state.events.trace);
      for attempt := 0 to maxAttempts
        invariant lastTurn == turn && state.Counted() && MayAsk(state.events.M())
        invariant old(state.events.trace) <= state.events.trace
        invariant !state.hasHook ==> state.history.messages == AppendAll(before, Appended(attempts), max)
        invariant AttemptsOf(old(state.events.trace), attempts, state.events.trace) && AllGoOn(attempts)
        invariant OneAttempt(m, state.events.M(), Times(attempt, maxAttempts))
        invariant state.events.M().completion.turns == m.completion.turns + 1
        invariant |attempts| == attempt
        invariant attempts != [] ==> FailedWith(attempts[attempt - 1], lastErr, state.strictToolCallProtocol)
        invariant history == old(history) || history == state.history
      {
        ghost var a;
        ghost var earlier, here, m' := attempts, state.events.trace, state.events.M();
        outcome, err, a := RunTurnOnce(turn, state);
        OneMoreAttempt(m, m', state.events.M(), attempt, maxAttempts);
        AppendedSnoc(before, earlier, a, max);
        AttemptsJoin(old(state.events.trace), earlier, here, [a], state.events.trace);
        attempts := earlier + [a];
        if err.None? {
          return;
        }
        lastErr := err.value;
        AttemptFailed(a, lastErr, state.strictToolCallProtocol);
        m' := state.events.M();
        var again, f := GoOnAfter(lastErr, attempt, maxAttempts, state);
        if !again {
          ErrorKeepsAttempt(m, m', state.events.M(), limit);
          AttemptsStay(old(state.events.trace), attempts, a.seen, state.events.trace);
          ThenTurnFailed(a, lastErr, f, state.strictToolCallProtocol);
          return CONTINUE, Some(f), attempts;
        }
        AllGoOnSnoc(earlier, a);
      }
      ghost var here, m' := state.events.trace, state.events.M();
      var f := FinalizeTurnProcessingError(state, lastErr);
      ErrorKeepsAttempt(m, m', state.events.M(), limit);
      AttemptsStay(old(state.events.trace), attempts, here, state.events.trace);
      ThenTurnFailed(attempts[|attempts| - 1], lastErr, f, state.strictToolCallProtocol);
      return CONTINUE, Some(f), attempts;
    }

    // After a failed attempt: another one, or the error that the turn fails with. Out
    // of attempts, given up, or seen by the client are the reasons not to go on.
    method GoOnAfter(err: Failure, attempt: nat, maxAttempts: nat, state: AgentRunState)
      returns (again: bool, f: Failure)
      requires state.Wired() && attempt < maxAttempts && (err.retryable ==> Live(state.events.M()))
      modifies state.events
      ensures OnlyEvents(old(state.events.M()), state.events.M())
      ensures state.events.M().end.again == old(state.events.M().end.again)
      ensures old(state.events.trace) <= state.events.trace
      ensures again ==>
                && state.events.trace == old(state.events.trace)
                && err.retryable && attempt + 1 < maxAttempts && !state.attempt.completionDeltaEmitted
      ensures !again && !err.retryable ==> f == err
      ensures !again && err.retryable && !state.events.gaveUp && !state.attempt.completionDeltaEmitted ==>
                attempt + 1 == maxAttempts
    {
      hide Watch;
      var contextDone := state.events.ContextDone();
      var seen := state.attempt.completionDeltaEmitted;
      if !ShouldRetryTurnProcessing(contextDone, err, attempt, maxAttempts, seen) {
        f := FinalizeTurnProcessingError(state, err);
        return false, f;
      }
      var interrupted := state.events.Wait();
      return !interrupted, CANCELED;
    }

    // An error that asks for another attempt is told to the client when there is
    // none; any other has been told already, and comes back as it is.
    method FinalizeTurnProcessingError(state: AgentRunState, err: Failure) returns (f: Failure)
      requires state.Wired() && (err.retryable ==> Live(state.events.M()))
      modifies state.events`trace, state.events`faults
      ensures if err.retryable then Told(err, f, old(state.events.faults), state.events.faults)
              else state.events.faults == old(state.events.faults)
      ensures OnlyEvents(old(state.events.M()), state.events.M())
      ensures state.events.M().end.again == old(state.events.M().end.again)
      ensures old(state.events.trace) <= state.events.trace
      ensures !err.retryable || err.canceled ==> state.events.trace == old(state.events.trace)
      ensures !err.retryable ==> f == err
      ensures err.retryable && err.canceled ==> f == CANCELED
      ensures err.retryable && !err.canceled ==>
                if state.events.trace == old(state.events.trace) + [Delivered(ErrorReported)] then f == err
                else f == PLAIN || f.kind == EmitFailed
    {
      if !err.retryable {
        return err;
      }
      f := state.events.TerminalRunError(err);
    }

    // ------------------------------------------------------------- the run

    // A whole run, on a copy of the agent's history. Nothing but the agent's own
    // two fields changes among the objects that existed before: a run that never
    // commits leaves the old history in place, untouched.
    method RunWithSink(userInput: Message, hasContent: bool)
      returns (output: string, err: Option<Failure>, ghost trace: seq<Action>, ghost attempts: seq<Attempt>)
      modifies this`history, this`lastTurn
      ensures if RunBegan(trace)
              then err.Some? ==>
                     RunFailed(err.value, attempts, Watch(trace).completion.turns, maxTurns, strictToolCallProtocol)
              else err.Some? && attempts == []
      ensures var turns := Watch(trace).completion.turns;
              turns <= maxTurns && (RunBegan(trace) ==> lastTurn == if turns > 0 then turns - 1 else 0)
      ensures Watch(trace).completion.calls <= maxTurns * ((retryCount + 1) * (retryCount + 1))
      ensures err.None? ==> Watch(trace).completion.calls > 0
      ensures !Watch(trace).completion.mixed && !Watch(trace).tools.broken
      ensures !Watch(trace).turns.late && !Watch(trace).end.again && !Watch(trace).misplaced
      ensures history == old(history) || fresh(history)
      ensures AttemptsOf([], attempts, trace)
      ensures err.None? ==> attempts != [] && EndsAs(attempts[|attempts| - 1], TurnOutcome(output, true))
      ensures err.None? ==> AnsweredBy(history, attempts[|attempts| - 1])
      ensures !hasHook && history != old(history) ==>
                history.messages ==
                  AppendAll(WithUserMessage(old(history.messages), userInput, hasContent, history.maxMessages),
                            Appended(attempts), history.maxMessages)
      ensures err.None? ==> EndsWithSuccess(trace, output) && EndsWithAnswer(history, output) && fresh(history)
    {
      hide Watch, EndsWithSuccess, EndsWithAnswer, Trimmed, TrimSpace, AttemptAppends, AppendAll, Appended;
      hide AttemptsOf, EndsAs, RunFailed;
      var runHistory := CloneHistoryForRun(history);
      var state := new AgentRunState(runHistory, retryCount, streaming, handlers, hasHook, strictToolCallProtocol);
      trace, output, attempts := state.events.trace, "", [];
      WatchNothing();
      err := StartRun(state);
      NoAttempts([], state.events.trace);
      if err.Some? {
        trace := state.events.trace;
        return;
      }
      AppendUserMessage(runHistory, userInput, hasContent);
      assert runHistory.messages ==
             WithUserMessage(old(history.messages), userInput, hasContent, runHistory.maxMessages);
      lastTurn := 0;
      ghost var begun := state.events.trace;
      output, err, attempts := RunTurns(state);
      trace := state.events.trace;
      MadeFrom(begun, attempts, trace);
      AttemptsJoin([], [], begun, attempts, trace);
      assert [] + attempts == attempts;
    }

    // The turns of a run, up to the one that ends it.
    method RunTurns(state: AgentRunState)
      returns (output: string, err: Option<Failure>, ghost attempts: seq<Attempt>)
      requires state.Wired() && state.Counted() && InRun(state.events.M(), 0) && state.hasHook == hasHook
      requires state.events.M().completion.turns == 0 && state.strictToolCallProtocol == strictToolCallProtocol
      modifies this`history, this`lastTurn, state`consecutiveNonExecutableToolCallTurns, state.events, state.attempt
      modifies state.history`messages, state.history`conversationState
      ensures err.Some? ==>
                RunFailed(err.value, attempts, state.events.M().completion.turns, maxTurns, strictToolCallProtocol)
      ensures var turns := state.events.M().completion.turns;
              turns <= maxTurns && lastTurn == if turns > 0 then turns - 1 else old(lastTurn)
      ensures var most := state.completion.MaxAttempts(); RunEnded(state.events.M(), maxTurns * (most * most))
      ensures err.None? ==> state.events.M().completion.calls > 0
      ensures history == old(history) || history == state.history
      ensures AttemptsOf(old(state.events.trace), attempts, state.events.trace)
      ensures err.None? ==> attempts != [] && EndsAs(attempts[|attempts| - 1], TurnOutcome(output, true))
      ensures err.None? ==> AnsweredBy(history, attempts[|attempts| - 1])
      ensures !hasHook ==>
                state.history.messages ==
                  AppendAll(old(state.history.messages), Appended(attempts), state.history.maxMessages)
      ensures err.None? ==>
                && EndsWithSuccess(state.events.trace, output) && EndsWithAnswer(history, output)
                && history == state.history
    {
      hide Watch, EndsWithSuccess, EndsWithAnswer, AttemptAppends, AppendAll, Appended, AttemptsOf, AllGoOn, EndsAs;
      hide TurnFailed, RunFailed;
      ghost var start, max := state.history.messages, state.history.maxMessages;
      attempts, output := [], "";
      NothingAppended(start, max);
      NoAttempts(state.events.trace, state.events.trace);
      ghost var most, bound: nat := state.completion.MaxAttempts() * state.completion.MaxAttempts(), 0;
      assert Times(maxTurns, most) == maxTurns * most && Times(0, most) == 0;
      hide Times;
      for turn := 0 to maxTurns
        invariant state.Counted() && (history == old(history) || history == state.history)
        invariant lastTurn == if turn == 0 then old(lastTurn) else turn - 1
        invariant state.events.M().completion.turns == turn && (attempts == [] <==> turn == 0)
        invariant attempts != [] ==> attempts[|attempts| - 1].err.None?
        invariant bound == Times(turn, most) && InRun(state.events.M(), bound)
        invariant !hasHook ==> state.history.messages == AppendAll(start, Appended(attempts), max)
        invariant AttemptsOf(old(state.events.trace), attempts, state.events.trace) && AllGoOn(attempts)
      {
        bound := bound + most;
        NextBound(turn, most);
        BoundsOrdered(turn + 1, maxTurns, most);
        var outcome;
        ghost var more;
        ghost var earlier, here := attempts, state.events.trace;
        outcome, err, more := RunTurn(turn, state);
        AppendedConcat(start, earlier, more, max);
        AttemptsJoin(old(state.events.trace), earlier, here, more, state.events.trace);
        attempts := earlier + more;
        if err.Some? || outcome.done {
          output := outcome.output;
          if err.Some? { FailedInTurn(err.value, attempts, turn + 1, maxTurns, strictToolCallProtocol); }
          return;
        }
        TurnGoesOn(here, more, state.events.trace, outcome);
        AllGoOnJoin(earlier, more);
      }
      if maxTurns > 0 {
        lastTurn := maxTurns - 1;
      }
      ghost var here := state.events.trace;
      var f := state.events.TerminalRunError(PLAIN);
      AttemptsStay(old(state.events.trace), attempts, here, state.events.trace);
      OutOfTurns(f, attempts, maxTurns, strictToolCallProtocol);
      err := Some(f);
    }

    // What a caller gets: a run, and the rules that its trace obeys. A failed tool
    // event and three fruitless turns end the run, and its end is told once and last.
    // What may come after them nonetheless comes after an odd action, or after a
    // failure that asks for a new attempt; the rules say where that has to be.
    method RunMessage(userInput: Message, hasContent: bool)
      returns (output: string, err: Option<Failure>, ghost trace: seq<Action>, ghost attempts: seq<Attempt>)
      modifies this`history, this`lastTurn
      ensures if RunBegan(trace)
              then err.Some? ==> RunFailed(err.value, attempts, |Turns(trace)|, maxTurns, strictToolCallProtocol)
              else err.Some? && attempts == []
      ensures var turns := |Turns(trace)|;
              turns <= maxTurns && (RunBegan(trace) ==> lastTurn == if turns > 0 then turns - 1 else 0)
      ensures |Requests(trace)| <= maxTurns * ((retryCount + 1) * (retryCount + 1))
      ensures NoAttemptAfterDelta(trace)
      ensures ToolEventsPaired(trace) && StepsDistinct(trace) && TurnsNumbered(trace)
      ensures FruitlessTurnsEndTheRun(trace) && StopsEndTheRun(trace) && EndIsLast(trace)
      ensures history == old(history) || fresh(history)
      ensures AttemptsOf([], attempts, trace)
      ensures err.None? ==> attempts != [] && EndsAs(attempts[|attempts| - 1], TurnOutcome(output, true))
      ensures err.None? ==> AnsweredBy(history, attempts[|attempts| - 1])
      ensures !hasHook && history != old(history) ==>
                history.messages ==
                  AppendAll(WithUserMessage(old(history.messages), userInput, hasContent, history.maxMessages),
                            Appended(attempts), history.maxMessages)
      ensures err.None? ==> EndsWithSuccess(trace, output) && EndsWithAnswer(history, output) && fresh(history)
    {
      hide Watch, Requests, NoAttemptAfterDelta, ToolEventsPaired, StepsDistinct, FruitlessTurnsEndTheRun, EndIsLast;
      hide Turns, TurnsNumbered, StopsEndTheRun, RunFailed, AttemptsOf;
      output, err, trace, attempts := RunWithSink(userInput, hasContent);
      CallsMean(trace);
      MixedMeans(trace);
      PairedMeans(trace);
      DistinctMeans(trace);
      PlacesMean(trace);
      TurnsMean(trace);
      LateMeans(trace);
      StopsMean(trace);
      EndMeans(trace);
    }

    method StartRun(state: AgentRunState) returns (err: Option<Failure>)
      requires state.Wired()
      modifies state.events
      ensures OnlyEvents(old(state.events.M()), state.events.M())
      ensures err.None? ==> !state.events.M().end.ended
      ensures Explained(old(state.events.faults), state.events.faults, err)
      ensures exists a ::
                state.events.trace == old(state.events.trace) + [a] && (err.None? <==> a == Delivered(RunStarted))
    {
      var notBuilt := state.events.Fails(PLAIN);
      if notBuilt {
        var f := state.events.TerminalError(PLAIN);
        return Some(f);
      }
      err := state.events.Emit(RunStarted);
    }
  }

  // The output is what the message says, trimmed or not.
  predicate IsAnswer(output: string, message: Message) {
    message.role != NoRole && (output == message.text || output == TrimSpace(message.text))
  }

  lemma ToolsThenEnd(m: Monitor, m': Monitor, m'': Monitor)
    requires OnlyTools(m, m') && OnlyHandling(m', m'') && !m.end.ended
    ensures OnlyHandling(m, m'') && m'.turns.ended == m.turns.ended
  {
  }

  lemma NothingFlat()
    ensures Flat([]) == []
  {
  }

  lemma ToolsKeepStreak(m: Monitor, m': Monitor)
    requires OnlyTools(m, m')
    ensures m'.turns.streak == m.turns.streak
  {
  }

  lemma ToolsFailed(m: Monitor, m': Monitor, f: Failure)
    requires OnlyTools(m, m') && !m.end.ended && !m'.tools.phase.InCall? && (f.retryable ==> JustOdd(m'))
    ensures OnlyHandling(m, m') && MayGoOn(Some(f), m') && (f.retryable ==> m'.odd)
  {
  }

  lemma ToolsSucceeded(m: Monitor, m': Monitor)
    requires OnlyTools(m, m') && !m.end.ended && m'.tools.phase == NoCall && !m'.tools.stopping && !TooMany(m.turns)
    ensures OnlyHandling(m, m') && MayGoOn(None, m')
  {
  }

  // An odd action that has happened stays, through tool events that were delivered.
  lemma StillOdd(m: Monitor, m': Monitor)
    requires OnlyTools(m, m') && m'.tools.phase.InCall? && !m'.tools.stopping
    ensures (JustOdd(m) ==> JustOdd(m')) && (!m.end.ended ==> !m'.end.ended)
  {
  }

  lemma LastOfMore(trace: seq<Action>, a: Action)
    requires trace != [] && trace[|trace| - 1] == a
    ensures forall b :: LastIs(trace, b) <==> a == b
  {
  }

  // What can be attempted again after an error that stopped execution.
  lemma OddGoesOn(m: Monitor, m': Monitor, m'': Monitor, stop: Failure, f: Failure)
    requires OnlyTools(m, m') && !m.end.ended && OnlyEvents(m', m'')
    requires !m'.tools.phase.InCall? && (stop.retryable ==> JustOdd(m'))
    requires f.retryable && !stop.retryable ==> JustOdd(m'')
    ensures OnlyHandling(m, m'') && MayGoOn(Some(f), m'') && (f.retryable ==> m''.odd)
    ensures m''.turns.streak == m'.turns.streak && m''.tools.steps == m'.tools.steps
  {
  }

  // What comes back after an error stopped execution is that error, or comes from the
  // failure to report it.
  lemma StopAccounted(
    before: seq<Failure>, here: seq<Failure>, after: seq<Failure>, stop: Option<Failure>, f: Failure,
    m: Monitor, m': Monitor)
    requires stop.Some? && StopExplained(before, here, stop, m)
    requires if stop.value.kind == OtherFailure then Told(stop.value, f, here, after)
             else after == here && f == stop.value && m' == m
    ensures Accounted(before, after, Some(f), IsStop(Some(f)) && m'.tools.stopping)
  {
  }

  lemma StopReturned(x: Execution, f: Failure, trace: seq<Action>)
    requires x.stop.Some? && Reported(x.seen, trace, f.retryable)
    requires x.stop.value.kind != OtherFailure ==> f == x.stop.value && trace == x.seen
    requires x.stop.value.kind == OtherFailure ==>
               f == x.stop.value || f == PLAIN || f == CANCELED || f.kind == EmitFailed
    ensures StopIsReturned(x, Some(f), trace)
  {
  }

  lemma NotStopped(before: seq<Failure>, after: seq<Failure>, stop: Option<Failure>, m: Monitor)
    requires stop.None? ==> StopExplained(before, after, stop, m)
    ensures stop.None? ==> after == before && Accounted(before, after, None, false)
  {
  }

  lemma NoSteps(calls: seq<IndexedCall>)
    ensures Indices(calls[..0]) == []
  {
  }

  lemma NextInvocation(calls: seq<IndexedCall>, index: nat)
    requires index < |calls| && forall i :: 0 <= i < |calls| ==> calls[i].index == i
    ensures index !in Indices(calls[..index])
  {
  }

  lemma NothingIsPart(msg: Message)
    ensures TextPart(msg, [])
  {
  }

  lemma CallsWereBegun(
    msg: Message, invocations: seq<TextInvocation>, parts: seq<seq<Message>>, added: seq<Message>)
    requires CallsBegun(msg, invocations, parts, added)
    ensures TextPart(msg, added)
  {
  }

  lemma StartsWithMessage(msg: Message, added: seq<Message>)
    requires added != [] && added[0] == msg
    ensures TextTurnMessages(msg, added)
  {
  }

  lemma CallsWereAnswered(
    msg: Message, invocations: seq<TextInvocation>, parts: seq<seq<Message>>, feedback: seq<Message>,
    added: seq<Message>)
    requires CallsAnswered(msg, invocations, parts, feedback, added)
    ensures TextTurnMessages(msg, added)
  {
  }

  lemma NoticeIsOne(msg: Message, added: seq<Message>)
    requires Select(msg.toolCalls, true) == [] && added != [] && ToolTurnMessages(msg, added)
    ensures |added| == 1
  {
  }

  lemma NothingIsPartOfTurn(resp: Response)
    ensures PartOfTurn(resp, [])
  {
  }

  // An attempt that succeeded, and ended the run or did not.
  ghost predicate EndsAs(a: Attempt, outcome: TurnOutcome) {
    a.err.None? && a.done == outcome.done
  }

  ghost function FaultsSince(before: seq<Failure>, after: seq<Failure>): seq<Failure> {
    if before <= after then after[|before|..] else []
  }

  // What is known once the completer has been asked.
  lemma AfterAsking(m: Monitor, m': Monitor, most: nat)
    requires MayAsk(m) && OnlyRequests(m, m', most)
    ensures OneAttempt(m, m', most) && Continuable(m') && m'.turns.streak == m.turns.streak
    ensures m'.completion.turns == m.completion.turns
    ensures m'.completion.calls > m.completion.calls ==>
              && m'.tools.phase == NoCall && m'.tools.steps == [] && !m'.tools.stopping && !m'.turns.ran
              && !TooMany(m'.turns) && !m'.end.ended && !m'.odd
  {
  }

  lemma ThenReported(m: Monitor, m': Monitor, m'': Monitor, most: nat)
    requires OneAttempt(m, m', most) && Continuable(m') && OnlyEvents(m', m'')
    ensures OneAttempt(m, m'', most) && m''.turns.streak == m'.turns.streak && m''.completion == m'.completion
  {
  }

  lemma ThenHandled(m: Monitor, m': Monitor, m'': Monitor, most: nat)
    requires OneAttempt(m, m', most) && OnlyHandling(m', m'')
    ensures OneAttempt(m, m'', most) && m''.completion == m'.completion
  {
  }

  lemma AskingFailed(
    before: seq<Failure>, answered: seq<Failure>, after: seq<Failure>, failure: Failure, a: Attempt, strict: bool)
    requires Blames(before, answered, failure) && a.err.Some? && Told(failure, a.err.value, answered, after)
    requires a.faults == FaultsSince(before, after)
    ensures AttemptAccounted(a, strict)
  {
  }

  lemma ProcessingFailed(before: seq<Failure>, after: seq<Failure>, a: Attempt, strict: bool)
    requires a.resp.Some? && Accounted(before, after, a.err, EndsRun(a.resp.value, a.err, a.seen, strict))
    requires a.faults == FaultsSince(before, after)
    ensures AttemptAccounted(a, strict)
  {
    hide Watch, ThreeFruitless, ToolStopped, HumanAsked, Unprocessable;
    StoppedMeans(a.seen);
    StreakIsFruitless(a.seen);
  }

  ghost predicate FailedWith(a: Attempt, err: Failure, strict: bool) {
    a.err == Some(err) && AttemptAccounted(a, strict)
  }

  lemma AttemptFailed(a: Attempt, err: Failure, strict: bool)
    requires a.err == Some(err) && AttemptAccounted(a, strict)
    ensures FailedWith(a, err, strict)
  {
  }

  lemma ThenTurnFailed(a: Attempt, err: Failure, f: Failure, strict: bool)
    requires FailedWith(a, err, strict) && (f == err || err.retryable)
    ensures TurnFailed(f, a, strict) && a.err == Some(err)
  {
  }

  // The run's start was told to the client.
  ghost predicate RunBegan(trace: seq<Action>) {
    trace != [] && trace[0] == Delivered(RunStarted)
  }

  // Why a run failed: the last turn did, or all turns went well and none ended it.
  ghost predicate RunFailed(err: Failure, attempts: seq<Attempt>, turns: nat, maxTurns: nat, strict: bool) {
    if attempts == [] then turns == maxTurns == 0
    else
      var last := attempts[|attempts| - 1];
      if last.err.None? then !last.done && turns == maxTurns && (err == PLAIN || err.kind == EmitFailed)
      else 0 < turns <= maxTurns && TurnFailed(err, last, strict)
  }

  lemma FailedInTurn(err: Failure, attempts: seq<Attempt>, turns: nat, maxTurns: nat, strict: bool)
    requires 0 < turns <= maxTurns && attempts != [] && TurnFailed(err, attempts[|attempts| - 1], strict)
    ensures RunFailed(err, attempts, turns, maxTurns, strict)
  {
    hide AttemptAccounted;
  }

  lemma OutOfTurns(err: Failure, attempts: seq<Attempt>, maxTurns: nat, strict: bool)
    requires AllGoOn(attempts) && (attempts == [] <==> maxTurns == 0)
    requires attempts != [] ==> attempts[|attempts| - 1].err.None?
    requires err == PLAIN || err.kind == EmitFailed
    ensures RunFailed(err, attempts, maxTurns, maxTurns, strict)
  {
    hide TurnFailed;
  }

  // The conversation goes on from the response that ended the run.
  ghost predicate AnsweredBy(history: History, a: Attempt)
    reads history
  {
    a.resp.Some? && history.conversationState == a.resp.value.conversationState
  }

  // A turn fails like its last attempt, except that an error which asked for another
  // one is told to the client first.
  ghost predicate TurnFailed(err: Failure, last: Attempt, strict: bool) {
    last.err.Some? && AttemptAccounted(last, strict) && (!last.err.value.retryable ==> last.err == Some(err))
  }

  lemma TurnBegun(m: Monitor, turn: nat)
    requires Continuable(m)
    ensures var m' := Observe(m, TurnBegins(turn));
            && OneAttempt(m, m', 0) && MayAsk(m') && m'.turns.streak == m.turns.streak
            && m'.completion.turns == m.completion.turns + 1
  {
  }

  lemma OneMoreAttempt(m: Monitor, m': Monitor, m'': Monitor, made: nat, most: nat)
    requires made < most && OneAttempt(m, m', Times(made, most)) && OneAttempt(m', m'', most)
    ensures OneAttempt(m, m'', Times(made + 1, most)) && OneAttempt(m, m'', Times(most, most))
    ensures m.completion.calls <= m'.completion.calls
  {
    NextBound(made, most);
    BoundsOrdered(made + 1, most, most);
    hide Times;
  }

  lemma ErrorKeepsAttempt(m: Monitor, m': Monitor, m'': Monitor, most: nat)
    requires OneAttempt(m, m', most) && OnlyEvents(m', m'') && m''.end.again == m'.end.again
    ensures OneAttempt(m, m'', most) && m''.turns.streak == m'.turns.streak
    ensures m''.completion.turns == m'.completion.turns
  {
  }

  lemma NoAttempts(begun: seq<Action>, trace: seq<Action>)
    requires begun <= trace
    ensures AttemptsOf(begun, [], trace) && AllGoOn([])
  {
  }

  lemma MadeInMore(before: seq<Action>, here: seq<Action>, a: Attempt, trace: seq<Action>, after: seq<Action>)
    requires before <= here && MadeIn(here, a, trace) && trace <= after
    ensures MadeIn(before, a, after)
  {
    hide AttemptAppends, Requests;
    RequestsGrow(before, here);
  }

  lemma AttemptsStay(begun: seq<Action>, attempts: seq<Attempt>, before: seq<Action>, after: seq<Action>)
    requires AttemptsOf(begun, attempts, before) && before <= after
    ensures AttemptsOf(begun, attempts, after)
  {
    hide MadeIn, GoesOn;
    forall i | 0 <= i < |attempts| ensures MadeIn(Since(begun, attempts, i), attempts[i], after) {
      MadeInMore(Since(begun, attempts, i), Since(begun, attempts, i), attempts[i], before, after);
    }
  }

  lemma OneOf(before: seq<Action>, a: Attempt)
    requires AttemptAppends(a) && before <= a.seen
    requires a.resp.Some? ==> Watch(before).completion.calls < Watch(a.seen).completion.calls
    ensures AttemptsOf(before, [a], a.seen)
  {
    hide AttemptAppends, GoesOn, Requests, Watch;
    CallsMean(before);
    CallsMean(a.seen);
  }

  lemma AllGoOnSnoc(attempts: seq<Attempt>, a: Attempt)
    requires AllGoOn(attempts) && a.err.Some? && a.err.value.retryable
    ensures AllGoOn(attempts + [a])
  {
  }

  lemma RequestsGrow(a: seq<Action>, b: seq<Action>)
    requires a <= b
    ensures |Requests(a)| <= |Requests(b)|
  {
    assert forall i :: 0 <= i < |a| ==> a[i] == b[i];
    SmallerSet(Requests(a), Requests(b));
  }

  lemma {:induction false} SmallerSet(a: set<int>, b: set<int>)
    requires a <= b
    ensures |a| <= |b|
  {
    assert |b| == |a| + |b - a| by { assert b == a + (b - a); }
  }

  lemma AttemptsJoin(begun: seq<Action>, a: seq<Attempt>, here: seq<Action>, b: seq<Attempt>, trace: seq<Action>)
    requires AttemptsOf(begun, a, here) && AllGoOn(a) && AttemptsOf(here, b, trace)
    ensures AttemptsOf(begun, a + b, trace)
    ensures b != [] ==> (a + b)[|a + b| - 1] == b[|b| - 1]
  {
    hide MadeIn, GoesOn, Since;
    AttemptsStay(begun, a, here, trace);
    forall i | 0 <= i < |a + b| ensures MadeIn(Since(begun, a + b, i), (a + b)[i], trace) {
      if i < |a| { SinceFirst(begun, a, b, i); } else { MadeInSecond(begun, a, here, b, trace, i - |a|); }
    }
  }

  lemma SinceFirst(begun: seq<Action>, a: seq<Attempt>, b: seq<Attempt>, i: nat)
    requires i < |a|
    ensures Since(begun, a + b, i) == Since(begun, a, i)
  {
  }

  lemma MadeInSecond(
    begun: seq<Action>, a: seq<Attempt>, here: seq<Action>, b: seq<Attempt>, trace: seq<Action>, j: nat)
    requires AttemptsOf(begun, a, here) && AttemptsOf(here, b, trace) && j < |b|
    ensures MadeIn(Since(begun, a + b, |a| + j), b[j], trace)
  {
    hide MadeIn, AttemptsOf, Since;
    OneMade(here, b, trace, j);
    SinceSecond(begun, a, here, b, j);
    MadeInMore(Since(begun, a + b, |a| + j), Since(here, b, j), b[j], trace, trace);
  }

  lemma SinceSecond(begun: seq<Action>, a: seq<Attempt>, here: seq<Action>, b: seq<Attempt>, j: nat)
    requires AttemptsOf(begun, a, here) && j < |b|
    ensures Since(begun, a + b, |a| + j) <= Since(here, b, j)
  {
    hide MadeIn, AttemptsOf;
    if j > 0 {
      assert (a + b)[|a| + j - 1] == b[j - 1];
    } else if a == [] {
      MadeFrom(begun, a, here);
    } else {
      assert (a + b)[|a| - 1] == a[|a| - 1];
      OneMade(begun, a, here, |a| - 1);
      SeenIn(begun, a, |a| - 1, here);
    }
  }

  lemma OneMade(begun: seq<Action>, attempts: seq<Attempt>, trace: seq<Action>, i: nat)
    requires AttemptsOf(begun, attempts, trace) && i < |attempts|
    ensures MadeIn(Since(begun, attempts, i), attempts[i], trace)
  {
    hide MadeIn, Since;
  }

  lemma MadeFrom(begun: seq<Action>, attempts: seq<Attempt>, trace: seq<Action>)
    requires AttemptsOf(begun, attempts, trace)
    ensures begun <= trace
  {
    hide MadeIn, Since;
  }

  lemma SeenIn(begun: seq<Action>, attempts: seq<Attempt>, i: nat, trace: seq<Action>)
    requires AttemptsOf(begun, attempts, trace) && i < |attempts|
    ensures attempts[i].seen <= trace
  {
    hide Since, AttemptAppends, Requests, GoesOn;
  }

  lemma TurnGoesOn(begun: seq<Action>, attempts: seq<Attempt>, trace: seq<Action>, outcome: TurnOutcome)
    requires AttemptsOf(begun, attempts, trace) && !outcome.done
    requires attempts != [] && EndsAs(attempts[|attempts| - 1], outcome)
    ensures AllGoOn(attempts) && attempts[|attempts| - 1].err.None?
  {
    hide MadeIn;
  }

  lemma AllGoOnJoin(a: seq<Attempt>, b: seq<Attempt>)
    requires AllGoOn(a) && AllGoOn(b)
    ensures AllGoOn(a + b)
  {
    hide GoesOn;
  }

  lemma NothingAppended(messages: seq<Message>, max: int)
    ensures AppendAll(messages, Appended([]), max) == messages
  {
  }

  lemma AppendedSnoc(before: seq<Message>, attempts: seq<Attempt>, a: Attempt, max: int)
    ensures AppendAll(before, Appended(attempts + [a]), max) ==
            AppendAll(AppendAll(before, Appended(attempts), max), a.added, max)
  {
    assert (attempts + [a])[..|attempts|] == attempts;
    AppendAllConcat(before, Appended(attempts), a.added, max);
  }

  lemma {:induction false} AppendedConcat(before: seq<Message>, a: seq<Attempt>, b: seq<Attempt>, max: int)
    ensures AppendAll(before, Appended(a + b), max) == AppendAll(AppendAll(before, Appended(a), max), Appended(b), max)
    decreases |b|
  {
    hide AppendAll;
    if b == [] {
      assert a + b == a;
      NothingAppended(AppendAll(before, Appended(a), max), max);
    } else {
      var front, last := b[..|b| - 1], b[|b| - 1];
      assert a + b == a + front + [last] && b == front + [last];
      AppendedConcat(before, a, front, max);
      AppendedSnoc(before, a + front, last, max);
      AppendedSnoc(AppendAll(before, Appended(a), max), front, last, max);
    }
  }

  // The output is what the last message says, unless the window has room for a
  // pinned message only.
  ghost predicate EndsWithAnswer(history: History, output: string)
    reads history
  {
    var messages := history.messages;
    history.maxMessages > 1 ==> messages != [] && IsAnswer(output, messages[|messages| - 1])
  }

  lemma AppendedIsLast(messages: seq<Message>, m: Message, max: int)
    requires max > 1
    ensures var r := AppendAll(messages, [m], max); r != [] && r[|r| - 1] == m
  {
    assert [m][1..] == [];
  }

  ghost predicate EndsWithSuccess(trace: seq<Action>, output: string) {
    |trace| >= 2 && trace[|trace| - 2..] == [Delivered(MessageSent(output)), Delivered(Done)]
  }

  // What attempts at a turn leave alone.
  ghost predicate OneAttempt(m: Monitor, m': Monitor, most: nat) {
    && m.completion.calls <= m'.completion.calls <= m.completion.calls + most
    && m'.completion.mixed == m.completion.mixed
    && m'.tools.broken == m.tools.broken
    && m'.turns.late == m.turns.late
    && m'.end.again == m.end.again && m'.misplaced == m.misplaced
  }

  // After the last turn of a run.
  ghost predicate RunEnded(m: Monitor, most: nat) {
    && m.completion.calls <= most && !m.completion.mixed
    && !m.tools.broken && !m.turns.late && !m.end.again && !m.misplaced
  }

  // Between the turns of a run.
  ghost predicate InRun(m: Monitor, most: nat) {
    RunEnded(m, most) && Continuable(m)
  }

  // Exactly if an attempt is left, the client has seen nothing of this one, nobody
  // has given up, and the error asks for it.
  function ShouldRetryTurnProcessing(
    contextDone: bool, err: Failure, attempt: nat, maxAttempts: nat, completionDeltaEmitted: bool
  ): (retry: bool)
    ensures retry <==> attempt + 1 < maxAttempts && !completionDeltaEmitted && !contextDone && err.retryable
  {
    if attempt + 1 >= maxAttempts then false
    else if completionDeltaEmitted then false
    else if contextDone then false
    else err.retryable
  }

  // Blank input without attachments is not a message.
  method AppendUserMessage(history: History, userInput: Message, hasContent: bool)
    modifies history`messages
    ensures var text := TrimSpace(userInput.text);
            history.messages ==
              if text == "" && !hasContent then old(history.messages)
              else Trimmed(old(history.messages) + [userInput.(role := User, text := text)], history.maxMessages)
  {
    var message := userInput.(role := User, text := TrimSpace(userInput.text));
    if message.text == "" && !hasContent {
      return;
    }
    history.Append(message);
  }

  // What a run starts from: the old history within the run's limit, and the
  // user's message.
  function WithUserMessage(messages: seq<Message>, userInput: Message, hasContent: bool, max: int): seq<Message> {
    var text := TrimSpace(userInput.text);
    if text == "" && !hasContent then Trimmed(messages, max)
    else Trimmed(Trimmed(messages, max) + [userInput.(role := User, text := text)], max)
  }

  lemma WatchNothing()
    ensures Watch([]) == START
  {
  }

  function Times(n: nat, most: nat): nat {
    n * most
  }

  lemma NextBound(n: nat, most: nat)
    ensures Times(n + 1, most) == Times(n, most) + most
  {
  }

  lemma BoundsOrdered(n: nat, limit: nat, most: nat)
    requires n <= limit
    ensures Times(n, most) <= Times(limit, most)
  {
  }
}
