// One request to the model with its retries
// (core/bridge/agent/completion_runner.go, stream_bridge.go,
// completion_attempt_state.go).
module AgentCompletion {
  import opened Options
  import opened AgentMessages
  import opened AgentTrace
  import opened AgentEvents

  datatype FinishReason = FinishStop | FinishToolCalls | FinishLength | FinishOther

  datatype Response = Response(message: Message, finish: FinishReason, conversationState: string)

  datatype Completed = Completed(resp: Response) | NotCompleted(failure: Failure)

  // What the completer comes back with; a response may be missing.
  datatype Answer = Answered(resp: Option<Response>) | Refused(failure: Failure)

  ghost function FaultOf(answer: Answer): seq<Failure> {
    match answer
    case Answered(resp) => if resp.None? then [PLAIN] else []
    case Refused(failure) => [failure]
  }

  // A response as it was answered, except that its message has a role.
  ghost predicate IsNormal(resp: Response, answered: Response) {
    && resp.message.role != NoRole
    && (answered.message.role != NoRole ==> resp == answered)
    && (answered.message.role == NoRole ==> resp == answered.(message := answered.message.(role := Assistant)))
  }

  class CompletionAttemptState {
    var completionDeltaEmitted: bool
    ghost var answer: Answer   // what the completer came back with last

    constructor ()
      ensures !completionDeltaEmitted
    {
      completionDeltaEmitted, answer := false, Answered(None);
    }

    method Reset()
      modifies this`completionDeltaEmitted
      ensures !completionDeltaEmitted
    {
      completionDeltaEmitted := false;
    }

    method MarkCompletionDeltaEmitted()
      modifies this`completionDeltaEmitted
      ensures completionDeltaEmitted
    {
      completionDeltaEmitted := true;
    }
  }

  class LLMDeltaBridge {
    var emitted: bool
    const attempt: CompletionAttemptState
    const events: AgentEventEmitter

    constructor (attempt: CompletionAttemptState, events: AgentEventEmitter)
      ensures this.attempt == attempt && this.events == events && !emitted
    {
      this.attempt, this.events, emitted := attempt, events, false;
    }

    // Marks the attempt before the sink is asked, so a failing sink counts too.
    method OnDelta() returns (ok: bool)
      modifies this, attempt`completionDeltaEmitted, events`trace
      ensures emitted && attempt.completionDeltaEmitted
      ensures events.trace == old(events.trace) + [DeltaPassed]
      ensures events.M() == Observe(old(events.M()), DeltaPassed)
    {
      emitted := true;
      attempt.MarkCompletionDeltaEmitted();
      events.Record(DeltaPassed);
      ok := Arbitrary();
    }
  }

  // A new request of the completer may be made.
  ghost predicate MayAsk(m: Monitor) {
    !m.completion.deltaInTurn && Continuable(m)
  }

  // What requests change: the counts, the start of a new response.
  ghost predicate OnlyRequests(m: Monitor, m': Monitor, most: nat) {
    && m.completion.calls <= m'.completion.calls <= m.completion.calls + most
    && m'.completion.turnCalls - m.completion.turnCalls == m'.completion.calls - m.completion.calls
    && m'.completion.mixed == m.completion.mixed && m'.completion.turns == m.completion.turns
    && m'.misplaced == m.misplaced
    && SameTurns(m.turns.(ran := false), m'.turns.(ran := false))
    && m'.tools.broken == m.tools.broken && m'.end.again == m.end.again
    && (if m'.completion.calls == m.completion.calls then m' == m
        else
          && m'.tools == ToolWatch(NoCall, [], false, m'.tools.broken)
          && !m'.turns.ran && !m'.end.ended && !m'.odd)
  }

  class CompletionRunner {
    const attempt: CompletionAttemptState
    const events: AgentEventEmitter
    const retryCount: nat
    const streaming: bool

    constructor (attempt: CompletionAttemptState, events: AgentEventEmitter, retryCount: nat, streaming: bool)
      ensures this.attempt == attempt && this.events == events
      ensures this.retryCount == retryCount && this.streaming == streaming
    {
      this.attempt, this.events, this.retryCount, this.streaming := attempt, events, retryCount, streaming;
    }

    function MaxAttempts(): nat {
      retryCount + 1
    }

    // How asking ends: with what the completer answered last, or with the failure
    // that happened last. A transient failure is what comes back only after all
    // attempts, unless somebody gave up or the client has seen a part of the answer.
    ghost predicate Ended(r: Completed, faults: seq<Failure>, calls: nat)
      reads attempt, events
    {
      && faults <= events.faults
      && match r
         case Completed(resp) =>
           attempt.answer.Answered? && attempt.answer.resp.Some? && IsNormal(resp, attempt.answer.resp.value)
         case NotCompleted(failure) =>
           && Blames(faults, events.faults, failure)
           && (failure.transient && !events.gaveUp && !events.M().completion.deltaInTurn ==>
                 events.M().completion.calls == calls + MaxAttempts())
    }

    method Complete() returns (r: Completed)
      requires MayAsk(events.M())
      modifies attempt, events
      ensures Ended(r, old(events.faults), old(events.M().completion.calls))
      ensures OnlyRequests(old(events.M()), events.M(), MaxAttempts())
      ensures old(events.trace) <= events.trace
      ensures attempt.completionDeltaEmitted == events.M().completion.deltaInTurn
      ensures !streaming ==> !events.M().completion.deltaInTurn
      ensures r.Completed? ==> events.M().completion.calls > old(events.M().completion.calls)
      ensures r.Completed? ==> r.resp.message.role != NoRole
    {
      attempt.Reset();
      if streaming {
        r := CompleteStreaming();
      } else {
        r := CompleteNonStreaming();
      }
    }

    method CompleteNonStreaming() returns (r: Completed)
      requires MayAsk(events.M()) && !attempt.completionDeltaEmitted
      modifies attempt`answer, events
      ensures Ended(r, old(events.faults), old(events.M().completion.calls))
      ensures OnlyRequests(old(events.M()), events.M(), MaxAttempts())
      ensures old(events.trace) <= events.trace
      ensures !events.M().completion.deltaInTurn
      ensures r.Completed? ==> events.M().completion.calls > old(events.M().completion.calls)
      ensures r.Completed? ==> r.resp.message.role != NoRole
    {
      hide Watch;
      var maxAttempts := MaxAttempts();
      r := NotCompleted(PLAIN);
      for attemptNo := 0 to maxAttempts
        invariant OnlyRequests(old(events.M()), events.M(), attemptNo) && old(events.trace) <= events.trace
        invariant MayAsk(events.M())
        invariant events.M().completion.calls == old(events.M().completion.calls) + attemptNo
        invariant old(events.faults) <= events.faults && r.NotCompleted?
        invariant attemptNo > 0 ==> Blames(old(events.faults), events.faults, r.failure)
      {
        var answer := CompleteOnce();
        if answer.Answered? {
          r := NormalizeCompletionResponse(answer.resp);
          return;
        }
        r := NotCompleted(answer.failure);
        var contextDone := events.ContextDone();
        if !ShouldRetryCompletion(contextDone, r.failure, attemptNo, maxAttempts, false) {
          return;
        }
        var interrupted := events.Wait();
        if interrupted {
          return NotCompleted(CANCELED);
        }
      }
    }

    method CompleteStreaming() returns (r: Completed)
      requires MayAsk(events.M()) && !attempt.completionDeltaEmitted
      modifies attempt, events
      ensures Ended(r, old(events.faults), old(events.M().completion.calls))
      ensures OnlyRequests(old(events.M()), events.M(), MaxAttempts())
      ensures old(events.trace) <= events.trace
      ensures attempt.completionDeltaEmitted == events.M().completion.deltaInTurn
      ensures r.Completed? ==> events.M().completion.calls > old(events.M().completion.calls)
      ensures r.Completed? ==> r.resp.message.role != NoRole
    {
      hide Watch, OnlyRequests, Continuable, IsNormal;
      NoRequest(events.M());
      var maxAttempts := MaxAttempts();
      r := NotCompleted(PLAIN);
      for attemptNo := 0 to maxAttempts
        invariant OnlyRequests(old(events.M()), events.M(), attemptNo) && old(events.trace) <= events.trace
        invariant MayAsk(events.M()) && !attempt.completionDeltaEmitted
        invariant events.M().completion.calls == old(events.M().completion.calls) + attemptNo
        invariant old(events.faults) <= events.faults && r.NotCompleted?
        invariant attemptNo > 0 ==> Blames(old(events.faults), events.faults, r.failure)
      {
        ghost var m := events.M();
        attempt.Reset();
        var badStepID := events.Fails(PLAIN);
        if badStepID {
          FewerRequests(old(events.M()), m, attemptNo, maxAttempts);
          return NotCompleted(PLAIN);
        }
        var bridge := new LLMDeltaBridge(attempt, events);
        var answer := CompleteStream(bridge);
        OneMoreRequest(old(events.M()), m, events.M(), attemptNo, maxAttempts);
        if answer.Answered? {
          r := NormalizeCompletionResponse(answer.resp);
          return;
        }
        r := NotCompleted(answer.failure);
        var contextDone := events.ContextDone();
        if !ShouldRetryCompletion(contextDone, r.failure, attemptNo, maxAttempts, bridge.emitted) {
          return;
        }
        var interrupted := events.Wait();
        if interrupted {
          return NotCompleted(CANCELED);
        }
      }
    }

    // The completer answers anything.
    method CompleteOnce() returns (answer: Answer)
      modifies attempt`answer, events`trace, events`faults
      ensures events.trace == old(events.trace) + [CompleterCalled]
      ensures events.M() == Observe(old(events.M()), CompleterCalled)
      ensures attempt.answer == answer && events.faults == old(events.faults) + FaultOf(answer)
    {
      events.Record(CompleterCalled);
      answer := NextAnswer();
    }

    method NextAnswer() returns (answer: Answer)
      modifies attempt`answer, events`faults
      ensures attempt.answer == answer && events.faults == old(events.faults) + FaultOf(answer)
    {
      answer := Arbitrary();
      attempt.answer := answer;
      events.faults := events.faults + FaultOf(answer);
    }

    // The same with any number of deltas passed on the way.
    method CompleteStream(bridge: LLMDeltaBridge) returns (answer: Answer)
      requires bridge.attempt == attempt && bridge.events == events
      requires MayAsk(events.M()) && !attempt.completionDeltaEmitted && !bridge.emitted
      modifies attempt, events`trace, events`faults, bridge
      ensures attempt.answer == answer && events.faults == old(events.faults) + FaultOf(answer)
      ensures OnlyRequests(old(events.M()), events.M(), 1)
      ensures old(events.trace) <= events.trace
      ensures events.M().completion.calls == old(events.M().completion.calls) + 1
      ensures !bridge.emitted ==> MayAsk(events.M())
      ensures bridge.emitted == attempt.completionDeltaEmitted == events.M().completion.deltaInTurn
    {
      hide Watch, OnlyRequests, MayAsk, Observe;
      ghost var m := events.M();
      events.Record(CompleterCalled);
      OneRequest(m);
      var deltas := Arbitrary<nat>();
      while deltas > 0
        invariant OnlyRequests(m, events.M(), 1) && old(events.trace) <= events.trace
        invariant events.M().completion.calls == old(events.M().completion.calls) + 1
        invariant events.faults == old(events.faults)
        invariant bridge.emitted == attempt.completionDeltaEmitted == events.M().completion.deltaInTurn
      {
        ghost var m' := events.M();
        var _ := bridge.OnDelta();
        OneDelta(m, m');
        deltas := deltas - 1;
      }
      if !bridge.emitted {
        AskedAgain(m, events.M());
      }
      answer := NextAnswer();
    }
  }

  lemma OneRequest(m: Monitor)
    requires MayAsk(m)
    ensures var m' := Observe(m, CompleterCalled);
            && OnlyRequests(m, m', 1) && m'.completion.calls == m.completion.calls + 1
            && !m'.completion.deltaInTurn
  {
  }

  lemma OneDelta(m: Monitor, m': Monitor)
    requires OnlyRequests(m, m', 1) && m'.completion.calls == m.completion.calls + 1
    ensures var m'' := Observe(m', DeltaPassed);
            && OnlyRequests(m, m'', 1) && m''.completion.calls == m'.completion.calls && m''.completion.deltaInTurn
  {
  }

  lemma AskedAgain(m: Monitor, m': Monitor)
    requires MayAsk(m) && OnlyRequests(m, m', 1) && m'.completion.calls == m.completion.calls + 1
    requires !m'.completion.deltaInTurn
    ensures MayAsk(m')
  {
  }

  lemma NoRequest(m: Monitor)
    ensures OnlyRequests(m, m, 0)
  {
  }

  lemma FewerRequests(m: Monitor, m': Monitor, made: nat, most: nat)
    requires made <= most && OnlyRequests(m, m', made)
    ensures OnlyRequests(m, m', most)
  {
  }

  lemma OneMoreRequest(m: Monitor, m': Monitor, m'': Monitor, made: nat, most: nat)
    requires made < most && OnlyRequests(m, m', made) && OnlyRequests(m', m'', 1)
    ensures OnlyRequests(m, m'', made + 1) && OnlyRequests(m, m'', most)
  {
  }

  // A missing response is an error; one that is there has a role from here on, and
  // is otherwise what the completer answered.
  method NormalizeCompletionResponse(resp: Option<Response>) returns (r: Completed)
    ensures resp.None? ==> r == NotCompleted(PLAIN)
    ensures resp.Some? ==> r.Completed? && IsNormal(r.resp, resp.value)
  {
    if resp.None? {
      return NotCompleted(PLAIN);
    }
    var normalized := resp.value;
    if normalized.message.role == NoRole {
      normalized := normalized.(message := normalized.message.(role := Assistant));
    }
    r := Completed(normalized);
  }

  // Exactly if an attempt is left, the client has seen nothing of this one, nobody
  // has given up, and the error may pass.
  function ShouldRetryCompletion(
    contextDone: bool, err: Failure, attempt: nat, maxAttempts: nat, streamEmitted: bool
  ): (retry: bool)
    ensures retry <==> attempt + 1 < maxAttempts && !streamEmitted && !contextDone && err.transient
  {
    if attempt + 1 >= maxAttempts then false
    else if streamEmitted then false
    else if contextDone then false
    else err.transient
  }
}
