// The event emitter of a run (core/bridge/agent/event_emitter.go) and the errors
// that travel through it. What an oracle answers is chosen arbitrarily with `Arbitrary`;
// what happens is recorded in a ghost trace, and what fails outside in a ghost log.
module AgentEvents {
  import opened Options
  import opened AgentMessages
  import opened AgentTrace

  datatype FailureKind = EmitFailed | AwaitingHuman | IterationHandoff | OtherFailure

  // An error, by what `errors.Is` and `errors.As` find in its chain; wrapping
  // keeps all of it. `retryable` is the completion protocol error.
  datatype Failure = Failure(kind: FailureKind, canceled: bool, transient: bool, retryable: bool)

  const PLAIN := Failure(OtherFailure, false, false, false)
  const CANCELED := Failure(OtherFailure, true, false, false)

  // An oracle: any value at all.
  method Arbitrary<T(0)>() returns (x: T)
  {
    x := *;
  }

  // `f` is the last failure there was, and it happened since `before`.
  ghost predicate Blames(before: seq<Failure>, after: seq<Failure>, f: Failure) {
    before < after && after[|after| - 1] == f
  }

  // No error without a failure, and none but the last failure.
  ghost predicate Explained(before: seq<Failure>, after: seq<Failure>, err: Option<Failure>) {
    match err
    case None => after == before
    case Some(f) => Blames(before, after, f)
  }

  // The same for an error that was told to the client: a canceled one came back as
  // that. Without a failure there is `cause` for it.
  ghost predicate Accounted(before: seq<Failure>, after: seq<Failure>, err: Option<Failure>, cause: bool) {
    before <= after &&
    match err
    case None => after == before
    case Some(f) => if after == before then cause else ComesFrom(f, after[|after| - 1])
  }

  predicate ComesFrom(f: Failure, last: Failure) {
    f == last || (last.canceled && f == CANCELED)
  }

  // What comes back after `runErr` was told to the client, or was not.
  ghost predicate Told(runErr: Failure, f: Failure, before: seq<Failure>, after: seq<Failure>) {
    if runErr.canceled then f == CANCELED && after == before
    else (f == runErr && after == before) || Blames(before, after, f)
  }

  // It is turn number `turn` that is under way.
  ghost predicate InTurn(m: Monitor, turn: nat) {
    m.completion.turns == turn + 1
  }

  // Nothing but an excuse is added to what is known of the turns.
  ghost predicate SameTurns(t: TurnWatch, t': TurnWatch) {
    t' == t.(excused := t'.excused) && (t.excused ==> t'.excused)
  }

  // If the client has been told the end of the run, a protocol failure allows more.
  ghost predicate Live(m: Monitor) {
    m.end.ended ==> m.end.protocol
  }

  // Something odd has just happened: it excuses whatever failed before it.
  ghost predicate JustOdd(m: Monitor) {
    m.odd && m.turns.excused && m.tools.phase != Cut(false) && !m.tools.stopping && m.end.protocol
  }

  // A turn may go on, or be attempted once more.
  ghost predicate Continuable(m: Monitor) {
    !m.tools.phase.InCall? && m.tools.phase != Cut(false) && !m.tools.stopping && !TooMany(m.turns) && Live(m)
  }

  // Everything but tool calls is untouched, and the client is not told the end.
  ghost predicate OnlyTools(m: Monitor, m': Monitor) {
    && m'.completion == m.completion && m'.misplaced == m.misplaced
    && SameTurns(m.turns.(ran := false), m'.turns.(ran := false)) && (m.turns.ran ==> m'.turns.ran)
    && m'.tools.broken == m.tools.broken
    && (m.odd ==> m'.odd) && (m.end.protocol ==> m'.end.protocol)
    && (!m.end.ended ==> !m'.end.ended && m'.end.again == m.end.again)
  }

  ghost predicate SameTools(t: ToolWatch, t': ToolWatch) {
    t' == t || t' == t.(phase := if t.phase.Cut? then Cut(true) else t.phase, stopping := false)
  }

  // Nothing but an event that does not concern tool calls.
  ghost predicate OnlyEvents(m: Monitor, m': Monitor) {
    && m'.completion == m.completion && SameTurns(m.turns, m'.turns) && SameTools(m.tools, m'.tools)
    && m'.misplaced == m.misplaced
    && (m.odd ==> m'.odd) && (m.end.protocol ==> m'.end.protocol) && (Live(m) ==> m'.end.again == m.end.again)
  }

  class AgentEventEmitter {
    ghost var trace: seq<Action>
    ghost var faults: seq<Failure>   // what has failed outside: a sink, a check, the completer, a hook, a handler
    ghost var gaveUp: bool           // somebody has given up on the run

    constructor ()
      ensures trace == [] && faults == [] && !gaveUp
    {
      trace, faults, gaveUp := [], [], false;
    }

    ghost function M(): Monitor
      reads this
    {
      Watch(trace)
    }

    // Something outside may fail with `f`.
    method Fails(f: Failure) returns (failed: bool)
      modifies this`faults
      ensures faults == old(faults) + if failed then [f] else []
    {
      failed := Arbitrary();
      if failed {
        faults := faults + [f];
      }
    }

    // Something outside may fail with any error.
    method FailsWith() returns (err: Option<Failure>)
      modifies this`faults
      ensures faults == old(faults) + if err.Some? then [err.value] else []
    {
      err := Arbitrary();
      if err.Some? {
        faults := faults + [err.value];
      }
    }

    method ContextDone() returns (done: bool)
      modifies this`gaveUp
      ensures gaveUp == (old(gaveUp) || done)
    {
      done := Arbitrary();
      gaveUp := gaveUp || done;
    }

    // The pause before a retry ends early if somebody gives up.
    method Wait() returns (interrupted: bool)
      modifies this`gaveUp, this`faults
      ensures gaveUp == (old(gaveUp) || interrupted)
      ensures faults == old(faults) + if interrupted then [CANCELED] else []
    {
      interrupted := ContextDone();
      if interrupted {
        faults := faults + [CANCELED];
      }
    }

    ghost method Record(a: Action)
      modifies this`trace
      ensures trace == old(trace) + [a] && M() == Observe(old(M()), a)
    {
      WatchSnoc(trace, a);
      trace := trace + [a];
    }

    // Builds an event and hands it to the sink; either can fail.
    method Emit(event: Event) returns (err: Option<Failure>)
      modifies this`trace, this`faults
      ensures Explained(old(faults), faults, err)
      ensures var a := if err.None? then Delivered(event) else Undelivered(event, err.value.retryable);
              trace == old(trace) + [a] && M() == Observe(old(M()), a)
      ensures err.Some? ==> err.value == PLAIN || err.value.kind == EmitFailed
    {
      var notBuilt := Fails(PLAIN);
      if notBuilt {
        Record(Undelivered(event, false));
        return Some(PLAIN);
      }
      var sinkErr := Arbitrary<Failure>();
      sinkErr := sinkErr.(kind := EmitFailed);
      var rejected := Fails(sinkErr);
      if rejected {
        Record(Undelivered(event, sinkErr.retryable));
        return Some(sinkErr);
      }
      Record(Delivered(event));
      return None;
    }

    // The run's error is told to the client; a failure to do so is returned instead.
    method TerminalError(runErr: Failure) returns (f: Failure)
      modifies this`trace, this`faults
      ensures M().end.ended ==> faults == old(faults)
      ensures !M().end.ended ==> Blames(old(faults), faults, f)
      ensures OnlyEvents(old(M()), M())
      ensures trace == old(trace) +
                [if M().end.ended then Delivered(ErrorReported) else Undelivered(ErrorReported, f.retryable)]
      ensures M().end.ended ==> f == runErr
      ensures !M().end.ended ==> f == PLAIN || f.kind == EmitFailed
      ensures f.retryable && !runErr.retryable ==> JustOdd(M())
    {
      var emitErr := Emit(ErrorReported);
      return if emitErr.Some? then emitErr.value else runErr;
    }

    // A canceled run ends without an error event; any other error is told to the
    // client once, or else the failure to do so is returned.
    method TerminalRunError(runErr: Failure) returns (f: Failure)
      modifies this`trace, this`faults
      ensures Told(runErr, f, old(faults), faults)
      ensures OnlyEvents(old(M()), M())
      ensures runErr.canceled ==> f == CANCELED && trace == old(trace)
      ensures !runErr.canceled ==>
                || (trace == old(trace) && f == PLAIN)
                || (trace == old(trace) + [Delivered(ErrorReported)] && f == runErr)
                || (trace == old(trace) + [Undelivered(ErrorReported, f.retryable)] &&
                    (f == PLAIN || f.kind == EmitFailed))
      ensures f.retryable && !runErr.retryable ==> JustOdd(M())
    {
      if runErr.canceled {
        return CANCELED;
      }
      var badStepID := Fails(PLAIN);
      if badStepID {
        return PLAIN;
      }
      f := TerminalError(runErr);
    }

    // The message, then the end of the run; payloads and step ids can fail.
    method TerminalSuccess(response: string) returns (err: Option<Failure>)
      requires !M().end.ended
      modifies this`trace, this`faults
      ensures Explained(old(faults), faults, err)
      ensures OnlyEvents(old(M()), M()) && old(trace) <= trace
      ensures err.None? ==> trace == old(trace) + [Delivered(MessageSent(response)), Delivered(Done)]
      ensures err.Some? ==> err.value == PLAIN || err.value.kind == EmitFailed
      ensures err.Some? && err.value.retryable ==> JustOdd(M())
    {
      hide Watch;
      var notBuilt := Fails(PLAIN);
      if notBuilt {
        var badStepID := Fails(PLAIN);
        if badStepID {
          return Some(PLAIN);
        }
        var f := TerminalError(PLAIN);
        return Some(f);
      }
      var badStepID := Fails(PLAIN);
      if badStepID {
        return Some(PLAIN);
      }
      err := SendAnswer(response);
    }

    method SendAnswer(response: string) returns (err: Option<Failure>)
      requires !M().end.ended
      modifies this`trace, this`faults
      ensures Explained(old(faults), faults, err)
      ensures OnlyEvents(old(M()), M()) && old(trace) <= trace
      ensures err.None? ==> trace == old(trace) + [Delivered(MessageSent(response)), Delivered(Done)]
      ensures err.Some? ==> err.value == PLAIN || err.value.kind == EmitFailed
      ensures err.Some? && err.value.retryable ==> JustOdd(M())
    {
      hide Watch;
      err := Emit(MessageSent(response));
      if err.Some? {
        return;
      }
      err := Emit(Done);
      assert old(trace) + [Delivered(MessageSent(response))] + [Delivered(Done)] ==
             old(trace) + [Delivered(MessageSent(response)), Delivered(Done)];
    }
  }
}
