// The coalescing session loader (apps/web/hooks/useSessionLoader.ts): requests
// made while a load runs are merged into one load that follows it.
module SessionLoader {
  import opened Options

  datatype CommitMode = CommitAlways | CommitNewOnly

  datatype LoadOptions = LoadOptions(silent: bool, commitMode: CommitMode)

  // Unset options are "not silent" and "commit always".
  function ResolveLoadSessionsOptions(silent: Option<bool>, commitMode: Option<CommitMode>): LoadOptions {
    LoadOptions(if silent.Some? then silent.value else false,
                if commitMode.Some? then commitMode.value else CommitAlways)
  }

  function MergeQueuedLoadOptions(current: Option<LoadOptions>, next: LoadOptions): LoadOptions {
    if current.None? then next
    else
      LoadOptions(current.value.silent && next.silent,
                  if current.value.commitMode == CommitAlways || next.commitMode == CommitAlways then CommitAlways
                  else CommitNewOnly)
  }

  // Set options are taken as they are; with none set, a load does everything that any
  // load can be asked for.
  lemma DefaultsDominate(silent: bool, mode: CommitMode, b: LoadOptions)
    ensures ResolveLoadSessionsOptions(Some(silent), Some(mode)) == LoadOptions(silent, mode)
    ensures Dominates(ResolveLoadSessionsOptions(None, None), b)
    ensures ResolveLoadSessionsOptions(Some(silent), None) == LoadOptions(silent, CommitAlways)
    ensures ResolveLoadSessionsOptions(None, Some(mode)) == LoadOptions(false, mode)
  {
  }

  // `a` does everything `b` asks for.
  predicate Dominates(a: LoadOptions, b: LoadOptions) {
    (!b.silent ==> !a.silent) && (b.commitMode == CommitAlways ==> a.commitMode == CommitAlways)
  }

  // Merging is the least upper bound: it serves both requests and asks for no
  // more than any load that would serve both.
  lemma MergeIsLeastUpperBound(a: LoadOptions, b: LoadOptions, c: LoadOptions)
    ensures var m := MergeQueuedLoadOptions(Some(a), b);
            Dominates(m, a) && Dominates(m, b) && (Dominates(c, a) && Dominates(c, b) <==> Dominates(c, m))
    ensures var m := MergeQueuedLoadOptions(Some(a), b);
            MergeQueuedLoadOptions(Some(m), c) == MergeQueuedLoadOptions(Some(a), MergeQueuedLoadOptions(Some(b), c)) &&
            MergeQueuedLoadOptions(Some(b), a) == m && MergeQueuedLoadOptions(Some(a), a) == a
  {
  }

  // ------------------------------------------------- what a load commits to

  datatype Session = Session(id: string, title: string, createdAt: string, updatedAt: string,
                             messageCount: int, tokenCount: int)

  // A list is committed if it differs or, in the other mode, brings a new id.
  function ShouldCommit(current: seq<Session>, next: seq<Session>, mode: CommitMode): bool {
    match mode
    case CommitNewOnly => exists i :: 0 <= i < |next| && next[i].id !in IDs(current)
    case CommitAlways => current != next
  }

  function IDs(sessions: seq<Session>): set<string> {
    set i | 0 <= i < |sessions| :: sessions[i].id
  }

  method ShouldCommitSessionList(current: seq<Session>, next: seq<Session>, mode: CommitMode) returns (commit: bool)
    ensures commit == ShouldCommit(current, next, mode)
    ensures mode == CommitAlways ==> (commit <==> current != next)
    ensures mode == CommitNewOnly ==>
              (commit <==> exists s :: s in next && forall c :: c in current ==> c.id != s.id)
  {
    NewIDsAreNew(current, next);
    if mode == CommitNewOnly {
      commit := HasNewSessionID(current, next);
    } else {
      var equal := SessionListsEqual(current, next);
      commit := !equal;
    }
  }

  method SessionListsEqual(left: seq<Session>, right: seq<Session>) returns (equal: bool)
    ensures equal <==> left == right
  {
    if |left| != |right| {
      return false;
    }
    for index := 0 to |left|
      invariant left[..index] == right[..index]
    {
      if left[index] != right[index] {
        return false;
      }
    }
    assert left == left[..|left|] == right[..|left|] == right;
    return true;
  }

  method HasNewSessionID(current: seq<Session>, next: seq<Session>) returns (found: bool)
    ensures found <==> exists i :: 0 <= i < |next| && next[i].id !in IDs(current)
  {
    if |next| == 0 {
      return false;
    }
    var currentIDs := IDs(current);
    for index := 0 to |next|
      invariant forall i :: 0 <= i < index ==> next[i].id in currentIDs
    {
      if next[index].id !in currentIDs {
        return true;
      }
    }
    return false;
  }

  // A new id is one that no session of the current list has.
  lemma NewIDsAreNew(current: seq<Session>, next: seq<Session>)
    ensures ShouldCommit(current, next, CommitNewOnly) <==>
              exists s :: s in next && forall c :: c in current ==> c.id != s.id
  {
    if s :| s in next && forall c :: c in current ==> c.id != s.id {
      var i :| 0 <= i < |next| && next[i] == s;
      assert next[i].id !in IDs(current);
    }
    if i :| 0 <= i < |next| && next[i].id !in IDs(current) {
      forall c | c in current ensures c.id != next[i].id {
        var k :| 0 <= k < |current| && current[k] == c;
        assert current[k].id in IDs(current);
      }
      assert next[i] in next;
    }
  }

  // A load that dominates a request commits whatever the request would commit.
  lemma DominatingLoadCommits(a: LoadOptions, b: LoadOptions, current: seq<Session>, next: seq<Session>)
    requires Dominates(a, b) && ShouldCommit(current, next, b.commitMode)
    ensures ShouldCommit(current, next, a.commitMode)
  {
    if b.commitMode == CommitNewOnly {
      var i :| 0 <= i < |next| && next[i].id !in IDs(current);
      assert forall k :: 0 <= k < |current| ==> current[k].id in IDs(current);
    }
  }

  // ------------------------------------------------------------- the loader

  // The active promise, if any, is inside a load or past its loop, waiting for
  // the callback that clears it.
  datatype Activity = Inactive | Loading(options: LoadOptions) | Exiting

  // Ghost bookkeeping: the requests no load has been started for, those of them
  // that were made while exiting, and the loads running.
  datatype LoaderState = LoaderState(
    queued: Option<LoadOptions>, activity: Activity, waiting: seq<LoadOptions>, gap: bool, running: nat)

  const START := LoaderState(None, Inactive, [], false, 0)

  datatype LoaderEvent = Requested(options: LoadOptions) | LoadFinished | Cleared

  function MergeAll(requests: seq<LoadOptions>): Option<LoadOptions> {
    if requests == [] then None
    else Some(MergeQueuedLoadOptions(MergeAll(requests[..|requests| - 1]), requests[|requests| - 1]))
  }

  lemma {:induction false} MergeAllDominates(requests: seq<LoadOptions>, i: nat)
    requires i < |requests|
    ensures MergeAll(requests).Some? && Dominates(MergeAll(requests).value, requests[i])
  {
    var front := requests[..|requests| - 1];
    if i < |front| { MergeAllDominates(front, i); }
  }

  // The head of the drain loop.
  function Drain(s: LoaderState): LoaderState {
    match s.queued
    case Some(options) =>
      s.(queued := None, activity := Loading(options), waiting := [], gap := false, running := s.running + 1)
    case None => s.(activity := Exiting)
  }

  function Step(s: LoaderState, e: LoaderEvent): LoaderState {
    match e
    case Requested(options) =>
      var t := s.(queued := Some(MergeQueuedLoadOptions(s.queued, options)), waiting := s.waiting + [options],
                  gap := s.gap || s.activity.Exiting?);
      if s.activity.Inactive? then Drain(t) else t
    case LoadFinished =>
      if s.activity.Loading? && s.running > 0 then Drain(s.(running := s.running - 1)) else s
    case Cleared =>
      if s.activity.Exiting? then s.(activity := Inactive) else s
  }

  predicate Consistent(s: LoaderState) {
    && s.queued == MergeAll(s.waiting)
    && s.running == (if s.activity.Loading? then 1 else 0)
    && (s.gap <==> !s.activity.Loading? && s.queued.Some?)
  }

  function Run(s: LoaderState, events: seq<LoaderEvent>): LoaderState
    decreases |events|
  {
    if events == [] then s else Run(Step(s, events[0]), events[1..])
  }

  lemma StepKeeps(s: LoaderState, e: LoaderEvent)
    requires Consistent(s)
    ensures Consistent(Step(s, e))
    // A load starts with the merge of everything waiting, so it serves it all.
    ensures var t := Step(s, e);
            t.activity.Loading? && t != s && (!s.activity.Loading? || e.LoadFinished?) ==>
              forall i :: 0 <= i < |s.waiting| ==> Dominates(t.activity.options, s.waiting[i])
    ensures e.Requested? && s.activity.Inactive? ==>
              Step(s, e).activity.Loading? && Dominates(Step(s, e).activity.options, e.options)
  {
    if e.Requested? {
      var all := s.waiting + [e.options];
      assert all[..|all| - 1] == s.waiting;
      forall i | 0 <= i < |all| ensures Dominates(MergeAll(all).value, all[i]) {
        MergeAllDominates(all, i);
      }
      forall i | 0 <= i < |s.waiting| ensures Dominates(MergeAll(all).value, s.waiting[i]) {
        assert all[i] == s.waiting[i];
      }
      assert all[|all| - 1] == e.options;
    } else {
      forall i | 0 <= i < |s.waiting| ensures Dominates(MergeAll(s.waiting).value, s.waiting[i]) {
        MergeAllDominates(s.waiting, i);
      }
    }
  }

  // Over every run loads never overlap, and a request is left waiting without a load
  // running if and only if one was made between the exit of the loop and its callback
  // since the last load began; the queue always holds the merge of what is waiting.
  lemma {:induction false} EveryRunIsConsistent(s: LoaderState, events: seq<LoaderEvent>)
    requires Consistent(s)
    ensures var t := Run(s, events);
            Consistent(t) && t.running <= 1 &&
            (t.waiting != [] && !t.activity.Loading? <==> t.gap)
    decreases |events|
  {
    if events != [] {
      StepKeeps(s, events[0]);
      EveryRunIsConsistent(Step(s, events[0]), events[1..]);
    } else if s.waiting != [] {
      MergeAllDominates(s.waiting, 0);
    }
  }

  lemma {:induction false} RunSnoc(s: LoaderState, events: seq<LoaderEvent>, e: LoaderEvent)
    ensures Run(s, events + [e]) == Step(Run(s, events), e)
    decreases |events|
  {
    if events == [] {
      assert events + [e] == [e] && [e][1..] == [];
      assert Run(Step(s, e), []) == Step(s, e);
    } else {
      assert (events + [e])[1..] == events[1..] + [e];
      RunSnoc(Step(s, events[0]), events[1..], e);
    }
  }

  // An event begins a load.
  predicate Begins(before: LoaderState, e: LoaderEvent, after: LoaderState) {
    after.activity.Loading? && (!before.activity.Loading? || e.LoadFinished?)
  }

  // The requests that no load has begun since.
  function Pending(events: seq<LoaderEvent>): seq<LoadOptions> {
    if events == [] then []
    else
      var front, e := events[..|events| - 1], events[|events| - 1];
      if Begins(Run(START, front), e, Run(START, events)) then []
      else Pending(front) + if e.Requested? then [e.options] else []
  }

  lemma MergingWithNone(next: LoadOptions)
    ensures MergeAll([]) == None && MergeQueuedLoadOptions(None, next) == next
  {
  }

  lemma {:induction false} MergeAllIsLeast(requests: seq<LoadOptions>, c: LoadOptions)
    requires requests != []
    ensures Dominates(c, MergeAll(requests).value) <==> forall o :: o in requests ==> Dominates(c, o)
  {
    hide Dominates, MergeQueuedLoadOptions;
    var front, last := requests[..|requests| - 1], requests[|requests| - 1];
    assert forall o :: o in requests <==> o in front || o == last by { assert requests == front + [last]; }
    assert MergeAll(requests) == Some(MergeQueuedLoadOptions(MergeAll(front), last));
    MergingWithNone(last);
    if front != [] {
      MergeAllIsLeast(front, c);
      MergeIsLeastUpperBound(MergeAll(front).value, last, c);
    }
  }

  function WaitingAfter(s: LoaderState, e: LoaderEvent): seq<LoadOptions> {
    s.waiting + if e.Requested? then [e.options] else []
  }

  lemma StepBegins(s: LoaderState, e: LoaderEvent)
    requires Consistent(s)
    ensures var t, all := Step(s, e), WaitingAfter(s, e);
            && (Begins(s, e, t) <==>
                  (e.Requested? && s.activity.Inactive?) || (e.LoadFinished? && s.activity.Loading? && all != []))
            && t.waiting == (if Begins(s, e, t) then [] else all)
            && (Begins(s, e, t) ==> all != [] && MergeAll(all) == Some(t.activity.options))
  {
    hide MergeQueuedLoadOptions;
    var all := WaitingAfter(s, e);
    if e.Requested? {
      assert all[..|all| - 1] == s.waiting && all[|all| - 1] == e.options;
    } else {
      assert all == s.waiting;
    }
  }

  lemma {:induction false} WaitingArePending(events: seq<LoaderEvent>)
    ensures Consistent(Run(START, events)) && Run(START, events).waiting == Pending(events)
  {
    hide Consistent, Step, Begins;
    assert Consistent(START) by { StartIsConsistent(); }
    EveryRunIsConsistent(START, events);
    if events != [] {
      var front, e := events[..|events| - 1], events[|events| - 1];
      assert events == front + [e];
      RunSnoc(START, front, e);
      WaitingArePending(front);
      StepBegins(Run(START, front), e);
    }
  }

  lemma StartIsConsistent()
    ensures Consistent(START)
  {
  }

  // Over every run: a request begins a load exactly if the loader is inactive, and the
  // end of a load exactly if a request is pending. A load that begins asks for what the
  // pending requests ask for together, neither less nor more.
  lemma EveryLoadIsTheMerge(events: seq<LoaderEvent>, e: LoaderEvent)
    ensures var s, t := Run(START, events), Run(START, events + [e]);
            var pending := Pending(events) + if e.Requested? then [e.options] else [];
            && (Begins(s, e, t) <==>
                  (e.Requested? && s.activity.Inactive?) ||
                  (e.LoadFinished? && s.activity.Loading? && pending != []))
            && (Begins(s, e, t) ==>
                  forall c :: Dominates(c, t.activity.options) <==> forall o :: o in pending ==> Dominates(c, o))
  {
    hide Consistent, Step, Dominates, MergeAll;
    RunSnoc(START, events, e);
    WaitingArePending(events);
    var s, t := Run(START, events), Run(START, events + [e]);
    var pending := Pending(events) + if e.Requested? then [e.options] else [];
    StepBegins(s, e);
    if Begins(s, e, t) {
      forall c ensures Dominates(c, t.activity.options) <==> forall o :: o in pending ==> Dominates(c, o) {
        MergeAllIsLeast(pending, c);
      }
    }
  }

  // The gap is real: such a request waits, with the loader inactive.
  lemma GapRequestWaits(first: LoadOptions, late: LoadOptions)
    ensures var t := Run(START, [Requested(first), LoadFinished, Requested(late), Cleared]);
            t.activity == Inactive && t.waiting == [late] && t.running == 0
  {
    var events := [Requested(first), LoadFinished, Requested(late), Cleared];
    assert events[1..] == [LoadFinished, Requested(late), Cleared];
    assert events[1..][1..] == [Requested(late), Cleared] && events[1..][1..][1..] == [Cleared] && [Cleared][1..] == [];
    var s1 := Step(START, Requested(first));
    var s2 := Step(s1, LoadFinished);
    var s3 := Step(s2, Requested(late));
    var s4 := Step(s3, Cleared);
    assert [] + [late] == [late];
    assert Run(s4, []) == s4 && Run(s3, [Cleared]) == s4 && Run(s2, [Requested(late), Cleared]) == s4;
    assert Run(s1, events[1..]) == s4;
  }

  // When the load that a request arrived during finishes, the very next load
  // serves the request, whatever was requested in between.
  lemma {:induction false} RequestIsServedNext(s: LoaderState, more: seq<LoadOptions>, i: nat)
    requires Consistent(s) && s.activity.Loading? && i < |s.waiting|
    ensures var t := Run(s, Requests(more) + [LoadFinished]);
            t.activity.Loading? && Dominates(t.activity.options, s.waiting[i]) && t.waiting == [] && t.running == 1
    decreases |more|
  {
    if more == [] {
      assert Requests(more) + [LoadFinished] == [LoadFinished] && [LoadFinished][1..] == [];
      var t := Step(s, LoadFinished);
      assert Run(t, []) == t;
      MergeAllDominates(s.waiting, i);
    } else {
      var events := Requests(more) + [LoadFinished];
      assert events[0] == Requested(more[0]) && events[1..] == Requests(more[1..]) + [LoadFinished];
      StepKeeps(s, events[0]);
      assert (s.waiting + [more[0]])[i] == s.waiting[i];
      RequestIsServedNext(Step(s, events[0]), more[1..], i);
    }
  }

  function Requests(options: seq<LoadOptions>): seq<LoaderEvent> {
    seq(|options|, i requires 0 <= i < |options| => Requested(options[i]))
  }

  class QueuedSessionLoader {
    var queuedLoadOptions: Option<LoadOptions>
    var activity: Activity
    ghost var waiting: seq<LoadOptions>
    ghost var gap: bool
    ghost var running: nat

    constructor ()
      ensures View() == START
    {
      queuedLoadOptions, activity, waiting, gap, running := None, Inactive, [], false, 0;
    }

    ghost function View(): LoaderState
      reads this
    {
      LoaderState(queuedLoadOptions, activity, waiting, gap, running)
    }

    method LoadSessions(silent: Option<bool>, commitMode: Option<CommitMode>)
      modifies this
      ensures View() == Step(old(View()), Requested(ResolveLoadSessionsOptions(silent, commitMode)))
    {
      var options := ResolveLoadSessionsOptions(silent, commitMode);
      queuedLoadOptions := Some(MergeQueuedLoadOptions(queuedLoadOptions, options));
      waiting, gap := waiting + [options], gap || activity.Exiting?;
      if activity == Inactive {
        StartNextLoad();
      }
    }

    // Up to the next await inside a load, or out of the loop.
    method StartNextLoad()
      modifies this
      ensures View() == Drain(old(View()))
    {
      var next := queuedLoadOptions;
      queuedLoadOptions := None;
      if next.Some? {
        activity := Loading(next.value);
        waiting, gap, running := [], false, running + 1;
      } else {
        activity := Exiting;
      }
    }

    method ResumeAfterLoad()
      requires activity.Loading? && running > 0
      modifies this
      ensures View() == Step(old(View()), LoadFinished)
    {
      running := running - 1;
      StartNextLoad();
    }

    method ClearActiveSessionLoad()
      requires activity.Exiting?
      modifies this`activity
      ensures View() == Step(old(View()), Cleared)
    {
      activity := Inactive;
    }
  }
}
