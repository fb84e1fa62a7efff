// The optimistic persist queue of the sidebar partitions
// (apps/web/hooks/sessionSidebarPartitionStorePersistence.ts,
// useSessionSidebarPartitionStore.ts). The code between two awaits runs without
// interruption; each such segment is a transition, and a run is any interleaving.
module PersistQueue {
  import opened Options

  datatype Partition = Partition(id: string, name: string)

  // `storesAreEqual` compares the JSON texts, so the order of the keys counts.
  datatype PartitionStore = PartitionStore(partitions: seq<Partition>, assignments: seq<(string, string)>)

  const INITIAL_STORE := PartitionStore([], [])

  // `puts` lists every request sent to the server and `settled` how many have been
  // answered; `resuming` says that an answer was handled and the flush loop has yet
  // to go on; `latest` is the last edit that no failure has discarded.
  datatype QueueState = QueueState(
    store: PartitionStore, confirmed: PartitionStore, pending: Option<PartitionStore>,
    persisting: bool, mounted: bool, failed: bool,
    puts: seq<PartitionStore>, settled: nat, resuming: bool, latest: Option<PartitionStore>)

  const START := QueueState(INITIAL_STORE, INITIAL_STORE, None, false, true, false, [], 0, false, None)

  datatype QueueEvent =
    | Applied(next: PartitionStore)                 // an edit
    | PutAnswered(saved: Option<PartitionStore>)    // the put in flight succeeds or fails
    | Resumed                                       // the flush loop goes on after it
    | Hydrated(remote: Option<PartitionStore>)      // the initial load succeeds or fails
    | Migrated(migrated: Option<PartitionStore>)    // a legacy migration succeeds or fails
    | Unmounted

  // --------------------------------------------------------- the transitions

  // Takes the pending store: the next put, or the end of the flush.
  function Take(s: QueueState): QueueState {
    if s.pending.Some? && s.mounted then s.(pending := None, puts := s.puts + [s.pending.value])
    else s.(pending := None, persisting := false)
  }

  function Flush(s: QueueState): QueueState {
    if s.persisting then s else Take(s.(persisting := true))
  }

  function Commit(s: QueueState, requested: PartitionStore, saved: PartitionStore): QueueState {
    if !s.mounted then s
    else
      s.(confirmed := saved, failed := false,
         store := if s.pending.None? && s.store == requested then saved else s.store)
  }

  function Rollback(s: QueueState): QueueState {
    if !s.mounted then s
    else s.(pending := None, store := s.confirmed, failed := true, latest := None)
  }

  function Step(s: QueueState, e: QueueEvent): QueueState {
    match e
    case Applied(next) =>
      Flush(s.(failed := false, store := next, pending := Some(next), latest := Some(next)))
    case PutAnswered(saved) =>
      if s.settled < |s.puts| then
        var t := if saved.Some? then Commit(s, s.puts[s.settled], saved.value) else Rollback(s);
        t.(settled := s.settled + 1, resuming := true)
      else s
    case Resumed => if s.resuming then Take(s.(resuming := false)) else s
    case Hydrated(remote) =>
      if !s.mounted then s
      else if remote.Some? then s.(confirmed := remote.value, store := remote.value, failed := false)
      else s.(store := s.confirmed, failed := true)
    case Migrated(migrated) =>
      if !s.mounted then s
      else if migrated.Some? then s.(confirmed := migrated.value, store := migrated.value, failed := false)
      else s.(failed := true)
    case Unmounted => s.(mounted := false)
  }

  function Run(s: QueueState, events: seq<QueueEvent>): QueueState
    decreases |events|
  {
    if events == [] then s else Run(Step(s, events[0]), events[1..])
  }

  // ------------------------------------------------------------ the invariant

  predicate Idle(s: QueueState) {
    s.pending.None? && s.settled == |s.puts|
  }

  // What the user should be looking at.
  function Expected(s: QueueState): PartitionStore {
    if s.pending.Some? then s.pending.value
    else if s.settled < |s.puts| then s.puts[s.settled]
    else s.confirmed
  }

  // What the queue keeps to whatever happens.
  predicate Shape(s: QueueState) {
    && s.settled <= |s.puts| <= s.settled + 1
    && (s.resuming ==> s.settled == |s.puts|)
    && (s.persisting <==> s.settled < |s.puts| || s.resuming)
    && (s.pending.Some? ==> s.persisting)
    && (s.mounted && s.latest.Some? ==>
          s.pending == s.latest ||
          (s.pending.None? && s.puts != [] && s.puts[|s.puts| - 1] == s.latest.value))
  }

  predicate Consistent(s: QueueState) {
    Shape(s) && (s.mounted ==> s.store == Expected(s))
  }

  // No hydration or migration completes while a put is in flight or queued.
  predicate LoadsComeIdle(s: QueueState, events: seq<QueueEvent>)
    decreases |events|
  {
    events == [] ||
    ((events[0].Hydrated? || events[0].Migrated? ==> Idle(s)) && LoadsComeIdle(Step(s, events[0]), events[1..]))
  }

  lemma ShapeIsKept(s: QueueState, e: QueueEvent)
    requires Shape(s)
    ensures Shape(Step(s, e))
  {
  }

  lemma StepKeeps(s: QueueState, e: QueueEvent)
    requires Consistent(s) && (e.Hydrated? || e.Migrated? ==> Idle(s))
    ensures Consistent(Step(s, e))
  {
    ShapeIsKept(s, e);
  }

  // Over every interleaving of edits, answers, resumptions and the unmount: at most
  // one put is in flight; the store shown is the pending one, else the requested one,
  // else the confirmed one; so an idle queue shows what the server confirmed, and the
  // latest edit that was not discarded is pending or was the last to be sent.
  lemma {:induction false} EveryRunIsConsistent(s: QueueState, events: seq<QueueEvent>)
    requires Consistent(s) && LoadsComeIdle(s, events)
    ensures var t := Run(s, events);
            && Consistent(t)
            && |t.puts| - t.settled <= 1
            && (t.mounted && Idle(t) ==> t.store == t.confirmed)
            && (t.mounted && Idle(t) && t.latest.Some? ==> t.puts[|t.puts| - 1] == t.latest.value)
    decreases |events|
  {
    if events != [] {
      StepKeeps(s, events[0]);
      EveryRunIsConsistent(Step(s, events[0]), events[1..]);
    }
  }

  // ------------------------------------------------- loads that come during a put

  // The store that a load left on display although another one is wanted: what a
  // load that came during a put showed, until an edit or a failed put replaces it, or
  // until the server confirms the same.
  function Stray(s: QueueState, e: QueueEvent, stray: Option<PartitionStore>): Option<PartitionStore> {
    match e
    case Applied(_) => None
    case PutAnswered(saved) =>
      if s.settled >= |s.puts| || !s.mounted then stray
      else if saved.None? || (s.pending.None? && stray == saved) then None
      else stray
    case Hydrated(remote) =>
      if !s.mounted then stray
      else StrayLoad(s, if remote.Some? then remote.value else s.confirmed)
    case Migrated(migrated) =>
      if !s.mounted || migrated.None? then stray else StrayLoad(s, migrated.value)
    case _ => stray
  }

  function StrayLoad(s: QueueState, shown: PartitionStore): Option<PartitionStore> {
    if Idle(s) || shown == Expected(s) then None else Some(shown)
  }

  function StrayAfter(s: QueueState, events: seq<QueueEvent>, stray: Option<PartitionStore>): Option<PartitionStore>
    decreases |events|
  {
    if events == [] then stray else StrayAfter(Step(s, events[0]), events[1..], Stray(s, events[0], stray))
  }

  // The store shown is the one wanted, or the stray one.
  predicate Explained(s: QueueState, stray: Option<PartitionStore>) {
    && Shape(s)
    && (s.mounted ==> s.store == if stray.Some? then stray.value else Expected(s))
    && (s.mounted && stray.Some? ==> stray.value != Expected(s))
  }

  lemma StepExplained(s: QueueState, e: QueueEvent, stray: Option<PartitionStore>)
    requires Explained(s, stray)
    ensures Explained(Step(s, e), Stray(s, e, stray))
  {
    hide Shape;
    ShapeIsKept(s, e);
    ShapeMeans(s);
    if e.Applied? { EditIsShown(s, e.next); }
  }

  lemma ShapeMeans(s: QueueState)
    requires Shape(s)
    ensures s.settled <= |s.puts| <= s.settled + 1 && (s.resuming ==> s.settled == |s.puts|)
    ensures s.pending.Some? || s.settled < |s.puts| ==> s.persisting
  {
  }

  lemma EditIsShown(s: QueueState, next: PartitionStore)
    requires Shape(s)
    ensures var t := Step(s, Applied(next)); t.mounted ==> t.store == Expected(t)
  {
  }

  // Over every run whatever, loads during puts included: an idle queue shows what was
  // confirmed exactly if no stray load is left.
  lemma {:induction false} EveryRunIsExplained(s: QueueState, events: seq<QueueEvent>, stray: Option<PartitionStore>)
    requires Explained(s, stray)
    ensures var t, left := Run(s, events), StrayAfter(s, events, stray);
            Explained(t, left) && (t.mounted && Idle(t) ==> (t.store == t.confirmed <==> left.None?))
    decreases |events|
  {
    if events != [] {
      StepExplained(s, events[0], stray);
      EveryRunIsExplained(Step(s, events[0]), events[1..], Stray(s, events[0], stray));
    }
  }

  // An edit puts everything right, whatever was on display.
  lemma EditRestores(s: QueueState, next: PartitionStore, events: seq<QueueEvent>)
    requires Shape(s) && LoadsComeIdle(Step(s, Applied(next)), events)
    ensures Consistent(Run(s, [Applied(next)] + events))
  {
    var all := [Applied(next)] + events;
    assert all[1..] == events && all[0] == Applied(next);
    ShapeIsKept(s, Applied(next));
    EveryRunIsConsistent(Step(s, Applied(next)), events);
  }

  predicate NoLoads(events: seq<QueueEvent>) {
    forall e :: e in events ==> !e.Hydrated? && !e.Migrated?
  }

  predicate NoEdits(events: seq<QueueEvent>) {
    forall e :: e in events ==> !e.Applied?
  }

  // A load comes during a put, whatever was on display before, and the queue then comes
  // to rest without a further load. It shows what was confirmed exactly if an edit came
  // after the load, or a put failed, or the load brought what was wanted anyhow or what
  // the server confirmed in the end.
  lemma LoadDuringPut(s: QueueState, loaded: PartitionStore, migration: bool, events: seq<QueueEvent>)
    requires Shape(s) && s.mounted && !Idle(s) && NoLoads(events)
    ensures var e := if migration then Migrated(Some(loaded)) else Hydrated(Some(loaded));
            var t := Run(s, [e] + events);
            t.mounted && Idle(t) ==>
              (t.store == t.confirmed <==>
               !NoEdits(events) || t.failed || loaded == Expected(s) || loaded == t.confirmed)
  {
    var e := if migration then Migrated(Some(loaded)) else Hydrated(Some(loaded));
    var all := [e] + events;
    assert all[1..] == events && all[0] == e;
    ShapeIsKept(s, e);
    AfterLoad(Step(s, e), events, StrayLoad(s, loaded), loaded);
  }

  lemma {:induction false} AfterLoad(
    s: QueueState, events: seq<QueueEvent>, stray: Option<PartitionStore>, loaded: PartitionStore)
    requires Explained(s, stray) && NoLoads(events)
    requires stray == None || stray == Some(loaded)
    requires s.mounted && s.failed ==> Idle(s) && stray.None?
    ensures var t := Run(s, events);
            t.mounted && Idle(t) ==>
              (t.store == t.confirmed <==> !NoEdits(events) || t.failed || stray.None? || loaded == t.confirmed)
    decreases |events|
  {
    if events != [] {
      var e, t, left := events[0], Step(s, events[0]), Stray(s, events[0], stray);
      StepExplained(s, e, stray);
      if e.Applied? {
        LoadsAreIdle(t, events[1..]);
        EveryRunIsConsistent(t, events[1..]);
      } else {
        AfterLoad(t, events[1..], left, loaded);
        assert NoEdits(events) <==> NoEdits(events[1..]);
        if !NoEdits(events) || !s.mounted {
          MountedStays(t, events[1..]);
        } else if t.failed || (stray.Some? && left.None?) {
          RestStays(t, events[1..]);
        }
      }
    }
  }

  lemma {:induction false} LoadsAreIdle(s: QueueState, events: seq<QueueEvent>)
    requires NoLoads(events)
    ensures LoadsComeIdle(s, events)
    decreases |events|
  {
    if events != [] { LoadsAreIdle(Step(s, events[0]), events[1..]); }
  }

  // Once unmounted, never mounted again.
  lemma {:induction false} MountedStays(s: QueueState, events: seq<QueueEvent>)
    ensures Run(s, events).mounted ==> s.mounted
    decreases |events|
  {
    if events != [] { MountedStays(Step(s, events[0]), events[1..]); }
  }

  // A queue at rest stays as it is until something new happens.
  lemma {:induction false} RestStays(s: QueueState, events: seq<QueueEvent>)
    requires Shape(s) && Idle(s) && NoLoads(events) && NoEdits(events)
    ensures var t := Run(s, events);
            Idle(t) && t.store == s.store && t.confirmed == s.confirmed && t.failed == s.failed
    decreases |events|
  {
    if events != [] {
      ShapeIsKept(s, events[0]);
      RestStays(Step(s, events[0]), events[1..]);
    }
  }

  // ------------------------------------------------------------- what is sent

  function Edit(e: QueueEvent): seq<PartitionStore> {
    if e.Applied? then [e.next] else []
  }

  function Edits(events: seq<QueueEvent>): seq<PartitionStore> {
    if events == [] then []
    else Edit(events[0]) + Edits(events[1..])
  }

  predicate Subsequence(a: seq<PartitionStore>, b: seq<PartitionStore>) {
    a == [] ||
    (b != [] && ((a[0] == b[0] && Subsequence(a[1..], b[1..])) || Subsequence(a, b[1..])))
  }

  // A subsequence of what is left after dropping the first.
  lemma DropFirst(a: seq<PartitionStore>, b: seq<PartitionStore>, c: seq<PartitionStore>)
    requires Subsequence(a, c) && (b == c || (b != [] && b[1..] == c))
    ensures Subsequence(a, b)
  {
  }

  function Waiting(s: QueueState): seq<PartitionStore> {
    if s.pending.Some? then [s.pending.value] else []
  }

  // What one transition sends and leaves waiting: the edit, or what was waiting, or
  // nothing at all.
  lemma WaitingStep(s: QueueState, e: QueueEvent)
    requires Shape(s)
    ensures var t := Step(s, e);
            && s.puts <= t.puts && |t.puts| <= |s.puts| + 1
            && (t.puts == s.puts || t.pending.None?)
            && var left := t.puts[|s.puts|..] + Waiting(t);
               || left == (if e.Applied? then [e.next] else Waiting(s))
               || (left == [] && (e.Applied? ==> Waiting(s) == []))
  {
    var t := Step(s, e);
    if t.puts == s.puts {
      assert t.puts[|s.puts|..] + Waiting(t) == Waiting(t);
    } else {
      assert t.puts[|s.puts|..] == [t.puts[|s.puts|]];
    }
  }

  lemma SlicesJoin(a: seq<PartitionStore>, b: seq<PartitionStore>, c: seq<PartitionStore>)
    requires a <= b <= c
    ensures a <= c && c[|a|..] == b[|a|..] + c[|b|..]
  {
  }

  lemma SentFirst(
    sent: seq<PartitionStore>, rest: seq<PartitionStore>, waiting: seq<PartitionStore>, later: seq<PartitionStore>)
    requires |sent| <= 1 && (sent == [] || waiting == []) && Subsequence(rest, waiting + later)
    ensures Subsequence(sent + rest, sent + waiting + later)
  {
    if sent == [] {
      assert sent + rest == rest && sent + waiting + later == waiting + later;
    } else {
      assert waiting + later == later && sent + waiting + later == sent + later;
      assert (sent + rest)[1..] == rest && (sent + later)[1..] == later;
    }
  }

  // What was sent from `s` to `t` is a subsequence of what was waiting and of `more`.
  predicate SentFrom(s: QueueState, more: seq<PartitionStore>, t: QueueState) {
    s.puts <= t.puts && Subsequence(t.puts[|s.puts|..], Waiting(s) + more)
  }

  lemma SentAcrossStep(s: QueueState, e: QueueEvent, later: seq<PartitionStore>, u: QueueState)
    requires Shape(s) && SentFrom(Step(s, e), later, u)
    ensures SentFrom(s, Edit(e) + later, u)
  {
    hide Step, Shape, Subsequence;
    var t := Step(s, e);
    WaitingStep(s, e);
    var sent, rest := t.puts[|s.puts|..], u.puts[|t.puts|..];
    SlicesJoin(s.puts, t.puts, u.puts);
    SentFirst(sent, rest, Waiting(t), later);
    var left, all := sent + Waiting(t) + later, Waiting(s) + (Edit(e) + later);
    assert left == all || (all != [] && left == all[1..]);
    DropFirst(sent + rest, all, left);
  }

  // Whatever happens, what is sent from now on is a subsequence of what is pending
  // and the edits to come: only stores that were applied, in the order of the edits.
  lemma {:induction false} PutsAreEdits(s: QueueState, events: seq<QueueEvent>)
    requires Shape(s)
    ensures SentFrom(s, Edits(events), Run(s, events))
    decreases |events|
  {
    hide Step, Shape, SentFrom;
    if events == [] {
      NothingSent(s);
    } else {
      ShapeIsKept(s, events[0]);
      PutsAreEdits(Step(s, events[0]), events[1..]);
      SentAcrossStep(s, events[0], Edits(events[1..]), Run(s, events));
    }
  }

  lemma NothingSent(s: QueueState)
    ensures SentFrom(s, [], s)
  {
  }

  // ------------------------------------------------------- what the server said

  lemma {:induction false} RunSnoc(s: QueueState, events: seq<QueueEvent>, e: QueueEvent)
    ensures Run(s, events + [e]) == Step(Run(s, events), e)
    decreases |events|
  {
    if events == [] {
      assert [] + [e] == [e] && [e][1..] == [];
    } else {
      assert (events + [e])[1..] == events[1..] + [e];
      RunSnoc(Step(s, events[0]), events[1..], e);
    }
  }

  // A put is in flight after these events.
  predicate InFlight(events: seq<QueueEvent>) {
    var s := Run(START, events);
    s.settled < |s.puts|
  }

  // The store that the server delivered last while the hook was mounted: with the page,
  // after a migration, or in answer to the put in flight.
  function LastSaid(events: seq<QueueEvent>): PartitionStore {
    if events == [] then INITIAL_STORE
    else
      var before, e := events[..|events| - 1], events[|events| - 1];
      if Unmounted in before then LastSaid(before)
      else
        match e
        case Hydrated(Some(remote)) => remote
        case Migrated(Some(migrated)) => migrated
        case PutAnswered(Some(saved)) => if InFlight(before) then saved else LastSaid(before)
        case _ => LastSaid(before)
  }

  // Whether an error is shown: the last request that came back while the hook was
  // mounted failed, and no edit was made since.
  predicate LastFailed(events: seq<QueueEvent>) {
    if events == [] then false
    else
      var before, e := events[..|events| - 1], events[|events| - 1];
      match e
      case Applied(_) => false
      case PutAnswered(saved) => if Unmounted in before || !InFlight(before) then LastFailed(before) else saved.None?
      case Hydrated(remote) => if Unmounted in before then LastFailed(before) else remote.None?
      case Migrated(migrated) => if Unmounted in before then LastFailed(before) else migrated.None?
      case _ => LastFailed(before)
  }

  // Over every run, what is confirmed is what the server said last.
  lemma {:induction false} ConfirmedIsLastSaid(events: seq<QueueEvent>)
    ensures var s := Run(START, events);
            s.confirmed == LastSaid(events) && s.failed == LastFailed(events) && s.mounted == (Unmounted !in events)
  {
    if events != [] {
      var before, e := events[..|events| - 1], events[|events| - 1];
      assert events == before + [e];
      hide Run, InFlight, Step;
      ConfirmedIsLastSaid(before);
      RunSnoc(START, before, e);
      InFlightMeans(before);
      StepSays(Run(START, before), e);
      assert Unmounted in events <==> Unmounted in before || e == Unmounted;
    } else {
      NothingRan();
    }
  }

  lemma InFlightMeans(events: seq<QueueEvent>)
    ensures InFlight(events) <==> Run(START, events).settled < |Run(START, events).puts|
  {
  }

  lemma NothingRan()
    ensures Run(START, []) == START
  {
  }

  // What one transition makes of what was confirmed, of the error and of the mount.
  lemma StepSays(s: QueueState, e: QueueEvent)
    ensures var t := Step(s, e);
            && t.mounted == (s.mounted && !e.Unmounted?)
            && t.confirmed == (match e
                               case Hydrated(Some(remote)) => if s.mounted then remote else s.confirmed
                               case Migrated(Some(migrated)) => if s.mounted then migrated else s.confirmed
                               case PutAnswered(Some(saved)) =>
                                 if s.mounted && s.settled < |s.puts| then saved else s.confirmed
                               case _ => s.confirmed)
            && t.failed == (match e
                            case Applied(_) => false
                            case PutAnswered(saved) =>
                              if s.mounted && s.settled < |s.puts| then saved.None? else s.failed
                            case Hydrated(remote) => if s.mounted then remote.None? else s.failed
                            case Migrated(migrated) => if s.mounted then migrated.None? else s.failed
                            case _ => s.failed)
  {
  }

  // The last edit that no failed put has discarded.
  function LastEdit(events: seq<QueueEvent>): Option<PartitionStore> {
    if events == [] then None
    else
      var before, e := events[..|events| - 1], events[|events| - 1];
      match e
      case Applied(next) => Some(next)
      case PutAnswered(None) => if Unmounted in before || !InFlight(before) then LastEdit(before) else None
      case _ => LastEdit(before)
  }

  // The pending store, or else the one in the put that was sent last, is the last edit.
  predicate Holds(s: QueueState, edit: Option<PartitionStore>) {
    && s.latest == edit && Shape(s)
    && (s.mounted && !Idle(s) ==> edit.Some?)
    && (s.mounted && edit.Some? ==>
          if s.pending.Some? then s.pending == edit else s.puts != [] && s.puts[|s.puts| - 1] == edit.value)
  }

  lemma StepHolds(s: QueueState, e: QueueEvent, edit: Option<PartitionStore>)
    requires Holds(s, edit)
    ensures Holds(Step(s, e), match e
                              case Applied(next) => Some(next)
                              case PutAnswered(None) => if !s.mounted || s.settled >= |s.puts| then edit else None
                              case _ => edit)
  {
    hide Shape;
    ShapeIsKept(s, e);
    ShapeMeans(s);
    ShapeMeans(Step(s, e));
    EditIsHeld(s);
    EditIsHeld(Step(s, e));
  }

  lemma EditIsHeld(s: QueueState)
    requires Shape(s)
    ensures s.mounted && s.latest.Some? ==>
              s.pending == s.latest ||
              (s.pending.None? && s.puts != [] && s.puts[|s.puts| - 1] == s.latest.value)
  {
  }

  // Over every run, an edit is waiting to be sent or was sent last until another edit
  // replaces it or its put fails.
  lemma {:induction false} LastEditIsHeld(events: seq<QueueEvent>)
    ensures Holds(Run(START, events), LastEdit(events))
  {
    if events != [] {
      hide Run, InFlight, Step, Holds;
      var before, e := events[..|events| - 1], events[|events| - 1];
      assert events == before + [e];
      LastEditIsHeld(before);
      RunSnoc(START, before, e);
      InFlightMeans(before);
      ConfirmedIsLastSaid(before);
      StepHolds(Run(START, before), e, LastEdit(before));
    } else {
      NothingRan();
    }
  }

  // So, if no load comes during a put, the user is shown the last edit while it is
  // waiting or in flight, and what the server said last otherwise.
  lemma ShownIsLastEditOrSaid(events: seq<QueueEvent>)
    requires LoadsComeIdle(START, events)
    ensures var t := Run(START, events);
            t.mounted ==> if Idle(t) then t.store == LastSaid(events) else LastEdit(events) == Some(t.store)
  {
    hide Run, LastSaid, LastEdit, Step;
    LastEditIsHeld(events);
    ConfirmedIsLastSaid(events);
    EveryRunIsConsistent(START, events);
  }

  // From the start of the hook on.
  lemma EveryRunFromStart(events: seq<QueueEvent>)
    ensures var t := Run(START, events);
            && |t.puts| - t.settled <= 1
            && (t.mounted && Idle(t) ==> (t.store == t.confirmed <==> StrayAfter(START, events, None).None?))
            && (t.mounted && Idle(t) && StrayAfter(START, events, None).None? ==> t.store == LastSaid(events))
            && (LoadsComeIdle(START, events) ==> Consistent(t))
            && Subsequence(t.puts, Edits(events))
  {
    ConfirmedIsLastSaid(events);
    EveryRunIsExplained(START, events, None);
    PutsAreEdits(START, events);
    var t := Run(START, events);
    assert t.puts[|START.puts|..] == t.puts && [] + Edits(events) == Edits(events);
    if LoadsComeIdle(START, events) { EveryRunIsConsistent(START, events); }
  }

  // A concrete run that comes to rest showing what was never confirmed.
  lemma LateHydrationLosesTheAnswer(edit: PartitionStore, remote: PartitionStore, saved: PartitionStore)
    requires remote != edit && saved != remote
    ensures var t := Run(START, [Applied(edit), Hydrated(Some(remote)), PutAnswered(Some(saved)), Resumed]);
            Idle(t) && t.mounted && t.store == remote && t.confirmed == saved && t.store != t.confirmed
  {
    var events := [Applied(edit), Hydrated(Some(remote)), PutAnswered(Some(saved)), Resumed];
    assert events[1..] == [Hydrated(Some(remote)), PutAnswered(Some(saved)), Resumed];
    assert events[1..][1..] == [PutAnswered(Some(saved)), Resumed];
    assert events[1..][1..][1..] == [Resumed] && [Resumed][1..] == [];
    var s1 := Step(START, Applied(edit));
    var s2 := Step(s1, Hydrated(Some(remote)));
    var s3 := Step(s2, PutAnswered(Some(saved)));
    var s4 := Step(s3, Resumed);
    assert Run(s4, []) == s4 && Run(s3, [Resumed]) == s4 && Run(s2, [PutAnswered(Some(saved)), Resumed]) == s4;
    assert Run(s1, events[1..]) == s4;
  }

  // A failed put also discards the edit that was queued behind it: from then on only
  // edits that are made later are sent, whatever happens.
  lemma FailureDiscardsQueuedEdit(s: QueueState, events: seq<QueueEvent>)
    requires Shape(s) && s.mounted && s.pending.Some? && s.settled < |s.puts|
    ensures var t := Step(s, PutAnswered(None));
            && Idle(t) && t.store == s.confirmed == t.confirmed && t.failed
            && s.puts <= Run(t, events).puts
            && Subsequence(Run(t, events).puts[|s.puts|..], Edits(events))
  {
    var t := Step(s, PutAnswered(None));
    ShapeIsKept(s, PutAnswered(None));
    PutsAreEdits(t, events);
    assert Waiting(t) + Edits(events) == Edits(events);
  }

  // ------------------------------------------------------------- the object

  class PartitionPersistQueue {
    var store: PartitionStore
    var confirmed: PartitionStore
    var pending: Option<PartitionStore>
    var persisting: bool
    var mounted: bool
    var failed: bool
    ghost var puts: seq<PartitionStore>
    ghost var settled: nat
    ghost var resuming: bool
    ghost var latest: Option<PartitionStore>

    constructor ()
      ensures View() == START
    {
      store, confirmed, pending, persisting := INITIAL_STORE, INITIAL_STORE, None, false;
      mounted, failed, puts, settled, resuming, latest := true, false, [], 0, false, None;
    }

    ghost function View(): QueueState
      reads this
    {
      QueueState(store, confirmed, pending, persisting, mounted, failed, puts, settled, resuming, latest)
    }

    method ApplyOptimisticStore(next: PartitionStore)
      modifies this
      ensures View() == Step(old(View()), Applied(next))
    {
      failed := false;
      ReplaceStore(next);
      pending := Some(next);
      latest := Some(next);
      FlushQueuedPartitionPersist();
    }

    // Up to the first await: nothing if a flush is running, else the first put.
    method FlushQueuedPartitionPersist()
      modifies this
      ensures View() == Flush(old(View()))
    {
      if persisting {
        return;
      }
      persisting := true;
      SendNext();
    }

    // The head of the flush loop: sends the pending store, or leaves the loop.
    method SendNext()
      modifies this`pending, this`persisting, this`puts
      ensures View() == Take(old(View()))
    {
      var next := pending;
      pending := None;
      if next.Some? && mounted {
        puts := puts + [next.value];
      } else {
        persisting := false;
      }
    }

    // The put in flight is answered: `persistPartitionStore` up to its end.
    method ResumePersist(requested: PartitionStore, saved: Option<PartitionStore>)
      requires settled < |puts| && requested == puts[settled]
      modifies this
      ensures View() == Step(old(View()), PutAnswered(saved))
    {
      if saved.Some? {
        CommitPersistedPartitionStore(requested, saved.value);
      } else {
        RollbackPartitionStore();
      }
      settled := settled + 1;
      resuming := true;
    }

    // The flush loop goes on after its await, up to the next one.
    method ResumeFlush()
      requires resuming
      modifies this`pending, this`persisting, this`puts, this`resuming
      ensures View() == Step(old(View()), Resumed)
    {
      resuming := false;
      SendNext();
    }

    method CommitPersistedPartitionStore(requested: PartitionStore, saved: PartitionStore)
      modifies this`confirmed, this`store, this`failed
      ensures View() == Commit(old(View()), requested, saved)
    {
      if !mounted {
        return;
      }
      confirmed := saved;
      if pending == None && store == requested {
        ReplaceStore(saved);
      }
      failed := false;
    }

    method RollbackPartitionStore()
      modifies this`pending, this`store, this`failed, this`latest
      ensures View() == Rollback(old(View()))
    {
      if !mounted {
        return;
      }
      pending := None;
      latest := None;
      ReplaceStore(confirmed);
      failed := true;
    }

    method ResumeHydration(remote: Option<PartitionStore>)
      modifies this`confirmed, this`store, this`failed
      ensures View() == Step(old(View()), Hydrated(remote))
    {
      if !mounted {
        return;
      }
      if remote.Some? {
        confirmed := remote.value;
        ReplaceStore(remote.value);
        failed := false;
      } else {
        ReplaceStore(confirmed);
        failed := true;
      }
    }

    method ResumeMigration(migrated: Option<PartitionStore>)
      modifies this`confirmed, this`store, this`failed
      ensures View() == Step(old(View()), Migrated(migrated))
    {
      if !mounted {
        return;
      }
      if migrated.None? {
        failed := true;
        return;
      }
      confirmed := migrated.value;
      ReplaceStore(migrated.value);
      failed := false;
    }

    method Unmount()
      modifies this`mounted
      ensures View() == Step(old(View()), Unmounted)
    {
      mounted := false;
    }

    method ReplaceStore(next: PartitionStore)
      modifies this`store
      ensures store == next
    {
      store := next;
    }
  }
}
