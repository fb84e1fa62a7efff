// The cards of a task run: live events and snapshots from the server merged into
// one list of cards, each with the events of its source
// (apps/web/lib/taskRunViewerCards.ts).
module RunCards {
  import opened Options
  import opened Text
  import StableSort

  // `key` is what identifies an event that carries no id of its own.
  datatype Event = Event(id: string, key: string, sessionID: string)

  // `start` is the parsed start time, zero if there is none, and `order` the
  // position of the id in the collation of `localeCompare`. A text field that is
  // missing is empty.
  datatype Card = Card(
    id: string, start: int, order: int, status: string, finishedAt: string, preview: string, error: string,
    finalText: string, sourceSessionID: string, liveSessionID: string, events: seq<Event>)

  function OrElse(s: string, other: string): string {
    if s != "" then s else other
  }

  // ------------------------------------------------------------------ events

  function Key(e: Event): string {
    OrElse(Trim(e.id), e.key)
  }

  function Keys(s: seq<Event>): set<string> {
    set i | 0 <= i < |s| :: Key(s[i])
  }

  predicate DistinctKeys(s: seq<Event>) {
    StableSort.Distinct(s, Key)
  }

  // The first event of every key.
  function Merged(s: seq<Event>): seq<Event> {
    if s == [] then []
    else
      var front, e := Merged(s[..|s| - 1]), s[|s| - 1];
      if Key(e) in Keys(front) then front else front + [e]
  }

  lemma KeysOfConcat(a: seq<Event>, b: seq<Event>)
    ensures Keys(a + b) == Keys(a) + Keys(b)
  {
    forall k | k in Keys(a) + Keys(b) ensures k in Keys(a + b) {
      if k in Keys(a) {
        var i :| 0 <= i < |a| && k == Key(a[i]);
        assert (a + b)[i] == a[i];
      } else {
        var i :| 0 <= i < |b| && k == Key(b[i]);
        assert (a + b)[|a| + i] == b[i];
      }
    }
  }

  lemma KeysOfOneMore(s: seq<Event>, e: Event)
    ensures Keys(s + [e]) == Keys(s) + {Key(e)}
  {
    KeysOfConcat(s, [e]);
    assert Keys([e]) == {Key(e)} by { assert Key([e][0]) == Key(e); }
  }

  lemma MergedStep(before: seq<Event>, e: Event)
    ensures Merged(before + [e]) == if Key(e) in Keys(Merged(before)) then Merged(before) else Merged(before) + [e]
    ensures Keys(Merged(before) + [e]) == Keys(Merged(before)) + {Key(e)}
  {
    assert (before + [e])[..|before|] == before;
    KeysOfOneMore(Merged(before), e);
  }

  // Two events are one if they have one id, white space aside; what they carry counts
  // only if neither has an id.
  lemma OneIDOneEvent(a: Event, b: Event)
    ensures Trim(a.id) == Trim(b.id) != "" ==> Merged([a, b]) == [a]
    ensures Trim(a.id) != "" && Trim(b.id) != "" && Trim(a.id) != Trim(b.id) ==> Merged([a, b]) == [a, b]
    ensures Trim(a.id) == Trim(b.id) == "" ==> Merged([a, b]) == if a.key == b.key then [a] else [a, b]
  {
    hide Trim;
    assert [] + [a] == [a] && [a] + [b] == [a, b];
    MergedStep([], a);
    MergedStep([a], b);
    KeysOfOneMore([], a);
    assert Merged([]) == [] && Keys([]) == {};
  }

  // No key is lost, and none is left twice.
  lemma {:induction false} MergedKeys(s: seq<Event>)
    ensures Keys(Merged(s)) == Keys(s) && DistinctKeys(Merged(s))
  {
    hide Key;
    if s != [] {
      var before, e := s[..|s| - 1], s[|s| - 1];
      MergedKeys(before);
      assert s == before + [e];
      KeysOfOneMore(before, e);
      KeysOfOneMore(Merged(before), e);
      assert forall i :: 0 <= i < |Merged(before)| ==> Key(Merged(before)[i]) in Keys(Merged(before));
    }
  }

  predicate FirstOfKey(s: seq<Event>, k: int) {
    0 <= k < |s| && forall j :: 0 <= j < k ==> Key(s[j]) != Key(s[k])
  }

  lemma FirstOfKeyStep(before: seq<Event>, last: Event, k: int)
    ensures FirstOfKey(before + [last], k) <==>
            FirstOfKey(before, k) || (k == |before| && Key(last) !in Keys(before))
  {
    hide Key;
    assert forall j :: 0 <= j < |before| ==> Key(before[j]) in Keys(before) && (before + [last])[j] == before[j];
  }

  // An event survives exactly if no earlier one has its key.
  lemma {:induction false} MergedKeepsFirst(s: seq<Event>, e: Event)
    ensures e in Merged(s) <==> exists k :: FirstOfKey(s, k) && s[k] == e
  {
    hide Key, Keys;
    if s != [] {
      var before, last := s[..|s| - 1], s[|s| - 1];
      assert s == before + [last];
      MergedKeepsFirst(before, e);
      MergedKeys(before);
      forall k ensures FirstOfKey(s, k) <==> FirstOfKey(before, k) || (k == |before| && Key(last) !in Keys(before)) {
        FirstOfKeyStep(before, last, k);
      }
      MergedStep(before, last);
      SurvivorsGrow(before, last, e);
    }
  }

  lemma SurvivorsGrow(before: seq<Event>, last: Event, e: Event)
    requires forall k :: FirstOfKey(before + [last], k) <==>
                         FirstOfKey(before, k) || (k == |before| && Key(last) !in Keys(before))
    ensures (exists k :: FirstOfKey(before + [last], k) && (before + [last])[k] == e) <==>
            (exists k :: FirstOfKey(before, k) && before[k] == e) || (Key(last) !in Keys(before) && e == last)
  {
    hide Key, Keys;
    var s := before + [last];
    if k :| FirstOfKey(before, k) && before[k] == e {
      assert FirstOfKey(s, k) && s[k] == e;
    }
    if Key(last) !in Keys(before) {
      assert FirstOfKey(s, |before|) && s[|before|] == last;
    }
    if k :| FirstOfKey(s, k) && s[k] == e {
      assert FirstOfKey(before, k) ==> before[k] == e;
    }
  }

  // Merging on from what is merged already only appends.
  lemma {:induction false} MergedAppends(a: seq<Event>, b: seq<Event>)
    ensures Merged(a) <= Merged(a + b)
    decreases |b|
  {
    if b == [] {
      assert a + b == a;
    } else {
      assert (a + b)[..|a + b| - 1] == a + b[..|b| - 1];
      MergedAppends(a, b[..|b| - 1]);
    }
  }

  lemma {:induction false} MergedDistinct(s: seq<Event>)
    requires DistinctKeys(s)
    ensures Merged(s) == s
  {
    if s != [] {
      var before, e := s[..|s| - 1], s[|s| - 1];
      assert s == before + [e];
      MergedDistinct(before);
      assert forall i :: 0 <= i < |before| ==> before[i] == s[i];
    }
  }

  lemma NothingMerged()
    ensures Merged([]) == [] && Keys([]) == {}
  {
  }

  function Concat(lists: seq<seq<Event>>): seq<Event> {
    if lists == [] then [] else Concat(lists[..|lists| - 1]) + lists[|lists| - 1]
  }

  method MergeCardSourceEvents(lists: seq<seq<Event>>) returns (merged: seq<Event>)
    ensures merged == Merged(Concat(lists))
  {
    hide Merged, Keys, Trim;
    var seen: set<string> := {};
    merged := [];
    NothingMerged();
    for i := 0 to |lists|
      invariant merged == Merged(Concat(lists[..i])) && seen == Keys(merged)
    {
      ghost var before := Concat(lists[..i]);
      var list := lists[i];
      assert before + list[..0] == before;
      for j := 0 to |list|
        invariant merged == Merged(before + list[..j]) && seen == Keys(merged)
      {
        var event := list[j];
        assert before + list[..j + 1] == before + list[..j] + [event];
        MergedStep(before + list[..j], event);
        var dedupeKey := OrElse(Trim(event.id), event.key);
        if dedupeKey in seen {
          continue;
        }
        seen := seen + {dedupeKey};
        merged := merged + [event];
      }
      assert lists[..i + 1][..i] == lists[..i] && list[..|list|] == list;
    }
    assert lists[..|lists|] == lists;
  }

  // The session of the last event that names one.
  function SourceSessionID(events: seq<Event>): string {
    if events == [] then ""
    else OrElse(Trim(events[|events| - 1].sessionID), SourceSessionID(events[..|events| - 1]))
  }

  // The session that the last event to name one names, or none.
  ghost predicate LastNamed(events: seq<Event>, sessionID: string) {
    if sessionID == "" then forall i :: 0 <= i < |events| ==> Trim(events[i].sessionID) == ""
    else exists i :: NamedLastAt(events, sessionID, i)
  }

  ghost predicate NamedLastAt(events: seq<Event>, sessionID: string, i: int) {
    && 0 <= i < |events| && Trim(events[i].sessionID) == sessionID
    && forall j :: i < j < |events| ==> Trim(events[j].sessionID) == ""
  }

  lemma {:induction false} SourceSessionIsLastNamed(events: seq<Event>)
    ensures LastNamed(events, SourceSessionID(events))
  {
    hide Trim;
    if events != [] {
      var n, r := |events| - 1, SourceSessionID(events);
      SourceSessionIsLastNamed(events[..n]);
      if Trim(events[n].sessionID) != "" {
        assert NamedLastAt(events, r, n);
      } else if r != "" {
        var i :| NamedLastAt(events[..n], r, i);
        assert NamedLastAt(events, r, i);
      } else {
        assert forall i :: 0 <= i < n ==> Trim(events[..n][i].sessionID) == "";
      }
    }
  }

  method ResolveSourceSessionIDFromEvents(events: seq<Event>) returns (sessionID: string)
    ensures sessionID == SourceSessionID(events) && LastNamed(events, sessionID)
  {
    SourceSessionIsLastNamed(events);
    var index := |events|;
    assert events[..|events|] == events;
    while index > 0
      invariant 0 <= index <= |events| && SourceSessionID(events) == SourceSessionID(events[..index])
    {
      index := index - 1;
      assert events[..index + 1][..index] == events[..index];
      sessionID := Trim(events[index].sessionID);
      if sessionID != "" {
        return;
      }
    }
    return "";
  }

  // ------------------------------------------------------------------- cards

  predicate Before(a: Card, b: Card) {
    a.start < b.start || (a.start == b.start && a.order <= b.order)
  }

  function ID(c: Card): string {
    c.id
  }

  predicate UniqueIDs(cards: seq<Card>) {
    StableSort.Distinct(cards, ID)
  }

  function IDs(cards: seq<Card>): set<string> {
    set i | 0 <= i < |cards| :: cards[i].id
  }

  // What every list of cards that is shown satisfies.
  ghost predicate Good(cards: seq<Card>) {
    && UniqueIDs(cards)
    && StableSort.Sorted(cards, Before)
    && forall c :: c in cards ==> DistinctKeys(c.events)
  }

  // The later of two cards with one id is what the map by id holds.
  function Find(cards: seq<Card>, id: string): (c: Option<Card>)
    ensures c.Some? ==> c.value in cards && c.value.id == id
    ensures c.None? <==> id !in IDs(cards)
  {
    if cards == [] then None
    else
      var c := cards[|cards| - 1];
      if c.id == id then Some(c)
      else
        assert forall i :: 0 <= i < |cards| - 1 ==> cards[i] == cards[..|cards| - 1][i];
        Find(cards[..|cards| - 1], id)
  }

  function Hydrated(card: Card): (r: Card)
    ensures r.id == card.id
  {
    card.(liveSessionID := OrElse(card.sourceSessionID, SourceSessionID(card.events)), events := Merged(card.events))
  }

  function HydrateEach(cards: seq<Card>): seq<Card> {
    seq(|cards|, i requires 0 <= i < |cards| => Hydrated(cards[i]))
  }

  function HydrateLiveTaskRunCards(cards: Option<seq<Card>>): seq<Card> {
    if cards.None? then [] else StableSort.Sort(HydrateEach(cards.value), Before)
  }

  // A card of a snapshot takes over the events that were received live.
  function MergedWith(card: Card, existing: Option<Card>): (r: Card)
    ensures r.id == card.id
  {
    var events := Merged(card.events + if existing.Some? then existing.value.events else []);
    var live := OrElse(OrElse(card.sourceSessionID, SourceSessionID(events)),
                       if existing.Some? then existing.value.liveSessionID else "");
    card.(liveSessionID := live, events := events)
  }

  function MergeEach(current: seq<Card>, cards: seq<Card>): seq<Card> {
    seq(|cards|, i requires 0 <= i < |cards| => MergedWith(cards[i], Find(current, cards[i].id)))
  }

  function MergeLiveTaskRunCards(current: seq<Card>, cards: Option<seq<Card>>): seq<Card> {
    if cards.None? then current
    else StableSort.Sort(MergeEach(current, cards.value), Before)
  }

  function Without(cards: seq<Card>, id: string): (r: seq<Card>)
    ensures forall c :: c in r <==> c in cards && c.id != id
  {
    if cards == [] then []
    else Without(cards[..|cards| - 1], id) + (if cards[|cards| - 1].id != id then [cards[|cards| - 1]] else [])
  }

  function ApplyStartedCard(cards: seq<Card>, card: Card): seq<Card> {
    StableSort.Sort(Without(cards, card.id) + [Hydrated(card)], Before)
  }

  datatype CardEvent = CardEvent(cardID: string, event: Event, sourceSessionID: string)

  function WithEvent(c: Card, o: CardEvent): Card {
    if c.id != o.cardID then c
    else c.(liveSessionID := OrElse(Trim(o.sourceSessionID), c.liveSessionID), events := Merged(c.events + [o.event]))
  }

  function ApplyCardEvent(cards: seq<Card>, o: CardEvent): seq<Card> {
    seq(|cards|, i requires 0 <= i < |cards| => WithEvent(cards[i], o))
  }

  datatype Patch = Patch(cardID: string, status: string, finishedAt: string, preview: string, error: string,
                         finalText: string, liveSessionID: string)

  function WithPatch(c: Card, p: Patch): Card {
    if c.id != p.cardID then c
    else c.(status := p.status, finishedAt := p.finishedAt, preview := p.preview, error := p.error,
            finalText := OrElse(p.finalText, c.finalText), liveSessionID := OrElse(p.liveSessionID, c.liveSessionID))
  }

  function ApplyFinishedCard(cards: seq<Card>, p: Patch): seq<Card> {
    seq(|cards|, i requires 0 <= i < |cards| => WithPatch(cards[i], p))
  }

  predicate IsActive(c: Card) {
    OrElse(Trim(c.status), "running") == "running"
  }

  function Ended(c: Card, status: string, p: Patch): Card {
    if !IsActive(c) then c
    else c.(status := status, finishedAt := OrElse(c.finishedAt, p.finishedAt),
            preview := OrElse(c.preview, p.preview), error := OrElse(c.error, p.error))
  }

  function ReconcileCardsWithRunStatus(cards: seq<Card>, status: string, p: Patch): seq<Card> {
    var normalized := Trim(status);
    if normalized == "" || normalized == "running" then cards
    else seq(|cards|, i requires 0 <= i < |cards| => Ended(cards[i], normalized, p))
  }

  // Once a run has ended, no card of it is active.
  lemma EndedRunHasNoActiveCard(cards: seq<Card>, status: string, p: Patch, i: nat)
    requires Trim(status) != "" && Trim(status) != "running" && i < |cards|
    ensures !IsActive(ReconcileCardsWithRunStatus(cards, status, p)[i])
  {
    TrimTwice(status);
  }

  method LatestActiveCard(cards: seq<Card>) returns (latest: Option<Card>)
    ensures latest.None? <==> forall c :: c in cards ==> !IsActive(c)
    ensures latest.Some? ==> exists i :: 0 <= i < |cards| && cards[i] == latest.value && IsActive(cards[i]) &&
                                         forall j :: i < j < |cards| ==> !IsActive(cards[j])
  {
    var index := |cards|;
    while index > 0
      invariant 0 <= index <= |cards| && forall j :: index <= j < |cards| ==> !IsActive(cards[j])
    {
      index := index - 1;
      if IsActive(cards[index]) {
        return Some(cards[index]);
      }
    }
    return None;
  }

  // -------------------------------------------------------------------- runs

  datatype Step =
    | Snapshot(cards: Option<seq<Card>>)
    | Started(card: Card)
    | EventArrived(event: CardEvent)
    | Finished(patch: Patch)
    | RunStatus(status: string, ending: Patch)

  function Apply(cards: seq<Card>, step: Step): seq<Card> {
    match step
    case Snapshot(some) => MergeLiveTaskRunCards(cards, some)
    case Started(card) => ApplyStartedCard(cards, card)
    case EventArrived(event) => ApplyCardEvent(cards, event)
    case Finished(patch) => ApplyFinishedCard(cards, patch)
    case RunStatus(status, ending) => ReconcileCardsWithRunStatus(cards, status, ending)
  }

  function Run(cards: seq<Card>, steps: seq<Step>): seq<Card>
    decreases |steps|
  {
    if steps == [] then cards else Run(Apply(cards, steps[0]), steps[1..])
  }

  // A snapshot has one card for an id.
  predicate WellFormed(step: Step) {
    step.Snapshot? && step.cards.Some? ==> UniqueIDs(step.cards.value)
  }

  lemma {:induction false} SortedIsGood(cards: seq<Card>)
    requires UniqueIDs(cards) && forall c :: c in cards ==> DistinctKeys(c.events)
    ensures Good(StableSort.Sort(cards, Before))
  {
    StableSort.SortIsSorted(cards, Before);
    StableSort.SortDistinct(cards, Before, ID);
  }

  lemma HydratedIsGood(cards: Option<seq<Card>>)
    requires cards.Some? ==> UniqueIDs(cards.value)
    ensures Good(HydrateLiveTaskRunCards(cards))
  {
    if cards.Some? {
      forall i | 0 <= i < |cards.value| ensures DistinctKeys(Merged(cards.value[i].events)) {
        MergedKeys(cards.value[i].events);
      }
      SortedIsGood(HydrateEach(cards.value));
    }
  }

  lemma SnapshotIsGood(current: seq<Card>, cards: seq<Card>)
    requires UniqueIDs(cards)
    ensures Good(MergeLiveTaskRunCards(current, Some(cards)))
  {
    var each := MergeEach(current, cards);
    forall c | c in each ensures DistinctKeys(c.events) {
      var i :| 0 <= i < |cards| && c == MergedWith(cards[i], Find(current, cards[i].id));
      var existing := Find(current, cards[i].id);
      MergedKeys(cards[i].events + if existing.Some? then existing.value.events else []);
    }
    SortedIsGood(each);
  }

  lemma {:induction false} WithoutIsUnique(cards: seq<Card>, id: string)
    requires UniqueIDs(cards)
    ensures UniqueIDs(Without(cards, id))
  {
    if cards != [] {
      var front := Without(cards[..|cards| - 1], id);
      WithoutIsUnique(cards[..|cards| - 1], id);
      assert forall i :: 0 <= i < |front| ==> front[i] in cards[..|cards| - 1];
      assert forall c :: c in cards[..|cards| - 1] ==> c.id != cards[|cards| - 1].id;
    }
  }

  lemma {:induction false} StartedIsGood(cards: seq<Card>, card: Card)
    requires Good(cards)
    ensures Good(ApplyStartedCard(cards, card))
  {
    var rest := Without(cards, card.id);
    WithoutIsUnique(cards, card.id);
    MergedKeys(card.events);
    assert forall i :: 0 <= i < |rest| ==> rest[i] in rest;
    SortedIsGood(rest + [Hydrated(card)]);
  }

  lemma {:induction false} EventIsGood(cards: seq<Card>, o: CardEvent)
    requires Good(cards)
    ensures Good(ApplyCardEvent(cards, o))
  {
    forall i | 0 <= i < |cards| ensures DistinctKeys(WithEvent(cards[i], o).events) {
      MergedKeys(cards[i].events + [o.event]);
    }
  }

  // Over every run: one card for an id, the cards by start time and id, and no
  // event twice in a card.
  lemma {:induction false} EveryRunIsGood(cards: seq<Card>, steps: seq<Step>)
    requires Good(cards) && forall step :: step in steps ==> WellFormed(step)
    ensures Good(Run(cards, steps))
    ensures var listed := Run(cards, steps);
            forall i, j :: 0 <= i < j < |listed| ==>
              listed[i].start < listed[j].start ||
              (listed[i].start == listed[j].start && listed[i].order <= listed[j].order)
    decreases |steps|
  {
    if steps != [] {
      var step := steps[0];
      StepIsGood(cards, step);
      EveryRunIsGood(Apply(cards, step), steps[1..]);
    }
  }

  lemma {:induction false} StepIsGood(cards: seq<Card>, step: Step)
    requires Good(cards) && WellFormed(step)
    ensures Good(Apply(cards, step))
  {
    hide StableSort.Sort, Merged;
    match step
    case Snapshot(some) => if some.Some? { SnapshotIsGood(cards, some.value); }
    case Started(card) => StartedIsGood(cards, card);
    case EventArrived(event) => EventIsGood(cards, event);
    case Finished(patch) =>
    case RunStatus(status, ending) =>
  }

  // ---------------------------------------------------- deliveries and snapshots

  // The keys of the events on the card with an id.
  ghost function EventKeys(cards: seq<Card>, id: string): set<string> {
    var c := Find(cards, id);
    if c.Some? then Keys(c.value.events) else {}
  }

  lemma {:induction false} FindAt(cards: seq<Card>, i: nat)
    requires UniqueIDs(cards) && i < |cards|
    ensures Find(cards, cards[i].id) == Some(cards[i])
  {
    if i < |cards| - 1 { FindAt(cards[..|cards| - 1], i); }
  }

  lemma FindMember(cards: seq<Card>, c: Card)
    requires UniqueIDs(cards) && c in cards
    ensures Find(cards, c.id) == Some(c)
  {
    var i :| 0 <= i < |cards| && cards[i] == c;
    FindAt(cards, i);
  }

  lemma FindSorted(cards: seq<Card>, id: string)
    requires UniqueIDs(cards)
    ensures Find(StableSort.Sort(cards, Before), id) == Find(cards, id)
  {
    var sorted := StableSort.Sort(cards, Before);
    StableSort.SortDistinct(cards, Before, ID);
    if Find(cards, id).Some? {
      FindMember(sorted, Find(cards, id).value);
    } else if Find(sorted, id).Some? {
      FindMember(cards, Find(sorted, id).value);
    }
  }

  lemma {:induction false} FindAfterEvent(cards: seq<Card>, o: CardEvent, id: string)
    requires UniqueIDs(cards)
    ensures var c := Find(cards, id);
            Find(ApplyCardEvent(cards, o), id) == if c.Some? then Some(WithEvent(c.value, o)) else None
  {
    var after := ApplyCardEvent(cards, o);
    if id in IDs(cards) {
      var i :| 0 <= i < |cards| && cards[i].id == id;
      FindAt(cards, i);
      FindAt(after, i);
    }
    assert forall i :: 0 <= i < |after| ==> after[i].id == cards[i].id;
  }

  lemma {:induction false} FindAfterSnapshot(current: seq<Card>, cards: seq<Card>, id: string)
    requires UniqueIDs(cards)
    ensures var c := Find(cards, id);
            Find(MergeLiveTaskRunCards(current, Some(cards)), id) ==
            if c.Some? then Some(MergedWith(c.value, Find(current, id))) else None
  {
    hide MergedWith, Keys, Merged, StableSort.Sort;
    var each := MergeEach(current, cards);
    FindSorted(each, id);
    if id in IDs(cards) {
      var i :| 0 <= i < |cards| && cards[i].id == id;
      FindAt(cards, i);
      FindAt(each, i);
    }
    assert forall i :: 0 <= i < |each| ==> each[i].id == cards[i].id;
  }

  // Delivering an event once more changes nothing.
  lemma RedeliveryIsNoOp(cards: seq<Card>, o: CardEvent)
    requires Good(cards)
    ensures ApplyCardEvent(ApplyCardEvent(cards, o), o) == ApplyCardEvent(cards, o)
  {
    forall i | 0 <= i < |cards| ensures WithEvent(WithEvent(cards[i], o), o) == WithEvent(cards[i], o) {
      var events := Merged(cards[i].events + [o.event]);
      MergedKeys(cards[i].events + [o.event]);
      KeysOfOneMore(cards[i].events, o.event);
      MergedStep(events, o.event);
      MergedDistinct(events);
    }
  }

  lemma KeysWithEvent(cards: seq<Card>, o: CardEvent, id: string)
    requires UniqueIDs(cards)
    ensures EventKeys(ApplyCardEvent(cards, o), id) ==
            EventKeys(cards, id) + if id == o.cardID && id in IDs(cards) then {Key(o.event)} else {}
  {
    hide OrElse, Trim, Merged, Keys;
    FindAfterEvent(cards, o, id);
    if id == o.cardID && Find(cards, id).Some? {
      var events := Find(cards, id).value.events;
      MergedKeys(events + [o.event]);
      KeysOfOneMore(events, o.event);
    }
  }

  lemma {:induction false} KeysAfterSnapshot(current: seq<Card>, cards: seq<Card>, id: string)
    requires UniqueIDs(cards)
    ensures EventKeys(MergeLiveTaskRunCards(current, Some(cards)), id) ==
            if id in IDs(cards) then EventKeys(cards, id) + EventKeys(current, id) else {}
  {
    FindAfterSnapshot(current, cards, id);
    if Find(cards, id).Some? {
      var card, existing := Find(cards, id).value, Find(current, id);
      var live := if existing.Some? then existing.value.events else [];
      MergedKeys(card.events + live);
      KeysOfConcat(card.events, live);
      NothingMerged();
    }
  }

  lemma IDsAfter(current: seq<Card>, cards: seq<Card>, o: CardEvent)
    requires UniqueIDs(current) && UniqueIDs(cards)
    ensures UniqueIDs(ApplyCardEvent(current, o)) && IDs(ApplyCardEvent(current, o)) == IDs(current)
    ensures IDs(MergeLiveTaskRunCards(current, Some(cards))) == IDs(cards)
    ensures UniqueIDs(MergeLiveTaskRunCards(current, Some(cards)))
  {
    forall id ensures id in IDs(MergeLiveTaskRunCards(current, Some(cards))) <==> id in IDs(cards) {
      FindAfterSnapshot(current, cards, id);
    }
    forall id ensures id in IDs(ApplyCardEvent(current, o)) <==> id in IDs(current) {
      FindAfterEvent(current, o, id);
    }
    StableSort.SortDistinct(MergeEach(current, cards), Before, ID);
  }

  // An event that comes before the card it is for: dropped, and not in the snapshot.
  ghost predicate Lost(current: seq<Card>, cards: seq<Card>, o: CardEvent) {
    o.cardID in IDs(cards) && o.cardID !in IDs(current) && Key(o.event) !in EventKeys(cards, o.cardID)
  }

  // A card without the session it is shown live from, for which the last word counts.
  function Plain(c: Card): Card {
    c.(liveSessionID := "")
  }

  // A live event and a snapshot may come in either order: the same cards result, in
  // the same order and with the same events in the same order, if and only if the
  // event is not lost.
  lemma SnapshotAndEventCommute(current: seq<Card>, cards: seq<Card>, o: CardEvent)
    requires Good(current) && UniqueIDs(cards)
    ensures var eventFirst := MergeLiveTaskRunCards(ApplyCardEvent(current, o), Some(cards));
            var snapshotFirst := ApplyCardEvent(MergeLiveTaskRunCards(current, Some(cards)), o);
            StableSort.Map(eventFirst, Plain) == StableSort.Map(snapshotFirst, Plain) <==> !Lost(current, cards, o)
  {
    hide MergeLiveTaskRunCards, ApplyCardEvent, Lost, Good, UniqueIDs, Plain;
    if Lost(current, cards, o) {
      LostMakesADifference(current, cards, o);
    } else {
      NothingLost(current, cards, o);
    }
  }

  // Lost or not, the same cards result, and every other card has the same events.
  lemma SnapshotAndEventKeys(current: seq<Card>, cards: seq<Card>, o: CardEvent, id: string)
    requires Good(current) && UniqueIDs(cards)
    ensures var eventFirst := MergeLiveTaskRunCards(ApplyCardEvent(current, o), Some(cards));
            var snapshotFirst := ApplyCardEvent(MergeLiveTaskRunCards(current, Some(cards)), o);
            && IDs(eventFirst) == IDs(snapshotFirst)
            && (EventKeys(eventFirst, id) == EventKeys(snapshotFirst, id) <==>
                !(id == o.cardID && id in IDs(cards) && id !in IDs(current) && Key(o.event) !in EventKeys(cards, id)))
  {
    hide MergeLiveTaskRunCards, ApplyCardEvent, EventKeys, Good, UniqueIDs;
    GoodIsUnique(current);
    IDsAfter(current, cards, o);
    IDsAfter(ApplyCardEvent(current, o), cards, o);
    IDsAfter(MergeLiveTaskRunCards(current, Some(cards)), cards, o);
    KeysWithEvent(current, o, id);
    KeysAfterSnapshot(ApplyCardEvent(current, o), cards, id);
    KeysAfterSnapshot(current, cards, id);
    KeysWithEvent(MergeLiveTaskRunCards(current, Some(cards)), o, id);
    NoKeysWithoutCard(current, id);
  }

  lemma LostMakesADifference(current: seq<Card>, cards: seq<Card>, o: CardEvent)
    requires Good(current) && UniqueIDs(cards) && Lost(current, cards, o)
    ensures var eventFirst := MergeLiveTaskRunCards(ApplyCardEvent(current, o), Some(cards));
            var snapshotFirst := ApplyCardEvent(MergeLiveTaskRunCards(current, Some(cards)), o);
            && Key(o.event) in EventKeys(snapshotFirst, o.cardID) - EventKeys(eventFirst, o.cardID)
            && StableSort.Map(eventFirst, Plain) != StableSort.Map(snapshotFirst, Plain)
  {
    hide MergeLiveTaskRunCards, ApplyCardEvent, EventKeys, Good, UniqueIDs, Key;
    var id, live := o.cardID, ApplyCardEvent(current, o);
    var eventFirst := MergeLiveTaskRunCards(live, Some(cards));
    var snapshotFirst := ApplyCardEvent(MergeLiveTaskRunCards(current, Some(cards)), o);
    GoodIsUnique(current);
    IDsAfter(current, cards, o);
    IDsAfter(live, cards, o);
    IDsAfter(MergeLiveTaskRunCards(current, Some(cards)), cards, o);
    KeysAfterSnapshot(live, cards, id);
    KeysWithEvent(MergeLiveTaskRunCards(current, Some(cards)), o, id);
    NoKeysWithoutCard(live, id);
    if StableSort.Map(eventFirst, Plain) == StableSort.Map(snapshotFirst, Plain) {
      PlainKeys(eventFirst, snapshotFirst, id);
    }
  }

  lemma PlainKeys(a: seq<Card>, b: seq<Card>, id: string)
    requires UniqueIDs(a) && UniqueIDs(b) && StableSort.Map(a, Plain) == StableSort.Map(b, Plain)
    ensures EventKeys(a, id) == EventKeys(b, id)
  {
    hide Keys;
    assert forall i :: 0 <= i < |a| ==> Plain(a[i]) == StableSort.Map(b, Plain)[i];
    assert forall i :: 0 <= i < |a| ==> a[i].id == b[i].id && a[i].events == b[i].events;
    if id in IDs(a) {
      var i :| 0 <= i < |a| && a[i].id == id;
      FindAt(a, i);
      FindAt(b, i);
    }
    assert id in IDs(b) ==> id in IDs(a);
  }

  lemma NothingLost(current: seq<Card>, cards: seq<Card>, o: CardEvent)
    requires Good(current) && UniqueIDs(cards) && !Lost(current, cards, o)
    ensures StableSort.Map(MergeLiveTaskRunCards(ApplyCardEvent(current, o), Some(cards)), Plain) ==
            StableSort.Map(ApplyCardEvent(MergeLiveTaskRunCards(current, Some(cards)), o), Plain)
  {
    hide Good, UniqueIDs, Lost, StableSort.Sort, MergedWith, WithEvent;
    var add := (c: Card) => WithEvent(c, o);
    var each, live := MergeEach(current, cards), MergeEach(ApplyCardEvent(current, o), cards);
    OrderStays(o);
    StableSort.SortMapped(live, Before, Plain);
    StableSort.SortMapped(each, Before, add);
    StableSort.SortMapped(StableSort.Map(each, add), Before, Plain);
    assert ApplyCardEvent(StableSort.Sort(each, Before), o) == StableSort.Map(StableSort.Sort(each, Before), add);
    forall i | 0 <= i < |cards| ensures Plain(live[i]) == Plain(WithEvent(each[i], o)) {
      CardsCommute(current, cards, o, i);
    }
    assert StableSort.Map(live, Plain) == StableSort.Map(StableSort.Map(each, add), Plain);
  }

  lemma OrderStays(o: CardEvent)
    ensures forall a, b :: Before(Plain(a), Plain(b)) == Before(a, b)
    ensures forall a, b :: Before(WithEvent(a, o), WithEvent(b, o)) == Before(a, b)
  {
  }

  lemma CardsCommute(current: seq<Card>, cards: seq<Card>, o: CardEvent, i: nat)
    requires Good(current) && UniqueIDs(cards) && !Lost(current, cards, o) && i < |cards|
    ensures Plain(MergedWith(cards[i], Find(ApplyCardEvent(current, o), cards[i].id))) ==
            Plain(WithEvent(MergedWith(cards[i], Find(current, cards[i].id)), o))
  {
    hide ApplyCardEvent, UniqueIDs, Good, Merged, Keys, Key, SourceSessionID, OrElse;
    var card, existing := cards[i], Find(current, cards[i].id);
    GoodIsUnique(current);
    FindAfterEvent(current, o, card.id);
    if card.id == o.cardID {
      if existing.Some? {
        var had := existing.value.events;
        MergedOnce(card.events, had + [o.event]);
        MergedFirst(card.events + had, [o.event]);
        assert card.events + had + [o.event] == card.events + (had + [o.event]);
      } else {
        FindAt(cards, i);
        MergedFirst(card.events, []);
        MergedStep(card.events, o.event);
        MergedKeys(card.events);
        assert card.events + [] == card.events;
        KeysAt(cards, i);
        MergedAgain(card.events, o.event);
      }
    }
  }

  lemma KeysAt(cards: seq<Card>, i: nat)
    requires UniqueIDs(cards) && i < |cards|
    ensures EventKeys(cards, cards[i].id) == Keys(cards[i].events) && cards[i].id in IDs(cards)
  {
    FindAt(cards, i);
  }

  lemma MergedAgain(s: seq<Event>, e: Event)
    requires Key(e) in Keys(s)
    ensures Merged(Merged(s) + [e]) == Merged(s)
  {
    hide Key, Keys;
    MergedKeys(s);
    MergedDistinct(Merged(s));
    MergedStep(Merged(s), e);
  }

  // Merging what is merged already, at the front or at the end, makes no difference.
  lemma {:induction false} MergedFirst(a: seq<Event>, b: seq<Event>)
    ensures Merged(Merged(a) + b) == Merged(a + b)
    decreases |b|
  {
    hide Key, Keys;
    if b == [] {
      MergedKeys(a);
      MergedDistinct(Merged(a));
      assert Merged(a) + b == Merged(a) && a + b == a;
    } else {
      var front, e := b[..|b| - 1], b[|b| - 1];
      assert a + b == a + front + [e] && Merged(a) + b == Merged(a) + front + [e];
      MergedFirst(a, front);
      MergedStep(a + front, e);
      MergedStep(Merged(a) + front, e);
    }
  }

  lemma {:induction false} MergedOnce(a: seq<Event>, b: seq<Event>)
    ensures Merged(a + Merged(b)) == Merged(a + b)
    decreases |b|
  {
    hide Key, Keys;
    if b == [] {
      NothingMerged();
    } else {
      var front, e := b[..|b| - 1], b[|b| - 1];
      assert b == front + [e] && a + b == a + front + [e];
      MergedOnce(a, front);
      MergedStep(front, e);
      MergedStep(a + front, e);
      if Key(e) in Keys(Merged(front)) {
        KeyStays(a, front, Key(e));
      } else {
        assert a + (Merged(front) + [e]) == a + Merged(front) + [e];
        MergedStep(a + Merged(front), e);
      }
    }
  }

  lemma KeyStays(a: seq<Event>, b: seq<Event>, key: string)
    requires key in Keys(Merged(b))
    ensures key in Keys(Merged(a + b))
  {
    MergedKeys(b);
    MergedKeys(a + b);
    KeysOfConcat(a, b);
  }

  // A concrete case: an event for a card that is not listed yet is dropped, and the
  // snapshot that brings the card does not bring the event.
  lemma EarlyEventIsLost()
    ensures var card := Card("c", 0, 0, "running", "", "", "", "", "", "", []);
            var o := CardEvent("c", Event("e", "", ""), "");
            && MergeLiveTaskRunCards(ApplyCardEvent([], o), Some([card])) == [card]
            && EventKeys(ApplyCardEvent(MergeLiveTaskRunCards([], Some([card])), o), "c") == {"e"}
  {
    hide StableSort.Sort;
    var card := Card("c", 0, 0, "running", "", "", "", "", "", "", []);
    var o := CardEvent("c", Event("e", "", ""), "");
    var none: seq<Card> := [];
    assert ApplyCardEvent(none, o) == none && Trim("e") == "e";
    NothingMerged();
    assert MergedWith(card, None) == card && MergeEach(none, [card]) == [card];
    OneSorted(card);
    KeysAt([card], 0);
    KeysWithEvent([card], o, "c");
  }

  lemma OneSorted(card: Card)
    ensures StableSort.Sort([card], Before) == [card] && UniqueIDs([card])
  {
    assert StableSort.Sort([card], Before) == StableSort.Insert([], card, Before) by {
      assert [card][..0] == [];
    }
  }

  lemma GoodIsUnique(cards: seq<Card>)
    requires Good(cards)
    ensures UniqueIDs(cards)
  {
  }

  lemma NoKeysWithoutCard(cards: seq<Card>, id: string)
    ensures id !in IDs(cards) ==> EventKeys(cards, id) == {}
  {
  }

  // A step that neither restarts a card nor is a snapshot without it.
  predicate Keeps(step: Step, id: string) {
    && (step.Started? ==> step.card.id != id)
    && (step.Snapshot? && step.cards.Some? ==> id in IDs(step.cards.value))
  }

  lemma FindAfterStart(cards: seq<Card>, card: Card, id: string)
    requires Good(cards) && id != card.id
    ensures Find(ApplyStartedCard(cards, card), id) == Find(cards, id)
  {
    hide Hydrated, Keys, Merged, StableSort.Sort;
    var rest := Without(cards, card.id);
    WithoutIsUnique(cards, card.id);
    assert forall i :: 0 <= i < |rest| ==> rest[i] in rest;
    FindSorted(rest + [Hydrated(card)], id);
    assert (rest + [Hydrated(card)])[..|rest|] == rest;
    if Find(cards, id).Some? {
      FindMember(rest, Find(cards, id).value);
    } else {
      assert forall i :: 0 <= i < |rest| ==> rest[i] in cards;
    }
  }

  // A card that is started is listed, as it was announced and with its events, whether
  // or not it was listed before; and no other card comes or goes.
  lemma StartedCardIsListed(cards: seq<Card>, card: Card)
    requires Good(cards)
    ensures var after := ApplyStartedCard(cards, card);
            && IDs(after) == IDs(cards) + {card.id}
            && (exists c :: Find(after, card.id) == Some(c) &&
                            c == card.(liveSessionID := c.liveSessionID, events := c.events))
            && EventKeys(after, card.id) == Keys(card.events)
  {
    hide Keys, Merged, StableSort.Sort, Good;
    var after := ApplyStartedCard(cards, card);
    StartedFound(cards, card);
    MergedKeys(card.events);
    forall id ensures id in IDs(after) <==> id in IDs(cards) || id == card.id {
      if id != card.id { FindAfterStart(cards, card, id); }
    }
    assert Find(after, card.id) == Some(Hydrated(card));
  }

  lemma StartedFound(cards: seq<Card>, card: Card)
    requires Good(cards)
    ensures Find(ApplyStartedCard(cards, card), card.id) == Some(Hydrated(card))
  {
    hide Hydrated, Keys, Merged, StableSort.Sort;
    var rest := Without(cards, card.id);
    WithoutIsUnique(cards, card.id);
    assert forall i :: 0 <= i < |rest| ==> rest[i] in rest;
    FindSorted(rest + [Hydrated(card)], card.id);
  }

  // A card of a snapshot is shown as the snapshot has it, with the session that the
  // snapshot gives, or that its events name last, or that it was shown live from before.
  lemma SnapshotCardIsShown(current: seq<Card>, cards: seq<Card>, id: string)
    requires UniqueIDs(cards) && id in IDs(cards)
    ensures var card, after := Find(cards, id).value, Find(MergeLiveTaskRunCards(current, Some(cards)), id);
            after.Some? &&
            var shown := after.value;
            && shown == card.(liveSessionID := shown.liveSessionID, events := shown.events)
            && Keys(shown.events) == EventKeys(cards, id) + EventKeys(current, id)
            && (card.sourceSessionID != "" ==> shown.liveSessionID == card.sourceSessionID)
            && (card.sourceSessionID == "" ==>
                  (shown.liveSessionID != "" && LastNamed(shown.events, shown.liveSessionID)) ||
                  (LastNamed(shown.events, "") && LiveFrom(Find(current, id), shown.liveSessionID)))
  {
    hide Keys, Merged, Trim;
    FindAfterSnapshot(current, cards, id);
    KeysAfterSnapshot(current, cards, id);
    SourceSessionIsLastNamed(Find(MergeLiveTaskRunCards(current, Some(cards)), id).value.events);
  }

  predicate LiveFrom(card: Option<Card>, sessionID: string) {
    sessionID == if card.Some? then card.value.liveSessionID else ""
  }

  // A live event is added to its card, which is shown from the session that came with
  // it, if one did.
  lemma EventIsRecorded(cards: seq<Card>, o: CardEvent)
    requires UniqueIDs(cards) && o.cardID in IDs(cards)
    ensures var card, after := Find(cards, o.cardID).value, Find(ApplyCardEvent(cards, o), o.cardID);
            after.Some? &&
            var shown := after.value;
            && shown == card.(liveSessionID := shown.liveSessionID, events := shown.events)
            && Keys(shown.events) == Keys(card.events) + {Key(o.event)}
            && shown.liveSessionID == (if Trim(o.sourceSessionID) != "" then Trim(o.sourceSessionID)
                                       else card.liveSessionID)
  {
    hide Keys, Merged, Trim, Key;
    FindAfterEvent(cards, o, o.cardID);
    MergedKeys(Find(cards, o.cardID).value.events + [o.event]);
    KeysOfOneMore(Find(cards, o.cardID).value.events, o.event);
  }

  // A card that finishes takes over how it ended; its text and its session only if the
  // announcement has them. What it was before, and every other card, stays.
  lemma FinishIsRecorded(cards: seq<Card>, p: Patch, id: string)
    requires UniqueIDs(cards) && id in IDs(cards)
    ensures var card, after := Find(cards, id).value, Find(ApplyFinishedCard(cards, p), id);
            after.Some? &&
            if id != p.cardID then after.value == card
            else
              var shown := after.value;
              && (shown.status, shown.finishedAt, shown.preview, shown.error) ==
                 (p.status, p.finishedAt, p.preview, p.error)
              && (p.finalText != "" ==> shown.finalText == p.finalText)
              && (p.finalText == "" ==> shown.finalText == card.finalText)
              && (p.liveSessionID != "" ==> shown.liveSessionID == p.liveSessionID)
              && (p.liveSessionID == "" ==> shown.liveSessionID == card.liveSessionID)
              && (shown.id, shown.start, shown.order, shown.sourceSessionID, shown.events) ==
                 (card.id, card.start, card.order, card.sourceSessionID, card.events)
  {
    FoundAfterMapping(cards, ApplyFinishedCard(cards, p), id);
  }

  // A run that ends gives its status to the cards that are active, and fills in what
  // they do not say themselves; the others stay as they are.
  lemma RunEndIsRecorded(cards: seq<Card>, status: string, p: Patch, id: string)
    requires UniqueIDs(cards) && id in IDs(cards)
    ensures var card, after := Find(cards, id).value, Find(ReconcileCardsWithRunStatus(cards, status, p), id);
            after.Some? &&
            if Trim(status) in {"", "running"} || Trim(card.status) !in {"", "running"} then after.value == card
            else
              var shown := after.value;
              && shown == card.(status := Trim(status), finishedAt := shown.finishedAt, preview := shown.preview,
                                error := shown.error)
              && shown.finishedAt == (if card.finishedAt != "" then card.finishedAt else p.finishedAt)
              && shown.preview == (if card.preview != "" then card.preview else p.preview)
              && shown.error == (if card.error != "" then card.error else p.error)
  {
    hide Trim;
    FoundAfterMapping(cards, ReconcileCardsWithRunStatus(cards, status, p), id);
  }

  // Lists whose cards have the same ids one by one.
  lemma FoundAfterMapping(cards: seq<Card>, after: seq<Card>, id: string)
    requires UniqueIDs(cards) && |after| == |cards|
    requires forall i :: 0 <= i < |cards| ==> after[i].id == cards[i].id
    ensures id !in IDs(cards) ==> Find(cards, id) == None == Find(after, id)
    ensures id in IDs(cards) ==>
              exists i :: 0 <= i < |cards| && Find(cards, id) == Some(cards[i]) && Find(after, id) == Some(after[i])
  {
    if id in IDs(cards) {
      var i :| 0 <= i < |cards| && cards[i].id == id;
      FindAt(cards, i);
      FindAt(after, i);
    }
  }

  // What becomes of one card in a step, whatever the others are.
  function OneCard(c: Option<Card>, step: Step, id: string): Option<Card> {
    match step
    case Snapshot(None) => c
    case Snapshot(Some(cards)) =>
      var card := Find(cards, id);
      if card.Some? then Some(MergedWith(card.value, c)) else None
    case Started(card) => if card.id == id then Some(Hydrated(card)) else c
    case EventArrived(o) => if c.Some? then Some(WithEvent(c.value, o)) else None
    case Finished(p) => if c.Some? then Some(WithPatch(c.value, p)) else None
    case RunStatus(status, p) =>
      if c.None? || Trim(status) == "" || Trim(status) == "running" then c else Some(Ended(c.value, Trim(status), p))
  }

  function OneCardAfter(c: Option<Card>, steps: seq<Step>, id: string): Option<Card>
    decreases |steps|
  {
    if steps == [] then c else OneCardAfter(OneCard(c, steps[0], id), steps[1..], id)
  }

  // Over every run, each card goes its own way: a step does to the card of an id what
  // it would do if there were no other.
  lemma {:induction false} EveryCardOnItsOwn(cards: seq<Card>, steps: seq<Step>, id: string)
    requires Good(cards) && forall step :: step in steps ==> WellFormed(step)
    ensures Find(Run(cards, steps), id) == OneCardAfter(Find(cards, id), steps, id)
    decreases |steps|
  {
    hide Good, Apply, OneCard;
    if steps != [] {
      StepIsGood(cards, steps[0]);
      OneCardStep(cards, steps[0], id);
      EveryCardOnItsOwn(Apply(cards, steps[0]), steps[1..], id);
    }
  }

  lemma OneCardStep(cards: seq<Card>, step: Step, id: string)
    requires Good(cards) && WellFormed(step)
    ensures Find(Apply(cards, step), id) == OneCard(Find(cards, id), step, id)
  {
    hide Hydrated, MergedWith, WithEvent, WithPatch, Ended, Trim;
    match step
    case Snapshot(some) => if some.Some? { FindAfterSnapshot(cards, some.value, id); }
    case Started(card) => if card.id == id { StartedFound(cards, card); } else { FindAfterStart(cards, card, id); }
    case EventArrived(o) => FindAfterEvent(cards, o, id);
    case Finished(p) => SameIDs(p, "", p); FoundAfterMapping(cards, ApplyFinishedCard(cards, p), id);
    case RunStatus(status, p) =>
      SameIDs(p, Trim(status), p);
      FoundAfterMapping(cards, ReconcileCardsWithRunStatus(cards, status, p), id);
  }

  lemma SameIDs(p: Patch, status: string, ending: Patch)
    ensures forall c :: WithPatch(c, p).id == c.id && Ended(c, status, ending).id == c.id
  {
  }

  lemma {:induction false} KeysAfterStep(cards: seq<Card>, step: Step, id: string)
    requires Good(cards) && WellFormed(step) && Keeps(step, id) && id in IDs(cards)
    ensures id in IDs(Apply(cards, step)) && EventKeys(cards, id) <= EventKeys(Apply(cards, step), id)
    ensures step.EventArrived? && step.event.cardID == id ==> Key(step.event.event) in EventKeys(Apply(cards, step), id)
  {
    match step
    case Snapshot(some) =>
      if some.Some? {
        IDsAfter(cards, some.value, CardEvent("", Event("", "", ""), ""));
        KeysAfterSnapshot(cards, some.value, id);
      }
    case Started(card) => FindAfterStart(cards, card, id);
    case EventArrived(event) =>
      IDsAfter(cards, [], event);
      KeysWithEvent(cards, event, id);
    case Finished(patch) => SameEvents(cards, ApplyFinishedCard(cards, patch), id);
    case RunStatus(status, ending) => SameEvents(cards, ReconcileCardsWithRunStatus(cards, status, ending), id);
  }

  lemma SameEvents(cards: seq<Card>, after: seq<Card>, id: string)
    requires UniqueIDs(cards) && |after| == |cards| && id in IDs(cards)
    requires forall i :: 0 <= i < |cards| ==> after[i].id == cards[i].id && after[i].events == cards[i].events
    ensures id in IDs(after) && EventKeys(after, id) == EventKeys(cards, id)
  {
    var i :| 0 <= i < |cards| && cards[i].id == id;
    assert after[i].id == id;
    FindAt(cards, i);
    FindAt(after, i);
  }

  // An event delivered to a card is on it for as long as the card is neither
  // restarted nor left out of a snapshot, whatever arrives in between.
  lemma {:induction false} DeliveredEventsStay(cards: seq<Card>, steps: seq<Step>, id: string)
    requires Good(cards) && id in IDs(cards)
    requires forall step :: step in steps ==> WellFormed(step) && Keeps(step, id)
    ensures id in IDs(Run(cards, steps)) && EventKeys(cards, id) <= EventKeys(Run(cards, steps), id)
    ensures forall step :: step in steps && step.EventArrived? && step.event.cardID == id ==>
              Key(step.event.event) in EventKeys(Run(cards, steps), id)
    decreases |steps|
  {
    if steps != [] {
      StepIsGood(cards, steps[0]);
      KeysAfterStep(cards, steps[0], id);
      DeliveredEventsStay(Apply(cards, steps[0]), steps[1..], id);
    }
  }
}
