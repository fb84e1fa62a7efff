// What the entries of a synchronisation state say after loading, reconciling or
// changing it, field by field.
module ProviderSyncEntries {
  import opened Text
  import opened ProviderSync

  // ----------------------------------------------------------------- loading

  // Two entries stand for one provider: they have one id, or no id and one name.
  predicate SameProvider(lower: Lower, a: Entry, b: Entry) {
    if TrimSpace(a.providerID) != "" then TrimSpace(b.providerID) == TrimSpace(a.providerID)
    else TrimSpace(b.providerID) == "" && LowerName(lower, a) != "" && LowerName(lower, b) == LowerName(lower, a)
  }

  predicate IsTrimmed(e: Entry, entry: Entry) {
    && e.providerID == TrimSpace(entry.providerID) && e.name == TrimSpace(entry.name)
    && e.updatedAt == TrimSpace(entry.updatedAt) && e.deletedAt == TrimSpace(entry.deletedAt)
  }

  lemma KeysOfOneProvider(lower: Lower, a: Entry, b: Entry)
    ensures Key(lower, a) != "" ==> (Key(lower, a) == Key(lower, b) <==> SameProvider(lower, a, b))
    ensures Key(lower, a) == "" <==> TrimSpace(a.providerID) == "" && LowerName(lower, a) == ""
  {
    hide TrimSpace;
    var x, y := Key(lower, a), Key(lower, b);
    if TrimSpace(a.providerID) != "" {
      assert x[3..] == TrimSpace(a.providerID) && x[0] == 'i';
      if TrimSpace(b.providerID) != "" { assert y[3..] == TrimSpace(b.providerID); }
    } else if x != "" {
      assert x[5..] == LowerName(lower, a) && x[0] == 'n';
      if TrimSpace(b.providerID) == "" && y != "" { assert y[5..] == LowerName(lower, b); }
    }
  }

  lemma TrimmingKeepsKey(lower: Lower, e: Entry)
    ensures Key(lower, TrimEntry(e)) == Key(lower, e)
  {
    TrimSpaceTwice(e.providerID);
    TrimSpaceTwice(e.name);
  }

  // The keys of what is loaded are those of the entries.
  lemma {:induction false} KeysAreKept(lower: Lower, es: seq<Entry>, k: string)
    ensures k in Keys(lower, Normalized(lower, es)) <==> k != "" && exists i :: 0 <= i < |es| && Key(lower, es[i]) == k
  {
    hide Key, TrimSpace, TrimEntry;
    if es != [] {
      var front, n := es[..|es| - 1], |es| - 1;
      KeysAreKept(lower, front, k);
      KeysAreKept(lower, front, Key(lower, es[n]));
      TrimmingKeepsKey(lower, es[n]);
      KeysOfOneMore(lower, Normalized(lower, front), TrimEntry(es[n]));
      assert forall i :: 0 <= i < n ==> front[i] == es[i];
      if k in Keys(lower, Normalized(lower, front)) {
        var i :| 0 <= i < n && Key(lower, front[i]) == k;
        assert Key(lower, es[i]) == k;
      }
    }
  }

  // `e` is the entry at `i`, trimmed, and no earlier one stands for its provider.
  ghost predicate FirstAt(lower: Lower, es: seq<Entry>, e: Entry, i: int) {
    && 0 <= i < |es| && Identified(lower, es[i]) && IsTrimmed(e, es[i])
    && forall j :: 0 <= j < i ==> !SameProvider(lower, es[i], es[j])
  }

  predicate Identified(lower: Lower, e: Entry) {
    TrimSpace(e.providerID) != "" || LowerName(lower, e) != ""
  }

  lemma FirstAtEnd(lower: Lower, es: seq<Entry>, e: Entry)
    requires es != []
    ensures var front, last := es[..|es| - 1], es[|es| - 1];
            FirstAt(lower, es, e, |es| - 1) <==>
              && e == TrimEntry(last) && Key(lower, last) != ""
              && Key(lower, last) !in Keys(lower, Normalized(lower, front))
  {
    hide Key, TrimSpace, LowerName, SameProvider, Normalized, Keys;
    var front, n := es[..|es| - 1], |es| - 1;
    KeysAreKept(lower, front, Key(lower, es[n]));
    assert forall i :: 0 <= i < n ==> front[i] == es[i];
    KeysOfOneProvider(lower, es[n], es[n]);
    forall j | 0 <= j < n && Key(lower, es[n]) != ""
      ensures Key(lower, front[j]) == Key(lower, es[n]) <==> SameProvider(lower, es[n], es[j])
    {
      KeysOfOneProvider(lower, es[n], es[j]);
    }
    assert IsTrimmed(e, es[n]) <==> e == TrimEntry(es[n]);
  }

  // Loading keeps the first entry of every provider, trimmed, and nothing else.
  lemma {:induction false} FirstEntryIsKept(lower: Lower, es: seq<Entry>, e: Entry)
    ensures e in Normalized(lower, es) <==> exists i :: FirstAt(lower, es, e, i)
  {
    hide Key, TrimSpace, SameProvider, Identified, IsTrimmed, Keys, TrimEntry;
    if es != [] {
      var front, n := es[..|es| - 1], |es| - 1;
      FirstEntryIsKept(lower, front, e);
      FirstAtEnd(lower, es, e);
      TrimmingKeepsKey(lower, es[n]);
      forall i | 0 <= i < n ensures FirstAt(lower, es, e, i) <==> FirstAt(lower, front, e, i) {
        assert forall j :: 0 <= j <= i ==> front[j] == es[j];
      }
      if i :| FirstAt(lower, front, e, i) { assert FirstAt(lower, es, e, i); }
      if i :| FirstAt(lower, es, e, i) { assert i < n ==> FirstAt(lower, front, e, i); }
    }
  }

  // Entries keep their order: more of them only add at the end.
  lemma {:induction false} LoadingKeepsOrder(lower: Lower, es: seq<Entry>, n: nat)
    requires n <= |es|
    ensures Normalized(lower, es[..n]) <= Normalized(lower, es)
    decreases |es|
  {
    hide Key, TrimEntry, Keys;
    if n == |es| {
      assert es[..n] == es;
    } else {
      var front := es[..|es| - 1];
      assert front[..n] == es[..n];
      LoadingKeepsOrder(lower, front, n);
    }
  }

  // ------------------------------------------------------------- reconciling

  // The time that a change is stamped with: the one that comes with it, or now.
  predicate StampedWith(stamp: string, given: string, now: string) {
    stamp == if TrimSpace(given) != "" then TrimSpace(given) else now
  }

  // The entry of a provider that is gone becomes a tombstone with the time of its last
  // update, or now if it has none; one that is a tombstone already stays as it is.
  lemma GoneEntryIsBuried(lower: Lower, es: seq<Entry>, active: seq<Record>, ids: seq<string>, now: string, k: nat)
    requires |active| <= |ids| && k < |Normalized(lower, es)|
    requires var e := Normalized(lower, es)[k];
             && LowerName(lower, e) !in ActiveNames(lower, active)
             && (e.providerID == "" || e.providerID !in OwnIDs(active))
    ensures var e, state := Normalized(lower, es)[k], Reconcile(lower, es, active, ids, now).0;
            && k < |state| && state[k].providerID == e.providerID && state[k].name == e.name
            && (LowerName(lower, e) == "" || e.deletedAt != "" ==> state[k] == e)
            && (LowerName(lower, e) != "" && e.deletedAt == "" ==>
                  state[k].updatedAt == state[k].deletedAt == if e.updatedAt != "" then e.updatedAt else now)
  {
    hide ActivateAll, TrimSpace, DistinctKeys, Key, Normalized;
    var start := Normalized(lower, es);
    NormalizedIsTidy(lower, es);
    TidyMeansTrimmed(lower, start[k]);
    OtherEntriesStay(lower, start, active, ids, now, k);
  }

  // An entry of the start that has the id or the name of a record.
  predicate IsEntryOf(lower: Lower, e: Entry, r: Record) {
    (Own(r) != "" && e.providerID == Own(r)) || LowerName(lower, e) == Lowered(lower, r)
  }

  // The entry of a configured provider: the one it had, or a new one after them all. An
  // id that is there stays, and so does the time of the last update of a live entry.
  predicate EntryFor(lower: Lower, start: seq<Entry>, r: Record, id: string, now: string, p: int, e: Entry) {
    && (p < |start| ==> 0 <= p && IsEntryOf(lower, start[p], r))
    && e.name == TrimSpace(r.name) && e.deletedAt == ""
    && e.providerID == (if 0 <= p < |start| && start[p].providerID != "" then start[p].providerID
                        else if Own(r) != "" then Own(r) else id)
    && if 0 <= p < |start| && start[p].updatedAt != "" && start[p].deletedAt == ""
       then e.updatedAt == start[p].updatedAt
       else StampedWith(e.updatedAt, r.updatedAt, now)
  }

  lemma ActivateStamps(lower: Lower, es: seq<Entry>, r: Record, id: string, now: string, k: int)
    requires KeepsText(lower) && Tidy(lower, es) && Named(r) && -1 <= k < |es| && Finds(lower, es, r, k)
    ensures var after, p := Activate(lower, es, r, id, now).0, At(es, k);
            && p < |after| && after[p].deletedAt == ""
            && if k >= 0 && es[k].updatedAt != "" && es[k].deletedAt == "" then after[p].updatedAt == es[k].updatedAt
               else StampedWith(after[p].updatedAt, r.updatedAt, now)
  {
    hide TidyEntry, DistinctKeys, Key, KeepsText, Find, Finds, TrimSpace;
    FindFinds(lower, es, r, k);
    if k >= 0 { TidyMeansTrimmed(lower, es[k]); }
  }

  // Before record `i` comes, no other record takes its id, nor the entry with it.
  lemma {:induction false} OwnEntryWaits(lower: Lower, start: seq<Entry>, active: seq<Record>,
    ids: seq<string>, now: string, i: nat, q: nat, m: nat)
    requires KeepsText(lower) && Ready(lower, start, active, ids, now) && !AnyContested(lower, start, active)
    requires m <= i < |active| && Named(active[i]) && Own(active[i]) != ""
    requires var es := After(lower, start, active, ids, now, m); q < |es| && es[q].providerID == Own(active[i])
    ensures q < |start| && After(lower, start, active, ids, now, m)[q] == start[q]
  {
    hide Tidy, KeepsText, TrimSpace, LowerName, After, Ready, Finds, Opened;
    ReadyBounds(lower, start, active, ids, now);
    if m == 0 {
      NothingHappened(lower, start, active, ids, now);
    } else if Named(active[m - 1]) {
      var es := After(lower, start, active, ids, now, m - 1);
      var k := StepOpens(lower, start, active, ids, now, m - 1);
      OthersApartIn(lower, start, active, ids, now, i, m - 1);
      assert Own(active[i]) in OwnIDs(active);
      OpenedElsewhere(lower, es, After(lower, start, active, ids, now, m), active[m - 1], ids[m - 1], At(es, k), q,
                      Own(active[i]));
      OwnEntryWaits(lower, start, active, ids, now, i, q, m - 1);
      if At(es, k) == q { TakenIsContested(lower, start, active, ids, now, m - 1, i, q); }
      OpenedLeaves(lower, es, After(lower, start, active, ids, now, m), active[m - 1], ids[m - 1], At(es, k), q);
    } else {
      StepNothing(lower, start, active, ids, now, m - 1);
      OwnEntryWaits(lower, start, active, ids, now, i, q, m - 1);
    }
  }

  // A record that finds an entry with the id of a later record contests it.
  lemma TakenIsContested(lower: Lower, start: seq<Entry>, active: seq<Record>, ids: seq<string>, now: string,
    j: nat, i: nat, q: nat)
    requires KeepsText(lower) && Ready(lower, start, active, ids, now) && j < i < |active|
    requires Named(active[i]) && Named(active[j]) && Own(active[i]) != ""
    requires var es := After(lower, start, active, ids, now, j);
             q < |es| && Finds(lower, es, active[j], q) && es[q].providerID == Own(active[i])
    ensures AnyContested(lower, start, active)
  {
    hide Tidy, KeepsText, TrimSpace, LowerName, After, Ready, Finds;
    ReadyBounds(lower, start, active, ids, now);
    OthersApartIn(lower, start, active, ids, now, i, j);
    NotByID(lower, After(lower, start, active, ids, now, j), active[j], q, Own(active[i]));
    FoundByName(lower, start, active, ids, now, j, q);
    assert Contested(lower, start, active, j, i, q);
  }

  lemma NothingHappened(lower: Lower, start: seq<Entry>, active: seq<Record>, ids: seq<string>, now: string)
    requires |active| <= |ids|
    ensures After(lower, start, active, ids, now, 0) == start
  {
  }

  lemma OthersApartIn(lower: Lower, start: seq<Entry>, active: seq<Record>, ids: seq<string>, now: string,
    i: nat, m: nat)
    requires Ready(lower, start, active, ids, now) && i < |active| && m < |active| && i != m
    requires Named(active[i]) && Named(active[m])
    ensures Lowered(lower, active[m]) != Lowered(lower, active[i])
    ensures Own(active[m]) == "" || Own(active[m]) != Own(active[i])
  {
    hide Tidy, FreshIDs;
    OthersApart(lower, active, i, m);
  }

  // An entry with an id that the record does not bring had it before.
  lemma OpenedElsewhere(lower: Lower, es: seq<Entry>, after: seq<Entry>, r: Record, id: string, p: nat, q: nat,
    own: string)
    requires Opened(lower, es, after, r, id, p) && q < |after| && after[q].providerID == own != ""
    requires own != Own(r) && own != id
    ensures q < |es| && es[q].providerID == own
  {
    hide LowerName, TrimSpace, Settled;
  }

  lemma OpenedLeaves(lower: Lower, es: seq<Entry>, after: seq<Entry>, r: Record, id: string, p: nat, q: nat)
    requires Opened(lower, es, after, r, id, p) && q < |es| && p != q
    ensures q < |after| && after[q] == es[q]
  {
    hide LowerName, TrimSpace, Settled;
  }

  lemma NotByID(lower: Lower, es: seq<Entry>, r: Record, k: int, own: string)
    requires 0 <= k < |es| && Finds(lower, es, r, k) && es[k].providerID == own && (Own(r) == "" || Own(r) != own)
    ensures Own(r) == "" || Own(r) !in IDs(es)
  {
    hide LowerName, TrimSpace;
  }

  // What record `i` makes of its entry, at the place `p`.
  lemma OpensItsEntry(lower: Lower, start: seq<Entry>, active: seq<Record>, ids: seq<string>, now: string, i: nat)
    returns (p: nat)
    requires KeepsText(lower) && Ready(lower, start, active, ids, now) && !AnyContested(lower, start, active)
    requires i < |active| && Named(active[i])
    ensures var after := After(lower, start, active, ids, now, i + 1);
            && p < |after| && EntryFor(lower, start, active[i], ids[i], now, p, after[p])
            && LowerName(lower, after[p]) == Lowered(lower, active[i])
            && after[p].providerID !in LaterIDs(active, i + 1)
  {
    hide Tidy, KeepsText, TrimSpace, LowerName, After, Ready, Activate, Settled;
    ReadyBounds(lower, start, active, ids, now);
    var es, r := After(lower, start, active, ids, now, i), active[i];
    var k := StepOpens(lower, start, active, ids, now, i);
    p := At(es, k);
    AfterOneMore(lower, start, active, ids, now, i);
    ActivateStamps(lower, es, r, ids[i], now, k);
    OwnIsNotLaterOf(lower, start, active, ids, now, i);
    LaterIsOwn(active, i + 1);
    if k >= 0 {
      FoundIsNotLater(lower, start, active, ids, now, i, k);
      if Own(r) != "" && Own(r) in IDs(es) {
        OwnEntryWaits(lower, start, active, ids, now, i, k, i);
      } else {
        FoundByName(lower, start, active, ids, now, i, k);
      }
    } else {
      FromStartAfter(lower, start, active, ids, now, i);
      AtLeastStart(lower, start, es, ActiveNames(lower, active[..i]));
    }
  }

  lemma LaterIsOwn(active: seq<Record>, m: nat)
    ensures LaterIDs(active, m) <= OwnIDs(active)
  {
  }

  lemma AtLeastStart(lower: Lower, start: seq<Entry>, es: seq<Entry>, names: set<string>)
    requires FromStart(lower, start, es, names)
    ensures |start| <= |es|
  {
  }

  // Later records leave that entry alone.
  lemma {:induction false} StaysOpened(lower: Lower, start: seq<Entry>, active: seq<Record>,
    ids: seq<string>, now: string, i: nat, p: nat, m: nat)
    requires KeepsText(lower) && Ready(lower, start, active, ids, now) && i < m <= |active| && Named(active[i])
    requires var after := After(lower, start, active, ids, now, i + 1);
             && p < |after| && LowerName(lower, after[p]) == Lowered(lower, active[i])
             && after[p].providerID !in LaterIDs(active, i + 1)
    ensures var es := After(lower, start, active, ids, now, m);
            p < |es| && es[p] == After(lower, start, active, ids, now, i + 1)[p]
  {
    hide Tidy, KeepsText, TrimSpace, LowerName, After, Ready, Opened, Finds;
    ReadyBounds(lower, start, active, ids, now);
    if m > i + 1 {
      StaysOpened(lower, start, active, ids, now, i, p, m - 1);
      if Named(active[m - 1]) {
        var k := StepOpens(lower, start, active, ids, now, m - 1);
        OthersApartIn(lower, start, active, ids, now, i, m - 1);
        assert Own(active[m - 1]) != "" ==> Own(active[m - 1]) in LaterIDs(active, i + 1);
        EntryStays(lower, After(lower, start, active, ids, now, m - 1), After(lower, start, active, ids, now, m),
                   active[m - 1], ids[m - 1], k, p);
      } else {
        StepNothing(lower, start, active, ids, now, m - 1);
      }
    }
  }

  // After reconciling, every configured provider has its entry, unless entries are
  // contested.
  lemma {:induction false} ConfiguredEntryIs(lower: Lower, es: seq<Entry>, active: seq<Record>,
    ids: seq<string>, now: string, i: nat)
    requires KeepsText(lower) && Ready(lower, Normalized(lower, es), active, ids, now)
    requires !AnyContested(lower, Normalized(lower, es), active) && i < |active| && Named(active[i])
    ensures var state := Reconcile(lower, es, active, ids, now).0;
            exists p :: 0 <= p < |state| && EntryFor(lower, Normalized(lower, es), active[i], ids[i], now, p, state[p])
  {
    hide Normalized, Ready, KeepsText, AnyContested, EntryFor, ActivateAll, TrimSpace, Own;
    var start, n, names := Normalized(lower, es), |active|, ActiveNames(lower, active);
    ReadyBounds(lower, start, active, ids, now);
    var p := OpensItsEntry(lower, start, active, ids, now, i);
    StaysOpened(lower, start, active, ids, now, i, p, n);
    var live := After(lower, start, active, ids, now, n);
    assert active[..n] == active;
    BuriedAt(lower, live, names, now, p);
    ActiveNameIsIn(lower, active, i);
    BuryingSparesActive(lower, live[p], names, now);
    var state := Reconcile(lower, es, active, ids, now).0;
    assert state[p] == live[p];
  }

  // ------------------------------------------------------- changing one entry

  // The entry that a change means: the one with its id if there is one, else the first
  // with the prior name if there is one, else the first with the new name.
  predicate IsMeant(lower: Lower, es: seq<Entry>, c: Change, k: int) {
    var byID := TrimSpace(c.providerID) != "" && exists i :: 0 <= i < |es| && HasID(TrimSpace(c.providerID))(es[i]);
    var byPrior := FirstNamed(lower, es, c.lookupName, |es|);
    if byID then 0 <= k < |es| && HasID(TrimSpace(c.providerID))(es[k])
    else if byPrior then 0 <= k < |es| && IsNamed(lower, es[k], c.lookupName) && !FirstNamed(lower, es, c.lookupName, k)
    else if k < 0 then !FirstNamed(lower, es, c.nextName, |es|)
    else k < |es| && IsNamed(lower, es[k], c.nextName) && !FirstNamed(lower, es, c.nextName, k)
  }

  // One of the first `n` entries bears the name.
  predicate FirstNamed(lower: Lower, es: seq<Entry>, name: string, n: nat)
    requires n <= |es|
  {
    exists i :: 0 <= i < n && IsNamed(lower, es[i], name)
  }

  predicate IsNamed(lower: Lower, e: Entry, name: string) {
    lower(TrimSpace(name)) != "" && lower(TrimSpace(e.name)) == lower(TrimSpace(name))
  }

  // A search that is not by id yields the first entry that bears the name.
  lemma SearchByName(lower: Lower, es: seq<Entry>, providerID: string, name: string)
    requires TrimSpace(providerID) == "" || First(es, HasID(TrimSpace(providerID))) < 0
    ensures var k := Find(lower, es, providerID, name);
            if k < 0 then !FirstNamed(lower, es, name, |es|)
            else FirstNamed(lower, es, name, |es|) && IsNamed(lower, es[k], name) && !FirstNamed(lower, es, name, k)
  {
    hide TrimSpace;
    var target := lower(TrimSpace(name));
    if target != "" {
      assert forall i :: 0 <= i < |es| ==> (HasName(lower, target)(es[i]) <==> IsNamed(lower, es[i], name));
    }
  }

  lemma MeantIsMeant(lower: Lower, es: seq<Entry>, c: Change)
    ensures IsMeant(lower, es, c, Meant(lower, es, c))
  {
    hide TrimSpace, IsNamed, FirstNamed, LowerName;
    var id := TrimSpace(c.providerID);
    var k := First(es, HasID(id));
    if id == "" || k < 0 {
      SearchByName(lower, es, c.providerID, c.lookupName);
      SearchByName(lower, es, c.providerID, c.nextName);
    }
  }

  // Changing an entry replaces the one that is meant, or adds one: under the new name,
  // with the id it had, or the one given, or a new one, and stamped with the time of the
  // change, which is that of its deletion if it is deleted.
  lemma {:induction false} ChangedEntryIs(lower: Lower, es: seq<Entry>, c: Change, id: string, now: string)
    ensures var start, state := Normalized(lower, es), Upsert(lower, es, c, id, now);
            exists k, e ::
              && IsMeant(lower, start, c, k) && state == (if k < 0 then start + [e] else start[k := e])
              && e.name == TrimSpace(c.nextName) && StampedWith(e.updatedAt, c.updatedAt, now)
              && e.deletedAt == (if c.deleted then e.updatedAt else "")
              && e.providerID == (if k >= 0 && start[k].providerID != "" then start[k].providerID
                                  else if TrimSpace(c.providerID) != "" then TrimSpace(c.providerID) else id)
  {
    hide Normalized, Meant, TrimSpace, IsMeant;
    var start := Normalized(lower, es);
    var k := Meant(lower, start, c);
    MeantIsMeant(lower, start, c);
    NormalizedIsTidy(lower, es);
    BlankTrims();
    if k >= 0 { TidyMeansTrimmed(lower, start[k]); }
    var e := Changed(if k < 0 then Entry("", "", "", "") else start[k], c, id, now);
    assert IsMeant(lower, start, c, k) && Upsert(lower, es, c, id, now) == if k < 0 then start + [e] else start[k := e];
  }
}
