// The synchronisation state of providers: one entry for every provider, live or
// deleted, brought into line with the providers that are configured
// (core/bridge/config/provider_sync_store.go).
module ProviderSync {
  import opened Text

  datatype Record = Record(name: string, providerID: string, updatedAt: string)

  datatype Entry = Entry(providerID: string, name: string, updatedAt: string, deletedAt: string)

  // `strings.ToLower`; only blank text becomes blank.
  type Lower = string -> string

  ghost predicate KeepsText(lower: Lower) {
    forall s :: lower(s) == "" <==> s == ""
  }

  // `chooseProviderSyncID` and `chooseProviderSyncTimestamp`.
  function Choose(raw: string, fallback: string): string {
    if TrimSpace(raw) != "" then TrimSpace(raw) else fallback
  }

  // ------------------------------------------------------------- normalizing

  function TrimEntry(e: Entry): Entry {
    Entry(TrimSpace(e.providerID), TrimSpace(e.name), TrimSpace(e.updatedAt), TrimSpace(e.deletedAt))
  }

  function Key(lower: Lower, e: Entry): string {
    if TrimSpace(e.providerID) != "" then "id:" + TrimSpace(e.providerID)
    else if lower(TrimSpace(e.name)) != "" then "name:" + lower(TrimSpace(e.name))
    else ""
  }

  function Keys(lower: Lower, es: seq<Entry>): set<string> {
    set i | 0 <= i < |es| :: Key(lower, es[i])
  }

  // Entries without a key are dropped, and those with the key of an earlier one.
  function Normalized(lower: Lower, es: seq<Entry>): seq<Entry> {
    if es == [] then []
    else
      var front, e := Normalized(lower, es[..|es| - 1]), TrimEntry(es[|es| - 1]);
      if Key(lower, e) == "" || Key(lower, e) in Keys(lower, front) then front else front + [e]
  }

  method NormalizeProviderSyncState(lower: Lower, providers: seq<Entry>) returns (out: seq<Entry>)
    ensures out == Normalized(lower, providers)
  {
    hide Key, TrimEntry;
    var seen: set<string> := {};
    out := [];
    for i := 0 to |providers|
      invariant out == Normalized(lower, providers[..i]) && seen == Keys(lower, out)
    {
      assert providers[..i + 1][..i] == providers[..i];
      var entry := TrimEntry(providers[i]);
      var key := Key(lower, entry);
      if key == "" || key in seen {
        continue;
      }
      KeysOfOneMore(lower, out, entry);
      seen := seen + {key};
      out := out + [entry];
    }
    assert providers[..|providers|] == providers;
  }

  lemma KeysOfOneMore(lower: Lower, es: seq<Entry>, e: Entry)
    ensures Keys(lower, es + [e]) == Keys(lower, es) + {Key(lower, e)}
  {
    hide Key;
    var next := es + [e];
    assert next[|es|] == e && forall i :: 0 <= i < |es| ==> next[i] == es[i];
  }

  predicate TidyEntry(lower: Lower, e: Entry) {
    TrimEntry(e) == e && Key(lower, e) != ""
  }

  predicate DistinctKeys(lower: Lower, es: seq<Entry>) {
    forall i, j :: 0 <= i < j < |es| ==> Key(lower, es[i]) != Key(lower, es[j])
  }

  // What loading the state from its file yields.
  predicate Tidy(lower: Lower, es: seq<Entry>) {
    DistinctKeys(lower, es) && forall i :: 0 <= i < |es| ==> TidyEntry(lower, es[i])
  }

  lemma TrimEntryTwice(e: Entry)
    ensures TrimEntry(TrimEntry(e)) == TrimEntry(e)
  {
    TrimSpaceTwice(e.providerID);
    TrimSpaceTwice(e.name);
    TrimSpaceTwice(e.updatedAt);
    TrimSpaceTwice(e.deletedAt);
  }

  lemma {:induction false} NormalizedIsTidy(lower: Lower, es: seq<Entry>)
    ensures Tidy(lower, Normalized(lower, es))
  {
    hide Key, TrimEntry;
    if es != [] {
      var front := Normalized(lower, es[..|es| - 1]);
      NormalizedIsTidy(lower, es[..|es| - 1]);
      TrimEntryTwice(es[|es| - 1]);
      assert forall i :: 0 <= i < |front| ==> Key(lower, front[i]) in Keys(lower, front);
    }
  }

  // Writing a tidy state and loading it again gives it back.
  lemma {:induction false} TidyIsNormalized(lower: Lower, es: seq<Entry>)
    requires Tidy(lower, es)
    ensures Normalized(lower, es) == es
  {
    hide Key, TrimEntry;
    if es != [] {
      var front, e := es[..|es| - 1], es[|es| - 1];
      assert es == front + [e] && forall i :: 0 <= i < |front| ==> front[i] == es[i];
      TidyIsNormalized(lower, front);
    }
  }

  // ----------------------------------------------------------------- finding

  function First(es: seq<Entry>, p: Entry -> bool): (r: int)
    ensures -1 <= r < |es|
    ensures r >= 0 ==> p(es[r]) && forall i :: 0 <= i < r ==> !p(es[i])
    ensures r < 0 ==> forall i :: 0 <= i < |es| ==> !p(es[i])
  {
    if es == [] then -1
    else if p(es[0]) then 0
    else
      var rest := First(es[1..], p);
      assert forall i :: 1 <= i < |es| ==> es[i] == es[1..][i - 1];
      if rest < 0 then -1 else rest + 1
  }

  function HasID(id: string): Entry -> bool {
    (e: Entry) => TrimSpace(e.providerID) == id
  }

  function LowerName(lower: Lower, e: Entry): string {
    lower(TrimSpace(e.name))
  }

  function HasName(lower: Lower, name: string): Entry -> bool {
    (e: Entry) => LowerName(lower, e) == name
  }

  // By id if the record has one that is known, else by name.
  function Find(lower: Lower, es: seq<Entry>, providerID: string, name: string): (r: int)
    ensures -1 <= r < |es|
  {
    var id, target := TrimSpace(providerID), lower(TrimSpace(name));
    if id != "" && First(es, HasID(id)) >= 0 then First(es, HasID(id))
    else if target == "" then -1
    else First(es, HasName(lower, target))
  }

  method FindProviderSyncEntryValue(lower: Lower, entries: seq<Entry>, providerID: string, name: string)
    returns (entry: Entry, ok: bool)
    ensures ok <==> Find(lower, entries, providerID, name) >= 0
    ensures ok ==> entry == entries[Find(lower, entries, providerID, name)]
  {
    var id := TrimSpace(providerID);
    if id != "" {
      for i := 0 to |entries|
        invariant forall k :: 0 <= k < i ==> !HasID(id)(entries[k])
      {
        if TrimSpace(entries[i].providerID) == id {
          return entries[i], true;
        }
      }
    }
    var targetName := lower(TrimSpace(name));
    if targetName == "" {
      return Entry("", "", "", ""), false;
    }
    for i := 0 to |entries|
      invariant forall k :: 0 <= k < i ==> !HasName(lower, targetName)(entries[k])
    {
      if lower(TrimSpace(entries[i].name)) == targetName {
        return entries[i], true;
      }
    }
    return Entry("", "", "", ""), false;
  }

  method FindProviderSyncEntry(lower: Lower, entries: seq<Entry>, providerID: string, name: string) returns (r: int)
    ensures r == Find(lower, entries, providerID, name)
  {
    var entry, ok := FindProviderSyncEntryValue(lower, entries, providerID, name);
    if ok {
      for i := 0 to |entries|
        invariant forall k :: 0 <= k < i ==> entries[k] != entry
      {
        if entries[i] == entry {
          return i;
        }
      }
    }
    return -1;
  }

  // ------------------------------------------------------------- reconciling

  predicate NeedsRefresh(e: Entry, name: string) {
    TrimSpace(e.providerID) == "" || e.name != name || TrimSpace(e.updatedAt) == "" || TrimSpace(e.deletedAt) != ""
  }

  function Refreshed(e: Entry, r: Record, id: string, now: string): Entry {
    Entry(if TrimSpace(e.providerID) == "" then Choose(r.providerID, id) else e.providerID,
          TrimSpace(r.name),
          if TrimSpace(e.updatedAt) == "" || TrimSpace(e.deletedAt) != "" then Choose(r.updatedAt, now)
          else e.updatedAt,
          if TrimSpace(e.deletedAt) != "" then "" else e.deletedAt)
  }

  // One configured provider: its entry is opened, or brought back and up to date.
  // `id` is the id that would be generated for it.
  function Activate(lower: Lower, es: seq<Entry>, r: Record, id: string, now: string): (seq<Entry>, bool) {
    var name := TrimSpace(r.name);
    var k := Find(lower, es, r.providerID, name);
    if name == "" then (es, false)
    else if k < 0 then (es + [Entry(Choose(r.providerID, id), name, Choose(r.updatedAt, now), "")], true)
    else (es[k := Refreshed(es[k], r, id, now)], NeedsRefresh(es[k], name))
  }

  function ActivateAll(lower: Lower, es: seq<Entry>, active: seq<Record>,
    ids: seq<string>, now: string): (seq<Entry>, bool)
    requires |active| <= |ids|
    decreases |active|
  {
    if active == [] then (es, false)
    else
      var n := |active| - 1;
      var (front, changed) := ActivateAll(lower, es, active[..n], ids, now);
      var (after, here) := Activate(lower, front, active[n], ids[n], now);
      (after, changed || here)
  }

  function ActiveNames(lower: Lower, active: seq<Record>): set<string> {
    set i | 0 <= i < |active| && TrimSpace(active[i].name) != "" :: lower(TrimSpace(active[i].name))
  }

  predicate NeedsTombstone(lower: Lower, e: Entry, names: set<string>) {
    LowerName(lower, e) != "" && LowerName(lower, e) !in names && TrimSpace(e.deletedAt) == ""
  }

  function Buried(lower: Lower, e: Entry, names: set<string>, now: string): Entry {
    if !NeedsTombstone(lower, e, names) then e
    else
      var at := Choose(e.updatedAt, now);
      e.(deletedAt := at, updatedAt := if TrimSpace(e.updatedAt) == "" then at else e.updatedAt)
  }

  function BuryAll(lower: Lower, es: seq<Entry>, names: set<string>, now: string): seq<Entry> {
    seq(|es|, i requires 0 <= i < |es| => Buried(lower, es[i], names, now))
  }

  predicate AnyNeedsTombstone(lower: Lower, es: seq<Entry>, names: set<string>) {
    exists i :: 0 <= i < |es| && NeedsTombstone(lower, es[i], names)
  }

  function Reconcile(lower: Lower, es: seq<Entry>, active: seq<Record>,
    ids: seq<string>, now: string): (seq<Entry>, bool)
    requires |active| <= |ids|
  {
    var names := ActiveNames(lower, active);
    var (live, changed) := ActivateAll(lower, Normalized(lower, es), active, ids, now);
    (BuryAll(lower, live, names, now), changed || AnyNeedsTombstone(lower, live, names))
  }

  method ReconcileProviderSyncState(lower: Lower, providers: seq<Entry>, active: seq<Record>,
    ids: seq<string>, now: string)
    returns (state: seq<Entry>, changed: bool)
    requires |active| <= |ids|
    ensures (state, changed) == Reconcile(lower, providers, active, ids, now)
  {
    state := NormalizeProviderSyncState(lower, providers);
    var activeNames: set<string>;
    state, changed, activeNames := ActivateRecords(lower, state, active, ids, now);
    var buried;
    state, buried := BuryInactive(lower, state, activeNames, now);
    changed := changed || buried;
  }

  // The first loop: over the configured providers.
  method ActivateRecords(lower: Lower, start: seq<Entry>, active: seq<Record>, ids: seq<string>, now: string)
    returns (state: seq<Entry>, changed: bool, activeNames: set<string>)
    requires |active| <= |ids|
    ensures (state, changed) == ActivateAll(lower, start, active, ids, now)
    ensures activeNames == ActiveNames(lower, active)
  {
    hide Find, LowerName, TrimSpace, ActiveNames;
    state := start;
    changed := false;
    activeNames := {};
    NoNames(lower);
    for i := 0 to |active|
      invariant (state, changed) == ActivateAll(lower, start, active[..i], ids, now)
      invariant activeNames == ActiveNames(lower, active[..i])
    {
      var record := active[i];
      assert active[..i + 1][..i] == active[..i];
      NamesOfOneMore(lower, active[..i], record);
      assert active[..i + 1] == active[..i] + [record];
      var name := TrimSpace(record.name);
      if name == "" {
        continue;
      }
      activeNames := activeNames + {lower(name)};
      var index := FindProviderSyncEntry(lower, state, record.providerID, name);
      if index < 0 {
        state := state + [Entry(Choose(record.providerID, ids[i]), name, Choose(record.updatedAt, now), "")];
        changed := true;
        continue;
      }
      var entry, touched := RefreshEntry(state[index], record, name, ids[i], now);
      changed := changed || touched;
      state := state[index := entry];
    }
    assert active[..|active|] == active;
  }

  // The second loop: entries whose provider is gone become tombstones.
  method BuryInactive(lower: Lower, live: seq<Entry>, activeNames: set<string>, now: string)
    returns (state: seq<Entry>, changed: bool)
    ensures state == BuryAll(lower, live, activeNames, now)
    ensures changed == AnyNeedsTombstone(lower, live, activeNames)
  {
    hide TrimSpace;
    state := live;
    changed := false;
    for i := 0 to |state|
      invariant |state| == |live|
      invariant forall k :: 0 <= k < i ==> state[k] == Buried(lower, live[k], activeNames, now)
      invariant forall k :: i <= k < |live| ==> state[k] == live[k]
      invariant changed <==> exists k :: 0 <= k < i && NeedsTombstone(lower, live[k], activeNames)
    {
      var entry := state[i];
      var name := lower(TrimSpace(entry.name));
      if name == "" || name in activeNames {
        continue;
      }
      if TrimSpace(entry.deletedAt) == "" {
        assert NeedsTombstone(lower, live[i], activeNames);
        var at := Choose(entry.updatedAt, now);
        entry := entry.(deletedAt := at, updatedAt := if TrimSpace(entry.updatedAt) == "" then at else entry.updatedAt);
        state := state[i := entry];
        changed := true;
      }
    }
  }

  lemma NoNames(lower: Lower)
    ensures ActiveNames(lower, []) == {}
  {
  }

  // The entry of an active record, field by field.
  method RefreshEntry(before: Entry, record: Record, name: string, id: string, now: string)
    returns (entry: Entry, changed: bool)
    requires name == TrimSpace(record.name)
    ensures entry == Refreshed(before, record, id, now) && changed == NeedsRefresh(before, name)
  {
    entry := before;
    changed := false;
    if TrimSpace(entry.providerID) == "" {
      entry := entry.(providerID := Choose(record.providerID, id));
      changed := true;
    }
    if entry.name != name {
      entry := entry.(name := name);
      changed := true;
    }
    if TrimSpace(entry.updatedAt) == "" {
      entry := entry.(updatedAt := Choose(record.updatedAt, now));
      changed := true;
    }
    if TrimSpace(entry.deletedAt) != "" {
      entry := entry.(deletedAt := "", updatedAt := Choose(record.updatedAt, now));
      changed := true;
    }
  }

  lemma NamesOfOneMore(lower: Lower, active: seq<Record>, r: Record)
    ensures ActiveNames(lower, active + [r]) ==
            ActiveNames(lower, active) + if TrimSpace(r.name) != "" then {lower(TrimSpace(r.name))} else {}
  {
    hide TrimSpace;
    var next := active + [r];
    assert next[|active|] == r && forall i :: 0 <= i < |active| ==> next[i] == active[i];
  }

  // ------------------------------------------------------- what loading gives back

  function IDs(es: seq<Entry>): set<string> {
    set i | 0 <= i < |es| :: es[i].providerID
  }

  function OwnIDs(active: seq<Record>): set<string> {
    set i | 0 <= i < |active| :: TrimSpace(active[i].providerID)
  }

  // A generated id: not blank, and not in use.
  predicate FreshID(id: string, used: set<string>) {
    TrimSpace(id) == id != "" && id !in used
  }

  predicate FreshIDs(ids: seq<string>, used: set<string>) {
    && (forall i :: 0 <= i < |ids| ==> FreshID(ids[i], used))
    && (forall i, j :: 0 <= i < j < |ids| ==> ids[i] != ids[j])
  }

  predicate Timestamp(now: string) {
    TrimSpace(now) == now != ""
  }

  // In a tidy state, a key is the id if there is one.
  lemma KeysDiffer(lower: Lower, a: Entry, b: Entry)
    requires TidyEntry(lower, a) && TidyEntry(lower, b)
    ensures a.providerID != "" && a.providerID != b.providerID ==> Key(lower, a) != Key(lower, b)
    ensures a.providerID != "" ==> Key(lower, a) == "id:" + a.providerID
  {
    if a.providerID != "" && b.providerID == "" {
      assert ("id:" + a.providerID)[0] == 'i' && ("name:" + LowerName(lower, b))[0] == 'n';
    } else if a.providerID != "" {
      assert ("id:" + a.providerID)[3..] == a.providerID && ("id:" + b.providerID)[3..] == b.providerID;
    }
  }

  lemma NewEntryIsTidy(lower: Lower, e: Entry)
    requires TrimEntry(e) == e && e.providerID != ""
    ensures TidyEntry(lower, e)
  {
    assert ("id:" + e.providerID)[0] == 'i';
  }

  // Which id the entry of a record gets, and that no other entry has it.
  lemma ChosenID(lower: Lower, es: seq<Entry>, providerID: string, name: string, id: string)
    requires Tidy(lower, es) && FreshID(id, IDs(es))
    requires Find(lower, es, providerID, name) < 0 || es[Find(lower, es, providerID, name)].providerID == ""
    ensures var chosen := Choose(providerID, id);
            TrimSpace(chosen) == chosen != "" && chosen !in IDs(es)
  {
    hide TidyEntry, Key, DistinctKeys, TrimSpace;
    var own := TrimSpace(providerID);
    TrimSpaceTwice(providerID);
    if own != "" {
      forall i | 0 <= i < |es| ensures TrimSpace(es[i].providerID) == es[i].providerID {
        TidyMeansTrimmed(lower, es[i]);
      }
      assert forall i :: 0 <= i < |es| ==> !HasID(own)(es[i]);
    }
  }

  lemma TidyMeansTrimmed(lower: Lower, e: Entry)
    requires TidyEntry(lower, e)
    ensures TrimSpace(e.providerID) == e.providerID && TrimSpace(e.name) == e.name
    ensures TrimSpace(e.updatedAt) == e.updatedAt && TrimSpace(e.deletedAt) == e.deletedAt
  {
    assert TrimEntry(e).providerID == e.providerID;
  }

  lemma RefreshedIsTrimmed(lower: Lower, e: Entry, r: Record, id: string, now: string)
    requires TidyEntry(lower, e) && Timestamp(now) && TrimSpace(id) == id
    ensures TrimEntry(Refreshed(e, r, id, now)) == Refreshed(e, r, id, now)
  {
    TidyMeansTrimmed(lower, e);
    TrimSpaceTwice(r.providerID);
    TrimSpaceTwice(r.name);
    TrimSpaceTwice(r.updatedAt);
    assert TrimSpace("") == "";
  }

  lemma ReplacedKeysDiffer(lower: Lower, es: seq<Entry>, k: nat, e: Entry)
    requires Tidy(lower, es) && k < |es| && TidyEntry(lower, e) && e.providerID != ""
    requires e.providerID == es[k].providerID || e.providerID !in IDs(es)
    ensures Tidy(lower, es[k := e])
  {
    hide TidyEntry, Key;
    forall i | 0 <= i < |es| && i != k ensures Key(lower, e) != Key(lower, es[i]) {
      KeysDiffer(lower, e, es[i]);
      KeysDiffer(lower, es[k], es[i]);
      KeysDiffer(lower, es[k], es[k]);
    }
    assert forall i :: 0 <= i < |es| ==> es[k := e][i] == if i == k then e else es[i];
  }

  lemma AddedKeyDiffers(lower: Lower, es: seq<Entry>, e: Entry)
    requires Tidy(lower, es) && TidyEntry(lower, e) && e.providerID != "" && e.providerID !in IDs(es)
    ensures Tidy(lower, es + [e])
  {
    hide TidyEntry, Key;
    forall i | 0 <= i < |es| ensures Key(lower, e) != Key(lower, es[i]) {
      KeysDiffer(lower, e, es[i]);
    }
  }

  lemma {:induction false} ActivateKeepsTidy(lower: Lower, es: seq<Entry>, r: Record, id: string, now: string)
    requires Tidy(lower, es) && FreshID(id, IDs(es)) && Timestamp(now)
    ensures Tidy(lower, Activate(lower, es, r, id, now).0)
    ensures IDs(Activate(lower, es, r, id, now).0) <= IDs(es) + {id, TrimSpace(r.providerID)}
  {
    hide TidyEntry, Key, DistinctKeys, TrimSpace, Find, TrimEntry;
    var name := TrimSpace(r.name);
    var k := Find(lower, es, r.providerID, name);
    if name != "" && k < 0 {
      ChosenID(lower, es, r.providerID, name, id);
      var e := Entry(Choose(r.providerID, id), name, Choose(r.updatedAt, now), "");
      NewIsTrimmed(e, r, id, now);
      NewEntryIsTidy(lower, e);
      AddedKeyDiffers(lower, es, e);
      assert forall i :: 0 <= i < |es| ==> es[i].providerID in IDs(es);
    } else if name != "" {
      var e := Refreshed(es[k], r, id, now);
      RefreshedIsTrimmed(lower, es[k], r, id, now);
      TidyMeansTrimmed(lower, es[k]);
      if es[k].providerID == "" { ChosenID(lower, es, r.providerID, name, id); }
      NewEntryIsTidy(lower, e);
      ReplacedKeysDiffer(lower, es, k, e);
      assert forall i :: 0 <= i < |es| ==> es[i].providerID in IDs(es);
    }
  }

  lemma NewIsTrimmed(e: Entry, r: Record, id: string, now: string)
    requires Timestamp(now) && TrimSpace(id) == id
    requires e == Entry(Choose(r.providerID, id), TrimSpace(r.name), Choose(r.updatedAt, now), "")
    ensures TrimEntry(e) == e
  {
    TrimSpaceTwice(r.providerID);
    TrimSpaceTwice(r.name);
    TrimSpaceTwice(r.updatedAt);
    assert TrimSpace("") == "";
  }

  function IDSet(ids: seq<string>): set<string> {
    set i | 0 <= i < |ids| :: ids[i]
  }

  lemma {:induction false} ActivateAllKeepsTidy(lower: Lower, es: seq<Entry>, active: seq<Record>,
    ids: seq<string>, now: string)
    requires Tidy(lower, es) && Timestamp(now) && |active| <= |ids| && FreshIDs(ids, IDs(es) + OwnIDs(active))
    ensures Tidy(lower, ActivateAll(lower, es, active, ids, now).0)
    ensures IDs(ActivateAll(lower, es, active, ids, now).0) <= IDs(es) + OwnIDs(active) + IDSet(ids[..|active|])
    decreases |active|
  {
    hide Tidy, TrimSpace, Activate;
    if active != [] {
      var n := |active| - 1;
      var front := active[..n];
      assert OwnIDs(front) <= OwnIDs(active) by { assert forall i :: 0 <= i < n ==> front[i] == active[i]; }
      ActivateAllKeepsTidy(lower, es, front, ids, now);
      var state := ActivateAll(lower, es, front, ids, now).0;
      assert forall i :: 0 <= i < n ==> ids[..n][i] == ids[i] == ids[..n + 1][i];
      assert ids[..n + 1][n] == ids[n];
      assert TrimSpace(active[n].providerID) in OwnIDs(active);
      ActivateKeepsTidy(lower, state, active[n], ids[n], now);
    }
  }

  lemma BuryKeepsTidy(lower: Lower, es: seq<Entry>, names: set<string>, now: string)
    requires Tidy(lower, es) && Timestamp(now)
    ensures Tidy(lower, BuryAll(lower, es, names, now))
  {
    hide Key, LowerName, TrimSpace;
    forall i | 0 <= i < |es|
      ensures TidyEntry(lower, Buried(lower, es[i], names, now))
      ensures Key(lower, Buried(lower, es[i], names, now)) == Key(lower, es[i])
    {
      BuriedIsTidy(lower, es[i], names, now);
    }
  }

  lemma BuriedIsTidy(lower: Lower, e: Entry, names: set<string>, now: string)
    requires TidyEntry(lower, e) && Timestamp(now)
    ensures TidyEntry(lower, Buried(lower, e, names, now)) && Key(lower, Buried(lower, e, names, now)) == Key(lower, e)
  {
    TidyMeansTrimmed(lower, e);
  }

  // What reconciling yields is what writing it and loading it again would yield,
  // for any records, with or without ids of their own.
  lemma {:induction false} ReconciledIsTidy(lower: Lower, es: seq<Entry>, active: seq<Record>,
    ids: seq<string>, now: string)
    requires |active| <= |ids| && Timestamp(now)
    requires FreshIDs(ids, IDs(Normalized(lower, es)) + OwnIDs(active))
    ensures var state := Reconcile(lower, es, active, ids, now).0;
            Tidy(lower, state) && Normalized(lower, state) == state
  {
    hide Tidy, Normalized, ActivateAll, BuryAll, FreshIDs;
    var start := Normalized(lower, es);
    NormalizedIsTidy(lower, es);
    ActivateAllKeepsTidy(lower, start, active, ids, now);
    var live := ActivateAll(lower, start, active, ids, now).0;
    BuryKeepsTidy(lower, live, ActiveNames(lower, active), now);
    TidyIsNormalized(lower, BuryAll(lower, live, ActiveNames(lower, active), now));
  }

  // ------------------------------------------------------- reconciling once more

  predicate NoOwnIDs(active: seq<Record>) {
    forall i :: 0 <= i < |active| ==> TrimSpace(active[i].providerID) == ""
  }

  // How the last record with a name writes it.
  function Spelling(lower: Lower, active: seq<Record>, name: string): string {
    if active == [] then ""
    else
      var own := TrimSpace(active[|active| - 1].name);
      if own != "" && lower(own) == name then own else Spelling(lower, active[..|active| - 1], name)
  }

  // Nothing is missing from the entry of a configured provider.
  predicate Settled(e: Entry) {
    TrimSpace(e.providerID) != "" && TrimSpace(e.updatedAt) != "" && TrimSpace(e.deletedAt) == ""
  }

  predicate SettledAs(lower: Lower, es: seq<Entry>, name: string, spelling: string) {
    var k := First(es, HasName(lower, name));
    k >= 0 && Settled(es[k]) && es[k].name == spelling
  }

  // The first entry with a name stays the first while names stay.
  lemma FirstStays(lower: Lower, es: seq<Entry>, after: seq<Entry>, name: string)
    requires |es| <= |after| && First(es, HasName(lower, name)) >= 0
    requires forall i :: 0 <= i < |es| ==> LowerName(lower, after[i]) == LowerName(lower, es[i])
    ensures First(after, HasName(lower, name)) == First(es, HasName(lower, name))
  {
    hide LowerName;
    var k := First(es, HasName(lower, name));
    assert HasName(lower, name)(after[k]) by { assert HasName(lower, name)(es[k]); }
    assert forall i :: 0 <= i < k ==> !HasName(lower, name)(es[i]);
    assert forall i :: 0 <= i < k ==> !HasName(lower, name)(after[i]);
  }

  // What activating a record without an id of its own does.
  lemma {:induction false} ActivateByName(lower: Lower, es: seq<Entry>, r: Record, id: string, now: string)
    requires KeepsText(lower) && TrimSpace(r.providerID) == "" && TrimSpace(r.name) != ""
    requires TrimSpace(id) == id != "" && Timestamp(now)
    ensures var name := TrimSpace(r.name);
            var after := Activate(lower, es, r, id, now).0;
            && |es| <= |after|
            && (forall i :: 0 <= i < |es| ==> LowerName(lower, after[i]) == LowerName(lower, es[i]))
            && (forall i :: 0 <= i < |es| && LowerName(lower, es[i]) != lower(name) ==> after[i] == es[i])
            && SettledAs(lower, after, lower(name), name)
  {
    var name := TrimSpace(r.name);
    var after := Activate(lower, es, r, id, now).0;
    TrimSpaceTwice(r.name);
    TrimSpaceTwice(r.updatedAt);
    assert TrimSpace("") == "";
    var k := First(es, HasName(lower, lower(name)));
    assert Find(lower, es, r.providerID, name) == k;
    assert forall i :: 0 <= i < |es| ==>
      (HasName(lower, lower(name))(es[i]) <==> LowerName(lower, es[i]) == lower(name));
    if k >= 0 {
      var e := Refreshed(es[k], r, id, now);
      assert e.name == name;
      FirstStays(lower, es, after, lower(name));
    } else {
      var e := after[|es|];
      assert HasName(lower, lower(name))(e);
      assert forall i :: 0 <= i < |es| ==> !HasName(lower, lower(name))(after[i]);
    }
  }

  lemma ActiveNamesStep(lower: Lower, active: seq<Record>)
    requires active != []
    ensures var n := |active| - 1;
            ActiveNames(lower, active) == ActiveNames(lower, active[..n]) +
            if TrimSpace(active[n].name) != "" then {lower(TrimSpace(active[n].name))} else {}
  {
    assert active == active[..|active| - 1] + [active[|active| - 1]];
    NamesOfOneMore(lower, active[..|active| - 1], active[|active| - 1]);
  }

  // After the first loop, every configured provider has a settled entry, under the
  // last spelling of its name.
  lemma {:induction false} ActivatedIsSettled(lower: Lower, es: seq<Entry>, active: seq<Record>,
    ids: seq<string>, now: string, name: string)
    requires KeepsText(lower) && NoOwnIDs(active) && |active| <= |ids| && Timestamp(now)
    requires forall i :: 0 <= i < |ids| ==> TrimSpace(ids[i]) == ids[i] != ""
    requires name in ActiveNames(lower, active)
    ensures SettledAs(lower, ActivateAll(lower, es, active, ids, now).0, name, Spelling(lower, active, name))
    decreases |active|
  {
    hide Activate, Settled, TrimSpace, ActiveNames, LowerName, KeepsText;
    if active == [] {
      NoNames(lower);
    } else {
      var n := |active| - 1;
      var r := active[n];
      ActiveNamesStep(lower, active);
      var before := ActivateAll(lower, es, active[..n], ids, now).0;
      var after := Activate(lower, before, r, ids[n], now).0;
      if TrimSpace(r.name) == "" {
        ActivateBlank(lower, before, r, ids[n], now);
        ActivatedIsSettled(lower, es, active[..n], ids, now, name);
      } else {
        ActivateByName(lower, before, r, ids[n], now);
        if name != lower(TrimSpace(r.name)) {
          ActivatedIsSettled(lower, es, active[..n], ids, now, name);
          FirstStays(lower, before, after, name);
          var k := First(before, HasName(lower, name));
          assert HasName(lower, name)(before[k]);
        }
      }
    }
  }

  lemma ActivateBlank(lower: Lower, es: seq<Entry>, r: Record, id: string, now: string)
    requires TrimSpace(r.name) == ""
    ensures Activate(lower, es, r, id, now) == (es, false)
  {
  }

  // The name that the entry at `k` bears after some of the records.
  function Renamed(lower: Lower, es: seq<Entry>, some: seq<Record>, k: nat): string
    requires k < |es|
  {
    var name := LowerName(lower, es[k]);
    if First(es, HasName(lower, name)) == k && name in ActiveNames(lower, some) then Spelling(lower, some, name)
    else es[k].name
  }

  // Every configured provider has a settled entry.
  ghost predicate AllSettled(lower: Lower, es: seq<Entry>, active: seq<Record>) {
    forall name :: name in ActiveNames(lower, active) ==>
      First(es, HasName(lower, name)) >= 0 && Settled(es[First(es, HasName(lower, name))])
  }

  lemma ActivateSettled(lower: Lower, es: seq<Entry>, r: Record, id: string, now: string)
    requires KeepsText(lower) && TrimSpace(r.providerID) == "" && TrimSpace(r.name) != ""
    requires var k := First(es, HasName(lower, lower(TrimSpace(r.name)))); k >= 0 && Settled(es[k])
    ensures var k := First(es, HasName(lower, lower(TrimSpace(r.name))));
            Activate(lower, es, r, id, now) ==
            (es[k := es[k].(name := TrimSpace(r.name))], es[k].name != TrimSpace(r.name))
  {
    TrimSpaceTwice(r.name);
  }

  // Over settled entries, the first loop only rewrites names.
  lemma {:induction false} ActivatingSettledRenames(lower: Lower, es: seq<Entry>, active: seq<Record>,
    ids: seq<string>, now: string)
    requires KeepsText(lower) && NoOwnIDs(active) && |active| <= |ids| && AllSettled(lower, es, active)
    ensures var after := ActivateAll(lower, es, active, ids, now).0;
            && |after| == |es|
            && (forall k :: 0 <= k < |es| ==> after[k] == es[k].(name := Renamed(lower, es, active, k)))
            && (forall k :: 0 <= k < |es| ==> LowerName(lower, after[k]) == LowerName(lower, es[k]))
    decreases |active|
  {
    hide Activate, Settled, TrimSpace, ActiveNames, LowerName, KeepsText;
    if active == [] {
      NoNames(lower);
    } else {
      var n := |active| - 1;
      var r := active[n];
      ActiveNamesStep(lower, active);
      ActivatingSettledRenames(lower, es, active[..n], ids, now);
      var before := ActivateAll(lower, es, active[..n], ids, now).0;
      var after := Activate(lower, before, r, ids[n], now).0;
      if TrimSpace(r.name) == "" {
        ActivateBlank(lower, before, r, ids[n], now);
      } else {
        var name := lower(TrimSpace(r.name));
        assert name in ActiveNames(lower, active);
        FirstStays(lower, es, before, name);
        var k := First(es, HasName(lower, name));
        SettledWhateverTheName(es[k], before[k]);
        ActivateSettled(lower, before, r, ids[n], now);
        LowerOfTrimmed(lower, before[k], r.name);
        assert HasName(lower, name)(es[k]);
      }
    }
  }

  lemma SettledWhateverTheName(e: Entry, f: Entry)
    requires Settled(e) && f == e.(name := f.name)
    ensures Settled(f)
  {
  }

  lemma LowerOfTrimmed(lower: Lower, e: Entry, name: string)
    ensures LowerName(lower, e.(name := TrimSpace(name))) == lower(TrimSpace(name))
  {
    TrimSpaceTwice(name);
  }

  // Over settled entries, it reports a change exactly if a record writes its name
  // in another way than its entry.
  lemma {:induction false} ChangedBySpelling(lower: Lower, es: seq<Entry>, active: seq<Record>,
    ids: seq<string>, now: string)
    requires KeepsText(lower) && NoOwnIDs(active) && |active| <= |ids| && AllSettled(lower, es, active)
    ensures ActivateAll(lower, es, active, ids, now).1 <==>
            exists i :: 0 <= i < |active| && Respelled(lower, es, active[i])
    ensures !ActivateAll(lower, es, active, ids, now).1 ==> ActivateAll(lower, es, active, ids, now).0 == es
    decreases |active|
  {
    hide Activate, Settled, TrimSpace, ActiveNames, LowerName, KeepsText, Respelled;
    if active != [] {
      var n := |active| - 1;
      var r, front := active[n], active[..n];
      ActiveNamesStep(lower, active);
      ChangedBySpelling(lower, es, front, ids, now);
      assert forall i :: 0 <= i < n ==> front[i] == active[i];
      if TrimSpace(r.name) == "" {
        ActivateBlank(lower, ActivateAll(lower, es, front, ids, now).0, r, ids[n], now);
        assert !Respelled(lower, es, r) by { BlankIsNotRespelled(lower, es, r); }
      } else {
        assert lower(TrimSpace(r.name)) in ActiveNames(lower, active);
        ActivateSettled(lower, es, r, ids[n], now);
        UnchangedIsSame(lower, es, r, ids[n], now);
        RespelledMeans(lower, es, r);
      }
    }
  }

  predicate Respelled(lower: Lower, es: seq<Entry>, r: Record) {
    var k := First(es, HasName(lower, lower(TrimSpace(r.name))));
    TrimSpace(r.name) != "" && k >= 0 && es[k].name != TrimSpace(r.name)
  }

  lemma BlankIsNotRespelled(lower: Lower, es: seq<Entry>, r: Record)
    requires TrimSpace(r.name) == ""
    ensures !Respelled(lower, es, r)
  {
  }

  lemma RespelledMeans(lower: Lower, es: seq<Entry>, r: Record)
    requires TrimSpace(r.name) != "" && First(es, HasName(lower, lower(TrimSpace(r.name)))) >= 0
    ensures Respelled(lower, es, r) <==>
            es[First(es, HasName(lower, lower(TrimSpace(r.name))))].name != TrimSpace(r.name)
  {
  }

  // Two records have one name, ignoring case, and write it in different ways.
  predicate SpellingsClash(lower: Lower, active: seq<Record>) {
    exists i, j :: 0 <= i < |active| && 0 <= j < |active| && Clash(lower, active[i], active[j])
  }

  predicate Clash(lower: Lower, a: Record, b: Record) {
    && TrimSpace(a.name) != "" && TrimSpace(b.name) != ""
    && lower(TrimSpace(a.name)) == lower(TrimSpace(b.name)) && TrimSpace(a.name) != TrimSpace(b.name)
  }

  lemma {:induction false} SpellingIsFromRecord(lower: Lower, active: seq<Record>, name: string) returns (j: nat)
    requires name in ActiveNames(lower, active)
    ensures j < |active| && TrimSpace(active[j].name) != "" && lower(TrimSpace(active[j].name)) == name
    ensures Spelling(lower, active, name) == TrimSpace(active[j].name)
    decreases |active|
  {
    hide TrimSpace;
    var n := |active| - 1;
    var own := TrimSpace(active[n].name);
    if own != "" && lower(own) == name {
      j := n;
    } else {
      ActiveNamesStep(lower, active);
      j := SpellingIsFromRecord(lower, active[..n], name);
    }
  }

  // The state after one pass: every configured provider settled under its last spelling.
  lemma {:induction false} ReconciledIsSettled(lower: Lower, es: seq<Entry>, active: seq<Record>,
    ids: seq<string>, now: string, name: string)
    requires KeepsText(lower) && NoOwnIDs(active) && |active| <= |ids| && Timestamp(now)
    requires forall i :: 0 <= i < |ids| ==> TrimSpace(ids[i]) == ids[i] != ""
    requires name in ActiveNames(lower, active)
    ensures SettledAs(lower, Reconcile(lower, es, active, ids, now).0, name, Spelling(lower, active, name))
  {
    hide Settled, TrimSpace, ActiveNames, LowerName, KeepsText, Normalized, ActivateAll;
    var live := ActivateAll(lower, Normalized(lower, es), active, ids, now).0;
    var state := BuryAll(lower, live, ActiveNames(lower, active), now);
    ActivatedIsSettled(lower, Normalized(lower, es), active, ids, now, name);
    forall i | 0 <= i < |live| ensures LowerName(lower, state[i]) == LowerName(lower, live[i]) {
      BuryingKeepsName(lower, live[i], ActiveNames(lower, active), now);
    }
    FirstStays(lower, live, state, name);
    var k := First(live, HasName(lower, name));
    assert HasName(lower, name)(live[k]);
  }

  lemma BuryingKeepsName(lower: Lower, e: Entry, names: set<string>, now: string)
    ensures LowerName(lower, Buried(lower, e, names, now)) == LowerName(lower, e)
    ensures Timestamp(now) ==> !NeedsTombstone(lower, Buried(lower, e, names, now), names)
  {
    TrimSpaceTwice(e.updatedAt);
  }

  lemma BurialIsOver(lower: Lower, es: seq<Entry>, names: set<string>, now: string, later: string)
    requires Timestamp(now)
    ensures var state := BuryAll(lower, es, names, now);
            !AnyNeedsTombstone(lower, state, names) && BuryAll(lower, state, names, later) == state
  {
    hide NeedsTombstone;
    var state := BuryAll(lower, es, names, now);
    forall i | 0 <= i < |state| ensures !NeedsTombstone(lower, state[i], names) {
      BuryingKeepsName(lower, es[i], names, now);
    }
  }

  lemma SettledAgain(lower: Lower, state: seq<Entry>, active: seq<Record>, ids: seq<string>, now: string)
    requires KeepsText(lower) && NoOwnIDs(active) && |active| <= |ids|
    requires forall name :: name in ActiveNames(lower, active) ==>
               SettledAs(lower, state, name, Spelling(lower, active, name))
    ensures var (after, changed) := ActivateAll(lower, state, active, ids, now);
            after == state && (changed <==> SpellingsClash(lower, active))
  {
    hide Settled, TrimSpace, ActiveNames, LowerName, KeepsText, ActivateAll, Respelled, Clash;
    ActivatingSettledRenames(lower, state, active, ids, now);
    ChangedBySpelling(lower, state, active, ids, now);
    if i :| 0 <= i < |active| && Respelled(lower, state, active[i]) {
      var j := RespelledClashes(lower, state, active, i);
      assert Clash(lower, active[i], active[j]);
    }
    if i, j :| 0 <= i < |active| && 0 <= j < |active| && Clash(lower, active[i], active[j]) {
      ClashRespells(lower, state, active, i, j);
      assert Respelled(lower, state, active[i]) || Respelled(lower, state, active[j]);
    }
  }

  lemma {:induction false} RespelledClashes(lower: Lower, state: seq<Entry>, active: seq<Record>, i: nat)
    returns (j: nat)
    requires i < |active| && Respelled(lower, state, active[i])
    requires forall name :: name in ActiveNames(lower, active) ==>
               SettledAs(lower, state, name, Spelling(lower, active, name))
    ensures j < |active| && Clash(lower, active[i], active[j])
  {
    hide TrimSpace, LowerName, Settled;
    var name := lower(TrimSpace(active[i].name));
    assert name in ActiveNames(lower, active);
    j := SpellingIsFromRecord(lower, active, name);
  }

  lemma {:induction false} ClashRespells(lower: Lower, state: seq<Entry>, active: seq<Record>, i: nat, j: nat)
    requires i < |active| && j < |active| && Clash(lower, active[i], active[j])
    requires forall name :: name in ActiveNames(lower, active) ==>
               SettledAs(lower, state, name, Spelling(lower, active, name))
    ensures Respelled(lower, state, active[i]) || Respelled(lower, state, active[j])
  {
    hide TrimSpace, LowerName, Settled, Spelling;
    var name := lower(TrimSpace(active[i].name));
    assert name in ActiveNames(lower, active);
  }

  // Reconciling again, at any later time, never alters the state of records
  // without ids of their own; it reports a change nonetheless exactly if two
  // records write one name in different ways.
  lemma {:induction false} ReconcileTwice(lower: Lower, es: seq<Entry>, active: seq<Record>,
    ids: seq<string>, now: string,
                       laterIDs: seq<string>, later: string)
    requires KeepsText(lower) && NoOwnIDs(active) && |active| <= |ids| && |active| <= |laterIDs| && Timestamp(now)
    requires FreshIDs(ids, IDs(Normalized(lower, es)) + OwnIDs(active))
    ensures var state := Reconcile(lower, es, active, ids, now).0;
            var (again, changed) := Reconcile(lower, state, active, laterIDs, later);
            again == state && (changed <==> SpellingsClash(lower, active))
  {
    hide Normalized, ActivateAll, BuryAll, KeepsText, NoOwnIDs, Tidy, SpellingsClash, AnyNeedsTombstone;
    var names := ActiveNames(lower, active);
    var state := Reconcile(lower, es, active, ids, now).0;
    ReconciledIsTidy(lower, es, active, ids, now);
    forall name | name in names ensures SettledAs(lower, state, name, Spelling(lower, active, name)) {
      ReconciledIsSettled(lower, es, active, ids, now, name);
    }
    SettledAgain(lower, state, active, laterIDs, later);
    BurialIsOver(lower, ActivateAll(lower, Normalized(lower, es), active, ids, now).0, names, now, later);
  }

  // A pass finds nothing to do: every configured provider has its entry, and nothing
  // in it is missing or different.
  predicate UpToDate(lower: Lower, es: seq<Entry>, active: seq<Record>) {
    forall i :: 0 <= i < |active| && Named(active[i]) ==> Has(lower, es, active[i])
  }

  predicate Named(r: Record) {
    TrimSpace(r.name) != ""
  }

  predicate Has(lower: Lower, es: seq<Entry>, r: Record) {
    var k := Find(lower, es, r.providerID, TrimSpace(r.name));
    k >= 0 && !NeedsRefresh(es[k], TrimSpace(r.name))
  }

  lemma UnchangedIsSame(lower: Lower, es: seq<Entry>, r: Record, id: string, now: string)
    ensures !Activate(lower, es, r, id, now).1 ==> Activate(lower, es, r, id, now).0 == es
    ensures !Activate(lower, es, r, id, now).1 <==> (Named(r) ==> Has(lower, es, r))
  {
  }

  // A concrete case: two records that write one name in different ways.
  lemma TwoSpellingsAreReported()
    ensures var lower: Lower := s => if s == "A" then "a" else s;
            var active := [Record("a", "", ""), Record("A", "", "")];
            var state := Reconcile(lower, [], active, ["u", "v"], "now").0;
            Reconcile(lower, state, active, ["w", "z"], "later") == (state, true)
  {
    hide Reconcile, Normalized, Find;
    var lower: Lower := s => if s == "A" then "a" else s;
    var active := [Record("a", "", ""), Record("A", "", "")];
    assert TrimSpace("") == "" && TrimSpace("a") == "a" && TrimSpace("A") == "A" && TrimSpace("now") == "now";
    assert TrimSpace("u") == "u" && TrimSpace("v") == "v";
    NormalizedNothing(lower);
    assert Clash(lower, active[0], active[1]);
    ReconcileTwice(lower, [], active, ["u", "v"], "now", ["w", "z"], "later");
  }

  lemma NormalizedNothing(lower: Lower)
    ensures Normalized(lower, []) == []
  {
  }

  // What is not reported as a change needs no writing; and no change is reported
  // exactly if there was nothing to do.
  lemma UnreportedIsUnchanged(lower: Lower, es: seq<Entry>, active: seq<Record>, ids: seq<string>, now: string)
    requires |active| <= |ids|
    ensures var (state, changed) := Reconcile(lower, es, active, ids, now);
            var start := Normalized(lower, es);
            && (!changed ==> state == start)
            && (!changed <==> UpToDate(lower, start, active) &&
                              !AnyNeedsTombstone(lower, start, ActiveNames(lower, active)))
  {
    hide Normalized, ActivateAll, NeedsTombstone, UpToDate;
    UnreportedActivation(lower, Normalized(lower, es), active, ids, now);
  }

  lemma {:induction false} UnreportedActivation(lower: Lower, es: seq<Entry>, active: seq<Record>,
    ids: seq<string>, now: string)
    requires |active| <= |ids|
    ensures !ActivateAll(lower, es, active, ids, now).1 ==> ActivateAll(lower, es, active, ids, now).0 == es
    ensures !ActivateAll(lower, es, active, ids, now).1 <==> UpToDate(lower, es, active)
    decreases |active|
  {
    hide Activate, Has, Named;
    if active != [] {
      var n := |active| - 1;
      UnreportedActivation(lower, es, active[..n], ids, now);
      UnchangedIsSame(lower, es, active[n], ids[n], now);
      assert forall i :: 0 <= i < n ==> active[..n][i] == active[i];
    }
  }

  function LiveNames(lower: Lower, es: seq<Entry>): set<string> {
    set i | 0 <= i < |es| && LowerName(lower, es[i]) != "" && TrimSpace(es[i].deletedAt) == "" ::
      LowerName(lower, es[i])
  }

  // ------------------------------------------- records with ids of their own

  function Own(r: Record): string {
    TrimSpace(r.providerID)
  }

  function Lowered(lower: Lower, r: Record): string {
    lower(TrimSpace(r.name))
  }

  predicate Apart(lower: Lower, r: Record, s: Record) {
    Lowered(lower, r) != Lowered(lower, s) && (Own(r) == "" || Own(r) != Own(s))
  }

  // The records name different providers, ignoring case, and share no id.
  predicate DistinctRecords(lower: Lower, active: seq<Record>) {
    forall i, j :: 0 <= i < j < |active| && Named(active[i]) && Named(active[j]) ==>
      Apart(lower, active[i], active[j])
  }

  // What a search yields, in terms of ids and names only.
  predicate Finds(lower: Lower, es: seq<Entry>, r: Record, k: int) {
    if Own(r) != "" && Own(r) in IDs(es) then 0 <= k < |es| && es[k].providerID == Own(r)
    else if k < 0 then k == -1 && forall i :: 0 <= i < |es| ==> LowerName(lower, es[i]) != Lowered(lower, r)
    else
      && k < |es| && LowerName(lower, es[k]) == Lowered(lower, r)
      && forall i :: 0 <= i < k ==> LowerName(lower, es[i]) != Lowered(lower, r)
  }

  lemma SameIDSameEntry(lower: Lower, es: seq<Entry>, i: nat, j: nat)
    requires Tidy(lower, es) && i < |es| && j < |es|
    requires es[i].providerID == es[j].providerID != ""
    ensures i == j
  {
    hide TidyEntry, Key;
    KeysDiffer(lower, es[i], es[j]);
    KeysDiffer(lower, es[j], es[i]);
  }

  lemma FindFinds(lower: Lower, es: seq<Entry>, r: Record, k: int)
    requires KeepsText(lower) && Tidy(lower, es) && Named(r)
    ensures Finds(lower, es, r, k) <==> k == Find(lower, es, r.providerID, TrimSpace(r.name))
  {
    hide TidyEntry, DistinctKeys, Key, TrimSpace;
    TrimSpaceTwice(r.name);
    forall i | 0 <= i < |es| ensures HasID(Own(r))(es[i]) <==> es[i].providerID == Own(r) {
      TidyMeansTrimmed(lower, es[i]);
    }
    var found := Find(lower, es, r.providerID, TrimSpace(r.name));
    if Own(r) != "" && Own(r) in IDs(es) {
      if Finds(lower, es, r, k) { SameIDSameEntry(lower, es, k, found); }
    } else {
      assert forall i :: 0 <= i < |es| ==>
        (HasName(lower, Lowered(lower, r))(es[i]) <==> LowerName(lower, es[i]) == Lowered(lower, r));
    }
  }

  // What activating a record does to its entry, and that it does nothing else.
  predicate Opened(lower: Lower, es: seq<Entry>, after: seq<Entry>, r: Record, id: string, p: nat) {
    && p <= |es| && p < |after| && |after| == (if p == |es| then |es| + 1 else |es|)
    && (forall i :: 0 <= i < |es| && i != p ==> after[i] == es[i])
    && Settled(after[p]) && after[p].name == TrimSpace(r.name) && LowerName(lower, after[p]) == Lowered(lower, r)
    && after[p].providerID == (if p < |es| && es[p].providerID != "" then es[p].providerID
                               else if Own(r) != "" then Own(r) else id)
  }

  function At(es: seq<Entry>, k: int): nat {
    if k < 0 then |es| else k
  }

  lemma ActivateOpens(lower: Lower, es: seq<Entry>, r: Record, id: string, now: string, k: int)
    requires KeepsText(lower) && Tidy(lower, es) && Named(r) && Finds(lower, es, r, k)
    requires TrimSpace(id) == id != "" && Timestamp(now)
    ensures Opened(lower, es, Activate(lower, es, r, id, now).0, r, id, At(es, k))
  {
    hide TidyEntry, DistinctKeys, Key, KeepsText, Find, Finds, TrimSpace;
    FindFinds(lower, es, r, k);
    TrimSpaceTwice(r.name);
    TrimSpaceTwice(r.providerID);
    TrimSpaceTwice(r.updatedAt);
    BlankTrims();
    if k >= 0 { TidyMeansTrimmed(lower, es[k]); }
  }

  // The entry of a record is settled, and no id in `later` claims it.
  predicate BoundAt(lower: Lower, es: seq<Entry>, r: Record, later: set<string>, k: int) {
    && 0 <= k < |es| && Finds(lower, es, r, k)
    && Settled(es[k]) && es[k].name == TrimSpace(r.name) && LowerName(lower, es[k]) == Lowered(lower, r)
    && es[k].providerID !in later
  }

  ghost predicate Bound(lower: Lower, es: seq<Entry>, r: Record, later: set<string>) {
    exists k :: BoundAt(lower, es, r, later, k)
  }

  lemma BoundStays(lower: Lower, es: seq<Entry>, after: seq<Entry>, a: Record, j: int, r: Record, k: int,
    id: string, later: set<string>)
    requires BoundAt(lower, es, a, later, j) && Finds(lower, es, r, k) && Opened(lower, es, after, r, id, At(es, k))
    requires Lowered(lower, a) != Lowered(lower, r) && (Own(r) != "" ==> Own(r) in later)
    requires Own(a) == "" || (Own(a) != Own(r) && Own(a) != id)
    ensures BoundAt(lower, after, a, later, j)
  {
    hide LowerName, TrimSpace, Settled;
    if Own(a) != "" {
      assert Own(a) in IDs(after) <==> Own(a) in IDs(es) by {
        var p := At(es, k);
        if Own(a) in IDs(after) {
          var i :| 0 <= i < |after| && after[i].providerID == Own(a);
          assert i < |es| && es[i].providerID == Own(a);
        }
        if Own(a) in IDs(es) {
          var i :| 0 <= i < |es| && es[i].providerID == Own(a);
          assert after[i].providerID == Own(a);
        }
      }
    }
  }

  lemma BoundNew(lower: Lower, es: seq<Entry>, after: seq<Entry>, r: Record, k: int, id: string, later: set<string>)
    requires Finds(lower, es, r, k) && Opened(lower, es, after, r, id, At(es, k))
    requires Own(r) !in later && id !in later && (k >= 0 ==> es[k].providerID !in later)
    ensures BoundAt(lower, after, r, later, At(es, k))
  {
    hide LowerName, TrimSpace, Settled;
    var p := At(es, k);
    assert after[p].providerID in IDs(after);
    if Own(r) != "" && Own(r) !in IDs(es) && Own(r) in IDs(after) {
      var i :| 0 <= i < |after| && after[i].providerID == Own(r);
      assert i < |es| && i != p ==> es[i].providerID in IDs(es);
    }
  }

  // An entry is as it was at the start or bears one of these names; ids stay.
  predicate FromStart(lower: Lower, start: seq<Entry>, es: seq<Entry>, names: set<string>) {
    && |start| <= |es|
    && (forall q :: 0 <= q < |es| ==> (q < |start| && es[q] == start[q]) || LowerName(lower, es[q]) in names)
    && (forall q :: 0 <= q < |start| && start[q].providerID != "" ==> es[q].providerID == start[q].providerID)
  }

  // The ids of the records before and from the one at `m`.
  function EarlierIDs(active: seq<Record>, m: nat): set<string>
    requires m <= |active|
  {
    set j | 0 <= j < m && Named(active[j]) && Own(active[j]) != "" :: Own(active[j])
  }

  function LaterIDs(active: seq<Record>, m: nat): set<string> {
    set j | m <= j < |active| && Named(active[j]) && Own(active[j]) != "" :: Own(active[j])
  }

  // A record finds its entry by name, but the id of this entry is that of a later
  // record, which will take it over and rename it.
  predicate Contested(lower: Lower, es: seq<Entry>, active: seq<Record>, i: int, j: int, q: int) {
    && 0 <= i < j < |active| && Named(active[i]) && Named(active[j]) && 0 <= q < |es|
    && LowerName(lower, es[q]) == Lowered(lower, active[i])
    && es[q].providerID == Own(active[j]) != ""
    && (Own(active[i]) == "" || Own(active[i]) !in IDs(es))
  }

  ghost predicate AnyContested(lower: Lower, es: seq<Entry>, active: seq<Record>) {
    exists i, j, q :: Contested(lower, es, active, i, j, q)
  }

  // The entry at `q` bears the name of the record, and no record has its id.
  predicate Free(lower: Lower, es: seq<Entry>, active: seq<Record>, i: int, q: int) {
    && 0 <= i < |active| && 0 <= q < |es|
    && LowerName(lower, es[q]) == Lowered(lower, active[i]) && es[q].providerID !in LaterIDs(active, 0)
  }

  // The first record takes the entry, not a free one, and loses it to the second.
  predicate Robbed(lower: Lower, es: seq<Entry>, active: seq<Record>, i: int, j: int, q: int) {
    Contested(lower, es, active, i, j, q) && forall f :: 0 <= f < q ==> !Free(lower, es, active, i, f)
  }

  // The entry that is left to a record which was robbed, with nothing in it missing
  // or different.
  predicate Spare(lower: Lower, es: seq<Entry>, active: seq<Record>, i: int, f: int) {
    && Free(lower, es, active, i, f) && (forall p :: 0 <= p < f ==> !Free(lower, es, active, i, p))
    && !NeedsRefresh(es[f], TrimSpace(active[i].name))
  }

  // A record is robbed and has no spare entry.
  ghost predicate Conflict(lower: Lower, es: seq<Entry>, active: seq<Record>, i: int, j: int, q: int) {
    Robbed(lower, es, active, i, j, q) && forall f :: !Spare(lower, es, active, i, f)
  }

  ghost predicate AnyConflict(lower: Lower, es: seq<Entry>, active: seq<Record>) {
    exists i, j, q :: Conflict(lower, es, active, i, j, q)
  }

  predicate Ready(lower: Lower, start: seq<Entry>, active: seq<Record>, ids: seq<string>, now: string) {
    && Tidy(lower, start) && Timestamp(now) && |active| <= |ids|
    && FreshIDs(ids, IDs(start) + OwnIDs(active)) && DistinctRecords(lower, active)
  }

  function After(lower: Lower, start: seq<Entry>, active: seq<Record>,
    ids: seq<string>, now: string, m: nat): seq<Entry>
    requires m <= |active| <= |ids|
  {
    ActivateAll(lower, start, active[..m], ids, now).0
  }

  // One more record.
  lemma AfterOneMore(lower: Lower, start: seq<Entry>, active: seq<Record>, ids: seq<string>, now: string, m: nat)
    requires Ready(lower, start, active, ids, now) && m < |active|
    ensures var es := After(lower, start, active, ids, now, m);
            && After(lower, start, active, ids, now, m + 1) == Activate(lower, es, active[m], ids[m], now).0
            && Tidy(lower, es) && FreshID(ids[m], IDs(es))
  {
    hide Tidy, Activate, DistinctRecords, TrimSpace;
    var front := active[..m];
    assert active[..m + 1][..m] == front;
    assert OwnIDs(front) <= OwnIDs(active) by { assert forall i :: 0 <= i < m ==> front[i] == active[i]; }
    ActivateAllKeepsTidy(lower, start, front, ids, now);
    assert forall i :: 0 <= i < m ==> ids[..m][i] == ids[i];
  }

  lemma FromStartOneMore(lower: Lower, start: seq<Entry>, es: seq<Entry>, after: seq<Entry>, names: set<string>,
    r: Record, id: string, p: nat)
    requires FromStart(lower, start, es, names) && Opened(lower, es, after, r, id, p)
    ensures FromStart(lower, start, after, names + {Lowered(lower, r)})
  {
    hide LowerName, TrimSpace, Settled;
  }

  lemma IDsStay(lower: Lower, start: seq<Entry>, es: seq<Entry>, names: set<string>)
    requires FromStart(lower, start, es, names)
    ensures IDs(start) - {""} <= IDs(es)
  {
    forall id | id in IDs(start) - {""} ensures id in IDs(es) {
      var q :| 0 <= q < |start| && start[q].providerID == id;
      assert es[q].providerID == id;
    }
  }

  lemma NameIsNew(lower: Lower, active: seq<Record>, m: nat)
    requires DistinctRecords(lower, active) && m < |active| && Named(active[m])
    ensures Lowered(lower, active[m]) !in ActiveNames(lower, active[..m])
  {
    hide TrimSpace;
    var front := active[..m];
    forall i | 0 <= i < m && TrimSpace(front[i].name) != ""
      ensures lower(TrimSpace(front[i].name)) != Lowered(lower, active[m])
    {
      assert Named(active[i]) && Lowered(lower, active[i]) != Lowered(lower, active[m]);
    }
  }

  lemma NothingActivated(lower: Lower, start: seq<Entry>, active: seq<Record>, ids: seq<string>, now: string)
    requires |active| <= |ids|
    ensures FromStart(lower, start, After(lower, start, active, ids, now, 0), ActiveNames(lower, active[..0]))
  {
  }

  lemma UnnamedDoesNothing(lower: Lower, es: seq<Entry>, active: seq<Record>, ids: seq<string>, now: string, m: nat)
    requires m < |active| <= |ids| && !Named(active[m])
    ensures Activate(lower, es, active[m], ids[m], now).0 == es
    ensures LaterIDs(active, m) == LaterIDs(active, m + 1)
    ensures ActiveNames(lower, active[..m + 1]) == ActiveNames(lower, active[..m])
  {
    ActiveNamesStep(lower, active[..m + 1]);
    assert active[..m + 1][..m] == active[..m];
  }

  // What one more record does.
  lemma StepOpens(lower: Lower, start: seq<Entry>, active: seq<Record>, ids: seq<string>, now: string, m: nat)
    returns (k: int)
    requires KeepsText(lower) && Ready(lower, start, active, ids, now) && m < |active| && Named(active[m])
    ensures var es := After(lower, start, active, ids, now, m);
            var after := After(lower, start, active, ids, now, m + 1);
            && Tidy(lower, es) && -1 <= k < |es| && Finds(lower, es, active[m], k)
            && Opened(lower, es, after, active[m], ids[m], At(es, k))
            && ids[m] !in OwnIDs(active) && ids[m] != ""
  {
    hide Tidy, Activate, Finds, KeepsText, After, Opened, TrimSpace, DistinctRecords;
    var es, r := After(lower, start, active, ids, now, m), active[m];
    AfterOneMore(lower, start, active, ids, now, m);
    FreshIsTrimmed(ids[m], IDs(start) + OwnIDs(active));
    k := Find(lower, es, r.providerID, TrimSpace(r.name));
    FindFinds(lower, es, r, k);
    ActivateOpens(lower, es, r, ids[m], now, k);
  }

  lemma FreshIsTrimmed(id: string, used: set<string>)
    requires FreshID(id, used)
    ensures TrimSpace(id) == id != "" && id !in used
  {
  }

  lemma StepNothing(lower: Lower, start: seq<Entry>, active: seq<Record>, ids: seq<string>, now: string, m: nat)
    requires Ready(lower, start, active, ids, now) && m < |active| && !Named(active[m])
    ensures After(lower, start, active, ids, now, m + 1) == After(lower, start, active, ids, now, m)
    ensures EarlierIDs(active, m + 1) == EarlierIDs(active, m)
    ensures LaterIDs(active, m + 1) == LaterIDs(active, m)
    ensures ActiveNames(lower, active[..m + 1]) == ActiveNames(lower, active[..m])
  {
    hide Tidy, Activate, KeepsText, TrimSpace, DistinctRecords, FreshIDs;
    AfterOneMore(lower, start, active, ids, now, m);
    UnnamedDoesNothing(lower, After(lower, start, active, ids, now, m), active, ids, now, m);
  }

  lemma {:induction false} FromStartAfter(lower: Lower, start: seq<Entry>, active: seq<Record>,
    ids: seq<string>, now: string, m: nat)
    requires KeepsText(lower) && Ready(lower, start, active, ids, now) && m <= |active|
    ensures FromStart(lower, start, After(lower, start, active, ids, now, m), ActiveNames(lower, active[..m]))
  {
    hide Tidy, FromStart, Finds, KeepsText, After, Opened, TrimSpace, Ready, ActiveNames;
    if m == 0 {
      ReadyBounds(lower, start, active, ids, now);
      NothingActivated(lower, start, active, ids, now);
    } else {
      ReadyBounds(lower, start, active, ids, now);
      FromStartAfter(lower, start, active, ids, now, m - 1);
      if Named(active[m - 1]) {
        var k := StepOpens(lower, start, active, ids, now, m - 1);
        var es := After(lower, start, active, ids, now, m - 1);
        ActiveNamesStep(lower, active[..m]);
        assert active[..m][..m - 1] == active[..m - 1];
        FromStartOneMore(lower, start, es, After(lower, start, active, ids, now, m),
                         ActiveNames(lower, active[..m - 1]), active[m - 1], ids[m - 1], At(es, k));
      } else {
        StepNothing(lower, start, active, ids, now, m - 1);
      }
    }
  }

  lemma ReadyBounds(lower: Lower, start: seq<Entry>, active: seq<Record>, ids: seq<string>, now: string)
    requires Ready(lower, start, active, ids, now)
    ensures |active| <= |ids|
  {
  }

  // Records other than `i` are apart from it.
  lemma OthersApart(lower: Lower, active: seq<Record>, i: nat, m: nat)
    requires DistinctRecords(lower, active) && i < |active| && m < |active| && i != m
    requires Named(active[i]) && Named(active[m])
    ensures Lowered(lower, active[m]) != Lowered(lower, active[i])
    ensures Own(active[m]) == "" || Own(active[m]) != Own(active[i])
  {
    hide TrimSpace;
    if m < i { assert Apart(lower, active[m], active[i]); } else { assert Apart(lower, active[i], active[m]); }
  }

  // A record leaves an entry alone that has neither its name nor its id.
  lemma EntryStays(lower: Lower, es: seq<Entry>, after: seq<Entry>, r: Record, id: string, k: int, q: nat)
    requires Finds(lower, es, r, k) && k < |es| && Opened(lower, es, after, r, id, At(es, k)) && q < |es|
    requires LowerName(lower, es[q]) != Lowered(lower, r) && (Own(r) == "" || es[q].providerID != Own(r))
    ensures q < |after| && after[q] == es[q] && q != At(es, k)
  {
    hide LowerName, TrimSpace, Settled;
  }

  // Until record `i` comes, its name is left to the entries that bear it at the start
  // and have not been taken over under their id.
  lemma {:induction false} NameIsLeft(lower: Lower, start: seq<Entry>, active: seq<Record>,
    ids: seq<string>, now: string, i: nat, q: nat, m: nat)
    requires KeepsText(lower) && Ready(lower, start, active, ids, now) && m <= i < |active| && Named(active[i])
    requires q < |start| && LowerName(lower, start[q]) == Lowered(lower, active[i])
    requires start[q].providerID !in EarlierIDs(active, m)
    ensures var es := After(lower, start, active, ids, now, m); q < |es| && es[q] == start[q]
  {
    hide Tidy, Finds, KeepsText, Opened, TrimSpace, LowerName, After;
    if m == 0 {
      NothingActivated(lower, start, active, ids, now);
      FromStartMeans(lower, start, After(lower, start, active, ids, now, 0));
    } else {
      assert EarlierIDs(active, m - 1) <= EarlierIDs(active, m);
      NameIsLeft(lower, start, active, ids, now, i, q, m - 1);
      if Named(active[m - 1]) {
        var k := StepOpens(lower, start, active, ids, now, m - 1);
        OthersApart(lower, active, i, m - 1);
        EntryStays(lower, After(lower, start, active, ids, now, m - 1), After(lower, start, active, ids, now, m),
                   active[m - 1], ids[m - 1], k, q);
      } else {
        StepNothing(lower, start, active, ids, now, m - 1);
      }
    }
  }

  lemma FromStartMeans(lower: Lower, start: seq<Entry>, es: seq<Entry>)
    requires FromStart(lower, start, es, {})
    ensures forall q :: 0 <= q < |start| ==> q < |es| && es[q] == start[q]
  {
  }

  // Which entry record `i` comes upon, if it finds one by name.
  lemma FoundByName(lower: Lower, start: seq<Entry>, active: seq<Record>, ids: seq<string>, now: string,
    i: nat, k: nat)
    requires KeepsText(lower) && Ready(lower, start, active, ids, now) && i < |active| && Named(active[i])
    requires var es := After(lower, start, active, ids, now, i);
             k < |es| && Finds(lower, es, active[i], k) && (Own(active[i]) == "" || Own(active[i]) !in IDs(es))
    ensures var es := After(lower, start, active, ids, now, i);
            && k < |start| && es[k] == start[k] && LowerName(lower, start[k]) == Lowered(lower, active[i])
            && (forall f :: 0 <= f < k ==> !Free(lower, start, active, i, f))
            && (Own(active[i]) == "" || Own(active[i]) !in IDs(start))
  {
    hide Tidy, KeepsText, TrimSpace, LowerName, After;
    var es := After(lower, start, active, ids, now, i);
    FromStartAfter(lower, start, active, ids, now, i);
    NameIsNew(lower, active, i);
    IDsStay(lower, start, es, ActiveNames(lower, active[..i]));
    forall f | 0 <= f < k ensures !Free(lower, start, active, i, f) {
      if Free(lower, start, active, i, f) {
        FreeIsNotEarlier(active, start[f].providerID, i);
        NameIsLeft(lower, start, active, ids, now, i, f, i);
      }
    }
  }

  lemma FreeIsNotEarlier(active: seq<Record>, id: string, m: nat)
    requires m <= |active| && id !in LaterIDs(active, 0)
    ensures id !in EarlierIDs(active, m)
  {
  }

  // A record that is not robbed keeps its entry.
  lemma {:induction false} NotRobbedBinds(lower: Lower, start: seq<Entry>, active: seq<Record>,
    ids: seq<string>, now: string, i: nat, m: nat)
    requires KeepsText(lower) && Ready(lower, start, active, ids, now) && i < m <= |active| && Named(active[i])
    requires forall j, q :: !Robbed(lower, start, active, i, j, q)
    ensures Bound(lower, After(lower, start, active, ids, now, m), active[i], LaterIDs(active, m))
  {
    hide Tidy, Finds, KeepsText, Opened, TrimSpace, After, BoundAt, Robbed, LowerName;
    var es, after := After(lower, start, active, ids, now, m - 1), After(lower, start, active, ids, now, m);
    var r, id := active[m - 1], ids[m - 1];
    assert forall j :: 0 <= j < |active| ==> Own(active[j]) in OwnIDs(active);
    if !Named(r) {
      NotRobbedBinds(lower, start, active, ids, now, i, m - 1);
      StepNothing(lower, start, active, ids, now, m - 1);
    } else if m - 1 > i {
      NotRobbedBinds(lower, start, active, ids, now, i, m - 1);
      var k := StepOpens(lower, start, active, ids, now, m - 1);
      var j :| BoundAt(lower, es, active[i], LaterIDs(active, m - 1), j);
      OthersApart(lower, active, i, m - 1);
      BoundStays(lower, es, after, active[i], j, r, k, id, LaterIDs(active, m - 1));
      FewerLater(lower, after, active[i], LaterIDs(active, m - 1), LaterIDs(active, m), j);
    } else {
      var k := StepOpens(lower, start, active, ids, now, m - 1);
      if k >= 0 { FoundIsNotLater(lower, start, active, ids, now, i, k); }
      OwnIsNotLater(lower, active, i);
      BoundNew(lower, es, after, r, k, id, LaterIDs(active, m));
    }
  }

  lemma OwnIsNotLater(lower: Lower, active: seq<Record>, i: nat)
    requires DistinctRecords(lower, active) && i < |active| && Named(active[i])
    ensures Own(active[i]) !in LaterIDs(active, i + 1)
  {
    hide TrimSpace;
    forall j | i < j < |active| && Named(active[j]) && Own(active[j]) != "" ensures Own(active[j]) != Own(active[i]) {
      OthersApart(lower, active, i, j);
    }
  }

  lemma FoundIsNotLater(lower: Lower, start: seq<Entry>, active: seq<Record>, ids: seq<string>, now: string,
    i: nat, k: nat)
    requires KeepsText(lower) && Ready(lower, start, active, ids, now) && i < |active| && Named(active[i])
    requires var es := After(lower, start, active, ids, now, i); k < |es| && Finds(lower, es, active[i], k)
    ensures After(lower, start, active, ids, now, i)[k].providerID in LaterIDs(active, i + 1) ==>
              exists j, q :: Robbed(lower, start, active, i, j, q)
  {
    hide Tidy, KeepsText, TrimSpace, LowerName, After, Ready, Free;
    ReadyBounds(lower, start, active, ids, now);
    var es := After(lower, start, active, ids, now, i);
    OwnIsNotLaterOf(lower, start, active, ids, now, i);
    if es[k].providerID in LaterIDs(active, i + 1) {
      var j :| i + 1 <= j < |active| && Named(active[j]) && Own(active[j]) != "" && Own(active[j]) == es[k].providerID;
      FoundByName(lower, start, active, ids, now, i, k);
      assert Robbed(lower, start, active, i, j, k);
    }
  }

  lemma OwnIsNotLaterOf(lower: Lower, start: seq<Entry>, active: seq<Record>, ids: seq<string>, now: string, i: nat)
    requires Ready(lower, start, active, ids, now) && i < |active| && Named(active[i])
    ensures Own(active[i]) !in LaterIDs(active, i + 1)
  {
    hide Tidy, FreshIDs;
    OwnIsNotLater(lower, active, i);
  }

  // What is left for a record that is robbed: entries with its name are as they were
  // at the start, or will be taken over; the free ones are as they were.
  ghost predicate Left(lower: Lower, start: seq<Entry>, active: seq<Record>, es: seq<Entry>, i: nat, m: nat)
    requires i < |active| && m <= |active|
  {
    && (forall p :: 0 <= p < |es| && LowerName(lower, es[p]) == Lowered(lower, active[i]) ==>
          && p < |start| && LowerName(lower, start[p]) == Lowered(lower, active[i])
          && es[p].providerID == start[p].providerID && es[p].providerID !in EarlierIDs(active, m)
          && (es[p] == start[p] || es[p].providerID in LaterIDs(active, m)))
    && (forall p :: Free(lower, start, active, i, p) ==> p < |es| && es[p] == start[p])
    && (Own(active[i]) == "" || Own(active[i]) !in IDs(es))
  }

  lemma OpenedIDs(lower: Lower, es: seq<Entry>, after: seq<Entry>, r: Record, id: string, p: nat)
    requires Opened(lower, es, after, r, id, p)
    ensures IDs(after) <= IDs(es) + (if p < |es| && es[p].providerID != "" then {}
                                     else if Own(r) != "" then {Own(r)} else {id})
  {
    hide LowerName, TrimSpace, Settled;
    forall i | 0 <= i < |es| ensures es[i].providerID in IDs(es) {
    }
  }

  lemma LeftByOthers(lower: Lower, start: seq<Entry>, active: seq<Record>, es: seq<Entry>, after: seq<Entry>,
    i: nat, m: nat, k: int, id: string)
    requires i < |active| && m < |active| && i != m && Named(active[i]) && Named(active[m])
    requires Tidy(lower, es) && DistinctRecords(lower, active) && Left(lower, start, active, es, i, m)
    requires -1 <= k < |es| && Finds(lower, es, active[m], k)
    requires Opened(lower, es, after, active[m], id, At(es, k)) && id != Own(active[i])
    ensures Left(lower, start, active, after, i, m + 1)
  {
    hide Tidy, LowerName, TrimSpace, Settled, Finds, DistinctRecords;
    var r, p' := active[m], At(es, k);
    OthersApart(lower, active, i, m);
    OpenedIDs(lower, es, after, r, id, p');
    forall p | 0 <= p < |after| && LowerName(lower, after[p]) == Lowered(lower, active[i])
      ensures p < |es| && after[p] == es[p] && es[p].providerID !in {Own(r)} - {""}
    {
      assert p != p';
      if Own(r) != "" && es[p].providerID == Own(r) { FoundHere(lower, es, r, k, p); }
    }
    forall p | Free(lower, start, active, i, p) ensures p < |after| && after[p] == es[p] {
      FreeIsNotOwn(active, start[p].providerID, m);
      EntryStays(lower, es, after, r, id, k, p);
    }
  }

  lemma FoundHere(lower: Lower, es: seq<Entry>, r: Record, k: int, p: nat)
    requires Tidy(lower, es) && Finds(lower, es, r, k) && p < |es| && es[p].providerID == Own(r) != ""
    ensures k == p
  {
    hide Tidy, LowerName, TrimSpace;
    assert es[p].providerID in IDs(es);
    SameIDSameEntry(lower, es, k, p);
  }

  lemma FreeIsNotOwn(active: seq<Record>, id: string, m: nat)
    requires m < |active| && Named(active[m]) && id !in LaterIDs(active, 0)
    ensures Own(active[m]) == "" || id != Own(active[m])
  {
  }

  lemma LaterIsNotEarlier(lower: Lower, active: seq<Record>, i: nat, id: string)
    requires DistinctRecords(lower, active) && i < |active| && id in LaterIDs(active, i + 1)
    ensures id !in EarlierIDs(active, i) && id != ""
  {
    hide TrimSpace;
    var j :| i < j < |active| && Named(active[j]) && Own(active[j]) != "" && Own(active[j]) == id;
    forall k | 0 <= k < i && Named(active[k]) && Own(active[k]) != "" ensures Own(active[k]) != id {
      OthersApart(lower, active, j, k);
    }
  }

  lemma LaterOf(active: seq<Record>, i: nat, id: string)
    requires i < |active| && id in LaterIDs(active, 0) && id !in EarlierIDs(active, i) && id != Own(active[i])
    ensures id in LaterIDs(active, i + 1)
  {
    hide TrimSpace;
    var j :| 0 <= j < |active| && Named(active[j]) && Own(active[j]) != "" && Own(active[j]) == id;
    assert j > i;
  }

  // A record that is robbed takes an entry whose id is that of a later record.
  lemma TakesFromLater(lower: Lower, start: seq<Entry>, active: seq<Record>, ids: seq<string>, now: string,
    i: nat, j: nat, q: nat, k: int)
    requires KeepsText(lower) && Ready(lower, start, active, ids, now) && Robbed(lower, start, active, i, j, q)
    requires var es := After(lower, start, active, ids, now, i);
             && k < |es| && Finds(lower, es, active[i], k) && Left(lower, start, active, es, i, i)
    ensures var es := After(lower, start, active, ids, now, i);
            && 0 <= k < |start| && es[k] == start[k] && LowerName(lower, start[k]) == Lowered(lower, active[i])
            && es[k].providerID in LaterIDs(active, i + 1) && !Free(lower, start, active, i, k)
  {
    hide Tidy, KeepsText, TrimSpace, LowerName, After;
    assert Own(active[j]) in LaterIDs(active, i + 1);
    LaterIsNotEarlier(lower, active, i, Own(active[j]));
    NameIsLeft(lower, start, active, ids, now, i, q, i);
    assert 0 <= k <= q;
    FoundByName(lower, start, active, ids, now, i, k);
    assert !Free(lower, start, active, i, k) by {
      if k == q { assert Own(active[j]) in LaterIDs(active, 0); }
    }
    NotOwnHere(After(lower, start, active, ids, now, i), k, active[i]);
    LaterOf(active, i, start[k].providerID);
  }

  lemma NotOwnHere(es: seq<Entry>, k: nat, r: Record)
    requires k < |es| && (Own(r) == "" || Own(r) !in IDs(es))
    ensures Own(r) == "" || es[k].providerID != Own(r)
  {
  }

  lemma LeftByItself(lower: Lower, start: seq<Entry>, active: seq<Record>, es: seq<Entry>, after: seq<Entry>,
    i: nat, k: nat, id: string)
    requires i < |active| && Left(lower, start, active, es, i, i)
    requires k < |es| && Opened(lower, es, after, active[i], id, k)
    requires k < |start| && es[k] == start[k] && LowerName(lower, start[k]) == Lowered(lower, active[i])
    requires es[k].providerID in LaterIDs(active, i + 1) && !Free(lower, start, active, i, k)
    requires es[k].providerID !in EarlierIDs(active, i) && es[k].providerID != ""
    ensures Left(lower, start, active, after, i, i + 1)
  {
    hide LowerName, TrimSpace, Settled;
    OpenedIDs(lower, es, after, active[i], id, k);
    forall p | 0 <= p < |es| ensures Own(active[i]) == "" || es[p].providerID != Own(active[i]) {
      NotOwnHere(es, p, active[i]);
    }
  }

  lemma {:induction false} LeftAfter(lower: Lower, start: seq<Entry>, active: seq<Record>,
    ids: seq<string>, now: string, i: nat, j: nat, q: nat, m: nat)
    requires KeepsText(lower) && Ready(lower, start, active, ids, now) && m <= |active|
    requires Robbed(lower, start, active, i, j, q)
    ensures Left(lower, start, active, After(lower, start, active, ids, now, m), i, m)
  {
    hide Tidy, Finds, KeepsText, Opened, TrimSpace, After, LowerName, Left, Free;
    if m == 0 {
      NothingLeftOut(lower, start, active, ids, now, i, j, q);
    } else {
      var es, after := After(lower, start, active, ids, now, m - 1), After(lower, start, active, ids, now, m);
      LeftAfter(lower, start, active, ids, now, i, j, q, m - 1);
      if !Named(active[m - 1]) {
        StepNothing(lower, start, active, ids, now, m - 1);
        LeftAsBefore(lower, start, active, es, i, m - 1);
      } else {
        var k := StepOpens(lower, start, active, ids, now, m - 1);
        assert Own(active[i]) in OwnIDs(active);
        if m - 1 == i {
          TakesFromLater(lower, start, active, ids, now, i, j, q, k);
          LaterIsNotEarlier(lower, active, i, es[k].providerID);
          LeftByItself(lower, start, active, es, after, i, k, ids[i]);
        } else {
          LeftByOthers(lower, start, active, es, after, i, m - 1, k, ids[m - 1]);
        }
      }
    }
  }

  lemma LeftAsBefore(lower: Lower, start: seq<Entry>, active: seq<Record>, es: seq<Entry>, i: nat, m: nat)
    requires i < |active| && m < |active| && Left(lower, start, active, es, i, m)
    requires EarlierIDs(active, m + 1) == EarlierIDs(active, m) && LaterIDs(active, m + 1) == LaterIDs(active, m)
    ensures Left(lower, start, active, es, i, m + 1)
  {
    hide Free;
  }

  lemma NothingLeftOut(lower: Lower, start: seq<Entry>, active: seq<Record>, ids: seq<string>, now: string,
    i: nat, j: nat, q: nat)
    requires |active| <= |ids| && Robbed(lower, start, active, i, j, q)
    ensures Left(lower, start, active, After(lower, start, active, ids, now, 0), i, 0)
  {
    hide LowerName, TrimSpace;
  }

  // In the end a record that was robbed finds the first free entry, as it was at the
  // start, or none.
  lemma LeftAtLast(lower: Lower, start: seq<Entry>, active: seq<Record>, es: seq<Entry>, i: nat, k: int)
    requires i < |active| && Left(lower, start, active, es, i, |active|)
    requires -1 <= k < |es| && Finds(lower, es, active[i], k)
    ensures forall p :: 0 <= p < |start| && (k < 0 || p < k) ==> !Free(lower, start, active, i, p)
    ensures k >= 0 ==> Free(lower, start, active, i, k) && es[k] == start[k]
  {
    hide LowerName, TrimSpace;
    assert LaterIDs(active, |active|) == {} && EarlierIDs(active, |active|) == LaterIDs(active, 0);
  }

  lemma FewerLater(lower: Lower, es: seq<Entry>, r: Record, later: set<string>, fewer: set<string>, k: int)
    requires BoundAt(lower, es, r, later, k) && fewer <= later
    ensures BoundAt(lower, es, r, fewer, k)
  {
  }

  lemma BuriedHas(lower: Lower, es: seq<Entry>, r: Record, names: set<string>, now: string)
    requires KeepsText(lower) && Tidy(lower, es) && Timestamp(now) && Named(r)
    requires Lowered(lower, r) in names && Bound(lower, es, r, {})
    ensures Has(lower, BuryAll(lower, es, names, now), r)
  {
    hide Tidy, KeepsText, TrimSpace, NeedsTombstone, Finds, Find;
    var state := BuryAll(lower, es, names, now);
    var k :| BoundAt(lower, es, r, {}, k);
    BuryKeepsTidy(lower, es, names, now);
    BuryingFinds(lower, es, r, names, now, k);
    FindFinds(lower, state, r, k);
    BuryingSparesActive(lower, es[k], names, now);
  }

  lemma BuryingSparesActive(lower: Lower, e: Entry, names: set<string>, now: string)
    requires LowerName(lower, e) in names
    ensures Buried(lower, e, names, now) == e
  {
  }

  lemma BuryingFinds(lower: Lower, es: seq<Entry>, r: Record, names: set<string>, now: string, k: int)
    requires Finds(lower, es, r, k)
    ensures Finds(lower, BuryAll(lower, es, names, now), r, k)
  {
    hide TrimSpace, NeedsTombstone;
    var state := BuryAll(lower, es, names, now);
    forall i | 0 <= i < |es|
      ensures LowerName(lower, state[i]) == LowerName(lower, es[i]) && state[i].providerID == es[i].providerID
    {
      BuryingKeepsName(lower, es[i], names, now);
    }
    assert IDs(state) == IDs(es);
  }

  lemma ActiveNameIsIn(lower: Lower, active: seq<Record>, i: nat)
    requires i < |active| && Named(active[i])
    ensures Lowered(lower, active[i]) in ActiveNames(lower, active)
  {
  }

  lemma FewerBound(lower: Lower, es: seq<Entry>, r: Record, later: set<string>)
    requires Bound(lower, es, r, later)
    ensures Bound(lower, es, r, {})
  {
    var k :| BoundAt(lower, es, r, later, k);
    FewerLater(lower, es, r, later, {}, k);
  }

  lemma LeftHas(lower: Lower, start: seq<Entry>, active: seq<Record>, es: seq<Entry>, i: nat, now: string)
    requires KeepsText(lower) && Tidy(lower, es) && Timestamp(now) && i < |active| && Named(active[i])
    requires Left(lower, start, active, es, i, |active|)
    ensures Has(lower, BuryAll(lower, es, ActiveNames(lower, active), now), active[i]) <==>
            exists f :: Spare(lower, start, active, i, f)
  {
    hide Tidy, KeepsText, TrimSpace, NeedsTombstone, Finds, Find, Left, ActiveNames, NeedsRefresh, LowerName, BuryAll;
    var names, r := ActiveNames(lower, active), active[i];
    var k := Find(lower, es, r.providerID, TrimSpace(r.name));
    FindFinds(lower, es, r, k);
    BuryKeepsTidy(lower, es, names, now);
    BuryingFinds(lower, es, r, names, now, k);
    FindFinds(lower, BuryAll(lower, es, names, now), r, k);
    LeftAtLast(lower, start, active, es, i, k);
    if k >= 0 {
      ActiveNameIsIn(lower, active, i);
      BuriedAt(lower, es, names, now, k);
      BuryingSparesActive(lower, es[k], names, now);
      if f :| Spare(lower, start, active, i, f) { assert f == k; }
      assert !NeedsRefresh(es[k], TrimSpace(r.name)) ==> Spare(lower, start, active, i, k);
    }
  }

  lemma BuriedAt(lower: Lower, es: seq<Entry>, names: set<string>, now: string, k: nat)
    requires k < |es|
    ensures var state := BuryAll(lower, es, names, now);
            k < |state| && state[k] == Buried(lower, es[k], names, now)
  {
  }

  // After one pass, every record has its entry up to date, exactly unless one was
  // robbed and has no spare entry.
  lemma UpToDateUnlessConflict(lower: Lower, es: seq<Entry>, active: seq<Record>, ids: seq<string>, now: string)
    requires KeepsText(lower) && Ready(lower, Normalized(lower, es), active, ids, now)
    ensures UpToDate(lower, Reconcile(lower, es, active, ids, now).0, active) <==>
            !AnyConflict(lower, Normalized(lower, es), active)
  {
    hide Tidy, Normalized, ActivateAll, BuryAll, KeepsText, ActiveNames, Bound, Named, Has, Robbed, Spare, Left, Ready;
    var start, n, names := Normalized(lower, es), |active|, ActiveNames(lower, active);
    ReadyBounds(lower, start, active, ids, now);
    var live := After(lower, start, active, ids, now, n);
    assert active[..n] == active;
    ReadyKeepsTidy(lower, start, active, ids, now);
    var state := BuryAll(lower, live, names, now);
    forall i | 0 <= i < n && Named(active[i])
      ensures Has(lower, state, active[i]) <==> !exists j, q :: Conflict(lower, start, active, i, j, q)
    {
      if j, q :| Robbed(lower, start, active, i, j, q) {
        RobbedIndices(lower, start, active, i, j, q);
        LeftAfter(lower, start, active, ids, now, i, j, q, n);
        LeftHas(lower, start, active, live, i, now);
        assert (forall f :: !Spare(lower, start, active, i, f)) ==> Conflict(lower, start, active, i, j, q);
      } else {
        ActiveNameIsIn(lower, active, i);
        NotRobbedBinds(lower, start, active, ids, now, i, n);
        FewerBound(lower, live, active[i], LaterIDs(active, n));
        BuriedHas(lower, live, active[i], names, now);
      }
    }
    if AnyConflict(lower, start, active) {
      var i, j, q :| Conflict(lower, start, active, i, j, q);
      RobbedIndices(lower, start, active, i, j, q);
    }
  }

  lemma ReadyKeepsTidy(lower: Lower, start: seq<Entry>, active: seq<Record>, ids: seq<string>, now: string)
    requires Ready(lower, start, active, ids, now)
    ensures Tidy(lower, ActivateAll(lower, start, active, ids, now).0) && Timestamp(now)
  {
    hide Tidy, DistinctRecords, FreshIDs;
    ActivateAllKeepsTidy(lower, start, active, ids, now);
  }

  lemma RobbedIndices(lower: Lower, es: seq<Entry>, active: seq<Record>, i: int, j: int, q: int)
    requires Robbed(lower, es, active, i, j, q)
    ensures 0 <= i < j < |active| && 0 <= q < |es| && Named(active[i])
  {
  }

  // Reconciling again records that differ in name and id, over any entries: it reports
  // a change exactly if in the first pass a record was robbed of its entry and has no
  // spare one; otherwise the state stays as it is.
  lemma ReconcileTwiceByID(lower: Lower, es: seq<Entry>, active: seq<Record>, ids: seq<string>, now: string,
    laterIDs: seq<string>, later: string)
    requires KeepsText(lower) && Ready(lower, Normalized(lower, es), active, ids, now) && |active| <= |laterIDs|
    ensures var state := Reconcile(lower, es, active, ids, now).0;
            var (again, changed) := Reconcile(lower, state, active, laterIDs, later);
            && (changed <==> AnyConflict(lower, Normalized(lower, es), active))
            && (!changed ==> again == state)
  {
    hide Normalized, ActivateAll, BuryAll, KeepsText, Tidy, AnyNeedsTombstone, Conflict, UpToDate;
    var start, names := Normalized(lower, es), ActiveNames(lower, active);
    var state := Reconcile(lower, es, active, ids, now).0;
    ReconciledIsTidy(lower, es, active, ids, now);
    BurialIsOver(lower, ActivateAll(lower, start, active, ids, now).0, names, now, later);
    UnreportedIsUnchanged(lower, state, active, laterIDs, later);
    UpToDateUnlessConflict(lower, es, active, ids, now);
  }

  // Nothing contested: the state has all the records, up to date.
  lemma UncontestedIsUpToDate(lower: Lower, es: seq<Entry>, active: seq<Record>, ids: seq<string>, now: string)
    requires KeepsText(lower) && Ready(lower, Normalized(lower, es), active, ids, now)
    requires !AnyContested(lower, Normalized(lower, es), active)
    ensures UpToDate(lower, Reconcile(lower, es, active, ids, now).0, active)
  {
    hide Normalized, Reconcile, Contested, Free, KeepsText, Ready, UpToDate;
    UpToDateUnlessConflict(lower, es, active, ids, now);
  }

  // No provider that is gone stays live, and none that is configured is missing.
  lemma {:induction false} LiveNamesAreActive(lower: Lower, es: seq<Entry>, active: seq<Record>,
    ids: seq<string>, now: string)
    requires KeepsText(lower) && |active| <= |ids| && Timestamp(now)
    requires forall i :: 0 <= i < |ids| ==> TrimSpace(ids[i]) == ids[i] != ""
    ensures var live := LiveNames(lower, Reconcile(lower, es, active, ids, now).0);
            live <= ActiveNames(lower, active) && (NoOwnIDs(active) ==> live == ActiveNames(lower, active))
  {
    hide Normalized, ActivateAll, TrimSpace;
    var names := ActiveNames(lower, active);
    var state := Reconcile(lower, es, active, ids, now).0;
    BurialIsOver(lower, ActivateAll(lower, Normalized(lower, es), active, ids, now).0, names, now, now);
    if NoOwnIDs(active) {
      forall name | name in names ensures name in LiveNames(lower, state) {
        ReconciledIsSettled(lower, es, active, ids, now, name);
        var k := First(state, HasName(lower, name));
        assert HasName(lower, name)(state[k]);
      }
    }
  }

  // The same for records with ids of their own, unless one was robbed and has no spare
  // entry.
  lemma LiveNamesByID(lower: Lower, es: seq<Entry>, active: seq<Record>, ids: seq<string>, now: string)
    requires KeepsText(lower) && Ready(lower, Normalized(lower, es), active, ids, now)
    requires !AnyConflict(lower, Normalized(lower, es), active)
    ensures LiveNames(lower, Reconcile(lower, es, active, ids, now).0) == ActiveNames(lower, active)
  {
    hide Normalized, ActivateAll, BuryAll, Tidy, KeepsText, AnyConflict, TrimSpace, Find, DistinctRecords;
    var names, state := ActiveNames(lower, active), Reconcile(lower, es, active, ids, now).0;
    BurialIsOver(lower, ActivateAll(lower, Normalized(lower, es), active, ids, now).0, names, now, now);
    UpToDateUnlessConflict(lower, es, active, ids, now);
    forall i | 0 <= i < |active| && Named(active[i]) ensures Lowered(lower, active[i]) in LiveNames(lower, state) {
      var k := Find(lower, state, active[i].providerID, TrimSpace(active[i].name));
      TrimSpaceTwice(active[i].name);
      ActiveNameIsIn(lower, active, i);
      assert Has(lower, state, active[i]) && LowerName(lower, state[k]) == Lowered(lower, active[i]);
      ActiveNamesNotBlank(lower, active);
    }
  }

  lemma ActiveNamesNotBlank(lower: Lower, active: seq<Record>)
    requires KeepsText(lower)
    ensures "" !in ActiveNames(lower, active)
  {
  }

  // A concrete case: the first record loses its entry to the second one, which has
  // the id of that entry, and reconciling again opens another.
  lemma ReconcilingTwiceMayAdd()
    ensures var lower: Lower := s => s;
            var es, active := [Entry("x", "a", "t", "")], [Record("a", "", ""), Record("b", "x", "")];
            var state := Reconcile(lower, es, active, ["u", "v"], "now").0;
            Reconcile(lower, state, active, ["w", "z"], "later").1
  {
    hide Reconcile, Normalized, Find;
    var lower: Lower := s => s;
    var es, active := [Entry("x", "a", "t", "")], [Record("a", "", ""), Record("b", "x", "")];
    assert TrimSpace("x") == "x" && TrimSpace("a") == "a" && TrimSpace("t") == "t" && TrimSpace("") == "";
    assert TrimSpace("b") == "b" && TrimSpace("u") == "u" && TrimSpace("v") == "v" && TrimSpace("now") == "now";
    NewEntryIsTidy(lower, es[0]);
    TidyIsNormalized(lower, es);
    assert Robbed(lower, es, active, 0, 1, 0);
    NoSpare(lower, es, active);
    assert Conflict(lower, es, active, 0, 1, 0);
    ReconcileTwiceByID(lower, es, active, ["u", "v"], "now", ["w", "z"], "later");
  }

  lemma NoSpare(lower: Lower, es: seq<Entry>, active: seq<Record>)
    requires |es| == 1 && |active| == 2 && Named(active[1]) && es[0].providerID == Own(active[1]) != ""
    ensures forall f :: !Spare(lower, es, active, 0, f)
  {
    assert Own(active[1]) in LaterIDs(active, 0);
  }

  // A tombstone stays as it is, with the time of its deletion, until its provider
  // is configured again, under its id or its name.
  lemma TombstoneStays(lower: Lower, es: seq<Entry>, active: seq<Record>, ids: seq<string>, now: string, k: nat)
    requires |active| <= |ids|
    requires Tidy(lower, es) && k < |es| && es[k].deletedAt != ""
    requires LowerName(lower, es[k]) !in ActiveNames(lower, active)
    requires es[k].providerID == "" || es[k].providerID !in OwnIDs(active)
    ensures var state := Reconcile(lower, es, active, ids, now).0; k < |state| && state[k] == es[k]
  {
    hide ActivateAll, TrimSpace, DistinctKeys, Key;
    TidyIsNormalized(lower, es);
    TidyMeansTrimmed(lower, es[k]);
    OtherEntriesStay(lower, es, active, ids, now, k);
  }

  lemma {:induction false} OtherEntriesStay(lower: Lower, es: seq<Entry>, active: seq<Record>,
    ids: seq<string>, now: string, k: nat)
    requires |active| <= |ids| && k < |es| && LowerName(lower, es[k]) !in ActiveNames(lower, active)
    requires TrimSpace(es[k].providerID) == es[k].providerID
    requires es[k].providerID == "" || es[k].providerID !in OwnIDs(active)
    ensures var after := ActivateAll(lower, es, active, ids, now).0; k < |after| && after[k] == es[k]
    decreases |active|
  {
    hide Activate, TrimSpace, ActiveNames, LowerName;
    if active != [] {
      var n := |active| - 1;
      var front := active[..n];
      ActiveNamesStep(lower, active);
      assert OwnIDs(front) <= OwnIDs(active) by { assert forall i :: 0 <= i < n ==> front[i] == active[i]; }
      OtherEntriesStay(lower, es, front, ids, now, k);
      assert TrimSpace(active[n].providerID) in OwnIDs(active);
      ActivateSpares(lower, ActivateAll(lower, es, front, ids, now).0, active[n], ids[n], now, k);
    }
  }

  lemma ActivateSpares(lower: Lower, es: seq<Entry>, r: Record, id: string, now: string, k: nat)
    requires k < |es| && TrimSpace(es[k].providerID) == es[k].providerID
    requires es[k].providerID == "" || es[k].providerID != TrimSpace(r.providerID)
    requires Named(r) ==> LowerName(lower, es[k]) != lower(TrimSpace(r.name))
    ensures var after := Activate(lower, es, r, id, now).0; k < |after| && after[k] == es[k]
  {
    TrimSpaceTwice(r.name);
    var own, target := TrimSpace(r.providerID), lower(TrimSpace(r.name));
    assert own != "" ==> !HasID(own)(es[k]);
    assert Named(r) ==> !HasName(lower, target)(es[k]);
  }

  // --------------------------------------------------------- changing one entry

  datatype Change = Change(lookupName: string, nextName: string, providerID: string, updatedAt: string, deleted: bool)

  // Which entry is meant: by id, by its prior name, or by its new one.
  function Meant(lower: Lower, es: seq<Entry>, c: Change): (r: int)
    ensures -1 <= r < |es|
  {
    var k := Find(lower, es, c.providerID, c.lookupName);
    if k >= 0 then k else Find(lower, es, c.providerID, c.nextName)
  }

  function Changed(e: Entry, c: Change, id: string, now: string): Entry {
    var at := Choose(c.updatedAt, now);
    Entry(if TrimSpace(e.providerID) == "" then Choose(c.providerID, id) else e.providerID,
          TrimSpace(c.nextName), at, if c.deleted then at else "")
  }

  function Upsert(lower: Lower, es: seq<Entry>, c: Change, id: string, now: string): seq<Entry> {
    var start := Normalized(lower, es);
    var k := Meant(lower, start, c);
    if k < 0 then start + [Changed(Entry("", "", "", ""), c, id, now)]
    else start[k := Changed(start[k], c, id, now)]
  }

  method UpsertProviderSyncEntry(lower: Lower, providers: seq<Entry>, c: Change, id: string, now: string)
    returns (state: seq<Entry>)
    ensures state == Upsert(lower, providers, c, id, now)
  {
    hide Normalized, Find;
    state := NormalizeProviderSyncState(lower, providers);
    var index := FindProviderSyncEntry(lower, state, c.providerID, c.lookupName);
    if index < 0 {
      index := FindProviderSyncEntry(lower, state, c.providerID, c.nextName);
    }
    var timestamp := Choose(c.updatedAt, now);
    if index < 0 {
      assert TrimSpace("") == "";
      var entry := Entry(Choose(c.providerID, id), TrimSpace(c.nextName), timestamp, "");
      if c.deleted {
        entry := entry.(deletedAt := timestamp);
      }
      return state + [entry];
    }
    var entry := state[index];
    if TrimSpace(entry.providerID) == "" {
      entry := entry.(providerID := Choose(c.providerID, id));
    }
    entry := entry.(name := TrimSpace(c.nextName), updatedAt := timestamp);
    entry := entry.(deletedAt := if c.deleted then timestamp else "");
    state := state[index := entry];
  }

  // Changing an entry leaves a state that survives writing and loading, in which
  // every other entry is what it was.
  lemma UpsertedIsTidy(lower: Lower, es: seq<Entry>, c: Change, id: string, now: string)
    requires Timestamp(now) && FreshID(id, IDs(Normalized(lower, es)))
    ensures var start, state := Normalized(lower, es), Upsert(lower, es, c, id, now);
            && Tidy(lower, state) && Normalized(lower, state) == state
            && (exists k :: 0 <= k < |state| && state[k].providerID != "" && state[k].name == TrimSpace(c.nextName) &&
                            (state[k].deletedAt != "" <==> c.deleted) && |start| <= |state| <= |start| + 1 &&
                            (|start| < |state| ==> k == |start|) &&
                            forall i :: 0 <= i < |start| && i != k ==> state[i] == start[i])
  {
    hide Normalized, Find, TrimSpace, TidyEntry, Key, DistinctKeys, TrimEntry;
    var start, state := Normalized(lower, es), Upsert(lower, es, c, id, now);
    NormalizedIsTidy(lower, es);
    var found := Meant(lower, start, c);
    var k := if found < 0 then |start| else found;
    var prior := if found < 0 then Entry("", "", "", "") else start[found];
    assert TrimSpace("") == "" by { BlankTrims(); }
    if found >= 0 { TidyMeansTrimmed(lower, prior); }
    if prior.providerID == "" {
      ChosenID(lower, start, c.providerID,
               if Find(lower, start, c.providerID, c.lookupName) >= 0 then c.lookupName else c.nextName, id);
    }
    var e := Changed(prior, c, id, now);
    ChangedIsTrimmed(prior, c, id, now);
    NewEntryIsTidy(lower, e);
    if found < 0 { AddedKeyDiffers(lower, start, e); } else { ReplacedKeysDiffer(lower, start, k, e); }
    assert state[k] == e;
    TidyIsNormalized(lower, state);
  }

  lemma BlankTrims()
    ensures TrimSpace("") == ""
  {
  }

  lemma ChangedIsTrimmed(e: Entry, c: Change, id: string, now: string)
    requires Timestamp(now) && TrimSpace(id) == id && TrimSpace(e.providerID) == e.providerID
    ensures TrimEntry(Changed(e, c, id, now)) == Changed(e, c, id, now)
    ensures Changed(e, c, id, now).updatedAt != ""
  {
    TrimSpaceTwice(c.providerID);
    TrimSpaceTwice(c.nextName);
    TrimSpaceTwice(c.updatedAt);
    assert TrimSpace("") == "";
  }
}
