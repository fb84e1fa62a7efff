// What the sidebar shows, said of the sessions alone: which partitions are listed, in
// which order and under which names, and which sessions each of them holds.
module SidebarListing {
  import opened Text
  import opened SidebarTree
  import opened SidebarSources

  // What is shown of a partition itself.
  datatype Head = Head(id: string, name: string, readOnly: bool)

  function HeadOf(v: View): Head {
    Head(v.id, v.name, v.readOnly)
  }

  function Heads(vs: seq<View>): seq<Head> {
    if vs == [] then [] else [HeadOf(vs[0])] + Heads(vs[1..])
  }

  lemma {:induction false} HeadsOfConcat(a: seq<View>, b: seq<View>)
    ensures Heads(a + b) == Heads(a) + Heads(b)
    decreases |a|
  {
    if a == [] {
      assert a + b == b;
    } else {
      assert (a + b)[1..] == a[1..] + b;
      HeadsOfConcat(a[1..], b);
    }
  }

  // ------------------------------------------------------ the user's partitions

  // A trimmed entry that names a partition of the user's own.
  predicate Names(p: Partition, entry: Partition) {
    p == Partition(Trim(entry.id), Trim(entry.name)) && p.id != "" && p.name != "" && p.id != UNCLASSIFIED_PARTITION_ID
  }

  // A partition is kept exactly if an entry names it and no earlier entry names one
  // with its id.
  lemma {:induction false} FirstEntryWins(ps: seq<Partition>, p: Partition)
    ensures p in Deduped(ps) <==>
              exists i :: 0 <= i < |ps| && Names(p, ps[i]) &&
                          forall j :: 0 <= j < i ==> !(Trim(ps[j].id) == p.id && Trim(ps[j].name) != "")
  {
    hide Trim;
    if ps != [] {
      var front, n := ps[..|ps| - 1], |ps| - 1;
      FirstEntryWins(front, p);
      IDIsTaken(front, Trim(ps[n].id));
      assert forall i :: 0 <= i < n ==> front[i] == ps[i];
      if p in Deduped(front) {
        var i :| 0 <= i < n && Names(p, front[i]) &&
                 forall j :: 0 <= j < i ==> !(Trim(front[j].id) == p.id && Trim(front[j].name) != "");
        assert Names(p, ps[i]) && forall j :: 0 <= j < i ==> ps[j] == front[j];
      }
      if exists i :: 0 <= i < |ps| && Names(p, ps[i]) &&
           forall j :: 0 <= j < i ==> !(Trim(ps[j].id) == p.id && Trim(ps[j].name) != "") {
        var i :| 0 <= i < |ps| && Names(p, ps[i]) &&
                 forall j :: 0 <= j < i ==> !(Trim(ps[j].id) == p.id && Trim(ps[j].name) != "");
        if i < n {
          assert Names(p, front[i]) && forall j :: 0 <= j < i ==> ps[j] == front[j];
        }
      }
      if Names(p, ps[n]) && p !in Deduped(front) && p in Deduped(ps) {
        assert forall j :: 0 <= j < n ==> !(Trim(ps[j].id) == p.id && Trim(ps[j].name) != "");
      }
    }
  }

  lemma {:induction false} IDIsTaken(ps: seq<Partition>, id: string)
    ensures id in PartitionIDs(Deduped(ps)) <==>
              id != "" && id != UNCLASSIFIED_PARTITION_ID &&
              exists j :: 0 <= j < |ps| && Trim(ps[j].id) == id && Trim(ps[j].name) != ""
  {
    hide Trim;
    if ps != [] {
      var front, n := ps[..|ps| - 1], |ps| - 1;
      IDIsTaken(front, id);
      IDIsTaken(front, Trim(ps[n].id));
      assert forall i :: 0 <= i < n ==> front[i] == ps[i];
      var before, all := Deduped(front), Deduped(ps);
      assert all == before || (|all| == |before| + 1 && PartitionIDs(all) == PartitionIDs(before) + [Trim(ps[n].id)]);
      if id in PartitionIDs(before) {
        var j :| 0 <= j < n && Trim(front[j].id) == id && Trim(front[j].name) != "";
        assert Trim(ps[j].id) == id && Trim(ps[j].name) != "";
      }
    }
  }

  // Partitions come in the order of their entries: more entries only add at the end.
  lemma {:induction false} EntriesKeepTheirOrder(ps: seq<Partition>, n: nat)
    requires n <= |ps|
    ensures Deduped(ps[..n]) <= Deduped(ps)
    decreases |ps|
  {
    if n == |ps| {
      assert ps[..n] == ps;
    } else {
      var front := ps[..|ps| - 1];
      assert front[..n] == ps[..n];
      EntriesKeepTheirOrder(front, n);
    }
  }

  // ------------------------------------------------------- the owners of a kind

  // The first of the sessions that an owner of a kind has.
  ghost predicate FirstOf(input: Input, kind: SourceKind, owner: string, i: int) {
    && 0 <= i < |input.sessions| && InGroup(input, kind, owner, input.sessions[i])
    && forall j :: 0 <= j < i ==> !InGroup(input, kind, owner, input.sessions[j])
  }

  // Who owns a session of a kind: the trimmed owner, or the kind itself.
  lemma OwnerOfSession(input: Input, kind: SourceKind, owner: string, s: Session)
    ensures InGroup(input, kind, owner, s) <==>
              s.id in input.sources &&
              var a := input.sources[s.id];
              a.kind == kind &&
              (Trim(a.ownerID) == owner != "" || (Trim(a.ownerID) == "" && owner == KindName(kind)))
  {
  }

  // A kind has a group for each owner of one of its sessions.
  lemma {:induction false} OwnersHaveSessions(input: Input, kind: SourceKind, sessions: seq<Session>, owner: string)
    ensures DistinctOwners(SourceGroups(input, kind, sessions))
    ensures owner in Owners(SourceGroups(input, kind, sessions)) <==>
              exists s :: s in sessions && InGroup(input, kind, owner, s)
    decreases |sessions|
  {
    hide OwnerID, OwnerName, Owners, DistinctOwners, Join;
    if sessions != [] {
      var front, s := sessions[..|sessions| - 1], sessions[|sessions| - 1];
      assert sessions == front + [s];
      OwnersHaveSessions(input, kind, front, owner);
      if OfKind(input, kind, s) {
        var a := input.sources[s.id];
        JoinAdds(SourceGroups(input, kind, front), OwnerID(kind, a), OwnerName(kind, a), s, owner);
      }
      if InGroup(input, kind, owner, s) { assert s in sessions; }
    } else {
      NoOwners();
    }
  }

  lemma NoOwners()
    ensures Owners([]) == [] && DistinctOwners([])
  {
  }

  // The groups come in the order of their first sessions: more sessions only add
  // groups at the end.
  lemma {:induction false} GroupsKeepTheirOrder(input: Input, kind: SourceKind, sessions: seq<Session>, n: nat)
    requires n <= |sessions|
    ensures Owners(SourceGroups(input, kind, sessions[..n])) <= Owners(SourceGroups(input, kind, sessions))
    decreases |sessions|
  {
    hide Owners, Join, OwnerID, OwnerName;
    if n == |sessions| {
      assert sessions[..n] == sessions;
    } else {
      var front, s := sessions[..|sessions| - 1], sessions[|sessions| - 1];
      assert front[..n] == sessions[..n];
      GroupsKeepTheirOrder(input, kind, front, n);
      if OfKind(input, kind, s) {
        var a := input.sources[s.id];
        JoinKeepsOrder(SourceGroups(input, kind, front), OwnerID(kind, a), OwnerName(kind, a), s);
      }
    }
  }

  lemma {:induction false} JoinKeepsOrder(groups: seq<Group>, owner: string, name: string, s: Session)
    ensures Owners(groups) <= Owners(Join(groups, owner, name, s))
  {
    if groups != [] {
      var next := Join(groups, owner, name, s);
      if groups[0].ownerID == owner {
        assert next[1..] == groups[1..];
      } else {
        JoinKeepsOrder(groups[1..], owner, name, s);
        assert next[1..] == Join(groups[1..], owner, name, s);
      }
    }
  }

  lemma {:induction false} JoinNames(groups: seq<Group>, owner: string, name: string, s: Session, other: string)
    ensures GroupNameOf(Join(groups, owner, name, s), other) ==
            if other == owner && owner !in Owners(groups) then name else GroupNameOf(groups, other)
  {
    if groups != [] {
      var next := Join(groups, owner, name, s);
      if groups[0].ownerID == owner {
        assert next[1..] == groups[1..];
      } else {
        JoinNames(groups[1..], owner, name, s, other);
        assert next[1..] == Join(groups[1..], owner, name, s);
      }
    }
  }

  // A group is named by its first session: by the trimmed name of its owner, or by the
  // owner's id if that name is blank.
  lemma {:induction false} FirstSessionNames(input: Input, kind: SourceKind, n: nat, owner: string, i: int)
    requires n <= |input.sessions| && i < n && FirstOf(input, kind, owner, i)
    ensures var name := Trim(input.sources[input.sessions[i].id].ownerName);
            GroupNameOf(SourceGroups(input, kind, input.sessions[..n]), owner) == if name != "" then name else owner
    decreases n
  {
    hide Owners, Join, OwnerID, Trim;
    var before, s := input.sessions[..n - 1], input.sessions[n - 1];
    assert input.sessions[..n][..n - 1] == before;
    OwnersHaveSessions(input, kind, before, owner);
    if i < n - 1 {
      FirstSessionNames(input, kind, n - 1, owner, i);
      assert input.sessions[i] == before[i] && input.sessions[i] in before;
    }
    if OfKind(input, kind, s) {
      var a := input.sources[s.id];
      JoinNames(SourceGroups(input, kind, before), OwnerID(kind, a), OwnerName(kind, a), s, owner);
    }
  }

  // --------------------------------------------------------- which are listed

  // Under a query that is not blank, a partition is listed if it holds a session that
  // is to be shown; under a blank one, each of the user's partitions is.
  ghost predicate ManualListed(input: Input, id: string) {
    input.query.blank || exists s :: s in input.sessions && Target(input, s) == id && ShownAsManual(input, s)
  }

  ghost predicate KindListed(input: Input, kind: SourceKind) {
    exists s :: s in input.sessions && OfKind(input, kind, s) && ShownAsSource(input, s)
  }

  ghost predicate OwnerListed(input: Input, kind: SourceKind, owner: string) {
    exists s :: s in input.sessions && InGroup(input, kind, owner, s) && ShownAsSource(input, s)
  }

  ghost function ManualHeads(input: Input, metas: seq<Partition>): seq<Head> {
    if metas == [] then []
    else
      (if ManualListed(input, metas[0].id) then [Head(metas[0].id, metas[0].name, false)] else []) +
      ManualHeads(input, metas[1..])
  }

  ghost function KindHeads(input: Input, kinds: seq<SourceKind>): seq<Head> {
    if kinds == [] then []
    else
      (if KindListed(input, kinds[0])
       then [Head(SourcePartitionID(kinds[0]), input.sourceName(kinds[0]), true)] else []) +
      KindHeads(input, kinds[1..])
  }

  ghost function OwnerHeads(input: Input, kind: SourceKind, owners: seq<string>): seq<Head> {
    if owners == [] then []
    else
      (if OwnerListed(input, kind, owners[0])
       then [Head(SourcePartitionID(kind) + "::" + owners[0],
                  GroupNameOf(SourceGroups(input, kind, input.sessions), owners[0]), true)] else []) +
      OwnerHeads(input, kind, owners[1..])
  }

  // ---- the user's partitions

  // The sessions that a manual partition shows are those assigned to it.
  lemma ManualListedIfSessions(input: Input, meta: Partition)
    requires UniqueIDs(input.sessions) && NameOf(Metas(input), meta.id) == meta.name
    ensures forall x ::
              Count(Filter(ManualView(input, meta).sessions, LeftToManual(input)), x) ==
              if Target(input, x) == meta.id && ShownAsManual(input, x) then Count(input.sessions, x) else 0
    ensures input.query.blank || Filter(ManualView(input, meta).sessions, LeftToManual(input)) != [] <==>
              ManualListed(input, meta.id)
  {
    hide Target, Grouped, Filter, Matching, Metas, PartitionNameMatches, UniqueIDs;
    var some := Filter(ManualView(input, meta).sessions, LeftToManual(input));
    forall x ensures Count(some, x) == if Target(input, x) == meta.id && ShownAsManual(input, x)
                                       then Count(input.sessions, x) else 0
    {
      ManualViewCounts(input, meta, x);
    }
    SomeAreHeld(some, input.sessions, s => Target(input, s) == meta.id && ShownAsManual(input, s));
  }

  // Who holds the sessions of some kind holds one exactly if there is one.
  lemma SomeAreHeld(held: seq<Session>, all: seq<Session>, p: Session -> bool)
    requires forall x :: Count(held, x) == if p(x) then Count(all, x) else 0
    ensures held != [] <==> exists s :: s in all && p(s)
  {
    if held != [] {
      assert Count(held, held[0]) > 0;
      assert held[0] in all;
    }
    if s :| s in all && p(s) {
      assert Count(all, s) > 0 && s in multiset(held) && s in held;
    }
  }

  // The manual partitions in the sidebar, before the unclassified one is split off.
  function ManualPart(input: Input, metas: seq<Partition>): seq<View> {
    HideEmpty(FilterManualViews(input, ManualViews(input, metas)), input.query.blank)
  }

  lemma {:induction false} FirstOfManualPart(input: Input, metas: seq<Partition>)
    requires metas != []
    ensures var sessions := Filter(ManualView(input, metas[0]).sessions, LeftToManual(input));
            ManualPart(input, metas) ==
            (if input.query.blank || sessions != [] then [View(metas[0].id, metas[0].name, false, sessions, [])]
             else []) +
            ManualPart(input, metas[1..])
  {
    hide Grouped, Filter;
    var some := ManualViews(input, metas);
    assert some[0] == ManualView(input, metas[0]) && some[1..] == ManualViews(input, metas[1..]);
    var all := FilterManualViews(input, some);
    assert all[1..] == FilterManualViews(input, some[1..]);
  }

  lemma {:induction false} ManualPartIs(input: Input, metas: seq<Partition>)
    requires UniqueIDs(input.sessions) && forall m :: m in metas ==> NameOf(Metas(input), m.id) == m.name
    ensures Heads(ManualPart(input, metas)) == ManualHeads(input, metas)
    ensures forall v :: v in ManualPart(input, metas) ==> HoldsManual(input, v)
  {
    hide ManualPart, Grouped, Filter, Metas, ManualView, ManualListed, UniqueIDs, Target;
    if metas != [] {
      ManualPartIs(input, metas[1..]);
      FirstOfManualPart(input, metas);
      ManualListedIfSessions(input, metas[0]);
      var rest := ManualPart(input, metas[1..]);
      var sessions := Filter(ManualView(input, metas[0]).sessions, LeftToManual(input));
      var first := View(metas[0].id, metas[0].name, false, sessions, []);
      HeadsOfConcat([first], rest);
      assert [] + rest == rest;
    } else {
      assert ManualPart(input, metas) == [] by { NoManualPart(input); }
    }
  }

  lemma NoManualPart(input: Input)
    ensures ManualPart(input, []) == []
  {
  }

  // A partition of the user's holds exactly the sessions to be shown in it.
  ghost predicate HoldsManual(input: Input, v: View) {
    && !v.readOnly && v.childPartitions == []
    && forall x :: Count(v.sessions, x) ==
                   if Target(input, x) == v.id && ShownAsManual(input, x) then Count(input.sessions, x) else 0
  }

  function UnclassifiedMeta(input: Input): seq<Partition> {
    [Partition(UNCLASSIFIED_PARTITION_ID, input.unclassifiedName)]
  }

  lemma {:induction false} SplitOff(input: Input)
    ensures var manual := HideEmpty(FilterManualViews(input, BuildSessionPartitionViews(input)), input.query.blank);
            && UnclassifiedView(manual) == ManualPart(input, UnclassifiedMeta(input))
            && CustomViews(manual) == ManualPart(input, Deduped(input.partitions))
  {
    hide Grouped, Filter, Deduped, ManualViews, FilterManualViews, HideEmpty, ManualPart;
    var blank, metas, own := input.query.blank, Metas(input), Deduped(input.partitions);
    HidingTwice(input, ManualViews(input, metas), blank);
    var manual, rest := ManualPart(input, metas), ManualPart(input, own);
    assert manual == HideEmpty(FilterManualViews(input, BuildSessionPartitionViews(input)), blank) by {
      ManualPartOf(input, metas);
    }
    assert metas[0] == UnclassifiedMeta(input)[0] && metas[1..] == own && UnclassifiedMeta(input)[1..] == [];
    FirstOfManualPart(input, metas);
    FirstOfManualPart(input, UnclassifiedMeta(input));
    NoManualPart(input);
    DedupedIsDistinct(input.partitions);
    CustomViewsOfManual(input, own, blank);
    ManualPartOf(input, own);
    assert manual == rest || (manual == [manual[0]] + rest && manual[1..] == rest);
  }

  lemma ManualPartOf(input: Input, metas: seq<Partition>)
    ensures ManualPart(input, metas) ==
            HideEmpty(FilterManualViews(input, ManualViews(input, metas)), input.query.blank)
  {
  }

  lemma {:induction false} NameOfMeta(metas: seq<Partition>, m: Partition)
    requires DistinctIDs(metas) && m in metas
    ensures NameOf(metas, m.id) == m.name
  {
    if metas[0] != m {
      IDsOfRest(metas);
      assert m in metas[1..];
      NameOfMeta(metas[1..], m);
      var i :| 0 <= i < |metas| && metas[i] == m;
      assert metas[0].id != metas[i].id;
    }
  }

  // ---- the partitions of sources

  // The sessions that an owner's partition shows are those of the owner.
  ghost predicate HoldsOwners(input: Input, kind: SourceKind, owner: string, v: View) {
    && HeadOf(v) == Head(SourcePartitionID(kind) + "::" + owner,
                         GroupNameOf(SourceGroups(input, kind, input.sessions), owner), true)
    && v.childPartitions == []
    && forall x :: Count(v.sessions, x) ==
                   if InGroup(input, kind, owner, x) && ShownAsSource(input, x) then Count(input.sessions, x) else 0
  }

  // The groups from some point on, as they are among all groups of the kind.
  ghost predicate PartOfGroups(groups: seq<Group>, all: seq<Group>) {
    && DistinctOwners(groups)
    && forall o :: o in Owners(groups) ==>
         Members(groups, o) == Members(all, o) && GroupNameOf(groups, o) == GroupNameOf(all, o)
  }

  lemma RestOfGroups(groups: seq<Group>, all: seq<Group>)
    requires groups != [] && PartOfGroups(groups, all)
    ensures PartOfGroups(groups[1..], all) && Owners(groups) == [groups[0].ownerID] + Owners(groups[1..])
    ensures groups[0].sessions == Members(all, groups[0].ownerID)
    ensures groups[0].name == GroupNameOf(all, groups[0].ownerID)
  {
    var first := groups[0].ownerID;
    assert first in Owners(groups);
    forall o | o in Owners(groups[1..])
      ensures Members(groups[1..], o) == Members(all, o) && GroupNameOf(groups[1..], o) == GroupNameOf(all, o)
    {
      assert o in Owners(groups) && o != first;
    }
  }

  lemma OwnerViewCounts(input: Input, kind: SourceKind, group: Group, x: Session)
    requires var all := SourceGroups(input, kind, input.sessions);
             group.sessions == Members(all, group.ownerID) && group.name == GroupNameOf(all, group.ownerID)
    ensures var parentMatches := PartitionNameMatches(input.query, input.sourceName(kind));
            Count(SystemChildPartition(input, kind, group, parentMatches).sessions, x) ==
            if InGroup(input, kind, group.ownerID, x) && ShownAsSource(input, x) then Count(input.sessions, x) else 0
  {
    hide PartitionNameMatches, Filter, SourceGroups, Members, GroupNameOf, OwnerID, DistinctOwners, Owners;
    var parentMatches := PartitionNameMatches(input.query, input.sourceName(kind));
    GroupsPartition(input, kind, input.sessions, group.ownerID, x);
    FilterCounts(group.sessions, PassesAny(input.query, parentMatches, group.name), x);
  }

  lemma OwnerViewHolds(input: Input, kind: SourceKind, group: Group)
    requires var all := SourceGroups(input, kind, input.sessions);
             group.sessions == Members(all, group.ownerID) && group.name == GroupNameOf(all, group.ownerID)
    ensures var parentMatches := PartitionNameMatches(input.query, input.sourceName(kind));
            var v := SystemChildPartition(input, kind, group, parentMatches);
            && HoldsOwners(input, kind, group.ownerID, v)
            && (v.sessions != [] <==> OwnerListed(input, kind, group.ownerID))
  {
    hide PartitionNameMatches, Filter, SourceGroups, Members, GroupNameOf, OwnerID, DistinctOwners, Owners;
    var parentMatches := PartitionNameMatches(input.query, input.sourceName(kind));
    var v := SystemChildPartition(input, kind, group, parentMatches);
    forall x ensures Count(v.sessions, x) ==
                     if InGroup(input, kind, group.ownerID, x) && ShownAsSource(input, x)
                     then Count(input.sessions, x) else 0
    {
      OwnerViewCounts(input, kind, group, x);
    }
    assert HeadOf(v) == Head(SourcePartitionID(kind) + "::" + group.ownerID, group.name, true);
    hide SystemChildPartition, InGroup, ShownAsSource, Count;
    SomeAreHeld(v.sessions, input.sessions, s => InGroup(input, kind, group.ownerID, s) && ShownAsSource(input, s));
  }

  lemma {:induction false} OwnerViewsHold(input: Input, kind: SourceKind, groups: seq<Group>)
    requires PartOfGroups(groups, SourceGroups(input, kind, input.sessions))
    ensures var parentMatches := PartitionNameMatches(input.query, input.sourceName(kind));
            var vs := SystemChildPartitions(input, kind, groups, parentMatches);
            && Heads(vs) == OwnerHeads(input, kind, Owners(groups))
            && forall v :: v in vs ==> exists owner :: HoldsOwners(input, kind, owner, v)
  {
    hide PartitionNameMatches, SourceGroups, Members, GroupNameOf, OwnerID, PartOfGroups, SystemChildPartition;
    hide OwnerListed;
    if groups != [] {
      var parentMatches := PartitionNameMatches(input.query, input.sourceName(kind));
      RestOfGroups(groups, SourceGroups(input, kind, input.sessions));
      OwnerViewsHold(input, kind, groups[1..]);
      OwnerViewHolds(input, kind, groups[0]);
      var view := SystemChildPartition(input, kind, groups[0], parentMatches);
      var rest := SystemChildPartitions(input, kind, groups[1..], parentMatches);
      assert HoldsOwners(input, kind, groups[0].ownerID, view);
      HeadsOfConcat([view], rest);
      assert [] + rest == rest;
    }
  }

  // A source's partition lists the owners of its kind that have a session to be shown,
  // each under its name and with exactly these sessions.
  lemma {:induction false} KindListsOwners(input: Input, kind: SourceKind)
    ensures var v := SystemView(input, kind);
            && HeadOf(v) == Head(SourcePartitionID(kind), input.sourceName(kind), true)
            && Heads(v.childPartitions) ==
                 OwnerHeads(input, kind, Owners(SourceGroups(input, kind, input.sessions)))
            && (forall c :: c in v.childPartitions ==> exists owner :: HoldsOwners(input, kind, owner, c))
            && (v.sessions != [] <==> KindListed(input, kind))
  {
    hide PartitionNameMatches, SourceGroups, GroupNameOf, OwnerHeads, HoldsOwners, SystemChildPartitions, Owners;
    hide ShownAsSource;
    var v, groups := SystemView(input, kind), SourceGroups(input, kind, input.sessions);
    OwnersHaveSessions(input, kind, input.sessions, "");
    OwnerViewsHold(input, kind, groups);
    SystemViewListsItsChildren(input, kind);
    forall x ensures Count(v.sessions, x) ==
                     if OfKind(input, kind, x) && ShownAsSource(input, x) then Count(input.sessions, x) else 0
    {
      SystemViewCounts(input, kind, x);
    }
    SomeAreHeld(v.sessions, input.sessions, s => OfKind(input, kind, s) && ShownAsSource(input, s));
  }

  lemma {:induction false} KindsAreListed(input: Input, kinds: seq<SourceKind>)
    ensures Heads(SystemViews(input, kinds)) == KindHeads(input, kinds)
    ensures forall v :: v in SystemViews(input, kinds) ==> exists kind :: kind in kinds && v == SystemView(input, kind)
  {
    hide SystemView, KindListed, OwnerHeads, SourceGroups, HoldsOwners;
    if kinds != [] {
      KindsAreListed(input, kinds[1..]);
      KindListsOwners(input, kinds[0]);
      var view, rest := SystemView(input, kinds[0]), SystemViews(input, kinds[1..]);
      HeadsOfConcat([view], rest);
      assert [] + rest == rest;
    }
  }

  // ---- the whole sidebar

  // The sidebar lists the unclassified partition, the partitions of sources, and the
  // user's own, each kind in its order, exactly those that are to be listed; and each
  // holds exactly its sessions.
  lemma {:induction false} SidebarLists(input: Input)
    requires UniqueIDs(input.sessions)
    ensures Heads(SidebarViews(input)) ==
            ManualHeads(input, UnclassifiedMeta(input)) + KindHeads(input, SOURCE_ORDER) +
            ManualHeads(input, Deduped(input.partitions))
    ensures forall v :: v in SidebarViews(input) ==>
              HoldsManual(input, v) || exists kind :: kind in SOURCE_ORDER && v == SystemView(input, kind)
  {
    hide ManualPart, SystemViews, ManualHeads, KindHeads, HoldsManual, SystemView, Deduped, UniqueIDs;
    hide HideEmpty, FilterManualViews, BuildSessionPartitionViews, UnclassifiedView, CustomViews;
    var a, own := UnclassifiedMeta(input), Deduped(input.partitions);
    SplitOff(input);
    MetasAreDistinct(input);
    forall m: Partition | m in a + own ensures NameOf(Metas(input), m.id) == m.name {
      NameOfMeta(Metas(input), m);
    }
    ManualPartIs(input, a);
    ManualPartIs(input, own);
    KindsAreListed(input, SOURCE_ORDER);
    HeadsOfConcat(ManualPart(input, a) + SystemViews(input, SOURCE_ORDER), ManualPart(input, own));
    HeadsOfConcat(ManualPart(input, a), SystemViews(input, SOURCE_ORDER));
  }
}
