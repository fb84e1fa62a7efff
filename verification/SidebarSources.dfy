// Building the sidebar's partitions: sessions are grouped by the user's
// assignments, the sessions of workflows and tasks move to partitions of their
// own, and hidden ones drop out (apps/web/lib/sessionSidebarPartitions.ts,
// sessionSidebarSourcePartitionViews.ts, sessionSidebarSessionSort.ts).
module SidebarSources {
  import opened SidebarTree
  import opened Text
  import StableSort

  const UNCLASSIFIED_PARTITION_ID := "__unclassified__"

  datatype Partition = Partition(id: string, name: string)

  datatype SourceKind = Workflow | Orchestration | Loop | Task

  const SOURCE_ORDER := [Workflow, Orchestration, Loop, Task]

  datatype SourceAssignment = SourceAssignment(kind: SourceKind, ownerID: string, ownerName: string)

  // A search query: whether it is blank, and the names and the sessions that
  // contain it.
  datatype Query = Query(blank: bool, nameMatches: string -> bool, matches: Session -> bool)

  datatype Input = Input(
    sessions: seq<Session>, partitions: seq<Partition>, assignments: map<string, string>,
    sources: map<string, SourceAssignment>, hidden: set<string>,
    unclassifiedName: string, sourceName: SourceKind -> string, query: Query)

  // ---------------------------------------------------------------- sorting

  // Most recent activity first, ties by descending id.
  predicate Before(a: Session, b: Session) {
    a.activity > b.activity || (a.activity == b.activity && a.order >= b.order)
  }

  predicate Sorted(s: seq<Session>) {
    StableSort.Sorted(s, Before)
  }

  function SortByRecentActivity(s: seq<Session>): (r: seq<Session>)
    ensures multiset(r) == multiset(s)
  {
    StableSort.Sort(s, Before)
  }

  lemma SortIsSorted(s: seq<Session>)
    ensures Sorted(SortByRecentActivity(s))
    ensures var r := SortByRecentActivity(s);
            forall i, j :: 0 <= i < j < |r| ==>
              r[i].activity > r[j].activity || (r[i].activity == r[j].activity && r[i].order >= r[j].order)
  {
    StableSort.SortIsSorted(s, Before);
  }

  // -------------------------------------------------------------- filtering

  function Filter(s: seq<Session>, p: Session -> bool): (r: seq<Session>)
    ensures forall x :: x in r ==> x in s && p(x)
  {
    if s == [] then []
    else Filter(s[..|s| - 1], p) + (if p(s[|s| - 1]) then [s[|s| - 1]] else [])
  }

  // Filtering keeps every session that passes as often as it occurred.
  lemma {:induction false} FilterCounts(s: seq<Session>, p: Session -> bool, x: Session)
    ensures multiset(Filter(s, p))[x] == if p(x) then multiset(s)[x] else 0
  {
    if s != [] {
      assert s == s[..|s| - 1] + [s[|s| - 1]];
      FilterCounts(s[..|s| - 1], p, x);
    }
  }

  lemma {:induction false} FilterSorted(s: seq<Session>, p: Session -> bool)
    requires Sorted(s)
    ensures Sorted(Filter(s, p))
  {
    if s != [] {
      var front := s[..|s| - 1];
      FilterSorted(front, p);
      var r := Filter(front, p);
      assert forall x :: x in front ==> Before(x, s[|s| - 1]);
      assert forall i :: 0 <= i < |r| ==> r[i] in front;
    }
  }

  // ------------------------------------------------------ manual partitions

  // Blank, reserved and repeated ids are dropped; the first one wins.
  function Deduped(ps: seq<Partition>): seq<Partition> {
    if ps == [] then []
    else
      var front, p := Deduped(ps[..|ps| - 1]), Partition(Trim(ps[|ps| - 1].id), Trim(ps[|ps| - 1].name));
      if p.id == "" || p.name == "" || p.id == UNCLASSIFIED_PARTITION_ID || p.id in PartitionIDs(front) then front
      else front + [p]
  }

  function PartitionIDs(ps: seq<Partition>): seq<string> {
    seq(|ps|, i requires 0 <= i < |ps| => ps[i].id)
  }

  predicate DistinctIDs(ps: seq<Partition>) {
    forall i, j :: 0 <= i < j < |ps| ==> ps[i].id != ps[j].id
  }

  lemma {:induction false} DedupedIsDistinct(ps: seq<Partition>)
    ensures DistinctIDs(Deduped(ps)) && UNCLASSIFIED_PARTITION_ID !in PartitionIDs(Deduped(ps))
  {
    if ps != [] {
      var front := Deduped(ps[..|ps| - 1]);
      DedupedIsDistinct(ps[..|ps| - 1]);
      var all := Deduped(ps);
      assert forall i :: 0 <= i < |front| ==> PartitionIDs(front)[i] == front[i].id == all[i].id;
    }
  }

  method DedupePartitions(partitions: seq<Partition>) returns (deduped: seq<Partition>)
    ensures deduped == Deduped(partitions)
  {
    var seen: set<string> := {};
    deduped := [];
    for i := 0 to |partitions|
      invariant deduped == Deduped(partitions[..i])
      invariant forall id :: id in seen <==> id in PartitionIDs(deduped)
    {
      assert partitions[..i + 1][..i] == partitions[..i];
      var id, name := Trim(partitions[i].id), Trim(partitions[i].name);
      if id == "" || name == "" || id == UNCLASSIFIED_PARTITION_ID || id in seen {
        continue;
      }
      seen := seen + {id};
      assert PartitionIDs(deduped + [Partition(id, name)]) == PartitionIDs(deduped) + [id];
      deduped := deduped + [Partition(id, name)];
    }
    assert partitions[..|partitions|] == partitions;
  }

  // The unclassified partition comes first.
  function Metas(input: Input): seq<Partition> {
    [Partition(UNCLASSIFIED_PARTITION_ID, input.unclassifiedName)] + Deduped(input.partitions)
  }

  // Where a session belongs: its assigned partition if that exists.
  function Target(input: Input, s: Session): string {
    if s.id in input.assignments && input.assignments[s.id] in PartitionIDs(Metas(input)) then input.assignments[s.id]
    else UNCLASSIFIED_PARTITION_ID
  }

  lemma TargetExists(input: Input, s: Session)
    ensures Target(input, s) in PartitionIDs(Metas(input))
  {
    assert PartitionIDs(Metas(input))[0] == UNCLASSIFIED_PARTITION_ID;
  }

  // What the map of sessions by id holds for the id of a session.
  function Resolve(all: seq<Session>, s: Session): (r: Session)
    ensures r.id == s.id
  {
    if all == [] then s
    else if all[|all| - 1].id == s.id then all[|all| - 1]
    else Resolve(all[..|all| - 1], s)
  }

  function ResolveEach(all: seq<Session>, some: seq<Session>): seq<Session> {
    if some == [] then []
    else ResolveEach(all, some[..|some| - 1]) + [Resolve(all, some[|some| - 1])]
  }

  predicate UniqueIDs(s: seq<Session>) {
    forall i, j :: 0 <= i < j < |s| ==> s[i].id != s[j].id
  }

  lemma {:induction false} ResolvesToItself(all: seq<Session>, k: nat)
    requires UniqueIDs(all) && k < |all|
    ensures Resolve(all, all[k]) == all[k]
    decreases |all|
  {
    if k < |all| - 1 { ResolvesToItself(all[..|all| - 1], k); }
  }

  lemma {:induction false} ResolveEachIsSame(all: seq<Session>, n: nat)
    requires UniqueIDs(all) && n <= |all|
    ensures ResolveEach(all, all[..n]) == all[..n]
    decreases n
  {
    if n > 0 {
      assert all[..n][..n - 1] == all[..n - 1];
      ResolveEachIsSame(all, n - 1);
      ResolvesToItself(all, n - 1);
    }
  }

  function AssignedTo(input: Input, id: string): Session -> bool {
    s => Target(input, s) == id
  }

  function Grouped(input: Input, id: string): seq<Session> {
    SortByRecentActivity(Filter(ResolveEach(input.sessions, input.sessions), AssignedTo(input, id)))
  }

  method BuildOrderedSessionsByPartition(input: Input) returns (grouped: map<string, seq<Session>>)
    ensures forall id :: id in PartitionIDs(Metas(input)) ==> id in grouped && grouped[id] == Grouped(input, id)
  {
    hide Metas, PartitionIDs, SortByRecentActivity;
    var ids := PartitionIDs(Metas(input));
    var sessions := input.sessions;
    grouped := map id | id in ids :: [];
    for i := 0 to |sessions|
      invariant forall id :: id in ids <==> id in grouped
      invariant forall id :: id in ids ==>
        grouped[id] == Filter(ResolveEach(sessions, sessions[..i]), AssignedTo(input, id))
    {
      var target := Target(input, sessions[i]);
      TargetExists(input, sessions[i]);
      GroupsGrow(input, i);
      grouped := grouped[target := grouped[target] + [Resolve(sessions, sessions[i])]];
    }
    assert sessions[..|sessions|] == sessions;
    grouped := map id | id in grouped :: SortByRecentActivity(grouped[id]);
  }

  lemma GroupsGrow(input: Input, i: nat)
    requires i < |input.sessions|
    ensures var s := input.sessions; forall id ::
              Filter(ResolveEach(s, s[..i + 1]), AssignedTo(input, id)) ==
              Filter(ResolveEach(s, s[..i]), AssignedTo(input, id)) +
              (if id == Target(input, s[i]) then [Resolve(s, s[i])] else [])
  {
    var s := input.sessions;
    var before, x := ResolveEach(s, s[..i]), Resolve(s, s[i]);
    assert s[..i + 1][..i] == s[..i];
    assert ResolveEach(s, s[..i + 1]) == before + [x] && (before + [x])[..|before|] == before;
    assert Target(input, x) == Target(input, s[i]);
  }

  // A blank query matches no name.
  predicate PartitionNameMatches(q: Query, name: string) {
    !q.blank && q.nameMatches(name)
  }

  function Matching(q: Query, name: string): Session -> bool {
    s => PartitionNameMatches(q, name) || q.matches(s)
  }

  function ManualView(input: Input, meta: Partition): View {
    View(meta.id, meta.name, false, Filter(Grouped(input, meta.id), Matching(input.query, meta.name)), [])
  }

  function ManualViews(input: Input, metas: seq<Partition>): seq<View> {
    if metas == [] then [] else [ManualView(input, metas[0])] + ManualViews(input, metas[1..])
  }

  // Under a query that is not blank, a partition without sessions is hidden.
  function HideEmpty(vs: seq<View>, blank: bool): seq<View> {
    if vs == [] then []
    else (if blank || vs[0].sessions != [] then [vs[0]] else []) + HideEmpty(vs[1..], blank)
  }

  function BuildSessionPartitionViews(input: Input): seq<View> {
    HideEmpty(ManualViews(input, Metas(input)), input.query.blank)
  }

  // ------------------------------------------------------ source partitions

  predicate OfKind(input: Input, kind: SourceKind, s: Session) {
    s.id in input.sources && input.sources[s.id].kind == kind
  }

  function KindName(kind: SourceKind): string {
    match kind
    case Workflow => "workflow"
    case Orchestration => "orchestration"
    case Loop => "loop"
    case Task => "task"
  }

  function OwnerID(kind: SourceKind, a: SourceAssignment): string {
    if Trim(a.ownerID) != "" then Trim(a.ownerID) else KindName(kind)
  }

  function OwnerName(kind: SourceKind, a: SourceAssignment): string {
    if Trim(a.ownerName) != "" then Trim(a.ownerName) else OwnerID(kind, a)
  }

  datatype Group = Group(ownerID: string, name: string, sessions: seq<Session>)

  // The session joins the group of its owner, which is opened at the end if the
  // owner has none; the first session of a group names it.
  function Join(groups: seq<Group>, ownerID: string, name: string, s: Session): seq<Group> {
    if groups == [] then [Group(ownerID, name, [s])]
    else if groups[0].ownerID == ownerID then [groups[0].(sessions := groups[0].sessions + [s])] + groups[1..]
    else [groups[0]] + Join(groups[1..], ownerID, name, s)
  }

  function SourceGroups(input: Input, kind: SourceKind, sessions: seq<Session>): seq<Group> {
    if sessions == [] then []
    else
      var before, s := SourceGroups(input, kind, sessions[..|sessions| - 1]), sessions[|sessions| - 1];
      if !OfKind(input, kind, s) then before
      else
        var a := input.sources[s.id];
        Join(before, OwnerID(kind, a), OwnerName(kind, a), s)
  }

  method GroupSourceSessions(input: Input, kind: SourceKind) returns (groups: seq<Group>)
    ensures groups == SourceGroups(input, kind, input.sessions)
  {
    var sessions := input.sessions;
    groups := [];
    for i := 0 to |sessions|
      invariant groups == SourceGroups(input, kind, sessions[..i])
    {
      var session := sessions[i];
      assert sessions[..i + 1][..i] == sessions[..i];
      if session.id !in input.sources || input.sources[session.id].kind != kind {
        continue;
      }
      var assignment := input.sources[session.id];
      groups := JoinGroup(groups, OwnerID(kind, assignment), OwnerName(kind, assignment), session);
    }
    assert sessions[..|sessions|] == sessions;
  }

  method JoinGroup(before: seq<Group>, ownerID: string, name: string, session: Session) returns (groups: seq<Group>)
    ensures groups == Join(before, ownerID, name, session)
  {
    groups := before;
    var k := 0;
    while k < |groups| && groups[k].ownerID != ownerID
      invariant k <= |before| && groups == before
      invariant Join(before, ownerID, name, session) == before[..k] + Join(before[k..], ownerID, name, session)
    {
      assert before[k..][1..] == before[k + 1..];
      assert before[..k + 1] + Join(before[k + 1..], ownerID, name, session) ==
        before[..k] + ([before[k]] + Join(before[k + 1..], ownerID, name, session));
      k := k + 1;
    }
    if k == |groups| {
      assert before[..k] == before && [] + [session] == [session];
      groups := groups + [Group(ownerID, name, [])];
    } else {
      assert before[k..][0] == before[k] && before[k..][1..] == before[k + 1..];
    }
    groups := groups[k := groups[k].(sessions := groups[k].sessions + [session])];
  }

  function PassesAny(q: Query, parentMatches: bool, name: string): Session -> bool {
    s => parentMatches || PartitionNameMatches(q, name) || q.matches(s)
  }

  function SourcePartitionID(kind: SourceKind): string {
    match kind
    case Workflow => "__source_workflow__"
    case Orchestration => "__source_orchestration__"
    case Loop => "__source_loop__"
    case Task => "__source_task__"
  }

  function SystemChildPartition(input: Input, kind: SourceKind, group: Group, parentMatches: bool): View {
    View(SourcePartitionID(kind) + "::" + group.ownerID, group.name, true,
         SortByRecentActivity(Filter(group.sessions, PassesAny(input.query, parentMatches, group.name))), [])
  }

  function SystemChildPartitions(input: Input, kind: SourceKind, groups: seq<Group>, parentMatches: bool): seq<View> {
    if groups == [] then []
    else
      var view := SystemChildPartition(input, kind, groups[0], parentMatches);
      (if view.sessions != [] then [view] else []) + SystemChildPartitions(input, kind, groups[1..], parentMatches)
  }

  function SystemView(input: Input, kind: SourceKind): View {
    var name := input.sourceName(kind);
    var children := SystemChildPartitions(input, kind, SourceGroups(input, kind, input.sessions),
                                          PartitionNameMatches(input.query, name));
    View(SourcePartitionID(kind), name, true, SortByRecentActivity(SessionsOfAll(children)), children)
  }

  function SessionsOfAll(vs: seq<View>): seq<Session> {
    if vs == [] then [] else vs[0].sessions + SessionsOfAll(vs[1..])
  }

  function SystemViews(input: Input, kinds: seq<SourceKind>): seq<View> {
    if kinds == [] then []
    else
      var view := SystemView(input, kinds[0]);
      (if view.sessions != [] then [view] else []) + SystemViews(input, kinds[1..])
  }

  // ---------------------------------------------------------------- merging

  function LeftToManual(input: Input): Session -> bool {
    (s: Session) => s.id !in input.sources && s.id !in input.hidden
  }

  function FilterManualViews(input: Input, vs: seq<View>): seq<View> {
    if vs == [] then []
    else [vs[0].(sessions := Filter(vs[0].sessions, LeftToManual(input)))] + FilterManualViews(input, vs[1..])
  }

  // The first unclassified view, if there is one.
  function UnclassifiedView(vs: seq<View>): seq<View> {
    if vs == [] then []
    else if vs[0].id == UNCLASSIFIED_PARTITION_ID then [vs[0]]
    else UnclassifiedView(vs[1..])
  }

  function CustomViews(vs: seq<View>): seq<View> {
    if vs == [] then []
    else (if vs[0].id != UNCLASSIFIED_PARTITION_ID then [vs[0]] else []) + CustomViews(vs[1..])
  }

  function MergeSessionSourcePartitionViews(input: Input, manualViews: seq<View>): seq<View> {
    var manual := HideEmpty(FilterManualViews(input, manualViews), input.query.blank);
    UnclassifiedView(manual) + SystemViews(input, SOURCE_ORDER) + CustomViews(manual)
  }

  function SidebarViews(input: Input): seq<View> {
    MergeSessionSourcePartitionViews(input, BuildSessionPartitionViews(input))
  }

  // --------------------------------------------------- nothing is lost, or twice

  // The sessions at the leaves of the tree.
  function Leaves(vs: seq<View>): seq<Session> {
    FlattenAll(vs, {})
  }

  lemma {:induction false} LeavesOfConcat(a: seq<View>, b: seq<View>)
    ensures Leaves(a + b) == Leaves(a) + Leaves(b)
    decreases |a|
  {
    if a == [] {
      assert a + b == b;
    } else {
      assert (a + b)[1..] == a[1..] + b;
      LeavesOfConcat(a[1..], b);
    }
  }

  // The name that a search sees for the partition with an id.
  function NameOf(metas: seq<Partition>, id: string): string {
    if metas == [] then "" else if metas[0].id == id then metas[0].name else NameOf(metas[1..], id)
  }

  function GroupNameOf(groups: seq<Group>, ownerID: string): string {
    if groups == [] then ""
    else if groups[0].ownerID == ownerID then groups[0].name
    else GroupNameOf(groups[1..], ownerID)
  }

  // Whether the sidebar is to show a session: the sessions of sources in their
  // source's partition, whether hidden or not; the others, unless hidden, in the
  // partition they are assigned to; and either way only if the query matches the
  // session or the name of a partition above it.
  predicate ShownAsSource(input: Input, s: Session) {
    s.id in input.sources &&
    var a := input.sources[s.id];
    var groups := SourceGroups(input, a.kind, input.sessions);
    || PartitionNameMatches(input.query, input.sourceName(a.kind))
    || PartitionNameMatches(input.query, GroupNameOf(groups, OwnerID(a.kind, a)))
    || input.query.matches(s)
  }

  predicate ShownAsManual(input: Input, s: Session) {
    && s.id !in input.sources && s.id !in input.hidden
    && (PartitionNameMatches(input.query, NameOf(Metas(input), Target(input, s))) || input.query.matches(s))
  }

  predicate Shown(input: Input, s: Session) {
    ShownAsSource(input, s) || ShownAsManual(input, s)
  }

  function Count(s: seq<Session>, x: Session): nat {
    multiset(s)[x]
  }

  // ---- manual views

  predicate AllLeaves(vs: seq<View>) {
    forall v :: v in vs ==> !HasChildren(v)
  }

  lemma {:induction false} HidingKeepsLeaves(vs: seq<View>, blank: bool)
    requires AllLeaves(vs)
    ensures Leaves(HideEmpty(vs, blank)) == Leaves(vs)
  {
    if vs != [] {
      HidingKeepsLeaves(vs[1..], blank);
      LeavesOfConcat(if blank || vs[0].sessions != [] then [vs[0]] else [], HideEmpty(vs[1..], blank));
      assert [vs[0]][1..] == [] && Leaves([vs[0]]) == Flatten(vs[0], {}) + Leaves([]);
    }
  }

  lemma LeavesOfCons(v: View, rest: seq<View>)
    requires !HasChildren(v)
    ensures Leaves([v] + rest) == v.sessions + Leaves(rest)
  {
    var vs := [v] + rest;
    assert vs[0] == v && vs[1..] == rest;
    assert FlattenAll(vs, {}) == Flatten(v, {}) + FlattenAll(rest, {});
    assert Flatten(v, {}) == v.sessions;
  }

  // What a search leaves of a manual partition and the sources do not take.
  lemma ManualViewCounts(input: Input, meta: Partition, x: Session)
    requires UniqueIDs(input.sessions)
    ensures Count(Filter(ManualView(input, meta).sessions, LeftToManual(input)), x) ==
            if Target(input, x) == meta.id && x.id !in input.sources && x.id !in input.hidden &&
               (PartitionNameMatches(input.query, meta.name) || input.query.matches(x))
            then Count(input.sessions, x) else 0
  {
    hide Target, PartitionNameMatches;
    var s := input.sessions;
    assert s[..|s|] == s;
    ResolveEachIsSame(s, |s|);
    FilterCounts(s, AssignedTo(input, meta.id), x);
    FilterCounts(Grouped(input, meta.id), Matching(input.query, meta.name), x);
    FilterCounts(ManualView(input, meta).sessions, LeftToManual(input), x);
  }

  lemma {:induction false} ManualViewsCount(input: Input, metas: seq<Partition>, x: Session)
    requires UniqueIDs(input.sessions) && DistinctIDs(metas)
    ensures Count(Leaves(FilterManualViews(input, ManualViews(input, metas))), x) ==
            if Target(input, x) in PartitionIDs(metas) && x.id !in input.sources && x.id !in input.hidden &&
               (PartitionNameMatches(input.query, NameOf(metas, Target(input, x))) || input.query.matches(x))
            then Count(input.sessions, x) else 0
  {
    hide Target, PartitionNameMatches, Grouped, Filter, Matching, PartitionIDs, DistinctIDs;
    if metas != [] {
      IDsOfRest(metas);
      ManualViewsCount(input, metas[1..], x);
      ManualViewCounts(input, metas[0], x);
      FirstManualView(input, metas);
    } else {
      assert PartitionIDs(metas) == [] by { NoIDs(); }
    }
  }

  lemma NoIDs()
    ensures PartitionIDs([]) == []
  {
  }

  lemma {:induction false} FirstManualView(input: Input, metas: seq<Partition>)
    requires metas != []
    ensures Leaves(FilterManualViews(input, ManualViews(input, metas))) ==
            Filter(ManualView(input, metas[0]).sessions, LeftToManual(input)) +
            Leaves(FilterManualViews(input, ManualViews(input, metas[1..])))
  {
    hide Target, PartitionNameMatches, Grouped, Filter, Matching;
    var some := ManualViews(input, metas);
    assert some[0] == ManualView(input, metas[0]) && some[1..] == ManualViews(input, metas[1..]);
    var vs := FilterManualViews(input, some);
    var rest := FilterManualViews(input, some[1..]);
    LeavesOfCons(vs[0], rest);
    assert vs == [vs[0]] + rest;
  }

  lemma {:induction false} ManualViewsAreLeaves(input: Input, metas: seq<Partition>)
    ensures AllLeaves(FilterManualViews(input, ManualViews(input, metas)))
  {
    hide Target, PartitionNameMatches, Grouped, Filter, Matching;
    if metas != [] {
      ManualViewsAreLeaves(input, metas[1..]);
      var some := ManualViews(input, metas);
      assert some[0] == ManualView(input, metas[0]) && some[1..] == ManualViews(input, metas[1..]);
    }
  }

  lemma IDsOfRest(metas: seq<Partition>)
    requires metas != []
    ensures PartitionIDs(metas) == [metas[0].id] + PartitionIDs(metas[1..])
    ensures DistinctIDs(metas) ==> DistinctIDs(metas[1..]) && metas[0].id !in PartitionIDs(metas[1..])
  {
    assert forall i :: 0 <= i < |metas| - 1 ==> metas[1..][i] == metas[i + 1];
  }

  // Hiding before the sources take their sessions away makes no difference after.
  lemma {:induction false} HidingTwice(input: Input, vs: seq<View>, blank: bool)
    ensures HideEmpty(FilterManualViews(input, HideEmpty(vs, blank)), blank) ==
            HideEmpty(FilterManualViews(input, vs), blank)
  {
    if vs != [] {
      HidingTwice(input, vs[1..], blank);
      var rest := HideEmpty(vs[1..], blank);
      if blank || vs[0].sessions != [] {
        assert ([vs[0]] + rest)[1..] == rest;
      } else {
        assert [] + rest == rest;
      }
    }
  }

  lemma {:induction false} CustomViewsOfManual(input: Input, metas: seq<Partition>, blank: bool)
    requires UNCLASSIFIED_PARTITION_ID !in PartitionIDs(metas)
    ensures var vs := HideEmpty(FilterManualViews(input, ManualViews(input, metas)), blank);
            CustomViews(vs) == vs && UnclassifiedView(vs) == []
  {
    hide Grouped;
    if metas != [] {
      IDsOfRest(metas);
      CustomViewsOfManual(input, metas[1..], blank);
      var some := ManualViews(input, metas);
      assert some[1..] == ManualViews(input, metas[1..]);
      var all := FilterManualViews(input, some);
      assert all[1..] == FilterManualViews(input, some[1..]) && all[0].id == metas[0].id;
      var vs, rest := HideEmpty(all, blank), HideEmpty(all[1..], blank);
      assert vs == rest || (vs == [all[0]] + rest && vs[1..] == rest);
    }
  }

  // Splitting off the unclassified view loses none.
  lemma SplitManualViews(input: Input, blank: bool)
    ensures var vs := HideEmpty(FilterManualViews(input, ManualViews(input, Metas(input))), blank);
            vs == UnclassifiedView(vs) + CustomViews(vs)
  {
    hide Grouped;
    var metas := Metas(input);
    assert metas[1..] == Deduped(input.partitions);
    DedupedIsDistinct(input.partitions);
    CustomViewsOfManual(input, metas[1..], blank);
    var some := ManualViews(input, metas);
    assert some[1..] == ManualViews(input, metas[1..]);
    var all := FilterManualViews(input, some);
    assert all[1..] == FilterManualViews(input, some[1..]) && all[0].id == metas[0].id;
    var vs, rest := HideEmpty(all, blank), HideEmpty(all[1..], blank);
    assert vs == rest || (vs == [all[0]] + rest && vs[1..] == rest);
  }

  lemma MetasAreDistinct(input: Input)
    ensures DistinctIDs(Metas(input))
  {
    DedupedIsDistinct(input.partitions);
    var rest := Deduped(input.partitions);
    assert forall i :: 0 <= i < |rest| ==> PartitionIDs(rest)[i] == rest[i].id;
  }

  lemma {:induction false} ManualPartCounts(input: Input, x: Session)
    requires UniqueIDs(input.sessions)
    ensures var manual := HideEmpty(FilterManualViews(input, BuildSessionPartitionViews(input)), input.query.blank);
            Count(Leaves(UnclassifiedView(manual)), x) + Count(Leaves(CustomViews(manual)), x) ==
            if ShownAsManual(input, x) then Count(input.sessions, x) else 0
  {
    hide Target, PartitionNameMatches, Grouped, ManualViews, FilterManualViews;
    var metas := Metas(input);
    var all := FilterManualViews(input, ManualViews(input, metas));
    var manual := HideEmpty(all, input.query.blank);
    HidingTwice(input, ManualViews(input, metas), input.query.blank);
    SplitManualViews(input, input.query.blank);
    LeavesOfConcat(UnclassifiedView(manual), CustomViews(manual));
    MetasAreDistinct(input);
    ManualViewsCount(input, metas, x);
    ManualViewsAreLeaves(input, metas);
    HidingKeepsLeaves(all, input.query.blank);
    TargetExists(input, x);
  }

  // ---- system views

  function Owners(groups: seq<Group>): seq<string> {
    if groups == [] then [] else [groups[0].ownerID] + Owners(groups[1..])
  }

  predicate DistinctOwners(groups: seq<Group>) {
    groups != [] ==> groups[0].ownerID !in Owners(groups[1..]) && DistinctOwners(groups[1..])
  }

  predicate InGroup(input: Input, kind: SourceKind, ownerID: string, s: Session) {
    OfKind(input, kind, s) && OwnerID(kind, input.sources[s.id]) == ownerID
  }

  // The sessions of an owner's group.
  function Members(groups: seq<Group>, ownerID: string): seq<Session> {
    if groups == [] then []
    else if groups[0].ownerID == ownerID then groups[0].sessions
    else Members(groups[1..], ownerID)
  }

  lemma {:induction false} JoinAdds(groups: seq<Group>, ownerID: string, name: string, s: Session, other: string)
    requires DistinctOwners(groups)
    ensures var next := Join(groups, ownerID, name, s);
            DistinctOwners(next) &&
            (other in Owners(next) <==> other == ownerID || other in Owners(groups)) &&
            Members(next, other) == Members(groups, other) + (if other == ownerID then [s] else [])
  {
    if groups != [] && groups[0].ownerID != ownerID {
      var rest := Join(groups[1..], ownerID, name, s);
      JoinAdds(groups[1..], ownerID, name, s, other);
      JoinAdds(groups[1..], ownerID, name, s, groups[0].ownerID);
      assert ([groups[0]] + rest)[1..] == rest;
    } else if groups != [] {
      var g := groups[0].(sessions := groups[0].sessions + [s]);
      assert ([g] + groups[1..])[1..] == groups[1..];
    }
  }

  // Every session of a kind is in the group of its owner, and in no other.
  lemma {:induction false} GroupsPartition(input: Input, kind: SourceKind, sessions: seq<Session>,
    owner: string, x: Session)
    ensures var groups := SourceGroups(input, kind, sessions);
            DistinctOwners(groups) &&
            Count(Members(groups, owner), x) == (if InGroup(input, kind, owner, x) then Count(sessions, x) else 0) &&
            (x in sessions && InGroup(input, kind, owner, x) ==> owner in Owners(groups))
    decreases |sessions|
  {
    hide OwnerID, OwnerName, Owners, DistinctOwners, Members, Join;
    if sessions != [] {
      var front, s := sessions[..|sessions| - 1], sessions[|sessions| - 1];
      assert sessions == front + [s];
      GroupsPartition(input, kind, front, owner, x);
      if OfKind(input, kind, s) {
        var a := input.sources[s.id];
        JoinAdds(SourceGroups(input, kind, front), OwnerID(kind, a), OwnerName(kind, a), s, owner);
      }
    } else {
      assert Members([], owner) == [] && DistinctOwners([]) by { EmptyGroups(owner); }
    }
  }

  lemma {:induction false} ChildrenCount(input: Input, kind: SourceKind, groups: seq<Group>, parentMatches: bool,
                                         owner: string, x: Session)
    requires DistinctOwners(groups)
    requires forall o :: o in Owners(groups) && o != owner ==> Count(Members(groups, o), x) == 0
    ensures Count(Leaves(SystemChildPartitions(input, kind, groups, parentMatches)), x) ==
            if PassesAny(input.query, parentMatches, GroupNameOf(groups, owner))(x)
            then Count(Members(groups, owner), x) else 0
  {
    hide PartitionNameMatches, Filter;
    if groups != [] {
      var rest := groups[1..];
      forall o | o in Owners(rest) && o != owner ensures Count(Members(rest, o), x) == 0 {
        assert o in Owners(groups) && Members(groups, o) == Members(rest, o);
      }
      ChildrenCount(input, kind, rest, parentMatches, owner, x);
      FirstChild(input, kind, groups, parentMatches);
      FilterCounts(groups[0].sessions, PassesAny(input.query, parentMatches, groups[0].name), x);
      if groups[0].ownerID == owner {
        NoMembers(rest, owner);
      } else {
        assert groups[0].ownerID in Owners(groups) && Members(groups, groups[0].ownerID) == groups[0].sessions;
      }
    }
  }

  lemma {:induction false} NoMembers(groups: seq<Group>, owner: string)
    requires owner !in Owners(groups)
    ensures Members(groups, owner) == []
  {
    if groups != [] { NoMembers(groups[1..], owner); }
  }

  lemma FirstChild(input: Input, kind: SourceKind, groups: seq<Group>, parentMatches: bool)
    requires groups != []
    ensures var sessions := Filter(groups[0].sessions, PassesAny(input.query, parentMatches, groups[0].name));
            Leaves(SystemChildPartitions(input, kind, groups, parentMatches)) ==
            SortByRecentActivity(sessions) + Leaves(SystemChildPartitions(input, kind, groups[1..], parentMatches))
  {
    hide PassesAny, Filter;
    var view := SystemChildPartition(input, kind, groups[0], parentMatches);
    var rest := SystemChildPartitions(input, kind, groups[1..], parentMatches);
    assert [] + rest == rest;
    LeavesOfCons(view, rest);
  }

  // Across the source partitions: the sessions of the kinds listed.
  lemma SystemViewCounts(input: Input, kind: SourceKind, x: Session)
    ensures Count(Leaves(SystemView(input, kind).childPartitions), x) ==
            if OfKind(input, kind, x) && ShownAsSource(input, x) then Count(input.sessions, x) else 0
  {
    hide PartitionNameMatches, SystemChildPartitions, Members, DistinctOwners, Owners, GroupNameOf, OwnerID,
      SourceGroups;
    var groups := SourceGroups(input, kind, input.sessions);
    var owner := if OfKind(input, kind, x) then OwnerID(kind, input.sources[x.id]) else "";
    GroupsPartition(input, kind, input.sessions, owner, x);
    forall o | o in Owners(groups) && o != owner ensures Count(Members(groups, o), x) == 0 {
      GroupsPartition(input, kind, input.sessions, o, x);
    }
    ChildrenCount(input, kind, groups, PartitionNameMatches(input.query, input.sourceName(kind)), owner, x);
  }

  lemma {:induction false} ChildrenAreLeaves(input: Input, kind: SourceKind, groups: seq<Group>, parentMatches: bool)
    ensures var vs := SystemChildPartitions(input, kind, groups, parentMatches);
            AllLeaves(vs) && Leaves(vs) == SessionsOfAll(vs)
  {
    if groups != [] {
      ChildrenAreLeaves(input, kind, groups[1..], parentMatches);
      var view := SystemChildPartition(input, kind, groups[0], parentMatches);
      var rest := SystemChildPartitions(input, kind, groups[1..], parentMatches);
      assert [] + rest == rest && ([view] + rest)[1..] == rest;
      LeavesOfCons(view, rest);
    }
  }

  // The sessions that a source partition lists itself are those of its children.
  lemma SystemViewListsItsChildren(input: Input, kind: SourceKind)
    ensures var v := SystemView(input, kind);
            Sorted(v.sessions) && multiset(v.sessions) == multiset(Leaves(v.childPartitions)) &&
            (v.sessions == [] <==> !HasChildren(v))
  {
    hide SystemChildPartition, SortByRecentActivity, SourceGroups, Sorted;
    var v := SystemView(input, kind);
    ChildrenAreLeaves(input, kind, SourceGroups(input, kind, input.sessions),
                      PartitionNameMatches(input.query, input.sourceName(kind)));
    SortIsSorted(SessionsOfAll(v.childPartitions));
    NoneWithoutSessions(input, kind, SourceGroups(input, kind, input.sessions),
                        PartitionNameMatches(input.query, input.sourceName(kind)));
    assert |v.sessions| == |multiset(v.sessions)| == |SessionsOfAll(v.childPartitions)|;
  }

  lemma {:induction false} NoneWithoutSessions(input: Input, kind: SourceKind, groups: seq<Group>, parentMatches: bool)
    ensures var vs := SystemChildPartitions(input, kind, groups, parentMatches); SessionsOfAll(vs) == [] <==> vs == []
  {
    if groups != [] {
      NoneWithoutSessions(input, kind, groups[1..], parentMatches);
      var view := SystemChildPartition(input, kind, groups[0], parentMatches);
      var rest := SystemChildPartitions(input, kind, groups[1..], parentMatches);
      assert [] + rest == rest && ([view] + rest)[0] == view;
    }
  }

  predicate DistinctKinds(kinds: seq<SourceKind>) {
    forall i, j :: 0 <= i < j < |kinds| ==> kinds[i] != kinds[j]
  }

  lemma {:induction false} SystemViewsCount(input: Input, kinds: seq<SourceKind>, x: Session)
    requires DistinctKinds(kinds)
    ensures Count(Leaves(SystemViews(input, kinds)), x) ==
            if ShownAsSource(input, x) && input.sources[x.id].kind in kinds then Count(input.sessions, x) else 0
    decreases |kinds|
  {
    hide SystemView, ShownAsSource, Leaves, SourceGroups;
    if kinds != [] {
      SystemViewsCount(input, kinds[1..], x);
      SystemViewCounts(input, kinds[0], x);
      FirstSystemView(input, kinds);
      SourceHasKind(input, x);
    } else {
      NoLeaves();
    }
  }

  lemma NoLeaves()
    ensures Leaves([]) == []
  {
  }

  lemma {:induction false} FirstSystemView(input: Input, kinds: seq<SourceKind>)
    requires kinds != []
    ensures Leaves(SystemViews(input, kinds)) ==
            Leaves(SystemView(input, kinds[0]).childPartitions) + Leaves(SystemViews(input, kinds[1..]))
  {
    hide SystemView, Sorted;
    var v, rest := SystemView(input, kinds[0]), SystemViews(input, kinds[1..]);
    SystemViewListsItsChildren(input, kinds[0]);
    assert [] + rest == rest && ([v] + rest)[1..] == rest && ([v] + rest)[0] == v;
    assert Flatten(v, {}) == if HasChildren(v) then Leaves(v.childPartitions) else v.sessions;
  }

  lemma SourceHasKind(input: Input, x: Session)
    ensures ShownAsSource(input, x) ==> x.id in input.sources
  {
  }

  lemma EmptyGroups(owner: string)
    ensures Members([], owner) == [] && DistinctOwners([])
  {
  }

  // ---- the whole sidebar

  // For every query, each session is at exactly one leaf if it is to be shown, and
  // at none otherwise: moving sessions between partitions loses and repeats none.
  lemma {:induction false} SidebarConservesSessions(input: Input, x: Session)
    requires UniqueIDs(input.sessions)
    ensures Count(Leaves(SidebarViews(input)), x) == if x in input.sessions && Shown(input, x) then 1 else 0
  {
    hide ShownAsManual, ShownAsSource, SystemViews, HideEmpty, FilterManualViews, BuildSessionPartitionViews,
         UnclassifiedView, CustomViews;
    var manual := HideEmpty(FilterManualViews(input, BuildSessionPartitionViews(input)), input.query.blank);
    var a, b, c := UnclassifiedView(manual), SystemViews(input, SOURCE_ORDER), CustomViews(manual);
    LeavesOfConcat(a + b, c);
    LeavesOfConcat(a, b);
    ManualPartCounts(input, x);
    SystemViewsCount(input, SOURCE_ORDER, x);
    EitherSourceOrManual(input, x);
    UniqueCount(input.sessions, x);
  }

  lemma EitherSourceOrManual(input: Input, x: Session)
    ensures !(ShownAsSource(input, x) && ShownAsManual(input, x))
    ensures ShownAsSource(input, x) ==> x.id in input.sources && input.sources[x.id].kind in SOURCE_ORDER
  {
    if ShownAsSource(input, x) {
      var kind := input.sources[x.id].kind;
      assert kind == SOURCE_ORDER[if kind == Workflow then 0 else if kind == Orchestration then 1
                                  else if kind == Loop then 2 else 3];
    }
  }

  lemma {:induction false} UniqueCount(s: seq<Session>, x: Session)
    requires UniqueIDs(s)
    ensures Count(s, x) == if x in s then 1 else 0
  {
    if s != [] {
      assert s == s[..|s| - 1] + [s[|s| - 1]];
      UniqueCount(s[..|s| - 1], x);
      assert forall i :: 0 <= i < |s| - 1 ==> s[i].id != s[|s| - 1].id;
    }
  }

  // Without a query, only the hidden sessions that belong to no source are missing.
  lemma {:induction false} UnsearchedSidebarShowsAll(input: Input, x: Session)
    requires UniqueIDs(input.sessions) && input.query.blank
    requires forall s :: s in input.sessions ==> input.query.matches(s)
    ensures x in Leaves(SidebarViews(input)) <==>
            x in input.sessions && !(x.id in input.hidden && x.id !in input.sources)
    ensures Count(Leaves(SidebarViews(input)), x) <= 1
  {
    hide SidebarViews, Leaves, SourceGroups, UniqueIDs, Metas, Target;
    SidebarConservesSessions(input, x);
    var leaves := Leaves(SidebarViews(input));
    assert x in leaves <==> x in multiset(leaves);
  }

  // ----------------------------------------------------------- moving a session

  function PruneAssignments(input: Input): map<string, string> {
    map id | id in input.assignments && (exists s :: s in input.sessions && s.id == id) &&
             input.assignments[id] in PartitionIDs(Deduped(input.partitions)) :: input.assignments[id]
  }

  function SanitizeSessionPartitionStore(input: Input): Input {
    input.(partitions := Deduped(input.partitions), assignments := PruneAssignments(input))
  }

  datatype MoveResult = Moved(input: Input) | UnknownSession | UnknownPartition

  function MoveSessionToPartition(input: Input, sessionID: string, target: string): MoveResult {
    var clean := SanitizeSessionPartitionStore(input);
    if !exists s :: s in input.sessions && s.id == sessionID then UnknownSession
    else if target !in PartitionIDs(Metas(input)) then UnknownPartition
    else if target == UNCLASSIFIED_PARTITION_ID then Moved(clean.(assignments := clean.assignments - {sessionID}))
    else Moved(clean.(assignments := clean.assignments[sessionID := target]))
  }

  predicate Clean(p: Partition) {
    && Trim(p.id) == p.id && Trim(p.name) == p.name
    && p.id != "" && p.name != "" && p.id != UNCLASSIFIED_PARTITION_ID
  }

  lemma {:induction false} DedupedIsClean(ps: seq<Partition>)
    ensures forall p :: p in Deduped(ps) ==> Clean(p)
  {
    if ps != [] {
      DedupedIsClean(ps[..|ps| - 1]);
      TrimTwice(ps[|ps| - 1].id);
      TrimTwice(ps[|ps| - 1].name);
    }
  }

  lemma {:induction false} CleanStays(ps: seq<Partition>)
    requires DistinctIDs(ps) && forall p :: p in ps ==> Clean(p)
    ensures Deduped(ps) == ps
  {
    hide Trim, PartitionIDs;
    if ps != [] {
      var front, p := ps[..|ps| - 1], ps[|ps| - 1];
      assert ps == front + [p] && p in ps;
      forall q | q in front ensures Clean(q) { assert q in ps; }
      CleanStays(front);
      NotAmong(front, p.id);
      assert Clean(p) && Partition(p.id, p.name) == p;
    }
  }

  lemma NotAmong(ps: seq<Partition>, id: string)
    requires forall i :: 0 <= i < |ps| ==> ps[i].id != id
    ensures id !in PartitionIDs(ps)
  {
  }

  lemma {:induction false} DedupedTwice(ps: seq<Partition>)
    ensures Deduped(Deduped(ps)) == Deduped(ps)
  {
    DedupedIsClean(ps);
    DedupedIsDistinct(ps);
    CleanStays(Deduped(ps));
  }

  // Moving a session succeeds exactly if the session and the partition exist; it
  // then belongs to that partition, and every other session where it belonged.
  lemma {:induction false} MovingRetargetsOne(input: Input, sessionID: string, target: string)
    ensures var r := MoveSessionToPartition(input, sessionID, target);
            && (r.Moved? <==>
                  target in PartitionIDs(Metas(input)) && exists s :: s in input.sessions && s.id == sessionID)
            && (r.Moved? ==> forall s :: s in input.sessions ==>
                  Target(r.input, s) == if s.id == sessionID then target else Target(input, s))
  {
    hide Deduped;
    var r := MoveSessionToPartition(input, sessionID, target);
    if r.Moved? {
      DedupedTwice(input.partitions);
      assert Metas(r.input) == Metas(input);
      IDsOfRest(Metas(input));
      assert Metas(input)[1..] == Deduped(input.partitions);
      forall s | s in input.sessions
        ensures Target(r.input, s) == if s.id == sessionID then target else Target(input, s)
      {
        assert s.id in PruneAssignments(input) <==>
               s.id in input.assignments && input.assignments[s.id] in PartitionIDs(Deduped(input.partitions));
      }
    }
  }

  // ---- the order

  predicate LeavesSorted(vs: seq<View>)
    decreases vs
  {
    forall v :: v in vs ==> Sorted(v.sessions) && (HasChildren(v) ==> LeavesSorted(v.childPartitions))
  }

  lemma {:induction false} ManualViewsAreSorted(input: Input, metas: seq<Partition>)
    ensures LeavesSorted(FilterManualViews(input, ManualViews(input, metas)))
  {
    hide Filter, Sorted, SortByRecentActivity, Target;
    if metas != [] {
      ManualViewsAreSorted(input, metas[1..]);
      var some, meta := ManualViews(input, metas), metas[0];
      assert some[0] == ManualView(input, meta) && some[1..] == ManualViews(input, metas[1..]);
      var s := Filter(ResolveEach(input.sessions, input.sessions), AssignedTo(input, meta.id));
      SortIsSorted(s);
      FilterSorted(SortByRecentActivity(s), Matching(input.query, meta.name));
      FilterSorted(ManualView(input, meta).sessions, LeftToManual(input));
    }
  }

  lemma {:induction false} ChildrenAreSorted(input: Input, kind: SourceKind, groups: seq<Group>, parentMatches: bool)
    ensures LeavesSorted(SystemChildPartitions(input, kind, groups, parentMatches))
  {
    hide Filter, Sorted, SortByRecentActivity;
    if groups != [] {
      ChildrenAreSorted(input, kind, groups[1..], parentMatches);
      SortIsSorted(Filter(groups[0].sessions, PassesAny(input.query, parentMatches, groups[0].name)));
    }
  }

  lemma {:induction false} SystemViewsAreSorted(input: Input, kinds: seq<SourceKind>)
    ensures LeavesSorted(SystemViews(input, kinds))
  {
    hide Sorted, SystemChildPartitions, SourceGroups, SortByRecentActivity;
    if kinds != [] {
      SystemViewsAreSorted(input, kinds[1..]);
      SystemViewListsItsChildren(input, kinds[0]);
      ChildrenAreSorted(input, kinds[0], SourceGroups(input, kinds[0], input.sessions),
                        PartitionNameMatches(input.query, input.sourceName(kinds[0])));
    }
  }

  lemma {:induction false} PartsOfViews(vs: seq<View>, blank: bool, v: View)
    ensures v in HideEmpty(vs, blank) || v in UnclassifiedView(vs) || v in CustomViews(vs) ==> v in vs
  {
    if vs != [] { PartsOfViews(vs[1..], blank, v); }
  }

  predicate RecentFirst(s: seq<Session>) {
    forall i, j :: 0 <= i < j < |s| ==>
      s[i].activity > s[j].activity || (s[i].activity == s[j].activity && s[i].order >= s[j].order)
  }

  lemma SortedIsRecentFirst(s: seq<Session>)
    ensures Sorted(s) <==> RecentFirst(s)
  {
  }

  // Every partition, at every level, lists its sessions by recent activity.
  lemma {:induction false} SidebarIsSorted(input: Input)
    ensures LeavesSorted(SidebarViews(input))
    ensures forall v :: v in SidebarViews(input) ==> RecentFirst(v.sessions)
  {
    hide SystemViews, HideEmpty, FilterManualViews, ManualViews, UnclassifiedView, CustomViews, Sorted, RecentFirst;
    var blank, some := input.query.blank, ManualViews(input, Metas(input));
    var all := FilterManualViews(input, some);
    var manual := HideEmpty(FilterManualViews(input, BuildSessionPartitionViews(input)), blank);
    HidingTwice(input, some, blank);
    ManualViewsAreSorted(input, Metas(input));
    SystemViewsAreSorted(input, SOURCE_ORDER);
    forall v | v in SidebarViews(input)
      ensures Sorted(v.sessions) && (HasChildren(v) ==> LeavesSorted(v.childPartitions))
    {
      PartsOfViews(manual, blank, v);
      PartsOfViews(all, blank, v);
    }
    forall v | v in SidebarViews(input) ensures RecentFirst(v.sessions) { SortedIsRecentFirst(v.sessions); }
  }
}
