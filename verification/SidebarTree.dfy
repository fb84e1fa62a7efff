// The tree of partitions in the sidebar: limiting it by session count, turning it
// into rows, and finding a session in it
// (apps/web/components/SessionSidebarFlatList.ts, SessionSidebarHistoryBody.tsx,
// apps/web/hooks/useSessionSidebarVisibleCount.ts).
module SidebarTree {
  import opened Options

  // `activity` is the parsed timestamp of the last activity and `order` the
  // position of the id in the collation of `localeCompare`.
  datatype Session = Session(id: string, activity: int, order: int)

  // No child partitions and an empty list of them are told apart nowhere.
  datatype View = View(id: string, name: string, readOnly: bool, sessions: seq<Session>, childPartitions: seq<View>)

  predicate HasChildren(v: View) {
    v.childPartitions != []
  }

  // ---------------------------------------------------------- what is shown

  // The sessions under a partition that are not inside a collapsed one.
  function Flatten(v: View, collapsed: set<string>): seq<Session>
    decreases v, 1
  {
    if v.id in collapsed then []
    else if HasChildren(v) then FlattenAll(v.childPartitions, collapsed)
    else v.sessions
  }

  function FlattenAll(vs: seq<View>, collapsed: set<string>): seq<Session>
    decreases vs, 0
  {
    if vs == [] then [] else Flatten(vs[0], collapsed) + FlattenAll(vs[1..], collapsed)
  }

  function CountSessionsInPartition(v: View, collapsed: set<string>): nat
    decreases v, 1
  {
    if v.id in collapsed then 0
    else if HasChildren(v) then CountSessionsInPartitionViews(v.childPartitions, collapsed)
    else |v.sessions|
  }

  function CountSessionsInPartitionViews(vs: seq<View>, collapsed: set<string>): nat
    decreases vs, 0
  {
    if vs == [] then 0
    else CountSessionsInPartition(vs[0], collapsed) + CountSessionsInPartitionViews(vs[1..], collapsed)
  }

  lemma {:induction false} CountIsLength(v: View, collapsed: set<string>)
    ensures CountSessionsInPartition(v, collapsed) == |Flatten(v, collapsed)|
    decreases v, 1
  {
    if HasChildren(v) { CountAllIsLength(v.childPartitions, collapsed); }
  }

  lemma {:induction false} CountAllIsLength(vs: seq<View>, collapsed: set<string>)
    ensures CountSessionsInPartitionViews(vs, collapsed) == |FlattenAll(vs, collapsed)|
    decreases vs, 0
  {
    if vs != [] {
      CountIsLength(vs[0], collapsed);
      CountAllIsLength(vs[1..], collapsed);
    }
  }

  // -------------------------------------------------------------- limiting

  // A collapsed partition keeps its header, a leaf the sessions that still fit,
  // and a partition of partitions those that keep something.
  function Limit(v: View, n: nat, collapsed: set<string>): (Option<View>, nat)
    decreases v, 1
  {
    if v.id in collapsed then
      (Some(v.(sessions := [], childPartitions := [])), n)
    else if HasChildren(v) then
      var (children, rest) := LimitAll(v.childPartitions, n, collapsed);
      if children == [] then (None, n) else (Some(v.(childPartitions := children)), rest)
    else if v.sessions == [] then
      (if v.readOnly then None else Some(v), n)
    else if n == 0 then (None, n)
    else
      var sessions := if n <= |v.sessions| then v.sessions[..n] else v.sessions;
      (Some(v.(sessions := sessions)), n - |sessions|)
  }

  function LimitAll(vs: seq<View>, n: nat, collapsed: set<string>): (seq<View>, nat)
    decreases vs, 0
  {
    if vs == [] then ([], n)
    else
      var (kept, n1) := Limit(vs[0], n, collapsed);
      if kept.None? then LimitAll(vs[1..], n, collapsed)
      else
        var (rest, n2) := LimitAll(vs[1..], n1, collapsed);
        ([kept.value] + rest, n2)
  }

  function Least(a: nat, b: nat): nat {
    if a < b then a else b
  }

  function First(s: seq<Session>, n: nat): seq<Session> {
    s[..Least(n, |s|)]
  }

  // Limiting keeps exactly the first `n` sessions that are shown.
  lemma {:induction false} LimitKeepsFirst(v: View, n: nat, collapsed: set<string>)
    ensures var (kept, rest) := Limit(v, n, collapsed);
            (if kept.Some? then Flatten(kept.value, collapsed) else []) == First(Flatten(v, collapsed), n) &&
            rest == n - Least(n, |Flatten(v, collapsed)|) &&
            (kept.Some? ==> kept.value.id == v.id)
    decreases v, 1
  {
    if v.id !in collapsed && HasChildren(v) { LimitAllKeepsFirst(v.childPartitions, n, collapsed); }
  }

  lemma {:induction false} LimitAllKeepsFirst(vs: seq<View>, n: nat, collapsed: set<string>)
    ensures var (kept, rest) := LimitAll(vs, n, collapsed);
            FlattenAll(kept, collapsed) == First(FlattenAll(vs, collapsed), n) &&
            rest == n - Least(n, |FlattenAll(vs, collapsed)|)
    decreases vs, 0
  {
    if vs != [] {
      var (kept, n1) := Limit(vs[0], n, collapsed);
      LimitKeepsFirst(vs[0], n, collapsed);
      LimitAllKeepsFirst(vs[1..], if kept.Some? then n1 else n, collapsed);
      var a, b := Flatten(vs[0], collapsed), FlattenAll(vs[1..], collapsed);
      FirstOfConcat(a, b, n);
      if kept.Some? {
        var rest := LimitAll(vs[1..], n1, collapsed).0;
        assert ([kept.value] + rest)[1..] == rest;
      } else {
        assert First(a, n) == [];
      }
    }
  }

  lemma FirstOfConcat(a: seq<Session>, b: seq<Session>, n: nat)
    ensures First(a + b, n) == First(a, n) + First(b, n - Least(n, |a|))
  {
  }

  // Limiting again by less is limiting once: as the limit grows, what was shown
  // stays where it is.
  lemma {:induction false} LimitTwice(v: View, n: nat, m: nat, collapsed: set<string>)
    requires n <= m
    ensures var (kept, _) := Limit(v, m, collapsed);
            if kept.Some? then Limit(kept.value, n, collapsed) == Limit(v, n, collapsed)
            else Limit(v, n, collapsed) == (None, n)
    decreases v, 1
  {
    if v.id in collapsed {
    } else if HasChildren(v) {
      var vs := v.childPartitions;
      LimitAllTwice(vs, n, m, collapsed);
    } else if v.sessions != [] && m > 0 {
      var sessions := if m <= |v.sessions| then v.sessions[..m] else v.sessions;
      if n <= |v.sessions| { assert sessions[..n] == v.sessions[..n]; }
    }
  }

  lemma {:induction false} LimitAllTwice(vs: seq<View>, n: nat, m: nat, collapsed: set<string>)
    requires n <= m
    ensures LimitAll(LimitAll(vs, m, collapsed).0, n, collapsed) == LimitAll(vs, n, collapsed)
    ensures LimitAll(vs, m, collapsed).0 == [] ==> LimitAll(vs, n, collapsed) == ([], n)
    decreases vs, 0
  {
    if vs != [] {
      var (keptM, m1) := Limit(vs[0], m, collapsed);
      var (keptN, n1) := Limit(vs[0], n, collapsed);
      LimitTwice(vs[0], n, m, collapsed);
      LimitKeepsFirst(vs[0], m, collapsed);
      LimitKeepsFirst(vs[0], n, collapsed);
      if keptM.None? {
        LimitAllTwice(vs[1..], n, m, collapsed);
      } else {
        var rest := LimitAll(vs[1..], m1, collapsed).0;
        assert ([keptM.value] + rest)[0] == keptM.value && ([keptM.value] + rest)[1..] == rest;
        LimitNoneKeepsCount(vs[0], n, collapsed);
        LimitAllTwice(vs[1..], if keptN.Some? then n1 else n, m1, collapsed);
      }
    }
  }

  lemma LimitNoneKeepsCount(v: View, n: nat, collapsed: set<string>)
    ensures Limit(v, n, collapsed).0.None? ==> n == 0 || Flatten(v, collapsed) == []
  {
    LimitKeepsFirst(v, n, collapsed);
  }

  method LimitPartitionViewsBySessionCount(partitionViews: seq<View>, sessionLimit: int, collapsed: set<string>)
    returns (limited: seq<View>)
    ensures limited == LimitAll(partitionViews, if sessionLimit < 0 then 0 else sessionLimit, collapsed).0
  {
    var remaining: nat := if sessionLimit < 0 then 0 else sessionLimit;
    limited := [];
    ghost var all := LimitAll(partitionViews, remaining, collapsed);
    assert partitionViews[0..] == partitionViews;
    for i := 0 to |partitionViews|
      invariant all.0 == limited + LimitAll(partitionViews[i..], remaining, collapsed).0
    {
      assert partitionViews[i..][0] == partitionViews[i] && partitionViews[i..][1..] == partitionViews[i + 1..];
      var partition, rest := LimitPartitionViewBySessionCount(partitionViews[i], remaining, collapsed);
      if partition.None? {
        continue;
      }
      ghost var more := LimitAll(partitionViews[i + 1..], rest, collapsed).0;
      assert limited + ([partition.value] + more) == limited + [partition.value] + more;
      limited := limited + [partition.value];
      remaining := rest;
    }
  }

  method LimitPartitionViewBySessionCount(v: View, remaining: nat, collapsed: set<string>)
    returns (partition: Option<View>, rest: nat)
    ensures (partition, rest) == Limit(v, remaining, collapsed)
    decreases v
  {
    if v.id in collapsed {
      return Some(v.(sessions := [], childPartitions := [])), remaining;
    }
    if HasChildren(v) {
      var vs := v.childPartitions;
      var children: seq<View> := [];
      var nextRemaining := remaining;
      ghost var all := LimitAll(vs, remaining, collapsed);
      assert vs[0..] == vs;
      for i := 0 to |vs|
        invariant all.0 == children + LimitAll(vs[i..], nextRemaining, collapsed).0
        invariant all.1 == LimitAll(vs[i..], nextRemaining, collapsed).1
        invariant children == [] ==> nextRemaining == remaining
      {
        assert vs[i..][0] == vs[i] && vs[i..][1..] == vs[i + 1..];
        var child, childRest := LimitPartitionViewBySessionCount(vs[i], nextRemaining, collapsed);
        if child.None? {
          continue;
        }
        ghost var more := LimitAll(vs[i + 1..], childRest, collapsed).0;
        assert children + ([child.value] + more) == children + [child.value] + more;
        children := children + [child.value];
        nextRemaining := childRest;
      }
      assert vs[|vs|..] == [] && children + [] == children;
      if |children| == 0 {
        return None, remaining;
      }
      return Some(v.(childPartitions := children)), nextRemaining;
    }
    if remaining <= 0 {
      if |v.sessions| == 0 && !v.readOnly {
        return Some(v.(sessions := [])), remaining;
      }
      return None, remaining;
    }
    var sessions := v.sessions[..Least(remaining, |v.sessions|)];
    if |sessions| == 0 {
      if v.readOnly {
        return None, remaining;
      }
      return Some(v.(sessions := sessions)), remaining;
    }
    assert |v.sessions| <= remaining ==> sessions == v.sessions;
    return Some(v.(sessions := sessions)), remaining - |sessions|;
  }

  // ------------------------------------------------------------------ rows

  datatype DropTarget = DropTarget(partitionID: string, insertIndex: nat)

  datatype Row =
    | HeaderRow(partitionID: string, partitionName: string, level: nat, isCollapsed: bool)
    | EmptyHintRow(partitionID: string)
    | DropLineRow(partitionID: string, index: nat)
    | SessionRow(session: Session, partitionID: string, itemIndex: nat, readOnly: bool)

  function BuildPartitionSessionRows(vs: seq<View>, dropTarget: Option<DropTarget>, collapsed: set<string>): seq<Row> {
    RowsForPartitions(vs, dropTarget, collapsed, 0)
  }

  function RowsForPartitions(vs: seq<View>, dropTarget: Option<DropTarget>,
    collapsed: set<string>, level: nat): seq<Row>
    decreases vs, 0
  {
    if vs == [] then []
    else
      RowsForPartition(vs[0], dropTarget, collapsed, level) +
      RowsForPartitions(vs[1..], dropTarget, collapsed, level)
  }

  function RowsForPartition(v: View, dropTarget: Option<DropTarget>, collapsed: set<string>, level: nat): seq<Row>
    decreases v, 1
  {
    var header := [HeaderRow(v.id, v.name, level, v.id in collapsed)];
    if v.id in collapsed then header
    else if HasChildren(v) then header + RowsForPartitions(v.childPartitions, dropTarget, collapsed, level + 1)
    else header + RowsForPartitionSessions(v, dropTarget)
  }

  function RowsForPartitionSessions(v: View, dropTarget: Option<DropTarget>): seq<Row> {
    if v.sessions == [] && !v.readOnly then [EmptyHintRow(v.id)]
    else SessionRows(v, dropTarget, 0) + DropLine(v, dropTarget, |v.sessions|)
  }

  function DropLine(v: View, dropTarget: Option<DropTarget>, index: nat): seq<Row> {
    if !v.readOnly && dropTarget == Some(DropTarget(v.id, index)) then [DropLineRow(v.id, index)] else []
  }

  function SessionRows(v: View, dropTarget: Option<DropTarget>, from: nat): seq<Row>
    requires from <= |v.sessions|
    decreases |v.sessions| - from
  {
    if from == |v.sessions| then []
    else
      DropLine(v, dropTarget, from) + [SessionRow(v.sessions[from], v.id, from, v.readOnly)] +
      SessionRows(v, dropTarget, from + 1)
  }

  // The sessions that have a row, in the order of the rows.
  function SessionsOf(rows: seq<Row>): seq<Session> {
    if rows == [] then []
    else (if rows[0].SessionRow? then [rows[0].session] else []) + SessionsOf(rows[1..])
  }

  lemma {:induction false} SessionsOfConcat(a: seq<Row>, b: seq<Row>)
    ensures SessionsOf(a + b) == SessionsOf(a) + SessionsOf(b)
  {
    if a == [] {
      assert a + b == b;
    } else {
      assert (a + b)[1..] == a[1..] + b;
      SessionsOfConcat(a[1..], b);
    }
  }

  lemma SessionsOfOne(r: Row)
    ensures SessionsOf([r]) == if r.SessionRow? then [r.session] else []
  {
    assert [r][1..] == [];
  }

  lemma {:induction false} SessionRowsShow(v: View, dropTarget: Option<DropTarget>, from: nat)
    requires from <= |v.sessions|
    ensures SessionsOf(SessionRows(v, dropTarget, from)) == v.sessions[from..]
    decreases |v.sessions| - from
  {
    hide SessionsOf, DropLine;
    LineShowsNothing(v, dropTarget, from);
    if from < |v.sessions| {
      var line, row := DropLine(v, dropTarget, from), SessionRow(v.sessions[from], v.id, from, v.readOnly);
      SessionRowsShow(v, dropTarget, from + 1);
      SessionsOfConcat(line + [row], SessionRows(v, dropTarget, from + 1));
      SessionsOfConcat(line, [row]);
      SessionsOfOne(row);
      assert v.sessions[from..] == [v.sessions[from]] + v.sessions[from + 1..];
    }
  }

  lemma LineShowsNothing(v: View, dropTarget: Option<DropTarget>, index: nat)
    ensures SessionsOf(DropLine(v, dropTarget, index)) == [] && SessionsOf([]) == []
  {
    SessionsOfOne(DropLineRow(v.id, index));
  }

  // The session rows are the flattened tree, whatever is dragged and at any level.
  lemma {:induction false} RowsShowFlattened(v: View, dropTarget: Option<DropTarget>,
    collapsed: set<string>, level: nat)
    ensures SessionsOf(RowsForPartition(v, dropTarget, collapsed, level)) == Flatten(v, collapsed)
    decreases v, 1
  {
    var header := HeaderRow(v.id, v.name, level, v.id in collapsed);
    SessionsOfOne(header);
    if v.id in collapsed {
    } else if HasChildren(v) {
      AllRowsShowFlattened(v.childPartitions, dropTarget, collapsed, level + 1);
      SessionsOfConcat([header], RowsForPartitions(v.childPartitions, dropTarget, collapsed, level + 1));
    } else {
      SessionsOfConcat([header], RowsForPartitionSessions(v, dropTarget));
      if v.sessions == [] && !v.readOnly {
        SessionsOfOne(EmptyHintRow(v.id));
      } else {
        SessionRowsShow(v, dropTarget, 0);
        SessionsOfConcat(SessionRows(v, dropTarget, 0), DropLine(v, dropTarget, |v.sessions|));
        LineShowsNothing(v, dropTarget, |v.sessions|);
        assert v.sessions[0..] == v.sessions;
      }
    }
  }

  lemma {:induction false} AllRowsShowFlattened(vs: seq<View>, dropTarget: Option<DropTarget>,
    collapsed: set<string>, level: nat)
    ensures SessionsOf(RowsForPartitions(vs, dropTarget, collapsed, level)) == FlattenAll(vs, collapsed)
    decreases vs, 0
  {
    if vs != [] {
      RowsShowFlattened(vs[0], dropTarget, collapsed, level);
      AllRowsShowFlattened(vs[1..], dropTarget, collapsed, level);
      SessionsOfConcat(RowsForPartition(vs[0], dropTarget, collapsed, level),
                       RowsForPartitions(vs[1..], dropTarget, collapsed, level));
    }
  }

  // ------------------------------------------------- the rows that limiting leaves

  // A partition that is not inside a collapsed one, in the order of the rows: its
  // level, and how many sessions are shown before it.
  datatype Spot = Spot(v: View, level: nat, before: nat)

  function Spots(v: View, level: nat, before: nat, collapsed: set<string>): seq<Spot>
    decreases v, 1
  {
    [Spot(v, level, before)] +
    if v.id in collapsed then [] else SpotsOfAll(v.childPartitions, level + 1, before, collapsed)
  }

  function SpotsOfAll(vs: seq<View>, level: nat, before: nat, collapsed: set<string>): seq<Spot>
    decreases vs, 0
  {
    if vs == [] then []
    else
      Spots(vs[0], level, before, collapsed) +
      SpotsOfAll(vs[1..], level, before + |Flatten(vs[0], collapsed)|, collapsed)
  }

  // What keeps a partition: it is collapsed, or empty and writable, or it holds one of
  // the first `n` sessions.
  predicate Counts(s: Spot, n: nat, collapsed: set<string>) {
    s.v.id in collapsed || (!HasChildren(s.v) && if s.v.sessions == [] then !s.v.readOnly else s.before < n)
  }

  predicate AnyCounts(spots: seq<Spot>, n: nat, collapsed: set<string>) {
    exists i :: 0 <= i < |spots| && Counts(spots[i], n, collapsed)
  }

  // A partition stays if this holds of it or of one below it.
  predicate Stays(s: Spot, n: nat, collapsed: set<string>) {
    AnyCounts(Spots(s.v, s.level, s.before, collapsed), n, collapsed)
  }

  function SessionRowsOf(v: View, count: nat): seq<Row>
    requires count <= |v.sessions|
  {
    seq(count, i requires 0 <= i < count => SessionRow(v.sessions[i], v.id, i, v.readOnly))
  }

  // A drop at `k` is aimed at this partition.
  predicate Aims(v: View, dropTarget: Option<DropTarget>, k: int) {
    && !v.readOnly && 0 <= k <= |v.sessions|
    && dropTarget.Some? && dropTarget.value.partitionID == v.id && dropTarget.value.insertIndex == k
  }

  // The line that marks where a drop would go stands before the session with the
  // target's index, or after the last one; a partition that is empty, or read only, has
  // none.
  lemma DropLineIsPlaced(v: View, dropTarget: Option<DropTarget>)
    ensures var rows, sessions := RowsForPartitionSessions(v, dropTarget), SessionRowsOf(v, |v.sessions|);
            && (v.sessions == [] ==> rows == if v.readOnly then [] else [EmptyHintRow(v.id)])
            && (v.sessions != [] && (forall k :: !Aims(v, dropTarget, k)) ==> rows == sessions)
            && forall k :: v.sessions != [] && Aims(v, dropTarget, k) ==>
                             rows == sessions[..k] + [DropLineRow(v.id, k)] + sessions[k..]
  {
    hide SessionRowsOf;
    var sessions := SessionRowsOf(v, |v.sessions|);
    SessionRowsLength(v);
    if v.sessions != [] {
      if k :| Aims(v, dropTarget, k) {
        LineFrom(v, dropTarget, 0, k);
        assert sessions[0..k] == sessions[..k];
      } else {
        NoLineFrom(v, dropTarget, 0);
        assert sessions[0..] == sessions;
      }
    }
  }

  lemma SessionRowsLength(v: View)
    ensures |SessionRowsOf(v, |v.sessions|)| == |v.sessions|
  {
  }

  lemma {:induction false} NoLineFrom(v: View, dropTarget: Option<DropTarget>, from: nat)
    requires from <= |v.sessions| && forall k :: from <= k ==> !Aims(v, dropTarget, k)
    ensures SessionRows(v, dropTarget, from) + DropLine(v, dropTarget, |v.sessions|) ==
            SessionRowsOf(v, |v.sessions|)[from..]
    decreases |v.sessions| - from
  {
    hide DropLine;
    LineIsAimed(v, dropTarget, from);
    if from < |v.sessions| {
      NoLineFrom(v, dropTarget, from + 1);
      SessionRowFirst(v, dropTarget, from);
    }
  }

  lemma LineIsAimed(v: View, dropTarget: Option<DropTarget>, k: nat)
    requires k <= |v.sessions|
    ensures DropLine(v, dropTarget, k) == if Aims(v, dropTarget, k) then [DropLineRow(v.id, k)] else []
  {
  }

  lemma SessionRowFirst(v: View, dropTarget: Option<DropTarget>, from: nat)
    requires from < |v.sessions|
    ensures var sessions, last := SessionRowsOf(v, |v.sessions|), DropLine(v, dropTarget, |v.sessions|);
            && SessionRows(v, dropTarget, from) + last ==
                 DropLine(v, dropTarget, from) + [sessions[from]] + (SessionRows(v, dropTarget, from + 1) + last)
            && sessions[from..] == [sessions[from]] + sessions[from + 1..]
  {
    hide DropLine;
  }

  lemma {:induction false} LineFrom(v: View, dropTarget: Option<DropTarget>, from: nat, k: nat)
    requires from <= k && Aims(v, dropTarget, k)
    ensures var sessions := SessionRowsOf(v, |v.sessions|);
            SessionRows(v, dropTarget, from) + DropLine(v, dropTarget, |v.sessions|) ==
            sessions[from..k] + [DropLineRow(v.id, k)] + sessions[k..]
    decreases k - from
  {
    hide DropLine, SessionRowsOf;
    var sessions := SessionRowsOf(v, |v.sessions|);
    SessionRowsLength(v);
    LineIsAimed(v, dropTarget, from);
    LineIsAimed(v, dropTarget, |v.sessions|);
    if from < k {
      LineFrom(v, dropTarget, from + 1, k);
      SessionRowFirst(v, dropTarget, from);
      assert sessions[from..k] == [sessions[from]] + sessions[from + 1..k];
    } else if k < |v.sessions| {
      NoLineFrom(v, dropTarget, k + 1);
      SessionRowFirst(v, dropTarget, k);
    }
  }

  // What a partition shows itself: its header and, unless it is collapsed or has
  // partitions below it, a hint that it is empty or those of its sessions that are
  // among the first `n`.
  function OwnRows(s: Spot, n: nat, collapsed: set<string>): seq<Row> {
    [HeaderRow(s.v.id, s.v.name, s.level, s.v.id in collapsed)] +
    if s.v.id in collapsed || HasChildren(s.v) then []
    else if s.v.sessions == [] then (if s.v.readOnly then [] else [EmptyHintRow(s.v.id)])
    else SessionRowsOf(s.v, Least(Left(n, s.before), |s.v.sessions|))
  }

  function Left(n: nat, before: nat): nat {
    if before < n then n - before else 0
  }

  function StayingRows(spots: seq<Spot>, n: nat, collapsed: set<string>): seq<Row> {
    if spots == [] then []
    else (if Stays(spots[0], n, collapsed) then OwnRows(spots[0], n, collapsed) else []) +
         StayingRows(spots[1..], n, collapsed)
  }

  lemma {:induction false} StayingRowsConcat(a: seq<Spot>, b: seq<Spot>, n: nat, collapsed: set<string>)
    ensures StayingRows(a + b, n, collapsed) == StayingRows(a, n, collapsed) + StayingRows(b, n, collapsed)
  {
    hide Stays, OwnRows;
    if a == [] {
      assert a + b == b;
    } else {
      assert (a + b)[1..] == a[1..] + b;
      StayingRowsConcat(a[1..], b, n, collapsed);
    }
  }

  lemma AnyCountsConcat(a: seq<Spot>, b: seq<Spot>, n: nat, collapsed: set<string>)
    ensures AnyCounts(a + b, n, collapsed) <==> AnyCounts(a, n, collapsed) || AnyCounts(b, n, collapsed)
  {
    hide Counts;
    if i :| 0 <= i < |a| && Counts(a[i], n, collapsed) { assert (a + b)[i] == a[i]; }
    if i :| 0 <= i < |b| && Counts(b[i], n, collapsed) { assert (a + b)[|a| + i] == b[i]; }
  }

  // The rows but for the line that marks where a drop would go.
  function WithoutLines(rows: seq<Row>): seq<Row> {
    if rows == [] then []
    else (if rows[0].DropLineRow? then [] else [rows[0]]) + WithoutLines(rows[1..])
  }

  lemma {:induction false} WithoutLinesConcat(a: seq<Row>, b: seq<Row>)
    ensures WithoutLines(a + b) == WithoutLines(a) + WithoutLines(b)
  {
    if a == [] {
      assert a + b == b;
    } else {
      assert (a + b)[1..] == a[1..] + b;
      WithoutLinesConcat(a[1..], b);
    }
  }

  lemma WithoutLinesOne(r: Row)
    ensures WithoutLines([r]) == if r.DropLineRow? then [] else [r]
  {
    assert [r][1..] == [];
  }

  lemma {:induction false} SessionRowsOfPart(v: View, dropTarget: Option<DropTarget>, from: nat)
    requires from <= |v.sessions|
    ensures WithoutLines(SessionRows(v, dropTarget, from)) == SessionRowsOf(v, |v.sessions|)[from..]
    decreases |v.sessions| - from
  {
    hide WithoutLines, DropLine;
    NoLineLeft(v, dropTarget, from);
    if from < |v.sessions| {
      var line, row := DropLine(v, dropTarget, from), SessionRow(v.sessions[from], v.id, from, v.readOnly);
      SessionRowsOfPart(v, dropTarget, from + 1);
      WithoutLinesConcat(line + [row], SessionRows(v, dropTarget, from + 1));
      WithoutLinesConcat(line, [row]);
      WithoutLinesOne(row);
      var all := SessionRowsOf(v, |v.sessions|);
      assert all[from..] == [all[from]] + all[from + 1..];
    }
  }

  lemma NoLineLeft(v: View, dropTarget: Option<DropTarget>, index: nat)
    ensures WithoutLines(DropLine(v, dropTarget, index)) == [] && WithoutLines([]) == []
  {
    WithoutLinesOne(DropLineRow(v.id, index));
  }

  lemma RowsOfLeaf(v: View, dropTarget: Option<DropTarget>)
    ensures WithoutLines(RowsForPartitionSessions(v, dropTarget)) ==
            if v.sessions == [] && !v.readOnly then [EmptyHintRow(v.id)] else SessionRowsOf(v, |v.sessions|)
  {
    if v.sessions == [] && !v.readOnly {
      WithoutLinesOne(EmptyHintRow(v.id));
    } else {
      SessionRowsOfPart(v, dropTarget, 0);
      WithoutLinesConcat(SessionRows(v, dropTarget, 0), DropLine(v, dropTarget, |v.sessions|));
      NoLineLeft(v, dropTarget, |v.sessions|);
      var all := SessionRowsOf(v, |v.sessions|);
      assert all[0..] == all && all + [] == all;
    }
  }

  // What is kept of one partition shows the rows of the spots that stay.
  lemma {:induction false} LimitedRows(v: View, n: nat, before: nat, level: nat, dropTarget: Option<DropTarget>,
    collapsed: set<string>)
    ensures var kept, spots := Limit(v, Left(n, before), collapsed).0, Spots(v, level, before, collapsed);
            && (kept.Some? <==> AnyCounts(spots, n, collapsed))
            && (if kept.Some? then WithoutLines(RowsForPartition(kept.value, dropTarget, collapsed, level)) else []) ==
               StayingRows(spots, n, collapsed)
    decreases v, 1
  {
    hide StayingRows, WithoutLines, RowsForPartitions, AnyCounts, LimitAll, SpotsOfAll;
    var here, below := Spot(v, level, before), SpotsOfAll(v.childPartitions, level + 1, before, collapsed);
    var spots, kept := Spots(v, level, before, collapsed), Limit(v, Left(n, before), collapsed).0;
    OneSpot(here, n, collapsed);
    if v.id in collapsed {
      assert spots == [here] by { assert [here] + [] == [here]; }
      WithoutLinesOne(HeaderRow(v.id, v.name, level, true));
    } else if HasChildren(v) {
      LimitedRowsOfAll(v.childPartitions, n, before, level + 1, dropTarget, collapsed);
      AnyCountsConcat([here], below, n, collapsed);
      StayingRowsConcat([here], below, n, collapsed);
      if kept.Some? {
        var header := HeaderRow(v.id, v.name, level, false);
        WithoutLinesOne(header);
        WithoutLinesConcat([header], RowsForPartitions(kept.value.childPartitions, dropTarget, collapsed, level + 1));
        assert OwnRows(here, n, collapsed) == [header];
      } else {
        NothingLimited(n, dropTarget, collapsed, level + 1);
      }
    } else {
      LeafHasNoSpots(v, level, before, collapsed);
      assert spots == [here] by { assert [here] + [] == [here]; }
      if kept.Some? { LimitedLeaf(v, n, before, level, dropTarget, collapsed); }
    }
  }

  lemma LeafHasNoSpots(v: View, level: nat, before: nat, collapsed: set<string>)
    requires !HasChildren(v)
    ensures SpotsOfAll(v.childPartitions, level + 1, before, collapsed) == []
  {
  }

  lemma OneSpot(s: Spot, n: nat, collapsed: set<string>)
    ensures StayingRows([s], n, collapsed) == if Stays(s, n, collapsed) then OwnRows(s, n, collapsed) else []
    ensures AnyCounts([s], n, collapsed) <==> Counts(s, n, collapsed)
  {
    hide Stays, OwnRows, Counts;
    assert [s][1..] == [] && [s][0] == s;
  }

  lemma LimitedLeaf(v: View, n: nat, before: nat, level: nat, dropTarget: Option<DropTarget>, collapsed: set<string>)
    requires v.id !in collapsed && !HasChildren(v) && Limit(v, Left(n, before), collapsed).0.Some?
    ensures var kept := Limit(v, Left(n, before), collapsed).0.value;
            WithoutLines(RowsForPartition(kept, dropTarget, collapsed, level)) ==
            OwnRows(Spot(v, level, before), n, collapsed)
  {
    hide WithoutLines, RowsForPartitionSessions;
    var kept, header := Limit(v, Left(n, before), collapsed).0.value, HeaderRow(v.id, v.name, level, false);
    WithoutLinesOne(header);
    WithoutLinesConcat([header], RowsForPartitionSessions(kept, dropTarget));
    RowsOfLeaf(kept, dropTarget);
  }

  lemma {:induction false} LimitedRowsOfAll(vs: seq<View>, n: nat, before: nat, level: nat,
    dropTarget: Option<DropTarget>, collapsed: set<string>)
    ensures var kept, spots := LimitAll(vs, Left(n, before), collapsed).0, SpotsOfAll(vs, level, before, collapsed);
            && (kept != [] <==> AnyCounts(spots, n, collapsed))
            && WithoutLines(RowsForPartitions(kept, dropTarget, collapsed, level)) == StayingRows(spots, n, collapsed)
    decreases vs, 0
  {
    hide StayingRows, WithoutLines, RowsForPartition, AnyCounts, Limit, Spots;
    if vs == [] {
      NothingLimited(n, dropTarget, collapsed, level);
    } else {
      var after := before + |Flatten(vs[0], collapsed)|;
      var first, kept := Limit(vs[0], Left(n, before), collapsed).0, LimitAll(vs, Left(n, before), collapsed).0;
      var rest := LimitAll(vs[1..], Left(n, after), collapsed).0;
      LimitedRows(vs[0], n, before, level, dropTarget, collapsed);
      LimitedRowsOfAll(vs[1..], n, after, level, dropTarget, collapsed);
      LimitKeepsFirst(vs[0], Left(n, before), collapsed);
      var here, more := Spots(vs[0], level, before, collapsed), SpotsOfAll(vs[1..], level, after, collapsed);
      AnyCountsConcat(here, more, n, collapsed);
      StayingRowsConcat(here, more, n, collapsed);
      if first.Some? {
        assert kept == [first.value] + rest && kept[1..] == rest;
        WithoutLinesConcat(RowsForPartition(first.value, dropTarget, collapsed, level),
                           RowsForPartitions(rest, dropTarget, collapsed, level));
      } else {
        LimitNoneKeepsCount(vs[0], Left(n, before), collapsed);
      }
    }
  }

  lemma NothingLimited(n: nat, dropTarget: Option<DropTarget>, collapsed: set<string>, level: nat)
    ensures RowsForPartitions([], dropTarget, collapsed, level) == [] && WithoutLines([]) == []
    ensures StayingRows([], n, collapsed) == [] && !AnyCounts([], n, collapsed)
  {
  }

  // The rows of the limited tree, for every limit and whatever is dragged: in order,
  // those of the partitions that are collapsed, or empty and writable, or hold one of
  // the first `n` sessions, or have such a partition below them; each with its header
  // under its name and at its level, and with those of its sessions.
  lemma LimitedTreeRows(vs: seq<View>, n: nat, dropTarget: Option<DropTarget>, collapsed: set<string>)
    ensures WithoutLines(BuildPartitionSessionRows(LimitAll(vs, n, collapsed).0, dropTarget, collapsed)) ==
            StayingRows(SpotsOfAll(vs, 0, 0, collapsed), n, collapsed)
  {
    LimitedRowsOfAll(vs, n, 0, 0, dropTarget, collapsed);
  }

  // ---------------------------------------------------------------- finding

  predicate HasID(s: seq<Session>, id: string) {
    exists i :: 0 <= i < |s| && s[i].id == id
  }

  ghost predicate FirstWithID(s: seq<Session>, id: string, i: int) {
    0 <= i < |s| && s[i].id == id && forall k :: 0 <= k < i ==> s[k].id != id
  }

  // The first position in the flattened tree, or -1.
  method FindSessionIndexInPartitionViews(vs: seq<View>, sessionID: string, collapsed: set<string>) returns (r: int)
    ensures if r >= 0 then FirstWithID(FlattenAll(vs, collapsed), sessionID, r)
            else r == -1 && !HasID(FlattenAll(vs, collapsed), sessionID)
  {
    hide FlattenAll, Flatten, HasID, FirstWithID;
    var index := 0;
    ghost var passed := [];
    ghost var all := FlattenAll(vs, collapsed);
    assert vs[0..] == vs && [] + all == all;
    NoneInNone(sessionID, collapsed);
    for i := 0 to |vs|
      invariant index == |passed| && all == passed + FlattenAll(vs[i..], collapsed)
      invariant !HasID(passed, sessionID)
    {
      FlattenRest(vs, i, collapsed);
      ghost var here, rest := Flatten(vs[i], collapsed), FlattenAll(vs[i + 1..], collapsed);
      var found, at, next := FindSessionIndexInPartition(vs[i], sessionID, index, collapsed);
      assert all == passed + here + rest;
      if found {
        FirstAfter(passed, here, rest, sessionID, at - index);
        return at;
      }
      NoneInBoth(passed, here, sessionID);
      passed := passed + here;
      index := next;
    }
    assert vs[|vs|..] == [] && passed + [] == passed;
    return -1;
  }

  method FindSessionIndexInPartition(v: View, sessionID: string, startIndex: nat, collapsed: set<string>)
    returns (found: bool, index: int, nextIndex: nat)
    ensures found ==> FirstWithID(Flatten(v, collapsed), sessionID, index - startIndex)
    ensures !found ==> index == -1 && !HasID(Flatten(v, collapsed), sessionID)
    ensures !found ==> nextIndex == startIndex + |Flatten(v, collapsed)|
    decreases v
  {
    if v.id in collapsed {
      return false, -1, startIndex;
    }
    if HasChildren(v) {
      hide FlattenAll, HasID, FirstWithID;
      var vs := v.childPartitions;
      nextIndex := startIndex;
      ghost var passed := [];
      ghost var all := FlattenAll(vs, collapsed);
      assert vs[0..] == vs && [] + all == all;
      NoneInNone(sessionID, collapsed);
      for i := 0 to |vs|
        invariant nextIndex == startIndex + |passed| && all == passed + FlattenAll(vs[i..], collapsed)
        invariant !HasID(passed, sessionID)
      {
        FlattenRest(vs, i, collapsed);
        ghost var here, rest := Flatten(vs[i], collapsed), FlattenAll(vs[i + 1..], collapsed);
        var next;
        found, index, next := FindSessionIndexInPartition(vs[i], sessionID, nextIndex, collapsed);
        assert all == passed + here + rest;
        if found {
          FirstAfter(passed, here, rest, sessionID, index - nextIndex);
          nextIndex := next;
          return;
        }
        NoneInBoth(passed, here, sessionID);
        passed := passed + here;
        nextIndex := next;
      }
      assert vs[|vs|..] == [] && passed + [] == passed;
      return false, -1, nextIndex;
    }
    var localIndex := FindIndex(v.sessions, sessionID);
    if localIndex >= 0 {
      return true, startIndex + localIndex, startIndex + |v.sessions|;
    }
    return false, -1, startIndex + |v.sessions|;
  }

  method FindIndex(s: seq<Session>, id: string) returns (r: int)
    ensures if r >= 0 then FirstWithID(s, id, r) else r == -1 && !HasID(s, id)
  {
    for i := 0 to |s|
      invariant forall k :: 0 <= k < i ==> s[k].id != id
    {
      if s[i].id == id {
        return i;
      }
    }
    return -1;
  }

  lemma NoneInNone(id: string, collapsed: set<string>)
    ensures !HasID([], id) && FlattenAll([], collapsed) == []
  {
  }

  lemma FlattenRest(vs: seq<View>, i: nat, collapsed: set<string>)
    requires i < |vs|
    ensures FlattenAll(vs[i..], collapsed) == Flatten(vs[i], collapsed) + FlattenAll(vs[i + 1..], collapsed)
  {
    assert vs[i..][0] == vs[i] && vs[i..][1..] == vs[i + 1..];
  }

  lemma NoneInBoth(a: seq<Session>, b: seq<Session>, id: string)
    requires !HasID(a, id) && !HasID(b, id)
    ensures !HasID(a + b, id)
  {
    forall i | 0 <= i < |a + b| ensures (a + b)[i].id != id {
      if i < |a| { assert (a + b)[i] == a[i]; } else { assert (a + b)[i] == b[i - |a|]; }
    }
  }

  lemma FirstAfter(a: seq<Session>, b: seq<Session>, c: seq<Session>, id: string, i: int)
    requires !HasID(a, id) && FirstWithID(b, id, i)
    ensures FirstWithID(a + b + c, id, |a| + i) && i >= 0
  {
    var s := a + b + c;
    assert s[|a| + i] == b[i];
    forall k | 0 <= k < |a| + i ensures s[k].id != id {
      if k < |a| { assert s[k] == a[k]; } else { assert s[k] == b[k - |a|]; }
    }
  }

  // --------------------------------------------------------- how many to show

  const SESSION_VISIBLE_BATCH := 30
  const SESSION_FOCUS_CONTEXT_COUNT := 12

  function ResolveInitialVisibleSessionCount(total: int): int {
    if total <= 0 then 0 else if total < SESSION_VISIBLE_BATCH then total else SESSION_VISIBLE_BATCH
  }

  function ResolveNextVisibleSessionCount(current: int, total: int): int {
    if current >= total then current
    else if total < current + SESSION_VISIBLE_BATCH then total else current + SESSION_VISIBLE_BATCH
  }

  function ResolveFocusedVisibleSessionCount(focusSessionIndex: int, total: int): int {
    if total <= 0 then 0
    else if total < focusSessionIndex + 1 + SESSION_FOCUS_CONTEXT_COUNT then total
    else focusSessionIndex + 1 + SESSION_FOCUS_CONTEXT_COUNT
  }

  function ClampVisibleSessionCount(current: int, total: int): int {
    if total <= 0 then 0
    else if current <= 0 then ResolveInitialVisibleSessionCount(total)
    else if current > total then total
    else current
  }

  // What the focus effect makes of the count: it only ever raises it.
  function FocusVisibleCount(current: int, focusSessionIndex: int, total: int): int {
    if focusSessionIndex < 0 then current
    else
      var focused := ResolveFocusedVisibleSessionCount(focusSessionIndex, total);
      if focused > current then focused else current
  }

  // A session that the search finds has a row once the focused count is applied,
  // at the very position that the search reported.
  lemma FocusedSessionHasRow(vs: seq<View>, sessionID: string, collapsed: set<string>,
                             dropTarget: Option<DropTarget>, current: nat, index: nat)
    requires FirstWithID(FlattenAll(vs, collapsed), sessionID, index)
    ensures var total := CountSessionsInPartitionViews(vs, collapsed);
            var visible := FocusVisibleCount(current, index, total);
            var limited := LimitAll(vs, visible, collapsed).0;
            FirstWithID(SessionsOf(BuildPartitionSessionRows(limited, dropTarget, collapsed)), sessionID, index)
  {
    CountAllIsLength(vs, collapsed);
    var visible := FocusVisibleCount(current, index, CountSessionsInPartitionViews(vs, collapsed));
    LimitAllKeepsFirst(vs, visible, collapsed);
    AllRowsShowFlattened(LimitAll(vs, visible, collapsed).0, dropTarget, collapsed, 0);
  }

  // What the three effects do to the count. The first of them runs when the key or the
  // total has changed, or both.
  datatype CountEvent = Reset(total: nat) | Resized(total: nat) | Focused(index: int) | ScrolledToEnd

  function UpdateCount(current: int, total: nat, e: CountEvent): (int, nat) {
    match e
    case Reset(total') => (ResolveInitialVisibleSessionCount(total'), total')
    case Resized(total') => (ClampVisibleSessionCount(current, total'), total')
    case Focused(index) => (FocusVisibleCount(current, index, total), total)
    case ScrolledToEnd => (ResolveNextVisibleSessionCount(current, total), total)
  }

  function UpdateAll(current: int, total: nat, events: seq<CountEvent>): (int, nat)
    decreases |events|
  {
    if events == [] then (current, total)
    else
      var (c, t) := UpdateCount(current, total, events[0]);
      UpdateAll(c, t, events[1..])
  }

  // A new key shows the first batch again, a new total as much as was shown before, as
  // far as there is so much.
  lemma ChangedKeyOrTotal(current: int, total: nat, next: nat)
    ensures UpdateCount(current, total, Reset(next)).0 == Least(next, 30)
    ensures current > 0 ==> UpdateCount(current, total, Resized(next)).0 == Least(current, next)
  {
  }

  function Scrolls(times: nat): seq<CountEvent> {
    seq(times, i requires 0 <= i < times => ScrolledToEnd)
  }

  // Each scroll to the end shows thirty more, until everything is shown.
  lemma {:induction false} ScrollingShowsMore(current: nat, total: nat, times: nat)
    requires current <= total
    ensures UpdateAll(current, total, Scrolls(times)) == (Least(total, current + 30 * times), total)
    decreases times
  {
    if times > 0 {
      assert Scrolls(times)[1..] == Scrolls(times - 1);
      ScrollingShowsMore(Least(total, current + 30), total, times - 1);
    }
  }

  // Something is shown, if there is something, and not more than there is.
  predicate Shown(current: int, total: nat) {
    0 <= current <= total && (total > 0 ==> current > 0)
  }

  lemma {:induction false} ShownStays(current: int, total: nat, events: seq<CountEvent>)
    requires Shown(current, total)
    ensures var (c, t) := UpdateAll(current, total, events); Shown(c, t)
    decreases |events|
  {
    if events != [] {
      var (c, t) := UpdateCount(current, total, events[0]);
      ShownStays(c, t, events[1..]);
    }
  }

  // The hook starts with nothing shown, and the first effect to run when it is mounted
  // shows the first batch. Over every run from there on, whether key and total change
  // separately or together, something is shown if there is something, and never too much.
  lemma VisibleCountStaysInRange(total: nat, events: seq<CountEvent>)
    ensures UpdateCount(0, total, Resized(total)) == (ResolveInitialVisibleSessionCount(total), total)
    ensures var (c, t) := UpdateAll(0, total, [Resized(total)] + events); Shown(c, t)
  {
    var all := [Resized(total)] + events;
    assert all[0] == Resized(total) && all[1..] == events;
    ShownStays(ResolveInitialVisibleSessionCount(total), total, events);
  }
}
