// The registry of the signaling server: which connection speaks for a PC and
// which for a mobile, while connections come, register, displace one another and
// go (core/signaling/server.go).
module Signaling {
  import opened Options
  import opened Text

  datatype Kind = NoKind | PC | Mobile

  datatype Info = Info(kind: Kind, pcID: string, mobileID: string)

  const NOTHING_ANNOUNCED := Info(NoKind, "", "")

  // The tables, over connections `C`; `info` is what each one announced last.
  datatype Tables<!C(==)> = Tables(clients: set<C>, info: map<C, Info>, pcs: map<string, C>, mobiles: map<string, C>)

  function FirstNonEmpty(a: string, b: string): string {
    if TrimSpace(a) != "" then TrimSpace(a) else TrimSpace(b)
  }

  // The id of a mobile is its trimmed mobile id, or its trimmed device id if it gives
  // no mobile id.
  lemma MobileIDGoesFirst(mobileID: string, deviceID: string)
    ensures TrimSpace(FirstNonEmpty(mobileID, deviceID)) ==
            if TrimSpace(mobileID) != "" then TrimSpace(mobileID) else TrimSpace(deviceID)
  {
    TrimSpaceTwice(mobileID);
    TrimSpaceTwice(deviceID);
  }

  // What one handler does under the lock.
  datatype Step<!C(==)> =
    | Added(c: C)
    | RegisteredPC(c: C, pcID: string)
    | ConnectedMobile(c: C, pcID: string, mobileID: string, deviceID: string)
    | Removed(c: C)

  function Without<C(==)>(table: map<string, C>, id: string, c: C): map<string, C> {
    if id in table && table[id] == c then table - {id} else table
  }

  // Nothing comes from a connection that is not there.
  function Apply<C(==)>(t: Tables<C>, step: Step<C>): Tables<C> {
    if !step.Added? && step.c !in t.info then t
    else match step
    case Added(c) => t.(clients := t.clients + {c}, info := t.info[c := NOTHING_ANNOUNCED])
    case RegisteredPC(c, pcID) =>
      if TrimSpace(pcID) == "" then t
      else t.(info := t.info[c := t.info[c].(kind := PC, pcID := TrimSpace(pcID))], pcs := t.pcs[TrimSpace(pcID) := c])
    case ConnectedMobile(c, pcID, mobileID, deviceID) =>
      var mobile := TrimSpace(FirstNonEmpty(mobileID, deviceID));
      if TrimSpace(pcID) == "" || mobile == "" then t
      else t.(info := t.info[c := Info(Mobile, TrimSpace(pcID), mobile)], mobiles := t.mobiles[mobile := c])
    case Removed(c) =>
      Tables(t.clients - {c}, t.info - {c},
             if t.info[c].kind == PC then Without(t.pcs, t.info[c].pcID, c) else t.pcs,
             if t.info[c].kind == Mobile then Without(t.mobiles, t.info[c].mobileID, c) else t.mobiles)
  }

  // ---------------------------------------------------------------- the server

  class Client {
    var kind: Kind
    var pcID: string
    var mobileID: string

    constructor ()
      ensures Announced() == NOTHING_ANNOUNCED
    {
      kind, pcID, mobileID := NoKind, "", "";
    }

    function Announced(): Info
      reads this
    {
      Info(kind, pcID, mobileID)
    }
  }

  datatype Reply = Registered | Forwarded(pc: Client) | PCIDRequired | MobileIDRequired | Offline

  class Server {
    var clients: set<Client>
    var pcs: map<string, Client>
    var mobiles: map<string, Client>

    function Now(): Tables<Client>
      reads this, clients
    {
      Tables(clients, map c | c in clients :: c.Announced(), pcs, mobiles)
    }

    constructor ()
      ensures Now() == Tables({}, map[], map[], map[])
    {
      clients, pcs, mobiles := {}, map[], map[];
    }

    method AddClient(c: Client)
      requires c !in clients && c.Announced() == NOTHING_ANNOUNCED
      modifies this
      ensures Now() == Apply(old(Now()), Added(c))
    {
      clients := clients + {c};
    }

    method RemoveClient(c: Client)
      requires c in clients
      modifies this
      ensures Now() == Apply(old(Now()), Removed(c))
    {
      clients := clients - {c};
      if c.kind == PC && c.pcID in pcs && pcs[c.pcID] == c {
        pcs := pcs - {c.pcID};
      }
      if c.kind == Mobile && c.mobileID in mobiles && mobiles[c.mobileID] == c {
        mobiles := mobiles - {c.mobileID};
      }
      assert Now().info == old(Now()).info - {c};
    }

    // `displaced` is the connection that is closed because another took its id.
    method RegisterPC(c: Client, rawPCID: string) returns (reply: Reply, displaced: Option<Client>)
      requires c in clients
      modifies this, c
      ensures Now() == Apply(old(Now()), RegisteredPC(c, rawPCID))
      ensures var pcID := TrimSpace(rawPCID);
              && reply == (if pcID == "" then PCIDRequired else Registered)
              && displaced == (if pcID != "" && pcID in old(pcs) && old(pcs[pcID]) != c
                               then Some(old(pcs[pcID])) else None)
    {
      hide TrimSpace;
      displaced := None;
      var id := TrimSpace(rawPCID);
      if id == "" {
        return PCIDRequired, None;
      }
      if id in pcs && pcs[id] != c {
        displaced := Some(pcs[id]);
      }
      c.kind, c.pcID := PC, id;
      pcs := pcs[id := c];
      reply := Registered;
      assert Now().info == old(Now()).info[c := c.Announced()];
    }

    method ConnectMobile(c: Client, rawPCID: string, rawMobileID: string, deviceID: string)
      returns (reply: Reply, displaced: Option<Client>)
      requires c in clients
      modifies this, c
      ensures Now() == Apply(old(Now()), ConnectedMobile(c, rawPCID, rawMobileID, deviceID))
      ensures var pcID := TrimSpace(rawPCID);
              var mobileID := if TrimSpace(rawMobileID) != "" then TrimSpace(rawMobileID) else TrimSpace(deviceID);
              && reply == (if pcID == "" then PCIDRequired else if mobileID == "" then MobileIDRequired
                           else if pcID in old(pcs) then Forwarded(old(pcs[pcID])) else Offline)
              && displaced == (if pcID != "" && mobileID != "" &&
                                  mobileID in old(mobiles) && old(mobiles[mobileID]) != c
                               then Some(old(mobiles[mobileID])) else None)
    {
      hide TrimSpace, FirstNonEmpty;
      displaced := None;
      MobileIDGoesFirst(rawMobileID, deviceID);
      var pcID := TrimSpace(rawPCID);
      var mobileID := TrimSpace(FirstNonEmpty(rawMobileID, deviceID));
      if pcID == "" {
        return PCIDRequired, None;
      }
      if mobileID == "" {
        return MobileIDRequired, None;
      }
      if mobileID in mobiles && mobiles[mobileID] != c {
        displaced := Some(mobiles[mobileID]);
      }
      c.kind, c.pcID, c.mobileID := Mobile, pcID, mobileID;
      mobiles := mobiles[mobileID := c];
      reply := if pcID in pcs then Forwarded(pcs[pcID]) else Offline;
      assert Now().info == old(Now()).info[c := c.Announced()];
    }
  }

  // --------------------------------------------------------------------- runs

  function Start<C(==)>(): Tables<C> {
    Tables({}, map[], map[], map[])
  }

  function Connections<C(==)>(steps: seq<Step<C>>): set<C> {
    set i | 0 <= i < |steps| :: steps[i].c
  }

  function Run<C(==)>(steps: seq<Step<C>>): Tables<C> {
    if steps == [] then Start() else Apply(Run(steps[..|steps| - 1]), steps[|steps| - 1])
  }

  function MobileID<C(==)>(step: Step<C>): string
    requires step.ConnectedMobile?
  {
    if TrimSpace(step.mobileID) != "" then TrimSpace(step.mobileID) else TrimSpace(step.deviceID)
  }

  // What a step announces: a kind and an id, or nothing.
  function Announces<C(==)>(step: Step<C>): (Kind, string) {
    match step
    case RegisteredPC(_, pcID) => if TrimSpace(pcID) == "" then NOTHING else (PC, TrimSpace(pcID))
    case ConnectedMobile(_, pcID, _, _) =>
      if TrimSpace(pcID) == "" || MobileID(step) == "" then NOTHING else (Mobile, MobileID(step))
    case _ => NOTHING
  }

  const NOTHING: (Kind, string) := (NoKind, "")

  // What a connection announced last.
  function LastAnnounced<C(==)>(steps: seq<Step<C>>, c: C): (Kind, string) {
    if steps == [] then NOTHING
    else
      var step := steps[|steps| - 1];
      if step.c == c && Announces(step) != NOTHING then Announces(step) else LastAnnounced(steps[..|steps| - 1], c)
  }

  function SaidBy<C(==)>(steps: seq<Step<C>>, c: Option<C>): (Kind, string) {
    if c.Some? then LastAnnounced(steps, c.value) else NOTHING
  }

  // The connection that announced an id last.
  function Latest<C(==)>(steps: seq<Step<C>>, key: (Kind, string)): Option<C> {
    if steps == [] then None
    else if Announces(steps[|steps| - 1]) == key then Some(steps[|steps| - 1].c)
    else Latest(steps[..|steps| - 1], key)
  }

  // A connection is added once, before anything comes from it.
  predicate Possible<C(==)>(t: Tables<C>, seen: set<C>, step: Step<C>) {
    if step.Added? then step.c !in seen else step.c in t.info
  }

  predicate Plausible<C(==)>(steps: seq<Step<C>>) {
    steps == [] ||
    var front := steps[..|steps| - 1];
    Plausible(front) && Possible(Run(front), Connections(front), steps[|steps| - 1])
  }

  function Table<C(==)>(t: Tables<C>, kind: Kind): map<string, C> {
    if kind == PC then t.pcs else t.mobiles
  }

  function Said(i: Info): (Kind, string) {
    (i.kind, if i.kind == PC then i.pcID else i.mobileID)
  }

  // The connection that the table should name for an id: the one that announced it
  // last, as long as it is there; and even afterwards, if by then it had announced
  // something else.
  function Spokesman<C(==)>(clients: set<C>, latest: Option<C>, said: (Kind, string), key: (Kind, string)): Option<C> {
    if latest.Some? && (latest.value in clients || said != key) then latest else None
  }

  function Named<C(==)>(t: Tables<C>, key: (Kind, string)): Option<C> {
    if key.1 in Table(t, key.0) then Some(Table(t, key.0)[key.1]) else None
  }

  predicate Recorded<C(==)>(t: Tables<C>, steps: seq<Step<C>>, c: C) {
    && (c !in Connections(steps) ==> LastAnnounced(steps, c) == NOTHING)
    && (c in t.info ==> c in Connections(steps) && Said(t.info[c]) == LastAnnounced(steps, c))
  }

  lemma ConnectionsOfOneMore<C>(steps: seq<Step<C>>, step: Step<C>)
    ensures Connections(steps + [step]) == Connections(steps) + {step.c}
  {
    var next := steps + [step];
    assert next[|steps|] == step && forall i :: 0 <= i < |steps| ==> next[i] == steps[i];
  }

  // The server's records: who is there, and what each one announced last.
  lemma {:induction false} EveryRunRecords<C>(steps: seq<Step<C>>, c: C)
    requires Plausible(steps)
    ensures Run(steps).info.Keys == Run(steps).clients && Recorded(Run(steps), steps, c)
    decreases |steps|
  {
    hide Connections, FirstNonEmpty, TrimSpace;
    if steps == [] {
      assert Connections<C>([]) == {} by { NoConnections<C>(); }
    } else {
      var front, step := steps[..|steps| - 1], steps[|steps| - 1];
      if step.ConnectedMobile? { MobileIDGoesFirst(step.mobileID, step.deviceID); }
      assert steps == front + [step];
      EveryRunRecords(front, c);
      ConnectionsOfOneMore(front, step);
    }
  }

  lemma NoConnections<C>()
    ensures Connections<C>([]) == {}
  {
  }

  lemma {:induction false} LatestIsSeen<C>(steps: seq<Step<C>>, key: (Kind, string))
    ensures Latest(steps, key).Some? ==> Latest(steps, key).value in Connections(steps)
  {
    if steps != [] {
      var front, step := steps[..|steps| - 1], steps[|steps| - 1];
      assert steps == front + [step];
      LatestIsSeen(front, key);
      ConnectionsOfOneMore(front, step);
    }
  }

  // Over every run: the tables name exactly the spokesman of every id.
  lemma {:induction false} EveryRunSpeaksForLatest<C>(steps: seq<Step<C>>, key: (Kind, string))
    requires Plausible(steps) && key.0 != NoKind
    ensures var latest := Latest(steps, key);
            Named(Run(steps), key) == Spokesman(Run(steps).clients, latest, SaidBy(steps, latest), key)
    decreases |steps|
  {
    if steps != [] {
      var front, step := steps[..|steps| - 1], steps[|steps| - 1];
      EveryRunSpeaksForLatest(front, key);
      EveryRunRecords(front, step.c);
      LatestIsSeen(front, key);
      StepNamesSpokesman(front, step, key);
    }
  }

  lemma StepNamesSpokesman<C>(front: seq<Step<C>>, step: Step<C>, key: (Kind, string))
    requires key.0 != NoKind && Possible(Run(front), Connections(front), step)
    requires var t := Run(front); t.info.Keys == t.clients && Recorded(t, front, step.c)
    requires var latest := Latest(front, key);
             && (latest.Some? ==> latest.value in Connections(front))
             && Named(Run(front), key) == Spokesman(Run(front).clients, latest, SaidBy(front, latest), key)
    ensures var latest := if Announces(step) == key then Some(step.c) else Latest(front, key);
            var said := if latest.Some? && latest.value == step.c && Announces(step) != NOTHING then Announces(step)
                        else SaidBy(front, latest);
            Named(Apply(Run(front), step), key) == Spokesman(Apply(Run(front), step).clients, latest, said, key)
  {
    hide TrimSpace, FirstNonEmpty, Run, Latest, LastAnnounced, Connections;
    match step
    case Added(c) =>
    case RegisteredPC(c, _) =>
    case ConnectedMobile(c, _, mobileID, deviceID) =>
      MobileIDGoesFirst(mobileID, deviceID);
    case Removed(c) =>
  }

  // A removal takes away the entry that the connection announced last, if it still
  // names it, and nothing else: a connection that was displaced takes nothing with it,
  // and one that announced several ids is still named for the earlier ones.
  lemma RemovalIsExact<C>(steps: seq<Step<C>>, c: C, key: (Kind, string))
    requires Plausible(steps) && key.0 != NoKind && c in Run(steps).clients
    ensures var before, after := Named(Run(steps), key), Named(Run(steps + [Removed(c)]), key);
            after == if before == Some(c) && LastAnnounced(steps, c) == key then None else before
  {
    var more := steps + [Removed(c)];
    assert more[..|steps|] == steps;
    EveryRunRecords(steps, c);
  }

  // A run in which every connection announces one kind and one id.
  predicate Orderly<C(==)>(steps: seq<Step<C>>) {
    forall i, j :: 0 <= i < j < |steps| && steps[i].c == steps[j].c &&
                   Announces(steps[i]) != NOTHING && Announces(steps[j]) != NOTHING ==>
                     Announces(steps[i]) == Announces(steps[j])
  }

  lemma {:induction false} LatestSaidSo<C>(steps: seq<Step<C>>, key: (Kind, string), c: C)
    requires Orderly(steps) && key != NOTHING && Latest(steps, key) == Some(c)
    ensures LastAnnounced(steps, c) == key
    decreases |steps|
  {
    var front, step := steps[..|steps| - 1], steps[|steps| - 1];
    if Announces(step) != key {
      LatestSaidSo(front, key, c);
      var i := AnnouncedAt(front, key, c);
      assert steps[i] == front[i];
    }
  }

  lemma {:induction false} AnnouncedAt<C>(steps: seq<Step<C>>, key: (Kind, string), c: C) returns (i: nat)
    requires Latest(steps, key) == Some(c)
    ensures i < |steps| && steps[i].c == c && Announces(steps[i]) == key
  {
    i := |steps| - 1;
    if Announces(steps[i]) != key { i := AnnouncedAt(steps[..i], key, c); }
  }

  // Over such runs an id is spoken for exactly while the connection that announced
  // it last is there.
  lemma OrderlyRunSpeaksForLatest<C>(steps: seq<Step<C>>, key: (Kind, string))
    requires Plausible(steps) && Orderly(steps) && key.0 != NoKind
    ensures var latest, clients := Latest(steps, key), Run(steps).clients;
            Named(Run(steps), key) == if latest.Some? && latest.value in clients then latest else None
  {
    hide Orderly, Run, Plausible;
    EveryRunSpeaksForLatest(steps, key);
    if Latest(steps, key).Some? { LatestSaidSo(steps, key, Latest(steps, key).value); }
  }

  // A run of the other sort: a connection that registers for a second id is still
  // named for the first after it has gone.
  lemma SecondIDOutlivesConnection()
    ensures var t := Run([Added(1), RegisteredPC(1, "a"), RegisteredPC(1, "b"), Removed(1)]);
            t.clients == {} && "a" in t.pcs && t.pcs["a"] == 1
  {
    var s1 := [Added(1)];
    var s2 := s1 + [RegisteredPC(1, "a")];
    var s3 := s2 + [RegisteredPC(1, "b")];
    var s4 := s3 + [Removed(1)];
    assert s4 == [Added(1), RegisteredPC(1, "a"), RegisteredPC(1, "b"), Removed(1)];
    assert s4[..3] == s3 && s3[..2] == s2 && s2[..1] == s1 && s1[..0] == [];
    assert TrimSpace("a") == "a" && TrimSpace("b") == "b";
    assert Run(s1).info == map[1 := NOTHING_ANNOUNCED];
    assert Run(s2).pcs == map["a" := 1];
    assert Run(s3).pcs == map["a" := 1, "b" := 1] && Run(s3).info[1].pcID == "b";
  }
}
