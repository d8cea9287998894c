/** The tool-call protocol of backend/app/agent/message_protocol.py: every message list sent to the
    model answers each tool call once, before anything else is said. */
module Protocol {
  import opened Outcomes

  datatype Call = Call(id: string, name: string, args: string)

  datatype Message =
    | System(content: string)
    | Human(content: string)
    | AI(content: string, calls: seq<Call>)
    | Tool(callId: string, content: string)

  datatype Kind =
    | BUYER_INPUT
    | PUBLIC_REPLY
    | APPROVAL_NOTIFICATION
    | SESSION_NOTIFICATION
    | TOOL_CALL
    | TOOL_RESULT
    | MODEL_CANDIDATE
    | RUNTIME_EVENT

  /** `message` is what the record stores; public kinds are read back from their text alone. */
  datatype Record = Record(seqNo: nat, kind: Kind, message: Message)

  function RecordMessage(r: Record): Option<Message> {
    match r.kind
    case BUYER_INPUT => Some(Human(r.message.content))
    case PUBLIC_REPLY => Some(AI(r.message.content, []))
    case APPROVAL_NOTIFICATION => Some(AI(r.message.content, []))
    case SESSION_NOTIFICATION => Some(AI(r.message.content, []))
    case RUNTIME_EVENT => None
    case _ => Some(r.message)
  }

  // ---------------------------------------------------------------- validation

  /** How far a message list has been read: calls still unanswered, and every call id seen. */
  datatype Scan = Scan(pending: set<string>, seen: set<string>) | Broken

  const START := Scan({}, {})

  function CallIds(calls: seq<Call>): set<string> {
    set c | c in calls :: c.id
  }

  predicate FreshCalls(calls: seq<Call>, seen: set<string>) {
    && (forall i :: 0 <= i < |calls| ==> calls[i].id != "" && calls[i].id !in seen)
    && (forall i, j :: 0 <= i < j < |calls| ==> calls[i].id != calls[j].id)
  }

  function Read(s: Scan, m: Message): Scan {
    if s.Broken? then Broken
    else match m
      case Tool(id, _) => if id in s.pending then Scan(s.pending - {id}, s.seen) else Broken
      case AI(_, calls) =>
        if s.pending != {} || !FreshCalls(calls, s.seen) then Broken
        else Scan(CallIds(calls), s.seen + CallIds(calls))
      case _ => if s.pending != {} then Broken else s
  }

  function ReadAll(s: Scan, ms: seq<Message>): Scan
    decreases |ms|
  {
    if ms == [] then s else ReadAll(Read(s, ms[0]), ms[1..])
  }

  predicate Valid(ms: seq<Message>) {
    var s := ReadAll(START, ms);
    s.Scan? && s.pending == {}
  }

  /** The check that runs before a list is sent; it stops at the first offence. */
  method Validate(ms: seq<Message>, allowPending: bool) returns (r: Result<()>)
    ensures r.Success? <==> ReadAll(START, ms).Scan? && (allowPending || Valid(ms))
    ensures r.Failure? ==> r == Failure(ProtocolViolation)
  {
    var pending: set<string> := {};
    var seen: set<string> := {};
    for i := 0 to |ms|
      invariant ReadAll(START, ms) == ReadAll(Scan(pending, seen), ms[i..])
    {
      var m := ms[i];
      assert ReadAll(Scan(pending, seen), ms[i..]) == ReadAll(Read(Scan(pending, seen), m), ms[i + 1..]) by {
        assert ms[i..][1..] == ms[i + 1..];
      }
      BrokenStays(ms[i + 1..]);
      match m
      case Tool(id, _) =>
        if id !in pending {
          return Failure(ProtocolViolation);
        }
        pending := pending - {id};
      case AI(_, calls) =>
        if pending != {} {
          return Failure(ProtocolViolation);
        }
        var before := seen;
        for j := 0 to |calls|
          invariant FreshCalls(calls[..j], before)
          invariant pending == CallIds(calls[..j]) && seen == before + CallIds(calls[..j])
        {
          var id := calls[j].id;
          if id == "" || id in seen {
            assert !FreshCalls(calls, before) by {
              if id in CallIds(calls[..j]) {
                var c :| c in calls[..j] && c.id == id;
                var k :| 0 <= k < j && calls[k] == c;
              }
            }
            return Failure(ProtocolViolation);
          }
          FreshOneMore(calls, j, before);
          seen := seen + {id};
          pending := pending + {id};
        }
        assert calls[..|calls|] == calls;
      case _ =>
        if pending != {} {
          return Failure(ProtocolViolation);
        }
    }
    if pending != {} && !allowPending {
      return Failure(ProtocolViolation);
    }
    r := Success(());
  }

  lemma FreshOneMore(calls: seq<Call>, j: nat, seen: set<string>)
    requires j < |calls| && FreshCalls(calls[..j], seen)
    requires calls[j].id != "" && calls[j].id !in seen && calls[j].id !in CallIds(calls[..j])
    ensures FreshCalls(calls[..j + 1], seen) && CallIds(calls[..j + 1]) == CallIds(calls[..j]) + {calls[j].id}
  {
    assert calls[..j + 1] == calls[..j] + [calls[j]];
    forall i | 0 <= i < j ensures calls[i].id != calls[j].id {
      assert calls[..j][i] in calls[..j];
    }
  }

  lemma {:induction false} BrokenStays(ms: seq<Message>)
    ensures ReadAll(Broken, ms) == Broken
  {
    if ms != [] {
      BrokenStays(ms[1..]);
    }
  }

  lemma {:induction false} ReadInTwo(s: Scan, a: seq<Message>, b: seq<Message>)
    ensures ReadAll(s, a + b) == ReadAll(ReadAll(s, a), b)
    decreases |a|
  {
    if a == [] {
      assert a + b == b;
    } else {
      assert (a + b)[1..] == a[1..] + b;
      ReadInTwo(Read(s, a[0]), a[1..], b);
    }
  }

  lemma ReadOne(s: Scan, m: Message)
    ensures ReadAll(s, [m]) == Read(s, m)
  {
    assert ReadAll(s, [m]) == ReadAll(Read(s, m), [m][1..]);
  }

  /** Every call id in a list. */
  function Ids(ms: seq<Message>): set<string> {
    if ms == [] then {} else (if ms[0].AI? then CallIds(ms[0].calls) else {}) + Ids(ms[1..])
  }

  lemma CallIdsAre(calls: seq<Call>, id: string)
    ensures id in CallIds(calls) <==> exists i :: 0 <= i < |calls| && calls[i].id == id
  {
    if id in CallIds(calls) {
      var c :| c in calls && c.id == id;
    }
  }

  lemma FreshElsewhere(calls: seq<Call>, seen: set<string>, seen': set<string>)
    requires FreshCalls(calls, seen)
    ensures CallIds(calls) !! seen
    ensures CallIds(calls) !! seen' ==> FreshCalls(calls, seen')
  {
    forall i | 0 <= i < |calls| ensures calls[i].id in CallIds(calls) {
      CallIdsAre(calls, calls[i].id);
    }
  }

  /** Reading is local: what was seen before matters only where ids meet. */
  lemma {:induction false} ReadElsewhere(pending: set<string>, seen: set<string>, seen': set<string>, ms: seq<Message>)
    requires ReadAll(Scan(pending, seen), ms).Scan?
    ensures Ids(ms) !! seen
    ensures ReadAll(Scan(pending, seen), ms).seen == seen + Ids(ms)
    ensures Ids(ms) !! seen' ==>
              ReadAll(Scan(pending, seen'), ms) == Scan(ReadAll(Scan(pending, seen), ms).pending, seen' + Ids(ms))
    decreases |ms|
  {
    if ms != [] {
      var next := Read(Scan(pending, seen), ms[0]);
      BrokenStays(ms[1..]);
      if ms[0].AI? {
        FreshElsewhere(ms[0].calls, seen, seen');
        ReadElsewhere(next.pending, next.seen, seen' + CallIds(ms[0].calls), ms[1..]);
        ReadElsewhere(next.pending, next.seen, seen', ms[1..]);
        assert seen' + CallIds(ms[0].calls) + Ids(ms[1..]) == seen' + Ids(ms);
      } else {
        ReadElsewhere(next.pending, next.seen, seen', ms[1..]);
      }
    } else {
      assert seen + {} == seen && seen' + {} == seen';
    }
  }

  // ---------------------------------------------------------------- exchanges

  function Msgs(rs: seq<Record>): seq<Message>
    requires AllUsable(rs)
  {
    seq(|rs|, i requires 0 <= i < |rs| => RecordMessage(rs[i]).value)
  }

  predicate AllUsable(rs: seq<Record>) {
    forall i :: 0 <= i < |rs| ==> RecordMessage(rs[i]).Some?
  }

  lemma MsgsInTwo(a: seq<Record>, b: seq<Record>)
    requires AllUsable(a) && AllUsable(b)
    ensures AllUsable(a + b) && Msgs(a + b) == Msgs(a) + Msgs(b)
  {
  }

  /** A complete exchange: one message that is no tool result and, if it calls tools, exactly
      their results; no shorter part of it is complete. */
  ghost predicate Exchange(g: seq<Record>) {
    && g != []
    && AllUsable(g)
    && Valid(Msgs(g))
    && (forall k :: 0 < k < |g| ==> !Complete(g[..k]))
  }

  predicate Complete(rs: seq<Record>)
    requires AllUsable(rs)
  {
    Valid(Msgs(rs))
  }

  function GroupIds(g: seq<Record>): set<string> {
    if AllUsable(g) then Ids(Msgs(g)) else {}
  }

  ghost predicate WellGrouped(gs: seq<seq<Record>>) {
    && (forall i :: 0 <= i < |gs| ==> Exchange(gs[i]))
    && (forall i, j :: 0 <= i < j < |gs| ==> GroupIds(gs[i]) !! GroupIds(gs[j]))
  }

  function Flatten(gs: seq<seq<Record>>): seq<Record> {
    if gs == [] then [] else gs[0] + Flatten(gs[1..])
  }

  lemma {:induction false} FlattenInTwo(a: seq<seq<Record>>, b: seq<seq<Record>>)
    ensures Flatten(a + b) == Flatten(a) + Flatten(b)
  {
    if a == [] {
      assert a + b == b;
    } else {
      assert (a + b)[1..] == a[1..] + b;
      FlattenInTwo(a[1..], b);
    }
  }

  lemma FlattenOne(g: seq<Record>)
    ensures Flatten([g]) == g
  {
    assert Flatten([g]) == g + Flatten([][..]);
  }

  function AllIds(gs: seq<seq<Record>>): set<string> {
    set i, id | 0 <= i < |gs| && id in GroupIds(gs[i]) :: id
  }

  /** Any well-grouped history is a valid message list, whatever was seen before it. */
  lemma {:induction false} ExchangesRead(gs: seq<seq<Record>>, seen: set<string>)
    requires WellGrouped(gs) && AllIds(gs) !! seen
    ensures AllUsable(Flatten(gs))
    ensures ReadAll(Scan({}, seen), Msgs(Flatten(gs))) == Scan({}, seen + AllIds(gs))
  {
    if gs == [] {
      assert seen + AllIds(gs) == seen;
    } else {
      var g := gs[0];
      var rest := gs[1..];
      forall id | id in GroupIds(g) ensures id in AllIds(gs) {
      }
      forall i, id | 0 <= i < |rest| && id in GroupIds(rest[i]) ensures id in AllIds(gs) && id !in GroupIds(g) {
        assert gs[i + 1] == rest[i];
      }
      ReadElsewhere({}, {}, seen, Msgs(g));
      ExchangesRead(rest, seen + GroupIds(g));
      MsgsInTwo(g, Flatten(rest));
      ReadInTwo(Scan({}, seen), Msgs(g), Msgs(Flatten(rest)));
      assert seen + AllIds(gs) == seen + GroupIds(g) + AllIds(rest);
    }
  }

  // ---------------------------------------------------------------- grouping

  datatype Grouping = Grouping(groups: seq<seq<Record>>, pending: set<string>) {
    predicate Ok() {
      pending != {} ==> groups != []
    }
  }

  const NO_GROUPS := Grouping([], {})

  function Unanswered(pending: set<string>, m: Message): set<string> {
    match m
    case AI(_, calls) => pending + CallIds(calls)
    case Tool(id, _) => pending - {id}
    case _ => pending
  }

  function Group(g: Grouping, r: Record): (g': Grouping)
    requires g.Ok()
    ensures g'.Ok()
  {
    if RecordMessage(r).None? then g
    else
      var groups := if g.pending == {} then g.groups + [[]] else g.groups;
      var last := |groups| - 1;
      Grouping(groups[last := groups[last] + [r]], Unanswered(g.pending, RecordMessage(r).value))
  }

  function GroupAll(g: Grouping, rs: seq<Record>): (g': Grouping)
    requires g.Ok()
    ensures g'.Ok()
    decreases |rs|
  {
    if rs == [] then g else GroupAll(Group(g, rs[0]), rs[1..])
  }

  function GroupsOf(rs: seq<Record>): seq<seq<Record>> {
    GroupAll(NO_GROUPS, rs).groups
  }

  method Groups(rs: seq<Record>) returns (groups: seq<seq<Record>>)
    ensures groups == GroupsOf(rs)
  {
    groups := [];
    var pending: set<string> := {};
    for i := 0 to |rs|
      invariant Grouping(groups, pending).Ok()
      invariant GroupAll(NO_GROUPS, rs) == GroupAll(Grouping(groups, pending), rs[i..])
    {
      assert rs[i..][1..] == rs[i + 1..];
      var message := RecordMessage(rs[i]);
      if message.None? {
        continue;
      }
      if pending == {} {
        groups := groups + [[]];
      }
      groups := groups[|groups| - 1 := groups[|groups| - 1] + [rs[i]]];
      match message.value
      case AI(_, calls) => pending := pending + CallIds(calls);
      case Tool(id, _) => pending := pending - {id};
      case _ =>
    }
  }

  lemma {:induction false} GroupInTwo(g: Grouping, a: seq<Record>, b: seq<Record>)
    requires g.Ok()
    ensures GroupAll(g, a + b) == GroupAll(GroupAll(g, a), b)
    decreases |a|
  {
    if a == [] {
      assert a + b == b;
    } else {
      assert (a + b)[1..] == a[1..] + b;
      GroupInTwo(Group(g, a[0]), a[1..], b);
    }
  }

  /** Grouping one exchange, part by part: its records stay together in one new group. */
  lemma {:induction false} GroupPart(done: seq<seq<Record>>, g: seq<Record>, k: nat)
    requires Exchange(g) && 0 < k <= |g|
    ensures AllUsable(g[..k]) && ReadAll(START, Msgs(g[..k])).Scan?
    ensures GroupAll(Grouping(done, {}), g[..k]) == Grouping(done + [g[..k]], ReadAll(START, Msgs(g[..k])).pending)
  {
    PartReads(g, k);
    var r := g[k - 1];
    assert g[..k] == g[..k - 1] + [r];
    GroupInTwo(Grouping(done, {}), g[..k - 1], [r]);
    MsgsInTwo(g[..k - 1], [r]);
    ReadInTwo(START, Msgs(g[..k - 1]), Msgs([r]));
    if k == 1 {
      assert g[..0] == [];
      assert GroupAll(Grouping(done, {}), [r]) == Group(Grouping(done, {}), r);
      assert Msgs([r])[1..] == [];
      assert ReadAll(START, Msgs([r])) == Read(START, RecordMessage(r).value);
    } else {
      GroupPart(done, g, k - 1);
      assert !Complete(g[..k - 1]);
      var before := GroupAll(Grouping(done, {}), g[..k - 1]);
      assert GroupAll(before, [r]) == Group(before, r);
      var scan := ReadAll(START, Msgs(g[..k - 1]));
      assert Msgs([r])[1..] == [];
      assert ReadAll(scan, Msgs([r])) == Read(scan, RecordMessage(r).value);
    }
  }

  lemma PartReads(g: seq<Record>, k: nat)
    requires Exchange(g) && k <= |g|
    ensures AllUsable(g[..k]) && ReadAll(START, Msgs(g[..k])).Scan?
  {
    assert g == g[..k] + g[k..];
    MsgsInTwo(g[..k], g[k..]);
    ReadInTwo(START, Msgs(g[..k]), Msgs(g[k..]));
    BrokenStays(Msgs(g[k..]));
  }

  lemma {:induction false} GroupExchanges(done: seq<seq<Record>>, gs: seq<seq<Record>>)
    requires WellGrouped(gs)
    ensures GroupAll(Grouping(done, {}), Flatten(gs)) == Grouping(done + gs, {})
    decreases |gs|
  {
    if gs == [] {
      assert done + gs == done;
    } else {
      var g := gs[0];
      GroupPart(done, g, |g|);
      assert g[..|g|] == g;
      GroupInTwo(Grouping(done, {}), g, Flatten(gs[1..]));
      GroupExchanges(done + [g], gs[1..]);
      assert done + [g] + gs[1..] == done + gs;
    }
  }

  /** Grouping a well-grouped history gives its exchanges back. */
  lemma GroupsAreExchanges(gs: seq<seq<Record>>)
    requires WellGrouped(gs)
    ensures GroupsOf(Flatten(gs)) == gs
  {
    GroupExchanges([], gs);
    assert [] + gs == gs;
  }

  // ---------------------------------------------------------------- any valid history is well grouped

  /** The start of an exchange, some of its results still missing. */
  ghost predicate OpenExchange(g: seq<Record>, pending: set<string>) {
    && g != []
    && AllUsable(g)
    && ReadAll(START, Msgs(g)).Scan?
    && ReadAll(START, Msgs(g)).pending == pending
    && (forall k :: 0 < k < |g| ==> !Complete(g[..k]))
  }

  /** Where grouping and reading stand after part of a valid history. */
  ghost predicate Parted(g: Grouping, scan: Scan, rs: seq<Record>) {
    && scan.Scan?
    && g.pending == scan.pending
    && g.Ok()
    && Flatten(g.groups) == rs
    && AllUsable(rs)
    && scan.seen == AllIds(g.groups)
    && (if g.pending == {} then WellGrouped(g.groups)
        else
          var last := |g.groups| - 1;
          && WellGrouped(g.groups[..last])
          && OpenExchange(g.groups[last], g.pending)
          && GroupIds(g.groups[last]) !! AllIds(g.groups[..last]))
  }

  lemma AllIdsOfLast(gs: seq<seq<Record>>, g: seq<Record>)
    ensures AllIds(gs + [g]) == AllIds(gs) + GroupIds(g)
  {
    forall id | id in AllIds(gs + [g]) ensures id in AllIds(gs) + GroupIds(g) {
      var i :| 0 <= i < |gs| + 1 && id in GroupIds((gs + [g])[i]);
      if i < |gs| {
        assert gs[i] == (gs + [g])[i];
      }
    }
    forall id | id in AllIds(gs) ensures id in AllIds(gs + [g]) {
      var i :| 0 <= i < |gs| && id in GroupIds(gs[i]);
      assert (gs + [g])[i] == gs[i];
    }
    assert (gs + [g])[|gs|] == g;
  }

  lemma WellGroupedMore(gs: seq<seq<Record>>, g: seq<Record>)
    requires WellGrouped(gs) && Exchange(g) && GroupIds(g) !! AllIds(gs)
    ensures WellGrouped(gs + [g])
  {
    forall i, j | 0 <= i < j < |gs + [g]| ensures GroupIds((gs + [g])[i]) !! GroupIds((gs + [g])[j]) {
      if j == |gs| {
        forall id | id in GroupIds(gs[i]) ensures id in AllIds(gs) {
        }
      }
    }
  }

  /** One more message extends the exchange it belongs to. */
  lemma OneMore(g: seq<Record>, r: Record)
    requires AllUsable(g) && RecordMessage(r).Some? && ReadAll(START, Msgs(g)).Scan?
    requires forall k :: 0 < k <= |g| ==> !Complete(g[..k])
    requires ReadAll(ReadAll(START, Msgs(g)), [RecordMessage(r).value]).Scan?
    ensures OpenExchange(g + [r], ReadAll(ReadAll(START, Msgs(g)), [RecordMessage(r).value]).pending)
    ensures GroupIds(g + [r]) == GroupIds(g) + Ids([RecordMessage(r).value])
    ensures ReadAll(START, Msgs(g + [r])).pending == {} ==> Exchange(g + [r])
  {
    MsgsInTwo(g, [r]);
    ReadInTwo(START, Msgs(g), Msgs([r]));
    assert Msgs([r]) == [RecordMessage(r).value];
    forall k | 0 < k < |g + [r]| ensures !Complete((g + [r])[..k]) {
      assert (g + [r])[..k] == g[..k];
    }
    ReadElsewhere({}, {}, {}, Msgs(g));
    ReadElsewhere({}, {}, {}, Msgs(g + [r]));
    IdsInTwo(Msgs(g), Msgs([r]));
  }

  lemma {:induction false} IdsInTwo(a: seq<Message>, b: seq<Message>)
    ensures Ids(a + b) == Ids(a) + Ids(b)
  {
    if a == [] {
      assert a + b == b;
    } else {
      assert (a + b)[1..] == a[1..] + b;
      IdsInTwo(a[1..], b);
    }
  }

  lemma PartedNewGroup(g: Grouping, scan: Scan, rs: seq<Record>, r: Record)
    requires Parted(g, scan, rs) && g.pending == {} && RecordMessage(r).Some?
    requires Read(scan, RecordMessage(r).value).Scan?
    ensures Parted(Group(g, r), Read(scan, RecordMessage(r).value), rs + [r])
  {
    var m := RecordMessage(r).value;
    ReadOne(scan, m);
    ReadOne(START, m);
    ReadElsewhere({}, scan.seen, {}, [m]);
    assert {} + Ids([m]) == Ids([m]);
    assert Msgs([]) == [];
    OneMore([], r);
    assert [] + [r] == [r];
    FlattenInTwo(g.groups, [[r]]);
    FlattenOne([r]);
    AllIdsOfLast(g.groups, [r]);
    assert Group(g, r).groups == g.groups + [[r]];
    assert Group(g, r).groups[..|g.groups|] == g.groups;
    if Read(scan, m).pending == {} {
      WellGroupedMore(g.groups, [r]);
    }
  }

  lemma PartedSameGroup(g: Grouping, scan: Scan, rs: seq<Record>, r: Record)
    requires Parted(g, scan, rs) && g.pending != {} && RecordMessage(r).Some?
    requires Read(scan, RecordMessage(r).value).Scan?
    ensures Parted(Group(g, r), Read(scan, RecordMessage(r).value), rs + [r])
  {
    var m := RecordMessage(r).value;
    var n := |g.groups| - 1;
    var earlier, open := g.groups[..n], g.groups[n];
    var inner := ReadAll(START, Msgs(open));
    assert g.groups == earlier + [open];
    AllIdsOfLast(earlier, open);
    ReadOne(scan, m);
    ReadOne(inner, m);
    ReadElsewhere({}, {}, {}, Msgs(open));
    assert open[..|open|] == open;
    ReadElsewhere(scan.pending, scan.seen, inner.seen, [m]);
    assert m.Tool?;
    OneMore(open, r);
    assert Group(g, r).groups == earlier + [open + [r]];
    FlattenInTwo(earlier, [open]);
    FlattenInTwo(earlier, [open + [r]]);
    FlattenOne(open);
    FlattenOne(open + [r]);
    AllIdsOfLast(earlier, open + [r]);
    assert Group(g, r).groups[..n] == earlier;
    if Read(scan, m).pending == {} {
      WellGroupedMore(earlier, open + [r]);
    }
  }

  lemma {:induction false} PartedAll(g: Grouping, scan: Scan, done: seq<Record>, rest: seq<Record>)
    requires Parted(g, scan, done) && AllUsable(rest) && ReadAll(scan, Msgs(rest)).Scan?
    ensures Parted(GroupAll(g, rest), ReadAll(scan, Msgs(rest)), done + rest)
    decreases |rest|
  {
    if rest == [] {
      assert done + rest == done;
    } else {
      var m := RecordMessage(rest[0]).value;
      assert Msgs(rest)[1..] == Msgs(rest[1..]);
      BrokenStays(Msgs(rest[1..]));
      if g.pending == {} {
        PartedNewGroup(g, scan, done, rest[0]);
      } else {
        PartedSameGroup(g, scan, done, rest[0]);
      }
      PartedAll(Group(g, rest[0]), Read(scan, m), done + [rest[0]], rest[1..]);
      assert done + [rest[0]] + rest[1..] == done + rest;
    }
  }

  /** Grouping splits every valid history into complete exchanges and loses nothing. */
  lemma ValidIsWellGrouped(rs: seq<Record>)
    requires AllUsable(rs) && Valid(Msgs(rs))
    ensures WellGrouped(GroupsOf(rs)) && Flatten(GroupsOf(rs)) == rs
  {
    PartedAll(NO_GROUPS, START, [], rs);
    assert [] + rs == rs;
  }

  /** Trimming and summarising are safe: whichever whole groups of a valid history are kept, what
      is left is valid, and still falls into exactly those groups. */
  lemma KeptGroupsAreValid(rs: seq<Record>, kept: seq<nat>)
    requires AllUsable(rs) && Valid(Msgs(rs))
    requires forall i :: 0 <= i < |kept| ==> kept[i] < |GroupsOf(rs)|
    requires forall i, j :: 0 <= i < j < |kept| ==> kept[i] < kept[j]
    ensures var left := seq(|kept|, i requires 0 <= i < |kept| => GroupsOf(rs)[kept[i]]);
            && AllUsable(Flatten(left))
            && Valid(Msgs(Flatten(left)))
            && GroupsOf(Flatten(left)) == left
  {
    ValidIsWellGrouped(rs);
    var left := seq(|kept|, i requires 0 <= i < |kept| => GroupsOf(rs)[kept[i]]);
    assert WellGrouped(left);
    ExchangesRead(left, {});
    GroupsAreExchanges(left);
  }
}
