/** What the model is shown: selection, summarising and trimming of the record stream, after
    backend/app/agent/context_builder.py and context_compressor.py. */
module AgentContext {
  import opened Outcomes
  import opened Protocol

  // ---------------------------------------------------------------- filters

  function Usable(rs: seq<Record>): (u: seq<Record>)
    ensures AllUsable(u)
  {
    if rs == [] then []
    else if RecordMessage(rs[0]).Some? then [rs[0]] + Usable(rs[1..])
    else Usable(rs[1..])
  }

  function Without(rs: seq<Record>, drop: set<nat>): seq<Record> {
    if rs == [] then []
    else if rs[0].seqNo in drop then Without(rs[1..], drop)
    else [rs[0]] + Without(rs[1..], drop)
  }

  function SeqSet(rs: seq<Record>): set<nat> {
    set r | r in rs :: r.seqNo
  }

  predicate Ordered(rs: seq<Record>) {
    forall i, j :: 0 <= i < j < |rs| ==> rs[i].seqNo < rs[j].seqNo
  }

  lemma {:induction false} WithoutInTwo(a: seq<Record>, b: seq<Record>, drop: set<nat>)
    ensures Without(a + b, drop) == Without(a, drop) + Without(b, drop)
  {
    if a == [] {
      assert a + b == b;
    } else {
      assert (a + b)[1..] == a[1..] + b;
      WithoutInTwo(a[1..], b, drop);
    }
  }

  lemma {:induction false} UsableInTwo(a: seq<Record>, b: seq<Record>)
    ensures Usable(a + b) == Usable(a) + Usable(b)
  {
    if a == [] {
      assert a + b == b;
    } else {
      assert (a + b)[1..] == a[1..] + b;
      UsableInTwo(a[1..], b);
    }
  }

  lemma {:induction false} UsableAreRecords(rs: seq<Record>)
    ensures forall r :: r in Usable(rs) <==> r in rs && RecordMessage(r).Some?
    ensures Ordered(rs) ==> Ordered(Usable(rs))
  {
    if rs != [] {
      UsableAreRecords(rs[1..]);
      assert rs == [rs[0]] + rs[1..];
      if Ordered(rs) && RecordMessage(rs[0]).Some? {
        forall i, j | 0 <= i < j < |Usable(rs)| ensures Usable(rs)[i].seqNo < Usable(rs)[j].seqNo {
          if i == 0 {
            assert Usable(rs)[j] in Usable(rs[1..]);
          }
        }
      }
    }
  }

  lemma {:induction false} WithoutAreRecords(rs: seq<Record>, drop: set<nat>)
    ensures forall r :: r in Without(rs, drop) <==> r in rs && r.seqNo !in drop
    ensures AllUsable(rs) ==> AllUsable(Without(rs, drop))
    ensures Ordered(rs) ==> Ordered(Without(rs, drop))
  {
    if rs != [] {
      WithoutAreRecords(rs[1..], drop);
      assert rs == [rs[0]] + rs[1..];
      if Ordered(rs) && rs[0].seqNo !in drop {
        forall i, j | 0 <= i < j < |Without(rs, drop)| ensures Without(rs, drop)[i].seqNo < Without(rs, drop)[j].seqNo {
          if i == 0 {
            assert Without(rs, drop)[j] in Without(rs[1..], drop);
          }
        }
      }
    }
  }

  // ---------------------------------------------------------------- whole groups

  /** Every group is in the set with all its records or with none. */
  ghost predicate Closed(gs: seq<seq<Record>>, drop: set<nat>) {
    forall i :: 0 <= i < |gs| ==> SeqSet(gs[i]) <= drop || SeqSet(gs[i]) !! drop
  }

  function KeepGroups(gs: seq<seq<Record>>, drop: set<nat>): seq<seq<Record>> {
    if gs == [] then []
    else if gs[0] != [] && gs[0][0].seqNo in drop then KeepGroups(gs[1..], drop)
    else [gs[0]] + KeepGroups(gs[1..], drop)
  }

  lemma {:induction false} AllOrNone(g: seq<Record>, drop: set<nat>)
    ensures SeqSet(g) <= drop ==> Without(g, drop) == []
    ensures SeqSet(g) !! drop ==> Without(g, drop) == g
  {
    if g != [] {
      AllOrNone(g[1..], drop);
      assert g == [g[0]] + g[1..];
      assert g[0].seqNo in SeqSet(g) && SeqSet(g[1..]) <= SeqSet(g);
    }
  }

  lemma {:induction false} WithoutFlatten(gs: seq<seq<Record>>, drop: set<nat>)
    requires Closed(gs, drop) && forall i :: 0 <= i < |gs| ==> gs[i] != []
    ensures Without(Flatten(gs), drop) == Flatten(KeepGroups(gs, drop))
  {
    if gs != [] {
      var g := gs[0];
      forall i | 0 <= i < |gs[1..]| ensures SeqSet(gs[1..][i]) <= drop || SeqSet(gs[1..][i]) !! drop {
        assert gs[1..][i] == gs[i + 1];
      }
      WithoutFlatten(gs[1..], drop);
      WithoutInTwo(g, Flatten(gs[1..]), drop);
      AllOrNone(g, drop);
      assert g[0] in g && g[0].seqNo in SeqSet(g);
      FlattenInTwo([g], KeepGroups(gs[1..], drop));
      FlattenOne(g);
    }
  }

  lemma {:induction false} KeepIsWellGrouped(gs: seq<seq<Record>>, drop: set<nat>)
    requires WellGrouped(gs)
    ensures WellGrouped(KeepGroups(gs, drop))
    ensures forall g :: g in KeepGroups(gs, drop) ==> g in gs
  {
    if gs != [] {
      var rest := gs[1..];
      assert gs == [gs[0]] + rest;
      KeepIsWellGrouped(rest, drop);
      var kept := KeepGroups(rest, drop);
      forall j | 0 <= j < |kept| ensures GroupIds(gs[0]) !! GroupIds(kept[j]) {
        assert kept[j] in rest;
        var k :| 0 <= k < |rest| && rest[k] == kept[j];
        assert gs[k + 1] == kept[j];
      }
    }
  }

  lemma {:induction false} InFlatten(gs: seq<seq<Record>>, r: Record)
    ensures r in Flatten(gs) <==> exists i :: 0 <= i < |gs| && r in gs[i]
  {
    if gs != [] {
      InFlatten(gs[1..], r);
      if r in Flatten(gs[1..]) {
        var i :| 0 <= i < |gs[1..]| && r in gs[1..][i];
        assert gs[i + 1] == gs[1..][i];
      }
      if i :| 0 <= i < |gs| && r in gs[i] {
        if i > 0 {
          assert gs[1..][i - 1] == gs[i];
        }
      }
    }
  }

  /** Groups of an ordered history follow each other. */
  lemma {:induction false} GroupsApart(gs: seq<seq<Record>>, i: nat, k: nat, a: Record, b: Record)
    requires Ordered(Flatten(gs)) && i < k < |gs| && a in gs[i] && b in gs[k]
    ensures a.seqNo < b.seqNo
  {
    var rest := Flatten(gs[1..]);
    assert Flatten(gs) == gs[0] + rest;
    if i == 0 {
      assert gs[1..][k - 1] == gs[k];
      InFlatten(gs[1..], b);
      var x :| 0 <= x < |gs[0]| && gs[0][x] == a;
      var y :| 0 <= y < |rest| && rest[y] == b;
      assert Flatten(gs)[x] == a && Flatten(gs)[|gs[0]| + y] == b;
    } else {
      forall x, y | 0 <= x < y < |rest| ensures rest[x].seqNo < rest[y].seqNo {
        assert Flatten(gs)[|gs[0]| + x] == rest[x] && Flatten(gs)[|gs[0]| + y] == rest[y];
      }
      GroupsApart(gs[1..], i - 1, k - 1, a, b);
    }
  }

  /** A buyer's message is an exchange of its own. */
  lemma HumanStandsAlone(g: seq<Record>, i: nat)
    requires Exchange(g) && i < |g| && RecordMessage(g[i]).value.Human?
    ensures g == [g[i]]
  {
    var m := RecordMessage(g[i]).value;
    assert g[..i + 1] == g[..i] + [g[i]];
    PartReads(g, i);
    PartReads(g, i + 1);
    MsgsInTwo(g[..i], [g[i]]);
    assert Msgs([g[i]]) == [m];
    ReadInTwo(START, Msgs(g[..i]), [m]);
    ReadOne(ReadAll(START, Msgs(g[..i])), m);
    assert Complete(g[..i]) && Complete(g[..i + 1]);
  }

  // ---------------------------------------------------------------- the summary state

  /** The state that outlives one call: `sources` lists every record the summary stands for. */
  class ContextState {
    var summary: string
    var coveredThrough: nat
    var sources: set<nat>

    constructor (summary: string, coveredThrough: nat, sources: set<nat>)
      ensures this.summary == summary && this.coveredThrough == coveredThrough && this.sources == sources
    {
      this.summary, this.coveredThrough, this.sources := summary, coveredThrough, sources;
    }
  }

  /** Nothing is lost by summarising: what the coverage cursor has passed is among the sources,
      which are made of whole exchanges. */
  ghost predicate Summarised(usable: seq<Record>, covered: nat, sources: set<nat>) {
    && (forall r :: r in usable && r.seqNo <= covered ==> r.seqNo in sources)
    && Closed(GroupsOf(usable), sources)
    && sources <= SeqSet(usable)
  }

  /** Nor is the current input summarised. */
  ghost predicate Covers(usable: seq<Record>, current: nat, covered: nat, sources: set<nat>) {
    && Summarised(usable, covered, sources)
    && covered < current
    && current !in sources
  }

  function Selection(usable: seq<Record>, covered: nat, sources: set<nat>): seq<Record> {
    if usable == [] then []
    else if usable[0].seqNo > covered && usable[0].seqNo !in sources
    then [usable[0]] + Selection(usable[1..], covered, sources)
    else Selection(usable[1..], covered, sources)
  }

  lemma {:induction false} SelectionIsWithout(usable: seq<Record>, covered: nat, sources: set<nat>)
    requires forall r :: r in usable && r.seqNo <= covered ==> r.seqNo in sources
    ensures Selection(usable, covered, sources) == Without(usable, sources)
  {
    if usable != [] {
      assert usable[0] in usable;
      SelectionIsWithout(usable[1..], covered, sources);
    }
  }

  /** What is selected are whole exchanges: those that are not summarised. */
  lemma SelectionIsGrouped(usable: seq<Record>, current: nat, covered: nat, sources: set<nat>)
    requires AllUsable(usable) && Valid(Msgs(usable)) && Covers(usable, current, covered, sources)
    ensures var selected := Selection(usable, covered, sources);
            && AllUsable(selected)
            && GroupsOf(selected) == KeepGroups(GroupsOf(usable), sources)
            && WellGrouped(GroupsOf(selected))
            && Flatten(GroupsOf(selected)) == selected
            && selected == Without(usable, sources)
            && (Ordered(usable) ==> Ordered(selected))
  {
    ValidIsWellGrouped(usable);
    var gs := GroupsOf(usable);
    SelectionIsWithout(usable, covered, sources);
    WithoutFlatten(gs, sources);
    KeepIsWellGrouped(gs, sources);
    GroupsAreExchanges(KeepGroups(gs, sources));
    WithoutAreRecords(usable, sources);
  }

  // ---------------------------------------------------------------- choosing what to summarise

  predicate HoldsSeq(g: seq<Record>, q: nat) {
    exists i :: 0 <= i < |g| && g[i].seqNo == q
  }

  /** The groups among `gs` that do not hold the current input. */
  function Older(gs: seq<seq<Record>>, current: nat): seq<seq<Record>> {
    if gs == [] then []
    else Older(gs[..|gs| - 1], current) + if HoldsSeq(gs[|gs| - 1], current) then [] else [gs[|gs| - 1]]
  }

  lemma {:induction false} InOlder(gs: seq<seq<Record>>, current: nat, r: Record)
    ensures r in Flatten(Older(gs, current)) <==> exists i :: 0 <= i < |gs| && r in gs[i] && !HoldsSeq(gs[i], current)
  {
    if gs != [] {
      var n := |gs| - 1;
      InOlder(gs[..n], current, r);
      var tail := if HoldsSeq(gs[n], current) then [] else [gs[n]];
      FlattenInTwo(Older(gs[..n], current), tail);
      FlattenOne(gs[n]);
      if r in Flatten(Older(gs[..n], current)) {
        var i :| 0 <= i < n && r in gs[..n][i] && !HoldsSeq(gs[..n][i], current);
        assert gs[i] == gs[..n][i];
      }
      if i :| 0 <= i < |gs| && r in gs[i] && !HoldsSeq(gs[i], current) {
        if i < n {
          assert gs[..n][i] == gs[i];
        }
      }
    }
  }

  /** The static part of a run's configuration. Token counting, JSON text and
      hashes are functions. */
  datatype Config = Config(
    limit: nat,
    trigger: real,
    estimate: seq<Message> -> nat,
    render: (string, set<nat>, seq<Record>) -> string,
    listing: (nat, seq<Record>) -> string,
    summaryPrompt: string,
    reviewKey: (string, string) -> string)  // hash of a reply and of the evidence it is reviewed against

  function SummaryRequest(config: Config, summary: string, sources: set<nat>, records: seq<Record>): seq<Message> {
    [System(config.summaryPrompt), Human(config.render(summary, sources, records))]
  }

  predicate Summarisable(config: Config, state: ContextState, records: seq<Record>)
    reads state
  {
    config.estimate(SummaryRequest(config, state.summary, state.sources, records)) <= config.limit
  }

  /** Earlier complete exchanges, as many as fit one summary request; the last two groups and the
      current input stay out. Groups are taken from the oldest on, each time within the limit, until
      the next one would exceed it or only the last two are left. */
  method ChooseOld(config: Config, groups: seq<seq<Record>>, current: nat, state: ContextState)
    returns (earlier: seq<Record>, taken: nat)
    ensures taken <= |groups| && (taken == 0 || taken <= |groups| - 2)
    ensures earlier == Flatten(Older(groups[..taken], current))
    ensures forall k :: 0 <= k <= taken && Flatten(Older(groups[..k], current)) != [] ==>
              Summarisable(config, state, Flatten(Older(groups[..k], current)))
    ensures taken + 2 < |groups| ==>
              && !HoldsSeq(groups[taken], current)
              && !Summarisable(config, state, earlier + groups[taken])
  {
    hide Flatten, Older, Summarisable, HoldsSeq;
    earlier, taken := [], 0;
    var i := 0;
    NoneOlder(groups, current);
    while i + 2 < |groups|
      invariant 0 <= i <= |groups| && (i == 0 || i <= |groups| - 2)
      invariant taken == i && earlier == Flatten(Older(groups[..i], current))
      invariant forall k :: 0 <= k <= i && Flatten(Older(groups[..k], current)) != [] ==>
                  Summarisable(config, state, Flatten(Older(groups[..k], current)))
    {
      OneMoreOlder(groups, i, current);
      if !HoldsSeq(groups[i], current) {
        var candidate := earlier + groups[i];
        if !Summarisable(config, state, candidate) {
          break;
        }
        earlier := candidate;
      }
      i := i + 1;
      taken := i;
    }
  }

  lemma NoneOlder(groups: seq<seq<Record>>, current: nat)
    ensures Flatten(Older(groups[..0], current)) == []
  {
  }

  lemma OneMoreOlder(groups: seq<seq<Record>>, i: nat, current: nat)
    requires i < |groups|
    ensures Flatten(Older(groups[..i + 1], current)) ==
            Flatten(Older(groups[..i], current)) + if HoldsSeq(groups[i], current) then [] else groups[i]
  {
    assert groups[..i + 1][..i] == groups[..i] && groups[..i + 1][i] == groups[i];
    FlattenInTwo(Older(groups[..i], current), [groups[i]]);
    FlattenOne(groups[i]);
    if HoldsSeq(groups[i], current) {
      assert Older(groups[..i + 1], current) == Older(groups[..i], current);
    }
  }

  /** What comes back for a summary request; anything that is no JSON object is `None`. */
  datatype SummaryReply = SummaryReply(text: Option<string>, sources: Option<set<nat>>)

  const SUMMARY_CHARS := 5000

  predicate Blank(text: string) {
    forall i :: 0 <= i < |text| ==> text[i] in WHITESPACE
  }

  const WHITESPACE := {' ', '\t', '\n', '\r', '\U{B}', '\U{C}', '\U{1C}', '\U{1D}', '\U{1E}', '\U{1F}', '\U{85}',
                       '\U{A0}', '\U{1680}', '\U{2028}', '\U{2029}', '\U{202F}', '\U{205F}', '\U{3000}'}
                    + set i | 0x2000 <= i <= 0x200A :: i as char

  predicate Acceptable(reply: Option<SummaryReply>, allowed: set<nat>) {
    && reply.Some?
    && reply.value.text.Some?
    && !Blank(reply.value.text.value)
    && |reply.value.text.value| <= SUMMARY_CHARS
    && reply.value.sources.Some?
    && reply.value.sources.value <= allowed
  }

  function Least(a: int, b: int): int { if a < b then a else b }

  function NewCoverage(covered: nat, current: nat, earlier: seq<Record>): nat
    requires earlier != [] && current > 0
  {
    var reached := Least(current - 1, earlier[|earlier| - 1].seqNo);
    if covered < reached then reached else covered
  }

  /** Take a summary in, or leave the state exactly as it was. */
  method Absorb(state: ContextState, earlier: seq<Record>, current: nat, reply: Option<SummaryReply>) returns (ok: bool)
    requires earlier != [] && current > 0
    modifies state
    ensures ok == Acceptable(reply, SeqSet(earlier) + old(state.sources))
    ensures !ok ==> unchanged(state)
    ensures ok ==> state.summary == reply.value.text.value
                   && state.sources == SeqSet(earlier) + old(state.sources)
                   && state.coveredThrough == NewCoverage(old(state.coveredThrough), current, earlier)
  {
    if reply.None? {
      return false;
    }
    var allowed := SeqSet(earlier) + state.sources;
    if reply.value.text.None? || Blank(reply.value.text.value) {
      return false;
    }
    if reply.value.sources.None? || !(reply.value.sources.value <= allowed) {
      return false;
    }
    if |reply.value.text.value| > SUMMARY_CHARS {
      return false;
    }
    state.summary := reply.value.text.value;
    state.coveredThrough := NewCoverage(state.coveredThrough, current, earlier);
    state.sources := allowed;
    ok := true;
  }

  // ---------------------------------------------------------------- summarising loses nothing

  /** The current buyer input, read back from the stream. */
  ghost predicate HasCurrent(usable: seq<Record>, current: nat) {
    exists r :: r in usable && r.seqNo == current && r.kind == BUYER_INPUT
  }

  lemma SeqIsUnique(rs: seq<Record>, a: Record, b: Record)
    requires Ordered(rs) && a in rs && b in rs && a.seqNo == b.seqNo
    ensures a == b
  {
    var i :| 0 <= i < |rs| && rs[i] == a;
    var j :| 0 <= j < |rs| && rs[j] == b;
  }

  /** Where a record of the selection was cut off: before `taken` it is summarised, unless it is
      the current input; from there on it is newer than everything summarised. */
  lemma CutPoint(selected: seq<Record>, current: nat, taken: nat, r: Record)
    requires AllUsable(selected) && Ordered(selected) && WellGrouped(GroupsOf(selected))
    requires Flatten(GroupsOf(selected)) == selected && HasCurrent(selected, current)
    requires taken <= |GroupsOf(selected)| && r in selected
    ensures var earlier := Flatten(Older(GroupsOf(selected)[..taken], current));
            || r in earlier
            || r.seqNo == current
            || (forall x :: x in earlier ==> x.seqNo < r.seqNo)
  {
    var gs := GroupsOf(selected);
    var earlier := Flatten(Older(gs[..taken], current));
    InFlatten(gs, r);
    var i :| 0 <= i < |gs| && r in gs[i];
    InOlder(gs[..taken], current, r);
    if i < taken {
      assert gs[..taken][i] == gs[i];
      if HoldsSeq(gs[i], current) {
        CurrentStandsAlone(selected, current, i);
      }
    } else {
      forall x | x in earlier ensures x.seqNo < r.seqNo {
        InOlder(gs[..taken], current, x);
        var k :| 0 <= k < taken && x in gs[..taken][k] && !HoldsSeq(gs[..taken][k], current);
        assert gs[..taken][k] == gs[k];
        GroupsApart(gs, k, i, x, r);
      }
    }
  }

  lemma CurrentStandsAlone(selected: seq<Record>, current: nat, i: nat)
    requires AllUsable(selected) && Ordered(selected) && WellGrouped(GroupsOf(selected))
    requires Flatten(GroupsOf(selected)) == selected && HasCurrent(selected, current)
    requires i < |GroupsOf(selected)| && HoldsSeq(GroupsOf(selected)[i], current)
    ensures |GroupsOf(selected)[i]| == 1 && GroupsOf(selected)[i][0].seqNo == current
  {
    var g := GroupsOf(selected)[i];
    var j :| 0 <= j < |g| && g[j].seqNo == current;
    InFlatten(GroupsOf(selected), g[j]);
    var c :| c in selected && c.seqNo == current && c.kind == BUYER_INPUT;
    SeqIsUnique(selected, c, g[j]);
    HumanStandsAlone(g, j);
  }

  /** A group of the selection is summarised with all its records or with none. */
  lemma OlderIsClosed(selected: seq<Record>, current: nat, taken: nat, i: nat)
    requires Ordered(selected) && Flatten(GroupsOf(selected)) == selected
    requires taken <= |GroupsOf(selected)| && i < |GroupsOf(selected)|
    ensures var gs := GroupsOf(selected);
            var earlier := SeqSet(Flatten(Older(gs[..taken], current)));
            SeqSet(gs[i]) <= earlier || SeqSet(gs[i]) !! earlier
  {
    var gs := GroupsOf(selected);
    var earlier := Flatten(Older(gs[..taken], current));
    if i < taken && !HoldsSeq(gs[i], current) {
      forall r | r in gs[i] ensures r in earlier {
        assert gs[..taken][i] == gs[i];
        InOlder(gs[..taken], current, r);
      }
    } else {
      forall r: Record, x: Record | r in gs[i] && x in earlier ensures r.seqNo != x.seqNo {
        InOlder(gs[..taken], current, x);
        var k :| 0 <= k < taken && x in gs[..taken][k] && !HoldsSeq(gs[..taken][k], current);
        assert gs[..taken][k] == gs[k] && k != i;
        if k < i {
          GroupsApart(gs, k, i, x, r);
        } else {
          GroupsApart(gs, i, k, r, x);
        }
      }
    }
  }

  /** After a summary is taken in, still everything behind the cursor is among the sources. */
  lemma CoverageGrows(usable: seq<Record>, current: nat, covered: nat, sources: set<nat>, taken: nat)
    requires AllUsable(usable) && Ordered(usable) && Valid(Msgs(usable)) && Covers(usable, current, covered, sources)
    requires HasCurrent(usable, current)
    requires taken <= |GroupsOf(Selection(usable, covered, sources))|
    requires Flatten(Older(GroupsOf(Selection(usable, covered, sources))[..taken], current)) != []
    ensures var earlier := Flatten(Older(GroupsOf(Selection(usable, covered, sources))[..taken], current));
            Covers(usable, current, NewCoverage(covered, current, earlier), SeqSet(earlier) + sources)
  {
    var selected := Selection(usable, covered, sources);
    SelectionIsGrouped(usable, current, covered, sources);
    WithoutAreRecords(usable, sources);
    var gs := GroupsOf(selected);
    var earlier := Flatten(Older(gs[..taken], current));
    forall r | r in usable && r.seqNo <= NewCoverage(covered, current, earlier)
      ensures r.seqNo in SeqSet(earlier) + sources {
      if r.seqNo !in sources {
        CutPoint(selected, current, taken, r);
        assert earlier[|earlier| - 1] in earlier;
      }
    }
    OlderOutsideCurrent(gs[..taken], current);
    forall x | x in earlier ensures x in usable {
      InOlder(gs[..taken], current, x);
      var k :| 0 <= k < taken && x in gs[..taken][k] && !HoldsSeq(gs[..taken][k], current);
      InFlatten(gs, x);
      assert gs[k] == gs[..taken][k];
    }
    ClosedUnion(usable, current, covered, sources, taken);
  }

  lemma OlderOutsideCurrent(gs: seq<seq<Record>>, current: nat)
    ensures current !in SeqSet(Flatten(Older(gs, current)))
  {
    forall x | x in Flatten(Older(gs, current)) ensures x.seqNo != current {
      InOlder(gs, current, x);
      var k :| 0 <= k < |gs| && x in gs[k] && !HoldsSeq(gs[k], current);
      var n :| 0 <= n < |gs[k]| && gs[k][n] == x;
    }
  }

  lemma {:induction false} KeptIndex(gs: seq<seq<Record>>, drop: set<nat>, i: nat)
    requires i < |gs| && gs[i] != [] && gs[i][0].seqNo !in drop
    ensures exists k :: 0 <= k < |KeepGroups(gs, drop)| && KeepGroups(gs, drop)[k] == gs[i]
  {
    if i > 0 {
      KeptIndex(gs[1..], drop, i - 1);
      var k :| 0 <= k < |KeepGroups(gs[1..], drop)| && KeepGroups(gs[1..], drop)[k] == gs[1..][i - 1];
      var kept := KeepGroups(gs, drop);
      if !(gs[0] != [] && gs[0][0].seqNo in drop) {
        assert kept[k + 1] == gs[i];
      }
    } else {
      assert KeepGroups(gs, drop)[0] == gs[i];
    }
  }

  lemma ClosedUnion(usable: seq<Record>, current: nat, covered: nat, sources: set<nat>, taken: nat)
    requires AllUsable(usable) && Ordered(usable) && Valid(Msgs(usable)) && Covers(usable, current, covered, sources)
    requires taken <= |GroupsOf(Selection(usable, covered, sources))|
    ensures var earlier := Flatten(Older(GroupsOf(Selection(usable, covered, sources))[..taken], current));
            Closed(GroupsOf(usable), SeqSet(earlier) + sources)
  {
    var selected := Selection(usable, covered, sources);
    SelectionIsGrouped(usable, current, covered, sources);
    ValidIsWellGrouped(usable);
    var all, gs := GroupsOf(usable), GroupsOf(selected);
    var earlier := SeqSet(Flatten(Older(gs[..taken], current)));
    forall i | 0 <= i < |all| ensures SeqSet(all[i]) <= earlier + sources || SeqSet(all[i]) !! earlier + sources {
      if SeqSet(all[i]) !! sources {
        assert all[i][0] in all[i] && all[i][0].seqNo in SeqSet(all[i]);
        KeptIndex(all, sources, i);
        var k :| 0 <= k < |gs| && gs[k] == all[i];
        OlderIsClosed(selected, current, taken, k);
      }
    }
  }

  /** The stream may grow after a build: the state still covers it. */
  lemma CoversLater(before: seq<Record>, more: seq<Record>, covered: nat, sources: set<nat>)
    requires AllUsable(before) && AllUsable(more) && Ordered(before + more)
    requires Valid(Msgs(before)) && Valid(Msgs(before + more))
    requires Summarised(before, covered, sources) && forall n :: n in more ==> covered < n.seqNo
    ensures Summarised(before + more, covered, sources)
  {
    forall r, n | r in before && n in more ensures r.seqNo < n.seqNo {
      var i :| 0 <= i < |before| && before[i] == r;
      var j :| 0 <= j < |more| && more[j] == n;
      assert (before + more)[i] == r && (before + more)[|before| + j] == n;
    }
    MoreGroups(before, more);
    var gs, all := GroupsOf(before), GroupsOf(before + more);
    forall i | 0 <= i < |all| ensures SeqSet(all[i]) <= sources || SeqSet(all[i]) !! sources {
      if i < |gs| {
        assert all[i] == gs[i];
      } else {
        var g := GroupsOf(more)[i - |gs|];
        assert all[i] == g;
        forall r | r in g ensures r.seqNo !in sources {
          InFlatten(GroupsOf(more), r);
        }
      }
    }
  }

  /** Settled history first, then the rest: the groups add up. */
  lemma MoreGroups(before: seq<Record>, more: seq<Record>)
    requires AllUsable(before) && AllUsable(more) && Valid(Msgs(before)) && Valid(Msgs(before + more))
    ensures Valid(Msgs(more)) && Flatten(GroupsOf(more)) == more
    ensures GroupsOf(before + more) == GroupsOf(before) + GroupsOf(more)
  {
    MsgsInTwo(before, more);
    ReadInTwo(START, Msgs(before), Msgs(more));
    var s := ReadAll(START, Msgs(before));
    ReadElsewhere({}, s.seen, {}, Msgs(more));
    ValidIsWellGrouped(before);
    ValidIsWellGrouped(more);
    GroupInTwo(NO_GROUPS, before, more);
    GroupExchanges([], GroupsOf(before));
    assert [] + GroupsOf(before) == GroupsOf(before);
    GroupExchanges(GroupsOf(before), GroupsOf(more));
  }

  // ---------------------------------------------------------------- trimming

  /** What is sent: fixed instructions and facts, the summary if there is one, the list of sources,
      and the selected messages. */
  function Assembled(config: Config, fixed: seq<Message>, summary: string, current: nat,
          selected: seq<Record>): seq<Message>
    requires AllUsable(selected)
  {
    fixed + (if summary != "" then [Human(summary)] else []) + [Human(config.listing(current, selected))]
      + Msgs(selected)
  }

  predicate Plain(ms: seq<Message>) {
    forall i :: 0 <= i < |ms| ==> ms[i].System? || ms[i].Human?
  }

  lemma {:induction false} PlainIsSkipped(ms: seq<Message>)
    requires Plain(ms)
    ensures ReadAll(START, ms) == START
  {
    if ms != [] {
      PlainIsSkipped(ms[1..]);
    }
  }

  lemma AssembledIsValid(config: Config, fixed: seq<Message>, summary: string, current: nat, selected: seq<Record>)
    requires AllUsable(selected) && Plain(fixed) && Valid(Msgs(selected))
    ensures Valid(Assembled(config, fixed, summary, current, selected))
  {
    var head := fixed + (if summary != "" then [Human(summary)] else []) + [Human(config.listing(current, selected))];
    PlainIsSkipped(head);
    ReadInTwo(START, head, Msgs(selected));
  }

  predicate CanGo(groups: seq<seq<Record>>, i: nat, current: nat) {
    i + 2 < |groups| && !HoldsSeq(groups[i], current)
  }

  /** The first group before the last two that does not hold the current input. */
  method FirstRemovable(groups: seq<seq<Record>>, current: nat) returns (i: Option<nat>)
    ensures i.Some? ==> CanGo(groups, i.value, current) && forall k :: 0 <= k < i.value ==> !CanGo(groups, k, current)
    ensures i.None? ==> forall k :: 0 <= k < |groups| ==> !CanGo(groups, k, current)
  {
    var k := 0;
    while k + 2 < |groups|
      invariant forall j :: 0 <= j < k ==> !CanGo(groups, j, current)
    {
      if !HoldsSeq(groups[k], current) {
        return Some(k);
      }
      k := k + 1;
    }
    i := None;
  }

  function Seqs(rs: seq<Record>): seq<nat> {
    seq(|rs|, i requires 0 <= i < |rs| => rs[i].seqNo)
  }

  /** What trimming leaves: a valid selection with the current input in it, and each record of the
      selection either kept or listed as omitted. */
  ghost predicate Trimmed(selected: seq<Record>, left: seq<Record>, omitted: seq<nat>, current: nat) {
    && AllUsable(left)
    && Ordered(left)
    && Valid(Msgs(left))
    && HasCurrent(left, current)
    && (forall r :: r in selected <==> r in left || (r in selected && r.seqNo in omitted))
    && (forall r :: r in left ==> r.seqNo !in omitted)
    && (forall q :: q in omitted ==> q in SeqSet(selected))
  }

  /** Removing one group from a valid selection leaves a valid selection. */
  lemma GroupGoesValid(left: seq<Record>, i: nat)
    requires AllUsable(left) && Ordered(left) && Valid(Msgs(left)) && i < |GroupsOf(left)|
    ensures var rest := Without(left, SeqSet(GroupsOf(left)[i]));
            AllUsable(rest) && Ordered(rest) && Valid(Msgs(rest))
  {
    ValidIsWellGrouped(left);
    var gs := GroupsOf(left);
    var drop := SeqSet(gs[i]);
    forall k | 0 <= k < |gs| ensures SeqSet(gs[k]) <= drop || SeqSet(gs[k]) !! drop {
      if k != i {
        forall a: Record, b: Record | a in gs[k] && b in gs[i] ensures a.seqNo != b.seqNo {
          if k < i {
            GroupsApart(gs, k, i, a, b);
          } else {
            GroupsApart(gs, i, k, b, a);
          }
        }
      }
    }
    WithoutFlatten(gs, drop);
    KeepIsWellGrouped(gs, drop);
    ExchangesRead(KeepGroups(gs, drop), {});
    WithoutAreRecords(left, drop);
  }

  lemma SeqsAreSeqSet(g: seq<Record>)
    ensures forall q :: q in Seqs(g) <==> q in SeqSet(g)
  {
    forall q | q in SeqSet(g) ensures q in Seqs(g) {
      var r :| r in g && r.seqNo == q;
      var n :| 0 <= n < |g| && g[n] == r;
      assert Seqs(g)[n] == q;
    }
  }

  /** Removing one group from a trimmed selection. */
  lemma GroupGoes(selected: seq<Record>, left: seq<Record>, omitted: seq<nat>, current: nat, i: nat)
    requires Trimmed(selected, left, omitted, current) && CanGo(GroupsOf(left), i, current)
    ensures var g := GroupsOf(left)[i];
            && Trimmed(selected, Without(left, SeqSet(g)), omitted + Seqs(g), current)
            && |Without(left, SeqSet(g))| < |left|
  {
    ValidIsWellGrouped(left);
    GroupGoesValid(left, i);
    var gs := GroupsOf(left);
    var g := gs[i];
    assert Exchange(g);
    forall r | r in g ensures r in left {
      InFlatten(gs, r);
    }
    assert g[0] in g && g[0].seqNo in SeqSet(g);
    SeqsAreSeqSet(g);
    WithoutAreRecords(left, SeqSet(g));
    WithoutIsShorter(left, SeqSet(g));
    HoldsSeqIs(g, current);
    hide Flatten, GroupsOf, WellGrouped, Exchange, AllUsable, Valid, Without, Ordered;
    assert HasCurrent(Without(left, SeqSet(g)), current);
    SeqSetGrows(selected, left, g);
  }

  lemma HoldsSeqIs(g: seq<Record>, q: nat)
    ensures HoldsSeq(g, q) <==> q in SeqSet(g)
  {
    if q in SeqSet(g) {
      var r :| r in g && r.seqNo == q;
      var n :| 0 <= n < |g| && g[n] == r;
    }
  }

  lemma SeqSetGrows(selected: seq<Record>, left: seq<Record>, g: seq<Record>)
    requires (forall r :: r in g ==> r in left) && (forall r :: r in left ==> r in selected)
    ensures SeqSet(g) <= SeqSet(selected)
  {
  }

  lemma {:induction false} WithoutIsShorter(rs: seq<Record>, drop: set<nat>)
    ensures |Without(rs, drop)| <= |rs|
    ensures (exists r :: r in rs && r.seqNo in drop) ==> |Without(rs, drop)| < |rs|
  {
    if rs != [] {
      WithoutIsShorter(rs[1..], drop);
      assert rs == [rs[0]] + rs[1..];
    }
  }

  /** The request with this selection is over a limit. */
  predicate Over(config: Config, fixed: seq<Message>, summary: string, current: nat, left: seq<Record>, limit: nat)
    requires AllUsable(left)
  {
    config.estimate(Assembled(config, fixed, summary, current, left)) > limit
  }

  /** Nothing but the current input and the last two groups is left. */
  predicate NothingCanGo(left: seq<Record>, current: nat) {
    forall k :: 0 <= k < |GroupsOf(left)| ==> !CanGo(GroupsOf(left), k, current)
  }

  /** `left` is what remains of `before`, which was still over the limit, without its oldest group
      that may go. */
  predicate OldestWent(config: Config, fixed: seq<Message>, summary: string, current: nat, before: seq<Record>,
                       left: seq<Record>, limit: nat, i: nat)
  {
    && AllUsable(before)
    && Over(config, fixed, summary, current, before, limit)
    && CanGo(GroupsOf(before), i, current)
    && (forall k :: 0 <= k < i ==> !CanGo(GroupsOf(before), k, current))
    && left == Without(before, SeqSet(GroupsOf(before)[i]))
  }

  ghost predicate OneWent(config: Config, fixed: seq<Message>, summary: string, current: nat, before: seq<Record>,
                          left: seq<Record>, limit: nat)
  {
    exists i: nat :: OldestWent(config, fixed, summary, current, before, left, limit, i)
  }

  /** Drop whole old exchanges until the request fits, the oldest first and none without need. The
      growth reserve is only a preference: when nothing more can go, the hard limit decides. */
  method Trim(config: Config, fixed: seq<Message>, summary: string, current: nat, selected: seq<Record>,
          inputLimit: nat)
    returns (r: Result<(seq<Record>, seq<nat>)>, ghost steps: seq<seq<Record>>)
    requires AllUsable(selected) && Ordered(selected) && Valid(Msgs(selected)) && HasCurrent(selected, current)
    requires inputLimit <= config.limit
    ensures r.Failure? ==> r == Failure(BudgetExhausted)
    ensures r.Success? ==>
              && Trimmed(selected, r.value.0, r.value.1, current)
              && config.estimate(Assembled(config, fixed, summary, current, r.value.0)) <= config.limit
    ensures |steps| > 0 && steps[0] == selected
    ensures forall k :: 0 <= k < |steps| - 1 ==>
              OneWent(config, fixed, summary, current, steps[k], steps[k + 1], inputLimit)
    ensures var last := steps[|steps| - 1];
            && AllUsable(last)
            && (r.Success? <==> !Over(config, fixed, summary, current, last, config.limit))
            && (r.Success? ==> r.value.0 == last)
            && (Over(config, fixed, summary, current, last, inputLimit) ==> NothingCanGo(last, current))
  {
    var left, omitted := selected, [];
    steps := [selected];
    while config.estimate(Assembled(config, fixed, summary, current, left)) > inputLimit
      invariant Trimmed(selected, left, omitted, current)
      invariant |steps| > 0 && steps[0] == selected && steps[|steps| - 1] == left
      invariant forall k :: 0 <= k < |steps| - 1 ==>
                  OneWent(config, fixed, summary, current, steps[k], steps[k + 1], inputLimit)
      decreases |left|
    {
      var groups := Groups(left);
      var i := FirstRemovable(groups, current);
      if i.None? {
        if config.estimate(Assembled(config, fixed, summary, current, left)) <= config.limit {
          break;
        }
        return Failure(BudgetExhausted), steps;
      }
      GroupGoes(selected, left, omitted, current, i.value);
      omitted := omitted + Seqs(groups[i.value]);
      ghost var before := left;
      left := Without(left, SeqSet(groups[i.value]));
      assert OldestWent(config, fixed, summary, current, before, left, inputLimit, i.value);
      steps := steps + [left];
    }
    r := Success((left, omitted));
  }
}
