/** The negotiation memory of backend/app/agent/negotiation_memory.py: a list of entries that
    behaves as a last-writer-wins map, by the newest record that an entry cites. */
module Memory {
  import opened Outcomes
  import opened Protocol

  datatype EntryKind = BUYER_STATEMENT | OPEN_QUESTION | ATTEMPTED_OPTION | HYPOTHESIS | PLAN

  datatype EntryStatus = ACTIVE | RESOLVED | REPLACED

  datatype Entry = Entry(
    kind: EntryKind,
    field: string,
    value: string,
    sources: seq<nat>,
    status: EntryStatus,
    explicit: bool)

  /** What an entry is about. Open questions on one field stand beside each other. */
  datatype Topic = Topic(kind: EntryKind, field: string, question: Option<string>)

  function TopicOf(e: Entry): Topic {
    Topic(e.kind, e.field, if e.kind == OPEN_QUESTION then Some(e.value) else None)
  }

  function Latest(sources: seq<nat>): nat {
    if sources == [] then 0
    else
      var rest := Latest(sources[1..]);
      if sources[0] > rest then sources[0] else rest
  }

  function Time(e: Entry): nat {
    Latest(e.sources)
  }

  const CAPACITY := 32

  // ---------------------------------------------------------------- one entry

  predicate Outdated(entries: seq<Entry>, e: Entry) {
    exists i :: 0 <= i < |entries| && TopicOf(entries[i]) == TopicOf(e) && Time(entries[i]) > Time(e)
  }

  function Superseded(entries: seq<Entry>, topic: Topic): seq<Entry> {
    seq(|entries|, i requires 0 <= i < |entries| =>
      if TopicOf(entries[i]) == topic then entries[i].(status := REPLACED) else entries[i])
  }

  /** Older evidence changes nothing; newer or equal evidence takes the topic over. */
  function Put(entries: seq<Entry>, e: Entry): seq<Entry> {
    if Outdated(entries, e) then entries else Superseded(entries, TopicOf(e)) + [e]
  }

  function PutAll(entries: seq<Entry>, es: seq<Entry>): seq<Entry> {
    if es == [] then entries else Put(PutAll(entries, es[..|es| - 1]), es[|es| - 1])
  }

  function Newest(entries: seq<Entry>): seq<Entry> {
    if |entries| > CAPACITY then entries[|entries| - CAPACITY..] else entries
  }

  // ---------------------------------------------------------------- acceptance

  predicate OccursAt(text: string, part: string, i: nat) {
    i + |part| <= |text| && text[i..i + |part|] == part
  }

  predicate Contains(text: string, part: string) {
    exists i :: 0 <= i <= |text| && OccursAt(text, part, i)
  }

  function Evidence(value: string): string {
    if value == "pickup" then "自提" else if value == "shipping" then "快递" else value
  }

  function Joined(texts: seq<string>): string {
    if texts == [] then "" else if |texts| == 1 then texts[0] else texts[0] + "\n" + Joined(texts[1..])
  }

  predicate KnownSources(e: Entry, records: map<nat, Record>) {
    forall q :: q in e.sources ==> q in records
  }

  function Texts(sources: seq<nat>, records: map<nat, Record>): seq<string>
    requires forall q :: q in sources ==> q in records
  {
    seq(|sources|, i requires 0 <= i < |sources| => records[sources[i]].message.content)
  }

  /** `asks` says which records only ask a question. */
  predicate Acceptable(e: Entry, records: map<nat, Record>, asks: set<nat>) {
    && KnownSources(e, records)
    && (e.kind == BUYER_STATEMENT ==>
          && (forall q :: q in e.sources ==> records[q].kind == BUYER_INPUT)
          && Contains(Joined(Texts(e.sources, records)), Evidence(e.value))
          && !(forall q :: q in e.sources ==> q in asks))
    && (e.kind == ATTEMPTED_OPTION ==>
          forall q :: q in e.sources ==> records[q].kind in {TOOL_RESULT, RUNTIME_EVENT})
    && (e.kind == HYPOTHESIS ==> !e.explicit)
  }

  /** The value an entry quotes, which may be told in the buyer's words. */
  ghost predicate Quotes(text: string, value: string) {
    exists before, after :: text == before + value + after
  }

  lemma ContainsIsQuotes(text: string, part: string)
    ensures Contains(text, part) <==> Quotes(text, part)
  {
    if i :| 0 <= i <= |text| && OccursAt(text, part, i) {
      assert text == text[..i] + part + text[i + |part|..];
    }
    if Quotes(text, part) {
      var before, after :| text == before + part + after;
      assert OccursAt(text, part, |before|);
    }
  }

  /** Text without a line break does not reach over from one message to the next. */
  lemma {:induction false} JoinedContains(texts: seq<string>, part: string)
    requires '\n' !in part && texts != []
    ensures Contains(Joined(texts), part) <==> exists k :: 0 <= k < |texts| && Contains(texts[k], part)
  {
    if |texts| > 1 {
      var first, rest := texts[0], Joined(texts[1..]);
      var text := first + "\n" + rest;
      assert Joined(texts) == text && text[|first|] == '\n';
      JoinedContains(texts[1..], part);
      ContainsInTwo(first, rest, part);
      assert forall k :: 1 <= k < |texts| ==> texts[k] == texts[1..][k - 1];
    }
  }

  lemma OccursWithin(text: string, inner: string, n: nat, part: string, i: nat)
    requires n + |inner| <= |text| && text[n..n + |inner|] == inner && i + |part| <= |inner|
    ensures OccursAt(inner, part, i) <==> OccursAt(text, part, n + i)
  {
    var ours, theirs := inner[i..i + |part|], text[n + i..n + i + |part|];
    forall k | 0 <= k < |part| ensures ours[k] == theirs[k] {
      assert inner[i + k] == text[n..n + |inner|][i + k] == text[n + i + k];
    }
    assert ours == theirs;
  }

  lemma Covered(text: string, part: string, i: nat, at: nat)
    requires OccursAt(text, part, i) && i <= at < i + |part|
    ensures text[at] in part
  {
    assert text[i..i + |part|][at - i] == text[at];
  }

  lemma ContainsInTwo(first: string, rest: string, part: string)
    requires '\n' !in part
    ensures Contains(first + "\n" + rest, part) <==> Contains(first, part) || Contains(rest, part)
  {
    var text := first + "\n" + rest;
    var n := |first| + 1;
    if i :| 0 <= i <= |text| && OccursAt(text, part, i) {
      if i + |part| <= |first| {
        OccursWithin(text, first, 0, part, i);
      } else if i < n {
        Covered(text, part, i, |first|);
        assert false;
      } else {
        OccursWithin(text, rest, n, part, i - n);
      }
    }
    if i :| 0 <= i <= |first| && OccursAt(first, part, i) {
      OccursWithin(text, first, 0, part, i);
    }
    if i :| 0 <= i <= |rest| && OccursAt(rest, part, i) {
      OccursWithin(text, rest, n, part, i);
      assert OccursAt(text, part, n + i);
    }
  }

  /** What may be remembered, in full: a statement of the buyer is quoted from one of the buyer's own
      inputs that it cites, which are not all questions; what was tried cites what was carried out;
      and a guess is never explicit. Only a value with a line break in it may span inputs. */
  lemma AcceptableIffGrounded(e: Entry, records: map<nat, Record>, asks: set<nat>)
    requires '\n' !in e.value
    ensures Acceptable(e, records, asks) <==>
              && (forall q :: q in e.sources ==> q in records)
              && (e.kind == BUYER_STATEMENT ==>
                    var said := if e.value == "pickup" then "自提"
                                else if e.value == "shipping" then "快递" else e.value;
                    && (forall q :: q in e.sources ==> records[q].kind == BUYER_INPUT)
                    && (exists q :: q in e.sources && q !in asks)
                    && (exists q :: q in e.sources && Quotes(records[q].message.content, said)))
              && (e.kind == ATTEMPTED_OPTION ==>
                    forall q :: q in e.sources ==> records[q].kind == TOOL_RESULT || records[q].kind == RUNTIME_EVENT)
              && !(e.kind == HYPOTHESIS && e.explicit)
  {
    if KnownSources(e, records) && e.kind == BUYER_STATEMENT && e.sources != [] {
      QuotedFromOne(e.sources, records, Evidence(e.value));
    }
  }

  lemma QuotedFromOne(sources: seq<nat>, records: map<nat, Record>, said: string)
    requires '\n' !in said && sources != [] && forall q :: q in sources ==> q in records
    ensures Contains(Joined(Texts(sources, records)), said) <==>
              exists q :: q in sources && Quotes(records[q].message.content, said)
  {
    var texts := Texts(sources, records);
    JoinedContains(texts, said);
    forall q | q in sources
      ensures Contains(records[q].message.content, said) <==> Quotes(records[q].message.content, said)
    {
      ContainsIsQuotes(records[q].message.content, said);
    }
    assert forall k :: 0 <= k < |texts| ==> sources[k] in sources && texts[k] == records[sources[k]].message.content;
    forall q | q in sources && Contains(records[q].message.content, said)
      ensures exists k :: 0 <= k < |texts| && Contains(texts[k], said)
    {
      var k :| 0 <= k < |sources| && sources[k] == q;
      assert Contains(texts[k], said);
    }
  }

  /** When two entries are about the same thing. */
  lemma SameTopicIff(a: Entry, b: Entry)
    ensures TopicOf(a) == TopicOf(b) <==>
              a.kind == b.kind && a.field == b.field && (a.kind == OPEN_QUESTION ==> a.value == b.value)
  {
  }

  /** The time of an entry is that of the newest record it cites. */
  lemma {:induction false} TimeIsNewestSource(sources: seq<nat>)
    ensures forall q :: q in sources ==> q <= Latest(sources)
    ensures sources != [] ==> Latest(sources) in sources
  {
    if sources != [] {
      TimeIsNewestSource(sources[1..]);
      assert forall q :: q in sources <==> q == sources[0] || q in sources[1..];
    }
  }

  /** Mark every entry on the topic as replaced. */
  method Supersede(memory: seq<Entry>, topic: Topic) returns (entries: seq<Entry>)
    ensures entries == Superseded(memory, topic)
  {
    entries := memory;
    for i := 0 to |memory|
      invariant |entries| == |memory|
      invariant forall k :: 0 <= k < i ==> entries[k] == Superseded(memory, topic)[k]
      invariant forall k :: i <= k < |memory| ==> entries[k] == memory[k]
    {
      if TopicOf(entries[i]) == topic {
        entries := entries[i := entries[i].(status := REPLACED)];
      }
    }
  }

  /** Take a whole delta in, or reject it and keep the memory as it was. */
  method Apply(memory: seq<Entry>, delta: seq<Entry>, records: map<nat, Record>, asks: set<nat>)
    returns (r: Result<seq<Entry>>)
    ensures r.Success? <==> forall i :: 0 <= i < |delta| ==> Acceptable(delta[i], records, asks)
    ensures r.Failure? ==> r == Failure(Conflict)
    ensures r.Success? ==> r.value == Newest(PutAll(memory, delta))
    ensures r.Success? ==> |r.value| <= 32 && (|PutAll(memory, delta)| <= 32 ==> r.value == PutAll(memory, delta))
  {
    hide Acceptable, TopicOf, Time, Superseded;
    var entries := memory;
    for n := 0 to |delta|
      invariant forall i :: 0 <= i < n ==> Acceptable(delta[i], records, asks)
      invariant entries == PutAll(memory, delta[..n])
    {
      var e := delta[n];
      assert delta[..n + 1][..n] == delta[..n];
      if !Acceptable(e, records, asks) {
        return Failure(Conflict);
      }
      if !(exists i :: 0 <= i < |entries| && TopicOf(entries[i]) == TopicOf(e) && Time(entries[i]) > Time(e)) {
        entries := Supersede(entries, TopicOf(e));
        entries := entries + [e];
      }
    }
    assert delta[..|delta|] == delta;
    r := Success(Newest(entries));
  }

  // ---------------------------------------------------------------- a register per topic

  /** A topic's live entry is its last one and its newest one. */
  predicate Register(entries: seq<Entry>) {
    forall i, j :: 0 <= i < j < |entries| && TopicOf(entries[i]) == TopicOf(entries[j]) ==>
      entries[i].status == REPLACED && Time(entries[i]) <= Time(entries[j])
  }

  predicate Live(entries: seq<Entry>, e: Entry) {
    e in entries && e.status != REPLACED
  }

  predicate FreshEntries(es: seq<Entry>) {
    forall i :: 0 <= i < |es| ==> es[i].status != REPLACED
  }

  lemma PutKeepsRegister(entries: seq<Entry>, e: Entry)
    requires Register(entries)
    ensures Register(Put(entries, e))
  {
    var entries' := Put(entries, e);
    if !Outdated(entries, e) {
      forall i, j | 0 <= i < j < |entries'| && TopicOf(entries'[i]) == TopicOf(entries'[j])
        ensures entries'[i].status == REPLACED && Time(entries'[i]) <= Time(entries'[j])
      {
        assert TopicOf(entries[i]) == TopicOf(entries'[i]) && Time(entries[i]) == Time(entries'[i]);
        if j < |entries| {
          assert TopicOf(entries[j]) == TopicOf(entries'[j]) && Time(entries[j]) == Time(entries'[j]);
        }
      }
    }
  }

  lemma {:induction false} PutAllKeepsRegister(entries: seq<Entry>, es: seq<Entry>)
    requires Register(entries)
    ensures Register(PutAll(entries, es)) && Register(Newest(PutAll(entries, es)))
  {
    if es != [] {
      PutAllKeepsRegister(entries, es[..|es| - 1]);
      PutKeepsRegister(PutAll(entries, es[..|es| - 1]), es[|es| - 1]);
    }
  }

  /** At most one entry of a topic is live, and none of the topic that is held is newer. */
  lemma OneLiveEntry(entries: seq<Entry>, i: nat, j: nat)
    requires Register(entries) && i < |entries| && j < |entries|
    requires TopicOf(entries[i]) == TopicOf(entries[j]) && entries[i].status != REPLACED
    ensures Time(entries[j]) <= Time(entries[i])
    ensures entries[j].status != REPLACED ==> i == j
  {
  }

  // ---------------------------------------------------------------- order does not matter

  /** Entries on one topic never cite equally new evidence. */
  predicate DistinctTimes(es: seq<Entry>) {
    forall i, j :: 0 <= i < j < |es| && TopicOf(es[i]) == TopicOf(es[j]) ==> Time(es[i]) != Time(es[j])
  }

  /** The newest entry of its topic among `es`. */
  predicate Wins(es: seq<Entry>, e: Entry) {
    e in es && forall i :: 0 <= i < |es| && TopicOf(es[i]) == TopicOf(e) ==> Time(es[i]) <= Time(e)
  }

  /** Everything held came from an entry that was put in, by topic and time. */
  predicate FromPut(entries: seq<Entry>, es: seq<Entry>) {
    forall i :: 0 <= i < |entries| ==> SameTime(es, entries[i])
  }

  /** Some entry is on the same topic and cites equally new evidence. */
  predicate SameTime(es: seq<Entry>, e: Entry) {
    exists j :: 0 <= j < |es| && TopicOf(es[j]) == TopicOf(e) && Time(es[j]) == Time(e)
  }

  /** The memory is the last-writer-wins map of what was put in: live are exactly the newest. */
  lemma {:induction false} LiveIsNewest(es: seq<Entry>, e: Entry)
    requires FreshEntries(es) && DistinctTimes(es)
    ensures Live(PutAll([], es), e) <==> Wins(es, e)
    ensures FromPut(PutAll([], es), es)
    decreases |es|, 1
  {
    if es != [] {
      var n := |es| - 1;
      var before, last := es[..n], es[n];
      var held := PutAll([], before);
      assert es == before + [last];
      LiveIsNewest(before, e);
      FromPutMore(held, before, last);
      if Outdated(held, last) {
        OutdatedLoses(es, held);
      } else {
        NewestWins(es, held, e);
      }
    }
  }

  lemma FromPutMore(held: seq<Entry>, before: seq<Entry>, last: Entry)
    requires FromPut(held, before)
    ensures FromPut(held, before + [last]) && FromPut(Put(held, last), before + [last])
  {
    var es := before + [last];
    forall i | 0 <= i < |held| ensures SameTime(es, held[i]) {
      var j :| 0 <= j < |before| && TopicOf(before[j]) == TopicOf(held[i]) && Time(before[j]) == Time(held[i]);
      assert es[j] == before[j];
    }
    if !Outdated(held, last) {
      forall i | 0 <= i < |Put(held, last)| ensures SameTime(es, Put(held, last)[i]) {
        if i == |held| {
          assert es[|before|] == last;
        } else {
          assert SameTime(es, held[i]);
          assert TopicOf(Put(held, last)[i]) == TopicOf(held[i]) && Time(Put(held, last)[i]) == Time(held[i]);
        }
      }
    }
  }

  /** An entry that an earlier one of its topic outdates is not the newest, nor does it keep another
      from being so. */
  lemma LosersDoNotMatter(before: seq<Entry>, last: Entry, j: nat, e: Entry)
    requires j < |before| && TopicOf(before[j]) == TopicOf(last) && Time(before[j]) > Time(last)
    ensures Wins(before + [last], e) <==> Wins(before, e)
  {
    hide TopicOf, Time;
    var es := before + [last];
    if Wins(before, e) {
      forall k | 0 <= k < |es| && TopicOf(es[k]) == TopicOf(e) ensures Time(es[k]) <= Time(e) {
        assert k < |before| ==> before[k] == es[k];
      }
    }
    if Wins(es, e) {
      assert es[j] == before[j];
      forall k | 0 <= k < |before| && TopicOf(before[k]) == TopicOf(e) ensures Time(before[k]) <= Time(e) {
        assert es[k] == before[k];
      }
    }
  }

  lemma OutdatedLoses(es: seq<Entry>, held: seq<Entry>)
    requires es != [] && held == PutAll([], es[..|es| - 1]) && FromPut(held, es[..|es| - 1])
    requires Outdated(held, es[|es| - 1])
    ensures forall e :: Wins(es, e) <==> Wins(es[..|es| - 1], e)
  {
    var n := |es| - 1;
    var before, last := es[..n], es[n];
    var i :| 0 <= i < |held| && TopicOf(held[i]) == TopicOf(last) && Time(held[i]) > Time(last);
    var j :| 0 <= j < n && TopicOf(before[j]) == TopicOf(held[i]) && Time(before[j]) == Time(held[i]);
    assert es == before + [last];
    hide TopicOf, Time, Wins;
    forall e ensures Wins(es, e) <==> Wins(before, e) {
      LosersDoNotMatter(before, last, j, e);
    }
  }

  /** Held times: if any earlier entry of the topic were newer, the topic's live entry would be. */
  lemma {:induction false} NotOutdatedIsNewest(es: seq<Entry>, last: Entry)
    requires FreshEntries(es) && DistinctTimes(es) && !Outdated(PutAll([], es), last)
    ensures forall i :: 0 <= i < |es| && TopicOf(es[i]) == TopicOf(last) ==> Time(es[i]) <= Time(last)
    decreases |es|, 2
  {
    forall i | 0 <= i < |es| && TopicOf(es[i]) == TopicOf(last) ensures Time(es[i]) <= Time(last) {
      HeldIsNewest(es, i);
      var held := PutAll([], es);
      var k :| 0 <= k < |held| && TopicOf(held[k]) == TopicOf(es[i]) && Time(es[i]) <= Time(held[k]);
    }
  }

  /** Nothing newer is ever forgotten while nothing is dropped. */
  lemma {:induction false} HeldIsNewest(es: seq<Entry>, i: nat)
    requires i < |es|
    ensures exists k :: 0 <= k < |PutAll([], es)| && TopicOf(PutAll([], es)[k]) == TopicOf(es[i])
                        && Time(es[i]) <= Time(PutAll([], es)[k])
  {
    var n := |es| - 1;
    var held, last := PutAll([], es[..n]), es[n];
    if i == n {
      if Outdated(held, last) {
        var k :| 0 <= k < |held| && TopicOf(held[k]) == TopicOf(last) && Time(held[k]) > Time(last);
        assert PutAll([], es)[k] == held[k];
      } else {
        assert PutAll([], es)[|held|] == last;
      }
    } else {
      HeldIsNewest(es[..n], i);
      var k :| 0 <= k < |held| && TopicOf(held[k]) == TopicOf(es[..n][i]) && Time(es[..n][i]) <= Time(held[k]);
      assert TopicOf(PutAll([], es)[k]) == TopicOf(held[k]) && Time(PutAll([], es)[k]) == Time(held[k]);
    }
  }

  lemma {:induction false} NewestWins(es: seq<Entry>, held: seq<Entry>, e: Entry)
    requires es != [] && FreshEntries(es) && DistinctTimes(es) && held == PutAll([], es[..|es| - 1])
    requires !Outdated(held, es[|es| - 1])
    requires Live(held, e) <==> Wins(es[..|es| - 1], e)
    ensures Live(Put(held, es[|es| - 1]), e) <==> Wins(es, e)
    decreases |es|, 0
  {
    var n := |es| - 1;
    var before, last := es[..n], es[n];
    assert es == before + [last];
    NotOutdatedIsNewest(before, last);
    SupersededLive(held, TopicOf(last), e);
    assert forall k :: 0 <= k < n ==> before[k] == es[k];
    if e in before {
      var k :| 0 <= k < n && before[k] == e;
      assert es[k] == e;
    }
    if Wins(es, e) && e != last {
      assert e in before;
      assert Wins(before, e);
      assert TopicOf(e) != TopicOf(last);
    }
    if Wins(before, e) && TopicOf(e) != TopicOf(last) {
      assert Wins(es, e);
    }
  }

  lemma SupersededLive(entries: seq<Entry>, topic: Topic, e: Entry)
    ensures Live(Superseded(entries, topic), e) <==> Live(entries, e) && TopicOf(e) != topic
  {
    var entries' := Superseded(entries, topic);
    if Live(entries', e) {
      var i :| 0 <= i < |entries'| && entries'[i] == e;
      assert entries[i] == e;
    }
    if Live(entries, e) && TopicOf(e) != topic {
      var i :| 0 <= i < |entries| && entries[i] == e;
      assert entries'[i] == e;
    }
  }

  /** While all entries fit, deltas with distinct evidence give the same live memory in any order. */
  lemma OrderDoesNotMatter(es: seq<Entry>, es': seq<Entry>)
    requires FreshEntries(es) && DistinctTimes(es) && FreshEntries(es') && DistinctTimes(es')
    requires forall e :: e in es <==> e in es'
    requires |PutAll([], es)| <= CAPACITY && |PutAll([], es')| <= CAPACITY
    ensures forall e :: Live(Newest(PutAll([], es)), e) <==> Live(Newest(PutAll([], es')), e)
  {
    forall e ensures Live(Newest(PutAll([], es)), e) <==> Live(Newest(PutAll([], es')), e) {
      LiveIsNewest(es, e);
      LiveIsNewest(es', e);
      SameWinners(es, es', e);
      SameWinners(es', es, e);
    }
  }

  lemma SameWinners(es: seq<Entry>, es': seq<Entry>, e: Entry)
    requires forall x :: x in es <==> x in es'
    ensures Wins(es, e) ==> Wins(es', e)
  {
    if Wins(es, e) {
      forall i | 0 <= i < |es'| && TopicOf(es'[i]) == TopicOf(e) ensures Time(es'[i]) <= Time(e) {
        assert es'[i] in es;
        var k :| 0 <= k < |es| && es[k] == es'[i];
      }
    }
  }

  // ---------------------------------------------------------------- what capacity costs

  predicate Apart(entries: seq<Entry>, es: seq<Entry>) {
    && (forall i, j :: 0 <= i < j < |es| ==> TopicOf(es[i]) != TopicOf(es[j]))
    && (forall i, j :: 0 <= i < |entries| && 0 <= j < |es| ==> TopicOf(entries[i]) != TopicOf(es[j]))
  }

  /** Entries on topics of their own are simply appended. */
  lemma {:induction false} NewTopicsAppend(entries: seq<Entry>, es: seq<Entry>)
    requires Apart(entries, es)
    ensures PutAll(entries, es) == entries + es
  {
    if es == [] {
      assert entries + es == entries;
    } else {
      var n := |es| - 1;
      var before := es[..n];
      NewTopicsAppend(entries, before);
      var held := entries + before;
      assert es == before + [es[n]];
      forall i | 0 <= i < |held| ensures TopicOf(held[i]) != TopicOf(es[n]) {
        if i >= |entries| {
          assert held[i] == es[i - |entries|];
        }
      }
      assert Superseded(held, TopicOf(es[n])) == held;
      assert held + [es[n]] == entries + es;
    }
  }

  function Filler(kind: EntryKind, i: nat): Entry {
    Entry(kind, seq(i + 1, _ => 'f'), "v", [0], ACTIVE, false)
  }

  function Fillers(kind: EntryKind): seq<Entry> {
    seq(CAPACITY, i requires 0 <= i < CAPACITY => Filler(kind, i))
  }

  lemma FillersPushOut(newer: Entry, kind: EntryKind)
    requires newer.kind != kind && kind != OPEN_QUESTION
    ensures Newest(PutAll([], [newer] + Fillers(kind))) == Fillers(kind)
  {
    var all := [newer] + Fillers(kind);
    forall i, j | 0 <= i < j < |all| ensures TopicOf(all[i]) != TopicOf(all[j]) {
      if i > 0 {
        assert |all[i].field| == i && |all[j].field| == j;
      }
    }
    NewTopicsAppend([], all);
    assert [] + all == all;
    assert all[1..] == Fillers(kind);
  }

  lemma OthersDoNotOutdate(memory: seq<Entry>, e: Entry)
    requires |memory| == CAPACITY && forall i :: 0 <= i < |memory| ==> TopicOf(memory[i]) != TopicOf(e)
    ensures Newest(Put(memory, e)) == memory[1..] + [e]
  {
    assert Superseded(memory, TopicOf(e)) == memory;
    assert (memory + [e])[1..] == memory[1..] + [e];
  }

  /** Beyond the capacity the order does matter: once 32 entries on other topics pushed an entry
      out, older evidence on its topic is live again. */
  lemma ForgottenEvidenceReturns(newer: Entry, older: Entry)
    requires TopicOf(newer) == TopicOf(older) && Time(older) < Time(newer)
    requires newer.status != REPLACED && older.status != REPLACED
    ensures exists fillers ::
              && |fillers| == CAPACITY
              && var memory := Newest(PutAll([], [newer] + fillers));
                 Live(Newest(Put(memory, older)), older) && !Live(Newest(Put(memory, older)), newer)
  {
    var kind := if newer.kind == PLAN then HYPOTHESIS else PLAN;
    var fillers := Fillers(kind);
    FillersPushOut(newer, kind);
    OthersDoNotOutdate(fillers, older);
    hide PutAll, Put, Newest, Outdated, Latest;
    var memory := Newest(PutAll([], [newer] + fillers));
    var after := Newest(Put(memory, older));
    assert after[CAPACITY - 1] == older;
    assert newer !in after;
  }
}
