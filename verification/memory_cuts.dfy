/** When the memory is still a last-writer-wins map although it is cut to its capacity: over any run
    of deltas, and for one cut. */
module MemoryCuts {
  import opened Memory

  // ---------------------------------------------------------------- one cut

  predicate NoLiveDropped(entries: seq<Entry>) {
    forall i :: 0 <= i < |entries| - CAPACITY ==> entries[i].status == REPLACED
  }

  lemma NewestAreHeld(entries: seq<Entry>, e: Entry)
    ensures Live(Newest(entries), e) ==> Live(entries, e)
    ensures Live(entries, e) && !Live(Newest(entries), e) ==>
              exists i :: 0 <= i < |entries| - CAPACITY && entries[i] == e
  {
  }

  /** A cut leaves the live entries as they are exactly if it drops none of them. */
  lemma CutKeepsLive(entries: seq<Entry>)
    requires Register(entries)
    ensures (forall e :: Live(Newest(entries), e) <==> Live(entries, e)) <==> NoLiveDropped(entries)
  {
    hide TopicOf, Time;
    if NoLiveDropped(entries) {
      forall e ensures Live(Newest(entries), e) <==> Live(entries, e) {
        NewestAreHeld(entries, e);
      }
    }
    if forall e :: Live(Newest(entries), e) <==> Live(entries, e) {
      forall i | 0 <= i < |entries| - CAPACITY ensures entries[i].status == REPLACED {
        assert entries[i].status != REPLACED ==> Live(entries, entries[i]) && Live(Newest(entries), entries[i]);
      }
    }
  }

  /** So one delta on an empty memory gives exactly the newest entries of its topics if and only if
      no live entry is dropped, however many entries there are. */
  lemma CutIsNewestUnlessLiveDropped(es: seq<Entry>)
    requires FreshEntries(es) && DistinctTimes(es)
    ensures (forall e :: Live(Newest(PutAll([], es)), e) <==> Wins(es, e)) <==> NoLiveDropped(PutAll([], es))
  {
    hide Live, Wins, Newest, NoLiveDropped, FreshEntries, DistinctTimes;
    PutAllKeepsRegister([], es);
    CutKeepsLive(PutAll([], es));
    forall e ensures Live(PutAll([], es), e) <==> Wins(es, e) {
      LiveIsNewest(es, e);
    }
  }

  /** Older evidence is taken after a cut exactly if every newer entry of its topic was dropped. */
  lemma TakenIffNewerDropped(entries: seq<Entry>, e: Entry)
    ensures !Outdated(Newest(entries), e) <==>
              forall i :: 0 <= i < |entries| && TopicOf(entries[i]) == TopicOf(e) && Time(entries[i]) > Time(e) ==>
                i < |entries| - CAPACITY
    ensures !Outdated(Newest(entries), e) && e.status != REPLACED ==> Live(Put(Newest(entries), e), e)
  {
    hide TopicOf, Time, Superseded;
    var cut := if |entries| > CAPACITY then |entries| - CAPACITY else 0;
    assert forall i :: cut <= i < |entries| ==> entries[i] == Newest(entries)[i - cut];
    if !Outdated(Newest(entries), e) {
      assert Put(Newest(entries), e)[|Put(Newest(entries), e)| - 1] == e;
    }
  }

  // ---------------------------------------------------------------- any run of deltas

  /** A run of the memory: each delta writes its entries and then cuts. */
  datatype Op = Write(entry: Entry) | Cut

  function Do(entries: seq<Entry>, op: Op): seq<Entry> {
    match op
    case Write(e) => Put(entries, e)
    case Cut => Newest(entries)
  }

  function Run(ops: seq<Op>): seq<Entry> {
    if ops == [] then [] else Do(Run(ops[..|ops| - 1]), ops[|ops| - 1])
  }

  /** All that was ever written. */
  function Written(ops: seq<Op>): seq<Entry> {
    if ops == [] then []
    else
      var last := ops[|ops| - 1];
      Written(ops[..|ops| - 1]) + if last.Write? then [last.entry] else []
  }

  /** Applying one accepted delta after another. */
  function Applied(deltas: seq<seq<Entry>>): seq<Entry> {
    if deltas == [] then [] else Newest(PutAll(Applied(deltas[..|deltas| - 1]), deltas[|deltas| - 1]))
  }

  function Writes(delta: seq<Entry>): seq<Op> {
    seq(|delta|, i requires 0 <= i < |delta| => Write(delta[i]))
  }

  function OpsOf(deltas: seq<seq<Entry>>): seq<Op> {
    if deltas == [] then [] else OpsOf(deltas[..|deltas| - 1]) + Writes(deltas[|deltas| - 1]) + [Cut]
  }

  lemma {:induction false} WritesArePutAll(ops: seq<Op>, delta: seq<Entry>)
    ensures Run(ops + Writes(delta)) == PutAll(Run(ops), delta)
    decreases |delta|
  {
    if delta == [] {
      assert ops + Writes(delta) == ops;
    } else {
      var front := delta[..|delta| - 1];
      WritesArePutAll(ops, front);
      OneMoreWrite(ops, front, delta[|delta| - 1]);
      assert front + [delta[|delta| - 1]] == delta;
    }
  }

  lemma OneMoreWrite(ops: seq<Op>, front: seq<Entry>, e: Entry)
    ensures Run(ops + Writes(front + [e])) == Put(Run(ops + Writes(front)), e)
  {
    hide Put;
    var all := ops + Writes(front + [e]);
    assert all[..|all| - 1] == ops + Writes(front);
  }

  lemma {:induction false} AppliedIsRun(deltas: seq<seq<Entry>>)
    ensures Run(OpsOf(deltas)) == Applied(deltas)
  {
    if deltas != [] {
      var front, last := deltas[..|deltas| - 1], deltas[|deltas| - 1];
      AppliedIsRun(front);
      WritesArePutAll(OpsOf(front), last);
      var ops := OpsOf(front) + Writes(last);
      assert OpsOf(deltas)[..|ops|] == ops;
    }
  }

  /** The cut at that place drops the live entry. */
  predicate Drops(ops: seq<Op>, k: nat, e: Entry)
    requires k < |ops|
  {
    ops[k].Cut? && Live(Run(ops[..k]), e) && !Live(Newest(Run(ops[..k])), e)
  }

  predicate NeverDropped(ops: seq<Op>, e: Entry) {
    forall k: nat :: k < |ops| ==> !Drops(ops, k, e)
  }

  lemma NeverDroppedMore(ops: seq<Op>, e: Entry)
    requires ops != []
    ensures var n := |ops| - 1; NeverDropped(ops, e) <==> NeverDropped(ops[..n], e) && !Drops(ops, n, e)
  {
    hide Live, Run, Newest;
    var n := |ops| - 1;
    assert forall k: nat :: k < n ==> ops[..n][..k] == ops[..k];
    assert forall k: nat :: k < n ==> (Drops(ops[..n], k, e) <==> Drops(ops, k, e));
  }

  /** What is held was written, by topic and time; what is live was written as it is. */
  ghost predicate HeldOk(ops: seq<Op>) {
    && Register(Run(ops))
    && FromPut(Run(ops), Written(ops))
    && (forall e :: Live(Run(ops), e) ==> e in Written(ops))
  }

  lemma {:induction false} RunHolds(ops: seq<Op>)
    ensures HeldOk(ops)
  {
    if ops != [] {
      var n := |ops| - 1;
      var front := ops[..n];
      RunHolds(front);
      match ops[n]
      case Write(e) =>
        WrittenHolds(front, e);
        assert Run(ops) == Put(Run(front), e) && Written(ops) == Written(front) + [e];
      case Cut =>
        CutHolds(front);
        assert Run(ops) == Newest(Run(front)) && Written(ops) == Written(front);
    }
  }

  lemma CutHolds(ops: seq<Op>)
    requires HeldOk(ops)
    ensures Register(Newest(Run(ops))) && FromPut(Newest(Run(ops)), Written(ops))
    ensures forall e :: Live(Newest(Run(ops)), e) ==> e in Written(ops)
  {
    hide TopicOf, Time, Run, Written;
    NewestFromPut(Run(ops), Written(ops));
  }

  lemma NewestFromPut(held: seq<Entry>, es: seq<Entry>)
    requires FromPut(held, es)
    ensures FromPut(Newest(held), es)
  {
    var cut := if |held| > CAPACITY then |held| - CAPACITY else 0;
    assert Newest(held) == held[cut..];
    assert forall i :: 0 <= i < |held[cut..]| ==> held[cut..][i] == held[cut + i];
  }

  lemma WrittenHolds(ops: seq<Op>, e: Entry)
    requires HeldOk(ops)
    ensures Register(Put(Run(ops), e)) && FromPut(Put(Run(ops), e), Written(ops) + [e])
    ensures forall x :: Live(Put(Run(ops), e), x) ==> x in Written(ops) + [e]
  {
    PutKeepsRegister(Run(ops), e);
    FromPutMore(Run(ops), Written(ops), e);
    forall x | Live(Put(Run(ops), e), x) ensures x in Written(ops) + [e] {
      PutLive(Run(ops), e, x);
    }
  }

  lemma PutLive(entries: seq<Entry>, e: Entry, x: Entry)
    ensures Live(Put(entries, e), x) <==>
              if Outdated(entries, e) then Live(entries, x)
              else (Live(entries, x) && TopicOf(x) != TopicOf(e)) || (x == e && e.status != REPLACED)
  {
    SupersededLive(entries, TopicOf(e), x);
    hide Superseded, TopicOf, Outdated;
  }

  lemma TimesDiffer(es: seq<Entry>, e: Entry)
    requires DistinctTimes(es + [e])
    ensures forall x :: x in es && TopicOf(x) == TopicOf(e) ==> Time(x) != Time(e)
    ensures DistinctTimes(es)
  {
    hide TopicOf, Time;
    forall x | x in es && TopicOf(x) == TopicOf(e) ensures Time(x) != Time(e) {
      var i :| 0 <= i < |es| && es[i] == x;
      assert (es + [e])[i] == x && (es + [e])[|es|] == e;
    }
    assert forall i :: 0 <= i < |es| ==> es[i] == (es + [e])[i];
  }

  lemma WinsAmong(es: seq<Entry>, e: Entry, w: Entry)
    ensures Wins(es + [e], w) <==>
              && (w == e || Wins(es, w))
              && (TopicOf(e) == TopicOf(w) ==> Time(e) <= Time(w))
              && (w == e ==> forall x :: x in es && TopicOf(x) == TopicOf(e) ==> Time(x) <= Time(e))
  {
    hide TopicOf, Time;
    var all := es + [e];
    assert forall i :: 0 <= i < |es| ==> all[i] == es[i];
    assert all[|es|] == e;
    assert forall x :: x in all <==> x in es || x == e;
    assert Wins(all, w) <==> w in all && forall x :: x in all && TopicOf(x) == TopicOf(w) ==> Time(x) <= Time(w);
  }

  /** The newest entry of a topic is live exactly while no cut has dropped it. */
  lemma {:induction false} WinnerIsLiveUnlessDropped(ops: seq<Op>, w: Entry)
    requires FreshEntries(Written(ops)) && DistinctTimes(Written(ops)) && Wins(Written(ops), w)
    ensures Live(Run(ops), w) <==> NeverDropped(ops, w)
    decreases |ops|
  {
    if ops != [] {
      var front, last := ops[..|ops| - 1], ops[|ops| - 1];
      LastOp(ops);
      NeverDroppedMore(ops, w);
      hide Run, Written, Live, Wins, FreshEntries, DistinctTimes, NeverDropped, Put, Newest;
      if last.Cut? {
        WinnerIsLiveUnlessDropped(front, w);
        NewestAreHeld(Run(front), w);
      } else {
        WinnerBefore(Written(front), last.entry, w);
        if w != last.entry {
          WinnerIsLiveUnlessDropped(front, w);
        }
        WinnerAfterWrite(front, last.entry, w);
      }
    }
  }

  lemma LastOp(ops: seq<Op>)
    requires ops != []
    ensures var front, last := ops[..|ops| - 1], ops[|ops| - 1];
            && Run(ops) == Do(Run(front), last)
            && Written(ops) == if last.Write? then Written(front) + [last.entry] else Written(front)
  {
  }

  lemma WinnerBefore(es: seq<Entry>, e: Entry, w: Entry)
    requires FreshEntries(es + [e]) && DistinctTimes(es + [e]) && Wins(es + [e], w)
    ensures FreshEntries(es) && DistinctTimes(es) && e.status != REPLACED
    ensures w != e ==> Wins(es, w) && (TopicOf(e) == TopicOf(w) ==> Time(e) < Time(w))
    ensures w == e ==> e !in es && forall x :: x in es && TopicOf(x) == TopicOf(e) ==> Time(x) <= Time(e)
  {
    FreshBefore(es, e);
    TimesDiffer(es, e);
    WinsAmong(es, e, w);
    hide TopicOf, Time, DistinctTimes, FreshEntries;
    assert w != e ==> w in es;
  }

  lemma WinnerAfterWrite(ops: seq<Op>, e: Entry, w: Entry)
    requires e.status != REPLACED
    requires w != e && TopicOf(e) == TopicOf(w) ==> Time(e) < Time(w)
    requires w != e ==> (Live(Run(ops), w) <==> NeverDropped(ops, w))
    requires w == e ==>
               e !in Written(ops) && forall x :: x in Written(ops) && TopicOf(x) == TopicOf(e) ==> Time(x) <= Time(e)
    ensures Live(Put(Run(ops), e), w) <==> NeverDropped(ops, w)
  {
    PutLive(Run(ops), e, w);
    RunHolds(ops);
    if w == e {
      NewestIsNotOutdated(ops, e);
      NotYetWritten(ops, e);
    } else {
      LiveWinnerOutdates(Run(ops), e, w);
    }
    hide TopicOf, Time, Run, Written, Put, Outdated, Live, HeldOk, NeverDropped;
  }

  lemma FreshBefore(es: seq<Entry>, e: Entry)
    requires FreshEntries(es + [e])
    ensures FreshEntries(es) && e.status != REPLACED
  {
    assert forall i :: 0 <= i < |es| ==> es[i] == (es + [e])[i];
    assert (es + [e])[|es|] == e;
  }

  lemma NewestIsNotOutdated(ops: seq<Op>, e: Entry)
    requires HeldOk(ops) && forall x :: x in Written(ops) && TopicOf(x) == TopicOf(e) ==> Time(x) <= Time(e)
    ensures !Outdated(Run(ops), e)
  {
    hide TopicOf, Time, Run, Written, Register;
    var held, es := Run(ops), Written(ops);
    forall i | 0 <= i < |held| && TopicOf(held[i]) == TopicOf(e) ensures Time(held[i]) <= Time(e) {
      var j :| 0 <= j < |es| && TopicOf(es[j]) == TopicOf(held[i]) && Time(es[j]) == Time(held[i]);
      assert es[j] in es;
    }
  }

  /** An entry that is not written yet was never live. */
  lemma NotYetWritten(ops: seq<Op>, e: Entry)
    requires e !in Written(ops)
    ensures NeverDropped(ops, e)
  {
    forall k: nat | k < |ops| ensures !Drops(ops, k, e) {
      RunHolds(ops[..k]);
      WrittenGrows(ops, k);
    }
  }

  lemma {:induction false} WrittenGrows(ops: seq<Op>, k: nat)
    requires k <= |ops|
    ensures forall e :: e in Written(ops[..k]) ==> e in Written(ops)
    decreases |ops|
  {
    if k < |ops| {
      var front := ops[..|ops| - 1];
      assert front[..k] == ops[..k];
      WrittenGrows(front, k);
    } else {
      assert ops[..k] == ops;
    }
  }

  lemma LiveWinnerOutdates(held: seq<Entry>, e: Entry, w: Entry)
    requires TopicOf(e) == TopicOf(w) ==> Time(e) < Time(w)
    ensures Live(held, w) && TopicOf(e) == TopicOf(w) ==> Outdated(held, e)
  {
  }

  lemma {:induction false} TopicHasWinner(es: seq<Entry>, e: Entry) returns (w: Entry)
    requires e in es
    ensures Wins(es, w) && TopicOf(w) == TopicOf(e)
  {
    var n := |es| - 1;
    var before, last := es[..n], es[n];
    assert es == before + [last];
    if TopicOf(last) == TopicOf(e) && (forall x :: x in before && TopicOf(x) == TopicOf(e) ==> Time(x) <= Time(last)) {
      w := last;
    } else {
      var x := e;
      if e !in before {
        x :| x in before && TopicOf(x) == TopicOf(e) && Time(x) > Time(last);
      }
      w := TopicHasWinner(before, x);
      if TopicOf(last) == TopicOf(e) {
        var y :| y in before && TopicOf(y) == TopicOf(e) && Time(y) > Time(last);
        var i :| 0 <= i < |before| && before[i] == y;
      }
    }
    WinsAmong(before, last, w);
  }

  /** Over any run of deltas the live entries are exactly the newest ever written of their topics, if
      and only if none of these was ever dropped by a cut. */
  lemma MapUnlessWinnerDropped(ops: seq<Op>)
    requires FreshEntries(Written(ops)) && DistinctTimes(Written(ops))
    ensures (forall e :: Live(Run(ops), e) <==> Wins(Written(ops), e))
       <==> (forall e :: Wins(Written(ops), e) ==> NeverDropped(ops, e))
  {
    hide NeverDropped, Run, Written;
    forall w | Wins(Written(ops), w) ensures Live(Run(ops), w) <==> NeverDropped(ops, w) {
      WinnerIsLiveUnlessDropped(ops, w);
    }
    RunHolds(ops);
    if forall e :: Wins(Written(ops), e) ==> NeverDropped(ops, e) {
      forall e | Live(Run(ops), e) ensures Wins(Written(ops), e) {
        var w := TopicHasWinner(Written(ops), e);
        OnlyWinnerIsLive(Run(ops), e, w);
      }
    }
  }

  lemma OnlyWinnerIsLive(entries: seq<Entry>, e: Entry, w: Entry)
    requires Register(entries) && Live(entries, e) && Live(entries, w) && TopicOf(e) == TopicOf(w)
    ensures e == w
  {
    var i :| 0 <= i < |entries| && entries[i] == e;
    var j :| 0 <= j < |entries| && entries[j] == w;
    hide TopicOf, Time;
  }

  /** The same for the memory as the program applies deltas. */
  lemma AppliedIsMapUnlessWinnerDropped(deltas: seq<seq<Entry>>)
    requires FreshEntries(Written(OpsOf(deltas))) && DistinctTimes(Written(OpsOf(deltas)))
    ensures (forall e :: Live(Applied(deltas), e) <==> Wins(Written(OpsOf(deltas)), e))
       <==> (forall e :: Wins(Written(OpsOf(deltas)), e) ==> NeverDropped(OpsOf(deltas), e))
  {
    AppliedIsRun(deltas);
    hide Live, Wins, NeverDropped, FreshEntries, DistinctTimes, OpsOf, Written, Run;
    MapUnlessWinnerDropped(OpsOf(deltas));
  }

  /** So deltas that were never made to forget give the same live memory in any order and any
      division. */
  lemma OrderDoesNotMatterUnlessDropped(ops: seq<Op>, ops': seq<Op>)
    requires FreshEntries(Written(ops)) && DistinctTimes(Written(ops))
    requires FreshEntries(Written(ops')) && DistinctTimes(Written(ops'))
    requires forall e :: e in Written(ops) <==> e in Written(ops')
    requires forall e :: Wins(Written(ops), e) ==> NeverDropped(ops, e) && NeverDropped(ops', e)
    ensures forall e :: Live(Run(ops), e) <==> Live(Run(ops'), e)
  {
    hide NeverDropped, Run, Written, Wins, Live, FreshEntries, DistinctTimes;
    forall e ensures Wins(Written(ops), e) <==> Wins(Written(ops'), e) {
      SameWinners(Written(ops), Written(ops'), e);
      SameWinners(Written(ops'), Written(ops), e);
    }
    MapUnlessWinnerDropped(ops);
    MapUnlessWinnerDropped(ops');
  }
}
