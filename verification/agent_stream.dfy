/** What appending to the record stream does to the protocol: the stream always reads as a list in
    which exactly the calls still pending are unanswered. */
module AgentStream {
  import opened Outcomes
  import opened Protocol
  import opened AgentContext

  predicate Numbered(stream: seq<Record>) {
    forall i :: 0 <= i < |stream| ==> stream[i].seqNo == i + 1
  }

  /** Only tool results are stored as tool messages. */
  predicate ResultsMarked(stream: seq<Record>) {
    forall i :: 0 <= i < |stream| && RecordMessage(stream[i]).Some? && RecordMessage(stream[i]).value.Tool?
      ==> stream[i].kind == TOOL_RESULT
  }

  /** The calls that the stream leaves unanswered are `pending`, in the order they will run. */
  predicate StreamOk(stream: seq<Record>, pending: seq<Call>) {
    && Numbered(stream)
    && ResultsMarked(stream)
    && FreshCalls(pending, {})
    && var s := ReadAll(START, Msgs(Usable(stream)));
       s.Scan? && s.pending == CallIds(pending)
  }

  /** The ids that tool results of the stream answer. */
  function Answered(stream: seq<Record>): set<string> {
    set r | r in stream && r.kind == TOOL_RESULT && r.message.Tool? :: r.message.callId
  }

  function ToolIds(ms: seq<Message>): set<string> {
    set m | m in ms && m.Tool? :: m.callId
  }

  lemma {:induction false} SeenIsAnswered(pending: set<string>, seen: set<string>, ms: seq<Message>)
    requires ReadAll(Scan(pending, seen), ms).Scan?
    ensures var s := ReadAll(Scan(pending, seen), ms);
            && pending <= s.pending + ToolIds(ms)
            && s.seen <= seen + s.pending + ToolIds(ms)
    decreases |ms|
  {
    if ms != [] {
      assert ms == [ms[0]] + ms[1..];
      BrokenStays(ms[1..]);
      var next := Read(Scan(pending, seen), ms[0]);
      SeenIsAnswered(next.pending, next.seen, ms[1..]);
      assert ToolIds(ms[1..]) <= ToolIds(ms);
      if ms[0].Tool? {
        assert ms[0] in ms && ms[0].callId in ToolIds(ms);
        assert pending == next.pending + {ms[0].callId};
      }
    }
  }

  lemma NumberedIsOrdered(stream: seq<Record>)
    requires Numbered(stream)
    ensures Ordered(stream) && Ordered(Usable(stream))
  {
    UsableAreRecords(stream);
  }

  /** Every id seen in a settled stream was answered by one of its tool results. */
  lemma SeenInStream(stream: seq<Record>)
    requires StreamOk(stream, [])
    ensures ReadAll(START, Msgs(Usable(stream))).seen <= Answered(stream)
  {
    var usable := Usable(stream);
    SeenIsAnswered({}, {}, Msgs(usable));
    UsableAreRecords(stream);
    forall id | id in ToolIds(Msgs(usable)) ensures id in Answered(stream) {
      var m :| m in Msgs(usable) && m.Tool? && m.callId == id;
      var i :| 0 <= i < |usable| && Msgs(usable)[i] == m;
      var n :| 0 <= n < |stream| && stream[n] == usable[i];
      assert usable[i].kind == TOOL_RESULT;
    }
  }

  lemma AppendOne(stream: seq<Record>, r: Record)
    requires RecordMessage(r).Some? && ReadAll(START, Msgs(Usable(stream))).Scan?
    ensures Usable(stream + [r]) == Usable(stream) + [r]
    ensures ReadAll(START, Msgs(Usable(stream + [r]))) ==
            Read(ReadAll(START, Msgs(Usable(stream))), RecordMessage(r).value)
  {
    UsableInTwo(stream, [r]);
    assert Usable([r]) == [r];
    MsgsInTwo(Usable(stream), [r]);
    assert Msgs([r]) == [RecordMessage(r).value];
    ReadInTwo(START, Msgs(Usable(stream)), Msgs([r]));
    ReadOne(ReadAll(START, Msgs(Usable(stream))), RecordMessage(r).value);
  }

  predicate NextRecord(stream: seq<Record>, r: Record) {
    r.seqNo == |stream| + 1
  }

  /** Nothing pending: a message without calls, or an event, may follow. */
  lemma AppendPlain(stream: seq<Record>, r: Record)
    requires StreamOk(stream, []) && NextRecord(stream, r)
    requires RecordMessage(r).Some? ==>
               var m := RecordMessage(r).value; m.Human? || m.System? || (m.AI? && m.calls == [])
    ensures StreamOk(stream + [r], [])
  {
    if RecordMessage(r).Some? {
      AppendOne(stream, r);
    } else {
      UsableInTwo(stream, [r]);
      assert Usable([r]) == [];
      assert Usable(stream) + [] == Usable(stream);
    }
  }

  /** Nothing pending: fresh calls may be made. */
  lemma AppendCalls(stream: seq<Record>, r: Record, calls: seq<Call>)
    requires StreamOk(stream, []) && NextRecord(stream, r) && r.kind == TOOL_CALL
    requires r.message.AI? && r.message.calls == calls
    requires FreshCalls(calls, {}) && CallIds(calls) !! Answered(stream)
    ensures StreamOk(stream + [r], calls)
  {
    SeenInStream(stream);
    AppendOne(stream, r);
    FreshElsewhere(calls, {}, ReadAll(START, Msgs(Usable(stream))).seen);
  }

  /** The first pending call is answered. */
  lemma AppendResult(stream: seq<Record>, r: Record, pending: seq<Call>)
    requires pending != [] && StreamOk(stream, pending) && NextRecord(stream, r)
    requires r.kind == TOOL_RESULT && r.message.Tool? && r.message.callId == pending[0].id
    ensures StreamOk(stream + [r], pending[1..])
  {
    AppendOne(stream, r);
    CallIdsAre(pending, pending[0].id);
    assert CallIds(pending) - {pending[0].id} == CallIds(pending[1..]) by {
      forall id | id in CallIds(pending) - {pending[0].id} ensures id in CallIds(pending[1..]) {
        CallIdsAre(pending, id);
        var i :| 0 <= i < |pending| && pending[i].id == id;
        assert pending[1..][i - 1] == pending[i];
      }
      forall id | id in CallIds(pending[1..]) ensures id in CallIds(pending) && id != pending[0].id {
        CallIdsAre(pending[1..], id);
        var i :| 0 <= i < |pending[1..]| && pending[1..][i].id == id;
        assert pending[i + 1].id == id;
        CallIdsAre(pending, id);
      }
    }
  }
}
