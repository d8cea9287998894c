/** The batch budget shared by concurrent episodes: DynamicCallTracker of
    backend/evaluation/dynamic_runner.py. Its two critical sections are the steps; threads
    interleave them in any order. Money is in whole price units per token. */
module Tracker {
  import opened Outcomes

  datatype Prices = Prices(input: nat, cached: nat, output: nat)

  datatype Caps = Caps(maxCalls: nat, maxTokens: nat, maxCost: nat, prices: Prices)

  /** The provider's total may be left out, or be there without a number. */
  datatype TotalTokens = Missing | NotANumber | Count(n: nat)

  datatype Usage = Usage(input: int, output: int, cached: int, total: TotalTokens)

  datatype CallState = STARTED | SUCCEEDED | UNKNOWN

  datatype CallRecord = CallRecord(
    state: CallState,
    initialTokens: nat,
    initialCost: nat,
    reservedTokens: nat,
    reservedCost: nat,
    usage: Option<Usage>)

  datatype Ledger = Ledger(reservedTokens: int, reservedCost: int, calls: seq<CallRecord>)

  const EMPTY_LEDGER := Ledger(0, 0, [])

  datatype Step =
    | Admit(count: nat, output: nat, late: bool)
    | Return(call: nat, usage: Option<Usage>)
    | Raise(call: nat)

  function Max(a: int, b: int): int { if a < b then b else a }

  function ActualCost(u: Usage, p: Prices): int {
    (u.input - u.cached) * p.input + u.cached * p.cached + u.output * p.output
  }

  function TotalOf(t: TotalTokens): int {
    if t.Count? then t.n else 0
  }

  predicate Admissible(l: Ledger, caps: Caps, tokens: nat, cost: nat) {
    && |l.calls| < caps.maxCalls
    && l.reservedTokens + tokens <= caps.maxTokens
    && l.reservedCost + cost <= caps.maxCost
  }

  /** A call comes back with a usage report. The cost is raised first; a total without a number
      then raises, before the record is brought up to date. */
  function Settled(l: Ledger, caps: Caps, call: nat, u: Usage): Ledger
    requires call < |l.calls|
  {
    var c := l.calls[call];
    var actual := ActualCost(u, caps.prices);
    var cost := l.reservedCost + Max(0, actual - c.initialCost);
    if u.total.NotANumber? then
      l.(reservedCost := cost, calls := l.calls[call := c.(state := UNKNOWN, usage := Some(u))])
    else
      Ledger(l.reservedTokens + Max(0, TotalOf(u.total) - c.initialTokens), cost,
             l.calls[call := c.(state := SUCCEEDED, usage := Some(u),
                                reservedTokens := Max(TotalOf(u.total), c.initialTokens),
                                reservedCost := Max(actual, c.initialCost))])
  }

  function Next(l: Ledger, caps: Caps, step: Step): Ledger {
    match step
    case Admit(count, output, late) =>
      var tokens := count + output;
      var cost := count * caps.prices.input + output * caps.prices.output;
      if late || !Admissible(l, caps, tokens, cost) then l
      else Ledger(l.reservedTokens + tokens, l.reservedCost + cost,
                  l.calls + [CallRecord(STARTED, tokens, cost, tokens, cost, None)])
    case Return(call, usage) =>
      if call >= |l.calls| || !l.calls[call].state.STARTED? then l
      else if usage.None? then l.(calls := l.calls[call := l.calls[call].(state := SUCCEEDED)])
      else Settled(l, caps, call, usage.value)
    case Raise(call) =>
      if call >= |l.calls| || !l.calls[call].state.STARTED? then l
      else l.(calls := l.calls[call := l.calls[call].(state := UNKNOWN)])
  }

  function Exec(l: Ledger, caps: Caps, steps: seq<Step>): Ledger
    decreases |steps|
  {
    if steps == [] then l else Exec(Next(l, caps, steps[0]), caps, steps[1..])
  }

  // ---------------------------------------------------------------- sums over the records

  function Sum(calls: seq<CallRecord>, f: CallRecord -> int): int {
    if calls == [] then 0 else Sum(calls[..|calls| - 1], f) + f(calls[|calls| - 1])
  }

  lemma SumMore(calls: seq<CallRecord>, f: CallRecord -> int, c: CallRecord)
    ensures Sum(calls + [c], f) == Sum(calls, f) + f(c)
  {
    assert (calls + [c])[..|calls|] == calls;
  }

  lemma {:induction false} SumUpdate(calls: seq<CallRecord>, f: CallRecord -> int, i: nat, c: CallRecord)
    requires i < |calls|
    ensures Sum(calls[i := c], f) == Sum(calls, f) - f(calls[i]) + f(c)
  {
    var n := |calls| - 1;
    if i == n {
      assert calls[i := c][..n] == calls[..n];
    } else {
      assert calls[i := c][..n] == calls[..n][i := c];
      SumUpdate(calls[..n], f, i, c);
    }
  }

  function Tokens(c: CallRecord): int { c.reservedTokens }

  function Cost(c: CallRecord): int { c.reservedCost }

  function TokensOver(c: CallRecord): int { c.reservedTokens - c.initialTokens }

  function CostOver(p: Prices): CallRecord -> int {
    (c: CallRecord) => if c.usage.Some? then Max(0, ActualCost(c.usage.value, p) - c.initialCost) else 0
  }

  /** What a report without a usable total added to the cost but not to its record. */
  function Leaked(p: Prices): CallRecord -> int {
    (c: CallRecord) => if c.usage.Some? && c.usage.value.total.NotANumber? then CostOver(p)(c) else 0
  }

  // ---------------------------------------------------------------- the invariant

  predicate RecordOk(c: CallRecord, p: Prices) {
    && c.reservedTokens >= c.initialTokens
    && c.reservedCost >= c.initialCost
    && (c.state.STARTED? ==> c.usage.None? && c.reservedTokens == c.initialTokens && c.reservedCost == c.initialCost)
    && (c.usage.Some? && !c.usage.value.total.NotANumber? ==>
          && c.reservedCost == Max(ActualCost(c.usage.value, p), c.initialCost)
          && c.reservedTokens == Max(TotalOf(c.usage.value.total), c.initialTokens))
    && (c.usage.None? || c.usage.value.total.NotANumber? ==>
          c.reservedCost == c.initialCost && c.reservedTokens == c.initialTokens)
  }

  ghost predicate Inv(l: Ledger, caps: Caps) {
    && (forall i :: 0 <= i < |l.calls| ==> RecordOk(l.calls[i], caps.prices))
    && l.reservedTokens == Sum(l.calls, Tokens)
    && l.reservedCost == Sum(l.calls, Cost) + Sum(l.calls, Leaked(caps.prices))
    && |l.calls| <= caps.maxCalls
    && l.reservedTokens <= caps.maxTokens + Sum(l.calls, TokensOver)
    && l.reservedCost <= caps.maxCost + Sum(l.calls, CostOver(caps.prices))
  }

  lemma ChangeKeeps(l: Ledger, l': Ledger, caps: Caps, i: nat, c: CallRecord)
    requires Inv(l, caps) && i < |l.calls| && RecordOk(c, caps.prices)
    requires l'.calls == l.calls[i := c]
    requires l'.reservedTokens - l.reservedTokens == c.reservedTokens - l.calls[i].reservedTokens
                                                  == TokensOver(c) - TokensOver(l.calls[i])
    requires l'.reservedCost - l.reservedCost
             == Cost(c) - Cost(l.calls[i]) + Leaked(caps.prices)(c) - Leaked(caps.prices)(l.calls[i])
             == CostOver(caps.prices)(c) - CostOver(caps.prices)(l.calls[i])
    ensures Inv(l', caps)
  {
    SumUpdate(l.calls, Tokens, i, c);
    SumUpdate(l.calls, Cost, i, c);
    SumUpdate(l.calls, TokensOver, i, c);
    SumUpdate(l.calls, CostOver(caps.prices), i, c);
    SumUpdate(l.calls, Leaked(caps.prices), i, c);
  }

  lemma NextKeeps(l: Ledger, caps: Caps, step: Step)
    requires Inv(l, caps)
    ensures Inv(Next(l, caps, step), caps)
  {
    var l' := Next(l, caps, step);
    if step.Admit? {
      if l' != l {
        AdmitKeeps(l, l', caps);
      }
    } else if step.call < |l.calls| && l.calls[step.call].state.STARTED? {
      assert RecordOk(l.calls[step.call], caps.prices);
      ChangeKeeps(l, l', caps, step.call, l'.calls[step.call]);
    }
  }

  lemma AdmitKeeps(l: Ledger, l': Ledger, caps: Caps)
    requires Inv(l, caps) && |l.calls| < caps.maxCalls
    requires |l'.calls| == |l.calls| + 1 && l'.calls[..|l.calls|] == l.calls
    requires var c := l'.calls[|l.calls|];
             && c == CallRecord(STARTED, c.initialTokens, c.initialCost, c.initialTokens, c.initialCost, None)
             && l'.reservedTokens == l.reservedTokens + c.initialTokens <= caps.maxTokens
             && l'.reservedCost == l.reservedCost + c.initialCost <= caps.maxCost
    ensures Inv(l', caps)
  {
    var c := l'.calls[|l.calls|];
    assert l'.calls == l.calls + [c];
    SumMore(l.calls, Tokens, c);
    SumMore(l.calls, Cost, c);
    SumMore(l.calls, TokensOver, c);
    SumMore(l.calls, CostOver(caps.prices), c);
    SumMore(l.calls, Leaked(caps.prices), c);
    SumsArePositive(l'.calls, caps.prices);
  }

  lemma {:induction false} SumsArePositive(calls: seq<CallRecord>, p: Prices)
    requires forall i :: 0 <= i < |calls| ==> RecordOk(calls[i], p)
    ensures Sum(calls, TokensOver) >= 0 && Sum(calls, CostOver(p)) >= 0 && Sum(calls, Leaked(p)) >= 0
  {
    if calls != [] {
      SumsArePositive(calls[..|calls| - 1], p);
    }
  }

  lemma {:induction false} ExecKeeps(l: Ledger, caps: Caps, steps: seq<Step>)
    requires Inv(l, caps)
    ensures Inv(Exec(l, caps, steps), caps)
    decreases |steps|
  {
    if steps != [] {
      NextKeeps(l, caps, steps[0]);
      ExecKeeps(Next(l, caps, steps[0]), caps, steps[1..]);
    }
  }

  predicate Leaky(c: CallRecord, p: Prices) {
    Leaked(p)(c) > 0
  }

  lemma {:induction false} LeakIffLeaky(calls: seq<CallRecord>, p: Prices)
    requires forall i :: 0 <= i < |calls| ==> RecordOk(calls[i], p)
    ensures Sum(calls, Leaked(p)) == 0 <==> forall i :: 0 <= i < |calls| ==> !Leaky(calls[i], p)
  {
    if calls != [] {
      var n := |calls| - 1;
      LeakIffLeaky(calls[..n], p);
      SumsArePositive(calls[..n], p);
      forall i | 0 <= i < n ensures calls[..n][i] == calls[i] {
      }
    }
  }

  /** A call is charged its reservation, or what it reports to have used if that is more: each token
      at its own price, the cached ones at theirs. */
  predicate ChargedInFull(c: CallRecord, p: Prices) {
    c.usage.Some? && !c.usage.value.total.NotANumber? ==>
      var u := c.usage.value;
      var cost := (u.input - u.cached) * p.input + u.cached * p.cached + u.output * p.output;
      && c.reservedCost == (if cost > c.initialCost then cost else c.initialCost)
      && (u.total.Count? && u.total.n > c.initialTokens ==> c.reservedTokens == u.total.n)
  }

  /** The reservation of a call is for its messages and its longest answer. */
  predicate AdmittedBy(c: CallRecord, caps: Caps, step: Step) {
    && step.Admit? && !step.late
    && c.initialTokens == step.count + step.output
    && c.initialCost == step.count * caps.prices.input + step.output * caps.prices.output
  }

  predicate Admitted(c: CallRecord, caps: Caps, steps: seq<Step>) {
    exists k :: 0 <= k < |steps| && AdmittedBy(c, caps, steps[k])
  }

  predicate AllAdmitted(calls: seq<CallRecord>, caps: Caps, steps: seq<Step>) {
    forall i :: 0 <= i < |calls| ==> Admitted(calls[i], caps, steps)
  }

  lemma NextKeepsReservations(l: Ledger, caps: Caps, step: Step)
    ensures var calls := Next(l, caps, step).calls;
            && |l.calls| <= |calls| <= |l.calls| + 1
            && (|calls| > |l.calls| ==> AdmittedBy(calls[|l.calls|], caps, step))
            && (forall i :: 0 <= i < |l.calls| ==>
                  calls[i].initialTokens == l.calls[i].initialTokens && calls[i].initialCost == l.calls[i].initialCost)
  {
    hide ActualCost;
  }

  lemma RecordIsChargedInFull(c: CallRecord, p: Prices)
    requires RecordOk(c, p)
    ensures ChargedInFull(c, p)
  {
  }

  lemma NextAdmits(l: Ledger, caps: Caps, done: seq<Step>, step: Step)
    requires AllAdmitted(l.calls, caps, done)
    ensures AllAdmitted(Next(l, caps, step).calls, caps, done + [step])
  {
    var calls := Next(l, caps, step).calls;
    NextKeepsReservations(l, caps, step);
    hide Next;
    forall i | 0 <= i < |calls|
      ensures Admitted(calls[i], caps, done + [step])
    {
      if i < |l.calls| {
        assert Admitted(l.calls[i], caps, done);
        var k :| 0 <= k < |done| && AdmittedBy(l.calls[i], caps, done[k]);
        assert AdmittedBy(calls[i], caps, (done + [step])[k]);
      } else {
        assert AdmittedBy(calls[i], caps, (done + [step])[|done|]);
      }
    }
  }

  lemma {:induction false} ExecAdmits(l: Ledger, caps: Caps, done: seq<Step>, steps: seq<Step>)
    requires AllAdmitted(l.calls, caps, done)
    ensures AllAdmitted(Exec(l, caps, steps).calls, caps, done + steps)
    decreases |steps|
  {
    if steps == [] {
      assert done + steps == done;
    } else {
      NextAdmits(l, caps, done, steps[0]);
      ExecAdmits(Next(l, caps, steps[0]), caps, done + [steps[0]], steps[1..]);
      assert done + [steps[0]] + steps[1..] == done + steps;
    }
  }

  /** A call is refused exactly if it comes too late or would pass one of the three caps. */
  lemma RefusedIffOverCap(l: Ledger, caps: Caps, count: nat, output: nat, late: bool)
    ensures |Next(l, caps, Admit(count, output, late)).calls| == |l.calls| <==>
              || late || |l.calls| >= caps.maxCalls
              || l.reservedTokens + count + output > caps.maxTokens
              || l.reservedCost + count * caps.prices.input + output * caps.prices.output > caps.maxCost
  {
  }

  /** Under every interleaving the reserved tokens are the sum over the records and pass their cap
      only by what calls used over their reservations. The reserved cost is never below that sum,
      passes its cap likewise, and equals the sum exactly if no call that cost more than reserved
      came back with a total that is no number. */
  lemma BooksBalance(caps: Caps, steps: seq<Step>)
    ensures var l := Exec(EMPTY_LEDGER, caps, steps);
            && l.reservedTokens == Sum(l.calls, Tokens)
            && l.reservedTokens <= caps.maxTokens + Sum(l.calls, TokensOver)
            && l.reservedCost >= Sum(l.calls, Cost)
            && l.reservedCost <= caps.maxCost + Sum(l.calls, CostOver(caps.prices))
            && (l.reservedCost == Sum(l.calls, Cost) <==>
                  forall i :: 0 <= i < |l.calls| ==> !Leaky(l.calls[i], caps.prices))
            && (forall i :: 0 <= i < |l.calls| ==> ChargedInFull(l.calls[i], caps.prices))
            && (forall i :: 0 <= i < |l.calls| ==> Admitted(l.calls[i], caps, steps))
  {
    ExecKeeps(EMPTY_LEDGER, caps, steps);
    ExecAdmits(EMPTY_LEDGER, caps, [], steps);
    hide Exec, ChargedInFull, AdmittedBy, Leaky, RecordOk;
    assert [] + steps == steps;
    var l := Exec(EMPTY_LEDGER, caps, steps);
    SumsArePositive(l.calls, caps.prices);
    LeakIffLeaky(l.calls, caps.prices);
    forall i | 0 <= i < |l.calls| ensures ChargedInFull(l.calls[i], caps.prices) {
      RecordIsChargedInFull(l.calls[i], caps.prices);
    }
  }

  /** The leak is real: one call that cost three and had reserved two. */
  lemma CostCanLeak()
    ensures var caps := Caps(1, 10, 10, Prices(1, 1, 1));
            var l := Exec(EMPTY_LEDGER, caps, [Admit(1, 1, false), Return(0, Some(Usage(2, 1, 0, NotANumber)))]);
            l.reservedCost == 3 && Sum(l.calls, Cost) == 2
  {
    var caps := Caps(1, 10, 10, Prices(1, 1, 1));
    var steps := [Admit(1, 1, false), Return(0, Some(Usage(2, 1, 0, NotANumber)))];
    var l1 := Next(EMPTY_LEDGER, caps, steps[0]);
    var l2 := Next(l1, caps, steps[1]);
    assert steps[1..][1..] == [];
    assert Exec(EMPTY_LEDGER, caps, steps) == Exec(l1, caps, steps[1..]);
    assert Exec(l1, caps, steps[1..]) == Exec(l2, caps, steps[1..][1..]);
    assert l2.calls[..0] == [];
  }
}
