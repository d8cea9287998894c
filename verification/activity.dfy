/** Active execution time of a run, after backend/app/runtime/activity.py. Instants and durations
    are whole milliseconds. */
module Activity {
  import opened Outcomes

  const CLOSING_MS := 15000   // the last window, without model calls
  const LEASE_MS := 30000
  const MODEL_MS := 45000
  const MAX_ACTIVE_MS := 120000

  /** The four activity columns of an input row. */
  datatype Meter = Meter(ms: int, since: Option<int>, until: Option<int>, closing: Option<int>)

  const NEW_METER := Meter(0, None, None, None)

  function Min(a: int, b: int): int { if a < b then a else b }

  function Max(a: int, b: int): int { if a < b then b else a }

  /** Charged time: what was settled, plus the open stretch up to the end of its lease. */
  function UsedMs(m: Meter, now: int): int {
    m.ms + if m.since.Some? && m.until.Some? then Max(0, Min(now, m.until.value) - m.since.value) else 0
  }

  function Remaining(m: Meter, budget: int, now: int): int {
    Max(0, budget - UsedMs(m, now))
  }

  function Settled(m: Meter, budget: int, now: int): Meter {
    Meter(UsedMs(m, now), None, None,
          if m.since.Some? && m.closing.None? && Remaining(m, budget, now) <= 0
          then Some(m.since.value + Max(0, budget - m.ms) + CLOSING_MS)
          else m.closing)
  }

  /** The end of a lease asked for now, and the closing deadline that asking may freeze. `reply` is
      the deadline of the run's reply, once a delivery for it exists. */
  function LeaseEnd(m: Meter, budget: int, reply: Option<int>, now: int, leaseMs: int): (Option<int>, int) {
    if m.closing.None? then
      var byBudget := now + Remaining(m, budget, now);
      var deadline := if reply.Some? then Min(byBudget, reply.value) else byBudget;
      if deadline <= now
      then (Some(deadline + CLOSING_MS), Min(now + leaseMs, deadline + CLOSING_MS))
      else (None, Min(now + leaseMs, deadline + CLOSING_MS))
    else (m.closing, Min(now + leaseMs, m.closing.value))
  }

  function ModelTimeout(m: Meter, budget: int, reply: Option<int>, now: int): Result<int> {
    var byBudget := Min(MODEL_MS, Remaining(m, budget, now));
    var ms := if reply.Some? then Min(byBudget, reply.value - now) else byBudget;
    if m.closing.Some? || ms <= 0 then Failure(BudgetExhausted) else Success(ms)
  }

  // ---------------------------------------------------------------- the time budget

  /** The most that can be charged: the budget, two closing windows, and one more for each claim
      that only cleans up. */
  function Ceiling(budget: int, cleanups: nat): int {
    budget + 2 * CLOSING_MS + cleanups * CLOSING_MS
  }

  /** What every history of claims, heartbeats, releases and lost leases keeps. */
  predicate Charged(m: Meter, budget: int, cleanups: nat, now: int) {
    && m.ms >= 0
    && m.since.Some? == m.until.Some?
    && (m.since.Some? ==> m.since.value <= now && m.since.value <= m.until.value)
    && (m.closing.None? ==> m.ms < budget)
    && (m.closing.None? && m.since.Some? ==> m.until.value <= m.since.value + budget - m.ms + CLOSING_MS)
    && (m.closing.Some? && m.since.Some? ==>
          m.ms + Max(m.until.value, m.closing.value) - m.since.value < Ceiling(budget, cleanups))
    && (m.closing.Some? && m.since.None? ==>
          m.ms + Max(0, m.closing.value - now) < Ceiling(budget, cleanups))
  }

  /** At any instant, now or later, less than the ceiling is charged. */
  lemma ChargedIsBounded(m: Meter, budget: int, cleanups: nat, now: int, at: int)
    requires Charged(m, budget, cleanups, now)
    ensures 0 <= UsedMs(m, at) < budget + 30000 + 15000 * cleanups
  {
  }

  lemma ChargedLater(m: Meter, budget: int, cleanups: nat, now: int, later: int)
    requires Charged(m, budget, cleanups, now) && now <= later
    ensures Charged(m, budget, cleanups, later)
  {
  }

  lemma SettledIsCharged(m: Meter, budget: int, cleanups: nat, now: int)
    requires Charged(m, budget, cleanups, now)
    ensures Charged(Settled(m, budget, now), budget, cleanups, now)
  {
  }

  /** A claim settles what a lost lease left open, then opens a new stretch: until the lease end,
      or for one closing window when it only cleans up. */
  function Reopened(m: Meter, budget: int, reply: Option<int>, now: int, leaseMs: int, cleanupOnly: bool): Meter {
    var settled := Settled(m, budget, now);
    var (closing, end) := LeaseEnd(settled, budget, reply, now, leaseMs);
    Meter(settled.ms, Some(now), Some(if cleanupOnly then now + CLOSING_MS else end), closing)
  }

  lemma ReopenedIsCharged(m: Meter, budget: int, cleanups: nat, reply: Option<int>, now: int, cleanupOnly: bool)
    requires Charged(m, budget, cleanups, now)
    ensures var m' := Reopened(m, budget, reply, now, LEASE_MS, cleanupOnly);
            m'.until.value > now ==> Charged(m', budget, if cleanupOnly then cleanups + 1 else cleanups, now)
  {
    SettledIsCharged(m, budget, cleanups, now);
  }

  /** A claim that grants nothing still settles, and may freeze the closing deadline. */
  lemma SpentIsCharged(m: Meter, budget: int, cleanups: nat, reply: Option<int>, now: int)
    requires Charged(m, budget, cleanups, now)
    ensures var settled := Settled(m, budget, now);
            Charged(settled.(closing := LeaseEnd(settled, budget, reply, now, LEASE_MS).0), budget, cleanups, now)
  {
    SettledIsCharged(m, budget, cleanups, now);
  }

  /** A heartbeat within the lease. */
  lemma ExtendedIsCharged(m: Meter, budget: int, cleanups: nat, reply: Option<int>, now: int)
    requires Charged(m, budget, cleanups, now) && m.until.Some? && now < m.until.value
    ensures var (closing, end) := LeaseEnd(m, budget, reply, now, LEASE_MS);
            now < end ==> Charged(m.(closing := closing, until := Some(end)), budget, cleanups, now)
  {
  }

  /** When a supervisor stops the process of a run. */
  function KillTime(m: Meter, budget: int, reply: Option<int>): Option<int> {
    var byBudget := if m.closing.Some? then m.closing
                    else if m.since.Some? then Some(m.since.value + Max(0, budget - m.ms) + CLOSING_MS)
                    else None;
    if reply.None? then byBudget
    else if byBudget.None? then Some(reply.value + CLOSING_MS)
    else Some(Min(byBudget.value, reply.value + CLOSING_MS))
  }

  /** No lease passes the frozen closing deadline. */
  predicate WithinClosing(m: Meter) {
    m.closing.Some? && m.until.Some? ==> m.until.value <= m.closing.value
  }

  /** Without a reply to deliver, a lease ends no later than the supervisor would stop the process. */
  lemma LeaseEndsByKillTime(m: Meter, budget: int, cleanups: nat, now: int)
    requires Charged(m, budget, cleanups, now) && m.until.Some? && WithinClosing(m)
    ensures KillTime(m, budget, None).Some? && m.until.value <= KillTime(m, budget, None).value
  {
  }

  /** A lease asked for now, with the closing deadline that is already frozen, passes the closing
      window of the reply. */
  predicate Outlives(closing: Option<int>, reply: Option<int>, now: int) {
    closing.Some? && reply.Some? && Min(now + 30000, closing.value) > reply.value + 15000
  }

  /** With a reply to deliver, a claim's lease ends by then exactly if no closing deadline was
      frozen before, or the lease ends within the closing window of the reply. A claim that only
      cleans up gets a window of its own, which must end within both. */
  lemma GrantEndsByKillTime(m: Meter, budget: int, cleanups: nat, reply: Option<int>, now: int, cleanupOnly: bool)
    requires Charged(m, budget, cleanups, now)
    ensures var closing := Settled(m, budget, now).closing;
            var m' := Reopened(m, budget, reply, now, LEASE_MS, cleanupOnly);
            m'.until.value > now ==>
              (m'.until.value <= KillTime(m', budget, reply).value <==>
                 if cleanupOnly then
                   && (closing.Some? ==> now + 15000 <= closing.value)
                   && (reply.Some? ==> now <= reply.value)
                 else !Outlives(closing, reply, now))
  {
    SettledIsCharged(m, budget, cleanups, now);
  }

  function Beaten(m: Meter, budget: int, reply: Option<int>, now: int): Meter {
    var (closing, end) := LeaseEnd(m, budget, reply, now, LEASE_MS);
    m.(closing := closing, until := Some(end))
  }

  /** The same holds of the lease that a heartbeat grants. */
  lemma BeatEndsByKillTime(m: Meter, budget: int, cleanups: nat, reply: Option<int>, now: int)
    requires Charged(m, budget, cleanups, now) && m.until.Some? && now < m.until.value
    ensures var m' := Beaten(m, budget, reply, now);
            m'.until.value > now ==>
              (m'.until.value <= KillTime(m', budget, reply).value <==> !Outlives(m.closing, reply, now))
  {
  }

  /** What is charged by the end of a granted lease, while no closing deadline is frozen: a claim stays
      within one closing window over the budget, and a heartbeat exceeds it exactly if the budget is
      already spent when it is sent, by more than the reply is late. */
  lemma PastWindowIffSpent(m: Meter, budget: int, cleanups: nat, reply: Option<int>, now: int)
    requires Charged(m, budget, cleanups, now)
    ensures var m' := Reopened(m, budget, reply, now, LEASE_MS, false);
            Settled(m, budget, now).closing.None? && m'.until.value > now ==>
              UsedMs(m', m'.until.value) <= budget + 15000
    ensures var m' := Beaten(m, budget, reply, now);
            var late := if reply.Some? then Max(0, now - reply.value) else 0;
            m.closing.None? && m.until.Some? && now < m.until.value && m'.until.value > now ==>
              (UsedMs(m', m'.until.value) > budget + 15000 <==> UsedMs(m, now) - late > budget)
  {
  }

  /** A model call granted now ends within the budget, within the reply deadline, and before any
      closing window, and it is granted the longest time that does so within 45 seconds. */
  lemma ModelTimeoutFits(m: Meter, budget: int, cleanups: nat, reply: Option<int>, now: int, other: int)
    requires Charged(m, budget, cleanups, now) && m.until.Some? && now <= m.until.value
    ensures ModelTimeout(m, budget, reply, now).Success? <==>
              m.closing.None? && UsedMs(m, now) < budget && (reply.Some? ==> now < reply.value)
    ensures ModelTimeout(m, budget, reply, now).Success? ==>
              var end := now + ModelTimeout(m, budget, reply, now).value;
              && now < end
              && m.ms + end - m.since.value <= budget
              && (reply.Some? ==> end <= reply.value)
              && end + 15000 <= KillTime(m, budget, reply).value
    ensures ModelTimeout(m, budget, reply, now).Success? ==>
              (other <= ModelTimeout(m, budget, reply, now).value <==>
                 && other <= 45000
                 && m.ms + now + other - m.since.value <= budget
                 && (reply.Some? ==> now + other <= reply.value))
  {
  }
}
