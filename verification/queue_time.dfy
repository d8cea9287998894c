/** What the time budget of a run charges, against the leases that its owners really held. */
module QueueTime {
  import opened Outcomes
  import opened Recovery
  import opened Activity
  import opened QueueRows
  import opened QueueMachine
  import opened QueueSafety
  import opened QueueTheorems

  /** For how long a step lets a live lease of the run go on: only the clock does. */
  function LeasedFor(s: World, step: Step, id: Id): nat {
    if !step.Tick? || id !in s.rows.runs || id !in s.rows.tasks || s.rows.tasks[id].leaseUntil.None? then 0
    else
      var rest := s.rows.tasks[id].leaseUntil.value - s.now;
      if rest <= 0 then 0 else if rest <= step.ms then rest else step.ms
  }

  function LeasedTime(s: World, steps: seq<Step>, id: Id): nat
    decreases |steps|
  {
    if steps == [] then 0 else LeasedFor(s, steps[0], id) + LeasedTime(Next(s, steps[0]), steps[1..], id)
  }

  /** So far `leased` is charged, and what is charged from now on is the live lease. */
  predicate Accounted(row: Row, leased: int, now: int) {
    var meter := row.run.meter;
    && UsedMs(meter, now) == leased
    && (Live(meter.until, now) ==> row.task.leaseUntil == meter.until)
    && (Live(row.task.leaseUntil, now) ==> row.task.leaseUntil == meter.until)
  }

  /** A run that does not exist has used nothing. */
  predicate AccountedAt(s: World, id: Id, leased: int) {
    if id in s.rows.runs then id in s.rows.tasks && Accounted(RowOf(s.rows, id), leased, s.now) else leased == 0
  }

  predicate MeterOpen(m: Meter, now: int) {
    && m.since.Some? == m.until.Some?
    && (m.since.Some? ==> m.since.value <= now && m.since.value <= m.until.value)
  }

  lemma SettledKeepsUsed(m: Meter, budget: int, now: int)
    ensures UsedMs(Settled(m, budget, now), now) == UsedMs(m, now) && Settled(m, budget, now).until.None?
  {
  }

  lemma StopAccounts(row: Row, row': Row, leased: int, now: int)
    requires Stopped(row, row', now) && Accounted(row, leased, now) && TaskLegal(row'.task)
    ensures Accounted(row', leased, now)
  {
    SettledKeepsUsed(row.run.meter, Budget(row), now);
    hide Settled, UsedMs;
  }

  lemma ExtensionAccounts(row: Row, row': Row, reply: Option<int>, leased: int, now: int)
    requires Extended(row, row', reply, now) && Accounted(row, leased, now) && MeterOpen(row.run.meter, now)
    ensures Accounted(row', leased, now)
  {
    hide LeaseEnd;
  }

  lemma ClaimAccounts(s: World, id: Id, row': Row, leased: int)
    requires id in s.rows.runs && id in s.rows.tasks && Decided(s, id, row')
    requires Accounted(RowOf(s.rows, id), leased, s.now)
    ensures Accounted(row', leased, s.now)
  {
    SettledKeepsUsed(s.rows.runs[id].meter, s.rows.runs[id].config.activeMs, s.now);
    hide Settled, LeaseEnd, Claimable, CleanupOnly;
  }

  lemma RecoveryAccounts(row: Row, row': Row, leased: int, now: int)
    requires Recovered(row, row') && TaskLegal(row'.task) && Accounted(row, leased, now)
    requires !Live(row.task.leaseUntil, now)
    ensures Accounted(row', leased, now)
  {
  }

  /** No step but the clock charges anything. */
  lemma MoveAccounts(s: World, step: Step, id: Id, row': Row, leased: int)
    requires id in s.rows.runs && id in s.rows.tasks && MovedTo(s, step, id, row')
    requires Accounted(RowOf(s.rows, id), leased, s.now) && MeterOpen(s.rows.runs[id].meter, s.now)
    requires TaskLegal(row'.task)
    requires step.Recover? && Live(s.rows.tasks[id].leaseUntil, s.now) ==> row' == RowOf(s.rows, id)
    ensures Accounted(row', leased, s.now)
  {
    hide Accounted, Decided, Extended, Stopped, Recovered;
    var row := RowOf(s.rows, id);
    if row' == row {
    } else if step == Claim(id) && Decided(s, id, row') {
      ClaimAccounts(s, id, row', leased);
    } else if Extended(row, row', Reply(s.rows, id), s.now) {
      ExtensionAccounts(row, row', Reply(s.rows, id), leased, s.now);
    } else if Stopped(row, row', s.now) {
      StopAccounts(row, row', leased, s.now);
    } else {
      RecoveryAccounts(row, row', leased, s.now);
    }
  }

  lemma LiveIsNotRecovered(rows: Rows, runId: Id, action: ManualAction, now: int, id: Id)
    requires id in rows.runs && id in rows.tasks && Live(rows.tasks[id].leaseUntil, now)
    ensures var rows' := RecoverTx(rows, runId, action, now).0;
            id in rows'.runs && id in rows'.tasks && RowOf(rows', id) == RowOf(rows, id)
  {
  }

  lemma OnlyTheClockTicks(s: World, step: Step)
    ensures !step.Tick? ==> Next(s, step).now == s.now
  {
    hide ClaimTx, ReleaseTx, HeartbeatTx, FinalizeTx, RevokeInstanceTx, ReleaseInstanceTx, SuperviseTx, RecoverTx,
         AttachTx, RegisterTx, EnqueueTx, DeliverTx, PublishTx;
  }

  lemma StepAccounts(s: World, step: Step, id: Id, leased: int)
    requires Inv(s) && id in s.rows.runs && AccountedAt(s, id, leased) && !step.Tick?
    ensures AccountedAt(Next(s, step), id, leased)
  {
    hide Inv, Next, MovedTo, Accounted, RunOk;
    OnlyTheClockTicks(s, step);
    EveryStepMoves(s, step, id);
    NextKeeps(s, step);
    InvAt(s, id);
    InvAt(Next(s, step), id);
    MeterIsOpen(s, id);
    TaskIsLegal(Next(s, step), id);
    if Live(s.rows.tasks[id].leaseUntil, s.now) {
      RecoveryIsLate(s, step, id);
    }
    MoveAccounts(s, step, id, RowOf(Next(s, step).rows, id), leased);
  }

  lemma MeterIsOpen(s: World, id: Id)
    requires id in s.rows.runs && RunOk(s, id)
    ensures MeterOpen(s.rows.runs[id].meter, s.now)
  {
  }

  lemma RecoveryIsLate(s: World, step: Step, id: Id)
    requires id in s.rows.runs && id in s.rows.tasks && Live(s.rows.tasks[id].leaseUntil, s.now)
    ensures step.Recover? ==>
              var rows := Next(s, step).rows;
              id in rows.runs && id in rows.tasks && RowOf(rows, id) == RowOf(s.rows, id)
  {
    if step.Recover? {
      hide RecoverTx;
      LiveIsNotRecovered(s.rows, step.runId, step.action, s.now, id);
    }
  }

  lemma TickAccounts(s: World, ms: nat, id: Id, leased: int)
    requires Inv(s) && id in s.rows.runs && AccountedAt(s, id, leased)
    ensures AccountedAt(Next(s, Tick(ms)), id, leased + LeasedFor(s, Tick(ms), id))
  {
    InvAt(s, id);
  }

  /** A new run comes without a lease and with nothing charged. */
  lemma NewRunAccounts(s: World, step: Step, id: Id)
    requires id !in s.rows.runs
    ensures AccountedAt(Next(s, step), id, 0) && LeasedFor(s, step, id) == 0
  {
    match step
    case Claim(runId) =>
      hide ClaimTx;
      ClaimAddsNoRun(s.rows, s.uuids, runId, s.now, id);
    case Enqueue(sid, buyer, input) =>
      hide Accepts, ConfigOk;
      NewRowIsIdle(s.rows, s.uuids, sid, buyer, input, s.now);
    case _ =>
      NoOtherAddsRuns(s, step, id);
      hide Next, Accounted;
  }

  lemma NewRowIsIdle(rows: Rows, newId: Id, sid: Id, buyer: Id, input: Input, now: int)
    ensures var rows' := EnqueueTx(rows, newId, sid, buyer, input).0;
            || rows' == rows
            || (newId in rows'.runs && newId in rows'.tasks && Accounted(RowOf(rows', newId), 0, now)
                && rows'.runs.Keys == rows.runs.Keys + {newId})
  {
    hide Accepts, ConfigOk;
  }

  lemma NoOtherAddsRuns(s: World, step: Step, id: Id)
    requires id !in s.rows.runs && !step.Claim? && !step.Enqueue?
    ensures id !in Next(s, step).rows.runs
  {
    hide Owns, Settled, LeaseEnd, StillActive, EndMatches, Published, TaskLegal, ClaimTx, EnqueueTx;
  }

  lemma NextAccounts(s: World, step: Step, id: Id, leased: int)
    requires Inv(s) && AccountedAt(s, id, leased)
    ensures AccountedAt(Next(s, step), id, leased + LeasedFor(s, step, id))
  {
    hide Inv, Next;
    if id !in s.rows.runs {
      NewRunAccounts(s, step, id);
    } else if step.Tick? {
      TickAccounts(s, step.ms, id, leased);
    } else {
      StepAccounts(s, step, id, leased);
    }
  }

  lemma {:induction false} ExecAccounts(s: World, steps: seq<Step>, id: Id, leased: int)
    requires Inv(s) && AccountedAt(s, id, leased)
    ensures AccountedAt(Exec(s, steps), id, leased + LeasedTime(s, steps, id))
    decreases |steps|
  {
    hide Inv, Next, AccountedAt, LeasedFor;
    if steps != [] {
      NextKeeps(s, steps[0]);
      NextAccounts(s, steps[0], id, leased);
      ExecAccounts(Next(s, steps[0]), steps[1..], id, leased + LeasedFor(s, steps[0], id));
    }
  }

  /** Whatever happens, a run is charged exactly the time for which some owner held a live lease on
      it: lost, revoked and resolved leases are charged once, and waiting is free. */
  lemma ChargedIsLeased(now: int, steps: seq<Step>, id: Id)
    ensures var s := Exec(Init(now), steps);
            id in s.rows.runs ==>
              var budget := s.rows.runs[id].config.activeMs;
              var leased := LeasedTime(Init(now), steps, id);
              && UsedMs(s.rows.runs[id].meter, s.now) == leased
              && Remaining(s.rows.runs[id].meter, budget, s.now) == (if leased < budget then budget - leased else 0)
              && leased < budget + 30000 + 15000 * Cleanups(s, id)
  {
    InitHolds(now);
    ActiveTimeIsBounded(now, steps, id, Exec(Init(now), steps).now);
    hide Inv, Exec, LeasedTime, LeaseIsBounded;
    ExecAccounts(Init(now), steps, id, 0);
  }
}
