/** The production queue as the program runs it: a transaction loads rows, mutates them in place,
    and writes them back when it commits; an exception leaves the database as it was. */
module InputQueues {
  import opened Outcomes
  import opened Recovery
  import opened Activity
  import opened QueueRows

  /** An input row loaded into a transaction. */
  class RunRow {
    const loaded: Run
    var recoveryRequired: bool
    var activeMs: int
    var activeSince: Option<int>
    var activeUntil: Option<int>
    var closingDeadline: Option<int>

    constructor (run: Run)
      ensures Value() == run && loaded == run
    {
      loaded := run;
      recoveryRequired := run.recoveryRequired;
      activeMs, activeSince := run.meter.ms, run.meter.since;
      activeUntil, closingDeadline := run.meter.until, run.meter.closing;
    }

    ghost function MeterNow(): Meter
      reads this
    {
      Meter(activeMs, activeSince, activeUntil, closingDeadline)
    }

    function Value(): Run
      reads this
      ensures Value().meter == MeterNow()
    {
      loaded.(recoveryRequired := recoveryRequired,
              meter := Meter(activeMs, activeSince, activeUntil, closingDeadline))
    }

    method UsedTime(now: int) returns (ms: int)
      ensures ms == UsedMs(MeterNow(), now)
    {
      var elapsed := 0;
      if activeSince.Some? && activeUntil.Some? {
        var end := if now < activeUntil.value then now else activeUntil.value;
        elapsed := if end < activeSince.value then 0 else end - activeSince.value;
      }
      ms := activeMs + elapsed;
    }

    method RemainingTime(now: int) returns (ms: int)
      ensures ms == Remaining(MeterNow(), loaded.config.activeMs, now)
    {
      var used := UsedTime(now);
      ms := if loaded.config.activeMs < used then 0 else loaded.config.activeMs - used;
    }

    /** Charge the open stretch; freeze the closing deadline if it used up the budget. */
    method Settle(now: int)
      modifies this`activeMs, this`activeSince, this`activeUntil, this`closingDeadline
      ensures MeterNow() == Settled(old(MeterNow()), loaded.config.activeMs, now)
    {
      var left := RemainingTime(now);
      if activeSince.Some? && closingDeadline.None? && left <= 0 {
        var rest := if loaded.config.activeMs < activeMs then 0 else loaded.config.activeMs - activeMs;
        closingDeadline := Some(activeSince.value + rest + CLOSING_MS);
      }
      activeMs := UsedTime(now);
      activeSince, activeUntil := None, None;
    }

    method LeaseDeadline(reply: Option<int>, now: int, leaseMs: int) returns (end: int)
      modifies this`closingDeadline
      ensures (closingDeadline, end) == LeaseEnd(old(MeterNow()), loaded.config.activeMs, reply, now, leaseMs)
    {
      if closingDeadline.None? {
        var left := RemainingTime(now);
        var deadline := now + left;
        if reply.Some? && reply.value < deadline {
          deadline := reply.value;
        }
        if deadline <= now {
          closingDeadline := Some(deadline + CLOSING_MS);
        } else {
          return Min(now + leaseMs, deadline + CLOSING_MS);
        }
      }
      end := Min(now + leaseMs, closingDeadline.value);
    }
  }

  /** A task row loaded into a transaction. */
  class TaskRow {
    const maxAttempts: nat
    const lastAction: Option<ManualAction>
    var status: TaskStatus
    var leaseToken: Option<Id>
    var leaseExpiresAt: Option<int>
    var ownershipEpoch: nat
    var attemptCount: nat
    var nextRetryAt: Option<int>

    constructor (task: Task)
      ensures Value() == task
    {
      maxAttempts, lastAction := task.maxAttempts, task.lastAction;
      status, leaseToken, leaseExpiresAt := task.status, task.token, task.leaseUntil;
      ownershipEpoch, attemptCount, nextRetryAt := task.epoch, task.attempts, task.nextRetry;
    }

    function Value(): Task
      reads this
    {
      Task(status, leaseToken, leaseExpiresAt, ownershipEpoch, attemptCount, maxAttempts, nextRetryAt, lastAction)
    }
  }

  class InputQueue {
    var rows: Rows
    var uuids: Id

    constructor ()
      ensures rows == NO_ROWS && uuids == 0
    {
      rows, uuids := NO_ROWS, 0;
    }

    method Uuid() returns (id: Id)
      modifies this`uuids
      ensures id == old(uuids) && uuids == id + 1
    {
      id, uuids := uuids, uuids + 1;
    }

    /** Write a run and its task back. The database checks the task row. */
    method Flush(runId: Id, run: RunRow, task: TaskRow) returns (ok: bool)
      modifies this`rows
      ensures ok == TaskLegal(task.Value())
      ensures rows == if ok then old(rows).(runs := old(rows).runs[runId := run.Value()],
                                            tasks := old(rows).tasks[runId := task.Value()])
                      else old(rows)
    {
      ok := TaskLegal(task.Value());
      if ok {
        rows := rows.(runs := rows.runs[runId := run.Value()], tasks := rows.tasks[runId := task.Value()]);
      }
    }

    /** Load the run and its task for an owner, if it still is the owner. */
    method LockOwner(runId: Id, owner: Owner, now: int) returns (r: Result<(RunRow, TaskRow)>)
      ensures runId !in rows.runs ==> r == Failure(Conflict)
      ensures runId in rows.runs ==> (r.Success? <==> Owns(rows, runId, owner, now))
      ensures runId in rows.runs && r.Failure? ==> r == Failure(StaleOwner)
      ensures r.Success? ==>
                && fresh(r.value.0) && fresh(r.value.1)
                && r.value.0.Value() == rows.runs[runId] && r.value.0.loaded == rows.runs[runId]
                && r.value.1.Value() == rows.tasks[runId]
    {
      if runId !in rows.runs {
        return Failure(Conflict);
      }
      if runId !in rows.tasks {
        return Failure(StaleOwner);
      }
      var task := new TaskRow(rows.tasks[runId]);
      var run := new RunRow(rows.runs[runId]);
      if task.status != RUNNING || task.leaseToken != Some(owner.token) || task.ownershipEpoch != owner.epoch
         || task.leaseExpiresAt.None? || task.leaseExpiresAt.value <= now
      {
        return Failure(StaleOwner);
      }
      r := Success((run, task));
    }

    method Enqueue(sid: Id, buyer: Id, input: Input) returns (r: Result<Id>)
      modifies this
      ensures (rows, r) == EnqueueTx(old(rows), old(uuids), sid, buyer, input)
      ensures uuids == old(uuids) || uuids == old(uuids) + 1
    {
      if |input.requestId| == 0 || |input.requestId| > MAX_REQUEST_ID {
        return Failure(Conflict);
      }
      if sid !in rows.sessions || rows.sessions[sid].buyer != buyer {
        return Failure(Conflict);
      }
      var session := rows.sessions[sid];
      if session.archived || !VersionOk(session.version, input.semantic) {
        return Failure(Conflict);
      }
      var fingerprint := PayloadDigest(input.payload);
      if (sid, input.requestId) in rows.byRequest {
        var prior := rows.byRequest[(sid, input.requestId)];
        if prior !in rows.runs || rows.runs[prior].inputHash != fingerprint {
          return Failure(Conflict);
        }
        return Success(prior);
      }
      if session.nextSeq - session.lastResolved > MAX_UNRESOLVED {
        return Failure(Conflict);
      }
      if !input.referencesOk || !ConfigOk(input.config, session.version, input.semantic) {
        return Failure(Conflict);
      }
      var id := Uuid();
      var run := Run(sid, session.nextSeq, input.requestId, fingerprint, input.config,
                     session.version.value, false, NEW_METER);
      var task := Task(PENDING, None, None, 0, 0, DEFAULT_MAX_ATTEMPTS, None, None);
      rows := rows.(runs := rows.runs[id := run], tasks := rows.tasks[id := task],
                    byRequest := rows.byRequest[(sid, input.requestId) := id],
                    bySeq := rows.bySeq[(sid, session.nextSeq) := id]);
      rows := rows.(sessions := rows.sessions[sid := session.(nextSeq := session.nextSeq + 1)]);
      r := Success(id);
    }

    /** Fail a run whose time or attempts are spent, or give it to a new owner. */
    method Decide(runId: Id, run: RunRow, task: TaskRow, deadline: int, now: int) returns (owner: Option<Owner>)
      requires runId in rows.runs && runId in rows.tasks && run.loaded == rows.runs[runId]
      requires run.Value() == rows.runs[runId].(meter := ClaimMeter(rows, runId, now).0)
      requires task.Value() == rows.tasks[runId] && deadline == ClaimMeter(rows, runId, now).1
      modifies this`uuids, run, task
      ensures (run.Value(), task.Value(), owner) == ClaimDecision(rows, old(uuids), runId, now)
      ensures uuids == old(uuids) || uuids == old(uuids) + 1
    {
      hide ClaimMeter;
      if deadline <= now {
        task.status := FAILED;
        task.leaseToken, task.leaseExpiresAt := None, None;
        run.recoveryRequired := true;
        return None;
      }
      if task.attemptCount >= task.maxAttempts {
        task.status := FAILED;
        task.nextRetryAt := None;
        task.leaseToken, task.leaseExpiresAt := None, None;
        run.recoveryRequired := true;
        return None;
      }
      var token := Uuid();
      task.ownershipEpoch := task.ownershipEpoch + 1;
      task.leaseToken, task.leaseExpiresAt := Some(token), Some(deadline);
      run.activeSince, run.activeUntil := Some(now), Some(deadline);
      task.status := RUNNING;
      task.nextRetryAt := None;
      task.attemptCount := task.attemptCount + 1;
      owner := Some(Owner(token, task.ownershipEpoch));
    }

    /** The caller holds the thread lock of the run's session. */
    method Claim(runId: Id, now: int) returns (r: Result<Option<Owner>>)
      modifies this
      ensures (rows, r) == ClaimTx(old(rows), old(uuids), runId, now)
      ensures uuids == old(uuids) || uuids == old(uuids) + 1
    {
      if runId !in rows.runs || runId !in rows.tasks || rows.runs[runId].sessionId !in rows.sessions {
        return Failure(NotFound);
      }
      var run := new RunRow(rows.runs[runId]);
      var task := new TaskRow(rows.tasks[runId]);
      var session := rows.sessions[run.loaded.sessionId];
      if run.loaded.inputSeq != session.lastResolved + 1
         || session.archived
         || run.recoveryRequired
         || task.status in {SUCCEEDED, FAILED, STALE, CANCELLED}
         || (task.leaseExpiresAt.Some? && task.leaseExpiresAt.value > now)
         || (task.nextRetryAt.Some? && task.nextRetryAt.value > now)
      {
        return Success(None);
      }
      run.Settle(now);
      var deadline := run.LeaseDeadline(Reply(rows, runId), now, LEASE_MS);
      var cleanupOnly := task.lastAction == Some(TERMINATE)
                         || (runId in rows.deliveries && rows.deliveries[runId].published);
      if cleanupOnly {
        deadline := now + CLOSING_MS;
      }
      assert Claimable(rows, runId, now) && ClaimMeter(rows, runId, now) == (run.MeterNow(), deadline);
      hide ClaimMeter, Claimable, ClaimDecision, Reply;
      var owner := Decide(runId, run, task, deadline, now);
      var ok := Flush(runId, run, task);
      r := if ok then Success(owner) else Failure(IntegrityError);
    }

    method Release(runId: Id, owner: Owner, recoveryRequired: bool, now: int) returns (r: Result<()>)
      modifies this`rows
      ensures (rows, r) == ReleaseTx(old(rows), runId, owner, recoveryRequired, now)
    {
      var locked := LockOwner(runId, owner, now);
      if locked.Failure? {
        return Failure(locked.error);
      }
      var (run, task) := locked.value;
      run.Settle(now);
      task.status := RETRY_WAIT;
      task.nextRetryAt := Some(now + RETRY_MS);
      task.leaseToken, task.leaseExpiresAt := None, None;
      run.recoveryRequired := recoveryRequired;
      var ok := Flush(runId, run, task);
      r := if ok then Success(()) else Failure(IntegrityError);
    }

    method Heartbeat(runId: Id, owner: Owner, now: int) returns (r: Result<()>)
      modifies this`rows
      ensures (rows, r) == HeartbeatTx(old(rows), runId, owner, now)
    {
      var locked := LockOwner(runId, owner, now);
      if locked.Failure? {
        return Failure(locked.error);
      }
      var (run, task) := locked.value;
      var deadline := run.LeaseDeadline(Reply(rows, runId), now, LEASE_MS);
      if deadline <= now {
        return Failure(StaleOwner);
      }
      task.leaseExpiresAt, run.activeUntil := Some(deadline), Some(deadline);
      var ok := Flush(runId, run, task);
      r := if ok then Success(()) else Failure(IntegrityError);
    }

    method Finalize(runId: Id, owner: Owner, end: EndState, now: int) returns (r: Result<()>)
      modifies this`rows
      ensures (rows, r) == FinalizeTx(old(rows), runId, owner, end, now)
    {
      var locked := LockOwner(runId, owner, now);
      if locked.Failure? {
        return Failure(locked.error);
      }
      var (run, task) := locked.value;
      if run.loaded.sessionId !in rows.sessions {
        return Failure(NotFound);
      }
      var session := rows.sessions[run.loaded.sessionId];
      if end.pending || end.runId != runId || end.inputSeq != run.loaded.inputSeq
         || end.inputHash != run.loaded.inputHash || end.config != run.loaded.config
         || end.version != run.loaded.version
      {
        return Failure(Conflict);
      }
      if runId !in rows.deliveries || !rows.deliveries[runId].published
         || rows.deliveries[runId].messageId != end.messageId
      {
        return Failure(Conflict);
      }
      if session.lastResolved + 1 != run.loaded.inputSeq {
        return Failure(Conflict);
      }
      run.Settle(now);
      task.status := SUCCEEDED;
      task.leaseToken, task.leaseExpiresAt := None, None;
      var ok := Flush(runId, run, task);
      if !ok {
        return Failure(IntegrityError);
      }
      rows := rows.(sessions := rows.sessions[run.loaded.sessionId := session.(lastResolved := run.loaded.inputSeq)]);
      r := Success(());
    }

    /** Tie the instance to the lease its process just got. */
    method AttachOwner(runId: Id, instance: Id, owner: Owner, now: int) returns (r: Result<()>)
      modifies this`rows
      ensures (rows, r) == AttachTx(old(rows), runId, instance, owner, now)
    {
      var locked := LockOwner(runId, owner, now);
      if locked.Failure? {
        return Failure(locked.error);
      }
      if instance !in rows.instances {
        return Failure(NotFound);
      }
      var record := rows.instances[instance];
      if record.state != REGISTERED {
        return Failure(Conflict);
      }
      rows := rows.(instances := rows.instances[instance := record.(token := Some(owner.token), epoch := owner.epoch)]);
      r := Success(());
    }

    /** Settle the run and give it a new epoch, so that whoever held it is fenced off. */
    method TakeBack(runId: Id, run: RunRow, task: TaskRow, now: int)
      requires runId in rows.runs && runId in rows.tasks && run.loaded == rows.runs[runId]
      requires run.Value() == rows.runs[runId] && task.Value() == rows.tasks[runId]
      modifies this`rows, run, task
      ensures rows == Reclaimed(old(rows), runId, now)
    {
      run.Settle(now);
      task.ownershipEpoch := task.ownershipEpoch + 1;
      task.leaseToken, task.leaseExpiresAt := None, None;
      task.status := RETRY_WAIT;
      task.nextRetryAt := Some(now);
      var ok := Flush(runId, run, task);
      assert ok;
    }

    /** The fencing transaction of a cleanup, which comes before the connection is terminated. */
    method RevokeInstance(instance: Id, force: bool, now: int) returns (r: Result<bool>)
      modifies this`rows
      ensures (rows, r) == RevokeInstanceTx(old(rows), instance, force, now)
    {
      if instance !in rows.instances || rows.instances[instance].state == RELEASED {
        return Success(false);
      }
      var record := rows.instances[instance];
      if record.runId !in rows.runs || record.runId !in rows.tasks {
        return Failure(NotFound);
      }
      var run := new RunRow(rows.runs[record.runId]);
      var task := new TaskRow(rows.tasks[record.runId]);
      var sameOwner := record.token.Some? && record.token == task.leaseToken && record.epoch == task.ownershipEpoch;
      var active := task.leaseExpiresAt.Some? && task.leaseExpiresAt.value > now;
      var overdue := (run.closingDeadline.Some? && run.closingDeadline.value <= now)
                     || now >= record.registeredAt + INSTANCE_MS;
      if !force && record.state == REGISTERED {
        if record.token.None? && now < record.registeredAt + REGISTRATION_MS {
          return Success(false);
        }
        if sameOwner && active && !overdue {
          return Success(false);
        }
      }
      if sameOwner && task.status == RUNNING {
        TakeBack(record.runId, run, task, now);
      }
      rows := rows.(instances := rows.instances[instance := record.(state := REVOKED)]);
      r := Success(true);
    }

    /** What a supervisor does before it kills its process. */
    method Supervise(runId: Id, instance: Id, now: int)
      modifies this`rows
      ensures rows == SuperviseTx(old(rows), runId, instance, now)
    {
      if runId !in rows.runs || runId !in rows.tasks || instance !in rows.instances {
        return;
      }
      var run := new RunRow(rows.runs[runId]);
      var task := new TaskRow(rows.tasks[runId]);
      var record := rows.instances[instance];
      if task.status == RUNNING && task.leaseToken == record.token && task.ownershipEpoch == record.epoch {
        TakeBack(runId, run, task, now);
      }
    }
  }
}
