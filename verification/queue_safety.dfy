/** The invariant of the production queue, and that every transaction keeps it. */
module QueueSafety {
  import opened Outcomes
  import opened Recovery
  import opened Activity
  import opened QueueRows
  import opened QueueMachine

  // ---------------------------------------------------------------- the invariant

  predicate IdentityOk(rows: Rows, uuids: Id, id: Id)
    requires id in rows.runs
  {
    var run := rows.runs[id];
    && id < uuids
    && id in rows.tasks
    && run.sessionId in rows.sessions
    && 1 <= run.inputSeq < rows.sessions[run.sessionId].nextSeq
    && (run.sessionId, run.inputSeq) in rows.bySeq
    && rows.bySeq[(run.sessionId, run.inputSeq)] == id
    && (run.sessionId, run.requestId) in rows.byRequest
    && rows.byRequest[(run.sessionId, run.requestId)] == id
    && 0 < run.config.activeMs <= MAX_ACTIVE_MS
  }

  /** `cursor` is the last resolved sequence number of the run's session. */
  predicate TaskOk(run: Run, task: Task, cursor: nat, uuids: Id) {
    && TaskLegal(task)
    && task.status !in {STALE, CANCELLED}
    && (task.token.Some? ==> task.token.value < uuids)
    && (task.status == SUCCEEDED <==> run.inputSeq <= cursor)
    && (task.status == FAILED ==> run.recoveryRequired)
    && (task.status == RUNNING ==>
          && run.inputSeq == cursor + 1
          && !run.recoveryRequired
          && run.meter.until == task.leaseUntil)
  }

  predicate MeterOk(m: Meter, budget: int, cleanups: nat, now: int) {
    && Charged(m, budget, cleanups, now)
    && (cleanups == 0 ==> WithinClosing(m))
  }

  predicate RunOk(s: World, id: Id)
    requires id in s.rows.runs
  {
    && IdentityOk(s.rows, s.uuids, id)
    && var run := s.rows.runs[id];
       && TaskOk(run, s.rows.tasks[id], s.rows.sessions[run.sessionId].lastResolved, s.uuids)
       && MeterOk(run.meter, run.config.activeMs, Cleanups(s, id), s.now)
  }

  ghost predicate RunsOk(s: World) {
    forall id :: id in s.rows.runs ==> RunOk(s, id)
  }

  ghost predicate IndexesOk(rows: Rows) {
    && (forall sid, q :: (sid, q) in rows.bySeq ==>
          && rows.bySeq[(sid, q)] in rows.runs
          && rows.runs[rows.bySeq[(sid, q)]].sessionId == sid
          && rows.runs[rows.bySeq[(sid, q)]].inputSeq == q)
    && (forall sid, request :: (sid, request) in rows.byRequest ==>
          && rows.byRequest[(sid, request)] in rows.runs
          && rows.runs[rows.byRequest[(sid, request)]].sessionId == sid
          && rows.runs[rows.byRequest[(sid, request)]].requestId == request)
  }

  ghost predicate SessionOk(rows: Rows, uuids: Id, sid: Id)
    requires sid in rows.sessions
  {
    var session := rows.sessions[sid];
    && sid < uuids
    && session.lastResolved < session.nextSeq
    && session.nextSeq - 1 - session.lastResolved <= MAX_UNRESOLVED
    && (forall q :: 1 <= q < session.nextSeq ==> (sid, q) in rows.bySeq)
  }

  ghost predicate SessionsOk(rows: Rows, uuids: Id) {
    forall sid :: sid in rows.sessions ==> SessionOk(rows, uuids, sid)
  }

  predicate InstanceOk(rows: Rows, uuids: Id, instance: Id)
    requires instance in rows.instances
  {
    var record := rows.instances[instance];
    && instance < uuids
    && record.runId in rows.runs
    && record.runId in rows.tasks
    && (record.token.Some? ==> record.token.value < uuids)
    && (record.state != REGISTERED ==> !SameOwner(record, rows.tasks[record.runId]))
  }

  ghost predicate InstancesOk(rows: Rows, uuids: Id) {
    forall i :: i in rows.instances ==> InstanceOk(rows, uuids, i)
  }

  ghost predicate Inv(s: World) {
    && RunsOk(s)
    && IndexesOk(s.rows)
    && SessionsOk(s.rows, s.uuids)
    && InstancesOk(s.rows, s.uuids)
  }

  // ---------------------------------------------------------------- one run changes

  predicate SameRun(a: Run, b: Run) {
    && a.sessionId == b.sessionId
    && a.inputSeq == b.inputSeq
    && a.requestId == b.requestId
    && a.config == b.config
  }

  /** Either nobody holds the run any more, or the same owner does, or a fresh one. */
  predicate OwnerMoves(task: Task, task': Task, uuids: Id) {
    || task'.token.None?
    || (task'.token == task.token && task'.epoch == task.epoch)
    || task'.token.value >= uuids
  }

  function WithRun(rows: Rows, runId: Id, run: Run, task: Task): Rows {
    rows.(runs := rows.runs[runId := run], tasks := rows.tasks[runId := task])
  }

  ghost predicate LocalChange(s: World, s': World, runId: Id) {
    && runId in s.rows.runs && runId in s.rows.tasks && runId in s'.rows.runs && runId in s'.rows.tasks
    && s'.rows == WithRun(s.rows, runId, s'.rows.runs[runId], s'.rows.tasks[runId])
    && s.uuids <= s'.uuids && s'.now == s.now
    && (forall id :: id != runId ==> Cleanups(s', id) == Cleanups(s, id))
    && SameRun(s.rows.runs[runId], s'.rows.runs[runId])
    && OwnerMoves(s.rows.tasks[runId], s'.rows.tasks[runId], s.uuids)
  }

  /** A transaction that rewrites one run keeps the invariant if it leaves that run in order. */
  lemma LocalChangeKeeps(s: World, s': World, runId: Id)
    requires LocalChange(s, s', runId)
    ensures var run := s'.rows.runs[runId];
            Inv(s) && RunOk(s, runId) && run.sessionId in s'.rows.sessions
            && TaskOk(run, s'.rows.tasks[runId], s'.rows.sessions[run.sessionId].lastResolved, s'.uuids)
            && MeterOk(run.meter, run.config.activeMs, Cleanups(s', runId), s'.now)
            ==> Inv(s')
  {
    hide MeterOk;
    var run := s'.rows.runs[runId];
    if && Inv(s) && RunOk(s, runId) && run.sessionId in s'.rows.sessions
       && TaskOk(run, s'.rows.tasks[runId], s'.rows.sessions[run.sessionId].lastResolved, s'.uuids)
       && MeterOk(run.meter, run.config.activeMs, Cleanups(s', runId), s'.now)
    {
      LocalRuns(s, s', runId);
      LocalIndexes(s, s', runId);
      LocalSessions(s, s', runId);
      LocalInstances(s, s', runId);
    }
  }

  lemma LocalRuns(s: World, s': World, runId: Id)
    requires LocalChange(s, s', runId) && RunsOk(s) && RunOk(s, runId)
    requires var run := s'.rows.runs[runId];
             && TaskOk(run, s'.rows.tasks[runId], s'.rows.sessions[run.sessionId].lastResolved, s'.uuids)
             && MeterOk(run.meter, run.config.activeMs, Cleanups(s', runId), s'.now)
    ensures RunsOk(s')
  {
    hide MeterOk;
    forall id | id in s'.rows.runs ensures RunOk(s', id) {
      assert RunOk(s, id);
    }
  }

  lemma LocalIndexes(s: World, s': World, runId: Id)
    requires LocalChange(s, s', runId)
    ensures IndexesOk(s.rows) ==> IndexesOk(s'.rows)
  {
    assert forall id :: id in s.rows.runs ==> id in s'.rows.runs && SameRun(s.rows.runs[id], s'.rows.runs[id]);
  }

  lemma LocalSessions(s: World, s': World, runId: Id)
    requires LocalChange(s, s', runId)
    ensures SessionsOk(s.rows, s.uuids) ==> SessionsOk(s'.rows, s'.uuids)
  {
    if SessionsOk(s.rows, s.uuids) {
      forall sid | sid in s'.rows.sessions ensures SessionOk(s'.rows, s'.uuids, sid) {
        assert SessionOk(s.rows, s.uuids, sid);
      }
    }
  }

  lemma LocalInstances(s: World, s': World, runId: Id)
    requires LocalChange(s, s', runId)
    ensures InstancesOk(s.rows, s.uuids) ==> InstancesOk(s'.rows, s'.uuids)
  {
    if InstancesOk(s.rows, s.uuids) {
      forall i | i in s'.rows.instances ensures InstanceOk(s'.rows, s'.uuids, i) {
        assert InstanceOk(s.rows, s.uuids, i);
      }
    }
  }

  lemma InvAt(s: World, id: Id)
    ensures Inv(s) && id in s.rows.runs ==> RunOk(s, id)
  {
  }

  // ---------------------------------------------------------------- claim

  lemma ClaimMeterIsCharged(s: World, runId: Id)
    requires runId in s.rows.runs && RunOk(s, runId)
    ensures var (meter, end) := ClaimMeter(s.rows, runId, s.now);
            var budget := s.rows.runs[runId].config.activeMs;
            var cleanups := if CleanupOnly(s.rows, runId) then Cleanups(s, runId) + 1 else Cleanups(s, runId);
            && MeterOk(meter, budget, Cleanups(s, runId), s.now)
            && (end > s.now ==> MeterOk(meter.(since := Some(s.now), until := Some(end)), budget, cleanups, s.now))
  {
    var run := s.rows.runs[runId];
    var cleanups := Cleanups(s, runId);
    SpentIsCharged(run.meter, run.config.activeMs, cleanups, Reply(s.rows, runId), s.now);
    ReopenedIsCharged(run.meter, run.config.activeMs, cleanups, Reply(s.rows, runId), s.now,
                          CleanupOnly(s.rows, runId));
    hide Charged, Settled;
  }

  /** The run and task that a claim wants to commit, if the database lets it. */
  lemma DecisionOk(s: World, runId: Id)
    requires runId in s.rows.runs && RunOk(s, runId) && Claimable(s.rows, runId, s.now)
    ensures var (run, task, owner) := ClaimDecision(s.rows, s.uuids, runId, s.now);
            var cleanups := Cleanups(s, runId) + (if owner.Some? && CleanupOnly(s.rows, runId) then 1 else 0);
            && SameRun(s.rows.runs[runId], run)
            && OwnerMoves(s.rows.tasks[runId], task, s.uuids)
            && (TaskLegal(task) ==>
                  && TaskOk(run, task, s.rows.sessions[run.sessionId].lastResolved, s.uuids + 1)
                  && MeterOk(run.meter, run.config.activeMs, cleanups, s.now))
  {
    ClaimMeterIsCharged(s, runId);
    hide ClaimMeter, MeterOk, CleanupOnly;
  }

  lemma WithRunIsLocal(s: World, s': World, runId: Id, run: Run, task: Task)
    requires runId in s.rows.runs && runId in s.rows.tasks
    requires s'.rows == WithRun(s.rows, runId, run, task) && s.uuids <= s'.uuids && s'.now == s.now
    requires SameRun(s.rows.runs[runId], run) && OwnerMoves(s.rows.tasks[runId], task, s.uuids)
    requires s'.cleanups == s.cleanups || s'.cleanups == s.cleanups[runId := Cleanups(s, runId) + 1]
    ensures LocalChange(s, s', runId)
  {
  }

  lemma ClaimKeeps(s: World, runId: Id)
    ensures Inv(s) ==> Inv(ClaimStep(s, runId))
  {
    hide Inv, RunOk, MeterOk, TaskOk, ClaimDecision, LocalChange, Claimable, CleanupOnly, OwnerMoves;
    var s' := ClaimStep(s, runId);
    UuidsKeep(s);
    InvAt(s, runId);
    if Inv(s) && runId in s.rows.runs && runId in s.rows.tasks && s.rows.runs[runId].sessionId in s.rows.sessions
       && Claimable(s.rows, runId, s.now)
    {
      var (run, task, owner) := ClaimDecision(s.rows, s.uuids, runId, s.now);
      if TaskLegal(task) {
        DecisionOk(s, runId);
        WithRunIsLocal(s, s', runId, run, task);
        LocalChangeKeeps(s, s', runId);
        CleanupsCounted(s, runId);
      }
    }
  }

  lemma CleanupsCounted(s: World, runId: Id)
    ensures var (rows, r) := ClaimTx(s.rows, s.uuids, runId, s.now);
            Cleanups(ClaimStep(s, runId), runId) ==
            Cleanups(s, runId) + if Granted(r) && CleanupOnly(s.rows, runId) then 1 else 0
  {
    hide ClaimTx, CleanupOnly;
  }

  // ---------------------------------------------------------------- the owner's other transactions

  lemma ReleaseKeeps(s: World, runId: Id, owner: Owner, recovery: bool)
    ensures Inv(s) ==> Inv(s.(rows := ReleaseTx(s.rows, runId, owner, recovery, s.now).0))
  {
    hide Inv;
    var s' := s.(rows := ReleaseTx(s.rows, runId, owner, recovery, s.now).0);
    InvAt(s, runId);
    if Inv(s) && s'.rows != s.rows {
      SettledIsCharged(s.rows.runs[runId].meter, s.rows.runs[runId].config.activeMs, Cleanups(s, runId), s.now);
      LocalChangeKeeps(s, s', runId);
    }
  }

  lemma HeartbeatKeeps(s: World, runId: Id, owner: Owner)
    ensures Inv(s) ==> Inv(s.(rows := HeartbeatTx(s.rows, runId, owner, s.now).0))
  {
    hide Inv;
    var s' := s.(rows := HeartbeatTx(s.rows, runId, owner, s.now).0);
    InvAt(s, runId);
    if Inv(s) && s'.rows != s.rows {
      var run := s.rows.runs[runId];
      ExtendedIsCharged(run.meter, run.config.activeMs, Cleanups(s, runId), Reply(s.rows, runId), s.now);
      LocalChangeKeeps(s, s', runId);
    }
  }

  /** Resolving the head moves the cursor for every run of its session. */
  lemma FinalizeKeeps(s: World, runId: Id, owner: Owner, end: EndState)
    ensures Inv(s) ==> Inv(s.(rows := FinalizeTx(s.rows, runId, owner, end, s.now).0))
  {
    hide Inv;
    var s' := s.(rows := FinalizeTx(s.rows, runId, owner, end, s.now).0);
    if Inv(s) && s'.rows != s.rows {
      FinalizedIs(s, runId, owner, end);
      FinalizedKeeps(s, runId);
    }
  }

  function Resolved(s: World, runId: Id): World
    requires IsHead(s.rows, runId) && runId in s.rows.tasks
  {
    var run := s.rows.runs[runId];
    var session := s.rows.sessions[run.sessionId];
    s.(rows := s.rows.(
         sessions := s.rows.sessions[run.sessionId := session.(lastResolved := run.inputSeq)],
         runs := s.rows.runs[runId := run.(meter := Settled(run.meter, run.config.activeMs, s.now))],
         tasks := s.rows.tasks[runId := Released(s.rows.tasks[runId].(status := SUCCEEDED))]))
  }

  lemma FinalizedIs(s: World, runId: Id, owner: Owner, end: EndState)
    requires FinalizeTx(s.rows, runId, owner, end, s.now).0 != s.rows
    ensures IsHead(s.rows, runId) && runId in s.rows.tasks && s.rows.tasks[runId].status == RUNNING
    ensures FinalizeTx(s.rows, runId, owner, end, s.now).0 == Resolved(s, runId).rows
  {
  }

  lemma FinalizedKeeps(s: World, runId: Id)
    requires IsHead(s.rows, runId) && runId in s.rows.tasks && s.rows.tasks[runId].status == RUNNING
    ensures Inv(s) ==> Inv(Resolved(s, runId))
  {
    hide RunsOk, IndexesOk, SessionsOk, InstancesOk;
    if Inv(s) {
      FinalizedRuns(s, runId);
      FinalizedRest(s, runId);
    }
  }

  lemma FinalizedRuns(s: World, runId: Id)
    requires IsHead(s.rows, runId) && runId in s.rows.tasks && s.rows.tasks[runId].status == RUNNING
    ensures RunsOk(s) ==> RunsOk(Resolved(s, runId))
  {
    hide Charged, Settled, WithinClosing;
    if RunsOk(s) {
      var s' := Resolved(s, runId);
      assert RunOk(s, runId);
      SettledIsCharged(s.rows.runs[runId].meter, s.rows.runs[runId].config.activeMs, Cleanups(s, runId), s.now);
      SettledIsWithin(s.rows.runs[runId].meter, s.rows.runs[runId].config.activeMs, s.now);
      forall id | id in s'.rows.runs ensures RunOk(s', id) {
        assert RunOk(s, id);
      }
    }
  }

  lemma SettledIsWithin(m: Meter, budget: int, now: int)
    ensures WithinClosing(Settled(m, budget, now))
  {
  }

  lemma FinalizedRest(s: World, runId: Id)
    requires IsHead(s.rows, runId) && runId in s.rows.tasks
    ensures RunsOk(s) && IndexesOk(s.rows) ==> IndexesOk(Resolved(s, runId).rows)
    ensures RunsOk(s) && SessionsOk(s.rows, s.uuids) ==> SessionsOk(Resolved(s, runId).rows, s.uuids)
    ensures InstancesOk(s.rows, s.uuids) ==> InstancesOk(Resolved(s, runId).rows, s.uuids)
  {
    hide MeterOk;
    var s' := Resolved(s, runId);
    assert forall id :: id in s.rows.runs ==> id in s'.rows.runs && SameRun(s.rows.runs[id], s'.rows.runs[id]);
    if RunsOk(s) && SessionsOk(s.rows, s.uuids) {
      assert RunOk(s, runId);
      forall sid | sid in s'.rows.sessions ensures SessionOk(s'.rows, s'.uuids, sid) {
        assert SessionOk(s.rows, s.uuids, sid);
      }
    }
    if InstancesOk(s.rows, s.uuids) {
      forall i | i in s'.rows.instances ensures InstanceOk(s'.rows, s'.uuids, i) {
        assert InstanceOk(s.rows, s.uuids, i);
      }
    }
  }

  // ---------------------------------------------------------------- taking a run back

  lemma ReclaimedKeeps(s: World, runId: Id)
    requires runId in s.rows.runs && runId in s.rows.tasks && s.rows.tasks[runId].status == RUNNING
    ensures Inv(s) ==> Inv(s.(rows := Reclaimed(s.rows, runId, s.now)))
  {
    hide Inv;
    InvAt(s, runId);
    if Inv(s) {
      SettledIsCharged(s.rows.runs[runId].meter, s.rows.runs[runId].config.activeMs, Cleanups(s, runId), s.now);
      LocalChangeKeeps(s, s.(rows := Reclaimed(s.rows, runId, s.now)), runId);
    }
  }

  lemma RecoverKeeps(s: World, runId: Id, action: ManualAction)
    ensures Inv(s) ==> Inv(s.(rows := RecoverTx(s.rows, runId, action, s.now).0))
  {
    hide Inv, Charged;
    var s' := s.(rows := RecoverTx(s.rows, runId, action, s.now).0);
    InvAt(s, runId);
    if Inv(s) && s'.rows != s.rows {
      LocalChangeKeeps(s, s', runId);
    }
  }

  /** A record of an instance changes; if it is no longer registered, it holds nothing. */
  lemma InstanceKeeps(s: World, i: Id, record: Instance)
    requires record.runId in s.rows.tasks && record.runId in s.rows.runs && i < s.uuids
    requires record.token.Some? ==> record.token.value < s.uuids
    requires record.state != REGISTERED ==> !SameOwner(record, s.rows.tasks[record.runId])
    ensures Inv(s) ==> Inv(s.(rows := s.rows.(instances := s.rows.instances[i := record])))
  {
    var s' := s.(rows := s.rows.(instances := s.rows.instances[i := record]));
    hide MeterOk, TaskOk, SessionOk;
    if Inv(s) {
      forall id | id in s'.rows.runs ensures RunOk(s', id) {
        assert RunOk(s, id);
      }
      forall sid | sid in s'.rows.sessions ensures SessionOk(s'.rows, s'.uuids, sid) {
        assert SessionOk(s.rows, s.uuids, sid);
        SessionFrame(s.rows, s'.rows, s.uuids, sid);
      }
      forall j | j in s'.rows.instances ensures InstanceOk(s'.rows, s'.uuids, j) {
        if j != i {
          assert InstanceOk(s.rows, s.uuids, j);
        }
      }
    }
  }

  lemma SessionFrame(rows: Rows, rows': Rows, uuids: Id, sid: Id)
    requires sid in rows.sessions && rows'.sessions == rows.sessions && rows'.bySeq == rows.bySeq
    ensures SessionOk(rows, uuids, sid) ==> SessionOk(rows', uuids, sid)
  {
  }

  lemma RevokeInstanceKeeps(s: World, i: Id, force: bool)
    ensures Inv(s) ==> Inv(s.(rows := RevokeInstanceTx(s.rows, i, force, s.now).0))
  {
    hide Inv, StillActive;
    if Inv(s) && RevokeInstanceTx(s.rows, i, force, s.now).1 == Success(true) {
      var record := s.rows.instances[i];
      InstanceKnown(s, i);
      InvAt(s, record.runId);
      if s.rows.tasks[record.runId].status == RUNNING {
        ReclaimedKeeps(s, record.runId);
      }
      var held := SameOwner(record, s.rows.tasks[record.runId]) && s.rows.tasks[record.runId].status == RUNNING;
      InstanceKeeps(if held then s.(rows := Reclaimed(s.rows, record.runId, s.now)) else s,
                    i, record.(state := REVOKED));
    }
  }

  lemma InstanceKnown(s: World, i: Id)
    ensures Inv(s) && i in s.rows.instances ==> InstanceOk(s.rows, s.uuids, i)
  {
  }

  lemma ReleaseInstanceKeeps(s: World, i: Id)
    ensures Inv(s) ==> Inv(s.(rows := ReleaseInstanceTx(s.rows, i)))
  {
    hide Inv;
    InstanceKnown(s, i);
    if Inv(s) && i in s.rows.instances && s.rows.instances[i].state != REGISTERED {
      InstanceKeeps(s, i, s.rows.instances[i].(state := RELEASED));
    }
  }

  lemma SuperviseKeeps(s: World, runId: Id, i: Id)
    ensures Inv(s) ==> Inv(s.(rows := SuperviseTx(s.rows, runId, i, s.now)))
  {
    hide Inv, Reclaimed;
    if runId in s.rows.runs && runId in s.rows.tasks && s.rows.tasks[runId].status == RUNNING {
      ReclaimedKeeps(s, runId);
    }
  }

  lemma AttachKeeps(s: World, runId: Id, i: Id, owner: Owner)
    ensures Inv(s) ==> Inv(s.(rows := AttachTx(s.rows, runId, i, owner, s.now).0))
  {
    hide Inv;
    InstanceKnown(s, i);
    InvAt(s, runId);
    if Inv(s) && AttachTx(s.rows, runId, i, owner, s.now).1.Success? {
      InstanceKeeps(s, i, s.rows.instances[i].(token := Some(owner.token), epoch := owner.epoch));
    }
  }

  lemma RegisterKeeps(s: World, runId: Id)
    ensures Inv(s) ==> Inv(s.(rows := RegisterTx(s.rows, s.uuids, runId, s.now), uuids := s.uuids + 1))
  {
    hide Inv;
    InvAt(s, runId);
    UuidsKeep(s);
    if Inv(s) && runId in s.rows.runs {
      InstanceKeeps(s.(uuids := s.uuids + 1), s.uuids, Instance(runId, None, 0, s.now, REGISTERED));
    }
  }

  // ---------------------------------------------------------------- steps beside the runs

  lemma UuidsKeep(s: World)
    ensures Inv(s) ==> Inv(s.(uuids := s.uuids + 1))
  {
    var s' := s.(uuids := s.uuids + 1);
    hide MeterOk;
    if Inv(s) {
      forall id | id in s'.rows.runs ensures RunOk(s', id) {
        assert RunOk(s, id);
      }
      forall sid | sid in s'.rows.sessions ensures SessionOk(s'.rows, s'.uuids, sid) {
        assert SessionOk(s.rows, s.uuids, sid);
      }
      forall i | i in s'.rows.instances ensures InstanceOk(s'.rows, s'.uuids, i) {
        assert InstanceOk(s.rows, s.uuids, i);
      }
    }
  }

  lemma DeliveriesKeep(s: World, deliveries: map<Id, Delivery>)
    ensures Inv(s) ==> Inv(s.(rows := s.rows.(deliveries := deliveries)))
  {
    var s' := s.(rows := s.rows.(deliveries := deliveries));
    hide MeterOk, TaskOk;
    if Inv(s) {
      forall id | id in s'.rows.runs ensures RunOk(s', id) {
        assert RunOk(s, id);
      }
      forall sid | sid in s'.rows.sessions ensures SessionOk(s'.rows, s'.uuids, sid) {
        assert SessionOk(s.rows, s.uuids, sid);
      }
      forall i | i in s'.rows.instances ensures InstanceOk(s'.rows, s'.uuids, i) {
        assert InstanceOk(s.rows, s.uuids, i);
      }
    }
  }

  lemma TickKeeps(s: World, ms: nat)
    ensures Inv(s) ==> Inv(s.(now := s.now + ms))
  {
    var s' := s.(now := s.now + ms);
    hide Charged, TaskOk, WithinClosing, IdentityOk, SessionsOk, InstancesOk, IndexesOk;
    if Inv(s) {
      forall id | id in s'.rows.runs ensures RunOk(s', id) {
        assert RunOk(s, id);
        ChargedLater(s.rows.runs[id].meter, s.rows.runs[id].config.activeMs, Cleanups(s, id), s.now, s'.now);
      }
    }
  }

  /** Sessions open and close without touching a queue. */
  lemma SessionChangeRuns(s: World, sid: Id, session: Session)
    requires sid in s.rows.sessions ==>
               session.nextSeq == s.rows.sessions[sid].nextSeq &&
               session.lastResolved == s.rows.sessions[sid].lastResolved
    ensures RunsOk(s) ==> RunsOk(s.(rows := s.rows.(sessions := s.rows.sessions[sid := session])))
  {
    var s' := s.(rows := s.rows.(sessions := s.rows.sessions[sid := session]));
    hide MeterOk;
    if RunsOk(s) {
      forall id | id in s'.rows.runs ensures RunOk(s', id) {
        assert RunOk(s, id);
      }
    }
  }

  lemma SessionChangeKeeps(s: World, sid: Id, session: Session)
    requires sid < s.uuids
    requires if sid in s.rows.sessions
             then session.nextSeq == s.rows.sessions[sid].nextSeq &&
                  session.lastResolved == s.rows.sessions[sid].lastResolved
             else session.nextSeq == 1 && session.lastResolved == 0
    ensures Inv(s) ==> Inv(s.(rows := s.rows.(sessions := s.rows.sessions[sid := session])))
  {
    var s' := s.(rows := s.rows.(sessions := s.rows.sessions[sid := session]));
    hide RunsOk;
    SessionChangeRuns(s, sid, session);
    if Inv(s) {
      forall t | t in s'.rows.sessions ensures SessionOk(s'.rows, s'.uuids, t) {
        if t in s.rows.sessions {
          assert SessionOk(s.rows, s.uuids, t);
        }
      }
      forall i | i in s'.rows.instances ensures InstanceOk(s'.rows, s'.uuids, i) {
        assert InstanceOk(s.rows, s.uuids, i);
      }
    }
  }

  lemma RunIdsBelow(s: World)
    ensures RunsOk(s) ==> s.uuids !in s.rows.runs
  {
    hide MeterOk, TaskOk;
    if RunsOk(s) {
      forall id | id in s.rows.runs ensures id < s.uuids {
        assert RunOk(s, id);
      }
    }
  }

  lemma FreshIds(s: World)
    ensures Inv(s) ==> s.uuids !in s.rows.runs && s.uuids !in s.rows.sessions && s.uuids !in s.rows.instances
    ensures Inv(s) ==> forall sid :: sid in s.rows.sessions ==> sid < s.uuids
  {
    hide MeterOk, TaskOk;
    RunIdsBelow(s);
    if Inv(s) {
      forall i | i in s.rows.instances ensures i < s.uuids {
        assert InstanceOk(s.rows, s.uuids, i);
      }
      forall sid | sid in s.rows.sessions ensures sid < s.uuids {
        assert SessionOk(s.rows, s.uuids, sid);
      }
    }
  }

  // ---------------------------------------------------------------- enqueue

  function Enqueued(s: World, sid: Id, input: Input, version: GraphVersion): World
    requires sid in s.rows.sessions
  {
    s.(rows := Joined(s.rows, s.uuids, sid, input, version), uuids := s.uuids + 1)
  }

  lemma EnqueueKeeps(s: World, sid: Id, buyer: Id, input: Input)
    ensures Inv(s) ==> Inv(s.(rows := EnqueueTx(s.rows, s.uuids, sid, buyer, input).0, uuids := s.uuids + 1))
  {
    hide Inv, Joined;
    UuidsKeep(s);
    if Inv(s) && Accepts(s.rows, sid, buyer, input) && (sid, input.requestId) !in s.rows.byRequest {
      var session := s.rows.sessions[sid];
      if session.nextSeq - session.lastResolved <= MAX_UNRESOLVED &&
         ConfigOk(input.config, session.version, input.semantic) {
        JoinedKeeps(s, sid, input, session.version.value);
      }
    }
  }

  lemma JoinedKeeps(s: World, sid: Id, input: Input, version: GraphVersion)
    requires sid in s.rows.sessions && 0 < input.config.activeMs <= MAX_ACTIVE_MS
    requires s.rows.sessions[sid].nextSeq - s.rows.sessions[sid].lastResolved <= MAX_UNRESOLVED
    requires (sid, input.requestId) !in s.rows.byRequest
    ensures Inv(s) ==> Inv(Enqueued(s, sid, input, version))
  {
    hide RunsOk, IndexesOk, SessionsOk, InstancesOk, Joined;
    if Inv(s) {
      JoinedRuns(s, sid, input, version);
      JoinedIndexes(s, sid, input, version);
      JoinedSessions(s, sid, input, version);
      JoinedInstances(s, sid, input, version);
    }
  }

  lemma JoinedRuns(s: World, sid: Id, input: Input, version: GraphVersion)
    requires sid in s.rows.sessions && 0 < input.config.activeMs <= MAX_ACTIVE_MS
    requires (sid, input.requestId) !in s.rows.byRequest
    ensures RunsOk(s) && SessionsOk(s.rows, s.uuids) ==> RunsOk(Enqueued(s, sid, input, version))
  {
    var s' := Enqueued(s, sid, input, version);
    hide IndexesOk, InstancesOk, RunsOk;
    RunIdsBelow(s);
    if RunsOk(s) && SessionsOk(s.rows, s.uuids) {
      assert SessionOk(s.rows, s.uuids, sid);
      forall id | id in s'.rows.runs ensures RunOk(s', id) {
        if id == s.uuids {
          NewRunOk(s, sid, input, version);
        } else {
          RunAt(s, id);
          OldRunOk(s, sid, input, version, id);
        }
      }
    }
  }

  lemma RunAt(s: World, id: Id)
    ensures RunsOk(s) && id in s.rows.runs ==> RunOk(s, id)
  {
  }

  lemma NewRunOk(s: World, sid: Id, input: Input, version: GraphVersion)
    requires sid in s.rows.sessions && 0 < input.config.activeMs <= MAX_ACTIVE_MS && s.uuids !in s.rows.runs
    requires SessionOk(s.rows, s.uuids, sid)
    ensures RunOk(Enqueued(s, sid, input, version), s.uuids)
  {
  }

  lemma OldRunOk(s: World, sid: Id, input: Input, version: GraphVersion, id: Id)
    requires sid in s.rows.sessions && (sid, input.requestId) !in s.rows.byRequest && s.uuids !in s.rows.runs
    requires id in s.rows.runs && RunOk(s, id)
    ensures RunOk(Enqueued(s, sid, input, version), id)
  {
    hide MeterOk;
  }

  lemma JoinedIndexes(s: World, sid: Id, input: Input, version: GraphVersion)
    requires sid in s.rows.sessions
    ensures RunsOk(s) && IndexesOk(s.rows) ==> IndexesOk(Enqueued(s, sid, input, version).rows)
  {
    hide MeterOk, TaskOk, RunsOk;
    RunIdsBelow(s);
    if RunsOk(s) && IndexesOk(s.rows) {
      var rows' := Joined(s.rows, s.uuids, sid, input, version);
      forall t, q | (t, q) in rows'.bySeq
        ensures && rows'.bySeq[(t, q)] in rows'.runs
                && rows'.runs[rows'.bySeq[(t, q)]].sessionId == t
                && rows'.runs[rows'.bySeq[(t, q)]].inputSeq == q
      {
      }
      forall t, r | (t, r) in rows'.byRequest
        ensures && rows'.byRequest[(t, r)] in rows'.runs
                && rows'.runs[rows'.byRequest[(t, r)]].sessionId == t
                && rows'.runs[rows'.byRequest[(t, r)]].requestId == r
      {
      }
    }
  }

  lemma JoinedSessions(s: World, sid: Id, input: Input, version: GraphVersion)
    requires sid in s.rows.sessions
    requires s.rows.sessions[sid].nextSeq - s.rows.sessions[sid].lastResolved <= MAX_UNRESOLVED
    ensures SessionsOk(s.rows, s.uuids) ==> SessionsOk(Enqueued(s, sid, input, version).rows, s.uuids + 1)
  {
    if SessionsOk(s.rows, s.uuids) {
      var rows' := Joined(s.rows, s.uuids, sid, input, version);
      forall t | t in rows'.sessions ensures SessionOk(rows', s.uuids + 1, t) {
        assert SessionOk(s.rows, s.uuids, t);
      }
    }
  }

  lemma JoinedInstances(s: World, sid: Id, input: Input, version: GraphVersion)
    requires sid in s.rows.sessions
    ensures RunsOk(s) && InstancesOk(s.rows, s.uuids) ==>
                InstancesOk(Enqueued(s, sid, input, version).rows, s.uuids + 1)
  {
    hide MeterOk, TaskOk, RunsOk;
    RunIdsBelow(s);
    if RunsOk(s) && InstancesOk(s.rows, s.uuids) {
      var rows' := Joined(s.rows, s.uuids, sid, input, version);
      forall i | i in rows'.instances ensures InstanceOk(rows', s.uuids + 1, i) {
        assert InstanceOk(s.rows, s.uuids, i);
      }
    }
  }

  // ---------------------------------------------------------------- every step, every run

  lemma NextKeeps(s: World, step: Step)
    ensures Inv(s) ==> Inv(Next(s, step))
  {
    hide Inv, ClaimTx, ReleaseTx, HeartbeatTx, FinalizeTx, RevokeInstanceTx, ReleaseInstanceTx, SuperviseTx,
         RecoverTx, AttachTx, RegisterTx, EnqueueTx, Owns;
    match step
    case OpenSession(buyer, version) =>
      FreshIds(s);
      UuidsKeep(s);
      if Inv(s) {
        SessionChangeKeeps(s.(uuids := s.uuids + 1), s.uuids, Session(buyer, version, false, 1, 0));
      }
    case Archive(sid) =>
      FreshIds(s);
      if Inv(s) && sid in s.rows.sessions {
        SessionChangeKeeps(s, sid, s.rows.sessions[sid].(archived := true));
      }
    case Enqueue(sid, buyer, input) => EnqueueKeeps(s, sid, buyer, input);
    case Claim(runId) => ClaimKeeps(s, runId);
    case Release(runId, owner, recovery) => ReleaseKeeps(s, runId, owner, recovery);
    case Heartbeat(runId, owner) => HeartbeatKeeps(s, runId, owner);
    case Finalize(runId, owner, end) => FinalizeKeeps(s, runId, owner, end);
    case Register(runId) => RegisterKeeps(s, runId);
    case Attach(runId, instance, owner) => AttachKeeps(s, runId, instance, owner);
    case RevokeInstance(instance, force) => RevokeInstanceKeeps(s, instance, force);
    case ReleaseInstance(instance) => ReleaseInstanceKeeps(s, instance);
    case Supervise(runId, instance) => SuperviseKeeps(s, runId, instance);
    case Recover(runId, action) => RecoverKeeps(s, runId, action);
    case Deliver(runId, owner) => DeliveriesKeep(s, DeliverTx(s.rows, runId, owner, s.now).deliveries);
    case Publish(runId) =>
      UuidsKeep(s);
      DeliveriesKeep(s.(uuids := s.uuids + 1), PublishTx(s.rows, runId, s.uuids).deliveries);
    case Tick(ms) => TickKeeps(s, ms);
  }

  lemma InitHolds(now: int)
    ensures Inv(Init(now))
  {
  }

  lemma {:induction false} ExecKeeps(s: World, steps: seq<Step>)
    requires Inv(s)
    ensures Inv(Exec(s, steps))
    decreases |steps|
  {
    hide Inv, Next;
    if steps != [] {
      NextKeeps(s, steps[0]);
      ExecKeeps(Next(s, steps[0]), steps[1..]);
    }
  }
}
