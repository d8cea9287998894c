/** What the production queue guarantees in every world that any run can reach. */
module QueueTheorems {
  import opened Outcomes
  import opened Recovery
  import opened Activity
  import opened QueueRows
  import opened QueueMachine
  import opened QueueSafety

  // ---------------------------------------------------------------- order

  /** Inputs carry exactly the numbers 1 to next - 1, at most 20 of them unresolved; those up to
      the cursor and no others have succeeded; only the head can be running, and exactly the
      running one has a lease. */
  ghost predicate QueueInOrder(rows: Rows) {
    && (forall sid :: sid in rows.sessions ==>
          var session := rows.sessions[sid];
          && 0 <= session.nextSeq - 1 - session.lastResolved <= 20
          && (forall q :: 1 <= q < session.nextSeq ==> IsNumbered(rows, sid, q)))
    && (forall id :: id in rows.runs ==>
          && id in rows.tasks
          && rows.runs[id].sessionId in rows.sessions
          && 1 <= rows.runs[id].inputSeq < rows.sessions[rows.runs[id].sessionId].nextSeq
          && (rows.tasks[id].status == SUCCEEDED <==>
                rows.runs[id].inputSeq <= rows.sessions[rows.runs[id].sessionId].lastResolved)
          && (rows.tasks[id].token.Some? <==> rows.tasks[id].status == RUNNING)
          && (rows.tasks[id].status == RUNNING ==> IsHead(rows, id)))
    && (forall a, b :: a in rows.runs && b in rows.runs && a != b && rows.runs[a].sessionId == rows.runs[b].sessionId
          ==> rows.runs[a].inputSeq != rows.runs[b].inputSeq && rows.runs[a].requestId != rows.runs[b].requestId)
  }

  predicate HasNumber(rows: Rows, id: Id, sid: Id, q: nat) {
    id in rows.runs && rows.runs[id].sessionId == sid && rows.runs[id].inputSeq == q
  }

  ghost predicate IsNumbered(rows: Rows, sid: Id, q: nat) {
    exists id :: HasNumber(rows, id, sid, q)
  }

  lemma Reachable(now: int, steps: seq<Step>)
    ensures Inv(Exec(Init(now), steps))
  {
    InitHolds(now);
    hide Inv;
    ExecKeeps(Init(now), steps);
  }

  lemma OrderFollows(s: World)
    requires Inv(s)
    ensures QueueInOrder(s.rows)
  {
    hide MeterOk, InstancesOk;
    forall sid | sid in s.rows.sessions
      ensures 0 <= s.rows.sessions[sid].nextSeq - 1 - s.rows.sessions[sid].lastResolved <= 20
      ensures forall q :: 1 <= q < s.rows.sessions[sid].nextSeq ==> IsNumbered(s.rows, sid, q)
    {
      assert SessionOk(s.rows, s.uuids, sid);
      forall q | 1 <= q < s.rows.sessions[sid].nextSeq ensures IsNumbered(s.rows, sid, q) {
        assert HasNumber(s.rows, s.rows.bySeq[(sid, q)], sid, q);
      }
    }
    forall id | id in s.rows.runs ensures RunOk(s, id) {
    }
    hide SessionsOk;
    forall a, b | a in s.rows.runs && b in s.rows.runs && a != b && s.rows.runs[a].sessionId == s.rows.runs[b].sessionId
      ensures s.rows.runs[a].inputSeq != s.rows.runs[b].inputSeq && s.rows.runs[a].requestId != s.rows.runs[b].requestId
    {
      assert RunOk(s, a) && RunOk(s, b);
    }
  }

  lemma QueueStaysInOrder(now: int, steps: seq<Step>)
    ensures QueueInOrder(Exec(Init(now), steps).rows)
  {
    Reachable(now, steps);
    hide Inv, QueueInOrder, Exec, Init;
    OrderFollows(Exec(Init(now), steps));
  }

  // ---------------------------------------------------------------- how one run can move

  datatype Row = Row(run: Run, task: Task)

  function RowOf(rows: Rows, id: Id): Row
    requires id in rows.runs && id in rows.tasks
  {
    Row(rows.runs[id], rows.tasks[id])
  }

  function Budget(row: Row): int {
    row.run.config.activeMs
  }

  /** The live owner's lease is extended. */
  predicate Extended(row: Row, row': Row, reply: Option<int>, now: int) {
    && Live(row.task.leaseUntil, now)
    && Live(row'.task.leaseUntil, now)
    && row'.run == row.run.(meter := Beaten(row.run.meter, Budget(row), reply, now))
    && row'.task == row.task.(leaseUntil := row'.run.meter.until)
  }

  /** The run loses its owner, who was live or was fenced off, and its time is settled. */
  predicate Stopped(row: Row, row': Row, now: int) {
    && row.task.status == RUNNING
    && row'.run.meter == Settled(row.run.meter, Budget(row), now)
    && row'.task.token.None?
    && (row'.task.status == RETRY_WAIT || row'.task.status == SUCCEEDED)
  }

  /** A claim that the database accepted. */
  predicate Decided(s: World, id: Id, row': Row)
    requires id in s.rows.runs && id in s.rows.tasks
  {
    && Claimable(s.rows, id, s.now)
    && TaskLegal(row'.task)
    && ClaimDecision(s.rows, s.uuids, id, s.now).0 == row'.run
    && ClaimDecision(s.rows, s.uuids, id, s.now).1 == row'.task
  }

  /** The seller puts the run back in the queue. */
  predicate Recovered(row: Row, row': Row) {
    row'.run == row.run.(recoveryRequired := false) && row'.task.token.None?
  }

  /** Everything that a step can do to a run that exists. */
  predicate MovedTo(s: World, step: Step, id: Id, row': Row)
    requires id in s.rows.runs && id in s.rows.tasks
  {
    var row := RowOf(s.rows, id);
    || row' == row
    || (step == Claim(id) && Decided(s, id, row'))
    || Extended(row, row', Reply(s.rows, id), s.now)
    || Stopped(row, row', s.now)
    || (step.Recover? && step.runId == id && Recovered(row, row'))
  }

  predicate Moved(s: World, step: Step, id: Id)
    requires id in s.rows.runs && id in s.rows.tasks
  {
    var next := Next(s, step).rows;
    id in next.runs && id in next.tasks && MovedTo(s, step, id, RowOf(next, id))
  }

  lemma ReleaseStops(rows: Rows, runId: Id, owner: Owner, recovery: bool, now: int, id: Id)
    requires id in rows.runs && id in rows.tasks
    ensures var rows' := ReleaseTx(rows, runId, owner, recovery, now).0;
            && id in rows'.runs && id in rows'.tasks
            && (RowOf(rows', id) == RowOf(rows, id) || Stopped(RowOf(rows, id), RowOf(rows', id), now))
  {
    hide Settled;
  }

  lemma HeartbeatExtends(rows: Rows, runId: Id, owner: Owner, now: int, id: Id)
    requires id in rows.runs && id in rows.tasks
    ensures var rows' := HeartbeatTx(rows, runId, owner, now).0;
            && id in rows'.runs && id in rows'.tasks
            && (RowOf(rows', id) == RowOf(rows, id) ||
                Extended(RowOf(rows, id), RowOf(rows', id), Reply(rows, id), now))
  {
    hide LeaseEnd, TaskLegal;
  }

  lemma RevokeStops(rows: Rows, instance: Id, force: bool, now: int, id: Id)
    requires id in rows.runs && id in rows.tasks
    ensures var rows' := RevokeInstanceTx(rows, instance, force, now).0;
            && id in rows'.runs && id in rows'.tasks
            && (RowOf(rows', id) == RowOf(rows, id) || Stopped(RowOf(rows, id), RowOf(rows', id), now))
  {
    hide Settled, StillActive;
  }

  lemma OwnerMoved(s: World, step: Step, id: Id)
    requires id in s.rows.runs && id in s.rows.tasks && (step.Release? || step.Heartbeat? || step.RevokeInstance?)
    ensures Moved(s, step, id)
  {
    hide ReleaseTx, HeartbeatTx, RevokeInstanceTx, Decided, Stopped, Extended;
    match step
    case Release(runId, owner, recovery) => ReleaseStops(s.rows, runId, owner, recovery, s.now, id);
    case Heartbeat(runId, owner) => HeartbeatExtends(s.rows, runId, owner, s.now, id);
    case RevokeInstance(instance, force) => RevokeStops(s.rows, instance, force, s.now, id);
  }

  lemma FinalizeStops(rows: Rows, runId: Id, owner: Owner, end: EndState, now: int, id: Id)
    requires id in rows.runs && id in rows.tasks
    ensures var rows' := FinalizeTx(rows, runId, owner, end, now).0;
            && id in rows'.runs && id in rows'.tasks
            && (RowOf(rows', id) == RowOf(rows, id) || Stopped(RowOf(rows, id), RowOf(rows', id), now))
  {
    hide Settled, EndMatches, Published;
  }

  lemma FinalizeMoved(s: World, step: Step, id: Id)
    requires id in s.rows.runs && id in s.rows.tasks && step.Finalize?
    ensures Moved(s, step, id)
  {
    hide FinalizeTx, Decided, Extended, Stopped;
    FinalizeStops(s.rows, step.runId, step.owner, step.end, s.now, id);
  }

  lemma ClaimMoved(s: World, step: Step, id: Id)
    requires id in s.rows.runs && id in s.rows.tasks && id != s.uuids && step.Claim?
    ensures Moved(s, step, id)
  {
    hide ClaimDecision, Claimable, CleanupOnly, Extended, Stopped;
  }

  lemma RecoverMoved(s: World, step: Step, id: Id)
    requires id in s.rows.runs && id in s.rows.tasks && id != s.uuids && step.Recover?
    ensures Moved(s, step, id)
  {
  }

  lemma SuperviseMoved(s: World, step: Step, id: Id)
    requires id in s.rows.runs && id in s.rows.tasks && step.Supervise?
    ensures Moved(s, step, id)
  {
    hide Settled, Decided, Extended;
  }

  lemma OtherMoved(s: World, step: Step, id: Id)
    requires id in s.rows.runs && id in s.rows.tasks && id != s.uuids
    requires !(step.Release? || step.Heartbeat? || step.Finalize? || step.Claim? || step.Recover?)
    requires !step.RevokeInstance? && !step.Supervise?
    ensures Moved(s, step, id)
  {
    hide AttachTx, RegisterTx, ReleaseInstanceTx, DeliverTx, PublishTx, EnqueueTx, Decided, Extended, Stopped;
    OtherTables(s, step, id);
  }

  /** The other transactions leave the rows of runs that exist alone. */
  lemma OtherTables(s: World, step: Step, id: Id)
    requires id in s.rows.runs && id in s.rows.tasks && id != s.uuids
    ensures step.Attach? ==>
              var rows := AttachTx(s.rows, step.runId, step.instance, step.owner, s.now).0;
              rows.runs == s.rows.runs && rows.tasks == s.rows.tasks
    ensures step.Register? ==>
              var rows := RegisterTx(s.rows, s.uuids, step.runId, s.now);
              rows.runs == s.rows.runs && rows.tasks == s.rows.tasks
    ensures step.ReleaseInstance? ==>
              var rows := ReleaseInstanceTx(s.rows, step.instance);
              rows.runs == s.rows.runs && rows.tasks == s.rows.tasks
    ensures step.Deliver? ==>
              var rows := DeliverTx(s.rows, step.runId, step.owner, s.now);
              rows.runs == s.rows.runs && rows.tasks == s.rows.tasks
    ensures step.Publish? ==>
              var rows := PublishTx(s.rows, step.runId, s.uuids);
              rows.runs == s.rows.runs && rows.tasks == s.rows.tasks
    ensures step.Enqueue? ==>
              var rows := EnqueueTx(s.rows, s.uuids, step.sid, step.buyer, step.input).0;
              id in rows.runs && id in rows.tasks && RowOf(rows, id) == RowOf(s.rows, id)
  {
    hide Accepts, ConfigOk, Owns;
  }

  lemma EveryStepMoves(s: World, step: Step, id: Id)
    requires Inv(s) && id in s.rows.runs
    ensures id in s.rows.tasks && Moved(s, step, id)
  {
    InvAt(s, id);
    hide Inv, Moved, MeterOk, TaskOk;
    match step
    case Claim(_) => ClaimMoved(s, step, id);
    case Recover(_, _) => RecoverMoved(s, step, id);
    case Release(_, _, _) => OwnerMoved(s, step, id);
    case Heartbeat(_, _) => OwnerMoved(s, step, id);
    case Finalize(_, _, _) => FinalizeMoved(s, step, id);
    case RevokeInstance(_, _) => OwnerMoved(s, step, id);
    case Supervise(_, _) => SuperviseMoved(s, step, id);
    case _ => OtherMoved(s, step, id);
  }

  // ---------------------------------------------------------------- fencing

  /** The owner got its token some time ago and the run does not accept it now. */
  predicate Fenced(s: World, id: Id, owner: Owner) {
    && id in s.rows.runs
    && owner.token < s.uuids
    && !Owns(s.rows, id, owner, s.now)
  }

  lemma UuidsGrow(s: World, step: Step)
    ensures s.uuids <= Next(s, step).uuids && s.now <= Next(s, step).now
  {
    hide ClaimTx, ReleaseTx, HeartbeatTx, FinalizeTx, RevokeInstanceTx, ReleaseInstanceTx, SuperviseTx, RecoverTx,
         AttachTx, RegisterTx, EnqueueTx, DeliverTx, PublishTx;
  }

  predicate Holds(row: Row, owner: Owner, now: int) {
    Matches(row.task, owner) && Live(row.task.leaseUntil, now)
  }

  lemma MoveFences(s: World, step: Step, id: Id, row': Row, owner: Owner, later: int)
    requires id in s.rows.runs && id in s.rows.tasks && MovedTo(s, step, id, row') && s.now <= later
    requires owner.token < s.uuids && !Holds(RowOf(s.rows, id), owner, s.now)
    ensures !Holds(row', owner, later)
  {
    hide ClaimMeter, Settled, LeaseEnd, Claimable;
  }

  /** Released, revoked, expired, reclaimed or resolved: no step brings an owner back. */
  lemma FencedStays(s: World, step: Step, id: Id, owner: Owner)
    requires Inv(s) && Fenced(s, id, owner)
    ensures Fenced(Next(s, step), id, owner)
  {
    EveryStepMoves(s, step, id);
    UuidsGrow(s, step);
    hide Inv, Next, MovedTo;
    MoveFences(s, step, id, RowOf(Next(s, step).rows, id), owner, Next(s, step).now);
  }

  lemma {:induction false} FencedForever(s: World, steps: seq<Step>, id: Id, owner: Owner)
    requires Inv(s) && Fenced(s, id, owner)
    ensures Fenced(Exec(s, steps), id, owner)
    decreases |steps|
  {
    hide Inv, Next, Fenced;
    if steps != [] {
      NextKeeps(s, steps[0]);
      FencedStays(s, steps[0], id, owner);
      FencedForever(Next(s, steps[0]), steps[1..], id, owner);
    }
  }

  lemma LostOwnershipIsLostForGood(now: int, before: seq<Step>, after: seq<Step>, id: Id, owner: Owner)
    ensures var s := Exec(Init(now), before);
            Fenced(s, id, owner) ==> Fenced(Exec(s, after), id, owner)
  {
    Reachable(now, before);
    hide Inv, Init, Fenced;
    if Fenced(Exec(Init(now), before), id, owner) {
      FencedForever(Exec(Init(now), before), after, id, owner);
    }
  }

  /** Once an instance is marked revoked its owner can never write again, so the connection that
      is terminated afterwards, before the instance is marked released, is a fenced one. */
  lemma RevokedInstanceIsFenced(now: int, before: seq<Step>, after: seq<Step>, i: Id)
    ensures var s := Exec(Init(now), before);
            i in s.rows.instances && s.rows.instances[i].state != REGISTERED && s.rows.instances[i].token.Some? ==>
              var record := s.rows.instances[i];
              Fenced(Exec(s, after), record.runId, Owner(record.token.value, record.epoch))
  {
    Reachable(now, before);
    var s := Exec(Init(now), before);
    hide Init, Exec, Inv;
    InstanceKnown(s, i);
    if i in s.rows.instances && s.rows.instances[i].state != REGISTERED && s.rows.instances[i].token.Some? {
      var record := s.rows.instances[i];
      FencedForever(s, after, record.runId, Owner(record.token.value, record.epoch));
    }
  }

  // ---------------------------------------------------------------- time

  /** Whatever happens to a run, at any instant less than its ceiling is charged to it. A live
      lease without claims that only clean up ends within the frozen closing deadline. It ends by
      the time the supervisor stops the process, exactly unless there is a reply to deliver and the
      frozen closing deadline let it pass the closing window of that reply. */
  lemma ActiveTimeIsBounded(now: int, steps: seq<Step>, id: Id, at: int)
    ensures var s := Exec(Init(now), steps);
            id in s.rows.runs ==>
              && id in s.rows.tasks
              && UsedMs(s.rows.runs[id].meter, at) < s.rows.runs[id].config.activeMs + 30000 + 15000 * Cleanups(s, id)
              && (s.rows.tasks[id].leaseUntil.Some? && Cleanups(s, id) == 0 ==> LeaseIsBounded(s.rows, id))
  {
    LeasesInEveryRun(now, steps, id);
    Reachable(now, steps);
    var s := Exec(Init(now), steps);
    hide Init, Exec, Inv, LeaseOk;
    InvAt(s, id);
    if id in s.rows.runs {
      RunIsBounded(s, id, at);
    }
  }

  predicate LeaseIsBounded(rows: Rows, id: Id)
    requires id in rows.runs && id in rows.tasks && rows.tasks[id].leaseUntil.Some?
  {
    var meter := rows.runs[id].meter;
    var end := rows.tasks[id].leaseUntil.value;
    var reply := Reply(rows, id);
    var kill := KillTime(meter, rows.runs[id].config.activeMs, reply);
    && (meter.closing.Some? ==> end <= meter.closing.value)
    && kill.Some?
    && (end <= kill.value <==> (meter.closing.Some? && reply.Some? ==> end <= reply.value + 15000))
  }

  lemma RunIsBounded(s: World, id: Id, at: int)
    requires id in s.rows.runs && RunOk(s, id) && LeaseOk(s, id)
    ensures id in s.rows.tasks
    ensures UsedMs(s.rows.runs[id].meter, at) < s.rows.runs[id].config.activeMs + 30000 + 15000 * Cleanups(s, id)
    ensures s.rows.tasks[id].leaseUntil.Some? && Cleanups(s, id) == 0 ==> LeaseIsBounded(s.rows, id)
  {
    var run := s.rows.runs[id];
    ChargedIsBounded(run.meter, run.config.activeMs, Cleanups(s, id), s.now, at);
    if s.rows.tasks[id].leaseUntil.Some? && Cleanups(s, id) == 0 {
      LeaseEndsByKillTime(run.meter, run.config.activeMs, 0, s.now);
    }
  }

  /** No lease is longer than 30 seconds, and before the closing deadline is frozen, none passes the
      closing window of the reply. */
  predicate LeaseOk(s: World, id: Id) {
    id in s.rows.runs && id in s.rows.tasks && s.rows.tasks[id].leaseUntil.Some? ==>
      var end := s.rows.tasks[id].leaseUntil.value;
      && end <= s.now + 30000
      && (Cleanups(s, id) == 0 && s.rows.runs[id].meter.closing.None? && Reply(s.rows, id).Some? ==>
            end <= Reply(s.rows, id).value + 15000)
  }

  lemma MoveKeepsLease(s: World, s': World, step: Step, id: Id)
    requires id in s.rows.runs && id in s.rows.tasks && id in s'.rows.runs && id in s'.rows.tasks
    requires MovedTo(s, step, id, RowOf(s'.rows, id)) && s.now <= s'.now && LeaseOk(s, id)
    requires TaskLegal(s'.rows.tasks[id]) && Cleanups(s, id) <= Cleanups(s', id)
    requires CleansUp(s, step, id) && s'.rows.tasks[id].leaseUntil.Some? ==> Cleanups(s', id) > 0
    requires ReplyMoves(s, s', id)
    ensures LeaseOk(s', id)
  {
    hide Claimable, Settled, Remaining, CleanupOnly;
  }

  /** The deadline of a reply, once set, stays; a new one is 45 seconds off. */
  predicate ReplyMoves(s: World, s': World, id: Id) {
    || Reply(s'.rows, id) == Reply(s.rows, id)
    || (Reply(s.rows, id).None? && Reply(s'.rows, id) == Some(s.now + 45000) && s'.now == s.now
        && TaskAt(s', id) == TaskAt(s, id) && MeterAt(s', id) == MeterAt(s, id))
  }

  function TaskAt(s: World, id: Id): Option<Task> {
    if id in s.rows.tasks then Some(s.rows.tasks[id]) else None
  }

  function MeterAt(s: World, id: Id): Option<Meter> {
    if id in s.rows.runs then Some(s.rows.runs[id].meter) else None
  }

  lemma StepMovesReply(s: World, step: Step, id: Id)
    ensures ReplyMoves(s, Next(s, step), id)
  {
    hide Owns, Claimable, ClaimDecision, Settled, LeaseEnd, StillActive, EndMatches, Published, Accepts, ConfigOk,
         TaskLegal;
    if step.Claim? {
      ClaimKeepsDeliveries(s.rows, s.uuids, step.runId, s.now);
    }
  }

  /** A claim that is only for cleaning up. */
  predicate CleansUp(s: World, step: Step, id: Id)
    requires id in s.rows.runs && id in s.rows.tasks
  {
    step == Claim(id) && Claimable(s.rows, id, s.now) && CleanupOnly(s.rows, id)
  }

  lemma StepCountsCleanups(s: World, step: Step, id: Id)
    requires Inv(s) && id in s.rows.runs
    ensures id in s.rows.tasks && Cleanups(s, id) <= Cleanups(Next(s, step), id)
    ensures CleansUp(s, step, id) ==>
              var s' := Next(s, step);
              id in s'.rows.tasks && (s'.rows.tasks[id].leaseUntil.Some? ==> Cleanups(s', id) > 0)
  {
    InvAt(s, id);
    hide Inv, MeterOk, CleanupOnly, ClaimMeter;
  }

  lemma StepKeepsLease(s: World, step: Step, id: Id)
    requires Inv(s) && LeaseOk(s, id)
    ensures LeaseOk(Next(s, step), id)
  {
    if id in s.rows.runs {
      EveryStepMoves(s, step, id);
      StepMovesReply(s, step, id);
      StepCountsCleanups(s, step, id);
      UuidsGrow(s, step);
      NextKeeps(s, step);
      InvAt(Next(s, step), id);
      hide Inv, Next, MovedTo, LeaseOk, CleansUp, ReplyMoves, MeterOk;
      MoveKeepsLease(s, Next(s, step), step, id);
    } else {
      NewRunHasNoLease(s, step, id);
    }
  }

  lemma NewRunHasNoLease(s: World, step: Step, id: Id)
    requires id !in s.rows.runs
    ensures LeaseOk(Next(s, step), id)
  {
    hide Owns, Claimable, ClaimDecision, Settled, LeaseEnd, StillActive, EndMatches, Published, Accepts, ConfigOk,
         TaskLegal;
    if step.Claim? {
      ClaimAddsNoRun(s.rows, s.uuids, step.runId, s.now, id);
    }
  }

  lemma ClaimAddsNoRun(rows: Rows, token: Id, runId: Id, now: int, id: Id)
    requires id !in rows.runs
    ensures id !in ClaimTx(rows, token, runId, now).0.runs
  {
    hide ClaimDecision, Claimable;
  }

  lemma {:induction false} LeasesStay(s: World, steps: seq<Step>, id: Id)
    requires Inv(s) && LeaseOk(s, id)
    ensures LeaseOk(Exec(s, steps), id)
    decreases |steps|
  {
    hide Inv, Next, LeaseOk;
    if steps != [] {
      NextKeeps(s, steps[0]);
      StepKeepsLease(s, steps[0], id);
      LeasesStay(Next(s, steps[0]), steps[1..], id);
    }
  }

  lemma LeasesInEveryRun(now: int, steps: seq<Step>, id: Id)
    ensures LeaseOk(Exec(Init(now), steps), id)
  {
    InitHolds(now);
    hide Inv, Exec;
    LeasesStay(Init(now), steps, id);
  }

  /** A step that gives the run a lease: a claim, or a heartbeat of its owner. */
  predicate Grants(s: World, step: Step, id: Id) {
    || (step == Claim(id) && Granted(ClaimTx(s.rows, s.uuids, id, s.now).1))
    || (step.Heartbeat? && step.runId == id && HeartbeatTx(s.rows, id, step.owner, s.now).1.Success?)
  }

  predicate EndsByKillTime(rows: Rows, id: Id)
    requires id in rows.runs && id in rows.tasks && rows.tasks[id].leaseUntil.Some?
  {
    var kill := KillTime(rows.runs[id].meter, rows.runs[id].config.activeMs, Reply(rows, id));
    kill.Some? && rows.tasks[id].leaseUntil.value <= kill.value
  }

  /** The same, seen before the lease is granted and whatever was claimed before: the lease will end
      by the kill time exactly if no closing deadline is frozen, or it ends within the closing window
      of the reply. A claim that only cleans up must start within both of those windows' ends. */
  predicate WillEndByKillTime(s: World, step: Step, id: Id)
    requires id in s.rows.runs
  {
    var run := s.rows.runs[id];
    var reply := Reply(s.rows, id);
    var closing := if step.Claim? then Settled(run.meter, run.config.activeMs, s.now).closing else run.meter.closing;
    if step.Claim? && CleanupOnly(s.rows, id) then
      && (closing.Some? ==> s.now + 15000 <= closing.value)
      && (reply.Some? ==> s.now <= reply.value)
    else !Outlives(closing, reply, s.now)
  }

  lemma ClaimByKillTime(s: World, id: Id)
    requires id in s.rows.runs && RunOk(s, id) && Grants(s, Claim(id), id)
    ensures var rows := Next(s, Claim(id)).rows;
            && id in rows.runs && id in rows.tasks && rows.tasks[id].leaseUntil.Some?
            && (EndsByKillTime(rows, id) <==> WillEndByKillTime(s, Claim(id), id))
  {
    var run := s.rows.runs[id];
    GrantEndsByKillTime(run.meter, run.config.activeMs, Cleanups(s, id), Reply(s.rows, id), s.now,
                        CleanupOnly(s.rows, id));
    ClaimKeepsDeliveries(s.rows, s.uuids, id, s.now);
    hide Charged, Settled, CleanupOnly, KillTime, Outlives, LeaseEnd;
  }

  lemma BeatByKillTime(s: World, id: Id, owner: Owner)
    requires id in s.rows.runs && RunOk(s, id) && Grants(s, Heartbeat(id, owner), id)
    ensures var rows := Next(s, Heartbeat(id, owner)).rows;
            && id in rows.runs && id in rows.tasks && rows.tasks[id].leaseUntil.Some?
            && (EndsByKillTime(rows, id) <==> WillEndByKillTime(s, Heartbeat(id, owner), id))
  {
    var run := s.rows.runs[id];
    BeatEndsByKillTime(run.meter, run.config.activeMs, Cleanups(s, id), Reply(s.rows, id), s.now);
    hide Charged, KillTime, Outlives, LeaseEnd;
  }

  lemma NewLeaseEndsByKillTime(now: int, steps: seq<Step>, step: Step, id: Id)
    ensures var s := Exec(Init(now), steps);
            var rows := Next(s, step).rows;
            id in s.rows.runs && Grants(s, step, id) ==>
              && id in rows.runs && id in rows.tasks && rows.tasks[id].leaseUntil.Some?
              && (EndsByKillTime(rows, id) <==> WillEndByKillTime(s, step, id))
  {
    Reachable(now, steps);
    var s := Exec(Init(now), steps);
    InvAt(s, id);
    hide Inv, Exec, Init, Next, RunOk, EndsByKillTime, WillEndByKillTime;
    if id in s.rows.runs && Grants(s, step, id) {
      if step.Claim? {
        ClaimByKillTime(s, id);
      } else {
        BeatByKillTime(s, id, step.owner);
      }
    }
  }

  lemma MoveKeepsClosing(s: World, step: Step, id: Id, row': Row)
    requires id in s.rows.runs && id in s.rows.tasks && MovedTo(s, step, id, row')
    ensures s.rows.runs[id].meter.closing.Some? ==> row'.run.meter.closing == s.rows.runs[id].meter.closing
  {
    hide Claimable, UsedMs, Remaining, TaskLegal, CleanupOnly;
  }

  /** The closing deadline is written at most once. */
  lemma ClosingStays(s: World, step: Step, id: Id)
    requires Inv(s) && id in s.rows.runs
    ensures id in Next(s, step).rows.runs
    ensures s.rows.runs[id].meter.closing.Some? ==>
              Next(s, step).rows.runs[id].meter.closing == s.rows.runs[id].meter.closing
  {
    EveryStepMoves(s, step, id);
    hide Inv, Next, MovedTo;
    MoveKeepsClosing(s, step, id, RowOf(Next(s, step).rows, id));
  }

  lemma {:induction false} ClosingIsWrittenOnce(s: World, steps: seq<Step>, id: Id)
    requires Inv(s) && id in s.rows.runs && s.rows.runs[id].meter.closing.Some?
    ensures id in Exec(s, steps).rows.runs
    ensures Exec(s, steps).rows.runs[id].meter.closing == s.rows.runs[id].meter.closing
    decreases |steps|
  {
    hide Inv, Next;
    if steps != [] {
      NextKeeps(s, steps[0]);
      ClosingStays(s, steps[0], id);
      ClosingIsWrittenOnce(Next(s, steps[0]), steps[1..], id);
    }
  }

  // ---------------------------------------------------------------- a failed head blocks its session

  /** The head of a session waits for its seller. */
  predicate Blocked(rows: Rows, head: Id) {
    IsHead(rows, head) && head in rows.tasks && rows.runs[head].recoveryRequired
  }

  predicate NoRecovery(steps: seq<Step>, head: Id) {
    forall i :: 0 <= i < |steps| ==> !(steps[i].Recover? && steps[i].runId == head)
  }

  /** No claim of any run of the session is granted. */
  ghost predicate NoClaim(s: World, sid: Id) {
    forall id, token, now :: id in s.rows.runs && s.rows.runs[id].sessionId == sid ==>
      !Granted(ClaimTx(s.rows, token, id, now).1)
  }

  lemma BlockedGrantsNothing(s: World, head: Id)
    requires Inv(s) && Blocked(s.rows, head)
    ensures NoClaim(s, s.rows.runs[head].sessionId)
  {
    hide MeterOk, TaskOk, SessionsOk, InstancesOk, IndexesOk, ClaimDecision;
    forall id, token, now | id in s.rows.runs && s.rows.runs[id].sessionId == s.rows.runs[head].sessionId
      ensures !Granted(ClaimTx(s.rows, token, id, now).1)
    {
      assert RunOk(s, id) && RunOk(s, head);
    }
  }

  lemma CursorMoves(s: World, step: Step, sid: Id)
    requires sid in s.rows.sessions && sid != s.uuids
    ensures var next := Next(s, step).rows;
            && sid in next.sessions
            && (next.sessions[sid].lastResolved == s.rows.sessions[sid].lastResolved
                || (step.Finalize? && step.runId in s.rows.runs && s.rows.runs[step.runId].sessionId == sid
                    && Owns(s.rows, step.runId, step.owner, s.now)))
  {
    hide Accepts, ConfigOk, ClaimDecision, Claimable, Settled, LeaseEnd, StillActive, EndMatches, Published, Owns,
         TaskLegal;
  }

  lemma MoveStaysBlocked(s: World, step: Step, id: Id, row': Row)
    requires id in s.rows.runs && id in s.rows.tasks && MovedTo(s, step, id, row')
    requires s.rows.runs[id].recoveryRequired && s.rows.tasks[id].status != RUNNING
    requires s.rows.tasks[id].leaseUntil.None? && !(step.Recover? && step.runId == id)
    ensures row' == RowOf(s.rows, id)
  {
    hide ClaimDecision, Settled, LeaseEnd;
  }

  lemma BlockedStays(s: World, step: Step, head: Id)
    requires Inv(s) && Blocked(s.rows, head) && !(step.Recover? && step.runId == head)
    ensures Blocked(Next(s, step).rows, head)
    ensures RowOf(Next(s, step).rows, head) == RowOf(s.rows, head)
  {
    var sid := s.rows.runs[head].sessionId;
    EveryStepMoves(s, step, head);
    InvAt(s, head);
    hide MovedTo, Next, Charged, Inv;
    MoveStaysBlocked(s, step, head, RowOf(Next(s, step).rows, head));
    FreshIds(s);
    CursorMoves(s, step, sid);
    OnlyHeadFinalizes(s, step, head);
  }

  /** Only the head can be owned, and a blocked head is not. */
  lemma OnlyHeadFinalizes(s: World, step: Step, head: Id)
    requires Inv(s) && Blocked(s.rows, head)
    ensures step.Finalize? && step.runId in s.rows.runs
            && s.rows.runs[step.runId].sessionId == s.rows.runs[head].sessionId
            ==> !Owns(s.rows, step.runId, step.owner, s.now)
  {
    if step.Finalize? && step.runId in s.rows.runs {
      assert RunOk(s, step.runId) && RunOk(s, head);
    }
  }

  /** Until its seller acts, a blocked head stays as it is, whatever else happens: no run of the
      session is ever claimed. */
  lemma {:induction false} BlockedForever(s: World, steps: seq<Step>, head: Id)
    requires Inv(s) && Blocked(s.rows, head) && NoRecovery(steps, head)
    ensures var after := Exec(s, steps);
            && Blocked(after.rows, head)
            && RowOf(after.rows, head) == RowOf(s.rows, head)
            && NoClaim(after, s.rows.runs[head].sessionId)
    decreases |steps|
  {
    hide Inv, Next, Blocked, NoClaim;
    if steps == [] {
      BlockedGrantsNothing(s, head);
    } else {
      NextKeeps(s, steps[0]);
      BlockedStays(s, steps[0], head);
      assert NoRecovery(steps[1..], head) by {
        forall i | 0 <= i < |steps| - 1 ensures !(steps[1..][i].Recover? && steps[1..][i].runId == head) {
          assert steps[1..][i] == steps[i + 1];
        }
      }
      BlockedForever(Next(s, steps[0]), steps[1..], head);
    }
  }

  // ---------------------------------------------------------------- a head whose time is up

  /** When its time is up, claiming a head marks it failed exactly if it was not waiting to retry.
      A waiting one still carries its retry time, which a failed task must not: the database
      refuses the row, the claim raises, and nothing is changed. */
  lemma SpentHeadFailsUnlessWaiting(rows: Rows, token: Id, id: Id, now: int)
    requires id in rows.runs && id in rows.tasks && TaskLegal(rows.tasks[id])
    requires Claimable(rows, id, now) && ClaimMeter(rows, id, now).1 <= now
    ensures var (rows', r) := ClaimTx(rows, token, id, now);
            if rows.tasks[id].status == RETRY_WAIT
            then r == Failure(IntegrityError) && rows' == rows
            else r == Success(None) && rows'.tasks[id].status == FAILED && rows'.runs[id].recoveryRequired
  {
    hide ClaimMeter;
  }

  /** A waiting head past its closing deadline, with nothing published and not stopped. */
  predicate Spent(s: World, head: Id) {
    && IsHead(s.rows, head)
    && head in s.rows.tasks
    && s.rows.tasks[head].status == RETRY_WAIT
    && s.rows.runs[head].meter.since.None?
    && s.rows.runs[head].meter.closing.Some?
    && s.rows.runs[head].meter.closing.value <= s.now
    && !CleanupOnly(s.rows, head)
  }

  lemma SpentGetsNothing(s: World, step: Step, head: Id, row': Row)
    requires head in s.rows.runs && head in s.rows.tasks && MovedTo(s, step, head, row')
    requires Spent(s, head) && TaskLegal(s.rows.tasks[head]) && !(step.Recover? && step.runId == head)
    ensures row' == RowOf(s.rows, head)
  {
    hide Claimable;
  }

  lemma CleanupOnlyMoves(s: World, step: Step, head: Id)
    requires head in s.rows.tasks && head in s.rows.runs && !CleanupOnly(s.rows, head)
    requires head in Next(s, step).rows.tasks && Next(s, step).rows.tasks[head] == s.rows.tasks[head]
    ensures step == Publish(head) || !CleanupOnly(Next(s, step).rows, head)
  {
    hide ClaimTx, Owns, Claimable, Settled, LeaseEnd, StillActive, EndMatches, Accepts, ConfigOk, TaskLegal;
    if step.Claim? {
      ClaimKeepsDeliveries(s.rows, s.uuids, step.runId, s.now);
    }
  }

  lemma ClaimKeepsDeliveries(rows: Rows, token: Id, id: Id, now: int)
    ensures ClaimTx(rows, token, id, now).0.deliveries == rows.deliveries
    ensures ClaimTx(rows, token, id, now).0.sessions == rows.sessions
  {
    hide ClaimDecision, Claimable;
  }

  predicate LeftAlone(steps: seq<Step>, head: Id) {
    forall i :: 0 <= i < |steps| ==> !(steps[i].Recover? && steps[i].runId == head) && steps[i] != Publish(head)
  }

  lemma TaskIsLegal(s: World, id: Id)
    requires id in s.rows.runs && RunOk(s, id)
    ensures id in s.rows.tasks && TaskLegal(s.rows.tasks[id])
  {
  }

  lemma SpentStays(s: World, step: Step, head: Id)
    requires Inv(s) && Spent(s, head) && !(step.Recover? && step.runId == head) && step != Publish(head)
    ensures Spent(Next(s, step), head)
    ensures RowOf(Next(s, step).rows, head) == RowOf(s.rows, head)
  {
    var sid := s.rows.runs[head].sessionId;
    hide MovedTo, Next, Inv, CleanupOnly, RunOk, Owns;
    EveryStepMoves(s, step, head);
    InvAt(s, head);
    TaskIsLegal(s, head);
    SpentGetsNothing(s, step, head, RowOf(Next(s, step).rows, head));
    FreshIds(s);
    UuidsGrow(s, step);
    CursorMoves(s, step, sid);
    CleanupOnlyMoves(s, step, head);
    WaitingHeadFinalizesNothing(s, step, head);
  }

  lemma WaitingHeadFinalizesNothing(s: World, step: Step, head: Id)
    requires Inv(s) && Spent(s, head)
    ensures step.Finalize? && step.runId in s.rows.runs
            && s.rows.runs[step.runId].sessionId == s.rows.runs[head].sessionId
            ==> !Owns(s.rows, step.runId, step.owner, s.now)
  {
    if step.Finalize? && step.runId in s.rows.runs {
      assert RunOk(s, step.runId) && RunOk(s, head);
    }
  }

  /** So such a head never fails and never runs again: until its seller acts, or its reply goes
      out, it keeps waiting to retry, and every due claim of it raises. */
  lemma {:induction false} SpentForever(s: World, steps: seq<Step>, head: Id)
    requires Inv(s) && Spent(s, head) && LeftAlone(steps, head)
    ensures var after := Exec(s, steps);
            && Spent(after, head)
            && RowOf(after.rows, head) == RowOf(s.rows, head)
            && (Claimable(after.rows, head, after.now) ==>
                  forall token :: ClaimTx(after.rows, token, head, after.now) == (after.rows, Failure(IntegrityError)))
    decreases |steps|
  {
    hide Inv, Next, Spent, LeftAlone;
    if steps == [] {
      SpentClaimRaises(s, head);
    } else {
      LeftAloneTail(steps, head);
      NextKeeps(s, steps[0]);
      SpentStays(s, steps[0], head);
      SpentForever(Next(s, steps[0]), steps[1..], head);
    }
  }

  lemma LeftAloneTail(steps: seq<Step>, head: Id)
    requires steps != [] && LeftAlone(steps, head)
    ensures LeftAlone(steps[1..], head)
    ensures !(steps[0].Recover? && steps[0].runId == head) && steps[0] != Publish(head)
  {
    forall i | 0 <= i < |steps| - 1
      ensures !(steps[1..][i].Recover? && steps[1..][i].runId == head) && steps[1..][i] != Publish(head)
    {
      assert steps[1..][i] == steps[i + 1];
    }
  }

  lemma SpentClaimRaises(s: World, head: Id)
    requires Inv(s) && Spent(s, head)
    ensures Claimable(s.rows, head, s.now) ==>
              forall token :: ClaimTx(s.rows, token, head, s.now) == (s.rows, Failure(IntegrityError))
  {
    InvAt(s, head);
    hide Inv;
    if Claimable(s.rows, head, s.now) {
      forall token ensures ClaimTx(s.rows, token, head, s.now) == (s.rows, Failure(IntegrityError)) {
        SpentHeadFailsUnlessWaiting(s.rows, token, head, s.now);
      }
    }
  }
}
