/** What any step of the production queue needs to resolve a run, to grant or to end a lease, written
    out on the rows themselves. */
module QueueGuards {
  import opened Outcomes
  import opened Recovery
  import opened Activity
  import opened QueueRows
  import opened QueueMachine
  import opened QueueSafety
  import opened QueueTheorems

  // ---------------------------------------------------------------- published replies

  /** A delivery has a message exactly when it is published, and a run succeeded only with one. */
  ghost predicate RepliesOk(rows: Rows) {
    && (forall id :: id in rows.deliveries ==>
          (rows.deliveries[id].published <==> rows.deliveries[id].messageId.Some?))
    && (forall id :: id in rows.tasks && rows.tasks[id].status == SUCCEEDED ==>
          id in rows.deliveries && rows.deliveries[id].published)
  }

  /** A step takes no published reply back and keeps messages and publications together. */
  ghost predicate RepliesKept(rows: Rows, rows': Rows) {
    && (forall id :: id in rows.deliveries && rows.deliveries[id].published ==>
          id in rows'.deliveries && rows'.deliveries[id] == rows.deliveries[id])
    && ((forall id :: id in rows.deliveries ==>
          (rows.deliveries[id].published <==> rows.deliveries[id].messageId.Some?)) ==>
        forall id :: id in rows'.deliveries ==>
          (rows'.deliveries[id].published <==> rows'.deliveries[id].messageId.Some?))
  }

  lemma StepKeepsReplies(s: World, step: Step)
    ensures RepliesKept(s.rows, Next(s, step).rows)
  {
    hide ClaimTx, ReleaseTx, HeartbeatTx, FinalizeTx, RevokeInstanceTx, ReleaseInstanceTx, SuperviseTx, RecoverTx,
         AttachTx, RegisterTx, EnqueueTx, DeliverTx, PublishTx, RepliesKept;
    SameReplies(s.rows);
    match step
    case Claim(runId) => ClaimKeepsDeliveries(s.rows, s.uuids, runId, s.now);
      SameDeliveries(s.rows, Next(s, step).rows);
    case Deliver(runId, owner) => DeliverKeepsReplies(s.rows, runId, owner, s.now);
    case Publish(runId) => PublishKeepsReplies(s.rows, runId, s.uuids);
    case _ =>
      OtherDeliveries(s, step);
      SameDeliveries(s.rows, Next(s, step).rows);
  }

  lemma SameReplies(rows: Rows)
    ensures RepliesKept(rows, rows)
  {
  }

  lemma SameDeliveries(rows: Rows, rows': Rows)
    requires rows'.deliveries == rows.deliveries
    ensures RepliesKept(rows, rows')
  {
  }

  lemma DeliverKeepsReplies(rows: Rows, runId: Id, owner: Owner, now: int)
    ensures RepliesKept(rows, DeliverTx(rows, runId, owner, now))
  {
    hide Owns;
  }

  lemma PublishKeepsReplies(rows: Rows, runId: Id, message: Id)
    ensures RepliesKept(rows, PublishTx(rows, runId, message))
  {
  }

  lemma OtherDeliveries(s: World, step: Step)
    requires !step.Claim? && !step.Deliver? && !step.Publish?
    ensures Next(s, step).rows.deliveries == s.rows.deliveries
  {
    hide ClaimTx, ReleaseTx, HeartbeatTx, FinalizeTx, RevokeInstanceTx, SuperviseTx, RecoverTx, EnqueueTx, AttachTx,
         Owns;
    match step
    case Enqueue(sid, buyer, input) => EnqueueDeliveries(s, sid, buyer, input);
    case Release(runId, owner, recovery) => OwnerDeliveries(s, runId, owner, recovery);
    case Heartbeat(runId, owner) => OwnerDeliveries(s, runId, owner, false);
    case Finalize(runId, owner, end) => EndDeliveries(s, runId, owner, end);
    case RevokeInstance(instance, force) => RevokeDeliveries(s, instance, force);
    case Supervise(runId, instance) => SuperviseDeliveries(s, runId, instance);
    case Recover(runId, action) => RecoverDeliveries(s, runId, action);
    case Attach(runId, instance, owner) => AttachDeliveries(s, runId, instance, owner);
    case _ =>
  }

  lemma EnqueueDeliveries(s: World, sid: Id, buyer: Id, input: Input)
    ensures EnqueueTx(s.rows, s.uuids, sid, buyer, input).0.deliveries == s.rows.deliveries
  {
    hide ConfigOk;
  }

  lemma OwnerDeliveries(s: World, runId: Id, owner: Owner, recovery: bool)
    ensures ReleaseTx(s.rows, runId, owner, recovery, s.now).0.deliveries == s.rows.deliveries
    ensures HeartbeatTx(s.rows, runId, owner, s.now).0.deliveries == s.rows.deliveries
  {
    hide Settled, LeaseEnd, TaskLegal;
  }

  lemma EndDeliveries(s: World, runId: Id, owner: Owner, end: EndState)
    ensures FinalizeTx(s.rows, runId, owner, end, s.now).0.deliveries == s.rows.deliveries
  {
    hide Settled, TaskLegal, EndMatches;
  }

  lemma RevokeDeliveries(s: World, instance: Id, force: bool)
    ensures RevokeInstanceTx(s.rows, instance, force, s.now).0.deliveries == s.rows.deliveries
  {
    hide Settled, StillActive;
  }

  lemma SuperviseDeliveries(s: World, runId: Id, instance: Id)
    ensures SuperviseTx(s.rows, runId, instance, s.now).deliveries == s.rows.deliveries
  {
    hide Settled;
  }

  lemma RecoverDeliveries(s: World, runId: Id, action: ManualAction)
    ensures RecoverTx(s.rows, runId, action, s.now).0.deliveries == s.rows.deliveries
  {
    hide TaskLegal, IsHead;
  }

  lemma AttachDeliveries(s: World, runId: Id, instance: Id, owner: Owner)
    ensures AttachTx(s.rows, runId, instance, owner, s.now).0.deliveries == s.rows.deliveries
  {
  }

  // ---------------------------------------------------------------- resolving a run

  /** The owner of the head shows the end of this very run and the message of its published reply,
      while its lease lasts. */
  predicate ResolvesHead(s: World, step: Step, id: Id) {
    && step.Finalize? && step.runId == id
    && id in s.rows.runs && id in s.rows.tasks
    && var run, task, end := s.rows.runs[id], s.rows.tasks[id], step.end;
       && run.sessionId in s.rows.sessions
       && run.inputSeq == s.rows.sessions[run.sessionId].lastResolved + 1
       && task.status == RUNNING
       && task.token == Some(step.owner.token) && task.epoch == step.owner.epoch
       && task.leaseUntil.Some? && task.leaseUntil.value > s.now
       && end.runId == id && end.inputSeq == run.inputSeq && end.inputHash == run.inputHash
       && end.config == run.config && end.version == run.version && !end.pending
       && id in s.rows.deliveries
       && s.rows.deliveries[id].published
       && s.rows.deliveries[id].messageId == end.messageId
  }

  lemma FinalizeResolves(s: World, runId: Id, owner: Owner, end: EndState, id: Id)
    requires id in s.rows.tasks ==> s.rows.tasks[id].status != SUCCEEDED
    ensures var rows := FinalizeTx(s.rows, runId, owner, end, s.now).0;
            id in rows.tasks && rows.tasks[id].status == SUCCEEDED ==> ResolvesHead(s, Finalize(runId, owner, end), id)
  {
    hide Settled;
  }

  predicate SucceedsNewly(rows: Rows, rows': Rows, id: Id) {
    && id in rows'.tasks && rows'.tasks[id].status == SUCCEEDED
    && (id in rows.tasks ==> rows.tasks[id].status != SUCCEEDED)
  }

  lemma OwnersSucceedNobody(s: World, step: Step, id: Id)
    requires step.Release? || step.Heartbeat? || step.RevokeInstance? || step.Supervise? || step.Recover?
    ensures !SucceedsNewly(s.rows, Next(s, step).rows, id)
  {
    hide Settled, LeaseEnd, StillActive, ClaimTx, FinalizeTx, EnqueueTx;
  }

  lemma ClaimSucceedsNobody(rows: Rows, token: Id, runId: Id, now: int, id: Id)
    ensures !SucceedsNewly(rows, ClaimTx(rows, token, runId, now).0, id)
  {
    hide ClaimMeter, Claimable;
  }

  lemma OthersSucceedNobody(s: World, step: Step, id: Id)
    requires step.Enqueue? || step.Attach? || step.Register? || step.ReleaseInstance? || step.Deliver? || step.Publish?
    ensures !SucceedsNewly(s.rows, Next(s, step).rows, id)
  {
    hide Owns, Accepts, ConfigOk, ClaimTx, FinalizeTx, ReleaseTx, HeartbeatTx, RecoverTx, RevokeInstanceTx, SuperviseTx;
  }

  /** A run succeeds in one way only. */
  lemma SuccessNeedsReply(s: World, step: Step, id: Id)
    ensures SucceedsNewly(s.rows, Next(s, step).rows, id) ==> ResolvesHead(s, step, id)
  {
    hide ResolvesHead, ClaimTx, FinalizeTx, ReleaseTx, HeartbeatTx, RecoverTx, RevokeInstanceTx, SuperviseTx, EnqueueTx,
         AttachTx, RegisterTx, ReleaseInstanceTx, DeliverTx, PublishTx;
    match step
    case Finalize(runId, owner, end) =>
      if id !in s.rows.tasks || s.rows.tasks[id].status != SUCCEEDED {
        FinalizeResolves(s, runId, owner, end, id);
      }
    case Claim(runId) => ClaimSucceedsNobody(s.rows, s.uuids, runId, s.now, id);
    case OpenSession(_, _) =>
    case Archive(_) =>
    case Tick(_) =>
    case _ =>
      if step.Release? || step.Heartbeat? || step.RevokeInstance? || step.Supervise? || step.Recover? {
        OwnersSucceedNobody(s, step, id);
      } else {
        OthersSucceedNobody(s, step, id);
      }
  }

  lemma NextReplies(s: World, step: Step)
    requires RepliesOk(s.rows)
    ensures RepliesOk(Next(s, step).rows)
  {
    hide Next;
    StepKeepsReplies(s, step);
    var rows' := Next(s, step).rows;
    forall id | id in rows'.tasks && rows'.tasks[id].status == SUCCEEDED
      ensures id in rows'.deliveries && rows'.deliveries[id].published
    {
      SuccessNeedsReply(s, step, id);
    }
  }

  lemma {:induction false} ExecReplies(s: World, steps: seq<Step>)
    requires RepliesOk(s.rows)
    ensures RepliesOk(Exec(s, steps).rows)
    decreases |steps|
  {
    hide RepliesOk, Next;
    if steps != [] {
      NextReplies(s, steps[0]);
      ExecReplies(Next(s, steps[0]), steps[1..]);
    }
  }

  /** In every world that any run reaches: a turn that is resolved, be it by its status or because it
      is behind the cursor, has a reply that is out, with its public message. */
  lemma ResolvedTurnsHaveReplies(now: int, steps: seq<Step>, id: Id)
    ensures var rows := Exec(Init(now), steps).rows;
            id in rows.runs ==>
              && id in rows.tasks
              && rows.runs[id].sessionId in rows.sessions
              && (rows.tasks[id].status == SUCCEEDED
                  || rows.runs[id].inputSeq <= rows.sessions[rows.runs[id].sessionId].lastResolved ==>
                    && id in rows.deliveries
                    && rows.deliveries[id].published
                    && rows.deliveries[id].messageId.Some?)
  {
    Reachable(now, steps);
    ExecReplies(Init(now), steps);
    var s := Exec(Init(now), steps);
    InvAt(s, id);
    hide Exec, Init, Inv, MeterOk;
  }

  /** A cursor only ever moves over its head, by a finalize with the message of the head's own
      published reply. */
  lemma CursorsMoveWithTheirReply(now: int, steps: seq<Step>, step: Step, sid: Id)
    ensures var s := Exec(Init(now), steps);
            var s' := Next(s, step);
            sid in s.rows.sessions ==>
              && sid in s'.rows.sessions
              && (s'.rows.sessions[sid].lastResolved == s.rows.sessions[sid].lastResolved
                  || (&& step.Finalize? && ResolvesHead(s, step, step.runId)
                      && s.rows.runs[step.runId].sessionId == sid
                      && s.rows.deliveries[step.runId].messageId.Some?
                      && s'.rows.sessions[sid].lastResolved == s.rows.sessions[sid].lastResolved + 1
                      && s'.rows.tasks[step.runId].status == SUCCEEDED))
  {
    Reachable(now, steps);
    ExecReplies(Init(now), steps);
    var s := Exec(Init(now), steps);
    FreshIds(s);
    hide Exec, Init, Inv;
    if sid in s.rows.sessions {
      CursorMoves(s, step, sid);
      hide Next;
      if step.Finalize? {
        FinalizeMovesCursor(s, step.runId, step.owner, step.end, sid);
      }
    }
  }

  lemma FinalizeMovesCursor(s: World, runId: Id, owner: Owner, end: EndState, sid: Id)
    requires sid in s.rows.sessions && RepliesOk(s.rows)
    ensures var step := Finalize(runId, owner, end);
            var rows' := Next(s, step).rows;
            && sid in rows'.sessions
            && (rows'.sessions[sid].lastResolved == s.rows.sessions[sid].lastResolved
                || (&& ResolvesHead(s, step, runId)
                    && s.rows.runs[runId].sessionId == sid
                    && s.rows.deliveries[runId].messageId.Some?
                    && rows'.sessions[sid].lastResolved == s.rows.sessions[sid].lastResolved + 1
                    && rows'.tasks[runId].status == SUCCEEDED))
  {
    hide Settled;
  }

  // ---------------------------------------------------------------- granting a lease

  /** A run gets a new owner by a claim of the head of an open session that does not wait for its
      seller, for a retry or for another owner's lease, and has attempts left; the owner's token and
      epoch are new and its lease lasts at most 30 seconds. */
  predicate GrantedTo(s: World, step: Step, id: Id, task': Task)
    requires id in s.rows.runs && id in s.rows.tasks
  {
    var run, task := s.rows.runs[id], s.rows.tasks[id];
    && step == Claim(id)
    && run.sessionId in s.rows.sessions
    && run.inputSeq == s.rows.sessions[run.sessionId].lastResolved + 1
    && !s.rows.sessions[run.sessionId].archived
    && !run.recoveryRequired
    && task.status in {PENDING, RUNNING, RETRY_WAIT}
    && (task.leaseUntil.Some? ==> task.leaseUntil.value <= s.now)
    && (task.nextRetry.Some? ==> task.nextRetry.value <= s.now)
    && task.attempts < task.maxAttempts
    && task'.status == RUNNING && task'.token == Some(s.uuids) && task'.epoch == task.epoch + 1
    && task'.attempts == task.attempts + 1 && task'.nextRetry == None
    && task'.leaseUntil.Some? && s.now < task'.leaseUntil.value <= s.now + 30000
  }

  lemma MoveGrants(s: World, step: Step, id: Id, row': Row)
    requires id in s.rows.runs && id in s.rows.tasks && MovedTo(s, step, id, row')
    ensures row'.task.token.None?
            || (row'.task.token == s.rows.tasks[id].token && row'.task.epoch == s.rows.tasks[id].epoch)
            || GrantedTo(s, step, id, row'.task)
  {
    hide Decided, Settled, LeaseEnd, Extended, Stopped;
    if row' != RowOf(s.rows, id) && step == Claim(id) && Decided(s, id, row') {
      DecidedGrants(s, id, row');
    } else {
      OthersGrantNothing(s, id, row');
    }
  }

  lemma OthersGrantNothing(s: World, id: Id, row': Row)
    requires id in s.rows.runs && id in s.rows.tasks
    ensures Extended(RowOf(s.rows, id), row', Reply(s.rows, id), s.now) ==>
              row'.task.token == s.rows.tasks[id].token && row'.task.epoch == s.rows.tasks[id].epoch
    ensures Stopped(RowOf(s.rows, id), row', s.now) ==> row'.task.token.None?
  {
    hide Settled, Beaten;
  }

  lemma DecidedGrants(s: World, id: Id, row': Row)
    requires id in s.rows.runs && id in s.rows.tasks && Decided(s, id, row')
    ensures row'.task.token.None? || GrantedTo(s, Claim(id), id, row'.task)
  {
    LeaseIsShort(s, id);
    hide ClaimMeter;
    var status := s.rows.tasks[id].status;
    assert status.PENDING? || status.RUNNING? || status.RETRY_WAIT? || status in {SUCCEEDED, FAILED, STALE, CANCELLED};
  }

  lemma LeaseIsShort(s: World, id: Id)
    requires id in s.rows.runs
    ensures ClaimMeter(s.rows, id, s.now).1 <= s.now + 30000
  {
    hide Settled, Remaining, CleanupOnly, Reply;
  }

  lemma LeasesGoToFreeHeads(now: int, steps: seq<Step>, step: Step, id: Id)
    ensures var s := Exec(Init(now), steps);
            var rows' := Next(s, step).rows;
            id in s.rows.runs ==>
              && id in s.rows.tasks && id in rows'.tasks
              && var task, task' := s.rows.tasks[id], rows'.tasks[id];
                 || task'.token == None
                 || (task'.token == task.token && task'.epoch == task.epoch)
                 || GrantedTo(s, step, id, task')
  {
    Reachable(now, steps);
    var s := Exec(Init(now), steps);
    hide Exec, Init, Inv, Next, MovedTo, GrantedTo;
    if id in s.rows.runs {
      EveryStepMoves(s, step, id);
      MoveGrants(s, step, id, RowOf(Next(s, step).rows, id));
    }
  }

  // ---------------------------------------------------------------- losing a live lease

  /** The instance on record holds the run. */
  predicate HeldBy(s: World, id: Id, instance: Id) {
    && instance in s.rows.instances
    && id in s.rows.tasks
    && s.rows.instances[instance].token.Some?
    && s.rows.instances[instance].token == s.rows.tasks[id].token
    && s.rows.instances[instance].epoch == s.rows.tasks[id].epoch
  }

  /** The owner itself gives up or finishes, its own instance is cleaned up by force or because it is
      overdue, or its own supervisor stops it. */
  predicate TakenBy(s: World, step: Step, id: Id)
    requires id in s.rows.runs && id in s.rows.tasks
  {
    var run, task := s.rows.runs[id], s.rows.tasks[id];
    match step
    case Release(runId, owner, _) => runId == id && task.token == Some(owner.token) && task.epoch == owner.epoch
    case Finalize(runId, owner, _) => runId == id && task.token == Some(owner.token) && task.epoch == owner.epoch
    case RevokeInstance(instance, force) =>
      && HeldBy(s, id, instance)
      && s.rows.instances[instance].runId == id
      && (|| force
          || (run.meter.closing.Some? && run.meter.closing.value <= s.now)
          || s.now >= s.rows.instances[instance].registeredAt + 150000)
    case Supervise(runId, instance) => runId == id && HeldBy(s, id, instance)
    case _ => false
  }

  predicate HasLiveOwner(s: World, id: Id) {
    && id in s.rows.tasks
    && s.rows.tasks[id].status == RUNNING
    && s.rows.tasks[id].token.Some?
    && s.rows.tasks[id].leaseUntil.Some? && s.rows.tasks[id].leaseUntil.value > s.now
  }

  lemma ReleaseTakes(s: World, step: Step, id: Id)
    requires id in s.rows.runs && HasLiveOwner(s, id) && (step.Release? || step.Finalize?)
    ensures var rows' := Next(s, step).rows;
            id in rows'.tasks && (rows'.tasks[id] == s.rows.tasks[id] || TakenBy(s, step, id))
  {
    hide Settled, EndMatches, Published, ClaimTx, HeartbeatTx, RevokeInstanceTx, SuperviseTx, RecoverTx, EnqueueTx;
  }

  lemma SuperviseTakes(s: World, step: Step, id: Id)
    requires id in s.rows.runs && HasLiveOwner(s, id) && step.Supervise?
    ensures var rows' := Next(s, step).rows;
            id in rows'.tasks && (rows'.tasks[id] == s.rows.tasks[id] || TakenBy(s, step, id))
  {
    hide Settled, ClaimTx, HeartbeatTx, RevokeInstanceTx, FinalizeTx, ReleaseTx, RecoverTx, EnqueueTx;
  }

  lemma RevokeTakes(s: World, step: Step, id: Id)
    requires id in s.rows.runs && HasLiveOwner(s, id) && step.RevokeInstance?
    requires step.instance in s.rows.instances ==> InstanceOk(s.rows, s.uuids, step.instance)
    ensures var rows' := Next(s, step).rows;
            id in rows'.tasks && (rows'.tasks[id] == s.rows.tasks[id] || TakenBy(s, step, id))
  {
    hide Settled, ClaimTx, HeartbeatTx, SuperviseTx, FinalizeTx, ReleaseTx, RecoverTx, EnqueueTx;
  }

  lemma OthersTakeNobody(s: World, step: Step, id: Id)
    requires Inv(s) && id in s.rows.runs && HasLiveOwner(s, id)
    requires !step.Release? && !step.Finalize? && !step.Supervise? && !step.RevokeInstance?
    ensures var rows' := Next(s, step).rows;
            id in rows'.tasks && rows'.tasks[id].token == s.rows.tasks[id].token
            && rows'.tasks[id].epoch == s.rows.tasks[id].epoch
  {
    FreshIds(s);
    hide Inv;
    match step
    case Claim(runId) => LiveIsNotClaimed(s, runId, id);
    case Recover(runId, action) => LiveIsNotRecovered(s, runId, action, id);
    case Heartbeat(runId, owner) => HeartbeatKeepsOwner(s, runId, owner, id);
    case _ =>
      hide ClaimTx, FinalizeTx, ReleaseTx, HeartbeatTx, RecoverTx, RevokeInstanceTx, SuperviseTx, Owns, Accepts,
           ConfigOk;
  }

  lemma LiveIsNotClaimed(s: World, runId: Id, id: Id)
    requires HasLiveOwner(s, id)
    ensures var rows' := ClaimTx(s.rows, s.uuids, runId, s.now).0;
            id in rows'.tasks && rows'.tasks[id] == s.rows.tasks[id]
  {
    hide ClaimDecision, IsHead;
  }

  lemma LiveIsNotRecovered(s: World, runId: Id, action: ManualAction, id: Id)
    requires HasLiveOwner(s, id)
    ensures var rows' := RecoverTx(s.rows, runId, action, s.now).0;
            id in rows'.tasks && rows'.tasks[id] == s.rows.tasks[id]
  {
    hide IsHead;
  }

  lemma HeartbeatKeepsOwner(s: World, runId: Id, owner: Owner, id: Id)
    requires id in s.rows.tasks
    ensures var rows' := HeartbeatTx(s.rows, runId, owner, s.now).0;
            && id in rows'.tasks
            && rows'.tasks[id].token == s.rows.tasks[id].token && rows'.tasks[id].epoch == s.rows.tasks[id].epoch
  {
    hide LeaseEnd, Owns;
  }

  /** Who can take a run from an owner whose lease lasts. In particular an instance that holds its run
      and is within its limits is left alone by every cleanup without force. */
  lemma LiveOwnersAreLeftAlone(now: int, steps: seq<Step>, step: Step, id: Id)
    ensures var s := Exec(Init(now), steps);
            var rows' := Next(s, step).rows;
            id in s.rows.runs && HasLiveOwner(s, id) ==>
              && id in rows'.tasks
              && (|| (&& rows'.tasks[id].token == s.rows.tasks[id].token
                      && rows'.tasks[id].epoch == s.rows.tasks[id].epoch)
                  || TakenBy(s, step, id))
  {
    Reachable(now, steps);
    var s := Exec(Init(now), steps);
    hide Exec, Init, Inv, Next, TakenBy, HasLiveOwner;
    if id in s.rows.runs && HasLiveOwner(s, id) {
      if step.RevokeInstance? {
        InstanceKnown(s, step.instance);
        RevokeTakes(s, step, id);
      } else if step.Release? || step.Finalize? {
        ReleaseTakes(s, step, id);
      } else if step.Supervise? {
        SuperviseTakes(s, step, id);
      } else {
        OthersTakeNobody(s, step, id);
      }
    }
  }

  /** A cleanup without force leaves a registered instance alone exactly while it still waits for its
      owner, for 30 seconds, or holds its run with a live lease, within the closing deadline and 150
      seconds; else, as one that was revoked before, it is revoked, and a run that it held waits for
      the next owner under a new epoch. */
  lemma CleanupsAreFair(now: int, steps: seq<Step>, i: Id, force: bool)
    ensures var s := Exec(Init(now), steps);
            i in s.rows.instances && s.rows.instances[i].state != RELEASED ==>
              var record := s.rows.instances[i];
              var (rows', r) := RevokeInstanceTx(s.rows, i, force, s.now);
              && record.runId in s.rows.runs && record.runId in s.rows.tasks
              && var run, task := s.rows.runs[record.runId], s.rows.tasks[record.runId];
                 var waits := record.token.None? && s.now < record.registeredAt + 30000;
                 var holds := record.token.Some? && record.token == task.token && record.epoch == task.epoch;
                 var within := && task.leaseUntil.Some? && s.now < task.leaseUntil.value
                               && (run.meter.closing.Some? ==> s.now < run.meter.closing.value)
                               && s.now < record.registeredAt + 150000;
                 if !force && record.state == REGISTERED && (waits || (holds && within))
                 then rows' == s.rows && r == Success(false)
                 else
                   && r == Success(true)
                   && i in rows'.instances && rows'.instances[i] == record.(state := REVOKED)
                   && record.runId in rows'.tasks
                   && (if holds then
                         && rows'.tasks[record.runId].status == RETRY_WAIT
                         && rows'.tasks[record.runId].token == None
                         && rows'.tasks[record.runId].epoch == task.epoch + 1
                         && rows'.tasks[record.runId].nextRetry == Some(s.now)
                       else rows'.tasks == s.rows.tasks && rows'.runs == s.rows.runs)
  {
    Reachable(now, steps);
    var s := Exec(Init(now), steps);
    InstanceKnown(s, i);
    if i in s.rows.instances {
      InvAt(s, s.rows.instances[i].runId);
    }
    hide Exec, Init, Inv, MeterOk, Settled, IdentityOk;
  }

  // ---------------------------------------------------------------- the other guards

  /** The owner of a run that gives it back waits for one second, and its run counts no attempt less. */
  lemma ReleasedWaitsOneSecond(rows: Rows, runId: Id, owner: Owner, recoveryRequired: bool, now: int)
    ensures var (rows', r) := ReleaseTx(rows, runId, owner, recoveryRequired, now);
            r.Success? ==>
              && runId in rows.tasks && runId in rows'.tasks && runId in rows'.runs
              && rows'.tasks[runId] ==
                 rows.tasks[runId].(status := RETRY_WAIT, token := None, leaseUntil := None,
                                    nextRetry := Some(now + 1000))
              && rows'.runs[runId].recoveryRequired == recoveryRequired
  {
    hide Settled;
  }

  /** The seller's answer on the head: unless it runs or is over, it is in the queue again with at
      least one attempt left, and what the seller chose is on record. */
  lemma SellerPutsHeadBack(rows: Rows, runId: Id, action: ManualAction, now: int)
    ensures var (rows', r) := RecoverTx(rows, runId, action, now);
            r.Success? ==>
              && runId in rows.runs && runId in rows.tasks && runId in rows'.runs && runId in rows'.tasks
              && rows.runs[runId].sessionId in rows.sessions
              && rows.runs[runId].inputSeq == rows.sessions[rows.runs[runId].sessionId].lastResolved + 1
              && !rows.sessions[rows.runs[runId].sessionId].archived
              && rows.tasks[runId].status !in {SUCCEEDED, CANCELLED}
              && (rows.tasks[runId].leaseUntil.Some? ==> rows.tasks[runId].leaseUntil.value <= now)
              && rows'.tasks[runId].status == PENDING && rows'.tasks[runId].lastAction == Some(action)
              && rows'.tasks[runId].attempts == rows.tasks[runId].attempts < rows'.tasks[runId].maxAttempts
              && rows.tasks[runId].maxAttempts <= rows'.tasks[runId].maxAttempts
              && !rows'.runs[runId].recoveryRequired && rows'.runs[runId].meter == rows.runs[runId].meter
  {
  }

  /** What a new input must be: a request of 1 to 64 characters by the buyer of an open session whose
      graph takes such inputs, with sound references, a configuration within its limits, and fewer than
      20 inputs before it unresolved. A known request gets its earlier run back, or a conflict when its
      payload differs. */
  lemma InputsAreAnsweredOnce(now: int, steps: seq<Step>, sid: Id, buyer: Id, input: Input)
    ensures var s := Exec(Init(now), steps);
            var (rows', r) := EnqueueTx(s.rows, s.uuids, sid, buyer, input);
            var invited := && 1 <= |input.requestId| <= 64
                           && sid in s.rows.sessions && s.rows.sessions[sid].buyer == buyer
                           && !s.rows.sessions[sid].archived
                           && s.rows.sessions[sid].version in
                              (if input.semantic then {Some(SEMANTIC), Some(QUALITY)} else {Some(NEGOTIATION)});
            && (forall id :: id in s.rows.runs && s.rows.runs[id].sessionId == sid
                             && s.rows.runs[id].requestId == input.requestId ==>
                  && rows' == s.rows
                  && r == if invited && s.rows.runs[id].inputHash == PayloadDigest(input.payload)
                          then Success(id) else Failure(Conflict))
            && ((forall id :: id in s.rows.runs && s.rows.runs[id].sessionId == sid ==>
                   s.rows.runs[id].requestId != input.requestId) ==>
                  && (r.Success? <==>
                        && invited
                        && s.rows.sessions[sid].nextSeq - 1 - s.rows.sessions[sid].lastResolved < 20
                        && input.referencesOk
                        && input.config.schema ==
                           (if s.rows.sessions[sid].version == Some(QUALITY) then "p4-v1"
                            else if input.semantic then "p2-v1" else "p1-v1")
                        && 0 <= input.config.maxCalls && 0 <= input.config.maxTokens
                        && 0 < input.config.activeMs <= 120000)
                  && (r.Failure? ==> rows' == s.rows && r == Failure(Conflict)))
  {
    Reachable(now, steps);
    var s := Exec(Init(now), steps);
    InvIndexes(s);
    hide Exec, Init, Inv, MeterOk, TaskOk, Joined;
    forall id | id in s.rows.runs && s.rows.runs[id].sessionId == sid && s.rows.runs[id].requestId == input.requestId
      ensures (sid, input.requestId) in s.rows.byRequest && s.rows.byRequest[(sid, input.requestId)] == id
    {
      InvAt(s, id);
    }
  }

  lemma InvIndexes(s: World)
    ensures Inv(s) ==> IndexesOk(s.rows)
  {
  }
}
