/** What a worker that lost its run can still do, and what that does to the status of runs. */
module P0Stale {
  import opened Outcomes
  import opened Recovery
  import opened P0Store
  import opened P0Machine
  import opened P0Safety
  import opened P0Writes
  import opened P0Steps
  import opened P0Runs
  import opened P0Theorems

  /** What a worker that lost its run can still do to the tables: log the outcome of its own
      attempt, or give the run back after an interrupt, which takes no ownership check. */
  lemma StaleWorkerOnlyLogsOrRevokes(s: World, wid: Id, answer: string, resume: Option<bool>, failAt: nat)
    requires wid in s.workers && s.workers[wid].owner.Some? && !s.workers[wid].pc.Locked? && !WorkerMatches(s, wid)
    ensures var w := s.workers[wid];
            Advance(s, wid, answer, resume, failAt).db ==
            if w.pc.Logging? then LogAttemptTx(s.db, s.uuids, w.runId, w.pc.accepted)
            else if w.pc.Ending? && w.pc.last.next != END then RevokeTx(s.db, w.runId)
            else s.db
  {
    ActTables(s, wid, answer, resume, failAt);
    hide Advance, LogAttemptTx, RevokeTx;
  }

  // ---------------------------------------------------------------- completed, and then revoked

  /** A resolved run is completed while it still carries the token of the worker that resolved it;
      a revocation takes both, and nothing gives them back. An unresolved run is not completed. */
  predicate StatusOk(db: Tables, id: Id) {
    id in db.inputs ==>
      var run := db.inputs[id];
      if Resolved(db, id) then run.status == (if run.token.Some? then COMPLETED else RETRY_WAIT)
      else run.status != COMPLETED
  }

  /** A step that revokes the run: from outside, or by a worker that ends with an interrupt. */
  predicate Revokes(s: World, step: Step, id: Id) {
    || step == RevokeRun(id)
    || (&& step.Act?
        && step.worker in s.workers
        && var w := s.workers[step.worker];
           w.runId == id && w.owner.Some? && w.pc.Ending? && w.pc.last.next != END)
  }

  predicate Completed(db: Tables, id: Id) {
    id in db.inputs && db.inputs[id].status == COMPLETED
  }

  /** How one transaction treats the rows of a run and the cursor of its session. */
  ghost predicate StatusMoves(db: Tables, db': Tables, id: Id, revoked: bool) {
    && StatusOk(db', id)
    && (Resolved(db, id) ==>
          && Resolved(db', id)
          && (Completed(db', id) <==> Completed(db, id) && !revoked))
  }

  lemma ClaimMoves(s: World, runId: Id, id: Id)
    requires id in s.db.inputs && StatusOk(s.db, id)
    ensures StatusMoves(s.db, ClaimTx(s.db, s.uuids, runId, s.now, LEASE_MS).0, id, false)
  {
    if Claimable(s.db, runId, s.now) {
      ClaimedMoves(s.db, s.uuids, runId, s.now, id);
    }
  }

  lemma ClaimedMoves(db: Tables, uuids: Id, runId: Id, now: int, id: Id)
    requires id in db.inputs && StatusOk(db, id) && IsHead(db, runId)
    ensures StatusMoves(db, ClaimedDb(db, uuids, runId, now), id, false)
  {
  }

  lemma RevokeMoves(db: Tables, runId: Id, id: Id)
    requires id in db.inputs && StatusOk(db, id)
    ensures StatusMoves(db, RevokeTx(db, runId), id, runId == id)
  {
    RevokeMovesNoCursor(db, runId, id);
    RevokedRow(db, runId, id);
    hide Resolved, RevokeTx;
  }

  lemma RevokedRow(db: Tables, runId: Id, id: Id)
    requires id in db.inputs
    ensures id in RevokeTx(db, runId).inputs
    ensures runId == id ==>
              var run := RevokeTx(db, runId).inputs[id];
              run.token.None? && run.status == RETRY_WAIT
    ensures runId != id ==> RevokeTx(db, runId).inputs[id] == db.inputs[id]
  {
    if runId in db.inputs {
      var run := db.inputs[runId];
      var run' := run.(token := None, epoch := run.epoch + 1, leaseUntil := 0, status := RETRY_WAIT);
      assert RevokeTx(db, runId).inputs == db.inputs[runId := run'];
      hide RevokeTx;
    }
  }

  lemma RevokeMovesNoCursor(db: Tables, runId: Id, id: Id)
    ensures Resolved(RevokeTx(db, runId), id) == Resolved(db, id)
  {
  }

  lemma FinalizeMoves(s: World, runId: Id, owner: Owner, endRun: Id, id: Id)
    requires id in s.db.inputs && StatusOk(s.db, id) && RunsOk(s.db, s.uuids)
    ensures StatusMoves(s.db, FinalizeTx(s.db, runId, owner, endRun, false, s.now).0, id, false)
  {
    assert RunOk(s.db, s.uuids, id);
    if runId in s.db.inputs {
      assert RunOk(s.db, s.uuids, runId);
    }
  }

  /** A write that touches neither runs nor cursors. */
  ghost predicate QueueUntouched(db: Tables, db': Tables) {
    && db'.inputs == db.inputs
    && (forall sid :: sid in db.sessions ==>
          sid in db'.sessions && db'.sessions[sid].cursor == db.sessions[sid].cursor)
  }

  lemma OtherMoves(db: Tables, db': Tables, id: Id)
    requires id in db.inputs && StatusOk(db, id) && db.inputs[id].sessionId in db.sessions
    ensures QueueUntouched(db, db') ==> StatusMoves(db, db', id, false)
  {
  }

  lemma CommandUntouched(s: World, runId: Id, owner: Owner, failAt: nat)
    ensures QueueUntouched(s.db, CommandTx(s.db, runId, owner, DEFAULT_AMOUNT, failAt, s.now).0)
  {
    CommandTouchesNoOwner(s.db, runId, owner, failAt, s.now);
    if runId in s.db.inputs {
      CommandWritesAll(s.db, runId, s.db.inputs[runId], DEFAULT_AMOUNT);
    }
    hide CommandWrites;
  }

  lemma PublishUntouched(s: World, runId: Id, owner: Owner)
    ensures QueueUntouched(s.db, PublishTx(s.db, runId, owner, s.now).0)
  {
    hide Owns;
  }

  lemma AnswerUntouched(s: World, runId: Id, owner: Owner, answer: string)
    ensures QueueUntouched(s.db, SaveArtifactTx(s.db, runId, owner, answer, s.now).0)
  {
    hide Owns;
  }

  lemma LogUntouched(s: World, runId: Id, accepted: bool)
    ensures QueueUntouched(s.db, LogAttemptTx(s.db, s.uuids, runId, accepted)) && QueueUntouched(s.db, s.db)
  {
  }

  lemma ActMoves(s: World, wid: Id, failAt: nat, id: Id)
    requires wid in s.workers && id in s.db.inputs && StatusOk(s.db, id) && RunsOk(s.db, s.uuids)
    ensures var w := s.workers[wid];
            StatusMoves(s.db, TablesAfter(s, wid, failAt), id,
                        w.runId == id && w.owner.Some? && w.pc.Ending? && w.pc.last.next != END)
  {
    assert RunOk(s.db, s.uuids, id);
    var w := s.workers[wid];
    if !w.pc.Locked? && (w.owner.None? || !w.pc.Ending?) {
      hide TablesAfter, StatusMoves, StatusOk, QueueUntouched, RunsOk;
      ActUntouched(s, wid, failAt);
      OtherMoves(s.db, TablesAfter(s, wid, failAt), id);
    } else {
      hide TablesAfter, StatusMoves, StatusOk, RunsOk, RunOk;
      EndActMoves(s, wid, failAt, id);
    }
  }

  lemma EndActMoves(s: World, wid: Id, failAt: nat, id: Id)
    requires wid in s.workers
    requires s.workers[wid].pc.Locked? || (s.workers[wid].owner.Some? && s.workers[wid].pc.Ending?)
    requires id in s.db.inputs && StatusOk(s.db, id) && RunsOk(s.db, s.uuids)
    ensures var w := s.workers[wid];
            StatusMoves(s.db, TablesAfter(s, wid, failAt), id, w.runId == id && w.pc.Ending? && w.pc.last.next != END)
  {
    hide StatusOk, StatusMoves, RunsOk, ClaimTx, FinalizeTx, RevokeTx;
    var w := s.workers[wid];
    if w.pc.Locked? {
      ClaimMoves(s, w.runId, id);
    } else if w.pc.last.next == END {
      FinalizeMoves(s, w.runId, w.owner.value, w.pc.last.state.identity.runId, id);
    } else {
      RevokeMoves(s.db, w.runId, id);
    }
  }

  lemma ActUntouched(s: World, wid: Id, failAt: nat)
    requires wid in s.workers && !s.workers[wid].pc.Locked?
    requires s.workers[wid].owner.None? || !s.workers[wid].pc.Ending?
    ensures QueueUntouched(s.db, TablesAfter(s, wid, failAt))
  {
    hide CommandTx, PublishTx, SaveArtifactTx, LogAttemptTx, QueueUntouched;
    var w := s.workers[wid];
    LogUntouched(s, w.runId, if w.pc.Logging? then w.pc.accepted else false);
    if w.owner.Some? {
      CommandUntouched(s, w.runId, w.owner.value, failAt);
      PublishUntouched(s, w.runId, w.owner.value);
      AnswerUntouched(s, w.runId, w.owner.value, if w.pc.Answered? then w.pc.answer else "");
    }
  }

  lemma EnqueueMoves(s: World, sid: Id, requestId: string, payload: string, id: Id)
    requires SessionsOk(s) && RunsOk(s.db, s.uuids) && StatusOk(s.db, id)
    ensures var db' := EnqueueTx(s.db, s.uuids, sid, requestId, payload).0;
            && (id in s.db.inputs ==> StatusMoves(s.db, db', id, false))
            && StatusOk(db', id)
  {
    if id in s.db.inputs {
      QuietMoves(s, id);
    }
    if sid in s.db.sessions && (sid, requestId) !in s.db.byRequest {
      SessionCounts(s, sid);
      hide SessionsOk, EnqueueTx, StatusMoves;
      EnqueueIsQueued(s, sid, requestId, payload);
      if id in s.db.inputs {
        QueuedMoves(s, sid, requestId, payload, id);
      } else {
        QueuedIsNew(s, sid, requestId, payload, id);
      }
    }
  }

  lemma EnqueueIsQueued(s: World, sid: Id, requestId: string, payload: string)
    requires sid in s.db.sessions && (sid, requestId) !in s.db.byRequest
    ensures EnqueueTx(s.db, s.uuids, sid, requestId, payload).0 == Queued(s.db, s.uuids, sid, requestId, payload)
  {
  }

  lemma QueuedMoves(s: World, sid: Id, requestId: string, payload: string, id: Id)
    requires sid in s.db.sessions && id in s.db.inputs && RunsOk(s.db, s.uuids) && StatusOk(s.db, id)
    ensures StatusMoves(s.db, Queued(s.db, s.uuids, sid, requestId, payload), id, false)
    ensures StatusOk(Queued(s.db, s.uuids, sid, requestId, payload), id)
  {
    assert RunOk(s.db, s.uuids, id);
  }

  lemma QueuedIsNew(s: World, sid: Id, requestId: string, payload: string, id: Id)
    requires sid in s.db.sessions && id !in s.db.inputs && s.db.sessions[sid].cursor < s.db.sessions[sid].nextSeq
    ensures StatusOk(Queued(s.db, s.uuids, sid, requestId, payload), id)
  {
  }

  lemma SeedMoves(s: World, id: Id)
    requires id in s.db.inputs && StatusOk(s.db, id) && RunsOk(s.db, s.uuids) && KeysOk(s.db, s.uuids)
    ensures StatusMoves(s.db, SeedTx(s.db, s.uuids), id, false)
  {
    assert RunOk(s.db, s.uuids, id);
    hide StatusOk, StatusMoves, RunsOk;
    OtherMoves(s.db, SeedTx(s.db, s.uuids), id);
  }

  lemma StepMoves(s: World, step: Step, id: Id)
    requires Inv(s) && id in s.db.inputs && StatusOk(s.db, id)
    ensures StatusMoves(s.db, Next(s, step).db, id, Revokes(s, step, id))
  {
    InvParts(s);
    hide Inv, StatusOk, StatusMoves, RunsOk, IndexesOk, EvidenceOk, KeysOk, SessionsOk, WrittenOk, WorkersOk,
         LocksOk, Advance, TablesAfter, EnqueueTx, SeedTx, RevokeTx;
    match step
    case Act(wid, answer, resume, failAt) =>
      if wid in s.workers {
        ActTables(s, wid, answer, resume, failAt);
        ActMoves(s, wid, failAt, id);
      } else {
        QuietMoves(s, id);
      }
    case RevokeRun(runId) => RevokeMoves(s.db, runId, id);
    case EnqueueInput(sid, requestId, payload) => EnqueueMoves(s, sid, requestId, payload, id);
    case SeedSession => SeedMoves(s, id);
    case _ => QuietMoves(s, id);
  }

  lemma QuietMoves(s: World, id: Id)
    requires RunsOk(s.db, s.uuids) && id in s.db.inputs && StatusOk(s.db, id)
    ensures StatusMoves(s.db, s.db, id, false)
  {
    assert RunOk(s.db, s.uuids, id);
  }

  lemma StepKeepsStatus(s: World, step: Step, id: Id)
    requires Inv(s) && StatusOk(s.db, id)
    ensures StatusOk(Next(s, step).db, id)
  {
    InvParts(s);
    hide Inv, RunsOk, IndexesOk, EvidenceOk, KeysOk, SessionsOk, WrittenOk, WorkersOk, LocksOk, Advance, Next,
         TablesAfter, EnqueueTx, StatusOk;
    if id in s.db.inputs {
      StepMoves(s, step, id);
    } else if step.EnqueueInput? {
      EnqueueMoves(s, step.sid, step.requestId, step.payload, id);
      NextEnqueues(s, step);
    } else {
      NoNewRun(s, step, id);
      UnknownIsFine(Next(s, step).db, id);
    }
  }

  lemma NextEnqueues(s: World, step: Step)
    requires step.EnqueueInput?
    ensures Next(s, step).db == EnqueueTx(s.db, s.uuids, step.sid, step.requestId, step.payload).0
  {
    hide EnqueueTx;
  }

  lemma UnknownIsFine(db: Tables, id: Id)
    ensures id !in db.inputs ==> StatusOk(db, id)
  {
  }

  lemma NoNewRun(s: World, step: Step, id: Id)
    requires id !in s.db.inputs && !step.EnqueueInput?
    ensures id !in Next(s, step).db.inputs
  {
    hide Advance, TablesAfter;
    if step.Act? && step.worker in s.workers {
      ActTables(s, step.worker, step.answer, step.resume, step.failAt);
      ActKeepsRuns(s, step.worker, step.failAt);
    }
  }

  lemma ActKeepsRuns(s: World, wid: Id, failAt: nat)
    requires wid in s.workers
    ensures TablesAfter(s, wid, failAt).inputs.Keys == s.db.inputs.Keys
  {
    var w := s.workers[wid];
    if !w.pc.Locked? && (w.owner.None? || !w.pc.Ending?) {
      ActUntouched(s, wid, failAt);
      hide TablesAfter;
    } else {
      hide CommandTx, PublishTx, SaveArtifactTx, LogAttemptTx, Claimable, Owns;
    }
  }

  lemma {:induction false} StatusInEveryRun(s: World, steps: seq<Step>, id: Id)
    requires Inv(s) && StatusOk(s.db, id)
    ensures StatusOk(Exec(s, steps).db, id)
    decreases |steps|
  {
    hide Inv, Next, StatusOk;
    if steps != [] {
      NextKeeps(s, steps[0]);
      StepKeepsStatus(s, steps[0], id);
      StatusInEveryRun(Next(s, steps[0]), steps[1..], id);
    }
  }

  /** The status of a run says whether it is behind the cursor, exactly unless it is a resolved run
      that was revoked: then it waits for a retry that no worker can ever claim. */
  lemma CompletedIffResolved(approval: bool, now: int, steps: seq<Step>, id: Id)
    ensures var db := Exec(Init(approval, now), steps).db;
            id in db.inputs ==>
              && (Completed(db, id) ==> Resolved(db, id))
              && (Resolved(db, id) ==> (Completed(db, id) <==> db.inputs[id].token.Some?))
              && (Resolved(db, id) && !Completed(db, id) ==>
                    db.inputs[id].status == RETRY_WAIT && forall at :: !Claimable(db, id, at))
  {
    InitHolds(approval, now);
    StatusInEveryRun(Init(approval, now), steps, id);
    hide Exec, Init;
  }

  ghost predicate RevokedIn(s: World, steps: seq<Step>, id: Id)
    decreases |steps|
  {
    steps != [] && (Revokes(s, steps[0], id) || RevokedIn(Next(s, steps[0]), steps[1..], id))
  }

  lemma {:induction false} CompletedUnlessRevoked(s: World, steps: seq<Step>, id: Id)
    requires Inv(s) && StatusOk(s.db, id) && Resolved(s.db, id)
    ensures Completed(Exec(s, steps).db, id) <==> Completed(s.db, id) && !RevokedIn(s, steps, id)
    decreases |steps|
  {
    hide Inv, Next, StatusOk, Resolved, Completed, Revokes;
    if steps != [] {
      NextKeeps(s, steps[0]);
      ResolvedIsKnown(s.db, id);
      StepMoves(s, steps[0], id);
      CompletedUnlessRevoked(Next(s, steps[0]), steps[1..], id);
    }
  }

  lemma ResolvedIsKnown(db: Tables, id: Id)
    ensures Resolved(db, id) ==> id in db.inputs
  {
  }

  /** A run that is completed in some run of the machine stays so exactly until it is revoked. */
  lemma RevocationTakesCompletion(approval: bool, now: int, before: seq<Step>, after: seq<Step>, id: Id)
    requires Completed(Exec(Init(approval, now), before).db, id)
    ensures var s := Exec(Init(approval, now), before);
            Completed(Exec(s, after).db, id) <==> !RevokedIn(s, after, id)
  {
    Reachable(approval, now, before);
    InitHolds(approval, now);
    StatusInEveryRun(Init(approval, now), before, id);
    hide Init, Exec, RevokedIn;
    CompletedUnlessRevoked(Exec(Init(approval, now), before), after, id);
  }
}
