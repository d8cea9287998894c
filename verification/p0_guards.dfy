/** What any step of the P0 machine needs to move a lease, a cursor or a turn's evidence, written
    out on the rows themselves. */
module P0Guards {
  import opened Outcomes
  import opened Recovery
  import opened P0Store
  import opened P0Machine
  import opened P0Safety
  import opened P0Writes
  import opened P0Steps
  import opened P0Runs
  import opened P0Theorems

  // ---------------------------------------------------------------- requests

  /** A request of a session that is known already: the same payload gives the earlier run, another
      payload is refused, and nothing changes. An unknown one gets the next number. */
  lemma RequestsAreAnsweredOnce(approval: bool, now: int, steps: seq<Step>, sid: Id, requestId: string,
                                payload: string)
    ensures var s := Exec(Init(approval, now), steps);
            var (db, r) := EnqueueTx(s.db, s.uuids, sid, requestId, payload);
            && (forall id :: id in s.db.inputs && s.db.inputs[id].sessionId == sid
                             && s.db.inputs[id].requestId == requestId ==>
                  db == s.db && r == if s.db.inputs[id].payload == payload then Success(id) else Failure(Conflict))
            && (sid in s.db.sessions && (forall id :: id in s.db.inputs && s.db.inputs[id].sessionId == sid ==>
                                           s.db.inputs[id].requestId != requestId) ==>
                  && r == Success(s.uuids) && s.uuids !in s.db.inputs
                  && db.inputs.Keys == s.db.inputs.Keys + {s.uuids}
                  && db.inputs[s.uuids].inputSeq == s.db.sessions[sid].nextSeq
                  && db.sessions[sid].nextSeq == s.db.sessions[sid].nextSeq + 1)
            && (sid !in s.db.sessions ==> db == s.db && r == Failure(NotFound))
  {
    Reachable(approval, now, steps);
    var s := Exec(Init(approval, now), steps);
    InvTables(s);
    TablesGiveFreshId(s);
    hide Exec, Init, Inv;
    RequestsInTables(s.db, s.uuids, sid, requestId, payload);
  }

  lemma InvTables(s: World)
    ensures Inv(s) ==> RunsOk(s.db, s.uuids) && IndexesOk(s.db)
  {
  }

  lemma RequestsInTables(db: Tables, uuids: Id, sid: Id, requestId: string, payload: string)
    requires RunsOk(db, uuids) && IndexesOk(db) && FreshId(db, uuids)
    ensures var (db', r) := EnqueueTx(db, uuids, sid, requestId, payload);
            && (forall id :: id in db.inputs && db.inputs[id].sessionId == sid && db.inputs[id].requestId == requestId
                  ==> db' == db && r == if db.inputs[id].payload == payload then Success(id) else Failure(Conflict))
            && (sid in db.sessions && (forall id :: id in db.inputs && db.inputs[id].sessionId == sid ==>
                                         db.inputs[id].requestId != requestId) ==>
                  && r == Success(uuids) && uuids !in db.inputs && db'.inputs.Keys == db.inputs.Keys + {uuids}
                  && db'.inputs[uuids].inputSeq == db.sessions[sid].nextSeq
                  && db'.sessions[sid].nextSeq == db.sessions[sid].nextSeq + 1)
            && (sid !in db.sessions ==> db' == db && r == Failure(NotFound))
  {
    hide EnqueueTx, IndexesOk, FreshId, RunOk;
    NewRequestInTables(db, uuids, sid, requestId, payload);
    forall id | id in db.inputs && db.inputs[id].sessionId == sid && db.inputs[id].requestId == requestId
      ensures var (db', r) := EnqueueTx(db, uuids, sid, requestId, payload);
              db' == db && r == if db.inputs[id].payload == payload then Success(id) else Failure(Conflict)
    {
      KnownRequestInTables(db, uuids, id, payload);
    }
  }

  lemma KnownRequestInTables(db: Tables, uuids: Id, id: Id, payload: string)
    requires id in db.inputs && RunOk(db, uuids, id)
    ensures var run := db.inputs[id];
            var (db', r) := EnqueueTx(db, uuids, run.sessionId, run.requestId, payload);
            db' == db && r == if run.payload == payload then Success(id) else Failure(Conflict)
  {
  }

  lemma NewRequestInTables(db: Tables, uuids: Id, sid: Id, requestId: string, payload: string)
    requires IndexesOk(db) && FreshId(db, uuids)
    ensures var (db', r) := EnqueueTx(db, uuids, sid, requestId, payload);
            && (sid in db.sessions && (forall id :: id in db.inputs && db.inputs[id].sessionId == sid ==>
                                         db.inputs[id].requestId != requestId) ==>
                  && r == Success(uuids) && uuids !in db.inputs && db'.inputs.Keys == db.inputs.Keys + {uuids}
                  && db'.inputs[uuids].inputSeq == db.sessions[sid].nextSeq
                  && db'.sessions[sid].nextSeq == db.sessions[sid].nextSeq + 1)
            && (sid !in db.sessions ==> db' == db && r == Failure(NotFound))
  {
  }

  // ---------------------------------------------------------------- leases

  /** The lease of a run stays, ends, or is granted to a worker that waits for this run: only at the
      head, only after the previous lease has run out, under a new token and the next epoch, for 30
      seconds. */
  predicate LeaseStep(s: World, step: Step, id: Id, run': Run)
    requires id in s.db.inputs
  {
    var run := s.db.inputs[id];
    || (run'.token == run.token && run'.epoch == run.epoch && run'.leaseUntil == run.leaseUntil)
    || (run'.token == None && run'.epoch == run.epoch + 1 && run'.leaseUntil == 0)
    || (&& step.Act? && step.worker in s.workers
        && s.workers[step.worker].runId == id && s.workers[step.worker].pc == Locked
        && run.sessionId in s.db.sessions
        && run.inputSeq == s.db.sessions[run.sessionId].cursor + 1
        && run.leaseUntil <= s.now
        && run'.token == Some(s.uuids) && run'.epoch == run.epoch + 1 && run'.leaseUntil == s.now + 30000)
  }

  predicate SameLease(a: Run, b: Run) {
    a.token == b.token && a.epoch == b.epoch && a.leaseUntil == b.leaseUntil
  }

  lemma ClaimGrants(s: World, step: Step, id: Id)
    requires step.Act? && step.worker in s.workers && s.workers[step.worker].pc == Locked && id in s.db.inputs
    ensures var db := ClaimTx(s.db, s.uuids, s.workers[step.worker].runId, s.now, LEASE_MS).0;
            id in db.inputs && LeaseStep(s, step, id, db.inputs[id])
  {
  }

  lemma RevokeEnds(s: World, step: Step, runId: Id, id: Id)
    requires id in s.db.inputs
    ensures var db := RevokeTx(s.db, runId); id in db.inputs && LeaseStep(s, step, id, db.inputs[id])
  {
    hide RevokeTx;
    RevokeLease(s.db, runId, id);
  }

  lemma RevokeLease(db: Tables, runId: Id, id: Id)
    requires id in db.inputs
    ensures var db' := RevokeTx(db, runId);
            && id in db'.inputs
            && var run, run' := db.inputs[id], db'.inputs[id];
               || SameLease(run, run')
               || (run'.token == None && run'.epoch == run.epoch + 1 && run'.leaseUntil == 0)
  {
  }

  lemma EndLeavesLease(s: World, runId: Id, owner: Owner, endRun: Id, id: Id)
    requires id in s.db.inputs
    ensures var db := FinalizeTx(s.db, runId, owner, endRun, false, s.now).0;
            id in db.inputs && SameLease(s.db.inputs[id], db.inputs[id])
  {
    FinalizeAdvances(s.db, runId, owner, endRun, s.now);
    hide FinalizeTx, IsHead;
  }

  lemma LeaseOfOwner(s: World, step: Step, id: Id)
    requires step.Act? && step.worker in s.workers && s.workers[step.worker].owner.Some? && id in s.db.inputs
    requires !s.workers[step.worker].pc.Locked?
    ensures var db := TablesAfter(s, step.worker, step.failAt);
            id in db.inputs && LeaseStep(s, step, id, db.inputs[id])
  {
    hide CommandTx, PublishTx, SaveArtifactTx, FinalizeTx, ClaimTx, RevokeTx;
    var w := s.workers[step.worker];
    CommandTouchesNoOwner(s.db, w.runId, w.owner.value, step.failAt, s.now);
    WritesMoveNoLease(s, step.worker, w.owner.value);
    RevokeEnds(s, step, w.runId, id);
    if w.pc.Ending? {
      EndLeavesLease(s, w.runId, w.owner.value, w.pc.last.state.identity.runId, id);
    }
  }

  lemma LeaseOfWorker(s: World, step: Step, id: Id)
    requires step.Act? && step.worker in s.workers && id in s.db.inputs
    ensures var db := TablesAfter(s, step.worker, step.failAt);
            id in db.inputs && LeaseStep(s, step, id, db.inputs[id])
  {
    if s.workers[step.worker].pc.Locked? {
      hide LeaseStep, ClaimTx;
      ClaimGrants(s, step, id);
    } else if s.workers[step.worker].owner.Some? {
      hide TablesAfter, LeaseStep;
      LeaseOfOwner(s, step, id);
    }
  }

  lemma LeasesGoToFreeHeads(approval: bool, now: int, steps: seq<Step>, step: Step, id: Id)
    ensures var s := Exec(Init(approval, now), steps);
            id in s.db.inputs ==>
              id in Next(s, step).db.inputs && LeaseStep(s, step, id, Next(s, step).db.inputs[id])
  {
    Reachable(approval, now, steps);
    var s := Exec(Init(approval, now), steps);
    TablesGiveFreshId(s);
    hide Exec, Init, Inv;
    if id in s.db.inputs {
      LeaseMovesSo(s, step, id);
    }
  }

  lemma LeaseMovesSo(s: World, step: Step, id: Id)
    requires id in s.db.inputs && FreshId(s.db, s.uuids)
    ensures id in Next(s, step).db.inputs && LeaseStep(s, step, id, Next(s, step).db.inputs[id])
  {
    hide Advance, TablesAfter, RevokeTx, EnqueueTx, SeedTx;
    match step
    case Act(wid, answer, resume, failAt) =>
      if wid in s.workers {
        ActTables(s, wid, answer, resume, failAt);
        hide LeaseStep;
        LeaseOfWorker(s, step, id);
      }
    case RevokeRun(runId) =>
      hide LeaseStep;
      RevokeEnds(s, step, runId, id);
    case EnqueueInput(sid, requestId, payload) => EnqueueLeavesRuns(s, sid, requestId, payload, id);
    case _ => SeedLeavesRuns(s);
  }

  lemma EnqueueLeavesRuns(s: World, sid: Id, requestId: string, payload: string, id: Id)
    requires id in s.db.inputs && s.uuids !in s.db.inputs
    ensures var db := EnqueueTx(s.db, s.uuids, sid, requestId, payload).0;
            id in db.inputs && db.inputs[id] == s.db.inputs[id]
  {
  }

  lemma SeedLeavesRuns(s: World)
    ensures SeedTx(s.db, s.uuids).inputs == s.db.inputs
  {
  }

  // ---------------------------------------------------------------- writing for a run

  /** The acting worker holds a live lease on its run: its token and epoch, not run out. */
  predicate HoldsLease(s: World, wid: Id) {
    && wid in s.workers
    && s.workers[wid].owner.Some?
    && s.workers[wid].runId in s.db.inputs
    && s.db.inputs[s.workers[wid].runId].token == Some(s.workers[wid].owner.value.token)
    && s.db.inputs[s.workers[wid].runId].epoch == s.workers[wid].owner.value.epoch
    && s.db.inputs[s.workers[wid].runId].leaseUntil > s.now
  }

  /** The worker of a run acts for it, holding its lease. */
  predicate ActsFor(s: World, step: Step, id: Id) {
    step.Act? && HoldsLease(s, step.worker) && s.workers[step.worker].runId == id
  }

  predicate AtNode(pc: Pc, node: Node) {
    pc.At? && pc.node == node
  }

  /** A cursor moves by one, over a run whose message is out, and only at the end of this run's own
      graph: its worker holds the lease and was shown the end checkpoint of this run. */
  predicate CursorStep(s: World, step: Step, sid: Id, db': Tables)
    requires sid in s.db.sessions && sid in db'.sessions
  {
    || db'.sessions[sid].cursor == s.db.sessions[sid].cursor
    || (&& step.Act? && HoldsLease(s, step.worker)
        && var w := s.workers[step.worker];
           && w.pc.Ending? && w.pc.last.next == END && w.pc.last.state.identity.runId == w.runId
           && s.db.inputs[w.runId].sessionId == sid
           && s.db.inputs[w.runId].inputSeq == s.db.sessions[sid].cursor + 1 == db'.sessions[sid].cursor
           && w.runId in s.db.messages)
  }

  /** An answer, a receipt or a message of a run appears only when its own worker, holding its lease,
      gets there; the answer is the one the call returned, the receipt is of 800.00. */
  predicate EvidenceStep(s: World, step: Step, id: Id, db': Tables) {
    && (forall key :: key in db'.artifacts && key !in s.db.artifacts && db'.artifacts[key].runId == id ==>
          && ActsFor(s, step, id) && s.workers[step.worker].pc.Answered?
          && db'.artifacts[key].value == s.workers[step.worker].pc.answer)
    && (id in db'.receipts && id !in s.db.receipts ==>
          && ActsFor(s, step, id) && AtNode(s.workers[step.worker].pc, COMMIT)
          && db'.receipts[id].result == ActionResult(id, 80000) && id in db'.offers && db'.offers[id] == 80000)
    && (id in db'.messages && id !in s.db.messages ==>
          ActsFor(s, step, id) && AtNode(s.workers[step.worker].pc, PUBLISH))
  }

  lemma EndMovesCursor(s: World, step: Step, sid: Id)
    requires step.Act? && step.worker in s.workers && s.workers[step.worker].owner.Some?
    requires s.workers[step.worker].pc.Ending? && s.workers[step.worker].pc.last.next == END
    requires sid in s.db.sessions
    ensures var w := s.workers[step.worker];
            var db := FinalizeTx(s.db, w.runId, w.owner.value, w.pc.last.state.identity.runId, false, s.now).0;
            sid in db.sessions && CursorStep(s, step, sid, db)
  {
  }

  lemma CommandLeavesCursors(s: World, runId: Id, owner: Owner, failAt: nat, sid: Id)
    requires sid in s.db.sessions
    ensures var db := CommandTx(s.db, runId, owner, DEFAULT_AMOUNT, failAt, s.now).0;
            sid in db.sessions && db.sessions[sid].cursor == s.db.sessions[sid].cursor
  {
    hide CommandCollides;
    if runId in s.db.inputs {
      CommandWritesAll(s.db, runId, s.db.inputs[runId], DEFAULT_AMOUNT);
    }
  }

  lemma OthersLeaveSessions(s: World, runId: Id, owner: Owner)
    ensures PublishTx(s.db, runId, owner, s.now).0.sessions == s.db.sessions
    ensures forall answer :: SaveArtifactTx(s.db, runId, owner, answer, s.now).0.sessions == s.db.sessions
  {
    hide Owns;
  }

  lemma LeasesLeaveSessions(s: World, runId: Id)
    ensures ClaimTx(s.db, s.uuids, runId, s.now, LEASE_MS).0.sessions == s.db.sessions
    ensures RevokeTx(s.db, runId).sessions == s.db.sessions
    ensures forall accepted :: LogAttemptTx(s.db, s.uuids, runId, accepted).sessions == s.db.sessions
  {
    hide RevokeTx, LogAttemptTx, ClaimTx;
    ClaimLeavesSessions(s.db, s.uuids, runId, s.now);
    RevokeLeavesSessions(s.db, runId);
    forall accepted ensures LogAttemptTx(s.db, s.uuids, runId, accepted).sessions == s.db.sessions {
      LogLeavesSessions(s.db, s.uuids, runId, accepted);
    }
  }

  lemma ClaimLeavesSessions(db: Tables, newToken: Id, runId: Id, now: int)
    ensures ClaimTx(db, newToken, runId, now, LEASE_MS).0.sessions == db.sessions
  {
    hide Claimable;
  }

  lemma RevokeLeavesSessions(db: Tables, runId: Id)
    ensures RevokeTx(db, runId).sessions == db.sessions
  {
  }

  lemma LogLeavesSessions(db: Tables, newId: Id, runId: Id, accepted: bool)
    ensures LogAttemptTx(db, newId, runId, accepted).sessions == db.sessions
  {
  }

  lemma CursorOfWorker(s: World, step: Step, sid: Id)
    requires step.Act? && step.worker in s.workers && sid in s.db.sessions
    ensures var db := TablesAfter(s, step.worker, step.failAt);
            sid in db.sessions && CursorStep(s, step, sid, db)
  {
    hide CommandTx, PublishTx, SaveArtifactTx, FinalizeTx, RevokeTx, ClaimTx, LogAttemptTx;
    var w := s.workers[step.worker];
    LeasesLeaveSessions(s, w.runId);
    if w.owner.Some? {
      OthersLeaveSessions(s, w.runId, w.owner.value);
      CommandLeavesCursors(s, w.runId, w.owner.value, step.failAt, sid);
      if w.pc.Ending? && w.pc.last.next == END {
        EndMovesCursor(s, step, sid);
      }
    }
  }

  lemma CursorsMoveAtTheirOwnEnd(approval: bool, now: int, steps: seq<Step>, step: Step, sid: Id)
    ensures var s := Exec(Init(approval, now), steps);
            sid in s.db.sessions ==>
              sid in Next(s, step).db.sessions && CursorStep(s, step, sid, Next(s, step).db)
  {
    Reachable(approval, now, steps);
    var s := Exec(Init(approval, now), steps);
    TablesGiveFreshId(s);
    hide Exec, Init, Inv;
    if sid in s.db.sessions {
      CursorMovesSo(s, step, sid);
    }
  }

  lemma CursorMovesSo(s: World, step: Step, sid: Id)
    requires sid in s.db.sessions && KeysOk(s.db, s.uuids)
    ensures sid in Next(s, step).db.sessions && CursorStep(s, step, sid, Next(s, step).db)
  {
    hide Advance, TablesAfter, HoldsLease, KeysOk;
    match step
    case Act(wid, answer, resume, failAt) =>
      if wid in s.workers {
        ActTables(s, wid, answer, resume, failAt);
        CursorOfWorker(s, step, sid);
      }
    case _ => OthersMoveNoCursor(s, step, sid);
  }

  lemma OthersMoveNoCursor(s: World, step: Step, sid: Id)
    requires sid in s.db.sessions && KeysOk(s.db, s.uuids) && !step.Act?
    ensures var db := Next(s, step).db;
            sid in db.sessions && db.sessions[sid].cursor == s.db.sessions[sid].cursor
  {
  }

  lemma CommandGivesEvidence(s: World, step: Step, id: Id)
    requires step.Act? && step.worker in s.workers && s.workers[step.worker].owner.Some?
    requires AtNode(s.workers[step.worker].pc, COMMIT)
    ensures var w := s.workers[step.worker];
            EvidenceStep(s, step, id, CommandTx(s.db, w.runId, w.owner.value, DEFAULT_AMOUNT, step.failAt, s.now).0)
  {
    var w := s.workers[step.worker];
    if w.runId in s.db.inputs {
      CommandWritesAll(s.db, w.runId, s.db.inputs[w.runId], DEFAULT_AMOUNT);
    }
  }

  lemma PublishGivesEvidence(s: World, step: Step, id: Id)
    requires step.Act? && step.worker in s.workers && s.workers[step.worker].owner.Some?
    requires AtNode(s.workers[step.worker].pc, PUBLISH)
    ensures var w := s.workers[step.worker];
            EvidenceStep(s, step, id, PublishTx(s.db, w.runId, w.owner.value, s.now).0)
  {
  }

  lemma AnswerGivesEvidence(s: World, step: Step, id: Id)
    requires step.Act? && step.worker in s.workers && s.workers[step.worker].owner.Some?
    requires s.workers[step.worker].pc.Answered?
    ensures var w := s.workers[step.worker];
            EvidenceStep(s, step, id, SaveArtifactTx(s.db, w.runId, w.owner.value, w.pc.answer, s.now).0)
  {
  }

  lemma OthersGiveNoEvidence(s: World, step: Step, runId: Id, owner: Owner, endRun: Id, id: Id)
    ensures EvidenceStep(s, step, id, s.db)
    ensures EvidenceStep(s, step, id, ClaimTx(s.db, s.uuids, runId, s.now, LEASE_MS).0)
    ensures EvidenceStep(s, step, id, RevokeTx(s.db, runId))
    ensures EvidenceStep(s, step, id, FinalizeTx(s.db, runId, owner, endRun, false, s.now).0)
    ensures forall accepted :: EvidenceStep(s, step, id, LogAttemptTx(s.db, s.uuids, runId, accepted))
  {
    hide Owns;
  }

  lemma EvidenceOfWorker(s: World, step: Step, id: Id)
    requires step.Act? && step.worker in s.workers
    ensures EvidenceStep(s, step, id, TablesAfter(s, step.worker, step.failAt))
  {
    hide EvidenceStep, CommandTx, PublishTx, SaveArtifactTx, FinalizeTx, RevokeTx, ClaimTx, LogAttemptTx;
    var w := s.workers[step.worker];
    OthersGiveNoEvidence(s, step, w.runId, if w.owner.Some? then w.owner.value else Owner(0, 0),
                         if w.pc.Ending? then w.pc.last.state.identity.runId else 0, id);
    if w.owner.Some? {
      if AtNode(w.pc, COMMIT) {
        CommandGivesEvidence(s, step, id);
      } else if AtNode(w.pc, PUBLISH) {
        PublishGivesEvidence(s, step, id);
      } else if w.pc.Answered? {
        AnswerGivesEvidence(s, step, id);
      }
    }
  }

  /** Behind every piece of evidence stands a live lease. */
  lemma EvidenceComesFromOwners(s: World, step: Step, id: Id)
    ensures EvidenceStep(s, step, id, Next(s, step).db)
  {
    hide Advance, TablesAfter;
    match step
    case Act(wid, answer, resume, failAt) =>
      if wid in s.workers {
        ActTables(s, wid, answer, resume, failAt);
        EvidenceOfWorker(s, step, id);
      }
    case _ =>
  }

  // ---------------------------------------------------------------- single transactions

  /** A command of a live owner for a run without a receipt, undisturbed, goes through exactly for
      the prices at which this fixture may ask for approval: 750.00 up to but without 850.00. */
  lemma CommandIsForApprovalOnly(approval: bool, now: int, steps: seq<Step>, runId: Id, owner: Owner, amount: int)
    ensures var s := Exec(Init(approval, now), steps);
            runId in s.db.inputs && runId !in s.db.receipts && Owns(s.db, runId, owner, s.now) ==>
              (CommandTx(s.db, runId, owner, amount, 0, s.now).1.Success? <==> 75000 <= amount < 85000)
  {
    Reachable(approval, now, steps);
    var s := Exec(Init(approval, now), steps);
    hide Exec, Init;
    hide WrittenOk, WorkersOk, Exclusive, TokensDiffer, LocksOk, AttemptsOk, SessionsOk, IndexesOk, KeysOk;
    if runId in s.db.inputs {
      assert RunOk(s.db, s.uuids, runId);
    }
  }

  /** A stored answer is handed out only as it was stored: one that does not match its own digest is
      refused, whatever it is. */
  lemma DamagedAnswerIsRefused(db: Tables, runId: Id, owner: Owner, now: int, value: string)
    ensures FindArtifactTx(db, runId, owner, now) == Success(Some(value)) ==>
              exists key :: key in db.artifacts && db.artifacts[key].value == value
                            && db.artifacts[key].valueHash == ValueDigest(value)
                            && key == ArtifactDigest(runId, db.inputs[runId].payloadHash, "p0-config-v1")
    ensures runId in db.inputs && Owns(db, runId, owner, now) ==>
              var key := ArtifactDigest(runId, db.inputs[runId].payloadHash, "p0-config-v1");
              key in db.artifacts && db.artifacts[key].valueHash != ValueDigest(db.artifacts[key].value) ==>
                FindArtifactTx(db, runId, owner, now) == Failure(Conflict)
  {
    if runId in db.inputs {
      var key := ArtifactDigest(runId, db.inputs[runId].payloadHash, "p0-config-v1");
      assert key == ArtifactKey(db, runId);
    }
  }
}
