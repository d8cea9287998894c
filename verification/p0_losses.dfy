/** What remains of crash recovery when the saver itself fails: it may at any moment lose a thread,
    or fall back to any checkpoint that was ever written for it. */
module P0Losses {
  import opened Outcomes
  import opened Recovery
  import opened P0Store
  import opened P0Machine
  import opened P0Safety
  import opened P0Writes
  import opened P0Steps
  import opened P0Runs
  import opened P0Theorems

  // ---------------------------------------------------------------- the entry decision

  predicate ShowsOwn(id: Id, snapshot: Option<Checkpoint>) {
    snapshot.Some? && snapshot.value.state.identity.runId == id
  }

  /** What `choose_entry` decides for a claimed run, whatever the saver lost: it goes on from a
      checkpoint of that run; shown none, it raises if the run left evidence or another run is
      unfinished in the thread, and starts the run otherwise. It is never HISTORY. */
  ghost predicate DecidesSafely(s: World, wid: Id, snapshot: Option<Checkpoint>)
    requires wid in s.workers
  {
    var id := s.workers[wid].runId;
    && id in s.db.inputs
    && SnapshotEntry(s, wid, snapshot) ==
       if ShowsOwn(id, snapshot) then Success(if snapshot.value.next == END then FINALIZE else RESUME)
       else if HasEvidence(s.db, id) || (snapshot.Some? && snapshot.value.next != END) then Failure(RecoveryConflict)
       else Success(START)
  }

  lemma PastDecides(s: World, wid: Id, snapshot: Option<Checkpoint>)
    requires wid in s.workers && IsHead(s.db, s.workers[wid].runId)
    requires s.db.inputs[s.workers[wid].runId].sessionId == s.workers[wid].sessionId
    requires snapshot.Some? ==> PastOk(s.db, s.workers[wid].sessionId, snapshot.value)
    ensures RunsOk(s.db, s.uuids) ==> DecidesSafely(s, wid, snapshot)
  {
    hide HasEvidence;
    if RunsOk(s.db, s.uuids) {
      assert RunOk(s.db, s.uuids, s.workers[wid].runId);
    }
  }

  lemma SnapshotDecides(s: World, wid: Id, snapshot: Option<Checkpoint>)
    requires wid in s.workers && s.workers[wid].pc == Snapped(snapshot) && (Holds(s, wid) || WorkerMatches(s, wid))
    ensures Inv(s) ==> DecidesSafely(s, wid, snapshot)
  {
    InvParts(s);
    hide Inv, RunsOk, IndexesOk, EvidenceOk, KeysOk, SessionsOk, WrittenOk, WorkersOk, LocksOk, PastOk,
         DecidesSafely;
    WorkerIsOk(s, wid);
    if Inv(s) {
      PastDecides(s, wid, snapshot);
    }
  }

  /** Over every run, with any losses: a run that left evidence and whose checkpoint is not shown is
      refused, and its worker leaves no trace. So a lost checkpoint never restarts a run. */
  lemma LostCheckpointIsRefused(approval: bool, now: int, steps: seq<Step>, wid: Id, snapshot: Option<Checkpoint>,
                                answer: string, resume: Option<bool>, failAt: nat)
    ensures var s := Exec(Init(approval, now), steps);
            wid in s.workers && s.workers[wid].pc == Snapped(snapshot) && (Holds(s, wid) || WorkerMatches(s, wid)) ==>
              && DecidesSafely(s, wid, snapshot)
              && (HasEvidence(s.db, s.workers[wid].runId) && !ShowsOwn(s.workers[wid].runId, snapshot) ==>
                    Next(s, Act(wid, answer, resume, failAt)) == Exit(s, wid))
  {
    Reachable(approval, now, steps);
    var s := Exec(Init(approval, now), steps);
    hide Exec, Init, Inv, HasEvidence;
    if wid in s.workers && s.workers[wid].pc == Snapped(snapshot) && (Holds(s, wid) || WorkerMatches(s, wid)) {
      SnapshotDecides(s, wid, snapshot);
      if HasEvidence(s.db, s.workers[wid].runId) && !ShowsOwn(s.workers[wid].runId, snapshot) {
        RefusedExits(s, wid, snapshot, answer, resume, failAt);
      }
    }
  }

  lemma RefusedExits(s: World, wid: Id, snapshot: Option<Checkpoint>, answer: string, resume: Option<bool>, failAt: nat)
    requires Inv(s) && wid in s.workers && s.workers[wid].pc == Snapped(snapshot)
    requires s.workers[wid].runId in s.db.inputs && SnapshotEntry(s, wid, snapshot) == Failure(RecoveryConflict)
    ensures Next(s, Act(wid, answer, resume, failAt)) == Exit(s, wid)
  {
    InvParts(s);
    hide Inv, TablesOk, SessionsOk, WrittenOk, WorkersOk, LocksOk, SnapshotEntry, Next, ViewOk;
    WorkerIsOk(s, wid);
    SnappedEnters(s, wid, snapshot, answer, resume, failAt);
  }

  lemma SnappedEnters(s: World, wid: Id, snapshot: Option<Checkpoint>, answer: string, resume: Option<bool>,
                      failAt: nat)
    requires wid in s.workers && s.workers[wid].pc == Snapped(snapshot) && s.workers[wid].owner.Some?
    ensures Next(s, Act(wid, answer, resume, failAt)) == Enter(s, wid, snapshot)
  {
    hide Enter;
  }

  // ---------------------------------------------------------------- nothing is started over

  /** A step puts the first checkpoint of a turn on a thread. */
  predicate StartsOver(s: World, s': World, sid: Id) {
    && sid in s'.saved
    && s'.saved[sid].next == QUERY
    && Saved(s', sid) != Saved(s, sid)
  }

  lemma SaveStartsOver(s: World, wid: Id, c: Checkpoint, sid: Id)
    requires wid in s.workers && StartsOver(s, Save(s, wid, c), sid)
    ensures Holds(s, wid) && Save(s, wid, c).saved[sid] == c
  {
  }

  /** Only a worker that enters with START does that. */
  lemma ActStartsOver(s: World, wid: Id, answer: string, resume: Option<bool>, failAt: nat, sid: Id)
    requires wid in s.workers && StartsOver(s, Advance(s, wid, answer, resume, failAt), sid)
    ensures s.workers[wid].pc.Begin? || s.workers[wid].pc.Done?
    ensures s.workers[wid].owner.Some?
  {
    hide Holds, ClaimTx, FindArtifactTx, SaveArtifactTx, CommandTx, PublishTx, FinalizeTx, RevokeTx, LogAttemptTx,
         SnapshotEntry, Save;
  }

  lemma BeginsWithoutEvidence(s: World, wid: Id, answer: string, resume: Option<bool>, failAt: nat, sid: Id)
    requires Inv(s) && wid in s.workers
    ensures var s' := Advance(s, wid, answer, resume, failAt);
            StartsOver(s, s', sid) ==> !HasEvidence(s.db, s'.saved[sid].state.identity.runId)
  {
    hide Inv, HasEvidence, CheckpointOk;
    var s' := Advance(s, wid, answer, resume, failAt);
    if StartsOver(s, s', sid) {
      ActStartsOver(s, wid, answer, resume, failAt, sid);
      var w := s.workers[wid];
      WriterSaves(s, wid, answer, resume, failAt, sid);
      assert Holds(s, wid) && HasRead(w.pc);
      ActorKnows(s, wid);
      EvidenceIsAnswered(s, w.runId);
    }
  }

  lemma WriterSaves(s: World, wid: Id, answer: string, resume: Option<bool>, failAt: nat, sid: Id)
    requires wid in s.workers && StartsOver(s, Advance(s, wid, answer, resume, failAt), sid)
    requires s.workers[wid].owner.Some? && (s.workers[wid].pc.Begin? || s.workers[wid].pc.Done?)
    ensures var w := s.workers[wid];
            && Holds(s, wid)
            && (w.pc.Begin? ==> Advance(s, wid, answer, resume, failAt).saved[sid].state.identity.runId == w.runId)
            && (w.pc.Done? ==> w.pc.next == QUERY)
  {
    var w := s.workers[wid];
    if w.pc.Done? {
      SaveStartsOver(s, wid, Checkpoint(w.pc.state, w.pc.next), sid);
    } else if w.runId in s.db.inputs {
      SaveStartsOver(s, wid, Checkpoint(NewTurn(w.runId, s.db.inputs[w.runId]), QUERY), sid);
    }
  }

  lemma EvidenceIsAnswered(s: World, id: Id)
    ensures Inv(s) && HasEvidence(s.db, id) ==> Answers(s.db, id)
  {
    InvParts(s);
    hide Inv, HasEvidence, Answers, RunsOk, IndexesOk, EvidenceOk, KeysOk, SessionsOk, WrittenOk, WorkersOk,
         LocksOk;
    EvidenceNeedsAnswer(s.db, id);
  }

  /** Over every run, with any losses: a worker that writes the first checkpoint of a turn does so
      for a run that has neither artifact nor receipt nor message. */
  lemma NothingIsStartedOver(approval: bool, now: int, steps: seq<Step>, wid: Id, answer: string,
                             resume: Option<bool>, failAt: nat, sid: Id)
    ensures var s := Exec(Init(approval, now), steps);
            var s' := Next(s, Act(wid, answer, resume, failAt));
            StartsOver(s, s', sid) ==> !HasEvidence(s.db, s'.saved[sid].state.identity.runId)
  {
    Reachable(approval, now, steps);
    var s := Exec(Init(approval, now), steps);
    hide Exec, Init, Inv, HasEvidence, Advance;
    if wid in s.workers {
      BeginsWithoutEvidence(s, wid, answer, resume, failAt, sid);
    }
  }

  // ---------------------------------------------------------------- only faults lose checkpoints

  predicate LosesThread(step: Step, sid: Id) {
    (step.LoseCheckpoint? || step.RevertCheckpoint?) && step.sid == sid
  }

  lemma ActLosesNothing(s: World, wid: Id, answer: string, resume: Option<bool>, failAt: nat)
    requires wid in s.workers
    ensures Advance(s, wid, answer, resume, failAt).lost == s.lost
  {
    hide RunQuery, RunSemantic, RunCommit, RunApproval, RunPublish, Claim, ReadCheckpoint, Enter, Save, AcceptAnswer,
         LogAttempt, ReadLast, Close;
    var w := s.workers[wid];
    ClaimLosesNothing(s, wid);
    if w.owner.Some? {
      match w.pc
      case At(_, state) => NodeLosesNothing(s, wid, state, resume, failAt);
      case Answered(state, value) => WriterLosesNothing(s, wid, state, value, false, None);
      case Logging(state, value, accepted) => WriterLosesNothing(s, wid, state, value, accepted, None);
      case Ending(last) => WriterLosesNothing(s, wid, last.state, "", false, Some(last));
      case Snapped(snapshot) => QuietLosesNothing(s, wid, snapshot, None);
      case Done(next, state) => QuietLosesNothing(s, wid, None, Some(Checkpoint(state, next)));
      case Begin =>
        if w.runId in s.db.inputs {
          QuietLosesNothing(s, wid, None, Some(Checkpoint(NewTurn(w.runId, s.db.inputs[w.runId]), QUERY)));
        }
      case _ => QuietLosesNothing(s, wid, None, None);
    }
  }

  lemma ClaimLosesNothing(s: World, wid: Id)
    requires wid in s.workers
    ensures Claim(s, wid).lost == s.lost
  {
    hide ClaimTx;
  }

  lemma QuietLosesNothing(s: World, wid: Id, snapshot: Option<Checkpoint>, c: Option<Checkpoint>)
    requires wid in s.workers
    ensures ReadCheckpoint(s, wid).lost == s.lost && ReadLast(s, wid).lost == s.lost
    ensures Enter(s, wid, snapshot).lost == s.lost && (c.Some? ==> Save(s, wid, c.value).lost == s.lost)
  {
    hide Holds, SnapshotEntry;
  }

  lemma WriterLosesNothing(s: World, wid: Id, state: ProbeState, answer: string, accepted: bool,
                           last: Option<Checkpoint>)
    requires wid in s.workers && s.workers[wid].owner.Some?
    ensures AcceptAnswer(s, wid, state, answer).lost == s.lost
    ensures LogAttempt(s, wid, state, answer, accepted).lost == s.lost
    ensures last.Some? ==> Close(s, wid, last.value).lost == s.lost
  {
    hide SaveArtifactTx, LogAttemptTx, FinalizeTx, RevokeTx;
  }

  lemma NodeLosesNothing(s: World, wid: Id, state: ProbeState, resume: Option<bool>, failAt: nat)
    requires wid in s.workers && s.workers[wid].owner.Some?
    ensures RunQuery(s, wid, state).lost == s.lost && RunSemantic(s, wid, state).lost == s.lost
    ensures RunCommit(s, wid, state, failAt).lost == s.lost && RunPublish(s, wid, state).lost == s.lost
    ensures RunApproval(s, wid, state, resume).lost == s.lost
  {
    hide Holds, ClaimTx, FindArtifactTx, SaveArtifactTx, CommandTx, PublishTx, FinalizeTx, RevokeTx, LogAttemptTx,
         SnapshotEntry;
  }

  lemma StepLoses(s: World, step: Step, sid: Id)
    requires sid !in s.lost && !LosesThread(step, sid)
    ensures sid !in Next(s, step).lost
  {
    hide Advance;
    if step.Act? && step.worker in s.workers {
      ActLosesNothing(s, step.worker, step.answer, step.resume, step.failAt);
    }
  }

  /** A thread counts as having lost a checkpoint only after a step that lost or reverted one. In
      runs without such steps recovery never stalls, and no head is stuck. */
  lemma {:induction false} LossIsAFault(s: World, steps: seq<Step>, sid: Id)
    requires sid !in s.lost && forall i :: 0 <= i < |steps| ==> !LosesThread(steps[i], sid)
    ensures sid !in Exec(s, steps).lost
    decreases |steps|
  {
    hide Next;
    if steps != [] {
      StepLoses(s, steps[0], sid);
      LossIsAFault(Next(s, steps[0]), steps[1..], sid);
    }
  }
}
