/** The seller's answer in the P0 protocol: over every run of the machine, the approval that a
    checkpoint carries is an answer that was given to its own run. */
module P0Approval {
  import opened Outcomes
  import opened Recovery
  import opened P0Store
  import opened P0Machine
  import opened P0Theorems

  // ---------------------------------------------------------------- the answers given

  /** The answer that a step resumes a run with: a worker of that run stands at its approval node. */
  function AnswersBy(s: World, step: Step): set<(Id, bool)> {
    if step.Act? && step.resume.Some? && step.worker in s.workers
       && s.workers[step.worker].pc.At? && s.workers[step.worker].pc.node == APPROVAL
    then {(s.workers[step.worker].runId, step.resume.value)}
    else {}
  }

  /** All answers given along a run of the machine: history, which no step reads. */
  ghost function AnswersGiven(s: World, steps: seq<Step>): set<(Id, bool)>
    decreases |steps|
  {
    if steps == [] then {} else AnswersBy(s, steps[0]) + AnswersGiven(Next(s, steps[0]), steps[1..])
  }

  // ---------------------------------------------------------------- the invariant

  /** With approval, a checkpoint past the approval node carries an answer given to its run; every
      other checkpoint is not approved. */
  predicate AsAnswered(approval: bool, given: set<(Id, bool)>, c: Checkpoint) {
    if approval && c.next in {PUBLISH, END} then (c.state.identity.runId, c.state.approved) in given
    else !c.state.approved && (c.next == APPROVAL ==> approval)
  }

  predicate CarriesAnswer(approval: bool, given: set<(Id, bool)>, runId: Id, state: ProbeState, next: Node) {
    state.identity.runId == runId && AsAnswered(approval, given, Checkpoint(state, next))
  }

  /** What a worker carries, whether it still owns its run or not. */
  predicate WorkerAnswered(approval: bool, given: set<(Id, bool)>, w: Worker) {
    match w.pc
    case Snapped(snapshot) => snapshot.Some? ==> AsAnswered(approval, given, snapshot.value)
    case At(node, state) => CarriesAnswer(approval, given, w.runId, state, node)
    case Calling(state) => CarriesAnswer(approval, given, w.runId, state, SEMANTIC)
    case Answered(state, _) => CarriesAnswer(approval, given, w.runId, state, SEMANTIC)
    case Logging(state, _, _) => CarriesAnswer(approval, given, w.runId, state, SEMANTIC)
    case Done(next, state) => CarriesAnswer(approval, given, w.runId, state, next)
    case _ => true
  }

  ghost predicate AllAnswered(s: World, given: set<(Id, bool)>) {
    && (forall sid, c :: (sid, c) in s.written ==> AsAnswered(s.approval, given, c))
    && (forall sid :: sid in s.saved ==> AsAnswered(s.approval, given, s.saved[sid]))
    && (forall wid :: wid in s.workers ==> WorkerAnswered(s.approval, given, s.workers[wid]))
  }

  /** Nothing is published before the seller was asked and answered. */
  ghost predicate PublishedIsAnswered(s: World, given: set<(Id, bool)>) {
    s.approval ==> forall id :: id in s.db.messages ==> exists b :: (id, b) in given
  }

  // ---------------------------------------------------------------- one worker moves

  /** Only worker `wid` moves, or leaves; no checkpoint is written. */
  ghost predicate OneMoves(s: World, s': World, wid: Id) {
    && s'.approval == s.approval && s'.written == s.written && s'.saved == s.saved
    && (forall v :: v in s'.workers && v != wid ==> v in s.workers && s'.workers[v] == s.workers[v])
  }

  lemma WorkerStill(approval: bool, given: set<(Id, bool)>, given': set<(Id, bool)>, w: Worker)
    requires given <= given'
    ensures WorkerAnswered(approval, given, w) ==> WorkerAnswered(approval, given', w)
  {
  }

  lemma MoveAnswered(s: World, s': World, given: set<(Id, bool)>, given': set<(Id, bool)>, wid: Id)
    requires given <= given' && OneMoves(s, s', wid)
    requires AllAnswered(s, given) && wid in s'.workers ==> WorkerAnswered(s'.approval, given', s'.workers[wid])
    ensures AllAnswered(s, given) ==> AllAnswered(s', given')
  {
    hide WorkerAnswered;
    if AllAnswered(s, given) {
      forall v | v in s'.workers ensures WorkerAnswered(s'.approval, given', s'.workers[v]) {
        if v != wid {
          WorkerStill(s.approval, given, given', s.workers[v]);
        }
      }
    }
  }

  lemma ExitMoves(s: World, wid: Id)
    ensures OneMoves(s, Exit(s, wid), wid) && wid !in Exit(s, wid).workers
  {
  }

  /** The move of a worker that carries on what it may carry. */
  ghost predicate MovesOn(s: World, s': World, wid: Id, given: set<(Id, bool)>) {
    OneMoves(s, s', wid) && (wid in s'.workers ==> WorkerAnswered(s'.approval, given, s'.workers[wid]))
  }

  lemma EnterMoves(s: World, wid: Id, snapshot: Option<Checkpoint>, given: set<(Id, bool)>)
    requires wid in s.workers && s.workers[wid].pc == Snapped(snapshot)
    requires WorkerAnswered(s.approval, given, s.workers[wid])
    ensures MovesOn(s, Enter(s, wid, snapshot), wid, given)
  {
    hide HasEvidence;
  }

  lemma ReadMoves(s: World, wid: Id, given: set<(Id, bool)>)
    requires wid in s.workers && AllAnswered(s, given)
    ensures MovesOn(s, ReadCheckpoint(s, wid), wid, given) && MovesOn(s, ReadLast(s, wid), wid, given)
  {
    hide Holds;
  }

  lemma ClaimMoves(s: World, wid: Id, given: set<(Id, bool)>)
    requires wid in s.workers && s.workers[wid].pc.Locked?
    ensures MovesOn(s, Claim(s, wid), wid, given)
  {
    hide ClaimTx;
  }

  lemma CloseMoves(s: World, wid: Id, last: Checkpoint, given: set<(Id, bool)>)
    requires wid in s.workers && s.workers[wid].owner.Some?
    ensures MovesOn(s, Close(s, wid, last), wid, given)
  {
    hide FinalizeTx, RevokeTx;
  }

  lemma CallMoves(s: World, wid: Id, state: ProbeState, answer: string, given: set<(Id, bool)>)
    requires wid in s.workers && s.workers[wid].owner.Some? && s.workers[wid].pc == Answered(state, answer)
    requires WorkerAnswered(s.approval, given, s.workers[wid])
    ensures MovesOn(s, AcceptAnswer(s, wid, state, answer), wid, given)
  {
    hide SaveArtifactTx;
  }

  lemma LogMoves(s: World, wid: Id, state: ProbeState, answer: string, accepted: bool, given: set<(Id, bool)>)
    requires wid in s.workers && s.workers[wid].pc == Logging(state, answer, accepted)
    requires WorkerAnswered(s.approval, given, s.workers[wid])
    ensures MovesOn(s, LogAttempt(s, wid, state, answer, accepted), wid, given)
  {
    hide LogAttemptTx;
  }

  lemma EarlyNodesMove(s: World, wid: Id, given: set<(Id, bool)>)
    requires wid in s.workers && s.workers[wid].owner.Some? && s.workers[wid].pc.At?
    requires WorkerAnswered(s.approval, given, s.workers[wid])
    ensures s.workers[wid].pc.node == QUERY ==> MovesOn(s, RunQuery(s, wid, s.workers[wid].pc.state), wid, given)
    ensures s.workers[wid].pc.node == SEMANTIC ==> MovesOn(s, RunSemantic(s, wid, s.workers[wid].pc.state), wid, given)
  {
    hide Holds, FindArtifactTx;
  }

  lemma LateNodesMove(s: World, wid: Id, failAt: nat, given: set<(Id, bool)>)
    requires wid in s.workers && s.workers[wid].owner.Some? && s.workers[wid].pc.At?
    requires WorkerAnswered(s.approval, given, s.workers[wid])
    ensures s.workers[wid].pc.node == COMMIT ==>
              MovesOn(s, RunCommit(s, wid, s.workers[wid].pc.state, failAt), wid, given)
    ensures s.workers[wid].pc.node == PUBLISH ==> MovesOn(s, RunPublish(s, wid, s.workers[wid].pc.state), wid, given)
  {
    hide CommandTx, PublishTx;
  }

  /** The approval node takes the seller's answer over. */
  lemma ApprovalMoves(s: World, wid: Id, resume: Option<bool>, step: Step, given: set<(Id, bool)>)
    requires wid in s.workers && s.workers[wid].pc.At? && s.workers[wid].pc.node == APPROVAL
    requires step.Act? && step.worker == wid && step.resume == resume
    requires WorkerAnswered(s.approval, given, s.workers[wid])
    ensures MovesOn(s, RunApproval(s, wid, s.workers[wid].pc.state, resume), wid, given + AnswersBy(s, step))
  {
  }

  lemma GotoMoves(s: World, wid: Id, pc: Pc, given: set<(Id, bool)>)
    requires wid in s.workers && WorkerAnswered(s.approval, given, s.workers[wid].(pc := pc))
    ensures MovesOn(s, Goto(s, wid, pc), wid, given)
  {
  }

  // ---------------------------------------------------------------- every step

  lemma SaveAnswers(s: World, wid: Id, c: Checkpoint, given: set<(Id, bool)>)
    requires wid in s.workers && c.state.identity.runId == s.workers[wid].runId
    requires AsAnswered(s.approval, given, c)
    ensures AllAnswered(s, given) ==> AllAnswered(Save(s, wid, c), given)
    ensures Save(s, wid, c).approval == s.approval
  {
    hide Holds;
    ExitMoves(s, wid);
    MoveAnswered(s, Exit(s, wid), given, given, wid);
    hide AsAnswered, Exit;
  }

  lemma NodeMoves(s: World, wid: Id, answer: string, resume: Option<bool>, failAt: nat, given: set<(Id, bool)>)
    requires wid in s.workers && s.workers[wid].owner.Some? && s.workers[wid].pc.At?
    requires WorkerAnswered(s.approval, given, s.workers[wid])
    ensures var step := Act(wid, answer, resume, failAt);
            MovesOn(s, Advance(s, wid, answer, resume, failAt), wid, given + AnswersBy(s, step))
  {
    hide MovesOn, RunQuery, RunSemantic, RunCommit, RunApproval, RunPublish, WorkerAnswered;
    var given' := given + AnswersBy(s, Act(wid, answer, resume, failAt));
    WorkerStill(s.approval, given, given', s.workers[wid]);
    match s.workers[wid].pc.node
    case APPROVAL => ApprovalMoves(s, wid, resume, Act(wid, answer, resume, failAt), given);
    case END => EndMoves(s, wid, given');
    case _ =>
      EarlyNodesMove(s, wid, given');
      LateNodesMove(s, wid, failAt, given');
  }

  lemma EndMoves(s: World, wid: Id, given: set<(Id, bool)>)
    requires wid in s.workers
    ensures MovesOn(s, Goto(s, wid, Invoked), wid, given)
  {
  }

  lemma OtherMoves(s: World, wid: Id, answer: string, resume: Option<bool>, failAt: nat, given: set<(Id, bool)>)
    requires wid in s.workers && s.workers[wid].owner.Some? && AllAnswered(s, given)
    requires var pc := s.workers[wid].pc; !pc.Locked? && !pc.At? && !pc.Begin? && !pc.Done?
    ensures MovesOn(s, Advance(s, wid, answer, resume, failAt), wid, given)
  {
    hide AllAnswered, MovesOn, ReadCheckpoint, Enter, AcceptAnswer, LogAttempt, ReadLast, Close;
    CarriedNow(s, wid, given);
    match s.workers[wid].pc
    case Snapped(snapshot) => EnterMoves(s, wid, snapshot, given);
    case Calling(state) => GotoMoves(s, wid, Answered(state, answer), given);
    case Answered(state, value) => CallMoves(s, wid, state, value, given);
    case Logging(state, value, accepted) => LogMoves(s, wid, state, value, accepted, given);
    case Ending(last) => CloseMoves(s, wid, last, given);
    case _ => ReadMoves(s, wid, given);
  }

  lemma CarriedNow(s: World, wid: Id, given: set<(Id, bool)>)
    requires wid in s.workers
    ensures AllAnswered(s, given) ==> WorkerAnswered(s.approval, given, s.workers[wid])
  {
  }

  lemma MovedOn(s: World, s': World, given: set<(Id, bool)>, given': set<(Id, bool)>, wid: Id)
    requires given <= given' && AllAnswered(s, given)
    ensures MovesOn(s, s', wid, given') ==> AllAnswered(s', given') && s'.approval == s.approval
  {
    hide AllAnswered, WorkerAnswered;
    if MovesOn(s, s', wid, given') {
      MoveAnswered(s, s', given, given', wid);
    }
  }

  lemma Unmoved(s: World, given: set<(Id, bool)>, given': set<(Id, bool)>)
    requires given <= given'
    ensures AllAnswered(s, given) ==> AllAnswered(s, given')
  {
  }

  lemma ActAnswers(s: World, wid: Id, answer: string, resume: Option<bool>, failAt: nat, given: set<(Id, bool)>)
    requires wid in s.workers && AllAnswered(s, given)
    ensures var s' := Advance(s, wid, answer, resume, failAt);
            && AllAnswered(s', given + AnswersBy(s, Act(wid, answer, resume, failAt)))
            && s'.approval == s.approval
  {
    hide AllAnswered, MovesOn, Claim, ReadCheckpoint, Enter, Save, AcceptAnswer, LogAttempt, ReadLast, Close, Exit,
         RunQuery, RunSemantic, RunCommit, RunApproval, RunPublish, AnswersBy;
    var w := s.workers[wid];
    var s' := Advance(s, wid, answer, resume, failAt);
    var given' := given + AnswersBy(s, Act(wid, answer, resume, failAt));
    CarriedNow(s, wid, given);
    Unmoved(s, given, given');
    MovedOn(s, s', given, given', wid);
    MovedOn(s, s', given', given', wid);
    if w.pc.Locked? {
      ClaimMoves(s, wid, given');
    } else if w.owner.Some? {
      if w.pc.At? {
        NodeMoves(s, wid, answer, resume, failAt, given);
      } else if w.pc.Begin? && w.runId in s.db.inputs {
        SaveAnswers(s, wid, Checkpoint(NewTurn(w.runId, s.db.inputs[w.runId]), QUERY), given');
      } else if w.pc.Begin? {
        LeftMoves(s, wid, given');
      } else if w.pc.Done? {
        CarriedNow(s, wid, given');
        SaveAnswers(s, wid, Checkpoint(w.pc.state, w.pc.next), given');
      } else {
        OtherMoves(s, wid, answer, resume, failAt, given');
      }
    }
  }

  lemma LeftMoves(s: World, wid: Id, given: set<(Id, bool)>)
    ensures MovesOn(s, Exit(s, wid), wid, given)
  {
  }

  lemma StartAnswers(s: World, runId: Id, given: set<(Id, bool)>)
    ensures AllAnswered(s, given) ==> AllAnswered(StartOn(s, runId), given)
    ensures StartOn(s, runId).approval == s.approval
  {
  }

  lemma LostAnswers(s: World, sid: Id, given: set<(Id, bool)>)
    ensures AllAnswered(s, given) ==> AllAnswered(Lose(s, sid), given)
  {
    hide AsAnswered, WorkerAnswered;
  }

  lemma RevertAnswers(s: World, sid: Id, older: Checkpoint, given: set<(Id, bool)>)
    ensures AllAnswered(s, given) ==> AllAnswered(Revert(s, sid, older), given)
  {
    hide AsAnswered, WorkerAnswered;
  }

  lemma NextAnswers(s: World, step: Step, given: set<(Id, bool)>)
    requires AllAnswered(s, given)
    ensures AllAnswered(Next(s, step), given + AnswersBy(s, step)) && Next(s, step).approval == s.approval
  {
    hide Advance, EnqueueTx, SeedTx, RevokeTx, AsAnswered, WorkerAnswered, StartOn, Exit, Unlock, AllAnswered;
    assert step.Act? || given + AnswersBy(s, step) == given;
    match step
    case Act(wid, answer, resume, failAt) =>
      if wid in s.workers {
        ActAnswers(s, wid, answer, resume, failAt, given);
      } else {
        Unmoved(s, given, given + AnswersBy(s, step));
      }
    case StartWorker(runId) => StartAnswers(s, runId, given);
    case Crash(wid) =>
      LeftMoves(s, wid, given);
      MovedOn(s, Exit(s, wid), given, given, wid);
    case LoseCheckpoint(sid) => LostAnswers(s, sid, given);
    case RevertCheckpoint(sid, older) => RevertAnswers(s, sid, older, given);
    case _ => BesidesAnswers(s, Next(s, step), given);
  }

  /** What a step changes besides workers and checkpoints. */
  lemma BesidesAnswers(s: World, s': World, given: set<(Id, bool)>)
    requires s'.written == s.written && s'.saved == s.saved && s'.workers == s.workers && s'.approval == s.approval
    ensures AllAnswered(s, given) ==> AllAnswered(s', given)
  {
    hide AsAnswered, WorkerAnswered;
  }

  lemma {:induction false} ExecAnswers(s: World, steps: seq<Step>, given: set<(Id, bool)>)
    requires AllAnswered(s, given)
    ensures AllAnswered(Exec(s, steps), given + AnswersGiven(s, steps)) && Exec(s, steps).approval == s.approval
    decreases |steps|
  {
    hide AllAnswered, Next, AnswersBy;
    if steps == [] {
      assert given + AnswersGiven(s, steps) == given;
    } else {
      var given' := given + AnswersBy(s, steps[0]);
      NextAnswers(s, steps[0], given);
      ExecAnswers(Next(s, steps[0]), steps[1..], given');
      assert given + AnswersGiven(s, steps) == given' + AnswersGiven(Next(s, steps[0]), steps[1..]);
    }
  }

  /** Over every interleaving, with any number of crashes at the approval node and even of checkpoints
      lost by the saver: a checkpoint past the approval node says what the seller answered to its own
      run; before that node, and in sessions without one, it says that nothing was approved. */
  lemma SellersAnswerIsKept(approval: bool, now: int, steps: seq<Step>, sid: Id, c: Checkpoint)
    ensures (sid, c) in Exec(Init(approval, now), steps).written ==>
              if approval && c.next in {PUBLISH, END}
              then (c.state.identity.runId, c.state.approved) in AnswersGiven(Init(approval, now), steps)
              else !c.state.approved && (c.next == APPROVAL ==> approval)
  {
    hide Exec;
    var s := Init(approval, now);
    ExecAnswers(s, steps, {});
    assert {} + AnswersGiven(s, steps) == AnswersGiven(s, steps);
  }

  // ---------------------------------------------------------------- nothing is published unasked

  lemma MessagesAfter(s: World, wid: Id, failAt: nat)
    requires wid in s.workers
    ensures var w := s.workers[wid];
            forall id :: id in TablesAfter(s, wid, failAt).messages ==>
              id in s.db.messages || (w.pc.At? && w.pc.node == PUBLISH && id == w.runId)
  {
    hide CommandTx, ClaimTx, SaveArtifactTx, FinalizeTx, RevokeTx, LogAttemptTx;
    var w := s.workers[wid];
    QuietMessages(s, w.runId);
    if w.owner.Some? {
      OwnMessages(s, w.runId, w.owner.value, failAt);
      if w.pc.Ending? {
        EndMessages(s, w.runId, w.owner.value, w.pc.last.state.identity.runId);
      }
    }
  }

  lemma QuietMessages(s: World, runId: Id)
    ensures ClaimTx(s.db, s.uuids, runId, s.now, LEASE_MS).0.messages == s.db.messages
    ensures RevokeTx(s.db, runId).messages == s.db.messages
    ensures forall accepted :: LogAttemptTx(s.db, s.uuids, runId, accepted).messages == s.db.messages
  {
    hide RevokeTx, LogAttemptTx, ClaimTx;
    ClaimMessages(s.db, s.uuids, runId, s.now);
    RevokeMessages(s.db, runId);
    forall accepted ensures LogAttemptTx(s.db, s.uuids, runId, accepted).messages == s.db.messages {
      LogMessages(s.db, s.uuids, runId, accepted);
    }
  }

  lemma ClaimMessages(db: Tables, newToken: Id, runId: Id, now: int)
    ensures ClaimTx(db, newToken, runId, now, LEASE_MS).0.messages == db.messages
  {
    hide Claimable;
  }

  lemma RevokeMessages(db: Tables, runId: Id)
    ensures RevokeTx(db, runId).messages == db.messages
  {
  }

  lemma LogMessages(db: Tables, newId: Id, runId: Id, accepted: bool)
    ensures LogAttemptTx(db, newId, runId, accepted).messages == db.messages
  {
  }

  lemma OwnMessages(s: World, runId: Id, owner: Owner, failAt: nat)
    ensures CommandTx(s.db, runId, owner, DEFAULT_AMOUNT, failAt, s.now).0.messages == s.db.messages
    ensures forall answer :: SaveArtifactTx(s.db, runId, owner, answer, s.now).0.messages == s.db.messages
  {
    hide Owns, CommandCollides;
    if runId in s.db.inputs {
      CommandWritesAll(s.db, runId, s.db.inputs[runId], DEFAULT_AMOUNT);
    }
  }

  lemma EndMessages(s: World, runId: Id, owner: Owner, endRun: Id)
    ensures FinalizeTx(s.db, runId, owner, endRun, false, s.now).0.messages == s.db.messages
  {
    hide Owns;
  }

  lemma NextPublishes(s: World, step: Step, given: set<(Id, bool)>)
    requires AllAnswered(s, given) && PublishedIsAnswered(s, given)
    ensures PublishedIsAnswered(Next(s, step), given + AnswersBy(s, step))
  {
    hide Advance, AllAnswered, TablesAfter, AnswersBy;
    NextAnswers(s, step, given);
    if step.Act? && step.worker in s.workers {
      ActTables(s, step.worker, step.answer, step.resume, step.failAt);
      MessagesAfter(s, step.worker, step.failAt);
      CarriedNow(s, step.worker, given);
    }
  }

  lemma {:induction false} ExecPublishes(s: World, steps: seq<Step>, given: set<(Id, bool)>)
    requires AllAnswered(s, given) && PublishedIsAnswered(s, given)
    ensures PublishedIsAnswered(Exec(s, steps), given + AnswersGiven(s, steps))
    decreases |steps|
  {
    hide AllAnswered, Next, AnswersBy, PublishedIsAnswered;
    if steps == [] {
      assert given + AnswersGiven(s, steps) == given;
    } else {
      var given' := given + AnswersBy(s, steps[0]);
      NextAnswers(s, steps[0], given);
      NextPublishes(s, steps[0], given);
      ExecPublishes(Next(s, steps[0]), steps[1..], given');
      assert given + AnswersGiven(s, steps) == given' + AnswersGiven(Next(s, steps[0]), steps[1..]);
    }
  }

  /** In a session with approval, no run is published before its seller answered. */
  lemma NothingIsPublishedUnasked(now: int, steps: seq<Step>, id: Id)
    requires id in Exec(Init(true, now), steps).db.messages
    ensures exists b :: (id, b) in AnswersGiven(Init(true, now), steps)
  {
    hide Exec;
    var s := Init(true, now);
    ExecAnswers(s, steps, {});
    ExecPublishes(s, steps, {});
    assert {} + AnswersGiven(s, steps) == AnswersGiven(s, steps);
  }
}
