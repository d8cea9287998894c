/** Every action of a worker keeps the P0 invariant, and so does every run of the machine. */
module P0Runs {
  import opened Outcomes
  import opened Recovery
  import opened P0Store
  import opened P0Machine
  import opened P0Safety
  import opened P0Writes
  import opened P0Steps

  // ---------------------------------------------------------------- what an acting worker knows

  predicate Acting(s: World, wid: Id) {
    wid in s.workers && s.workers[wid].owner.Some? && HasRead(s.workers[wid].pc) &&
    (Holds(s, wid) || WorkerMatches(s, wid))
  }

  ghost predicate ActorFacts(s: World, wid: Id)
    requires wid in s.workers
  {
    var w := s.workers[wid];
    && IsHead(s.db, w.runId)
    && s.db.inputs[w.runId].sessionId == w.sessionId
    && w.sessionId in s.db.products
    && ViewOk(s, wid)
    && (Saved(s, w.sessionId).Some? ==> PastOk(s.db, w.sessionId, Saved(s, w.sessionId).value))
    && (Answers(s.db, w.runId) ==> HasEvidence(s.db, w.runId))
  }

  lemma ActorKnows(s: World, wid: Id)
    ensures Inv(s) && Acting(s, wid) ==> ActorFacts(s, wid)
  {
    hide TablesOk, WrittenOk, WorkerOk, WorkersOk, Exclusive, TokensDiffer, LocksOk, AttemptsOk, SessionsOk;
    if Inv(s) && Acting(s, wid) {
      WorkerIsOk(s, wid);
      ActorHasChecked(s, wid);
    }
  }

  lemma ActorHasChecked(s: World, wid: Id)
    requires Acting(s, wid)
    ensures TablesOk(s.db, s.uuids) && WorkerOk(s, wid) && WrittenOk(s) ==> ActorFacts(s, wid)
  {
    AnswerIsEvidence(s.db, s.workers[wid].runId);
    hide RunsOk, IndexesOk, EvidenceOk, ViewOk, PastOk, Answers, HasEvidence;
  }

  lemma AnswerIsEvidence(db: Tables, id: Id)
    ensures EvidenceOk(db) && Answers(db, id) ==> HasEvidence(db, id)
  {
    if EvidenceOk(db) && Answers(db, id) {
      assert ArtifactOk(db, ArtifactKey(db, id));
    }
  }

  /** A worker that may write for its run and is past the start is the only one left to act. */
  lemma WriterIsAlone(s: World, wid: Id)
    requires Acting(s, wid) && WorkerMatches(s, wid) && !s.workers[wid].pc.Begin?
    ensures Inv(s) ==> NobodyBegins(s, s.workers[wid].runId)
  {
    hide TablesOk, WrittenOk, LocksOk, AttemptsOk, SessionsOk, ViewOk;
    if Inv(s) {
      assert WorkerOk(s, wid);
      forall v | v in s.workers && s.workers[v].runId == s.workers[wid].runId && s.workers[v].pc.Begin?
        ensures !Holds(s, v) && !WorkerMatches(s, v)
      {
        assert WorkerOk(s, v);
      }
    }
  }

  /** The step of an acting worker that only moves it on. */
  lemma MoveKeeps(s: World, wid: Id, pc: Pc)
    requires wid in s.workers && s.workers[wid].owner.Some? && HasRead(s.workers[wid].pc)
    requires HasRead(pc) && !(pc.Logging? && pc.accepted)
    requires Acting(s, wid) && ActorFacts(s, wid) ==> ViewOk(Goto(s, wid, pc), wid)
    ensures Inv(s) ==> Inv(Goto(s, wid, pc))
  {
    hide Inv, ViewOk, ActorFacts;
    ActorKnows(s, wid);
    GotoKeeps(s, wid, pc);
  }

  // ---------------------------------------------------------------- entering the graph

  lemma ReadKeeps(s: World, wid: Id)
    requires wid in s.workers && s.workers[wid].pc == Claimed
    ensures Inv(s) ==> Inv(ReadCheckpoint(s, wid))
  {
    SavedIsPast(s, s.workers[wid].sessionId);
    hide Inv, PastOk;
    ExitKeeps(s, wid);
    if Holds(s, wid) {
      GotoKeeps(s, wid, Snapped(Saved(s, s.workers[wid].sessionId)));
    }
  }

  lemma SavedIsPast(s: World, sid: Id)
    ensures Inv(s) && sid in s.saved ==> PastOk(s.db, sid, s.saved[sid])
  {
    InvParts(s);
    hide Inv, TablesOk, SessionsOk, WorkersOk, LocksOk, PastOk;
  }

  lemma EnterKeeps(s: World, wid: Id, snapshot: Option<Checkpoint>)
    requires wid in s.workers && s.workers[wid].owner.Some? && s.workers[wid].pc == Snapped(snapshot)
    ensures Inv(s) ==> Inv(Enter(s, wid, snapshot))
  {
    hide Inv, CheckpointOk, HasEvidence;
    ExitKeeps(s, wid);
    if s.workers[wid].runId in s.db.inputs {
      match SnapshotEntry(s, wid, snapshot)
      case Success(START) => MoveKeeps(s, wid, Begin);
      case Success(FINALIZE) => MoveKeeps(s, wid, Invoked);
      case Success(RESUME) =>
        if snapshot.Some? {
          MoveKeeps(s, wid, At(snapshot.value.next, snapshot.value.state));
        }
      case _ =>
    }
  }

  lemma BeginKeeps(s: World, wid: Id)
    requires wid in s.workers && s.workers[wid].owner.Some? && s.workers[wid].pc == Begin
    requires s.workers[wid].runId in s.db.inputs
    ensures Inv(s) ==> Inv(Save(s, wid,
                            Checkpoint(NewTurn(s.workers[wid].runId, s.db.inputs[s.workers[wid].runId]), QUERY)))
  {
    hide Inv;
    ActorKnows(s, wid);
    if Inv(s) {
      SaveKeeps(s, wid, Checkpoint(NewTurn(s.workers[wid].runId, s.db.inputs[s.workers[wid].runId]), QUERY));
    }
  }

  lemma DoneKeeps(s: World, wid: Id, next: Node, state: ProbeState)
    requires wid in s.workers && s.workers[wid].owner.Some? && s.workers[wid].pc == Done(next, state)
    ensures Inv(s) ==> Inv(Save(s, wid, Checkpoint(state, next)))
  {
    hide Inv, CheckpointOk;
    ActorKnows(s, wid);
    if Inv(s) {
      SaveKeeps(s, wid, Checkpoint(state, next));
    }
  }

  // ---------------------------------------------------------------- the nodes

  lemma QueryKeeps(s: World, wid: Id, state: ProbeState)
    requires wid in s.workers && s.workers[wid].owner.Some? && s.workers[wid].pc == At(QUERY, state)
    ensures Inv(s) ==> Inv(RunQuery(s, wid, state))
  {
    hide Inv;
    ExitKeeps(s, wid);
    var sid := s.workers[wid].sessionId;
    if Holds(s, wid) && sid in s.saved && sid in s.db.products {
      MoveKeeps(s, wid, Done(SEMANTIC, state.(product := s.db.products[sid])));
    }
  }

  lemma SemanticKeeps(s: World, wid: Id, state: ProbeState)
    requires wid in s.workers && s.workers[wid].owner.Some? && s.workers[wid].pc == At(SEMANTIC, state)
    ensures Inv(s) ==> Inv(RunSemantic(s, wid, state))
  {
    hide Inv;
    ExitKeeps(s, wid);
    var w := s.workers[wid];
    match FindArtifactTx(s.db, w.runId, w.owner.value, s.now)
    case Failure(_) =>
    case Success(None) => MoveKeeps(s, wid, Calling(state));
    case Success(Some(answer)) => MoveKeeps(s, wid, Done(COMMIT, WithAnswer(state, answer)));
  }

  lemma CallKeeps(s: World, wid: Id, state: ProbeState, answer: string)
    requires wid in s.workers && s.workers[wid].owner.Some? && s.workers[wid].pc == Calling(state)
    ensures Inv(s) ==> Inv(Goto(s, wid, Answered(state, answer)))
  {
    hide Inv;
    MoveKeeps(s, wid, Answered(state, answer));
  }

  lemma AcceptKeeps(s: World, wid: Id, state: ProbeState, answer: string)
    requires wid in s.workers && s.workers[wid].owner.Some? && s.workers[wid].pc == Answered(state, answer)
    ensures Inv(s) ==> Inv(AcceptAnswer(s, wid, state, answer))
  {
    hide Inv, CheckpointOk;
    var w := s.workers[wid];
    if SaveArtifactTx(s.db, w.runId, w.owner.value, answer, s.now).1.Success? {
      StoreKeeps(s, wid, state, answer);
    } else {
      MoveKeeps(s, wid, Logging(state, answer, false));
    }
  }

  lemma StoreKeeps(s: World, wid: Id, state: ProbeState, answer: string)
    requires wid in s.workers && s.workers[wid].owner.Some? && s.workers[wid].pc == Answered(state, answer)
    requires SaveArtifactTx(s.db, s.workers[wid].runId, s.workers[wid].owner.value, answer, s.now).1.Success?
    ensures Inv(s) ==> Inv(AcceptAnswer(s, wid, state, answer))
  {
    hide Inv, CheckpointOk;
    var runId := s.workers[wid].runId;
    ActorKnows(s, wid);
    WriterIsAlone(s, wid);
    FirstAnswer(s, runId, answer);
    if Inv(s) {
      SaveArtifactKeeps(s, runId, answer);
      SaveArtifactIsCareful(s, runId, answer);
      CarriedStays(s.db, WithArtifact(s.db, runId, answer), runId, state, SEMANTIC);
      AcceptingKeeps(s.(db := WithArtifact(s.db, runId, answer)), wid, state, answer);
    }
  }

  /** A run that has no answer yet has never had an attempt accepted. */
  lemma FirstAnswer(s: World, runId: Id, answer: string)
    requires runId in s.db.inputs && !Answers(s.db, runId)
    ensures Inv(s) ==> FirstAcceptance(s.(db := WithArtifact(s.db, runId, answer)), runId)
  {
    hide TablesOk, WrittenOk, WorkersOk, Exclusive, TokensDiffer, LocksOk, SessionsOk;
    var s' := s.(db := WithArtifact(s.db, runId, answer));
    assert forall v :: Accepting(s', v) == Accepting(s, v);
    assert forall a :: Accepted(s'.db, a) == Accepted(s.db, a);
  }

  lemma LogAttemptKeeps(s: World, wid: Id, state: ProbeState, answer: string, accepted: bool)
    requires wid in s.workers && s.workers[wid].owner.Some? && s.workers[wid].pc == Logging(state, answer, accepted)
    ensures Inv(s) ==> Inv(LogAttempt(s, wid, state, answer, accepted))
  {
    hide Inv;
    ActorKnows(s, wid);
    if Inv(s) {
      LogKeeps(s, wid);
      ExitKeeps(Logged(s, s.workers[wid].runId, accepted), wid);
    }
  }

  lemma CommitKeeps(s: World, wid: Id, state: ProbeState, failAt: nat)
    requires wid in s.workers && s.workers[wid].owner.Some? && s.workers[wid].pc == At(COMMIT, state)
    ensures Inv(s) ==> Inv(RunCommit(s, wid, state, failAt))
  {
    hide Inv, ActorFacts;
    ExitKeeps(s, wid);
    ActorKnows(s, wid);
    var w := s.workers[wid];
    var (db, r) := CommandTx(s.db, w.runId, w.owner.value, DEFAULT_AMOUNT, failAt, s.now);
    if r.Success? && Inv(s) {
      CommandCommits(s, wid, state, failAt);
      CommittedKeeps(s, wid, state, r.value);
    }
  }

  /** The tables after a successful command: its six writes, or nothing new on a replay. */
  function AfterCommand(db: Tables, runId: Id): Tables
    requires runId in db.inputs
  {
    if runId in db.receipts then db else WithCommand(db, runId)
  }

  lemma CommandCommits(s: World, wid: Id, state: ProbeState, failAt: nat)
    requires wid in s.workers && s.workers[wid].owner.Some? && s.workers[wid].pc == At(COMMIT, state)
    requires CommandTx(s.db, s.workers[wid].runId, s.workers[wid].owner.value, DEFAULT_AMOUNT, failAt, s.now).1.Success?
    ensures var (db, r) := CommandTx(s.db, s.workers[wid].runId, s.workers[wid].owner.value, DEFAULT_AMOUNT,
                failAt, s.now);
            && db == AfterCommand(s.db, s.workers[wid].runId)
            && r.value == db.receipts[s.workers[wid].runId].result
  {
    if s.workers[wid].runId !in s.db.receipts {
      CommandWritesAll(s.db, s.workers[wid].runId, s.db.inputs[s.workers[wid].runId], DEFAULT_AMOUNT);
    }
  }

  lemma CommitCarries(db: Tables, id: Id, state: ProbeState, next: Node)
    requires id in db.receipts && next in {APPROVAL, PUBLISH}
    ensures Carried(db, id, state, COMMIT) ==> Carried(db, id, state.(receipt := Some(db.receipts[id].result)), next)
  {
  }

  lemma CommittedAnswers(s: World, wid: Id, state: ProbeState)
    requires wid in s.workers && s.workers[wid].pc == At(COMMIT, state) && ViewOk(s, wid)
    ensures Answers(s.db, s.workers[wid].runId)
  {
  }

  lemma CommittedKeeps(s: World, wid: Id, state: ProbeState, result: ActionResult)
    requires wid in s.workers && s.workers[wid].owner.Some? && s.workers[wid].pc == At(COMMIT, state)
    requires WorkerMatches(s, wid) && ActorFacts(s, wid)
    requires result == AfterCommand(s.db, s.workers[wid].runId).receipts[s.workers[wid].runId].result
    ensures Inv(s) ==> Inv(Goto(s.(db := AfterCommand(s.db, s.workers[wid].runId)), wid,
                                Done(if s.approval then APPROVAL else PUBLISH, state.(receipt := Some(result)))))
  {
    CommittedAnswers(s, wid, state);
    hide Inv, ActorFacts;
    var s1 := s.(db := AfterCommand(s.db, s.workers[wid].runId));
    if s.workers[wid].runId !in s.db.receipts {
      CommandKeeps(s, s.workers[wid].runId);
    }
    CommitMoves(s1, wid, state);
  }

  lemma CommitMoves(s: World, wid: Id, state: ProbeState)
    requires wid in s.workers && s.workers[wid].owner.Some? && s.workers[wid].pc == At(COMMIT, state)
    requires s.workers[wid].runId in s.db.receipts
    ensures var result := s.db.receipts[s.workers[wid].runId].result;
            Inv(s) ==> Inv(Goto(s, wid, Done(if s.approval then APPROVAL else PUBLISH,
                                             state.(receipt := Some(result)))))
  {
    var next := if s.approval then APPROVAL else PUBLISH;
    CommitCarries(s.db, s.workers[wid].runId, state, next);
    hide Inv, Carried;
    MoveKeeps(s, wid, Done(next, state.(receipt := Some(s.db.receipts[s.workers[wid].runId].result))));
  }

  lemma ApprovalKeeps(s: World, wid: Id, state: ProbeState, resume: Option<bool>)
    requires wid in s.workers && s.workers[wid].owner.Some? && s.workers[wid].pc == At(APPROVAL, state)
    ensures Inv(s) ==> Inv(RunApproval(s, wid, state, resume))
  {
    hide Inv;
    if resume.None? {
      MoveKeeps(s, wid, Invoked);
    } else {
      MoveKeeps(s, wid, Done(PUBLISH, state.(approved := resume.value)));
    }
  }

  lemma PublishNodeKeeps(s: World, wid: Id, state: ProbeState)
    requires wid in s.workers && s.workers[wid].owner.Some? && s.workers[wid].pc == At(PUBLISH, state)
    ensures Inv(s) ==> Inv(RunPublish(s, wid, state))
  {
    hide Inv, ActorFacts;
    ExitKeeps(s, wid);
    ActorKnows(s, wid);
    var w := s.workers[wid];
    if PublishTx(s.db, w.runId, w.owner.value, s.now).1.Success? && Inv(s) {
      PublishedKeeps(s, wid, state);
    }
  }

  lemma PublishedKeeps(s: World, wid: Id, state: ProbeState)
    requires wid in s.workers && s.workers[wid].owner.Some? && s.workers[wid].pc == At(PUBLISH, state)
    requires WorkerMatches(s, wid) && ActorFacts(s, wid)
    ensures Inv(s) ==> Inv(Goto(s.(db := s.db.(messages := s.db.messages + {s.workers[wid].runId})), wid,
                                Done(END, state.(reviewCount := 1))))
  {
    hide Inv;
    var s1 := s.(db := s.db.(messages := s.db.messages + {s.workers[wid].runId}));
    PublishKeeps(s, s.workers[wid].runId);
    MoveKeeps(s1, wid, Done(END, state.(reviewCount := 1)));
  }

  lemma LastKeeps(s: World, wid: Id)
    requires wid in s.workers && s.workers[wid].owner.Some? && s.workers[wid].pc == Invoked
    ensures Inv(s) ==> Inv(ReadLast(s, wid))
  {
    hide Inv, CheckpointOk;
    ExitKeeps(s, wid);
    if Holds(s, wid) && s.workers[wid].sessionId in s.saved {
      MoveKeeps(s, wid, Ending(s.saved[s.workers[wid].sessionId]));
    }
  }

  // ---------------------------------------------------------------- every step, every run

  lemma NodeKeeps(s: World, wid: Id, node: Node, state: ProbeState, answer: string, resume: Option<bool>, failAt: nat)
    requires wid in s.workers && s.workers[wid].owner.Some? && s.workers[wid].pc == At(node, state)
    ensures Inv(s) ==> Inv(Advance(s, wid, answer, resume, failAt))
  {
    hide Inv, RunQuery, RunSemantic, RunCommit, RunApproval, RunPublish;
    match node
    case QUERY => QueryKeeps(s, wid, state);
    case SEMANTIC => SemanticKeeps(s, wid, state);
    case COMMIT => CommitKeeps(s, wid, state, failAt);
    case APPROVAL => ApprovalKeeps(s, wid, state, resume);
    case PUBLISH => PublishNodeKeeps(s, wid, state);
    case END => MoveKeeps(s, wid, Invoked);
  }

  lemma ActKeeps(s: World, wid: Id, answer: string, resume: Option<bool>, failAt: nat)
    requires wid in s.workers
    ensures Inv(s) ==> Inv(Advance(s, wid, answer, resume, failAt))
  {
    hide Inv, Claim, ReadCheckpoint, Enter, Save, AcceptAnswer, LogAttempt, ReadLast, Close;
    var w := s.workers[wid];
    if w.pc.Locked? {
      ClaimKeeps(s, wid);
    } else if w.owner.Some? {
      match w.pc
      case Claimed => ReadKeeps(s, wid);
      case Snapped(snapshot) => EnterKeeps(s, wid, snapshot);
      case Begin =>
        ExitKeeps(s, wid);
        if w.runId in s.db.inputs {
          BeginKeeps(s, wid);
        }
      case At(node, state) => NodeKeeps(s, wid, node, state, answer, resume, failAt);
      case Calling(state) => CallKeeps(s, wid, state, answer);
      case Answered(state, value) => AcceptKeeps(s, wid, state, value);
      case Logging(state, value, accepted) => LogAttemptKeeps(s, wid, state, value, accepted);
      case Done(next, state) => DoneKeeps(s, wid, next, state);
      case Invoked => LastKeeps(s, wid);
      case Ending(last) => CloseKeeps(s, wid, last);
    }
  }

  /** The invariant is inductive: it survives every step of every worker and every fault. */
  lemma NextKeeps(s: World, step: Step)
    ensures Inv(s) ==> Inv(Next(s, step))
  {
    hide Inv, Advance, StartOn, Exit, Lose, Revert, EnqueueTx, RevokeTx, SeedTx;
    match step
    case SeedSession => SeedKeeps(s);
    case EnqueueInput(sid, requestId, payload) => EnqueueKeeps(s, sid, requestId, payload);
    case Tick(ms) => TickKeeps(s, ms);
    case RevokeRun(runId) => RevokeKeeps(s, runId);
    case StartWorker(runId) => StartKeeps(s, runId);
    case Crash(wid) => ExitKeeps(s, wid);
    case LoseConnection(wid) => LoseConnectionKeeps(s, wid);
    case LoseCheckpoint(sid) => LoseKeeps(s, sid);
    case RevertCheckpoint(sid, older) => RevertKeeps(s, sid, older);
    case Act(wid, answer, resume, failAt) =>
      if wid in s.workers {
        ActKeeps(s, wid, answer, resume, failAt);
      }
  }

  lemma TickKeeps(s: World, ms: nat)
    ensures Inv(s) ==> Inv(s.(now := s.now + ms))
  {
    var s' := s.(now := s.now + ms);
    hide TablesOk, WrittenOk, Exclusive, TokensDiffer, LocksOk, AttemptsOk, WorkersOk, NoGain, NoNewAccepting,
         SessionsOk, ViewOk, Grows;
    SessionsStay(s, s');
    SelfGrows(s.db);
    WrittenStays(s, s');
    TickWorkers(s, ms);
    QuietStepKeeps(s, s');
  }

  lemma TickWorkers(s: World, ms: nat)
    ensures var s' := s.(now := s.now + ms);
            (WorkersOk(s) ==> WorkersOk(s')) && (LocksOk(s) ==> LocksOk(s')) && NoGain(s, s') && NoNewAccepting(s, s')
  {
    var s' := s.(now := s.now + ms);
    hide ViewOk, Extends, Grows, WorkerOk;
    SelfGrows(s.db);
    assert forall v :: Holds(s', v) == Holds(s, v);
    if WorkersOk(s) {
      forall v | v in s'.workers ensures WorkerOk(s', v) {
        WorkerStays(s, s', v);
      }
    }
  }

  /** The saver loses a thread, or shows an earlier checkpoint of it: from then on nothing is
      assumed of what it shows, but that it was written once. */
  lemma LoseKeeps(s: World, sid: Id)
    ensures Inv(s) ==> Inv(Lose(s, sid))
  {
    InvParts(s);
    hide Inv, WrittenOk, TablesOk, SessionsOk, WorkersOk, LocksOk;
    LostKeeps(s, Lose(s, sid), sid);
    LoseWritten(s, sid);
  }

  lemma RevertKeeps(s: World, sid: Id, older: Checkpoint)
    ensures Inv(s) ==> Inv(Revert(s, sid, older))
  {
    InvParts(s);
    hide Inv, WrittenOk, TablesOk, SessionsOk, WorkersOk, LocksOk;
    if (sid, older) in s.written {
      LostKeeps(s, Revert(s, sid, older), sid);
      RevertWritten(s, sid, older);
    }
  }

  lemma LoseWritten(s: World, sid: Id)
    ensures WrittenOk(s) ==> WrittenOk(Lose(s, sid)) && sid !in Lose(s, sid).saved
  {
    hide PastOk;
  }

  lemma RevertWritten(s: World, sid: Id, older: Checkpoint)
    requires (sid, older) in s.written
    ensures WrittenOk(s) ==> WrittenOk(Revert(s, sid, older)) && sid in s.db.sessions
  {
    if WrittenOk(s) {
      assert PastOk(s.db, sid, older);
    }
  }

  /** Only the checkpoint of one thread changes, which counts as lost. */
  ghost predicate OnlyLost(s: World, s': World, sid: Id) {
    && s' == s.(saved := s'.saved, lost := s.lost + {sid})
    && (forall other :: other != sid ==> Saved(s', other) == Saved(s, other))
  }

  lemma LostKeeps(s: World, s': World, sid: Id)
    requires OnlyLost(s, s', sid)
    ensures Inv(s) && WrittenOk(s') && (sid in s'.saved ==> sid in s.db.sessions) ==> Inv(s')
  {
    hide TablesOk, WrittenOk, Exclusive, TokensDiffer, LocksOk, AttemptsOk, WorkersOk, SessionsOk;
    LostWorkers(s, s', sid);
    if Inv(s) && WrittenOk(s') && (sid in s'.saved ==> sid in s.db.sessions) {
      LostSessions(s, s', sid);
      QuietStepKeeps(s, s');
    }
  }

  lemma LostSessions(s: World, s': World, sid: Id)
    requires OnlyLost(s, s', sid) && (sid in s'.saved ==> sid in s.db.sessions)
    ensures SessionsOk(s) ==> SessionsOk(s')
  {
    hide RoundsOk, TurnsOk, ThreadOk;
    if SessionsOk(s) {
      forall other | other in s'.db.sessions ensures SessionOk(s', other) {
        assert SessionOk(s, other);
      }
      forall other | other in s'.saved ensures other in s'.db.sessions {
        assert other != sid ==> Saved(s', other) == Saved(s, other);
      }
    }
  }

  lemma LostWorkers(s: World, s': World, sid: Id)
    requires OnlyLost(s, s', sid)
    ensures (WorkersOk(s) ==> WorkersOk(s')) && (LocksOk(s) ==> LocksOk(s')) && NoGain(s, s') && NoNewAccepting(s, s')
  {
    hide ViewOk, Grows, Extends, WorkerOk;
    SelfGrows(s.db);
    assert forall v :: Holds(s', v) == Holds(s, v);
    if WorkersOk(s) {
      forall v | v in s'.workers ensures WorkerOk(s', v) {
        WorkerStays(s, s', v);
      }
    }
  }

  lemma InitHolds(approval: bool, now: int)
    ensures Inv(Init(approval, now))
  {
    var s := Init(approval, now);
    assert forall v :: !Holds(s, v) && !Accepting(s, v);
  }

  lemma {:induction false} ExecKeeps(s: World, steps: seq<Step>)
    requires Inv(s)
    ensures Inv(Exec(s, steps))
    decreases |steps|
  {
    hide Inv, Next;
    if steps != [] {
      NextKeeps(s, steps[0]);
      ExecKeeps(Next(s, steps[0]), steps[1..]);
    }
  }

  lemma Reachable(approval: bool, now: int, steps: seq<Step>)
    ensures Inv(Exec(Init(approval, now), steps))
  {
    hide Inv;
    InitHolds(approval, now);
    ExecKeeps(Init(approval, now), steps);
  }
}
