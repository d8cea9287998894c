/** Crash recovery makes progress: from every reachable world a worker that is left alone resolves
    the run it claims, whatever happened to that run before. */
module P0Progress {
  import opened Outcomes
  import opened Recovery
  import opened P0Store
  import opened P0Machine
  import opened P0Safety
  import opened P0Writes
  import opened P0Steps
  import opened P0Runs
  import opened P0Theorems

  const ANSWER := "ASK_PRODUCT"

  /** One undisturbed action: the external call answers, the seller approves, nothing fails. */
  function Go(wid: Id): Step {
    Act(wid, ANSWER, Some(true), 0)
  }

  function Order(node: Node): nat {
    match node
    case QUERY => 0
    case SEMANTIC => 1
    case COMMIT => 2
    case APPROVAL => 3
    case PUBLISH => 4
    case END => 5
  }

  /** How many actions may still be needed. */
  function Rank(pc: Pc): nat {
    match pc
    case Locked => 62
    case Claimed => 61
    case Snapped(_) => 60
    case Begin => 59
    case At(node, _) => 6 * (5 - Order(node)) + 10
    case Calling(_) => 6 * 4 + 9
    case Answered(_, _) => 6 * 4 + 8
    case Logging(_, _, _) => 6 * 4 + 7
    case Done(next, _) => 6 * (5 - Order(next)) + 11
    case Invoked => 5
    case Ending(_) => 4
  }

  /** The worker has the lock and a live lease, and stands where finishing is only a matter of
      going on. */
  predicate OnTrack(s: World, wid: Id) {
    && wid in s.workers
    && var w := s.workers[wid];
       && Holds(s, wid)
       && w.sessionId !in s.lost
       && w.owner.Some?
       && Owns(s.db, w.runId, w.owner.value, s.now)
       && !w.pc.Locked?
       && (w.pc.Calling? || w.pc.Answered? ==> !Answers(s.db, w.runId))
       && (w.pc.Logging? ==> w.pc.accepted)
       && (w.pc.Invoked? ==> w.sessionId in s.saved && s.saved[w.sessionId].next == END)
       && (w.pc.Ending? ==> w.pc.last.next == END)
  }

  /** The action took the worker further, with the same run, owner and lock. */
  predicate Further(s: World, s': World, wid: Id) {
    && OnTrack(s, wid)
    && OnTrack(s', wid)
    && s'.workers[wid].runId == s.workers[wid].runId
    && Rank(s'.workers[wid].pc) < Rank(s.workers[wid].pc)
  }

  lemma TrackIsActing(s: World, wid: Id)
    ensures Inv(s) && OnTrack(s, wid) && HasRead(s.workers[wid].pc) ==> ActorFacts(s, wid)
  {
    hide Inv, ActorFacts;
    ActorKnows(s, wid);
  }

  /** Moving on without touching tables, locks or checkpoints. */
  lemma GotoFurther(s: World, wid: Id, pc: Pc)
    requires OnTrack(s, wid) && !pc.Locked? && Rank(pc) < Rank(s.workers[wid].pc)
    requires pc.Calling? || pc.Answered? ==> !Answers(s.db, s.workers[wid].runId)
    requires pc.Logging? ==> pc.accepted
    requires pc.Invoked? ==> s.workers[wid].sessionId in s.saved && s.saved[s.workers[wid].sessionId].next == END
    requires pc.Ending? ==> pc.last.next == END
    ensures Further(s, Goto(s, wid, pc), wid)
  {
    hide Owns, Answers, Rank;
  }

  lemma SaveFurther(s: World, wid: Id, c: Checkpoint)
    requires OnTrack(s, wid)
    requires Rank(if c.next == END then Invoked else At(c.next, c.state)) < Rank(s.workers[wid].pc)
    ensures Further(s, Save(s, wid, c), wid)
  {
    hide Owns, Answers, Rank;
  }

  // ---------------------------------------------------------------- entering

  lemma EnterFurther(s: World, wid: Id, snapshot: Option<Checkpoint>)
    requires OnTrack(s, wid) && s.workers[wid].pc == Snapped(snapshot)
    ensures Inv(s) ==> Further(s, Enter(s, wid, snapshot), wid)
  {
    hide Inv, CheckpointOk, HasEvidence, Answers, Owns, Further;
    SnapshotGoesOn(s, wid, snapshot);
    TrackIsActing(s, wid);
    if Inv(s) {
      match SnapshotEntry(s, wid, snapshot)
      case Success(START) => GotoFurther(s, wid, Begin);
      case Success(FINALIZE) => GotoFurther(s, wid, Invoked);
      case Success(RESUME) => GotoFurther(s, wid, At(snapshot.value.next, snapshot.value.state));
      case _ =>
    }
  }

  // ---------------------------------------------------------------- nodes

  lemma QueryFurther(s: World, wid: Id, state: ProbeState)
    requires OnTrack(s, wid) && s.workers[wid].pc == At(QUERY, state)
    ensures Inv(s) ==> Further(s, RunQuery(s, wid, state), wid)
  {
    hide Inv, CheckpointOk, Answers, Owns, Further;
    TrackIsActing(s, wid);
    if Inv(s) {
      GotoFurther(s, wid, Done(SEMANTIC, state.(product := s.db.products[s.workers[wid].sessionId])));
    }
  }

  lemma ArtifactIsSound(s: World, id: Id)
    ensures Inv(s) && Answers(s.db, id) ==>
              var row := s.db.artifacts[ArtifactKey(s.db, id)]; ValueDigest(row.value) == row.valueHash
  {
    hide SessionsOk, WrittenOk, WorkersOk, Exclusive, TokensDiffer, LocksOk, AttemptsOk, IndexesOk, RunsOk, KeysOk;
    if Inv(s) && Answers(s.db, id) {
      assert ArtifactOk(s.db, ArtifactKey(s.db, id));
    }
  }

  lemma SemanticFurther(s: World, wid: Id, state: ProbeState)
    requires OnTrack(s, wid) && s.workers[wid].pc == At(SEMANTIC, state)
    ensures Inv(s) ==> Further(s, RunSemantic(s, wid, state), wid)
  {
    hide Inv, Further;
    var w := s.workers[wid];
    ArtifactIsSound(s, w.runId);
    if Inv(s) {
      if Answers(s.db, w.runId) {
        GotoFurther(s, wid, Done(COMMIT, WithAnswer(state, s.db.artifacts[ArtifactKey(s.db, w.runId)].value)));
      } else {
        GotoFurther(s, wid, Calling(state));
      }
    }
  }

  lemma AcceptFurther(s: World, wid: Id, state: ProbeState, answer: string)
    requires OnTrack(s, wid) && s.workers[wid].pc == Answered(state, answer)
    ensures Further(s, AcceptAnswer(s, wid, state, answer), wid)
  {
    var w := s.workers[wid];
    var (db, r) := SaveArtifactTx(s.db, w.runId, w.owner.value, answer, s.now);
    assert r.Success?;
  }

  lemma LogFurther(s: World, wid: Id, state: ProbeState, answer: string)
    requires OnTrack(s, wid) && s.workers[wid].pc == Logging(state, answer, true)
    ensures Further(s, LogAttempt(s, wid, state, answer, true), wid)
  {
    hide Answers;
  }

  lemma CommandGoesThrough(s: World, wid: Id, state: ProbeState)
    requires OnTrack(s, wid) && s.workers[wid].pc == At(COMMIT, state)
    requires ActorFacts(s, wid) && EvidenceOk(s.db) && KeysOk(s.db, s.uuids)
    ensures CommandTx(s.db, s.workers[wid].runId, s.workers[wid].owner.value, DEFAULT_AMOUNT, 0, s.now).1.Success?
  {
    hide CommandWrites, Answers, CheckpointOk, ViewOk;
    var runId := s.workers[wid].runId;
    if runId in s.db.receipts {
      assert ReceiptOk(s.db, runId);
    }
  }

  lemma CommitFurther(s: World, wid: Id, state: ProbeState)
    requires OnTrack(s, wid) && s.workers[wid].pc == At(COMMIT, state)
    ensures Inv(s) ==> Further(s, RunCommit(s, wid, state, 0), wid)
  {
    hide ActorFacts, SessionsOk, WrittenOk, WorkersOk, Exclusive, TokensDiffer, LocksOk, AttemptsOk, IndexesOk,
         RunsOk, KeysOk, EvidenceOk, Answers, CommandTx, Further;
    TrackIsActing(s, wid);
    if Inv(s) {
      CommandGoesThrough(s, wid, state);
      CommandTouchesNoOwner(s.db, s.workers[wid].runId, s.workers[wid].owner.value, 0, s.now);
      CommittedFurther(s, wid, state);
    }
  }

  lemma CommittedFurther(s: World, wid: Id, state: ProbeState)
    requires OnTrack(s, wid) && s.workers[wid].pc == At(COMMIT, state)
    requires var (db, r) := CommandTx(s.db, s.workers[wid].runId, s.workers[wid].owner.value, DEFAULT_AMOUNT, 0, s.now);
             r.Success? && db.inputs == s.db.inputs
    ensures Further(s, RunCommit(s, wid, state, 0), wid)
  {
    hide CommandTx, Answers;
  }

  lemma PublishFurther(s: World, wid: Id, state: ProbeState)
    requires OnTrack(s, wid) && s.workers[wid].pc == At(PUBLISH, state)
    ensures Further(s, RunPublish(s, wid, state), wid)
  {
    hide Answers;
  }

  lemma NodeFurther(s: World, wid: Id, node: Node, state: ProbeState)
    requires OnTrack(s, wid) && s.workers[wid].pc == At(node, state)
    ensures Inv(s) ==> Further(s, Next(s, Go(wid)), wid)
  {
    hide Inv, Further, RunQuery, RunSemantic, RunCommit, RunPublish, Owns, Answers, ActorFacts;
    match node
    case QUERY => QueryFurther(s, wid, state);
    case SEMANTIC => SemanticFurther(s, wid, state);
    case COMMIT => CommitFurther(s, wid, state);
    case APPROVAL => GotoFurther(s, wid, Done(PUBLISH, state.(approved := true)));
    case PUBLISH => PublishFurther(s, wid, state);
    case END => NotAtEnd(s, wid, state);
  }

  lemma NotAtEnd(s: World, wid: Id, state: ProbeState)
    requires OnTrack(s, wid) && s.workers[wid].pc == At(END, state)
    ensures !Inv(s)
  {
    hide Inv, CheckpointOk;
    TrackIsActing(s, wid);
  }

  // ---------------------------------------------------------------- the last two actions

  lemma InvokedFurther(s: World, wid: Id)
    requires OnTrack(s, wid) && s.workers[wid].pc == Invoked
    ensures Further(s, ReadLast(s, wid), wid)
  {
    GotoFurther(s, wid, Ending(s.saved[s.workers[wid].sessionId]));
  }

  lemma EndingResolves(s: World, wid: Id, last: Checkpoint)
    requires OnTrack(s, wid) && s.workers[wid].pc == Ending(last)
    ensures Inv(s) ==> Resolved(Close(s, wid, last).db, s.workers[wid].runId)
  {
    hide Inv;
    TrackIsActing(s, wid);
  }

  // ---------------------------------------------------------------- every action of a worker left alone

  lemma GoesFurther(s: World, wid: Id)
    requires OnTrack(s, wid)
    ensures Inv(s) ==>
              if s.workers[wid].pc.Ending? then Resolved(Next(s, Go(wid)).db, s.workers[wid].runId)
              else Further(s, Next(s, Go(wid)), wid)
  {
    hide Inv, Further, ReadCheckpoint, Enter, Save, AcceptAnswer, LogAttempt, ReadLast, Close, Owns, Answers,
         Resolved, ActorFacts, RunQuery, RunSemantic, RunCommit, RunPublish, Claim;
    var w := s.workers[wid];
    match w.pc
    case At(node, state) => NodeFurther(s, wid, node, state);
    case Claimed => ReadFurther(s, wid);
    case Snapped(snapshot) => EnterFurther(s, wid, snapshot);
    case Begin =>
      RunIsKnown(s, wid);
      if w.runId in s.db.inputs {
        SaveFurther(s, wid, Checkpoint(NewTurn(w.runId, s.db.inputs[w.runId]), QUERY));
      }
    case Calling(state) => GotoFurther(s, wid, Answered(state, ANSWER));
    case Answered(state, answer) => AcceptFurther(s, wid, state, answer);
    case Logging(state, answer, _) => LogFurther(s, wid, state, answer);
    case Done(next, state) => SaveFurther(s, wid, Checkpoint(state, next));
    case Invoked => InvokedFurther(s, wid);
    case Ending(last) => EndingResolves(s, wid, last);
  }

  lemma RunIsKnown(s: World, wid: Id)
    requires OnTrack(s, wid)
    ensures s.workers[wid].runId in s.db.inputs
  {
  }

  lemma ReadFurther(s: World, wid: Id)
    requires OnTrack(s, wid) && s.workers[wid].pc == Claimed
    ensures Further(s, ReadCheckpoint(s, wid), wid)
  {
    GotoFurther(s, wid, Snapped(Saved(s, s.workers[wid].sessionId)));
  }

  function Going(wid: Id, n: nat): seq<Step> {
    if n == 0 then [] else [Go(wid)] + Going(wid, n - 1)
  }

  /** The worker is on its way to resolving the run, with at most so many actions to go. */
  ghost predicate OnTheWay(s: World, wid: Id, runId: Id, rank: nat) {
    Inv(s) && OnTrack(s, wid) && s.workers[wid].runId == runId && 0 < Rank(s.workers[wid].pc) <= rank
  }

  lemma RankIsPositive(pc: Pc)
    ensures Rank(pc) > 0
  {
  }

  /** One action resolves the run, or leaves less to do. */
  lemma OneActionLess(s: World, wid: Id, runId: Id, rank: nat)
    ensures OnTheWay(s, wid, runId, rank) ==>
              && rank > 0
              && (Resolved(Next(s, Go(wid)).db, runId) || OnTheWay(Next(s, Go(wid)), wid, runId, rank - 1))
  {
    hide Inv, Next, OnTrack, Rank, Resolved;
    var s' := Next(s, Go(wid));
    NextKeeps(s, Go(wid));
    if OnTheWay(s, wid, runId, rank) {
      TrackIsWorker(s, wid);
      GoesFurther(s, wid);
      TrackIsWorker(s', wid);
      if wid in s'.workers {
        RankIsPositive(s'.workers[wid].pc);
      }
    }
  }

  lemma TrackIsWorker(s: World, wid: Id)
    ensures OnTrack(s, wid) ==> wid in s.workers
  {
  }

  /** A worker on its way, left alone, resolves its run. */
  lemma {:induction false} LeftAloneItResolves(s: World, wid: Id, runId: Id, rank: nat) returns (n: nat)
    requires OnTheWay(s, wid, runId, rank)
    ensures n <= rank && Resolved(Exec(s, Going(wid, n)).db, runId)
    decreases rank
  {
    hide Next, Resolved, OnTheWay;
    var s' := Next(s, Go(wid));
    OneActionLess(s, wid, runId, rank);
    if Resolved(s'.db, runId) {
      n := 1;
      assert Going(wid, 1) == [Go(wid)] + Going(wid, 0);
      assert Exec(s, [Go(wid)]) == Exec(s', []);
    } else {
      var m := LeftAloneItResolves(s', wid, runId, rank - 1);
      n := m + 1;
      assert Going(wid, n)[1..] == Going(wid, m);
    }
  }

  /** From every reachable world, whatever crashed, expired or was revoked before: if the thread of
      a session is free, never lost a checkpoint, and the lease of its head has run out, starting a
      worker on the head and leaving it alone for at most 62 actions resolves the head. */
  lemma NoHeadIsStuck(approval: bool, now: int, steps: seq<Step>, head: Id)
    ensures var s := Exec(Init(approval, now), steps);
            Claimable(s.db, head, s.now) && ThreadIsFree(s, s.db.inputs[head].sessionId) ==>
              exists n :: n <= 62 && Resolved(Exec(s, [StartWorker(head)] + Going(s.uuids, n)).db, head)
  {
    Reachable(approval, now, steps);
    var s := Exec(Init(approval, now), steps);
    hide Exec, Init, Inv;
    if Claimable(s.db, head, s.now) && ThreadIsFree(s, s.db.inputs[head].sessionId) {
      StartedGoesOn(s, head);
      var n := FreshWorkerResolves(s, head);
    }
  }

  /** Nobody has the lock of the thread, and the saver never lost a checkpoint of it. */
  predicate ThreadIsFree(s: World, sid: Id) {
    sid !in s.locks && sid !in s.lost
  }

  lemma FreshWorkerResolves(s: World, head: Id) returns (n: nat)
    requires StartedOnTheWay(s, head)
    ensures n <= 62 && Resolved(Exec(s, [StartWorker(head)] + Going(s.uuids, n)).db, head)
  {
    hide Next, OnTheWay, Resolved;
    var wid := s.uuids;
    var s1 := Next(s, StartWorker(head));
    var s2 := Next(s1, Go(wid));
    var m := LeftAloneItResolves(s2, wid, head, 61);
    n := m + 1;
    var all := [StartWorker(head)] + Going(wid, n);
    assert all[1..] == Going(wid, n) && Going(wid, n)[1..] == Going(wid, m);
    assert Exec(s, all) == Exec(s1, Going(wid, n));
    assert Exec(s1, Going(wid, n)) == Exec(s2, Going(wid, m));
  }

  ghost predicate StartedOnTheWay(s: World, head: Id) {
    OnTheWay(Next(Next(s, StartWorker(head)), Go(s.uuids)), s.uuids, head, 61)
  }

  lemma StartedGoesOn(s: World, head: Id)
    requires Claimable(s.db, head, s.now) && ThreadIsFree(s, s.db.inputs[head].sessionId)
    ensures Inv(s) ==> StartedOnTheWay(s, head)
  {
    StartedIsOnTrack(s, head);
    hide Inv, Next, OnTrack;
    NextKeeps(s, StartWorker(head));
    NextKeeps(Next(s, StartWorker(head)), Go(s.uuids));
  }

  lemma StartedIsOnTrack(s: World, head: Id)
    requires Claimable(s.db, head, s.now) && ThreadIsFree(s, s.db.inputs[head].sessionId)
    ensures var s2 := Next(Next(s, StartWorker(head)), Go(s.uuids));
            && OnTrack(s2, s.uuids)
            && s.uuids in s2.workers
            && s2.workers[s.uuids].runId == head
            && s2.workers[s.uuids].pc == Claimed
  {
    var s1 := Next(s, StartWorker(head));
    assert s1.workers[s.uuids] == Worker(head, s.db.inputs[head].sessionId, None, Locked);
    assert Holds(s1, s.uuids);
    assert Next(s1, Go(s.uuids)) == Claim(s1, s.uuids);
  }
}
