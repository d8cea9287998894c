/** Each kind of step keeps the P0 invariant: claiming, finalizing, and what opens new work. */
module P0Steps {
  import opened Outcomes
  import opened Recovery
  import opened P0Store
  import opened P0Machine
  import opened P0Safety
  import opened P0Writes

  // ---------------------------------------------------------------- claiming

  function ClaimedDb(db: Tables, uuids: Id, runId: Id, now: int): Tables
    requires runId in db.inputs
  {
    var run := db.inputs[runId];
    db.(inputs := db.inputs[runId := run.(token := Some(uuids), epoch := run.epoch + 1,
                                          leaseUntil := now + LEASE_MS, status := RUNNING)])
  }

  function Renewed(s: World, runId: Id): World
    requires runId in s.db.inputs
  {
    s.(db := ClaimedDb(s.db, s.uuids, runId, s.now), uuids := s.uuids + 1)
  }

  lemma ClaimedQueue(s: World, runId: Id)
    requires runId in s.db.inputs
    ensures var db' := ClaimedDb(s.db, s.uuids, runId, s.now);
            && SameQueue(s.db, db') && Extends(s.db, db') && Grows(s.db, db') && NewAnswersOk(s, db')
  {
    var run := s.db.inputs[runId].(token := Some(s.uuids), epoch := s.db.inputs[runId].epoch + 1,
                                   leaseUntil := s.now + LEASE_MS, status := RUNNING);
    RunChanged(s, runId, run);
  }

  /** Changing ownership, lease or status of one run moves nothing in the queue. */
  lemma RunChanged(s: World, runId: Id, run: Run)
    requires runId in s.db.inputs && SameRun(s.db.inputs[runId], run)
    ensures var db' := s.db.(inputs := s.db.inputs[runId := run]);
            SameQueue(s.db, db') && Extends(s.db, db') && Grows(s.db, db') && NewAnswersOk(s, db')
  {
    var db' := s.db.(inputs := s.db.inputs[runId := run]);
    assert forall id :: Answers(db', id) == Answers(s.db, id);
    QueueGrows(s.db, db');
  }

  lemma ClaimedTokens(s: World, runId: Id)
    requires runId in s.db.inputs
    ensures TokensBelow(s.db.inputs, s.uuids) ==> TokensBelow(Renewed(s, runId).db.inputs, s.uuids + 1)
  {
  }

  lemma ClaimedSame(s: World, runId: Id)
    requires runId in s.db.inputs
    ensures var db' := Renewed(s, runId).db;
            SameIndex(s.db, db') && SameEvidence(s.db, db') && db'.attempts == s.db.attempts
  {
  }

  lemma ClaimedTablesOk(s: World, runId: Id)
    requires runId in s.db.inputs
    ensures TablesOk(s.db, s.uuids) ==> TablesOk(Renewed(s, runId).db, s.uuids + 1)
  {
    var db' := Renewed(s, runId).db;
    ClaimedSame(s, runId);
    hide ClaimedDb, Renewed, SameEvidence, IndexesOk, EvidenceOk, RunsOk, TokensBelow, SameIndex, KeysOk;
    EvidenceStays(s.db, db');
    RunsHaveTokensBelow(s.db, s.uuids);
    ClaimedTokens(s, runId);
    MoreUuids(s.db, s.uuids, s.uuids + 1);
    TablesStay(s.db, db', s.uuids + 1);
  }

  lemma ClaimedSessionsOk(s: World, runId: Id)
    requires runId in s.db.inputs
    ensures SessionsOk(s) ==> SessionsOk(Renewed(s, runId))
  {
    if SessionsOk(s) {
      var s' := Renewed(s, runId);
      ClaimedQueue(s, runId);
      hide RoundsOk, TurnsOk, ThreadOk, SameQueue, Extends, Grows, NewAnswersOk;
      forall sid | sid in s'.db.sessions ensures SessionOk(s', sid) {
        assert SessionOk(s, sid);
        TurnsStay(s, s'.db, sid);
        if sid !in s.lost {
          ThreadStays(s, s'.db, sid);
        }
        ClaimedRounds(s, runId, sid);
      }
    }
  }

  lemma ClaimedRounds(s: World, runId: Id, sid: Id)
    requires runId in s.db.inputs && sid in s.db.sessions && RoundsOk(s.db, sid)
    ensures RoundsOk(Renewed(s, runId).db, sid) && Saved(Renewed(s, runId), sid) == Saved(s, sid)
  {
  }

  /** The token was fresh, so whoever matched the claimed run before does not any more. */
  lemma ClaimFences(s: World, runId: Id, v: Id)
    requires runId in s.db.inputs && v in s.workers && WorkerOk(s, v)
    ensures WorkerMatches(Renewed(s, runId), v) ==> WorkerMatches(s, v) && s.workers[v].runId != runId
  {
  }

  function Granted(s: World, wid: Id): World
    requires wid in s.workers && s.workers[wid].runId in s.db.inputs
  {
    var w := s.workers[wid];
    var owner := Owner(s.uuids, s.db.inputs[w.runId].epoch + 1);
    Renewed(s, w.runId).(workers := s.workers[wid := w.(owner := Some(owner), pc := Claimed)])
  }

  lemma GrantedWorkersOk(s: World, wid: Id)
    requires wid in s.workers && s.workers[wid].pc.Locked? && IsHead(s.db, s.workers[wid].runId)
    requires WorkersOk(s)
    ensures WorkersOk(Granted(s, wid))
  {
    var runId := s.workers[wid].runId;
    var s' := Granted(s, wid);
    ClaimedQueue(s, runId);
    hide Extends, Grows, NewAnswersOk, ViewOk;
    forall v | v in s'.workers ensures WorkerOk(s', v) {
      assert WorkerOk(s, v);
      if v != wid {
        GrantedOther(s, wid, v);
      }
    }
  }

  lemma GrantedOther(s: World, wid: Id, v: Id)
    requires v in s.workers && wid in s.workers && v != wid && WorkerOk(s, v)
    requires s.workers[wid].runId in s.db.inputs && Grows(s.db, Granted(s, wid).db)
    ensures WorkerOk(Granted(s, wid), v)
  {
    var s' := Granted(s, wid);
    var runId := s.workers[wid].runId;
    ClaimFences(s, runId, v);
    assert WorkerMatches(s', v) == WorkerMatches(Renewed(s, runId), v);
    assert Holds(s', v) == Holds(s, v);
    hide Grows, ViewOk;
    WorkerStays(s, s', v);
  }

  lemma GrantedExclusive(s: World, wid: Id)
    requires WorkersOk(s) && Exclusive(s) && RunsOk(s.db, s.uuids)
    requires wid in s.workers && s.workers[wid].pc.Locked? && IsHead(s.db, s.workers[wid].runId)
    ensures Exclusive(Granted(s, wid))
  {
    var s' := Granted(s, wid);
    var runId := s.workers[wid].runId;
    hide ViewOk;
    forall x, y | x in s'.workers && y in s'.workers && x != y
                  && s'.workers[x].sessionId == s'.workers[y].sessionId
                  && Holds(s', x) && !s'.workers[x].pc.Locked? && HasRead(s'.workers[y].pc)
      ensures !WorkerMatches(s', y)
    {
      assert y != wid && WorkerOk(s, y) && WorkerOk(s, wid);
      ClaimFences(s, runId, y);
      assert WorkerMatches(s', y) == WorkerMatches(Renewed(s, runId), y);
      if x != wid {
        assert Holds(s, x);
      }
    }
  }

  lemma GrantedRest(s: World, wid: Id)
    requires WorkersOk(s) && wid in s.workers && s.workers[wid].pc.Locked? && s.workers[wid].runId in s.db.inputs
    ensures TokensDiffer(s) ==> TokensDiffer(Granted(s, wid))
    ensures LocksOk(s) ==> LocksOk(Granted(s, wid))
  {
    hide ViewOk;
    assert forall v :: v in s.workers ==> WorkerOk(s, v);
  }

  lemma ClaimKeeps(s: World, wid: Id)
    requires wid in s.workers && s.workers[wid].pc.Locked?
    ensures Inv(s) ==> Inv(Claim(s, wid))
  {
    hide Inv;
    if Inv(s) {
      if Claimable(s.db, s.workers[wid].runId, s.now) {
        GrantedKeeps(s, wid);
      } else {
        ExitKeeps(s, wid);
      }
    }
  }

  lemma GrantedKeeps(s: World, wid: Id)
    requires wid in s.workers && s.workers[wid].pc.Locked? && IsHead(s.db, s.workers[wid].runId)
    ensures Inv(s) ==> Inv(Granted(s, wid))
  {
    hide TablesOk, SessionsOk, WrittenOk, WorkersOk, Exclusive, TokensDiffer, LocksOk, AttemptsOk, Extends, Grows,
         NoNewAccepting, SameQueue, NewAnswersOk, RunsOk, Holds;
    if Inv(s) {
      ClaimedTablesOk(s, s.workers[wid].runId);
      ClaimedSessionsOk(s, s.workers[wid].runId);
      GrantedSessions(s, wid);
      GrantedWorkers(s, wid);
      ClaimedQueue(s, s.workers[wid].runId);
      WrittenStays(s, Granted(s, wid));
      AttemptsStay(s, Granted(s, wid));
    }
  }

  lemma GrantedWorkers(s: World, wid: Id)
    requires wid in s.workers && s.workers[wid].pc.Locked? && IsHead(s.db, s.workers[wid].runId)
    ensures WorkersOk(s) && Exclusive(s) && TablesOk(s.db, s.uuids)
            ==> WorkersOk(Granted(s, wid)) && Exclusive(Granted(s, wid))
    ensures WorkersOk(s) && TokensDiffer(s) ==> TokensDiffer(Granted(s, wid))
    ensures WorkersOk(s) && LocksOk(s) ==> LocksOk(Granted(s, wid))
    ensures NoNewAccepting(s, Granted(s, wid))
  {
    GrantedNoAccepting(s, wid);
    hide SessionsOk, Exclusive, TokensDiffer, LocksOk, AttemptsOk, NoNewAccepting;
    if WorkersOk(s) {
      GrantedWorkersOk(s, wid);
      GrantedRest(s, wid);
      if Exclusive(s) && RunsOk(s.db, s.uuids) {
        GrantedExclusive(s, wid);
      }
    }
  }

  lemma GrantedNoAccepting(s: World, wid: Id)
    requires wid in s.workers && s.workers[wid].pc.Locked? && s.workers[wid].runId in s.db.inputs
    ensures NoNewAccepting(s, Granted(s, wid))
  {
  }

  lemma GrantedSessions(s: World, wid: Id)
    requires wid in s.workers && s.workers[wid].runId in s.db.inputs
    ensures SessionsOk(Renewed(s, s.workers[wid].runId)) ==> SessionsOk(Granted(s, wid))
  {
    SessionsStay(Renewed(s, s.workers[wid].runId), Granted(s, wid));
  }

  // ---------------------------------------------------------------- finalizing

  function Advanced(db: Tables, runId: Id): Tables
    requires IsHead(db, runId)
  {
    var run := db.inputs[runId];
    db.(sessions := db.sessions[run.sessionId := db.sessions[run.sessionId].(cursor := run.inputSeq)],
        inputs := db.inputs[runId := run.(status := COMPLETED)])
  }

  /** Once the head is resolved nobody else can still hold a claim on the session's head. */
  lemma FinalizerIsAlone(s: World, wid: Id, v: Id)
    requires Inv(s) && wid in s.workers && v in s.workers && v != wid
    requires HasRead(s.workers[wid].pc) && WorkerMatches(s, wid)
    requires s.workers[v].sessionId == s.workers[wid].sessionId && !s.workers[v].pc.Locked?
    ensures !Holds(s, v) && !WorkerMatches(s, v)
  {
    hide ViewOk, SessionsOk, AttemptsOk, EvidenceOk, IndexesOk;
    assert WorkerOk(s, v) && WorkerOk(s, wid);
    if WorkerMatches(s, v) {
      HeadIsUnique(s.db, s.uuids, s.workers[v].runId, s.workers[wid].runId);
    }
  }

  lemma AdvancedIndex(db: Tables, runId: Id)
    requires IsHead(db, runId)
    ensures SameIndex(db, Advanced(db, runId)) && Extends(db, Advanced(db, runId)) && Grows(db, Advanced(db, runId))
  {
  }

  lemma AdvancedTokens(db: Tables, runId: Id, uuids: Id)
    requires IsHead(db, runId)
    ensures TokensBelow(db.inputs, uuids) ==> TokensBelow(Advanced(db, runId).inputs, uuids)
  {
  }

  lemma AdvancedTablesOk(db: Tables, runId: Id, uuids: Id)
    requires IsHead(db, runId)
    ensures TablesOk(db, uuids) ==> TablesOk(Advanced(db, runId), uuids)
  {
    hide IndexesOk, EvidenceOk, RunsOk, TokensBelow, SameIndex, Extends, KeysOk;
    AdvancedIndex(db, runId);
    AdvancedTokens(db, runId, uuids);
    EvidenceStays(db, Advanced(db, runId));
    RunsHaveTokensBelow(db, uuids);
    TablesStay(db, Advanced(db, runId), uuids);
  }

  /** The thread of the run shows its finished graph, unless the thread has lost a checkpoint. */
  predicate ShowsEnd(s: World, runId: Id)
    requires runId in s.db.inputs
  {
    var sid := s.db.inputs[runId].sessionId;
    sid !in s.lost ==>
      && sid in s.saved
      && s.saved[sid].state.identity.runId == runId
      && s.saved[sid].next == END
  }

  /** The resolved head's session: one more turn behind the cursor, none of the later ones begun. */
  lemma AdvancedSessionOk(s: World, runId: Id)
    requires TablesOk(s.db, s.uuids) && IsHead(s.db, runId) && runId in s.db.messages
    requires SessionOk(s, s.db.inputs[runId].sessionId)
    requires ShowsEnd(s, runId)
    ensures SessionOk(s.(db := Advanced(s.db, runId)), s.db.inputs[runId].sessionId)
  {
    AdvancedTurns(s.db, s.uuids, runId);
    AdvancedRounds(s.db, s.uuids, runId);
    if s.db.inputs[runId].sessionId !in s.lost {
      AdvancedThread(s.db, s.uuids, runId, s.saved[s.db.inputs[runId].sessionId]);
    }
  }

  lemma AdvancedTurns(db: Tables, uuids: Id, runId: Id)
    requires RunsOk(db, uuids) && IsHead(db, runId) && runId in db.messages
    requires TurnsOk(db, db.inputs[runId].sessionId)
    ensures TurnsOk(Advanced(db, runId), db.inputs[runId].sessionId)
  {
    var db' := Advanced(db, runId);
    var sid := db.inputs[runId].sessionId;
    forall id | id in db'.inputs && db'.inputs[id].sessionId == sid
               && db'.inputs[id].inputSeq <= db'.sessions[sid].cursor
      ensures id in db'.messages
    {
      assert RunOk(db, uuids, id) && RunOk(db, uuids, runId);
    }
    forall id | id in db'.inputs && db'.inputs[id].sessionId == sid
                && db'.inputs[id].inputSeq > db'.sessions[sid].cursor + 1
      ensures !Answers(db', id)
    {
      assert !Answers(db, id);
    }
  }

  lemma AdvancedRounds(db: Tables, uuids: Id, runId: Id)
    requires TablesOk(db, uuids) && IsHead(db, runId) && runId in db.messages
    requires TurnsOk(db, db.inputs[runId].sessionId) && RoundsOk(db, db.inputs[runId].sessionId)
    ensures RoundsOk(Advanced(db, runId), db.inputs[runId].sessionId)
  {
    var run := db.inputs[runId];
    var later: (Id, nat) := (run.sessionId, run.inputSeq + 1);
    assert RunOk(db, uuids, runId);
    if later in db.bySeq {
      assert !Answers(db, db.bySeq[later]);
    }
  }

  lemma AdvancedThread(db: Tables, uuids: Id, runId: Id, c: Checkpoint)
    requires TablesOk(db, uuids) && IsHead(db, runId)
    requires TurnsOk(db, db.inputs[runId].sessionId) && ThreadOk(db, db.inputs[runId].sessionId, Some(c))
    requires c.state.identity.runId == runId && c.next == END
    ensures ThreadOk(Advanced(db, runId), db.inputs[runId].sessionId, Some(c))
  {
    var db' := Advanced(db, runId);
    var sid := db.inputs[runId].sessionId;
    AdvancedIndex(db, runId);
    CheckpointStays(db, db', c);
    hide CheckpointOk, IndexesOk, EvidenceOk, RunsOk, Extends, SameIndex;
    forall id | IsHead(db', id) && db'.inputs[id].sessionId == sid ensures !Answers(db', id) {
      assert !Answers(db, id);
    }
  }

  lemma AdvancedOtherSession(s: World, runId: Id, sid: Id)
    requires IsHead(s.db, runId) && sid in s.db.sessions && sid != s.db.inputs[runId].sessionId
    requires SessionOk(s, sid)
    ensures SessionOk(s.(db := Advanced(s.db, runId)), sid)
  {
    hide RoundsOk, TurnsOk, ThreadOk;
    AdvancedOtherTurns(s.db, runId, sid);
    if sid !in s.lost {
      AdvancedOtherThread(s.db, runId, sid, Saved(s, sid));
    }
    assert Saved(s.(db := Advanced(s.db, runId)), sid) == Saved(s, sid);
  }

  lemma AdvancedOtherTurns(db: Tables, runId: Id, sid: Id)
    requires IsHead(db, runId) && sid in db.sessions && sid != db.inputs[runId].sessionId
    requires RoundsOk(db, sid) && TurnsOk(db, sid)
    ensures RoundsOk(Advanced(db, runId), sid) && TurnsOk(Advanced(db, runId), sid)
  {
    assert forall id :: Answers(Advanced(db, runId), id) == Answers(db, id);
  }

  lemma AdvancedOtherThread(db: Tables, runId: Id, sid: Id, checkpoint: Option<Checkpoint>)
    requires IsHead(db, runId) && sid in db.sessions && sid != db.inputs[runId].sessionId
    requires ThreadOk(db, sid, checkpoint)
    ensures ThreadOk(Advanced(db, runId), sid, checkpoint)
  {
    var db' := Advanced(db, runId);
    AdvancedIndex(db, runId);
    if checkpoint.Some? {
      CheckpointStays(db, db', checkpoint.value);
    }
    hide Extends, Grows, SameIndex, CheckpointOk;
    assert forall id :: Answers(db', id) == Answers(db, id);
  }

  /** Nobody is left in the session who could act on the head. */
  ghost predicate Deserted(s: World, sid: Id) {
    forall v :: v in s.workers && s.workers[v].sessionId == sid && !s.workers[v].pc.Locked?
      ==> !Holds(s, v) && !WorkerMatches(s, v)
  }

  lemma AdvancedSessionsOk(s: World, runId: Id)
    requires TablesOk(s.db, s.uuids) && SessionsOk(s) && IsHead(s.db, runId) && runId in s.db.messages
    requires ShowsEnd(s, runId)
    ensures SessionsOk(s.(db := Advanced(s.db, runId)))
  {
    var s' := s.(db := Advanced(s.db, runId));
    hide RoundsOk, TurnsOk, ThreadOk, CheckpointOk, SessionOk;
    forall sid | sid in s'.db.sessions ensures SessionOk(s', sid) {
      if sid == s.db.inputs[runId].sessionId {
        AdvancedSessionOk(s, runId);
      } else {
        AdvancedOtherSession(s, runId, sid);
      }
    }
  }

  lemma AdvancedWorkersOk(s: World, runId: Id)
    requires WorkersOk(s) && IsHead(s.db, runId) && Deserted(s, s.db.inputs[runId].sessionId)
    ensures WorkersOk(s.(db := Advanced(s.db, runId))) && NoGain(s, s.(db := Advanced(s.db, runId)))
    ensures NoNewAccepting(s, s.(db := Advanced(s.db, runId)))
  {
    var s' := s.(db := Advanced(s.db, runId));
    AdvancedIndex(s.db, runId);
    hide ViewOk, Extends, Grows, WorkerOk;
    assert forall v :: Holds(s', v) == Holds(s, v);
    forall v | v in s'.workers ensures WorkerOk(s', v) {
      AdvancedWorker(s, runId, v);
    }
  }

  lemma AdvancedWorker(s: World, runId: Id, v: Id)
    requires v in s.workers && WorkerOk(s, v) && IsHead(s.db, runId) && Deserted(s, s.db.inputs[runId].sessionId)
    ensures WorkerOk(s.(db := Advanced(s.db, runId)), v)
  {
    var s' := s.(db := Advanced(s.db, runId));
    AdvancedIndex(s.db, runId);
    assert s.workers[v].runId in s.db.inputs;
    hide ViewOk, Extends, Grows, SameIndex;
    assert Holds(s', v) == Holds(s, v);
    WorkerStays(s, s', v);
  }

  lemma AdvanceKeeps(s: World, runId: Id, sid: Id)
    requires IsHead(s.db, runId)
    ensures Inv(s) && ReadyToAdvance(s, runId, sid) && Deserted(s, sid) ==> Inv(s.(db := Advanced(s.db, runId)))
  {
    hide SessionsOk, WrittenOk, WorkersOk, Exclusive, TokensDiffer, LocksOk, AttemptsOk, Extends, NoNewAccepting,
         NoGain, SameIndex, TablesOk, Deserted;
    if Inv(s) && ReadyToAdvance(s, runId, sid) && Deserted(s, sid) {
      var s' := s.(db := Advanced(s.db, runId));
      AdvancedIndex(s.db, runId);
      AdvancedTablesOk(s.db, runId, s.uuids);
      AdvancedSessionsOk(s, runId);
      AdvancedWorkersOk(s, runId);
      AdvancedLocks(s, runId);
      WrittenStays(s, s');
      ExclusiveStays(s, s');
      TokensStay(s, s');
      AttemptsStay(s, s');
    }
  }

  lemma AdvancedLocks(s: World, runId: Id)
    requires IsHead(s.db, runId)
    ensures LocksOk(s) ==> LocksOk(s.(db := Advanced(s.db, runId)))
  {
  }

  lemma InvParts(s: World)
    ensures Inv(s) ==> TablesOk(s.db, s.uuids) && SessionsOk(s) && WrittenOk(s) && WorkersOk(s) && LocksOk(s)
  {
    hide TablesOk, SessionsOk, WrittenOk, WorkersOk, LocksOk;
  }

  /** The last action of a worker: resolve the head, or give the run back. */
  lemma CloseKeeps(s: World, wid: Id, last: Checkpoint)
    requires wid in s.workers && s.workers[wid].owner.Some? && s.workers[wid].pc == Ending(last)
    ensures Inv(s) ==> Inv(Close(s, wid, last))
  {
    hide Inv;
    if last.next != END {
      ExitKeeps(s, wid);
      RevokeKeeps(Exit(s, wid), s.workers[wid].runId);
    } else {
      ResolveKeeps(s, wid, last);
    }
  }

  lemma ResolveKeeps(s: World, wid: Id, last: Checkpoint)
    requires wid in s.workers && s.workers[wid].owner.Some? && s.workers[wid].pc == Ending(last) && last.next == END
    ensures Inv(s) ==> Inv(Close(s, wid, last))
  {
    var w := s.workers[wid];
    hide Inv, WorkersOk, SessionsOk, TablesOk, LocksOk, Deserted, WorkerOk, ReadyToAdvance;
    ExitKeeps(s, wid);
    InvParts(s);
    WorkerIsOk(s, wid);
    if Inv(s) {
      if FinalizeTx(s.db, w.runId, w.owner.value, last.state.identity.runId, false, s.now).0 != s.db {
        FinalizeFacts(s, wid, last);
        EveryoneElseIsFenced(s, wid);
        ReadyAfterExit(s, wid, w.runId, w.sessionId);
        AdvanceKeeps(Exit(s, wid), w.runId, w.sessionId);
      }
    }
  }

  lemma ReadyAfterExit(s: World, wid: Id, runId: Id, sid: Id)
    ensures ReadyToAdvance(s, runId, sid) ==> ReadyToAdvance(Exit(s, wid), runId, sid) && IsHead(Exit(s, wid).db, runId)
  {
  }

  lemma WorkerIsOk(s: World, wid: Id)
    requires wid in s.workers
    ensures WorkersOk(s) ==> WorkerOk(s, wid)
  {
  }

  /** What the ending worker knows when its finalize goes through. */
  ghost predicate ReadyToAdvance(s: World, runId: Id, sid: Id) {
    && IsHead(s.db, runId)
    && s.db.inputs[runId].sessionId == sid
    && runId in s.db.messages
    && ShowsEnd(s, runId)
  }

  lemma FinalizeFacts(s: World, wid: Id, last: Checkpoint)
    requires wid in s.workers && WorkerOk(s, wid) && s.workers[wid].owner.Some?
    requires s.workers[wid].pc == Ending(last) && last.next == END
    requires var w := s.workers[wid];
             FinalizeTx(s.db, w.runId, w.owner.value, last.state.identity.runId, false, s.now).0 != s.db
    ensures var w := s.workers[wid];
            && WorkerMatches(s, wid)
            && ReadyToAdvance(s, w.runId, w.sessionId)
            && FinalizeTx(s.db, w.runId, w.owner.value, last.state.identity.runId, false, s.now).0
               == Advanced(s.db, w.runId)
  {
    hide CheckpointOk;
    assert WorkerOk(s, wid) && WorkerMatches(s, wid);
  }

  lemma EveryoneElseIsFenced(s: World, wid: Id)
    requires wid in s.workers && HasRead(s.workers[wid].pc) && WorkerMatches(s, wid)
    ensures Inv(s) ==> Deserted(Exit(s, wid), s.workers[wid].sessionId)
  {
    var s' := Exit(s, wid);
    hide Inv;
    if Inv(s) {
      forall v | v in s'.workers && s'.workers[v].sessionId == s.workers[wid].sessionId && !s'.workers[v].pc.Locked?
        ensures !Holds(s', v) && !WorkerMatches(s', v)
      {
        FinalizerIsAlone(s, wid, v);
      }
    }
  }

  // ---------------------------------------------------------------- new sessions, inputs and workers

  lemma SeedKeeps(s: World)
    ensures Inv(s) ==> Inv(s.(db := SeedTx(s.db, s.uuids), uuids := s.uuids + 1))
  {
    hide SessionsOk, WrittenOk, WorkersOk, Exclusive, TokensDiffer, LocksOk, AttemptsOk, Extends, NoNewAccepting,
         NoGain, IndexesOk, EvidenceOk, RunsOk, KeysOk;
    if Inv(s) {
      var s' := s.(db := SeedTx(s.db, s.uuids), uuids := s.uuids + 1);
      SeededTablesOk(s.db, s.uuids);
      SeededSessionsOk(s);
      SeededWorkersOk(s);
      WrittenStays(s, s');
      ExclusiveStays(s, s');
      TokensStay(s, s');
      AttemptsStay(s, s');
    }
  }

  lemma SeededTablesOk(db: Tables, uuids: Id)
    ensures TablesOk(db, uuids) ==> TablesOk(SeedTx(db, uuids), uuids + 1) && Grows(db, SeedTx(db, uuids))
  {
    if TablesOk(db, uuids) {
      var db' := SeedTx(db, uuids);
      forall id | id in db'.inputs ensures RunOk(db', uuids + 1, id) {
        assert RunOk(db, uuids, id);
      }
      forall key | key in db'.artifacts ensures ArtifactOk(db', key) {
        assert ArtifactOk(db, key);
      }
      forall id | id in db'.receipts ensures ReceiptOk(db', id) {
        assert ReceiptOk(db, id);
      }
    }
  }

  lemma SeededSessionsOk(s: World)
    requires TablesOk(s.db, s.uuids)
    ensures SessionsOk(s) ==> SessionsOk(s.(db := SeedTx(s.db, s.uuids), uuids := s.uuids + 1))
  {
    if SessionsOk(s) {
      var s' := s.(db := SeedTx(s.db, s.uuids), uuids := s.uuids + 1);
      hide RoundsOk, TurnsOk, ThreadOk, SessionOk;
      forall sid | sid in s'.db.sessions ensures SessionOk(s', sid) {
        if sid == s.uuids {
          NewSessionOk(s);
        } else {
          SeededOther(s, sid);
        }
      }
    }
  }

  lemma NewSessionOk(s: World)
    requires TablesOk(s.db, s.uuids) && s.uuids !in s.saved
    ensures SessionOk(s.(db := SeedTx(s.db, s.uuids), uuids := s.uuids + 1), s.uuids)
  {
    var db' := SeedTx(s.db, s.uuids);
    forall id | id in db'.inputs ensures db'.inputs[id].sessionId != s.uuids {
      assert RunOk(s.db, s.uuids, id);
    }
  }

  lemma SeededOther(s: World, sid: Id)
    requires sid in s.db.sessions && sid != s.uuids && SessionOk(s, sid)
    ensures TablesOk(s.db, s.uuids) ==> SessionOk(s.(db := SeedTx(s.db, s.uuids), uuids := s.uuids + 1), sid)
  {
    hide RoundsOk, TurnsOk, ThreadOk, IndexesOk, RunsOk, EvidenceOk, Extends, Grows;
    if TablesOk(s.db, s.uuids) {
      SeededTablesOk(s.db, s.uuids);
      SeededTurns(s.db, s.uuids, sid);
      if sid !in s.lost {
        SeededThread(s, sid);
      }
    }
  }

  lemma SeededTurns(db: Tables, uuids: Id, sid: Id)
    requires sid in db.sessions && sid != uuids && RoundsOk(db, sid) && TurnsOk(db, sid)
    ensures RoundsOk(SeedTx(db, uuids), sid) && TurnsOk(SeedTx(db, uuids), sid)
  {
    assert forall id :: Answers(SeedTx(db, uuids), id) == Answers(db, id);
  }

  lemma SeededThread(s: World, sid: Id)
    requires sid in s.db.sessions && sid != s.uuids && ThreadOk(s.db, sid, Saved(s, sid))
    requires Extends(s.db, SeedTx(s.db, s.uuids))
    ensures ThreadOk(SeedTx(s.db, s.uuids), sid, Saved(s, sid))
  {
    var db' := SeedTx(s.db, s.uuids);
    if sid in s.saved {
      CheckpointStays(s.db, db', s.saved[sid]);
    }
    hide Extends;
    assert forall id :: Answers(db', id) == Answers(s.db, id);
  }

  lemma SeededWorkersOk(s: World)
    requires KeysOk(s.db, s.uuids) && Grows(s.db, SeedTx(s.db, s.uuids))
    ensures var s' := s.(db := SeedTx(s.db, s.uuids), uuids := s.uuids + 1);
            && (WorkersOk(s) ==> WorkersOk(s'))
            && NoGain(s, s') && NoNewAccepting(s, s') && (LocksOk(s) ==> LocksOk(s'))
  {
    var s' := s.(db := SeedTx(s.db, s.uuids), uuids := s.uuids + 1);
    SeededNoGain(s);
    hide WorkerOk, ViewOk, Grows, KeysOk, NoGain, NoNewAccepting, LocksOk;
    if WorkersOk(s) {
      forall v | v in s'.workers ensures WorkerOk(s', v) {
        SeededHead(s.db, s.uuids, s.workers[v].runId);
        assert Holds(s', v) == Holds(s, v);
        WorkerStays(s, s', v);
      }
    }
  }

  lemma SeededNoGain(s: World)
    ensures var s' := s.(db := SeedTx(s.db, s.uuids), uuids := s.uuids + 1);
            NoGain(s, s') && NoNewAccepting(s, s') && (LocksOk(s) ==> LocksOk(s'))
  {
  }

  lemma SeededHead(db: Tables, uuids: Id, runId: Id)
    requires KeysOk(db, uuids)
    ensures IsHead(db, runId) ==> IsHead(SeedTx(db, uuids), runId)
  {
  }

  lemma UuidsKeep(s: World)
    ensures Inv(s) ==> Inv(s.(uuids := s.uuids + 1))
  {
    var s' := s.(uuids := s.uuids + 1);
    hide SessionsOk, TablesOk, WrittenOk, Exclusive, TokensDiffer, LocksOk, AttemptsOk, Extends, Grows,
         NoNewAccepting, NoGain, WorkersOk;
    if Inv(s) {
      SelfGrows(s.db);
      MoreUuids(s.db, s.uuids, s.uuids + 1);
      UuidsWorkers(s);
      SessionsStay(s, s');
      WrittenStays(s, s');
      ExclusiveStays(s, s');
      TokensStay(s, s');
      AttemptsStay(s, s');
    }
  }

  lemma UuidsWorkers(s: World)
    ensures var s' := s.(uuids := s.uuids + 1);
            && (WorkersOk(s) ==> WorkersOk(s'))
            && NoGain(s, s') && NoNewAccepting(s, s') && (LocksOk(s) ==> LocksOk(s'))
  {
    var s' := s.(uuids := s.uuids + 1);
    SelfGrows(s.db);
    assert forall v :: Holds(s', v) == Holds(s, v);
    hide ViewOk, WorkerOk, Extends, Grows;
    if WorkersOk(s) {
      forall v | v in s'.workers ensures WorkerOk(s', v) {
        WorkerStays(s, s', v);
      }
    }
  }

  /** The tables after a new input joins the queue of its session. */
  function Queued(db: Tables, newId: Id, sid: Id, requestId: string, payload: string): Tables
    requires sid in db.sessions
  {
    var session := db.sessions[sid];
    var run := Run(sid, session.nextSeq, requestId, payload, PayloadDigest(payload), PENDING, None, 0, 0);
    db.(inputs := db.inputs[newId := run],
        byRequest := db.byRequest[(sid, requestId) := newId],
        bySeq := db.bySeq[(sid, session.nextSeq) := newId],
        sessions := db.sessions[sid := session.(nextSeq := session.nextSeq + 1)])
  }

  function Enqueued(s: World, sid: Id, requestId: string, payload: string): World
    requires sid in s.db.sessions
  {
    s.(db := Queued(s.db, s.uuids, sid, requestId, payload), uuids := s.uuids + 1)
  }

  ghost predicate FreshId(db: Tables, id: Id) {
    && id !in db.inputs
    && id !in db.receipts
    && (forall key :: key in db.artifacts ==> key.ArtifactDigest? && key.runId != id)
  }

  lemma NewIdIsFresh(db: Tables, uuids: Id)
    ensures TablesOk(db, uuids) ==> FreshId(db, uuids)
  {
    if TablesOk(db, uuids) {
      FreshFacts(db, uuids);
    }
  }

  lemma FreshFacts(db: Tables, uuids: Id)
    requires RunsOk(db, uuids) && EvidenceOk(db)
    ensures FreshId(db, uuids)
  {
    hide IndexesOk, TurnTablesAgree;
    forall id | id in db.inputs ensures id < uuids {
      assert RunOk(db, uuids, id);
    }
    forall id | id in db.receipts ensures id in db.inputs {
      assert ReceiptOk(db, id);
    }
    forall key | key in db.artifacts ensures key.ArtifactDigest? && key.runId != uuids {
      assert ArtifactOk(db, key);
    }
  }

  lemma QueuedAnswers(db: Tables, newId: Id, sid: Id, requestId: string, payload: string)
    requires sid in db.sessions && FreshId(db, newId)
    ensures forall id :: Answers(Queued(db, newId, sid, requestId, payload), id) <==> Answers(db, id)
    ensures Grows(db, Queued(db, newId, sid, requestId, payload))
  {
    var db' := Queued(db, newId, sid, requestId, payload);
    assert ArtifactKey(db', newId) !in db.artifacts;
  }

  lemma QueuedRuns(db: Tables, uuids: Id, sid: Id, requestId: string, payload: string)
    requires sid in db.sessions && 1 <= db.sessions[sid].nextSeq && RunsOk(db, uuids)
    requires (sid, requestId) !in db.byRequest
    ensures RunsOk(Queued(db, uuids, sid, requestId, payload), uuids + 1)
  {
    var db' := Queued(db, uuids, sid, requestId, payload);
    forall id | id in db'.inputs ensures RunOk(db', uuids + 1, id) {
      if id != uuids {
        assert RunOk(db, uuids, id);
      }
    }
  }

  lemma QueuedIndexes(db: Tables, newId: Id, sid: Id, requestId: string, payload: string)
    requires sid in db.sessions && FreshId(db, newId) && IndexesOk(db)
    ensures IndexesOk(Queued(db, newId, sid, requestId, payload))
  {
    var db' := Queued(db, newId, sid, requestId, payload);
    forall t, q | (t, q) in db'.bySeq
      ensures && db'.bySeq[(t, q)] in db'.inputs
              && db'.inputs[db'.bySeq[(t, q)]].sessionId == t
              && db'.inputs[db'.bySeq[(t, q)]].inputSeq == q
    {
      if (t, q) != (sid, db.sessions[sid].nextSeq) {
        assert (t, q) in db.bySeq;
      }
    }
    forall t, r | (t, r) in db'.byRequest
      ensures && db'.byRequest[(t, r)] in db'.inputs
              && db'.inputs[db'.byRequest[(t, r)]].sessionId == t
              && db'.inputs[db'.byRequest[(t, r)]].requestId == r
    {
      if (t, r) != (sid, requestId) {
        assert (t, r) in db.byRequest;
      }
    }
  }

  lemma QueuedEvidence(db: Tables, newId: Id, sid: Id, requestId: string, payload: string)
    requires sid in db.sessions && FreshId(db, newId)
    ensures EvidenceOk(db) ==> EvidenceOk(Queued(db, newId, sid, requestId, payload))
  {
    if EvidenceOk(db) {
      var db' := Queued(db, newId, sid, requestId, payload);
      forall key | key in db'.artifacts ensures ArtifactOk(db', key) {
        assert ArtifactOk(db, key);
      }
      forall id | id in db'.receipts ensures ReceiptOk(db', id) {
        assert ReceiptOk(db, id);
      }
    }
  }

  lemma QueuedTablesOk(db: Tables, uuids: Id, sid: Id, requestId: string, payload: string)
    requires sid in db.sessions && 1 <= db.sessions[sid].nextSeq && (sid, requestId) !in db.byRequest
    ensures TablesOk(db, uuids) ==> TablesOk(Queued(db, uuids, sid, requestId, payload), uuids + 1)
  {
    hide RunsOk, IndexesOk, EvidenceOk, FreshId;
    NewIdIsFresh(db, uuids);
    if TablesOk(db, uuids) {
      QueuedRuns(db, uuids, sid, requestId, payload);
      QueuedIndexes(db, uuids, sid, requestId, payload);
      QueuedEvidence(db, uuids, sid, requestId, payload);
    }
  }

  lemma NextNumberIsFree(db: Tables, uuids: Id, sid: Id)
    requires sid in db.sessions && RunsOk(db, uuids) && IndexesOk(db)
    ensures (sid, db.sessions[sid].nextSeq) !in db.bySeq
  {
    var next: (Id, nat) := (sid, db.sessions[sid].nextSeq);
    forall id | id in db.inputs && db.inputs[id].sessionId == sid
      ensures db.inputs[id].inputSeq < db.sessions[sid].nextSeq
    {
      assert RunOk(db, uuids, id);
    }
  }

  lemma QueuedRounds(db: Tables, uuids: Id, sid: Id, requestId: string, payload: string)
    requires sid in db.sessions && uuids !in db.receipts && (sid, db.sessions[sid].nextSeq) !in db.bySeq
    ensures RoundsOk(db, sid) ==> RoundsOk(Queued(db, uuids, sid, requestId, payload), sid)
  {
  }

  lemma QueuedNumbers(db: Tables, uuids: Id, sid: Id, requestId: string, payload: string)
    requires sid in db.sessions && uuids !in db.inputs && RoundsOk(db, sid)
    requires forall id :: Answers(Queued(db, uuids, sid, requestId, payload), id) <==> Answers(db, id)
    ensures TurnsOk(db, sid) ==> TurnsOk(Queued(db, uuids, sid, requestId, payload), sid)
  {
    hide Answers;
    assert !Answers(db, uuids) by {
      NoRunNoAnswer(db, uuids);
    }
  }

  lemma NoRunNoAnswer(db: Tables, id: Id)
    requires id !in db.inputs
    ensures !Answers(db, id)
  {
  }

  lemma QueuedTurns(db: Tables, uuids: Id, sid: Id, requestId: string, payload: string)
    requires sid in db.sessions && FreshId(db, uuids) && RunsOk(db, uuids) && IndexesOk(db)
    requires RoundsOk(db, sid) && TurnsOk(db, sid)
    ensures RoundsOk(Queued(db, uuids, sid, requestId, payload), sid)
    ensures TurnsOk(Queued(db, uuids, sid, requestId, payload), sid)
  {
    hide RunsOk, IndexesOk, Extends, RoundsOk, TurnsOk, Queued;
    QueuedAnswers(db, uuids, sid, requestId, payload);
    NextNumberIsFree(db, uuids, sid);
    QueuedRounds(db, uuids, sid, requestId, payload);
    QueuedNumbers(db, uuids, sid, requestId, payload);
  }

  lemma QueuedThread(s: World, sid: Id, requestId: string, payload: string, t: Id)
    requires sid in s.db.sessions && FreshId(s.db, s.uuids) && t in s.db.sessions
    requires ThreadOk(s.db, t, Saved(s, t))
    ensures ThreadOk(Queued(s.db, s.uuids, sid, requestId, payload), t, Saved(s, t))
  {
    var db' := Queued(s.db, s.uuids, sid, requestId, payload);
    QueuedAnswers(s.db, s.uuids, sid, requestId, payload);
    if t in s.saved {
      CheckpointStays(s.db, db', s.saved[t]);
    }
  }

  lemma QueuedOther(db: Tables, newId: Id, sid: Id, requestId: string, payload: string, t: Id)
    requires sid in db.sessions && FreshId(db, newId) && t in db.sessions && t != sid
    requires RoundsOk(db, t) && TurnsOk(db, t)
    ensures RoundsOk(Queued(db, newId, sid, requestId, payload), t)
    ensures TurnsOk(Queued(db, newId, sid, requestId, payload), t)
  {
    QueuedAnswers(db, newId, sid, requestId, payload);
    hide FreshId, Extends;
  }

  lemma QueuedSessionOk(s: World, sid: Id, requestId: string, payload: string, t: Id)
    requires sid in s.db.sessions && t in s.db.sessions
    ensures FreshId(s.db, s.uuids) && RunsOk(s.db, s.uuids) && IndexesOk(s.db) && SessionOk(s, t)
            ==> SessionOk(Enqueued(s, sid, requestId, payload), t)
  {
    hide RunsOk, IndexesOk, FreshId, RoundsOk, TurnsOk, ThreadOk;
    if FreshId(s.db, s.uuids) && RunsOk(s.db, s.uuids) && IndexesOk(s.db) && SessionOk(s, t) {
      if t == sid {
        QueuedTurns(s.db, s.uuids, sid, requestId, payload);
      } else {
        QueuedOther(s.db, s.uuids, sid, requestId, payload, t);
      }
      if t !in s.lost {
        QueuedThread(s, sid, requestId, payload, t);
      }
      assert Saved(Enqueued(s, sid, requestId, payload), t) == Saved(s, t);
    }
  }

  lemma QueuedSessionsOk(s: World, sid: Id, requestId: string, payload: string)
    requires sid in s.db.sessions
    ensures FreshId(s.db, s.uuids) && TablesOk(s.db, s.uuids) && SessionsOk(s)
            ==> SessionsOk(Enqueued(s, sid, requestId, payload))
  {
    var s' := Enqueued(s, sid, requestId, payload);
    hide RunsOk, IndexesOk, EvidenceOk, KeysOk, FreshId, SessionOk;
    if FreshId(s.db, s.uuids) && TablesOk(s.db, s.uuids) && SessionsOk(s) {
      forall t | t in s'.db.sessions ensures SessionOk(s', t) {
        QueuedSessionOk(s, sid, requestId, payload, t);
      }
    }
  }

  lemma QueuedWorkers(s: World, sid: Id, requestId: string, payload: string)
    requires sid in s.db.sessions && FreshId(s.db, s.uuids)
    ensures var s' := Enqueued(s, sid, requestId, payload);
            && (WorkersOk(s) ==> WorkersOk(s') && NoGain(s, s'))
            && NoNewAccepting(s, s') && (LocksOk(s) ==> LocksOk(s'))
  {
    var s' := Enqueued(s, sid, requestId, payload);
    QueuedAnswers(s.db, s.uuids, sid, requestId, payload);
    hide Grows, ViewOk, WorkerOk, FreshId;
    if WorkersOk(s) {
      forall v | v in s'.workers
        ensures WorkerOk(s', v) && WorkerMatches(s', v) == WorkerMatches(s, v)
      {
        QueuedWorker(s, sid, requestId, payload, v);
      }
    }
  }

  lemma QueuedWorker(s: World, sid: Id, requestId: string, payload: string, v: Id)
    requires sid in s.db.sessions && FreshId(s.db, s.uuids) && v in s.workers && WorkerOk(s, v)
    ensures var s' := Enqueued(s, sid, requestId, payload);
            WorkerOk(s', v) && WorkerMatches(s', v) == WorkerMatches(s, v)
  {
    var s' := Enqueued(s, sid, requestId, payload);
    QueuedAnswers(s.db, s.uuids, sid, requestId, payload);
    assert s.workers[v].runId in s.db.inputs && s.uuids !in s.db.inputs;
    hide Grows, ViewOk, FreshId;
    assert Holds(s', v) == Holds(s, v);
    WorkerStays(s, s', v);
  }

  lemma QueuedKeeps(s: World, sid: Id, requestId: string, payload: string)
    requires sid in s.db.sessions && (sid, requestId) !in s.db.byRequest
    ensures Inv(s) ==> Inv(Enqueued(s, sid, requestId, payload))
  {
    hide SessionsOk, TablesOk, WrittenOk, Exclusive, TokensDiffer, LocksOk, AttemptsOk, WorkersOk, FreshId, Queued;
    if Inv(s) {
      NewIdIsFresh(s.db, s.uuids);
      SessionCounts(s, sid);
      QueuedTablesOk(s.db, s.uuids, sid, requestId, payload);
      QueuedSessionsOk(s, sid, requestId, payload);
      QueuedRest(s, sid, requestId, payload);
      QueuedAnswers(s.db, s.uuids, sid, requestId, payload);
      WrittenStays(s, Enqueued(s, sid, requestId, payload));
    }
  }

  lemma QueuedRest(s: World, sid: Id, requestId: string, payload: string)
    requires sid in s.db.sessions
    ensures var s' := Enqueued(s, sid, requestId, payload);
            FreshId(s.db, s.uuids) && WorkersOk(s) ==>
              && WorkersOk(s')
              && (Exclusive(s) ==> Exclusive(s'))
              && (TokensDiffer(s) ==> TokensDiffer(s'))
              && (LocksOk(s) ==> LocksOk(s'))
              && (AttemptsOk(s) ==> AttemptsOk(s'))
  {
    var s' := Enqueued(s, sid, requestId, payload);
    hide Exclusive, TokensDiffer, AttemptsOk, LocksOk, Extends, NoNewAccepting, NoGain, FreshId, Queued, WorkersOk;
    QueuedAttempts(s.db, s.uuids, sid, requestId, payload);
    if FreshId(s.db, s.uuids) {
      QueuedAnswers(s.db, s.uuids, sid, requestId, payload);
      QueuedWorkers(s, sid, requestId, payload);
      ExclusiveStays(s, s');
      TokensStay(s, s');
      AttemptsStay(s, s');
    }
  }

  lemma QueuedAttempts(db: Tables, newId: Id, sid: Id, requestId: string, payload: string)
    requires sid in db.sessions
    ensures Queued(db, newId, sid, requestId, payload).attempts == db.attempts
  {
  }

  lemma SessionCounts(s: World, sid: Id)
    requires sid in s.db.sessions
    ensures SessionsOk(s) ==> s.db.sessions[sid].cursor < s.db.sessions[sid].nextSeq
  {
    hide TurnsOk, ThreadOk;
    if SessionsOk(s) {
      assert SessionOk(s, sid);
    }
  }

  lemma EnqueueKeeps(s: World, sid: Id, requestId: string, payload: string)
    ensures Inv(s) ==> Inv(s.(db := EnqueueTx(s.db, s.uuids, sid, requestId, payload).0, uuids := s.uuids + 1))
  {
    hide Inv;
    if sid in s.db.sessions && (sid, requestId) !in s.db.byRequest {
      QueuedKeeps(s, sid, requestId, payload);
    } else {
      UuidsKeep(s);
    }
  }

  lemma StartKeeps(s: World, runId: Id)
    ensures Inv(s) ==> Inv(StartOn(s, runId))
  {
    var s' := StartOn(s, runId);
    hide SessionsOk, TablesOk, WrittenOk, Exclusive, TokensDiffer, LocksOk, AttemptsOk, Extends, Grows,
         NoNewAccepting, WorkersOk;
    if Inv(s) && runId in s.db.inputs && s.db.inputs[runId].sessionId !in s.locks {
      SelfGrows(s.db);
      MoreUuids(s.db, s.uuids, s.uuids + 1);
      SessionsStay(s, s');
      StartedWorkers(s, runId);
      StartedExclusive(s, runId);
      WrittenStays(s, s');
      AttemptsStay(s, s');
    }
  }

  lemma StartedWorkers(s: World, runId: Id)
    requires runId in s.db.inputs && s.db.inputs[runId].sessionId !in s.locks && WorkersOk(s) && LocksOk(s)
    ensures WorkersOk(StartOn(s, runId)) && LocksOk(StartOn(s, runId)) && NoNewAccepting(s, StartOn(s, runId))
  {
    var s' := StartOn(s, runId);
    WorkersAreOld(s);
    StartedRest(s, runId);
    hide ViewOk, Extends, Grows, WorkerOk, LocksOk, NoNewAccepting;
    SelfGrows(s.db);
    forall v | v in s'.workers ensures WorkerOk(s', v) {
      if v == s.uuids {
        StartedWorker(s, runId);
      } else {
        WorkerStays(s, s', v);
      }
    }
  }

  lemma WorkersAreOld(s: World)
    ensures WorkersOk(s) ==> forall v :: v in s.workers ==> v < s.uuids
  {
    hide ViewOk;
    if WorkersOk(s) {
      forall v | v in s.workers ensures v < s.uuids {
        assert WorkerOk(s, v);
      }
    }
  }

  lemma StartedRest(s: World, runId: Id)
    requires runId in s.db.inputs && s.db.inputs[runId].sessionId !in s.locks && s.uuids !in s.workers
    ensures LocksOk(s) ==> LocksOk(StartOn(s, runId))
    ensures NoNewAccepting(s, StartOn(s, runId))
  {
  }

  lemma StartedWorker(s: World, runId: Id)
    requires runId in s.db.inputs && s.db.inputs[runId].sessionId !in s.locks
    ensures WorkerOk(StartOn(s, runId), s.uuids)
  {
  }

  lemma StartedExclusive(s: World, runId: Id)
    requires runId in s.db.inputs && s.db.inputs[runId].sessionId !in s.locks && WorkersOk(s)
    ensures Exclusive(s) ==> Exclusive(StartOn(s, runId))
    ensures TokensDiffer(s) ==> TokensDiffer(StartOn(s, runId))
  {
    var s' := StartOn(s, runId);
    assert forall v :: Holds(s', v) && v != s.uuids ==> Holds(s, v);
  }
}
