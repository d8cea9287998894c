/** The steps of the P0 machine that write tables keep the invariant. */
module P0Writes {
  import opened Outcomes
  import opened Recovery
  import opened P0Store
  import opened P0Machine
  import opened P0Safety

  // ---------------------------------------------------------------- frames for table writes

  /** The same runs in the same places, up to who owns them and how far each session is. */
  ghost predicate SameIndex(db: Tables, db': Tables) {
    && db'.inputs.Keys == db.inputs.Keys
    && (forall id :: id in db.inputs ==> SameRun(db.inputs[id], db'.inputs[id]))
    && db'.bySeq == db.bySeq
    && db'.byRequest == db.byRequest
    && db'.products == db.products
    && db'.sessions.Keys == db.sessions.Keys
    && (forall sid :: sid in db.sessions ==> db'.sessions[sid].nextSeq == db.sessions[sid].nextSeq)
  }

  /** The queue itself - who is where, and which turn is the head - does not move. */
  ghost predicate SameQueue(db: Tables, db': Tables) {
    && SameIndex(db, db')
    && (forall sid :: sid in db.sessions ==> db'.sessions[sid].cursor == db.sessions[sid].cursor)
  }

  /** Nobody owns a run after the write who did not own it before. */
  ghost predicate NoNewOwner(db: Tables, db': Tables) {
    forall id, owner :: Matches(db', id, owner) ==> Matches(db, id, owner)
  }

  /** A new answer belongs to a head that nobody starts any more, and whose thread has a checkpoint
      of it unless it lost one. */
  ghost predicate NewAnswersOk(s: World, db': Tables) {
    forall id :: Answers(db', id) && !Answers(s.db, id) ==> AnswerAllowed(s, id)
  }

  ghost predicate AnswerAllowed(s: World, id: Id) {
    && IsHead(s.db, id)
    && NobodyBegins(s, id)
    && (s.db.inputs[id].sessionId !in s.lost ==>
          var saved := Saved(s, s.db.inputs[id].sessionId);
          saved.Some? && saved.value.state.identity.runId == id)
  }

  /** No worker that could still write is about to start the run from scratch. */
  ghost predicate NobodyBegins(s: World, id: Id) {
    forall v :: v in s.workers && s.workers[v].runId == id && s.workers[v].pc.Begin?
      ==> !Holds(s, v) && !WorkerMatches(s, v)
  }

  lemma TurnsStay(s: World, db': Tables, sid: Id)
    requires sid in s.db.sessions && sid in db'.sessions
    requires TurnsOk(s.db, sid) && SameQueue(s.db, db') && Extends(s.db, db')
    requires NewAnswersOk(s, db')
    ensures TurnsOk(db', sid)
  {
    forall id | id in db'.inputs && db'.inputs[id].sessionId == sid
                && db'.inputs[id].inputSeq > db'.sessions[sid].cursor + 1
      ensures !Answers(db', id)
    {
      assert SameRun(s.db.inputs[id], db'.inputs[id]);
      assert !Answers(s.db, id);
    }
    forall id | id in db'.inputs && db'.inputs[id].sessionId == sid
                && db'.inputs[id].inputSeq <= db'.sessions[sid].cursor
      ensures id in db'.messages
    {
      assert SameRun(s.db.inputs[id], db'.inputs[id]);
    }
  }

  lemma ThreadStays(s: World, db': Tables, sid: Id)
    requires sid in s.db.sessions && sid in db'.sessions
    requires ThreadOk(s.db, sid, Saved(s, sid)) && SameQueue(s.db, db') && Extends(s.db, db')
    requires NewAnswersOk(s, db') && sid !in s.lost
    ensures ThreadOk(db', sid, Saved(s, sid))
  {
    var saved := Saved(s, sid);
    if saved.Some? {
      CheckpointStays(s.db, db', saved.value);
      var id := saved.value.state.identity.runId;
      assert SameRun(s.db.inputs[id], db'.inputs[id]);
    }
    forall id | IsHead(db', id) && db'.inputs[id].sessionId == sid && Answers(db', id)
      ensures saved.Some? && saved.value.state.identity.runId == id
    {
      assert SameRun(s.db.inputs[id], db'.inputs[id]);
      assert IsHead(s.db, id);
    }
  }

  /** A table write that keeps the queue, loses nothing and makes no new owner. */
  ghost predicate CarefulWrite(s: World, db': Tables) {
    && SameQueue(s.db, db')
    && Extends(s.db, db')
    && NoNewOwner(s.db, db')
    && NewAnswersOk(s, db')
    && db'.attempts == s.db.attempts
  }

  lemma CarefulSessionsOk(s: World, db': Tables)
    requires SessionsOk(s) && CarefulWrite(s, db')
    requires forall sid :: sid in db'.sessions ==> RoundsOk(db', sid)
    ensures SessionsOk(s.(db := db'))
  {
    var s' := s.(db := db');
    hide RoundsOk, TurnsOk, ThreadOk, Extends, NewAnswersOk, NoNewOwner;
    forall sid | sid in db'.sessions ensures SessionOk(s', sid) {
      assert SessionOk(s, sid);
      TurnsStay(s, db', sid);
      if sid !in s.lost {
        ThreadStays(s, db', sid);
      }
      assert Saved(s, sid) == Saved(s', sid);
    }
  }

  lemma QueueGrows(db: Tables, db': Tables)
    ensures SameQueue(db, db') && Extends(db, db') ==> Grows(db, db')
  {
  }

  lemma CarefulWorkersOk(s: World, db': Tables)
    requires WorkersOk(s) && CarefulWrite(s, db')
    ensures WorkersOk(s.(db := db')) && NoGain(s, s.(db := db')) && NoNewAccepting(s, s.(db := db'))
  {
    var s' := s.(db := db');
    QueueGrows(s.db, db');
    hide ViewOk, WorkerOk, Extends, NewAnswersOk, Grows;
    assert forall v :: Holds(s', v) == Holds(s, v);
    forall v | v in s'.workers ensures WorkerOk(s', v) {
      if IsHead(s.db, s.workers[v].runId) {
        assert SameRun(s.db.inputs[s.workers[v].runId], db'.inputs[s.workers[v].runId]);
      }
      if s.workers[v].pc.Begin? {
        BeginsUnanswered(s, db', v);
      }
      WorkerStays(s, s', v);
    }
  }

  lemma BeginsUnanswered(s: World, db': Tables, v: Id)
    requires NewAnswersOk(s, db') && NoNewOwner(s.db, db') && v in s.workers && s.workers[v].pc.Begin?
    ensures var s' := s.(db := db');
            (Holds(s', v) || WorkerMatches(s', v)) && Answers(db', s.workers[v].runId)
            ==> Answers(s.db, s.workers[v].runId)
  {
    hide Answers;
    assert Holds(s.(db := db'), v) == Holds(s, v);
  }

  /** The whole invariant survives a careful write, provided the tables themselves stay sound. */
  lemma CarefulWriteKeeps(s: World, db': Tables)
    requires CarefulWrite(s, db')
    requires TablesOk(db', s.uuids)
    requires forall sid :: sid in db'.sessions ==> RoundsOk(db', sid)
    ensures Inv(s) ==> Inv(s.(db := db'))
  {
    hide TablesOk, SessionsOk, WrittenOk, WorkersOk, Exclusive, TokensDiffer, AttemptsOk, NoGain, NoNewAccepting,
         Extends, Grows, SameQueue, NoNewOwner, NewAnswersOk, RoundsOk;
    if Inv(s) {
      var s' := s.(db := db');
      QueueGrows(s.db, db');
      WrittenStays(s, s');
      CarefulSessionsOk(s, db');
      CarefulWorkersOk(s, db');
      ExclusiveStays(s, s');
      TokensStay(s, s');
      AttemptsStay(s, s');
    }
  }

  // ---------------------------------------------------------------- revoking

  lemma IndexesStay(db: Tables, db': Tables)
    ensures IndexesOk(db) && SameIndex(db, db') ==> IndexesOk(db')
  {
    if IndexesOk(db) && SameIndex(db, db') {
      forall sid, q | (sid, q) in db'.bySeq
        ensures && db'.bySeq[(sid, q)] in db'.inputs
                && db'.inputs[db'.bySeq[(sid, q)]].sessionId == sid
                && db'.inputs[db'.bySeq[(sid, q)]].inputSeq == q
      {
        assert SameRun(db.inputs[db.bySeq[(sid, q)]], db'.inputs[db.bySeq[(sid, q)]]);
      }
      forall sid, request | (sid, request) in db'.byRequest
        ensures && db'.byRequest[(sid, request)] in db'.inputs
                && db'.inputs[db'.byRequest[(sid, request)]].sessionId == sid
                && db'.inputs[db'.byRequest[(sid, request)]].requestId == request
      {
        assert SameRun(db.inputs[db.byRequest[(sid, request)]], db'.inputs[db.byRequest[(sid, request)]]);
      }
    }
  }

  predicate TokensBelow(inputs: map<Id, Run>, uuids: Id) {
    forall id :: id in inputs && inputs[id].token.Some? ==> inputs[id].token.value < uuids
  }

  lemma RunsHaveTokensBelow(db: Tables, uuids: Id)
    ensures RunsOk(db, uuids) ==> TokensBelow(db.inputs, uuids)
  {
    if RunsOk(db, uuids) {
      forall id | id in db.inputs && db.inputs[id].token.Some? ensures db.inputs[id].token.value < uuids {
        assert RunOk(db, uuids, id);
      }
    }
  }

  lemma RunsStay(db: Tables, db': Tables, uuids: Id)
    ensures RunsOk(db, uuids) && SameIndex(db, db') && TokensBelow(db'.inputs, uuids) ==> RunsOk(db', uuids)
  {
    if RunsOk(db, uuids) && SameIndex(db, db') && TokensBelow(db'.inputs, uuids) {
      forall id | id in db'.inputs ensures RunOk(db', uuids, id) {
        assert RunOk(db, uuids, id) && SameRun(db.inputs[id], db'.inputs[id]);
      }
    }
  }

  predicate SameEvidence(db: Tables, db': Tables) {
    && db'.artifacts == db.artifacts
    && db'.receipts == db.receipts
    && db'.messages == db.messages
    && db'.offers == db.offers
    && db'.approvals == db.approvals
    && db'.notifications == db.notifications
    && db'.outbox == db.outbox
  }

  lemma EvidenceStays(db: Tables, db': Tables)
    ensures EvidenceOk(db) && SameIndex(db, db') && SameEvidence(db, db') ==> EvidenceOk(db')
  {
    if EvidenceOk(db) && SameIndex(db, db') && SameEvidence(db, db') {
      forall key | key in db'.artifacts ensures ArtifactOk(db', key) {
        assert ArtifactOk(db, key);
        assert SameRun(db.inputs[db.artifacts[key].runId], db'.inputs[db.artifacts[key].runId]);
      }
      forall id | id in db'.receipts ensures ReceiptOk(db', id) {
        assert ReceiptOk(db, id);
        assert SameRun(db.inputs[id], db'.inputs[id]);
      }
    }
  }

  /** The tables stay sound when only tokens, leases, rounds or evidence change. */
  lemma TablesStay(db: Tables, db': Tables, uuids: Id)
    requires db'.attempts == db.attempts
    ensures TablesOk(db, uuids) && SameIndex(db, db') && TokensBelow(db'.inputs, uuids) && EvidenceOk(db')
            ==> TablesOk(db', uuids)
  {
    hide IndexesOk, EvidenceOk, RunsOk, TokensBelow;
    IndexesStay(db, db');
    RunsStay(db, db', uuids);
  }

  lemma MoreUuids(db: Tables, uuids: Id, uuids': Id)
    ensures TablesOk(db, uuids) && uuids <= uuids' ==> TablesOk(db, uuids')
  {
    if TablesOk(db, uuids) && uuids <= uuids' {
      hide IndexesOk, EvidenceOk;
      forall id | id in db.inputs ensures RunOk(db, uuids', id) {
        assert RunOk(db, uuids, id);
      }
    }
  }

  lemma RevokeIsCareful(s: World, runId: Id)
    ensures CarefulWrite(s, RevokeTx(s.db, runId))
  {
    var db' := RevokeTx(s.db, runId);
    RevokeSameQueue(s.db, runId);
    if runId in s.db.inputs {
      assert forall id :: Answers(db', id) == Answers(s.db, id);
    }
  }

  lemma RevokeTablesOk(db: Tables, uuids: Id, runId: Id)
    requires TablesOk(db, uuids)
    ensures TablesOk(RevokeTx(db, runId), uuids)
  {
    var db' := RevokeTx(db, runId);
    RevokeSameQueue(db, runId);
    RevokeTokens(db, uuids, runId);
    hide IndexesOk, EvidenceOk, SameQueue, RunsOk, TokensBelow;
    EvidenceStays(db, db');
    RunsHaveTokensBelow(db, uuids);
    TablesStay(db, db', uuids);
  }

  lemma RevokeSameQueue(db: Tables, runId: Id)
    ensures SameQueue(db, RevokeTx(db, runId))
  {
    if runId in db.inputs {
    }
  }

  lemma RevokeTokens(db: Tables, uuids: Id, runId: Id)
    ensures TokensBelow(db.inputs, uuids) ==> TokensBelow(RevokeTx(db, runId).inputs, uuids)
  {
  }

  lemma SameRounds(s: World, db': Tables)
    requires SessionsOk(s)
    requires db'.sessions == s.db.sessions && db'.bySeq == s.db.bySeq && db'.receipts == s.db.receipts
    ensures forall sid :: sid in db'.sessions ==> RoundsOk(db', sid)
  {
    hide TurnsOk, ThreadOk;
    forall sid | sid in db'.sessions ensures RoundsOk(db', sid) {
      assert SessionOk(s, sid);
    }
  }

  lemma RevokeKeeps(s: World, runId: Id)
    ensures Inv(s) ==> Inv(s.(db := RevokeTx(s.db, runId)))
  {
    hide TablesOk, SessionsOk, WrittenOk, WorkersOk, Exclusive, TokensDiffer, LocksOk, AttemptsOk, CarefulWrite,
         RoundsOk;
    if Inv(s) {
      var db' := RevokeTx(s.db, runId);
      RevokeIsCareful(s, runId);
      RevokeTablesOk(s.db, s.uuids, runId);
      SameRounds(s, db');
      CarefulWriteKeeps(s, db');
    }
  }

  // ---------------------------------------------------------------- the turn's own writes

  /** The row that an accepted answer adds. */
  function WithArtifact(db: Tables, runId: Id, answer: string): Tables
    requires runId in db.inputs
  {
    var row := Artifact(runId, db.inputs[runId].payloadHash, CONFIG_HASH, answer, ValueDigest(answer));
    db.(artifacts := db.artifacts[ArtifactKey(db, runId) := row])
  }

  lemma SaveArtifactIsCareful(s: World, runId: Id, answer: string)
    requires runId in s.db.inputs && AnswerAllowed(s, runId)
    requires ArtifactKey(s.db, runId) !in s.db.artifacts
    ensures CarefulWrite(s, WithArtifact(s.db, runId, answer))
  {
    var db' := WithArtifact(s.db, runId, answer);
    forall id | Answers(db', id) && !Answers(s.db, id) ensures id == runId {
      assert ArtifactKey(s.db, id) == ArtifactKey(s.db, runId);
    }
  }

  lemma SaveArtifactTablesOk(db: Tables, uuids: Id, runId: Id, answer: string)
    requires runId in db.inputs
    ensures TablesOk(db, uuids) ==> TablesOk(WithArtifact(db, runId, answer), uuids)
  {
    var db' := WithArtifact(db, runId, answer);
    hide RunsOk, IndexesOk, EvidenceOk, KeysOk, TokensBelow;
    SaveArtifactEvidenceOk(db, runId, answer);
    RunsHaveTokensBelow(db, uuids);
    TablesStay(db, db', uuids);
  }

  lemma SaveArtifactEvidenceOk(db: Tables, runId: Id, answer: string)
    requires runId in db.inputs
    ensures EvidenceOk(db) ==> EvidenceOk(WithArtifact(db, runId, answer))
  {
    if EvidenceOk(db) {
      var db' := WithArtifact(db, runId, answer);
      forall id | id in db'.receipts ensures ReceiptOk(db', id) {
        SaveArtifactReceiptOk(db, runId, answer, id);
      }
      forall key | key in db'.artifacts ensures ArtifactOk(db', key) {
        if key in db.artifacts {
          assert ArtifactOk(db, key);
        }
      }
    }
  }

  lemma SaveArtifactReceiptOk(db: Tables, runId: Id, answer: string, id: Id)
    requires runId in db.inputs && id in db.receipts
    ensures ReceiptOk(db, id) ==> ReceiptOk(WithArtifact(db, runId, answer), id)
  {
  }

  /** The state right after the answer is stored, still before the worker moves on. */
  lemma SaveArtifactKeeps(s: World, runId: Id, answer: string)
    requires runId in s.db.inputs && AnswerAllowed(s, runId)
    requires ArtifactKey(s.db, runId) !in s.db.artifacts
    ensures Inv(s) ==> Inv(s.(db := WithArtifact(s.db, runId, answer)))
  {
    hide TablesOk, SessionsOk, WrittenOk, WorkersOk, Exclusive, TokensDiffer, LocksOk, AttemptsOk, CarefulWrite,
         RoundsOk;
    if Inv(s) {
      var db' := WithArtifact(s.db, runId, answer);
      SaveArtifactIsCareful(s, runId, answer);
      SaveArtifactTablesOk(s.db, s.uuids, runId, answer);
      SameRounds(s, db');
      CarefulWriteKeeps(s, db');
    }
  }

  /** The five tables and the session row after the business command of a run. */
  function WithCommand(db: Tables, runId: Id): Tables
    requires runId in db.inputs
  {
    var run := db.inputs[runId];
    db.(offers := db.offers[runId := DEFAULT_AMOUNT],
        approvals := db.approvals + {runId},
        sessions := OneMoreRound(db.sessions, run.sessionId),
        receipts := db.receipts[runId := Receipt(ActionDigest(DEFAULT_AMOUNT, run.payloadHash),
                                                 ActionResult(runId, DEFAULT_AMOUNT))],
        notifications := db.notifications + {runId},
        outbox := db.outbox + {runId})
  }

  lemma CommandEvidenceOk(db: Tables, runId: Id)
    requires EvidenceOk(db) && Answers(db, runId)
    ensures EvidenceOk(WithCommand(db, runId))
  {
    var db' := WithCommand(db, runId);
    hide ArtifactOk, ReceiptOk;
    forall key | key in db'.artifacts ensures ArtifactOk(db', key) {
      ArtifactStays(db, db', key);
    }
    forall id | id in db'.receipts ensures ReceiptOk(db', id) {
      CommandReceiptOk(db, runId, id);
    }
  }

  lemma ArtifactStays(db: Tables, db': Tables, key: Digest)
    requires key in db.artifacts && db'.artifacts == db.artifacts && db'.inputs == db.inputs
    ensures ArtifactOk(db, key) ==> ArtifactOk(db', key)
  {
  }

  lemma CommandReceiptOk(db: Tables, runId: Id, id: Id)
    requires Answers(db, runId) && (id == runId || id in db.receipts)
    ensures (id in db.receipts ==> ReceiptOk(db, id)) ==> ReceiptOk(WithCommand(db, runId), id)
  {
  }

  lemma CommandIsCareful(s: World, runId: Id)
    requires runId in s.db.inputs && s.db.inputs[runId].sessionId in s.db.sessions && runId !in s.db.receipts
    ensures CarefulWrite(s, WithCommand(s.db, runId))
  {
    var db' := WithCommand(s.db, runId);
    assert forall id :: Answers(db', id) == Answers(s.db, id);
  }

  lemma CommandRounds(s: World, runId: Id)
    requires SessionsOk(s) && RunsOk(s.db, s.uuids) && IndexesOk(s.db)
    requires IsHead(s.db, runId) && runId !in s.db.receipts
    ensures forall sid :: sid in WithCommand(s.db, runId).sessions ==> RoundsOk(WithCommand(s.db, runId), sid)
  {
    var db' := WithCommand(s.db, runId);
    hide TurnsOk, ThreadOk, RoundsOk, IndexesOk, RunsOk;
    forall sid | sid in db'.sessions ensures RoundsOk(db', sid) {
      assert SessionOk(s, sid);
      if sid == s.db.inputs[runId].sessionId {
        HeadRounds(s.db, s.uuids, runId);
      } else {
        OtherRounds(s.db, runId, sid);
      }
    }
  }

  lemma HeadRounds(db: Tables, uuids: Id, runId: Id)
    requires IsHead(db, runId) && runId !in db.receipts && RoundsOk(db, db.inputs[runId].sessionId)
    ensures RunsOk(db, uuids) ==> RoundsOk(WithCommand(db, runId), db.inputs[runId].sessionId)
  {
    if RunsOk(db, uuids) {
      assert RunOk(db, uuids, runId);
    }
  }

  lemma OtherRounds(db: Tables, runId: Id, sid: Id)
    requires IsHead(db, runId) && sid in db.sessions && sid != db.inputs[runId].sessionId && RoundsOk(db, sid)
    ensures IndexesOk(db) ==> RoundsOk(WithCommand(db, runId), sid)
  {
    var head: (Id, nat) := (sid, db.sessions[sid].cursor + 1);
    if IndexesOk(db) && head in db.bySeq {
      assert db.bySeq[head] != runId;
    }
  }

  lemma CommandKeeps(s: World, runId: Id)
    requires IsHead(s.db, runId) && Answers(s.db, runId) && runId !in s.db.receipts
    ensures Inv(s) ==> Inv(s.(db := WithCommand(s.db, runId)))
  {
    hide SessionsOk, WrittenOk, WorkersOk, Exclusive, TokensDiffer, LocksOk, AttemptsOk, RoundsOk, IndexesOk,
         EvidenceOk, RunsOk, TokensBelow, Extends, NoNewOwner, NewAnswersOk;
    if Inv(s) {
      var db' := WithCommand(s.db, runId);
      CommandIsCareful(s, runId);
      CommandEvidenceOk(s.db, runId);
      CommandRounds(s, runId);
      RunsHaveTokensBelow(s.db, s.uuids);
      TablesStay(s.db, db', s.uuids);
      CarefulWriteKeeps(s, db');
    }
  }

  lemma PublishKeeps(s: World, runId: Id)
    requires runId in s.db.receipts
    ensures Inv(s) ==> Inv(s.(db := s.db.(messages := s.db.messages + {runId})))
  {
    hide SessionsOk, WrittenOk, WorkersOk, Exclusive, TokensDiffer, LocksOk, AttemptsOk, RoundsOk, IndexesOk,
         EvidenceOk, RunsOk, TokensBelow, CarefulWrite;
    if Inv(s) {
      var db' := s.db.(messages := s.db.messages + {runId});
      PublishIsCareful(s, runId);
      PublishEvidenceOk(s.db, runId);
      RunsHaveTokensBelow(s.db, s.uuids);
      SameRounds(s, db');
      TablesStay(s.db, db', s.uuids);
      CarefulWriteKeeps(s, db');
    }
  }

  lemma PublishIsCareful(s: World, runId: Id)
    ensures CarefulWrite(s, s.db.(messages := s.db.messages + {runId}))
  {
    var db' := s.db.(messages := s.db.messages + {runId});
    assert forall id :: Answers(db', id) == Answers(s.db, id);
  }

  lemma PublishEvidenceOk(db: Tables, runId: Id)
    requires runId in db.receipts
    ensures EvidenceOk(db) ==> EvidenceOk(db.(messages := db.messages + {runId}))
  {
    if EvidenceOk(db) {
      var db' := db.(messages := db.messages + {runId});
      forall key | key in db'.artifacts ensures ArtifactOk(db', key) {
        assert ArtifactOk(db, key);
      }
      forall id | id in db'.receipts ensures ReceiptOk(db', id) {
        assert ReceiptOk(db, id);
      }
    }
  }

  // ---------------------------------------------------------------- accepting and logging answers

  /** No attempt of the run was accepted before, and no other worker is about to log one. */
  ghost predicate FirstAcceptance(s: World, runId: Id) {
    && Answers(s.db, runId)
    && (forall a :: Accepted(s.db, a) ==> s.db.attempts[a].runId != runId)
    && (forall v :: Accepting(s, v) ==> s.workers[v].runId != runId)
  }

  /** The worker whose answer was stored goes on to log it. */
  lemma AcceptingKeeps(s: World, wid: Id, state: ProbeState, answer: string)
    requires wid in s.workers && s.workers[wid].pc.Answered?
    requires FirstAcceptance(s, s.workers[wid].runId)
    requires Holds(s, wid) || WorkerMatches(s, wid) ==> ViewOk(Goto(s, wid, Logging(state, answer, true)), wid)
    ensures Inv(s) ==> Inv(Goto(s, wid, Logging(state, answer, true)))
  {
    hide TablesOk, SessionsOk, WrittenOk, Exclusive, TokensDiffer, AttemptsOk, NoGain, LocksOk, ViewOk, WorkersOk,
         FirstAcceptance;
    if Inv(s) {
      var s' := Goto(s, wid, Logging(state, answer, true));
      GotoWorkersOk(s, wid, Logging(state, answer, true));
      SessionsStay(s, s');
      SelfGrows(s.db);
      WrittenStays(s, s');
      LoggingNoGain(s, wid, state, answer);
      AcceptingAttemptsOk(s, wid, state, answer);
      ExclusiveStays(s, s');
      TokensStay(s, s');
    }
  }

  lemma LoggingNoGain(s: World, wid: Id, state: ProbeState, answer: string)
    requires wid in s.workers && HasRead(s.workers[wid].pc)
    ensures NoGain(s, Goto(s, wid, Logging(state, answer, true)))
    ensures LocksOk(s) ==> LocksOk(Goto(s, wid, Logging(state, answer, true)))
  {
  }

  lemma AcceptingAttemptsOk(s: World, wid: Id, state: ProbeState, answer: string)
    requires wid in s.workers
    ensures AttemptsOk(s) && FirstAcceptance(s, s.workers[wid].runId)
            ==> AttemptsOk(Goto(s, wid, Logging(state, answer, true)))
  {
    var s' := Goto(s, wid, Logging(state, answer, true));
    assert forall v :: Accepting(s', v) && v != wid ==> Accepting(s, v) && s'.workers[v].runId == s.workers[v].runId;
  }

  /** Logging an attempt: an accepted one is logged by the only worker that accepted for the run,
      which then moves on. */
  lemma LogKeeps(s: World, wid: Id)
    requires Inv(s) && wid in s.workers && s.workers[wid].pc.Logging?
    requires var next := Done(COMMIT, WithAnswer(s.workers[wid].pc.state, s.workers[wid].pc.answer));
             s.workers[wid].pc.accepted && (Holds(s, wid) || WorkerMatches(s, wid)) ==> ViewOk(Goto(s, wid, next), wid)
    ensures var pc := s.workers[wid].pc;
            var moved := if pc.accepted then Goto(s, wid, Done(COMMIT, WithAnswer(pc.state, pc.answer))) else s;
            Inv(Logged(moved, s.workers[wid].runId, pc.accepted))
  {
    var w := s.workers[wid];
    if w.pc.accepted {
      GotoKeeps(s, wid, Done(COMMIT, WithAnswer(w.pc.state, w.pc.answer)));
      LeavesFirst(s, wid, Done(COMMIT, WithAnswer(w.pc.state, w.pc.answer)));
      hide Inv, FirstAcceptance;
      LoggedKeeps(Goto(s, wid, Done(COMMIT, WithAnswer(w.pc.state, w.pc.answer))), w.runId, true);
    } else {
      LoggedKeeps(s, w.runId, false);
    }
  }

  function Logged(s: World, runId: Id, accepted: bool): World {
    s.(db := LogAttemptTx(s.db, s.uuids, runId, accepted), uuids := s.uuids + 1)
  }

  lemma LeavesFirst(s: World, wid: Id, pc: Pc)
    requires AttemptsOk(s) && Accepting(s, wid) && !pc.Logging?
    ensures FirstAcceptance(Goto(s, wid, pc), s.workers[wid].runId)
  {
    var s' := Goto(s, wid, pc);
    assert forall v :: Accepting(s', v) ==> v != wid && Accepting(s, v) && s'.workers[v].runId == s.workers[v].runId;
  }

  lemma LoggedKeeps(s: World, runId: Id, accepted: bool)
    requires accepted ==> FirstAcceptance(s, runId)
    ensures Inv(s) ==> Inv(Logged(s, runId, accepted))
  {
    hide TablesOk, SessionsOk, WrittenOk, Exclusive, TokensDiffer, AttemptsOk, NoGain, LocksOk, WorkersOk,
         FirstAcceptance;
    if Inv(s) {
      var s' := Logged(s, runId, accepted);
      LoggedTablesOk(s, runId, accepted);
      LoggedWorkersOk(s, runId, accepted);
      LoggedAttemptsOk(s, runId, accepted);
      LoggedSessionsOk(s, runId, accepted);
      LoggedGrows(s, runId, accepted);
      WrittenStays(s, s');
      ExclusiveStays(s, s');
      TokensStay(s, s');
    }
  }

  lemma LoggedGrows(s: World, runId: Id, accepted: bool)
    ensures Grows(s.db, Logged(s, runId, accepted).db)
  {
  }

  lemma LoggedTablesOk(s: World, runId: Id, accepted: bool)
    ensures TablesOk(s.db, s.uuids) ==> TablesOk(Logged(s, runId, accepted).db, s.uuids + 1)
  {
    if TablesOk(s.db, s.uuids) {
      var db' := Logged(s, runId, accepted).db;
      hide IndexesOk, EvidenceOk;
      EvidenceStays(s.db, db');
      IndexesStay(s.db, db');
      forall id | id in db'.inputs ensures RunOk(db', s.uuids + 1, id) {
        assert RunOk(s.db, s.uuids, id);
      }
    }
  }

  lemma LoggedWorkersOk(s: World, runId: Id, accepted: bool)
    ensures WorkersOk(s) ==> WorkersOk(Logged(s, runId, accepted))
    ensures NoGain(s, Logged(s, runId, accepted))
    ensures LocksOk(s) ==> LocksOk(Logged(s, runId, accepted))
  {
    var s' := Logged(s, runId, accepted);
    if WorkersOk(s) {
      hide WorkerOk;
      LoggedGrows(s, runId, accepted);
      forall v | v in s'.workers ensures WorkerOk(s', v) {
        WorkerStays(s, s', v);
      }
    }
  }

  lemma LoggedAttemptsOk(s: World, runId: Id, accepted: bool)
    ensures TablesOk(s.db, s.uuids) && AttemptsOk(s) && (accepted ==> FirstAcceptance(s, runId)) ==>
                AttemptsOk(Logged(s, runId, accepted))
  {
    var s' := Logged(s, runId, accepted);
    assert forall v :: Accepting(s', v) == Accepting(s, v);
    assert forall id :: Answers(s'.db, id) == Answers(s.db, id);
  }

  lemma LoggedSessionsOk(s: World, runId: Id, accepted: bool)
    ensures SessionsOk(s) ==> SessionsOk(Logged(s, runId, accepted))
  {
    if SessionsOk(s) {
      var s' := Logged(s, runId, accepted);
      LoggedIsCareful(s, runId, accepted);
      hide RoundsOk, TurnsOk, ThreadOk, SameQueue, Extends, NewAnswersOk;
      forall sid | sid in s'.db.sessions ensures SessionOk(s', sid) {
        assert SessionOk(s, sid);
        TurnsStay(s, s'.db, sid);
        if sid !in s.lost {
          ThreadStays(s, s'.db, sid);
        }
        LoggedRounds(s, runId, accepted, sid);
      }
    }
  }

  lemma LoggedIsCareful(s: World, runId: Id, accepted: bool)
    ensures var db' := Logged(s, runId, accepted).db;
            SameQueue(s.db, db') && Extends(s.db, db') && NewAnswersOk(s, db')
  {
    assert forall id :: Answers(Logged(s, runId, accepted).db, id) == Answers(s.db, id);
  }

  lemma LoggedRounds(s: World, runId: Id, accepted: bool, sid: Id)
    requires sid in s.db.sessions && RoundsOk(s.db, sid)
    ensures RoundsOk(Logged(s, runId, accepted).db, sid) && Saved(Logged(s, runId, accepted), sid) == Saved(s, sid)
  {
  }
}
