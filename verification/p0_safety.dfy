/** Safety of the P0 protocol over every run of the machine: one large inductive invariant. */
module P0Safety {
  import opened Outcomes
  import opened Recovery
  import opened P0Store
  import opened P0Machine

  // ---------------------------------------------------------------- the invariant: tables

  predicate RunOk(db: Tables, uuids: Id, id: Id)
    requires id in db.inputs
  {
    var run := db.inputs[id];
    && id < uuids
    && run.sessionId in db.sessions
    && 1 <= run.inputSeq < db.sessions[run.sessionId].nextSeq
    && (run.sessionId, run.inputSeq) in db.bySeq
    && db.bySeq[(run.sessionId, run.inputSeq)] == id
    && (run.sessionId, run.requestId) in db.byRequest
    && db.byRequest[(run.sessionId, run.requestId)] == id
    && run.payloadHash == PayloadDigest(run.payload)
    && (run.token.Some? ==> run.token.value < uuids)
  }

  /** The two unique indexes point at rows that carry the indexed values. */
  ghost predicate IndexesOk(db: Tables) {
    && (forall sid, q :: (sid, q) in db.bySeq ==>
          && db.bySeq[(sid, q)] in db.inputs
          && db.inputs[db.bySeq[(sid, q)]].sessionId == sid
          && db.inputs[db.bySeq[(sid, q)]].inputSeq == q)
    && (forall sid, request :: (sid, request) in db.byRequest ==>
          && db.byRequest[(sid, request)] in db.inputs
          && db.inputs[db.byRequest[(sid, request)]].sessionId == sid
          && db.inputs[db.byRequest[(sid, request)]].requestId == request)
  }

  predicate Answers(db: Tables, id: Id) {
    id in db.inputs && ArtifactKey(db, id) in db.artifacts
  }

  predicate ArtifactOk(db: Tables, key: Digest)
    requires key in db.artifacts
  {
    var row := db.artifacts[key];
    && row.runId in db.inputs
    && key == ArtifactKey(db, row.runId)
    && row.valueHash == ValueDigest(row.value)
  }

  predicate ReceiptOk(db: Tables, id: Id)
    requires id in db.receipts
  {
    && Answers(db, id)
    && db.receipts[id] == Receipt(ActionDigest(DEFAULT_AMOUNT, db.inputs[id].payloadHash),
                                  ActionResult(id, DEFAULT_AMOUNT))
  }

  /** What the turns have written so far: artifact, then receipt, then public message. */
  ghost predicate EvidenceOk(db: Tables) {
    && TurnTablesAgree(db)
    && (forall key :: key in db.artifacts ==> ArtifactOk(db, key))
    && (forall id :: id in db.receipts ==> ReceiptOk(db, id))
    && (forall id :: id in db.messages ==> id in db.receipts)
  }

  ghost predicate RunsOk(db: Tables, uuids: Id) {
    forall id :: id in db.inputs ==> RunOk(db, uuids, id)
  }

  ghost predicate KeysOk(db: Tables, uuids: Id) {
    && (forall sid :: sid in db.sessions ==> sid in db.products)
    && (forall sid :: sid in db.products ==> sid < uuids)
    && (forall id :: id in db.attempts ==> id < uuids)
  }

  ghost predicate TablesOk(db: Tables, uuids: Id) {
    && RunsOk(db, uuids)
    && IndexesOk(db)
    && EvidenceOk(db)
    && KeysOk(db, uuids)
  }

  // ---------------------------------------------------------------- the invariant: sessions

  /** The run at the head of a session's queue, when there is one. */
  predicate IsHead(db: Tables, id: Id) {
    && id in db.inputs
    && db.inputs[id].sessionId in db.sessions
    && db.inputs[id].inputSeq == db.sessions[db.inputs[id].sessionId].cursor + 1
  }

  predicate Past(next: Node, node: Node) {
    match node
    case QUERY => next != QUERY
    case SEMANTIC => next !in {QUERY, SEMANTIC}
    case COMMIT => next !in {QUERY, SEMANTIC, COMMIT}
    case APPROVAL => next in {PUBLISH, END}
    case PUBLISH => next == END
    case END => false
  }

  /** The tables hold everything that the nodes before `next` write. */
  predicate Reached(db: Tables, id: Id, next: Node) {
    && id in db.inputs
    && db.inputs[id].sessionId in db.products
    && (Past(next, SEMANTIC) ==> Answers(db, id))
    && (Past(next, COMMIT) ==> id in db.receipts)
    && (Past(next, PUBLISH) ==> id in db.messages)
  }

  /** The only state a checkpoint of run `id` at node `next` can carry: everything in it comes
      from this run's own rows, nothing from an earlier turn. */
  function Expected(db: Tables, id: Id, next: Node, approved: bool): ProbeState
    requires Reached(db, id, next)
  {
    var run := db.inputs[id];
    ProbeState(
      IdentityOf(id, run), run.sessionId, run.payload,
      if Past(next, QUERY) then db.products[run.sessionId] else "",
      if Past(next, SEMANTIC) then Some(db.artifacts[ArtifactKey(db, id)].value) else None,
      if Past(next, COMMIT) then Some(db.receipts[id].result) else None,
      if Past(next, PUBLISH) then 1 else 0,
      if Past(next, SEMANTIC) then [db.artifacts[ArtifactKey(db, id)].value] else [],
      approved)
  }

  predicate CheckpointOk(db: Tables, c: Checkpoint) {
    var id := c.state.identity.runId;
    && Reached(db, id, c.next)
    && c.state == Expected(db, id, c.next, c.state.approved)
    && (!Past(c.next, APPROVAL) ==> !c.state.approved)
  }

  /** Rounds counted so far: one per resolved turn, plus the head's once its command committed. */
  ghost predicate RoundsOk(db: Tables, sid: Id)
    requires sid in db.sessions
  {
    var session := db.sessions[sid];
    var head := (sid, session.cursor + 1);
    && session.cursor < session.nextSeq
    && session.version == session.rounds + 1
    && session.rounds == session.cursor +
                         (if head in db.bySeq && db.bySeq[head] in db.receipts then 1 else 0)
  }

  ghost predicate TurnsOk(db: Tables, sid: Id)
    requires sid in db.sessions
  {
    var cursor := db.sessions[sid].cursor;
    && (forall q :: 1 <= q < db.sessions[sid].nextSeq ==> (sid, q) in db.bySeq)
    && (forall id :: id in db.inputs && db.inputs[id].sessionId == sid && db.inputs[id].inputSeq <= cursor
          ==> id in db.messages)
    && (forall id :: id in db.inputs && db.inputs[id].sessionId == sid && db.inputs[id].inputSeq > cursor + 1
          ==> !Answers(db, id))
  }

  /** The checkpoint of a thread belongs to the head or, finished, to the turn just before it;
      a head that left evidence owns the checkpoint. */
  ghost predicate ThreadOk(db: Tables, sid: Id, checkpoint: Option<Checkpoint>)
    requires sid in db.sessions
  {
    var cursor := db.sessions[sid].cursor;
    && (checkpoint.None? ==> cursor == 0)
    && (checkpoint.Some? ==>
          var c := checkpoint.value;
          var id := c.state.identity.runId;
          && CheckpointOk(db, c)
          && db.inputs[id].sessionId == sid
          && (IsHead(db, id) || (db.inputs[id].inputSeq == cursor && c.next == END)))
    && (forall id :: IsHead(db, id) && db.inputs[id].sessionId == sid && Answers(db, id)
          ==> checkpoint.Some? && checkpoint.value.state.identity.runId == id)
  }

  /** A checkpoint written for the head of the session, at whatever time, or for an earlier turn. */
  predicate PastOk(db: Tables, sid: Id, c: Checkpoint) {
    && CheckpointOk(db, c)
    && sid in db.sessions
    && db.inputs[c.state.identity.runId].sessionId == sid
    && db.inputs[c.state.identity.runId].inputSeq <= db.sessions[sid].cursor + 1
  }

  /** Whatever the saver loses, it shows only what was written once. */
  ghost predicate WrittenOk(s: World) {
    && (forall sid, c :: (sid, c) in s.written ==> PastOk(s.db, sid, c))
    && (forall sid :: sid in s.saved ==> (sid, s.saved[sid]) in s.written)
  }

  ghost predicate SessionOk(s: World, sid: Id)
    requires sid in s.db.sessions
  {
    && RoundsOk(s.db, sid)
    && TurnsOk(s.db, sid)
    && (sid !in s.lost ==> ThreadOk(s.db, sid, Saved(s, sid)))
  }

  // ---------------------------------------------------------------- the invariant: workers

  predicate WorkerMatches(s: World, wid: Id)
    requires wid in s.workers
  {
    s.workers[wid].owner.Some? && Matches(s.db, s.workers[wid].runId, s.workers[wid].owner.value)
  }

  /** The worker has read the checkpoint since its claim. */
  predicate HasRead(pc: Pc) {
    !pc.Locked? && !pc.Claimed?
  }

  /** What a worker knows of its run and carries with it, whatever became of the thread. */
  ghost predicate CarriesOk(s: World, wid: Id)
    requires wid in s.workers
  {
    var w := s.workers[wid];
    match w.pc
    case Locked => true
    case Claimed => true
    case Snapped(snapshot) => snapshot.Some? ==> PastOk(s.db, w.sessionId, snapshot.value)
    case Begin => !Answers(s.db, w.runId)
    case At(node, state) => node != END && Carried(s.db, w.runId, state, node)
    case Calling(state) => Carried(s.db, w.runId, state, SEMANTIC)
    case Answered(state, _) => Carried(s.db, w.runId, state, SEMANTIC)
    case Logging(state, answer, accepted) =>
      && Carried(s.db, w.runId, state, SEMANTIC)
      && (accepted ==> Answers(s.db, w.runId) && s.db.artifacts[ArtifactKey(s.db, w.runId)].value == answer)
    case Done(next, state) => next != QUERY && Carried(s.db, w.runId, state, next)
    case Invoked => true
    case Ending(last) => PastOk(s.db, w.sessionId, last)
  }

  predicate Carried(db: Tables, id: Id, state: ProbeState, next: Node) {
    state.identity.runId == id && CheckpointOk(db, Checkpoint(state, next))
  }

  /** What a worker believes about its thread is still so. */
  predicate BeliefOk(s: World, wid: Id)
    requires wid in s.workers
  {
    var w := s.workers[wid];
    var saved := Saved(s, w.sessionId);
    match w.pc
    case Locked => true
    case Claimed => true
    case Snapped(snapshot) => snapshot == saved
    case Begin => true
    case At(node, state) => saved == Some(Checkpoint(state, node))
    case Calling(state) => saved == Some(Checkpoint(state, SEMANTIC))
    case Answered(state, _) => saved == Some(Checkpoint(state, SEMANTIC))
    case Logging(state, _, _) => saved == Some(Checkpoint(state, SEMANTIC))
    case Done(_, _) => saved.Some? && saved.value.state.identity.runId == w.runId
    case Invoked => saved.Some? && saved.value.state.identity.runId == w.runId
    case Ending(last) => saved == Some(last) && last.state.identity.runId == w.runId
  }

  ghost predicate ViewOk(s: World, wid: Id)
    requires wid in s.workers
  {
    CarriesOk(s, wid) && (s.workers[wid].sessionId !in s.lost ==> BeliefOk(s, wid))
  }

  ghost predicate WorkerOk(s: World, wid: Id)
    requires wid in s.workers
  {
    var w := s.workers[wid];
    && wid < s.uuids
    && w.runId in s.db.inputs
    && s.db.inputs[w.runId].sessionId == w.sessionId
    && (w.owner.None? <==> w.pc.Locked?)
    && (w.owner.Some? ==> w.owner.value.token < s.uuids)
    && (!w.pc.Locked? && (Holds(s, wid) || WorkerMatches(s, wid)) ==> IsHead(s.db, w.runId))
    && (HasRead(w.pc) && (Holds(s, wid) || WorkerMatches(s, wid)) ==> ViewOk(s, wid))
  }

  /** While one worker holds a thread and has claimed, no other that read the checkpoint owns. */
  ghost predicate Exclusive(s: World) {
    forall x, y :: x in s.workers && y in s.workers && x != y
                   && s.workers[x].sessionId == s.workers[y].sessionId
                   && Holds(s, x) && !s.workers[x].pc.Locked? && HasRead(s.workers[y].pc)
      ==> !WorkerMatches(s, y)
  }

  ghost predicate TokensDiffer(s: World) {
    forall x, y :: x in s.workers && y in s.workers && x != y
                   && s.workers[x].owner.Some? && s.workers[y].owner.Some?
      ==> s.workers[x].owner.value.token != s.workers[y].owner.value.token
  }

  ghost predicate LocksOk(s: World) {
    forall sid :: sid in s.locks ==> s.locks[sid] in s.workers && s.workers[s.locks[sid]].sessionId == sid
  }

  /** A worker about to log that its answer was accepted. */
  predicate Accepting(s: World, wid: Id) {
    wid in s.workers && s.workers[wid].pc.Logging? && s.workers[wid].pc.accepted
  }

  predicate Accepted(db: Tables, attempt: Id) {
    attempt in db.attempts && db.attempts[attempt].accepted
  }

  /** At most one accepted attempt per run, logged or about to be logged, and only for an
      answer that is stored. */
  ghost predicate AttemptsOk(s: World) {
    && (forall a :: Accepted(s.db, a) ==> Answers(s.db, s.db.attempts[a].runId))
    && (forall a, b :: Accepted(s.db, a) && Accepted(s.db, b) && a != b
          ==> s.db.attempts[a].runId != s.db.attempts[b].runId)
    && (forall w :: Accepting(s, w) ==> Answers(s.db, s.workers[w].runId))
    && (forall w, a :: Accepting(s, w) && Accepted(s.db, a)
          ==> s.db.attempts[a].runId != s.workers[w].runId)
    && (forall w, v :: Accepting(s, w) && Accepting(s, v) && w != v
          ==> s.workers[w].runId != s.workers[v].runId)
  }

  ghost predicate SessionsOk(s: World) {
    && (forall sid :: sid in s.db.sessions ==> SessionOk(s, sid))
    && (forall sid :: sid in s.saved ==> sid in s.db.sessions)
  }

  ghost predicate WorkersOk(s: World) {
    forall wid :: wid in s.workers ==> WorkerOk(s, wid)
  }

  ghost predicate Inv(s: World) {
    && TablesOk(s.db, s.uuids)
    && SessionsOk(s)
    && WrittenOk(s)
    && WorkersOk(s)
    && Exclusive(s)
    && TokensDiffer(s)
    && LocksOk(s)
    && AttemptsOk(s)
  }

  // ---------------------------------------------------------------- frames

  predicate SameRun(a: Run, b: Run) {
    && a.sessionId == b.sessionId
    && a.inputSeq == b.inputSeq
    && a.requestId == b.requestId
    && a.payload == b.payload
    && a.payloadHash == b.payloadHash
  }

  /** Nothing that a turn has written is lost or changed. */
  ghost predicate Extends(db: Tables, db': Tables) {
    && (forall id :: id in db.inputs ==> id in db'.inputs && SameRun(db.inputs[id], db'.inputs[id]))
    && (forall key :: key in db.artifacts ==> key in db'.artifacts && db'.artifacts[key] == db.artifacts[key])
    && (forall id :: id in db.receipts ==> id in db'.receipts && db'.receipts[id] == db.receipts[id])
    && db.messages <= db'.messages
    && (forall sid :: sid in db.products ==> sid in db'.products && db'.products[sid] == db.products[sid])
  }

  /** Rows that a turn wrote stay as they are, and no cursor moves back. */
  ghost predicate Grows(db: Tables, db': Tables) {
    && Extends(db, db')
    && (forall sid :: sid in db.sessions ==>
          sid in db'.sessions && db.sessions[sid].cursor <= db'.sessions[sid].cursor)
  }

  lemma SelfGrows(db: Tables)
    ensures Grows(db, db) && Extends(db, db)
  {
  }

  lemma CheckpointStays(db: Tables, db': Tables, c: Checkpoint)
    requires Extends(db, db') && CheckpointOk(db, c)
    ensures CheckpointOk(db', c)
  {
    var id := c.state.identity.runId;
    assert SameRun(db.inputs[id], db'.inputs[id]);
    if Past(c.next, SEMANTIC) {
      assert ArtifactKey(db, id) in db.artifacts;
    }
  }

  lemma PastStays(db: Tables, db': Tables, sid: Id, c: Checkpoint)
    ensures Grows(db, db') && PastOk(db, sid, c) ==> PastOk(db', sid, c)
  {
    if Grows(db, db') && PastOk(db, sid, c) {
      CheckpointStays(db, db', c);
      assert SameRun(db.inputs[c.state.identity.runId], db'.inputs[c.state.identity.runId]);
    }
  }

  lemma WrittenStays(s: World, s': World)
    requires s'.written == s.written && s'.saved == s.saved
    ensures WrittenOk(s) && Grows(s.db, s'.db) ==> WrittenOk(s')
  {
    hide PastOk, Grows;
    if WrittenOk(s) && Grows(s.db, s'.db) {
      forall sid, c | (sid, c) in s'.written ensures PastOk(s'.db, sid, c) {
        PastStays(s.db, s'.db, sid, c);
      }
    }
  }

  lemma CarriedStays(db: Tables, db': Tables, id: Id, state: ProbeState, next: Node)
    ensures Extends(db, db') && Carried(db, id, state, next) ==> Carried(db', id, state, next)
  {
    if Extends(db, db') && Carried(db, id, state, next) {
      CheckpointStays(db, db', Checkpoint(state, next));
    }
  }

  /** What a worker carries survives any write that loses nothing, and gives no run an answer that
      a worker is about to begin. */
  lemma CarriesStays(s: World, s': World, wid: Id)
    requires wid in s.workers && wid in s'.workers && s.workers[wid] == s'.workers[wid]
    requires s.workers[wid].runId in s.db.inputs
    requires s.workers[wid].pc.Begin? && Answers(s'.db, s.workers[wid].runId) ==> Answers(s.db, s.workers[wid].runId)
    ensures Grows(s.db, s'.db) && CarriesOk(s, wid) ==> CarriesOk(s', wid)
  {
    if Grows(s.db, s'.db) && CarriesOk(s, wid) {
      var w := s.workers[wid];
      assert SameRun(s.db.inputs[w.runId], s'.db.inputs[w.runId]);
      hide CheckpointOk, Carried, PastOk;
      match w.pc
      case Snapped(snapshot) =>
        if snapshot.Some? {
          PastStays(s.db, s'.db, w.sessionId, snapshot.value);
        }
      case At(node, state) => CarriedStays(s.db, s'.db, w.runId, state, node);
      case Calling(state) => CarriedStays(s.db, s'.db, w.runId, state, SEMANTIC);
      case Answered(state, _) => CarriedStays(s.db, s'.db, w.runId, state, SEMANTIC);
      case Logging(state, _, _) => CarriedStays(s.db, s'.db, w.runId, state, SEMANTIC);
      case Done(next, state) => CarriedStays(s.db, s'.db, w.runId, state, next);
      case Ending(last) => PastStays(s.db, s'.db, w.sessionId, last);
      case _ =>
    }
  }

  /** A worker's view survives if, besides, its thread stays as it is or has lost a checkpoint. */
  lemma ViewStays(s: World, s': World, wid: Id)
    requires wid in s.workers && wid in s'.workers && s.workers[wid] == s'.workers[wid]
    requires ThreadKept(s, s', s.workers[wid].sessionId)
    requires s.workers[wid].runId in s.db.inputs
    requires s.workers[wid].pc.Begin? && Answers(s'.db, s.workers[wid].runId) ==> Answers(s.db, s.workers[wid].runId)
    ensures Grows(s.db, s'.db) && ViewOk(s, wid) ==> ViewOk(s', wid)
  {
    hide Grows, CarriesOk;
    CarriesStays(s, s', wid);
  }

  /** Two heads of one session are the same run. */
  lemma HeadIsUnique(db: Tables, uuids: Id, a: Id, b: Id)
    requires IsHead(db, a) && IsHead(db, b) && RunOk(db, uuids, a) && RunOk(db, uuids, b)
    requires db.inputs[a].sessionId == db.inputs[b].sessionId
    ensures a == b
  {
  }

  /** A worker that a step passes by keeps its part of the invariant. */
  lemma WorkerStays(s: World, s': World, v: Id)
    requires v in s.workers && v in s'.workers && s.workers[v] == s'.workers[v] && WorkerOk(s, v)
    requires s.uuids <= s'.uuids && Grows(s.db, s'.db)
    requires Holds(s', v) ==> Holds(s, v)
    requires WorkerMatches(s', v) ==> WorkerMatches(s, v)
    requires (!s.workers[v].pc.Locked? && (Holds(s', v) || WorkerMatches(s', v))) ==>
               (IsHead(s.db, s.workers[v].runId) ==> IsHead(s'.db, s.workers[v].runId))
    requires (HasRead(s.workers[v].pc) && (Holds(s', v) || WorkerMatches(s', v))) ==>
               ThreadKept(s, s', s.workers[v].sessionId)
    requires (s.workers[v].pc.Begin? && (Holds(s', v) || WorkerMatches(s', v))) ==>
               (Answers(s'.db, s.workers[v].runId) ==> Answers(s.db, s.workers[v].runId))
    ensures WorkerOk(s', v)
  {
    var w := s.workers[v];
    assert SameRun(s.db.inputs[w.runId], s'.db.inputs[w.runId]);
    hide ViewOk, Grows;
    if HasRead(w.pc) && (Holds(s', v) || WorkerMatches(s', v)) {
      ViewStays(s, s', v);
    }
  }

  /** A step leaves the checkpoint of a thread as it is, unless the thread has lost one. */
  predicate ThreadKept(s: World, s': World, sid: Id) {
    sid !in s'.lost ==> sid !in s.lost && Saved(s, sid) == Saved(s', sid)
  }

  /** A step gives no worker a lock, ownership, or (unless it holds the lock) a first read. */
  ghost predicate NoGain(s: World, s': World) {
    && (forall v :: v in s'.workers ==>
          && v in s.workers
          && s'.workers[v].runId == s.workers[v].runId
          && s'.workers[v].sessionId == s.workers[v].sessionId
          && s'.workers[v].owner == s.workers[v].owner
          && s'.workers[v].pc.Locked? == s.workers[v].pc.Locked?)
    && (forall v :: Holds(s', v) ==> Holds(s, v))
    && (forall v :: v in s'.workers && WorkerMatches(s', v) ==> WorkerMatches(s, v))
    && (forall v :: v in s'.workers && HasRead(s'.workers[v].pc) ==> HasRead(s.workers[v].pc) || Holds(s, v))
  }

  lemma ExclusiveStays(s: World, s': World)
    ensures Exclusive(s) && NoGain(s, s') ==> Exclusive(s')
  {
    if Exclusive(s) && NoGain(s, s') {
      forall x, y | x in s'.workers && y in s'.workers && x != y
                    && s'.workers[x].sessionId == s'.workers[y].sessionId
                    && Holds(s', x) && !s'.workers[x].pc.Locked? && HasRead(s'.workers[y].pc)
        ensures !WorkerMatches(s', y)
      {
        assert Holds(s, x) && !Holds(s, y);
      }
    }
  }

  lemma TokensStay(s: World, s': World)
    ensures TokensDiffer(s) && NoGain(s, s') ==> TokensDiffer(s')
  {
  }

  /** No worker newly claims to have had its answer accepted. */
  ghost predicate NoNewAccepting(s: World, s': World) {
    forall v :: Accepting(s', v) ==> Accepting(s, v) && s'.workers[v].runId == s.workers[v].runId
  }

  lemma AttemptsStay(s: World, s': World)
    ensures AttemptsOk(s) && Extends(s.db, s'.db) && s'.db.attempts == s.db.attempts && NoNewAccepting(s, s')
            ==> AttemptsOk(s')
  {
    if Extends(s.db, s'.db) {
      forall id | Answers(s.db, id) ensures Answers(s'.db, id) {
        assert SameRun(s.db.inputs[id], s'.db.inputs[id]);
      }
    }
  }

  lemma SessionsStay(s: World, s': World)
    ensures SessionsOk(s) && s'.db == s.db && s'.saved == s.saved && s'.lost == s.lost ==> SessionsOk(s')
  {
    if SessionsOk(s) && s'.db == s.db && s'.saved == s.saved && s'.lost == s.lost {
      forall sid | sid in s'.db.sessions ensures SessionOk(s', sid) {
        assert SessionOk(s, sid);
      }
    }
  }

  /** A step that touches neither tables nor checkpoints and gains no worker anything. */
  lemma QuietStepKeeps(s: World, s': World)
    requires s'.db == s.db && s'.uuids == s.uuids
    ensures SessionsOk(s') && WrittenOk(s') && WorkersOk(s') && LocksOk(s') && NoGain(s, s') && NoNewAccepting(s, s')
            ==> (Inv(s) ==> Inv(s'))
  {
    hide TablesOk, SessionsOk, WrittenOk, WorkersOk, Exclusive, TokensDiffer, LocksOk, AttemptsOk, Extends, NoGain,
         NoNewAccepting;
    if Inv(s) && NoGain(s, s') && NoNewAccepting(s, s') {
      SelfGrows(s.db);
      ExclusiveStays(s, s');
      TokensStay(s, s');
      AttemptsStay(s, s');
    }
  }

  // ---------------------------------------------------------------- steps that leave the tables alone

  lemma ExitKeeps(s: World, wid: Id)
    ensures Inv(s) ==> Inv(Exit(s, wid))
  {
    hide TablesOk, SessionsOk, WrittenOk, Exclusive, TokensDiffer, AttemptsOk, ViewOk, WorkerOk, Extends, Grows;
    if Inv(s) {
      var s' := Exit(s, wid);
      SelfGrows(s.db);
      forall v | v in s'.workers ensures WorkerOk(s', v) {
        WorkerStays(s, s', v);
      }
      SessionsStay(s, s');
      WrittenStays(s, s');
      QuietStepKeeps(s, s');
    }
  }

  lemma LoseConnectionKeeps(s: World, wid: Id)
    ensures Inv(s) ==> Inv(s.(locks := Unlock(s.locks, wid)))
  {
    hide TablesOk, SessionsOk, WrittenOk, Exclusive, TokensDiffer, AttemptsOk, ViewOk, WorkerOk, Extends, Grows;
    if Inv(s) {
      var s' := s.(locks := Unlock(s.locks, wid));
      SelfGrows(s.db);
      forall v | v in s'.workers ensures WorkerOk(s', v) {
        WorkerStays(s, s', v);
      }
      SessionsStay(s, s');
      WrittenStays(s, s');
      QuietStepKeeps(s, s');
    }
  }

  lemma GotoWorkerOk(s: World, wid: Id, pc: Pc)
    requires wid in s.workers && WorkerOk(s, wid)
    requires !s.workers[wid].pc.Locked? && !pc.Locked?
    requires HasRead(pc) && (Holds(s, wid) || WorkerMatches(s, wid)) ==> ViewOk(Goto(s, wid, pc), wid)
    ensures WorkerOk(Goto(s, wid, pc), wid)
  {
  }

  lemma GotoNoGain(s: World, wid: Id, pc: Pc)
    requires wid in s.workers && !s.workers[wid].pc.Locked? && !pc.Locked?
    requires HasRead(s.workers[wid].pc) || Holds(s, wid)
    requires !(pc.Logging? && pc.accepted)
    ensures NoGain(s, Goto(s, wid, pc)) && NoNewAccepting(s, Goto(s, wid, pc))
    ensures LocksOk(s) ==> LocksOk(Goto(s, wid, pc))
  {
  }

  lemma GotoWorkersOk(s: World, wid: Id, pc: Pc)
    requires WorkersOk(s) && wid in s.workers
    requires !s.workers[wid].pc.Locked? && !pc.Locked?
    requires Holds(s, wid) || WorkerMatches(s, wid) ==> ViewOk(Goto(s, wid, pc), wid)
    ensures WorkersOk(Goto(s, wid, pc))
  {
    var s' := Goto(s, wid, pc);
    hide ViewOk, WorkerOk, Extends, Grows;
    SelfGrows(s.db);
    GotoWorkerOk(s, wid, pc);
    forall v | v in s'.workers ensures WorkerOk(s', v) {
      if v != wid {
        WorkerStays(s, s', v);
      }
    }
  }

  /** Moving one worker on, without touching tables, checkpoints or locks. */
  lemma GotoKeeps(s: World, wid: Id, pc: Pc)
    requires wid in s.workers
    requires !s.workers[wid].pc.Locked? && !pc.Locked? && !(pc.Logging? && pc.accepted)
    requires HasRead(s.workers[wid].pc) || Holds(s, wid)
    ensures (Holds(s, wid) || WorkerMatches(s, wid) ==> ViewOk(Goto(s, wid, pc), wid))
            ==> (Inv(s) ==> Inv(Goto(s, wid, pc)))
  {
    hide TablesOk, SessionsOk, WrittenOk, WorkersOk, Exclusive, TokensDiffer, LocksOk, AttemptsOk, NoGain,
         NoNewAccepting, ViewOk, Grows;
    if Inv(s) && (Holds(s, wid) || WorkerMatches(s, wid) ==> ViewOk(Goto(s, wid, pc), wid)) {
      GotoWorkersOk(s, wid, pc);
      GotoNoGain(s, wid, pc);
      SessionsStay(s, Goto(s, wid, pc));
      SelfGrows(s.db);
      WrittenStays(s, Goto(s, wid, pc));
      QuietStepKeeps(s, Goto(s, wid, pc));
    }
  }

  /** The lock holder of a claimed head writes a checkpoint of that run. */
  lemma SaveKeeps(s: World, wid: Id, c: Checkpoint)
    requires wid in s.workers && HasRead(s.workers[wid].pc)
    requires Holds(s, wid) ==> CheckpointOk(s.db, c) && c.state.identity.runId == s.workers[wid].runId
    ensures Inv(s) ==> Inv(Save(s, wid, c))
  {
    if Inv(s) {
      if !Holds(s, wid) {
        ExitKeeps(s, wid);
      } else {
        hide TablesOk, SessionsOk, WrittenOk, WorkersOk, Exclusive, TokensDiffer, LocksOk, AttemptsOk, NoGain,
             NoNewAccepting, CheckpointOk;
        SavedWorkersOk(s, wid, c);
        SavedSessionsOk(s, wid, c);
        SavedWrittenOk(s, wid, c);
        GotoNoGain(s, wid, if c.next == END then Invoked else At(c.next, c.state));
        SavedNoGain(s, wid, c);
        QuietStepKeeps(s, Save(s, wid, c));
      }
    }
  }

  lemma SavedNoGain(s: World, wid: Id, c: Checkpoint)
    requires wid in s.workers && Holds(s, wid)
    ensures var pc := if c.next == END then Invoked else At(c.next, c.state);
            var quiet := Goto(s, wid, pc);
            && (NoGain(s, quiet) ==> NoGain(s, Save(s, wid, c)))
            && (NoNewAccepting(s, quiet) ==> NoNewAccepting(s, Save(s, wid, c)))
            && (LocksOk(quiet) ==> LocksOk(Save(s, wid, c)))
  {
    var quiet := Goto(s, wid, if c.next == END then Invoked else At(c.next, c.state));
    var s' := Save(s, wid, c);
    assert s'.workers == quiet.workers && s'.locks == quiet.locks && s'.db == quiet.db;
    assert forall v :: Holds(s', v) == Holds(quiet, v);
    assert forall v :: Accepting(s', v) == Accepting(quiet, v);
  }

  lemma SavedWorkersOk(s: World, wid: Id, c: Checkpoint)
    requires WorkersOk(s) && Exclusive(s) && wid in s.workers && HasRead(s.workers[wid].pc) && Holds(s, wid)
    requires CheckpointOk(s.db, c) && c.state.identity.runId == s.workers[wid].runId
    ensures WorkersOk(Save(s, wid, c))
  {
    var s' := Save(s, wid, c);
    SavedWorkerOk(s, wid, c);
    hide ViewOk, WorkerOk, Extends, Grows, CheckpointOk;
    SelfGrows(s.db);
    forall v | v in s'.workers ensures WorkerOk(s', v) {
      if v != wid {
        WorkerStays(s, s', v);
      }
    }
  }

  lemma SavedWorkerOk(s: World, wid: Id, c: Checkpoint)
    requires wid in s.workers && WorkerOk(s, wid) && HasRead(s.workers[wid].pc) && Holds(s, wid)
    requires CheckpointOk(s.db, c) && c.state.identity.runId == s.workers[wid].runId
    ensures WorkerOk(Save(s, wid, c), wid)
  {
  }

  lemma SavedSessionsOk(s: World, wid: Id, c: Checkpoint)
    requires RunsOk(s.db, s.uuids) && SessionsOk(s) && wid in s.workers && WorkerOk(s, wid)
    requires Holds(s, wid) && HasRead(s.workers[wid].pc)
    requires CheckpointOk(s.db, c) && c.state.identity.runId == s.workers[wid].runId
    ensures SessionsOk(Save(s, wid, c))
  {
    var s' := Save(s, wid, c);
    HeadThreadOk(s.db, s.uuids, s.workers[wid].runId, c);
    hide RoundsOk, TurnsOk, ThreadOk, ViewOk, CheckpointOk, RunsOk;
    forall other | other in s'.db.sessions ensures SessionOk(s', other) {
      assert SessionOk(s, other);
    }
  }

  lemma SavedWrittenOk(s: World, wid: Id, c: Checkpoint)
    requires WrittenOk(s) && wid in s.workers && WorkerOk(s, wid)
    requires Holds(s, wid) && HasRead(s.workers[wid].pc)
    requires CheckpointOk(s.db, c) && c.state.identity.runId == s.workers[wid].runId
    ensures WrittenOk(Save(s, wid, c))
  {
    hide CheckpointOk, ViewOk;
  }

  lemma HeadThreadOk(db: Tables, uuids: Id, head: Id, c: Checkpoint)
    requires RunsOk(db, uuids) && IsHead(db, head) && CheckpointOk(db, c) && c.state.identity.runId == head
    ensures ThreadOk(db, db.inputs[head].sessionId, Some(c))
  {
    forall id | IsHead(db, id) && db.inputs[id].sessionId == db.inputs[head].sessionId ensures id == head {
      assert RunOk(db, uuids, id) && RunOk(db, uuids, head);
    }
  }
}
