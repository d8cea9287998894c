/** What the P0 protocol guarantees in every world that any run can reach. */
module P0Theorems {
  import opened Outcomes
  import opened Recovery
  import opened P0Store
  import opened P0Machine
  import opened P0Safety
  import opened P0Writes
  import opened P0Steps
  import opened P0Runs

  // ---------------------------------------------------------------- exactly once

  predicate Resolved(db: Tables, id: Id) {
    && id in db.inputs
    && db.inputs[id].sessionId in db.sessions
    && db.inputs[id].inputSeq <= db.sessions[db.inputs[id].sessionId].cursor
  }

  function ArtifactsOf(db: Tables, id: Id): set<Digest> {
    set key | key in db.artifacts && db.artifacts[key].runId == id
  }

  function AcceptedAttemptsOf(db: Tables, id: Id): set<Id> {
    set a | a in db.attempts && db.attempts[a].accepted && db.attempts[a].runId == id
  }

  /** The runs of a session that have a receipt. */
  function ReceiptsOf(db: Tables, sid: Id): set<Id> {
    set id | id in db.receipts && id in db.inputs && db.inputs[id].sessionId == sid
  }

  ghost predicate ExactlyOnce(db: Tables, id: Id) {
    && |ArtifactsOf(db, id)| == 1
    && id in db.receipts && id in db.offers && id in db.approvals && id in db.notifications && id in db.outbox
    && id in db.messages
    && |AcceptedAttemptsOf(db, id)| <= 1
  }

  lemma ResolvedIsExactlyOnce(s: World, id: Id)
    requires Inv(s) && Resolved(s.db, id)
    ensures ExactlyOnce(s.db, id)
  {
    hide WrittenOk, WorkersOk, Exclusive, TokensDiffer, LocksOk, IndexesOk, RunsOk, KeysOk, EvidenceOk, AttemptsOk,
         ThreadOk, RoundsOk, Answers;
    assert SessionOk(s, s.db.inputs[id].sessionId);
    MessageNeedsReceipt(s.db, id);
    ReceiptNeedsAnswer(s.db, id);
    ReceiptInAllTables(s.db, id);
    OneArtifact(s.db, id);
    OneAcceptedAttempt(s, id);
  }

  lemma ReceiptInAllTables(db: Tables, id: Id)
    ensures EvidenceOk(db) && id in db.receipts ==>
              id in db.offers && id in db.approvals && id in db.notifications && id in db.outbox
  {
  }

  lemma OneArtifact(db: Tables, id: Id)
    requires EvidenceOk(db) && Answers(db, id)
    ensures |ArtifactsOf(db, id)| == 1
  {
    forall key | key in ArtifactsOf(db, id) ensures key == ArtifactKey(db, id) {
      assert ArtifactOk(db, key);
    }
    assert ArtifactOk(db, ArtifactKey(db, id));
    assert ArtifactsOf(db, id) == {ArtifactKey(db, id)};
  }

  lemma OneAcceptedAttempt(s: World, id: Id)
    requires AttemptsOk(s)
    ensures |AcceptedAttemptsOf(s.db, id)| <= 1
  {
    var all := AcceptedAttemptsOf(s.db, id);
    if all != {} {
      var a :| a in all;
      forall b | b in all ensures b == a {
        assert Accepted(s.db, a) && Accepted(s.db, b);
      }
      assert all == {a};
    }
  }

  /** The sequence numbers with a receipt are a prefix: all up to the cursor, and perhaps the
      head's; nothing behind the head has even an accepted answer. */
  ghost predicate ReceiptsArePrefix(db: Tables, sid: Id, m: nat)
    requires sid in db.sessions
  {
    && (m == db.sessions[sid].cursor || m == db.sessions[sid].cursor + 1)
    && m < db.sessions[sid].nextSeq
    && (forall q :: 1 <= q < db.sessions[sid].nextSeq ==>
          (sid, q) in db.bySeq && (db.bySeq[(sid, q)] in db.receipts <==> q <= m))
  }

  lemma PrefixOfReceipts(s: World, sid: Id)
    requires sid in s.db.sessions && SessionOk(s, sid) && IndexesOk(s.db) && EvidenceOk(s.db) && RunsOk(s.db, s.uuids)
    ensures ReceiptsArePrefix(s.db, sid, s.db.sessions[sid].rounds)
  {
    hide ThreadOk, RunsOk, EvidenceOk, IndexesOk;
    HeadIsNumbered(s.db, s.uuids, sid);
    var head: (Id, nat) := (sid, s.db.sessions[sid].cursor + 1);
    forall q | 1 <= q < s.db.sessions[sid].nextSeq
      ensures (sid, q) in s.db.bySeq
      ensures s.db.bySeq[(sid, q)] in s.db.receipts <==> q <= s.db.sessions[sid].rounds
    {
      NumbersInOrder(s.db, sid, q);
      if q == s.db.sessions[sid].cursor + 1 {
        assert (sid, q) == head;
      }
    }
  }

  predicate NumberInOrder(db: Tables, sid: Id, q: nat)
    requires sid in db.sessions
  {
    && (sid, q) in db.bySeq
    && (q <= db.sessions[sid].cursor ==> db.bySeq[(sid, q)] in db.receipts)
    && (db.bySeq[(sid, q)] in db.receipts ==> q <= db.sessions[sid].cursor + 1)
  }

  lemma NumbersInOrder(db: Tables, sid: Id, q: nat)
    requires sid in db.sessions && TurnsOk(db, sid) && IndexesOk(db) && EvidenceOk(db)
    requires 1 <= q < db.sessions[sid].nextSeq
    ensures NumberInOrder(db, sid, q)
  {
    var id := db.bySeq[(sid, q)];
    assert id in db.inputs && db.inputs[id].sessionId == sid && db.inputs[id].inputSeq == q;
    ReceiptNeedsAnswer(db, id);
    MessageNeedsReceipt(db, id);
    hide EvidenceOk, IndexesOk, Answers;
  }

  lemma HeadIsNumbered(db: Tables, uuids: Id, sid: Id)
    requires sid in db.sessions && RunsOk(db, uuids) && IndexesOk(db)
    ensures (sid, db.sessions[sid].cursor + 1) in db.bySeq ==> db.sessions[sid].cursor + 1 < db.sessions[sid].nextSeq
  {
    var head: (Id, nat) := (sid, db.sessions[sid].cursor + 1);
    if head in db.bySeq {
      assert RunOk(db, uuids, db.bySeq[head]);
    }
  }

  lemma MessageNeedsReceipt(db: Tables, id: Id)
    ensures EvidenceOk(db) && id in db.messages ==> id in db.receipts
  {
  }

  lemma ReceiptNeedsAnswer(db: Tables, id: Id)
    ensures EvidenceOk(db) && id in db.receipts ==> Answers(db, id)
  {
    if EvidenceOk(db) && id in db.receipts {
      assert ReceiptOk(db, id);
    }
  }

  /** The runs numbered 1 to m of a session. */
  function FirstRuns(db: Tables, sid: Id, m: nat): set<Id> {
    set q | 1 <= q <= m && (sid, q) in db.bySeq :: db.bySeq[(sid, q)]
  }

  lemma {:induction false} PrefixSize(db: Tables, sid: Id, m: nat)
    requires IndexesOk(db) && forall q :: 1 <= q <= m ==> (sid, q) in db.bySeq
    ensures |FirstRuns(db, sid, m)| == m
  {
    if m > 0 {
      PrefixSize(db, sid, m - 1);
      var last := db.bySeq[(sid, m)];
      forall q | 1 <= q <= m - 1 ensures db.bySeq[(sid, q)] != last {
        assert db.inputs[db.bySeq[(sid, q)]].inputSeq == q;
      }
      assert FirstRuns(db, sid, m) == FirstRuns(db, sid, m - 1) + {last};
    }
  }

  /** A session counts one round per receipt, and one version more. */
  lemma RoundsCountReceipts(s: World, sid: Id)
    requires sid in s.db.sessions && RunsOk(s.db, s.uuids) && IndexesOk(s.db) && RoundsOk(s.db, sid)
    requires ReceiptsArePrefix(s.db, sid, s.db.sessions[sid].rounds)
    ensures s.db.sessions[sid].rounds == |ReceiptsOf(s.db, sid)|
    ensures s.db.sessions[sid].version == |ReceiptsOf(s.db, sid)| + 1
  {
    var m := s.db.sessions[sid].rounds;
    PrefixSize(s.db, sid, m);
    PrefixIsReceipts(s, sid, m);
  }

  lemma PrefixIsReceipts(s: World, sid: Id, m: nat)
    requires sid in s.db.sessions && RunsOk(s.db, s.uuids) && IndexesOk(s.db) && ReceiptsArePrefix(s.db, sid, m)
    ensures FirstRuns(s.db, sid, m) == ReceiptsOf(s.db, sid)
  {
    var prefix := FirstRuns(s.db, sid, m);
    forall id | id in ReceiptsOf(s.db, sid) ensures id in prefix {
      assert RunOk(s.db, s.uuids, id);
      assert id == s.db.bySeq[(sid, s.db.inputs[id].inputSeq)];
    }
    hide RunsOk;
    forall id | id in prefix ensures id in ReceiptsOf(s.db, sid) {
      var q :| 1 <= q <= m && (sid, q) in s.db.bySeq && s.db.bySeq[(sid, q)] == id;
    }
  }

  lemma SessionCountsUp(s: World, sid: Id)
    requires sid in s.db.sessions
    ensures Inv(s) ==>
              && ReceiptsArePrefix(s.db, sid, s.db.sessions[sid].rounds)
              && s.db.sessions[sid].rounds == |ReceiptsOf(s.db, sid)|
              && s.db.sessions[sid].version == |ReceiptsOf(s.db, sid)| + 1
  {
    hide RunsOk, IndexesOk, EvidenceOk, KeysOk, ReceiptsArePrefix, RoundsOk, TurnsOk, ThreadOk, WrittenOk,
         WorkersOk, Exclusive, TokensDiffer, LocksOk, AttemptsOk;
    if Inv(s) {
      assert SessionOk(s, sid);
      PrefixOfReceipts(s, sid);
      RoundsCountReceipts(s, sid);
    }
  }

  /** Over every interleaving of enqueues, claims, crashes at any point, lost connections,
      expiring leases, revocations and restarts, and even of checkpoints lost by the saver. */
  lemma EveryRunIsExactlyOnce(approval: bool, now: int, steps: seq<Step>)
    ensures var s := Exec(Init(approval, now), steps);
            && (forall id :: Resolved(s.db, id) ==> ExactlyOnce(s.db, id))
            && (forall sid :: sid in s.db.sessions ==>
                  && ReceiptsArePrefix(s.db, sid, s.db.sessions[sid].rounds)
                  && s.db.sessions[sid].rounds == |ReceiptsOf(s.db, sid)|
                  && s.db.sessions[sid].version == |ReceiptsOf(s.db, sid)| + 1)
  {
    Reachable(approval, now, steps);
    var s := Exec(Init(approval, now), steps);
    hide Inv, ExactlyOnce, ReceiptsArePrefix, Exec, Init;
    forall id | Resolved(s.db, id) ensures ExactlyOnce(s.db, id) {
      ResolvedIsExactlyOnce(s, id);
    }
    forall sid | sid in s.db.sessions
      ensures && ReceiptsArePrefix(s.db, sid, s.db.sessions[sid].rounds)
              && s.db.sessions[sid].rounds == |ReceiptsOf(s.db, sid)|
              && s.db.sessions[sid].version == |ReceiptsOf(s.db, sid)| + 1
    {
      SessionCountsUp(s, sid);
    }
  }

  // ---------------------------------------------------------------- recovery

  lemma EvidenceNeedsAnswer(db: Tables, id: Id)
    ensures EvidenceOk(db) && HasEvidence(db, id) ==> Answers(db, id)
  {
    if EvidenceOk(db) && HasEvidence(db, id) {
      if id in db.receipts || id in db.messages {
        assert ReceiptOk(db, id);
      } else {
        var key :| key in db.artifacts && db.artifacts[key].runId == id;
        assert ArtifactOk(db, key);
      }
    }
  }

  /** The entry a freshly claimed run gets: START if the thread shows no checkpoint of it, and
      then it left no evidence; otherwise it goes on from that checkpoint. */
  ghost predicate GoesOn(s: World, wid: Id, snapshot: Option<Checkpoint>)
    requires wid in s.workers
  {
    var id := s.workers[wid].runId;
    && id in s.db.inputs
    && SnapshotEntry(s, wid, snapshot) ==
       (if snapshot.None? || snapshot.value.state.identity.runId != id then Success(START)
        else if snapshot.value.next == END then Success(FINALIZE)
        else Success(RESUME))
    && (SnapshotEntry(s, wid, snapshot) == Success(START) ==> !HasEvidence(s.db, id))
  }

  lemma HeadGoesOn(s: World, wid: Id, snapshot: Option<Checkpoint>)
    requires wid in s.workers && IsHead(s.db, s.workers[wid].runId)
    requires s.db.inputs[s.workers[wid].runId].sessionId == s.workers[wid].sessionId
    ensures ThreadOk(s.db, s.workers[wid].sessionId, snapshot) && EvidenceOk(s.db) && RunsOk(s.db, s.uuids)
            ==> GoesOn(s, wid, snapshot)
  {
    hide HasEvidence, EvidenceOk;
    if RunsOk(s.db, s.uuids) {
      assert RunOk(s.db, s.uuids, s.workers[wid].runId);
      if snapshot.Some? && snapshot.value.state.identity.runId in s.db.inputs {
        assert RunOk(s.db, s.uuids, snapshot.value.state.identity.runId);
      }
    }
    EvidenceNeedsAnswer(s.db, s.workers[wid].runId);
  }

  lemma SnapshotGoesOn(s: World, wid: Id, snapshot: Option<Checkpoint>)
    requires wid in s.workers && s.workers[wid].pc == Snapped(snapshot) && Holds(s, wid)
    requires s.workers[wid].sessionId !in s.lost
    ensures Inv(s) ==> GoesOn(s, wid, snapshot)
  {
    hide RunsOk, IndexesOk, EvidenceOk, KeysOk, RoundsOk, TurnsOk, ThreadOk, WrittenOk, WorkersOk, Exclusive,
         TokensDiffer, LocksOk, AttemptsOk, GoesOn;
    if Inv(s) {
      WorkerIsOk(s, wid);
      assert SessionOk(s, s.workers[wid].sessionId);
      HeadGoesOn(s, wid, snapshot);
    }
  }

  /** A worker that read the checkpoint of its claimed run under the thread lock can always go
      on, if the saver never lost a checkpoint of that thread: the decision never raises, is never
      HISTORY, and starts over only what left nothing. */
  lemma RecoveryNeverStalls(approval: bool, now: int, steps: seq<Step>, wid: Id, snapshot: Option<Checkpoint>)
    ensures var s := Exec(Init(approval, now), steps);
            wid in s.workers && s.workers[wid].pc == Snapped(snapshot) && Holds(s, wid) ==>
              s.workers[wid].sessionId !in s.lost ==> GoesOn(s, wid, snapshot)
  {
    Reachable(approval, now, steps);
    var s := Exec(Init(approval, now), steps);
    hide Exec, Init, Inv, GoesOn;
    if wid in s.workers && s.workers[wid].pc == Snapped(snapshot) && Holds(s, wid)
       && s.workers[wid].sessionId !in s.lost
    {
      SnapshotGoesOn(s, wid, snapshot);
    }
  }

  /** Every checkpoint that is ever written for a thread holds only what its own run wrote: none
      of an earlier turn's answer, receipt, review count, intents or approval survives into it. The
      one that a thread shows is of the head, or of the resolved turn before it and finished, unless
      the saver lost one: then it may be any that was written. */
  lemma CheckpointIsOfOneTurn(approval: bool, now: int, steps: seq<Step>, sid: Id, c: Checkpoint)
    ensures var s := Exec(Init(approval, now), steps);
            (sid, c) in s.written ==>
              var id := c.state.identity.runId;
              && id in s.db.inputs
              && s.db.inputs[id].sessionId == sid
              && (IsHead(s.db, id) || Resolved(s.db, id))
              && Reached(s.db, id, c.next)
              && c.state == Expected(s.db, id, c.next, c.state.approved)
              && (sid !in s.lost && Saved(s, sid) == Some(c) ==> IsHead(s.db, id) || c.next == END)
    ensures var s := Exec(Init(approval, now), steps);
            sid in s.saved ==> (sid, s.saved[sid]) in s.written
  {
    Reachable(approval, now, steps);
    var s := Exec(Init(approval, now), steps);
    InvParts(s);
    hide Exec, Init, Inv, Expected, TablesOk, SessionsOk, WorkersOk, LocksOk;
    if (sid, c) in s.written {
      assert PastOk(s.db, sid, c);
      if sid in s.saved && sid !in s.lost {
        SavedIsOk(s, sid);
      }
    }
  }

  lemma SavedIsOk(s: World, sid: Id)
    requires Inv(s) && sid in s.saved && sid !in s.lost
    ensures sid in s.db.sessions && ThreadOk(s.db, sid, Some(s.saved[sid]))
  {
    hide TablesOk, WrittenOk, WorkersOk, Exclusive, TokensDiffer, LocksOk, AttemptsOk, RoundsOk, TurnsOk, ThreadOk;
    assert SessionOk(s, sid);
  }

  // ---------------------------------------------------------------- fencing

  /** The one transaction of each action of a worker. */
  function TablesAfter(s: World, wid: Id, failAt: nat): Tables
    requires wid in s.workers
  {
    var w := s.workers[wid];
    if w.pc.Locked? then ClaimTx(s.db, s.uuids, w.runId, s.now, LEASE_MS).0
    else if w.owner.None? then s.db
    else match w.pc
      case At(COMMIT, _) => CommandTx(s.db, w.runId, w.owner.value, DEFAULT_AMOUNT, failAt, s.now).0
      case At(PUBLISH, _) => PublishTx(s.db, w.runId, w.owner.value, s.now).0
      case Answered(_, answer) => SaveArtifactTx(s.db, w.runId, w.owner.value, answer, s.now).0
      case Logging(_, _, accepted) => LogAttemptTx(s.db, s.uuids, w.runId, accepted)
      case Ending(last) =>
        if last.next == END
        then FinalizeTx(s.db, w.runId, w.owner.value, last.state.identity.runId, false, s.now).0
        else RevokeTx(s.db, w.runId)
      case _ => s.db
  }

  predicate SameTables(s: World, s': World) {
    s'.db == s.db && s'.uuids == s.uuids
  }

  lemma QuietNodes(s: World, wid: Id, state: ProbeState, resume: Option<bool>)
    requires wid in s.workers
    ensures SameTables(s, RunQuery(s, wid, state))
    ensures SameTables(s, RunApproval(s, wid, state, resume))
    ensures s.workers[wid].owner.Some? ==> SameTables(s, RunSemantic(s, wid, state))
  {
    hide FindArtifactTx, Holds;
  }

  lemma WritingNodes(s: World, wid: Id, state: ProbeState, failAt: nat)
    requires wid in s.workers && s.workers[wid].owner.Some?
    ensures var w := s.workers[wid];
            && RunCommit(s, wid, state, failAt).db ==
               CommandTx(s.db, w.runId, w.owner.value, DEFAULT_AMOUNT, failAt, s.now).0
            && RunPublish(s, wid, state).db == PublishTx(s.db, w.runId, w.owner.value, s.now).0
            && RunCommit(s, wid, state, failAt).uuids == s.uuids
            && RunPublish(s, wid, state).uuids == s.uuids
  {
    hide CommandWrites, CommandCollides, Owns;
  }

  lemma NodeTables(s: World, wid: Id, answer: string, resume: Option<bool>, failAt: nat)
    requires wid in s.workers && s.workers[wid].owner.Some? && s.workers[wid].pc.At?
    ensures Advance(s, wid, answer, resume, failAt).db == TablesAfter(s, wid, failAt)
    ensures Advance(s, wid, answer, resume, failAt).uuids == s.uuids
  {
    var w := s.workers[wid];
    hide PublishTx, CommandTx, RunQuery, RunSemantic, RunCommit, RunApproval, RunPublish;
    QuietNodes(s, wid, w.pc.state, resume);
    WritingNodes(s, wid, w.pc.state, failAt);
  }

  lemma EnterTables(s: World, wid: Id, snapshot: Option<Checkpoint>)
    requires wid in s.workers
    ensures SameTables(s, ReadCheckpoint(s, wid)) && SameTables(s, Enter(s, wid, snapshot)) &&
            SameTables(s, ReadLast(s, wid))
  {
    hide SnapshotEntry, Holds;
  }

  lemma WriterTables(s: World, wid: Id, answer: string, resume: Option<bool>, failAt: nat)
    requires wid in s.workers && s.workers[wid].owner.Some?
    requires s.workers[wid].pc.Answered? || s.workers[wid].pc.Logging? || s.workers[wid].pc.Ending?
    ensures Advance(s, wid, answer, resume, failAt).db == TablesAfter(s, wid, failAt)
    ensures Advance(s, wid, answer, resume, failAt).uuids >= s.uuids
  {
    hide LogAttemptTx, FinalizeTx, RevokeTx, SaveArtifactTx;
  }

  lemma QuietTables(s: World, wid: Id, answer: string, resume: Option<bool>, failAt: nat)
    requires wid in s.workers && s.workers[wid].owner.Some?
    requires var pc := s.workers[wid].pc; !pc.Locked? && !pc.At? && !pc.Answered? && !pc.Logging? && !pc.Ending?
    ensures SameTables(s, Advance(s, wid, answer, resume, failAt))
  {
    hide ReadCheckpoint, Enter, ReadLast, Save, Holds;
    match s.workers[wid].pc
    case Snapped(snapshot) => EnterTables(s, wid, snapshot);
    case Done(next, state) => SaveTables(s, wid, Checkpoint(state, next));
    case Begin =>
      if s.workers[wid].runId in s.db.inputs {
        SaveTables(s, wid, Checkpoint(NewTurn(s.workers[wid].runId, s.db.inputs[s.workers[wid].runId]), QUERY));
      }
    case _ => EnterTables(s, wid, None);
  }

  lemma SaveTables(s: World, wid: Id, c: Checkpoint)
    requires wid in s.workers
    ensures SameTables(s, Save(s, wid, c))
  {
    hide Holds;
  }

  lemma ClaimTables(s: World, wid: Id, failAt: nat)
    requires wid in s.workers && s.workers[wid].pc.Locked?
    ensures Claim(s, wid).db == TablesAfter(s, wid, failAt) && Claim(s, wid).uuids >= s.uuids
  {
  }

  lemma ActTables(s: World, wid: Id, answer: string, resume: Option<bool>, failAt: nat)
    requires wid in s.workers
    ensures Advance(s, wid, answer, resume, failAt).db == TablesAfter(s, wid, failAt)
    ensures Advance(s, wid, answer, resume, failAt).uuids >= s.uuids
  {
    var w := s.workers[wid];
    if w.pc.Locked? {
      ClaimTables(s, wid, failAt);
      hide TablesAfter, Claim;
    } else if w.owner.Some? {
      if w.pc.At? {
        hide TablesAfter, Advance;
        NodeTables(s, wid, answer, resume, failAt);
      } else if w.pc.Answered? || w.pc.Logging? || w.pc.Ending? {
        hide TablesAfter, Advance;
        WriterTables(s, wid, answer, resume, failAt);
      } else {
        hide Advance;
        QuietTables(s, wid, answer, resume, failAt);
      }
    }
  }

  /** A write leaves token, epoch and lease of a run as they are, or takes the token away, or gives
      the run a new one. */
  predicate LeaseMoves(db: Tables, db': Tables, runId: Id, uuids: Id) {
    runId in db.inputs ==>
      && runId in db'.inputs
      && var run, run' := db.inputs[runId], db'.inputs[runId];
         || (run'.token == run.token && run'.epoch == run.epoch && run'.leaseUntil == run.leaseUntil)
         || run'.token.None?
         || run'.token == Some(uuids)
  }

  lemma CommandTouchesNoOwner(db: Tables, runId: Id, owner: Owner, failAt: nat, now: int)
    ensures CommandTx(db, runId, owner, DEFAULT_AMOUNT, failAt, now).0.inputs == db.inputs
  {
    if runId in db.inputs {
      CommandWritesAll(db, runId, db.inputs[runId], DEFAULT_AMOUNT);
    }
  }

  lemma WritesMoveNoLease(s: World, wid: Id, other: Owner)
    requires wid in s.workers
    ensures PublishTx(s.db, s.workers[wid].runId, other, s.now).0.inputs == s.db.inputs
    ensures forall answer :: SaveArtifactTx(s.db, s.workers[wid].runId, other, answer, s.now).0.inputs == s.db.inputs
  {
  }

  lemma ClaimMovesLease(s: World, claimed: Id, runId: Id)
    ensures LeaseMoves(s.db, ClaimTx(s.db, s.uuids, claimed, s.now, LEASE_MS).0, runId, s.uuids)
  {
  }

  lemma RevokeMovesLease(s: World, revoked: Id, runId: Id)
    ensures LeaseMoves(s.db, RevokeTx(s.db, revoked), runId, s.uuids)
  {
  }

  lemma EndMovesLease(s: World, ended: Id, other: Owner, endRun: Id, runId: Id)
    ensures LeaseMoves(s.db, FinalizeTx(s.db, ended, other, endRun, false, s.now).0, runId, s.uuids)
  {
  }

  lemma ActMovesLease(s: World, wid: Id, failAt: nat, runId: Id)
    requires wid in s.workers
    ensures LeaseMoves(s.db, TablesAfter(s, wid, failAt), runId, s.uuids)
  {
    hide CommandTx, PublishTx, SaveArtifactTx, FinalizeTx, RevokeTx, ClaimTx;
    var w := s.workers[wid];
    ClaimMovesLease(s, w.runId, runId);
    if w.owner.Some? {
      CommandTouchesNoOwner(s.db, w.runId, w.owner.value, failAt, s.now);
      RevokeMovesLease(s, w.runId, runId);
      EndMovesLease(s, w.runId, w.owner.value, if w.pc.Ending? then w.pc.last.state.identity.runId else 0, runId);
      WritesMoveNoLease(s, wid, w.owner.value);
    }
  }

  lemma StepMovesLease(s: World, step: Step, runId: Id)
    requires FreshId(s.db, s.uuids)
    ensures LeaseMoves(s.db, Next(s, step).db, runId, s.uuids)
    ensures s.uuids <= Next(s, step).uuids && s.now <= Next(s, step).now
  {
    hide Advance, RevokeTx, TablesAfter;
    match step
    case Act(wid, answer, resume, failAt) =>
      if wid in s.workers {
        ActTables(s, wid, answer, resume, failAt);
        ActMovesLease(s, wid, failAt, runId);
        ActKeepsNow(s, wid, answer, resume, failAt);
      }
    case RevokeRun(revoked) => RevokeMovesLease(s, revoked, runId);
    case _ =>
  }

  lemma ActKeepsNow(s: World, wid: Id, answer: string, resume: Option<bool>, failAt: nat)
    requires wid in s.workers
    ensures Advance(s, wid, answer, resume, failAt).now == s.now
  {
    hide RunQuery, RunSemantic, RunCommit, RunApproval, RunPublish, Claim, ReadCheckpoint, Enter, Save, AcceptAnswer,
         LogAttempt, ReadLast, Close;
    NodesKeepNow(s, wid, resume, failAt);
    OthersKeepNow(s, wid);
  }

  lemma NodesKeepNow(s: World, wid: Id, resume: Option<bool>, failAt: nat)
    requires wid in s.workers
    ensures forall state :: RunQuery(s, wid, state).now == s.now && RunApproval(s, wid, state, resume).now == s.now
    ensures s.workers[wid].owner.Some? ==>
              forall state :: RunSemantic(s, wid, state).now == s.now && RunCommit(s, wid, state, failAt).now == s.now
                              && RunPublish(s, wid, state).now == s.now
  {
    hide Holds, FindArtifactTx, CommandTx, PublishTx;
  }

  lemma OthersKeepNow(s: World, wid: Id)
    requires wid in s.workers
    ensures Claim(s, wid).now == s.now && ReadCheckpoint(s, wid).now == s.now && ReadLast(s, wid).now == s.now
    ensures forall snapshot :: Enter(s, wid, snapshot).now == s.now
    ensures forall c :: Save(s, wid, c).now == s.now
    ensures forall state, answer, accepted :: LogAttempt(s, wid, state, answer, accepted).now == s.now
    ensures s.workers[wid].owner.Some? ==>
              && (forall state, answer :: AcceptAnswer(s, wid, state, answer).now == s.now)
              && (forall last :: Close(s, wid, last).now == s.now)
  {
    hide Holds, SnapshotEntry, ClaimTx, SaveArtifactTx, LogAttemptTx, FinalizeTx, RevokeTx;
  }

  /** The owner got its token some time ago and does not own the run now: released, revoked, resolved,
      reclaimed, or its lease merely ran out. */
  predicate StaleOwnership(s: World, runId: Id, owner: Owner) {
    && runId in s.db.inputs
    && owner.token < s.uuids
    && !Owns(s.db, runId, owner, s.now)
  }

  /** Ownership that was lost once is lost for good: no transaction brings it back. */
  lemma StaleStays(s: World, step: Step, runId: Id, owner: Owner)
    requires StaleOwnership(s, runId, owner) && FreshId(s.db, s.uuids)
    ensures StaleOwnership(Next(s, step), runId, owner)
    ensures !Matches(s.db, runId, owner) ==> !Matches(Next(s, step).db, runId, owner)
  {
    hide Next;
    StepMovesLease(s, step, runId);
  }

  lemma TablesGiveFreshId(s: World)
    ensures Inv(s) ==> FreshId(s.db, s.uuids) && KeysOk(s.db, s.uuids)
  {
    hide SessionsOk, WrittenOk, WorkersOk, Exclusive, TokensDiffer, LocksOk, AttemptsOk, IndexesOk, EvidenceOk,
         RunsOk, FreshId, KeysOk;
    NewIdIsFresh(s.db, s.uuids);
  }

  lemma {:induction false} StaleForever(s: World, steps: seq<Step>, runId: Id, owner: Owner)
    requires Inv(s) && StaleOwnership(s, runId, owner)
    ensures StaleOwnership(Exec(s, steps), runId, owner)
    ensures !Matches(s.db, runId, owner) ==> !Matches(Exec(s, steps).db, runId, owner)
    decreases |steps|
  {
    hide Inv, Next, FreshId, StaleOwnership, Matches;
    if steps != [] {
      NextKeeps(s, steps[0]);
      TablesGiveFreshId(s);
      StaleStays(s, steps[0], runId, owner);
      StaleForever(Next(s, steps[0]), steps[1..], runId, owner);
    }
  }

  /** The prefix of any run after which an owner does not own its run decides: no later transaction
      of that owner passes the ownership check. */
  lemma FencedOwnersStayFenced(approval: bool, now: int, before: seq<Step>, after: seq<Step>, runId: Id, owner: Owner)
    requires StaleOwnership(Exec(Init(approval, now), before), runId, owner)
    ensures var s := Exec(Exec(Init(approval, now), before), after);
            && (forall at :: s.now <= at ==> !Owns(s.db, runId, owner, at))
            && (!Matches(Exec(Init(approval, now), before).db, runId, owner) ==> !Matches(s.db, runId, owner))
  {
    hide Exec, Init, Inv, Matches;
    Reachable(approval, now, before);
    StaleForever(Exec(Init(approval, now), before), after, runId, owner);
    LateIsStale(Exec(Exec(Init(approval, now), before), after), runId, owner);
  }

  lemma LateIsStale(s: World, runId: Id, owner: Owner)
    ensures StaleOwnership(s, runId, owner) ==> forall at :: s.now <= at ==> !Owns(s.db, runId, owner, at)
  {
  }

  // ---------------------------------------------------------------- nothing is lost

  lemma GrowsTransitively(a: Tables, b: Tables, c: Tables)
    requires Grows(a, b) && Grows(b, c)
    ensures Grows(a, c)
  {
    forall id | id in a.inputs ensures id in c.inputs && SameRun(a.inputs[id], c.inputs[id]) {
      assert SameRun(a.inputs[id], b.inputs[id]);
    }
  }

  lemma CommandGrows(db: Tables, runId: Id, owner: Owner, failAt: nat, now: int)
    ensures Grows(db, CommandTx(db, runId, owner, DEFAULT_AMOUNT, failAt, now).0)
  {
    if CommandTx(db, runId, owner, DEFAULT_AMOUNT, failAt, now).0 != db {
      CommandWritesAll(db, runId, db.inputs[runId], DEFAULT_AMOUNT);
      CommandedGrows(db, runId);
    } else {
      SelfGrows(db);
    }
    hide CommandWrites, Grows, OneMoreRound;
  }

  lemma CommandedGrows(db: Tables, runId: Id)
    requires runId in db.inputs && runId !in db.receipts
    ensures Grows(db, WithCommand(db, runId))
  {
  }

  lemma ActGrows(s: World, wid: Id, failAt: nat)
    requires wid in s.workers
    ensures Grows(s.db, TablesAfter(s, wid, failAt))
  {
    hide CommandTx, PublishTx, SaveArtifactTx, FinalizeTx, RevokeTx, ClaimTx, LogAttemptTx, Extends;
    var w := s.workers[wid];
    ClaimGrows(s, w.runId);
    if w.owner.Some? {
      CommandGrows(s.db, w.runId, w.owner.value, failAt, s.now);
      RevokeGrows(s, w.runId);
      match w.pc
      case Answered(_, answer) => AnswerGrows(s, w.runId, w.owner.value, answer);
      case Logging(_, _, accepted) => LogGrows(s, w.runId, accepted);
      case Ending(last) => FinalizeGrows(s, w.runId, w.owner.value, last.state.identity.runId);
      case _ =>
        SelfGrows(s.db);
        PublishGrows(s, w.runId, w.owner.value);
    } else {
      SelfGrows(s.db);
    }
  }

  lemma ClaimGrows(s: World, runId: Id)
    ensures Grows(s.db, ClaimTx(s.db, s.uuids, runId, s.now, LEASE_MS).0)
  {
  }

  lemma RevokeGrows(s: World, runId: Id)
    ensures Grows(s.db, RevokeTx(s.db, runId))
  {
    RevokeIsCareful(s, runId);
    hide SameQueue, Extends, Grows, RevokeTx;
    QueueGrows(s.db, RevokeTx(s.db, runId));
  }

  lemma AnswerGrows(s: World, runId: Id, owner: Owner, answer: string)
    ensures Grows(s.db, SaveArtifactTx(s.db, runId, owner, answer, s.now).0)
  {
    SelfGrows(s.db);
    if SaveArtifactTx(s.db, runId, owner, answer, s.now).1.Success? {
      assert Grows(s.db, WithArtifact(s.db, runId, answer));
    }
  }

  lemma LogGrows(s: World, runId: Id, accepted: bool)
    ensures Grows(s.db, LogAttemptTx(s.db, s.uuids, runId, accepted))
  {
  }

  lemma FinalizeGrows(s: World, runId: Id, owner: Owner, endRun: Id)
    ensures Grows(s.db, FinalizeTx(s.db, runId, owner, endRun, false, s.now).0)
  {
    FinalizeAdvances(s.db, runId, owner, endRun, s.now);
    hide FinalizeTx, Grows, Advanced;
    SelfGrows(s.db);
    if IsHead(s.db, runId) {
      AdvancedIndex(s.db, runId);
    }
  }

  lemma FinalizeAdvances(db: Tables, runId: Id, owner: Owner, endRun: Id, now: int)
    ensures var db' := FinalizeTx(db, runId, owner, endRun, false, now).0;
            db' == db || (IsHead(db, runId) && db' == Advanced(db, runId))
  {
  }

  lemma PublishGrows(s: World, runId: Id, owner: Owner)
    ensures Grows(s.db, PublishTx(s.db, runId, owner, s.now).0)
  {
    hide Owns;
    SelfGrows(s.db);
    if PublishTx(s.db, runId, owner, s.now).1.Success? {
      assert PublishTx(s.db, runId, owner, s.now).0 == s.db.(messages := s.db.messages + {runId});
    }
  }

  lemma EnqueueGrows(s: World, sid: Id, requestId: string, payload: string)
    requires s.uuids !in s.db.inputs
    ensures Grows(s.db, EnqueueTx(s.db, s.uuids, sid, requestId, payload).0)
  {
    if sid in s.db.sessions && (sid, requestId) !in s.db.byRequest {
      assert Grows(s.db, Queued(s.db, s.uuids, sid, requestId, payload));
    } else {
      SelfGrows(s.db);
    }
  }

  lemma SeedGrows(s: World)
    requires KeysOk(s.db, s.uuids)
    ensures Grows(s.db, SeedTx(s.db, s.uuids))
  {
    assert s.uuids !in s.db.products;
  }

  lemma NextGrows(s: World, step: Step)
    requires FreshId(s.db, s.uuids) && KeysOk(s.db, s.uuids)
    ensures Grows(s.db, Next(s, step).db)
  {
    hide Advance, Grows, EnqueueTx, SeedTx, RevokeTx, TablesAfter;
    SelfGrows(s.db);
    match step
    case Act(wid, answer, resume, failAt) =>
      if wid in s.workers {
        ActTables(s, wid, answer, resume, failAt);
        ActGrows(s, wid, failAt);
      }
    case SeedSession => SeedGrows(s);
    case EnqueueInput(sid, requestId, payload) => EnqueueGrows(s, sid, requestId, payload);
    case RevokeRun(runId) => RevokeGrows(s, runId);
    case _ =>
  }

  lemma {:induction false} NothingIsLost(s: World, steps: seq<Step>)
    requires Inv(s)
    ensures Grows(s.db, Exec(s, steps).db)
    decreases |steps|
  {
    hide Inv, Next, FreshId, KeysOk;
    if steps != [] {
      var s' := Next(s, steps[0]);
      TablesGiveFreshId(s);
      NextKeeps(s, steps[0]);
      NextGrows(s, steps[0]);
      NothingIsLost(s', steps[1..]);
      GrowsTransitively(s.db, s'.db, Exec(s', steps[1..]).db);
    }
  }
}
