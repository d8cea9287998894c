/** The transactional store of backend/app/p0/store.py: its tables, and each transaction both
    as a function on the tables and as a method of the store that runs it. */
module P0Store {
  import opened Outcomes
  import opened Recovery

  datatype Session = Session(cursor: nat, nextSeq: nat, rounds: nat, version: nat)

  datatype RunStatus = PENDING | RUNNING | RETRY_WAIT | COMPLETED

  datatype Run = Run(
    sessionId: Id,
    inputSeq: nat,
    requestId: string,
    payload: string,
    payloadHash: Digest,
    status: RunStatus,
    token: Option<Id>,
    epoch: nat,
    leaseUntil: int)

  datatype Owner = Owner(token: Id, epoch: nat)

  datatype ActionResult = ActionResult(source: Id, amount: int)

  datatype Receipt = Receipt(payloadHash: Digest, result: ActionResult)

  datatype Artifact = Artifact(runId: Id, inputHash: Digest, configHash: string, value: string,
                               valueHash: Digest)

  datatype Attempt = Attempt(runId: Id, accepted: bool)

  /** One map per table, keyed by primary key. `byRequest` and `bySeq` are the two unique
      indexes of the inputs table. */
  datatype Tables = Tables(
    sessions: map<Id, Session>,
    products: map<Id, string>,
    inputs: map<Id, Run>,
    byRequest: map<(Id, string), Id>,
    bySeq: map<(Id, nat), Id>,
    offers: map<Id, int>,
    approvals: set<Id>,
    receipts: map<Id, Receipt>,
    notifications: set<Id>,
    outbox: set<Id>,
    artifacts: map<Digest, Artifact>,
    attempts: map<Id, Attempt>,
    messages: set<Id>)

  const EMPTY_TABLES := Tables(map[], map[], map[], map[], map[], map[], {}, map[], {}, {}, map[], map[], {})

  const CONFIG_HASH := "p0-config-v1"
  const GRAPH_VERSION := "p0-graph-v1"
  const DEFAULT_AMOUNT := 80000  // cents
  const FLOOR := 75000
  const AUTO_THRESHOLD := 85000
  const WRITES := 6              // statements of one business command

  function IdentityOf(id: Id, run: Run): RunIdentity {
    RunIdentity(id, run.inputSeq, run.payloadHash, CONFIG_HASH, GRAPH_VERSION)
  }

  // ---------------------------------------------------------------- transactions as functions

  function SeedTx(db: Tables, sid: Id): Tables {
    db.(sessions := db.sessions[sid := Session(0, 1, 0, 1)],
        products := db.products[sid := "P0 synthetic phone"])
  }

  /** `newId` is the uuid the run gets when it is new. */
  function EnqueueTx(db: Tables, newId: Id, sid: Id, requestId: string, payload: string)
    : (Tables, Result<Id>)
  {
    if sid !in db.sessions then
      (db, Failure(NotFound))
    else if (sid, requestId) in db.byRequest then
      var prior := db.byRequest[(sid, requestId)];
      if prior !in db.inputs then (db, Failure(NotFound))
      else if db.inputs[prior].payloadHash != PayloadDigest(payload) then (db, Failure(Conflict))
      else (db, Success(prior))
    else
      var session := db.sessions[sid];
      var run := Run(sid, session.nextSeq, requestId, payload, PayloadDigest(payload), PENDING, None, 0, 0);
      (db.(inputs := db.inputs[newId := run],
           byRequest := db.byRequest[(sid, requestId) := newId],
           bySeq := db.bySeq[(sid, session.nextSeq) := newId],
           sessions := db.sessions[sid := session.(nextSeq := session.nextSeq + 1)]),
       Success(newId))
  }

  predicate Claimable(db: Tables, runId: Id, now: int) {
    && runId in db.inputs
    && db.inputs[runId].sessionId in db.sessions
    && db.sessions[db.inputs[runId].sessionId].cursor + 1 == db.inputs[runId].inputSeq
    && db.inputs[runId].leaseUntil <= now
  }

  function ClaimTx(db: Tables, newId: Id, runId: Id, now: int, lease: int): (Tables, Option<Owner>) {
    if !Claimable(db, runId, now) then
      (db, None)
    else
      var run := db.inputs[runId];
      (db.(inputs := db.inputs[runId := run.(token := Some(newId), epoch := run.epoch + 1,
                                            leaseUntil := now + lease, status := RUNNING)]),
       Some(Owner(newId, run.epoch + 1)))
  }

  predicate Matches(db: Tables, runId: Id, owner: Owner) {
    && runId in db.inputs
    && db.inputs[runId].token == Some(owner.token)
    && db.inputs[runId].epoch == owner.epoch
  }

  predicate Owns(db: Tables, runId: Id, owner: Owner, now: int) {
    Matches(db, runId, owner) && db.inputs[runId].leaseUntil > now
  }

  function RevokeTx(db: Tables, runId: Id): Tables {
    if runId !in db.inputs then db
    else
      var run := db.inputs[runId];
      db.(inputs := db.inputs[runId := run.(token := None, epoch := run.epoch + 1,
                                           leaseUntil := 0, status := RETRY_WAIT)])
  }

  /** Statement number `k` (1..6) of the business command of a run. */
  function CommandWrite(db: Tables, runId: Id, run: Run, amount: int, k: nat): Tables
    requires 1 <= k <= WRITES
  {
    match k
    case 1 => db.(offers := db.offers[runId := amount])
    case 2 => db.(approvals := db.approvals + {runId})
    case 3 => db.(sessions := OneMoreRound(db.sessions, run.sessionId))
    case 4 => db.(receipts := db.receipts[runId :=
                                Receipt(ActionDigest(amount, run.payloadHash), ActionResult(runId, amount))])
    case 5 => db.(notifications := db.notifications + {runId})
    case _ => db.(outbox := db.outbox + {runId})
  }

  function OneMoreRound(sessions: map<Id, Session>, sid: Id): map<Id, Session> {
    if sid !in sessions then sessions
    else
      var session := sessions[sid];
      sessions[sid := session.(rounds := session.rounds + 1, version := session.version + 1)]
  }

  function CommandWrites(db: Tables, runId: Id, run: Run, amount: int, count: nat): Tables
    requires count <= WRITES
  {
    if count == 0 then db
    else CommandWrite(CommandWrites(db, runId, run, amount, count - 1), runId, run, amount, count)
  }

  /** A primary key that one of the inserts of the command would duplicate. */
  predicate CommandCollides(db: Tables, runId: Id) {
    runId in db.offers || runId in db.approvals || runId in db.notifications || runId in db.outbox
  }

  /** `failAt` injects a failure after that statement; 0 injects none. */
  function CommandTx(db: Tables, runId: Id, owner: Owner, amount: int, failAt: nat, now: int)
    : (Tables, Result<ActionResult>)
  {
    if runId !in db.inputs then
      (db, Failure(NotFound))
    else if !Owns(db, runId, owner, now) then
      (db, Failure(StaleOwner))
    else if runId in db.receipts then
      if db.receipts[runId].payloadHash != ActionDigest(amount, db.inputs[runId].payloadHash)
      then (db, Failure(Conflict))
      else (db, Success(db.receipts[runId].result))
    else if db.inputs[runId].sessionId !in db.sessions then
      (db, Failure(NotFound))
    else if !(FLOOR <= amount < AUTO_THRESHOLD) then
      (db, Failure(Conflict))
    else if CommandCollides(db, runId) then
      (db, Failure(IntegrityError))
    else if 1 <= failAt <= WRITES then
      (db, Failure(InjectedFailure))
    else
      (CommandWrites(db, runId, db.inputs[runId], amount, WRITES), Success(ActionResult(runId, amount)))
  }

  function ArtifactKey(db: Tables, runId: Id): Digest
    requires runId in db.inputs
  {
    ArtifactDigest(runId, db.inputs[runId].payloadHash, CONFIG_HASH)
  }

  /** First transaction of `model_artifact`: a stored answer, or none yet. */
  function FindArtifactTx(db: Tables, runId: Id, owner: Owner, now: int): Result<Option<string>> {
    if runId !in db.inputs then Failure(NotFound)
    else if !Owns(db, runId, owner, now) then Failure(StaleOwner)
    else if ArtifactKey(db, runId) !in db.artifacts then Success(None)
    else
      var row := db.artifacts[ArtifactKey(db, runId)];
      if ValueDigest(row.value) != row.valueHash then Failure(Conflict) else Success(Some(row.value))
  }

  /** Second transaction of `model_artifact`: accept the answer of the external call. */
  function SaveArtifactTx(db: Tables, runId: Id, owner: Owner, value: string, now: int)
    : (Tables, Result<()>)
  {
    if runId !in db.inputs then (db, Failure(NotFound))
    else if !Owns(db, runId, owner, now) then (db, Failure(StaleOwner))
    else if ArtifactKey(db, runId) in db.artifacts then (db, Failure(IntegrityError))
    else
      var row := Artifact(runId, db.inputs[runId].payloadHash, CONFIG_HASH, value, ValueDigest(value));
      (db.(artifacts := db.artifacts[ArtifactKey(db, runId) := row]), Success(()))
  }

  /** The `finally` transaction of `model_artifact`: an audit row for every attempt. */
  function LogAttemptTx(db: Tables, newId: Id, runId: Id, accepted: bool): Tables {
    db.(attempts := db.attempts[newId := Attempt(runId, accepted)])
  }

  function PublishTx(db: Tables, runId: Id, owner: Owner, now: int): (Tables, Result<()>) {
    if runId !in db.inputs then (db, Failure(NotFound))
    else if !Owns(db, runId, owner, now) then (db, Failure(StaleOwner))
    else (db.(messages := db.messages + {runId}), Success(()))
  }

  /** `endRun` is the run id in the end checkpoint; `pending` says it still names a node. */
  function FinalizeTx(db: Tables, runId: Id, owner: Owner, endRun: Id, pending: bool, now: int)
    : (Tables, Result<()>)
  {
    if endRun != runId || pending then (db, Failure(Conflict))
    else if runId !in db.inputs then (db, Failure(NotFound))
    else if !Owns(db, runId, owner, now) then (db, Failure(StaleOwner))
    else if runId !in db.messages then (db, Failure(Conflict))
    else
      var run := db.inputs[runId];
      if run.sessionId !in db.sessions then (db, Failure(NotFound))
      else
        var session := db.sessions[run.sessionId];
        if session.cursor == run.inputSeq then (db, Success(()))
        else if session.cursor + 1 != run.inputSeq then (db, Failure(Conflict))
        else (db.(sessions := db.sessions[run.sessionId := session.(cursor := run.inputSeq)],
                  inputs := db.inputs[runId := run.(status := COMPLETED)]),
              Success(()))
  }

  // ---------------------------------------------------------------- command properties

  predicate TurnTablesAgree(db: Tables) {
    && db.offers.Keys == db.receipts.Keys
    && db.approvals == db.receipts.Keys
    && db.notifications == db.receipts.Keys
    && db.outbox == db.receipts.Keys
  }

  /** All six writes of a fresh command, seen at once. */
  lemma CommandWritesAll(db: Tables, runId: Id, run: Run, amount: int)
    ensures CommandWrites(db, runId, run, amount, WRITES) ==
            db.(offers := db.offers[runId := amount],
                approvals := db.approvals + {runId},
                sessions := OneMoreRound(db.sessions, run.sessionId),
                receipts := db.receipts[runId :=
                              Receipt(ActionDigest(amount, run.payloadHash), ActionResult(runId, amount))],
                notifications := db.notifications + {runId},
                outbox := db.outbox + {runId})
  {
    var w1 := CommandWrite(db, runId, run, amount, 1);
    var w2 := CommandWrite(w1, runId, run, amount, 2);
    var w3 := CommandWrite(w2, runId, run, amount, 3);
    var w4 := CommandWrite(w3, runId, run, amount, 4);
    assert CommandWrites(db, runId, run, amount, 1) == w1;
    assert CommandWrites(db, runId, run, amount, 2) == w2;
    assert CommandWrites(db, runId, run, amount, 3) == w3;
    assert CommandWrites(db, runId, run, amount, 4) == w4;
    assert CommandWrites(db, runId, run, amount, 5) == CommandWrite(w4, runId, run, amount, 5);
  }

  /** Whatever statement fails, the five turn tables keep naming the same runs; either nothing
      changed or every table gained exactly this run and the session counted one more round. */
  lemma CommandIsAllOrNothing(db: Tables, runId: Id, owner: Owner, amount: int, failAt: nat, now: int)
    requires TurnTablesAgree(db)
    ensures var (after, result) := CommandTx(db, runId, owner, amount, failAt, now);
            && TurnTablesAgree(after)
            && (result.Failure? || runId in db.receipts ==> after == db)
            && (result.Success? && runId !in db.receipts ==>
                  && failAt !in {1, 2, 3, 4, 5, 6}
                  && after.receipts.Keys == db.receipts.Keys + {runId}
                  && db.inputs[runId].sessionId in db.sessions
                  && after.sessions == OneMoreRound(db.sessions, db.inputs[runId].sessionId))
  {
    if runId in db.inputs && db.inputs[runId].sessionId in db.sessions {
      CommandWritesAll(db, runId, db.inputs[runId], amount);
    }
  }

  /** Replaying a committed command changes nothing and answers with the stored result; another
      amount is refused. */
  lemma CommandReplays(db: Tables, runId: Id, owner: Owner, amount: int, failAt: nat, now: int,
                       owner': Owner, amount': int, failAt': nat, now': int)
    requires CommandTx(db, runId, owner, amount, failAt, now).1.Success?
    requires runId in db.receipts ==>
               db.receipts[runId].payloadHash == ActionDigest(db.receipts[runId].result.amount,
                                                              db.inputs[runId].payloadHash)
    ensures var (after, first) := CommandTx(db, runId, owner, amount, failAt, now);
            Owns(after, runId, owner', now') ==>
              CommandTx(after, runId, owner', amount', failAt', now') ==
              (after, if amount' == amount then first else Failure(Conflict))
  {
    if runId !in db.receipts {
      CommandWritesAll(db, runId, db.inputs[runId], amount);
    }
  }

  // ---------------------------------------------------------------- the store

  class Store {
    var tables: Tables
    var uuids: Id  // every uuid issued so far is below this one

    constructor ()
      ensures tables == EMPTY_TABLES && uuids == 0
    {
      tables := EMPTY_TABLES;
      uuids := 0;
    }

    method Uuid() returns (id: Id)
      modifies this`uuids
      ensures id == old(uuids) && uuids == old(uuids) + 1
    {
      id := uuids;
      uuids := uuids + 1;
    }

    method Seed() returns (sid: Id)
      modifies this
      ensures sid == old(uuids) && uuids == old(uuids) + 1
      ensures tables == SeedTx(old(tables), sid)
    {
      sid := Uuid();
      tables := tables.(sessions := tables.sessions[sid := Session(0, 1, 0, 1)]);
      tables := tables.(products := tables.products[sid := "P0 synthetic phone"]);
    }

    method Enqueue(sid: Id, requestId: string, payload: string) returns (r: Result<Id>)
      modifies this
      ensures (tables, r) == EnqueueTx(old(tables), old(uuids), sid, requestId, payload)
      ensures uuids == old(uuids) + if tables == old(tables) then 0 else 1
    {
      var db := tables;
      if sid !in db.sessions {
        return Failure(NotFound);
      }
      if (sid, requestId) in db.byRequest {
        var prior := db.byRequest[(sid, requestId)];
        if prior !in db.inputs {
          return Failure(NotFound);
        }
        if db.inputs[prior].payloadHash != PayloadDigest(payload) {
          return Failure(Conflict);
        }
        return Success(prior);
      }
      var session := db.sessions[sid];
      var id := Uuid();
      var run := Run(sid, session.nextSeq, requestId, payload, PayloadDigest(payload), PENDING, None, 0, 0);
      db := db.(inputs := db.inputs[id := run],
                byRequest := db.byRequest[(sid, requestId) := id],
                bySeq := db.bySeq[(sid, session.nextSeq) := id]);
      db := db.(sessions := db.sessions[sid := session.(nextSeq := session.nextSeq + 1)]);
      assert db.sessions[sid] != tables.sessions[sid];
      tables := db;
      r := Success(id);
    }

    method Claim(runId: Id, now: int, lease: int) returns (owner: Option<Owner>)
      modifies this
      ensures (tables, owner) == ClaimTx(old(tables), old(uuids), runId, now, lease)
      ensures uuids == old(uuids) + if owner.Some? then 1 else 0
    {
      var db := tables;
      if runId !in db.inputs || db.inputs[runId].sessionId !in db.sessions {
        return None;
      }
      var run := db.inputs[runId];
      var session := db.sessions[run.sessionId];
      if session.cursor + 1 != run.inputSeq || run.leaseUntil > now {
        return None;
      }
      var token := Uuid();
      var epoch := run.epoch + 1;
      run := run.(token := Some(token), epoch := epoch, leaseUntil := now + lease, status := RUNNING);
      tables := db.(inputs := db.inputs[runId := run]);
      owner := Some(Owner(token, epoch));
    }

    method Revoke(runId: Id)
      modifies this`tables
      ensures tables == RevokeTx(old(tables), runId)
    {
      if runId in tables.inputs {
        var run := tables.inputs[runId];
        run := run.(token := None, epoch := run.epoch + 1, leaseUntil := 0, status := RETRY_WAIT);
        tables := tables.(inputs := tables.inputs[runId := run]);
      }
    }

    /** The writes go to a transaction-local copy, which a failure throws away. */
    method Command(runId: Id, owner: Owner, amount: int, failAt: nat, now: int)
      returns (r: Result<ActionResult>)
      modifies this`tables
      ensures (tables, r) == CommandTx(old(tables), runId, owner, amount, failAt, now)
    {
      var db := tables;
      if runId !in db.inputs {
        return Failure(NotFound);
      }
      var run := db.inputs[runId];
      if run.token != Some(owner.token) || run.epoch != owner.epoch || run.leaseUntil <= now {
        return Failure(StaleOwner);
      }
      var payloadHash := ActionDigest(amount, run.payloadHash);
      if runId in db.receipts {
        if db.receipts[runId].payloadHash != payloadHash {
          return Failure(Conflict);
        }
        return Success(db.receipts[runId].result);
      }
      if run.sessionId !in db.sessions {
        return Failure(NotFound);
      }
      if !(FLOOR <= amount < AUTO_THRESHOLD) {
        return Failure(Conflict);
      }
      if CommandCollides(db, runId) {
        return Failure(IntegrityError);
      }
      for index := 1 to WRITES + 1
        invariant db == CommandWrites(old(tables), runId, run, amount, index - 1)
        invariant 1 <= failAt <= WRITES ==> index <= failAt
        invariant tables == old(tables)
      {
        db := CommandWrite(db, runId, run, amount, index);
        if failAt == index {
          return Failure(InjectedFailure);
        }
      }
      tables := db;
      r := Success(ActionResult(runId, amount));
    }

    method FindArtifact(runId: Id, owner: Owner, now: int) returns (r: Result<Option<string>>)
      ensures r == FindArtifactTx(tables, runId, owner, now)
    {
      if runId !in tables.inputs {
        return Failure(NotFound);
      }
      if !Owns(tables, runId, owner, now) {
        return Failure(StaleOwner);
      }
      var key := ArtifactKey(tables, runId);
      if key !in tables.artifacts {
        return Success(None);
      }
      var row := tables.artifacts[key];
      if ValueDigest(row.value) != row.valueHash {
        return Failure(Conflict);
      }
      r := Success(Some(row.value));
    }

    /** Accept the answer if the owner is still current; log the attempt either way. */
    method AcceptAnswer(runId: Id, owner: Owner, value: string, now: int) returns (r: Result<()>)
      modifies this
      ensures r == SaveArtifactTx(old(tables), runId, owner, value, now).1
      ensures tables == LogAttemptTx(SaveArtifactTx(old(tables), runId, owner, value, now).0,
                                     old(uuids), runId, r.Success?)
      ensures uuids == old(uuids) + 1
    {
      var accepted := false;
      if runId !in tables.inputs {
        r := Failure(NotFound);
      } else if !Owns(tables, runId, owner, now) {
        r := Failure(StaleOwner);
      } else if ArtifactKey(tables, runId) in tables.artifacts {
        r := Failure(IntegrityError);
      } else {
        var row := Artifact(runId, tables.inputs[runId].payloadHash, CONFIG_HASH, value, ValueDigest(value));
        tables := tables.(artifacts := tables.artifacts[ArtifactKey(tables, runId) := row]);
        accepted := true;
        r := Success(());
      }
      var id := Uuid();
      tables := tables.(attempts := tables.attempts[id := Attempt(runId, accepted)]);
    }

    method Publish(runId: Id, owner: Owner, now: int) returns (r: Result<()>)
      modifies this`tables
      ensures (tables, r) == PublishTx(old(tables), runId, owner, now)
    {
      if runId !in tables.inputs {
        return Failure(NotFound);
      }
      if !Owns(tables, runId, owner, now) {
        return Failure(StaleOwner);
      }
      if runId !in tables.messages {
        tables := tables.(messages := tables.messages + {runId});
      } else {
        assert tables.messages + {runId} == tables.messages;
      }
      r := Success(());
    }

    method Finalize(runId: Id, owner: Owner, endRun: Id, pending: bool, now: int) returns (r: Result<()>)
      modifies this`tables
      ensures (tables, r) == FinalizeTx(old(tables), runId, owner, endRun, pending, now)
    {
      if endRun != runId || pending {
        return Failure(Conflict);
      }
      var db := tables;
      if runId !in db.inputs {
        return Failure(NotFound);
      }
      if !Owns(db, runId, owner, now) {
        return Failure(StaleOwner);
      }
      var run := db.inputs[runId];
      if runId !in db.messages {
        return Failure(Conflict);
      }
      if run.sessionId !in db.sessions {
        return Failure(NotFound);
      }
      var session := db.sessions[run.sessionId];
      if session.cursor == run.inputSeq {
        return Success(());
      }
      if session.cursor + 1 != run.inputSeq {
        return Failure(Conflict);
      }
      db := db.(sessions := db.sessions[run.sessionId := session.(cursor := run.inputSeq)]);
      db := db.(inputs := db.inputs[runId := run.(status := COMPLETED)]);
      tables := db;
      r := Success(());
    }
  }
}
