/** The P0 worker (backend/scripts/p0_worker.py) running the four-node graph of
    backend/app/p0/graph.py against the store and a checkpoint saver, as a state machine whose
    steps are single transactions, single checkpoint writes, or faults. */
module P0Machine {
  import opened Outcomes
  import opened Recovery
  import opened P0Store

  const LEASE_MS := 30000

  datatype Node = QUERY | SEMANTIC | COMMIT | APPROVAL | PUBLISH | END

  datatype ProbeState = ProbeState(
    identity: RunIdentity,
    sessionId: Id,
    query: string,
    product: string,
    modelResult: Option<string>,
    receipt: Option<ActionResult>,
    reviewCount: nat,
    intents: seq<string>,
    approved: bool)

  /** What the saver keeps for a thread: the state, and the node to run next. */
  datatype Checkpoint = Checkpoint(state: ProbeState, next: Node)

  /** How far a worker process has come. */
  datatype Pc =
    | Locked                                                // thread lock taken
    | Claimed                                               // run claimed
    | Snapped(snapshot: Option<Checkpoint>)                 // checkpoint read
    | Begin                                                 // entry START, input not yet saved
    | At(node: Node, state: ProbeState)                     // about to run a node
    | Calling(state: ProbeState)                            // external call in flight
    | Answered(state: ProbeState, answer: string)           // call returned
    | Logging(state: ProbeState, answer: string, accepted: bool)
    | Done(next: Node, state: ProbeState)                   // node returned, result not yet saved
    | Invoked                                               // the graph invocation returned
    | Ending(last: Checkpoint)                              // final checkpoint read

  datatype Worker = Worker(runId: Id, sessionId: Id, owner: Option<Owner>, pc: Pc)

  /** `locks` says which worker holds the advisory lock of a thread; a worker whose database
      connection died keeps running without it. Two fields only record history, for the faults of
      the saver and the proof: every checkpoint ever `written`, and the threads that `lost` one. */
  datatype World = World(
    db: Tables,
    uuids: Id,
    now: int,
    saved: map<Id, Checkpoint>,
    written: set<(Id, Checkpoint)>,
    lost: set<Id>,
    locks: map<Id, Id>,
    workers: map<Id, Worker>,
    approval: bool)

  datatype Step =
    | SeedSession
    | EnqueueInput(sid: Id, requestId: string, payload: string)
    | Tick(ms: nat)
    | RevokeRun(runId: Id)
    | StartWorker(runId: Id)
    | Crash(worker: Id)                                     // process dies, connection and lock with it
    | LoseConnection(worker: Id)                            // lock lost, process lives on
    | LoseCheckpoint(sid: Id)                               // the saver loses a thread altogether
    | RevertCheckpoint(sid: Id, older: Checkpoint)          // or falls back to an earlier checkpoint
    | Act(worker: Id, answer: string, resume: Option<bool>, failAt: nat)

  // ---------------------------------------------------------------- steps

  function NewTurn(id: Id, run: Run): ProbeState {
    ProbeState(IdentityOf(id, run), run.sessionId, run.payload, "", None, None, 0, [], false)
  }

  function Saved(s: World, sid: Id): Option<Checkpoint> {
    if sid in s.saved then Some(s.saved[sid]) else None
  }

  predicate Holds(s: World, wid: Id) {
    && wid in s.workers
    && s.workers[wid].sessionId in s.locks
    && s.locks[s.workers[wid].sessionId] == wid
  }

  function Unlock(locks: map<Id, Id>, wid: Id): map<Id, Id> {
    map sid | sid in locks && locks[sid] != wid :: locks[sid]
  }

  function Exit(s: World, wid: Id): World {
    s.(workers := s.workers - {wid}, locks := Unlock(s.locks, wid))
  }

  function Goto(s: World, wid: Id, pc: Pc): World
    requires wid in s.workers
  {
    s.(workers := s.workers[wid := s.workers[wid].(pc := pc)])
  }

  /** A row of artifacts, receipts or messages that names the run. */
  predicate HasEvidence(db: Tables, runId: Id) {
    || (exists key :: key in db.artifacts && db.artifacts[key].runId == runId)
    || runId in db.receipts
    || runId in db.messages
  }

  ghost function SnapshotEntry(s: World, wid: Id, snapshot: Option<Checkpoint>): Result<Entry>
    requires wid in s.workers && s.workers[wid].runId in s.db.inputs
  {
    var id := s.workers[wid].runId;
    ChooseEntry(IdentityOf(id, s.db.inputs[id]),
                if snapshot.Some? then Some(snapshot.value.state.identity) else None,
                snapshot.Some? && snapshot.value.next != END,
                HasEvidence(s.db, id),
                true)
  }

  function Claim(s: World, wid: Id): World
    requires wid in s.workers
  {
    var (db, owner) := ClaimTx(s.db, s.uuids, s.workers[wid].runId, s.now, LEASE_MS);
    if owner.None? then Exit(s, wid)
    else s.(db := db, uuids := s.uuids + 1,
            workers := s.workers[wid := s.workers[wid].(owner := owner, pc := Claimed)])
  }

  function ReadCheckpoint(s: World, wid: Id): World
    requires wid in s.workers
  {
    if !Holds(s, wid) then Exit(s, wid)
    else Goto(s, wid, Snapped(Saved(s, s.workers[wid].sessionId)))
  }

  ghost function Enter(s: World, wid: Id, snapshot: Option<Checkpoint>): World
    requires wid in s.workers
  {
    if s.workers[wid].runId !in s.db.inputs then Exit(s, wid)
    else match SnapshotEntry(s, wid, snapshot)
      case Failure(_) => Exit(s, wid)
      case Success(HISTORY) => Exit(s, wid)
      case Success(START) => Goto(s, wid, Begin)
      case Success(FINALIZE) => Goto(s, wid, Invoked)
      case Success(RESUME) =>
        if snapshot.Some? then Goto(s, wid, At(snapshot.value.next, snapshot.value.state))
        else Exit(s, wid)
  }

  /** Write a checkpoint over the connection that holds the lock, or die with that connection. */
  function Save(s: World, wid: Id, checkpoint: Checkpoint): World
    requires wid in s.workers
  {
    if !Holds(s, wid) then Exit(s, wid)
    else
      var pc := if checkpoint.next == END then Invoked else At(checkpoint.next, checkpoint.state);
      var sid := s.workers[wid].sessionId;
      Goto(s.(saved := s.saved[sid := checkpoint], written := s.written + {(sid, checkpoint)}), wid, pc)
  }

  function RunQuery(s: World, wid: Id, state: ProbeState): World
    requires wid in s.workers
  {
    var sid := s.workers[wid].sessionId;
    if !Holds(s, wid) || sid !in s.saved || s.saved[sid].state.identity.runId != state.identity.runId
       || sid !in s.db.products
    then Exit(s, wid)
    else Goto(s, wid, Done(SEMANTIC, state.(product := s.db.products[sid])))
  }

  function WithAnswer(state: ProbeState, answer: string): ProbeState {
    state.(modelResult := Some(answer), intents := [answer])
  }

  function RunSemantic(s: World, wid: Id, state: ProbeState): World
    requires wid in s.workers && s.workers[wid].owner.Some?
  {
    var w := s.workers[wid];
    match FindArtifactTx(s.db, w.runId, w.owner.value, s.now)
    case Failure(_) => Exit(s, wid)
    case Success(None) => Goto(s, wid, Calling(state))
    case Success(Some(answer)) => Goto(s, wid, Done(COMMIT, WithAnswer(state, answer)))
  }

  function AcceptAnswer(s: World, wid: Id, state: ProbeState, answer: string): World
    requires wid in s.workers && s.workers[wid].owner.Some?
  {
    var w := s.workers[wid];
    var (db, r) := SaveArtifactTx(s.db, w.runId, w.owner.value, answer, s.now);
    Goto(s.(db := db), wid, Logging(state, answer, r.Success?))
  }

  function LogAttempt(s: World, wid: Id, state: ProbeState, answer: string, accepted: bool): World
    requires wid in s.workers
  {
    var s' := s.(db := LogAttemptTx(s.db, s.uuids, s.workers[wid].runId, accepted), uuids := s.uuids + 1);
    if accepted then Goto(s', wid, Done(COMMIT, WithAnswer(state, answer))) else Exit(s', wid)
  }

  function RunCommit(s: World, wid: Id, state: ProbeState, failAt: nat): World
    requires wid in s.workers && s.workers[wid].owner.Some?
  {
    var w := s.workers[wid];
    var (db, r) := CommandTx(s.db, w.runId, w.owner.value, DEFAULT_AMOUNT, failAt, s.now);
    match r
    case Failure(_) => Exit(s, wid)
    case Success(result) =>
      Goto(s.(db := db), wid, Done(if s.approval then APPROVAL else PUBLISH, state.(receipt := Some(result))))
  }

  /** Without an answer from the seller the node interrupts and the invocation returns. */
  function RunApproval(s: World, wid: Id, state: ProbeState, resume: Option<bool>): World
    requires wid in s.workers
  {
    if resume.None? then Goto(s, wid, Invoked)
    else Goto(s, wid, Done(PUBLISH, state.(approved := resume.value)))
  }

  function RunPublish(s: World, wid: Id, state: ProbeState): World
    requires wid in s.workers && s.workers[wid].owner.Some?
  {
    var w := s.workers[wid];
    var (db, r) := PublishTx(s.db, w.runId, w.owner.value, s.now);
    if r.Failure? then Exit(s, wid)
    else Goto(s.(db := db), wid, Done(END, state.(reviewCount := 1)))
  }

  function ReadLast(s: World, wid: Id): World
    requires wid in s.workers
  {
    var sid := s.workers[wid].sessionId;
    if !Holds(s, wid) || sid !in s.saved then Exit(s, wid)
    else Goto(s, wid, Ending(s.saved[sid]))
  }

  function Close(s: World, wid: Id, last: Checkpoint): World
    requires wid in s.workers && s.workers[wid].owner.Some?
  {
    var w := s.workers[wid];
    var db := if last.next == END
              then FinalizeTx(s.db, w.runId, w.owner.value, last.state.identity.runId, false, s.now).0
              else RevokeTx(s.db, w.runId);
    Exit(s.(db := db), wid)
  }

  /** One action of a worker; where it acts as an owner, it has been one since its claim. */
  ghost function Advance(s: World, wid: Id, answer: string, resume: Option<bool>, failAt: nat): World
    requires wid in s.workers
  {
    var w := s.workers[wid];
    if w.pc.Locked? then Claim(s, wid)
    else if w.owner.None? then s
    else match w.pc
      case Locked => s
      case Claimed => ReadCheckpoint(s, wid)
      case Snapped(snapshot) => Enter(s, wid, snapshot)
      case Begin =>
        if w.runId in s.db.inputs
        then Save(s, wid, Checkpoint(NewTurn(w.runId, s.db.inputs[w.runId]), QUERY))
        else Exit(s, wid)
      case At(QUERY, state) => RunQuery(s, wid, state)
      case At(SEMANTIC, state) => RunSemantic(s, wid, state)
      case At(COMMIT, state) => RunCommit(s, wid, state, failAt)
      case At(APPROVAL, state) => RunApproval(s, wid, state, resume)
      case At(PUBLISH, state) => RunPublish(s, wid, state)
      case At(END, _) => Goto(s, wid, Invoked)
      case Calling(state) => Goto(s, wid, Answered(state, answer))
      case Answered(state, value) => AcceptAnswer(s, wid, state, value)
      case Logging(state, value, accepted) => LogAttempt(s, wid, state, value, accepted)
      case Done(next, state) => Save(s, wid, Checkpoint(state, next))
      case Invoked => ReadLast(s, wid)
      case Ending(last) => Close(s, wid, last)
  }

  function StartOn(s: World, runId: Id): World {
    if runId !in s.db.inputs || s.db.inputs[runId].sessionId in s.locks then s
    else
      var sid := s.db.inputs[runId].sessionId;
      s.(uuids := s.uuids + 1,
         locks := s.locks[sid := s.uuids],
         workers := s.workers[s.uuids := Worker(runId, sid, None, Locked)])
  }

  function Lose(s: World, sid: Id): World {
    s.(saved := s.saved - {sid}, lost := s.lost + {sid})
  }

  function Revert(s: World, sid: Id, older: Checkpoint): World {
    if (sid, older) !in s.written then s
    else s.(saved := s.saved[sid := older], lost := s.lost + {sid})
  }

  ghost function Next(s: World, step: Step): World {
    match step
    case SeedSession => s.(db := SeedTx(s.db, s.uuids), uuids := s.uuids + 1)
    case EnqueueInput(sid, requestId, payload) =>
      s.(db := EnqueueTx(s.db, s.uuids, sid, requestId, payload).0, uuids := s.uuids + 1)
    case Tick(ms) => s.(now := s.now + ms)
    case RevokeRun(runId) => s.(db := RevokeTx(s.db, runId))
    case StartWorker(runId) => StartOn(s, runId)
    case Crash(wid) => Exit(s, wid)
    case LoseConnection(wid) => s.(locks := Unlock(s.locks, wid))
    case LoseCheckpoint(sid) => Lose(s, sid)
    case RevertCheckpoint(sid, older) => Revert(s, sid, older)
    case Act(wid, answer, resume, failAt) =>
      if wid in s.workers then Advance(s, wid, answer, resume, failAt) else s
  }

  function Init(approval: bool, now: int): World {
    World(EMPTY_TABLES, 0, now, map[], {}, {}, map[], map[], approval)
  }

  ghost function Exec(s: World, steps: seq<Step>): World
    decreases |steps|
  {
    if steps == [] then s else Exec(Next(s, steps[0]), steps[1..])
  }
}
