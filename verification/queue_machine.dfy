/** The production queue as a state machine: any process may run any transaction at any time. */
module QueueMachine {
  import opened Outcomes
  import opened Recovery
  import opened Activity
  import opened QueueRows

  /** `cleanups` counts, for the proof, the claims of a run that were only for cleaning up. */
  datatype World = World(rows: Rows, uuids: Id, now: int, cleanups: map<Id, nat>)

  datatype Step =
    | OpenSession(buyer: Id, version: Option<GraphVersion>)
    | Archive(sid: Id)
    | Enqueue(sid: Id, buyer: Id, input: Input)
    | Claim(runId: Id)
    | Release(runId: Id, owner: Owner, recoveryRequired: bool)
    | Heartbeat(runId: Id, owner: Owner)
    | Finalize(runId: Id, owner: Owner, end: EndState)
    | Register(runId: Id)
    | Attach(runId: Id, instance: Id, owner: Owner)
    | RevokeInstance(instance: Id, force: bool)
    | ReleaseInstance(instance: Id)
    | Supervise(runId: Id, instance: Id)
    | Recover(runId: Id, action: ManualAction)
    | Deliver(runId: Id, owner: Owner)
    | Publish(runId: Id)
    | Tick(ms: nat)

  function Cleanups(s: World, runId: Id): nat {
    if runId in s.cleanups then s.cleanups[runId] else 0
  }

  function Granted(r: Result<Option<Owner>>): bool {
    r.Success? && r.value.Some?
  }

  function ClaimStep(s: World, runId: Id): World {
    var (rows, r) := ClaimTx(s.rows, s.uuids, runId, s.now);
    World(rows, s.uuids + 1, s.now,
          if Granted(r) && CleanupOnly(s.rows, runId) then s.cleanups[runId := Cleanups(s, runId) + 1] else s.cleanups)
  }

  function OpenTx(rows: Rows, sid: Id, buyer: Id, version: Option<GraphVersion>): Rows {
    rows.(sessions := rows.sessions[sid := Session(buyer, version, false, 1, 0)])
  }

  function ArchiveTx(rows: Rows, sid: Id): Rows {
    if sid !in rows.sessions then rows
    else rows.(sessions := rows.sessions[sid := rows.sessions[sid].(archived := true)])
  }

  function Next(s: World, step: Step): World {
    match step
    case OpenSession(buyer, version) => s.(rows := OpenTx(s.rows, s.uuids, buyer, version), uuids := s.uuids + 1)
    case Archive(sid) => s.(rows := ArchiveTx(s.rows, sid))
    case Enqueue(sid, buyer, input) =>
      s.(rows := EnqueueTx(s.rows, s.uuids, sid, buyer, input).0, uuids := s.uuids + 1)
    case Claim(runId) => ClaimStep(s, runId)
    case Release(runId, owner, recovery) => s.(rows := ReleaseTx(s.rows, runId, owner, recovery, s.now).0)
    case Heartbeat(runId, owner) => s.(rows := HeartbeatTx(s.rows, runId, owner, s.now).0)
    case Finalize(runId, owner, end) => s.(rows := FinalizeTx(s.rows, runId, owner, end, s.now).0)
    case Register(runId) => s.(rows := RegisterTx(s.rows, s.uuids, runId, s.now), uuids := s.uuids + 1)
    case Attach(runId, instance, owner) => s.(rows := AttachTx(s.rows, runId, instance, owner, s.now).0)
    case RevokeInstance(instance, force) => s.(rows := RevokeInstanceTx(s.rows, instance, force, s.now).0)
    case ReleaseInstance(instance) => s.(rows := ReleaseInstanceTx(s.rows, instance))
    case Supervise(runId, instance) => s.(rows := SuperviseTx(s.rows, runId, instance, s.now))
    case Recover(runId, action) => s.(rows := RecoverTx(s.rows, runId, action, s.now).0)
    case Deliver(runId, owner) => s.(rows := DeliverTx(s.rows, runId, owner, s.now))
    case Publish(runId) => s.(rows := PublishTx(s.rows, runId, s.uuids), uuids := s.uuids + 1)
    case Tick(ms) => s.(now := s.now + ms)
  }

  function Init(now: int): World {
    World(NO_ROWS, 0, now, map[])
  }

  function Exec(s: World, steps: seq<Step>): World
    decreases |steps|
  {
    if steps == [] then s else Exec(Next(s, steps[0]), steps[1..])
  }
}
