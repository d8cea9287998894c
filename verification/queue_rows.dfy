/** The rows behind the production input queue, and each of its transactions as a function on
    them: backend/app/runtime/input_queue.py, operations.py, supervisor.py, and the recovery of
    backend/app/services/graph_recovery_service.py. */
module QueueRows {
  import opened Outcomes
  import opened Recovery
  import opened Activity

  datatype GraphVersion = NEGOTIATION | SEMANTIC | QUALITY

  datatype Session = Session(
    buyer: Id,
    version: Option<GraphVersion>,
    archived: bool,
    nextSeq: nat,
    lastResolved: nat)

  datatype Config = Config(schema: string, maxCalls: int, maxTokens: int, activeMs: int)

  /** An input row. Only `recoveryRequired` and `meter` ever change. */
  datatype Run = Run(
    sessionId: Id,
    inputSeq: nat,
    requestId: string,
    inputHash: Digest,
    config: Config,
    version: GraphVersion,
    recoveryRequired: bool,
    meter: Meter)

  datatype TaskStatus = PENDING | RUNNING | RETRY_WAIT | SUCCEEDED | FAILED | STALE | CANCELLED

  datatype ManualAction = RETRY | TERMINATE

  datatype Owner = Owner(token: Id, epoch: nat)

  /** The execution task of a run. */
  datatype Task = Task(
    status: TaskStatus,
    token: Option<Id>,
    leaseUntil: Option<int>,
    epoch: nat,
    attempts: nat,
    maxAttempts: nat,
    nextRetry: Option<int>,
    lastAction: Option<ManualAction>)

  datatype Delivery = Delivery(published: bool, replyDeadline: int, messageId: Option<Id>)

  datatype InstanceState = REGISTERED | REVOKED | RELEASED

  datatype Instance = Instance(runId: Id, token: Option<Id>, epoch: nat, registeredAt: int, state: InstanceState)

  /** `tasks` and `deliveries` are keyed by the run they belong to; `byRequest` and `bySeq` are the
      two unique constraints of the inputs table. */
  datatype Rows = Rows(
    sessions: map<Id, Session>,
    runs: map<Id, Run>,
    tasks: map<Id, Task>,
    byRequest: map<(Id, string), Id>,
    bySeq: map<(Id, nat), Id>,
    deliveries: map<Id, Delivery>,
    instances: map<Id, Instance>)

  const NO_ROWS := Rows(map[], map[], map[], map[], map[], map[], map[])

  const MAX_REQUEST_ID := 64
  const MAX_UNRESOLVED := 20
  const DEFAULT_MAX_ATTEMPTS := 3
  const RETRY_MS := 1000
  const REGISTRATION_MS := 30000
  const INSTANCE_MS := 150000
  const REPLY_MS := 45000

  // ---------------------------------------------------------------- check constraints

  /** The two check constraints of the task table. */
  predicate TaskLegal(task: Task) {
    && (task.status == RUNNING ==> task.token.Some? && task.leaseUntil.Some?)
    && (task.status != RUNNING ==> task.token.None? && task.leaseUntil.None?)
    && (task.status == RETRY_WAIT <==> task.nextRetry.Some?)
  }

  /** Commit one run and its task, unless the database refuses the task row. */
  function Commit<R>(rows: Rows, runId: Id, run: Run, task: Task, result: R): (Rows, Result<R>) {
    if TaskLegal(task)
    then (rows.(runs := rows.runs[runId := run], tasks := rows.tasks[runId := task]), Success(result))
    else (rows, Failure(IntegrityError))
  }

  function Released(task: Task): Task {
    task.(token := None, leaseUntil := None)
  }

  // ---------------------------------------------------------------- enqueue

  function ExpectedSchema(version: Option<GraphVersion>, semantic: bool): string {
    if version == Some(QUALITY) then "p4-v1" else if semantic then "p2-v1" else "p1-v1"
  }

  predicate ConfigOk(config: Config, version: Option<GraphVersion>, semantic: bool) {
    && config.schema == ExpectedSchema(version, semantic)
    && config.maxCalls >= 0
    && config.maxTokens >= 0
    && 0 < config.activeMs <= MAX_ACTIVE_MS
  }

  predicate VersionOk(version: Option<GraphVersion>, semantic: bool) {
    if semantic then version in {Some(SEMANTIC), Some(QUALITY)} else version == Some(NEGOTIATION)
  }

  /** A buyer input; `referencesOk` stands for the display receipt and semantic reference checks. */
  datatype Input = Input(requestId: string, payload: string, semantic: bool, config: Config, referencesOk: bool)

  predicate Accepts(rows: Rows, sid: Id, buyer: Id, input: Input) {
    && 0 < |input.requestId| <= MAX_REQUEST_ID
    && sid in rows.sessions
    && rows.sessions[sid].buyer == buyer
    && !rows.sessions[sid].archived
    && VersionOk(rows.sessions[sid].version, input.semantic)
  }

  function EnqueueTx(rows: Rows, newId: Id, sid: Id, buyer: Id, input: Input): (Rows, Result<Id>) {
    if !Accepts(rows, sid, buyer, input) then (rows, Failure(Conflict))
    else if (sid, input.requestId) in rows.byRequest then
      var prior := rows.byRequest[(sid, input.requestId)];
      if prior in rows.runs && rows.runs[prior].inputHash == PayloadDigest(input.payload)
      then (rows, Success(prior))
      else (rows, Failure(Conflict))
    else
      var session := rows.sessions[sid];
      if session.nextSeq - session.lastResolved > MAX_UNRESOLVED then (rows, Failure(Conflict))
      else if !input.referencesOk || !ConfigOk(input.config, session.version, input.semantic) then
        (rows, Failure(Conflict))
      else (Joined(rows, newId, sid, input, session.version.value), Success(newId))
  }

  function Joined(rows: Rows, newId: Id, sid: Id, input: Input, version: GraphVersion): Rows
    requires sid in rows.sessions
  {
    var session := rows.sessions[sid];
    var run := Run(sid, session.nextSeq, input.requestId, PayloadDigest(input.payload), input.config,
                   version, false, NEW_METER);
    rows.(
      runs := rows.runs[newId := run],
      tasks := rows.tasks[newId := Task(PENDING, None, None, 0, 0, DEFAULT_MAX_ATTEMPTS, None, None)],
      byRequest := rows.byRequest[(sid, input.requestId) := newId],
      bySeq := rows.bySeq[(sid, session.nextSeq) := newId],
      sessions := rows.sessions[sid := session.(nextSeq := session.nextSeq + 1)])
  }

  // ---------------------------------------------------------------- ownership

  predicate Matches(task: Task, owner: Owner) {
    task.status == RUNNING && task.token == Some(owner.token) && task.epoch == owner.epoch
  }

  /** `lock_owner`: who may still act for the run. */
  predicate Owns(rows: Rows, runId: Id, owner: Owner, now: int) {
    && runId in rows.runs
    && runId in rows.tasks
    && Matches(rows.tasks[runId], owner)
    && rows.tasks[runId].leaseUntil.Some?
    && rows.tasks[runId].leaseUntil.value > now
  }

  predicate IsHead(rows: Rows, runId: Id) {
    && runId in rows.runs
    && rows.runs[runId].sessionId in rows.sessions
    && rows.runs[runId].inputSeq == rows.sessions[rows.runs[runId].sessionId].lastResolved + 1
  }

  predicate Live(until: Option<int>, now: int) {
    until.Some? && until.value > now
  }

  predicate Claimable(rows: Rows, runId: Id, now: int)
    requires runId in rows.runs && runId in rows.tasks
  {
    var task := rows.tasks[runId];
    && IsHead(rows, runId)
    && !rows.sessions[rows.runs[runId].sessionId].archived
    && !rows.runs[runId].recoveryRequired
    && task.status !in {SUCCEEDED, FAILED, STALE, CANCELLED}
    && !Live(task.leaseUntil, now)
    && !Live(task.nextRetry, now)
  }

  function Reply(rows: Rows, runId: Id): Option<int> {
    if runId in rows.deliveries then Some(rows.deliveries[runId].replyDeadline) else None
  }

  /** Only the end of the run is left to write: the reply is out, or the seller stopped it. */
  predicate CleanupOnly(rows: Rows, runId: Id) {
    || (runId in rows.tasks && rows.tasks[runId].lastAction == Some(TERMINATE))
    || (runId in rows.deliveries && rows.deliveries[runId].published)
  }

  /** The meter of a run after a claim looked at it, and the end of the lease it would get. */
  function ClaimMeter(rows: Rows, runId: Id, now: int): (Meter, int)
    requires runId in rows.runs
  {
    var run := rows.runs[runId];
    var settled := Settled(run.meter, run.config.activeMs, now);
    var (closing, end) := LeaseEnd(settled, run.config.activeMs, Reply(rows, runId), now, LEASE_MS);
    (settled.(closing := closing), if CleanupOnly(rows, runId) then now + CLOSING_MS else end)
  }

  /** What a claim makes of a claimable run: failed when its time or its attempts are spent,
      else running for a new owner. */
  function ClaimDecision(rows: Rows, newToken: Id, runId: Id, now: int): (Run, Task, Option<Owner>)
    requires runId in rows.runs && runId in rows.tasks
  {
    var run := rows.runs[runId];
    var task := rows.tasks[runId];
    var (meter, end) := ClaimMeter(rows, runId, now);
    if end <= now then
      (run.(meter := meter, recoveryRequired := true), Released(task.(status := FAILED)), None)
    else if task.attempts >= task.maxAttempts then
      (run.(meter := meter, recoveryRequired := true), Released(task.(status := FAILED, nextRetry := None)), None)
    else
      (run.(meter := meter.(since := Some(now), until := Some(end))),
       task.(status := RUNNING, token := Some(newToken), leaseUntil := Some(end), epoch := task.epoch + 1,
             attempts := task.attempts + 1, nextRetry := None),
       Some(Owner(newToken, task.epoch + 1)))
  }

  /** The caller holds the thread lock. `newToken` is the uuid of the lease, if it is granted. */
  function ClaimTx(rows: Rows, newToken: Id, runId: Id, now: int): (Rows, Result<Option<Owner>>) {
    if runId !in rows.runs || runId !in rows.tasks then (rows, Failure(NotFound))
    else if rows.runs[runId].sessionId !in rows.sessions then (rows, Failure(NotFound))
    else if !Claimable(rows, runId, now) then (rows, Success(None))
    else
      var (run, task, owner) := ClaimDecision(rows, newToken, runId, now);
      Commit(rows, runId, run, task, owner)
  }

  function ReleaseTx(rows: Rows, runId: Id, owner: Owner, recoveryRequired: bool, now: int): (Rows, Result<()>) {
    if runId !in rows.runs then (rows, Failure(Conflict))
    else if !Owns(rows, runId, owner, now) then (rows, Failure(StaleOwner))
    else
      var run := rows.runs[runId];
      Commit(rows, runId,
             run.(meter := Settled(run.meter, run.config.activeMs, now), recoveryRequired := recoveryRequired),
             Released(rows.tasks[runId].(status := RETRY_WAIT, nextRetry := Some(now + RETRY_MS))), ())
  }

  /** A heartbeat that finds its closing window over raises, which also undoes the closing deadline
      that it would have frozen. */
  function HeartbeatTx(rows: Rows, runId: Id, owner: Owner, now: int): (Rows, Result<()>) {
    if runId !in rows.runs then (rows, Failure(Conflict))
    else if !Owns(rows, runId, owner, now) then (rows, Failure(StaleOwner))
    else
      var run := rows.runs[runId];
      var (closing, end) := LeaseEnd(run.meter, run.config.activeMs, Reply(rows, runId), now, LEASE_MS);
      if end <= now then (rows, Failure(StaleOwner))
      else
        Commit(rows, runId, run.(meter := run.meter.(closing := closing, until := Some(end))),
               rows.tasks[runId].(leaseUntil := Some(end)), ())
  }

  /** What the end checkpoint of the graph says. Its configuration is compared by hash, like the
      input. */
  datatype EndState = EndState(runId: Id, inputSeq: nat, inputHash: Digest, config: Config, version: GraphVersion,
                               messageId: Option<Id>, pending: bool)

  predicate EndMatches(end: EndState, runId: Id, run: Run) {
    && !end.pending
    && end.runId == runId
    && end.inputSeq == run.inputSeq
    && end.inputHash == run.inputHash
    && end.config == run.config
    && end.version == run.version
  }

  predicate Published(rows: Rows, runId: Id, messageId: Option<Id>) {
    && runId in rows.deliveries
    && rows.deliveries[runId].published
    && rows.deliveries[runId].messageId == messageId
  }

  function FinalizeTx(rows: Rows, runId: Id, owner: Owner, end: EndState, now: int): (Rows, Result<()>) {
    if runId !in rows.runs then (rows, Failure(Conflict))
    else if !Owns(rows, runId, owner, now) then (rows, Failure(StaleOwner))
    else if rows.runs[runId].sessionId !in rows.sessions then (rows, Failure(NotFound))
    else
      var run := rows.runs[runId];
      var session := rows.sessions[run.sessionId];
      if !EndMatches(end, runId, run) || !Published(rows, runId, end.messageId) then (rows, Failure(Conflict))
      else if session.lastResolved + 1 != run.inputSeq then (rows, Failure(Conflict))
      else
        var (rows', r) := Commit(rows, runId, run.(meter := Settled(run.meter, run.config.activeMs, now)),
                                 Released(rows.tasks[runId].(status := SUCCEEDED)), ());
        if r.Failure? then (rows, r)
        else (rows'.(sessions := rows.sessions[run.sessionId := session.(lastResolved := run.inputSeq)]), r)
  }

  // ---------------------------------------------------------------- instances and supervision

  function RegisterTx(rows: Rows, newId: Id, runId: Id, now: int): Rows {
    if runId !in rows.runs then rows
    else rows.(instances := rows.instances[newId := Instance(runId, None, 0, now, REGISTERED)])
  }

  function AttachTx(rows: Rows, runId: Id, instance: Id, owner: Owner, now: int): (Rows, Result<()>) {
    if runId !in rows.runs then (rows, Failure(Conflict))
    else if !Owns(rows, runId, owner, now) then (rows, Failure(StaleOwner))
    else if instance !in rows.instances then (rows, Failure(NotFound))
    else if rows.instances[instance].state != REGISTERED then (rows, Failure(Conflict))
    else
      (rows.(instances := rows.instances[instance :=
                            rows.instances[instance].(token := Some(owner.token), epoch := owner.epoch)]),
       Success(()))
  }

  predicate SameOwner(record: Instance, task: Task) {
    record.token.Some? && record.token == task.token && record.epoch == task.epoch
  }

  /** Take the run back from whoever holds it. */
  function Reclaimed(rows: Rows, runId: Id, now: int): Rows
    requires runId in rows.runs && runId in rows.tasks
  {
    var run := rows.runs[runId];
    var task := rows.tasks[runId];
    rows.(runs := rows.runs[runId := run.(meter := Settled(run.meter, run.config.activeMs, now))],
          tasks := rows.tasks[runId := Released(task.(status := RETRY_WAIT, nextRetry := Some(now),
                                                       epoch := task.epoch + 1))])
  }

  /** An instance still within its rights, which an unforced cleanup leaves alone. */
  predicate StillActive(record: Instance, run: Run, task: Task, now: int) {
    && record.state == REGISTERED
    && (|| (record.token.None? && now < record.registeredAt + REGISTRATION_MS)
        || (&& SameOwner(record, task)
            && Live(task.leaseUntil, now)
            && !(run.meter.closing.Some? && run.meter.closing.value <= now)
            && now < record.registeredAt + INSTANCE_MS))
  }

  /** First transaction of `cleanup_instance`; false if the instance is left alone. The connection
      is terminated only after it committed. */
  function RevokeInstanceTx(rows: Rows, instance: Id, force: bool, now: int): (Rows, Result<bool>) {
    if instance !in rows.instances || rows.instances[instance].state == RELEASED then (rows, Success(false))
    else
      var record := rows.instances[instance];
      if record.runId !in rows.runs || record.runId !in rows.tasks then (rows, Failure(NotFound))
      else if !force && StillActive(record, rows.runs[record.runId], rows.tasks[record.runId], now) then
        (rows, Success(false))
      else
        var task := rows.tasks[record.runId];
        var rows' := if SameOwner(record, task) && task.status == RUNNING then Reclaimed(rows, record.runId, now)
                 else rows;
        (rows'.(instances := rows'.instances[instance := record.(state := REVOKED)]), Success(true))
  }

  /** Last transaction of `cleanup_instance`, once the connection is known to be gone. */
  function ReleaseInstanceTx(rows: Rows, instance: Id): Rows {
    if instance !in rows.instances || rows.instances[instance].state == REGISTERED then rows
    else rows.(instances := rows.instances[instance := rows.instances[instance].(state := RELEASED)])
  }

  /** The supervisor gives up on its process: it takes the run back if its own instance holds it. */
  function SuperviseTx(rows: Rows, runId: Id, instance: Id, now: int): Rows {
    if runId !in rows.runs || runId !in rows.tasks || instance !in rows.instances then rows
    else
      var task := rows.tasks[runId];
      var record := rows.instances[instance];
      if task.status == RUNNING && task.token == record.token && task.epoch == record.epoch
      then Reclaimed(rows, runId, now)
      else rows
  }

  // ---------------------------------------------------------------- the rest of a run's life

  /** The seller retries or stops the head; the caller holds the thread lock. */
  function RecoverTx(rows: Rows, runId: Id, action: ManualAction, now: int): (Rows, Result<()>) {
    if runId !in rows.runs || runId !in rows.tasks then (rows, Failure(Conflict))
    else if rows.runs[runId].sessionId !in rows.sessions then (rows, Failure(NotFound))
    else if rows.sessions[rows.runs[runId].sessionId].archived || !IsHead(rows, runId) then (rows, Failure(Conflict))
    else
      var task := rows.tasks[runId];
      if Live(task.leaseUntil, now) || task.status in {SUCCEEDED, CANCELLED} then (rows, Failure(Conflict))
      else
        Commit(rows, runId, rows.runs[runId].(recoveryRequired := false),
               Released(task.(status := PENDING, nextRetry := None, lastAction := Some(action),
                              maxAttempts := if task.maxAttempts < task.attempts + 1
                                             then task.attempts + 1 else task.maxAttempts)), ())
  }

  /** A committed business command leaves a reply to deliver within 45 seconds. */
  function DeliverTx(rows: Rows, runId: Id, owner: Owner, now: int): Rows {
    if !Owns(rows, runId, owner, now) || runId in rows.deliveries then rows
    else rows.(deliveries := rows.deliveries[runId := Delivery(false, now + REPLY_MS, None)])
  }

  /** The reply goes out once, whether the run's owner or a notification worker sends it. */
  function PublishTx(rows: Rows, runId: Id, newMessage: Id): Rows {
    if runId !in rows.deliveries || rows.deliveries[runId].published then rows
    else rows.(deliveries := rows.deliveries[runId :=
                               rows.deliveries[runId].(published := true, messageId := Some(newMessage))])
  }
}
