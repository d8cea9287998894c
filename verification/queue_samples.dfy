/** Runs of the production queue, step by step from the empty world, that reach the limits of what
    its theorems promise. */
module QueueSamples {
  import opened Outcomes
  import opened Recovery
  import opened Activity
  import opened QueueRows
  import opened QueueMachine
  import opened QueueSafety
  import opened QueueTheorems

  // ---------------------------------------------------------------- one session, one input

  /** A run with a budget of one second, and one with the largest budget. */
  const SHORT := Input("first", "hello", false, Config("p1-v1", 10, 180000, 1000), true)
  const LONG := Input("first", "hello", false, Config("p1-v1", 10, 180000, MAX_ACTIVE_MS), true)

  predicate IsSample(input: Input) {
    input == SHORT || input == LONG
  }

  /** A world with one session and one input, at a given moment of its life. */
  function OneRun(input: Input, meter: Meter, task: Task, deliveries: map<Id, Delivery>, uuids: Id, now: int): World {
    World(Rows(map[0 := Session(7, Some(NEGOTIATION), false, 2, 0)],
               map[1 := Run(0, 1, input.requestId, PayloadDigest(input.payload), input.config, NEGOTIATION,
                               false, meter)],
               map[1 := task],
               map[(0, input.requestId) := 1], map[(0, 1) := 1], deliveries, map[]),
          uuids, now, map[])
  }

  const QUEUED := Task(PENDING, None, None, 0, 0, DEFAULT_MAX_ATTEMPTS, None, None)

  /** The task while the attempt of that number runs. */
  function Running(meter: Meter, attempt: nat): Task {
    Task(RUNNING, Some(attempt + 1), meter.until, attempt, attempt, DEFAULT_MAX_ATTEMPTS, None, None)
  }

  lemma FirstEnqueued(input: Input)
    requires IsSample(input)
    ensures Next(Next(Init(0), OpenSession(7, Some(NEGOTIATION))), Enqueue(0, 7, input))
            == OneRun(input, NEW_METER, QUEUED, map[], 2, 0)
  {
    var s1 := Next(Init(0), OpenSession(7, Some(NEGOTIATION)));
    assert s1.rows.sessions == map[0 := Session(7, Some(NEGOTIATION), false, 1, 0)];
    var rows := EnqueueTx(s1.rows, 1, 0, 7, input).0;
    assert rows == Joined(s1.rows, 1, 0, input, NEGOTIATION);
    assert rows.sessions == map[0 := Session(7, Some(NEGOTIATION), false, 2, 0)];
  }

  lemma FirstClaimed(input: Input, meter: Meter)
    requires IsSample(input) && meter == Reopened(NEW_METER, input.config.activeMs, None, 0, LEASE_MS, false)
    ensures Next(OneRun(input, NEW_METER, QUEUED, map[], 2, 0), Claim(1))
            == OneRun(input, meter, Running(meter, 1), map[], 3, 0)
  {
    var s := OneRun(input, NEW_METER, QUEUED, map[], 2, 0);
    var (run, task, owner) := ClaimDecision(s.rows, 2, 1, 0);
    assert task == Running(meter, 1);
    assert s.rows.runs[1 := run] == map[1 := run] && s.rows.tasks[1 := task] == map[1 := task];
  }

  lemma Beats(input: Input, meter: Meter, attempt: nat, deliveries: map<Id, Delivery>, uuids: Id, now: int)
    requires IsSample(input) && meter.until.Some? && now < meter.until.value
    requires var reply := if 1 in deliveries then Some(deliveries[1].replyDeadline) else None;
             now < Beaten(meter, input.config.activeMs, reply, now).until.value
    ensures var reply := if 1 in deliveries then Some(deliveries[1].replyDeadline) else None;
            var meter' := Beaten(meter, input.config.activeMs, reply, now);
            Next(OneRun(input, meter, Running(meter, attempt), deliveries, uuids, now),
                 Heartbeat(1, Owner(attempt + 1, attempt)))
            == OneRun(input, meter', Running(meter', attempt), deliveries, uuids, now)
  {
    hide LeaseEnd;
    var s := OneRun(input, meter, Running(meter, attempt), deliveries, uuids, now);
    var rows := Next(s, Heartbeat(1, Owner(attempt + 1, attempt))).rows;
    assert rows.runs == map[1 := rows.runs[1]] && rows.tasks == map[1 := rows.tasks[1]];
  }

  lemma TicksOnly(input: Input, meter: Meter, task: Task, deliveries: map<Id, Delivery>, uuids: Id, now: int, ms: nat)
    ensures Next(OneRun(input, meter, task, deliveries, uuids, now), Tick(ms))
            == OneRun(input, meter, task, deliveries, uuids, now + ms)
  {
  }

  // ---------------------------------------------------------------- steps in a row

  lemma ExecThree(s: World, steps: seq<Step>, rest: seq<Step>)
    requires |steps| == 3
    ensures Exec(s, steps) == Next(Next(Next(s, steps[0]), steps[1]), steps[2])
    ensures Exec(s, steps + rest) == Exec(Exec(s, steps), rest)
  {
    hide Next;
    ExecOne(s, steps, rest);
    ExecOne(Next(s, steps[0]), steps[1..], rest);
    ExecOne(Next(Next(s, steps[0]), steps[1]), steps[1..][1..], rest);
  }

  lemma ExecOne(s: World, steps: seq<Step>, rest: seq<Step>)
    requires steps != []
    ensures Exec(s, steps) == Exec(Next(s, steps[0]), steps[1..])
    ensures Exec(s, steps + rest) == Exec(Next(s, steps[0]), steps[1..] + rest)
    ensures |steps| == 1 ==> steps[1..] + rest == rest
  {
    assert (steps + rest)[1..] == steps[1..] + rest;
  }

  lemma ExecTwo(s: World, a: Step, b: Step)
    ensures Exec(s, [a, b]) == Next(Next(s, a), b)
  {
    hide Next;
    ExecOne(s, [a, b], []);
    assert [a, b][1..] == [b];
    ExecOne(Next(s, a), [b], []);
  }

  function Opening(input: Input): seq<Step> {
    [OpenSession(7, Some(NEGOTIATION)), Enqueue(0, 7, input), Claim(1)]
  }

  lemma Opened(input: Input, meter: Meter, rest: seq<Step>)
    requires IsSample(input) && meter == Reopened(NEW_METER, input.config.activeMs, None, 0, LEASE_MS, false)
    ensures Exec(Init(0), Opening(input) + rest)
            == Exec(OneRun(input, meter, Running(meter, 1), map[], 3, 0), rest)
  {
    hide Next, OneRun, Init;
    FirstEnqueued(input);
    FirstClaimed(input, meter);
    ExecThree(Init(0), Opening(input), rest);
  }

  const CLAIMED := Meter(0, Some(0), Some(16000), None)

  // ---------------------------------------------------------------- the ceiling

  /** The ceiling cannot be lowered: a run with a budget of one second that is claimed once and
      sends one heartbeat in the last millisecond of its lease is charged all but a millisecond. */
  lemma CeilingIsReached()
    ensures var s := Exec(Init(0), Opening(SHORT) + [Tick(15999), Heartbeat(1, Owner(2, 1))]);
            && 1 in s.rows.runs
            && UsedMs(s.rows.runs[1].meter, 30999) == Ceiling(1000, Cleanups(s, 1)) - 1
  {
    hide Next, Exec, Init;
    Opened(SHORT, CLAIMED, [Tick(15999), Heartbeat(1, Owner(2, 1))]);
    TicksOnly(SHORT, CLAIMED, Running(CLAIMED, 1), map[], 3, 0, 15999);
    Beats(SHORT, CLAIMED, 1, map[], 3, 15999);
    ExecTwo(OneRun(SHORT, CLAIMED, Running(CLAIMED, 1), map[], 3, 0), Tick(15999), Heartbeat(1, Owner(2, 1)));
  }

  // ---------------------------------------------------------------- a head whose time is up

  const WAITING := Task(RETRY_WAIT, None, None, 1, 1, DEFAULT_MAX_ATTEMPTS, Some(16999), None)
  const SETTLED := Meter(15999, None, None, Some(16000))

  lemma FirstReleased()
    ensures Next(OneRun(SHORT, CLAIMED, Running(CLAIMED, 1), map[], 3, 15999), Release(1, Owner(2, 1), false))
            == OneRun(SHORT, SETTLED, WAITING, map[], 3, 15999)
  {
    var s := OneRun(SHORT, CLAIMED, Running(CLAIMED, 1), map[], 3, 15999);
    var rows := ReleaseTx(s.rows, 1, Owner(2, 1), false, 15999).0;
    assert rows.runs[1].meter == SETTLED && rows.tasks[1] == WAITING;
    assert rows.runs == map[1 := rows.runs[1]] && rows.tasks == map[1 := rows.tasks[1]];
  }

  const SPENDING := [Tick(15999), Release(1, Owner(2, 1), false), Tick(1001)]

  lemma SampleRun(rest: seq<Step>)
    ensures Exec(Init(0), Opening(SHORT) + (SPENDING + rest))
            == Exec(OneRun(SHORT, SETTLED, WAITING, map[], 3, 17000), rest)
  {
    hide Next, OneRun, Init;
    Opened(SHORT, CLAIMED, SPENDING + rest);
    TicksOnly(SHORT, CLAIMED, Running(CLAIMED, 1), map[], 3, 0, 15999);
    FirstReleased();
    TicksOnly(SHORT, SETTLED, WAITING, map[], 3, 15999, 1001);
    ExecThree(OneRun(SHORT, CLAIMED, Running(CLAIMED, 1), map[], 3, 0), SPENDING, rest);
  }

  /** One released attempt is enough to get there: a run with a budget of one second, claimed once
      and released a millisecond before its lease ends. */
  lemma SpentHeadIsReached()
    ensures var s := Exec(Init(0), Opening(SHORT) + SPENDING);
            Spent(s, 1) && Claimable(s.rows, 1, s.now)
  {
    SampleRun([]);
    assert SPENDING + [] == SPENDING;
    hide Next, Init;
  }

  // ---------------------------------------------------------------- leases beyond the kill time

  /** The seller stops that run, and the claim that cleans it up gets a lease until 32 s, while its
      supervisor stops the process at 16 s. */
  lemma CleanupOutlivesSupervisor()
    ensures var s := Exec(Init(0), Opening(SHORT) + (SPENDING + [Recover(1, TERMINATE), Claim(1)]));
            && 1 in s.rows.runs && 1 in s.rows.tasks && 1 !in s.rows.deliveries
            && s.rows.tasks[1].leaseUntil == Some(32000)
            && KillTime(s.rows.runs[1].meter, 1000, None) == Some(16000)
  {
    hide Next, Exec, Init;
    SampleRun([Recover(1, TERMINATE), Claim(1)]);
    var s := OneRun(SHORT, SETTLED, WAITING, map[], 3, 17000);
    ExecTwo(s, Recover(1, TERMINATE), Claim(1));
    StoppedIsClaimed(s);
  }

  lemma StoppedIsClaimed(s: World)
    requires s == OneRun(SHORT, SETTLED, WAITING, map[], 3, 17000)
    ensures var s' := Next(Next(s, Recover(1, TERMINATE)), Claim(1));
            && 1 in s'.rows.runs && 1 in s'.rows.tasks && 1 !in s'.rows.deliveries
            && s'.rows.tasks[1].leaseUntil == Some(32000)
            && s'.rows.runs[1].meter == Meter(15999, Some(17000), Some(32000), Some(16000))
  {
    var s1 := Next(s, Recover(1, TERMINATE));
    assert s1.rows.tasks[1] == QUEUED.(epoch := 1, attempts := 1, lastAction := Some(TERMINATE));
    assert s1.rows.runs[1] == s.rows.runs[1] && s1.rows.deliveries == map[] && s1.now == 17000;
    assert ClaimMeter(s1.rows, 1, 17000) == (SETTLED, 32000);
  }

  const REPLYING := map[1 := Delivery(false, 105000, None)]

  lemma Delivers(meter: Meter)
    requires meter.until == Some(88000)
    ensures Next(OneRun(LONG, meter, Running(meter, 1), map[], 3, 60000), Deliver(1, Owner(2, 1)))
            == OneRun(LONG, meter, Running(meter, 1), REPLYING, 3, 60000)
  {
  }

  const BEAT := Heartbeat(1, Owner(2, 1))
  const BEFORE_REPLY := [Tick(29000), BEAT, Tick(29000)]
  const WITH_REPLY := [BEAT, Tick(2000), Deliver(1, Owner(2, 1))]
  const AFTER_REPLY := [Tick(20000), BEAT, Tick(20000)]
  const LATE_CLAIM := [BEAT, Tick(25000), Claim(1)]

  function At(until: int): Meter {
    Meter(0, Some(0), Some(until), None)
  }

  function AtWork(until: int, deliveries: map<Id, Delivery>, now: int): World {
    OneRun(LONG, At(until), Running(At(until), 1), deliveries, 3, now)
  }

  lemma WorksUntilReply(rest: seq<Step>)
    ensures Exec(AtWork(30000, map[], 0), BEFORE_REPLY + (WITH_REPLY + rest))
            == Exec(AtWork(88000, REPLYING, 60000), rest)
  {
    hide Next, Exec, OneRun;
    TicksOnly(LONG, At(30000), Running(At(30000), 1), map[], 3, 0, 29000);
    Beats(LONG, At(30000), 1, map[], 3, 29000);
    TicksOnly(LONG, At(59000), Running(At(59000), 1), map[], 3, 29000, 29000);
    ExecThree(AtWork(30000, map[], 0), BEFORE_REPLY, WITH_REPLY + rest);
    Beats(LONG, At(59000), 1, map[], 3, 58000);
    TicksOnly(LONG, At(88000), Running(At(88000), 1), map[], 3, 58000, 2000);
    Delivers(At(88000));
    ExecThree(AtWork(59000, map[], 58000), WITH_REPLY, rest);
  }

  const OUTLIVING := Meter(120000, Some(125000), Some(135000), Some(135000))

  lemma SecondClaimed()
    ensures Next(AtWork(120000, REPLYING, 125000), Claim(1))
            == OneRun(LONG, OUTLIVING, Running(OUTLIVING, 2), REPLYING, 4, 125000)
  {
    var s := AtWork(120000, REPLYING, 125000);
    assert ClaimMeter(s.rows, 1, 125000) == (Meter(120000, None, None, Some(135000)), 135000);
    var (run, task, owner) := ClaimDecision(s.rows, 3, 1, 125000);
    assert task == Running(OUTLIVING, 2);
    assert s.rows.runs[1 := run] == map[1 := run] && s.rows.tasks[1 := task] == map[1 := task];
  }

  lemma WorksWithReply()
    ensures Exec(AtWork(88000, REPLYING, 60000), AFTER_REPLY + LATE_CLAIM)
            == OneRun(LONG, OUTLIVING, Running(OUTLIVING, 2), REPLYING, 4, 125000)
  {
    hide Next, Exec, OneRun;
    TicksOnly(LONG, At(88000), Running(At(88000), 1), REPLYING, 3, 60000, 20000);
    Beats(LONG, At(88000), 1, REPLYING, 3, 80000);
    TicksOnly(LONG, At(110000), Running(At(110000), 1), REPLYING, 3, 80000, 20000);
    ExecThree(AtWork(88000, REPLYING, 60000), AFTER_REPLY, LATE_CLAIM);
    Beats(LONG, At(110000), 1, REPLYING, 3, 100000);
    TicksOnly(LONG, At(120000), Running(At(120000), 1), REPLYING, 3, 100000, 25000);
    SecondClaimed();
    ExecThree(AtWork(110000, REPLYING, 100000), LATE_CLAIM, []);
  }

  const TO_LATE_CLAIM := Opening(LONG) + (BEFORE_REPLY + (WITH_REPLY + (AFTER_REPLY + LATE_CLAIM)))

  /** A run with the full budget is claimed at 0 and at 60 s leaves a reply that is due at 105 s. Its
      last heartbeat is at 100 s, its lease is lost at 120 s and claimed again at 125 s: the new lease
      runs until 135 s, while its supervisor stops at 120 s. So does that of a heartbeat at 126 s. */
  lemma ReplyOutlivesSupervisor()
    ensures var s := Exec(Init(0), TO_LATE_CLAIM);
            var s' := Next(Next(s, Tick(1000)), Heartbeat(1, Owner(3, 2)));
            && s == OneRun(LONG, OUTLIVING, Running(OUTLIVING, 2), REPLYING, 4, 125000)
            && s' == OneRun(LONG, OUTLIVING, Running(OUTLIVING, 2), REPLYING, 4, 126000)
            && Owns(s'.rows, 1, Owner(3, 2), 134999)
            && KillTime(OUTLIVING, MAX_ACTIVE_MS, Some(105000)) == Some(120000)
  {
    hide Next, Exec, Init, OneRun;
    Opened(LONG, At(30000), BEFORE_REPLY + (WITH_REPLY + (AFTER_REPLY + LATE_CLAIM)));
    WorksUntilReply(AFTER_REPLY + LATE_CLAIM);
    WorksWithReply();
    TicksOnly(LONG, OUTLIVING, Running(OUTLIVING, 2), REPLYING, 4, 125000, 1000);
    Beats(LONG, OUTLIVING, 2, REPLYING, 4, 126000);
    StillOwned();
  }

  lemma StillOwned()
    ensures Owns(OneRun(LONG, OUTLIVING, Running(OUTLIVING, 2), REPLYING, 4, 126000).rows, 1, Owner(3, 2), 134999)
  {
  }
}
