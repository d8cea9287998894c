/** Runs of the P0 machine, step by step from the empty world, that reach what the theorems allow:
    a worker that lost its run revokes the next owner, and even a resolved run; and a run with
    evidence whose checkpoint the saver lost is refused. */
module P0Samples {
  import opened Outcomes
  import opened Recovery
  import opened P0Store
  import opened P0Machine
  import opened P0Safety
  import opened P0Theorems

  // ---------------------------------------------------------------- one session, one input

  const TEXT := "hello"
  const PHONE := "P0 synthetic phone"
  const ANSWER := "ASK_PRODUCT"

  function TheRun(status: RunStatus, token: Option<Id>, epoch: nat, lease: int): Run {
    Run(0, 1, "first", TEXT, PayloadDigest(TEXT), status, token, epoch, lease)
  }

  function Db(run: Run, cursor: nat): Tables {
    EMPTY_TABLES.(sessions := map[0 := Session(cursor, 2, 0, 1)], products := map[0 := PHONE],
                  inputs := map[1 := run], byRequest := map[(0, "first") := 1], bySeq := map[(0, 1) := 1])
  }

  function Answer(db: Tables): Tables {
    db.(artifacts := map[ArtifactDigest(1, PayloadDigest(TEXT), CONFIG_HASH) :=
                           Artifact(1, PayloadDigest(TEXT), CONFIG_HASH, ANSWER, ValueDigest(ANSWER))])
  }

  const RESULT := ActionResult(1, DEFAULT_AMOUNT)

  /** The tables once the answer is logged and the command committed. */
  function Committed(run: Run, cursor: nat): Tables {
    Answer(Db(run, cursor)).(sessions := map[0 := Session(cursor, 2, 1, 2)],
                             attempts := map[4 := Attempt(1, true)], offers := map[1 := DEFAULT_AMOUNT],
                             approvals := {1}, notifications := {1}, outbox := {1},
                             receipts := map[1 := Receipt(ActionDigest(DEFAULT_AMOUNT, PayloadDigest(TEXT)), RESULT)])
  }

  const STARTED := NewTurn(1, TheRun(PENDING, None, 0, 0))
  const QUERIED := STARTED.(product := PHONE)
  const UNDERSTOOD := WithAnswer(QUERIED, ANSWER)
  const COMMITTED := UNDERSTOOD.(receipt := Some(RESULT))

  /** The thread of the session has seen these checkpoints, and shows the last. */
  function Scene(db: Tables, uuids: Id, now: int, thread: seq<Checkpoint>, locks: map<Id, Id>,
                 workers: map<Id, Worker>): World
  {
    World(db, uuids, now, Shown(thread), Written(thread), {}, locks, workers, true)
  }

  function Shown(thread: seq<Checkpoint>): map<Id, Checkpoint> {
    if thread == [] then map[] else map[0 := thread[|thread| - 1]]
  }

  lemma ThreadGrows(thread: seq<Checkpoint>, c: Checkpoint)
    ensures Shown(thread + [c]) == Shown(thread)[0 := c]
    ensures Written(thread + [c]) == Written(thread) + {(0, c)}
  {
    assert (thread + [c])[..|thread|] == thread;
  }

  function Written(thread: seq<Checkpoint>): set<(Id, Checkpoint)> {
    if thread == [] then {} else Written(thread[..|thread| - 1]) + {(0, thread[|thread| - 1])}
  }

  function First(pc: Pc): map<Id, Worker> {
    map[2 := Worker(1, 0, Some(Owner(3, 1)), pc)]
  }

  /** The first worker acts alone, holding the lock. */
  function Solo(db: Tables, uuids: Id, thread: seq<Checkpoint>, pc: Pc): World {
    Scene(db, uuids, 0, thread, map[0 := 2], First(pc))
  }

  function Go(wid: Id): Step {
    Act(wid, ANSWER, None, 0)
  }

  const HELD := TheRun(RUNNING, Some(3), 1, 30000)

  lemma Opened()
    ensures var s := Next(Next(Init(true, 0), SeedSession), EnqueueInput(0, "first", TEXT));
            s == Scene(Db(TheRun(PENDING, None, 0, 0), 0), 2, 0, [], map[], map[])
  {
    var s1 := Next(Init(true, 0), SeedSession);
    assert s1.db.sessions == map[0 := Session(0, 1, 0, 1)] && s1.db.products == map[0 := PHONE];
    var s := Next(s1, EnqueueInput(0, "first", TEXT));
    assert s.db.sessions == map[0 := Session(0, 2, 0, 1)];
  }

  lemma FirstClaims()
    ensures var s := Scene(Db(TheRun(PENDING, None, 0, 0), 0), 2, 0, [], map[], map[]);
            Next(Next(s, StartWorker(1)), Go(2)) == Solo(Db(HELD, 0), 4, [], Claimed)
  {
    var s := Scene(Db(TheRun(PENDING, None, 0, 0), 0), 2, 0, [], map[], map[]);
    var s1 := Next(s, StartWorker(1));
    assert s1.locks == map[0 := 2] && s1.workers == map[2 := Worker(1, 0, None, Locked)];
    var s2 := Next(s1, Go(2));
    assert s2.db.inputs == map[1 := HELD];
  }

  lemma FirstBegins()
    ensures var s := Solo(Db(HELD, 0), 4, [], Claimed);
            Next(Next(s, Go(2)), Go(2)) == Solo(Db(HELD, 0), 4, [], Begin)
  {
    var s := Solo(Db(HELD, 0), 4, [], Claimed);
    var s1 := Next(s, Go(2));
    assert s1 == Solo(Db(HELD, 0), 4, [], Snapped(None));
    assert !HasEvidence(s1.db, 1);
  }

  lemma Saves(db: Tables, uuids: Id, thread: seq<Checkpoint>, pc: Pc, c: Checkpoint)
    requires c.next != END
    requires pc == Done(c.next, c.state) || (pc == Begin && c == Checkpoint(STARTED, QUERY) && db == Db(HELD, 0))
    ensures Next(Solo(db, uuids, thread, pc), Go(2)) == Solo(db, uuids, thread + [c], At(c.next, c.state))
  {
    ThreadGrows(thread, c);
    hide Shown, Written, RunQuery, RunSemantic, RunCommit, RunPublish, Enter, Claim, Close;
    assert Next(Solo(db, uuids, thread, pc), Go(2)) == Save(Solo(db, uuids, thread, pc), 2, c);
  }

  lemma FirstQueries(thread: seq<Checkpoint>)
    requires thread == [Checkpoint(STARTED, QUERY)]
    ensures Next(Solo(Db(HELD, 0), 4, thread, At(QUERY, STARTED)), Go(2))
            == Solo(Db(HELD, 0), 4, thread, Done(SEMANTIC, QUERIED))
  {
  }

  /** The tables once the answer is stored and its attempt logged. */
  function Understood(run: Run): Tables {
    Answer(Db(run, 0)).(attempts := map[4 := Attempt(1, true)])
  }

  lemma FirstAsks(thread: seq<Checkpoint>)
    ensures Next(Next(Solo(Db(HELD, 0), 4, thread, At(SEMANTIC, QUERIED)), Go(2)), Go(2))
            == Solo(Db(HELD, 0), 4, thread, Answered(QUERIED, ANSWER))
  {
    var s := Solo(Db(HELD, 0), 4, thread, At(SEMANTIC, QUERIED));
    assert Next(s, Go(2)) == RunSemantic(s, 2, QUERIED);
    assert RunSemantic(s, 2, QUERIED) == Solo(Db(HELD, 0), 4, thread, Calling(QUERIED));
    hide RunSemantic, SnapshotEntry, Enter, Claim, Close, Save;
  }

  lemma FirstUnderstands(thread: seq<Checkpoint>)
    ensures Next(Next(Solo(Db(HELD, 0), 4, thread, Answered(QUERIED, ANSWER)), Go(2)), Go(2))
            == Solo(Understood(HELD), 5, thread, Done(COMMIT, UNDERSTOOD))
  {
    var s := Solo(Db(HELD, 0), 4, thread, Answered(QUERIED, ANSWER));
    var s1 := Solo(Answer(Db(HELD, 0)), 4, thread, Logging(QUERIED, ANSWER, true));
    hide SnapshotEntry, Enter, Claim, Close, Save, RunSemantic;
    assert Next(s, Go(2)) == s1 by {
      assert Next(s, Go(2)) == AcceptAnswer(s, 2, QUERIED, ANSWER);
    }
    assert Next(s1, Go(2)) == LogAttempt(s1, 2, QUERIED, ANSWER, true);
  }

  lemma FirstCommits(thread: seq<Checkpoint>)
    ensures Next(Solo(Understood(HELD), 5, thread, At(COMMIT, UNDERSTOOD)), Go(2))
            == Solo(Committed(HELD, 0), 5, thread, Done(APPROVAL, COMMITTED))
  {
    FirstCommand();
    hide CommandTx, RunQuery, RunSemantic, RunPublish, Enter, Claim, Close, Save, ReadCheckpoint, ReadLast,
         Committed, Understood;
  }

  lemma FirstCommand()
    ensures CommandTx(Understood(HELD), 1, Owner(3, 1), DEFAULT_AMOUNT, 0, 0) == (Committed(HELD, 0), Success(RESULT))
  {
    var db := Understood(HELD);
    CommandWritesAll(db, 1, HELD, DEFAULT_AMOUNT);
    hide CommandWrites;
    var after := CommandTx(db, 1, Owner(3, 1), DEFAULT_AMOUNT, 0, 0).0;
    assert after.offers == map[1 := DEFAULT_AMOUNT] && after.sessions == map[0 := Session(0, 2, 1, 2)];
    assert after.receipts == Committed(HELD, 0).receipts;
    assert after.approvals == {1} && after.notifications == {1} && after.outbox == {1};
  }

  lemma FirstInterrupts(thread: seq<Checkpoint>)
    requires thread != [] && thread[|thread| - 1] == Checkpoint(COMMITTED, APPROVAL)
    ensures Next(Next(Solo(Committed(HELD, 0), 5, thread, At(APPROVAL, COMMITTED)), Go(2)), Go(2))
            == Solo(Committed(HELD, 0), 5, thread, Ending(Checkpoint(COMMITTED, APPROVAL)))
  {
    hide RunQuery, RunSemantic, RunCommit, RunPublish, Enter, Claim, Close, Save, ReadCheckpoint, Committed;
  }

  // ---------------------------------------------------------------- steps in a row

  ghost predicate Leads(s: World, steps: seq<Step>, end: World) {
    Exec(s, steps) == end
  }

  lemma {:induction false} Then(s: World, first: seq<Step>, middle: World, rest: seq<Step>, end: World)
    requires Leads(s, first, middle) && Leads(middle, rest, end)
    ensures Leads(s, first + rest, end)
    decreases |first|
  {
    hide Next;
    if first == [] {
      assert first + rest == rest;
    } else {
      assert (first + rest)[1..] == first[1..] + rest;
      Then(Next(s, first[0]), first[1..], middle, rest, end);
    }
  }

  lemma One(s: World, step: Step)
    ensures Leads(s, [step], Next(s, step))
  {
    hide Next;
    assert Exec(s, [step]) == Exec(Next(s, step), []);
  }

  lemma Two(s: World, a: Step, b: Step)
    ensures Leads(s, [a, b], Next(Next(s, a), b))
  {
    hide Next;
    One(s, a);
    One(Next(s, a), b);
    Then(s, [a], Next(s, a), [b], Next(Next(s, a), b));
    assert [a] + [b] == [a, b];
  }

  const CHECKPOINTS := [Checkpoint(STARTED, QUERY)] + [Checkpoint(QUERIED, SEMANTIC)] + [Checkpoint(UNDERSTOOD, COMMIT)]
                     + [LAST]
  const LAST := Checkpoint(COMMITTED, APPROVAL)

  const OPENING := [SeedSession, EnqueueInput(0, "first", TEXT)] + [StartWorker(1), Go(2)] + [Go(2), Go(2)] + [Go(2)]

  lemma ReachesBegin()
    ensures Leads(Init(true, 0), OPENING, Solo(Db(HELD, 0), 4, [Checkpoint(STARTED, QUERY)], At(QUERY, STARTED)))
  {
    hide Next, Leads, Solo, Scene, Db, Init;
    var s0 := Init(true, 0);
    var s1 := Scene(Db(TheRun(PENDING, None, 0, 0), 0), 2, 0, [], map[], map[]);
    var s2 := Solo(Db(HELD, 0), 4, [], Claimed);
    var s3 := Solo(Db(HELD, 0), 4, [], Begin);
    var s4 := Solo(Db(HELD, 0), 4, [] + [Checkpoint(STARTED, QUERY)], At(QUERY, STARTED));
    assert [] + [Checkpoint(STARTED, QUERY)] == [Checkpoint(STARTED, QUERY)];
    Opened();
    Two(s0, SeedSession, EnqueueInput(0, "first", TEXT));
    FirstClaims();
    Two(s1, StartWorker(1), Go(2));
    Then(s0, [SeedSession, EnqueueInput(0, "first", TEXT)], s1, [StartWorker(1), Go(2)], s2);
    FirstBegins();
    Two(s2, Go(2), Go(2));
    Then(s0, [SeedSession, EnqueueInput(0, "first", TEXT)] + [StartWorker(1), Go(2)], s2, [Go(2), Go(2)], s3);
    Saves(Db(HELD, 0), 4, [], Begin, Checkpoint(STARTED, QUERY));
    One(s3, Go(2));
    Then(s0, [SeedSession, EnqueueInput(0, "first", TEXT)] + [StartWorker(1), Go(2)] + [Go(2), Go(2)], s3, [Go(2)], s4);
  }

  const NODES := [Go(2), Go(2)] + [Go(2), Go(2)] + [Go(2), Go(2)] + [Go(2)] + [Go(2), Go(2)] + [Go(2), Go(2)]

  /** The seller has been asked, and the worker is about to give the run back. */
  const INTERRUPTED := Solo(Committed(HELD, 0), 5, CHECKPOINTS, Ending(LAST))

  lemma RunsNodes()
    ensures Leads(Solo(Db(HELD, 0), 4, [Checkpoint(STARTED, QUERY)], At(QUERY, STARTED)), NODES, INTERRUPTED)
  {
    hide Next, Leads, Solo, Scene, Db, Understood, Committed;
    var c1 := [Checkpoint(STARTED, QUERY)];
    var c2 := c1 + [Checkpoint(QUERIED, SEMANTIC)];
    var c3 := c2 + [Checkpoint(UNDERSTOOD, COMMIT)];
    var s0 := Solo(Db(HELD, 0), 4, c1, At(QUERY, STARTED));
    var s1 := Solo(Db(HELD, 0), 4, c2, At(SEMANTIC, QUERIED));
    var s2 := Solo(Db(HELD, 0), 4, c2, Answered(QUERIED, ANSWER));
    var s3 := Solo(Understood(HELD), 5, c2, Done(COMMIT, UNDERSTOOD));
    var s4 := Solo(Understood(HELD), 5, c3, At(COMMIT, UNDERSTOOD));
    var s5 := Solo(Committed(HELD, 0), 5, CHECKPOINTS, At(APPROVAL, COMMITTED));
    var two := [Go(2), Go(2)];
    FirstQueries(c1);
    Saves(Db(HELD, 0), 4, c1, Done(SEMANTIC, QUERIED), Checkpoint(QUERIED, SEMANTIC));
    Two(s0, Go(2), Go(2));
    FirstAsks(c2);
    Two(s1, Go(2), Go(2));
    Then(s0, two, s1, two, s2);
    FirstUnderstands(c2);
    Two(s2, Go(2), Go(2));
    Then(s0, two + two, s2, two, s3);
    Saves(Understood(HELD), 5, c2, Done(COMMIT, UNDERSTOOD), Checkpoint(UNDERSTOOD, COMMIT));
    One(s3, Go(2));
    Then(s0, two + two + two, s3, [Go(2)], s4);
    FirstCommits(c3);
    Saves(Committed(HELD, 0), 5, c3, Done(APPROVAL, COMMITTED), LAST);
    Two(s4, Go(2), Go(2));
    Then(s0, two + two + two + [Go(2)], s4, two, s5);
    FirstInterrupts(CHECKPOINTS);
    Two(s5, Go(2), Go(2));
    Then(s0, two + two + two + [Go(2)] + two, s5, two, INTERRUPTED);
  }

  // ---------------------------------------------------------------- a second worker takes over

  const TAKEN := TheRun(RUNNING, Some(6), 2, 60000)

  /** The first worker, still about to give the run back, and a second one that has claimed it. */
  function Duo(db: Tables, thread: seq<Checkpoint>, pc: Pc): World {
    Scene(db, 7, 30000, thread, map[0 := 5], Both(pc))
  }

  function Both(pc: Pc): map<Id, Worker> {
    map[2 := Worker(1, 0, Some(Owner(3, 1)), Ending(LAST)), 5 := Worker(1, 0, Some(Owner(6, 2)), pc)]
  }

  const TAKEOVER := [LoseConnection(2), Tick(30000)] + [StartWorker(1), Go(5)]

  lemma TakesOver()
    ensures Leads(INTERRUPTED, TAKEOVER, Duo(Committed(TAKEN, 0), CHECKPOINTS, Claimed))
  {
    var s0 := INTERRUPTED;
    var s1 := Scene(Committed(HELD, 0), 5, 30000, CHECKPOINTS, map[], First(Ending(LAST)));
    assert Next(Next(s0, LoseConnection(2)), Tick(30000)) == s1 by {
      assert Unlock(map[0 := 2], 2) == map[];
    }
    var s2 := Next(s1, StartWorker(1));
    assert s2.workers == map[2 := Worker(1, 0, Some(Owner(3, 1)), Ending(LAST)), 5 := Worker(1, 0, None, Locked)];
    SecondClaims(s1, s2);
    hide Next, Leads, Scene, Committed, INTERRUPTED;
    Two(s0, LoseConnection(2), Tick(30000));
    Two(s1, StartWorker(1), Go(5));
    Then(s0, [LoseConnection(2), Tick(30000)], s1, [StartWorker(1), Go(5)],
         Duo(Committed(TAKEN, 0), CHECKPOINTS, Claimed));
  }

  lemma SecondClaims(s1: World, s2: World)
    requires s1 == Scene(Committed(HELD, 0), 5, 30000, CHECKPOINTS, map[], First(Ending(LAST)))
    requires s2 == Next(s1, StartWorker(1))
    ensures Next(s2, Go(5)) == Duo(Committed(TAKEN, 0), CHECKPOINTS, Claimed)
  {
    assert Next(s2, Go(5)) == Claim(s2, 5);
    assert Next(s2, Go(5)).db.inputs == map[1 := TAKEN];
  }

  const TO_TAKEOVER := OPENING + NODES + TAKEOVER

  lemma ReachesTakeover()
    ensures Exec(Init(true, 0), TO_TAKEOVER) == Duo(Committed(TAKEN, 0), CHECKPOINTS, Claimed)
  {
    hide Next, Exec, Init, Duo, Solo, Scene, Committed;
    ReachesBegin();
    RunsNodes();
    TakesOver();
    var s1 := Solo(Db(HELD, 0), 4, [Checkpoint(STARTED, QUERY)], At(QUERY, STARTED));
    Then(Init(true, 0), OPENING, s1, NODES, INTERRUPTED);
    Then(Init(true, 0), OPENING + NODES, INTERRUPTED, TAKEOVER, Duo(Committed(TAKEN, 0), CHECKPOINTS, Claimed));
  }

  /** A worker that asked the seller loses its connection; its lease runs out, and a second worker
      takes the lock and claims the run. Then the first one gives the run back, without the lock and
      without owning it: the second one, which holds both, loses its ownership for good. */
  lemma StaleWorkerRevokesNextOwner()
    ensures var s := Exec(Init(true, 0), TO_TAKEOVER);
            var s' := Next(s, Go(2));
            && 2 in s.workers && !Holds(s, 2) && s.workers[2].owner == Some(Owner(3, 1)) && !WorkerMatches(s, 2)
            && 5 in s.workers && Holds(s, 5) && s.workers[5].owner == Some(Owner(6, 2))
            && Owns(s.db, 1, Owner(6, 2), s.now)
            && StaleOwnership(s', 1, Owner(6, 2)) && !Matches(s'.db, 1, Owner(6, 2))
  {
    hide Exec, Init, Next, Committed;
    ReachesTakeover();
    GivesBack(Duo(Committed(TAKEN, 0), CHECKPOINTS, Claimed));
    assert Committed(TAKEN, 0).inputs == map[1 := TAKEN] by {
      CommittedRuns(TAKEN, 0);
    }
  }

  lemma CommittedRuns(run: Run, cursor: nat)
    ensures Committed(run, cursor).inputs == map[1 := run]
  {
  }

  lemma GivesBack(s: World)
    requires 2 in s.workers && s.workers[2] == Worker(1, 0, Some(Owner(3, 1)), Ending(LAST))
    ensures Next(s, Go(2)).db == RevokeTx(s.db, 1) && Next(s, Go(2)).uuids == s.uuids
  {
    hide RevokeTx, FinalizeTx;
    assert Next(s, Go(2)) == Close(s, 2, LAST);
  }

  // ---------------------------------------------------------------- the second worker resolves the run

  const APPROVED := COMMITTED.(approved := true)
  const PUBLISHED := APPROVED.(reviewCount := 1)
  const APPROVE := Act(5, ANSWER, Some(true), 0)

  function Published(run: Run, cursor: nat): Tables {
    Committed(run, cursor).(messages := {1})
  }

  lemma SecondResumes()
    ensures Next(Next(Duo(Committed(TAKEN, 0), CHECKPOINTS, Claimed), Go(5)), Go(5))
            == Duo(Committed(TAKEN, 0), CHECKPOINTS, At(APPROVAL, COMMITTED))
  {
    var s := Duo(Committed(TAKEN, 0), CHECKPOINTS, Claimed);
    var s1 := Duo(Committed(TAKEN, 0), CHECKPOINTS, Snapped(Some(LAST)));
    assert Next(s, Go(5)) == ReadCheckpoint(s, 5);
    assert Next(s1, Go(5)) == Enter(s1, 5, Some(LAST));
    hide HasEvidence;
  }

  lemma SecondSaves(db: Tables, thread: seq<Checkpoint>, c: Checkpoint)
    ensures Next(Duo(db, thread, Done(c.next, c.state)), Go(5))
            == Duo(db, thread + [c], if c.next == END then Invoked else At(c.next, c.state))
  {
    SecondSaved(db, thread, c);
    DoneSaves(Duo(db, thread, Done(c.next, c.state)), c);
    hide Next, Save;
  }

  lemma DoneSaves(s: World, c: Checkpoint)
    requires 5 in s.workers && s.workers[5].owner.Some? && s.workers[5].pc == Done(c.next, c.state)
    ensures Next(s, Go(5)) == Save(s, 5, c)
  {
    hide RunQuery, RunSemantic, RunCommit, RunPublish, Enter, Claim, Close, Save;
  }

  lemma SecondSaved(db: Tables, thread: seq<Checkpoint>, c: Checkpoint)
    ensures Save(Duo(db, thread, Done(c.next, c.state)), 5, c)
            == Duo(db, thread + [c], if c.next == END then Invoked else At(c.next, c.state))
  {
    ThreadGrows(thread, c);
    hide Shown, Written;
    var pc := if c.next == END then Invoked else At(c.next, c.state);
    assert Both(Done(c.next, c.state))[5 := Worker(1, 0, Some(Owner(6, 2)), pc)] == Both(pc);
  }

  lemma SecondApproves(thread: seq<Checkpoint>)
    ensures Next(Duo(Committed(TAKEN, 0), thread, At(APPROVAL, COMMITTED)), APPROVE)
            == Duo(Committed(TAKEN, 0), thread, Done(PUBLISH, APPROVED))
  {
    hide RunQuery, RunSemantic, RunCommit, RunPublish, Enter, Claim, Close, Save, Committed;
  }

  lemma SecondPublishes(thread: seq<Checkpoint>)
    ensures Next(Duo(Committed(TAKEN, 0), thread, At(PUBLISH, APPROVED)), Go(5))
            == Duo(Published(TAKEN, 0), thread, Done(END, PUBLISHED))
  {
    hide RunQuery, RunSemantic, RunCommit, Enter, Claim, Close, Save;
    var s := Duo(Committed(TAKEN, 0), thread, At(PUBLISH, APPROVED));
    assert PublishTx(s.db, 1, Owner(6, 2), 30000).0 == Published(TAKEN, 0);
  }

  const RESOLVED := Published(TheRun(COMPLETED, Some(6), 2, 60000), 1)

  lemma SecondResolves(thread: seq<Checkpoint>)
    requires thread != [] && thread[|thread| - 1] == Checkpoint(PUBLISHED, END)
    ensures Next(Next(Duo(Published(TAKEN, 0), thread, Invoked), Go(5)), Go(5))
            == Scene(RESOLVED, 7, 30000, thread, map[], First(Ending(LAST)))
  {
    hide RunQuery, RunSemantic, RunCommit, RunPublish, Enter, Claim, Save, Published, Close;
    var s := Duo(Published(TAKEN, 0), thread, Invoked);
    var s1 := Duo(Published(TAKEN, 0), thread, Ending(Checkpoint(PUBLISHED, END)));
    assert Next(s, Go(5)) == s1;
    assert Next(s1, Go(5)) == Close(s1, 5, Checkpoint(PUBLISHED, END));
    SecondCloses(thread);
  }

  lemma SecondCloses(thread: seq<Checkpoint>)
    ensures Close(Duo(Published(TAKEN, 0), thread, Ending(Checkpoint(PUBLISHED, END))), 5, Checkpoint(PUBLISHED, END))
            == Scene(RESOLVED, 7, 30000, thread, map[], First(Ending(LAST)))
  {
    var s := Duo(Published(TAKEN, 0), thread, Ending(Checkpoint(PUBLISHED, END)));
    var s' := Close(s, 5, Checkpoint(PUBLISHED, END));
    assert s'.db.sessions == map[0 := Session(1, 2, 1, 2)];
    assert s'.db.inputs == map[1 := TheRun(COMPLETED, Some(6), 2, 60000)];
    assert s'.workers == First(Ending(LAST)) && s'.locks == map[];
  }

  const RESOLVING := [Go(5), Go(5)] + [APPROVE, Go(5)] + [Go(5), Go(5)] + [Go(5), Go(5)]

  /** The same run, but the second worker is left alone until it has resolved the run: when the
      first one gives it back now, the resolved run waits for a retry instead of being completed. */
  lemma StaleWorkerRevokesResolvedRun()
    ensures var s := Exec(Init(true, 0), TO_TAKEOVER + RESOLVING);
            var s' := Next(s, Go(2));
            && Resolved(s.db, 1) && s.db.inputs[1].status == COMPLETED
            && Resolved(s'.db, 1) && s'.db.inputs[1].status == RETRY_WAIT
  {
    hide Exec, Init, Next;
    ReachesTakeover();
    var thread := Resolving();
    var s := Scene(RESOLVED, 7, 30000, thread, map[], First(Ending(LAST)));
    assert Exec(Init(true, 0), TO_TAKEOVER + RESOLVING) == s by {
      hide Duo, Scene, Committed, RESOLVED;
      Then(Init(true, 0), TO_TAKEOVER, Duo(Committed(TAKEN, 0), CHECKPOINTS, Claimed), RESOLVING, s);
    }
    GivesBack(s);
  }

  lemma Resolving() returns (thread: seq<Checkpoint>)
    ensures Leads(Duo(Committed(TAKEN, 0), CHECKPOINTS, Claimed), RESOLVING,
                  Scene(RESOLVED, 7, 30000, thread, map[], First(Ending(LAST))))
  {
    hide Next, Leads, Scene, Duo, Committed, Published, RESOLVED;
    var two := [Go(5), Go(5)];
    var c1 := CHECKPOINTS + [Checkpoint(APPROVED, PUBLISH)];
    thread := c1 + [Checkpoint(PUBLISHED, END)];
    var s0 := Duo(Committed(TAKEN, 0), CHECKPOINTS, Claimed);
    var s1 := Duo(Committed(TAKEN, 0), CHECKPOINTS, At(APPROVAL, COMMITTED));
    var s2 := Duo(Committed(TAKEN, 0), c1, At(PUBLISH, APPROVED));
    var s3 := Duo(Published(TAKEN, 0), thread, Invoked);
    SecondResumes();
    Two(s0, Go(5), Go(5));
    SecondApproves(CHECKPOINTS);
    SecondSaves(Committed(TAKEN, 0), CHECKPOINTS, Checkpoint(APPROVED, PUBLISH));
    Two(s1, APPROVE, Go(5));
    Then(s0, two, s1, [APPROVE, Go(5)], s2);
    SecondPublishes(c1);
    SecondSaves(Published(TAKEN, 0), c1, Checkpoint(PUBLISHED, END));
    Two(s2, Go(5), Go(5));
    Then(s0, two + [APPROVE, Go(5)], s2, two, s3);
    SecondResolves(thread);
    Two(s3, Go(5), Go(5));
    Then(s0, two + [APPROVE, Go(5)] + two, s3, two, Scene(RESOLVED, 7, 30000, thread, map[], First(Ending(LAST))));
  }

  // ---------------------------------------------------------------- a lost checkpoint

  const LOSING := [Crash(2), LoseCheckpoint(0)] + [Tick(30000), StartWorker(1)] + [Go(5), Go(5)]

  /** The first worker dies, and the saver loses its checkpoint: the next worker finds the evidence
      of the run without a checkpoint, and leaves it alone. */
  lemma LossIsReached()
    ensures var s := Exec(Init(true, 0), OPENING + NODES + LOSING);
            && 5 in s.workers && Holds(s, 5) && s.workers[5].pc == Snapped(None) && HasEvidence(s.db, 1)
            && Next(s, Go(5)) == Exit(s, 5)
  {
    var s2 := LosesCheckpoint();
    var s := s2.(workers := map[5 := Worker(1, 0, Some(Owner(6, 2)), Snapped(None))]);
    assert Exec(Init(true, 0), OPENING + NODES + LOSING) == s by {
      hide Next, Exec, Init, Solo, Scene, Committed;
      ReachesBegin();
      RunsNodes();
      var s1 := Solo(Db(HELD, 0), 4, [Checkpoint(STARTED, QUERY)], At(QUERY, STARTED));
      Then(Init(true, 0), OPENING, s1, NODES, INTERRUPTED);
      Then(Init(true, 0), OPENING + NODES, INTERRUPTED, LOSING, s);
    }
    assert HasEvidence(s.db, 1);
    assert Next(s, Go(5)) == Enter(s, 5, None);
    hide Exec, Init, Next, HasEvidence, OPENING, NODES, LOSING;
  }

  lemma LosesCheckpoint() returns (s: World)
    ensures s.db == Committed(TAKEN, 0) && s.saved == map[] && s.locks == map[0 := 5] && s.now == 30000
    ensures Leads(INTERRUPTED, LOSING, s.(workers := map[5 := Worker(1, 0, Some(Owner(6, 2)), Snapped(None))]))
  {
    var s1 := Next(Next(INTERRUPTED, Crash(2)), LoseCheckpoint(0));
    assert s1.workers == map[] && s1.locks == map[] && s1.saved == map[] && s1.db == Committed(HELD, 0);
    var s2 := Next(Next(s1, Tick(30000)), StartWorker(1));
    assert s2.workers == map[5 := Worker(1, 0, None, Locked)] && s2.locks == map[0 := 5] && s2.uuids == 6;
    var s3 := Next(s2, Go(5));
    s := s3;
    LoserClaims(s2);
    hide Next, Leads, Committed, INTERRUPTED;
    Two(INTERRUPTED, Crash(2), LoseCheckpoint(0));
    Two(s1, Tick(30000), StartWorker(1));
    Two(s2, Go(5), Go(5));
    Then(INTERRUPTED, [Crash(2), LoseCheckpoint(0)], s1, [Tick(30000), StartWorker(1)], s2);
    Then(INTERRUPTED, [Crash(2), LoseCheckpoint(0)] + [Tick(30000), StartWorker(1)], s2, [Go(5), Go(5)],
         Next(Next(s2, Go(5)), Go(5)));
  }

  lemma LoserClaims(s: World)
    requires s.workers == map[5 := Worker(1, 0, None, Locked)] && s.locks == map[0 := 5] && s.uuids == 6
    requires s.db == Committed(HELD, 0) && s.now == 30000 && s.saved == map[]
    ensures var s1 := Next(s, Go(5));
            && s1.db == Committed(TAKEN, 0) && s1.saved == map[] && s1.locks == map[0 := 5] && s1.now == 30000
            && Next(s1, Go(5)) == s1.(workers := map[5 := Worker(1, 0, Some(Owner(6, 2)), Snapped(None))])
  {
    var s1 := Next(s, Go(5));
    assert s1 == Claim(s, 5);
    assert s1.db.inputs == map[1 := TAKEN] && s1.workers == map[5 := Worker(1, 0, Some(Owner(6, 2)), Claimed)];
    assert Next(s1, Go(5)) == ReadCheckpoint(s1, 5);
  }
}
