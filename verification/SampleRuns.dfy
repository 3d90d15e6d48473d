/** Runs from the empty store that reach the situations in which a promise of the code fails. */
module SampleRuns {
  import opened Basics
  import opened Rows
  import opened Load
  import opened JobDesk
  import opened JobFacts
  import opened Host
  import opened Posts
  import opened Membership
  import opened Handlers
  import opened Machine
  import opened Invariant
  import opened Steps
  import opened WriteThrough
  import opened VideoTime
  import opened Reachable
  import opened JobStarts
  import opened Conflicts
  import opened Batches
  import opened TwoCaptions
  import opened Cluster

  // ---- one participant ----

  ghost function S1(): Store { Step(ENV, EMPTY, JoinOp(FirstJoin())).store }

  const ANN_SESSION := Session("conn", "call1", "ann", 1000, false, 0, false)

  /** Ann alone in a call in the channel "town". */
  ghost predicate AnnAlone(s: Store, v: State) {
    && Reload(s, "town") == Some(v) && v.call.id == "call1" && v.call.channelID == "town" && v.call.Host() == "ann"
    && v.call.endAt == 0 && v.call.props.screenID == NONE && v.call.props.videoStartAt == map[]
    && v.sessions == map["conn" := ANN_SESSION] && v.jobs == Jobs(None, None, None)
    && s.sessions == v.sessions && s.jobs == map[] && s.calls == map["call1" := v.call]
  }

  lemma FirstRun()
    ensures Legal(ENV, EMPTY, JoinOp(FirstJoin())) && StoreOk(ENV, S1())
    ensures exists v :: AnnAlone(S1(), v)
  {
    hide RowsOk, JoinBot, LoadJobs, CallOk, DeskOk, OneActive, SessionsLive, JobsOwned, StoreOk, WriteJoin, StartPost;
    hide Join, JoinCall;
    var i := FirstJoin();
    EmptyOk(ENV);
    LoadTracks(ENV, EMPTY, "town");
    assert CallKeys(EMPTY.calls, "town") == {};
    StepKeeps(ENV, EMPTY, JoinOp(i));
    var v := NewState(ENV, i);
    Accepted(ENV, EMPTY, None, v, i);
    JoinWrittenThrough(ENV, EMPTY, i);
    FirstCall(v);
    assert AnnAlone(S1(), JoinedState(ENV, EMPTY, v, i));
  }

  lemma FirstCall(v: State)
    requires v == NewState(ENV, FirstJoin())
    ensures var i := FirstJoin(); var sessions := v.sessions[i.connID := NewSession(v.call.id, i)];
      && sessions == map["conn" := ANN_SESSION] && |sessions| == 1
      && JoinCall(ENV, v.call, sessions, i)
         == v.call.(props := v.call.props.(hosts := ["ann"], participants := {"ann"}))
  {
    var i := FirstJoin();
    var sessions := v.sessions[i.connID := NewSession(v.call.id, i)];
    assert sessions == map["conn" := ANN_SESSION];
    assert !InCall(sessions, NONE);
    assert !OnlyBot(sessions, BOT) by { assert "conn" in sessions; }
    assert Earliest(sessions, BOT, "conn") && sessions["conn"].userID == "ann";
    assert EarliestUser(sessions, BOT, "ann");
  }

  /** What one more step adds to a run. */
  lemma Continue(trace: seq<Store>, ops: seq<Op>, op: Op)
    requires Run(ENV, trace, ops) && Legal(ENV, trace[|ops|], op) && Runnable(op)
    ensures var t := Step(ENV, trace[|ops|], op).store;
      Run(ENV, trace + [t], ops + [op]) && StoreOk(ENV, trace[|ops|]) && StoreOk(ENV, t)
  {
    hide Legal, Step, StoreOk;
    OneMoreStep(ENV, trace, ops, op);
    RunKeeps(ENV, trace, ops, |ops|);
    StepKeeps(ENV, trace[|ops|], op);
  }

  // ---- video_on twice ----

  function VideoOnAt(now: int): Op { VideoOp(From("ann", "conn", "town", now), true) }

  /** Join, video_on after one second, video_on again after three more: of the three seconds of video
      the call still accounts for none. */
  lemma RestartLosesTime()
    ensures exists trace, ops :: Run(ENV, trace, ops) && |ops| == 3 && LosesThree(trace, ops)
  {
    hide StoreOk, Reload, Legal, Step, Charge, Account, AnnAlone;
    FirstRun();
    var v :| AnnAlone(S1(), v);
    var (a, b) := (VideoOnAt(2000), VideoOnAt(5000));
    var s2 := Step(ENV, S1(), a).store;
    FirstVideo(v, s2);
    StartRun(ENV);
    var join := JoinOp(FirstJoin());
    Continue([EMPTY], [], join);
    Continue([EMPTY, S1()], [join], a);
    var s3 := Step(ENV, s2, b).store;
    Continue([EMPTY, S1(), s2], [join, a], b);
    var (trace, ops) := ([EMPTY, S1(), s2, s3], [join, a, b]);
    assert [EMPTY] + [S1()] == [EMPTY, S1()] && [] + [join] == [join];
    assert [EMPTY, S1()] + [s2] == [EMPTY, S1(), s2] && [join] + [a] == [join, a];
    assert [EMPTY, S1(), s2] + [s3] == trace && [join, a] + [b] == ops;
    ThreeCharges(trace, ops);
    Charges(v, s2);
    assert LosesThree(trace, ops);
  }

  ghost predicate LosesThree(trace: seq<Store>, ops: seq<Op>)
    requires 3 == |ops| < |trace|
  {
    WholeSecondClock(ops) && Account(trace, ops, "call1", 3) == Ledger(5, 3, 3)
  }

  lemma FirstVideo(v: State, s2: Store)
    requires StoreOk(ENV, S1()) && AnnAlone(S1(), v) && s2 == Step(ENV, S1(), VideoOnAt(2000)).store
    ensures Legal(ENV, S1(), VideoOnAt(2000)) && Legal(ENV, s2, VideoOnAt(5000))
    ensures s2.sessions == map["conn" := ANN_SESSION.(video := true)]
    ensures "call1" in s2.calls && s2.calls["call1"].props.videoStartAt == map["conn" := 2]
    ensures Reload(s2, "town").Some? && Reload(s2, "town").value.call.id == "call1"
  {
    hide StoreOk, Reload, LoadJobs, UsersOf, S1;
    HandlersWrittenThrough(ENV, S1(), VideoOnAt(2000));
  }

  lemma ThreeCharges(trace: seq<Store>, ops: seq<Op>)
    requires |ops| == 3 && |trace| == 4
    ensures Account(trace, ops, "call1", 3)
      == Charge(Charge(Charge(Ledger(0, 0, 0), trace[0], ops[0], "call1"), trace[1], ops[1], "call1"), trace[2], ops[2],
                "call1")
  {
    hide Charge;
    assert Account(trace, ops, "call1", 1) == Charge(Account(trace, ops, "call1", 0), trace[0], ops[0], "call1");
    assert Account(trace, ops, "call1", 2) == Charge(Account(trace, ops, "call1", 1), trace[1], ops[1], "call1");
  }

  lemma Charges(v: State, s2: Store)
    requires AnnAlone(S1(), v) && s2.sessions == map["conn" := ANN_SESSION.(video := true)]
    requires "call1" in s2.calls && s2.calls["call1"].props.videoStartAt == map["conn" := 2]
    requires Reload(s2, "town").Some? && Reload(s2, "town").value.call.id == "call1"
    ensures var l1 := Charge(Ledger(0, 0, 0), EMPTY, JoinOp(FirstJoin()), "call1");
      var l2 := Charge(l1, S1(), VideoOnAt(2000), "call1");
      Charge(l2, s2, VideoOnAt(5000), "call1") == Ledger(5, 3, 3)
  {
    hide Reload, Charge, Filming, Lost, S1;
    NothingLost(EMPTY, JoinOp(FirstJoin()), "call1");
    NobodyOnVideo(EMPTY.sessions, "call1");
    QuietCharge(0, EMPTY, JoinOp(FirstJoin()), 1);
    NobodyOnVideo(S1().sessions, "call1");
    FirstOnLoses(S1());
    QuietCharge(1, S1(), VideoOnAt(2000), 2);
    AnnOnVideo(s2);
    Charged(Ledger(2, 0, 0), s2, VideoOnAt(5000), "call1", 5000);
  }

  lemma QuietCharge(was: int, s: Store, op: Op, now: int)
    requires Filming(s.sessions, "call1") == {} && Lost(s, op, "call1") == 0
    requires Time(op) == Some(1000 * now) && was <= now
    ensures Charge(Ledger(was, 0, 0), s, op, "call1") == Ledger(now, 0, 0)
  {
    hide Filming, Lost;
  }

  lemma NobodyOnVideo(s: Sessions, id: Id)
    requires forall k | k in s :: !s[k].video
    ensures Filming(s, id) == {}
  {
  }

  lemma FirstOnLoses(s: Store)
    requires Filming(s.sessions, "call1") == {}
    ensures Lost(s, VideoOnAt(2000), "call1") == 0
  {
    hide Reload, Filming;
  }

  lemma AnnOnVideo(s: Store)
    requires s.sessions == map["conn" := ANN_SESSION.(video := true)]
    requires "call1" in s.calls && s.calls["call1"].props.videoStartAt == map["conn" := 2]
    requires Reload(s, "town").Some? && Reload(s, "town").value.call.id == "call1"
    ensures Filming(s.sessions, "call1") == {"conn"} && Lost(s, VideoOnAt(5000), "call1") == 3
  {
    hide Reload;
    assert Filming(s.sessions, "call1") == {"conn"};
  }

  // ---- an answer for another recording ----

  const OFF := [Begin("town", "ann", "recA", 2000), Stop("town", "ann", 3000),
                Begin("town", "ann", "recB", 4000), Finish("town", "jobA", 5000)]

  /** Ann starts recA, stops it, starts recB; the job service's answer to recA is then noted with recB. */
  lemma AnswerForAnother()
    ensures exists trace, ops :: Run(ENV, trace, ops) && |ops| == 5 && ops[1..] == OFF && NotedWithB(trace[5])
  {
    hide StoreOk, Reload, Legal, Step, AnnAlone;
    FirstRun();
    var v :| AnnAlone(S1(), v);
    AnnRecordsNothing(v);
    var join := JoinOp(FirstJoin());
    StartRun(ENV);
    Continue([EMPTY], [], join);
    assert [EMPTY] + [S1()] == [EMPTY, S1()] && [] + [join] == [join];
    var s2 := Step(ENV, S1(), OFF[0]).store;
    var s3 := Step(ENV, s2, OFF[1]).store;
    var s4 := Step(ENV, s3, OFF[2]).store;
    var s5 := Step(ENV, s4, OFF[3]).store;
    JobOpsLegal(S1(), s2, s3, s4);
    Continue([EMPTY, S1()], [join], OFF[0]);
    assert [EMPTY, S1()] + [s2] == [EMPTY, S1(), s2] && [join] + [OFF[0]] == [join] + OFF[..1];
    Continue([EMPTY, S1(), s2], [join] + OFF[..1], OFF[1]);
    assert [EMPTY, S1(), s2] + [s3] == [EMPTY, S1(), s2, s3] && [join] + OFF[..1] + [OFF[1]] == [join] + OFF[..2];
    Continue([EMPTY, S1(), s2, s3], [join] + OFF[..2], OFF[2]);
    assert [EMPTY, S1(), s2, s3] + [s4] == [EMPTY, S1(), s2, s3, s4] && [join] + OFF[..2] + [OFF[2]] == [join]
      + OFF[..3];
    Continue([EMPTY, S1(), s2, s3, s4], [join] + OFF[..3], OFF[3]);
    var (trace, ops) := ([EMPTY, S1(), s2, s3, s4, s5], [join] + OFF);
    assert [EMPTY, S1(), s2, s3, s4] + [s5] == trace && [join] + OFF[..3] + [OFF[3]] == ops;
    ForeignAnswer(ENV, S1(), s2, s3, s4, s5, "town", v, "recA", "recB", "jobA", 2000, 3000, 4000, 5000);
    assert ops[1..] == OFF && NotedWithB(trace[5]);
  }

  predicate NotedWithB(s: Store) {
    && "recA" in s.jobs && s.jobs["recA"].endAt == 3000 && s.jobs["recA"].jobID == NONE
    && "recB" in s.jobs && s.jobs["recB"].endAt == 0 && s.jobs["recB"].jobID == "jobA"
  }

  lemma AnnRecordsNothing(v: State)
    requires AnnAlone(S1(), v)
    ensures Reload(S1(), "town") == Some(v) && v.call.Host() == "ann" && "recA" !in S1().jobs && "recB" !in S1().jobs
    ensures forall k, kind :: !Unended(S1(), k, v.call.id, kind)
  {
    hide Reload;
  }

  lemma JobOpsLegal(s1: Store, s2: Store, s3: Store, s4: Store)
    ensures Legal(ENV, s1, OFF[0]) && Legal(ENV, s2, OFF[1]) && Legal(ENV, s3, OFF[2]) && Legal(ENV, s4, OFF[3])
  {
    hide Reload;
  }

  // ---- screen_on from a session that has left ----

  function BobJoins(): JoinIn { JoinIn("bob", "other", "town", NONE, true, NoRtcd, "call2", 2000, "p2", "t2", "bob") }

  function AnnLeaves(): LeaveIn { LeaveIn("ann", "conn", "conn", "town", 3000, "bob") }

  function AnnShares(): Op { ScreenOp(From("ann", "conn", "town", 4000), true, true) }

  /** Ann and Bob join, Ann leaves, and her screen_on, handled afterwards, leaves an active call whose
      sharer is not among its sessions. */
  lemma SharerWithoutSession()
    ensures exists trace, ops ::
      Run(ENV, trace, ops) && |ops| == 3 && !StoreOk(ENV, Step(ENV, trace[3], AnnShares()).store)
  {
    hide StoreOk, Reload, Legal, Step, AnnAlone;
    FirstRun();
    var v :| AnnAlone(S1(), v);
    var (join, bob, leave) := (JoinOp(FirstJoin()), JoinOp(BobJoins()), LeaveOp(AnnLeaves()));
    var s2 := Step(ENV, S1(), bob).store;
    var s3 := Step(ENV, s2, leave).store;
    SecondRun(v, s2);
    StartRun(ENV);
    Continue([EMPTY], [], join);
    assert [EMPTY] + [S1()] == [EMPTY, S1()] && [] + [join] == [join];
    Continue([EMPTY, S1()], [join], bob);
    assert [EMPTY, S1()] + [s2] == [EMPTY, S1(), s2] && [join] + [bob] == [join, bob];
    Continue([EMPTY, S1(), s2], [join, bob], leave);
    assert [EMPTY, S1(), s2] + [s3] == [EMPTY, S1(), s2, s3] && [join, bob] + [leave] == [join, bob, leave];
    RemovedSharer(ENV, s2, Reload(s2, "town").value, AnnLeaves(), From("ann", "conn", "town", 4000));
    var (trace, ops) := ([EMPTY, S1(), s2, s3], [join, bob, leave]);
    assert trace[3] == s3;
  }

  lemma SecondRun(v: State, s2: Store)
    requires StoreOk(ENV, S1()) && AnnAlone(S1(), v) && s2 == Step(ENV, S1(), JoinOp(BobJoins())).store
    ensures Legal(ENV, S1(), JoinOp(BobJoins())) && Legal(ENV, s2, LeaveOp(AnnLeaves()))
    ensures Reload(s2, "town").Some? && Reload(s2, "town").value.call.props.screenID == NONE
    ensures var s := Reload(s2, "town").value.sessions; "conn" in s && s - {"conn"} != map[]
  {
    hide RowsOk, JoinBot, LoadJobs, CallOk, DeskOk, OneActive, SessionsLive, JobsOwned, StoreOk, WriteJoin, StartPost;
    hide Join, Reload;
    hide NextHost;
    var i := BobJoins();
    LoadTracks(ENV, S1(), "town");
    Accepted(ENV, S1(), Some(v), v, i);
    JoinWrittenThrough(ENV, S1(), i);
    var s := Reload(s2, "town").value.sessions;
    assert "other" in s - {"conn"};
  }

  // ---- two live captions jobs ----

  /** Some run of these operations ends in s. */
  ghost predicate Leading(ops: seq<Op>, s: Store) {
    exists trace :: Run(ENV, trace, ops) && trace[|ops|] == s
  }

  lemma Further(ops: seq<Op>, k: nat, s: Store, t: Store)
    requires k < |ops| && Leading(ops[..k], s) && Legal(ENV, s, ops[k]) && Leads(ENV, s, ops[k], t)
    ensures Leading(ops[..k + 1], t) && StoreOk(ENV, s) && StoreOk(ENV, t)
  {
    hide Legal, Step, StoreOk;
    var trace :| Run(ENV, trace, ops[..k]) && trace[k] == s;
    Continue(trace, ops[..k], ops[k]);
    assert ops[..k] + [ops[k]] == ops[..k + 1] && (trace + [t])[k + 1] == t;
  }

  const FIRST := Start("rec1", "tr1", "lc1", "job1", 2000)
  const SECOND := Start("rec2", "tr2", "Lc2", "job3", 70000)

  function BotJoin(conn: Id, job: Id, now: int): JoinIn {
    JoinIn("bot", conn, "town", job, true, NoRtcd, "call2", now, "p2", "t2", NONE)
  }

  /** Ann starts a recording with transcription and captions; the transcribing bot joins but does not
      report in time; Ann starts again, and a second bot joins. */
  function Restarted(): seq<Op> {
    [JoinOp(FirstJoin())] + StartOps("town", "ann", FIRST)
    + [FinishTrOp("town", "job2", 2000), JoinOp(BotJoin("bot1", "tr1", 3000)), TimeoutOp("town", "job2", 63000)]
    + StartOps("town", "ann", SECOND) + [JoinOp(BotJoin("bot2", "tr2", 71000))]
  }

  /** The second bot leaves: captions are off in memory, a load finds the first job on. The first bot
      leaves in the same batch: its job stays on, where single leaves end it. */
  ghost predicate TwoOn(s: Store) {
    var i := BotLeaves(ENV, "town", "bot2", 80000);
    && Reload(s, "town").Some? && Step(ENV, s, LeaveOp(i)).st.Some?
    && Reload(Step(ENV, s, LeaveOp(i)).store, "town") != Persisted(Step(ENV, s, LeaveOp(i)).st.value)
    && LeavesLegal(ENV, s, "town", BothBots()) && Outlives(ENV, s, "town", BothBots(), "lc1")
  }

  function BothBots(): (items: seq<LeaveIn>)
    ensures forall i | i in items :: i.now != 0
  {
    [BotLeaves(ENV, "town", "bot2", 80000), BotLeaves(ENV, "town", "bot1", 80000)]
  }

  lemma TwoCaptionsJobs()
    ensures exists s :: Leading(Restarted(), s) && TwoOn(s)
  {
    hide StoreOk, Reload, Legal, Step, AnnAlone, Leading, S1, TwoOn, TwoLive, BotSessions;
    hide LeftBehind, FirstOn, WithBot, SameCall;
    FirstRun();
    var v :| AnnAlone(S1(), v);
    StartRun(ENV);
    var ops := Restarted();
    assert Leading(ops[..0], EMPTY) by { assert ops[..0] == []; StartLeads(); }
    FirstLeads(ops);
    Further(ops, 0, EMPTY, S1());
    var s4 := FirstHalf(ops, v);
    var s6, w := MiddlePart(ops, v, s4);
    var s10, x := SecondHalf(ops, s6, w);
    assert ops[..11] == ops;
    BothThere(s10, x);
  }

  lemma BothThere(s: Store, x: State)
    requires StoreOk(ENV, s) && Reload(s, "town") == Some(x)
    requires TwoLive(s, x, "Lc2", "bot2", "lc1", "bot1") && BotSessions(ENV, s, x, "bot2", "bot1")
    ensures TwoOn(s)
  {
    hide StoreOk, Reload, Step, LeavesLegal, TwoLive, BotSessions, Outlives, EndsTwoLoaded;
    OtherReadBack(ENV, s, x, "Lc2", "bot2", "lc1", "bot1", "town", 80000);
    SecondOutlives(ENV, s, x, "Lc2", "bot2", "lc1", "bot1", "town", 80000, BothBots());
  }

  lemma StartLeads()
    ensures Leading([], EMPTY)
  {
    StartRun(ENV);
    assert [EMPTY][0] == EMPTY;
  }

  lemma FirstLeads(ops: seq<Op>)
    requires ops == Restarted()
    ensures ops[0] == JoinOp(FirstJoin()) && Leads(ENV, EMPTY, ops[0], S1())
  {
    hide Step;
  }

  lemma FirstHalf(ops: seq<Op>, v: State) returns (s4: Store)
    requires ops == Restarted() && Leading(ops[..1], S1()) && AnnAlone(S1(), v) && StoreOk(ENV, S1())
    ensures Leading(ops[..5], s4) && StoreOk(ENV, s4) && SameCall(s4, "town", v) && FirstOn(s4, "call1", FIRST, "job2")
    ensures s4.calls.Keys == {"call1"} && s4.sessions == map["conn" := ANN_SESSION]
    ensures s4.jobs.Keys == {"rec1", "tr1", "lc1"}
  {
    hide StoreOk, Reload, Legal, Step, Leading, S1, FirstOn;
    var starts := StartOps("town", "ann", FIRST);
    assert ops[1] == starts[0] && ops[2] == starts[1] && ops[3] == starts[2];
    assert ops[4] == FinishTrOp("town", "job2", 2000);
    var s1 := Step(ENV, S1(), ops[1]).store;
    var s2 := Step(ENV, s1, ops[2]).store;
    var s3 := Step(ENV, s2, ops[3]).store;
    s4 := Step(ENV, s3, ops[4]).store;
    StartLegal(ENV, S1(), s1, s2, "town", "ann", FIRST);
    JobLegal(ENV, s3, ops[4]);
    Further(ops, 1, S1(), s1);
    Further(ops, 2, s1, s2);
    Further(ops, 3, s2, s3);
    Further(ops, 4, s3, s4);
    FirstStart(ENV, S1(), s1, s2, s3, s4, "town", v, FIRST, "job2");
  }

  function BotSession(conn: Id, now: int): Session { Session(conn, "call1", "bot", now, false, 0, false) }

  /** The call after the first bot's timeout: Ann and the bot are in it. */
  ghost predicate WithBot(s: Store, w: State) {
    && Reload(s, "town") == Some(w) && w.call.id == "call1" && w.call.Host() == "ann" && s.calls.Keys == {"call1"}
    && w.sessions == map["conn" := ANN_SESSION, "bot1" := BotSession("bot1", 3000)] && s.sessions == w.sessions
    && s.jobs.Keys == {"rec1", "tr1", "lc1"}
  }

  lemma MiddlePart(ops: seq<Op>, v: State, s4: Store) returns (s6: Store, w: State)
    requires ops == Restarted() && Leading(ops[..5], s4) && AnnAlone(S1(), v) && StoreOk(ENV, s4)
    requires SameCall(s4, "town", v) && FirstOn(s4, "call1", FIRST, "job2") && s4.calls.Keys == {"call1"}
    requires s4.sessions == map["conn" := ANN_SESSION] && s4.jobs.Keys == {"rec1", "tr1", "lc1"}
    ensures Leading(ops[..7], s6) && StoreOk(ENV, s6) && LeftBehind(s6, "call1", "lc1", "bot1") && WithBot(s6, w)
  {
    hide StoreOk, Reload, Legal, Step, Leading, S1, FirstOn, LeftBehind;
    var i := BotJoin("bot1", "tr1", 3000);
    assert ops[5] == JoinOp(i) && ops[6] == TimeoutOp("town", "job2", 63000);
    var s5 := Step(ENV, s4, ops[5]).store;
    s6 := Step(ENV, s5, ops[6]).store;
    BotMaySend(s4, i);
    JobLegal(ENV, s5, ops[6]);
    Further(ops, 5, s4, s5);
    Further(ops, 6, s5, s6);
    Abandoned(ENV, s4, s5, s6, Reload(s4, "town").value, FIRST, "job2", i, 63000);
    w := Reload(s6, "town").value;
  }

  lemma BotMaySend(s: Store, i: JoinIn)
    requires s.calls.Keys == {"call1"} && i.connID !in s.sessions
    requires i.userID == "bot" && i.connID != NONE && i.channelID == "town" && i.newCallID == "call2" && i.now >= 1000
    ensures Legal(ENV, s, JoinOp(i))
  {
    hide Reload;
  }

  lemma SecondHalf(ops: seq<Op>, s6: Store, w: State) returns (s10: Store, x: State)
    requires ops == Restarted() && Leading(ops[..7], s6) && StoreOk(ENV, s6)
    requires LeftBehind(s6, "call1", "lc1", "bot1") && WithBot(s6, w)
    ensures Leading(ops[..11], s10) && StoreOk(ENV, s10) && Reload(s10, "town") == Some(x)
    ensures TwoLive(s10, x, "Lc2", "bot2", "lc1", "bot1") && BotSessions(ENV, s10, x, "bot2", "bot1")
  {
    hide StoreOk, Reload, Legal, Step, Leading, LeftBehind, TwoLive;
    var i := BotJoin("bot2", "tr2", 71000);
    var starts := StartOps("town", "ann", SECOND);
    assert ops[7] == starts[0] && ops[8] == starts[1] && ops[9] == starts[2] && ops[10] == JoinOp(i) by {
      OpsOfRestart(ops);
    }
    var s7 := Step(ENV, s6, ops[7]).store;
    var s8 := Step(ENV, s7, ops[8]).store;
    var s9 := Step(ENV, s8, ops[9]).store;
    s10 := Step(ENV, s9, ops[10]).store;
    StartLegal(ENV, s6, s7, s8, "town", "ann", SECOND);
    BehindIdle(s6, "call1", "lc1", "bot1");
    AfterStart(ENV, s6, s7, s8, s9, "town", w, SECOND);
    BotMaySend(s9, i);
    Further(ops, 7, s6, s7);
    Further(ops, 8, s7, s8);
    Further(ops, 9, s8, s9);
    Further(ops, 10, s9, s10);
    SecondStart(ENV, s6, s7, s8, s9, s10, w, "lc1", "bot1", SECOND, i);
    x := Reload(s10, "town").value;
  }

  lemma OpsOfRestart(ops: seq<Op>)
    requires ops == Restarted()
    ensures var starts := StartOps("town", "ann", SECOND);
      ops[7] == starts[0] && ops[8] == starts[1] && ops[9] == starts[2]
      && ops[10] == JoinOp(BotJoin("bot2", "tr2", 71000))
  {
  }

  // ---- a lock holder that is late ----

  const LIFE := 4_000_000_000

  /** A cluster run in which Ann joins and then two nodes hold her channel's lock at once, so that her
      raised hand is lost. */
  lemma LateHolder()
    ensures exists trace, acts :: ClusterRun(ENV, LIFE, 0, {"town"}, trace, acts) && EndsLate(trace)
  {
    hide StoreOk, Reload, Legal, Step, AnnAlone, Do, Can, HandLost, Lendable;
    FirstRun();
    var v :| AnnAlone(S1(), v);
    var c0 := StartCluster(LIFE, 0, {"town"});
    AnnJoins(c0);
    RunOn(ENV, LIFE, 0, {"town"}, [c0], [], AnnOps());
    var trace := [c0] + States(ENV, c0, AnnOps());
    assert [] + AnnOps() == AnnOps();
    var (f, g) := (From("ann", "conn", "town", 2000), From("ann", "conn", "town", 3000));
    AnnLendable(v, trace[4], f, g);
    LateRun(ENV, LIFE, 0, {"town"}, trace, AnnOps(), "town", f, g, true, 1, 2);
    var late := LateActs("town", f, g, true, 1, 2, trace[4].locks["town"].life);
    var more :| ClusterRun(ENV, LIFE, 0, {"town"}, trace + more, AnnOps() + late)
      && HandLost(more, "town", "conn", 3000, 1, 2);
    SevenMore(more);
    assert EndsLate(trace + more) by { assert (trace + more)[5..] == more; }
  }

  function AnnOps(): seq<Act> {
    [Open(0, One(JoinOp(FirstJoin())), false), Read("town", 0), Write("town", 0), Close("town", 0, false)]
  }

  predicate EndsLate(trace: seq<Cluster>) {
    |trace| == 12 && HandLost(trace[5..], "town", "conn", 3000, 1, 2)
  }

  lemma SevenMore(more: seq<Cluster>)
    requires HandLost(more, "town", "conn", 3000, 1, 2)
    ensures |more| == 7
  {
  }

  /** The lock of the channel is free again. */
  predicate FreeAgain(c: Cluster, s: Store) {
    c.store == s && c.open == map[] && c.locks.Keys == {"town"}
      && c.locks["town"] == Lease.Lease(LIFE, 0, None, map[], {})
  }

  lemma {:induction false} AnnJoins(c0: Cluster)
    requires c0 == StartCluster(LIFE, 0, {"town"}) && Legal(ENV, EMPTY, JoinOp(FirstJoin()))
    ensures ClusterRun(ENV, LIFE, 0, {"town"}, [c0], [])
    ensures CanAll(ENV, c0, AnnOps()) && FreeAgain(States(ENV, c0, AnnOps())[3], S1())
  {
    hide Can, Do, Legal, FreeAgain;
    AnnOpsPossible(c0);
    var acts := AnnOps();
    assert acts[1..][1..] == acts[2..] && acts[2..][1..] == acts[3..] && acts[3..][1..] == [];
    var c1 := Do(ENV, c0, acts[0]);
    var c2 := Do(ENV, c1, acts[1]);
    var c3 := Do(ENV, c2, acts[2]);
    var c4 := Do(ENV, c3, acts[3]);
    assert CanAll(ENV, c4, []) && States(ENV, c4, []) == [];
    assert CanAll(ENV, c3, acts[3..]) && States(ENV, c3, acts[3..]) == [c4];
    assert CanAll(ENV, c2, acts[2..]) && States(ENV, c2, acts[2..]) == [c3, c4];
    assert CanAll(ENV, c1, acts[1..]) && States(ENV, c1, acts[1..]) == [c2, c3, c4];
  }

  lemma AnnOpsPossible(c0: Cluster)
    requires c0 == StartCluster(LIFE, 0, {"town"}) && Legal(ENV, EMPTY, JoinOp(FirstJoin()))
    ensures Can(ENV, c0, AnnOps()[0]) && Can(ENV, Do(ENV, c0, AnnOps()[0]), AnnOps()[1])
    ensures var c2 := Do(ENV, Do(ENV, c0, AnnOps()[0]), AnnOps()[1]);
      && Can(ENV, c2, AnnOps()[2]) && Can(ENV, Do(ENV, c2, AnnOps()[2]), AnnOps()[3])
      && FreeAgain(Do(ENV, Do(ENV, c2, AnnOps()[2]), AnnOps()[3]), S1())
  {
    hide Reload, Legal, Handle;
    SameStep(ENV, EMPTY, JoinOp(FirstJoin()));
    var l := Lease.Lease(LIFE, 0, None, map[], {});
    var held := Lease.Do(l, Lease.TryLock(0, false));
    assert held == Lease.Lease(LIFE, 0, Some(LIFE), map[0 := 0], {0});
    assert Lease.Do(held, Lease.Unlock(0, false)) == l;
  }

  lemma AnnLendable(v: State, c: Cluster, f: From, g: From)
    requires AnnAlone(S1(), v) && StoreOk(ENV, S1()) && FreeAgain(c, S1())
    requires f == From("ann", "conn", "town", 2000) && g == From("ann", "conn", "town", 3000)
    ensures Lendable(ENV, c, "town", f, g, 1, 2)
  {
    hide StoreOk, Reload, Legal, S1, AnnAlone;
    AnnMaySend(v, f, g);
    AnnListed(v);
    NotHeld(c.locks["town"]);
  }

  lemma AnnMaySend(v: State, f: From, g: From)
    requires AnnAlone(S1(), v)
    requires f == From("ann", "conn", "town", 2000) && g == From("ann", "conn", "town", 3000)
    ensures Legal(ENV, S1(), MuteOp(f, true)) && Legal(ENV, S1(), HandOp(g, true))
  {
    hide Reload, S1;
  }

  lemma AnnListed(v: State)
    requires AnnAlone(S1(), v)
    ensures Reload(S1(), "town") == Some(v) && "conn" in v.sessions && v.sessions["conn"].raisedHand == 0
  {
    hide Reload, S1;
  }

  lemma NotHeld(l: Lease.Lease)
    requires l == Lease.Lease(LIFE, 0, None, map[], {})
    ensures l.held == map[] && !l.Live() && l.life > 0
  {
  }
}
