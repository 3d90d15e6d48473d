/** What a whole run says about the past: who ever joined a call, and what became of its jobs. */
module History {
  import opened Basics
  import opened Rows
  import opened Load
  import opened JobDesk
  import opened JobFacts
  import opened Host
  import opened Membership
  import opened Machine
  import opened Invariant
  import opened Steps
  import opened WriteThrough

  // ---- who joined ----

  /** The user a step lets into call `id`; the bot does not count. */
  ghost function Joiner(env: Env, s: Store, op: Op, id: Id): set<Id>
    requires Runnable(op)
  {
    var o := Step(env, s, op);
    if op.JoinOp? && op.join.userID != env.botID && o.err.None? && o.st.Some? && o.st.value.call.id == id
    then {op.join.userID} else {}
  }

  ghost function EverJoined(env: Env, trace: seq<Store>, ops: seq<Op>, id: Id, n: nat): set<Id>
    requires n <= |ops| < |trace| && forall i | 0 <= i < |ops| :: Runnable(ops[i])
  {
    if n == 0 then {} else EverJoined(env, trace, ops, id, n - 1) + Joiner(env, trace[n - 1], ops[n - 1], id)
  }

  /** The participants a call has collected: in its properties while it runs, in its own column
      once it has ended. */
  function Collected(c: Call): set<Id> { if c.endAt == 0 then c.props.participants else c.participants }

  ghost predicate Remembers(s: Store, id: Id, people: set<Id>) {
    if id in s.calls then Collected(s.calls[id]) == people else people == {}
  }

  lemma JoinCollects(env: Env, s: Store, i: JoinIn, id: Id, people: set<Id>)
    requires StoreOk(env, s) && Legal(env, s, JoinOp(i)) && Remembers(s, id, people)
    ensures Remembers(Step(env, s, JoinOp(i)).store, id, people + Joiner(env, s, JoinOp(i), id))
  {
    hide CallOk, RowsOk, DeskOk, NextHost, OneActive, SessionsLive, JobsOwned, BotDesk, LoadJobs, WriteJoin;
    hide JoinAllowed, SessionsOf, Join, Reload, StartPost;
    hide JoinedState, JoinCall, Collected, InCall;
    var st := Reload(s, i.channelID);
    LoadTracks(env, s, i.channelID);
    var v := if st.Some? then st.value else NewState(env, i);
    if CanAdmit(env, s, st, v, i) {
      Accepted(env, s, st, v, i);
      CollectedIs(v.call);
      SeatCollects(env, s, st, v, i);
    } else {
      JoinRefused(env, s, st, v, i);
    }
  }

  lemma CollectedIs(c: Call)
    ensures c.endAt == 0 ==> Collected(c) == c.props.participants
  {
  }

  lemma SeatCollects(env: Env, s: Store, st: Option<State>, v: State, i: JoinIn)
    requires CanAdmit(env, s, st, v, i) && CallRowsOk(s.calls)
    ensures var c := JoinedState(env, s, v, i).call;
      && c.id == v.call.id && v.call.endAt == 0 && c.endAt == 0
      && Collected(c) == v.call.props.participants + if i.userID != env.botID then {i.userID} else {}
  {
    hide NextHost, BotDesk, Tracks, JoinAllowed;
  }

  lemma LeaveCollects(env: Env, s: Store, i: LeaveIn, id: Id, people: set<Id>)
    requires StoreOk(env, s) && Legal(env, s, LeaveOp(i)) && Remembers(s, id, people)
    ensures Remembers(Leave(env, s, Reload(s, i.channelID), i).store, id, people)
  {
    hide StoreOk, CallOk, DeskOk, LoadJobs, LeaveJobs, LeaveCall, LeavePosts, UpdateCall, SessionsOf, Reload, Leave;
    LoadTracks(env, s, i.channelID);
    var st := Reload(s, i.channelID);
    if st.Some? && i.origConn in st.value.sessions {
      var v := st.value;
      LeaveStored(env, s, st, i);
      LeftCallOk(env, s, st, i);
      LeaveCollected(env, v.call, v.sessions, i);
    } else {
      RefusedLeave(env, s, st, i);
    }
  }

  lemma RefusedLeave(env: Env, s: Store, st: Option<State>, i: LeaveIn)
    requires i.now != 0 && (st.None? || i.origConn !in st.value.sessions)
    ensures Leave(env, s, st, i).store == s
  {
  }

  lemma LeaveCollected(env: Env, c: Call, s: Sessions, i: LeaveIn)
    requires i.origConn in s && c.endAt == 0 && i.now > 0
    ensures Collected(LeaveCall(env, c, s[i.origConn], s - {i.origConn}, i)) == Collected(c)
  {
  }

  lemma StepCollects(env: Env, s: Store, op: Op, id: Id, people: set<Id>)
    requires StoreOk(env, s) && Legal(env, s, op) && Runnable(op) && Remembers(s, id, people)
    ensures Remembers(Step(env, s, op).store, id, people + Joiner(env, s, op, id))
  {
    hide StoreOk, Reload, JobRows, Join, Leave, UpdateSession, SessionsOf, InCall, UpdateCall, Remembers;
    var t := Step(env, s, op).store;
    LoadTracks(env, s, Channel(op));
    match op
    case JoinOp(i) => JoinCollects(env, s, i, id, people);
    case LeaveOp(i) =>
      NobodyJoins(env, s, op, id, people);
      LeaveCollects(env, s, i, id, people);
    case _ =>
      NobodyJoins(env, s, op, id, people);
      CollectedElsewhere(env, s, op);
      SameCollected(s, t, id, people);
  }

  lemma NobodyJoins(env: Env, s: Store, op: Op, id: Id, people: set<Id>)
    requires Runnable(op) && !op.JoinOp?
    ensures people + Joiner(env, s, op, id) == people
  {
  }

  ghost predicate SamePeople(a: map<Id, Call>, b: map<Id, Call>) {
    forall id :: (id in a <==> id in b) && (id in a ==> Collected(a[id]) == Collected(b[id]))
  }

  lemma SameCollected(s: Store, t: Store, id: Id, people: set<Id>)
    requires SamePeople(s.calls, t.calls) && Remembers(s, id, people)
    ensures Remembers(t, id, people)
  {
  }

  lemma CollectedElsewhere(env: Env, s: Store, op: Op)
    requires StoreOk(env, s) && Legal(env, s, op) && Runnable(op) && !op.JoinOp? && !op.LeaveOp?
    ensures SamePeople(s.calls, Step(env, s, op).store.calls)
  {
    hide StoreOk, Step, SamePeople, Legal;
    if op.HostOp? || op.ScreenOp? { CollectedAtCall(env, s, op); } else { CollectedAtSession(env, s, op); }
  }

  lemma CollectedAtCall(env: Env, s: Store, op: Op)
    requires StoreOk(env, s) && Legal(env, s, op) && Runnable(op) && (op.HostOp? || op.ScreenOp?)
    ensures SamePeople(s.calls, Step(env, s, op).store.calls)
  {
    hide StoreOk, Reload, JobRows, SessionsOf, InCall, LoadJobs, DeskOk;
    LoadTracks(env, s, Channel(op));
  }

  lemma CollectedAtSession(env: Env, s: Store, op: Op)
    requires StoreOk(env, s) && Legal(env, s, op) && Runnable(op) && !op.JoinOp? && !op.LeaveOp?
    requires !op.HostOp? && !op.ScreenOp?
    ensures SamePeople(s.calls, Step(env, s, op).store.calls)
  {
    hide StoreOk, Reload, JobRows, SessionsOf, InCall, LoadJobs, DeskOk;
    LoadTracks(env, s, Channel(op));
  }

  /** In every run and for every call: while it goes on its participants are exactly the users,
      other than the bot, who were ever let in; and that is the list saved when it ends. */
  lemma {:induction false} RunRemembers(env: Env, trace: seq<Store>, ops: seq<Op>, id: Id, n: nat)
    requires Run(env, trace, ops) && n <= |ops|
    ensures Remembers(trace[n], id, EverJoined(env, trace, ops, id, n))
  {
    hide StoreOk, Legal, Step, Joiner;
    if n > 0 {
      RunRemembers(env, trace, ops, id, n - 1);
      RunKeeps(env, trace, ops, n - 1);
      StepCollects(env, trace[n - 1], ops[n - 1], id, EverJoined(env, trace, ops, id, n - 1));
    }
  }

  /** The participants saved with an ended call, spelled out. */
  lemma EndedParticipants(env: Env, trace: seq<Store>, ops: seq<Op>, id: Id, n: nat)
    requires Run(env, trace, ops) && n <= |ops| && id in trace[n].calls && trace[n].calls[id].endAt != 0
    ensures trace[n].calls[id].participants == EverJoined(env, trace, ops, id, n)
  {
    hide StoreOk, Legal, Step, Joiner;
    RunRemembers(env, trace, ops, id, n);
  }

  /** No call ever has more sessions than a limit allows. */
  lemma NeverOverfull(env: Env, trace: seq<Store>, ops: seq<Op>, id: Id, n: nat)
    requires Run(env, trace, ops) && n <= |ops| && env.maxParticipants > 0
    ensures |SessionsOf(trace[n].sessions, id)| <= env.maxParticipants
  {
    hide Legal, Step;
    RunKeeps(env, trace, ops, n);
    var s := trace[n];
    if id in s.calls && s.calls[id].endAt == 0 {
      assert CallOk(env, s.calls[id], SessionsOf(s.sessions, id));
    } else {
      assert SessionsOf(s.sessions, id) == map[];
    }
  }

  // ---- jobs ----

  lemma StepAdvances(env: Env, s: Store, op: Op)
    requires StoreOk(env, s) && Legal(env, s, op) && Runnable(op)
    ensures Advances(s.jobs, Step(env, s, op).store.jobs)
  {
    hide StoreOk, Reload, JobRows, Join, Leave, SessionsOf, InCall, Advances, LoadJobs, Tracks;
    StandStill(s.jobs);
    LoadTracks(env, s, Channel(op));
    match op
    case JoinOp(i) => JoinAdvances(env, s, i);
    case LeaveOp(i) => LeaveAdvances(env, s, i);
    case JobOp(ch, act, at) => JobAdvances(env, s, ch, act, at);
    case _ =>
  }

  lemma StandStill(jobs: map<Id, Job>)
    ensures Advances(jobs, jobs)
  {
  }

  lemma JoinAdvances(env: Env, s: Store, i: JoinIn)
    requires StoreOk(env, s) && Legal(env, s, JoinOp(i))
    ensures Advances(s.jobs, Join(env, s, Reload(s, i.channelID), i).store.jobs)
  {
    hide CallOk, RowsOk, DeskOk, NextHost, OneActive, SessionsLive, JobsOwned, BotDesk, LoadJobs, WriteJoin;
    hide JoinAllowed, SessionsOf, Join, Reload, StartPost, Advances;
    var st := Reload(s, i.channelID);
    LoadTracks(env, s, i.channelID);
    StandStill(s.jobs);
    var v := if st.Some? then st.value else NewState(env, i);
    if CanAdmit(env, s, st, v, i) {
      Accepted(env, s, st, v, i);
      BotDeskKeeps(env, s, st, v, i);
    } else {
      JoinRefused(env, s, st, v, i);
    }
  }

  lemma LeaveAdvances(env: Env, s: Store, i: LeaveIn)
    requires StoreOk(env, s) && Legal(env, s, LeaveOp(i)) && i.now != 0
    ensures Advances(s.jobs, Leave(env, s, Reload(s, i.channelID), i).store.jobs)
  {
    hide StoreOk, CallOk, DeskOk, LoadJobs, LeaveJobs, LeaveCall, LeavePosts, UpdateCall, SessionsOf, Reload, Leave;
    hide Advances, LeftDesk;
    LoadTracks(env, s, i.channelID);
    StandStill(s.jobs);
    var st := Reload(s, i.channelID);
    if st.Some? && i.origConn in st.value.sessions {
      LeaveStored(env, s, st, i);
      LeftDeskKeeps(env, s, st.value, i);
    } else {
      RefusedLeave(env, s, st, i);
    }
  }

  lemma JobAdvances(env: Env, s: Store, ch: Id, act: JobAct, at: int)
    requires StoreOk(env, s) && Legal(env, s, JobOp(ch, act, at))
    ensures Advances(s.jobs, Step(env, s, JobOp(ch, act, at)).store.jobs)
  {
    hide CallOk, RowsOk, DeskOk, OneActive, SessionsLive, JobsOwned, CallRowsOk, LoadJobs, JobRows, SessionsOf, Reload;
    hide Advances;
    LoadTracks(env, s, ch);
    StandStill(s.jobs);
    var st := Reload(s, ch);
    if st.Some? { JobRowsKeep(s.jobs, st.value.call, act, Ctx(ch, env.botID, at)); }
  }

  lemma AdvancesTransitive(a: map<Id, Job>, b: map<Id, Job>, c: map<Id, Job>)
    requires Advances(a, b) && Advances(b, c)
    ensures Advances(a, c)
  {
  }

  /** Between any two moments of a run no job row disappears, an ended job stays ended, and a
      recording or transcription keeps the first end time and the first start time it got. */
  lemma {:induction false} RunAdvances(env: Env, trace: seq<Store>, ops: seq<Op>, m: nat, n: nat)
    requires Run(env, trace, ops) && m <= n <= |ops|
    ensures Advances(trace[m].jobs, trace[n].jobs)
    decreases n - m
  {
    hide StoreOk, Legal, Step, Advances;
    if m == n {
      StandStill(trace[n].jobs);
    } else {
      RunAdvances(env, trace, ops, m, n - 1);
      RunKeeps(env, trace, ops, n - 1);
      StepAdvances(env, trace[n - 1], ops[n - 1]);
      AdvancesTransitive(trace[m].jobs, trace[n - 1].jobs, trace[n].jobs);
    }
  }

  /** At every moment a call has at most one live recording and one live transcription, though
      the lock is released between the two halves of a start. */
  lemma OneJobAtATime(env: Env, trace: seq<Store>, ops: seq<Op>, n: nat, j: Id, k: Id, callID: Id, kind: Kind)
    requires Run(env, trace, ops) && n <= |ops| && kind != Captioning
    requires LiveRow(trace[n].jobs, j, callID, kind) && LiveRow(trace[n].jobs, k, callID, kind)
    ensures j == k
  {
    hide Legal, Step, CallOk;
    RunKeeps(env, trace, ops, n);
  }
}
