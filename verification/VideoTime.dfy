/** Video time is conserved: what a call has recorded, what its timers still hold and what a
    repeated video_on threw away add up to the person-seconds of video (server/websocket.go:415-447,
    server/session.go:318-327, 460-476). */
module VideoTime {
  import opened Basics
  import opened Rows
  import opened Load
  import opened JobDesk
  import opened JobFacts
  import opened Host
  import opened Membership
  import opened Handlers
  import opened Machine
  import opened Invariant
  import opened Steps
  import opened WriteThrough
  import opened Locality

  /** An account kept beside a run for one call: the time in seconds, the person-seconds during
      which a session had its video on, and the seconds lost to repeated video_on messages. */
  datatype Ledger = Ledger(time: int, total: int, lost: int)

  function Time(op: Op): Option<int> {
    match op
    case JoinOp(i) => Some(i.now)
    case LeaveOp(i) => Some(i.now)
    case ScreenOp(f, _, _) => Some(f.now)
    case VideoOp(f, _) => Some(f.now)
    case MuteOp(f, _) => Some(f.now)
    case HandOp(f, _) => Some(f.now)
    case HostOp(_, _, _, _) => None
    case JobOp(_, _, at) => Some(at)
  }

  function Filming(s: Sessions, id: Id): set<Id> {
    set k | k in s && s[k].callID == id && s[k].video
  }

  /** A video_on from a session whose video is already on. */
  ghost predicate RepeatedOn(s: Store, op: Op, id: Id) {
    && op.VideoOp? && op.on && op.from.conn in Filming(s.sessions, id)
    && Reload(s, Channel(op)).Some? && Reload(s, Channel(op)).value.call.id == id
  }

  ghost function Lost(s: Store, op: Op, id: Id): int {
    if RepeatedOn(s, op, id) && id in s.calls && op.from.conn in s.calls[id].props.videoStartAt
    then op.from.now / 1000 - s.calls[id].props.videoStartAt[op.from.conn] else 0
  }

  /** The account after one step, from the sessions before it and its time alone. */
  ghost function Charge(l: Ledger, s: Store, op: Op, id: Id): Ledger {
    var l1 := match Time(op)
      case None => l
      case Some(now) => Ledger(now / 1000, l.total + (now / 1000 - l.time) * |Filming(s.sessions, id)|, l.lost);
    l1.(lost := l1.lost + Lost(s, op, id))
  }

  predicate OnSecond(op: Op, l: Ledger) {
    Time(op).Some? ==> Time(op).value % 1000 == 0 && Time(op).value >= 1000 * l.time
  }

  /** The account balances; a call that has ended has no timer left. */
  ghost predicate Balanced(s: Store, id: Id, l: Ledger) {
    if id !in s.calls then l.total == 0 && l.lost == 0 else
      var c := s.calls[id];
      && c.stats.videoDuration + Running(c.props.videoStartAt, 1000 * l.time) + l.lost == l.total
      && (c.endAt != 0 ==> c.props.videoStartAt == map[])
  }

  // ---- sums over a map do not depend on the order ----

  function Term(start: int, now: int): int { if start > 0 then SecondsSince(now, start) else 0 }

  lemma {:induction false} RunningRemove(m: map<Id, int>, k: Id, now: int)
    requires k in m
    ensures Running(m, now) == Term(m[k], now) + Running(m - {k}, now)
    decreases |m|
  {
    var j :| j in m && Running(m, now) == Term(m[j], now) + Running(m - {j}, now);
    if j != k {
      RunningRemove(m - {j}, k, now);
      RunningRemove(m - {k}, j, now);
      assert m - {j} - {k} == m - {k} - {j};
    }
  }

  lemma {:induction false} RunningAdvances(m: map<Id, int>, t: int, u: int)
    requires forall k | k in m :: m[k] > 0
    ensures Running(m, 1000 * u) == Running(m, 1000 * t) + (u - t) * |m|
    decreases |m|
  {
    if m != map[] {
      var k :| k in m;
      RunningRemove(m, k, 1000 * t);
      RunningRemove(m, k, 1000 * u);
      RunningAdvances(m - {k}, t, u);
      WholeSeconds(t, m[k]);
      WholeSeconds(u, m[k]);
      assert |m - {k}| == |m| - 1;
      Distribute(u - t, |m - {k}|);
    }
  }

  lemma WholeSeconds(t: int, start: int)
    ensures SecondsSince(1000 * t, start) == t - start
  {
  }

  lemma Distribute(x: int, n: int)
    ensures x * (n + 1) == x * n + x
  {
  }

  lemma NoTimers(now: int)
    ensures Running(map[], now) == 0
  {
  }

  lemma RunningPut(m: map<Id, int>, k: Id, start: int, now: int)
    ensures Running(m[k := start], now) == Term(start, now) + Running(m - {k}, now)
  {
    RunningRemove(m[k := start], k, now);
    assert m[k := start] - {k} == m - {k};
  }

  // ---- what one handler does to the recorded and the running time ----

  ghost function Recorded(c: Call, now: int): int { c.stats.videoDuration + Running(c.props.videoStartAt, now) }

  lemma StopKeepsTime(c: Call, conn: Id, now: int)
    ensures Recorded(StopVideo(c, conn, now), now) == Recorded(c, now)
  {
    if conn in c.props.videoStartAt && c.props.videoStartAt[conn] > 0 {
      RunningRemove(c.props.videoStartAt, conn, now);
    }
  }

  lemma StartKeepsTime(c: Call, conn: Id, now: int)
    requires now >= 1000 && now % 1000 == 0
    requires forall k | k in c.props.videoStartAt :: c.props.videoStartAt[k] > 0
    ensures Recorded(StartVideo(c, conn, now), now)
      == Recorded(c, now) - if conn in c.props.videoStartAt then now / 1000 - c.props.videoStartAt[conn] else 0
  {
    var m := c.props.videoStartAt;
    RunningPut(m, conn, now / 1000, now);
    if conn in m { RunningRemove(m, conn, now); } else { assert m - {conn} == m; }
  }

  /** At the last leave the timers are already empty: the finalising sum adds nothing. */
  lemma LeaveKeepsTime(env: Env, c: Call, s: Sessions, i: LeaveIn)
    requires VideoOk(c, s) && i.origConn in s
    ensures var rest := s - {i.origConn};
      var c1 := DropVideo(DropScreen(c, i.origConn, i.now), s[i.origConn], i.origConn, i.now);
      && (rest == map[] ==> c1.props.videoStartAt == map[])
      && Recorded(LeaveCall(env, c, s[i.origConn], rest, i), i.now) == Recorded(c, i.now)
      && (rest == map[] ==> LeaveCall(env, c, s[i.origConn], rest, i).props.videoStartAt == map[])
  {
    var rest := s - {i.origConn};
    var c0 := DropScreen(c, i.origConn, i.now);
    if s[i.origConn].video { StopKeepsTime(c0, i.origConn, i.now); }
    var c1 := DropVideo(c0, s[i.origConn], i.origConn, i.now);
    assert forall k | k in s && k != i.origConn :: k in rest;
  }

  // ---- one step ----

  lemma FilmingIsTimed(env: Env, s: Store, id: Id)
    requires StoreOk(env, s) && id in s.calls && s.calls[id].endAt == 0
    ensures Filming(s.sessions, id) == s.calls[id].props.videoStartAt.Keys
    ensures |Filming(s.sessions, id)| == |s.calls[id].props.videoStartAt|
    ensures VideoOk(s.calls[id], SessionsOf(s.sessions, id))
  {
  }

  lemma NobodyFilming(env: Env, s: Store, id: Id)
    requires StoreOk(env, s) && (id !in s.calls || s.calls[id].endAt != 0)
    ensures Filming(s.sessions, id) == {}
  {
  }

  /** A step changes the recorded plus running time of the call it touches only by what it loses. */
  lemma StepKeepsTime(env: Env, s: Store, op: Op, now: int)
    requires StoreOk(env, s) && Legal(env, s, op) && Runnable(op)
    requires now % 1000 == 0 && (Time(op).Some? ==> Time(op).value == now)
    requires Reload(s, Channel(op)).Some?
    ensures var c := Reload(s, Channel(op)).value.call; var t := Step(env, s, op).store;
      && c.id in t.calls
      && Recorded(t.calls[c.id], now) + Lost(s, op, c.id) == Recorded(c, now)
      && (t.calls[c.id].endAt != 0 ==> t.calls[c.id].props.videoStartAt == map[])
  {
    hide StoreOk, Reload, Recorded, JobRows, Join, Leave, VideoHandler, UpdateSession, UpdateCall, VideoOk, SessionsOf;
    hide Filming, Lost;
    hide ScreenHandler, ChangeHost, UpdateSession, Touched, Tracks, Legal, CallOk, InCall;
    TouchedCall(env, s, op);
    LoadTracks(env, s, Channel(op));
    StoredActive(env, s, Channel(op));
    var v := Reload(s, Channel(op)).value;
    if !op.VideoOp? { NothingLost(s, op, v.call.id); }
    match op
    case JoinOp(i) => JoinKeepsTime(env, s, i, v, now);
    case LeaveOp(i) => LeaveStepKeepsTime(env, s, i, v);
    case VideoOp(f, on) => VideoStepKeepsTime(env, s, f, on, v);
    case ScreenOp(f, allowed, on) => ScreenKeepsTime(s, f, allowed, on, v, now);
    case MuteOp(f, unmute) => TouchCalls(s, v.sessions, f.conn);
    case HandOp(f, raise) => TouchCalls(s, v.sessions, f.conn);
    case HostOp(ch, requester, isAdmin, newHost) => HostKeepsTime(env, s, ch, requester, isAdmin, newHost, v, now);
    case JobOp(ch, act, at) =>
  }

  lemma NothingLost(s: Store, op: Op, id: Id)
    requires !op.VideoOp?
    ensures Lost(s, op, id) == 0
  {
    hide Reload;
  }

  lemma TouchCalls(s: Store, sessions: Sessions, conn: Id)
    ensures forall u :: UpdateSession(s, u).calls == s.calls
  {
  }

  lemma CallWriteKeepsTime(s: Store, c: Call, d: Call, now: int)
    requires c.id in s.calls && s.calls[c.id] == c && d.id == c.id
    requires d.stats.videoDuration == c.stats.videoDuration && d.props.videoStartAt == c.props.videoStartAt
    requires d.endAt == c.endAt
    ensures c.id in UpdateCall(s, d).calls
    ensures Recorded(UpdateCall(s, d).calls[c.id], now) == Recorded(c, now)
    ensures UpdateCall(s, d).calls[c.id].endAt == c.endAt
  {
  }

  lemma StoredActive(env: Env, s: Store, ch: Id)
    requires StoreOk(env, s) && Reload(s, ch).Some?
    ensures var c := Reload(s, ch).value.call; c.endAt == 0 && c.id in s.calls && s.calls[c.id] == c
  {
    hide StoreOk, Reload;
    LoadTracks(env, s, ch);
  }

  lemma ScreenKeepsTime(s: Store, f: From, allowed: bool, on: bool, v: State, now: int)
    requires v.call.id in s.calls && s.calls[v.call.id] == v.call
    ensures var t := ScreenHandler(s, Some(v), f, allowed, on).store;
      && v.call.id in t.calls && Recorded(t.calls[v.call.id], now) == Recorded(v.call, now)
      && t.calls[v.call.id].endAt == v.call.endAt
  {
    hide Recorded, UpdateCall;
    CallWriteKeepsTime(s, v.call, ScreenHandler(s, Some(v), f, allowed, on).st.value.call, now);
  }

  lemma HostKeepsTime(env: Env, s: Store, ch: Id, requester: Id, isAdmin: bool, newHost: Id, v: State, now: int)
    requires v.call.id in s.calls && s.calls[v.call.id] == v.call
    ensures var t := ChangeHost(env, s, Some(v), ch, requester, isAdmin, newHost).store;
      && v.call.id in t.calls && Recorded(t.calls[v.call.id], now) == Recorded(v.call, now)
      && t.calls[v.call.id].endAt == v.call.endAt
  {
    hide Recorded, UpdateCall, InCall;
    CallWriteKeepsTime(s, v.call, ChangeHost(env, s, Some(v), ch, requester, isAdmin, newHost).st.value.call, now);
  }

  lemma JoinKeepsTime(env: Env, s: Store, i: JoinIn, v: State, now: int)
    requires StoreOk(env, s) && Legal(env, s, JoinOp(i)) && Reload(s, i.channelID) == Some(v)
    ensures var t := Join(env, s, Some(v), i).store;
      && v.call.id in t.calls && t.calls[v.call.id].endAt == 0
      && Recorded(t.calls[v.call.id], now) == Recorded(v.call, now)
  {
    hide CallOk, RowsOk, DeskOk, NextHost, OneActive, SessionsLive, JobsOwned, BotDesk, LoadJobs, WriteJoin;
    hide JoinAllowed, SessionsOf, Join, Reload, StartPost;
    LoadTracks(env, s, i.channelID);
    var st := Reload(s, i.channelID);
    if CanAdmit(env, s, st, v, i) {
      Accepted(env, s, st, v, i);
    } else {
      JoinRefused(env, s, st, v, i);
    }
  }

  lemma LeaveStepKeepsTime(env: Env, s: Store, i: LeaveIn, v: State)
    requires StoreOk(env, s) && Legal(env, s, LeaveOp(i)) && Reload(s, i.channelID) == Some(v) && i.now != 0
    ensures var t := Leave(env, s, Some(v), i).store;
      && v.call.id in t.calls
      && Recorded(t.calls[v.call.id], i.now) == Recorded(v.call, i.now)
      && (t.calls[v.call.id].endAt != 0 ==> t.calls[v.call.id].props.videoStartAt == map[])
  {
    hide StoreOk, CallOk, DeskOk, LoadJobs, LeaveJobs, LeaveCall, LeavePosts, UpdateCall, SessionsOf, Reload, Recorded;
    hide VideoOk, DropVideo, DropScreen;
    LoadTracks(env, s, i.channelID);
    if i.origConn in v.sessions {
      LeaveStored(env, s, Some(v), i);
      LeftCallOk(env, s, Some(v), i);
      FilmingIsTimed(env, s, v.call.id);
      LeaveKeepsTime(env, v.call, v.sessions, i);
    }
  }

  lemma VideoStepKeepsTime(env: Env, s: Store, f: From, on: bool, v: State)
    requires StoreOk(env, s) && Legal(env, s, VideoOp(f, on)) && Reload(s, f.channelID) == Some(v) && f.now % 1000 == 0
    ensures var t := VideoHandler(s, Some(v), f, on).store;
      && v.call.id in t.calls && t.calls[v.call.id].endAt == 0
      && Recorded(t.calls[v.call.id], f.now) + Lost(s, VideoOp(f, on), v.call.id) == Recorded(v.call, f.now)
  {
    hide StoreOk, CallOk, DeskOk, LoadJobs, Reload, Recorded, UpdateSession, Filming, SessionsOf;
    LoadTracks(env, s, f.channelID);
    FilmingIsTimed(env, s, v.call.id);
    var op := VideoOp(f, on);
    if f.conn in v.sessions {
      var c := if on then StartVideo(v.call, f.conn, f.now) else StopVideo(v.call, f.conn, f.now);
      var u := v.sessions[f.conn].(video := on);
      TouchCalls(s, v.sessions, f.conn);
      UpdateCallPuts(UpdateSession(s, u), c);
      if on { StartKeepsTime(v.call, f.conn, f.now); } else { StopKeepsTime(v.call, f.conn, f.now); }
    }
  }

  lemma Charged(l: Ledger, s: Store, op: Op, id: Id, now: int)
    requires OnSecond(op, l) && now == (if Time(op).Some? then Time(op).value else 1000 * l.time)
    ensures var l1 := Charge(l, s, op, id);
      && 1000 * l1.time == now
      && l1.total == l.total + (l1.time - l.time) * |Filming(s.sessions, id)|
      && l1.lost == l.lost + Lost(s, op, id)
  {
    hide Filming, Lost;
  }

  /** One step: the account of every call stays balanced. */
  lemma StepBalances(env: Env, s: Store, op: Op, id: Id, l: Ledger)
    requires StoreOk(env, s) && Legal(env, s, op) && Runnable(op)
    requires Balanced(s, id, l) && OnSecond(op, l)
    ensures Balanced(Step(env, s, op).store, id, Charge(l, s, op, id))
  {
    hide StoreOk, Reload, Step, Legal, Filming, Touched, SessionsOf, Lost, CallOk, Charge, VideoOk, Running, Elsewhere;
    var (t, l1) := (Step(env, s, op).store, Charge(l, s, op, id));
    var now := if Time(op).Some? then Time(op).value else 1000 * l.time;
    Charged(l, s, op, id, now);
    OnlyTouchedLoses(env, s, op, id);
    TouchedCall(env, s, op);
    if id !in s.calls {
      NobodyFilming(env, s, id);
      NoTimers(now);
      if id in t.calls { NewCallBalances(env, s, op, id); }
    } else {
      TimePasses(env, s, id, l, l1.time);
      if id == Touched(s, op) && Reload(s, Channel(op)).Some? {
        StepKeepsTime(env, s, op, now);
      } else {
        UntouchedCall(env, s, op, id);
      }
    }
  }

  /** Between two steps the timers run for exactly the sessions that have their video on. */
  lemma TimePasses(env: Env, s: Store, id: Id, l: Ledger, u: int)
    requires StoreOk(env, s) && id in s.calls && Balanced(s, id, l)
    ensures Recorded(s.calls[id], 1000 * u) + l.lost == l.total + (u - l.time) * |Filming(s.sessions, id)|
  {
    hide StoreOk, Filming, VideoOk, SessionsOf;
    if s.calls[id].endAt == 0 {
      FilmingIsTimed(env, s, id);
      TimersStarted(env, s, id);
      RunningAdvances(s.calls[id].props.videoStartAt, l.time, u);
    } else {
      NobodyFilming(env, s, id);
    }
  }

  lemma TimersStarted(env: Env, s: Store, id: Id)
    requires StoreOk(env, s) && id in s.calls && s.calls[id].endAt == 0
    ensures forall k | k in s.calls[id].props.videoStartAt :: s.calls[id].props.videoStartAt[k] > 0
  {
    assert CallOk(env, s.calls[id], SessionsOf(s.sessions, id));
  }

  lemma UntouchedCall(env: Env, s: Store, op: Op, id: Id)
    requires StoreOk(env, s) && Legal(env, s, op) && Runnable(op) && id in s.calls
    requires !(id == Touched(s, op) && Reload(s, Channel(op)).Some?)
    ensures var t := Step(env, s, op).store; id in t.calls && t.calls[id] == s.calls[id]
  {
    hide StoreOk, Reload, Step, SessionsOf;
    StepElsewhere(env, s, op);
    KnownTouched(env, s, op);
  }

  /** Without an active call no existing call is touched. */
  lemma KnownTouched(env: Env, s: Store, op: Op)
    requires StoreOk(env, s) && Legal(env, s, op)
    ensures Touched(s, op) in s.calls ==> Reload(s, Channel(op)).Some?
  {
    hide CallOk, Reload;
  }

  lemma OnlyTouchedLoses(env: Env, s: Store, op: Op, id: Id)
    requires StoreOk(env, s)
    ensures !(id == Touched(s, op) && Reload(s, Channel(op)).Some?) ==> Lost(s, op, id) == 0
  {
    hide StoreOk, Reload, Filming;
  }

  lemma NewCallBalances(env: Env, s: Store, op: Op, id: Id)
    requires StoreOk(env, s) && Legal(env, s, op) && Runnable(op) && id !in s.calls
    requires id in Step(env, s, op).store.calls
    ensures var c := Step(env, s, op).store.calls[id];
      c.stats.videoDuration == 0 && c.props.videoStartAt == map[] && c.endAt == 0
  {
    hide CallOk, RowsOk, DeskOk, NextHost, OneActive, SessionsLive, JobsOwned, BotDesk, LoadJobs, WriteJoin;
    hide JoinAllowed, SessionsOf, Join, Reload, StartPost;
    hide JobRows, LeaveJobs, DropHost, DropScreen, DropVideo, LeavePosts, UpdateSession, InCall;
    var st := Reload(s, Channel(op));
    LoadTracks(env, s, Channel(op));
    if op.JoinOp? {
      var i := op.join;
      var v := if st.Some? then st.value else NewState(env, i);
      if CanAdmit(env, s, st, v, i) { Accepted(env, s, st, v, i); } else { JoinRefused(env, s, st, v, i); }
    } else if op.MuteOp? || op.HandOp? || op.VideoOp? {
      TouchCalls(s, s.sessions, NONE);
    }
  }

  // ---- runs ----

  ghost function Account(trace: seq<Store>, ops: seq<Op>, id: Id, n: nat): Ledger
    requires n <= |ops| < |trace|
  {
    if n == 0 then Ledger(0, 0, 0) else Charge(Account(trace, ops, id, n - 1), trace[n - 1], ops[n - 1], id)
  }

  /** A clock of whole seconds that never goes back. */
  predicate WholeSecondClock(ops: seq<Op>) {
    && (forall i | 0 <= i < |ops| && Time(ops[i]).Some? :: Time(ops[i]).value % 1000 == 0 && Time(ops[i]).value >= 0)
    && (forall i, j | 0 <= i < j < |ops| && Time(ops[i]).Some? && Time(ops[j]).Some? ::
          Time(ops[i]).value <= Time(ops[j]).value)
  }

  lemma {:induction false} AccountTime(trace: seq<Store>, ops: seq<Op>, id: Id, n: nat)
    requires n <= |ops| < |trace| && WholeSecondClock(ops)
    ensures forall j | n <= j < |ops| && Time(ops[j]).Some? ::
      Time(ops[j]).value >= 1000 * Account(trace, ops, id, n).time
  {
    if n > 0 { AccountTime(trace, ops, id, n - 1); }
  }

  /** Conservation over every run and for every call, whether it goes on or has ended. */
  lemma {:induction false} RunBalances(env: Env, trace: seq<Store>, ops: seq<Op>, id: Id, n: nat)
    requires Run(env, trace, ops) && n <= |ops| && WholeSecondClock(ops)
    ensures Balanced(trace[n], id, Account(trace, ops, id, n))
  {
    hide StoreOk, Legal, Step, Charge, Balanced;
    if n == 0 {
      assert Balanced(trace[0], id, Account(trace, ops, id, 0)) by { EmptyBalances(id); }
    } else {
      RunBalances(env, trace, ops, id, n - 1);
      AccountTime(trace, ops, id, n - 1);
      RunKeeps(env, trace, ops, n - 1);
      StepBalances(env, trace[n - 1], ops[n - 1], id, Account(trace, ops, id, n - 1));
    }
  }

  lemma EmptyBalances(id: Id)
    ensures Balanced(EMPTY, id, Ledger(0, 0, 0))
  {
  }

  // ---- when seconds are lost ----

  /** No timer was started later than the account's time. */
  ghost predicate Punctual(s: Store, id: Id, l: Ledger) {
    id in s.calls ==> forall k | k in s.calls[id].props.videoStartAt :: s.calls[id].props.videoStartAt[k] <= l.time
  }

  /** A timer after a step ran before it or starts with it. */
  ghost predicate TimersFrom(c: Call, d: Call, op: Op) {
    forall k | k in d.props.videoStartAt ::
      || (k in c.props.videoStartAt && d.props.videoStartAt[k] == c.props.videoStartAt[k])
      || (op.VideoOp? && d.props.videoStartAt[k] == op.from.now / 1000)
  }

  lemma StepTimers(env: Env, s: Store, op: Op, t: Store, v: State)
    requires StoreOk(env, s) && Legal(env, s, op) && Runnable(op) && t == Step(env, s, op).store
    requires Reload(s, Channel(op)) == Some(v)
    ensures v.call.id in t.calls && TimersFrom(v.call, t.calls[v.call.id], op)
  {
    hide StoreOk, Reload, JobRows, Join, Leave, VideoHandler, UpdateSession, UpdateCall, SessionsOf, TimersFrom;
    hide ScreenHandler, ChangeHost, Touched, Tracks, Legal, CallOk, InCall, JobStops;
    TouchedCall(env, s, op);
    LoadTracks(env, s, Channel(op));
    StoredActive(env, s, Channel(op));
    SameTimers(v.call, v.call, op);
    match op
    case JoinOp(i) => JoinTimers(env, s, i, v);
    case LeaveOp(i) => LeaveTimers(env, s, i, v);
    case VideoOp(f, on) => VideoTimersFrom(s, f, on, v);
    case ScreenOp(f, allowed, on) => ScreenTimers(s, f, allowed, on, v);
    case MuteOp(f, unmute) => TouchCalls(s, v.sessions, f.conn);
    case HandOp(f, raise) => TouchCalls(s, v.sessions, f.conn);
    case HostOp(ch, requester, isAdmin, newHost) => HostTimers(env, s, ch, requester, isAdmin, newHost, v);
    case JobOp(ch, act, at) =>
  }

  lemma SameTimers(c: Call, d: Call, op: Op)
    requires d.props.videoStartAt == c.props.videoStartAt
    ensures TimersFrom(c, d, op)
  {
  }

  lemma ScreenTimers(s: Store, f: From, allowed: bool, on: bool, v: State)
    requires v.call.id in s.calls && s.calls[v.call.id] == v.call
    ensures var t := ScreenHandler(s, Some(v), f, allowed, on).store;
      v.call.id in t.calls && TimersFrom(v.call, t.calls[v.call.id], ScreenOp(f, allowed, on))
  {
  }

  lemma HostTimers(env: Env, s: Store, ch: Id, requester: Id, isAdmin: bool, newHost: Id, v: State)
    requires v.call.id in s.calls && s.calls[v.call.id] == v.call
    ensures var t := ChangeHost(env, s, Some(v), ch, requester, isAdmin, newHost).store;
      v.call.id in t.calls && TimersFrom(v.call, t.calls[v.call.id], HostOp(ch, requester, isAdmin, newHost))
  {
    hide InCall;
  }

  lemma VideoTimersFrom(s: Store, f: From, on: bool, v: State)
    requires v.call.id in s.calls && s.calls[v.call.id] == v.call
    ensures var t := VideoHandler(s, Some(v), f, on).store;
      v.call.id in t.calls && TimersFrom(v.call, t.calls[v.call.id], VideoOp(f, on))
  {
    TouchCalls(s, v.sessions, f.conn);
  }

  lemma JoinTimers(env: Env, s: Store, i: JoinIn, v: State)
    requires StoreOk(env, s) && Legal(env, s, JoinOp(i)) && Reload(s, i.channelID) == Some(v)
    ensures var t := Join(env, s, Some(v), i).store;
      v.call.id in t.calls && TimersFrom(v.call, t.calls[v.call.id], JoinOp(i))
  {
    hide CallOk, RowsOk, DeskOk, NextHost, OneActive, SessionsLive, JobsOwned, BotDesk, LoadJobs, WriteJoin;
    hide JoinAllowed, SessionsOf;
    hide Join, Reload, StartPost;
    LoadTracks(env, s, i.channelID);
    var st := Reload(s, i.channelID);
    if CanAdmit(env, s, st, v, i) { Accepted(env, s, st, v, i); } else { JoinRefused(env, s, st, v, i); }
  }

  lemma LeaveTimers(env: Env, s: Store, i: LeaveIn, v: State)
    requires StoreOk(env, s) && Legal(env, s, LeaveOp(i)) && Reload(s, i.channelID) == Some(v) && i.now != 0
    ensures var t := Leave(env, s, Some(v), i).store;
      v.call.id in t.calls && TimersFrom(v.call, t.calls[v.call.id], LeaveOp(i))
  {
    hide StoreOk, CallOk, DeskOk, LoadJobs, LeaveJobs, LeaveCall, LeavePosts, UpdateCall, SessionsOf, Reload;
    LoadTracks(env, s, i.channelID);
    if i.origConn in v.sessions {
      LeaveStored(env, s, Some(v), i);
      LeaveCallTimers(env, v.call, v.sessions[i.origConn], v.sessions - {i.origConn}, i);
    }
  }

  lemma LeaveCallTimers(env: Env, c: Call, us: Session, rest: Sessions, i: LeaveIn)
    ensures TimersFrom(c, LeaveCall(env, c, us, rest, i), LeaveOp(i))
  {
    hide NextHost, Running;
  }

  lemma StepPunctual(env: Env, s: Store, op: Op, id: Id, l: Ledger)
    requires StoreOk(env, s) && Legal(env, s, op) && Runnable(op) && OnSecond(op, l) && Punctual(s, id, l)
    ensures Punctual(Step(env, s, op).store, id, Charge(l, s, op, id))
  {
    hide StoreOk, Reload, Step, Legal, Filming, Touched, SessionsOf, Lost, CallOk, Charge;
    var t := Step(env, s, op).store;
    Charged(l, s, op, id, if Time(op).Some? then Time(op).value else 1000 * l.time);
    TouchedCall(env, s, op);
    if id !in s.calls {
      if id in t.calls { NewCallBalances(env, s, op, id); }
    } else if id == Touched(s, op) && Reload(s, Channel(op)).Some? {
      StepTimers(env, s, op, t, Reload(s, Channel(op)).value);
    } else {
      UntouchedCall(env, s, op, id);
    }
  }

  /** A repeated video_on comes in the second in which the timer started: nothing to lose. */
  ghost predicate InTime(s: Store, op: Op, id: Id) {
    RepeatedOn(s, op, id) ==>
      id in s.calls && op.from.conn in s.calls[id].props.videoStartAt
      && op.from.now / 1000 == s.calls[id].props.videoStartAt[op.from.conn]
  }

  lemma LostIff(env: Env, s: Store, op: Op, id: Id, l: Ledger)
    requires StoreOk(env, s) && OnSecond(op, l) && Punctual(s, id, l)
    ensures Lost(s, op, id) >= 0 && (Lost(s, op, id) == 0 <==> InTime(s, op, id))
  {
    hide StoreOk, Reload, VideoOk, SessionsOf;
    if RepeatedOn(s, op, id) {
      LoadTracks(env, s, Channel(op));
      StoredActive(env, s, Channel(op));
      FilmingIsTimed(env, s, id);
    }
  }

  /** Exactly the repeated video_on messages that come in a later second than the first lose time. */
  lemma {:induction false} NothingLostIff(env: Env, trace: seq<Store>, ops: seq<Op>, id: Id, n: nat)
    requires Run(env, trace, ops) && n <= |ops| && WholeSecondClock(ops)
    ensures Punctual(trace[n], id, Account(trace, ops, id, n)) && Account(trace, ops, id, n).lost >= 0
    ensures Account(trace, ops, id, n).lost == 0 <==> forall i | 0 <= i < n :: InTime(trace[i], ops[i], id)
  {
    hide StoreOk, Legal, Step, Charge, InTime, Lost, Punctual;
    if n == 0 {
      StartPunctual(id);
    } else {
      NothingLostIff(env, trace, ops, id, n - 1);
      AccountTime(trace, ops, id, n - 1);
      RunKeeps(env, trace, ops, n - 1);
      var l := Account(trace, ops, id, n - 1);
      StepPunctual(env, trace[n - 1], ops[n - 1], id, l);
      LostIff(env, trace[n - 1], ops[n - 1], id, l);
      ChargeLoses(l, trace[n - 1], ops[n - 1], id);
    }
  }

  lemma ChargeLoses(l: Ledger, s: Store, op: Op, id: Id)
    ensures Charge(l, s, op, id).lost == l.lost + Lost(s, op, id)
  {
    hide Lost, Filming;
  }

  lemma StartPunctual(id: Id)
    ensures Punctual(EMPTY, id, Ledger(0, 0, 0))
  {
  }

  /** A call that has ended recorded all its person-seconds of video exactly when no video_on came in
      a later second while the video was on. */
  lemma EndedVideoDuration(env: Env, trace: seq<Store>, ops: seq<Op>, id: Id, n: nat)
    requires Run(env, trace, ops) && n <= |ops| && WholeSecondClock(ops)
    requires id in trace[n].calls && trace[n].calls[id].endAt != 0
    ensures var (d, total) := (trace[n].calls[id].stats.videoDuration, Account(trace, ops, id, n).total);
      d <= total && (d == total <==> forall i | 0 <= i < n :: InTime(trace[i], ops[i], id))
  {
    hide StoreOk, Legal, Step, Account, InTime, Punctual;
    RunBalances(env, trace, ops, id, n);
    NothingLostIff(env, trace, ops, id, n);
    NoTimers(1000 * Account(trace, ops, id, n).time);
  }

  ghost predicate NoRepeats(trace: seq<Store>, ops: seq<Op>, id: Id)
    requires |ops| < |trace|
  {
    forall i | 0 <= i < |ops| :: !RepeatedOn(trace[i], ops[i], id)
  }

  /** In particular nothing is lost when no video_on comes while the video is on. */
  lemma {:induction false} NothingWasted(trace: seq<Store>, ops: seq<Op>, id: Id, n: nat)
    requires n <= |ops| < |trace| && NoRepeats(trace, ops, id)
    ensures Account(trace, ops, id, n).lost == 0
  {
    hide RepeatedOn;
    if n > 0 { NothingWasted(trace, ops, id, n - 1); }
  }

  /** With a clock of milliseconds each interval is credited within (-0.5 s, 1.5 s) of its length. */
  lemma OneInterval(start: int, now: int)
    requires 0 <= start <= now
    ensures -500 < 1000 * SecondsSince(now, start / 1000) - (now - start) < 1500
  {
  }
}
