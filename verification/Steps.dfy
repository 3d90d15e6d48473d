/** Every handler keeps the store invariant and leaves an in-memory state the store agrees with;
    so do all steps and all runs. */
module Steps {
  import opened Basics
  import opened Rows
  import opened Load
  import opened JobDesk
  import opened JobFacts
  import opened JobRuns
  import opened Host
  import opened Posts
  import opened Membership
  import opened Handlers
  import opened Machine
  import opened Invariant

  // ---- leaving ----

  lemma LeaveKeeps(env: Env, s: Store, st: Option<State>, i: LeaveIn)
    requires StoreOk(env, s) && Tracks(s, i.channelID, st) && Legal(env, s, LeaveOp(i))
    ensures var o := Leave(env, s, st, i); StoreOk(env, o.store) && Tracks(o.store, i.channelID, o.st)
  {
    hide CallOk, RowsOk, DeskOk, LeaveJobs, LeaveCall, LeavePosts, UpdateCall, CallRowsOk, OneActive, SessionsLive;
    hide JobsOwned;
    if st.Some? && i.origConn in st.value.sessions {
      LeaveStored(env, s, st, i);
    }
  }

  ghost function LeftDesk(env: Env, s: Store, v: State, i: LeaveIn): Desk
    requires i.now != 0
  {
    LeaveJobs(Desk(s.jobs, v.jobs, []), i.origConn, i.connID,
              OnlyUserLeft(v.sessions - {i.origConn}, env.botID), Ctx(i.channelID, env.botID, i.now))
  }

  /** What an accepted leave stores and holds in memory. */
  lemma LeaveStored(env: Env, s: Store, st: Option<State>, i: LeaveIn)
    requires StoreOk(env, s) && Tracks(s, i.channelID, st) && Legal(env, s, LeaveOp(i))
    requires st.Some? && i.origConn in st.value.sessions
    ensures var o := Leave(env, s, st, i);
      var v := st.value;
      var c := LeaveCall(env, v.call, v.sessions[i.origConn], v.sessions - {i.origConn}, i);
      && o.store == Store(s.calls[c.id := c], s.sessions - {i.origConn}, LeftDesk(env, s, v, i).rows)
      && o.st == Some(State(c, v.sessions - {i.origConn}, LeftDesk(env, s, v, i).jobs))
      && SameIdentity(v.call, c)
      && StoreOk(env, o.store) && Tracks(o.store, i.channelID, o.st)
  {
    hide StoreOk, CallOk, RowsOk, DeskOk, LeaveJobs, LeaveCall, LeavePosts, UpdateCall, SessionsOf;
    LeftCallOk(env, s, st, i);
    var v := st.value;
    var c := LeaveCall(env, v.call, v.sessions[i.origConn], v.sessions - {i.origConn}, i);
    UpdateCallPuts(DeleteSession(s, i.origConn).(jobs := LeftDesk(env, s, v, i).rows), c);
    LeftStoreOk(env, s, st, i);
  }

  lemma LeftCallOk(env: Env, s: Store, st: Option<State>, i: LeaveIn)
    requires StoreOk(env, s) && Tracks(s, i.channelID, st) && Legal(env, s, LeaveOp(i))
    requires st.Some? && i.origConn in st.value.sessions
    ensures var v := st.value;
      var rest := v.sessions - {i.origConn};
      var c := LeaveCall(env, v.call, v.sessions[i.origConn], rest, i);
      && v.call.endAt == 0 && v.call.id in s.calls && v.call.IsValid() && v.call.startAt > 0
      && SameIdentity(v.call, c)
      && (if rest == map[] then c.endAt == i.now else CallOk(env, c, rest) && c.endAt == 0)
      && SessionRowsOk(c, rest)
  {
    hide CallOk, RowsOk, DeskOk, LeaveCall, SessionsOf, KeepsRows, OneActive, SessionsLive, JobsOwned;
    var v := st.value;
    ReloadFinds(env, s, i.channelID, st);
    LeavingUser(env, s, st, i);
    LeaveCallOk(env, v.call, v.sessions, i);
    var rest := v.sessions - {i.origConn};
    var c := LeaveCall(env, v.call, v.sessions[i.origConn], rest, i);
    CallOkBasics(env, v.call, v.sessions);
    if rest != map[] { CallOkBasics(env, c, rest); }
  }

  lemma LeftStoreOk(env: Env, s: Store, st: Option<State>, i: LeaveIn)
    requires StoreOk(env, s) && Tracks(s, i.channelID, st) && Legal(env, s, LeaveOp(i))
    requires st.Some? && i.origConn in st.value.sessions
    ensures var v := st.value;
      var rest := v.sessions - {i.origConn};
      var c := LeaveCall(env, v.call, v.sessions[i.origConn], rest, i);
      var d := LeftDesk(env, s, v, i);
      var t := Store(s.calls[c.id := c], s.sessions - {i.origConn}, d.rows);
      StoreOk(env, t) && Tracks(t, i.channelID, Some(State(c, rest, d.jobs)))
  {
    hide CallOk, RowsOk, DeskOk, LeaveCall, LeftDesk, SessionsOf, KeepsRows, OthersSame, JobsOwned, CallRowsOk;
    hide SessionsLive, SessionRowsOk;
    var v := st.value;
    var rest := v.sessions - {i.origConn};
    LeftCallOk(env, s, st, i);
    LeavingUser(env, s, st, i);
    RemovedSession(s.sessions, v.call.id, i.origConn);
    LeftDeskKeeps(env, s, v, i);
    var c := LeaveCall(env, v.call, v.sessions[i.origConn], rest, i);
    CallReplaced(env, s, Store(s.calls[c.id := c], s.sessions - {i.origConn}, LeftDesk(env, s, v, i).rows), c);
  }

  lemma LeavingUser(env: Env, s: Store, st: Option<State>, i: LeaveIn)
    requires StoreOk(env, s) && Tracks(s, i.channelID, st) && Legal(env, s, LeaveOp(i))
    requires st.Some? && i.origConn in st.value.sessions
    ensures i.origConn in s.sessions && s.sessions[i.origConn] == st.value.sessions[i.origConn]
    ensures st.value.sessions[i.origConn].userID == i.userID && s.sessions[i.origConn].callID == st.value.call.id
  {
    hide CallOk, RowsOk, DeskOk;
  }

  lemma LeftDeskKeeps(env: Env, s: Store, v: State, i: LeaveIn)
    requires DeskOk(Desk(s.jobs, v.jobs, []), v.call.id) && i.now != 0 && i.channelID != NONE && env.botID != NONE
    ensures var d := LeftDesk(env, s, v, i);
      DeskOk(Desk(d.rows, d.jobs, []), v.call.id) && KeepsRows(s.jobs, d.rows, v.call.id)
  {
    hide LeaveJobs, RowsOk;
    LeaveJobsKeeps(Desk(s.jobs, v.jobs, []), v.call.id, i.origConn, i.connID,
                   OnlyUserLeft(v.sessions - {i.origConn}, env.botID), Ctx(i.channelID, env.botID, i.now));
    StopsAside(LeftDesk(env, s, v, i), v.call.id);
  }

  // ---- handlers of an ongoing call ----

  /** A handler that rewrites the call and some of its sessions. */
  lemma HandledKeeps(env: Env, s: Store, ch: Id, st: Option<State>, c: Call, sessions: Sessions)
    requires StoreOk(env, s) && Tracks(s, ch, st) && Ongoing(st)
    requires SameIdentity(st.value.call, c) && CallOk(env, c, sessions) && sessions.Keys == st.value.sessions.Keys
    ensures var t := s.(calls := s.calls[c.id := c], sessions := s.sessions + sessions);
      StoreOk(env, t) && Tracks(t, ch, Some(st.value.(call := c, sessions := sessions)))
  {
    hide CallOk, RowsOk, DeskOk, OneActive, JobsOwned, CallRowsOk, SessionsOf;
    StepCallKept(env, s, st.value, c, sessions);
    CallOkBasics(env, c, sessions);
    MergedSessions(s.sessions, sessions, c.id);
  }

  /** Rewriting one session row in place. */
  lemma OneSession(s: Store, v: State, conn: Id, u: Session)
    requires v.sessions == SessionsOf(s.sessions, v.call.id) && conn in v.sessions
    requires u.id == conn && v.sessions[conn].id == conn
    requires u.callID == v.sessions[conn].callID && u.userID == v.sessions[conn].userID
    requires u.joinAt == v.sessions[conn].joinAt
    ensures UpdateSession(s, u) == s.(sessions := s.sessions + v.sessions[conn := u])
  {
    UpdateSessionPuts(s, u);
    assert s.sessions[conn := u] == s.sessions + v.sessions[conn := u];
  }

  lemma NoSession(s: Store, v: State)
    requires v.sessions == SessionsOf(s.sessions, v.call.id)
    ensures s.sessions + v.sessions == s.sessions
  {
    assert s.sessions + v.sessions == s.sessions;
  }

  /** The users of a call decide about hosts and participants; other session fields do not. */
  lemma SameUsers(bot: Id, c: Call, s: Sessions, conn: Id, u: Session)
    requires conn in s && u.userID == s[conn].userID
    ensures forall x :: InCall(s[conn := u], x) <==> InCall(s, x)
    ensures HostOk(bot, c, s) ==> HostOk(bot, c, s[conn := u])
    ensures PeopleOk(bot, c, s) ==> PeopleOk(bot, c, s[conn := u])
  {
    InCallGrows(s, s[conn := u], conn);
    var s1 := s[conn := u];
    assert OnlyBot(s1, bot) <==> OnlyBot(s, bot) by {
      assert forall k | k in s :: s1[k].userID == s[k].userID;
    }
  }

  lemma ScreenKeeps(env: Env, s: Store, st: Option<State>, f: From, allowed: bool, on: bool)
    requires StoreOk(env, s) && Tracks(s, f.channelID, st) && (st.Some? ==> Ongoing(st)) && Clock(f.now)
    requires on && st.Some? ==> f.conn in st.value.sessions
    ensures var o := ScreenHandler(s, st, f, allowed, on); StoreOk(env, o.store) && Tracks(o.store, f.channelID, o.st)
  {
    hide RowsOk, DeskOk, OneActive, JobsOwned, SessionsLive, SessionsOf, HostOk, PeopleOk, CallOk, VideoOk;
    var o := ScreenHandler(s, st, f, allowed, on);
    if o.err.None? {
      ReloadFinds(env, s, f.channelID, st);
      var c := o.st.value.call;
      ScreenCallOk(env, st.value, c, f, on);
      UpdateCallPuts(s, c);
      NoSession(s, st.value);
      HandledKeeps(env, s, f.channelID, st, c, st.value.sessions);
    }
  }

  lemma ScreenCallOk(env: Env, v: State, c: Call, f: From, on: bool)
    requires CallOk(env, v.call, v.sessions) && Clock(f.now)
    requires var o := ScreenHandler(EMPTY, Some(v), f, true, on); o.err.None? && c == o.st.value.call
    requires on ==> f.conn in v.sessions
    ensures SameIdentity(v.call, c) && CallOk(env, c, v.sessions)
  {
  }

  lemma VideoKeeps(env: Env, s: Store, st: Option<State>, f: From, on: bool)
    requires StoreOk(env, s) && Tracks(s, f.channelID, st) && (st.Some? ==> Ongoing(st)) && Clock(f.now)
    ensures var o := VideoHandler(s, st, f, on); StoreOk(env, o.store) && Tracks(o.store, f.channelID, o.st)
  {
    hide RowsOk, DeskOk, OneActive, JobsOwned, SessionsLive, SessionsOf, CallOk, UpdateSession;
    var o := VideoHandler(s, st, f, on);
    if o.err.None? {
      ReloadFinds(env, s, f.channelID, st);
      var (c, sessions) := (o.st.value.call, o.st.value.sessions);
      VideoCallOk(env, st.value, f, on);
      CallOkBasics(env, c, sessions);
      OneSession(s, st.value, f.conn, sessions[f.conn]);
      UpdateCallPuts(UpdateSession(s, sessions[f.conn]), c);
      HandledKeeps(env, s, f.channelID, st, c, sessions);
    }
  }

  lemma VideoCallOk(env: Env, v: State, f: From, on: bool)
    requires CallOk(env, v.call, v.sessions) && Clock(f.now) && f.conn in v.sessions
    ensures var w := VideoHandler(EMPTY, Some(v), f, on).st.value;
      SameIdentity(v.call, w.call) && CallOk(env, w.call, w.sessions) && w.sessions.Keys == v.sessions.Keys
      && w.sessions[f.conn].id == f.conn
  {
    hide HostOk, PeopleOk, InCall, UpdateCall, UpdateSession, UsersOf, VideoOk;
    VideoTimers(v.call, v.sessions, f, on);
    var w := VideoHandler(EMPTY, Some(v), f, on).st.value;
    HostFields(env.botID, v.call, w.call, v.sessions);
    SameUsers(env.botID, w.call, v.sessions, f.conn, w.sessions[f.conn]);
    assert w.sessions.Keys == v.sessions.Keys;
    assert |w.sessions| == |w.sessions.Keys|;
  }

  /** The timers keep naming exactly the sessions with their video on. */
  lemma VideoTimers(c: Call, s: Sessions, f: From, on: bool)
    requires VideoOk(c, s) && Clock(f.now) && f.conn in s
    ensures VideoOk(if on then StartVideo(c, f.conn, f.now)
                    else StopVideo(c, f.conn, f.now), s[f.conn := s[f.conn].(video := on)])
  {
  }

  lemma HostFields(bot: Id, c: Call, d: Call, s: Sessions)
    requires c.props.hosts == d.props.hosts && c.props.hostLocked == d.props.hostLocked
    requires c.props.participants == d.props.participants
    ensures HostOk(bot, c, s) <==> HostOk(bot, d, s)
    ensures PeopleOk(bot, c, s) <==> PeopleOk(bot, d, s)
  {
  }

  /** Muting and raising a hand rewrite one session and nothing else. */
  lemma TouchKeeps(env: Env, s: Store, ch: Id, st: Option<State>, conn: Id, u: Session)
    requires StoreOk(env, s) && Tracks(s, ch, st) && Ongoing(st) && conn in st.value.sessions
    requires u.(unmuted := false, raisedHand := 0) == st.value.sessions[conn].(unmuted := false, raisedHand := 0)
    ensures var w := st.value.(sessions := st.value.sessions[conn := u]);
      StoreOk(env, UpdateSession(s, u)) && Tracks(UpdateSession(s, u), ch, Some(w))
  {
    hide RowsOk, DeskOk, OneActive, JobsOwned, SessionsLive, SessionsOf, CallOk, UpdateSession;
    ReloadFinds(env, s, ch, st);
    TouchCallOk(env, st.value, conn, u);
    CallOkBasics(env, st.value.call, st.value.sessions);
    OneSession(s, st.value, conn, u);
    HandledKeeps(env, s, ch, st, st.value.call, st.value.sessions[conn := u]);
    assert s.calls[st.value.call.id := st.value.call] == s.calls;
  }

  lemma TouchCallOk(env: Env, v: State, conn: Id, u: Session)
    requires CallOk(env, v.call, v.sessions) && conn in v.sessions
    requires u.(unmuted := false, raisedHand := 0) == v.sessions[conn].(unmuted := false, raisedHand := 0)
    ensures CallOk(env, v.call, v.sessions[conn := u]) && v.sessions[conn := u].Keys == v.sessions.Keys
  {
    hide HostOk, PeopleOk;
    SameUsers(env.botID, v.call, v.sessions, conn, u);
    assert v.sessions[conn := u].Keys == v.sessions.Keys;
    assert |v.sessions[conn := u]| == |v.sessions[conn := u].Keys|;
  }

  lemma HostKeeps(env: Env, s: Store, ch: Id, st: Option<State>, requester: Id, isAdmin: bool, newHost: Id)
    requires StoreOk(env, s) && Tracks(s, ch, st) && (st.Some? ==> Ongoing(st)) && env.botID != NONE
    ensures var o := ChangeHost(env, s, st, ch, requester, isAdmin, newHost);
      StoreOk(env, o.store) && Tracks(o.store, ch, o.st)
  {
    hide RowsOk, DeskOk, OneActive, JobsOwned, SessionsLive, SessionsOf, CallOk, UpdateCall;
    var o := ChangeHost(env, s, st, ch, requester, isAdmin, newHost);
    if o.err.None? && o.st != st {
      ReloadFinds(env, s, ch, st);
      var c := o.st.value.call;
      HostCallOk(env, st.value, ch, requester, isAdmin, newHost);
      UpdateCallPuts(s, c);
      NoSession(s, st.value);
      HandledKeeps(env, s, ch, st, c, st.value.sessions);
    } else if o.err.None? {
      UpdateCallPuts(s, st.value.call);
      assert s.calls[st.value.call.id := st.value.call] == s.calls;
    }
  }

  lemma HostCallOk(env: Env, v: State, ch: Id, requester: Id, isAdmin: bool, newHost: Id)
    requires CallOk(env, v.call, v.sessions) && env.botID != NONE
    ensures var o := ChangeHost(env, EMPTY, Some(v), ch, requester, isAdmin, newHost);
      o.err.None? ==> SameIdentity(v.call, o.st.value.call) && CallOk(env, o.st.value.call, v.sessions)
  {
    if InCall(v.sessions, newHost) { var k :| k in v.sessions && v.sessions[k].userID == newHost; }
  }

  lemma JobKeeps(env: Env, s: Store, ch: Id, act: JobAct, at: int)
    requires StoreOk(env, s) && Legal(env, s, JobOp(ch, act, at))
    ensures StoreOk(env, Step(env, s, JobOp(ch, act, at)).store)
  {
    hide CallOk, CallRowsOk, OneActive, SessionsOf, RowsOk, DeskOk, JobRows, LoadJobs;
    LoadTracks(env, s, ch);
    var st := Reload(s, ch);
    if st.Some? {
      var v := st.value;
      var x := Ctx(ch, env.botID, at);
      var rows := JobRows(Desk(s.jobs, v.jobs, []), v.call, act, x);
      JobRowsKeep(s.jobs, v.call, act, x);
      JobsOwnedKept(s, s.(jobs := rows), v.call.id);
      forall k | k in s.calls && s.calls[k].endAt == 0 ensures CallOk(env, s.calls[k], SessionsOf(s.sessions, k)) { }
    }
  }

  lemma JobRowsKeep(rows: map<Id, Job>, c: Call, act: JobAct, x: Ctx)
    requires RowsOk(rows) && Ready(x) && x.now > 0
    ensures KeepsRows(rows, JobRows(Desk(rows, LoadJobs(rows, c.id), []), c, act, x), c.id)
  {
    hide RowsOk, SlotOk, LoadJobs, StopRecording, ReportStatus, RecordingTimeout, TranscriptionTimeout, ReconnectBot;
    hide BeginRecording, BeginTranscribing, FinishRecording, FinishTranscribing;
    LoadedDeskOk(rows, c.id);
    LoadedLive(rows, c.id);
    var d := Desk(rows, LoadJobs(rows, c.id), []);
    match act
    case BeginRec(user, id) => BeginRecordingKeeps(d, c.id, user, id, x);
    case FinishRec(run) => FinishRecordingKeeps(d, c.id, run, x);
    case BeginTr(user, trID, lcID) => BeginTranscribingKeeps(d, c.id, user, trID, lcID, x);
    case FinishTr(captions, run) => FinishTranscribingKeeps(d, c.id, captions, run, x);
    case StopRec(user) => StopRecordingRows(d, c.id, x);
    case Report(forRec, id, status, captions) => ReportStatusKeeps(d, c.id, forRec, id, status, captions, x);
    case RecTimeout(id) => RecordingTimeoutKeeps(d, c.id, id, x);
    case TrTimeout(id, captions) => TranscriptionTimeoutKeeps(d, c.id, id, captions, x);
    case BotReconnect(prev, conn) => ReconnectBotKeeps(d, c.id, prev, conn);
  }

  lemma LoadedLive(rows: map<Id, Job>, callID: Id)
    requires RowsOk(rows)
    ensures var j := LoadJobs(rows, callID);
      (j.recording.Some? ==> Live(j.recording)) && (j.transcription.Some? ==> Live(j.transcription))
  {
    LoadedSlot(rows, callID, Recording);
    LoadedSlot(rows, callID, Transcribing);
  }

  lemma StopRecordingRows(d: Desk, callID: Id, x: Ctx)
    requires DeskOk(d, callID) && Ready(x)
    ensures KeepsRows(d.rows, StopRecording(d, x).0.rows, callID)
  {
    if Live(d.jobs.recording) { StopRecordingEffect(d, x, callID); }
  }

  // ---- all steps, all runs ----

  /** Every legal locked section keeps the store invariant. */
  lemma StepKeeps(env: Env, s: Store, op: Op)
    requires StoreOk(env, s) && Legal(env, s, op)
    ensures Runnable(op) && StoreOk(env, Step(env, s, op).store)
    ensures !op.JobOp? ==> Tracks(Step(env, s, op).store, Channel(op), Step(env, s, op).st)
  {
    hide StoreOk, Tracks, Join, Leave, ScreenHandler, VideoHandler, UpdateSession, ChangeHost, JobRows, Reload;
    LoadTracks(env, s, Channel(op));
    var st := Reload(s, Channel(op));
    match op
    case JoinOp(i) => JoinKeeps(env, s, st, i);
    case LeaveOp(i) => LeaveKeeps(env, s, st, i);
    case ScreenOp(f, allowed, on) => ScreenKeeps(env, s, st, f, allowed, on);
    case VideoOp(f, on) => VideoKeeps(env, s, st, f, on);
    case MuteOp(f, unmute) =>
      if st.Some? && f.conn in st.value.sessions {
        TouchKeeps(env, s, f.channelID, st, f.conn, st.value.sessions[f.conn].(unmuted := unmute));
      }
    case HandOp(f, raise) =>
      if st.Some? && f.conn in st.value.sessions {
        TouchKeeps(env, s, f.channelID, st, f.conn,
                   st.value.sessions[f.conn].(raisedHand := if raise then f.now else 0));
      }
    case HostOp(ch, requester, isAdmin, newHost) => HostKeeps(env, s, ch, st, requester, isAdmin, newHost);
    case JobOp(ch, act, at) => JobKeeps(env, s, ch, act, at);
  }

  /** So in every reachable store: at most one active call per channel, no active call without
      sessions, at most one live recording and transcription per call, and each active call
      satisfies CallOk. */
  lemma {:induction false} RunKeeps(env: Env, trace: seq<Store>, ops: seq<Op>, n: nat)
    requires Run(env, trace, ops) && n < |trace|
    ensures StoreOk(env, trace[n])
  {
    if n > 0 {
      RunKeeps(env, trace, ops, n - 1);
      StepKeeps(env, trace[n - 1], ops[n - 1]);
    }
  }

  /** A run may be continued by any legal step. */
  lemma OneMoreStep(env: Env, trace: seq<Store>, ops: seq<Op>, op: Op)
    requires Run(env, trace, ops)
    requires Legal(env, trace[|ops|], op) && Runnable(op)
    ensures Run(env, trace + [Step(env, trace[|ops|], op).store], ops + [op])
  {
    hide Legal, Step;
    var t, o := trace + [Step(env, trace[|ops|], op).store], ops + [op];
    forall i | 0 <= i < |o|
      ensures Legal(env, t[i], o[i]) && Runnable(o[i]) && t[i + 1] == Step(env, t[i], o[i]).store
    {
      if i < |ops| { assert t[i] == trace[i] && t[i + 1] == trace[i + 1] && o[i] == ops[i]; }
    }
  }
}
