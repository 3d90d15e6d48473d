/** The call protocol as a state machine over the store: one step is one locked section that
    loads the channel's call, runs one handler and unlocks (server/sync.go:51-63). */
module Machine {
  import opened Basics
  import opened Rows
  import opened Load
  import opened JobDesk
  import opened JobFacts
  import opened Host
  import opened Membership
  import opened Handlers

  /** The locked sections of the job handlers. */
  datatype JobAct =
    | BeginRec(user: Id, id: Id)
    | FinishRec(recRun: RunResult)
    | BeginTr(trUser: Id, trID: Id, lcID: Option<Id>)
    | FinishTr(captions: bool, trRun: RunResult)
    | StopRec(stopUser: Id)
    | Report(forRecording: bool, jobID: Id, status: Status, captionsOn: bool)
    | RecTimeout(recJobID: Id)
    | TrTimeout(trJobID: Id, withCaptions: bool)
    | BotReconnect(prev: Id, conn: Id)

  datatype Op =
    | JoinOp(join: JoinIn)
    | LeaveOp(leave: LeaveIn)
    | ScreenOp(from: From, allowed: bool, on: bool)
    | VideoOp(from: From, on: bool)
    | MuteOp(from: From, unmute: bool)
    | HandOp(from: From, raise: bool)
    | HostOp(hostChannel: Id, requester: Id, isAdmin: bool, newHost: Id)
    | JobOp(jobChannel: Id, act: JobAct, at: int)

  function Channel(op: Op): Id {
    match op
    case JoinOp(i) => i.channelID
    case LeaveOp(i) => i.channelID
    case ScreenOp(f, _, _) => f.channelID
    case VideoOp(f, _) => f.channelID
    case MuteOp(f, _) => f.channelID
    case HandOp(f, _) => f.channelID
    case HostOp(ch, _, _, _) => ch
    case JobOp(ch, _, _) => ch
  }

  function JobRows(d: Desk, c: Call, act: JobAct, x: Ctx): map<Id, Job>
    requires x.now != 0
  {
    match act
    case BeginRec(user, id) => if user != c.Host() then d.rows else BeginRecording(d, c.id, user, id, x).0
    case FinishRec(run) => FinishRecording(d, run, x).0
    case BeginTr(user, trID, lcID) => BeginTranscribing(d, c.id, user, trID, lcID, x).0
    case FinishTr(captions, run) => FinishTranscribing(d, captions, run, x).0
    case StopRec(user) => if user != c.Host() then d.rows else StopRecording(d, x).0.rows
    case Report(forRec, id, status, captions) => ReportStatus(d, forRec, id, status, captions, x).0.rows
    case RecTimeout(id) => RecordingTimeout(d, id, x).rows
    case TrTimeout(id, captions) => TranscriptionTimeout(d, id, captions, x).rows
    case BotReconnect(prev, conn) => ReconnectBot(d, prev, conn).rows
  }

  /** The stop messages a job section sends. */
  function JobStops(d: Desk, c: Call, act: JobAct, x: Ctx): seq<Id>
    requires x.now != 0
  {
    match act
    case StopRec(user) => if user != c.Host() then d.stops else StopRecording(d, x).0.stops
    case Report(forRec, id, status, captions) => ReportStatus(d, forRec, id, status, captions, x).0.stops
    case RecTimeout(id) => RecordingTimeout(d, id, x).stops
    case TrTimeout(id, captions) => TranscriptionTimeout(d, id, captions, x).stops
    case _ => d.stops
  }

  /** An end time of 0 would mean "not ended". */
  predicate Runnable(op: Op) {
    (op.LeaveOp? ==> op.leave.now != 0) && (op.JobOp? ==> op.at != 0)
  }

  ghost function Handle(env: Env, s: Store, st: Option<State>, op: Op): Out
    requires Runnable(op)
  {
    match op
    case JoinOp(i) => Join(env, s, st, i)
    case LeaveOp(i) => Leave(env, s, st, i)
    case ScreenOp(f, allowed, on) => ScreenHandler(s, st, f, allowed, on)
    case VideoOp(f, on) => VideoHandler(s, st, f, on)
    case MuteOp(f, unmute) => MuteHandler(s, st, f, unmute)
    case HandOp(f, raise) => HandHandler(s, st, f, raise)
    case HostOp(ch, requester, isAdmin, newHost) => ChangeHost(env, s, st, ch, requester, isAdmin, newHost)
    case JobOp(ch, act, at) =>
      if st.None? then Refuse(s, st, NoCall) else
        var d := Desk(s.jobs, st.value.jobs, []);
        var x := Ctx(ch, env.botID, at);
        Out(s.(jobs := JobRows(d, st.value.call, act, x)), st, None, [], JobStops(d, st.value.call, act, x))
  }

  /** One locked section: lock, load, handle, unlock. */
  ghost function Step(env: Env, s: Store, op: Op): Out
    requires Runnable(op)
  {
    Handle(env, s, Reload(s, Channel(op)), op)
  }

  // ---- what the callers guarantee ----

  /** The clock is past its first second, so that a start time is never 0. */
  predicate Clock(now: int) { now >= 1000 }

  /** A connection is in at most one call: its ID names no session of another call. */
  ghost predicate FreshConn(s: Store, i: JoinIn) {
    i.connID in s.sessions ==> Reload(s, i.channelID).Some? && i.connID in Reload(s, i.channelID).value.sessions
  }

  predicate SameUser(s: Store, conn: Id, user: Id) {
    conn in s.sessions ==> s.sessions[conn].userID == user
  }

  predicate GoodFrom(s: Store, f: From) { Clock(f.now) && SameUser(s, f.conn, f.userID) }

  predicate GoodJoin(s: Store, i: JoinIn) {
    && i.userID != NONE && i.connID != NONE && i.channelID != NONE && Clock(i.now)
    && i.newCallID != NONE && i.newCallID !in s.calls
  }

  predicate GoodLeave(s: Store, i: LeaveIn) { Clock(i.now) && SameUser(s, i.origConn, i.userID) }

  /** The sender of a screen_on message is still in the call. */
  ghost predicate LiveSender(s: Store, f: From) {
    Reload(s, f.channelID).Some? ==> f.conn in Reload(s, f.channelID).value.sessions
  }

  ghost predicate Legal(env: Env, s: Store, op: Op) {
    && Channel(op) != NONE && env.botID != NONE
    && match op
       case JoinOp(i) => GoodJoin(s, i) && FreshConn(s, i)
       case LeaveOp(i) => GoodLeave(s, i)
       case ScreenOp(f, _, on) => GoodFrom(s, f) && (on ==> LiveSender(s, f))
       case VideoOp(f, _) => GoodFrom(s, f)
       case MuteOp(f, _) => GoodFrom(s, f)
       case HandOp(f, _) => GoodFrom(s, f)
       case HostOp(_, _, _, _) => true
       case JobOp(_, _, at) => Clock(at)
  }

  // ---- the invariant ----

  predicate ScreenOk(c: Call, s: Sessions) {
    && (c.props.screenID == NONE <==> c.props.screenStartAt == 0)
    && (c.props.screenID != NONE ==> c.props.screenID in s && c.props.screenStartAt > 0)
  }

  ghost predicate VideoOk(c: Call, s: Sessions) {
    && (forall k :: k in c.props.videoStartAt <==> k in s && s[k].video)
    && (forall k | k in c.props.videoStartAt :: c.props.videoStartAt[k] > 0)
  }

  predicate PeopleOk(bot: Id, c: Call, s: Sessions) {
    && (forall k | k in s && s[k].userID != bot :: s[k].userID in c.props.participants)
    && bot !in c.props.participants
  }

  predicate HostOk(bot: Id, c: Call, s: Sessions) {
    && |c.props.hosts| <= 1 && (|c.props.hosts| == 1 ==> c.props.hosts[0] != NONE)
    && c.Host() != bot && c.props.hostLocked != bot
    && (c.Host() != NONE ==> InCall(s, c.Host()))
    && (!OnlyBot(s, bot) ==> c.Host() != NONE)
    && (c.props.hostLocked != NONE && InCall(s, c.props.hostLocked) ==> c.Host() == c.props.hostLocked)
  }

  predicate SessionRowsOk(c: Call, s: Sessions) {
    forall k | k in s :: s[k].id == k && s[k].callID == c.id && s[k].IsValid()
  }

  /** An active call and its sessions. */
  ghost predicate CallOk(env: Env, c: Call, s: Sessions) {
    && c.IsValid() && c.Active() && s != map[] && SessionRowsOk(c, s)
    && ScreenOk(c, s) && VideoOk(c, s) && PeopleOk(env.botID, c, s) && HostOk(env.botID, c, s)
    && (env.maxParticipants != 0 ==> |s| <= env.maxParticipants)
  }

  predicate CallRowsOk(calls: map<Id, Call>) {
    forall k | k in calls :: calls[k].id == k && calls[k].IsValid() && calls[k].startAt > 0 && calls[k].endAt >= 0
  }

  /** At most one active call per channel. */
  predicate OneActive(calls: map<Id, Call>) {
    forall j, k | j in calls && k in calls && calls[j].endAt == 0 && calls[k].endAt == 0
      && calls[j].channelID == calls[k].channelID :: j == k
  }

  /** Every session row belongs to a call that has not ended. */
  predicate SessionsLive(s: Store) {
    forall k | k in s.sessions ::
      s.sessions[k].id == k && s.sessions[k].callID in s.calls && s.calls[s.sessions[k].callID].endAt == 0
  }

  predicate JobsOwned(s: Store) {
    forall k | k in s.jobs :: s.jobs[k].callID in s.calls
  }

  ghost predicate StoreOk(env: Env, s: Store) {
    && CallRowsOk(s.calls) && OneActive(s.calls) && SessionsLive(s) && RowsOk(s.jobs) && JobsOwned(s)
    && (forall k | k in s.calls && s.calls[k].endAt == 0 :: CallOk(env, s.calls[k], SessionsOf(s.sessions, k)))
  }

  const EMPTY := Store(map[], map[], map[])

  // ---- runs ----

  ghost predicate Run(env: Env, trace: seq<Store>, ops: seq<Op>) {
    && |trace| == |ops| + 1 && trace[0] == EMPTY
    && forall i | 0 <= i < |ops| :: Legal(env, trace[i], ops[i]) && Runnable(ops[i])
                                    && trace[i + 1] == Step(env, trace[i], ops[i]).store
  }
}
