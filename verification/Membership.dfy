/** Joining and leaving a call: addUserSession with the continuation of handleJoin, and
    removeUserSession (server/session.go:83-244, 282-506; server/websocket.go:782-957). */
module Membership {
  import opened Basics
  import opened Rows
  import opened Load
  import opened JobDesk
  import opened Host
  import opened Posts

  /** Configuration every handler reads. `maxParticipants` is 0 when there is no limit. */
  datatype Env = Env(botID: Id, nodeID: Id, maxParticipants: int)

  datatype Err =
    | Forbidden | NoRtcdHost | CallEnded | AlreadyConnected | LimitReached
    | NoJobInProgress | JobNotJoinable | StoreFailed
    | NoCall | NoSession | AlreadySharing | NotSharing | NotAllowed | NotInCall

  /** What one locked section leaves behind: the store, the in-memory state, whether it failed,
      the events it published and the stop messages it sent. */
  datatype Out = Out(store: Store, st: Option<State>, err: Option<Err>, posts: seq<Post>, stops: seq<Id>)

  function Refuse(s: Store, st: Option<State>, e: Err): Out { Out(s, st, Some(e), [], []) }

  // ---- joining ----

  datatype Rtcd = NoRtcd | RtcdHost(host: Id) | RtcdFailed

  /** Inputs of one join: the request, the answers of the permission and rtcd checks, a fresh
      call ID, the clock, the thread of the start post, and the map-order tie-breaker. */
  datatype JoinIn = JoinIn(userID: Id, connID: Id, channelID: Id, jobID: Id, mayStart: bool, rtcd: Rtcd,
                           newCallID: Id, now: int, postID: Id, threadID: Id, hint: Id)

  function NewCall(env: Env, i: JoinIn): Call {
    Call(i.newCallID, i.channelID, i.now, 0, i.now, 0, NONE, NONE, i.userID, {},
         Stats(0, 0, false, false),
         Props([], if i.rtcd.RtcdHost? then i.rtcd.host else NONE, NONE, map[], 0, env.nodeID, {}, NONE, map[]))
  }

  function NewState(env: Env, i: JoinIn): State {
    State(NewCall(env, i), map[], Jobs(None, None, None))
  }

  function NewSession(callID: Id, i: JoinIn): Session {
    Session(i.connID, callID, i.userID, i.now, false, 0, false)
  }

  predicate JoinAllowed(env: Env, s: Sessions) {
    !(env.maxParticipants != 0 && |s| >= env.maxParticipants)
  }

  /** The host after a change of the sessions, and the call with it. */
  ghost function NextHost(env: Env, c: Call, s: Sessions, hint: Id): Id {
    PickHost(s, c.props.hostLocked, c.Host(), env.botID, hint)
  }

  ghost function JoinCall(env: Env, c: Call, s: Sessions, i: JoinIn): Call {
    var h := NextHost(env, c, s, i.hint);
    c.(props := c.props.(
      hosts := if h != c.Host() then [h] else c.props.hosts,
      participants := if i.userID != env.botID then c.props.participants + {i.userID} else c.props.participants))
  }

  ghost function HostPost(env: Env, before: Call, after: Call, s: Sessions): seq<Post> {
    if after.Host() != before.Host()
    then [Post(before.channelID, HostChanged(after.Host()), ToUsers(UsersOf(s)))] else []
  }

  function BotDesk(env: Env, s: Store, st: State, i: JoinIn): BotJoin {
    var d := Desk(s.jobs, st.jobs, []);
    if i.userID == env.botID then JoinBot(d, i.jobID, i.connID) else Joined(d)
  }

  /** The writes of addUserSession, in order; a failed one leaves the earlier ones in place. */
  function WriteJoin(s: Store, st: State, i: JoinIn): (Store, bool)
    requires i.connID in st.sessions
  {
    var s1 := if |st.sessions| == 1 then InsertCall(s, st.call) else Some(UpdateCall(s, st.call));
    match s1
    case None => (s, false)
    case Some(s2) =>
      match InsertSession(s2, st.sessions[i.connID])
      case None => (s2, false)
      case Some(s3) => (s3, true)
  }

  ghost function Admit(env: Env, s: Store, orig: Option<State>, st: State, i: JoinIn): Out {
    if st.call.endAt > 0 then Refuse(s, orig, CallEnded)
    else if i.connID in st.sessions then Refuse(s, orig, AlreadyConnected)
    else if !JoinAllowed(env, st.sessions) then Refuse(s, orig, LimitReached)
    else
      match BotDesk(env, s, st, i)
      case NoJob => Refuse(s, orig, NoJobInProgress)
      case JobStarted => Refuse(s, orig, JobNotJoinable)
      case Joined(d) =>
        var sessions := st.sessions[i.connID := NewSession(st.call.id, i)];
        var st1 := State(JoinCall(env, st.call, sessions, i), sessions, d.jobs);
        var (s1, ok) := WriteJoin(s.(jobs := d.rows), st1, i);
        if !ok then Refuse(s1, orig, StoreFailed)
        else Out(s1, Some(st1), None, HostPost(env, st.call, st1.call, sessions), [])
  }

  ghost function AddUserSession(env: Env, s: Store, st: Option<State>, i: JoinIn): Out {
    match st
    case None =>
      if !i.mayStart then Refuse(s, st, Forbidden)
      else if i.rtcd.RtcdFailed? then Refuse(s, st, NoRtcdHost)
      else Admit(env, s, st, NewState(env, i), i)
    case Some(v) => Admit(env, s, st, v, i)
  }

  function StartPost(s: Store, st: State, i: JoinIn): (Store, State, seq<Post>) {
    if |st.sessions| != 1 then (s, st, []) else
      var c := st.call.(postID := i.postID, threadID := i.threadID);
      (UpdateCall(s, c), st.(call := c), [Post(i.channelID, CallStarted(c.id, c.Host()), ToChannel)])
  }

  /** One item of a join: addSessionToCall in handleJoin. */
  ghost function Join(env: Env, s: Store, st: Option<State>, i: JoinIn): Out {
    var a := AddUserSession(env, s, st, i);
    if a.err.Some? || a.st.None? then a else
      var (s1, st1, started) := StartPost(a.store, a.st.value, i);
      Out(s1, Some(st1), None,
          a.posts + started
          + Publish(env.botID, Post(i.channelID, UserJoined(i.userID, i.connID), ToChannel))
          + [Post(i.channelID, Snapshot(ViewOf(st1.call, st1.sessions, env.botID)), ToUser(i.userID))],
          [])
  }

  // ---- leaving ----

  datatype LeaveIn = LeaveIn(userID: Id, origConn: Id, connID: Id, channelID: Id, now: int, hint: Id)

  function DropScreen(c: Call, orig: Id, now: int): Call {
    if c.props.screenID != orig then c
    else if c.props.screenStartAt > 0 then
      c.(stats := c.stats.(screenDuration := c.stats.screenDuration + SecondsSince(now, c.props.screenStartAt)),
         props := c.props.(screenID := NONE, screenStartAt := 0))
    else c.(props := c.props.(screenID := NONE))
  }

  /** Stops the video timer of a session, if it runs, and accounts for it. */
  function StopVideo(c: Call, orig: Id, now: int): Call {
    if orig in c.props.videoStartAt && c.props.videoStartAt[orig] > 0 then
      c.(stats := c.stats.(videoDuration := c.stats.videoDuration + SecondsSince(now, c.props.videoStartAt[orig])),
         props := c.props.(videoStartAt := c.props.videoStartAt - {orig}))
    else c
  }

  function DropVideo(c: Call, us: Session, orig: Id, now: int): Call {
    if us.video then StopVideo(c, orig, now) else c
  }

  ghost function DropHost(env: Env, c: Call, s: Sessions, user: Id, hint: Id): Call {
    if c.Host() != user || s == map[] then c else
      var h := NextHost(env, c, s, hint);
      if h == user then c
      else c.(props := c.props.(hosts := if h == NONE then [] else [h]))
  }

  /** Seconds still running in a map of start times. */
  ghost function Running(starts: map<Id, int>, now: int): int
    decreases |starts|
  {
    if starts == map[] then 0 else
      var k :| k in starts;
      (if starts[k] > 0 then SecondsSince(now, starts[k]) else 0) + Running(starts - {k}, now)
  }

  function SetCallEnded(c: Call, now: int): Call {
    c.(endAt := now, participants := c.props.participants,
       props := c.props.(rtcdHost := NONE, dismissed := map[], nodeID := NONE, hosts := [], participants := {}))
  }

  ghost function EndCall(c: Call, now: int): Call {
    var screen := if c.props.screenStartAt > 0 then SecondsSince(now, c.props.screenStartAt) else 0;
    SetCallEnded(
      c.(stats := c.stats.(screenDuration := c.stats.screenDuration + screen,
                           videoDuration := c.stats.videoDuration + Running(c.props.videoStartAt, now)),
         props := c.props.(videoStartAt := map[])), now)
  }

  /** The call after session `us`, already taken out of `rest`, has left. */
  ghost function LeaveCall(env: Env, c: Call, us: Session, rest: Sessions, i: LeaveIn): Call {
    var c1 := DropVideo(DropScreen(c, i.origConn, i.now), us, i.origConn, i.now);
    var c2 := DropHost(env, c1, rest, i.userID, i.hint);
    if rest == map[] then EndCall(c2, i.now) else c2
  }

  predicate OnlyUserLeft(s: Sessions, user: Id) {
    s != map[] && OnlyBot(s, user)
  }

  ghost function LeavePosts(env: Env, c: Call, us: Session, rest: Sessions, i: LeaveIn): seq<Post> {
    var users := ToUsers(UsersOf(rest));
    var c1 := DropVideo(DropScreen(c, i.origConn, i.now), us, i.origConn, i.now);
    var c2 := DropHost(env, c1, rest, i.userID, i.hint);
    (if c.props.screenID == i.origConn then [Post(i.channelID, ScreenOff(None), users)] else [])
    + (if us.video then [Post(i.channelID, VideoOff(i.userID, i.origConn), users)] else [])
    + Publish(env.botID, Post(i.channelID, UserLeft(i.userID, i.origConn), ToChannel))
    + (if c2.Host() != c1.Host() then [Post(i.channelID, HostChanged(c2.Host()), users)] else [])
  }

  ghost function Leave(env: Env, s: Store, st: Option<State>, i: LeaveIn): Out
    requires i.now != 0
  {
    if st.None? then Refuse(s, st, NoCall)
    else if i.origConn !in st.value.sessions then Refuse(s, st, NoSession)
    else
      var us := st.value.sessions[i.origConn];
      var rest := st.value.sessions - {i.origConn};
      var d := LeaveJobs(Desk(s.jobs, st.value.jobs, []), i.origConn, i.connID,
                         OnlyUserLeft(rest, env.botID), Ctx(i.channelID, env.botID, i.now));
      var c := LeaveCall(env, st.value.call, us, rest, i);
      Out(UpdateCall(DeleteSession(s, i.origConn).(jobs := d.rows), c),
          Some(State(c, rest, d.jobs)), None,
          LeavePosts(env, st.value.call, us, rest, i), d.stops)
  }
}
