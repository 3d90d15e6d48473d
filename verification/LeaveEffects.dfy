/** What a leave answers and what it leaves behind, in terms of the call before it
    (server/session.go:282-491, server/state.go:399-407). */
module LeaveEffects {
  import opened Basics
  import opened Rows
  import opened Load
  import opened JobDesk
  import opened JobFacts
  import opened JobRuns
  import opened Host
  import opened Posts
  import opened Membership
  import opened Machine
  import opened Invariant
  import opened Steps
  import opened Captions
  import opened HandlerEffects
  import opened JoinEffects

  /** The session that leaves is in the channel's call. */
  ghost predicate IsIn(s: Store, i: LeaveIn) {
    Reload(s, i.channelID).Some? && i.origConn in Reload(s, i.channelID).value.sessions
  }

  /** A leave is accepted exactly from a session of the call; otherwise nothing changes. */
  lemma LeaveAnswered(env: Env, s: Store, i: LeaveIn, o: Out)
    requires i.now != 0 && o == Step(env, s, LeaveOp(i))
    ensures o.err.None? <==> IsIn(s, i)
    ensures !IsIn(s, i) ==> o.err == Some(if Reload(s, i.channelID).None? then NoCall else NoSession)
    ensures !IsIn(s, i) ==> Refused(o, s, Reload(s, i.channelID))
  {
    hide Reload, LeaveJobs, LeaveCall, LeavePosts, UpdateCall;
  }

  // ---- the call ----

  /** The host after a leave. Unless the host has left with the last of its sessions it stays; otherwise
      a user who has been in the call longest follows, the bot aside, or nobody when only the bot is left. */
  ghost predicate HostLeft(env: Env, c: Call, rest: Sessions, user: Id, h: Id) {
    if user != c.Host() || InCall(rest, user) then h == c.Host()
    else if exists k :: k in rest && rest[k].userID != env.botID then
      exists k :: LongestIn(rest, env.botID, k) && rest[k].userID == h
    else h == NONE
  }

  predicate LongestIn(s: Sessions, bot: Id, k: Id) {
    k in s && s[k].userID != bot && forall j | j in s && s[j].userID != bot :: s[j].joinAt >= s[k].joinAt
  }

  /** The seconds recorded when the session stops: shared, if it was the sharer; of video, if it was on. */
  function StatsLeft(c: Call, us: Session, i: LeaveIn): Stats
    requires us.video ==> i.origConn in c.props.videoStartAt
  {
    c.stats.(
      screenDuration := c.stats.screenDuration
        + (if c.props.screenID == i.origConn then SecondsSince(i.now, c.props.screenStartAt) else 0),
      videoDuration := c.stats.videoDuration
        + (if us.video then SecondsSince(i.now, c.props.videoStartAt[i.origConn]) else 0))
  }

  /** A call that goes on: no more sharer if it was the one who left, its timer gone, its seconds recorded,
      the host as said, and nothing else. */
  ghost predicate GoesOnAs(env: Env, c: Call, us: Session, rest: Sessions, i: LeaveIn, d: Call)
    requires us.video ==> i.origConn in c.props.videoStartAt
  {
    var sharer := c.props.screenID == i.origConn;
    && d == c.(props := c.props.(hosts := d.props.hosts, screenID := if sharer then NONE else c.props.screenID,
                                 screenStartAt := if sharer then 0 else c.props.screenStartAt,
                                 videoStartAt := c.props.videoStartAt - {i.origConn}),
               stats := StatsLeft(c, us, i))
    && HostLeft(env, c, rest, i.userID, d.Host()) && d.props.hosts == HostList(d.Host())
  }

  /** A call that has ended: its participants and seconds are saved, nobody hosts or shares, no timer runs. */
  predicate EndsAs(c: Call, us: Session, i: LeaveIn, d: Call)
    requires us.video ==> i.origConn in c.props.videoStartAt
  {
    d == c.(endAt := i.now, participants := c.props.participants, stats := StatsLeft(c, us, i),
            props := Props([], NONE, NONE, map[], 0, NONE, {}, c.props.hostLocked, map[]))
  }

  ghost predicate CallLeft(env: Env, c: Call, s: Sessions, i: LeaveIn, d: Call)
    requires i.origConn in s && (s[i.origConn].video ==> i.origConn in c.props.videoStartAt)
  {
    if s.Keys == {i.origConn} then EndsAs(c, s[i.origConn], i, d)
    else GoesOnAs(env, c, s[i.origConn], s - {i.origConn}, i, d)
  }

  lemma LeftRow(env: Env, c: Call, s: Sessions, i: LeaveIn)
    requires CallOk(env, c, s) && env.botID != NONE && i.origConn in s && s[i.origConn].userID == i.userID
    ensures s[i.origConn].video ==> i.origConn in c.props.videoStartAt
    ensures CallLeft(env, c, s, i, LeaveCall(env, c, s[i.origConn], s - {i.origConn}, i))
  {
    hide NextHost, Running, PeopleOk, HostOk;
    var (us, rest) := (s[i.origConn], s - {i.origConn});
    LoneSession(s, i.origConn);
    if rest == map[] {
      NoneRuns(i.now);
      assert c.props.videoStartAt - {i.origConn} == map[];
      assert us.video || c.props.videoStartAt == map[];
    } else {
      assert us.video || c.props.videoStartAt - {i.origConn} == c.props.videoStartAt;
      var c1 := DropVideo(DropScreen(c, i.origConn, i.now), us, i.origConn, i.now);
      HostFollows(env, c, c1, s, i);
    }
  }

  lemma NoneRuns(now: int)
    ensures Running(map[], now) == 0
  {
  }

  lemma HostFollows(env: Env, c: Call, c1: Call, s: Sessions, i: LeaveIn)
    requires HostOk(env.botID, c, s) && env.botID != NONE && i.origConn in s && s[i.origConn].userID == i.userID
    requires forall k | k in s :: s[k].userID != NONE
    requires c1.props.hosts == c.props.hosts && c1.props.hostLocked == c.props.hostLocked && s - {i.origConn} != map[]
    ensures var c2 := DropHost(env, c1, s - {i.origConn}, i.userID, i.hint);
      && c2 == c1.(props := c1.props.(hosts := c2.props.hosts))
      && HostLeft(env, c, s - {i.origConn}, i.userID, c2.Host()) && c2.props.hosts == HostList(c2.Host())
  {
    var rest := s - {i.origConn};
    assert forall u :: InCall(rest, u) ==> InCall(s, u) by {
      forall u | InCall(rest, u) ensures InCall(s, u) {
        var k :| k in rest && rest[k].userID == u;
        assert s[k].userID == u;
      }
    }
    if c.Host() == i.userID && !InCall(rest, i.userID) && !OnlyBot(rest, env.botID) {
      var h := NextHost(env, c1, rest, i.hint);
      var k :| Earliest(rest, env.botID, k) && rest[k].userID == h;
      assert LongestIn(rest, env.botID, k);
    }
  }

  // ---- the jobs ----

  function PutBack(rows: map<Id, Job>, o: Option<Job>): map<Id, Job> {
    if o.None? then rows else rows[o.value.id := o.value]
  }

  /** The rows of the three jobs in memory, and no other, are written back. */
  lemma RowsPutBack(d: Desk, e: Desk, callID: Id)
    requires DeskOk(d, callID) && Keeps(d, e, callID)
    ensures e.rows == PutBack(PutBack(PutBack(d.rows, e.jobs.recording), e.jobs.transcription), e.jobs.captions)
  {
    hide RowsOk, Advances, OnlyCall;
    SlotKinds(e, callID);
    var rows := PutBack(PutBack(PutBack(d.rows, e.jobs.recording), e.jobs.transcription), e.jobs.captions);
    forall k | k in d.rows ensures k in rows && rows[k] == e.rows[k] {
      if InSlots(d.jobs, k) { } else { }
    }
    forall k | k in rows ensures k in d.rows { }
  }

  // ---- the whole leave ----

  /** The events, in order: the sharing and the video of the session end, it has left unless it is the bot's,
      and the host has changed if so. */
  ghost predicate LeaveEvents(env: Env, c: Call, s: Sessions, i: LeaveIn, d: Call, posts: seq<Post>)
    requires i.origConn in s
  {
    exists to :: Everyone(to, s - {i.origConn})
      && posts == (if c.props.screenID == i.origConn then [Post(i.channelID, ScreenOff(None), to)] else [])
                  + (if s[i.origConn].video then [Post(i.channelID, VideoOff(i.userID, i.origConn), to)] else [])
                  + (if i.userID == env.botID then []
                     else [Post(i.channelID, UserLeft(i.userID, i.origConn), ToChannel)])
                  + (if s.Keys != {i.origConn} && d.Host() != c.Host()
                     then [Post(i.channelID, HostChanged(d.Host()), to)] else [])
  }

  /** An accepted leave takes out one session, rewrites the call as said and the call's jobs in memory as the
      closed form of their part says, and changes no other row. */
  lemma LeaveEffect(env: Env, s: Store, i: LeaveIn, v: State, o: Out)
    requires StoreOk(env, s) && Legal(env, s, LeaveOp(i)) && i.now != 0 && o == Step(env, s, LeaveOp(i))
    requires Reload(s, i.channelID) == Some(v) && i.origConn in v.sessions
    ensures v.call.id in o.store.calls && (v.sessions[i.origConn].video ==> i.origConn in v.call.props.videoStartAt)
    ensures var j := LeftJobs(v.jobs, i.origConn, i.connID, i.now);
      o.store == Store(s.calls[v.call.id := o.store.calls[v.call.id]], s.sessions - {i.origConn},
                       PutBack(PutBack(PutBack(s.jobs, j.recording), j.transcription), j.captions))
    ensures CallLeft(env, v.call, v.sessions, i, o.store.calls[v.call.id])
    ensures LeaveEvents(env, v.call, v.sessions, i, o.store.calls[v.call.id], o.posts)
    ensures o.stops == Leftovers(v.jobs, OnlyUserLeft(v.sessions - {i.origConn}, env.botID))
                       + CoupledStops(v.jobs, i.origConn)
  {
    hide StoreOk, Reload, Leave, LeaveCall, LeaveJobs, LeavePosts, CallLeft, LeaveEvents, LeftJobs, CallOk, RowsOk;
    hide SlotOk, Leftovers, CoupledStops, OnlyUserLeft, Keeps, PutBack;
    LoadTracks(env, s, i.channelID);
    ReloadFinds(env, s, i.channelID, Some(v));
    LeaveStored(env, s, Some(v), i);
    LeavingUser(env, s, Some(v), i);
    LeftRow(env, v.call, v.sessions, i);
    var d := Desk(s.jobs, v.jobs, []);
    var only := OnlyUserLeft(v.sessions - {i.origConn}, env.botID);
    var x := Ctx(i.channelID, env.botID, i.now);
    LeaveJobsKeeps(d, v.call.id, i.origConn, i.connID, only, x);
    LeaveJobsEffect(d, v.call.id, i.origConn, i.connID, only, x);
    RowsPutBack(d, LeftDesk(env, s, v, i), v.call.id);
    LeftParts(env, s, v, i, o);
    LeftPosts(env, v.call, v.sessions, i);
    assert [] + Leftovers(v.jobs, only) + CoupledStops(v.jobs, i.origConn)
        == Leftovers(v.jobs, only) + CoupledStops(v.jobs, i.origConn);
  }

  lemma LeftParts(env: Env, s: Store, v: State, i: LeaveIn, o: Out)
    requires i.origConn in v.sessions && i.now != 0 && o == Leave(env, s, Some(v), i)
    ensures o.posts == LeavePosts(env, v.call, v.sessions[i.origConn], v.sessions - {i.origConn}, i)
    ensures o.stops == LeftDesk(env, s, v, i).stops
  {
    hide LeaveCall, LeaveJobs, LeavePosts, UpdateCall;
  }

  lemma LeftPosts(env: Env, c: Call, s: Sessions, i: LeaveIn)
    requires i.origConn in s
    ensures var rest := s - {i.origConn};
      LeaveEvents(env, c, s, i, LeaveCall(env, c, s[i.origConn], rest, i), LeavePosts(env, c, s[i.origConn], rest, i))
  {
    hide NextHost, Running;
    var rest := s - {i.origConn};
    LoneSession(s, i.origConn);
    assert Everyone(ToUsers(UsersOf(rest)), rest);
  }
}
