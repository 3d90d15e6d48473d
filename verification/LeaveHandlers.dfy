/** removeUserSession as it runs: it updates the call state its caller holds in place
    (server/session.go:282-491). */
module LeaveHandlers {
  import opened Basics
  import opened Rows
  import opened Load
  import opened JobDesk
  import opened Host
  import opened Posts
  import opened Membership
  import opened VideoTime
  import opened CallStates
  import opened JobHandlers
  import opened JoinHandlers

  method EndScreen(st: CallState, orig: Id, now: int) returns (was: bool)
    modifies st`call
    ensures st.CallRow() == DropScreen(old(st.CallRow()), orig, now)
    ensures was <==> old(st.call).props.screenID == orig
  {
    var c := st.call;
    was := c.props.screenID == orig;
    if was {
      c := c.(props := c.props.(screenID := NONE));
      if c.props.screenStartAt > 0 {
        c := c.(stats := c.stats.(screenDuration := c.stats.screenDuration + SecondsSince(now, c.props.screenStartAt)));
        c := c.(props := c.props.(screenStartAt := 0));
      }
      st.call := c;
    }
  }

  /** The timer of one session, in the map of timers that other states may share. */
  method EndVideo(st: CallState, orig: Id, now: int)
    modifies st`call, st.video
    ensures st.CallRow() == StopVideo(old(st.CallRow()), orig, now)
  {
    if st.video != null && orig in st.video.m && st.video.m[orig] > 0 {
      var c := st.call;
      st.call := c.(stats := c.stats.(videoDuration := c.stats.videoDuration + SecondsSince(now, st.video.m[orig])));
      st.video.m := st.video.m - {orig};
    }
  }

  method PassHost(env: Env, st: CallState, order: seq<Session>, ghost rest: Sessions, user: Id, ch: Id, users: To)
    returns (published: seq<Post>, ghost hint: Id)
    requires Visits(order, rest) && PeopledRows(rest)
    modifies st`call
    ensures st.CallRow() == DropHost(env, old(st.CallRow()), rest, user, hint)
    ensures published == if st.CallRow().Host() != old(st.CallRow()).Host()
      then [Post(ch, HostChanged(st.CallRow().Host()), users)] else []
  {
    hide NextHost;
    ghost var before := st.CallRow();
    hint, published := NONE, [];
    NobodyLeft(order, rest);
    if st.call.Host() == user && |order| > 0 {
      var h := ChooseHost(env, st.call, order, rest);
      SameNextHost(env, st.call, before, rest, h);
      hint := h;
      if h != user {
        var c := st.call;
        st.call := c.(props := c.props.(hosts := if h == NONE then [] else [h]));
        published := [Post(ch, HostChanged(h), users)];
      }
    }
  }

  lemma NobodyLeft(order: seq<Session>, rest: Sessions)
    requires Visits(order, rest)
    ensures |order| == 0 <==> rest == map[]
  {
    if |order| > 0 { assert order[0].id in rest; }
    if rest != map[] { var k :| k in rest; assert rest[k] in order; }
  }

  /** Adds up the timers still running, in whatever order the map is iterated. */
  method SumTimers(m: map<Id, int>, now: int) returns (sum: int)
    ensures sum == Running(m, now)
  {
    sum := 0;
    var todo := m;
    while todo != map[]
      invariant sum + Running(todo, now) == Running(m, now)
      decreases |todo|
    {
      var k :| k in todo;
      RunningRemove(todo, k, now);
      if todo[k] > 0 { sum := sum + SecondsSince(now, todo[k]); }
      todo := todo - {k};
    }
  }

  method SetEnded(st: CallState, now: int)
    modifies st`call, st`people, st`dismissed
    ensures st.CallRow() == SetCallEnded(old(st.CallRow()), now) && st.people == null && st.dismissed == null
  {
    var c := st.call;
    c := c.(endAt := now, participants := if st.people == null then {} else st.people.s);
    c := c.(props := c.props.(rtcdHost := NONE, nodeID := NONE, hosts := []));
    st.people, st.dismissed := null, null;
    st.call := c;
  }

  method Finish(st: CallState, now: int)
    modifies st`call, st`people, st`dismissed, st`video
    ensures st.CallRow() == EndCall(old(st.CallRow()), now) && st.people == null && st.dismissed == null
    ensures st.video == null
  {
    hide SetCallEnded;
    var c := st.call;
    if c.props.screenStartAt > 0 {
      c := c.(stats := c.stats.(screenDuration := c.stats.screenDuration + SecondsSince(now, c.props.screenStartAt)));
    }
    if st.video != null {
      var sum := SumTimers(st.video.m, now);
      c := c.(stats := c.stats.(videoDuration := c.stats.videoDuration + sum));
      st.video := null;
    }
    st.call := c;
    SetEnded(st, now);
  }

  /** The choice of the host looks at the hosts of a call and nothing else of it. */
  lemma SameNextHost(env: Env, c: Call, d: Call, s: Sessions, hint: Id)
    requires c.props.hosts == d.props.hosts && c.props.hostLocked == d.props.hostLocked
    ensures NextHost(env, c, s, hint) == NextHost(env, d, s, hint) && c.Host() == d.Host()
  {
  }

  /** The leaving session's screen and video end. */
  method EndMedia(st: CallState, us: Session, i: LeaveIn, users: To) returns (published: seq<Post>)
    modifies st`call, st.video
    ensures st.CallRow() == DropVideo(DropScreen(old(st.CallRow()), i.origConn, i.now), us, i.origConn, i.now)
    ensures published == (if old(st.call).props.screenID == i.origConn then [Post(i.channelID, ScreenOff(None), users)]
                          else [])
                         + if us.video then [Post(i.channelID, VideoOff(i.userID, i.origConn), users)] else []
  {
    hide DropScreen, StopVideo;
    var was := EndScreen(st, i.origConn, i.now);
    published := if was then [Post(i.channelID, ScreenOff(None), users)] else [];
    if us.video {
      EndVideo(st, i.origConn, i.now);
      published := published + [Post(i.channelID, VideoOff(i.userID, i.origConn), users)];
    }
  }

  /** The call after the session has gone, and what is published about it. */
  method LeaveCallIn(env: Env, st: CallState, order: seq<Session>, rest: Sessions, us: Session, i: LeaveIn)
    returns (published: seq<Post>, ghost hint: Id)
    requires Visits(order, rest) && PeopledRows(rest)
    modifies st`call, st`people, st`dismissed, st`video, st.video
    ensures st.CallRow() == LeaveCall(env, old(st.CallRow()), us, rest, i.(hint := hint))
    ensures published == LeavePosts(env, old(st.CallRow()), us, rest, i.(hint := hint))
    ensures st.JobRows() == old(st.JobRows())
    ensures (st.video == null || st.video == old(st.video)) && (st.people == null || st.people == old(st.people))
  {
    hide DropScreen, DropVideo, DropHost, EndCall, UsersOf, NextHost, Publish, LeaveCall, LeavePosts, Call.Host, Visits;
    var users := ToUsers(UsersOf(rest));
    ghost var c := st.CallRow();
    published := EndMedia(st, us, i, users);
    published := published + Publish(env.botID, Post(i.channelID, UserLeft(i.userID, i.origConn), ToChannel));
    var moved;
    moved, hint := PassHost(env, st, order, rest, i.userID, i.channelID, users);
    published := published + moved;
    LeaveParts(env, c, us, rest, i.(hint := hint));
    NobodyLeft(order, rest);
    if |order| == 0 { Finish(st, i.now); }
  }

  lemma LeaveParts(env: Env, c: Call, us: Session, rest: Sessions, i: LeaveIn)
    ensures var users := ToUsers(UsersOf(rest));
      var c1 := DropVideo(DropScreen(c, i.origConn, i.now), us, i.origConn, i.now);
      var c2 := DropHost(env, c1, rest, i.userID, i.hint);
      && LeaveCall(env, c, us, rest, i) == (if rest == map[] then EndCall(c2, i.now) else c2)
      && LeavePosts(env, c, us, rest, i)
         == (if c.props.screenID == i.origConn then [Post(i.channelID, ScreenOff(None), users)] else [])
            + (if us.video then [Post(i.channelID, VideoOff(i.userID, i.origConn), users)] else [])
            + Publish(env.botID, Post(i.channelID, UserLeft(i.userID, i.origConn), ToChannel))
            + if c2.Host() != c1.Host() then [Post(i.channelID, HostChanged(c2.Host()), users)] else []
  {
    hide DropScreen, DropVideo, DropHost, EndCall, UsersOf, Publish;
  }

  method OnlyLeft(order: seq<Session>, ghost rest: Sessions, user: Id) returns (only: bool)
    requires Visits(order, rest)
    ensures only == OnlyUserLeft(rest, user)
  {
    NobodyLeft(order, rest);
    for i := 0 to |order|
      invariant forall j | 0 <= j < i :: order[j].userID == user
    {
      if order[i].userID != user {
        assert order[i].id in rest;
        return false;
      }
    }
    forall k | k in rest ensures rest[k].userID == user { assert rest[k] in order; }
    return |order| > 0;
  }

  /** What the specification says of a leave. */
  ghost predicate AsLeft(env: Env, s: Store, orig: Option<State>, i: LeaveIn, err: Option<Err>, t: Store,
                         st: Option<State>, published: seq<Post>, stops: seq<Id>)
    requires i.now != 0
  {
    var o := Leave(env, s, orig, i);
    err == o.err && t == o.store && st == o.st && published == o.posts && stops == o.stops
  }

  method EndJobs(jobs: map<Id, Job>, st: CallState, orig: Id, conn: Id, only: bool, x: Ctx)
    returns (rows: map<Id, Job>, stops: seq<Id>)
    requires Apart(st.recording, st.transcription, st.captions) && x.now != 0
    modifies st.recording, st.transcription, st.captions
    ensures Desk(rows, st.JobRows(), stops) == LeaveJobs(Desk(jobs, old(st.JobRows()), []), orig, conn, only, x)
    ensures st.CallRow() == old(st.CallRow())
  {
    hide LeaveJobs;
    rows, stops := EndBotJobs(jobs, st.recording, st.transcription, st.captions, orig, conn, only, x);
  }

  /** The call and the jobs once the session has been taken out. They are independent of each other,
      so that the order of the two calls does not matter. */
  method LeaveWithout(env: Env, jobs: map<Id, Job>, st: CallState, order: seq<Session>, rest: Sessions, us: Session,
                      i: LeaveIn)
    returns (published: seq<Post>, rows: map<Id, Job>, stops: seq<Id>, ghost hint: Id)
    requires Visits(order, rest) && PeopledRows(rest)
    requires Apart(st.recording, st.transcription, st.captions) && i.now != 0
    modifies st`call, st`people, st`dismissed, st`video, st.video, st.recording, st.transcription, st.captions
    ensures st.CallRow() == LeaveCall(env, old(st.CallRow()), us, rest, i.(hint := hint))
    ensures published == LeavePosts(env, old(st.CallRow()), us, rest, i.(hint := hint))
    ensures (st.video == null || st.video == old(st.video)) && (st.people == null || st.people == old(st.people))
    ensures Desk(rows, st.JobRows(), stops)
      == LeaveJobs(Desk(jobs, old(st.JobRows()), []), i.origConn, i.connID, OnlyUserLeft(rest, env.botID),
                   Ctx(i.channelID, env.botID, i.now))
  {
    hide LeaveJobs, LeaveCall, LeavePosts, OnlyUserLeft, Visits, CallState.CallRow, CallState.JobRows;
    var only := OnlyLeft(order, rest, env.botID);
    rows, stops := EndJobs(jobs, st, i.origConn, i.connID, only, Ctx(i.channelID, env.botID, i.now));
    published, hint := LeaveCallIn(env, st, order, rest, us, i);
  }

  /** Deletes a session from the map and looks at the ones that stay. */
  method TakeOut(st: CallState, k: Id) returns (us: Session, order: seq<Session>)
    requires st.Valid() && Peopled(st) && k in st.sessions.m
    modifies st.sessions
    ensures st.Valid() && Peopled(st) && st.sessions.m == old(st.sessions.m) - {k}
    ensures k in old(st.sessions.Rows()) && us == old(st.sessions.Rows())[k]
    ensures st.sessions.Rows() == old(st.sessions.Rows()) - {k}
    ensures Visits(order, st.sessions.Rows()) && PeopledRows(st.sessions.Rows())
  {
    hide SessionTable.Rows, Peopled, PeopledRows, Visits;
    RowsAt(st.sessions, k);
    us := st.sessions.m[k].Row();
    CopyPeopled(st);
    FewerPeople(st.sessions.Rows(), k);
    st.sessions.Remove(k);
    CopyPeopled(st);
    order := Iterate(st);
  }

  /** removeUserSession. */
  method RemoveFrom(env: Env, s: Store, st: CallState, i: LeaveIn)
    returns (t: Store, published: seq<Post>, stops: seq<Id>, err: Option<Err>, ghost hint: Id)
    requires st.Valid() && Peopled(st) && i.now != 0
    modifies st`call, st`people, st`dismissed, st`video, st.video, st.sessions
    modifies st.recording, st.transcription, st.captions
    ensures AsLeft(env, s, Some(old(st.View())), i.(hint := hint), err, t, Some(st.View()), published, stops)
    ensures st.Valid() && Peopled(st) && (st.video == null || st.video == old(st.video))
    ensures st.people == null || st.people == old(st.people)
    ensures forall k | k in st.sessions.m :: k in old(st.sessions.m) && st.sessions.m[k] == old(st.sessions.m[k])
  {
    hide LeaveJobs, LeaveCall, LeavePosts, UpdateCall, AsLeft, OnlyUserLeft, Visits;
    hide CallState.CallRow, CallState.JobRows, SessionTable.Rows, Peopled, PeopledRows, Call.Host;
    ghost var v := st.View();
    RowsAt(st.sessions, i.origConn);
    if i.origConn !in st.sessions.m {
      NotInCallLeaves(env, s, v, i);
      return s, [], [], Some(NoSession), NONE;
    }
    var us, order := TakeOut(st, i.origConn);
    var rest := st.sessions.Rows();
    var rows;
    published, rows, stops, hint := LeaveWithout(env, s.jobs, st, order, rest, us, i);
    t := UpdateCall(DeleteSession(s, i.origConn).(jobs := rows), st.CallRow());
    err := None;
    LeftAsSpecified(env, s, v, us, i.(hint := hint), Desk(rows, st.JobRows(), stops), st.View());
  }

  lemma FewerPeople(s: Sessions, k: Id)
    requires PeopledRows(s)
    ensures PeopledRows(s - {k})
  {
  }

  lemma NotInCallLeaves(env: Env, s: Store, v: State, i: LeaveIn)
    requires i.now != 0 && i.origConn !in v.sessions
    ensures AsLeft(env, s, Some(v), i.(hint := NONE), Some(NoSession), s, Some(v), [], [])
  {
  }

  lemma LeftAsSpecified(env: Env, s: Store, v: State, us: Session, i: LeaveIn, d: Desk, w: State)
    requires i.now != 0 && i.origConn in v.sessions && us == v.sessions[i.origConn]
    requires w.sessions == v.sessions - {i.origConn}
    requires d == LeaveJobs(Desk(s.jobs, v.jobs, []), i.origConn, i.connID, OnlyUserLeft(w.sessions, env.botID),
                            Ctx(i.channelID, env.botID, i.now))
    requires w.jobs == d.jobs && w.call == LeaveCall(env, v.call, us, w.sessions, i)
    ensures AsLeft(env, s, Some(v), i, None, UpdateCall(DeleteSession(s, i.origConn).(jobs := d.rows), w.call), Some(w),
                   LeavePosts(env, v.call, us, w.sessions, i), d.stops)
  {
    hide LeaveJobs, LeaveCall, LeavePosts, UpdateCall, OnlyUserLeft;
  }
}
