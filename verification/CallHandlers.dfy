/** The handlers of an ongoing call as they run: each updates the state it has loaded in place and
    writes it back (server/websocket.go:167-246, 348-509; server/host_controls.go:23-76). */
module CallHandlers {
  import opened Basics
  import opened Rows
  import opened Load
  import opened Host
  import opened Posts
  import opened Membership
  import opened Handlers
  import opened CallStates
  import opened JoinHandlers

  /** What the specification says of a handler. */
  ghost predicate Handled(o: Out, err: Option<Err>, t: Store, w: State, published: seq<Post>) {
    err == o.err && t == o.store && o.st == Some(w) && published == o.posts && o.stops == []
  }

  // ---- in-place changes of one session ----

  method SetVideo(table: SessionTable, k: Id, on: bool)
    requires table.Distinct() && k in table.m
    modifies table.m[k]
    ensures table.Rows() == old(table.Rows())[k := old(table.Rows())[k].(video := on)]
  {
    table.m[k].video := on;
  }

  method SetUnmuted(table: SessionTable, k: Id, on: bool)
    requires table.Distinct() && k in table.m
    modifies table.m[k]
    ensures table.Rows() == old(table.Rows())[k := old(table.Rows())[k].(unmuted := on)]
  {
    table.m[k].unmuted := on;
  }

  method SetHand(table: SessionTable, k: Id, at: int)
    requires table.Distinct() && k in table.m
    modifies table.m[k]
    ensures table.Rows() == old(table.Rows())[k := old(table.Rows())[k].(raisedHand := at)]
  {
    table.m[k].raisedHand := at;
  }

  // ---- the handlers ----

  /** The call with the screen turned on or off, or an error. */
  method SetScreen(st: CallState, f: From, on: bool) returns (err: Option<Err>)
    modifies st`call
    ensures forall s, sessions, jobs ::
      var o := ScreenHandler(s, Some(State(old(st.CallRow()), sessions, jobs)), f, true, on);
      err == o.err && o.st.value.call == st.CallRow()
  {
    var c := st.call;
    if on {
      if c.props.screenID != NONE { return Some(AlreadySharing); }
      c := c.(props := c.props.(screenID := f.conn));
      c := c.(props := c.props.(screenStartAt := f.now / 1000));
      if !c.stats.hasUsedScreenShare { c := c.(stats := c.stats.(hasUsedScreenShare := true)); }
    } else {
      if c.props.screenID != f.conn { return Some(NotSharing); }
      c := c.(props := c.props.(screenID := NONE));
      if c.props.screenStartAt > 0 {
        c := c.(stats := c.stats.(screenDuration := SecondsSince(f.now, c.props.screenStartAt)));
        c := c.(props := c.props.(screenStartAt := 0));
      }
    }
    st.call := c;
    return None;
  }

  method Screen(s: Store, st: CallState, f: From, on: bool) returns (t: Store, published: seq<Post>, err: Option<Err>)
    requires st.Valid()
    modifies st`call
    ensures Handled(ScreenHandler(s, Some(old(st.View())), f, true, on), err, t, st.View(), published)
  {
    hide CallState.CallRow, CallState.JobRows, SessionTable.Rows, UsersOf, UpdateCall;
    err := SetScreen(st, f, on);
    if err.Some? { return s, [], err; }
    t := UpdateCall(s, st.CallRow());
    published := [Post(f.channelID, if on then ScreenOn(f.userID, f.conn)
                       else ScreenOff(Some(f.conn)), ToUsers(UsersOf(st.sessions.Rows())))];
  }

  /** The timer and the statistics of one session's video. */
  method SetTimer(st: CallState, f: From, on: bool)
    modifies st`call, st`video, st.video
    ensures st.CallRow() == if on then StartVideo(old(st.CallRow()), f.conn, f.now)
      else StopVideo(old(st.CallRow()), f.conn, f.now)
    ensures st.video == old(st.video) || fresh(st.video)
  {
    var c := st.call;
    if on {
      if st.video == null { st.video := new Timers(map[]); }
      st.video.m := st.video.m[f.conn := f.now / 1000];
      if !c.stats.hasUsedVideo { st.call := c.(stats := c.stats.(hasUsedVideo := true)); }
    } else if st.video != null && f.conn in st.video.m && st.video.m[f.conn] > 0 {
      st.call := c.(stats := c.stats.(videoDuration := c.stats.videoDuration
                                      + SecondsSince(f.now, st.video.m[f.conn])));
      st.video.m := st.video.m - {f.conn};
    }
  }

  method Video(s: Store, st: CallState, f: From, on: bool) returns (t: Store, published: seq<Post>, err: Option<Err>)
    requires st.Valid()
    modifies st`call, st`video, st.video, st.sessions.m.Values
    ensures Handled(VideoHandler(s, Some(old(st.View())), f, on), err, t, st.View(), published)
  {
    hide CallState.CallRow, CallState.JobRows, SessionTable.Rows, UsersOf, UpdateCall, UpdateSession, StartVideo;
    hide StopVideo;
    RowsAt(st.sessions, f.conn);
    if f.conn !in st.sessions.m { return s, [], Some(NoSession); }
    SetVideo(st.sessions, f.conn, on);
    SetTimer(st, f, on);
    RowsAt(st.sessions, f.conn);
    t := UpdateCall(UpdateSession(s, st.sessions.m[f.conn].Row()), st.CallRow());
    err := None;
    published := [Post(f.channelID, if on then VideoOn(f.userID, f.conn)
                       else VideoOff(f.userID, f.conn), ToUsers(UsersOf(st.sessions.Rows())))];
  }

  method Mute(s: Store, st: CallState, f: From, unmute: bool) returns (t: Store, published: seq<Post>, err: Option<Err>)
    requires st.Valid()
    modifies st.sessions.m.Values
    ensures Handled(MuteHandler(s, Some(old(st.View())), f, unmute), err, t, st.View(), published)
  {
    hide CallState.CallRow, CallState.JobRows, SessionTable.Rows, UsersOf, UpdateSession;
    RowsAt(st.sessions, f.conn);
    if f.conn !in st.sessions.m { return s, [], Some(NoSession); }
    SetUnmuted(st.sessions, f.conn, unmute);
    RowsAt(st.sessions, f.conn);
    t := UpdateSession(s, st.sessions.m[f.conn].Row());
    err := None;
    published := [Post(f.channelID, if unmute then Unmuted(f.userID, f.conn)
                       else Muted(f.userID, f.conn), ToUsers(UsersOf(st.sessions.Rows())))];
  }

  method Hand(s: Store, st: CallState, f: From, raise: bool) returns (t: Store, published: seq<Post>, err: Option<Err>)
    requires st.Valid()
    modifies st.sessions.m.Values
    ensures Handled(HandHandler(s, Some(old(st.View())), f, raise), err, t, st.View(), published)
  {
    hide CallState.CallRow, CallState.JobRows, SessionTable.Rows, UsersOf, UpdateSession;
    RowsAt(st.sessions, f.conn);
    if f.conn !in st.sessions.m { return s, [], Some(NoSession); }
    SetHand(st.sessions, f.conn, if raise then f.now else 0);
    RowsAt(st.sessions, f.conn);
    var at := st.sessions.m[f.conn].raisedHand;
    t := UpdateSession(s, st.sessions.m[f.conn].Row());
    err := None;
    published := [Post(f.channelID, if raise then RaiseHand(f.userID, f.conn, at)
                       else UnraiseHand(f.userID, f.conn, at), ToUsers(UsersOf(st.sessions.Rows())))];
  }

  method Appoint(st: CallState, newHost: Id)
    modifies st`call
    ensures st.CallRow()
      == old(st.CallRow()).(props := old(st.CallRow()).props.(hosts := [newHost], hostLocked := newHost))
  {
    var c := st.call;
    c := c.(props := c.props.(hosts := [newHost]));
    st.call := c.(props := c.props.(hostLocked := newHost));
  }

  method AssignHost(env: Env, s: Store, st: CallState, ch: Id, requester: Id, isAdmin: bool, newHost: Id)
    returns (t: Store, published: seq<Post>, err: Option<Err>)
    requires st.Valid() && Peopled(st)
    modifies st`call
    ensures Handled(ChangeHost(env, s, Some(old(st.View())), ch, requester, isAdmin, newHost), err, t, st.View(),
                    published)
  {
    hide CallState.JobRows, SessionTable.Rows, UsersOf, UpdateCall, InCall, Visits, Peopled;
    t, published, err := s, [], None;
    var c := st.call;
    if requester != c.Host() && !isAdmin { return t, [], Some(NotAllowed); }
    if newHost == env.botID { return t, [], Some(NotAllowed); }
    if c.Host() == newHost {
      if c.props.hostLocked == NONE {
        st.call := c.(props := c.props.(hostLocked := newHost));
        t := UpdateCall(s, st.CallRow());
      }
      return t, [], None;
    }
    var order := Iterate(st);
    var present := IsUserIDInCall(order, newHost);
    ListedIffInCall(order, st.sessions.Rows(), newHost);
    if !present { return t, [], Some(NotInCall); }
    Appoint(st, newHost);
    t := UpdateCall(s, st.CallRow());
    published := [Post(ch, HostChanged(newHost), ToUsers(UsersOf(st.sessions.Rows())))];
  }
}
