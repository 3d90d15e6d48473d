/** The handlers of an ongoing call: screen, video, mute, raised hand, change of host
    (server/websocket.go:167-246, 348-509; server/host_controls.go:23-76). */
module Handlers {
  import opened Basics
  import opened Rows
  import opened Load
  import opened Host
  import opened Posts
  import opened Membership

  /** A message from a connected session. */
  datatype From = From(userID: Id, conn: Id, channelID: Id, now: int)

  function Published(f: From, e: Event, s: Sessions): seq<Post> {
    [Post(f.channelID, e, ToUsers(UsersOf(s)))]
  }

  function ScreenHandler(s: Store, st: Option<State>, f: From, allowed: bool, on: bool): Out {
    if !allowed then Refuse(s, st, NotAllowed)
    else if st.None? then Refuse(s, st, NoCall)
    else
      var c := st.value.call;
      if on then
        if c.props.screenID != NONE then Refuse(s, st, AlreadySharing) else
          var c1 := c.(props := c.props.(screenID := f.conn, screenStartAt := f.now / 1000),
                       stats := c.stats.(hasUsedScreenShare := true));
          Out(UpdateCall(s, c1), Some(st.value.(call := c1)), None,
              Published(f, ScreenOn(f.userID, f.conn), st.value.sessions), [])
      else
        if c.props.screenID != f.conn then Refuse(s, st, NotSharing) else
          var c1 := if c.props.screenStartAt > 0 then
                      c.(props := c.props.(screenID := NONE, screenStartAt := 0),
                         stats := c.stats.(screenDuration := SecondsSince(f.now, c.props.screenStartAt)))
                    else c.(props := c.props.(screenID := NONE));
          Out(UpdateCall(s, c1), Some(st.value.(call := c1)), None,
              Published(f, ScreenOff(Some(f.conn)), st.value.sessions), [])
  }

  function StartVideo(c: Call, conn: Id, now: int): Call {
    c.(props := c.props.(videoStartAt := c.props.videoStartAt[conn := now / 1000]),
       stats := c.stats.(hasUsedVideo := true))
  }

  function VideoHandler(s: Store, st: Option<State>, f: From, on: bool): Out {
    if st.None? then Refuse(s, st, NoCall)
    else if f.conn !in st.value.sessions then Refuse(s, st, NoSession)
    else
      var us := st.value.sessions[f.conn].(video := on);
      var c := if on then StartVideo(st.value.call, f.conn, f.now) else StopVideo(st.value.call, f.conn, f.now);
      var sessions := st.value.sessions[f.conn := us];
      Out(UpdateCall(UpdateSession(s, us), c), Some(st.value.(call := c, sessions := sessions)), None,
          Published(f, if on then VideoOn(f.userID, f.conn) else VideoOff(f.userID, f.conn), sessions), [])
  }

  function MuteHandler(s: Store, st: Option<State>, f: From, unmute: bool): Out {
    if st.None? then Refuse(s, st, NoCall)
    else if f.conn !in st.value.sessions then Refuse(s, st, NoSession)
    else
      var us := st.value.sessions[f.conn].(unmuted := unmute);
      var sessions := st.value.sessions[f.conn := us];
      Out(UpdateSession(s, us), Some(st.value.(sessions := sessions)), None,
          Published(f, if unmute then Unmuted(f.userID, f.conn) else Muted(f.userID, f.conn), sessions), [])
  }

  function HandHandler(s: Store, st: Option<State>, f: From, raise: bool): Out {
    if st.None? then Refuse(s, st, NoCall)
    else if f.conn !in st.value.sessions then Refuse(s, st, NoSession)
    else
      var us := st.value.sessions[f.conn].(raisedHand := if raise then f.now else 0);
      var sessions := st.value.sessions[f.conn := us];
      Out(UpdateSession(s, us), Some(st.value.(sessions := sessions)), None,
          Published(f, if raise then RaiseHand(f.userID, f.conn, us.raisedHand)
                       else UnraiseHand(f.userID, f.conn, us.raisedHand), sessions), [])
  }

  function ChangeHost(env: Env, s: Store, st: Option<State>, channelID: Id, requester: Id, isAdmin: bool,
                      newHost: Id): Out {
    if st.None? then Refuse(s, st, NoCall)
    else
      var c := st.value.call;
      if requester != c.Host() && !isAdmin then Refuse(s, st, NotAllowed)
      else if newHost == env.botID then Refuse(s, st, NotAllowed)
      else if c.Host() == newHost then
        if c.props.hostLocked == NONE then
          var c1 := c.(props := c.props.(hostLocked := newHost));
          Out(UpdateCall(s, c1), Some(st.value.(call := c1)), None, [], [])
        else Out(s, st, None, [], [])
      else if !InCall(st.value.sessions, newHost) then Refuse(s, st, NotInCall)
      else
        var c1 := c.(props := c.props.(hosts := [newHost], hostLocked := newHost));
        Out(UpdateCall(s, c1), Some(st.value.(call := c1)), None,
            [Post(channelID, HostChanged(newHost), ToUsers(UsersOf(st.value.sessions)))], [])
  }
}
