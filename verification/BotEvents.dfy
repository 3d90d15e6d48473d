/** What the clients see of the bot. Its sessions are left out of every snapshot and its joining and
    leaving are not published, but the other events about it are (server/state.go:240-256,
    server/websocket.go:121-165). */
module BotEvents {
  import opened Basics
  import opened Rows
  import opened Load
  import opened Host
  import opened Posts
  import opened Membership
  import opened Handlers
  import opened Reducers
  import opened Mirror
  import opened MirrorRuns

  /** An event about one session keeps the mirror exactly when the session is not the bot's. */
  lemma TouchMirrorsIff(env: Env, cl: Client, c: Call, c1: Call, s: Sessions, k: Id, u: Session, e: Event, user: Id)
    requires k in s && s[k].userID == u.userID && u.id == s[k].id
    requires c1.id == c.id && c1.Host() == c.Host() && c1.props.screenID == c.props.screenID
    requires Touches(e, s, k, u)
    requires InCall(s, user) && user != env.botID && Mirrors(cl, c.channelID, ViewOf(c, s, env.botID))
    ensures var s1 := s[k := u];
      Mirrors(Receive(cl, [Post(c.channelID, e, ToUsers(UsersOf(s1)))], user), c.channelID, ViewOf(c1, s1, env.botID))
      <==> u.userID != env.botID
  {
    hide Receive, ViewOf;
    var s1 := s[k := u];
    if u.userID != env.botID {
      MirrorTouch(env, cl, c, c1, s, k, u, e, user);
    } else {
      SeenAfterwards(env, s, k, u, user);
      ReceiveOne(cl, Post(c.channelID, e, ToUsers(UsersOf(s1))), user);
      Noticed(cl, c.channelID, e, k);
      BotUnlisted(env, c1, s1, k);
    }
  }

  /** The event is about session k and u is the session after it. */
  predicate Touches(e: Event, s: Sessions, k: Id, u: Session)
    requires k in s
  {
    match e
    case Muted(_, x) => x == k && u == s[k].(unmuted := false)
    case Unmuted(_, x) => x == k && u == s[k].(unmuted := true)
    case VideoOn(_, x) => x == k && u == s[k].(video := true)
    case VideoOff(_, x) => x == k && u == s[k].(video := false)
    case RaiseHand(_, x, at) => x == k && u == s[k].(raisedHand := at)
    case UnraiseHand(_, x, at) => x == k && u == s[k].(raisedHand := at)
    case _ => false
  }

  lemma SeenAfterwards(env: Env, s: Sessions, k: Id, u: Session, user: Id)
    requires k in s && s[k].userID == u.userID && InCall(s, user) && user != env.botID
    ensures user in UsersOf(s[k := u])
  {
    var x :| x in s && s[x].userID == user;
    assert s[k := u][x].userID == user;
  }

  /** An event about a session makes the client list that session. */
  lemma Noticed(cl: Client, ch: Id, e: Event, k: Id)
    requires match e
      case Muted(_, x) => x == k
      case Unmuted(_, x) => x == k
      case VideoOn(_, x) => x == k
      case VideoOff(_, x) => x == k
      case RaiseHand(_, x, _) => x == k
      case UnraiseHand(_, x, _) => x == k
      case _ => false
    ensures k in EntriesAt(OnEvent(cl, ch, e), ch)
  {
  }

  lemma BotUnlisted(env: Env, c: Call, s: Sessions, k: Id)
    requires k in s ==> s[k].userID == env.botID
    ensures k !in EntriesOf(ViewOf(c, s, env.botID).sessions)
  {
  }

  lemma MuteMirrorsIff(env: Env, s: Store, b: State, f: From, unmute: bool, cl: Client, user: Id)
    requires b.call.channelID == f.channelID && f.conn in b.sessions && b.sessions[f.conn].userID == f.userID
    requires InCall(b.sessions, user) && user != env.botID
    requires Mirrors(cl, f.channelID, ViewOf(b.call, b.sessions, env.botID))
    ensures var o := MuteHandler(s, Some(b), f, unmute);
      Mirrors(Receive(cl, o.posts, user), f.channelID, ViewOf(o.st.value.call, o.st.value.sessions, env.botID))
      <==> f.userID != env.botID
  {
    hide Receive, ViewOf, Mirrors;
    TouchMirrorsIff(env, cl, b.call, b.call, b.sessions, f.conn, b.sessions[f.conn].(unmuted := unmute),
                    if unmute then Unmuted(f.userID, f.conn) else Muted(f.userID, f.conn), user);
  }

  lemma HandMirrorsIff(env: Env, s: Store, b: State, f: From, raise: bool, cl: Client, user: Id)
    requires b.call.channelID == f.channelID && f.conn in b.sessions && b.sessions[f.conn].userID == f.userID
    requires InCall(b.sessions, user) && user != env.botID
    requires Mirrors(cl, f.channelID, ViewOf(b.call, b.sessions, env.botID))
    ensures var o := HandHandler(s, Some(b), f, raise);
      Mirrors(Receive(cl, o.posts, user), f.channelID, ViewOf(o.st.value.call, o.st.value.sessions, env.botID))
      <==> f.userID != env.botID
  {
    hide Receive, ViewOf, Mirrors;
    var at := if raise then f.now else 0;
    TouchMirrorsIff(env, cl, b.call, b.call, b.sessions, f.conn, b.sessions[f.conn].(raisedHand := at),
                    if raise then RaiseHand(f.userID, f.conn, at) else UnraiseHand(f.userID, f.conn, at), user);
  }

  lemma VideoMirrorsIff(env: Env, s: Store, b: State, f: From, on: bool, cl: Client, user: Id)
    requires b.call.channelID == f.channelID && f.conn in b.sessions && b.sessions[f.conn].userID == f.userID
    requires InCall(b.sessions, user) && user != env.botID
    requires Mirrors(cl, f.channelID, ViewOf(b.call, b.sessions, env.botID))
    ensures var o := VideoHandler(s, Some(b), f, on);
      Mirrors(Receive(cl, o.posts, user), f.channelID, ViewOf(o.st.value.call, o.st.value.sessions, env.botID))
      <==> f.userID != env.botID
  {
    hide Receive, ViewOf, Mirrors;
    TouchMirrorsIff(env, cl, b.call, VideoHandler(s, Some(b), f, on).st.value.call, b.sessions, f.conn,
                    b.sessions[f.conn].(video := on),
                    if on then VideoOn(f.userID, f.conn) else VideoOff(f.userID, f.conn), user);
  }

  /** A screen message keeps the mirror whoever sends it, the bot included: the sharer is part of
      the snapshot even when its session is not. */
  lemma ScreenMirrorsAlways(env: Env, s: Store, b: State, f: From, allowed: bool, on: bool, cl: Client, user: Id)
    requires b.call.channelID == f.channelID
    requires InCall(b.sessions, user) && user != env.botID
    requires Mirrors(cl, f.channelID, ViewOf(b.call, b.sessions, env.botID))
    ensures var o := ScreenHandler(s, Some(b), f, allowed, on);
      Mirrors(Receive(cl, o.posts, user), f.channelID, ViewOf(o.st.value.call, o.st.value.sessions, env.botID))
  {
    hide Mirrors, Receive, ViewOf;
    var o := ScreenHandler(s, Some(b), f, allowed, on);
    ReceiveNothing(cl, user);
    if o.err.None? {
      MirrorCall(env, cl, b.call, o.st.value.call, b.sessions,
                 if on then ScreenOn(f.userID, f.conn) else ScreenOff(Some(f.conn)), user);
    }
  }

  /** A leave of the bot keeps the mirror exactly when it neither shared its screen nor had its video
      on: its user_left is not published, and the screen_off of a leave names no session. */
  lemma BotLeaveMirrorsIff(env: Env, cl: Client, c: Call, s: Sessions, i: LeaveIn, user: Id)
    requires i.origConn in s && i.origConn != NONE && s[i.origConn].id == i.origConn
    requires i.userID == env.botID == s[i.origConn].userID
    requires InCall(s - {i.origConn}, user) && user != env.botID
    requires Mirrors(cl, i.channelID, ViewOf(c, s, env.botID))
    ensures var (us, rest) := (s[i.origConn], s - {i.origConn});
      Mirrors(Receive(cl, LeavePosts(env, c, us, rest, i), user), i.channelID,
              ViewOf(LeaveCall(env, c, us, rest, i), rest, env.botID))
      <==> c.props.screenID != i.origConn && !us.video
  {
    hide Mirrors, OnEvent, StatesOf, DropHost, DropVideo, DropScreen, UsersOf, Receive, LeaveCall, EndCall;
    var (k, us, rest) := (i.origConn, s[i.origConn], s - {i.origConn});
    var ch, v := i.channelID, ViewOf(c, s, env.botID);
    var c1 := DropVideo(DropScreen(c, k, i.now), us, k, i.now);
    var c2 := DropHost(env, c1, rest, i.userID, i.hint);
    var users := ToUsers(UsersOf(rest));
    var e1 := if c.props.screenID == k then [ScreenOff(None)] else [];
    var e2 := if us.video then [VideoOff(i.userID, k)] else [];
    var e4 := if c2.Host() != c1.Host() then [HostChanged(c2.Host())] else [];
    UserListed(rest, user);
    LeaveView(env, c, s, i);
    assert LeavePosts(env, c, us, rest, i) == Addressed(ch, e1, users) + Addressed(ch, e2, users) + []
      + Addressed(ch, e4, users);
    var cl1 := Handled(cl, ch, e1);
    var cl2 := Handled(cl1, ch, e2);
    var cl3 := Handled(cl2, ch, e4);
    ReceiveAddressed(cl, ch, e1, users, user);
    ReceiveAddressed(cl1, ch, e2, users, user);
    ReceiveAddressed(cl2, ch, e4, users, user);
    ReceiveAppend(cl, Addressed(ch, e1, users), Addressed(ch, e2, users), user);
    var two := Addressed(ch, e1, users) + Addressed(ch, e2, users);
    assert two + [] == two;
    ReceiveAppend(cl, two, Addressed(ch, e4, users), user);
    if c.props.screenID == k {
      SharerStays(cl, ch, v, k, e2, e4);
      NoSharer(env, cl3, ch, c2, rest);
    } else if us.video {
      BotListed(cl1, ch, i.userID, k, e4);
      Unlisted(env, cl3, ch, c2, rest, k);
    } else {
      StatesDrop(s, env.botID, k);
      StatesHas(s, env.botID, k);
      if e4 != [] { HostMoved(cl2, ch, v, c2.Host()); }
    }
  }

  /** At most one event, to the given users. */
  function Addressed(ch: Id, es: seq<Event>, users: To): seq<Post>
    requires |es| <= 1
  {
    if es == [] then [] else [Post(ch, es[0], users)]
  }

  function Handled(cl: Client, ch: Id, es: seq<Event>): Client
    requires |es| <= 1
  {
    if es == [] then cl else OnEvent(cl, ch, es[0])
  }

  lemma ReceiveAddressed(cl: Client, ch: Id, es: seq<Event>, users: To, user: Id)
    requires |es| <= 1 && users.ToUsers? && user in users.users
    ensures Receive(cl, Addressed(ch, es, users), user) == Handled(cl, ch, es)
  {
    if es == [] { ReceiveNothing(cl, user); } else { ReceiveOne(cl, Post(ch, es[0], users), user); }
  }

  lemma UserListed(s: Sessions, user: Id)
    requires InCall(s, user)
    ensures user in UsersOf(s) && s != map[]
  {
  }

  /** None of the events of such a leave clears a sharer. */
  lemma SharerStays(cl: Client, ch: Id, v: ClientView, k: Id, e2: seq<Event>, e4: seq<Event>)
    requires Mirrors(cl, ch, v) && v.screenID == k && k != NONE
    requires |e2| <= 1 && (e2 != [] ==> e2[0].VideoOff?) && |e4| <= 1 && (e4 != [] ==> e4[0].HostChanged?)
    ensures GetOr(Handled(Handled(Handled(cl, ch, [ScreenOff(None)]), ch, e2), ch, e4).screens, ch) == k
  {
  }

  lemma NoSharer(env: Env, cl: Client, ch: Id, c: Call, s: Sessions)
    requires c.props.screenID == NONE && GetOr(cl.screens, ch) != NONE
    ensures !Mirrors(cl, ch, ViewOf(c, s, env.botID))
  {
  }

  lemma BotListed(cl: Client, ch: Id, user: Id, k: Id, e4: seq<Event>)
    requires |e4| <= 1 && (e4 != [] ==> e4[0].HostChanged?)
    ensures k in EntriesAt(Handled(Handled(cl, ch, [VideoOff(user, k)]), ch, e4), ch)
  {
    Noticed(cl, ch, VideoOff(user, k), k);
  }

  lemma Unlisted(env: Env, cl: Client, ch: Id, c: Call, s: Sessions, k: Id)
    requires k in EntriesAt(cl, ch) && k !in s
    ensures !Mirrors(cl, ch, ViewOf(c, s, env.botID))
  {
    BotUnlisted(env, c, s, k);
  }
}
