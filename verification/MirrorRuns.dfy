/** The mirror over whole steps and runs. */
module MirrorRuns {
  import opened Basics
  import opened Rows
  import opened Load
  import opened JobDesk
  import opened JobFacts
  import opened Host
  import opened Posts
  import opened Membership
  import opened Handlers
  import opened Machine
  import opened Invariant
  import opened Steps
  import opened WriteThrough
  import opened Locality
  import opened Reducers
  import opened Mirror

  // ---- receiving several posts ----

  lemma {:induction false} ReceiveAppend(c: Client, a: seq<Post>, b: seq<Post>, user: Id)
    ensures Receive(c, a + b, user) == Receive(Receive(c, a, user), b, user)
    decreases |a|
  {
    if a == [] {
      assert a + b == b;
    } else {
      var c1 := if Reaches(a[0], user) then OnEvent(c, a[0].channelID, a[0].event) else c;
      assert (a + b)[0] == a[0] && (a + b)[1..] == a[1..] + b;
      ReceiveAppend(c1, a[1..], b, user);
    }
  }

  lemma ReceiveOne(c: Client, p: Post, user: Id)
    ensures Receive(c, [p], user) == if Reaches(p, user) then OnEvent(c, p.channelID, p.event) else c
    ensures Receive(c, [], user) == c
  {
  }

  lemma {:induction false} OtherPosts(c: Client, posts: seq<Post>, user: Id, ch: Id, other: Id, v: ClientView)
    requires other != ch && (forall p | p in posts :: p.channelID == other) && Mirrors(c, ch, v)
    ensures Mirrors(Receive(c, posts, user), ch, v)
    decreases |posts|
  {
    if posts != [] {
      var p := posts[0];
      OtherChannel(c, ch, other, p.event, v);
      OtherPosts(if Reaches(p, user) then OnEvent(c, p.channelID, p.event) else c, posts[1..], user, ch, other, v);
    }
  }

  // ---- the server's view before and after ----

  /** The call of a channel as the server would send it. */
  ghost predicate ServerView(env: Env, s: Store, ch: Id, v: ClientView) {
    Reload(s, ch).Some? && v == ViewOf(Reload(s, ch).value.call, Reload(s, ch).value.sessions, env.botID)
  }

  /** A user other than the bot with a session in the channel's call. */
  ghost predicate Participates(env: Env, s: Store, ch: Id, user: Id) {
    user != env.botID && user != NONE && Reload(s, ch).Some? && InCall(Reload(s, ch).value.sessions, user)
  }

  /** The bot neither shares a screen nor has its video on. */
  predicate BotQuiet(bot: Id, c: Call, s: Sessions) {
    forall k | k in s && s[k].userID == bot :: !s[k].video && c.props.screenID != k
  }

  /** The bot does nothing but join and leave. */
  predicate NotByBot(env: Env, op: Op) {
    match op
    case ScreenOp(f, _, _) => f.userID != env.botID
    case VideoOp(f, _) => f.userID != env.botID
    case MuteOp(f, _) => f.userID != env.botID
    case HandOp(f, _) => f.userID != env.botID
    case _ => true
  }

  lemma StatesPut(s: Sessions, bot: Id, k: Id, u: Session)
    ensures StatesOf(s[k := u], bot)
         == if u.userID != bot
            then StatesOf(s, bot)[k := ClientSession(u.id, u.userID, u.unmuted, u.raisedHand, u.video)]
            else StatesOf(s, bot) - {k}
  {
  }

  lemma StatesDrop(s: Sessions, bot: Id, k: Id)
    ensures StatesOf(s - {k}, bot) == StatesOf(s, bot) - {k}
  {
  }

  lemma ParticipantSeen(s: Sessions, bot: Id, user: Id)
    requires InCall(s, user) && user != bot
    ensures StatesOf(s, bot) != map[] && user in UsersOf(s)
  {
    var k :| k in s && s[k].userID == user;
    assert k in StatesOf(s, bot);
  }

  // ---- one handler against the mirror; c and s are the call and its sessions before ----

  lemma MirrorJoin(env: Env, cl: Client, c: Call, s: Sessions, c1: Call, i: JoinIn, user: Id)
    requires env.botID != NONE && i.connID !in s && InCall(s, user) && user != env.botID
    requires Mirrors(cl, i.channelID, ViewOf(c, s, env.botID)) && c.channelID == i.channelID
    requires c1.id == c.id && c1.props.screenID == c.props.screenID
    ensures var s1 := s[i.connID := NewSession(c.id, i)];
      var posts := HostPost(env, c, c1, s1) + []
        + Publish(env.botID, Post(i.channelID, UserJoined(i.userID, i.connID), ToChannel))
        + [Post(i.channelID, Snapshot(ViewOf(c1, s1, env.botID)), ToUser(i.userID))];
      Mirrors(Receive(cl, posts, user), i.channelID, ViewOf(c1, s1, env.botID))
  {
    hide Mirrors, OnEvent, ViewOf, StatesOf;
    var s1 := s[i.connID := NewSession(c.id, i)];
    var ch, v, v1 := i.channelID, ViewOf(c, s, env.botID), ViewOf(c1, s1, env.botID);
    JoinViews(env, c, s, c1, i);
    assert InCall(s1, user) by { var k :| k in s && s[k].userID == user; assert k in s1; }
    ParticipantSeen(s1, env.botID, user);
    var hp := HostPost(env, c, c1, s1);
    var jp := Publish(env.botID, Post(ch, UserJoined(i.userID, i.connID), ToChannel));
    var sp := [Post(ch, Snapshot(v1), ToUser(i.userID))];
    var w := v.(hostID := c1.Host());
    if hp != [] { HostMoved(cl, ch, v, c1.Host()); ReceiveOne(cl, hp[0], user); } else { ReceiveOne(cl, sp[0], user); }
    var cl1 := Receive(cl, hp, user);
    assert Mirrors(cl1, ch, w);
    if jp != [] {
      Entered(cl1, ch, w, i.userID, i.connID);
      ReceiveOne(cl1, jp[0], user);
    } else {
      ReceiveOne(cl1, sp[0], user);
    }
    var cl2 := Receive(cl1, jp, user);
    assert Mirrors(cl2, ch, v1);
    SnapshotMirrors(cl2, ch, v1);
    ReceiveOne(cl2, sp[0], user);
    ReceiveAppend(cl, hp + [], jp, user);
    ReceiveAppend(cl, hp + [] + jp, sp, user);
    assert hp + [] == hp;
  }

  lemma JoinViews(env: Env, c: Call, s: Sessions, c1: Call, i: JoinIn)
    requires i.connID !in s && c1.id == c.id && c1.props.screenID == c.props.screenID
    ensures var s1 := s[i.connID := NewSession(c.id, i)];
      var (v, v1) := (ViewOf(c, s, env.botID), ViewOf(c1, s1, env.botID));
      v1 == (if i.userID == env.botID then v.(hostID := c1.Host())
             else v.(hostID := c1.Host(), sessions := v.sessions[i.connID := ClientSession(i.connID, i.userID, false, 0,
                                                                                           false)]))
      && v.hostID == c.Host()
  {
    StatesPut(s, env.botID, i.connID, NewSession(c.id, i));
    assert StatesOf(s, env.botID) - {i.connID} == StatesOf(s, env.botID);
  }

  lemma MirrorLeave(env: Env, cl: Client, c: Call, s: Sessions, i: LeaveIn, user: Id)
    requires i.origConn in s && i.origConn != NONE && s[i.origConn].userID == i.userID && s[i.origConn].id == i.origConn
    requires InCall(s - {i.origConn}, user) && user != env.botID && BotQuiet(env.botID, c, s)
    requires Mirrors(cl, i.channelID, ViewOf(c, s, env.botID))
    ensures var (us, rest) := (s[i.origConn], s - {i.origConn});
      Mirrors(Receive(cl, LeavePosts(env, c, us, rest, i), user), i.channelID,
              ViewOf(LeaveCall(env, c, us, rest, i), rest, env.botID))
  {
    hide Mirrors, OnEvent, StatesOf, DropHost, UsersOf;
    var k, us, rest := i.origConn, s[i.origConn], s - {i.origConn};
    var ch, v := i.channelID, ViewOf(c, s, env.botID);
    var c1 := DropVideo(DropScreen(c, k, i.now), us, k, i.now);
    var c2 := DropHost(env, c1, rest, i.userID, i.hint);
    ParticipantSeen(rest, env.botID, user);
    StatesDrop(s, env.botID, k);
    var users := ToUsers(UsersOf(rest));
    var p1 := if c.props.screenID == k then [Post(ch, ScreenOff(None), users)] else [];
    var p2 := if us.video then [Post(ch, VideoOff(i.userID, k), users)] else [];
    var p3 := Publish(env.botID, Post(ch, UserLeft(i.userID, k), ToChannel));
    var p4 := if c2.Host() != c1.Host() then [Post(ch, HostChanged(c2.Host()), users)] else [];
    var any := Post(ch, ScreenOff(None), users);
    ReceiveOne(cl, any, user);
    if p1 != [] { Unshared(cl, ch, v, None); }
    var cl1 := Receive(cl, p1, user);
    assert Mirrors(cl1, ch, v);
    ReceiveOne(cl1, Post(ch, VideoOff(i.userID, k), users), user);
    StatesHas(s, env.botID, k);
    var v2 := if us.video then v.(sessions := v.sessions[k := v.sessions[k].(video := false)]) else v;
    if p2 != [] { SessionRewritten(cl1, ch, v, VideoOff(i.userID, k), k, v.sessions[k].(video := false)); }
    var cl2 := Receive(cl1, p2, user);
    assert Mirrors(cl2, ch, v2);
    ReceiveOne(cl2, Post(ch, UserLeft(i.userID, k), ToChannel), user);
    assert v2.sessions - {k} == v.sessions - {k};
    var v3 := v.(sessions := v.sessions - {k}, screenID := if v.screenID == k then NONE else v.screenID);
    if p3 != [] { Left(cl2, ch, v2, i.userID, k); }
    var cl3 := Receive(cl2, p3, user);
    assert Mirrors(cl3, ch, v3);
    ReceiveOne(cl3, Post(ch, HostChanged(c2.Host()), users), user);
    if p4 != [] { HostMoved(cl3, ch, v3, c2.Host()); }
    LeaveView(env, c, s, i);
    ReceiveAppend(cl, p1, p2, user);
    ReceiveAppend(cl, p1 + p2, p3, user);
    ReceiveAppend(cl, p1 + p2 + p3, p4, user);
  }

  lemma StatesHas(s: Sessions, bot: Id, k: Id)
    requires k in s
    ensures k in StatesOf(s, bot) <==> s[k].userID != bot
    ensures s[k].userID == bot ==> StatesOf(s, bot) - {k} == StatesOf(s, bot)
  {
  }

  lemma LeaveView(env: Env, c: Call, s: Sessions, i: LeaveIn)
    requires i.origConn in s && s - {i.origConn} != map[]
    ensures var (us, rest) := (s[i.origConn], s - {i.origConn});
      var c1 := DropVideo(DropScreen(c, i.origConn, i.now), us, i.origConn, i.now);
      var c2 := DropHost(env, c1, rest, i.userID, i.hint);
      && LeaveCall(env, c, us, rest, i) == c2
      && c1.Host() == c.Host() && c2.id == c.id
      && c2.props.screenID == (if c.props.screenID == i.origConn then NONE else c.props.screenID)
  {
  }

  /** The four handlers about one session, and the two about the whole call. */
  lemma MirrorTouch(env: Env, cl: Client, c: Call, c1: Call, s: Sessions, k: Id, u: Session, e: Event, user: Id)
    requires k in s && s[k].userID == u.userID != env.botID && u.id == s[k].id
    requires c1.id == c.id && c1.Host() == c.Host() && c1.props.screenID == c.props.screenID
    requires match e
      case Muted(_, x) => x == k && u == s[k].(unmuted := false)
      case Unmuted(_, x) => x == k && u == s[k].(unmuted := true)
      case VideoOn(_, x) => x == k && u == s[k].(video := true)
      case VideoOff(_, x) => x == k && u == s[k].(video := false)
      case RaiseHand(_, x, at) => x == k && u == s[k].(raisedHand := at)
      case UnraiseHand(_, x, at) => x == k && u == s[k].(raisedHand := at)
      case _ => false
    requires InCall(s, user) && user != env.botID && Mirrors(cl, c.channelID, ViewOf(c, s, env.botID))
    ensures var s1 := s[k := u];
      Mirrors(Receive(cl, [Post(c.channelID, e, ToUsers(UsersOf(s1)))], user), c.channelID, ViewOf(c1, s1, env.botID))
  {
    hide Mirrors, OnEvent, StatesOf;
    var s1 := s[k := u];
    assert InCall(s1, user) by { var x :| x in s && s[x].userID == user; assert s1[x].userID == user; }
    ParticipantSeen(s1, env.botID, user);
    StatesPut(s, env.botID, k, u);
    StatesAt(s, env.botID, k);
    SessionRewritten(cl, c.channelID, ViewOf(c, s, env.botID), e, k,
                     ClientSession(u.id, u.userID, u.unmuted, u.raisedHand, u.video));
    ReceiveOne(cl, Post(c.channelID, e, ToUsers(UsersOf(s1))), user);
  }

  lemma StatesAt(s: Sessions, bot: Id, k: Id)
    requires k in s && s[k].userID != bot
    ensures k in StatesOf(s, bot)
    ensures StatesOf(s, bot)[k] == ClientSession(s[k].id, s[k].userID, s[k].unmuted, s[k].raisedHand, s[k].video)
  {
  }

  lemma MirrorCall(env: Env, cl: Client, c: Call, c1: Call, s: Sessions, e: Event, user: Id)
    requires c1.id == c.id
    requires match e
      case ScreenOn(_, k) => c1.props.screenID == k && c1.Host() == c.Host()
      case ScreenOff(k) => k == Some(c.props.screenID) && c1.props.screenID == NONE && c1.Host() == c.Host()
      case HostChanged(h) => c1.Host() == h && c1.props.screenID == c.props.screenID
      case _ => false
    requires InCall(s, user) && user != env.botID && Mirrors(cl, c.channelID, ViewOf(c, s, env.botID))
    ensures Mirrors(Receive(cl, [Post(c.channelID, e, ToUsers(UsersOf(s)))], user), c.channelID,
                    ViewOf(c1, s, env.botID))
  {
  }

  // ---- one step ----

  ghost predicate Quiet(env: Env, s: Store, ch: Id) {
    Reload(s, ch).Some? ==> BotQuiet(env.botID, Reload(s, ch).value.call, Reload(s, ch).value.sessions)
  }

  /** What is visible of a channel after a step of another channel. */
  lemma ElsewhereView(env: Env, s: Store, t: Store, ch: Id, other: Id)
    requires StoreOk(env, s) && StoreOk(env, t) && ch != other && (exists id :: Elsewhere(s, t, other, id))
    ensures Reload(t, ch).Some? <==> Reload(s, ch).Some?
    ensures Reload(s, ch).Some? ==> Reload(t, ch).value.call == Reload(s, ch).value.call
    ensures Reload(s, ch).Some? ==> Reload(t, ch).value.sessions == Reload(s, ch).value.sessions
  {
    hide CallOk, LoadJobs, RowsOk, SessionsLive, JobsOwned, CallRowsOk, SessionsOf, DeskOk;
    LoadTracks(env, s, ch);
    LoadTracks(env, t, ch);
    if Reload(s, ch).Some? {
      var c := Reload(s, ch).value.call;
      assert c.id in t.calls && t.calls[c.id] == c;
      assert c.id in CallKeys(t.calls, ch) by { StoredCallActive(env, s, c.id); }
    }
  }

  lemma StoredCallActive(env: Env, s: Store, id: Id)
    requires StoreOk(env, s) && id in s.calls && s.calls[id].endAt == 0
    ensures s.calls[id].Active()
  {
    hide CallOk;
  }

  /** The state a step leaves in memory is, in what clients see, the state a reload finds. */
  lemma AfterStep(env: Env, s: Store, op: Op, o: Out, w: State)
    requires StoreOk(env, s) && Legal(env, s, op) && Runnable(op) && o == Step(env, s, op)
    requires op.JobOp? ==> Reload(s, Channel(op)).Some?
    requires Reload(o.store, Channel(op)) == Some(w)
    ensures o.st.Some? && o.st.value.call.endAt == 0
    ensures w.call == o.st.value.call && w.sessions == o.st.value.sessions
  {
    hide StoreOk, CallOk, LoadJobs, JobRows, Handle, SessionsOf, Legal, Reload;
    LoadTracks(env, s, Channel(op));
    StepKeeps(env, s, op);
    LoadTracks(env, o.store, Channel(op));
    if op.JobOp? {
      JobLeavesCall(env, s, op, o);
      SameCallReloaded(s, o.store, Channel(op));
    } else {
      ReloadFinds(env, o.store, Channel(op), o.st);
    }
  }

  lemma JobLeavesCall(env: Env, s: Store, op: Op, o: Out)
    requires op.JobOp? && Runnable(op) && o == Step(env, s, op)
    ensures o.st == Reload(s, op.jobChannel) && o.posts == [] && o.store.calls == s.calls
    ensures o.store.sessions == s.sessions
  {
    hide JobRows, JobStops, Reload;
  }

  /** After any step of any channel the client still mirrors the server. */
  lemma MirrorStep(env: Env, s: Store, op: Op, o: Out, cl: Client, ch: Id, user: Id, v: ClientView)
    requires StoreOk(env, s) && Legal(env, s, op) && NotByBot(env, op) && Quiet(env, s, ch)
    requires Runnable(op) && o == Step(env, s, op)
    requires Participates(env, s, ch, user) && Participates(env, o.store, ch, user)
    requires ServerView(env, s, ch, v) && Mirrors(cl, ch, v)
    ensures Quiet(env, o.store, ch)
    ensures forall w :: ServerView(env, o.store, ch, w) ==> Mirrors(Receive(cl, o.posts, user), ch, w)
  {
    hide StoreOk, Mirrors, Step, Receive, ViewOf, BotQuiet, Legal, Reload;
    StepKeeps(env, s, op);
    StepElsewhere(env, s, op);
    PostsElsewhere(env, s, op);
    if Channel(op) != ch {
      ElsewhereView(env, s, o.store, ch, Channel(op));
      OtherPosts(cl, o.posts, user, ch, Channel(op), v);
    } else {
      AfterStep(env, s, op, o, Reload(o.store, ch).value);
      MirrorHere(env, s, op, o, Reload(s, ch).value, cl, user);
    }
  }

  /** A step of the client's own channel, whose loaded state is `b`. */
  lemma MirrorHere(env: Env, s: Store, op: Op, o: Out, b: State, cl: Client, user: Id)
    requires StoreOk(env, s) && Legal(env, s, op) && NotByBot(env, op) && Runnable(op) && o == Step(env, s, op)
    requires Reload(s, Channel(op)) == Some(b) && BotQuiet(env.botID, b.call, b.sessions)
    requires user != env.botID && user != NONE && InCall(b.sessions, user)
    requires o.st.Some? && o.st.value.call.endAt == 0 && InCall(o.st.value.sessions, user)
    requires Mirrors(cl, Channel(op), ViewOf(b.call, b.sessions, env.botID))
    ensures BotQuiet(env.botID, o.st.value.call, o.st.value.sessions)
    ensures Mirrors(Receive(cl, o.posts, user), Channel(op), ViewOf(o.st.value.call, o.st.value.sessions, env.botID))
  {
    hide StoreOk, Mirrors, Receive, ViewOf, Reload, Join, Leave, ChangeHost, ScreenHandler, VideoHandler, JobRows;
    hide CallOk, DeskOk;
    hide SessionsOf, JobStops;
    var st := Reload(s, Channel(op));
    LoadTracks(env, s, Channel(op));
    ReloadFinds(env, s, Channel(op), st);
    CallOkBasics(env, b.call, b.sessions);
    match op
    case JoinOp(i) => MirrorHereJoin(env, s, i, cl, user);
    case LeaveOp(i) => MirrorHereLeave(env, s, i, cl, user);
    case ScreenOp(f, allowed, on) => MirrorHereScreen(env, s, b, f, allowed, on, cl, user);
    case VideoOp(f, on) => MirrorHereVideo(env, s, b, f, on, cl, user);
    case MuteOp(f, unmute) =>
      if f.conn in b.sessions {
        SenderIs(env, s, b, f);
        MirrorTouch(env, cl, b.call, b.call, b.sessions, f.conn, b.sessions[f.conn].(unmuted := unmute),
                    if unmute then Unmuted(f.userID, f.conn) else Muted(f.userID, f.conn), user);
      } else { ReceiveNothing(cl, user); }
    case HandOp(f, raise) =>
      if f.conn in b.sessions {
        SenderIs(env, s, b, f);
        var at := if raise then f.now else 0;
        MirrorTouch(env, cl, b.call, b.call, b.sessions, f.conn, b.sessions[f.conn].(raisedHand := at),
                    if raise then RaiseHand(f.userID, f.conn, at) else UnraiseHand(f.userID, f.conn, at), user);
      } else { ReceiveNothing(cl, user); }
    case HostOp(ch, requester, isAdmin, newHost) => MirrorHereHost(env, s, b, ch, requester, isAdmin, newHost, cl,
                                                                   user);
    case JobOp(ch, act, at) => ReceiveNothing(cl, user);
  }

  lemma ReceiveNothing(cl: Client, user: Id)
    ensures Receive(cl, [], user) == cl
  {
  }

  lemma SenderIs(env: Env, s: Store, b: State, f: From)
    requires b.sessions == SessionsOf(s.sessions, b.call.id) && SameUser(s, f.conn, f.userID) && f.conn in b.sessions
    ensures b.sessions[f.conn].userID == f.userID
  {
  }

  lemma MirrorHereJoin(env: Env, s: Store, i: JoinIn, cl: Client, user: Id)
    requires StoreOk(env, s) && Legal(env, s, JoinOp(i)) && Quiet(env, s, i.channelID)
    requires Participates(env, s, i.channelID, user)
    requires var b := Reload(s, i.channelID).value; Mirrors(cl, i.channelID, ViewOf(b.call, b.sessions, env.botID))
    ensures var o := Join(env, s, Reload(s, i.channelID), i);
      && o.st.Some? && BotQuiet(env.botID, o.st.value.call, o.st.value.sessions)
      && Mirrors(Receive(cl, o.posts, user), i.channelID, ViewOf(o.st.value.call, o.st.value.sessions, env.botID))
  {
    hide CallOk, RowsOk, DeskOk, NextHost, OneActive, SessionsLive, JobsOwned, JoinBot, LoadJobs, Mirrors, Receive;
    hide ViewOf;
    hide WriteJoin, JoinAllowed, SessionsOf, HostPost;
    var st := Reload(s, i.channelID);
    LoadTracks(env, s, i.channelID);
    var b := st.value;
    ReceiveNothing(cl, user);
    if CanAdmit(env, s, st, b, i) {
      ReloadFinds(env, s, i.channelID, st);
      CallOkBasics(env, b.call, b.sessions);
      Accepted(env, s, st, b, i);
      var s1 := b.sessions[i.connID := NewSession(b.call.id, i)];
      MirrorJoin(env, cl, b.call, b.sessions, JoinCall(env, b.call, s1, i), i, user);
      QuietJoin(env, b, i);
    } else {
      JoinRefused(env, s, st, b, i);
    }
  }

  lemma QuietJoin(env: Env, b: State, i: JoinIn)
    requires BotQuiet(env.botID, b.call, b.sessions) && CallOk(env, b.call, b.sessions) && i.connID !in b.sessions
    requires i.connID != NONE
    ensures var s1 := b.sessions[i.connID := NewSession(b.call.id, i)];
      BotQuiet(env.botID, JoinCall(env, b.call, s1, i), s1)
  {
    hide NextHost, HostOk, PeopleOk, VideoOk;
  }

  lemma MirrorHereLeave(env: Env, s: Store, i: LeaveIn, cl: Client, user: Id)
    requires StoreOk(env, s) && Legal(env, s, LeaveOp(i)) && Quiet(env, s, i.channelID)
    requires Participates(env, s, i.channelID, user)
    requires var o := Leave(env, s, Reload(s, i.channelID), i); o.st.Some? && InCall(o.st.value.sessions, user)
    requires var b := Reload(s, i.channelID).value; Mirrors(cl, i.channelID, ViewOf(b.call, b.sessions, env.botID))
    ensures var o := Leave(env, s, Reload(s, i.channelID), i);
      && BotQuiet(env.botID, o.st.value.call, o.st.value.sessions)
      && Mirrors(Receive(cl, o.posts, user), i.channelID, ViewOf(o.st.value.call, o.st.value.sessions, env.botID))
  {
    hide StoreOk, CallOk, DeskOk, LoadJobs, Mirrors, Receive, ViewOf, LeaveJobs, LeaveCall, LeavePosts, UpdateCall;
    hide SessionsOf, BotQuiet;
    var st := Reload(s, i.channelID);
    LoadTracks(env, s, i.channelID);
    var b := st.value;
    ReceiveNothing(cl, user);
    if i.origConn in b.sessions {
      ReloadFinds(env, s, i.channelID, st);
      CallOkBasics(env, b.call, b.sessions);
      LeavingUser(env, s, st, i);
      MirrorLeave(env, cl, b.call, b.sessions, i, user);
      QuietLeave(env, b, i);
    }
  }

  lemma QuietLeave(env: Env, b: State, i: LeaveIn)
    requires BotQuiet(env.botID, b.call, b.sessions) && i.origConn in b.sessions && b.sessions - {i.origConn} != map[]
    requires forall k | k in b.sessions :: k != NONE
    ensures var rest := b.sessions - {i.origConn};
      BotQuiet(env.botID, LeaveCall(env, b.call, b.sessions[i.origConn], rest, i), rest)
  {
    hide DropHost;
    LeaveView(env, b.call, b.sessions, i);
  }

  lemma MirrorHereScreen(env: Env, s: Store, b: State, f: From, allowed: bool, on: bool, cl: Client, user: Id)
    requires Reload(s, f.channelID) == Some(b) && b.call.channelID == f.channelID
    requires b.sessions == SessionsOf(s.sessions, b.call.id)
    requires SameUser(s, f.conn, f.userID) && f.userID != env.botID && (on ==> f.conn in b.sessions)
    requires SessionRowsOk(b.call, b.sessions)
    requires InCall(b.sessions, user) && user != env.botID && BotQuiet(env.botID, b.call, b.sessions)
    requires Mirrors(cl, f.channelID, ViewOf(b.call, b.sessions, env.botID))
    ensures var o := ScreenHandler(s, Some(b), f, allowed, on);
      && BotQuiet(env.botID, o.st.value.call, o.st.value.sessions)
      && Mirrors(Receive(cl, o.posts, user), f.channelID, ViewOf(o.st.value.call, o.st.value.sessions, env.botID))
  {
    hide Mirrors, Receive, ViewOf, Reload;
    var o := ScreenHandler(s, Some(b), f, allowed, on);
    ReceiveNothing(cl, user);
    if o.err.None? {
      if on { SenderIs(env, s, b, f); }
      MirrorCall(env, cl, b.call, o.st.value.call, b.sessions,
                 if on then ScreenOn(f.userID, f.conn) else ScreenOff(Some(f.conn)), user);
    }
  }

  lemma MirrorHereVideo(env: Env, s: Store, b: State, f: From, on: bool, cl: Client, user: Id)
    requires Reload(s, f.channelID) == Some(b) && b.call.channelID == f.channelID
    requires b.sessions == SessionsOf(s.sessions, b.call.id)
    requires SameUser(s, f.conn, f.userID) && f.userID != env.botID
    requires InCall(b.sessions, user) && user != env.botID && BotQuiet(env.botID, b.call, b.sessions)
    requires Mirrors(cl, f.channelID, ViewOf(b.call, b.sessions, env.botID))
    ensures var o := VideoHandler(s, Some(b), f, on);
      && BotQuiet(env.botID, o.st.value.call, o.st.value.sessions)
      && Mirrors(Receive(cl, o.posts, user), f.channelID, ViewOf(o.st.value.call, o.st.value.sessions, env.botID))
  {
    hide Mirrors, Receive, ViewOf, Reload;
    var o := VideoHandler(s, Some(b), f, on);
    ReceiveNothing(cl, user);
    if o.err.None? {
      SenderIs(env, s, b, f);
      MirrorTouch(env, cl, b.call, o.st.value.call, b.sessions, f.conn, b.sessions[f.conn].(video := on),
                  if on then VideoOn(f.userID, f.conn) else VideoOff(f.userID, f.conn), user);
    }
  }

  lemma MirrorHereHost(env: Env, s: Store, b: State, ch: Id, requester: Id, isAdmin: bool, newHost: Id, cl: Client,
                       user: Id)
    requires Reload(s, ch) == Some(b) && b.call.channelID == ch
    requires InCall(b.sessions, user) && user != env.botID && BotQuiet(env.botID, b.call, b.sessions)
    requires Mirrors(cl, ch, ViewOf(b.call, b.sessions, env.botID))
    ensures var o := ChangeHost(env, s, Some(b), ch, requester, isAdmin, newHost);
      && BotQuiet(env.botID, o.st.value.call, o.st.value.sessions)
      && Mirrors(Receive(cl, o.posts, user), ch, ViewOf(o.st.value.call, o.st.value.sessions, env.botID))
  {
    hide Mirrors, Receive, Reload, StatesOf;
    var o := ChangeHost(env, s, Some(b), ch, requester, isAdmin, newHost);
    ReceiveNothing(cl, user);
    if o.err.None? && o.posts != [] {
      MirrorCall(env, cl, b.call, o.st.value.call, b.sessions, HostChanged(newHost), user);
    }
  }

  // ---- the bot stays quiet in every run in which it only joins and leaves ----

  lemma QuietStep(env: Env, s: Store, op: Op, ch: Id)
    requires StoreOk(env, s) && Legal(env, s, op) && NotByBot(env, op) && Quiet(env, s, ch)
    ensures Runnable(op) && Quiet(env, Step(env, s, op).store, ch)
  {
    hide StoreOk, Step, BotQuiet, Legal, Reload;
    StepKeeps(env, s, op);
    StepElsewhere(env, s, op);
    var o := Step(env, s, op);
    if Channel(op) != ch {
      ElsewhereView(env, s, o.store, ch, Channel(op));
    } else if Reload(o.store, ch).Some? {
      if op.JobOp? { NoCallNoJobs(env, s, op); }
      AfterStep(env, s, op, o, Reload(o.store, ch).value);
      QuietHere(env, s, op);
    }
  }

  lemma NoCallNoJobs(env: Env, s: Store, op: Op)
    requires op.JobOp? && Runnable(op)
    ensures Reload(s, Channel(op)).None? ==> Step(env, s, op).store == s
  {
    hide Reload, JobRows;
  }

  lemma QuietHere(env: Env, s: Store, op: Op)
    requires StoreOk(env, s) && Legal(env, s, op) && NotByBot(env, op) && Quiet(env, s, Channel(op))
    requires var o := Step(env, s, op); o.st.Some? && o.st.value.call.endAt == 0
    ensures var o := Step(env, s, op); BotQuiet(env.botID, o.st.value.call, o.st.value.sessions)
  {
    hide StoreOk, Reload, CallOk, DeskOk, SessionsOf, JobRows, LoadJobs, Join, Leave;
    LoadTracks(env, s, Channel(op));
    var st := Reload(s, Channel(op));
    ReloadFinds(env, s, Channel(op), st);
    if st.Some? { CallOkBasics(env, st.value.call, st.value.sessions); }
    match op
    case JoinOp(i) => QuietHereJoin(env, s, i);
    case LeaveOp(i) => QuietHereLeave(env, s, i);
    case ScreenOp(f, allowed, on) => if on && f.conn in st.value.sessions { SenderIs(env, s, st.value, f); }
    case VideoOp(f, on) => if f.conn in st.value.sessions { SenderIs(env, s, st.value, f); }
    case _ =>
  }

  lemma QuietHereJoin(env: Env, s: Store, i: JoinIn)
    requires StoreOk(env, s) && Legal(env, s, JoinOp(i)) && Quiet(env, s, i.channelID)
    requires Join(env, s, Reload(s, i.channelID), i).st.Some?
    ensures var w := Join(env, s, Reload(s, i.channelID), i).st.value; BotQuiet(env.botID, w.call, w.sessions)
  {
    hide CallOk, RowsOk, DeskOk, NextHost, OneActive, SessionsLive, JobsOwned, JoinBot, LoadJobs, WriteJoin;
    hide JoinAllowed, SessionsOf, HostPost;
    var st := Reload(s, i.channelID);
    LoadTracks(env, s, i.channelID);
    var b := if st.Some? then st.value else NewState(env, i);
    if CanAdmit(env, s, st, b, i) {
      Accepted(env, s, st, b, i);
      if st.Some? {
        ReloadFinds(env, s, i.channelID, st);
        QuietJoin(env, b, i);
      }
    } else {
      JoinRefused(env, s, st, b, i);
    }
  }

  lemma QuietHereLeave(env: Env, s: Store, i: LeaveIn)
    requires StoreOk(env, s) && Legal(env, s, LeaveOp(i)) && Quiet(env, s, i.channelID)
    requires var o := Leave(env, s, Reload(s, i.channelID), i); o.st.Some? && o.st.value.call.endAt == 0
    ensures var w := Leave(env, s, Reload(s, i.channelID), i).st.value; BotQuiet(env.botID, w.call, w.sessions)
  {
    hide StoreOk, CallOk, DeskOk, LoadJobs, LeaveJobs, LeaveCall, LeavePosts, UpdateCall, SessionsOf, BotQuiet;
    var st := Reload(s, i.channelID);
    LoadTracks(env, s, i.channelID);
    if i.origConn in st.value.sessions {
      ReloadFinds(env, s, i.channelID, st);
      CallOkBasics(env, st.value.call, st.value.sessions);
      LeftCallOk(env, s, st, i);
      QuietLeave(env, st.value, i);
    }
  }

  // ---- runs ----

  /** Every step legal and none by the bot, and the user in the call before and after each. */
  ghost predicate Attends(env: Env, s: Store, ops: seq<Op>, ch: Id, user: Id)
    decreases |ops|
  {
    Participates(env, s, ch, user) &&
    (ops == [] || (Legal(env, s, ops[0]) && NotByBot(env, ops[0]) && Runnable(ops[0])
                   && Attends(env, Step(env, s, ops[0]).store, ops[1..], ch, user)))
  }

  ghost function After(env: Env, s: Store, ops: seq<Op>): Store
    requires forall op | op in ops :: Runnable(op)
    decreases |ops|
  {
    if ops == [] then s else After(env, Step(env, s, ops[0]).store, ops[1..])
  }

  /** The client after the events of a run. */
  ghost function Watch(env: Env, s: Store, ops: seq<Op>, cl: Client, user: Id): Client
    requires forall op | op in ops :: Runnable(op)
    decreases |ops|
  {
    if ops == [] then cl else
      var o := Step(env, s, ops[0]);
      Watch(env, o.store, ops[1..], Receive(cl, o.posts, user), user)
  }

  /** From one snapshot on, through any run during which its user stays in the call, the client
      shows what the server would send: sessions, host, sharer and call. */
  lemma {:induction false} MirrorRun(env: Env, s: Store, ops: seq<Op>, cl: Client, ch: Id, user: Id, v: ClientView)
    requires StoreOk(env, s) && Quiet(env, s, ch) && (forall op | op in ops :: Runnable(op))
    requires Attends(env, s, ops, ch, user) && ServerView(env, s, ch, v) && Mirrors(cl, ch, v)
    ensures var t := After(env, s, ops);
      Reload(t, ch).Some? &&
      Mirrors(Watch(env, s, ops, cl, user), ch,
              ViewOf(Reload(t, ch).value.call, Reload(t, ch).value.sessions, env.botID))
    decreases |ops|
  {
    hide StoreOk, Quiet, Mirrors, Step, Reload, Receive, ViewOf, Legal;
    if ops != [] {
      var o := Step(env, s, ops[0]);
      StepKeeps(env, s, ops[0]);
      MirrorStep(env, s, ops[0], o, cl, ch, user, v);
      MirrorRun(env, o.store, ops[1..], Receive(cl, o.posts, user), ch, user,
                ViewOf(Reload(o.store, ch).value.call, Reload(o.store, ch).value.sessions, env.botID));
    }
  }

  /** Whatever the client held, handling the snapshot of the current state starts such a run. */
  lemma MirrorFromSnapshot(env: Env, s: Store, ops: seq<Op>, cl: Client, ch: Id, user: Id)
    requires StoreOk(env, s) && Quiet(env, s, ch) && (forall op | op in ops :: Runnable(op))
    requires Attends(env, s, ops, ch, user)
    ensures var snapshot := ViewOf(Reload(s, ch).value.call, Reload(s, ch).value.sessions, env.botID);
      var t := After(env, s, ops);
      Reload(t, ch).Some? &&
      Mirrors(Watch(env, s, ops, OnEvent(cl, ch, Snapshot(snapshot)), user), ch,
              ViewOf(Reload(t, ch).value.call, Reload(t, ch).value.sessions, env.botID))
  {
    hide StoreOk, Quiet, Mirrors, Step, Receive, ViewOf, Legal, OnEvent, Reload;
    var v := ViewOf(Reload(s, ch).value.call, Reload(s, ch).value.sessions, env.botID);
    SnapshotMirrors(cl, ch, v);
    MirrorRun(env, s, ops, OnEvent(cl, ch, Snapshot(v)), ch, user, v);
  }
}
