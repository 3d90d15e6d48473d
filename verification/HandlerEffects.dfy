/** What each message of a participant does to the store and what is published about it, in terms of
    what is stored before: who is answered, what changes, and that nothing else does
    (server/websocket.go:167-246, 348-509; server/host_controls.go:23-76). */
module HandlerEffects {
  import opened Basics
  import opened Rows
  import opened Load
  import opened JobFacts
  import opened Host
  import opened Posts
  import opened Membership
  import opened Handlers
  import opened Machine
  import opened Invariant

  /** Exactly the users with a session. */
  ghost predicate Everyone(to: To, s: Sessions) {
    to.ToUsers? && forall u :: u in to.users <==> InCall(s, u)
  }

  /** One event, to everyone in the call. */
  ghost predicate Announces(o: Out, ch: Id, e: Event, s: Sessions) {
    |o.posts| == 1 && o.posts[0].channelID == ch && o.posts[0].event == e && Everyone(o.posts[0].to, s)
  }

  /** A refusal changes nothing and is not published. */
  predicate Refused(o: Out, s: Store, st: Option<State>) {
    o.err.Some? && o.store == s && o.st == st && o.posts == [] && o.stops == []
  }

  /** The sender has a session in the channel's call. */
  ghost predicate Present(s: Store, f: From) {
    Reload(s, f.channelID).Some? && f.conn in Reload(s, f.channelID).value.sessions
  }

  ghost function Absent(s: Store, f: From): Option<Err> {
    if Reload(s, f.channelID).None? then Some(NoCall) else Some(NoSession)
  }

  lemma AnnouncedToAll(ch: Id, e: Event, s: Sessions, o: Out)
    requires o.posts == [Post(ch, e, ToUsers(UsersOf(s)))]
    ensures Announces(o, ch, e, s)
  {
  }

  /** The same users after a rewrite of one session. */
  lemma SameUsers(s: Sessions, k: Id, u: Session)
    requires k in s && s[k].userID == u.userID
    ensures UsersOf(s[k := u]) == UsersOf(s)
  {
    assert forall x | x in s :: s[k := u][x].userID == s[x].userID;
  }

  lemma InTheTables(env: Env, s: Store, ch: Id, v: State)
    requires StoreOk(env, s) && Reload(s, ch) == Some(v)
    ensures v.call.id in s.calls && s.calls[v.call.id] == v.call && v.call.channelID == ch
    ensures forall k | k in v.sessions :: k in s.sessions && s.sessions[k] == v.sessions[k] && v.sessions[k].id == k
    ensures ScreenOk(v.call, v.sessions) && VideoOk(v.call, v.sessions)
  {
    hide RowsOk, HostOk, PeopleOk, LoadJobs;
    LoadTracks(env, s, ch);
  }

  // ---- mute and hand ----

  /** A mute or unmute is accepted exactly from a participant; it sets that one flag and says so. */
  lemma MuteEffect(env: Env, s: Store, f: From, unmute: bool, o: Out)
    requires StoreOk(env, s) && o == Step(env, s, MuteOp(f, unmute))
    ensures o.err.None? <==> Present(s, f)
    ensures !Present(s, f) ==> Refused(o, s, Reload(s, f.channelID)) && o.err == Absent(s, f)
    ensures Present(s, f) ==> f.conn in s.sessions
    ensures Present(s, f) ==> o.store == s.(sessions := s.sessions[f.conn := s.sessions[f.conn].(unmuted := unmute)])
    ensures Present(s, f) ==> o.stops == []
    ensures Present(s, f) ==>
      Announces(o, f.channelID, if unmute then Unmuted(f.userID, f.conn) else Muted(f.userID, f.conn),
                Reload(s, f.channelID).value.sessions)
  {
    hide StoreOk, Reload, UsersOf, Announces;
    if Present(s, f) {
      var v := Reload(s, f.channelID).value;
      InTheTables(env, s, f.channelID, v);
      var u := v.sessions[f.conn].(unmuted := unmute);
      SameUsers(v.sessions, f.conn, u);
      AnnouncedToAll(f.channelID, if unmute then Unmuted(f.userID, f.conn) else Muted(f.userID, f.conn), v.sessions, o);
    }
  }

  /** A raised hand carries the time of its raising, a lowered one 0; accepted exactly from a participant. */
  lemma HandEffect(env: Env, s: Store, f: From, raise: bool, o: Out)
    requires StoreOk(env, s) && o == Step(env, s, HandOp(f, raise))
    ensures o.err.None? <==> Present(s, f)
    ensures !Present(s, f) ==> Refused(o, s, Reload(s, f.channelID)) && o.err == Absent(s, f)
    ensures Present(s, f) ==> f.conn in s.sessions
    ensures Present(s, f) ==>
      o.store == s.(sessions := s.sessions[f.conn := s.sessions[f.conn].(raisedHand := if raise then f.now else 0)])
    ensures Present(s, f) ==> o.stops == []
    ensures Present(s, f) ==>
      Announces(o, f.channelID, if raise then RaiseHand(f.userID, f.conn, f.now) else UnraiseHand(f.userID, f.conn, 0),
                Reload(s, f.channelID).value.sessions)
  {
    hide StoreOk, Reload, UsersOf, Announces;
    if Present(s, f) {
      var v := Reload(s, f.channelID).value;
      InTheTables(env, s, f.channelID, v);
      var u := v.sessions[f.conn].(raisedHand := if raise then f.now else 0);
      SameUsers(v.sessions, f.conn, u);
      var e := if raise then RaiseHand(f.userID, f.conn, f.now) else UnraiseHand(f.userID, f.conn, 0);
      AnnouncedToAll(f.channelID, e, v.sessions, o);
    }
  }

  // ---- video ----

  /** The call while a session's video is on: its timer runs from the whole second of the message. */
  predicate VideoStarted(c: Call, d: Call, conn: Id, now: int) {
    d == c.(props := c.props.(videoStartAt := d.props.videoStartAt), stats := c.stats.(hasUsedVideo := true))
    && conn in d.props.videoStartAt && d.props.videoStartAt[conn] == now / 1000
    && d.props.videoStartAt - {conn} == c.props.videoStartAt - {conn}
  }

  /** The call after a session's video: the timer that ran is gone, its seconds are recorded. */
  predicate VideoStopped(c: Call, d: Call, conn: Id, was: bool, now: int) {
    if !was then d == c else
      && conn in c.props.videoStartAt
      && d == c.(props := c.props.(videoStartAt := c.props.videoStartAt - {conn}),
                 stats := c.stats.(videoDuration :=
                   c.stats.videoDuration + SecondsSince(now, c.props.videoStartAt[conn])))
  }

  /** video_on and video_off, accepted exactly from a participant: the flag, the timer, the recorded
      seconds and nothing else. */
  lemma VideoEffect(env: Env, s: Store, f: From, on: bool, o: Out)
    requires StoreOk(env, s) && o == Step(env, s, VideoOp(f, on))
    ensures o.err.None? <==> Present(s, f)
    ensures !Present(s, f) ==> Refused(o, s, Reload(s, f.channelID)) && o.err == Absent(s, f)
    ensures Present(s, f) ==> var v := Reload(s, f.channelID).value;
      && f.conn in s.sessions && v.call.id in o.store.calls
      && o.store == s.(sessions := s.sessions[f.conn := s.sessions[f.conn].(video := on)],
                       calls := s.calls[v.call.id := o.store.calls[v.call.id]]) && o.stops == []
      && (if on then VideoStarted(v.call, o.store.calls[v.call.id], f.conn, f.now)
          else VideoStopped(v.call, o.store.calls[v.call.id], f.conn, v.sessions[f.conn].video, f.now))
      && Announces(o, f.channelID, if on then VideoOn(f.userID, f.conn) else VideoOff(f.userID, f.conn), v.sessions)
  {
    hide StoreOk, Reload, UsersOf, Announces, ScreenOk;
    if Present(s, f) {
      var v := Reload(s, f.channelID).value;
      InTheTables(env, s, f.channelID, v);
      var u := v.sessions[f.conn].(video := on);
      SameUsers(v.sessions, f.conn, u);
      AnnouncedToAll(f.channelID, if on then VideoOn(f.userID, f.conn) else VideoOff(f.userID, f.conn), v.sessions, o);
    }
  }

  // ---- screen ----

  /** Why a screen message is refused, if it is. */
  function ScreenRefusal(st: Option<State>, f: From, allowed: bool, on: bool): Option<Err> {
    if !allowed then Some(NotAllowed)
    else match st
      case None => Some(NoCall)
      case Some(v) =>
        if on && v.call.props.screenID != NONE then Some(AlreadySharing)
        else if !on && v.call.props.screenID != f.conn then Some(NotSharing)
        else None
  }

  /** screen_on is accepted exactly when sharing is allowed, a call goes on and nobody shares;
      screen_off exactly when the sender is the sharer. The sharer and the start of the sharing are
      those of the message, or none; the seconds shared are the last ones. */
  lemma ScreenEffect(env: Env, s: Store, f: From, allowed: bool, on: bool, o: Out)
    requires StoreOk(env, s) && o == Step(env, s, ScreenOp(f, allowed, on))
    ensures o.err == ScreenRefusal(Reload(s, f.channelID), f, allowed, on)
    ensures o.err.Some? ==> Refused(o, s, Reload(s, f.channelID))
    ensures o.err.None? ==> var v := Reload(s, f.channelID).value;
      && o.store == s.(calls := s.calls[v.call.id := SharedCall(v.call, f, on)]) && o.stops == []
      && Announces(o, f.channelID, if on then ScreenOn(f.userID, f.conn) else ScreenOff(Some(f.conn)), v.sessions)
  {
    hide StoreOk, Reload, UsersOf, Announces, VideoOk;
    if o.err.None? {
      var v := Reload(s, f.channelID).value;
      InTheTables(env, s, f.channelID, v);
      AnnouncedToAll(f.channelID, if on then ScreenOn(f.userID, f.conn) else ScreenOff(Some(f.conn)), v.sessions, o);
    }
  }

  /** The call after an accepted screen message. */
  function SharedCall(c: Call, f: From, on: bool): Call {
    c.(props := c.props.(screenID := if on then f.conn else NONE, screenStartAt := if on then f.now / 1000 else 0),
       stats := if on then c.stats.(hasUsedScreenShare := true)
                else if c.props.screenID == NONE then c.stats
                else c.stats.(screenDuration := SecondsSince(f.now, c.props.screenStartAt)))
  }

  // ---- change of host ----

  /** Who may change the host to whom: the host or an admin, to a participant other than the bot or to
      the host there is. */
  ghost predicate MayChange(env: Env, v: State, requester: Id, isAdmin: bool, newHost: Id) {
    && (requester == v.call.Host() || isAdmin) && newHost != env.botID
    && (newHost == v.call.Host() || InCall(v.sessions, newHost))
  }

  /** A change of host is carried out exactly when it may be. The new host is then host and, unless it was
      host already under another lock, locked; only a change is published; no other row is written. */
  lemma HostEffect(env: Env, s: Store, ch: Id, requester: Id, isAdmin: bool, newHost: Id, o: Out)
    requires StoreOk(env, s) && o == Step(env, s, HostOp(ch, requester, isAdmin, newHost))
    ensures o.err.None? <==>
      Reload(s, ch).Some? && MayChange(env, Reload(s, ch).value, requester, isAdmin, newHost)
    ensures o.err.Some? ==> Refused(o, s, Reload(s, ch))
    ensures o.err == Some(NoCall) <==> Reload(s, ch).None?
    ensures o.err == Some(NotInCall) ==>
      (requester == Reload(s, ch).value.call.Host() || isAdmin) && newHost != env.botID
    ensures o.err.None? ==> var v := Reload(s, ch).value;
      && v.call.id in o.store.calls && o.store == s.(calls := s.calls[v.call.id := o.store.calls[v.call.id]])
      && HostMoved(v.call, o.store.calls[v.call.id], newHost) && o.stops == []
      && (if newHost == v.call.Host() then o.posts == [] else Announces(o, ch, HostChanged(newHost), v.sessions))
  {
    hide StoreOk, Reload, UsersOf, Announces, InCall, VideoOk, ScreenOk;
    if o.err.None? {
      var v := Reload(s, ch).value;
      InTheTables(env, s, ch, v);
      if newHost != v.call.Host() { AnnouncedToAll(ch, HostChanged(newHost), v.sessions, o); }
    }
  }

  /** From c to d the host has become h, which is locked unless it was host under a lock; nothing else. */
  predicate HostMoved(c: Call, d: Call, h: Id) {
    && d == c.(props := c.props.(hosts := d.props.hosts, hostLocked := d.props.hostLocked))
    && (if h == c.Host() then d.props.hosts == c.props.hosts else d.props.hosts == [h])
    && d.props.hostLocked == (if h == c.Host() && c.props.hostLocked != NONE then c.props.hostLocked else h)
  }
}
