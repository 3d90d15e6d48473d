/** A step writes the rows of one call only. */
module Locality {
  import opened Basics
  import opened Rows
  import opened Load
  import opened JobDesk
  import opened JobFacts
  import opened Host
  import opened Posts
  import opened Membership
  import opened Machine
  import opened Invariant
  import opened Steps
  import opened WriteThrough

  /** The call a step may write: the active one of its channel, or the one a join creates. */
  ghost function Touched(s: Store, op: Op): Id {
    if Reload(s, Channel(op)).Some? then Reload(s, Channel(op)).value.call.id
    else if op.JoinOp? then op.join.newCallID else NONE
  }

  /** All other calls, in particular those of other channels, and their sessions are the same
      before and after. */
  ghost predicate Elsewhere(s: Store, t: Store, ch: Id, touched: Id) {
    && (forall id | id in s.calls && s.calls[id].channelID != ch ::
          id in t.calls && t.calls[id] == s.calls[id] && SessionsOf(t.sessions, id) == SessionsOf(s.sessions, id))
    && (forall id | id in t.calls && t.calls[id].channelID != ch :: id in s.calls && s.calls[id].channelID != ch)
    && (forall id | id in s.calls && id != touched ::
          id in t.calls && t.calls[id] == s.calls[id] && SessionsOf(t.sessions, id) == SessionsOf(s.sessions, id))
    && (forall id | id in t.calls && id != touched :: id in s.calls)
  }

  /** A change that stays within one call of the channel. */
  lemma WithinCall(s: Store, t: Store, c: Call, ch: Id)
    requires c.channelID == ch && t.calls == s.calls[c.id := c] && OthersSame(s.sessions, t.sessions, c.id)
    requires c.id in s.calls ==> s.calls[c.id].channelID == ch
    ensures Elsewhere(s, t, ch, c.id)
  {
    forall id | id in s.calls && id != c.id
      ensures id in t.calls && t.calls[id] == s.calls[id] && SessionsOf(t.sessions, id) == SessionsOf(s.sessions, id)
    {
      SameSessions(s.sessions, t.sessions, c.id, id);
    }
  }

  ghost predicate Loaded(s: Store, op: Op, v: State) {
    && Touched(s, op) == v.call.id && v.call.channelID == Channel(op)
    && v.call.id in s.calls && s.calls[v.call.id] == v.call
    && v.sessions == SessionsOf(s.sessions, v.call.id)
  }

  lemma LegalRuns(env: Env, s: Store, op: Op)
    requires Legal(env, s, op)
    ensures Runnable(op)
  {
  }

  /** What a step finds loaded, and which call that makes the touched one. */
  lemma TouchedCall(env: Env, s: Store, op: Op)
    requires StoreOk(env, s)
    ensures Reload(s, Channel(op)).Some? ==> Loaded(s, op, Reload(s, Channel(op)).value)
    ensures Reload(s, Channel(op)).None? && op.JoinOp? ==> Touched(s, op) == op.join.newCallID
  {
    hide StoreOk, LoadJobs, DeskOk;
    LoadTracks(env, s, Channel(op));
  }

  /** Every step leaves all calls but one alone. */
  lemma StepElsewhere(env: Env, s: Store, op: Op)
    requires StoreOk(env, s) && Legal(env, s, op)
    ensures Elsewhere(s, Step(env, s, op).store, Channel(op), Touched(s, op))
  {
    hide StoreOk, JobRows, UpdateSession, UpdateCall, SessionsOf, InCall;
    hide Join, Leave, Elsewhere, Reload, Touched, Legal;
    LegalRuns(env, s, op);
    TouchedCall(env, s, op);
    NothingChanges(s, Channel(op), Touched(s, op));
    var st := Reload(s, Channel(op));
    match op
    case JoinOp(i) => JoinElsewhere(env, s, i);
    case LeaveOp(i) => LeaveElsewhere(env, s, i);
    case ScreenOp(f, allowed, on) =>
      if st.Some? && Step(env, s, op).err.None? {
        UpdatedElsewhere(s, st.value, Step(env, s, op).st.value.call, f.channelID);
      }
    case VideoOp(f, on) =>
      if st.Some? && f.conn in st.value.sessions {
        var w := Step(env, s, op).st.value;
        TouchedElsewhere(env, s, st.value, f.conn, w.sessions[f.conn], w.call, f.channelID);
      }
    case MuteOp(f, unmute) =>
      if st.Some? && f.conn in st.value.sessions {
        TouchedElsewhere(env, s, st.value, f.conn, st.value.sessions[f.conn].(unmuted := unmute), st.value.call,
                         f.channelID);
      }
    case HandOp(f, raise) =>
      if st.Some? && f.conn in st.value.sessions {
        TouchedElsewhere(env, s, st.value, f.conn, st.value.sessions[f.conn].(raisedHand := if raise then f.now else 0),
                         st.value.call, f.channelID);
      }
    case HostOp(ch, requester, isAdmin, newHost) =>
      if st.Some? && Step(env, s, op).err.None? { UpdatedElsewhere(s, st.value, Step(env, s, op).st.value.call, ch); }
    case JobOp(ch, act, at) => JobsElsewhere(s, Step(env, s, op).store, ch, Touched(s, op));
  }

  /** And speaks of its own channel only. */
  lemma PostsElsewhere(env: Env, s: Store, op: Op)
    requires StoreOk(env, s) && Runnable(op)
    ensures forall p | p in Step(env, s, op).posts :: p.channelID == Channel(op)
  {
    hide StoreOk, JobRows, UpdateSession, UpdateCall, SessionsOf, InCall, Reload;
    hide LeaveJobs, DropHost, DropVideo, DropScreen, WriteJoin, NextHost, BotDesk, JoinAllowed, StartPost, ViewOf;
    hide UsersOf, Join;
    TouchedCall(env, s, op);
    if op.JoinOp? { JoinPosts(env, s, Reload(s, Channel(op)), op.join); }
  }

  lemma JoinPosts(env: Env, s: Store, st: Option<State>, i: JoinIn)
    requires st.Some? ==> st.value.call.channelID == i.channelID
    ensures forall p | p in Join(env, s, st, i).posts :: p.channelID == i.channelID
  {
    hide WriteJoin, NextHost, BotDesk, JoinAllowed, ViewOf, UsersOf, StartPost, AddUserSession, Publish;
    AddedPosts(env, s, st, i);
    var a := AddUserSession(env, s, st, i);
    if a.st.Some? { StartPosts(a.store, a.st.value, i); }
    PublishSame(env.botID, Post(i.channelID, UserJoined(i.userID, i.connID), ToChannel));
  }

  lemma PublishSame(bot: Id, p: Post)
    ensures forall q | q in Publish(bot, p) :: q.channelID == p.channelID
  {
  }

  lemma StartPosts(s: Store, st: State, i: JoinIn)
    ensures forall p | p in StartPost(s, st, i).2 :: p.channelID == i.channelID
  {
  }

  lemma AddedPosts(env: Env, s: Store, st: Option<State>, i: JoinIn)
    requires st.Some? ==> st.value.call.channelID == i.channelID
    ensures forall p | p in AddUserSession(env, s, st, i).posts :: p.channelID == i.channelID
  {
    hide WriteJoin, NextHost, BotDesk, JoinAllowed, UsersOf;
  }

  lemma NothingChanges(s: Store, ch: Id, touched: Id)
    ensures Elsewhere(s, s, ch, touched)
  {
  }

  lemma JobsElsewhere(s: Store, t: Store, ch: Id, touched: Id)
    requires t.calls == s.calls && t.sessions == s.sessions
    ensures Elsewhere(s, t, ch, touched)
  {
  }

  lemma UpdatedElsewhere(s: Store, v: State, c: Call, ch: Id)
    requires v.call.id in s.calls && s.calls[v.call.id] == v.call && v.call.channelID == ch && SameIdentity(v.call, c)
    ensures Elsewhere(s, UpdateCall(s, c), ch, v.call.id)
  {
  }

  lemma TouchedElsewhere(env: Env, s: Store, v: State, conn: Id, u: Session, c: Call, ch: Id)
    requires StoreOk(env, s) && v.call.id in s.calls && s.calls[v.call.id] == v.call && v.call.channelID == ch
    requires SameIdentity(v.call, c) && v.sessions == SessionsOf(s.sessions, v.call.id) && conn in v.sessions
    requires u.id == v.sessions[conn].id && u.callID == v.sessions[conn].callID && u.userID == v.sessions[conn].userID
             && u.joinAt == v.sessions[conn].joinAt
    ensures Elsewhere(s, UpdateCall(UpdateSession(s, u), c), ch, c.id) && Elsewhere(s, UpdateSession(s, u), ch, c.id)
  {
    hide CallOk, Elsewhere, DeskOk, OneActive, JobsOwned;
    OneSession(s, v, conn, u);
    UpdateCallPuts(UpdateSession(s, u), c);
    UpdateCallPuts(UpdateSession(s, u), v.call);
    MergedSessions(s.sessions, v.sessions[conn := u], v.call.id);
    WithinCall(s, UpdateCall(UpdateSession(s, u), c), c, ch);
    WithinCall(s, UpdateSession(s, u), v.call, ch);
  }

  lemma JoinElsewhere(env: Env, s: Store, i: JoinIn)
    requires StoreOk(env, s) && Legal(env, s, JoinOp(i))
    ensures var o := Join(env, s, Reload(s, i.channelID), i);
      Elsewhere(s, o.store, i.channelID, Touched(s, JoinOp(i)))
  {
    hide CallOk, RowsOk, DeskOk, NextHost, OneActive, SessionsLive, JobsOwned, BotDesk, LoadJobs;
    hide WriteJoin, JoinAllowed, SessionsOf, OthersSame, Elsewhere, Join, Reload, Touched, StartPost;
    var st := Reload(s, i.channelID);
    LoadTracks(env, s, i.channelID);
    TouchedCall(env, s, JoinOp(i));
    var v := if st.Some? then st.value else NewState(env, i);
    NothingChanges(s, i.channelID, Touched(s, JoinOp(i)));
    if CanAdmit(env, s, st, v, i) {
      Accepted(env, s, st, v, i);
      ConnUnused(env, s, st, v, i);
      AddedSession(s.sessions, v.call.id, NewSession(v.call.id, i));
      WithinCall(s, JoinedStore(env, s, v, i), JoinedState(env, s, v, i).call, i.channelID);
    } else {
      JoinRefused(env, s, st, v, i);
    }
  }

  lemma LeaveElsewhere(env: Env, s: Store, i: LeaveIn)
    requires StoreOk(env, s) && Legal(env, s, LeaveOp(i))
    ensures var o := Leave(env, s, Reload(s, i.channelID), i);
      Elsewhere(s, o.store, i.channelID, Touched(s, LeaveOp(i)))
  {
    hide StoreOk, CallOk, RowsOk, DeskOk, LeaveJobs, LeaveCall, UpdateCall, LoadJobs, OthersSame, Elsewhere, DropHost;
    hide DropVideo, DropScreen;
    var st := Reload(s, i.channelID);
    LoadTracks(env, s, i.channelID);
    NothingChanges(s, i.channelID, Touched(s, LeaveOp(i)));
    if st.Some? && i.origConn in st.value.sessions {
      LeaveStored(env, s, st, i);
      LeavingUser(env, s, st, i);
      RemovedSession(s.sessions, st.value.call.id, i.origConn);
      var o := Leave(env, s, st, i);
      WithinCall(s, o.store, o.st.value.call, i.channelID);
    }
  }
}
