/** Every step keeps the store invariant, hence every run does. */
module Invariant {
  import opened Basics
  import opened Rows
  import opened Load
  import opened JobDesk
  import opened JobFacts
  import opened JobRuns
  import opened Host
  import opened Posts
  import opened Membership
  import opened Machine

  // ---- the in-memory state against the store ----

  predicate NoActive(calls: map<Id, Call>, ch: Id) {
    forall k | k in calls && calls[k].channelID == ch :: calls[k].endAt != 0
  }

  /** `st` is what the handlers of channel `ch` may hold in memory: nothing when no call is
      active, else a call row with its sessions and job slots. It may be a call that has just
      ended, and its job slots may hold jobs that have just ended. */
  ghost predicate Tracks(s: Store, ch: Id, st: Option<State>) {
    match st
    case None => NoActive(s.calls, ch)
    case Some(v) =>
      && v.call.channelID == ch && v.call.id in s.calls && s.calls[v.call.id] == v.call
      && v.sessions == SessionsOf(s.sessions, v.call.id)
      && DeskOk(Desk(s.jobs, v.jobs, []), v.call.id)
      && (v.call.endAt != 0 ==> v.sessions == map[] && NoActive(s.calls, ch))
  }

  predicate Ongoing(st: Option<State>) { st.Some? && st.value.call.endAt == 0 }

  lemma LoadTracks(env: Env, s: Store, ch: Id)
    requires StoreOk(env, s)
    ensures Tracks(s, ch, Reload(s, ch)) && (Reload(s, ch).Some? ==> Ongoing(Reload(s, ch)))
    ensures Reload(s, ch).Some? ==> Reload(s, ch).value == LoadCall(s, Reload(s, ch).value.call)
  {
    hide CallOk;
    match ActiveCall(s.calls, ch)
    case Some(c) =>
      var k :| IsFirst(k, CallKeys(s.calls, ch), CallRank(s.calls)) && c == s.calls[k];
      assert k in CallKeys(s.calls, ch);
      LoadedDeskOk(s.jobs, c.id);
    case None =>
      forall k | k in s.calls && s.calls[k].channelID == ch ensures s.calls[k].endAt != 0 {
        assert k !in CallKeys(s.calls, ch);
      }
  }

  /** Whatever is held in memory, a reload finds the same call and sessions unless the call ended. */
  lemma ReloadFinds(env: Env, s: Store, ch: Id, st: Option<State>)
    requires StoreOk(env, s) && Tracks(s, ch, st)
    ensures Reload(s, ch).Some? <==> Ongoing(st)
    ensures Ongoing(st) ==> Reload(s, ch) == Some(LoadCall(s, st.value.call))
    ensures Ongoing(st) ==> CallOk(env, st.value.call, st.value.sessions)
  {
    hide CallOk, RowsOk, SessionsLive, DeskOk;
    LoadTracks(env, s, ch);
  }

  // ---- replacing one call ----

  /** The sessions of the other calls are the same in both tables. */
  predicate OthersSame(a: Sessions, b: Sessions, id: Id) {
    && (forall k | k in a && a[k].callID != id :: k in b && b[k] == a[k])
    && (forall k | k in b && b[k].callID != id :: k in a && a[k] == b[k])
  }

  predicate SameIdentity(a: Call, b: Call) {
    && a.id == b.id && a.channelID == b.channelID && a.startAt == b.startAt
    && a.createAt == b.createAt && a.ownerID == b.ownerID && a.deleteAt == b.deleteAt
  }

  lemma UpdateCallPuts(s: Store, c: Call)
    requires c.id in s.calls && SameIdentity(s.calls[c.id], c)
    ensures UpdateCall(s, c) == s.(calls := s.calls[c.id := c])
  {
  }

  lemma UpdateSessionPuts(s: Store, u: Session)
    requires u.id in s.sessions
    requires s.sessions[u.id].id == u.id && s.sessions[u.id].callID == u.callID
    requires s.sessions[u.id].userID == u.userID && s.sessions[u.id].joinAt == u.joinAt
    ensures UpdateSession(s, u) == s.(sessions := s.sessions[u.id := u])
  {
  }

  lemma JobsOwnedKept(s: Store, t: Store, id: Id)
    requires JobsOwned(s) && KeepsRows(s.jobs, t.jobs, id) && s.calls.Keys <= t.calls.Keys && id in t.calls
    ensures JobsOwned(t)
  {
  }

  lemma CallReplaced(env: Env, s: Store, t: Store, c: Call)
    requires StoreOk(env, s) && c.IsValid() && c.startAt > 0 && c.endAt >= 0
    requires c.id in s.calls ==> s.calls[c.id].endAt == 0 && SameIdentity(s.calls[c.id], c)
    requires c.id !in s.calls ==>
      c.endAt == 0 && forall k | k in s.calls && s.calls[k].channelID == c.channelID :: s.calls[k].endAt != 0
    requires t.calls == s.calls[c.id := c] && KeepsRows(s.jobs, t.jobs, c.id)
    requires OthersSame(s.sessions, t.sessions, c.id)
    requires SessionRowsOk(c, SessionsOf(t.sessions, c.id))
    requires if c.endAt == 0 then CallOk(env, c, SessionsOf(t.sessions, c.id))
      else SessionsOf(t.sessions, c.id) == map[]
    ensures StoreOk(env, t)
  {
    hide CallOk, RowsOk, Advances, OnlyCall, CallRowsOk, OneActive, SessionsLive, JobsOwned, OthersSame, SessionRowsOk;
    JobsOwnedKept(s, t, c.id);
    CallTableKept(s.calls, c);
    SessionsLiveKept(s, t, c);
    forall k | k in t.calls && t.calls[k].endAt == 0 ensures CallOk(env, t.calls[k], SessionsOf(t.sessions, k)) {
      if k != c.id { SameSessions(s.sessions, t.sessions, c.id, k); }
    }
  }

  lemma CallTableKept(calls: map<Id, Call>, c: Call)
    requires CallRowsOk(calls) && OneActive(calls)
    requires c.IsValid() && c.startAt > 0 && c.endAt >= 0
    requires c.id in calls ==> calls[c.id].endAt == 0 && SameIdentity(calls[c.id], c)
    requires c.id !in calls ==>
      c.endAt == 0 && forall k | k in calls && calls[k].channelID == c.channelID :: calls[k].endAt != 0
    ensures CallRowsOk(calls[c.id := c]) && OneActive(calls[c.id := c])
  {
  }

  lemma SessionsLiveKept(s: Store, t: Store, c: Call)
    requires SessionsLive(s) && t.calls == s.calls[c.id := c] && OthersSame(s.sessions, t.sessions, c.id)
    requires SessionRowsOk(c, SessionsOf(t.sessions, c.id))
    requires c.endAt == 0 || SessionsOf(t.sessions, c.id) == map[]
    ensures SessionsLive(t)
  {
    forall k | k in t.sessions
      ensures t.sessions[k].id == k && t.sessions[k].callID in t.calls && t.calls[t.sessions[k].callID].endAt == 0
    {
      if t.sessions[k].callID == c.id { assert k in SessionsOf(t.sessions, c.id); }
    }
  }

  lemma SameSessions(a: Sessions, b: Sessions, id: Id, other: Id)
    requires OthersSame(a, b, id) && other != id
    ensures SessionsOf(a, other) == SessionsOf(b, other)
  {
  }

  // ---- the call after each handler ----

  lemma JoinCallOk(env: Env, c: Call, s: Sessions, i: JoinIn)
    requires env.botID != NONE && i.userID != NONE && i.connID != NONE && i.now >= 1000
    requires i.connID !in s && JoinAllowed(env, s)
    requires CallOk(env, c, s) || (s == map[] && c == NewCall(env, i) && c.IsValid())
    ensures var s1 := s[i.connID := NewSession(c.id, i)]; CallOk(env, JoinCall(env, c, s1, i), s1)
  {
    var s1 := s[i.connID := NewSession(c.id, i)];
    var c1 := JoinCall(env, c, s1, i);
    assert i.connID in s1;
    assert |s1| == |s| + 1;
    JoinHostOk(env, c, s, i);
  }

  lemma JoinHostOk(env: Env, c: Call, s: Sessions, i: JoinIn)
    requires env.botID != NONE && i.userID != NONE && i.connID !in s
    requires forall k | k in s :: s[k].userID != NONE
    requires HostOk(env.botID, c, s)
    ensures var s1 := s[i.connID := NewSession(c.id, i)]; HostOk(env.botID, JoinCall(env, c, s1, i), s1)
  {
    var s1 := s[i.connID := NewSession(c.id, i)];
    var h := NextHost(env, c, s1, i.hint);
    InCallGrows(s, s1, i.connID);
    if EarliestUser(s1, env.botID, h) {
      var k :| Earliest(s1, env.botID, k) && s1[k].userID == h;
    }
    if InCall(s1, h) { var k :| k in s1 && s1[k].userID == h; }
  }

  lemma InCallGrows(s: Sessions, s1: Sessions, conn: Id)
    requires conn in s1 && s1 - {conn} == s - {conn}
    requires conn in s ==> s1[conn].userID == s[conn].userID
    ensures forall u :: InCall(s1, u) <==> InCall(s, u) || u == s1[conn].userID
  {
    forall u ensures InCall(s1, u) <==> InCall(s, u) || u == s1[conn].userID {
      if InCall(s1, u) {
        var k :| k in s1 && s1[k].userID == u;
        if k != conn { assert k in s1 - {conn}; assert k in s && s[k] == s1[k]; }
      }
      if InCall(s, u) {
        var k :| k in s && s[k].userID == u;
        if k != conn { assert k in s - {conn}; assert k in s1 && s[k] == s1[k]; }
      }
    }
  }

  lemma LeaveIdentity(env: Env, c1: Call, rest: Sessions, i: LeaveIn)
    ensures var c2 := DropHost(env, c1, rest, i.userID, i.hint);
      && c2 == c1.(props := c1.props.(hosts := c2.props.hosts))
      && SameIdentity(c2, EndCall(c2, i.now)) && EndCall(c2, i.now).endAt == i.now
  {
    hide NextHost;
  }

  lemma LeaveCallOk(env: Env, c: Call, s: Sessions, i: LeaveIn)
    requires env.botID != NONE && CallOk(env, c, s) && i.origConn in s && s[i.origConn].userID == i.userID && i.now > 0
    ensures var c1 := LeaveCall(env, c, s[i.origConn], s - {i.origConn}, i);
      && SameIdentity(c, c1)
      && (if s - {i.origConn} == map[] then c1.endAt == i.now else CallOk(env, c1, s - {i.origConn}))
  {
    hide NextHost, EndCall, DropHost, DropVideo, DropScreen, HostOk, ScreenOk, VideoOk;
    var rest := s - {i.origConn};
    var c1 := DropVideo(DropScreen(c, i.origConn, i.now), s[i.origConn], i.origConn, i.now);
    LeaveMediaOk(env, c, s, i);
    LeaveIdentity(env, c1, rest, i);
    if rest != map[] {
      HostOkAt(env, c, c1, s);
      LeaveHostOk(env, c1, s, i);
      var c2 := DropHost(env, c1, rest, i.userID, i.hint);
      SameMedia(c1, c2, rest);
    }
  }

  /** Screen and video after a leave. */
  lemma LeaveMediaOk(env: Env, c: Call, s: Sessions, i: LeaveIn)
    requires CallOk(env, c, s) && i.origConn in s && i.now > 0
    ensures var c1 := DropVideo(DropScreen(c, i.origConn, i.now), s[i.origConn], i.origConn, i.now);
      && SameIdentity(c, c1) && c1.endAt == c.endAt && c1.props.participants == c.props.participants
      && c1.props.hosts == c.props.hosts && c1.props.hostLocked == c.props.hostLocked
      && ScreenOk(c1, s - {i.origConn}) && VideoOk(c1, s - {i.origConn})
  {
    hide HostOk, PeopleOk;
  }

  lemma SameMedia(c: Call, d: Call, s: Sessions)
    requires d == c.(props := c.props.(hosts := d.props.hosts)) && ScreenOk(c, s) && VideoOk(c, s)
    ensures ScreenOk(d, s) && VideoOk(d, s)
  {
  }

  lemma HostOkAt(env: Env, c: Call, d: Call, s: Sessions)
    requires HostOk(env.botID, c, s) && d.props.hosts == c.props.hosts && d.props.hostLocked == c.props.hostLocked
    ensures HostOk(env.botID, d, s)
  {
  }

  lemma LeaveHostOk(env: Env, c: Call, s: Sessions, i: LeaveIn)
    requires env.botID != NONE && i.origConn in s && s[i.origConn].userID == i.userID
    requires forall k | k in s :: s[k].userID != NONE
    requires HostOk(env.botID, c, s) && s - {i.origConn} != map[]
    ensures HostOk(env.botID, DropHost(env, c, s - {i.origConn}, i.userID, i.hint), s - {i.origConn})
  {
    var rest := s - {i.origConn};
    assert forall u :: InCall(rest, u) ==> InCall(s, u) by {
      forall u | InCall(rest, u) ensures InCall(s, u) {
        var k :| k in rest && rest[k].userID == u;
        assert s[k].userID == u;
      }
    }
    if c.Host() == i.userID {
      var h := NextHost(env, c, rest, i.hint);
      if EarliestUser(rest, env.botID, h) { var k :| Earliest(rest, env.botID, k) && rest[k].userID == h; }
    } else if c.Host() != NONE {
      var k :| k in s && s[k].userID == c.Host();
      assert k in rest;
    }
  }

  // ---- one step ----

  lemma CallOkBasics(env: Env, c: Call, s: Sessions)
    requires CallOk(env, c, s)
    ensures c.IsValid() && c.endAt == 0 && c.startAt > 0 && s != map[] && |s| > 0 && SessionRowsOk(c, s)
  {
  }

  /** Rewriting sessions of one call, adding one, removing one. */
  lemma MergedSessions(all: Sessions, sub: Sessions, id: Id)
    requires sub.Keys == SessionsOf(all, id).Keys && forall k | k in sub :: sub[k].callID == id
    ensures SessionsOf(all + sub, id) == sub && OthersSame(all, all + sub, id)
  {
  }

  lemma AddedSession(all: Sessions, id: Id, u: Session)
    requires u.id !in all && u.callID == id
    ensures SessionsOf(all[u.id := u], id) == SessionsOf(all, id)[u.id := u] && OthersSame(all, all[u.id := u], id)
  {
  }

  lemma RemovedSession(all: Sessions, id: Id, k: Id)
    requires k in all && all[k].callID == id
    ensures SessionsOf(all - {k}, id) == SessionsOf(all, id) - {k} && OthersSame(all, all - {k}, id)
  {
  }

  lemma StepCallKept(env: Env, s: Store, v: State, c: Call, sessions: Sessions)
    requires StoreOk(env, s) && v.call.id in s.calls && s.calls[v.call.id] == v.call && v.call.endAt == 0
    requires v.sessions == SessionsOf(s.sessions, v.call.id)
    requires SameIdentity(v.call, c) && CallOk(env, c, sessions)
    requires sessions.Keys == v.sessions.Keys
    ensures StoreOk(env, s.(calls := s.calls[c.id := c], sessions := s.sessions + sessions))
  {
    hide CallOk, RowsOk, SessionsOf, OthersSame;
    CallOkBasics(env, c, sessions);
    MergedSessions(s.sessions, sessions, c.id);
    assert KeepsRows(s.jobs, s.jobs, c.id);
    CallReplaced(env, s, s.(calls := s.calls[c.id := c], sessions := s.sessions + sessions), c);
  }

  lemma JoinKeeps(env: Env, s: Store, st: Option<State>, i: JoinIn)
    requires StoreOk(env, s) && Tracks(s, i.channelID, st) && Legal(env, s, JoinOp(i))
    ensures var o := Join(env, s, st, i); StoreOk(env, o.store) && Tracks(o.store, i.channelID, o.st)
  {
    hide CallOk, NextHost, LoadCall, JoinBot, RowsOk, JoinAllowed, WriteJoin, StartPost;
    hide OneActive, SessionsLive, JobsOwned, DeskOk;
    var v := if st.Some? then st.value else NewState(env, i);
    if CanAdmit(env, s, st, v, i) {
      Accepted(env, s, st, v, i);
      JoinStored(env, s, st, v, i);
    }
  }

  ghost predicate CanAdmit(env: Env, s: Store, st: Option<State>, v: State, i: JoinIn) {
    && Tracks(s, i.channelID, st)
    && v == (if st.Some? then st.value else NewState(env, i))
    && (if st.Some? then v.call.endAt == 0 else i.mayStart && !i.rtcd.RtcdFailed?)
    && i.connID !in v.sessions && JoinAllowed(env, v.sessions) && BotDesk(env, s, v, i).Joined?
  }

  ghost function JoinedState(env: Env, s: Store, v: State, i: JoinIn): State
    requires BotDesk(env, s, v, i).Joined?
  {
    var sessions := v.sessions[i.connID := NewSession(v.call.id, i)];
    var c := JoinCall(env, v.call, sessions, i);
    State(if |sessions| == 1 then c.(postID := i.postID, threadID := i.threadID) else c,
          sessions, BotDesk(env, s, v, i).desk.jobs)
  }

  ghost function JoinedStore(env: Env, s: Store, v: State, i: JoinIn): Store
    requires BotDesk(env, s, v, i).Joined?
  {
    var c := JoinedState(env, s, v, i).call;
    Store(s.calls[c.id := c], s.sessions[i.connID := NewSession(v.call.id, i)], BotDesk(env, s, v, i).desk.rows)
  }

  /** An admissible join is accepted, and the choice between creating and updating the call by
      the session count is right: one session after the join means that no call was active. */
  lemma Accepted(env: Env, s: Store, st: Option<State>, v: State, i: JoinIn)
    requires StoreOk(env, s) && Legal(env, s, JoinOp(i)) && CanAdmit(env, s, st, v, i)
    ensures var o := Join(env, s, st, i);
      o.err.None? && o.store == JoinedStore(env, s, v, i) && o.st == Some(JoinedState(env, s, v, i))
    ensures |v.sessions[i.connID := NewSession(v.call.id, i)]| == 1 <==> st.None?
  {
    hide CallOk, JoinCall, JoinBot, RowsOk, LoadCall, HostPost, Publish, ViewOf, CallRowsOk, OneActive, SessionsLive;
    hide JobsOwned;
    hide WriteJoin, StartPost, DeskOk;
    JoinWrites(env, s, st, v, i);
  }

  lemma JoinWrites(env: Env, s: Store, st: Option<State>, v: State, i: JoinIn)
    requires StoreOk(env, s) && Legal(env, s, JoinOp(i)) && CanAdmit(env, s, st, v, i)
    ensures |v.sessions[i.connID := NewSession(v.call.id, i)]| == 1 <==> st.None?
    ensures v.call.endAt == 0
    ensures var d := BotDesk(env, s, v, i).desk;
      var sessions := v.sessions[i.connID := NewSession(v.call.id, i)];
      var w := State(JoinCall(env, v.call, sessions, i), sessions, d.jobs);
      var (s1, ok) := WriteJoin(s.(jobs := d.rows), w, i);
      && ok
      && StartPost(s1, w, i).0 == JoinedStore(env, s, v, i)
      && StartPost(s1, w, i).1 == JoinedState(env, s, v, i)
  {
    hide CallOk, NextHost, JoinBot, RowsOk, LoadCall, WriteJoin, StartPost, OneActive, SessionsLive, JobsOwned;
    ReloadFinds(env, s, i.channelID, st);
    ConnUnused(env, s, st, v, i);
    if st.Some? { CallOkBasics(env, v.call, v.sessions); }
    var sess := NewSession(v.call.id, i);
    var sessions := v.sessions[i.connID := sess];
    assert |sessions| == |v.sessions| + 1;
    var d := BotDesk(env, s, v, i).desk;
    var w := State(JoinCall(env, v.call, sessions, i), sessions, d.jobs);
    if st.Some? {
      WriteJoinExisting(s.(jobs := d.rows), w, i);
    } else {
      WriteJoinNew(s.(jobs := d.rows), w, i);
    }
  }

  lemma ConnUnused(env: Env, s: Store, st: Option<State>, v: State, i: JoinIn)
    requires StoreOk(env, s) && Legal(env, s, JoinOp(i)) && CanAdmit(env, s, st, v, i)
    ensures i.connID !in s.sessions
  {
  }

  lemma WriteJoinExisting(s: Store, w: State, i: JoinIn)
    requires i.connID in w.sessions && |w.sessions| != 1
    requires w.sessions[i.connID].IsValid() && w.sessions[i.connID].id == i.connID && i.connID !in s.sessions
    requires w.call.id in s.calls && SameIdentity(s.calls[w.call.id], w.call)
    ensures WriteJoin(s, w, i)
         == (s.(calls := s.calls[w.call.id := w.call], sessions := s.sessions[i.connID := w.sessions[i.connID]]), true)
    ensures StartPost(WriteJoin(s, w, i).0, w, i).0 == WriteJoin(s, w, i).0
    ensures StartPost(WriteJoin(s, w, i).0, w, i).1 == w
  {
    UpdateCallPuts(s, w.call);
  }

  lemma WriteJoinNew(s: Store, w: State, i: JoinIn)
    requires i.connID in w.sessions && |w.sessions| == 1
    requires w.sessions[i.connID].IsValid() && w.sessions[i.connID].id == i.connID && i.connID !in s.sessions
    requires w.call.id !in s.calls && w.call.IsValid()
    ensures var c := w.call.(postID := i.postID, threadID := i.threadID);
      var s1 := s.(calls := s.calls[w.call.id := w.call], sessions := s.sessions[i.connID := w.sessions[i.connID]]);
      && WriteJoin(s, w, i) == (s1, true)
      && StartPost(s1, w, i).0 == s1.(calls := s.calls[c.id := c])
      && StartPost(s1, w, i).1 == w.(call := c)
  {
  }

  lemma JoinStored(env: Env, s: Store, st: Option<State>, v: State, i: JoinIn)
    requires StoreOk(env, s) && Legal(env, s, JoinOp(i)) && CanAdmit(env, s, st, v, i)
    ensures StoreOk(env, JoinedStore(env, s, v, i))
    ensures SessionsOf(JoinedStore(env, s, v, i).sessions, v.call.id) == JoinedState(env, s, v, i).sessions
    ensures CallOk(env, JoinedState(env, s, v, i).call, JoinedState(env, s, v, i).sessions)
    ensures Tracks(JoinedStore(env, s, v, i), i.channelID, Some(JoinedState(env, s, v, i)))
  {
    hide CallOk, NextHost, JoinBot, LoadCall, JoinAllowed, RowsOk, DeskOk, KeepsRows, OthersSame, SessionsOf;
    ReloadFinds(env, s, i.channelID, st);
    var t := JoinedStore(env, s, v, i);
    var w := JoinedState(env, s, v, i);
    ConnUnused(env, s, st, v, i);
    if st.None? { NoSessionsYet(env, s, i.newCallID); }
    AddedSession(s.sessions, v.call.id, NewSession(v.call.id, i));
    BotDeskKeeps(env, s, st, v, i);
    JoinedCallOk(env, s, st, v, i);
    CallOkBasics(env, w.call, w.sessions);
    CallReplaced(env, s, t, w.call);
    StopsAside(BotDesk(env, s, v, i).desk, v.call.id);
  }

  lemma JoinedCallOk(env: Env, s: Store, st: Option<State>, v: State, i: JoinIn)
    requires StoreOk(env, s) && Legal(env, s, JoinOp(i)) && CanAdmit(env, s, st, v, i)
    ensures CallOk(env, JoinedState(env, s, v, i).call, JoinedState(env, s, v, i).sessions)
    ensures SameIdentity(v.call, JoinedState(env, s, v, i).call) && v.call.endAt == 0
  {
    hide StoreOk, NextHost, JoinBot, LoadCall, DeskOk;
    ReloadFinds(env, s, i.channelID, st);
    JoinCallOk(env, v.call, v.sessions, i);
  }

  lemma BotDeskKeeps(env: Env, s: Store, st: Option<State>, v: State, i: JoinIn)
    requires StoreOk(env, s) && Legal(env, s, JoinOp(i)) && CanAdmit(env, s, st, v, i)
    ensures DeskOk(BotDesk(env, s, v, i).desk, v.call.id)
    ensures KeepsRows(s.jobs, BotDesk(env, s, v, i).desk.rows, v.call.id)
  {
    hide CallOk, NextHost, JoinAllowed, CallRowsOk, OneActive, SessionsLive;
    if st.None? { FreshDesk(env, s, i); }
    if i.userID == env.botID { JoinBotKeeps(Desk(s.jobs, v.jobs, []), v.call.id, i.jobID, i.connID); }
  }

  /** The stop messages sent so far play no part in a desk's consistency. */
  lemma StopsAside(d: Desk, callID: Id)
    ensures DeskOk(d, callID) <==> DeskOk(Desk(d.rows, d.jobs, []), callID)
  {
  }

  lemma NoSessionsYet(env: Env, s: Store, id: Id)
    requires StoreOk(env, s) && id !in s.calls
    ensures SessionsOf(s.sessions, id) == map[]
  {
  }

  lemma FreshDesk(env: Env, s: Store, i: JoinIn)
    requires RowsOk(s.jobs) && BotDesk(env, s, NewState(env, i), i).Joined?
    requires forall k | k in s.jobs :: s.jobs[k].callID != i.newCallID
    ensures DeskOk(BotDesk(env, s, NewState(env, i), i).desk, i.newCallID)
  {
  }
}
