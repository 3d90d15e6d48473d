/** A connection that is already in another call: the session insert fails on its primary key
    after the call row was written (server/session.go:230-241, calls_sessions primary key). */
module Conflicts {
  import opened Basics
  import opened Rows
  import opened Load
  import opened JobDesk
  import opened JobFacts
  import opened JobRuns
  import opened Host
  import opened Membership
  import opened Machine
  import opened Invariant
  import opened Steps

  ghost function JoinedCall(env: Env, v: State, i: JoinIn): Call {
    JoinCall(env, v.call, v.sessions[i.connID := NewSession(v.call.id, i)], i)
  }

  /** Such a join leaves memory as it was, but the call row it wrote first stays. */
  lemma TakenConnection(env: Env, s: Store, v: State, i: JoinIn)
    requires StoreOk(env, s) && Channel(JoinOp(i)) != NONE && env.botID != NONE && GoodJoin(s, i)
    requires CanAdmit(env, s, Reload(s, i.channelID), v, i) && i.connID in s.sessions
    ensures var o := Step(env, s, JoinOp(i));
      && o.err == Some(StoreFailed) && o.st == Reload(s, i.channelID) && o.posts == []
      && o.store == Store(s.calls[v.call.id := JoinedCall(env, v, i)], s.sessions, BotDesk(env, s, v, i).desk.rows)
  {
    hide RowsOk, JoinBot, CallOk, NextHost, DeskOk, OneActive, SessionsLive, JobsOwned, LoadJobs, Reload;
    LoadTracks(env, s, i.channelID);
    var st := Reload(s, i.channelID);
    ReloadFinds(env, s, i.channelID, st);
    if st.Some? { CallOkBasics(env, v.call, v.sessions); }
    var sessions := v.sessions[i.connID := NewSession(v.call.id, i)];
    assert |sessions| == |v.sessions| + 1;
    if st.Some? { UpdateCallPuts(s.(jobs := BotDesk(env, s, v, i).desk.rows), JoinedCall(env, v, i)); }
  }

  /** The newcomer cannot become the host: it is the bot or the host already, or there is a host and
      it is not the locked one. */
  predicate NoNewHost(env: Env, c: Call, user: Id) {
    user == env.botID || user == c.Host() || (c.Host() != NONE && user != c.props.hostLocked)
  }

  lemma HostStays(env: Env, v: State, i: JoinIn)
    requires CallOk(env, v.call, v.sessions) && env.botID != NONE && i.userID != NONE && i.connID !in v.sessions
    ensures JoinedCall(env, v, i).Host() == v.call.Host() <==> NoNewHost(env, v.call, i.userID)
  {
    hide VideoOk, ScreenOk, PeopleOk;
    var sessions := v.sessions[i.connID := NewSession(v.call.id, i)];
    InCallGrows(v.sessions, sessions, i.connID);
    assert sessions[i.connID].userID == i.userID;
    if NextHost(env, v.call, sessions, i.hint) != v.call.Host() { NewHostIsNewcomer(env, v, i); }
  }

  /** The store stays sound after such a join exactly when a call was going on and the newcomer
      could not become its host: what the call row says of the host then still fits its sessions. */
  lemma TakenConnectionSound(env: Env, s: Store, v: State, i: JoinIn)
    requires StoreOk(env, s) && Channel(JoinOp(i)) != NONE && env.botID != NONE && GoodJoin(s, i)
    requires CanAdmit(env, s, Reload(s, i.channelID), v, i) && i.connID in s.sessions
    ensures StoreOk(env, Step(env, s, JoinOp(i)).store)
        <==> Reload(s, i.channelID).Some? && NoNewHost(env, Reload(s, i.channelID).value.call, i.userID)
  {
    hide RowsOk, JoinBot, DeskOk, CallOk, NextHost, OneActive, SessionsLive, JobsOwned, CallRowsOk, LoadJobs, Step;
    TakenConnection(env, s, v, i);
    var st := Reload(s, i.channelID);
    LoadTracks(env, s, i.channelID);
    var c := JoinedCall(env, v, i);
    var t := Store(s.calls[c.id := c], s.sessions, BotDesk(env, s, v, i).desk.rows);
    if st.None? {
      NoSessionsYet(env, s, c.id);
      EmptyCallBad(env, t, c);
    } else {
      ReloadFinds(env, s, i.channelID, st);
      OverwrittenCall(env, v, i);
      HostStays(env, v, i);
      if c.Host() == v.call.Host() {
        BotDeskKept(env, s, st, v, i);
        CallOkBasics(env, c, v.sessions);
        SameSessionsTable(s.sessions, c.id);
        CallReplaced(env, s, t, c);
      } else {
        StoredCallOk(env, t, c.id);
      }
    }
  }

  lemma SameSessionsTable(s: Sessions, id: Id)
    ensures OthersSame(s, s, id)
  {
  }

  lemma EmptyCallBad(env: Env, t: Store, c: Call)
    requires c.id in t.calls && t.calls[c.id] == c && c.endAt == 0 && SessionsOf(t.sessions, c.id) == map[]
    ensures !StoreOk(env, t)
  {
    StoredCallOk(env, t, c.id);
  }

  lemma StoredCallOk(env: Env, t: Store, id: Id)
    requires id in t.calls && t.calls[id].endAt == 0
    ensures StoreOk(env, t) ==> CallOk(env, t.calls[id], SessionsOf(t.sessions, id))
  {
  }

  lemma BotDeskKept(env: Env, s: Store, st: Option<State>, v: State, i: JoinIn)
    requires StoreOk(env, s) && CanAdmit(env, s, st, v, i) && st.Some?
    ensures KeepsRows(s.jobs, BotDesk(env, s, v, i).desk.rows, v.call.id)
  {
    hide CallOk, CallRowsOk, OneActive, SessionsLive;
    KeepsItself(Desk(s.jobs, v.jobs, []), v.call.id);
    if i.userID == env.botID { JoinBotKeeps(Desk(s.jobs, v.jobs, []), v.call.id, i.jobID, i.connID); }
  }

  /** A call row that counts a newcomer whose session is missing. */
  lemma OverwrittenCall(env: Env, v: State, i: JoinIn)
    requires CallOk(env, v.call, v.sessions) && env.botID != NONE && i.userID != NONE && i.connID !in v.sessions
    ensures SameIdentity(v.call, JoinedCall(env, v, i)) && JoinedCall(env, v, i).endAt == 0
    ensures CallOk(env, JoinedCall(env, v, i), v.sessions) <==> JoinedCall(env, v, i).Host() == v.call.Host()
  {
    var sessions := v.sessions[i.connID := NewSession(v.call.id, i)];
    var (c, h) := (JoinedCall(env, v, i), NextHost(env, v.call, sessions, i.hint));
    InCallGrows(v.sessions, sessions, i.connID);
    if h != v.call.Host() {
      NewHostIsNewcomer(env, v, i);
      assert !InCall(v.sessions, c.Host());
    }
  }

  /** A join changes the host only in favour of the newcomer. */
  lemma NewHostIsNewcomer(env: Env, v: State, i: JoinIn)
    requires CallOk(env, v.call, v.sessions) && env.botID != NONE && i.userID != NONE && i.connID !in v.sessions
    ensures var sessions := v.sessions[i.connID := NewSession(v.call.id, i)];
      var h := NextHost(env, v.call, sessions, i.hint);
      h != v.call.Host() ==> h == i.userID && h != env.botID && !InCall(v.sessions, h)
  {
    var sessions := v.sessions[i.connID := NewSession(v.call.id, i)];
    var h := NextHost(env, v.call, sessions, i.hint);
    InCallGrows(v.sessions, sessions, i.connID);
    assert i.connID in sessions && sessions[i.connID].userID == i.userID;
    if h != v.call.Host() && !(v.call.props.hostLocked != NONE && InCall(sessions, v.call.props.hostLocked)) {
      assert v.call.Host() == NONE;
      assert OnlyBot(v.sessions, env.botID);
      if EarliestUser(sessions, env.botID, h) {
        var k :| Earliest(sessions, env.botID, k) && sessions[k].userID == h;
      }
    }
  }

  /** A call row without sessions blocks its channel: every later join of a fresh connection is
      refused, because it tries to create the call again. */
  lemma StuckChannel(env: Env, s: Store, i: JoinIn)
    requires Reload(s, i.channelID).Some? && Reload(s, i.channelID).value.sessions == map[]
    requires Reload(s, i.channelID).value.call.id in s.calls && Reload(s, i.channelID).value.call.endAt == 0
    ensures var o := Step(env, s, JoinOp(i)); o.err.Some? && o.st == Reload(s, i.channelID) && o.store.calls == s.calls
  {
    hide JoinBot, NextHost, Reload, UpdateCall, StartPost, HostPost;
    var v := Reload(s, i.channelID).value;
    assert |v.sessions[i.connID := NewSession(v.call.id, i)]| == 1;
  }

  // ---- a concrete run into that state ----

  const BOT: Id := "bot"
  const ENV := Env(BOT, "node", 0)

  function FirstJoin(): JoinIn { JoinIn("ann", "conn", "town", NONE, true, NoRtcd, "call1", 1000, "p1", "t1", "ann") }

  function SecondJoin(): JoinIn {
    JoinIn("ann", "conn", "square", NONE, true, NoRtcd, "call2", 2000, "p2", "t2", "ann")
  }

  function ThirdJoin(): JoinIn {
    JoinIn("bob", "other", "square", NONE, true, NoRtcd, "call3", 3000, "p3", "t3", "bob")
  }

  /** One connection joins two channels: the second channel is left with an empty call that
      nobody can join. */
  lemma OneConnectionTwoCalls()
    ensures var s1 := Step(ENV, EMPTY, JoinOp(FirstJoin())).store;
      var o2 := Step(ENV, s1, JoinOp(SecondJoin()));
      && o2.err == Some(StoreFailed) && !StoreOk(ENV, o2.store)
      && Step(ENV, o2.store, JoinOp(ThirdJoin())).err.Some?
  {
    hide StoreOk, Step, Reload, JoinedCall;
    AfterFirst();
    var s1 := Step(ENV, EMPTY, JoinOp(FirstJoin())).store;
    var v2 := NewState(ENV, SecondJoin());
    NothingInSquare(s1);
    TakenConnection(ENV, s1, v2, SecondJoin());
    TakenConnectionSound(ENV, s1, v2, SecondJoin());
    var s2 := Step(ENV, s1, JoinOp(SecondJoin())).store;
    SquareIsEmpty(s1, s2);
    StuckChannel(ENV, s2, ThirdJoin());
  }

  lemma AfterFirst()
    ensures var s1 := Step(ENV, EMPTY, JoinOp(FirstJoin())).store;
      && StoreOk(ENV, s1) && s1.calls.Keys == {"call1"} && s1.calls["call1"].channelID == "town"
      && s1.sessions.Keys == {"conn"}
  {
    hide RowsOk, JoinBot, LoadJobs, NextHost, CallOk, DeskOk, OneActive, SessionsLive, JobsOwned;
    EmptyOk(ENV);
    LoadTracks(ENV, EMPTY, "town");
    assert CallKeys(EMPTY.calls, "town") == {};
    StepKeeps(ENV, EMPTY, JoinOp(FirstJoin()));
    Accepted(ENV, EMPTY, None, NewState(ENV, FirstJoin()), FirstJoin());
  }

  lemma NothingInSquare(s1: Store)
    requires StoreOk(ENV, s1) && s1.calls.Keys == {"call1"} && s1.calls["call1"].channelID == "town"
    ensures Reload(s1, "square").None?
    ensures CanAdmit(ENV, s1, Reload(s1, "square"), NewState(ENV, SecondJoin()), SecondJoin())
  {
  }

  lemma SquareIsEmpty(s1: Store, s2: Store)
    requires StoreOk(ENV, s1) && s1.calls.Keys == {"call1"} && s1.calls["call1"].channelID == "town"
    requires s2.sessions == s1.sessions
    requires s2.calls == s1.calls["call2" := JoinedCall(ENV, NewState(ENV, SecondJoin()), SecondJoin())]
    ensures Reload(s2, "square").Some? && Reload(s2, "square").value.sessions == map[]
    ensures Reload(s2, "square").value.call.id == "call2" && Reload(s2, "square").value.call.endAt == 0
    ensures "call2" in s2.calls
  {
    hide CallOk, LoadJobs, NextHost;
    NoSessionsYet(ENV, s1, "call2");
    assert CallKeys(s2.calls, "square") == {"call2"};
    EmptyCallLoaded(s2, "square", "call2");
  }

  lemma EmptyOk(env: Env)
    ensures StoreOk(env, EMPTY)
  {
  }

  lemma EmptyCallLoaded(s: Store, ch: Id, id: Id)
    requires CallKeys(s.calls, ch) == {id} && s.calls[id].id == id && SessionsOf(s.sessions, id) == map[]
    ensures Reload(s, ch).Some? && Reload(s, ch).value.call == s.calls[id] && Reload(s, ch).value.sessions == map[]
  {
  }
}
