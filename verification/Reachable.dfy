/** What the store invariant says of every reachable store, spelled out. */
module Reachable {
  import opened Basics
  import opened Rows
  import opened Load
  import opened JobDesk
  import opened JobFacts
  import opened JobRuns
  import opened Host
  import opened Membership
  import opened Handlers
  import opened Machine
  import opened Invariant
  import opened Steps
  import opened WriteThrough

  /** A channel has at most one active call and an active call has a session, in the store and
      as loaded. */
  lemma OneCallPerChannel(env: Env, trace: seq<Store>, ops: seq<Op>, n: nat, a: Id, b: Id)
    requires Run(env, trace, ops) && n <= |ops|
    requires a in trace[n].calls && b in trace[n].calls && trace[n].calls[a].Active() && trace[n].calls[b].Active()
    ensures SessionsOf(trace[n].sessions, a) != map[]
    ensures trace[n].calls[a].channelID == trace[n].calls[b].channelID ==> a == b
    ensures Reload(trace[n], trace[n].calls[a].channelID).Some?
    ensures Reload(trace[n], trace[n].calls[a].channelID).value.call == trace[n].calls[a]
  {
    hide Legal, Step, RowsOk, SessionsLive, LoadJobs, DeskOk;
    RunKeeps(env, trace, ops, n);
    var (s, ch) := (trace[n], trace[n].calls[a].channelID);
    assert CallOk(env, s.calls[a], SessionsOf(s.sessions, a));
    LoadTracks(env, s, ch);
  }

  /** The host of an active call is a user other than the bot with a live session; there is one
      whenever such a user is in the call; a locked host in the call is the host. */
  lemma HostOfActiveCall(env: Env, trace: seq<Store>, ops: seq<Op>, n: nat, id: Id)
    requires Run(env, trace, ops) && n <= |ops| && id in trace[n].calls && trace[n].calls[id].endAt == 0
    ensures var c := trace[n].calls[id];
      var all := trace[n].sessions;
      && (c.Host() != NONE ==>
            c.Host() != env.botID && exists k :: k in all && all[k].callID == id && all[k].userID == c.Host())
      && ((exists k :: k in all && all[k].callID == id && all[k].userID != env.botID) ==> c.Host() != NONE)
      && (forall k | k in all && all[k].callID == id && all[k].userID == c.props.hostLocked ::
            c.Host() == c.props.hostLocked)
  {
    hide Legal, Step, RowsOk, OneActive, JobsOwned;
    RunKeeps(env, trace, ops, n);
    var (c, all) := (trace[n].calls[id], trace[n].sessions);
    var mine := SessionsOf(all, id);
    assert CallOk(env, c, mine);
    if c.Host() != NONE { var k :| k in mine && mine[k].userID == c.Host(); assert all[k].callID == id; }
    if k :| k in all && all[k].callID == id && all[k].userID != env.botID { assert k in mine; }
    forall k | k in all && all[k].callID == id && all[k].userID == c.props.hostLocked
      ensures c.Host() == c.props.hostLocked
    {
      assert k in mine && mine[k].IsValid();
    }
  }

  /** A locked host who left and joins again is the host again. */
  lemma LockedHostReturns(env: Env, s: Store, i: JoinIn)
    requires StoreOk(env, s) && Legal(env, s, JoinOp(i)) && Step(env, s, JoinOp(i)).err.None?
    requires Reload(s, i.channelID).Some? && Reload(s, i.channelID).value.call.props.hostLocked == i.userID
    ensures var t := Step(env, s, JoinOp(i)).store;
      Reload(t, i.channelID).Some? && Reload(t, i.channelID).value.call.Host() == i.userID
  {
    hide StoreOk, RowsOk, DeskOk, NextHost, OneActive, SessionsLive, JobsOwned, BotDesk, LoadJobs, WriteJoin;
    hide JoinAllowed, SessionsOf, Join, Reload, StartPost;
    var st := Reload(s, i.channelID);
    LoadTracks(env, s, i.channelID);
    JoinWrittenThrough(env, s, i);
    var v := st.value;
    if CanAdmit(env, s, st, v, i) {
      Accepted(env, s, st, v, i);
      JoinStored(env, s, st, v, i);
      var w := JoinedState(env, s, v, i);
      assert w.sessions[i.connID].userID == i.userID;
      assert InCall(w.sessions, i.userID);
    } else {
      RefusedJoin(env, s, st, v, i);
    }
  }

  /** Testing for one session after the join chooses the right write: the accepted join creates a
      call row exactly when no active call was loaded. */
  lemma CreateExactlyWhenNone(env: Env, s: Store, i: JoinIn)
    requires StoreOk(env, s) && Legal(env, s, JoinOp(i)) && Step(env, s, JoinOp(i)).err.None?
    ensures var o := Step(env, s, JoinOp(i));
      && o.st.Some?
      && (|o.st.value.sessions| == 1 <==> Reload(s, i.channelID).None?)
      && (o.st.value.call.id !in s.calls <==> Reload(s, i.channelID).None?)
      && o.store.calls.Keys == s.calls.Keys + {o.st.value.call.id}
  {
    hide StoreOk, CallOk, RowsOk, DeskOk, NextHost, OneActive, SessionsLive, JobsOwned, BotDesk, LoadJobs, WriteJoin;
    hide JoinAllowed, SessionsOf, Join, Reload, StartPost;
    var st := Reload(s, i.channelID);
    LoadTracks(env, s, i.channelID);
    JoinWrittenThrough(env, s, i);
    var v := if st.Some? then st.value else NewState(env, i);
    if CanAdmit(env, s, st, v, i) { Accepted(env, s, st, v, i); } else { RefusedJoin(env, s, st, v, i); }
  }

  lemma RefusedJoin(env: Env, s: Store, st: Option<State>, v: State, i: JoinIn)
    requires StoreOk(env, s) && Tracks(s, i.channelID, st) && v == (if st.Some? then st.value else NewState(env, i))
    requires !CanAdmit(env, s, st, v, i)
    ensures Join(env, s, st, i).err.Some?
  {
    hide CallOk, RowsOk, DeskOk, OneActive, SessionsLive, JobsOwned, BotDesk, SessionsOf, Join;
    JoinRefused(env, s, st, v, i);
  }

  // ---- screen_on from a session that has left ----

  /** The screen handler does not check that its sender is still in the call: an accepted screen_on
      keeps the store's invariant exactly when it is. */
  lemma ScreenOnSafeIff(env: Env, s: Store, f: From, v: State)
    requires StoreOk(env, s) && Reload(s, f.channelID) == Some(v) && Clock(f.now) && f.conn != NONE
    requires v.call.props.screenID == NONE
    ensures StoreOk(env, Step(env, s, ScreenOp(f, true, true)).store) <==> f.conn in v.sessions
  {
    hide StoreOk, Reload, CallOk, UpdateCall, LoadJobs;
    LoadTracks(env, s, f.channelID);
    var t := Step(env, s, ScreenOp(f, true, true)).store;
    if f.conn in v.sessions {
      ScreenKeeps(env, s, Some(v), f, true, true);
    } else {
      var c := ScreenHandler(s, Some(v), f, true, true).st.value.call;
      UpdateCallPuts(s, c);
      SharerGone(env, t, c, v.sessions);
    }
  }

  lemma SharerGone(env: Env, t: Store, c: Call, s: Sessions)
    requires c.id in t.calls && t.calls[c.id] == c && c.endAt == 0 && s == SessionsOf(t.sessions, c.id)
    requires c.props.screenID != NONE && c.props.screenID !in s
    ensures !StoreOk(env, t)
  {
    hide HostOk, PeopleOk, VideoOk, RowsOk, OneActive, SessionsLive, JobsOwned;
    assert !CallOk(env, c, s);
  }

  /** A session that leaves a call that goes on, and whose screen_on is handled afterwards, breaks
      the invariant in this way, whatever the call. */
  lemma RemovedSharer(env: Env, s: Store, v: State, i: LeaveIn, f: From)
    requires StoreOk(env, s) && Legal(env, s, LeaveOp(i)) && Reload(s, i.channelID) == Some(v) && i.now != 0
    requires i.origConn in v.sessions && v.sessions - {i.origConn} != map[]
    requires v.call.props.screenID == NONE || v.call.props.screenID == i.origConn
    requires f.channelID == i.channelID && f.conn == i.origConn && f.conn != NONE && Clock(f.now)
    ensures var t := Step(env, s, LeaveOp(i)).store;
      StoreOk(env, t) && !StoreOk(env, Step(env, t, ScreenOp(f, true, true)).store)
  {
    hide StoreOk, Reload, CallOk, LoadJobs, LeaveJobs, LeaveCall, LeavePosts, UpdateCall, SessionsOf, DeskOk;
    LoadTracks(env, s, i.channelID);
    LeaveStored(env, s, Some(v), i);
    LeftCallOk(env, s, Some(v), i);
    var t := Step(env, s, LeaveOp(i)).store;
    ReloadFinds(env, t, i.channelID, Step(env, s, LeaveOp(i)).st);
    NoSharerLeft(env, v.call, v.sessions[i.origConn], v.sessions - {i.origConn}, i);
    ScreenOnSafeIff(env, t, f, Reload(t, i.channelID).value);
  }

  lemma NoSharerLeft(env: Env, c: Call, us: Session, rest: Sessions, i: LeaveIn)
    requires rest != map[] && (c.props.screenID == NONE || c.props.screenID == i.origConn)
    ensures LeaveCall(env, c, us, rest, i).props.screenID == NONE
  {
    hide NextHost;
  }

  // ---- stop messages ----

  predicate InSlot(jobs: Jobs, j: Job) {
    jobs.recording == Some(j) || jobs.transcription == Some(j) || jobs.captions == Some(j)
  }

  /** The job service refuses empty arguments; no step of a run offers it any. */
  lemma StopsAccepted(env: Env, s: Store, op: Op, v: State, j: Job, at: int)
    requires StoreOk(env, s) && Legal(env, s, op) && Reload(s, Channel(op)) == Some(v) && InSlot(v.jobs, j)
    ensures StopAccepted(Ctx(Channel(op), env.botID, at), j)
  {
    hide CallOk, LoadJobs;
    LoadTracks(env, s, Channel(op));
    SlotKinds(Desk(s.jobs, v.jobs, []), v.call.id);
  }

  /** So in every run a host's request to stop a live recording is carried out in full: recording and
      coupled transcription end at that moment, and each gets one stop message. */
  lemma StopCarriedOut(env: Env, trace: seq<Store>, ops: seq<Op>, n: nat, v: State)
    requires Run(env, trace, ops) && n < |ops| && ops[n].JobOp? && ops[n].act.StopRec?
    requires Reload(trace[n], Channel(ops[n])) == Some(v) && v.jobs.recording.Some?
    requires ops[n].act.stopUser == v.call.Host()
    ensures var (rec, tr, after, at) := (v.jobs.recording, v.jobs.transcription, trace[n + 1].jobs, ops[n].at);
      && rec.value.id in after && after[rec.value.id].endAt == at
      && (tr.Some? ==> tr.value.id in after && after[tr.value.id].endAt == at)
      && Step(env, trace[n], ops[n]).stops == (if tr.Some? then [tr.value.id] else []) + [rec.value.id]
  {
    hide CallOk, LoadJobs, Reload, RowsOk, Advances, OnlyCall, StopRecording, Legal, StoreOk, SessionsOf;
    var (s, op) := (trace[n], ops[n]);
    RunKeeps(env, trace, ops, n);
    LegalChannel(env, s, op);
    LoadTracks(env, s, Channel(op));
    LoadedNow(env, s, Channel(op), v);
    var d := Desk(s.jobs, v.jobs, []);
    StopRecordingEffect(d, Ctx(op.jobChannel, env.botID, op.at), v.call.id);
  }

  lemma LegalChannel(env: Env, s: Store, op: Op)
    requires Legal(env, s, op) && op.JobOp?
    ensures op.jobChannel != NONE && env.botID != NONE && op.at >= 1000
  {
    hide Reload;
  }

  /** A load fills the slots with live jobs only. */
  lemma LoadedNow(env: Env, s: Store, ch: Id, v: State)
    requires StoreOk(env, s) && Reload(s, ch) == Some(v)
    ensures (v.jobs.recording.Some? ==> Live(v.jobs.recording))
    ensures v.jobs.transcription.Some? ==> Live(v.jobs.transcription)
  {
    hide CallOk, Reload;
    LoadTracks(env, s, ch);
    LoadedLive(s.jobs, v.call.id);
  }
}
