/** What a join answers and what it leaves behind, in terms of the call that goes on before it
    (server/session.go:83-244, 493-506; server/websocket.go:782-957). */
module JoinEffects {
  import opened Basics
  import opened Rows
  import opened Load
  import opened JobDesk
  import opened JobFacts
  import opened JobRuns
  import opened Host
  import opened Posts
  import opened Membership
  import opened Machine
  import opened Invariant
  import opened WriteThrough
  import opened HandlerEffects
  import opened JobEffects

  // ---- who gets in ----

  /** The number of sessions of the call that goes on, if any. */
  function Seats(st: Option<State>): nat {
    if st.None? then 0 else |st.value.sessions|
  }

  /** Why the bot cannot join for a job: nothing is recorded or transcribed, or the job it names is not
      one that waits for it. */
  function BotRefusal(jobs: Jobs, jobID: Id): Option<Err> {
    if jobs.recording.None? && jobs.transcription.None? then Some(NoJobInProgress)
    else if Waits(jobs.recording, jobID) || Waits(jobs.transcription, jobID) then None
    else Some(JobNotJoinable)
  }

  predicate Waits(o: Option<Job>, jobID: Id) {
    o.Some? && o.value.id == jobID && o.value.startAt == 0
  }

  /** The answer to a join, from the loaded state. */
  function JoinAnswer(env: Env, st: Option<State>, i: JoinIn): Option<Err> {
    if st.None? && !i.mayStart then Some(Forbidden)
    else if st.None? && i.rtcd.RtcdFailed? then Some(NoRtcdHost)
    else if st.Some? && i.connID in st.value.sessions then Some(AlreadyConnected)
    else if env.maxParticipants != 0 && env.maxParticipants <= Seats(st) then Some(LimitReached)
    else if i.userID != env.botID then None
    else BotRefusal(if st.None? then Jobs(None, None, None) else st.value.jobs, i.jobID)
  }

  /** Every legal join is answered so, and a refused one changes nothing. */
  lemma JoinAnswered(env: Env, s: Store, i: JoinIn, o: Out)
    requires StoreOk(env, s) && Legal(env, s, JoinOp(i)) && o == Step(env, s, JoinOp(i))
    ensures o.err == JoinAnswer(env, Reload(s, i.channelID), i)
    ensures o.err.Some? ==> Refused(o, s, Reload(s, i.channelID))
  {
    hide StoreOk, Reload, Join, CanAdmit, JoinAnswer, Tracks;
    LoadTracks(env, s, i.channelID);
    var st := Reload(s, i.channelID);
    var v := if st.Some? then st.value else NewState(env, i);
    AdmittedIff(env, s, st, v, i);
    if CanAdmit(env, s, st, v, i) { Accepted(env, s, st, v, i); } else { KeptOut(env, s, st, v, i); }
  }

  lemma AdmittedIff(env: Env, s: Store, st: Option<State>, v: State, i: JoinIn)
    requires Tracks(s, i.channelID, st) && (st.Some? ==> Ongoing(st))
    requires v == (if st.Some? then st.value else NewState(env, i))
    ensures CanAdmit(env, s, st, v, i) <==> JoinAnswer(env, st, i).None?
  {
    hide Tracks;
  }

  lemma KeptOut(env: Env, s: Store, st: Option<State>, v: State, i: JoinIn)
    requires Tracks(s, i.channelID, st) && (st.Some? ==> Ongoing(st)) && !CanAdmit(env, s, st, v, i)
    requires v == (if st.Some? then st.value else NewState(env, i))
    ensures var o := Join(env, s, st, i); o.err == JoinAnswer(env, st, i) && Refused(o, s, st)
  {
    hide Tracks, WriteJoin, StartPost, HostPost, ViewOf, Publish, NextHost, JoinCall;
  }

  /** A user with an unused connection is kept out of a call that goes on exactly by a full limit: the
      last free seat is given, a seat beyond the limit is not. */
  lemma LastSeat(env: Env, s: Store, i: JoinIn, o: Out)
    requires StoreOk(env, s) && Legal(env, s, JoinOp(i)) && o == Step(env, s, JoinOp(i)) && i.userID != env.botID
    requires var st := Reload(s, i.channelID);
      if st.Some? then i.connID !in st.value.sessions else i.mayStart && !i.rtcd.RtcdFailed?
    ensures o.err == Some(LimitReached) <==>
      env.maxParticipants != 0 && Seats(Reload(s, i.channelID)) >= env.maxParticipants
    ensures o.err.None? || o.err == Some(LimitReached)
    ensures o.err.None? ==>
      Reload(o.store, i.channelID).Some?
      && |Reload(o.store, i.channelID).value.sessions| == Seats(Reload(s, i.channelID)) + 1
  {
    hide StoreOk, Reload, Step, Legal;
    JoinAnswered(env, s, i, o);
    if o.err.None? { OneMoreSeat(env, s, i, o); }
  }

  lemma OneMoreSeat(env: Env, s: Store, i: JoinIn, o: Out)
    requires StoreOk(env, s) && Legal(env, s, JoinOp(i)) && o == Step(env, s, JoinOp(i)) && o.err.None?
    ensures Reload(o.store, i.channelID).Some?
    ensures |Reload(o.store, i.channelID).value.sessions| == Seats(Reload(s, i.channelID)) + 1
  {
    hide StoreOk, Reload, WriteJoin, StartPost, HostPost, ViewOf, Publish, NextHost, JoinCall;
    LoadTracks(env, s, i.channelID);
    JoinWrittenThrough(env, s, i);
    var st := Reload(s, i.channelID);
    var v := if st.Some? then st.value else NewState(env, i);
    Accepted(env, s, st, v, i);
  }

  // ---- what an accepted join leaves behind ----

  /** The call before the join, or the one it starts. */
  function CallBefore(env: Env, st: Option<State>, i: JoinIn): Call {
    if st.Some? then st.value.call else
      Call(i.newCallID, i.channelID, i.now, 0, i.now, 0, NONE, NONE, i.userID, {}, Stats(0, 0, false, false),
           Props([], if i.rtcd.RtcdHost? then i.rtcd.host else NONE, NONE, map[], 0, env.nodeID, {}, NONE, map[]))
  }

  function SessionsBefore(st: Option<State>): Sessions { if st.Some? then st.value.sessions else map[] }

  function JobsBefore(st: Option<State>): Jobs { if st.Some? then st.value.jobs else Jobs(None, None, None) }

  /** The host after a join: the locked user comes back to it, otherwise the host there is stays, and the
      first user of a call, the bot aside, becomes it. */
  function HostAfter(env: Env, c: Call, i: JoinIn): Id {
    if c.props.hostLocked == i.userID then i.userID
    else if c.Host() != NONE then c.Host()
    else if i.userID == env.botID then NONE
    else i.userID
  }

  function HostList(h: Id): seq<Id> { if h == NONE then [] else [h] }

  /** The call row: the host, the participants who ever joined, and for a new call its post. */
  predicate CallAfter(env: Env, st: Option<State>, i: JoinIn, d: Call) {
    var c := CallBefore(env, st, i);
    && d == c.(props := c.props.(hosts := d.props.hosts, participants := d.props.participants),
               postID := if st.Some? then c.postID else i.postID,
               threadID := if st.Some? then c.threadID else i.threadID)
    && d.props.hosts == HostList(HostAfter(env, c, i))
    && d.props.participants == c.props.participants + (if i.userID == env.botID then {} else {i.userID})
  }

  /** A user other than the bot changes no job. The bot's connection is noted with the recording that
      waits for it, else with the transcription and with captions that have not started. */
  function RowsAfter(env: Env, rows: map<Id, Job>, jobs: Jobs, i: JoinIn): map<Id, Job> {
    if i.userID != env.botID then rows
    else if Waits(jobs.recording, i.jobID) then Noted(rows, jobs.recording, i.connID)
    else if jobs.captions.Some? && jobs.captions.value.startAt == 0
    then Noted(Noted(rows, jobs.captions, i.connID), jobs.transcription, i.connID)
    else Noted(rows, jobs.transcription, i.connID)
  }

  function SessionAfter(callID: Id, i: JoinIn): Session {
    Session(i.connID, callID, i.userID, i.now, false, 0, false)
  }

  /** What clients are shown of a call: its host, its sharer and its sessions, the bot's aside. */
  ghost predicate Shows(w: ClientView, c: Call, s: Sessions, bot: Id) {
    && w.callID == c.id && w.hostID == c.Host() && w.screenID == c.props.screenID
    && (forall k :: k in w.sessions <==> k in s && s[k].userID != bot)
    && (forall k | k in w.sessions ::
          w.sessions[k] == ClientSession(s[k].id, s[k].userID, s[k].unmuted, s[k].raisedHand, s[k].video))
  }

  /** The events, in order: a change of host to everyone, the start of the call, the newcomer unless it is
      the bot, and the state of the call to the newcomer. */
  ghost predicate JoinEvents(env: Env, st: Option<State>, i: JoinIn, d: Call, posts: seq<Post>) {
    var (c, t) := (CallBefore(env, st, i), SessionsBefore(st)[i.connID := SessionAfter(d.id, i)]);
    exists to, w :: Everyone(to, t) && Shows(w, d, t, env.botID)
      && posts == (if d.Host() != c.Host() then [Post(i.channelID, HostChanged(d.Host()), to)] else [])
                  + (if st.None? then [Post(i.channelID, CallStarted(d.id, d.Host()), ToChannel)] else [])
                  + (if i.userID == env.botID then []
                     else [Post(i.channelID, UserJoined(i.userID, i.connID), ToChannel)])
                  + [Post(i.channelID, Snapshot(w), ToUser(i.userID))]
  }

  /** An accepted join adds one session, rewrites the call as said, notes the bot, and changes no other row. */
  lemma JoinEffect(env: Env, s: Store, i: JoinIn, o: Out)
    requires StoreOk(env, s) && Legal(env, s, JoinOp(i)) && o == Step(env, s, JoinOp(i)) && o.err.None?
    ensures var st := Reload(s, i.channelID);
      var id := CallBefore(env, st, i).id;
      && id in o.store.calls && i.connID !in s.sessions
      && o.store == Store(s.calls[id := o.store.calls[id]], s.sessions[i.connID := SessionAfter(id, i)],
                          RowsAfter(env, s.jobs, JobsBefore(st), i))
      && CallAfter(env, st, i, o.store.calls[id])
      && JoinEvents(env, st, i, o.store.calls[id], o.posts) && o.stops == []
  {
    hide StoreOk, Reload, Step, Legal, JoinEvents, CallAfter, RowsAfter;
    LoadTracks(env, s, i.channelID);
    var st := Reload(s, i.channelID);
    var v := if st.Some? then st.value else NewState(env, i);
    Admitted(env, s, i, o, v);
    JoinedRow(env, s, i, v);
    BotRows(env, s, i, v);
    JoinedPosts(env, s, i, o, v);
  }

  lemma Admitted(env: Env, s: Store, i: JoinIn, o: Out, v: State)
    requires StoreOk(env, s) && Legal(env, s, JoinOp(i)) && o == Step(env, s, JoinOp(i)) && o.err.None?
    requires v == (if Reload(s, i.channelID).Some? then Reload(s, i.channelID).value else NewState(env, i))
    ensures CanAdmit(env, s, Reload(s, i.channelID), v, i) && i.connID !in s.sessions
    ensures o.store == JoinedStore(env, s, v, i) && o.st == Some(JoinedState(env, s, v, i))
    ensures v.call == CallBefore(env, Reload(s, i.channelID), i)
    ensures v.sessions == SessionsBefore(Reload(s, i.channelID)) && v.jobs == JobsBefore(Reload(s, i.channelID))
    ensures |v.sessions[i.connID := SessionAfter(v.call.id, i)]| == 1 <==> Reload(s, i.channelID).None?
  {
    hide StoreOk, Reload, WriteJoin, StartPost, HostPost, ViewOf, Publish, NextHost, JoinCall;
    LoadTracks(env, s, i.channelID);
    Accepted(env, s, Reload(s, i.channelID), v, i);
    ConnUnused(env, s, Reload(s, i.channelID), v, i);
  }

  lemma JoinedRow(env: Env, s: Store, i: JoinIn, v: State)
    requires StoreOk(env, s) && Legal(env, s, JoinOp(i)) && CanAdmit(env, s, Reload(s, i.channelID), v, i)
    requires v.call == CallBefore(env, Reload(s, i.channelID), i)
    requires |v.sessions[i.connID := SessionAfter(v.call.id, i)]| == 1 <==> Reload(s, i.channelID).None?
    ensures CallAfter(env, Reload(s, i.channelID), i, JoinedState(env, s, v, i).call)
  {
    hide StoreOk, Reload, NextHost, BotDesk;
    var st := Reload(s, i.channelID);
    ReloadFinds(env, s, i.channelID, st);
    if st.Some? { HostChosen(env, v.call, v.sessions, i); } else { FirstHost(env, v.call, i); }
  }

  lemma HostChosen(env: Env, c: Call, s: Sessions, i: JoinIn)
    requires CallOk(env, c, s) && env.botID != NONE && i.userID != NONE && i.connID !in s
    ensures NextHost(env, c, s[i.connID := NewSession(c.id, i)], i.hint) == HostAfter(env, c, i)
  {
    hide ScreenOk, VideoOk, PeopleOk;
    var t := s[i.connID := NewSession(c.id, i)];
    InCallGrows(s, t, i.connID);
    assert t[i.connID].userID == i.userID;
    if c.Host() == NONE && c.props.hostLocked != i.userID {
      assert OnlyBot(s, env.botID);
      assert forall k | k in t && k != i.connID :: k in s;
      assert OnlyBot(t, env.botID) <==> i.userID == env.botID;
    }
  }

  lemma FirstHost(env: Env, c: Call, i: JoinIn)
    requires c.Host() == NONE && c.props.hostLocked == NONE && i.userID != NONE && env.botID != NONE
    ensures NextHost(env, c, map[][i.connID := NewSession(c.id, i)], i.hint) == HostAfter(env, c, i)
  {
    var t: Sessions := map[][i.connID := NewSession(c.id, i)];
    assert i.connID in t && t[i.connID].userID == i.userID;
    assert OnlyBot(t, env.botID) <==> i.userID == env.botID;
  }

  lemma BotRows(env: Env, s: Store, i: JoinIn, v: State)
    requires StoreOk(env, s) && Legal(env, s, JoinOp(i)) && CanAdmit(env, s, Reload(s, i.channelID), v, i)
    ensures BotDesk(env, s, v, i).desk.rows == RowsAfter(env, s.jobs, v.jobs, i)
  {
    hide CallOk, Reload, JoinAllowed, OneLive;
    if v.call.id in s.calls && Reload(s, i.channelID).Some? {
      SlotKinds(Desk(s.jobs, v.jobs, []), v.call.id);
    }
  }

  lemma JoinedPosts(env: Env, s: Store, i: JoinIn, o: Out, v: State)
    requires StoreOk(env, s) && Legal(env, s, JoinOp(i)) && CanAdmit(env, s, Reload(s, i.channelID), v, i)
    requires o == Step(env, s, JoinOp(i)) && v.call == CallBefore(env, Reload(s, i.channelID), i)
    requires v.sessions == SessionsBefore(Reload(s, i.channelID))
    ensures JoinEvents(env, Reload(s, i.channelID), i, JoinedState(env, s, v, i).call, o.posts) && o.stops == []
  {
    hide StoreOk, Reload, NextHost, BotDesk, JoinAllowed, CallOk, WriteJoin;
    var st := Reload(s, i.channelID);
    JoinWrites(env, s, st, v, i);
    var d := JoinedState(env, s, v, i).call;
    var t := v.sessions[i.connID := SessionAfter(d.id, i)];
    assert Everyone(ToUsers(UsersOf(t)), t) && Shows(ViewOf(d, t, env.botID), d, t, env.botID);
  }
}
