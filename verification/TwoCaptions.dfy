/** How a call comes to have two live captions jobs. When a transcription times out its captions job is
    ended in memory only: the write that should store it repeats the transcription's
    (server/transcription_api.go:60-65). The next start adds a second one. */
module TwoCaptions {
  import opened Basics
  import opened Rows
  import opened Load
  import opened JobDesk
  import opened JobFacts
  import opened JobRuns
  import opened Membership
  import opened Machine
  import opened Invariant
  import opened Steps
  import opened WriteThrough
  import opened Captions
  import opened Batches
  import opened Conflicts
  import opened JobStarts

  // ---- single sections ----

  function BeginTrOp(ch: Id, user: Id, tr: Id, lc: Id, at: int): Op { JobOp(ch, BeginTr(user, tr, Some(lc)), at) }

  function FinishTrOp(ch: Id, job: Id, at: int): Op { JobOp(ch, FinishTr(true, Ran(job)), at) }

  function TimeoutOp(ch: Id, job: Id, at: int): Op { JobOp(ch, TrTimeout(job, true), at) }

  /** One job section of a call that goes on. */
  ghost predicate JobSection(env: Env, s: Store, v: State, op: Op, t: Store) {
    && StoreOk(env, s) && Reload(s, Channel(op)) == Some(v) && Legal(env, s, op) && op.JobOp? && op.at != 0
    && Leads(env, s, op, t)
  }

  lemma SectionRows(env: Env, s: Store, v: State, op: Op, t: Store)
    requires JobSection(env, s, v, op, t)
    ensures t == s.(jobs := JobRows(Desk(s.jobs, v.jobs, []), v.call, op.act, Ctx(op.jobChannel, env.botID, op.at)))
    ensures DeskOk(Desk(s.jobs, v.jobs, []), v.call.id) && v.call.IsValid() && v.call.endAt == 0
    ensures StoreOk(env, t) && Reload(t, Channel(op)).Some?
    ensures Reload(t, Channel(op)).value.call == v.call && Reload(t, Channel(op)).value.sessions == v.sessions
  {
    hide StoreOk, Reload, JobRows, JobStops, Legal, DeskOk, CallOk;
    LoadTracks(env, s, Channel(op));
    ReloadFinds(env, s, Channel(op), Some(v));
    CallOkBasics(env, v.call, v.sessions);
    ReloadedAfter(env, s, t, op, v);
  }

  lemma TranscriptionInserted(env: Env, s: Store, v: State, t: Store, user: Id, tr: Id, lc: Id, op: Op)
    requires op.JobOp? && op == BeginTrOp(Channel(op), user, tr, lc, op.at) && JobSection(env, s, v, op, t)
    requires v.jobs.transcription.None? && tr != NONE && lc != NONE && tr != lc && tr !in s.jobs && lc !in s.jobs
    requires user != NONE
    ensures t == s.(jobs := s.jobs[tr := NewJob(tr, v.call.id, Transcribing, user, op.at)]
                                  [lc := NewJob(lc, v.call.id, Captioning, user, op.at)])
  {
    hide Reload, StoreOk, DeskOk, Legal, Step;
    SectionRows(env, s, v, op, t);
  }

  lemma TranscriptionNoted(env: Env, s: Store, v: State, t: Store, tr: Id, lc: Id, job: Id, op: Op)
    requires op.JobOp? && op == FinishTrOp(Channel(op), job, op.at) && JobSection(env, s, v, op, t)
    requires tr in s.jobs && lc in s.jobs && tr != lc && s.jobs[tr].jobID == NONE
    requires v.jobs.transcription == Some(s.jobs[tr]) && v.jobs.captions == Some(s.jobs[lc])
    ensures t == s.(jobs := s.jobs[tr := s.jobs[tr].(jobID := job)][lc := s.jobs[lc].(jobID := job)])
  {
    hide Reload, StoreOk, Legal, Step, OneLive;
    SectionRows(env, s, v, op, t);
  }

  lemma TimedOut(env: Env, s: Store, v: State, t: Store, rec: Id, tr: Id, job: Id, op: Op)
    requires op.JobOp? && op == TimeoutOp(Channel(op), job, op.at) && JobSection(env, s, v, op, t)
    requires rec in s.jobs && tr in s.jobs && rec != tr
    requires v.jobs.recording == Some(s.jobs[rec]) && v.jobs.transcription == Some(s.jobs[tr])
    requires s.jobs[tr].startAt == 0 && s.jobs[tr].jobID == job && s.jobs[rec].endAt == 0
    ensures t == s.(jobs := s.jobs[tr := s.jobs[tr].(endAt := op.at, err := TIMED_OUT)]
                                  [rec := s.jobs[rec].(endAt := op.at)])
  {
    hide Reload, StoreOk, Legal, Step, OneLive;
    SectionRows(env, s, v, op, t);
  }

  // ---- what a load selects ----

  /** No recording and no transcription of the call goes on. */
  ghost predicate Idle(s: Store, id: Id) {
    forall k :: !Unended(s, k, id, Recording) && !Unended(s, k, id, Transcribing)
  }

  lemma IdleSlots(env: Env, s: Store, ch: Id, v: State)
    requires StoreOk(env, s) && Reload(s, ch) == Some(v) && Idle(s, v.call.id)
    ensures v.jobs.recording.None? && v.jobs.transcription.None?
  {
    hide StoreOk, Reload;
    NoneFound(env, s, ch, v, Recording);
    NoneFound(env, s, ch, v, Transcribing);
  }

  /** The captions job l comes before every other live one. */
  ghost predicate Foremost(s: Store, id: Id, l: Id) {
    && Unended(s, l, id, Captioning)
    && forall x | Unended(s, x, id, Captioning) && x != l :: s.jobs[x].startAt == s.jobs[l].startAt && IdLess(l, x)
  }

  lemma CaptionsSlot(env: Env, s: Store, ch: Id, v: State, l: Id)
    requires StoreOk(env, s) && Reload(s, ch) == Some(v) && Foremost(s, v.call.id, l)
    ensures v.jobs.captions == Some(s.jobs[l])
  {
    hide StoreOk;
    var keys := JobKeys(s.jobs, v.call.id, Captioning);
    forall x | x in keys && x != l ensures Before(JobRank(s.jobs)[l], l, JobRank(s.jobs)[x], x) {
      assert Unended(s, x, v.call.id, Captioning);
    }
    assert IsFirst(l, keys, JobRank(s.jobs));
    ActiveJobIs(s.jobs, v.call.id, Captioning, l);
  }

  // ---- a start, up to the row of the captions job ----

  datatype Start = Start(rec: Id, tr: Id, lc: Id, recJob: Id, at: int)

  predicate NewIds(s: Store, p: Start) {
    && p.rec != NONE && p.tr != NONE && p.lc != NONE && p.rec != p.tr && p.rec != p.lc && p.tr != p.lc
    && p.rec !in s.jobs && p.tr !in s.jobs && p.lc !in s.jobs
  }

  function StartOps(ch: Id, user: Id, p: Start): seq<Op> {
    [Begin(ch, user, p.rec, p.at), Finish(ch, p.recJob, p.at), BeginTrOp(ch, user, p.tr, p.lc, p.at)]
  }

  function Started(jobs: map<Id, Job>, id: Id, user: Id, p: Start): map<Id, Job> {
    jobs[p.rec := NewJob(p.rec, id, Recording, user, p.at).(jobID := p.recJob)]
        [p.tr := NewJob(p.tr, id, Transcribing, user, p.at)]
        [p.lc := NewJob(p.lc, id, Captioning, user, p.at)]
  }

  lemma StartLegal(env: Env, s0: Store, s1: Store, s2: Store, ch: Id, user: Id, p: Start)
    requires ch != NONE && env.botID != NONE && p.at >= 1000
    ensures var ops := StartOps(ch, user, p); Legal(env, s0, ops[0]) && Legal(env, s1, ops[1]) && Legal(env, s2, ops[2])
  {
  }

  ghost predicate SameCall(s: Store, ch: Id, v: State) {
    Reload(s, ch).Some? && Reload(s, ch).value.call == v.call && Reload(s, ch).value.sessions == v.sessions
  }

  lemma AfterStart(env: Env, s0: Store, s1: Store, s2: Store, s3: Store, ch: Id, v: State, p: Start)
    requires StoreOk(env, s0) && Reload(s0, ch) == Some(v) && ch != NONE && env.botID != NONE && p.at >= 1000
    requires v.call.Host() != NONE && Idle(s0, v.call.id) && NewIds(s0, p)
    requires var ops := StartOps(ch, v.call.Host(), p);
      Leads(env, s0, ops[0], s1) && Leads(env, s1, ops[1], s2) && Leads(env, s2, ops[2], s3)
    ensures s3 == s0.(jobs := Started(s0.jobs, v.call.id, v.call.Host(), p))
    ensures StoreOk(env, s3) && SameCall(s3, ch, v)
  {
    hide StoreOk, Reload, Step, Legal;
    var (u, id, ops) := (v.call.Host(), v.call.id, StartOps(ch, v.call.Host(), p));
    StartLegal(env, s0, s1, s2, ch, u, p);
    IdleSlots(env, s0, ch, v);
    BeginInserts(env, s0, s1, ch, v, u, p.rec, p.at);
    ReloadedAfter(env, s0, s1, ops[0], v);
    var v1 := Reload(s1, ch).value;
    assert Unended(s1, p.rec, id, Recording);
    AnswerGoesToTheLive(env, s1, s2, ch, v1, Ran(p.recJob), p.at);
    ReloadedAfter(env, s1, s2, ops[1], v1);
    var v2 := Reload(s2, ch).value;
    forall k ensures !Unended(s2, k, id, Transcribing) { assert !Unended(s0, k, id, Transcribing); }
    NoneFound(env, s2, ch, v2, Transcribing);
    TranscriptionInserted(env, s2, v2, s3, u, p.tr, p.lc, ops[2]);
    SectionRows(env, s2, v2, ops[2], s3);
  }

  // ---- the transcribing bot joins ----

  /** The bot joins for the transcription tr, whose captions job is lc, over a new connection. */
  ghost predicate BotMayJoin(env: Env, s: Store, v: State, tr: Id, lc: Id, i: JoinIn) {
    && StoreOk(env, s) && Reload(s, i.channelID) == Some(v) && Legal(env, s, JoinOp(i)) && i.userID == env.botID
    && i.connID !in v.sessions && JoinAllowed(env, v.sessions) && i.jobID == tr != lc
    && tr in s.jobs && s.jobs[tr].startAt == 0 && v.jobs.transcription == Some(s.jobs[tr])
    && lc in s.jobs && s.jobs[lc].startAt == 0 && v.jobs.captions == Some(s.jobs[lc])
  }

  lemma BotInCall(env: Env, s: Store, v: State, tr: Id, lc: Id, i: JoinIn, t: Store)
    requires BotMayJoin(env, s, v, tr, lc, i) && t == Step(env, s, JoinOp(i)).store
    ensures t.jobs == s.jobs[lc := s.jobs[lc].(botConnID := i.connID)][tr := s.jobs[tr].(botConnID := i.connID)]
    ensures t.sessions == s.sessions[i.connID := NewSession(v.call.id, i)] && t.calls.Keys == s.calls.Keys
    ensures StoreOk(env, t) && Reload(t, i.channelID).Some?
    ensures Reload(t, i.channelID).value.call.id == v.call.id
    ensures Reload(t, i.channelID).value.call.Host() == v.call.Host()
    ensures Reload(t, i.channelID).value.sessions == v.sessions[i.connID := NewSession(v.call.id, i)]
  {
    hide StoreOk, Reload, Join, RowsOk, SlotOk, CallOk, NextHost, LoadJobs, WriteJoin;
    LoadTracks(env, s, i.channelID);
    ReloadFinds(env, s, i.channelID, Some(v));
    BotNoted(s, v, tr, lc, i);
    Accepted(env, s, Some(v), v, i);
    JoinStored(env, s, Some(v), v, i);
    ReloadFinds(env, t, i.channelID, Some(JoinedState(env, s, v, i)));
    HostStays(env, v, i);
  }

  lemma BotNoted(s: Store, v: State, tr: Id, lc: Id, i: JoinIn)
    requires DeskOk(Desk(s.jobs, v.jobs, []), v.call.id) && i.jobID == tr != lc
    requires tr in s.jobs && s.jobs[tr].startAt == 0 && v.jobs.transcription == Some(s.jobs[tr])
    requires lc in s.jobs && s.jobs[lc].startAt == 0 && v.jobs.captions == Some(s.jobs[lc])
    ensures var d := JoinBot(Desk(s.jobs, v.jobs, []), i.jobID, i.connID);
      && d.Joined?
      && d.desk.rows == s.jobs[lc := s.jobs[lc].(botConnID := i.connID)][tr := s.jobs[tr].(botConnID := i.connID)]
  {
    hide OneLive;
    SlotKinds(Desk(s.jobs, v.jobs, []), v.call.id);
  }

  // ---- the first transcription times out ----

  ghost predicate OnlyLive(s: Store, id: Id, ks: set<Id>) { forall k, kind :: Unended(s, k, id, kind) ==> k in ks }

  /** The first start: a recording, a transcription and a captions job go on. */
  ghost predicate FirstOn(s: Store, id: Id, p: Start, job: Id) {
    && Unended(s, p.rec, id, Recording) && Unended(s, p.tr, id, Transcribing) && Unended(s, p.lc, id, Captioning)
    && s.jobs[p.tr].startAt == 0 && s.jobs[p.lc].startAt == 0 && s.jobs[p.tr].jobID == job
    && OnlyLive(s, id, {p.rec, p.tr, p.lc})
  }

  lemma OneCaptionsSlot(env: Env, s: Store, ch: Id, v: State, p: Start, job: Id)
    requires StoreOk(env, s) && Reload(s, ch) == Some(v) && FirstOn(s, v.call.id, p, job)
    requires p.rec != p.tr && p.rec != p.lc && p.tr != p.lc
    ensures v.jobs == Jobs(Some(s.jobs[p.rec]), Some(s.jobs[p.tr]), Some(s.jobs[p.lc]))
  {
    hide StoreOk, Reload;
    FoundIffUnended(env, s, ch, v, p.rec, Recording);
    FoundIffUnended(env, s, ch, v, p.tr, Transcribing);
    forall x | Unended(s, x, v.call.id, Captioning) ensures x == p.lc { }
    CaptionsSlot(env, s, ch, v, p.lc);
  }

  lemma FirstStart(env: Env, s0: Store, s1: Store, s2: Store, s3: Store, s4: Store, ch: Id, v: State, p: Start, job: Id)
    requires StoreOk(env, s0) && Reload(s0, ch) == Some(v) && ch != NONE && env.botID != NONE && p.at >= 1000
    requires v.call.Host() != NONE && OnlyLive(s0, v.call.id, {}) && NewIds(s0, p)
    requires var ops := StartOps(ch, v.call.Host(), p);
      Leads(env, s0, ops[0], s1) && Leads(env, s1, ops[1], s2) && Leads(env, s2, ops[2], s3)
    requires Leads(env, s3, FinishTrOp(ch, job, p.at), s4)
    ensures StoreOk(env, s4) && SameCall(s4, ch, v) && FirstOn(s4, v.call.id, p, job)
    ensures s4.calls == s0.calls && s4.sessions == s0.sessions && s4.jobs.Keys == s0.jobs.Keys + {p.rec, p.tr, p.lc}
  {
    hide StoreOk, Reload, Step, Legal, FirstOn, OnlyLive, Started;
    AfterStart(env, s0, s1, s2, s3, ch, v, p) by { NoneIdle(s0, v.call.id); }
    var v3 := Reload(s3, ch).value;
    StartedRows(s0, s3, v.call.id, v.call.Host(), p);
    OneCaptionsSlot(env, s3, ch, v3, p, NONE);
    var op := FinishTrOp(ch, job, p.at);
    JobLegal(env, s3, op);
    FirstRows(s3, v.call.id, p, NONE);
    TranscriptionNoted(env, s3, v3, s4, p.tr, p.lc, job, op);
    SectionRows(env, s3, v3, op, s4);
    NotedRows(s3, s4, v.call.id, p, job);
  }

  lemma NoneIdle(s: Store, id: Id)
    requires OnlyLive(s, id, {})
    ensures Idle(s, id)
  {
  }

  lemma JobLegal(env: Env, s: Store, op: Op)
    requires op.JobOp? && op.jobChannel != NONE && env.botID != NONE && op.at >= 1000
    ensures Legal(env, s, op)
  {
  }

  lemma FirstRows(s: Store, id: Id, p: Start, job: Id)
    requires FirstOn(s, id, p, job)
    ensures p.rec in s.jobs && p.tr in s.jobs && p.lc in s.jobs
    ensures s.jobs[p.rec].endAt == 0 && s.jobs[p.tr].jobID == job
    ensures s.jobs[p.tr].startAt == 0 && s.jobs[p.lc].startAt == 0
  {
  }

  lemma NotedRows(s: Store, t: Store, id: Id, p: Start, job: Id)
    requires FirstOn(s, id, p, NONE) && p.rec != p.tr && p.rec != p.lc && p.tr != p.lc
    requires t == s.(jobs := s.jobs[p.tr := s.jobs[p.tr].(jobID := job)][p.lc := s.jobs[p.lc].(jobID := job)])
    ensures FirstOn(t, id, p, job) && t.jobs.Keys == s.jobs.Keys
  {
    forall k, kind | Unended(t, k, id, kind) ensures k in {p.rec, p.tr, p.lc} { assert Unended(s, k, id, kind); }
  }

  lemma StartedRows(s0: Store, s3: Store, id: Id, user: Id, p: Start)
    requires NewIds(s0, p) && OnlyLive(s0, id, {}) && s3 == s0.(jobs := Started(s0.jobs, id, user, p))
    ensures FirstOn(s3, id, p, NONE) && s3.jobs.Keys == s0.jobs.Keys + {p.rec, p.tr, p.lc}
  {
    forall k, kind | Unended(s3, k, id, kind) ensures k in {p.rec, p.tr, p.lc} {
      if k !in {p.rec, p.tr, p.lc} { assert Unended(s0, k, id, kind); }
    }
  }

  /** The captions job l, noted with the connection conn of its bot, goes on without a transcription. */
  ghost predicate LeftBehind(s: Store, id: Id, l: Id, conn: Id) {
    && Unended(s, l, id, Captioning) && s.jobs[l].startAt == 0 && s.jobs[l].botConnID == conn && OnlyLive(s, id, {l})
  }

  /** The bot joins but never reports, so that its transcription times out. */
  lemma Abandoned(env: Env, s4: Store, s5: Store, s6: Store, v: State, p: Start, job: Id, i: JoinIn, at: int)
    requires StoreOk(env, s4) && Reload(s4, i.channelID) == Some(v) && FirstOn(s4, v.call.id, p, job)
    requires p.rec != p.tr && p.rec != p.lc && p.tr != p.lc && at >= 1000
    requires i.userID == env.botID && i.jobID == p.tr && Legal(env, s4, JoinOp(i))
    requires i.connID !in v.sessions && JoinAllowed(env, v.sessions)
    requires s5 == Step(env, s4, JoinOp(i)).store && Leads(env, s5, TimeoutOp(i.channelID, job, at), s6)
    ensures StoreOk(env, s6) && LeftBehind(s6, v.call.id, p.lc, i.connID) && s6.jobs.Keys == s4.jobs.Keys
    ensures s6.calls.Keys == s4.calls.Keys && s6.sessions == s4.sessions[i.connID := NewSession(v.call.id, i)]
    ensures Reload(s6, i.channelID).Some? && Reload(s6, i.channelID).value.call.id == v.call.id
    ensures Reload(s6, i.channelID).value.call.Host() == v.call.Host()
    ensures Reload(s6, i.channelID).value.sessions == v.sessions[i.connID := NewSession(v.call.id, i)]
  {
    hide StoreOk, Reload, Step, Legal, FirstOn, OnlyLive, LeftBehind, JoinAllowed;
    var (ch, id) := (i.channelID, v.call.id);
    OneCaptionsSlot(env, s4, ch, v, p, job);
    FirstRows(s4, id, p, job);
    BotInCall(env, s4, v, p.tr, p.lc, i, s5);
    var v5 := Reload(s5, ch).value;
    BotNotedRows(s4, s5, id, p, job, i.connID);
    OneCaptionsSlot(env, s5, ch, v5, p, job);
    FirstRows(s5, id, p, job);
    var op := TimeoutOp(ch, job, at);
    ChannelNamed(env, s4, i);
    JobLegal(env, s5, op);
    TimedOut(env, s5, v5, s6, p.rec, p.tr, job, op);
    SectionRows(env, s5, v5, op, s6);
    TimedOutRows(s5, s6, id, p, job, i.connID, at);
  }

  lemma ChannelNamed(env: Env, s: Store, i: JoinIn)
    requires Legal(env, s, JoinOp(i))
    ensures i.channelID != NONE && env.botID != NONE
  {
  }

  lemma BotNotedRows(s: Store, t: Store, id: Id, p: Start, job: Id, conn: Id)
    requires FirstOn(s, id, p, job) && p.rec != p.tr && p.rec != p.lc && p.tr != p.lc
    requires t.jobs == s.jobs[p.lc := s.jobs[p.lc].(botConnID := conn)][p.tr := s.jobs[p.tr].(botConnID := conn)]
    ensures FirstOn(t, id, p, job) && t.jobs[p.lc].botConnID == conn && t.jobs.Keys == s.jobs.Keys
  {
    forall k, kind | Unended(t, k, id, kind) ensures k in {p.rec, p.tr, p.lc} { assert Unended(s, k, id, kind); }
  }

  lemma TimedOutRows(s: Store, t: Store, id: Id, p: Start, job: Id, conn: Id, at: int)
    requires FirstOn(s, id, p, job) && p.rec != p.tr && p.rec != p.lc && p.tr != p.lc && at != 0
    requires s.jobs[p.lc].botConnID == conn
    requires t == s.(jobs := s.jobs[p.tr := s.jobs[p.tr].(endAt := at, err := TIMED_OUT)]
                                   [p.rec := s.jobs[p.rec].(endAt := at)])
    ensures LeftBehind(t, id, p.lc, conn) && t.jobs.Keys == s.jobs.Keys
  {
    forall k, kind | Unended(t, k, id, kind) ensures k == p.lc { assert Unended(s, k, id, kind); }
  }

  // ---- the second start ----

  /** Two captions jobs go on, each with the connection of its bot; the load selects l and not k. */
  ghost predicate TwoLive(s: Store, v: State, l: Id, lConn: Id, k: Id, kConn: Id) {
    && l != k && l in s.jobs && k in s.jobs
    && s.jobs[l].botConnID == lConn && s.jobs[k].botConnID == kConn
    && v.jobs.captions == Some(s.jobs[l]) && Live(v.jobs.captions)
    && NextCaptions(s.jobs, v.call.id, v.jobs.captions) == Some(s.jobs[k])
    && lConn in v.sessions && kConn in v.sessions
  }

  lemma SecondStart(env: Env, s6: Store, s7: Store, s8: Store, s9: Store, s10: Store, v: State,
                    k: Id, kConn: Id, p: Start, i: JoinIn)
    requires StoreOk(env, s6) && Reload(s6, i.channelID) == Some(v) && LeftBehind(s6, v.call.id, k, kConn)
    requires NewIds(s6, p) && p.at >= 1000 && IdLess(p.lc, k) && v.call.Host() != NONE && kConn in v.sessions
    requires var ops := StartOps(i.channelID, v.call.Host(), p);
      Leads(env, s6, ops[0], s7) && Leads(env, s7, ops[1], s8) && Leads(env, s8, ops[2], s9)
    requires i.userID == env.botID && i.jobID == p.tr && Legal(env, s9, JoinOp(i))
    requires i.connID !in v.sessions && JoinAllowed(env, v.sessions) && s10 == Step(env, s9, JoinOp(i)).store
    ensures StoreOk(env, s10) && Reload(s10, i.channelID).Some?
    ensures TwoLive(s10, Reload(s10, i.channelID).value, p.lc, i.connID, k, kConn)
    ensures s10.sessions == s6.sessions[i.connID := NewSession(v.call.id, i)]
    ensures Reload(s10, i.channelID).value.sessions == v.sessions[i.connID := NewSession(v.call.id, i)]
  {
    hide StoreOk, Reload, Step, Legal, LeftBehind, JoinAllowed, Started, NextCaptions;
    var (ch, id) := (i.channelID, v.call.id);
    ChannelNamed(env, s9, i);
    BehindIdle(s6, id, k, kConn);
    AfterStart(env, s6, s7, s8, s9, ch, v, p);
    var v9 := Reload(s9, ch).value;
    SecondRows(s6, s9, id, v.call.Host(), k, kConn, p);
    FoundIffUnended(env, s9, ch, v9, p.tr, Transcribing);
    CaptionsSlot(env, s9, ch, v9, p.lc);
    BotInCall(env, s9, v9, p.tr, p.lc, i, s10);
    var w := Reload(s10, ch).value;
    BotNotedSecond(s9, s10, id, k, kConn, p, i.connID);
    CaptionsSlot(env, s10, ch, w, p.lc);
    OneBesides(env, s10, id, p.lc, k, kConn);
  }

  lemma BehindIdle(s: Store, id: Id, k: Id, conn: Id)
    requires LeftBehind(s, id, k, conn)
    ensures Idle(s, id)
  {
    forall x ensures !Unended(s, x, id, Recording) && !Unended(s, x, id, Transcribing) { }
  }

  /** The captions rows once both go on. */
  ghost predicate BothOn(s: Store, id: Id, l: Id, k: Id, kConn: Id) {
    && l != k && Foremost(s, id, l) && Unended(s, k, id, Captioning) && s.jobs[k].botConnID == kConn
    && s.jobs[l].startAt == 0
    && forall x :: Unended(s, x, id, Captioning) ==> x == l || x == k
  }

  lemma SecondRows(s: Store, t: Store, id: Id, user: Id, k: Id, kConn: Id, p: Start)
    requires LeftBehind(s, id, k, kConn) && NewIds(s, p) && IdLess(p.lc, k)
    requires t == s.(jobs := Started(s.jobs, id, user, p))
    ensures BothOn(t, id, p.lc, k, kConn) && Unended(t, p.tr, id, Transcribing) && t.jobs[p.tr].startAt == 0
  {
    forall x | Unended(t, x, id, Captioning) ensures x == p.lc || x == k {
      if x != p.lc { assert Unended(s, x, id, Captioning); }
    }
  }

  lemma BotNotedSecond(s: Store, t: Store, id: Id, k: Id, kConn: Id, p: Start, conn: Id)
    requires BothOn(s, id, p.lc, k, kConn) && p.tr != p.lc && Unended(s, p.tr, id, Transcribing)
    requires t.jobs == s.jobs[p.lc := s.jobs[p.lc].(botConnID := conn)][p.tr := s.jobs[p.tr].(botConnID := conn)]
    ensures BothOn(t, id, p.lc, k, kConn) && t.jobs[p.lc].botConnID == conn
  {
    forall x | Unended(t, x, id, Captioning) ensures Unended(s, x, id, Captioning) { }
  }

  lemma OneBesides(env: Env, s: Store, id: Id, l: Id, k: Id, kConn: Id)
    requires StoreOk(env, s) && BothOn(s, id, l, k, kConn)
    ensures NextCaptions(s.jobs, id, Some(s.jobs[l])) == Some(s.jobs[k])
  {
    hide CallOk;
    var few := Without(s.jobs, Some(s.jobs[l]));
    assert Unended(s, l, id, Captioning) && s.jobs[l].id == l;
    forall x ensures x in JobKeys(few, id, Captioning) <==> x == k {
      if x in JobKeys(few, id, Captioning) { assert Unended(s, x, id, Captioning); }
    }
    assert JobKeys(few, id, Captioning) == {k};
    assert IsFirst(k, JobKeys(few, id, Captioning), JobRank(few));
    ActiveJobIs(few, id, Captioning, k);
  }

  // ---- what the two leaves of the bots do ----

  function BotLeaves(env: Env, ch: Id, conn: Id, now: int): LeaveIn { LeaveIn(env.botID, conn, conn, ch, now, NONE) }

  ghost predicate BotSessions(env: Env, s: Store, v: State, l: Id, k: Id) {
    && l in v.sessions && k in v.sessions && l != k
    && (l in s.sessions ==> s.sessions[l].userID == env.botID)
    && (k in s.sessions ==> s.sessions[k].userID == env.botID)
  }

  /** The bot of the selected job leaves: in memory captions are off, a load finds the other job on. */
  lemma OtherReadBack(env: Env, s: Store, v: State, l: Id, lConn: Id, k: Id, kConn: Id, ch: Id, now: int)
    requires StoreOk(env, s) && Reload(s, ch) == Some(v) && TwoLive(s, v, l, lConn, k, kConn)
    requires BotSessions(env, s, v, lConn, kConn) && ch != NONE && env.botID != NONE && now >= 1000
    ensures var o := Step(env, s, LeaveOp(BotLeaves(env, ch, lConn, now)));
      && o.st.Some? && !Live(o.st.value.jobs.captions) && Reload(o.store, ch) != Persisted(o.st.value)
      && Reload(o.store, ch).Some? && Reload(o.store, ch).value.jobs.captions == Some(s.jobs[k])
  {
    hide StoreOk, Reload, Leave, NextCaptions, LeftCaptions, OneLiveCaptions;
    var i := BotLeaves(env, ch, lConn, now);
    LoadTracks(env, s, ch);
    LoadedFirst(env, s, ch, v);
    LeaveWrittenThrough(env, s, v, i);
    CaptionsLeft(env, s, v, i);
    LeftCaptionsLive(v.jobs, lConn, lConn, now);
    GoesOnWithout(env, s, v, i);
    LoadedCaptions(Step(env, s, LeaveOp(i)).store, ch);
  }

  lemma GoesOnWithout(env: Env, s: Store, v: State, i: LeaveIn)
    requires StoreOk(env, s) && Tracks(s, i.channelID, Some(v)) && Legal(env, s, LeaveOp(i))
    requires i.origConn in v.sessions && v.sessions.Keys != {i.origConn}
    ensures var o := Leave(env, s, Some(v), i);
      Reload(o.store, i.channelID).Some? && Reload(o.store, i.channelID).value.call.id == v.call.id
  {
    hide StoreOk, CallOk, LeaveCall, RowsOk, DeskOk, LoadJobs, LeaveJobs, LeavePosts, UpdateCall, Leave;
    var o := Leave(env, s, Some(v), i);
    LeaveStored(env, s, Some(v), i);
    LeftCallOk(env, s, Some(v), i);
    LoneSession(v.sessions, i.origConn);
    ReloadFinds(env, o.store, i.channelID, o.st);
  }

  /** The captions job k is on after the batch, and off after single leaves. */
  ghost predicate Outlives(env: Env, s: Store, ch: Id, items: seq<LeaveIn>, k: Id)
    requires forall i | i in items :: i.now != 0
  {
    LiveInFirst(LastStore(s, BatchLeaves(env, s, Reload(s, ch), items)), LastStore(s, SingleLeaves(env, s, items)), k)
  }

  /** Both bots leave in one batch: the other captions job stays on, where single leaves end it. */
  lemma SecondOutlives(env: Env, s: Store, v: State, l: Id, lConn: Id, k: Id, kConn: Id, ch: Id, now: int,
                       items: seq<LeaveIn>)
    requires StoreOk(env, s) && Reload(s, ch) == Some(v) && TwoLive(s, v, l, lConn, k, kConn)
    requires BotSessions(env, s, v, lConn, kConn) && ch != NONE && env.botID != NONE && now >= 1000
    requires items == [BotLeaves(env, ch, lConn, now), BotLeaves(env, ch, kConn, now)]
    requires forall i | i in items :: i.now != 0
    ensures LeavesLegal(env, s, ch, items) && EndsTwoLoaded(s, Reload(s, ch), items) && Outlives(env, s, ch, items, k)
  {
    hide StoreOk, Reload, Leave, NextCaptions, BatchLeaves, SingleLeaves;
    BothLegal(env, s, v, lConn, kConn, ch, now);
    assert EndsJob(v, items, 0, s.jobs[l]) && EndsJob(v, items, 1, s.jobs[k]);
    assert OverBefore(v, items, 1);
    NextKey(env, s, v, k);
    BatchKeepsSecond(env, s, ch, items);
  }

  lemma NextKey(env: Env, s: Store, v: State, k: Id)
    requires StoreOk(env, s) && k in s.jobs && NextHeld(s, v) == Some(s.jobs[k])
    ensures NextHeld(s, v).value.id == k
  {
    hide CallOk;
  }

  lemma BothLegal(env: Env, s: Store, v: State, lConn: Id, kConn: Id, ch: Id, now: int)
    requires StoreOk(env, s) && Reload(s, ch) == Some(v) && BotSessions(env, s, v, lConn, kConn)
    requires ch != NONE && env.botID != NONE && now >= 1000
    ensures LeavesLegal(env, s, ch, [BotLeaves(env, ch, lConn, now), BotLeaves(env, ch, kConn, now)])
  {
    hide StoreOk, Reload, LeaveJobs, LeaveCall, LeavePosts, UpdateCall;
    var (i, j) := (BotLeaves(env, ch, lConn, now), BotLeaves(env, ch, kConn, now));
    LoadTracks(env, s, ch);
    LeaveStored(env, s, Some(v), i);
    var t := Step(env, s, LeaveOp(i)).store;
    assert Legal(env, t, LeaveOp(j));
    assert [i, j][1..] == [j] && [j][1..] == [];
    assert LeavesLegal(env, t, ch, [j]);
  }
}
