/** Starting a job releases the lock while the job service is called and works on a reloaded state
    afterwards: which job that is, and what becomes of the answer
    (server/recording_api.go:113-150, server/transcription_api.go:168-221). */
module JobStarts {
  import opened Basics
  import opened Rows
  import opened Load
  import opened JobDesk
  import opened JobFacts
  import opened JobRuns
  import opened Membership
  import opened Machine
  import opened Invariant
  import opened Steps
  import opened History

  function SlotOf(jobs: Jobs, kind: Kind): Option<Job> {
    match kind
    case Recording => jobs.recording
    case Transcribing => jobs.transcription
    case Captioning => jobs.captions
  }

  predicate RowOf(s: Store, r: Id, callID: Id, kind: Kind) {
    r in s.jobs && s.jobs[r].callID == callID && s.jobs[r].kind == kind
  }

  predicate Unended(s: Store, r: Id, callID: Id, kind: Kind) {
    RowOf(s, r, callID, kind) && s.jobs[r].endAt == 0
  }

  /** A load finds a given recording or transcription of the call exactly when that one has not ended. */
  lemma FoundIffUnended(env: Env, s: Store, ch: Id, v: State, r: Id, kind: Kind)
    requires StoreOk(env, s) && Reload(s, ch) == Some(v) && kind != Captioning && RowOf(s, r, v.call.id, kind)
    ensures SlotOf(v.jobs, kind) == Some(s.jobs[r]) <==> s.jobs[r].endAt == 0
  {
    hide CallOk, LoadJobs;
    LoadTracks(env, s, ch);
    LoadedSlots(s, v);
    LoadedSlot(s.jobs, v.call.id, kind);
    var o := SlotOf(v.jobs, kind);
    if s.jobs[r].endAt == 0 {
      assert LiveRow(s.jobs, r, v.call.id, kind);
      assert LiveRow(s.jobs, o.value.id, v.call.id, kind);
    }
  }

  lemma LoadedSlots(s: Store, v: State)
    requires v.jobs == LoadJobs(s.jobs, v.call.id)
    ensures forall kind :: SlotOf(v.jobs, kind) == ActiveJob(s.jobs, v.call.id, kind)
  {
  }

  /** Over a run: a job that was inserted at m is the one a later load finds exactly when it has not
      ended by then, and once it has ended no load finds it again. */
  lemma InsertedFoundIff(env: Env, trace: seq<Store>, ops: seq<Op>, m: nat, n: nat, ch: Id, v: State, r: Id, kind: Kind)
    requires Run(env, trace, ops) && m <= n <= |ops| && kind != Captioning
    requires Reload(trace[n], ch) == Some(v) && RowOf(trace[m], r, v.call.id, kind)
    ensures RowOf(trace[n], r, v.call.id, kind)
    ensures SlotOf(v.jobs, kind) == Some(trace[n].jobs[r]) <==> trace[n].jobs[r].endAt == 0
    ensures trace[m].jobs[r].endAt != 0 ==> SlotOf(v.jobs, kind) != Some(trace[n].jobs[r])
  {
    hide StoreOk, Legal, Step, Reload;
    RunAdvances(env, trace, ops, m, n);
    RunKeeps(env, trace, ops, n);
    FoundIffUnended(env, trace[n], ch, v, r, kind);
  }

  // ---- what becomes of the answer ----

  /** The job after the answer of the job service. */
  function Answered(j: Job, run: RunResult, at: int): Job {
    match run
    case RunFailed(e) => j.(endAt := at, err := e)
    case Ran(id) => if j.jobID == NONE then j.(jobID := id) else j
  }

  /** The answer goes to the call's one live recording, whichever job it was asked for: a failure ends
      it, whatever its job ID, and a job ID is noted when it has none. Without one it is dropped. */
  lemma AnswerGoesToTheLive(env: Env, s: Store, t: Store, ch: Id, v: State, run: RunResult, at: int)
    requires StoreOk(env, s) && Legal(env, s, JobOp(ch, FinishRec(run), at)) && Reload(s, ch) == Some(v)
    requires at != 0 && t == Step(env, s, JobOp(ch, FinishRec(run), at)).store
    ensures t.calls == s.calls && t.sessions == s.sessions
    ensures forall r | Unended(s, r, v.call.id, Recording) ::
              t.jobs == s.jobs[r := Answered(s.jobs[r], run, at)]
    ensures (forall r :: !Unended(s, r, v.call.id, Recording)) ==> t.jobs == s.jobs
  {
    hide CallOk, LoadJobs, Reload, Legal, CallRowsOk, OneActive, SessionsLive, JobsOwned;
    LoadTracks(env, s, ch);
    var d := Desk(s.jobs, v.jobs, []);
    forall r | Unended(s, r, v.call.id, Recording)
      ensures FinishRecording(d, run, Ctx(ch, env.botID, at)).0 == s.jobs[r := Answered(s.jobs[r], run, at)]
    {
      FoundIffUnended(env, s, ch, v, r, Recording);
      RowRewritten(s.jobs, s.jobs[r], Answered(s.jobs[r], run, at));
    }
    if forall r :: !Unended(s, r, v.call.id, Recording) {
      NoneFound(env, s, ch, v, Recording);
    }
  }

  lemma RowRewritten(rows: map<Id, Job>, j: Job, k: Job)
    requires j.id in rows && rows[j.id] == j && k.id == j.id && k.callID == j.callID && k.kind == j.kind
    requires k.creatorID == j.creatorID && k.initAt == j.initAt
    ensures UpdateJobRow(rows, k) == rows[j.id := k] && rows[j.id := j] == rows
  {
  }

  lemma NoneFound(env: Env, s: Store, ch: Id, v: State, kind: Kind)
    requires StoreOk(env, s) && Reload(s, ch) == Some(v) && kind != Captioning
    requires forall r :: !Unended(s, r, v.call.id, kind)
    ensures SlotOf(v.jobs, kind).None?
  {
    hide CallOk, LoadJobs;
    LoadTracks(env, s, ch);
    LoadedSlots(s, v);
    LoadedSlot(s.jobs, v.call.id, kind);
    var o := SlotOf(v.jobs, kind);
    assert o.Some? ==> Unended(s, o.value.id, v.call.id, kind);
  }

  /** So a failed start ends the recording it was asked for exactly when that one has not ended meanwhile. */
  lemma AnswerReachesIff(env: Env, s: Store, t: Store, ch: Id, v: State, a: Id, e: string, at: int)
    requires StoreOk(env, s) && Legal(env, s, JobOp(ch, FinishRec(RunFailed(e)), at)) && Reload(s, ch) == Some(v)
    requires at != 0 && t == Step(env, s, JobOp(ch, FinishRec(RunFailed(e)), at)).store
    requires RowOf(s, a, v.call.id, Recording)
    ensures a in t.jobs && (t.jobs[a] != s.jobs[a] <==> s.jobs[a].endAt == 0)
    ensures s.jobs[a].endAt == 0 ==> t.jobs[a] == s.jobs[a].(endAt := at, err := e)
  {
    hide StoreOk, Reload, Legal, Step;
    AnswerGoesToTheLive(env, s, t, ch, v, RunFailed(e), at);
    if r :| Unended(s, r, v.call.id, Recording) {
      if s.jobs[a].endAt == 0 {
        OneLiveOnly(env, s, v.call.id, a, r, Recording);
      }
    }
  }

  lemma OneLiveOnly(env: Env, s: Store, callID: Id, a: Id, b: Id, kind: Kind)
    requires StoreOk(env, s) && RowOf(s, a, callID, kind) && RowOf(s, b, callID, kind) && kind != Captioning
    requires s.jobs[a].endAt == 0 && s.jobs[b].endAt == 0
    ensures a == b
  {
    hide CallOk, CallRowsOk, OneActive, SessionsLive, JobsOwned;
  }

  /** The same for a transcription; its captions aside, no other row is written. */
  lemma TranscriptionAnswer(env: Env, s: Store, t: Store, ch: Id, v: State, captions: bool, run: RunResult, at: int)
    requires StoreOk(env, s) && Legal(env, s, JobOp(ch, FinishTr(captions, run), at)) && Reload(s, ch) == Some(v)
    requires at != 0 && t == Step(env, s, JobOp(ch, FinishTr(captions, run), at)).store
    ensures t.calls == s.calls && t.sessions == s.sessions && t.jobs.Keys == s.jobs.Keys
    ensures forall r | Unended(s, r, v.call.id, Transcribing) ::
              t.jobs[r] == Answered(s.jobs[r], run, at)
    ensures forall k | k in s.jobs && s.jobs[k].kind != Captioning && !Unended(s, k, v.call.id, Transcribing) ::
              t.jobs[k] == s.jobs[k]
  {
    hide CallOk, LoadJobs, Reload, Legal, CallRowsOk, OneActive, SessionsLive, JobsOwned, RowsOk;
    LoadTracks(env, s, ch);
    var d := Desk(s.jobs, v.jobs, []);
    SlotKinds(d, v.call.id);
    forall r | Unended(s, r, v.call.id, Transcribing)
      ensures FinishTranscribing(d, captions, run, Ctx(ch, env.botID, at)).0.Keys == s.jobs.Keys
      ensures FinishTranscribing(d, captions, run, Ctx(ch, env.botID, at)).0[r] == Answered(s.jobs[r], run, at)
    {
      FoundIffUnended(env, s, ch, v, r, Transcribing);
      RowId(env, s, r);
    }
    if v.jobs.transcription.Some? { FoundLive(env, s, ch, v, Transcribing); }
  }

  lemma RowId(env: Env, s: Store, r: Id)
    requires StoreOk(env, s) && r in s.jobs
    ensures s.jobs[r].id == r
  {
    hide CallOk;
  }

  lemma FoundLive(env: Env, s: Store, ch: Id, v: State, kind: Kind)
    requires StoreOk(env, s) && Reload(s, ch) == Some(v) && kind != Captioning && SlotOf(v.jobs, kind).Some?
    ensures var j := SlotOf(v.jobs, kind).value; RowOf(s, j.id, v.call.id, kind) && s.jobs[j.id] == j && j.endAt == 0
  {
    hide CallOk, LoadJobs;
    LoadTracks(env, s, ch);
    LoadedSlots(s, v);
    LoadedSlot(s.jobs, v.call.id, kind);
  }

  // ---- an answer that goes to another job ----

  lemma BeginInserts(env: Env, s: Store, t: Store, ch: Id, v: State, user: Id, id: Id, at: int)
    requires StoreOk(env, s) && Legal(env, s, JobOp(ch, BeginRec(user, id), at)) && Reload(s, ch) == Some(v)
    requires at != 0 && t == Step(env, s, JobOp(ch, BeginRec(user, id), at)).store
    requires user == v.call.Host() != NONE && id != NONE && id !in s.jobs && v.jobs.recording.None?
    ensures t == s.(jobs := s.jobs[id := NewJob(id, v.call.id, Recording, user, at)])
  {
    hide CallOk, LoadJobs, Reload;
    LoadTracks(env, s, ch);
    ReloadFinds(env, s, ch, Some(v));
    CallOkBasics(env, v.call, v.sessions);
  }

  lemma StopEnds(env: Env, s: Store, t: Store, ch: Id, v: State, r: Id, at: int)
    requires StoreOk(env, s) && Legal(env, s, JobOp(ch, StopRec(v.call.Host()), at)) && Reload(s, ch) == Some(v)
    requires at != 0 && t == Step(env, s, JobOp(ch, StopRec(v.call.Host()), at)).store
    requires Unended(s, r, v.call.id, Recording) && forall k :: !Unended(s, k, v.call.id, Transcribing)
    ensures t == s.(jobs := s.jobs[r := s.jobs[r].(endAt := at)])
  {
    hide CallOk, LoadJobs, Reload, CallRowsOk, OneActive, SessionsLive, JobsOwned;
    LoadTracks(env, s, ch);
    FoundIffUnended(env, s, ch, v, r, Recording);
    NoneFound(env, s, ch, v, Transcribing);
    RowRewritten(s.jobs, s.jobs[r], s.jobs[r].(endAt := at));
  }

  /** What a job section leaves of a loaded state: all but the jobs. */
  lemma ReloadedAfter(env: Env, s: Store, t: Store, op: Op, v: State)
    requires StoreOk(env, s) && Legal(env, s, op) && Runnable(op) && op.JobOp? && t == Step(env, s, op).store
    requires Reload(s, Channel(op)) == Some(v)
    ensures StoreOk(env, t) && Reload(t, Channel(op)).Some?
    ensures Reload(t, Channel(op)).value.call == v.call && Reload(t, Channel(op)).value.sessions == v.sessions
  {
    hide StoreOk, Reload, JobRows, JobStops, Legal;
    StepKeeps(env, s, op);
    SameCallReloaded(s, t, Channel(op));
  }

  function Begin(ch: Id, user: Id, id: Id, at: int): Op { JobOp(ch, BeginRec(user, id), at) }

  function Stop(ch: Id, user: Id, at: int): Op { JobOp(ch, StopRec(user), at) }

  function Finish(ch: Id, job: Id, at: int): Op { JobOp(ch, FinishRec(Ran(job)), at) }

  ghost predicate Leads(env: Env, s: Store, op: Op, t: Store) { Runnable(op) && t == Step(env, s, op).store }

  /** The host starts recording a, stops it while the job service is still being called, and starts
      recording b; then the answer of the first call arrives. In every call it is noted with b. */
  lemma ForeignAnswer(env: Env, s0: Store, s1: Store, s2: Store, s3: Store, s4: Store, ch: Id, v: State,
                      a: Id, b: Id, job: Id, t1: int, t2: int, t3: int, t4: int)
    requires StoreOk(env, s0) && Reload(s0, ch) == Some(v) && ch != NONE && env.botID != NONE
    requires t1 >= 1000 && t2 >= 1000 && t3 >= 1000 && t4 >= 1000
    requires a != b && a != NONE && b != NONE && a !in s0.jobs && b !in s0.jobs && v.call.Host() != NONE
    requires forall k :: !Unended(s0, k, v.call.id, Recording) && !Unended(s0, k, v.call.id, Transcribing)
    requires Leads(env, s0, Begin(ch, v.call.Host(), a, t1), s1) && Leads(env, s1, Stop(ch, v.call.Host(), t2), s2)
    requires Leads(env, s2, Begin(ch, v.call.Host(), b, t3), s3) && Leads(env, s3, Finish(ch, job, t4), s4)
    ensures a in s4.jobs && s4.jobs[a].endAt == t2 && s4.jobs[a].jobID == NONE
    ensures b in s4.jobs && s4.jobs[b].endAt == 0 && s4.jobs[b].jobID == job
  {
    hide StoreOk, Reload, Step;
    var (u, id) := (v.call.Host(), v.call.id);
    assert Legal(env, s0, Begin(ch, u, a, t1)) && Legal(env, s1, Stop(ch, u, t2));
    assert Legal(env, s2, Begin(ch, u, b, t3)) && Legal(env, s3, Finish(ch, job, t4));
    NoneFound(env, s0, ch, v, Recording);
    BeginInserts(env, s0, s1, ch, v, u, a, t1);
    ReloadedAfter(env, s0, s1, Begin(ch, u, a, t1), v);
    var v1 := Reload(s1, ch).value;
    assert Unended(s1, a, id, Recording);
    OthersUnended(s0, s1, a, id);
    StopEnds(env, s1, s2, ch, v1, a, t2);
    ReloadedAfter(env, s1, s2, Stop(ch, u, t2), v1);
    var v2 := Reload(s2, ch).value;
    NoneLeft(env, s1, s2, a, id);
    NoneFound(env, s2, ch, v2, Recording);
    BeginInserts(env, s2, s3, ch, v2, u, b, t3);
    ReloadedAfter(env, s2, s3, Begin(ch, u, b, t3), v2);
    assert Unended(s3, b, id, Recording);
    AnswerGoesToTheLive(env, s3, s4, ch, Reload(s3, ch).value, Ran(job), t4);
  }

  lemma OthersUnended(s: Store, t: Store, a: Id, id: Id)
    requires a !in s.jobs && a in t.jobs && t.jobs[a].kind == Recording && t.jobs == s.jobs[a := t.jobs[a]]
    ensures forall k :: Unended(t, k, id, Transcribing) ==> Unended(s, k, id, Transcribing)
  {
  }

  lemma NoneLeft(env: Env, s: Store, t: Store, a: Id, id: Id)
    requires StoreOk(env, s) && Unended(s, a, id, Recording) && a in t.jobs && t.jobs[a].endAt != 0
    requires t.jobs == s.jobs[a := t.jobs[a]]
    ensures forall k :: !Unended(t, k, id, Recording)
  {
    hide CallOk, CallRowsOk, OneActive, SessionsLive, JobsOwned;
    forall k ensures !Unended(t, k, id, Recording) {
      if k != a && Unended(s, k, id, Recording) { OneLiveOnly(env, s, id, a, k, Recording); }
    }
  }
}
