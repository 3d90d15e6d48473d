/** What each section of the job handlers does to the rows of the call's jobs and which stop messages it
    sends, in terms of the jobs a load finds (server/recording_api.go, server/transcription_api.go,
    server/bot_api.go:436-531, server/websocket.go:1444-1485). */
module JobEffects {
  import opened Basics
  import opened Rows
  import opened Load
  import opened JobDesk
  import opened JobFacts
  import opened JobRuns
  import opened Membership
  import opened Machine
  import opened Invariant
  import opened JobStarts

  /** The section writes these rows and sends these stop messages, and nothing else. */
  predicate Does(s: Store, o: Out, rows: map<Id, Job>, stops: seq<Id>) {
    o.err.None? && o.store == s.(jobs := rows) && o.posts == [] && o.stops == stops
  }

  /** A job section of a channel's call. */
  ghost predicate Acts(env: Env, s: Store, ch: Id, act: JobAct, at: int, v: State, o: Out) {
    && StoreOk(env, s) && Reload(s, ch) == Some(v) && ch != NONE && env.botID != NONE && at != 0
    && o == Step(env, s, JobOp(ch, act, at))
  }

  /** Without a call nothing is done. */
  lemma NoCallNoJob(env: Env, s: Store, ch: Id, act: JobAct, at: int, o: Out)
    requires at != 0 && o == Step(env, s, JobOp(ch, act, at)) && Reload(s, ch).None?
    ensures o.err == Some(NoCall) && o.store == s && o.posts == [] && o.stops == []
  {
    hide Reload;
  }

  lemma ActsOn(env: Env, s: Store, ch: Id, act: JobAct, at: int, v: State, o: Out)
    requires Acts(env, s, ch, act, at, v, o)
    ensures var (d, x) := (Desk(s.jobs, v.jobs, []), Ctx(ch, env.botID, at));
      && DeskOk(d, v.call.id) && Ready(x)
      && Does(s, o, JobRows(d, v.call, act, x), JobStops(d, v.call, act, x))
    ensures AllSlotsLoaded(s, v)
  {
    hide StoreOk, Reload, JobRows, JobStops, LoadJobs;
    LoadTracks(env, s, ch);
    LoadedJobs(s, ch);
    AllLoaded(env, s, v);
  }

  /** The slots are the rows a load finds: un-ended, and of different jobs. */
  ghost predicate AllSlotsLoaded(s: Store, v: State) {
    && OneLoaded(s, v.jobs.recording, Recording, v.call.id)
    && OneLoaded(s, v.jobs.transcription, Transcribing, v.call.id)
    && OneLoaded(s, v.jobs.captions, Captioning, v.call.id)
  }

  predicate OneLoaded(s: Store, o: Option<Job>, kind: Kind, callID: Id) {
    o.Some? ==> Unended(s, o.value.id, callID, kind) && s.jobs[o.value.id] == o.value && o.value.startAt >= 0
  }

  lemma LoadedJobs(s: Store, ch: Id)
    ensures Reload(s, ch).Some? ==> Reload(s, ch).value.jobs == LoadJobs(s.jobs, Reload(s, ch).value.call.id)
  {
    hide LoadJobs;
  }

  lemma AllLoaded(env: Env, s: Store, v: State)
    requires StoreOk(env, s) && v.jobs == LoadJobs(s.jobs, v.call.id)
    ensures AllSlotsLoaded(s, v)
  {
    hide CallOk, OneLive;
    LoadedSlot(s.jobs, v.call.id, Recording);
    LoadedSlot(s.jobs, v.call.id, Transcribing);
    LoadedSlot(s.jobs, v.call.id, Captioning);
  }

  // ---- rows ----

  function Ended(rows: map<Id, Job>, o: Option<Job>, at: int): map<Id, Job> {
    if o.None? then rows else rows[o.value.id := o.value.(endAt := at)]
  }

  /** The transcription ended, and its captions with it. */
  function TranscriptionEnded(rows: map<Id, Job>, j: Jobs, at: int): map<Id, Job> {
    if j.transcription.None? then rows else Ended(Ended(rows, j.captions, at), j.transcription, at)
  }

  function StopOf(o: Option<Job>): seq<Id> { if o.None? then [] else [o.value.id] }

  // ---- starting and stopping ----

  /** A recording is begun exactly by the host, when none goes on, under a new ID. */
  lemma BeginRecEffect(env: Env, s: Store, ch: Id, user: Id, id: Id, at: int, v: State, o: Out)
    requires Acts(env, s, ch, BeginRec(user, id), at, v, o)
    ensures Does(s, o,
      if user == v.call.Host() != NONE && v.jobs.recording.None? && id != NONE && id !in s.jobs
      then s.jobs[id := Job(id, v.call.id, Recording, user, at, 0, 0, NONE, NONE, "")] else s.jobs, [])
  {
    hide StoreOk, Reload, Step, DeskOk, CallOk;
    ActsOn(env, s, ch, BeginRec(user, id), at, v, o);
    CallNamed(env, s, ch, v);
  }

  lemma CallNamed(env: Env, s: Store, ch: Id, v: State)
    requires StoreOk(env, s) && Reload(s, ch) == Some(v)
    ensures v.call.id != NONE
  {
    hide StoreOk, Reload;
    LoadTracks(env, s, ch);
    ReloadFinds(env, s, ch, Some(v));
  }

  /** A transcription is begun exactly when none goes on, under a new ID; captions, if on, under another. */
  lemma BeginTrEffect(env: Env, s: Store, ch: Id, user: Id, tr: Id, lc: Option<Id>, at: int, v: State, o: Out)
    requires Acts(env, s, ch, BeginTr(user, tr, lc), at, v, o)
    ensures Does(s, o,
      if v.jobs.transcription.Some? || user == NONE || tr == NONE || tr in s.jobs then s.jobs else
        var rows := s.jobs[tr := Job(tr, v.call.id, Transcribing, user, at, 0, 0, NONE, NONE, "")];
        if lc.None? || lc.value == NONE || lc.value in rows then rows
        else rows[lc.value := Job(lc.value, v.call.id, Captioning, user, at, 0, 0, NONE, NONE, "")], [])
  {
    hide StoreOk, Reload, Step, DeskOk, CallOk;
    ActsOn(env, s, ch, BeginTr(user, tr, lc), at, v, o);
    CallNamed(env, s, ch, v);
  }

  /** The answer of the job service is noted with the transcription that goes on, unless it has one, and
      with its captions; a failure ends both. */
  lemma FinishTrEffect(env: Env, s: Store, ch: Id, captionsOn: bool, run: RunResult, at: int, v: State, o: Out)
    requires Acts(env, s, ch, FinishTr(captionsOn, run), at, v, o)
    ensures Does(s, o,
      if v.jobs.transcription.None? || (run.Ran? && v.jobs.transcription.value.jobID != NONE) then s.jobs else
        var t := v.jobs.transcription.value;
        var rows := s.jobs[t.id := Answered(t, run, at)];
        if !captionsOn || v.jobs.captions.None? then rows
        else if run.RunFailed? then Ended(rows, v.jobs.captions, at)
        else rows[v.jobs.captions.value.id := v.jobs.captions.value.(jobID := run.jobID)], [])
  {
    hide StoreOk, Reload, Step, OneLive;
    ActsOn(env, s, ch, FinishTr(captionsOn, run), at, v, o);
  }

  /** The host, and nobody else, stops the recording that goes on; the transcription and its captions end
      with it, and each of the two gets one stop message. */
  lemma StopRecEffect(env: Env, s: Store, ch: Id, user: Id, at: int, v: State, o: Out)
    requires Acts(env, s, ch, StopRec(user), at, v, o)
    ensures if user != v.call.Host() || v.jobs.recording.None? then Does(s, o, s.jobs, []) else
      Does(s, o, Ended(TranscriptionEnded(s.jobs, v.jobs, at), v.jobs.recording, at),
           StopOf(v.jobs.transcription) + StopOf(v.jobs.recording))
  {
    hide StoreOk, Reload, Step, OneLive;
    ActsOn(env, s, ch, StopRec(user), at, v, o);
    if v.jobs.recording.Some? {
      var (d, x) := (Desk(s.jobs, v.jobs, []), Ctx(ch, env.botID, at));
      var d1 := PutRecording(d, v.jobs.recording.value.(endAt := at));
      if v.jobs.transcription.Some? {
        assert StopTranscribing(d1, x).0.stops == StopOf(v.jobs.transcription);
        assert StopTranscribing(d1, x).0.rows == TranscriptionEnded(Ended(s.jobs, v.jobs.recording, at), v.jobs, at);
      }
    }
  }

  // ---- what the bot reports ----

  /** Whether the report is about the job that goes on. */
  predicate Concerns(j: Jobs, forRecording: bool, jobID: Id) {
    var o := if forRecording then j.recording else j.transcription;
    o.Some? && o.value.id == jobID
  }

  /** A report of any other job changes nothing. */
  lemma OtherReport(env: Env, s: Store, ch: Id, forRecording: bool, jobID: Id, status: Status, captionsOn: bool,
                    at: int, v: State, o: Out)
    requires Acts(env, s, ch, Report(forRecording, jobID, status, captionsOn), at, v, o)
    requires !Concerns(v.jobs, forRecording, jobID)
    ensures Does(s, o, s.jobs, [])
  {
    hide StoreOk, Reload, Step, OneLive;
    ActsOn(env, s, ch, Report(forRecording, jobID, status, captionsOn), at, v, o);
  }

  /** A job starts once; with a transcription its captions start, if they are on. */
  lemma StartedReport(env: Env, s: Store, ch: Id, forRecording: bool, jobID: Id, captionsOn: bool, at: int, v: State,
                      o: Out)
    requires Acts(env, s, ch, Report(forRecording, jobID, Started, captionsOn), at, v, o)
    requires Concerns(v.jobs, forRecording, jobID)
    ensures var j := (if forRecording then v.jobs.recording else v.jobs.transcription).value;
      Does(s, o,
        if j.startAt != 0 then s.jobs else
          var rows := s.jobs[j.id := j.(startAt := at)];
          if forRecording || !captionsOn || v.jobs.captions.None? then rows
          else rows[v.jobs.captions.value.id := v.jobs.captions.value.(startAt := at)], [])
  {
    hide StoreOk, Reload, Step, OneLive;
    ActsOn(env, s, ch, Report(forRecording, jobID, Started, captionsOn), at, v, o);
  }

  /** A failed recording ends with the error; the transcription and its captions end with it, and the
      transcription is told to stop. */
  lemma RecordingFailed(env: Env, s: Store, ch: Id, jobID: Id, e: string, captionsOn: bool, at: int, v: State, o: Out)
    requires Acts(env, s, ch, Report(true, jobID, Failed(e), captionsOn), at, v, o) && Concerns(v.jobs, true, jobID)
    ensures Does(s, o, TranscriptionEnded(s.jobs, v.jobs, at)[jobID := v.jobs.recording.value.(endAt := at, err := e)],
                 StopOf(v.jobs.transcription))
  {
    hide StoreOk, Reload, Step, OneLive;
    ActsOn(env, s, ch, Report(true, jobID, Failed(e), captionsOn), at, v, o);
  }

  /** A failed transcription ends with the error; the recording ends with it and is told to stop. */
  lemma TranscriptionFailed(env: Env, s: Store, ch: Id, jobID: Id, e: string, captionsOn: bool, at: int, v: State,
                            o: Out)
    requires Acts(env, s, ch, Report(false, jobID, Failed(e), captionsOn), at, v, o) && Concerns(v.jobs, false, jobID)
    ensures Does(s, o, Ended(s.jobs, v.jobs.recording, at)[jobID := v.jobs.transcription.value.(endAt := at, err := e)],
                 StopOf(v.jobs.recording))
  {
    hide StoreOk, Reload, Step, OneLive;
    ActsOn(env, s, ch, Report(false, jobID, Failed(e), captionsOn), at, v, o);
  }

  // ---- the timeouts ----

  /** The job has not started and is the one the timer was set for. */
  predicate TimerOf(o: Option<Job>, jobID: Id) { o.Some? && o.value.startAt == 0 && o.value.jobID == jobID }

  /** A recording times out exactly when it has not started and is the timer's; then it ends with the
      error, and the transcription and its captions with it. */
  lemma RecTimeoutEffect(env: Env, s: Store, ch: Id, jobID: Id, at: int, v: State, o: Out)
    requires Acts(env, s, ch, RecTimeout(jobID), at, v, o)
    ensures if !TimerOf(v.jobs.recording, jobID) then Does(s, o, s.jobs, []) else
      var r := v.jobs.recording.value;
      Does(s, o, TranscriptionEnded(s.jobs, v.jobs, at)[r.id := r.(endAt := at, err := TIMED_OUT)],
           StopOf(v.jobs.transcription))
  {
    hide StoreOk, Reload, Step, OneLive;
    ActsOn(env, s, ch, RecTimeout(jobID), at, v, o);
  }

  /** A transcription likewise; the recording ends with it, its captions do not. */
  lemma TrTimeoutEffect(env: Env, s: Store, ch: Id, jobID: Id, captionsOn: bool, at: int, v: State, o: Out)
    requires Acts(env, s, ch, TrTimeout(jobID, captionsOn), at, v, o)
    ensures if !TimerOf(v.jobs.transcription, jobID) then Does(s, o, s.jobs, []) else
      var t := v.jobs.transcription.value;
      Does(s, o, Ended(s.jobs, v.jobs.recording, at)[t.id := t.(endAt := at, err := TIMED_OUT)],
           StopOf(v.jobs.recording))
  {
    hide StoreOk, Reload, Step, OneLive;
    ActsOn(env, s, ch, TrTimeout(jobID, captionsOn), at, v, o);
  }

  // ---- the bot reconnects ----

  predicate ConnectedBy(o: Option<Job>, conn: Id) { o.Some? && o.value.botConnID == conn }

  /** The connection noted with the job. */
  function Noted(rows: map<Id, Job>, o: Option<Job>, conn: Id): map<Id, Job> {
    if o.None? then rows else rows[o.value.id := o.value.(botConnID := conn)]
  }

  /** The new connection replaces the previous one with the recording that has it, else with the
      transcription that has it and with captions that do; elsewhere nothing changes. */
  lemma ReconnectEffect(env: Env, s: Store, ch: Id, prev: Id, conn: Id, at: int, v: State, o: Out)
    requires Acts(env, s, ch, BotReconnect(prev, conn), at, v, o)
    ensures Does(s, o,
      if ConnectedBy(v.jobs.recording, prev) then Noted(s.jobs, v.jobs.recording, conn)
      else if !ConnectedBy(v.jobs.transcription, prev) then s.jobs
      else if !ConnectedBy(v.jobs.captions, prev) then Noted(s.jobs, v.jobs.transcription, conn)
      else Noted(Noted(s.jobs, v.jobs.transcription, conn), v.jobs.captions, conn), [])
  {
    hide StoreOk, Reload, Step, OneLive;
    ActsOn(env, s, ch, BotReconnect(prev, conn), at, v, o);
  }
}
