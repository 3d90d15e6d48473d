/** After every successful locked section a reload gives the in-memory state back. */
module WriteThrough {
  import opened Basics
  import opened Rows
  import opened Load
  import opened JobDesk
  import opened JobFacts
  import opened JobRuns
  import opened Posts
  import opened Membership
  import opened Machine
  import opened Invariant
  import opened Steps

  /** What a reload makes of an in-memory state: an ended call or job reads back as absent. */
  function Persisted(v: State): Option<State> {
    if v.call.endAt != 0 then None else Some(v.(jobs := VisibleJobs(v.jobs)))
  }

  /** Equal but for the live captions, of which a call may have several. */
  predicate EqualButCaptions(a: Option<State>, b: Option<State>) {
    && (a.None? <==> b.None?)
    && (a.Some? ==> a.value == b.value.(jobs := b.value.jobs.(captions := a.value.jobs.captions)))
  }

  // ---- job selection is not disturbed by a change of connection ----

  lemma FirstUnique(keys: set<Id>, rank: map<Id, int>, j: Id, k: Id)
    requires IsFirst(j, keys, rank) && IsFirst(k, keys, rank)
    ensures j == k
  {
    IdLessTotal(j, k);
  }

  lemma ActiveJobIs(jobs: map<Id, Job>, callID: Id, kind: Kind, k: Id)
    requires IsFirst(k, JobKeys(jobs, callID, kind), JobRank(jobs))
    ensures ActiveJob(jobs, callID, kind) == Some(jobs[k])
  {
    var keys, rank := JobKeys(jobs, callID, kind), JobRank(jobs);
    var j :| IsFirst(j, keys, rank) && ActiveJob(jobs, callID, kind) == Some(jobs[j]);
    FirstUnique(keys, rank, j, k);
  }

  /** The selection looks at the un-ended rows of the call and the type alone. */
  lemma SameActive(a: map<Id, Job>, b: map<Id, Job>, callID: Id, kind: Kind)
    requires JobKeys(a, callID, kind) == JobKeys(b, callID, kind)
    requires forall k | k in JobKeys(a, callID, kind) :: a[k] == b[k]
    ensures ActiveJob(a, callID, kind) == ActiveJob(b, callID, kind)
  {
    if ActiveJob(a, callID, kind).Some? {
      var k :| IsFirst(k, JobKeys(a, callID, kind), JobRank(a)) && ActiveJob(a, callID, kind) == Some(a[k]);
      forall x | x in JobKeys(b, callID, kind) && x != k ensures Before(JobRank(b)[k], k, JobRank(b)[x], x) {
        assert x in JobKeys(a, callID, kind) && a[x] == b[x];
      }
      assert IsFirst(k, JobKeys(b, callID, kind), JobRank(b));
      ActiveJobIs(b, callID, kind, k);
    }
  }

  lemma RewriteSelected(rows: map<Id, Job>, callID: Id, kind: Kind, j: Job, conn: Id)
    requires RowsOk(rows) && ActiveJob(rows, callID, kind) == Some(j)
    ensures var after := rows[j.id := j.(botConnID := conn)];
      forall other :: ActiveJob(after, callID, other)
                      == if other == kind then Some(j.(botConnID := conn)) else ActiveJob(rows, callID, other)
  {
    var after := rows[j.id := j.(botConnID := conn)];
    var k :| IsFirst(k, JobKeys(rows, callID, kind), JobRank(rows)) && ActiveJob(rows, callID, kind) == Some(rows[k]);
    assert IsFirst(k, JobKeys(rows, callID, kind), JobRank(rows));
    assert k in JobKeys(rows, callID, kind) && k == j.id;
    assert JobRank(after) == JobRank(rows);
    forall other
      ensures ActiveJob(after, callID, other)
           == if other == kind then Some(j.(botConnID := conn)) else ActiveJob(rows, callID, other)
    {
      assert JobKeys(after, callID, other) == JobKeys(rows, callID, other);
      if other == kind {
        ActiveJobIs(after, callID, kind, k);
      } else if ActiveJob(rows, callID, other).Some? {
        var o :| IsFirst(o, JobKeys(rows, callID, other), JobRank(rows))
          && ActiveJob(rows, callID, other) == Some(rows[o]);
        assert IsFirst(o, JobKeys(rows, callID, other), JobRank(rows));
        assert o in JobKeys(rows, callID, other) && o != k;
        ActiveJobIs(after, callID, other, o);
      }
    }
  }

  lemma JoinBotReloads(d: Desk, callID: Id, jobID: Id, conn: Id)
    requires DeskOk(d, callID) && d.jobs == LoadJobs(d.rows, callID) && JoinBot(d, jobID, conn).Joined?
    ensures var e := JoinBot(d, jobID, conn).desk; e.jobs == LoadJobs(e.rows, callID)
  {
    hide ActiveJob, SlotOk, RowsOk;
    SlotKinds(d, callID);
    if d.jobs.recording.Some? && d.jobs.recording.value.id == jobID && d.jobs.recording.value.startAt == 0 {
      var r := d.jobs.recording.value;
      PutRecordingOk(d, callID, r.(botConnID := conn));
      RewriteSelected(d.rows, callID, Recording, r, conn);
    } else {
      var t := d.jobs.transcription.value;
      var d1 := if d.jobs.captions.Some? && d.jobs.captions.value.startAt == 0
                then PutCaptions(d, d.jobs.captions.value.(botConnID := conn)) else d;
      if d.jobs.captions.Some? && d.jobs.captions.value.startAt == 0 {
        PutCaptionsOk(d, callID, d.jobs.captions.value.(botConnID := conn));
        RewriteSelected(d.rows, callID, Captioning, d.jobs.captions.value, conn);
      }
      PutTranscriptionOk(d1, callID, t.(botConnID := conn));
      RewriteSelected(d1.rows, callID, Transcribing, t, conn);
    }
  }

  // ---- joins ----

  /** The in-memory state is exactly what a reload would give. */
  ghost predicate Fresh(s: Store, ch: Id, st: Option<State>) {
    st == Reload(s, ch)
  }

  /** A join, accepted or refused, leaves an exact copy of the stored call in memory. */
  lemma JoinWrittenThrough(env: Env, s: Store, i: JoinIn)
    requires StoreOk(env, s) && Legal(env, s, JoinOp(i))
    ensures var o := Join(env, s, Reload(s, i.channelID), i); Fresh(o.store, i.channelID, o.st)
    ensures var o := Join(env, s, Reload(s, i.channelID), i); o.err.Some? ==> o.store == s
  {
    hide CallOk, RowsOk, DeskOk, NextHost, CallRowsOk, OneActive, SessionsLive, JobsOwned, JoinBot, LoadJobs;
    hide WriteJoin, StartPost, JoinAllowed;
    var st := Reload(s, i.channelID);
    LoadTracks(env, s, i.channelID);
    var v := if st.Some? then st.value else NewState(env, i);
    JoinKeeps(env, s, st, i);
    if CanAdmit(env, s, st, v, i) {
      Accepted(env, s, st, v, i);
      BotDeskReloads(env, s, st, v, i);
      JoinStored(env, s, st, v, i);
      CallOkBasics(env, JoinedState(env, s, v, i).call, JoinedState(env, s, v, i).sessions);
      ReloadFinds(env, JoinedStore(env, s, v, i), i.channelID, Some(JoinedState(env, s, v, i)));
    } else {
      JoinRefused(env, s, st, v, i);
    }
  }

  lemma JoinRefused(env: Env, s: Store, st: Option<State>, v: State, i: JoinIn)
    requires Tracks(s, i.channelID, st) && v == (if st.Some? then st.value else NewState(env, i))
    requires CallRowsOk(s.calls) && !CanAdmit(env, s, st, v, i)
    ensures var o := Join(env, s, st, i); o.err.Some? && o.store == s && o.st == st
  {
    hide DeskOk, JoinBot;
  }

  lemma BotDeskReloads(env: Env, s: Store, st: Option<State>, v: State, i: JoinIn)
    requires StoreOk(env, s) && Legal(env, s, JoinOp(i)) && CanAdmit(env, s, st, v, i) && st == Reload(s, i.channelID)
    ensures var d := BotDesk(env, s, v, i).desk; d.jobs == LoadJobs(d.rows, v.call.id)
  {
    hide CallOk, CallRowsOk, OneActive, SessionsLive;
    LoadTracks(env, s, i.channelID);
    if st.None? {
      assert forall kind :: JobKeys(s.jobs, i.newCallID, kind) == {};
    } else if i.userID == env.botID {
      JoinBotReloads(Desk(s.jobs, v.jobs, []), v.call.id, i.jobID, i.connID);
    }
  }

  // ---- handlers that leave the jobs alone ----

  lemma UntouchedJobs(env: Env, s: Store, t: Store, ch: Id, v: State)
    requires StoreOk(env, s) && StoreOk(env, t) && Tracks(t, ch, Some(v)) && v.call.endAt == 0
    requires t.jobs == s.jobs && v.jobs == LoadJobs(s.jobs, v.call.id)
    ensures Reload(t, ch) == Some(v)
  {
    hide StoreOk, LoadJobs;
    ReloadFinds(env, t, ch, Some(v));
  }

  /** Screen, video, mute, hand and change of host: a reload gives exactly the final state. */
  lemma HandlersWrittenThrough(env: Env, s: Store, op: Op)
    requires StoreOk(env, s) && Legal(env, s, op) && !op.JoinOp? && !op.LeaveOp? && !op.JobOp?
    ensures Reload(Step(env, s, op).store, Channel(op)) == Step(env, s, op).st
  {
    hide StoreOk, Tracks, Reload, LoadJobs, CallOk;
    LoadTracks(env, s, Channel(op));
    StepKeeps(env, s, op);
    var o := Step(env, s, op);
    SameJobs(env, s, op);
    if o.st.Some? {
      UntouchedJobs(env, s, o.store, Channel(op), o.st.value);
    } else {
      ReloadFinds(env, o.store, Channel(op), o.st);
    }
  }

  lemma SameJobs(env: Env, s: Store, op: Op)
    requires StoreOk(env, s) && !op.JoinOp? && !op.LeaveOp? && !op.JobOp?
    ensures var o := Step(env, s, op);
      && o.store.jobs == s.jobs
      && (o.st.Some? ==> o.st.value.call.endAt == 0 && o.st.value.jobs == LoadJobs(s.jobs, o.st.value.call.id))
  {
    hide StoreOk, LoadJobs, DeskOk, SessionsOf, UsersOf, Reload;
    LoadTracks(env, s, Channel(op));
  }

  // ---- leaves ----

  /** A leave: an ended call and ended jobs read back as absent, the rest exactly as in memory, the
      captions aside. */
  lemma LeaveWrittenButCaptions(env: Env, s: Store, st: Option<State>, i: LeaveIn)
    requires StoreOk(env, s) && Tracks(s, i.channelID, st) && Legal(env, s, LeaveOp(i))
    requires st.Some? && i.origConn in st.value.sessions
    ensures var o := Leave(env, s, st, i);
      o.err.None? && o.st.Some? && EqualButCaptions(Reload(o.store, i.channelID), Persisted(o.st.value))
  {
    hide StoreOk, CallOk, LeaveCall, RowsOk, SlotOk, LoadJobs, LeaveJobs, LeavePosts, UpdateCall;
    LeaveStored(env, s, st, i);
    var o := Leave(env, s, st, i);
    ReloadFinds(env, o.store, i.channelID, o.st);
    TrackedJobsReload(env, o.store, i.channelID, o.st.value);
  }

  lemma TrackedJobsReload(env: Env, s: Store, ch: Id, v: State)
    requires Tracks(s, ch, Some(v))
    ensures LoadJobs(s.jobs, v.call.id).recording == Visible(v.jobs.recording)
    ensures LoadJobs(s.jobs, v.call.id).transcription == Visible(v.jobs.transcription)
  {
    hide RowsOk, SlotOk;
    ReloadJobs(Desk(s.jobs, v.jobs, []), v.call.id);
  }
}
