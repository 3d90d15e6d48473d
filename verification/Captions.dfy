/** Several live captions jobs of one call: the timeout of a transcription leaves its captions job
    un-ended (server/transcription_api.go:60-65). What a leave then leaves in memory and in the store. */
module Captions {
  import opened Basics
  import opened Rows
  import opened Load
  import opened JobDesk
  import opened JobFacts
  import opened JobRuns
  import opened Membership
  import opened Machine
  import opened Invariant
  import opened Steps
  import opened WriteThrough

  predicate Is(o: Option<Job>, k: Id) { o.Some? && o.value.id == k }

  /** A row after a leave is what the slot of its kind holds, or untouched. */
  lemma RowAfter(d: Desk, d': Desk, id: Id, k: Id)
    requires DeskOk(d, id) && DeskOk(d', id) && Local(d, d') && k in d.rows
    ensures d'.rows[k] ==
      match d.rows[k].kind
      case Recording => if Is(d.jobs.recording, k) then d'.jobs.recording.value else d.rows[k]
      case Transcribing => if Is(d.jobs.transcription, k) then d'.jobs.transcription.value else d.rows[k]
      case Captioning => if Is(d.jobs.captions, k) then d'.jobs.captions.value else d.rows[k]
  {
  }

  function Without(rows: map<Id, Job>, o: Option<Job>): map<Id, Job> {
    map k | k in rows && !Is(o, k) :: rows[k]
  }

  /** The captions job that a load selects once the given one has ended. */
  ghost function NextCaptions(rows: map<Id, Job>, callID: Id, o: Option<Job>): Option<Job> {
    ActiveJob(Without(rows, o), callID, Captioning)
  }

  /** A live captions job in memory is the one a load selects. */
  ghost predicate CaptionsFirst(rows: map<Id, Job>, callID: Id, o: Option<Job>) {
    Live(o) ==> ActiveJob(rows, callID, Captioning) == o
  }

  lemma SlotEnded(rows: map<Id, Job>, callID: Id, o: Option<Job>)
    requires SlotOk(rows, callID, Captioning, o) && !Live(o)
    ensures ActiveJob(rows, callID, Captioning) == NextCaptions(rows, callID, o)
  {
    SameActive(rows, Without(rows, o), callID, Captioning);
  }

  /** A leave over this connection ends the captions job: the recording bot leaves while the
      transcription runs, or the job's own bot does. */
  predicate EndsIt(j: Jobs, orig: Id, conn: Id, o: Option<Job>) {
    Live(o) && ((ViaRecording(j, orig) && Live(j.transcription)) || conn == o.value.botConnID)
  }

  lemma LeftCaptionsLive(j: Jobs, orig: Id, conn: Id, now: int)
    requires now != 0
    ensures Live(LeftCaptions(j, orig, conn, now)) <==> Live(j.captions) && !EndsIt(j, orig, conn, j.captions)
    ensures Live(LeftCaptions(j, orig, conn, now)) ==> LeftCaptions(j, orig, conn, now) == j.captions
  {
  }

  /** The captions of a call after a leave: the slot as it was, or ended and the next one selected. */
  lemma CaptionsAfter(d: Desk, e: Desk, callID: Id, orig: Id, conn: Id, now: int)
    requires DeskOk(d, callID) && Keeps(d, e, callID) && now != 0
    requires e.jobs.captions == LeftCaptions(d.jobs, orig, conn, now)
    requires CaptionsFirst(d.rows, callID, d.jobs.captions)
    ensures CaptionsFirst(e.rows, callID, e.jobs.captions)
    ensures NextCaptions(e.rows, callID, e.jobs.captions) == NextCaptions(d.rows, callID, d.jobs.captions)
    ensures Live(e.jobs.captions) ==> Live(d.jobs.captions) && e.jobs.captions == d.jobs.captions
    ensures ActiveJob(e.rows, callID, Captioning)
      == if Live(e.jobs.captions) then e.jobs.captions else NextCaptions(d.rows, callID, d.jobs.captions)
  {
    hide RowsOk;
    var (o, p) := (d.jobs.captions, e.jobs.captions);
    forall k | k in d.rows && d.rows[k].kind == Captioning && !Is(o, k) ensures e.rows[k] == d.rows[k] {
      RowAfter(d, e, callID, k);
    }
    SameActive(Without(d.rows, o), Without(e.rows, p), callID, Captioning);
    if Live(p) {
      SameActive(d.rows, e.rows, callID, Captioning);
    } else {
      SlotEnded(e.rows, callID, p);
    }
  }

  // ---- what a reload shows after a leave ----

  /** The captions job in memory, if live, is the one a load would select. It is so after a load, and
      stays so from item to item of a batch. */
  ghost predicate HoldsFirst(s: Store, v: State) { CaptionsFirst(s.jobs, v.call.id, v.jobs.captions) }

  lemma LoadedFirst(env: Env, s: Store, ch: Id, v: State)
    requires StoreOk(env, s) && Reload(s, ch) == Some(v)
    ensures HoldsFirst(s, v) && (v.jobs.captions.Some? ==> Live(v.jobs.captions))
    ensures v.jobs.captions.None? ==> NextCaptions(s.jobs, v.call.id, None).None?
  {
    hide CallOk;
    LoadedSlot(s.jobs, v.call.id, Captioning);
    if v.jobs.captions.None? { SlotEnded(s.jobs, v.call.id, None); }
  }

  /** When a single captions job is live, the one in memory is it. */
  lemma OneIsFirst(rows: map<Id, Job>, callID: Id, o: Option<Job>)
    requires RowsOk(rows) && SlotOk(rows, callID, Captioning, o) && OneLiveCaptions(rows, callID)
    ensures CaptionsFirst(rows, callID, o)
  {
    LoadedSlot(rows, callID, Captioning);
    if Live(o) {
      var a := ActiveJob(rows, callID, Captioning);
      assert LiveRow(rows, o.value.id, callID, Captioning);
      assert LiveRow(rows, a.value.id, callID, Captioning);
    }
  }

  lemma CaptionsLeft(env: Env, s: Store, v: State, i: LeaveIn)
    requires StoreOk(env, s) && Tracks(s, i.channelID, Some(v)) && Legal(env, s, LeaveOp(i))
    requires i.origConn in v.sessions && HoldsFirst(s, v)
    ensures var o := Leave(env, s, Some(v), i);
      && o.st.Some? && HoldsFirst(o.store, o.st.value) && o.st.value.call.id == v.call.id
      && o.st.value.jobs == LeftJobs(v.jobs, i.origConn, i.connID, i.now)
      && NextCaptions(o.store.jobs, v.call.id, o.st.value.jobs.captions)
         == NextCaptions(s.jobs, v.call.id, v.jobs.captions)
      && ActiveJob(o.store.jobs, v.call.id, Captioning)
         == if Live(o.st.value.jobs.captions) then o.st.value.jobs.captions
            else NextCaptions(s.jobs, v.call.id, v.jobs.captions)
  {
    hide StoreOk, CallOk, LeaveCall, RowsOk, SlotOk, LoadJobs, LeaveJobs, LeavePosts, UpdateCall, Leave, NextCaptions;
    hide CaptionsFirst, Advances, OnlyCall, Local;
    LeaveStored(env, s, Some(v), i);
    var d := Desk(s.jobs, v.jobs, []);
    var only := OnlyUserLeft(v.sessions - {i.origConn}, env.botID);
    var x := Ctx(i.channelID, env.botID, i.now);
    LeaveJobsKeeps(d, v.call.id, i.origConn, i.connID, only, x);
    LeaveJobsEffect(d, v.call.id, i.origConn, i.connID, only, x);
    CaptionsAfter(d, LeftDesk(env, s, v, i), v.call.id, i.origConn, i.connID, i.now);
  }

  /** A leave, from any state a batch may hold: an ended call and ended jobs read back as absent, the
      rest as in memory; all of it, captions included, exactly when the call has ended, or its captions
      job is still live, or there is no other live one. */
  lemma LeaveWrittenThrough(env: Env, s: Store, v: State, i: LeaveIn)
    requires StoreOk(env, s) && Tracks(s, i.channelID, Some(v)) && Legal(env, s, LeaveOp(i))
    requires i.origConn in v.sessions && HoldsFirst(s, v)
    ensures var o := Leave(env, s, Some(v), i);
      && o.err.None? && o.st.Some? && EqualButCaptions(Reload(o.store, i.channelID), Persisted(o.st.value))
      && (Reload(o.store, i.channelID) == Persisted(o.st.value) <==>
        || v.sessions.Keys == {i.origConn}
        || Live(LeftCaptions(v.jobs, i.origConn, i.connID, i.now))
        || NextCaptions(s.jobs, v.call.id, v.jobs.captions).None?)
  {
    hide StoreOk, CallOk, LeaveCall, RowsOk, SlotOk, LoadJobs, LeaveJobs, LeavePosts, UpdateCall, Leave, NextCaptions;
    hide CaptionsFirst, LeftCaptions;
    var o := Leave(env, s, Some(v), i);
    LeaveStored(env, s, Some(v), i);
    LeftCallOk(env, s, Some(v), i);
    LeaveWrittenButCaptions(env, s, Some(v), i);
    CaptionsLeft(env, s, v, i);
    LoneSession(v.sessions, i.origConn);
    ReloadFinds(env, o.store, i.channelID, o.st);
    LoadedCaptions(o.store, i.channelID);
    if NextCaptions(s.jobs, v.call.id, v.jobs.captions).Some? { NextIsLive(s.jobs, v.call.id, v.jobs.captions); }
  }

  /** In particular when the call has at most one live captions job, and memory knows of it. */
  lemma OneCaptionsWrittenThrough(env: Env, s: Store, v: State, i: LeaveIn)
    requires StoreOk(env, s) && Tracks(s, i.channelID, Some(v)) && Legal(env, s, LeaveOp(i))
    requires i.origConn in v.sessions && OneLiveCaptions(s.jobs, v.call.id)
    requires !Live(v.jobs.captions) ==> forall k :: !LiveRow(s.jobs, k, v.call.id, Captioning)
    ensures var o := Leave(env, s, Some(v), i); o.st.Some? && Reload(o.store, i.channelID) == Persisted(o.st.value)
  {
    hide StoreOk, Leave, Legal, NextCaptions, LeftCaptions, Reload, CallOk, RowsOk, OneLiveCaptions;
    SlotOfCaptions(env, s, i.channelID, v);
    OneIsFirst(s.jobs, v.call.id, v.jobs.captions);
    LeaveWrittenThrough(env, s, v, i);
    if Live(v.jobs.captions) {
      NoNextIff(s.jobs, v.call.id, v.jobs.captions);
    } else {
      NextIsLive(s.jobs, v.call.id, v.jobs.captions);
    }
  }

  lemma SlotOfCaptions(env: Env, s: Store, ch: Id, v: State)
    requires StoreOk(env, s) && Tracks(s, ch, Some(v))
    ensures RowsOk(s.jobs) && SlotOk(s.jobs, v.call.id, Captioning, v.jobs.captions)
  {
    hide CallOk, RowsOk, SlotOk;
  }

  lemma LoadedCaptions(s: Store, ch: Id)
    ensures Reload(s, ch).Some? ==> var v := Reload(s, ch).value;
      v.jobs.captions == ActiveJob(s.jobs, v.call.id, Captioning)
  {
  }

  lemma LoneSession(s: Sessions, k: Id)
    requires k in s
    ensures s.Keys == {k} <==> s - {k} == map[]
  {
    if s.Keys == {k} {
      assert forall x :: x !in s - {k};
    } else {
      var x :| x in s && x != k;
      assert x in s - {k};
    }
  }

  lemma NextIsLive(rows: map<Id, Job>, callID: Id, o: Option<Job>)
    ensures NextCaptions(rows, callID, o).Some? ==> var b := NextCaptions(rows, callID, o).value;
      exists k :: LiveRow(rows, k, callID, Captioning) && rows[k] == b && !Is(o, k)
  {
    var few := Without(rows, o);
    if NextCaptions(rows, callID, o).Some? {
      var k :| IsFirst(k, JobKeys(few, callID, Captioning), JobRank(few))
        && ActiveJob(few, callID, Captioning) == Some(few[k]);
      assert k in JobKeys(few, callID, Captioning);
      assert LiveRow(rows, k, callID, Captioning);
    }
  }

  /** After a load: exactly when the call has ended, or captions were not on, or the leave does not end
      the captions job, or it was the only live one. */
  lemma LoadedLeaveWrittenThrough(env: Env, s: Store, v: State, i: LeaveIn)
    requires StoreOk(env, s) && Legal(env, s, LeaveOp(i)) && Reload(s, i.channelID) == Some(v)
    requires i.origConn in v.sessions
    ensures var o := Step(env, s, LeaveOp(i));
      o.st.Some? && (Reload(o.store, i.channelID) == Persisted(o.st.value) <==>
        || v.sessions.Keys == {i.origConn}
        || v.jobs.captions.None?
        || Live(LeftCaptions(v.jobs, i.origConn, i.connID, i.now))
        || OneLiveCaptions(s.jobs, v.call.id))
  {
    hide StoreOk, Reload, Leave, Legal, NextCaptions, LeftCaptions, OneLiveCaptions;
    LoadTracks(env, s, i.channelID);
    LoadedFirst(env, s, i.channelID, v);
    LeaveWrittenThrough(env, s, v, i);
    if v.jobs.captions.Some? { NoNextIff(s.jobs, v.call.id, v.jobs.captions); }
  }

  lemma NoNextIff(rows: map<Id, Job>, callID: Id, o: Option<Job>)
    requires SlotOk(rows, callID, Captioning, o) && Live(o)
    ensures NextCaptions(rows, callID, o).None? <==> OneLiveCaptions(rows, callID)
  {
    var few := Without(rows, o);
    if JobKeys(few, callID, Captioning) == {} {
      forall k ensures LiveRow(rows, k, callID, Captioning) ==> k == o.value.id {
        assert k !in JobKeys(few, callID, Captioning);
      }
    } else {
      var k :| k in JobKeys(few, callID, Captioning);
      assert LiveRow(rows, k, callID, Captioning) && LiveRow(rows, o.value.id, callID, Captioning);
    }
  }
}
