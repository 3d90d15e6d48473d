/** What every job operation keeps: at most one live recording and one live transcription per
    call, ended jobs stay ended, a start time is set at most once, and the slots of the
    in-memory state are what a reload would give. */
module JobFacts {
  import opened Basics
  import opened Rows
  import opened Load
  import opened JobDesk

  predicate LiveRow(rows: map<Id, Job>, k: Id, callID: Id, kind: Kind) {
    k in rows && rows[k].callID == callID && rows[k].kind == kind && rows[k].endAt == 0
  }

  /** At most one un-ended recording and one un-ended transcription per call. */
  ghost predicate OneLive(rows: map<Id, Job>) {
    forall j, k | j in rows && k in rows && rows[j].endAt == 0 && rows[k].endAt == 0
      && rows[j].callID == rows[k].callID && rows[j].kind == rows[k].kind && rows[j].kind != Captioning :: j == k
  }

  ghost predicate RowsOk(rows: map<Id, Job>) {
    && (forall k | k in rows :: rows[k].id == k && rows[k].IsValid() && rows[k].startAt >= 0)
    && OneLive(rows)
  }

  ghost predicate SlotOk(rows: map<Id, Job>, callID: Id, kind: Kind, o: Option<Job>) {
    && (o.Some? ==> o.value.id in rows && rows[o.value.id] == o.value && o.value.callID == callID)
    && (o.Some? ==> o.value.kind == kind)
    && ((if kind == Captioning then o.None? else !Live(o)) ==> forall k :: !LiveRow(rows, k, callID, kind))
  }

  ghost predicate DeskOk(d: Desk, callID: Id) {
    && RowsOk(d.rows)
    && SlotOk(d.rows, callID, Recording, d.jobs.recording)
    && SlotOk(d.rows, callID, Transcribing, d.jobs.transcription)
    && SlotOk(d.rows, callID, Captioning, d.jobs.captions)
  }

  /** No row disappears; identity is fixed; recordings and transcriptions end once, start once. */
  ghost predicate Advances(a: map<Id, Job>, b: map<Id, Job>) {
    forall k | k in a ::
      && k in b
      && b[k].id == a[k].id && b[k].callID == a[k].callID && b[k].kind == a[k].kind
      && (a[k].endAt != 0 ==> b[k].endAt != 0)
      && (a[k].kind != Captioning && a[k].endAt != 0 ==> b[k].endAt == a[k].endAt)
      && (a[k].kind != Captioning && a[k].startAt != 0 ==> b[k].startAt == a[k].startAt)
  }

  /** Jobs of other calls are not touched. */
  ghost predicate OnlyCall(a: map<Id, Job>, b: map<Id, Job>, callID: Id) {
    && (forall k | k in a && a[k].callID != callID :: k in b && b[k] == a[k])
    && (forall k | k in b && b[k].callID != callID :: k in a)
  }

  predicate SameJob(a: Option<Job>, b: Option<Job>) {
    (a.None? <==> b.None?) && (a.Some? ==> a.value.id == b.value.id)
  }

  predicate InSlots(j: Jobs, id: Id) {
    || (j.recording.Some? && j.recording.value.id == id)
    || (j.transcription.Some? && j.transcription.value.id == id)
    || (j.captions.Some? && j.captions.value.id == id)
  }

  /** The slots hold the same jobs and no other row is written. */
  ghost predicate Local(d: Desk, e: Desk) {
    && SameJob(d.jobs.recording, e.jobs.recording)
    && SameJob(d.jobs.transcription, e.jobs.transcription)
    && SameJob(d.jobs.captions, e.jobs.captions)
    && (forall k :: k in d.rows <==> k in e.rows)
    && (forall k | k in d.rows && !InSlots(d.jobs, k) :: e.rows[k] == d.rows[k])
  }

  /** One locked section leaves the desk consistent and only advances this call's rows. */
  ghost predicate Keeps(d: Desk, e: Desk, callID: Id) {
    DeskOk(e, callID) && Advances(d.rows, e.rows) && OnlyCall(d.rows, e.rows, callID) && Local(d, e)
  }

  lemma KeepsTransitive(d: Desk, e: Desk, f: Desk, callID: Id)
    requires DeskOk(d, callID) && Keeps(d, e, callID) && Keeps(e, f, callID)
    ensures Keeps(d, f, callID)
  {
  }

  // ---- loading ----

  lemma LoadedDeskOk(rows: map<Id, Job>, callID: Id)
    requires RowsOk(rows)
    ensures DeskOk(Desk(rows, LoadJobs(rows, callID), []), callID)
  {
    LoadedSlot(rows, callID, Recording);
    LoadedSlot(rows, callID, Transcribing);
    LoadedSlot(rows, callID, Captioning);
  }

  lemma LoadedSlot(rows: map<Id, Job>, callID: Id, kind: Kind)
    requires RowsOk(rows)
    ensures SlotOk(rows, callID, kind, ActiveJob(rows, callID, kind))
    ensures ActiveJob(rows, callID, kind).Some? ==> Live(ActiveJob(rows, callID, kind))
  {
    var o := ActiveJob(rows, callID, kind);
    if o.Some? {
      var k :| IsFirst(k, JobKeys(rows, callID, kind), JobRank(rows)) && o.value == rows[k];
      assert k in JobKeys(rows, callID, kind);
    } else {
      forall k ensures !LiveRow(rows, k, callID, kind) {
        assert k !in JobKeys(rows, callID, kind);
      }
    }
  }

  function Visible(o: Option<Job>): Option<Job> { if Live(o) then o else None }

  function VisibleJobs(j: Jobs): Jobs { Jobs(Visible(j.recording), Visible(j.transcription), Visible(j.captions)) }

  predicate OneLiveCaptions(rows: map<Id, Job>, callID: Id) {
    forall j, k | j in rows && k in rows && LiveRow(rows, j, callID, Captioning)
      && LiveRow(rows, k, callID, Captioning) :: j == k
  }

  /** A reload gives the slots back, ended jobs as absent ones. */
  lemma ReloadSlot(rows: map<Id, Job>, callID: Id, kind: Kind, o: Option<Job>)
    requires RowsOk(rows) && SlotOk(rows, callID, kind, o)
    requires kind == Captioning ==> OneLiveCaptions(rows, callID)
    ensures ActiveJob(rows, callID, kind) == Visible(o) ||
            (kind == Captioning && !Live(o) && o.Some?)
  {
    LoadedSlot(rows, callID, kind);
    var a := ActiveJob(rows, callID, kind);
    if a.Some? { assert LiveRow(rows, a.value.id, callID, kind); }
    if Live(o) { assert LiveRow(rows, o.value.id, callID, kind); }
  }

  lemma ReloadJobs(d: Desk, callID: Id)
    requires DeskOk(d, callID)
    ensures LoadJobs(d.rows, callID).recording == Visible(d.jobs.recording)
    ensures LoadJobs(d.rows, callID).transcription == Visible(d.jobs.transcription)
  {
    ReloadSlot(d.rows, callID, Recording, d.jobs.recording);
    ReloadSlot(d.rows, callID, Transcribing, d.jobs.transcription);
  }

  // ---- one write ----

  /** j rewrites the job o of a slot without changing what identifies it. */
  predicate Rewrites(o: Option<Job>, j: Job) {
    && o.Some? && j.id == o.value.id && j.callID == o.value.callID && j.kind == o.value.kind
    && j.creatorID == o.value.creatorID && j.initAt == o.value.initAt && j.startAt >= 0
    && (o.value.endAt != 0 ==> j.endAt != 0)
    && (o.value.kind != Captioning && o.value.endAt != 0 ==> j.endAt == o.value.endAt)
    && (o.value.kind != Captioning && o.value.startAt != 0 ==> j.startAt == o.value.startAt)
  }

  lemma PutRow(rows: map<Id, Job>, callID: Id, kind: Kind, o: Option<Job>, j: Job)
    requires RowsOk(rows) && SlotOk(rows, callID, kind, o) && Rewrites(o, j)
    ensures UpdateJobRow(rows, j) == rows[j.id := j]
    ensures var after := rows[j.id := j];
      RowsOk(after) && SlotOk(after, callID, kind, Some(j)) && Advances(rows, after) && OnlyCall(rows, after, callID)
  {
    var after := rows[j.id := j];
    forall k ensures LiveRow(after, k, callID, kind) ==> LiveRow(rows, k, callID, kind) { }
  }

  /** A write to one slot leaves the slots of the other kinds alone. */
  lemma OtherSlot(rows: map<Id, Job>, callID: Id, kind: Kind, o: Option<Job>, j: Job)
    requires SlotOk(rows, callID, kind, o) && j.id in rows && rows[j.id].kind == j.kind != kind
    ensures SlotOk(rows[j.id := j], callID, kind, o)
  {
    var after := rows[j.id := j];
    forall k ensures LiveRow(after, k, callID, kind) <==> LiveRow(rows, k, callID, kind) { }
  }

  lemma PutRecordingOk(d: Desk, callID: Id, j: Job)
    requires DeskOk(d, callID) && Rewrites(d.jobs.recording, j)
    ensures Keeps(d, PutRecording(d, j), callID) && PutRecording(d, j).rows == d.rows[j.id := j]
  {
    PutRow(d.rows, callID, Recording, d.jobs.recording, j);
    OtherSlot(d.rows, callID, Transcribing, d.jobs.transcription, j);
    OtherSlot(d.rows, callID, Captioning, d.jobs.captions, j);
  }

  lemma PutTranscriptionOk(d: Desk, callID: Id, j: Job)
    requires DeskOk(d, callID) && Rewrites(d.jobs.transcription, j)
    ensures Keeps(d, PutTranscription(d, j), callID) && PutTranscription(d, j).rows == d.rows[j.id := j]
  {
    PutRow(d.rows, callID, Transcribing, d.jobs.transcription, j);
    OtherSlot(d.rows, callID, Recording, d.jobs.recording, j);
    OtherSlot(d.rows, callID, Captioning, d.jobs.captions, j);
  }

  lemma PutCaptionsOk(d: Desk, callID: Id, j: Job)
    requires DeskOk(d, callID) && Rewrites(d.jobs.captions, j)
    ensures Keeps(d, PutCaptions(d, j), callID) && PutCaptions(d, j).rows == d.rows[j.id := j]
  {
    PutRow(d.rows, callID, Captioning, d.jobs.captions, j);
    OtherSlot(d.rows, callID, Recording, d.jobs.recording, j);
    OtherSlot(d.rows, callID, Transcribing, d.jobs.transcription, j);
  }
}
