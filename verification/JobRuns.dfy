/** Every locked section that touches jobs: what it does exactly, and that it keeps the rows. */
module JobRuns {
  import opened Basics
  import opened Rows
  import opened Load
  import opened JobDesk
  import opened JobFacts

  predicate Ready(x: Ctx) { x.channelID != NONE && x.botID != NONE && x.now != 0 }

  function End(o: Option<Job>, now: int): Option<Job> {
    if Live(o) then Some(o.value.(endAt := now)) else o
  }

  /** Captions are ended with their transcription whether or not they had ended before. */
  function EndAgain(o: Option<Job>, now: int): Option<Job> {
    if o.Some? then Some(o.value.(endAt := now)) else o
  }

  function IdIf(o: Option<Job>): seq<Id> { if Live(o) then [o.value.id] else [] }

  /** Both slots ended, the captions too when a live transcription was ended. */
  function BothEnded(j: Jobs, now: int): Jobs {
    Jobs(End(j.recording, now), End(j.transcription, now),
         if Live(j.transcription) then EndAgain(j.captions, now) else j.captions)
  }

  lemma StopsKept(d: Desk, e: Desk, f: Desk, callID: Id)
    requires Keeps(d, e, callID) && f.rows == e.rows && f.jobs == e.jobs
    ensures Keeps(d, f, callID)
  {
  }

  predicate Holds(o: Option<Job>, kind: Kind, callID: Id) {
    o.Some? ==> o.value.kind == kind && o.value.callID == callID && o.value.IsValid() && o.value.startAt >= 0
  }

  /** The kinds of the jobs in the slots; in particular the slots hold different jobs. */
  lemma SlotKinds(d: Desk, callID: Id)
    requires DeskOk(d, callID)
    ensures Holds(d.jobs.recording, Recording, callID) && Holds(d.jobs.transcription, Transcribing, callID)
    ensures Holds(d.jobs.captions, Captioning, callID)
    ensures d.jobs.recording.Some? && d.jobs.transcription.Some? ==>
      d.jobs.recording.value.id != d.jobs.transcription.value.id
    ensures d.jobs.recording.Some? && d.jobs.captions.Some? ==> d.jobs.recording.value.id != d.jobs.captions.value.id
    ensures d.jobs.transcription.Some? && d.jobs.captions.Some? ==>
      d.jobs.transcription.value.id != d.jobs.captions.value.id
  {
  }

  /** From the recording side everything coupled ends and each live job gets one stop message,
      the transcription first. */
  lemma StopRecordingEffect(d: Desk, x: Ctx, callID: Id)
    requires DeskOk(d, callID) && Ready(x) && Live(d.jobs.recording)
    ensures var (e, ok) := StopRecording(d, x);
      && ok && Keeps(d, e, callID)
      && e.jobs == BothEnded(d.jobs, x.now)
      && e.stops == d.stops + IdIf(d.jobs.transcription) + IdIf(d.jobs.recording)
    decreases LiveCount(d.jobs)
  {
    hide RowsOk, SlotOk, Advances, OnlyCall, Local;
    var r := d.jobs.recording.value.(endAt := x.now);
    SlotKinds(d, callID);
    PutRecordingOk(d, callID, r);
    var d1 := PutRecording(d, r);
    var d2 := if Live(d1.jobs.transcription) then StopTranscribing(d1, x).0 else d1;
    if Live(d1.jobs.transcription) {
      StopTranscribingEffect(d1, x, callID);
      KeepsTransitive(d, d1, d2, callID);
    }
    StopsKept(d, d2, SendStop(d2, r), callID);
  }

  /** From the transcription side too, in the same order. */
  lemma StopTranscribingEffect(d: Desk, x: Ctx, callID: Id)
    requires DeskOk(d, callID) && Ready(x) && Live(d.jobs.transcription)
    ensures var (e, ok) := StopTranscribing(d, x);
      && ok && Keeps(d, e, callID)
      && e.jobs == BothEnded(d.jobs, x.now)
      && e.stops == d.stops + IdIf(d.jobs.transcription) + IdIf(d.jobs.recording)
    decreases LiveCount(d.jobs)
  {
    hide RowsOk, SlotOk, Advances, OnlyCall, Local;
    var t := d.jobs.transcription.value.(endAt := x.now);
    SlotKinds(d, callID);
    PutTranscriptionOk(d, callID, t);
    var d1 := PutTranscription(d, t);
    var d2 := if d1.jobs.captions.Some?
              then PutCaptions(d1, d1.jobs.captions.value.(endAt := x.now)) else d1;
    if d1.jobs.captions.Some? {
      PutCaptionsOk(d1, callID, d1.jobs.captions.value.(endAt := x.now));
      KeepsTransitive(d, d1, d2, callID);
    }
    var d3 := SendStop(d2, t);
    StopsKept(d, d2, d3, callID);
    if Live(d3.jobs.recording) {
      StopRecordingEffect(d3, x, callID);
      KeepsTransitive(d, d3, StopRecording(d3, x).0, callID);
    }
  }

  /** With arguments the job service refuses, the two sides differ: the recording side still ends
      both jobs, the transcription side leaves the recording running. */
  lemma RefusedStop(d: Desk, x: Ctx, callID: Id)
    requires DeskOk(d, callID) && x.now != 0 && Live(d.jobs.recording) && Live(d.jobs.transcription)
    ensures Live(StopTranscribing(d, x).0.jobs.recording) <==> x.channelID == NONE || x.botID == NONE
    ensures !Live(StopRecording(d, x).0.jobs.recording) && !Live(StopRecording(d, x).0.jobs.transcription)
  {
  }

  // ---- the bot leaves ----

  lemma LeaveJobsKeeps(d: Desk, callID: Id, orig: Id, conn: Id, onlyBot: bool, x: Ctx)
    requires DeskOk(d, callID) && Ready(x)
    ensures Keeps(d, LeaveJobs(d, orig, conn, onlyBot, x), callID)
  {
    hide RowsOk, SlotOk, Advances, OnlyCall, Local, RecordingBotLeaves, TranscribingBotLeaves;
    var d1 := StopLeftovers(d, onlyBot, x);
    KeepsItself(d, callID);
    StopsKept(d, d, d1, callID);
    RecordingBotKeeps(d1, callID, orig, x);
    var d2 := RecordingBotLeaves(d1, orig, x);
    KeepsTransitive(d, d1, d2, callID);
    TranscribingBotKeeps(d2, callID, orig, x);
    var d3 := TranscribingBotLeaves(d2, orig, x);
    KeepsTransitive(d, d2, d3, callID);
    SlotKinds(d3, callID);
    if Live(d3.jobs.captions) {
      PutCaptionsOk(d3, callID, d3.jobs.captions.value.(endAt := x.now));
      KeepsTransitive(d, d3, PutCaptions(d3, d3.jobs.captions.value.(endAt := x.now)), callID);
    }
  }

  lemma KeepsItself(d: Desk, callID: Id)
    requires DeskOk(d, callID)
    ensures Keeps(d, d, callID)
  {
  }

  predicate ViaRecording(j: Jobs, orig: Id) { Live(j.recording) && orig == j.recording.value.botConnID }

  predicate ViaTranscription(j: Jobs, orig: Id) { Live(j.transcription) && orig == j.transcription.value.botConnID }

  lemma RecordingBotKeeps(d: Desk, callID: Id, orig: Id, x: Ctx)
    requires DeskOk(d, callID) && Ready(x)
    ensures Keeps(d, RecordingBotLeaves(d, orig, x), callID)
    ensures var e := RecordingBotLeaves(d, orig, x);
      if ViaRecording(d.jobs, orig)
      then e.jobs == BothEnded(d.jobs, x.now) && e.stops == d.stops + IdIf(d.jobs.transcription)
      else e == d
  {
    hide RowsOk, SlotOk, Advances, OnlyCall, Local;
    SlotKinds(d, callID);
    KeepsItself(d, callID);
    if Live(d.jobs.recording) && orig == d.jobs.recording.value.botConnID {
      var r := d.jobs.recording.value.(endAt := x.now);
      PutRecordingOk(d, callID, r);
      if Live(d.jobs.transcription) {
        var d1 := PutRecording(d, r);
        StopTranscribingEffect(d1, x, callID);
        KeepsTransitive(d, d1, StopTranscribing(d1, x).0, callID);
      }
    }
  }

  lemma TranscribingBotKeeps(d: Desk, callID: Id, orig: Id, x: Ctx)
    requires DeskOk(d, callID) && Ready(x)
    ensures Keeps(d, TranscribingBotLeaves(d, orig, x), callID)
    ensures var e := TranscribingBotLeaves(d, orig, x);
      if ViaTranscription(d.jobs, orig)
      then e.jobs == Jobs(End(d.jobs.recording, x.now), End(d.jobs.transcription, x.now), d.jobs.captions)
           && e.stops == d.stops + IdIf(d.jobs.recording)
      else e == d
  {
    hide RowsOk, SlotOk, Advances, OnlyCall, Local;
    SlotKinds(d, callID);
    KeepsItself(d, callID);
    if Live(d.jobs.transcription) && orig == d.jobs.transcription.value.botConnID {
      var t := d.jobs.transcription.value.(endAt := x.now);
      PutTranscriptionOk(d, callID, t);
      if Live(d.jobs.recording) {
        var d1 := PutTranscription(d, t);
        StopRecordingEffect(d1, x, callID);
        KeepsTransitive(d, d1, StopRecording(d1, x).0, callID);
      }
    }
  }

  // ---- the whole job part of a leave, in closed form ----

  function LeftCaptions(j: Jobs, orig: Id, conn: Id, now: int): Option<Job> {
    var c := if ViaRecording(j, orig) && Live(j.transcription) then EndAgain(j.captions, now) else j.captions;
    if Live(c) && conn == c.value.botConnID then End(c, now) else c
  }

  function LeftJobs(j: Jobs, orig: Id, conn: Id, now: int): Jobs {
    if ViaRecording(j, orig) || ViaTranscription(j, orig)
    then Jobs(End(j.recording, now), End(j.transcription, now), LeftCaptions(j, orig, conn, now))
    else j.(captions := LeftCaptions(j, orig, conn, now))
  }

  function Leftovers(j: Jobs, onlyBot: bool): seq<Id> {
    if !onlyBot then [] else
      (if j.recording.Some? then [j.recording.value.id] else [])
      + (if j.transcription.Some? then [j.transcription.value.id] else [])
  }

  function CoupledStops(j: Jobs, orig: Id): seq<Id> {
    if ViaRecording(j, orig) then IdIf(j.transcription)
    else if ViaTranscription(j, orig) then IdIf(j.recording) else []
  }

  /** The bot of either job leaving ends both jobs; the other job alone is told to stop. */
  lemma LeaveJobsEffect(d: Desk, callID: Id, orig: Id, conn: Id, onlyBot: bool, x: Ctx)
    requires DeskOk(d, callID) && Ready(x)
    ensures var e := LeaveJobs(d, orig, conn, onlyBot, x);
      && e.jobs == LeftJobs(d.jobs, orig, conn, x.now)
      && e.stops == d.stops + Leftovers(d.jobs, onlyBot) + CoupledStops(d.jobs, orig)
  {
    hide RowsOk, SlotOk, Advances, OnlyCall, Local, RecordingBotLeaves, TranscribingBotLeaves;
    SlotKinds(d, callID);
    var d1 := StopLeftovers(d, onlyBot, x);
    KeepsItself(d, callID);
    StopsKept(d, d, d1, callID);
    RecordingBotKeeps(d1, callID, orig, x);
    var d2 := RecordingBotLeaves(d1, orig, x);
    TranscribingBotKeeps(d2, callID, orig, x);
  }

  lemma JoinBotKeeps(d: Desk, callID: Id, jobID: Id, conn: Id)
    requires DeskOk(d, callID) && JoinBot(d, jobID, conn).Joined?
    ensures Keeps(d, JoinBot(d, jobID, conn).desk, callID)
  {
    hide RowsOk, SlotOk, Advances, OnlyCall, Local;
    SlotKinds(d, callID);
    KeepsItself(d, callID);
    if d.jobs.recording.Some? && d.jobs.recording.value.id == jobID && d.jobs.recording.value.startAt == 0 {
      PutRecordingOk(d, callID, d.jobs.recording.value.(botConnID := conn));
    } else {
      var d1 := if d.jobs.captions.Some? && d.jobs.captions.value.startAt == 0
                then PutCaptions(d, d.jobs.captions.value.(botConnID := conn)) else d;
      if d.jobs.captions.Some? && d.jobs.captions.value.startAt == 0 {
        PutCaptionsOk(d, callID, d.jobs.captions.value.(botConnID := conn));
      }
      PutTranscriptionOk(d1, callID, d1.jobs.transcription.value.(botConnID := conn));
      KeepsTransitive(d, d1, JoinBot(d, jobID, conn).desk, callID);
    }
  }

  // ---- starting ----

  /** What a locked section keeps when its in-memory state is thrown away. */
  ghost predicate KeepsRows(a: map<Id, Job>, b: map<Id, Job>, callID: Id) {
    RowsOk(b) && Advances(a, b) && OnlyCall(a, b, callID)
  }

  lemma InsertKeeps(rows: map<Id, Job>, j: Job)
    requires RowsOk(rows) && InsertJobRow(rows, j).Some? && j.startAt >= 0
    requires j.kind != Captioning && j.endAt == 0 ==> forall k :: !LiveRow(rows, k, j.callID, j.kind)
    ensures KeepsRows(rows, InsertJobRow(rows, j).value, j.callID)
  {
    var after := rows[j.id := j];
    forall a, b | a in after && b in after && after[a].endAt == 0 && after[b].endAt == 0
      && after[a].callID == after[b].callID && after[a].kind == after[b].kind && after[a].kind != Captioning
      ensures a == b
    {
      var _, _ := LiveRow(rows, a, j.callID, j.kind), LiveRow(rows, b, j.callID, j.kind);
    }
  }

  lemma BeginRecordingKeeps(d: Desk, callID: Id, user: Id, id: Id, x: Ctx)
    requires DeskOk(d, callID)
    ensures KeepsRows(d.rows, BeginRecording(d, callID, user, id, x).0, callID)
  {
    var j := NewJob(id, callID, Recording, user, x.now);
    if !Live(d.jobs.recording) && InsertJobRow(d.rows, j).Some? {
      InsertKeeps(d.rows, j);
    }
  }

  lemma BeginTranscribingKeeps(d: Desk, callID: Id, user: Id, trID: Id, lcID: Option<Id>, x: Ctx)
    requires DeskOk(d, callID)
    ensures KeepsRows(d.rows, BeginTranscribing(d, callID, user, trID, lcID, x).0, callID)
  {
    var j := NewJob(trID, callID, Transcribing, user, x.now);
    if !Live(d.jobs.transcription) && trID != NONE && InsertJobRow(d.rows, j).Some? {
      InsertKeeps(d.rows, j);
      var rows := InsertJobRow(d.rows, j).value;
      if lcID.Some? && InsertJobRow(rows, NewJob(lcID.value, callID, Captioning, user, x.now)).Some? {
        InsertKeeps(rows, NewJob(lcID.value, callID, Captioning, user, x.now));
      }
    }
  }

  lemma FinishRecordingKeeps(d: Desk, callID: Id, run: RunResult, x: Ctx)
    requires DeskOk(d, callID) && x.now != 0 && (d.jobs.recording.Some? ==> Live(d.jobs.recording))
    ensures KeepsRows(d.rows, FinishRecording(d, run, x).0, callID)
  {
    if d.jobs.recording.Some? {
      var r := d.jobs.recording.value;
      match run
      case RunFailed(e) => PutRecordingOk(d, callID, r.(endAt := x.now, err := e));
      case Ran(id) => PutRecordingOk(d, callID, r.(jobID := id));
    }
  }

  lemma FinishTranscribingKeeps(d: Desk, callID: Id, captionsOn: bool, run: RunResult, x: Ctx)
    requires DeskOk(d, callID) && x.now != 0 && (d.jobs.transcription.Some? ==> Live(d.jobs.transcription))
    ensures KeepsRows(d.rows, FinishTranscribing(d, captionsOn, run, x).0, callID)
  {
    hide RowsOk, SlotOk, Advances, OnlyCall, Local;
    SlotKinds(d, callID);
    KeepsItself(d, callID);
    if d.jobs.transcription.Some? {
      var t := d.jobs.transcription.value;
      var t' := match run case RunFailed(e) => t.(endAt := x.now, err := e) case Ran(id) => t.(jobID := id);
      PutTranscriptionOk(d, callID, t');
      var d1 := PutTranscription(d, t');
      if d.jobs.captions.Some? {
        var c := d.jobs.captions.value;
        var c' := match run case RunFailed(_) => c.(endAt := x.now) case Ran(id) => c.(jobID := id);
        PutCaptionsOk(d1, callID, c');
        KeepsTransitive(d, d1, PutCaptions(d1, c'), callID);
      }
    }
  }

  // ---- reports, timeouts, reconnection ----

  /** A failed job is ended in memory first and written last; the order of the writes is immaterial. */
  lemma FailedRecording(d: Desk, callID: Id, ended: Job, x: Ctx)
    requires DeskOk(d, callID) && Ready(x) && Rewrites(d.jobs.recording, ended) && ended.endAt != 0
    ensures var d1 := d.(jobs := d.jobs.(recording := Some(ended)));
      PutRecording(StopTranscribing(d1, x).0, ended) == StopTranscribing(PutRecording(d, ended), x).0
  {
    hide RowsOk, SlotOk, Advances, OnlyCall, Local;
    SlotKinds(d, callID);
    PutRecordingOk(d, callID, ended);
    var e := PutRecording(d, ended);
    if Live(d.jobs.transcription) {
      var t := d.jobs.transcription.value.(endAt := x.now);
      PutTranscriptionOk(d, callID, t);
      PutTranscriptionOk(e, callID, t);
      var d1, e1 := PutTranscription(d, t), PutTranscription(e, t);
      PutRecordingOk(d1, callID, ended);
      if d.jobs.captions.Some? {
        var c := d.jobs.captions.value.(endAt := x.now);
        PutCaptionsOk(d1, callID, c);
        PutCaptionsOk(e1, callID, c);
        PutRecordingOk(PutCaptions(d1, c), callID, ended);
        assert d.rows[t.id := t][c.id := c][ended.id := ended] == d.rows[ended.id := ended][t.id := t][c.id := c];
      } else {
        assert d.rows[t.id := t][ended.id := ended] == d.rows[ended.id := ended][t.id := t];
      }
    }
  }

  lemma FailedTranscription(d: Desk, callID: Id, ended: Job, x: Ctx)
    requires DeskOk(d, callID) && Ready(x) && Rewrites(d.jobs.transcription, ended) && ended.endAt != 0
    ensures var d1 := d.(jobs := d.jobs.(transcription := Some(ended)));
      PutTranscription(StopRecording(d1, x).0, ended) == StopRecording(PutTranscription(d, ended), x).0
  {
  }

  lemma ReportStatusKeeps(d: Desk, callID: Id, forRecording: bool, jobID: Id, status: Status, captionsOn: bool, x: Ctx)
    requires DeskOk(d, callID) && Ready(x) && x.now > 0
    requires d.jobs.recording.Some? ==> Live(d.jobs.recording)
    requires d.jobs.transcription.Some? ==> Live(d.jobs.transcription)
    ensures Keeps(d, ReportStatus(d, forRecording, jobID, status, captionsOn, x).0, callID)
  {
    hide RowsOk, SlotOk, Advances, OnlyCall, Local;
    SlotKinds(d, callID);
    KeepsItself(d, callID);
    var slot := if forRecording then d.jobs.recording else d.jobs.transcription;
    if slot.Some? && slot.value.id == jobID {
      if status.Failed? {
        var ended := slot.value.(endAt := x.now, err := status.err);
        if forRecording {
          FailedRecording(d, callID, ended, x);
          PutRecordingOk(d, callID, ended);
          var e := PutRecording(d, ended);
          if Live(e.jobs.transcription) {
            StopTranscribingEffect(e, x, callID);
            KeepsTransitive(d, e, StopTranscribing(e, x).0, callID);
          }
        } else {
          FailedTranscription(d, callID, ended, x);
          PutTranscriptionOk(d, callID, ended);
          var e := PutTranscription(d, ended);
          if Live(e.jobs.recording) {
            StopRecordingEffect(e, x, callID);
            KeepsTransitive(d, e, StopRecording(e, x).0, callID);
          }
        }
      } else if slot.value.startAt == 0 {
        var started := slot.value.(startAt := x.now);
        if forRecording {
          PutRecordingOk(d, callID, started);
        } else if captionsOn && d.jobs.captions.Some? {
          var c := d.jobs.captions.value.(startAt := x.now);
          PutCaptionsOk(d, callID, c);
          var d1 := PutCaptions(d, c);
          PutTranscriptionOk(d1, callID, started);
          KeepsTransitive(d, d1, PutTranscription(d1, started), callID);
        } else {
          PutTranscriptionOk(d, callID, started);
        }
      }
    }
  }

  lemma RecordingTimeoutKeeps(d: Desk, callID: Id, jobID: Id, x: Ctx)
    requires DeskOk(d, callID) && Ready(x) && (d.jobs.recording.Some? ==> Live(d.jobs.recording))
    ensures Keeps(d, RecordingTimeout(d, jobID, x), callID)
  {
    if d.jobs.recording.Some? {
      var r := d.jobs.recording.value.(endAt := x.now, err := TIMED_OUT);
      PutRecordingOk(d, callID, r);
      if Live(d.jobs.transcription) { StopTranscribingEffect(PutRecording(d, r), x, callID); }
    }
  }

  lemma TranscriptionTimeoutKeeps(d: Desk, callID: Id, jobID: Id, captionsOn: bool, x: Ctx)
    requires DeskOk(d, callID) && Ready(x) && (d.jobs.transcription.Some? ==> Live(d.jobs.transcription))
    ensures KeepsRows(d.rows, TranscriptionTimeout(d, jobID, captionsOn, x).rows, callID)
  {
    hide RowsOk, SlotOk, Advances, OnlyCall, Local;
    KeepsItself(d, callID);
    SlotKinds(d, callID);
    var e := TranscriptionTimeout(d, jobID, captionsOn, x);
    if e != d {
      var t := d.jobs.transcription.value.(endAt := x.now, err := TIMED_OUT);
      PutTranscriptionOk(d, callID, t);
      var d1 := PutTranscription(d, t);
      assert UpdateJobRow(d1.rows, t) == d1.rows;
      if Live(d1.jobs.recording) {
        StopRecordingEffect(d1, x, callID);
        KeepsTransitive(d, d1, StopRecording(d1, x).0, callID);
        // The captions slot plays no part in stopping the recording: the transcription has ended.
        assert e.rows == StopRecording(d1, x).0.rows;
      } else {
        assert e.rows == d1.rows;
      }
    }
  }

  lemma ReconnectBotKeeps(d: Desk, callID: Id, prev: Id, conn: Id)
    requires DeskOk(d, callID)
    ensures Keeps(d, ReconnectBot(d, prev, conn), callID)
  {
    if d.jobs.recording.Some? && d.jobs.recording.value.botConnID == prev {
      PutRecordingOk(d, callID, d.jobs.recording.value.(botConnID := conn));
    } else if d.jobs.transcription.Some? && d.jobs.transcription.value.botConnID == prev {
      PutTranscriptionOk(d, callID, d.jobs.transcription.value.(botConnID := conn));
      var d1 := PutTranscription(d, d.jobs.transcription.value.(botConnID := conn));
      if d1.jobs.captions.Some? {
        PutCaptionsOk(d1, callID, d1.jobs.captions.value.(botConnID := conn));
      }
    }
  }
}
