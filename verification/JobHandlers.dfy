/** The job handlers as they run: they update the job objects of a call state in place, write the
    rows and send stop messages (server/recording_api.go, server/transcription_api.go,
    server/bot_api.go, server/session.go:338-434). */
module JobHandlers {
  import opened Basics
  import opened Rows
  import opened Load
  import opened JobDesk
  import opened Membership
  import opened CallStates

  /** The writes of a join, of which any may fail. */
  datatype Write = RecordingWrite | TranscriptionWrite | CaptionsWrite | CallWrite | SessionWrite

  /** The three job objects of a call state; different slots hold different objects. */
  predicate Apart(rec: CallJob?, tr: CallJob?, lc: CallJob?) {
    && (rec != null ==> rec != tr && rec != lc)
    && (tr != null ==> tr != lc)
  }

  function Slots(rec: CallJob?, tr: CallJob?, lc: CallJob?): Jobs
    reads rec, tr, lc
  {
    Jobs(JobRow(rec), JobRow(tr), JobRow(lc))
  }

  /** The desk the specification speaks of. */
  function DeskOf(rows: map<Id, Job>, rec: CallJob?, tr: CallJob?, lc: CallJob?, stops: seq<Id>): Desk
    reads rec, tr, lc
  {
    Desk(rows, Slots(rec, tr, lc), stops)
  }

  predicate IsLive(j: CallJob?)
    reads j
  {
    j != null && j.endAt == 0
  }

  /** stopRecordingJob. It and stopTranscribingJob call each other; each ends a job before it does. */
  method StopRecordingJob(rows: map<Id, Job>, rec: CallJob?, tr: CallJob?, lc: CallJob?, stops: seq<Id>, x: Ctx)
    returns (rows': map<Id, Job>, stops': seq<Id>, ok: bool)
    requires Apart(rec, tr, lc) && x.now != 0
    modifies rec, tr, lc
    ensures (DeskOf(rows', rec, tr, lc, stops'), ok) == StopRecording(old(DeskOf(rows, rec, tr, lc, stops)), x)
    decreases LiveCount(Slots(rec, tr, lc))
  {
    if !IsLive(rec) { return rows, stops, false; }
    rec.endAt := x.now;
    rows', stops' := UpdateJobRow(rows, rec.Row()), stops;
    if IsLive(tr) {
      var stopped;
      rows', stops', stopped := StopTranscribingJob(rows', rec, tr, lc, stops', x);
    }
    if !StopAccepted(x, rec.Row()) {
      rec.err := STOP_FAILED;
      return rows', stops', false;
    }
    return rows', stops' + [rec.id], true;
  }

  /** stopTranscribingJob. */
  method StopTranscribingJob(rows: map<Id, Job>, rec: CallJob?, tr: CallJob?, lc: CallJob?, stops: seq<Id>, x: Ctx)
    returns (rows': map<Id, Job>, stops': seq<Id>, ok: bool)
    requires Apart(rec, tr, lc) && x.now != 0
    modifies rec, tr, lc
    ensures (DeskOf(rows', rec, tr, lc, stops'), ok) == StopTranscribing(old(DeskOf(rows, rec, tr, lc, stops)), x)
    decreases LiveCount(Slots(rec, tr, lc))
  {
    if !IsLive(tr) { return rows, stops, false; }
    tr.endAt := x.now;
    rows', stops' := UpdateJobRow(rows, tr.Row()), stops;
    if lc != null {
      lc.endAt := x.now;
      rows' := UpdateJobRow(rows', lc.Row());
    }
    if !StopAccepted(x, tr.Row()) {
      tr.err := STOP_FAILED;
      return rows', stops', false;
    }
    stops' := stops' + [tr.id];
    if IsLive(rec) {
      var stopped;
      rows', stops', stopped := StopRecordingJob(rows', rec, tr, lc, stops', x);
    }
    return rows', stops', true;
  }

  /** What removeUserSession does about jobs: tell leftover jobs to stop when only the bot remains,
      and end the jobs whose bot leaves. */
  method EndBotJobs(rows: map<Id, Job>, rec: CallJob?, tr: CallJob?, lc: CallJob?, orig: Id, conn: Id, onlyBot: bool,
                    x: Ctx)
    returns (rows': map<Id, Job>, stops': seq<Id>)
    requires Apart(rec, tr, lc) && x.now != 0
    modifies rec, tr, lc
    ensures DeskOf(rows', rec, tr, lc, stops') == LeaveJobs(old(DeskOf(rows, rec, tr, lc, [])), orig, conn, onlyBot, x)
  {
    hide RecordingBotLeaves, TranscribingBotLeaves, StopLeftovers, CaptionsBotLeaves, DeskOf;
    stops' := TellToStop(rows, rec, tr, lc, onlyBot, x);
    rows', stops' := EndRecordingBot(rows, rec, tr, lc, stops', orig, x);
    rows', stops' := EndTranscribingBot(rows', rec, tr, lc, stops', orig, x);
    rows' := EndCaptionsBot(rows', rec, tr, lc, stops', conn, x);
  }

  method TellToStop(rows: map<Id, Job>, rec: CallJob?, tr: CallJob?, lc: CallJob?, onlyBot: bool,
                    x: Ctx) returns (stops: seq<Id>)
    ensures DeskOf(rows, rec, tr, lc, stops) == StopLeftovers(DeskOf(rows, rec, tr, lc, []), onlyBot, x)
  {
    stops := [];
    if onlyBot {
      if rec != null && StopAccepted(x, rec.Row()) { stops := stops + [rec.id]; }
      if tr != null && StopAccepted(x, tr.Row()) { stops := stops + [tr.id]; }
    }
  }

  method EndCaptionsBot(rows: map<Id, Job>, rec: CallJob?, tr: CallJob?, lc: CallJob?, ghost stops: seq<Id>, conn: Id,
                        x: Ctx)
    returns (rows': map<Id, Job>)
    requires Apart(rec, tr, lc)
    modifies lc
    ensures DeskOf(rows', rec, tr, lc, stops) == CaptionsBotLeaves(old(DeskOf(rows, rec, tr, lc, stops)), conn, x)
  {
    rows' := rows;
    if IsLive(lc) && conn == lc.botConnID {
      lc.endAt := x.now;
      rows' := UpdateJobRow(rows', lc.Row());
    }
  }

  method EndRecordingBot(rows: map<Id, Job>, rec: CallJob?, tr: CallJob?, lc: CallJob?, stops: seq<Id>, orig: Id,
                         x: Ctx)
    returns (rows': map<Id, Job>, stops': seq<Id>)
    requires Apart(rec, tr, lc) && x.now != 0
    modifies rec, tr, lc
    ensures DeskOf(rows', rec, tr, lc, stops') == RecordingBotLeaves(old(DeskOf(rows, rec, tr, lc, stops)), orig, x)
  {
    rows', stops' := rows, stops;
    if IsLive(rec) && orig == rec.botConnID {
      rec.endAt := x.now;
      rows' := UpdateJobRow(rows', rec.Row());
      if IsLive(tr) {
        var stopped;
        rows', stops', stopped := StopTranscribingJob(rows', rec, tr, lc, stops', x);
      }
    }
  }

  method EndTranscribingBot(rows: map<Id, Job>, rec: CallJob?, tr: CallJob?, lc: CallJob?, stops: seq<Id>, orig: Id,
                            x: Ctx)
    returns (rows': map<Id, Job>, stops': seq<Id>)
    requires Apart(rec, tr, lc) && x.now != 0
    modifies rec, tr, lc
    ensures DeskOf(rows', rec, tr, lc, stops') == TranscribingBotLeaves(old(DeskOf(rows, rec, tr, lc, stops)), orig, x)
  {
    rows', stops' := rows, stops;
    if IsLive(tr) && orig == tr.botConnID {
      tr.endAt := x.now;
      rows' := UpdateJobRow(rows', tr.Row());
      if IsLive(rec) {
        var stopped;
        rows', stops', stopped := StopRecordingJob(rows', rec, tr, lc, stops', x);
      }
    }
  }

  // ---- the bot joins ----

  method WriteJob(rows: map<Id, Job>, j: CallJob, down: bool) returns (rows': map<Id, Job>, ok: bool)
    ensures ok == !down && rows' == if down then rows else UpdateJobRow(rows, j.Row())
  {
    ok := !down;
    rows' := if down then rows else UpdateJobRow(rows, j.Row());
  }

  /** The bot joins because of a job: its connection is noted with the job and its captions. */
  method BotJoins(rows: map<Id, Job>, rec: CallJob?, tr: CallJob?, lc: CallJob?, jobID: Id, conn: Id, fails: set<Write>)
    returns (rows': map<Id, Job>, err: Option<Err>)
    requires Apart(rec, tr, lc)
    modifies rec, tr, lc
    ensures fails == {} ==>
      match JoinBot(old(DeskOf(rows, rec, tr, lc, [])), jobID, conn)
      case NoJob => err == Some(NoJobInProgress) && rows' == rows
      case JobStarted => err == Some(JobNotJoinable) && rows' == rows
      case Joined(d) => err == None && DeskOf(rows', rec, tr, lc, []) == d
  {
    if rec == null && tr == null { return rows, Some(NoJobInProgress); }
    var ok;
    if rec != null && rec.id == jobID && rec.startAt == 0 {
      rec.botConnID := conn;
      rows', ok := WriteJob(rows, rec, RecordingWrite in fails);
      if !ok { rec.botConnID := NONE; }
    } else if tr != null && tr.id == jobID && tr.startAt == 0 {
      rows' := rows;
      tr.botConnID := conn;
      if lc != null && lc.startAt == 0 {
        lc.botConnID := conn;
        rows', ok := WriteJob(rows', lc, CaptionsWrite in fails);
        if !ok { lc.botConnID := NONE; return rows', Some(StoreFailed); }
      }
      rows', ok := WriteJob(rows', tr, TranscriptionWrite in fails);
      if !ok { tr.botConnID := NONE; }
    } else {
      return rows, Some(JobNotJoinable);
    }
    err := if ok then None else Some(StoreFailed);
  }

  // ---- starting a job: before and after the call to the job service, for which the lock is released ----

  method BeginRecordingJob(rows: map<Id, Job>, rec: CallJob?, callID: Id, user: Id, newID: Id, now: int)
    returns (rows': map<Id, Job>, ok: bool)
    ensures forall tr, lc, stops, x: Ctx | x.now == now ::
      (rows', ok) == BeginRecording(Desk(rows, Jobs(old(JobRow(rec)), tr, lc), stops), callID, user, newID, x)
  {
    if IsLive(rec) { return rows, false; }
    var recState := new CallJob(NewJob(newID, callID, Recording, user, now));
    var inserted := InsertJobRow(rows, recState.Row());
    if inserted.None? { return rows, false; }
    return inserted.value, true;
  }

  /** The state has been reloaded; the job found in it need not be the one inserted before. */
  method FinishRecordingJob(rows: map<Id, Job>, rec: CallJob?, run: RunResult, now: int)
    returns (rows': map<Id, Job>, ok: bool)
    modifies rec
    ensures forall tr, lc, stops, x: Ctx | x.now == now ::
      (rows', ok) == FinishRecording(Desk(rows, Jobs(old(JobRow(rec)), tr, lc), stops), run, x)
  {
    if rec == null { return rows, false; }
    if run.RunFailed? {
      rec.endAt, rec.err := now, run.err;
      return UpdateJobRow(rows, rec.Row()), false;
    }
    if rec.jobID != NONE { return rows, false; }
    rec.jobID := run.jobID;
    return UpdateJobRow(rows, rec.Row()), true;
  }

  method BeginTranscribingJob(rows: map<Id, Job>, tr: CallJob?, callID: Id, user: Id, trID: Id, lcID: Option<Id>,
                              now: int)
    returns (rows': map<Id, Job>, ok: bool)
    ensures forall rec, lc, stops, x: Ctx | x.now == now ::
      (rows', ok) == BeginTranscribing(Desk(rows, Jobs(rec, old(JobRow(tr)), lc), stops), callID, user, trID, lcID, x)
  {
    if IsLive(tr) || trID == NONE { return rows, false; }
    var inserted := InsertJobRow(rows, NewJob(trID, callID, Transcribing, user, now));
    if inserted.None? { return rows, false; }
    if lcID.None? { return inserted.value, true; }
    var both := InsertJobRow(inserted.value, NewJob(lcID.value, callID, Captioning, user, now));
    if both.None? { return inserted.value, false; }
    return both.value, true;
  }

  method FinishTranscribingJob(rows: map<Id, Job>, tr: CallJob?, captions: CallJob?, captionsOn: bool, run: RunResult,
                               now: int)
    returns (rows': map<Id, Job>, ok: bool)
    requires tr != null ==> tr != captions
    modifies tr, captions
    ensures forall rec, stops, x: Ctx | x.now == now ::
      (rows', ok) == FinishTranscribing(Desk(rows, Jobs(rec, old(JobRow(tr)), old(JobRow(captions))), stops),
                                        captionsOn, run, x)
  {
    if tr == null { return rows, false; }
    var lc := if captionsOn then captions else null;
    if run.RunFailed? {
      tr.endAt, tr.err := now, run.err;
      rows' := UpdateJobRow(rows, tr.Row());
      if lc != null {
        lc.endAt := now;
        rows' := UpdateJobRow(rows', lc.Row());
      }
      return rows', false;
    }
    if tr.jobID != NONE { return rows, false; }
    tr.jobID := run.jobID;
    rows' := UpdateJobRow(rows, tr.Row());
    if lc != null {
      lc.jobID := run.jobID;
      rows' := UpdateJobRow(rows', lc.Row());
    }
    return rows', true;
  }

  // ---- the bot reports; timeouts; the bot reconnects ----

  /** handleBotPostJobsStatus for a failed job: it is ended in memory first, the coupled job is
      stopped, and its row is written last. */
  method ReportFailed(rows: map<Id, Job>, rec: CallJob?, tr: CallJob?, lc: CallJob?, forRecording: bool, e: string,
                      ghost captionsOn: bool, x: Ctx)
    returns (rows': map<Id, Job>, stops': seq<Id>)
    requires Apart(rec, tr, lc) && x.now != 0 && (if forRecording then rec else tr) != null
    modifies rec, tr, lc
    ensures (DeskOf(rows', rec, tr, lc, stops'), true)
      == ReportStatus(old(DeskOf(rows, rec, tr, lc, [])), forRecording, (if forRecording then rec else tr).id,
                      Failed(e), captionsOn, x)
  {
    rows', stops' := rows, [];
    var jb := if forRecording then rec else tr;
    jb.endAt, jb.err := x.now, e;
    var stopped;
    if forRecording && tr != null {
      rows', stops', stopped := StopTranscribingJob(rows', rec, tr, lc, stops', x);
    } else if !forRecording && rec != null {
      rows', stops', stopped := StopRecordingJob(rows', rec, tr, lc, stops', x);
    }
    rows' := UpdateJobRow(rows', jb.Row());
  }

  method ReportJobStatus(rows: map<Id, Job>, rec: CallJob?, tr: CallJob?, lc: CallJob?, forRecording: bool, jobID: Id,
                         status: Status, captionsOn: bool, x: Ctx)
    returns (rows': map<Id, Job>, stops': seq<Id>, ok: bool)
    requires Apart(rec, tr, lc) && x.now != 0
    modifies rec, tr, lc
    ensures (DeskOf(rows', rec, tr, lc, stops'), ok)
      == ReportStatus(old(DeskOf(rows, rec, tr, lc, [])), forRecording, jobID, status, captionsOn, x)
  {
    rows', stops' := rows, [];
    var jb := if forRecording then rec else tr;
    if jb == null || jb.id != jobID { return rows', stops', false; }
    if status.Started? && jb.endAt > 0 { return rows', stops', false; }
    if status.Failed? {
      rows', stops' := ReportFailed(rows, rec, tr, lc, forRecording, status.err, captionsOn, x);
      return rows', stops', true;
    }
    if jb.startAt > 0 { return rows', stops', false; }
    jb.startAt := x.now;
    if !forRecording && captionsOn && lc != null {
      lc.startAt := x.now;
      rows' := UpdateJobRow(rows', lc.Row());
    }
    rows' := UpdateJobRow(rows', jb.Row());
    return rows', stops', true;
  }

  method RecJobTimeout(rows: map<Id, Job>, rec: CallJob?, tr: CallJob?, lc: CallJob?, jobID: Id, x: Ctx)
    returns (rows': map<Id, Job>, stops': seq<Id>)
    requires Apart(rec, tr, lc) && x.now != 0
    modifies rec, tr, lc
    ensures DeskOf(rows', rec, tr, lc, stops') == RecordingTimeout(old(DeskOf(rows, rec, tr, lc, [])), jobID, x)
  {
    rows', stops' := rows, [];
    if rec == null || rec.startAt != 0 || rec.jobID != jobID { return; }
    rec.endAt, rec.err := x.now, TIMED_OUT;
    rows' := UpdateJobRow(rows', rec.Row());
    if IsLive(tr) {
      var stopped;
      rows', stops', stopped := StopTranscribingJob(rows', rec, tr, lc, stops', x);
    }
  }

  method TranscriptionJobTimeout(rows: map<Id, Job>, rec: CallJob?, tr: CallJob?, lc: CallJob?, jobID: Id,
                                 captionsOn: bool, x: Ctx)
    returns (rows': map<Id, Job>, stops': seq<Id>)
    requires Apart(rec, tr, lc) && x.now != 0
    modifies rec, tr, lc
    ensures DeskOf(rows', rec, tr, lc, stops')
      == TranscriptionTimeout(old(DeskOf(rows, rec, tr, lc, [])), jobID, captionsOn, x)
  {
    rows', stops' := rows, [];
    if tr == null || tr.startAt != 0 || tr.jobID != jobID { return; }
    tr.endAt, tr.err := x.now, TIMED_OUT;
    rows' := UpdateJobRow(rows', tr.Row());
    if captionsOn && lc != null {
      lc.endAt := x.now;
      rows' := UpdateJobRow(rows', tr.Row());
    }
    if IsLive(rec) {
      var stopped;
      rows', stops', stopped := StopRecordingJob(rows', rec, tr, lc, stops', x);
    }
  }

  method BotReconnects(rows: map<Id, Job>, rec: CallJob?, tr: CallJob?, lc: CallJob?, prev: Id, conn: Id)
    returns (rows': map<Id, Job>)
    requires Apart(rec, tr, lc)
    modifies rec, tr, lc
    ensures DeskOf(rows', rec, tr, lc, []) == ReconnectBot(old(DeskOf(rows, rec, tr, lc, [])), prev, conn)
  {
    rows' := rows;
    if rec != null && rec.botConnID == prev {
      rec.botConnID := conn;
      rows' := UpdateJobRow(rows', rec.Row());
    } else if tr != null && tr.botConnID == prev {
      tr.botConnID := conn;
      rows' := UpdateJobRow(rows', tr.Row());
      if lc != null && lc.botConnID == prev {
        lc.botConnID := conn;
        rows' := UpdateJobRow(rows', lc.Row());
      }
    }
  }
}
