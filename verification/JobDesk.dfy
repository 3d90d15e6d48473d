/** Recording, transcription and live-caption jobs of one call, as the handlers see them under
    the call lock: the rows of the job table, the three slots of the in-memory state, and the
    stop messages sent to the job service (server/recording_api.go, server/transcription_api.go,
    server/bot_api.go). */
module JobDesk {
  import opened Basics
  import opened Rows
  import opened Load

  datatype Desk = Desk(rows: map<Id, Job>, jobs: Jobs, stops: seq<Id>)

  /** What every handler knows: the channel (the source calls it callID), the bot and the time. */
  datatype Ctx = Ctx(channelID: Id, botID: Id, now: int)

  const STOP_FAILED := "failed to stop job"

  predicate Live(o: Option<Job>) { o.Some? && o.value.endAt == 0 }

  /** StopJob of the job service refuses empty arguments and otherwise only sends a message. */
  predicate StopAccepted(x: Ctx, j: Job) {
    x.channelID != NONE && j.id != NONE && x.botID != NONE
  }

  function LiveCount(j: Jobs): nat {
    (if Live(j.recording) then 1 else 0) + (if Live(j.transcription) then 1 else 0)
  }

  function SendStop(d: Desk, j: Job): Desk { d.(stops := d.stops + [j.id]) }

  function PutRecording(d: Desk, j: Job): Desk {
    d.(rows := UpdateJobRow(d.rows, j), jobs := d.jobs.(recording := Some(j)))
  }

  function PutTranscription(d: Desk, j: Job): Desk {
    d.(rows := UpdateJobRow(d.rows, j), jobs := d.jobs.(transcription := Some(j)))
  }

  function PutCaptions(d: Desk, j: Job): Desk {
    d.(rows := UpdateJobRow(d.rows, j), jobs := d.jobs.(captions := Some(j)))
  }

  // ---- stopping: the two functions call each other ----

  function StopRecording(d: Desk, x: Ctx): (Desk, bool)
    requires x.now != 0
    decreases LiveCount(d.jobs)
  {
    if !Live(d.jobs.recording) then (d, false) else
      var r := d.jobs.recording.value.(endAt := x.now);
      var d1 := PutRecording(d, r);
      var d2 := if Live(d1.jobs.transcription) then StopTranscribing(d1, x).0 else d1;
      if !StopAccepted(x, r) then
        (d2.(jobs := d2.jobs.(recording := Some(r.(err := STOP_FAILED)))), false)
      else (SendStop(d2, r), true)
  }

  function StopTranscribing(d: Desk, x: Ctx): (Desk, bool)
    requires x.now != 0
    decreases LiveCount(d.jobs)
  {
    if !Live(d.jobs.transcription) then (d, false) else
      var t := d.jobs.transcription.value.(endAt := x.now);
      var d1 := PutTranscription(d, t);
      var d2 := if d1.jobs.captions.Some?
                then PutCaptions(d1, d1.jobs.captions.value.(endAt := x.now)) else d1;
      if !StopAccepted(x, t) then
        (d2.(jobs := d2.jobs.(transcription := Some(t.(err := STOP_FAILED)))), false)
      else
        var d3 := SendStop(d2, t);
        (if Live(d3.jobs.recording) then StopRecording(d3, x).0 else d3, true)
  }

  // ---- the bot joins and leaves ----

  datatype BotJoin = Joined(desk: Desk) | NoJob | JobStarted

  function JoinBot(d: Desk, jobID: Id, conn: Id): BotJoin {
    if d.jobs.recording.None? && d.jobs.transcription.None? then NoJob
    else if d.jobs.recording.Some? && d.jobs.recording.value.id == jobID && d.jobs.recording.value.startAt == 0 then
      Joined(PutRecording(d, d.jobs.recording.value.(botConnID := conn)))
    else if d.jobs.transcription.Some? && d.jobs.transcription.value.id == jobID
         && d.jobs.transcription.value.startAt == 0 then
      var d1 := if d.jobs.captions.Some? && d.jobs.captions.value.startAt == 0
                then PutCaptions(d, d.jobs.captions.value.(botConnID := conn)) else d;
      Joined(PutTranscription(d1, d1.jobs.transcription.value.(botConnID := conn)))
    else JobStarted
  }

  function StopIfAny(d: Desk, o: Option<Job>, x: Ctx): Desk {
    if o.Some? && StopAccepted(x, o.value) then SendStop(d, o.value) else d
  }

  /** When only the bot is left its jobs are told to stop. */
  function StopLeftovers(d: Desk, onlyBot: bool, x: Ctx): Desk {
    if onlyBot then StopIfAny(StopIfAny(d, d.jobs.recording, x), d.jobs.transcription, x) else d
  }

  function RecordingBotLeaves(d: Desk, origConn: Id, x: Ctx): Desk
    requires x.now != 0
  {
    if Live(d.jobs.recording) && origConn == d.jobs.recording.value.botConnID then
      var d1 := PutRecording(d, d.jobs.recording.value.(endAt := x.now));
      if Live(d1.jobs.transcription) then StopTranscribing(d1, x).0 else d1
    else d
  }

  function TranscribingBotLeaves(d: Desk, origConn: Id, x: Ctx): Desk
    requires x.now != 0
  {
    if Live(d.jobs.transcription) && origConn == d.jobs.transcription.value.botConnID then
      var d1 := PutTranscription(d, d.jobs.transcription.value.(endAt := x.now));
      if Live(d1.jobs.recording) then StopRecording(d1, x).0 else d1
    else d
  }

  function CaptionsBotLeaves(d: Desk, conn: Id, x: Ctx): Desk {
    if Live(d.jobs.captions) && conn == d.jobs.captions.value.botConnID
    then PutCaptions(d, d.jobs.captions.value.(endAt := x.now)) else d
  }

  /** The job part of removeUserSession (server/session.go:338-434). */
  function LeaveJobs(d: Desk, origConn: Id, conn: Id, onlyBot: bool, x: Ctx): Desk
    requires x.now != 0
  {
    CaptionsBotLeaves(
      TranscribingBotLeaves(
        RecordingBotLeaves(
          StopLeftovers(d, onlyBot, x), origConn, x), origConn, x), conn, x)
  }

  // ---- starting: a row first, then the job service without the lock, then the outcome ----

  function NewJob(id: Id, callID: Id, kind: Kind, user: Id, now: int): Job {
    Job(id, callID, kind, user, now, 0, 0, NONE, NONE, "")
  }

  /** startRecordingJob up to the release of the lock. */
  function BeginRecording(d: Desk, callID: Id, user: Id, id: Id, x: Ctx): (map<Id, Job>, bool) {
    if Live(d.jobs.recording) then (d.rows, false) else
      match InsertJobRow(d.rows, NewJob(id, callID, Recording, user, x.now))
      case None => (d.rows, false)
      case Some(rows) => (rows, true)
  }

  /** What the job service answered. */
  datatype RunResult = Ran(jobID: Id) | RunFailed(err: string)

  /** startRecordingJob after the lock is taken again; `true`: go on to the transcription. */
  function FinishRecording(d: Desk, run: RunResult, x: Ctx): (map<Id, Job>, bool) {
    match d.jobs.recording
    case None => (d.rows, false)
    case Some(r) =>
      match run
      case RunFailed(e) => (UpdateJobRow(d.rows, r.(endAt := x.now, err := e)), false)
      case Ran(id) =>
        if r.jobID != NONE then (d.rows, false) else (UpdateJobRow(d.rows, r.(jobID := id)), true)
  }

  /** startTranscribingJob up to the release of the lock. */
  function BeginTranscribing(d: Desk, callID: Id, user: Id, trID: Id, lcID: Option<Id>, x: Ctx): (map<Id, Job>, bool) {
    if Live(d.jobs.transcription) || trID == NONE then (d.rows, false) else
      match InsertJobRow(d.rows, NewJob(trID, callID, Transcribing, user, x.now))
      case None => (d.rows, false)
      case Some(rows) =>
        if lcID.None? then (rows, true) else
          match InsertJobRow(rows, NewJob(lcID.value, callID, Captioning, user, x.now))
          case None => (rows, false)
          case Some(both) => (both, true)
  }

  function FinishTranscribing(d: Desk, captionsOn: bool, run: RunResult, x: Ctx): (map<Id, Job>, bool) {
    match d.jobs.transcription
    case None => (d.rows, false)
    case Some(t) =>
      var lc := if captionsOn then d.jobs.captions else None;
      match run
      case RunFailed(e) =>
        var rows := UpdateJobRow(d.rows, t.(endAt := x.now, err := e));
        (if lc.Some? then UpdateJobRow(rows, lc.value.(endAt := x.now)) else rows, false)
      case Ran(id) =>
        if t.jobID != NONE then (d.rows, false) else
          var rows := UpdateJobRow(d.rows, t.(jobID := id));
          (if lc.Some? then UpdateJobRow(rows, lc.value.(jobID := id)) else rows, true)
  }

  // ---- the bot reports, and the two timeouts ----

  datatype Status = Started | Failed(err: string)

  /** handleBotPostJobsStatus (server/bot_api.go:450-531) for a recording or a transcription. */
  function ReportStatus(d: Desk, forRecording: bool, jobID: Id, status: Status, captionsOn: bool, x: Ctx): (Desk, bool)
    requires x.now != 0
  {
    var slot := if forRecording then d.jobs.recording else d.jobs.transcription;
    if slot.None? || slot.value.id != jobID then (d, false)
    else if status.Started? && slot.value.endAt > 0 then (d, false)
    else
      var j := slot.value;
      match status
      case Failed(e) =>
        var ended := j.(endAt := x.now, err := e);
        if forRecording then
          var d1 := d.(jobs := d.jobs.(recording := Some(ended)));
          var d2 := if d1.jobs.transcription.Some? then StopTranscribing(d1, x).0 else d1;
          (PutRecording(d2, ended), true)
        else
          var d1 := d.(jobs := d.jobs.(transcription := Some(ended)));
          var d2 := if d1.jobs.recording.Some? then StopRecording(d1, x).0 else d1;
          (PutTranscription(d2, ended), true)
      case Started =>
        if j.startAt > 0 then (d, false) else
          var started := j.(startAt := x.now);
          if forRecording then (PutRecording(d, started), true)
          else
            var d1 := if captionsOn && d.jobs.captions.Some?
                      then PutCaptions(d, d.jobs.captions.value.(startAt := x.now)) else d;
            (PutTranscription(d1, started), true)
  }

  const TIMED_OUT := "timed out waiting for bot to join call"

  function RecordingTimeout(d: Desk, jobID: Id, x: Ctx): Desk
    requires x.now != 0
  {
    if d.jobs.recording.None? || d.jobs.recording.value.startAt != 0 || d.jobs.recording.value.jobID != jobID then d
    else
      var d1 := PutRecording(d, d.jobs.recording.value.(endAt := x.now, err := TIMED_OUT));
      if Live(d1.jobs.transcription) then StopTranscribing(d1, x).0 else d1
  }

  /** The captions job is ended in memory only: the second write repeats the transcription's. */
  function TranscriptionTimeout(d: Desk, jobID: Id, captionsOn: bool, x: Ctx): Desk
    requires x.now != 0
  {
    if d.jobs.transcription.None? || d.jobs.transcription.value.startAt != 0
       || d.jobs.transcription.value.jobID != jobID then d
    else
      var t := d.jobs.transcription.value.(endAt := x.now, err := TIMED_OUT);
      var d1 := PutTranscription(d, t);
      var d2 := if captionsOn && d1.jobs.captions.Some?
                then PutTranscription(d1.(jobs := d1.jobs.(captions := Some(d1.jobs.captions.value.(endAt := x.now)))),
                                      t)
                else d1;
      if Live(d2.jobs.recording) then StopRecording(d2, x).0 else d2
  }

  /** handleBotWSReconnect (server/websocket.go:1444-1485). */
  function ReconnectBot(d: Desk, prev: Id, conn: Id): Desk {
    if d.jobs.recording.Some? && d.jobs.recording.value.botConnID == prev then
      PutRecording(d, d.jobs.recording.value.(botConnID := conn))
    else if d.jobs.transcription.Some? && d.jobs.transcription.value.botConnID == prev then
      var d1 := PutTranscription(d, d.jobs.transcription.value.(botConnID := conn));
      if d1.jobs.captions.Some? && d1.jobs.captions.value.botConnID == prev
      then PutCaptions(d1, d1.jobs.captions.value.(botConnID := conn)) else d1
    else d
  }
}
