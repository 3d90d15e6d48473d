/** The in-memory call state as the handlers share it: objects that are updated in place
    (server/state.go:15-80, server/public). */
module CallStates {
  import opened Basics
  import opened Rows
  import opened Load

  class CallSession {
    const id: Id
    const callID: Id
    const userID: Id
    const joinAt: int
    var unmuted: bool
    var raisedHand: int
    var video: bool

    constructor (r: Session)
      ensures Row() == r
    {
      id, callID, userID, joinAt := r.id, r.callID, r.userID, r.joinAt;
      unmuted, raisedHand, video := r.unmuted, r.raisedHand, r.video;
    }

    function Row(): Session
      reads this
    {
      Session(id, callID, userID, joinAt, unmuted, raisedHand, video)
    }
  }

  class CallJob {
    const id: Id
    const callID: Id
    const kind: Kind
    const creatorID: Id
    const initAt: int
    var startAt: int
    var endAt: int
    var jobID: Id
    var botConnID: Id
    var err: string

    constructor (r: Job)
      ensures Row() == r
    {
      id, callID, kind, creatorID, initAt := r.id, r.callID, r.kind, r.creatorID, r.initAt;
      startAt, endAt, jobID, botConnID, err := r.startAt, r.endAt, r.jobID, r.botConnID, r.err;
    }

    function Row(): Job
      reads this
    {
      Job(id, callID, kind, creatorID, initAt, startAt, endAt, jobID, botConnID, err)
    }
  }

  function JobRow(j: CallJob?): Option<Job>
    reads j
  {
    if j == null then None else Some(j.Row())
  }

  method NewJobObject(o: Option<Job>) returns (j: CallJob?)
    ensures JobRow(j) == o && (j != null ==> fresh(j))
  {
    if o.None? { return null; }
    j := new CallJob(o.value);
  }

  /** Maps are objects of their own: two states may share one. */
  class SessionTable {
    var m: map<Id, CallSession>

    constructor ()
      ensures m == map[]
    {
      m := map[];
    }

    function Rows(): Sessions
      reads this, m.Values
    {
      map k | k in m :: m[k].Row()
    }

    function Size(): (n: nat)
      reads this, m.Values
      ensures n == |Rows()|
    {
      assert Rows().Keys == m.Keys;
      assert |Rows().Keys| == |Rows()| && |m.Keys| == |m|;
      |m|
    }

    method Insert(key: Id, r: Session)
      requires Distinct() && key !in m
      modifies this
      ensures Distinct() && m.Keys == old(m.Keys) + {key} && fresh(m[key]) && m[key].Row() == r
      ensures forall k | k in old(m) :: m[k] == old(m[k])
      ensures Rows() == old(Rows())[key := r]
    {
      var u := new CallSession(r);
      m := m[key := u];
    }

    method Remove(k: Id)
      requires Distinct()
      modifies this
      ensures Distinct() && m == old(m) - {k} && Rows() == old(Rows()) - {k}
    {
      m := m - {k};
    }

    predicate Distinct()
      reads this
    {
      forall j, k | j in m && k in m && m[j] == m[k] :: j == k
    }
  }

  lemma RowsOfNone(t: SessionTable)
    requires t.m == map[]
    ensures t.Rows() == map[] && t.Distinct()
  {
  }

  lemma OneFewer(rows: Sessions, todo: set<Id>, k: Id)
    requires k in todo && k in rows
    ensures rows - (todo - {k}) == (rows - todo)[k := rows[k]]
  {
  }

  lemma RowsAt(t: SessionTable, k: Id)
    ensures k in t.Rows() <==> k in t.m
    ensures k in t.m ==> t.Rows()[k] == t.m[k].Row()
  {
  }

  class Timers {
    var m: map<Id, int>

    constructor (m: map<Id, int>)
      ensures this.m == m
    {
      this.m := m;
    }
  }

  class Dismissals {
    var m: map<Id, bool>

    constructor (m: map<Id, bool>)
      ensures this.m == m
    {
      this.m := m;
    }
  }

  class People {
    var s: set<Id>

    constructor (s: set<Id>)
      ensures this.s == s
    {
      this.s := s;
    }
  }

  method NewSessions(rows: Sessions) returns (t: SessionTable)
    ensures fresh(t) && t.Distinct() && t.m.Keys == rows.Keys
    ensures forall k | k in t.m :: fresh(t.m[k])
    ensures t.Rows() == rows
  {
    t := new SessionTable();
    RowsOfNone(t);
    hide SessionTable.Rows, SessionTable.Distinct;
    var todo := rows.Keys;
    while todo != {}
      invariant todo <= rows.Keys && t.m.Keys == rows.Keys - todo
      invariant t.Distinct() && fresh(t) && forall k | k in t.m :: fresh(t.m[k])
      invariant t.Rows() == rows - todo
      decreases |todo|
    {
      var k :| k in todo;
      OneFewer(rows, todo, k);
      t.Insert(k, rows[k]);
      todo := todo - {k};
    }
    assert rows - {} == rows;
  }

  /** Apart from the map of video timers nothing reachable from the state existed before. */
  twostate predicate FreshButVideo(new c: CallState)
    reads c, c.sessions
  {
    && fresh(c) && fresh(c.sessions) && (c.people != null ==> fresh(c.people))
    && (c.dismissed != null ==> fresh(c.dismissed))
    && (forall k | k in c.sessions.m :: fresh(c.sessions.m[k]))
    && (c.recording != null ==> fresh(c.recording)) && (c.transcription != null ==> fresh(c.transcription))
    && (c.captions != null ==> fresh(c.captions))
  }

  class CallState {
    /** The columns of the call; the three maps below replace the ones in its properties. */
    var call: Call
    var people: People?
    var dismissed: Dismissals?
    var video: Timers?
    var sessions: SessionTable
    var recording: CallJob?
    var transcription: CallJob?
    var captions: CallJob?

    constructor (call: Call, people: People?, dismissed: Dismissals?, video: Timers?, sessions: SessionTable,
                 recording: CallJob?, transcription: CallJob?, captions: CallJob?)
      ensures this.call == call && this.people == people && this.video == video && this.sessions == sessions
      ensures this.dismissed == dismissed
      ensures this.recording == recording && this.transcription == transcription && this.captions == captions
    {
      this.call, this.people, this.dismissed, this.video, this.sessions := call, people, dismissed, video, sessions;
      this.recording, this.transcription, this.captions := recording, transcription, captions;
    }

    predicate Valid()
      reads this, sessions
    {
      && sessions.Distinct()
      && (recording != null ==> recording != transcription && recording != captions)
      && (transcription != null ==> transcription != captions)
    }

    function CallRow(): Call
      reads this`call, this`people, this`dismissed, this`video, people, dismissed, video
    {
      call.(props := call.props.(
        participants := if people == null then {} else people.s,
        dismissed := if dismissed == null then map[] else dismissed.m,
        videoStartAt := if video == null then map[] else video.m))
    }

    function JobRows(): Jobs
      reads this`recording, this`transcription, this`captions, recording, transcription, captions
    {
      Jobs(JobRow(recording), JobRow(transcription), JobRow(captions))
    }

    function View(): State
      reads this, people, dismissed, video, sessions, sessions.m.Values, recording, transcription, captions
    {
      State(CallRow(), sessions.Rows(), JobRows())
    }

    method CopyMaps() returns (p: People?, n: Dismissals?)
      ensures (p == null <==> people == null) && (p != null ==> fresh(p) && p.s == people.s)
      ensures (n == null <==> dismissed == null) && (n != null ==> fresh(n) && n.m == dismissed.m)
    {
      p, n := null, null;
      if people != null { p := new People(people.s); }
      if dismissed != null { n := new Dismissals(dismissed.m); }
    }

    /** A copy that shares nothing with the original but the map of video timers. */
    method Clone() returns (c: CallState)
      requires Valid()
      ensures c.Valid() && c.View() == View() && FreshButVideo(c)
      ensures c.video == video && (c.people == null <==> people == null) && (c.dismissed == null <==> dismissed == null)
    {
      hide SessionTable.Rows, SessionTable.Distinct, JobRow;
      var copies := NewSessions(sessions.Rows());
      var r := NewJobObject(JobRow(recording));
      var t := NewJobObject(JobRow(transcription));
      var l := NewJobObject(JobRow(captions));
      var p, n := CopyMaps();
      c := new CallState(call, p, n, video, copies, r, t, l);
      assert c.CallRow() == CallRow();
      assert c.sessions.Rows() == sessions.Rows();
      assert c.JobRows() == JobRows();
    }
  }

  /** An empty map may be nil. */
  method NewMaps(p: Props) returns (people: People?, dismissed: Dismissals?, video: Timers?)
    ensures (people == null ==> p.participants == {})
    ensures people != null ==> fresh(people) && people.s == p.participants
    ensures (dismissed == null ==> p.dismissed == map[])
    ensures dismissed != null ==> fresh(dismissed) && dismissed.m == p.dismissed
    ensures (video == null ==> p.videoStartAt == map[]) && (video != null ==> fresh(video) && video.m == p.videoStartAt)
  {
    people, dismissed, video := null, null, null;
    if p.participants != {} { people := new People(p.participants); }
    if p.dismissed != map[] { dismissed := new Dismissals(p.dismissed); }
    if p.videoStartAt != map[] { video := new Timers(p.videoStartAt); }
  }

  /** The objects for a state read from the store. */
  method NewCallState(v: State) returns (c: CallState)
    ensures c.Valid() && FreshButVideo(c)
    ensures c.video != null ==> fresh(c.video)
    ensures c.View() == v
  {
    hide SessionTable.Rows, SessionTable.Distinct;
    var copies := NewSessions(v.sessions);
    var r := NewJobObject(v.jobs.recording);
    var t := NewJobObject(v.jobs.transcription);
    var l := NewJobObject(v.jobs.captions);
    var people, dismissed, video := NewMaps(v.call.props);
    c := new CallState(v.call, people, dismissed, video, copies, r, t, l);
    assert c.CallRow() == v.call;
    assert c.sessions.Rows() == v.sessions;
    assert c.JobRows() == v.jobs;
  }
}
