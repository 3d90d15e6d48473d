/** addUserSession as it runs: on a copy of the caller's state, which it updates in place, and with
    writes that may fail, proved against the function that describes it (server/session.go:83-244).
    The store is passed along as a value. */
module JoinHandlers {
  import opened Basics
  import opened Rows
  import opened Load
  import opened JobDesk
  import opened Host
  import opened Posts
  import opened Membership
  import opened CallStates
  import opened JobHandlers

  /** The sessions in memory belong to somebody. */
  predicate Peopled(c: CallState)
    reads c`sessions, c.sessions, c.sessions.m.Values
  {
    forall k | k in c.sessions.m :: c.sessions.m[k].id == k && c.sessions.m[k].userID != NONE
  }

  /** Some order in which to iterate over the sessions. */
  method Iterate(c: CallState) returns (order: seq<Session>)
    requires Peopled(c)
    ensures Visits(order, c.sessions.Rows())
  {
    order := [];
    var t := c.sessions;
    var todo := t.m.Keys;
    while todo != {}
      invariant todo <= t.m.Keys
      invariant forall i | 0 <= i < |order| :: order[i].id in t.m.Keys - todo && t.m[order[i].id].Row() == order[i]
      invariant forall k | k in t.m.Keys - todo :: t.m[k].Row() in order
      invariant forall i, j | 0 <= i < j < |order| :: order[i].id != order[j].id
      decreases |todo|
    {
      var k :| k in todo;
      order := order + [t.m[k].Row()];
      todo := todo - {k};
    }
  }

  /** Some iteration order settles the tie; the specification is told how. */
  method ChooseHost(env: Env, c: Call, order: seq<Session>, ghost rows: Sessions) returns (h: Id)
    requires Visits(order, rows) && PeopledRows(rows)
    ensures NextHost(env, c, rows, h) == h
  {
    h := GetHostID(order, c.props.hostLocked, c.Host(), env.botID);
    EveryOrderGivesAChoice(order, rows, c.props.hostLocked, c.Host(), env.botID, h);
    PickCovers(rows, c.props.hostLocked, c.Host(), env.botID, h);
  }

  method ElectHost(env: Env, st: CallState) returns (ghost hint: Id)
    requires Peopled(st)
    modifies st`call
    ensures var h := NextHost(env, old(st.call), st.sessions.Rows(), hint);
      st.call == if h != old(st.call).Host() then old(st.call).(props := old(st.call).props.(hosts := [h]))
        else old(st.call)
  {
    hide NextHost, Visits, SessionTable.Rows, Call.Host, Peopled, PeopledRows;
    var order := Iterate(st);
    CopyPeopled(st);
    var h := ChooseHost(env, st.call, order, st.sessions.Rows());
    hint := h;
    if h != st.call.Host() { st.call := st.call.(props := st.call.props.(hosts := [h])); }
  }

  method NoteParticipant(env: Env, st: CallState, user: Id)
    modifies st`people, st.people
    ensures st.people != null && (st.people == old(st.people) || fresh(st.people))
    ensures st.people.s == (if old(st.people) == null then {} else old(st.people.s))
                           + if user != env.botID then {user} else {}
  {
    if st.people == null { st.people := new People({}); }
    if user != env.botID { st.people.s := st.people.s + {user}; }
  }

  /** The host and the participants once the session is in. */
  method Preside(env: Env, st: CallState, i: JoinIn) returns (ghost hint: Id)
    requires st.Valid() && Peopled(st)
    modifies st`call, st`people, st.people
    ensures st.Valid() && (st.people == old(st.people) || fresh(st.people))
    ensures st.sessions.Rows() == old(st.sessions.Rows()) && st.JobRows() == old(st.JobRows())
    ensures st.CallRow() == JoinCall(env, old(st.CallRow()), st.sessions.Rows(), i.(hint := hint))
  {
    hide JoinCall, NextHost, Call.Host, SessionTable.Rows;
    ghost var (c, people) := (st.call, NamesIn(st.people));
    ghost var (missed, timers) := (MissedIn(st.dismissed), TimersIn(st.video));
    hint := ElectHost(env, st);
    NoteParticipant(env, st, i.userID);
    JoinCallParts(env, c, people, missed, timers, st.sessions.Rows(), i.(hint := hint));
  }

  /** The new session, the host and the participants, in memory. */
  method Seat(env: Env, st: CallState, i: JoinIn) returns (ghost hint: Id)
    requires st.Valid() && Peopled(st) && i.userID != NONE && i.connID !in st.sessions.m
    modifies st`call, st`people, st.people, st.sessions
    ensures st.Valid() && (st.people == old(st.people) || fresh(st.people))
    ensures forall k | k in st.sessions.m ::
      (k in old(st.sessions.m) && st.sessions.m[k] == old(st.sessions.m[k])) || fresh(st.sessions.m[k])
    ensures st.View() == Seated(env, old(st.View()), i.(hint := hint))
  {
    hide JoinCall, NextHost, Call.Host;
    st.sessions.Insert(i.connID, NewSession(st.call.id, i));
    assert st.JobRows() == old(st.JobRows()) && st.CallRow() == old(st.CallRow());
    hint := Preside(env, st, i);
  }

  /** The two writes of a join. */
  method WriteJoined(s: Store, w: State, i: JoinIn, fails: set<Write>) returns (t: Store, ok: bool)
    requires i.connID in w.sessions
    ensures fails == {} ==> (t, ok) == WriteJoin(s, w, i)
    ensures CallWrite in fails ==> t == s && !ok
    ensures SessionWrite in fails ==> t.sessions == s.sessions && t.jobs == s.jobs && !ok
  {
    var s1 := if |w.sessions| == 1 then InsertCall(s, w.call) else Some(UpdateCall(s, w.call));
    if s1.None? || CallWrite in fails { return s, false; }
    var s2 := InsertSession(s1.value, w.sessions[i.connID]);
    if s2.None? || SessionWrite in fails { return s1.value, false; }
    return s2.value, true;
  }

  method SeatAndWrite(env: Env, s: Store, st: CallState, i: JoinIn, fails: set<Write>)
    returns (t: Store, published: seq<Post>, err: Option<Err>, ghost hint: Id)
    requires st.Valid() && Peopled(st) && i.userID != NONE && i.connID !in st.sessions.m
    modifies st`call, st`people, st.people, st.sessions
    ensures st.Valid() && (st.people == old(st.people) || fresh(st.people))
    ensures forall k | k in st.sessions.m ::
      (k in old(st.sessions.m) && st.sessions.m[k] == old(st.sessions.m[k])) || fresh(st.sessions.m[k])
    ensures st.View() == Seated(env, old(st.View()), i.(hint := hint)) && i.connID in st.View().sessions
    ensures published == if err.Some? then [] else HostPost(env, old(st.CallRow()), st.View().call, st.View().sessions)
    ensures fails == {} ==> (t, err.None?) == WriteJoin(s, st.View(), i)
    ensures err.Some? ==> err.value == StoreFailed
  {
    hide JoinCall, NextHost, WriteJoin;
    var host := st.call.Host();
    ghost var v := st.View();
    hint := Seat(env, st, i);
    SeatedKeeps(env, v, i.(hint := hint));
    var w := st.View();
    var ok;
    t, ok := WriteJoined(s, w, i, fails);
    if !ok { return t, [], Some(StoreFailed), hint; }
    published := if w.call.Host() != host then [Post(w.call.channelID, HostChanged(w.call.Host()),
                                                     ToUsers(UsersOf(w.sessions)))] else [];
    return t, published, None, hint;
  }

  /** The checks of a join and the bot's part in it. */
  method Prepare(env: Env, s: Store, st: CallState, i: JoinIn, fails: set<Write>) returns (t: Store, err: Option<Err>)
    requires st.Valid()
    modifies st.recording, st.transcription, st.captions
    ensures err.None? ==> i.connID !in st.sessions.m
    ensures st.CallRow() == old(st.CallRow()) && st.sessions.Rows() == old(st.sessions.Rows())
    ensures fails == {} ==> Prepared(env, s, old(st.View()), i, err, t, st.View())
  {
    hide JoinBot;
    SameSize(st.sessions);
    t, err := s, Refusal(env, st.call.endAt, i.connID in st.sessions.m, |st.sessions.m|);
    if err.Some? { return; }
    if i.userID == env.botID {
      t, err := PrepareBot(env, s, st, i, fails);
    }
  }

  method PrepareBot(env: Env, s: Store, st: CallState, i: JoinIn, fails: set<Write>)
    returns (t: Store, err: Option<Err>)
    requires st.Valid() && i.userID == env.botID
    requires Refusal(env, st.CallRow().endAt, i.connID in st.sessions.m, |st.sessions.Rows()|).None?
    modifies st.recording, st.transcription, st.captions
    ensures st.CallRow() == old(st.CallRow()) && st.sessions.Rows() == old(st.sessions.Rows())
    ensures fails == {} ==> Prepared(env, s, old(st.View()), i, err, t, st.View())
  {
    hide JoinBot, CallState.CallRow, SessionTable.Rows, BotDesk;
    ghost var v := st.View();
    RowsAt(st.sessions, i.connID);
    ghost var d := Desk(s.jobs, st.JobRows(), []);
    JoinBotStops(d, i.jobID, i.connID);
    var rows;
    rows, err := BotJoins(s.jobs, st.recording, st.transcription, st.captions, i.jobID, i.connID, fails);
    t := s.(jobs := rows);
    if fails == {} { BotPrepared(env, s, v, i, d, err, rows, st.View()); }
  }

  lemma BotPrepared(env: Env, s: Store, v: State, i: JoinIn, d: Desk, err: Option<Err>, rows: map<Id, Job>, w: State)
    requires i.userID == env.botID && Refusal(env, v.call.endAt, i.connID in v.sessions, |v.sessions|).None?
    requires d == Desk(s.jobs, v.jobs, []) && w == v.(jobs := w.jobs)
    requires match JoinBot(d, i.jobID, i.connID)
      case NoJob => err == Some(NoJobInProgress) && rows == s.jobs
      case JobStarted => err == Some(JobNotJoinable) && rows == s.jobs
      case Joined(d') => err == None && Desk(rows, w.jobs, []) == d'
    ensures Prepared(env, s, v, i, err, s.(jobs := rows), w)
  {
    hide JoinBot;
  }

  /** addUserSession on the copy: it may be modified at will. */
  method AdmitInto(env: Env, s: Store, st: CallState, i: JoinIn, fails: set<Write>)
    returns (t: Store, published: seq<Post>, err: Option<Err>, ghost hint: Id)
    requires st.Valid() && Peopled(st) && i.userID != NONE
    modifies st`call, st`people, st.people, st.sessions, st.recording, st.transcription, st.captions
    ensures st.Valid() && (st.people == old(st.people) || fresh(st.people))
    ensures forall k | k in st.sessions.m ::
      (k in old(st.sessions.m) && st.sessions.m[k] == old(st.sessions.m[k])) || fresh(st.sessions.m[k])
    ensures err.Some? ==> published == []
    ensures fails == {} ==> Outcome(env, s, old(st.View()), i.(hint := hint), err, t, st.View(), published)
  {
    hide JoinCall, NextHost, Call.Host, Admit, WriteJoin, HostPost, UsersOf, Seated, Prepared, Outcome, Session.IsValid;
    hint := NONE;
    ghost var v := st.View();
    t, err := Prepare(env, s, st, i, fails);
    ghost var (t0, w) := (t, st.View());
    if err.Some? {
      if fails == {} { PreparedRefusal(env, s, v, i, err.value, t, w, hint); }
      return t, [], err, hint;
    }
    t, published, err, hint := SeatAndWrite(env, t, st, i, fails);
    if fails == {} { Concluded(env, s, v, i, t0, w, err, t, st.View(), published, hint); }
  }

  /** The state a join works on: a copy of the caller's, or that of a new call. */
  method Working(env: Env, state: CallState?, i: JoinIn) returns (st: CallState)
    requires state != null ==> state.Valid() && Peopled(state)
    ensures st.Valid() && Peopled(st) && FreshButVideo(st)
    ensures state != null ==> st.video == state.video
    ensures st.View() == if state == null then NewState(env, i) else state.View()
  {
    hide NewState;
    if state == null {
      st := NewCallState(NewState(env, i));
      NewStatePeopled(env, i);
    } else {
      st := state.Clone();
      CopyPeopled(state);
    }
    CopyPeopled(st);
  }

  lemma NewStatePeopled(env: Env, i: JoinIn)
    ensures PeopledRows(NewState(env, i).sessions)
  {
  }

  /** addUserSession with the store as a value. */
  method AddTo(env: Env, s: Store, state: CallState?, ghost orig: Option<State>, i: JoinIn, fails: set<Write>)
    returns (ret: CallState?, t: Store, published: seq<Post>, err: Option<Err>, ghost hint: Id)
    requires (state != null ==> state.Valid() && Peopled(state)) && i.userID != NONE
    requires (orig.None? <==> state == null) && (state != null ==> state.View() == orig.value)
    ensures err.Some? ==> ret == state && published == []
    ensures err.None? ==> ret != null && ret.Valid() && FreshButVideo(ret)
    ensures err.None? ==> (state != null ==> ret.video == state.video)
    ensures fails == {} ==> err.None? ==>
      AsSpecified(env, s, orig, i.(hint := hint), err, t, Some(ret.View()), published)
    ensures fails == {} ==> err.Some? ==> AsSpecified(env, s, orig, i.(hint := hint), err, t, orig, published)
  {
    hide Admit, Outcome, AsSpecified, NewState, CallState.CallRow, CallState.JobRows, SessionTable.Rows, Peopled;
    hint := NONE;
    NotAdded(env, s, i, hint);
    if state == null && !i.mayStart { return null, s, [], Some(Forbidden), hint; }
    if state == null && i.rtcd.RtcdFailed? { return null, s, [], Some(NoRtcdHost), hint; }
    var st := Working(env, state, i);
    ghost var v := st.View();
    t, published, err, hint := AdmitInto(env, s, st, i, fails);
    ret := if err.Some? then state else st;
    if fails == {} { AddedOutcome(env, s, orig, v, i, hint, err, t, st.View(), published); }
  }

  /** What the specification says of a join. */
  ghost predicate AsSpecified(env: Env, s: Store, orig: Option<State>, i: JoinIn,
                              err: Option<Err>, t: Store, st: Option<State>, published: seq<Post>) {
    var a := AddUserSession(env, s, orig, i);
    err == a.err && t == a.store && st == a.st && published == a.posts
  }

  /** From the outcome on the copy to the one the caller sees. */
  lemma AddedOutcome(env: Env, s: Store, orig: Option<State>, v: State, i: JoinIn, hint: Id,
                     err: Option<Err>, t: Store, w: State, published: seq<Post>)
    requires orig.None? ==> i.mayStart && !i.rtcd.RtcdFailed?
    requires v == (if orig.None? then NewState(env, i) else orig.value)
    requires Outcome(env, s, v, i.(hint := hint), err, t, w, published)
    ensures AsSpecified(env, s, orig, i.(hint := hint), err, t, if err.Some? then orig else Some(w), published)
  {
    hide Admit, Outcome, AddUserSession;
    NotAdded(env, s, i, hint);
    Added(env, s, orig, i.(hint := hint));
    FromOutcome(env, s, orig, v, i.(hint := hint), err, t, w, published);
  }

  lemma Added(env: Env, s: Store, orig: Option<State>, i: JoinIn)
    requires orig.None? ==> i.mayStart && !i.rtcd.RtcdFailed?
    ensures AddUserSession(env, s, orig, i)
         == Admit(env, s, orig, if orig.Some? then orig.value else NewState(env, i), i)
  {
    hide Admit;
  }

  lemma NotAdded(env: Env, s: Store, i: JoinIn, hint: Id)
    ensures NewState(env, i.(hint := hint)) == NewState(env, i)
    ensures !i.mayStart ==> AsSpecified(env, s, None, i.(hint := hint), Some(Forbidden), s, None, [])
    ensures i.mayStart && i.rtcd.RtcdFailed? ==>
      AsSpecified(env, s, None, i.(hint := hint), Some(NoRtcdHost), s, None, [])
  {
    hide Admit;
  }

  predicate PeopledRows(rows: Sessions) { forall k | k in rows :: rows[k].id == k && rows[k].userID != NONE }

  lemma CopyPeopled(c: CallState)
    ensures Peopled(c) <==> PeopledRows(c.sessions.Rows())
  {
    var rows := c.sessions.Rows();
    forall k | k in c.sessions.m ensures c.sessions.m[k].Row() == rows[k] { }
    assert forall k :: k in rows <==> k in c.sessions.m;
  }

  /** Only the state returned with an error depends on the caller's. */
  lemma FromOutcome(env: Env, s: Store, orig: Option<State>, v: State, i: JoinIn, err: Option<Err>, t: Store, w: State,
                    published: seq<Post>)
    requires Outcome(env, s, v, i, err, t, w, published)
    ensures var a := Admit(env, s, orig, v, i);
      err == a.err && t == a.store && published == a.posts && a.st == if err.Some? then orig else Some(w)
  {
    hide BotDesk, JoinCall, WriteJoin, HostPost;
  }

  /** Whether a join is refused before anything is written. */
  function Refusal(env: Env, endAt: int, known: bool, size: nat): Option<Err> {
    if endAt > 0 then Some(CallEnded)
    else if known then Some(AlreadyConnected)
    else if env.maxParticipants != 0 && size >= env.maxParticipants then Some(LimitReached)
    else None
  }

  /** What Admit says of a join. */
  ghost predicate Outcome(env: Env, s: Store, v: State, i: JoinIn, err: Option<Err>, t: Store, w: State,
                          published: seq<Post>) {
    var a := Admit(env, s, None, v, i);
    err == a.err && t == a.store && published == a.posts && (err.None? ==> a.st == Some(w))
  }

  /** After the checks: a refusal Admit agrees with, or the desk with the bot's connection noted. */
  ghost predicate Prepared(env: Env, s: Store, v: State, i: JoinIn, err: Option<Err>, t: Store, w: State) {
    var e := Refusal(env, v.call.endAt, i.connID in v.sessions, |v.sessions|);
    if e.Some? then err == e && t == s && w == v else
      match BotDesk(env, s, v, i)
      case NoJob => err == Some(NoJobInProgress) && t == s
      case JobStarted => err == Some(JobNotJoinable) && t == s
      case Joined(d) => err == None && t == s.(jobs := d.rows) && w == v.(jobs := d.jobs) && d.stops == []
  }

  lemma PreparedRefusal(env: Env, s: Store, v: State, i: JoinIn, e: Err, t: Store, w: State, hint: Id)
    requires Prepared(env, s, v, i, Some(e), t, w)
    ensures forall published | published == [] :: Outcome(env, s, v, i.(hint := hint), Some(e), t, w, published)
  {
    hide JoinBot;
  }

  lemma Concluded(env: Env, s: Store, v: State, i: JoinIn, t: Store, w: State,
                  err: Option<Err>, u: Store, x: State, published: seq<Post>, hint: Id)
    requires Prepared(env, s, v, i, None, t, w) && x == Seated(env, w, i.(hint := hint)) && i.connID in x.sessions
    requires (u, err.None?) == WriteJoin(t, x, i) && (err.Some? ==> err.value == StoreFailed)
    requires published == if err.Some? then [] else HostPost(env, w.call, x.call, x.sessions)
    ensures Outcome(env, s, v, i.(hint := hint), err, u, x, published)
  {
    hide WriteJoin, JoinBot, NextHost, HostPost;
    WriteJoinHint(t, x, i, hint);
  }

  lemma JoinBotStops(d: Desk, jobID: Id, conn: Id)
    ensures JoinBot(d, jobID, conn).Joined? ==> JoinBot(d, jobID, conn).desk.stops == d.stops
  {
  }

  /** The tie-breaker plays no part in the writes. */
  lemma WriteJoinHint(s: Store, w: State, i: JoinIn, hint: Id)
    requires i.connID in w.sessions
    ensures WriteJoin(s, w, i) == WriteJoin(s, w, i.(hint := hint))
  {
  }

  ghost function Seated(env: Env, v: State, i: JoinIn): State {
    var sessions := v.sessions[i.connID := NewSession(v.call.id, i)];
    State(JoinCall(env, v.call, sessions, i), sessions, v.jobs)
  }

  lemma SeatedKeeps(env: Env, v: State, i: JoinIn)
    ensures var w := Seated(env, v, i); w.call.channelID == v.call.channelID && i.connID in w.sessions
  {
  }

  function NamesIn(p: People?): set<Id>
    reads p
  {
    if p == null then {} else p.s
  }

  function MissedIn(d: Dismissals?): map<Id, bool>
    reads d
  {
    if d == null then map[] else d.m
  }

  function TimersIn(t: Timers?): map<Id, int>
    reads t
  {
    if t == null then map[] else t.m
  }

  function Full(c: Call, people: set<Id>, missed: map<Id, bool>, timers: map<Id, int>): Call {
    c.(props := c.props.(participants := people, dismissed := missed, videoStartAt := timers))
  }

  /** The host and the participants may be changed one after the other. */
  lemma JoinCallParts(env: Env, c: Call, people: set<Id>, missed: map<Id, bool>, timers: map<Id, int>,
                      s: Sessions, i: JoinIn)
    ensures var h := NextHost(env, c, s, i.hint);
      var c1 := if h != c.Host() then c.(props := c.props.(hosts := [h])) else c;
      Full(c1, people + (if i.userID != env.botID then {i.userID} else {}), missed, timers)
      == JoinCall(env, Full(c, people, missed, timers), s, i)
  {
  }

  lemma SameSize(t: SessionTable)
    ensures |t.Rows()| == |t.m|
  {
    assert t.Rows().Keys == t.m.Keys;
    assert |t.Rows().Keys| == |t.Rows()| && |t.m.Keys| == |t.m|;
  }
}
