/** A participating client that has loaded one snapshot holds, after every step, exactly what
    the server would send in a new snapshot. */
module Mirror {
  import opened Basics
  import opened Posts
  import opened Reducers

  function EntriesAt(c: Client, ch: Id): map<Id, Entry> {
    if ch in c.sessions then c.sessions[ch] else map[]
  }

  function GetOr(m: map<Id, Id>, ch: Id): Id { if ch in m then m[ch] else NONE }

  /** The client's view of a channel is the server's; missing maps read as empty. */
  predicate Mirrors(c: Client, ch: Id, v: ClientView) {
    && EntriesAt(c, ch) == EntriesOf(v.sessions)
    && GetOr(c.hosts, ch) == v.hostID
    && GetOr(c.screens, ch) == v.screenID
    && GetOr(c.calls, ch) == v.callID
  }

  /** A snapshot brings any client into step. */
  lemma SnapshotMirrors(c: Client, ch: Id, v: ClientView)
    ensures Mirrors(OnEvent(c, ch, Snapshot(v)), ch, v)
  {
    var a1 := [CallStateA(ch, v.callID), ScreenOnA(ch, v.screenID), HostA(ch, v.hostID),
               UsersStatesA(ch, EntriesOf(v.sessions))];
    var a2, a3, a4 := a1[1..], a1[1..][1..], a1[1..][1..][1..];
    var c1 := Dispatch(c, a1[0]);
    var c2 := Dispatch(c1, a2[0]);
    var c3 := Dispatch(c2, a3[0]);
    var c4 := Dispatch(c3, a4[0]);
    assert a4[1..] == [];
    assert DispatchAll(c3, a4) == c4;
    assert DispatchAll(c2, a3) == c4;
    assert DispatchAll(c1, a2) == c4;
  }

  lemma OtherAction(c: Client, ch: Id, a: Action, v: ClientView)
    requires !a.UninitA? && a.ch != ch && Mirrors(c, ch, v)
    ensures Mirrors(Dispatch(c, a), ch, v)
  {
  }

  /** Events of other channels leave the view of a channel alone. */
  lemma OtherChannel(c: Client, ch: Id, other: Id, e: Event, v: ClientView)
    requires other != ch && Mirrors(c, ch, v)
    ensures Mirrors(OnEvent(c, other, e), ch, v)
  {
    hide Mirrors, Dispatch;
    match e
    case CallStarted(id, h) =>
      var a := [CallStateA(other, id), HostA(other, h)];
      OtherAction(c, ch, a[0], v);
      OtherAction(Dispatch(c, a[0]), ch, a[1], v);
      assert a[1..][1..] == [];
      assert DispatchAll(Dispatch(c, a[0]), a[1..]) == Dispatch(Dispatch(c, a[0]), a[1]);
    case Snapshot(w) =>
      SnapshotSteps(c, other, w);
      var c1 := Dispatch(c, CallStateA(other, w.callID));
      var c2 := Dispatch(c1, ScreenOnA(other, w.screenID));
      var c3 := Dispatch(c2, HostA(other, w.hostID));
      OtherAction(c, ch, CallStateA(other, w.callID), v);
      OtherAction(c1, ch, ScreenOnA(other, w.screenID), v);
      OtherAction(c2, ch, HostA(other, w.hostID), v);
      OtherAction(c3, ch, UsersStatesA(other, EntriesOf(w.sessions)), v);
    case UserLeft(u, k) =>
      OtherAction(c, ch, UserLeftA(other, u, k), v);
      OtherAction(Dispatch(c, UserLeftA(other, u, k)), ch, CallEndA(other), v);
    case UserJoined(u, k) => OtherAction(c, ch, UserJoinedA(other, u, k), v);
    case Muted(u, k) => OtherAction(c, ch, MutedA(other, u, k), v);
    case Unmuted(u, k) => OtherAction(c, ch, UnmutedA(other, u, k), v);
    case VideoOn(u, k) => OtherAction(c, ch, VideoOnA(other, u, k), v);
    case VideoOff(u, k) => OtherAction(c, ch, VideoOffA(other, u, k), v);
    case RaiseHand(u, k, at) => OtherAction(c, ch, RaiseHandA(other, u, k, at), v);
    case UnraiseHand(u, k, at) => OtherAction(c, ch, LowerHandA(other, u, k, at), v);
    case ScreenOn(u, k) => OtherAction(c, ch, ScreenOnA(other, k), v);
    case ScreenOff(k) => OtherAction(c, ch, ScreenOffA(other, k), v);
    case HostChanged(h) => OtherAction(c, ch, HostA(other, h), v);
  }

  lemma SnapshotSteps(c: Client, ch: Id, v: ClientView)
    ensures OnEvent(c, ch, Snapshot(v))
         == Dispatch(Dispatch(Dispatch(Dispatch(c, CallStateA(ch, v.callID)), ScreenOnA(ch, v.screenID)),
                              HostA(ch, v.hostID)),
                     UsersStatesA(ch, EntriesOf(v.sessions)))
  {
    var a1 := [CallStateA(ch, v.callID), ScreenOnA(ch, v.screenID), HostA(ch, v.hostID),
               UsersStatesA(ch, EntriesOf(v.sessions))];
    var a2, a3, a4 := a1[1..], a1[1..][1..], a1[1..][1..][1..];
    assert a4[1..] == [];
    var c3 := Dispatch(Dispatch(Dispatch(c, a1[0]), a2[0]), a3[0]);
    assert DispatchAll(c3, a4) == Dispatch(c3, a4[0]);
    assert DispatchAll(Dispatch(Dispatch(c, a1[0]), a2[0]), a3) == Dispatch(c3, a4[0]);
    assert DispatchAll(Dispatch(c, a1[0]), a2) == Dispatch(c3, a4[0]);
  }

  // ---- one event against one change of the server's view ----

  lemma Entered(c: Client, ch: Id, v: ClientView, u: Id, k: Id)
    requires Mirrors(c, ch, v)
    ensures Mirrors(OnEvent(c, ch, UserJoined(u, k)), ch,
                    v.(sessions := v.sessions[k := ClientSession(k, u, false, 0, false)]))
  {
    assert EntriesOf(v.sessions[k := ClientSession(k, u, false, 0, false)])
      == EntriesOf(v.sessions)[k := Full(k, u, false, false, 0)];
  }

  /** Leaving: with someone else still visible, the session goes and the sharer with it. */
  lemma Left(c: Client, ch: Id, v: ClientView, u: Id, k: Id)
    requires Mirrors(c, ch, v) && v.sessions - {k} != map[] && k != NONE
    ensures Mirrors(OnEvent(c, ch, UserLeft(u, k)), ch,
                    v.(sessions := v.sessions - {k}, screenID := if v.screenID == k then NONE else v.screenID))
  {
  }

  /** An event about one known session rewrites that session. */
  lemma SessionRewritten(c: Client, ch: Id, v: ClientView, e: Event, k: Id, w: ClientSession)
    requires Mirrors(c, ch, v) && k in v.sessions
    requires match e
      case Muted(_, s) => s == k && w == v.sessions[k].(unmuted := false)
      case Unmuted(_, s) => s == k && w == v.sessions[k].(unmuted := true)
      case VideoOn(_, s) => s == k && w == v.sessions[k].(video := true)
      case VideoOff(_, s) => s == k && w == v.sessions[k].(video := false)
      case RaiseHand(_, s, at) => s == k && w == v.sessions[k].(raisedHand := at)
      case UnraiseHand(_, s, at) => s == k && w == v.sessions[k].(raisedHand := at)
      case _ => false
    ensures Mirrors(OnEvent(c, ch, e), ch, v.(sessions := v.sessions[k := w]))
  {
    assert EntriesOf(v.sessions[k := w]) == EntriesOf(v.sessions)[k := Full(w.sessionID, w.userID, w.unmuted, w.video,
                                                                            w.raisedHand)];
    assert k in EntriesOf(v.sessions);
    assert ch in c.sessions;
  }

  /** What an event about a session tells: that it is unmuted, has video, raised its hand. */
  predicate Tells(e: Event, u: Id, k: Id, unmuted: bool, video: bool, hand: int) {
    match e
    case Muted(x, s) => x == u && s == k && !unmuted && !video && hand == 0
    case Unmuted(x, s) => x == u && s == k && unmuted && !video && hand == 0
    case VideoOn(x, s) => x == u && s == k && !unmuted && video && hand == 0
    case VideoOff(x, s) => x == u && s == k && unmuted && !video && hand == 0
    case RaiseHand(x, s, at) => x == u && s == k && !unmuted && !video && hand == at
    case UnraiseHand(x, s, at) => x == u && s == k && !unmuted && !video && hand == at
    case _ => false
  }

  /** Before any snapshot of a channel the first event about a session makes an entry of what it tells; a
      video that stops makes the session an unmuted one. */
  lemma FirstHeard(c: Client, ch: Id, e: Event, u: Id, k: Id, unmuted: bool, video: bool, hand: int)
    requires ch !in c.sessions && Tells(e, u, k, unmuted, video, hand)
    ensures OnEvent(c, ch, e) == c.(sessions := c.sessions[ch := map[k := Full(k, u, unmuted, video, hand)]])
  {
  }

  /** An unknown session of a known channel gets an entry with the one field told and no more. */
  lemma OneFieldHeard(c: Client, ch: Id, e: Event, u: Id, k: Id, unmuted: bool, video: bool, hand: int)
    requires ch in c.sessions && k !in c.sessions[ch] && Tells(e, u, k, unmuted, video, hand)
    ensures ch in OnEvent(c, ch, e).sessions && k in OnEvent(c, ch, e).sessions[ch]
    ensures OnEvent(c, ch, e).sessions[ch][k] ==
      if e.Muted? || e.Unmuted? then UNDEFINED.(unmuted := Some(e.Unmuted?))
      else if e.VideoOn? || e.VideoOff? then UNDEFINED.(video := Some(e.VideoOn?))
      else UNDEFINED.(raisedHand := Some(hand))
  {
  }

  /** The start of a call is noted with its host; sessions and sharers wait for a snapshot. */
  lemma StartNoted(c: Client, ch: Id, id: Id, h: Id)
    ensures OnEvent(c, ch, CallStarted(id, h)) == c.(calls := c.calls[ch := id], hosts := c.hosts[ch := h])
  {
    var actions := [CallStateA(ch, id), HostA(ch, h)];
    assert actions[1..] == [HostA(ch, h)] && actions[1..][1..] == [];
    assert DispatchAll(Dispatch(c, actions[0]), actions[1..]) == Dispatch(Dispatch(c, actions[0]), actions[1]);
  }

  /** When the last session a client knows of leaves, the call is over for the client: it keeps neither the
      call nor its sessions, and no sharer who was that session; the host it remembers. */
  lemma LastLeft(c: Client, ch: Id, u: Id, k: Id)
    requires ch in c.sessions && c.sessions[ch].Keys == {k} && k != NONE
    ensures var d := OnEvent(c, ch, UserLeft(u, k));
      && d.sessions == c.sessions - {ch} && d.calls == c.calls - {ch} && d.hosts == c.hosts
      && GetOr(d.screens, ch) == if GetOr(c.screens, ch) == k then NONE else GetOr(c.screens, ch)
  {
    assert c.sessions[ch] - {k} == map[];
  }

  lemma HostMoved(c: Client, ch: Id, v: ClientView, h: Id)
    requires Mirrors(c, ch, v)
    ensures Mirrors(OnEvent(c, ch, HostChanged(h)), ch, v.(hostID := h))
  {
  }

  /** A screen_off that names no session leaves the client's sharer in place. */
  lemma Unshared(c: Client, ch: Id, v: ClientView, k: Option<Id>)
    requires Mirrors(c, ch, v)
    ensures Mirrors(OnEvent(c, ch, ScreenOff(k)), ch,
                    v.(screenID := if k == Some(v.screenID) then NONE else v.screenID))
  {
  }
}
