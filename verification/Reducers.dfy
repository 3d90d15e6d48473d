/** The browser's copy of the calls: the sessions, hosts, screen and calls reducers, and what
    the event handlers dispatch to them (webapp/src/reducers.ts, webapp/src/websocket_handlers.ts,
    webapp/src/actions.ts). A field that JavaScript leaves undefined is None. Voice activity and
    reactions are not part of an entry. */
module Reducers {
  import opened Basics
  import opened Posts

  datatype Entry = Entry(sessionID: Option<Id>, userID: Option<Id>, unmuted: Option<bool>,
                         video: Option<bool>, raisedHand: Option<int>)

  const UNDEFINED := Entry(None, None, None, None, None)

  function Full(s: Id, u: Id, unmuted: bool, video: bool, hand: int): Entry {
    Entry(Some(s), Some(u), Some(unmuted), Some(video), Some(hand))
  }

  type SessionsState = map<Id, map<Id, Entry>>

  datatype Client = Client(sessions: SessionsState, hosts: map<Id, Id>, screens: map<Id, Id>, calls: map<Id, Id>)

  datatype Action =
    | UserJoinedA(ch: Id, user: Id, sess: Id)
    | UserLeftA(ch: Id, user: Id, sess: Id)
    | UsersStatesA(ch: Id, states: map<Id, Entry>)
    | MutedA(ch: Id, user: Id, sess: Id)
    | UnmutedA(ch: Id, user: Id, sess: Id)
    | VideoOnA(ch: Id, user: Id, sess: Id)
    | VideoOffA(ch: Id, user: Id, sess: Id)
    | RaiseHandA(ch: Id, user: Id, sess: Id, hand: int)
    | LowerHandA(ch: Id, user: Id, sess: Id, hand: int)
    | ScreenOnA(ch: Id, screen: Id)
    | ScreenOffA(ch: Id, off: Option<Id>)
    | HostA(ch: Id, host: Id)
    | CallStateA(ch: Id, callID: Id)
    | CallEndA(ch: Id)
    | UninitA

  function Old(s: SessionsState, ch: Id, sess: Id): Entry {
    if ch in s && sess in s[ch] then s[ch][sess] else UNDEFINED
  }

  /** The shape of most cases: a full entry in an unknown channel, else a rewritten one. */
  function Put(s: SessionsState, ch: Id, sess: Id, fallback: Entry, rewritten: Entry): SessionsState {
    if ch !in s then s[ch := map[sess := fallback]] else s[ch := s[ch][sess := rewritten]]
  }

  function SessionsReducer(s: SessionsState, a: Action): SessionsState {
    match a
    case UninitA => map[]
    case CallEndA(ch) => s - {ch}
    case UserJoinedA(ch, u, k) => s[ch := (if ch in s then s[ch] else map[])[k := Full(k, u, false, false, 0)]]
    case UserLeftA(ch, _, k) => if ch in s then s[ch := s[ch] - {k}] else s
    case UsersStatesA(ch, states) => s[ch := states]
    case MutedA(ch, u, k) => Put(s, ch, k, Full(k, u, false, false, 0), Old(s, ch, k).(unmuted := Some(false)))
    case UnmutedA(ch, u, k) => Put(s, ch, k, Full(k, u, true, false, 0), Old(s, ch, k).(unmuted := Some(true)))
    case VideoOnA(ch, u, k) => Put(s, ch, k, Full(k, u, false, true, 0), Old(s, ch, k).(video := Some(true)))
    case VideoOffA(ch, u, k) => Put(s, ch, k, Full(k, u, true, false, 0), Old(s, ch, k).(video := Some(false)))
    case RaiseHandA(ch, u, k, h) => Put(s, ch, k, Full(k, u, false, false, h), Old(s, ch, k).(raisedHand := Some(h)))
    case LowerHandA(ch, u, k, h) => Put(s, ch, k, Full(k, u, false, false, h), Old(s, ch, k).(raisedHand := Some(h)))
    case _ => s
  }

  function HostsReducer(h: map<Id, Id>, a: Action): map<Id, Id> {
    match a
    case UninitA => map[]
    case HostA(ch, host) => h[ch := host]
    case _ => h
  }

  function Get(m: map<Id, Id>, ch: Id): Option<Id> { if ch in m then Some(m[ch]) else None }

  function ClearIf(m: map<Id, Id>, ch: Id, sess: Option<Id>): map<Id, Id> {
    if sess != Get(m, ch) then m else m[ch := NONE]
  }

  /** Leaving clears the sharer if it matches; so does the end of the call or of the sharing,
      where a missing session ID matches only a missing sharer. */
  function ScreensReducer(m: map<Id, Id>, a: Action): map<Id, Id> {
    match a
    case UninitA => map[]
    case ScreenOnA(ch, k) => m[ch := k]
    case UserLeftA(ch, _, k) => ClearIf(m, ch, Some(k))
    case CallEndA(ch) => ClearIf(m, ch, None)
    case ScreenOffA(ch, k) => ClearIf(m, ch, k)
    case _ => m
  }

  function CallsReducer(m: map<Id, Id>, a: Action): map<Id, Id> {
    match a
    case UninitA => map[]
    case CallStateA(ch, id) => m[ch := id]
    case CallEndA(ch) => m - {ch}
    case _ => m
  }

  function Dispatch(c: Client, a: Action): Client {
    Client(SessionsReducer(c.sessions, a), HostsReducer(c.hosts, a), ScreensReducer(c.screens, a),
           CallsReducer(c.calls, a))
  }

  function DispatchAll(c: Client, actions: seq<Action>): Client
    decreases |actions|
  {
    if actions == [] then c else DispatchAll(Dispatch(c, actions[0]), actions[1..])
  }

  function NumSessions(c: Client, ch: Id): nat { if ch in c.sessions then |c.sessions[ch]| else 0 }

  function EntriesOf(states: map<Id, ClientSession>): map<Id, Entry> {
    map k | k in states :: Full(states[k].sessionID, states[k].userID, states[k].unmuted, states[k].video,
                                states[k].raisedHand)
  }

  /** What the handler of an event does to the client. */
  function OnEvent(c: Client, ch: Id, e: Event): Client {
    match e
    case UserJoined(u, k) => Dispatch(c, UserJoinedA(ch, u, k))
    case UserLeft(u, k) =>
      var c1 := Dispatch(c, UserLeftA(ch, u, k));
      if NumSessions(c1, ch) == 0 then Dispatch(c1, CallEndA(ch)) else c1
    case Muted(u, k) => Dispatch(c, MutedA(ch, u, k))
    case Unmuted(u, k) => Dispatch(c, UnmutedA(ch, u, k))
    case VideoOn(u, k) => Dispatch(c, VideoOnA(ch, u, k))
    case VideoOff(u, k) => Dispatch(c, VideoOffA(ch, u, k))
    case RaiseHand(u, k, at) => Dispatch(c, RaiseHandA(ch, u, k, at))
    case UnraiseHand(u, k, at) => Dispatch(c, LowerHandA(ch, u, k, at))
    case ScreenOn(_, k) => Dispatch(c, ScreenOnA(ch, k))
    case ScreenOff(k) => Dispatch(c, ScreenOffA(ch, k))
    case HostChanged(h) => Dispatch(c, HostA(ch, h))
    case CallStarted(id, h) => DispatchAll(c, [CallStateA(ch, id), HostA(ch, h)])
    case Snapshot(v) =>
      DispatchAll(c, [CallStateA(ch, v.callID), ScreenOnA(ch, v.screenID), HostA(ch, v.hostID),
                      UsersStatesA(ch, EntriesOf(v.sessions))])
  }

  /** A user's client handles, in order, the posts that reach the user. */
  function Receive(c: Client, posts: seq<Post>, user: Id): Client
    decreases |posts|
  {
    if posts == [] then c else
      Receive(if Reaches(posts[0], user) then OnEvent(c, posts[0].channelID, posts[0].event) else c, posts[1..], user)
  }
}
