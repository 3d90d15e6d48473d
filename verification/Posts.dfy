/** The events the handlers publish, and who receives them (server/websocket.go:121-165). */
module Posts {
  import opened Basics
  import opened Rows

  /** One session as clients see it (UserStateClient). */
  datatype ClientSession = ClientSession(sessionID: Id, userID: Id, unmuted: bool, raisedHand: int, video: bool)

  /** The part of CallStateClient that changes during a call. */
  datatype ClientView = ClientView(callID: Id, sessions: map<Id, ClientSession>, screenID: Id, hostID: Id)

  /** getStates: the bot's sessions are never exposed. */
  function StatesOf(s: Sessions, bot: Id): map<Id, ClientSession> {
    map k | k in s && s[k].userID != bot ::
      ClientSession(s[k].id, s[k].userID, s[k].unmuted, s[k].raisedHand, s[k].video)
  }

  function ViewOf(c: Call, s: Sessions, bot: Id): ClientView {
    ClientView(c.id, StatesOf(s, bot), c.props.screenID, c.Host())
  }

  datatype Event =
    | UserJoined(userID: Id, sessionID: Id)
    | UserLeft(userID: Id, sessionID: Id)
    | Muted(userID: Id, sessionID: Id)
    | Unmuted(userID: Id, sessionID: Id)
    | VideoOn(userID: Id, sessionID: Id)
    | VideoOff(userID: Id, sessionID: Id)
    | RaiseHand(userID: Id, sessionID: Id, at: int)
    | UnraiseHand(userID: Id, sessionID: Id, at: int)
    | ScreenOn(userID: Id, sessionID: Id)
    | ScreenOff(sessionOpt: Option<Id>)
    | HostChanged(hostID: Id)
    | CallStarted(callID: Id, startHost: Id)
    | Snapshot(view: ClientView)

  datatype To = ToChannel | ToUsers(users: set<Id>) | ToUser(user: Id)

  datatype Post = Post(channelID: Id, event: Event, to: To)

  function UsersOf(s: Sessions): set<Id> { set k | k in s :: s[k].userID }

  /** publishWebSocketEvent hides the bot's coming and going. */
  function Publish(bot: Id, p: Post): seq<Post> {
    if (p.event.UserJoined? || p.event.UserLeft?) && p.event.userID == bot then [] else [p]
  }

  /** A user who is a member of the channel gets a post addressed to the channel, to the user,
      or to a list of users that is empty or has the user in it. */
  predicate Reaches(p: Post, user: Id) {
    match p.to
    case ToChannel => true
    case ToUsers(us) => us == {} || user in us
    case ToUser(u) => u == user
  }
}
