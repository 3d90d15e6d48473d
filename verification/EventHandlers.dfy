/** The browser's handling of the server's events as it runs: each handler dispatches actions to
    the one store, in order (webapp/src/websocket_handlers.ts, webapp/src/actions.ts). */
module EventHandlers {
  import opened Basics
  import opened Posts
  import opened Reducers

  class ClientStore {
    var state: Client

    constructor ()
      ensures state == Client(map[], map[], map[], map[])
    {
      state := Client(map[], map[], map[], map[]);
    }

    /** Every reducer sees every action. */
    method DispatchAction(a: Action)
      modifies this
      ensures state == Dispatch(old(state), a)
    {
      state := Client(SessionsReducer(state.sessions, a), HostsReducer(state.hosts, a),
                      ScreensReducer(state.screens, a), CallsReducer(state.calls, a));
    }

    method DispatchBatch(actions: seq<Action>)
      modifies this
      ensures state == DispatchAll(old(state), actions)
    {
      ghost var before := state;
      for k := 0 to |actions|
        invariant DispatchAll(state, actions[k..]) == DispatchAll(before, actions)
      {
        assert actions[k..][1..] == actions[k + 1..];
        DispatchAction(actions[k]);
      }
      assert actions[|actions|..] == [];
    }

    /** The last visible session ends the call for this client; the action reads the state back. */
    method UserLeaves(ch: Id, user: Id, sess: Id)
      modifies this
      ensures state == OnEvent(old(state), ch, Event.UserLeft(user, sess))
    {
      DispatchAction(UserLeftA(ch, user, sess));
      if NumSessions(state, ch) == 0 { DispatchAction(CallEndA(ch)); }
    }

    method LoadCallState(ch: Id, v: ClientView)
      modifies this
      ensures state == OnEvent(old(state), ch, Snapshot(v))
    {
      var actions := [CallStateA(ch, v.callID)];
      actions := actions + [ScreenOnA(ch, v.screenID)];
      actions := actions + [HostA(ch, v.hostID)];
      actions := actions + [UsersStatesA(ch, EntriesOf(v.sessions))];
      assert actions == [CallStateA(ch, v.callID), ScreenOnA(ch, v.screenID), HostA(ch, v.hostID),
                         UsersStatesA(ch, EntriesOf(v.sessions))];
      DispatchBatch(actions);
    }

    method CallStarts(ch: Id, id: Id, host: Id)
      modifies this
      ensures state == OnEvent(old(state), ch, Event.CallStarted(id, host))
    {
      ghost var before := state;
      DispatchAction(CallStateA(ch, id));
      DispatchAction(HostA(ch, host));
      TwoActions(before, CallStateA(ch, id), HostA(ch, host));
    }

    method HandleEvent(ch: Id, e: Event)
      modifies this
      ensures state == OnEvent(old(state), ch, e)
    {
      match e
      case UserJoined(u, k) => DispatchAction(UserJoinedA(ch, u, k));
      case UserLeft(u, k) => UserLeaves(ch, u, k);
      case Muted(u, k) => DispatchAction(MutedA(ch, u, k));
      case Unmuted(u, k) => DispatchAction(UnmutedA(ch, u, k));
      case VideoOn(u, k) => DispatchAction(VideoOnA(ch, u, k));
      case VideoOff(u, k) => DispatchAction(VideoOffA(ch, u, k));
      case RaiseHand(u, k, at) => DispatchAction(RaiseHandA(ch, u, k, at));
      case UnraiseHand(u, k, at) => DispatchAction(LowerHandA(ch, u, k, at));
      case ScreenOn(_, k) => DispatchAction(ScreenOnA(ch, k));
      case ScreenOff(k) => DispatchAction(ScreenOffA(ch, k));
      case HostChanged(h) => DispatchAction(HostA(ch, h));
      case CallStarted(id, h) => CallStarts(ch, id, h);
      case Snapshot(v) => LoadCallState(ch, v);
    }

    /** The posts that reach the user, one after the other. */
    method HandlePosts(posts: seq<Post>, user: Id)
      modifies this
      ensures state == Receive(old(state), posts, user)
    {
      ghost var before := state;
      for k := 0 to |posts|
        invariant Receive(state, posts[k..], user) == Receive(before, posts, user)
      {
        assert posts[k..][1..] == posts[k + 1..];
        if Reaches(posts[k], user) { HandleEvent(posts[k].channelID, posts[k].event); }
      }
      assert posts[|posts|..] == [];
    }
  }

  lemma TwoActions(c: Client, a: Action, b: Action)
    ensures DispatchAll(c, [a, b]) == Dispatch(Dispatch(c, a), b)
  {
    assert [a, b][1..] == [b] && [b][1..] == [];
    assert DispatchAll(Dispatch(Dispatch(c, a), b), []) == Dispatch(Dispatch(c, a), b);
    assert DispatchAll(Dispatch(c, a), [b]) == Dispatch(Dispatch(c, a), b);
  }
}
