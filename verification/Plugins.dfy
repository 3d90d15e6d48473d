/** The server: it loads the state of a channel's call, runs one handler on the objects and writes
    back. Each method is one locked section and does exactly what the machine's step says. */
module Plugins {
  import opened Basics
  import opened Rows
  import opened Load
  import opened JobDesk
  import opened Posts
  import opened Membership
  import opened Handlers
  import opened Machine
  import opened Invariant
  import opened Steps
  import opened Batches
  import opened CallStates
  import opened JobHandlers
  import opened JoinHandlers
  import opened LeaveHandlers
  import opened CallHandlers
  import opened Queries

  /** What the specification says of one item of a join. */
  ghost predicate AsJoined(env: Env, s: Store, orig: Option<State>, i: JoinIn, err: Option<Err>, t: Store,
                           st: Option<State>, published: seq<Post>) {
    var o := Join(env, s, orig, i);
    err == o.err && t == o.store && st == o.st && published == o.posts && o.stops == []
  }

  /** addSessionToCall. A refused join gives back the very state it was given, untouched. */
  method JoinItem(env: Env, s: Store, state: CallState?, ghost orig: Option<State>, i: JoinIn)
    returns (ret: CallState?, t: Store, published: seq<Post>, err: Option<Err>, ghost hint: Id)
    requires (state != null ==> state.Valid() && Peopled(state)) && i.userID != NONE
    requires (orig.None? <==> state == null) && (state != null ==> state.View() == orig.value)
    ensures err.Some? ==> ret == state && AsJoined(env, s, orig, i.(hint := hint), err, t, orig, published)
    ensures err.None? ==> ret != null && ret.Valid() && FreshButVideo(ret)
    ensures err.None? ==> (state != null ==> ret.video == state.video)
    ensures err.None? ==> AsJoined(env, s, orig, i.(hint := hint), err, t, Some(ret.View()), published)
  {
    hide AsSpecified, AsJoined, CallState.CallRow, CallState.JobRows, SessionTable.Rows, UpdateCall, ViewOf;
    ret, t, published, err, hint := AddTo(env, s, state, orig, i, {});
    if err.Some? {
      RefusedItem(env, s, orig, i.(hint := hint), err, t, published);
      return;
    }
    ghost var (t0, w, p0) := (t, ret.View(), published);
    var alone := ret.sessions.Size() == 1;
    if alone {
      SetPost(ret, i.postID, i.threadID);
      t := UpdateCall(t, ret.CallRow());
      published := published + [Post(i.channelID, CallStarted(ret.CallRow().id, ret.CallRow().Host()), ToChannel)];
    }
    published := published + Publish(env.botID, Post(i.channelID, UserJoined(i.userID, i.connID), ToChannel))
      + [Post(i.channelID, Snapshot(ViewOf(ret.CallRow(), ret.sessions.Rows(), env.botID)), ToUser(i.userID))];
    AcceptedItem(env, s, orig, i.(hint := hint), t0, w, p0, t, ret.View(), published);
  }

  method SetPost(st: CallState, postID: Id, threadID: Id)
    modifies st`call
    ensures st.CallRow() == old(st.CallRow()).(postID := postID, threadID := threadID)
  {
    st.call := st.call.(postID := postID);
    st.call := st.call.(threadID := threadID);
  }

  lemma RefusedItem(env: Env, s: Store, orig: Option<State>, i: JoinIn, err: Option<Err>, t: Store,
                    published: seq<Post>)
    requires err.Some? && AsSpecified(env, s, orig, i, err, t, orig, published)
    ensures AsJoined(env, s, orig, i, err, t, orig, published)
  {
    JoinSendsNoStops(env, s, orig, i);
  }

  lemma JoinSendsNoStops(env: Env, s: Store, orig: Option<State>, i: JoinIn)
    ensures AddUserSession(env, s, orig, i).stops == []
  {
    hide BotDesk, WriteJoin, JoinCall, HostPost;
  }

  lemma AcceptedItem(env: Env, s: Store, orig: Option<State>, i: JoinIn, t0: Store, w: State, p0: seq<Post>,
                     t: Store, x: State, published: seq<Post>)
    requires AsSpecified(env, s, orig, i, None, t0, Some(w), p0)
    requires x == (if |w.sessions| == 1 then w.(call := w.call.(postID := i.postID, threadID := i.threadID)) else w)
    requires t == (if |w.sessions| == 1 then UpdateCall(t0, x.call) else t0)
    requires published == p0 + (if |w.sessions| == 1
                                then [Post(i.channelID, CallStarted(x.call.id, x.call.Host()), ToChannel)] else [])
      + Publish(env.botID, Post(i.channelID, UserJoined(i.userID, i.connID), ToChannel))
      + [Post(i.channelID, Snapshot(ViewOf(x.call, x.sessions, env.botID)), ToUser(i.userID))]
    ensures AsJoined(env, s, orig, i, None, t, Some(x), published)
  {
    hide AddUserSession, UpdateCall, ViewOf;
  }

  // ---- the loaded state ----

  lemma LoadedPeopled(env: Env, s: Store, ch: Id)
    requires StoreOk(env, s) && Reload(s, ch).Some?
    ensures PeopledRows(Reload(s, ch).value.sessions)
  {
  }

  lemma JobKeysMatch(env: Env, s: Store)
    requires StoreOk(env, s)
    ensures forall k | k in s.jobs :: s.jobs[k].id == k
  {
    hide CallOk;
  }

  /** lockCallReturnState: what every handler starts from. */
  method LockCallReturnState(env: Env, s: Store, channelID: Id) returns (st: CallState?)
    requires StoreOk(env, s)
    ensures st == null <==> Reload(s, channelID).None?
    ensures st != null ==> st.Valid() && Peopled(st) && st.View() == Reload(s, channelID).value
    ensures st != null ==> FreshButVideo(st) && (st.video != null ==> fresh(st.video))
  {
    hide StoreOk, Reload;
    JobKeysMatch(env, s);
    st := GetCallState(s, channelID);
    if st != null {
      LoadedPeopled(env, s, channelID);
      CopyPeopled(st);
    }
  }

  /** What a step of the machine leaves behind. */
  ghost predicate Served(env: Env, s: Store, op: Op, err: Option<Err>, t: Store, published: seq<Post>, stops: seq<Id>)
    requires Runnable(op)
  {
    var o := Step(env, s, op);
    err == o.err && t == o.store && published == o.posts && stops == o.stops
  }

  class Plugin {
    const env: Env
    var store: Store
    /** The stop messages sent to the job service and the events published. */
    var stops: seq<Id>
    var posts: seq<Post>

    ghost predicate Valid()
      reads this
    {
      StoreOk(env, store)
    }

    constructor (env: Env)
      ensures Valid() && this.env == env && store == EMPTY && stops == [] && posts == []
    {
      this.env, store, stops, posts := env, EMPTY, [], [];
    }

    /** Nothing that existed before the call is modified but the store and the published events: on
        an error the caller gets back the state it passed, and nothing reachable from it has changed;
        on success a new state that shares only the video timers with it. Without store failures
        the outcome is the one of the specification. */
    method AddUserSession(state: CallState?, ghost orig: Option<State>, i: JoinIn, fails: set<Write>)
      returns (ret: CallState?, err: Option<Err>, ghost hint: Id)
      requires (orig.None? <==> state == null) && (state != null ==> state.View() == orig.value)
      requires (state != null ==> state.Valid() && Peopled(state)) && i.userID != NONE
      modifies this`store, this`posts
      ensures err.Some? ==> ret == state && posts == old(posts)
      ensures err.None? ==> ret != null && ret.Valid() && FreshButVideo(ret)
      ensures err.None? ==> (state != null ==> ret.video == state.video)
      ensures old(posts) <= posts
      ensures fails == {} ==> err.None? ==>
        AsSpecified(env, old(store), orig, i.(hint := hint), err, store, Some(ret.View()), posts[|old(posts)|..])
      ensures fails == {} ==> err.Some? ==>
        AsSpecified(env, old(store), orig, i.(hint := hint), err, store, orig, [])
    {
      hide AsSpecified;
      var t, published;
      ret, t, published, err, hint := AddTo(env, store, state, orig, i, fails);
      store, posts := t, posts + published;
    }

    method HandleJoin(i: JoinIn) returns (err: Option<Err>, ghost hint: Id)
      requires Valid() && Legal(env, store, JoinOp(i))
      modifies this
      ensures Valid() && old(posts) <= posts && old(stops) <= stops
      ensures Served(env, old(store), JoinOp(i.(hint := hint)), err, store, posts[|old(posts)|..],
                     stops[|old(stops)|..])
    {
      hide StoreOk, Join, Reload, Legal;
      var st := LockCallReturnState(env, store, i.channelID);
      LegalJoin(env, store, i);
      var ret, t, published;
      ret, t, published, err, hint := JoinItem(env, store, st, Reload(store, i.channelID), i);
      StepKeeps(env, store, JoinOp(i.(hint := hint)));
      store, posts := t, posts + published;
    }

    method HandleLeave(i: LeaveIn) returns (err: Option<Err>, ghost hint: Id)
      requires Valid() && Legal(env, store, LeaveOp(i))
      modifies this
      ensures Valid() && old(posts) <= posts && old(stops) <= stops && i.now != 0
      ensures Served(env, old(store), LeaveOp(i.(hint := hint)), err, store, posts[|old(posts)|..],
                     stops[|old(stops)|..])
    {
      hide StoreOk, Leave, Reload, Legal, CallState.CallRow, CallState.JobRows, SessionTable.Rows, Peopled, Tracks;
      var st := LockCallReturnState(env, store, i.channelID);
      hint := NONE;
      LegalLeave(env, store, i, hint);
      if st == null {
        NoCallLeaves(env, store, i.(hint := hint));
        return Some(NoCall), hint;
      }
      var t, published, told;
      t, published, told, err, hint := RemoveFrom(env, store, st, i);
      LegalLeave(env, store, i, hint);
      StepKeeps(env, store, LeaveOp(i.(hint := hint)));
      store, posts, stops := t, posts + published, stops + told;
    }

    method HandleScreen(f: From, allowed: bool, on: bool) returns (err: Option<Err>)
      requires Valid() && Legal(env, store, ScreenOp(f, allowed, on))
      modifies this
      ensures Valid() && old(posts) <= posts && stops == old(stops)
      ensures Served(env, old(store), ScreenOp(f, allowed, on), err, store, posts[|old(posts)|..], [])
    {
      hide StoreOk, Reload, Legal, ScreenHandler, VideoHandler, MuteHandler, HandHandler, ChangeHost;
      hide CallState.CallRow, CallState.JobRows, SessionTable.Rows, Peopled, Tracks;
      StepKeeps(env, store, ScreenOp(f, allowed, on));
      if !allowed {
        NotAllowedServed(env, store, f, on);
        return Some(NotAllowed);
      }
      var st := LockCallReturnState(env, store, f.channelID);
      NoCallServed(env, store, ScreenOp(f, allowed, on));
      if st == null { return Some(NoCall); }
      var t, published;
      t, published, err := Screen(store, st, f, on);
      store, posts := t, posts + published;
    }

    method HandleVideo(f: From, on: bool) returns (err: Option<Err>)
      requires Valid() && Legal(env, store, VideoOp(f, on))
      modifies this
      ensures Valid() && old(posts) <= posts && stops == old(stops)
      ensures Served(env, old(store), VideoOp(f, on), err, store, posts[|old(posts)|..], [])
    {
      hide StoreOk, Reload, Legal, ScreenHandler, VideoHandler, MuteHandler, HandHandler, ChangeHost;
      hide CallState.CallRow, CallState.JobRows, SessionTable.Rows, Peopled, Tracks;
      StepKeeps(env, store, VideoOp(f, on));
      var st := LockCallReturnState(env, store, f.channelID);
      NoCallServed(env, store, VideoOp(f, on));
      if st == null { return Some(NoCall); }
      var t, published;
      t, published, err := Video(store, st, f, on);
      store, posts := t, posts + published;
    }

    method HandleMute(f: From, unmute: bool) returns (err: Option<Err>)
      requires Valid() && Legal(env, store, MuteOp(f, unmute))
      modifies this
      ensures Valid() && old(posts) <= posts && stops == old(stops)
      ensures Served(env, old(store), MuteOp(f, unmute), err, store, posts[|old(posts)|..], [])
    {
      hide StoreOk, Reload, Legal, ScreenHandler, VideoHandler, MuteHandler, HandHandler, ChangeHost;
      hide CallState.CallRow, CallState.JobRows, SessionTable.Rows, Peopled, Tracks;
      StepKeeps(env, store, MuteOp(f, unmute));
      var st := LockCallReturnState(env, store, f.channelID);
      NoCallServed(env, store, MuteOp(f, unmute));
      if st == null { return Some(NoCall); }
      var t, published;
      t, published, err := Mute(store, st, f, unmute);
      store, posts := t, posts + published;
    }

    method HandleHand(f: From, raise: bool) returns (err: Option<Err>)
      requires Valid() && Legal(env, store, HandOp(f, raise))
      modifies this
      ensures Valid() && old(posts) <= posts && stops == old(stops)
      ensures Served(env, old(store), HandOp(f, raise), err, store, posts[|old(posts)|..], [])
    {
      hide StoreOk, Reload, Legal, ScreenHandler, VideoHandler, MuteHandler, HandHandler, ChangeHost;
      hide CallState.CallRow, CallState.JobRows, SessionTable.Rows, Peopled, Tracks;
      StepKeeps(env, store, HandOp(f, raise));
      var st := LockCallReturnState(env, store, f.channelID);
      NoCallServed(env, store, HandOp(f, raise));
      if st == null { return Some(NoCall); }
      var t, published;
      t, published, err := Hand(store, st, f, raise);
      store, posts := t, posts + published;
    }

    method ChangeHostOf(ch: Id, requester: Id, isAdmin: bool, newHost: Id) returns (err: Option<Err>)
      requires Valid() && Legal(env, store, HostOp(ch, requester, isAdmin, newHost))
      modifies this
      ensures Valid() && old(posts) <= posts && stops == old(stops)
      ensures Served(env, old(store), HostOp(ch, requester, isAdmin, newHost), err, store, posts[|old(posts)|..], [])
    {
      hide StoreOk, Reload, Legal, ScreenHandler, VideoHandler, MuteHandler, HandHandler, ChangeHost;
      hide CallState.CallRow, CallState.JobRows, SessionTable.Rows, Peopled, Tracks;
      StepKeeps(env, store, HostOp(ch, requester, isAdmin, newHost));
      var st := LockCallReturnState(env, store, ch);
      NoCallServed(env, store, HostOp(ch, requester, isAdmin, newHost));
      if st == null { return Some(NoCall); }
      var t, published;
      t, published, err := AssignHost(env, store, st, ch, requester, isAdmin, newHost);
      store, posts := t, posts + published;
    }

    /** The locked sections of the job handlers; those before and after a call to the job service are
        two of them. */
    method HandleJob(ch: Id, act: JobAct, at: int) returns (err: Option<Err>)
      requires Valid() && Legal(env, store, JobOp(ch, act, at))
      modifies this
      ensures Valid() && posts == old(posts) && old(stops) <= stops
      ensures Served(env, old(store), JobOp(ch, act, at), err, store, [], stops[|old(stops)|..])
    {
      hide StoreOk, Reload, Legal, Machine.JobRows, JobStops;
      StepKeeps(env, store, JobOp(ch, act, at));
      var st := LockCallReturnState(env, store, ch);
      NoCallServed(env, store, JobOp(ch, act, at));
      if st == null { return Some(NoCall); }
      var rows, told := RunJob(store.jobs, st, act, Ctx(ch, env.botID, at));
      store, stops := store.(jobs := rows), stops + told;
      return None;
    }

    /** A batch of joins: one load, one lock, the state handed from item to item. It does what the
        items would do one at a time, each locking and loading for itself. */
    method HandleJoinBatch(ch: Id, items: seq<JoinIn>) returns (errs: seq<Option<Err>>, ghost hinted: seq<JoinIn>)
      requires Valid() && forall i | i in items :: i.userID != NONE
      modifies this
      ensures SameButHints(items, hinted) && stops == old(stops)
      ensures Batch(env, old(store), Reload(old(store), ch), hinted, errs, store, old(posts), posts)
      ensures JoinsLegal(env, old(store), ch, hinted) ==>
        OneByOne(env, old(store), hinted, errs, store, old(posts), posts)
    {
      hide StoreOk, Join, Reload, AsJoined, Batch, CallState.CallRow, CallState.JobRows, SessionTable.Rows, Peopled;
      hide JoinsLegal;
      hide Held, OneByOne, FreshButVideo, SameButHints;
      var state := LockCallReturnState(env, store, ch);
      ghost var (s0, st0) := (store, Reload(store, ch));
      ghost var held := st0;
      errs, hinted := [], [];
      NoItems(env, s0, st0, posts);
      assert SameButHints(items[..0], hinted) by { HintedNone(items); }
      for k := 0 to |items|
        invariant SameButHints(items[..k], hinted) && stops == old(stops)
        invariant (held.None? <==> state == null)
        invariant state != null ==> state.Valid() && Peopled(state) && state.View() == held.value
        invariant Batch(env, s0, st0, hinted, errs, store, old(posts), posts) && held == Held(env, s0, st0, hinted)
      {
        var ret, t, published, err;
        ghost var hint;
        ret, t, published, err, hint := JoinItem(env, store, state, held, items[k]);
        ghost var held' := if err.Some? then held else Some(ret.View());
        if err.None? { JoinedPeopled(env, store, held, items[k].(hint := hint), err, t, ret, published, state); }
        OneMoreItem(env, s0, st0, hinted, errs, store, old(posts), posts, items[k].(hint := hint), err, t, held',
                    published);
        HintedOneMore(items, k, hinted, hint);
        errs, hinted := errs + [err], hinted + [items[k].(hint := hint)];
        state, held := ret, held';
        store, posts := t, posts + published;
      }
      assert items[..|items|] == items;
      if JoinsLegal(env, s0, ch, hinted) { BatchIsOneByOne(env, s0, ch, hinted, errs, store, old(posts), posts); }
    }

    /** A batch of leaves: every item modifies the one state that was loaded. It agrees with the items
        done one at a time up to captions jobs and repeated stop messages; in the captions jobs too, up to
        their end stamps, exactly when no two items end one captions job each. */
    method HandleLeaveBatch(ch: Id, items: seq<LeaveIn>) returns (errs: seq<Option<Err>>, ghost hinted: seq<LeaveIn>)
      requires Valid() && forall i | i in items :: i.now != 0
      modifies this
      ensures SameLeaves(items, hinted) && old(posts) <= posts && old(stops) <= stops
      ensures LeaveBatch(env, old(store), Reload(old(store), ch), hinted, errs, store, posts[|old(posts)|..],
                         stops[|old(stops)|..])
      ensures LeavesLegal(env, old(store), ch, hinted) ==>
        LeavesAsSingle(env, old(store), ch, hinted, false)
      ensures LeavesLegal(env, old(store), ch, hinted) ==>
        (LeavesAsSingle(env, old(store), ch, hinted, true)
         <==> !EndsTwoLoaded(old(store), Reload(old(store), ch), hinted))
    {
      hide StoreOk, Leave, Reload, AsLeft, LeaveBatch, CallState.CallRow, CallState.JobRows, SessionTable.Rows, Peopled;
      hide LeavesLegal, HeldAfter, OutcomesAgree, StoresAgree, FreshButVideo, EndsTwoLoaded;
      var state := LockCallReturnState(env, store, ch);
      ghost var (s0, st0) := (store, Reload(store, ch));
      ghost var held := st0;
      var t, published, told := store, [], [];
      errs, hinted := [], [];
      NoLeaves(env, s0, st0);
      if state != null { FreshParts(state); }
      for k := 0 to |items|
        invariant SameLeaves(items[..k], hinted) && store == s0 && posts == old(posts) && stops == old(stops)
        invariant held.None? <==> state == null
        invariant state != null ==> state.Valid() && Peopled(state) && state.View() == held.value
        invariant state != null ==> fresh(state) && fresh(state.sessions)
        invariant state != null ==> (state.video != null ==> fresh(state.video))
        invariant state != null ==> (state.recording != null ==> fresh(state.recording))
        invariant state != null ==> (state.transcription != null ==> fresh(state.transcription))
        invariant state != null ==> (state.captions != null ==> fresh(state.captions))
        invariant LeaveBatch(env, s0, st0, hinted, errs, t, published, told) && held == HeldAfter(env, s0, st0, hinted)
      {
        var err, t', p', s';
        ghost var hint := NONE;
        if state == null {
          NilLeaves(env, t, items[k].(hint := hint));
          t', p', s', err := t, [], [], Some(NoCall);
        } else {
          t', p', s', err, hint := RemoveFrom(env, t, state, items[k]);
        }
        ghost var held' := if state == null then None else Some(state.View());
        OneMoreLeave(env, s0, st0, hinted, errs, t, published, told, items[k].(hint := hint), err, t', held', p', s');
        errs, hinted := errs + [err], hinted + [items[k].(hint := hint)];
        held, t, published, told := held', t', published + p', told + s';
      }
      assert items[..|items|] == items;
      store, posts, stops := t, posts + published, stops + told;
      if LeavesLegal(env, s0, ch, hinted) {
        BatchedLeavesRefineSingle(env, s0, ch, hinted);
      }
    }
  }

  // ---- batches ----

  ghost predicate SameButHints(items: seq<JoinIn>, hinted: seq<JoinIn>) {
    |items| == |hinted| && forall k | 0 <= k < |items| :: hinted[k] == items[k].(hint := hinted[k].hint)
  }

  lemma HintedNone(items: seq<JoinIn>)
    ensures SameButHints(items[..0], [])
  {
  }

  lemma HintedOneMore(items: seq<JoinIn>, k: nat, hinted: seq<JoinIn>, hint: Id)
    requires k < |items| && SameButHints(items[..k], hinted)
    ensures SameButHints(items[..k + 1], hinted + [items[k].(hint := hint)])
  {
  }

  /** The state after a batch. */
  ghost function Held(env: Env, s: Store, st: Option<State>, items: seq<JoinIn>): Option<State> {
    var outs := BatchJoins(env, s, st, items);
    if outs == [] then st else outs[|outs| - 1].st
  }

  ghost function Posted(outs: seq<Out>): seq<Post> {
    if outs == [] then [] else Posted(outs[..|outs| - 1]) + outs[|outs| - 1].posts
  }

  ghost predicate Result(outs: seq<Out>, s: Store, errs: seq<Option<Err>>, t: Store, before: seq<Post>,
                         after: seq<Post>) {
    && |errs| == |outs| && (forall k | 0 <= k < |outs| :: errs[k] == outs[k].err)
    && t == LastStore(s, outs) && after == before + Posted(outs)
  }

  ghost predicate Batch(env: Env, s: Store, st: Option<State>, items: seq<JoinIn>, errs: seq<Option<Err>>, t: Store,
                        before: seq<Post>, after: seq<Post>) {
    Result(BatchJoins(env, s, st, items), s, errs, t, before, after)
  }

  /** The same items, each in a locked section of its own. */
  ghost predicate OneByOne(env: Env, s: Store, items: seq<JoinIn>, errs: seq<Option<Err>>, t: Store,
                           before: seq<Post>, after: seq<Post>) {
    Result(SingleJoins(env, s, items), s, errs, t, before, after)
  }

  lemma NoItems(env: Env, s: Store, st: Option<State>, posts: seq<Post>)
    ensures Batch(env, s, st, [], [], s, posts, posts) && Held(env, s, st, []) == st
  {
  }

  lemma {:induction false} BatchAppend(env: Env, s: Store, st: Option<State>, items: seq<JoinIn>, i: JoinIn)
    ensures BatchJoins(env, s, st, items + [i])
         == BatchJoins(env, s, st, items) + [Join(env, LastStore(s, BatchJoins(env, s, st, items)),
                                                  Held(env, s, st, items), i)]
    decreases |items|
  {
    hide Join;
    if items == [] {
      assert [i][1..] == [];
      assert items + [i] == [i];
    } else {
      var o := Join(env, s, st, items[0]);
      assert (items + [i])[0] == items[0] && (items + [i])[1..] == items[1..] + [i];
      BatchAppend(env, o.store, o.st, items[1..], i);
    }
  }

  lemma OneMoreItem(env: Env, s: Store, st: Option<State>, items: seq<JoinIn>, errs: seq<Option<Err>>, t: Store,
                    before: seq<Post>, after: seq<Post>, i: JoinIn, err: Option<Err>, t': Store,
                    held: Option<State>, published: seq<Post>)
    requires Batch(env, s, st, items, errs, t, before, after)
    requires AsJoined(env, t, Held(env, s, st, items), i, err, t', held, published)
    ensures Batch(env, s, st, items + [i], errs + [err], t', before, after + published)
    ensures Held(env, s, st, items + [i]) == held
  {
    hide Join, BatchJoins;
    BatchAppend(env, s, st, items, i);
    var outs := BatchJoins(env, s, st, items);
    var more := BatchJoins(env, s, st, items + [i]);
    assert more[..|more| - 1] == outs;
  }

  lemma BatchIsOneByOne(env: Env, s: Store, ch: Id, items: seq<JoinIn>, errs: seq<Option<Err>>, t: Store,
                        before: seq<Post>, after: seq<Post>)
    requires StoreOk(env, s) && JoinsLegal(env, s, ch, items)
    requires Batch(env, s, Reload(s, ch), items, errs, t, before, after)
    ensures OneByOne(env, s, items, errs, t, before, after)
  {
    hide StoreOk, JoinsLegal, Result;
    BatchedJoinsRefineSingle(env, s, ch, items);
  }

  lemma JoinedPeopled(env: Env, s: Store, orig: Option<State>, i: JoinIn, err: Option<Err>, t: Store, ret: CallState,
                      published: seq<Post>, state: CallState?)
    requires err.None? && AsJoined(env, s, orig, i, err, t, Some(ret.View()), published) && i.userID != NONE
    requires (orig.None? <==> state == null) && (state != null ==> Peopled(state) && state.View() == orig.value)
    ensures Peopled(ret)
  {
    hide CallState.CallRow, CallState.JobRows, SessionTable.Rows, Peopled, AsJoined;
    if state != null { CopyPeopled(state); }
    CopyPeopled(ret);
    JoinedRows(env, s, orig, i, err, t, ret.View(), published);
  }

  lemma JoinedRows(env: Env, s: Store, orig: Option<State>, i: JoinIn, err: Option<Err>, t: Store, w: State,
                   published: seq<Post>)
    requires err.None? && AsJoined(env, s, orig, i, err, t, Some(w), published) && i.userID != NONE
    requires orig.Some? ==> PeopledRows(orig.value.sessions)
    ensures PeopledRows(w.sessions)
  {
    hide BotDesk, WriteJoin, JoinCall, HostPost;
  }

  method RunJob(jobs: map<Id, Job>, st: CallState, act: JobAct, x: Ctx) returns (rows: map<Id, Job>, told: seq<Id>)
    requires st.Valid() && x.now != 0
    modifies st.recording, st.transcription, st.captions
    ensures rows == Machine.JobRows(Desk(jobs, old(st.JobRows()), []), old(st.CallRow()), act, x)
    ensures told == JobStops(Desk(jobs, old(st.JobRows()), []), old(st.CallRow()), act, x)
  {
    hide StopRecording, RecordingTimeout, TranscriptionTimeout, ReconnectBot, ReportStatus;
    hide BeginRecording, FinishRecording, BeginTranscribing, FinishTranscribing;
    var (rec, tr, lc, c) := (st.recording, st.transcription, st.captions, st.CallRow());
    var ok;
    rows, told := jobs, [];
    match act
    case BeginRec(user, id) =>
      if user == c.Host() { rows, ok := BeginRecordingJob(jobs, rec, c.id, user, id, x.now); }
    case FinishRec(run) => rows, ok := FinishRecordingJob(jobs, rec, run, x.now);
    case BeginTr(user, trID, lcID) => rows, ok := BeginTranscribingJob(jobs, tr, c.id, user, trID, lcID, x.now);
    case FinishTr(captions, run) => rows, ok := FinishTranscribingJob(jobs, tr, lc, captions, run, x.now);
    case StopRec(user) =>
      if user == c.Host() { rows, told, ok := StopRecordingJob(jobs, rec, tr, lc, [], x); }
    case Report(forRec, id, status, captions) =>
      rows, told, ok := ReportJobStatus(jobs, rec, tr, lc, forRec, id, status, captions, x);
    case RecTimeout(id) => rows, told := RecJobTimeout(jobs, rec, tr, lc, id, x);
    case TrTimeout(id, captions) => rows, told := TranscriptionJobTimeout(jobs, rec, tr, lc, id, captions, x);
    case BotReconnect(prev, conn) => rows := BotReconnects(jobs, rec, tr, lc, prev, conn);
  }

  lemma NoCallServed(env: Env, s: Store, op: Op)
    requires Legal(env, s, op) && Runnable(op) && !op.JoinOp? && (op.ScreenOp? ==> op.allowed)
    ensures Reload(s, Channel(op)).None? ==> Served(env, s, op, Some(NoCall), s, [], [])
  {
    hide Reload, Machine.JobRows, JobStops;
  }

  lemma NotAllowedServed(env: Env, s: Store, f: From, on: bool)
    ensures Served(env, s, ScreenOp(f, false, on), Some(NotAllowed), s, [], [])
  {
    hide Reload;
  }

  lemma LegalJoin(env: Env, s: Store, i: JoinIn)
    requires Legal(env, s, JoinOp(i))
    ensures i.userID != NONE && forall h :: Legal(env, s, JoinOp(i.(hint := h)))
  {
    hide Reload;
  }

  lemma LegalLeave(env: Env, s: Store, i: LeaveIn, hint: Id)
    requires Legal(env, s, LeaveOp(i))
    ensures i.now != 0 && Legal(env, s, LeaveOp(i.(hint := hint)))
  {
  }

  lemma NoCallLeaves(env: Env, s: Store, i: LeaveIn)
    requires i.now != 0 && Reload(s, i.channelID).None?
    ensures Served(env, s, LeaveOp(i), Some(NoCall), s, [], [])
  {
    hide Reload;
  }

  ghost predicate SameLeaves(items: seq<LeaveIn>, hinted: seq<LeaveIn>) {
    && |items| == |hinted| && (forall k | 0 <= k < |items| :: hinted[k] == items[k].(hint := hinted[k].hint))
    && forall i | i in hinted :: i.now != 0
  }

  ghost function HeldAfter(env: Env, s: Store, st: Option<State>, items: seq<LeaveIn>): Option<State>
    requires forall i | i in items :: i.now != 0
  {
    var outs := BatchLeaves(env, s, st, items);
    if outs == [] then st else outs[|outs| - 1].st
  }

  ghost function Told(outs: seq<Out>): seq<Id> {
    if outs == [] then [] else Told(outs[..|outs| - 1]) + outs[|outs| - 1].stops
  }

  /** The batch agrees with its items, each in a locked section of its own. */
  ghost predicate LeavesAsSingle(env: Env, s: Store, ch: Id, items: seq<LeaveIn>, withCaptions: bool)
    requires forall i | i in items :: i.now != 0
  {
    OutcomesAgree(s, BatchLeaves(env, s, Reload(s, ch), items), SingleLeaves(env, s, items), withCaptions)
  }

  ghost predicate LeaveBatch(env: Env, s: Store, st: Option<State>, items: seq<LeaveIn>, errs: seq<Option<Err>>,
                             t: Store,
                             published: seq<Post>, told: seq<Id>)
    requires forall i | i in items :: i.now != 0
  {
    var outs := BatchLeaves(env, s, st, items);
    && |errs| == |outs| && (forall k | 0 <= k < |outs| :: errs[k] == outs[k].err)
    && t == LastStore(s, outs) && published == Posted(outs) && told == Told(outs)
  }

  /** What is new about a loaded state. */
  twostate lemma FreshParts(new st: CallState)
    requires FreshButVideo(st)
    ensures fresh(st) && fresh(st.sessions) && (st.recording != null ==> fresh(st.recording))
    ensures (st.transcription != null ==> fresh(st.transcription)) && (st.captions != null ==> fresh(st.captions))
  {
  }

  lemma NoLeaves(env: Env, s: Store, st: Option<State>)
    ensures LeaveBatch(env, s, st, [], [], s, [], []) && HeldAfter(env, s, st, []) == st
  {
  }

  lemma NilLeaves(env: Env, s: Store, i: LeaveIn)
    requires i.now != 0
    ensures AsLeft(env, s, None, i, Some(NoCall), s, None, [], [])
  {
  }

  lemma {:induction false} LeavesAppend(env: Env, s: Store, st: Option<State>, items: seq<LeaveIn>, i: LeaveIn)
    requires forall x | x in items + [i] :: x.now != 0
    ensures forall x | x in items :: x in items + [i]
    ensures i.now != 0
    ensures BatchLeaves(env, s, st, items + [i])
         == BatchLeaves(env, s, st, items) + [Leave(env, LastStore(s, BatchLeaves(env, s, st, items)),
                                                    HeldAfter(env, s, st, items), i)]
    decreases |items|
  {
    hide Leave;
    assert i in items + [i];
    if items == [] {
      assert [i][1..] == [];
      assert items + [i] == [i];
    } else {
      var o := Leave(env, s, st, items[0]);
      assert (items + [i])[0] == items[0] && (items + [i])[1..] == items[1..] + [i];
      LeavesAppend(env, o.store, o.st, items[1..], i);
    }
  }

  lemma OneMoreLeave(env: Env, s: Store, st: Option<State>, items: seq<LeaveIn>, errs: seq<Option<Err>>, t: Store,
                     published: seq<Post>, told: seq<Id>, i: LeaveIn, err: Option<Err>, t': Store, held: Option<State>,
                     p': seq<Post>, s': seq<Id>)
    requires (forall x | x in items :: x.now != 0) && i.now != 0
    requires LeaveBatch(env, s, st, items, errs, t, published, told)
    requires AsLeft(env, t, HeldAfter(env, s, st, items), i, err, t', held, p', s')
    ensures forall x | x in items + [i] :: x.now != 0
    ensures LeaveBatch(env, s, st, items + [i], errs + [err], t', published + p', told + s')
    ensures HeldAfter(env, s, st, items + [i]) == held
  {
    hide Leave, BatchLeaves;
    LeavesAppend(env, s, st, items, i);
    var outs := BatchLeaves(env, s, st, items);
    var more := BatchLeaves(env, s, st, items + [i]);
    assert more[..|more| - 1] == outs;
  }
}
