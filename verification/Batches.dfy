/** Batched joins and leaves: one lock and one load for a whole batch, the state passed from
    item to item, against one locked section per item (server/websocket.go:981-1042,
    server/session.go:571-632). */
module Batches {
  import opened Basics
  import opened Rows
  import opened Load
  import opened JobDesk
  import opened JobFacts
  import opened JobRuns
  import opened Membership
  import opened Machine
  import opened Invariant
  import opened Steps
  import opened WriteThrough
  import opened History
  import opened Captions

  // ---- joins ----

  /** The outcomes of a batch: each item gets the state the previous one returned. */
  ghost function BatchJoins(env: Env, s: Store, st: Option<State>, items: seq<JoinIn>): seq<Out>
    decreases |items|
  {
    if items == [] then [] else
      var o := Join(env, s, st, items[0]);
      [o] + BatchJoins(env, o.store, o.st, items[1..])
  }

  /** The outcomes of the same joins, each locking and loading for itself. */
  ghost function SingleJoins(env: Env, s: Store, items: seq<JoinIn>): seq<Out>
    decreases |items|
  {
    if items == [] then [] else
      var o := Step(env, s, JoinOp(items[0]));
      [o] + SingleJoins(env, o.store, items[1..])
  }

  ghost predicate JoinsLegal(env: Env, s: Store, ch: Id, items: seq<JoinIn>)
    decreases |items|
  {
    items == [] ||
    (items[0].channelID == ch && Legal(env, s, JoinOp(items[0]))
     && JoinsLegal(env, Step(env, s, JoinOp(items[0])).store, ch, items[1..]))
  }

  /** Batching joins is invisible: item by item the same store, the same in-memory state, the
      same acceptance or refusal and the same events. */
  lemma {:induction false} BatchedJoinsRefineSingle(env: Env, s: Store, ch: Id, items: seq<JoinIn>)
    requires StoreOk(env, s) && JoinsLegal(env, s, ch, items)
    ensures BatchJoins(env, s, Reload(s, ch), items) == SingleJoins(env, s, items)
    decreases |items|
  {
    hide StoreOk, Join, Reload;
    if items != [] {
      JoinWrittenThrough(env, s, items[0]);
      StepKeeps(env, s, JoinOp(items[0]));
      BatchedJoinsRefineSingle(env, Step(env, s, JoinOp(items[0])).store, ch, items[1..]);
    }
  }

  /** The store after a batch. */
  ghost function LastStore(s: Store, outs: seq<Out>): Store {
    if outs == [] then s else outs[|outs| - 1].store
  }

  // ---- leaves ----

  ghost function BatchLeaves(env: Env, s: Store, st: Option<State>, items: seq<LeaveIn>): seq<Out>
    requires forall i | i in items :: i.now != 0
    decreases |items|
  {
    if items == [] then [] else
      var o := Leave(env, s, st, items[0]);
      [o] + BatchLeaves(env, o.store, o.st, items[1..])
  }

  ghost function SingleLeaves(env: Env, s: Store, items: seq<LeaveIn>): seq<Out>
    requires forall i | i in items :: i.now != 0
    decreases |items|
  {
    if items == [] then [] else
      var o := Step(env, s, LeaveOp(items[0]));
      [o] + SingleLeaves(env, o.store, items[1..])
  }

  /** Every leave is legal where single processing meets it. */
  ghost predicate LeavesLegal(env: Env, s: Store, ch: Id, items: seq<LeaveIn>)
    requires forall i | i in items :: i.now != 0
    decreases |items|
  {
    items == [] ||
    (items[0].channelID == ch && Legal(env, s, LeaveOp(items[0]))
     && LeavesLegal(env, Step(env, s, LeaveOp(items[0])).store, ch, items[1..]))
  }

  /** Recordings and transcriptions agree exactly; captions, if they are compared at all, up to the
      moment they ended. */
  ghost predicate JobsAgree(a: map<Id, Job>, b: map<Id, Job>, withCaptions: bool) {
    && (forall k :: k in a <==> k in b)
    && (forall k | k in a ::
          && a[k].kind == b[k].kind && a[k].callID == b[k].callID
          && (a[k].kind != Captioning ==> a[k] == b[k])
          && (withCaptions ==> a[k].(endAt := 0) == b[k].(endAt := 0) && (a[k].endAt == 0 <==> b[k].endAt == 0)))
  }

  ghost predicate StoresAgree(a: Store, b: Store, withCaptions: bool) {
    a.calls == b.calls && a.sessions == b.sessions && JobsAgree(a.jobs, b.jobs, withCaptions)
  }

  /** Every stop message of single processing is sent by the batch; what the batch sends beyond
      that goes to jobs that had already ended. */
  ghost predicate StopsAgree(before: Store, batch: seq<Id>, single: seq<Id>) {
    && (forall id | id in single :: id in batch)
    && (forall id | id in batch && id !in single :: id in before.jobs && before.jobs[id].endAt != 0)
  }

  ghost predicate LeaveAgrees(before: Store, b: Out, o: Out, withCaptions: bool) {
    && StoresAgree(b.store, o.store, withCaptions)
    && (b.err.None? <==> o.err.None?)
    && b.posts == o.posts
    && StopsAgree(before, b.stops, o.stops)
  }

  ghost predicate OutcomesAgree(before: Store, bs: seq<Out>, os: seq<Out>, withCaptions: bool)
    decreases |bs|
  {
    |bs| == |os| &&
    (bs == [] || (LeaveAgrees(before, bs[0], os[0], withCaptions)
                  && OutcomesAgree(bs[0].store, bs[1..], os[1..], withCaptions)))
  }

  // ---- which captions jobs end ----

  /** Item k finds its session: it is in the call and no earlier item has taken it out. */
  predicate Found(s: Sessions, items: seq<LeaveIn>, k: nat)
    requires k < |items|
  {
    items[k].origConn in s && forall j | 0 <= j < k :: items[j].origConn != items[k].origConn
  }

  /** Item k takes the recording bot out while the transcription still runs. */
  predicate EndsCoupled(v: State, items: seq<LeaveIn>, k: nat)
    requires k < |items|
  {
    && Live(v.jobs.recording) && Live(v.jobs.transcription)
    && items[k].origConn == v.jobs.recording.value.botConnID
    && forall j | 0 <= j < k && Found(v.sessions, items, j) ::
         items[j].origConn != v.jobs.transcription.value.botConnID
  }

  /** Item k would end the captions job c, if c were the one in memory. */
  predicate EndsJob(v: State, items: seq<LeaveIn>, k: nat, c: Job)
    requires k < |items|
  {
    Found(v.sessions, items, k) && (EndsCoupled(v, items, k) || items[k].connID == c.botConnID)
  }

  /** The captions job of v has ended before item k. */
  predicate OverBefore(v: State, items: seq<LeaveIn>, k: nat)
    requires k < |items|
  {
    Live(v.jobs.captions) ==> exists j :: 0 <= j < k && EndsJob(v, items, j, v.jobs.captions.value)
  }

  /** One item ends the captions job in memory, a later one would end the next. */
  predicate EndsTwo(v: State, next: Option<Job>, items: seq<LeaveIn>) {
    next.Some? && exists k :: 0 <= k < |items| && EndsJob(v, items, k, next.value) && OverBefore(v, items, k)
  }

  ghost predicate EndsTwoLoaded(s: Store, st: Option<State>, items: seq<LeaveIn>) {
    st.Some? && EndsTwo(st.value, NextCaptions(s.jobs, st.value.call.id, st.value.jobs.captions), items)
  }

  /** The state after one item, as far as captions are concerned. */
  function AfterItem(v: State, i: LeaveIn): State {
    if i.origConn !in v.sessions then v else
      v.(sessions := v.sessions - {i.origConn}, jobs := LeftJobs(v.jobs, i.origConn, i.connID, i.now))
  }

  lemma EndsJobFirst(v: State, items: seq<LeaveIn>, c: Job)
    requires items != [] && c.endAt == 0
    ensures EndsJob(v, items, 0, c)
      <==> items[0].origConn in v.sessions && EndsIt(v.jobs, items[0].origConn, items[0].connID, Some(c))
  {
  }

  lemma FoundLater(v: State, items: seq<LeaveIn>, k: nat)
    requires k + 1 < |items|
    ensures Found(v.sessions, items, k + 1) <==> Found(AfterItem(v, items[0]).sessions, items[1..], k)
  {
    var (w, rest) := (AfterItem(v, items[0]), items[1..]);
    forall j | 0 <= j < k ensures rest[j].origConn == items[j + 1].origConn { }
    if Found(w.sessions, rest, k) {
      forall j | 0 <= j < k + 1 ensures items[j].origConn != items[k + 1].origConn {
        if j > 0 { assert rest[j - 1].origConn != rest[k].origConn; }
      }
    }
  }

  lemma EndsJobLater(v: State, items: seq<LeaveIn>, k: nat, c: Job)
    requires k + 1 < |items| && items[0].now != 0
    ensures EndsJob(v, items, k + 1, c) <==> EndsJob(AfterItem(v, items[0]), items[1..], k, c)
  {
    hide Found;
    var (w, rest) := (AfterItem(v, items[0]), items[1..]);
    FoundLater(v, items, k);
    if Found(v.sessions, items, k + 1) {
      CoupledLater(v, items, k);
    }
  }

  lemma CoupledLater(v: State, items: seq<LeaveIn>, k: nat)
    requires k + 1 < |items| && items[0].now != 0 && Found(v.sessions, items, k + 1)
    ensures EndsCoupled(v, items, k + 1) <==> EndsCoupled(AfterItem(v, items[0]), items[1..], k)
  {
    hide LeftCaptions;
    var (w, rest) := (AfterItem(v, items[0]), items[1..]);
    assert items[0].origConn != items[k + 1].origConn;
    forall j | 0 <= j < k ensures Found(v.sessions, items, j + 1) <==> Found(w.sessions, rest, j) {
      FoundLater(v, items, j);
    }
    assert Found(v.sessions, items, 0) <==> items[0].origConn in v.sessions;
    if EndsCoupled(v, items, k + 1) {
      assert w.jobs.recording == v.jobs.recording && w.jobs.transcription == v.jobs.transcription;
      forall j | 0 <= j < k && Found(w.sessions, rest, j)
        ensures rest[j].origConn != v.jobs.transcription.value.botConnID
      {
        assert Found(v.sessions, items, j + 1);
      }
    }
    if EndsCoupled(w, rest, k) {
      assert w.jobs.recording == v.jobs.recording && w.jobs.transcription == v.jobs.transcription;
      forall j | 0 <= j < k + 1 && Found(v.sessions, items, j)
        ensures items[j].origConn != v.jobs.transcription.value.botConnID
      {
        if j > 0 { assert Found(w.sessions, rest, j - 1); }
      }
    }
  }

  /** The first item either ends the next job at once, or leaves the question to the later ones. */
  lemma EndsTwoStep(v: State, next: Option<Job>, items: seq<LeaveIn>)
    requires items != [] && items[0].now != 0 && (next.Some? ==> Live(next))
    ensures EndsTwo(v, next, items) <==>
      || (items[0].origConn in v.sessions && !Live(v.jobs.captions)
          && EndsIt(v.jobs, items[0].origConn, items[0].connID, next))
      || EndsTwo(AfterItem(v, items[0]), next, items[1..])
  {
    hide EndsJob, LeftCaptions;
    var (w, rest) := (AfterItem(v, items[0]), items[1..]);
    forall k: nat, c | k + 1 < |items| ensures EndsJob(v, items, k + 1, c) <==> EndsJob(w, rest, k, c) {
      EndsJobLater(v, items, k, c);
    }
    LeftCaptionsLive(v.jobs, items[0].origConn, items[0].connID, items[0].now);
    if Live(v.jobs.captions) { EndsJobFirst(v, items, v.jobs.captions.value); }
    if next.Some? {
      EndsJobFirst(v, items, next.value);
      forall k: nat | k + 1 < |items| ensures OverBefore(v, items, k + 1) <==> OverBefore(w, rest, k) {
        OverLater(v, items, k);
      }
      assert OverBefore(v, items, 0) <==> !Live(v.jobs.captions);
      if EndsTwo(v, next, items) {
        var k :| 0 <= k < |items| && EndsJob(v, items, k, next.value) && OverBefore(v, items, k);
        if k > 0 { assert EndsJob(w, rest, k - 1, next.value) && OverBefore(w, rest, k - 1); }
      }
      if EndsTwo(w, next, rest) {
        var k :| 0 <= k < |rest| && EndsJob(w, rest, k, next.value) && OverBefore(w, rest, k);
        assert EndsJob(v, items, k + 1, next.value) && OverBefore(v, items, k + 1);
      }
    }
  }

  lemma OverLater(v: State, items: seq<LeaveIn>, k: nat)
    requires k + 1 < |items| && items[0].now != 0
    ensures OverBefore(v, items, k + 1) <==> OverBefore(AfterItem(v, items[0]), items[1..], k)
  {
    hide EndsJob, LeftCaptions, EndsIt;
    var (w, rest) := (AfterItem(v, items[0]), items[1..]);
    LeftCaptionsLive(v.jobs, items[0].origConn, items[0].connID, items[0].now);
    if Live(v.jobs.captions) {
      var c := v.jobs.captions.value;
      EndsJobFirst(v, items, c);
      forall j: nat | j < k ensures EndsJob(v, items, j + 1, c) <==> EndsJob(w, rest, j, c) {
        EndsJobLater(v, items, j, c);
      }
      if j :| 0 <= j < k + 1 && EndsJob(v, items, j, c) {
        if j > 0 { assert EndsJob(w, rest, j - 1, c); }
      }
      if j :| 0 <= j < k && EndsJob(w, rest, j, c) { assert EndsJob(v, items, j + 1, c); }
    }
  }

  // ---- a batch of leaves against single ones ----

  /** Batching leaves is invisible up to captions jobs and repeated stop messages to jobs that have
      ended. Captions jobs agree too, up to the moment they ended, exactly when no item would end a
      second one: the batch knows of one only, where single processing loads the next. */
  lemma {:induction false} BatchedLeavesRefineSingle(env: Env, s: Store, ch: Id, items: seq<LeaveIn>)
    requires StoreOk(env, s) && (forall i | i in items :: i.now != 0) && LeavesLegal(env, s, ch, items)
    ensures OutcomesAgree(s, BatchLeaves(env, s, Reload(s, ch), items), SingleLeaves(env, s, items), false)
    ensures OutcomesAgree(s, BatchLeaves(env, s, Reload(s, ch), items), SingleLeaves(env, s, items), true)
       <==> !EndsTwoLoaded(s, Reload(s, ch), items)
  {
    hide StoreOk, OutcomesAgree, EndsTwoLoaded, HoldsFirst, Reload;
    LoadTracks(env, s, ch);
    if Reload(s, ch).Some? { LoadedFirst(env, s, ch, Reload(s, ch).value); }
    LeavesAgree(env, s, Reload(s, ch), s, ch, items);
    CaptionsAgreeIff(env, s, Reload(s, ch), s, ch, items);
  }

  /** In particular captions agree when the call has at most one live captions job. */
  lemma OneCaptionsAgree(env: Env, s: Store, ch: Id, items: seq<LeaveIn>)
    requires StoreOk(env, s) && (forall i | i in items :: i.now != 0) && LeavesLegal(env, s, ch, items)
    requires Reload(s, ch).Some? ==> OneLiveCaptions(s.jobs, Reload(s, ch).value.call.id)
    ensures OutcomesAgree(s, BatchLeaves(env, s, Reload(s, ch), items), SingleLeaves(env, s, items), true)
  {
    hide StoreOk, OutcomesAgree, NextCaptions, Reload, OneLiveCaptions, LeavesLegal;
    BatchedLeavesRefineSingle(env, s, ch, items);
    if Reload(s, ch).Some? {
      var v := Reload(s, ch).value;
      LoadTracks(env, s, ch);
      LoadedFirst(env, s, ch, v);
      if v.jobs.captions.Some? { NoNextIff(s.jobs, v.call.id, v.jobs.captions); }
    }
  }

  lemma {:induction false} LeavesAgree(env: Env, b: Store, st: Option<State>, s: Store, ch: Id, items: seq<LeaveIn>)
    requires StoreOk(env, b) && StoreOk(env, s) && Tracks(b, ch, st) && StoresAgree(b, s, false)
    requires (forall i | i in items :: i.now != 0) && LeavesLegal(env, s, ch, items)
    ensures OutcomesAgree(b, BatchLeaves(env, b, st, items), SingleLeaves(env, s, items), false)
    decreases |items|
  {
    hide StoreOk, Tracks, Leave, Reload, StoresAgree, StopsAgree;
    if items != [] {
      var i := items[0];
      LegalInBatch(env, b, s, i, false);
      LeaveAgree(env, b, st, s, i, false);
      LeaveKeeps(env, b, st, i);
      StepKeeps(env, s, LeaveOp(i));
      var o := Leave(env, b, st, i);
      LeavesAgree(env, o.store, o.st, Step(env, s, LeaveOp(i)).store, ch, items[1..]);
    }
  }

  ghost predicate KnowsFirst(b: Store, st: Option<State>) { st.Some? ==> HoldsFirst(b, st.value) }

  /** The captions job in memory has ended and the item would end the one a load finds. */
  ghost predicate Spoils(b: Store, st: Option<State>, i: LeaveIn) {
    && st.Some? && i.origConn in st.value.sessions && !Live(st.value.jobs.captions)
    && EndsIt(st.value.jobs, i.origConn, i.connID, NextCaptions(b.jobs, st.value.call.id, st.value.jobs.captions))
  }

  lemma {:induction false} CaptionsAgreeIff(
      env: Env, b: Store, st: Option<State>, s: Store, ch: Id, items: seq<LeaveIn>)
    requires StoreOk(env, b) && StoreOk(env, s) && Tracks(b, ch, st) && StoresAgree(b, s, true) && KnowsFirst(b, st)
    requires (forall i | i in items :: i.now != 0) && LeavesLegal(env, s, ch, items)
    ensures OutcomesAgree(b, BatchLeaves(env, b, st, items), SingleLeaves(env, s, items), true)
       <==> !EndsTwoLoaded(b, st, items)
    decreases |items|
  {
    hide StoreOk, Tracks, Leave, Reload, StoresAgree, StopsAgree, KnowsFirst, Spoils, EndsTwoLoaded, Legal;
    if items == [] {
      NothingEnds(b, st);
    } else {
      var i := items[0];
      LegalInBatch(env, b, s, i, true);
      EndsTwoItem(env, b, st, items);
      var (o, p) := (Leave(env, b, st, i), Step(env, s, LeaveOp(i)));
      if Spoils(b, st, i) {
        SpoiltDiffers(env, b, st, s, i);
      } else {
        LeaveAgree(env, b, st, s, i, true);
        LeaveKeeps(env, b, st, i);
        StepKeeps(env, s, LeaveOp(i));
        CaptionsAgreeIff(env, o.store, o.st, p.store, ch, items[1..]);
      }
    }
  }

  lemma NothingEnds(b: Store, st: Option<State>)
    ensures !EndsTwoLoaded(b, st, [])
  {
  }

  /** The question after one item is the same question. */
  lemma EndsTwoItem(env: Env, b: Store, st: Option<State>, items: seq<LeaveIn>)
    requires items != [] && items[0].now != 0 && StoreOk(env, b) && Tracks(b, items[0].channelID, st)
    requires Legal(env, b, LeaveOp(items[0])) && KnowsFirst(b, st)
    ensures var o := Leave(env, b, st, items[0]);
      && KnowsFirst(o.store, o.st)
      && (EndsTwoLoaded(b, st, items) <==> Spoils(b, st, items[0]) || EndsTwoLoaded(o.store, o.st, items[1..]))
  {
    hide StoreOk, CallOk, LeaveCall, RowsOk, SlotOk, LoadJobs, LeaveJobs, LeavePosts, UpdateCall, NextCaptions, EndsTwo;
    hide HoldsFirst, EndsIt, LeftJobs, Reload;
    var i := items[0];
    if st.Some? {
      var v := st.value;
      var next := NextCaptions(b.jobs, v.call.id, v.jobs.captions);
      NextIsLive(b.jobs, v.call.id, v.jobs.captions);
      EndsTwoStep(v, next, items);
      if i.origConn in v.sessions {
        LeaveStored(env, b, st, i);
        CaptionsLeft(env, b, v, i);
        SameEndsTwo(AfterItem(v, i), Leave(env, b, st, i).st.value, next, items[1..]);
      }
    }
  }

  /** Only the sessions and jobs of the state matter. */
  lemma SameEndsTwo(v: State, w: State, next: Option<Job>, items: seq<LeaveIn>)
    requires v.sessions == w.sessions && v.jobs == w.jobs
    ensures EndsTwo(v, next, items) <==> EndsTwo(w, next, items)
  {
    hide Found;
    forall k: nat, c | k < |items| ensures EndsJob(v, items, k, c) <==> EndsJob(w, items, k, c) { }
    forall k: nat | k < |items| ensures OverBefore(v, items, k) <==> OverBefore(w, items, k) { }
  }

  lemma LegalInBatch(env: Env, b: Store, s: Store, i: LeaveIn, withCaptions: bool)
    requires StoresAgree(b, s, withCaptions) && Legal(env, s, LeaveOp(i))
    ensures Legal(env, b, LeaveOp(i))
  {
  }

  // ---- one leave in a batch against the same leave alone ----

  lemma LeaveAgree(env: Env, b: Store, st: Option<State>, s: Store, i: LeaveIn, withCaptions: bool)
    requires StoreOk(env, b) && StoreOk(env, s) && Tracks(b, i.channelID, st) && StoresAgree(b, s, withCaptions)
    requires withCaptions ==> KnowsFirst(b, st) && !Spoils(b, st, i)
    requires Legal(env, b, LeaveOp(i)) && Legal(env, s, LeaveOp(i))
    ensures LeaveAgrees(b, Leave(env, b, st, i), Step(env, s, LeaveOp(i)), withCaptions)
  {
    hide StoreOk, CallOk, RowsOk, SlotOk, LeaveJobs, LeavePosts, UpdateCall, LeaveCall, JobsAgree, LoadJobs;
    hide NextCaptions, HoldsFirst, EndsIt;
    LoadTracks(env, s, i.channelID);
    SameCallLoaded(env, b, st, s, i.channelID, withCaptions);
    if st.Some? && i.origConn in st.value.sessions {
      LeaveStored(env, b, st, i);
      LeaveStored(env, s, Reload(s, i.channelID), i);
      DesksAgree(env, b, st.value, s, i, withCaptions);
    }
  }

  /** Where the batch holds an ongoing call, single processing loads the same call; where it holds
      an ended one, single processing finds none and both refuse. */
  lemma SameCallLoaded(env: Env, b: Store, st: Option<State>, s: Store, ch: Id, withCaptions: bool)
    requires StoreOk(env, b) && StoreOk(env, s) && Tracks(b, ch, st) && StoresAgree(b, s, withCaptions)
    ensures Reload(s, ch).Some? <==> Ongoing(st)
    ensures Ongoing(st) ==> Reload(s, ch) == Some(State(st.value.call, st.value.sessions,
                                                        LoadJobs(s.jobs, st.value.call.id)))
    ensures st.Some? && !Ongoing(st) ==> st.value.sessions == map[]
  {
    hide CallOk, RowsOk, LoadJobs, SessionsLive, JobsOwned, CallRowsOk;
    ReloadFinds(env, b, ch, st);
    assert CallKeys(b.calls, ch) == CallKeys(s.calls, ch);
  }

  lemma DesksAgree(env: Env, b: Store, v: State, s: Store, i: LeaveIn, withCaptions: bool)
    requires StoreOk(env, b) && StoreOk(env, s) && StoresAgree(b, s, withCaptions) && Tracks(b, i.channelID, Some(v))
    requires withCaptions ==> HoldsFirst(b, v) && (i.origConn in v.sessions ==> !Spoils(b, Some(v), i))
    requires i.origConn in v.sessions && i.now != 0 && i.channelID != NONE && env.botID != NONE
    ensures var w := v.(jobs := LoadJobs(s.jobs, v.call.id));
      var (d, e) := (LeftDesk(env, b, v, i), LeftDesk(env, s, w, i));
      JobsAgree(d.rows, e.rows, withCaptions) && StopsAgree(b, d.stops, e.stops)
  {
    hide RowsOk, LeaveJobs, LoadJobs, CallOk, Advances, OnlyCall, SlotOk, JobsAgree, CallRowsOk, OneActive;
    hide SessionsLive, JobsOwned, NextCaptions, CaptionsFirst, EndsIt, LeftJobs, Local;
    hide StopsAgree, Leftovers, CoupledStops;
    var id := v.call.id;
    var x := Ctx(i.channelID, env.botID, i.now);
    var only := OnlyUserLeft(v.sessions - {i.origConn}, env.botID);
    var (d, e) := (Desk(b.jobs, v.jobs, []), Desk(s.jobs, LoadJobs(s.jobs, id), []));
    LoadedDeskOk(s.jobs, id);
    LeaveJobsKeeps(d, id, i.origConn, i.connID, only, x);
    LeaveJobsEffect(d, id, i.origConn, i.connID, only, x);
    LeaveJobsKeeps(e, id, i.origConn, i.connID, only, x);
    LeaveJobsEffect(e, id, i.origConn, i.connID, only, x);
    SlotsAgree(d, e, id, withCaptions);
    if withCaptions { CaptionsLoaded(d, e, id); }
    var (d', e') := (LeaveJobs(d, i.origConn, i.connID, only, x), LeaveJobs(e, i.origConn, i.connID, only, x));
    if withCaptions { SparedPair(d, e, id, i.origConn, i.connID); }
    RowsAgree(d, d', e, e', id, i.origConn, i.connID, i.now, withCaptions);
    StopListsAgree(b, d, e, id, i.origConn, only);
    assert d'.stops == Leftovers(d.jobs, only) + CoupledStops(d.jobs, i.origConn);
    assert e'.stops == Leftovers(e.jobs, only) + CoupledStops(e.jobs, i.origConn);
  }

  /** The captions job that a load would find next. */
  ghost function NextHeld(b: Store, v: State): Option<Job> { NextCaptions(b.jobs, v.call.id, v.jobs.captions) }

  /** Such an item ends the next captions job alone and leaves it live in the batch. */
  lemma SpoiltDiffers(env: Env, b: Store, st: Option<State>, s: Store, i: LeaveIn)
    requires StoreOk(env, b) && StoreOk(env, s) && Tracks(b, i.channelID, st) && StoresAgree(b, s, true)
    requires KnowsFirst(b, st) && Spoils(b, st, i)
    requires Legal(env, b, LeaveOp(i)) && Legal(env, s, LeaveOp(i))
    ensures NextHeld(b, st.value).Some? && !LeaveAgrees(b, Leave(env, b, st, i), Step(env, s, LeaveOp(i)), true)
    ensures var (k, o, p) := (NextHeld(b, st.value).value.id, Leave(env, b, st, i), Step(env, s, LeaveOp(i)));
      EndedAlone(o.store, o.st, p.store, k)
  {
    hide StoreOk, CallOk, RowsOk, SlotOk, LeaveJobs, LeavePosts, UpdateCall, LeaveCall, JobsAgree, LoadJobs;
    hide NextCaptions, HoldsFirst, EndsIt;
    LoadTracks(env, s, i.channelID);
    SameCallLoaded(env, b, st, s, i.channelID, true);
    LeaveStored(env, b, st, i);
    LeaveStored(env, s, Reload(s, i.channelID), i);
    DesksDiffer(env, b, st.value, s, i);
  }

  /** The captions job k is live in the batch, which does not hold it, and has ended in the other store. */
  predicate EndedAlone(b: Store, st: Option<State>, s: Store, k: Id) {
    && k in b.jobs && b.jobs[k].kind == Captioning && b.jobs[k].endAt == 0
    && k in s.jobs && s.jobs[k].endAt != 0
    && (st.Some? ==> !Is(st.value.jobs.captions, k))
  }

  lemma DesksDiffer(env: Env, b: Store, v: State, s: Store, i: LeaveIn)
    requires StoreOk(env, b) && StoreOk(env, s) && StoresAgree(b, s, true) && Tracks(b, i.channelID, Some(v))
    requires HoldsFirst(b, v) && Spoils(b, Some(v), i)
    requires i.now != 0 && i.channelID != NONE && env.botID != NONE
    ensures NextHeld(b, v).Some?
    ensures var (w, k) := (v.(jobs := LoadJobs(s.jobs, v.call.id)), NextHeld(b, v).value.id);
      var (d, e) := (LeftDesk(env, b, v, i), LeftDesk(env, s, w, i));
      && k in d.rows && d.rows[k].kind == Captioning && d.rows[k].endAt == 0 && !Is(d.jobs.captions, k)
      && k in e.rows && e.rows[k].endAt != 0
      && !JobsAgree(d.rows, e.rows, true)
  {
    hide RowsOk, LeaveJobs, LoadJobs, CallOk, Advances, OnlyCall, JobsAgree, CallRowsOk, OneActive;
    hide SessionsLive, JobsOwned, NextCaptions, CaptionsFirst, EndsIt, LeftJobs, Local;
    var id := v.call.id;
    var x := Ctx(i.channelID, env.botID, i.now);
    var only := OnlyUserLeft(v.sessions - {i.origConn}, env.botID);
    var (d, e) := (Desk(b.jobs, v.jobs, []), Desk(s.jobs, LoadJobs(s.jobs, id), []));
    LoadedDeskOk(s.jobs, id);
    LeaveJobsKeeps(d, id, i.origConn, i.connID, only, x);
    LeaveJobsEffect(d, id, i.origConn, i.connID, only, x);
    LeaveJobsKeeps(e, id, i.origConn, i.connID, only, x);
    LeaveJobsEffect(e, id, i.origConn, i.connID, only, x);
    SlotsAgree(d, e, id, true);
    CaptionsLoaded(d, e, id);
    var (d', e') := (LeaveJobs(d, i.origConn, i.connID, only, x), LeaveJobs(e, i.origConn, i.connID, only, x));
    RowsDiffer(d, d', e, e', id, i.origConn, i.connID, i.now);
  }

  lemma RowsDiffer(d: Desk, d': Desk, e: Desk, e': Desk, id: Id, orig: Id, conn: Id, now: int)
    requires DeskOk(d, id) && DeskOk(e, id) && DeskOk(d', id) && DeskOk(e', id) && Local(d, d') && Local(e, e')
    requires d'.jobs == LeftJobs(d.jobs, orig, conn, now) && e'.jobs == LeftJobs(e.jobs, orig, conn, now) && now != 0
    requires SlotPair(d.jobs.recording, e.jobs.recording) && SlotPair(d.jobs.transcription, e.jobs.transcription)
    requires !Live(d.jobs.captions) && e.jobs.captions == NextCaptions(d.rows, id, d.jobs.captions)
    requires EndsIt(d.jobs, orig, conn, e.jobs.captions)
    ensures e.jobs.captions.Some?
    ensures var k := e.jobs.captions.value.id;
      && k in d'.rows && d'.rows[k].kind == Captioning && d'.rows[k].endAt == 0 && !Is(d'.jobs.captions, k)
      && k in e'.rows && e'.rows[k].endAt != 0
      && !JobsAgree(d'.rows, e'.rows, true)
  {
    hide NextCaptions;
    NextIsLive(d.rows, id, d.jobs.captions);
    var k := e.jobs.captions.value.id;
    RowAfter(d, d', id, k);
    LeftCaptionsLive(e.jobs, orig, conn, now);
  }

  /** What single processing loads into a slot is what is live in the batch's slot. */
  ghost predicate SlotPair(o: Option<Job>, p: Option<Job>) { p == Visible(o) }

  /** The captions slots: the same live job, or the batch's has ended and the leave spares the other. */
  ghost predicate CaptionsPair(d: Jobs, e: Jobs, orig: Id, conn: Id) {
    || SlotPair(d.captions, e.captions)
    || (!Live(d.captions) && Live(e.captions) && !EndsIt(e, orig, conn, e.captions))
  }

  lemma SlotsAgree(d: Desk, e: Desk, id: Id, withCaptions: bool)
    requires DeskOk(d, id) && RowsOk(e.rows) && e.jobs == LoadJobs(e.rows, id)
    requires JobsAgree(d.rows, e.rows, withCaptions)
    ensures SlotPair(d.jobs.recording, e.jobs.recording) && SlotPair(d.jobs.transcription, e.jobs.transcription)
  {
    OneSlotAgrees(d, e, id, Recording, d.jobs.recording, withCaptions);
    OneSlotAgrees(d, e, id, Transcribing, d.jobs.transcription, withCaptions);
  }

  lemma OneSlotAgrees(d: Desk, e: Desk, id: Id, kind: Kind, o: Option<Job>, withCaptions: bool)
    requires RowsOk(d.rows) && SlotOk(d.rows, id, kind, o) && RowsOk(e.rows) && JobsAgree(d.rows, e.rows, withCaptions)
    requires kind != Captioning
    ensures SlotPair(o, ActiveJob(e.rows, id, kind))
  {
    LoadedSlot(e.rows, id, kind);
    var p := ActiveJob(e.rows, id, kind);
    if p.Some? {
      assert LiveRow(e.rows, p.value.id, id, kind);
      assert LiveRow(d.rows, p.value.id, id, kind);
    }
    if Live(o) {
      assert LiveRow(d.rows, o.value.id, id, kind);
      assert LiveRow(e.rows, o.value.id, id, kind);
    }
  }

  /** Single processing loads the batch's captions job while it is live, the next one afterwards. */
  lemma CaptionsLoaded(d: Desk, e: Desk, id: Id)
    requires DeskOk(d, id) && RowsOk(e.rows) && e.jobs == LoadJobs(e.rows, id) && JobsAgree(d.rows, e.rows, true)
    requires CaptionsFirst(d.rows, id, d.jobs.captions)
    ensures e.jobs.captions
      == if Live(d.jobs.captions) then d.jobs.captions else NextCaptions(d.rows, id, d.jobs.captions)
    ensures e.jobs.captions.Some? ==> Live(e.jobs.captions)
  {
    hide RowsOk, NextCaptions;
    LoadedSlot(e.rows, id, Captioning);
    forall k | k in JobKeys(d.rows, id, Captioning) ensures k in e.rows && d.rows[k] == e.rows[k] {
      SameLive(d.rows, e.rows, k);
    }
    forall k | k in JobKeys(e.rows, id, Captioning) ensures k in d.rows && d.rows[k] == e.rows[k] {
      SameLive(d.rows, e.rows, k);
    }
    SameActive(d.rows, e.rows, id, Captioning);
    if !Live(d.jobs.captions) { SlotEnded(d.rows, id, d.jobs.captions); }
  }

  lemma SameLive(a: map<Id, Job>, b: map<Id, Job>, k: Id)
    requires JobsAgree(a, b, true) && (k in a ==> k in b && (a[k].endAt == 0 || b[k].endAt == 0)) && (k in b ==> k in a)
    ensures k in a ==> a[k] == b[k]
  {
    if k in a {
      assert a[k] == a[k].(endAt := 0) && b[k] == b[k].(endAt := 0);
    }
  }

  lemma SparedPair(d: Desk, e: Desk, id: Id, orig: Id, conn: Id)
    requires SlotPair(d.jobs.recording, e.jobs.recording) && SlotPair(d.jobs.transcription, e.jobs.transcription)
    requires e.jobs.captions
      == if Live(d.jobs.captions) then d.jobs.captions else NextCaptions(d.rows, id, d.jobs.captions)
    requires e.jobs.captions.Some? ==> Live(e.jobs.captions)
    ensures !CaptionsPair(d.jobs, e.jobs, orig, conn) <==>
      !Live(d.jobs.captions) && EndsIt(d.jobs, orig, conn, NextCaptions(d.rows, id, d.jobs.captions))
  {
    hide NextCaptions;
  }

  lemma RowsAgree(d: Desk, d': Desk, e: Desk, e': Desk, id: Id, orig: Id, conn: Id, now: int, withCaptions: bool)
    requires DeskOk(d, id) && DeskOk(e, id) && DeskOk(d', id) && DeskOk(e', id)
    requires Local(d, d') && Local(e, e') && JobsAgree(d.rows, e.rows, withCaptions) && now != 0
    requires d'.jobs == LeftJobs(d.jobs, orig, conn, now) && e'.jobs == LeftJobs(e.jobs, orig, conn, now)
    requires SlotPair(d.jobs.recording, e.jobs.recording) && SlotPair(d.jobs.transcription, e.jobs.transcription)
    requires withCaptions ==> CaptionsPair(d.jobs, e.jobs, orig, conn)
    ensures JobsAgree(d'.rows, e'.rows, withCaptions)
  {
    hide DeskOk, LeftJobs, Local, SlotPair, CaptionsPair;
    SameKeys(d, d', e, e');
    forall k | k in d.rows
      ensures d'.rows[k].kind == e'.rows[k].kind && d'.rows[k].callID == e'.rows[k].callID
      ensures d'.rows[k].kind != Captioning ==> d'.rows[k] == e'.rows[k]
      ensures withCaptions ==> d'.rows[k].(endAt := 0) == e'.rows[k].(endAt := 0)
      ensures withCaptions ==> (d'.rows[k].endAt == 0 <==> e'.rows[k].endAt == 0)
    {
      RowAgrees(d, d', e, e', id, orig, conn, now, withCaptions, k);
    }
  }

  lemma SameKeys(d: Desk, d': Desk, e: Desk, e': Desk)
    requires Local(d, d') && Local(e, e')
    ensures (forall k :: k in d'.rows <==> k in d.rows) && (forall k :: k in e'.rows <==> k in e.rows)
  {
  }

  lemma RowAgrees(d: Desk, d': Desk, e: Desk, e': Desk, id: Id, orig: Id, conn: Id, now: int, withCaptions: bool, k: Id)
    requires DeskOk(d, id) && DeskOk(e, id) && DeskOk(d', id) && DeskOk(e', id)
    requires Local(d, d') && Local(e, e') && JobsAgree(d.rows, e.rows, withCaptions) && now != 0
    requires d'.jobs == LeftJobs(d.jobs, orig, conn, now) && e'.jobs == LeftJobs(e.jobs, orig, conn, now)
    requires SlotPair(d.jobs.recording, e.jobs.recording) && SlotPair(d.jobs.transcription, e.jobs.transcription)
    requires withCaptions ==> CaptionsPair(d.jobs, e.jobs, orig, conn)
    requires k in d.rows && k in d'.rows && k in e'.rows
    ensures d'.rows[k].kind == e'.rows[k].kind && d'.rows[k].callID == e'.rows[k].callID
    ensures d'.rows[k].kind != Captioning ==> d'.rows[k] == e'.rows[k]
    ensures withCaptions ==> d'.rows[k].(endAt := 0) == e'.rows[k].(endAt := 0)
    ensures withCaptions ==> (d'.rows[k].endAt == 0 <==> e'.rows[k].endAt == 0)
  {
    hide DeskOk, Local;
    RowAfter(d, d', id, k);
    RowAfter(e, e', id, k);
    SlotRow(d, id, k);
    SlotRow(e, id, k);
  }

  /** The slots hold the rows as they are. */
  lemma SlotRow(d: Desk, id: Id, k: Id)
    requires DeskOk(d, id)
    ensures Is(d.jobs.recording, k) ==> k in d.rows && d.rows[k] == d.jobs.recording.value
    ensures Is(d.jobs.recording, k) ==> d.rows[k].kind == Recording
    ensures Is(d.jobs.transcription, k) ==> k in d.rows && d.rows[k] == d.jobs.transcription.value
    ensures Is(d.jobs.transcription, k) ==> d.rows[k].kind == Transcribing
    ensures Is(d.jobs.captions, k) ==> k in d.rows && d.rows[k] == d.jobs.captions.value && d.rows[k].kind == Captioning
  {
    hide RowsOk;
  }

  lemma StopListsAgree(before: Store, d: Desk, e: Desk, id: Id, orig: Id, only: bool)
    requires DeskOk(d, id) && d.rows == before.jobs
    requires SlotPair(d.jobs.recording, e.jobs.recording) && SlotPair(d.jobs.transcription, e.jobs.transcription)
    ensures StopsAgree(before, Leftovers(d.jobs, only) + CoupledStops(d.jobs, orig),
                       Leftovers(e.jobs, only) + CoupledStops(e.jobs, orig))
  {
    hide RowsOk;
  }

  /** Where two captions jobs would end, the batch leaves the second one live for good. */
  lemma BatchKeepsSecond(env: Env, s: Store, ch: Id, items: seq<LeaveIn>)
    requires StoreOk(env, s) && (forall i | i in items :: i.now != 0) && LeavesLegal(env, s, ch, items)
    requires EndsTwoLoaded(s, Reload(s, ch), items)
    ensures NextHeld(s, Reload(s, ch).value).Some?
    ensures var k := NextHeld(s, Reload(s, ch).value).value.id;
      LiveInFirst(LastStore(s, BatchLeaves(env, s, Reload(s, ch), items)), LastStore(s, SingleLeaves(env, s, items)), k)
  {
    hide StoreOk, NextCaptions, EndsTwo, HoldsFirst, Reload, LeavesLegal;
    LoadTracks(env, s, ch);
    LoadedFirst(env, s, ch, Reload(s, ch).value);
    SecondStaysLive(env, s, Reload(s, ch), s, ch, items);
  }

  predicate LiveInFirst(a: Store, b: Store, k: Id) {
    k in a.jobs && a.jobs[k].endAt == 0 && k in b.jobs && b.jobs[k].endAt != 0
  }

  lemma {:induction false} SecondStaysLive(
      env: Env, b: Store, st: Option<State>, s: Store, ch: Id, items: seq<LeaveIn>)
    requires StoreOk(env, b) && StoreOk(env, s) && Tracks(b, ch, st) && StoresAgree(b, s, true) && KnowsFirst(b, st)
    requires (forall i | i in items :: i.now != 0) && LeavesLegal(env, s, ch, items) && EndsTwoLoaded(b, st, items)
    ensures NextHeld(b, st.value).Some?
    ensures LiveInFirst(LastStore(b, BatchLeaves(env, b, st, items)), LastStore(s, SingleLeaves(env, s, items)),
                        NextHeld(b, st.value).value.id)
    decreases |items|
  {
    hide StoreOk, Tracks, Leave, Reload, StoresAgree, KnowsFirst, Spoils, EndsTwo, Legal, NextHeld, EndedAlone;
    NothingEnds(b, st);
    assert items != [];
    var i := items[0];
    LegalInBatch(env, b, s, i, true);
    EndsTwoItem(env, b, st, items);
    var (o, p) := (Leave(env, b, st, i), Step(env, s, LeaveOp(i)));
    LeaveKeeps(env, b, st, i);
    StepKeeps(env, s, LeaveOp(i));
    AgreeAtLeast(b, s);
    LeaveAgree(env, b, st, s, i, false);
    LastOfRest(env, b, st, s, items);
    if Spoils(b, st, i) {
      SpoiltDiffers(env, b, st, s, i);
      StaysApart(env, o.store, o.st, p.store, ch, items[1..], NextHeld(b, st.value).value.id);
    } else {
      LeaveAgree(env, b, st, s, i, true);
      SameNext(env, b, st, i);
      SecondStaysLive(env, o.store, o.st, p.store, ch, items[1..]);
    }
  }

  lemma AgreeAtLeast(b: Store, s: Store)
    requires StoresAgree(b, s, true)
    ensures StoresAgree(b, s, false)
  {
  }

  lemma LastOfRest(env: Env, b: Store, st: Option<State>, s: Store, items: seq<LeaveIn>)
    requires (forall i | i in items :: i.now != 0) && items != []
    ensures var o := Leave(env, b, st, items[0]);
      LastStore(b, BatchLeaves(env, b, st, items)) == LastStore(o.store, BatchLeaves(env, o.store, o.st, items[1..]))
    ensures var p := Step(env, s, LeaveOp(items[0])).store;
      LastStore(s, SingleLeaves(env, s, items)) == LastStore(p, SingleLeaves(env, p, items[1..]))
  {
    hide Leave, Step;
  }

  lemma SameNext(env: Env, b: Store, st: Option<State>, i: LeaveIn)
    requires StoreOk(env, b) && Tracks(b, i.channelID, st) && Legal(env, b, LeaveOp(i)) && KnowsFirst(b, st)
    requires st.Some?
    ensures var o := Leave(env, b, st, i); o.st.Some? && NextHeld(o.store, o.st.value) == NextHeld(b, st.value)
  {
    hide StoreOk, LeaveCall, LeaveJobs, LeavePosts, UpdateCall, NextCaptions, HoldsFirst, Reload;
    if i.origConn in st.value.sessions { CaptionsLeft(env, b, st.value, i); }
  }

  lemma {:induction false} StaysApart(
      env: Env, b: Store, st: Option<State>, s: Store, ch: Id, items: seq<LeaveIn>, k: Id)
    requires StoreOk(env, b) && StoreOk(env, s) && Tracks(b, ch, st) && StoresAgree(b, s, false)
    requires (forall i | i in items :: i.now != 0) && LeavesLegal(env, s, ch, items) && EndedAlone(b, st, s, k)
    ensures LiveInFirst(LastStore(b, BatchLeaves(env, b, st, items)), LastStore(s, SingleLeaves(env, s, items)), k)
    decreases |items|
  {
    hide StoreOk, Tracks, Leave, Reload, StoresAgree, Legal;
    if items != [] {
      var i := items[0];
      LegalInBatch(env, b, s, i, false);
      var (o, p) := (Leave(env, b, st, i), Step(env, s, LeaveOp(i)));
      LeaveAgree(env, b, st, s, i, false);
      LeaveKeeps(env, b, st, i);
      StepKeeps(env, s, LeaveOp(i));
      StepAdvances(env, s, LeaveOp(i));
      OtherCaptionsStay(env, b, st, i, k);
      LastOfRest(env, b, st, s, items);
      StaysApart(env, o.store, o.st, p.store, ch, items[1..], k);
    }
  }

  /** A leave in a batch writes no captions job but the one in memory. */
  lemma OtherCaptionsStay(env: Env, b: Store, st: Option<State>, i: LeaveIn, k: Id)
    requires StoreOk(env, b) && Tracks(b, i.channelID, st) && Legal(env, b, LeaveOp(i))
    requires k in b.jobs && b.jobs[k].kind == Captioning && (st.Some? ==> !Is(st.value.jobs.captions, k))
    ensures var o := Leave(env, b, st, i);
      && k in o.store.jobs && o.store.jobs[k] == b.jobs[k] && (o.st.Some? ==> !Is(o.st.value.jobs.captions, k))
  {
    hide StoreOk, CallOk, LeaveCall, RowsOk, SlotOk, LeaveJobs, LeavePosts, UpdateCall, Advances, OnlyCall;
    if st.Some? && i.origConn in st.value.sessions {
      var v := st.value;
      LeaveStored(env, b, st, i);
      var d := Desk(b.jobs, v.jobs, []);
      var only := OnlyUserLeft(v.sessions - {i.origConn}, env.botID);
      LeaveJobsKeeps(d, v.call.id, i.origConn, i.connID, only, Ctx(i.channelID, env.botID, i.now));
      RowAfter(d, LeftDesk(env, b, v, i), v.call.id, k);
    }
  }

  /** Once the last session has left, every further item is refused and writes nothing, whether
      the ended call is still in memory or a reload finds none. */
  lemma {:induction false} NothingAfterTheEnd(env: Env, s: Store, ch: Id, st: Option<State>, items: seq<LeaveIn>)
    requires StoreOk(env, s) && Tracks(s, ch, st) && !Ongoing(st)
    requires forall i | i in items :: i.now != 0 && i.channelID == ch
    ensures forall o | o in BatchLeaves(env, s, st, items) ::
      o.err.Some? && o.store == s && o.posts == [] && o.stops == []
    ensures forall o | o in SingleLeaves(env, s, items) :: o.err.Some? && o.store == s && o.posts == [] && o.stops == []
    decreases |items|
  {
    hide StoreOk, LeaveCall, LeaveJobs, LeavePosts, CallOk;
    ReloadFinds(env, s, ch, st);
    if items != [] {
      NoOneToRemove(env, s, ch, st);
      NothingAfterTheEnd(env, s, ch, st, items[1..]);
    }
  }

  lemma NoOneToRemove(env: Env, s: Store, ch: Id, st: Option<State>)
    requires StoreOk(env, s) && Tracks(s, ch, st) && !Ongoing(st)
    ensures st.Some? ==> st.value.sessions == map[]
    ensures Reload(s, ch).None?
  {
    hide CallOk;
    ReloadFinds(env, s, ch, st);
  }
}
