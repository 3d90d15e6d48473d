/** Several nodes serve several channels at once. Each channel has its own lock, and a locked section
    loads its state at one moment and writes at a later one, while sections of other channels write
    in between (server/sync.go:19-77, server/cluster/mutex.go). */
module Cluster {
  import opened Basics
  import opened Rows
  import opened Load
  import opened JobDesk
  import opened JobFacts
  import opened JobRuns
  import opened Host
  import opened Membership
  import opened Handlers
  import opened Machine
  import opened Invariant
  import opened Steps
  import opened WriteThrough
  import opened Locality
  import opened History
  import opened Batches
  import Lease

  // ---- a step of one channel leaves what another channel loads alone ----

  lemma StepJobsElsewhere(env: Env, s: Store, op: Op)
    requires StoreOk(env, s) && Legal(env, s, op) && Runnable(op)
    ensures OnlyCall(s.jobs, Step(env, s, op).store.jobs, Touched(s, op))
  {
    hide StoreOk, Reload, JobRows, Join, Leave, SessionsOf, InCall, OnlyCall, LoadJobs, Touched;
    SameJobsElsewhere(s.jobs, Touched(s, op));
    TouchedCall(env, s, op);
    match op
    case JoinOp(i) => JoinJobsElsewhere(env, s, i);
    case LeaveOp(i) => LeaveJobsElsewhere(env, s, i);
    case JobOp(ch, act, at) => JobJobsElsewhere(env, s, ch, act, at);
    case _ =>
  }

  lemma SameJobsElsewhere(jobs: map<Id, Job>, id: Id)
    ensures OnlyCall(jobs, jobs, id)
  {
  }

  lemma JoinJobsElsewhere(env: Env, s: Store, i: JoinIn)
    requires StoreOk(env, s) && Legal(env, s, JoinOp(i))
    ensures OnlyCall(s.jobs, Join(env, s, Reload(s, i.channelID), i).store.jobs, Touched(s, JoinOp(i)))
  {
    hide CallOk, RowsOk, DeskOk, NextHost, OneActive, SessionsLive, JobsOwned, BotDesk, LoadJobs, WriteJoin;
    hide JoinAllowed, SessionsOf, Join, Reload, StartPost;
    hide OnlyCall, Advances, Touched;
    var st := Reload(s, i.channelID);
    LoadTracks(env, s, i.channelID);
    TouchedCall(env, s, JoinOp(i));
    SameJobsElsewhere(s.jobs, Touched(s, JoinOp(i)));
    var v := if st.Some? then st.value else NewState(env, i);
    if CanAdmit(env, s, st, v, i) {
      Accepted(env, s, st, v, i);
      BotDeskKeeps(env, s, st, v, i);
    } else {
      JoinRefused(env, s, st, v, i);
    }
  }

  lemma LeaveJobsElsewhere(env: Env, s: Store, i: LeaveIn)
    requires StoreOk(env, s) && Legal(env, s, LeaveOp(i)) && i.now != 0
    ensures OnlyCall(s.jobs, Leave(env, s, Reload(s, i.channelID), i).store.jobs, Touched(s, LeaveOp(i)))
  {
    hide StoreOk, CallOk, DeskOk, LoadJobs, LeaveJobs, LeaveCall, LeavePosts, UpdateCall, SessionsOf, Reload, Leave;
    hide Advances, OnlyCall, LeftDesk, Touched;
    LoadTracks(env, s, i.channelID);
    TouchedCall(env, s, LeaveOp(i));
    SameJobsElsewhere(s.jobs, Touched(s, LeaveOp(i)));
    var st := Reload(s, i.channelID);
    if st.Some? && i.origConn in st.value.sessions {
      LeaveStored(env, s, st, i);
      LeftDeskKeeps(env, s, st.value, i);
    } else {
      RefusedLeave(env, s, st, i);
    }
  }

  lemma JobJobsElsewhere(env: Env, s: Store, ch: Id, act: JobAct, at: int)
    requires StoreOk(env, s) && Legal(env, s, JobOp(ch, act, at))
    ensures OnlyCall(s.jobs, Step(env, s, JobOp(ch, act, at)).store.jobs, Touched(s, JobOp(ch, act, at)))
  {
    hide CallOk, RowsOk, DeskOk, OneActive, SessionsLive, JobsOwned, CallRowsOk, LoadJobs, JobRows, SessionsOf, Reload;
    hide Advances, OnlyCall, Touched;
    LoadTracks(env, s, ch);
    TouchedCall(env, s, JobOp(ch, act, at));
    SameJobsElsewhere(s.jobs, Touched(s, JobOp(ch, act, at)));
    var st := Reload(s, ch);
    if st.Some? { JobRowsKeep(s.jobs, st.value.call, act, Ctx(ch, env.botID, at)); }
  }

  lemma SameActiveJob(a: map<Id, Job>, b: map<Id, Job>, id: Id, other: Id, kind: Kind)
    requires OnlyCall(a, b, id) && Advances(a, b) && other != id
    ensures ActiveJob(b, other, kind) == ActiveJob(a, other, kind)
  {
    SameActive(a, b, other, kind);
  }

  /** A locked section of one channel changes nothing that a load of another channel's state sees. */
  lemma ReloadElsewhere(env: Env, s: Store, op: Op, ch: Id)
    requires StoreOk(env, s) && Legal(env, s, op) && Runnable(op) && Channel(op) != ch
    ensures Reload(Step(env, s, op).store, ch) == Reload(s, ch)
  {
    hide CallOk, LoadJobs, RowsOk, SessionsLive, JobsOwned, CallRowsOk, SessionsOf, DeskOk, Step, Legal, Touched;
    var t := Step(env, s, op).store;
    StepElsewhere(env, s, op);
    StepKeeps(env, s, op);
    LoadTracks(env, s, ch);
    LoadTracks(env, t, ch);
    SameActiveCall(env, s, t, ch, Channel(op), Touched(s, op));
    if Reload(s, ch).Some? {
      var c := Reload(s, ch).value.call;
      StepJobsElsewhere(env, s, op);
      StepAdvances(env, s, op);
      NotTouched(env, s, op, c.id);
      SameLoadedJobs(s.jobs, t.jobs, Touched(s, op), c.id);
    }
  }

  lemma SameActiveCall(env: Env, s: Store, t: Store, ch: Id, other: Id, touched: Id)
    requires StoreOk(env, s) && StoreOk(env, t) && Elsewhere(s, t, other, touched) && ch != other
    ensures Reload(t, ch).Some? <==> Reload(s, ch).Some?
    ensures Reload(s, ch).Some? ==> Reload(t, ch).value.call == Reload(s, ch).value.call
  {
  }

  lemma NotTouched(env: Env, s: Store, op: Op, id: Id)
    requires StoreOk(env, s) && Legal(env, s, op) && id in s.calls && s.calls[id].channelID != Channel(op)
    ensures id != Touched(s, op)
  {
    hide CallOk, Reload;
    TouchedCall(env, s, op);
  }

  lemma SameLoadedJobs(a: map<Id, Job>, b: map<Id, Job>, id: Id, other: Id)
    requires OnlyCall(a, b, id) && Advances(a, b) && other != id
    ensures LoadJobs(b, other) == LoadJobs(a, other)
  {
    SameActiveJob(a, b, id, other, Recording);
    SameActiveJob(a, b, id, other, Transcribing);
    SameActiveJob(a, b, id, other, Captioning);
  }

  // ---- what one locked section does ----

  /** A single operation; a batch of joins under one lock and with one load; or what follows the job
      service's answer to a started recording: noting the answer and, if it was noted, beginning the
      transcription, with one load (server/recording_api.go:114-163). */
  datatype Work =
    | One(op: Op)
    | Joins(batchChannel: Id, items: seq<JoinIn>)
    | Couple(startChannel: Id, run: RunResult, user: Id, trID: Id, lcID: Option<Id>, at: int)

  function WorkChannel(w: Work): Id {
    match w
    case One(op) => Channel(op)
    case Joins(ch, _) => ch
    case Couple(ch, _, _, _, _, _) => ch
  }

  predicate WorkRunnable(w: Work) { (w.One? ==> Runnable(w.op)) && (w.Couple? ==> w.at != 0) }

  ghost predicate WorkLegal(env: Env, s: Store, w: Work) {
    match w
    case One(op) => Legal(env, s, op) && Runnable(op)
    case Joins(ch, items) => JoinsLegal(env, s, ch, items)
    case Couple(_, _, _, _, _, _) => Legal(env, s, NoteOp(w))
  }

  function NoteOp(w: Work): Op
    requires w.Couple?
  {
    JobOp(w.startChannel, FinishRec(w.run), w.at)
  }

  function CoupledOp(w: Work): Op
    requires w.Couple?
  {
    JobOp(w.startChannel, BeginTr(w.user, w.trID, w.lcID), w.at)
  }

  /** The rows after such a section: startTranscribingJob gets the state that was loaded for the
      answer, not a new one. */
  function CoupleRows(env: Env, rows: map<Id, Job>, v: State, w: Work): (map<Id, Job>, bool)
    requires w.Couple?
  {
    var x := Ctx(w.startChannel, env.botID, w.at);
    var (noted, ok) := FinishRecording(Desk(rows, v.jobs, []), w.run, x);
    if !ok then (noted, false)
    else (BeginTranscribing(Desk(noted, v.jobs, []), v.call.id, w.user, w.trID, w.lcID, x).0, true)
  }

  /** The answer was noted. */
  ghost predicate Notes(env: Env, s: Store, w: Work)
    requires w.Couple?
  {
    Reload(s, w.startChannel).Some? && CoupleRows(env, s.jobs, Reload(s, w.startChannel).value, w).1
  }

  /** The store after the section: its handlers compute with the state it has loaded, the items of a
      batch with the state of the item before, and write to the store as it is now. */
  ghost function Result(env: Env, s: Store, loaded: Option<State>, w: Work): Store
    requires WorkRunnable(w)
  {
    match w
    case One(op) => Handle(env, s, loaded, op).store
    case Joins(_, items) => LastStore(s, BatchJoins(env, s, loaded, items))
    case Couple(_, _, _, _, _, _) =>
      if loaded.None? then s else s.(jobs := CoupleRows(env, s.jobs, loaded.value, w).0)
  }

  /** The steps of the machine that the section stands for, and the stores they leave. */
  ghost function StepsOf(env: Env, s: Store, w: Work): seq<Op> {
    match w
    case One(op) => [op]
    case Joins(_, items) => JoinOps(items)
    case Couple(_, _, _, _, _, _) => if Notes(env, s, w) then [NoteOp(w), CoupledOp(w)] else [NoteOp(w)]
  }

  function JoinOps(items: seq<JoinIn>): seq<Op> {
    if items == [] then [] else [JoinOp(items[0])] + JoinOps(items[1..])
  }

  ghost function StoresOf(env: Env, s: Store, w: Work): seq<Store>
    requires WorkRunnable(w)
  {
    match w
    case One(op) => [Step(env, s, op).store]
    case Joins(_, items) => JoinStores(env, s, items)
    case Couple(_, _, _, _, _, _) =>
      var t := Step(env, s, NoteOp(w)).store;
      if Notes(env, s, w) then [t, Step(env, t, CoupledOp(w)).store] else [t]
  }

  ghost function JoinStores(env: Env, s: Store, items: seq<JoinIn>): seq<Store>
    decreases |items|
  {
    if items == [] then [] else
      var t := Step(env, s, JoinOp(items[0])).store;
      [t] + JoinStores(env, t, items[1..])
  }

  lemma {:induction false} JoinStoresLast(env: Env, s: Store, items: seq<JoinIn>)
    ensures ([s] + JoinStores(env, s, items))[|JoinStores(env, s, items)|] == LastStore(s, SingleJoins(env, s, items))
    decreases |items|
  {
    hide Step;
    if items != [] {
      var t := Step(env, s, JoinOp(items[0])).store;
      JoinStoresLast(env, t, items[1..]);
    }
  }

  /** Item by item a batch of joins keeps the invariant and is not seen by other channels. */
  lemma {:induction false} JoinsKeep(env: Env, s: Store, ch: Id, items: seq<JoinIn>)
    requires StoreOk(env, s) && JoinsLegal(env, s, ch, items)
    ensures var t := LastStore(s, SingleJoins(env, s, items));
      StoreOk(env, t) && forall other | other != ch :: Reload(t, other) == Reload(s, other)
    decreases |items|
  {
    hide StoreOk, Step, Reload, Legal;
    if items != [] {
      var t := Step(env, s, JoinOp(items[0])).store;
      StepKeeps(env, s, JoinOp(items[0]));
      forall other | other != ch ensures Reload(t, other) == Reload(s, other) {
        ReloadElsewhere(env, s, JoinOp(items[0]), other);
      }
      JoinsKeep(env, t, ch, items[1..]);
    }
  }

  /** A section whose load is still good does exactly its steps, unseen by other channels. */
  lemma WorkIsSteps(env: Env, s: Store, w: Work)
    requires StoreOk(env, s) && WorkLegal(env, s, w) && WorkRunnable(w)
    ensures var t := Result(env, s, Reload(s, WorkChannel(w)), w);
      && StoreOk(env, t)
      && t == ([s] + StoresOf(env, s, w))[|StoresOf(env, s, w)|]
      && forall other | other != WorkChannel(w) :: Reload(t, other) == Reload(s, other)
  {
    hide StoreOk, Reload, Legal, Handle, JoinsLegal;
    match w
    case One(op) =>
      StepKeeps(env, s, op);
      forall other | other != Channel(op) ensures Reload(Step(env, s, op).store, other) == Reload(s, other) {
        ReloadElsewhere(env, s, op, other);
      }
    case Joins(ch, items) =>
      BatchedJoinsRefineSingle(env, s, ch, items);
      JoinsKeep(env, s, ch, items);
      JoinStoresLast(env, s, items);
    case Couple(_, _, _, _, _, _) => CoupleIsSteps(env, s, w);
  }

  /** A load between the two halves would find the transcription that the first load found. */
  lemma CoupleIsSteps(env: Env, s: Store, w: Work)
    requires StoreOk(env, s) && w.Couple? && WorkLegal(env, s, w) && WorkRunnable(w)
    ensures var t := Result(env, s, Reload(s, WorkChannel(w)), w);
      && StoreOk(env, t)
      && t == ([s] + StoresOf(env, s, w))[|StoresOf(env, s, w)|]
      && forall other | other != WorkChannel(w) :: Reload(t, other) == Reload(s, other)
  {
    hide StoreOk, Reload, Step, CoupleRows;
    var ch := w.startChannel;
    var t := Step(env, s, NoteOp(w)).store;
    StepKeeps(env, s, NoteOp(w));
    forall other | other != ch ensures Reload(t, other) == Reload(s, other) {
      ReloadElsewhere(env, s, NoteOp(w), other);
    }
    FirstNoted(env, s, w, t);
    if Notes(env, s, w) {
      var u := Step(env, t, CoupledOp(w)).store;
      assert Legal(env, t, CoupledOp(w));
      StepKeeps(env, t, CoupledOp(w));
      forall other | other != ch ensures Reload(u, other) == Reload(s, other) {
        ReloadElsewhere(env, t, CoupledOp(w), other);
      }
      ThenBegun(env, s, w, t, u);
    }
  }

  lemma FirstNoted(env: Env, s: Store, w: Work, t: Store)
    requires w.Couple? && WorkRunnable(w) && t == Step(env, s, NoteOp(w)).store
    ensures !Notes(env, s, w) ==> t == Result(env, s, Reload(s, w.startChannel), w)
  {
    hide Reload;
  }

  lemma ThenBegun(env: Env, s: Store, w: Work, t: Store, u: Store)
    requires StoreOk(env, s) && w.Couple? && WorkLegal(env, s, w) && WorkRunnable(w) && Notes(env, s, w)
    requires t == Step(env, s, NoteOp(w)).store && u == Step(env, t, CoupledOp(w)).store && StoreOk(env, t)
    ensures u == Result(env, s, Reload(s, w.startChannel), w)
  {
    hide StoreOk, Reload, LoadJobs;
    var ch := w.startChannel;
    var v := Reload(s, ch).value;
    SameCallReloaded(s, t, ch);
    NotedElsewhere(env, s, w, t, v);
  }

  lemma NotedElsewhere(env: Env, s: Store, w: Work, t: Store, v: State)
    requires StoreOk(env, s) && w.Couple? && WorkRunnable(w) && Notes(env, s, w) && StoreOk(env, t)
    requires t == Step(env, s, NoteOp(w)).store && Reload(s, w.startChannel) == Some(v)
    ensures t.calls == s.calls && t.sessions == s.sessions
    ensures Reload(t, w.startChannel).Some? && Reload(t, w.startChannel).value.call == v.call
    ensures Reload(t, w.startChannel).value.jobs.transcription == v.jobs.transcription
  {
    hide StoreOk, LoadJobs, FinishRecording, DeskOk, CallOk, Reload;
    LoadTracks(env, s, w.startChannel);
    SameCallReloaded(s, t, w.startChannel);
    LoadedTranscription(s, w.startChannel);
    LoadedTranscription(t, w.startChannel);
    TranscriptionAside(Desk(s.jobs, v.jobs, []), v.call.id, w.run, Ctx(w.startChannel, env.botID, w.at));
  }

  lemma LoadedTranscription(s: Store, ch: Id)
    ensures Reload(s, ch).Some? ==> var v := Reload(s, ch).value;
      v.jobs.transcription == ActiveJob(s.jobs, v.call.id, Transcribing)
  {
  }

  lemma TranscriptionAside(d: Desk, callID: Id, run: RunResult, x: Ctx)
    requires DeskOk(d, callID)
    ensures ActiveJob(FinishRecording(d, run, x).0, callID, Transcribing) == ActiveJob(d.rows, callID, Transcribing)
  {
    hide OneLive;
    SlotKinds(d, callID);
    SameActive(d.rows, FinishRecording(d, run, x).0, callID, Transcribing);
  }

  /** And those steps continue any run that has led to the store. */
  lemma WorkContinues(env: Env, trace: seq<Store>, ops: seq<Op>, w: Work)
    requires Run(env, trace, ops) && WorkLegal(env, trace[|ops|], w) && WorkRunnable(w)
    ensures Run(env, trace + StoresOf(env, trace[|ops|], w), ops + StepsOf(env, trace[|ops|], w))
  {
    hide Legal, Run, Step, JoinsLegal, Notes;
    RunLengths(env, trace, ops);
    match w
    case One(op) => OneMoreStep(env, trace, ops, op);
    case Joins(ch, items) => JoinsContinue(env, trace, ops, ch, items);
    case Couple(_, _, _, _, _, _) => CoupleContinues(env, trace, ops, w);
  }

  lemma CoupleContinues(env: Env, trace: seq<Store>, ops: seq<Op>, w: Work)
    requires Run(env, trace, ops) && w.Couple? && WorkLegal(env, trace[|ops|], w) && WorkRunnable(w)
    ensures Run(env, trace + StoresOf(env, trace[|ops|], w), ops + StepsOf(env, trace[|ops|], w))
  {
    hide Run, Step, Notes;
    RunLengths(env, trace, ops);
    var s := trace[|ops|];
    var t := Step(env, s, NoteOp(w)).store;
    OneMoreStep(env, trace, ops, NoteOp(w));
    if Notes(env, s, w) {
      OneMoreStep(env, trace + [t], ops + [NoteOp(w)], CoupledOp(w));
      var u := Step(env, t, CoupledOp(w)).store;
      assert trace + [t] + [u] == trace + [t, u];
      assert ops + [NoteOp(w)] + [CoupledOp(w)] == ops + [NoteOp(w), CoupledOp(w)];
    }
  }

  lemma RunLengths(env: Env, trace: seq<Store>, ops: seq<Op>)
    requires Run(env, trace, ops)
    ensures |trace| == |ops| + 1
  {
    hide Legal, Step;
  }

  lemma {:induction false} JoinsContinue(env: Env, trace: seq<Store>, ops: seq<Op>, ch: Id, items: seq<JoinIn>)
    requires Run(env, trace, ops) && JoinsLegal(env, trace[|ops|], ch, items)
    ensures Run(env, trace + JoinStores(env, trace[|ops|], items), ops + JoinOps(items))
    decreases |items|
  {
    hide Legal, Run, Step;
    RunLengths(env, trace, ops);
    var s := trace[|ops|];
    if items == [] {
      assert trace + [] == trace && ops + [] == ops;
    } else {
      var t := Step(env, s, JoinOp(items[0])).store;
      OneMoreStep(env, trace, ops, JoinOp(items[0]));
      JoinsContinue(env, trace + [t], ops + [JoinOp(items[0])], ch, items[1..]);
      assert trace + [t] + JoinStores(env, t, items[1..]) == trace + JoinStores(env, s, items);
      assert ops + [JoinOp(items[0])] + JoinOps(items[1..]) == ops + JoinOps(items);
    }
  }

  // ---- the cluster ----

  type Node = Lease.Instance

  /** How far a locked section has come. */
  datatype Phase = Locked | Loaded(st: Option<State>) | Done

  /** A locked section in progress: what it will do and how far it has come. */
  datatype Section = Section(work: Work, phase: Phase)

  /** One lock per channel, the store, and the open sections. */
  datatype Cluster = Cluster(locks: map<Id, Lease.Lease>, store: Store, open: map<(Id, Node), Section>)

  datatype Act =
    | Pass(d: nat)
    | Open(node: Node, work: Work, lockFails: bool)
    | Refresh(ch: Id, node: Node, refreshFails: bool)
    | Read(ch: Id, node: Node)
    | Write(ch: Id, node: Node)
    | Close(ch: Id, node: Node, deleteFails: bool)

  ghost predicate Can(env: Env, c: Cluster, a: Act) {
    match a
    case Pass(_) => true
    case Open(node, work, fails) =>
      var ch := WorkChannel(work);
      ch in c.locks && Lease.Can(c.locks[ch], Lease.TryLock(node, fails)) && (ch, node) !in c.open
    case Refresh(ch, node, fails) => ch in c.locks && Lease.Can(c.locks[ch], Lease.Refresh(node, fails))
    case Read(ch, node) => (ch, node) in c.open && c.open[(ch, node)].phase.Locked?
    case Write(ch, node) =>
      && (ch, node) in c.open && c.open[(ch, node)].phase.Loaded?
      && WorkLegal(env, c.store, c.open[(ch, node)].work) && WorkRunnable(c.open[(ch, node)].work)
    case Close(ch, node, fails) =>
      (ch, node) in c.open && ch in c.locks && Lease.Can(c.locks[ch], Lease.Unlock(node, fails))
  }

  /** A section locks, loads, and later computes with what it has loaded and writes to the store as it
      is then. */
  ghost function Do(env: Env, c: Cluster, a: Act): Cluster
    requires Can(env, c, a)
  {
    match a
    case Pass(d) => c.(locks := map ch | ch in c.locks :: Lease.Do(c.locks[ch], Lease.Wait(d)))
    case Open(node, work, fails) =>
      var ch := WorkChannel(work);
      var l := Lease.Do(c.locks[ch], Lease.TryLock(node, fails));
      c.(locks := c.locks[ch := l],
         open := if node in l.held then c.open[(ch, node) := Section(work, Locked)] else c.open)
    case Refresh(ch, node, fails) => c.(locks := c.locks[ch := Lease.Do(c.locks[ch], Lease.Refresh(node, fails))])
    case Read(ch, node) =>
      c.(open := c.open[(ch, node) := c.open[(ch, node)].(phase := Loaded(Reload(c.store, ch)))])
    case Write(ch, node) =>
      var b := c.open[(ch, node)];
      c.(store := Result(env, c.store, b.phase.st, b.work), open := c.open[(ch, node) := b.(phase := Done)])
    case Close(ch, node, fails) =>
      c.(locks := c.locks[ch := Lease.Do(c.locks[ch], Lease.Unlock(node, fails))], open := c.open - {(ch, node)})
  }

  predicate Timely(c: Cluster) { forall ch | ch in c.locks :: Lease.Timely(c.locks[ch]) }

  /** Every open section holds its lock and what it has loaded is still what a load would give. */
  ghost predicate SectionsOk(c: Cluster) {
    forall ch, node | (ch, node) in c.open ::
      && ch in c.locks && node in c.locks[ch].held && WorkChannel(c.open[(ch, node)].work) == ch
      && (c.open[(ch, node)].phase.Loaded? ==> c.open[(ch, node)].phase.st == Reload(c.store, ch))
  }

  predicate LocksOk(c: Cluster) { forall ch | ch in c.locks :: Lease.Exclusive(c.locks[ch]) }

  lemma LocksKept(env: Env, c: Cluster, a: Act)
    requires LocksOk(c) && Timely(c) && Can(env, c, a)
    ensures LocksOk(Do(env, c, a))
  {
    hide Lease.Exclusive, Lease.Timely, Lease.Do, Lease.Can, Reload, Result, WorkLegal;
    match a
    case Pass(d) =>
      forall ch | ch in c.locks ensures Lease.Exclusive(Do(env, c, a).locks[ch]) {
        AlwaysWaits(c.locks[ch], d);
        Lease.StepExclusive(c.locks[ch], Lease.Wait(d));
      }
    case Open(node, work, fails) => Lease.StepExclusive(c.locks[WorkChannel(work)], Lease.TryLock(node, fails));
    case Refresh(ch, node, fails) => Lease.StepExclusive(c.locks[ch], Lease.Refresh(node, fails));
    case Read(_, _) =>
    case Write(_, _) =>
    case Close(ch, node, fails) => Lease.StepExclusive(c.locks[ch], Lease.Unlock(node, fails));
  }

  lemma AlwaysWaits(l: Lease.Lease, d: nat)
    ensures Lease.Can(l, Lease.Wait(d))
  {
  }

  /** A section that writes does, on the store as it is at that moment, exactly its steps. */
  lemma WriteIsSteps(env: Env, c: Cluster, ch: Id, node: Node)
    requires StoreOk(env, c.store) && LocksOk(c) && SectionsOk(c) && Can(env, c, Write(ch, node))
    ensures var (d, w) := (Do(env, c, Write(ch, node)), c.open[(ch, node)].work);
      && d.store == ([c.store] + StoresOf(env, c.store, w))[|StoresOf(env, c.store, w)|]
      && StoreOk(env, d.store) && SectionsOk(d)
  {
    hide StoreOk, Result, Reload, WorkLegal, LocksOk, StoresOf;
    var d := Do(env, c, Write(ch, node));
    var w := c.open[(ch, node)].work;
    assert WorkChannel(w) == ch;
    WorkIsSteps(env, c.store, w);
    forall x, n | (x, n) in d.open
      ensures x in d.locks && n in d.locks[x].held && WorkChannel(d.open[(x, n)].work) == x
      ensures d.open[(x, n)].phase.Loaded? ==> d.open[(x, n)].phase.st == Reload(d.store, x)
    {
      assert (x, n) in c.open;
      if x == ch { OneHolder(c, ch, node, n); }
    }
  }

  lemma OneHolder(c: Cluster, ch: Id, a: Node, b: Node)
    requires LocksOk(c) && ch in c.locks && a in c.locks[ch].held && b in c.locks[ch].held
    ensures a == b
  {
    assert Lease.Exclusive(c.locks[ch]);
    assert c.locks[ch].held.Keys == {a};
  }

  lemma SectionsKept(env: Env, c: Cluster, a: Act)
    requires SectionsOk(c) && LocksOk(c) && Can(env, c, a) && !a.Write?
    ensures SectionsOk(Do(env, c, a)) && Do(env, c, a).store == c.store
  {
    hide Reload, Result, WorkLegal, LocksOk;
    var d := Do(env, c, a);
    forall x, n | (x, n) in d.open
      ensures x in d.locks && n in d.locks[x].held && WorkChannel(d.open[(x, n)].work) == x
      ensures d.open[(x, n)].phase.Loaded? ==> d.open[(x, n)].phase.st == Reload(d.store, x)
    {
      if (x, n) in c.open {
        if a.Close? && a.ch == x { OneHolder(c, x, a.node, n); }
      }
    }
  }

  function StartCluster(life: int, now: int, channels: set<Id>): Cluster {
    Cluster(map ch | ch in channels :: Lease.Lease(life, now, None, map[], {}), EMPTY, map[])
  }

  ghost predicate ClusterRun(env: Env, life: int, now: int, channels: set<Id>, trace: seq<Cluster>, acts: seq<Act>) {
    && |trace| == |acts| + 1 && trace[0] == StartCluster(life, now, channels)
    && forall i | 0 <= i < |acts| :: Can(env, trace[i], acts[i]) && trace[i + 1] == Do(env, trace[i], acts[i])
  }

  /** Every write in the run has its section open, with work that can run. */
  predicate WritesOpen(trace: seq<Cluster>, acts: seq<Act>) {
    && |trace| == |acts| + 1
    && forall i | 0 <= i < |acts| && acts[i].Write? ::
         (acts[i].ch, acts[i].node) in trace[i].open && WorkRunnable(trace[i].open[(acts[i].ch, acts[i].node)].work)
  }

  /** The steps written so far and the stores they left, in the order of the writes. */
  ghost function Written(env: Env, trace: seq<Cluster>, acts: seq<Act>, n: nat): seq<Op>
    requires WritesOpen(trace, acts) && n <= |acts|
  {
    if n == 0 then []
    else if acts[n - 1].Write?
    then Written(env, trace, acts, n - 1)
         + StepsOf(env, trace[n - 1].store, trace[n - 1].open[(acts[n - 1].ch, acts[n - 1].node)].work)
    else Written(env, trace, acts, n - 1)
  }

  ghost function Stores(env: Env, trace: seq<Cluster>, acts: seq<Act>, n: nat): seq<Store>
    requires WritesOpen(trace, acts) && n <= |acts|
  {
    if n == 0 then [EMPTY]
    else if acts[n - 1].Write?
    then Stores(env, trace, acts, n - 1)
         + StoresOf(env, trace[n - 1].store, trace[n - 1].open[(acts[n - 1].ch, acts[n - 1].node)].work)
    else Stores(env, trace, acts, n - 1)
  }

  lemma RunWritesOpen(env: Env, life: int, now: int, channels: set<Id>, trace: seq<Cluster>, acts: seq<Act>)
    requires ClusterRun(env, life, now, channels, trace, acts)
    ensures WritesOpen(trace, acts)
  {
    hide WorkLegal, Do;
  }

  /** In every run of any number of nodes over any number of channels in which no lock holder is
      late, the writes happen as if the sections had been run one after the other, each whole and
      each item of a batch with a load of its own: the stores form a run of the machine, whatever
      was loaded before and written in between. */
  lemma {:induction false} Serializable(
      env: Env, life: int, now: int, channels: set<Id>, trace: seq<Cluster>, acts: seq<Act>, n: nat)
    requires ClusterRun(env, life, now, channels, trace, acts) && n <= |acts|
    requires forall m | 0 <= m < n :: Timely(trace[m])
    ensures WritesOpen(trace, acts)
    ensures Run(env, Stores(env, trace, acts, n), Written(env, trace, acts, n))
    ensures trace[n].store == Stores(env, trace, acts, n)[|Written(env, trace, acts, n)|]
    ensures LocksOk(trace[n]) && SectionsOk(trace[n]) && StoreOk(env, trace[n].store)
  {
    hide StoreOk, Can, Do, LocksOk, SectionsOk, Timely, WorkLegal, Step, StoresOf, StepsOf, Run;
    RunWritesOpen(env, life, now, channels, trace, acts);
    if n == 0 {
      StartOk(env, trace[0], life, now, channels);
      StartRun(env);
    } else {
      Serializable(env, life, now, channels, trace, acts, n - 1);
      var (c, a) := (trace[n - 1], acts[n - 1]);
      LocksKept(env, c, a);
      RunLengths(env, Stores(env, trace, acts, n - 1), Written(env, trace, acts, n - 1));
      if a.Write? {
        CanWrite(env, c, a);
        WriteIsSteps(env, c, a.ch, a.node);
        WorkContinues(env, Stores(env, trace, acts, n - 1), Written(env, trace, acts, n - 1),
                      c.open[(a.ch, a.node)].work);
        RunLengths(env, Stores(env, trace, acts, n), Written(env, trace, acts, n));
        LastOfBoth(Stores(env, trace, acts, n - 1), StoresOf(env, c.store, c.open[(a.ch, a.node)].work));
      } else {
        SectionsKept(env, c, a);
      }
    }
  }

  lemma LastOfBoth(a: seq<Store>, b: seq<Store>)
    requires a != []
    ensures (a + b)[|a| + |b| - 1] == ([a[|a| - 1]] + b)[|b|]
  {
  }

  lemma CanWrite(env: Env, c: Cluster, a: Act)
    requires a.Write? && Can(env, c, a)
    ensures (a.ch, a.node) in c.open && WorkLegal(env, c.store, c.open[(a.ch, a.node)].work)
    ensures WorkRunnable(c.open[(a.ch, a.node)].work)
  {
    hide WorkLegal;
  }

  lemma StartRun(env: Env)
    ensures Run(env, [EMPTY], [])
  {
  }

  lemma StartOk(env: Env, c: Cluster, life: int, now: int, channels: set<Id>)
    requires c == StartCluster(life, now, channels)
    ensures LocksOk(c) && SectionsOk(c) && StoreOk(env, c.store)
  {
  }

  // ---- what a late holder costs ----

  /** Two sections of one channel that both loaded before either wrote: the raised hand is lost,
      though each handler alone would have kept it. */
  lemma LateMuteLosesHand(env: Env, s: Store, f: From, g: From, unmute: bool)
    requires StoreOk(env, s) && f.channelID == g.channelID && f.conn == g.conn && g.now != 0
    requires Reload(s, f.channelID).Some? && f.conn in Reload(s, f.channelID).value.sessions
    requires Reload(s, f.channelID).value.sessions[f.conn].raisedHand == 0
    requires Legal(env, s, HandOp(g, true))
    ensures var t := Step(env, s, HandOp(g, true)).store;
      && f.conn in t.sessions && t.sessions[f.conn].raisedHand == g.now
      && f.conn in Handle(env, t, Reload(s, f.channelID), MuteOp(f, unmute)).store.sessions
      && Handle(env, t, Reload(s, f.channelID), MuteOp(f, unmute)).store.sessions[f.conn].raisedHand == 0
      && f.conn in Step(env, t, MuteOp(f, unmute)).store.sessions
      && Step(env, t, MuteOp(f, unmute)).store.sessions[f.conn].raisedHand == g.now
  {
    hide StoreOk, LoadJobs;
    LoadTracks(env, s, f.channelID);
    var v := Reload(s, f.channelID).value;
    HandlersWrittenThrough(env, s, HandOp(g, true));
    InTable(env, s, v, f.conn);
  }

  function LateActs(ch: Id, f: From, g: From, unmute: bool, a: Node, b: Node, life: nat): seq<Act> {
    [Open(a, One(MuteOp(f, unmute)), false), Read(ch, a), Pass(life),
     Open(b, One(HandOp(g, true)), false), Read(ch, b), Write(ch, b), Write(ch, a)]
  }

  /** The free lock of a channel with a call in which a session has its hand down. */
  ghost predicate Lendable(env: Env, c: Cluster, ch: Id, f: From, g: From, a: Node, b: Node) {
    && StoreOk(env, c.store) && f.channelID == ch && g.channelID == ch && f.conn == g.conn && a != b
    && Legal(env, c.store, MuteOp(f, true)) && Legal(env, c.store, HandOp(g, true))
    && Reload(c.store, ch).Some? && f.conn in Reload(c.store, ch).value.sessions
    && Reload(c.store, ch).value.sessions[f.conn].raisedHand == 0
    && ch in c.locks && c.locks[ch].held == map[] && !c.locks[ch].Live() && c.locks[ch].life > 0
    && (ch, a) !in c.open && (ch, b) !in c.open
  }

  /** Any run of the cluster that has reached such a state can go on so that node a takes the lock
      and loads, lets the life of the key pass, node b takes the lock too, raises the hand, and the
      late write of a lowers it again. */
  lemma LateRun(env: Env, life: int, now: int, channels: set<Id>, trace: seq<Cluster>, acts: seq<Act>,
                ch: Id, f: From, g: From, unmute: bool, a: Node, b: Node)
    requires ClusterRun(env, life, now, channels, trace, acts) && Lendable(env, trace[|acts|], ch, f, g, a, b)
    ensures var late := LateActs(ch, f, g, unmute, a, b, trace[|acts|].locks[ch].life);
      exists more ::
        ClusterRun(env, life, now, channels, trace + more, acts + late) && HandLost(more, ch, f.conn, g.now, a, b)
  {
    hide StoreOk, Reload, Legal, Can, Do, Handle, Timely, Step, HandLost;
    var c := trace[|acts|];
    LateStates(env, c, ch, f, g, unmute, a, b);
    RunOn(env, life, now, channels, trace, acts, LateActs(ch, f, g, unmute, a, b, c.locks[ch].life));
  }

  /** All of the acts are possible, one after the other. */
  ghost predicate CanAll(env: Env, c: Cluster, acts: seq<Act>)
    decreases |acts|
  {
    acts == [] || (Can(env, c, acts[0]) && CanAll(env, Do(env, c, acts[0]), acts[1..]))
  }

  ghost function States(env: Env, c: Cluster, acts: seq<Act>): (cs: seq<Cluster>)
    requires CanAll(env, c, acts)
    ensures |cs| == |acts|
    decreases |acts|
  {
    if acts == [] then [] else
      var d := Do(env, c, acts[0]);
      [d] + States(env, d, acts[1..])
  }

  lemma {:induction false} RunOn(env: Env, life: int, now: int, channels: set<Id>, trace: seq<Cluster>, acts: seq<Act>,
                                 more: seq<Act>)
    requires ClusterRun(env, life, now, channels, trace, acts) && CanAll(env, trace[|acts|], more)
    ensures ClusterRun(env, life, now, channels, trace + States(env, trace[|acts|], more), acts + more)
    decreases |more|
  {
    hide Can, Do, ClusterRun;
    RunLength(env, life, now, channels, trace, acts);
    if more == [] {
      assert trace + [] == trace && acts + [] == acts;
    } else {
      var d := Do(env, trace[|acts|], more[0]);
      GoesOn(env, life, now, channels, trace, acts, more[0]);
      RunOn(env, life, now, channels, trace + [d], acts + [more[0]], more[1..]);
      assert trace + [d] + States(env, d, more[1..]) == trace + States(env, trace[|acts|], more);
      assert acts + [more[0]] + more[1..] == acts + more;
    }
  }

  lemma RunLength(env: Env, life: int, now: int, channels: set<Id>, trace: seq<Cluster>, acts: seq<Act>)
    requires ClusterRun(env, life, now, channels, trace, acts)
    ensures |trace| == |acts| + 1
  {
    hide Can, Do;
  }

  lemma LateStates(env: Env, c: Cluster, ch: Id, f: From, g: From, unmute: bool, a: Node, b: Node)
    requires Lendable(env, c, ch, f, g, a, b)
    ensures var late := LateActs(ch, f, g, unmute, a, b, c.locks[ch].life);
      CanAll(env, c, late) && HandLost(States(env, c, late), ch, f.conn, g.now, a, b)
  {
    hide StoreOk, Reload, Legal, Can, Do, Handle, Timely, Step;
    var late := LateActs(ch, f, g, unmute, a, b, c.locks[ch].life);
    LateOpens(env, c, ch, f, g, unmute, a, b);
    var c3 := Do(env, Do(env, Do(env, c, late[0]), late[1]), late[2]);
    var c5 := Do(env, Do(env, c3, late[3]), late[4]);
    LateWrites(env, c, c5, ch, f, g, unmute, a, b);
    TwoWrites(env, c5, ch, a, b);
    assert late[5..] == [Write(ch, b), Write(ch, a)];
    Unfold(env, c, late, c3, c5);
  }

  lemma TwoWrites(env: Env, c: Cluster, ch: Id, a: Node, b: Node)
    requires Can(env, c, Write(ch, b)) && Can(env, Do(env, c, Write(ch, b)), Write(ch, a))
    ensures CanAll(env, c, [Write(ch, b), Write(ch, a)])
    ensures var d := Do(env, c, Write(ch, b));
      States(env, c, [Write(ch, b), Write(ch, a)]) == [d, Do(env, d, Write(ch, a))]
  {
    hide Can, Do;
    var two := [Write(ch, b), Write(ch, a)];
    assert two[1..] == [Write(ch, a)] && two[1..][1..] == [];
    assert States(env, Do(env, Do(env, c, two[0]), two[1]), []) == [];
  }

  lemma Unfold(env: Env, c: Cluster, acts: seq<Act>, c3: Cluster, c5: Cluster)
    requires |acts| == 7 && Can(env, c, acts[0]) && Can(env, Do(env, c, acts[0]), acts[1])
    requires Can(env, Do(env, Do(env, c, acts[0]), acts[1]), acts[2])
    requires c3 == Do(env, Do(env, Do(env, c, acts[0]), acts[1]), acts[2])
    requires Can(env, c3, acts[3]) && Can(env, Do(env, c3, acts[3]), acts[4])
    requires c5 == Do(env, Do(env, c3, acts[3]), acts[4]) && CanAll(env, c5, acts[5..])
    ensures CanAll(env, c, acts)
    ensures States(env, c, acts)[2] == c3 && States(env, c, acts)[3] == Do(env, c3, acts[3])
    ensures States(env, c, acts)[5..] == States(env, c5, acts[5..])
  {
    hide Can, Do;
    assert acts[4..][1..] == acts[5..] && acts[3..][1..] == acts[4..] && acts[2..][1..] == acts[3..];
    assert acts[1..][1..] == acts[2..];
    var c1 := Do(env, c, acts[0]);
    var c2 := Do(env, c1, acts[1]);
    var c4 := Do(env, c3, acts[3]);
    assert CanAll(env, c4, acts[4..]) && States(env, c4, acts[4..]) == [c5] + States(env, c5, acts[5..]);
    assert CanAll(env, c3, acts[3..]) && States(env, c3, acts[3..]) == [c4] + States(env, c4, acts[4..]);
    assert CanAll(env, c2, acts[2..]) && States(env, c2, acts[2..]) == [c3] + States(env, c3, acts[3..]);
    assert CanAll(env, c1, acts[1..]) && States(env, c1, acts[1..]) == [c2] + States(env, c2, acts[2..]);
    assert States(env, c, acts) == [c1, c2, c3, c4, c5] + States(env, c5, acts[5..]);
  }

  /** Both nodes hold the lock and have loaded the same state. */
  ghost predicate BothOpen(c: Cluster, d: Cluster, ch: Id, f: From, g: From, unmute: bool, a: Node, b: Node) {
    && d.store == c.store && ch in d.locks && a in d.locks[ch].held && b in d.locks[ch].held
    && d.open == c.open[(ch, a) := Section(One(MuteOp(f, unmute)), Loaded(Reload(c.store, ch)))]
                       [(ch, b) := Section(One(HandOp(g, true)), Loaded(Reload(c.store, ch)))]
  }

  /** The lock holder is late, two nodes hold the lock, the hand goes up and is lost. */
  predicate HandLost(more: seq<Cluster>, ch: Id, conn: Id, raisedAt: int, a: Node, b: Node) {
    && |more| == 7 && !Timely(more[2])
    && ch in more[3].locks && a in more[3].locks[ch].held && b in more[3].locks[ch].held
    && HandOf(more[5].store, conn) == raisedAt && HandOf(more[6].store, conn) == 0
  }

  function HandOf(s: Store, conn: Id): int {
    if conn in s.sessions then s.sessions[conn].raisedHand else 0
  }

  lemma GoesOn(env: Env, life: int, now: int, channels: set<Id>, trace: seq<Cluster>, acts: seq<Act>, a: Act)
    requires ClusterRun(env, life, now, channels, trace, acts) && Can(env, trace[|acts|], a)
    ensures ClusterRun(env, life, now, channels, trace + [Do(env, trace[|acts|], a)], acts + [a])
  {
    hide Can, Do;
    var t, o := trace + [Do(env, trace[|acts|], a)], acts + [a];
    forall i | 0 <= i < |o| ensures Can(env, t[i], o[i]) && t[i + 1] == Do(env, t[i], o[i]) {
      if i < |acts| { assert t[i] == trace[i] && t[i + 1] == trace[i + 1] && o[i] == acts[i]; }
    }
  }

  lemma LateOpens(env: Env, c: Cluster, ch: Id, f: From, g: From, unmute: bool, a: Node, b: Node)
    requires Lendable(env, c, ch, f, g, a, b)
    ensures var late := LateActs(ch, f, g, unmute, a, b, c.locks[ch].life);
      && Can(env, c, late[0]) && Can(env, Do(env, c, late[0]), late[1])
      && Can(env, Do(env, Do(env, c, late[0]), late[1]), late[2])
      && var c3 := Do(env, Do(env, Do(env, c, late[0]), late[1]), late[2]);
      && Can(env, c3, late[3]) && Can(env, Do(env, c3, late[3]), late[4]) && !Timely(c3)
      && (var c4 := Do(env, c3, late[3]); ch in c4.locks && a in c4.locks[ch].held && b in c4.locks[ch].held)
      && BothOpen(c, Do(env, Do(env, c3, late[3]), late[4]), ch, f, g, unmute, a, b)
  {
    hide StoreOk, Reload, Legal, WorkLegal, Result, Can, Do, Timely;
    var late := LateActs(ch, f, g, unmute, a, b, c.locks[ch].life);
    FirstLate(env, c, ch, f, g, unmute, a, b);
    var c3 := Do(env, Do(env, Do(env, c, late[0]), late[1]), late[2]);
    SecondEnters(env, c3, c3.locks[ch], ch, g, a, b);
  }

  /** Node a has loaded and its key has expired. */
  ghost predicate Expired(c: Cluster, d: Cluster, ch: Id, f: From, unmute: bool, a: Node) {
    && d.store == c.store && d.open == c.open[(ch, a) := Section(One(MuteOp(f, unmute)), Loaded(Reload(c.store, ch)))]
    && ch in d.locks && d.locks[ch].held.Keys == {a} && !d.locks[ch].Live() && d.locks[ch].life > 0 && !Timely(d)
  }

  lemma FirstLate(env: Env, c: Cluster, ch: Id, f: From, g: From, unmute: bool, a: Node, b: Node)
    requires Lendable(env, c, ch, f, g, a, b)
    ensures var late := LateActs(ch, f, g, unmute, a, b, c.locks[ch].life);
      && Can(env, c, late[0]) && Can(env, Do(env, c, late[0]), late[1])
      && Can(env, Do(env, Do(env, c, late[0]), late[1]), late[2])
      && Expired(c, Do(env, Do(env, Do(env, c, late[0]), late[1]), late[2]), ch, f, unmute, a)
  {
    hide StoreOk, Reload, Legal, WorkLegal, Result;
  }

  lemma SecondEnters(env: Env, d: Cluster, l: Lease.Lease, ch: Id, g: From, a: Node, b: Node)
    requires ch in d.locks && l == d.locks[ch] && l.held.Keys == {a} && !l.Live() && l.life > 0 && a != b
    requires (ch, b) !in d.open && g.channelID == ch
    ensures Can(env, d, Open(b, One(HandOp(g, true)), false))
    ensures var e := Do(env, d, Open(b, One(HandOp(g, true)), false));
      && Can(env, e, Read(ch, b)) && ch in e.locks && a in e.locks[ch].held && b in e.locks[ch].held
      && Do(env, e, Read(ch, b)).locks == e.locks && Do(env, e, Read(ch, b)).store == d.store
      && Do(env, e, Read(ch, b)).open
         == d.open[(ch, b) := Section(One(HandOp(g, true)), Loaded(Reload(d.store, ch)))]
  {
    hide Reload, Legal, WorkLegal, Result;
  }

  lemma LateWrites(env: Env, c: Cluster, c3: Cluster, ch: Id, f: From, g: From, unmute: bool, a: Node, b: Node)
    requires Lendable(env, c, ch, f, g, a, b) && BothOpen(c, c3, ch, f, g, unmute, a, b)
    ensures Can(env, c3, Write(ch, b))
    ensures var c4 := Do(env, c3, Write(ch, b));
      Can(env, c4, Write(ch, a)) && HandOf(c4.store, f.conn) == g.now
      && HandOf(Do(env, c4, Write(ch, a)).store, f.conn) == 0
  {
    hide StoreOk, Reload, Legal, Handle, Step;
    MuteStaysLegal(env, c.store, f, g, unmute);
    LateMuteLosesHand(env, c.store, f, g, unmute);
    SameStep(env, c.store, HandOp(g, true));
  }

  lemma SameStep(env: Env, s: Store, op: Op)
    requires Runnable(op)
    ensures Step(env, s, op) == Handle(env, s, Reload(s, Channel(op)), op)
  {
    hide Reload, Handle;
  }

  lemma MuteStaysLegal(env: Env, s: Store, f: From, g: From, unmute: bool)
    requires StoreOk(env, s) && Legal(env, s, MuteOp(f, true)) && Legal(env, s, HandOp(g, true))
    requires f.conn == g.conn && f.channelID == g.channelID
    ensures g.now != 0 && Legal(env, Step(env, s, HandOp(g, true)).store, MuteOp(f, unmute))
  {
    hide StoreOk, LoadJobs;
    LoadTracks(env, s, g.channelID);
    var st := Reload(s, g.channelID);
    if st.Some? && g.conn in st.value.sessions { InTable(env, s, st.value, g.conn); }
  }

  lemma InTable(env: Env, s: Store, v: State, k: Id)
    requires StoreOk(env, s) && v.sessions == SessionsOf(s.sessions, v.call.id) && k in v.sessions
    ensures k in s.sessions && v.sessions[k] == s.sessions[k] && s.sessions[k].id == k
  {
    hide CallOk;
  }
}
