/** Reading a call back from the store: which row each query selects, and the in-memory
    state a handler starts from (server/state.go:269-321, server/db). */
module Load {
  import opened Basics
  import opened Rows

  /** The three job slots of the in-memory call state. */
  datatype Jobs = Jobs(recording: Option<Job>, transcription: Option<Job>, captions: Option<Job>)

  datatype State = State(call: Call, sessions: Sessions, jobs: Jobs)

  // ---- job selection: ORDER BY StartAt DESC, ID; the first row of each type ----

  function JobKeys(jobs: map<Id, Job>, callID: Id, kind: Kind): set<Id> {
    set k | k in jobs && jobs[k].callID == callID && jobs[k].kind == kind && jobs[k].endAt == 0
  }

  predicate Before(a: int, ka: Id, b: int, kb: Id) {
    a > b || (a == b && IdLess(ka, kb))
  }

  ghost predicate IsFirst(k: Id, keys: set<Id>, rank: map<Id, int>)
  {
    k in keys && keys <= rank.Keys && forall x | x in keys && x != k :: Before(rank[k], k, rank[x], x)
  }

  lemma {:induction false} FirstExists(keys: set<Id>, rank: map<Id, int>)
    requires keys <= rank.Keys && keys != {}
    ensures exists k :: IsFirst(k, keys, rank)
  {
    var x :| x in keys;
    var rest := keys - {x};
    if rest == {} {
      assert keys == {x};
      assert IsFirst(x, keys, rank);
    } else {
      FirstExists(rest, rank);
      var y :| IsFirst(y, rest, rank);
      IdLessTotal(x, y);
      if Before(rank[x], x, rank[y], y) {
        forall z | z in keys && z != x ensures Before(rank[x], x, rank[z], z) {
          if z != y && rank[x] == rank[y] && rank[y] == rank[z] { IdLessTransitive(x, y, z); }
        }
        assert IsFirst(x, keys, rank);
      } else {
        assert IsFirst(y, keys, rank);
      }
    }
  }

  function JobRank(jobs: map<Id, Job>): map<Id, int> {
    map k | k in jobs :: jobs[k].startAt
  }

  /** The row GetActiveCallJobs keeps for a type. */
  ghost function ActiveJob(jobs: map<Id, Job>, callID: Id, kind: Kind): (r: Option<Job>)
    ensures r.None? <==> JobKeys(jobs, callID, kind) == {}
    ensures r.Some? ==> exists k :: IsFirst(k, JobKeys(jobs, callID, kind), JobRank(jobs)) && r.value == jobs[k]
  {
    var keys := JobKeys(jobs, callID, kind);
    if keys == {} then None else
      FirstExists(keys, JobRank(jobs));
      var k :| IsFirst(k, keys, JobRank(jobs));
      Some(jobs[k])
  }

  ghost function LoadJobs(jobs: map<Id, Job>, callID: Id): Jobs {
    Jobs(ActiveJob(jobs, callID, Recording), ActiveJob(jobs, callID, Transcribing),
         ActiveJob(jobs, callID, Captioning))
  }

  // ---- call selection ----

  function CallKeys(calls: map<Id, Call>, channelID: Id): set<Id> {
    set k | k in calls && calls[k].channelID == channelID && calls[k].Active()
  }

  function CallRank(calls: map<Id, Call>): map<Id, int> {
    map k | k in calls :: calls[k].startAt
  }

  ghost function ActiveCall(calls: map<Id, Call>, channelID: Id): (r: Option<Call>)
    ensures r.None? <==> CallKeys(calls, channelID) == {}
    ensures r.Some? ==> exists k :: IsFirst(k, CallKeys(calls, channelID), CallRank(calls)) && r.value == calls[k]
  {
    var keys := CallKeys(calls, channelID);
    if keys == {} then None else
      FirstExists(keys, CallRank(calls));
      var k :| IsFirst(k, keys, CallRank(calls));
      Some(calls[k])
  }

  ghost function LoadCall(s: Store, c: Call): State {
    State(c, SessionsOf(s.sessions, c.id), LoadJobs(s.jobs, c.id))
  }

  /** getCallState: the active call of a channel with its sessions and un-ended jobs. */
  ghost function Reload(s: Store, channelID: Id): Option<State> {
    match ActiveCall(s.calls, channelID)
    case None => None
    case Some(c) => Some(LoadCall(s, c))
  }

  /** The calls and sessions alone decide which call and sessions a reload finds. */
  lemma SameCallReloaded(s: Store, t: Store, ch: Id)
    requires t.calls == s.calls && t.sessions == s.sessions
    ensures Reload(t, ch).Some? <==> Reload(s, ch).Some?
    ensures Reload(s, ch).Some? ==> Reload(t, ch).value == Reload(s, ch).value.(jobs := Reload(t, ch).value.jobs)
  {
    hide LoadJobs;
  }

  /** Every other of the jobs started earlier, or at the same time under a greater ID. */
  predicate Newest(jobs: map<Id, Job>, keys: set<Id>, j: Id)
    requires keys <= jobs.Keys
  {
    j in keys && forall k | k in keys && k != j ::
      jobs[k].startAt < jobs[j].startAt || (jobs[k].startAt == jobs[j].startAt && IdLess(j, k))
  }

  lemma NewestJob(jobs: map<Id, Job>, callID: Id, kind: Kind)
    ensures ActiveJob(jobs, callID, kind).Some? ==>
      exists j :: Newest(jobs, JobKeys(jobs, callID, kind), j) && ActiveJob(jobs, callID, kind).value == jobs[j]
  {
    if ActiveJob(jobs, callID, kind).Some? {
      var keys := JobKeys(jobs, callID, kind);
      var j :| IsFirst(j, keys, JobRank(jobs)) && ActiveJob(jobs, callID, kind).value == jobs[j];
      forall k | k in keys && k != j
        ensures jobs[k].startAt < jobs[j].startAt || (jobs[k].startAt == jobs[j].startAt && IdLess(j, k))
      {
        assert Before(JobRank(jobs)[j], j, JobRank(jobs)[k], k);
      }
      assert Newest(jobs, keys, j);
    }
  }

  // ---- the loop of GetActiveCallJobs ----

  /** The rows the query returns: every un-ended job of the call once, in query order. */
  ghost predicate QueryRows(rows: seq<Job>, jobs: map<Id, Job>, callID: Id) {
    && (forall k | k in jobs :: jobs[k].id == k)
    && (forall i | 0 <= i < |rows| :: rows[i].id in jobs && jobs[rows[i].id] == rows[i]
          && rows[i].callID == callID && rows[i].endAt == 0)
    && (forall k | k in jobs && jobs[k].callID == callID && jobs[k].endAt == 0 :: jobs[k] in rows)
    && (forall i, j | 0 <= i < j < |rows| :: Before(rows[i].startAt, rows[i].id, rows[j].startAt, rows[j].id))
  }

  predicate FirstOfKind(rows: seq<Job>, kind: Kind, j: nat) {
    j < |rows| && rows[j].kind == kind && forall l | 0 <= l < j :: rows[l].kind != kind
  }

  method GetActiveCallJobs(rows: seq<Job>, ghost jobs: map<Id, Job>, ghost callID: Id)
    returns (found: map<Kind, Job>)
    requires QueryRows(rows, jobs, callID)
    ensures forall kind :: (kind in found <==> ActiveJob(jobs, callID, kind).Some?)
    ensures forall kind :: kind in found ==> ActiveJob(jobs, callID, kind) == Some(found[kind])
  {
    found := map[];
    for i := 0 to |rows|
      invariant forall kind :: kind in found <==> exists j :: 0 <= j < i && rows[j].kind == kind
      invariant forall kind | kind in found ::
        exists j :: 0 <= j < i && FirstOfKind(rows, kind, j) && rows[j] == found[kind]
    {
      if rows[i].kind !in found {
        assert FirstOfKind(rows, rows[i].kind, i);
        found := found[rows[i].kind := rows[i]];
      }
    }
    forall kind
      ensures kind in found <==> ActiveJob(jobs, callID, kind).Some?
      ensures kind in found ==> ActiveJob(jobs, callID, kind) == Some(found[kind])
    {
      var keys := JobKeys(jobs, callID, kind);
      if keys != {} {
        var k :| k in keys;
        assert jobs[k] in rows;
        var i :| 0 <= i < |rows| && rows[i] == jobs[k];
        assert rows[i].kind == kind;
      }
      if kind in found {
        var j :| 0 <= j < |rows| && FirstOfKind(rows, kind, j) && rows[j] == found[kind];
        assert rows[j].id in keys;
        FirstRowIsFirst(rows, jobs, callID, kind, j);
      }
    }
  }

  lemma FirstRowIsFirst(rows: seq<Job>, jobs: map<Id, Job>, callID: Id, kind: Kind, j: nat)
    requires QueryRows(rows, jobs, callID)
    requires FirstOfKind(rows, kind, j)
    ensures ActiveJob(jobs, callID, kind) == Some(rows[j])
  {
    var keys, rank, mine := JobKeys(jobs, callID, kind), JobRank(jobs), rows[j].id;
    assert mine in keys;
    var k :| IsFirst(k, keys, rank) && ActiveJob(jobs, callID, kind) == Some(jobs[k]);
    if k != mine {
      assert IsFirst(k, keys, rank);
      assert k in keys;
      RowBefore(rows, jobs, callID, kind, j, k);
      IdLessTotal(k, mine);
    }
  }

  lemma RowBefore(rows: seq<Job>, jobs: map<Id, Job>, callID: Id, kind: Kind, j: nat, k: Id)
    requires QueryRows(rows, jobs, callID)
    requires FirstOfKind(rows, kind, j)
    requires k in JobKeys(jobs, callID, kind) && k != rows[j].id
    ensures Before(rows[j].startAt, rows[j].id, jobs[k].startAt, k)
  {
  }
}
