/** Reading the store: the queries and their orders (server/db/calls_store.go,
    server/db/calls_jobs_store.go, server/db/calls_sessions_store.go, server/state.go:269-321). */
module Queries {
  import opened Basics
  import opened Rows
  import opened Load
  import opened WriteThrough
  import opened CallStates

  /** ORDER BY StartAt DESC, ID with LIMIT 1. */
  method First(keys: set<Id>, rank: map<Id, int>) returns (best: Id)
    requires keys != {} && keys <= rank.Keys
    ensures IsFirst(best, keys, rank)
  {
    best :| best in keys;
    var todo := keys - {best};
    assert keys - todo == {best};
    while todo != {}
      invariant todo <= keys && IsFirst(best, keys - todo, rank)
      decreases |todo|
    {
      var k :| k in todo;
      IdLessTotal(k, best);
      var rest := todo - {k};
      if Before(rank[k], k, rank[best], best) {
        NewFirst(k, best, keys - todo, rank);
        best := k;
      }
      assert keys - rest == keys - todo + {k};
      todo := rest;
    }
    assert keys - todo == keys;
  }

  lemma NewFirst(k: Id, best: Id, keys: set<Id>, rank: map<Id, int>)
    requires IsFirst(best, keys, rank) && k in rank && Before(rank[k], k, rank[best], best)
    ensures IsFirst(k, keys + {k}, rank)
  {
    forall x | x in keys && x != k ensures Before(rank[k], k, rank[x], x) {
      if x != best && rank[k] == rank[best] && rank[best] == rank[x] { IdLessTransitive(k, best, x); }
    }
  }

  method GetActiveCallByChannelID(calls: map<Id, Call>, channelID: Id) returns (c: Option<Call>)
    ensures c == ActiveCall(calls, channelID)
  {
    var keys := CallKeys(calls, channelID);
    if keys == {} { return None; }
    var k := First(keys, CallRank(calls));
    c := Some(calls[k]);
    ghost var j :| IsFirst(j, CallKeys(calls, channelID), CallRank(calls))
      && ActiveCall(calls, channelID) == Some(calls[j]);
    FirstUnique(keys, CallRank(calls), j, k);
  }

  function Unended(jobs: map<Id, Job>, callID: Id): set<Id> {
    set k | k in jobs && jobs[k].callID == callID && jobs[k].endAt == 0
  }

  /** The rows of the jobs query, in its order. */
  method QueryJobs(jobs: map<Id, Job>, callID: Id) returns (rows: seq<Job>)
    requires forall k | k in jobs :: jobs[k].id == k
    ensures QueryRows(rows, jobs, callID)
  {
    var keys, rank := Unended(jobs, callID), JobRank(jobs);
    rows := [];
    var todo := keys;
    while todo != {}
      invariant todo <= keys
      invariant forall i | 0 <= i < |rows| :: rows[i].id in keys - todo && jobs[rows[i].id] == rows[i]
      invariant forall k | k in keys - todo :: jobs[k] in rows
      invariant forall i, k | 0 <= i < |rows| && k in todo :: Before(rows[i].startAt, rows[i].id, jobs[k].startAt, k)
      invariant forall i, j | 0 <= i < j < |rows| :: Before(rows[i].startAt, rows[i].id, rows[j].startAt, rows[j].id)
      decreases |todo|
    {
      var k := First(todo, rank);
      rows := rows + [jobs[k]];
      todo := todo - {k};
    }
  }

  function Slot(found: map<Kind, Job>, kind: Kind): Option<Job> {
    if kind in found then Some(found[kind]) else None
  }

  /** getCallState: the objects of the channel's active call, or null. */
  method GetCallState(s: Store, channelID: Id) returns (st: CallState?)
    requires forall k | k in s.jobs :: s.jobs[k].id == k
    ensures st == null <==> Reload(s, channelID).None?
    ensures st != null ==> st.Valid() && st.View() == Reload(s, channelID).value && FreshButVideo(st)
    ensures st != null ==> (st.video != null ==> fresh(st.video))
  {
    var c := GetActiveCallByChannelID(s.calls, channelID);
    if c.None? { return null; }
    var rows := QueryJobs(s.jobs, c.value.id);
    var found := GetActiveCallJobs(rows, s.jobs, c.value.id);
    st := NewCallState(State(c.value, SessionsOf(s.sessions, c.value.id),
                             Jobs(Slot(found, Recording), Slot(found, Transcribing), Slot(found, Captioning))));
  }
}
