/** Finding, filling and retiring the batchers of a channel (server/session.go:529-613,
    server/websocket.go:972-1022): goroutines interleave freely, but each touches the tables of
    batchers only between taking and releasing p.mut. */
module Retirement {
  import opened Basics
  import opened Batcher
  import opened BatchLoop

  datatype Slot = AddSessions(channelID: Id) | RemoveSessions(channelID: Id)

  /** Where a goroutine is: outside p.mut, inside it, holding a batcher it looked up, or past the
      test that found a batcher's queue empty. */
  datatype Place = Outside | Inside | Found(slot: Slot, b: nat) | SawEmpty(slot: Slot, b: nat)

  /** Batchers are named by the order of their creation. `stopping` are those on which Stop has
      been called. */
  datatype Plugin = Plugin(holder: Option<Id>, places: map<Id, Place>, table: map<Slot, nat>,
                           loops: seq<Loop>, stopping: set<nat>)
  {
    function At(t: Id): Place { if t in places then places[t] else Outside }
  }

  datatype Act =
    | Lock(t: Id)
    | Unlock(t: Id)
    | Find(t: Id, slot: Slot, large: bool, size: nat)
    | Fill(t: Id, item: Item)
    | Look(t: Id, slot: Slot)
    | Retire(t: Id)
    | Work(b: nat, step: Step)

  predicate Can(p: Plugin, a: Act) {
    match a
    case Lock(t) => p.holder.None? && p.At(t).Outside?
    case Unlock(t) => p.At(t).Inside?
    case Find(t, _, _, _) => p.At(t).Inside?
    case Fill(t, _) => p.At(t).Found? && p.At(t).b < |p.loops|
    case Look(t, _) => p.At(t).Inside?
    case Retire(t) => p.At(t).SawEmpty?
    case Work(b, s) =>
      b < |p.loops| && !s.PushStep? && (s.StopStep? ==> b in p.stopping) && Enabled(p.loops[b], s)
  }

  function Move(p: Plugin, t: Id, to: Place): Plugin { p.(places := p.places[t := to]) }

  function Do(p: Plugin, a: Act): Plugin
    requires Can(p, a)
  {
    match a
    case Lock(t) => Move(p, t, Inside).(holder := Some(t))
    case Unlock(t) => Move(p, t, Outside).(holder := None)
    case Find(t, slot, large, size) =>
      if slot in p.table then Move(p, t, Found(slot, p.table[slot]))
      else if large && size > 0 then
        Move(p, t, Found(slot, |p.loops|)).(table := p.table[slot := |p.loops|], loops := p.loops + [New(size)])
      else p
    case Fill(t, item) =>
      var b := p.At(t).b;
      Move(p, t, Inside).(loops := p.loops[b := Next(p.loops[b], PushStep(item))])
    case Look(t, slot) =>
      if slot in p.table && p.table[slot] < |p.loops| && p.loops[p.table[slot]].queue == []
      then Move(p, t, SawEmpty(slot, p.table[slot])) else p
    case Retire(t) =>
      Move(p, t, Inside).(table := p.table - {p.At(t).slot}, stopping := p.stopping + {p.At(t).b})
    case Work(b, s) => p.(loops := p.loops[b := Next(p.loops[b], s)])
  }

  predicate TableOk(p: Plugin) {
    && (forall s | s in p.table :: p.table[s] < |p.loops| && p.table[s] !in p.stopping)
    && (forall s, r | s in p.table && r in p.table && p.table[s] == p.table[r] :: s == r)
  }

  predicate PlaceOk(p: Plugin, t: Id) {
    match p.At(t)
    case Outside => true
    case Inside => p.holder == Some(t)
    case Found(slot, b) => p.holder == Some(t) && slot in p.table && p.table[slot] == b
    case SawEmpty(slot, b) =>
      p.holder == Some(t) && slot in p.table && p.table[slot] == b && b < |p.loops| && p.loops[b].queue == []
  }

  /** A retired batcher has an empty queue. */
  predicate RetiredOk(p: Plugin) {
    && (forall b | b in p.stopping :: b < |p.loops| && p.loops[b].queue == [])
    && (forall b | 0 <= b < |p.loops| :: BatchLoop.Ok(p.loops[b]) && (p.loops[b].phase.Stopped? ==> b in p.stopping))
  }

  ghost predicate PluginOk(p: Plugin) {
    TableOk(p) && RetiredOk(p) && forall t :: PlaceOk(p, t)
  }

  lemma DoOk(p: Plugin, a: Act)
    requires PluginOk(p) && Can(p, a)
    ensures PluginOk(Do(p, a))
  {
    hide BatchLoop.Ok;
    var q := Do(p, a);
    match a
    case Fill(t, item) =>
      assert PlaceOk(p, t);
      NextOk(p.loops[p.At(t).b], PushStep(item));
      FillOk(p, t, item);
    case Retire(t) => RetireOk(p, t);
    case Work(b, s) =>
      NextOk(p.loops[b], s);
      WorkOk(p, b, s);
    case Find(t, slot, large, size) => FindOk(p, t, slot, large, size);
    case Look(t, slot) =>
      assert PlaceOk(p, t);
      forall u ensures PlaceOk(q, u) { assert PlaceOk(p, u); }
    case Lock(t) => forall u ensures PlaceOk(q, u) { assert PlaceOk(p, u); }
    case Unlock(t) =>
      assert PlaceOk(p, t);
      forall u ensures PlaceOk(q, u) { assert PlaceOk(p, u); }
  }

  lemma FillOk(p: Plugin, t: Id, item: Item)
    requires PluginOk(p) && Can(p, Fill(t, item)) && BatchLoop.Ok(Next(p.loops[p.At(t).b], PushStep(item)))
    ensures PluginOk(Do(p, Fill(t, item)))
  {
    hide BatchLoop.Ok;
    var q := Do(p, Fill(t, item));
    assert PlaceOk(p, t);
    forall u ensures PlaceOk(q, u) { assert PlaceOk(p, u); }
  }

  lemma RetireOk(p: Plugin, t: Id)
    requires PluginOk(p) && Can(p, Retire(t))
    ensures PluginOk(Do(p, Retire(t)))
  {
    hide BatchLoop.Ok;
    var q := Do(p, Retire(t));
    assert PlaceOk(p, t);
    forall u ensures PlaceOk(q, u) { assert PlaceOk(p, u); }
  }

  /** The goroutine of a batcher can only shorten its queue. */
  lemma WorkOk(p: Plugin, b: nat, s: Step)
    requires PluginOk(p) && Can(p, Work(b, s)) && BatchLoop.Ok(Next(p.loops[b], s))
    ensures PluginOk(Do(p, Work(b, s)))
  {
    hide BatchLoop.Ok;
    var q := Do(p, Work(b, s));
    assert p.loops[b].queue == [] ==> q.loops[b].queue == [];
    forall u ensures PlaceOk(q, u) { assert PlaceOk(p, u); }
  }

  lemma FindOk(p: Plugin, t: Id, slot: Slot, large: bool, size: nat)
    requires PluginOk(p) && Can(p, Find(t, slot, large, size))
    ensures PluginOk(Do(p, Find(t, slot, large, size)))
  {
    var q := Do(p, Find(t, slot, large, size));
    assert PlaceOk(p, t);
    forall u ensures PlaceOk(q, u) { assert PlaceOk(p, u); }
  }

  const START := Plugin(None, map[], map[], [], {})

  ghost predicate Interleaving(trace: seq<Plugin>, acts: seq<Act>) {
    && |trace| == |acts| + 1 && trace[0] == START
    && forall i | 0 <= i < |acts| :: Can(trace[i], acts[i]) && trace[i + 1] == Do(trace[i], acts[i])
  }

  lemma {:induction false} AlwaysOk(trace: seq<Plugin>, acts: seq<Act>, n: nat)
    requires Interleaving(trace, acts) && n < |trace|
    ensures PluginOk(trace[n])
  {
    if n > 0 {
      AlwaysOk(trace, acts, n - 1);
      DoOk(trace[n - 1], acts[n - 1]);
    }
  }

  /** Under every interleaving: when Stop is called on a batcher, and ever after, its queue is empty
      and every item it accepted has been handed to its goroutine. */
  lemma NothingLost(trace: seq<Plugin>, acts: seq<Act>, n: nat, b: nat)
    requires Interleaving(trace, acts) && n < |trace| && b in trace[n].stopping
    ensures b < |trace[n].loops| && trace[n].loops[b].queue == [] && trace[n].loops[b].ran == trace[n].loops[b].accepted
  {
    AlwaysOk(trace, acts, n);
    var l := trace[n].loops[b];
    assert l.ran + [] == l.ran;
  }

  /** And no item is accepted by a batcher from then on. */
  lemma {:induction false} RetiredForGood(trace: seq<Plugin>, acts: seq<Act>, m: nat, n: nat, b: nat)
    requires Interleaving(trace, acts) && m <= n < |trace| && b in trace[m].stopping
    ensures b in trace[n].stopping && b < |trace[n].loops| && b < |trace[m].loops|
    ensures trace[n].loops[b].accepted == trace[m].loops[b].accepted
    decreases n
  {
    hide Do, Can, BatchLoop.Ok, PlaceOk;
    AlwaysOk(trace, acts, m);
    if m < n {
      RetiredForGood(trace, acts, m, n - 1, b);
      AlwaysOk(trace, acts, n - 1);
      StaysRetired(trace[n - 1], acts[n - 1], b);
    }
  }

  lemma StaysRetired(p: Plugin, a: Act, b: nat)
    requires PluginOk(p) && Can(p, a) && b in p.stopping
    ensures var q := Do(p, a);
      && b in q.stopping && b < |p.loops| && b < |q.loops|
      && q.loops[b].accepted == p.loops[b].accepted
  {
    hide BatchLoop.Ok;
    if a.Fill? { assert PlaceOk(p, a.t); }
  }
}
