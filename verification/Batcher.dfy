/** The work queue of batched joins and leaves (server/batching/batcher.go). */
module Batcher {
  import opened Basics

  /** A unit of work; what it does is not looked at here. */
  type Item = Id

  class Batcher {
    const size: nat
    var itemsCh: seq<Item>
    var batches: nat
    /** The items run so far, in order. */
    var ran: seq<Item>
    ghost var accepted: seq<Item>

    /** Every accepted item has run or waits, once and in the order of acceptance. */
    ghost predicate Valid()
      reads this
    {
      0 < size && |itemsCh| <= size && ran + itemsCh == accepted
    }

    constructor (size: nat)
      requires 0 < size
      ensures Valid() && this.size == size && itemsCh == [] && ran == [] && accepted == [] && batches == 0
    {
      this.size, itemsCh, batches, ran, accepted := size, [], 0, [], [];
    }

    /** Adds one item unless the queue is full. */
    method Push(item: Item) returns (ok: bool)
      requires Valid()
      modifies this`itemsCh, this`accepted
      ensures Valid()
      ensures ok <==> old(|itemsCh|) < size
      ensures itemsCh == if ok then old(itemsCh) + [item] else old(itemsCh)
      ensures accepted == if ok then old(accepted) + [item] else old(accepted)
    {
      if |itemsCh| < size {
        itemsCh := itemsCh + [item];
        accepted := accepted + [item];
        return true;
      }
      return false;
    }

    /** Other goroutines push meanwhile. */
    method Arrive(items: seq<Item>)
      requires Valid()
      modifies this`itemsCh, this`accepted
      ensures Valid() && old(accepted) <= accepted
      ensures itemsCh == old(itemsCh) + accepted[|old(accepted)|..]
    {
      for i := 0 to |items|
        invariant Valid() && old(accepted) <= accepted
        invariant itemsCh == old(itemsCh) + accepted[|old(accepted)|..]
      {
        var _ := Push(items[i]);
      }
    }

    predicate Empty()
      reads this
    {
      |itemsCh| == 0
    }

    method RunNext()
      requires Valid() && itemsCh != []
      modifies this`itemsCh, this`ran
      ensures Valid() && itemsCh == old(itemsCh)[1..] && ran == old(ran) + [old(itemsCh)[0]]
    {
      var item := itemsCh[0];
      itemsCh := itemsCh[1..];
      ran := ran + [item];
    }

    /** One tick of the processing goroutine; the arguments say whether the callback before the
        batch succeeds and what others push during it and before each item. A batch runs the items
        that were queued when it started, all of them and only them; a failed callback runs none;
        whatever arrives meanwhile waits for a later batch. */
    method Tick(preRunOk: bool, meanwhile: seq<Item>, between: seq<seq<Item>>)
      requires Valid()
      modifies this
      ensures Valid() && old(accepted) <= accepted
      ensures old(itemsCh) == [] ==> accepted == old(accepted) && ran == old(ran) && batches == old(batches)
      ensures old(itemsCh) != [] ==> batches == old(batches) + 1
      ensures old(itemsCh) != [] && preRunOk ==> ran == old(accepted)
      ensures !preRunOk ==> ran == old(ran)
    {
      var batchSize := |itemsCh|;
      if batchSize > 0 {
        batches := batches + 1;
        Arrive(meanwhile);
        if !preRunOk { return; }
        for i := 0 to batchSize
          invariant Valid() && old(accepted) <= accepted
          invariant i <= batchSize
          invariant batches == old(batches) + 1
          invariant ran == old(ran) + old(itemsCh)[..i]
          invariant itemsCh == old(itemsCh)[i..] + accepted[|old(accepted)|..]
        {
          if i < |between| { Arrive(between[i]); }
          ghost var (waiting, late) := (old(itemsCh)[i..], accepted[|old(accepted)|..]);
          assert itemsCh == waiting + late;
          assert (waiting + late)[1..] == waiting[1..] + late && waiting[1..] == old(itemsCh)[i + 1..];
          RunNext();
        }
      }
    }
  }

  /** NewBatcher refuses an interval or a size that is not positive. */
  method NewBatcher(interval: int, size: int) returns (b: Batcher?)
    ensures b != null <==> interval > 0 && size > 0
    ensures b != null ==> fresh(b) && b.Valid() && b.size == size && b.itemsCh == [] && b.accepted == []
  {
    if interval <= 0 || size <= 0 { return null; }
    b := new Batcher(size);
  }
}
/** All interleavings of the goroutine with the pushes, the channel operation as the atomic step. */
module BatchLoop {
  import opened Batcher

  datatype Phase = Waiting | Starting(n: nat) | Running(left: nat) | Stopped

  /** `mark` counts the items accepted when the last successful batch read the queue's length. */
  datatype Loop = Loop(size: nat, queue: seq<Item>, ran: seq<Item>, accepted: seq<Item>,
                       batches: nat, phase: Phase, mark: nat)

  datatype Step = PushStep(item: Item) | TickStep | PreRunStep(ok: bool) | ItemStep | PostRunStep | StopStep

  predicate Enabled(b: Loop, s: Step) {
    match s
    case PushStep(_) => true
    case TickStep => b.phase.Waiting?
    case PreRunStep(_) => b.phase.Starting?
    case ItemStep => b.phase.Running? && b.phase.left > 0 && b.queue != []
    case PostRunStep => b.phase.Running? && b.phase.left == 0
    case StopStep => b.phase.Waiting?
  }

  function Next(b: Loop, s: Step): Loop
    requires Enabled(b, s)
  {
    match s
    case PushStep(x) =>
      if |b.queue| < b.size then b.(queue := b.queue + [x], accepted := b.accepted + [x]) else b
    case TickStep =>
      if |b.queue| == 0 then b else b.(batches := b.batches + 1, phase := Starting(|b.queue|))
    case PreRunStep(ok) =>
      if ok then b.(phase := Running(b.phase.n), mark := |b.ran| + b.phase.n) else b.(phase := Waiting)
    case ItemStep =>
      b.(queue := b.queue[1..], ran := b.ran + [b.queue[0]], phase := Running(b.phase.left - 1))
    case PostRunStep => b.(phase := Waiting)
    case StopStep => b.(phase := Stopped)
  }

  function New(size: nat): Loop { Loop(size, [], [], [], 0, Waiting, 0) }

  /** Exactly once, first in first out, within the bound; a receive within a batch never blocks; and
      between batches exactly the items up to the mark have run. */
  predicate Ok(b: Loop) {
    && b.ran + b.queue == b.accepted && |b.queue| <= b.size
    && match b.phase
       case Starting(n) => 0 < n <= |b.queue| && b.mark == |b.ran|
       case Running(left) => left <= |b.queue| && b.mark == |b.ran| + left
       case _ => b.mark == |b.ran|
  }

  lemma NextOk(b: Loop, s: Step)
    requires Ok(b) && Enabled(b, s)
    ensures Ok(Next(b, s))
    ensures b.accepted <= Next(b, s).accepted && b.ran <= Next(b, s).ran
    ensures s.PreRunStep? ==> Next(b, s).queue == b.queue && Next(b, s).ran == b.ran
  {
  }

  ghost predicate Run(size: nat, trace: seq<Loop>, steps: seq<Step>) {
    && |trace| == |steps| + 1 && trace[0] == New(size)
    && forall i | 0 <= i < |steps| :: Enabled(trace[i], steps[i]) && trace[i + 1] == Next(trace[i], steps[i])
  }

  lemma {:induction false} RunOk(size: nat, trace: seq<Loop>, steps: seq<Step>, n: nat)
    requires Run(size, trace, steps) && n < |trace|
    ensures Ok(trace[n]) && trace[n].size == size
  {
    if n > 0 {
      RunOk(size, trace, steps, n - 1);
      NextOk(trace[n - 1], steps[n - 1]);
    }
  }

  function Pushed(steps: seq<Step>, trace: seq<Loop>, n: nat): seq<Item>
    requires n <= |steps| < |trace|
  {
    if n == 0 then [] else
      Pushed(steps, trace, n - 1)
      + (if steps[n - 1].PushStep? && |trace[n - 1].queue| < trace[n - 1].size then [steps[n - 1].item] else [])
  }

  /** In every interleaving the items run, followed by the items queued, are the pushes that found
      room, each once and in order. */
  lemma {:induction false} ExactlyOnce(size: nat, trace: seq<Loop>, steps: seq<Step>, n: nat)
    requires Run(size, trace, steps) && n <= |steps|
    ensures trace[n].ran + trace[n].queue == Pushed(steps, trace, n) && |trace[n].queue| <= size
  {
    RunOk(size, trace, steps, n);
    if n > 0 {
      ExactlyOnce(size, trace, steps, n - 1);
      RunOk(size, trace, steps, n - 1);
    }
  }

  /** From the moment m a batch starts until it ends, no item pushed after m runs; when it ends
      at n, all items accepted before m have run. */
  lemma {:induction false} LaterItemsWait(size: nat, trace: seq<Loop>, steps: seq<Step>, m: nat, n: nat)
    requires Run(size, trace, steps) && m < n <= |steps|
    requires trace[m].phase.Waiting? && steps[m] == TickStep && trace[m].queue != []
    requires forall i | m < i < n :: !(steps[i] == PostRunStep || steps[i] == PreRunStep(false))
    ensures trace[n].ran <= trace[m].accepted <= trace[n].accepted
    ensures trace[n].phase == Starting(|trace[m].queue|)
      || (trace[n].phase.Running? && trace[n].mark == |trace[m].accepted|)
    ensures trace[n].phase == Running(0) ==> trace[n].ran == trace[m].accepted
    ensures trace[n].phase.Starting? ==> trace[n].ran == trace[m].ran
    decreases n
  {
    RunOk(size, trace, steps, m);
    RunOk(size, trace, steps, n);
    if n > m + 1 {
      LaterItemsWait(size, trace, steps, m, n - 1);
      RunOk(size, trace, steps, n - 1);
      NextOk(trace[n - 1], steps[n - 1]);
    }
    PrefixOf(trace[n].ran, trace[n].queue, trace[m].accepted, trace[n].accepted);
  }

  lemma PrefixOf(ran: seq<Item>, queue: seq<Item>, before: seq<Item>, after: seq<Item>)
    requires ran + queue == after && before <= after
    ensures |ran| <= |before| ==> ran <= before
    ensures |ran| == |before| ==> ran == before
  {
    assert ran == after[..|ran|] && before == after[..|before|];
  }
}
