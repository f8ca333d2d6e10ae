/**
 * The barrier that holds everything a command produces behind the command's
 * response. The handler of the command, the producers of deferred items and
 * producers that give up on a full barrier run concurrently; every section
 * under the barrier's lock, every commit and every abort is one step.
 */
module HostBarrier {

  /** Where `HandleCommand` is. */
  datatype Handler =
    | Serving                 // the command is being carried out; its response is not delivered
    | GivingUp                // the response failed: pending items are being aborted
    | Draining                // the response is out: items are committed one by one
    | InHand(item: nat)       // one item was taken off the queue and is being committed
    | Failed(item: nat)       // its commit failed
    | AbortingRest            // what was left is being aborted
    | Drained
    | Over

  /**
   * Deferred items are numbered in the order they were accepted. `taken` were
   * removed for abort by a producer, `mine` by the handler; `committed` and
   * `aborted` log how items ended. `used`, `executed` and `released` belong to
   * the run reservation of a run-start command.
   */
  datatype Barrier = Barrier(
    open: bool, limit: nat, queue: seq<nat>, accepted: nat, handler: Handler, delivered: bool,
    taken: set<nat>, mine: set<nat>, committed: seq<nat>, aborted: seq<nat>,
    used: bool, executed: nat, released: nat)

  function Initial(limit: nat): Barrier {
    Barrier(false, limit, [], 0, Serving, false, {}, {}, [], [], false, 0, 0)
  }

  datatype Step =
    | Defer                   // deferDelivery
    | ProducerAborts          // abort() by a producer that found the barrier full
    | AbortTaken(i: nat)
    | AbortMine(i: nat)
    | ResponseFails
    | ResponseDelivered
    | Pop
    | CommitSucceeds
    | CommitFails
    | AbortInHand
    | AbortRest
    | Abandon
    | Proceed

  function Elements(q: seq<nat>): set<nat> { set i | i in q }

  function Next(b: Barrier, step: Step): Barrier {
    match step
    case Defer =>
      if b.open || (b.limit > 0 && |b.queue| >= b.limit) then b
      else b.(queue := b.queue + [b.accepted], accepted := b.accepted + 1)
    case ProducerAborts => b.(taken := b.taken + Elements(b.queue), queue := [], open := true)
    case AbortTaken(i) => if i in b.taken then b.(taken := b.taken - {i}, aborted := b.aborted + [i]) else b
    case AbortMine(i) => if i in b.mine then b.(mine := b.mine - {i}, aborted := b.aborted + [i]) else b
    case ResponseFails =>
      if b.handler.Serving? then b.(mine := Elements(b.queue), queue := [], open := true, handler := GivingUp) else b
    case ResponseDelivered => if b.handler.Serving? then b.(delivered := true, handler := Draining) else b
    case Pop =>
      if !b.handler.Draining? then b
      else if b.queue == [] then b.(open := true, handler := Drained)
      else b.(handler := InHand(b.queue[0]), queue := b.queue[1..])
    case CommitSucceeds =>
      if b.handler.InHand? then b.(committed := b.committed + [b.handler.item], handler := Draining) else b
    case CommitFails => if b.handler.InHand? then b.(handler := Failed(b.handler.item)) else b
    case AbortInHand =>
      if b.handler.Failed? then
        b.(aborted := b.aborted + [b.handler.item], mine := Elements(b.queue), queue := [], open := true,
           handler := AbortingRest)
      else b
    case AbortRest => if b.handler.AbortingRest? && b.mine == {} then b.(handler := Drained) else b
    case Abandon =>
      if b.handler.GivingUp? && b.mine == {} then
        b.(handler := Over, used := true, released := if b.used then b.released else b.released + 1)
      else b
    case Proceed =>
      if b.handler.Drained? then
        b.(handler := Over, used := true, executed := if b.used then b.executed else b.executed + 1)
      else b
  }

  ghost predicate StepAt(bs: seq<Barrier>, steps: seq<Step>, i: nat)
    requires i < |steps| && |bs| == |steps| + 1
  {
    bs[i + 1] == Next(bs[i], steps[i])
  }

  ghost predicate IsRun(bs: seq<Barrier>, steps: seq<Step>, limit: nat) {
    |bs| == |steps| + 1 && bs[0] == Initial(limit) && forall i :: 0 <= i < |steps| ==> StepAt(bs, steps, i)
  }

  // ----- the invariant -----

  /** Items that are between the queue and their end. */
  function Held(b: Barrier): set<nat> {
    b.taken + b.mine + (if b.handler.InHand? || b.handler.Failed? then {b.handler.item} else {})
  }

  ghost predicate Distinct(q: seq<nat>) { forall i, j :: 0 <= i < j < |q| ==> q[i] != q[j] }

  function Ended(b: Barrier): set<nat> { Elements(b.committed) + Elements(b.aborted) }

  function Numbers(n: nat): (r: set<nat>)
    ensures forall i: nat :: i in r <==> i < n
  {
    if n == 0 then {} else Numbers(n - 1) + {n - 1}
  }

  /** Every accepted item is in exactly one place, and no item ends twice. */
  ghost predicate PlacesOk(b: Barrier) {
    Elements(b.queue) + Held(b) + Ended(b) == Numbers(b.accepted) &&
    Elements(b.queue) !! Held(b) && Elements(b.queue) !! Ended(b) && Held(b) !! Ended(b) &&
    Elements(b.committed) !! Elements(b.aborted) && Distinct(b.aborted) && HoldersApart(b)
  }

  /** No item is held by two. */
  predicate HoldersApart(b: Barrier) {
    b.taken !! b.mine && (b.handler.InHand? || b.handler.Failed? ==> b.handler.item !in b.taken + b.mine)
  }

  /** The queue is the tail of what was accepted; commits follow the order of acceptance. */
  ghost predicate OrderOk(b: Barrier) {
    |b.queue| <= b.accepted &&
    (forall j :: 0 <= j < |b.queue| ==> b.queue[j] == b.accepted - |b.queue| + j) &&
    (forall j :: 0 <= j < |b.committed| ==> b.committed[j] == j) &&
    (b.handler.InHand? || b.handler.Failed? ==> b.handler.item == |b.committed|) &&
    (!b.open ==> b.accepted - |b.queue| == |b.committed| + (if b.handler.InHand? || b.handler.Failed? then 1 else 0))
  }

  predicate PhaseOk(b: Barrier) {
    (b.open ==> b.queue == []) &&
    (b.committed != [] ==> b.delivered) &&
    (b.handler.Serving? || b.handler.GivingUp? ==> !b.delivered) &&
    (!b.handler.Serving? && !b.handler.GivingUp? && !b.handler.Over? ==> b.delivered) &&
    (b.handler.GivingUp? || b.handler.AbortingRest? || b.handler.Drained? || b.handler.Over? ==> b.open) &&
    (b.mine != {} ==> b.handler.GivingUp? || b.handler.AbortingRest?)
  }

  predicate ReservationOk(b: Barrier) {
    b.executed + b.released == (if b.used then 1 else 0) && b.used == b.handler.Over? &&
    (b.executed > 0 ==> b.delivered) && (b.released > 0 ==> !b.delivered && b.committed == [])
  }

  ghost predicate Inv(b: Barrier) { PlacesOk(b) && OrderOk(b) && PhaseOk(b) && ReservationOk(b) }

  lemma InitialOk(limit: nat)
    ensures Inv(Initial(limit))
  {
  }

  lemma OrderStep(b: Barrier, step: Step)
    requires OrderOk(b) && PhaseOk(b)
    ensures OrderOk(Next(b, step))
  {
  }

  lemma PhaseStep(b: Barrier, step: Step)
    requires PhaseOk(b) && ReservationOk(b)
    ensures PhaseOk(Next(b, step)) && ReservationOk(Next(b, step))
  {
  }

  lemma ElementsSnoc(q: seq<nat>, x: nat)
    ensures Elements(q + [x]) == Elements(q) + {x}
  {
  }

  lemma ElementsCons(q: seq<nat>)
    requires q != []
    ensures Elements(q) == Elements(q[1..]) + {q[0]}
  {
    assert q == [q[0]] + q[1..];
  }

  /** One held item ends. */
  lemma EndStep(b: Barrier, b': Barrier, i: nat)
    requires PlacesOk(b) && HoldersApart(b') && i in Held(b) && Held(b') == Held(b) - {i}
    requires b'.queue == b.queue && b'.accepted == b.accepted
    requires (b'.committed == b.committed && b'.aborted == b.aborted + [i]) ||
             (b'.committed == b.committed + [i] && b'.aborted == b.aborted)
    ensures PlacesOk(b')
  {
    ElementsSnoc(b.committed, i);
    ElementsSnoc(b.aborted, i);
  }

  /** The whole queue is taken for abort. */
  lemma HoldQueue(b: Barrier, b': Barrier)
    requires PlacesOk(b) && HoldersApart(b') && Held(b') == Held(b) + Elements(b.queue) && b'.queue == []
    requires b'.accepted == b.accepted && b'.committed == b.committed && b'.aborted == b.aborted
    ensures PlacesOk(b')
  {
  }

  lemma HoldFirst(b: Barrier)
    requires Inv(b) && b.handler.Draining? && b.queue != []
    ensures PlacesOk(b.(handler := InHand(b.queue[0]), queue := b.queue[1..]))
  {
    ElementsCons(b.queue);
  }

  lemma AcceptOne(b: Barrier)
    requires PlacesOk(b)
    ensures PlacesOk(b.(queue := b.queue + [b.accepted], accepted := b.accepted + 1))
  {
    ElementsSnoc(b.queue, b.accepted);
  }

  lemma PlacesStep(b: Barrier, step: Step)
    requires Inv(b)
    ensures PlacesOk(Next(b, step))
  {
    var t := Next(b, step);
    match step
    case Defer => AcceptOne(b);
    case ProducerAborts => HoldQueue(b, t);
    case AbortTaken(i) => if i in b.taken { EndStep(b, t, i); }
    case AbortMine(i) => if i in b.mine { EndStep(b, t, i); }
    case ResponseFails => if b.handler.Serving? { HoldQueue(b, t); }
    case Pop => if b.handler.Draining? && b.queue != [] { HoldFirst(b); }
    case CommitSucceeds => if b.handler.InHand? { EndStep(b, t, b.handler.item); }
    case AbortInHand =>
      if b.handler.Failed? {
        var u := b.(aborted := b.aborted + [b.handler.item], handler := AbortingRest);
        EndStep(b, u, b.handler.item);
        HoldQueue(u, t);
      }
    case _ =>
  }

  lemma StepKeepsInv(b: Barrier, step: Step)
    requires Inv(b)
    ensures Inv(Next(b, step))
  {
    OrderStep(b, step);
    PhaseStep(b, step);
    PlacesStep(b, step);
  }

  lemma NodeKeepsInv(bs: seq<Barrier>, steps: seq<Step>, limit: nat, n: nat)
    requires IsRun(bs, steps, limit) && n < |steps| && Inv(bs[n])
    ensures Inv(bs[n + 1])
  {
    assert StepAt(bs, steps, n);
    StepKeepsInv(bs[n], steps[n]);
  }

  lemma {:induction false} RunInv(bs: seq<Barrier>, steps: seq<Step>, limit: nat, n: nat)
    requires IsRun(bs, steps, limit) && n < |bs|
    ensures Inv(bs[n])
  {
    if n == 0 {
      InitialOk(limit);
    } else {
      RunInv(bs, steps, limit, n - 1);
      NodeKeepsInv(bs, steps, limit, n - 1);
    }
  }

  // ----- theorems -----

  /** Commits are a prefix of what was deferred, in order, and only after the response was delivered. */
  lemma CommitsAreFifoPrefix(bs: seq<Barrier>, steps: seq<Step>, limit: nat, n: nat)
    requires IsRun(bs, steps, limit) && n < |bs|
    ensures |bs[n].committed| <= bs[n].accepted
    ensures forall j :: 0 <= j < |bs[n].committed| ==> bs[n].committed[j] == j
    ensures bs[n].committed != [] ==> bs[n].delivered
    ensures bs[n].open ==> bs[n].queue == []
  {
    RunInv(bs, steps, limit, n);
    var b := bs[n];
    if b.committed != [] { assert b.committed[|b.committed| - 1] in Ended(b); }
  }

  /** No item ends twice, and none is both committed and aborted. */
  lemma EndsAtMostOnce(bs: seq<Barrier>, steps: seq<Step>, limit: nat, n: nat)
    requires IsRun(bs, steps, limit) && n < |bs|
    ensures Distinct(bs[n].committed) && Distinct(bs[n].aborted)
    ensures forall i :: i in bs[n].committed ==> i !in bs[n].aborted
  {
    RunInv(bs, steps, limit, n);
    forall i | i in bs[n].committed ensures i !in bs[n].aborted { assert i in Elements(bs[n].committed); }
  }

  /** When the handler has returned and no producer is still aborting, every deferred item has ended. */
  lemma AllItemsEnd(bs: seq<Barrier>, steps: seq<Step>, limit: nat, n: nat, i: nat)
    requires IsRun(bs, steps, limit) && n < |bs| && bs[n].handler.Over? && bs[n].taken == {} && i < bs[n].accepted
    ensures i in bs[n].committed || i in bs[n].aborted
  {
    RunInv(bs, steps, limit, n);
    assert i in Numbers(bs[n].accepted) && i in Ended(bs[n]);
  }

  /** A command whose producers never give up ends all its items before it returns. */
  lemma {:induction false} SoleHandlerEndsAll(bs: seq<Barrier>, steps: seq<Step>, limit: nat, n: nat)
    requires IsRun(bs, steps, limit) && n < |bs| && forall k :: 0 <= k < n ==> !steps[k].ProducerAborts?
    ensures bs[n].taken == {}
    ensures bs[n].handler.Over? ==> forall i: nat :: i < bs[n].accepted ==> i in bs[n].committed || i in bs[n].aborted
  {
    if n > 0 {
      SoleHandlerEndsAll(bs, steps, limit, n - 1);
      assert StepAt(bs, steps, n - 1);
    }
    if bs[n].handler.Over? && bs[n].taken == {} {
      forall i: nat | i < bs[n].accepted ensures i in bs[n].committed || i in bs[n].aborted {
        AllItemsEnd(bs, steps, limit, n, i);
      }
    }
  }

  /**
   * The reservation of a run-start command is executed or released, never both
   * and never twice; it is executed only behind a delivered response.
   */
  lemma ExecutedOrReleased(bs: seq<Barrier>, steps: seq<Step>, limit: nat, n: nat)
    requires IsRun(bs, steps, limit) && n < |bs|
    ensures bs[n].executed + bs[n].released <= 1
    ensures bs[n].handler.Over? <==> bs[n].executed + bs[n].released == 1
    ensures bs[n].executed == 1 ==> bs[n].delivered
    ensures bs[n].released == 1 ==> !bs[n].delivered && bs[n].committed == []
  {
    RunInv(bs, steps, limit, n);
  }

  // ----- the barrier object -----

  datatype Deferral = Deferred | Passed | Full

  /** The barrier's own fields; items are whatever a producer defers. */
  class CommandResponseBarrier<Item(==)> {
    var open: bool
    const limit: nat
    var pending: seq<Item>
    ghost var committed: seq<Item>
    ghost var aborted: seq<Item>

    ghost predicate Valid()
      reads this
    {
      open ==> pending == []
    }

    constructor (limit: nat)
      ensures Valid() && !open && pending == [] && committed == [] && aborted == [] && this.limit == limit
    {
      this.limit := limit;
      open, pending, committed, aborted := false, [], [], [];
    }

    method DeferDelivery(item: Item) returns (answer: Deferral)
      requires Valid()
      modifies this`pending
      ensures Valid()
      ensures answer == (if open then Passed else if limit > 0 && |old(pending)| >= limit then Full else Deferred)
      ensures pending == (if answer.Deferred? then old(pending) + [item] else old(pending))
    {
      if open { return Passed; }
      if limit > 0 && |pending| >= limit { return Full; }
      pending := pending + [item];
      answer := Deferred;
    }

    method Abort()
      requires Valid()
      modifies this
      ensures Valid() && open && pending == []
      ensures committed == old(committed) && aborted == old(aborted) + old(pending)
    {
      var items := pending;
      pending := [];
      open := true;
      for i := 0 to |items|
        invariant open && pending == [] && committed == old(committed)
        invariant aborted == old(aborted) + items[..i]
      {
        aborted := aborted + [items[i]];
        assert items[..i + 1] == items[..i] + [items[i]];
      }
      assert items[..|items|] == items;
    }

    /** Commits the pending items in order until one fails; that one and the rest are aborted. */
    method Commit(succeeds: Item -> bool)
      requires Valid()
      modifies this
      ensures Valid() && open && pending == []
      ensures exists k :: (0 <= k <= |old(pending)| &&
        committed == old(committed) + old(pending)[..k] && aborted == old(aborted) + old(pending)[k..] &&
        (forall j :: 0 <= j < k ==> succeeds(old(pending)[j])) &&
        (k < |old(pending)| ==> !succeeds(old(pending)[k])))
    {
      ghost var k := 0;
      while pending != []
        invariant Valid() && (open ==> pending == [])
        invariant k <= |old(pending)| && pending == old(pending)[k..]
        invariant committed == old(committed) + old(pending)[..k] && aborted == old(aborted)
        invariant forall j :: 0 <= j < k ==> succeeds(old(pending)[j])
        decreases |pending|
      {
        var item := pending[0];
        pending := pending[1..];
        if !succeeds(item) {
          aborted := aborted + [item];
          ghost var rest := pending;
          Abort();
          assert [item] + rest == old(pending)[k..];
          return;
        }
        committed := committed + [item];
        assert old(pending)[..k + 1] == old(pending)[..k] + [item];
        k := k + 1;
      }
      open := true;
    }
  }
}
