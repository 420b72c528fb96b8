/** What the invariant of the implicit producer machine means for its users: nothing is lost, duplicated or leaked,
    lookups are right, and an enqueue happens as a whole or not at all. */
module ImplicitResults {
  import opened Common
  import opened Words
  import opened BlockMath
  import opened ImplicitProducer
  import opened ImplicitInvariant
  import opened ImplicitConsumers
  import opened ImplicitReturns
  import opened ImplicitClaims
  import opened ImplicitAllocation
  import opened ImplicitHooking
  import opened ImplicitSafety
  import Claims = DequeueClaims
  import Idx = ImplicitIndex

  // ---- Conservation ----

  // Elements a consumer has claimed and not yet taken.
  ghost function InFlight(): ConsumerPc -> int { (pc: ConsumerPc) => Hi(pc) - Next(pc) }

  ghost function InFlightBelow(h: nat): ConsumerPc -> int {
    (pc: ConsumerPc) => Below(h, Next(pc), Hi(pc) - Next(pc))
  }

  lemma {:induction false} SumAdds<T>(f: T -> int, g: T -> int, h: T -> int, xs: seq<T>)
    requires forall j :: 0 <= j < |xs| ==> f(xs[j]) == g(xs[j]) + h(xs[j])
    ensures Sum(f, xs) == Sum(g, xs) + Sum(h, xs)
  {
    if |xs| > 0 {
      SumAdds(f, g, h, xs[..|xs| - 1]);
    }
  }

  function TakenBelow(taken: set<nat>, h: nat): nat {
    if h == 0 then 0 else TakenBelow(taken, h - 1) + (if h - 1 in taken then 1 else 0)
  }

  lemma {:induction false} TakenBelowIsSize(taken: set<nat>, h: nat)
    requires forall i :: i in taken ==> i < h
    ensures TakenBelow(taken, h) == |taken|
  {
    if h == 0 {
      assert taken == {};
    } else if h - 1 in taken {
      TakenBelowIsSize(taken - {h - 1}, h - 1);
      SameTakenBelow(taken, taken - {h - 1}, h - 1);
    } else {
      TakenBelowIsSize(taken, h - 1);
    }
  }

  lemma {:induction false} SameTakenBelow(taken: set<nat>, taken': set<nat>, h: nat)
    requires forall i: nat :: i < h ==> (i in taken <==> i in taken')
    ensures TakenBelow(taken, h) == TakenBelow(taken', h)
  {
    if h > 0 {
      SameTakenBelow(taken, taken', h - 1);
    }
  }

  lemma {:induction false} TakenOrOwed(head: nat, consumers: seq<ConsumerPc>, got: map<nat, Element>, h: nat)
    requires ReadsOk(head, consumers, got) && h <= head
    requires forall t :: 0 <= t < |consumers| ==> 0 <= Next(consumers[t]) <= Hi(consumers[t])
    ensures TakenBelow(got.Keys, h) + Sum(InFlightBelow(h), consumers) == h
  {
    if h == 0 {
      SumZero(InFlightBelow(0), consumers);
    } else {
      TakenOrOwed(head, consumers, got, h - 1);
      SumAdds(InFlightBelow(h), InFlightBelow(h - 1), UnreadAt(h - 1), consumers);
      assert Sum(UnreadAt(h - 1), consumers) + One(h - 1 in got) == One(h - 1 < head);
    }
  }

  lemma ConsumersBelowHead(cfg: Config, s: State)
    requires Inv(cfg, s)
    ensures forall t :: 0 <= t < |s.consumers| ==> 0 <= Next(s.consumers[t]) <= Hi(s.consumers[t]) <= s.c.head
  {
    hide CountsOk, ReadsOk, ViewsOk, KeysUpToTail, TailBlockOk, HomeOk, FillOk, RoomOk, ShownOk, IndexOk, CellsOk;
    hide ProducerShape, Claims.Inv;
    forall t | 0 <= t < |s.consumers| ensures 0 <= Next(s.consumers[t]) <= Hi(s.consumers[t]) <= s.c.head {
      assert PlaceOk(cfg, s.c.head, s.consumers[t], s.c.pcs[t]);
    }
  }

  lemma TakenAndOwed(head: nat, consumers: seq<ConsumerPc>, got: map<nat, Element>)
    requires ReadsOk(head, consumers, got) && forall i :: i in got ==> i < head
    requires forall t :: 0 <= t < |consumers| ==> 0 <= Next(consumers[t]) <= Hi(consumers[t]) <= head
    ensures |got| + Sum(InFlight(), consumers) == head && 0 <= Sum(InFlight(), consumers)
  {
    TakenOrOwed(head, consumers, got, head);
    TakenBelowIsSize(got.Keys, head);
    SumNonNegative(InFlight(), consumers);
    SumMonotone(InFlight(), InFlightBelow(head), consumers);
    SumMonotone(InFlightBelow(head), InFlight(), consumers);
  }

  /** Every element ever enqueued was dequeued, is in the hands of exactly one consumer, or remains: the three
      numbers always add up. */
  lemma NothingIsLost(cfg: Config, s: State)
    requires Inv(cfg, s)
    ensures |s.items| == |s.got| + Sum(InFlight(), s.consumers) + (s.c.tail - s.c.head)
    ensures s.c.head <= s.c.tail && 0 <= Sum(InFlight(), s.consumers)
  {
    hide CountsOk, ViewsOk, KeysUpToTail, TailBlockOk, HomeOk, FillOk, RoomOk, ShownOk, IndexOk, CellsOk, PlacesOk;
    hide ProducerShape, Claims.Inv, ReadsOk;
    ConsumersBelowHead(cfg, s);
    QueueFitsWord(cfg, s);
    forall i | i in s.got ensures i < s.c.head {
      TakenIsEnqueued(cfg, s, i);
    }
    TakenAndOwed(s.c.head, s.consumers, s.got);
  }

  // An index that nobody has taken is owed by a consumer whose claim covers it.
  lemma OwedByClaimant(cfg: Config, s: State, i: nat) returns (u: nat)
    requires Inv(cfg, s) && i < s.c.head && i !in s.got
    ensures u < |s.consumers| && u < |s.c.pcs| && s.c.pcs[u].Claimed? && !s.consumers[u].Finished?
    ensures s.c.pcs[u].first <= i < s.c.pcs[u].first + s.c.pcs[u].count
  {
    hide CountsOk, ViewsOk, KeysUpToTail, TailBlockOk, HomeOk, FillOk, RoomOk, ShownOk, IndexOk, CellsOk, ProducerShape;
    hide Claims.Inv;
    assert Sum(UnreadAt(i), s.consumers) + One(i in s.got) == One(i < s.c.head);
    u := SumPositiveWitness(UnreadAt(i), s.consumers);
    assert PlaceOk(cfg, s.c.head, s.consumers[u], s.c.pcs[u]);
  }

  /** A dequeue that has finished has delivered every element of the range it claimed, each as it was enqueued. */
  lemma FinishedClaimIsDelivered(cfg: Config, s: State, t: nat)
    requires Inv(cfg, s) && t < |s.consumers| && s.consumers[t].Finished?
    ensures t < |s.c.pcs| && s.c.pcs[t].Claimed?
    ensures forall i :: s.c.pcs[t].first <= i < s.c.pcs[t].first + s.c.pcs[t].count ==>
              i in s.got && i < |s.items| && s.got[i] == s.items[i]
  {
    hide CountsOk, ViewsOk, KeysUpToTail, TailBlockOk, HomeOk, FillOk, RoomOk, ShownOk, IndexOk, CellsOk, ProducerShape;
    hide ReadsOk;
    assert PlaceOk(cfg, s.c.head, s.consumers[t], s.c.pcs[t]);
    Claims.ClaimsAreSound(s.c);
    hide Claims.Inv;
    forall i | s.c.pcs[t].first <= i < s.c.pcs[t].first + s.c.pcs[t].count
      ensures i in s.got && i < |s.items| && s.got[i] == s.items[i]
    {
      if i !in s.got {
        var u := OwedByClaimant(cfg, s, i);
        assert false;
      }
      TakenIsEnqueued(cfg, s, i);
    }
  }

  // ---- Blocks ----

  // The block of number b is spent: every one of its elements was enqueued, claimed and taken.
  ghost predicate FullyRead(cfg: Config, s: State, b: nat) {
    forall i: nat :: Number(cfg.BlockSize(), i) == b ==> i in s.got && i < s.c.head
  }

  lemma FreedBlockIsRead(cfg: Config, s: State, t: nat)
    requires Inv(cfg, s) && t < |s.consumers| && s.consumers[t].FreeBlock?
    ensures s.consumers[t].block in s.blocks && FullyRead(cfg, s, s.blocks[s.consumers[t].block].number)
  {
    hide CountsOk, ViewsOk, KeysUpToTail, TailBlockOk, FillOk, RoomOk, ShownOk, IndexOk, CellsOk, PlacesOk;
    hide ProducerShape, Claims.Inv, ReadsOk;
    Returner(cfg, s, t);
    var b := Number(cfg.BlockSize(), s.consumers[t].i - 1);
    assert s.blocks[s.consumers[t].block].number == b;
    forall i: nat | Number(cfg.BlockSize(), i) == b ensures i in s.got && i < s.c.head {
      FinishedBlockIsRead(cfg, s, b, i);
    }
  }

  lemma ProducerKeepsBlocks(cfg: Config, s: State, supply: Supply, id: nat)
    requires CanProduce(cfg, s) && id in s.blocks && !s.producer.UndoFree?
    ensures id in ProducerStep(cfg, s, supply).blocks
  {}

  lemma ConsumerKeepsBlocks(cfg: Config, s: State, pc: ConsumerPc, id: nat)
    requires CanConsume(cfg, s, pc) && id in s.blocks && (pc.FreeBlock? ==> pc.block != id)
    ensures id in ConsumerStep(cfg, s, pc).0.blocks
  {}

  lemma UndoneBlockIsNew(cfg: Config, s: State)
    requires Inv(cfg, s) && s.producer.UndoFree?
    ensures CanProduce(cfg, s)
    ensures var id := s.producer.chain[s.producer.done];
      s.blocks[id].number == FirstNew(cfg, s) + s.producer.done
  {
    hide CountsOk, ViewsOk, KeysUpToTail, TailBlockOk, FillOk, RoomOk, ShownOk, CellsOk, PlacesOk;
    hide Claims.Inv, ReadsOk;
    assert FirstNew(cfg, s) + s.producer.done in s.home;
  }

  /** A block leaves the producer in one of two ways only: a consumer returns it when every element of it has been
      taken, or the rollback returns it when no element of it was ever published. */
  lemma BlockReturnsWhenSpent(cfg: Config, s: State, a: Action, id: nat)
    requires Inv(cfg, s) && Enabled(cfg, s, a) && id in s.blocks && id !in Step(cfg, s, a).blocks
    ensures || (a.Consume? && s.consumers[a.thread].FreeBlock? && s.consumers[a.thread].block == id
                && FullyRead(cfg, s, s.blocks[id].number))
            || (a.Produce? && s.producer.UndoFree? && FirstNew(cfg, s) <= s.blocks[id].number)
  {
    hide Inv, ProducerStep, ConsumerStep, CanProduce, CanConsume, FullyRead;
    if a.Consume? {
      var pc := s.consumers[a.thread];
      if pc.FreeBlock? && pc.block == id {
        FreedBlockIsRead(cfg, s, a.thread);
      } else {
        ConsumerKeepsBlocks(cfg, s, pc, id);
      }
    } else if a.Produce? {
      if s.producer.UndoFree? {
        UndoneBlockIsNew(cfg, s);
        RollbackRemovesOne(cfg, s, a.supply, id);
      } else {
        ProducerKeepsBlocks(cfg, s, a.supply, id);
      }
    }
  }

  lemma RollbackRemovesOne(cfg: Config, s: State, supply: Supply, id: nat)
    requires CanProduce(cfg, s) && s.producer.UndoFree? && id in s.blocks && id !in ProducerStep(cfg, s, supply).blocks
    ensures id == s.producer.chain[s.producer.done]
  {}

  /** With nobody at work the producer holds exactly the blocks in which an element remains or, for the last one,
      is still to be enqueued: no block is leaked and none has gone too early. */
  lemma HeldAtRest(cfg: Config, s: State, b: nat)
    requires Inv(cfg, s) && s.producer.Ready? && forall t :: 0 <= t < |s.consumers| ==> s.consumers[t].NoClaim?
    ensures b in s.home <==> Start(cfg.BlockSize(), b) < s.c.tail && s.c.head < Start(cfg.BlockSize(), b) + cfg.BlockSize()
  {
    hide ViewsOk, KeysUpToTail, TailBlockOk, FillOk, RoomOk, ShownOk, CellsOk, PlacesOk, IndexOk;
    hide ProducerShape, Claims.Inv, ReadsOk;
    var n, first := cfg.BlockSize(), FirstNew(cfg, s);
    IdleConsumersWeighNothing(n, s.consumers, b);
    assert BlockCountOk(n, first, s.c.head, s.home, s.blocks, s.producer, s.consumers, b);
    BlocksReach(n, s.c.tail);
    if first <= b {
      StartMonotone(n, first, b);
    }
  }

  /** The numbers of the held blocks and the held blocks correspond one to one. */
  lemma BlocksAndNumbersCorrespond(cfg: Config, s: State)
    requires Inv(cfg, s)
    ensures forall b :: b in s.home ==> s.home[b] in s.blocks
    ensures forall id :: id in s.blocks ==> s.blocks[id].number in s.home && s.home[s.blocks[id].number] == id
    ensures forall a, b :: a in s.home && b in s.home && s.home[a] == s.home[b] ==> a == b
  {
    hide ViewsOk, KeysUpToTail, TailBlockOk, FillOk, RoomOk, ShownOk, CellsOk, PlacesOk, IndexOk, CountsOk;
    hide ProducerShape, Claims.Inv, ReadsOk;
  }

  // ---- Lookup ----

  /** Whatever header a consumer loaded, however long ago, its lookup ends at the entry whose key is the base of the
      block of its index and whose value is the block that holds it. */
  lemma LookupEndsAtBlock(cfg: Config, s: State, t: nat)
    requires Inv(cfg, s) && t < |s.consumers| && s.consumers[t].LoadValue?
    ensures CanConsume(cfg, s, s.consumers[t])
    ensures var LoadValue(i, _, h, slot) := s.consumers[t];
      var b := Number(cfg.BlockSize(), i);
      && b in s.home && s.home[b] in s.blocks
      && s.index.entries[s.index.headers[h].ring[slot]] == Idx.Entry(Some(b), Some(s.home[b]))
  {
    hide KeysUpToTail, TailBlockOk, FillOk, RoomOk, ShownOk, CellsOk, CountsOk;
    hide ProducerShape, Claims.Inv, ReadsOk;
    LoadValueIsRight(cfg, s, t);
    var pc := s.consumers[t];
    assert ViewOk(cfg.BlockSize(), s.index, s.home, pc) && PlaceOk(cfg, s.c.head, pc, s.c.pcs[t]);
    ClaimedBlockHasKey(cfg, s, t, pc.i);
    KnownEntry(cfg.BlockSize(), s.index, s.home, pc);
  }

  lemma KnownEntry(n: nat, x: Idx.Index, home: Homes, pc: ConsumerPc)
    requires 0 < n && Idx.WellFormed(x) && pc.LoadValue? && ViewOk(n, x, home, pc) && pc.i < pc.stop
    requires var b := Number(n, pc.i); b in home && Idx.Shows(x, b, home[b])
    ensures pc.header < |x.headers| && pc.slot < |x.headers[pc.header].ring|
    ensures x.entries[x.headers[pc.header].ring[pc.slot]] == Idx.Entry(Some(Number(n, pc.i)), Some(home[Number(n, pc.i)]))
  {
    assert Idx.At(x.headers[pc.header], Number(n, pc.i)) == Idx.At(Idx.Current(x), Number(n, pc.i));
  }

  // ---- All or nothing ----

  // How a call to enqueue xs, begun when `items` were published, stands.
  ghost predicate Outcome(items: seq<Element>, xs: seq<Element>, s: State) {
    match s.producer
    case Ready => s.items == items || s.items == items + xs
    case UndoTail(_) => s.items == items
    case UndoValue(_) => s.items == items
    case UndoEntry(_, _) => s.items == items
    case UndoRewind(_, _) => s.items == items
    case UndoFree(_, _) => s.items == items
    case _ => s.items == items && s.producer.xs == xs
  }

  lemma ProducerKeepsOutcome(cfg: Config, items: seq<Element>, xs: seq<Element>, s: State, supply: Supply)
    requires CanProduce(cfg, s) && Outcome(items, xs, s)
    ensures Outcome(items, xs, ProducerStep(cfg, s, supply))
  {}

  lemma ConsumerKeepsOutcome(cfg: Config, items: seq<Element>, xs: seq<Element>, s: State, t: nat)
    requires t < |s.consumers| && CanConsume(cfg, s, s.consumers[t]) && Outcome(items, xs, s)
    ensures Outcome(items, xs, DoConsume(cfg, s, t))
  {}

  lemma StepKeepsOutcome(cfg: Config, items: seq<Element>, xs: seq<Element>, s: State, a: Action)
    requires Enabled(cfg, s, a) && !a.StartEnqueue? && Outcome(items, xs, s)
    ensures Outcome(items, xs, Step(cfg, s, a))
  {
    hide CanProduce, CanConsume, ProducerStep, ConsumerStep;
    if a.Produce? {
      ProducerKeepsOutcome(cfg, items, xs, s, a.supply);
    } else if a.Consume? {
      ConsumerKeepsOutcome(cfg, items, xs, s, a.thread);
    }
  }

  lemma {:induction false} RunKeepsOutcome(cfg: Config, items: seq<Element>, xs: seq<Element>, s: State, schedule: seq<Action>)
    requires Outcome(items, xs, s) && forall i :: 0 <= i < |schedule| ==> !schedule[i].StartEnqueue?
    ensures Outcome(items, xs, Run(cfg, s, schedule))
    decreases |schedule|
  {
    hide Outcome;
    if |schedule| > 0 {
      var a := schedule[0];
      if Enabled(cfg, s, a) {
        StepKeepsOutcome(cfg, items, xs, s, a);
        RunKeepsOutcome(cfg, items, xs, Step(cfg, s, a), schedule[1..]);
      } else {
        RunKeepsOutcome(cfg, items, xs, s, schedule[1..]);
      }
    }
  }

  // The producer's own part of the state when no call is in progress: it follows from the elements published. The
  // tail of the index stands at the last block in use; every held block that no consumer is returning is shown, and
  // no entry shows any other.
  ghost predicate AtRest(cfg: Config, s: State) {
    var n, first := cfg.BlockSize(), FirstNew(cfg, s);
    && s.producer.Ready? && s.c.tail == |s.items|
    && Idx.WellFormed(s.index) && s.index.inserted == first && s.index.unsettled == None
    && Idx.Current(s.index).tail == Idx.Position(Idx.Current(s.index), first - 1)
    && (forall b :: b in s.home ==> b < first && s.home[b] in s.blocks)
    && (forall id :: id in s.blocks ==> s.blocks[id].number in s.home && s.home[s.blocks[id].number] == id)
    && (forall b :: b in s.home && Sum(Cleared(n, b), s.consumers) == 0 ==> Idx.Shows(s.index, b, s.home[b]))
    && (forall p :: 0 <= p < |Idx.Current(s.index).ring| ==> ShowsHeld(s.home, s.index.entries[Idx.Current(s.index).ring[p]]))
  }

  ghost predicate ShowsHeld(home: Homes, e: Idx.Entry) {
    e.key.Some? && e.value.Some? ==> e.key.value in home && home[e.key.value] == e.value.value
  }

  lemma ReadyIsAtRest(cfg: Config, s: State)
    requires Inv(cfg, s) && s.producer.Ready?
    ensures AtRest(cfg, s)
  {
    hide ViewsOk, KeysUpToTail, TailBlockOk, FillOk, RoomOk, CellsOk, PlacesOk, CountsOk;
    hide Claims.Inv, ReadsOk;
    var n, first := cfg.BlockSize(), FirstNew(cfg, s);
    forall b | b in s.home && Sum(Cleared(n, b), s.consumers) == 0 ensures Idx.Shows(s.index, b, s.home[b]) {
      assert !Hidden(n, first, s.producer, s.consumers, b);
    }
    forall p | 0 <= p < |Idx.Current(s.index).ring|
      ensures ShowsHeld(s.home, s.index.entries[Idx.Current(s.index).ring[p]])
    {
      assert NoStray(n, first, s.index.entries[Idx.Current(s.index).ring[p]], s.index.unsettled, s.home, s.producer,
                     s.consumers);
    }
  }

  /** A call to enqueue xs, whatever consumers do meanwhile and whatever the allocator answers, ends with all of xs
      appended or with none of it; either way the tail, the tail of the index, the entries that show a block and
      the blocks held are those of the elements published, as if count single enqueues, or none, had been made. */
  lemma EnqueueIsAllOrNothing(cfg: Config, s: State, xs: seq<Element>, schedule: seq<Action>)
    requires Inv(cfg, s) && Enabled(cfg, s, StartEnqueue(xs))
    requires forall i :: 0 <= i < |schedule| ==> !schedule[i].StartEnqueue?
    requires RunInWindow(cfg, Step(cfg, s, StartEnqueue(xs)), schedule)
    ensures var end := Run(cfg, Step(cfg, s, StartEnqueue(xs)), schedule);
      && (end.producer.Ready? ==> (end.items == s.items || end.items == s.items + xs) && AtRest(cfg, end))
      && (!end.producer.Ready? ==> end.items == s.items)
  {
    var s1 := Step(cfg, s, StartEnqueue(xs));
    assert Outcome(s.items, xs, s1) by { StartOutcome(cfg, s, xs); }
    StartEnqueueKeepsInv(cfg, s, xs);
    hide Inv, Step;
    RunKeepsOutcome(cfg, s.items, xs, s1, schedule);
    RunKeepsInv(cfg, s1, schedule);
    var end := Run(cfg, s1, schedule);
    if end.producer.Ready? {
      ReadyIsAtRest(cfg, end);
    }
  }

  lemma StartOutcome(cfg: Config, s: State, xs: seq<Element>)
    requires Enabled(cfg, s, StartEnqueue(xs))
    ensures Outcome(s.items, xs, Step(cfg, s, StartEnqueue(xs)))
  {}
}
