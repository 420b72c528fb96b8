/** The object of SharedExplicitProducer driven through a schedule: each of its methods can be called when its turn comes,
    and the object ends where the run of the machine does. So what is proved of all runs holds of it. */
module ExplicitRuns {
  import opened Common
  import opened Words
  import opened BlockMath
  import opened ExplicitProducer
  import opened ExplicitInvariant
  import opened ExplicitSafety
  import opened SharedExplicitProducer
  import Claims = DequeueClaims
  import P = ImplicitProducer
  import R = ImplicitRuns
  import S = SharedImplicitProducer
  import Window = ExplicitWindow

  // At rest every block number handed out is that of a block below the tail.
  lemma RestCountsBlocks(cfg: P.Config, s: State)
    requires Inv(cfg, s) && s.producer.Ready?
    ensures |s.who| == FirstNew(cfg, s)
  {
    hide CircleOk, BlocksOk, RetiredOk, ReportedOk, PlacesOk, ViewsOk, Claims.Inv, HeadersOk;
  }

  // The entries in use fit the index.
  lemma UsedFits(cfg: P.Config, s: State)
    requires Inv(cfg, s)
    ensures Shaped(s) && s.used <= Pow2(Current(s).size)
  {
    hide CircleOk, BlocksOk, RetiredOk, ReportedOk, PlacesOk, ViewsOk, Claims.Inv, ProducerOk;
    ShapedHolds(cfg, s);
  }

  // What the allocator would answer matters only to the steps that ask it.
  lemma OnlyAllocationAsks(cfg: P.Config, s: State, supply: Supply)
    requires CanProduce(cfg, s) && !s.producer.Grow? && !s.producer.Requisition?
    ensures ProducerStep(cfg, s, supply) == ProducerStep(cfg, s, Nothing)
  {
    hide Shaped, P.IsFull;
  }

  lemma ReadyStays(cfg: P.Config, s: State, supply: Supply)
    requires CanProduce(cfg, s) && s.producer.Ready?
    ensures ProducerStep(cfg, s, supply) == s
  {}

  lemma IdleStays(cfg: P.Config, s: State, t: nat)
    requires Enabled(cfg, s, Action.Consume(t)) && (s.consumers[t].NoClaim? || s.consumers[t].Finished?)
    ensures Step(cfg, s, Action.Consume(t)) == s
  {
    assert s.consumers[t := s.consumers[t]] == s.consumers;
  }

  lemma PlacesAre(p: Producer)
    requires p.Valid()
    ensures Holds(p.buffers, p.headers) && 0 < |p.headers| && p.headers[|p.headers| - 1].entries in p.buffers
    ensures var s := p.Abs();
      && s.producer == p.producer && s.consumers == p.consumers && s.c == p.counters.Abs() && s.who == p.who
      && s.used == p.blockIndexSlotsUsed && s.flags == p.flags
  {
    hide Separate, AllBasesOk, Views, BaseOfPlace;
  }

  lemma CurrentIs(p: Producer)
    requires p.Valid()
    ensures 0 < |p.headers| && 0 < |p.Abs().headers|
    ensures Pow2(Current(p.Abs()).size) == p.headers[|p.headers| - 1].size
    ensures Current(p.Abs()).size == p.headers[|p.headers| - 1].log
  {
    p.AtHeader(|p.headers| - 1);
  }

  // What a step leaves of the footprint: what it adds is new.
  twostate predicate Grows(p: Producer)
    reads p
  {
    && old(p.headers) <= p.headers && fresh(p.headers[|old(p.headers)|..])
    && old(p.buffers) <= p.buffers && fresh(p.buffers - old(p.buffers))
  }

  method MemoryFor(p: Producer, supply: Supply) returns (granted: bool)
    requires p.Valid() && Shaped(p.Abs())
    ensures granted == GrantedMemory(p.cfg, p.Abs(), supply)
  {
    hide Producer.Valid, Producer.Abs, Shaped, Pow2;
    CurrentIs(p);
    var header := p.headers[|p.headers| - 1];
    ghost var size := header.log;
    R.FitsByCapacity(size, p.cfg.k, p.cfg.w);
    granted := supply.Memory? && 2 * header.size * Pow2(p.cfg.k) <= Pow2(p.cfg.w);
  }

  method BlockFor(p: Producer, supply: Supply) returns (granted: Option<nat>)
    requires p.Valid() && 1 <= p.cfg.w
    ensures granted == GrantedBlock(p.cfg, p.Abs(), supply)
  {
    hide Producer.Valid, Producer.Abs, Pow2;
    PlacesAre(p);
    granted :=
      if supply.Granted? && supply.block !in p.flags && Start(p.cfg.BlockSize(), p.blockIndexSlotsUsed + 1) < Pow2(p.cfg.w - 1)
      then Some(supply.block) else None;
  }

  method Obtain(p: Producer, supply: Supply)
    requires p.Valid() && CanProduce(p.cfg, p.Abs()) && p.blockIndexSlotsUsed <= Pow2(Current(p.Abs()).size)
    requires p.producer.Reuse? || p.producer.Room? || p.producer.Grow? || p.producer.Requisition?
    modifies p, p.headers, p.buffers
    ensures p.Valid() && p.Abs() == ProducerStep(p.cfg, old(p.Abs()), supply) && Grows(p)
  {
    hide CanProduce, ProducerStep, Producer.Valid, Producer.Abs, Holds, Shaped;
    PlacesAre(p);
    CanIsShaped(p.cfg, p.Abs());
    if !p.producer.Grow? && !p.producer.Requisition? {
      OnlyAllocationAsks(p.cfg, p.Abs(), supply);
    }
    match p.producer {
      case Reuse(_, _, _, _, _) => p.ReuseAhead();
      case Room(_, _, _, _, _) => p.TestRoom();
      case Grow(_, _, _, _, _) =>
        CurrentIs(p);
        var granted := MemoryFor(p, supply);
        p.GrowIndex(granted, supply);
      case Requisition(_, _, _, _, _) =>
        var granted := BlockFor(p, supply);
        p.RequisitionBlock(granted, supply);
    }
  }

  lemma CanIsShaped(cfg: P.Config, s: State)
    requires CanProduce(cfg, s)
    ensures Shaped(s) && 1 <= cfg.w
  {}

  /** The next atomic access of the producer's thread. */
  method Produce(p: Producer, supply: Supply)
    requires p.Valid() && CanProduce(p.cfg, p.Abs()) && p.blockIndexSlotsUsed <= Pow2(Current(p.Abs()).size)
    modifies p, p.counters, p.headers, p.buffers
    ensures p.Valid() && p.Abs() == ProducerStep(p.cfg, old(p.Abs()), supply) && Grows(p)
  {
    hide CanProduce, ProducerStep, Producer.Valid, Producer.Abs, Holds, Shaped;
    PlacesAre(p);
    if p.producer.Ready? {
      ReadyStays(p.cfg, p.Abs(), supply);
    } else if p.producer.Reuse? || p.producer.Room? || p.producer.Grow? || p.producer.Requisition? {
      Obtain(p, supply);
    } else {
      OnlyAllocationAsks(p.cfg, p.Abs(), supply);
      match p.producer {
        case Reset(_, _, _, _, _) => p.ResetEmptiness();
        case Show(_, _, _) => p.ShowEntries();
        case Fill(_, _, _, _) => p.Construct();
        case Publish(_, _) => p.PublishTail();
      }
    }
  }

  /** The next atomic access of a consumer with a claim. */
  method Consume(p: Producer, t: nat)
    requires p.Valid() && Enabled(p.cfg, p.Abs(), Action.Consume(t))
    modifies p
    ensures p.Valid() && p.Abs() == Step(p.cfg, old(p.Abs()), Action.Consume(t)) && Grows(p)
  {
    hide CanConsume, ConsumerStep, Producer.Valid, Producer.Abs, Holds;
    PlacesAre(p);
    match p.consumers[t] {
      case NoClaim => IdleStays(p.cfg, p.Abs(), t);
      case Finished => IdleStays(p.cfg, p.Abs(), t);
      case LoadIndex(_, _) => p.LoadHeader(t);
      case LoadFront(_, _, _) => p.LoadHeader(t);
      case LoadBase(_, _, _, _) => p.FindSlot(t);
      case LoadBlock(_, _, _, _) => p.FindBlock(t);
      case Report(_, _, _, _, _, _) => p.ReportDequeued(t);
    }
  }

  /** Any step of any thread: its methods can be called, and the invariant holds again. */
  method Do(p: Producer, a: Action)
    requires p.Valid() && Inv(p.cfg, p.Abs()) && Enabled(p.cfg, p.Abs(), a) && InWindow(p.cfg, p.Abs(), a)
    modifies p, p.counters, p.headers, p.buffers
    ensures p.Valid() && Inv(p.cfg, p.Abs()) && p.Abs() == Step(p.cfg, old(p.Abs()), a) && Grows(p)
  {
    hide CanConsume, ConsumerStep, Producer.Valid, Producer.Abs, Inv, CanProduce, ProducerStep, DoClaim, DoStart, Holds;
    hide Granted1;
    PlacesAre(p);
    StepKeepsInv(p.cfg, p.Abs(), a);
    match a {
      case StartEnqueue(count) =>
        RestCountsBlocks(p.cfg, p.Abs());
        p.BeginEnqueue(count);
      case Produce(supply) =>
        UsedFits(p.cfg, p.Abs());
        Produce(p, supply);
      case StartDequeue(t, max) => p.BeginDequeue(t, max);
      case Claim(t) => p.AdvanceClaim(t);
      case Consume(t) => Consume(p, t);
      case Finish(t) => p.EndDequeue(t);
    }
  }

  // The test for room on the words at hand.
  method IsFull(p: Producer) returns (full: bool)
    requires p.Valid() && p.producer.Room?
    ensures full == P.IsFull(p.cfg, p.counters.headIndex, |p.who| * p.cfg.BlockSize())
  {
    hide Separate, AllBasesOk, Views, Wrap, Pow2, P.IsFull;
    var cfg, head := p.cfg, Wrap(p.cfg.w, p.counters.headIndex);
    S.RoomTestOnWords(cfg, p.counters.headIndex, |p.who| * cfg.BlockSize(), p.currentTailIndex);
    var base := Wrap(cfg.w, p.currentTailIndex + cfg.BlockSize());
    full := !CircularLessThan(cfg.w, head, Wrap(cfg.w, base + cfg.BlockSize()))
      || (cfg.limit.Some?
          && (cfg.limit.value == 0 || cfg.limit.value - cfg.BlockSize() < Wrap(cfg.w, base - head)));
  }

  // Whether the call may go on with these answers (Granted1).
  method MayGoOn(p: Producer, supply: Supply) returns (ok: bool)
    requires p.Valid() && Shaped(p.Abs()) && 1 <= p.cfg.w
    ensures ok == Granted1(p.cfg, p.Abs(), supply)
  {
    hide Producer.Valid, Producer.Abs, Shaped, P.IsFull, GrantedMemory, GrantedBlock;
    PlacesAre(p);
    HeadIs(p);
    ok := true;
    if p.producer.Room? && 0 < p.producer.staged {
      var full := IsFull(p);
      ok := !full;
    } else if p.producer.Grow? && 0 < p.producer.staged {
      ok := MemoryFor(p, supply);
    } else if p.producer.Requisition? && 0 < p.producer.staged {
      var granted := BlockFor(p, supply);
      ok := granted.Some?;
    }
  }

  lemma HeadIs(p: Producer)
    requires p.Valid()
    ensures p.Abs().c.head == p.counters.headIndex && p.Abs().c.pcs == p.counters.pcs
  {}

  lemma SameThreads(cfg: P.Config, s: State)
    requires Inv(cfg, s)
    ensures 1 <= cfg.w && |s.consumers| == |s.c.pcs| && Claims.Inv(s.c) && Shaped(s)
  {
    hide CircleOk, BlocksOk, RetiredOk, ReportedOk, ViewsOk, Claims.Inv, HeadersOk;
    ShapedHolds(cfg, s);
  }

  // Whether it is a step of this thread's, here and now.
  method CanDo(p: Producer, a: Action) returns (ok: bool)
    requires p.Valid() && Inv(p.cfg, p.Abs())
    ensures ok == Enabled(p.cfg, p.Abs(), a)
  {
    hide CanConsume, Producer.Valid, Producer.Abs, Inv, CanProduce, Granted1, Shaped;
    PlacesAre(p);
    HeadIs(p);
    EveryStepIsDefined(p.cfg, p.Abs());
    SameThreads(p.cfg, p.Abs());
    Claims.AdvanceIsEnabled(p.Abs().c, Claims.Advance(if a.Claim? then a.thread else 0));
    var pcs := p.counters.pcs;
    match a {
      case StartEnqueue(count) => ok := p.producer.Ready? && count + p.cfg.BlockSize() <= Pow2(p.cfg.w);
      case Produce(supply) => ok := MayGoOn(p, supply);
      case StartDequeue(t, max) => ok := t < |pcs| && pcs[t].Idle? && 1 <= max && p.consumers[t].NoClaim?;
      case Claim(t) => ok := t < |pcs| && p.consumers[t].NoClaim?;
      case Consume(t) => ok := t < |p.consumers|;
      case Finish(t) => ok := t < |p.consumers| && p.consumers[t].Finished? && pcs[t].Claimed?;
    }
  }

  twostate lemma FootprintGrows(p: Producer)
    requires Grows(p)
    ensures forall b :: b in p.buffers ==> b in old(p.buffers) || fresh(b)
    ensures forall h :: h in p.headers ==> h in old(p.headers) || fresh(h)
  {
    forall h | h in p.headers ensures h in old(p.headers) || fresh(h) {
      var i :| 0 <= i < |p.headers| && p.headers[i] == h;
      if i >= |old(p.headers)| {
        assert h == p.headers[|old(p.headers)|..][i - |old(p.headers)|];
      }
    }
  }

  /** The object driven through any schedule that keeps to the window of the claim protocol is where the machine's run
      is. */
  method Follow(p: Producer, schedule: seq<Action>)
    requires p.Valid() && Inv(p.cfg, p.Abs()) && RunInWindow(p.cfg, p.Abs(), schedule)
    modifies p, p.counters, p.headers, p.buffers
    ensures p.Valid() && Inv(p.cfg, p.Abs()) && p.Abs() == Run(p.cfg, old(p.Abs()), schedule)
    decreases |schedule|
  {
    hide Producer.Valid, Producer.Abs, Inv, Enabled, Step, InWindow, Holds;
    PlacesAre(p);
    if |schedule| > 0 {
      var ok := CanDo(p, schedule[0]);
      if ok {
        Do(p, schedule[0]);
        FootprintGrows(p);
      }
      Follow(p, schedule[1..]);
    }
  }

  /** A producer from its constructor, with any number of consumers, through any schedule in which the calls around each
      dequeue ask for no more than half the word range together: it is where the machine's run from the state created
      is. */
  method FollowFromStart(cfg: P.Config, threads: nat, schedule: seq<Action>) returns (p: Producer)
    requires cfg.Ok() && Window.CallsFit(cfg, Created(cfg, threads), schedule)
    ensures fresh(p) && p.Valid() && p.cfg == cfg
    ensures Inv(cfg, p.Abs()) && p.Abs() == Run(cfg, Created(cfg, threads), schedule)
  {
    hide Producer.Valid, Producer.Abs, Inv, Initial, Created, Enabled, Step, InWindow, Window.CallsFit, Pow2, Holds;
    p := new Producer(cfg, threads);
    PlacesAre(p);
    CreatedIsInitial(cfg, threads);
    Window.FittingRunKeepsInv(cfg, p.Abs(), schedule);
    InitialInv(cfg, p.Abs());
    Follow(p, schedule);
  }
}
