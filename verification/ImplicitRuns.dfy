/** The object of SharedImplicitProducer driven through a schedule: each of its methods can be called when its turn comes,
    and the object ends where the run of the machine does. So what is proved of all runs holds of it. */
module ImplicitRuns {
  import opened Common
  import opened Words
  import opened BlockMath
  import opened ImplicitProducer
  import opened ImplicitInvariant
  import opened ImplicitSafety
  import opened SharedImplicitProducer
  import Claims = DequeueClaims
  import Idx = ImplicitIndex
  import Objects = ImplicitIndexObjects
  import Window = ImplicitWindow

  // At rest the index counts exactly the blocks in use.
  lemma RestCountsBlocks(cfg: Config, s: State)
    requires Inv(cfg, s) && s.producer.Ready?
    ensures s.index.inserted == FirstNew(cfg, s)
  {
    hide CellsOk, CountsOk, PlacesOk, ReadsOk, ViewsOk, KeysUpToTail, TailBlockOk, Claims.Inv, HomeOk, FillOk, RoomOk;
    hide ShownOk, IndexOk;
  }

  // What the allocator would answer matters only to the steps that ask it.
  lemma OnlyAllocationAsks(cfg: Config, s: State, supply: Supply)
    requires CanProduce(cfg, s) && !s.producer.Grow? && !s.producer.Grab?
    ensures ProducerStep(cfg, s, supply) == ProducerStep(cfg, s, Nothing)
  {
    hide Idx.WellFormed, IsFull, FoundPosition;
  }

  // Whether index and blocks together still fit the address range, told from the capacity.
  lemma FitsByCapacity(size: nat, k: nat, w: nat)
    ensures size + 1 + k <= w <==> 2 * Pow2(size) * Pow2(k) <= Pow2(w)
  {
    Pow2Adds(size + 1, k);
    Pow2Grows(size + 1 + k, w);
    Pow2Grows(w, size + 1 + k);
  }

  // The memory granted for a larger index.
  method MemoryFor(p: Producer, supply: Supply) returns (memory: Option<seq<Option<nat>>>)
    requires p.Valid() && Idx.WellFormed(p.Abs().index)
    ensures memory == GrantedMemory(p.cfg, p.Abs(), supply)
  {
    hide Objects.Contents, Objects.Views, Pow2;
    p.index.AtHeader(|p.index.headers| - 1);
    ghost var size := p.index.blockIndex.size;
    FitsByCapacity(size, p.cfg.k, p.cfg.w);
    var capacity := p.index.blockIndex.capacity;
    if supply.Memory? && |supply.junk| == capacity && 2 * capacity * Pow2(p.cfg.k) <= Pow2(p.cfg.w) {
      memory := Some(supply.junk);
    } else {
      memory := None;
    }
  }

  // ---- One step ----

  // What a step leaves of the footprint: what it adds is new.
  twostate predicate Grows(p: Producer)
    reads p, p.index
  {
    && old(p.index.entries) <= p.index.entries && fresh(p.index.entries[|old(p.index.entries)|..])
    && old(p.index.headers) <= p.index.headers && fresh(p.index.headers[|old(p.index.headers)|..])
  }

  lemma OwnHeader(p: Producer)
    requires p.Valid()
    ensures p.index.blockIndex in p.index.headers
  {
    hide Objects.Contents, Objects.Views, Pow2;
    p.index.AtHeader(|p.index.headers| - 1);
  }

  lemma PlacesAre(p: Producer)
    ensures p.Abs().producer == p.producer && p.Abs().consumers == p.consumers && p.Abs().blocks == p.blocks
    ensures p.Abs().c == p.counters.Abs()
  {}

  method MakeRoom(p: Producer, supply: Supply)
    requires p.Valid() && CanProduce(p.cfg, p.Abs())
    requires p.producer.Room? || p.producer.Insert? || p.producer.Grow?
    modifies p, p.index, p.index.entries
    ensures p.Valid() && p.Abs() == ProducerStep(p.cfg, old(p.Abs()), supply) && Grows(p)
  {
    hide CanProduce, ProducerStep, Producer.Valid, Producer.Abs;
    PlacesAre(p);
    if !p.producer.Grow? {
      OnlyAllocationAsks(p.cfg, p.Abs(), supply);
    }
    match p.producer {
      case Room(_, _, _) => p.TestRoom();
      case Insert(_, _, _) => p.InsertKey();
      case Grow(_, _, _) =>
        CanIsWellFormed(p.cfg, p.Abs());
        var memory := MemoryFor(p, supply);
        p.GrowIndex(memory, supply);
    }
  }

  method Obtain(p: Producer, supply: Supply)
    requires p.Valid() && CanProduce(p.cfg, p.Abs())
    requires p.producer.Bump? || p.producer.Grab? || p.producer.Hook?
    modifies p, p.index, p.index.entries, p.index.headers
    ensures p.Valid() && p.Abs() == ProducerStep(p.cfg, old(p.Abs()), supply) && Grows(p)
  {
    hide CanProduce, ProducerStep, Producer.Valid, Producer.Abs;
    PlacesAre(p);
    OwnHeader(p);
    if !p.producer.Grab? {
      OnlyAllocationAsks(p.cfg, p.Abs(), supply);
    }
    match p.producer {
      case Bump(_, _, _) => p.BumpTail();
      case Grab(_, _, _) =>
        var block := if supply.Granted? && supply.block !in p.blocks then Some(supply.block) else None;
        p.RequisitionBlock(block, if supply.Granted? then supply.completed else 0, supply);
      case Hook(_, _, _, _) => p.HookIn();
    }
  }

  method RollBack(p: Producer, supply: Supply)
    requires p.Valid() && CanProduce(p.cfg, p.Abs())
    requires var pc := p.producer; pc.UndoTail? || pc.UndoValue? || pc.UndoEntry? || pc.UndoRewind? || pc.UndoFree?
    modifies p, p.index, p.index.entries, p.index.headers
    ensures p.Valid() && p.Abs() == ProducerStep(p.cfg, old(p.Abs()), supply) && Grows(p)
  {
    hide CanProduce, ProducerStep, Producer.Valid, Producer.Abs;
    PlacesAre(p);
    OwnHeader(p);
    OnlyAllocationAsks(p.cfg, p.Abs(), supply);
    match p.producer {
      case UndoTail(_) => p.RewindTail();
      case UndoValue(_) => p.ClearTaken();
      case UndoEntry(_, _) => p.ClearEntryOfBlock();
      case UndoRewind(_, _) => p.RewindOne();
      case UndoFree(_, _) => p.ReturnBlock();
    }
  }

  /** The next atomic access of the producer's thread. */
  method Produce(p: Producer, supply: Supply)
    requires p.Valid() && CanProduce(p.cfg, p.Abs())
    modifies p, p.counters, p.index, p.index.entries, p.index.headers
    ensures p.Valid() && p.Abs() == ProducerStep(p.cfg, old(p.Abs()), supply) && Grows(p)
  {
    hide CanProduce, ProducerStep, Producer.Valid, Producer.Abs;
    PlacesAre(p);
    if p.producer.Ready? {
      ReadyStays(p.cfg, p.Abs(), supply);
    } else if p.producer.Fill? {
      OnlyAllocationAsks(p.cfg, p.Abs(), supply);
      p.Construct();
    } else if p.producer.Publish? {
      OnlyAllocationAsks(p.cfg, p.Abs(), supply);
      p.PublishTail();
    } else if p.producer.Room? || p.producer.Insert? || p.producer.Grow? {
      MakeRoom(p, supply);
    } else if p.producer.Bump? || p.producer.Grab? || p.producer.Hook? {
      Obtain(p, supply);
    } else {
      RollBack(p, supply);
    }
  }

  lemma ReadyStays(cfg: Config, s: State, supply: Supply)
    requires CanProduce(cfg, s) && s.producer.Ready?
    ensures ProducerStep(cfg, s, supply) == s
  {}

  /** The next atomic access of a consumer with a claim. */
  method Consume(p: Producer, t: nat)
    requires p.Valid() && Enabled(p.cfg, p.Abs(), Action.Consume(t))
    modifies p, p.index, p.index.entries
    ensures p.Valid() && p.Abs() == Step(p.cfg, old(p.Abs()), Action.Consume(t)) && Grows(p)
  {
    hide CanConsume, ConsumerStep, Producer.Valid, Producer.Abs;
    PlacesAre(p);
    match p.consumers[t] {
      case NoClaim => IdleStays(p.cfg, p.Abs(), t);
      case Finished => IdleStays(p.cfg, p.Abs(), t);
      case LoadIndex(_, _) => p.LoadHeader(t);
      case LoadTail(_, _, _) => p.LoadHeader(t);
      case LoadKey(_, _, _, _) => p.FindSlot(t);
      case LoadValue(_, _, _, _) => p.FindBlock(t);
      case Take(_, _, _, _, _, _) => p.TakeElement(t);
      case Complete(_, _, _, _, _, _) => p.CountCompleted(t);
      case ClearEntry(_, _, _, _, _) => p.ClearCompleted(t);
      case FreeBlock(_, _, _, _, _) => p.ReturnCompleted(t);
    }
  }

  lemma IdleStays(cfg: Config, s: State, t: nat)
    requires Enabled(cfg, s, Action.Consume(t)) && (s.consumers[t].NoClaim? || s.consumers[t].Finished?)
    ensures Step(cfg, s, Action.Consume(t)) == s
  {
    assert s.consumers[t := s.consumers[t]] == s.consumers;
  }

  /** Any step of any thread: its methods can be called, and the invariant holds again. */
  method Do(p: Producer, a: Action)
    requires p.Valid() && Inv(p.cfg, p.Abs()) && Enabled(p.cfg, p.Abs(), a) && InWindow(p.cfg, p.Abs(), a)
    modifies p, p.counters, p.index, p.index.entries, p.index.headers
    ensures p.Valid() && Inv(p.cfg, p.Abs()) && p.Abs() == Step(p.cfg, old(p.Abs()), a) && Grows(p)
  {
    hide CanConsume, ConsumerStep, Producer.Valid, Producer.Abs, Inv, CanProduce, ProducerStep, DoClaim, DoStart;
    PlacesAre(p);
    StepKeepsInv(p.cfg, p.Abs(), a);
    match a {
      case StartEnqueue(xs) =>
        RestCountsBlocks(p.cfg, p.Abs());
        IndexIs(p);
        p.BeginEnqueue(xs);
      case Produce(supply) => Produce(p, supply);
      case StartDequeue(t, max) => p.BeginDequeue(t, max);
      case Claim(t) => p.AdvanceClaim(t);
      case Consume(t) => Consume(p, t);
      case Finish(t) => p.EndDequeue(t);
    }
  }

  lemma IndexIs(p: Producer)
    ensures p.Abs().index.inserted == p.index.inserted
  {}

  // Whether it is a step of this thread's, here and now: while the invariant holds, only that the call has come so far.
  method CanDo(p: Producer, a: Action) returns (ok: bool)
    requires p.Valid() && Inv(p.cfg, p.Abs())
    ensures ok == Enabled(p.cfg, p.Abs(), a)
  {
    hide CanConsume, Producer.Valid, Producer.Abs, Inv, CanProduce;
    PlacesAre(p);
    CountersAre(p);
    EveryStepIsDefined(p.cfg, p.Abs());
    SameThreads(p.cfg, p.Abs());
    Claims.AdvanceIsEnabled(p.Abs().c, Claims.Advance(if a.Claim? then a.thread else 0));
    var pcs := p.counters.pcs;
    ok := match a
      case StartEnqueue(xs) => p.producer.Ready? && |xs| + p.cfg.BlockSize() <= Pow2(p.cfg.w)
      case Produce(_) => true
      case StartDequeue(t, max) => t < |pcs| && pcs[t].Idle? && 1 <= max && p.consumers[t].NoClaim?
      case Claim(t) => t < |pcs| && p.consumers[t].NoClaim?
      case Consume(t) => t < |p.consumers|
      case Finish(t) => t < |p.consumers| && p.consumers[t].Finished? && pcs[t].Claimed?;
  }

  lemma CountersAre(p: Producer)
    ensures p.Abs().c.pcs == p.counters.pcs
  {}

  lemma SameThreads(cfg: Config, s: State)
    requires Inv(cfg, s)
    ensures 1 <= cfg.w && |s.consumers| == |s.c.pcs| && Claims.Inv(s.c)
  {
    hide CellsOk, CountsOk, ReadsOk, ViewsOk, KeysUpToTail, TailBlockOk, Claims.Inv, HomeOk, FillOk, RoomOk, ShownOk, IndexOk;
  }

  /** The object driven through any schedule that keeps to the window of the claim protocol is where the machine's run
      is. */
  method Follow(p: Producer, schedule: seq<Action>)
    requires p.Valid() && Inv(p.cfg, p.Abs()) && RunInWindow(p.cfg, p.Abs(), schedule)
    modifies p, p.counters, p.index, p.index.entries, p.index.headers
    ensures p.Valid() && Inv(p.cfg, p.Abs()) && p.Abs() == Run(p.cfg, old(p.Abs()), schedule)
    decreases |schedule|
  {
    hide Producer.Valid, Producer.Abs, Inv, Enabled, Step, InWindow;
    if |schedule| > 0 {
      var ok := CanDo(p, schedule[0]);
      if ok {
        Do(p, schedule[0]);
        FootprintGrows(p);
      }
      Follow(p, schedule[1..]);
    }
  }

  twostate lemma FootprintGrows(p: Producer)
    requires Grows(p)
    ensures forall e :: e in p.index.entries ==> e in old(p.index.entries) || fresh(e)
    ensures forall h :: h in p.index.headers ==> h in old(p.index.headers) || fresh(h)
  {
    forall e | e in p.index.entries ensures e in old(p.index.entries) || fresh(e) {
      var i :| 0 <= i < |p.index.entries| && p.index.entries[i] == e;
      if i >= |old(p.index.entries)| {
        assert e == p.index.entries[|old(p.index.entries)|..][i - |old(p.index.entries)|];
      }
    }
    forall h | h in p.index.headers ensures h in old(p.index.headers) || fresh(h) {
      var i :| 0 <= i < |p.index.headers| && p.index.headers[i] == h;
      if i >= |old(p.index.headers)| {
        assert h == p.index.headers[|old(p.index.headers)|..][i - |old(p.index.headers)|];
      }
    }
  }

  /** A producer from its constructor, with any number of consumers, through any schedule in which the calls around each
      dequeue ask for no more than half the word range together: it is where the machine's run from the state created is,
      and what was taken at index i is the i-th element enqueued. */
  method FollowFromStart(cfg: Config, threads: nat, junk: seq<Option<nat>>, schedule: seq<Action>) returns (p: Producer)
    requires cfg.Ok() && |junk| == Pow2(cfg.m) && Window.CallsFit(cfg, Created(cfg, threads, junk), schedule)
    ensures fresh(p) && p.Valid() && p.cfg == cfg
    ensures Inv(cfg, p.Abs()) && p.Abs() == Run(cfg, Created(cfg, threads, junk), schedule)
    ensures forall i :: i in p.got ==> i < |p.items| && p.got[i] == p.items[i]
  {
    hide Producer.Valid, Producer.Abs, Inv, Initial, Created, Enabled, Step, InWindow, Window.CallsFit, Pow2;
    p := new Producer(cfg, threads, junk);
    PlacesAre(p);
    CreatedIsInitial(cfg, threads, junk);
    Window.FittingRunKeepsInv(cfg, p.Abs(), schedule);
    InitialInv(cfg, p.Abs());
    Follow(p, schedule);
    TakenAre(p);
    forall i | i in p.got ensures i < |p.items| && p.got[i] == p.items[i] {
      TakenIsEnqueued(cfg, p.Abs(), i);
    }
  }

  lemma TakenAre(p: Producer)
    ensures p.Abs().got == p.got && p.Abs().items == p.items
  {}

  lemma CanIsWellFormed(cfg: Config, s: State)
    requires CanProduce(cfg, s)
    ensures Idx.WellFormed(s.index)
  {}
}
