/** What holds in every run of an implicit producer with any number of consumers. */
module ImplicitSafety {
  import opened Common
  import opened Words
  import opened BlockMath
  import opened ImplicitProducer
  import opened ImplicitInvariant
  import opened ImplicitConsumers
  import opened ImplicitReturns
  import opened ImplicitClaims
  import opened ImplicitAllocation
  import opened ImplicitGrowth
  import opened ImplicitHooking
  import opened ImplicitRollback
  import opened ImplicitFilling
  import Claims = DequeueClaims
  import Idx = ImplicitIndex

  // ---- Every step keeps the invariant ----

  lemma AllocateKeepsInv(cfg: Config, s: State, supply: Supply)
    requires Inv(cfg, s) && (s.producer.Room? || s.producer.Insert? || s.producer.Grow? || s.producer.Bump?)
    ensures CanProduce(cfg, s) && Inv(cfg, ProducerStep(cfg, s, supply))
  {
    IndexIsWellFormed(cfg, s);
    hide Inv, Idx.WellFormed, IsFull, DoRoom, DoInsert, DoGrow, DoBump;
    match s.producer
    case Room(_, _, _) => RoomKeepsInv(cfg, s);
    case Insert(_, _, _) => InsertKeepsInv(cfg, s);
    case Grow(_, _, _) => GrowKeepsInv(cfg, s, GrantedMemory(cfg, s, supply));
    case Bump(_, _, _) => BumpKeepsInv(cfg, s);
  }

  lemma ObtainStep(cfg: Config, s: State, supply: Supply)
    requires CanProduce(cfg, s) && s.producer.Grab?
    ensures GrantedBlock(s, supply).Some? ==>
      ProducerStep(cfg, s, supply) == DoGrab(cfg, s, GrantedBlock(s, supply), supply.completed)
    ensures GrantedBlock(s, supply).None? ==>
      ProducerStep(cfg, s, supply) == s.(producer := UndoTail(s.producer.chain))
  {}

  lemma ObtainKeepsInv(cfg: Config, s: State, supply: Supply)
    requires Inv(cfg, s) && s.producer.Grab?
    ensures CanProduce(cfg, s) && Inv(cfg, ProducerStep(cfg, s, supply))
  {
    IndexIsWellFormed(cfg, s);
    hide Inv, Idx.WellFormed, DoGrab;
    ObtainStep(cfg, s, supply);
    hide ProducerStep;
    if GrantedBlock(s, supply).Some? {
      GrabKeepsInv(cfg, s, GrantedBlock(s, supply).value, supply.completed);
    } else {
      NoBlockKeepsInv(cfg, s);
    }
  }

  lemma RollbackKeepsInv(cfg: Config, s: State, supply: Supply)
    requires Inv(cfg, s)
    requires s.producer.UndoTail? || s.producer.UndoValue? || s.producer.UndoEntry? || s.producer.UndoRewind?
             || s.producer.UndoFree?
    ensures CanProduce(cfg, s) && Inv(cfg, ProducerStep(cfg, s, supply))
  {
    hide Inv, Idx.WellFormed, CanProduce, DoUndoTail, DoUndoValue, DoUndoEntry, DoUndoRewind, DoUndoFree, FoundPosition;
    match s.producer
    case UndoTail(_) => UndoTailKeepsInv(cfg, s);
    case UndoValue(_) => UndoValueKeepsInv(cfg, s);
    case UndoEntry(_, _) => UndoEntryKeepsInv(cfg, s);
    case UndoRewind(_, _) => UndoRewindKeepsInv(cfg, s);
    case UndoFree(_, _) => UndoFreeKeepsInv(cfg, s);
  }

  /** Any step of the producer: it follows no null or stale pointer, and it keeps the invariant. */
  lemma ProduceKeepsInv(cfg: Config, s: State, supply: Supply)
    requires Inv(cfg, s)
    ensures CanProduce(cfg, s) && Inv(cfg, ProducerStep(cfg, s, supply))
  {
    IndexIsWellFormed(cfg, s);
    hide Inv, Idx.WellFormed, DoHook, DoPublish;
    match s.producer
    case Ready =>
    case Grab(_, _, _) => ObtainKeepsInv(cfg, s, supply);
    case Hook(_, _, _, _) => HookKeepsInv(cfg, s);
    case Fill(_, _, _, _, _) => FillKeepsInv(cfg, s, supply);
    case Publish(_, _, _) => PublishKeepsInv(cfg, s);
    case _ =>
      hide CanProduce, ProducerStep;
      if s.producer.Room? || s.producer.Insert? || s.producer.Grow? || s.producer.Bump? {
        AllocateKeepsInv(cfg, s, supply);
      } else {
        RollbackKeepsInv(cfg, s, supply);
      }
  }

  lemma IndexIsWellFormed(cfg: Config, s: State)
    requires Inv(cfg, s)
    ensures Idx.WellFormed(s.index) && 1 <= cfg.w
  {
    hide CellsOk, CountsOk, PlacesOk, ReadsOk, ViewsOk, KeysUpToTail, TailBlockOk, Claims.Inv, HomeOk, FillOk, RoomOk;
    hide ShownOk;
  }

  // The word window of the claim protocol: the one assumption about how far consumers fall behind.
  ghost predicate InWindow(cfg: Config, s: State, a: Action)
    requires 1 <= cfg.w
  {
    a.Claim? ==> Claims.InWindow(cfg.w, s.c, Claims.Advance(a.thread))
  }

  lemma StepKeepsInv(cfg: Config, s: State, a: Action)
    requires Inv(cfg, s) && Enabled(cfg, s, a) && InWindow(cfg, s, a)
    ensures Inv(cfg, Step(cfg, s, a))
  {
    hide Inv;
    match a
    case StartEnqueue(xs) => StartEnqueueKeepsInv(cfg, s, xs);
    case Produce(supply) => ProduceKeepsInv(cfg, s, supply);
    case StartDequeue(t, max) => StartDequeueKeepsInv(cfg, s, t, max);
    case Claim(t) => ClaimKeepsInv(cfg, s, t);
    case Consume(t) => ConsumeKeepsInv(cfg, s, t);
    case Finish(t) => FinishKeepsInv(cfg, s, t);
  }

  // ---- Runs ----

  function Run(cfg: Config, s: State, schedule: seq<Action>): State
    decreases |schedule|
  {
    if |schedule| == 0 then s
    else Run(cfg, if Enabled(cfg, s, schedule[0]) then Step(cfg, s, schedule[0]) else s, schedule[1..])
  }

  ghost predicate RunInWindow(cfg: Config, s: State, schedule: seq<Action>)
    decreases |schedule|
  {
    |schedule| > 0 ==>
      var a := schedule[0];
      && (Enabled(cfg, s, a) ==> InWindow(cfg, s, a))
      && RunInWindow(cfg, if Enabled(cfg, s, a) then Step(cfg, s, a) else s, schedule[1..])
  }

  // A producer as constructed, with an index of 2^m entries whose value fields hold whatever the memory held.
  ghost predicate Initial(cfg: Config, s: State) {
    && cfg.Ok() && Claims.Initial(s.c) && |s.consumers| == |s.c.pcs|
    && (exists junk: seq<Option<nat>> :: |junk| == Pow2(cfg.m) && s.index == Idx.Fresh(cfg.m, junk))
    && s.blocks == map[] && s.home == map[] && s.got == map[] && s.items == []
    && s.tailBlock == None && s.producer == Ready
    && forall t :: 0 <= t < |s.consumers| ==> s.consumers[t] == NoClaim
  }

  // Just this, for each number of consumers and contents of the memory.
  function Created(cfg: Config, threads: nat, junk: seq<Option<nat>>): State
    requires |junk| == Pow2(cfg.m)
  {
    State(Claims.Created(threads), Idx.Fresh(cfg.m, junk), map[], None, Ready, seq(threads, _ => NoClaim), [], map[], map[])
  }

  lemma CreatedIsInitial(cfg: Config, threads: nat, junk: seq<Option<nat>>)
    requires cfg.Ok() && |junk| == Pow2(cfg.m)
    ensures Initial(cfg, Created(cfg, threads, junk))
  {}

  lemma IdleConsumersWeighNothing(n: nat, consumers: seq<ConsumerPc>, b: nat)
    requires 0 < n && forall t :: 0 <= t < |consumers| ==> consumers[t].NoClaim?
    ensures Sum(UncountedIn(n, b), consumers) == Sum(Finishing(n, b), consumers) == 0
    ensures Sum(Cleared(n, b), consumers) == Sum(UnreadAt(b), consumers) == 0
  {
    SumZero(UncountedIn(n, b), consumers);
    SumZero(Finishing(n, b), consumers);
    SumZero(Cleared(n, b), consumers);
    SumZero(UnreadAt(b), consumers);
  }

  lemma InitialCounts(cfg: Config, s: State)
    requires Initial(cfg, s)
    ensures CountsOk(cfg.BlockSize(), 0, 0, s.home, s.blocks, Ready, s.consumers) && ReadsOk(0, s.consumers, s.got)
  {
    forall b: nat
      ensures BlockCountOk(cfg.BlockSize(), 0, 0, s.home, s.blocks, Ready, s.consumers, b)
      ensures Sum(UnreadAt(b), s.consumers) == 0
    {
      IdleConsumersWeighNothing(cfg.BlockSize(), s.consumers, b);
    }
  }

  lemma InitialIndex(cfg: Config, s: State)
    requires Initial(cfg, s)
    ensures IndexOk(cfg, s.index) && s.index.inserted == 0 && s.index.unsettled == None && Claims.Inv(s.c)
    ensures forall e :: 0 <= e < |s.index.entries| ==> s.index.entries[e].key.None?
  {
    var junk: seq<Option<nat>> :| |junk| == Pow2(cfg.m) && s.index == Idx.Fresh(cfg.m, junk);
    Idx.FreshInv(cfg.m, junk);
    Claims.IdleSums(s.c.pcs);
  }

  lemma InitialPlaces(cfg: Config, s: State)
    requires Initial(cfg, s) && Idx.WellFormed(s.index)
    ensures PlacesOk(cfg, 0, s.consumers, s.c.pcs) && ViewsOk(cfg.BlockSize(), s.index, map[], s.consumers)
  {
    hide Idx.WellFormed, Pow2;
  }

  lemma InitialInv(cfg: Config, s: State)
    requires Initial(cfg, s)
    ensures Inv(cfg, s)
  {
    InitialIndex(cfg, s);
    InitialPlaces(cfg, s);
    InitialCounts(cfg, s);
    hide CountsOk, ReadsOk, PlacesOk, ViewsOk, Idx.Inv, Claims.Inv, Idx.Fresh;
  }

  lemma {:induction false} RunKeepsInv(cfg: Config, s: State, schedule: seq<Action>)
    requires Inv(cfg, s) && RunInWindow(cfg, s, schedule)
    ensures Inv(cfg, Run(cfg, s, schedule))
    decreases |schedule|
  {
    hide Inv;
    if |schedule| > 0 {
      var a := schedule[0];
      if Enabled(cfg, s, a) {
        StepKeepsInv(cfg, s, a);
        RunKeepsInv(cfg, Step(cfg, s, a), schedule[1..]);
      } else {
        RunKeepsInv(cfg, s, schedule[1..]);
      }
    }
  }

  /** Any word size, block size and index size, any number of consumers, single or bulk, any answers of the
      allocator, any interleaving of atomic steps. */
  lemma EveryRunKeepsInv(cfg: Config, s: State, schedule: seq<Action>)
    requires Initial(cfg, s) && RunInWindow(cfg, s, schedule)
    ensures Inv(cfg, Run(cfg, s, schedule))
  {
    InitialInv(cfg, s);
    RunKeepsInv(cfg, s, schedule);
  }

  // ---- What it means ----

  /** Nobody ever follows a null or stale pointer: whatever step is next, what it reads is there. */
  lemma EveryStepIsDefined(cfg: Config, s: State)
    requires Inv(cfg, s)
    ensures CanProduce(cfg, s)
    ensures forall t :: 0 <= t < |s.consumers| ==> CanConsume(cfg, s, s.consumers[t])
  {
    hide Inv, CanProduce, CanConsume;
    ProduceKeepsInv(cfg, s, Nothing);
    forall t | 0 <= t < |s.consumers| ensures CanConsume(cfg, s, s.consumers[t]) {
      ConsumeKeepsInv(cfg, s, t);
    }
  }

  /** First in, first out: what was taken at index i is the i-th element enqueued. */
  lemma TakenIsEnqueued(cfg: Config, s: State, i: nat)
    requires Inv(cfg, s) && i in s.got
    ensures i < s.c.head <= |s.items| && s.got[i] == s.items[i]
  {
    hide CountsOk, PlacesOk, ViewsOk, KeysUpToTail, TailBlockOk, HomeOk, FillOk, RoomOk, ShownOk, IndexOk, CellIs;
    Claims.ClaimsAreSound(s.c);
    assert Sum(UnreadAt(i), s.consumers) + One(i in s.got) == One(i < s.c.head);
    forall t | 0 <= t < |s.consumers| ensures 0 <= UnreadAt(i)(s.consumers[t]) {}
    SumNonNegative(UnreadAt(i), s.consumers);
  }

  lemma ProducerTakesNothing(cfg: Config, s: State, supply: Supply)
    requires CanProduce(cfg, s)
    ensures ProducerStep(cfg, s, supply).got == s.got
  {
    hide Idx.Grow, Idx.StoreKey, Idx.StoreTail, Idx.Rewind, Idx.StoreValue, Idx.Usable, Idx.WellFormed, BeginFill;
    hide IsFull;
    hide FoundPosition, TailEntry, GrantedMemory, GrantedBlock, Undo;
  }

  lemma OnlyTakeTakes(cfg: Config, s: State, pc: ConsumerPc)
    requires CanConsume(cfg, s, pc) && !pc.Take?
    ensures ConsumerStep(cfg, s, pc).0.got == s.got
  {}

  /** Only the step that takes index i adds it to what was taken, it was not taken before, and what it delivers
      is the element enqueued there. */
  lemma EachIndexIsTakenOnce(cfg: Config, s: State, a: Action)
    requires Inv(cfg, s) && Enabled(cfg, s, a)
    ensures !(a.Consume? && s.consumers[a.thread].Take?) ==> Step(cfg, s, a).got == s.got
    ensures a.Consume? && s.consumers[a.thread].Take? ==> TakesNext(s, Step(cfg, s, a), s.consumers[a.thread].i)
  {
    if a.Consume? && s.consumers[a.thread].Take? {
      TakeStep(cfg, s, a.thread);
      hide Inv;
    } else {
      hide Inv, ProducerStep, ConsumerStep, CanProduce, CanConsume;
      if a.Consume? {
        OnlyTakeTakes(cfg, s, s.consumers[a.thread]);
      } else if a.Produce? {
        ProducerTakesNothing(cfg, s, a.supply);
      }
    }
  }

  predicate TakesNext(s: State, s': State, i: nat) {
    i < |s.items| && i !in s.got && s'.got == s.got[i := s.items[i]]
  }
}
