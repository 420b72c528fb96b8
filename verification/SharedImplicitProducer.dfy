/** An implicit producer as the object the source has: the atomic counters, the block index built of shared entries, the
    blocks, and for each thread its place in the code. Every method is one atomic step, done in place and on words, and
    does to the object what ImplicitProducer says about values; ImplicitRuns drives it through whole runs. */
module SharedImplicitProducer {
  import opened Common
  import opened Words
  import opened BlockMath
  import opened ImplicitProducer
  import Claims = DequeueClaims
  import Idx = ImplicitIndex
  import Objects = ImplicitIndexObjects
  import Allocation = ImplicitAllocation
  import Safety = ImplicitSafety

  // Clearing the low bits of a word.
  function Aligned(w: nat, k: nat, x: int): int { Wrap(w, x) - Wrap(w, x) % Pow2(k) }

  lemma AlignedWord(w: nat, k: nat, x: int)
    requires k <= w
    ensures Aligned(w, k, x) == Wrap(w, x - x % Pow2(k))
  {
    var n := Pow2(k);
    WrapModPow2(w, k, x);
    WrapOfSum(w, x, 0 - x % n);
    AtMost(Wrap(w, x), n);
    DivisionIsUnique(Wrap(w, x) - x % n, Pow2(w), 0, Wrap(w, x) - x % n);
  }

  lemma AtMost(x: nat, n: nat)
    requires 0 < n
    ensures x % n <= x
  {
    if x < n {
      DivisionIsUnique(x, n, 0, x);
    }
  }

  // (startTailIndex - 1) & ~(BLOCK_SIZE - 1): the word of the base of the last block before the tail.
  lemma BaseBeforeTail(w: nat, k: nat, tail: nat)
    requires k <= w
    ensures Aligned(w, k, tail - 1) == Wrap(w, Blocks(Pow2(k), tail) * Pow2(k) - Pow2(k))
  {
    AlignedWord(w, k, tail - 1);
    Allocation.AlignedBefore(Pow2(k), tail);
    StartIsProduct(Pow2(k), Blocks(Pow2(k), tail));
  }

  // The test for room as the code makes it, from the word of the base of the block before.
  lemma RoomTestOnWords(cfg: Config, head: nat, base: nat, current: int)
    requires 1 <= cfg.w && current == Wrap(cfg.w, base - cfg.BlockSize())
    ensures var n := cfg.BlockSize();
      var word := Wrap(cfg.w, current + n);
      && word == Wrap(cfg.w, base)
      && (IsFull(cfg, head, base) <==>
            !CircularLessThan(cfg.w, Wrap(cfg.w, head), Wrap(cfg.w, word + n))
            || (cfg.limit.Some? && (cfg.limit.value == 0 || cfg.limit.value - n < Wrap(cfg.w, word - Wrap(cfg.w, head)))))
  {
    var n := cfg.BlockSize();
    WrapOfSum(cfg.w, base - n, n);
    WrapOfSum(cfg.w, base, n);
    WrapOfDifference(cfg.w, base, head);
  }

  lemma NextBase(w: nat, b: nat, n: nat)
    ensures Wrap(w, Wrap(w, b * n - n) + n) == Wrap(w, b * n)
    ensures (b + 1) * n - n == b * n
  {
    hide Wrap, Pow2;
    var x := b * n;
    WrapOfSum(w, x - n, n);
    assert x - n + n == x;
  }

  /** The bases the allocation loop of enqueue_bulk passes, as words: exactly those of the blocks that begin in
      [tail, tail + count), in order, whatever the words have wrapped to. */
  method BasesOfBulk(cfg: Config, tail: nat, count: nat) returns (bases: seq<int>)
    requires cfg.k <= cfg.w && count + cfg.BlockSize() <= Pow2(cfg.w)
    ensures var n := cfg.BlockSize();
      && Blocks(n, tail) + |bases| == Blocks(n, tail + count)
      && forall i :: 0 <= i < |bases| ==> bases[i] == Wrap(cfg.w, Start(n, Blocks(n, tail) + i))
  {
    hide Pow2, Wrap, Blocks, Start, Aligned, BlockBaseDiff;
    var n := cfg.BlockSize();
    var blockBaseDiff := BlockBaseDiff(cfg, tail, count);
    var currentTailIndex := Aligned(cfg.w, cfg.k, tail - 1);
    Allocation.BlockBaseDiffIsExact(cfg, tail, count);
    BaseBeforeTail(cfg.w, cfg.k, tail);
    ghost var first, end := Blocks(n, tail), Blocks(n, tail + count);
    BlocksMonotone(n, tail, tail + count);
    StartIsProduct(n, first);
    bases := [];
    while blockBaseDiff > 0
      invariant first + |bases| <= end && blockBaseDiff == Start(n, end) - Start(n, first + |bases|)
      invariant currentTailIndex == Wrap(cfg.w, Start(n, first + |bases|) - n)
      invariant forall i :: 0 <= i < |bases| ==> bases[i] == Wrap(cfg.w, Start(n, first + i))
      decreases blockBaseDiff
    {
      StartMoves(n, first + |bases|);
      WrapOfSum(cfg.w, Start(n, first + |bases|) - n, n);
      blockBaseDiff := blockBaseDiff - n;
      currentTailIndex := Wrap(cfg.w, currentTailIndex + n);
      bases := bases + [currentTailIndex];
      if first + |bases| < end {
        InOrder(n, first + |bases|, end);
      }
    }
    if first + |bases| < end {
      InOrder(n, first + |bases|, end);
    }
  }

  class Producer {
    const cfg: Config
    const counters: Claims.SharedCounters
    const index: Objects.BlockIndex
    var blocks: map<nat, Block>
    var tailBlock: Option<nat>
    var producer: ProducerPc
    var consumers: seq<ConsumerPc>
    // The local variable of the call in progress, as a word.
    var currentTailIndex: int
    ghost var items: seq<Element>
    ghost var home: map<nat, nat>
    ghost var got: map<nat, Element>

    ghost function Abs(): State
      reads this, counters, index, index.entries, index.headers
    {
      State(counters.Abs(), index.Abs(), blocks, tailBlock, producer, consumers, items, home, got)
    }

    // Which block currentTailIndex is the base of.
    ghost predicate BaseOk()
      reads this, counters, index
    {
      BaseOfPlace(cfg, producer, currentTailIndex, index.inserted, Blocks(cfg.BlockSize(), counters.tailIndex))
    }

    ghost predicate Valid()
      reads this, counters, index, index.entries, index.headers
    {
      && index.Valid() && 1 <= cfg.w && cfg.k <= cfg.w && counters.w == index.w == cfg.w && index.k == cfg.k
      && BaseOk()
    }

    /** A new producer, with the memory of its first index. */
    constructor (cfg: Config, threads: nat, junk: seq<Option<nat>>)
      requires cfg.Ok() && |junk| == Pow2(cfg.m)
      ensures Valid() && Abs() == Safety.Created(cfg, threads, junk) && this.cfg == cfg
      ensures fresh(counters) && fresh(index) && fresh(index.entries) && fresh(index.headers)
    {
      hide Pow2, Objects.Contents, Objects.Views, Objects.Linked, Objects.KeysOk, Objects.BlockIndex.Valid;
      hide Idx.Fresh, Idx.WellFormed, Claims.Initial, Claims.Created;
      var counters := new Claims.SharedCounters(cfg.w, threads);
      var index := new Objects.BlockIndex(cfg.w, cfg.k, Pow2(cfg.m), junk, cfg.m);
      this.cfg, this.counters, this.index := cfg, counters, index;
      blocks, tailBlock, producer, consumers := map[], None, Ready, seq(threads, _ => NoClaim);
      currentTailIndex, items, home, got := 0, [], map[], map[];
      new;
      Claims.InitialIsCreated(counters.Abs());
    }

    // ---- enqueue and enqueue_bulk ----

    /** The start of a call: how many blocks it needs. At rest the index counts exactly the blocks in use. */
    method BeginEnqueue(xs: seq<Element>)
      requires Valid() && Enabled(cfg, Abs(), StartEnqueue(xs)) && index.inserted == FirstNew(cfg, Abs())
      modifies this
      ensures Valid() && Abs() == Step(cfg, old(Abs()), StartEnqueue(xs))
    {
      hide Idx.WellFormed, BeginFill, Offset;
      hide Pow2, Blocks, Wrap, Objects.Contents, Objects.Views, Objects.BlockIndex.Valid;
      var n := cfg.BlockSize();
      var startTailIndex := Wrap(cfg.w, counters.tailIndex);
      var last := Wrap(cfg.w, startTailIndex + |xs| - 1);
      var before := Wrap(cfg.w, startTailIndex - 1);
      var blockBaseDiff := Wrap(cfg.w, (last - last % n) - (before - before % n));
      currentTailIndex := before - before % n;
      WrapOfSum(cfg.w, counters.tailIndex, |xs| - 1);
      WrapOfSum(cfg.w, counters.tailIndex, -1);
      BaseBeforeTail(cfg.w, cfg.k, counters.tailIndex);
      if 0 < blockBaseDiff {
        producer := Room(xs, blockBaseDiff, []);
      } else {
        TakeUpFirst(xs, [], Abs());
      }
    }

    // Where the elements go: into the tail block, or from a block boundary on into the first block obtained.
    method TakeUpFirst(xs: seq<Element>, chain: seq<nat>, ghost s: State)
      requires s.c.tail == counters.tailIndex && s.tailBlock == tailBlock
      modifies this`producer
      ensures producer == BeginFill(cfg, s, xs, chain) && (producer.Fill? || producer.Publish?)
    {
      var current, rest := tailBlock, chain;
      if Offset(cfg.BlockSize(), counters.tailIndex) == 0 && |chain| > 0 {
        current, rest := Some(chain[0]), chain[1..];
      }
      producer := if |xs| == 0 then Publish(xs, chain, current) else Fill(xs, chain, 0, current, rest);
    }

    // The start of the rollback.
    method BeginUndo(chain: seq<nat>)
      requires cfg.k <= cfg.w
      modifies this`producer, this`currentTailIndex
      ensures producer == Undo(chain, 0) && BaseOk()
    {
      currentTailIndex := Aligned(cfg.w, cfg.k, counters.tailIndex - 1);
      BaseBeforeTail(cfg.w, cfg.k, counters.tailIndex);
      producer := Undo(chain, 0);
    }

    /** The test for room before each block. */
    method TestRoom()
      requires Valid() && CanProduce(cfg, Abs()) && producer.Room?
      modifies this
      ensures Valid() && Abs() == ProducerStep(cfg, old(Abs()), Nothing)
    {
      hide Pow2, Blocks, Wrap, Objects.Contents, Objects.Views, Objects.BlockIndex.Valid, IsFull;
      var Room(xs, left, chain) := producer;
      var n := cfg.BlockSize();
      var head := Wrap(cfg.w, counters.headIndex);
      RoomTestOnWords(cfg, counters.headIndex, index.inserted * n, currentTailIndex);
      currentTailIndex := Wrap(cfg.w, currentTailIndex + n);
      var full := !CircularLessThan(cfg.w, head, Wrap(cfg.w, currentTailIndex + n))
        || (cfg.limit.Some? && (cfg.limit.value == 0 || cfg.limit.value - n < Wrap(cfg.w, currentTailIndex - head)));
      if full {
        BeginUndo(chain);
      } else {
        producer := Insert(xs, left - n, chain);
      }
    }

    /** The key of the new block's entry. */
    method InsertKey()
      requires Valid() && CanProduce(cfg, Abs()) && producer.Insert?
      modifies this, index, index.entries
      ensures Valid() && Abs() == ProducerStep(cfg, old(Abs()), Nothing)
      ensures index.entries == old(index.entries) && index.headers == old(index.headers)
    {
      hide Pow2, Wrap, Objects.Contents, Objects.Views, Objects.BlockIndex.Valid;
      var Insert(xs, left, chain) := producer;
      var ok := index.StoreKey(currentTailIndex);
      producer := if ok then Bump(xs, left, chain) else Grow(xs, left, chain);
    }

    /** new_block_index, with the memory the allocator grants. */
    method GrowIndex(memory: Option<seq<Option<nat>>>, ghost supply: Supply)
      requires Valid() && CanProduce(cfg, Abs()) && producer.Grow? && memory == GrantedMemory(cfg, Abs(), supply)
      modifies this, index
      ensures Valid() && Abs() == ProducerStep(cfg, old(Abs()), supply)
      ensures old(index.entries) <= index.entries && fresh(index.entries[|old(index.entries)|..])
      ensures old(index.headers) <= index.headers && fresh(index.headers[|old(index.headers)|..])
    {
      hide DoRoom, DoInsert, DoBump, DoGrab, DoHook, DoUndoTail, DoUndoValue, DoUndoEntry, DoUndoRewind, DoUndoFree;
      hide DoFill, DoPublish;
      hide Pow2, Wrap, Objects.Contents, Objects.Views, Objects.BlockIndex.Valid, Idx.Grow;
      var Grow(xs, left, chain) := producer;
      index.AtHeader(|index.headers| - 1);
      if memory.Some? {
        Objects.GrowIs(index.Abs(), memory.value);
      }
      var ok := index.NewBlockIndex(memory);
      if ok {
        producer := Insert(xs, left, chain);
      } else {
        BeginUndo(chain);
      }
    }

    /** The tail of the index moves to the new block's entry. */
    method BumpTail()
      requires Valid() && CanProduce(cfg, Abs()) && producer.Bump?
      modifies this, index, index.blockIndex
      ensures Valid() && Abs() == ProducerStep(cfg, old(Abs()), Nothing)
      ensures index.entries == old(index.entries) && index.headers == old(index.headers)
    {
      hide Pow2, Wrap, Objects.Contents, Objects.Views, Objects.BlockIndex.Valid;
      var Bump(xs, left, chain) := producer;
      NextBase(cfg.w, index.inserted, cfg.BlockSize());
      index.StoreTail();
      producer := Grab(xs, left, chain);
    }

    /** requisition_block, with the block the pools grant: its counter is as its last user left it. */
    method RequisitionBlock(block: Option<nat>, completed: int, ghost supply: Supply)
      requires Valid() && CanProduce(cfg, Abs()) && producer.Grab? && block == GrantedBlock(Abs(), supply)
      requires completed == if supply.Granted? then supply.completed else 0
      modifies this
      ensures Valid() && Abs() == ProducerStep(cfg, old(Abs()), supply)
    {
      hide Pow2, Wrap, Objects.Contents, Objects.Views, Objects.BlockIndex.Valid;
      var Grab(xs, left, chain) := producer;
      match block {
        case Some(b) =>
          var number := Blocks(cfg.BlockSize(), counters.tailIndex) + |chain|;
          blocks := blocks[b := Block(completed, Raw(cfg.BlockSize()), number)];
          home := home[number := b];
          producer := Hook(xs, left, chain, b);
        case None =>
          producer := UndoTail(chain);
      }
    }

    /** reset_empty, and the block is hooked into the index. */
    method HookIn()
      requires Valid() && CanProduce(cfg, Abs()) && producer.Hook?
      modifies this, index, index.entries
      ensures Valid() && Abs() == ProducerStep(cfg, old(Abs()), Nothing)
      ensures index.entries == old(index.entries) && index.headers == old(index.headers)
    {
      hide DoRoom, DoInsert, DoGrow, DoBump, DoGrab, DoUndoTail, DoUndoValue, DoUndoEntry, DoUndoRewind, DoUndoFree;
      hide DoFill, DoPublish;
      hide Pow2, Wrap, Objects.Contents, Objects.Views, Objects.BlockIndex.Valid, BeginFill, Idx.StoreValue;
      var Hook(xs, left, chain, b) := producer;
      ghost var x := Abs();
      index.AtHeader(|index.headers| - 1);
      var idxEntry := index.blockIndex.index[index.blockIndex.tail];
      Objects.ValueIsOk(index.Abs(), TailEntry(Abs()), Some(b));
      index.StoreValue(idxEntry, Some(b), TailEntry(Abs()));
      assert index.Abs() == DoHook(cfg, x).index;
      blocks := blocks[b := blocks[b].(completed := 0)];
      if 0 < left {
        producer := Room(xs, left, chain + [b]);
      } else {
        TakeUpFirst(xs, chain + [b], x);
      }
    }

    /** No block was granted: the tail of the index goes back. */
    method RewindTail()
      requires Valid() && CanProduce(cfg, Abs()) && producer.UndoTail?
      modifies this, index, index.blockIndex
      ensures Valid() && Abs() == ProducerStep(cfg, old(Abs()), Nothing)
      ensures index.entries == old(index.entries) && index.headers == old(index.headers)
    {
      hide Pow2, Wrap, Objects.Contents, Objects.Views, Objects.BlockIndex.Valid;
      index.Rewind();
      producer := UndoValue(producer.chain);
    }

    /** Then the entry it had taken is cleared. */
    method ClearTaken()
      requires Valid() && CanProduce(cfg, Abs()) && producer.UndoValue?
      modifies this, index, index.entries
      ensures Valid() && Abs() == ProducerStep(cfg, old(Abs()), Nothing)
      ensures index.entries == old(index.entries) && index.headers == old(index.headers)
    {
      hide Pow2, Wrap, Objects.Contents, Objects.Views, Objects.BlockIndex.Valid, Idx.NextEntry;
      index.AtNext();
      var idxEntry := index.blockIndex.index[(index.blockIndex.tail + 1) % index.blockIndex.capacity];
      index.StoreValue(idxEntry, None, Idx.NextEntry(index.Abs()));
      BeginUndo(producer.chain);
    }

    // The rollback loop moves on to the next block and looks its entry up.
    method FindEntry() returns (idxEntry: Objects.BlockIndexEntry, ghost e: nat)
      requires Valid() && CanProduce(cfg, Abs()) && producer.UndoEntry?
      modifies this`currentTailIndex
      ensures currentTailIndex == Wrap(cfg.w, (FirstNew(cfg, Abs()) + producer.done) * cfg.BlockSize())
      ensures e == Idx.Current(index.Abs()).ring[FoundPosition(cfg, Abs(), FirstNew(cfg, Abs()) + producer.done)]
      ensures e < |index.entries| && idxEntry == index.entries[e]
    {
      hide Pow2, Wrap, Objects.Contents, Objects.Views, Objects.BlockIndex.Valid, Idx.LookupPosition;
      ghost var block := FirstNew(cfg, Abs()) + producer.done;
      NextBase(cfg.w, block, cfg.BlockSize());
      currentTailIndex := Wrap(cfg.w, currentTailIndex + cfg.BlockSize());
      idxEntry, e := index.GetEntry(currentTailIndex, block * cfg.BlockSize());
    }

    /** The rollback loop: the entry of the next block is looked up and cleared. */
    method ClearEntryOfBlock()
      requires Valid() && CanProduce(cfg, Abs()) && producer.UndoEntry?
      modifies this, index, index.entries
      ensures Valid() && Abs() == ProducerStep(cfg, old(Abs()), Nothing)
      ensures index.entries == old(index.entries) && index.headers == old(index.headers)
    {
      hide DoRoom, DoInsert, DoGrow, DoBump, DoGrab, DoHook, DoUndoTail, DoUndoValue, DoUndoRewind, DoUndoFree;
      hide DoFill, DoPublish;
      hide Pow2, Wrap, Objects.Contents, Objects.Views, Objects.BlockIndex.Valid, Idx.StoreValue, FoundPosition, Blocks;
      hide Idx.WellFormed;
      ghost var x := Abs();
      var UndoEntry(chain, done) := producer;
      var idxEntry, e := FindEntry();
      Objects.ValueIsOk(index.Abs(), e, None);
      index.StoreValue(idxEntry, None, e);
      assert index.Abs() == Idx.StoreValue(x.index, e, None);
      producer := UndoRewind(chain, done);
    }

    /** And the tail of the index goes back by one. */
    method RewindOne()
      requires Valid() && CanProduce(cfg, Abs()) && producer.UndoRewind?
      modifies this, index, index.blockIndex
      ensures Valid() && Abs() == ProducerStep(cfg, old(Abs()), Nothing)
      ensures index.entries == old(index.entries) && index.headers == old(index.headers)
    {
      hide Pow2, Wrap, Objects.Contents, Objects.Views, Objects.BlockIndex.Valid;
      var UndoRewind(chain, done) := producer;
      NextBase(cfg.w, Blocks(cfg.BlockSize(), counters.tailIndex) + done, cfg.BlockSize());
      index.Rewind();
      producer := Undo(chain, done + 1);
    }

    /** add_blocks_to_free_list, one block at a time. */
    method ReturnBlock()
      requires Valid() && CanProduce(cfg, Abs()) && producer.UndoFree?
      modifies this
      ensures Valid() && Abs() == ProducerStep(cfg, old(Abs()), Nothing)
    {
      hide DoRoom, DoInsert, DoGrow, DoBump, DoGrab, DoHook, DoUndoTail, DoUndoValue, DoUndoEntry, DoUndoRewind;
      hide DoFill, DoPublish;
      hide Pow2, Wrap, Objects.Contents, Objects.Views, Objects.BlockIndex.Valid;
      var UndoFree(chain, done) := producer;
      blocks := blocks - {chain[done]};
      home := home - {Blocks(cfg.BlockSize(), counters.tailIndex) + done};
      producer := if done + 1 < |chain| then UndoFree(chain, done + 1) else Ready;
    }

    /** The construction of one element in its slot. */
    method Construct()
      requires Valid() && CanProduce(cfg, Abs()) && producer.Fill?
      modifies this
      ensures Valid() && Abs() == ProducerStep(cfg, old(Abs()), Nothing)
    {
      hide DoRoom, DoInsert, DoGrow, DoBump, DoGrab, DoHook, DoUndoTail, DoUndoValue, DoUndoEntry, DoUndoRewind;
      hide DoUndoFree, DoPublish;
      hide Idx.WellFormed, Undo, BeginFill, FoundPosition, TailEntry, IsFull, GrantedMemory, GrantedBlock;
      hide Pow2, Wrap, Objects.Contents, Objects.Views, Objects.BlockIndex.Valid, Offset, Blocks;
      var Fill(xs, chain, done, current, rest) := producer;
      var n := cfg.BlockSize();
      var b := blocks[current.value];
      blocks := blocks[current.value := b.(cells := b.cells[Offset(n, counters.tailIndex + done) := Some(xs[done])])];
      producer :=
        if done + 1 == |xs| then Publish(xs, chain, current)
        else if Offset(n, counters.tailIndex + done + 1) == 0 && |rest| > 0 then
          Fill(xs, chain, done + 1, Some(rest[0]), rest[1..])
        else Fill(xs, chain, done + 1, current, rest);
    }

    /** The store of tailIndex that makes the elements available. */
    method PublishTail()
      requires Valid() && CanProduce(cfg, Abs()) && producer.Publish?
      modifies this, counters
      ensures Valid() && Abs() == ProducerStep(cfg, old(Abs()), Nothing)
    {
      hide DoRoom, DoInsert, DoGrow, DoBump, DoGrab, DoHook, DoUndoTail, DoUndoValue, DoUndoEntry, DoUndoRewind;
      hide DoUndoFree, DoFill;
      hide Pow2, Wrap, Objects.Contents, Objects.Views, Objects.BlockIndex.Valid;
      var Publish(xs, _, current) := producer;
      counters.PublishTail(|xs|);
      items := items + xs;
      tailBlock := current;
      producer := Ready;
    }

    // ---- dequeue and dequeue_bulk ----

    method BeginDequeue(t: nat, max: nat)
      requires Valid() && Enabled(cfg, Abs(), StartDequeue(t, max))
      modifies counters
      ensures Valid() && Abs() == Step(cfg, old(Abs()), StartDequeue(t, max))
    {
      hide Pow2, Wrap, Objects.Contents, Objects.Views, Objects.BlockIndex.Valid;
      counters.Call(Claims.Start(t, max));
    }

    /** A step of the claim protocol; with a claim the consumer turns to the block index. */
    method AdvanceClaim(t: nat)
      requires Valid() && Enabled(cfg, Abs(), Claim(t))
      modifies this, counters
      ensures Valid() && Abs() == Step(cfg, old(Abs()), Claim(t))
    {
      hide Pow2, Wrap, Objects.Contents, Objects.Views, Objects.BlockIndex.Valid;
      counters.Dequeue(t);
      if counters.pcs[t].Claimed? {
        var claim := counters.pcs[t];
        consumers := consumers[t := LoadIndex(claim.first, claim.first + claim.count)];
      }
    }

    /** The block index as the consumer loads it, and then the tail of that header. */
    method LoadHeader(t: nat)
      requires Valid() && Enabled(cfg, Abs(), Consume(t)) && (consumers[t].LoadIndex? || consumers[t].LoadTail?)
      modifies this
      ensures Valid() && Abs() == Step(cfg, old(Abs()), Consume(t))
    {
      hide Pow2, Wrap, Objects.Contents, Objects.Views, Objects.BlockIndex.Valid;
      match consumers[t] {
        case LoadIndex(i, stop) =>
          consumers := consumers[t := LoadTail(i, stop, |index.headers| - 1)];
        case LoadTail(i, stop, h) =>
          consumers := consumers[t := LoadKey(i, stop, h, index.headers[h].tail)];
      }
    }

    /** From the key of the entry at that tail the position of the block. */
    method FindSlot(t: nat)
      requires Valid() && Enabled(cfg, Abs(), Consume(t)) && consumers[t].LoadKey?
      modifies this
      ensures Valid() && Abs() == Step(cfg, old(Abs()), Consume(t))
    {
      hide Pow2, Wrap, Objects.Contents, Objects.Views, Objects.BlockIndex.Valid, Idx.LookupPosition;
      var LoadKey(i, stop, h, tail) := consumers[t];
      index.AtHeader(h);
      var slot := index.LookUp(index.headers[h], tail, Wrap(cfg.w, i), h, i);
      consumers := consumers[t := LoadValue(i, stop, h, slot)];
    }

    /** And there the block; also at the start of each further block of the claim. */
    method FindBlock(t: nat)
      requires Valid() && Enabled(cfg, Abs(), Consume(t)) && consumers[t].LoadValue?
      modifies this
      ensures Valid() && Abs() == Step(cfg, old(Abs()), Consume(t))
    {
      hide Pow2, Wrap, Objects.Contents, Objects.Views, Objects.BlockIndex.Valid;
      var LoadValue(i, stop, h, slot) := consumers[t];
      index.AtHeader(h);
      var block := index.headers[h].index[slot].value;
      consumers := consumers[t := Take(i, i, stop, h, slot, block.value)];
    }

    /** One element is moved out and its slot destroyed. */
    method TakeElement(t: nat)
      requires Valid() && Enabled(cfg, Abs(), Consume(t)) && consumers[t].Take?
      modifies this
      ensures Valid() && Abs() == Step(cfg, old(Abs()), Consume(t))
    {
      hide DoComplete, DoClear, DoFree, ProducerStep;
      hide Idx.WellFormed, EndInBlock, LookUp;
      hide Pow2, Wrap, Objects.Contents, Objects.Views, Objects.BlockIndex.Valid, Offset;
      var Take(i, from, stop, h, slot, b) := consumers[t];
      var place := Offset(cfg.BlockSize(), i);
      var element := blocks[b].cells[place].value;
      blocks := blocks[b := blocks[b].(cells := blocks[b].cells[place := None])];
      got := got[i := element];
      if i + 1 == EndInBlock(cfg, from, stop) {
        consumers := consumers[t := Complete(i + 1, from, stop, h, slot, b)];
      } else {
        consumers := consumers[t := Take(i + 1, from, stop, h, slot, b)];
      }
    }

    /** set_many_empty: the part of the claim in this block is counted; whoever completes the count returns the block. */
    method CountCompleted(t: nat)
      requires Valid() && Enabled(cfg, Abs(), Consume(t)) && consumers[t].Complete?
      modifies this
      ensures Valid() && Abs() == Step(cfg, old(Abs()), Consume(t))
    {
      hide DoTake, DoClear, DoFree, ProducerStep;
      hide Idx.WellFormed, LookUp;
      hide Pow2, Wrap, Objects.Contents, Objects.Views, Objects.BlockIndex.Valid;
      var Complete(i, from, stop, h, slot, b) := consumers[t];
      var completed := blocks[b].completed + (i - from);
      blocks := blocks[b := blocks[b].(completed := completed)];
      if completed == cfg.BlockSize() {
        consumers := consumers[t := ClearEntry(i, stop, h, slot, b)];
      } else {
        index.AtHeader(h);
        consumers := consumers[t := Onward(i, stop, h, slot, index.headers[h].capacity)];
      }
    }

    /** The entry of the completed block is cleared. */
    method ClearCompleted(t: nat)
      requires Valid() && Enabled(cfg, Abs(), Consume(t)) && consumers[t].ClearEntry?
      modifies this, index, index.entries
      ensures Valid() && Abs() == Step(cfg, old(Abs()), Consume(t))
      ensures index.entries == old(index.entries) && index.headers == old(index.headers)
    {
      hide DoTake, DoComplete, DoFree, ProducerStep;
      hide Pow2, Wrap, Objects.Contents, Objects.Views, Objects.BlockIndex.Valid, Idx.StoreValue;
      var ClearEntry(i, stop, h, slot, b) := consumers[t];
      index.AtHeader(h);
      ghost var e := index.headers[h].ring[slot];
      Objects.ValueIsOk(index.Abs(), e, None);
      index.StoreValue(index.headers[h].index[slot], None, e);
      consumers := consumers[t := FreeBlock(i, stop, h, slot, b)];
    }

    /** add_block_to_free_list */
    method ReturnCompleted(t: nat)
      requires Valid() && Enabled(cfg, Abs(), Consume(t)) && consumers[t].FreeBlock?
      modifies this
      ensures Valid() && Abs() == Step(cfg, old(Abs()), Consume(t))
    {
      hide DoTake, DoComplete, DoClear, ProducerStep;
      hide Idx.WellFormed, LookUp;
      hide Pow2, Wrap, Objects.Contents, Objects.Views, Objects.BlockIndex.Valid;
      var FreeBlock(i, stop, h, slot, b) := consumers[t];
      blocks := blocks - {b};
      home := home - {Number(cfg.BlockSize(), i - 1)};
      index.AtHeader(h);
      consumers := consumers[t := Onward(i, stop, h, slot, index.headers[h].capacity)];
    }

    method EndDequeue(t: nat)
      requires Valid() && Enabled(cfg, Abs(), Finish(t))
      modifies this, counters
      ensures Valid() && Abs() == Step(cfg, old(Abs()), Finish(t))
    {
      hide Pow2, Wrap, Objects.Contents, Objects.Views, Objects.BlockIndex.Valid;
      counters.Call(Claims.Release(t));
      consumers := consumers[t := NoClaim];
    }
  }

  ghost predicate BaseOfPlace(cfg: Config, pc: ProducerPc, current: int, inserted: nat, first: nat) {
    var n := cfg.BlockSize();
    match pc
    case Room(_, _, _) => current == Wrap(cfg.w, inserted * n - n)
    case Insert(_, _, _) => current == Wrap(cfg.w, inserted * n)
    case Grow(_, _, _) => current == Wrap(cfg.w, inserted * n)
    case Bump(_, _, _) => current == Wrap(cfg.w, inserted * n)
    case Grab(_, _, _) => current == Wrap(cfg.w, inserted * n - n)
    case Hook(_, _, _, _) => current == Wrap(cfg.w, inserted * n - n)
    case UndoEntry(_, done) => current == Wrap(cfg.w, (first + done) * n - n)
    case UndoRewind(_, done) => current == Wrap(cfg.w, (first + done) * n)
    case _ => true
  }
}
