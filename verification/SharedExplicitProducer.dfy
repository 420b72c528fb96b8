/** An explicit producer as the object the source has: the atomic counters, the headers of the block index with their
    arrays of entries, the circular list of blocks, and for each thread its place in the code. Every method is one atomic
    step, done in place and on words, and does to the object what ExplicitProducer says about values; ExplicitRuns drives it
    through whole runs. */
module SharedExplicitProducer {
  import opened Common
  import opened Words
  import opened BlockMath
  import opened ExplicitProducer
  import Claims = DequeueClaims
  import P = ImplicitProducer
  import Idx = ImplicitIndex
  import Objects = ImplicitIndexObjects
  import I = SharedImplicitProducer
  import Safety = ExplicitSafety

  // An entry as stored: the base of a block as a word, and the block; `number` is the number of that block.
  datatype Slot = Slot(base: int, block: nat, ghost number: nat)

  ghost function EntryOf(slot: Option<Slot>): Option<Entry> {
    if slot.Some? then Some(Entry(slot.value.number, slot.value.block)) else None
  }

  ghost function EntriesOf(slots: seq<Option<Slot>>): (s: seq<Option<Entry>>)
    ensures |s| == |slots| && forall p :: 0 <= p < |slots| ==> s[p] == EntryOf(slots[p])
  {
    seq(|slots|, p requires 0 <= p < |slots| => EntryOf(slots[p]))
  }

  ghost predicate BasesOk(w: nat, k: nat, slots: seq<Option<Slot>>) {
    forall p :: 0 <= p < |slots| && slots[p].Some? ==> slots[p].value.base == Wrap(w, slots[p].value.number * Pow2(k))
  }

  lemma SlotWritten(slots: seq<Option<Slot>>, p: nat, base: int, block: nat, number: nat)
    requires p < |slots|
    ensures EntriesOf(slots[p := Some(Slot(base, block, number))]) == EntriesOf(slots)[p := Some(Entry(number, block))]
  {}

  class BlockIndexHeader {
    const size: nat
    const entries: array<Option<Slot>>
    var front: int
    // log2 of the size, the shift of the header, and the blocks whose entries are in place.
    ghost const log: nat
    ghost const shift: int
    ghost var lo: nat
    ghost var hi: nat

    constructor (entries: array<Option<Slot>>, front: int, ghost log: nat, ghost shift: int, ghost lo: nat, ghost hi: nat)
      ensures this.size == entries.Length && this.entries == entries && this.front == front
      ensures this.log == log && this.shift == shift && this.lo == lo && this.hi == hi
    {
      this.size, this.entries, this.front := entries.Length, entries, front;
      this.log, this.shift, this.lo, this.hi := log, shift, lo, hi;
    }

    ghost function Abs(): Header
      reads this, entries
    {
      Header(log, front, EntriesOf(entries[..]), shift, lo, hi)
    }

    method Write(p: nat, base: int, block: nat, ghost number: nat, ghost lowest: nat, ghost w: nat, ghost k: nat)
      requires p < entries.Length && BasesOk(w, k, entries[..]) && base == Wrap(w, number * Pow2(k))
      modifies this, entries
      ensures BasesOk(w, k, entries[..])
      ensures var h := old(Abs());
        Abs() == h.(entries := h.entries[p := Some(Entry(number, block))], lo := lowest, hi := number + 1)
    {
      hide Wrap, Pow2;
      SlotWritten(entries[..], p, base, block, number);
      entries[p] := Some(Slot(base, block, number));
      lo, hi := lowest, number + 1;
    }
  }

  // Headers that are different objects, with different arrays of the sizes they say.
  ghost predicate Separate(headers: seq<BlockIndexHeader>) {
    && (forall i, j :: 0 <= i < j < |headers| ==> headers[i] != headers[j] && headers[i].entries != headers[j].entries)
    && (forall j :: 0 <= j < |headers| ==> headers[j].size == headers[j].entries.Length == Pow2(headers[j].log))
  }

  ghost predicate Holds(buffers: set<array<Option<Slot>>>, headers: seq<BlockIndexHeader>) {
    forall j :: 0 <= j < |headers| ==> headers[j].entries in buffers
  }

  ghost predicate AllBasesOk(w: nat, k: nat, headers: seq<BlockIndexHeader>, buffers: set<array<Option<Slot>>>)
    requires Holds(buffers, headers)
    reads buffers
  {
    forall j :: 0 <= j < |headers| ==> BasesOk(w, k, headers[j].entries[..])
  }

  ghost function Views(headers: seq<BlockIndexHeader>, buffers: set<array<Option<Slot>>>): (s: seq<Header>)
    requires Holds(buffers, headers)
    reads headers, buffers
    ensures |s| == |headers| && forall j :: 0 <= j < |headers| ==> s[j] == headers[j].Abs()
  {
    if |headers| == 0 then [] else Views(headers[..|headers| - 1], buffers) + [headers[|headers| - 1].Abs()]
  }

  ghost predicate BaseOfPlace(cfg: P.Config, pc: ProducerPc, current: int, total: nat) {
    var n := cfg.BlockSize();
    match pc
    case Reuse(_, _, _, _, _) => current == Wrap(cfg.w, total * n - n)
    case Room(_, _, _, _, _) => current == Wrap(cfg.w, total * n - n)
    case Grow(_, _, _, _, _) => current == Wrap(cfg.w, total * n)
    case Requisition(_, _, _, _, _) => current == Wrap(cfg.w, total * n)
    case _ => true
  }

  lemma NextOfRing(front: nat, used: nat, j: nat, size: nat)
    requires front < size && j < used <= size
    ensures ((front - used + j) % size + 1) % size == (front - used + (j + 1)) % size
    ensures (front - used + (j + 1)) % size == front <==> j + 1 == used
  {
    ModOfSum(front - used + j, 1, size);
    DivisionIsUnique(front, size, 0, front);
    if j + 1 < used {
      Idx.RotationIsInjective(front - used, size, j, used - 1);
    }
  }

  lemma CopiedIsDoubled(prev: BlockIndexHeader, copied: seq<Option<Slot>>, front: nat, used: nat, shown: nat, total: nat)
    requires prev.entries.Length == Pow2(prev.log) && used <= total
    requires front < prev.entries.Length && used <= prev.entries.Length
    requires |copied| == 2 * prev.entries.Length
    requires forall p :: 0 <= p < used ==> copied[p] == prev.entries[(front - used + p) % prev.entries.Length]
    requires forall p :: used <= p < |copied| ==> copied[p] == None
    ensures Doubled(prev.Abs(), front, used, shown, total)
            == Header(prev.log + 1, shown - 1, EntriesOf(copied), used - total, total - used, total)
    ensures |copied| == Pow2(prev.log + 1)
  {}

  lemma Requisitioned(cfg: P.Config, s: State, supply: Supply)
    requires CanProduce(cfg, s) && s.producer.Requisition?
    ensures ProducerStep(cfg, s, supply) == DoRequisition(cfg, s, GrantedBlock(cfg, s, supply))
    ensures DoRequisition(cfg, s, None) == s.(producer := Ready)
  {}

  lemma BaseAfter(cfg: P.Config, pc: ProducerPc, current: int, total: nat)
    requires current == Wrap(cfg.w, total * cfg.BlockSize()) && !pc.Grow? && !pc.Requisition?
    ensures BaseOfPlace(cfg, pc, current, total + 1)
  {
    I.NextBase(cfg.w, total, cfg.BlockSize());
  }

  lemma BaseAt(cfg: P.Config, pc: ProducerPc, current: int, total: nat)
    requires BaseOfPlace(cfg, pc, current, total) && pc.Requisition?
    ensures current == Wrap(cfg.w, total * cfg.BlockSize())
  {}

  class Producer {
    const cfg: P.Config
    const counters: Claims.SharedCounters
    // The headers linked through prev, oldest first; the last one is blockIndex.
    var headers: seq<BlockIndexHeader>
    var blockIndexSlotsUsed: nat
    var blockIndexFront: nat
    var flags: map<nat, seq<bool>>
    var next: map<nat, nat>
    var tailBlock: Option<nat>
    var startBlock: Option<nat>
    var producer: ProducerPc
    var consumers: seq<ConsumerPc>
    // The local variable of the call in progress, as a word.
    var currentTailIndex: int
    ghost var buffers: set<array<Option<Slot>>>
    ghost var who: seq<nat>
    ghost var reported: set<nat>

    ghost function Abs(): State
      requires Holds(buffers, headers)
      reads this, counters, headers, buffers
    {
      State(counters.Abs(), Views(headers, buffers), blockIndexSlotsUsed, blockIndexFront, flags, next, tailBlock, startBlock,
            producer, consumers, who, reported)
    }

    ghost predicate Linked()
      reads this, counters, headers, buffers
    {
      && 1 <= cfg.w && cfg.k <= cfg.w && counters.w == cfg.w
      && 0 < |headers| && Holds(buffers, headers) && Separate(headers) && AllBasesOk(cfg.w, cfg.k, headers, buffers)
    }

    ghost predicate Valid()
      reads this, counters, headers, buffers
    {
      Linked() && BaseOfPlace(cfg, producer, currentTailIndex, |who|)
    }

    lemma AtHeader(j: nat)
      requires Linked() && j < |headers|
      ensures Abs().headers[j] == headers[j].Abs() && headers[j].entries in buffers
      ensures headers[j].size == headers[j].entries.Length == Pow2(headers[j].log)
      ensures Current(Abs()) == headers[|headers| - 1].Abs()
      ensures BasesOk(cfg.w, cfg.k, headers[j].entries[..])
    {}

    /** A new producer. */
    constructor (cfg: P.Config, threads: nat)
      requires cfg.Ok()
      ensures Valid() && Abs() == Safety.Created(cfg, threads) && this.cfg == cfg
      ensures fresh(counters) && fresh(headers) && fresh(buffers)
    {
      hide Pow2, Claims.Initial, Claims.Created;
      var counters := new Claims.SharedCounters(cfg.w, threads);
      var entries := new Option<Slot>[Pow2(cfg.m)](_ => None);
      var header := new BlockIndexHeader(entries, -1, cfg.m, 0, 0, 0);
      this.cfg, this.counters, headers := cfg, counters, [header];
      blockIndexSlotsUsed, blockIndexFront, flags, next := 0, 0, map[], map[];
      tailBlock, startBlock, producer, consumers := None, None, Ready, seq(threads, _ => NoClaim);
      currentTailIndex, buffers, who, reported := 0, {entries}, [], {};
      new;
      assert EntriesOf(entries[..]) == seq(Pow2(cfg.m), _ => None);
      Claims.InitialIsCreated(counters.Abs());
    }

    /** The start of a call: how many blocks it needs. At rest every block number handed out is that of a block in use or
        used before. */
    method BeginEnqueue(count: nat)
      requires Valid() && Enabled(cfg, Abs(), StartEnqueue(count)) && |who| == Blocks(cfg.BlockSize(), counters.tailIndex)
      modifies this
      ensures Valid() && Abs() == Step(cfg, old(Abs()), StartEnqueue(count))
      ensures headers == old(headers) && buffers == old(buffers)
    {
      hide Pow2, Wrap, Views, Separate, AllBasesOk, P.BlockBaseDiff, Blocks;
      var blockBaseDiff := P.BlockBaseDiff(cfg, counters.tailIndex, count);
      currentTailIndex := I.Aligned(cfg.w, cfg.k, counters.tailIndex - 1);
      I.BaseBeforeTail(cfg.w, cfg.k, counters.tailIndex);
      startBlock := tailBlock;
      producer := if 0 < blockBaseDiff then Reuse(count, blockBaseDiff, None, 0, blockIndexSlotsUsed)
                  else BeginFill(count, 0, tailBlock, None);
    }

    // The entry of the next block is written and the private front moves on.
    method WriteEntry(block: nat, ghost lowest: nat)
      requires Linked() && Shaped(Abs()) && currentTailIndex == Wrap(cfg.w, |who| * cfg.BlockSize())
      modifies this`blockIndexFront, this`who, headers[|headers| - 1], headers[|headers| - 1].entries
      ensures Linked() && Abs() == old(AddEntry(Abs(), block, lowest)) && |who| == |old(who)| + 1
    {
      hide Pow2, Views, Wrap, BasesOk, EntriesOf;
      AtHeader(|headers| - 1);
      ghost var x := Abs();
      var header := headers[|headers| - 1];
      header.Write(blockIndexFront, currentTailIndex, block, |who|, lowest, cfg.w, cfg.k);
      forall j | 0 <= j < |headers| - 1
        ensures headers[j].Abs() == x.headers[j] && BasesOk(cfg.w, cfg.k, headers[j].entries[..])
      {
        assert headers[j] != header && headers[j].entries != header.entries;
        assert headers[j].entries[..] == old(headers[j].entries[..]);
      }
      blockIndexFront := (blockIndexFront + 1) % header.size;
      who := who + [block];
      assert Views(headers, buffers) == AddEntry(x, block, lowest).headers;
    }

    // The base of the block after the one at currentTailIndex.
    method NextBase()
      requires BaseOfPlace(cfg, producer, currentTailIndex, |who|) && (producer.Reuse? || producer.Room?)
      modifies this`currentTailIndex
      ensures currentTailIndex == Wrap(cfg.w, |who| * cfg.BlockSize())
    {
      hide Wrap, Pow2;
      I.NextBase(cfg.w, |who|, cfg.BlockSize());
      currentTailIndex := Wrap(cfg.w, currentTailIndex + cfg.BlockSize());
    }

    /** The block ahead is reused if it is there, is not one of this call's, and is empty. */
    method ReuseAhead()
      requires Valid() && CanProduce(cfg, Abs()) && producer.Reuse?
      modifies this, headers[|headers| - 1], headers[|headers| - 1].entries
      ensures Valid() && Abs() == ProducerStep(cfg, old(Abs()), Nothing)
      ensures headers == old(headers) && buffers == old(buffers)
    {
      hide Wrap, Pow2, Separate, AllBasesOk, Holds, Views, IsEmpty, AddEntry;
      var Reuse(count, left, first, staged, shown) := producer;
      if tailBlock.Some? && tailBlock.value in next {
        var block := next[tailBlock.value];
        if first != Some(block) && block in flags && IsEmpty(flags[block]) {
          TakeAhead(block);
          return;
        }
      }
      producer := Room(count, left, first, staged, shown);
    }

    method TakeAhead(block: nat)
      requires Valid() && CanProduce(cfg, Abs()) && producer.Reuse? && CanReuse(Abs()) && block == next[tailBlock.value]
      modifies this, headers[|headers| - 1], headers[|headers| - 1].entries
      ensures Valid() && Abs() == DoReuse(cfg, old(Abs()))
      ensures headers == old(headers) && buffers == old(buffers)
    {
      hide Wrap, Pow2, Separate, AllBasesOk, Holds, Views, CanReuse, AddEntry, BaseOfPlace, Obtained;
      ghost var x := Abs();
      NextBase();
      WriteEntry(block, |who| + 1 - blockIndexSlotsUsed);
      TakeUp(block);
    }

    // The block whose entry was just written becomes the tail block.
    method TakeUp(block: nat)
      requires Linked() && (producer.Reuse? || producer.Requisition?)
      requires 0 < |who| && currentTailIndex == Wrap(cfg.w, (|who| - 1) * cfg.BlockSize())
      modifies this`tailBlock, this`producer
      ensures Valid() && Abs() == old(Abs()).(tailBlock := Some(block), producer := old(TakenUp(block)))
    {
      hide Wrap, Pow2, Separate, AllBasesOk, Holds, Views, BaseOfPlace, Obtained;
      tailBlock := Some(block);
      producer := TakenUp(block);
      BaseAfter(cfg, producer, currentTailIndex, |who| - 1);
    }

    /** Otherwise a new block is needed: the test for room, and whether the index is full. */
    method TestRoom()
      requires Valid() && CanProduce(cfg, Abs()) && producer.Room?
      modifies this
      ensures Valid() && Abs() == ProducerStep(cfg, old(Abs()), Nothing)
      ensures headers == old(headers) && buffers == old(buffers)
    {
      hide DoReuse, DoGrow, DoRequisition, DoReset, DoShow, DoPublish, DoFill;
      hide Wrap, Pow2, Separate, AllBasesOk, Views, P.IsFull;
      AtHeader(|headers| - 1);
      var Room(count, left, first, staged, shown) := producer;
      var n := cfg.BlockSize();
      var head := Wrap(cfg.w, counters.headIndex);
      I.RoomTestOnWords(cfg, counters.headIndex, |who| * n, currentTailIndex);
      NextBase();
      var full := !CircularLessThan(cfg.w, head, Wrap(cfg.w, currentTailIndex + n))
        || (cfg.limit.Some? && (cfg.limit.value == 0 || cfg.limit.value - n < Wrap(cfg.w, currentTailIndex - head)));
      if full {
        producer := Ready;
      } else if blockIndexSlotsUsed == headers[|headers| - 1].size {
        producer := Grow(count, left, first, staged, shown);
      } else {
        producer := Requisition(count, left, first, staged, shown);
      }
    }

    /** new_block_index: the entries in use, oldest first, in an array twice as large; the consumers are shown those that
        were in use when the call began. */
    method GrowIndex(granted: bool, ghost supply: Supply)
      requires Valid() && CanProduce(cfg, Abs()) && producer.Grow? && granted == GrantedMemory(cfg, Abs(), supply)
      requires blockIndexSlotsUsed <= headers[|headers| - 1].size
      modifies this
      ensures Valid() && Abs() == ProducerStep(cfg, old(Abs()), supply)
      ensures old(headers) <= headers && fresh(headers[|old(headers)|..])
      ensures old(buffers) <= buffers && fresh(buffers - old(buffers))
    {
      hide Wrap, Pow2, Views, Doubled, Separate, AllBasesOk, Holds, BasesOk;
      var Grow(count, left, first, staged, shown) := producer;
      if granted {
        Enlarge(shown);
        producer := Requisition(count, left, first, staged, shown);
      } else {
        producer := Ready;
      }
    }

    // The new header becomes the current one.
    method Enlarge(shown: nat)
      requires Linked() && Shaped(Abs()) && blockIndexSlotsUsed <= headers[|headers| - 1].size && blockIndexSlotsUsed <= |who|
      modifies this`headers, this`buffers, this`blockIndexFront
      ensures Linked()
      ensures old(headers) <= headers && fresh(headers[|old(headers)|..])
      ensures old(buffers) <= buffers && fresh(buffers - old(buffers))
      ensures var x := old(Abs());
        Abs() == x.(headers := x.headers + [Doubled(Current(x), x.prFront, x.used, shown, |x.who|)], prFront := x.used)
    {
      hide Wrap, Pow2, Views, Doubled, BasesOk, EntriesOf, Separate, AllBasesOk;
      AtHeader(|headers| - 1);
      var header := BuildHeader(headers[|headers| - 1], blockIndexFront, blockIndexSlotsUsed, shown, |who|, cfg.w, cfg.k);
      AddHeader(header);
      blockIndexFront := blockIndexSlotsUsed;
    }

    static method BuildHeader(prev: BlockIndexHeader, front: nat, used: nat, shown: nat, ghost total: nat, ghost w: nat,
                              ghost k: nat)
      returns (header: BlockIndexHeader)
      requires prev.size == prev.entries.Length == Pow2(prev.log) && BasesOk(w, k, prev.entries[..])
      requires front < prev.size && used <= prev.size && used <= total
      ensures fresh(header) && fresh(header.entries) && BasesOk(w, k, header.entries[..])
      ensures header.size == header.entries.Length == Pow2(header.log)
      ensures header.Abs() == Doubled(prev.Abs(), front, used, shown, total)
    {
      hide Wrap, Pow2, Doubled, BasesOk;
      var entries := CopyEntries(prev.entries, front, used, w, k);
      CopiedIsDoubled(prev, entries[..], front, used, shown, total);
      header := new BlockIndexHeader(entries, shown - 1, prev.log + 1, used - total, total - used, total);
    }

    method AddHeader(header: BlockIndexHeader)
      requires Linked() && header.size == header.entries.Length == Pow2(header.log)
      requires BasesOk(cfg.w, cfg.k, header.entries[..])
      requires forall j :: 0 <= j < |headers| ==> headers[j] != header && headers[j].entries != header.entries
      modifies this`headers, this`buffers
      ensures Linked() && headers == old(headers) + [header]
      ensures buffers == old(buffers) + {header.entries}
      ensures Abs() == old(Abs()).(headers := old(Abs()).headers + [header.Abs()])
    {
      hide BasesOk, EntriesOf, Pow2;
      headers := headers + [header];
      buffers := buffers + {header.entries};
    }

    // The loop of new_block_index.
    static method CopyEntries(prev: array<Option<Slot>>, front: nat, used: nat, ghost w: nat, ghost k: nat)
      returns (entries: array<Option<Slot>>)
      requires front < prev.Length && used <= prev.Length && BasesOk(w, k, prev[..])
      ensures fresh(entries) && entries.Length == 2 * prev.Length && BasesOk(w, k, entries[..])
      ensures forall p :: 0 <= p < used ==> entries[p] == prev[(front - used + p) % prev.Length]
      ensures forall p :: used <= p < entries.Length ==> entries[p] == None
    {
      var size := prev.Length;
      entries := new Option<Slot>[2 * size](_ => None);
      var j := 0;
      if used != 0 {
        var i: nat := (front - used) % size;
        var more := true;
        while more
          invariant 0 <= j <= used && more == (j < used) && i == (front - used + j) % size
          invariant forall p :: 0 <= p < j ==> entries[p] == prev[(front - used + p) % size]
          invariant forall p :: j <= p < entries.Length ==> entries[p] == None
          decreases used - j
        {
          NextOfRing(front, used, j, size);
          entries[j] := prev[i];
          j := j + 1;
          i := (i + 1) % size;
          more := i != front;
        }
      }
    }

    /** requisition_block, and the new block goes into the circle after the tail block. */
    method RequisitionBlock(granted: Option<nat>, ghost supply: Supply)
      requires Valid() && CanProduce(cfg, Abs()) && producer.Requisition? && granted == GrantedBlock(cfg, Abs(), supply)
      modifies this, headers[|headers| - 1], headers[|headers| - 1].entries
      ensures Valid() && Abs() == ProducerStep(cfg, old(Abs()), supply)
      ensures headers == old(headers) && buffers == old(buffers)
    {
      hide Wrap, Pow2, Separate, AllBasesOk, Holds, Views, DoRequisition;
      ghost var x := Abs();
      Requisitioned(cfg, x, supply);
      if granted.Some? {
        TakeNew(granted.value);
      } else {
        producer := Ready;
      }
    }

    method TakeNew(block: nat)
      requires Valid() && CanProduce(cfg, Abs()) && producer.Requisition?
      modifies this, headers[|headers| - 1], headers[|headers| - 1].entries
      ensures Valid() && Abs() == DoRequisition(cfg, old(Abs()), Some(block))
      ensures headers == old(headers) && buffers == old(buffers)
    {
      hide Wrap, Pow2, Separate, AllBasesOk, Holds, Views, ExplicitProducer.Linked, AddEntry, BaseOfPlace, Obtained;
      ghost var x := Abs();
      BaseAt(cfg, producer, currentTailIndex, |who|);
      WriteEntry(block, |who| - blockIndexSlotsUsed);
      Insert(block);
    }

    // What follows when a block has been obtained; the first one of a call is remembered.
    function TakenUp(block: nat): (pc: ProducerPc)
      requires producer.Reuse? || producer.Requisition?
      reads this`producer
      ensures !pc.Grow? && !pc.Requisition?
    {
      Obtained(producer, if producer.first.None? then Some(block) else producer.first, producer.staged + 1,
               producer.left - cfg.BlockSize())
    }

    // A new block goes into the circle after the tail block, all of it marked as dequeued, once its entry is written.
    method Insert(block: nat)
      requires Linked() && producer.Requisition? && (tailBlock.Some? ==> tailBlock.value in next)
      requires 0 < |who| && currentTailIndex == Wrap(cfg.w, (|who| - 1) * cfg.BlockSize())
      modifies this`flags, this`next, this`tailBlock, this`blockIndexSlotsUsed, this`producer
      ensures Valid()
      ensures Abs() == old(Abs()).(
        used := old(blockIndexSlotsUsed) + 1, flags := old(flags)[block := All(cfg.BlockSize(), true)],
        next := ExplicitProducer.Linked(old(next), old(tailBlock), block), tailBlock := Some(block),
        producer := old(TakenUp(block)))
    {
      hide Wrap, Pow2, Separate, AllBasesOk, Holds, Views, BaseOfPlace, Obtained;
      flags := flags[block := All(cfg.BlockSize(), true)];
      next := if tailBlock == None then next[block := block]
              else next[block := next[tailBlock.value]][tailBlock.value := block];
      blockIndexSlotsUsed := blockIndexSlotsUsed + 1;
      TakeUp(block);
    }

    /** The emptiness of each block obtained is reset, from the first to the tail block. */
    method ResetEmptiness()
      requires Valid() && CanProduce(cfg, Abs()) && producer.Reset?
      modifies this
      ensures Valid() && Abs() == ProducerStep(cfg, old(Abs()), Nothing)
      ensures headers == old(headers) && buffers == old(buffers)
    {
      hide Wrap, Pow2, Separate, AllBasesOk, Views;
      var Reset(count, first, staged, block, done) := producer;
      flags := flags[block := All(cfg.BlockSize(), false)];
      producer := if tailBlock == Some(block) then Show(count, first, staged)
                  else Reset(count, first, staged, next[block], done + 1);
    }

    /** The new entries are shown to the consumers at once. */
    method ShowEntries()
      requires Valid() && CanProduce(cfg, Abs()) && producer.Show?
      modifies this, headers[|headers| - 1]
      ensures Valid() && Abs() == ProducerStep(cfg, old(Abs()), Nothing)
      ensures headers == old(headers) && buffers == old(buffers)
    {
      hide Wrap, Pow2, AllBasesOk, Views;
      AtHeader(|headers| - 1);
      ghost var x := Abs();
      var Show(count, first, staged) := producer;
      headers[|headers| - 1].front := (blockIndexFront - 1) % headers[|headers| - 1].size;
      var onBoundary := Offset(cfg.BlockSize(), counters.tailIndex) == 0;
      producer := BeginFill(count, staged, startBlock, if onBoundary then first else None);
      assert Views(headers, buffers) == DoShow(cfg, x).headers;
    }

    /** An element is constructed; the next block of the circle is taken up when a block is full. */
    method Construct()
      requires Valid() && CanProduce(cfg, Abs()) && producer.Fill?
      modifies this
      ensures Valid() && Abs() == ProducerStep(cfg, old(Abs()), Nothing)
      ensures headers == old(headers) && buffers == old(buffers)
    {
      hide DoReuse, DoRoom, DoGrow, DoRequisition, DoReset, DoShow, DoPublish;
      hide Wrap, Pow2, Separate, AllBasesOk, Views, Offset;
      var Fill(count, staged, done, current) := producer;
      producer :=
        if done + 1 == count then Publish(count, staged)
        else if Offset(cfg.BlockSize(), counters.tailIndex + done + 1) == 0 then Fill(count, staged, done + 1, next[current])
        else Fill(count, staged, done + 1, current);
    }

    /** The store of tailIndex that makes the elements available. */
    method PublishTail()
      requires Valid() && CanProduce(cfg, Abs()) && producer.Publish?
      modifies this, counters
      ensures Valid() && Abs() == ProducerStep(cfg, old(Abs()), Nothing)
      ensures headers == old(headers) && buffers == old(buffers)
    {
      hide Wrap, Pow2, Separate, AllBasesOk, Views;
      counters.PublishTail(producer.count);
      producer := Ready;
    }

    // ---- dequeue and dequeue_bulk ----

    method BeginDequeue(t: nat, max: nat)
      requires Valid() && Enabled(cfg, Abs(), StartDequeue(t, max))
      modifies counters
      ensures Valid() && Abs() == Step(cfg, old(Abs()), StartDequeue(t, max))
    {
      hide Wrap, Pow2, Separate, AllBasesOk, Views;
      counters.Call(Claims.Start(t, max));
    }

    /** A step of the claim protocol; with a claim the consumer turns to the block index. */
    method AdvanceClaim(t: nat)
      requires Valid() && Enabled(cfg, Abs(), Claim(t))
      modifies this, counters
      ensures Valid() && Abs() == Step(cfg, old(Abs()), Claim(t))
      ensures headers == old(headers) && buffers == old(buffers)
    {
      hide Wrap, Pow2, Separate, AllBasesOk, Views;
      counters.Dequeue(t);
      if counters.pcs[t].Claimed? {
        var claim := counters.pcs[t];
        consumers := consumers[t := LoadIndex(claim.first, claim.first + claim.count)];
      }
    }

    /** The block index as the consumer loads it, and the front of that header. */
    method LoadHeader(t: nat)
      requires Valid() && Enabled(cfg, Abs(), Consume(t)) && (consumers[t].LoadIndex? || consumers[t].LoadFront?)
      modifies this
      ensures Valid() && Abs() == Step(cfg, old(Abs()), Consume(t))
      ensures headers == old(headers) && buffers == old(buffers)
    {
      hide Wrap, Pow2, Separate, AllBasesOk, Views;
      match consumers[t] {
        case LoadIndex(i, stop) =>
          consumers := consumers[t := LoadFront(i, stop, |headers| - 1)];
        case LoadFront(i, stop, h) =>
          consumers := consumers[t := LoadBase(i, stop, h, headers[h].front)];
      }
    }

    /** From the base of the entry at the front the position of the block: on words, by division and masking. */
    method FindSlot(t: nat)
      requires Valid() && Enabled(cfg, Abs(), Consume(t)) && consumers[t].LoadBase?
      modifies this
      ensures Valid() && Abs() == Step(cfg, old(Abs()), Consume(t))
      ensures headers == old(headers) && buffers == old(buffers)
    {
      hide Wrap, Pow2, Separate, AllBasesOk, Views;
      var LoadBase(i, stop, h, front) := consumers[t];
      AtHeader(h);
      var word := Wrap(cfg.w, i);
      var blockBase := word - word % cfg.BlockSize();
      var offset := Wrap(cfg.w, blockBase - headers[h].entries[front].value.base) / cfg.BlockSize();
      consumers := consumers[t := LoadBlock(i, stop, h, Wrap(cfg.w, front + offset) % headers[h].size)];
    }

    /** The block there. */
    method FindBlock(t: nat)
      requires Valid() && Enabled(cfg, Abs(), Consume(t)) && consumers[t].LoadBlock?
      modifies this
      ensures Valid() && Abs() == Step(cfg, old(Abs()), Consume(t))
      ensures headers == old(headers) && buffers == old(buffers)
    {
      hide Wrap, Pow2, Separate, AllBasesOk, Views, P.EndInBlock;
      var LoadBlock(i, stop, h, slot) := consumers[t];
      AtHeader(h);
      var block := headers[h].entries[slot].value.block;
      consumers := consumers[t := Report(i, P.EndInBlock(cfg, i, stop), stop, h, slot, block)];
    }

    /** set_empty: one element is reported as completely dequeued. */
    method ReportDequeued(t: nat)
      requires Valid() && Enabled(cfg, Abs(), Consume(t)) && consumers[t].Report?
      modifies this
      ensures Valid() && Abs() == Step(cfg, old(Abs()), Consume(t))
      ensures headers == old(headers) && buffers == old(buffers)
    {
      hide ProducerStep, CanProduce;
      hide Wrap, Pow2, Separate, AllBasesOk, Views, Offset;
      var Report(i, end, stop, h, slot, block) := consumers[t];
      AtHeader(h);
      var o := Offset(cfg.BlockSize(), i);
      flags := flags[block := flags[block][o := true]];
      reported := reported + {i};
      consumers := consumers[t := if i + 1 != end then Report(i + 1, end, stop, h, slot, block)
                                  else if end == stop then Finished
                                  else LoadBlock(end, stop, h, (slot + 1) % headers[h].size)];
    }

    method EndDequeue(t: nat)
      requires Valid() && Enabled(cfg, Abs(), Finish(t))
      modifies this, counters
      ensures Valid() && Abs() == Step(cfg, old(Abs()), Finish(t))
      ensures headers == old(headers) && buffers == old(buffers)
    {
      hide Wrap, Pow2, Separate, AllBasesOk, Views;
      counters.Call(Claims.Release(t));
      consumers := consumers[t := NoClaim];
    }
  }
}
