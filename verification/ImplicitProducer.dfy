/** An implicit producer and its consumers: bulk enqueue with rollback, dequeue through the block index, and the
    return of emptied blocks, as interleaved atomic steps over the claim protocol of DequeueClaims. */
module ImplicitProducer {
  import opened Common
  import opened Words
  import opened BlockMath
  import Claims = DequeueClaims
  import Idx = ImplicitIndex

  // w: bits of an index; 2^k: BLOCK_SIZE; 2^m: IMPLICIT_INITIAL_INDEX_SIZE; limit: MAX_SUBQUEUE_SIZE, None
  // when it is the largest size_t.
  datatype Config = Config(w: nat, k: nat, m: nat, limit: Option<nat>) {
    function BlockSize(): (n: nat)
      ensures 0 < n
    {
      Pow2(k)
    }

    ghost predicate Ok() {
      && 1 <= w && 1 <= k && 1 <= m && k < w && k + m <= w
      && (limit.Some? ==> limit.value % Pow2(k) == 0)
    }
  }

  type Element = int

  // elementsCompletelyDequeued and the element slots; a slot is None while no element is constructed in it.
  // `number` is auxiliary: which block of the queue this one was obtained for.
  datatype Block = Block(completed: int, cells: seq<Option<Element>>, number: nat)

  // Where the producer stands. xs: the elements being enqueued (a plain enqueue is a bulk of one); left: what
  // remains of blockBaseDiff; chain: the blocks hooked into the index by this call, linked through `next`.
  datatype ProducerPc =
    | Ready
    | Room(xs: seq<Element>, left: int, chain: seq<nat>)
    | Insert(xs: seq<Element>, left: int, chain: seq<nat>)
    | Grow(xs: seq<Element>, left: int, chain: seq<nat>)
    | Bump(xs: seq<Element>, left: int, chain: seq<nat>)
    | Grab(xs: seq<Element>, left: int, chain: seq<nat>)
    | Hook(xs: seq<Element>, left: int, chain: seq<nat>, block: nat)
    | UndoTail(chain: seq<nat>)
    | UndoValue(chain: seq<nat>)
    | UndoEntry(chain: seq<nat>, done: nat)
    | UndoRewind(chain: seq<nat>, done: nat)
    | UndoFree(chain: seq<nat>, done: nat)
    | Fill(xs: seq<Element>, chain: seq<nat>, done: nat, current: Option<nat>, rest: seq<nat>)
    | Publish(xs: seq<Element>, chain: seq<nat>, current: Option<nat>)

  // Where a consumer with a claim stands. i: next index to take; stop: end of its claim; from: first index of
  // the claim in the current block; header and slot: how it found the block.
  datatype ConsumerPc =
    | NoClaim
    | LoadIndex(i: nat, stop: nat)
    | LoadTail(i: nat, stop: nat, header: nat)
    | LoadKey(i: nat, stop: nat, header: nat, tail: nat)
    | LoadValue(i: nat, stop: nat, header: nat, slot: nat)
    | Take(i: nat, from: nat, stop: nat, header: nat, slot: nat, block: nat)
    | Complete(i: nat, from: nat, stop: nat, header: nat, slot: nat, block: nat)
    | ClearEntry(i: nat, stop: nat, header: nat, slot: nat, block: nat)
    | FreeBlock(i: nat, stop: nat, header: nat, slot: nat, block: nat)
    | Finished

  // `blocks` are the blocks this producer holds: requisitioned and not yet returned. Auxiliary: `items`, all
  // elements ever published; `home`, the held block of each block number; `got`, what each index delivered.
  datatype State = State(
    c: Claims.State,
    index: Idx.Index,
    blocks: map<nat, Block>,
    tailBlock: Option<nat>,
    producer: ProducerPc,
    consumers: seq<ConsumerPc>,
    items: seq<Element>,
    home: map<nat, nat>,
    got: map<nat, Element>)

  // What the allocator answers: nothing, memory for a larger index, or a block whose counter and whose
  // slots are as its last user left them.
  datatype Supply = Nothing | Memory(junk: seq<Option<nat>>) | Granted(block: nat, completed: int)

  datatype Action =
    | StartEnqueue(xs: seq<Element>)
    | Produce(supply: Supply)
    | StartDequeue(thread: nat, max: nat)
    | Claim(thread: nat)
    | Consume(thread: nat)
    | Finish(thread: nat)

  // The number of the first block that has not been published.
  function FirstNew(cfg: Config, s: State): nat { Blocks(cfg.BlockSize(), s.c.tail) }

  // blockBaseDiff: how far the new elements reach beyond the last allocated block, on words.
  function BlockBaseDiff(cfg: Config, tail: int, count: int): int {
    var n := Pow2(cfg.k);
    var last := Wrap(cfg.w, tail + count - 1);
    var before := Wrap(cfg.w, tail - 1);
    Wrap(cfg.w, (last - last % n) - (before - before % n))
  }

  // The test made before each new block, on words.
  predicate IsFull(cfg: Config, head: int, base: int)
    requires 1 <= cfg.w
  {
    var n := cfg.BlockSize();
    || !CircularLessThan(cfg.w, Wrap(cfg.w, head), Wrap(cfg.w, base + n))
    || (cfg.limit.Some? && (cfg.limit.value == 0 || cfg.limit.value - n < Wrap(cfg.w, base - head)))
  }

  // The end of the part of a claim that lies in one block, on words.
  function EndInBlock(cfg: Config, from: nat, stop: nat): nat
    requires 1 <= cfg.w
  {
    var end := from - from % cfg.BlockSize() + cfg.BlockSize();
    if CircularLessThan(cfg.w, Wrap(cfg.w, stop), Wrap(cfg.w, end)) then stop else end
  }

  // ---- The producer, one function for each atomic step ----

  // What follows once the blocks are in place: elements are constructed one by one; a call for no elements
  // goes straight to the store of the tail.
  function BeginFill(cfg: Config, s: State, xs: seq<Element>, chain: seq<nat>): ProducerPc {
    var boundary := Offset(cfg.BlockSize(), s.c.tail) == 0 && |chain| > 0;
    var current := if boundary then Some(chain[0]) else s.tailBlock;
    var rest := if boundary then chain[1..] else chain;
    if |xs| == 0 then Publish(xs, chain, current) else Fill(xs, chain, 0, current, rest)
  }

  // The rollback loop: one entry cleared and one rewind for each hooked block, then the blocks go back.
  function Undo(chain: seq<nat>, done: nat): ProducerPc {
    if done < |chain| then UndoEntry(chain, done) else if 0 < |chain| then UndoFree(chain, 0) else Ready
  }

  function DoRoom(cfg: Config, s: State, full: bool): State
    requires s.producer.Room?
  {
    var Room(xs, left, chain) := s.producer;
    s.(producer := if full then Undo(chain, 0) else Insert(xs, left - cfg.BlockSize(), chain))
  }

  function DoInsert(s: State): State
    requires s.producer.Insert? && Idx.WellFormed(s.index)
  {
    var Insert(xs, left, chain) := s.producer;
    if Idx.Usable(s.index) then s.(index := Idx.StoreKey(s.index), producer := Bump(xs, left, chain))
    else s.(producer := Grow(xs, left, chain))
  }

  function DoGrow(s: State, memory: Option<seq<Option<nat>>>): State
    requires s.producer.Grow? && Idx.WellFormed(s.index)
    requires memory.Some? ==> |memory.value| == |Idx.Current(s.index).ring|
  {
    var Grow(xs, left, chain) := s.producer;
    match memory
    case Some(junk) => s.(index := Idx.Grow(s.index, junk), producer := Insert(xs, left, chain))
    case None => s.(producer := Undo(chain, 0))
  }

  function DoBump(s: State): State
    requires s.producer.Bump? && Idx.WellFormed(s.index)
  {
    var Bump(xs, left, chain) := s.producer;
    s.(index := Idx.StoreTail(s.index), producer := Grab(xs, left, chain))
  }

  function Raw(n: nat): seq<Option<Element>> { seq(n, _ => None) }

  function DoGrab(cfg: Config, s: State, block: Option<nat>, completed: int): State
    requires s.producer.Grab?
  {
    var Grab(xs, left, chain) := s.producer;
    match block
    case Some(b) =>
      s.(blocks := s.blocks[b := Block(completed, Raw(cfg.BlockSize()), FirstNew(cfg, s) + |chain|)],
         home := s.home[FirstNew(cfg, s) + |chain| := b],
         producer := Hook(xs, left, chain, b))
    case None => s.(producer := UndoTail(chain))
  }

  // The entry at the index tail.
  function TailEntry(s: State): nat
    requires Idx.WellFormed(s.index)
  {
    Idx.Current(s.index).ring[Idx.Current(s.index).tail]
  }

  // reset_empty, then the store of the entry's value.
  function DoHook(cfg: Config, s: State): State
    requires s.producer.Hook? && Idx.WellFormed(s.index) && s.producer.block in s.blocks
  {
    var Hook(xs, left, chain, b) := s.producer;
    s.(blocks := s.blocks[b := s.blocks[b].(completed := 0)],
       index := Idx.StoreValue(s.index, TailEntry(s), Some(b)),
       producer := if 0 < left then Room(xs, left, chain + [b]) else BeginFill(cfg, s, xs, chain + [b]))
  }

  function DoUndoTail(s: State): State
    requires s.producer.UndoTail? && Idx.WellFormed(s.index) && 0 < s.index.inserted
  {
    s.(index := Idx.Rewind(s.index), producer := UndoValue(s.producer.chain))
  }

  function DoUndoValue(s: State): State
    requires s.producer.UndoValue? && Idx.WellFormed(s.index)
  {
    s.(index := Idx.StoreValue(s.index, Idx.NextEntry(s.index), None), producer := Undo(s.producer.chain, 0))
  }

  function DoUndoEntry(s: State, position: nat): State
    requires s.producer.UndoEntry? && Idx.WellFormed(s.index) && position < |Idx.Current(s.index).ring|
  {
    s.(index := Idx.StoreValue(s.index, Idx.Current(s.index).ring[position], None),
       producer := UndoRewind(s.producer.chain, s.producer.done))
  }

  function DoUndoRewind(s: State): State
    requires s.producer.UndoRewind? && Idx.WellFormed(s.index) && 0 < s.index.inserted
  {
    s.(index := Idx.Rewind(s.index), producer := Undo(s.producer.chain, s.producer.done + 1))
  }

  function DoUndoFree(cfg: Config, s: State): State
    requires s.producer.UndoFree? && s.producer.done < |s.producer.chain|
  {
    var UndoFree(chain, done) := s.producer;
    s.(blocks := s.blocks - {chain[done]}, home := s.home - {FirstNew(cfg, s) + done},
       producer := if done + 1 < |chain| then UndoFree(chain, done + 1) else Ready)
  }

  // The block after `current` is taken up when its last slot is filled.
  function DoFill(cfg: Config, s: State): State
    requires s.producer.Fill? && s.producer.done < |s.producer.xs|
    requires s.producer.current.Some? && s.producer.current.value in s.blocks
    requires |s.blocks[s.producer.current.value].cells| == cfg.BlockSize()
    requires Offset(cfg.BlockSize(), s.c.tail + s.producer.done) < cfg.BlockSize()
  {
    var Fill(xs, chain, done, current, rest) := s.producer;
    var n := cfg.BlockSize();
    var b := s.blocks[current.value];
    var blocks' := s.blocks[current.value := b.(cells := b.cells[Offset(n, s.c.tail + done) := Some(xs[done])])];
    s.(blocks := blocks',
       producer :=
         if done + 1 == |xs| then Publish(xs, chain, current)
         else if Offset(n, s.c.tail + done + 1) == 0 && |rest| > 0 then Fill(xs, chain, done + 1, Some(rest[0]), rest[1..])
         else Fill(xs, chain, done + 1, current, rest))
  }

  function DoPublish(cfg: Config, s: State): State
    requires s.producer.Publish?
  {
    var Publish(xs, _, current) := s.producer;
    s.(c := s.c.(tail := s.c.tail + |xs|), items := s.items + xs, tailBlock := current, producer := Ready)
  }

  // Where get_block_index_entry_for_index finds a block the producer itself inserted.
  function FoundPosition(cfg: Config, s: State, block: nat): int
    requires Idx.WellFormed(s.index) && s.index.entries[TailEntry(s)].key.Some?
  {
    var h := Idx.Current(s.index);
    Idx.LookupPosition(cfg.w, cfg.k, h, h.tail, s.index.entries[TailEntry(s)].key.value, block * cfg.BlockSize())
  }

  // No step of the producer follows a null or stale pointer.
  predicate CanProduce(cfg: Config, s: State) {
    && Idx.WellFormed(s.index) && 1 <= cfg.w
    && match s.producer
       case Hook(_, _, _, b) => b in s.blocks
       case UndoTail(_) => 0 < s.index.inserted
       case UndoEntry(chain, done) =>
         && s.index.entries[TailEntry(s)].key.Some?
         && 0 <= FoundPosition(cfg, s, FirstNew(cfg, s) + done) < |Idx.Current(s.index).ring|
       case UndoRewind(_, _) => 0 < s.index.inserted
       case UndoFree(chain, done) => done < |chain| && chain[done] in s.blocks
       case Fill(xs, _, done, current, _) =>
         && done < |xs| && current.Some? && current.value in s.blocks
         && |s.blocks[current.value].cells| == cfg.BlockSize()
         && Offset(cfg.BlockSize(), s.c.tail + done) < cfg.BlockSize()
       case _ => true
  }

  // Memory for a larger index is granted only if index and blocks together still fit the address range.
  function GrantedMemory(cfg: Config, s: State, supply: Supply): Option<seq<Option<nat>>>
    requires Idx.WellFormed(s.index)
  {
    var h := Idx.Current(s.index);
    if supply.Memory? && |supply.junk| == |h.ring| && h.size + 1 + cfg.k <= cfg.w then Some(supply.junk) else None
  }

  // The pools hand out only blocks that this producer does not hold.
  function GrantedBlock(s: State, supply: Supply): Option<nat> {
    if supply.Granted? && supply.block !in s.blocks then Some(supply.block) else None
  }

  function ProducerStep(cfg: Config, s: State, supply: Supply): State
    requires CanProduce(cfg, s)
  {
    match s.producer
    case Ready => s
    case Room(_, _, _) => DoRoom(cfg, s, IsFull(cfg, s.c.head, s.index.inserted * cfg.BlockSize()))
    case Insert(_, _, _) => DoInsert(s)
    case Grow(_, _, _) => DoGrow(s, GrantedMemory(cfg, s, supply))
    case Bump(_, _, _) => DoBump(s)
    case Grab(_, _, _) => DoGrab(cfg, s, GrantedBlock(s, supply), if supply.Granted? then supply.completed else 0)
    case Hook(_, _, _, _) => DoHook(cfg, s)
    case UndoTail(_) => DoUndoTail(s)
    case UndoValue(_) => DoUndoValue(s)
    case UndoEntry(_, done) => DoUndoEntry(s, FoundPosition(cfg, s, FirstNew(cfg, s) + done))
    case UndoRewind(_, _) => DoUndoRewind(s)
    case UndoFree(_, _) => DoUndoFree(cfg, s)
    case Fill(_, _, _, _, _) => DoFill(cfg, s)
    case Publish(_, _, _) => DoPublish(cfg, s)
  }

  // ---- The consumers, one function for each atomic step ----

  function Capacity(s: State, header: nat): nat
    requires header < |s.index.headers|
  {
    |s.index.headers[header].ring|
  }

  function Onward(i: nat, stop: nat, header: nat, slot: nat, capacity: nat): ConsumerPc
    requires 0 < capacity
  {
    if i == stop then Finished else LoadValue(i, stop, header, (slot + 1) % capacity)
  }

  function DoTake(cfg: Config, s: State, pc: ConsumerPc, last: bool): (State, ConsumerPc)
    requires pc.Take? && pc.block in s.blocks && Offset(cfg.BlockSize(), pc.i) < |s.blocks[pc.block].cells|
    requires s.blocks[pc.block].cells[Offset(cfg.BlockSize(), pc.i)].Some?
  {
    var Take(i, from, stop, h, slot, b) := pc;
    var cells := s.blocks[b].cells;
    var place := Offset(cfg.BlockSize(), i);
    (s.(got := s.got[i := cells[place].value], blocks := s.blocks[b := s.blocks[b].(cells := cells[place := None])]),
     if last then Complete(i + 1, from, stop, h, slot, b) else Take(i + 1, from, stop, h, slot, b))
  }

  // set_many_empty
  function DoComplete(cfg: Config, s: State, pc: ConsumerPc): (State, ConsumerPc)
    requires pc.Complete? && pc.block in s.blocks && pc.header < |s.index.headers| && 0 < Capacity(s, pc.header)
  {
    var Complete(i, from, stop, h, slot, b) := pc;
    var completed := s.blocks[b].completed + (i - from);
    (s.(blocks := s.blocks[b := s.blocks[b].(completed := completed)]),
     if completed == cfg.BlockSize() then ClearEntry(i, stop, h, slot, b)
     else Onward(i, stop, h, slot, Capacity(s, h)))
  }

  function DoClear(s: State, pc: ConsumerPc): (State, ConsumerPc)
    requires pc.ClearEntry? && pc.header < |s.index.headers| && pc.slot < Capacity(s, pc.header)
    requires Idx.WellFormed(s.index)
  {
    var ClearEntry(i, stop, h, slot, b) := pc;
    (s.(index := Idx.StoreValue(s.index, s.index.headers[h].ring[slot], None)), FreeBlock(i, stop, h, slot, b))
  }

  // add_block_to_free_list
  function DoFree(cfg: Config, s: State, pc: ConsumerPc): (State, ConsumerPc)
    requires pc.FreeBlock? && 0 < pc.i && pc.header < |s.index.headers| && 0 < Capacity(s, pc.header)
  {
    var FreeBlock(i, stop, h, slot, b) := pc;
    (s.(blocks := s.blocks - {b}, home := s.home - {Number(cfg.BlockSize(), i - 1)}),
     Onward(i, stop, h, slot, Capacity(s, h)))
  }

  // No step of a consumer follows a null or stale pointer or reads a slot without an element.
  predicate CanConsume(cfg: Config, s: State, pc: ConsumerPc) {
    && Idx.WellFormed(s.index) && 1 <= cfg.w
    && (!pc.NoClaim? && !pc.LoadIndex? && !pc.Finished? ==>
          pc.header < |s.index.headers| && 0 < Capacity(s, pc.header))
    && match pc
       case LoadKey(i, _, h, tail) =>
         && tail < Capacity(s, h) && s.index.entries[s.index.headers[h].ring[tail]].key.Some?
         && 0 <= LookUp(cfg, s, h, tail, i)
       case LoadValue(_, _, h, slot) =>
         && slot < Capacity(s, h) && s.index.entries[s.index.headers[h].ring[slot]].value.Some?
       case Take(i, _, _, _, _, b) =>
         && b in s.blocks && Offset(cfg.BlockSize(), i) < |s.blocks[b].cells|
         && s.blocks[b].cells[Offset(cfg.BlockSize(), i)].Some?
       case Complete(_, _, _, _, _, b) => b in s.blocks
       case ClearEntry(_, _, h, slot, _) => slot < Capacity(s, h)
       case FreeBlock(i, _, _, _, b) => b in s.blocks && 0 < i
       case _ => true
  }

  function LookUp(cfg: Config, s: State, h: nat, tail: nat, i: nat): int
    requires Idx.WellFormed(s.index) && h < |s.index.headers| && tail < Capacity(s, h)
    requires s.index.entries[s.index.headers[h].ring[tail]].key.Some?
  {
    Idx.LookupPosition(cfg.w, cfg.k, s.index.headers[h], tail,
                       s.index.entries[s.index.headers[h].ring[tail]].key.value, i)
  }

  function ConsumerStep(cfg: Config, s: State, pc: ConsumerPc): (State, ConsumerPc)
    requires CanConsume(cfg, s, pc)
  {
    match pc
    case NoClaim => (s, pc)
    case LoadIndex(i, stop) => (s, LoadTail(i, stop, |s.index.headers| - 1))
    case LoadTail(i, stop, h) => (s, LoadKey(i, stop, h, s.index.headers[h].tail))
    case LoadKey(i, stop, h, tail) => (s, LoadValue(i, stop, h, LookUp(cfg, s, h, tail, i)))
    case LoadValue(i, stop, h, slot) =>
      (s, Take(i, i, stop, h, slot, s.index.entries[s.index.headers[h].ring[slot]].value.value))
    case Take(i, from, stop, _, _, _) => DoTake(cfg, s, pc, i + 1 == EndInBlock(cfg, from, stop))
    case Complete(_, _, _, _, _, _) => DoComplete(cfg, s, pc)
    case ClearEntry(_, _, _, _, _) => DoClear(s, pc)
    case FreeBlock(_, _, _, _, _) => DoFree(cfg, s, pc)
    case Finished => (s, pc)
  }

  // ---- Steps of the whole ----

  predicate Enabled(cfg: Config, s: State, a: Action) {
    && 1 <= cfg.w && |s.consumers| == |s.c.pcs|
    && match a
       case StartEnqueue(xs) => s.producer.Ready? && |xs| + cfg.BlockSize() <= Pow2(cfg.w)
       case Produce(_) => CanProduce(cfg, s)
       case StartDequeue(t, max) => Claims.Enabled(s.c, Claims.Start(t, max)) && s.consumers[t].NoClaim?
       case Claim(t) => Claims.Enabled(s.c, Claims.Advance(t)) && s.consumers[t].NoClaim?
       case Consume(t) => t < |s.consumers| && CanConsume(cfg, s, s.consumers[t])
       case Finish(t) => t < |s.consumers| && s.consumers[t].Finished? && s.c.pcs[t].Claimed?
  }

  // A step of the claim protocol; the consumer that gets a claim turns to the block index.
  function DoClaim(cfg: Config, s: State, t: nat): State
    requires 1 <= cfg.w && Claims.Enabled(s.c, Claims.Advance(t)) && t < |s.consumers|
  {
    var c' := Claims.Step(cfg.w, s.c, Claims.Advance(t));
    var pc := c'.pcs[t];
    s.(c := c', consumers := if pc.Claimed? then s.consumers[t := LoadIndex(pc.first, pc.first + pc.count)]
                             else s.consumers)
  }

  function DoConsume(cfg: Config, s: State, t: nat): State
    requires t < |s.consumers| && CanConsume(cfg, s, s.consumers[t])
  {
    var (s', pc') := ConsumerStep(cfg, s, s.consumers[t]);
    s'.(consumers := s.consumers[t := pc'])
  }

  function DoStart(cfg: Config, s: State, xs: seq<Element>): State {
    var left := BlockBaseDiff(cfg, s.c.tail, |xs|);
    s.(producer := if 0 < left then Room(xs, left, []) else BeginFill(cfg, s, xs, []))
  }

  function Step(cfg: Config, s: State, a: Action): State
    requires Enabled(cfg, s, a)
  {
    match a
    case StartEnqueue(xs) => DoStart(cfg, s, xs)
    case Produce(supply) => ProducerStep(cfg, s, supply)
    case StartDequeue(t, max) => s.(c := Claims.Step(cfg.w, s.c, Claims.Start(t, max)))
    case Claim(t) => DoClaim(cfg, s, t)
    case Consume(t) => DoConsume(cfg, s, t)
    case Finish(t) =>
      s.(c := Claims.Step(cfg.w, s.c, Claims.Release(t)), consumers := s.consumers[t := NoClaim])
  }
}
