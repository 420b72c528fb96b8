/** An explicit producer and its consumers: a circular list of blocks that are reused once every element of them has
    been dequeued, and a circular index of block bases that is doubled when it is full. A plain enqueue is a bulk of
    one; an enqueue_bulk that fails after obtaining a block is in ExplicitFailure. */
module ExplicitProducer {
  import opened Common
  import opened Words
  import opened BlockMath
  import Claims = DequeueClaims
  import P = ImplicitProducer

  // base, here the number of the block, and block.
  datatype Entry = Entry(number: nat, block: nat)

  // An index of 2^size entries; `front` is the position of the newest entry shown to consumers, -1 before the first.
  // Auxiliary: block b belongs at position (b + shift) modulo the size, and the entries of the blocks from lo to hi
  // are in place.
  datatype Header = Header(size: nat, front: int, entries: seq<Option<Entry>>, shift: int, lo: nat, hi: nat)

  // Where the producer stands. left: what remains of blockBaseDiff; first: firstAllocatedBlock; staged: the blocks
  // obtained by this call; shown: the entries in use when the call began.
  datatype ProducerPc =
    | Ready
    | Reuse(count: nat, left: int, first: Option<nat>, staged: nat, shown: nat)
    | Room(count: nat, left: int, first: Option<nat>, staged: nat, shown: nat)
    | Grow(count: nat, left: int, first: Option<nat>, staged: nat, shown: nat)
    | Requisition(count: nat, left: int, first: Option<nat>, staged: nat, shown: nat)
    | Reset(count: nat, first: Option<nat>, staged: nat, block: nat, done: nat)
    | Show(count: nat, first: Option<nat>, staged: nat)
    | Fill(count: nat, staged: nat, done: nat, current: nat)
    | Publish(count: nat, staged: nat)

  // Where a consumer with a claim stands: i is the next index to report as completely dequeued.
  datatype ConsumerPc =
    | NoClaim
    | LoadIndex(i: nat, stop: nat)
    | LoadFront(i: nat, stop: nat, header: nat)
    | LoadBase(i: nat, stop: nat, header: nat, front: nat)
    | LoadBlock(i: nat, stop: nat, header: nat, slot: nat)
    | Report(i: nat, end: nat, stop: nat, header: nat, slot: nat, block: nat)
    | Finished

  // flags: emptyFlags of each block, in index order; next: the links of the circular list; used and prFront:
  // pr_blockIndexSlotsUsed and pr_blockIndexFront; start: tailBlock when the call began. Auxiliary: who, the block
  // that was given each block number; reported, the indices reported so far.
  datatype State = State(
    c: Claims.State,
    headers: seq<Header>,
    used: nat,
    prFront: nat,
    flags: map<nat, seq<bool>>,
    next: map<nat, nat>,
    tailBlock: Option<nat>,
    start: Option<nat>,
    producer: ProducerPc,
    consumers: seq<ConsumerPc>,
    who: seq<nat>,
    reported: set<nat>)

  datatype Supply = Nothing | Memory | Granted(block: nat)

  datatype Action =
    | StartEnqueue(count: nat)
    | Produce(supply: Supply)
    | StartDequeue(thread: nat, max: nat)
    | Claim(thread: nat)
    | Consume(thread: nat)
    | Finish(thread: nat)

  function Position(h: Header, b: int): nat { (b + h.shift) % Pow2(h.size) }

  function Current(s: State): Header
    requires 0 < |s.headers|
  {
    s.headers[|s.headers| - 1]
  }

  predicate Shaped(s: State) {
    && 0 < |s.headers| && (forall j :: 0 <= j < |s.headers| ==> |s.headers[j].entries| == Pow2(s.headers[j].size))
    && s.prFront < Pow2(Current(s).size)
  }

  function All(n: nat, value: bool): seq<bool> { seq(n, _ => value) }

  predicate IsEmpty(flags: seq<bool>) { forall o :: 0 <= o < |flags| ==> flags[o] }

  // ---- The producer ----

  // The entry of the next block is written and the private front moves on.
  function AddEntry(s: State, block: nat, lo: nat): State
    requires Shaped(s)
  {
    var h := Current(s);
    var b := |s.who|;
    var h' := h.(entries := h.entries[s.prFront := Some(Entry(b, block))], lo := lo, hi := b + 1);
    s.(headers := s.headers[|s.headers| - 1 := h'], prFront := (s.prFront + 1) % Pow2(h.size), who := s.who + [block])
  }

  // What follows when the blocks are there: the emptiness of the blocks obtained is reset, one after the other.
  function Obtained(pc: ProducerPc, first: Option<nat>, staged: nat, left: int): ProducerPc
    requires pc.Reuse? || pc.Requisition?
  {
    if 0 < left then (if pc.Reuse? then Reuse(pc.count, left, first, staged, pc.shown)
                      else Room(pc.count, left, first, staged, pc.shown))
    else if first.Some? then Reset(pc.count, first, staged, first.value, 0)
    else BeginFill(pc.count, staged, None, None)
  }

  function BeginFill(count: nat, staged: nat, start: Option<nat>, first: Option<nat>): ProducerPc {
    if count == 0 then Publish(count, staged)
    else if first.Some? then Fill(count, staged, 0, first.value)
    else if start.Some? then Fill(count, staged, 0, start.value)
    else Publish(count, staged)
  }

  // The block after the tail block may be taken if this call has not obtained it already and it is empty.
  predicate CanReuse(s: State)
    requires s.producer.Reuse?
  {
    && s.tailBlock.Some? && s.tailBlock.value in s.next
    && var block := s.next[s.tailBlock.value];
    && s.producer.first != Some(block) && block in s.flags && IsEmpty(s.flags[block])
  }

  function DoReuse(cfg: P.Config, s: State): State
    requires Shaped(s) && s.producer.Reuse? && s.used <= |s.who|
  {
    var pc := s.producer;
    if CanReuse(s) then
      var block := s.next[s.tailBlock.value];
      var first := if pc.first.None? then Some(block) else pc.first;
      AddEntry(s, block, |s.who| + 1 - s.used).(
        tailBlock := Some(block),
        producer := Obtained(pc, first, pc.staged + 1, pc.left - cfg.BlockSize()))
    else s.(producer := Room(pc.count, pc.left, pc.first, pc.staged, pc.shown))
  }

  // Only a call that has obtained nothing yet may fail.
  function DoRoom(s: State, full: bool): State
    requires Shaped(s) && s.producer.Room?
  {
    var Room(count, left, first, staged, shown) := s.producer;
    s.(producer := if full then Ready
                   else if s.used == Pow2(Current(s).size) then Grow(count, left, first, staged, shown)
                   else Requisition(count, left, first, staged, shown))
  }

  // new_block_index: the entries in use, oldest first, in an array twice as large.
  function Doubled(h: Header, prFront: nat, used: nat, shown: nat, total: nat): Header
    requires |h.entries| == Pow2(h.size) && used <= total
  {
    Header(h.size + 1, shown - 1,
           seq(Pow2(h.size + 1), j requires 0 <= j < Pow2(h.size + 1) =>
             if j < used then h.entries[(prFront - used + j) % Pow2(h.size)] else None),
           used - total, total - used, total)
  }

  function DoGrow(s: State, granted: bool): State
    requires Shaped(s) && s.producer.Grow? && s.used <= |s.who|
  {
    var Grow(count, left, first, staged, shown) := s.producer;
    if granted then
      s.(headers := s.headers + [Doubled(Current(s), s.prFront, s.used, shown, |s.who|)], prFront := s.used,
         producer := Requisition(count, left, first, staged, shown))
    else s.(producer := Ready)
  }

  // The new block goes into the circle after the tail block.
  function Linked(next: map<nat, nat>, tailBlock: Option<nat>, block: nat): map<nat, nat>
    requires tailBlock.Some? ==> tailBlock.value in next
  {
    match tailBlock
    case None => next[block := block]
    case Some(last) => next[block := next[last]][last := block]
  }

  function DoRequisition(cfg: P.Config, s: State, granted: Option<nat>): State
    requires Shaped(s) && s.producer.Requisition? && s.used <= |s.who|
    requires s.tailBlock.Some? ==> s.tailBlock.value in s.next
  {
    var pc := s.producer;
    match granted
    case None => s.(producer := Ready)
    case Some(block) =>
      var first := if pc.first.None? then Some(block) else pc.first;
      AddEntry(s, block, |s.who| - s.used).(
        used := s.used + 1,
        flags := s.flags[block := All(cfg.BlockSize(), true)],
        next := Linked(s.next, s.tailBlock, block),
        tailBlock := Some(block),
        producer := Obtained(pc, first, pc.staged + 1, pc.left - cfg.BlockSize()))
  }

  function DoReset(cfg: P.Config, s: State): State
    requires s.producer.Reset? && s.producer.block in s.next
  {
    var Reset(count, first, staged, block, done) := s.producer;
    s.(flags := s.flags[block := All(cfg.BlockSize(), false)],
       producer := if s.tailBlock == Some(block) then Show(count, first, staged)
                   else Reset(count, first, staged, s.next[block], done + 1))
  }

  function DoShow(cfg: P.Config, s: State): State
    requires Shaped(s) && s.producer.Show?
  {
    var Show(count, first, staged) := s.producer;
    var h := Current(s);
    var onBoundary := Offset(cfg.BlockSize(), s.c.tail) == 0;
    s.(headers := s.headers[|s.headers| - 1 := h.(front := (s.prFront - 1) % Pow2(h.size))],
       producer := BeginFill(count, staged, s.start, if onBoundary then first else None))
  }

  // The element goes into `current`; its successor in the circle is taken up when its last slot is filled.
  function DoFill(cfg: P.Config, s: State): State
    requires s.producer.Fill? && s.producer.current in s.next
  {
    var Fill(count, staged, done, current) := s.producer;
    s.(producer := if done + 1 == count then Publish(count, staged)
                   else if Offset(cfg.BlockSize(), s.c.tail + done + 1) == 0 then Fill(count, staged, done + 1, s.next[current])
                   else Fill(count, staged, done + 1, current))
  }

  function DoPublish(s: State): State
    requires s.producer.Publish?
  {
    s.(c := s.c.(tail := s.c.tail + s.producer.count), producer := Ready)
  }

  // No step of the producer follows a null or stale pointer.
  predicate CanProduce(cfg: P.Config, s: State) {
    && Shaped(s) && 1 <= cfg.w && s.used <= |s.who|
    && match s.producer
       case Requisition(_, _, _, _, _) => s.tailBlock.Some? ==> s.tailBlock.value in s.next
       case Reset(_, _, _, block, _) => block in s.next
       case Fill(_, _, _, current) => current in s.next
       case _ => true
  }

  // The answers under which a call may go on. With a block obtained it must not fail; an index must fit the address
  // range together with its blocks, and the blocks held must stay below half of it.
  predicate Granted1(cfg: P.Config, s: State, supply: Supply)
    requires Shaped(s) && 1 <= cfg.w
  {
    match s.producer
    case Room(_, _, _, staged, _) => 0 < staged ==> !P.IsFull(cfg, s.c.head, |s.who| * cfg.BlockSize())
    case Grow(_, _, _, staged, _) => 0 < staged ==> GrantedMemory(cfg, s, supply)
    case Requisition(_, _, _, staged, _) => 0 < staged ==> GrantedBlock(cfg, s, supply).Some?
    case _ => true
  }

  predicate GrantedMemory(cfg: P.Config, s: State, supply: Supply)
    requires Shaped(s)
  {
    supply.Memory? && Current(s).size + 1 + cfg.k <= cfg.w
  }

  function GrantedBlock(cfg: P.Config, s: State, supply: Supply): Option<nat>
    requires 1 <= cfg.w
  {
    if supply.Granted? && supply.block !in s.flags && Start(cfg.BlockSize(), s.used + 1) < Pow2(cfg.w - 1)
    then Some(supply.block) else None
  }

  function ProducerStep(cfg: P.Config, s: State, supply: Supply): State
    requires CanProduce(cfg, s)
  {
    match s.producer
    case Ready => s
    case Reuse(_, _, _, _, _) => DoReuse(cfg, s)
    case Room(_, _, _, _, _) => DoRoom(s, P.IsFull(cfg, s.c.head, |s.who| * cfg.BlockSize()))
    case Grow(_, _, _, _, _) => DoGrow(s, GrantedMemory(cfg, s, supply))
    case Requisition(_, _, _, _, _) => DoRequisition(cfg, s, GrantedBlock(cfg, s, supply))
    case Reset(_, _, _, _, _) => DoReset(cfg, s)
    case Show(_, _, _) => DoShow(cfg, s)
    case Fill(_, _, _, _) => DoFill(cfg, s)
    case Publish(_, _) => DoPublish(s)
  }

  // ---- The consumers ----

  predicate CanConsume(cfg: P.Config, s: State, pc: ConsumerPc) {
    && Shaped(s) && 1 <= cfg.w
    && (!pc.NoClaim? && !pc.LoadIndex? && !pc.Finished? ==> pc.header < |s.headers|)
    && match pc
       case LoadFront(_, _, h) => 0 <= s.headers[h].front
       case LoadBase(_, _, h, front) =>
         front < |s.headers[h].entries| && s.headers[h].entries[front].Some? && s.headers[h].size + cfg.k <= cfg.w
       case LoadBlock(_, _, h, slot) => slot < |s.headers[h].entries| && s.headers[h].entries[slot].Some?
       case Report(i, _, _, _, _, block) =>
         block in s.flags && Offset(cfg.BlockSize(), i) < |s.flags[block]| && !s.flags[block][Offset(cfg.BlockSize(), i)]
       case _ => true
  }

  // The position of the block of index i, computed on words from the base of the entry at `front`.
  function LookUp(cfg: P.Config, h: Header, front: nat, number: nat, i: nat): int {
    MaskedSlot(cfg.w, cfg.k, h.size, front, Wrap(cfg.w, number * Pow2(cfg.k)), Wrap(cfg.w, i))
  }

  function ConsumerStep(cfg: P.Config, s: State, pc: ConsumerPc): (State, ConsumerPc)
    requires CanConsume(cfg, s, pc)
  {
    match pc
    case NoClaim => (s, pc)
    case Finished => (s, pc)
    case LoadIndex(i, stop) => (s, LoadFront(i, stop, |s.headers| - 1))
    case LoadFront(i, stop, h) => (s, LoadBase(i, stop, h, s.headers[h].front))
    case LoadBase(i, stop, h, front) =>
      var slot := LookUp(cfg, s.headers[h], front, s.headers[h].entries[front].value.number, i);
      (s, LoadBlock(i, stop, h, if 0 <= slot then slot else 0))
    case LoadBlock(i, stop, h, slot) =>
      (s, Report(i, P.EndInBlock(cfg, i, stop), stop, h, slot, s.headers[h].entries[slot].value.block))
    case Report(i, end, stop, h, slot, block) =>
      var o := Offset(cfg.BlockSize(), i);
      (s.(flags := s.flags[block := s.flags[block][o := true]], reported := s.reported + {i}),
       if i + 1 != end then Report(i + 1, end, stop, h, slot, block)
       else if end == stop then Finished
       else LoadBlock(end, stop, h, (slot + 1) % Pow2(s.headers[h].size)))
  }

  // ---- Steps of the whole ----

  predicate Enabled(cfg: P.Config, s: State, a: Action) {
    && 1 <= cfg.w && |s.consumers| == |s.c.pcs|
    && match a
       case StartEnqueue(count) => s.producer.Ready? && count + cfg.BlockSize() <= Pow2(cfg.w)
       case Produce(supply) => CanProduce(cfg, s) && Granted1(cfg, s, supply)
       case StartDequeue(t, max) => Claims.Enabled(s.c, Claims.Start(t, max)) && s.consumers[t].NoClaim?
       case Claim(t) => Claims.Enabled(s.c, Claims.Advance(t)) && s.consumers[t].NoClaim?
       case Consume(t) => t < |s.consumers| && CanConsume(cfg, s, s.consumers[t])
       case Finish(t) => t < |s.consumers| && s.consumers[t].Finished? && s.c.pcs[t].Claimed?
  }

  function DoStart(cfg: P.Config, s: State, count: nat): State {
    var left := P.BlockBaseDiff(cfg, s.c.tail, count);
    s.(start := s.tailBlock,
       producer := if 0 < left then Reuse(count, left, None, 0, s.used) else BeginFill(count, 0, s.tailBlock, None))
  }

  function DoClaim(cfg: P.Config, s: State, t: nat): State
    requires 1 <= cfg.w && Claims.Enabled(s.c, Claims.Advance(t)) && t < |s.consumers|
  {
    var c' := Claims.Step(cfg.w, s.c, Claims.Advance(t));
    var pc := c'.pcs[t];
    s.(c := c', consumers := if pc.Claimed? then s.consumers[t := LoadIndex(pc.first, pc.first + pc.count)]
                             else s.consumers)
  }

  function DoConsume(cfg: P.Config, s: State, t: nat): State
    requires t < |s.consumers| && CanConsume(cfg, s, s.consumers[t])
  {
    var (s', pc') := ConsumerStep(cfg, s, s.consumers[t]);
    s'.(consumers := s.consumers[t := pc'])
  }

  function Step(cfg: P.Config, s: State, a: Action): State
    requires Enabled(cfg, s, a)
  {
    match a
    case StartEnqueue(count) => DoStart(cfg, s, count)
    case Produce(supply) => ProducerStep(cfg, s, supply)
    case StartDequeue(t, max) => s.(c := Claims.Step(cfg.w, s.c, Claims.Start(t, max)))
    case Claim(t) => DoClaim(cfg, s, t)
    case Consume(t) => DoConsume(cfg, s, t)
    case Finish(t) =>
      s.(c := Claims.Step(cfg.w, s.c, Claims.Release(t)), consumers := s.consumers[t := NoClaim])
  }
}
