/** The invariant of the implicit producer machine. */
module ImplicitInvariant {
  import opened Common
  import opened Words
  import opened BlockMath
  import opened ImplicitProducer
  import Claims = DequeueClaims
  import Idx = ImplicitIndex

  function One(b: bool): int { if b then 1 else 0 }

  // How much of the block of n elements starting at `base` lies below x.
  function Below(x: int, base: int, n: int): int {
    if x <= base then 0 else if base + n <= x then n else x - base
  }

  // How much of [lo, hi) lies in that block.
  function Overlap(lo: int, hi: int, base: int, n: int): int { Below(hi, base, n) - Below(lo, base, n) }

  // ---- What the producer's position says ----

  // The blocks obtained by the call in progress and how many of them, from the front, were returned.
  function Chain(pc: ProducerPc): seq<nat> {
    match pc
    case Ready => []
    case Hook(_, _, chain, b) => chain + [b]
    case _ => pc.chain
  }

  function Returned(pc: ProducerPc): nat { if pc.UndoFree? then pc.done else 0 }

  // The number of blocks the index counts beyond the published ones.
  function Ahead(pc: ProducerPc): int {
    match pc
    case Ready => 0
    case UndoFree(_, _) => 0
    case Grab(_, _, chain) => |chain| + 1
    case Hook(_, _, chain, _) => |chain| + 1
    case UndoTail(chain) => |chain| + 1
    case UndoEntry(chain, done) => |chain| - done
    case UndoRewind(chain, done) => |chain| - done
    case _ => |pc.chain|
  }

  function UnsettledBlock(pc: ProducerPc, first: nat): Option<nat> {
    if pc.Bump? || pc.UndoValue? || pc.Grab? || pc.Hook? || pc.UndoTail? then Some(first + |pc.chain|) else None
  }

  // The blocks of the call in progress, by position, whose entries do not show them: not yet, or no longer.
  predicate NotShown(pc: ProducerPc, j: int) {
    match pc
    case Hook(_, _, chain, _) => j == |chain|
    case UndoEntry(_, done) => j < done
    case UndoRewind(_, done) => j <= done
    case UndoFree(_, _) => true
    case _ => false
  }

  ghost predicate ProducerShape(first: nat, x: Idx.Index, pc: ProducerPc) {
    && x.inserted == first + Ahead(pc)
    && x.unsettled == UnsettledBlock(pc, first)
    && (pc.Grow? ==> x.high == x.inserted)
    && (pc.UndoEntry? || pc.UndoRewind? || pc.UndoFree? ==> pc.done < |pc.chain|)
  }

  // ---- What a consumer's position says ----

  function Lo(pc: ConsumerPc): int {
    match pc
    case NoClaim => 0
    case Finished => 0
    case Take(_, from, _, _, _, _) => from
    case Complete(_, from, _, _, _, _) => from
    case _ => pc.i
  }

  function Next(pc: ConsumerPc): int { if pc.NoClaim? || pc.Finished? then 0 else pc.i }

  function Hi(pc: ConsumerPc): int { if pc.NoClaim? || pc.Finished? then 0 else pc.stop }

  // Claimed elements of block b this consumer has not reported as completely dequeued.
  ghost function UncountedIn(n: nat, b: nat): ConsumerPc -> int {
    (pc: ConsumerPc) => Overlap(Lo(pc), Hi(pc), Start(n, b), n)
  }

  // Whether index i is claimed by this consumer and not yet taken.
  ghost function UnreadAt(i: nat): ConsumerPc -> int {
    (pc: ConsumerPc) => One(Next(pc) <= i < Hi(pc))
  }

  // Whether this consumer is the one that emptied block b and is returning it.
  predicate Finishes(n: nat, b: nat, pc: ConsumerPc)
    requires 0 < n
  {
    (pc.ClearEntry? || pc.FreeBlock?) && 0 < pc.i && Number(n, pc.i - 1) == b
  }

  ghost function Finishing(n: nat, b: nat): ConsumerPc -> int
    requires 0 < n
  {
    (pc: ConsumerPc) => One(Finishes(n, b, pc))
  }

  // The same, once it has cleared the block's entry.
  ghost function Cleared(n: nat, b: nat): ConsumerPc -> int
    requires 0 < n
  {
    (pc: ConsumerPc) => One(pc.FreeBlock? && Finishes(n, b, pc))
  }

  // ---- The invariant, part by part ----
  //
  // Each part names what it depends on: n is the block size, first the number of the first block that has not
  // been published, x the index, pc the place of the producer.

  type Homes = map<nat, nat>
  type Held = map<nat, Block>

  ghost predicate IndexOk(cfg: Config, x: Idx.Index) {
    && Idx.Inv(x)
    && forall j :: 0 <= j < |x.headers| ==> x.headers[j].size + cfg.k <= cfg.w
  }

  // Each held block has one number; new numbers are exactly the blocks of the call in progress.
  ghost predicate HomeOk(first: nat, home: Homes, blocks: Held, pc: ProducerPc) {
    && (forall b :: b in home ==> home[b] in blocks && blocks[home[b]].number == b)
    && (forall id :: id in blocks ==> blocks[id].number in home && home[blocks[id].number] == id)
    && (forall b :: b in home && first <= b ==>
          Returned(pc) <= b - first < |Chain(pc)| && home[b] == Chain(pc)[b - first])
    && (forall b :: first + Returned(pc) <= b < first + |Chain(pc)| ==> b in home)
  }

  ghost predicate Hidden(n: nat, first: nat, pc: ProducerPc, consumers: seq<ConsumerPc>, b: nat)
    requires 0 < n
  {
    if first <= b then NotShown(pc, b - first) else 0 < Sum(Cleared(n, b), consumers)
  }

  function KeyOf(x: Idx.Index, b: int): Option<nat>
    requires Idx.WellFormed(x)
  {
    x.entries[Idx.At(Idx.Current(x), b)].key
  }

  // A held block is shown by its entry unless it is being hooked, undone or returned; no other entry with a
  // settled key shows a block.
  ghost predicate ShownOk(n: nat, first: nat, x: Idx.Index, home: Homes, pc: ProducerPc, consumers: seq<ConsumerPc>)
    requires 0 < n && Idx.WellFormed(x)
  {
    && (forall b :: b in home && !Hidden(n, first, pc, consumers, b) ==> Idx.Shows(x, b, home[b]))
    && (forall b :: b in home && first <= b ==> KeyOf(x, b) == Some(b))
    && (x.unsettled.Some? ==> KeyOf(x, x.unsettled.value) == x.unsettled)
    && (forall p :: 0 <= p < |Idx.Current(x).ring| ==>
          NoStray(n, first, x.entries[Idx.Current(x).ring[p]], x.unsettled, home, pc, consumers))
  }

  ghost predicate NoStray(n: nat, first: nat, e: Idx.Entry, unsettled: Option<nat>, home: Homes, pc: ProducerPc,
                          consumers: seq<ConsumerPc>)
    requires 0 < n
  {
    e.key.Some? && e.value.Some? && e.key != unsettled ==>
      e.key.value in home && home[e.key.value] == e.value.value && !Hidden(n, first, pc, consumers, e.key.value)
  }

  // From a block a lookup may have to reach up to the tail, every entry has a key.
  ghost predicate KeysUpToTail(n: nat, first: nat, x: Idx.Index, home: Homes, pc: ProducerPc, consumers: seq<ConsumerPc>)
    requires 0 < n && Idx.WellFormed(x)
  {
    forall b :: b in home && (first <= b || !Hidden(n, first, pc, consumers, b)) ==> KeysFrom(x, b)
  }

  ghost predicate KeysFrom(x: Idx.Index, b: nat)
    requires Idx.WellFormed(x)
  {
    forall b' :: b <= b' < x.inserted ==> KeyOf(x, b').Some?
  }

  // completed counts exactly the indices of the block that were claimed and reported; the consumer whose
  // report filled it, and nobody else, returns it.
  ghost predicate BlockCountOk(n: nat, first: nat, head: nat, home: Homes, blocks: Held, pc: ProducerPc,
                               consumers: seq<ConsumerPc>, b: nat)
    requires 0 < n && (b in home ==> home[b] in blocks)
  {
    var claimed := Below(head, Start(n, b), n);
    var pending := Sum(UncountedIn(n, b), consumers);
    && (b in home && !(pc.Hook? && b == first + |pc.chain|) ==> blocks[home[b]].completed + pending == claimed)
    && (b < first && b !in home ==> claimed == n && pending == 0)
    && 0 <= pending
    && Sum(Finishing(n, b), consumers) == One(b in home && b < first && claimed - pending == n)
    && 0 <= Sum(Cleared(n, b), consumers) <= Sum(Finishing(n, b), consumers)
  }

  ghost predicate CountsOk(n: nat, first: nat, head: nat, home: Homes, blocks: Held, pc: ProducerPc,
                           consumers: seq<ConsumerPc>)
    requires 0 < n
  {
    forall b: nat :: (b in home ==> home[b] in blocks) && BlockCountOk(n, first, head, home, blocks, pc, consumers, b)
  }

  // Every index below the head was taken once or is still owed to exactly one consumer.
  ghost predicate ReadsOk(head: nat, consumers: seq<ConsumerPc>, got: map<nat, Element>) {
    forall i: nat :: Sum(UnreadAt(i), consumers) + One(i in got) == One(i < head)
  }

  predicate CellIs(n: nat, home: Homes, blocks: Held, i: nat, value: Option<Element>)
    requires 0 < n
  {
    var b := Number(n, i);
    && b in home && home[b] in blocks
    && |blocks[home[b]].cells| == n && Offset(n, i) < n
    && blocks[home[b]].cells[Offset(n, i)] == value
  }

  // The elements of the call in progress that have been constructed.
  function Filled(pc: ProducerPc): seq<Element> {
    match pc
    case Fill(xs, _, done, _, _) => if done <= |xs| then xs[..done] else xs
    case Publish(xs, _, _) => xs
    case _ => []
  }

  // The elements still to be taken are in their slots; what was taken was the element enqueued there, and
  // its slot is empty.
  ghost predicate CellsOk(n: nat, home: Homes, blocks: Held, items: seq<Element>, got: map<nat, Element>,
                          filled: seq<Element>)
    requires 0 < n
  {
    && (forall id :: id in blocks ==> |blocks[id].cells| == n)
    && (forall i: nat :: i < |items| && i !in got ==> CellIs(n, home, blocks, i, Some(items[i])))
    && (forall i :: i in got ==> i < |items| && got[i] == items[i])
    && (forall i :: i in got && Number(n, i) in home ==> CellIs(n, home, blocks, i, None))
    && (forall j :: 0 <= j < |filled| ==> CellIs(n, home, blocks, |items| + j, Some(filled[j])))
  }

  // How many blocks the room tests made so far allow for.
  function Allowed(first: nat, pc: ProducerPc): nat {
    first +
    (if pc.Insert? || pc.Grow? || pc.Bump? || pc.Grab? || pc.Hook? then |pc.chain| + 1
     else if pc.Room? || pc.Fill? || pc.Publish? then |pc.chain| else 0)
  }

  ghost predicate RoomOk(cfg: Config, first: nat, head: nat, pc: ProducerPc)
    requires 1 <= cfg.w
  {
    var reach := Start(cfg.BlockSize(), Allowed(first, pc)) - head;
    reach < Pow2(cfg.w - 1) && (cfg.limit.Some? ==> reach <= cfg.limit.value)
  }

  // `current` is block number b and `rest` are the blocks of the call after it.
  ghost predicate FillsBlock(first: nat, home: Homes, chain: seq<nat>, b: nat, current: Option<nat>, rest: seq<nat>) {
    && b in home && current == Some(home[b])
    && |rest| <= |chain| && rest == chain[|chain| - |rest|..]
    && first + |chain| == b + 1 + |rest|
  }

  // What is left of blockBaseDiff leads exactly to the end of the last block the call needs; the block
  // written to is the one the next element belongs in.
  ghost predicate FillOk(n: nat, tail: nat, home: Homes, tailBlock: Option<nat>, pc: ProducerPc)
    requires 0 < n
  {
    var first := Blocks(n, tail);
    && (pc.Room? ==> 0 < pc.left && Start(n, first + |pc.chain|) + pc.left == Start(n, Blocks(n, tail + |pc.xs|)))
    && (pc.Insert? || pc.Grow? || pc.Bump? || pc.Grab? || pc.Hook? ==>
          0 <= pc.left && Start(n, first + |pc.chain| + 1) + pc.left == Start(n, Blocks(n, tail + |pc.xs|)))
    && (pc.Fill? || pc.Publish? ==> Blocks(n, tail + |pc.xs|) == first + |pc.chain|)
    && (pc.Fill? ==>
          pc.done < |pc.xs| && FillsBlock(first, home, pc.chain, Number(n, tail + pc.done), pc.current, pc.rest))
    && (pc.Publish? ==>
          if pc.xs == [] then pc.current == tailBlock
          else FillsBlock(first, home, pc.chain, Number(n, tail + |pc.xs| - 1), pc.current, []))
  }

  // Unless the next element starts a new block, tailBlock is the block it belongs in.
  ghost predicate TailBlockOk(n: nat, tail: nat, home: Homes, tailBlock: Option<nat>)
    requires 0 < n
  {
    var b := Number(n, tail);
    Start(n, b) != tail ==> b in home && tailBlock == Some(home[b])
  }

  // Through header h the blocks of the indices from lo to hi are found at the same entries as through the current one.
  ghost predicate Knows(n: nat, x: Idx.Index, h: nat, lo: nat, hi: nat)
    requires 0 < n && Idx.WellFormed(x)
  {
    && h < |x.headers|
    && forall i: nat :: lo <= i < hi ==> Idx.At(x.headers[h], Number(n, i)) == Idx.At(Idx.Current(x), Number(n, i))
  }

  ghost predicate HasKey(x: Idx.Index, h: nat, position: nat)
    requires Idx.WellFormed(x) && h < |x.headers|
  {
    position < |x.headers[h].ring| && x.entries[x.headers[h].ring[position]].key.Some?
  }

  ghost predicate InBlock(x: Idx.Index, home: Homes, h: nat, slot: nat, b: nat, block: nat)
    requires Idx.WellFormed(x) && h < |x.headers|
  {
    slot == Idx.Position(x.headers[h], b) && b in home && home[b] == block
  }

  // A consumer's place in its claim.
  ghost predicate PlaceOk(cfg: Config, head: nat, pc: ConsumerPc, claim: Claims.Pc)
    requires 1 <= cfg.w
  {
    var n := cfg.BlockSize();
    && (pc.NoClaim? <==> !claim.Claimed?)
    && (!pc.NoClaim? && !pc.Finished? ==>
          && claim.first <= Lo(pc) && Lo(pc) <= pc.i <= pc.stop && pc.stop == claim.first + claim.count
          && pc.stop - Lo(pc) < Pow2(cfg.w - 1) && pc.stop <= head)
    && (pc.LoadIndex? || pc.LoadTail? || pc.LoadKey? || pc.LoadValue? || pc.Take? ==> pc.i < pc.stop)
    && (pc.Take? ==> Number(n, pc.i) == Number(n, pc.from))
    && (pc.Complete? ==> pc.from < pc.i && Number(n, pc.i - 1) == Number(n, pc.from))
    && (pc.ClearEntry? || pc.FreeBlock? ==> 0 < pc.i)
    && ((pc.Complete? || pc.ClearEntry? || pc.FreeBlock?) && pc.i < pc.stop ==> Start(n, Number(n, pc.i)) == pc.i)
  }

  ghost predicate ViewOk(n: nat, x: Idx.Index, home: Homes, pc: ConsumerPc)
    requires 0 < n && Idx.WellFormed(x)
  {
    match pc
    case NoClaim => true
    case Finished => true
    case LoadIndex(i, stop) => true
    case LoadTail(i, stop, h) => Knows(n, x, h, i, stop) && HasKey(x, h, x.headers[h].tail)
    case LoadKey(i, stop, h, tail) => Knows(n, x, h, i, stop) && HasKey(x, h, tail)
    case LoadValue(i, stop, h, slot) =>
      Knows(n, x, h, i, stop) && slot == Idx.Position(x.headers[h], Number(n, i))
    case Take(i, from, stop, h, slot, b) => Knows(n, x, h, from, stop) && InBlock(x, home, h, slot, Number(n, from), b)
    case Complete(i, from, stop, h, slot, b) => Knows(n, x, h, from, stop) && InBlock(x, home, h, slot, Number(n, from), b)
    case ClearEntry(i, stop, h, slot, b) =>
      && Knows(n, x, h, i, stop) && 0 < i && InBlock(x, home, h, slot, Number(n, i - 1), b)
      && Idx.At(x.headers[h], Number(n, i - 1)) == Idx.At(Idx.Current(x), Number(n, i - 1))
    case FreeBlock(i, stop, h, slot, b) =>
      Knows(n, x, h, i, stop) && 0 < i && InBlock(x, home, h, slot, Number(n, i - 1), b)
  }

  ghost predicate PlacesOk(cfg: Config, head: nat, consumers: seq<ConsumerPc>, claims: seq<Claims.Pc>)
    requires 1 <= cfg.w
  {
    && |consumers| == |claims|
    && forall t :: 0 <= t < |consumers| ==> PlaceOk(cfg, head, consumers[t], claims[t])
  }

  ghost predicate ViewsOk(n: nat, x: Idx.Index, home: Homes, consumers: seq<ConsumerPc>)
    requires 0 < n && Idx.WellFormed(x)
  {
    forall t :: 0 <= t < |consumers| ==> ViewOk(n, x, home, consumers[t])
  }

  ghost predicate Inv(cfg: Config, s: State) {
    var n, first := cfg.BlockSize(), FirstNew(cfg, s);
    && cfg.Ok() && Claims.Inv(s.c) && |s.items| == s.c.tail
    && IndexOk(cfg, s.index)
    && ProducerShape(first, s.index, s.producer)
    && HomeOk(first, s.home, s.blocks, s.producer)
    && ShownOk(n, first, s.index, s.home, s.producer, s.consumers)
    && KeysUpToTail(n, first, s.index, s.home, s.producer, s.consumers)
    && CountsOk(n, first, s.c.head, s.home, s.blocks, s.producer, s.consumers)
    && ReadsOk(s.c.head, s.consumers, s.got)
    && CellsOk(n, s.home, s.blocks, s.items, s.got, Filled(s.producer))
    && RoomOk(cfg, first, s.c.head, s.producer)
    && FillOk(n, s.c.tail, s.home, s.tailBlock, s.producer)
    && TailBlockOk(n, s.c.tail, s.home, s.tailBlock)
    && PlacesOk(cfg, s.c.head, s.consumers, s.c.pcs)
    && ViewsOk(n, s.index, s.home, s.consumers)
  }
}
