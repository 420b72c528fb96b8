/** How an enqueue obtains its blocks: computing how many it needs, testing for room, inserting the index entry,
    doubling the index, requisitioning the block and hooking it in keep the invariant of the implicit producer
    machine. */
module ImplicitAllocation {
  import opened Common
  import opened Words
  import opened BlockMath
  import opened ImplicitProducer
  import opened ImplicitInvariant
  import opened ImplicitConsumers
  import opened ImplicitReturns
  import opened ImplicitClaims
  import Claims = DequeueClaims
  import Idx = ImplicitIndex

  // ---- How many blocks a call needs ----

  lemma WrapOfAligned(w: nat, k: nat, x: int, y: int)
    requires k <= w
    ensures var n := Pow2(k);
      Wrap(w, (Wrap(w, x) - Wrap(w, x) % n) - (Wrap(w, y) - Wrap(w, y) % n)) == Wrap(w, (x - x % n) - (y - y % n))
  {
    var n := Pow2(k);
    WrapModPow2(w, k, x);
    WrapModPow2(w, k, y);
    WrapOfSum(w, x, 0 - x % n - (Wrap(w, y) - y % n));
    ModOfDifference(y, x - x % n + y % n, Pow2(w));
  }

  // Clearing the low bits of t - 1 gives the last block before t, one block below zero if there is none.
  lemma AlignedBefore(n: nat, t: nat)
    requires 0 < n
    ensures (t - 1) - (t - 1) % n == Start(n, Blocks(n, t)) - n
  {
    if t == 0 {
      DivisionIsUnique(-1, n, -1, n - 1);
    } else {
      StartIsAligned(n, t - 1);
      StartMoves(n, Number(n, t - 1));
    }
  }

  /** blockBaseDiff is the exact length of the blocks to allocate, also when startTailIndex is zero and when the
      words have wrapped, for every count that leaves room for one more block in a word. */
  lemma BlockBaseDiffIsExact(cfg: Config, tail: nat, count: nat)
    requires cfg.k <= cfg.w && count + cfg.BlockSize() <= Pow2(cfg.w)
    ensures var n := cfg.BlockSize();
      BlockBaseDiff(cfg, tail, count) == Start(n, Blocks(n, tail + count)) - Start(n, Blocks(n, tail))
  {
    var n := cfg.BlockSize();
    WrapOfAligned(cfg.w, cfg.k, tail + count - 1, tail - 1);
    AlignedBefore(n, tail + count);
    AlignedBefore(n, tail);
    BlocksReach(n, tail);
    BlocksReach(n, tail + count);
    BlocksMonotone(n, tail, tail + count);
    StartMonotone(n, Blocks(n, tail), Blocks(n, tail + count));
    var diff := Start(n, Blocks(n, tail + count)) - Start(n, Blocks(n, tail));
    DivisionIsUnique(diff, Pow2(cfg.w), 0, diff);
  }

  lemma SameStartSameBlock(n: nat, a: nat, b: nat)
    requires 0 < n && Start(n, a) == Start(n, b)
    ensures a == b
  {
    if a < b {
      InOrder(n, a, b);
    } else if b < a {
      InOrder(n, b, a);
    }
  }

  // ---- Beginning to construct the elements ----

  ghost predicate ChainAtHome(first: nat, home: Homes, chain: seq<nat>) {
    forall j :: 0 <= j < |chain| ==> first + j in home && home[first + j] == chain[j]
  }

  lemma BeginFillIsRight(cfg: Config, s: State, home: Homes, xs: seq<Element>, chain: seq<nat>)
    requires var n := cfg.BlockSize();
      && TailBlockOk(n, s.c.tail, home, s.tailBlock)
      && ChainAtHome(FirstNew(cfg, s), home, chain)
      && Blocks(n, s.c.tail + |xs|) == FirstNew(cfg, s) + |chain|
    ensures FillOk(cfg.BlockSize(), s.c.tail, home, s.tailBlock, BeginFill(cfg, s, xs, chain))
  {
    var n, first, b := cfg.BlockSize(), FirstNew(cfg, s), Number(cfg.BlockSize(), s.c.tail);
    Within(n, s.c.tail);
    if |xs| > 0 {
      NumberMonotone(n, s.c.tail, s.c.tail + |xs| - 1);
      if Start(n, b) == s.c.tail {
        BlocksAtBoundary(n, s.c.tail);
        assert |chain| > 0;
        var block := chain[0];
        assert first in home && home[first] == block;
      } else {
        BlocksInside(n, s.c.tail);
      }
    }
  }

  /** What follows once the blocks are in place shows nothing, allows for the same blocks and has constructed no
      element yet. */
  lemma BeginFillShape(cfg: Config, s: State, xs: seq<Element>, chain: seq<nat>)
    ensures var pc := BeginFill(cfg, s, xs, chain);
      && (pc.Fill? || pc.Publish?) && pc.chain == chain && pc.xs == xs
      && Filled(pc) == []
  {}

  // ---- Starting an enqueue ----

  // Moves of the producer that touch no shared object.
  lemma ProducerMoveKeepsShown(cfg: Config, s: State, pc': ProducerPc)
    requires Inv(cfg, s)
    requires forall j: nat :: j < |Chain(s.producer)| ==> NotShown(pc', j) == NotShown(s.producer, j)
    ensures var n, first := cfg.BlockSize(), FirstNew(cfg, s);
      && ShownOk(n, first, s.index, s.home, pc', s.consumers)
      && KeysUpToTail(n, first, s.index, s.home, pc', s.consumers)
  {
    hide CellsOk, FillOk, CountsOk, ProducerShape, TailBlockOk, PlacesOk, ReadsOk, ViewsOk, Claims.Inv, RoomOk;
    hide ShownOk, KeysUpToTail;
    var n, first := cfg.BlockSize(), FirstNew(cfg, s);
    forall b: nat | b in s.home
      ensures Hidden(n, first, pc', s.consumers, b) == Hidden(n, first, s.producer, s.consumers, b)
    {}
    SameHiddenSameShown(n, first, s.index, s.home, s.producer, s.consumers, pc', s.consumers);
  }

  lemma ProducerMoveKeepsCounts(n: nat, first: nat, head: nat, home: Homes, blocks: Held, pc: ProducerPc,
                                consumers: seq<ConsumerPc>, pc': ProducerPc)
    requires 0 < n && CountsOk(n, first, head, home, blocks, pc, consumers) && !pc.Hook?
    ensures CountsOk(n, first, head, home, blocks, pc', consumers)
  {
    forall b: nat
      ensures b in home ==> home[b] in blocks
      ensures BlockCountOk(n, first, head, home, blocks, pc', consumers, b)
    {
      assert BlockCountOk(n, first, head, home, blocks, pc, consumers, b);
    }
  }

  /** A move of the producer that neither obtains, returns, shows nor hides a block. */
  lemma ProducerMoveKeeps(cfg: Config, s: State, pc': ProducerPc)
    requires Inv(cfg, s) && !s.producer.Hook?
    requires Chain(pc') == Chain(s.producer) && Returned(pc') == Returned(s.producer)
    requires forall j: nat :: j < |Chain(s.producer)| ==> NotShown(pc', j) == NotShown(s.producer, j)
    ensures var n, first := cfg.BlockSize(), FirstNew(cfg, s);
      && ShownOk(n, first, s.index, s.home, pc', s.consumers)
      && KeysUpToTail(n, first, s.index, s.home, pc', s.consumers)
      && CountsOk(n, first, s.c.head, s.home, s.blocks, pc', s.consumers)
      && HomeOk(first, s.home, s.blocks, pc')
  {
    var n, first := cfg.BlockSize(), FirstNew(cfg, s);
    ProducerMoveKeepsShown(cfg, s, pc');
    ProducerMoveKeepsCounts(n, first, s.c.head, s.home, s.blocks, s.producer, s.consumers, pc');
    hide CellsOk, FillOk, CountsOk, ProducerShape, TailBlockOk, PlacesOk, ReadsOk, ViewsOk, Claims.Inv, RoomOk;
    hide ShownOk, KeysUpToTail, IndexOk;
  }

  /** If its new place is right it keeps the invariant. */
  lemma ProducerMoveKeepsInv(cfg: Config, s: State, pc': ProducerPc)
    requires Inv(cfg, s) && !s.producer.Hook?
    requires ProducerShape(FirstNew(cfg, s), s.index, pc')
    requires Chain(pc') == Chain(s.producer) && Returned(pc') == Returned(s.producer)
    requires forall j: nat :: j < |Chain(s.producer)| ==> NotShown(pc', j) == NotShown(s.producer, j)
    requires Filled(s.producer) == Filled(pc') && RoomOk(cfg, FirstNew(cfg, s), s.c.head, pc')
    requires FillOk(cfg.BlockSize(), s.c.tail, s.home, s.tailBlock, pc')
    ensures Inv(cfg, s.(producer := pc'))
  {
    ProducerMoveKeeps(cfg, s, pc');
    hide CellsOk, FillOk, CountsOk, ProducerShape, TailBlockOk, PlacesOk, ReadsOk, ViewsOk, Claims.Inv, RoomOk;
    hide ShownOk, KeysUpToTail, IndexOk, HomeOk;
  }

  lemma StartPlaceIsRight(cfg: Config, s: State, xs: seq<Element>)
    requires cfg.k <= cfg.w && |xs| + cfg.BlockSize() <= Pow2(cfg.w)
    requires TailBlockOk(cfg.BlockSize(), s.c.tail, s.home, s.tailBlock)
    ensures var pc' := DoStart(cfg, s, xs).producer;
      && FillOk(cfg.BlockSize(), s.c.tail, s.home, s.tailBlock, pc')
      && (pc'.Room? || pc'.Fill? || pc'.Publish?) && pc'.chain == [] && Filled(pc') == []
  {
    var n, first := cfg.BlockSize(), FirstNew(cfg, s);
    BlockBaseDiffIsExact(cfg, s.c.tail, |xs|);
    BlocksMonotone(n, s.c.tail, s.c.tail + |xs|);
    if BlockBaseDiff(cfg, s.c.tail, |xs|) == 0 {
      SameStartSameBlock(n, first, Blocks(n, s.c.tail + |xs|));
      BeginFillIsRight(cfg, s, s.home, xs, []);
      BeginFillShape(cfg, s, xs, []);
    }
  }

  lemma StartEnqueueKeepsInv(cfg: Config, s: State, xs: seq<Element>)
    requires Inv(cfg, s) && Enabled(cfg, s, StartEnqueue(xs))
    ensures Inv(cfg, Step(cfg, s, StartEnqueue(xs)))
  {
    hide CellsOk, CountsOk, PlacesOk, ReadsOk, ViewsOk, Claims.Inv, ShownOk, KeysUpToTail, IndexOk, HomeOk, FillOk;
    hide TailBlockOk, BeginFill, BlockBaseDiff;
    StartPlaceIsRight(cfg, s, xs);
    ProducerMoveKeepsInv(cfg, s, DoStart(cfg, s, xs).producer);
  }

  // ---- The room test ----

  lemma WordTestIsExact(w: nat, head: nat, end: nat)
    requires 1 <= w && 0 < end - head < Pow2(w)
    ensures CircularLessThan(w, Wrap(w, head), Wrap(w, end)) <==> end - head < Pow2(w - 1)
  {
    WrapOfDifference(w, head, end);
    DivisionIsUnique(head - end, Pow2(w), -1, Pow2(w) - (end - head));
  }

  lemma MultipleAtLeast(x: nat, n: nat)
    requires 0 < n && x % n == 0 && x < n
    ensures x == 0
  {
    DivisionIsUnique(x, n, 0, x);
  }

  /** The test before each new block is exact: it answers full precisely when the block would reach half the word
      range beyond the head it read, or the configured limit. */
  lemma RoomTestIsExact(cfg: Config, head: nat, base: nat)
    requires cfg.Ok() && head <= base && base - head < Pow2(cfg.w - 1)
    ensures IsFull(cfg, head, base) <==>
            || Pow2(cfg.w - 1) <= base + cfg.BlockSize() - head
            || (cfg.limit.Some? && cfg.limit.value < base + cfg.BlockSize() - head)
  {
    var n := cfg.BlockSize();
    Pow2Grows(cfg.k, cfg.w - 1);
    WordTestIsExact(cfg.w, head, base + n);
    DivisionIsUnique(base - head, Pow2(cfg.w), 0, base - head);
    if cfg.limit.Some? && cfg.limit.value < n {
      MultipleAtLeast(cfg.limit.value, n);
    }
  }

  lemma TestedBase(cfg: Config, s: State)
    requires Inv(cfg, s) && s.producer.Room?
    ensures var n, first := cfg.BlockSize(), FirstNew(cfg, s);
      && s.index.inserted * n == Start(n, first + |s.producer.chain|)
      && s.c.head <= s.index.inserted * n && s.index.inserted * n - s.c.head < Pow2(cfg.w - 1)
  {
    hide CellsOk, CountsOk, PlacesOk, ReadsOk, ViewsOk, ShownOk, KeysUpToTail, IndexOk, HomeOk, FillOk, TailBlockOk;
    var n, first := cfg.BlockSize(), FirstNew(cfg, s);
    StartIsProduct(n, s.index.inserted);
    Claims.ClaimsAreSound(s.c);
    BlocksReach(n, s.c.tail);
    StartMonotone(n, first, first + |s.producer.chain|);
  }

  // A call that gives up leaves the published part as it was.
  lemma UndoShape(first: nat, x: Idx.Index, pc: ProducerPc)
    requires pc.Room? || pc.Grow?
    requires ProducerShape(first, x, pc)
    ensures var pc' := Undo(pc.chain, 0);
      && ProducerShape(first, x, pc') && Chain(pc') == Chain(pc) && Returned(pc') == 0 && Filled(pc') == []
      && (forall j: nat :: !NotShown(pc', j)) && (pc'.UndoEntry? || pc'.Ready?)
  {}

  lemma GiveUpKeepsInv(cfg: Config, s: State)
    requires Inv(cfg, s) && (s.producer.Room? || s.producer.Grow?)
    ensures Inv(cfg, s.(producer := Undo(s.producer.chain, 0)))
  {
    hide CellsOk, CountsOk, PlacesOk, ReadsOk, ViewsOk, ShownOk, KeysUpToTail, IndexOk, HomeOk, TailBlockOk, Claims.Inv;
    hide ProducerShape;
    var n, first := cfg.BlockSize(), FirstNew(cfg, s);
    UndoShape(first, s.index, s.producer);
    StartMonotone(n, first, Allowed(first, s.producer));
    ProducerMoveKeepsInv(cfg, s, Undo(s.producer.chain, 0));
  }

  lemma RoomPlaceIsRight(cfg: Config, s: State)
    requires Inv(cfg, s) && s.producer.Room?
    requires !IsFull(cfg, s.c.head, s.index.inserted * cfg.BlockSize())
    ensures var n, first := cfg.BlockSize(), FirstNew(cfg, s);
      var pc' := Insert(s.producer.xs, s.producer.left - n, s.producer.chain);
      && FillOk(n, s.c.tail, s.home, s.tailBlock, pc') && RoomOk(cfg, first, s.c.head, pc')
  {
    hide CellsOk, CountsOk, PlacesOk, ReadsOk, ViewsOk, ShownOk, KeysUpToTail, IndexOk, HomeOk, TailBlockOk, Claims.Inv;
    var n, first, pc := cfg.BlockSize(), FirstNew(cfg, s), s.producer;
    TestedBase(cfg, s);
    RoomTestIsExact(cfg, s.c.head, s.index.inserted * n);
    StartMoves(n, first + |pc.chain|);
    var last := Blocks(n, s.c.tail + |pc.xs|);
    if last <= first + |pc.chain| {
      StartMonotone(n, last, first + |pc.chain|);
    } else {
      InOrder(n, first + |pc.chain|, last);
    }
  }

  lemma RoomKeepsInv(cfg: Config, s: State)
    requires Inv(cfg, s) && s.producer.Room?
    ensures Inv(cfg, DoRoom(cfg, s, IsFull(cfg, s.c.head, s.index.inserted * cfg.BlockSize())))
  {
    hide CellsOk, CountsOk, PlacesOk, ReadsOk, ViewsOk, ShownOk, KeysUpToTail, IndexOk, HomeOk, TailBlockOk, Claims.Inv;
    hide FillOk, RoomOk;
    if IsFull(cfg, s.c.head, s.index.inserted * cfg.BlockSize()) {
      GiveUpKeepsInv(cfg, s);
    } else {
      RoomPlaceIsRight(cfg, s);
      ProducerMoveKeepsInv(cfg, s, Insert(s.producer.xs, s.producer.left - cfg.BlockSize(), s.producer.chain));
    }
  }

  // ---- Storing the key and moving the tail ----

  // Every header has the ring it had, and no entry lost its key.
  ghost predicate SameRings(x: Idx.Index, x': Idx.Index) {
    && |x'.headers| == |x.headers| && |x'.entries| == |x.entries|
    && (forall j :: 0 <= j < |x.headers| ==>
          && x'.headers[j].ring == x.headers[j].ring && x'.headers[j].size == x.headers[j].size
          && x'.headers[j].shift == x.headers[j].shift)
    && (forall e :: 0 <= e < |x.entries| ==> x.entries[e].key.Some? ==> x'.entries[e].key.Some?)
  }

  lemma SameRingsSameEntry(x: Idx.Index, x': Idx.Index, j: nat, b: int)
    requires Idx.WellFormed(x) && Idx.WellFormed(x') && SameRings(x, x') && j < |x.headers|
    ensures Idx.At(x'.headers[j], b) == Idx.At(x.headers[j], b)
    ensures Idx.Position(x'.headers[j], b) == Idx.Position(x.headers[j], b)
  {}

  lemma SameRingsSameKnows(n: nat, x: Idx.Index, x': Idx.Index, h: nat, lo: nat, hi: nat)
    requires 0 < n && Idx.WellFormed(x) && Idx.WellFormed(x') && SameRings(x, x') && Knows(n, x, h, lo, hi)
    ensures Knows(n, x', h, lo, hi)
  {
    forall i: nat | lo <= i < hi
      ensures Idx.At(x'.headers[h], Number(n, i)) == Idx.At(Idx.Current(x'), Number(n, i))
    {
      SameRingsSameEntry(x, x', h, Number(n, i));
      SameRingsSameEntry(x, x', |x.headers| - 1, Number(n, i));
    }
  }

  lemma SameRingsSameView(n: nat, x: Idx.Index, x': Idx.Index, home: Homes, home': Homes, pc: ConsumerPc)
    requires 0 < n && Idx.WellFormed(x) && Idx.WellFormed(x') && SameRings(x, x') && ViewOk(n, x, home, pc)
    requires pc.LoadTail? ==> pc.header < |x'.headers| && HasKey(x', pc.header, x'.headers[pc.header].tail)
    requires forall b :: b in home ==> b in home' && home'[b] == home[b]
    ensures ViewOk(n, x', home', pc)
  {
    if !pc.NoClaim? && !pc.Finished? && !pc.LoadIndex? {
      SameRingsSameKnows(n, x, x', pc.header, Lo(pc), pc.stop);
      hide Knows, Idx.WellFormed, Number, Start;
      forall b: int
        ensures Idx.At(x'.headers[pc.header], b) == Idx.At(x.headers[pc.header], b)
        ensures Idx.Position(x'.headers[pc.header], b) == Idx.Position(x.headers[pc.header], b)
        ensures Idx.At(Idx.Current(x'), b) == Idx.At(Idx.Current(x), b)
      {
        SameRingsSameEntry(x, x', pc.header, b);
        SameRingsSameEntry(x, x', |x.headers| - 1, b);
      }
    }
  }

  lemma SameRingsSameViews(n: nat, x: Idx.Index, x': Idx.Index, home: Homes, home': Homes, consumers: seq<ConsumerPc>)
    requires 0 < n && Idx.WellFormed(x) && Idx.WellFormed(x') && SameRings(x, x') && ViewsOk(n, x, home, consumers)
    requires forall t :: 0 <= t < |consumers| && consumers[t].LoadTail? ==>
      consumers[t].header < |x'.headers| && HasKey(x', consumers[t].header, x'.headers[consumers[t].header].tail)
    requires forall b :: b in home ==> b in home' && home'[b] == home[b]
    ensures ViewsOk(n, x', home', consumers)
  {
    hide ViewOk, HasKey, SameRings, Idx.WellFormed;
    forall t | 0 <= t < |consumers| ensures ViewOk(n, x', home', consumers[t]) {
      assert ViewOk(n, x, home, consumers[t]);
      SameRingsSameView(n, x, x', home, home', consumers[t]);
    }
  }

  // Where the tails have not moved, readers that are about to read one still find a key.
  lemma SameTailsSameViews(n: nat, x: Idx.Index, x': Idx.Index, home: Homes, home': Homes, consumers: seq<ConsumerPc>)
    requires 0 < n && Idx.WellFormed(x) && Idx.WellFormed(x') && SameRings(x, x') && ViewsOk(n, x, home, consumers)
    requires x'.headers == x.headers
    requires forall b :: b in home ==> b in home' && home'[b] == home[b]
    ensures ViewsOk(n, x', home', consumers)
  {
    forall t | 0 <= t < |consumers| && consumers[t].LoadTail?
      ensures consumers[t].header < |x'.headers| && HasKey(x', consumers[t].header, x'.headers[consumers[t].header].tail)
    {
      assert ViewOk(n, x, home, consumers[t]);
    }
    SameRingsSameViews(n, x, x', home, home', consumers);
  }

  // Between blocks, an entry that keeps the key of an undone block holds no block.
  lemma NothingLeftOver(cfg: Config, s: State)
    requires Inv(cfg, s) && s.producer.Insert?
    ensures Idx.WellFormed(s.index) && Idx.NoLeftovers(s.index)
  {
    hide CellsOk, CountsOk, PlacesOk, ReadsOk, ViewsOk, KeysUpToTail, FillOk, RoomOk, TailBlockOk, Claims.Inv;
    var n, first := cfg.BlockSize(), FirstNew(cfg, s);
    forall p | 0 <= p < |Idx.Current(s.index).ring|
      ensures var e := s.index.entries[Idx.Current(s.index).ring[p]];
        e.key.Some? && s.index.inserted <= e.key.value ==> e.value == None
    {
      assert NoStray(n, first, s.index.entries[Idx.Current(s.index).ring[p]], s.index.unsettled, s.home, s.producer,
                     s.consumers);
    }
  }

  /** Storing a key overwrites no entry that shows a block. */
  lemma StoreKeySpares(x: Idx.Index, b: nat, block: nat)
    requires Idx.WellFormed(x) && Idx.Usable(x) && Idx.Shows(x, b, block)
    ensures Idx.Shows(Idx.StoreKey(x), b, block)
  {}

  lemma StoreKeyLeavesNoStray(n: nat, first: nat, x: Idx.Index, home: Homes, pc: ProducerPc, consumers: seq<ConsumerPc>,
                              pc': ProducerPc, p: nat)
    requires 0 < n && Idx.WellFormed(x) && x.unsettled == None && p < |Idx.Current(x).ring|
    requires forall b: nat :: b in home ==> Hidden(n, first, pc', consumers, b) == Hidden(n, first, pc, consumers, b)
    requires NoStray(n, first, x.entries[Idx.Current(x).ring[p]], x.unsettled, home, pc, consumers)
    ensures var x' := Idx.StoreKey(x);
      NoStray(n, first, x'.entries[Idx.Current(x).ring[p]], x'.unsettled, home, pc', consumers)
  {
    hide Hidden;
  }

  lemma StoreKeyKeepsKeys(n: nat, first: nat, x: Idx.Index, home: Homes, pc: ProducerPc, consumers: seq<ConsumerPc>,
                          pc': ProducerPc)
    requires 0 < n && Idx.WellFormed(x) && Idx.WellFormed(Idx.StoreKey(x))
    requires forall b: nat :: b in home ==> Hidden(n, first, pc', consumers, b) == Hidden(n, first, pc, consumers, b)
    requires KeysUpToTail(n, first, x, home, pc, consumers)
    ensures KeysUpToTail(n, first, Idx.StoreKey(x), home, pc', consumers)
  {
    hide Hidden;
    assert forall b: int :: KeyOf(x, b).Some? ==> KeyOf(Idx.StoreKey(x), b).Some?;
    assert forall b: nat :: KeysFrom(x, b) ==> KeysFrom(Idx.StoreKey(x), b);
  }

  lemma StoreKeyKeepsShown(n: nat, first: nat, x: Idx.Index, home: Homes, pc: ProducerPc, consumers: seq<ConsumerPc>,
                           pc': ProducerPc)
    requires 0 < n && Idx.Inv(x) && Idx.Usable(x) && x.unsettled == None
    requires ShownOk(n, first, x, home, pc, consumers)
    requires forall b: nat :: b in home ==> Hidden(n, first, pc', consumers, b) == Hidden(n, first, pc, consumers, b)
    requires forall b: nat :: b in home && first <= b ==> !Hidden(n, first, pc, consumers, b)
    ensures Idx.WellFormed(Idx.StoreKey(x))
    ensures ShownOk(n, first, Idx.StoreKey(x), home, pc', consumers)
  {
    var x' := Idx.StoreKey(x);
    Idx.StoreKeyKeepsInv(x);
    assert KeyOf(x', x.inserted) == Some(x.inserted);
    hide Hidden, Idx.Inv, NoStray;
    forall p | 0 <= p < |Idx.Current(x').ring|
      ensures NoStray(n, first, x'.entries[Idx.Current(x').ring[p]], x'.unsettled, home, pc', consumers)
    {
      StoreKeyLeavesNoStray(n, first, x, home, pc, consumers, pc', p);
    }
    forall b: nat | b in home && !Hidden(n, first, pc', consumers, b) ensures Idx.Shows(x', b, home[b]) {
      StoreKeySpares(x, b, home[b]);
    }
  }

  // The steps of one turn of the allocation loop agree on what is left to do and on the room they have.
  lemma InsertPlaceIsRight(cfg: Config, s: State, pc': ProducerPc)
    requires Inv(cfg, s)
    requires var pc := s.producer; pc.Insert? || pc.Grow? || pc.Bump? || pc.Grab?
    requires pc'.Insert? || pc'.Grow? || pc'.Bump? || pc'.Grab? || pc'.Hook?
    requires var pc := s.producer; pc'.xs == pc.xs && pc'.left == pc.left && pc'.chain == pc.chain
    ensures FillOk(cfg.BlockSize(), s.c.tail, s.home, s.tailBlock, pc') && RoomOk(cfg, FirstNew(cfg, s), s.c.head, pc')
  {
    hide CellsOk, CountsOk, PlacesOk, ReadsOk, ViewsOk, KeysUpToTail, TailBlockOk, Claims.Inv, ShownOk, IndexOk, HomeOk;
    hide FillsBlock, Number, Blocks, Start, Pow2, ProducerShape;
  }

  lemma StoreKeyKeepsIndex(cfg: Config, x: Idx.Index)
    requires IndexOk(cfg, x)
    ensures IndexOk(cfg, Idx.StoreKey(x)) && SameRings(x, Idx.StoreKey(x)) && Idx.StoreKey(x).headers == x.headers
  {
    Idx.StoreKeyKeepsInv(x);
  }

  lemma InsertKeepsInv(cfg: Config, s: State)
    requires Inv(cfg, s) && s.producer.Insert?
    ensures Inv(cfg, DoInsert(s))
  {
    hide CellsOk, CountsOk, PlacesOk, ReadsOk, ViewsOk, KeysUpToTail, TailBlockOk, Claims.Inv, ShownOk, FillOk, RoomOk;
    hide HomeOk, SameRings;
    var n, first, pc := cfg.BlockSize(), FirstNew(cfg, s), s.producer;
    if Idx.Usable(s.index) {
      InsertPlaceIsRight(cfg, s, Bump(pc.xs, pc.left, pc.chain));
      ProducerMoveKeeps(cfg, s, Bump(pc.xs, pc.left, pc.chain));
      StoreKeyKeepsIndex(cfg, s.index);
      StoreKeyKeepsShown(n, first, s.index, s.home, pc, s.consumers, Bump(pc.xs, pc.left, pc.chain));
      StoreKeyKeepsKeys(n, first, s.index, s.home, pc, s.consumers, Bump(pc.xs, pc.left, pc.chain));
      SameTailsSameViews(n, s.index, Idx.StoreKey(s.index), s.home, s.home, s.consumers);
    } else {
      InsertPlaceIsRight(cfg, s, Grow(pc.xs, pc.left, pc.chain));
      NothingLeftOver(cfg, s);
      Idx.FullRing(s.index);
      ProducerMoveKeepsInv(cfg, s, Grow(pc.xs, pc.left, pc.chain));
    }
  }
}
