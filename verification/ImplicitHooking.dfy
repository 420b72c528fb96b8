/** Moving the index tail over a new entry, requisitioning the block and hooking it in keep the invariant of the
    implicit producer machine. */
module ImplicitHooking {
  import opened Common
  import opened Words
  import opened BlockMath
  import opened ImplicitProducer
  import opened ImplicitInvariant
  import opened ImplicitConsumers
  import opened ImplicitReturns
  import opened ImplicitClaims
  import opened ImplicitAllocation
  import Claims = DequeueClaims
  import Idx = ImplicitIndex

  // ---- Moving the tail ----

  // The same index with its tail elsewhere.
  ghost predicate TailMoved(x: Idx.Index, x': Idx.Index)
    requires Idx.WellFormed(x)
  {
    && x'.entries == x.entries && x'.unsettled == x.unsettled && |x'.headers| == |x.headers|
    && (forall j :: 0 <= j < |x.headers| - 1 ==> x'.headers[j] == x.headers[j])
    && x'.headers[|x.headers| - 1] == Idx.Current(x).(tail := x'.headers[|x.headers| - 1].tail)
  }

  lemma TailMoveKeepsEntries(x: Idx.Index, x': Idx.Index, b: int)
    requires Idx.WellFormed(x) && Idx.WellFormed(x') && TailMoved(x, x')
    ensures Idx.At(Idx.Current(x'), b) == Idx.At(Idx.Current(x), b) && KeyOf(x', b) == KeyOf(x, b)
  {}

  lemma TailMoveKeepsShown(n: nat, first: nat, x: Idx.Index, x': Idx.Index, home: Homes, pc: ProducerPc,
                           consumers: seq<ConsumerPc>)
    requires 0 < n && Idx.WellFormed(x) && Idx.WellFormed(x') && TailMoved(x, x')
    requires ShownOk(n, first, x, home, pc, consumers)
    ensures ShownOk(n, first, x', home, pc, consumers)
  {
    hide Hidden;
    forall b: nat
      ensures Idx.At(Idx.Current(x'), b) == Idx.At(Idx.Current(x), b) && KeyOf(x', b) == KeyOf(x, b)
    {
      TailMoveKeepsEntries(x, x', b);
    }
    forall p | 0 <= p < |Idx.Current(x').ring|
      ensures NoStray(n, first, x'.entries[Idx.Current(x').ring[p]], x'.unsettled, home, pc, consumers)
    {
      assert NoStray(n, first, x.entries[Idx.Current(x).ring[p]], x.unsettled, home, pc, consumers);
    }
  }

  lemma TailMoveKeepsKeysFrom(x: Idx.Index, x': Idx.Index, b: nat)
    requires Idx.WellFormed(x) && Idx.WellFormed(x') && TailMoved(x, x') && KeysFrom(x, b)
    requires x'.inserted <= x.inserted + 1 && (x'.inserted == x.inserted + 1 ==> KeyOf(x, x.inserted).Some?)
    ensures KeysFrom(x', b)
  {
    forall b' | b <= b' < x'.inserted ensures KeyOf(x', b').Some? {
      TailMoveKeepsEntries(x, x', b');
      assert b' < x.inserted ==> KeyOf(x, b').Some?;
    }
  }

  lemma TailMoveKeepsKeys(n: nat, first: nat, x: Idx.Index, x': Idx.Index, home: Homes, pc: ProducerPc,
                          consumers: seq<ConsumerPc>)
    requires 0 < n && Idx.WellFormed(x) && Idx.WellFormed(x') && TailMoved(x, x')
    requires x'.inserted <= x.inserted + 1 && (x'.inserted == x.inserted + 1 ==> KeyOf(x, x.inserted).Some?)
    requires KeysUpToTail(n, first, x, home, pc, consumers)
    ensures KeysUpToTail(n, first, x', home, pc, consumers)
  {
    hide Hidden, KeysFrom, TailMoved, Idx.WellFormed;
    forall b | b in home && (first <= b || !Hidden(n, first, pc, consumers, b)) ensures KeysFrom(x', b) {
      assert KeysFrom(x, b);
      TailMoveKeepsKeysFrom(x, x', b);
    }
  }

  /** A consumer about to read the key at the tail finds one there, wherever the producer has moved the tail. */
  lemma TailMoveKeepsViews(cfg: Config, s: State, x': Idx.Index)
    requires Inv(cfg, s) && IndexOk(cfg, x') && TailMoved(s.index, x')
    requires FirstNew(cfg, s) <= x'.inserted <= s.index.inserted + 1
    requires x'.inserted == s.index.inserted + 1 ==> KeyOf(s.index, s.index.inserted).Some?
    ensures ViewsOk(cfg.BlockSize(), x', s.home, s.consumers)
  {
    hide CellsOk, CountsOk, ReadsOk, HomeOk, FillOk, TailBlockOk, Claims.Inv, RoomOk, ProducerShape, ShownOk;
    hide KeysUpToTail;
    hide KeysFrom;
    assert SameRings(s.index, x');
    forall t | 0 <= t < |s.consumers| && s.consumers[t].LoadTail?
      ensures s.consumers[t].header < |x'.headers|
      ensures HasKey(x', s.consumers[t].header, x'.headers[s.consumers[t].header].tail)
    {
      NewTailHasKey(cfg, s, x', t);
    }
    SameRingsSameViews(cfg.BlockSize(), s.index, x', s.home, s.home, s.consumers);
  }

  lemma NewTailHasKey(cfg: Config, s: State, x': Idx.Index, t: nat)
    requires Inv(cfg, s) && IndexOk(cfg, x') && TailMoved(s.index, x')
    requires FirstNew(cfg, s) <= x'.inserted <= s.index.inserted + 1
    requires x'.inserted == s.index.inserted + 1 ==> KeyOf(s.index, s.index.inserted).Some?
    requires t < |s.consumers| && s.consumers[t].LoadTail?
    ensures s.consumers[t].header < |x'.headers|
    ensures HasKey(x', s.consumers[t].header, x'.headers[s.consumers[t].header].tail)
  {
    hide CellsOk, CountsOk, ReadsOk, HomeOk, FillOk, TailBlockOk, Claims.Inv, RoomOk, ProducerShape, ShownOk;
    hide KeysUpToTail;
    hide KeysFrom;
    var pc, n := s.consumers[t], cfg.BlockSize();
    assert PlaceOk(cfg, s.c.head, pc, s.c.pcs[t]);
    assert ViewOk(n, s.index, s.home, pc);
    ClaimedBlockHasKey(cfg, s, t, pc.i);
    ClaimedBlockIsShown(cfg, s, t, pc.i);
    if pc.header == |s.index.headers| - 1 {
      TailMoveKeepsKeysFrom(s.index, x', Number(n, pc.i));
      TailHasKey(x', Number(n, pc.i));
    }
  }

  lemma BumpKeepsIndex(cfg: Config, s: State)
    requires Inv(cfg, s) && s.producer.Bump?
    ensures IndexOk(cfg, Idx.StoreTail(s.index)) && TailMoved(s.index, Idx.StoreTail(s.index))
    ensures KeyOf(s.index, s.index.inserted).Some?
  {
    hide CellsOk, CountsOk, PlacesOk, ReadsOk, ViewsOk, KeysUpToTail, TailBlockOk, Claims.Inv, HomeOk, FillOk, RoomOk;
    Idx.StoreTailKeepsInv(s.index);
  }

  lemma BumpKeepsInv(cfg: Config, s: State)
    requires Inv(cfg, s) && s.producer.Bump?
    ensures Inv(cfg, DoBump(s))
  {
    hide CellsOk, CountsOk, PlacesOk, ReadsOk, ViewsOk, KeysUpToTail, TailBlockOk, Claims.Inv, HomeOk, FillOk, RoomOk;
    hide ShownOk, TailMoved;
    var n, first, pc := cfg.BlockSize(), FirstNew(cfg, s), s.producer;
    var pc' := Grab(pc.xs, pc.left, pc.chain);
    BumpKeepsIndex(cfg, s);
    InsertPlaceIsRight(cfg, s, pc');
    ProducerMoveKeeps(cfg, s, pc');
    TailMoveKeepsShown(n, first, s.index, Idx.StoreTail(s.index), s.home, pc', s.consumers);
    TailMoveKeepsKeys(n, first, s.index, Idx.StoreTail(s.index), s.home, pc', s.consumers);
    TailMoveKeepsViews(cfg, s, Idx.StoreTail(s.index));
  }

  // ---- Requisitioning a block ----

  lemma GrabKeepsHome(first: nat, home: Homes, blocks: Held, pc: ProducerPc, id: nat, block: Block)
    requires HomeOk(first, home, blocks, pc) && pc.Grab? && id !in blocks && block.number == first + |pc.chain|
    ensures first + |pc.chain| !in home
    ensures HomeOk(first, home[first + |pc.chain| := id], blocks[id := block], Hook(pc.xs, pc.left, pc.chain, id))
  {}

  lemma GrabKeepsShown(n: nat, first: nat, x: Idx.Index, home: Homes, pc: ProducerPc, consumers: seq<ConsumerPc>, id: nat)
    requires 0 < n && Idx.WellFormed(x) && pc.Grab? && first + |pc.chain| !in home
    requires x.unsettled == Some(first + |pc.chain|) && ShownOk(n, first, x, home, pc, consumers)
    ensures ShownOk(n, first, x, home[first + |pc.chain| := id], Hook(pc.xs, pc.left, pc.chain, id), consumers)
  {
    var B, pc' := first + |pc.chain|, Hook(pc.xs, pc.left, pc.chain, id);
    forall b: nat ensures b != B ==> Hidden(n, first, pc', consumers, b) == Hidden(n, first, pc, consumers, b)
                  ensures Hidden(n, first, pc', consumers, B)
    {}
    hide Hidden;
    forall p | 0 <= p < |Idx.Current(x).ring|
      ensures NoStray(n, first, x.entries[Idx.Current(x).ring[p]], x.unsettled, home[B := id], pc', consumers)
    {
      assert NoStray(n, first, x.entries[Idx.Current(x).ring[p]], x.unsettled, home, pc, consumers);
    }
  }

  lemma GrabKeepsKeys(n: nat, first: nat, x: Idx.Index, home: Homes, pc: ProducerPc, consumers: seq<ConsumerPc>, id: nat)
    requires 0 < n && Idx.WellFormed(x) && pc.Grab? && first + |pc.chain| !in home
    requires x.inserted == first + |pc.chain| + 1 && KeyOf(x, first + |pc.chain|).Some?
    requires KeysUpToTail(n, first, x, home, pc, consumers)
    ensures KeysUpToTail(n, first, x, home[first + |pc.chain| := id], Hook(pc.xs, pc.left, pc.chain, id), consumers)
  {
    var B, pc' := first + |pc.chain|, Hook(pc.xs, pc.left, pc.chain, id);
    assert KeysFrom(x, B);
    hide KeysFrom;
  }

  // The block has no elements yet, so nothing was counted, and it counts as empty only once it is hooked in.
  lemma GrabKeepsCounts(n: nat, first: nat, head: nat, home: Homes, blocks: Held, pc: ProducerPc,
                        consumers: seq<ConsumerPc>, id: nat, block: Block)
    requires 0 < n && pc.Grab? && id !in blocks && CountsOk(n, first, head, home, blocks, pc, consumers)
    requires first + |pc.chain| !in home
    ensures CountsOk(n, first, head, home[first + |pc.chain| := id], blocks[id := block],
                     Hook(pc.xs, pc.left, pc.chain, id), consumers)
  {
    var home', blocks', pc' := home[first + |pc.chain| := id], blocks[id := block], Hook(pc.xs, pc.left, pc.chain, id);
    forall b: nat
      ensures b in home' ==> home'[b] in blocks'
      ensures BlockCountOk(n, first, head, home', blocks', pc', consumers, b)
    {
      assert BlockCountOk(n, first, head, home, blocks, pc, consumers, b);
    }
  }

  lemma GrabKeepsCells(n: nat, home: Homes, blocks: Held, items: seq<Element>, got: map<nat, Element>, B: nat, id: nat,
                       block: Block)
    requires 0 < n && id !in blocks && CellsOk(n, home, blocks, items, got, []) && |block.cells| == n
    requires Blocks(n, |items|) <= B && B !in home
    ensures CellsOk(n, home[B := id], blocks[id := block], items, got, [])
  {
    forall i: nat | i < |items| ensures Number(n, i) != B {
      PublishedBlock(n, |items|, i);
    }
    assert forall i: nat, value :: Number(n, i) != B && CellIs(n, home, blocks, i, value) ==>
      CellIs(n, home[B := id], blocks[id := block], i, value);
  }

  lemma GrabKeepsViews(n: nat, x: Idx.Index, home: Homes, consumers: seq<ConsumerPc>, B: nat, id: nat)
    requires 0 < n && Idx.WellFormed(x) && ViewsOk(n, x, home, consumers) && B !in home
    ensures ViewsOk(n, x, home[B := id], consumers)
  {
    hide ViewOk, HasKey;
    SameTailsSameViews(n, x, x, home, home[B := id], consumers);
  }

  lemma GrabbedPlaceIsRight(cfg: Config, s: State)
    requires Inv(cfg, s) && s.producer.Grab?
    ensures var B := FirstNew(cfg, s) + |s.producer.chain|;
      && s.index.unsettled == Some(B) && s.index.inserted == B + 1 && KeyOf(s.index, B) == Some(B)
  {
    hide CellsOk, CountsOk, PlacesOk, ReadsOk, ViewsOk, KeysUpToTail, TailBlockOk, Claims.Inv, HomeOk, FillOk, RoomOk;
    hide NoStray, Hidden;
  }

  lemma TailBlockStays(n: nat, tail: nat, home: Homes, tailBlock: Option<nat>, B: nat, id: nat)
    requires 0 < n && TailBlockOk(n, tail, home, tailBlock) && B !in home
    ensures TailBlockOk(n, tail, home[B := id], tailBlock)
  {}

  lemma FillIgnoresHome(n: nat, tail: nat, home: Homes, home': Homes, tailBlock: Option<nat>, pc: ProducerPc)
    requires 0 < n && FillOk(n, tail, home, tailBlock, pc) && !pc.Fill? && !pc.Publish?
    ensures FillOk(n, tail, home', tailBlock, pc)
  {}

  lemma GrabKeepsInv(cfg: Config, s: State, id: nat, completed: int)
    requires Inv(cfg, s) && s.producer.Grab? && id !in s.blocks
    ensures Inv(cfg, DoGrab(cfg, s, Some(id), completed))
  {
    hide CellsOk, CountsOk, PlacesOk, ReadsOk, ViewsOk, KeysUpToTail, TailBlockOk, Claims.Inv, HomeOk, FillOk, RoomOk;
    hide ShownOk;
    var n, first, pc := cfg.BlockSize(), FirstNew(cfg, s), s.producer;
    var B, pc' := first + |pc.chain|, Hook(pc.xs, pc.left, pc.chain, id);
    var block := Block(completed, Raw(n), B);
    GrabbedPlaceIsRight(cfg, s);
    InsertPlaceIsRight(cfg, s, pc');
    GrabKeepsHome(first, s.home, s.blocks, pc, id, block);
    GrabKeepsShown(n, first, s.index, s.home, pc, s.consumers, id);
    GrabKeepsKeys(n, first, s.index, s.home, pc, s.consumers, id);
    GrabKeepsCounts(n, first, s.c.head, s.home, s.blocks, pc, s.consumers, id, block);
    GrabKeepsCells(n, s.home, s.blocks, s.items, s.got, B, id, block);
    GrabKeepsViews(n, s.index, s.home, s.consumers, B, id);
    TailBlockStays(n, s.c.tail, s.home, s.tailBlock, B, id);
    FillIgnoresHome(n, s.c.tail, s.home, s.home[B := id], s.tailBlock, pc');
  }

  lemma NoBlockKeepsInv(cfg: Config, s: State)
    requires Inv(cfg, s) && s.producer.Grab?
    ensures Inv(cfg, s.(producer := UndoTail(s.producer.chain)))
  {
    hide CellsOk, CountsOk, PlacesOk, ReadsOk, ViewsOk, KeysUpToTail, TailBlockOk, Claims.Inv, HomeOk, ShownOk, IndexOk;
    var n, first, pc := cfg.BlockSize(), FirstNew(cfg, s), s.producer;
    StartMonotone(n, first, Allowed(first, pc));
    ProducerMoveKeepsInv(cfg, s, UndoTail(pc.chain));
  }

  // ---- Hooking the block in ----

  lemma HookLeavesNoStray(n: nat, first: nat, x: Idx.Index, home: Homes, pc: ProducerPc, consumers: seq<ConsumerPc>,
                          pc': ProducerPc, B: nat, p: nat)
    requires 0 < n && Idx.Inv(x) && p < |Idx.Current(x).ring| && B in home
    requires x.unsettled == Some(B) && KeyOf(x, B) == Some(B) && !Hidden(n, first, pc', consumers, B)
    requires forall b: nat :: b in home && b != B ==> Hidden(n, first, pc', consumers, b) == Hidden(n, first, pc, consumers, b)
    requires NoStray(n, first, x.entries[Idx.Current(x).ring[p]], x.unsettled, home, pc, consumers)
    ensures var x' := Idx.StoreValue(x, Idx.At(Idx.Current(x), B), Some(home[B]));
      NoStray(n, first, x'.entries[Idx.Current(x).ring[p]], x'.unsettled, home, pc', consumers)
  {
    assert Idx.WellFormed(x);
    hide Idx.Inv, Hidden;
    if x.entries[Idx.Current(x).ring[p]].key == Some(B) {
      KeyIsUnique(x, p, B);
    }
  }

  /** Storing the block in its entry shows that block, and changes nothing about the others. */
  lemma HookKeepsShown(n: nat, first: nat, x: Idx.Index, home: Homes, pc: ProducerPc, consumers: seq<ConsumerPc>,
                       pc': ProducerPc, B: nat)
    requires 0 < n && Idx.Inv(x) && B in home
    requires x.unsettled == Some(B) && !Hidden(n, first, pc', consumers, B)
    requires forall b: nat :: b in home && b != B ==> Hidden(n, first, pc', consumers, b) == Hidden(n, first, pc, consumers, b)
    requires ShownOk(n, first, x, home, pc, consumers)
    ensures ShownOk(n, first, Idx.StoreValue(x, Idx.At(Idx.Current(x), B), Some(home[B])), home, pc', consumers)
  {
    assert Idx.WellFormed(x);
    hide Idx.Inv, Hidden, NoStray;
    var x' := Idx.StoreValue(x, Idx.At(Idx.Current(x), B), Some(home[B]));
    forall p | 0 <= p < |Idx.Current(x').ring|
      ensures NoStray(n, first, x'.entries[Idx.Current(x').ring[p]], x'.unsettled, home, pc', consumers)
    {
      HookLeavesNoStray(n, first, x, home, pc, consumers, pc', B, p);
    }
    forall b: nat
      ensures KeyOf(x', b) == KeyOf(x, b)
      ensures b in home && Idx.Shows(x, b, home[b]) && b != B ==> Idx.Shows(x', b, home[b])
      ensures KeyOf(x, B) == Some(B) ==> Idx.Shows(x', B, home[B])
    {
      ValueAt(x, B, home[B], b);
    }
  }

  lemma ValueAt(x: Idx.Index, B: nat, block: nat, b: nat)
    requires Idx.WellFormed(x)
    ensures var x' := Idx.StoreValue(x, Idx.At(Idx.Current(x), B), Some(block));
      && Idx.WellFormed(x') && KeyOf(x', b) == KeyOf(x, b)
      && (KeyOf(x, b) == Some(b) && KeyOf(x, B) == Some(B) && b != B ==>
            x'.entries[Idx.At(Idx.Current(x'), b)] == x.entries[Idx.At(Idx.Current(x), b)])
      && (KeyOf(x, B) == Some(B) ==> Idx.Shows(x', B, block))
  {}

  lemma ValueKeepsKeys(n: nat, first: nat, x: Idx.Index, home: Homes, pc: ProducerPc, consumers: seq<ConsumerPc>,
                       pc': ProducerPc, e: nat, value: Option<nat>)
    requires 0 < n && Idx.WellFormed(x) && e < |x.entries|
    requires forall b: nat :: b in home && !Hidden(n, first, pc', consumers, b) ==>
      first <= b || !Hidden(n, first, pc, consumers, b)
    requires KeysUpToTail(n, first, x, home, pc, consumers)
    ensures Idx.WellFormed(Idx.StoreValue(x, e, value))
    ensures KeysUpToTail(n, first, Idx.StoreValue(x, e, value), home, pc', consumers)
  {
    hide Hidden;
    assert forall b: int :: KeyOf(Idx.StoreValue(x, e, value), b) == KeyOf(x, b);
    assert forall b: nat :: KeysFrom(x, b) ==> KeysFrom(Idx.StoreValue(x, e, value), b);
  }

  lemma ValueKeepsViews(n: nat, x: Idx.Index, home: Homes, consumers: seq<ConsumerPc>, e: nat, value: Option<nat>)
    requires 0 < n && Idx.WellFormed(x) && e < |x.entries| && ViewsOk(n, x, home, consumers)
    ensures Idx.WellFormed(Idx.StoreValue(x, e, value)) && ViewsOk(n, Idx.StoreValue(x, e, value), home, consumers)
  {
    hide ViewOk;
    SameKeysSameViews(n, x, Idx.StoreValue(x, e, value), home, consumers);
  }

  // No consumer has anything to do in a block beyond the tail.
  lemma NothingPending(cfg: Config, s: State, b: nat)
    requires Inv(cfg, s) && FirstNew(cfg, s) <= b
    ensures var n := cfg.BlockSize();
      && Below(s.c.head, Start(n, b), n) == 0 && Sum(UncountedIn(n, b), s.consumers) == 0
      && s.c.tail <= Start(n, b)
  {
    hide CellsOk, CountsOk, ReadsOk, HomeOk, FillOk, TailBlockOk, RoomOk, ProducerShape, ShownOk, KeysUpToTail, ViewsOk;
    hide IndexOk;
    var n := cfg.BlockSize();
    Claims.ClaimsAreSound(s.c);
    BlocksReach(n, s.c.tail);
    StartMonotone(n, FirstNew(cfg, s), b);
    forall t | 0 <= t < |s.consumers| ensures UncountedIn(n, b)(s.consumers[t]) == 0 {
      assert PlaceOk(cfg, s.c.head, s.consumers[t], s.c.pcs[t]);
    }
    SumZero(UncountedIn(n, b), s.consumers);
  }

  function Zeroed(blocks: Held, id: nat): Held
    requires id in blocks
  {
    blocks[id := blocks[id].(completed := 0)]
  }

  lemma HookKeepsCount(n: nat, first: nat, head: nat, home: Homes, blocks: Held, pc: ProducerPc,
                       consumers: seq<ConsumerPc>, pc': ProducerPc, b: nat)
    requires 0 < n && HomeOk(first, home, blocks, pc) && pc.Hook? && pc.block in blocks && !pc'.Hook?
    requires first + |pc.chain| in home && home[first + |pc.chain|] == pc.block
    requires BlockCountOk(n, first, head, home, blocks, pc, consumers, b)
    requires b == first + |pc.chain| ==> Below(head, Start(n, b), n) == 0 && Sum(UncountedIn(n, b), consumers) == 0
    ensures b in home ==> home[b] in Zeroed(blocks, pc.block)
    ensures BlockCountOk(n, first, head, home, Zeroed(blocks, pc.block), pc', consumers, b)
  {
    if b in home && b != first + |pc.chain| {
      NumbersAreDistinct(first, home, blocks, pc, b, first + |pc.chain|);
    }
    hide HomeOk;
  }

  lemma NumbersAreDistinct(first: nat, home: Homes, blocks: Held, pc: ProducerPc, a: nat, b: nat)
    requires HomeOk(first, home, blocks, pc) && a in home && b in home && a != b
    ensures home[a] != home[b] && home[a] in blocks && home[b] in blocks
  {}

  lemma HookKeepsCounts(cfg: Config, s: State, pc': ProducerPc)
    requires Inv(cfg, s) && s.producer.Hook? && s.producer.block in s.blocks && !pc'.Hook?
    ensures CountsOk(cfg.BlockSize(), FirstNew(cfg, s), s.c.head, s.home, Zeroed(s.blocks, s.producer.block), pc', s.consumers)
  {
    hide CellsOk, ReadsOk, FillOk, TailBlockOk, RoomOk, ProducerShape, ShownOk, KeysUpToTail, ViewsOk;
    hide IndexOk, PlacesOk, Claims.Inv, HomeOk;
    var n, first, B := cfg.BlockSize(), FirstNew(cfg, s), FirstNew(cfg, s) + |s.producer.chain|;
    NothingPending(cfg, s, B);
    HookKeepsHome(first, s.home, s.blocks, s.producer,
                  Room(s.producer.xs, s.producer.left, s.producer.chain + [s.producer.block]));
    var blocks' := Zeroed(s.blocks, s.producer.block);
    forall b: nat
      ensures b in s.home ==> s.home[b] in blocks'
      ensures BlockCountOk(n, first, s.c.head, s.home, blocks', pc', s.consumers, b)
    {
      assert BlockCountOk(n, first, s.c.head, s.home, s.blocks, s.producer, s.consumers, b);
      HookKeepsCount(n, first, s.c.head, s.home, s.blocks, s.producer, s.consumers, pc', b);
    }
  }

  lemma ZeroedKeepsCells(n: nat, home: Homes, blocks: Held, items: seq<Element>, got: map<nat, Element>, id: nat)
    requires 0 < n && id in blocks && CellsOk(n, home, blocks, items, got, [])
    ensures CellsOk(n, home, Zeroed(blocks, id), items, got, [])
  {
    assert forall i: nat, value :: CellIs(n, home, blocks, i, value) ==> CellIs(n, home, Zeroed(blocks, id), i, value);
  }

  lemma HookKeepsHome(first: nat, home: Homes, blocks: Held, pc: ProducerPc, pc': ProducerPc)
    requires HomeOk(first, home, blocks, pc) && pc.Hook? && (pc'.Room? || pc'.Fill? || pc'.Publish?)
    requires pc'.chain == pc.chain + [pc.block]
    ensures first + |pc.chain| in home && home[first + |pc.chain|] == pc.block && pc.block in blocks
    ensures HomeOk(first, home, Zeroed(blocks, pc.block), pc') && ChainAtHome(first, home, pc'.chain)
  {
    var chain := Chain(pc);
    assert chain == pc'.chain;
    forall j | 0 <= j < |chain| ensures first + j in home && home[first + j] == chain[j] {}
  }

  function AfterHook(cfg: Config, s: State): ProducerPc
    requires s.producer.Hook?
  {
    var Hook(xs, left, chain, b) := s.producer;
    if 0 < left then Room(xs, left, chain + [b]) else BeginFill(cfg, s, xs, chain + [b])
  }

  lemma HookedFillIsRight(cfg: Config, s: State)
    requires s.producer.Hook? && FillOk(cfg.BlockSize(), s.c.tail, s.home, s.tailBlock, s.producer)
    requires TailBlockOk(cfg.BlockSize(), s.c.tail, s.home, s.tailBlock)
    requires ChainAtHome(FirstNew(cfg, s), s.home, s.producer.chain + [s.producer.block])
    ensures var pc' := AfterHook(cfg, s);
      && (pc'.Room? || pc'.Fill? || pc'.Publish?) && pc'.chain == s.producer.chain + [s.producer.block]
      && Filled(pc') == [] && FillOk(cfg.BlockSize(), s.c.tail, s.home, s.tailBlock, pc')
  {
    hide TailBlockOk, ChainAtHome, BeginFill;
    var n, first, pc := cfg.BlockSize(), FirstNew(cfg, s), s.producer;
    if pc.left == 0 {
      SameStartSameBlock(n, first + |pc.chain| + 1, Blocks(n, s.c.tail + |pc.xs|));
      hide FillOk;
      BeginFillIsRight(cfg, s, s.home, pc.xs, pc.chain + [pc.block]);
      BeginFillShape(cfg, s, pc.xs, pc.chain + [pc.block]);
    }
  }

  lemma HookedPlaceIsRight(cfg: Config, s: State)
    requires Inv(cfg, s) && s.producer.Hook?
    ensures var n, first, pc' := cfg.BlockSize(), FirstNew(cfg, s), AfterHook(cfg, s);
      && (pc'.Room? || pc'.Fill? || pc'.Publish?) && pc'.chain == s.producer.chain + [s.producer.block]
      && Filled(pc') == [] && FillOk(n, s.c.tail, s.home, s.tailBlock, pc') && RoomOk(cfg, first, s.c.head, pc')
  {
    hide CellsOk, ReadsOk, RoomOk, ProducerShape, ShownOk, KeysUpToTail, ViewsOk, IndexOk, PlacesOk, Claims.Inv;
    hide CountsOk;
    hide TailBlockOk, BeginFill, FillOk, HomeOk;
    var first, pc := FirstNew(cfg, s), s.producer;
    HookKeepsHome(first, s.home, s.blocks, pc, Room(pc.xs, pc.left, pc.chain + [pc.block]));
    HookedFillIsRight(cfg, s);
    RoomStays(cfg, first, s.c.head, pc, AfterHook(cfg, s));
  }

  lemma RoomStays(cfg: Config, first: nat, head: nat, pc: ProducerPc, pc': ProducerPc)
    requires 1 <= cfg.w && RoomOk(cfg, first, head, pc) && Allowed(first, pc') == Allowed(first, pc)
    ensures RoomOk(cfg, first, head, pc')
  {}

  lemma HookFindsEntry(cfg: Config, s: State)
    requires Inv(cfg, s) && s.producer.Hook?
    ensures var B := FirstNew(cfg, s) + |s.producer.chain|;
      && B in s.home && s.home[B] == s.producer.block && s.producer.block in s.blocks
      && TailEntry(s) == Idx.At(Idx.Current(s.index), B) && s.index.unsettled == Some(B) && s.index.inserted == B + 1
      && KeyOf(s.index, B) == Some(B) && CanProduce(cfg, s)
  {
    hide CellsOk, ReadsOk, RoomOk, KeysUpToTail, ViewsOk, PlacesOk, Claims.Inv, CountsOk, FillOk;
    hide TailBlockOk, Hidden, NoStray;
    HookedIsHome(cfg, s);
  }

  lemma HookedIsHome(cfg: Config, s: State)
    requires Inv(cfg, s) && s.producer.Hook?
    ensures var B := FirstNew(cfg, s) + |s.producer.chain|;
      B in s.home && s.home[B] == s.producer.block && s.producer.block in s.blocks
  {
    hide CellsOk, ReadsOk, RoomOk, KeysUpToTail, ViewsOk, PlacesOk, Claims.Inv, CountsOk, FillOk, IndexOk, ShownOk;
    hide TailBlockOk, Hidden, NoStray, ProducerShape;
    HookKeepsHome(FirstNew(cfg, s), s.home, s.blocks, s.producer,
                  Room(s.producer.xs, s.producer.left, s.producer.chain + [s.producer.block]));
  }

  lemma HookHides(cfg: Config, s: State, pc': ProducerPc)
    requires Inv(cfg, s) && s.producer.Hook? && (pc'.Room? || pc'.Fill? || pc'.Publish?)
    ensures var n, first, B := cfg.BlockSize(), FirstNew(cfg, s), FirstNew(cfg, s) + |s.producer.chain|;
      && !Hidden(n, first, pc', s.consumers, B)
      && forall b: nat :: b in s.home && b != B ==>
           Hidden(n, first, pc', s.consumers, b) == Hidden(n, first, s.producer, s.consumers, b)
  {
    hide CellsOk, ReadsOk, RoomOk, KeysUpToTail, ViewsOk, PlacesOk, Claims.Inv, CountsOk, FillOk, ShownOk, IndexOk;
    hide TailBlockOk;
  }

  lemma HookKeepsInv(cfg: Config, s: State)
    requires Inv(cfg, s) && s.producer.Hook?
    ensures CanProduce(cfg, s) && Inv(cfg, DoHook(cfg, s))
  {
    hide CellsOk, ReadsOk, RoomOk, KeysUpToTail, ViewsOk, PlacesOk, Claims.Inv, CountsOk, FillOk, ShownOk, HomeOk;
    hide TailBlockOk, Hidden, BeginFill;
    var n, first, B := cfg.BlockSize(), FirstNew(cfg, s), FirstNew(cfg, s) + |s.producer.chain|;
    var pc' := AfterHook(cfg, s);
    HookFindsEntry(cfg, s);
    HookedPlaceIsRight(cfg, s);
    HookHides(cfg, s, pc');
    HookKeepsHome(first, s.home, s.blocks, s.producer, pc');
    var e := Idx.At(Idx.Current(s.index), B);
    Idx.StoreValueKeepsInv(s.index, e, Some(s.home[B]));
    HookKeepsShown(n, first, s.index, s.home, s.producer, s.consumers, pc', B);
    ValueKeepsKeys(n, first, s.index, s.home, s.producer, s.consumers, pc', e, Some(s.home[B]));
    ValueKeepsViews(n, s.index, s.home, s.consumers, e, Some(s.home[B]));
    HookKeepsCounts(cfg, s, pc');
    ZeroedKeepsCells(n, s.home, s.blocks, s.items, s.got, s.producer.block);
  }
}
