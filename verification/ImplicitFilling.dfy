/** Constructing the elements of an enqueue in their slots and publishing them keep the invariant of the implicit
    producer machine. */
module ImplicitFilling {
  import opened Common
  import opened Words
  import opened BlockMath
  import opened ImplicitProducer
  import opened ImplicitInvariant
  import opened ImplicitConsumers
  import opened ImplicitReturns
  import opened ImplicitAllocation
  import opened ImplicitHooking
  import Claims = DequeueClaims
  import Idx = ImplicitIndex

  // ---- One element ----

  function Stored(n: nat, blocks: Held, id: nat, i: nat, value: Option<Element>): Held
    requires 0 < n && id in blocks && Offset(n, i) < |blocks[id].cells|
  {
    blocks[id := blocks[id].(cells := blocks[id].cells[Offset(n, i) := value])]
  }

  // Index i has its slot in block `current`.
  ghost predicate SlotOf(n: nat, home: Homes, blocks: Held, current: Option<nat>, i: nat)
    requires 0 < n
  {
    && Number(n, i) in home && current == Some(home[Number(n, i)]) && home[Number(n, i)] in blocks
    && |blocks[home[Number(n, i)]].cells| == n && Offset(n, i) < n
  }

  /** The block being filled is the one its element belongs in. */
  lemma FillFindsBlock(cfg: Config, s: State)
    requires Inv(cfg, s) && s.producer.Fill?
    ensures CanProduce(cfg, s)
    ensures SlotOf(cfg.BlockSize(), s.home, s.blocks, s.producer.current, s.c.tail + s.producer.done)
  {
    hide CountsOk, PlacesOk, ReadsOk, ViewsOk, KeysUpToTail, TailBlockOk, Claims.Inv, RoomOk, ShownOk, ProducerShape;
    hide CellIs;
    Within(cfg.BlockSize(), s.c.tail + s.producer.done);
  }

  lemma StoredKeepsOther(n: nat, first: nat, home: Homes, blocks: Held, pc: ProducerPc, i: nat, j: nat,
                         value: Option<Element>, value': Option<Element>)
    requires 0 < n && HomeOk(first, home, blocks, pc) && pc.Fill? && i != j && CellIs(n, home, blocks, j, value)
    requires SlotOf(n, home, blocks, pc.current, i)
    ensures CellIs(n, home, Stored(n, blocks, home[Number(n, i)], i, value'), j, value)
  {
    if home[Number(n, j)] == home[Number(n, i)] {
      NumbersAreUnique(first, home, blocks, pc, Number(n, j), Number(n, i));
    }
    OtherCell(n, home, blocks, i, j, value, value');
  }

  lemma FillKeepsCells(n: nat, first: nat, home: Homes, blocks: Held, items: seq<Element>, got: map<nat, Element>,
                       pc: ProducerPc, xs: seq<Element>, done: nat)
    requires 0 < n && HomeOk(first, home, blocks, pc) && pc.Fill? && done < |xs|
    requires CellsOk(n, home, blocks, items, got, xs[..done])
    requires SlotOf(n, home, blocks, pc.current, |items| + done)
    ensures CellsOk(n, home, Stored(n, blocks, home[Number(n, |items| + done)], |items| + done, Some(xs[done])), items, got,
                    xs[..done + 1])
  {
    hide HomeOk, CellIs, Stored;
    var i := |items| + done;
    var blocks' := Stored(n, blocks, home[Number(n, i)], i, Some(xs[done]));
    OthersSurvive(n, first, home, blocks, pc, i, Some(xs[done]));
    var filled := xs[..done + 1];
    forall j | 0 <= j < |filled| ensures CellIs(n, home, blocks', |items| + j, Some(filled[j])) {
      if j < done {
        assert xs[..done][j] == filled[j];
        assert CellIs(n, home, blocks, |items| + j, Some(xs[..done][j]));
      }
    }
  }

  lemma OthersSurvive(n: nat, first: nat, home: Homes, blocks: Held, pc: ProducerPc, i: nat, value': Option<Element>)
    requires 0 < n && HomeOk(first, home, blocks, pc) && pc.Fill? && SlotOf(n, home, blocks, pc.current, i)
    requires forall id :: id in blocks ==> |blocks[id].cells| == n
    ensures var blocks' := Stored(n, blocks, home[Number(n, i)], i, value');
      && (forall id :: id in blocks' ==> |blocks'[id].cells| == n)
      && CellIs(n, home, blocks', i, value')
      && forall j: nat, value :: j != i && CellIs(n, home, blocks, j, value) ==> CellIs(n, home, blocks', j, value)
  {
    var blocks' := Stored(n, blocks, home[Number(n, i)], i, value');
    forall j: nat, value | j != i && CellIs(n, home, blocks, j, value) ensures CellIs(n, home, blocks', j, value) {
      StoredKeepsOther(n, first, home, blocks, pc, i, j, value, value');
    }
  }

  lemma StoredKeepsHome(n: nat, first: nat, home: Homes, blocks: Held, pc: ProducerPc, id: nat, i: nat,
                        value: Option<Element>, pc': ProducerPc)
    requires 0 < n && id in blocks && Offset(n, i) < |blocks[id].cells| && HomeOk(first, home, blocks, pc)
    requires Chain(pc') == Chain(pc) && Returned(pc') == Returned(pc)
    ensures HomeOk(first, home, Stored(n, blocks, id, i, value), pc')
  {}

  lemma StoredKeepsCounts(cfg: Config, s: State, id: nat, i: nat, value: Option<Element>, pc': ProducerPc)
    requires Inv(cfg, s) && !s.producer.Hook? && !pc'.Hook? && id in s.blocks
    requires Offset(cfg.BlockSize(), i) < |s.blocks[id].cells|
    ensures CountsOk(cfg.BlockSize(), FirstNew(cfg, s), s.c.head, s.home, Stored(cfg.BlockSize(), s.blocks, id, i, value), pc',
                     s.consumers)
  {
    hide CellsOk, PlacesOk, ReadsOk, ViewsOk, KeysUpToTail, TailBlockOk, Claims.Inv, RoomOk, ShownOk, ProducerShape;
    hide FillOk, HomeOk, IndexOk;
    var n, first := cfg.BlockSize(), FirstNew(cfg, s);
    var blocks' := Stored(n, s.blocks, id, i, value);
    forall b: nat
      ensures b in s.home ==> s.home[b] in blocks'
      ensures BlockCountOk(n, first, s.c.head, s.home, blocks', pc', s.consumers, b)
    {
      assert BlockCountOk(n, first, s.c.head, s.home, s.blocks, s.producer, s.consumers, b);
    }
  }

  // The place after the element: the next slot, the next block, or the store of the tail.
  function AfterFill(n: nat, tail: nat, pc: ProducerPc): ProducerPc
    requires 0 < n && pc.Fill? && pc.done < |pc.xs|
  {
    var Fill(xs, chain, done, current, rest) := pc;
    if done + 1 == |xs| then Publish(xs, chain, current)
    else if Offset(n, tail + done + 1) == 0 && |rest| > 0 then Fill(xs, chain, done + 1, Some(rest[0]), rest[1..])
    else Fill(xs, chain, done + 1, current, rest)
  }

  // Going from one index to the next stays in the block or enters the one after it.
  lemma NextIndexBlock(n: nat, i: nat)
    requires 0 < n
    ensures Number(n, i + 1) == if Offset(n, i + 1) == 0 then Number(n, i) + 1 else Number(n, i)
  {
    var b := Number(n, i);
    Within(n, i);
    StartMoves(n, b);
    if i + 1 < Start(n, b) + n {
      WithinOnly(n, i + 1, b);
    } else {
      WithinOnly(n, i + 1, b + 1);
    }
  }

  lemma LastBlock(n: nat, t: nat)
    requires 0 < n && 0 < t
    ensures Blocks(n, t) == Number(n, t - 1) + 1
  {}

  lemma FillMovesOnInside(n: nat, first: nat, tail: nat, home: Homes, blocks: Held, pc: ProducerPc)
    requires 0 < n && pc.Fill? && HomeOk(first, home, blocks, pc) && pc.done + 1 < |pc.xs|
    requires FillsBlock(first, home, pc.chain, Number(n, tail + pc.done), pc.current, pc.rest)
    requires Blocks(n, tail + |pc.xs|) == first + |pc.chain|
    ensures var pc' := AfterFill(n, tail, pc);
      pc'.Fill? && FillsBlock(first, home, pc.chain, Number(n, tail + pc.done + 1), pc'.current, pc'.rest)
  {
    hide HomeOk, Number, Offset, Blocks;
    NextIndexBlock(n, tail + pc.done);
    NumberMonotone(n, tail + pc.done + 1, tail + |pc.xs| - 1);
    LastBlock(n, tail + |pc.xs|);
    if Offset(n, tail + pc.done + 1) == 0 {
      RestIsNext(first, home, blocks, pc, Number(n, tail + pc.done));
    }
  }

  lemma FillEnds(n: nat, first: nat, tail: nat, home: Homes, pc: ProducerPc)
    requires 0 < n && pc.Fill? && pc.done + 1 == |pc.xs|
    requires FillsBlock(first, home, pc.chain, Number(n, tail + pc.done), pc.current, pc.rest)
    requires Blocks(n, tail + |pc.xs|) == first + |pc.chain|
    ensures FillsBlock(first, home, pc.chain, Number(n, tail + |pc.xs| - 1), pc.current, [])
  {
    hide Number, Blocks;
    LastBlock(n, tail + |pc.xs|);
    assert tail + |pc.xs| - 1 == tail + pc.done;
    assert pc.rest == [];
  }

  /** When a block is full its successor in the call is there, and it is the block of the next element. */
  lemma FillMovesOn(n: nat, first: nat, tail: nat, home: Homes, blocks: Held, tailBlock: Option<nat>, pc: ProducerPc)
    requires 0 < n && pc.Fill? && HomeOk(first, home, blocks, pc) && FillOk(n, tail, home, tailBlock, pc)
    requires first == Blocks(n, tail)
    ensures pc.done < |pc.xs| && FillOk(n, tail, home, tailBlock, AfterFill(n, tail, pc))
  {
    hide HomeOk, Number, Blocks, Offset, FillsBlock;
    if pc.done + 1 < |pc.xs| {
      FillMovesOnInside(n, first, tail, home, blocks, pc);
    } else {
      FillEnds(n, first, tail, home, pc);
    }
  }

  lemma RestIsNext(first: nat, home: Homes, blocks: Held, pc: ProducerPc, b: nat)
    requires pc.Fill? && HomeOk(first, home, blocks, pc) && FillsBlock(first, home, pc.chain, b, pc.current, pc.rest)
    requires 0 < |pc.rest|
    ensures FillsBlock(first, home, pc.chain, b + 1, Some(pc.rest[0]), pc.rest[1..])
  {
    var chain, rest := pc.chain, pc.rest;
    assert b + 1 == first + (|chain| - |rest|);
    assert b + 1 in home;
    assert rest[0] == chain[|chain| - |rest|];
    assert rest[1..] == chain[|chain| - |rest| + 1..];
  }

  lemma FillShape(n: nat, first: nat, tail: nat, x: Idx.Index, pc: ProducerPc)
    requires 0 < n && pc.Fill? && pc.done < |pc.xs| && ProducerShape(first, x, pc)
    ensures var pc' := AfterFill(n, tail, pc);
      && ProducerShape(first, x, pc') && Chain(pc') == Chain(pc) && Returned(pc') == Returned(pc)
      && (forall j: nat :: NotShown(pc', j) == NotShown(pc, j)) && Filled(pc') == pc.xs[..pc.done + 1]
      && Allowed(first, pc') == Allowed(first, pc) && !pc'.Hook?
  {}

  lemma FillKeepsInv(cfg: Config, s: State, supply: Supply)
    requires Inv(cfg, s) && s.producer.Fill?
    ensures CanProduce(cfg, s) && Inv(cfg, ProducerStep(cfg, s, supply))
  {
    hide CellsOk, PlacesOk, ReadsOk, ViewsOk, KeysUpToTail, TailBlockOk, Claims.Inv, RoomOk, ShownOk, ProducerShape;
    hide FillOk, HomeOk, IndexOk, CountsOk;
    var n, first, pc := cfg.BlockSize(), FirstNew(cfg, s), s.producer;
    FillFindsBlock(cfg, s);
    FillMovesOn(n, first, s.c.tail, s.home, s.blocks, s.tailBlock, pc);
    FillShape(n, first, s.c.tail, s.index, pc);
    var pc' := AfterFill(n, s.c.tail, pc);
    var i, value := s.c.tail + pc.done, Some(pc.xs[pc.done]);
    var id := s.home[Number(n, i)];
    StoredKeepsHome(n, first, s.home, s.blocks, pc, id, i, value, pc');
    StoredKeepsCounts(cfg, s, id, i, value, pc');
    ProducerMoveKeeps(cfg, s, pc');
    FillKeepsCells(n, first, s.home, s.blocks, s.items, s.got, pc, pc.xs, pc.done);
    RoomStays(cfg, first, s.c.head, pc, pc');
  }

  // ---- Publishing ----

  lemma PublishedPlaceIsRight(cfg: Config, s: State)
    requires Inv(cfg, s) && s.producer.Publish?
    ensures var n, tail' := cfg.BlockSize(), s.c.tail + |s.producer.xs|;
      && Blocks(n, tail') == FirstNew(cfg, s) + |s.producer.chain|
      && TailBlockOk(n, tail', s.home, s.producer.current)
      && FillOk(n, tail', s.home, s.producer.current, Ready)
      && RoomOk(cfg, Blocks(n, tail'), s.c.head, Ready)
  {
    hide CellsOk, PlacesOk, ReadsOk, ViewsOk, KeysUpToTail, Claims.Inv, ShownOk, ProducerShape, HomeOk, IndexOk;
    hide CountsOk;
    var n, xs := cfg.BlockSize(), s.producer.xs;
    var tail' := s.c.tail + |xs|;
    if |xs| > 0 {
      NextIndexBlock(n, tail' - 1);
      Within(n, tail');
    }
  }

  lemma PublishKeepsShape(first: nat, first': nat, x: Idx.Index, home: Homes, blocks: Held, pc: ProducerPc)
    requires pc.Publish? && first' == first + |pc.chain|
    requires ProducerShape(first, x, pc) && HomeOk(first, home, blocks, pc)
    ensures ProducerShape(first', x, Ready) && HomeOk(first', home, blocks, Ready)
    ensures forall b: nat :: b in home ==> b < first'
    ensures forall b: nat :: first <= b < first' ==> b in home
  {}

  // In a block just published nothing has been claimed, so nobody is returning it.
  lemma NewBlockQuiet(cfg: Config, s: State, b: nat)
    requires Inv(cfg, s) && FirstNew(cfg, s) <= b
    ensures var n := cfg.BlockSize();
      && Sum(Finishing(n, b), s.consumers) == Sum(Cleared(n, b), s.consumers) == 0
      && Below(s.c.head, Start(n, b), n) == 0 && Sum(UncountedIn(n, b), s.consumers) == 0
  {
    hide CellsOk, PlacesOk, ReadsOk, ViewsOk, KeysUpToTail, Claims.Inv, ShownOk, ProducerShape, HomeOk, IndexOk, FillOk;
    hide RoomOk, TailBlockOk;
    NothingPending(cfg, s, b);
    assert BlockCountOk(cfg.BlockSize(), FirstNew(cfg, s), s.c.head, s.home, s.blocks, s.producer, s.consumers, b);
  }

  lemma PublishKeepsCounts(cfg: Config, s: State, first': nat)
    requires Inv(cfg, s) && s.producer.Publish? && first' == FirstNew(cfg, s) + |s.producer.chain|
    ensures CountsOk(cfg.BlockSize(), first', s.c.head, s.home, s.blocks, Ready, s.consumers)
  {
    hide CellsOk, PlacesOk, ReadsOk, ViewsOk, KeysUpToTail, Claims.Inv, ShownOk, IndexOk, FillOk;
    hide RoomOk, TailBlockOk;
    var n, first := cfg.BlockSize(), FirstNew(cfg, s);
    PublishKeepsShape(first, first', s.index, s.home, s.blocks, s.producer);
    hide ProducerShape, HomeOk;
    forall b: nat
      ensures b in s.home ==> s.home[b] in s.blocks
      ensures BlockCountOk(n, first', s.c.head, s.home, s.blocks, Ready, s.consumers, b)
    {
      assert BlockCountOk(n, first, s.c.head, s.home, s.blocks, s.producer, s.consumers, b);
      if first <= b {
        NewBlockQuiet(cfg, s, b);
      }
    }
  }

  lemma ShownByNumber(n: nat, first: nat, first': nat, x: Idx.Index, home: Homes, pc: ProducerPc, consumers: seq<ConsumerPc>,
                      pc': ProducerPc)
    requires 0 < n && Idx.WellFormed(x) && first <= first'
    requires forall b: nat :: b in home ==> Hidden(n, first', pc', consumers, b) == Hidden(n, first, pc, consumers, b)
    requires ShownOk(n, first, x, home, pc, consumers) && KeysUpToTail(n, first, x, home, pc, consumers)
    ensures ShownOk(n, first', x, home, pc', consumers) && KeysUpToTail(n, first', x, home, pc', consumers)
  {
    hide Hidden, KeysFrom;
    forall p | 0 <= p < |Idx.Current(x).ring|
      ensures NoStray(n, first', x.entries[Idx.Current(x).ring[p]], x.unsettled, home, pc', consumers)
    {
      assert NoStray(n, first, x.entries[Idx.Current(x).ring[p]], x.unsettled, home, pc, consumers);
    }
  }

  lemma PublishKeepsShown(cfg: Config, s: State, first': nat)
    requires Inv(cfg, s) && s.producer.Publish? && first' == FirstNew(cfg, s) + |s.producer.chain|
    ensures ShownOk(cfg.BlockSize(), first', s.index, s.home, Ready, s.consumers)
    ensures KeysUpToTail(cfg.BlockSize(), first', s.index, s.home, Ready, s.consumers)
  {
    hide CellsOk, PlacesOk, ReadsOk, ViewsOk, KeysUpToTail, Claims.Inv, ShownOk, FillOk, CountsOk;
    hide RoomOk, TailBlockOk;
    var n, first := cfg.BlockSize(), FirstNew(cfg, s);
    PublishKeepsShape(first, first', s.index, s.home, s.blocks, s.producer);
    hide ProducerShape, HomeOk;
    forall b: nat | b in s.home
      ensures Hidden(n, first', Ready, s.consumers, b) == Hidden(n, first, s.producer, s.consumers, b)
    {
      if first <= b {
        NewBlockQuiet(cfg, s, b);
      }
    }
    ShownByNumber(n, first, first', s.index, s.home, s.producer, s.consumers, Ready);
  }

  lemma PublishKeepsCells(n: nat, home: Homes, blocks: Held, items: seq<Element>, got: map<nat, Element>, xs: seq<Element>)
    requires 0 < n && CellsOk(n, home, blocks, items, got, xs)
    ensures CellsOk(n, home, blocks, items + xs, got, [])
  {
    hide CellIs;
    forall i: nat | i < |items + xs| && i !in got ensures CellIs(n, home, blocks, i, Some((items + xs)[i])) {
      if |items| <= i {
        assert CellIs(n, home, blocks, |items| + (i - |items|), Some(xs[i - |items|]));
      }
    }
  }

  lemma PublishKeepsInv(cfg: Config, s: State)
    requires Inv(cfg, s) && s.producer.Publish?
    ensures Inv(cfg, DoPublish(cfg, s))
  {
    hide CellsOk, PlacesOk, ReadsOk, ViewsOk, KeysUpToTail, Claims.Inv, ShownOk, FillOk, CountsOk;
    hide RoomOk, TailBlockOk, ProducerShape, HomeOk, IndexOk;
    var n, first, pc := cfg.BlockSize(), FirstNew(cfg, s), s.producer;
    var first' := first + |pc.chain|;
    Claims.StepKeepsInv(cfg.w, s.c, Claims.Publish(|pc.xs|));
    PublishedPlaceIsRight(cfg, s);
    PublishKeepsShape(first, first', s.index, s.home, s.blocks, pc);
    PublishKeepsCounts(cfg, s, first');
    PublishKeepsShown(cfg, s, first');
    PublishKeepsCells(n, s.home, s.blocks, s.items, s.got, pc.xs);
  }
}
