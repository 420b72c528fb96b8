/** Every step of a consumer keeps the invariant of the implicit producer machine. */
module ImplicitConsumers {
  import opened Common
  import opened Words
  import opened BlockMath
  import opened ImplicitProducer
  import opened ImplicitInvariant
  import Claims = DequeueClaims
  import Idx = ImplicitIndex

  // ---- What the counts say ----

  lemma WeightsAreNatural(cfg: Config, head: nat, consumers: seq<ConsumerPc>, claims: seq<Claims.Pc>, b: nat)
    requires 1 <= cfg.w && PlacesOk(cfg, head, consumers, claims)
    ensures forall t :: 0 <= t < |consumers| ==>
      && 0 <= UncountedIn(cfg.BlockSize(), b)(consumers[t])
      && 0 <= Finishing(cfg.BlockSize(), b)(consumers[t])
      && 0 <= Cleared(cfg.BlockSize(), b)(consumers[t])
  {
    forall t | 0 <= t < |consumers|
      ensures 0 <= UncountedIn(cfg.BlockSize(), b)(consumers[t])
    {
      assert PlaceOk(cfg, head, consumers[t], claims[t]);
    }
  }

  lemma PublishedBlock(n: nat, tail: nat, i: nat)
    requires 0 < n && i < tail
    ensures Number(n, i) < Blocks(n, tail)
  {
    NumberMonotone(n, i, tail - 1);
  }

  /** A block in which some consumer still has elements to report is held, published and shown. */
  lemma ClaimedBlockIsShown(cfg: Config, s: State, t: nat, i: nat)
    requires Inv(cfg, s) && t < |s.consumers| && Lo(s.consumers[t]) <= i < Hi(s.consumers[t])
    ensures var n, b := cfg.BlockSize(), Number(cfg.BlockSize(), i);
      && b in s.home && b < FirstNew(cfg, s) <= s.index.inserted
      && Sum(Finishing(n, b), s.consumers) == Sum(Cleared(n, b), s.consumers) == 0
  {
    hide CellsOk, ReadsOk, ShownOk, HomeOk, FillOk, KeysUpToTail, RoomOk, IndexOk, ViewsOk;
    var n := cfg.BlockSize();
    var b := Number(n, i);
    Claims.ClaimsAreSound(s.c);
    assert PlaceOk(cfg, s.c.head, s.consumers[t], s.c.pcs[t]);
    Within(n, i);
    PublishedBlock(n, s.c.tail, i);
    WeightsAreNatural(cfg, s.c.head, s.consumers, s.c.pcs, b);
    SumBoundsMember(UncountedIn(n, b), s.consumers, t);
    assert BlockCountOk(n, FirstNew(cfg, s), s.c.head, s.home, s.blocks, s.producer, s.consumers, b);
  }

  /** Such a block can be looked up: its entry shows it, and no entry from there to the tail lacks a key. */
  lemma ClaimedBlockHasKey(cfg: Config, s: State, t: nat, i: nat)
    requires Inv(cfg, s) && t < |s.consumers| && Lo(s.consumers[t]) <= i < Hi(s.consumers[t])
    ensures var b := Number(cfg.BlockSize(), i);
      && b in s.home && b < s.index.inserted && Idx.Shows(s.index, b, s.home[b])
      && KeysFrom(s.index, b)
  {
    ClaimedBlockIsShown(cfg, s, t, i);
    var n := cfg.BlockSize();
    assert !Hidden(n, FirstNew(cfg, s), s.producer, s.consumers, Number(n, i));
  }

  // ---- Steps that only load ----

  // Not a step by which a block is counted, cleared or returned.
  ghost predicate SameWeights(pc: ConsumerPc, pc': ConsumerPc) {
    && Lo(pc) == Lo(pc') && Hi(pc) == Hi(pc')
    && !pc.ClearEntry? && !pc'.ClearEntry? && !pc.FreeBlock? && !pc'.FreeBlock?
  }

  lemma SameWeightsSameSums(n: nat, consumers: seq<ConsumerPc>, t: nat, pc': ConsumerPc, b: nat)
    requires 0 < n && t < |consumers| && SameWeights(consumers[t], pc')
    ensures var after := consumers[t := pc'];
      && Sum(UncountedIn(n, b), after) == Sum(UncountedIn(n, b), consumers)
      && Sum(Finishing(n, b), after) == Sum(Finishing(n, b), consumers)
      && Sum(Cleared(n, b), after) == Sum(Cleared(n, b), consumers)
  {
    SumUpdate(UncountedIn(n, b), consumers, t, pc');
    SumUpdate(Finishing(n, b), consumers, t, pc');
    SumUpdate(Cleared(n, b), consumers, t, pc');
  }

  lemma QuietKeepsCounts(cfg: Config, s: State, t: nat, pc': ConsumerPc, blocks': Held)
    requires Inv(cfg, s) && t < |s.consumers| && SameWeights(s.consumers[t], pc')
    requires forall id :: id in s.blocks ==> id in blocks' && blocks'[id].completed == s.blocks[id].completed
    ensures CountsOk(cfg.BlockSize(), FirstNew(cfg, s), s.c.head, s.home, blocks', s.producer, s.consumers[t := pc'])
  {
    hide CellsOk, ReadsOk, ShownOk, HomeOk, FillOk, KeysUpToTail, RoomOk, IndexOk, ViewsOk, PlacesOk;
    var n, first, after := cfg.BlockSize(), FirstNew(cfg, s), s.consumers[t := pc'];
    forall b: nat ensures (b in s.home ==> s.home[b] in blocks') &&
                          BlockCountOk(n, first, s.c.head, s.home, blocks', s.producer, after, b)
    {
      assert BlockCountOk(n, first, s.c.head, s.home, s.blocks, s.producer, s.consumers, b);
      SameWeightsSameSums(n, s.consumers, t, pc', b);
    }
  }

  // Not a step by which an element is taken.
  ghost predicate SameUnread(pc: ConsumerPc, pc': ConsumerPc) {
    (Next(pc) == Next(pc') && Hi(pc) == Hi(pc')) || (Next(pc) >= Hi(pc) && Next(pc') >= Hi(pc'))
  }

  lemma QuietKeepsReads(head: nat, consumers: seq<ConsumerPc>, got: map<nat, Element>, t: nat, pc': ConsumerPc)
    requires t < |consumers| && ReadsOk(head, consumers, got) && SameUnread(consumers[t], pc')
    ensures ReadsOk(head, consumers[t := pc'], got)
  {
    forall i: nat ensures Sum(UnreadAt(i), consumers[t := pc']) + One(i in got) == One(i < head) {
      SumUpdate(UnreadAt(i), consumers, t, pc');
    }
  }

  lemma QuietKeepsShown(cfg: Config, s: State, after: seq<ConsumerPc>)
    requires Inv(cfg, s)
    requires forall b: nat :: Sum(Cleared(cfg.BlockSize(), b), after) == Sum(Cleared(cfg.BlockSize(), b), s.consumers)
    ensures var n, first := cfg.BlockSize(), FirstNew(cfg, s);
      && ShownOk(n, first, s.index, s.home, s.producer, after)
      && KeysUpToTail(n, first, s.index, s.home, s.producer, after)
  {
    hide CellsOk, ReadsOk, ShownOk, HomeOk, FillOk, KeysUpToTail, RoomOk, ViewsOk, PlacesOk, CountsOk;
    var n, first := cfg.BlockSize(), FirstNew(cfg, s);
    SameHiddenSameShown(n, first, s.index, s.home, s.producer, s.consumers, s.producer, after);
  }

  lemma SameWeightsSameCleared(n: nat, consumers: seq<ConsumerPc>, t: nat, pc': ConsumerPc)
    requires 0 < n && t < |consumers| && SameWeights(consumers[t], pc')
    ensures forall b: nat :: Sum(Cleared(n, b), consumers[t := pc']) == Sum(Cleared(n, b), consumers)
  {
    forall b: nat ensures Sum(Cleared(n, b), consumers[t := pc']) == Sum(Cleared(n, b), consumers) {
      SameWeightsSameSums(n, consumers, t, pc', b);
    }
  }

  // What the index shows depends on the other parts only through which held blocks are hidden.
  lemma SameHiddenSameShown(n: nat, first: nat, x: Idx.Index, home: Homes, pc: ProducerPc, consumers: seq<ConsumerPc>,
                            pc': ProducerPc, after: seq<ConsumerPc>)
    requires 0 < n && Idx.WellFormed(x)
    requires forall b: nat :: b in home ==> Hidden(n, first, pc', after, b) == Hidden(n, first, pc, consumers, b)
    requires ShownOk(n, first, x, home, pc, consumers) && KeysUpToTail(n, first, x, home, pc, consumers)
    ensures ShownOk(n, first, x, home, pc', after) && KeysUpToTail(n, first, x, home, pc', after)
  {
    hide Hidden;
    forall p | 0 <= p < |Idx.Current(x).ring|
      ensures NoStray(n, first, x.entries[Idx.Current(x).ring[p]], x.unsettled, home, pc', after)
    {
      assert NoStray(n, first, x.entries[Idx.Current(x).ring[p]], x.unsettled, home, pc, consumers);
    }
  }

  lemma MoveKeepsPlaces(cfg: Config, s: State, t: nat, pc': ConsumerPc)
    requires Inv(cfg, s) && t < |s.consumers| && PlaceOk(cfg, s.c.head, pc', s.c.pcs[t])
    ensures PlacesOk(cfg, s.c.head, s.consumers[t := pc'], s.c.pcs)
  {
    forall u | 0 <= u < |s.consumers| ensures PlaceOk(cfg, s.c.head, s.consumers[t := pc'][u], s.c.pcs[u]) {
      if u != t {
        assert PlaceOk(cfg, s.c.head, s.consumers[u], s.c.pcs[u]);
      }
    }
  }

  lemma MoveKeepsViews(n: nat, x: Idx.Index, home: Homes, consumers: seq<ConsumerPc>, t: nat, pc': ConsumerPc)
    requires 0 < n && Idx.WellFormed(x) && t < |consumers| && ViewsOk(n, x, home, consumers) && ViewOk(n, x, home, pc')
    ensures ViewsOk(n, x, home, consumers[t := pc'])
  {
    var after := consumers[t := pc'];
    forall u | 0 <= u < |after| ensures ViewOk(n, x, home, after[u]) {
      assert ViewOk(n, x, home, consumers[u]);
    }
  }

  /** A step that only loads keeps the invariant if what it loaded is right. */
  lemma QuietKeepsInv(cfg: Config, s: State, t: nat, pc': ConsumerPc)
    requires Inv(cfg, s) && t < |s.consumers| && SameWeights(s.consumers[t], pc')
    requires Next(s.consumers[t]) == Next(pc')
    requires PlaceOk(cfg, s.c.head, pc', s.c.pcs[t]) && ViewOk(cfg.BlockSize(), s.index, s.home, pc')
    ensures Inv(cfg, s.(consumers := s.consumers[t := pc']))
  {
    hide CellsOk, ReadsOk, ShownOk, HomeOk, FillOk, KeysUpToTail, RoomOk, ViewsOk, PlacesOk;
    QuietKeepsCounts(cfg, s, t, pc', s.blocks);
    hide CountsOk;
    QuietKeepsReads(s.c.head, s.consumers, s.got, t, pc');
    SameWeightsSameCleared(cfg.BlockSize(), s.consumers, t, pc');
    QuietKeepsShown(cfg, s, s.consumers[t := pc']);
    MoveKeepsPlaces(cfg, s, t, pc');
    MoveKeepsViews(cfg.BlockSize(), s.index, s.home, s.consumers, t, pc');
  }

  // ---- The lookup ----

  lemma TailHasKey(x: Idx.Index, b: nat)
    requires Idx.Inv(x) && b < x.inserted && KeysFrom(x, b)
    ensures HasKey(x, |x.headers| - 1, Idx.Current(x).tail)
  {
    assert KeyOf(x, x.inserted - 1).Some?;
  }

  lemma LoadIndexIsRight(cfg: Config, s: State, t: nat)
    requires Inv(cfg, s) && t < |s.consumers| && s.consumers[t].LoadIndex?
    ensures var pc' := LoadTail(s.consumers[t].i, s.consumers[t].stop, |s.index.headers| - 1);
      ViewOk(cfg.BlockSize(), s.index, s.home, pc') && PlaceOk(cfg, s.c.head, pc', s.c.pcs[t])
  {
    hide CountsOk, CellsOk, ReadsOk, ShownOk, HomeOk, FillOk, KeysUpToTail, RoomOk, Claims.Inv;
    assert PlaceOk(cfg, s.c.head, s.consumers[t], s.c.pcs[t]);
    ClaimedBlockHasKey(cfg, s, t, s.consumers[t].i);
    TailHasKey(s.index, Number(cfg.BlockSize(), s.consumers[t].i));
  }

  lemma LoadIndexKeepsInv(cfg: Config, s: State, t: nat)
    requires Inv(cfg, s) && t < |s.consumers| && s.consumers[t].LoadIndex?
    ensures CanConsume(cfg, s, s.consumers[t]) && Inv(cfg, DoConsume(cfg, s, t))
  {
    hide CellsOk, ReadsOk, ShownOk, HomeOk, FillOk, KeysUpToTail, RoomOk, CountsOk, ProducerShape, TailBlockOk;
    hide Claims.Inv, PlacesOk, ViewsOk;
    LoadIndexIsRight(cfg, s, t);
    QuietKeepsInv(cfg, s, t, LoadTail(s.consumers[t].i, s.consumers[t].stop, |s.index.headers| - 1));
  }

  lemma LoadTailKeepsInv(cfg: Config, s: State, t: nat)
    requires Inv(cfg, s) && t < |s.consumers| && s.consumers[t].LoadTail?
    ensures CanConsume(cfg, s, s.consumers[t]) && Inv(cfg, DoConsume(cfg, s, t))
  {
    hide CellsOk, ReadsOk, ShownOk, HomeOk, FillOk, KeysUpToTail, RoomOk, CountsOk, ProducerShape, TailBlockOk;
    hide Claims.Inv;
    var LoadTail(i, stop, h) := s.consumers[t];
    assert PlaceOk(cfg, s.c.head, s.consumers[t], s.c.pcs[t]);
    assert ViewOk(cfg.BlockSize(), s.index, s.home, s.consumers[t]);
    QuietKeepsInv(cfg, s, t, LoadKey(i, stop, h, s.index.headers[h].tail));
  }

  lemma LoadKeyKeepsInv(cfg: Config, s: State, t: nat)
    requires Inv(cfg, s) && t < |s.consumers| && s.consumers[t].LoadKey?
    ensures CanConsume(cfg, s, s.consumers[t]) && Inv(cfg, DoConsume(cfg, s, t))
  {
    hide CellsOk, ReadsOk, ShownOk, HomeOk, FillOk, KeysUpToTail, RoomOk, CountsOk, ProducerShape, TailBlockOk;
    hide Claims.Inv;
    var LoadKey(i, stop, h, tail) := s.consumers[t];
    assert PlaceOk(cfg, s.c.head, s.consumers[t], s.c.pcs[t]);
    assert ViewOk(cfg.BlockSize(), s.index, s.home, s.consumers[t]);
    Idx.LookupIsExact(cfg.w, cfg.k, s.index, h, tail, i);
    NumberIsQuotient(cfg.BlockSize(), i);
    QuietKeepsInv(cfg, s, t, LoadValue(i, stop, h, LookUp(cfg, s, h, tail, i)));
  }

  // A header a consumer knows the block through leads it to the block.
  lemma KnownBlock(n: nat, x: Idx.Index, home: Homes, pc: ConsumerPc)
    requires 0 < n && Idx.WellFormed(x) && pc.LoadValue? && ViewOk(n, x, home, pc) && pc.i < pc.stop
    requires var b := Number(n, pc.i); b in home && Idx.Shows(x, b, home[b])
    ensures pc.header < |x.headers| && pc.slot < |x.headers[pc.header].ring|
    ensures x.entries[x.headers[pc.header].ring[pc.slot]].value == Some(home[Number(n, pc.i)])
  {
    assert Idx.At(x.headers[pc.header], Number(n, pc.i)) == Idx.At(Idx.Current(x), Number(n, pc.i));
  }

  lemma LoadValueIsRight(cfg: Config, s: State, t: nat)
    requires Inv(cfg, s) && t < |s.consumers| && s.consumers[t].LoadValue?
    ensures CanConsume(cfg, s, s.consumers[t])
    ensures var LoadValue(i, stop, h, slot) := s.consumers[t];
      var pc' := Take(i, i, stop, h, slot, s.index.entries[s.index.headers[h].ring[slot]].value.value);
      ViewOk(cfg.BlockSize(), s.index, s.home, pc') && PlaceOk(cfg, s.c.head, pc', s.c.pcs[t])
  {
    hide CellsOk, ReadsOk, ShownOk, HomeOk, FillOk, KeysUpToTail, RoomOk, CountsOk, ProducerShape, TailBlockOk;
    hide Claims.Inv;
    var pc := s.consumers[t];
    assert PlaceOk(cfg, s.c.head, pc, s.c.pcs[t]) && ViewOk(cfg.BlockSize(), s.index, s.home, pc);
    ClaimedBlockHasKey(cfg, s, t, pc.i);
    KnownBlock(cfg.BlockSize(), s.index, s.home, pc);
  }

  lemma LoadValueKeepsInv(cfg: Config, s: State, t: nat)
    requires Inv(cfg, s) && t < |s.consumers| && s.consumers[t].LoadValue?
    ensures CanConsume(cfg, s, s.consumers[t]) && Inv(cfg, DoConsume(cfg, s, t))
  {
    hide CellsOk, ReadsOk, ShownOk, HomeOk, FillOk, KeysUpToTail, RoomOk, CountsOk, ProducerShape, TailBlockOk;
    hide Claims.Inv, PlacesOk, ViewsOk;
    LoadValueIsRight(cfg, s, t);
    var LoadValue(i, stop, h, slot) := s.consumers[t];
    QuietKeepsInv(cfg, s, t, Take(i, i, stop, h, slot, s.index.entries[s.index.headers[h].ring[slot]].value.value));
  }

  // ---- Taking the elements ----

  /** The end a consumer computes for its stay in a block is the end of its claim or of the block, whichever
      comes first. */
  lemma EndIsExact(cfg: Config, from: nat, stop: nat)
    requires 1 <= cfg.w && cfg.k < cfg.w && from < stop && stop - from < Pow2(cfg.w - 1)
    ensures var n := cfg.BlockSize();
      EndInBlock(cfg, from, stop) == Claims.Min(stop, Start(n, Number(n, from)) + n)
  {
    var n := cfg.BlockSize();
    StartIsAligned(n, from);
    Within(n, from);
    Pow2Grows(cfg.k, cfg.w - 1);
    CircularLessThanIsExact(cfg.w, stop, Start(n, Number(n, from)) + n);
  }

  lemma NextInBlock(n: nat, i: nat, b: nat, stop: nat)
    requires 0 < n && Number(n, i) == b && i < stop
    ensures i + 1 <= Claims.Min(stop, Start(n, b) + n)
    ensures i + 1 < Claims.Min(stop, Start(n, b) + n) ==> Number(n, i + 1) == b
    ensures i + 1 == Start(n, b) + n ==> Start(n, Number(n, i + 1)) == i + 1
  {
    Within(n, i);
    if i + 1 < Start(n, b) + n {
      WithinOnly(n, i + 1, b);
    } else {
      StartMoves(n, b);
      WithinOnly(n, i + 1, b + 1);
    }
  }

  function AfterTake(cfg: Config, pc: ConsumerPc): ConsumerPc
    requires pc.Take? && 1 <= cfg.w
  {
    var Take(i, from, stop, h, slot, b) := pc;
    if i + 1 == EndInBlock(cfg, from, stop) then Complete(i + 1, from, stop, h, slot, b)
    else Take(i + 1, from, stop, h, slot, b)
  }

  lemma TakePlace(cfg: Config, head: nat, pc: ConsumerPc, claim: Claims.Pc)
    requires 1 <= cfg.w && cfg.k < cfg.w && PlaceOk(cfg, head, pc, claim) && pc.Take?
    ensures PlaceOk(cfg, head, AfterTake(cfg, pc), claim)
  {
    var n := cfg.BlockSize();
    EndIsExact(cfg, pc.from, pc.stop);
    NextInBlock(n, pc.i, Number(n, pc.from), pc.stop);
  }

  /** The element a consumer is about to take is there, it is the one enqueued at that index, and nobody has
      taken it before. */
  lemma TakeFindsElement(cfg: Config, s: State, t: nat)
    requires Inv(cfg, s) && t < |s.consumers| && s.consumers[t].Take?
    ensures var pc := s.consumers[t];
      && pc.i < |s.items| && pc.i !in s.got
      && Number(cfg.BlockSize(), pc.i) in s.home && s.home[Number(cfg.BlockSize(), pc.i)] == pc.block
      && CellIs(cfg.BlockSize(), s.home, s.blocks, pc.i, Some(s.items[pc.i]))
      && CanConsume(cfg, s, pc)
  {
    hide ShownOk, FillOk, KeysUpToTail, RoomOk, CountsOk, HomeOk, ProducerShape, TailBlockOk, Claims.Inv;
    var pc := s.consumers[t];
    assert PlaceOk(cfg, s.c.head, pc, s.c.pcs[t]) && ViewOk(cfg.BlockSize(), s.index, s.home, pc);
    SumBoundsMember(UnreadAt(pc.i), s.consumers, t);
    Claims.ClaimsAreSound(s.c);
    assert CellIs(cfg.BlockSize(), s.home, s.blocks, pc.i, Some(s.items[pc.i]));
  }

  lemma TakeKeepsReads(head: nat, consumers: seq<ConsumerPc>, got: map<nat, Element>, t: nat, pc': ConsumerPc, x: Element)
    requires t < |consumers| && ReadsOk(head, consumers, got)
    requires consumers[t].Take? && Next(pc') == Next(consumers[t]) + 1 <= Hi(pc') && Hi(consumers[t]) == Hi(pc')
    requires consumers[t].i !in got
    ensures ReadsOk(head, consumers[t := pc'], got[consumers[t].i := x])
  {
    forall i: nat
      ensures Sum(UnreadAt(i), consumers[t := pc']) + One(i in got[consumers[t].i := x]) == One(i < head)
    {
      SumUpdate(UnreadAt(i), consumers, t, pc');
    }
  }

  // Different indices have different slots.
  lemma OtherCell(n: nat, home: Homes, blocks: Held, i: nat, j: nat, value: Option<Element>, value': Option<Element>)
    requires 0 < n && i != j && Number(n, i) in home && home[Number(n, i)] in blocks
    requires Number(n, j) in home && (home[Number(n, j)] == home[Number(n, i)] ==> Number(n, j) == Number(n, i))
    requires |blocks[home[Number(n, i)]].cells| == n && Offset(n, i) < n
    requires CellIs(n, home, blocks, j, value)
    ensures var id := home[Number(n, i)];
      CellIs(n, home, blocks[id := blocks[id].(cells := blocks[id].cells[Offset(n, i) := value'])], j, value)
  {
    Within(n, i);
    Within(n, j);
  }

  lemma NumbersAreUnique(first: nat, home: Homes, blocks: Held, pc: ProducerPc, a: nat, b: nat)
    requires HomeOk(first, home, blocks, pc) && a in home && b in home && home[a] == home[b]
    ensures a == b
  {}

  lemma TakeKeepsCells(n: nat, first: nat, home: Homes, blocks: Held, items: seq<Element>, got: map<nat, Element>,
                       filled: seq<Element>, pc: ProducerPc, i: nat)
    requires 0 < n && CellsOk(n, home, blocks, items, got, filled) && HomeOk(first, home, blocks, pc)
    requires i < |items| && i !in got && CellIs(n, home, blocks, i, Some(items[i]))
    ensures var id := home[Number(n, i)];
      CellsOk(n, home, blocks[id := blocks[id].(cells := blocks[id].cells[Offset(n, i) := None])], items,
              got[i := items[i]], filled)
  {
    var id := home[Number(n, i)];
    var blocks' := blocks[id := blocks[id].(cells := blocks[id].cells[Offset(n, i) := None])];
    forall j: nat, value | j != i && CellIs(n, home, blocks, j, value) ensures CellIs(n, home, blocks', j, value) {
      if home[Number(n, j)] == id {
        NumbersAreUnique(first, home, blocks, pc, Number(n, j), Number(n, i));
      }
      OtherCell(n, home, blocks, i, j, value, None);
    }
  }

  function Emptied(n: nat, home: Homes, blocks: Held, i: nat): Held
    requires 0 < n && Number(n, i) in home && home[Number(n, i)] in blocks
    requires Offset(n, i) < |blocks[home[Number(n, i)]].cells|
  {
    var id := home[Number(n, i)];
    blocks[id := blocks[id].(cells := blocks[id].cells[Offset(n, i) := None])]
  }

  lemma TakeStep(cfg: Config, s: State, t: nat)
    requires Inv(cfg, s) && t < |s.consumers| && s.consumers[t].Take?
    ensures CanConsume(cfg, s, s.consumers[t])
    ensures var i, pc' := s.consumers[t].i, AfterTake(cfg, s.consumers[t]);
      && Next(pc') == i + 1 <= Hi(pc')
      && i < |s.items| && i !in s.got && CellIs(cfg.BlockSize(), s.home, s.blocks, i, Some(s.items[i]))
      && DoConsume(cfg, s, t) == s.(got := s.got[i := s.items[i]], blocks := Emptied(cfg.BlockSize(), s.home, s.blocks, i),
                                    consumers := s.consumers[t := pc'])
  {
    hide CellsOk, ReadsOk, ShownOk, FillOk, KeysUpToTail, RoomOk, ViewsOk, HomeOk, CountsOk, Claims.Inv;
    TakeFindsElement(cfg, s, t);
    assert PlaceOk(cfg, s.c.head, s.consumers[t], s.c.pcs[t]);
  }

  lemma TakeKeepsConsumers(cfg: Config, s: State, t: nat)
    requires Inv(cfg, s) && t < |s.consumers| && s.consumers[t].Take?
    ensures var after := s.consumers[t := AfterTake(cfg, s.consumers[t])];
      && PlacesOk(cfg, s.c.head, after, s.c.pcs)
      && ViewsOk(cfg.BlockSize(), s.index, s.home, after)
  {
    hide CellsOk, ReadsOk, ShownOk, FillOk, KeysUpToTail, RoomOk, HomeOk, CountsOk, Claims.Inv;
    assert PlaceOk(cfg, s.c.head, s.consumers[t], s.c.pcs[t]);
    assert ViewOk(cfg.BlockSize(), s.index, s.home, s.consumers[t]);
    TakePlace(cfg, s.c.head, s.consumers[t], s.c.pcs[t]);
    MoveKeepsPlaces(cfg, s, t, AfterTake(cfg, s.consumers[t]));
    MoveKeepsViews(cfg.BlockSize(), s.index, s.home, s.consumers, t, AfterTake(cfg, s.consumers[t]));
  }

  lemma EmptiedKeepsHome(n: nat, first: nat, home: Homes, blocks: Held, pc: ProducerPc, i: nat)
    requires 0 < n && Number(n, i) in home && home[Number(n, i)] in blocks
    requires Offset(n, i) < |blocks[home[Number(n, i)]].cells|
    requires HomeOk(first, home, blocks, pc)
    ensures HomeOk(first, home, Emptied(n, home, blocks, i), pc)
  {}

  lemma TakeKeepsInv(cfg: Config, s: State, t: nat)
    requires Inv(cfg, s) && t < |s.consumers| && s.consumers[t].Take?
    ensures CanConsume(cfg, s, s.consumers[t]) && Inv(cfg, DoConsume(cfg, s, t))
  {
    hide CellsOk, ReadsOk, ShownOk, HomeOk, FillOk, KeysUpToTail, RoomOk, CountsOk, IndexOk, ProducerShape;
    hide TailBlockOk, Claims.Inv, PlacesOk, ViewsOk, DoConsume, CanConsume;
    TakeStep(cfg, s, t);
    var n, first, i := cfg.BlockSize(), FirstNew(cfg, s), s.consumers[t].i;
    var pc' := AfterTake(cfg, s.consumers[t]);
    QuietKeepsCounts(cfg, s, t, pc', Emptied(n, s.home, s.blocks, i));
    SameWeightsSameCleared(cfg.BlockSize(), s.consumers, t, pc');
    QuietKeepsShown(cfg, s, s.consumers[t := pc']);
    TakeKeepsReads(s.c.head, s.consumers, s.got, t, pc', s.items[i]);
    TakeKeepsCells(n, first, s.home, s.blocks, s.items, s.got, Filled(s.producer), s.producer, i);
    EmptiedKeepsHome(n, first, s.home, s.blocks, s.producer, i);
    TakeKeepsConsumers(cfg, s, t);
  }
}
