/** A consumer reports what it has taken from a block, and the one whose report empties the block clears its
    index entry and returns it: these steps keep the invariant of the implicit producer machine. */
module ImplicitReturns {
  import opened Common
  import opened Words
  import opened BlockMath
  import opened ImplicitProducer
  import opened ImplicitInvariant
  import opened ImplicitConsumers
  import Claims = DequeueClaims
  import Idx = ImplicitIndex

  // ---- Reporting ----

  lemma ReportedPart(n: nat, from: nat, i: nat, stop: nat, b: nat)
    requires 0 < n && from < i <= stop && Number(n, i - 1) == Number(n, from)
    ensures Overlap(from, stop, Start(n, b), n) - Overlap(i, stop, Start(n, b), n)
            == if b == Number(n, from) then i - from else 0
  {
    Within(n, from);
    Within(n, i - 1);
    if b < Number(n, from) {
      InOrder(n, b, Number(n, from));
    } else if Number(n, from) < b {
      InOrder(n, Number(n, from), b);
    }
  }

  // Where a consumer goes from Complete or from FreeBlock.
  function AfterReport(pc: ConsumerPc, completed: int, n: nat, capacity: nat): ConsumerPc
    requires pc.Complete? && 0 < capacity
  {
    if completed == n then ClearEntry(pc.i, pc.stop, pc.header, pc.slot, pc.block)
    else Onward(pc.i, pc.stop, pc.header, pc.slot, capacity)
  }

  lemma ReportSums(n: nat, consumers: seq<ConsumerPc>, t: nat, completed: int, capacity: nat, b: nat)
    requires 0 < n && 0 < capacity && t < |consumers| && consumers[t].Complete?
    requires var pc := consumers[t]; pc.from < pc.i <= pc.stop && Number(n, pc.i - 1) == Number(n, pc.from)
    ensures var pc := consumers[t];
      var after := consumers[t := AfterReport(pc, completed, n, capacity)];
      var B := Number(n, pc.from);
      && Sum(UncountedIn(n, b), after) == Sum(UncountedIn(n, b), consumers) - (if b == B then pc.i - pc.from else 0)
      && Sum(Finishing(n, b), after) == Sum(Finishing(n, b), consumers) + One(b == B && completed == n)
      && Sum(Cleared(n, b), after) == Sum(Cleared(n, b), consumers)
      && Sum(UnreadAt(b), after) == Sum(UnreadAt(b), consumers)
  {
    var pc := consumers[t];
    var pc' := AfterReport(pc, completed, n, capacity);
    ReportedPart(n, pc.from, pc.i, pc.stop, b);
    SumUpdate(UncountedIn(n, b), consumers, t, pc');
    SumUpdate(Finishing(n, b), consumers, t, pc');
    SumUpdate(Cleared(n, b), consumers, t, pc');
    SumUpdate(UnreadAt(b), consumers, t, pc');
  }

  /** The header a consumer uses has a place for the block after the one it has finished with. */
  lemma OnwardIsRight(cfg: Config, x: Idx.Index, home: Homes, head: nat, claim: Claims.Pc, pc: ConsumerPc)
    requires 1 <= cfg.w && Idx.WellFormed(x)
    requires pc.Complete? || pc.FreeBlock?
    requires PlaceOk(cfg, head, pc, claim) && ViewOk(cfg.BlockSize(), x, home, pc)
    ensures pc.header < |x.headers| && 0 < |x.headers[pc.header].ring|
    ensures var pc' := Onward(pc.i, pc.stop, pc.header, pc.slot, |x.headers[pc.header].ring|);
      PlaceOk(cfg, head, pc', claim) && ViewOk(cfg.BlockSize(), x, home, pc')
  {
    var n := cfg.BlockSize();
    if pc.i < pc.stop {
      StepIntoBlock(n, pc.i);
      NextSlot(x.headers[pc.header], pc.slot, Number(n, pc.i - 1));
    }
  }

  lemma NextSlot(h: Idx.Header, slot: nat, b: nat)
    requires |h.ring| == Pow2(h.size) && slot == Idx.Position(h, b)
    ensures (slot + 1) % |h.ring| == Idx.Position(h, b + 1)
  {
    Idx.PositionStep(b, h.shift, Pow2(h.size));
  }

  lemma StepIntoBlock(n: nat, i: nat)
    requires 0 < n && 0 < i && Start(n, Number(n, i)) == i
    ensures Number(n, i) == Number(n, i - 1) + 1
  {
    var b := Number(n, i);
    if 0 < b {
      StartMoves(n, b - 1);
      WithinOnly(n, i - 1, b - 1);
    }
  }

  lemma ClearIsRight(cfg: Config, x: Idx.Index, home: Homes, head: nat, claim: Claims.Pc, pc: ConsumerPc)
    requires 1 <= cfg.w && Idx.WellFormed(x) && pc.Complete?
    requires PlaceOk(cfg, head, pc, claim) && ViewOk(cfg.BlockSize(), x, home, pc)
    ensures var pc' := ClearEntry(pc.i, pc.stop, pc.header, pc.slot, pc.block);
      PlaceOk(cfg, head, pc', claim) && ViewOk(cfg.BlockSize(), x, home, pc')
  {
    var n := cfg.BlockSize();
    assert Idx.At(x.headers[pc.header], Number(n, pc.from)) == Idx.At(Idx.Current(x), Number(n, pc.from));
  }

  function Reported(blocks: Held, pc: ConsumerPc): Held
    requires pc.Complete? && pc.block in blocks
  {
    blocks[pc.block := blocks[pc.block].(completed := blocks[pc.block].completed + (pc.i - pc.from))]
  }

  lemma ReportKeepsCount(n: nat, first: nat, head: nat, home: Homes, blocks: Held, pc: ProducerPc,
                         consumers: seq<ConsumerPc>, t: nat, capacity: nat, b: nat)
    requires 0 < n && 0 < capacity && t < |consumers| && consumers[t].Complete? && consumers[t].block in blocks
    requires var pc := consumers[t]; pc.from < pc.i <= pc.stop && Number(n, pc.i - 1) == Number(n, pc.from)
    requires var B := Number(n, consumers[t].from);
      B in home && home[B] == consumers[t].block && B < first
    requires b in home ==> home[b] in blocks && blocks[home[b]].number == b
    requires Number(n, consumers[t].from) in home ==>
      blocks[home[Number(n, consumers[t].from)]].number == Number(n, consumers[t].from)
    requires BlockCountOk(n, first, head, home, blocks, pc, consumers, b)
    requires 0 <= Sum(UncountedIn(n, b), consumers[t := AfterReport(consumers[t],
               blocks[consumers[t].block].completed + (consumers[t].i - consumers[t].from), n, capacity)])
    ensures BlockCountOk(n, first, head, home, Reported(blocks, consumers[t]), pc,
              consumers[t := AfterReport(consumers[t],
                blocks[consumers[t].block].completed + (consumers[t].i - consumers[t].from), n, capacity)], b)
  {
    var completed := blocks[consumers[t].block].completed + (consumers[t].i - consumers[t].from);
    ReportSums(n, consumers, t, completed, capacity, b);
    var after := consumers[t := AfterReport(consumers[t], completed, n, capacity)];
    SumMonotone(Cleared(n, b), Finishing(n, b), after);
  }

  /** What is known of a consumer about to report on a block. */
  lemma Reporter(cfg: Config, s: State, t: nat)
    requires Inv(cfg, s) && t < |s.consumers| && s.consumers[t].Complete?
    ensures var pc := s.consumers[t];
      var n, B := cfg.BlockSize(), Number(cfg.BlockSize(), pc.from);
      && pc.from < pc.i <= pc.stop && Number(n, pc.i - 1) == B
      && B in s.home && s.home[B] == pc.block && B < FirstNew(cfg, s)
      && pc.block in s.blocks && pc.header < |s.index.headers| && 0 < Capacity(s, pc.header)
      && t < |s.c.pcs| && PlaceOk(cfg, s.c.head, pc, s.c.pcs[t]) && ViewOk(n, s.index, s.home, pc)
      && CanConsume(cfg, s, pc)
  {
    hide CellsOk, ReadsOk, ShownOk, FillOk, KeysUpToTail, RoomOk, CountsOk, ProducerShape, TailBlockOk, Claims.Inv;
    var pc := s.consumers[t];
    assert PlaceOk(cfg, s.c.head, pc, s.c.pcs[t]) && ViewOk(cfg.BlockSize(), s.index, s.home, pc);
    ClaimedBlockIsShown(cfg, s, t, pc.from);
  }

  function CompletedBy(s: State, pc: ConsumerPc): int
    requires pc.Complete? && pc.block in s.blocks
  {
    s.blocks[pc.block].completed + (pc.i - pc.from)
  }

  // The consumers once consumer t has reported.
  function ReportedBy(cfg: Config, s: State, t: nat): seq<ConsumerPc>
    requires t < |s.consumers| && s.consumers[t].Complete? && s.consumers[t].block in s.blocks
    requires s.consumers[t].header < |s.index.headers| && 0 < Capacity(s, s.consumers[t].header)
  {
    var pc := s.consumers[t];
    s.consumers[t := AfterReport(pc, CompletedBy(s, pc), cfg.BlockSize(), Capacity(s, pc.header))]
  }

  lemma ReportKeepsConsumers(cfg: Config, s: State, t: nat)
    requires Inv(cfg, s) && t < |s.consumers| && s.consumers[t].Complete?
    ensures CanConsume(cfg, s, s.consumers[t])
    ensures PlacesOk(cfg, s.c.head, ReportedBy(cfg, s, t), s.c.pcs)
    ensures ViewsOk(cfg.BlockSize(), s.index, s.home, ReportedBy(cfg, s, t))
    ensures ReadsOk(s.c.head, ReportedBy(cfg, s, t), s.got)
  {
    hide CellsOk, ShownOk, FillOk, KeysUpToTail, RoomOk, CountsOk, ProducerShape, TailBlockOk, Claims.Inv, HomeOk;
    hide PlacesOk, ViewsOk, ReadsOk;
    Reporter(cfg, s, t);
    var pc := s.consumers[t];
    OnwardIsRight(cfg, s.index, s.home, s.c.head, s.c.pcs[t], pc);
    ClearIsRight(cfg, s.index, s.home, s.c.head, s.c.pcs[t], pc);
    var pc' := AfterReport(pc, CompletedBy(s, pc), cfg.BlockSize(), Capacity(s, pc.header));
    MoveKeepsPlaces(cfg, s, t, pc');
    MoveKeepsViews(cfg.BlockSize(), s.index, s.home, s.consumers, t, pc');
    QuietKeepsReads(s.c.head, s.consumers, s.got, t, pc');
  }

  lemma ReportKeepsCounts(cfg: Config, s: State, t: nat)
    requires Inv(cfg, s) && t < |s.consumers| && s.consumers[t].Complete?
    ensures CanConsume(cfg, s, s.consumers[t])
    ensures CountsOk(cfg.BlockSize(), FirstNew(cfg, s), s.c.head, s.home, Reported(s.blocks, s.consumers[t]), s.producer,
                     ReportedBy(cfg, s, t))
  {
    hide CellsOk, ShownOk, FillOk, KeysUpToTail, RoomOk, ProducerShape, TailBlockOk, Claims.Inv;
    hide PlacesOk, ViewsOk, ReadsOk, BlockCountOk;
    Reporter(cfg, s, t);
    ReportKeepsConsumers(cfg, s, t);
    var n, first := cfg.BlockSize(), FirstNew(cfg, s);
    var after := ReportedBy(cfg, s, t);
    forall b: nat
      ensures b in s.home ==> s.home[b] in Reported(s.blocks, s.consumers[t])
      ensures BlockCountOk(n, first, s.c.head, s.home, Reported(s.blocks, s.consumers[t]), s.producer, after, b)
    {
      assert BlockCountOk(n, first, s.c.head, s.home, s.blocks, s.producer, s.consumers, b);
      WeightsAreNatural(cfg, s.c.head, after, s.c.pcs, b);
      SumNonNegative(UncountedIn(n, b), after);
      ReportKeepsCount(n, first, s.c.head, s.home, s.blocks, s.producer, s.consumers, t, Capacity(s, s.consumers[t].header), b);
    }
  }

  lemma ReportKeepsShown(cfg: Config, s: State, t: nat)
    requires Inv(cfg, s) && t < |s.consumers| && s.consumers[t].Complete?
    ensures CanConsume(cfg, s, s.consumers[t])
    ensures var n, first := cfg.BlockSize(), FirstNew(cfg, s);
      && ShownOk(n, first, s.index, s.home, s.producer, ReportedBy(cfg, s, t))
      && KeysUpToTail(n, first, s.index, s.home, s.producer, ReportedBy(cfg, s, t))
  {
    hide CellsOk, ShownOk, FillOk, KeysUpToTail, RoomOk, CountsOk, ProducerShape, TailBlockOk, Claims.Inv, HomeOk;
    hide PlacesOk, ViewsOk, ReadsOk, IndexOk;
    Reporter(cfg, s, t);
    var n := cfg.BlockSize();
    var pc := s.consumers[t];
    forall b: nat ensures Sum(Cleared(n, b), ReportedBy(cfg, s, t)) == Sum(Cleared(n, b), s.consumers) {
      ReportSums(n, s.consumers, t, CompletedBy(s, pc), Capacity(s, pc.header), b);
    }
    QuietKeepsShown(cfg, s, ReportedBy(cfg, s, t));
  }

  // The count of a block matters neither to where it is nor to what is in it.
  lemma ReportKeepsBlocks(n: nat, first: nat, home: Homes, blocks: Held, items: seq<Element>, got: map<nat, Element>,
                          pc: ProducerPc, consumer: ConsumerPc)
    requires 0 < n && consumer.Complete? && consumer.block in blocks
    requires HomeOk(first, home, blocks, pc) && CellsOk(n, home, blocks, items, got, Filled(pc))
    ensures HomeOk(first, home, Reported(blocks, consumer), pc)
    ensures CellsOk(n, home, Reported(blocks, consumer), items, got, Filled(pc))
  {
    var blocks' := Reported(blocks, consumer);
    assert forall i: nat, value :: CellIs(n, home, blocks, i, value) ==> CellIs(n, home, blocks', i, value);
  }

  lemma CompleteKeepsInv(cfg: Config, s: State, t: nat)
    requires Inv(cfg, s) && t < |s.consumers| && s.consumers[t].Complete?
    ensures CanConsume(cfg, s, s.consumers[t]) && Inv(cfg, DoConsume(cfg, s, t))
  {
    hide CellsOk, ShownOk, FillOk, KeysUpToTail, RoomOk, CountsOk, ProducerShape, TailBlockOk, Claims.Inv, HomeOk;
    hide PlacesOk, ViewsOk, ReadsOk, IndexOk;
    ReportKeepsConsumers(cfg, s, t);
    ReportKeepsCounts(cfg, s, t);
    ReportKeepsShown(cfg, s, t);
    ReportKeepsBlocks(cfg.BlockSize(), FirstNew(cfg, s), s.home, s.blocks, s.items, s.got, s.producer, s.consumers[t]);
    assert DoConsume(cfg, s, t) == s.(blocks := Reported(s.blocks, s.consumers[t]), consumers := ReportedBy(cfg, s, t));
  }

  // ---- Clearing the entry of an emptied block ----

  lemma SameKeysSameView(n: nat, x: Idx.Index, x': Idx.Index, home: Homes, pc: ConsumerPc)
    requires 0 < n && Idx.WellFormed(x) && Idx.WellFormed(x') && ViewOk(n, x, home, pc)
    requires x'.headers == x.headers && |x'.entries| == |x.entries|
    requires forall e :: 0 <= e < |x.entries| ==> x'.entries[e].key == x.entries[e].key
    ensures ViewOk(n, x', home, pc)
  {
    assert Idx.Current(x') == Idx.Current(x);
    hide Idx.WellFormed, Idx.Current;
    forall h: nat, lo: nat, hi: nat | Knows(n, x, h, lo, hi) ensures Knows(n, x', h, lo, hi) {}
    hide Knows;
  }

  lemma SameKeysSameViews(n: nat, x: Idx.Index, x': Idx.Index, home: Homes, consumers: seq<ConsumerPc>)
    requires 0 < n && Idx.WellFormed(x) && Idx.WellFormed(x') && ViewsOk(n, x, home, consumers)
    requires x'.headers == x.headers && |x'.entries| == |x.entries|
    requires forall e :: 0 <= e < |x.entries| ==> x'.entries[e].key == x.entries[e].key
    ensures ViewsOk(n, x', home, consumers)
  {
    forall t | 0 <= t < |consumers| ensures ViewOk(n, x', home, consumers[t]) {
      SameKeysSameView(n, x, x', home, consumers[t]);
    }
  }

  lemma ClearedAtMostFinishing(n: nat, consumers: seq<ConsumerPc>, b: nat)
    requires 0 < n
    ensures 0 <= Sum(Cleared(n, b), consumers) <= Sum(Finishing(n, b), consumers)
  {
    SumMonotone(Cleared(n, b), Finishing(n, b), consumers);
    SumNonNegative(Cleared(n, b), consumers);
  }

  lemma ReturnerStands(cfg: Config, s: State, t: nat)
    requires Inv(cfg, s) && t < |s.consumers| && (s.consumers[t].ClearEntry? || s.consumers[t].FreeBlock?)
    ensures t < |s.c.pcs| && PlaceOk(cfg, s.c.head, s.consumers[t], s.c.pcs[t])
    ensures ViewOk(cfg.BlockSize(), s.index, s.home, s.consumers[t])
    ensures s.consumers[t].header < |s.index.headers| && 0 < Capacity(s, s.consumers[t].header)
  {
    hide CellsOk, ShownOk, FillOk, KeysUpToTail, RoomOk, ProducerShape, TailBlockOk, Claims.Inv, ReadsOk, CountsOk;
  }

  // Block b, held in `block`, is published, all its elements were claimed and reported, and one consumer is
  // returning it.
  ghost predicate Spent(n: nat, first: nat, head: nat, home: Homes, blocks: Held, consumers: seq<ConsumerPc>, b: nat,
                        block: nat)
    requires 0 < n
  {
    && b in home && home[b] == block && block in blocks && b < first
    && Below(head, Start(n, b), n) == n && Sum(UncountedIn(n, b), consumers) == 0
    && Sum(Finishing(n, b), consumers) == 1 && Sum(Cleared(n, b), consumers) <= 1
  }

  lemma ReturnerCounts(cfg: Config, first: nat, head: nat, home: Homes, blocks: Held, pc: ProducerPc,
                       consumers: seq<ConsumerPc>, claims: seq<Claims.Pc>, t: nat)
    requires 1 <= cfg.w && t < |consumers| && PlacesOk(cfg, head, consumers, claims)
    requires CountsOk(cfg.BlockSize(), first, head, home, blocks, pc, consumers)
    requires consumers[t].ClearEntry? || consumers[t].FreeBlock?
    ensures 0 < consumers[t].i
    ensures var n := cfg.BlockSize();
      var b := Number(n, consumers[t].i - 1);
      && b in home && home[b] in blocks && b < first
      && Below(head, Start(n, b), n) == n && Sum(UncountedIn(n, b), consumers) == 0
      && Sum(Finishing(n, b), consumers) == 1 && Sum(Cleared(n, b), consumers) <= 1
  {
    assert PlaceOk(cfg, head, consumers[t], claims[t]);
    var n := cfg.BlockSize();
    var b := Number(n, consumers[t].i - 1);
    WeightsAreNatural(cfg, head, consumers, claims, b);
    SumBoundsMember(Finishing(n, b), consumers, t);
    assert BlockCountOk(n, first, head, home, blocks, pc, consumers, b);
  }

  /** The one that returns a block does so when it is spent, and alone. */
  lemma Returner(cfg: Config, s: State, t: nat)
    requires Inv(cfg, s) && t < |s.consumers| && (s.consumers[t].ClearEntry? || s.consumers[t].FreeBlock?)
    ensures 0 < s.consumers[t].i
    ensures Spent(cfg.BlockSize(), FirstNew(cfg, s), s.c.head, s.home, s.blocks, s.consumers,
                  Number(cfg.BlockSize(), s.consumers[t].i - 1), s.consumers[t].block)
  {
    hide CellsOk, ShownOk, FillOk, KeysUpToTail, RoomOk, ProducerShape, TailBlockOk, Claims.Inv, ReadsOk;
    hide PlacesOk, CountsOk, ViewsOk, HomeOk;
    ReturnerStands(cfg, s, t);
    ReturnerCounts(cfg, FirstNew(cfg, s), s.c.head, s.home, s.blocks, s.producer, s.consumers, s.c.pcs, t);
  }

  lemma OnlyOneReturner(n: nat, consumers: seq<ConsumerPc>, t: nat, u: nat, b: nat)
    requires 0 < n && t < |consumers| && u < |consumers| && t != u
    requires Sum(Finishing(n, b), consumers) == 1
    ensures !(Finishes(n, b, consumers[t]) && Finishes(n, b, consumers[u]))
  {
    if t < u {
      SumBoundsPair(Finishing(n, b), consumers, t, u);
    } else {
      SumBoundsPair(Finishing(n, b), consumers, u, t);
    }
  }

  // Nobody cleared the entry of a block that one consumer is about to clear.
  lemma NotYetCleared(n: nat, consumers: seq<ConsumerPc>, t: nat, b: nat)
    requires 0 < n && t < |consumers| && consumers[t].ClearEntry? && Finishes(n, b, consumers[t])
    requires Sum(Finishing(n, b), consumers) == 1
    ensures Sum(Cleared(n, b), consumers) == 0
  {
    ClearedAtMostFinishing(n, consumers, b);
    if 0 < Sum(Cleared(n, b), consumers) {
      var u := SumPositiveWitness(Cleared(n, b), consumers);
      OnlyOneReturner(n, consumers, t, u, b);
    }
  }

  // The consumers once consumer t has cleared its entry.
  function ClearedBy(s: State, t: nat): seq<ConsumerPc>
    requires t < |s.consumers| && s.consumers[t].ClearEntry?
  {
    var pc := s.consumers[t];
    s.consumers[t := FreeBlock(pc.i, pc.stop, pc.header, pc.slot, pc.block)]
  }

  lemma ClearSums(n: nat, s: State, t: nat, b: nat)
    requires 0 < n && t < |s.consumers| && s.consumers[t].ClearEntry? && 0 < s.consumers[t].i
    ensures Sum(UncountedIn(n, b), ClearedBy(s, t)) == Sum(UncountedIn(n, b), s.consumers)
    ensures Sum(Finishing(n, b), ClearedBy(s, t)) == Sum(Finishing(n, b), s.consumers)
    ensures Sum(Cleared(n, b), ClearedBy(s, t)) ==
            Sum(Cleared(n, b), s.consumers) + One(b == Number(n, s.consumers[t].i - 1))
  {
    var pc := s.consumers[t];
    var pc' := FreeBlock(pc.i, pc.stop, pc.header, pc.slot, pc.block);
    SumUpdate(UncountedIn(n, b), s.consumers, t, pc');
    SumUpdate(Finishing(n, b), s.consumers, t, pc');
    SumUpdate(Cleared(n, b), s.consumers, t, pc');
  }

  lemma ClearKeepsCounts(cfg: Config, s: State, t: nat)
    requires Inv(cfg, s) && t < |s.consumers| && s.consumers[t].ClearEntry?
    ensures CountsOk(cfg.BlockSize(), FirstNew(cfg, s), s.c.head, s.home, s.blocks, s.producer, ClearedBy(s, t))
  {
    hide CellsOk, ShownOk, FillOk, KeysUpToTail, RoomOk, ProducerShape, TailBlockOk, Claims.Inv, ReadsOk;
    hide HomeOk, IndexOk, ViewsOk;
    ReturnerStands(cfg, s, t);
    Returner(cfg, s, t);
    var n, first := cfg.BlockSize(), FirstNew(cfg, s);
    forall b: nat
      ensures b in s.home ==> s.home[b] in s.blocks
      ensures BlockCountOk(n, first, s.c.head, s.home, s.blocks, s.producer, ClearedBy(s, t), b)
    {
      assert BlockCountOk(n, first, s.c.head, s.home, s.blocks, s.producer, s.consumers, b);
      ClearSums(n, s, t, b);
      ClearedAtMostFinishing(n, ClearedBy(s, t), b);
    }
  }

  lemma ClearKeepsConsumers(cfg: Config, s: State, t: nat)
    requires Inv(cfg, s) && t < |s.consumers| && s.consumers[t].ClearEntry?
    ensures PlacesOk(cfg, s.c.head, ClearedBy(s, t), s.c.pcs)
    ensures ViewsOk(cfg.BlockSize(), s.index, s.home, ClearedBy(s, t))
    ensures ReadsOk(s.c.head, ClearedBy(s, t), s.got)
  {
    hide CellsOk, ShownOk, FillOk, KeysUpToTail, RoomOk, CountsOk, ProducerShape, TailBlockOk, Claims.Inv, HomeOk;
    hide PlacesOk, ViewsOk, ReadsOk;
    ReturnerStands(cfg, s, t);
    Returner(cfg, s, t);
    var pc := s.consumers[t];
    var pc' := FreeBlock(pc.i, pc.stop, pc.header, pc.slot, pc.block);
    MoveKeepsPlaces(cfg, s, t, pc');
    MoveKeepsViews(cfg.BlockSize(), s.index, s.home, s.consumers, t, pc');
    QuietKeepsReads(s.c.head, s.consumers, s.got, t, pc');
  }

  // The entry of a shown block is the only one with its key.
  lemma KeyIsUnique(x: Idx.Index, p: nat, b: nat)
    requires Idx.Inv(x) && p < |Idx.Current(x).ring|
    requires x.entries[Idx.Current(x).ring[p]].key == Some(b)
    ensures p == Idx.Position(Idx.Current(x), b)
  {
    assert Idx.KeysInPlaceFor(Idx.Current(x), x.entries);
  }

  lemma ClearLeavesNoStray(n: nat, first: nat, x: Idx.Index, home: Homes, pc: ProducerPc, consumers: seq<ConsumerPc>,
                           pc': ProducerPc, after: seq<ConsumerPc>, b: nat, p: nat)
    requires 0 < n && Idx.Inv(x) && p < |Idx.Current(x).ring|
    requires NoStray(n, first, x.entries[Idx.Current(x).ring[p]], x.unsettled, home, pc, consumers)
    requires forall a: nat :: a in home ==>
      Hidden(n, first, pc', after, a) == (Hidden(n, first, pc, consumers, a) || a == b)
    requires x.unsettled != Some(b) && KeyOf(x, b) == Some(b)
    ensures var x' := Idx.StoreValue(x, Idx.At(Idx.Current(x), b), None);
      NoStray(n, first, x'.entries[Idx.Current(x).ring[p]], x'.unsettled, home, pc', after)
  {
    assert Idx.WellFormed(x);
    hide Idx.Inv, Hidden;
    if x.entries[Idx.Current(x).ring[p]].key == Some(b) {
      KeyIsUnique(x, p, b);
    }
  }

  /** Clearing the entry of a block hides that block and no other. */
  lemma ClearKeepsShown(n: nat, first: nat, x: Idx.Index, home: Homes, pc: ProducerPc, consumers: seq<ConsumerPc>,
                        pc': ProducerPc, after: seq<ConsumerPc>, b: nat)
    requires 0 < n && Idx.Inv(x) && ShownOk(n, first, x, home, pc, consumers)
    requires b in home && Idx.Shows(x, b, home[b])
    requires forall a: nat :: a in home ==>
      Hidden(n, first, pc', after, a) == (Hidden(n, first, pc, consumers, a) || a == b)
    requires x.unsettled != Some(b)
    ensures ShownOk(n, first, Idx.StoreValue(x, Idx.At(Idx.Current(x), b), None), home, pc', after)
  {
    assert Idx.WellFormed(x);
    hide Idx.Inv, Hidden, NoStray;
    var x' := Idx.StoreValue(x, Idx.At(Idx.Current(x), b), None);
    forall p | 0 <= p < |Idx.Current(x').ring|
      ensures NoStray(n, first, x'.entries[Idx.Current(x').ring[p]], x'.unsettled, home, pc', after)
    {
      ClearLeavesNoStray(n, first, x, home, pc, consumers, pc', after, b, p);
    }
    forall a: nat
      ensures KeyOf(x', a) == KeyOf(x, a)
      ensures a in home && Idx.Shows(x, a, home[a]) && a != b ==> Idx.Shows(x', a, home[a])
    {
      ClearedAt(x, b, a);
    }
  }

  lemma ClearedAt(x: Idx.Index, b: nat, a: nat)
    requires Idx.WellFormed(x)
    ensures var x' := Idx.StoreValue(x, Idx.At(Idx.Current(x), b), None);
      && Idx.WellFormed(x') && KeyOf(x', a) == KeyOf(x, a)
      && (KeyOf(x, a) == Some(a) && KeyOf(x, b) == Some(b) && a != b ==>
            x'.entries[Idx.At(Idx.Current(x'), a)] == x.entries[Idx.At(Idx.Current(x), a)])
  {}

  lemma ClearKeepsKeys(n: nat, first: nat, x: Idx.Index, home: Homes, pc: ProducerPc, consumers: seq<ConsumerPc>,
                       after: seq<ConsumerPc>, e: nat)
    requires 0 < n && Idx.WellFormed(x) && KeysUpToTail(n, first, x, home, pc, consumers) && e < |x.entries|
    requires forall a: nat :: Hidden(n, first, pc, consumers, a) ==> Hidden(n, first, pc, after, a)
    ensures KeysUpToTail(n, first, Idx.StoreValue(x, e, None), home, pc, after)
  {
    var x' := Idx.StoreValue(x, e, None);
    assert Idx.WellFormed(x');
    assert forall b :: KeyOf(x', b) == KeyOf(x, b);
  }

  lemma ClearHides(cfg: Config, s: State, t: nat)
    requires Inv(cfg, s) && t < |s.consumers| && s.consumers[t].ClearEntry?
    ensures 0 < s.consumers[t].i
    ensures var n, first, B := cfg.BlockSize(), FirstNew(cfg, s), Number(cfg.BlockSize(), s.consumers[t].i - 1);
      && !Hidden(n, first, s.producer, s.consumers, B)
      && forall a: nat :: Hidden(n, first, s.producer, ClearedBy(s, t), a)
                          == (Hidden(n, first, s.producer, s.consumers, a) || a == B)
  {
    hide CellsOk, ShownOk, FillOk, KeysUpToTail, RoomOk, CountsOk, ProducerShape, TailBlockOk, Claims.Inv, HomeOk;
    hide PlacesOk, ViewsOk, ReadsOk, IndexOk;
    ReturnerStands(cfg, s, t);
    Returner(cfg, s, t);
    var n, first, B := cfg.BlockSize(), FirstNew(cfg, s), Number(cfg.BlockSize(), s.consumers[t].i - 1);
    NotYetCleared(n, s.consumers, t, B);
    forall a: nat
      ensures Hidden(n, first, s.producer, ClearedBy(s, t), a) == (Hidden(n, first, s.producer, s.consumers, a) || a == B)
    {
      ClearSums(n, s, t, a);
      ClearedAtMostFinishing(n, s.consumers, a);
    }
  }

  /** A consumer clears the very entry that shows its block. */
  lemma ClearFindsEntry(cfg: Config, s: State, t: nat)
    requires Inv(cfg, s) && t < |s.consumers| && s.consumers[t].ClearEntry?
    ensures CanConsume(cfg, s, s.consumers[t]) && 0 < s.consumers[t].i
    ensures var B := Number(cfg.BlockSize(), s.consumers[t].i - 1);
      && B in s.home && B < FirstNew(cfg, s) && Idx.Shows(s.index, B, s.home[B])
      && DoConsume(cfg, s, t) == s.(index := Idx.StoreValue(s.index, Idx.At(Idx.Current(s.index), B), None),
                                    consumers := ClearedBy(s, t))
  {
    hide CellsOk, FillOk, KeysUpToTail, RoomOk, CountsOk, ProducerShape, TailBlockOk, Claims.Inv, HomeOk;
    hide PlacesOk, ViewsOk, ReadsOk, Hidden;
    ReturnerStands(cfg, s, t);
    Returner(cfg, s, t);
    ClearHides(cfg, s, t);
  }

  lemma ClearKeepsIndex(cfg: Config, s: State, B: nat)
    requires Inv(cfg, s) && B in s.home && B < FirstNew(cfg, s) && Idx.Shows(s.index, B, s.home[B])
    ensures var x' := Idx.StoreValue(s.index, Idx.At(Idx.Current(s.index), B), None);
      && IndexOk(cfg, x') && ProducerShape(FirstNew(cfg, s), x', s.producer)
      && ViewsOk(cfg.BlockSize(), s.index, s.home, s.consumers)
      && x'.headers == s.index.headers && |x'.entries| == |s.index.entries|
      && (forall e :: 0 <= e < |x'.entries| ==> x'.entries[e].key == s.index.entries[e].key)
  {
    hide CellsOk, FillOk, KeysUpToTail, RoomOk, CountsOk, TailBlockOk, Claims.Inv, HomeOk, ShownOk, PlacesOk, ReadsOk;
    Idx.StoreValueKeepsInv(s.index, Idx.At(Idx.Current(s.index), B), None);
  }

  lemma ClearKeepsInv(cfg: Config, s: State, t: nat)
    requires Inv(cfg, s) && t < |s.consumers| && s.consumers[t].ClearEntry?
    ensures CanConsume(cfg, s, s.consumers[t]) && Inv(cfg, DoConsume(cfg, s, t))
  {
    hide CellsOk, ShownOk, FillOk, KeysUpToTail, RoomOk, CountsOk, TailBlockOk, Claims.Inv, HomeOk;
    hide PlacesOk, ViewsOk, ReadsOk, Hidden, DoConsume, CanConsume;
    ClearFindsEntry(cfg, s, t);
    ClearHides(cfg, s, t);
    var n, first, B := cfg.BlockSize(), FirstNew(cfg, s), Number(cfg.BlockSize(), s.consumers[t].i - 1);
    var e := Idx.At(Idx.Current(s.index), B);
    ClearKeepsIndex(cfg, s, B);
    ClearKeepsShown(n, first, s.index, s.home, s.producer, s.consumers, s.producer, ClearedBy(s, t), B);
    ClearKeepsKeys(n, first, s.index, s.home, s.producer, s.consumers, ClearedBy(s, t), e);
    ClearKeepsCounts(cfg, s, t);
    ClearKeepsConsumers(cfg, s, t);
    SameKeysSameViews(n, s.index, Idx.StoreValue(s.index, e, None), s.home, ClearedBy(s, t));
  }

  // ---- Returning an emptied block ----

  // The consumers once consumer t has returned its block.
  function FreedBy(s: State, t: nat): seq<ConsumerPc>
    requires t < |s.consumers| && s.consumers[t].FreeBlock?
    requires s.consumers[t].header < |s.index.headers| && 0 < Capacity(s, s.consumers[t].header)
  {
    var pc := s.consumers[t];
    s.consumers[t := Onward(pc.i, pc.stop, pc.header, pc.slot, Capacity(s, pc.header))]
  }

  lemma FreeSums(n: nat, s: State, t: nat, b: nat)
    requires 0 < n && t < |s.consumers| && s.consumers[t].FreeBlock? && 0 < s.consumers[t].i
    requires s.consumers[t].header < |s.index.headers| && 0 < Capacity(s, s.consumers[t].header)
    ensures Sum(UncountedIn(n, b), FreedBy(s, t)) == Sum(UncountedIn(n, b), s.consumers)
    ensures Sum(Finishing(n, b), FreedBy(s, t)) ==
            Sum(Finishing(n, b), s.consumers) - One(b == Number(n, s.consumers[t].i - 1))
    ensures Sum(Cleared(n, b), FreedBy(s, t)) ==
            Sum(Cleared(n, b), s.consumers) - One(b == Number(n, s.consumers[t].i - 1))
  {
    var pc := s.consumers[t];
    var pc' := Onward(pc.i, pc.stop, pc.header, pc.slot, Capacity(s, pc.header));
    SumUpdate(UncountedIn(n, b), s.consumers, t, pc');
    SumUpdate(Finishing(n, b), s.consumers, t, pc');
    SumUpdate(Cleared(n, b), s.consumers, t, pc');
  }

  /** When a block is returned every one of its elements has been taken. */
  lemma FinishedBlockIsRead(cfg: Config, s: State, b: nat, i: nat)
    requires Inv(cfg, s) && Number(cfg.BlockSize(), i) == b
    requires Below(s.c.head, Start(cfg.BlockSize(), b), cfg.BlockSize()) == cfg.BlockSize()
    requires Sum(UncountedIn(cfg.BlockSize(), b), s.consumers) == 0
    ensures i in s.got && i < s.c.head <= s.c.tail
  {
    hide CellsOk, FillOk, KeysUpToTail, RoomOk, CountsOk, TailBlockOk, HomeOk, ShownOk, IndexOk, ViewsOk, ProducerShape;
    var n := cfg.BlockSize();
    Claims.ClaimsAreSound(s.c);
    Within(n, i);
    forall t | 0 <= t < |s.consumers| ensures UnreadAt(i)(s.consumers[t]) <= UncountedIn(n, b)(s.consumers[t]) {
      assert PlaceOk(cfg, s.c.head, s.consumers[t], s.c.pcs[t]);
    }
    SumMonotone(UnreadAt(i), UncountedIn(n, b), s.consumers);
    SumNonNegative(UnreadAt(i), s.consumers);
    assert Sum(UnreadAt(i), s.consumers) + One(i in s.got) == One(i < s.c.head);
  }

  lemma FreeKeepsCounts(cfg: Config, s: State, t: nat)
    requires Inv(cfg, s) && t < |s.consumers| && s.consumers[t].FreeBlock?
    ensures CanConsume(cfg, s, s.consumers[t])
    ensures CountsOk(cfg.BlockSize(), FirstNew(cfg, s), s.c.head, s.home - {Number(cfg.BlockSize(), s.consumers[t].i - 1)},
                     s.blocks - {s.consumers[t].block}, s.producer, FreedBy(s, t))
  {
    hide CellsOk, ShownOk, FillOk, KeysUpToTail, RoomOk, ProducerShape, TailBlockOk, Claims.Inv, ReadsOk, ViewsOk;
    hide PlacesOk;
    ReturnerStands(cfg, s, t);
    Returner(cfg, s, t);
    var n, first, B := cfg.BlockSize(), FirstNew(cfg, s), Number(cfg.BlockSize(), s.consumers[t].i - 1);
    var home', blocks' := s.home - {B}, s.blocks - {s.consumers[t].block};
    forall b: nat
      ensures b in home' ==> home'[b] in blocks'
      ensures BlockCountOk(n, first, s.c.head, home', blocks', s.producer, FreedBy(s, t), b)
    {
      assert BlockCountOk(n, first, s.c.head, s.home, s.blocks, s.producer, s.consumers, b);
      FreeSums(n, s, t, b);
      ClearedAtMostFinishing(n, FreedBy(s, t), b);
    }
  }

  lemma FreeKeepsHome(first: nat, home: Homes, blocks: Held, pc: ProducerPc, b: nat)
    requires HomeOk(first, home, blocks, pc) && b in home && b < first
    ensures HomeOk(first, home - {b}, blocks - {home[b]}, pc)
  {}

  /** The returned block had been hidden before, so nothing else changes about what the index shows. */
  lemma FreeKeepsShown(n: nat, first: nat, x: Idx.Index, home: Homes, pc: ProducerPc, consumers: seq<ConsumerPc>,
                       after: seq<ConsumerPc>, b: nat)
    requires 0 < n && Idx.WellFormed(x) && b < first && Hidden(n, first, pc, consumers, b)
    requires ShownOk(n, first, x, home, pc, consumers) && KeysUpToTail(n, first, x, home, pc, consumers)
    requires forall a: nat :: a != b ==> Hidden(n, first, pc, after, a) == Hidden(n, first, pc, consumers, a)
    ensures ShownOk(n, first, x, home - {b}, pc, after) && KeysUpToTail(n, first, x, home - {b}, pc, after)
  {
    hide Hidden;
    forall p | 0 <= p < |Idx.Current(x).ring|
      ensures NoStray(n, first, x.entries[Idx.Current(x).ring[p]], x.unsettled, home - {b}, pc, after)
    {
      assert NoStray(n, first, x.entries[Idx.Current(x).ring[p]], x.unsettled, home, pc, consumers);
    }
  }

  lemma FreeHides(cfg: Config, s: State, t: nat)
    requires Inv(cfg, s) && t < |s.consumers| && s.consumers[t].FreeBlock?
    ensures 0 < s.consumers[t].i && s.consumers[t].header < |s.index.headers| && 0 < Capacity(s, s.consumers[t].header)
    ensures var n, first, B := cfg.BlockSize(), FirstNew(cfg, s), Number(cfg.BlockSize(), s.consumers[t].i - 1);
      && Hidden(n, first, s.producer, s.consumers, B)
      && forall a: nat :: a != B ==>
           Hidden(n, first, s.producer, FreedBy(s, t), a) == Hidden(n, first, s.producer, s.consumers, a)
  {
    hide CellsOk, ShownOk, FillOk, KeysUpToTail, RoomOk, CountsOk, ProducerShape, TailBlockOk, Claims.Inv, HomeOk;
    hide ViewsOk, ReadsOk, IndexOk;
    ReturnerStands(cfg, s, t);
    Returner(cfg, s, t);
    var n, first, B := cfg.BlockSize(), FirstNew(cfg, s), Number(cfg.BlockSize(), s.consumers[t].i - 1);
    WeightsAreNatural(cfg, s.c.head, s.consumers, s.c.pcs, B);
    SumBoundsMember(Cleared(n, B), s.consumers, t);
    forall a: nat | a != B
      ensures Hidden(n, first, s.producer, FreedBy(s, t), a) == Hidden(n, first, s.producer, s.consumers, a)
    {
      FreeSums(n, s, t, a);
    }
  }

  // An index beyond the tail is not in a block that is being returned.
  lemma NewIndexElsewhere(cfg: Config, s: State, t: nat, i: nat)
    requires Inv(cfg, s) && t < |s.consumers| && s.consumers[t].FreeBlock? && s.c.tail <= i
    ensures 0 < s.consumers[t].i && Number(cfg.BlockSize(), i) != Number(cfg.BlockSize(), s.consumers[t].i - 1)
  {
    hide CellsOk, ShownOk, FillOk, KeysUpToTail, RoomOk, CountsOk, ProducerShape, TailBlockOk, HomeOk;
    hide ViewsOk, ReadsOk, IndexOk, PlacesOk;
    ReturnerStands(cfg, s, t);
    Returner(cfg, s, t);
    var B := Number(cfg.BlockSize(), s.consumers[t].i - 1);
    if Number(cfg.BlockSize(), i) == B {
      FinishedBlockIsRead(cfg, s, B, i);
    }
  }

  /** No element still to be taken, and none being constructed, is in the block that goes back. */
  lemma FreeKeepsCells(cfg: Config, s: State, t: nat)
    requires Inv(cfg, s) && t < |s.consumers| && s.consumers[t].FreeBlock?
    ensures 0 < s.consumers[t].i
    ensures CellsOk(cfg.BlockSize(), s.home - {Number(cfg.BlockSize(), s.consumers[t].i - 1)},
                    s.blocks - {s.consumers[t].block},
                    s.items, s.got, Filled(s.producer))
  {
    hide ShownOk, FillOk, KeysUpToTail, RoomOk, CountsOk, ProducerShape, TailBlockOk, HomeOk, Claims.Inv;
    hide ViewsOk, ReadsOk, IndexOk, PlacesOk, Filled;
    ReturnerStands(cfg, s, t);
    Returner(cfg, s, t);
    var n, B := cfg.BlockSize(), Number(cfg.BlockSize(), s.consumers[t].i - 1);
    var home', blocks' := s.home - {B}, s.blocks - {s.consumers[t].block};
    forall i: nat, value | Number(n, i) != B && CellIs(n, s.home, s.blocks, i, value)
      ensures CellIs(n, home', blocks', i, value)
    {
      if s.home[Number(n, i)] == s.consumers[t].block {
        NumbersAreUnique(FirstNew(cfg, s), s.home, s.blocks, s.producer, Number(n, i), B);
      }
    }
    forall i: nat | i !in s.got ensures Number(n, i) != B {
      if Number(n, i) == B {
        FinishedBlockIsRead(cfg, s, B, i);
      }
    }
    forall i: nat | |s.items| <= i ensures Number(n, i) != B {
      NewIndexElsewhere(cfg, s, t, i);
    }
  }

  lemma FreeKeepsFill(cfg: Config, s: State, t: nat)
    requires Inv(cfg, s) && t < |s.consumers| && s.consumers[t].FreeBlock?
    ensures 0 < s.consumers[t].i
    ensures var home' := s.home - {Number(cfg.BlockSize(), s.consumers[t].i - 1)};
      && FillOk(cfg.BlockSize(), s.c.tail, home', s.tailBlock, s.producer)
      && TailBlockOk(cfg.BlockSize(), s.c.tail, home', s.tailBlock)
  {
    hide ShownOk, CellsOk, KeysUpToTail, RoomOk, CountsOk, ProducerShape, HomeOk, Claims.Inv;
    hide ViewsOk, ReadsOk, IndexOk, PlacesOk, Filled;
    ReturnerStands(cfg, s, t);
    Returner(cfg, s, t);
    forall i: nat | s.c.tail <= i
      ensures Number(cfg.BlockSize(), i) != Number(cfg.BlockSize(), s.consumers[t].i - 1)
    {
      NewIndexElsewhere(cfg, s, t, i);
    }
  }

  // A consumer with elements to report is in no block that is being returned.
  lemma ReaderElsewhere(cfg: Config, s: State, t: nat, u: nat)
    requires Inv(cfg, s) && t < |s.consumers| && s.consumers[t].FreeBlock? && u < |s.consumers|
    requires s.consumers[u].Take? || s.consumers[u].Complete?
    ensures 0 < s.consumers[t].i
    ensures Number(cfg.BlockSize(), s.consumers[u].from) != Number(cfg.BlockSize(), s.consumers[t].i - 1)
  {
    hide ShownOk, CellsOk, KeysUpToTail, RoomOk, CountsOk, ProducerShape, HomeOk, Claims.Inv, FillOk, TailBlockOk;
    hide ReadsOk, Filled, ViewsOk, IndexOk;
    ReturnerStands(cfg, s, t);
    Returner(cfg, s, t);
    assert PlaceOk(cfg, s.c.head, s.consumers[u], s.c.pcs[u]);
    ClaimedBlockIsShown(cfg, s, u, s.consumers[u].from);
  }

  /** The other consumers are in other blocks. */
  lemma FreeKeepsView(cfg: Config, s: State, t: nat, u: nat)
    requires Inv(cfg, s) && t < |s.consumers| && s.consumers[t].FreeBlock? && u < |s.consumers| && u != t
    ensures 0 < s.consumers[t].i
    ensures ViewOk(cfg.BlockSize(), s.index, s.home - {Number(cfg.BlockSize(), s.consumers[t].i - 1)}, s.consumers[u])
  {
    hide ShownOk, CellsOk, KeysUpToTail, RoomOk, CountsOk, ProducerShape, HomeOk, Claims.Inv, FillOk, TailBlockOk;
    hide ReadsOk, Filled, PlacesOk, PlaceOk;
    ReturnerStands(cfg, s, t);
    Returner(cfg, s, t);
    var n, B := cfg.BlockSize(), Number(cfg.BlockSize(), s.consumers[t].i - 1);
    OnlyOneReturner(n, s.consumers, t, u, B);
    var pc := s.consumers[u];
    if pc.Take? || pc.Complete? {
      ReaderElsewhere(cfg, s, t, u);
    }
    OtherHome(n, s.index, s.home, pc, B);
  }

  lemma OtherHome(n: nat, x: Idx.Index, home: Homes, pc: ConsumerPc, b: nat)
    requires 0 < n && Idx.WellFormed(x) && ViewOk(n, x, home, pc)
    requires pc.Take? || pc.Complete? ==> Number(n, pc.from) != b
    requires !Finishes(n, b, pc)
    ensures ViewOk(n, x, home - {b}, pc)
  {}

  lemma FreeKeepsConsumers(cfg: Config, s: State, t: nat)
    requires Inv(cfg, s) && t < |s.consumers| && s.consumers[t].FreeBlock?
    ensures CanConsume(cfg, s, s.consumers[t])
    ensures PlacesOk(cfg, s.c.head, FreedBy(s, t), s.c.pcs)
    ensures ViewsOk(cfg.BlockSize(), s.index, s.home - {Number(cfg.BlockSize(), s.consumers[t].i - 1)}, FreedBy(s, t))
    ensures ReadsOk(s.c.head, FreedBy(s, t), s.got)
  {
    hide CellsOk, ShownOk, FillOk, KeysUpToTail, RoomOk, CountsOk, ProducerShape, TailBlockOk, Claims.Inv, HomeOk;
    hide PlacesOk, ReadsOk, ViewOk;
    ReturnerStands(cfg, s, t);
    Returner(cfg, s, t);
    var pc, n := s.consumers[t], cfg.BlockSize();
    var pc' := Onward(pc.i, pc.stop, pc.header, pc.slot, Capacity(s, pc.header));
    OnwardIsRight(cfg, s.index, s.home, s.c.head, s.c.pcs[t], pc);
    MoveKeepsPlaces(cfg, s, t, pc');
    QuietKeepsReads(s.c.head, s.consumers, s.got, t, pc');
    var home' := s.home - {Number(n, pc.i - 1)};
    forall u | 0 <= u < |s.consumers| ensures ViewOk(n, s.index, home', FreedBy(s, t)[u]) {
      if u == t {
        LoadingNeedsNoHome(n, s.index, s.home, home', pc');
      } else {
        FreeKeepsView(cfg, s, t, u);
      }
    }
  }

  lemma LoadingNeedsNoHome(n: nat, x: Idx.Index, home: Homes, home': Homes, pc: ConsumerPc)
    requires 0 < n && Idx.WellFormed(x) && ViewOk(n, x, home, pc) && (pc.LoadValue? || pc.Finished?)
    ensures ViewOk(n, x, home', pc)
  {}

  lemma FreeKeepsInv(cfg: Config, s: State, t: nat)
    requires Inv(cfg, s) && t < |s.consumers| && s.consumers[t].FreeBlock?
    ensures CanConsume(cfg, s, s.consumers[t]) && Inv(cfg, DoConsume(cfg, s, t))
  {
    hide CellsOk, ShownOk, FillOk, KeysUpToTail, RoomOk, CountsOk, ProducerShape, TailBlockOk, Claims.Inv, HomeOk;
    hide PlacesOk, ReadsOk, ViewsOk, Hidden;
    ReturnerStands(cfg, s, t);
    Returner(cfg, s, t);
    var n, first, B := cfg.BlockSize(), FirstNew(cfg, s), Number(cfg.BlockSize(), s.consumers[t].i - 1);
    FreeHides(cfg, s, t);
    FreeKeepsHome(first, s.home, s.blocks, s.producer, B);
    FreeKeepsShown(n, first, s.index, s.home, s.producer, s.consumers, FreedBy(s, t), B);
    FreeKeepsCounts(cfg, s, t);
    FreeKeepsCells(cfg, s, t);
    FreeKeepsFill(cfg, s, t);
    FreeKeepsConsumers(cfg, s, t);
    assert DoConsume(cfg, s, t) ==
      s.(blocks := s.blocks - {s.consumers[t].block}, home := s.home - {B}, consumers := FreedBy(s, t));
  }

  /** Any step of any consumer: it can be taken, and it keeps the invariant. */
  lemma ConsumeKeepsInv(cfg: Config, s: State, t: nat)
    requires Inv(cfg, s) && t < |s.consumers|
    ensures CanConsume(cfg, s, s.consumers[t]) && Inv(cfg, DoConsume(cfg, s, t))
  {
    hide Inv;
    match s.consumers[t]
    case NoClaim => IdleStep(cfg, s, t);
    case LoadIndex(_, _) => LoadIndexKeepsInv(cfg, s, t);
    case LoadTail(_, _, _) => LoadTailKeepsInv(cfg, s, t);
    case LoadKey(_, _, _, _) => LoadKeyKeepsInv(cfg, s, t);
    case LoadValue(_, _, _, _) => LoadValueKeepsInv(cfg, s, t);
    case Take(_, _, _, _, _, _) => TakeKeepsInv(cfg, s, t);
    case Complete(_, _, _, _, _, _) => CompleteKeepsInv(cfg, s, t);
    case ClearEntry(_, _, _, _, _) => ClearKeepsInv(cfg, s, t);
    case FreeBlock(_, _, _, _, _) => FreeKeepsInv(cfg, s, t);
    case Finished => IdleStep(cfg, s, t);
  }

  lemma IdleStep(cfg: Config, s: State, t: nat)
    requires Inv(cfg, s) && t < |s.consumers| && (s.consumers[t].NoClaim? || s.consumers[t].Finished?)
    ensures CanConsume(cfg, s, s.consumers[t]) && DoConsume(cfg, s, t) == s
  {
    hide CellsOk, ShownOk, FillOk, KeysUpToTail, RoomOk, CountsOk, ProducerShape, TailBlockOk, Claims.Inv, HomeOk;
    hide PlacesOk, ReadsOk, ViewsOk;
  }
}
