/** Undoing an enqueue that could not get all its blocks keeps the invariant of the implicit producer machine. */
module ImplicitRollback {
  import opened Common
  import opened Words
  import opened BlockMath
  import opened ImplicitProducer
  import opened ImplicitInvariant
  import opened ImplicitConsumers
  import opened ImplicitReturns
  import opened ImplicitClaims
  import opened ImplicitAllocation
  import opened ImplicitHooking
  import Claims = DequeueClaims
  import Idx = ImplicitIndex

  lemma RewindKeepsIndex(cfg: Config, x: Idx.Index)
    requires IndexOk(cfg, x) && 0 < x.inserted && KeyOf(x, x.inserted - 1) == Some(x.inserted - 1)
    ensures IndexOk(cfg, Idx.Rewind(x)) && TailMoved(x, Idx.Rewind(x))
  {
    Idx.RewindKeepsInv(x);
  }

  // ---- The entry for which there was no block ----

  lemma UnblockedEntry(cfg: Config, s: State)
    requires Inv(cfg, s) && (s.producer.UndoTail? || s.producer.UndoValue?)
    ensures var B := FirstNew(cfg, s) + |s.producer.chain|;
      && s.index.unsettled == Some(B) && KeyOf(s.index, B) == Some(B) && B !in s.home
      && s.index.inserted == (if s.producer.UndoTail? then B + 1 else B)
  {
    hide CellsOk, CountsOk, PlacesOk, ReadsOk, ViewsOk, KeysUpToTail, TailBlockOk, Claims.Inv, FillOk, RoomOk;
    hide NoStray, Hidden;
  }

  // A step of the rollback needs no room and fills nothing.
  lemma RollbackPlaceIsRight(cfg: Config, s: State, pc': ProducerPc)
    requires Inv(cfg, s) && (s.producer.UndoTail? || s.producer.UndoValue? || s.producer.UndoEntry? || s.producer.UndoRewind?
                             || s.producer.UndoFree?)
    requires pc'.Ready? || pc'.UndoValue? || pc'.UndoEntry? || pc'.UndoRewind? || pc'.UndoFree?
    ensures FillOk(cfg.BlockSize(), s.c.tail, s.home, s.tailBlock, pc') && RoomOk(cfg, FirstNew(cfg, s), s.c.head, pc')
    ensures Filled(pc') == Filled(s.producer) == []
  {
    hide CellsOk, CountsOk, PlacesOk, ReadsOk, ViewsOk, KeysUpToTail, TailBlockOk, Claims.Inv, HomeOk, ShownOk, IndexOk;
  }

  lemma UndoTailKeepsInv(cfg: Config, s: State)
    requires Inv(cfg, s) && s.producer.UndoTail?
    ensures CanProduce(cfg, s) && Inv(cfg, DoUndoTail(s))
  {
    hide CellsOk, CountsOk, PlacesOk, ReadsOk, ViewsOk, KeysUpToTail, TailBlockOk, Claims.Inv, HomeOk, FillOk, RoomOk;
    hide ShownOk, TailMoved;
    var n, first, pc := cfg.BlockSize(), FirstNew(cfg, s), s.producer;
    var pc' := UndoValue(pc.chain);
    UnblockedEntry(cfg, s);
    RewindKeepsIndex(cfg, s.index);
    RollbackPlaceIsRight(cfg, s, pc');
    ProducerMoveKeeps(cfg, s, pc');
    TailMoveKeepsShown(n, first, s.index, Idx.Rewind(s.index), s.home, pc', s.consumers);
    TailMoveKeepsKeys(n, first, s.index, Idx.Rewind(s.index), s.home, pc', s.consumers);
    TailMoveKeepsViews(cfg, s, Idx.Rewind(s.index));
  }

  /** Clearing the entry whose key was stored but which never got a block leaves no stray value behind. */
  lemma UndoValueKeepsShown(n: nat, first: nat, x: Idx.Index, home: Homes, pc: ProducerPc, consumers: seq<ConsumerPc>, B: nat)
    requires 0 < n && Idx.Inv(x) && x.unsettled == Some(B) && KeyOf(x, B) == Some(B) && B !in home
    requires ShownOk(n, first, x, home, pc, consumers)
    ensures ShownOk(n, first, Idx.StoreValue(x, Idx.At(Idx.Current(x), B), None), home, pc, consumers)
  {
    var x' := Idx.StoreValue(x, Idx.At(Idx.Current(x), B), None);
    assert Idx.WellFormed(x);
    forall p | 0 <= p < |Idx.Current(x').ring|
      ensures NoStray(n, first, x'.entries[Idx.Current(x').ring[p]], x'.unsettled, home, pc, consumers)
    {
      assert NoStray(n, first, x.entries[Idx.Current(x).ring[p]], x.unsettled, home, pc, consumers);
      if x.entries[Idx.Current(x).ring[p]].key == Some(B) {
        KeyIsUnique(x, p, B);
      }
    }
    hide Idx.Inv, Hidden, NoStray;
    forall a: nat
      ensures KeyOf(x', a) == KeyOf(x, a)
      ensures a in home && Idx.Shows(x, a, home[a]) ==> Idx.Shows(x', a, home[a])
    {
      ClearedAt(x, B, a);
    }
  }

  lemma UndoValueFindsEntry(cfg: Config, s: State)
    requires Inv(cfg, s) && s.producer.UndoValue?
    ensures var B := FirstNew(cfg, s) + |s.producer.chain|;
      Idx.NextEntry(s.index) == Idx.At(Idx.Current(s.index), B)
  {
    hide CellsOk, CountsOk, PlacesOk, ReadsOk, ViewsOk, KeysUpToTail, TailBlockOk, Claims.Inv, HomeOk, FillOk, RoomOk;
    hide ShownOk;
    Idx.NextEntryIsNext(s.index);
  }

  lemma UndoValueKeepsInv(cfg: Config, s: State)
    requires Inv(cfg, s) && s.producer.UndoValue?
    ensures CanProduce(cfg, s) && Inv(cfg, DoUndoValue(s))
  {
    hide CellsOk, CountsOk, PlacesOk, ReadsOk, ViewsOk, KeysUpToTail, TailBlockOk, Claims.Inv, HomeOk, FillOk, RoomOk;
    hide ShownOk;
    var n, first, pc := cfg.BlockSize(), FirstNew(cfg, s), s.producer;
    var B, pc' := first + |pc.chain|, Undo(pc.chain, 0);
    UnblockedEntry(cfg, s);
    UndoValueFindsEntry(cfg, s);
    RollbackPlaceIsRight(cfg, s, pc');
    ProducerMoveKeeps(cfg, s, pc');
    var e := Idx.At(Idx.Current(s.index), B);
    Idx.StoreValueKeepsInv(s.index, e, None);
    UndoValueKeepsShown(n, first, s.index, s.home, pc', s.consumers, B);
    ValueKeepsKeys(n, first, s.index, s.home, pc', s.consumers, pc', e, None);
    ValueKeepsViews(n, s.index, s.home, s.consumers, e, None);
  }

  // ---- The entries of the blocks obtained ----

  lemma RollbackIsUnderWay(cfg: Config, s: State)
    requires Inv(cfg, s) && (s.producer.UndoEntry? || s.producer.UndoRewind?)
    ensures s.producer.done < |s.producer.chain|
  {
    hide CellsOk, CountsOk, PlacesOk, ReadsOk, ViewsOk, KeysUpToTail, TailBlockOk, Claims.Inv, FillOk, RoomOk, HomeOk;
    hide ShownOk, IndexOk;
  }

  // The blocks of the call, and the last block in the index, are held and carry their own keys.
  lemma StagedBlock(cfg: Config, s: State, j: nat)
    requires Inv(cfg, s) && (s.producer.UndoEntry? || s.producer.UndoRewind?) && j < |s.producer.chain|
    ensures var B := FirstNew(cfg, s) + j;
      && B in s.home && s.home[B] == s.producer.chain[j] && KeyOf(s.index, B) == Some(B)
      && s.index.unsettled == None && s.producer.done < |s.producer.chain|
      && s.index.inserted == FirstNew(cfg, s) + |s.producer.chain| - s.producer.done
  {
    hide CellsOk, CountsOk, PlacesOk, ReadsOk, ViewsOk, KeysUpToTail, TailBlockOk, Claims.Inv, FillOk, RoomOk;
    hide NoStray, Hidden;
    assert FirstNew(cfg, s) + j in s.home;
  }

  lemma TailOfIndex(cfg: Config, x: Idx.Index)
    requires IndexOk(cfg, x)
    ensures Idx.Current(x).ring[Idx.Current(x).tail] == Idx.At(Idx.Current(x), x.inserted - 1)
  {}

  /** The lookup the rollback makes for its own block finds that block's entry. */
  lemma RollbackFindsEntry(cfg: Config, s: State)
    requires Inv(cfg, s) && s.producer.UndoEntry?
    ensures CanProduce(cfg, s)
    ensures var B := FirstNew(cfg, s) + s.producer.done;
      FoundPosition(cfg, s, B) == Idx.Position(Idx.Current(s.index), B)
  {
    hide CellsOk, CountsOk, PlacesOk, ReadsOk, ViewsOk, KeysUpToTail, TailBlockOk, Claims.Inv, FillOk, RoomOk, HomeOk;
    hide ShownOk, ProducerShape;
    var n, first, pc := cfg.BlockSize(), FirstNew(cfg, s), s.producer;
    RollbackIsUnderWay(cfg, s);
    StagedBlock(cfg, s, 0);
    StagedBlock(cfg, s, |pc.chain| - 1 - pc.done);
    TailOfIndex(cfg, s.index);
    var B := first + pc.done;
    var h := Idx.Current(s.index);
    Idx.LookupIsExact(cfg.w, cfg.k, s.index, |s.index.headers| - 1, h.tail, B * n);
    DivisionIsUnique(B * n, n, B, 0);
  }

  lemma UndoEntryHides(cfg: Config, s: State)
    requires Inv(cfg, s) && s.producer.UndoEntry?
    ensures var n, first, B := cfg.BlockSize(), FirstNew(cfg, s), FirstNew(cfg, s) + s.producer.done;
      var pc' := UndoRewind(s.producer.chain, s.producer.done);
      && B in s.home && Idx.Shows(s.index, B, s.home[B])
      && forall a: nat :: a in s.home ==>
           Hidden(n, first, pc', s.consumers, a) == (Hidden(n, first, s.producer, s.consumers, a) || a == B)
  {
    hide CellsOk, CountsOk, PlacesOk, ReadsOk, ViewsOk, KeysUpToTail, TailBlockOk, Claims.Inv, FillOk, RoomOk;
    hide NoStray;
    RollbackIsUnderWay(cfg, s);
    StagedBlock(cfg, s, s.producer.done);
  }

  lemma UndoEntryKeepsOthers(cfg: Config, s: State)
    requires Inv(cfg, s) && s.producer.UndoEntry?
    ensures var n, first := cfg.BlockSize(), FirstNew(cfg, s);
      var pc' := UndoRewind(s.producer.chain, s.producer.done);
      && HomeOk(first, s.home, s.blocks, pc')
      && CountsOk(n, first, s.c.head, s.home, s.blocks, pc', s.consumers)
  {
    hide CellsOk, CountsOk, PlacesOk, ReadsOk, ViewsOk, KeysUpToTail, TailBlockOk, Claims.Inv, FillOk, RoomOk, ShownOk;
    hide IndexOk;
    ProducerMoveKeepsCounts(cfg.BlockSize(), FirstNew(cfg, s), s.c.head, s.home, s.blocks, s.producer, s.consumers,
                            UndoRewind(s.producer.chain, s.producer.done));
  }

  lemma UndoEntryKeepsInv(cfg: Config, s: State)
    requires Inv(cfg, s) && s.producer.UndoEntry?
    ensures CanProduce(cfg, s)
    ensures Inv(cfg, DoUndoEntry(s, FoundPosition(cfg, s, FirstNew(cfg, s) + s.producer.done)))
  {
    hide CellsOk, CountsOk, PlacesOk, ReadsOk, ViewsOk, KeysUpToTail, TailBlockOk, Claims.Inv, FillOk, RoomOk, HomeOk;
    hide ShownOk, Hidden, FoundPosition;
    var n, first, pc := cfg.BlockSize(), FirstNew(cfg, s), s.producer;
    var B, pc' := first + pc.done, UndoRewind(pc.chain, pc.done);
    RollbackIsUnderWay(cfg, s);
    StagedBlock(cfg, s, pc.done);
    RollbackFindsEntry(cfg, s);
    UndoEntryHides(cfg, s);
    UndoEntryKeepsOthers(cfg, s);
    RollbackPlaceIsRight(cfg, s, pc');
    var e := Idx.At(Idx.Current(s.index), B);
    Idx.StoreValueKeepsInv(s.index, e, None);
    ClearKeepsShown(n, first, s.index, s.home, pc, s.consumers, pc', s.consumers, B);
    ValueKeepsKeys(n, first, s.index, s.home, pc, s.consumers, pc', e, None);
    ValueKeepsViews(n, s.index, s.home, s.consumers, e, None);
  }

  lemma UndoRewindKeepsOthers(cfg: Config, s: State)
    requires Inv(cfg, s) && s.producer.UndoRewind?
    ensures var n, first, pc' := cfg.BlockSize(), FirstNew(cfg, s), Undo(s.producer.chain, s.producer.done + 1);
      && ShownOk(n, first, s.index, s.home, pc', s.consumers)
      && KeysUpToTail(n, first, s.index, s.home, pc', s.consumers)
      && CountsOk(n, first, s.c.head, s.home, s.blocks, pc', s.consumers)
      && HomeOk(first, s.home, s.blocks, pc')
      && ProducerShape(first, Idx.Rewind(s.index), pc')
  {
    hide CellsOk, CountsOk, PlacesOk, ReadsOk, ViewsOk, KeysUpToTail, TailBlockOk, Claims.Inv, FillOk, RoomOk, ShownOk;
    hide HomeOk;
    RollbackIsUnderWay(cfg, s);
    StagedBlock(cfg, s, 0);
    ProducerMoveKeeps(cfg, s, Undo(s.producer.chain, s.producer.done + 1));
  }

  lemma UndoRewindKeepsInv(cfg: Config, s: State)
    requires Inv(cfg, s) && s.producer.UndoRewind?
    ensures CanProduce(cfg, s) && Inv(cfg, DoUndoRewind(s))
  {
    hide CellsOk, CountsOk, PlacesOk, ReadsOk, ViewsOk, KeysUpToTail, TailBlockOk, Claims.Inv, HomeOk, FillOk, RoomOk;
    hide ShownOk, TailMoved, ProducerShape;
    var n, first, pc := cfg.BlockSize(), FirstNew(cfg, s), s.producer;
    var pc' := Undo(pc.chain, pc.done + 1);
    RollbackIsUnderWay(cfg, s);
    StagedBlock(cfg, s, 0);
    StagedBlock(cfg, s, |pc.chain| - 1 - pc.done);
    RewindKeepsIndex(cfg, s.index);
    RollbackPlaceIsRight(cfg, s, pc');
    UndoRewindKeepsOthers(cfg, s);
    TailMoveKeepsShown(n, first, s.index, Idx.Rewind(s.index), s.home, pc', s.consumers);
    TailMoveKeepsKeys(n, first, s.index, Idx.Rewind(s.index), s.home, pc', s.consumers);
    TailMoveKeepsViews(cfg, s, Idx.Rewind(s.index));
  }

  // ---- The blocks go back ----

  function AfterUndoFree(pc: ProducerPc): ProducerPc
    requires pc.UndoFree?
  {
    if pc.done + 1 < |pc.chain| then UndoFree(pc.chain, pc.done + 1) else Ready
  }

  lemma UndoFreeKeepsHome(first: nat, home: Homes, blocks: Held, pc: ProducerPc)
    requires HomeOk(first, home, blocks, pc) && pc.UndoFree? && pc.done < |pc.chain|
    ensures first + pc.done in home && home[first + pc.done] == pc.chain[pc.done] && pc.chain[pc.done] in blocks
    ensures HomeOk(first, home - {first + pc.done}, blocks - {pc.chain[pc.done]}, AfterUndoFree(pc))
  {
    assert first + pc.done in home;
  }

  lemma UndoFreeKeepsShown(n: nat, first: nat, x: Idx.Index, home: Homes, pc: ProducerPc, consumers: seq<ConsumerPc>)
    requires 0 < n && Idx.WellFormed(x) && pc.UndoFree? && pc.done < |pc.chain|
    requires ShownOk(n, first, x, home, pc, consumers) && KeysUpToTail(n, first, x, home, pc, consumers)
    requires forall b: nat :: b in home && b != first + pc.done && first <= b ==> AfterUndoFree(pc).UndoFree?
    ensures ShownOk(n, first, x, home - {first + pc.done}, AfterUndoFree(pc), consumers)
    ensures KeysUpToTail(n, first, x, home - {first + pc.done}, AfterUndoFree(pc), consumers)
  {
    var home', pc' := home - {first + pc.done}, AfterUndoFree(pc);
    forall b: nat | b in home' ensures Hidden(n, first, pc', consumers, b) == Hidden(n, first, pc, consumers, b) {}
    assert Hidden(n, first, pc, consumers, first + pc.done);
    hide Hidden, KeysFrom;
    forall p | 0 <= p < |Idx.Current(x).ring|
      ensures NoStray(n, first, x.entries[Idx.Current(x).ring[p]], x.unsettled, home', pc', consumers)
    {
      assert NoStray(n, first, x.entries[Idx.Current(x).ring[p]], x.unsettled, home, pc, consumers);
    }
  }

  lemma UndoFreeKeepsCount(n: nat, first: nat, head: nat, home: Homes, blocks: Held, pc: ProducerPc,
                           consumers: seq<ConsumerPc>, b: nat)
    requires 0 < n && HomeOk(first, home, blocks, pc) && pc.UndoFree? && pc.done < |pc.chain|
    requires BlockCountOk(n, first, head, home, blocks, pc, consumers, b)
    ensures var home', blocks' := home - {first + pc.done}, blocks - {pc.chain[pc.done]};
      && (b in home' ==> home'[b] in blocks')
      && BlockCountOk(n, first, head, home', blocks', AfterUndoFree(pc), consumers, b)
  {
    UndoFreeKeepsHome(first, home, blocks, pc);
    if b in home && b != first + pc.done {
      NumbersAreDistinct(first, home, blocks, pc, b, first + pc.done);
    }
    hide HomeOk;
  }

  lemma UndoFreeKeepsCounts(n: nat, first: nat, head: nat, home: Homes, blocks: Held, pc: ProducerPc,
                            consumers: seq<ConsumerPc>)
    requires 0 < n && HomeOk(first, home, blocks, pc) && pc.UndoFree? && pc.done < |pc.chain|
    requires CountsOk(n, first, head, home, blocks, pc, consumers)
    ensures CountsOk(n, first, head, home - {first + pc.done}, blocks - {pc.chain[pc.done]}, AfterUndoFree(pc), consumers)
  {
    hide HomeOk;
    var home', blocks' := home - {first + pc.done}, blocks - {pc.chain[pc.done]};
    forall b: nat
      ensures b in home' ==> home'[b] in blocks'
      ensures BlockCountOk(n, first, head, home', blocks', AfterUndoFree(pc), consumers, b)
    {
      assert BlockCountOk(n, first, head, home, blocks, pc, consumers, b);
      UndoFreeKeepsCount(n, first, head, home, blocks, pc, consumers, b);
    }
  }

  /** No published element is in a block that is rolled back. */
  lemma UndoFreeKeepsCells(n: nat, first: nat, home: Homes, blocks: Held, items: seq<Element>, got: map<nat, Element>,
                           pc: ProducerPc)
    requires 0 < n && HomeOk(first, home, blocks, pc) && pc.UndoFree? && pc.done < |pc.chain|
    requires first == Blocks(n, |items|) && CellsOk(n, home, blocks, items, got, [])
    ensures CellsOk(n, home - {first + pc.done}, blocks - {pc.chain[pc.done]}, items, got, [])
  {
    UndoFreeKeepsHome(first, home, blocks, pc);
    var home', blocks' := home - {first + pc.done}, blocks - {pc.chain[pc.done]};
    forall i: nat | i < |items| ensures Number(n, i) != first + pc.done {
      PublishedBlock(n, |items|, i);
    }
    forall i: nat, value | Number(n, i) != first + pc.done && CellIs(n, home, blocks, i, value)
      ensures CellIs(n, home', blocks', i, value)
    {
      NumbersAreDistinct(first, home, blocks, pc, Number(n, i), first + pc.done);
    }
    hide HomeOk, CellIs;
  }

  // The block of a tail inside a block is a published one.
  lemma TailBlockPublished(n: nat, tail: nat, home: Homes, tailBlock: Option<nat>, B: nat)
    requires 0 < n && TailBlockOk(n, tail, home, tailBlock) && Blocks(n, tail) <= B
    ensures TailBlockOk(n, tail, home - {B}, tailBlock)
  {
    if Start(n, Number(n, tail)) != tail {
      BlocksInside(n, tail);
    }
  }

  // Consumers are in published blocks.
  lemma ConsumersElsewhere(cfg: Config, s: State, t: nat, B: nat)
    requires Inv(cfg, s) && t < |s.consumers| && FirstNew(cfg, s) <= B
    ensures ViewOk(cfg.BlockSize(), s.index, s.home - {B}, s.consumers[t])
  {
    hide CellsOk, CountsOk, PlacesOk, ReadsOk, KeysUpToTail, TailBlockOk, Claims.Inv, FillOk, RoomOk, ShownOk, HomeOk;
    hide ProducerShape;
    var pc, n := s.consumers[t], cfg.BlockSize();
    assert ViewOk(n, s.index, s.home, pc);
    hide ViewsOk, ViewOk;
    if pc.Take? || pc.Complete? {
      ReporterPlace(cfg, s, t);
      ClaimedBlockIsShown(cfg, s, t, pc.from);
    } else if pc.ClearEntry? || pc.FreeBlock? {
      Returner(cfg, s, t);
    }
    OtherHome(n, s.index, s.home, pc, B);
  }

  lemma ReporterPlace(cfg: Config, s: State, t: nat)
    requires Inv(cfg, s) && t < |s.consumers| && (s.consumers[t].Take? || s.consumers[t].Complete?)
    ensures s.consumers[t].from < s.consumers[t].stop
  {
    hide CellsOk, CountsOk, ReadsOk, KeysUpToTail, TailBlockOk, Claims.Inv, FillOk, RoomOk, ShownOk, HomeOk, ViewsOk;
    hide ProducerShape, IndexOk;
    assert PlaceOk(cfg, s.c.head, s.consumers[t], s.c.pcs[t]);
  }

  lemma UndoFreeKeepsViews(cfg: Config, s: State, B: nat)
    requires Inv(cfg, s) && FirstNew(cfg, s) <= B
    ensures ViewsOk(cfg.BlockSize(), s.index, s.home - {B}, s.consumers)
  {
    hide CellsOk, CountsOk, PlacesOk, ReadsOk, KeysUpToTail, TailBlockOk, Claims.Inv, FillOk, RoomOk, ShownOk, HomeOk;
    hide ProducerShape, ViewOk;
    forall t | 0 <= t < |s.consumers| ensures ViewOk(cfg.BlockSize(), s.index, s.home - {B}, s.consumers[t]) {
      ConsumersElsewhere(cfg, s, t, B);
    }
  }

  lemma UndoFreeShape(cfg: Config, s: State)
    requires Inv(cfg, s) && s.producer.UndoFree?
    ensures var first, pc' := FirstNew(cfg, s), AfterUndoFree(s.producer);
      && s.producer.done < |s.producer.chain| && ProducerShape(first, s.index, pc')
      && (forall b: nat :: b in s.home && b != first + s.producer.done && first <= b ==> pc'.UndoFree?)
  {
    hide CellsOk, CountsOk, PlacesOk, ReadsOk, KeysUpToTail, TailBlockOk, Claims.Inv, FillOk, RoomOk, ShownOk, ViewsOk;
    hide IndexOk;
  }

  lemma UndoFreeKeepsInv(cfg: Config, s: State)
    requires Inv(cfg, s) && s.producer.UndoFree?
    ensures CanProduce(cfg, s) && Inv(cfg, DoUndoFree(cfg, s))
  {
    hide CellsOk, CountsOk, PlacesOk, ReadsOk, KeysUpToTail, TailBlockOk, Claims.Inv, FillOk, RoomOk, ShownOk, ViewsOk;
    hide HomeOk, ProducerShape;
    var n, first, pc := cfg.BlockSize(), FirstNew(cfg, s), s.producer;
    var B, pc' := first + pc.done, AfterUndoFree(pc);
    UndoFreeShape(cfg, s);
    RollbackPlaceIsRight(cfg, s, pc');
    FillIgnoresHome(n, s.c.tail, s.home, s.home - {B}, s.tailBlock, pc');
    UndoFreeKeepsHome(first, s.home, s.blocks, pc);
    UndoFreeKeepsShown(n, first, s.index, s.home, pc, s.consumers);
    UndoFreeKeepsCounts(n, first, s.c.head, s.home, s.blocks, pc, s.consumers);
    UndoFreeKeepsCells(n, first, s.home, s.blocks, s.items, s.got, pc);
    TailBlockPublished(n, s.c.tail, s.home, s.tailBlock, B);
    UndoFreeKeepsViews(cfg, s, B);
  }
}
