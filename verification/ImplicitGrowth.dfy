/** Doubling the block index while consumers look blocks up through the old and the new header keeps the invariant
    of the implicit producer machine. */
module ImplicitGrowth {
  import opened Common
  import opened Words
  import opened BlockMath
  import opened ImplicitProducer
  import opened ImplicitInvariant
  import opened ImplicitConsumers
  import opened ImplicitReturns
  import opened ImplicitClaims
  import opened ImplicitAllocation
  import Claims = DequeueClaims
  import Idx = ImplicitIndex

  /** A block of the last lap keeps its entry, with key and value, in the doubled ring. */
  lemma GrowKeepsBlock(x: Idx.Index, junk: seq<Option<nat>>, b: int)
    requires Idx.Inv(x) && |junk| == |Idx.Current(x).ring| && x.inserted - |Idx.Current(x).ring| <= b < x.inserted
    ensures Idx.WellFormed(Idx.Grow(x, junk))
    ensures var x' := Idx.Grow(x, junk);
      var e := Idx.At(Idx.Current(x), b);
      Idx.At(Idx.Current(x'), b) == e && x'.entries[e] == x.entries[e]
  {
    Idx.GrowIsOk(x, junk);
    Idx.GrowKeepsEntries(Idx.Current(x), |x.entries|, x.inserted, b);
  }

  // A key found in the current ring belongs to the last lap.
  lemma KeyInLap(x: Idx.Index, b: nat)
    requires Idx.Inv(x) && x.high == x.inserted && KeyOf(x, b) == Some(b)
    ensures x.inserted - |Idx.Current(x).ring| <= b < x.inserted
  {
    var h := Idx.Current(x);
    var p := Idx.Position(h, b);
    assert x.entries[h.ring[p]].key == Some(b);
  }

  lemma GrowLeavesNoStray(n: nat, first: nat, x: Idx.Index, junk: seq<Option<nat>>, home: Homes, pc: ProducerPc,
                          consumers: seq<ConsumerPc>, p: nat)
    requires 0 < n && Idx.Inv(x) && |junk| == |Idx.Current(x).ring| && p < 2 * |junk|
    requires forall q :: 0 <= q < |junk| ==>
      NoStray(n, first, x.entries[Idx.Current(x).ring[q]], x.unsettled, home, pc, consumers)
    ensures Idx.WellFormed(Idx.Grow(x, junk))
    ensures var x' := Idx.Grow(x, junk);
      NoStray(n, first, x'.entries[Idx.Current(x').ring[p]], x'.unsettled, home, pc, consumers)
  {
    Idx.GrowIsOk(x, junk);
    Idx.GrownEntry(x, junk, p);
    hide Idx.Inv, Hidden;
  }

  lemma GrowKeepsShown(n: nat, first: nat, x: Idx.Index, junk: seq<Option<nat>>, home: Homes, pc: ProducerPc,
                       consumers: seq<ConsumerPc>)
    requires 0 < n && Idx.Inv(x) && x.high == x.inserted && |junk| == |Idx.Current(x).ring| && x.unsettled == None
    requires ShownOk(n, first, x, home, pc, consumers)
    ensures Idx.WellFormed(Idx.Grow(x, junk))
    ensures ShownOk(n, first, Idx.Grow(x, junk), home, pc, consumers)
  {
    var x' := Idx.Grow(x, junk);
    Idx.GrowIsOk(x, junk);
    forall b: nat | KeyOf(x, b) == Some(b)
      ensures x'.entries[Idx.At(Idx.Current(x'), b)] == x.entries[Idx.At(Idx.Current(x), b)]
    {
      KeyInLap(x, b);
      GrowKeepsBlock(x, junk, b);
    }
    forall p | 0 <= p < |Idx.Current(x').ring|
      ensures NoStray(n, first, x'.entries[Idx.Current(x').ring[p]], x'.unsettled, home, pc, consumers)
    {
      GrowLeavesNoStray(n, first, x, junk, home, pc, consumers, p);
    }
    hide Hidden, Idx.Inv, NoStray;
  }

  lemma ShownHasKey(n: nat, first: nat, x: Idx.Index, home: Homes, pc: ProducerPc, consumers: seq<ConsumerPc>, b: nat)
    requires 0 < n && Idx.WellFormed(x) && ShownOk(n, first, x, home, pc, consumers)
    requires b in home && (first <= b || !Hidden(n, first, pc, consumers, b))
    ensures KeyOf(x, b) == Some(b)
  {
    hide Hidden, NoStray;
  }

  lemma GrowKeepsKeysFrom(x: Idx.Index, junk: seq<Option<nat>>, b: nat)
    requires Idx.Inv(x) && x.high == x.inserted && |junk| == |Idx.Current(x).ring|
    requires KeyOf(x, b) == Some(b) && KeysFrom(x, b)
    ensures Idx.WellFormed(Idx.Grow(x, junk)) && KeysFrom(Idx.Grow(x, junk), b)
  {
    Idx.GrowIsOk(x, junk);
    KeyInLap(x, b);
    forall b' | b <= b' < x.inserted ensures KeyOf(Idx.Grow(x, junk), b').Some? {
      GrowKeepsBlock(x, junk, b');
      assert KeyOf(x, b').Some?;
    }
  }

  lemma GrowKeepsKeys(n: nat, first: nat, x: Idx.Index, junk: seq<Option<nat>>, home: Homes, pc: ProducerPc,
                      consumers: seq<ConsumerPc>)
    requires 0 < n && Idx.Inv(x) && x.high == x.inserted && |junk| == |Idx.Current(x).ring|
    requires ShownOk(n, first, x, home, pc, consumers) && KeysUpToTail(n, first, x, home, pc, consumers)
    ensures Idx.WellFormed(Idx.Grow(x, junk))
    ensures KeysUpToTail(n, first, Idx.Grow(x, junk), home, pc, consumers)
  {
    Idx.GrowIsOk(x, junk);
    hide Hidden, NoStray, Idx.Inv, KeyOf, KeysFrom;
    forall b | b in home && (first <= b || !Hidden(n, first, pc, consumers, b))
      ensures KeysFrom(Idx.Grow(x, junk), b)
    {
      ShownHasKey(n, first, x, home, pc, consumers, b);
      GrowKeepsKeysFrom(x, junk, b);
    }
  }

  // ---- What the consumers know ----

  lemma GrowKeepsKnows(n: nat, x: Idx.Index, junk: seq<Option<nat>>, h: nat, lo: nat, hi: nat)
    requires 0 < n && Idx.Inv(x) && x.high == x.inserted && |junk| == |Idx.Current(x).ring| && Knows(n, x, h, lo, hi)
    requires forall i: nat :: lo <= i < hi ==> KeyOf(x, Number(n, i)) == Some(Number(n, i))
    ensures Idx.WellFormed(Idx.Grow(x, junk)) && Knows(n, Idx.Grow(x, junk), h, lo, hi)
  {
    Idx.GrowIsOk(x, junk);
    var x' := Idx.Grow(x, junk);
    forall i: nat | lo <= i < hi
      ensures Idx.At(x'.headers[h], Number(n, i)) == Idx.At(Idx.Current(x'), Number(n, i))
    {
      KeyInLap(x, Number(n, i));
      GrowKeepsBlock(x, junk, Number(n, i));
    }
  }

  lemma GrowKeepsView(n: nat, x: Idx.Index, junk: seq<Option<nat>>, home: Homes, pc: ConsumerPc)
    requires 0 < n && Idx.Inv(x) && x.high == x.inserted && |junk| == |Idx.Current(x).ring| && ViewOk(n, x, home, pc)
    requires !pc.NoClaim? && !pc.Finished? ==>
      forall i: nat :: Lo(pc) <= i < pc.stop ==> KeyOf(x, Number(n, i)) == Some(Number(n, i))
    requires pc.ClearEntry? ==> 0 < pc.i && KeyOf(x, Number(n, pc.i - 1)) == Some(Number(n, pc.i - 1))
    ensures Idx.WellFormed(Idx.Grow(x, junk)) && ViewOk(n, Idx.Grow(x, junk), home, pc)
  {
    Idx.GrowIsOk(x, junk);
    if !pc.NoClaim? && !pc.Finished? && !pc.LoadIndex? {
      GrowKeepsKnows(n, x, junk, pc.header, Lo(pc), pc.stop);
      if pc.ClearEntry? {
        KeyInLap(x, Number(n, pc.i - 1));
        GrowKeepsBlock(x, junk, Number(n, pc.i - 1));
      }
      hide Knows, Idx.Inv;
    }
  }

  lemma ClearingBlockHasKey(cfg: Config, s: State, t: nat)
    requires Inv(cfg, s) && t < |s.consumers| && s.consumers[t].ClearEntry?
    ensures 0 < s.consumers[t].i
    ensures var b := Number(cfg.BlockSize(), s.consumers[t].i - 1); KeyOf(s.index, b) == Some(b)
  {
    hide CellsOk, CountsOk, PlacesOk, ReadsOk, ViewsOk, KeysUpToTail, HomeOk, FillOk, TailBlockOk, Claims.Inv;
    hide RoomOk, ProducerShape, Hidden;
    Returner(cfg, s, t);
    ClearHides(cfg, s, t);
  }

  lemma GrowKeepsViews(cfg: Config, s: State, junk: seq<Option<nat>>)
    requires Inv(cfg, s) && s.index.high == s.index.inserted && |junk| == |Idx.Current(s.index).ring|
    ensures Idx.WellFormed(Idx.Grow(s.index, junk))
    ensures ViewsOk(cfg.BlockSize(), Idx.Grow(s.index, junk), s.home, s.consumers)
  {
    hide CellsOk, CountsOk, ReadsOk, ShownOk, KeysUpToTail, HomeOk, FillOk, TailBlockOk, Claims.Inv, RoomOk;
    hide ProducerShape;
    Idx.GrowIsOk(s.index, junk);
    hide Idx.Inv, Idx.Grow, Idx.WellFormed, PlaceOk, ViewOk;
    forall t | 0 <= t < |s.consumers| ensures ViewOk(cfg.BlockSize(), Idx.Grow(s.index, junk), s.home, s.consumers[t]) {
      ConsumerKeepsView(cfg, s, junk, t);
    }
  }

  lemma ConsumerKeepsView(cfg: Config, s: State, junk: seq<Option<nat>>, t: nat)
    requires Inv(cfg, s) && s.index.high == s.index.inserted && |junk| == |Idx.Current(s.index).ring|
    requires t < |s.consumers|
    ensures Idx.WellFormed(Idx.Grow(s.index, junk))
    ensures ViewOk(cfg.BlockSize(), Idx.Grow(s.index, junk), s.home, s.consumers[t])
  {
    hide CellsOk, CountsOk, ReadsOk, ShownOk, KeysUpToTail, HomeOk, FillOk, TailBlockOk, Claims.Inv, RoomOk;
    hide ProducerShape;
    assert ViewOk(cfg.BlockSize(), s.index, s.home, s.consumers[t]);
    hide Idx.Inv, ViewOk;
    var n, pc := cfg.BlockSize(), s.consumers[t];
    assert PlaceOk(cfg, s.c.head, pc, s.c.pcs[t]);
    if !pc.NoClaim? && !pc.Finished? {
      forall i: nat | Lo(pc) <= i < pc.stop
        ensures Idx.WellFormed(s.index) && KeyOf(s.index, Number(n, i)) == Some(Number(n, i)) {
        ClaimedBlockHasKey(cfg, s, t, i);
      }
      if pc.ClearEntry? {
        ClearingBlockHasKey(cfg, s, t);
      }
    }
    GrowKeepsView(n, s.index, junk, s.home, pc);
  }

  lemma GrowKeepsIndex(cfg: Config, x: Idx.Index, junk: seq<Option<nat>>)
    requires IndexOk(cfg, x) && x.high == x.inserted && |junk| == |Idx.Current(x).ring|
    requires Idx.Current(x).size + 1 + cfg.k <= cfg.w
    ensures IndexOk(cfg, Idx.Grow(x, junk))
  {
    Idx.GrowKeepsInv(x, junk);
  }

  lemma GrowKeepsInv(cfg: Config, s: State, memory: Option<seq<Option<nat>>>)
    requires Inv(cfg, s) && s.producer.Grow?
    requires memory.Some? ==> |memory.value| == |Idx.Current(s.index).ring| && Idx.Current(s.index).size + 1 + cfg.k <= cfg.w
    ensures Inv(cfg, DoGrow(s, memory))
  {
    hide CellsOk, CountsOk, PlacesOk, ReadsOk, ViewsOk, KeysUpToTail, TailBlockOk, Claims.Inv, ShownOk, FillOk, RoomOk;
    hide HomeOk;
    if memory.None? {
      GiveUpKeepsInv(cfg, s);
    } else {
      var n, first, pc := cfg.BlockSize(), FirstNew(cfg, s), s.producer;
      InsertPlaceIsRight(cfg, s, Insert(pc.xs, pc.left, pc.chain));
      ProducerMoveKeeps(cfg, s, Insert(pc.xs, pc.left, pc.chain));
      GrowKeepsIndex(cfg, s.index, memory.value);
      GrowKeepsShown(n, first, s.index, memory.value, s.home, Insert(pc.xs, pc.left, pc.chain), s.consumers);
      GrowKeepsKeys(n, first, s.index, memory.value, s.home, Insert(pc.xs, pc.left, pc.chain), s.consumers);
      GrowKeepsViews(cfg, s, memory.value);
    }
  }
}
