/** The steps of the producer keep the invariant of the explicit producer machine. */
module ExplicitProducing {
  import opened Common
  import opened Words
  import opened BlockMath
  import opened ExplicitProducer
  import opened ExplicitInvariant
  import Claims = DequeueClaims
  import P = ImplicitProducer
  import IA = ImplicitAllocation

  // ---- Positions ----

  lemma PositionsDiffer(h: Header, a: int, b: int)
    requires 0 < b - a < Pow2(h.size)
    ensures Position(h, a) != Position(h, b)
  {
    if Position(h, a) == Position(h, b) {
      var k := (b + h.shift) / Pow2(h.size) - (a + h.shift) / Pow2(h.size);
      assert k * Pow2(h.size) == b - a;
      SmallMultiple(k, Pow2(h.size));
    }
  }

  // ---- Writing the entry of a block ----

  function Written(h: Header, prFront: nat, number: nat, block: nat, lo: nat): Header
    requires prFront < |h.entries|
  {
    h.(entries := h.entries[prFront := Some(Entry(number, block))], lo := lo, hi := number + 1)
  }

  /** The entry that is overwritten is that of no block the index must still answer for. */
  lemma WrittenIsOk(cfg: P.Config, h: Header, who: seq<nat>, block: nat, lo': nat)
    requires HeaderOk(cfg, h, who) && h.hi == |who| && h.lo <= lo' <= |who| && |who| + 1 - lo' <= Pow2(h.size)
    ensures Position(h, |who|) < |h.entries|
    ensures HeaderOk(cfg, Written(h, Position(h, |who|), |who|, block, lo'), who + [block])
  {
    var h' := Written(h, Position(h, |who|), |who|, block, lo');
    var who' := who + [block];
    forall b | h'.lo <= b < h'.hi ensures h'.entries[Position(h', b)] == Some(Entry(b, who'[b])) {
      if b < |who| {
        PositionsDiffer(h, b, |who|);
      }
    }
  }

  lemma LongerHistory(cfg: P.Config, h: Header, who: seq<nat>, block: nat)
    requires HeaderOk(cfg, h, who)
    ensures HeaderOk(cfg, h, who + [block])
  {}

  lemma AddEntryKeepsHeaders(cfg: P.Config, s: State, block: nat, used': nat, exposed: nat)
    requires HeadersOk(cfg, s.headers, s.who, s.used, s.prFront, exposed)
    requires s.used <= used' + 1 && used' <= s.used + 1 && used' <= |s.who| + 1 && 1 <= used'
    requires used' <= Pow2(s.headers[|s.headers| - 1].size) && |s.who| - s.used <= |s.who| + 1 - used'
    ensures Shaped(s)
    ensures var s' := AddEntry(s, block, |s.who| + 1 - used');
      && HeadersOk(cfg, s'.headers, s'.who, used', s'.prFront, exposed)
      && s'.who == s.who + [block] && |s'.headers| == |s.headers|
      && (forall j :: 0 <= j < |s.headers| - 1 ==> s'.headers[j] == s.headers[j])
      && s'.headers[|s.headers| - 1] == Written(Current(s), s.prFront, |s.who|, block, |s.who| + 1 - used')
  {
    hide HeaderOk;
    var h := s.headers[|s.headers| - 1];
    assert HeaderOk(cfg, h, s.who);
    WrittenIsOk(cfg, h, s.who, block, |s.who| + 1 - used');
    PositionMoves(h, |s.who|);
    forall j | 0 <= j < |s.headers| ensures |s.headers[j].entries| == Pow2(s.headers[j].size) {
      EntriesFit(cfg, s.headers[j], s.who);
    }
    var s' := AddEntry(s, block, |s.who| + 1 - used');
    forall j | 0 <= j < |s'.headers| ensures HeaderOk(cfg, s'.headers[j], s'.who) {
      if j < |s.headers| - 1 {
        LongerHistory(cfg, s.headers[j], s.who, block);
      }
    }
  }

  lemma EntriesFit(cfg: P.Config, h: Header, who: seq<nat>)
    requires HeaderOk(cfg, h, who)
    ensures |h.entries| == Pow2(h.size)
  {}

  lemma AddEntryKeepsView(n: nat, headers: seq<Header>, who: seq<nat>, pc: ConsumerPc, headers': seq<Header>, block: nat,
                          prFront: nat, lo': nat)
    requires 0 < n && ViewOk(n, headers, who, pc) && 0 < |headers| == |headers'|
    requires headers[|headers| - 1].hi <= |who|
    requires forall j :: 0 <= j < |headers| - 1 ==> headers'[j] == headers[j]
    requires prFront < |headers[|headers| - 1].entries|
    requires headers'[|headers| - 1] == Written(headers[|headers| - 1], prFront, |who|, block, lo')
    requires forall i: nat :: Next(pc) <= i < Hi(pc) ==> lo' <= Number(n, i)
    ensures ViewOk(n, headers', who + [block], pc)
  {}

  lemma AddEntryKeepsViews(cfg: P.Config, s: State, headers': seq<Header>, block: nat, lo': nat)
    requires Inv(cfg, s) && |headers'| == |s.headers|
    requires forall j :: 0 <= j < |s.headers| - 1 ==> headers'[j] == s.headers[j]
    requires 0 < |s.headers| && s.prFront < |Current(s).entries|
    requires headers'[|s.headers| - 1] == Written(Current(s), s.prFront, |s.who|, block, lo')
    requires RetiredOk(cfg.BlockSize(), lo', s.reported)
    ensures ViewsOk(cfg.BlockSize(), headers', s.who + [block], s.consumers)
  {
    hide CircleOk, BlocksOk, PlacesOk, Claims.Inv, ProducerOk, ViewOk, HeaderOk;
    forall t | 0 <= t < |s.consumers| ensures ViewOk(cfg.BlockSize(), headers', s.who + [block], s.consumers[t]) {
      assert ViewOk(cfg.BlockSize(), s.headers, s.who, s.consumers[t]);
      AddEntryKeepsView(cfg.BlockSize(), s.headers, s.who, s.consumers[t], headers', block, s.prFront, lo');
    }
  }

  // ---- Reusing the oldest block ----

  /** Only a block of which every element was completely dequeued is reused, and none obtained by the same call. */
  lemma ReusedBlockIsEmpty(cfg: P.Config, s: State)
    requires Inv(cfg, s) && s.producer.Reuse? && CanReuse(s)
    ensures 0 < s.used <= |s.who| && s.next[s.tailBlock.value] == s.who[|s.who| - s.used]
    ensures |s.who| - s.used < FirstNew(cfg, s)
    ensures RetiredOk(cfg.BlockSize(), |s.who| - s.used + 1, s.reported)
  {
    hide PlacesOk, Claims.Inv, HeadersOk, ViewsOk, ReportedOk;
    var n, oldest := cfg.BlockSize(), |s.who| - s.used;
    assert FlagsOk(n, FirstNew(cfg, s), s.who, s.flags, s.producer, s.reported, oldest);
    forall i: nat | Number(n, i) < oldest + 1 ensures i in s.reported {
      if Number(n, i) == oldest {
        Within(n, i);
        assert s.flags[s.who[oldest]][Offset(n, i)];
      }
    }
  }

  /** The block ahead is taken up again exactly when it was published before this call and every element that was in it has
      been dequeued completely. */
  lemma ReuseIsExact(cfg: P.Config, s: State)
    requires Inv(cfg, s) && s.producer.Reuse?
    ensures CanReuse(s) <==>
      && 0 < s.used && |s.who| - s.used < FirstNew(cfg, s)
      && forall i: nat :: Number(cfg.BlockSize(), i) == |s.who| - s.used ==> i in s.reported
  {
    hide PlacesOk, Claims.Inv, HeadersOk, ViewsOk, ReportedOk;
    var n, oldest := cfg.BlockSize(), |s.who| - s.used;
    if CanReuse(s) {
      ReusedBlockIsEmpty(cfg, s);
    } else if 0 < s.used && oldest < FirstNew(cfg, s) {
      assert FlagsOk(n, FirstNew(cfg, s), s.who, s.flags, s.producer, s.reported, oldest);
      hide RetiredOk;
      var o :| 0 <= o < n && !s.flags[s.who[oldest]][o];
      WithinOnly(n, Start(n, oldest) + o, oldest);
      assert Start(n, oldest) + o !in s.reported;
    }
  }

  lemma ReuseKeepsCircle(who: seq<nat>, used: nat, next: map<nat, nat>, tailBlock: Option<nat>)
    requires used <= |who| && CircleOk(who, used, next, tailBlock) && 0 < used
    ensures CircleOk(who + [who[|who| - used]], used, next, Some(who[|who| - used]))
  {}

  lemma ObtainKeepsBlocks(n: nat, first: nat, who: seq<nat>, used: nat, flags: map<nat, seq<bool>>, pc: ProducerPc,
                          reported: set<nat>, block: nat, flags': map<nat, seq<bool>>, used': nat, pc': ProducerPc)
    requires used <= |who| && BlocksOk(n, first, who, used, flags, pc, reported) && first <= |who|
    requires Allocating(pc) && (Allocating(pc') || (pc'.Reset? && pc'.done == 0))
    requires used' <= used + 1 && used' <= |who| + 1 && block in flags' && |flags'[block]| == n && IsEmpty(flags'[block])
    requires forall b :: |who| + 1 - used' <= b < |who| ==>
      who[b] in flags' && who[b] in flags && flags'[who[b]] == flags[who[b]]
    ensures BlocksOk(n, first, who + [block], used', flags', pc', reported)
  {
    forall b | |who| + 1 - used' <= b < |who| + 1 ensures FlagsOk(n, first, who + [block], flags', pc', reported, b) {
      if b < |who| {
        assert FlagsOk(n, first, who, flags, pc, reported, b);
      }
    }
  }

  lemma ObtainedPlace(cfg: P.Config, s: State, block: nat, used': nat, first: Option<nat>)
    requires ProducerOk(cfg.BlockSize(), s.c.tail, s.who, s.used, s.start, s.producer)
    requires s.producer.Reuse? || s.producer.Requisition?
    requires s.used <= used' <= s.used + 1 && used' <= |s.who| + 1 && |s.who| + 1 - used' <= FirstNew(cfg, s)
    requires first == if s.producer.first.None? then Some(block) else s.producer.first
    ensures var pc' := Obtained(s.producer, first, s.producer.staged + 1, s.producer.left - cfg.BlockSize());
      && ProducerOk(cfg.BlockSize(), s.c.tail, s.who + [block], used', s.start, pc')
      && (Allocating(pc') || (pc'.Reset? && pc'.done == 0)) && !pc'.Requisition?
      && Exposed(FirstNew(cfg, s), s.who + [block], pc') == FirstNew(cfg, s)
  {
    var n, pc := cfg.BlockSize(), s.producer;
    var last := Blocks(n, s.c.tail + pc.count);
    StartMoves(n, |s.who|);
    if last <= |s.who| {
      StartMonotone(n, last, |s.who|);
    } else {
      InOrder(n, |s.who|, last);
    }
    if pc.left == n {
      IA.SameStartSameBlock(n, |s.who| + 1, last);
    }
  }

  lemma ReuseEffect(cfg: P.Config, s: State)
    requires Shaped(s) && s.producer.Reuse? && s.used <= |s.who| && CanReuse(s)
    ensures var pc, block := s.producer, s.next[s.tailBlock.value];
      var first := if pc.first.None? then Some(block) else pc.first;
      && DoReuse(cfg, s) == AddEntry(s, block, |s.who| + 1 - s.used).(
           tailBlock := Some(block), producer := Obtained(pc, first, pc.staged + 1, pc.left - cfg.BlockSize()))
      && block in s.flags && IsEmpty(s.flags[block])
  {}

  lemma ReuseStep(cfg: P.Config, s: State)
    requires Inv(cfg, s) && s.producer.Reuse? && CanReuse(s)
    ensures Shaped(s) && Inv(cfg, DoReuse(cfg, s))
  {
    hide PlacesOk, Claims.Inv, ViewsOk, ReportedOk, RetiredOk, HeaderOk, FlagsOk, ProducerOk, HeadersOk, CircleOk;
    hide BlocksOk, CanReuse;
    ShapedHolds(cfg, s);
    ReusedBlockIsEmpty(cfg, s);
    ReuseEffect(cfg, s);
    hide DoReuse;
    var n, first, pc := cfg.BlockSize(), FirstNew(cfg, s), s.producer;
    var block := s.who[|s.who| - s.used];
    var firstBlock := if pc.first.None? then Some(block) else pc.first;
    var pc' := Obtained(pc, firstBlock, pc.staged + 1, pc.left - n);
    WindowFits(cfg, s);
    ObtainedPlace(cfg, s, block, s.used, firstBlock);
    AddEntryKeepsHeaders(cfg, s, block, s.used, first);
    var s' := AddEntry(s, block, |s.who| + 1 - s.used);
    AddEntryKeepsViews(cfg, s, s'.headers, block, |s.who| + 1 - s.used);
    ReuseKeepsCircle(s.who, s.used, s.next, s.tailBlock);
    AllIn(n, first, s.who, s.used, s.flags, pc, s.reported);
    ObtainKeepsBlocks(n, first, s.who, s.used, s.flags, pc, s.reported, block, s.flags, s.used, pc');
  }

  lemma WindowFits(cfg: P.Config, s: State)
    requires Inv(cfg, s)
    ensures 0 < |s.headers| && s.used <= Pow2(Current(s).size)
  {
    hide CircleOk, BlocksOk, RetiredOk, ReportedOk, PlacesOk, ViewsOk, Claims.Inv, ProducerOk;
    assert HeaderOk(cfg, Current(s), s.who);
  }

  lemma AllIn(n: nat, first: nat, who: seq<nat>, used: nat, flags: map<nat, seq<bool>>, pc: ProducerPc, reported: set<nat>)
    requires used <= |who| && BlocksOk(n, first, who, used, flags, pc, reported)
    ensures forall b :: |who| - used <= b < |who| ==> who[b] in flags && |flags[who[b]]| == n
  {
    forall b | |who| - used <= b < |who| ensures who[b] in flags && |flags[who[b]]| == n {
      assert FlagsOk(n, first, who, flags, pc, reported, b);
    }
  }

  lemma ReuseKeepsInv(cfg: P.Config, s: State)
    requires Inv(cfg, s) && s.producer.Reuse?
    ensures Shaped(s) && s.used <= |s.who| && Inv(cfg, DoReuse(cfg, s))
  {
    ShapedHolds(cfg, s);
    if CanReuse(s) {
      ReuseStep(cfg, s);
    } else {
      hide PlacesOk, Claims.Inv, ViewsOk, ReportedOk, RetiredOk, HeaderOk, FlagsOk, HeadersOk, CircleOk, BlocksOk;
      var pc := s.producer;
      PlaceKeepsBlocks(cfg.BlockSize(), FirstNew(cfg, s), s.who, s.used, s.flags, pc, s.reported,
                       Room(pc.count, pc.left, pc.first, pc.staged, pc.shown));
    }
  }

  // ---- Room, memory, a block ----

  // Moves that reset no flags.
  lemma PlaceKeepsBlocks(n: nat, first: nat, who: seq<nat>, used: nat, flags: map<nat, seq<bool>>, pc: ProducerPc,
                         reported: set<nat>, pc': ProducerPc)
    requires used <= |who| && BlocksOk(n, first, who, used, flags, pc, reported)
    requires forall j: nat :: j < |who| - first ==> (WasReset(pc', j) <==> WasReset(pc, j))
    ensures BlocksOk(n, first, who, used, flags, pc', reported)
  {
    hide WasReset;
    forall b | |who| - used <= b < |who| ensures FlagsOk(n, first, who, flags, pc', reported, b) {
      assert FlagsOk(n, first, who, flags, pc, reported, b);
    }
  }

  /** A call turned down before it obtained a block leaves everything as it was. */
  lemma DeniedKeepsInv(cfg: P.Config, s: State)
    requires Inv(cfg, s) && (s.producer.Room? || s.producer.Grow? || s.producer.Requisition?) && s.producer.staged == 0
    ensures Inv(cfg, s.(producer := Ready))
  {
    hide PlacesOk, Claims.Inv, ViewsOk, ReportedOk, RetiredOk, HeaderOk, FlagsOk, CircleOk, BlocksOk;
    PlaceKeepsBlocks(cfg.BlockSize(), FirstNew(cfg, s), s.who, s.used, s.flags, s.producer, s.reported, Ready);
  }

  lemma RoomKeepsInv(cfg: P.Config, s: State, full: bool)
    requires Inv(cfg, s) && s.producer.Room? && (full ==> s.producer.staged == 0)
    ensures Shaped(s) && Inv(cfg, DoRoom(s, full))
  {
    hide PlacesOk, Claims.Inv, ViewsOk, ReportedOk, RetiredOk, HeaderOk, FlagsOk, CircleOk, BlocksOk, HeadersOk;
    ShapedHolds(cfg, s);
    WindowFits(cfg, s);
    if full {
      DeniedKeepsInv(cfg, s);
    } else {
      PlaceKeepsBlocks(cfg.BlockSize(), FirstNew(cfg, s), s.who, s.used, s.flags, s.producer, s.reported,
                       DoRoom(s, full).producer);
    }
  }

  lemma SourceSlot(h: Header, total: int, used: int, j: int)
    ensures (Position(h, total) - used + j) % Pow2(h.size) == Position(h, total - used + j)
  {
    ModOfSum(total + h.shift, j - used, Pow2(h.size));
  }

  lemma TargetSlot(h': Header, total: int, used: int, j: nat)
    requires h'.shift == used - total && j < Pow2(h'.size)
    ensures Position(h', total - used + j) == j
  {
    DivisionIsUnique(j, Pow2(h'.size), 0, j);
  }

  lemma DoubledEntry(h: Header, who: seq<nat>, used: nat, shown: nat, j: nat)
    requires |h.entries| == Pow2(h.size) && used <= |who| && h.lo == |who| - used && h.hi == |who|
    requires forall b :: h.lo <= b < h.hi ==> h.entries[Position(h, b)] == Some(Entry(b, who[b]))
    requires j < Pow2(h.size + 1)
    ensures |Doubled(h, Position(h, |who|), used, shown, |who|).entries| == Pow2(h.size + 1)
    ensures Doubled(h, Position(h, |who|), used, shown, |who|).entries[j] ==
            (if j < used then Some(Entry(|who| - used + j, who[|who| - used + j])) else None)
  {
    SourceSlot(h, |who|, used, j);
    hide Position, Pow2;
  }

  /** Doubling moves the entries in use to the front of the new array, oldest first, and loses none of them. */
  lemma DoubledIsOk(cfg: P.Config, h: Header, who: seq<nat>, used: nat, shown: nat)
    requires HeaderOk(cfg, h, who) && used <= |who| && h.lo == |who| - used && h.hi == |who| && shown <= used
    requires h.size + 1 + cfg.k <= cfg.w
    ensures HeaderOk(cfg, Doubled(h, Position(h, |who|), used, shown, |who|), who)
    ensures Position(Doubled(h, Position(h, |who|), used, shown, |who|), |who|) == used < Pow2(h.size + 1)
  {
    var h' := Doubled(h, Position(h, |who|), used, shown, |who|);
    assert Pow2(h.size + 1) == 2 * Pow2(h.size);
    forall j: nat | j < Pow2(h.size + 1)
      ensures |h'.entries| == Pow2(h.size + 1)
      ensures h'.entries[j] == (if j < used then Some(Entry(|who| - used + j, who[|who| - used + j])) else None)
    {
      DoubledEntry(h, who, used, shown, j);
    }
    DoubledEntry(h, who, used, shown, 0);
    assert used < Pow2(h.size + 1);
    hide HeaderOk, Doubled;
    FreshHeader(cfg, h', who, used);
  }

  lemma FreshHeader(cfg: P.Config, h': Header, who: seq<nat>, used: nat)
    requires |h'.entries| == Pow2(h'.size) && h'.size + cfg.k <= cfg.w && used <= |who| && used < Pow2(h'.size)
    requires h'.lo == |who| - used && h'.hi == |who| && h'.shift == used - |who| && -1 <= h'.front < used
    requires forall j :: 0 <= j < |h'.entries| ==>
      h'.entries[j] == (if j < used then Some(Entry(|who| - used + j, who[|who| - used + j])) else None)
    ensures HeaderOk(cfg, h', who) && Position(h', |who|) == used
  {
    forall b: int | |who| - used <= b <= |who| ensures Position(h', b) == b - (|who| - used) {
      TargetSlot(h', |who|, used, b - (|who| - used));
    }
    hide Position, Pow2;
    forall p | 0 <= p < |h'.entries| && h'.entries[p].Some? ensures Position(h', h'.entries[p].value.number) == p {}
  }

  lemma GrowKeepsHeaders(cfg: P.Config, s: State, shown: nat, exposed: nat)
    requires HeadersOk(cfg, s.headers, s.who, s.used, s.prFront, exposed) && Shaped(s)
    requires shown <= s.used && (0 < exposed ==> 0 < shown) && Current(s).size + 1 + cfg.k <= cfg.w
    ensures HeadersOk(cfg, s.headers + [Doubled(Current(s), s.prFront, s.used, shown, |s.who|)], s.who, s.used, s.used, exposed)
    ensures s.used < Pow2(Doubled(Current(s), s.prFront, s.used, shown, |s.who|).size)
  {
    assert HeaderOk(cfg, Current(s), s.who);
    DoubledIsOk(cfg, Current(s), s.who, s.used, shown);
    hide HeaderOk;
    assert Current(s).hi - Current(s).lo <= Pow2(Current(s).size) by { WindowFits1(cfg, Current(s), s.who); }
  }

  lemma WindowFits1(cfg: P.Config, h: Header, who: seq<nat>)
    requires HeaderOk(cfg, h, who)
    ensures h.hi - h.lo <= Pow2(h.size)
  {}

  /** Consumers that loaded the old header go on finding their blocks in it. */
  lemma LongerChainKeepsViews(n: nat, headers: seq<Header>, who: seq<nat>, consumers: seq<ConsumerPc>, h: Header)
    requires 0 < n && ViewsOk(n, headers, who, consumers)
    ensures ViewsOk(n, headers + [h], who, consumers)
  {
    var headers' := headers + [h];
    forall t | 0 <= t < |consumers| ensures ViewOk(n, headers', who, consumers[t]) {
      assert ViewOk(n, headers, who, consumers[t]);
    }
  }

  lemma GrownPlace(cfg: P.Config, s: State)
    requires Inv(cfg, s) && s.producer.Grow?
    ensures var Grow(count, left, firstBlock, staged, shown) := s.producer;
      && ProducerOk(cfg.BlockSize(), s.c.tail, s.who, s.used, s.start, Requisition(count, left, firstBlock, staged, shown))
      && shown <= s.used && (0 < FirstNew(cfg, s) ==> 0 < shown)
  {
    hide PlacesOk, Claims.Inv, ViewsOk, ReportedOk, RetiredOk, HeaderOk, FlagsOk, CircleOk, BlocksOk, HeadersOk;
  }

  lemma GrowKeepsInv(cfg: P.Config, s: State, granted: bool)
    requires Inv(cfg, s) && s.producer.Grow? && (!granted ==> s.producer.staged == 0)
    requires granted ==> Shaped(s) && Current(s).size + 1 + cfg.k <= cfg.w
    ensures Shaped(s) && s.used <= |s.who| && Inv(cfg, DoGrow(s, granted))
  {
    hide PlacesOk, Claims.Inv, ViewsOk, ReportedOk, RetiredOk, HeaderOk, FlagsOk, CircleOk, BlocksOk, HeadersOk;
    hide ProducerOk;
    ShapedHolds(cfg, s);
    if !granted {
      DeniedKeepsInv(cfg, s);
    } else {
      hide Doubled;
      var n, first := cfg.BlockSize(), FirstNew(cfg, s);
      var Grow(count, left, firstBlock, staged, shown) := s.producer;
      GrownPlace(cfg, s);
      GrowKeepsHeaders(cfg, s, shown, first);
      LongerChainKeepsViews(n, s.headers, s.who, s.consumers, Doubled(Current(s), s.prFront, s.used, shown, |s.who|));
      PlaceKeepsBlocks(n, first, s.who, s.used, s.flags, s.producer, s.reported,
                       Requisition(count, left, firstBlock, staged, shown));
    }
  }

  lemma InsertKeepsCircle(n: nat, first: nat, who: seq<nat>, used: nat, next: map<nat, nat>, tailBlock: Option<nat>,
                          flags: map<nat, seq<bool>>, pc: ProducerPc, reported: set<nat>, block: nat)
    requires used <= |who| && CircleOk(who, used, next, tailBlock) && block !in flags
    requires BlocksOk(n, first, who, used, flags, pc, reported)
    ensures tailBlock.Some? ==> tailBlock.value in next
    ensures CircleOk(who + [block], used + 1, Linked(next, tailBlock, block), Some(block))
  {
    AllIn(n, first, who, used, flags, pc, reported);
    hide BlocksOk;
  }

  lemma AllEmpty(n: nat)
    ensures |All(n, true)| == n && IsEmpty(All(n, true))
  {}

  lemma InsertedKeepsInv(cfg: P.Config, s: State, block: nat)
    requires Inv(cfg, s) && s.producer.Requisition? && block !in s.flags
    requires Start(cfg.BlockSize(), s.used + 1) < Pow2(cfg.w - 1)
    ensures CanProduce(cfg, s) && Inv(cfg, DoRequisition(cfg, s, Some(block)))
  {
    hide PlacesOk, Claims.Inv, ViewsOk, ReportedOk, RetiredOk, HeaderOk, FlagsOk, ProducerOk, HeadersOk, CircleOk;
    hide BlocksOk;
    hide Obtained, All, Linked, Start;
    ShapedHolds(cfg, s);
    TailLinked(cfg, s);
    var n, first, pc := cfg.BlockSize(), FirstNew(cfg, s), s.producer;
    var firstBlock := if pc.first.None? then Some(block) else pc.first;
    var pc' := Obtained(pc, firstBlock, pc.staged + 1, pc.left - n);
    OldestPublished(cfg, s);
    ObtainedPlace(cfg, s, block, s.used + 1, firstBlock);
    AddEntryKeepsHeaders(cfg, s, block, s.used + 1, first);
    var s' := AddEntry(s, block, |s.who| - s.used);
    AddEntryKeepsViews(cfg, s, s'.headers, block, |s.who| - s.used);
    InsertKeepsCircle(n, first, s.who, s.used, s.next, s.tailBlock, s.flags, pc, s.reported, block);
    AllIn(n, first, s.who, s.used, s.flags, pc, s.reported);
    AllEmpty(n);
    ObtainKeepsBlocks(n, first, s.who, s.used, s.flags, pc, s.reported, block, s.flags[block := All(n, true)], s.used + 1, pc');
  }

  lemma RequisitionKeepsInv(cfg: P.Config, s: State, granted: Option<nat>)
    requires Inv(cfg, s) && s.producer.Requisition? && (granted.None? ==> s.producer.staged == 0)
    requires granted.Some? ==> granted.value !in s.flags && Start(cfg.BlockSize(), s.used + 1) < Pow2(cfg.w - 1)
    ensures CanProduce(cfg, s) && Inv(cfg, DoRequisition(cfg, s, granted))
  {
    hide Inv;
    ShapedHolds(cfg, s);
    TailLinked(cfg, s);
    if granted.None? {
      DeniedKeepsInv(cfg, s);
    } else {
      InsertedKeepsInv(cfg, s, granted.value);
    }
  }

  lemma TailLinked(cfg: P.Config, s: State)
    requires Inv(cfg, s)
    ensures s.used <= |s.who| && (s.tailBlock.Some? ==> s.tailBlock.value in s.next)
  {
    hide PlacesOk, Claims.Inv, ViewsOk, ReportedOk, RetiredOk, HeaderOk, FlagsOk, HeadersOk, BlocksOk;
  }

  lemma OldestPublished(cfg: P.Config, s: State)
    requires Inv(cfg, s)
    ensures |s.who| - s.used <= FirstNew(cfg, s)
  {
    hide PlacesOk, Claims.Inv, ViewsOk, ReportedOk, RetiredOk, HeaderOk, FlagsOk, HeadersOk, BlocksOk, CircleOk;
  }
}
