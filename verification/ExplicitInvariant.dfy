/** The invariant of the explicit producer machine, and its consumers' steps. */
module ExplicitInvariant {
  import opened Common
  import opened Words
  import opened BlockMath
  import opened ExplicitProducer
  import Claims = DequeueClaims
  import P = ImplicitProducer
  import IC = ImplicitConsumers

  // ---- The invariant, part by part ----
  //
  // n is the block size, first the number of the first block that has not been published. The blocks in the circle
  // are those of the numbers from |who| - used on, oldest first.

  function FirstNew(cfg: P.Config, s: State): nat { Blocks(cfg.BlockSize(), s.c.tail) }

  function Staged(pc: ProducerPc): nat { if pc.Ready? then 0 else pc.staged }

  ghost predicate Allocating(pc: ProducerPc) { pc.Reuse? || pc.Room? || pc.Grow? || pc.Requisition? }

  // What is left of blockBaseDiff leads exactly to the end of the last block the call needs; the block written to is
  // the one that was given the number the next element belongs in.
  ghost predicate ProducerOk(n: nat, tail: nat, who: seq<nat>, used: nat, start: Option<nat>, pc: ProducerPc)
    requires 0 < n
  {
    var first := Blocks(n, tail);
    && |who| == first + Staged(pc) && used <= |who| && |who| - used <= first
    && (!pc.Ready? ==> start == if first == 0 then None else Some(who[first - 1]))
    && (pc.Reuse? || pc.Room? || pc.Grow? || pc.Requisition? ==>
          && 0 < pc.left && Start(n, |who|) + pc.left == Start(n, Blocks(n, tail + pc.count))
          && pc.first == (if pc.staged == 0 then None else Some(who[first]))
          && pc.shown <= used && (0 < first ==> 0 < pc.shown))
    && (pc.Reset? || pc.Show? || pc.Fill? || pc.Publish? ==> |who| == Blocks(n, tail + pc.count))
    && (pc.Reset? || pc.Show? ==> 0 < pc.staged && pc.first == Some(who[first]))
    && (pc.Reset? ==> pc.done < pc.staged && pc.block == who[first + pc.done])
    && (pc.Fill? ==> pc.done < pc.count && Number(n, tail + pc.done) < |who| && pc.current == who[Number(n, tail + pc.done)])
  }

  // The circle: each block links to the one obtained after it, the newest, which is tailBlock, to the oldest.
  ghost predicate CircleOk(who: seq<nat>, used: nat, next: map<nat, nat>, tailBlock: Option<nat>)
    requires used <= |who|
  {
    && (used == 0 <==> |who| == 0)
    && tailBlock == (if |who| == 0 then None else Some(who[|who| - 1]))
    && (forall a, b :: |who| - used <= a < b < |who| ==> who[a] != who[b])
    && (forall b :: |who| - used <= b < |who| - 1 ==> who[b] in next && next[who[b]] == who[b + 1])
    && (0 < |who| ==> who[|who| - 1] in next && next[who[|who| - 1]] == who[|who| - used])
  }

  // Blocks obtained by the call in progress whose flags have been reset.
  ghost predicate WasReset(pc: ProducerPc, j: int) { if pc.Reset? then j < pc.done else !Allocating(pc) }

  // A block's flags say which of its elements were reported; those of a block just obtained are all set until they
  // are reset.
  ghost predicate FlagsOk(n: nat, first: nat, who: seq<nat>, flags: map<nat, seq<bool>>, pc: ProducerPc, reported: set<nat>,
                          b: nat)
    requires b < |who|
  {
    && who[b] in flags && |flags[who[b]]| == n
    && forall o :: 0 <= o < n ==>
         flags[who[b]][o] == if first <= b && !WasReset(pc, b - first) then true else Start(n, b) + o in reported
  }

  ghost predicate BlocksOk(n: nat, first: nat, who: seq<nat>, used: nat, flags: map<nat, seq<bool>>, pc: ProducerPc,
                           reported: set<nat>)
    requires used <= |who|
  {
    forall b :: |who| - used <= b < |who| ==> FlagsOk(n, first, who, flags, pc, reported, b)
  }

  // Every element of a block that has been given away to a newer number was completely dequeued.
  ghost predicate RetiredOk(n: nat, oldest: int, reported: set<nat>)
    requires 0 < n
  {
    forall i: nat :: Number(n, i) < oldest ==> i in reported
  }

  function Next(pc: ConsumerPc): int { if pc.NoClaim? || pc.Finished? then 0 else pc.i }

  function Hi(pc: ConsumerPc): int { if pc.NoClaim? || pc.Finished? then 0 else pc.stop }

  // Only claimed elements are reported, and each by the consumer that claimed it.
  ghost predicate ReportedOk(head: nat, consumers: seq<ConsumerPc>, reported: set<nat>) {
    && (forall i :: i in reported ==> i < head)
    && (forall t, i: nat :: 0 <= t < |consumers| && Next(consumers[t]) <= i < Hi(consumers[t]) ==> i !in reported)
  }

  // The entries of the blocks from lo to hi are in place, every other entry is at a position its number belongs at,
  // and the front is the position of an entry.
  ghost predicate HeaderOk(cfg: P.Config, h: Header, who: seq<nat>) {
    && |h.entries| == Pow2(h.size) && h.size + cfg.k <= cfg.w
    && h.lo <= h.hi <= |who| && h.hi - h.lo <= Pow2(h.size)
    && (forall b :: h.lo <= b < h.hi ==> h.entries[Position(h, b)] == Some(Entry(b, who[b])))
    && (forall p :: 0 <= p < |h.entries| && h.entries[p].Some? ==> Position(h, h.entries[p].value.number) == p)
    && -1 <= h.front < |h.entries| && (0 <= h.front ==> h.entries[h.front].Some?)
  }

  // The number below which the blocks are shown to consumers.
  ghost function Exposed(first: nat, who: seq<nat>, pc: ProducerPc): nat {
    if pc.Ready? || pc.Fill? || pc.Publish? then |who| else first
  }

  ghost predicate HeadersOk(cfg: P.Config, headers: seq<Header>, who: seq<nat>, used: nat, prFront: nat, exposed: nat) {
    && 0 < |headers| && used <= |who|
    && (forall j :: 0 <= j < |headers| ==> HeaderOk(cfg, headers[j], who))
    && var h := headers[|headers| - 1];
    && h.lo == |who| - used && h.hi == |who| && prFront == Position(h, |who|) && (0 < exposed ==> 0 <= h.front)
  }

  // Through header h the blocks of the indices from i to stop are found.
  ghost predicate Covers(n: nat, headers: seq<Header>, h: nat, i: nat, stop: nat)
    requires 0 < n
  {
    h < |headers| && forall j: nat :: i <= j < stop ==> headers[h].lo <= Number(n, j) < headers[h].hi
  }

  ghost predicate PlaceOk(cfg: P.Config, head: nat, pc: ConsumerPc, claim: Claims.Pc)
    requires 1 <= cfg.w
  {
    && (pc.NoClaim? <==> !claim.Claimed?)
    && (!pc.NoClaim? && !pc.Finished? ==>
          && claim.first <= pc.i < pc.stop && pc.stop == claim.first + claim.count
          && pc.stop - pc.i < Pow2(cfg.w - 1) && pc.stop <= head)
    && (pc.Report? ==>
          && pc.i < pc.end
          && pc.end == Claims.Min(pc.stop, Start(cfg.BlockSize(), Number(cfg.BlockSize(), pc.i)) + cfg.BlockSize()))
  }

  ghost predicate ViewOk(n: nat, headers: seq<Header>, who: seq<nat>, pc: ConsumerPc)
    requires 0 < n
  {
    match pc
    case NoClaim => true
    case Finished => true
    case LoadIndex(_, _) => true
    case LoadFront(i, stop, h) => Covers(n, headers, h, i, stop) && 0 <= headers[h].front
    case LoadBase(i, stop, h, front) =>
      Covers(n, headers, h, i, stop) && front < |headers[h].entries| && headers[h].entries[front].Some?
    case LoadBlock(i, stop, h, slot) => Covers(n, headers, h, i, stop) && slot == Position(headers[h], Number(n, i))
    case Report(i, _, stop, h, slot, block) =>
      && Covers(n, headers, h, i, stop) && slot == Position(headers[h], Number(n, i))
      && Number(n, i) < |who| && block == who[Number(n, i)]
  }

  ghost predicate PlacesOk(cfg: P.Config, head: nat, consumers: seq<ConsumerPc>, claims: seq<Claims.Pc>)
    requires 1 <= cfg.w
  {
    && |consumers| == |claims|
    && forall t :: 0 <= t < |consumers| ==> PlaceOk(cfg, head, consumers[t], claims[t])
  }

  ghost predicate ViewsOk(n: nat, headers: seq<Header>, who: seq<nat>, consumers: seq<ConsumerPc>)
    requires 0 < n
  {
    forall t :: 0 <= t < |consumers| ==> ViewOk(n, headers, who, consumers[t])
  }

  ghost predicate Inv(cfg: P.Config, s: State) {
    var n, first := cfg.BlockSize(), FirstNew(cfg, s);
    && cfg.Ok() && Claims.Inv(s.c) && Start(n, s.used) < Pow2(cfg.w - 1)
    && ProducerOk(n, s.c.tail, s.who, s.used, s.start, s.producer)
    && CircleOk(s.who, s.used, s.next, s.tailBlock)
    && BlocksOk(n, first, s.who, s.used, s.flags, s.producer, s.reported)
    && RetiredOk(n, |s.who| - s.used, s.reported)
    && ReportedOk(s.c.head, s.consumers, s.reported)
    && HeadersOk(cfg, s.headers, s.who, s.used, s.prFront, Exposed(first, s.who, s.producer))
    && (s.producer.Requisition? ==> s.used < Pow2(Current(s).size))
    && PlacesOk(cfg, s.c.head, s.consumers, s.c.pcs)
    && ViewsOk(n, s.headers, s.who, s.consumers)
  }

  lemma ShapedHolds(cfg: P.Config, s: State)
    requires Inv(cfg, s)
    ensures Shaped(s) && 1 <= cfg.w && s.used <= |s.who| && FirstNew(cfg, s) <= |s.who|
  {
    hide CircleOk, BlocksOk, RetiredOk, ReportedOk, PlacesOk, ViewsOk, Claims.Inv;
  }

  lemma PositionMoves(h: Header, b: int)
    ensures (Position(h, b) + 1) % Pow2(h.size) == Position(h, b + 1)
    ensures (Position(h, b) - 1) % Pow2(h.size) == Position(h, b - 1)
  {
    hide Pow2;
    ModOfSum(b + h.shift, 1, Pow2(h.size));
    ModOfSum(b + h.shift, -1, Pow2(h.size));
    assert b + h.shift + 1 == b + 1 + h.shift && b + h.shift - 1 == b - 1 + h.shift;
  }

  // ---- Consumers: what they rely on ----

  /** A claimed element that has not been reported is in a block that is still in the circle and published. */
  lemma UnreportedBlockStays(cfg: P.Config, s: State, t: nat, i: nat)
    requires Inv(cfg, s) && t < |s.consumers| && Next(s.consumers[t]) <= i < Hi(s.consumers[t])
    ensures |s.who| - s.used <= Number(cfg.BlockSize(), i) < FirstNew(cfg, s) <= |s.who|
    ensures i !in s.reported && i < s.c.head <= s.c.tail
  {
    hide CircleOk, BlocksOk, HeadersOk, ViewsOk;
    assert PlaceOk(cfg, s.c.head, s.consumers[t], s.c.pcs[t]);
    Claims.ClaimsAreSound(s.c);
    hide Claims.Inv;
    IC.PublishedBlock(cfg.BlockSize(), s.c.tail, i);
  }

  /** The elements in the queue are no more than the blocks held have room for, and those are below half the word range. */
  lemma QueueFitsWord(cfg: P.Config, s: State)
    requires Inv(cfg, s)
    ensures s.c.head <= s.c.tail && s.c.tail - s.c.head <= Start(cfg.BlockSize(), s.used) < Pow2(cfg.w - 1)
  {
    hide CircleOk, BlocksOk, HeadersOk, ViewsOk, PlacesOk;
    Claims.ClaimsAreSound(s.c);
    hide Claims.Inv;
    var n := cfg.BlockSize();
    BlocksReach(n, s.c.tail);
    StartMonotone(n, FirstNew(cfg, s), |s.who|);
    StartAdds(n, |s.who| - s.used, s.used);
    HeadPastRetired(n, |s.who| - s.used, s.c.head, s.consumers, s.reported);
  }

  lemma HeadPastRetired(n: nat, oldest: nat, head: nat, consumers: seq<ConsumerPc>, reported: set<nat>)
    requires 0 < n && RetiredOk(n, oldest, reported) && ReportedOk(head, consumers, reported)
    ensures Start(n, oldest) <= head
  {
    if 0 < oldest {
      var last := Start(n, oldest) - 1;
      StartMoves(n, oldest - 1);
      WithinOnly(n, last, oldest - 1);
      assert last in reported;
    }
  }

  lemma MoveKeepsPlaces(cfg: P.Config, head: nat, consumers: seq<ConsumerPc>, claims: seq<Claims.Pc>, t: nat, head': nat,
                        pc': ConsumerPc, claim': Claims.Pc)
    requires 1 <= cfg.w && PlacesOk(cfg, head, consumers, claims) && t < |consumers| && head <= head'
    requires PlaceOk(cfg, head', pc', claim')
    ensures PlacesOk(cfg, head', consumers[t := pc'], claims[t := claim'])
  {
    var after, claims' := consumers[t := pc'], claims[t := claim'];
    forall u | 0 <= u < |after| ensures PlaceOk(cfg, head', after[u], claims'[u]) {
      if u != t {
        assert PlaceOk(cfg, head, consumers[u], claims[u]);
      }
    }
  }

  lemma MoveKeepsViews(n: nat, headers: seq<Header>, who: seq<nat>, consumers: seq<ConsumerPc>, t: nat, pc': ConsumerPc)
    requires 0 < n && t < |consumers| && ViewsOk(n, headers, who, consumers) && ViewOk(n, headers, who, pc')
    ensures ViewsOk(n, headers, who, consumers[t := pc'])
  {
    hide ViewOk;
  }

  lemma MoveKeepsReported(head: nat, consumers: seq<ConsumerPc>, reported: set<nat>, t: nat, pc': ConsumerPc)
    requires ReportedOk(head, consumers, reported) && t < |consumers|
    requires (Next(pc') == Next(consumers[t]) && Hi(pc') == Hi(consumers[t])) || Hi(pc') <= Next(pc')
    ensures ReportedOk(head, consumers[t := pc'], reported)
  {
    var after := consumers[t := pc'];
    forall u, i: nat | 0 <= u < |after| && Next(after[u]) <= i < Hi(after[u]) ensures i !in reported {
      if u == t {
        assert Next(consumers[t]) <= i < Hi(consumers[t]);
      }
    }
  }

  /** A consumer's move that reports nothing keeps the invariant if its new place and view are right. */
  lemma LookKeepsInv(cfg: P.Config, s: State, t: nat, pc': ConsumerPc)
    requires Inv(cfg, s) && t < |s.consumers| && t < |s.c.pcs|
    requires Next(pc') == Next(s.consumers[t]) && Hi(pc') == Hi(s.consumers[t])
    requires PlaceOk(cfg, s.c.head, pc', s.c.pcs[t]) && ViewOk(cfg.BlockSize(), s.headers, s.who, pc')
    ensures Inv(cfg, s.(consumers := s.consumers[t := pc']))
  {
    hide CircleOk, BlocksOk, HeadersOk, ViewsOk, PlacesOk, Claims.Inv, ProducerOk, RetiredOk, ReportedOk, PlaceOk;
    hide ViewOk;
    MoveKeepsPlaces(cfg, s.c.head, s.consumers, s.c.pcs, t, s.c.head, pc', s.c.pcs[t]);
    assert s.c.pcs[t := s.c.pcs[t]] == s.c.pcs;
    MoveKeepsViews(cfg.BlockSize(), s.headers, s.who, s.consumers, t, pc');
    MoveKeepsReported(s.c.head, s.consumers, s.reported, t, pc');
  }

  // Where a consumer stands.
  lemma ConsumerStands(cfg: P.Config, s: State, t: nat)
    requires Inv(cfg, s) && t < |s.consumers|
    ensures t < |s.c.pcs| && PlaceOk(cfg, s.c.head, s.consumers[t], s.c.pcs[t])
    ensures ViewOk(cfg.BlockSize(), s.headers, s.who, s.consumers[t])
  {
    hide CircleOk, BlocksOk, HeadersOk, Claims.Inv, ProducerOk, RetiredOk, ReportedOk, PlaceOk, ViewOk;
  }

  // ---- The lookup ----

  lemma CurrentCovers(cfg: P.Config, s: State, t: nat)
    requires Inv(cfg, s) && t < |s.consumers| && s.consumers[t].LoadIndex?
    ensures Covers(cfg.BlockSize(), s.headers, |s.headers| - 1, s.consumers[t].i, s.consumers[t].stop)
    ensures 0 <= s.headers[|s.headers| - 1].front
  {
    ConsumerStands(cfg, s, t);
    var LoadIndex(i, stop) := s.consumers[t];
    UnreportedBlockStays(cfg, s, t, i);
    forall j: nat | i <= j < stop
      ensures |s.who| - s.used <= Number(cfg.BlockSize(), j) < |s.who|
    {
      UnreportedBlockStays(cfg, s, t, j);
    }
    hide CircleOk, BlocksOk, Claims.Inv, ProducerOk, RetiredOk, ReportedOk, PlacesOk, ViewsOk, HeaderOk;
  }

  lemma LoadIndexKeepsInv(cfg: P.Config, s: State, t: nat)
    requires Inv(cfg, s) && t < |s.consumers| && s.consumers[t].LoadIndex?
    ensures CanConsume(cfg, s, s.consumers[t]) && Inv(cfg, DoConsume(cfg, s, t))
  {
    ShapedHolds(cfg, s);
    ConsumerStands(cfg, s, t);
    CurrentCovers(cfg, s, t);
    hide Inv;
    var LoadIndex(i, stop) := s.consumers[t];
    LookKeepsInv(cfg, s, t, LoadFront(i, stop, |s.headers| - 1));
  }

  lemma LoadFrontKeepsInv(cfg: P.Config, s: State, t: nat)
    requires Inv(cfg, s) && t < |s.consumers| && s.consumers[t].LoadFront?
    ensures CanConsume(cfg, s, s.consumers[t]) && Inv(cfg, DoConsume(cfg, s, t))
  {
    ShapedHolds(cfg, s);
    ConsumerStands(cfg, s, t);
    var LoadFront(i, stop, h) := s.consumers[t];
    HeaderHolds(cfg, s, h);
    hide Inv;
    LookKeepsInv(cfg, s, t, LoadBase(i, stop, h, s.headers[h].front));
  }

  lemma HeaderHolds(cfg: P.Config, s: State, h: nat)
    requires Inv(cfg, s) && h < |s.headers|
    ensures HeaderOk(cfg, s.headers[h], s.who)
  {
    hide CircleOk, BlocksOk, Claims.Inv, ProducerOk, RetiredOk, ReportedOk, PlacesOk, ViewsOk, HeaderOk;
  }

  /** From the entry at the front, whichever block it has come to stand for, and on words, the lookup computes the one
      position where the block of the index belongs. */
  lemma LookUpIsExact(cfg: P.Config, h: Header, who: seq<nat>, front: nat, i: nat)
    requires HeaderOk(cfg, h, who) && front < |h.entries| && h.entries[front].Some?
    ensures LookUp(cfg, h, front, h.entries[front].value.number, i) == Position(h, Number(cfg.BlockSize(), i))
  {
    var b := h.entries[front].value.number;
    MaskedSlotIsExact(cfg.w, cfg.k, h.size, front, b, i);
    NumberIsQuotient(cfg.BlockSize(), i);
    ModOfSum(b + h.shift, i / Pow2(cfg.k) - b, Pow2(h.size));
  }

  lemma LoadBaseKeepsInv(cfg: P.Config, s: State, t: nat)
    requires Inv(cfg, s) && t < |s.consumers| && s.consumers[t].LoadBase?
    ensures CanConsume(cfg, s, s.consumers[t]) && Inv(cfg, DoConsume(cfg, s, t))
  {
    ShapedHolds(cfg, s);
    ConsumerStands(cfg, s, t);
    var LoadBase(i, stop, h, front) := s.consumers[t];
    HeaderHolds(cfg, s, h);
    hide Inv;
    LookUpIsExact(cfg, s.headers[h], s.who, front, i);
    LookKeepsInv(cfg, s, t, LoadBlock(i, stop, h, Position(s.headers[h], Number(cfg.BlockSize(), i))));
  }

  lemma LoadBlockKeepsInv(cfg: P.Config, s: State, t: nat)
    requires Inv(cfg, s) && t < |s.consumers| && s.consumers[t].LoadBlock?
    ensures CanConsume(cfg, s, s.consumers[t]) && Inv(cfg, DoConsume(cfg, s, t))
  {
    ShapedHolds(cfg, s);
    assert cfg.Ok();
    ConsumerStands(cfg, s, t);
    var LoadBlock(i, stop, h, slot) := s.consumers[t];
    HeaderHolds(cfg, s, h);
    hide Inv;
    assert s.headers[h].entries[slot] == Some(Entry(Number(cfg.BlockSize(), i), s.who[Number(cfg.BlockSize(), i)]));
    IC.EndIsExact(cfg, i, stop);
    Within(cfg.BlockSize(), i);
    LookKeepsInv(cfg, s, t, Report(i, P.EndInBlock(cfg, i, stop), stop, h, slot, s.headers[h].entries[slot].value.block));
  }
}
