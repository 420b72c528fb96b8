/** The steps of the claim protocol keep the invariant of the implicit producer machine. */
module ImplicitClaims {
  import opened Common
  import opened Words
  import opened BlockMath
  import opened ImplicitProducer
  import opened ImplicitInvariant
  import opened ImplicitConsumers
  import opened ImplicitReturns
  import Claims = DequeueClaims

  // ---- Claiming a range ----

  lemma ClaimSums(n: nat, consumers: seq<ConsumerPc>, t: nat, head: nat, count: nat, b: nat)
    requires 0 < n && t < |consumers| && consumers[t].NoClaim?
    ensures var after := consumers[t := LoadIndex(head, head + count)];
      && Sum(UncountedIn(n, b), after) == Sum(UncountedIn(n, b), consumers) + Overlap(head, head + count, Start(n, b), n)
      && Sum(Finishing(n, b), after) == Sum(Finishing(n, b), consumers)
      && Sum(Cleared(n, b), after) == Sum(Cleared(n, b), consumers)
      && Sum(UnreadAt(b), after) == Sum(UnreadAt(b), consumers) + One(head <= b < head + count)
  {
    var pc' := LoadIndex(head, head + count);
    SumUpdate(UncountedIn(n, b), consumers, t, pc');
    SumUpdate(Finishing(n, b), consumers, t, pc');
    SumUpdate(Cleared(n, b), consumers, t, pc');
    SumUpdate(UnreadAt(b), consumers, t, pc');
  }

  lemma ClaimKeepsCount(n: nat, first: nat, head: nat, home: Homes, blocks: Held, pc: ProducerPc,
                        consumers: seq<ConsumerPc>, t: nat, count: nat, b: nat)
    requires 0 < n && t < |consumers| && consumers[t].NoClaim? && (b in home ==> home[b] in blocks)
    requires BlockCountOk(n, first, head, home, blocks, pc, consumers, b)
    ensures BlockCountOk(n, first, head + count, home, blocks, pc, consumers[t := LoadIndex(head, head + count)], b)
  {
    ClaimSums(n, consumers, t, head, count, b);
  }

  lemma ClaimKeepsCounts(n: nat, first: nat, head: nat, home: Homes, blocks: Held, pc: ProducerPc,
                         consumers: seq<ConsumerPc>, t: nat, count: nat)
    requires 0 < n && t < |consumers| && consumers[t].NoClaim?
    requires CountsOk(n, first, head, home, blocks, pc, consumers)
    ensures CountsOk(n, first, head + count, home, blocks, pc, consumers[t := LoadIndex(head, head + count)])
  {
    var after := consumers[t := LoadIndex(head, head + count)];
    forall b: nat
      ensures b in home ==> home[b] in blocks
      ensures BlockCountOk(n, first, head + count, home, blocks, pc, after, b)
    {
      assert BlockCountOk(n, first, head, home, blocks, pc, consumers, b);
      ClaimKeepsCount(n, first, head, home, blocks, pc, consumers, t, count, b);
    }
  }

  lemma ClaimKeepsReads(head: nat, consumers: seq<ConsumerPc>, got: map<nat, Element>, t: nat, count: nat)
    requires t < |consumers| && consumers[t].NoClaim? && ReadsOk(head, consumers, got)
    ensures ReadsOk(head + count, consumers[t := LoadIndex(head, head + count)], got)
  {
    var after := consumers[t := LoadIndex(head, head + count)];
    forall i: nat ensures Sum(UnreadAt(i), after) + One(i in got) == One(i < head + count) {
      ClaimSums(1, consumers, t, head, count, i);
    }
  }

  /** Fewer than half the word range lies between head and tail, whatever the call in progress. */
  lemma QueueFitsWord(cfg: Config, s: State)
    requires Inv(cfg, s)
    ensures s.c.head <= s.c.tail && s.c.tail - s.c.head < Pow2(cfg.w - 1)
    ensures cfg.limit.Some? ==> s.c.tail - s.c.head <= cfg.limit.value
  {
    hide CellsOk, ShownOk, FillOk, KeysUpToTail, CountsOk, ProducerShape, TailBlockOk, HomeOk, PlacesOk, ReadsOk;
    hide ViewsOk;
    hide IndexOk;
    Claims.ClaimsAreSound(s.c);
    BlocksReach(cfg.BlockSize(), s.c.tail);
    StartMonotone(cfg.BlockSize(), FirstNew(cfg, s), Allowed(FirstNew(cfg, s), s.producer));
  }

  // MAX_SUBQUEUE_SIZE from the trait of that name, None for the largest size_t.
  function MaxSubqueueSize(w: nat, n: nat, configured: nat): Option<nat>
    requires 0 < n
  {
    if Pow2(w) - 1 - configured < n then None else Some((configured + (n - 1)) / n * n)
  }

  lemma RoundedUp(x: nat, n: nat)
    requires 0 < n
    ensures var m := (x + (n - 1)) / n * n;
      m % n == 0 && x <= m < x + n
  {
    var q := (x + (n - 1)) / n;
    DivisionIsUnique(q * n, n, q, 0);
    assert q * n == x + (n - 1) - (x + (n - 1)) % n;
  }

  /** Whatever limit is configured, the sub-queue never holds a whole block more. */
  lemma ConfiguredLimitHolds(cfg: Config, s: State, configured: nat)
    requires Inv(cfg, s) && cfg.limit == MaxSubqueueSize(cfg.w, cfg.BlockSize(), configured)
    ensures s.c.tail - s.c.head < configured + cfg.BlockSize()
  {
    hide Inv;
    QueueFitsWord(cfg, s);
    RoundedUp(configured, cfg.BlockSize());
    ConfigIsOk(cfg, s);
    assert Pow2(cfg.w) == 2 * Pow2(cfg.w - 1);
  }

  lemma ConfigIsOk(cfg: Config, s: State)
    requires Inv(cfg, s)
    ensures cfg.Ok()
  {}

  lemma ClaimKeepsPlaces(cfg: Config, head: nat, consumers: seq<ConsumerPc>, claims: seq<Claims.Pc>, t: nat, head': nat,
                         pc': ConsumerPc, claim': Claims.Pc)
    requires 1 <= cfg.w && PlacesOk(cfg, head, consumers, claims) && t < |consumers| && head <= head'
    requires PlaceOk(cfg, head', pc', claim')
    ensures PlacesOk(cfg, head', consumers[t := pc'], claims[t := claim'])
  {
    var after, claims' := consumers[t := pc'], claims[t := claim'];
    forall u | 0 <= u < |after| ensures PlaceOk(cfg, head', after[u], claims'[u]) {
      if u != t {
        assert PlaceOk(cfg, head, consumers[u], claims[u]);
      }
    }
  }

  // What an advance of the claim protocol changes.
  lemma AdvanceEffect(w: nat, c: Claims.State, t: nat)
    requires 1 <= w && Claims.Inv(c) && Claims.Enabled(c, Claims.Advance(t))
    ensures var c' := Claims.Step(w, c, Claims.Advance(t));
      && c'.tail == c.tail && |c'.pcs| == |c.pcs| && c'.pcs == c.pcs[t := c'.pcs[t]]
      && (c.pcs[t].AddHead? ==> 1 <= c.pcs[t].count && c'.head == c.head + c.pcs[t].count
                                && c'.pcs[t] == Claims.Claimed(c.head, c.pcs[t].count))
      && (!c.pcs[t].AddHead? ==> c'.head == c.head && (c'.pcs[t].Claimed? <==> c.pcs[t].Claimed?))
  {
    assert Claims.PcOk(c, c.pcs[t]);
  }

  lemma HeadMoveKeepsInv(cfg: Config, s: State, t: nat)
    requires 1 <= cfg.w && t < |s.consumers| && s.consumers[t].NoClaim? && t < |s.c.pcs| && s.c.pcs[t].AddHead?
    requires Claims.Inv(Claims.Step(cfg.w, s.c, Claims.Advance(t)))
    requires Inv(cfg, s)
    ensures Inv(cfg, DoClaim(cfg, s, t))
  {
    hide CellsOk, ShownOk, FillOk, KeysUpToTail, CountsOk, ProducerShape, TailBlockOk, HomeOk, PlacesOk, ReadsOk;
    hide ViewsOk;
    hide IndexOk, Claims.Inv;
    AdvanceEffect(cfg.w, s.c, t);
    var n, first, head, count := cfg.BlockSize(), FirstNew(cfg, s), s.c.head, s.c.pcs[t].count;
    var s' := DoClaim(cfg, s, t);
    var pc' := LoadIndex(head, head + count);
    assert s'.consumers == s.consumers[t := pc'];
    QueueFitsWord(cfg, s);
    Claims.ClaimsAreSound(s'.c);
    ClaimKeepsCounts(n, first, head, s.home, s.blocks, s.producer, s.consumers, t, count);
    ClaimKeepsReads(head, s.consumers, s.got, t, count);
    ClaimKeepsPlaces(cfg, head, s.consumers, s.c.pcs, t, head + count, pc', s'.c.pcs[t]);
    SameCleared(n, s.consumers, t, head, count);
    QuietKeepsShown(cfg, s, s'.consumers);
    ViewsKept(cfg, s, t, pc');
  }

  lemma SameCleared(n: nat, consumers: seq<ConsumerPc>, t: nat, head: nat, count: nat)
    requires 0 < n && t < |consumers| && consumers[t].NoClaim?
    ensures forall b: nat ::
      Sum(Cleared(n, b), consumers[t := LoadIndex(head, head + count)]) == Sum(Cleared(n, b), consumers)
  {
    forall b: nat
      ensures Sum(Cleared(n, b), consumers[t := LoadIndex(head, head + count)]) == Sum(Cleared(n, b), consumers)
    {
      ClaimSums(n, consumers, t, head, count, b);
    }
  }

  lemma ViewsKept(cfg: Config, s: State, t: nat, pc': ConsumerPc)
    requires Inv(cfg, s) && t < |s.consumers| && (pc'.LoadIndex? || pc'.NoClaim?)
    ensures ViewsOk(cfg.BlockSize(), s.index, s.home, s.consumers[t := pc'])
  {
    hide CellsOk, ShownOk, FillOk, KeysUpToTail, CountsOk, ProducerShape, TailBlockOk, HomeOk, PlacesOk, ReadsOk;
    hide RoomOk;
    hide Claims.Inv;
    MoveKeepsViews(cfg.BlockSize(), s.index, s.home, s.consumers, t, pc');
  }

  // ---- The other steps ----

  lemma ClaimsOnlyKeepsInv(cfg: Config, s: State, t: nat, c': Claims.State)
    requires Inv(cfg, s) && t < |s.consumers| && Claims.Inv(c') && t < |s.c.pcs| && t < |c'.pcs|
    requires c'.tail == s.c.tail && c'.head == s.c.head && c'.pcs == s.c.pcs[t := c'.pcs[t]]
    requires !s.c.pcs[t].Claimed? && !c'.pcs[t].Claimed?
    ensures Inv(cfg, s.(c := c'))
  {
    hide CellsOk, ShownOk, FillOk, KeysUpToTail, CountsOk, ProducerShape, TailBlockOk, HomeOk, ReadsOk, ViewsOk, RoomOk;
    hide IndexOk, Claims.Inv;
    assert PlaceOk(cfg, s.c.head, s.consumers[t], s.c.pcs[t]);
    ClaimKeepsPlaces(cfg, s.c.head, s.consumers, s.c.pcs, t, s.c.head, s.consumers[t], c'.pcs[t]);
    assert s.consumers[t := s.consumers[t]] == s.consumers;
  }

  lemma ClaimKeepsInv(cfg: Config, s: State, t: nat)
    requires Inv(cfg, s) && Enabled(cfg, s, Claim(t)) && Claims.InWindow(cfg.w, s.c, Claims.Advance(t))
    ensures Inv(cfg, Step(cfg, s, Claim(t)))
  {
    hide Inv;
    ClaimsInvHolds(cfg, s);
    Claims.StepKeepsInv(cfg.w, s.c, Claims.Advance(t));
    AdvanceEffect(cfg.w, s.c, t);
    NotClaimed(cfg, s, t);
    if s.c.pcs[t].AddHead? {
      HeadMoveKeepsInv(cfg, s, t);
    } else {
      ClaimsOnlyKeepsInv(cfg, s, t, Claims.Step(cfg.w, s.c, Claims.Advance(t)));
    }
  }

  lemma ClaimsInvHolds(cfg: Config, s: State)
    requires Inv(cfg, s)
    ensures Claims.Inv(s.c)
  {}

  lemma NotClaimed(cfg: Config, s: State, t: nat)
    requires Inv(cfg, s) && t < |s.consumers|
    ensures t < |s.c.pcs| && (s.consumers[t].NoClaim? <==> !s.c.pcs[t].Claimed?)
  {
    hide CellsOk, ShownOk, FillOk, KeysUpToTail, CountsOk, ProducerShape, TailBlockOk, HomeOk, ReadsOk, ViewsOk, RoomOk;
    hide IndexOk, Claims.Inv;
    assert PlaceOk(cfg, s.c.head, s.consumers[t], s.c.pcs[t]);
  }

  lemma StartDequeueKeepsInv(cfg: Config, s: State, t: nat, max: nat)
    requires Inv(cfg, s) && Enabled(cfg, s, StartDequeue(t, max))
    ensures Inv(cfg, Step(cfg, s, StartDequeue(t, max)))
  {
    hide Inv;
    ClaimsInvHolds(cfg, s);
    Claims.StepKeepsInv(cfg.w, s.c, Claims.Start(t, max));
    NotClaimed(cfg, s, t);
    ClaimsOnlyKeepsInv(cfg, s, t, Claims.Step(cfg.w, s.c, Claims.Start(t, max)));
  }

  lemma FinishKeepsInv(cfg: Config, s: State, t: nat)
    requires Inv(cfg, s) && Enabled(cfg, s, Finish(t))
    ensures Inv(cfg, Step(cfg, s, Finish(t)))
  {
    hide CellsOk, ShownOk, FillOk, KeysUpToTail, CountsOk, ProducerShape, TailBlockOk, HomeOk, PlacesOk, ReadsOk;
    hide ViewsOk;
    hide IndexOk, RoomOk, Claims.Inv;
    Claims.StepKeepsInv(cfg.w, s.c, Claims.Release(t));
    var n := cfg.BlockSize();
    QuietKeepsCounts(cfg, s, t, NoClaim, s.blocks);
    QuietKeepsReads(s.c.head, s.consumers, s.got, t, NoClaim);
    SameWeightsSameCleared(n, s.consumers, t, NoClaim);
    QuietKeepsShown(cfg, s, s.consumers[t := NoClaim]);
    ClaimKeepsPlaces(cfg, s.c.head, s.consumers, s.c.pcs, t, s.c.head, NoClaim, Claims.Idle);
    ViewsKept(cfg, s, t, NoClaim);
  }
}
