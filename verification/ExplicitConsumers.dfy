/** Reporting elements, and claiming them, keep the invariant of the explicit producer machine. */
module ExplicitConsumers {
  import opened Common
  import opened Words
  import opened BlockMath
  import opened ExplicitProducer
  import opened ExplicitInvariant
  import Claims = DequeueClaims
  import P = ImplicitProducer
  import IC = ImplicitConsumers
  import IR = ImplicitClaims

  // ---- Reporting ----

  /** A consumer reports into the block that was given the number of its index, whose flag for it is still unset. */
  lemma Reporter(cfg: P.Config, s: State, t: nat)
    requires Inv(cfg, s) && t < |s.consumers| && s.consumers[t].Report?
    ensures CanConsume(cfg, s, s.consumers[t])
    ensures var n, i := cfg.BlockSize(), s.consumers[t].i;
      && |s.who| - s.used <= Number(n, i) < FirstNew(cfg, s) <= |s.who| && s.consumers[t].block == s.who[Number(n, i)]
      && i < s.c.head && i !in s.reported
  {
    ShapedHolds(cfg, s);
    ConsumerStands(cfg, s, t);
    var n, i := cfg.BlockSize(), s.consumers[t].i;
    UnreportedBlockStays(cfg, s, t, i);
    assert FlagsOk(n, FirstNew(cfg, s), s.who, s.flags, s.producer, s.reported, Number(n, i));
    Within(n, i);
    hide Inv;
  }

  lemma ReportKeepsFlags(n: nat, first: nat, who: seq<nat>, flags: map<nat, seq<bool>>, pc: ProducerPc, reported: set<nat>,
                         i: nat, b: nat)
    requires 0 < n && b < |who| && Number(n, i) < |who| && Offset(n, i) < n
    requires FlagsOk(n, first, who, flags, pc, reported, b)
    requires FlagsOk(n, first, who, flags, pc, reported, Number(n, i))
    requires b != Number(n, i) ==> who[b] != who[Number(n, i)]
    ensures var block := who[Number(n, i)];
      FlagsOk(n, first, who, flags[block := flags[block][Offset(n, i) := true]], pc, reported + {i}, b)
  {
    Within(n, i);
    hide WasReset;
    var block := who[Number(n, i)];
    var flags' := flags[block := flags[block][Offset(n, i) := true]];
    forall o | 0 <= o < n
      ensures flags'[who[b]][o] ==
              if first <= b && !WasReset(pc, b - first) then true else Start(n, b) + o in reported + {i}
    {
      if Start(n, b) + o == i {
        WithinOnly(n, i, b);
      }
    }
  }

  lemma ReportKeepsBlocks(cfg: P.Config, s: State, t: nat)
    requires Inv(cfg, s) && t < |s.consumers| && s.consumers[t].Report?
    ensures CanConsume(cfg, s, s.consumers[t])
    ensures var n, i, block := cfg.BlockSize(), s.consumers[t].i, s.consumers[t].block;
      BlocksOk(n, FirstNew(cfg, s), s.who, s.used, s.flags[block := s.flags[block][Offset(n, i) := true]], s.producer,
               s.reported + {i})
  {
    Reporter(cfg, s, t);
    hide PlacesOk, ViewsOk, HeadersOk, Claims.Inv, RetiredOk, ReportedOk, ProducerOk, FlagsOk;
    var n, first, i := cfg.BlockSize(), FirstNew(cfg, s), s.consumers[t].i;
    Within(n, i);
    assert FlagsOk(n, first, s.who, s.flags, s.producer, s.reported, Number(n, i));
    var flags' := s.flags[s.consumers[t].block := s.flags[s.consumers[t].block][Offset(n, i) := true]];
    var reported' := s.reported + {i};
    forall b | |s.who| - s.used <= b < |s.who| ensures FlagsOk(n, first, s.who, flags', s.producer, reported', b) {
      ReportKeepsFlags(n, first, s.who, s.flags, s.producer, s.reported, i, b);
    }
  }

  function AfterReport(n: nat, pc: ConsumerPc, size: nat): ConsumerPc
    requires pc.Report?
  {
    var Report(i, end, stop, h, slot, block) := pc;
    if i + 1 != end then Report(i + 1, end, stop, h, slot, block)
    else if end == stop then Finished
    else LoadBlock(end, stop, h, (slot + 1) % Pow2(size))
  }

  lemma ReportedPlace(cfg: P.Config, headers: seq<Header>, who: seq<nat>, head: nat, pc: ConsumerPc, claim: Claims.Pc)
    requires 1 <= cfg.w && pc.Report? && PlaceOk(cfg, head, pc, claim) && ViewOk(cfg.BlockSize(), headers, who, pc)
    ensures var pc' := AfterReport(cfg.BlockSize(), pc, headers[pc.header].size);
      PlaceOk(cfg, head, pc', claim) && ViewOk(cfg.BlockSize(), headers, who, pc')
  {
    var n, B := cfg.BlockSize(), Number(cfg.BlockSize(), pc.i);
    IC.NextInBlock(n, pc.i, B, pc.stop);
    if pc.i + 1 == pc.end && pc.end != pc.stop {
      StartMoves(n, B);
      WithinOnly(n, pc.end, B + 1);
      PositionMoves(headers[pc.header], B);
    }
    hide Number, Start, Position, Pow2;
  }

  // Nobody else has claimed what this consumer is about to report.
  lemma ReportKeepsReported(cfg: P.Config, s: State, t: nat)
    requires Inv(cfg, s) && t < |s.consumers| && s.consumers[t].Report?
    ensures s.consumers[t].header < |s.headers|
    ensures ReportedOk(s.c.head,
                       s.consumers[t := AfterReport(cfg.BlockSize(), s.consumers[t], s.headers[s.consumers[t].header].size)],
                       s.reported + {s.consumers[t].i})
  {
    hide FlagsOk, HeaderOk, ViewOk, ViewsOk, HeadersOk, ProducerOk, BlocksOk, CircleOk, RetiredOk;
    Reporter(cfg, s, t);
    ConsumerStands(cfg, s, t);
    Claims.ClaimsAreSound(s.c);
    hide Claims.Inv;
    var i := s.consumers[t].i;
    var after := s.consumers[t := AfterReport(cfg.BlockSize(), s.consumers[t], s.headers[s.consumers[t].header].size)];
    forall u, j: nat | 0 <= u < |after| && Next(after[u]) <= j < Hi(after[u]) ensures j !in s.reported + {i} {
      assert PlaceOk(cfg, s.c.head, s.consumers[u], s.c.pcs[u]);
      assert Next(s.consumers[u]) <= j < Hi(s.consumers[u]);
    }
  }

  lemma RetiredGrows(n: nat, oldest: int, reported: set<nat>, i: nat)
    requires 0 < n && RetiredOk(n, oldest, reported)
    ensures RetiredOk(n, oldest, reported + {i})
  {}

  lemma ReportStep(cfg: P.Config, s: State, t: nat)
    requires t < |s.consumers| && s.consumers[t].Report? && CanConsume(cfg, s, s.consumers[t])
    ensures var pc, n := s.consumers[t], cfg.BlockSize();
      DoConsume(cfg, s, t) ==
        s.(flags := s.flags[pc.block := s.flags[pc.block][Offset(n, pc.i) := true]], reported := s.reported + {pc.i},
           consumers := s.consumers[t := AfterReport(n, pc, s.headers[pc.header].size)])
  {}

  lemma ReportKeepsInv(cfg: P.Config, s: State, t: nat)
    requires Inv(cfg, s) && t < |s.consumers| && s.consumers[t].Report?
    ensures CanConsume(cfg, s, s.consumers[t]) && Inv(cfg, DoConsume(cfg, s, t))
  {
    hide FlagsOk, HeaderOk, PlaceOk, ViewOk, RetiredOk, IsEmpty;
    Reporter(cfg, s, t);
    ConsumerStands(cfg, s, t);
    ReportKeepsBlocks(cfg, s, t);
    ReportKeepsReported(cfg, s, t);
    RetiredGrows(cfg.BlockSize(), |s.who| - s.used, s.reported, s.consumers[t].i);
    ReportStep(cfg, s, t);
    hide ViewsOk, HeadersOk, Claims.Inv, ProducerOk, BlocksOk, CircleOk, PlacesOk, ReportedOk, ConsumerStep, CanConsume;
    var pc := s.consumers[t];
    var pc' := AfterReport(cfg.BlockSize(), pc, s.headers[pc.header].size);
    ReportedPlace(cfg, s.headers, s.who, s.c.head, pc, s.c.pcs[t]);
    MoveKeepsPlaces(cfg, s.c.head, s.consumers, s.c.pcs, t, s.c.head, pc', s.c.pcs[t]);
    assert s.c.pcs[t := s.c.pcs[t]] == s.c.pcs;
    MoveKeepsViews(cfg.BlockSize(), s.headers, s.who, s.consumers, t, pc');
  }

  /** Any step of any consumer can be taken and keeps the invariant. */
  lemma ConsumeKeepsInv(cfg: P.Config, s: State, t: nat)
    requires Inv(cfg, s) && t < |s.consumers|
    ensures CanConsume(cfg, s, s.consumers[t]) && Inv(cfg, DoConsume(cfg, s, t))
  {
    ShapedHolds(cfg, s);
    hide Inv;
    match s.consumers[t]
    case NoClaim => assert DoConsume(cfg, s, t) == s;
    case LoadIndex(_, _) => LoadIndexKeepsInv(cfg, s, t);
    case LoadFront(_, _, _) => LoadFrontKeepsInv(cfg, s, t);
    case LoadBase(_, _, _, _) => LoadBaseKeepsInv(cfg, s, t);
    case LoadBlock(_, _, _, _) => LoadBlockKeepsInv(cfg, s, t);
    case Report(_, _, _, _, _, _) => ReportKeepsInv(cfg, s, t);
    case Finished => assert DoConsume(cfg, s, t) == s;
  }

  // ---- The claim protocol ----

  lemma ClaimKeepsReported(head: nat, consumers: seq<ConsumerPc>, reported: set<nat>, t: nat, count: nat)
    requires ReportedOk(head, consumers, reported) && t < |consumers|
    ensures ReportedOk(head + count, consumers[t := LoadIndex(head, head + count)], reported)
  {
    var after := consumers[t := LoadIndex(head, head + count)];
    forall u, i: nat | 0 <= u < |after| && Next(after[u]) <= i < Hi(after[u]) ensures i !in reported {
      if u != t {
        assert Next(consumers[u]) <= i < Hi(consumers[u]);
      }
    }
  }

  lemma NotClaimed(cfg: P.Config, s: State, t: nat)
    requires Inv(cfg, s) && t < |s.consumers|
    ensures t < |s.c.pcs| && (s.consumers[t].NoClaim? <==> !s.c.pcs[t].Claimed?) && Claims.Inv(s.c)
  {
    ConsumerStands(cfg, s, t);
    hide Claims.Inv;
  }

  lemma ClaimedPlace(cfg: P.Config, head: nat, count: nat, claim: Claims.Pc)
    requires 1 <= cfg.w && 1 <= count < Pow2(cfg.w - 1) && claim == Claims.Claimed(head, count)
    ensures PlaceOk(cfg, head + count, LoadIndex(head, head + count), claim)
  {}

  lemma LoadingView(n: nat, headers: seq<Header>, who: seq<nat>, pc: ConsumerPc)
    requires 0 < n && pc.LoadIndex?
    ensures ViewOk(n, headers, who, pc)
  {}

  lemma HeadMoveKeepsInv(cfg: P.Config, s: State, t: nat)
    requires Inv(cfg, s) && t < |s.consumers| && s.consumers[t].NoClaim? && t < |s.c.pcs| && s.c.pcs[t].AddHead?
    requires Claims.Inv(Claims.Step(cfg.w, s.c, Claims.Advance(t)))
    ensures Inv(cfg, DoClaim(cfg, s, t))
  {
    hide FlagsOk, HeaderOk, PlaceOk, ViewOk, ViewsOk, HeadersOk, ProducerOk, BlocksOk, CircleOk, RetiredOk;
    hide Claims.Inv, PlacesOk, ReportedOk;
    QueueFitsWord(cfg, s);
    IR.AdvanceEffect(cfg.w, s.c, t);
    var s' := DoClaim(cfg, s, t);
    Claims.ClaimsAreSound(s'.c);
    var head, count := s.c.head, s.c.pcs[t].count;
    var pc' := LoadIndex(head, head + count);
    ClaimKeepsReported(head, s.consumers, s.reported, t, count);
    ClaimedPlace(cfg, head, count, s'.c.pcs[t]);
    LoadingView(cfg.BlockSize(), s.headers, s.who, pc');
    MoveKeepsPlaces(cfg, head, s.consumers, s.c.pcs, t, head + count, pc', s'.c.pcs[t]);
    MoveKeepsViews(cfg.BlockSize(), s.headers, s.who, s.consumers, t, pc');
  }

  lemma ClaimsOnlyKeepsInv(cfg: P.Config, s: State, t: nat, c': Claims.State)
    requires Inv(cfg, s) && t < |s.consumers| && Claims.Inv(c') && t < |s.c.pcs| && t < |c'.pcs|
    requires c'.tail == s.c.tail && c'.head == s.c.head && c'.pcs == s.c.pcs[t := c'.pcs[t]]
    requires !s.c.pcs[t].Claimed? && !c'.pcs[t].Claimed?
    ensures Inv(cfg, s.(c := c'))
  {
    ConsumerStands(cfg, s, t);
    hide ViewsOk, HeadersOk, Claims.Inv, ProducerOk, BlocksOk, CircleOk, PlacesOk, ReportedOk, RetiredOk;
    MoveKeepsPlaces(cfg, s.c.head, s.consumers, s.c.pcs, t, s.c.head, s.consumers[t], c'.pcs[t]);
    assert s.consumers[t := s.consumers[t]] == s.consumers;
  }

  lemma ClaimKeepsInv(cfg: P.Config, s: State, t: nat)
    requires Inv(cfg, s) && Enabled(cfg, s, Claim(t)) && Claims.InWindow(cfg.w, s.c, Claims.Advance(t))
    ensures Inv(cfg, Step(cfg, s, Claim(t)))
  {
    hide Inv;
    NotClaimed(cfg, s, t);
    Claims.StepKeepsInv(cfg.w, s.c, Claims.Advance(t));
    IR.AdvanceEffect(cfg.w, s.c, t);
    if s.c.pcs[t].AddHead? {
      HeadMoveKeepsInv(cfg, s, t);
    } else {
      ClaimsOnlyKeepsInv(cfg, s, t, Claims.Step(cfg.w, s.c, Claims.Advance(t)));
    }
  }

  lemma StartDequeueKeepsInv(cfg: P.Config, s: State, t: nat, max: nat)
    requires Inv(cfg, s) && Enabled(cfg, s, StartDequeue(t, max))
    ensures Inv(cfg, Step(cfg, s, StartDequeue(t, max)))
  {
    hide Inv;
    NotClaimed(cfg, s, t);
    Claims.StepKeepsInv(cfg.w, s.c, Claims.Start(t, max));
    ClaimsOnlyKeepsInv(cfg, s, t, Claims.Step(cfg.w, s.c, Claims.Start(t, max)));
  }

  lemma FinishKeepsInv(cfg: P.Config, s: State, t: nat)
    requires Inv(cfg, s) && Enabled(cfg, s, Finish(t))
    ensures Inv(cfg, Step(cfg, s, Finish(t)))
  {
    NotClaimed(cfg, s, t);
    Claims.StepKeepsInv(cfg.w, s.c, Claims.Release(t));
    hide ViewsOk, HeadersOk, Claims.Inv, ProducerOk, BlocksOk, CircleOk, PlacesOk, ReportedOk, RetiredOk;
    MoveKeepsPlaces(cfg, s.c.head, s.consumers, s.c.pcs, t, s.c.head, NoClaim, Claims.Idle);
    MoveKeepsViews(cfg.BlockSize(), s.headers, s.who, s.consumers, t, NoClaim);
    MoveKeepsReported(s.c.head, s.consumers, s.reported, t, NoClaim);
  }
}
