/** Publishing the blocks of an explicit producer, and what holds in every run. */
module ExplicitSafety {
  import opened Common
  import opened Words
  import opened BlockMath
  import opened ExplicitProducer
  import opened ExplicitInvariant
  import opened ExplicitConsumers
  import opened ExplicitProducing
  import Claims = DequeueClaims
  import P = ImplicitProducer
  import IA = ImplicitAllocation

  // ---- Resetting the flags ----

  lemma ResetKeepsFlags(n: nat, first: nat, who: seq<nat>, flags: map<nat, seq<bool>>, pc: ProducerPc, reported: set<nat>,
                        pc': ProducerPc, b: nat)
    requires 0 < n && pc.Reset? && b < |who| && FlagsOk(n, first, who, flags, pc, reported, b)
    requires first + pc.done < |who| && pc.block == who[first + pc.done] && (b != first + pc.done ==> who[b] != pc.block)
    requires forall j: nat :: j < |who| - first ==> (WasReset(pc', j) <==> j < pc.done + 1)
    requires b == first + pc.done ==> forall i: nat :: Start(n, b) <= i ==> i !in reported
    ensures FlagsOk(n, first, who, flags[pc.block := All(n, false)], pc', reported, b)
  {
    if first <= b {
      assert WasReset(pc', b - first) <==> b - first < pc.done + 1;
    }
    hide WasReset;
  }

  // No element of a block beyond the tail has been reported.
  lemma NothingReported(n: nat, tail: nat, head: nat, consumers: seq<ConsumerPc>, reported: set<nat>, b: nat)
    requires 0 < n && head <= tail && Blocks(n, tail) <= b && ReportedOk(head, consumers, reported)
    ensures forall i: nat :: Start(n, b) <= i ==> i !in reported
  {
    BlocksReach(n, tail);
    StartMonotone(n, Blocks(n, tail), b);
  }

  lemma ResetPlace(cfg: P.Config, s: State)
    requires Inv(cfg, s) && s.producer.Reset?
    ensures CanProduce(cfg, s)
    ensures var n, first, pc' := cfg.BlockSize(), FirstNew(cfg, s), DoReset(cfg, s).producer;
      && ProducerOk(n, s.c.tail, s.who, s.used, s.start, pc') && !pc'.Requisition?
      && Exposed(first, s.who, pc') == first
      && first + s.producer.done < |s.who| && s.producer.block == s.who[first + s.producer.done]
      && (forall j: nat :: j < |s.who| - first ==> (WasReset(pc', j) <==> j < s.producer.done + 1))
      && (forall b :: |s.who| - s.used <= b < |s.who| && b != first + s.producer.done ==> s.who[b] != s.producer.block)
  {
    hide PlacesOk, Claims.Inv, ViewsOk, ReportedOk, RetiredOk, HeaderOk, FlagsOk, BlocksOk;
    ShapedHolds(cfg, s);
  }

  lemma ResetKeepsInv(cfg: P.Config, s: State)
    requires Inv(cfg, s) && s.producer.Reset?
    ensures CanProduce(cfg, s) && Inv(cfg, DoReset(cfg, s))
  {
    hide PlacesOk, Claims.Inv, ViewsOk, ReportedOk, RetiredOk, HeaderOk, FlagsOk, ProducerOk, HeadersOk, CircleOk;
    hide WasReset;
    QueueFitsWord(cfg, s);
    ResetPlace(cfg, s);
    var n, first, pc' := cfg.BlockSize(), FirstNew(cfg, s), DoReset(cfg, s).producer;
    NothingReported(n, s.c.tail, s.c.head, s.consumers, s.reported, first + s.producer.done);
    var flags' := s.flags[s.producer.block := All(n, false)];
    forall b | |s.who| - s.used <= b < |s.who| ensures FlagsOk(n, first, s.who, flags', pc', s.reported, b) {
      assert FlagsOk(n, first, s.who, s.flags, s.producer, s.reported, b);
      ResetKeepsFlags(n, first, s.who, s.flags, s.producer, s.reported, pc', b);
    }
  }

  // ---- Showing the entries and constructing the elements ----

  lemma ShowKeepsHeaders(cfg: P.Config, s: State, exposed: nat)
    requires HeadersOk(cfg, s.headers, s.who, s.used, s.prFront, exposed) && 0 < s.used && Shaped(s)
    ensures var h := Current(s);
      HeadersOk(cfg, s.headers[|s.headers| - 1 := h.(front := (s.prFront - 1) % Pow2(h.size))], s.who, s.used, s.prFront,
                |s.who|)
  {
    var h := Current(s);
    assert HeaderOk(cfg, h, s.who);
    PositionMoves(h, |s.who|);
    var h' := h.(front := (s.prFront - 1) % Pow2(h.size));
    assert h.entries[Position(h, |s.who| - 1)].Some?;
    assert HeaderOk(cfg, h', s.who);
    hide HeaderOk;
  }

  lemma FrontMoveKeepsViews(n: nat, headers: seq<Header>, who: seq<nat>, consumers: seq<ConsumerPc>, front: nat)
    requires 0 < n && 0 < |headers| && ViewsOk(n, headers, who, consumers)
    ensures ViewsOk(n, headers[|headers| - 1 := headers[|headers| - 1].(front := front)], who, consumers)
  {
    var headers' := headers[|headers| - 1 := headers[|headers| - 1].(front := front)];
    forall t | 0 <= t < |consumers| ensures ViewOk(n, headers', who, consumers[t]) {
      assert ViewOk(n, headers, who, consumers[t]);
    }
  }

  // The block of the first element is the one that holds the tail or, on a boundary, the first one obtained.
  lemma FirstElementBlock(n: nat, tail: nat, count: nat)
    requires 0 < n && 0 < count
    ensures var b := Number(n, tail);
      && b < Blocks(n, tail + count)
      && Blocks(n, tail) == (if Offset(n, tail) == 0 then b else b + 1)
  {
    Within(n, tail);
    NumberMonotone(n, tail, tail + count - 1);
    if Start(n, Number(n, tail)) == tail {
      BlocksAtBoundary(n, tail);
    } else {
      BlocksInside(n, tail);
    }
  }

  lemma ShownPlace(cfg: P.Config, s: State)
    requires Inv(cfg, s) && s.producer.Show?
    ensures 0 < s.used && Shaped(s)
    ensures var n, pc' := cfg.BlockSize(), DoShow(cfg, s).producer;
      && ProducerOk(n, s.c.tail, s.who, s.used, s.start, pc') && (pc'.Fill? || pc'.Publish?)
      && Exposed(FirstNew(cfg, s), s.who, pc') == |s.who|
  {
    hide PlacesOk, Claims.Inv, ViewsOk, ReportedOk, RetiredOk, HeaderOk, FlagsOk, BlocksOk, HeadersOk;
    ShapedHolds(cfg, s);
    hide Number, Blocks, Offset;
    if 0 < s.producer.count {
      FirstElementBlock(cfg.BlockSize(), s.c.tail, s.producer.count);
    }
  }

  lemma ShowKeepsInv(cfg: P.Config, s: State)
    requires Inv(cfg, s) && s.producer.Show?
    ensures CanProduce(cfg, s) && Inv(cfg, DoShow(cfg, s))
  {
    hide PlacesOk, Claims.Inv, ViewsOk, ReportedOk, RetiredOk, HeaderOk, FlagsOk, ProducerOk, HeadersOk, CircleOk;
    hide BlocksOk;
    ShapedHolds(cfg, s);
    ShownPlace(cfg, s);
    var n, first, pc' := cfg.BlockSize(), FirstNew(cfg, s), DoShow(cfg, s).producer;
    ShowKeepsHeaders(cfg, s, first);
    FrontMoveKeepsViews(n, s.headers, s.who, s.consumers, (s.prFront - 1) % Pow2(Current(s).size));
    PlaceKeepsBlocks(n, first, s.who, s.used, s.flags, s.producer, s.reported, pc');
  }

  // The block that holds the tail, or follows it, is still in the circle.
  lemma TailBlockHeld(cfg: P.Config, s: State, i: nat)
    requires Inv(cfg, s) && s.c.tail <= i
    ensures |s.who| - s.used <= Number(cfg.BlockSize(), i)
  {
    QueueFitsWord(cfg, s);
    hide PlacesOk, Claims.Inv, ViewsOk, HeaderOk, FlagsOk, ProducerOk, HeadersOk, CircleOk, BlocksOk;
  }

  // The successor in the circle of the block of one element is the block of the next.
  lemma FillMoves(n: nat, tail: nat, who: seq<nat>, used: nat, start: Option<nat>, next: map<nat, nat>,
                  tailBlock: Option<nat>, pc: ProducerPc)
    requires 0 < n && used <= |who| && CircleOk(who, used, next, tailBlock) && pc.Fill? && pc.current in next
    requires ProducerOk(n, tail, who, used, start, pc) && |who| - used <= Number(n, tail + pc.done)
    ensures var Fill(count, staged, done, current) := pc;
      var pc' := if done + 1 == count then Publish(count, staged)
                 else if Offset(n, tail + done + 1) == 0 then Fill(count, staged, done + 1, next[current])
                 else Fill(count, staged, done + 1, current);
      ProducerOk(n, tail, who, used, start, pc')
  {
    hide Number, Blocks, Offset;
    var i := tail + pc.done;
    NextIndexBlock(n, i);
    if pc.done + 1 < pc.count {
      NumberMonotone(n, i + 1, tail + pc.count - 1);
      LastBlock(n, tail + pc.count);
    }
  }

  lemma FilledPlace(cfg: P.Config, s: State)
    requires Inv(cfg, s) && s.producer.Fill?
    ensures CanProduce(cfg, s)
    ensures var n, pc' := cfg.BlockSize(), DoFill(cfg, s).producer;
      && ProducerOk(n, s.c.tail, s.who, s.used, s.start, pc') && (pc'.Fill? || pc'.Publish?)
      && Exposed(FirstNew(cfg, s), s.who, pc') == |s.who|
  {
    hide PlacesOk, Claims.Inv, ViewsOk, ReportedOk, RetiredOk, HeaderOk, FlagsOk, BlocksOk, HeadersOk;
    ShapedHolds(cfg, s);
    FillCanGoOn(cfg, s);
    hide ProducerOk, CircleOk, Number, Blocks, Offset;
    FillMoves(cfg.BlockSize(), s.c.tail, s.who, s.used, s.start, s.next, s.tailBlock, s.producer);
  }

  lemma FillCanGoOn(cfg: P.Config, s: State)
    requires Inv(cfg, s) && s.producer.Fill?
    ensures s.producer.current in s.next
    ensures |s.who| - s.used <= Number(cfg.BlockSize(), s.c.tail + s.producer.done)
  {
    TailBlockHeld(cfg, s, s.c.tail + s.producer.done);
    hide PlacesOk, Claims.Inv, ViewsOk, ReportedOk, RetiredOk, HeaderOk, FlagsOk, BlocksOk, HeadersOk, Number, Blocks;
    hide Offset;
  }

  lemma LastBlock(n: nat, t: nat)
    requires 0 < n && 0 < t
    ensures Blocks(n, t) == Number(n, t - 1) + 1
  {}

  lemma NextIndexBlock(n: nat, i: nat)
    requires 0 < n
    ensures Number(n, i + 1) == if Offset(n, i + 1) == 0 then Number(n, i) + 1 else Number(n, i)
  {
    var b := Number(n, i);
    Within(n, i);
    StartMoves(n, b);
    if i + 1 < Start(n, b) + n {
      WithinOnly(n, i + 1, b);
    } else {
      WithinOnly(n, i + 1, b + 1);
    }
  }

  lemma FillKeepsInv(cfg: P.Config, s: State)
    requires Inv(cfg, s) && s.producer.Fill?
    ensures CanProduce(cfg, s) && Inv(cfg, DoFill(cfg, s))
  {
    hide PlacesOk, Claims.Inv, ViewsOk, ReportedOk, RetiredOk, HeaderOk, FlagsOk, ProducerOk, HeadersOk, CircleOk;
    hide BlocksOk;
    FilledPlace(cfg, s);
    PlaceKeepsBlocks(cfg.BlockSize(), FirstNew(cfg, s), s.who, s.used, s.flags, s.producer, s.reported,
                     DoFill(cfg, s).producer);
  }

  lemma PublishKeepsBlocks(n: nat, first: nat, who: seq<nat>, used: nat, flags: map<nat, seq<bool>>, pc: ProducerPc,
                           reported: set<nat>, first': nat)
    requires used <= |who| && BlocksOk(n, first, who, used, flags, pc, reported) && pc.Publish?
    ensures BlocksOk(n, first', who, used, flags, Ready, reported)
  {
    forall b | |who| - used <= b < |who| ensures FlagsOk(n, first', who, flags, Ready, reported, b) {
      assert FlagsOk(n, first, who, flags, pc, reported, b);
    }
  }

  lemma PublishedPlace(cfg: P.Config, s: State)
    requires Inv(cfg, s) && s.producer.Publish?
    ensures var n, tail' := cfg.BlockSize(), s.c.tail + s.producer.count;
      && ProducerOk(n, tail', s.who, s.used, s.start, Ready) && Blocks(n, tail') == |s.who|
  {
    hide PlacesOk, Claims.Inv, ViewsOk, ReportedOk, RetiredOk, HeaderOk, FlagsOk, HeadersOk, CircleOk, BlocksOk;
  }

  lemma PublishKeepsInv(cfg: P.Config, s: State)
    requires Inv(cfg, s) && s.producer.Publish?
    ensures CanProduce(cfg, s) && Inv(cfg, DoPublish(s))
  {
    hide PlacesOk, Claims.Inv, ViewsOk, ReportedOk, RetiredOk, HeaderOk, FlagsOk, ProducerOk, HeadersOk, CircleOk;
    hide BlocksOk;
    ShapedHolds(cfg, s);
    Claims.StepKeepsInv(cfg.w, s.c, Claims.Publish(s.producer.count));
    PublishedPlace(cfg, s);
    PublishKeepsBlocks(cfg.BlockSize(), FirstNew(cfg, s), s.who, s.used, s.flags, s.producer, s.reported, |s.who|);
  }

  // ---- Starting ----

  lemma StartPlace(cfg: P.Config, s: State, count: nat)
    requires Inv(cfg, s) && s.producer.Ready? && count + cfg.BlockSize() <= Pow2(cfg.w)
    ensures var n, s' := cfg.BlockSize(), DoStart(cfg, s, count);
      && ProducerOk(n, s.c.tail, s.who, s.used, s'.start, s'.producer) && !s'.producer.Requisition?
      && (s'.producer.Reuse? || s'.producer.Fill? || s'.producer.Publish?)
  {
    hide PlacesOk, Claims.Inv, ViewsOk, ReportedOk, RetiredOk, HeaderOk, FlagsOk, BlocksOk, HeadersOk;
    var n, tail := cfg.BlockSize(), s.c.tail;
    IA.BlockBaseDiffIsExact(cfg, tail, count);
    BlocksMonotone(n, tail, tail + count);
    if P.BlockBaseDiff(cfg, tail, count) == 0 {
      IA.SameStartSameBlock(n, FirstNew(cfg, s), Blocks(n, tail + count));
      if 0 < count {
        NumberMonotone(n, tail, tail + count - 1);
        if Start(n, Number(n, tail)) == tail {
          BlocksAtBoundary(n, tail);
        } else {
          BlocksInside(n, tail);
        }
      }
    }
  }

  lemma StartEnqueueKeepsInv(cfg: P.Config, s: State, count: nat)
    requires Inv(cfg, s) && Enabled(cfg, s, StartEnqueue(count))
    ensures Inv(cfg, Step(cfg, s, StartEnqueue(count)))
  {
    hide PlacesOk, Claims.Inv, ViewsOk, ReportedOk, RetiredOk, HeaderOk, FlagsOk, CircleOk, BlocksOk;
    StartPlace(cfg, s, count);
    var s' := DoStart(cfg, s, count);
    PlaceKeepsBlocks(cfg.BlockSize(), FirstNew(cfg, s), s.who, s.used, s.flags, s.producer, s.reported, s'.producer);
    hide HeaderOk;
  }

  // ---- Every step, every run ----

  lemma ProduceKeepsInv(cfg: P.Config, s: State, supply: Supply)
    requires Inv(cfg, s) && CanProduce(cfg, s) && Granted1(cfg, s, supply)
    ensures Inv(cfg, ProducerStep(cfg, s, supply))
  {
    hide Inv;
    match s.producer
    case Ready =>
    case Reuse(_, _, _, _, _) => ReuseKeepsInv(cfg, s);
    case Room(_, _, _, _, _) => RoomKeepsInv(cfg, s, P.IsFull(cfg, s.c.head, |s.who| * cfg.BlockSize()));
    case Grow(_, _, _, _, _) => GrowKeepsInv(cfg, s, GrantedMemory(cfg, s, supply));
    case Requisition(_, _, _, _, _) => RequisitionKeepsInv(cfg, s, GrantedBlock(cfg, s, supply));
    case Reset(_, _, _, _, _) => ResetKeepsInv(cfg, s);
    case Show(_, _, _) => ShowKeepsInv(cfg, s);
    case Fill(_, _, _, _) => FillKeepsInv(cfg, s);
    case Publish(_, _) => PublishKeepsInv(cfg, s);
  }

  // The answers that turn a call down.
  predicate Denied(cfg: P.Config, s: State, supply: Supply)
    requires Shaped(s) && 1 <= cfg.w
  {
    match s.producer
    case Room(_, _, _, _, _) => P.IsFull(cfg, s.c.head, |s.who| * cfg.BlockSize())
    case Grow(_, _, _, _, _) => !GrantedMemory(cfg, s, supply)
    case Requisition(_, _, _, _, _) => GrantedBlock(cfg, s, supply).None?
    case _ => false
  }

  /** A call turned down before it obtained a block, be it for want of room, of memory for the index or of a block, is over
      and has changed nothing else. */
  lemma DeniedStep(cfg: P.Config, s: State, supply: Supply)
    requires Inv(cfg, s) && Shaped(s) && Denied(cfg, s, supply) && s.producer.staged == 0
    ensures CanProduce(cfg, s) && ProducerStep(cfg, s, supply) == s.(producer := Ready)
    ensures Inv(cfg, s.(producer := Ready))
  {
    EveryStepIsDefined(cfg, s);
    DeniedKeepsInv(cfg, s);
    hide Inv;
  }

  ghost predicate InWindow(cfg: P.Config, s: State, a: Action)
    requires 1 <= cfg.w
  {
    a.Claim? ==> Claims.InWindow(cfg.w, s.c, Claims.Advance(a.thread))
  }

  lemma StepKeepsInv(cfg: P.Config, s: State, a: Action)
    requires Inv(cfg, s) && Enabled(cfg, s, a) && InWindow(cfg, s, a)
    ensures Inv(cfg, Step(cfg, s, a))
  {
    hide Inv;
    match a
    case StartEnqueue(count) => StartEnqueueKeepsInv(cfg, s, count);
    case Produce(supply) => ProduceKeepsInv(cfg, s, supply);
    case StartDequeue(t, max) => StartDequeueKeepsInv(cfg, s, t, max);
    case Claim(t) => ClaimKeepsInv(cfg, s, t);
    case Consume(t) => ConsumeKeepsInv(cfg, s, t);
    case Finish(t) => FinishKeepsInv(cfg, s, t);
  }

  function Run(cfg: P.Config, s: State, schedule: seq<Action>): State
    decreases |schedule|
  {
    if |schedule| == 0 then s
    else Run(cfg, if Enabled(cfg, s, schedule[0]) then Step(cfg, s, schedule[0]) else s, schedule[1..])
  }

  ghost predicate RunInWindow(cfg: P.Config, s: State, schedule: seq<Action>)
    decreases |schedule|
  {
    |schedule| > 0 ==>
      var a := schedule[0];
      && (Enabled(cfg, s, a) ==> InWindow(cfg, s, a))
      && RunInWindow(cfg, if Enabled(cfg, s, a) then Step(cfg, s, a) else s, schedule[1..])
  }

  // A producer as constructed, with an index of 2^m entries.
  ghost predicate Initial(cfg: P.Config, s: State) {
    && cfg.Ok() && Claims.Initial(s.c) && |s.consumers| == |s.c.pcs|
    && s.headers == [Header(cfg.m, -1, seq(Pow2(cfg.m), _ => None), 0, 0, 0)]
    && s.used == 0 && s.prFront == 0 && s.flags == map[] && s.next == map[] && s.tailBlock == None
    && s.who == [] && s.reported == {} && s.producer == Ready
    && forall t :: 0 <= t < |s.consumers| ==> s.consumers[t] == NoClaim
  }

  function Created(cfg: P.Config, threads: nat): State {
    State(Claims.Created(threads), [Header(cfg.m, -1, seq(Pow2(cfg.m), _ => None), 0, 0, 0)], 0, 0, map[], map[], None, None,
          Ready, seq(threads, _ => NoClaim), [], {})
  }

  lemma CreatedIsInitial(cfg: P.Config, threads: nat)
    requires cfg.Ok()
    ensures Initial(cfg, Created(cfg, threads))
  {}

  lemma InitialInv(cfg: P.Config, s: State)
    requires Initial(cfg, s)
    ensures Inv(cfg, s)
  {
    Claims.IdleSums(s.c.pcs);
    DivisionIsUnique(0, Pow2(cfg.m), 0, 0);
  }

  lemma {:induction false} RunKeepsInv(cfg: P.Config, s: State, schedule: seq<Action>)
    requires Inv(cfg, s) && RunInWindow(cfg, s, schedule)
    ensures Inv(cfg, Run(cfg, s, schedule))
    decreases |schedule|
  {
    hide Inv;
    if |schedule| > 0 {
      var a := schedule[0];
      if Enabled(cfg, s, a) {
        StepKeepsInv(cfg, s, a);
        RunKeepsInv(cfg, Step(cfg, s, a), schedule[1..]);
      } else {
        RunKeepsInv(cfg, s, schedule[1..]);
      }
    }
  }

  /** Any word, block and index size, any number of consumers, any interleaving, single enqueues that fail or succeed
      and bulk enqueues that succeed. */
  lemma EveryRunKeepsInv(cfg: P.Config, s: State, schedule: seq<Action>)
    requires Initial(cfg, s) && RunInWindow(cfg, s, schedule)
    ensures Inv(cfg, Run(cfg, s, schedule))
  {
    InitialInv(cfg, s);
    RunKeepsInv(cfg, s, schedule);
  }

  // ---- What it means ----

  /** No consumer follows a null or stale pointer or reports an element twice; no step of the producer does the
      former, unless it fails a call that has already obtained a block. */
  lemma EveryStepIsDefined(cfg: P.Config, s: State)
    requires Inv(cfg, s)
    ensures CanProduce(cfg, s)
    ensures forall t :: 0 <= t < |s.consumers| ==> CanConsume(cfg, s, s.consumers[t])
  {
    ShapedHolds(cfg, s);
    hide Inv, CanConsume;
    forall t | 0 <= t < |s.consumers| ensures CanConsume(cfg, s, s.consumers[t]) {
      ConsumeKeepsInv(cfg, s, t);
    }
    if s.producer.Requisition? {
      TailLinked(cfg, s);
    } else if s.producer.Reset? {
      ResetPlace(cfg, s);
    } else if s.producer.Fill? {
      FilledPlace(cfg, s);
    }
  }

  /** The circle and the index agree: the newest `used` entries of the current index are, oldest first, the blocks met
      when following the links from the tail block, each under the base it was last given. */
  lemma CircleAndIndexAgree(cfg: P.Config, s: State, j: nat)
    requires Inv(cfg, s) && j < s.used
    ensures Shaped(s) && s.used <= |s.who| && s.tailBlock.Some? && s.tailBlock.value in s.next
    ensures var number := |s.who| - s.used + j;
      && Current(s).entries[(s.prFront - s.used + j) % Pow2(Current(s).size)] == Some(Entry(number, s.who[number]))
      && s.who[number] in s.next
      && s.next[if j == 0 then s.tailBlock.value else s.who[number - 1]] == s.who[number]
  {
    ShapedHolds(cfg, s);
    hide PlacesOk, Claims.Inv, ViewsOk, ReportedOk, RetiredOk, FlagsOk, BlocksOk, ProducerOk;
    assert HeaderOk(cfg, Current(s), s.who);
    SourceSlot(Current(s), |s.who|, s.used, j);
  }

  /** A block is reused only when every element that was ever put in it has been dequeued completely. */
  lemma ReuseIsSafe(cfg: P.Config, s: State, i: nat)
    requires Inv(cfg, s) && s.producer.Reuse? && CanReuse(s)
    requires s.used <= |s.who| && Number(cfg.BlockSize(), i) < |s.who|
    requires s.who[Number(cfg.BlockSize(), i)] == s.next[s.tailBlock.value] && i < s.c.tail
    ensures i in s.reported
  {
    ReusedBlockIsEmpty(cfg, s);
    TailLinked(cfg, s);
    hide PlacesOk, Claims.Inv, ViewsOk, ReportedOk, FlagsOk, BlocksOk, ProducerOk, HeadersOk;
  }

  /** Through whichever header it loaded, however often the index has since grown or wrapped around, a consumer finds
      for each index it has claimed and not reported the block that was given that index's number. */
  lemma LookupFindsBlock(cfg: P.Config, s: State, t: nat)
    requires Inv(cfg, s) && t < |s.consumers| && s.consumers[t].LoadBlock?
    ensures var LoadBlock(i, _, h, slot) := s.consumers[t];
      var b := Number(cfg.BlockSize(), i);
      && h < |s.headers| && slot < |s.headers[h].entries| && b < |s.who|
      && s.headers[h].entries[slot] == Some(Entry(b, s.who[b]))
  {
    ConsumerStands(cfg, s, t);
    HeaderHolds(cfg, s, s.consumers[t].header);
    hide Inv;
  }

  /** An element is constructed in the block that consumers will find for it. */
  lemma ElementsGoWhereTheyAreSought(cfg: P.Config, s: State)
    requires Inv(cfg, s) && s.producer.Fill?
    ensures var b := Number(cfg.BlockSize(), s.c.tail + s.producer.done);
      b < |s.who| && |s.who| - s.used <= b && s.producer.current == s.who[b]
  {
    TailBlockHeld(cfg, s, s.c.tail + s.producer.done);
    hide PlacesOk, Claims.Inv, ViewsOk, ReportedOk, RetiredOk, HeaderOk, FlagsOk, BlocksOk, HeadersOk, CircleOk;
  }
}
