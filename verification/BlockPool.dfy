/** The blocks of a queue: the initial pool, the free list and the allocator, and the producers that obtain blocks from
    them and return them, put together. Blocks are the nodes of the free list; those that were never handed out count
    as being in the hands of their creator. */
module BlockPool {
  import opened BlockMath
  import opened Common
  import opened Words
  import F = FreeList
  import M = ImplicitProducer
  import E = ExplicitProducer

  datatype Producer = Implicit(q: M.State) | Explicit(e: E.State)

  datatype ProducerAction = OfImplicit(a: M.Action) | OfExplicit(b: E.Action)

  // Where a thread stands in requisition_block: about to load or to increment the index of the initial pool, inside
  // try_get of the free list, about to allocate, or with a block.
  datatype Hand = Empty | LoadPool | AddPool | Searching | Create | Holds(block: nat)

  // pool: initialBlockPoolIndex; poolSize: initialBlockPoolSize; created: the number of the next block to be allocated.
  datatype State = State(list: F.State, pool: nat, poolSize: nat, created: nat, hands: seq<Hand>, producers: seq<Producer>)

  // Own is a step of a producer that asks for no block, or does not get one; a block it returns is added to the free
  // list by thread t.
  datatype Action =
    | Request(thread: nat)
    | Pool(thread: nat)
    | List(thread: nat)
    | Allocate(thread: nat, granted: bool)
    | Grant(thread: nat, producer: nat, completed: int)
    | Own(thread: nat, producer: nat, action: ProducerAction)

  // ---- The producers ----

  function Blocks(p: Producer): set<nat> {
    match p
    case Implicit(q) => q.blocks.Keys
    case Explicit(e) => e.flags.Keys
  }

  predicate CanDo(cfg: M.Config, p: Producer, a: ProducerAction) {
    match p
    case Implicit(q) => a.OfImplicit? && M.Enabled(cfg, q, a.a)
    case Explicit(e) => a.OfExplicit? && E.Enabled(cfg, e, a.b)
  }

  function Do(cfg: M.Config, p: Producer, a: ProducerAction): Producer
    requires CanDo(cfg, p, a)
  {
    match p
    case Implicit(q) => Implicit(M.Step(cfg, q, a.a))
    case Explicit(e) => Explicit(E.Step(cfg, e, a.b))
  }

  // A producer at its request for a block.
  predicate Wants(p: Producer) {
    match p
    case Implicit(q) => q.producer.Grab?
    case Explicit(e) => e.producer.Requisition?
  }

  function Granting(p: Producer, block: nat, completed: int): ProducerAction {
    match p
    case Implicit(_) => OfImplicit(M.Produce(M.Granted(block, completed)))
    case Explicit(_) => OfExplicit(E.Produce(E.Granted(block)))
  }

  predicate Asks(a: ProducerAction) {
    match a
    case OfImplicit(Produce(supply)) => supply.Granted?
    case OfExplicit(Produce(supply)) => supply.Granted?
    case _ => false
  }

  // The block a step returns.
  function Freed(p: Producer, a: ProducerAction): Option<nat> {
    if p.Implicit? && a.OfImplicit? then
      match a.a
      case Produce(_) =>
        if p.q.producer.UndoFree? && p.q.producer.done < |p.q.producer.chain| then Some(p.q.producer.chain[p.q.producer.done])
        else None
      case Consume(t) =>
        if t < |p.q.consumers| && p.q.consumers[t].FreeBlock? then Some(p.q.consumers[t].block) else None
      case _ => None
    else None
  }

  // The blocks of an explicit producer are those of its circle.
  predicate CircleOk(p: Producer) { p.Explicit? ==> p.e.next.Keys == p.e.flags.Keys }

  lemma ProducerOwnStep(cfg: M.Config, q: M.State, supply: M.Supply)
    requires M.CanProduce(cfg, q) && !supply.Granted?
    ensures M.ProducerStep(cfg, q, supply).blocks.Keys ==
      if q.producer.UndoFree? then q.blocks.Keys - {q.producer.chain[q.producer.done]} else q.blocks.Keys
  {
    hide M.BeginFill, M.IsFull, M.FoundPosition, M.TailEntry, M.GrantedMemory, M.Undo, M.Raw;
  }

  lemma ConsumerOwnStep(cfg: M.Config, q: M.State, pc: M.ConsumerPc)
    requires M.CanConsume(cfg, q, pc)
    ensures M.ConsumerStep(cfg, q, pc).0.blocks.Keys ==
      if pc.FreeBlock? then q.blocks.Keys - {pc.block} else q.blocks.Keys
  {
    hide M.LookUp, M.EndInBlock, M.Onward, M.Capacity;
  }

  lemma ImplicitOwnStep(cfg: M.Config, q: M.State, a: M.Action)
    requires M.Enabled(cfg, q, a) && !(a.Produce? && a.supply.Granted?)
    ensures M.Step(cfg, q, a).blocks.Keys ==
      match Freed(Implicit(q), OfImplicit(a)) case Some(b) => q.blocks.Keys - {b} case None => q.blocks.Keys
    ensures Freed(Implicit(q), OfImplicit(a)).Some? ==> Freed(Implicit(q), OfImplicit(a)).value in q.blocks
  {
    hide M.ProducerStep, M.ConsumerStep, M.BeginFill;
    if a.Produce? {
      ProducerOwnStep(cfg, q, a.supply);
    } else if a.Consume? {
      ConsumerOwnStep(cfg, q, q.consumers[a.thread]);
    }
  }

  lemma ImplicitGrant(cfg: M.Config, q: M.State, block: nat, completed: int)
    requires M.Enabled(cfg, q, M.Produce(M.Granted(block, completed))) && q.producer.Grab? && block !in q.blocks
    ensures M.Step(cfg, q, M.Produce(M.Granted(block, completed))).blocks.Keys == q.blocks.Keys + {block}
  {}

  lemma ExplicitOwnStep(cfg: M.Config, e: E.State, a: E.Action)
    requires E.Enabled(cfg, e, a) && !(a.Produce? && a.supply.Granted?) && CircleOk(Explicit(e))
    ensures E.Step(cfg, e, a).flags.Keys == e.flags.Keys && CircleOk(Explicit(E.Step(cfg, e, a)))
  {
    hide E.Shaped, E.Doubled, E.Linked, E.Obtained, M.IsFull, E.GrantedMemory, E.BeginFill;
  }

  lemma ExplicitGrant(cfg: M.Config, e: E.State, block: nat)
    requires E.Enabled(cfg, e, E.Produce(E.Granted(block))) && e.producer.Requisition? && CircleOk(Explicit(e))
    requires E.GrantedBlock(cfg, e, E.Granted(block)).Some?
    ensures var e' := E.Step(cfg, e, E.Produce(E.Granted(block)));
      e'.flags.Keys == e.flags.Keys + {block} && CircleOk(Explicit(e'))
  {
    hide E.Shaped, E.Obtained, M.IsFull;
  }

  // ---- The machine ----

  // An explicit producer is granted a block only while its blocks stay below half the word range.
  predicate HasRoom(cfg: M.Config, p: Producer) {
    1 <= cfg.w && (p.Explicit? ==> Start(cfg.BlockSize(), p.e.used + 1) < Pow2(cfg.w - 1))
  }

  predicate CanObtain(cfg: M.Config, p: Producer) {
    && Wants(p) && HasRoom(cfg, p)
    && match p
       case Implicit(q) => M.CanProduce(cfg, q) && |q.consumers| == |q.c.pcs|
       case Explicit(e) => E.CanProduce(cfg, e) && |e.consumers| == |e.c.pcs|
  }

  function Obtain(cfg: M.Config, p: Producer, block: nat, completed: int): Producer
    requires CanObtain(cfg, p)
  {
    match p
    case Implicit(q) => Implicit(M.ProducerStep(cfg, q, M.Granted(block, completed)))
    case Explicit(e) => Explicit(E.ProducerStep(cfg, e, E.Granted(block)))
  }

  predicate Enabled(cfg: M.Config, s: State, a: Action) {
    && s.list.WellFormed() && |s.hands| == |s.list.pcs| && a.thread < |s.hands|
    && match a
       case Request(t) => s.hands[t].Empty? && s.list.pcs[t].Idle?
       case Pool(t) => s.hands[t].LoadPool? || s.hands[t].AddPool?
       case List(t) => !s.list.pcs[t].Idle? && F.Enabled(s.list, F.Advance(t))
       case Allocate(t, granted) => s.hands[t].Create? && (granted ==> s.created < |s.list.refs|)
       case Grant(t, p, _) => s.hands[t].Holds? && p < |s.producers| && CanObtain(cfg, s.producers[p])
       case Own(t, p, b) => p < |s.producers| && CanDo(cfg, s.producers[p], b) && !Asks(b) && CanReturn(s, t, p, b)
  }

  // A block is returned by a thread that is not at work on the free list already.
  predicate CanReturn(s: State, t: nat, p: nat, b: ProducerAction)
    requires |s.hands| == |s.list.pcs| && t < |s.hands| && p < |s.producers|
  {
    Freed(s.producers[p], b).Some? ==> s.hands[t].Empty? && s.list.pcs[t].Idle?
  }

  // The calls of try_get and add.
  function Search(list: F.State, t: nat): F.State
    requires t < |list.pcs|
  {
    list.(pcs := list.pcs[t := F.GetLoadHead])
  }

  function AddTo(list: F.State, t: nat, block: nat): F.State
    requires t < |list.pcs|
  {
    list.(out := list.out - {block}, pcs := list.pcs[t := F.AddFlag(block)])
  }

  // What a thread has after an access of the free list.
  function HandAfter(hand: Hand, before: F.Pc, after: F.Pc): Hand {
    if before.GetTake? then Holds(before.node)
    else if hand.Searching? && after.Idle? then Create
    else hand
  }

  function Step(cfg: M.Config, s: State, a: Action): State
    requires Enabled(cfg, s, a)
  {
    match a
    case Request(t) => s.(hands := s.hands[t := LoadPool])
    case Pool(t) =>
      if s.hands[t].LoadPool? && s.pool < s.poolSize then s.(hands := s.hands[t := AddPool])
      else if s.hands[t].AddPool? && s.pool < s.poolSize then s.(pool := s.pool + 1, hands := s.hands[t := Holds(s.pool)])
      else s.(pool := if s.hands[t].AddPool? then s.pool + 1 else s.pool,
              list := Search(s.list, t), hands := s.hands[t := Searching])
    case List(t) =>
      var list' := F.Step(s.list, F.Advance(t));
      s.(list := list', hands := s.hands[t := HandAfter(s.hands[t], s.list.pcs[t], list'.pcs[t])])
    case Allocate(t, granted) =>
      if granted then s.(created := s.created + 1, hands := s.hands[t := Holds(s.created)])
      else s.(hands := s.hands[t := Empty])
    case Grant(t, p, completed) =>
      s.(hands := s.hands[t := Empty],
         producers := s.producers[p := Obtain(cfg, s.producers[p], s.hands[t].block, completed)])
    case Own(t, p, b) =>
      var freed := Freed(s.producers[p], b);
      s.(producers := s.producers[p := Do(cfg, s.producers[p], b)],
         list := if freed.Some? then AddTo(s.list, t, freed.value) else s.list)
  }

  function Run(cfg: M.Config, s: State, schedule: seq<Action>): State
    decreases |schedule|
  {
    if |schedule| == 0 then s
    else Run(cfg, if Enabled(cfg, s, schedule[0]) then Step(cfg, s, schedule[0]) else s, schedule[1..])
  }

  // ---- The invariant ----

  // A block that was never handed out.
  predicate Unissued(s: State, b: nat) { s.pool <= b < s.poolSize || s.created <= b }

  ghost function Holding(b: nat): Hand -> int { (h: Hand) => if h == Holds(b) then 1 else 0 }

  ghost function Having(b: nat): Producer -> int { (p: Producer) => if b in Blocks(p) then 1 else 0 }

  // How many have a block, the creator included.
  ghost function Owners(s: State, b: nat): int {
    F.One(Unissued(s, b)) + Sum(Holding(b), s.hands) + Sum(Having(b), s.producers)
  }

  ghost predicate Owned(s: State) {
    && (forall b :: 0 <= b < |s.list.refs| ==> Owners(s, b) == F.One(b in s.list.out))
    && (forall t :: 0 <= t < |s.hands| && s.hands[t].Holds? ==> s.hands[t].block < |s.list.refs|)
    && (forall p, b :: 0 <= p < |s.producers| && b in Blocks(s.producers[p]) ==> b < |s.list.refs|)
  }

  predicate Adding(pc: F.Pc) {
    match pc
    case Idle => true
    case AddFlag(_) => true
    case LinkLoadHead(_, k) => k.Leave?
    case LinkStoreNext(_, _, k) => k.Leave?
    case LinkStoreRefs(_, _, k) => k.Leave?
    case LinkCasHead(_, _, k) => k.Leave?
    case LinkDefer(_, _, k) => k.Leave?
    case _ => false
  }

  predicate Getting(pc: F.Pc) { !Adding(pc) }

  // What a thread does with the free list.
  predicate HandOk(hand: Hand, pc: F.Pc) {
    match hand
    case Empty => Adding(pc)
    case Searching => Getting(pc)
    case _ => pc.Idle?
  }

  ghost predicate Inv(s: State) {
    && F.Inv(s.list) && s.list.WellFormed() && |s.hands| == |s.list.pcs| && s.poolSize <= s.created <= |s.list.refs|
    && Owned(s)
    && (forall t :: 0 <= t < |s.hands| ==> HandOk(s.hands[t], s.list.pcs[t]))
    && (forall p :: 0 <= p < |s.producers| ==> CircleOk(s.producers[p]))
  }

  // ---- Counting owners ----

  lemma OwnersCount(s: State, t: nat, p: nat, b: nat)
    requires t < |s.hands| && p < |s.producers|
    ensures Holding(b)(s.hands[t]) + Having(b)(s.producers[p]) + F.One(Unissued(s, b)) <= Owners(s, b)
  {
    SumBoundsMember(Holding(b), s.hands, t);
    SumBoundsMember(Having(b), s.producers, p);
  }

  lemma HandCounts(s: State, t: nat, b: nat)
    requires t < |s.hands|
    ensures 0 <= Holding(b)(s.hands[t]) <= Owners(s, b) - F.One(Unissued(s, b))
  {
    SumBoundsMember(Holding(b), s.hands, t);
    SumNonNegative(Having(b), s.producers);
  }

  lemma ProducerCounts(s: State, p: nat, b: nat)
    requires p < |s.producers|
    ensures 0 <= Having(b)(s.producers[p]) <= Owners(s, b) - F.One(Unissued(s, b))
  {
    SumNonNegative(Holding(b), s.hands);
    SumBoundsMember(Having(b), s.producers, p);
  }

  /** A block is with one producer, in one thread's hands, or was never handed out, and then only there, off the free
      list, and nobody is taking or adding it. */
  lemma BlocksAreExclusive(s: State, p: nat, b: nat)
    requires Inv(s) && p < |s.producers| && b in Blocks(s.producers[p])
    ensures b in s.list.out && !Unissued(s, b)
    ensures forall q :: 0 <= q < |s.producers| && q != p ==> b !in Blocks(s.producers[q])
    ensures forall t :: 0 <= t < |s.hands| ==> s.hands[t] != Holds(b)
  {
    ProducerCounts(s, p, b);
    forall q | 0 <= q < |s.producers| && q != p ensures b !in Blocks(s.producers[q]) {
      if b in Blocks(s.producers[q]) {
        SumBoundsPair(Having(b), s.producers, if p < q then p else q, if p < q then q else p);
        SumNonNegative(Holding(b), s.hands);
      }
    }
    forall t | 0 <= t < |s.hands| ensures s.hands[t] != Holds(b) {
      OwnersCount(s, t, p, b);
    }
  }

  // ---- Every step keeps the invariant ----

  lemma ListStepKeepsInv(list: F.State, a: F.Action)
    requires F.Inv(list) && list.WellFormed() && F.Enabled(list, a)
    ensures F.Inv(F.Step(list, a)) && F.Step(list, a).WellFormed()
  {
    var order :| F.InvWith(list, order);
    var order' := F.StepKeepsInv(list, order, a);
  }

  lemma ListStepShape(list: F.State, t: nat)
    requires list.WellFormed() && F.Enabled(list, F.Advance(t))
    ensures var list' := F.Step(list, F.Advance(t));
      && |list'.refs| == |list.refs| && list'.pcs == list.pcs[t := list'.pcs[t]]
      && list'.out == (if list.pcs[t].GetTake? then list.out + {list.pcs[t].node} else list.out)
      && (Adding(list.pcs[t]) ==> Adding(list'.pcs[t]))
      && (Getting(list.pcs[t]) && !list'.pcs[t].Idle? ==> Getting(list'.pcs[t]))
      && (list.pcs[t].GetTake? ==> list'.pcs[t].Idle?)
  {}

  // A thread whose hand had no block now has block b: it was taken from the free list, or never handed out.
  lemma GainKeepsOwned(s: State, s': State, t: nat, b: nat)
    requires Owned(s) && t < |s.hands| && !s.hands[t].Holds? && b < |s.list.refs|
    requires s'.producers == s.producers && s'.hands == s.hands[t := Holds(b)] && |s'.list.refs| == |s.list.refs|
    requires forall n: nat :: n != b ==> Unissued(s', n) == Unissued(s, n)
    requires forall n: nat :: n != b ==> (n in s'.list.out <==> n in s.list.out)
    requires F.One(b in s'.list.out) - F.One(Unissued(s', b)) == F.One(b in s.list.out) - F.One(Unissued(s, b)) + 1
    ensures Owned(s')
  {
    forall n | 0 <= n < |s'.list.refs| ensures Owners(s', n) == F.One(n in s'.list.out) {
      SumUpdate(Holding(n), s.hands, t, Holds(b));
    }
  }

  // Nobody gains or loses a block.
  lemma QuietKeepsOwned(s: State, s': State, t: nat, hand: Hand)
    requires Owned(s) && t < |s.hands| && !s.hands[t].Holds? && !hand.Holds?
    requires s'.producers == s.producers && s'.hands == s.hands[t := hand] && |s'.list.refs| == |s.list.refs|
    requires s'.list.out == s.list.out && forall n: nat :: Unissued(s', n) == Unissued(s, n)
    ensures Owned(s')
  {
    forall n | 0 <= n < |s'.list.refs| ensures Owners(s', n) == F.One(n in s'.list.out) {
      SumUpdate(Holding(n), s.hands, t, hand);
    }
  }

  lemma SearchKeepsInv(s: State, s': State, t: nat)
    requires Inv(s) && t < |s.hands| && s.list.pcs[t].Idle? && !s.hands[t].Holds?
    requires s' == s.(pool := s'.pool, list := Search(s.list, t), hands := s.hands[t := Searching])
    requires s'.pool == s.pool || (s.poolSize <= s.pool && s'.pool == s.pool + 1)
    ensures Inv(s')
  {
    assert Search(s.list, t) == F.Step(s.list, F.StartGet(t));
    ListStepKeepsInv(s.list, F.StartGet(t));
    hide F.Inv, F.Step;
    QuietKeepsOwned(s, s', t, Searching);
  }

  lemma PoolKeepsInv(cfg: M.Config, s: State, t: nat)
    requires Inv(s) && Enabled(cfg, s, Pool(t))
    ensures Inv(Step(cfg, s, Pool(t)))
  {
    hide F.Inv, M.Enabled, E.Enabled;
    var s' := Step(cfg, s, Pool(t));
    if s.pool < s.poolSize {
      if s.hands[t].LoadPool? {
        QuietKeepsOwned(s, s', t, AddPool);
      } else {
        HandCounts(s, t, s.pool);
        GainKeepsOwned(s, s', t, s.pool);
      }
    } else {
      SearchKeepsInv(s, s', t);
    }
  }

  lemma ListKeepsInv(cfg: M.Config, s: State, t: nat)
    requires Inv(s) && Enabled(cfg, s, List(t))
    ensures Inv(Step(cfg, s, List(t)))
  {
    hide F.Inv, F.Step, F.Enabled, Owned, Adding, M.Enabled, E.Enabled, Unissued;
    var s' := Step(cfg, s, List(t));
    ListStepKeepsInv(s.list, F.Advance(t));
    ListStepShape(s.list, t);
    HandFollows(s.hands[t], s.list.pcs[t], s'.list.pcs[t]);
    if s.list.pcs[t].GetTake? {
      F.TakenNodeIsExclusive(s.list, t);
      UnissuedSame(s, s');
      GainKeepsOwned(s, s', t, s.list.pcs[t].node);
    } else {
      UnissuedSame(s, s');
      QuietKeepsOwned(s, s', t, s'.hands[t]);
    }
  }

  lemma UnissuedSame(s: State, s': State)
    requires s'.pool == s.pool && s'.poolSize == s.poolSize && s'.created == s.created
    ensures forall b: nat :: Unissued(s', b) == Unissued(s, b)
  {}

  lemma HandFollows(hand: Hand, pc: F.Pc, pc': F.Pc)
    requires HandOk(hand, pc) && !pc.Idle?
    requires Adding(pc) ==> Adding(pc')
    requires Getting(pc) && !pc'.Idle? ==> Getting(pc')
    requires pc.GetTake? ==> pc'.Idle?
    ensures HandOk(HandAfter(hand, pc, pc'), pc') && !hand.Holds? && (pc.GetTake? || !HandAfter(hand, pc, pc').Holds?)
  {}

  lemma AllocateKeepsInv(cfg: M.Config, s: State, t: nat, granted: bool)
    requires Inv(s) && Enabled(cfg, s, Allocate(t, granted))
    ensures Inv(Step(cfg, s, Allocate(t, granted)))
  {
    hide F.Inv, M.Enabled, E.Enabled;
    var s' := Step(cfg, s, Allocate(t, granted));
    if granted {
      HandCounts(s, t, s.created);
      GainKeepsOwned(s, s', t, s.created);
    } else {
      QuietKeepsOwned(s, s', t, Empty);
    }
  }

  /** A block that a thread has obtained is one that no producer holds: the producer that asked for it is granted it, as
      its own machine would. */
  lemma GrantIsTaken(cfg: M.Config, s: State, t: nat, p: nat, completed: int)
    requires Inv(s) && Enabled(cfg, s, Grant(t, p, completed))
    ensures var a := Granting(s.producers[p], s.hands[t].block, completed);
      && CanDo(cfg, s.producers[p], a) && Do(cfg, s.producers[p], a) == Obtain(cfg, s.producers[p], s.hands[t].block, completed)
    ensures var p', b := Obtain(cfg, s.producers[p], s.hands[t].block, completed), s.hands[t].block;
      b !in Blocks(s.producers[p]) && Blocks(p') == Blocks(s.producers[p]) + {b} && CircleOk(p')
  {
    var b := s.hands[t].block;
    hide M.Step, M.ProducerStep, E.ProducerStep, M.CanProduce, E.CanProduce;
    OwnersCount(s, t, p, b);
    match s.producers[p]
    case Implicit(q) => ImplicitGranted(cfg, q, b, completed);
    case Explicit(e) => ExplicitGranted(cfg, e, b);
  }

  lemma ImplicitGranted(cfg: M.Config, q: M.State, b: nat, completed: int)
    requires CanObtain(cfg, Implicit(q)) && b !in q.blocks
    ensures M.Enabled(cfg, q, M.Produce(M.Granted(b, completed)))
    ensures M.Step(cfg, q, M.Produce(M.Granted(b, completed))) == M.ProducerStep(cfg, q, M.Granted(b, completed))
    ensures M.ProducerStep(cfg, q, M.Granted(b, completed)).blocks.Keys == q.blocks.Keys + {b}
  {
    hide M.ProducerStep, M.CanProduce;
    ImplicitGrant(cfg, q, b, completed);
  }

  lemma ExplicitGranted(cfg: M.Config, e: E.State, b: nat)
    requires CanObtain(cfg, Explicit(e)) && b !in e.flags && CircleOk(Explicit(e))
    ensures E.Enabled(cfg, e, E.Produce(E.Granted(b)))
    ensures E.Step(cfg, e, E.Produce(E.Granted(b))) == E.ProducerStep(cfg, e, E.Granted(b))
    ensures E.ProducerStep(cfg, e, E.Granted(b)).flags.Keys == e.flags.Keys + {b}
    ensures CircleOk(Explicit(E.ProducerStep(cfg, e, E.Granted(b))))
  {
    hide E.ProducerStep, E.CanProduce;
    ExplicitGrant(cfg, e, b);
  }

  // Thread t's block goes to producer p.
  lemma HandOverKeepsOwned(s: State, s': State, t: nat, p: nat)
    requires Owned(s) && t < |s.hands| && s.hands[t].Holds? && p < |s.producers|
    requires s' == s.(hands := s.hands[t := Empty], producers := s'.producers)
    requires |s'.producers| == |s.producers| && s'.producers == s.producers[p := s'.producers[p]]
    requires s.hands[t].block !in Blocks(s.producers[p])
    requires Blocks(s'.producers[p]) == Blocks(s.producers[p]) + {s.hands[t].block}
    ensures Owned(s')
  {
    forall n | 0 <= n < |s'.list.refs| ensures Owners(s', n) == F.One(n in s'.list.out) {
      SumUpdate(Holding(n), s.hands, t, Empty);
      SumUpdate(Having(n), s.producers, p, s'.producers[p]);
    }
  }

  lemma GrantKeepsInv(cfg: M.Config, s: State, t: nat, p: nat, completed: int)
    requires Inv(s) && Enabled(cfg, s, Grant(t, p, completed))
    ensures Inv(Step(cfg, s, Grant(t, p, completed)))
  {
    hide F.Inv, CanDo, CanObtain, Obtain, Do, F.Enabled, Owned, Blocks, Unissued;
    GrantIsTaken(cfg, s, t, p, completed);
    HandOverKeepsOwned(s, Step(cfg, s, Grant(t, p, completed)), t, p);
  }

  lemma OwnStepMoves(cfg: M.Config, p: Producer, a: ProducerAction)
    requires CanDo(cfg, p, a) && !Asks(a) && CircleOk(p)
    ensures CircleOk(Do(cfg, p, a))
    ensures match Freed(p, a)
      case Some(b) => b in Blocks(p) && Blocks(Do(cfg, p, a)) == Blocks(p) - {b}
      case None => Blocks(Do(cfg, p, a)) == Blocks(p)
  {
    hide M.Step, E.Step, M.Enabled, E.Enabled;
    match p
    case Implicit(q) => ImplicitOwnStep(cfg, q, a.a);
    case Explicit(e) => ExplicitOwnStep(cfg, e, a.b);
  }

  // A producer keeps its blocks, or loses one that goes out of everybody's hands.
  lemma LossKeepsOwned(s: State, s': State, p: nat, freed: Option<nat>)
    requires Owned(s) && p < |s.producers| && s'.hands == s.hands && |s'.list.refs| == |s.list.refs|
    requires |s'.producers| == |s.producers| && s'.producers == s.producers[p := s'.producers[p]]
    requires forall b: nat :: Unissued(s', b) == Unissued(s, b)
    requires match freed
      case Some(b) => b in Blocks(s.producers[p]) && Blocks(s'.producers[p]) == Blocks(s.producers[p]) - {b}
                      && s'.list.out == s.list.out - {b}
      case None => Blocks(s'.producers[p]) == Blocks(s.producers[p]) && s'.list.out == s.list.out
    ensures Owned(s') && (freed.Some? ==> freed.value in s.list.out)
  {
    if freed.Some? {
      ProducerCounts(s, p, freed.value);
    }
    forall n | 0 <= n < |s'.list.refs| ensures Owners(s', n) == F.One(n in s'.list.out) {
      SumUpdate(Having(n), s.producers, p, s'.producers[p]);
    }
  }

  lemma OwnKeepsInv(cfg: M.Config, s: State, t: nat, p: nat, a: ProducerAction)
    requires Inv(s) && Enabled(cfg, s, Own(t, p, a))
    ensures Inv(Step(cfg, s, Own(t, p, a)))
  {
    hide CanDo, Do, Freed, Asks, Owned, Unissued, F.Inv, F.Enabled, F.Step, Blocks;
    OwnStepMoves(cfg, s.producers[p], a);
    var s', freed := Step(cfg, s, Own(t, p, a)), Freed(s.producers[p], a);
    UnissuedSame(s, s');
    LossKeepsOwned(s, s', p, freed);
    if freed.Some? {
      AddKeepsInv(s.list, t, freed.value);
    }
  }

  lemma AddKeepsInv(list: F.State, t: nat, b: nat)
    requires F.Inv(list) && list.WellFormed() && t < |list.pcs| && list.pcs[t].Idle? && b in list.out
    ensures F.Inv(AddTo(list, t, b)) && AddTo(list, t, b).WellFormed()
  {
    assert AddTo(list, t, b) == F.Step(list, F.StartAdd(t, b));
    ListStepKeepsInv(list, F.StartAdd(t, b));
  }

  lemma StepKeepsInv(cfg: M.Config, s: State, a: Action)
    requires Inv(s) && Enabled(cfg, s, a)
    ensures Inv(Step(cfg, s, a))
  {
    match a
    case Request(t) =>
      hide F.Inv;
      QuietKeepsOwned(s, Step(cfg, s, a), t, LoadPool);
    case Pool(t) => PoolKeepsInv(cfg, s, t);
    case List(t) => ListKeepsInv(cfg, s, t);
    case Allocate(t, granted) => AllocateKeepsInv(cfg, s, t, granted);
    case Grant(t, p, completed) => GrantKeepsInv(cfg, s, t, p, completed);
    case Own(t, p, b) => OwnKeepsInv(cfg, s, t, p, b);
  }

  lemma {:induction false} RunKeepsInv(cfg: M.Config, s: State, schedule: seq<Action>)
    requires Inv(s)
    ensures Inv(Run(cfg, s, schedule))
    decreases |schedule|
  {
    hide Inv, Enabled, Step;
    if |schedule| > 0 {
      if Enabled(cfg, s, schedule[0]) {
        StepKeepsInv(cfg, s, schedule[0]);
        RunKeepsInv(cfg, Step(cfg, s, schedule[0]), schedule[1..]);
      } else {
        RunKeepsInv(cfg, s, schedule[1..]);
      }
    }
  }

  /** A block with a producer is not on the free list, and no thread takes or adds it. */
  lemma HeldIsOffList(s: State, p: nat, b: nat)
    requires Inv(s) && p < |s.producers| && b in Blocks(s.producers[p])
    ensures !F.OnList(s.list, b)
    ensures forall t :: 0 <= t < |s.list.pcs| ==>
      F.RoleOf(s.list.pcs[t], b) == F.Bystander || F.RoleOf(s.list.pcs[t], b) == F.Holder
  {
    BlocksAreExclusive(s, p, b);
    F.OutIsOffList(s.list, b);
  }
}
