/** The CAS-based, reference-counted free list of the concurrent queue, as interleaved atomic steps. */
module FreeList {
  import opened Common

  // The 32-bit word freeListRefs: a 31-bit count below the should-be-on-free-list bit.
  const WORD: int := 0x1_0000_0000
  const SHOULD_BE_ON_FREELIST: Word := 0x8000_0000

  type Word = x: nat | x < WORD

  // fetch_add modulo 2^32; adding -k is adding its two's complement.
  function FetchAdd(refs: Word, delta: int): Word
    requires -WORD < delta < WORD
  {
    var sum := refs + delta;
    if sum < 0 then sum + WORD else if WORD <= sum then sum - WORD else sum
  }

  // refs & REFS_MASK
  function CountOf(refs: Word): Word {
    if SHOULD_BE_ON_FREELIST <= refs then refs - SHOULD_BE_ON_FREELIST else refs
  }

  // What remains to be done when add_knowing_refcount_is_zero returns: leave, or go round the loop
  // of try_get with the head that its failed compare-and-swap loaded.
  datatype Resume = Leave | Retry(head: Option<nat>)

  // Where a thread stands: the constructor names the next atomic access it will perform.
  datatype Pc =
    | Idle
    | AddFlag(node: nat)
    | LinkLoadHead(node: nat, resume: Resume)
    | LinkStoreNext(node: nat, expected: Option<nat>, resume: Resume)
    | LinkStoreRefs(node: nat, expected: Option<nat>, resume: Resume)
    | LinkCasHead(node: nat, expected: Option<nat>, resume: Resume)
    | LinkDefer(node: nat, expected: Option<nat>, resume: Resume)
    | GetLoadHead
    | GetLoadRefs(node: nat)
    | GetCasRefs(node: nat, refs: Word)
    | GetLoadNext(node: nat)
    | GetCasHead(node: nat, next: Option<nat>)
    | GetTake(node: nat)
    | GetDrop(node: nat, reloaded: Option<nat>)

  // Nodes are 0..|refs|-1. `out` holds the nodes in the hands of callers: taken and not yet added.
  datatype State = State(head: Option<nat>, refs: seq<Word>, next: seq<Option<nat>>, out: set<nat>, pcs: seq<Pc>) {
    predicate WellFormed() { |refs| == |next| }
  }

  datatype Action = StartAdd(thread: nat, node: nat) | StartGet(thread: nat) | Advance(thread: nat)

  // The loop head of try_get: a null head ends the call with nothing.
  function Loop(head: Option<nat>): Pc {
    match head
    case None => Idle
    case Some(n) => GetLoadRefs(n)
  }

  function Resumed(resume: Resume): Pc {
    match resume
    case Leave => Idle
    case Retry(head) => Loop(head)
  }

  // One atomic step of one thread.
  function Perform(s: State, pc: Pc): (State, Pc)
    requires s.WellFormed()
    requires !pc.Idle? && !pc.GetLoadHead? ==> pc.node < |s.refs|
  {
    match pc
    case Idle => (s, pc)
    case AddFlag(n) =>
      (s.(refs := s.refs[n := FetchAdd(s.refs[n], SHOULD_BE_ON_FREELIST)]),
       if s.refs[n] == 0 then LinkLoadHead(n, Leave) else Idle)
    case LinkLoadHead(n, k) => (s, LinkStoreNext(n, s.head, k))
    case LinkStoreNext(n, h, k) => (s.(next := s.next[n := h]), LinkStoreRefs(n, h, k))
    case LinkStoreRefs(n, h, k) => (s.(refs := s.refs[n := 1]), LinkCasHead(n, h, k))
    case LinkCasHead(n, h, k) =>
      if s.head == h then (s.(head := Some(n)), Resumed(k)) else (s, LinkDefer(n, s.head, k))
    case LinkDefer(n, h, k) =>
      (s.(refs := s.refs[n := FetchAdd(s.refs[n], SHOULD_BE_ON_FREELIST - 1)]),
       if s.refs[n] == 1 then LinkStoreNext(n, h, k) else Resumed(k))
    case GetLoadHead => (s, Loop(s.head))
    case GetLoadRefs(n) => (s, GetCasRefs(n, s.refs[n]))
    case GetCasRefs(n, r) =>
      if CountOf(r) == 0 || s.refs[n] != r then (s, GetLoadHead)
      else (s.(refs := s.refs[n := FetchAdd(r, 1)]), GetLoadNext(n))
    case GetLoadNext(n) => (s, GetCasHead(n, s.next[n]))
    case GetCasHead(n, nx) =>
      if s.head == Some(n) then (s.(head := nx), GetTake(n)) else (s, GetDrop(n, s.head))
    case GetTake(n) =>
      (s.(refs := s.refs[n := FetchAdd(s.refs[n], -2)], out := s.out + {n}), Idle)
    case GetDrop(n, h) =>
      (s.(refs := s.refs[n := FetchAdd(s.refs[n], -1)]),
       if s.refs[n] == SHOULD_BE_ON_FREELIST + 1 then LinkLoadHead(n, Retry(h)) else Loop(h))
  }

  predicate Enabled(s: State, a: Action) {
    match a
    case StartAdd(t, n) => t < |s.pcs| && s.pcs[t].Idle? && n in s.out
    case StartGet(t) => t < |s.pcs| && s.pcs[t].Idle?
    case Advance(t) => t < |s.pcs| && PcInRange(s, s.pcs[t])
  }

  // A thread never holds a pointer to anything but a node.
  predicate PcInRange(s: State, pc: Pc) {
    !pc.Idle? && !pc.GetLoadHead? ==> pc.node < |s.refs|
  }

  function Step(s: State, a: Action): State
    requires s.WellFormed() && Enabled(s, a)
  {
    match a
    case StartAdd(t, n) => s.(out := s.out - {n}, pcs := s.pcs[t := AddFlag(n)])
    case StartGet(t) => s.(pcs := s.pcs[t := GetLoadHead])
    case Advance(t) =>
      var (s', pc') := Perform(s, s.pcs[t]);
      s'.(pcs := s.pcs[t := pc'])
  }

  // A run: the threads take their atomic steps in the order of the schedule; an action that is not
  // enabled when its turn comes does nothing.
  function Run(s: State, schedule: seq<Action>): State
    requires s.WellFormed()
    decreases |schedule|
  {
    if |schedule| == 0 then s
    else
      var a := schedule[0];
      Run(if Enabled(s, a) then Step(s, a) else s, schedule[1..])
  }

  // An empty list; every node is in the hands of its creator and every thread is idle.
  ghost predicate Initial(s: State) {
    && s.WellFormed() && s.head == None
    && (forall n :: n in s.out <==> 0 <= n < |s.refs|)
    && (forall n :: 0 <= n < |s.refs| ==> s.refs[n] == 0)
    && (forall t :: 0 <= t < |s.pcs| ==> s.pcs[t].Idle?)
  }

  // ---- The invariant ----

  // The part a thread plays for one node.
  datatype Role = Bystander | Adder | Linker | Publisher | Holder | Taker

  function RoleOf(pc: Pc, n: nat): Role {
    if pc.Idle? || pc.GetLoadHead? || pc.GetLoadRefs? || pc.GetCasRefs? || pc.node != n then Bystander
    else if pc.AddFlag? then Adder
    else if pc.LinkLoadHead? || pc.LinkStoreNext? || pc.LinkStoreRefs? then Linker
    else if pc.LinkCasHead? || pc.LinkDefer? then Publisher
    else if pc.GetTake? then Taker
    else Holder
  }

  ghost function Plays(r: Role, n: nat): Pc -> int {
    pc => if RoleOf(pc, n) == r then 1 else 0
  }

  // How many threads play each part for one node.
  datatype Tally = Tally(adders: int, linkers: int, publishers: int, holders: int, takers: int)

  ghost function TallyOf(pcs: seq<Pc>, n: nat): Tally {
    Tally(Sum(Plays(Adder, n), pcs), Sum(Plays(Linker, n), pcs), Sum(Plays(Publisher, n), pcs),
          Sum(Plays(Holder, n), pcs), Sum(Plays(Taker, n), pcs))
  }

  function One(b: bool): int { if b then 1 else 0 }

  // How many parties own a node: its caller, the list, or a thread that is adding or taking it.
  function Owners(c: Tally, out: bool, listed: bool): int {
    One(out) + One(listed) + c.adders + c.linkers + c.publishers + c.takers
  }

  // A node nobody owns is parked: its add was left to the last thread that holds a reference to it.
  predicate NodeOk(refs: Word, c: Tally, out: bool, listed: bool) {
    var owners := Owners(c, out, listed);
    && owners <= 1
    && (owners == 0 ==> 1 <= c.holders)
    && (0 < c.linkers ==> c.holders == 0)
    && refs == c.holders + c.publishers + 2 * c.takers + One(listed)
               + (if 0 < c.linkers || owners == 0 then SHOULD_BE_ON_FREELIST else 0)
  }

  ghost predicate NodesOk(s: State, list: seq<nat>) {
    forall n :: 0 <= n < |s.refs| ==> NodeOk(s.refs[n], TallyOf(s.pcs, n), n in s.out, n in list)
  }

  predicate HeadInRange(s: State, h: Option<nat>) { h.Some? ==> h.value < |s.refs| }

  predicate ResumeInRange(s: State, k: Resume) { k.Retry? ==> HeadInRange(s, k.head) }

  // What a thread knows: the next pointer it wrote, or read while holding a reference, still stands.
  ghost predicate PcOk(s: State, pc: Pc)
    requires s.WellFormed()
  {
    && PcInRange(s, pc)
    && (pc.LinkLoadHead? ==> ResumeInRange(s, pc.resume))
    && (pc.LinkStoreNext? || pc.LinkDefer? ==> ResumeInRange(s, pc.resume) && HeadInRange(s, pc.expected))
    && (pc.LinkStoreRefs? || pc.LinkCasHead? ==>
          ResumeInRange(s, pc.resume) && HeadInRange(s, pc.expected) && s.next[pc.node] == pc.expected)
    && (pc.GetCasHead? ==> s.next[pc.node] == pc.next)
    && (pc.GetDrop? ==> HeadInRange(s, pc.reloaded))
  }

  // `list` is exactly what following freeListNext from `head` visits.
  ghost predicate Linked(head: Option<nat>, next: seq<Option<nat>>, list: seq<nat>)
    decreases |list|
  {
    if |list| == 0 then head == None
    else list[0] < |next| && head == Some(list[0]) && Linked(next[list[0]], next, list[1..])
  }

  ghost predicate ListOk(s: State, list: seq<nat>) {
    && Linked(s.head, s.next, list)
    && (forall i, j :: 0 <= i < j < |list| ==> list[i] != list[j])
  }

  ghost predicate InvWith(s: State, list: seq<nat>) {
    && s.WellFormed()
    && |s.pcs| + 1 < SHOULD_BE_ON_FREELIST
    && ListOk(s, list)
    && (forall n :: n in s.out ==> n < |s.refs|)
    && NodesOk(s, list)
    && (forall t :: 0 <= t < |s.pcs| ==> PcOk(s, s.pcs[t]))
  }

  ghost predicate Inv(s: State) { exists list :: InvWith(s, list) }

  // ---- Counting ----

  /** Every thread plays at most one part for a node. */
  lemma {:induction false} TallyBound(pcs: seq<Pc>, n: nat)
    ensures var c := TallyOf(pcs, n);
      && 0 <= c.adders && 0 <= c.linkers && 0 <= c.publishers && 0 <= c.holders && 0 <= c.takers
      && c.adders + c.linkers + c.publishers + c.holders + c.takers <= |pcs|
  {
    if |pcs| > 0 {
      TallyBound(pcs[..|pcs| - 1], n);
    }
  }

  // A tally once a thread has gone from one role to another.
  function Moved(c: Tally, from: Role, to: Role): Tally {
    Tally(c.adders - One(from == Adder) + One(to == Adder),
          c.linkers - One(from == Linker) + One(to == Linker),
          c.publishers - One(from == Publisher) + One(to == Publisher),
          c.holders - One(from == Holder) + One(to == Holder),
          c.takers - One(from == Taker) + One(to == Taker))
  }

  lemma {:induction false} TallyMoves(pcs: seq<Pc>, t: nat, pc': Pc, n: nat)
    requires t < |pcs|
    ensures TallyOf(pcs[t := pc'], n) == Moved(TallyOf(pcs, n), RoleOf(pcs[t], n), RoleOf(pc', n))
  {
    SumUpdate(Plays(Adder, n), pcs, t, pc');
    SumUpdate(Plays(Linker, n), pcs, t, pc');
    SumUpdate(Plays(Publisher, n), pcs, t, pc');
    SumUpdate(Plays(Holder, n), pcs, t, pc');
    SumUpdate(Plays(Taker, n), pcs, t, pc');
  }

  lemma {:induction false} TallyCounts(pcs: seq<Pc>, t: nat, n: nat)
    requires t < |pcs|
    ensures var c := TallyOf(pcs, n);
      var r := RoleOf(pcs[t], n);
      && (r == Adder ==> 1 <= c.adders) && (r == Linker ==> 1 <= c.linkers)
      && (r == Publisher ==> 1 <= c.publishers) && (r == Holder ==> 1 <= c.holders)
      && (r == Taker ==> 1 <= c.takers)
  {
    var r := RoleOf(pcs[t], n);
    SumBoundsMember(Plays(r, n), pcs, t);
  }

  // ---- The list ----

  lemma {:induction false} LinkedInRange(head: Option<nat>, next: seq<Option<nat>>, list: seq<nat>)
    requires Linked(head, next, list)
    ensures forall i :: 0 <= i < |list| ==> list[i] < |next|
    decreases |list|
  {
    if |list| > 0 {
      LinkedInRange(next[list[0]], next, list[1..]);
      assert forall i :: 1 <= i < |list| ==> list[i] == list[1..][i - 1];
    }
  }

  lemma {:induction false} LinkedFrame(head: Option<nat>, next: seq<Option<nat>>, list: seq<nat>, n: nat, h: Option<nat>)
    requires Linked(head, next, list) && n < |next| && n !in list
    ensures Linked(head, next[n := h], list)
    decreases |list|
  {
    if |list| > 0 {
      assert list == [list[0]] + list[1..];
      LinkedFrame(next[list[0]], next, list[1..], n, h);
    }
  }

  // ---- Preservation ----

  // The list after a step: publishing puts a node in front, a successful get removes the front node.
  ghost function ListAfter(s: State, list: seq<nat>, pc: Pc): seq<nat> {
    match pc
    case LinkCasHead(n, h, _) => if s.head == h then [n] + list else list
    case GetCasHead(n, _) => if s.head == Some(n) && |list| > 0 then list[1..] else list
    case _ => list
  }

  // The word of a node under each kind of step, as arithmetic on its tally.

  ghost predicate Bounded(c: Tally) {
    && 0 <= c.adders && 0 <= c.linkers && 0 <= c.publishers && 0 <= c.holders && 0 <= c.takers
    && c.adders + c.linkers + c.publishers + c.holders + c.takers + 1 < SHOULD_BE_ON_FREELIST
  }

  lemma FlagWord(refs: Word, c: Tally, out: bool, listed: bool)
    requires NodeOk(refs, c, out, listed) && Bounded(c) && 1 <= c.adders
    ensures var to := if refs == 0 then Linker else Bystander;
            NodeOk(FetchAdd(refs, SHOULD_BE_ON_FREELIST), Moved(c, Adder, to), out, listed)
  {}

  lemma PublishWord(refs: Word, c: Tally, out: bool, listed: bool)
    requires NodeOk(refs, c, out, listed) && Bounded(c) && 1 <= c.linkers
    ensures NodeOk(1, Moved(c, Linker, Publisher), out, listed)
  {}

  lemma ListWord(refs: Word, c: Tally, out: bool, listed: bool)
    requires NodeOk(refs, c, out, listed) && Bounded(c) && 1 <= c.publishers
    ensures !listed && NodeOk(refs, Moved(c, Publisher, Bystander), out, true)
  {}

  lemma DeferWord(refs: Word, c: Tally, out: bool, listed: bool)
    requires NodeOk(refs, c, out, listed) && Bounded(c) && 1 <= c.publishers
    ensures var to := if refs == 1 then Linker else Bystander;
            NodeOk(FetchAdd(refs, SHOULD_BE_ON_FREELIST - 1), Moved(c, Publisher, to), out, listed)
  {}

  lemma HoldWord(refs: Word, c: Tally, out: bool, listed: bool)
    requires NodeOk(refs, c, out, listed) && Bounded(c) && CountOf(refs) != 0
    ensures NodeOk(FetchAdd(refs, 1), Moved(c, Bystander, Holder), out, listed)
  {}

  lemma UnlistWord(refs: Word, c: Tally, out: bool)
    requires NodeOk(refs, c, out, true) && Bounded(c) && 1 <= c.holders
    ensures NodeOk(refs, Moved(c, Holder, Taker), out, false)
  {}

  lemma TakeWord(refs: Word, c: Tally, out: bool, listed: bool)
    requires NodeOk(refs, c, out, listed) && Bounded(c) && 1 <= c.takers
    ensures !out && NodeOk(FetchAdd(refs, -2), Moved(c, Taker, Bystander), true, listed)
  {}

  lemma DropWord(refs: Word, c: Tally, out: bool, listed: bool)
    requires NodeOk(refs, c, out, listed) && Bounded(c) && 1 <= c.holders
    ensures var to := if refs == SHOULD_BE_ON_FREELIST + 1 then Linker else Bystander;
            NodeOk(FetchAdd(refs, -1), Moved(c, Holder, to), out, listed)
  {}

  // A thread at `pc` plays its part in the tally of the node it works on.
  ghost predicate Takes(pc: Pc, c: Tally)
    requires !pc.Idle? && !pc.GetLoadHead?
  {
    match RoleOf(pc, pc.node)
    case Adder => 1 <= c.adders
    case Linker => 1 <= c.linkers
    case Publisher => 1 <= c.publishers
    case Holder => 1 <= c.holders
    case Taker => 1 <= c.takers
    case Bystander => true
  }

  ghost predicate WordKept(s: State, list: seq<nat>, pc: Pc, c: Tally)
    requires s.WellFormed() && PcInRange(s, pc) && !pc.Idle? && !pc.GetLoadHead?
  {
    var n := pc.node;
    var (s', pc') := Perform(s, pc);
    NodeOk(s'.refs[n], Moved(c, RoleOf(pc, n), RoleOf(pc', n)), n in s'.out, n in ListAfter(s, list, pc))
  }

  ghost predicate WordKnown(s: State, list: seq<nat>, pc: Pc, c: Tally)
  {
    && s.WellFormed() && PcInRange(s, pc) && !pc.Idle? && !pc.GetLoadHead?
    && NodeOk(s.refs[pc.node], c, pc.node in s.out, pc.node in list) && Bounded(c) && Takes(pc, c)
  }

  lemma FlaggingKeepsWord(s: State, list: seq<nat>, pc: Pc, c: Tally)
    requires WordKnown(s, list, pc, c) && pc.AddFlag?
    ensures WordKept(s, list, pc, c)
  {
    FlagWord(s.refs[pc.node], c, pc.node in s.out, pc.node in list);
  }

  lemma LinkingKeepsWord(s: State, list: seq<nat>, pc: Pc, c: Tally)
    requires WordKnown(s, list, pc, c) && (pc.LinkLoadHead? || pc.LinkStoreNext?)
    ensures WordKept(s, list, pc, c)
  {}

  lemma ReadyingKeepsWord(s: State, list: seq<nat>, pc: Pc, c: Tally)
    requires WordKnown(s, list, pc, c) && pc.LinkStoreRefs?
    ensures WordKept(s, list, pc, c)
  {
    PublishWord(s.refs[pc.node], c, pc.node in s.out, pc.node in list);
  }

  lemma DeferringKeepsWord(s: State, list: seq<nat>, pc: Pc, c: Tally)
    requires WordKnown(s, list, pc, c) && pc.LinkDefer?
    ensures WordKept(s, list, pc, c)
  {
    DeferWord(s.refs[pc.node], c, pc.node in s.out, pc.node in list);
  }

  lemma PublishingKeepsWord(s: State, list: seq<nat>, pc: Pc, c: Tally)
    requires WordKnown(s, list, pc, c) && pc.LinkCasHead?
    ensures WordKept(s, list, pc, c)
  {
    var n := pc.node;
    if s.head == pc.expected {
      ListWord(s.refs[n], c, n in s.out, n in list);
      assert n in [n] + list;
    }
  }

  lemma HoldingKeepsWord(s: State, list: seq<nat>, pc: Pc, c: Tally)
    requires WordKnown(s, list, pc, c)
    requires pc.GetLoadRefs? || pc.GetCasRefs? || pc.GetLoadNext?
    ensures WordKept(s, list, pc, c)
  {
    var n := pc.node;
    if pc.GetCasRefs? && CountOf(pc.refs) != 0 && s.refs[n] == pc.refs {
      HoldWord(s.refs[n], c, n in s.out, n in list);
    }
  }

  lemma UnlistingKeepsWord(s: State, list: seq<nat>, pc: Pc, c: Tally)
    requires WordKnown(s, list, pc, c) && pc.GetCasHead?
    requires Linked(s.head, s.next, list)
    requires forall i, j :: 0 <= i < j < |list| ==> list[i] != list[j]
    ensures WordKept(s, list, pc, c)
  {
    var n := pc.node;
    if s.head == Some(n) {
      assert list[0] == n && n !in list[1..];
      UnlistWord(s.refs[n], c, n in s.out);
    }
  }

  lemma TakingKeepsWord(s: State, list: seq<nat>, pc: Pc, c: Tally)
    requires WordKnown(s, list, pc, c) && pc.GetTake?
    ensures WordKept(s, list, pc, c)
  {
    TakeWord(s.refs[pc.node], c, pc.node in s.out, pc.node in list);
  }

  lemma DroppingKeepsWord(s: State, list: seq<nat>, pc: Pc, c: Tally)
    requires WordKnown(s, list, pc, c) && pc.GetDrop?
    ensures WordKept(s, list, pc, c)
  {
    DropWord(s.refs[pc.node], c, pc.node in s.out, pc.node in list);
  }

  /** The word of the node a thread works on stays the sum of what is known about it. */
  lemma PerformKeepsWord(s: State, list: seq<nat>, t: nat)
    requires InvWith(s, list) && t < |s.pcs| && !s.pcs[t].Idle? && !s.pcs[t].GetLoadHead?
    ensures PcInRange(s, s.pcs[t]) && WordKept(s, list, s.pcs[t], TallyOf(s.pcs, s.pcs[t].node))
  {
    var pc := s.pcs[t];
    var n := pc.node;
    var c := TallyOf(s.pcs, n);
    TallyBound(s.pcs, n);
    TallyCounts(s.pcs, t, n);
    assert PcOk(s, pc);
    assert NodeOk(s.refs[n], c, n in s.out, n in list);
    assert WordKnown(s, list, pc, c);
    if pc.AddFlag? {
      FlaggingKeepsWord(s, list, pc, c);
    } else if pc.LinkLoadHead? || pc.LinkStoreNext? {
      LinkingKeepsWord(s, list, pc, c);
    } else if pc.LinkStoreRefs? {
      ReadyingKeepsWord(s, list, pc, c);
    } else if pc.LinkDefer? {
      DeferringKeepsWord(s, list, pc, c);
    } else if pc.LinkCasHead? {
      PublishingKeepsWord(s, list, pc, c);
    } else if pc.GetCasHead? {
      UnlistingKeepsWord(s, list, pc, c);
    } else if pc.GetTake? {
      TakingKeepsWord(s, list, pc, c);
    } else if pc.GetDrop? {
      DroppingKeepsWord(s, list, pc, c);
    } else {
      HoldingKeepsWord(s, list, pc, c);
    }
  }

  // Steps touch only the node they name.
  lemma PerformFrame(s: State, pc: Pc, n: nat)
    requires s.WellFormed() && PcInRange(s, pc) && n < |s.refs|
    requires pc.Idle? || pc.GetLoadHead? || pc.node != n
    ensures var (s', pc') := Perform(s, pc);
      && |s'.refs| == |s.refs| && s'.refs[n] == s.refs[n] && (n in s'.out <==> n in s.out)
      && RoleOf(pc, n) == RoleOf(pc', n) == Bystander
  {}

  lemma ListFrame(s: State, list: seq<nat>, pc: Pc, n: nat)
    requires ListOk(s, list) && (pc.Idle? || pc.GetLoadHead? || pc.node != n)
    ensures n in ListAfter(s, list, pc) <==> n in list
  {
    if pc.GetCasHead? && s.head == Some(pc.node) && |list| > 0 {
      assert list == [list[0]] + list[1..];
    }
  }

  lemma AdvanceKeepsNodes(s: State, list: seq<nat>, t: nat)
    requires InvWith(s, list) && t < |s.pcs|
    ensures Enabled(s, Advance(t))
    ensures NodesOk(Step(s, Advance(t)), ListAfter(s, list, s.pcs[t]))
  {
    var pc := s.pcs[t];
    assert PcOk(s, pc);
    var s' := Step(s, Advance(t));
    var list' := ListAfter(s, list, pc);
    forall n | 0 <= n < |s'.refs|
      ensures NodeOk(s'.refs[n], TallyOf(s'.pcs, n), n in s'.out, n in list')
    {
      TallyMoves(s.pcs, t, s'.pcs[t], n);
      if !pc.Idle? && !pc.GetLoadHead? && pc.node == n {
        PerformKeepsWord(s, list, t);
      } else {
        PerformFrame(s, pc, n);
        ListFrame(s, list, pc, n);
        assert NodeOk(s.refs[n], TallyOf(s.pcs, n), n in s.out, n in list);
      }
    }
  }

  // A thread that is adding a node keeps it off the list.
  lemma AddedNodeIsUnlisted(s: State, list: seq<nat>, t: nat)
    requires InvWith(s, list) && t < |s.pcs| && (s.pcs[t].LinkStoreNext? || s.pcs[t].LinkCasHead?)
    ensures s.pcs[t].node !in list
  {
    var n := s.pcs[t].node;
    assert PcOk(s, s.pcs[t]);
    TallyBound(s.pcs, n);
    TallyCounts(s.pcs, t, n);
    assert NodeOk(s.refs[n], TallyOf(s.pcs, n), n in s.out, n in list);
  }

  lemma AdvanceKeepsList(s: State, list: seq<nat>, t: nat)
    requires InvWith(s, list) && t < |s.pcs|
    ensures PcInRange(s, s.pcs[t])
    ensures ListOk(Perform(s, s.pcs[t]).0, ListAfter(s, list, s.pcs[t]))
  {
    var pc := s.pcs[t];
    assert PcOk(s, pc);
    if pc.LinkStoreNext? {
      AddedNodeIsUnlisted(s, list, t);
      LinkedFrame(s.head, s.next, list, pc.node, pc.expected);
    } else if pc.LinkCasHead? {
      AddedNodeIsUnlisted(s, list, t);
      assert ([pc.node] + list)[1..] == list;
    } else if pc.GetCasHead? {
      assert s.head == Some(pc.node) ==> |list| > 0 && list[0] == pc.node;
    } else {
      assert Perform(s, pc).0.head == s.head && Perform(s, pc).0.next == s.next;
    }
  }

  // What thread t itself knows after its step.
  lemma LinkStepKeepsOwnPc(s: State, list: seq<nat>, pc: Pc)
    requires s.WellFormed() && ListOk(s, list) && PcOk(s, pc)
    requires pc.LinkLoadHead? || pc.LinkStoreNext? || pc.LinkStoreRefs?
    ensures var (s', pc') := Perform(s, pc); PcOk(s', pc')
  {
    LinkedInRange(s.head, s.next, list);
  }

  lemma PublishStepKeepsOwnPc(s: State, list: seq<nat>, pc: Pc)
    requires s.WellFormed() && ListOk(s, list) && PcOk(s, pc)
    requires pc.AddFlag? || pc.LinkCasHead? || pc.LinkDefer?
    ensures var (s', pc') := Perform(s, pc); PcOk(s', pc')
  {
    LinkedInRange(s.head, s.next, list);
  }

  lemma GetStepKeepsOwnPc(s: State, list: seq<nat>, pc: Pc)
    requires s.WellFormed() && ListOk(s, list) && PcOk(s, pc)
    requires !pc.LinkLoadHead? && !pc.LinkStoreNext? && !pc.LinkStoreRefs?
    requires !pc.AddFlag? && !pc.LinkCasHead? && !pc.LinkDefer?
    ensures var (s', pc') := Perform(s, pc); PcOk(s', pc')
  {
    LinkedInRange(s.head, s.next, list);
  }

  lemma AdvanceKeepsOwnPc(s: State, list: seq<nat>, t: nat)
    requires InvWith(s, list) && t < |s.pcs|
    ensures PcInRange(s, s.pcs[t])
    ensures var (s', pc') := Perform(s, s.pcs[t]); PcOk(s', pc')
  {
    var pc := s.pcs[t];
    assert PcOk(s, pc);
    if pc.LinkLoadHead? || pc.LinkStoreNext? || pc.LinkStoreRefs? {
      LinkStepKeepsOwnPc(s, list, pc);
    } else if pc.AddFlag? || pc.LinkCasHead? || pc.LinkDefer? {
      PublishStepKeepsOwnPc(s, list, pc);
    } else {
      GetStepKeepsOwnPc(s, list, pc);
    }
  }

  lemma AdvanceKeepsPcs(s: State, list: seq<nat>, t: nat)
    requires InvWith(s, list) && t < |s.pcs|
    ensures Enabled(s, Advance(t))
    ensures var s' := Step(s, Advance(t));
      forall u :: 0 <= u < |s'.pcs| ==> PcOk(s', s'.pcs[u])
  {
    AdvanceKeepsOwnPc(s, list, t);
    var s' := Step(s, Advance(t));
    AdvanceKeepsOwnPc(s, list, t);
    forall u | 0 <= u < |s'.pcs| && u != t ensures PcOk(s', s.pcs[u]) {
      assert PcOk(s, s.pcs[t]) && PcOk(s, s.pcs[u]);
      if s.pcs[t].LinkStoreNext? {
        NobodyElseReadsNext(s, list, t, u);
      }
    }
  }

  /** While a thread may still write a node's next pointer, no other thread relies on it. */
  lemma NobodyElseReadsNext(s: State, list: seq<nat>, t: nat, u: nat)
    requires InvWith(s, list) && t < |s.pcs| && u < |s.pcs| && u != t && s.pcs[t].LinkStoreNext?
    ensures s.pcs[u].LinkStoreRefs? || s.pcs[u].LinkCasHead? || s.pcs[u].GetCasHead? ==>
              s.pcs[u].node != s.pcs[t].node
  {
    var n := s.pcs[t].node;
    TallyBound(s.pcs, n);
    TallyCounts(s.pcs, t, n);
    TallyCounts(s.pcs, u, n);
    SumBoundsPair(Plays(Linker, n), s.pcs, if t < u then t else u, if t < u then u else t);
    assert NodeOk(s.refs[n], TallyOf(s.pcs, n), n in s.out, n in list);
  }

  lemma StepKeepsInv(s: State, list: seq<nat>, a: Action) returns (list': seq<nat>)
    requires InvWith(s, list) && Enabled(s, a)
    ensures InvWith(Step(s, a), list')
  {
    if a.Advance? {
      list' := ListAfter(s, list, s.pcs[a.thread]);
      AdvanceKeepsNodes(s, list, a.thread);
      AdvanceKeepsList(s, list, a.thread);
      AdvanceKeepsPcs(s, list, a.thread);
    } else {
      list' := list;
      StartKeepsInv(s, list, a);
    }
  }

  lemma StartKeepsNodes(s: State, list: seq<nat>, a: Action)
    requires InvWith(s, list) && Enabled(s, a) && !a.Advance?
    ensures NodesOk(Step(s, a), list)
  {
    var s' := Step(s, a);
    forall n | 0 <= n < |s.refs|
      ensures NodeOk(s'.refs[n], TallyOf(s'.pcs, n), n in s'.out, n in list)
    {
      TallyMoves(s.pcs, a.thread, s'.pcs[a.thread], n);
      TallyBound(s.pcs, n);
      assert NodeOk(s.refs[n], TallyOf(s.pcs, n), n in s.out, n in list);
    }
  }

  lemma StartKeepsInv(s: State, list: seq<nat>, a: Action)
    requires InvWith(s, list) && Enabled(s, a) && !a.Advance?
    ensures InvWith(Step(s, a), list)
  {
    StartKeepsNodes(s, list, a);
    var s' := Step(s, a);
    forall u | 0 <= u < |s'.pcs| ensures PcOk(s', s'.pcs[u]) {
      assert PcOk(s, s.pcs[u]);
    }
  }

  // ---- What holds in every run ----

  lemma IdleTally(pcs: seq<Pc>, n: nat)
    requires forall t :: 0 <= t < |pcs| ==> pcs[t].Idle?
    ensures TallyOf(pcs, n) == Tally(0, 0, 0, 0, 0)
  {
    SumZero(Plays(Adder, n), pcs);
    SumZero(Plays(Linker, n), pcs);
    SumZero(Plays(Publisher, n), pcs);
    SumZero(Plays(Holder, n), pcs);
    SumZero(Plays(Taker, n), pcs);
  }

  lemma InitialInv(s: State)
    requires Initial(s) && |s.pcs| + 1 < SHOULD_BE_ON_FREELIST
    ensures InvWith(s, [])
  {
    forall n | 0 <= n < |s.refs|
      ensures NodeOk(s.refs[n], TallyOf(s.pcs, n), n in s.out, n in [])
    {
      IdleTally(s.pcs, n);
    }
  }

  lemma {:induction false} RunKeepsInv(s: State, schedule: seq<Action>)
    requires Inv(s)
    ensures Inv(Run(s, schedule))
    decreases |schedule|
  {
    if |schedule| > 0 {
      var a := schedule[0];
      if Enabled(s, a) {
        var list :| InvWith(s, list);
        var list' := StepKeepsInv(s, list, a);
        RunKeepsInv(Step(s, a), schedule[1..]);
      } else {
        RunKeepsInv(s, schedule[1..]);
      }
    }
  }

  /** Any number of threads (below the capacity of the count), any interleaving: the invariant stands. */
  lemma EveryRunKeepsInv(s: State, schedule: seq<Action>)
    requires Initial(s) && |s.pcs| + 1 < SHOULD_BE_ON_FREELIST
    ensures Inv(Run(s, schedule))
  {
    InitialInv(s);
    RunKeepsInv(s, schedule);
  }

  /** Following freeListNext from the head visits one list only. */
  lemma {:induction false} LinkedUnique(head: Option<nat>, next: seq<Option<nat>>, xs: seq<nat>, ys: seq<nat>)
    requires Linked(head, next, xs) && Linked(head, next, ys)
    ensures xs == ys
    decreases |xs|
  {
    if |xs| > 0 {
      LinkedUnique(next[xs[0]], next, xs[1..], ys[1..]);
      assert xs == [xs[0]] + xs[1..] && ys == [ys[0]] + ys[1..];
    }
  }

  // n is reachable from the head.
  ghost predicate OnList(s: State, n: nat) {
    exists list :: Linked(s.head, s.next, list) && n in list
  }

  /** The list is finite, without repetition, and no thread holds a wild pointer. */
  lemma ListIsSound(s: State) returns (list: seq<nat>)
    requires Inv(s)
    ensures Linked(s.head, s.next, list)
    ensures forall i, j :: 0 <= i < j < |list| ==> list[i] != list[j]
    ensures forall n :: OnList(s, n) <==> n in list
    ensures forall t :: 0 <= t < |s.pcs| ==> Enabled(s, Advance(t))
  {
    list :| InvWith(s, list);
    forall n | OnList(s, n) ensures n in list {
      var other :| Linked(s.head, s.next, other) && n in other;
      LinkedUnique(s.head, s.next, list, other);
    }
    forall t | 0 <= t < |s.pcs| ensures Enabled(s, Advance(t)) {
      assert PcOk(s, s.pcs[t]);
    }
  }

  /** A node in the hands of a caller is off the list, and no thread takes or adds it. */
  lemma OutIsOffList(s: State, n: nat)
    requires Inv(s) && n in s.out
    ensures n < |s.refs| && !OnList(s, n)
    ensures forall t :: 0 <= t < |s.pcs| ==> RoleOf(s.pcs[t], n) == Bystander || RoleOf(s.pcs[t], n) == Holder
  {
    var order :| InvWith(s, order);
    var list := ListIsSound(s);
    LinkedUnique(s.head, s.next, list, order);
    TallyBound(s.pcs, n);
    assert NodeOk(s.refs[n], TallyOf(s.pcs, n), n in s.out, n in order);
    forall t | 0 <= t < |s.pcs| ensures RoleOf(s.pcs[t], n) == Bystander || RoleOf(s.pcs[t], n) == Holder {
      TallyCounts(s.pcs, t, n);
    }
  }

  /** The node a getter is about to return is off the list, in nobody else's hands, not being taken or
      added by another thread, and its should-be-on-free-list bit is clear. */
  lemma TakenNodeIsExclusive(s: State, t: nat)
    requires Inv(s) && t < |s.pcs| && s.pcs[t].GetTake?
    ensures var n := s.pcs[t].node;
      && n < |s.refs| && n !in s.out && !OnList(s, n) && s.refs[n] < SHOULD_BE_ON_FREELIST
      && forall u :: 0 <= u < |s.pcs| && u != t ==> RoleOf(s.pcs[u], n) == Bystander || RoleOf(s.pcs[u], n) == Holder
  {
    var list := ListIsSound(s);
    var witness' :| InvWith(s, witness');
    LinkedUnique(s.head, s.next, list, witness');
    var n := s.pcs[t].node;
    TallyBound(s.pcs, n);
    TallyCounts(s.pcs, t, n);
    assert PcOk(s, s.pcs[t]);
    assert NodeOk(s.refs[n], TallyOf(s.pcs, n), n in s.out, n in list);
    forall u | 0 <= u < |s.pcs| && u != t
      ensures RoleOf(s.pcs[u], n) == Bystander || RoleOf(s.pcs[u], n) == Holder
    {
      TallyCounts(s.pcs, u, n);
      SumBoundsPair(Plays(Taker, n), s.pcs, if t < u then t else u, if t < u then u else t);
    }
  }

  /** While a getter holds a reference to a node, no step of any thread changes the node's next pointer. */
  lemma HeldNextIsStable(s: State, a: Action, t: nat)
    requires Inv(s) && Enabled(s, a) && t < |s.pcs|
    requires s.pcs[t].GetLoadNext? || s.pcs[t].GetCasHead? || s.pcs[t].GetDrop?
    ensures Step(s, a).next[s.pcs[t].node] == s.next[s.pcs[t].node]
  {
    var list :| InvWith(s, list);
    var n := s.pcs[t].node;
    assert PcOk(s, s.pcs[t]);
    assert NodeOk(s.refs[n], TallyOf(s.pcs, n), n in s.out, n in list);
    TallyBound(s.pcs, n);
    TallyCounts(s.pcs, t, n);
    if a.Advance? && s.pcs[a.thread].LinkStoreNext? && s.pcs[a.thread].node == n {
      TallyCounts(s.pcs, a.thread, n);
      assert false;
    }
  }

  /** An add is never lost: a node that no caller has, that is not on the list and that no thread is adding
      or taking carries the should-be-on-free-list bit and is held by a thread, the last of which adds it. */
  lemma DeferredAddIsHeld(s: State, n: nat) returns (t: nat)
    requires Inv(s) && n < |s.refs| && n !in s.out && !OnList(s, n)
    requires forall u :: 0 <= u < |s.pcs| ==> RoleOf(s.pcs[u], n) == Bystander || RoleOf(s.pcs[u], n) == Holder
    ensures t < |s.pcs| && RoleOf(s.pcs[t], n) == Holder && SHOULD_BE_ON_FREELIST < s.refs[n]
    ensures s.refs[n] - SHOULD_BE_ON_FREELIST == Sum(Plays(Holder, n), s.pcs)
    ensures s.pcs[t].GetDrop? && (forall u :: 0 <= u < |s.pcs| && u != t ==> RoleOf(s.pcs[u], n) == Bystander) ==>
              Enabled(s, Advance(t)) && Step(s, Advance(t)).pcs[t].LinkLoadHead?
  {
    var list := ListIsSound(s);
    var witness' :| InvWith(s, witness');
    LinkedUnique(s.head, s.next, list, witness');
    SumZero(Plays(Adder, n), s.pcs);
    SumZero(Plays(Linker, n), s.pcs);
    SumZero(Plays(Publisher, n), s.pcs);
    SumZero(Plays(Taker, n), s.pcs);
    assert NodeOk(s.refs[n], TallyOf(s.pcs, n), n in s.out, n in list);
    t := SumPositiveWitness(Plays(Holder, n), s.pcs);
    if forall u :: 0 <= u < |s.pcs| && u != t ==> RoleOf(s.pcs[u], n) == Bystander {
      SumUpdate(Plays(Holder, n), s.pcs, t, Idle);
      SumZero(Plays(Holder, n), s.pcs[t := Idle]);
    }
  }

  /** At quiescence every node is with its caller or reachable from the head, never both, and its word
      holds exactly the list's own reference. */
  lemma QuiescentNodes(s: State, n: nat)
    requires Inv(s) && n < |s.refs|
    requires forall t :: 0 <= t < |s.pcs| ==> s.pcs[t].Idle?
    ensures OnList(s, n) <==> n !in s.out
    ensures s.refs[n] == if n in s.out then 0 else 1
  {
    var list := ListIsSound(s);
    var witness' :| InvWith(s, witness');
    LinkedUnique(s.head, s.next, list, witness');
    IdleTally(s.pcs, n);
    assert NodeOk(s.refs[n], TallyOf(s.pcs, n), n in s.out, n in list);
  }

  // ---- The same steps, in place ----

  /** The shared memory of the free list together with the threads that use it. Each method performs the
      next atomic access of one thread that is inside the source function it is named after. */
  class SharedFreeList {
    var freeListHead: Option<nat>
    const freeListRefs: array<Word>
    const freeListNext: array<Option<nat>>
    var out: set<nat>
    var pcs: seq<Pc>

    ghost function Abs(): State
      reads this, freeListRefs, freeListNext
    {
      State(freeListHead, freeListRefs[..], freeListNext[..], out, pcs)
    }

    constructor (nodes: nat, threads: nat)
      ensures Initial(Abs()) && |Abs().refs| == nodes && |Abs().pcs| == threads
      ensures fresh(freeListRefs) && fresh(freeListNext)
    {
      freeListHead := None;
      freeListRefs := new Word[nodes](_ => 0);
      freeListNext := new Option<nat>[nodes](_ => None);
      var created: set<nat> := {};
      for i := 0 to nodes
        invariant forall n :: n in created <==> 0 <= n < i
      {
        created := created + {i};
      }
      out := created;
      pcs := seq(threads, _ => Idle);
    }

    // Entering add (the caller gives the node up) or try_get.
    method Start(a: Action)
      requires !a.Advance? && Abs().WellFormed() && Enabled(Abs(), a)
      modifies this
      ensures Abs() == Step(old(Abs()), a)
    {
      if a.StartAdd? {
        out := out - {a.node};
        pcs := pcs[a.thread := AddFlag(a.node)];
      } else {
        pcs := pcs[a.thread := GetLoadHead];
      }
    }

    method Add(t: nat)
      requires Abs().WellFormed() && Enabled(Abs(), Advance(t)) && pcs[t].AddFlag?
      modifies this, freeListRefs
      ensures Abs() == Step(old(Abs()), Advance(t))
    {
      var node := pcs[t].node;
      var previous := freeListRefs[node];
      freeListRefs[node] := FetchAdd(previous, SHOULD_BE_ON_FREELIST);
      pcs := pcs[t := if previous == 0 then LinkLoadHead(node, Leave) else Idle];
    }

    method AddKnowingRefcountIsZero(t: nat)
      requires Abs().WellFormed() && Enabled(Abs(), Advance(t))
      requires pcs[t].LinkLoadHead? || pcs[t].LinkStoreNext? || pcs[t].LinkStoreRefs?
        || pcs[t].LinkCasHead? || pcs[t].LinkDefer?
      modifies this, freeListRefs, freeListNext
      ensures Abs() == Step(old(Abs()), Advance(t))
    {
      match pcs[t]
      case LinkLoadHead(node, k) =>
        pcs := pcs[t := LinkStoreNext(node, freeListHead, k)];
      case LinkStoreNext(node, expected, k) =>
        freeListNext[node] := expected;
        pcs := pcs[t := LinkStoreRefs(node, expected, k)];
      case LinkStoreRefs(node, expected, k) =>
        freeListRefs[node] := 1;
        pcs := pcs[t := LinkCasHead(node, expected, k)];
      case LinkCasHead(node, expected, k) =>
        if freeListHead == expected {
          freeListHead := Some(node);
          pcs := pcs[t := Resumed(k)];
        } else {
          pcs := pcs[t := LinkDefer(node, freeListHead, k)];
        }
      case LinkDefer(node, expected, k) =>
        var previous := freeListRefs[node];
        freeListRefs[node] := FetchAdd(previous, SHOULD_BE_ON_FREELIST - 1);
        pcs := pcs[t := if previous == 1 then LinkStoreNext(node, expected, k) else Resumed(k)];
    }

    method TryGet(t: nat)
      requires Abs().WellFormed() && Enabled(Abs(), Advance(t))
      requires pcs[t].GetLoadHead? || pcs[t].GetLoadRefs? || pcs[t].GetCasRefs? || pcs[t].GetLoadNext?
               || pcs[t].GetCasHead? || pcs[t].GetTake? || pcs[t].GetDrop?
      modifies this, freeListRefs
      ensures Abs() == Step(old(Abs()), Advance(t))
    {
      match pcs[t]
      case GetLoadHead =>
        pcs := pcs[t := Loop(freeListHead)];
      case GetLoadRefs(head) =>
        pcs := pcs[t := GetCasRefs(head, freeListRefs[head])];
      case GetCasRefs(head, refs) =>
        if CountOf(refs) == 0 || freeListRefs[head] != refs {
          pcs := pcs[t := GetLoadHead];
        } else {
          freeListRefs[head] := FetchAdd(refs, 1);
          pcs := pcs[t := GetLoadNext(head)];
        }
      case GetLoadNext(head) =>
        pcs := pcs[t := GetCasHead(head, freeListNext[head])];
      case GetCasHead(head, next) =>
        if freeListHead == Some(head) {
          freeListHead := next;
          pcs := pcs[t := GetTake(head)];
        } else {
          pcs := pcs[t := GetDrop(head, freeListHead)];
        }
      case GetTake(head) =>
        freeListRefs[head] := FetchAdd(freeListRefs[head], -2);
        out := out + {head};
        pcs := pcs[t := Idle];
      case GetDrop(prevHead, reloaded) =>
        var previous := freeListRefs[prevHead];
        freeListRefs[prevHead] := FetchAdd(previous, -1);
        pcs := pcs[t := if previous == SHOULD_BE_ON_FREELIST + 1 then LinkLoadHead(prevHead, Retry(reloaded))
                        else Loop(reloaded)];
    }

    // Whether it is a step of this thread's, here and now.
    method CanDo(a: Action) returns (ok: bool)
      requires Abs().WellFormed()
      ensures ok == Enabled(Abs(), a)
    {
      ok := match a
        case StartAdd(t, n) => t < |pcs| && pcs[t].Idle? && n in out
        case StartGet(t) => t < |pcs| && pcs[t].Idle?
        case Advance(t) => t < |pcs| && (!pcs[t].Idle? && !pcs[t].GetLoadHead? ==> pcs[t].node < freeListRefs.Length);
    }

    method Do(a: Action)
      requires Abs().WellFormed() && Enabled(Abs(), a)
      modifies this, freeListRefs, freeListNext
      ensures Abs() == Step(old(Abs()), a)
    {
      if !a.Advance? {
        Start(a);
      } else if pcs[a.thread].AddFlag? {
        Add(a.thread);
      } else if pcs[a.thread].LinkLoadHead? || pcs[a.thread].LinkStoreNext? || pcs[a.thread].LinkStoreRefs?
                || pcs[a.thread].LinkCasHead? || pcs[a.thread].LinkDefer? {
        AddKnowingRefcountIsZero(a.thread);
      } else if !pcs[a.thread].Idle? {
        TryGet(a.thread);
      }
    }

    /** The object driven through any schedule is where the machine's run is. */
    method Follow(schedule: seq<Action>)
      requires Abs().WellFormed()
      modifies this, freeListRefs, freeListNext
      ensures Abs() == Run(old(Abs()), schedule)
      decreases |schedule|
    {
      if |schedule| > 0 {
        var ok := CanDo(schedule[0]);
        if ok {
          Do(schedule[0]);
        }
        Follow(schedule[1..]);
      }
    }
  }

  /** A free list from its constructor through any schedule: the accounting of references holds at the end. */
  method FollowFromStart(nodes: nat, threads: nat, schedule: seq<Action>) returns (list: SharedFreeList)
    requires threads + 1 < SHOULD_BE_ON_FREELIST
    ensures fresh(list) && Inv(list.Abs())
  {
    list := new SharedFreeList(nodes, threads);
    EveryRunKeepsInv(list.Abs(), schedule);
    list.Follow(schedule);
  }
}
