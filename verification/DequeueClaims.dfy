/** How consumers claim index ranges from one producer: an optimistic count that may overshoot the tail, an
    overcommit count that makes up for it, and a head index that only successful consumers advance. */
module DequeueClaims {
  import opened Common
  import opened Words

  // What became of one unit added to dequeueOptimisticCount: not decided yet, entitled to an element, or
  // found to be beyond the tail. The history of these tickets is auxiliary: no step reads it.
  datatype Fate = Open | Won | Lost

  // Where a consumer stands: the constructor names the next atomic access it will perform. A plain
  // dequeue is a bulk dequeue with max = 1 (SingleTestIsBulkTest).
  datatype Pc =
    | Idle
    | LoadTail(max: nat)
    | LoadOvercommit(max: nat, tail: nat)
    | LoadOptimistic(max: nat, tail: nat, overcommit: nat)
    | AddOptimistic(desired: nat, overcommit: nat)
    | Decide(desired: nat, overcommit: nat, mine: nat)
    | AddOvercommit(extra: nat, count: nat)
    | AddHead(count: nat)
    | Claimed(first: nat, count: nat)

  // Indices are unbounded here; the comparisons the code makes are made on their w-bit words.
  datatype State = State(tail: nat, head: nat, optimistic: nat, overcommit: nat, pcs: seq<Pc>, fates: seq<Fate>)

  // Publish is the producer's store to tailIndex; Release is the end of the call that held a claim.
  datatype Action = Publish(count: nat) | Start(thread: nat, max: nat) | Advance(thread: nat) | Release(thread: nat)

  function Min(a: int, b: int): int { if a < b then a else b }

  // How many elements are there.
  function Size(s: State): int { s.tail - s.head }

  // tail - (count - overcommit), as the word the code computes.
  function Available(w: nat, tail: nat, count: nat, overcommit: nat): nat {
    Wrap(w, tail - (count - overcommit))
  }

  // circular_less_than<size_t>(0, available)
  predicate Positive(w: nat, available: nat)
    requires 1 <= w
  {
    CircularLessThan(w, 0, available)
  }

  // The tickets [mine, mine + won) become Won and the rest of [mine, mine + desired) Lost.
  function Settle(fates: seq<Fate>, mine: nat, won: nat, desired: nat): seq<Fate>
    requires won <= desired && mine + desired <= |fates|
  {
    fates[..mine] + seq(won, _ => Won) + seq(desired - won, _ => Lost) + fates[mine + desired..]
  }

  predicate Enabled(s: State, a: Action) {
    match a
    case Publish(_) => true
    case Start(t, max) => t < |s.pcs| && s.pcs[t].Idle? && 1 <= max
    case Advance(t) => t < |s.pcs| && (s.pcs[t].Decide? ==> s.pcs[t].mine + s.pcs[t].desired <= |s.fates|)
    case Release(t) => t < |s.pcs| && s.pcs[t].Claimed?
  }

  // How many elements a consumer at Decide gives itself.
  function Share(w: nat, s: State, pc: Pc): nat
    requires 1 <= w && pc.Decide?
  {
    var available := Available(w, s.tail, pc.mine, pc.overcommit);
    if Positive(w, available) then Min(pc.desired, available) else 0
  }

  function Perform(w: nat, s: State, pc: Pc): (State, Pc)
    requires 1 <= w
    requires pc.Decide? ==> pc.mine + pc.desired <= |s.fates|
  {
    match pc
    case Idle => (s, pc)
    case LoadTail(max) => (s, LoadOvercommit(max, s.tail))
    case LoadOvercommit(max, tail) => (s, LoadOptimistic(max, tail, s.overcommit))
    case LoadOptimistic(max, tail, overcommit) =>
      var available := Available(w, tail, s.optimistic, overcommit);
      (s, if Positive(w, available) then AddOptimistic(Min(available, max), overcommit) else Idle)
    case AddOptimistic(desired, overcommit) =>
      (s.(optimistic := s.optimistic + desired, fates := s.fates + seq(desired, _ => Open)),
       Decide(desired, overcommit, s.optimistic))
    case Decide(desired, overcommit, mine) =>
      var share := Share(w, s, pc);
      (s.(fates := Settle(s.fates, mine, share, desired)),
       if share < desired then AddOvercommit(desired - share, share) else AddHead(share))
    case AddOvercommit(extra, count) =>
      (s.(overcommit := s.overcommit + extra), if count == 0 then Idle else AddHead(count))
    case AddHead(count) => (s.(head := s.head + count), Claimed(s.head, count))
    case Claimed(_, _) => (s, pc)
  }

  function Step(w: nat, s: State, a: Action): State
    requires 1 <= w && Enabled(s, a)
  {
    match a
    case Publish(n) => s.(tail := s.tail + n)
    case Start(t, max) => s.(pcs := s.pcs[t := LoadTail(max)])
    case Advance(t) =>
      var (s', pc') := Perform(w, s, s.pcs[t]);
      s'.(pcs := s.pcs[t := pc'])
    case Release(t) => s.(pcs := s.pcs[t := Idle])
  }

  // Accesses a call still has to make, at most.
  function Left(pc: Pc): nat {
    match pc
    case LoadTail(_) => 8
    case LoadOvercommit(_, _) => 7
    case LoadOptimistic(_, _, _) => 6
    case AddOptimistic(_, _) => 5
    case Decide(_, _, _) => 4
    case AddOvercommit(_, _) => 3
    case AddHead(_) => 2
    case _ => 1
  }

  // How many elements a call may still be given.
  function Asks(pc: Pc): nat {
    match pc
    case Idle => 0
    case LoadTail(max) => max
    case LoadOvercommit(max, _) => max
    case LoadOptimistic(max, _, _) => max
    case AddOptimistic(desired, _) => desired
    case Decide(desired, _, _) => desired
    case AddOvercommit(_, count) => count
    case AddHead(count) => count
    case Claimed(_, count) => count
  }

  /** A call of the protocol takes a bounded number of accesses, whatever others do, and is given no more than it asks for. */
  lemma AccessesAreBounded(w: nat, s: State, t: nat)
    requires 1 <= w && t < |s.pcs| && Enabled(s, Advance(t)) && !s.pcs[t].Idle? && !s.pcs[t].Claimed?
    ensures var pc' := Step(w, s, Advance(t)).pcs[t];
      Left(pc') < Left(s.pcs[t]) && Asks(pc') <= Asks(s.pcs[t])
  {}

  // The one thing finite words demand: when a consumer decides, its effective count is at most half the
  // word range beyond the tail.
  predicate InWindow(w: nat, s: State, a: Action)
    requires 1 <= w
  {
    a.Advance? && a.thread < |s.pcs| && s.pcs[a.thread].Decide? ==>
      s.pcs[a.thread].mine - s.pcs[a.thread].overcommit - s.tail <= Pow2(w - 1)
  }

  // ---- The invariant ----

  function CountFate(f: Fate, fates: seq<Fate>): (n: nat)
    ensures n <= |fates|
  {
    if |fates| == 0 then 0
    else CountFate(f, fates[..|fates| - 1]) + (if fates[|fates| - 1] == f then 1 else 0)
  }

  ghost function Overdue(): Pc -> int { (pc: Pc) => if pc.AddOvercommit? then pc.extra else 0 }

  ghost function Unclaimed(): Pc -> int {
    (pc: Pc) => if pc.AddOvercommit? || pc.AddHead? then pc.count else 0
  }

  ghost function Undecided(): Pc -> int { (pc: Pc) => if pc.Decide? then pc.desired else 0 }

  ghost predicate PcOk(s: State, pc: Pc) {
    match pc
    case LoadOptimistic(max, _, overcommit) => 1 <= max && overcommit <= CountFate(Lost, s.fates)
    case AddOptimistic(desired, overcommit) => 1 <= desired && overcommit <= CountFate(Lost, s.fates)
    case Decide(desired, overcommit, mine) =>
      && 1 <= desired && mine + desired <= |s.fates|
      && (forall i :: mine <= i < mine + desired ==> s.fates[i] == Open)
      && overcommit <= CountFate(Lost, s.fates[..mine])
    case AddOvercommit(extra, _) => 1 <= extra
    case AddHead(count) => 1 <= count
    case Claimed(first, count) => 1 <= count && first + count <= s.head
    case LoadTail(max) => 1 <= max
    case LoadOvercommit(max, _) => 1 <= max
    case _ => true
  }

  // A ticket that won had, counting the lost ones before it, a place below the tail.
  ghost predicate WonBelowTail(s: State) {
    forall k :: 0 <= k < |s.fates| && s.fates[k] == Won ==> k + 1 - CountFate(Lost, s.fates[..k + 1]) <= s.tail
  }

  predicate Apart(first: nat, count: nat, first': nat, count': nat) {
    first + count <= first' || first' + count' <= first
  }

  ghost predicate TicketsApart(pcs: seq<Pc>) {
    forall t, u :: 0 <= t < u < |pcs| && pcs[t].Decide? && pcs[u].Decide? ==>
      Apart(pcs[t].mine, pcs[t].desired, pcs[u].mine, pcs[u].desired)
  }

  ghost predicate ClaimsApart(pcs: seq<Pc>) {
    forall t, u :: 0 <= t < u < |pcs| && pcs[t].Claimed? && pcs[u].Claimed? ==>
      Apart(pcs[t].first, pcs[t].count, pcs[u].first, pcs[u].count)
  }

  // The counters are the history: overcommit and head lag behind it by what is still to be added.
  ghost predicate CountsOk(s: State) {
    && |s.fates| == s.optimistic
    && s.overcommit + Sum(Overdue(), s.pcs) == CountFate(Lost, s.fates)
    && s.head + Sum(Unclaimed(), s.pcs) == CountFate(Won, s.fates)
    && Sum(Undecided(), s.pcs) == CountFate(Open, s.fates)
  }

  ghost predicate Inv(s: State) {
    && CountsOk(s)
    && (forall t :: 0 <= t < |s.pcs| ==> PcOk(s, s.pcs[t]))
    && WonBelowTail(s)
    && TicketsApart(s.pcs)
    && ClaimsApart(s.pcs)
  }

  // ---- Counting tickets ----

  lemma {:induction false} CountFateConcat(f: Fate, xs: seq<Fate>, ys: seq<Fate>)
    ensures CountFate(f, xs + ys) == CountFate(f, xs) + CountFate(f, ys)
  {
    if |ys| == 0 {
      assert xs + ys == xs;
    } else {
      assert (xs + ys)[..|xs + ys| - 1] == xs + ys[..|ys| - 1];
      CountFateConcat(f, xs, ys[..|ys| - 1]);
    }
  }

  lemma {:induction false} CountFateUniform(f: Fate, g: Fate, xs: seq<Fate>)
    requires forall i :: 0 <= i < |xs| ==> xs[i] == g
    ensures CountFate(f, xs) == if f == g then |xs| else 0
  {
    if |xs| > 0 {
      CountFateUniform(f, g, xs[..|xs| - 1]);
    }
  }

  /** Fates are settled once: where Lost tickets stay Lost, their count only grows. */
  lemma {:induction false} LostGrows(xs: seq<Fate>, ys: seq<Fate>)
    requires |xs| == |ys| && forall i :: 0 <= i < |xs| && xs[i] == Lost ==> ys[i] == Lost
    ensures CountFate(Lost, xs) <= CountFate(Lost, ys)
  {
    if |xs| > 0 {
      LostGrows(xs[..|xs| - 1], ys[..|ys| - 1]);
    }
  }

  lemma CountFatePrefix(f: Fate, xs: seq<Fate>, m: nat)
    requires m <= |xs|
    ensures CountFate(f, xs[..m]) <= CountFate(f, xs)
  {
    assert xs == xs[..m] + xs[m..];
    CountFateConcat(f, xs[..m], xs[m..]);
  }

  /** Winners never outnumber the elements: the last winner bounds them all. */
  lemma {:induction false} WonAtMostTail(fates: seq<Fate>, tail: nat)
    requires forall k :: 0 <= k < |fates| && fates[k] == Won ==> k + 1 - CountFate(Lost, fates[..k + 1]) <= tail
    ensures CountFate(Won, fates) <= tail
  {
    if |fates| > 0 {
      var last := |fates| - 1;
      if fates[last] == Won {
        assert fates[..last + 1] == fates;
        WonAndLost(fates);
      } else {
        var prefix := fates[..last];
        forall k | 0 <= k < last && prefix[k] == Won
          ensures k + 1 - CountFate(Lost, prefix[..k + 1]) <= tail
        {
          assert prefix[..k + 1] == fates[..k + 1];
        }
        WonAtMostTail(prefix, tail);
      }
    }
  }

  lemma {:induction false} WonAndLost(fates: seq<Fate>)
    ensures CountFate(Won, fates) + CountFate(Lost, fates) + CountFate(Open, fates) == |fates|
  {
    if |fates| > 0 {
      WonAndLost(fates[..|fates| - 1]);
    }
  }

  // ---- Preservation ----

  // Tickets keep their fate once settled.
  ghost predicate Settles(xs: seq<Fate>, ys: seq<Fate>) {
    |xs| <= |ys| && forall i :: 0 <= i < |xs| && xs[i] == Lost ==> ys[i] == Lost
  }

  lemma LostPrefixGrows(xs: seq<Fate>, ys: seq<Fate>, m: nat)
    requires Settles(xs, ys) && m <= |xs|
    ensures CountFate(Lost, xs[..m]) <= CountFate(Lost, ys[..m])
    ensures CountFate(Lost, xs) <= CountFate(Lost, ys)
  {
    LostGrows(xs[..m], ys[..m]);
    LostGrows(xs, ys[..|xs|]);
    CountFatePrefix(Lost, ys, |xs|);
  }

  // What a consumer knows survives the steps of others.
  lemma OthersKeepPc(s: State, s': State, pc: Pc)
    requires PcOk(s, pc) && Settles(s.fates, s'.fates) && s.head <= s'.head
    requires pc.Decide? ==> forall i :: pc.mine <= i < pc.mine + pc.desired ==> s'.fates[i] == Open
    ensures PcOk(s', pc)
  {
    LostPrefixGrows(s.fates, s'.fates, if pc.Decide? then pc.mine else 0);
  }

  lemma CountFour(f: Fate, a: seq<Fate>, x: seq<Fate>, y: seq<Fate>, b: seq<Fate>)
    ensures CountFate(f, a + x + y + b) == CountFate(f, a) + CountFate(f, x) + CountFate(f, y) + CountFate(f, b)
  {
    CountFateConcat(f, a + x + y, b);
    CountFateConcat(f, a + x, y);
    CountFateConcat(f, a, x);
  }

  lemma SettleCounts(f: Fate, fates: seq<Fate>, mine: nat, won: nat, desired: nat)
    requires won <= desired && mine + desired <= |fates|
    requires forall i :: mine <= i < mine + desired ==> fates[i] == Open
    ensures CountFate(f, Settle(fates, mine, won, desired)) ==
            CountFate(f, fates) + (match f case Won => won case Lost => desired - won case Open => 0 - desired)
  {
    var a, b := fates[..mine], fates[mine + desired..];
    var open := fates[mine..mine + desired];
    var w, l := seq(won, _ => Won), seq(desired - won, _ => Lost);
    assert fates == a + open + [] + b;
    CountFour(f, a, open, [], b);
    CountFour(f, a, w, l, b);
    CountFateUniform(f, Open, open);
    CountFateUniform(f, Won, w);
    CountFateUniform(f, Lost, l);
  }

  lemma SettleAt(fates: seq<Fate>, mine: nat, won: nat, desired: nat, i: nat)
    requires won <= desired && mine + desired <= |fates| && i < |fates|
    ensures |Settle(fates, mine, won, desired)| == |fates|
    ensures Settle(fates, mine, won, desired)[i] ==
            if i < mine || mine + desired <= i then fates[i] else if i < mine + won then Won else Lost
  {}

  /** The share a consumer gives itself is really there: its last ticket, less the losses before it, is
      below the tail even though the overcommit it subtracts is an old reading. */
  lemma ShareIsAvailable(w: nat, s: State, pc: Pc)
    requires 1 <= w && pc.Decide? && PcOk(s, pc)
    requires pc.mine - pc.overcommit - s.tail <= Pow2(w - 1)
    ensures Share(w, s, pc) <= pc.desired
    ensures 0 < Share(w, s, pc) ==> pc.mine + Share(w, s, pc) - CountFate(Lost, s.fates[..pc.mine]) <= s.tail
  {
    var truth := s.tail - (pc.mine - pc.overcommit);
    var available := Available(w, s.tail, pc.mine, pc.overcommit);
    if Positive(w, available) {
      PositiveIsReal(w, truth);
    }
  }

  lemma PositiveIsReal(w: nat, truth: int)
    requires 1 <= w && -Pow2(w - 1) <= truth && Positive(w, Wrap(w, truth))
    ensures Wrap(w, truth) <= truth
  {
    SingleTestIsBulkTest(w, 0, truth);
    DivisionIsUnique(0, Pow2(w), 0, 0);
    CircularLessThanIsSafe(w, 0, truth);
    ModAtMost(truth, Pow2(w));
  }

  lemma ModAtMost(x: int, n: int)
    requires 0 <= x && 0 < n
    ensures x % n <= x
  {}

  /** circular_less_than(a, b), the test of a single dequeue, is circular_less_than(0, b - a), that of a
      bulk dequeue. */
  lemma SingleTestIsBulkTest(w: nat, a: int, b: int)
    requires 1 <= w
    ensures CircularLessThan(w, Wrap(w, a), Wrap(w, b)) <==> Positive(w, Wrap(w, b - a))
  {
    WrapOfDifference(w, a, b);
    ModOfDifference(b - a, 0, Pow2(w));
  }

  lemma SettledTicketBelowTail(fates: seq<Fate>, mine: nat, won: nat, desired: nat, tail: nat, k: nat)
    requires won <= desired && mine + desired <= |fates|
    requires forall i :: mine <= i < mine + desired ==> fates[i] == Open
    requires k < |fates| && Settle(fates, mine, won, desired)[k] == Won
    requires fates[k] == Won ==> k + 1 - CountFate(Lost, fates[..k + 1]) <= tail
    requires 0 < won ==> mine + won - CountFate(Lost, fates[..mine]) <= tail
    ensures k + 1 - CountFate(Lost, Settle(fates, mine, won, desired)[..k + 1]) <= tail
  {
    var fates' := Settle(fates, mine, won, desired);
    SettleAt(fates, mine, won, desired, k);
    if mine <= k < mine + won {
      assert fates'[..k + 1][..mine] == fates[..mine];
      CountFatePrefix(Lost, fates'[..k + 1], mine);
    } else {
      SettleSettles(fates, mine, won, desired);
      LostPrefixGrows(fates, fates', k + 1);
    }
  }

  lemma DecideKeepsWonBelowTail(w: nat, s: State, t: nat)
    requires 1 <= w && Inv(s) && t < |s.pcs| && s.pcs[t].Decide? && InWindow(w, s, Advance(t))
    ensures PcOk(s, s.pcs[t]) && WonBelowTail(Perform(w, s, s.pcs[t]).0)
  {
    var pc := s.pcs[t];
    assert PcOk(s, pc);
    var share := Share(w, s, pc);
    ShareIsAvailable(w, s, pc);
    var fates' := Settle(s.fates, pc.mine, share, pc.desired);
    forall k | 0 <= k < |fates'| && fates'[k] == Won
      ensures k + 1 - CountFate(Lost, fates'[..k + 1]) <= s.tail
    {
      SettledTicketBelowTail(s.fates, pc.mine, share, pc.desired, s.tail, k);
    }
  }

  lemma SettleSettles(fates: seq<Fate>, mine: nat, won: nat, desired: nat)
    requires won <= desired && mine + desired <= |fates|
    requires forall i :: mine <= i < mine + desired ==> fates[i] == Open
    ensures Settles(fates, Settle(fates, mine, won, desired))
  {
    forall i | 0 <= i < |fates| && fates[i] == Lost
      ensures Settle(fates, mine, won, desired)[i] == Lost
    {
      SettleAt(fates, mine, won, desired, i);
    }
  }

  lemma DecideKeepsOthers(w: nat, s: State, t: nat, u: nat)
    requires 1 <= w && Inv(s) && t < |s.pcs| && s.pcs[t].Decide? && InWindow(w, s, Advance(t))
    requires u < |s.pcs| && u != t
    ensures PcOk(s, s.pcs[t]) && PcOk(Perform(w, s, s.pcs[t]).0, s.pcs[u])
  {
    var pc, other := s.pcs[t], s.pcs[u];
    assert PcOk(s, pc) && PcOk(s, other);
    var share := Share(w, s, pc);
    ShareIsAvailable(w, s, pc);
    SettleSettles(s.fates, pc.mine, share, pc.desired);
    if other.Decide? {
      assert Apart(other.mine, other.desired, pc.mine, pc.desired);
      forall i | other.mine <= i < other.mine + other.desired
        ensures Settle(s.fates, pc.mine, share, pc.desired)[i] == Open
      {
        SettleAt(s.fates, pc.mine, share, pc.desired, i);
      }
    }
    OthersKeepPc(s, Perform(w, s, pc).0, other);
  }

  // A thread that neither holds open tickets nor a claim afterwards cannot come between the others.
  lemma ApartFrame(pcs: seq<Pc>, t: nat, pc': Pc)
    requires t < |pcs| && TicketsApart(pcs) && ClaimsApart(pcs) && !pc'.Decide? && !pc'.Claimed?
    ensures TicketsApart(pcs[t := pc']) && ClaimsApart(pcs[t := pc'])
  {}

  lemma DecideKeepsCounts(w: nat, s: State, t: nat)
    requires 1 <= w && CountsOk(s) && t < |s.pcs| && s.pcs[t].Decide? && InWindow(w, s, Advance(t))
    requires PcOk(s, s.pcs[t])
    ensures CountsOk(Step(w, s, Advance(t)))
  {
    var pc := s.pcs[t];
    var s' := Step(w, s, Advance(t));
    var share := Share(w, s, pc);
    ShareIsAvailable(w, s, pc);
    SettleCounts(Won, s.fates, pc.mine, share, pc.desired);
    SettleCounts(Lost, s.fates, pc.mine, share, pc.desired);
    SettleCounts(Open, s.fates, pc.mine, share, pc.desired);
    SumUpdate(Overdue(), s.pcs, t, s'.pcs[t]);
    SumUpdate(Unclaimed(), s.pcs, t, s'.pcs[t]);
    SumUpdate(Undecided(), s.pcs, t, s'.pcs[t]);
  }

  lemma DecideKeepsInv(w: nat, s: State, t: nat)
    requires 1 <= w && Inv(s) && t < |s.pcs| && s.pcs[t].Decide? && InWindow(w, s, Advance(t))
    ensures Enabled(s, Advance(t)) && Inv(Step(w, s, Advance(t)))
  {
    var pc := s.pcs[t];
    assert PcOk(s, pc);
    var s' := Step(w, s, Advance(t));
    ShareIsAvailable(w, s, pc);
    DecideKeepsCounts(w, s, t);
    DecideKeepsWonBelowTail(w, s, t);
    ApartFrame(s.pcs, t, s'.pcs[t]);
    forall u | 0 <= u < |s.pcs| && u != t ensures PcOk(s', s'.pcs[u]) {
      DecideKeepsOthers(w, s, t, u);
    }
  }

  lemma CountKeepsCounts(w: nat, s: State, t: nat)
    requires 1 <= w && CountsOk(s) && t < |s.pcs| && s.pcs[t].AddOptimistic?
    ensures CountsOk(Step(w, s, Advance(t)))
  {
    var s' := Step(w, s, Advance(t));
    var more := seq(s.pcs[t].desired, _ => Open);
    CountFateConcat(Won, s.fates, more);
    CountFateConcat(Lost, s.fates, more);
    CountFateConcat(Open, s.fates, more);
    CountFateUniform(Open, Open, more);
    CountFateUniform(Won, Open, more);
    CountFateUniform(Lost, Open, more);
    SumUpdate(Overdue(), s.pcs, t, s'.pcs[t]);
    SumUpdate(Unclaimed(), s.pcs, t, s'.pcs[t]);
    SumUpdate(Undecided(), s.pcs, t, s'.pcs[t]);
  }

  lemma CountKeepsTickets(w: nat, s: State, t: nat)
    requires 1 <= w && Inv(s) && t < |s.pcs| && s.pcs[t].AddOptimistic?
    ensures var s' := Step(w, s, Advance(t)); TicketsApart(s'.pcs) && ClaimsApart(s'.pcs) && WonBelowTail(s')
  {
    var s' := Step(w, s, Advance(t));
    forall u | 0 <= u < |s.pcs| && u != t && s.pcs[u].Decide?
      ensures s.pcs[u].mine + s.pcs[u].desired <= |s.fates|
    {
      assert PcOk(s, s.pcs[u]);
    }
    forall k | 0 <= k < |s'.fates| && s'.fates[k] == Won
      ensures k + 1 - CountFate(Lost, s'.fates[..k + 1]) <= s'.tail
    {
      assert k < |s.fates| && s'.fates[..k + 1] == s.fates[..k + 1];
    }
  }

  lemma CountKeepsInv(w: nat, s: State, t: nat)
    requires 1 <= w && Inv(s) && t < |s.pcs| && s.pcs[t].AddOptimistic?
    ensures Inv(Step(w, s, Advance(t)))
  {
    CountKeepsCounts(w, s, t);
    CountKeepsTickets(w, s, t);
    var s' := Step(w, s, Advance(t));
    assert PcOk(s, s.pcs[t]);
    assert s'.fates[..|s.fates|] == s.fates;
    forall u | 0 <= u < |s.pcs| && u != t ensures PcOk(s', s'.pcs[u]) {
      assert PcOk(s, s.pcs[u]);
      OthersKeepPc(s, s', s.pcs[u]);
    }
  }

  lemma HeadKeepsInv(w: nat, s: State, t: nat)
    requires 1 <= w && Inv(s) && t < |s.pcs| && s.pcs[t].AddHead?
    ensures Inv(Step(w, s, Advance(t)))
  {
    assert PcOk(s, s.pcs[t]);
    var s' := Step(w, s, Advance(t));
    SumUpdate(Overdue(), s.pcs, t, s'.pcs[t]);
    SumUpdate(Unclaimed(), s.pcs, t, s'.pcs[t]);
    SumUpdate(Undecided(), s.pcs, t, s'.pcs[t]);
    forall u | 0 <= u < |s'.pcs| ensures PcOk(s', s'.pcs[u]) {
      assert PcOk(s, s.pcs[u]);
      if u != t { OthersKeepPc(s, s', s.pcs[u]); }
    }
    forall u | 0 <= u < |s.pcs| && u != t && s.pcs[u].Claimed?
      ensures s.pcs[u].first + s.pcs[u].count <= s.head
    {
      assert PcOk(s, s.pcs[u]);
    }
  }

  lemma PublishKeepsInv(w: nat, s: State, n: nat)
    requires 1 <= w && Inv(s)
    ensures Inv(Step(w, s, Publish(n)))
  {
    var s' := Step(w, s, Publish(n));
    forall u | 0 <= u < |s.pcs| ensures PcOk(s', s'.pcs[u]) {
      assert PcOk(s, s.pcs[u]);
      OthersKeepPc(s, s', s.pcs[u]);
    }
  }

  // A thread that changes neither the tickets nor the head.
  lemma QuietKeepsInv(s: State, s': State, t: nat, pc': Pc)
    requires Inv(s) && t < |s.pcs| && s' == s.(overcommit := s'.overcommit, pcs := s.pcs[t := pc'])
    requires CountsOk(s') && PcOk(s', pc') && !pc'.Decide? && !pc'.Claimed?
    ensures Inv(s')
  {
    ApartFrame(s.pcs, t, pc');
    forall u | 0 <= u < |s.pcs| && u != t ensures PcOk(s', s'.pcs[u]) {
      assert PcOk(s, s.pcs[u]);
      OthersKeepPc(s, s', s.pcs[u]);
    }
  }

  // Steps that only load or add to the overcommit.
  lemma LoadKeepsInv(w: nat, s: State, t: nat)
    requires 1 <= w && Inv(s) && t < |s.pcs|
    requires !s.pcs[t].Decide? && !s.pcs[t].AddOptimistic? && !s.pcs[t].AddHead?
    ensures Inv(Step(w, s, Advance(t)))
  {
    var s' := Step(w, s, Advance(t));
    if !s.pcs[t].Claimed? && !s.pcs[t].Idle? {
      assert PcOk(s, s.pcs[t]);
      SumUpdate(Overdue(), s.pcs, t, s'.pcs[t]);
      SumUpdate(Unclaimed(), s.pcs, t, s'.pcs[t]);
      SumUpdate(Undecided(), s.pcs, t, s'.pcs[t]);
      LoadKeepsOwnPc(w, s, t);
      assert PcOk(s', s'.pcs[t]) == PcOk(Perform(w, s, s.pcs[t]).0, s'.pcs[t]);
      QuietKeepsInv(s, s', t, s'.pcs[t]);
    } else {
      assert s' == s;
    }
  }

  // Starting and ending a call.
  lemma CallKeepsInv(w: nat, s: State, a: Action)
    requires 1 <= w && Inv(s) && Enabled(s, a) && (a.Start? || a.Release?)
    ensures Inv(Step(w, s, a))
  {
    var s' := Step(w, s, a);
    var t := a.thread;
    SumUpdate(Overdue(), s.pcs, t, s'.pcs[t]);
    SumUpdate(Unclaimed(), s.pcs, t, s'.pcs[t]);
    SumUpdate(Undecided(), s.pcs, t, s'.pcs[t]);
    QuietKeepsInv(s, s', t, s'.pcs[t]);
  }

  lemma LoadKeepsOwnPc(w: nat, s: State, t: nat)
    requires 1 <= w && Inv(s) && t < |s.pcs|
    requires !s.pcs[t].Decide? && !s.pcs[t].AddOptimistic? && !s.pcs[t].AddHead?
    ensures var (s', pc') := Perform(w, s, s.pcs[t]); PcOk(s', pc')
  {
    var pc := s.pcs[t];
    assert PcOk(s, pc);
    SumBoundsOverdue(s);
    if pc.LoadOptimistic? {
      var available := Available(w, pc.tail, s.optimistic, pc.overcommit);
      if Positive(w, available) {
        PositiveIsNotZero(w, available);
      }
    } else if pc.AddOvercommit? {
      assert PcOk(s.(overcommit := s.overcommit + pc.extra), Perform(w, s, pc).1);
    }
  }

  lemma PositiveIsNotZero(w: nat, available: nat)
    requires 1 <= w && Positive(w, available)
    ensures 1 <= available
  {
    DivisionIsUnique(0, Pow2(w), 0, 0);
  }

  lemma SumBoundsOverdue(s: State)
    requires Inv(s)
    ensures s.overcommit <= CountFate(Lost, s.fates) && s.head <= CountFate(Won, s.fates)
  {
    SumNonNegative(Overdue(), s.pcs);
    SumNonNegative(Unclaimed(), s.pcs);
  }

  lemma StepKeepsInv(w: nat, s: State, a: Action)
    requires 1 <= w && Inv(s) && Enabled(s, a) && InWindow(w, s, a)
    ensures Inv(Step(w, s, a))
  {
    if a.Advance? && s.pcs[a.thread].Decide? {
      DecideKeepsInv(w, s, a.thread);
    } else if a.Advance? && s.pcs[a.thread].AddOptimistic? {
      CountKeepsInv(w, s, a.thread);
    } else if a.Advance? && s.pcs[a.thread].AddHead? {
      HeadKeepsInv(w, s, a.thread);
    } else if a.Publish? {
      PublishKeepsInv(w, s, a.count);
    } else if a.Advance? {
      LoadKeepsInv(w, s, a.thread);
    } else {
      CallKeepsInv(w, s, a);
    }
  }

  // ---- What holds in every run ----

  function Run(w: nat, s: State, schedule: seq<Action>): State
    requires 1 <= w
    decreases |schedule|
  {
    if |schedule| == 0 then s
    else
      var a := schedule[0];
      Run(w, if Enabled(s, a) then Step(w, s, a) else s, schedule[1..])
  }

  // Every decision of the run is taken inside the word window.
  ghost predicate RunInWindow(w: nat, s: State, schedule: seq<Action>)
    requires 1 <= w
    decreases |schedule|
  {
    |schedule| > 0 ==>
      var a := schedule[0];
      && (Enabled(s, a) ==> InWindow(w, s, a))
      && RunInWindow(w, if Enabled(s, a) then Step(w, s, a) else s, schedule[1..])
  }

  ghost predicate Initial(s: State) {
    && s.tail == s.head == s.optimistic == s.overcommit == 0 && s.fates == []
    && forall t :: 0 <= t < |s.pcs| ==> s.pcs[t].Idle?
  }

  // The counters as constructed.
  function Created(threads: nat): (s: State)
    ensures Initial(s) && |s.pcs| == threads
  {
    State(0, 0, 0, 0, seq(threads, _ => Idle), [])
  }

  lemma InitialIsCreated(s: State)
    requires Initial(s)
    ensures s == Created(|s.pcs|)
  {}

  lemma IdleSums(pcs: seq<Pc>)
    requires forall t :: 0 <= t < |pcs| ==> pcs[t].Idle?
    ensures Sum(Overdue(), pcs) == Sum(Unclaimed(), pcs) == Sum(Undecided(), pcs) == 0
  {
    SumZero(Overdue(), pcs);
    SumZero(Unclaimed(), pcs);
    SumZero(Undecided(), pcs);
  }

  lemma {:induction false} RunKeepsInv(w: nat, s: State, schedule: seq<Action>)
    requires 1 <= w && Inv(s) && RunInWindow(w, s, schedule)
    ensures Inv(Run(w, s, schedule))
    decreases |schedule|
  {
    if |schedule| > 0 {
      var a := schedule[0];
      if Enabled(s, a) {
        StepKeepsInv(w, s, a);
        RunKeepsInv(w, Step(w, s, a), schedule[1..]);
      } else {
        RunKeepsInv(w, s, schedule[1..]);
      }
    }
  }

  /** Any word size, any number of single and bulk consumers, any interleaving with the producer. */
  lemma EveryRunKeepsInv(w: nat, s: State, schedule: seq<Action>)
    requires 1 <= w && Initial(s) && RunInWindow(w, s, schedule)
    ensures Inv(Run(w, s, schedule))
  {
    IdleSums(s.pcs);
    RunKeepsInv(w, s, schedule);
  }

  /** The head, together with every share that is granted but not yet taken from it, never passes the tail;
      claims lie below the head and no two of them meet; no consumer holds an overcommit above its ticket. */
  lemma ClaimsAreSound(s: State)
    requires Inv(s)
    ensures s.head + Sum(Unclaimed(), s.pcs) <= s.tail && s.head <= s.tail
    ensures s.overcommit <= s.optimistic
    ensures forall t :: 0 <= t < |s.pcs| && s.pcs[t].Claimed? ==>
              1 <= s.pcs[t].count && s.pcs[t].first + s.pcs[t].count <= s.head
    ensures forall t, u :: 0 <= t < u < |s.pcs| && s.pcs[t].Claimed? && s.pcs[u].Claimed? ==>
              Apart(s.pcs[t].first, s.pcs[t].count, s.pcs[u].first, s.pcs[u].count)
    ensures forall t :: 0 <= t < |s.pcs| && s.pcs[t].Decide? ==> s.pcs[t].overcommit <= s.pcs[t].mine
  {
    SumBoundsOverdue(s);
    SumNonNegative(Unclaimed(), s.pcs);
    WonAtMostTail(s.fates, s.tail);
    forall t | 0 <= t < |s.pcs| && (s.pcs[t].Claimed? || s.pcs[t].Decide?) ensures PcOk(s, s.pcs[t]) {}
  }

  /** With every consumer at rest the effective count is exactly the head. */
  lemma CountsAgreeAtRest(s: State)
    requires Inv(s) && forall t :: 0 <= t < |s.pcs| ==> s.pcs[t].Idle? || s.pcs[t].Claimed?
    ensures s.optimistic - s.overcommit == s.head
  {
    SumZero(Overdue(), s.pcs);
    SumZero(Unclaimed(), s.pcs);
    SumZero(Undecided(), s.pcs);
    WonAndLost(s.fates);
  }

  /** How far beyond the tail a deciding consumer can be: no further than the tickets before its own that
      are still undecided or that were lost after it read the overcommit. */
  lemma OvershootIsRecent(s: State, t: nat)
    requires Inv(s) && t < |s.pcs| && s.pcs[t].Decide?
    ensures var pc := s.pcs[t];
      && pc.mine <= |s.fates|
      && pc.mine - pc.overcommit - s.tail
         <= (CountFate(Lost, s.fates[..pc.mine]) - pc.overcommit) + CountFate(Open, s.fates[..pc.mine])
  {
    var pc := s.pcs[t];
    assert PcOk(s, pc);
    var prefix := s.fates[..pc.mine];
    WonAndLost(prefix);
    CountFatePrefix(Won, s.fates, pc.mine);
    WonAtMostTail(s.fates, s.tail);
  }

  // Thread t taking n steps in a row.
  function Alone(w: nat, s: State, t: nat, n: nat): State
    requires 1 <= w
    decreases n
  {
    if n == 0 || !Enabled(s, Advance(t)) then s else Alone(w, Step(w, s, Advance(t)), t, n - 1)
  }

  lemma {:induction false} AloneAdds(w: nat, s: State, t: nat, m: nat, n: nat)
    requires 1 <= w
    ensures Alone(w, s, t, m + n) == Alone(w, Alone(w, s, t, m), t, n)
    decreases m
  {
    if m > 0 && Enabled(s, Advance(t)) {
      AloneAdds(w, Step(w, s, Advance(t)), t, m - 1, n);
    }
  }

  lemma LoadsAlone(w: nat, s: State, t: nat, max: nat)
    requires 1 <= w && t < |s.pcs| && 1 <= max
    ensures var available := Available(w, s.tail, s.optimistic, s.overcommit);
      var pc := if Positive(w, available) then AddOptimistic(Min(available, max), s.overcommit) else Idle;
      Alone(w, s.(pcs := s.pcs[t := LoadTail(max)]), t, 3) == s.(pcs := s.pcs[t := pc])
  {
    var s1 := s.(pcs := s.pcs[t := LoadTail(max)]);
    var s2 := s.(pcs := s.pcs[t := LoadOvercommit(max, s.tail)]);
    var s3 := s.(pcs := s.pcs[t := LoadOptimistic(max, s.tail, s.overcommit)]);
    assert Step(w, s1, Advance(t)) == s2;
    assert Step(w, s2, Advance(t)) == s3;
    assert Alone(w, s1, t, 3) == Alone(w, s2, t, 2) == Alone(w, s3, t, 1);
  }

  lemma TakesAlone(w: nat, s: State, t: nat, desired: nat)
    requires 1 <= w && t < |s.pcs| && |s.fates| == s.optimistic && 1 <= desired
    requires var available := Available(w, s.tail, s.optimistic, s.overcommit);
             Positive(w, available) && desired <= available
    ensures var end := Alone(w, s.(pcs := s.pcs[t := AddOptimistic(desired, s.overcommit)]), t, 3);
      end.tail == s.tail && end.head == s.head + desired && end.pcs == s.pcs[t := Claimed(s.head, desired)]
  {
    var s1 := s.(pcs := s.pcs[t := AddOptimistic(desired, s.overcommit)]);
    var s2 := Step(w, s1, Advance(t));
    var pc := Decide(desired, s.overcommit, s.optimistic);
    assert s2.pcs[t] == pc && Enabled(s2, Advance(t)) && Share(w, s2, pc) == desired;
    var s3 := Step(w, s2, Advance(t));
    assert s3.pcs[t] == AddHead(desired) && s3.head == s.head && s3.tail == s.tail;
    assert s3.pcs == s.pcs[t := AddHead(desired)];
    assert Alone(w, s1, t, 3) == Alone(w, s2, t, 2) == Alone(w, s3, t, 1);
  }

  /** A consumer that runs alone from rest gets exactly the smaller of what it wants and what is there, as
      long as fewer than half the word range is there. */
  lemma AloneGetsAll(w: nat, s: State, t: nat, max: nat)
    requires 1 <= w && Inv(s) && t < |s.pcs| && s.pcs[t].Idle? && 1 <= max
    requires forall u :: 0 <= u < |s.pcs| ==> s.pcs[u].Idle? || s.pcs[u].Claimed?
    requires s.tail - s.head < Pow2(w - 1)
    ensures s.head <= s.tail
    ensures var end := Alone(w, Step(w, s, Start(t, max)), t, 6);
      var share := Min(max, s.tail - s.head);
      && end.tail == s.tail && end.head == s.head + share
      && end.pcs == s.pcs[t := if share == 0 then Idle else Claimed(s.head, share)]
  {
    ClaimsAreSound(s);
    CountsAgreeAtRest(s);
    SmallIsPositive(w, s.tail - s.head);
    AloneAdds(w, Step(w, s, Start(t, max)), t, 3, 3);
    LoadsAlone(w, s, t, max);
    if s.head == s.tail {
      IdleAlone(w, s.(pcs := s.pcs[t := Idle]), t, 3);
    } else {
      TakesAlone(w, s, t, Min(s.tail - s.head, max));
    }
  }

  lemma {:induction false} IdleAlone(w: nat, s: State, t: nat, n: nat)
    requires 1 <= w && t < |s.pcs| && s.pcs[t].Idle?
    ensures Alone(w, s, t, n) == s
    decreases n
  {
    if n > 0 {
      assert Step(w, s, Advance(t)) == s;
      IdleAlone(w, s, t, n - 1);
    }
  }

  lemma SmallIsPositive(w: nat, n: nat)
    requires 1 <= w && n < Pow2(w - 1)
    ensures Wrap(w, n) == n && (Positive(w, n) <==> 0 < n)
  {
    DivisionIsUnique(n, Pow2(w), 0, n);
    if n == 0 {
      DivisionIsUnique(0, Pow2(w), 0, 0);
    } else {
      DivisionIsUnique(0 - n, Pow2(w), -1, Pow2(w) - n);
    }
  }

  /** Exactly when finite words are enough: a consumer that decides less than the whole word range from the tail gives
      itself what is truly there, and nothing if nothing is, if and only if its effective count lies less than half the
      range before the tail and at most half the range beyond it. */
  lemma ShareIsExact(w: nat, s: State, pc: Pc)
    requires 1 <= w && pc.Decide? && 1 <= pc.desired && -Pow2(w) < pc.mine - pc.overcommit - s.tail < Pow2(w)
    ensures var there := s.tail - (pc.mine - pc.overcommit);
      Share(w, s, pc) == (if 0 < there then Min(pc.desired, there) else 0)
      <==> -Pow2(w - 1) <= there < Pow2(w - 1)
  {
    var there := s.tail - (pc.mine - pc.overcommit);
    SingleTestIsBulkTest(w, 0, there);
    CircularLessThanIsExact(w, 0, there);
    DivisionIsUnique(0, Pow2(w), 0, 0);
    if 0 <= there {
      DivisionIsUnique(there, Pow2(w), 0, there);
    } else {
      DivisionIsUnique(there, Pow2(w), -1, there + Pow2(w));
    }
  }

  // ---- The same steps, in place ----

  /** The four indices of a producer and the consumers that dequeue from it. Dequeue performs the next atomic
      access of one consumer inside dequeue or dequeue_bulk, up to and including the claim of its range. */
  class SharedCounters {
    const w: nat
    var tailIndex: nat
    var headIndex: nat
    var dequeueOptimisticCount: nat
    var dequeueOvercommit: nat
    var pcs: seq<Pc>
    ghost var fates: seq<Fate>

    ghost function Abs(): State
      reads this
    {
      State(tailIndex, headIndex, dequeueOptimisticCount, dequeueOvercommit, pcs, fates)
    }

    constructor (w: nat, threads: nat)
      ensures this.w == w && Initial(Abs()) && |pcs| == threads
    {
      this.w := w;
      tailIndex, headIndex, dequeueOptimisticCount, dequeueOvercommit := 0, 0, 0, 0;
      pcs := seq(threads, _ => Idle);
      fates := [];
    }

    // The producer stores tailIndex once count more elements are in place.
    method PublishTail(count: nat)
      requires 1 <= w
      modifies this
      ensures Abs() == Step(w, old(Abs()), Publish(count))
    {
      tailIndex := tailIndex + count;
    }

    method Call(a: Action)
      requires 1 <= w && Enabled(Abs(), a) && (a.Start? || a.Release?)
      modifies this
      ensures Abs() == Step(w, old(Abs()), a)
    {
      pcs := pcs[a.thread := if a.Start? then LoadTail(a.max) else Idle];
    }

    method Dequeue(t: nat)
      requires 1 <= w && Enabled(Abs(), Advance(t))
      modifies this
      ensures Abs() == Step(w, old(Abs()), Advance(t))
    {
      match pcs[t]
      case Idle =>
      case LoadTail(max) =>
        pcs := pcs[t := LoadOvercommit(max, tailIndex)];
      case LoadOvercommit(max, tail) =>
        pcs := pcs[t := LoadOptimistic(max, tail, dequeueOvercommit)];
      case LoadOptimistic(max, tail, overcommit) =>
        var desiredCount := Available(w, tail, dequeueOptimisticCount, overcommit);
        if Positive(w, desiredCount) {
          desiredCount := if desiredCount < max then desiredCount else max;
          pcs := pcs[t := AddOptimistic(desiredCount, overcommit)];
        } else {
          pcs := pcs[t := Idle];
        }
      case AddOptimistic(desiredCount, overcommit) =>
        var myDequeueCount := dequeueOptimisticCount;
        dequeueOptimisticCount := dequeueOptimisticCount + desiredCount;
        fates := fates + seq(desiredCount, _ => Open);
        pcs := pcs[t := Decide(desiredCount, overcommit, myDequeueCount)];
      case Decide(desiredCount, overcommit, myDequeueCount) =>
        var actualCount := Available(w, tailIndex, myDequeueCount, overcommit);
        if Positive(w, actualCount) {
          actualCount := if desiredCount < actualCount then desiredCount else actualCount;
          if actualCount < desiredCount {
            pcs := pcs[t := AddOvercommit(desiredCount - actualCount, actualCount)];
          } else {
            pcs := pcs[t := AddHead(actualCount)];
          }
          fates := Settle(fates, myDequeueCount, actualCount, desiredCount);
        } else {
          pcs := pcs[t := if 0 < desiredCount then AddOvercommit(desiredCount, 0) else AddHead(0)];
          fates := Settle(fates, myDequeueCount, 0, desiredCount);
        }
      case AddOvercommit(extra, actualCount) =>
        dequeueOvercommit := dequeueOvercommit + extra;
        pcs := pcs[t := if actualCount == 0 then Idle else AddHead(actualCount)];
      case AddHead(actualCount) =>
        var firstIndex := headIndex;
        headIndex := headIndex + actualCount;
        pcs := pcs[t := Claimed(firstIndex, actualCount)];
      case Claimed(_, _) =>
    }

    /** Driven through any schedule that keeps to the window, the counters are where the machine's run is. */
    method Follow(schedule: seq<Action>)
      requires 1 <= w && Inv(Abs()) && RunInWindow(w, Abs(), schedule)
      modifies this
      ensures Inv(Abs()) && Abs() == Run(w, old(Abs()), schedule)
      decreases |schedule|
    {
      hide Inv, Step;
      if |schedule| > 0 {
        var a := schedule[0];
        AdvanceIsEnabled(Abs(), a);
        var ok := match a
          case Publish(_) => true
          case Start(t, max) => t < |pcs| && pcs[t].Idle? && 1 <= max
          case Advance(t) => t < |pcs|
          case Release(t) => t < |pcs| && pcs[t].Claimed?;
        if ok {
          StepKeepsInv(w, Abs(), a);
          match a {
            case Publish(count) => PublishTail(count);
            case Advance(t) => Dequeue(t);
            case _ => Call(a);
          }
        }
        Follow(schedule[1..]);
      }
    }
  }

  // The tickets a consumer decides on have been issued.
  lemma AdvanceIsEnabled(s: State, a: Action)
    requires Inv(s)
    ensures a.Advance? && a.thread < |s.pcs| ==> Enabled(s, a)
  {
    if a.Advance? && a.thread < |s.pcs| {
      assert PcOk(s, s.pcs[a.thread]);
    }
  }
}
