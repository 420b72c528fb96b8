/** What a dequeue from one producer has found out when it is given less than it asked for: all the elements it could have
    seen are claimed, up to what other dequeues of that producer ask for. */
module DryClaims {
  import opened Common
  import opened Words
  import opened DequeueClaims

  // The tickets a call has been issued and that neither the head nor the overcommit makes up for yet.
  function InFlight(pc: Pc): nat {
    match pc
    case Decide(desired, _, _) => desired
    case AddOvercommit(extra, count) => extra + count
    case AddHead(count) => count
    case _ => 0
  }

  // The tickets a call may still ask for.
  function NotYet(pc: Pc): nat {
    match pc
    case LoadTail(max) => max
    case LoadOvercommit(max, _) => max
    case LoadOptimistic(max, _, _) => max
    case AddOptimistic(desired, _) => desired
    case _ => 0
  }

  ghost function Flights(): Pc -> int { (pc: Pc) => InFlight(pc) }

  ghost function Wishes(): Pc -> int { (pc: Pc) => NotYet(pc) }

  // What the calls of all threads but t ask for.
  ghost function OthersAsk(s: State, t: nat): int
    requires t < |s.pcs|
  {
    Sum(Flights(), s.pcs) + Sum(Wishes(), s.pcs) - InFlight(s.pcs[t]) - NotYet(s.pcs[t])
  }

  ghost function OthersWish(s: State, t: nat): int
    requires t < |s.pcs|
  {
    Sum(Wishes(), s.pcs) - NotYet(s.pcs[t])
  }

  // The counts agree with the calls, and the producer holds less than half the word range.
  ghost predicate Balanced(w: nat, s: State) {
    1 <= w && s.optimistic - s.overcommit - s.head == Sum(Flights(), s.pcs) && Size(s) < Pow2(w - 1)
  }

  // There were `began` elements ever when thread t began to look, and since then the calls of others asked for `asked`.
  ghost predicate Watched(s: State, t: nat, began: nat, asked: int)
    requires t < |s.pcs|
  {
    began <= s.tail && OthersAsk(s, t) <= asked
  }

  // Elements that were there are all claimed, up to what others asked for.
  predicate Dry(s: State, began: nat, asked: int) { began <= s.head + asked }

  // What thread t has found out in a call that asks for max.
  ghost predicate FoundOut(w: nat, s: State, t: nat, max: int, began: nat, asked: int)
    requires 1 <= w && t < |s.pcs|
  {
    match s.pcs[t]
    case LoadTail(m) => m == max
    case LoadOvercommit(m, tail) => m == max && began <= tail < s.head + Pow2(w - 1)
    case LoadOptimistic(m, tail, overcommit) =>
      && m == max && began <= tail < s.optimistic - overcommit + Pow2(w - 1)
      && overcommit <= s.overcommit && s.optimistic - overcommit - s.head + OthersWish(s, t) <= asked
    case AddOptimistic(desired, overcommit) =>
      && overcommit <= s.overcommit && s.optimistic - overcommit - s.head + OthersWish(s, t) <= asked
      && (desired < max ==> began <= s.optimistic - overcommit + desired)
    case Decide(desired, overcommit, mine) =>
      && overcommit <= s.overcommit && mine - overcommit - s.head <= asked
      && s.optimistic + OthersWish(s, t) <= mine + desired + asked
      && (desired < max ==> began <= mine - overcommit + desired)
    case AddOvercommit(_, count) => count < max ==> began <= s.head + count + asked
    case AddHead(count) => count < max ==> began <= s.head + count + asked
    case Claimed(_, count) => count < max ==> Dry(s, began, asked)
    case Idle => Dry(s, began, asked)
  }

  // When a call decides, the elements in the producer and what others ask for stay below a limit together.
  predicate Spare(limit: int, s: State, t: nat, asked: int)
    requires t < |s.pcs|
  {
    s.pcs[t].Decide? ==> Size(s) + asked < limit
  }

  // ---- What a step does to the sums ----

  lemma OthersAreNotNegative(s: State, t: nat)
    requires t < |s.pcs|
    ensures 0 <= OthersWish(s, t) <= OthersAsk(s, t) && InFlight(s.pcs[t]) <= Sum(Flights(), s.pcs)
  {
    SumBoundsMember(Flights(), s.pcs, t);
    SumBoundsMember(Wishes(), s.pcs, t);
  }

  // What a step of thread u in its call does to the counts and sums.
  ghost predicate Moved(s: State, s': State, u: nat) {
    && u < |s.pcs| && |s'.pcs| == |s.pcs| && s'.pcs == s.pcs[u := s'.pcs[u]] && s'.tail == s.tail
    && s.head <= s'.head && s.overcommit <= s'.overcommit && s.optimistic <= s'.optimistic
    && Sum(Flights(), s'.pcs) == Sum(Flights(), s.pcs) - InFlight(s.pcs[u]) + InFlight(s'.pcs[u])
    && Sum(Wishes(), s'.pcs) == Sum(Wishes(), s.pcs) - NotYet(s.pcs[u]) + NotYet(s'.pcs[u])
    && s'.optimistic - s'.overcommit - s'.head - InFlight(s'.pcs[u])
       == s.optimistic - s.overcommit - s.head - InFlight(s.pcs[u])
    && InFlight(s'.pcs[u]) + NotYet(s'.pcs[u]) <= InFlight(s.pcs[u]) + NotYet(s.pcs[u])
    && s'.optimistic + NotYet(s'.pcs[u]) <= s.optimistic + NotYet(s.pcs[u])
  }

  lemma AdvanceMoves(w: nat, s: State, u: nat)
    requires 1 <= w && Enabled(s, Advance(u))
    ensures Moved(s, Step(w, s, Advance(u)), u)
  {
    var pc' := Step(w, s, Advance(u)).pcs[u];
    SumUpdate(Flights(), s.pcs, u, pc');
    SumUpdate(Wishes(), s.pcs, u, pc');
  }

  lemma ReleaseMoves(w: nat, s: State, u: nat)
    requires 1 <= w && Enabled(s, Release(u))
    ensures Moved(s, Step(w, s, Release(u)), u)
  {
    SumUpdate(Flights(), s.pcs, u, Idle);
    SumUpdate(Wishes(), s.pcs, u, Idle);
  }

  lemma StartAsks(w: nat, s: State, u: nat, max: nat)
    requires 1 <= w && Enabled(s, Start(u, max))
    ensures Sum(Flights(), Step(w, s, Start(u, max)).pcs) == Sum(Flights(), s.pcs)
    ensures Sum(Wishes(), Step(w, s, Start(u, max)).pcs) == Sum(Wishes(), s.pcs) + max
  {
    SumUpdate(Flights(), s.pcs, u, LoadTail(max));
    SumUpdate(Wishes(), s.pcs, u, LoadTail(max));
  }

  // ---- Every step keeps the balance ----

  lemma StepKeepsBalance(w: nat, s: State, a: Action)
    requires Balanced(w, s) && Enabled(s, a) && (a.Publish? ==> Size(s) + a.count < Pow2(w - 1))
    ensures Balanced(w, Step(w, s, a)) && s.head <= Step(w, s, a).head && s.tail <= Step(w, s, a).tail
    ensures |Step(w, s, a).pcs| == |s.pcs|
  {
    match a
    case Publish(n) =>
    case Start(u, max) => StartAsks(w, s, u, max);
    case Advance(u) => AdvanceMoves(w, s, u);
    case Release(u) => ReleaseMoves(w, s, u);
  }

  // ---- Steps of others ----

  lemma OtherMoves(w: nat, s: State, s': State, t: nat, u: nat, max: int, began: nat, asked: int)
    requires 1 <= w && t < |s.pcs| && u != t && Moved(s, s', u) && Watched(s, t, began, asked)
    ensures Watched(s', t, began, asked)
    ensures FoundOut(w, s, t, max, began, asked) ==> FoundOut(w, s', t, max, began, asked)
  {}

  /** What a thread has found out stays true whatever others do, if what they begin to ask for is charged. */
  lemma OthersKeepFindings(w: nat, s: State, t: nat, a: Action, max: int, began: nat, asked: int)
    requires 1 <= w && t < |s.pcs| && Enabled(s, a) && (a.Publish? || a.thread != t) && Watched(s, t, began, asked)
    ensures var s', charged := Step(w, s, a), asked + if a.Start? then a.max else 0;
      && t < |s'.pcs| && Watched(s', t, began, charged)
      && (FoundOut(w, s, t, max, began, asked) ==> FoundOut(w, s', t, max, began, charged))
  {
    hide Moved;
    match a
    case Publish(n) =>
    case Start(u, m) => StartAsks(w, s, u, m);
    case Advance(u) =>
      AdvanceMoves(w, s, u);
      OtherMoves(w, s, Step(w, s, a), t, u, max, began, asked);
    case Release(u) =>
      ReleaseMoves(w, s, u);
      OtherMoves(w, s, Step(w, s, a), t, u, max, began, asked);
  }

  // ---- Its own steps ----

  // The test a call makes on words: a number below half the word range passes it if it is positive, and if it does not
  // pass it, it is not.
  lemma TestIsSafe(w: nat, there: int)
    requires 1 <= w && there < Pow2(w - 1)
    ensures 0 < there ==> Positive(w, Wrap(w, there)) && Wrap(w, there) == there
  {
    if 0 < there {
      DivisionIsUnique(there, Pow2(w), 0, there);
      DivisionIsUnique(-there, Pow2(w), -1, Pow2(w) - there);
    }
  }

  // The effective count of a consumer about to decide is not far behind the head.
  lemma DecidesNearHead(w: nat, s: State, t: nat, max: int, began: nat, asked: int)
    requires Balanced(w, s) && t < |s.pcs| && s.pcs[t].Decide? && FoundOut(w, s, t, max, began, asked)
    ensures s.head <= s.pcs[t].mine - s.pcs[t].overcommit + asked
  {
    OthersAreNotNegative(s, t);
  }

  lemma DecideFindsOut(w: nat, s: State, t: nat, max: int, began: nat, asked: int)
    requires Balanced(w, s) && t < |s.pcs| && s.pcs[t].Decide? && Enabled(s, Advance(t)) && Watched(s, t, began, asked)
    requires FoundOut(w, s, t, max, began, asked) && Spare(Pow2(w - 1), s, t, asked)
    ensures FoundOut(w, Step(w, s, Advance(t)), t, max, began, asked)
  {
    var pc := s.pcs[t];
    var there := s.tail - (pc.mine - pc.overcommit);
    DecidesNearHead(w, s, t, max, began, asked);
    TestIsSafe(w, there);
    hide Sum, Settle, Wrap, CircularLessThan;
    var share := Share(w, s, pc);
    if share < pc.desired && 0 < there {
      assert share == there;
    }
  }

  lemma LoadsFindOut(w: nat, s: State, t: nat, max: int, began: nat, asked: int)
    requires Balanced(w, s) && t < |s.pcs| && Enabled(s, Advance(t)) && Watched(s, t, began, asked)
    requires s.pcs[t].LoadTail? || s.pcs[t].LoadOvercommit? || s.pcs[t].LoadOptimistic?
    requires FoundOut(w, s, t, max, began, asked)
    ensures FoundOut(w, Step(w, s, Advance(t)), t, max, began, asked)
  {
    hide Wrap, CircularLessThan;
    var pc := s.pcs[t];
    AdvanceMoves(w, s, t);
    OthersAreNotNegative(s, t);
    if pc.LoadOptimistic? {
      TestIsSafe(w, pc.tail - (s.optimistic - pc.overcommit));
    }
  }

  /** A step of its own call: when the call ends with less than it asked for, the producer was found dry. */
  lemma OwnStepFindsOut(w: nat, s: State, t: nat, max: int, began: nat, asked: int)
    requires Balanced(w, s) && t < |s.pcs| && Enabled(s, Advance(t)) && Watched(s, t, began, asked)
    requires 1 <= max && FoundOut(w, s, t, max, began, asked) && Spare(Pow2(w - 1), s, t, asked)
    ensures t < |Step(w, s, Advance(t)).pcs| && Watched(Step(w, s, Advance(t)), t, began, asked)
    ensures FoundOut(w, Step(w, s, Advance(t)), t, max, began, asked)
  {
    hide Share, Settle, Wrap, CircularLessThan, Positive, Available;
    AdvanceMoves(w, s, t);
    var pc := s.pcs[t];
    if pc.Decide? {
      DecideFindsOut(w, s, t, max, began, asked);
    } else if pc.LoadTail? || pc.LoadOvercommit? || pc.LoadOptimistic? {
      LoadsFindOut(w, s, t, max, began, asked);
    } else if pc.AddOptimistic? {
      OthersAreNotNegative(s, t);
    }
  }

  lemma OwnCallFindsOut(w: nat, s: State, t: nat, max: nat, began: nat, asked: int)
    requires Balanced(w, s) && t < |s.pcs| && Watched(s, t, began, asked) && Enabled(s, Start(t, max))
    ensures var s' := Step(w, s, Start(t, max));
      t < |s'.pcs| && Watched(s', t, began, asked) && FoundOut(w, s', t, max, began, asked)
  {
    StartAsks(w, s, t, max);
  }

  lemma OwnReleaseKeeps(w: nat, s: State, t: nat, began: nat, asked: int)
    requires 1 <= w && Enabled(s, Release(t)) && Watched(s, t, began, asked)
    ensures t < |Step(w, s, Release(t)).pcs| && Watched(Step(w, s, Release(t)), t, began, asked)
  {
    ReleaseMoves(w, s, t);
  }

  lemma FreshIsBalanced(w: nat, threads: nat)
    requires 1 <= w
    ensures Balanced(w, State(0, 0, 0, 0, seq(threads, _ => Idle), []))
  {
    SumZero(Flights(), seq(threads, _ => Idle));
  }
}
