/** A dequeue from the inner queue while no other dequeue is in flight: whatever enqueues do meanwhile, one walk gives it
    all it asks for, if that much was there when it began, and it ends. */
module InnerWalks {
  import opened Common
  import opened Words
  import opened InnerQueue
  import C = DequeueClaims

  // ---- Alone in one producer ----

  // The claim protocol of a producer in which only thread t is at work.
  ghost predicate SoloOk(w: nat, c: C.State, t: nat) {
    1 <= w && C.Inv(c) && SoloCounts(w, c, t) && forall u :: 0 <= u < |c.pcs| && u != t ==> c.pcs[u].Idle?
  }

  predicate SoloCounts(w: nat, c: C.State, t: nat)
    requires 1 <= w
  {
    && t < |c.pcs| && 0 <= C.Size(c) < Pow2(w - 1)
    && match c.pcs[t]
       case LoadOvercommit(_, tail) => c.optimistic - c.overcommit == c.head <= tail <= c.tail
       case LoadOptimistic(_, tail, overcommit) =>
         c.optimistic - c.overcommit == c.head <= tail <= c.tail && overcommit == c.overcommit
       case AddOptimistic(desired, overcommit) =>
         c.optimistic - c.overcommit == c.head <= c.tail - desired && overcommit == c.overcommit
       case Decide(desired, overcommit, mine) =>
         mine - c.overcommit == c.head <= c.tail - desired && overcommit == c.overcommit && mine + desired == c.optimistic
       case AddOvercommit(_, _) => false
       case AddHead(count) => c.optimistic - c.overcommit == c.head + count <= c.tail
       case _ => c.optimistic - c.overcommit == c.head
  }

  // What the call of thread t is certain to be given.
  function Worth(c: C.State, t: nat): int
    requires t < |c.pcs|
  {
    match c.pcs[t]
    case LoadTail(max) => C.Min(max, C.Size(c))
    case LoadOvercommit(max, tail) => C.Min(max, tail - c.head)
    case LoadOptimistic(max, tail, _) => C.Min(max, tail - c.head)
    case AddOptimistic(desired, _) => desired
    case Decide(desired, _, _) => desired
    case AddHead(count) => count
    case Claimed(_, count) => count
    case _ => 0
  }

  lemma SoloStepCounts(w: nat, c: C.State, t: nat)
    requires 1 <= w && SoloCounts(w, c, t) && !c.pcs[t].Idle? && !c.pcs[t].Claimed?
    requires C.Enabled(c, C.Advance(t)) && (c.pcs[t].Decide? ==> 1 <= c.pcs[t].desired)
    ensures var c' := C.Step(w, c, C.Advance(t));
      && SoloCounts(w, c', t) && Worth(c, t) <= Worth(c', t) && C.Left(c'.pcs[t]) < C.Left(c.pcs[t])
      && c'.pcs == c.pcs[t := c'.pcs[t]] && C.InWindow(w, c, C.Advance(t))
  {
    hide C.Positive, C.Settle, Wrap;
    match c.pcs[t] {
      case LoadOptimistic(max, tail, _) => C.SmallIsPositive(w, tail - c.head);
      case Decide(desired, _, _) => C.SmallIsPositive(w, C.Size(c));
      case _ =>
    }
  }

  lemma SoloStep(w: nat, c: C.State, t: nat)
    requires SoloOk(w, c, t) && !c.pcs[t].Idle? && !c.pcs[t].Claimed?
    ensures C.Enabled(c, C.Advance(t))
    ensures var c' := C.Step(w, c, C.Advance(t));
      && SoloOk(w, c', t) && Worth(c, t) <= Worth(c', t) && C.Left(c'.pcs[t]) < C.Left(c.pcs[t])
      && |c'.pcs| == |c.pcs|
  {
    assert C.PcOk(c, c.pcs[t]);
    hide C.Inv, SoloCounts, Worth;
    SoloStepCounts(w, c, t);
    hide C.Step;
    C.StepKeepsInv(w, c, C.Advance(t));
  }

  lemma SoloStart(w: nat, c: C.State, t: nat, max: nat)
    requires SoloOk(w, c, t) && c.pcs[t].Idle? && 1 <= max
    ensures var c' := C.Step(w, c, C.Start(t, max));
      SoloOk(w, c', t) && Worth(c', t) == C.Min(max, C.Size(c)) && C.Left(c'.pcs[t]) == 8 && |c'.pcs| == |c.pcs|
  {
    hide C.Inv;
    C.StepKeepsInv(w, c, C.Start(t, max));
  }

  lemma SoloRelease(w: nat, c: C.State, t: nat)
    requires SoloOk(w, c, t) && c.pcs[t].Claimed?
    ensures SoloOk(w, C.Step(w, c, C.Release(t)), t) && |C.Step(w, c, C.Release(t)).pcs| == |c.pcs|
  {
    hide C.Inv;
    C.StepKeepsInv(w, c, C.Release(t));
  }

  lemma SoloPublish(w: nat, c: C.State, t: nat, n: nat)
    requires SoloOk(w, c, t) && C.Size(c) + n < Pow2(w - 1)
    ensures var c' := C.Step(w, c, C.Publish(n));
      && SoloOk(w, c', t) && c'.pcs == c.pcs && c'.head == c.head && c'.tail == c.tail + n && Worth(c, t) <= Worth(c', t)
  {
    hide C.Inv;
    C.StepKeepsInv(w, c, C.Publish(n));
  }

  lemma SoloBegins(w: nat, c: C.State, t: nat)
    requires 1 <= w && C.Inv(c) && C.Size(c) < Pow2(w - 1) && t < |c.pcs| && forall u :: 0 <= u < |c.pcs| ==> c.pcs[u].Idle?
    ensures SoloOk(w, c, t)
  {
    C.CountsAgreeAtRest(c);
    C.ClaimsAreSound(c);
  }

  lemma SoloFresh(w: nat, threads: nat, t: nat)
    requires 1 <= w && t < threads
    ensures SoloOk(w, Fresh(threads), t) && C.Size(Fresh(threads)) == 0
  {
    C.IdleSums(Fresh(threads).pcs);
  }

  // ---- Alone in the whole queue ----

  ghost predicate AloneOk(w: nat, s: State, t: nat) {
    1 <= w && Ok(s) && t < |s.walks| && forall p :: 0 <= p < |s.producers| ==> SoloOk(w, s.producers[p], t)
  }

  // How much is in the first n producers.
  function There(producers: seq<C.State>, n: nat): int
    requires n <= |producers|
  {
    if n == 0 then 0 else There(producers, n - 1) + C.Size(producers[n - 1])
  }

  lemma {:induction false} ThereAfter(producers: seq<C.State>, n: nat, p: nat, c: C.State)
    requires n <= |producers| && p < |producers|
    ensures There(producers[p := c], n) == There(producers, n) + (if p < n then C.Size(c) - C.Size(producers[p]) else 0)
  {
    if 0 < n {
      ThereAfter(producers, n - 1, p, c);
    }
  }

  lemma {:induction false} TherePrefix(producers: seq<C.State>, more: seq<C.State>, n: nat)
    requires n <= |producers|
    ensures There(producers + more, n) == There(producers, n)
  {
    if 0 < n {
      TherePrefix(producers, more, n - 1);
    }
  }

  lemma {:induction false} ThereIsDifference(producers: seq<C.State>)
    ensures There(producers, |producers|) == Published(producers) - Claimed(producers)
  {
    if |producers| > 0 {
      var n := |producers| - 1;
      ThereIsDifference(producers[..n]);
      TherePrefix(producers[..n], [producers[n]], n);
      assert producers[..n] + [producers[n]] == producers;
    }
  }

  // The walk of thread t has been given all it wants, or the rest is certain to be met.
  ghost predicate Serves(s: State, t: nat)
    requires Shaped(s) && t < |s.walks|
  {
    match s.walks[t]
    case Scan(at, nonEmpty, best, _) => if 0 < nonEmpty then 1 <= C.Size(s.producers[best]) else 1 <= There(s.producers, at + 1)
    case Score(at, nonEmpty, best, _, tail) =>
      && s.producers[at].head <= tail <= s.producers[at].tail
      && if 0 < nonEmpty then 1 <= C.Size(s.producers[best])
         else 1 <= tail - s.producers[at].head + There(s.producers, at)
    case Best(best, false) => 1 <= C.Size(s.producers[best])
    case Best(best, true) => t < |s.producers[best].pcs| && 1 <= Worth(s.producers[best], t)
    case Bulk(at, max, count, false) => max <= count + There(s.producers, at + 1)
    case Bulk(at, max, count, true) =>
      t < |s.producers[at].pcs| && max <= count + Worth(s.producers[at], t) + There(s.producers, at)
    case Over(max, count) => count == max
    case _ => false
  }

  // Steps a walk still has to make, at most.
  function WalkLeft(s: State, t: nat): nat
    requires Shaped(s) && t < |s.walks|
  {
    match s.walks[t]
    case Scan(at, _, _, _) => 2 * at + 20
    case Score(at, _, _, _, _) => 2 * at + 19
    case Best(best, inside) => if inside && t < |s.producers[best].pcs| then C.Left(s.producers[best].pcs[t]) else 15
    case Bulk(at, _, _, inside) =>
      11 * (at + 1) + (if inside && t < |s.producers[at].pcs| then C.Left(s.producers[at].pcs[t]) - 10 else 1)
    case _ => 0
  }

  /** The score of a producer is the number of elements between the head and the tail it loaded, as long as they are fewer
      than half the word range. */
  lemma SizeApproxIsExact(w: nat, tail: nat, head: nat)
    requires 1 <= w && 0 <= tail - head < Pow2(w - 1)
    ensures SizeApprox(w, tail, head) == tail - head
  {
    CircularLessThanIsExact(w, head, tail);
    DivisionIsUnique(tail - head, Pow2(w), 0, tail - head);
  }

  // The scores of a walk that finds these sizes, each at the moment it looks.
  function Scoring(sizes: seq<nat>, at: int, nonEmpty: nat, best: nat, bestSize: nat): Walk
    requires -1 <= at < |sizes|
    decreases at + 1
  {
    if nonEmpty < 3 && 0 <= at then
      var next := Scored(sizes[at], at, nonEmpty, best, bestSize);
      Scoring(sizes, next.at, next.nonEmpty, next.best, next.bestSize)
    else Scan(at, nonEmpty, best, bestSize)
  }

  // What a walk that has looked at the producers after `at` has found so far.
  predicate BestSoFar(sizes: seq<nat>, at: int, nonEmpty: nat, best: nat, bestSize: nat)
    requires -1 <= at < |sizes|
  {
    if nonEmpty == 0 then bestSize == 0 && forall p :: at < p < |sizes| ==> sizes[p] == 0
    else
      && at < best < |sizes| && sizes[best] == bestSize && 0 < bestSize
      && (forall p :: at < p < |sizes| ==> sizes[p] <= bestSize)
      && (forall p :: best < p < |sizes| ==> sizes[p] < bestSize)
  }

  lemma {:induction false} ScoringKeepsBest(sizes: seq<nat>, at: int, nonEmpty: nat, best: nat, bestSize: nat)
    requires -1 <= at < |sizes| && BestSoFar(sizes, at, nonEmpty, best, bestSize) && nonEmpty <= 3
    ensures var end := Scoring(sizes, at, nonEmpty, best, bestSize);
      && end.Scan? && -1 <= end.at < |sizes| && BestSoFar(sizes, end.at, end.nonEmpty, end.best, end.bestSize)
      && (end.nonEmpty == 3 || end.at == -1)
    decreases at + 1
  {
    if nonEmpty < 3 && 0 <= at {
      var next := Scored(sizes[at], at, nonEmpty, best, bestSize);
      ScoringKeepsBest(sizes, next.at, next.nonEmpty, next.best, next.bestSize);
    }
  }

  /** The walk of a try_dequeue goes first to the producer it found the most elements in, the newest of these, among the
      producers up to the third that was not empty; it goes to none only if it found all of them empty. */
  lemma LargestIsBest(sizes: seq<nat>)
    ensures var end := Scoring(sizes, |sizes| - 1, 0, 0, 0);
      && end.Scan? && -1 <= end.at < |sizes|
      && (end.nonEmpty == 0 ==> forall p :: 0 <= p < |sizes| ==> sizes[p] == 0)
      && (0 < end.nonEmpty ==>
            && end.at < end.best < |sizes| && 0 < sizes[end.best]
            && (forall p :: end.at < p < |sizes| ==> sizes[p] <= sizes[end.best])
            && (forall p :: end.best < p < |sizes| ==> sizes[p] < sizes[end.best]))
      && (end.nonEmpty == 3 || end.at == -1)
  {
    ScoringKeepsBest(sizes, |sizes| - 1, 0, 0, 0);
  }

  // After a change of the one producer the walk of thread t is at.
  lemma OneSoloMoves(w: nat, s: State, t: nat, p: nat, c: C.State, s': State)
    requires AloneOk(w, s, t) && p < |s.producers| && SoloOk(w, c, t) && Ok(s') && |s'.walks| == |s.walks|
    requires s'.producers == s.producers[p := c]
    ensures AloneOk(w, s', t)
    ensures forall n: nat :: n <= p ==> There(s'.producers, n) == There(s.producers, n)
  {
    forall n: nat | n <= p ensures There(s'.producers, n) == There(s.producers, n) {
      ThereAfter(s.producers, n, p, c);
    }
  }

  // A step inside the dequeue of producer p: on in it, or out of it with k elements.
  ghost predicate InsideStep(s: State, s': State, t: nat, p: nat)
    requires t < |s.walks| && p < |s.producers| && t < |s.producers[p].pcs| && Inside(s.walks[t]).Some?
  {
    var c := s.producers[p];
    && |s'.walks| == |s.walks| && |s'.producers| == |s.producers| && t < |s'.producers[p].pcs|
    && if c.pcs[t].Idle? || c.pcs[t].Claimed? then s'.walks[t] == Onward(s.walks[t], |s.producers|, Worth(c, t))
       else
         s'.walks[t] == s.walks[t] && Worth(c, t) <= Worth(s'.producers[p], t)
         && C.Left(s'.producers[p].pcs[t]) < C.Left(c.pcs[t])
  }

  lemma InsideStepServes(s: State, s': State, t: nat, p: nat)
    requires Shaped(s) && Shaped(s') && t < |s.walks| && p < |s.producers| && t < |s.producers[p].pcs|
    requires Inside(s.walks[t]) == Some(p) && Serves(s, t) && InsideStep(s, s', t, p)
    requires forall n: nat :: n <= p ==> There(s'.producers, n) == There(s.producers, n)
    ensures Serves(s', t) && WalkLeft(s', t) < WalkLeft(s, t)
  {
    hide There;
    if !s.producers[p].pcs[t].Idle? && !s.producers[p].pcs[t].Claimed? {
      hide Worth, C.Left;
    }
  }

  lemma InsideSteps(w: nat, s: State, t: nat, p: nat)
    requires AloneOk(w, s, t) && Inside(s.walks[t]) == Some(p)
    ensures Shaped(s) && p < |s.producers| && t < |s.producers[p].pcs| && Enabled(w, s, Go(t))
    ensures var s' := Step(w, s, Go(t));
      && InsideStep(s, s', t, p) && s'.producers == s.producers[p := s'.producers[p]] && SoloOk(w, s'.producers[p], t)
  {
    hide C.Step, C.Enabled, Ok, Worth, C.Left;
    OkIsShaped(s);
    var c := s.producers[p];
    assert SoloOk(w, c, t);
    if c.pcs[t].Claimed? {
      SoloRelease(w, c, t);
      AdvanceIsEnabled(c, t);
    } else if !c.pcs[t].Idle? {
      SoloStep(w, c, t);
    } else {
      AdvanceIsEnabled(c, t);
    }
    hide SoloOk;
    WorthOfEnd(c, t);
  }

  lemma WorthOfEnd(c: C.State, t: nat)
    requires t < |c.pcs|
    ensures c.pcs[t].Idle? ==> Worth(c, t) == 0
    ensures c.pcs[t].Claimed? ==> Worth(c, t) == c.pcs[t].count
  {}

  lemma InsideServes(w: nat, s: State, t: nat, p: nat)
    requires AloneOk(w, s, t) && Serves(s, t) && Inside(s.walks[t]) == Some(p)
    ensures Enabled(w, s, Go(t))
    ensures var s' := Step(w, s, Go(t)); AloneOk(w, s', t) && Serves(s', t) && WalkLeft(s', t) < WalkLeft(s, t)
  {
    hide Step, Enabled, SoloOk, Serves, WalkLeft, InsideStep, WalkOk;
    InsideSteps(w, s, t, p);
    var s' := Step(w, s, Go(t));
    GoKeepsOk(w, s, t);
    OneSoloMoves(w, s, t, p, s'.producers[p], s');
    InsideStepServes(s, s', t, p);
  }

  // What a step owes the walk.
  ghost predicate ServesOn(w: nat, s: State, t: nat, s': State) {
    && Ok(s) && t < |s.walks| && AloneOk(w, s', t) && Serves(s', t) && WalkLeft(s', t) < WalkLeft(s, t)
  }

  lemma AdvanceIsEnabled(c: C.State, t: nat)
    requires t < |c.pcs| && !c.pcs[t].Decide?
    ensures C.Enabled(c, C.Advance(t))
  {}

  lemma ScanServes(w: nat, s: State, t: nat)
    requires AloneOk(w, s, t) && Serves(s, t) && (s.walks[t].Scan? || s.walks[t].Score?)
    requires Enabled(w, s, Go(t)) && Ok(Step(w, s, Go(t)))
    ensures ServesOn(w, s, t, Step(w, s, Go(t)))
  {
    hide C.Step, SizeApprox, WalkOk, SoloOk, Enter, GoInside;
    var at := s.walks[t].at;
    if 0 <= at {
      SoloSize(w, s, t, at);
      if s.walks[t].Score? {
        SizeApproxIsExact(w, s.walks[t].tail, s.producers[at].head);
      }
    }
  }

  lemma SoloSize(w: nat, s: State, t: nat, p: nat)
    requires AloneOk(w, s, t) && p < |s.producers|
    ensures SoloOk(w, s.producers[p], t) && 0 <= C.Size(s.producers[p]) < Pow2(w - 1)
  {}

  lemma {:induction false} ThereIsNonNegative(w: nat, s: State, t: nat, n: nat)
    requires AloneOk(w, s, t) && n <= |s.producers|
    ensures 0 <= There(s.producers, n)
  {
    if 0 < n {
      SoloSize(w, s, t, n - 1);
      ThereIsNonNegative(w, s, t, n - 1);
    }
  }

  lemma EnterServes(w: nat, s: State, t: nat, p: nat, max: nat, walk: Walk)
    requires AloneOk(w, s, t) && Serves(s, t) && p < |s.producers| && s.producers[p].pcs[t].Idle? && 1 <= max
    requires (s.walks[t] == Best(p, false) && walk == Best(p, true) && max == 1)
          || (s.walks[t].Bulk? && max == s.walks[t].max - s.walks[t].count
              && s.walks[t] == Bulk(p, s.walks[t].max, s.walks[t].count, false)
              && walk == Bulk(p, s.walks[t].max, s.walks[t].count, true))
    requires Ok(Enter(w, s, t, p, max, walk))
    ensures ServesOn(w, s, t, Enter(w, s, t, p, max, walk))
  {
    hide C.Step, Ok, WalkOk;
    OkIsShaped(s);
    SoloSize(w, s, t, p);
    SoloStart(w, s.producers[p], t, max);
    ThereIsNonNegative(w, s, t, p);
    hide SoloOk;
    var s' := Enter(w, s, t, p, max, walk);
    OkIsShaped(s');
    OneSoloMoves(w, s, t, p, s'.producers[p], s');
  }

  lemma OutsideServes(w: nat, s: State, t: nat)
    requires AloneOk(w, s, t) && Serves(s, t) && Inside(s.walks[t]).None? && !s.walks[t].Rest? && !s.walks[t].Over?
    ensures Enabled(w, s, Go(t)) && ServesOn(w, s, t, Step(w, s, Go(t)))
  {
    hide C.Step, SizeApprox, SoloOk, Enter, GoInside;
    assert WalkOk(s, t);
    GoKeepsOk(w, s, t);
    hide Ok, WalkOk;
    OkIsShaped(s);
    match s.walks[t] {
      case Scan(_, _, _, _) => ScanServes(w, s, t);
      case Score(_, _, _, _, _) => ScanServes(w, s, t);
      case Best(best, _) => EnterServes(w, s, t, best, 1, Best(best, true));
      case Bulk(at, max, count, _) =>
        if 0 <= at {
          EnterServes(w, s, t, at, max - count, Bulk(at, max, count, true));
        }
      case _ =>
    }
  }

  /** A step of the walk, alone, comes closer to giving it all it wants. */
  lemma GoServes(w: nat, s: State, t: nat)
    requires AloneOk(w, s, t) && Serves(s, t) && !s.walks[t].Rest? && !s.walks[t].Over?
    ensures Enabled(w, s, Go(t)) && ServesOn(w, s, t, Step(w, s, Go(t)))
  {
    hide Step, SoloOk, WalkOk;
    if Inside(s.walks[t]).Some? {
      InsideServes(w, s, t, Inside(s.walks[t]).value);
    } else {
      OutsideServes(w, s, t);
    }
  }

  // With more in one producer no less is certain.
  lemma MoreServes(s: State, s': State, t: nat, p: nat)
    requires Shaped(s) && Shaped(s') && t < |s.walks| && s'.walks == s.walks && p < |s.producers|
    requires |s'.producers| == |s.producers| && s'.producers == s.producers[p := s'.producers[p]]
    requires s'.producers[p].pcs == s.producers[p].pcs
    requires s'.producers[p].head == s.producers[p].head && s.producers[p].tail <= s'.producers[p].tail
    requires t < |s.producers[p].pcs| && Worth(s.producers[p], t) <= Worth(s'.producers[p], t)
    requires forall m: nat :: m <= |s.producers| ==> There(s.producers, m) <= There(s'.producers, m)
    requires Serves(s, t)
    ensures Serves(s', t) && WalkLeft(s', t) <= WalkLeft(s, t)
  {
    hide Worth, There;
  }

  // An enqueue only adds to what is certain.
  lemma PublishServes(w: nat, s: State, t: nat, p: nat, n: nat)
    requires AloneOk(w, s, t) && Serves(s, t) && Enabled(w, s, Publish(p, n))
    ensures var s' := Step(w, s, Publish(p, n));
      AloneOk(w, s', t) && Serves(s', t) && WalkLeft(s', t) <= WalkLeft(s, t)
  {
    hide C.Step, WalkOk, Serves, WalkLeft, Worth;
    PublishKeepsOk(w, s, p, n);
    SoloSize(w, s, t, p);
    SoloPublish(w, s.producers[p], t, n);
    var s' := Step(w, s, Publish(p, n));
    OkIsShaped(s');
    hide SoloOk, Ok;
    OneSoloMoves(w, s, t, p, s'.producers[p], s');
    forall m: nat | m <= |s.producers| ensures There(s.producers, m) <= There(s'.producers, m) {
      ThereAfter(s.producers, m, p, s'.producers[p]);
    }
    hide AloneOk, There, Worth, Shaped;
    MoreServes(s, s', t, p);
  }

  lemma AddProducerServes(w: nat, s: State, t: nat)
    requires AloneOk(w, s, t) && Serves(s, t)
    ensures var s' := Step(w, s, AddProducer);
      AloneOk(w, s', t) && Serves(s', t) && WalkLeft(s', t) <= WalkLeft(s, t)
  {
    hide WalkOk;
    AddProducerKeepsOk(w, s);
    SoloFresh(w, |s.walks|, t);
    hide SoloOk, Ok;
    var s' := Step(w, s, AddProducer);
    forall m: nat | m <= |s.producers| ensures There(s'.producers, m) == There(s.producers, m) {
      TherePrefix(s.producers, [Fresh(|s.walks|)], m);
    }
  }

  // The start of a walk for no more than is there.
  lemma BeginServes(w: nat, s: State, t: nat, max: nat, bulk: bool)
    requires AloneOk(w, s, t) && Enabled(w, s, Begin(t, max, bulk)) && max <= Published(s.producers) - Claimed(s.producers)
    ensures var s' := Step(w, s, Begin(t, max, bulk));
      AloneOk(w, s', t) && Serves(s', t)
  {
    hide WalkOk, SoloOk;
    CallKeepsOk(w, s, Begin(t, max, bulk));
    ThereIsDifference(s.producers);
  }
}
