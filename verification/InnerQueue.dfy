/** The queue inside the blocking queue: a list of producers and the walks of the dequeues without a token, step by step
    and over the claim protocol of each producer. Producers are numbered by age; a walk begins with the newest. */
module InnerQueue {
  import opened Common
  import opened Words
  import C = DequeueClaims

  // Where a thread stands in try_dequeue (Scan, Score, Best, Others) or try_dequeue_bulk (Bulk). at: the producer it is
  // about to look at, -1 after the last; tail: the first of the two loads of that producer's size_approx; inside: whether
  // it is inside that producer's dequeue.
  datatype Walk =
    | Rest
    | Scan(at: int, nonEmpty: nat, best: nat, bestSize: nat)
    | Score(at: int, nonEmpty: nat, best: nat, bestSize: nat, tail: nat)
    | Best(best: nat, inside: bool)
    | Others(at: int, best: nat, inside: bool)
    | Bulk(at: int, max: nat, count: nat, inside: bool)
    | Over(max: nat, count: nat)

  datatype State = State(producers: seq<C.State>, walks: seq<Walk>)

  datatype Action =
    | AddProducer
    | Publish(producer: nat, n: nat)
    | Begin(thread: nat, max: nat, bulk: bool)
    | Go(thread: nat)
    | End(thread: nat)

  // What size_approx makes, on words, of the tail and the head it loaded.
  function SizeApprox(w: nat, tail: nat, head: nat): nat
    requires 1 <= w
  {
    if CircularLessThan(w, Wrap(w, head), Wrap(w, tail)) then Wrap(w, tail - head) else 0
  }

  // The producer whose dequeue a walk is inside of.
  function Inside(walk: Walk): Option<int> {
    match walk
    case Best(best, true) => Some(best)
    case Others(at, _, true) => Some(at)
    case Bulk(at, _, _, true) => Some(at)
    case _ => None
  }

  // How many elements the walk is for.
  function Wanted(walk: Walk): nat {
    match walk
    case Bulk(_, max, _, _) => max
    case Over(max, _) => max
    case _ => 1
  }

  predicate Shaped(s: State) {
    && (forall p :: 0 <= p < |s.producers| ==> |s.producers[p].pcs| == |s.walks|)
    && forall t :: 0 <= t < |s.walks| ==> InRange(s.walks[t], |s.producers|)
  }

  predicate InRange(walk: Walk, producers: nat) {
    match walk
    case Scan(at, nonEmpty, best, bestSize) =>
      -1 <= at < producers && (if 0 < nonEmpty then best < producers else bestSize == 0)
    case Score(at, nonEmpty, best, bestSize, _) =>
      0 <= at < producers && (if 0 < nonEmpty then best < producers else bestSize == 0)
    case Best(best, _) => best < producers
    case Others(at, _, inside) => -1 <= at < producers && (inside ==> 0 <= at)
    case Bulk(at, max, count, inside) => -1 <= at < producers && (inside ==> 0 <= at) && count < max
    case _ => true
  }

  predicate Enabled(w: nat, s: State, a: Action) {
    && 1 <= w && Shaped(s)
    && match a
       case AddProducer => true
       // A producer accepts elements only while fewer than half the word range are in it.
       case Publish(p, n) => p < |s.producers| && C.Size(s.producers[p]) + n < Pow2(w - 1)
       case Begin(t, max, bulk) => t < |s.walks| && s.walks[t].Rest? && 1 <= max && (!bulk ==> max == 1)
                                   && forall p :: 0 <= p < |s.producers| ==> s.producers[p].pcs[t].Idle?
       case Go(t) => t < |s.walks| && !s.walks[t].Rest? && !s.walks[t].Over? && CanGo(s, t)
       case End(t) => t < |s.walks| && s.walks[t].Over?
  }

  // The protocol of the producer it is inside of, or about to enter, has a step for it.
  predicate CanGo(s: State, t: nat)
    requires Shaped(s) && t < |s.walks|
  {
    match Inside(s.walks[t])
    case Some(p) => C.Enabled(s.producers[p], C.Advance(t))
    case None => forall p :: 0 <= p < |s.producers| ==> s.producers[p].pcs[t].Idle?
  }

  function Fresh(threads: nat): C.State { C.State(0, 0, 0, 0, seq(threads, _ => C.Idle), []) }

  // Where a walk goes that has been given k elements by the producer it was inside of.
  function Onward(walk: Walk, producers: nat, k: nat): Walk
    requires Inside(walk).Some?
  {
    match walk
    case Best(best, _) => if 0 < k then Over(1, 1) else Others(producers - 1, best, false)
    case Others(at, best, _) => if 0 < k then Over(1, 1) else Others(at - 1, best, false)
    case Bulk(at, max, count, _) =>
      if count + k == max then Over(max, max) else Bulk(at - 1, max, count + k, false)
  }

  // One access inside the dequeue of producer p.
  function GoInside(w: nat, s: State, t: nat, p: nat): State
    requires 1 <= w && Shaped(s) && t < |s.walks| && p < |s.producers| && Inside(s.walks[t]) == Some(p)
    requires C.Enabled(s.producers[p], C.Advance(t))
  {
    var c := s.producers[p];
    match c.pcs[t]
    case Idle => s.(walks := s.walks[t := Onward(s.walks[t], |s.producers|, 0)])
    case Claimed(_, k) =>
      State(s.producers[p := C.Step(w, c, C.Release(t))], s.walks[t := Onward(s.walks[t], |s.producers|, k)])
    case _ => s.(producers := s.producers[p := C.Step(w, c, C.Advance(t))])
  }

  function Enter(w: nat, s: State, t: nat, p: nat, max: nat, walk: Walk): State
    requires 1 <= w && Shaped(s) && t < |s.walks| && p < |s.producers| && s.producers[p].pcs[t].Idle? && 1 <= max
  {
    State(s.producers[p := C.Step(w, s.producers[p], C.Start(t, max))], s.walks[t := walk])
  }

  // The next step of a walk.
  function Walked(w: nat, s: State, t: nat): State
    requires Enabled(w, s, Go(t))
  {
    var producers := s.producers;
    if Inside(s.walks[t]).Some? then GoInside(w, s, t, Inside(s.walks[t]).value)
    else
      match s.walks[t]
      case Scan(at, nonEmpty, best, bestSize) =>
        s.(walks := s.walks[t :=
          if nonEmpty < 3 && 0 <= at then Score(at, nonEmpty, best, bestSize, producers[at].tail)
          else if 0 < nonEmpty then Best(best, false)
          else Over(1, 0)])
      case Score(at, nonEmpty, best, bestSize, tail) =>
        s.(walks := s.walks[t := Scored(SizeApprox(w, tail, producers[at].head), at, nonEmpty, best, bestSize)])
      case Best(best, _) => Enter(w, s, t, best, 1, Best(best, true))
      case Others(at, best, _) =>
        if at < 0 then s.(walks := s.walks[t := Over(1, 0)])
        else if at == best then s.(walks := s.walks[t := Others(at - 1, best, false)])
        else Enter(w, s, t, at, 1, Others(at, best, true))
      case Bulk(at, max, count, _) =>
        if at < 0 then s.(walks := s.walks[t := Over(max, count)])
        else Enter(w, s, t, at, max - count, Bulk(at, max, count, true))
      case _ => s
  }

  // The score of producer `at`: the largest of the first three that are not empty wins.
  function Scored(size: nat, at: nat, nonEmpty: nat, best: nat, bestSize: nat): Walk {
    if size == 0 then Scan(at - 1, nonEmpty, best, bestSize)
    else if bestSize < size then Scan(at - 1, nonEmpty + 1, at, size)
    else Scan(at - 1, nonEmpty + 1, best, bestSize)
  }

  function Step(w: nat, s: State, a: Action): State
    requires Enabled(w, s, a)
  {
    match a
    case AddProducer => s.(producers := s.producers + [Fresh(|s.walks|)])
    case Publish(p, n) => s.(producers := s.producers[p := C.Step(w, s.producers[p], C.Publish(n))])
    case Begin(t, max, bulk) =>
      s.(walks := s.walks[t := if bulk then Bulk(|s.producers| - 1, max, 0, false) else Scan(|s.producers| - 1, 0, 0, 0)])
    case Go(t) => Walked(w, s, t)
    case End(t) => s.(walks := s.walks[t := Rest])
  }

  // ---- What is there and what has been claimed ----

  function Published(producers: seq<C.State>): nat {
    if |producers| == 0 then 0 else Published(producers[..|producers| - 1]) + producers[|producers| - 1].tail
  }

  function Claimed(producers: seq<C.State>): nat {
    if |producers| == 0 then 0 else Claimed(producers[..|producers| - 1]) + producers[|producers| - 1].head
  }

  // What thread t has been given in its present walk.
  function Got(s: State, t: nat): nat
    requires Shaped(s) && t < |s.walks|
  {
    var here := match Inside(s.walks[t])
      case Some(p) => if s.producers[p].pcs[t].Claimed? then s.producers[p].pcs[t].count else 0
      case None => 0;
    match s.walks[t]
    case Bulk(_, _, count, _) => count + here
    case Over(_, count) => count
    case _ => here
  }

  lemma {:induction false} OneProducerMoves(producers: seq<C.State>, p: nat, c: C.State)
    requires p < |producers|
    ensures Published(producers[p := c]) == Published(producers) - producers[p].tail + c.tail
    ensures Claimed(producers[p := c]) == Claimed(producers) - producers[p].head + c.head
  {
    var n := |producers| - 1;
    if p == n {
      assert producers[p := c][..n] == producers[..n];
    } else {
      assert producers[p := c][..n] == producers[..n][p := c];
      OneProducerMoves(producers[..n], p, c);
    }
  }

  // ---- What every walk keeps, alone or not ----

  // A producer gives its dequeue no more than it was asked for, and not nothing.
  predicate Bounded(pc: C.Pc, max: nat) {
    match pc
    case Idle => true
    case LoadTail(m) => 1 <= m <= max
    case LoadOvercommit(m, _) => 1 <= m <= max
    case LoadOptimistic(m, _, _) => 1 <= m <= max
    case AddOptimistic(desired, _) => 1 <= desired <= max
    case Decide(desired, _, _) => 1 <= desired <= max
    case AddOvercommit(_, count) => count <= max
    case AddHead(count) => 1 <= count <= max
    case Claimed(_, count) => 1 <= count <= max
  }

  ghost predicate WalkOk(s: State, t: nat)
    requires Shaped(s) && t < |s.walks|
  {
    var walk := s.walks[t];
    && (forall p :: 0 <= p < |s.producers| && Inside(walk) != Some(p) ==> s.producers[p].pcs[t].Idle?)
    && (match Inside(walk)
        case Some(p) => Bounded(s.producers[p].pcs[t], Wanted(walk) - (if walk.Bulk? then walk.count else 0))
        case None => true)
    && (walk.Over? ==> walk.count <= walk.max)
  }

  ghost predicate Ok(s: State) { Shaped(s) && forall t :: 0 <= t < |s.walks| ==> WalkOk(s, t) }

  lemma OkIsShaped(s: State)
    requires Ok(s)
    ensures Shaped(s)
  {}

  lemma ClaimStepBounded(w: nat, c: C.State, t: nat, max: nat)
    requires 1 <= w && C.Enabled(c, C.Advance(t)) && Bounded(c.pcs[t], max) && !c.pcs[t].Idle? && !c.pcs[t].Claimed?
    ensures var c' := C.Step(w, c, C.Advance(t));
      && |c'.pcs| == |c.pcs| && c'.tail == c.tail && c'.pcs == c.pcs[t := c'.pcs[t]] && Bounded(c'.pcs[t], max)
      && c'.head - c.head == (if c'.pcs[t].Claimed? then c'.pcs[t].count else 0)
  {
    var pc := c.pcs[t];
    if pc.LoadOptimistic? {
      var available := C.Available(w, pc.tail, c.optimistic, pc.overcommit);
      if C.Positive(w, available) {
        C.PositiveIsNotZero(w, available);
      }
    } else if pc.Decide? {
      var available := C.Available(w, c.tail, pc.mine, pc.overcommit);
      if C.Positive(w, available) {
        C.PositiveIsNotZero(w, available);
      }
    }
  }

  // Whoever does not walk is left where it was.
  lemma OthersKeepWalk(s: State, s': State, t: nat, u: nat, p: nat)
    requires Shaped(s) && Shaped(s') && t < |s.walks| && u < |s.walks| && u != t && WalkOk(s, u) && p < |s.producers|
    requires |s'.producers| == |s.producers| && |s'.walks| == |s.walks| && s'.walks[u] == s.walks[u]
    requires s'.producers == s.producers[p := s'.producers[p]] && s'.producers[p].pcs[u] == s.producers[p].pcs[u]
    ensures WalkOk(s', u) && Got(s', u) == Got(s, u)
  {}

  // A step of a walk that leaves the producers alone.
  lemma WalkOnlyKeepsOk(s: State, t: nat, walk: Walk)
    requires Ok(s) && t < |s.walks| && InRange(walk, |s.producers|)
    requires forall p :: 0 <= p < |s.producers| ==> s.producers[p].pcs[t].Idle?
    requires walk.Over? ==> walk.count <= walk.max
    ensures Ok(s.(walks := s.walks[t := walk]))
    ensures forall u :: 0 <= u < |s.walks| && u != t ==> Got(s.(walks := s.walks[t := walk]), u) == Got(s, u)
  {
    var s' := s.(walks := s.walks[t := walk]);
    forall u | 0 <= u < |s.walks| ensures WalkOk(s', u) {
      assert WalkOk(s, u);
    }
  }

  // A step of a walk in one producer.
  lemma ProducerStepKeepsOk(s: State, t: nat, p: nat, c: C.State, walk: Walk)
    requires Ok(s) && t < |s.walks| && p < |s.producers| && InRange(walk, |s.producers|)
    requires |c.pcs| == |s.walks| && c.pcs == s.producers[p].pcs[t := c.pcs[t]] && c.tail == s.producers[p].tail
    requires Shaped(State(s.producers[p := c], s.walks[t := walk])) ==>
      WalkOk(State(s.producers[p := c], s.walks[t := walk]), t)
    ensures var s' := State(s.producers[p := c], s.walks[t := walk]);
      && Ok(s') && Claimed(s'.producers) - Claimed(s.producers) == c.head - s.producers[p].head
      && Published(s'.producers) == Published(s.producers)
      && forall u :: 0 <= u < |s.walks| && u != t ==> Got(s', u) == Got(s, u)
  {
    var s' := State(s.producers[p := c], s.walks[t := walk]);
    OneProducerMoves(s.producers, p, c);
    forall u | 0 <= u < |s.walks| ensures WalkOk(s', u) && (u != t ==> Got(s', u) == Got(s, u)) {
      if u != t {
        assert WalkOk(s, u);
        OthersKeepWalk(s, s', t, u, p);
      }
    }
  }

  // What a step of thread t's walk does to the counts: what leaves the producers is what t is given.
  ghost predicate WalksOn(s: State, s': State, t: nat) {
    && Shaped(s) && t < |s.walks| && Ok(s') && |s'.walks| == |s.walks|
    && Published(s'.producers) == Published(s.producers)
    && Claimed(s'.producers) - Claimed(s.producers) == Got(s', t) - Got(s, t)
    && Wanted(s'.walks[t]) == Wanted(s.walks[t]) && !s'.walks[t].Rest?
    && forall u :: 0 <= u < |s.walks| && u != t ==> Got(s', u) == Got(s, u) && s'.walks[u] == s.walks[u]
  }

  lemma LeaveKeepsOk(w: nat, s: State, t: nat, p: nat)
    requires Ok(s) && Enabled(w, s, Go(t)) && Inside(s.walks[t]) == Some(p)
    requires s.producers[p].pcs[t].Idle? || s.producers[p].pcs[t].Claimed?
    ensures WalksOn(s, GoInside(w, s, t, p), t)
  {
    assert WalkOk(s, t);
    var c := s.producers[p];
    var s' := GoInside(w, s, t, p);
    if c.pcs[t].Idle? {
      WalkOnlyKeepsOk(s, t, s'.walks[t]);
    } else {
      ProducerStepKeepsOk(s, t, p, s'.producers[p], s'.walks[t]);
    }
  }

  lemma AdvanceKeepsOk(w: nat, s: State, t: nat, p: nat)
    requires Ok(s) && Enabled(w, s, Go(t)) && Inside(s.walks[t]) == Some(p)
    requires !s.producers[p].pcs[t].Idle? && !s.producers[p].pcs[t].Claimed?
    ensures WalksOn(s, GoInside(w, s, t, p), t)
  {
    hide C.Step, Bounded;
    assert WalkOk(s, t);
    var c, walk := s.producers[p], s.walks[t];
    var s' := GoInside(w, s, t, p);
    ClaimStepBounded(w, c, t, Wanted(walk) - (if walk.Bulk? then walk.count else 0));
    assert s.walks[t := walk] == s.walks;
    ProducerStepKeepsOk(s, t, p, s'.producers[p], walk);
  }

  lemma EnterKeepsOk(w: nat, s: State, t: nat, p: nat, max: nat, walk: Walk)
    requires Ok(s) && 1 <= w && t < |s.walks| && p < |s.producers| && Inside(s.walks[t]).None? && 1 <= max
    requires Inside(walk) == Some(p) && InRange(walk, |s.producers|) && Wanted(walk) == Wanted(s.walks[t])
    requires max == Wanted(walk) - (if walk.Bulk? then walk.count else 0) && !s.walks[t].Over?
    requires (walk.Bulk? <==> s.walks[t].Bulk?) && (walk.Bulk? ==> walk.count == s.walks[t].count)
    ensures s.producers[p].pcs[t].Idle? && WalksOn(s, Enter(w, s, t, p, max, walk), t)
  {
    assert WalkOk(s, t);
    ProducerStepKeepsOk(s, t, p, Enter(w, s, t, p, max, walk).producers[p], walk);
  }

  lemma GoKeepsOk(w: nat, s: State, t: nat)
    requires Ok(s) && Enabled(w, s, Go(t))
    ensures WalksOn(s, Step(w, s, Go(t)), t)
  {
    hide Enter, WalksOn, C.Step, GoInside, SizeApprox;
    assert WalkOk(s, t);
    var walk := s.walks[t];
    if Inside(walk).Some? {
      var p := Inside(walk).value;
      if s.producers[p].pcs[t].Idle? || s.producers[p].pcs[t].Claimed? {
        LeaveKeepsOk(w, s, t, p);
      } else {
        AdvanceKeepsOk(w, s, t, p);
      }
    } else {
      match walk
      case Best(best, _) => EnterKeepsOk(w, s, t, best, 1, Best(best, true));
      case Bulk(at, max, count, _) =>
        if 0 <= at {
          EnterKeepsOk(w, s, t, at, max - count, Bulk(at, max, count, true));
        } else {
          TurnKeepsOk(s, t, Over(max, count));
        }
      case Others(at, best, _) =>
        if 0 <= at && at != best {
          EnterKeepsOk(w, s, t, at, 1, Others(at, best, true));
        } else {
          TurnKeepsOk(s, t, if at < 0 then Over(1, 0) else Others(at - 1, best, false));
        }
      case Scan(_, _, _, _) => TurnKeepsOk(s, t, Step(w, s, Go(t)).walks[t]);
      case Score(_, _, _, _, _) => TurnKeepsOk(s, t, Step(w, s, Go(t)).walks[t]);
    }
  }

  lemma TurnKeepsOk(s: State, t: nat, walk: Walk)
    requires Ok(s) && t < |s.walks| && InRange(walk, |s.producers|) && Inside(s.walks[t]).None? && Inside(walk).None?
    requires !walk.Rest? && Wanted(walk) == Wanted(s.walks[t]) && (walk.Over? ==> walk.count <= walk.max)
    requires (match walk case Bulk(_, _, count, _) => count case Over(_, count) => count case _ => 0)
             == (match s.walks[t] case Bulk(_, _, count, _) => count case Over(_, count) => count case _ => 0)
    ensures WalksOn(s, s.(walks := s.walks[t := walk]), t)
  {
    assert WalkOk(s, t);
    WalkOnlyKeepsOk(s, t, walk);
  }

  lemma {:induction false} OneProducerMore(producers: seq<C.State>, c: C.State)
    ensures Published(producers + [c]) == Published(producers) + c.tail
    ensures Claimed(producers + [c]) == Claimed(producers) + c.head
  {
    assert (producers + [c])[..|producers|] == producers;
  }

  lemma AddProducerKeepsOk(w: nat, s: State)
    requires Ok(s) && 1 <= w
    ensures var s' := Step(w, s, AddProducer);
      && Ok(s') && s'.walks == s.walks
      && Published(s'.producers) == Published(s.producers) && Claimed(s'.producers) == Claimed(s.producers)
      && forall u :: 0 <= u < |s.walks| ==> Got(s', u) == Got(s, u)
  {
    var s' := Step(w, s, AddProducer);
    OneProducerMore(s.producers, Fresh(|s.walks|));
    forall u | 0 <= u < |s.walks| ensures WalkOk(s', u) && Got(s', u) == Got(s, u) {
      assert WalkOk(s, u);
    }
  }

  lemma PublishKeepsOk(w: nat, s: State, p: nat, n: nat)
    requires Ok(s) && Enabled(w, s, Publish(p, n))
    ensures var s' := Step(w, s, Publish(p, n));
      && Ok(s') && s'.walks == s.walks
      && Published(s'.producers) == Published(s.producers) + n && Claimed(s'.producers) == Claimed(s.producers)
      && forall u :: 0 <= u < |s.walks| ==> Got(s', u) == Got(s, u)
  {
    var s' := Step(w, s, Publish(p, n));
    OneProducerMoves(s.producers, p, s'.producers[p]);
    forall u | 0 <= u < |s.walks| ensures WalkOk(s', u) && Got(s', u) == Got(s, u) {
      assert WalkOk(s, u);
    }
  }

  lemma CallKeepsOk(w: nat, s: State, a: Action)
    requires Ok(s) && Enabled(w, s, a) && (a.Begin? || a.End?)
    ensures var s' := Step(w, s, a);
      && Ok(s') && s'.producers == s.producers && |s'.walks| == |s.walks|
      && forall u :: 0 <= u < |s.walks| && u != a.thread ==> Got(s', u) == Got(s, u) && s'.walks[u] == s.walks[u]
  {
    var s' := Step(w, s, a);
    forall u | 0 <= u < |s.walks| ensures WalkOk(s', u) {
      assert WalkOk(s, u);
    }
  }

  // ---- What a step does to the claims of one producer ----

  // What a step of the inner queue does to one producer: nothing, or one step of its claim protocol.
  function ClaimStep(s: State, a: Action, p: nat): Option<C.Action>
    requires Shaped(s) && p < |s.producers|
  {
    match a
    case Publish(q, n) => if q == p then Some(C.Publish(n)) else None
    case Go(t) =>
      if |s.walks| <= t then None
      else
        (match Inside(s.walks[t])
         case Some(q) =>
           if q != p || s.producers[p].pcs[t].Idle? then None
           else if s.producers[p].pcs[t].Claimed? then Some(C.Release(t))
           else Some(C.Advance(t))
         case None =>
           match s.walks[t]
           case Best(best, _) => if best == p then Some(C.Start(t, 1)) else None
           case Others(at, best, _) => if at == p && at != best then Some(C.Start(t, 1)) else None
           case Bulk(at, max, count, _) => if at == p && count < max then Some(C.Start(t, max - count)) else None
           case _ => None)
    case _ => None
  }

  lemma ClaimStepIsTaken(w: nat, s: State, a: Action, p: nat)
    requires Enabled(w, s, a) && p < |s.producers|
    ensures Shaped(s) && p < |Step(w, s, a).producers|
    ensures match ClaimStep(s, a, p)
      case Some(c) =>
        && C.Enabled(s.producers[p], c) && Step(w, s, a).producers[p] == C.Step(w, s.producers[p], c)
        && (c.Publish? ==> C.Size(s.producers[p]) + c.count < Pow2(w - 1))
      case None => Step(w, s, a).producers[p] == s.producers[p]
  {
    hide SizeApprox, C.Perform;
  }

  lemma NewProducerIsFresh(w: nat, s: State, a: Action, p: nat)
    requires Enabled(w, s, a) && |s.producers| <= p < |Step(w, s, a).producers|
    ensures a.AddProducer? && Step(w, s, a).producers[p] == Fresh(|s.walks|)
  {
    hide C.Step, C.Enabled, C.Inv, SizeApprox, C.Perform;
  }
}
