/** What it means that a dequeue without a token is given less than it asks for: of the elements each producer held when
    the walk began, all have been claimed, up to what other dequeues of that producer ask for meanwhile. */
module DryWalks {
  import opened Common
  import opened Words
  import opened InnerQueue
  import C = DequeueClaims
  import D = DryClaims

  // For each producer there was when a walk began: the elements ever enqueued in it until then, and what the calls of
  // other threads ask of it, those in progress then and those begun since. Auxiliary: no step reads it.
  datatype Watch = Watch(began: seq<nat>, asked: seq<int>)

  datatype Watching = Watching(queue: State, watches: seq<Watch>)

  ghost function Look(s: State, t: nat): (watch: Watch)
    requires Shaped(s) && t < |s.walks|
  {
    Watch(seq(|s.producers|, p requires 0 <= p < |s.producers| => s.producers[p].tail),
          seq(|s.producers|, p requires 0 <= p < |s.producers| => D.OthersAsk(s.producers[p], t)))
  }

  // What thread u is charged for in producer p: the calls others begin.
  function Charge(s: State, a: Action, p: nat, u: nat): nat
    requires Shaped(s) && p < |s.producers|
  {
    match ClaimStep(s, a, p)
    case Some(Start(t, max)) => if t == u then 0 else max
    case _ => 0
  }

  ghost function WatchAfter(s: State, a: Action, u: nat, watch: Watch): (watch': Watch)
    requires Shaped(s) && u < |s.walks|
  {
    if a.Begin? && a.thread == u then Look(s, u)
    else watch.(asked := seq(|watch.asked|, p requires 0 <= p < |watch.asked| =>
                               watch.asked[p] + if p < |s.producers| then Charge(s, a, p, u) else 0))
  }

  ghost function Next(w: nat, x: Watching, a: Action): (x': Watching)
    requires Enabled(w, x.queue, a) && |x.watches| == |x.queue.walks|
    ensures |x'.watches| == |x.watches| && x'.queue == Step(w, x.queue, a)
  {
    Watching(Step(w, x.queue, a),
             seq(|x.watches|, u requires 0 <= u < |x.watches| => WatchAfter(x.queue, a, u, x.watches[u])))
  }

  // When a walk decides about its share, what the producer holds and what others ask of it stay below a limit.
  ghost predicate Spare(w: nat, limit: int, x: Watching, a: Action)
    requires Enabled(w, x.queue, a) && |x.watches| == |x.queue.walks|
  {
    a.Go? ==>
      match Inside(x.queue.walks[a.thread])
      case Some(p) =>
        p < |x.watches[a.thread].asked| ==> D.Spare(limit, x.queue.producers[p], a.thread, x.watches[a.thread].asked[p])
      case None => true
  }

  // ---- What a walk has found out ----

  // What a walk asks of the producer it is inside of.
  function Asks(walk: Walk): int { Wanted(walk) - if walk.Bulk? then walk.count else 0 }

  // The producers that gave the walk less than it asked them for.
  predicate Passed(walk: Walk, p: nat) {
    match walk
    case Rest => false
    case Scan(at, nonEmpty, _, _) => nonEmpty == 0 && at < p
    case Score(at, nonEmpty, _, _, _) => nonEmpty == 0 && at < p
    case Best(_, _) => false
    case Others(at, best, _) => at < p || p == best
    case Bulk(at, _, _, _) => at < p
    case Over(max, count) => count < max
  }

  ghost predicate Finding(w: nat, c: C.State, t: nat, walk: Walk, p: nat, began: nat, asked: int)
    requires 1 <= w && t < |c.pcs|
  {
    && 0 <= asked && D.Watched(c, t, began, asked)
    && (Inside(walk) == Some(p) ==> D.FoundOut(w, c, t, Asks(walk), began, asked))
    && (walk.Score? && walk.at == p ==> began <= walk.tail < c.head + Pow2(w - 1))
    && (Passed(walk, p) ==> D.Dry(c, began, asked))
  }

  ghost predicate Findings(w: nat, s: State, t: nat, watch: Watch)
    requires 1 <= w && Shaped(s) && t < |s.walks|
  {
    && |watch.began| == |watch.asked| <= |s.producers|
    && forall p :: 0 <= p < |watch.began| ==>
      Finding(w, s.producers[p], t, s.walks[t], p, watch.began[p], watch.asked[p])
  }

  ghost predicate Balanced(w: nat, s: State) {
    forall p :: 0 <= p < |s.producers| ==> D.Balanced(w, s.producers[p])
  }

  ghost predicate Inv(w: nat, x: Watching) {
    && 1 <= w && Ok(x.queue) && Balanced(w, x.queue) && |x.watches| == |x.queue.walks|
    && forall t :: 0 <= t < |x.watches| && !x.queue.walks[t].Rest? ==> Findings(w, x.queue, t, x.watches[t])
  }

  // ---- Steps of others ----

  lemma OthersKeepFinding(w: nat, s: State, a: Action, u: nat, p: nat, began: nat, asked: int)
    requires Enabled(w, s, a) && Ok(s) && Ok(Step(w, s, a)) && u < |s.walks| && p < |s.producers|
    requires (a.Begin? || a.Go? || a.End?) ==> a.thread != u
    requires D.Balanced(w, s.producers[p]) && Finding(w, s.producers[p], u, s.walks[u], p, began, asked)
    ensures var s' := Step(w, s, a);
      && u < |s'.walks| && s'.walks[u] == s.walks[u] && p < |s'.producers| && u < |s'.producers[p].pcs|
      && Finding(w, s'.producers[p], u, s.walks[u], p, began, asked + Charge(s, a, p, u))
  {
    ClaimStepIsTaken(w, s, a, p);
    OthersKeepWalks(w, s, a, u);
    hide Step, Enabled, C.Step, C.Enabled, D.FoundOut, D.Watched, D.Balanced;
    var c := s.producers[p];
    if ClaimStep(s, a, p).Some? {
      var b := ClaimStep(s, a, p).value;
      D.StepKeepsBalance(w, c, b);
      D.OthersKeepFindings(w, c, u, b, Asks(s.walks[u]), began, asked);
    }
  }

  lemma OthersKeepWalks(w: nat, s: State, a: Action, u: nat)
    requires Enabled(w, s, a) && u < |s.walks| && ((a.Begin? || a.Go? || a.End?) ==> a.thread != u)
    ensures |Step(w, s, a).walks| == |s.walks| && Step(w, s, a).walks[u] == s.walks[u]
  {
    hide C.Step, C.Enabled, SizeApprox;
  }

  // ---- Its own steps ----

  lemma ScoreIsSafe(w: nat, tail: nat, head: nat)
    requires 1 <= w && tail < head + Pow2(w - 1) && SizeApprox(w, tail, head) == 0
    ensures tail <= head
  {
    if head < tail {
      CircularLessThanIsExact(w, head, tail);
      DivisionIsUnique(tail - head, Pow2(w), 0, tail - head);
    }
  }

  // A step inside the dequeue of producer p, or out of it, seen from that producer.
  lemma InsideFinds(w: nat, s: State, t: nat, p: nat, began: nat, asked: int)
    requires Enabled(w, s, Go(t)) && Inside(s.walks[t]) == Some(p) && WalkOk(s, t)
    requires D.Balanced(w, s.producers[p]) && Finding(w, s.producers[p], t, s.walks[t], p, began, asked)
    requires D.Spare(Pow2(w - 1), s.producers[p], t, asked)
    ensures var s' := Step(w, s, Go(t));
      && t < |s'.walks| && p < |s'.producers| && t < |s'.producers[p].pcs|
      && Finding(w, s'.producers[p], t, s'.walks[t], p, began, asked)
  {
    hide C.Perform, D.Watched, D.FoundOut, D.Balanced, D.Spare, SizeApprox;
    var c, walk := s.producers[p], s.walks[t];
    if c.pcs[t].Claimed? {
      D.OwnReleaseKeeps(w, c, t, began, asked);
      ClaimedFoundOut(w, c, t, Asks(walk), began, asked);
    } else if c.pcs[t].Idle? {
      IdleFoundOut(w, c, t, Asks(walk), began, asked);
    } else {
      D.StepKeepsBalance(w, c, C.Advance(t));
      D.OwnStepFindsOut(w, c, t, Asks(walk), began, asked);
    }
  }

  lemma ClaimedFoundOut(w: nat, c: C.State, t: nat, max: int, began: nat, asked: int)
    requires 1 <= w && t < |c.pcs| && c.pcs[t].Claimed? && D.FoundOut(w, c, t, max, began, asked)
    ensures c.pcs[t].count < max ==> D.Dry(c, began, asked)
  {}

  lemma IdleFoundOut(w: nat, c: C.State, t: nat, max: int, began: nat, asked: int)
    requires 1 <= w && t < |c.pcs| && c.pcs[t].Idle? && D.FoundOut(w, c, t, max, began, asked)
    ensures D.Dry(c, began, asked)
  {}

  // The same step seen from another producer.
  lemma InsideElsewhere(w: nat, s: State, t: nat, p: nat, q: nat, began: nat, asked: int)
    requires Enabled(w, s, Go(t)) && Inside(s.walks[t]) == Some(q) && p < |s.producers| && p != q
    requires Finding(w, s.producers[p], t, s.walks[t], p, began, asked)
    ensures var s' := Step(w, s, Go(t));
      && t < |s'.walks| && p < |s'.producers| && s'.producers[p] == s.producers[p]
      && Finding(w, s'.producers[p], t, s'.walks[t], p, began, asked)
  {
    hide C.Step, D.Watched, D.FoundOut, SizeApprox;
  }

  // A step between two producers.
  lemma BetweenFinds(w: nat, s: State, t: nat, p: nat, began: nat, asked: int)
    requires Enabled(w, s, Go(t)) && Inside(s.walks[t]).None? && WalkOk(s, t) && p < |s.producers|
    requires D.Balanced(w, s.producers[p]) && Finding(w, s.producers[p], t, s.walks[t], p, began, asked)
    ensures var s' := Step(w, s, Go(t));
      && t < |s'.walks| && p < |s'.producers| && t < |s'.producers[p].pcs|
      && Finding(w, s'.producers[p], t, s'.walks[t], p, began, asked)
  {
    hide D.FoundOut, SizeApprox, C.Perform, D.Balanced, D.Watched;
    var c, walk := s.producers[p], s.walks[t];
    var s' := Step(w, s, Go(t));
    if Inside(s'.walks[t]) == Some(p) {
      D.OwnCallFindsOut(w, c, t, Asks(walk), began, asked);
    } else if walk.Score? && walk.at == p && SizeApprox(w, walk.tail, c.head) == 0 {
      ScoreIsSafe(w, walk.tail, c.head);
    } else if walk.Scan? && walk.at == p {
      WatchedTail(w, c, t, began, asked);
    }
  }

  lemma WatchedTail(w: nat, c: C.State, t: nat, began: nat, asked: int)
    requires t < |c.pcs| && D.Balanced(w, c) && D.Watched(c, t, began, asked)
    ensures began <= c.tail < c.head + Pow2(w - 1)
  {}

  lemma GoFinds(w: nat, s: State, t: nat, p: nat, watch: Watch)
    requires Enabled(w, s, Go(t)) && Ok(s) && p < |watch.began| && Findings(w, s, t, watch) && Balanced(w, s)
    requires Inside(s.walks[t]) == Some(p) ==> D.Spare(Pow2(w - 1), s.producers[p], t, watch.asked[p])
    ensures var s' := Step(w, s, Go(t));
      && t < |s'.walks| && p < |s'.producers| && t < |s'.producers[p].pcs|
      && Finding(w, s'.producers[p], t, s'.walks[t], p, watch.began[p], watch.asked[p])
  {
    hide Step, Enabled, Finding, D.Balanced, D.Spare, WalkOk;
    EnabledHasWords(w, s, Go(t));
    assert WalkOk(s, t);
    if Inside(s.walks[t]) == Some(p) {
      InsideFinds(w, s, t, p, watch.began[p], watch.asked[p]);
    } else if Inside(s.walks[t]).Some? {
      InsideElsewhere(w, s, t, p, Inside(s.walks[t]).value, watch.began[p], watch.asked[p]);
      StepKeepsShape(w, s, Go(t));
    } else {
      BetweenFinds(w, s, t, p, watch.began[p], watch.asked[p]);
    }
  }

  lemma StepKeepsShape(w: nat, s: State, a: Action)
    requires Enabled(w, s, a) && Ok(s)
    ensures Ok(Step(w, s, a)) && |Step(w, s, a).walks| == |s.walks| && |s.producers| <= |Step(w, s, a).producers|
  {
    hide Step, Enabled, WalkOk;
    EnabledHasWords(w, s, a);
    match a
    case AddProducer => AddProducerKeepsOk(w, s); StepSizes(w, s, a);
    case Publish(p, n) => PublishKeepsOk(w, s, p, n); StepSizes(w, s, a);
    case Begin(_, _, _) => CallKeepsOk(w, s, a);
    case Go(t) => GoKeepsOk(w, s, t); StepSizes(w, s, a);
    case End(_) => CallKeepsOk(w, s, a);
  }

  lemma StepSizes(w: nat, s: State, a: Action)
    requires Enabled(w, s, a)
    ensures |Step(w, s, a).walks| == |s.walks| && |s.producers| <= |Step(w, s, a).producers|
  {
    hide C.Step, SizeApprox;
  }

  lemma StepKeepsBalanced(w: nat, s: State, a: Action)
    requires Enabled(w, s, a) && Balanced(w, s)
    ensures Balanced(w, Step(w, s, a))
  {
    hide Step, Enabled, C.Step, C.Enabled, D.Balanced;
    assert 1 <= w by { EnabledHasWords(w, s, a); }
    var s' := Step(w, s, a);
    forall p | 0 <= p < |s'.producers| ensures D.Balanced(w, s'.producers[p]) {
      if p < |s.producers| {
        ClaimStepIsTaken(w, s, a, p);
        if ClaimStep(s, a, p).Some? {
          D.StepKeepsBalance(w, s.producers[p], ClaimStep(s, a, p).value);
        }
      } else {
        NewProducerIsFresh(w, s, a, p);
        D.FreshIsBalanced(w, |s.walks|);
      }
    }
  }

  lemma EnabledHasWords(w: nat, s: State, a: Action)
    requires Enabled(w, s, a)
    ensures 1 <= w && Shaped(s) && ((a.Begin? || a.Go? || a.End?) ==> a.thread < |s.walks|)
    ensures a.Begin? ==> forall p :: 0 <= p < |s.producers| ==> s.producers[p].pcs[a.thread].Idle?
    ensures a.Go? ==> !s.walks[a.thread].Rest?
  {}

  // A walk begins.
  lemma LookFinds(w: nat, s: State, t: nat, max: nat, bulk: bool)
    requires Enabled(w, s, Begin(t, max, bulk)) && Balanced(w, s) && Shaped(Step(w, s, Begin(t, max, bulk)))
    ensures t < |Step(w, s, Begin(t, max, bulk)).walks|
    ensures Findings(w, Step(w, s, Begin(t, max, bulk)), t, Look(s, t))
  {
    var s', watch := Step(w, s, Begin(t, max, bulk)), Look(s, t);
    hide D.OthersAsk;
    forall p | 0 <= p < |watch.began|
      ensures Finding(w, s'.producers[p], t, s'.walks[t], p, watch.began[p], watch.asked[p])
    {
      D.OthersAreNotNegative(s.producers[p], t);
    }
  }

  lemma OneFindingKept(w: nat, x: Watching, a: Action, u: nat, p: nat)
    requires Inv(w, x) && Enabled(w, x.queue, a) && Spare(w, Pow2(w - 1), x, a) && Ok(Step(w, x.queue, a))
    requires u < |x.watches| && !x.queue.walks[u].Rest? && p < |x.watches[u].began|
    requires (a.Begin? || a.End?) ==> a.thread != u
    ensures var s' := Step(w, x.queue, a);
      && u < |s'.walks| && p < |s'.producers| && u < |s'.producers[p].pcs| && p < |x.watches[u].asked|
      && p < |x.queue.producers|
      && Finding(w, s'.producers[p], u, s'.walks[u], p, x.watches[u].began[p],
                 x.watches[u].asked[p] + Charge(x.queue, a, p, u))
  {
    hide Step, Enabled, Finding, Charge, Ok, D.Balanced, D.Spare;
    EnabledHasWords(w, x.queue, a);
    assert Findings(w, x.queue, u, x.watches[u]);
    if a == Go(u) {
      GoFinds(w, x.queue, u, p, x.watches[u]);
      OwnCallsAreFree(x.queue, u, p);
    } else {
      OthersKeepFinding(w, x.queue, a, u, p, x.watches[u].began[p], x.watches[u].asked[p]);
    }
  }

  lemma WatchKeepsFindings(w: nat, x: Watching, a: Action, u: nat)
    requires Inv(w, x) && Enabled(w, x.queue, a) && Spare(w, Pow2(w - 1), x, a) && Ok(Step(w, x.queue, a))
    requires u < |x.watches| && u < |Step(w, x.queue, a).walks| && !Step(w, x.queue, a).walks[u].Rest?
    ensures Findings(w, Step(w, x.queue, a), u, WatchAfter(x.queue, a, u, x.watches[u]))
  {
    hide Step, Enabled, Finding, Look, Charge, Ok, Spare, Balanced;
    EnabledHasWords(w, x.queue, a);
    StepSizes(w, x.queue, a);
    OkIsShaped(Step(w, x.queue, a));
    if a.Begin? && a.thread == u {
      LookFinds(w, x.queue, u, a.max, a.bulk);
    } else if a.End? && a.thread == u {
      EndRests(w, x.queue, u);
    } else {
      if a != Go(u) {
        OthersKeepWalks(w, x.queue, a, u);
      }
      assert Findings(w, x.queue, u, x.watches[u]);
      forall p | 0 <= p < |x.watches[u].began|
        ensures Finding(w, Step(w, x.queue, a).producers[p], u, Step(w, x.queue, a).walks[u], p,
                        x.watches[u].began[p], x.watches[u].asked[p] + Charge(x.queue, a, p, u))
      {
        OneFindingKept(w, x, a, u, p);
      }
    }
  }

  lemma EndRests(w: nat, s: State, t: nat)
    requires Enabled(w, s, End(t))
    ensures Step(w, s, End(t)).walks[t].Rest?
  {}

  lemma OwnCallsAreFree(s: State, t: nat, p: nat)
    requires Shaped(s) && p < |s.producers|
    ensures Charge(s, Go(t), p, t) == 0
  {}

  /** One access of any thread: what the walks have found out stays true, or the walk finds it out. */
  lemma StepKeepsInv(w: nat, x: Watching, a: Action)
    requires Inv(w, x) && Enabled(w, x.queue, a) && Spare(w, Pow2(w - 1), x, a)
    ensures Inv(w, Next(w, x, a))
  {
    StepKeepsShape(w, x.queue, a);
    StepKeepsBalanced(w, x.queue, a);
    hide Step, Enabled, Findings, Ok, Balanced, WatchAfter, Spare;
    forall u | 0 <= u < |x.watches| && !Step(w, x.queue, a).walks[u].Rest?
      ensures Findings(w, Step(w, x.queue, a), u, WatchAfter(x.queue, a, u, x.watches[u]))
    {
      WatchKeepsFindings(w, x, a, u);
    }
  }

  // ---- Whole runs ----

  ghost function Initial(threads: nat): Watching {
    Watching(State([], seq(threads, _ => Rest)), seq(threads, _ => Watch([], [])))
  }

  ghost function Run(w: nat, x: Watching, schedule: seq<Action>): (x': Watching)
    requires |x.watches| == |x.queue.walks|
    ensures |x'.watches| == |x'.queue.walks| == |x.watches|
    decreases |schedule|
  {
    if |schedule| == 0 then x
    else if Enabled(w, x.queue, schedule[0]) then
      StepSizes(w, x.queue, schedule[0]);
      Run(w, Next(w, x, schedule[0]), schedule[1..])
    else Run(w, x, schedule[1..])
  }

  // Whenever a walk decides about its share there is room to spare.
  ghost predicate AlwaysSpare(w: nat, limit: int, x: Watching, schedule: seq<Action>)
    requires |x.watches| == |x.queue.walks|
    decreases |schedule|
  {
    |schedule| > 0 ==>
      if Enabled(w, x.queue, schedule[0]) then
        StepSizes(w, x.queue, schedule[0]);
        Spare(w, limit, x, schedule[0]) && AlwaysSpare(w, limit, Next(w, x, schedule[0]), schedule[1..])
      else AlwaysSpare(w, limit, x, schedule[1..])
  }

  lemma {:induction false} RunKeepsInv(w: nat, x: Watching, schedule: seq<Action>)
    requires Inv(w, x) && |x.watches| == |x.queue.walks| && AlwaysSpare(w, Pow2(w - 1), x, schedule)
    ensures Inv(w, Run(w, x, schedule))
    decreases |schedule|
  {
    hide Inv, Enabled, Spare;
    if |schedule| > 0 {
      if Enabled(w, x.queue, schedule[0]) {
        StepSizes(w, x.queue, schedule[0]);
        StepKeepsInv(w, x, schedule[0]);
        RunKeepsInv(w, Next(w, x, schedule[0]), schedule[1..]);
      } else {
        RunKeepsInv(w, x, schedule[1..]);
      }
    }
  }

  lemma {:induction false} SpareForMore(w: nat, limit: int, more: int, x: Watching, schedule: seq<Action>)
    requires limit <= more && |x.watches| == |x.queue.walks| && AlwaysSpare(w, limit, x, schedule)
    ensures AlwaysSpare(w, more, x, schedule)
    decreases |schedule|
  {
    hide Enabled, Next;
    if |schedule| > 0 {
      if Enabled(w, x.queue, schedule[0]) {
        StepSizes(w, x.queue, schedule[0]);
        SpareForMore(w, limit, more, Next(w, x, schedule[0]), schedule[1..]);
      } else {
        SpareForMore(w, limit, more, x, schedule[1..]);
      }
    }
  }

  // The walk of thread t has ended and was given less than it asked for.
  predicate GivenLess(x: Watching, t: nat) {
    t < |x.queue.walks| && x.queue.walks[t].Over? && x.queue.walks[t].count < x.queue.walks[t].max
  }

  // Of the elements each producer held when the walk began all are claimed, up to what others asked for.
  predicate FoundDry(x: Watching, t: nat)
    requires t < |x.watches|
  {
    var watch := x.watches[t];
    && |watch.asked| == |watch.began| <= |x.queue.producers|
    && forall p :: 0 <= p < |watch.began| ==> 0 <= watch.asked[p] && D.Dry(x.queue.producers[p], watch.began[p], watch.asked[p])
  }

  /** A dequeue that is given less than it asked for, in any run of any producers and consumers: of the elements each
      producer held when the walk began, all have been claimed by its end but at most as many as other dequeues of that
      producer asked for that overlapped with the walk; and all of them if there were none. */
  lemma GivenLessMeansDry(w: nat, limit: int, threads: nat, schedule: seq<Action>, t: nat)
    requires 1 <= w && limit <= Pow2(w - 1) && AlwaysSpare(w, limit, Initial(threads), schedule)
    requires GivenLess(Run(w, Initial(threads), schedule), t)
    ensures FoundDry(Run(w, Initial(threads), schedule), t)
  {
    assert Inv(w, Initial(threads));
    SpareForMore(w, limit, Pow2(w - 1), Initial(threads), schedule);
    RunKeepsInv(w, Initial(threads), schedule);
    var x := Run(w, Initial(threads), schedule);
    assert Findings(w, x.queue, t, x.watches[t]);
  }
}
