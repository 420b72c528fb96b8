/** The retry loops of the blocking queue: how many items a dequeue returns, and that one that finds itself alone is
    served by its next attempt. */
module BlockingResults {
  import opened BlockingQueue
  import opened BlockingWindow
  import opened Common
  import opened Words
  import C = DequeueClaims
  import I = InnerQueue
  import S = Semaphore
  import W = InnerWalks

  // ---- Every permit is served ----

  // A call that took `permits` permits, and nothing else, is what thread t is in or has returned from.
  predicate Holds(pc: Pc, call: S.Call, permits: nat) {
    match pc
    case Draining(c, taken, owed) => c == call && taken + owed == permits
    case Walking(c, taken, owed, _) => c == call && taken + owed == permits
    case Returned(c, count) => c == call && count == permits
    case _ => false
  }

  lemma StepKeepsHolding(w: nat, s: State, a: Action, t: nat, call: S.Call, permits: nat)
    requires Inv(s) && Enabled(w, s, a) && t < |s.pcs| && Holds(s.pcs[t], call, permits) && a != Leave(t)
    ensures t < |Step(w, s, a).pcs| && Holds(Step(w, s, a).pcs[t], call, permits)
  {
    hide S.Inv, I.Ok, I.Got, I.Step, I.Enabled, S.Step, S.Enabled;
    if a == Walk(t) && s.inner.walks[t].Over? {
      assert WalkOk(s.pcs[t], s.inner, t);
      OverGot(s.inner, t);
      GotAtMostWanted(s.inner, t);
    }
  }

  /** Whatever the other threads do, a dequeue that took permits returns with exactly that many items, if it returns. */
  lemma {:induction false} PermitsAreServed(w: nat, s: State, t: nat, call: S.Call, permits: nat, schedule: seq<Action>)
    requires Inv(s) && t < |s.pcs| && Holds(s.pcs[t], call, permits) && Leave(t) !in schedule
    ensures var end := Run(w, s, schedule);
      && Inv(end) && t < |end.pcs| && Holds(end.pcs[t], call, permits)
      && (end.pcs[t].Returned? ==> end.pcs[t].count == permits)
    decreases |schedule|
  {
    hide Inv;
    if |schedule| > 0 {
      if Enabled(w, s, schedule[0]) {
        StepKeepsInv(w, s, schedule[0]);
        StepKeepsHolding(w, s, schedule[0], t, call, permits);
        PermitsAreServed(w, Step(w, s, schedule[0]), t, call, permits, schedule[1..]);
      } else {
        PermitsAreServed(w, s, t, call, permits, schedule[1..]);
      }
    }
  }

  function Total(answers: seq<nat>): nat {
    if |answers| == 0 then 0 else Total(answers[..|answers| - 1]) + answers[|answers| - 1]
  }

  function Successes(answers: seq<nat>): nat {
    if |answers| == 0 then 0
    else Successes(answers[..|answers| - 1]) + (if answers[|answers| - 1] == 0 then 0 else 1)
  }

  lemma NoAnswers()
    ensures Total([]) == 0 && Successes([]) == 0
  {}

  lemma OneAnswerMore(answers: seq<nat>, used: nat)
    requires used < |answers|
    ensures Total(answers[..used + 1]) == Total(answers[..used]) + answers[used]
    ensures Successes(answers[..used + 1]) == Successes(answers[..used]) + (if answers[used] == 0 then 0 else 1)
  {
    assert answers[..used + 1][..used] == answers[..used];
  }

  // An inner call gives no more than it is asked for, which is what is still wanted (GotAtMostWanted).
  predicate WithinWants(permits: nat, answers: seq<nat>) {
    forall i :: 0 <= i < |answers| && Total(answers[..i]) < permits ==> answers[i] <= permits - Total(answers[..i])
  }

  /** The retry loop of a consumer that holds `permits` permits; `answers` are the results of the inner calls, the last
      one the last before the loop ended or the run was cut off. It makes no call once every permit is served, gives up
      no item it was given, ends only when every permit is served, and has then made at most `permits` calls that gave
      anything. */
  method RetryLoop(permits: nat, answers: seq<nat>) returns (count: nat, used: nat)
    requires WithinWants(permits, answers)
    ensures used <= |answers| && count == Total(answers[..used]) <= permits
    ensures forall i :: 0 <= i < used ==> Total(answers[..i]) < permits
    ensures used < |answers| ==> count == permits
    ensures Successes(answers[..used]) <= count
  {
    hide Total, Successes;
    NoAnswers();
    count, used := 0, 0;
    while count != permits && used != |answers|
      invariant used <= |answers| && count == Total(answers[..used]) <= permits
      invariant forall i :: 0 <= i < used ==> Total(answers[..i]) < permits
      invariant Successes(answers[..used]) <= count
      decreases |answers| - used
    {
      OneAnswerMore(answers, used);
      count := count + answers[used];
      used := used + 1;
    }
  }

  // ---- A consumer that finds itself alone ----

  // No other thread is inside an attempt.
  predicate Alone(s: State, t: nat) { forall u :: 0 <= u < |s.pcs| && u != t ==> !s.pcs[u].Walking? }

  // No other thread begins one, and thread t does not go on to its next call.
  predicate LeavesAlone(a: Action, t: nat) { (a.Attempt? ==> a.thread == t) && a != Leave(t) }

  // Thread t has returned from its call with all its permits served, or is certain to.
  ghost predicate Serving(w: nat, s: State, t: nat, call: S.Call, permits: nat) {
    && Inv(s) && t < |s.pcs| && Alone(s, t)
    && (|| s.pcs[t] == Returned(call, permits)
        || (&& s.pcs[t].Walking? && Holds(s.pcs[t], call, permits) && I.Shaped(s.inner) && t < |s.inner.walks|
            && W.AloneOk(w, s.inner, t) && W.Serves(s.inner, t)))
  }

  // Steps thread t still has to make, at most.
  function StepsLeft(s: State, t: nat): nat
    requires t < |s.pcs|
  {
    if s.pcs[t].Walking? && t < |s.inner.walks| && I.Shaped(s.inner) then W.WalkLeft(s.inner, t) + 1 else 0
  }

  lemma WalkerIsThere(s: State, t: nat)
    requires Inv(s) && t < |s.pcs| && s.pcs[t].Walking?
    ensures I.Ok(s.inner) && I.Shaped(s.inner) && |s.sema.pcs| == |s.inner.walks| == |s.pcs| && 0 < s.pcs[t].owed
    ensures !s.inner.walks[t].Rest? && I.Wanted(s.inner.walks[t]) == s.pcs[t].owed
  {
    hide I.Ok, I.Got, S.Inv;
    assert ThreadOk(s.pcs[t], s.sema.pcs[t]) && WalkOk(s.pcs[t], s.inner, t);
  }

  lemma OwnStepServes(w: nat, s: State, t: nat, call: S.Call, permits: nat)
    requires Serving(w, s, t, call, permits) && s.pcs[t].Walking?
    ensures Enabled(w, s, Walk(t))
    ensures var s' := Step(w, s, Walk(t)); Serving(w, s', t, call, permits) && StepsLeft(s', t) < StepsLeft(s, t)
  {
    hide I.Ok, I.Got, I.Step, W.AloneOk, W.WalkLeft, Inv, I.Shaped;
    WalkerIsThere(s, t);
    if !s.inner.walks[t].Over? {
      hide W.Serves;
      W.GoServes(w, s.inner, t);
      AloneIsShaped(w, I.Step(w, s.inner, I.Go(t)), t);
      hide I.Enabled;
      StepKeepsInv(w, s, Walk(t));
    } else {
      AloneIsShaped(w, s.inner, t);
      StepKeepsInv(w, s, Walk(t));
    }
  }

  lemma AloneIsShaped(w: nat, s: I.State, t: nat)
    requires W.AloneOk(w, s, t)
    ensures 1 <= w && I.Ok(s) && I.Shaped(s) && t < |s.walks|
  {}

  // Other threads add producers and elements, and take permits.
  lemma OtherStepServes(w: nat, s: State, a: Action, t: nat, call: S.Call, permits: nat)
    requires Serving(w, s, t, call, permits) && s.pcs[t].Walking? && Enabled(w, s, a) && a.thread != t && LeavesAlone(a, t)
    ensures Serving(w, Step(w, s, a), t, call, permits) && StepsLeft(Step(w, s, a), t) <= StepsLeft(s, t)
  {
    hide I.Ok, I.Got, I.Step, W.AloneOk, W.WalkLeft, Inv, I.Shaped, W.Serves, I.Enabled, S.Step, S.Enabled;
    WalkerIsThere(s, t);
    InnerStepIsTaken(w, s, a);
    StepKeepsInv(w, s, a);
    var s' := Step(w, s, a);
    assert s'.pcs[t] == s.pcs[t];
    match InnerStep(s, a)
    case Some(b) =>
      AloneServesOn(w, s.inner, b, t);
      InvIsShaped(s');
    case None =>
  }

  lemma InvIsShaped(s: State)
    requires Inv(s)
    ensures I.Shaped(s.inner)
  {}

  lemma AloneServesOn(w: nat, s: I.State, b: I.Action, t: nat)
    requires W.AloneOk(w, s, t) && I.Shaped(s) && t < |s.walks| && W.Serves(s, t) && I.Enabled(w, s, b)
    requires b.AddProducer? || b.Publish?
    ensures var s' := I.Step(w, s, b);
      && I.Shaped(s') && t < |s'.walks| && W.AloneOk(w, s', t) && W.Serves(s', t) && W.WalkLeft(s', t) <= W.WalkLeft(s, t)
  {
    hide I.Ok, I.Step, W.AloneOk, W.WalkLeft, I.Shaped, W.Serves, I.Enabled;
    AloneIsShaped(w, s, t);
    if b.AddProducer? {
      W.AddProducerServes(w, s, t);
    } else {
      W.PublishServes(w, s, t, b.producer, b.n);
    }
    AloneIsShaped(w, I.Step(w, s, b), t);
  }

  lemma StepServes(w: nat, s: State, a: Action, t: nat, call: S.Call, permits: nat)
    requires Serving(w, s, t, call, permits) && Enabled(w, s, a) && LeavesAlone(a, t)
    ensures var s' := Step(w, s, a);
      && Serving(w, s', t, call, permits) && StepsLeft(s', t) <= StepsLeft(s, t)
      && (a == Walk(t) ==> StepsLeft(s', t) < StepsLeft(s, t))
  {
    hide I.Ok, I.Got, I.Step, W.AloneOk, W.WalkLeft, Inv, I.Shaped, W.Serves, I.Enabled, S.Step, S.Enabled;
    if s.pcs[t].Walking? {
      if a.thread == t {
        OwnStepServes(w, s, t, call, permits);
      } else {
        OtherStepServes(w, s, a, t, call, permits);
      }
    } else {
      StepKeepsInv(w, s, a);
    }
  }

  // The accesses a schedule gives thread t.
  function Turns(schedule: seq<Action>, t: nat): nat {
    if |schedule| == 0 then 0 else (if schedule[0] == Walk(t) then 1 else 0) + Turns(schedule[1..], t)
  }

  lemma {:induction false} ServingRun(w: nat, s: State, t: nat, call: S.Call, permits: nat, schedule: seq<Action>)
    requires Serving(w, s, t, call, permits) && forall a :: a in schedule ==> LeavesAlone(a, t)
    ensures var end := Run(w, s, schedule);
      && Serving(w, end, t, call, permits)
      && (end.pcs[t].Walking? ==> StepsLeft(end, t) + Turns(schedule, t) <= StepsLeft(s, t))
    decreases |schedule|
  {
    hide Inv, Alone, Holds, W.AloneOk, W.Serves, W.WalkLeft, Step;
    if |schedule| > 0 {
      var a := schedule[0];
      var enabled := Enabled(w, s, a);
      if s.pcs[t].Walking? && a == Walk(t) {
        OwnStepServes(w, s, t, call, permits);
      }
      if enabled {
        hide Enabled;
        StepServes(w, s, a, t, call, permits);
        ServingRun(w, Step(w, s, a), t, call, permits, schedule[1..]);
      } else {
        hide Enabled;
        ServingRun(w, s, t, call, permits, schedule[1..]);
      }
    }
  }

  lemma AllAtRest(s: State, t: nat)
    requires Inv(s) && t < |s.pcs| && Alone(s, t) && !s.pcs[t].Walking?
    ensures forall p, u :: 0 <= p < |s.inner.producers| && 0 <= u < |s.inner.producers[p].pcs| ==>
      s.inner.producers[p].pcs[u].Idle?
  {
    hide S.Inv, ThreadOk;
    forall p, u | 0 <= p < |s.inner.producers| && 0 <= u < |s.inner.producers[p].pcs|
      ensures s.inner.producers[p].pcs[u].Idle?
    {
      assert WalkOk(s.pcs[u], s.inner, u) && I.WalkOk(s.inner, u);
    }
  }

  lemma StartsAlone(w: nat, s: State, t: nat)
    requires Inv(s) && t < |s.pcs| && Alone(s, t) && !s.pcs[t].Walking? && Sound(w, s.inner)
    ensures W.AloneOk(w, s.inner, t)
  {
    hide S.Inv, ThreadOk, C.Inv;
    AllAtRest(s, t);
    forall p | 0 <= p < |s.inner.producers| ensures W.SoloOk(w, s.inner.producers[p], t) {
      W.SoloBegins(w, s.inner.producers[p], t);
    }
  }

  lemma AttemptServes(w: nat, s: State, t: nat, bulk: bool)
    requires Inv(s) && Enabled(w, s, Attempt(t, bulk)) && Alone(s, t) && Sound(w, s.inner)
    ensures var s' := Step(w, s, Attempt(t, bulk));
      && Serving(w, s', t, s.pcs[t].call, s.pcs[t].taken + s.pcs[t].owed)
      && StepsLeft(s', t) <= 11 * |s.inner.producers| + 20
  {
    hide I.Ok, I.Got, I.Step, W.AloneOk, Inv, I.Shaped, W.Serves, I.Enabled, Sound;
    StartsAlone(w, s, t);
    OwedItemsAreThere(s, t);
    W.BeginServes(w, s.inner, t, s.pcs[t].owed, bulk);
    StepKeepsInv(w, s, Attempt(t, bulk));
    var s' := Step(w, s, Attempt(t, bulk));
    WalkerIsThere(s', t);
    BeginsFar(w, s.inner, t, s.pcs[t].owed, bulk);
  }

  lemma BeginsFar(w: nat, s: I.State, t: nat, max: nat, bulk: bool)
    requires I.Enabled(w, s, I.Begin(t, max, bulk)) && I.Shaped(I.Step(w, s, I.Begin(t, max, bulk)))
    ensures W.WalkLeft(I.Step(w, s, I.Begin(t, max, bulk)), t) <= 11 * |s.producers| + 19
  {}

  /** A consumer that holds permits and begins an attempt, try_dequeue or try_dequeue_bulk, while no other dequeue is in
      flight: if none begins, then whatever producers do meanwhile that one attempt serves all its permits, and it takes
      no more accesses than the bound. */
  lemma AloneIsServedAtOnce(w: nat, s: State, t: nat, bulk: bool, schedule: seq<Action>)
    requires Inv(s) && Enabled(w, s, Attempt(t, bulk)) && Alone(s, t) && Sound(w, s.inner)
    requires forall a :: a in schedule ==> LeavesAlone(a, t)
    ensures var Draining(call, taken, owed) := s.pcs[t];
      var end := Run(w, Step(w, s, Attempt(t, bulk)), schedule);
      && t < |end.pcs| && (end.pcs[t].Walking? || end.pcs[t] == Returned(call, taken + owed))
      && (11 * |s.inner.producers| + 20 <= Turns(schedule, t) ==> end.pcs[t] == Returned(call, taken + owed))
  {
    hide Inv, Step, Enabled, Sound, W.AloneOk, W.Serves, W.WalkLeft, I.Shaped, Alone;
    DrainingAtAttempt(w, s, t, bulk);
    AttemptServes(w, s, t, bulk);
    ServingRun(w, Step(w, s, Attempt(t, bulk)), t, s.pcs[t].call, s.pcs[t].taken + s.pcs[t].owed, schedule);
  }

  lemma DrainingAtAttempt(w: nat, s: State, t: nat, bulk: bool)
    requires Enabled(w, s, Attempt(t, bulk))
    ensures t < |s.pcs| && s.pcs[t].Draining?
  {}

  /** The same in any run of the queue, however it came to this point, in which the calls around each inner dequeue ask for
      at most half the word range together. */
  lemma AloneIsServed(w: nat, s: State, before: seq<Action>, t: nat, bulk: bool, after: seq<Action>)
    requires 1 <= w && Initial(s) && CallsFit(w, Pow2(w - 1), s, [], before)
    requires Enabled(w, Run(w, s, before), Attempt(t, bulk)) && Alone(Run(w, s, before), t)
    requires forall a :: a in after ==> LeavesAlone(a, t)
    requires 11 * |Run(w, s, before).inner.producers| + 20 <= Turns(after, t)
    ensures var here := Run(w, s, before);
      var end := Run(w, Step(w, here, Attempt(t, bulk)), after);
      t < |end.pcs| && end.pcs[t] == Returned(here.pcs[t].call, here.pcs[t].taken + here.pcs[t].owed)
  {
    hide Inv, Step, Sound, Initial, Alone, CallsFit, LeavesAlone;
    EveryRunKeepsInv(w, s, before);
    EveryRunIsSound(w, Pow2(w - 1), s, before);
    AloneIsServedAtOnce(w, Run(w, s, before), t, bulk, after);
  }
}
