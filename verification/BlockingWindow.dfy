/** Runs of the blocking queue in which the claims of every inner producer are sound: a condition on the inner dequeues
    alone. */
module BlockingWindow {
  import opened BlockingQueue
  import opened Common
  import opened Words
  import C = DequeueClaims
  import I = InnerQueue
  import S = Semaphore
  import Window = ClaimsWindow

  // What the claims of one producer need (BlockingQueue bounds the rest).
  ghost predicate Sound(w: nat, s: I.State) {
    1 <= w && forall p :: 0 <= p < |s.producers| ==> C.Inv(s.producers[p]) && C.Size(s.producers[p]) < Pow2(w - 1)
  }

  lemma FreshIsSound(w: nat, threads: nat)
    requires 1 <= w
    ensures C.Inv(I.Fresh(threads)) && C.Size(I.Fresh(threads)) < Pow2(w - 1)
    ensures Window.Accounted(I.Fresh(threads), Window.NoCalls(threads))
  {
    hide C.Inv, Window.Accounted;
    Window.InitialAccounts(I.Fresh(threads));
  }

  // The step of the inner queue in a step of the blocking queue.
  function InnerStep(s: State, a: Action): Option<I.Action>
    requires |s.inner.walks| == |s.pcs| && a.thread < |s.pcs|
  {
    match a
    case Register(_) => Some(I.AddProducer)
    case Inner(t, p, ok) => if ok && s.pcs[t].Enqueue? then Some(I.Publish(p, s.pcs[t].n)) else None
    case Attempt(t, bulk) => if s.pcs[t].Draining? then Some(I.Begin(t, s.pcs[t].owed, bulk)) else None
    case Walk(t) => Some(if s.inner.walks[t].Over? then I.End(t) else I.Go(t))
    case _ => None
  }

  lemma InnerStepIsTaken(w: nat, s: State, a: Action)
    requires Enabled(w, s, a)
    ensures |s.inner.walks| == |s.pcs| && a.thread < |s.pcs|
    ensures match InnerStep(s, a)
      case Some(b) => I.Enabled(w, s.inner, b) && Step(w, s, a).inner == I.Step(w, s.inner, b)
      case None => Step(w, s, a).inner == s.inner
  {
    hide I.Step, I.Enabled, S.Step, S.Enabled;
  }

  lemma ClaimStepKeepsSize(w: nat, c: C.State, a: C.Action)
    requires 1 <= w && C.Enabled(c, a) && C.Size(c) < Pow2(w - 1)
    requires a.Publish? ==> C.Size(c) + a.count < Pow2(w - 1)
    ensures C.Size(C.Step(w, c, a)) < Pow2(w - 1) && |C.Step(w, c, a).pcs| == |c.pcs|
  {}

  // ---- The calls around each inner dequeue ----

  // A caller's account of each producer (ClaimsWindow), charged with what is done to that producer.
  ghost function Charged(s: I.State, accs: seq<Window.Account>, a: I.Action): (accs': seq<Window.Account>)
    requires I.Shaped(s)
    ensures |accs'| == |accs| + if a.AddProducer? then 1 else 0
  {
    seq(|accs|, p requires 0 <= p < |accs| =>
          if p < |s.producers| && Window.Fits(accs[p], |s.producers[p].pcs|) && I.ClaimStep(s, a, p).Some? then
            Window.Charge(s.producers[p], accs[p], I.ClaimStep(s, a, p).value)
          else accs[p])
    + if a.AddProducer? then [Window.NoCalls(|s.walks|)] else []
  }

  ghost function AccountsAfter(w: nat, s: State, accs: seq<Window.Account>, a: Action): seq<Window.Account>
    requires Enabled(w, s, a)
  {
    InnerStepIsTaken(w, s, a);
    match InnerStep(s, a)
    case Some(b) => Charged(s.inner, accs, b)
    case None => accs
  }

  ghost predicate AtMost(accs: seq<Window.Account>, bound: int) {
    forall p :: 0 <= p < |accs| ==> Window.AtMost(accs[p], bound)
  }

  /** In each producer the calls around each dequeue of a run ask for at most `bound` together. */
  ghost predicate CallsFit(w: nat, bound: int, s: State, accs: seq<Window.Account>, schedule: seq<Action>)
    decreases |schedule|
  {
    |schedule| > 0 ==>
      var a := schedule[0];
      if Enabled(w, s, a) then
        && AtMost(AccountsAfter(w, s, accs, a), bound)
        && CallsFit(w, bound, Step(w, s, a), AccountsAfter(w, s, accs, a), schedule[1..])
      else CallsFit(w, bound, s, accs, schedule[1..])
  }

  // ---- They keep the producers sound ----

  ghost predicate Accounted(s: I.State, accs: seq<Window.Account>) {
    |accs| == |s.producers| && forall p :: 0 <= p < |accs| ==> Window.Accounted(s.producers[p], accs[p])
  }

  lemma InnerStepKeepsSound(w: nat, bound: nat, s: I.State, accs: seq<Window.Account>, a: I.Action)
    requires Sound(w, s) && Accounted(s, accs) && AtMost(accs, bound) && bound <= Pow2(w - 1) && I.Enabled(w, s, a)
    ensures I.Shaped(s) && Sound(w, I.Step(w, s, a)) && Accounted(I.Step(w, s, a), Charged(s, accs, a))
  {
    hide I.Step, C.Inv, C.Step, C.Enabled, I.ClaimStep, Window.Accounted, Window.Charge, Window.AtMost, C.InWindow;
    var s', accs' := I.Step(w, s, a), Charged(s, accs, a);
    StepAddsProducer(w, s, a);
    hide I.Enabled, I.Shaped;
    forall p | 0 <= p < |s'.producers|
      ensures C.Inv(s'.producers[p]) && C.Size(s'.producers[p]) < Pow2(w - 1)
      ensures Window.Accounted(s'.producers[p], accs'[p])
    {
      if p < |s.producers| {
        OneStepKeepsSound(w, bound, s, accs[p], a, p);
      } else {
        I.NewProducerIsFresh(w, s, a, p);
        FreshIsSound(w, |s.walks|);
      }
    }
  }

  lemma StepAddsProducer(w: nat, s: I.State, a: I.Action)
    requires I.Enabled(w, s, a)
    ensures I.Shaped(s) && |I.Step(w, s, a).producers| == |s.producers| + if a.AddProducer? then 1 else 0
  {
    hide I.SizeApprox, C.Perform, C.Step;
  }

  lemma OneStepKeepsSound(w: nat, bound: nat, s: I.State, acc: Window.Account, a: I.Action, p: nat)
    requires Sound(w, s) && I.Enabled(w, s, a) && p < |s.producers| && bound <= Pow2(w - 1)
    requires Window.Accounted(s.producers[p], acc) && Window.AtMost(acc, bound)
    ensures I.Shaped(s) && p < |I.Step(w, s, a).producers| && Window.Fits(acc, |s.producers[p].pcs|)
    ensures var c' := I.Step(w, s, a).producers[p];
      && C.Inv(c') && C.Size(c') < Pow2(w - 1)
      && Window.Accounted(c', if I.ClaimStep(s, a, p).Some? then Window.Charge(s.producers[p], acc, I.ClaimStep(s, a, p).value)
                              else acc)
  {
    hide I.Step, C.Inv, C.Step, C.Enabled, I.ClaimStep, Window.Charge, Window.AtMost, C.InWindow, Window.ThreadAccounted;
    I.ClaimStepIsTaken(w, s, a, p);
    hide I.Enabled, I.Shaped;
    if I.ClaimStep(s, a, p).Some? {
      var c, step := s.producers[p], I.ClaimStep(s, a, p).value;
      Window.AccountsGiveWindow(w, bound, c, acc, step);
      C.StepKeepsInv(w, c, step);
      Window.StepKeepsAccounts(w, c, acc, step);
      ClaimStepKeepsSize(w, c, step);
    }
  }

  lemma {:induction false} SoundFrom(w: nat, bound: nat, s: State, accs: seq<Window.Account>, schedule: seq<Action>)
    requires Sound(w, s.inner) && Accounted(s.inner, accs) && AtMost(accs, bound) && bound <= Pow2(w - 1)
    requires CallsFit(w, bound, s, accs, schedule)
    ensures Sound(w, Run(w, s, schedule).inner)
    decreases |schedule|
  {
    hide Sound, Accounted, AtMost, Enabled, Step, I.Enabled, I.Step, Charged;
    if |schedule| > 0 {
      var a := schedule[0];
      if Enabled(w, s, a) {
        InnerStepIsTaken(w, s, a);
        if InnerStep(s, a).Some? {
          InnerStepKeepsSound(w, bound, s.inner, accs, InnerStep(s, a).value);
        }
        SoundFrom(w, bound, Step(w, s, a), AccountsAfter(w, s, accs, a), schedule[1..]);
      } else {
        SoundFrom(w, bound, s, accs, schedule[1..]);
      }
    }
  }

  /** Any word size, any number of producers and consumers, however often the words wrap: if in each producer the calls
      around each dequeue ask for at most half the word range together, the claims of every producer are sound, and fewer
      than half the word range of elements are in it. */
  lemma EveryRunIsSound(w: nat, bound: nat, s: State, schedule: seq<Action>)
    requires 1 <= w && Initial(s) && bound <= Pow2(w - 1) && CallsFit(w, bound, s, [], schedule)
    ensures Sound(w, Run(w, s, schedule).inner)
  {
    SoundFrom(w, bound, s, [], schedule);
  }
}
