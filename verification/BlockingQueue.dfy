/** The blocking queue: every item enqueued is signalled to the semaphore, and every consumer first takes permits and
    then dequeues as many items from the inner queue, trying again while the queue does not give them to it. */
module BlockingQueue {
  import opened Common
  import opened Words
  import C = DequeueClaims
  import I = InnerQueue
  import S = Semaphore
  import W = InnerWalks

  // Where a thread stands. `added`: whether a signal has been counted; `got`: the permits a call has acquired so far, or
  // the items its present attempt has been given; `taken` and `owed`: of its permits, those an item was dequeued for by
  // earlier attempts and those still to be served.
  datatype Pc =
    | Idle
    | Enqueue(n: nat)
    | Signalling(n: nat, added: bool)
    | Acquiring(call: S.Call, got: nat)
    | Draining(call: S.Call, taken: nat, owed: nat)
    | Walking(call: S.Call, taken: nat, owed: nat, got: nat)
    | Returned(call: S.Call, count: nat)

  datatype State = State(sema: S.State, inner: I.State, pcs: seq<Pc>)

  // Register: a producer is created for a thread. Inner: the inner enqueue into a producer succeeds or fails as a whole.
  // Attempt: an inner try_dequeue or try_dequeue_bulk begins; Walk: its next access, or its return.
  datatype Action =
    | Register(thread: nat)
    | StartEnqueue(thread: nat, n: nat)
    | Inner(thread: nat, producer: nat, ok: bool)
    | StartDequeue(thread: nat, call: S.Call)
    | Sema(thread: nat, choice: S.Choice)
    | Signalled(thread: nat)
    | Acquired(thread: nat)
    | Attempt(thread: nat, bulk: bool)
    | Walk(thread: nat)
    | Leave(thread: nat)

  predicate Enabled(w: nat, s: State, a: Action) {
    && 1 <= w && |s.sema.pcs| == |s.inner.walks| == |s.pcs| && a.thread < |s.pcs|
    && match a
       case Register(t) => s.pcs[t].Enqueue? && I.Enabled(w, s.inner, I.AddProducer)
       case StartEnqueue(t, _) => s.pcs[t].Idle?
       case Inner(t, p, ok) =>
         && s.pcs[t].Enqueue? && S.Enabled(s.sema, S.Begin(t, S.Signal(s.pcs[t].n)))
         && (ok ==> I.Enabled(w, s.inner, I.Publish(p, s.pcs[t].n)))
       case StartDequeue(t, call) => s.pcs[t].Idle? && !call.Signal? && S.Enabled(s.sema, S.Begin(t, call))
       case Sema(t, choice) => (s.pcs[t].Signalling? || s.pcs[t].Acquiring?) && S.Enabled(s.sema, S.Advance(t, choice))
       case Signalled(t) => s.pcs[t].Signalling? && s.pcs[t].added && S.Enabled(s.sema, S.Return(t))
       case Acquired(t) => s.pcs[t].Acquiring? && S.Enabled(s.sema, S.Return(t))
       case Attempt(t, bulk) => s.pcs[t].Draining? && I.Enabled(w, s.inner, I.Begin(t, s.pcs[t].owed, bulk))
       case Walk(t) =>
         s.pcs[t].Walking? && I.Enabled(w, s.inner, if s.inner.walks[t].Over? then I.End(t) else I.Go(t))
       case Leave(t) => s.pcs[t].Returned?
  }

  // Once the permits are there the retry loop begins; with none it is not entered.
  function Drain(call: S.Call, taken: nat, owed: nat): Pc {
    if owed == 0 then Returned(call, taken) else Draining(call, taken, owed)
  }

  function Moved(s: State, t: nat, sema: S.State, pc': Pc): State
    requires t < |s.pcs|
  {
    s.(sema := sema, pcs := s.pcs[t := pc'])
  }

  // The next access of an attempt. What it returns is what it was given.
  function WalkOn(w: nat, s: State, t: nat): State
    requires Enabled(w, s, Walk(t))
  {
    var Walking(call, taken, owed, got) := s.pcs[t];
    if s.inner.walks[t].Over? then
      var count := s.inner.walks[t].count;
      State(s.sema, I.Step(w, s.inner, I.End(t)), s.pcs[t := Drain(call, taken + count, S.Positive(owed - count))])
    else
      var inner' := I.Step(w, s.inner, I.Go(t));
      var given := I.Claimed(inner'.producers) - I.Claimed(s.inner.producers);
      State(s.sema, inner', s.pcs[t := Walking(call, taken, owed, S.Positive(got + given))])
  }

  function Step(w: nat, s: State, a: Action): State
    requires Enabled(w, s, a)
  {
    var t := a.thread;
    match a
    case Register(_) => s.(inner := I.Step(w, s.inner, I.AddProducer))
    case StartEnqueue(_, n) => Moved(s, t, s.sema, Enqueue(n))
    case Inner(_, p, ok) =>
      if ok then
        Moved(s, t, S.Step(s.sema, S.Begin(t, S.Signal(s.pcs[t].n))), Signalling(s.pcs[t].n, false)).(
          inner := I.Step(w, s.inner, I.Publish(p, s.pcs[t].n)))
      else Moved(s, t, s.sema, Idle)
    case StartDequeue(_, call) => Moved(s, t, S.Step(s.sema, S.Begin(t, call)), Acquiring(call, 0))
    case Sema(_, choice) =>
      var sema' := S.Step(s.sema, S.Advance(t, choice));
      Moved(s, t, sema',
            if s.pcs[t].Signalling? then Signalling(s.pcs[t].n, s.pcs[t].added || s.sema.pcs[t].Add?)
            else Acquiring(s.pcs[t].call, S.Positive(s.pcs[t].got + (sema'.acquired - s.sema.acquired))))
    case Signalled(_) => Moved(s, t, S.Step(s.sema, S.Return(t)), Idle)
    case Acquired(_) =>
      Moved(s, t, S.Step(s.sema, S.Return(t)), Drain(s.pcs[t].call, 0, s.sema.pcs[t].got))
    case Attempt(_, bulk) =>
      var Draining(call, taken, owed) := s.pcs[t];
      Moved(s, t, s.sema, Walking(call, taken, owed, 0)).(inner := I.Step(w, s.inner, I.Begin(t, owed, bulk)))
    case Walk(_) => WalkOn(w, s, t)
    case Leave(_) => Moved(s, t, s.sema, Idle)
  }

  // ---- The invariant ----

  // Items whose signal has not been counted yet.
  ghost function Unsignalled(): Pc -> int { (pc: Pc) => if pc.Signalling? && !pc.added then pc.n else 0 }

  // Permits acquired for which no item was dequeued yet.
  ghost function Unserved(): Pc -> int {
    (pc: Pc) => if pc.Acquiring? then pc.got else if pc.Draining? then pc.owed else if pc.Walking? then pc.owed - pc.got else 0
  }

  function HeldBy(pc: S.Pc): nat {
    if pc.Load? || pc.Cas? then pc.held else if pc.Done? then pc.got else 0
  }

  ghost predicate Served(call: S.Call, count: nat) {
    && !call.Signal? && count <= call.max && (call.Wait? && 0 < call.max ==> 1 <= count)
  }

  // Each thread's place agrees with its place inside the semaphore.
  ghost predicate ThreadOk(pc: Pc, inner: S.Pc) {
    match pc
    case Signalling(n, added) =>
      && S.Within(S.Signal(n), inner) && (!added ==> inner == S.Add(n)) && (added ==> !inner.Add?)
    case Acquiring(call, got) => !call.Signal? && S.Within(call, inner) && got == HeldBy(inner)
    case Draining(call, taken, owed) => inner.Idle? && 0 < owed && Served(call, taken + owed)
    case Walking(call, taken, owed, got) => inner.Idle? && got <= owed && 0 < owed && Served(call, taken + owed)
    case Returned(call, count) => inner.Idle? && Served(call, count)
    case _ => inner.Idle?
  }

  // And with its place inside the inner queue.
  ghost predicate WalkOk(pc: Pc, inner: I.State, t: nat)
    requires I.Shaped(inner) && t < |inner.walks|
  {
    if pc.Walking? then
      !inner.walks[t].Rest? && I.Wanted(inner.walks[t]) == pc.owed && I.Got(inner, t) == pc.got
    else inner.walks[t].Rest?
  }

  ghost predicate Inv(s: State) {
    && S.Inv(s.sema) && I.Ok(s.inner) && I.Shaped(s.inner) && |s.sema.pcs| == |s.inner.walks| == |s.pcs|
    && I.Published(s.inner.producers) == s.sema.added + Sum(Unsignalled(), s.pcs)
    && s.sema.acquired == I.Claimed(s.inner.producers) + Sum(Unserved(), s.pcs)
    && (forall t :: 0 <= t < |s.pcs| ==> ThreadOk(s.pcs[t], s.sema.pcs[t]))
    && forall t :: 0 <= t < |s.pcs| ==> WalkOk(s.pcs[t], s.inner, t)
  }

  // Inside a call the permits acquired are those the thread holds.
  lemma PerformCounts(s: S.State, pc: S.Pc, choice: S.Choice)
    requires pc.Sleep? ==> 0 < s.kernel
    requires (pc.Load? || pc.Cas?) && pc.mustWait ==> pc.held == 0
    ensures var (s', pc') := S.Perform(s, pc, choice);
      && s'.acquired - s.acquired == HeldBy(pc') - HeldBy(pc)
      && s'.added - s.added == (if pc.Add? then pc.n else 0)
      && (pc.Add? || pc.Release? ==> !pc'.Add?)
  {}

  lemma WeightsAreNatural(s: State)
    requires Inv(s)
    ensures 0 <= Sum(Unserved(), s.pcs) && 0 <= Sum(Unsignalled(), s.pcs)
  {
    forall t | 0 <= t < |s.pcs| ensures 0 <= Unserved()(s.pcs[t]) {
      assert ThreadOk(s.pcs[t], s.sema.pcs[t]);
    }
    SumNonNegative(Unserved(), s.pcs);
    SumNonNegative(Unsignalled(), s.pcs);
  }

  // A step of one thread, with the counts to match.
  lemma BalancedStepKeepsInv(s: State, s': State, t: nat, pc': Pc)
    requires Inv(s) && t < |s.pcs| && s'.pcs == s.pcs[t := pc'] && S.Inv(s'.sema) && |s'.sema.pcs| == |s.pcs|
    requires I.Ok(s'.inner) && I.Shaped(s'.inner) && |s'.inner.walks| == |s.pcs|
    requires forall u :: 0 <= u < |s.pcs| && u != t ==> s'.sema.pcs[u] == s.sema.pcs[u]
    requires forall u :: 0 <= u < |s.pcs| && u != t ==>
      s'.inner.walks[u] == s.inner.walks[u] && I.Got(s'.inner, u) == I.Got(s.inner, u)
    requires ThreadOk(pc', s'.sema.pcs[t]) && WalkOk(pc', s'.inner, t)
    requires I.Published(s'.inner.producers) - I.Published(s.inner.producers)
             == s'.sema.added - s.sema.added + Unsignalled()(pc') - Unsignalled()(s.pcs[t])
    requires s'.sema.acquired - s.sema.acquired
             == I.Claimed(s'.inner.producers) - I.Claimed(s.inner.producers) + Unserved()(pc') - Unserved()(s.pcs[t])
    ensures Inv(s')
  {
    hide ThreadOk, S.Inv, I.Ok, I.Got;
    SumUpdate(Unsignalled(), s.pcs, t, pc');
    SumUpdate(Unserved(), s.pcs, t, pc');
    forall u | 0 <= u < |s.pcs| && u != t ensures WalkOk(s'.pcs[u], s'.inner, u) {
      assert WalkOk(s.pcs[u], s.inner, u);
    }
  }

  lemma SemaStepKeepsInv(w: nat, s: State, t: nat, choice: S.Choice)
    requires Inv(s) && Enabled(w, s, Sema(t, choice))
    ensures Inv(Step(w, s, Sema(t, choice)))
  {
    hide S.Inv, I.Ok, I.Got, I.Enabled;
    S.StepKeepsInv(s.sema, S.Advance(t, choice));
    assert ThreadOk(s.pcs[t], s.sema.pcs[t]) && WalkOk(s.pcs[t], s.inner, t);
    PerformCounts(s.sema, s.sema.pcs[t], choice);
    S.StepKeepsWithin(s.sema, s.sema.pcs[t], choice,
                      if s.pcs[t].Signalling? then S.Signal(s.pcs[t].n) else s.pcs[t].call);
    var s' := Step(w, s, Sema(t, choice));
    hide S.Perform, S.Within;
    BalancedStepKeepsInv(s, s', t, s'.pcs[t]);
  }

  lemma OkIsShaped(s: I.State)
    requires I.Ok(s)
    ensures I.Shaped(s)
  {}

  // An attempt is given no more than it wants.
  lemma GotAtMostWanted(s: I.State, t: nat)
    requires I.Ok(s) && t < |s.walks|
    ensures 0 <= I.Got(s, t) <= I.Wanted(s.walks[t])
  {
    assert I.WalkOk(s, t);
  }

  lemma WalkKeepsInv(w: nat, s: State, t: nat)
    requires Inv(s) && Enabled(w, s, Walk(t))
    ensures Inv(Step(w, s, Walk(t)))
  {
    hide S.Inv, I.Ok, I.Got;
    assert ThreadOk(s.pcs[t], s.sema.pcs[t]) && WalkOk(s.pcs[t], s.inner, t);
    var s' := Step(w, s, Walk(t));
    if s.inner.walks[t].Over? {
      I.CallKeepsOk(w, s.inner, I.End(t));
      OverGot(s.inner, t);
      GotAtMostWanted(s.inner, t);
    } else {
      I.GoKeepsOk(w, s.inner, t);
      GotAtMostWanted(s'.inner, t);
      GotAtMostWanted(s.inner, t);
    }
    OkIsShaped(s'.inner);
    hide I.Step, I.Enabled;
    BalancedStepKeepsInv(s, s', t, s'.pcs[t]);
  }

  lemma OverGot(s: I.State, t: nat)
    requires I.Shaped(s) && t < |s.walks| && s.walks[t].Over?
    ensures I.Got(s, t) == s.walks[t].count
  {}

  lemma AttemptKeepsInv(w: nat, s: State, t: nat, bulk: bool)
    requires Inv(s) && Enabled(w, s, Attempt(t, bulk))
    ensures Inv(Step(w, s, Attempt(t, bulk)))
  {
    hide S.Inv, I.Ok;
    assert ThreadOk(s.pcs[t], s.sema.pcs[t]) && WalkOk(s.pcs[t], s.inner, t);
    var s' := Step(w, s, Attempt(t, bulk));
    I.CallKeepsOk(w, s.inner, I.Begin(t, s.pcs[t].owed, bulk));
    OkIsShaped(s'.inner);
    BalancedStepKeepsInv(s, s', t, s'.pcs[t]);
  }

  lemma RegisterKeepsInv(w: nat, s: State, t: nat)
    requires Inv(s) && Enabled(w, s, Register(t))
    ensures Inv(Step(w, s, Register(t)))
  {
    hide S.Inv, I.Ok, I.Got;
    var s' := Step(w, s, Register(t));
    assert ThreadOk(s.pcs[t], s.sema.pcs[t]) && WalkOk(s.pcs[t], s.inner, t);
    I.AddProducerKeepsOk(w, s.inner);
    OkIsShaped(s'.inner);
    assert s'.pcs == s.pcs[t := s.pcs[t]];
    hide I.Step, I.Enabled;
    BalancedStepKeepsInv(s, s', t, s.pcs[t]);
  }

  lemma EnqueueKeepsInv(w: nat, s: State, t: nat, p: nat, ok: bool)
    requires Inv(s) && Enabled(w, s, Inner(t, p, ok))
    ensures Inv(Step(w, s, Inner(t, p, ok)))
  {
    hide S.Inv, I.Ok, I.Got;
    var s' := Step(w, s, Inner(t, p, ok));
    assert ThreadOk(s.pcs[t], s.sema.pcs[t]) && WalkOk(s.pcs[t], s.inner, t);
    if ok {
      S.StepKeepsInv(s.sema, S.Begin(t, S.Signal(s.pcs[t].n)));
      I.PublishKeepsOk(w, s.inner, p, s.pcs[t].n);
      OkIsShaped(s'.inner);
    }
    hide I.Step, I.Enabled;
    BalancedStepKeepsInv(s, s', t, s'.pcs[t]);
  }

  lemma StepKeepsInv(w: nat, s: State, a: Action)
    requires Inv(s) && Enabled(w, s, a)
    ensures Inv(Step(w, s, a))
  {
    hide I.Ok, I.Got, I.Step, I.Enabled, S.Inv, WalkOn;
    var t := a.thread;
    var s' := Step(w, s, a);
    assert ThreadOk(s.pcs[t], s.sema.pcs[t]) && WalkOk(s.pcs[t], s.inner, t);
    match a
    case Sema(_, choice) => SemaStepKeepsInv(w, s, t, choice);
    case Attempt(_, bulk) => AttemptKeepsInv(w, s, t, bulk);
    case Walk(_) => WalkKeepsInv(w, s, t);
    case Inner(_, p, ok) => EnqueueKeepsInv(w, s, t, p, ok);
    case Register(_) => RegisterKeepsInv(w, s, t);
    case StartDequeue(_, call) =>
      S.StepKeepsInv(s.sema, S.Begin(t, call));
      BalancedStepKeepsInv(s, s', t, s'.pcs[t]);
    case Signalled(_) =>
      S.StepKeepsInv(s.sema, S.Return(t));
      BalancedStepKeepsInv(s, s', t, s'.pcs[t]);
    case Acquired(_) =>
      S.StepKeepsInv(s.sema, S.Return(t));
      BalancedStepKeepsInv(s, s', t, s'.pcs[t]);
    case _ => BalancedStepKeepsInv(s, s', t, s'.pcs[t]);
  }

  function Run(w: nat, s: State, schedule: seq<Action>): State
    decreases |schedule|
  {
    if |schedule| == 0 then s
    else Run(w, if Enabled(w, s, schedule[0]) then Step(w, s, schedule[0]) else s, schedule[1..])
  }

  // An empty queue with a semaphore that starts at zero.
  ghost predicate Initial(s: State) {
    && S.Initial(s.sema) && s.sema.count == 0 && |s.sema.pcs| == |s.inner.walks| == |s.pcs|
    && s.inner.producers == []
    && forall t :: 0 <= t < |s.pcs| ==> s.pcs[t].Idle? && s.inner.walks[t].Rest?
  }

  lemma {:induction false} RunKeepsInv(w: nat, s: State, schedule: seq<Action>)
    requires Inv(s)
    ensures Inv(Run(w, s, schedule))
    decreases |schedule|
  {
    hide Inv;
    if |schedule| > 0 {
      if Enabled(w, s, schedule[0]) {
        StepKeepsInv(w, s, schedule[0]);
        RunKeepsInv(w, Step(w, s, schedule[0]), schedule[1..]);
      } else {
        RunKeepsInv(w, s, schedule[1..]);
      }
    }
  }

  /** Any number of producers and consumers, single and bulk, any interleaving. */
  lemma EveryRunKeepsInv(w: nat, s: State, schedule: seq<Action>)
    requires Initial(s)
    ensures Inv(Run(w, s, schedule))
  {
    SumZero(S.Asleep(), s.sema.pcs);
    SumZero(S.Promised(), s.sema.pcs);
    SumZero(Unsignalled(), s.pcs);
    SumZero(Unserved(), s.pcs);
    RunKeepsInv(w, s, schedule);
  }

  // ---- What it means ----

  /** Items claimed by dequeues, permits acquired, permits signalled, items enqueued: each at most the next. */
  lemma CountsAreOrdered(s: State)
    requires Inv(s)
    ensures I.Claimed(s.inner.producers) <= s.sema.acquired <= s.sema.added <= I.Published(s.inner.producers)
  {
    WeightsAreNatural(s);
    S.AcquiredAtMostAdded(s.sema);
  }

  /** All the consumers in their retry loops together are owed no more items than there are, and so is each. */
  lemma OwedItemsAreThere(s: State, t: nat)
    requires Inv(s) && t < |s.pcs| && (s.pcs[t].Draining? || s.pcs[t].Walking?)
    ensures Unserved()(s.pcs[t]) <= Sum(Unserved(), s.pcs) <= I.Published(s.inner.producers) - I.Claimed(s.inner.producers)
    ensures s.pcs[t].Draining? ==> 1 <= Unserved()(s.pcs[t]) == s.pcs[t].owed
  {
    CountsAreOrdered(s);
    forall u | 0 <= u < |s.pcs| ensures 0 <= Unserved()(s.pcs[u]) {
      assert ThreadOk(s.pcs[u], s.sema.pcs[u]);
    }
    SumBoundsMember(Unserved(), s.pcs, t);
  }

  /** A dequeue delivers exactly one item for each permit it took: at most max, and at least one if it waited. */
  lemma ReturnsWhatItTook(s: State, t: nat)
    requires Inv(s) && t < |s.pcs| && s.pcs[t].Returned?
    ensures var Returned(call, count) := s.pcs[t];
      !call.Signal? && count <= call.max && (call.Wait? && 0 < call.max ==> 1 <= count)
  {
    assert ThreadOk(s.pcs[t], s.sema.pcs[t]);
  }

  /** With all calls finished every item is either dequeued or signalled and free to be taken. */
  lemma NothingLeftBehind(s: State)
    requires Inv(s) && forall t :: 0 <= t < |s.pcs| ==> s.pcs[t].Idle? || s.pcs[t].Returned?
    ensures I.Published(s.inner.producers) - I.Claimed(s.inner.producers) == S.Positive(s.sema.count)
    ensures s.sema.kernel == 0
  {
    SumZero(Unsignalled(), s.pcs);
    SumZero(Unserved(), s.pcs);
    forall t | 0 <= t < |s.pcs| ensures s.sema.pcs[t].Idle? {
      assert ThreadOk(s.pcs[t], s.sema.pcs[t]);
    }
    SumZero(S.Asleep(), s.sema.pcs);
    SumZero(S.Promised(), s.sema.pcs);
  }
}
