/** How much a dequeue of the blocking queue returns, measured by the permits there were while it ran. */
module BlockingCalls {
  import opened BlockingQueue
  import opened BlockingResults
  import opened BlockingWindow
  import opened Common
  import C = DequeueClaims
  import I = InnerQueue
  import S = Semaphore

  // Thread t takes its permits.
  ghost predicate Taking(s: State, t: nat, call: S.Call) {
    && t < |s.pcs| && t < |s.sema.pcs| && s.pcs[t].Acquiring? && s.pcs[t].call == call
    && S.Within(call, s.sema.pcs[t])
  }

  // It has taken `got` of them and will return as many items.
  ghost predicate HasTaken(s: State, t: nat, call: S.Call, got: nat) {
    && t < |s.pcs| && t < |s.sema.pcs|
    && ((Taking(s, t, call) && s.sema.pcs[t] == S.Done(got)) || Holds(s.pcs[t], call, got))
  }

  // What is known of a call that took `got` permits.
  predicate TookWhatWasThere(s: State, s': State, call: S.Call, got: nat)
    requires !call.Signal?
  {
    && (call.Try? ==> got == S.Min(call.max, S.Positive(s.sema.count)))
    && (got < call.max ==> s'.sema.count <= 0)
  }

  lemma StartTakes(w: nat, s: State, t: nat, call: S.Call)
    requires Enabled(w, s, StartDequeue(t, call))
    ensures var s' := Step(w, s, StartDequeue(t, call)); Taking(s', t, call) && !s'.sema.pcs[t].Done?
  {
    hide I.Enabled;
  }

  // A step of anyone before the permits are taken.
  lemma StepTakes(w: nat, s: State, a: Action, t: nat, call: S.Call)
    requires Inv(s) && Enabled(w, s, a) && Taking(s, t, call) && !s.sema.pcs[t].Done? && !call.Signal?
    ensures var s' := Step(w, s, a);
      && Taking(s', t, call)
      && (s'.sema.pcs[t].Done? ==>
            HasTaken(s', t, call, s'.sema.pcs[t].got) && TookWhatWasThere(s, s', call, s'.sema.pcs[t].got))
  {
    hide Inv, I.Enabled, I.Step, S.Perform, S.Within;
    if a.Sema? && a.thread == t {
      S.StepWithin(s.sema, t, call, S.Advance(t, a.choice));
    }
  }

  // A step of anyone after that.
  lemma StepKeepsTaken(w: nat, s: State, a: Action, t: nat, call: S.Call, got: nat)
    requires Inv(s) && Enabled(w, s, a) && HasTaken(s, t, call, got) && a != Leave(t)
    ensures HasTaken(Step(w, s, a), t, call, got)
  {
    var s' := Step(w, s, a);
    if Holds(s.pcs[t], call, got) {
      StepKeepsHolding(w, s, a, t, call, got);
      StepKeepsInv(w, s, a);
    } else if a.thread == t {
      hide Inv, I.Enabled, I.Step, S.Within;
    } else {
      hide Inv, I.Enabled, I.Step, S.Within, S.Perform;
    }
  }

  lemma {:induction false} RunKeepsTaken(w: nat, s: State, t: nat, call: S.Call, got: nat, schedule: seq<Action>)
    requires Inv(s) && HasTaken(s, t, call, got) && Leave(t) !in schedule
    ensures HasTaken(Run(w, s, schedule), t, call, got)
    decreases |schedule|
  {
    hide Inv, HasTaken, Enabled, Step;
    if |schedule| > 0 {
      if Enabled(w, s, schedule[0]) {
        StepKeepsInv(w, s, schedule[0]);
        StepKeepsTaken(w, s, schedule[0], t, call, got);
        RunKeepsTaken(w, Step(w, s, schedule[0]), t, call, got, schedule[1..]);
      } else {
        RunKeepsTaken(w, s, t, call, got, schedule[1..]);
      }
    }
  }

  lemma TakenIsReturned(s: State, t: nat, call: S.Call, got: nat)
    requires HasTaken(s, t, call, got) && s.pcs[t].Returned?
    ensures s.pcs[t].count == got
  {}

  lemma NotReturned(s: State, t: nat, call: S.Call)
    requires Taking(s, t, call)
    ensures !s.pcs[t].Returned?
  {}

  /** In any run, whatever the other threads do: a try_dequeue returns exactly as many items as the smaller of what it asks
      for and the free permits of a state between its start and its end, nothing only if no permit was free; and a
      dequeue that returns fewer than it asks for, waiting or not, has been through a state without a free permit. */
  lemma {:induction false} DequeueTakesWhatIsFree(w: nat, s: State, t: nat, call: S.Call, schedule: seq<Action>)
    returns (k: nat, none: nat)
    requires Inv(s) && Taking(s, t, call) && !s.sema.pcs[t].Done? && !call.Signal? && Leave(t) !in schedule
    requires t < |Run(w, s, schedule).pcs| && Run(w, s, schedule).pcs[t].Returned?
    ensures k <= |schedule| && none <= |schedule|
    ensures var count := Run(w, s, schedule).pcs[t].count;
      && (call.Try? ==> count == S.Min(call.max, S.Positive(Run(w, s, schedule[..k]).sema.count)))
      && (count < call.max ==> Run(w, s, schedule[..none]).sema.count <= 0)
    decreases |schedule|
  {
    hide Inv, Step, Enabled, Taking, HasTaken;
    NotReturned(s, t, call);
    assert |schedule| > 0;
    var a := schedule[0];
    if !Enabled(w, s, a) {
      var j, m := DequeueTakesWhatIsFree(w, s, t, call, schedule[1..]);
      k, none := j + 1, m + 1;
    } else {
      StepTakes(w, s, a, t, call);
      StepKeepsInv(w, s, a);
      var s' := Step(w, s, a);
      InRange(s', t, call);
      if s'.sema.pcs[t].Done? {
        RunKeepsTaken(w, s', t, call, s'.sema.pcs[t].got, schedule[1..]);
        TakenIsReturned(Run(w, s', schedule[1..]), t, call, s'.sema.pcs[t].got);
        k, none := 0, 1;
        assert schedule[..1][1..] == [];
        assert schedule[..0] == [];
        return;
      }
      var j, m := DequeueTakesWhatIsFree(w, s', t, call, schedule[1..]);
      k, none := j + 1, m + 1;
    }
    assert schedule[..k][0] == a && schedule[..k][1..] == schedule[1..][..k - 1];
    assert schedule[..none][0] == a && schedule[..none][1..] == schedule[1..][..none - 1];
  }

  lemma InRange(s: State, t: nat, call: S.Call)
    requires Taking(s, t, call)
    ensures t < |s.pcs| && t < |s.sema.pcs|
  {}

  /** Where no permit is free and no signal is half done, every item is claimed or owed to a dequeue that is in flight. */
  lemma NoneFreeMeansAllOwed(s: State)
    requires Inv(s) && s.sema.count <= 0
    requires forall t :: 0 <= t < |s.pcs| ==> !s.pcs[t].Signalling?
    ensures I.Published(s.inner.producers) - I.Claimed(s.inner.producers) == s.sema.kernel + Sum(Unserved(), s.pcs)
    ensures 0 < s.sema.kernel ==> exists t :: 0 <= t < |s.sema.pcs| && s.sema.pcs[t].Sleep?
  {
    SumZero(Unsignalled(), s.pcs);
    forall t | 0 <= t < |s.sema.pcs| ensures !s.sema.pcs[t].Release? {
      assert ThreadOk(s.pcs[t], s.sema.pcs[t]);
    }
    hide ThreadOk, WalkOk, I.Ok;
    SumZero(S.Promised(), s.sema.pcs);
    if 0 < s.sema.kernel {
      var t := SumPositiveWitness(S.Asleep(), s.sema.pcs);
      assert s.sema.pcs[t].Sleep?;
    }
  }

  // ---- Everyone can go on ----

  lemma ClaimCanGoOn(c: C.State, t: nat)
    requires C.Inv(c) && t < |c.pcs|
    ensures C.Enabled(c, C.Advance(t))
  {
    C.AdvanceIsEnabled(c, C.Advance(t));
  }

  // A thread inside a walk has a next access.
  lemma WalkCanGoOn(w: nat, s: I.State, t: nat)
    requires Sound(w, s) && I.Ok(s) && I.Shaped(s) && t < |s.walks| && !s.walks[t].Rest? && !s.walks[t].Over?
    ensures I.Enabled(w, s, I.Go(t))
  {
    hide C.Inv;
    assert I.WalkOk(s, t);
    if I.Inside(s.walks[t]).Some? {
      ClaimCanGoOn(s.producers[I.Inside(s.walks[t]).value], t);
    }
  }

  // One at rest may begin one.
  lemma WalkCanBegin(w: nat, s: I.State, t: nat, max: nat)
    requires 1 <= w && I.Ok(s) && I.Shaped(s) && t < |s.walks| && s.walks[t].Rest? && 1 <= max
    ensures I.Enabled(w, s, I.Begin(t, max, true))
  {
    assert I.WalkOk(s, t);
  }

  // The step thread t may take next.
  function NextStep(s: State, t: nat): Action
    requires t < |s.pcs| && t < |s.sema.pcs|
  {
    match s.pcs[t]
    case Idle => StartEnqueue(t, 1)
    case Enqueue(_) => Inner(t, 0, false)
    case Signalling(_, _) => if s.sema.pcs[t].Done? then Signalled(t) else Sema(t, S.Usual)
    case Acquiring(_, _) => if s.sema.pcs[t].Done? then Acquired(t) else Sema(t, S.Usual)
    case Draining(_, _, _) => Attempt(t, true)
    case Walking(_, _, _, _) => Walk(t)
    case Returned(_, _) => Leave(t)
  }

  /** No thread is ever stuck, unless it sleeps on the kernel semaphore and that has no permit. */
  lemma NobodyIsStuck(w: nat, s: State, t: nat)
    requires Inv(s) && Sound(w, s.inner) && t < |s.pcs|
    ensures t < |s.sema.pcs|
    ensures Enabled(w, s, NextStep(s, t)) || (s.sema.pcs[t].Sleep? && s.sema.kernel == 0)
  {
    assert ThreadOk(s.pcs[t], s.sema.pcs[t]) && WalkOk(s.pcs[t], s.inner, t);
    hide S.Inv, I.Ok, I.Got, Sound;
    assert 1 <= w by { SoundHasWords(w, s.inner); }
    if s.pcs[t].Draining? {
      hide I.Enabled;
      WalkCanBegin(w, s.inner, t, s.pcs[t].owed);
    } else if s.pcs[t].Walking? {
      if !s.inner.walks[t].Over? {
        hide I.Enabled;
        WalkCanGoOn(w, s.inner, t);
      }
    }
  }

  lemma SoundHasWords(w: nat, s: I.State)
    requires Sound(w, s)
    ensures 1 <= w
  {}
}
