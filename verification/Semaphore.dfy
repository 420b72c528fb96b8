/** The lightweight semaphore: an atomic count that goes negative by the number of sleeping threads, paired with a
    kernel semaphore that is only touched when somebody sleeps. */
module Semaphore {
  import opened Common

  // A call: tryWaitMany, of which tryWait is the case max = 1; waitMany, of which wait is the case max = 1; signal.
  datatype Call = Try(max: nat) | Wait(max: nat) | Signal(n: nat)

  // Where a thread stands: the constructor names its next atomic access. After a failed compare-and-swap the count is
  // known without another load. mustWait: the call goes on to wait when it acquires nothing; held: permits this call
  // has acquired already.
  datatype Pc =
    | Idle
    | Load(max: nat, mustWait: bool, held: nat)
    | Cas(max: nat, mustWait: bool, held: nat, expected: int)
    | Spin(max: nat)
    | SpinCas(max: nat, expected: int)
    | Sleep(max: nat)
    | Add(n: nat)
    | Release(n: nat)
    | Done(got: nat)

  // m_count and the permits of the kernel semaphore. Auxiliary: `added`, the initial count and all that was signalled;
  // `acquired`, the permits taken by calls.
  datatype State = State(count: int, kernel: nat, pcs: seq<Pc>, added: nat, acquired: nat)

  // What the scheduler chooses: how a spinning thread goes on, and whether a weak compare-and-swap fails spuriously.
  datatype Choice = Usual | GiveUpSpinning | Spurious

  datatype Action = Begin(thread: nat, call: Call) | Advance(thread: nat, choice: Choice) | Return(thread: nat)

  function Min(a: int, b: int): int { if a < b then a else b }

  // The count after taking up to max permits from a positive one.
  function Less(old': int, max: nat): int { if old' > max then old' - max else 0 }

  // What a call does that found nothing to take.
  function Missed(max: nat, mustWait: bool, held: nat): Pc {
    if mustWait && 0 < max then Spin(max) else Done(held)
  }

  function Start(call: Call): Pc {
    match call
    case Try(max) => Load(max, false, 0)
    case Wait(max) => Load(max, true, 0)
    case Signal(n) => Add(n)
  }

  // Having got its first permit by waiting, a call tries for the rest.
  function GotOne(max: nat): Pc { if 1 < max then Load(max - 1, false, 1) else Done(1) }

  predicate Enabled(s: State, a: Action) {
    match a
    case Begin(t, _) => t < |s.pcs| && s.pcs[t].Idle?
    case Advance(t, _) => t < |s.pcs| && (s.pcs[t].Sleep? ==> 0 < s.kernel)
    case Return(t) => t < |s.pcs| && s.pcs[t].Done?
  }

  function Perform(s: State, pc: Pc, choice: Choice): (State, Pc)
    requires pc.Sleep? ==> 0 < s.kernel
  {
    match pc
    case Idle => (s, pc)
    case Load(max, mustWait, held) =>
      (s, if 0 < s.count then Cas(max, mustWait, held, s.count) else Missed(max, mustWait, held))
    case Cas(max, mustWait, held, expected) =>
      if s.count == expected && choice != Spurious && 0 < expected then
        var taken := expected - Less(expected, max);
        (s.(count := Less(expected, max), acquired := s.acquired + taken),
         if taken == 0 then Missed(max, mustWait, held) else Done(held + taken))
      else (s, if 0 < s.count then Cas(max, mustWait, held, s.count) else Missed(max, mustWait, held))
    case Spin(max) =>
      if choice == GiveUpSpinning then
        if s.count <= 0 then (s.(count := s.count - 1), Sleep(max))
        else (s.(count := s.count - 1, acquired := s.acquired + 1), GotOne(max))
      else (s, if 0 < s.count then SpinCas(max, s.count) else pc)
    case SpinCas(max, expected) =>
      if s.count == expected && 0 < expected then
        (s.(count := Less(expected, max), acquired := s.acquired + (expected - Less(expected, max))),
         if 0 < expected - Less(expected, max) then Done(expected - Less(expected, max)) else Spin(max))
      else (s, Spin(max))
    case Sleep(max) => (s.(kernel := s.kernel - 1, acquired := s.acquired + 1), GotOne(max))
    case Add(n) =>
      var toRelease := Min(0 - s.count, n);
      (s.(count := s.count + n, added := s.added + n), if 0 < toRelease then Release(toRelease) else Done(0))
    case Release(n) => (s.(kernel := s.kernel + n), Done(0))
    case Done(_) => (s, pc)
  }

  function Step(s: State, a: Action): State
    requires Enabled(s, a)
  {
    match a
    case Begin(t, call) => s.(pcs := s.pcs[t := Start(call)])
    case Advance(t, choice) =>
      var (s', pc') := Perform(s, s.pcs[t], choice);
      s'.(pcs := s.pcs[t := pc'])
    case Return(t) => s.(pcs := s.pcs[t := Idle])
  }

  // ---- The invariant ----

  ghost function Asleep(): Pc -> int { (pc: Pc) => if pc.Sleep? then 1 else 0 }

  // Kernel permits a signal has promised and not posted yet.
  ghost function Promised(): Pc -> int { (pc: Pc) => if pc.Release? then pc.n else 0 }

  function Positive(x: int): nat { if x < 0 then 0 else x }

  ghost predicate Inv(s: State) {
    && Sum(Asleep(), s.pcs) == Positive(0 - s.count) + s.kernel + Sum(Promised(), s.pcs)
    && s.acquired + Positive(s.count) + s.kernel + Sum(Promised(), s.pcs) == s.added
  }

  // One access changes both sides of each balance alike.
  lemma PerformBalances(s: State, pc: Pc, choice: Choice)
    requires pc.Sleep? ==> 0 < s.kernel
    ensures var (s', pc') := Perform(s, pc, choice);
      && Asleep()(pc') - Asleep()(pc) - (Promised()(pc') - Promised()(pc)) ==
         Positive(0 - s'.count) - Positive(0 - s.count) + s'.kernel - s.kernel
      && s'.acquired - s.acquired + Positive(s'.count) - Positive(s.count) + s'.kernel - s.kernel
         + Promised()(pc') - Promised()(pc) == s'.added - s.added
  {}

  lemma StepKeepsInv(s: State, a: Action)
    requires Inv(s) && Enabled(s, a)
    ensures Inv(Step(s, a))
  {
    var t := a.thread;
    var s' := Step(s, a);
    SumUpdate(Asleep(), s.pcs, t, s'.pcs[t]);
    SumUpdate(Promised(), s.pcs, t, s'.pcs[t]);
    if a.Advance? {
      PerformBalances(s, s.pcs[t], a.choice);
      hide Perform, Positive;
    }
  }

  function Run(s: State, schedule: seq<Action>): State
    decreases |schedule|
  {
    if |schedule| == 0 then s else Run(if Enabled(s, schedule[0]) then Step(s, schedule[0]) else s, schedule[1..])
  }

  ghost predicate Initial(s: State) {
    && 0 <= s.count && s.kernel == 0 && s.added == s.count && s.acquired == 0
    && forall t :: 0 <= t < |s.pcs| ==> s.pcs[t].Idle?
  }

  lemma {:induction false} RunKeepsInv(s: State, schedule: seq<Action>)
    requires Inv(s)
    ensures Inv(Run(s, schedule))
    decreases |schedule|
  {
    if |schedule| > 0 {
      if Enabled(s, schedule[0]) {
        StepKeepsInv(s, schedule[0]);
        RunKeepsInv(Step(s, schedule[0]), schedule[1..]);
      } else {
        RunKeepsInv(s, schedule[1..]);
      }
    }
  }

  /** Any number of threads, any calls, any interleaving, any spinning. */
  lemma EveryRunKeepsInv(s: State, schedule: seq<Action>)
    requires Initial(s)
    ensures Inv(Run(s, schedule))
  {
    SumZero(Asleep(), s.pcs);
    SumZero(Promised(), s.pcs);
    RunKeepsInv(s, schedule);
  }

  // ---- What it means ----

  /** The permits taken never exceed those there were at first and those signalled since. */
  lemma AcquiredAtMostAdded(s: State)
    requires Inv(s)
    ensures s.acquired <= s.added
  {
    SumNonNegative(Promised(), s.pcs);
  }

  /** No wakeup is lost: when no signal is half done, every permit that has not been taken is either in the count,
      for anyone to take at once, or in the kernel semaphore, where it is owed to a thread that sleeps; and there are
      exactly as many sleepers as kernel permits and as the count is below zero. */
  lemma NoWakeupIsLost(s: State)
    requires Inv(s) && forall t :: 0 <= t < |s.pcs| ==> !s.pcs[t].Release?
    ensures s.added - s.acquired == Positive(s.count) + s.kernel
    ensures Sum(Asleep(), s.pcs) == Positive(0 - s.count) + s.kernel
    ensures s.acquired < s.added && s.count <= 0 ==> 0 < s.kernel && exists t :: 0 <= t < |s.pcs| && s.pcs[t].Sleep?
    ensures 0 < s.count ==> Sum(Asleep(), s.pcs) == s.kernel
  {
    SumZero(Promised(), s.pcs);
    if s.acquired < s.added && s.count <= 0 {
      var t := SumPositiveWitness(Asleep(), s.pcs);
      assert s.pcs[t].Sleep?;
    }
  }

  // ---- How much one call gets ----

  // What is known of a thread inside a call.
  ghost predicate Within(call: Call, pc: Pc) {
    match call
    case Signal(n) => pc == Add(n) || (pc.Release? && 1 <= pc.n <= n) || pc == Done(0)
    case Try(max) =>
      || ((pc.Load? || pc.Cas?) && pc.max == max && !pc.mustWait && pc.held == 0)
      || (pc.Done? && pc.got <= max)
    case Wait(max) =>
      || ((pc.Load? || pc.Cas?) && pc.mustWait && pc.held == 0 && pc.max == max)
      || ((pc.Load? || pc.Cas?) && !pc.mustWait && pc.held == 1 && pc.max + 1 == max)
      || ((pc.Spin? || pc.SpinCas? || pc.Sleep?) && 1 <= pc.max && pc.max == max)
      || (pc.Done? && pc.got <= max && (0 < max ==> 1 <= pc.got))
  }

  lemma StepKeepsWithin(s: State, pc: Pc, choice: Choice, call: Call)
    requires Within(call, pc) && (pc.Sleep? ==> 0 < s.kernel)
    ensures Within(call, Perform(s, pc, choice).1)
  {}

  // The steps one thread takes, whatever the others make of the shared state in between.
  function Alone(pc: Pc, seen: seq<(State, Choice)>): Pc
    decreases |seen|
  {
    if |seen| == 0 then pc
    else if pc.Sleep? && seen[0].0.kernel == 0 then Alone(pc, seen[1..])
    else Alone(Perform(seen[0].0, pc, seen[0].1).1, seen[1..])
  }

  lemma {:induction false} CallStaysWithin(call: Call, pc: Pc, seen: seq<(State, Choice)>)
    requires Within(call, pc)
    ensures Within(call, Alone(pc, seen))
    decreases |seen|
  {
    if |seen| > 0 {
      if !(pc.Sleep? && seen[0].0.kernel == 0) {
        StepKeepsWithin(seen[0].0, pc, seen[0].1, call);
        CallStaysWithin(call, Perform(seen[0].0, pc, seen[0].1).1, seen[1..]);
      } else {
        CallStaysWithin(call, pc, seen[1..]);
      }
    }
  }

  /** waitMany(max) with max > 0 returns between one and max permits, tryWaitMany(max) at most max, whatever states
      the shared count goes through meanwhile. */
  lemma CallGetsWhatItMay(call: Call, seen: seq<(State, Choice)>)
    ensures var pc := Alone(Start(call), seen);
      && (call.Wait? && pc.Done? ==> pc.got <= call.max && (0 < call.max ==> 1 <= pc.got))
      && (call.Try? && pc.Done? ==> pc.got <= call.max)
      && (call.Signal? && pc.Done? ==> pc.got == 0)
  {
    CallStaysWithin(call, Start(call), seen);
  }

  // ---- It takes what is there ----

  // The shared state after access i of a call, of those in `seen`.
  function AfterAccess(pc: Pc, seen: seq<(State, Choice)>, i: nat): State
    requires i < |seen|
  {
    var here := Alone(pc, seen[..i]);
    if here.Sleep? && seen[i].0.kernel == 0 then seen[i].0 else Perform(seen[i].0, here, seen[i].1).0
  }

  lemma {:induction false} AloneSplits(pc: Pc, seen: seq<(State, Choice)>, i: nat)
    requires i < |seen|
    ensures Alone(pc, seen[..i + 1]) == Alone(Alone(pc, seen[..i]), [seen[i]])
    decreases i
  {
    if i == 0 {
      assert seen[..1] == [seen[0]] && seen[..0] == [];
    } else {
      assert seen[..i + 1][0] == seen[0] && seen[..i][0] == seen[0];
      assert seen[..i + 1][1..] == seen[1..][..i] && seen[..i][1..] == seen[1..][..i - 1];
      var pc' := if pc.Sleep? && seen[0].0.kernel == 0 then pc else Perform(seen[0].0, pc, seen[0].1).1;
      AloneSplits(pc', seen[1..], i - 1);
    }
  }

  // What a call that has got `got` of the `max` permits it is for has seen.
  predicate Greedy(call: Call, pc: Pc) { !call.Signal? && pc.Done? && pc.got < call.max }

  lemma DoneByLeavingNothing(call: Call, s: State, pc: Pc, choice: Choice)
    requires Within(call, pc) && !pc.Done? && (pc.Sleep? ==> 0 < s.kernel)
    requires Greedy(call, Perform(s, pc, choice).1)
    ensures Perform(s, pc, choice).0.count <= 0
    ensures call.Try? ==> Perform(s, pc, choice).1.got == Min(call.max, Positive(s.count))
  {}

  /** Greedily: a call, waiting or not, that gets less than it asks for has left no permit behind in some state between
      its start and its end. */
  lemma {:induction false} LessLeavesNothing(call: Call, seen: seq<(State, Choice)>) returns (i: nat)
    requires Greedy(call, Alone(Start(call), seen))
    ensures i < |seen| && AfterAccess(Start(call), seen, i).count <= 0
    decreases |seen|
  {
    var last := |seen| - 1;
    assert |seen| > 0;
    AloneSplits(Start(call), seen, last);
    assert seen[..last + 1] == seen;
    var here := Alone(Start(call), seen[..last]);
    CallStaysWithin(call, Start(call), seen[..last]);
    if here.Done? {
      i := LessLeavesNothing(call, seen[..last]);
      assert seen[..last][..i] == seen[..i];
    } else {
      assert Alone(here, [seen[last]]) == Perform(seen[last].0, here, seen[last].1).1;
      DoneByLeavingNothing(call, seen[last].0, here, seen[last].1);
      i := last;
    }
  }

  lemma TryEndsWithMin(max: nat, s: State, pc: Pc, choice: Choice)
    requires Within(Try(max), pc) && !pc.Done? && Perform(s, pc, choice).1.Done?
    ensures Perform(s, pc, choice).1.got == Min(max, Positive(s.count))
    ensures Perform(s, pc, choice).0.count == s.count - Perform(s, pc, choice).1.got
  {}

  /** A try gets exactly the smaller of what it asks for and what was there in one of the states it saw, and takes it:
      nothing only if nothing was there. */
  lemma {:induction false} TryIsGreedy(max: nat, seen: seq<(State, Choice)>) returns (i: nat)
    requires Alone(Start(Try(max)), seen).Done?
    ensures i < |seen| && Alone(Start(Try(max)), seen).got == Min(max, Positive(seen[i].0.count))
    ensures AfterAccess(Start(Try(max)), seen, i).count == seen[i].0.count - Alone(Start(Try(max)), seen).got
    decreases |seen|
  {
    var last := |seen| - 1;
    assert |seen| > 0;
    AloneSplits(Start(Try(max)), seen, last);
    assert seen[..last + 1] == seen;
    var here := Alone(Start(Try(max)), seen[..last]);
    CallStaysWithin(Try(max), Start(Try(max)), seen[..last]);
    if here.Done? {
      i := TryIsGreedy(max, seen[..last]);
      assert seen[..last][..i] == seen[..i];
    } else {
      TryEndsWithMin(max, seen[last].0, here, seen[last].1);
      i := last;
    }
  }

  // The same in a run of the semaphore.

  lemma DoneStaysInRun(s: State, t: nat, schedule: seq<Action>)
    requires t < |s.pcs| && s.pcs[t].Done? && Return(t) !in schedule
    ensures t < |Run(s, schedule).pcs| && Run(s, schedule).pcs[t] == s.pcs[t]
    decreases |schedule|
  {
    if |schedule| > 0 {
      if Enabled(s, schedule[0]) {
        hide Perform;
        assert Step(s, schedule[0]).pcs[t] == s.pcs[t] by { OneStepOfDone(s, t, schedule[0]); }
        DoneStaysInRun(Step(s, schedule[0]), t, schedule[1..]);
      } else {
        DoneStaysInRun(s, t, schedule[1..]);
      }
    }
  }

  lemma OneStepOfDone(s: State, t: nat, a: Action)
    requires t < |s.pcs| && s.pcs[t].Done? && a != Return(t) && Enabled(s, a)
    ensures t < |Step(s, a).pcs| && Step(s, a).pcs[t] == s.pcs[t]
  {}

  // A step of anyone while thread t is in its call.
  lemma StepWithin(s: State, t: nat, call: Call, a: Action)
    requires t < |s.pcs| && Within(call, s.pcs[t]) && !s.pcs[t].Done? && a != Return(t) && Enabled(s, a)
    ensures var s' := Step(s, a);
      && t < |s'.pcs| && Within(call, s'.pcs[t])
      && (s'.pcs[t].Done? ==> a.Advance? && a.thread == t)
      && (s'.pcs[t].Done? && call.Try? ==> s'.pcs[t].got == Min(call.max, Positive(s.count)))
      && (Greedy(call, s'.pcs[t]) ==> s'.count <= 0)
  {
    if a.Advance? && a.thread == t {
      StepKeepsWithin(s, s.pcs[t], a.choice, call);
      if Perform(s, s.pcs[t], a.choice).1.Done? {
        if call.Try? {
          TryEndsWithMin(call.max, s, s.pcs[t], a.choice);
        }
        if Greedy(call, Perform(s, s.pcs[t], a.choice).1) {
          DoneByLeavingNothing(call, s, s.pcs[t], a.choice);
        }
      }
    }
  }

  /** In any run: a try gets exactly the smaller of what it asks for and the count of a state between its start and its
      end; and a call that gets less than it asks for, waiting or not, has been through a state without a permit. */
  lemma {:induction false} CallInRun(s: State, t: nat, call: Call, schedule: seq<Action>) returns (k: nat, none: nat)
    requires t < |s.pcs| && Within(call, s.pcs[t]) && !s.pcs[t].Done? && Return(t) !in schedule
    requires t < |Run(s, schedule).pcs| && Run(s, schedule).pcs[t].Done?
    ensures k <= |schedule|
    ensures call.Try? ==> Run(s, schedule).pcs[t].got == Min(call.max, Positive(Run(s, schedule[..k]).count))
    ensures none <= |schedule| && (Greedy(call, Run(s, schedule).pcs[t]) ==> Run(s, schedule[..none]).count <= 0)
    decreases |schedule|
  {
    hide Step, Enabled, Within, Greedy;
    assert |schedule| > 0;
    var a := schedule[0];
    if !Enabled(s, a) {
      var j, m := CallInRun(s, t, call, schedule[1..]);
      k, none := j + 1, m + 1;
    } else {
      StepWithin(s, t, call, a);
      var s' := Step(s, a);
      if s'.pcs[t].Done? {
        DoneStaysInRun(s', t, schedule[1..]);
        k, none := 0, 1;
        assert schedule[..1][1..] == [];
        assert schedule[..0] == [];
        return;
      }
      var j, m := CallInRun(s', t, call, schedule[1..]);
      k, none := j + 1, m + 1;
    }
    assert schedule[..k][0] == a && schedule[..k][1..] == schedule[1..][..k - 1];
    assert schedule[..none][0] == a && schedule[..none][1..] == schedule[1..][..none - 1];
  }

  // ---- Alone ----

  // Thread t takes its steps and nobody else takes any.
  function Solo(s: State, t: nat, choices: seq<Choice>): State
    decreases |choices|
  {
    if |choices| == 0 then s
    else Solo(if Enabled(s, Advance(t, choices[0])) then Step(s, Advance(t, choices[0])) else s, t, choices[1..])
  }

  // What it leaves when it has got k permits.
  predicate HasGot(s: State, s': State, t: nat, k: int) {
    && |s'.pcs| == |s.pcs| && t < |s.pcs| && s'.pcs[t].Done? && s'.pcs[t].got == k && s'.count == s.count - k
    && s'.acquired == s.acquired + k && s'.kernel == s.kernel
  }

  lemma {:induction false} DoneStays(s: State, t: nat, choices: seq<Choice>)
    requires t < |s.pcs| && s.pcs[t].Done?
    ensures Solo(s, t, choices) == s
    decreases |choices|
  {
    if |choices| > 0 {
      assert Step(s, Advance(t, choices[0])) == s;
      DoneStays(s, t, choices[1..]);
    }
  }

  // Its compare-and-swap may fail spuriously any number of times, but not for ever.
  lemma {:induction false} SwapSucceeds(s: State, t: nat, max: nat, mustWait: bool, choices: seq<Choice>)
    requires t < |s.pcs| && 0 < s.count && s.pcs[t] == Cas(max, mustWait, 0, s.count) && (mustWait ==> 0 < max)
    requires exists i :: 0 <= i < |choices| && choices[i] != Spurious
    ensures HasGot(s, Solo(s, t, choices), t, Min(max, s.count))
    decreases |choices|
  {
    var s1 := Step(s, Advance(t, choices[0]));
    if choices[0] == Spurious {
      assert s1 == s;
      var i :| 0 <= i < |choices| && choices[i] != Spurious;
      assert choices[1..][i - 1] != Spurious;
      SwapSucceeds(s, t, max, mustWait, choices[1..]);
    } else {
      DoneStays(s1, t, choices[1..]);
    }
  }

  /** Alone, a call that finds permits gets exactly the smaller of what it asks for and what is there. */
  lemma AloneGetsMin(s: State, t: nat, call: Call, choices: seq<Choice>)
    requires Enabled(s, Begin(t, call)) && 0 < s.count && (call.Try? || (call.Wait? && 0 < call.max))
    requires exists i :: 1 <= i < |choices| && choices[i] != Spurious
    ensures HasGot(s, Solo(Step(s, Begin(t, call)), t, choices), t, Min(call.max, s.count))
  {
    var s1 := Step(s, Begin(t, call));
    var s2 := Step(s1, Advance(t, choices[0]));
    var i :| 1 <= i < |choices| && choices[i] != Spurious;
    assert choices[1..][i - 1] != Spurious;
    SwapSucceeds(s2, t, call.max, call.Wait?, choices[1..]);
  }

  /** Alone, a waiting call that finds no permit and gives up spinning goes to sleep, counted among the sleepers. */
  lemma AloneSleeps(s: State, t: nat, max: nat, choice: Choice)
    requires Enabled(s, Begin(t, Wait(max))) && s.count <= 0 && 0 < max
    ensures var s' := Solo(Step(s, Begin(t, Wait(max))), t, [choice, GiveUpSpinning]);
      |s'.pcs| == |s.pcs| && s'.pcs[t] == Sleep(max) && s'.count == s.count - 1 && s'.acquired == s.acquired
  {
    var s1 := Step(s, Begin(t, Wait(max)));
    var s2 := Step(s1, Advance(t, choice));
    assert s2.pcs[t] == Spin(max);
    var s3 := Step(s2, Advance(t, GiveUpSpinning));
    assert [choice, GiveUpSpinning][1..] == [GiveUpSpinning];
    assert Solo(s2, t, [GiveUpSpinning]) == Solo(s3, t, []);
  }

  // A call that has got its first permit by waiting, alone.
  lemma GetsTheRest(s: State, t: nat, max: nat)
    requires t < |s.pcs| && 1 <= max && s.pcs[t] == GotOne(max)
    ensures var s' := Solo(s, t, [Usual, Usual]);
      |s'.pcs| == |s.pcs| && s'.pcs[t] == Done(1 + Min(max - 1, Positive(s.count)))
      && s'.count == s.count - Min(max - 1, Positive(s.count))
  {
    var s1 := Step(s, Advance(t, Usual));
    assert [Usual, Usual][1..] == [Usual];
    assert Solo(s, t, [Usual, Usual]) == Solo(s1, t, [Usual]);
    var s2 := Step(s1, Advance(t, Usual));
    assert Solo(s1, t, [Usual]) == Solo(s2, t, []);
  }

  /** Alone, a sleeper for which there is a permit in the kernel takes it, and with it what it may of the count. */
  lemma SleeperIsServed(s: State, t: nat, max: nat)
    requires t < |s.pcs| && s.pcs[t] == Sleep(max) && 1 <= max && 0 < s.kernel
    ensures var s' := Solo(s, t, [Usual, Usual, Usual]);
      && |s'.pcs| == |s.pcs| && s'.pcs[t] == Done(1 + Min(max - 1, Positive(s.count)))
      && s'.count == s.count - Min(max - 1, Positive(s.count))
  {
    var s1 := Step(s, Advance(t, Usual));
    assert [Usual, Usual, Usual][1..] == [Usual, Usual];
    GetsTheRest(s1, t, max);
  }

  /** Alone, a spinning thread takes what it may of the count if there is any, whether it goes on spinning or gives up. */
  lemma SpinnerIsServed(s: State, t: nat, max: nat)
    requires t < |s.pcs| && s.pcs[t] == Spin(max) && 1 <= max && 0 < s.count
    ensures var s' := Solo(s, t, [Usual, Usual]); |s'.pcs| == |s.pcs| && s'.pcs[t] == Done(Min(max, s.count))
    ensures var s' := Solo(s, t, [GiveUpSpinning, Usual, Usual]);
      |s'.pcs| == |s.pcs| && s'.pcs[t] == Done(Min(max, s.count))
  {
    var s1 := Step(s, Advance(t, Usual));
    assert [Usual, Usual][1..] == [Usual];
    var s2 := Step(s1, Advance(t, Usual));
    assert Solo(s1, t, [Usual]) == Solo(s2, t, []);
    var s3 := Step(s, Advance(t, GiveUpSpinning));
    assert [GiveUpSpinning, Usual, Usual][1..] == [Usual, Usual];
    GetsTheRest(s3, t, max);
  }

  // ---- The same steps, in place ----

  /** The semaphore and the threads that use it. Run performs the next atomic access of one thread. */
  class LightweightSemaphore {
    var m_count: int
    var m_sema: nat
    var pcs: seq<Pc>
    ghost var added: nat
    ghost var acquired: nat

    ghost function Abs(): State
      reads this
    {
      State(m_count, m_sema, pcs, added, acquired)
    }

    constructor (initialCount: nat, threads: nat)
      ensures Initial(Abs()) && m_count == initialCount && |pcs| == threads
    {
      m_count, m_sema, added, acquired := initialCount, 0, initialCount, 0;
      pcs := seq(threads, _ => Idle);
    }

    method Call(t: nat, call: Call)
      requires Enabled(Abs(), Begin(t, call))
      modifies this
      ensures Abs() == Step(old(Abs()), Begin(t, call))
    {
      match call
      case Try(max) => pcs := pcs[t := Load(max, false, 0)];
      case Wait(max) => pcs := pcs[t := Load(max, true, 0)];
      case Signal(n) => pcs := pcs[t := Add(n)];
    }

    method TryWaitMany(t: nat, choice: Choice)
      requires Enabled(Abs(), Advance(t, choice)) && (pcs[t].Load? || pcs[t].Cas?)
      modifies this
      ensures Abs() == Step(old(Abs()), Advance(t, choice))
    {
      var max, held, mustWait := pcs[t].max, pcs[t].held, pcs[t].mustWait;
      if pcs[t].Cas? && pcs[t].expected == m_count && choice != Spurious && 0 < m_count {
        var oldCount := m_count;
        var newCount := if oldCount > max then oldCount - max else 0;
        m_count := newCount;
        acquired := acquired + (oldCount - newCount);
        if oldCount - newCount == 0 {
          pcs := pcs[t := if mustWait && 0 < max then Spin(max) else Done(held)];
        } else {
          pcs := pcs[t := Done(held + (oldCount - newCount))];
        }
      } else if 0 < m_count {
        pcs := pcs[t := Cas(max, mustWait, held, m_count)];
      } else {
        pcs := pcs[t := if mustWait && 0 < max then Spin(max) else Done(held)];
      }
    }

    method WaitWithPartialSpinning(t: nat, choice: Choice)
      requires Enabled(Abs(), Advance(t, choice)) && (pcs[t].Spin? || pcs[t].SpinCas? || pcs[t].Sleep?)
      modifies this
      ensures Abs() == Step(old(Abs()), Advance(t, choice))
    {
      var max := pcs[t].max;
      if pcs[t].Sleep? {
        m_sema := m_sema - 1;
        acquired := acquired + 1;
        pcs := pcs[t := GotOne(max)];
      } else if pcs[t].SpinCas? {
        if pcs[t].expected == m_count && 0 < m_count {
          var oldCount := m_count;
          m_count := if oldCount > max then oldCount - max else 0;
          acquired := acquired + (oldCount - m_count);
          pcs := pcs[t := if 0 < oldCount - m_count then Done(oldCount - m_count) else Spin(max)];
        } else {
          pcs := pcs[t := Spin(max)];
        }
      } else if choice == GiveUpSpinning {
        var oldCount := m_count;
        m_count := m_count - 1;
        if oldCount <= 0 {
          pcs := pcs[t := Sleep(max)];
        } else {
          acquired := acquired + 1;
          pcs := pcs[t := GotOne(max)];
        }
      } else if 0 < m_count {
        pcs := pcs[t := SpinCas(max, m_count)];
      }
    }

    method SignalStep(t: nat, choice: Choice)
      requires Enabled(Abs(), Advance(t, choice)) && (pcs[t].Add? || pcs[t].Release?)
      modifies this
      ensures Abs() == Step(old(Abs()), Advance(t, choice))
    {
      match pcs[t]
      case Add(n) =>
        var oldCount := m_count;
        m_count := m_count + n;
        added := added + n;
        var toRelease := if 0 - oldCount < n then 0 - oldCount else n;
        pcs := pcs[t := if 0 < toRelease then Release(toRelease) else Done(0)];
      case Release(n) =>
        m_sema := m_sema + n;
        pcs := pcs[t := Done(0)];
    }

    method Leave(t: nat)
      requires Enabled(Abs(), Return(t))
      modifies this
      ensures Abs() == Step(old(Abs()), Return(t))
    {
      pcs := pcs[t := Idle];
    }

    // Whether it is a step of this thread's, here and now.
    method CanDo(a: Action) returns (ok: bool)
      ensures ok == Enabled(Abs(), a)
    {
      ok := match a
        case Begin(t, _) => t < |pcs| && pcs[t].Idle?
        case Advance(t, _) => t < |pcs| && (pcs[t].Sleep? ==> 0 < m_sema)
        case Return(t) => t < |pcs| && pcs[t].Done?;
    }

    method Do(a: Action)
      requires Enabled(Abs(), a)
      modifies this
      ensures Abs() == Step(old(Abs()), a)
    {
      match a
      case Begin(t, call) => Call(t, call);
      case Return(t) => Leave(t);
      case Advance(t, choice) =>
        if pcs[t].Load? || pcs[t].Cas? {
          TryWaitMany(t, choice);
        } else if pcs[t].Spin? || pcs[t].SpinCas? || pcs[t].Sleep? {
          WaitWithPartialSpinning(t, choice);
        } else if pcs[t].Add? || pcs[t].Release? {
          SignalStep(t, choice);
        }
    }

    /** The object driven through any schedule is where the machine's run is. */
    method Follow(schedule: seq<Action>)
      modifies this
      ensures Abs() == Run(old(Abs()), schedule)
      decreases |schedule|
    {
      if |schedule| > 0 {
        var ok := CanDo(schedule[0]);
        if ok {
          Do(schedule[0]);
        }
        Follow(schedule[1..]);
      }
    }
  }

  /** A semaphore from its constructor through any schedule of any number of threads. */
  method FollowFromStart(initialCount: nat, threads: nat, schedule: seq<Action>) returns (sema: LightweightSemaphore)
    ensures fresh(sema) && Inv(sema.Abs())
    ensures sema.acquired <= sema.added
  {
    sema := new LightweightSemaphore(initialCount, threads);
    EveryRunKeepsInv(sema.Abs(), schedule);
    sema.Follow(schedule);
    AcquiredAtMostAdded(sema.Abs());
  }
}
