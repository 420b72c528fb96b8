/** What a call of the free list achieves: a get alone takes the head, an add alone puts its node there, and a get that
    comes back with nothing has found the list empty. */
module FreeListCalls {
  import opened Common
  import opened FreeList

  // Thread t takes k steps and nobody else takes any.
  function Alone(s: State, t: nat, k: nat): State
    requires s.WellFormed()
    decreases k
  {
    if k == 0 then s else Alone(if Enabled(s, Advance(t)) then Step(s, Advance(t)) else s, t, k - 1)
  }

  lemma {:induction false} AloneKeepsInv(s: State, t: nat, k: nat)
    requires Inv(s) && s.WellFormed()
    ensures Inv(Alone(s, t, k)) && Alone(s, t, k).WellFormed()
    decreases k
  {
    if k > 0 {
      if Enabled(s, Advance(t)) {
        OneStepKeepsInv(s, Advance(t));
        AloneKeepsInv(Step(s, Advance(t)), t, k - 1);
      } else {
        AloneKeepsInv(s, t, k - 1);
      }
    }
  }

  lemma OneStepKeepsInv(s: State, a: Action)
    requires Inv(s) && s.WellFormed() && Enabled(s, a)
    ensures Inv(Step(s, a)) && Step(s, a).WellFormed()
  {
    var list :| InvWith(s, list);
    var list' := StepKeepsInv(s, list, a);
  }

  // The head of the list, and the word of a node that only the list and those who look at it account for.
  lemma HeadIsReferenced(s: State, n: nat)
    requires Inv(s) && s.head == Some(n)
    ensures n < |s.refs| && 1 <= s.refs[n] < SHOULD_BE_ON_FREELIST && n !in s.out
  {
    var list :| InvWith(s, list);
    assert n == list[0];
    TallyBound(s.pcs, n);
    assert NodeOk(s.refs[n], TallyOf(s.pcs, n), n in s.out, n in list);
  }

  /** A get that runs alone takes the head: after six steps of its own it is over, with the node in its caller's hands and
      off the list, wherever the other threads stand meanwhile. */
  lemma GetAloneTakesHead(s: State, t: nat, n: nat)
    requires Inv(s) && s.WellFormed() && Enabled(s, StartGet(t)) && s.head == Some(n)
    ensures var s' := Alone(Step(s, StartGet(t)), t, 6);
      && Inv(s') && t < |s'.pcs| && s'.pcs[t].Idle?
      && n !in s.out && s'.out == s.out + {n} && !OnList(s', n) && s'.head == s.next[n]
  {
    HeadIsReferenced(s, n);
    OneStepKeepsInv(s, StartGet(t));
    var s0 := Step(s, StartGet(t));
    AloneKeepsInv(s0, t, 6);
    hide Inv;
    GetsReference(s0, t, n);
    TakesReferenced(s0.(refs := s0.refs[n := FetchAdd(s0.refs[n], 1)], pcs := s0.pcs[t := GetLoadNext(n)]), t, n);
    OutIsOffList(Alone(s0, t, 6), n);
  }

  lemma OneStepAlone(s: State, t: nat, k: nat)
    requires s.WellFormed() && Enabled(s, Advance(t))
    ensures Alone(s, t, k + 1) == Alone(Step(s, Advance(t)), t, k)
  {}

  // The getter refers to the head.
  lemma GetsReference(s: State, t: nat, n: nat)
    requires s.WellFormed() && t < |s.pcs| && s.pcs[t] == GetLoadHead && s.head == Some(n)
    requires n < |s.refs| && 1 <= s.refs[n] < SHOULD_BE_ON_FREELIST
    ensures Alone(s, t, 6)
            == Alone(s.(refs := s.refs[n := FetchAdd(s.refs[n], 1)], pcs := s.pcs[t := GetLoadNext(n)]), t, 3)
  {
    hide Alone;
    var s1 := s.(pcs := s.pcs[t := GetLoadRefs(n)]);
    OneStepAlone(s, t, 5);
    var s2 := s1.(pcs := s1.pcs[t := GetCasRefs(n, s.refs[n])]);
    OneStepAlone(s1, t, 4);
    var s3 := s2.(refs := s2.refs[n := FetchAdd(s.refs[n], 1)], pcs := s2.pcs[t := GetLoadNext(n)]);
    OneStepAlone(s2, t, 3);
    assert s3.pcs == s.pcs[t := GetLoadNext(n)];
  }

  // And takes it off the list.
  lemma TakesReferenced(s: State, t: nat, n: nat)
    requires s.WellFormed() && t < |s.pcs| && s.pcs[t] == GetLoadNext(n) && s.head == Some(n) && n < |s.refs|
    ensures Alone(s, t, 3) == s.(head := s.next[n], out := s.out + {n}, refs := s.refs[n := FetchAdd(s.refs[n], -2)],
                                 pcs := s.pcs[t := Idle])
  {
    hide Alone;
    var s4 := s.(pcs := s.pcs[t := GetCasHead(n, s.next[n])]);
    OneStepAlone(s, t, 2);
    var s5 := s4.(head := s.next[n], pcs := s4.pcs[t := GetTake(n)]);
    OneStepAlone(s4, t, 1);
    var s6 := s5.(refs := s5.refs[n := FetchAdd(s.refs[n], -2)], out := s.out + {n}, pcs := s5.pcs[t := Idle]);
    OneStepAlone(s5, t, 0);
    NoStep(s6, t);
    assert s6.pcs == s.pcs[t := Idle];
  }

  lemma NoStep(s: State, t: nat)
    requires s.WellFormed()
    ensures Alone(s, t, 0) == s
  {}

  /** An add that runs alone, of a node that nobody refers to, puts it at the head of the list, before what was there. */
  lemma AddAloneLinks(s: State, t: nat, n: nat)
    requires Inv(s) && s.WellFormed() && Enabled(s, StartAdd(t, n)) && n < |s.refs| && s.refs[n] == 0
    ensures var s' := Alone(Step(s, StartAdd(t, n)), t, 5);
      && Inv(s') && t < |s'.pcs| && s'.pcs[t].Idle?
      && s'.head == Some(n) && n < |s'.next| && s'.next[n] == s.head && s'.out == s.out - {n}
  {
    OneStepKeepsInv(s, StartAdd(t, n));
    AloneKeepsInv(Step(s, StartAdd(t, n)), t, 5);
    hide Inv;
    var s0 := Step(s, StartAdd(t, n));
    var s1 := s0.(refs := s0.refs[n := SHOULD_BE_ON_FREELIST], pcs := s0.pcs[t := LinkLoadHead(n, Leave)]);
    assert Alone(s0, t, 5) == Alone(s1, t, 4);
    var s2 := s1.(pcs := s1.pcs[t := LinkStoreNext(n, s.head, Leave)]);
    assert Alone(s1, t, 4) == Alone(s2, t, 3);
    var s3 := s2.(next := s2.next[n := s.head], pcs := s2.pcs[t := LinkStoreRefs(n, s.head, Leave)]);
    assert Alone(s2, t, 3) == Alone(s3, t, 2);
    var s4 := s3.(refs := s3.refs[n := 1], pcs := s3.pcs[t := LinkCasHead(n, s.head, Leave)]);
    assert Alone(s3, t, 2) == Alone(s4, t, 1);
    var s5 := s4.(head := Some(n), pcs := s4.pcs[t := Idle]);
    assert Alone(s4, t, 1) == Alone(s5, t, 0);
  }

  // ---- A get among others ----

  // A thread inside a get that has met no empty list yet.
  predicate Hopeful(pc: Pc) {
    match pc
    case GetLoadHead => true
    case GetLoadRefs(_) => true
    case GetCasRefs(_, _) => true
    case GetLoadNext(_) => true
    case GetCasHead(_, _) => true
    case GetTake(_) => true
    case GetDrop(_, reloaded) => reloaded.Some?
    case LinkLoadHead(_, k) => k.Retry? && k.head.Some?
    case LinkStoreNext(_, _, k) => k.Retry? && k.head.Some?
    case LinkStoreRefs(_, _, k) => k.Retry? && k.head.Some?
    case LinkCasHead(_, _, k) => k.Retry? && k.head.Some?
    case LinkDefer(_, _, k) => k.Retry? && k.head.Some?
    case _ => false
  }

  // Whether thread t takes a node in a run.
  predicate Takes(s: State, t: nat, schedule: seq<Action>)
    requires s.WellFormed()
    decreases |schedule|
  {
    |schedule| > 0 &&
    var a := schedule[0];
    if Enabled(s, a) then (a == Advance(t) && s.pcs[t].GetTake?) || Takes(Step(s, a), t, schedule[1..])
    else Takes(s, t, schedule[1..])
  }

  predicate Starts(a: Action, t: nat) { !a.Advance? && a.thread == t }

  lemma StaysHopeful(s: State, t: nat, a: Action)
    requires s.WellFormed() && t < |s.pcs| && Hopeful(s.pcs[t]) && Enabled(s, a) && !Starts(a, t) && s.head.Some?
    requires !(a == Advance(t) && s.pcs[t].GetTake?)
    ensures Step(s, a).WellFormed() && t < |Step(s, a).pcs| && Hopeful(Step(s, a).pcs[t])
  {}

  lemma StepKeepsShape(s: State, a: Action)
    requires s.WellFormed() && Enabled(s, a)
    ensures Step(s, a).WellFormed()
  {}

  /** In any run, whatever the other threads do: a get that is over without a node has found the list empty, in a state
      between its start and its end. */
  lemma {:induction false} EmptyHandedSawEmpty(s: State, t: nat, schedule: seq<Action>) returns (k: nat)
    requires s.WellFormed() && t < |s.pcs| && Hopeful(s.pcs[t]) && forall a :: a in schedule ==> !Starts(a, t)
    requires t < |Run(s, schedule).pcs| && Run(s, schedule).pcs[t].Idle? && !Takes(s, t, schedule)
    ensures k <= |schedule| && Run(s, schedule[..k]).head == None
    decreases |schedule|
  {
    if s.head.None? {
      k := 0;
      assert schedule[..0] == [];
    } else {
      hide Step, Enabled, Hopeful;
      assert |schedule| > 0 by { HopefulIsBusy(s.pcs[t]); }
      var a := schedule[0];
      var j: nat;
      if Enabled(s, a) {
        StaysHopeful(s, t, a);
        j := EmptyHandedSawEmpty(Step(s, a), t, schedule[1..]);
      } else {
        j := EmptyHandedSawEmpty(s, t, schedule[1..]);
      }
      k := j + 1;
      assert schedule[..k][0] == a && schedule[..k][1..] == schedule[1..][..j];
    }
  }

  lemma HopefulIsBusy(pc: Pc)
    requires Hopeful(pc)
    ensures !pc.Idle?
  {}
}
