/** What a request for a block comes to: the initial pool is asked first, then the free list, then the allocator, and a
    request that ends with nothing has found the first used up, the second empty and the third unwilling. */
module BlockRequests {
  import opened BlockPool
  import opened Common
  import F = FreeList
  import L = FreeListCalls
  import M = ImplicitProducer
  import E = ExplicitProducer

  // Whether thread t comes to hold a block in a run.
  ghost predicate Gains(cfg: M.Config, s: State, t: nat, schedule: seq<Action>)
    decreases |schedule|
  {
    || (t < |s.hands| && s.hands[t].Holds?)
    || (|schedule| > 0 &&
        Gains(cfg, if Enabled(cfg, s, schedule[0]) then Step(cfg, s, schedule[0]) else s, t, schedule[1..]))
  }

  // Before the pool is found used up; before the list is found empty; before the allocator has answered.
  predicate AtPool(s: State, t: nat) { t < |s.hands| && (s.hands[t].LoadPool? || s.hands[t].AddPool?) }

  predicate AtList(s: State, t: nat) {
    t < |s.hands| && t < |s.list.pcs| && s.hands[t].Searching? && L.Hopeful(s.list.pcs[t])
  }

  predicate PastList(s: State, t: nat) {
    t < |s.hands| && (s.hands[t].Create? || (s.hands[t].Searching? && t < |s.list.pcs| && !L.Hopeful(s.list.pcs[t])))
  }

  // A step of anyone while the request is at the pool.
  lemma StepAtPool(cfg: M.Config, s: State, t: nat, a: Action)
    requires Inv(s) && Enabled(cfg, s, a) && AtPool(s, t)
    ensures var s' := Step(cfg, s, a);
      && t < |s'.hands| && s'.poolSize == s.poolSize
      && (AtPool(s', t) || s'.hands[t].Holds? || (s.poolSize <= s.pool && AtList(s', t)))
  {
    hide F.Inv, Owned, F.Step, CanDo, Do, CanObtain, Obtain, CircleOk, Freed;
    if a.thread == t {
      PoolIsBeforeList(s, t);
    }
  }

  lemma PoolIsBeforeList(s: State, t: nat)
    requires Inv(s) && AtPool(s, t)
    ensures t < |s.list.pcs| && s.list.pcs[t].Idle?
  {
    hide F.Inv, Owned;
  }

  // A step of anyone while the request is at the list.
  lemma StepAtList(cfg: M.Config, s: State, t: nat, a: Action)
    requires Inv(s) && Enabled(cfg, s, a) && AtList(s, t)
    ensures var s' := Step(cfg, s, a);
      t < |s'.hands| && (AtList(s', t) || s'.hands[t].Holds? || (s.list.head == None && PastList(s', t)))
  {
    hide F.Inv, Owned, CanDo, Do, CanObtain, Obtain, CircleOk, Freed;
    if a.List? {
      if s.list.head.Some? && !(a.thread == t && s.list.pcs[t].GetTake?) {
        L.StaysHopeful(s.list, t, F.Advance(a.thread));
        L.HopefulIsBusy(F.Step(s.list, F.Advance(a.thread)).pcs[t]);
      }
    }
    hide F.Step, L.Hopeful, F.Enabled;
  }

  // A step of anyone after that.
  lemma StepPastList(cfg: M.Config, s: State, t: nat, a: Action)
    requires Inv(s) && Enabled(cfg, s, a) && t < |s.hands| && (s.hands[t].Create? || s.hands[t].Searching?)
    ensures var s' := Step(cfg, s, a);
      && t < |s'.hands|
      && (s'.hands[t].Create? || s'.hands[t].Searching? || s'.hands[t].Holds? || a == Allocate(t, false))
  {
    hide F.Inv, Owned, F.Step, CanDo, Do, CanObtain, Obtain, CircleOk, Freed;
  }

  lemma {:induction false} NobodyGives(cfg: M.Config, s: State, t: nat, schedule: seq<Action>)
    requires Inv(s) && t < |s.hands| && (s.hands[t].Create? || s.hands[t].Searching?) && !Gains(cfg, s, t, schedule)
    requires t < |Run(cfg, s, schedule).hands| && Run(cfg, s, schedule).hands[t].Empty?
    ensures Allocate(t, false) in schedule
    decreases |schedule|
  {
    hide Inv, Enabled, Step;
    if |schedule| > 0 {
      var a := schedule[0];
      if Enabled(cfg, s, a) {
        StepKeepsInv(cfg, s, a);
        StepPastList(cfg, s, t, a);
        if a != Allocate(t, false) {
          NobodyGives(cfg, Step(cfg, s, a), t, schedule[1..]);
        }
      } else {
        NobodyGives(cfg, s, t, schedule[1..]);
      }
    }
  }

  lemma {:induction false} ListIsEmpty(cfg: M.Config, s: State, t: nat, schedule: seq<Action>) returns (k: nat)
    requires Inv(s) && AtList(s, t) && !Gains(cfg, s, t, schedule)
    requires t < |Run(cfg, s, schedule).hands| && Run(cfg, s, schedule).hands[t].Empty?
    ensures k <= |schedule| && Run(cfg, s, schedule[..k]).list.head == None
    ensures Allocate(t, false) in schedule
    decreases |schedule|
  {
    hide Inv, Enabled, Step, L.Hopeful;
    if s.list.head == None {
      k := 0;
      assert schedule[..0] == [];
      NobodyGives(cfg, s, t, schedule);
      return;
    }
    var a := schedule[0];
    var j: nat;
    if Enabled(cfg, s, a) {
      StepKeepsInv(cfg, s, a);
      StepAtList(cfg, s, t, a);
      GainsNow(cfg, Step(cfg, s, a), t, schedule[1..]);
      j := ListIsEmpty(cfg, Step(cfg, s, a), t, schedule[1..]);
    } else {
      j := ListIsEmpty(cfg, s, t, schedule[1..]);
    }
    k := j + 1;
    assert schedule[..k][0] == a && schedule[..k][1..] == schedule[1..][..j];
  }

  lemma GainsNow(cfg: M.Config, s: State, t: nat, schedule: seq<Action>)
    requires t < |s.hands|
    ensures s.hands[t].Holds? ==> Gains(cfg, s, t, schedule)
  {
    hide Enabled, Step;
  }

  /** In any run, whatever the other threads do: a request that ends without a block has been through a state in which the
      initial pool was used up and, later, one in which the free list was empty, and then the allocator gave it nothing. */
  lemma {:induction false} NothingOnlyWhenNothingIsThere(cfg: M.Config, s: State, t: nat, schedule: seq<Action>)
    returns (pool: nat, list: nat)
    requires Inv(s) && AtPool(s, t) && !Gains(cfg, s, t, schedule)
    requires t < |Run(cfg, s, schedule).hands| && Run(cfg, s, schedule).hands[t].Empty?
    ensures pool <= list <= |schedule|
    ensures s.poolSize <= Run(cfg, s, schedule[..pool]).pool
    ensures Run(cfg, s, schedule[..list]).list.head == None
    ensures Allocate(t, false) in schedule
    decreases |schedule|
  {
    hide Inv, Enabled, Step, L.Hopeful;
    assert |schedule| > 0;
    var a := schedule[0];
    if !Enabled(cfg, s, a) {
      var i, j := NothingOnlyWhenNothingIsThere(cfg, s, t, schedule[1..]);
      pool, list := i + 1, j + 1;
    } else {
      StepKeepsInv(cfg, s, a);
      StepAtPool(cfg, s, t, a);
      var s' := Step(cfg, s, a);
      GainsNow(cfg, s', t, schedule[1..]);
      if AtPool(s', t) {
        var i, j := NothingOnlyWhenNothingIsThere(cfg, s', t, schedule[1..]);
        pool, list := i + 1, j + 1;
      } else {
        var j := ListIsEmpty(cfg, s', t, schedule[1..]);
        pool, list := 0, j + 1;
        assert schedule[..0] == [];
      }
    }
    if 0 < pool {
      assert schedule[..pool][0] == a && schedule[..pool][1..] == schedule[1..][..pool - 1];
    }
    assert schedule[..list][0] == a && schedule[..list][1..] == schedule[1..][..list - 1];
  }

  // ---- Alone ----

  /** While a block of the initial pool is left, a request alone gets the next one of them, and nothing else changes. */
  lemma PoolComesFirst(cfg: M.Config, s: State, t: nat)
    requires Enabled(cfg, s, Request(t)) && s.pool < s.poolSize
    ensures Run(cfg, s, [Request(t), Pool(t), Pool(t)]) == s.(pool := s.pool + 1, hands := s.hands[t := Holds(s.pool)])
  {
    hide F.Step, CanDo, Do, CanObtain, Obtain;
    var s1 := Step(cfg, s, Request(t));
    var s2 := Step(cfg, s1, Pool(t));
    var s3 := Step(cfg, s2, Pool(t));
    assert [Request(t), Pool(t), Pool(t)][1..] == [Pool(t), Pool(t)] && [Pool(t), Pool(t)][1..] == [Pool(t)];
    assert Run(cfg, s2, [Pool(t)]) == Run(cfg, s3, []);
    assert s3.hands == s.hands[t := Holds(s.pool)];
  }
}
