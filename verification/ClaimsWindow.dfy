/** How much may be asked for at once before finite words deceive the consumers: what the calls around a dequeue ask for
    together bounds how far beyond the tail it can be when it decides, and the bound at which that stops being safe is
    exactly half the word range. */
module ClaimsWindow {
  import opened Common
  import opened Words
  import opened DequeueClaims

  // What a caller could count. asked: the max of each thread's latest call; around: what the calls of other threads ask
  // for together that were in progress when this call began or have begun since, until it takes its ticket.
  datatype Account = Account(asked: seq<nat>, around: seq<int>)

  predicate BeforeTicket(pc: Pc) { pc.LoadTail? || pc.LoadOvercommit? || pc.LoadOptimistic? || pc.AddOptimistic? }

  predicate InProgress(pc: Pc) { !pc.Idle? && !pc.Claimed? }

  function Pairs(pcs: seq<Pc>, asked: seq<nat>): (pairs: seq<(Pc, nat)>)
    requires |pcs| == |asked|
    ensures |pairs| == |pcs| && forall u :: 0 <= u < |pcs| ==> pairs[u] == (pcs[u], asked[u])
  {
    seq(|pcs|, u requires 0 <= u < |pcs| => (pcs[u], asked[u]))
  }

  ghost function Pending(): ((Pc, nat)) -> int { (p: (Pc, nat)) => if BeforeTicket(p.0) then p.1 else 0 }

  ghost function Underway(): ((Pc, nat)) -> int { (p: (Pc, nat)) => if InProgress(p.0) then p.1 else 0 }

  ghost predicate Fits(acc: Account, threads: nat) { |acc.asked| == |acc.around| == threads }

  function NoCalls(threads: nat): Account { Account(seq(threads, _ => 0), seq(threads, _ => 0)) }

  // Only the start of a call is charged: to the call itself what is in progress, and to the others what it asks for.
  ghost function Charge(s: State, acc: Account, a: Action): (acc': Account)
    requires Fits(acc, |s.pcs|)
    ensures Fits(acc', |s.pcs|)
  {
    if a.Start? && Enabled(s, a) then
      Account(acc.asked[a.thread := a.max],
              seq(|s.pcs|, u requires 0 <= u < |s.pcs| =>
                if u == a.thread then Sum(Underway(), Pairs(s.pcs, acc.asked))
                else if BeforeTicket(s.pcs[u]) then acc.around[u] + a.max
                else acc.around[u]))
    else acc
  }

  ghost predicate AtMost(acc: Account, bound: int) { forall u :: 0 <= u < |acc.around| ==> acc.around[u] <= bound }

  /** The calls around each dequeue of a run ask for at most `bound` together. */
  ghost predicate CallsFit(w: nat, bound: int, s: State, acc: Account, schedule: seq<Action>)
    requires 1 <= w && Fits(acc, |s.pcs|)
    decreases |schedule|
  {
    |schedule| > 0 ==>
      var a := schedule[0];
      if Enabled(s, a) then
        AtMost(Charge(s, acc, a), bound) && CallsFit(w, bound, Step(w, s, a), Charge(s, acc, a), schedule[1..])
      else CallsFit(w, bound, s, acc, schedule[1..])
  }

  // ---- What the accounts say ----

  // Tickets that could make a thread overshoot whose reading of the overcommit is `overcommit`: lost since, open, or
  // still to be issued by others.
  ghost function Exposure(s: State, acc: Account, t: nat, overcommit: int): int
    requires Fits(acc, |s.pcs|) && t < |s.pcs|
  {
    CountFate(Lost, s.fates) - overcommit + CountFate(Open, s.fates) + Sum(Pending(), Pairs(s.pcs, acc.asked)) - acc.asked[t]
  }

  ghost predicate ThreadAccounted(s: State, acc: Account, t: nat)
    requires Fits(acc, |s.pcs|) && t < |s.pcs|
  {
    match s.pcs[t]
    case LoadTail(max) => max == acc.asked[t] && Exposure(s, acc, t, s.overcommit) <= acc.around[t]
    case LoadOvercommit(max, _) => max == acc.asked[t] && Exposure(s, acc, t, s.overcommit) <= acc.around[t]
    case LoadOptimistic(max, _, overcommit) => max == acc.asked[t] && Exposure(s, acc, t, overcommit) <= acc.around[t]
    case AddOptimistic(desired, overcommit) => desired <= acc.asked[t] && Exposure(s, acc, t, overcommit) <= acc.around[t]
    case Decide(desired, overcommit, mine) =>
      && desired <= acc.asked[t] && mine <= |s.fates|
      && CountFate(Lost, s.fates[..mine]) - overcommit + CountFate(Open, s.fates[..mine]) <= acc.around[t]
    case AddOvercommit(extra, _) => extra <= acc.asked[t]
    case _ => true
  }

  ghost predicate Accounted(s: State, acc: Account) {
    Fits(acc, |s.pcs|) && forall t :: 0 <= t < |s.pcs| ==> ThreadAccounted(s, acc, t)
  }

  lemma PairsUpdate(pcs: seq<Pc>, asked: seq<nat>, t: nat, pc: Pc, max: nat)
    requires |pcs| == |asked| && t < |pcs|
    ensures Pairs(pcs[t := pc], asked[t := max]) == Pairs(pcs, asked)[t := (pc, max)]
    ensures Sum(Pending(), Pairs(pcs[t := pc], asked[t := max]))
            == Sum(Pending(), Pairs(pcs, asked)) - Pending()((pcs[t], asked[t])) + Pending()((pc, max))
    ensures Sum(Underway(), Pairs(pcs[t := pc], asked[t := max]))
            == Sum(Underway(), Pairs(pcs, asked)) - Underway()((pcs[t], asked[t])) + Underway()((pc, max))
  {
    assert Pairs(pcs[t := pc], asked[t := max]) == Pairs(pcs, asked)[t := (pc, max)];
    SumUpdate(Pending(), Pairs(pcs, asked), t, (pc, max));
    SumUpdate(Underway(), Pairs(pcs, asked), t, (pc, max));
  }

  // What is overdue, undecided or still to be issued is part of what the calls in progress ask for.
  lemma {:induction false} DebtsAreAsked(pcs: seq<Pc>, asked: seq<nat>)
    requires |pcs| == |asked|
    requires forall t :: 0 <= t < |pcs| ==>
      && (pcs[t].Decide? ==> pcs[t].desired <= asked[t]) && (pcs[t].AddOvercommit? ==> pcs[t].extra <= asked[t])
    ensures Sum(Overdue(), pcs) + Sum(Undecided(), pcs) + Sum(Pending(), Pairs(pcs, asked))
            <= Sum(Underway(), Pairs(pcs, asked))
  {
    if |pcs| > 0 {
      var n := |pcs| - 1;
      assert Pairs(pcs, asked)[..n] == Pairs(pcs[..n], asked[..n]);
      DebtsAreAsked(pcs[..n], asked[..n]);
    }
  }

  // ---- Each step keeps the accounts ----

  lemma StartKeepsAccounts(w: nat, s: State, acc: Account, t: nat, max: nat)
    requires 1 <= w && CountsOk(s) && Accounted(s, acc) && Enabled(s, Start(t, max))
    ensures Accounted(Step(w, s, Start(t, max)), Charge(s, acc, Start(t, max)))
  {
    var s', acc' := Step(w, s, Start(t, max)), Charge(s, acc, Start(t, max));
    PairsUpdate(s.pcs, acc.asked, t, LoadTail(max), max);
    forall u | 0 <= u < |s.pcs|
      ensures s.pcs[u].Decide? ==> s.pcs[u].desired <= acc.asked[u]
      ensures s.pcs[u].AddOvercommit? ==> s.pcs[u].extra <= acc.asked[u]
      ensures u != t ==> ThreadAccounted(s', acc', u)
    {
      assert ThreadAccounted(s, acc, u);
    }
    DebtsAreAsked(s.pcs, acc.asked);
  }

  // A step of thread t that issues no ticket and settles none.
  lemma QuietKeepsAccounts(s: State, acc: Account, t: nat, s': State, pc': Pc)
    requires Accounted(s, acc) && t < |s.pcs| && s'.pcs == s.pcs[t := pc'] && s'.fates == s.fates
    requires s.overcommit <= s'.overcommit && (BeforeTicket(pc') ==> BeforeTicket(s.pcs[t]))
    requires ThreadAccounted(s', acc, t)
    ensures Accounted(s', acc)
  {
    PairsUpdate(s.pcs, acc.asked, t, pc', acc.asked[t]);
    assert acc.asked[t := acc.asked[t]] == acc.asked;
    forall u | 0 <= u < |s.pcs| && u != t ensures ThreadAccounted(s', acc, u) {
      assert ThreadAccounted(s, acc, u);
    }
  }

  lemma LoadKeepsAccounts(w: nat, s: State, acc: Account, t: nat)
    requires 1 <= w && Accounted(s, acc) && t < |s.pcs| && Inv(s)
    requires !s.pcs[t].AddOptimistic? && !s.pcs[t].Decide?
    ensures Accounted(Step(w, s, Advance(t)), acc)
  {
    var s' := Step(w, s, Advance(t));
    var pc' := s'.pcs[t];
    assert ThreadAccounted(s, acc, t);
    PairsUpdate(s.pcs, acc.asked, t, pc', acc.asked[t]);
    assert acc.asked[t := acc.asked[t]] == acc.asked;
    QuietKeepsAccounts(s, acc, t, s', pc');
  }

  lemma TicketKeepsAccounts(w: nat, s: State, acc: Account, t: nat)
    requires 1 <= w && Accounted(s, acc) && t < |s.pcs| && s.pcs[t].AddOptimistic? && |s.fates| == s.optimistic
    ensures Accounted(Step(w, s, Advance(t)), acc)
  {
    hide Settle;
    var s' := Step(w, s, Advance(t));
    var more := seq(s.pcs[t].desired, _ => Open);
    assert ThreadAccounted(s, acc, t);
    PairsUpdate(s.pcs, acc.asked, t, s'.pcs[t], acc.asked[t]);
    assert acc.asked[t := acc.asked[t]] == acc.asked;
    MoreTickets(s.fates, s.pcs[t].desired);
    PairsBound(s.pcs, acc.asked, t);
    assert s'.fates[..|s.fates|] == s.fates;
    assert ThreadAccounted(s', acc, t);
    forall u | 0 <= u < |s.pcs| && u != t ensures ThreadAccounted(s', acc, u) {
      assert ThreadAccounted(s, acc, u);
      if s.pcs[u].Decide? {
        assert s'.fates[..s.pcs[u].mine] == s.fates[..s.pcs[u].mine];
      }
    }
  }

  lemma MoreTickets(fates: seq<Fate>, desired: nat)
    ensures var after := fates + seq(desired, _ => Open);
      CountFate(Lost, after) == CountFate(Lost, fates) && CountFate(Open, after) == CountFate(Open, fates) + desired
  {
    var more := seq(desired, _ => Open);
    CountFateConcat(Lost, fates, more);
    CountFateConcat(Open, fates, more);
    CountFateUniform(Open, Open, more);
    CountFateUniform(Lost, Open, more);
  }

  lemma PairsBound(pcs: seq<Pc>, asked: seq<nat>, t: nat)
    requires |pcs| == |asked| && t < |pcs|
    ensures 0 <= Pending()((pcs[t], asked[t])) <= Sum(Pending(), Pairs(pcs, asked))
    ensures 0 <= Underway()((pcs[t], asked[t])) <= Sum(Underway(), Pairs(pcs, asked))
  {
    SumBoundsMember(Pending(), Pairs(pcs, asked), t);
    SumBoundsMember(Underway(), Pairs(pcs, asked), t);
  }

  // Settling tickets makes no prefix hold more lost and open ones.
  lemma SettleNeverAdds(fates: seq<Fate>, mine: nat, won: nat, desired: nat, m: nat)
    requires won <= desired && mine + desired <= |fates| && m <= |fates|
    requires forall i :: mine <= i < mine + desired ==> fates[i] == Open
    ensures var after := Settle(fates, mine, won, desired);
      && |after| == |fates|
      && CountFate(Lost, after[..m]) + CountFate(Open, after[..m]) <= CountFate(Lost, fates[..m]) + CountFate(Open, fates[..m])
  {
    var after := Settle(fates, mine, won, desired);
    forall i | 0 <= i < m && after[..m][i] != Won ensures fates[..m][i] != Won {
      SettleAt(fates, mine, won, desired, i);
    }
    FewerWon(fates[..m], after[..m]);
  }

  lemma {:induction false} FewerWon(xs: seq<Fate>, ys: seq<Fate>)
    requires |xs| == |ys| && forall i :: 0 <= i < |ys| && ys[i] != Won ==> xs[i] != Won
    ensures CountFate(Lost, ys) + CountFate(Open, ys) <= CountFate(Lost, xs) + CountFate(Open, xs)
  {
    if |xs| > 0 {
      FewerWon(xs[..|xs| - 1], ys[..|ys| - 1]);
    }
  }

  lemma DecisionKeepsAccounts(w: nat, s: State, acc: Account, t: nat)
    requires 1 <= w && Accounted(s, acc) && t < |s.pcs| && s.pcs[t].Decide? && PcOk(s, s.pcs[t])
    ensures Accounted(Step(w, s, Advance(t)), acc)
  {
    var pc := s.pcs[t];
    var share := Share(w, s, pc);
    var s' := Step(w, s, Advance(t));
    assert ThreadAccounted(s, acc, t);
    PairsUpdate(s.pcs, acc.asked, t, s'.pcs[t], acc.asked[t]);
    assert acc.asked[t := acc.asked[t]] == acc.asked;
    SettleNeverAdds(s.fates, pc.mine, share, pc.desired, |s.fates|);
    assert s'.fates[..|s.fates|] == s'.fates && s.fates[..|s.fates|] == s.fates;
    forall u | 0 <= u < |s.pcs| && u != t ensures ThreadAccounted(s', acc, u) {
      assert ThreadAccounted(s, acc, u);
      if s.pcs[u].Decide? {
        SettleNeverAdds(s.fates, pc.mine, share, pc.desired, s.pcs[u].mine);
      }
    }
  }

  lemma StepKeepsAccounts(w: nat, s: State, acc: Account, a: Action)
    requires 1 <= w && Inv(s) && Accounted(s, acc) && Enabled(s, a)
    ensures Accounted(Step(w, s, a), Charge(s, acc, a))
  {
    match a
    case Publish(_) =>
      forall t | 0 <= t < |s.pcs| ensures ThreadAccounted(Step(w, s, a), acc, t) {
        assert ThreadAccounted(s, acc, t);
      }
    case Start(t, max) => StartKeepsAccounts(w, s, acc, t, max);
    case Release(t) => QuietKeepsAccounts(s, acc, t, Step(w, s, a), Idle);
    case Advance(t) =>
      assert PcOk(s, s.pcs[t]);
      if s.pcs[t].AddOptimistic? {
        TicketKeepsAccounts(w, s, acc, t);
      } else if s.pcs[t].Decide? {
        DecisionKeepsAccounts(w, s, acc, t);
      } else {
        LoadKeepsAccounts(w, s, acc, t);
      }
  }

  /** Where the accounts are kept, a deciding consumer is no further beyond the tail than the calls around it asked. */
  lemma AccountBoundsOvershoot(s: State, acc: Account, t: nat)
    requires Inv(s) && Accounted(s, acc) && t < |s.pcs| && s.pcs[t].Decide?
    ensures s.pcs[t].mine - s.pcs[t].overcommit - s.tail <= acc.around[t]
  {
    assert ThreadAccounted(s, acc, t);
    OvershootIsRecent(s, t);
  }

  lemma {:induction false} FittingRunFrom(w: nat, bound: int, s: State, acc: Account, schedule: seq<Action>)
    requires 1 <= w && Fits(acc, |s.pcs|) && Inv(s) && Accounted(s, acc) && AtMost(acc, bound) && bound <= Pow2(w - 1)
    requires CallsFit(w, bound, s, acc, schedule)
    ensures RunInWindow(w, s, schedule) && Inv(Run(w, s, schedule))
    decreases |schedule|
  {
    hide Inv, Accounted, Charge;
    if |schedule| > 0 {
      var a := schedule[0];
      if Enabled(s, a) {
        AccountsGiveWindow(w, bound, s, acc, a);
        StepKeepsInv(w, s, a);
        StepKeepsAccounts(w, s, acc, a);
        FittingRunFrom(w, bound, Step(w, s, a), Charge(s, acc, a), schedule[1..]);
      } else {
        FittingRunFrom(w, bound, s, acc, schedule[1..]);
      }
    }
  }

  lemma AccountsGiveWindow(w: nat, bound: int, s: State, acc: Account, a: Action)
    requires 1 <= w && Inv(s) && Accounted(s, acc) && AtMost(acc, bound) && bound <= Pow2(w - 1) && Enabled(s, a)
    ensures InWindow(w, s, a)
  {
    if a.Advance? && s.pcs[a.thread].Decide? {
      AccountBoundsOvershoot(s, acc, a.thread);
    }
  }

  lemma InitialAccounts(s: State)
    requires Initial(s)
    ensures Inv(s) && Accounted(s, NoCalls(|s.pcs|)) && AtMost(NoCalls(|s.pcs|), 0)
  {
    IdleSums(s.pcs);
  }

  /** If the calls around each dequeue ask for at most half the word range together, every run keeps the invariant. */
  lemma FittingRunKeepsInv(w: nat, bound: nat, s: State, schedule: seq<Action>)
    requires 1 <= w && Initial(s) && bound <= Pow2(w - 1) && CallsFit(w, bound, s, NoCalls(|s.pcs|), schedule)
    ensures RunInWindow(w, s, schedule) && Inv(Run(w, s, schedule))
  {
    InitialAccounts(s);
    FittingRunFrom(w, bound, s, NoCalls(|s.pcs|), schedule);
  }

  // ---- A bound on everything a run asks for ----

  function Asked(schedule: seq<Action>): nat {
    if |schedule| == 0 then 0 else (if schedule[0].Start? then schedule[0].max else 0) + Asked(schedule[1..])
  }

  lemma StepKeepsUnderway(w: nat, s: State, acc: Account, a: Action)
    requires 1 <= w && Fits(acc, |s.pcs|) && Enabled(s, a)
    ensures |Step(w, s, a).pcs| == |s.pcs|
    ensures Sum(Underway(), Pairs(Step(w, s, a).pcs, Charge(s, acc, a).asked))
            <= Sum(Underway(), Pairs(s.pcs, acc.asked)) + (if a.Start? then a.max else 0)
  {
    var s' := Step(w, s, a);
    if !a.Publish? {
      var t := a.thread;
      PairsUpdate(s.pcs, acc.asked, t, s'.pcs[t], Charge(s, acc, a).asked[t]);
      assert Charge(s, acc, a).asked == acc.asked[t := Charge(s, acc, a).asked[t]];
      assert s'.pcs == s.pcs[t := s'.pcs[t]];
    }
  }

  lemma {:induction false} ModestCallsFitFrom(w: nat, bound: int, s: State, acc: Account, schedule: seq<Action>)
    requires 1 <= w && Fits(acc, |s.pcs|)
    requires Sum(Underway(), Pairs(s.pcs, acc.asked)) + Asked(schedule) <= bound
    requires AtMost(acc, bound - Asked(schedule))
    ensures CallsFit(w, bound, s, acc, schedule)
    decreases |schedule|
  {
    if |schedule| > 0 {
      var a := schedule[0];
      if Enabled(s, a) {
        StepKeepsUnderway(w, s, acc, a);
        ModestCallsFitFrom(w, bound, Step(w, s, a), Charge(s, acc, a), schedule[1..]);
      } else {
        ModestCallsFitFrom(w, bound, s, acc, schedule[1..]);
      }
    }
  }

  /** In particular a run is safe that asks for at most half the word range in all. */
  lemma ModestRunKeepsInv(w: nat, s: State, schedule: seq<Action>)
    requires 1 <= w && Initial(s) && Asked(schedule) <= Pow2(w - 1)
    ensures CallsFit(w, Pow2(w - 1), s, NoCalls(|s.pcs|), schedule)
    ensures RunInWindow(w, s, schedule) && Inv(Run(w, s, schedule))
  {
    var acc := NoCalls(|s.pcs|);
    SumZero(Underway(), Pairs(s.pcs, acc.asked));
    ModestCallsFitFrom(w, Pow2(w - 1), s, acc, schedule);
    FittingRunKeepsInv(w, Pow2(w - 1), s, schedule);
  }

  // ---- Half the word range is exactly where it stops being safe ----

  // The state and the accounts a schedule leads to.
  ghost function After(w: nat, s: State, acc: Account, schedule: seq<Action>): (State, Account)
    requires 1 <= w && Fits(acc, |s.pcs|)
    decreases |schedule|
  {
    if |schedule| == 0 then (s, acc)
    else if Enabled(s, schedule[0]) then
      After(w, Step(w, s, schedule[0]), Charge(s, acc, schedule[0]), schedule[1..])
    else After(w, s, acc, schedule[1..])
  }

  ghost predicate Leads(w: nat, bound: int, s: State, acc: Account, schedule: seq<Action>, s': State, acc': Account) {
    1 <= w && Fits(acc, |s.pcs|) && CallsFit(w, bound, s, acc, schedule) && After(w, s, acc, schedule) == (s', acc')
  }

  lemma LeadsByOne(w: nat, bound: int, s: State, acc: Account, a: Action)
    requires 1 <= w && Fits(acc, |s.pcs|) && Enabled(s, a) && AtMost(Charge(s, acc, a), bound)
    ensures Leads(w, bound, s, acc, [a], Step(w, s, a), Charge(s, acc, a))
  {
    var rest := [a][1..];
    assert rest == [];
  }

  lemma {:induction false} LeadsOn(w: nat, bound: int, s: State, acc: Account, a: seq<Action>, s1: State, acc1: Account,
                                   b: seq<Action>, s2: State, acc2: Account)
    requires Leads(w, bound, s, acc, a, s1, acc1) && Leads(w, bound, s1, acc1, b, s2, acc2)
    ensures Leads(w, bound, s, acc, a + b, s2, acc2)
    decreases |a|
  {
    if |a| == 0 {
      assert a + b == b;
    } else {
      assert (a + b)[1..] == a[1..] + b;
      if Enabled(s, a[0]) {
        LeadsOn(w, bound, Step(w, s, a[0]), Charge(s, acc, a[0]), a[1..], s1, acc1, b, s2, acc2);
      } else {
        LeadsOn(w, bound, s, acc, a[1..], s1, acc1, b, s2, acc2);
      }
    }
  }

  // One step more.
  lemma LeadsByOneMore(w: nat, bound: int, s: State, acc: Account, a: seq<Action>, s1: State, acc1: Account, next: Action)
    requires Leads(w, bound, s, acc, a, s1, acc1) && Fits(acc1, |s1.pcs|) && Enabled(s1, next)
    requires AtMost(Charge(s1, acc1, next), bound)
    ensures Leads(w, bound, s, acc, a + [next], Step(w, s1, next), Charge(s1, acc1, next))
  {
    LeadsByOne(w, bound, s1, acc1, next);
    LeadsOn(w, bound, s, acc, a, s1, acc1, [next], Step(w, s1, next), Charge(s1, acc1, next));
  }

  lemma {:induction false} RunIsAfter(w: nat, s: State, acc: Account, schedule: seq<Action>)
    requires 1 <= w && Fits(acc, |s.pcs|)
    ensures Run(w, s, schedule) == After(w, s, acc, schedule).0
    decreases |schedule|
  {
    if |schedule| > 0 {
      if Enabled(s, schedule[0]) {
        RunIsAfter(w, Step(w, s, schedule[0]), Charge(s, acc, schedule[0]), schedule[1..]);
      } else {
        RunIsAfter(w, s, acc, schedule[1..]);
      }
    }
  }

  // n + 2 consumers. Consumers 1 to n + 1 see the one element published and stop before they take their tickets; `begun`
  // of them have come that far.
  function Begun(n: nat, begun: nat): State {
    State(1, 0, 0, 0, seq(n + 2, u => if 1 <= u <= begun then AddOptimistic(1, 0) else Idle), [])
  }

  function BegunAccount(n: nat, begun: nat): Account {
    Account(seq(n + 2, u => if 1 <= u <= begun then 1 else 0), seq(n + 2, u => if 1 <= u <= begun then begun - 1 else 0))
  }

  // Consumer 1 has taken the element and left, and the consumers from 2 to `issued` have taken the tickets after it.
  function Issued(n: nat, issued: nat): State
    requires 1 <= issued
  {
    State(1, 1, issued, 0,
          seq(n + 2, u => if 2 <= u <= issued then Decide(1, 0, u - 1) else if issued < u then AddOptimistic(1, 0) else Idle),
          [Won] + seq(issued - 1, _ => Open))
  }

  // The calls underway are those of consumers 1 to `count`, or of all consumers from 2 on.
  lemma {:induction false} UnderwayCounts(pcs: seq<Pc>, asked: seq<nat>, lo: nat, hi: nat)
    requires |pcs| == |asked| && lo <= hi <= |pcs|
    requires forall u :: 0 <= u < |pcs| ==> (InProgress(pcs[u]) <==> lo <= u < hi) && (lo <= u < hi ==> asked[u] == 1)
    ensures Sum(Underway(), Pairs(pcs, asked)) == hi - lo
  {
    var n := |pcs| - 1;
    if 0 <= n {
      assert Pairs(pcs, asked)[..n] == Pairs(pcs[..n], asked[..n]);
      if hi == n + 1 && lo <= n {
        UnderwayCounts(pcs[..n], asked[..n], lo, n);
      } else if hi == n + 1 {
        UnderwayCounts(pcs[..n], asked[..n], n, n);
      } else {
        UnderwayCounts(pcs[..n], asked[..n], lo, hi);
      }
    }
  }

  lemma OneThere(w: nat)
    requires 2 <= w
    ensures Wrap(w, 1) == 1 && Positive(w, 1)
  {
    assert Pow2(w) == 2 * Pow2(w - 1) && Pow2(w - 1) == 2 * Pow2(w - 2);
    DivisionIsUnique(1, Pow2(w), 0, 1);
    DivisionIsUnique(-1, Pow2(w), -1, Pow2(w) - 1);
  }

  lemma OneBegins(w: nat, n: nat, begun: nat) returns (schedule: seq<Action>)
    requires 2 <= w && begun <= n
    ensures Leads(w, n, Begun(n, begun), BegunAccount(n, begun), schedule, Begun(n, begun + 1), BegunAccount(n, begun + 1))
  {
    var s, acc, t := Begun(n, begun), BegunAccount(n, begun), begun + 1;
    var acc' := BegunAccount(n, begun + 1);
    UnderwayCounts(s.pcs, acc.asked, 1, begun + 1);
    assert Charge(s, acc, Start(t, 1)) == acc';
    OneThere(w);
    var s1 := s.(pcs := s.pcs[t := LoadTail(1)]);
    var s2 := s.(pcs := s.pcs[t := LoadOvercommit(1, 1)]);
    var s3 := s.(pcs := s.pcs[t := LoadOptimistic(1, 1, 0)]);
    var s4 := s.(pcs := s.pcs[t := AddOptimistic(1, 0)]);
    assert s4 == Begun(n, begun + 1);
    LeadsByOne(w, n, s, acc, Start(t, 1));
    schedule := [Start(t, 1)];
    assert Step(w, s1, Advance(t)) == s2;
    LeadsByOneMore(w, n, s, acc, schedule, s1, acc', Advance(t));
    schedule := schedule + [Advance(t)];
    assert Step(w, s2, Advance(t)) == s3;
    LeadsByOneMore(w, n, s, acc, schedule, s2, acc', Advance(t));
    schedule := schedule + [Advance(t)];
    assert Step(w, s3, Advance(t)) == s4;
    LeadsByOneMore(w, n, s, acc, schedule, s3, acc', Advance(t));
    schedule := schedule + [Advance(t)];
  }

  lemma {:induction false} AllBegin(w: nat, n: nat, begun: nat) returns (schedule: seq<Action>)
    requires 2 <= w && begun <= n + 1
    ensures Leads(w, n, Begun(n, 0), BegunAccount(n, 0), schedule, Begun(n, begun), BegunAccount(n, begun))
  {
    if begun == 0 {
      schedule := [];
    } else {
      var before := AllBegin(w, n, begun - 1);
      var more := OneBegins(w, n, begun - 1);
      LeadsOn(w, n, Begun(n, 0), BegunAccount(n, 0), before, Begun(n, begun - 1), BegunAccount(n, begun - 1),
              more, Begun(n, begun), BegunAccount(n, begun));
      schedule := before + more;
    }
  }

  // Consumer 1 takes its ticket, wins the element and leaves.
  lemma FirstTakes(w: nat, n: nat) returns (schedule: seq<Action>)
    requires 2 <= w
    ensures Leads(w, n, Begun(n, n + 1), BegunAccount(n, n + 1), schedule, Issued(n, 1), BegunAccount(n, n + 1))
  {
    var s, acc := Begun(n, n + 1), BegunAccount(n, n + 1);
    OneThere(w);
    var s1 := s.(optimistic := 1, pcs := s.pcs[1 := Decide(1, 0, 0)], fates := [Open]);
    var s2 := s1.(pcs := s.pcs[1 := AddHead(1)], fates := [Won]);
    var s3 := s2.(head := 1, pcs := s.pcs[1 := Claimed(0, 1)]);
    LeadsByOne(w, n, s, acc, Advance(1));
    assert Step(w, s, Advance(1)) == s1;
    schedule := [Advance(1)];
    assert Settle([Open], 0, 1, 1) == [Won];
    assert Step(w, s1, Advance(1)) == s2;
    LeadsByOneMore(w, n, s, acc, schedule, s1, acc, Advance(1));
    schedule := schedule + [Advance(1)];
    assert Step(w, s2, Advance(1)) == s3;
    LeadsByOneMore(w, n, s, acc, schedule, s2, acc, Advance(1));
    schedule := schedule + [Advance(1)];
    assert Step(w, s3, Release(1)) == Issued(n, 1);
    LeadsByOneMore(w, n, s, acc, schedule, s3, acc, Release(1));
    schedule := schedule + [Release(1)];
  }

  lemma {:induction false} AllIssue(w: nat, n: nat, issued: nat) returns (schedule: seq<Action>)
    requires 2 <= w && 1 <= issued <= n + 1
    ensures Leads(w, n, Issued(n, 1), BegunAccount(n, n + 1), schedule, Issued(n, issued), BegunAccount(n, n + 1))
  {
    if issued == 1 {
      schedule := [];
    } else {
      var s, acc := Issued(n, issued - 1), BegunAccount(n, n + 1);
      var before := AllIssue(w, n, issued - 1);
      assert Step(w, s, Advance(issued)) == Issued(n, issued);
      LeadsByOneMore(w, n, Issued(n, 1), acc, before, s, acc, Advance(issued));
      schedule := before + [Advance(issued)];
    }
  }

  // Half the word range and one more open tickets read as almost half the range of elements.
  lemma TooFarLooksNear(w: nat)
    requires 2 <= w
    ensures var far := Pow2(w - 1) + 1;
      Wrap(w, 0 - far) == Pow2(w - 1) - 1 && 1 <= Pow2(w - 1) - 1 && Positive(w, Pow2(w - 1) - 1)
  {
    var far := Pow2(w - 1) + 1;
    assert Pow2(w) == 2 * Pow2(w - 1) && Pow2(w - 1) == 2 * Pow2(w - 2);
    DivisionIsUnique(0 - far, Pow2(w), -1, Pow2(w) - far);
    DivisionIsUnique(0 - (Pow2(w - 1) - 1), Pow2(w), -1, far);
  }

  // Consumer 0 begins now, with the queue empty and everybody else undecided, and its first test passes.
  lemma LateConsumerBegins(w: nat, n: nat) returns (schedule: seq<Action>, acc': Account)
    requires 2 <= w && n == Pow2(w - 1) + 1
    ensures var s := Issued(n, n + 1);
      && Leads(w, n, s, BegunAccount(n, n + 1), schedule, s.(pcs := s.pcs[0 := AddOptimistic(1, 0)]), acc')
      && Fits(acc', |s.pcs|) && AtMost(acc', n)
  {
    hide Leads, After, CallsFit;
    var s, acc := Issued(n, n + 1), BegunAccount(n, n + 1);
    acc' := Charge(s, acc, Start(0, 1));
    UnderwayCounts(s.pcs, acc.asked, 2, n + 2);
    TooFarLooksNear(w);
    LeadsByOne(w, n, s, acc, Start(0, 1));
    schedule := [Start(0, 1)];
    var s1 := s.(pcs := s.pcs[0 := LoadTail(1)]);
    var s2 := s.(pcs := s.pcs[0 := LoadOvercommit(1, 1)]);
    var s3 := s.(pcs := s.pcs[0 := LoadOptimistic(1, 1, 0)]);
    assert Step(w, s1, Advance(0)) == s2;
    LeadsByOneMore(w, n, s, acc, schedule, s1, acc', Advance(0));
    schedule := schedule + [Advance(0)];
    assert Step(w, s2, Advance(0)) == s3;
    LeadsByOneMore(w, n, s, acc, schedule, s2, acc', Advance(0));
    schedule := schedule + [Advance(0)];
    assert Step(w, s3, Advance(0)) == s.(pcs := s.pcs[0 := AddOptimistic(1, 0)]);
    LeadsByOneMore(w, n, s, acc, schedule, s3, acc', Advance(0));
    schedule := schedule + [Advance(0)];
  }

  // So does its second, and it takes an element that is not there.
  lemma LateConsumerIsDeceived(w: nat, n: nat) returns (schedule: seq<Action>, end: State, acc': Account)
    requires 2 <= w && n == Pow2(w - 1) + 1
    ensures Leads(w, n, Issued(n, n + 1), BegunAccount(n, n + 1), schedule, end, acc')
    ensures end.head == 2 && end.tail == 1
  {
    hide Leads, After, CallsFit;
    var s, acc := Issued(n, n + 1), BegunAccount(n, n + 1);
    schedule, acc' := LateConsumerBegins(w, n);
    TooFarLooksNear(w);
    var s4 := s.(pcs := s.pcs[0 := AddOptimistic(1, 0)]);
    var s5 := Step(w, s4, Advance(0));
    var s6 := Step(w, s5, Advance(0));
    end := Step(w, s6, Advance(0));
    LeadsByOneMore(w, n, s, acc, schedule, s4, acc', Advance(0));
    schedule := schedule + [Advance(0)];
    assert s5.pcs[0] == Decide(1, 0, n + 1) && Share(w, s5, s5.pcs[0]) == 1;
    LeadsByOneMore(w, n, s, acc, schedule, s5, acc', Advance(0));
    schedule := schedule + [Advance(0)];
    assert s6.pcs[0] == AddHead(1);
    LeadsByOneMore(w, n, s, acc, schedule, s6, acc', Advance(0));
    schedule := schedule + [Advance(0)];
  }

  // The state every run of n + 2 consumers starts from.
  function Rested(n: nat): State { State(0, 0, 0, 0, seq(n + 2, _ => Idle), []) }

  lemma PublishBegins(w: nat, n: nat)
    requires 1 <= w
    ensures Leads(w, n, Rested(n), NoCalls(n + 2), [Publish(1)], Begun(n, 0), BegunAccount(n, 0))
  {
    assert Step(w, Rested(n), Publish(1)) == Begun(n, 0);
    assert NoCalls(n + 2) == BegunAccount(n, 0);
    LeadsByOne(w, n, Rested(n), NoCalls(n + 2), Publish(1));
  }

  /** One unit more and the protocol fails, for every word size: a run from an empty queue in which the calls around
      each dequeue ask for no more than half the word range and one together, and at its end the head has passed the
      tail: one element was published and two were claimed. */
  lemma WindowIsTight(w: nat) returns (s: State, schedule: seq<Action>)
    requires 2 <= w
    ensures Initial(s) && CallsFit(w, Pow2(w - 1) + 1, s, NoCalls(|s.pcs|), schedule)
    ensures Run(w, s, schedule).tail == 1 && Run(w, s, schedule).head == 2
  {
    hide Leads, After, CallsFit, Charge, Begun, BegunAccount, Issued;
    var n := Pow2(w - 1) + 1;
    s := Rested(n);
    var acc := NoCalls(n + 2);
    PublishBegins(w, n);
    var begin := AllBegin(w, n, n + 1);
    LeadsOn(w, n, s, acc, [Publish(1)], Begun(n, 0), BegunAccount(n, 0), begin, Begun(n, n + 1), BegunAccount(n, n + 1));
    schedule := [Publish(1)] + begin;
    var take := FirstTakes(w, n);
    LeadsOn(w, n, s, acc, schedule, Begun(n, n + 1), BegunAccount(n, n + 1), take, Issued(n, 1), BegunAccount(n, n + 1));
    schedule := schedule + take;
    var issue := AllIssue(w, n, n + 1);
    LeadsOn(w, n, s, acc, schedule, Issued(n, 1), BegunAccount(n, n + 1), issue, Issued(n, n + 1), BegunAccount(n, n + 1));
    schedule := schedule + issue;
    var late, end, acc' := LateConsumerIsDeceived(w, n);
    LeadsOn(w, n, s, acc, schedule, Issued(n, n + 1), BegunAccount(n, n + 1), late, end, acc');
    schedule := schedule + late;
    LeadsToEnd(w, n, s, acc, schedule, end, acc');
  }

  lemma LeadsToEnd(w: nat, bound: int, s: State, acc: Account, schedule: seq<Action>, s': State, acc': Account)
    requires Leads(w, bound, s, acc, schedule, s', acc')
    ensures 1 <= w && Fits(acc, |s.pcs|) && CallsFit(w, bound, s, acc, schedule) && Run(w, s, schedule) == s'
  {
    RunIsAfter(w, s, acc, schedule);
  }

  // In every run in which the calls around each dequeue ask for at most `bound`, the head stays within the tail.
  ghost predicate IsSafe(w: nat, bound: int)
    requires 1 <= w
  {
    forall s: State, schedule: seq<Action> ::
      Initial(s) && CallsFit(w, bound, s, NoCalls(|s.pcs|), schedule) ==> Run(w, s, schedule).head <= Run(w, s, schedule).tail
  }

  lemma {:induction false} LargerBoundFits(w: nat, small: int, large: int, s: State, acc: Account, schedule: seq<Action>)
    requires 1 <= w && Fits(acc, |s.pcs|) && small <= large && CallsFit(w, small, s, acc, schedule)
    ensures CallsFit(w, large, s, acc, schedule)
    decreases |schedule|
  {
    if |schedule| > 0 {
      if Enabled(s, schedule[0]) {
        LargerBoundFits(w, small, large, Step(w, s, schedule[0]), Charge(s, acc, schedule[0]), schedule[1..]);
      } else {
        LargerBoundFits(w, small, large, s, acc, schedule[1..]);
      }
    }
  }

  /** Exactly which bound on the calls around a dequeue keeps consumers from claiming what is not there: half the word
      range. */
  lemma BoundIsExact(w: nat, bound: nat)
    requires 2 <= w
    ensures IsSafe(w, bound) <==> bound <= Pow2(w - 1)
  {
    if bound <= Pow2(w - 1) {
      forall s: State, schedule: seq<Action> | Initial(s) && CallsFit(w, bound, s, NoCalls(|s.pcs|), schedule)
        ensures Run(w, s, schedule).head <= Run(w, s, schedule).tail
      {
        FittingRunKeepsInv(w, bound, s, schedule);
        ClaimsAreSound(Run(w, s, schedule));
      }
    } else {
      var s, schedule := WindowIsTight(w);
      LargerBoundFits(w, Pow2(w - 1) + 1, bound, s, NoCalls(|s.pcs|), schedule);
    }
  }
}
