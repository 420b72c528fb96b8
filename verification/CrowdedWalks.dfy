/** How much room a walk needs in order to find out that the producers are dry: exactly that what a producer holds and
    what others ask of it stay below half the word range together. */
module CrowdedWalks {
  import opened Common
  import opened Words
  import opened InnerQueue
  import opened DryWalks
  import C = DequeueClaims
  import D = DryClaims

  // Two threads get there, always with room to spare.
  ghost predicate Reachable(w: nat, limit: int, x: Watching) {
    exists schedule :: AlwaysSpare(w, limit, Initial(2), schedule) && Run(w, Initial(2), schedule) == x
  }

  lemma {:induction false} OneMore(w: nat, limit: int, x: Watching, schedule: seq<Action>, a: Action)
    requires |x.watches| == |x.queue.walks| && AlwaysSpare(w, limit, x, schedule)
    requires Enabled(w, Run(w, x, schedule).queue, a) && Spare(w, limit, Run(w, x, schedule), a)
    ensures AlwaysSpare(w, limit, x, schedule + [a])
    ensures Run(w, x, schedule + [a]) == Next(w, Run(w, x, schedule), a)
    decreases |schedule|
  {
    hide Enabled, Next, Spare;
    if |schedule| == 0 {
      StepSizes(w, x.queue, a);
      assert (schedule + [a])[0] == a && (schedule + [a])[1..] == [];
      RunNothing(w, limit, Next(w, x, a));
    } else {
      assert (schedule + [a])[0] == schedule[0] && (schedule + [a])[1..] == schedule[1..] + [a];
      if Enabled(w, x.queue, schedule[0]) {
        StepSizes(w, x.queue, schedule[0]);
        OneMore(w, limit, Next(w, x, schedule[0]), schedule[1..], a);
      } else {
        OneMore(w, limit, x, schedule[1..], a);
      }
    }
  }

  lemma RunNothing(w: nat, limit: int, x: Watching)
    requires |x.watches| == |x.queue.walks|
    ensures Run(w, x, []) == x && AlwaysSpare(w, limit, x, [])
  {}

  lemma Reach(w: nat, limit: int, x: Watching, a: Action)
    requires Reachable(w, limit, x) && |x.watches| == |x.queue.walks| && Enabled(w, x.queue, a) && Spare(w, limit, x, a)
    ensures Reachable(w, limit, Next(w, x, a))
    ensures |Next(w, x, a).watches| == |Next(w, x, a).queue.walks|
  {
    hide Enabled, Next, Spare;
    var schedule :| AlwaysSpare(w, limit, Initial(2), schedule) && Run(w, Initial(2), schedule) == x;
    OneMore(w, limit, Initial(2), schedule, a);
    StepSizes(w, x.queue, a);
  }

  // ---- One producer, two threads ----

  // A bulk dequeue of one element, inside the dequeue of the producer.
  const INSIDE: Walk := Bulk(0, 1, 0, true)

  // An access of thread t inside the dequeue.
  lemma GoesOn(w: nat, limit: int, c: C.State, walks: seq<Walk>, watches: seq<Watch>, t: nat)
    requires 1 <= w && |c.pcs| == 2 && t < 2 && |walks| == 2 && |watches| == 2 && walks[t] == INSIDE
    requires InRange(walks[0], 1) && InRange(walks[1], 1)
    requires C.Enabled(c, C.Advance(t)) && !c.pcs[t].Idle? && !c.pcs[t].Claimed?
    requires |watches[t].asked| == 1 && D.Spare(limit, c, t, watches[t].asked[0])
    requires Reachable(w, limit, Watching(InnerQueue.State([c], walks), watches))
    ensures Reachable(w, limit, Watching(InnerQueue.State([C.Step(w, c, C.Advance(t))], walks), watches))
  {
    hide Reachable, C.Perform, D.Spare;
    var x := Watching(InnerQueue.State([c], walks), watches);
    assert Enabled(w, x.queue, Go(t));
    Reach(w, limit, x, Go(t));
    var x' := Next(w, x, Go(t));
    assert x'.queue.walks == walks;
    assert x'.queue.producers == [C.Step(w, c, C.Advance(t))];
    forall u | 0 <= u < 2 ensures x'.watches[u] == watches[u] {
      assert x'.watches[u].asked == watches[u].asked;
    }
    assert x'.watches == watches;
  }

  // An access that leaves all watches as they are.
  lemma WatchesStay(w: nat, limit: int, x: Watching, a: Action, y: Watching)
    requires Reachable(w, limit, x) && |x.watches| == |x.queue.walks| == 2 && Enabled(w, x.queue, a)
    requires Spare(w, limit, x, a) && !a.Begin?
    requires forall p, u :: 0 <= p < |x.queue.producers| && 0 <= u < 2 && p < |x.watches[u].asked| ==>
      Charge(x.queue, a, p, u) == 0
    requires y.queue == Step(w, x.queue, a) && y.watches == x.watches
    ensures Reachable(w, limit, y)
  {
    hide Reachable, Enabled, Step, Spare, Charge;
    EnabledHasWords(w, x.queue, a);
    Reach(w, limit, x, a);
    var x' := Next(w, x, a);
    forall u | 0 <= u < 2 ensures x'.watches[u] == x.watches[u] {
      assert WatchAfter(x.queue, a, u, x.watches[u]).asked == x.watches[u].asked;
    }
    assert x'.watches == x.watches;
  }

  // From the start of a call to its ticket.
  lemma TakesTicket(w: nat, limit: int, c: C.State, walks: seq<Walk>, watches: seq<Watch>, t: nat) returns (c': C.State)
    requires 1 <= w && |c.pcs| == 2 && t < 2 && |walks| == 2 && |watches| == 2 && walks[t] == INSIDE
    requires InRange(walks[0], 1) && InRange(walks[1], 1) && |watches[t].asked| == 1
    requires c.pcs[t] == C.LoadTail(1) && 0 < c.tail - (c.optimistic - c.overcommit) < Pow2(w - 1)
    requires |c.fates| == c.optimistic
    requires Reachable(w, limit, Watching(InnerQueue.State([c], walks), watches))
    ensures c'.tail == c.tail && c'.head == c.head && c'.overcommit == c.overcommit
    ensures c'.optimistic == c.optimistic + 1 == |c'.fates|
    ensures c'.pcs == c.pcs[t := C.Decide(1, c.overcommit, c.optimistic)]
    ensures Reachable(w, limit, Watching(InnerQueue.State([c'], walks), watches))
  {
    hide Reachable, Wrap, CircularLessThan;
    var there := c.tail - (c.optimistic - c.overcommit);
    D.TestIsSafe(w, there);
    GoesOn(w, limit, c, walks, watches, t);
    var c1 := C.Step(w, c, C.Advance(t));
    GoesOn(w, limit, c1, walks, watches, t);
    var c2 := C.Step(w, c1, C.Advance(t));
    GoesOn(w, limit, c2, walks, watches, t);
    var c3 := C.Step(w, c2, C.Advance(t));
    GoesOn(w, limit, c3, walks, watches, t);
    c' := C.Step(w, c3, C.Advance(t));
    assert c'.pcs == c.pcs[t := C.Decide(1, c.overcommit, c.optimistic)];
  }

  // A producer with n elements, and the first thread's walk before it.
  lemma FirstBegins(w: nat, limit: int, n: nat) returns (c: C.State)
    requires 2 <= w && n < Pow2(w - 1)
    ensures c == C.State(n, 0, 0, 0, [C.LoadTail(1), C.Idle], [])
    ensures Reachable(w, limit, Watching(InnerQueue.State([c], [INSIDE, Rest]), [Watch([n], [0]), Watch([], [])]))
  {
    hide Reachable;
    var x0 := Initial(2);
    assert Reachable(w, limit, x0) by { ReachInitial(w, limit); }
    var free := Fresh(2);
    var walks := [Rest, Rest];
    var none := [Watch([], []), Watch([], [])];
    assert x0.queue.walks == walks && x0.watches == none && free.pcs == [C.Idle, C.Idle];
    var x1 := Watching(InnerQueue.State([free], walks), none);
    WatchesStay(w, limit, x0, AddProducer, x1);
    var c1 := free.(tail := n);
    var x2 := Watching(InnerQueue.State([c1], walks), none);
    WatchesStay(w, limit, x1, Publish(0, n), x2);
    Reach(w, limit, x2, Begin(0, 1, true));
    var x3 := Next(w, x2, Begin(0, 1, true));
    var watches := [Watch([n], [0]), Watch([], [])];
    NobodyAsks(c1, 0);
    assert x3.queue.walks == [Bulk(0, 1, 0, false), Rest];
    assert Look(x2.queue, 0).began == [n] && Look(x2.queue, 0).asked == [0];
    assert x3.watches[1].asked == [];
    assert x3.watches == watches;
    c := c1.(pcs := [C.LoadTail(1), C.Idle]);
    assert C.Step(w, c1, C.Start(0, 1)) == c;
    WatchesStay(w, limit, x3, Go(0), Watching(InnerQueue.State([c], [INSIDE, Rest]), watches));
  }

  lemma ReachInitial(w: nat, limit: int)
    ensures Reachable(w, limit, Initial(2))
  {
    RunNothing(w, limit, Initial(2));
  }

  lemma NobodyAsks(c: C.State, t: nat)
    requires t < |c.pcs| && forall u :: 0 <= u < |c.pcs| ==> c.pcs[u].Idle?
    ensures D.OthersAsk(c, t) == 0
  {
    SumZero(D.Flights(), c.pcs);
    SumZero(D.Wishes(), c.pcs);
  }

  // The second thread's walk begins while the first has its ticket.
  lemma SecondBegins(w: nat, limit: int, n: nat, c: C.State) returns (c': C.State)
    requires 2 <= w && n < Pow2(w - 1) && c.pcs == [C.Decide(1, 0, 0), C.Idle]
    requires Reachable(w, limit, Watching(InnerQueue.State([c], [INSIDE, Rest]), [Watch([n], [0]), Watch([], [])]))
    requires c.tail == n
    ensures c' == c.(pcs := [C.Decide(1, 0, 0), C.LoadTail(1)])
    ensures Reachable(w, limit, Watching(InnerQueue.State([c'], [INSIDE, INSIDE]), [Watch([n], [1]), Watch([n], [1])]))
  {
    hide Reachable;
    var x := Watching(InnerQueue.State([c], [INSIDE, Rest]), [Watch([n], [0]), Watch([], [])]);
    Reach(w, limit, x, Begin(1, 1, true));
    var x1 := Next(w, x, Begin(1, 1, true));
    OneAsks(c);
    assert x1.queue.walks == [INSIDE, Bulk(0, 1, 0, false)];
    assert Look(x.queue, 1).began == [n] && Look(x.queue, 1).asked == [1];
    assert x1.watches[0].asked == [0];
    assert x1.watches == [Watch([n], [0]), Watch([n], [1])];
    c' := c.(pcs := [C.Decide(1, 0, 0), C.LoadTail(1)]);
    assert C.Step(w, c, C.Start(1, 1)) == c';
    Reach(w, limit, x1, Go(1));
    var x2 := Next(w, x1, Go(1));
    assert x2.queue.walks == [INSIDE, INSIDE] && x2.queue.producers == [c'];
    assert x2.watches[0].asked == [1] && x2.watches[1].asked == [1];
    assert x2.watches == [Watch([n], [1]), Watch([n], [1])];
  }

  lemma OneAsks(c: C.State)
    requires c.pcs == [C.Decide(1, 0, 0), C.Idle]
    ensures D.OthersAsk(c, 1) == 1
  {
    assert c.pcs[..1][..0] == [] && c.pcs[..1] == [C.Decide(1, 0, 0)];
    assert Sum(D.Flights(), c.pcs[..1]) == 1 && Sum(D.Wishes(), c.pcs[..1]) == 0;
  }

  // The second thread takes the first element, and another one is enqueued.
  lemma SecondTakes(w: nat, limit: int, n: nat, c: C.State) returns (c': C.State)
    requires 3 <= w && n == Pow2(w - 1) - 1 && n + 1 < limit
    requires c.pcs == [C.Decide(1, 0, 0), C.Decide(1, 0, 1)] && c.tail == n && c.head == 0 && c.overcommit == 0
    requires c.optimistic == 2 == |c.fates|
    requires Reachable(w, limit, Watching(InnerQueue.State([c], [INSIDE, INSIDE]), [Watch([n], [1]), Watch([n], [1])]))
    ensures c'.pcs == [C.Decide(1, 0, 0), C.Claimed(0, 1)] && c'.tail == n + 1 && c'.head == 1 && c'.overcommit == 0
    ensures 2 <= |c'.fates|
    ensures Reachable(w, limit, Watching(InnerQueue.State([c'], [INSIDE, INSIDE]), [Watch([n], [1]), Watch([n], [1])]))
  {
    hide Reachable, Wrap, CircularLessThan;
    var walks, watches := [INSIDE, INSIDE], [Watch([n], [1]), Watch([n], [1])];
    assert 3 <= n by { Pow2Grows(2, w - 1); }
    D.TestIsSafe(w, n - 1);
    GoesOn(w, limit, c, walks, watches, 1);
    var c1 := C.Step(w, c, C.Advance(1));
    assert c1.pcs == [C.Decide(1, 0, 0), C.AddHead(1)];
    GoesOn(w, limit, c1, walks, watches, 1);
    var c2 := C.Step(w, c1, C.Advance(1));
    assert c2.pcs == [C.Decide(1, 0, 0), C.Claimed(0, 1)];
    c' := c2.(tail := n + 1);
    WatchesStay(w, limit, Watching(InnerQueue.State([c2], walks), watches), Publish(0, 1),
                Watching(InnerQueue.State([c'], walks), watches));
  }

  // The first thread decides that there is nothing, and its walk ends.
  lemma FirstMisses(w: nat, limit: int, n: nat, c: C.State) returns (x: Watching)
    requires 3 <= w && n == Pow2(w - 1) - 1 && n + 1 < limit && 2 <= |c.fates|
    requires c.pcs == [C.Decide(1, 0, 0), C.Claimed(0, 1)] && c.tail == n + 1 && c.head == 1 && c.overcommit == 0
    requires Reachable(w, limit, Watching(InnerQueue.State([c], [INSIDE, INSIDE]), [Watch([n], [1]), Watch([n], [1])]))
    ensures Reachable(w, limit, x) && |x.watches| == 2 && |x.queue.producers| == 1
    ensures x.queue.walks == [Over(1, 0), INSIDE] && x.watches[0] == Watch([n], [1]) && x.queue.producers[0].head == 1
  {
    hide Reachable;
    var watches := [Watch([n], [1]), Watch([n], [1])];
    DivisionIsUnique(n + 1, Pow2(w), 0, n + 1);
    DivisionIsUnique(-(n + 1), Pow2(w), -1, n + 1);
    GoesOn(w, limit, c, [INSIDE, INSIDE], watches, 0);
    var c1 := C.Step(w, c, C.Advance(0));
    assert c1.pcs == [C.AddOvercommit(1, 0), C.Claimed(0, 1)];
    GoesOn(w, limit, c1, [INSIDE, INSIDE], watches, 0);
    var c2 := C.Step(w, c1, C.Advance(0));
    assert c2.pcs == [C.Idle, C.Claimed(0, 1)];
    var x1 := Watching(InnerQueue.State([c2], [INSIDE, INSIDE]), watches);
    var x2 := Watching(InnerQueue.State([c2], [Bulk(-1, 1, 0, false), INSIDE]), watches);
    WatchesStay(w, limit, x1, Go(0), x2);
    x := Watching(InnerQueue.State([c2], [Over(1, 0), INSIDE]), watches);
    WatchesStay(w, limit, x2, Go(0), x);
  }

  /** With one more allowed, a walk can miss almost everything, whatever the word size: a producer holds one element less
      than half the word range, a dequeue stops before it decides, another takes an element, one is enqueued, and the
      first finds nothing. */
  lemma CrowdedWalkMisses(w: nat, limit: int) returns (schedule: seq<Action>)
    requires 3 <= w && Pow2(w - 1) < limit
    ensures AlwaysSpare(w, limit, Initial(2), schedule)
    ensures var x := Run(w, Initial(2), schedule); GivenLess(x, 0) && !FoundDry(x, 0)
  {
    hide Reachable, AlwaysSpare, Run;
    var n := Pow2(w - 1) - 1;
    assert 3 <= n by { Pow2Grows(2, w - 1); }
    var c := FirstBegins(w, limit, n);
    c := TakesTicket(w, limit, c, [INSIDE, Rest], [Watch([n], [0]), Watch([], [])], 0);
    c := SecondBegins(w, limit, n, c);
    c := TakesTicket(w, limit, c, [INSIDE, INSIDE], [Watch([n], [1]), Watch([n], [1])], 1);
    c := SecondTakes(w, limit, n, c);
    var x := FirstMisses(w, limit, n, c);
    schedule := HowReached(w, limit, x);
    assert !D.Dry(x.queue.producers[0], x.watches[0].began[0], x.watches[0].asked[0]);
  }

  lemma HowReached(w: nat, limit: int, x: Watching) returns (schedule: seq<Action>)
    requires Reachable(w, limit, x)
    ensures AlwaysSpare(w, limit, Initial(2), schedule) && Run(w, Initial(2), schedule) == x
  {
    schedule :| AlwaysSpare(w, limit, Initial(2), schedule) && Run(w, Initial(2), schedule) == x;
  }

  /** In every run with that much room, a walk that is given less than it asks for has found the producers dry. */
  ghost predicate WalksFindDry(w: nat, limit: int) {
    forall threads: nat, schedule, t: nat ::
      AlwaysSpare(w, limit, Initial(threads), schedule) && GivenLess(Run(w, Initial(threads), schedule), t)
      ==> FoundDry(Run(w, Initial(threads), schedule), t)
  }

  /** Walks find that out in all runs if and only if what a producer holds and what others ask of it stay below half the
      word range whenever a walk decides. */
  lemma SpareIsExact(w: nat, limit: int)
    requires 3 <= w
    ensures WalksFindDry(w, limit) <==> limit <= Pow2(w - 1)
  {
    hide AlwaysSpare, Run, FoundDry;
    if limit <= Pow2(w - 1) {
      forall threads: nat, schedule, t: nat
        | AlwaysSpare(w, limit, Initial(threads), schedule) && GivenLess(Run(w, Initial(threads), schedule), t)
        ensures FoundDry(Run(w, Initial(threads), schedule), t)
      {
        GivenLessMeansDry(w, limit, threads, schedule, t);
      }
    } else {
      var schedule := CrowdedWalkMisses(w, limit);
    }
  }
}
