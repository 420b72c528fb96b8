/** The elements of an explicit producer: the machine of ExplicitProducer with what is in the slots of the blocks, so that
    first in, first out can be stated and proved. */
module ExplicitElements {
  import opened Common
  import opened Words
  import opened BlockMath
  import Claims = DequeueClaims
  import P = ImplicitProducer
  import IC = ImplicitClaims
  import M = ExplicitProducer
  import V = ExplicitInvariant
  import S = ExplicitSafety
  import C = ExplicitConsumers
  import A = ExplicitProducing
  import Window = ExplicitWindow

  type Element = P.Element

  // m: the machine; batch: the elements of the call in progress; cells: the slots of each block, None while no element is
  // constructed in them; taken: for each thread the next index it will take. Auxiliary: items, all elements ever
  // published; got, what each index delivered.
  datatype State = State(
    m: M.State,
    batch: seq<Element>,
    items: seq<Element>,
    cells: map<nat, seq<Option<Element>>>,
    taken: seq<nat>,
    got: map<nat, Element>)

  // Take moves one element out of its slot and destroys it there; every other step is one of the machine.
  datatype Action = Enqueue(xs: seq<Element>) | Machine(a: M.Action) | Take(thread: nat)

  // The element is constructed in a slot that is there.
  predicate CanConstruct(cfg: P.Config, s: State) {
    s.m.producer.Fill? ==>
      && s.m.producer.done < |s.batch| && s.m.producer.current in s.cells
      && Offset(cfg.BlockSize(), s.m.c.tail + s.m.producer.done) < |s.cells[s.m.producer.current]|
  }

  // A consumer that has found the block of its index takes the elements of its claim in that block, in order.
  predicate CanTake(cfg: P.Config, s: State, t: nat) {
    && t < |s.m.consumers| && t < |s.taken| && s.m.consumers[t].Report? && s.taken[t] < s.m.consumers[t].end
    && s.m.consumers[t].block in s.cells
    && Offset(cfg.BlockSize(), s.taken[t]) < |s.cells[s.m.consumers[t].block]|
    && s.cells[s.m.consumers[t].block][Offset(cfg.BlockSize(), s.taken[t])].Some?
  }

  // And reports an index as completely dequeued only once it has taken it.
  predicate HasTaken(s: State, t: nat) {
    t < |s.m.consumers| && t < |s.taken| && (s.m.consumers[t].Report? ==> s.m.consumers[t].i < s.taken[t])
  }

  predicate Enabled(cfg: P.Config, s: State, a: Action) {
    match a
    case Enqueue(xs) => M.Enabled(cfg, s.m, M.StartEnqueue(|xs|))
    case Machine(a) =>
      && !a.StartEnqueue? && M.Enabled(cfg, s.m, a)
      && (a.Produce? ==> CanConstruct(cfg, s)) && (a.Consume? ==> HasTaken(s, a.thread))
    case Take(t) => CanTake(cfg, s, t)
  }

  function Produced(cfg: P.Config, s: State, supply: M.Supply): State
    requires M.CanProduce(cfg, s.m) && CanConstruct(cfg, s)
  {
    var s' := s.(m := M.ProducerStep(cfg, s.m, supply));
    match s.m.producer
    case Requisition(_, _, _, _, _) =>
      (match M.GrantedBlock(cfg, s.m, supply)
       case Some(block) => s'.(cells := s.cells[block := P.Raw(cfg.BlockSize())])
       case None => s')
    case Fill(_, _, done, current) =>
      s'.(cells := s.cells[current := s.cells[current][Offset(cfg.BlockSize(), s.m.c.tail + done) := Some(s.batch[done])]])
    case Publish(_, _) => s'.(items := s.items + s.batch)
    case _ => s'
  }

  function DoTake(cfg: P.Config, s: State, t: nat): State
    requires CanTake(cfg, s, t)
  {
    var i, block := s.taken[t], s.m.consumers[t].block;
    var o := Offset(cfg.BlockSize(), i);
    s.(got := s.got[i := s.cells[block][o].value], cells := s.cells[block := s.cells[block][o := None]],
       taken := s.taken[t := i + 1])
  }

  function Step(cfg: P.Config, s: State, a: Action): State
    requires Enabled(cfg, s, a)
  {
    match a
    case Enqueue(xs) => s.(m := M.Step(cfg, s.m, M.StartEnqueue(|xs|)), batch := xs)
    case Machine(a) =>
      if a.Produce? then Produced(cfg, s, a.supply)
      else if a.Consume? && s.m.consumers[a.thread].LoadBlock? then
        s.(m := M.Step(cfg, s.m, a), taken := s.taken[a.thread := s.m.consumers[a.thread].i])
      else s.(m := M.Step(cfg, s.m, a))
    case Take(t) => DoTake(cfg, s, t)
  }

  // ---- The invariant ----

  predicate Live(m: M.State, b: int) { |m.who| - m.used <= b < |m.who| }

  // How many elements of the call in progress have been constructed.
  function Filled(pc: M.ProducerPc): nat { if pc.Fill? then pc.done else if pc.Publish? then pc.count else 0 }

  // What belongs in the slot of index i.
  function Expected(s: State, i: nat): Option<Element> {
    if i in s.got then None
    else if i < |s.items| then Some(s.items[i])
    else if i - |s.items| < Filled(s.m.producer) && i - |s.items| < |s.batch| then Some(s.batch[i - |s.items|])
    else None
  }

  // The slot of index i is in the block that was given its number.
  ghost predicate CellIs(n: nat, who: seq<nat>, cells: map<nat, seq<Option<Element>>>, i: nat, e: Option<Element>)
    requires 0 < n
  {
    var b := Number(n, i);
    b < |who| && who[b] in cells && |cells[who[b]]| == n && Offset(n, i) < n && cells[who[b]][Offset(n, i)] == e
  }

  ghost predicate CellsOk(n: nat, s: State)
    requires 0 < n
  {
    forall i: nat :: Live(s.m, Number(n, i)) ==> CellIs(n, s.m.who, s.cells, i, Expected(s, i))
  }

  // Whether thread t has claimed index i and not taken it.
  predicate Owes(s: State, t: nat, i: nat)
    requires t < |s.m.consumers| == |s.taken|
  {
    (if s.m.consumers[t].Report? then s.taken[t] else V.Next(s.m.consumers[t])) <= i < V.Hi(s.m.consumers[t])
  }

  // A consumer is between the first index it has not reported and the end of its claim in the block.
  ghost predicate PlacesOk(s: State) {
    && |s.taken| == |s.m.consumers|
    && forall t :: 0 <= t < |s.taken| && s.m.consumers[t].Report? ==>
         s.m.consumers[t].i <= s.taken[t] <= s.m.consumers[t].end
  }

  ghost predicate OwedIsNew(s: State)
    requires |s.taken| == |s.m.consumers|
  {
    forall t, i: nat :: 0 <= t < |s.taken| && Owes(s, t, i) ==> i !in s.got
  }

  // What a consumer has taken and not reported.
  predicate Unreported(s: State, t: nat, i: nat)
    requires t < |s.m.consumers| == |s.taken|
  {
    s.m.consumers[t].Report? && s.m.consumers[t].i <= i < s.taken[t]
  }

  ghost predicate UnreportedIsTaken(s: State)
    requires |s.taken| == |s.m.consumers|
  {
    forall t, i: nat :: 0 <= t < |s.taken| && Unreported(s, t, i) ==> i in s.got
  }

  ghost predicate Owed(s: State, i: nat)
    requires |s.taken| == |s.m.consumers|
  {
    exists t :: 0 <= t < |s.taken| && Owes(s, t, i)
  }

  ghost predicate AllAccounted(s: State)
    requires |s.taken| == |s.m.consumers|
  {
    forall i: nat :: i < s.m.c.head && i !in s.got ==> Owed(s, i)
  }

  // Every index below the head was taken or is owed, not both; what is reported was taken.
  ghost predicate TakenOk(s: State) {
    && PlacesOk(s) && OwedIsNew(s) && UnreportedIsTaken(s) && AllAccounted(s)
    && forall i :: i in s.m.reported ==> i in s.got
  }

  ghost predicate GotOk(s: State) {
    && (forall i :: i in s.got ==> i < s.m.c.head)
    && (forall i :: i in s.got ==> i < |s.items| && s.got[i] == s.items[i])
  }

  ghost predicate Inv(cfg: P.Config, s: State) {
    && V.Inv(cfg, s.m) && |s.items| == s.m.c.tail
    && (!s.m.producer.Ready? ==> |s.batch| == s.m.producer.count)
    && CellsOk(cfg.BlockSize(), s) && TakenOk(s) && GotOk(s)
  }

  // ---- Taking ----

  /** The slot of an index that a consumer owes holds the element enqueued there. */
  lemma OwedIsThere(cfg: P.Config, s: State, t: nat, i: nat)
    requires Inv(cfg, s) && t < |s.taken| && t < |s.m.consumers| && |s.taken| == |s.m.consumers| && Owes(s, t, i)
    ensures i < s.m.c.head && i < |s.items| && i !in s.got && Live(s.m, Number(cfg.BlockSize(), i))
    ensures CellIs(cfg.BlockSize(), s.m.who, s.cells, i, Some(s.items[i]))
  {
    hide V.Inv, CellIs;
    assert V.Next(s.m.consumers[t]) <= i;
    V.UnreportedBlockStays(cfg, s.m, t, i);
  }

  lemma TakeIsOwed(cfg: P.Config, s: State, t: nat)
    requires Inv(cfg, s) && t < |s.m.consumers| && t < |s.taken| && s.m.consumers[t].Report?
    requires s.taken[t] < s.m.consumers[t].end
    ensures |s.taken| == |s.m.consumers| && Owes(s, t, s.taken[t])
    ensures var n := cfg.BlockSize();
      && Number(n, s.taken[t]) == Number(n, s.m.consumers[t].i) < |s.m.who|
      && s.m.consumers[t].block == s.m.who[Number(n, s.taken[t])]
  {
    hide CellsOk, GotOk;
    V.ConsumerStands(cfg, s.m, t);
    hide V.Inv;
    var n, pc := cfg.BlockSize(), s.m.consumers[t];
    Within(n, pc.i);
    WithinOnly(n, s.taken[t], Number(n, pc.i));
  }

  lemma TakeIsDefined(cfg: P.Config, s: State, t: nat)
    requires Inv(cfg, s) && t < |s.m.consumers| && s.m.consumers[t].Report? && t < |s.taken|
    requires s.taken[t] < s.m.consumers[t].end
    ensures CanTake(cfg, s, t)
    ensures s.taken[t] !in s.got && s.taken[t] < |s.items|
    ensures var o := Offset(cfg.BlockSize(), s.taken[t]);
      s.cells[s.m.consumers[t].block][o] == Some(s.items[s.taken[t]])
  {
    TakeIsOwed(cfg, s, t);
    OwedIsThere(cfg, s, t, s.taken[t]);
    hide Inv;
  }

  // ---- The slots ----

  ghost predicate Distinct(m: M.State) { forall a, b :: Live(m, a) && Live(m, b) && 0 <= a < b ==> m.who[a] != m.who[b] }

  lemma CircleIsDistinct(cfg: P.Config, m: M.State)
    requires V.Inv(cfg, m)
    ensures Distinct(m)
  {
    V.ShapedHolds(cfg, m);
    hide V.BlocksOk, V.RetiredOk, V.ReportedOk, V.PlacesOk, V.ViewsOk, Claims.Inv, V.HeadersOk, V.ProducerOk;
  }

  // Writing the slot of index j leaves that of index i alone.
  lemma OtherSlotStays(n: nat, m: M.State, cells: map<nat, seq<Option<Element>>>, j: nat, e: Option<Element>, i: nat,
                       x: Option<Element>)
    requires 0 < n && Distinct(m) && Live(m, Number(n, i)) && Live(m, Number(n, j)) && i != j
    requires CellIs(n, m.who, cells, i, x)
    requires Number(n, j) < |m.who| && m.who[Number(n, j)] in cells && Offset(n, j) < |cells[m.who[Number(n, j)]]|
    ensures var block := m.who[Number(n, j)];
      CellIs(n, m.who, cells[block := cells[block][Offset(n, j) := e]], i, x)
  {
    Within(n, i);
    Within(n, j);
    hide Number;
  }

  // Writing the one slot whose contents change.
  lemma WriteKeepsCells(n: nat, s: State, s': State, j: nat, e: Option<Element>)
    requires 0 < n && CellsOk(n, s) && Distinct(s.m) && Live(s.m, Number(n, j)) && 0 <= Number(n, j) < |s.m.who|
    requires s'.m.who == s.m.who && s'.m.used == s.m.used && Expected(s', j) == e
    requires s.m.who[Number(n, j)] in s.cells && Offset(n, j) < |s.cells[s.m.who[Number(n, j)]]|
    requires var block := s.m.who[Number(n, j)]; s'.cells == s.cells[block := s.cells[block][Offset(n, j) := e]]
    requires forall i: nat :: i != j ==> Expected(s', i) == Expected(s, i)
    ensures CellsOk(n, s')
  {
    hide Expected, Number, Offset, Distinct;
    forall i: nat | Live(s'.m, Number(n, i)) ensures CellIs(n, s'.m.who, s'.cells, i, Expected(s', i)) {
      assert Live(s.m, Number(n, i));
      assert CellIs(n, s.m.who, s.cells, i, Expected(s, i));
      if i != j {
        OtherSlotStays(n, s.m, s.cells, j, e, i, Expected(s, i));
      }
    }
  }

  lemma TakenExpected(s: State, s': State, j: nat, e: Element, i: nat)
    requires s'.got == s.got[j := e] && s'.items == s.items && s'.batch == s.batch && s'.m == s.m
    ensures Expected(s', i) == if i == j then None else Expected(s, i)
  {}

  lemma TakeKeepsCells(cfg: P.Config, s: State, t: nat)
    requires Inv(cfg, s) && CanTake(cfg, s, t)
    ensures CellsOk(cfg.BlockSize(), DoTake(cfg, s, t))
  {
    hide Inv, V.Inv, TakenOk, GotOk, CellsOk, Distinct, Expected, CellIs, Number, Offset, Owes;
    InvParts(cfg, s);
    TakeIsOwed(cfg, s, t);
    OwedIsThere(cfg, s, t, s.taken[t]);
    CircleIsDistinct(cfg, s.m);
    var j, s' := s.taken[t], DoTake(cfg, s, t);
    SlotIsThere(cfg.BlockSize(), s.m.who, s.cells, j, Some(s.items[j]));
    forall i: nat ensures Expected(s', i) == if i == j then None else Expected(s, i) {
      TakenExpected(s, s', j, s'.got[j], i);
    }
    WriteKeepsCells(cfg.BlockSize(), s, s', j, None);
  }

  // ---- What is owed ----

  lemma ClaimsApart(cfg: P.Config, m: M.State, t: nat, u: nat)
    requires V.Inv(cfg, m) && t < |m.c.pcs| && u < |m.c.pcs| && t != u && m.c.pcs[t].Claimed? && m.c.pcs[u].Claimed?
    ensures m.c.pcs[t].first + m.c.pcs[t].count <= m.c.pcs[u].first || m.c.pcs[u].first + m.c.pcs[u].count <= m.c.pcs[t].first
  {
    hide V.BlocksOk, V.RetiredOk, V.ReportedOk, V.PlacesOk, V.ViewsOk, V.HeadersOk, V.ProducerOk, V.CircleOk;
    Claims.ClaimsAreSound(m.c);
    hide Claims.Inv;
  }

  // What a thread owes lies in its claim.
  lemma OwedIsClaimed(cfg: P.Config, s: State, t: nat, i: nat)
    requires Inv(cfg, s) && t < |s.taken| && |s.taken| == |s.m.consumers| && Owes(s, t, i)
    ensures t < |s.m.c.pcs| && s.m.c.pcs[t].Claimed?
    ensures s.m.c.pcs[t].first <= i < s.m.c.pcs[t].first + s.m.c.pcs[t].count
  {
    hide CellsOk, GotOk;
    V.ConsumerStands(cfg, s.m, t);
    hide V.Inv, V.ViewOk;
  }

  /** Each index is owed by one thread at most. */
  lemma OwedByOne(cfg: P.Config, s: State, t: nat, u: nat, i: nat)
    requires Inv(cfg, s) && t < |s.taken| && u < |s.taken| && |s.taken| == |s.m.consumers| && t != u
    requires Owes(s, t, i)
    ensures !Owes(s, u, i)
  {
    hide Inv, Owes;
    if Owes(s, u, i) {
      OwedIsClaimed(cfg, s, t, i);
      OwedIsClaimed(cfg, s, u, i);
      InvOfMachine(cfg, s);
      ClaimsApart(cfg, s.m, t, u);
    }
  }

  lemma InvOfMachine(cfg: P.Config, s: State)
    requires Inv(cfg, s)
    ensures V.Inv(cfg, s.m)
  {
    hide V.Inv;
  }

  lemma OwedAfterTake(cfg: P.Config, s: State, t: nat, u: nat, i: nat)
    requires CanTake(cfg, s, t) && |s.taken| == |s.m.consumers| && u < |s.taken|
    requires s.m.consumers[t].end <= s.m.consumers[t].stop
    ensures Owes(DoTake(cfg, s, t), u, i) <==> Owes(s, u, i) && !(u == t && i == s.taken[t])
  {}

  lemma TakeKeepsOwed(cfg: P.Config, s: State, t: nat)
    requires Inv(cfg, s) && CanTake(cfg, s, t) && |s.taken| == |s.m.consumers|
    requires s.m.consumers[t].end <= s.m.consumers[t].stop && Owes(s, t, s.taken[t])
    ensures OwedIsNew(DoTake(cfg, s, t)) && AllAccounted(DoTake(cfg, s, t))
  {
    var j, s' := s.taken[t], DoTake(cfg, s, t);
    assert OwedIsNew(s) && AllAccounted(s) by {
      hide V.Inv, CellsOk, GotOk, OwedIsNew, AllAccounted, UnreportedIsTaken;
    }
    hide Inv, Owes;
    forall u, i: nat | 0 <= u < |s'.taken| && Owes(s', u, i) ensures i !in s'.got {
      OwedAfterTake(cfg, s, t, u, i);
      if i == j {
        OwedByOne(cfg, s, t, u, j);
      }
    }
    forall i: nat | i < s'.m.c.head && i !in s'.got ensures Owed(s', i) {
      var u :| 0 <= u < |s.taken| && Owes(s, u, i);
      OwedAfterTake(cfg, s, t, u, i);
      assert Owes(s', u, i);
    }
  }

  lemma TakeKeepsUnreported(cfg: P.Config, s: State, t: nat)
    requires CanTake(cfg, s, t) && PlacesOk(s) && UnreportedIsTaken(s)
    ensures PlacesOk(DoTake(cfg, s, t)) && UnreportedIsTaken(DoTake(cfg, s, t))
  {
    var s' := DoTake(cfg, s, t);
    forall u, i: nat | 0 <= u < |s'.taken| && Unreported(s', u, i) ensures i in s'.got {
      assert Unreported(s, u, i) || i == s.taken[t];
    }
  }

  lemma TakeKeepsTaken(cfg: P.Config, s: State, t: nat)
    requires Inv(cfg, s) && CanTake(cfg, s, t)
    ensures TakenOk(DoTake(cfg, s, t))
  {
    TakeIsOwed(cfg, s, t);
    V.ConsumerStands(cfg, s.m, t);
    hide V.Inv, CellsOk, GotOk, OwedIsNew, AllAccounted, UnreportedIsTaken, PlacesOk, Owes, V.ViewOk;
    TakeKeepsOwed(cfg, s, t);
    TakeKeepsUnreported(cfg, s, t);
  }

  lemma TakeKeepsGot(cfg: P.Config, s: State, t: nat)
    requires CanTake(cfg, s, t) && GotOk(s) && s.taken[t] < s.m.c.head && s.taken[t] < |s.items|
    requires s.cells[s.m.consumers[t].block][Offset(cfg.BlockSize(), s.taken[t])] == Some(s.items[s.taken[t]])
    ensures GotOk(DoTake(cfg, s, t))
  {}

  lemma TakeKeepsInv(cfg: P.Config, s: State, t: nat)
    requires Inv(cfg, s) && CanTake(cfg, s, t)
    ensures Inv(cfg, DoTake(cfg, s, t))
  {
    TakeIsOwed(cfg, s, t);
    OwedIsThere(cfg, s, t, s.taken[t]);
    TakeKeepsCells(cfg, s, t);
    TakeKeepsTaken(cfg, s, t);
    hide V.Inv, CellsOk, TakenOk, GotOk;
    TakeKeepsGot(cfg, s, t);
  }

  // ---- The producer ----

  lemma SameExpected(n: nat, s: State, s': State)
    requires 0 < n && CellsOk(n, s) && s'.m.who == s.m.who && s'.m.used == s.m.used && s'.cells == s.cells
    requires forall i: nat :: Expected(s', i) == Expected(s, i)
    ensures CellsOk(n, s')
  {
    hide Expected, CellIs, Number;
    forall i: nat | Live(s'.m, Number(n, i)) ensures CellIs(n, s'.m.who, s'.cells, i, Expected(s', i)) {
      assert Live(s.m, Number(n, i));
    }
  }

  // After a step by which nothing is taken or claimed.
  lemma SameOwed(s: State, s': State)
    requires TakenOk(s) && PlacesOk(s') && |s'.taken| == |s.taken| && s'.got == s.got && s'.m.c.head == s.m.c.head
    requires forall t, i: nat :: 0 <= t < |s.taken| ==> (Owes(s', t, i) <==> Owes(s, t, i))
    requires forall t, i: nat :: 0 <= t < |s.taken| && Unreported(s', t, i) ==> Unreported(s, t, i)
    requires forall i :: i in s'.m.reported ==> i in s'.got
    ensures TakenOk(s')
  {
    hide Owes, Unreported;
    assert AllAccounted(s') by {
      forall i: nat | i < s'.m.c.head && i !in s'.got ensures Owed(s', i) {
        assert Owed(s, i);
        var t :| 0 <= t < |s.taken| && Owes(s, t, i);
        assert Owes(s', t, i);
      }
    }
    assert OwedIsNew(s') && UnreportedIsTaken(s');
  }

  // What a step of the producer leaves alone.
  lemma ProducerFrame(cfg: P.Config, m: M.State, supply: M.Supply)
    requires M.CanProduce(cfg, m)
    ensures var m' := M.ProducerStep(cfg, m, supply);
      && m'.consumers == m.consumers && m'.reported == m.reported && m'.c.head == m.c.head
      && m'.c.tail == m.c.tail + (if m.producer.Publish? then m.producer.count else 0)
      && (!m.producer.Requisition? && !m.producer.Reuse? ==> m'.who == m.who && m'.used == m.used)
      && (!m'.producer.Ready? ==> !m.producer.Ready? && m'.producer.count == m.producer.count)
      && (m.producer.Room? || m.producer.Grow? || m.producer.Reset? || m.producer.Reuse? || m.producer.Requisition? ==>
            Filled(m'.producer) == 0 && !m'.producer.Fill? && !m'.producer.Publish?)
      && (m.producer.Publish? ==> m'.producer.Ready?)
      && (m.producer.Fill? ==> Filled(m'.producer) == m.producer.done + 1
                               || (m'.producer.Publish? && m.producer.done + 1 == m.producer.count))
      && (m.producer.Ready? ==> m' == m)
  {
    hide M.Doubled, P.IsFull, M.CanReuse, M.Linked, M.GrantedMemory, M.GrantedBlock;
  }

  // When the elements can be constructed none of them is.
  lemma ShowFillsNothing(cfg: P.Config, m: M.State)
    requires V.Inv(cfg, m) && m.producer.Show?
    ensures M.CanProduce(cfg, m) && Filled(M.DoShow(cfg, m).producer) == 0
  {
    V.ShapedHolds(cfg, m);
    hide V.BlocksOk, V.RetiredOk, V.ReportedOk, V.PlacesOk, V.ViewsOk, Claims.Inv, V.HeadersOk, V.CircleOk, Number;
  }

  lemma StartFillsNothing(cfg: P.Config, m: M.State, count: nat)
    requires V.Inv(cfg, m) && M.Enabled(cfg, m, M.StartEnqueue(count))
    ensures Filled(M.DoStart(cfg, m, count).producer) == 0
  {
    S.StartPlace(cfg, m, count);
    V.ShapedHolds(cfg, m);
    hide V.BlocksOk, V.RetiredOk, V.ReportedOk, V.PlacesOk, V.ViewsOk, Claims.Inv, V.HeadersOk, Number, P.BlockBaseDiff;
  }

  // Beyond the tail nothing is expected while nothing is constructed.
  lemma NothingBeyond(cfg: P.Config, s: State, i: nat)
    requires GotOk(s) && s.m.c.head <= |s.items| <= i && Filled(s.m.producer) == 0
    ensures Expected(s, i) == None
  {}

  lemma BeyondTail(n: nat, tail: nat, i: nat)
    requires 0 < n && Blocks(n, tail) <= Number(n, i)
    ensures tail <= i
  {
    if i < tail {
      NumberMonotone(n, i, tail - 1);
    }
  }

  // The number of the block obtained next belongs to no element yet.
  lemma NewNumberIsEmpty(cfg: P.Config, s: State, i: nat)
    requires Inv(cfg, s) && Number(cfg.BlockSize(), i) == |s.m.who| && Filled(s.m.producer) == 0
    ensures Expected(s, i) == None
  {
    InvOfMachine(cfg, s);
    V.ShapedHolds(cfg, s.m);
    V.QueueFitsWord(cfg, s.m);
    BeyondTail(cfg.BlockSize(), s.m.c.tail, i);
    hide V.Inv, CellsOk, TakenOk;
    NothingBeyond(cfg, s, i);
  }

  // Whatever block is given the next number, the slots of the blocks before stay.
  lemma CellStays(n: nat, who: seq<nat>, cells: map<nat, seq<Option<Element>>>, block: nat, slots: seq<Option<Element>>,
                  i: nat, e: Option<Element>)
    requires 0 < n && CellIs(n, who, cells, i, e) && (who[Number(n, i)] != block || (block in cells && cells[block] == slots))
    ensures CellIs(n, who + [block], cells[block := slots], i, e)
  {
    hide Number, Offset;
  }

  lemma RawCell(n: nat, who: seq<nat>, cells: map<nat, seq<Option<Element>>>, block: nat, i: nat)
    requires 0 < n && Number(n, i) == |who|
    ensures CellIs(n, who + [block], cells[block := P.Raw(n)], i, None)
  {
    Within(n, i);
    hide Number, Offset;
  }

  lemma StillExpected(s: State, s': State, i: nat)
    requires Filled(s.m.producer) == 0 && Filled(s'.m.producer) == 0 && s'.got == s.got && s'.items == s.items
    ensures Expected(s', i) == Expected(s, i)
  {}

  // A new block: its slots are raw.
  lemma RequisitionKeepsCells(cfg: P.Config, s: State, supply: M.Supply)
    requires Inv(cfg, s) && s.m.producer.Requisition? && M.CanProduce(cfg, s.m) && M.GrantedBlock(cfg, s.m, supply).Some?
    ensures CanConstruct(cfg, s) && CellsOk(cfg.BlockSize(), Produced(cfg, s, supply))
  {
    hide Inv, V.Inv, M.ProducerStep, M.GrantedBlock, Expected, CellIs, Number;
    InvOfMachine(cfg, s);
    ProducerFrame(cfg, s.m, supply);
    RequisitionAdds(cfg, s.m, supply);
    GrantedIsNew(cfg, s.m, supply);
    hide M.CanProduce;
    var n, s', block := cfg.BlockSize(), Produced(cfg, s, supply), M.GrantedBlock(cfg, s.m, supply).value;
    forall i: nat | Live(s'.m, Number(n, i)) ensures CellIs(n, s'.m.who, s'.cells, i, Expected(s', i)) {
      StillExpected(s, s', i);
      if Number(n, i) == |s.m.who| {
        NewNumberIsEmpty(cfg, s, i);
        RawCell(n, s.m.who, s.cells, block, i);
      } else {
        OldSlotIs(cfg, s, i);
        FlagsHeld(cfg, s.m, Number(n, i));
        CellStays(n, s.m.who, s.cells, block, P.Raw(n), i, Expected(s, i));
      }
    }
  }

  lemma GrantedIsNew(cfg: P.Config, m: M.State, supply: M.Supply)
    requires 1 <= cfg.w && M.GrantedBlock(cfg, m, supply).Some?
    ensures M.GrantedBlock(cfg, m, supply).value !in m.flags
  {}

  lemma RequisitionAdds(cfg: P.Config, m: M.State, supply: M.Supply)
    requires M.CanProduce(cfg, m) && m.producer.Requisition? && M.GrantedBlock(cfg, m, supply).Some?
    ensures var m' := M.ProducerStep(cfg, m, supply);
      m'.who == m.who + [M.GrantedBlock(cfg, m, supply).value] && m'.used == m.used + 1
  {
    hide M.Linked, M.Obtained;
  }

  lemma FlagsHeld(cfg: P.Config, m: M.State, b: nat)
    requires V.Inv(cfg, m) && Live(m, b)
    ensures m.who[b] in m.flags
  {
    hide V.CircleOk, V.RetiredOk, V.ReportedOk, V.PlacesOk, V.ViewsOk, Claims.Inv, V.HeadersOk;
    assert V.FlagsOk(cfg.BlockSize(), V.FirstNew(cfg, m), m.who, m.flags, m.producer, m.reported, b);
  }

  lemma ReuseAdds(cfg: P.Config, m: M.State)
    requires V.Inv(cfg, m) && m.producer.Reuse? && M.CanReuse(m)
    ensures M.CanProduce(cfg, m) && 0 < m.used <= |m.who|
    ensures var m' := M.ProducerStep(cfg, m, M.Nothing);
      m'.who == m.who + [m.who[|m.who| - m.used]] && m'.used == m.used
    ensures V.RetiredOk(cfg.BlockSize(), |m.who| - m.used + 1, m.reported)
  {
    A.ReusedBlockIsEmpty(cfg, m);
    V.ShapedHolds(cfg, m);
    hide V.Inv, M.Obtained, V.RetiredOk;
  }

  // Every slot of a block taken up again is empty: what was in it has been taken.
  lemma ReusedSlotIsEmpty(cfg: P.Config, s: State, i: nat)
    requires Inv(cfg, s) && 0 < s.m.used <= |s.m.who| && Number(cfg.BlockSize(), i) == |s.m.who|
    requires V.RetiredOk(cfg.BlockSize(), |s.m.who| - s.m.used + 1, s.m.reported)
    ensures var block := s.m.who[|s.m.who| - s.m.used];
      && block in s.cells && |s.cells[block]| == cfg.BlockSize() && Offset(cfg.BlockSize(), i) < cfg.BlockSize()
      && s.cells[block][Offset(cfg.BlockSize(), i)] == None
  {
    hide V.Inv, GotOk, PlacesOk, OwedIsNew, UnreportedIsTaken, AllAccounted;
    var n, oldest: nat := cfg.BlockSize(), |s.m.who| - s.m.used;
    Within(n, i);
    var j := Start(n, oldest) + Offset(n, i);
    WithinOnly(n, j, oldest);
    assert Live(s.m, Number(n, j));
    assert CellIs(n, s.m.who, s.cells, j, Expected(s, j));
    assert j in s.m.reported;
  }

  lemma ReuseKeepsCells(cfg: P.Config, s: State, supply: M.Supply)
    requires Inv(cfg, s) && s.m.producer.Reuse? && M.CanReuse(s.m) && M.CanProduce(cfg, s.m)
    ensures CanConstruct(cfg, s) && CellsOk(cfg.BlockSize(), Produced(cfg, s, supply))
  {
    hide Inv, V.Inv, V.RetiredOk, M.ProducerStep, M.CanReuse, M.CanProduce, Expected, CellIs, Number;
    InvOfMachine(cfg, s);
    ReuseAdds(cfg, s.m);
    ProducerFrame(cfg, s.m, supply);
    NoSupply(cfg, s.m, supply);
    var n, s', block := cfg.BlockSize(), Produced(cfg, s, supply), s.m.who[|s.m.who| - s.m.used];
    forall i: nat | Live(s'.m, Number(n, i)) ensures CellIs(n, s'.m.who, s'.cells, i, Expected(s', i)) {
      StillExpected(s, s', i);
      if Number(n, i) == |s.m.who| {
        NewNumberIsEmpty(cfg, s, i);
        ReusedCell(cfg, s, i);
      } else {
        OldSlotIs(cfg, s, i);
        SameCell(n, s.m.who, s.cells, block, i, Expected(s, i));
      }
    }
  }

  lemma SameCell(n: nat, who: seq<nat>, cells: map<nat, seq<Option<Element>>>, block: nat, i: nat, e: Option<Element>)
    requires 0 < n && CellIs(n, who, cells, i, e)
    ensures CellIs(n, who + [block], cells, i, e)
  {
    hide Number, Offset;
  }

  lemma ReusedCell(cfg: P.Config, s: State, i: nat)
    requires Inv(cfg, s) && 0 < s.m.used <= |s.m.who| && Number(cfg.BlockSize(), i) == |s.m.who|
    requires V.RetiredOk(cfg.BlockSize(), |s.m.who| - s.m.used + 1, s.m.reported)
    ensures CellIs(cfg.BlockSize(), s.m.who + [s.m.who[|s.m.who| - s.m.used]], s.cells, i, None)
  {
    ReusedSlotIsEmpty(cfg, s, i);
    hide Inv, Number, Offset, V.RetiredOk;
  }

  lemma NoSupply(cfg: P.Config, m: M.State, supply: M.Supply)
    requires M.CanProduce(cfg, m) && m.producer.Reuse?
    ensures M.ProducerStep(cfg, m, supply) == M.ProducerStep(cfg, m, M.Nothing)
  {}

  lemma OldSlotIs(cfg: P.Config, s: State, i: nat)
    requires Inv(cfg, s) && Live(s.m, Number(cfg.BlockSize(), i))
    ensures CellIs(cfg.BlockSize(), s.m.who, s.cells, i, Expected(s, i))
  {
    hide V.Inv, TakenOk, GotOk, CellIs, Expected;
  }

  lemma InvParts(cfg: P.Config, s: State)
    requires Inv(cfg, s)
    ensures V.Inv(cfg, s.m) && |s.items| == s.m.c.tail && TakenOk(s) && GotOk(s) && CellsOk(cfg.BlockSize(), s)
    ensures !s.m.producer.Ready? ==> |s.batch| == s.m.producer.count
  {
    hide V.Inv, TakenOk, GotOk, CellsOk;
  }

  // The elements of the call are expected beyond the tail, as far as they are constructed.
  lemma BeyondIsBatch(s: State, j: nat)
    requires GotOk(s) && s.m.c.head <= |s.items| && j < |s.batch|
    ensures Expected(s, |s.items| + j) == if j < Filled(s.m.producer) then Some(s.batch[j]) else None
  {}

  /** The element goes into an empty slot of the block its consumer will look in. */
  lemma ConstructsInEmptySlot(cfg: P.Config, s: State)
    requires Inv(cfg, s) && s.m.producer.Fill?
    ensures CanConstruct(cfg, s) && s.m.producer.done < s.m.producer.count == |s.batch|
    ensures var n, i := cfg.BlockSize(), s.m.c.tail + s.m.producer.done;
      && Live(s.m, Number(n, i)) && s.m.producer.current == s.m.who[Number(n, i)]
      && CellIs(n, s.m.who, s.cells, i, None)
  {
    hide Inv, V.Inv, TakenOk, CellsOk, Number, Offset, GotOk, Expected, CellIs;
    InvParts(cfg, s);
    S.ElementsGoWhereTheyAreSought(cfg, s.m);
    FillIsShort(cfg, s.m);
    V.QueueFitsWord(cfg, s.m);
    OldSlotIs(cfg, s, s.m.c.tail + s.m.producer.done);
    BeyondIsBatch(s, s.m.producer.done);
    SlotIsThere(cfg.BlockSize(), s.m.who, s.cells, s.m.c.tail + s.m.producer.done, None);
  }

  lemma SlotIsThere(n: nat, who: seq<nat>, cells: map<nat, seq<Option<Element>>>, i: nat, e: Option<Element>)
    requires 0 < n && CellIs(n, who, cells, i, e)
    ensures Number(n, i) < |who| && who[Number(n, i)] in cells && Offset(n, i) < |cells[who[Number(n, i)]]|
  {
    hide Number, Offset;
  }

  lemma FillIsShort(cfg: P.Config, m: M.State)
    requires V.Inv(cfg, m) && m.producer.Fill?
    ensures m.producer.done < m.producer.count
  {
    hide V.BlocksOk, V.RetiredOk, V.ReportedOk, V.PlacesOk, V.ViewsOk, Claims.Inv, V.HeadersOk, V.CircleOk;
  }

  // One more element is constructed.
  lemma OneMoreExpected(s: State, s': State, i: nat)
    requires s.m.producer.Fill? && s.m.producer.done < |s.batch| && i != |s.items| + s.m.producer.done
    requires Filled(s'.m.producer) == s.m.producer.done + 1
    requires s'.got == s.got && s'.items == s.items && s'.batch == s.batch
    ensures Expected(s', i) == Expected(s, i)
  {}

  lemma FillKeepsCells(cfg: P.Config, s: State, supply: M.Supply)
    requires Inv(cfg, s) && s.m.producer.Fill? && M.CanProduce(cfg, s.m)
    ensures CanConstruct(cfg, s) && CellsOk(cfg.BlockSize(), Produced(cfg, s, supply))
  {
    hide Inv, V.Inv, TakenOk, CellsOk, Distinct, M.ProducerStep, M.CanProduce, Number, Offset, Expected, GotOk;
    InvParts(cfg, s);
    ConstructsInEmptySlot(cfg, s);
    CircleIsDistinct(cfg, s.m);
    ProducerFrame(cfg, s.m, supply);
    V.QueueFitsWord(cfg, s.m);
    var s', i := Produced(cfg, s, supply), s.m.c.tail + s.m.producer.done;
    SameGot(s, s');
    BeyondIsBatch(s', s.m.producer.done);
    forall k: nat | k != i ensures Expected(s', k) == Expected(s, k) {
      OneMoreExpected(s, s', k);
    }
    WriteKeepsCells(cfg.BlockSize(), s, s', i, Some(s.batch[s.m.producer.done]));
  }

  lemma SameGot(s: State, s': State)
    requires GotOk(s) && s'.got == s.got && s.items <= s'.items && s.m.c.head <= s'.m.c.head
    ensures GotOk(s')
  {}

  // Published, the elements of the call are expected where they were before.
  lemma PublishedExpected(s: State, s': State, i: nat)
    requires s.m.producer.Publish? && |s.batch| == s.m.producer.count && Filled(s'.m.producer) == 0
    requires s'.got == s.got && s'.items == s.items + s.batch
    ensures Expected(s', i) == Expected(s, i)
  {}

  lemma PublishKeepsCells(cfg: P.Config, s: State, supply: M.Supply)
    requires Inv(cfg, s) && s.m.producer.Publish? && M.CanProduce(cfg, s.m)
    ensures CellsOk(cfg.BlockSize(), Produced(cfg, s, supply))
  {
    hide Inv, V.Inv, TakenOk, CellsOk, M.ProducerStep, M.CanProduce, Expected, GotOk;
    InvParts(cfg, s);
    ProducerFrame(cfg, s.m, supply);
    var s' := Produced(cfg, s, supply);
    forall i: nat ensures Expected(s', i) == Expected(s, i) {
      PublishedExpected(s, s', i);
    }
    SameExpected(cfg.BlockSize(), s, s');
  }

  lemma QuietKeepsCells(cfg: P.Config, s: State, supply: M.Supply)
    requires Inv(cfg, s) && M.CanProduce(cfg, s.m) && !s.m.producer.Fill? && !s.m.producer.Publish?
    requires s.m.producer.Reuse? ==> !M.CanReuse(s.m)
    requires s.m.producer.Requisition? ==> M.GrantedBlock(cfg, s.m, supply).None?
    ensures CellsOk(cfg.BlockSize(), Produced(cfg, s, supply))
  {
    hide Inv, V.Inv, TakenOk, CellsOk, M.ProducerStep, Expected, M.CanReuse;
    InvParts(cfg, s);
    var s' := Produced(cfg, s, supply);
    ProducerFrame(cfg, s.m, supply);
    QuietFrame(cfg, s.m, supply);
    hide M.CanProduce;
    forall i: nat ensures Expected(s', i) == Expected(s, i) {
      StillExpected(s, s', i);
    }
    SameExpected(cfg.BlockSize(), s, s');
  }

  // A step that obtains no block and constructs nothing.
  lemma QuietFrame(cfg: P.Config, m: M.State, supply: M.Supply)
    requires V.Inv(cfg, m) && M.CanProduce(cfg, m) && !m.producer.Fill? && !m.producer.Publish?
    requires m.producer.Reuse? ==> !M.CanReuse(m)
    requires m.producer.Requisition? ==> M.GrantedBlock(cfg, m, supply).None?
    ensures var m' := M.ProducerStep(cfg, m, supply);
      m'.who == m.who && m'.used == m.used && Filled(m'.producer) == 0
  {
    hide V.Inv, M.CanReuse;
    ProducerFrame(cfg, m, supply);
    if m.producer.Show? {
      ShowFillsNothing(cfg, m);
    }
    hide M.Shaped, M.AddEntry, M.Doubled, M.Linked, M.Obtained, P.IsFull, M.GrantedMemory, M.GrantedBlock, M.DoShow;
  }

  lemma ProduceKeepsCells(cfg: P.Config, s: State, supply: M.Supply)
    requires Inv(cfg, s) && M.CanProduce(cfg, s.m) && 1 <= cfg.w
    ensures CanConstruct(cfg, s) && CellsOk(cfg.BlockSize(), Produced(cfg, s, supply))
  {
    hide Inv, Produced, M.CanProduce, M.CanReuse, M.GrantedBlock, CellsOk;
    if s.m.producer.Fill? {
      FillKeepsCells(cfg, s, supply);
    } else if s.m.producer.Publish? {
      PublishKeepsCells(cfg, s, supply);
    } else if s.m.producer.Reuse? && M.CanReuse(s.m) {
      ReuseKeepsCells(cfg, s, supply);
    } else if s.m.producer.Requisition? && M.GrantedBlock(cfg, s.m, supply).Some? {
      RequisitionKeepsCells(cfg, s, supply);
    } else {
      QuietKeepsCells(cfg, s, supply);
    }
  }

  // What a step of the producer leaves of the rest.
  lemma ProducedFrame(cfg: P.Config, s: State, supply: M.Supply)
    requires M.CanProduce(cfg, s.m) && CanConstruct(cfg, s)
    ensures var s' := Produced(cfg, s, supply);
      && s'.m == M.ProducerStep(cfg, s.m, supply) && s'.taken == s.taken && s'.got == s.got && s'.batch == s.batch
      && s'.items == s.items + (if s.m.producer.Publish? then s.batch else [])
  {
    hide M.ProducerStep, M.GrantedBlock, M.CanProduce;
  }

  lemma ProduceKeepsTaken(cfg: P.Config, s: State, supply: M.Supply)
    requires M.CanProduce(cfg, s.m) && CanConstruct(cfg, s) && TakenOk(s) && GotOk(s)
    ensures TakenOk(Produced(cfg, s, supply)) && GotOk(Produced(cfg, s, supply))
  {
    ProducerFrame(cfg, s.m, supply);
    ProducedFrame(cfg, s, supply);
    var s' := Produced(cfg, s, supply);
    hide Produced, M.ProducerStep, M.CanProduce, OwedIsNew, UnreportedIsTaken, AllAccounted, GotOk;
    SameGot(s, s');
    SameOwed(s, s');
  }

  lemma ProduceKeepsInv(cfg: P.Config, s: State, supply: M.Supply)
    requires Inv(cfg, s) && Enabled(cfg, s, Machine(M.Produce(supply)))
    ensures Inv(cfg, Produced(cfg, s, supply))
  {
    InvParts(cfg, s);
    hide Inv, V.Inv;
    S.ProduceKeepsInv(cfg, s.m, supply);
    hide M.Granted1, CellsOk, TakenOk, GotOk, M.ProducerStep, Produced, M.CanProduce;
    ProduceKeepsCells(cfg, s, supply);
    ProduceKeepsTaken(cfg, s, supply);
    ProducerFrame(cfg, s.m, supply);
    ProducedFrame(cfg, s, supply);
    InvIf(cfg, Produced(cfg, s, supply));
  }

  lemma InvIf(cfg: P.Config, s: State)
    requires V.Inv(cfg, s.m) && |s.items| == s.m.c.tail && TakenOk(s) && GotOk(s) && CellsOk(cfg.BlockSize(), s)
    requires !s.m.producer.Ready? ==> |s.batch| == s.m.producer.count
    ensures Inv(cfg, s)
  {
    hide V.Inv, TakenOk, GotOk, CellsOk;
  }

  // ---- The consumers ----

  function AfterConsume(s: State, t: nat): seq<nat>
    requires t < |s.m.consumers| && t < |s.taken|
  {
    if s.m.consumers[t].LoadBlock? then s.taken[t := s.m.consumers[t].i] else s.taken
  }

  // What a step of a consumer leaves alone, and where it leaves its place.
  lemma ConsumeFrame(cfg: P.Config, m: M.State, t: nat)
    requires t < |m.consumers| && M.CanConsume(cfg, m, m.consumers[t])
    ensures var m' := M.DoConsume(cfg, m, t); var pc, pc' := m.consumers[t], m'.consumers[t];
      && m'.c == m.c && m'.who == m.who && m'.used == m.used && m'.producer == m.producer
      && m'.consumers == m.consumers[t := pc']
      && m'.reported == (if pc.Report? then m.reported + {pc.i} else m.reported)
      && (!pc.Report? ==> V.Next(pc') == V.Next(pc) && V.Hi(pc') == V.Hi(pc) && (pc'.Report? <==> pc.LoadBlock?))
      && (pc.Report? ==>
            if pc.i + 1 != pc.end then pc'.Report? && pc'.i == pc.i + 1 && pc'.end == pc.end && pc'.stop == pc.stop
            else if pc.end == pc.stop then pc'.Finished?
            else pc'.LoadBlock? && pc'.i == pc.end && pc'.stop == pc.stop)
  {}

  // A report moves the place of a consumer, not what it owes.
  lemma ConsumeOwes(cfg: P.Config, s: State, s': State, t: nat, u: nat, i: nat)
    requires V.Inv(cfg, s.m) && PlacesOk(s) && t < |s.m.consumers| && u < |s.taken| && HasTaken(s, t)
    requires M.CanConsume(cfg, s.m, s.m.consumers[t])
    requires s'.m == M.DoConsume(cfg, s.m, t) && s'.taken == AfterConsume(s, t)
    ensures |s'.m.consumers| == |s'.taken| == |s.taken|
    ensures Owes(s', u, i) <==> Owes(s, u, i)
    ensures Unreported(s', u, i) ==> Unreported(s, u, i)
  {
    V.ConsumerStands(cfg, s.m, t);
    ConsumeFrame(cfg, s.m, t);
    hide V.Inv, M.DoConsume, M.CanConsume, V.ViewOk;
  }

  lemma ConsumeKeepsPlaces(cfg: P.Config, s: State, s': State, t: nat)
    requires V.Inv(cfg, s.m) && PlacesOk(s) && t < |s.m.consumers| && HasTaken(s, t)
    requires M.CanConsume(cfg, s.m, s.m.consumers[t]) && V.Inv(cfg, M.DoConsume(cfg, s.m, t))
    requires s'.m == M.DoConsume(cfg, s.m, t) && s'.taken == AfterConsume(s, t)
    ensures PlacesOk(s')
  {
    ConsumeFrame(cfg, s.m, t);
    V.ConsumerStands(cfg, s'.m, t);
    hide V.Inv, M.DoConsume, M.CanConsume, V.ViewOk;
  }

  lemma ConsumeKeepsTaken(cfg: P.Config, s: State, s': State, t: nat)
    requires V.Inv(cfg, s.m) && TakenOk(s) && t < |s.m.consumers| && HasTaken(s, t)
    requires M.CanConsume(cfg, s.m, s.m.consumers[t]) && V.Inv(cfg, M.DoConsume(cfg, s.m, t))
    requires s'.m == M.DoConsume(cfg, s.m, t) && s'.taken == AfterConsume(s, t) && s'.got == s.got
    ensures TakenOk(s')
  {
    hide V.Inv, M.DoConsume, M.CanConsume, Owes, OwedIsNew, AllAccounted;
    ConsumeFrame(cfg, s.m, t);
    if s.m.consumers[t].Report? {
      assert Unreported(s, t, s.m.consumers[t].i);
    }
    ConsumeKeepsPlaces(cfg, s, s', t);
    forall u, i: nat | 0 <= u < |s.taken|
      ensures (Owes(s', u, i) <==> Owes(s, u, i)) && (Unreported(s', u, i) ==> Unreported(s, u, i))
    {
      ConsumeOwes(cfg, s, s', t, u, i);
    }
    hide Unreported, PlacesOk, UnreportedIsTaken;
    SameOwed(s, s');
  }

  lemma SameSlots(cfg: P.Config, s: State, s': State)
    requires CellsOk(cfg.BlockSize(), s) && s'.m.who == s.m.who && s'.m.used == s.m.used && s'.cells == s.cells
    requires s'.items == s.items && s'.got == s.got
    requires Filled(s'.m.producer) == Filled(s.m.producer) && (s'.batch == s.batch || Filled(s.m.producer) == 0)
    ensures CellsOk(cfg.BlockSize(), s')
  {
    hide CellsOk;
    SameExpected(cfg.BlockSize(), s, s');
  }

  lemma ConsumeStep(cfg: P.Config, s: State, t: nat)
    requires Enabled(cfg, s, Machine(M.Consume(t)))
    ensures t < |s.m.consumers| && t < |s.taken| && M.CanConsume(cfg, s.m, s.m.consumers[t]) && HasTaken(s, t)
    ensures Step(cfg, s, Machine(M.Consume(t))) == s.(m := M.DoConsume(cfg, s.m, t), taken := AfterConsume(s, t))
  {
    hide M.CanConsume, M.DoConsume;
  }

  lemma ConsumeKeepsInv(cfg: P.Config, s: State, t: nat)
    requires Inv(cfg, s) && Enabled(cfg, s, Machine(M.Consume(t)))
    ensures Inv(cfg, Step(cfg, s, Machine(M.Consume(t))))
  {
    hide Inv, V.Inv, CellsOk, TakenOk, GotOk, M.CanConsume, M.DoConsume, Enabled, Step, HasTaken, AfterConsume;
    InvParts(cfg, s);
    ConsumeStep(cfg, s, t);
    C.ConsumeKeepsInv(cfg, s.m, t);
    ConsumeFrame(cfg, s.m, t);
    var s' := Step(cfg, s, Machine(M.Consume(t)));
    ConsumeKeepsTaken(cfg, s, s', t);
    SameSlots(cfg, s, s');
    SameGot(s, s');
    InvIf(cfg, s');
  }

  // ---- Claims and calls ----

  // The head moves over the claim of thread t, which owes all of it.
  lemma ClaimKeepsTaken(s: State, s': State, t: nat, count: nat)
    requires TakenOk(s) && GotOk(s) && t < |s.taken| && s.m.consumers[t].NoClaim?
    requires s'.taken == s.taken && s'.got == s.got && s'.m.reported == s.m.reported
    requires s'.m.c.head == s.m.c.head + count
    requires s'.m.consumers == s.m.consumers[t := M.LoadIndex(s.m.c.head, s.m.c.head + count)]
    ensures TakenOk(s')
  {
    forall i: nat | i < s'.m.c.head && i !in s'.got ensures Owed(s', i) {
      if i < s.m.c.head {
        assert Owed(s, i);
        var u :| 0 <= u < |s.taken| && Owes(s, u, i);
        assert Owes(s', u, i);
      } else {
        assert Owes(s', t, i);
      }
    }
    forall u, i: nat | 0 <= u < |s'.taken| && Owes(s', u, i) ensures i !in s'.got {
      assert u != t ==> Owes(s, u, i);
    }
    forall u, i: nat | 0 <= u < |s'.taken| && Unreported(s', u, i) ensures i in s'.got {
      assert Unreported(s, u, i);
    }
  }

  // The claim protocol without an effect on the head.
  lemma QuietClaimKeepsTaken(s: State, s': State, t: nat)
    requires TakenOk(s) && t < |s.taken| && s'.taken == s.taken && s'.got == s.got && s'.m.reported == s.m.reported
    requires s'.m.c.head == s.m.c.head
    requires s'.m.consumers == s.m.consumers
             || (s.m.consumers[t].Finished? && s'.m.consumers == s.m.consumers[t := M.NoClaim])
    ensures TakenOk(s')
  {
    hide OwedIsNew, UnreportedIsTaken, AllAccounted;
    SameOwed(s, s');
  }

  lemma ClaimFrame(cfg: P.Config, m: M.State, t: nat)
    requires V.Inv(cfg, m) && M.Enabled(cfg, m, M.Claim(t))
    ensures t < |m.consumers| && m.consumers[t].NoClaim? && t < |m.c.pcs|
    ensures var m' := M.Step(cfg, m, M.Claim(t));
      && m'.c.tail == m.c.tail && m' == m.(c := m'.c, consumers := m'.consumers)
      && if m.c.pcs[t].AddHead? then
           && m'.c.head == m.c.head + m.c.pcs[t].count
           && m'.consumers == m.consumers[t := M.LoadIndex(m.c.head, m.c.head + m.c.pcs[t].count)]
         else m'.c.head == m.c.head && m'.consumers == m.consumers
  {
    C.NotClaimed(cfg, m, t);
    IC.AdvanceEffect(cfg.w, m.c, t);
    hide V.Inv, Claims.Inv, Claims.Step;
  }

  lemma ClaimKeepsRest(cfg: P.Config, s: State, s': State, t: nat)
    requires V.Inv(cfg, s.m) && TakenOk(s) && GotOk(s) && CellsOk(cfg.BlockSize(), s)
    requires M.Enabled(cfg, s.m, M.Claim(t)) && s' == s.(m := M.Step(cfg, s.m, M.Claim(t)))
    ensures TakenOk(s') && GotOk(s') && CellsOk(cfg.BlockSize(), s') && s'.m.c.tail == s.m.c.tail
    ensures s'.m.producer == s.m.producer
  {
    hide V.Inv, CellsOk, TakenOk, GotOk, M.Step, M.Enabled;
    ClaimFrame(cfg, s.m, t);
    LengthsAgree(s);
    if s.m.c.pcs[t].AddHead? {
      ClaimKeepsTaken(s, s', t, s.m.c.pcs[t].count);
    } else {
      QuietClaimKeepsTaken(s, s', t);
    }
    SameSlots(cfg, s, s');
    SameGot(s, s');
  }

  lemma ClaimKeepsInv(cfg: P.Config, s: State, t: nat)
    requires Inv(cfg, s) && Enabled(cfg, s, Machine(M.Claim(t))) && S.InWindow(cfg, s.m, M.Claim(t))
    ensures Inv(cfg, Step(cfg, s, Machine(M.Claim(t))))
  {
    hide Inv, V.Inv, CellsOk, TakenOk, GotOk, M.Step, M.Enabled, S.InWindow;
    InvParts(cfg, s);
    S.StepKeepsInv(cfg, s.m, M.Claim(t));
    ClaimKeepsRest(cfg, s, Step(cfg, s, Machine(M.Claim(t))), t);
    InvIf(cfg, Step(cfg, s, Machine(M.Claim(t))));
  }

  lemma LengthsAgree(s: State)
    requires TakenOk(s)
    ensures |s.taken| == |s.m.consumers|
  {
    hide OwedIsNew, UnreportedIsTaken, AllAccounted;
  }

  lemma CallFrame(cfg: P.Config, m: M.State, a: M.Action)
    requires M.Enabled(cfg, m, a) && (a.StartDequeue? || a.Finish?)
    ensures var m' := M.Step(cfg, m, a);
      && a.thread < |m.consumers| && m'.c.tail == m.c.tail && m'.c.head == m.c.head
      && m' == m.(c := m'.c, consumers := m'.consumers)
      && (m'.consumers == m.consumers
          || (m.consumers[a.thread].Finished? && m'.consumers == m.consumers[a.thread := M.NoClaim]))
  {}

  lemma CallKeepsInv(cfg: P.Config, s: State, a: M.Action)
    requires Inv(cfg, s) && Enabled(cfg, s, Machine(a)) && (a.StartDequeue? || a.Finish?)
    ensures Inv(cfg, Step(cfg, s, Machine(a)))
  {
    InvParts(cfg, s);
    hide Inv, V.Inv, CellsOk, TakenOk, GotOk;
    S.StepKeepsInv(cfg, s.m, a);
    CallFrame(cfg, s.m, a);
    hide M.Step, M.Enabled;
    var s' := Step(cfg, s, Machine(a));
    LengthsAgree(s);
    QuietClaimKeepsTaken(s, s', a.thread);
    SameSlots(cfg, s, s');
    SameGot(s, s');
    InvIf(cfg, s');
  }

  lemma EnqueueKeepsInv(cfg: P.Config, s: State, xs: seq<Element>)
    requires Inv(cfg, s) && Enabled(cfg, s, Enqueue(xs))
    ensures Inv(cfg, Step(cfg, s, Enqueue(xs)))
  {
    InvParts(cfg, s);
    hide Inv, V.Inv, CellsOk, TakenOk, GotOk, P.BlockBaseDiff;
    S.StepKeepsInv(cfg, s.m, M.StartEnqueue(|xs|));
    StartFillsNothing(cfg, s.m, |xs|);
    var s' := Step(cfg, s, Enqueue(xs));
    LengthsAgree(s);
    StillPlaced(s, s');
    SameOwed(s, s');
    SameSlots(cfg, s, s');
    SameGot(s, s');
    InvIf(cfg, s');
  }

  lemma StillPlaced(s: State, s': State)
    requires TakenOk(s) && s'.taken == s.taken && s'.m.consumers == s.m.consumers && s'.got == s.got
    requires s'.m.reported == s.m.reported
    ensures PlacesOk(s') && forall i :: i in s'.m.reported ==> i in s'.got
  {
    hide OwedIsNew, UnreportedIsTaken, AllAccounted;
  }

  lemma StepKeepsInv(cfg: P.Config, s: State, a: Action)
    requires Inv(cfg, s) && Enabled(cfg, s, a)
    requires 1 <= cfg.w && (a.Machine? ==> S.InWindow(cfg, s.m, a.a))
    ensures Inv(cfg, Step(cfg, s, a))
  {
    hide Inv, CanTake, CanConstruct, HasTaken, Produced, DoTake;
    match a
    case Enqueue(xs) => EnqueueKeepsInv(cfg, s, xs);
    case Take(t) => TakeKeepsInv(cfg, s, t);
    case Machine(b) =>
      if b.Produce? {
        ProduceKeepsInv(cfg, s, b.supply);
      } else if b.Consume? {
        ConsumeKeepsInv(cfg, s, b.thread);
      } else if b.Claim? {
        ClaimKeepsInv(cfg, s, b.thread);
      } else {
        CallKeepsInv(cfg, s, b);
      }
  }

  // ---- Runs ----

  function Run(cfg: P.Config, s: State, schedule: seq<Action>): State
    decreases |schedule|
  {
    if |schedule| == 0 then s
    else Run(cfg, if Enabled(cfg, s, schedule[0]) then Step(cfg, s, schedule[0]) else s, schedule[1..])
  }

  // What the machine does in a run.
  function MachineActions(cfg: P.Config, s: State, schedule: seq<Action>): seq<M.Action>
    decreases |schedule|
  {
    if |schedule| == 0 then []
    else
      var a := schedule[0];
      if Enabled(cfg, s, a) then
        (match a case Enqueue(xs) => [M.StartEnqueue(|xs|)] case Machine(b) => [b] case Take(_) => [])
        + MachineActions(cfg, Step(cfg, s, a), schedule[1..])
      else MachineActions(cfg, s, schedule[1..])
  }

  // A producer as constructed.
  ghost predicate Initial(cfg: P.Config, s: State) {
    && S.Initial(cfg, s.m) && s.items == [] && s.cells == map[] && s.got == map[] && |s.taken| == |s.m.consumers|
  }

  lemma InitialInv(cfg: P.Config, s: State)
    requires Initial(cfg, s)
    ensures Inv(cfg, s)
  {
    S.InitialInv(cfg, s.m);
    hide V.Inv, Number;
  }

  lemma MachineStep(cfg: P.Config, s: State, a: Action)
    requires Enabled(cfg, s, a)
    ensures match a
      case Enqueue(xs) => M.Enabled(cfg, s.m, M.StartEnqueue(|xs|))
                          && Step(cfg, s, a).m == M.Step(cfg, s.m, M.StartEnqueue(|xs|))
      case Machine(b) => M.Enabled(cfg, s.m, b) && Step(cfg, s, a).m == M.Step(cfg, s.m, b)
      case Take(_) => Step(cfg, s, a).m == s.m
  {
    hide M.CanProduce, M.ProducerStep, M.CanConsume, M.DoConsume, M.DoClaim, M.DoStart;
  }

  lemma {:induction false} RunKeepsInv(cfg: P.Config, s: State, schedule: seq<Action>)
    requires Inv(cfg, s) && 1 <= cfg.w && S.RunInWindow(cfg, s.m, MachineActions(cfg, s, schedule))
    ensures Inv(cfg, Run(cfg, s, schedule))
    decreases |schedule|
  {
    hide Inv, Enabled, Step, M.Enabled, M.Step, S.InWindow;
    if |schedule| > 0 {
      var a := schedule[0];
      if Enabled(cfg, s, a) {
        MachineStep(cfg, s, a);
        var rest := MachineActions(cfg, Step(cfg, s, a), schedule[1..]);
        match a {
          case Enqueue(xs) => assert ([M.StartEnqueue(|xs|)] + rest)[1..] == rest;
          case Machine(b) => assert ([b] + rest)[1..] == rest && ([b] + rest)[0] == b;
          case Take(_) => assert [] + rest == rest;
        }
        StepKeepsInv(cfg, s, a);
        RunKeepsInv(cfg, Step(cfg, s, a), schedule[1..]);
      } else {
        RunKeepsInv(cfg, s, schedule[1..]);
      }
    }
  }

  /** Any word, block and index size, any number of consumers, any elements, any interleaving, calls that succeed or are
      turned down before they have obtained a block: if the calls around each dequeue ask for at most half the word range
      together, what is in the slots and what was taken is in order throughout. */
  lemma EveryRunKeepsInv(cfg: P.Config, s: State, schedule: seq<Action>)
    requires Initial(cfg, s) && Window.CallsFit(cfg, s.m, MachineActions(cfg, s, schedule))
    ensures Inv(cfg, Run(cfg, s, schedule))
  {
    hide Inv;
    Window.FittingRunKeepsInv(cfg, s.m, MachineActions(cfg, s, schedule));
    InitialInv(cfg, s);
    RunKeepsInv(cfg, s, schedule);
  }

  // ---- What it means ----

  /** First in, first out: what was taken at index i is the i-th element enqueued. */
  lemma TakenIsEnqueued(cfg: P.Config, s: State, i: nat)
    requires Inv(cfg, s) && i in s.got
    ensures i < s.m.c.head <= |s.items| && s.got[i] == s.items[i]
  {
    InvOfMachine(cfg, s);
    V.QueueFitsWord(cfg, s.m);
    hide V.Inv, CellsOk, TakenOk;
  }

  /** Only the step that takes index i adds it to what was taken, it was not taken before, and what it delivers is the
      element enqueued there. */
  lemma EachIndexIsTakenOnce(cfg: P.Config, s: State, a: Action)
    requires Inv(cfg, s) && Enabled(cfg, s, a)
    ensures !a.Take? ==> Step(cfg, s, a).got == s.got
    ensures a.Take? ==>
      var i := s.taken[a.thread];
      i < |s.items| && i !in s.got && Step(cfg, s, a).got == s.got[i := s.items[i]]
  {
    if a.Take? {
      TakeIsDefined(cfg, s, a.thread);
      hide Inv, Enabled;
    } else {
      hide Inv;
      OnlyTakeTakes(cfg, s, a);
    }
  }

  lemma OnlyTakeTakes(cfg: P.Config, s: State, a: Action)
    requires Enabled(cfg, s, a) && !a.Take?
    ensures Step(cfg, s, a).got == s.got
  {
    hide M.Step, M.Enabled, M.ProducerStep, M.CanProduce, M.GrantedBlock;
  }

  /** Nothing is lost: an element that was not taken is in its slot, in a block of the circle; and if it has been claimed,
      one consumer, and only one, is still to take it. */
  lemma NothingIsLost(cfg: P.Config, s: State, i: nat)
    requires Inv(cfg, s) && i < |s.items| && i !in s.got
    ensures Live(s.m, Number(cfg.BlockSize(), i))
    ensures CellIs(cfg.BlockSize(), s.m.who, s.cells, i, Some(s.items[i]))
    ensures |s.taken| == |s.m.consumers|
    ensures i < s.m.c.head ==> exists t :: 0 <= t < |s.taken| && Owes(s, t, i)
                                          && forall u :: 0 <= u < |s.taken| && u != t ==> !Owes(s, u, i)
  {
    hide Inv, V.Inv, CellsOk, GotOk, OwedIsNew, UnreportedIsTaken, CellIs;
    InvParts(cfg, s);
    UntakenIsHeld(cfg, s, i);
    OldSlotIs(cfg, s, i);
    if i < s.m.c.head {
      assert Owed(s, i);
      hide TakenOk, Owes;
      var t :| 0 <= t < |s.taken| && Owes(s, t, i);
      forall u | 0 <= u < |s.taken| && u != t ensures !Owes(s, u, i) {
        OwedByOne(cfg, s, t, u, i);
      }
    }
  }

  lemma UntakenIsHeld(cfg: P.Config, s: State, i: nat)
    requires V.Inv(cfg, s.m) && |s.items| == s.m.c.tail && i < |s.items| && i !in s.m.reported
    ensures Live(s.m, Number(cfg.BlockSize(), i))
  {
    V.ShapedHolds(cfg, s.m);
    NumberMonotone(cfg.BlockSize(), i, s.m.c.tail - 1);
    hide V.CircleOk, V.BlocksOk, V.ReportedOk, V.PlacesOk, V.ViewsOk, Claims.Inv, V.HeadersOk, Number;
  }

  /** Whatever step a thread takes next, the slot it reads or writes is there, and the one it reads holds an element. */
  lemma EveryStepIsDefined(cfg: P.Config, s: State)
    requires Inv(cfg, s)
    ensures CanConstruct(cfg, s)
    ensures forall t :: 0 <= t < |s.m.consumers| && s.m.consumers[t].Report? ==>
      t < |s.taken| && (CanTake(cfg, s, t) || HasTaken(s, t))
  {
    InvParts(cfg, s);
    if s.m.producer.Fill? {
      ConstructsInEmptySlot(cfg, s);
    }
    LengthsAgree(s);
    forall t | 0 <= t < |s.m.consumers| && s.m.consumers[t].Report? ensures CanTake(cfg, s, t) || HasTaken(s, t) {
      if s.taken[t] < s.m.consumers[t].end {
        TakeIsDefined(cfg, s, t);
      } else {
        V.ConsumerStands(cfg, s.m, t);
        hide Inv, V.Inv;
      }
    }
    hide Inv;
  }
}
