/** A call for one element more than a block holds that fails late, for every word, block and index size: the run that
    misleads consumers. */
module ExplicitLateFailure {
  import opened Common
  import opened Words
  import opened BlockMath
  import opened ExplicitFailure
  import Claims = DequeueClaims
  import Calls = ClaimsWindow
  import P = ImplicitProducer
  import M = ExplicitProducer
  import S = ExplicitSafety
  import IA = ImplicitAllocation

  // The range of indices has room for twice the blocks of the first index, and the configured limit, if there is one, for
  // one block more than these.
  ghost predicate Roomy(cfg: P.Config) {
    && cfg.Ok() && cfg.k + cfg.m + 2 <= cfg.w
    && (cfg.limit.Some? ==> Start(cfg.BlockSize(), Pow2(cfg.m) + 1) <= cfg.limit.value)
  }

  lemma Sizes(cfg: P.Config)
    requires cfg.Ok()
    ensures 2 <= cfg.BlockSize() && 2 <= Pow2(cfg.m)
  {
    Pow2Grows(1, cfg.k);
    Pow2Grows(1, cfg.m);
  }

  // As many blocks as the index has entries, and one more, stay below half the range.
  lemma Reach(cfg: P.Config, b: nat)
    requires Roomy(cfg) && b <= Pow2(cfg.m)
    ensures Start(cfg.BlockSize(), b) + cfg.BlockSize() < Pow2(cfg.w - 1)
  {
    var n, size := cfg.BlockSize(), Pow2(cfg.m);
    Sizes(cfg);
    StartMonotone(n, b, size);
    StartIsProduct(n, size);
    Pow2Adds(cfg.m, cfg.k);
    Pow2Grows(cfg.m + cfg.k + 1, cfg.w - 1);
    assert Pow2(cfg.m + cfg.k + 1) == 2 * Pow2(cfg.m + cfg.k);
    Doubles(size, n);
  }

  lemma Doubles(size: int, n: int)
    requires 2 <= size && 0 < n
    ensures size * n + n < 2 * (size * n)
  {}

  lemma NotFull(cfg: P.Config, b: nat)
    requires Roomy(cfg) && b <= Pow2(cfg.m)
    ensures !P.IsFull(cfg, 0, Start(cfg.BlockSize(), b))
  {
    var n := cfg.BlockSize();
    Reach(cfg, b);
    IA.RoomTestIsExact(cfg, 0, Start(n, b));
    StartMonotone(n, b + 1, Pow2(cfg.m) + 1);
    StartMoves(n, b);
    hide P.IsFull;
  }

  // How much a call at a block boundary has to allocate.
  lemma Needed(cfg: P.Config, b: nat, count: nat)
    requires Roomy(cfg) && (count == cfg.BlockSize() || count == cfg.BlockSize() + 1)
    ensures count + cfg.BlockSize() <= Pow2(cfg.w)
    ensures var n := cfg.BlockSize();
      P.BlockBaseDiff(cfg, Start(n, b), count) == if count == n then n else 2 * n
  {
    var n := cfg.BlockSize();
    Sizes(cfg);
    Pow2Grows(cfg.k + 3, cfg.w);
    assert Pow2(cfg.k + 3) == 2 * Pow2(cfg.k + 2) && Pow2(cfg.k + 2) == 2 * Pow2(cfg.k + 1);
    IA.BlockBaseDiffIsExact(cfg, Start(n, b), count);
    StartMoves(n, b);
    StartMoves(n, b + 1);
    hide P.BlockBaseDiff;
    UpTo(n, Start(n, b), b);
    UpTo(n, Start(n, b) + n, b + 1);
    if count == n + 1 {
      WithinOnly(n, Start(n, b) + n, b + 1);
    }
  }

  lemma UpTo(n: nat, t: nat, b: nat)
    requires 0 < n && t == Start(n, b)
    ensures Blocks(n, t) == b
  {
    if 0 < b {
      StartMoves(n, b - 1);
      WithinOnly(n, t - 1, b - 1);
    }
  }

  // ---- Schedules, one step at a time ----

  // The schedule leads there, with calls for at most one element more than a block holds and no dequeue.
  ghost predicate Leads(cfg: P.Config, s: State, schedule: seq<Action>, s': State) {
    Run(cfg, s, schedule) == s' && BulksWithin(cfg.BlockSize() + 1, schedule)
  }

  lemma {:induction false} RunExtends(cfg: P.Config, s: State, schedule: seq<Action>, a: Action)
    ensures var mid := Run(cfg, s, schedule);
      Run(cfg, s, schedule + [a]) == if Enabled(cfg, mid, a) then Step(cfg, mid, a) else mid
    decreases |schedule|
  {
    hide Enabled, Step;
    if |schedule| == 0 {
      assert schedule + [a] == [a];
    } else {
      assert (schedule + [a])[1..] == schedule[1..] + [a];
      RunExtends(cfg, if Enabled(cfg, s, schedule[0]) then Step(cfg, s, schedule[0]) else s, schedule[1..], a);
    }
  }

  lemma Then(cfg: P.Config, s: State, schedule: seq<Action>, mid: State, a: Action) returns (longer: seq<Action>)
    requires Leads(cfg, s, schedule, mid) && Enabled(cfg, mid, a)
    requires a.Machine? && a.a.StartEnqueue? ==> a.a.count <= cfg.BlockSize() + 1
    ensures Leads(cfg, s, longer, Step(cfg, mid, a))
  {
    hide Enabled, Step, Run;
    longer := schedule + [a];
    RunExtends(cfg, s, schedule, a);
  }

  lemma LeadsNowhere(cfg: P.Config, s: State)
    ensures Leads(cfg, s, [], s)
  {
    hide Enabled, Step;
  }

  // ---- The steps of a call, in states with one header and no consumers ----

  predicate Fit(at: State) {
    && M.Shaped(at.m) && |at.m.headers| == 1 && at.m.used <= |at.m.who| && |at.m.consumers| == |at.m.c.pcs|
    && at.m.c.head == 0
  }

  lemma Begins(cfg: P.Config, s: State, schedule: seq<Action>, at: State, count: nat) returns (longer: seq<Action>)
    requires Leads(cfg, s, schedule, at) && Fit(at) && at.m.producer.Ready? && 1 <= cfg.w
    requires count <= cfg.BlockSize() + 1 && count + cfg.BlockSize() <= Pow2(cfg.w)
    requires 0 < P.BlockBaseDiff(cfg, at.m.c.tail, count)
    ensures var left := P.BlockBaseDiff(cfg, at.m.c.tail, count);
      Leads(cfg, s, longer,
            State(at.m.(start := at.m.tailBlock, producer := M.Reuse(count, left, None, 0, at.m.used)), at.m.prFront))
  {
    hide Leads, P.BlockBaseDiff, Pow2;
    longer := Then(cfg, s, schedule, at, Machine(M.StartEnqueue(count)));
  }

  lemma NothingAhead(cfg: P.Config, s: State, schedule: seq<Action>, at: State) returns (longer: seq<Action>)
    requires Leads(cfg, s, schedule, at) && Fit(at) && at.m.producer.Reuse? && !M.CanReuse(at.m) && 1 <= cfg.w
    ensures var Reuse(count, left, first, staged, shown) := at.m.producer;
      Leads(cfg, s, longer, at.(m := at.m.(producer := M.Room(count, left, first, staged, shown))))
  {
    hide Leads, M.CanReuse, Pow2;
    longer := Then(cfg, s, schedule, at, Machine(M.Produce(M.Nothing)));
  }

  lemma HasRoom(cfg: P.Config, s: State, schedule: seq<Action>, at: State) returns (longer: seq<Action>)
    requires Leads(cfg, s, schedule, at) && Fit(at) && at.m.producer.Room? && |at.m.who| <= Pow2(cfg.m) && Roomy(cfg)
    ensures var Room(count, left, first, staged, shown) := at.m.producer;
      Leads(cfg, s, longer, at.(m := at.m.(producer :=
        if at.m.used == Pow2(M.Current(at.m).size) then M.Grow(count, left, first, staged, shown)
        else M.Requisition(count, left, first, staged, shown))))
  {
    NotFull(cfg, |at.m.who|);
    StartIsProduct(cfg.BlockSize(), |at.m.who|);
    hide Leads, P.IsFull, Pow2, Start;
    longer := Then(cfg, s, schedule, at, Machine(M.Produce(M.Nothing)));
  }

  lemma Obtains(cfg: P.Config, s: State, schedule: seq<Action>, at: State, block: nat) returns (longer: seq<Action>)
    requires Leads(cfg, s, schedule, at) && Fit(at) && at.m.producer.Requisition? && Roomy(cfg)
    requires at.m.used < Pow2(cfg.m) && block !in at.m.flags
    requires at.m.tailBlock.Some? ==> at.m.tailBlock.value in at.m.next
    ensures Leads(cfg, s, longer, at.(m := M.DoRequisition(cfg, at.m, Some(block))))
  {
    Reach(cfg, at.m.used);
    StartMoves(cfg.BlockSize(), at.m.used);
    hide Leads, Pow2, M.DoRequisition, Start;
    longer := Then(cfg, s, schedule, at, Machine(M.Produce(M.Granted(block))));
  }

  lemma TakesAhead(cfg: P.Config, s: State, schedule: seq<Action>, at: State) returns (longer: seq<Action>)
    requires Leads(cfg, s, schedule, at) && Fit(at) && at.m.producer.Reuse? && M.CanReuse(at.m) && 1 <= cfg.w
    ensures Leads(cfg, s, longer, at.(m := M.DoReuse(cfg, at.m)))
  {
    hide Leads, M.CanReuse, M.DoReuse, Pow2;
    longer := Then(cfg, s, schedule, at, Machine(M.Produce(M.Nothing)));
  }

  // The larger index that would be needed is not granted, and the call has obtained a block.
  lemma Fails(cfg: P.Config, s: State, schedule: seq<Action>, at: State) returns (longer: seq<Action>)
    requires Leads(cfg, s, schedule, at) && Fit(at) && at.m.producer.Grow? && 0 < at.m.producer.staged <= |at.m.who|
    requires 1 <= cfg.w
    ensures Leads(cfg, s, longer, at.(m := DoFail(at)))
  {
    hide Leads, DoFail, Pow2;
    longer := Then(cfg, s, schedule, at, Fail(M.Nothing));
  }

  // A call that cannot reuse the block ahead asks for a new one.
  lemma WantsBlock(cfg: P.Config, s: State, schedule: seq<Action>, at: State, count: nat, left: int)
    returns (longer: seq<Action>)
    requires Leads(cfg, s, schedule, at) && Fit(at) && at.m.producer.Ready? && Roomy(cfg) && |at.m.who| <= Pow2(cfg.m)
    requires count <= cfg.BlockSize() + 1 && count + cfg.BlockSize() <= Pow2(cfg.w)
    requires left == P.BlockBaseDiff(cfg, at.m.c.tail, count) && 0 < left && at.m.used != Pow2(M.Current(at.m).size)
    requires var m := at.m; m.tailBlock.Some? && m.tailBlock.value in m.next ==>
      m.next[m.tailBlock.value] in m.flags && !M.IsEmpty(m.flags[m.next[m.tailBlock.value]])
    ensures Leads(cfg, s, longer,
                  State(at.m.(start := at.m.tailBlock, producer := M.Requisition(count, left, None, 0, at.m.used)),
                        at.m.prFront))
  {
    hide Leads, P.BlockBaseDiff, Pow2, M.IsEmpty;
    longer := Begins(cfg, s, schedule, at, count);
    var m' := at.m.(start := at.m.tailBlock, producer := M.Reuse(count, left, None, 0, at.m.used));
    longer := NothingAhead(cfg, s, longer, State(m', at.m.prFront));
    longer := HasRoom(cfg, s, longer, State(m'.(producer := M.Room(count, left, None, 0, at.m.used)), at.m.prFront));
  }

  // ---- The block of a call is there: it is reset, shown, filled and published ----

  lemma {:induction false} FillsUp(cfg: P.Config, s: State, schedule: seq<Action>, at: State, b: nat, done: nat)
    returns (longer: seq<Action>)
    requires Leads(cfg, s, schedule, at) && Fit(at) && 1 <= cfg.w && at.m.c.tail == Start(cfg.BlockSize(), b)
    requires done < cfg.BlockSize() && at.m.producer.Fill? && at.m.producer.current in at.m.next
    requires at.m.producer == M.Fill(cfg.BlockSize(), 1, done, at.m.producer.current)
    ensures Leads(cfg, s, longer, at.(m := at.m.(producer := M.Publish(cfg.BlockSize(), 1))))
    decreases cfg.BlockSize() - done
  {
    var n, current := cfg.BlockSize(), at.m.producer.current;
    if done + 1 < n {
      WithinOnly(n, at.m.c.tail + done + 1, b);
    }
    hide Leads, Pow2, Offset, Start, Number;
    longer := Then(cfg, s, schedule, at, Machine(M.Produce(M.Nothing)));
    if done + 1 < n {
      longer := FillsUp(cfg, s, longer, at.(m := at.m.(producer := M.Fill(n, 1, done + 1, current))), b, done + 1);
    }
  }

  lemma Completes(cfg: P.Config, s: State, schedule: seq<Action>, at: State, h: M.Header, t: nat, b: nat)
    returns (longer: seq<Action>)
    requires Leads(cfg, s, schedule, at) && Fit(at) && cfg.Ok() && at.m.c.tail == Start(cfg.BlockSize(), t)
    requires at.m.headers == [h] && at.m.producer == M.Reset(cfg.BlockSize(), Some(b), 1, b, 0)
    requires at.m.tailBlock == Some(b) && b in at.m.next
    ensures var m := at.m;
      Leads(cfg, s, longer,
            at.(m := m.(c := m.c.(tail := m.c.tail + cfg.BlockSize()),
                        headers := [h.(front := (m.prFront - 1) % Pow2(h.size))],
                        flags := m.flags[b := M.All(cfg.BlockSize(), false)], producer := M.Ready)))
  {
    var n, m, go := cfg.BlockSize(), at.m, Machine(M.Produce(M.Nothing));
    WithinOnly(n, m.c.tail, t);
    hide Leads, Pow2, Offset, Start, Number, M.All;
    longer := Then(cfg, s, schedule, at, go);
    var m' := m.(flags := m.flags[b := M.All(n, false)], producer := M.Show(n, Some(b), 1));
    longer := Then(cfg, s, longer, at.(m := m'), go);
    var h' := h.(front := (m.prFront - 1) % Pow2(h.size));
    assert [h][0 := h'] == [h'];
    m' := m'.(headers := [h'], producer := M.Fill(n, 1, 0, b));
    longer := FillsUp(cfg, s, longer, at.(m := m'), t, 0);
    m' := m'.(producer := M.Publish(n, 1));
    longer := Then(cfg, s, longer, at.(m := m'), go);
  }

  // ---- Whole calls ----

  // With its entry written at the front.
  function Entered(m: M.State, h: M.Header, b: nat, lo: int): M.Header
    requires m.prFront < |h.entries|
  {
    h.(entries := h.entries[m.prFront := Some(M.Entry(|m.who|, b))], lo := if 0 <= lo then lo else 0, hi := |m.who| + 1)
  }

  lemma ObtainedState(cfg: P.Config, m: M.State, h: M.Header, b: nat)
    requires m.headers == [h] && |h.entries| == Pow2(h.size) && m.prFront < Pow2(h.size) && m.used <= |m.who|
    requires m.producer.Requisition? && (m.tailBlock.Some? ==> m.tailBlock.value in m.next)
    ensures M.Shaped(m)
    ensures var pc := m.producer;
      M.DoRequisition(cfg, m, Some(b)) == m.(
        headers := [Entered(m, h, b, |m.who| - m.used)], prFront := (m.prFront + 1) % Pow2(h.size), used := m.used + 1,
        flags := m.flags[b := M.All(cfg.BlockSize(), true)], next := M.Linked(m.next, m.tailBlock, b),
        tailBlock := Some(b), who := m.who + [b],
        producer := M.Obtained(pc, if pc.first.None? then Some(b) else pc.first, pc.staged + 1, pc.left - cfg.BlockSize()))
  {
    var h' := Entered(m, h, b, |m.who| - m.used);
    assert [h][0 := h'] == [h'];
    hide Pow2, M.Obtained, M.Linked, M.All;
  }

  lemma ReusedState(cfg: P.Config, m: M.State, h: M.Header, b: nat)
    requires m.headers == [h] && |h.entries| == Pow2(h.size) && m.prFront < Pow2(h.size) && m.used <= |m.who|
    requires m.producer.Reuse? && M.CanReuse(m) && m.next[m.tailBlock.value] == b
    ensures M.Shaped(m)
    ensures var pc := m.producer;
      M.DoReuse(cfg, m) == m.(
        headers := [Entered(m, h, b, |m.who| + 1 - m.used)], prFront := (m.prFront + 1) % Pow2(h.size), tailBlock := Some(b),
        who := m.who + [b],
        producer := M.Obtained(pc, if pc.first.None? then Some(b) else pc.first, pc.staged + 1, pc.left - cfg.BlockSize()))
  {
    var h' := Entered(m, h, b, |m.who| + 1 - m.used);
    assert [h][0 := h'] == [h'];
    hide Pow2, M.Obtained, M.IsEmpty;
  }

  // At rest, after t blocks were filled: no consumer ever came.
  predicate Rest(cfg: P.Config, at: State, t: nat) {
    && Fit(at) && at.m.producer.Ready? && at.m.consumers == [] && at.m.headers[0].size == cfg.m && |at.m.who| == t
    && at.m.c == Claims.State(Start(cfg.BlockSize(), t), 0, 0, 0, [], [])
    && (at.m.tailBlock.Some? ==> at.m.tailBlock.value in at.m.next)
  }

  // The block ahead, if there is one, is the first of all, which is still full.
  predicate FirstAhead(m: M.State) {
    m.tailBlock.Some? ==> m.tailBlock.value in m.next && m.next[m.tailBlock.value] == 0 && FirstFull(m)
  }

  predicate FirstFull(m: M.State) { 0 in m.flags && 0 < |m.flags[0]| && !m.flags[0][0] }

  // Blocks are numbered in the order they are obtained.
  predicate Numbered(m: M.State, b: nat) { forall id :: id in m.flags ==> id < b }

  // After a call for a block's worth that obtains block b.
  function WithBlock(cfg: P.Config, at: State, b: nat): State
    requires Fit(at) && (at.m.tailBlock.Some? ==> at.m.tailBlock.value in at.m.next)
  {
    var m, h, n := at.m, at.m.headers[0], cfg.BlockSize();
    var front := (m.prFront + 1) % Pow2(h.size);
    State(m.(start := m.tailBlock, c := m.c.(tail := m.c.tail + n),
             headers := [Entered(m, h, b, |m.who| - m.used).(front := (front - 1) % Pow2(h.size))], prFront := front,
             used := m.used + 1, flags := m.flags[b := M.All(n, true)][b := M.All(n, false)],
             next := M.Linked(m.next, m.tailBlock, b), tailBlock := Some(b), who := m.who + [b], producer := M.Ready),
          m.prFront)
  }

  lemma NotEmpty(flags: seq<bool>)
    requires 0 < |flags| && !flags[0]
    ensures !M.IsEmpty(flags)
  {}

  lemma NewIsLinked(next: map<nat, nat>, tailBlock: Option<nat>, b: nat)
    requires tailBlock.Some? ==> tailBlock.value in next
    ensures b in M.Linked(next, tailBlock, b)
  {}

  lemma NewBlockCall(cfg: P.Config, s: State, schedule: seq<Action>, at: State, t: nat, b: nat) returns (longer: seq<Action>)
    requires Leads(cfg, s, schedule, at) && Rest(cfg, at, t) && t <= Pow2(cfg.m) && at.m.used < Pow2(cfg.m) && Roomy(cfg)
    requires FirstAhead(at.m) && b !in at.m.flags
    ensures Leads(cfg, s, longer, WithBlock(cfg, at, b))
  {
    var n, m, h := cfg.BlockSize(), at.m, at.m.headers[0];
    Needed(cfg, t, n);
    if m.tailBlock.Some? {
      NotEmpty(m.flags[0]);
    }
    hide Leads, P.BlockBaseDiff, Pow2, M.IsEmpty, M.DoRequisition, M.Linked, Start, M.All;
    longer := WantsBlock(cfg, s, schedule, at, n, n);
    var m1 := m.(start := m.tailBlock, producer := M.Requisition(n, n, None, 0, m.used));
    ObtainedState(cfg, m1, h, b);
    longer := Obtains(cfg, s, longer, State(m1, m.prFront), b);
    NewIsLinked(m.next, m.tailBlock, b);
    var h' := Entered(m1, h, b, |m.who| - m.used);
    longer := Completes(cfg, s, longer, State(M.DoRequisition(cfg, m1, Some(b)), m.prFront), h', t, b);
  }

  // After a call for a block's worth that reuses the block ahead.
  function WithReused(cfg: P.Config, at: State, b: nat): State
    requires Fit(at)
  {
    var m, h, n := at.m, at.m.headers[0], cfg.BlockSize();
    var front := (m.prFront + 1) % Pow2(h.size);
    State(m.(start := m.tailBlock, c := m.c.(tail := m.c.tail + n),
             headers := [Entered(m, h, b, |m.who| + 1 - m.used).(front := (front - 1) % Pow2(h.size))], prFront := front,
             flags := m.flags[b := M.All(n, false)], tailBlock := Some(b), who := m.who + [b], producer := M.Ready),
          m.prFront)
  }

  lemma ReusingCall(cfg: P.Config, s: State, schedule: seq<Action>, at: State, t: nat, b: nat) returns (longer: seq<Action>)
    requires Leads(cfg, s, schedule, at) && Rest(cfg, at, t) && Roomy(cfg) && at.m.tailBlock.Some?
    requires at.m.next[at.m.tailBlock.value] == b && b in at.m.next && b in at.m.flags && M.IsEmpty(at.m.flags[b])
    ensures Leads(cfg, s, longer, WithReused(cfg, at, b))
  {
    var n, m, h := cfg.BlockSize(), at.m, at.m.headers[0];
    Needed(cfg, t, n);
    hide Leads, P.BlockBaseDiff, Pow2, M.IsEmpty, M.DoReuse, Start, M.All;
    longer := Begins(cfg, s, schedule, at, n);
    var m1 := m.(start := m.tailBlock, producer := M.Reuse(n, n, None, 0, m.used));
    ReusedState(cfg, m1, h, b);
    longer := TakesAhead(cfg, s, longer, State(m1, m.prFront));
    var h' := Entered(m1, h, b, |m.who| + 1 - m.used);
    longer := Completes(cfg, s, longer, State(M.DoReuse(cfg, m1), m.prFront), h', t, b);
  }

  // After a call for one element more that obtains block b, finds the index full and fails.
  function AfterFailure(cfg: P.Config, at: State, b: nat): State
    requires Fit(at) && (at.m.tailBlock.Some? ==> at.m.tailBlock.value in at.m.next)
  {
    var m, h := at.m, at.m.headers[0];
    State(m.(start := m.tailBlock, headers := [Entered(m, h, b, |m.who| - m.used)],
             flags := m.flags[b := M.All(cfg.BlockSize(), true)], next := M.Linked(m.next, m.tailBlock, b)),
          m.prFront)
  }

  lemma FailingCall(cfg: P.Config, s: State, schedule: seq<Action>, at: State, t: nat, b: nat) returns (longer: seq<Action>)
    requires Leads(cfg, s, schedule, at) && Rest(cfg, at, t) && t + 1 == Pow2(cfg.m) == at.m.used + 1 && Roomy(cfg)
    requires at.m.tailBlock.Some? && FirstAhead(at.m) && b !in at.m.flags
    ensures Leads(cfg, s, longer, AfterFailure(cfg, at, b))
  {
    var n, m, h := cfg.BlockSize(), at.m, at.m.headers[0];
    Needed(cfg, t, n + 1);
    NotEmpty(m.flags[0]);
    hide Leads, P.BlockBaseDiff, Pow2, M.IsEmpty, M.DoRequisition, M.Linked, Start, M.All;
    longer := WantsBlock(cfg, s, schedule, at, n + 1, 2 * n);
    var m1 := m.(start := m.tailBlock, producer := M.Requisition(n + 1, 2 * n, None, 0, m.used));
    ObtainedState(cfg, m1, h, b);
    longer := Obtains(cfg, s, longer, State(m1, m.prFront), b);
    var m2 := M.DoRequisition(cfg, m1, Some(b));
    longer := HasRoom(cfg, s, longer, State(m2, m.prFront));
    longer := Fails(cfg, s, longer, State(m2.(producer := M.Grow(n + 1, n, Some(b), 1, m.used)), m.prFront));
    assert (m.who + [b])[..|m.who|] == m.who;
  }

  // ---- The run ----

  // The first b blocks, each obtained by a call of its own.
  predicate Loaded(cfg: P.Config, at: State, b: nat) {
    && Rest(cfg, at, b) && at.m.used == b && at.m.prFront == b && FirstAhead(at.m) && Numbered(at.m, b)
    && at.m.tailBlock == if b == 0 then None else Some(b - 1)
  }

  lemma LoadsOne(cfg: P.Config, at: State, b: nat)
    requires Loaded(cfg, at, b) && b + 1 < Pow2(cfg.m)
    ensures Loaded(cfg, WithBlock(cfg, at, b), b + 1)
  {
    StartMoves(cfg.BlockSize(), b);
    DivisionIsUnique(b + 1, Pow2(cfg.m), 0, b + 1);
    hide Pow2;
  }

  function Begun(cfg: P.Config): State { State(S.Created(cfg, 0), 0) }

  lemma {:induction false} LoadsAll(cfg: P.Config, b: nat) returns (schedule: seq<Action>, at: State)
    requires Roomy(cfg) && b < Pow2(cfg.m)
    ensures Leads(cfg, Begun(cfg), schedule, at) && Loaded(cfg, at, b)
  {
    if b == 0 {
      schedule, at := [], Begun(cfg);
      LeadsNowhere(cfg, at);
    } else {
      schedule, at := LoadsAll(cfg, b - 1);
      hide Leads, Pow2;
      schedule := NewBlockCall(cfg, Begun(cfg), schedule, at, b - 1, b - 1);
      LoadsOne(cfg, at, b - 1);
      at := WithBlock(cfg, at, b - 1);
    }
  }

  // The block of the failed call is in the circle, and the index has no entry to count for it.
  predicate Kept(cfg: P.Config, at: State, b: nat) {
    && Rest(cfg, at, b) && at.m.used == b && at.m.prFront == b && FirstFull(at.m) && Numbered(at.m, b + 1)
    && at.m.tailBlock.Some? && at.m.next[at.m.tailBlock.value] == b && b in at.m.next && at.m.next[b] == 0
    && b in at.m.flags && M.IsEmpty(at.m.flags[b])
  }

  lemma FailureKeeps(cfg: P.Config, at: State, b: nat)
    requires Loaded(cfg, at, b) && 1 <= b && b + 1 == Pow2(cfg.m)
    ensures Kept(cfg, AfterFailure(cfg, at, b), b)
  {
    hide Pow2, Start;
  }

  // Reused, it is the newest block; b entries are counted, and the circle has b + 1 blocks.
  predicate Uncounted(cfg: P.Config, at: State, b: nat) {
    && Rest(cfg, at, b + 1) && at.m.used == b && at.m.prFront == 0 && FirstAhead(at.m) && Numbered(at.m, b + 1)
  }

  lemma ReuseIsUncounted(cfg: P.Config, at: State, b: nat)
    requires Kept(cfg, at, b) && 1 <= b && b + 1 == Pow2(cfg.m)
    ensures Uncounted(cfg, WithReused(cfg, at, b), b)
  {
    StartMoves(cfg.BlockSize(), b);
    DivisionIsUnique(b + 1, Pow2(cfg.m), 1, 0);
    hide Pow2, Start;
  }

  // From the entry of the last block, at the front, the lookup for index 0 goes once around the index to that same entry.
  lemma LookUpGoesRound(cfg: P.Config, h: M.Header)
    requires cfg.Ok() && h.size == cfg.m
    ensures M.LookUp(cfg, h, 0, Pow2(cfg.m), 0) == 0
  {
    var size := Pow2(cfg.m);
    MaskedSlotIsExact(cfg.w, cfg.k, cfg.m, 0, size, 0);
    DivisionIsUnique(0, Pow2(cfg.k), 0, 0);
    DivisionIsUnique(-size, size, -1, 0);
  }

  lemma Overwritten(cfg: P.Config, at: State, b: nat, id: nat)
    requires Uncounted(cfg, at, b) && cfg.Ok() && b + 1 == Pow2(cfg.m)
    ensures var m := WithBlock(cfg, at, id).m;
      m.c.head == 0 < m.c.tail && !Finds(cfg, m, 0)
  {
    var m, size := WithBlock(cfg, at, id).m, Pow2(cfg.m);
    Sizes(cfg);
    DivisionIsUnique(1, size, 0, 1);
    DivisionIsUnique(0, size, 0, 0);
    LookUpGoesRound(cfg, m.headers[0]);
    WithinOnly(cfg.BlockSize(), 0, 0);
    hide M.LookUp, Pow2, Number, M.Linked, M.All;
    assert m.headers[0].entries[0] == Some(M.Entry(size, id)) && m.headers[0].front == 0;
  }

  /** For every word, block and index size: calls for a block's worth fill the first index but for one entry; a call for one
      element more obtains that entry's block, is turned down and fails; the next call reuses that block, and the one after
      it writes its entry over that of the first block, whose elements nobody has claimed. The lookup for the first element
      of the queue then ends at the entry of another block. */
  lemma LateFailureMisleads(cfg: P.Config) returns (s: State, schedule: seq<Action>)
    requires Roomy(cfg)
    ensures S.Initial(cfg, s.m) && CallsFit(cfg, s, schedule) && BulksWithin(cfg.BlockSize() + 1, schedule)
    ensures var m := Run(cfg, s, schedule).m;
      m.c.head == 0 < m.c.tail && !Finds(cfg, m, 0)
  {
    Sizes(cfg);
    s := Begun(cfg);
    var b, at := Pow2(cfg.m) - 1, s;
    schedule, at := LoadsAll(cfg, b);
    hide Leads, Pow2, Finds, S.Initial, WithBlock, WithReused, AfterFailure;
    schedule := FailingCall(cfg, s, schedule, at, b, b);
    FailureKeeps(cfg, at, b);
    at := AfterFailure(cfg, at, b);
    schedule := ReusingCall(cfg, s, schedule, at, b, b);
    ReuseIsUncounted(cfg, at, b);
    at := WithReused(cfg, at, b);
    schedule := NewBlockCall(cfg, s, schedule, at, b + 1, b + 1);
    Overwritten(cfg, at, b, b + 1);
    LeadsThere(cfg, s, schedule, WithBlock(cfg, at, b + 1));
    S.CreatedIsInitial(cfg, 0);
    NoThreadsFit(cfg, s, schedule);
  }

  lemma LeadsThere(cfg: P.Config, s: State, schedule: seq<Action>, s': State)
    requires Leads(cfg, s, schedule, s')
    ensures Run(cfg, s, schedule) == s' && BulksWithin(cfg.BlockSize() + 1, schedule)
  {}

  // Where there are no consumers no call asks for anything.
  lemma NoThreadsFit(cfg: P.Config, s: State, schedule: seq<Action>)
    requires cfg.Ok() && |s.m.c.pcs| == 0
    ensures CallsFit(cfg, s, schedule)
  {
    NoThreadsAsk(cfg.w, Pow2(cfg.w - 1), s.m.c, Calls.NoCalls(0), ClaimActions(cfg, s, schedule));
  }

  lemma {:induction false} NoThreadsAsk(w: nat, bound: int, c: Claims.State, acc: Calls.Account, actions: seq<Claims.Action>)
    requires 1 <= w && |c.pcs| == 0 && Calls.Fits(acc, 0)
    ensures Calls.CallsFit(w, bound, c, acc, actions)
    decreases |actions|
  {
    if |actions| > 0 {
      if Claims.Enabled(c, actions[0]) {
        NoThreadsAsk(w, bound, Claims.Step(w, c, actions[0]), Calls.Charge(c, acc, actions[0]), actions[1..]);
      } else {
        NoThreadsAsk(w, bound, c, acc, actions[1..]);
      }
    }
  }

  /** Exactly which calls may be turned down at any point without misleading consumers, for every word, block and index
      size: those for no more elements than a block holds. */
  lemma BlockfulIsExact(cfg: P.Config, extra: int)
    requires Roomy(cfg)
    ensures IsSafe(cfg, extra) <==> extra <= 0
  {
    if extra <= 0 {
      forall s: State, schedule: seq<Action>
        | S.Initial(cfg, s.m) && CallsFit(cfg, s, schedule) && BulksWithin(cfg.BlockSize() + extra, schedule)
        ensures LookupsRight(cfg, Run(cfg, s, schedule).m)
      {
        BlockfulCallsAreSafe(cfg, s, schedule);
      }
    } else {
      var s, schedule := LateFailureMisleads(cfg);
      assert BulksWithin(cfg.BlockSize() + extra, schedule);
    }
  }
}
