/** A call to an explicit producer that fails after it has obtained a block keeps the block in the circle without counting
    it. Which calls may fail so without harm: the lookups of consumers stay right if and only if no call asks for more than
    a block's worth of elements. */
module ExplicitFailure {
  import opened Common
  import opened Words
  import opened BlockMath
  import Claims = DequeueClaims
  import P = ImplicitProducer
  import M = ExplicitProducer
  import V = ExplicitInvariant
  import S = ExplicitSafety
  import E = ExplicitElements
  import Window = ExplicitWindow
  import Calls = ClaimsWindow

  // front: originalBlockIndexFront, what pr_blockIndexFront goes back to.
  datatype State = State(m: M.State, front: nat)

  // Fail: the request of a call that has already obtained a block is turned down.
  datatype Action = Machine(a: M.Action) | Fail(supply: M.Supply)

  predicate Enabled(cfg: P.Config, s: State, a: Action) {
    match a
    case Machine(b) => M.Enabled(cfg, s.m, b)
    case Fail(supply) =>
      && M.CanProduce(cfg, s.m) && (s.m.producer.Room? || s.m.producer.Grow? || s.m.producer.Requisition?)
      && 0 < s.m.producer.staged <= |s.m.who| && S.Denied(cfg, s.m, supply)
  }

  // The undoing of a failed call: the counters of the index and the tail block go back, the blocks stay in the circle. The
  // numbers of the blocks are given up.
  function DoFail(s: State): M.State
    requires (s.m.producer.Room? || s.m.producer.Grow? || s.m.producer.Requisition?) && s.m.producer.staged <= |s.m.who|
  {
    var pc := s.m.producer;
    s.m.(prFront := s.front, used := pc.shown, tailBlock := if s.m.start.None? then pc.first else s.m.start,
         producer := M.Ready, who := s.m.who[..|s.m.who| - pc.staged])
  }

  function Step(cfg: P.Config, s: State, a: Action): State
    requires Enabled(cfg, s, a)
  {
    match a
    case Fail(_) => s.(m := DoFail(s))
    case Machine(b) =>
      var m' := M.Step(cfg, s.m, b);
      State(m', if b.StartEnqueue? then s.m.prFront
                else if b.Produce? && s.m.producer.Grow? && m'.producer.Requisition? then s.m.producer.shown
                else s.front)
  }

  function Run(cfg: P.Config, s: State, schedule: seq<Action>): State
    decreases |schedule|
  {
    if |schedule| == 0 then s
    else Run(cfg, if Enabled(cfg, s, schedule[0]) then Step(cfg, s, schedule[0]) else s, schedule[1..])
  }

  function ClaimActions(cfg: P.Config, s: State, schedule: seq<Action>): seq<Claims.Action>
    decreases |schedule|
  {
    if |schedule| == 0 then []
    else
      var a := schedule[0];
      if Enabled(cfg, s, a) then
        (if a.Machine? then Window.ClaimAction(s.m, a.a) else []) + ClaimActions(cfg, Step(cfg, s, a), schedule[1..])
      else ClaimActions(cfg, s, schedule[1..])
  }

  /** The calls around each dequeue ask for at most half the word range together. */
  ghost predicate CallsFit(cfg: P.Config, s: State, schedule: seq<Action>) {
    && 1 <= cfg.w
    && Calls.CallsFit(cfg.w, Pow2(cfg.w - 1), s.m.c, Calls.NoCalls(|s.m.c.pcs|), ClaimActions(cfg, s, schedule))
  }

  predicate BulksWithin(bound: int, schedule: seq<Action>) {
    forall i :: 0 <= i < |schedule| && schedule[i].Machine? && schedule[i].a.StartEnqueue? ==> schedule[i].a.count <= bound
  }

  // From the front of the current header the lookup for index i comes to the entry of its block.
  predicate Finds(cfg: P.Config, m: M.State, i: nat) {
    && 0 < |m.headers|
    && var h := M.Current(m);
    && 0 <= h.front < |h.entries| && h.entries[h.front].Some?
    && var slot := M.LookUp(cfg, h, h.front, h.entries[h.front].value.number, i);
    && 0 <= slot < |h.entries| && h.entries[slot].Some? && h.entries[slot].value.number == Number(cfg.BlockSize(), i)
  }

  // It does for every element that is published and not yet claimed.
  ghost predicate LookupsRight(cfg: P.Config, m: M.State) {
    forall i: nat :: m.c.head <= i < m.c.tail ==> Finds(cfg, m, i)
  }

  // In every run whose calls ask for at most `extra` more elements than a block holds lookups are right, whatever fails.
  ghost predicate IsSafe(cfg: P.Config, extra: int) {
    forall s: State, schedule: seq<Action> ::
      S.Initial(cfg, s.m) && CallsFit(cfg, s, schedule) && BulksWithin(cfg.BlockSize() + extra, schedule) ==>
        LookupsRight(cfg, Run(cfg, s, schedule).m)
  }

  // ---- Calls for a block's worth ----

  lemma InvFinds(cfg: P.Config, m: M.State, i: nat)
    requires V.Inv(cfg, m) && m.c.head <= i < m.c.tail
    ensures Finds(cfg, m, i)
  {
    V.ShapedHolds(cfg, m);
    V.HeaderHolds(cfg, m, |m.headers| - 1);
    InCircle(cfg, m, i);
    hide V.BlocksOk, V.RetiredOk, V.ReportedOk, V.PlacesOk, V.ViewsOk, Claims.Inv, V.CircleOk, V.ProducerOk;
    var h := M.Current(m);
    V.LookUpIsExact(cfg, h, m.who, h.front, i);
    hide M.LookUp;
  }

  lemma InCircle(cfg: P.Config, m: M.State, i: nat)
    requires V.Inv(cfg, m) && m.c.head <= i < m.c.tail
    ensures |m.who| - m.used <= Number(cfg.BlockSize(), i) < |m.who| && 0 < V.FirstNew(cfg, m)
  {
    V.ShapedHolds(cfg, m);
    NumberMonotone(cfg.BlockSize(), i, m.c.tail - 1);
    hide V.CircleOk, V.BlocksOk, V.PlacesOk, V.ViewsOk, Claims.Inv, V.HeadersOk, Number;
  }

  lemma OneBlockMore(n: nat, tail: nat, count: nat)
    requires 0 < n && count <= n
    ensures Blocks(n, tail + count) <= Blocks(n, tail) + 1
  {
    BlocksReach(n, tail);
    BlocksReach(n, tail + count);
    StartMoves(n, Blocks(n, tail));
  }

  /** A call for no more elements than a block holds never fails after it has obtained a block: it needs only one. */
  lemma NoLateFailure(cfg: P.Config, m: M.State)
    requires V.Inv(cfg, m) && (m.producer.Room? || m.producer.Grow? || m.producer.Requisition?)
    requires m.producer.count <= cfg.BlockSize()
    ensures m.producer.staged == 0
  {
    var n, tail, pc := cfg.BlockSize(), m.c.tail, m.producer;
    OneBlockMore(n, tail, pc.count);
    V.ShapedHolds(cfg, m);
    hide V.CircleOk, V.BlocksOk, V.RetiredOk, V.ReportedOk, V.PlacesOk, V.ViewsOk, Claims.Inv, V.HeadersOk;
    StartMonotone(n, Blocks(n, tail + pc.count), Blocks(n, tail) + 1);
    if 0 < pc.staged {
      StartMonotone(n, Blocks(n, tail) + 1, |m.who|);
    }
    hide Number, Start, Blocks;
  }

  lemma CallKeepsCount(cfg: P.Config, m: M.State, a: M.Action)
    requires M.Enabled(cfg, m, a)
    ensures var m' := M.Step(cfg, m, a);
      !m'.producer.Ready? ==>
        if a.StartEnqueue? then m'.producer.count == a.count
        else !m.producer.Ready? && m'.producer.count == m.producer.count
  {
    if a.Produce? {
      E.ProducerFrame(cfg, m, a.supply);
    } else if a.Consume? {
      E.ConsumeFrame(cfg, m, a.thread);
    }
    hide M.ProducerStep, M.CanProduce, M.DoConsume, M.CanConsume, P.BlockBaseDiff, Claims.Step;
  }

  lemma {:induction false} SafeRun(cfg: P.Config, s: State, schedule: seq<Action>)
    requires V.Inv(cfg, s.m) && (!s.m.producer.Ready? ==> s.m.producer.count <= cfg.BlockSize()) && 1 <= cfg.w
    requires BulksWithin(cfg.BlockSize(), schedule) && Claims.RunInWindow(cfg.w, s.m.c, ClaimActions(cfg, s, schedule))
    ensures V.Inv(cfg, Run(cfg, s, schedule).m)
    decreases |schedule|
  {
    hide V.Inv, M.Enabled, M.Step, S.Denied, M.CanProduce, Window.ClaimAction, Claims.Enabled, Claims.Step;
    if |schedule| > 0 {
      var a := schedule[0];
      if !Enabled(cfg, s, a) {
        SafeRun(cfg, s, schedule[1..]);
      } else if a.Fail? {
        NoLateFailure(cfg, s.m);
      } else {
        var actions, rest := Window.ClaimAction(s.m, a.a), ClaimActions(cfg, Step(cfg, s, a), schedule[1..]);
        Window.StepIsClaimStep(cfg, s.m, a.a);
        if actions == [] {
          assert actions + rest == rest;
        } else {
          assert (actions + rest)[0] == actions[0] && (actions + rest)[1..] == rest;
        }
        S.StepKeepsInv(cfg, s.m, a.a);
        CallKeepsCount(cfg, s.m, a.a);
        SafeRun(cfg, Step(cfg, s, a), schedule[1..]);
      }
    }
  }

  /** Whatever it is answered, a producer in a call can take its turn: it goes on, or the call fails and is over. */
  lemma EveryTurnIsTaken(cfg: P.Config, s: State, supply: M.Supply)
    requires V.Inv(cfg, s.m)
    ensures Enabled(cfg, s, Machine(M.Produce(supply))) || Enabled(cfg, s, Fail(supply))
    ensures Enabled(cfg, s, Fail(supply)) ==> Step(cfg, s, Fail(supply)).m.producer.Ready?
  {
    S.EveryStepIsDefined(cfg, s.m);
    V.ShapedHolds(cfg, s.m);
    hide V.BlocksOk, V.CircleOk, V.HeadersOk, V.ViewsOk, V.RetiredOk, V.ReportedOk, Claims.Inv, M.CanProduce, M.Shaped;
  }

  /** If no call asks for more elements than a block holds, then whatever is turned down and when, the invariant of the
      producer holds throughout, and lookups are right. */
  lemma BlockfulCallsAreSafe(cfg: P.Config, s: State, schedule: seq<Action>)
    requires S.Initial(cfg, s.m) && CallsFit(cfg, s, schedule) && BulksWithin(cfg.BlockSize(), schedule)
    ensures V.Inv(cfg, Run(cfg, s, schedule).m) && LookupsRight(cfg, Run(cfg, s, schedule).m)
  {
    hide V.Inv, Finds;
    Calls.FittingRunKeepsInv(cfg.w, Pow2(cfg.w - 1), s.m.c, ClaimActions(cfg, s, schedule));
    S.InitialInv(cfg, s.m);
    SafeRun(cfg, s, schedule);
    var m := Run(cfg, s, schedule).m;
    forall i: nat | m.c.head <= i < m.c.tail ensures Finds(cfg, m, i) {
      InvFinds(cfg, m, i);
    }
  }
}
