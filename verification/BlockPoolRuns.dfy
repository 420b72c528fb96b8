/** Runs of a queue whose producers share the pools of blocks: each producer goes through a run of its own machine, with
    every block it was granted one that nobody else had. */
module BlockPoolRuns {
  import opened BlockPool
  import opened Common
  import F = FreeList
  import M = ImplicitProducer
  import E = ExplicitProducer
  import MSafety = ImplicitSafety
  import ESafety = ExplicitSafety
  import MInvariant = ImplicitInvariant
  import EInvariant = ExplicitInvariant
  import MWindow = ImplicitWindow
  import EWindow = ExplicitWindow

  // All blocks are in the hands of their creator, the threads do nothing, and the producers are new.
  ghost predicate Initial(cfg: M.Config, s: State) {
    && F.Initial(s.list) && |s.list.pcs| + 1 < F.SHOULD_BE_ON_FREELIST && |s.hands| == |s.list.pcs|
    && s.pool == 0 && s.poolSize == s.created <= |s.list.refs|
    && (forall t :: 0 <= t < |s.hands| ==> s.hands[t].Empty?)
    && forall p :: 0 <= p < |s.producers| ==> IsNew(cfg, s.producers[p])
  }

  ghost predicate IsNew(cfg: M.Config, p: Producer) {
    match p
    case Implicit(q) => MSafety.Initial(cfg, q)
    case Explicit(e) => ESafety.Initial(cfg, e)
  }

  lemma InitialInv(cfg: M.Config, s: State)
    requires Initial(cfg, s)
    ensures Inv(s)
  {
    F.EveryRunKeepsInv(s.list, []);
    hide F.Inv;
    forall p | 0 <= p < |s.producers| ensures Blocks(s.producers[p]) == {} && CircleOk(s.producers[p]) {
      assert IsNew(cfg, s.producers[p]);
    }
    forall b | 0 <= b < |s.list.refs| ensures Owners(s, b) == F.One(b in s.list.out) {
      SumZero(Holding(b), s.hands);
      SumZero(Having(b), s.producers);
    }
  }

  /** Any number of producers of both kinds, any number of threads, any pool, any interleaving: each block is with its
      creator, with a thread that has just obtained it, with one producer, or with the free list, and nowhere else. */
  lemma EveryRunKeepsInv(cfg: M.Config, s: State, schedule: seq<Action>)
    requires Initial(cfg, s)
    ensures Inv(Run(cfg, s, schedule))
  {
    InitialInv(cfg, s);
    RunKeepsInv(cfg, s, schedule);
  }

  // ---- What a producer sees of a run ----

  // The step producer p takes in a step of the whole.
  function ActionOf(s: State, a: Action, p: nat): Option<ProducerAction>
    requires p < |s.producers|
  {
    match a
    case Grant(t, q, completed) =>
      if q == p && t < |s.hands| && s.hands[t].Holds? then Some(Granting(s.producers[p], s.hands[t].block, completed)) else None
    case Own(_, q, b) => if q == p then Some(b) else None
    case _ => None
  }

  lemma ActionIsTaken(cfg: M.Config, s: State, a: Action, p: nat)
    requires Inv(s) && Enabled(cfg, s, a) && p < |s.producers|
    ensures |Step(cfg, s, a).producers| == |s.producers|
    ensures match ActionOf(s, a, p)
      case Some(b) => CanDo(cfg, s.producers[p], b) && Step(cfg, s, a).producers[p] == Do(cfg, s.producers[p], b)
      case None => Step(cfg, s, a).producers[p] == s.producers[p]
  {
    hide Inv, CanDo, Do, Obtain, CanObtain, F.Step, F.Enabled, Freed;
    if a.Grant? {
      GrantIsTaken(cfg, s, a.thread, a.producer, a.completed);
    }
  }

  function ImplicitActions(cfg: M.Config, s: State, p: nat, schedule: seq<Action>): seq<M.Action>
    decreases |schedule|
  {
    if |schedule| == 0 || |s.producers| <= p then []
    else if !Enabled(cfg, s, schedule[0]) then ImplicitActions(cfg, s, p, schedule[1..])
    else
      var rest := ImplicitActions(cfg, Step(cfg, s, schedule[0]), p, schedule[1..]);
      match ActionOf(s, schedule[0], p)
      case Some(OfImplicit(a)) => [a] + rest
      case _ => rest
  }

  function ExplicitActions(cfg: M.Config, s: State, p: nat, schedule: seq<Action>): seq<E.Action>
    decreases |schedule|
  {
    if |schedule| == 0 || |s.producers| <= p then []
    else if !Enabled(cfg, s, schedule[0]) then ExplicitActions(cfg, s, p, schedule[1..])
    else
      var rest := ExplicitActions(cfg, Step(cfg, s, schedule[0]), p, schedule[1..]);
      match ActionOf(s, schedule[0], p)
      case Some(OfExplicit(a)) => [a] + rest
      case _ => rest
  }

  /** What the whole does to an implicit producer is a run of that producer alone. */
  lemma {:induction false} ImplicitRun(cfg: M.Config, s: State, p: nat, schedule: seq<Action>)
    requires Inv(s) && p < |s.producers| && s.producers[p].Implicit?
    ensures |Run(cfg, s, schedule).producers| == |s.producers|
    ensures Run(cfg, s, schedule).producers[p]
            == Implicit(MSafety.Run(cfg, s.producers[p].q, ImplicitActions(cfg, s, p, schedule)))
    decreases |schedule|
  {
    hide Inv, Enabled, Step, M.Enabled, M.Step, ActionOf;
    if |schedule| > 0 {
      var a := schedule[0];
      if Enabled(cfg, s, a) {
        ActionIsTaken(cfg, s, a, p);
        StepKeepsInv(cfg, s, a);
        var s' := Step(cfg, s, a);
        ImplicitRun(cfg, s', p, schedule[1..]);
        if ActionOf(s, a, p).Some? {
          var b, rest := ActionOf(s, a, p).value, ImplicitActions(cfg, s', p, schedule[1..]);
          assert ([b.a] + rest)[1..] == rest;
        }
      } else {
        ImplicitRun(cfg, s, p, schedule[1..]);
      }
    }
  }

  /** What the whole does to an explicit producer is a run of that producer alone. */
  lemma {:induction false} ExplicitRun(cfg: M.Config, s: State, p: nat, schedule: seq<Action>)
    requires Inv(s) && p < |s.producers| && s.producers[p].Explicit?
    ensures |Run(cfg, s, schedule).producers| == |s.producers|
    ensures Run(cfg, s, schedule).producers[p]
            == Explicit(ESafety.Run(cfg, s.producers[p].e, ExplicitActions(cfg, s, p, schedule)))
    decreases |schedule|
  {
    hide Inv, Enabled, Step, E.Enabled, E.Step, ActionOf;
    if |schedule| > 0 {
      var a := schedule[0];
      if Enabled(cfg, s, a) {
        ActionIsTaken(cfg, s, a, p);
        StepKeepsInv(cfg, s, a);
        var s' := Step(cfg, s, a);
        ExplicitRun(cfg, s', p, schedule[1..]);
        if ActionOf(s, a, p).Some? {
          var b, rest := ActionOf(s, a, p).value, ExplicitActions(cfg, s', p, schedule[1..]);
          assert ([b.b] + rest)[1..] == rest;
        }
      } else {
        ExplicitRun(cfg, s, p, schedule[1..]);
      }
    }
  }

  // The calls around each dequeue from producer p fit its words.
  ghost predicate CallsFit(cfg: M.Config, s: State, schedule: seq<Action>, p: nat)
    requires p < |s.producers|
  {
    match s.producers[p]
    case Implicit(q) => MWindow.CallsFit(cfg, q, ImplicitActions(cfg, s, p, schedule))
    case Explicit(e) => EWindow.CallsFit(cfg, e, ExplicitActions(cfg, s, p, schedule))
  }

  ghost predicate ProducerInv(cfg: M.Config, p: Producer) {
    match p
    case Implicit(q) => MInvariant.Inv(cfg, q)
    case Explicit(e) => EInvariant.Inv(cfg, e)
  }

  /** So each producer of a queue keeps its own invariant, whatever the others do with the blocks they share. */
  lemma EveryProducerKeepsInv(cfg: M.Config, s: State, schedule: seq<Action>, p: nat)
    requires Initial(cfg, s) && p < |s.producers| && CallsFit(cfg, s, schedule, p)
    ensures p < |Run(cfg, s, schedule).producers| && ProducerInv(cfg, Run(cfg, s, schedule).producers[p])
  {
    InitialInv(cfg, s);
    assert IsNew(cfg, s.producers[p]);
    hide Inv, MInvariant.Inv, EInvariant.Inv, MSafety.Initial, ESafety.Initial, MWindow.CallsFit, EWindow.CallsFit;
    match s.producers[p]
    case Implicit(q) =>
      ImplicitRun(cfg, s, p, schedule);
      MWindow.FittingRunKeepsInv(cfg, q, ImplicitActions(cfg, s, p, schedule));
    case Explicit(e) =>
      ExplicitRun(cfg, s, p, schedule);
      EWindow.FittingRunKeepsInv(cfg, e, ExplicitActions(cfg, s, p, schedule));
  }
}
