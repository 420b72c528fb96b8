/** A dequeue from an implicit producer is over after a bounded number of its thread's own steps, whatever the producer and
    the other consumers do. */
module ImplicitDequeues {
  import opened Common
  import opened Words
  import opened ImplicitProducer
  import opened ImplicitInvariant
  import opened ImplicitSafety
  import Window = ImplicitWindow
  import Claims = DequeueClaims
  import Idx = ImplicitIndex

  function Natural(x: int): nat { if x < 0 then 0 else x }

  // The steps a consumer with a claim has left: at most five for each element, of which four come with its block.
  function ConsumerLeft(pc: ConsumerPc): nat {
    match pc
    case NoClaim => 0
    case Finished => 0
    case LoadIndex(i, stop) => 5 * Natural(stop - i) + 4
    case LoadTail(i, stop, _) => 5 * Natural(stop - i) + 3
    case LoadKey(i, stop, _, _) => 5 * Natural(stop - i) + 2
    case LoadValue(i, stop, _, _) => 5 * Natural(stop - i) + 1
    case Take(i, _, stop, _, _, _) => 5 * Natural(stop - i)
    case Complete(i, _, stop, _, _, _) => 5 * Natural(stop - i) + 4
    case ClearEntry(i, stop, _, _, _) => 5 * Natural(stop - i) + 3
    case FreeBlock(i, stop, _, _, _) => 5 * Natural(stop - i) + 2
  }

  // The steps thread t has left before its dequeue is over.
  function DequeueLeft(s: State, t: nat): nat
    requires t < |s.c.pcs| && t < |s.consumers|
  {
    if s.c.pcs[t].Idle? then 0
    else if s.c.pcs[t].Claimed? then ConsumerLeft(s.consumers[t]) + 1
    else Claims.Left(s.c.pcs[t]) + 5 * Claims.Asks(s.c.pcs[t]) + 5
  }

  // Its next step.
  function Next(s: State, t: nat): Action
    requires t < |s.c.pcs| && t < |s.consumers|
  {
    if !s.c.pcs[t].Claimed? then Claim(t) else if s.consumers[t].Finished? then Finish(t) else Consume(t)
  }

  predicate IsOwn(a: Action, t: nat) {
    !a.StartEnqueue? && !a.Produce? && a.thread == t
  }

  lemma ConsumerStands(cfg: Config, s: State, t: nat)
    requires Inv(cfg, s) && t < |s.consumers|
    ensures t < |s.c.pcs| && |s.c.pcs| == |s.consumers| && 1 <= cfg.w
    ensures PlaceOk(cfg, s.c.head, s.consumers[t], s.c.pcs[t])
    ensures Claims.Enabled(s.c, Claims.Advance(t))
  {
    hide CellsOk, CountsOk, ReadsOk, ViewsOk, KeysUpToTail, TailBlockOk, HomeOk, RoomOk, ShownOk, IndexOk, FillOk, PlaceOk;
    Claims.AdvanceIsEnabled(s.c, Claims.Advance(t));
  }

  lemma ConsumingAdvances(cfg: Config, s: State, t: nat)
    requires t < |s.consumers| && CanConsume(cfg, s, s.consumers[t]) && |s.consumers| == |s.c.pcs|
    requires !s.consumers[t].NoClaim? && !s.consumers[t].Finished?
    requires s.consumers[t].Take? ==> s.consumers[t].i < s.consumers[t].stop
    ensures ConsumerLeft(DoConsume(cfg, s, t).consumers[t]) < ConsumerLeft(s.consumers[t])
    ensures DoConsume(cfg, s, t).c == s.c
  {
    hide LookUp, EndInBlock, Capacity, Idx.WellFormed, Idx.StoreValue;
  }

  // What a step of the thread's own is.
  lemma OwnStepIs(cfg: Config, s: State, t: nat)
    requires t < |s.consumers| && |s.consumers| == |s.c.pcs| && 1 <= cfg.w
    requires CanConsume(cfg, s, s.consumers[t]) && Claims.Enabled(s.c, Claims.Advance(t))
    requires s.consumers[t].NoClaim? <==> !s.c.pcs[t].Claimed?
    ensures Enabled(cfg, s, Next(s, t))
    ensures !s.c.pcs[t].Claimed? ==> Step(cfg, s, Next(s, t)) == DoClaim(cfg, s, t)
    ensures s.c.pcs[t].Claimed? && !s.consumers[t].Finished? ==> Step(cfg, s, Next(s, t)) == DoConsume(cfg, s, t)
    ensures s.consumers[t].Finished? ==>
      var s' := Step(cfg, s, Next(s, t)); t < |s'.c.pcs| && t < |s'.consumers| && s'.c.pcs[t].Idle?
  {
    hide CanConsume, DoConsume, DoClaim;
  }

  lemma ConsumingKeepsThreads(cfg: Config, s: State, t: nat)
    requires t < |s.consumers| && CanConsume(cfg, s, s.consumers[t])
    ensures |DoConsume(cfg, s, t).consumers| == |s.consumers|
  {
    hide ConsumerStep;
  }

  lemma StillLeft(s: State, s': State, t: nat)
    requires t < |s.c.pcs| && t < |s.consumers| && t < |s'.consumers| && s'.c == s.c && s.c.pcs[t].Claimed?
    requires ConsumerLeft(s'.consumers[t]) < ConsumerLeft(s.consumers[t])
    ensures DequeueLeft(s', t) < DequeueLeft(s, t)
  {
    hide ConsumerLeft;
  }

  /** A thread in a dequeue always has a next step, and it brings the dequeue closer to its end. */
  lemma DequeueAdvances(cfg: Config, s: State, t: nat)
    requires Inv(cfg, s) && t < |s.consumers| && t < |s.c.pcs| && !s.c.pcs[t].Idle?
    ensures Enabled(cfg, s, Next(s, t))
    ensures var s' := Step(cfg, s, Next(s, t));
      t < |s'.c.pcs| && t < |s'.consumers| && DequeueLeft(s', t) < DequeueLeft(s, t)
  {
    hide Inv, CanConsume, CanProduce, ConsumerLeft, Step, DoConsume, DoClaim, Claims.Step, Claims.Left, Claims.Asks;
    ConsumerStands(cfg, s, t);
    EveryStepIsDefined(cfg, s);
    OwnStepIs(cfg, s, t);
    if !s.c.pcs[t].Claimed? {
      Claims.AccessesAreBounded(cfg.w, s.c, t);
      ClaimBegins(cfg, s, t);
    } else if !s.consumers[t].Finished? {
      ConsumingAdvances(cfg, s, t);
      ConsumingKeepsThreads(cfg, s, t);
      StillLeft(s, DoConsume(cfg, s, t), t);
    }
  }

  lemma ClaimBegins(cfg: Config, s: State, t: nat)
    requires 1 <= cfg.w && Claims.Enabled(s.c, Claims.Advance(t)) && t < |s.consumers| && |s.consumers| == |s.c.pcs|
    requires !s.c.pcs[t].Claimed? && !s.c.pcs[t].Idle?
    requires var pc' := Claims.Step(cfg.w, s.c, Claims.Advance(t)).pcs[t];
      Claims.Left(pc') < Claims.Left(s.c.pcs[t]) && Claims.Asks(pc') <= Claims.Asks(s.c.pcs[t])
    ensures var s' := DoClaim(cfg, s, t);
      t < |s'.c.pcs| && t < |s'.consumers| && DequeueLeft(s', t) < DequeueLeft(s, t)
  {
    hide Claims.Perform;
    var c' := Claims.Step(cfg.w, s.c, Claims.Advance(t));
    assert c'.pcs[t].Claimed? ==> Claims.Left(c'.pcs[t]) == 1;
  }

  lemma ProducerKeepsConsumers(cfg: Config, s: State, supply: Supply)
    requires CanProduce(cfg, s)
    ensures ProducerStep(cfg, s, supply).consumers == s.consumers && ProducerStep(cfg, s, supply).c.pcs == s.c.pcs
  {
    hide BeginFill, IsFull, FoundPosition, TailEntry, GrantedMemory, GrantedBlock, Undo, Raw, Idx.WellFormed;
  }

  lemma ConsumerKeepsClaims(cfg: Config, s: State, pc: ConsumerPc)
    requires CanConsume(cfg, s, pc)
    ensures ConsumerStep(cfg, s, pc).0.c == s.c
  {
    hide LookUp, EndInBlock, Onward, Capacity, Idx.WellFormed;
  }

  /** No step of anyone else sets it back. */
  lemma OthersDoNotDelay(cfg: Config, s: State, t: nat, a: Action)
    requires Enabled(cfg, s, a) && t < |s.consumers| && t < |s.c.pcs| && !IsOwn(a, t)
    ensures var s' := Step(cfg, s, a);
      t < |s'.c.pcs| && t < |s'.consumers| && s'.c.pcs[t] == s.c.pcs[t] && s'.consumers[t] == s.consumers[t]
  {
    hide ProducerStep, ConsumerStep, CanProduce, CanConsume, BeginFill, Claims.Perform;
    if a.Produce? {
      ProducerKeepsConsumers(cfg, s, a.supply);
    } else if a.Consume? {
      ConsumerKeepsClaims(cfg, s, s.consumers[a.thread]);
    }
  }

  // How many steps of its dequeue thread t takes in a run.
  ghost function OwnSteps(cfg: Config, s: State, t: nat, schedule: seq<Action>): nat
    decreases |schedule|
  {
    if |schedule| == 0 then 0
    else
      var a := schedule[0];
      if Enabled(cfg, s, a) then
        (if t < |s.c.pcs| && t < |s.consumers| && !s.c.pcs[t].Idle? && a == Next(s, t) then 1 else 0)
        + OwnSteps(cfg, Step(cfg, s, a), t, schedule[1..])
      else OwnSteps(cfg, s, t, schedule[1..])
  }

  lemma NothingToConsume(cfg: Config, s: State, t: nat)
    requires t < |s.consumers| && CanConsume(cfg, s, s.consumers[t])
    requires s.consumers[t].NoClaim? || s.consumers[t].Finished?
    ensures DoConsume(cfg, s, t) == s
  {
    assert s.consumers[t := s.consumers[t]] == s.consumers;
  }

  lemma NoClaimUnlessClaimed(cfg: Config, s: State, t: nat)
    requires Inv(cfg, s) && t < |s.consumers|
    ensures t < |s.c.pcs| && (s.consumers[t].NoClaim? <==> !s.c.pcs[t].Claimed?)
  {
    ConsumerStands(cfg, s, t);
  }

  // The thread's own actions that are enabled in a dequeue are its next step, and nothing else.
  lemma OwnIsNext(cfg: Config, s: State, t: nat, a: Action)
    requires Inv(cfg, s) && t < |s.consumers| && t < |s.c.pcs| && Enabled(cfg, s, a) && IsOwn(a, t) && !s.c.pcs[t].Idle?
    ensures a == Next(s, t) || Step(cfg, s, a) == s
  {
    hide Inv, CanConsume, CanProduce, DoConsume, DoClaim, Claims.Step;
    NoClaimUnlessClaimed(cfg, s, t);
    if a.Consume? && (s.consumers[t].NoClaim? || s.consumers[t].Finished?) {
      NothingToConsume(cfg, s, t);
    }
  }

  lemma IdleClaim(cfg: Config, s: State, t: nat)
    requires 1 <= cfg.w && Claims.Enabled(s.c, Claims.Advance(t)) && t < |s.consumers| && s.c.pcs[t].Idle?
    ensures DoClaim(cfg, s, t) == s
  {
    assert s.c.pcs[t := s.c.pcs[t]] == s.c.pcs;
  }

  lemma IdleStays(cfg: Config, s: State, t: nat, a: Action)
    requires Inv(cfg, s) && t < |s.consumers| && t < |s.c.pcs| && Enabled(cfg, s, a)
    requires s.c.pcs[t].Idle? && !(a.StartDequeue? && a.thread == t)
    ensures var s' := Step(cfg, s, a); t < |s'.c.pcs| && t < |s'.consumers| && s'.c.pcs[t].Idle?
  {
    hide Inv, CanConsume, CanProduce, DoConsume, DoClaim, Claims.Step;
    if IsOwn(a, t) {
      NoClaimUnlessClaimed(cfg, s, t);
      if a.Consume? {
        NothingToConsume(cfg, s, t);
      } else if a.Claim? {
        IdleClaim(cfg, s, t);
      }
    } else {
      OthersDoNotDelay(cfg, s, t, a);
    }
  }

  lemma {:induction false} DequeueEnds(cfg: Config, s: State, t: nat, schedule: seq<Action>)
    requires Inv(cfg, s) && RunInWindow(cfg, s, schedule) && t < |s.consumers| && t < |s.c.pcs|
    requires forall a :: a in schedule ==> !(a.StartDequeue? && a.thread == t)
    ensures var end := Run(cfg, s, schedule);
      t < |end.c.pcs| && (s.c.pcs[t].Idle? || DequeueLeft(s, t) <= OwnSteps(cfg, s, t, schedule) ==> end.c.pcs[t].Idle?)
    decreases |schedule|
  {
    hide Inv, Enabled, Step, InWindow, ConsumerLeft;
    if |schedule| > 0 {
      var a := schedule[0];
      if Enabled(cfg, s, a) {
        StepKeepsInv(cfg, s, a);
        if s.c.pcs[t].Idle? {
          IdleStays(cfg, s, t, a);
        } else if a == Next(s, t) {
          DequeueAdvances(cfg, s, t);
        } else {
          if IsOwn(a, t) {
            OwnIsNext(cfg, s, t, a);
          } else {
            OthersDoNotDelay(cfg, s, t, a);
          }
        }
        DequeueEnds(cfg, Step(cfg, s, a), t, schedule[1..]);
      } else {
        DequeueEnds(cfg, s, t, schedule[1..]);
      }
    }
  }

  /** Wherever in a fitting run thread t stands in a dequeue, single or bulk: once it has taken DequeueLeft steps of its own
      it is over, whatever the producer, the allocators and the other consumers do meanwhile. */
  lemma EveryDequeueEnds(cfg: Config, s: State, t: nat, before: seq<Action>, after: seq<Action>)
    requires Initial(cfg, s) && Window.CallsFit(cfg, s, before + after) && t < |s.consumers|
    requires forall a :: a in after ==> !(a.StartDequeue? && a.thread == t)
    ensures var here := Run(cfg, s, before);
      && t < |here.c.pcs| && t < |here.consumers| && t < |Run(cfg, here, after).c.pcs|
      && (DequeueLeft(here, t) <= OwnSteps(cfg, here, t, after) ==> Run(cfg, here, after).c.pcs[t].Idle?)
  {
    hide Inv, Initial, Window.CallsFit, Step, Enabled, DequeueLeft, OwnSteps;
    Window.FittingRunKeepsInv(cfg, s, before + after);
    Window.RunSplits(cfg, s, before, after);
    InitialInv(cfg, s);
    RunKeepsInv(cfg, s, before);
    SameThreads(cfg, s, before);
    var here := Run(cfg, s, before);
    ConsumerStands(cfg, here, t);
    DequeueEnds(cfg, here, t, after);
  }

  lemma {:induction false} SameThreads(cfg: Config, s: State, schedule: seq<Action>)
    ensures |Run(cfg, s, schedule).consumers| == |s.consumers|
    decreases |schedule|
  {
    hide Step, Enabled;
    if |schedule| > 0 {
      if Enabled(cfg, s, schedule[0]) {
        OneStepThreads(cfg, s, schedule[0]);
        SameThreads(cfg, Step(cfg, s, schedule[0]), schedule[1..]);
      } else {
        SameThreads(cfg, s, schedule[1..]);
      }
    }
  }

  lemma OneStepThreads(cfg: Config, s: State, a: Action)
    requires Enabled(cfg, s, a)
    ensures |Step(cfg, s, a).consumers| == |s.consumers|
  {
    hide ProducerStep, ConsumerStep, CanProduce, CanConsume, BeginFill, Claims.Step;
    if a.Produce? {
      ProducerKeepsConsumers(cfg, s, a.supply);
    }
  }
}
