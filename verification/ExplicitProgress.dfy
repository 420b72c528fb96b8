/** An enqueue of an explicit producer ends after a bounded number of the producer's own steps, whatever the consumers do,
    and succeeds unless the size check or the allocator turns it down. */
module ExplicitProgress {
  import opened Common
  import opened Words
  import opened BlockMath
  import opened ExplicitProducer
  import opened ExplicitInvariant
  import opened ExplicitSafety
  import opened ExplicitWindow
  import A = ExplicitProducing
  import Claims = DequeueClaims
  import P = ImplicitProducer

  // ---- The steps that are left ----

  function Natural(x: int): nat { if x < 0 then 0 else x }

  // What a call that still obtains blocks has left when it comes to the room test: at most four steps for each element of
  // what is left of blockBaseDiff, one reset for each block obtained, and the elements.
  function Allocation(pc: ProducerPc): nat
    requires Allocating(pc)
  {
    4 * Natural(pc.left) + pc.staged + pc.count + 6
  }

  // An upper bound on the steps the producer has still to make before it is ready again.
  ghost function StepsLeft(pc: ProducerPc): nat {
    match pc
    case Ready => 0
    case Reuse(_, _, _, _, _) => Allocation(pc) + 1
    case Room(_, _, _, _, _) => Allocation(pc)
    case Grow(_, _, _, _, _) => Natural(Allocation(pc) - 1)
    case Requisition(_, _, _, _, _) => Natural(Allocation(pc) - 2)
    case Reset(count, _, staged, _, done) => Natural(staged - done) + count + 2
    case Show(count, _, _) => count + 2
    case Fill(count, _, done, _) => Natural(count - done) + 1
    case Publish(_, _) => 1
  }

  lemma PlaceFacts(cfg: P.Config, s: State)
    requires Inv(cfg, s)
    ensures Allocating(s.producer) ==> 0 < s.producer.left
    ensures s.producer.Reset? ==> s.producer.done < s.producer.staged
    ensures s.producer.Fill? ==> s.producer.done < s.producer.count
  {
    hide PlacesOk, Claims.Inv, ViewsOk, ReportedOk, RetiredOk, BlocksOk, HeadersOk, CircleOk;
  }

  lemma ObtainingAdvances(pc: ProducerPc, first: Option<nat>, n: nat)
    requires (pc.Reuse? || pc.Requisition?) && 0 < pc.left && 0 < n
    ensures StepsLeft(Obtained(pc, first, pc.staged + 1, pc.left - n)) < StepsLeft(pc)
  {}

  lemma ReuseAdvances(cfg: P.Config, s: State)
    requires Shaped(s) && s.producer.Reuse? && s.used <= |s.who| && 0 < s.producer.left
    ensures StepsLeft(DoReuse(cfg, s).producer) < StepsLeft(s.producer)
  {
    hide AddEntry, Obtained, IsEmpty, CanReuse;
    var pc := s.producer;
    if CanReuse(s) {
      ReuseHasBlock(s);
      var first := if pc.first.None? then Some(s.next[s.tailBlock.value]) else pc.first;
      ObtainingAdvances(pc, first, cfg.BlockSize());
    }
  }

  lemma ReuseHasBlock(s: State)
    requires s.producer.Reuse? && CanReuse(s)
    ensures s.tailBlock.Some? && s.tailBlock.value in s.next
  {}

  lemma RequisitionAdvances(cfg: P.Config, s: State, granted: Option<nat>)
    requires Shaped(s) && s.producer.Requisition? && s.used <= |s.who| && 0 < s.producer.left
    requires s.tailBlock.Some? ==> s.tailBlock.value in s.next
    ensures StepsLeft(DoRequisition(cfg, s, granted).producer) < StepsLeft(s.producer)
  {
    hide AddEntry, Obtained, Linked, All;
    var pc := s.producer;
    if granted.Some? {
      ObtainingAdvances(pc, if pc.first.None? then granted else pc.first, cfg.BlockSize());
    }
  }

  // A step that obtains no block.
  lemma OtherStepAdvances(cfg: P.Config, s: State, supply: Supply)
    requires CanProduce(cfg, s) && !s.producer.Ready? && !s.producer.Reuse? && !s.producer.Requisition?
    requires Allocating(s.producer) ==> 0 < s.producer.left
    requires s.producer.Reset? ==> s.producer.done < s.producer.staged
    requires s.producer.Fill? ==> s.producer.done < s.producer.count
    ensures StepsLeft(ProducerStep(cfg, s, supply).producer) < StepsLeft(s.producer)
  {
    hide Shaped, AddEntry, Doubled, P.IsFull, GrantedMemory, All;
  }

  /** Each step of the producer brings the call closer to its end. */
  lemma ProducerAdvances(cfg: P.Config, s: State, supply: Supply)
    requires Inv(cfg, s) && !s.producer.Ready?
    ensures CanProduce(cfg, s) && StepsLeft(ProducerStep(cfg, s, supply).producer) < StepsLeft(s.producer)
  {
    hide Inv, ProducerStep, StepsLeft, CanReuse;
    EveryStepIsDefined(cfg, s);
    PlaceFacts(cfg, s);
    if s.producer.Reuse? {
      ReuseAdvances(cfg, s);
      ObtainingStep(cfg, s, supply);
    } else if s.producer.Requisition? {
      RequisitionAdvances(cfg, s, GrantedBlock(cfg, s, supply));
      ObtainingStep(cfg, s, supply);
    } else {
      OtherStepAdvances(cfg, s, supply);
    }
  }

  lemma ObtainingStep(cfg: P.Config, s: State, supply: Supply)
    requires CanProduce(cfg, s)
    ensures s.producer.Reuse? ==> ProducerStep(cfg, s, supply) == DoReuse(cfg, s)
    ensures s.producer.Requisition? ==>
      ProducerStep(cfg, s, supply) == DoRequisition(cfg, s, GrantedBlock(cfg, s, supply))
  {
    hide Shaped, DoReuse, DoRequisition;
  }

  // ---- Success ----

  // A call for count elements that began at `tail` and has not been turned down.
  predicate Succeeding(tail: nat, count: nat, s: State) {
    if s.producer.Ready? then s.c.tail == tail + count else s.c.tail == tail && s.producer.count == count
  }

  // A call that began at `tail` and may have been turned down.
  predicate AllOrNothing(tail: nat, count: nat, s: State) {
    if s.producer.Ready? then s.c.tail == tail || s.c.tail == tail + count else Succeeding(tail, count, s)
  }

  lemma StartSucceeds(cfg: P.Config, s: State, count: nat)
    requires Inv(cfg, s) && Enabled(cfg, s, StartEnqueue(count))
    ensures Succeeding(s.c.tail, count, Step(cfg, s, StartEnqueue(count)))
  {
    StartPlace(cfg, s, count);
    hide Inv, P.BlockBaseDiff;
  }

  lemma ProducerKeepsSucceeding(cfg: P.Config, tail: nat, count: nat, s: State, supply: Supply)
    requires CanProduce(cfg, s) && !s.producer.Ready? && Succeeding(tail, count, s)
    ensures !Denied(cfg, s, supply) ==> Succeeding(tail, count, ProducerStep(cfg, s, supply))
    ensures AllOrNothing(tail, count, ProducerStep(cfg, s, supply))
  {
    hide P.IsFull, Doubled, Linked, CanReuse, GrantedBlock, GrantedMemory, Shaped;
  }

  lemma ConsumerKeepsTail(cfg: P.Config, s: State, a: Action)
    requires Enabled(cfg, s, a) && !a.Produce? && !a.StartEnqueue?
    ensures Step(cfg, s, a).producer == s.producer && Step(cfg, s, a).c.tail == s.c.tail
  {
    hide Shaped;
  }

  // ---- Runs ----

  // How many steps the producer takes in a run while it is in a call.
  ghost function StepsTaken(cfg: P.Config, s: State, schedule: seq<Action>): nat
    decreases |schedule|
  {
    if |schedule| == 0 then 0
    else
      var a := schedule[0];
      if Enabled(cfg, s, a) then
        (if a.Produce? && !s.producer.Ready? then 1 else 0) + StepsTaken(cfg, Step(cfg, s, a), schedule[1..])
      else StepsTaken(cfg, s, schedule[1..])
  }

  // How many turns the producer is given.
  function Turns(schedule: seq<Action>): nat {
    if |schedule| == 0 then 0 else (if schedule[0].Produce? then 1 else 0) + Turns(schedule[1..])
  }

  // No room test the producer meets is full, and whatever it asks for is granted.
  ghost predicate NeverDenied(cfg: P.Config, s: State, schedule: seq<Action>)
    decreases |schedule|
  {
    |schedule| > 0 ==>
      var a := schedule[0];
      && (a.Produce? && Shaped(s) && 1 <= cfg.w ==> !Denied(cfg, s, a.supply))
      && NeverDenied(cfg, if Enabled(cfg, s, a) then Step(cfg, s, a) else s, schedule[1..])
  }

  // A call in progress with `left` steps to go, or over.
  ghost predicate Nearing(tail: nat, count: nat, left: int, s: State) {
    AllOrNothing(tail, count, s) && (!s.producer.Ready? ==> StepsLeft(s.producer) <= left)
  }

  lemma StepKeepsNearing(cfg: P.Config, tail: nat, count: nat, left: nat, s: State, a: Action)
    requires Inv(cfg, s) && Enabled(cfg, s, a) && !a.StartEnqueue? && Nearing(tail, count, left, s)
    ensures Nearing(tail, count, if a.Produce? && !s.producer.Ready? then left - 1 else left, Step(cfg, s, a))
  {
    hide Inv, Enabled, StepsLeft, ProducerStep;
    if a.Produce? {
      if s.producer.Ready? {
        ReadyStays(cfg, s, a.supply);
      } else {
        ProducerAdvances(cfg, s, a.supply);
        ProducerKeepsSucceeding(cfg, tail, count, s, a.supply);
        ProduceIsStep(cfg, s, a.supply);
      }
    } else {
      ConsumerKeepsTail(cfg, s, a);
    }
  }

  lemma ReadyStays(cfg: P.Config, s: State, supply: Supply)
    requires Enabled(cfg, s, Produce(supply)) && s.producer.Ready?
    ensures Step(cfg, s, Produce(supply)) == s
  {
    hide Shaped;
  }

  lemma ProduceIsStep(cfg: P.Config, s: State, supply: Supply)
    requires Enabled(cfg, s, Produce(supply))
    ensures CanProduce(cfg, s) && Step(cfg, s, Produce(supply)) == ProducerStep(cfg, s, supply)
  {
    hide ProducerStep, Shaped;
  }

  lemma SomeStepLeft(pc: ProducerPc)
    requires !pc.Ready?
    ensures 1 <= StepsLeft(pc)
  {}

  lemma {:induction false} RunNears(cfg: P.Config, tail: nat, count: nat, left: int, s: State, schedule: seq<Action>)
    requires Inv(cfg, s) && RunInWindow(cfg, s, schedule) && Nearing(tail, count, left, s) && (s.producer.Ready? || 0 <= left)
    requires forall i :: 0 <= i < |schedule| ==> !schedule[i].StartEnqueue?
    ensures AllOrNothing(tail, count, Run(cfg, s, schedule))
    ensures left <= StepsTaken(cfg, s, schedule) ==> Run(cfg, s, schedule).producer.Ready?
    decreases |schedule|
  {
    hide Inv, Enabled, Step, StepsLeft, InWindow, AllOrNothing;
    if |schedule| == 0 {
      if !s.producer.Ready? {
        SomeStepLeft(s.producer);
      }
    } else {
      var a := schedule[0];
      if Enabled(cfg, s, a) {
        StepKeepsInv(cfg, s, a);
        if s.producer.Ready? {
          StepKeepsNearing(cfg, tail, count, 0, s, a);
          StaysReady(cfg, s, a);
          RunNears(cfg, tail, count, left, Step(cfg, s, a), schedule[1..]);
          RunStaysReady(cfg, Step(cfg, s, a), schedule[1..]);
        } else {
          StepKeepsNearing(cfg, tail, count, left, s, a);
          SomeStepLeft(s.producer);
          RunNears(cfg, tail, count, if a.Produce? then left - 1 else left, Step(cfg, s, a), schedule[1..]);
        }
      } else {
        RunNears(cfg, tail, count, left, s, schedule[1..]);
      }
    }
  }

  lemma StaysReady(cfg: P.Config, s: State, a: Action)
    requires Enabled(cfg, s, a) && !a.StartEnqueue? && s.producer.Ready?
    ensures Step(cfg, s, a).producer.Ready?
  {
    hide Shaped;
  }

  lemma {:induction false} RunStaysReady(cfg: P.Config, s: State, schedule: seq<Action>)
    requires s.producer.Ready? && forall i :: 0 <= i < |schedule| ==> !schedule[i].StartEnqueue?
    ensures Run(cfg, s, schedule).producer.Ready?
    decreases |schedule|
  {
    hide Enabled, Step;
    if |schedule| > 0 {
      if Enabled(cfg, s, schedule[0]) {
        StaysReady(cfg, s, schedule[0]);
        RunStaysReady(cfg, Step(cfg, s, schedule[0]), schedule[1..]);
      } else {
        RunStaysReady(cfg, s, schedule[1..]);
      }
    }
  }

  // What is not denied is enabled.
  lemma GrantedIsEnabled(cfg: P.Config, s: State, supply: Supply)
    requires Inv(cfg, s) && Shaped(s) && 1 <= cfg.w && !Denied(cfg, s, supply)
    ensures Enabled(cfg, s, Produce(supply))
  {
    EveryStepIsDefined(cfg, s);
    hide BlocksOk, CircleOk, ProducerOk, HeadersOk, ViewsOk, RetiredOk, ReportedOk, Claims.Inv, CanProduce, Shaped;
  }

  lemma {:induction false} GrantedRun(cfg: P.Config, tail: nat, count: nat, s: State, schedule: seq<Action>)
    requires Inv(cfg, s) && RunInWindow(cfg, s, schedule) && NeverDenied(cfg, s, schedule)
    requires forall i :: 0 <= i < |schedule| ==> !schedule[i].StartEnqueue?
    requires Succeeding(tail, count, s)
    ensures Succeeding(tail, count, Run(cfg, s, schedule))
    ensures StepsTaken(cfg, s, schedule) == Turns(schedule) || Run(cfg, s, schedule).producer.Ready?
    decreases |schedule|
  {
    hide Inv, Enabled, Step, InWindow, Succeeding, Denied, ProducerStep;
    if |schedule| > 0 {
      var a := schedule[0];
      ShapedHolds(cfg, s);
      if a.Produce? {
        GrantedIsEnabled(cfg, s, a.supply);
        ProduceIsStep(cfg, s, a.supply);
        if s.producer.Ready? {
          ReadyStays(cfg, s, a.supply);
          RunStaysReady(cfg, s, schedule[1..]);
        } else {
          ProducerKeepsSucceeding(cfg, tail, count, s, a.supply);
        }
      } else if Enabled(cfg, s, a) {
        ConsumerKeepsTail(cfg, s, a);
        SameSuccess(tail, count, s, Step(cfg, s, a));
      }
      if Enabled(cfg, s, a) {
        StepKeepsInv(cfg, s, a);
        GrantedRun(cfg, tail, count, Step(cfg, s, a), schedule[1..]);
      } else {
        GrantedRun(cfg, tail, count, s, schedule[1..]);
      }
    }
  }

  lemma SameSuccess(tail: nat, count: nat, s: State, s': State)
    requires Succeeding(tail, count, s) && s'.producer == s.producer && s'.c.tail == s.c.tail
    ensures Succeeding(tail, count, s')
  {}

  // ---- Calls in the middle of a run ----

  lemma {:induction false} RunSplits(cfg: P.Config, s: State, before: seq<Action>, after: seq<Action>)
    requires RunInWindow(cfg, s, before + after)
    ensures RunInWindow(cfg, s, before) && RunInWindow(cfg, Run(cfg, s, before), after)
    decreases |before|
  {
    hide Enabled, Step, InWindow;
    if |before| == 0 {
      assert before + after == after;
    } else {
      assert (before + after)[1..] == before[1..] + after;
      RunSplits(cfg, if Enabled(cfg, s, before[0]) then Step(cfg, s, before[0]) else s, before[1..], after);
    }
  }

  // A call to enqueue count elements is made after the steps `before` of a fitting run, which goes on with `after`.
  ghost predicate Calls(cfg: P.Config, s: State, before: seq<Action>, count: nat, after: seq<Action>) {
    && Initial(cfg, s) && CallsFit(cfg, s, before + ([StartEnqueue(count)] + after))
    && Enabled(cfg, Run(cfg, s, before), StartEnqueue(count))
    && forall i :: 0 <= i < |after| ==> !after[i].StartEnqueue?
  }

  lemma CallIsInWindow(cfg: P.Config, s: State, before: seq<Action>, count: nat, after: seq<Action>)
    requires Calls(cfg, s, before, count, after)
    ensures var called := Run(cfg, s, before);
      Inv(cfg, called) && RunInWindow(cfg, Step(cfg, called, StartEnqueue(count)), after)
      && Inv(cfg, Step(cfg, called, StartEnqueue(count)))
  {
    hide Inv, Initial, CallsFit, Step;
    var call := [StartEnqueue(count)];
    FittingRunKeepsInv(cfg, s, before + (call + after));
    RunSplits(cfg, s, before, call + after);
    InitialInv(cfg, s);
    RunKeepsInv(cfg, s, before);
    assert (call + after)[1..] == after;
    StepKeepsInv(cfg, Run(cfg, s, before), StartEnqueue(count));
  }

  /** Wherever in a fitting run it is made, a call to enqueue count elements ends once its thread has taken StepsLeft steps,
      whatever the consumers do meanwhile, with all of them published or none. */
  lemma EveryCallEnds(cfg: P.Config, s: State, before: seq<Action>, count: nat, after: seq<Action>)
    requires Calls(cfg, s, before, count, after)
    ensures var called := Run(cfg, s, before);
      var begun := Step(cfg, called, StartEnqueue(count));
      var end := Run(cfg, begun, after);
      && AllOrNothing(called.c.tail, count, end)
      && (StepsLeft(begun.producer) <= StepsTaken(cfg, begun, after) ==> end.producer.Ready?)
  {
    hide Inv, Step, StepsLeft, AllOrNothing, StepsTaken;
    CallIsInWindow(cfg, s, before, count, after);
    var called := Run(cfg, s, before);
    var begun := Step(cfg, called, StartEnqueue(count));
    StartSucceeds(cfg, called, count);
    SuccessIsAll(called.c.tail, count, begun);
    RunNears(cfg, called.c.tail, count, StepsLeft(begun.producer), begun, after);
  }

  lemma SuccessIsAll(tail: nat, count: nat, s: State)
    requires Succeeding(tail, count, s)
    ensures AllOrNothing(tail, count, s)
  {}

  /** And if no room test it meets is full and whatever it asks for is granted, that many turns are enough, and all of its
      elements have been published then. */
  lemma EveryGrantedCallSucceeds(cfg: P.Config, s: State, before: seq<Action>, count: nat, after: seq<Action>)
    requires Calls(cfg, s, before, count, after)
    requires NeverDenied(cfg, Step(cfg, Run(cfg, s, before), StartEnqueue(count)), after)
    ensures var called := Run(cfg, s, before);
      var begun := Step(cfg, called, StartEnqueue(count));
      var end := Run(cfg, begun, after);
      StepsLeft(begun.producer) <= Turns(after) ==> end.producer.Ready? && end.c.tail == called.c.tail + count
  {
    hide Inv, Step, StepsLeft, NeverDenied, StepsTaken;
    CallIsInWindow(cfg, s, before, count, after);
    var called := Run(cfg, s, before);
    var begun := Step(cfg, called, StartEnqueue(count));
    StartSucceeds(cfg, called, count);
    EveryCallEnds(cfg, s, before, count, after);
    GrantedRun(cfg, called.c.tail, count, begun, after);
  }
}
