/** Calls to enqueue given elements, in runs of the explicit producer with its elements: a call that is granted what it
    asks for appends exactly its elements, and no call appends only some of them. */
module ExplicitCalls {
  import opened Common
  import opened Words
  import opened ExplicitElements
  import M = ExplicitProducer
  import P = ImplicitProducer
  import V = ExplicitInvariant
  import S = ExplicitSafety
  import G = ExplicitProgress
  import Window = ExplicitWindow

  // How many turns the producer is given.
  function Turns(schedule: seq<Action>): nat {
    if |schedule| == 0 then 0
    else (if schedule[0].Machine? && schedule[0].a.Produce? then 1 else 0) + Turns(schedule[1..])
  }

  // No room test the producer meets is full, and whatever it asks for is granted.
  ghost predicate NeverDenied(cfg: P.Config, s: State, schedule: seq<Action>)
    decreases |schedule|
  {
    |schedule| > 0 ==>
      var a := schedule[0];
      && (a.Machine? && a.a.Produce? && M.Shaped(s.m) && 1 <= cfg.w ==> !S.Denied(cfg, s.m, a.a.supply))
      && NeverDenied(cfg, if Enabled(cfg, s, a) then Step(cfg, s, a) else s, schedule[1..])
  }

  // The elements of the call are not there, or all of them are.
  predicate AllOrNothing(items: seq<Element>, xs: seq<Element>, s: State) {
    || (s.items == items && (!s.m.producer.Ready? ==> s.batch == xs))
    || (s.items == items + xs && s.m.producer.Ready?)
  }

  lemma StepKeepsAllOrNothing(cfg: P.Config, items: seq<Element>, xs: seq<Element>, s: State, a: Action)
    requires Enabled(cfg, s, a) && !a.Enqueue? && AllOrNothing(items, xs, s)
    ensures AllOrNothing(items, xs, Step(cfg, s, a))
  {
    hide M.Shaped, M.GrantedBlock, M.GrantedMemory, P.IsFull, M.DoReuse, M.DoRoom, M.DoGrow, M.DoRequisition, M.DoReset;
    hide M.DoShow, M.DoFill, M.CanConsume, M.DoConsume, M.DoClaim;
    if a.Machine? && !a.a.Produce? {
      G.ConsumerKeepsTail(cfg, s.m, a.a);
    }
  }

  lemma {:induction false} RunIsAllOrNothing(cfg: P.Config, items: seq<Element>, xs: seq<Element>, s: State,
                                             schedule: seq<Action>)
    requires AllOrNothing(items, xs, s) && forall i :: 0 <= i < |schedule| ==> !schedule[i].Enqueue?
    ensures AllOrNothing(items, xs, Run(cfg, s, schedule))
    decreases |schedule|
  {
    hide Enabled, Step, AllOrNothing;
    if |schedule| > 0 {
      if Enabled(cfg, s, schedule[0]) {
        StepKeepsAllOrNothing(cfg, items, xs, s, schedule[0]);
        RunIsAllOrNothing(cfg, items, xs, Step(cfg, s, schedule[0]), schedule[1..]);
      } else {
        RunIsAllOrNothing(cfg, items, xs, s, schedule[1..]);
      }
    }
  }

  // ---- The run of the machine inside ----

  function MachineAction(a: Action): seq<M.Action> {
    match a case Enqueue(xs) => [M.StartEnqueue(|xs|)] case Machine(b) => [b] case Take(_) => []
  }

  lemma OneMachineAction(cfg: P.Config, s: State, schedule: seq<Action>)
    requires |schedule| > 0
    ensures MachineActions(cfg, s, schedule) ==
      if Enabled(cfg, s, schedule[0]) then
        MachineAction(schedule[0]) + MachineActions(cfg, Step(cfg, s, schedule[0]), schedule[1..])
      else MachineActions(cfg, s, schedule[1..])
  {
    hide Enabled, Step;
  }

  lemma {:induction false} RunOfMachine(cfg: P.Config, s: State, schedule: seq<Action>)
    ensures Run(cfg, s, schedule).m == S.Run(cfg, s.m, MachineActions(cfg, s, schedule))
    decreases |schedule|
  {
    hide Enabled, Step, M.Enabled, M.Step, MachineActions;
    if |schedule| == 0 {
      assert MachineActions(cfg, s, schedule) == [] by { NoActions(cfg, s); }
    } else {
      OneMachineAction(cfg, s, schedule);
      var a := schedule[0];
      if Enabled(cfg, s, a) {
        MachineStep(cfg, s, a);
        RunOfMachine(cfg, Step(cfg, s, a), schedule[1..]);
        var rest := MachineActions(cfg, Step(cfg, s, a), schedule[1..]);
        Prepended(MachineAction(a), rest);
      } else {
        RunOfMachine(cfg, s, schedule[1..]);
      }
    }
  }

  lemma NoActions(cfg: P.Config, s: State)
    ensures MachineActions(cfg, s, []) == []
  {}

  lemma Prepended<T>(first: seq<T>, rest: seq<T>)
    requires |first| <= 1
    ensures first == [] ==> first + rest == rest
    ensures |first| == 1 ==> (first + rest)[0] == first[0] && (first + rest)[1..] == rest
  {}

  lemma {:induction false} ActionsSplit(cfg: P.Config, s: State, before: seq<Action>, after: seq<Action>)
    ensures MachineActions(cfg, s, before + after)
            == MachineActions(cfg, s, before) + MachineActions(cfg, Run(cfg, s, before), after)
    decreases |before|
  {
    hide Enabled, Step, MachineActions;
    if |before| == 0 {
      assert before + after == after;
      assert before == [];
      NoActions(cfg, s);
      assert [] + MachineActions(cfg, s, after) == MachineActions(cfg, s, after);
    } else {
      assert (before + after)[0] == before[0] && (before + after)[1..] == before[1..] + after;
      OneMachineAction(cfg, s, before);
      OneMachineAction(cfg, s, before + after);
      if Enabled(cfg, s, before[0]) {
        ActionsSplit(cfg, Step(cfg, s, before[0]), before[1..], after);
      } else {
        ActionsSplit(cfg, s, before[1..], after);
      }
    }
  }

  lemma {:induction false} NoMoreStarts(cfg: P.Config, s: State, schedule: seq<Action>)
    requires forall i :: 0 <= i < |schedule| ==> !schedule[i].Enqueue?
    ensures var actions := MachineActions(cfg, s, schedule);
      forall i :: 0 <= i < |actions| ==> !actions[i].StartEnqueue?
    decreases |schedule|
  {
    hide Step, MachineActions;
    if |schedule| == 0 {
      NoActions(cfg, s);
      assert schedule == [];
    } else {
      OneMachineAction(cfg, s, schedule);
      if Enabled(cfg, s, schedule[0]) {
        NoMoreStarts(cfg, Step(cfg, s, schedule[0]), schedule[1..]);
      } else {
        NoMoreStarts(cfg, s, schedule[1..]);
      }
    }
  }

  // What is not denied is enabled, here too.
  lemma GrantedIsEnabled(cfg: P.Config, s: State, supply: M.Supply)
    requires Inv(cfg, s) && M.Shaped(s.m) && 1 <= cfg.w && !S.Denied(cfg, s.m, supply)
    ensures Enabled(cfg, s, Machine(M.Produce(supply)))
  {
    InvOfMachine(cfg, s);
    EveryStepIsDefined(cfg, s);
    G.GrantedIsEnabled(cfg, s.m, supply);
    hide Inv, M.Enabled, CanConstruct;
  }

  // In a run in which nothing is denied the machine inside gets the same turns, and nothing is denied to it.
  lemma {:induction false} SameTurns(cfg: P.Config, s: State, schedule: seq<Action>)
    requires Inv(cfg, s) && 1 <= cfg.w && S.RunInWindow(cfg, s.m, MachineActions(cfg, s, schedule))
    requires NeverDenied(cfg, s, schedule)
    ensures G.Turns(MachineActions(cfg, s, schedule)) == Turns(schedule)
    ensures G.NeverDenied(cfg, s.m, MachineActions(cfg, s, schedule))
    decreases |schedule|
  {
    hide Inv, Enabled, Step, M.Enabled, M.Step, S.InWindow, S.Denied, MachineActions;
    if |schedule| == 0 {
      assert schedule == [];
      NoActions(cfg, s);
    } else {
      OneMachineAction(cfg, s, schedule);
      InvOfMachine(cfg, s);
      V.ShapedHolds(cfg, s.m);
      var a := schedule[0];
      if a.Machine? && a.a.Produce? {
        GrantedIsEnabled(cfg, s, a.a.supply);
      }
      if Enabled(cfg, s, a) {
        MachineStep(cfg, s, a);
        var rest := MachineActions(cfg, Step(cfg, s, a), schedule[1..]);
        Prepended(MachineAction(a), rest);
        StepKeepsInv(cfg, s, a);
        SameTurns(cfg, Step(cfg, s, a), schedule[1..]);
      } else {
        SameTurns(cfg, s, schedule[1..]);
      }
    }
  }

  // ---- Calls in the middle of a run ----

  // A call to enqueue xs is made after the steps `before` of a fitting run, which goes on with `after`.
  ghost predicate Calls(cfg: P.Config, s: State, before: seq<Action>, xs: seq<Element>, after: seq<Action>) {
    && Initial(cfg, s) && Window.CallsFit(cfg, s.m, MachineActions(cfg, s, before + ([Enqueue(xs)] + after)))
    && Enabled(cfg, Run(cfg, s, before), Enqueue(xs))
    && forall i :: 0 <= i < |after| ==> !after[i].Enqueue?
  }

  lemma CallOfMachine(cfg: P.Config, s: State, before: seq<Action>, xs: seq<Element>, after: seq<Action>)
    requires Calls(cfg, s, before, xs, after)
    ensures var called := Run(cfg, s, before);
      var begun := Step(cfg, called, Enqueue(xs));
      && G.Calls(cfg, s.m, MachineActions(cfg, s, before), |xs|, MachineActions(cfg, begun, after))
      && called.m == S.Run(cfg, s.m, MachineActions(cfg, s, before))
      && begun.m == M.Step(cfg, called.m, M.StartEnqueue(|xs|))
  {
    hide Inv, Window.CallsFit, M.Step, M.Enabled, MachineActions, S.Initial;
    var called := Run(cfg, s, before);
    var call := [Enqueue(xs)];
    RunOfMachine(cfg, s, before);
    ActionsSplit(cfg, s, before, call + after);
    OneMachineAction(cfg, called, call + after);
    assert (call + after)[0] == Enqueue(xs) && (call + after)[1..] == after;
    MachineStep(cfg, called, Enqueue(xs));
    NoMoreStarts(cfg, Step(cfg, called, Enqueue(xs)), after);
  }

  /** Wherever in a fitting run it is made, a call to enqueue xs appends all of xs or nothing, and ends once its thread has
      taken StepsLeft steps, whatever the consumers do meanwhile. */
  lemma EveryCallIsAllOrNothing(cfg: P.Config, s: State, before: seq<Action>, xs: seq<Element>, after: seq<Action>)
    requires Calls(cfg, s, before, xs, after)
    ensures var called := Run(cfg, s, before);
      var begun := Step(cfg, called, Enqueue(xs));
      var end := Run(cfg, begun, after);
      && (end.items == called.items || (end.items == called.items + xs && end.m.producer.Ready?))
      && (G.StepsLeft(begun.m.producer) <= G.StepsTaken(cfg, begun.m, MachineActions(cfg, begun, after)) ==>
            end.m.producer.Ready?)
  {
    var called := Run(cfg, s, before);
    var begun := Step(cfg, called, Enqueue(xs));
    CallBegins(cfg, called, xs);
    RunIsAllOrNothing(cfg, called.items, xs, begun, after);
    CallOfMachine(cfg, s, before, xs, after);
    RunOfMachine(cfg, begun, after);
    hide Calls, Step, Run, M.Step, G.StepsLeft, G.StepsTaken, MachineActions, G.Calls, S.Run;
    G.EveryCallEnds(cfg, s.m, MachineActions(cfg, s, before), |xs|, MachineActions(cfg, begun, after));
  }

  lemma CallBegins(cfg: P.Config, s: State, xs: seq<Element>)
    requires Enabled(cfg, s, Enqueue(xs))
    ensures AllOrNothing(s.items, xs, Step(cfg, s, Enqueue(xs))) && Step(cfg, s, Enqueue(xs)).items == s.items
  {
    hide M.Step, M.Enabled;
  }

  /** And if no room test it meets is full and whatever it asks for is granted, all of xs has been appended then. */
  lemma EveryGrantedCallSucceeds(cfg: P.Config, s: State, before: seq<Action>, xs: seq<Element>, after: seq<Action>)
    requires Calls(cfg, s, before, xs, after)
    requires NeverDenied(cfg, Step(cfg, Run(cfg, s, before), Enqueue(xs)), after)
    ensures var called := Run(cfg, s, before);
      var begun := Step(cfg, called, Enqueue(xs));
      var end := Run(cfg, begun, after);
      G.StepsLeft(begun.m.producer) <= Turns(after) ==> end.m.producer.Ready? && end.items == called.items + xs
  {
    hide Initial, Window.CallsFit, Enabled, Step, Run, M.Step, M.Enabled, G.StepsLeft, G.StepsTaken, MachineActions;
    hide G.Calls, S.Run, Inv, NeverDenied, G.NeverDenied, S.RunInWindow;
    var called := Run(cfg, s, before);
    var begun := Step(cfg, called, Enqueue(xs));
    var end := Run(cfg, begun, after);
    CallOfMachine(cfg, s, before, xs, after);
    EveryCallIsAllOrNothing(cfg, s, before, xs, after);
    CallInvs(cfg, s, before, xs, after);
    SameTurns(cfg, begun, after);
    RunOfMachine(cfg, begun, after);
    CallBegins(cfg, called, xs);
    G.EveryGrantedCallSucceeds(cfg, s.m, MachineActions(cfg, s, before), |xs|, MachineActions(cfg, begun, after));
    ItemsOfTail(cfg, called);
    ItemsOfTail(cfg, end);
    assert xs == [] ==> called.items + xs == called.items;
  }

  lemma ItemsOfTail(cfg: P.Config, s: State)
    requires Inv(cfg, s)
    ensures |s.items| == s.m.c.tail
  {
    InvParts(cfg, s);
  }

  lemma CallInvs(cfg: P.Config, s: State, before: seq<Action>, xs: seq<Element>, after: seq<Action>)
    requires Calls(cfg, s, before, xs, after)
    ensures var called := Run(cfg, s, before);
      var begun := Step(cfg, called, Enqueue(xs));
      && 1 <= cfg.w && Inv(cfg, called) && Inv(cfg, begun) && Inv(cfg, Run(cfg, begun, after))
      && S.RunInWindow(cfg, begun.m, MachineActions(cfg, begun, after))
  {
    CallOfMachine(cfg, s, before, xs, after);
    InitialInv(cfg, s);
    var called := Run(cfg, s, before);
    var begun := Step(cfg, called, Enqueue(xs));
    var first, rest := MachineActions(cfg, s, before), MachineActions(cfg, begun, after);
    hide Inv, Step, M.Step, M.Enabled, S.Run, V.Inv, MachineActions, S.InWindow;
    G.CallIsInWindow(cfg, s.m, first, |xs|, rest);
    Window.FittingRunKeepsInv(cfg, s.m, first + ([M.StartEnqueue(|xs|)] + rest));
    G.RunSplits(cfg, s.m, first, [M.StartEnqueue(|xs|)] + rest);
    RunKeepsInv(cfg, s, before);
    StepKeepsInv(cfg, called, Enqueue(xs));
    RunKeepsInv(cfg, begun, after);
  }
}
