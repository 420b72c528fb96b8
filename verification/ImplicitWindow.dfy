/** Runs of an implicit producer whose dequeues do not ask for too much at once: a condition on the calls alone, under
    which everything proved of the machine holds from the constructor on. */
module ImplicitWindow {
  import opened Common
  import opened Words
  import opened BlockMath
  import opened ImplicitProducer
  import opened ImplicitInvariant
  import opened ImplicitSafety
  import opened ImplicitResults
  import opened ImplicitProgress
  import Claims = DequeueClaims
  import Window = ClaimsWindow
  import Idx = ImplicitIndex

  // What a step does to the claim protocol.
  function ClaimAction(s: State, a: Action): seq<Claims.Action> {
    match a
    case StartDequeue(t, max) => [Claims.Start(t, max)]
    case Claim(t) => [Claims.Advance(t)]
    case Finish(t) => [Claims.Release(t)]
    case Produce(_) => if s.producer.Publish? then [Claims.Publish(|s.producer.xs|)] else []
    case _ => []
  }

  function ClaimActions(cfg: Config, s: State, schedule: seq<Action>): seq<Claims.Action>
    decreases |schedule|
  {
    if |schedule| == 0 then []
    else
      var a := schedule[0];
      if Enabled(cfg, s, a) then ClaimAction(s, a) + ClaimActions(cfg, Step(cfg, s, a), schedule[1..])
      else ClaimActions(cfg, s, schedule[1..])
  }

  /** The calls around each dequeue ask for at most half the word range together. */
  ghost predicate CallsFit(cfg: Config, s: State, schedule: seq<Action>) {
    && 1 <= cfg.w
    && Window.CallsFit(cfg.w, Pow2(cfg.w - 1), s.c, Window.NoCalls(|s.c.pcs|), ClaimActions(cfg, s, schedule))
  }

  // A step changes the counters by its claim action and by nothing else.
  lemma StepIsClaimStep(cfg: Config, s: State, a: Action)
    requires Enabled(cfg, s, a)
    ensures var actions := ClaimAction(s, a);
      && (actions == [] ==> Step(cfg, s, a).c == s.c && !a.Claim?)
      && (actions != [] ==> |actions| == 1 && Claims.Enabled(s.c, actions[0])
                            && Step(cfg, s, a).c == Claims.Step(cfg.w, s.c, actions[0]))
      && (a.Claim? ==> actions == [Claims.Advance(a.thread)])
  {
    hide Idx.Grow, Idx.StoreKey, Idx.StoreTail, Idx.Rewind, Idx.StoreValue, Idx.Usable, Idx.WellFormed, BeginFill, IsFull;
    hide FoundPosition, TailEntry, GrantedMemory, GrantedBlock, Undo;
  }

  lemma {:induction false} ClaimsGiveWindow(cfg: Config, s: State, schedule: seq<Action>)
    requires 1 <= cfg.w && Claims.RunInWindow(cfg.w, s.c, ClaimActions(cfg, s, schedule))
    ensures RunInWindow(cfg, s, schedule)
    decreases |schedule|
  {
    hide Enabled, Step, ClaimAction;
    if |schedule| > 0 {
      var a := schedule[0];
      if Enabled(cfg, s, a) {
        StepIsClaimStep(cfg, s, a);
        var rest := ClaimActions(cfg, Step(cfg, s, a), schedule[1..]);
        var actions := ClaimAction(s, a);
        if actions != [] {
          assert (actions + rest)[0] == actions[0] && (actions + rest)[1..] == rest;
        } else {
          assert actions + rest == rest;
        }
        ClaimsGiveWindow(cfg, Step(cfg, s, a), schedule[1..]);
      } else {
        ClaimsGiveWindow(cfg, s, schedule[1..]);
      }
    }
  }

  /** Any word size, block size and index size, any number of consumers, single or bulk, any answers of the allocator,
      any interleaving: if the calls around each dequeue ask for at most half the word range together, the invariant
      holds throughout. */
  lemma FittingRunKeepsInv(cfg: Config, s: State, schedule: seq<Action>)
    requires Initial(cfg, s) && CallsFit(cfg, s, schedule)
    ensures RunInWindow(cfg, s, schedule) && Inv(cfg, Run(cfg, s, schedule))
  {
    Window.FittingRunKeepsInv(cfg.w, Pow2(cfg.w - 1), s.c, ClaimActions(cfg, s, schedule));
    ClaimsGiveWindow(cfg, s, schedule);
    EveryRunKeepsInv(cfg, s, schedule);
  }

  /** In particular if its dequeues ask for at most half the word range in all. */
  lemma ModestCallsFit(cfg: Config, s: State, schedule: seq<Action>)
    requires Initial(cfg, s) && Window.Asked(ClaimActions(cfg, s, schedule)) <= Pow2(cfg.w - 1)
    ensures CallsFit(cfg, s, schedule)
  {
    Window.ModestRunKeepsInv(cfg.w, s.c, ClaimActions(cfg, s, schedule));
  }

  // ---- Calls in the middle of a run ----

  lemma {:induction false} RunSplits(cfg: Config, s: State, before: seq<Action>, after: seq<Action>)
    requires RunInWindow(cfg, s, before + after)
    ensures RunInWindow(cfg, s, before) && RunInWindow(cfg, Run(cfg, s, before), after)
    decreases |before|
  {
    hide Enabled, Step, InWindow;
    if |before| == 0 {
      assert before + after == after;
    } else {
      assert (before + after)[1..] == before[1..] + after;
      RunSplits(cfg, if Enabled(cfg, s, before[0]) then Step(cfg, s, before[0]) else s, before[1..], after);
    }
  }

  // A call to enqueue xs is made after the steps `before` of a fitting run, which goes on with `after`.
  ghost predicate Calls(cfg: Config, s: State, before: seq<Action>, xs: seq<Element>, after: seq<Action>) {
    && Initial(cfg, s) && CallsFit(cfg, s, before + ([StartEnqueue(xs)] + after))
    && Enabled(cfg, Run(cfg, s, before), StartEnqueue(xs))
    && forall i :: 0 <= i < |after| ==> !after[i].StartEnqueue?
  }

  lemma CallIsInWindow(cfg: Config, s: State, before: seq<Action>, xs: seq<Element>, after: seq<Action>)
    requires Calls(cfg, s, before, xs, after)
    ensures var called := Run(cfg, s, before);
      Inv(cfg, called) && RunInWindow(cfg, Step(cfg, called, StartEnqueue(xs)), after)
      && Inv(cfg, Step(cfg, called, StartEnqueue(xs)))
  {
    hide Inv, Initial, CallsFit, Step;
    var call := [StartEnqueue(xs)];
    FittingRunKeepsInv(cfg, s, before + (call + after));
    RunSplits(cfg, s, before, call + after);
    InitialInv(cfg, s);
    RunKeepsInv(cfg, s, before);
    assert (call + after)[1..] == after;
    StepKeepsInv(cfg, Run(cfg, s, before), StartEnqueue(xs));
  }

  /** Wherever in a fitting run it is made, a call to enqueue xs ends with all of xs appended or none of it, and the
      producer's state is again that of the elements published. */
  lemma EveryCallIsAllOrNothing(cfg: Config, s: State, before: seq<Action>, xs: seq<Element>, after: seq<Action>)
    requires Calls(cfg, s, before, xs, after)
    ensures var called := Run(cfg, s, before);
      var end := Run(cfg, Step(cfg, called, StartEnqueue(xs)), after);
      && (end.producer.Ready? ==> (end.items == called.items || end.items == called.items + xs) && AtRest(cfg, end))
      && (!end.producer.Ready? ==> end.items == called.items)
  {
    hide Inv, Step;
    CallIsInWindow(cfg, s, before, xs, after);
    EnqueueIsAllOrNothing(cfg, Run(cfg, s, before), xs, after);
  }

  /** It ends once its thread has made StepsLeft steps, whatever the consumers do meanwhile. */
  lemma EveryCallEnds(cfg: Config, s: State, before: seq<Action>, xs: seq<Element>, after: seq<Action>)
    requires Calls(cfg, s, before, xs, after)
    ensures Idx.WellFormed(Step(cfg, Run(cfg, s, before), StartEnqueue(xs)).index)
    ensures var begun := Step(cfg, Run(cfg, s, before), StartEnqueue(xs));
      StepsLeft(begun) <= ProducerSteps(after) ==> Run(cfg, begun, after).producer.Ready?
  {
    hide Inv, Step, StepsLeft;
    CallIsInWindow(cfg, s, before, xs, after);
    var begun := Step(cfg, Run(cfg, s, before), StartEnqueue(xs));
    IndexIsWellFormed(cfg, begun);
    if StepsLeft(begun) <= ProducerSteps(after) {
      CallEnds(cfg, begun, after);
    }
  }

  /** And if it was never turned down, all of xs has been appended then. */
  lemma EveryGrantedCallSucceeds(cfg: Config, s: State, before: seq<Action>, xs: seq<Element>, after: seq<Action>)
    requires Calls(cfg, s, before, xs, after)
    requires NeverDenied(cfg, Step(cfg, Run(cfg, s, before), StartEnqueue(xs)), after)
    ensures var called := Run(cfg, s, before);
      var begun := Step(cfg, called, StartEnqueue(xs));
      && Idx.WellFormed(begun.index)
      && (StepsLeft(begun) <= ProducerSteps(after) ==>
            Run(cfg, begun, after).producer.Ready? && Run(cfg, begun, after).items == called.items + xs)
  {
    hide Inv, Step, StepsLeft;
    CallIsInWindow(cfg, s, before, xs, after);
    var begun := Step(cfg, Run(cfg, s, before), StartEnqueue(xs));
    IndexIsWellFormed(cfg, begun);
    if StepsLeft(begun) <= ProducerSteps(after) {
      EnqueueSucceeds(cfg, Run(cfg, s, before), xs, after);
    }
  }
}
