/** Runs of an explicit producer whose dequeues do not ask for too much at once. */
module ExplicitWindow {
  import opened Common
  import opened Words
  import opened BlockMath
  import opened ExplicitProducer
  import opened ExplicitInvariant
  import opened ExplicitSafety
  import Claims = DequeueClaims
  import Window = ClaimsWindow
  import P = ImplicitProducer

  // What a step does to the claim protocol.
  function ClaimAction(s: State, a: Action): seq<Claims.Action> {
    match a
    case StartDequeue(t, max) => [Claims.Start(t, max)]
    case Claim(t) => [Claims.Advance(t)]
    case Finish(t) => [Claims.Release(t)]
    case Produce(_) => if s.producer.Publish? then [Claims.Publish(s.producer.count)] else []
    case _ => []
  }

  function ClaimActions(cfg: P.Config, s: State, schedule: seq<Action>): seq<Claims.Action>
    decreases |schedule|
  {
    if |schedule| == 0 then []
    else
      var a := schedule[0];
      if Enabled(cfg, s, a) then ClaimAction(s, a) + ClaimActions(cfg, Step(cfg, s, a), schedule[1..])
      else ClaimActions(cfg, s, schedule[1..])
  }

  /** The calls around each dequeue ask for at most half the word range together. */
  ghost predicate CallsFit(cfg: P.Config, s: State, schedule: seq<Action>) {
    && 1 <= cfg.w
    && Window.CallsFit(cfg.w, Pow2(cfg.w - 1), s.c, Window.NoCalls(|s.c.pcs|), ClaimActions(cfg, s, schedule))
  }

  // A step changes the counters by its claim action and by nothing else.
  lemma StepIsClaimStep(cfg: P.Config, s: State, a: Action)
    requires Enabled(cfg, s, a)
    ensures var actions := ClaimAction(s, a);
      && (actions == [] ==> Step(cfg, s, a).c == s.c && !a.Claim?)
      && (actions != [] ==> |actions| == 1 && Claims.Enabled(s.c, actions[0])
                            && Step(cfg, s, a).c == Claims.Step(cfg.w, s.c, actions[0]))
      && (a.Claim? ==> actions == [Claims.Advance(a.thread)])
  {
    hide Shaped, BeginFill, P.IsFull, Doubled, Obtained, Linked, CanReuse;
  }

  lemma {:induction false} ClaimsGiveWindow(cfg: P.Config, s: State, schedule: seq<Action>)
    requires 1 <= cfg.w && Claims.RunInWindow(cfg.w, s.c, ClaimActions(cfg, s, schedule))
    ensures RunInWindow(cfg, s, schedule)
    decreases |schedule|
  {
    hide Enabled, Step, ClaimAction;
    if |schedule| > 0 {
      var a := schedule[0];
      if Enabled(cfg, s, a) {
        StepIsClaimStep(cfg, s, a);
        var rest := ClaimActions(cfg, Step(cfg, s, a), schedule[1..]);
        var actions := ClaimAction(s, a);
        if actions != [] {
          assert (actions + rest)[0] == actions[0] && (actions + rest)[1..] == rest;
        } else {
          assert actions + rest == rest;
        }
        ClaimsGiveWindow(cfg, Step(cfg, s, a), schedule[1..]);
      } else {
        ClaimsGiveWindow(cfg, s, schedule[1..]);
      }
    }
  }

  /** Any word, block and index size, any number of consumers, any interleaving, calls that succeed or are turned down before
      they have obtained a block: if the calls around each dequeue ask for at most half the word range together, the
      invariant holds throughout. */
  lemma FittingRunKeepsInv(cfg: P.Config, s: State, schedule: seq<Action>)
    requires Initial(cfg, s) && CallsFit(cfg, s, schedule)
    ensures RunInWindow(cfg, s, schedule) && Inv(cfg, Run(cfg, s, schedule))
  {
    Window.FittingRunKeepsInv(cfg.w, Pow2(cfg.w - 1), s.c, ClaimActions(cfg, s, schedule));
    ClaimsGiveWindow(cfg, s, schedule);
    EveryRunKeepsInv(cfg, s, schedule);
  }

  /** In particular if its dequeues ask for at most half the word range in all. */
  lemma ModestCallsFit(cfg: P.Config, s: State, schedule: seq<Action>)
    requires Initial(cfg, s) && Window.Asked(ClaimActions(cfg, s, schedule)) <= Pow2(cfg.w - 1)
    ensures CallsFit(cfg, s, schedule)
  {
    Window.ModestRunKeepsInv(cfg.w, s.c, ClaimActions(cfg, s, schedule));
  }
}
