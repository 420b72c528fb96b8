/** An enqueue ends after a bounded number of the producer's own steps, whatever the consumers do, and succeeds unless
    the size check or the allocator turns it down. */
module ImplicitProgress {
  import opened Common
  import opened Words
  import opened BlockMath
  import opened ImplicitProducer
  import opened ImplicitInvariant
  import opened ImplicitSafety
  import opened ImplicitResults
  import Claims = DequeueClaims
  import Idx = ImplicitIndex

  // ---- The steps that are left ----

  // Blocks obtained and blocks still to be obtained, counted by their elements.
  function ChainBound(pc: ProducerPc): nat
    requires pc.Room? || pc.Insert? || pc.Grow? || pc.Bump? || pc.Grab? || pc.Hook?
  {
    |pc.chain| + Natural(pc.left) + (if pc.Room? then 0 else 1)
  }

  function Natural(x: int): nat { if x < 0 then 0 else x }

  function Allocation(pc: ProducerPc): nat
    requires pc.Room? || pc.Insert? || pc.Grow? || pc.Bump? || pc.Grab? || pc.Hook?
  {
    7 * Natural(pc.left) + |pc.xs| + 4 * ChainBound(pc) + 10
  }

  // An upper bound on the steps the producer has still to make before it is ready again.
  function StepsLeft(s: State): nat
    requires Idx.WellFormed(s.index)
  {
    var pc := s.producer;
    match pc
    case Ready => 0
    case Room(_, _, _) => Allocation(pc)
    case Insert(_, _, _) => Allocation(pc) + (if Idx.Usable(s.index) then 4 else 6)
    case Grow(_, _, _) => Allocation(pc) + 5
    case Bump(_, _, _) => Allocation(pc) + 3
    case Grab(_, _, _) => Allocation(pc) + 2
    case Hook(_, _, _, _) => Allocation(pc) + 1
    case UndoTail(chain) => 3 * |chain| + 5
    case UndoValue(chain) => 3 * |chain| + 4
    case UndoEntry(chain, done) => 2 * Natural(|chain| - done) + 1 + |chain|
    case UndoRewind(chain, done) => 2 * Natural(|chain| - done) + |chain|
    case UndoFree(chain, done) => Natural(|chain| - done)
    case Fill(xs, _, done, _, _) => Natural(|xs| - done) + 1
    case Publish(_, _, _) => 1
  }

  lemma BeginFillIsShort(cfg: Config, s: State, s': State, xs: seq<Element>, chain: seq<nat>)
    requires Idx.WellFormed(s'.index) && s'.producer == BeginFill(cfg, s, xs, chain)
    ensures StepsLeft(s') <= |xs| + 1
  {}

  lemma RequestAdvances(cfg: Config, s: State, supply: Supply)
    requires CanProduce(cfg, s) && (s.producer.Room? || s.producer.Grow? || s.producer.Grab?)
    requires s.producer.Room? ==> 0 < s.producer.left
    requires Idx.WellFormed(ProducerStep(cfg, s, supply).index)
    requires s.producer.Grow? && GrantedMemory(cfg, s, supply).Some? ==> Idx.Usable(ProducerStep(cfg, s, supply).index)
    ensures StepsLeft(ProducerStep(cfg, s, supply)) < StepsLeft(s)
  {
    hide Idx.Usable, IsFull, Idx.WellFormed;
  }

  lemma InsertAdvances(cfg: Config, s: State, supply: Supply)
    requires CanProduce(cfg, s) && (s.producer.Insert? || s.producer.Bump?)
    requires Idx.WellFormed(ProducerStep(cfg, s, supply).index)
    ensures StepsLeft(ProducerStep(cfg, s, supply)) < StepsLeft(s)
  {
    hide Idx.Usable, Idx.WellFormed, Idx.StoreKey, Idx.StoreTail;
  }

  lemma HookAdvances(cfg: Config, s: State, supply: Supply)
    requires CanProduce(cfg, s) && s.producer.Hook?
    requires Idx.WellFormed(ProducerStep(cfg, s, supply).index)
    ensures StepsLeft(ProducerStep(cfg, s, supply)) < StepsLeft(s)
  {
    hide BeginFill, Idx.WellFormed;
    var s' := ProducerStep(cfg, s, supply);
    if s.producer.left <= 0 {
      BeginFillIsShort(cfg, s, s', s.producer.xs, s.producer.chain + [s.producer.block]);
    }
  }

  lemma RollbackAdvances(cfg: Config, s: State, supply: Supply)
    requires CanProduce(cfg, s)
    requires s.producer.UndoTail? || s.producer.UndoValue? || s.producer.UndoEntry? || s.producer.UndoRewind?
             || s.producer.UndoFree?
    requires s.producer.UndoEntry? || s.producer.UndoRewind? || s.producer.UndoFree? ==> s.producer.done < |s.producer.chain|
    requires Idx.WellFormed(ProducerStep(cfg, s, supply).index)
    ensures StepsLeft(ProducerStep(cfg, s, supply)) < StepsLeft(s)
  {
    hide Idx.WellFormed, Idx.Rewind, Idx.StoreValue, FoundPosition;
  }

  lemma FillAdvances(cfg: Config, s: State, supply: Supply)
    requires CanProduce(cfg, s) && (s.producer.Fill? || s.producer.Publish?)
    requires Idx.WellFormed(ProducerStep(cfg, s, supply).index)
    ensures StepsLeft(ProducerStep(cfg, s, supply)) < StepsLeft(s)
  {
    hide Idx.WellFormed;
  }

  lemma PlaceFacts(cfg: Config, s: State)
    requires Inv(cfg, s)
    ensures s.producer.Room? ==> 0 < s.producer.left
    ensures s.producer.UndoEntry? || s.producer.UndoRewind? || s.producer.UndoFree? ==> s.producer.done < |s.producer.chain|
  {
    hide CellsOk, CountsOk, PlacesOk, ReadsOk, ViewsOk, KeysUpToTail, TailBlockOk, Claims.Inv, HomeOk, RoomOk;
    hide ShownOk, IndexOk;
  }

  lemma GrownIsUsable(cfg: Config, s: State, supply: Supply)
    requires Inv(cfg, s) && s.producer.Grow?
    ensures CanProduce(cfg, s)
    ensures GrantedMemory(cfg, s, supply).Some? ==>
      Idx.WellFormed(ProducerStep(cfg, s, supply).index) && Idx.Usable(ProducerStep(cfg, s, supply).index)
  {
    hide CellsOk, CountsOk, PlacesOk, ReadsOk, ViewsOk, KeysUpToTail, TailBlockOk, Claims.Inv, HomeOk, RoomOk;
    hide ShownOk, FillOk;
    if GrantedMemory(cfg, s, supply).Some? {
      Idx.GrowKeepsInv(s.index, GrantedMemory(cfg, s, supply).value);
    }
  }

  /** Each step of the producer brings the call closer to its end. */
  lemma ProducerAdvances(cfg: Config, s: State, supply: Supply)
    requires Inv(cfg, s) && !s.producer.Ready?
    ensures CanProduce(cfg, s) && Idx.WellFormed(s.index) && Idx.WellFormed(ProducerStep(cfg, s, supply).index)
    ensures StepsLeft(ProducerStep(cfg, s, supply)) < StepsLeft(s)
  {
    IndexIsWellFormed(cfg, s);
    ProduceKeepsInv(cfg, s, supply);
    hide Idx.WellFormed, ProducerStep, StepsLeft, CanProduce;
    IndexIsWellFormed(cfg, ProducerStep(cfg, s, supply));
    PlaceFacts(cfg, s);
    if s.producer.Grow? {
      GrownIsUsable(cfg, s, supply);
    }
    hide Inv;
    match s.producer
    case Room(_, _, _) => RequestAdvances(cfg, s, supply);
    case Insert(_, _, _) => InsertAdvances(cfg, s, supply);
    case Grow(_, _, _) => RequestAdvances(cfg, s, supply);
    case Bump(_, _, _) => InsertAdvances(cfg, s, supply);
    case Grab(_, _, _) => RequestAdvances(cfg, s, supply);
    case Hook(_, _, _, _) => HookAdvances(cfg, s, supply);
    case Fill(_, _, _, _, _) => FillAdvances(cfg, s, supply);
    case Publish(_, _, _) => FillAdvances(cfg, s, supply);
    case _ => RollbackAdvances(cfg, s, supply);
  }

  /** No step of a consumer sets the call back. */
  lemma ConsumersDoNotDelay(cfg: Config, s: State, a: Action)
    requires Enabled(cfg, s, a) && !a.Produce? && !a.StartEnqueue? && Idx.WellFormed(s.index)
    ensures var s' := Step(cfg, s, a);
      && s'.producer == s.producer && Idx.WellFormed(s'.index) && StepsLeft(s') <= StepsLeft(s)
  {
    hide StepsLeft;
    var s' := Step(cfg, s, a);
    if a.Consume? && s.consumers[a.thread].ClearEntry? {
      var pc := s.consumers[a.thread];
      ClearingKeepsUsable(s.index, s.index.headers[pc.header].ring[pc.slot]);
      SameStepsLeft(s, s');
    } else {
      SameStepsLeft(s, s');
    }
  }

  lemma ClearingKeepsUsable(x: Idx.Index, e: nat)
    requires Idx.WellFormed(x) && e < |x.entries|
    ensures Idx.WellFormed(Idx.StoreValue(x, e, None))
    ensures Idx.Usable(x) ==> Idx.Usable(Idx.StoreValue(x, e, None))
  {}

  lemma SameStepsLeft(s: State, s': State)
    requires Idx.WellFormed(s.index) && Idx.WellFormed(s'.index) && s'.producer == s.producer
    requires Idx.Usable(s.index) ==> Idx.Usable(s'.index)
    ensures StepsLeft(s') <= StepsLeft(s)
  {
    hide Idx.Usable;
  }

  // ---- Runs ----

  function ProducerSteps(schedule: seq<Action>): nat {
    if |schedule| == 0 then 0 else (if schedule[0].Produce? then 1 else 0) + ProducerSteps(schedule[1..])
  }

  lemma ReadyWhenNothingLeft(cfg: Config, s: State)
    requires Inv(cfg, s)
    ensures Idx.WellFormed(s.index) && (StepsLeft(s) == 0 ==> s.producer.Ready?)
  {
    IndexIsWellFormed(cfg, s);
    PlaceFacts(cfg, s);
    hide Inv;
  }

  lemma ProduceIsEnabled(cfg: Config, s: State, supply: Supply)
    requires Inv(cfg, s)
    ensures Enabled(cfg, s, Produce(supply))
  {
    EveryStepIsDefined(cfg, s);
    hide CellsOk, CountsOk, ReadsOk, ViewsOk, KeysUpToTail, TailBlockOk, Claims.Inv, HomeOk, RoomOk;
    hide ShownOk, IndexOk, FillOk, ProducerShape, CanProduce;
  }

  // One step of the run: nearer to the end if it is the producer's, no further from it otherwise.
  lemma OneStepOn(cfg: Config, s: State, a: Action)
    requires Inv(cfg, s) && Enabled(cfg, s, a) && !a.StartEnqueue?
    ensures var s' := Step(cfg, s, a);
      && Idx.WellFormed(s.index) && Idx.WellFormed(s'.index)
      && (s.producer.Ready? ==> s'.producer.Ready?)
      && (!s.producer.Ready? ==> StepsLeft(s') + (if a.Produce? then 1 else 0) <= StepsLeft(s))
  {
    IndexIsWellFormed(cfg, s);
    hide StepsLeft;
    if a.Produce? {
      if !s.producer.Ready? {
        ProducerAdvances(cfg, s, a.supply);
      }
      hide Inv;
    } else {
      hide Inv;
      ConsumersDoNotDelay(cfg, s, a);
    }
  }

  /** As many producer steps as StepsLeft, however they are interleaved with the steps of consumers, end the call. */
  lemma {:induction false} CallEnds(cfg: Config, s: State, schedule: seq<Action>)
    requires Inv(cfg, s) && RunInWindow(cfg, s, schedule)
    requires forall i :: 0 <= i < |schedule| ==> !schedule[i].StartEnqueue?
    requires Idx.WellFormed(s.index) && (StepsLeft(s) <= ProducerSteps(schedule) || s.producer.Ready?)
    ensures Run(cfg, s, schedule).producer.Ready?
    decreases |schedule|
  {
    hide Inv, StepsLeft, Enabled, Step;
    if |schedule| == 0 {
      ReadyWhenNothingLeft(cfg, s);
    } else {
      var a := schedule[0];
      if Enabled(cfg, s, a) {
        StepKeepsInv(cfg, s, a);
        OneStepOn(cfg, s, a);
        CallEnds(cfg, Step(cfg, s, a), schedule[1..]);
      } else {
        if a.Produce? {
          ProduceIsEnabled(cfg, s, a.supply);
        }
        CallEnds(cfg, s, schedule[1..]);
      }
    }
  }

  // ---- Success ----

  // The three answers that make an enqueue fail: no room, no memory for the index, no block.
  predicate Denied(cfg: Config, s: State, a: Action)
    requires Enabled(cfg, s, a)
  {
    a.Produce? &&
    match s.producer
    case Room(_, _, _) => IsFull(cfg, s.c.head, s.index.inserted * cfg.BlockSize())
    case Grow(_, _, _) => GrantedMemory(cfg, s, a.supply).None?
    case Grab(_, _, _) => GrantedBlock(s, a.supply).None?
    case _ => false
  }

  ghost predicate NeverDenied(cfg: Config, s: State, schedule: seq<Action>)
    decreases |schedule|
  {
    |schedule| > 0 ==>
      var a := schedule[0];
      if Enabled(cfg, s, a) then !Denied(cfg, s, a) && NeverDenied(cfg, Step(cfg, s, a), schedule[1..])
      else NeverDenied(cfg, s, schedule[1..])
  }

  // A call to enqueue xs that has not been turned down.
  ghost predicate Succeeding(items: seq<Element>, xs: seq<Element>, s: State) {
    match s.producer
    case Ready => s.items == items + xs
    case UndoTail(_) => false
    case UndoValue(_) => false
    case UndoEntry(_, _) => false
    case UndoRewind(_, _) => false
    case UndoFree(_, _) => false
    case _ => s.items == items && s.producer.xs == xs
  }

  lemma ProducerKeepsSucceeding(cfg: Config, items: seq<Element>, xs: seq<Element>, s: State, a: Action)
    requires Enabled(cfg, s, a) && a.Produce? && !Denied(cfg, s, a) && Succeeding(items, xs, s)
    ensures Succeeding(items, xs, Step(cfg, s, a))
  {
    hide IsFull;
  }

  lemma ConsumerKeepsSucceeding(cfg: Config, items: seq<Element>, xs: seq<Element>, s: State, a: Action)
    requires Enabled(cfg, s, a) && !a.Produce? && !a.StartEnqueue? && Succeeding(items, xs, s)
    ensures Succeeding(items, xs, Step(cfg, s, a))
  {
    var s' := Step(cfg, s, a);
    assert s'.producer == s.producer && s'.items == s.items;
  }

  lemma {:induction false} RunKeepsSucceeding(cfg: Config, items: seq<Element>, xs: seq<Element>, s: State,
                                              schedule: seq<Action>)
    requires Succeeding(items, xs, s) && NeverDenied(cfg, s, schedule)
    requires forall i :: 0 <= i < |schedule| ==> !schedule[i].StartEnqueue?
    ensures Succeeding(items, xs, Run(cfg, s, schedule))
    decreases |schedule|
  {
    hide Succeeding, Denied, Step, Enabled;
    if |schedule| > 0 {
      var a := schedule[0];
      if Enabled(cfg, s, a) {
        if a.Produce? {
          ProducerKeepsSucceeding(cfg, items, xs, s, a);
        } else {
          ConsumerKeepsSucceeding(cfg, items, xs, s, a);
        }
        RunKeepsSucceeding(cfg, items, xs, Step(cfg, s, a), schedule[1..]);
      } else {
        RunKeepsSucceeding(cfg, items, xs, s, schedule[1..]);
      }
    }
  }

  /** A call that is never turned down, and whose thread is given enough steps, has appended exactly its elements. */
  lemma EnqueueSucceeds(cfg: Config, s: State, xs: seq<Element>, schedule: seq<Action>)
    requires Inv(cfg, s) && Enabled(cfg, s, StartEnqueue(xs))
    requires var s1 := Step(cfg, s, StartEnqueue(xs));
      && Idx.WellFormed(s1.index) && StepsLeft(s1) <= ProducerSteps(schedule)
      && RunInWindow(cfg, s1, schedule) && NeverDenied(cfg, s1, schedule)
    requires forall i :: 0 <= i < |schedule| ==> !schedule[i].StartEnqueue?
    ensures var end := Run(cfg, Step(cfg, s, StartEnqueue(xs)), schedule);
      end.producer.Ready? && end.items == s.items + xs
  {
    var s1 := Step(cfg, s, StartEnqueue(xs));
    assert Succeeding(s.items, xs, s1) by { StartSucceeds(cfg, s, xs); }
    StepKeepsInv(cfg, s, StartEnqueue(xs));
    hide Inv, Step, StepsLeft;
    CallEnds(cfg, s1, schedule);
    RunKeepsSucceeding(cfg, s.items, xs, s1, schedule);
  }

  lemma StartSucceeds(cfg: Config, s: State, xs: seq<Element>)
    requires Enabled(cfg, s, StartEnqueue(xs))
    ensures Succeeding(s.items, xs, Step(cfg, s, StartEnqueue(xs)))
  {}
}
