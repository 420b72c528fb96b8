/** What a call of get_or_add_implicit_producer achieves: it comes back without a producer only if the allocator refused it
    something, and alone, with everything granted, it ends with its thread registered. */
module ProducerHashCalls {
  import opened Common
  import opened Words
  import opened ProducerHash

  // ---- Failure ----

  // The answers that make a call fail: no memory for a larger table, no producer. A producer granted is a new one.
  predicate Refused(s: State, t: nat, supply: Supply) {
    t < |s.pcs| &&
    match s.pcs[t]
    case Allocate(_, _) => supply.Nothing?
    case Create(_, _) => supply.Nothing? || supply.id in s.owner.Values
    case _ => false
  }

  // On the way out without a producer.
  predicate Failing(pc: Pc) { pc.GiveBackLocked? || pc.UnlockFailed? || pc.GiveBack? || pc == Done(None) }

  // Whether thread t is refused something in a run.
  predicate RefusedIn(hashes: seq<nat>, s: State, schedule: seq<Turn>, t: nat)
    decreases |schedule|
  {
    |schedule| > 0 &&
    var turn := schedule[0];
    if Enabled(hashes, s, turn.thread) then
      (turn.thread == t && Refused(s, t, turn.supply))
      || RefusedIn(hashes, Step(hashes, s, turn.thread, turn.supply), schedule[1..], t)
    else RefusedIn(hashes, s, schedule[1..], t)
  }

  lemma NotRefusedGoesOn(hashes: seq<nat>, s: State, t: nat, supply: Supply)
    requires Enabled(hashes, s, t) && !Failing(s.pcs[t]) && !Refused(s, t, supply)
    ensures !Failing(Perform(hashes, s, t, supply).1)
  {}

  lemma OneStepMoves(hashes: seq<nat>, s: State, t: nat, supply: Supply)
    requires Enabled(hashes, s, t)
    ensures Step(hashes, s, t, supply).pcs == s.pcs[t := Perform(hashes, s, t, supply).1]
  {
    hide Perform;
  }

  /** In any run, whatever the other threads do: a call that has not failed yet fails only if it is refused memory for a
      larger table or a producer from here on. */
  lemma {:induction false} OnlyRefusalFails(hashes: seq<nat>, s: State, schedule: seq<Turn>, t: nat)
    requires t < |s.pcs| && !Failing(s.pcs[t]) && !RefusedIn(hashes, s, schedule, t)
    ensures t < |Run(hashes, s, schedule).pcs| && !Failing(Run(hashes, s, schedule).pcs[t])
    decreases |schedule|
  {
    hide Enabled, Step, Perform, Failing, Refused;
    if |schedule| > 0 {
      var turn := schedule[0];
      if Enabled(hashes, s, turn.thread) {
        EnabledInRange(hashes, s, turn.thread);
        OneStepMoves(hashes, s, turn.thread, turn.supply);
        if turn.thread == t {
          NotRefusedGoesOn(hashes, s, t, turn.supply);
        }
        OnlyRefusalFails(hashes, Step(hashes, s, turn.thread, turn.supply), schedule[1..], t);
      } else {
        OnlyRefusalFails(hashes, s, schedule[1..], t);
      }
    }
  }

  lemma EnabledInRange(hashes: seq<nat>, s: State, t: nat)
    requires Enabled(hashes, s, t)
    ensures t < |s.pcs|
  {}

  lemma HoldersAsk(s: State, t: nat, supply: Supply)
    requires Refused(s, t, supply)
    ensures Holding(s.pcs[t])
  {}

  /** A registered thread needs nothing from the allocator: in any run none of its calls fails, whatever is refused. */
  lemma {:induction false} RegisteredNeverFails(hashes: seq<nat>, s: State, schedule: seq<Turn>, t: nat)
    requires Inv(hashes, s) && t < |s.pcs| && Present(s.tables, t) && !Failing(s.pcs[t])
    ensures t < |Run(hashes, s, schedule).pcs| && !Failing(Run(hashes, s, schedule).pcs[t])
    decreases |schedule|
  {
    hide Inv, Enabled, Step, Perform, Failing, Refused, Present, Holding;
    if |schedule| > 0 {
      var turn := schedule[0];
      if Enabled(hashes, s, turn.thread) {
        EnabledInRange(hashes, s, turn.thread);
        OneStepMoves(hashes, s, turn.thread, turn.supply);
        StepKeepsInv(hashes, s, turn.thread, turn.supply);
        RegistrationIsPermanent(hashes, s, turn.thread, turn.supply, t);
        if turn.thread == t {
          RegisteredIsFound(hashes, s, t);
          if Refused(s, t, turn.supply) {
            HoldersAsk(s, t, turn.supply);
          }
          NotRefusedGoesOn(hashes, s, t, turn.supply);
        }
        RegisteredNeverFails(hashes, Step(hashes, s, turn.thread, turn.supply), schedule[1..], t);
      } else {
        RegisteredNeverFails(hashes, s, schedule[1..], t);
      }
    }
  }

  // ---- Alone ----

  // Thread t takes its steps until its call is over, and nobody else takes any.
  function Call(hashes: seq<nat>, s: State, t: nat, supplies: seq<Supply>): State
    decreases |supplies|
  {
    if |supplies| == 0 || !Enabled(hashes, s, t) || s.pcs[t].Done? then s
    else Call(hashes, Step(hashes, s, t, supplies[0]), t, supplies[1..])
  }

  predicate NeverRefused(hashes: seq<nat>, s: State, t: nat, supplies: seq<Supply>)
    decreases |supplies|
  {
    |supplies| == 0 || !Enabled(hashes, s, t) || s.pcs[t].Done?
    || (!Refused(s, t, supplies[0]) && NeverRefused(hashes, Step(hashes, s, t, supplies[0]), t, supplies[1..]))
  }

  function Natural(x: int): nat { if x < 0 then 0 else x }

  // n tables of at most `big` slots, and one step more for each.
  function Rows(n: nat, big: nat): nat { if n == 0 then 0 else Rows(n - 1, big) + big + 1 }

  function ToGo(s: State, table: nat, steps: nat): nat {
    if table < |s.tables| then Natural(Capacity(s.tables[table]) - steps) else 0
  }

  // The steps a call has left at most when no table has, or will have, more than `big` slots.
  function StepsLeft(big: nat, s: State, pc: Pc): nat {
    match pc
    case Done(_) => 0
    case Idle => Rows(|s.tables|, big) + 2 * big + 30
    case LoadMain => Rows(|s.tables|, big) + 2 * big + 29
    case Probe(_, table, steps) => Rows(table, big) + ToGo(s, table, steps) + 2 * big + 26
    case ReadValue(_, _, _) => 2 * big + 6
    case Migrate(main, _, steps) => 2 * ToGo(s, main, steps) + 3
    case CasMigrate(main, _, steps) => 2 * ToGo(s, main, steps) + 2
    case StoreMigrated(_, _, _) => 1
    case AddCount(_) => 2 * big + 25
    case Check(_, _) => 2 * big + 24
    case TryLock(_, _) => 2 * big + 23
    case Reload(_) => 2 * big + 22
    case Allocate(_, _) => 2 * big + 21
    case Unlock(_, _) => 2 * big + 20
    case Fits(_, _) => 2 * big + 19
    case Create(_, _) => 2 * big + 18
    case Insert(main, _, steps) => 2 * ToGo(s, main, steps) + 3
    case CasInsert(main, _, steps) => 2 * ToGo(s, main, steps) + 2
    case StoreNew(_, _, _) => 1
    case _ => 0
  }

  predicate Within(big: nat, tables: seq<Table>) {
    forall j :: 0 <= j < |tables| ==> Capacity(tables[j]) <= big
  }

  // A larger table that the call may still allocate has at most `big` slots.
  predicate Reserve(big: nat, s: State, newCount: int)
    requires 0 < |s.tables|
  {
    Pow2(NewSize(s.tables[Main(s)].size, newCount)) <= big
  }

  // What a call knows that found nobody else at work on a larger table.
  predicate Undisturbed(big: nat, s: State, pc: Pc)
    requires 0 < |s.tables|
  {
    match pc
    case Idle => !s.resizing && Reserve(big, s, s.count + 1)
    case LoadMain => !s.resizing && Reserve(big, s, s.count + 1)
    case Probe(main, _, _) => !s.resizing && main == Main(s) && Reserve(big, s, s.count + 1)
    case AddCount(main) => !s.resizing && main == Main(s) && Reserve(big, s, s.count + 1)
    case Check(main, newCount) => !s.resizing && main == Main(s) && Reserve(big, s, newCount)
    case TryLock(main, newCount) =>
      !s.resizing && main == Main(s) && Reserve(big, s, newCount) && Capacity(s.tables[main]) / 2 <= newCount
    case Reload(newCount) => Reserve(big, s, newCount) && Capacity(s.tables[Main(s)]) / 2 <= newCount
    case Allocate(main, newCount) => main == Main(s) && Reserve(big, s, newCount)
    case Unlock(main, newCount) => main < |s.tables| && newCount < Quota(s.tables[main])
    case Fits(main, newCount) => main < |s.tables| && newCount < Quota(s.tables[main])
    case ReloadMain(_) => false
    case _ => !Failing(pc)
  }

  predicate Ready(big: nat, s: State, t: nat) {
    t < |s.pcs| && 0 < |s.tables| && Within(big, s.tables) && Undisturbed(big, s, s.pcs[t])
  }

  // One step of the search for the id.
  lemma SearchAdvances(hashes: seq<nat>, big: nat, s: State, t: nat, supply: Supply)
    requires Enabled(hashes, s, t) && Ready(big, s, t)
    requires s.pcs[t].Idle? || s.pcs[t].LoadMain? || s.pcs[t].Probe? || s.pcs[t].ReadValue?
    requires s.pcs[t].Probe? ==> s.pcs[t].table < |s.tables| && s.pcs[t].steps < Capacity(s.tables[s.pcs[t].table])
    requires s.pcs[t].ReadValue? ==> s.pcs[t].main < |s.tables|
    ensures var s' := Step(hashes, s, t, supply);
      Ready(big, s', t) && StepsLeft(big, s', s'.pcs[t]) < StepsLeft(big, s, s.pcs[t])
  {
    hide NewSize, KeyAt, Slot;
  }

  // A look at a slot.
  lemma LookAdvances(hashes: seq<nat>, big: nat, s: State, t: nat, supply: Supply)
    requires Enabled(hashes, s, t) && Ready(big, s, t) && (s.pcs[t].Migrate? || s.pcs[t].Insert?)
    requires s.pcs[t].steps < Capacity(s.tables[s.pcs[t].main])
    ensures var s' := Step(hashes, s, t, supply);
      Ready(big, s', t) && StepsLeft(big, s', s'.pcs[t]) < StepsLeft(big, s, s.pcs[t])
  {
    hide NewSize, KeyAt;
  }

  // The store of a key or a value leaves the tables as large as they are.
  lemma SameTables(big: nat, s: State, s': State)
    requires |s'.tables| == |s.tables| && forall j :: 0 <= j < |s.tables| ==> s'.tables[j].size == s.tables[j].size
    ensures Within(big, s.tables) ==> Within(big, s'.tables)
    ensures forall j: nat, steps: nat :: ToGo(s', j, steps) == ToGo(s, j, steps)
  {}

  lemma ClaimAdvances(hashes: seq<nat>, big: nat, s: State, t: nat, supply: Supply)
    requires Enabled(hashes, s, t) && Ready(big, s, t) && (s.pcs[t].CasMigrate? || s.pcs[t].CasInsert?)
    requires s.pcs[t].steps < Capacity(s.tables[s.pcs[t].main])
    ensures var s' := Step(hashes, s, t, supply);
      Ready(big, s', t) && StepsLeft(big, s', s'.pcs[t]) < StepsLeft(big, s, s.pcs[t])
  {
    SameTables(big, s, Step(hashes, s, t, supply));
    hide NewSize, KeyAt, Within, Slot;
  }

  lemma StoreAdvances(hashes: seq<nat>, big: nat, s: State, t: nat, supply: Supply)
    requires Enabled(hashes, s, t) && Ready(big, s, t) && (s.pcs[t].StoreNew? || s.pcs[t].StoreMigrated?)
    ensures var s' := Step(hashes, s, t, supply);
      Ready(big, s', t) && StepsLeft(big, s', s'.pcs[t]) < StepsLeft(big, s, s.pcs[t])
  {
    SameTables(big, s, Step(hashes, s, t, supply));
    hide NewSize, KeyAt, Within;
  }

  lemma AllocateAdvances(hashes: seq<nat>, big: nat, s: State, t: nat, supply: Supply)
    requires Enabled(hashes, s, t) && Ready(big, s, t) && !Refused(s, t, supply) && s.pcs[t].Allocate?
    ensures var s' := Step(hashes, s, t, supply);
      Ready(big, s', t) && StepsLeft(big, s', s'.pcs[t]) < StepsLeft(big, s, s.pcs[t])
  {
    hide NewSize;
    NewSizeIsRoomy(s.tables[s.pcs[t].main].size, s.pcs[t].newCount);
  }

  lemma CreateAdvances(hashes: seq<nat>, big: nat, s: State, t: nat, supply: Supply)
    requires Enabled(hashes, s, t) && Ready(big, s, t) && !Refused(s, t, supply) && s.pcs[t].Create?
    requires s.pcs[t].main < |s.tables|
    ensures var s' := Step(hashes, s, t, supply);
      Ready(big, s', t) && StepsLeft(big, s', s'.pcs[t]) < StepsLeft(big, s, s.pcs[t])
  {
    hide NewSize;
  }

  // One step of the loop that makes room.
  lemma CountingAdvances(hashes: seq<nat>, big: nat, s: State, t: nat, supply: Supply)
    requires Enabled(hashes, s, t) && Ready(big, s, t)
    requires s.pcs[t].AddCount? || s.pcs[t].Check? || s.pcs[t].TryLock? || s.pcs[t].Reload? || s.pcs[t].Unlock?
             || s.pcs[t].Fits?
    ensures var s' := Step(hashes, s, t, supply);
      Ready(big, s', t) && StepsLeft(big, s', s'.pcs[t]) < StepsLeft(big, s, s.pcs[t])
  {
    hide NewSize, Without, Rows, ToGo, Within;
  }

  // What the invariant says of where the thread stands.
  lemma PlaceFacts(hashes: seq<nat>, s: State, t: nat)
    requires Inv(hashes, s) && t < |s.pcs|
    ensures s.pcs[t].Probe? ==> s.pcs[t].table < |s.tables| && s.pcs[t].steps < Capacity(s.tables[s.pcs[t].table])
    ensures s.pcs[t].ReadValue? || s.pcs[t].Create? ==> s.pcs[t].main < |s.tables|
    ensures s.pcs[t].Migrate? || s.pcs[t].CasMigrate? || s.pcs[t].Insert? || s.pcs[t].CasInsert? ==>
      s.pcs[t].main < |s.tables| && s.pcs[t].steps < Capacity(s.tables[s.pcs[t].main])
    ensures s.pcs[t].Done? && s.pcs[t].result.Some? ==> Owns(s.owner, t, s.pcs[t].result.value)
  {
    ProbesEnd(hashes, s, t);
    hide ChainOk, OrderOk, OrderUsed, ValuesOk, LockOk, OwnersDiffer;
    assert PcOk(hashes[t], s.tables, s.order, s.tickets, s.owner, t, s.pcs[t]);
  }

  /** A call that ends with a producer leaves its thread's id in the table that was the newest when it looked, wherever it
      found it: ids met in older tables have been copied. */
  lemma EndsRegistered(hashes: seq<nat>, s: State, t: nat, supply: Supply)
    requires Inv(hashes, s) && t < |s.pcs| && Enabled(hashes, s, t) && !s.pcs[t].Done?
    ensures var pc, (s', pc') := s.pcs[t], Perform(hashes, s, t, supply);
      pc'.Done? && pc'.result.Some? ==>
        && (pc.ReadValue? || pc.StoreMigrated? || pc.StoreNew?)
        && pc.main < |s'.tables| && Some(t) in s'.tables[pc.main].keys && Present(s'.tables, t)
  {
    hide ChainOk, OrderOk, OrderUsed, ValuesOk, LockOk, OwnersDiffer;
    assert PcOk(hashes[t], s.tables, s.order, s.tickets, s.owner, t, s.pcs[t]);
    var pc := s.pcs[t];
    var s' := Perform(hashes, s, t, supply).0;
    if pc.ReadValue? {
      assert s'.tables[pc.table].keys[pc.slot] == Some(t);
    } else if pc.StoreMigrated? || pc.StoreNew? {
      assert s'.tables[pc.main].keys[pc.slot] == Some(t);
    }
  }

  /** Each step of a call that nobody disturbs and that is refused nothing brings it closer to its end. */
  lemma CallAdvances(hashes: seq<nat>, big: nat, s: State, t: nat, supply: Supply)
    requires Inv(hashes, s) && Ready(big, s, t) && !s.pcs[t].Done? && !Refused(s, t, supply)
    ensures Enabled(hashes, s, t) && Inv(hashes, Step(hashes, s, t, supply))
    ensures var s' := Step(hashes, s, t, supply);
      Ready(big, s', t) && StepsLeft(big, s', s'.pcs[t]) < StepsLeft(big, s, s.pcs[t])
  {
    hide Inv, Step, Enabled, StepsLeft, Refused, Within, NewSize;
    StepKeepsInv(hashes, s, t, supply);
    PlaceFacts(hashes, s, t);
    var pc := s.pcs[t];
    if pc.Idle? || pc.LoadMain? || pc.Probe? || pc.ReadValue? {
      SearchAdvances(hashes, big, s, t, supply);
    } else if pc.Migrate? || pc.Insert? {
      LookAdvances(hashes, big, s, t, supply);
    } else if pc.CasMigrate? || pc.CasInsert? {
      ClaimAdvances(hashes, big, s, t, supply);
    } else if pc.StoreNew? || pc.StoreMigrated? {
      StoreAdvances(hashes, big, s, t, supply);
    } else if pc.Allocate? {
      AllocateAdvances(hashes, big, s, t, supply);
    } else if pc.Create? {
      CreateAdvances(hashes, big, s, t, supply);
    } else {
      CountingAdvances(hashes, big, s, t, supply);
    }
  }

  // The call of thread t is over, and the thread is registered with the producer it was given.
  ghost predicate Registered(s: State, t: nat) {
    && t < |s.pcs| && s.pcs[t].Done? && s.pcs[t].result.Some?
    && Owns(s.owner, t, s.pcs[t].result.value) && Present(s.tables, t)
  }

  lemma {:induction false} CallEnds(hashes: seq<nat>, big: nat, s: State, t: nat, supplies: seq<Supply>)
    requires Inv(hashes, s) && Ready(big, s, t) && NeverRefused(hashes, s, t, supplies)
    requires StepsLeft(big, s, s.pcs[t]) <= |supplies|
    requires s.pcs[t].Done? ==> Present(s.tables, t)
    ensures Inv(hashes, Call(hashes, s, t, supplies)) && Registered(Call(hashes, s, t, supplies), t)
    decreases |supplies|
  {
    hide Inv, Enabled, StepsLeft, Refused, Within, NewSize, Perform;
    PlaceFacts(hashes, s, t);
    if s.pcs[t].Done? {
    } else {
      SomeStepLeft(big, s, t);
      StepKeepsInv(hashes, s, t, supplies[0]);
      CallAdvances(hashes, big, s, t, supplies[0]);
      EndsRegistered(hashes, s, t, supplies[0]);
      OneStepMoves(hashes, s, t, supplies[0]);
      DoneIsSome(big, Step(hashes, s, t, supplies[0]), t);
      CallEnds(hashes, big, Step(hashes, s, t, supplies[0]), t, supplies[1..]);
    }
  }

  lemma SomeStepLeft(big: nat, s: State, t: nat)
    requires Ready(big, s, t) && !s.pcs[t].Done?
    ensures 1 <= StepsLeft(big, s, s.pcs[t])
  {}

  lemma DoneIsSome(big: nat, s: State, t: nat)
    requires Ready(big, s, t)
    ensures s.pcs[t].Done? ==> s.pcs[t].result.Some?
  {}

  // The largest table there is, or that the call may need.
  function Largest(s: State): nat
    requires 0 < |s.tables|
  {
    Pow2(NewSize(s.tables[Main(s)].size, s.count + 1))
  }

  lemma LargestBounds(hashes: seq<nat>, s: State)
    requires Inv(hashes, s)
    ensures 0 < |s.tables| && Within(Largest(s), s.tables)
  {
    hide OrderOk, OrderUsed, PcsOk, LockOk, ValuesOk, OwnersDiffer, TableOk;
    NewSizeIsRoomy(s.tables[Main(s)].size, s.count + 1);
    hide NewSize, Quota;
    forall j | 0 <= j < |s.tables| ensures Capacity(s.tables[j]) <= Largest(s) {
      assert s.tables[j].size <= s.tables[Main(s)].size;
      Pow2Grows(s.tables[j].size, NewSize(s.tables[Main(s)].size, s.count + 1));
    }
  }

  /** A call run alone, wherever the other threads stand, as long as none of them is at work on a larger table: refused
      nothing, it ends after a bounded number of its steps with a producer, and its thread is registered with it. */
  lemma GrantedCallRegisters(hashes: seq<nat>, s: State, t: nat, supplies: seq<Supply>)
    requires Inv(hashes, s) && t < |s.pcs| && s.pcs[t].Idle? && !s.resizing
    requires NeverRefused(hashes, s, t, supplies)
    requires 0 < |s.tables| && Rows(|s.tables|, Largest(s)) + 2 * Largest(s) + 30 <= |supplies|
    ensures Inv(hashes, Call(hashes, s, t, supplies)) && Registered(Call(hashes, s, t, supplies), t)
  {
    hide Inv, NewSize, Rows;
    LargestBounds(hashes, s);
    CallEnds(hashes, Largest(s), s, t, supplies);
  }

  // Fresh producers are granted: none of them is anybody's yet, and no request for memory is refused.
  predicate Fresh(s: State, supplies: seq<Supply>) {
    forall i :: 0 <= i < |supplies| ==> supplies[i].Granted? && supplies[i].id !in s.owner.Values
  }

  // The requests of a call that has its producer, or still has to ask for it.
  lemma {:induction false} FreshIsNotRefused(hashes: seq<nat>, s: State, t: nat, supplies: seq<Supply>)
    requires t < |s.pcs| && (Fresh(s, supplies) || HasProducer(s.pcs[t]))
    ensures NeverRefused(hashes, s, t, supplies)
    decreases |supplies|
  {
    hide Perform, Enabled;
    if |supplies| > 0 && Enabled(hashes, s, t) && !s.pcs[t].Done? {
      OneStepMoves(hashes, s, t, supplies[0]);
      KeepsFresh(hashes, s, t, supplies[0]);
      var s' := Step(hashes, s, t, supplies[0]);
      assert s'.owner == Perform(hashes, s, t, supplies[0]).0.owner;
      FreshIsNotRefused(hashes, s', t, supplies[1..]);
    }
  }

  predicate HasProducer(pc: Pc) {
    || pc.Insert? || pc.CasInsert? || pc.StoreNew? || pc.Done? || pc.GiveBack? || pc.GiveBackLocked? || pc.UnlockFailed?
  }

  lemma KeepsFresh(hashes: seq<nat>, s: State, t: nat, supply: Supply)
    requires Enabled(hashes, s, t) && !s.pcs[t].Done?
    ensures var (s', pc') := Perform(hashes, s, t, supply);
      && (HasProducer(s.pcs[t]) ==> HasProducer(pc'))
      && (!HasProducer(pc') ==> s'.owner == s.owner)
  {}

  /** In particular with fresh producers. */
  lemma FreshCallRegisters(hashes: seq<nat>, s: State, t: nat, supplies: seq<Supply>)
    requires Inv(hashes, s) && t < |s.pcs| && s.pcs[t].Idle? && !s.resizing && Fresh(s, supplies)
    requires 0 < |s.tables| && Rows(|s.tables|, Largest(s)) + 2 * Largest(s) + 30 <= |supplies|
    ensures Inv(hashes, Call(hashes, s, t, supplies)) && Registered(Call(hashes, s, t, supplies), t)
  {
    FreshIsNotRefused(hashes, s, t, supplies);
    GrantedCallRegisters(hashes, s, t, supplies);
  }
}
