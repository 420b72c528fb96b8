/** The loops and the in-place steps of get_or_add_implicit_producer, against the machine of ProducerHash. */
module ProducerHashLoops {
  import opened Common
  import opened Words
  import opened ProducerHash

  // A table whose keys are these.
  function TableOf(size: nat, keys: seq<Option<nat>>): Table { Table(size, keys, []) }

  ghost predicate HasEmpty(keys: seq<Option<nat>>) { exists p :: 0 <= p < |keys| && keys[p].None? }

  // A probe cannot pass every slot of a table with an empty one.
  lemma PassedStops(h: Table, hash: nat, t: nat, steps: nat)
    requires |h.keys| == Pow2(h.size) && HasEmpty(h.keys) && Passed(h, hash, t, steps)
    ensures steps < Pow2(h.size)
  {
    var p :| 0 <= p < |h.keys| && h.keys[p].None?;
    SlotAtDistance(h, hash, p);
    assert KeyAt(h, hash, Distance(h, hash, p)).None?;
  }

  // A probe for the id ends at an empty slot.
  ghost predicate MeetsEmpty(h: Table, hash: nat, id: nat)
    requires |h.keys| == Pow2(h.size)
  {
    exists d: nat :: Passed(h, hash, id, d) && KeyAt(h, hash, d).None?
  }

  /** In a table in order a probe ends at an empty slot exactly when the id is not in the table. */
  lemma MeetsEmptyIffAbsent(h: Table, hashes: seq<nat>, order: seq<nat>, tickets: map<nat, int>, id: nat)
    requires |h.keys| == Pow2(h.size) && TableOk(h, hashes, order, tickets) && id < |hashes| && HasEmpty(h.keys)
    ensures MeetsEmpty(h, hashes[id], id) <==> Some(id) !in h.keys
  {
    if MeetsEmpty(h, hashes[id], id) {
      var d: nat :| Passed(h, hashes[id], id, d) && KeyAt(h, hashes[id], d).None?;
      EmptyMeansAbsent(h, hashes, order, tickets, id, d);
    } else if Some(id) !in h.keys {
      NeverMeetsEmpty(h, hashes[id], id, Pow2(h.size));
      PassedStops(h, hashes[id], id, Pow2(h.size));
      assert false;
    }
  }

  lemma {:induction false} NeverMeetsEmpty(h: Table, hash: nat, id: nat, steps: nat)
    requires |h.keys| == Pow2(h.size) && Some(id) !in h.keys && !MeetsEmpty(h, hash, id)
    ensures Passed(h, hash, id, steps)
  {
    if steps > 0 {
      NeverMeetsEmpty(h, hash, id, steps - 1);
      assert KeyAt(h, hash, steps - 1) in h.keys;
    }
  }

  /** The search loop has no exit but finding the id or an empty slot, and it ends. */
  method Search(size: nat, keys: array<Option<nat>>, hashedId: nat, id: nat) returns (found: Option<nat>)
    requires keys.Length == Pow2(size) && HasEmpty(keys[..])
    ensures found.Some? ==> found.value < keys.Length && keys[found.value] == Some(id)
    ensures found.None? ==> MeetsEmpty(TableOf(size, keys[..]), hashedId, id)
  {
    ghost var h := TableOf(size, keys[..]);
    ghost var steps: nat := 0;
    var index := hashedId;
    while true
      invariant Passed(h, hashedId, id, steps) && index % Pow2(size) == Slot(h, hashedId, steps)
      decreases Pow2(size) - steps
    {
      PassedStops(h, hashedId, id, steps);
      index := index % keys.Length;
      var probedKey := keys[index];
      assert probedKey == KeyAt(h, hashedId, steps);
      if probedKey == Some(id) {
        return Some(index);
      }
      if probedKey.None? {
        assert KeyAt(h, hashedId, steps).None?;
        assert MeetsEmpty(h, hashedId, id) && TableOf(size, keys[..]) == h;
        return None;
      }
      NextSlot(h, hashedId, steps);
      index := index + 1;
      steps := steps + 1;
    }
  }

  /** The insertion loop takes the first empty slot of the probe sequence, and ends. */
  method Insert(size: nat, keys: array<Option<nat>>, hashedId: nat, id: nat) returns (index: nat)
    requires keys.Length == Pow2(size) && HasEmpty(keys[..]) && Some(id) !in keys[..]
    modifies keys
    ensures index < keys.Length && old(keys[index]).None? && keys[..] == old(keys[..])[index := Some(id)]
    ensures exists d: nat :: Passed(TableOf(size, old(keys[..])), hashedId, id, d)
                             && index == Slot(TableOf(size, old(keys[..])), hashedId, d)
  {
    ghost var h := TableOf(size, keys[..]);
    ghost var steps: nat := 0;
    index := hashedId;
    while true
      invariant keys[..] == h.keys && Passed(h, hashedId, id, steps) && index % Pow2(size) == Slot(h, hashedId, steps)
      decreases Pow2(size) - steps
    {
      PassedStops(h, hashedId, id, steps);
      index := index % keys.Length;
      assert keys[index] == KeyAt(h, hashedId, steps);
      if keys[index].None? {
        keys[index] := Some(id);
        return;
      }
      assert h.keys[index] in h.keys;
      NextSlot(h, hashedId, steps);
      index := index + 1;
      steps := steps + 1;
    }
  }

  /** The doubling loop. */
  method NewCapacity(size: nat, newCount: int) returns (newCapacity: int)
    ensures newCapacity == Pow2(NewSize(size, newCount))
  {
    newCapacity := Pow2(size) * 2;
    ghost var reached: nat := size + 1;
    while newCount >= newCapacity / 2
      invariant newCapacity == Pow2(reached) && 1 <= reached && NewSize(reached - 1, newCount) == NewSize(size, newCount)
      decreases newCount + 1 - newCapacity / 2
    {
      newCapacity := newCapacity * 2;
      reached := reached + 1;
    }
  }

  /** The shared state of the hash chain. Advance performs the next atomic access of one thread inside
      get_or_add_implicit_producer. */
  class SharedHash {
    const hashes: seq<nat>
    var tables: seq<Table>
    var implicitProducerHashCount: int
    var resizeInProgress: bool
    var pcs: seq<Pc>
    var created: map<nat, nat>
    ghost var order: seq<nat>
    ghost var tickets: map<nat, int>

    ghost function Abs(): State
      reads this
    {
      State(tables, implicitProducerHashCount, resizeInProgress, pcs, order, tickets, created)
    }

    constructor (hashes: seq<nat>, size: nat)
      ensures this.hashes == hashes && Initial(hashes, Abs()) && tables == [Empty(size)]
    {
      this.hashes := hashes;
      tables := [Empty(size)];
      implicitProducerHashCount, resizeInProgress, created := 0, false, map[];
      pcs := seq(|hashes|, _ => Idle);
      order, tickets := [], map[];
    }

    method Search(t: nat)
      requires Enabled(hashes, Abs(), t)
      requires pcs[t].Idle? || pcs[t].LoadMain? || pcs[t].Probe? || pcs[t].ReadValue? || pcs[t].Done?
      modifies this
      ensures Abs() == Step(hashes, old(Abs()), t, Nothing)
    {
      match pcs[t]
      case Idle => pcs := pcs[t := LoadMain];
      case LoadMain => pcs := pcs[t := Probe(|tables| - 1, |tables| - 1, 0)];
      case Probe(main, table, steps) =>
        var index := (hashes[t] + steps) % Pow2(tables[table].size);
        var probedKey := tables[table].keys[index];
        if probedKey == Some(t) {
          pcs := pcs[t := ReadValue(main, table, index)];
        } else if probedKey.Some? {
          pcs := pcs[t := Probe(main, table, steps + 1)];
        } else if table == 0 {
          pcs := pcs[t := AddCount(main)];
        } else {
          pcs := pcs[t := Probe(main, table - 1, 0)];
        }
      case ReadValue(main, table, slot) =>
        var value := tables[table].values[slot].value;
        pcs := pcs[t := if table == main then Done(Some(value)) else Migrate(main, value, 0)];
      case Done(_) => pcs := pcs[t := Idle];
    }

    method StoreKey(main: nat, index: nat, id: nat)
      requires main < |tables| && index < |tables[main].keys|
      modifies this`tables
      ensures tables == old(tables)[main := old(tables)[main].(keys := old(tables)[main].keys[index := Some(id)])]
    {
      var h := tables[main];
      tables := tables[main := h.(keys := h.keys[index := Some(id)])];
    }

    method StoreValue(main: nat, index: nat, value: nat)
      requires main < |tables| && index < |tables[main].values|
      modifies this`tables
      ensures tables == old(tables)[main := old(tables)[main].(values := old(tables)[main].values[index := Some(value)])]
    {
      var h := tables[main];
      tables := tables[main := h.(values := h.values[index := Some(value)])];
    }

    method TakeSlot(t: nat)
      requires Enabled(hashes, Abs(), t)
      requires var pc := pcs[t];
        pc.Migrate? || pc.CasMigrate? || pc.StoreMigrated? || pc.Insert? || pc.CasInsert? || pc.StoreNew?
      modifies this
      ensures Abs() == Step(hashes, old(Abs()), t, Nothing)
    {
      var main := pcs[t].main;
      match pcs[t]
      case Migrate(_, value, steps) =>
        var index := (hashes[t] + steps) % Pow2(tables[main].size);
        pcs := pcs[t := if tables[main].keys[index].None? then CasMigrate(main, value, steps)
                        else Migrate(main, value, steps + 1)];
      case CasMigrate(_, value, steps) =>
        var index := (hashes[t] + steps) % Pow2(tables[main].size);
        if tables[main].keys[index].None? {
          StoreKey(main, index, t);
          pcs := pcs[t := StoreMigrated(main, index, value)];
        } else {
          pcs := pcs[t := Migrate(main, value, steps + 1)];
        }
      case StoreMigrated(_, slot, value) =>
        StoreValue(main, slot, value);
        pcs := pcs[t := Done(Some(value))];
      case Insert(_, value, steps) =>
        var index := (hashes[t] + steps) % Pow2(tables[main].size);
        pcs := pcs[t := if tables[main].keys[index].None? then CasInsert(main, value, steps)
                        else ProducerHash.Pc.Insert(main, value, steps + 1)];
      case CasInsert(_, value, steps) =>
        var index := (hashes[t] + steps) % Pow2(tables[main].size);
        if tables[main].keys[index].None? {
          StoreKey(main, index, t);
          pcs := pcs[t := StoreNew(main, index, value)];
        } else {
          pcs := pcs[t := ProducerHash.Pc.Insert(main, value, steps + 1)];
        }
      case StoreNew(_, slot, value) =>
        StoreValue(main, slot, value);
        pcs := pcs[t := Done(Some(value))];
    }

    method Register(t: nat, supply: Supply)
      requires Enabled(hashes, Abs(), t)
      requires var pc := pcs[t];
        pc.AddCount? || pc.Check? || pc.Fits? || pc.ReloadMain? || pc.Create? || pc.GiveBack?
      modifies this
      ensures Abs() == Step(hashes, old(Abs()), t, supply)
    {
      match pcs[t]
      case AddCount(main) =>
        var newCount := 1 + implicitProducerHashCount;
        implicitProducerHashCount := implicitProducerHashCount + 1;
        order, tickets := order + [t], tickets[t := newCount];
        pcs := pcs[t := Check(main, newCount)];
      case Check(main, newCount) =>
        pcs := pcs[t := if newCount >= Pow2(tables[main].size) / 2 then TryLock(main, newCount) else Fits(main, newCount)];
      case Fits(main, newCount) =>
        var capacity := Pow2(tables[main].size);
        pcs := pcs[t := if newCount < capacity / 2 + capacity / 4 then Create(main, newCount) else ReloadMain(newCount)];
      case ReloadMain(newCount) => pcs := pcs[t := Check(|tables| - 1, newCount)];
      case Create(main, newCount) =>
        if supply.Granted? && supply.id !in created.Values {
          created := created[t := supply.id];
          pcs := pcs[t := ProducerHash.Pc.Insert(main, supply.id, 0)];
        } else {
          pcs := pcs[t := GiveBack];
        }
      case GiveBack =>
        implicitProducerHashCount := implicitProducerHashCount - 1;
        order := Without(order, t);
        pcs := pcs[t := Done(None)];
    }

    method Resize(t: nat, supply: Supply)
      requires Enabled(hashes, Abs(), t)
      requires Locked(pcs[t]) || pcs[t].TryLock?
      modifies this
      ensures Abs() == Step(hashes, old(Abs()), t, supply)
    {
      match pcs[t]
      case TryLock(main, newCount) =>
        if resizeInProgress {
          pcs := pcs[t := Fits(main, newCount)];
        } else {
          resizeInProgress := true;
          pcs := pcs[t := Reload(newCount)];
        }
      case Reload(newCount) =>
        var main := |tables| - 1;
        pcs := pcs[t := if newCount >= Pow2(tables[main].size) / 2 then Allocate(main, newCount) else Unlock(main, newCount)];
      case Allocate(main, newCount) =>
        if supply.Nothing? {
          pcs := pcs[t := GiveBackLocked];
        } else {
          pcs := pcs[t := Unlock(|tables|, newCount)];
          tables := tables + [Empty(NewSize(tables[main].size, newCount))];
        }
      case GiveBackLocked =>
        implicitProducerHashCount := implicitProducerHashCount - 1;
        order := Without(order, t);
        pcs := pcs[t := UnlockFailed];
      case UnlockFailed =>
        resizeInProgress := false;
        pcs := pcs[t := Done(None)];
      case Unlock(main, newCount) =>
        resizeInProgress := false;
        pcs := pcs[t := Fits(main, newCount)];
    }

    /** The next atomic access of a thread. While the invariant holds there is always one, and it holds again. */
    method Do(t: nat, supply: Supply)
      requires Inv(hashes, Abs()) && t < |pcs|
      modifies this
      ensures Inv(hashes, Abs()) && Enabled(hashes, old(Abs()), t)
      ensures Abs() == Step(hashes, old(Abs()), t, supply)
    {
      hide Inv, Enabled, Step;
      StepKeepsInv(hashes, Abs(), t, supply);
      if !pcs[t].Create? && !pcs[t].Allocate? {
        OnlyCreationAsks(hashes, Abs(), t, supply);
      }
      match pcs[t] {
        case Idle => Search(t);
        case LoadMain => Search(t);
        case Probe(_, _, _) => Search(t);
        case ReadValue(_, _, _) => Search(t);
        case Done(_) => Search(t);
        case Migrate(_, _, _) => TakeSlot(t);
        case CasMigrate(_, _, _) => TakeSlot(t);
        case StoreMigrated(_, _, _) => TakeSlot(t);
        case Insert(_, _, _) => TakeSlot(t);
        case CasInsert(_, _, _) => TakeSlot(t);
        case StoreNew(_, _, _) => TakeSlot(t);
        case AddCount(_) => Register(t, supply);
        case Check(_, _) => Register(t, supply);
        case Fits(_, _) => Register(t, supply);
        case ReloadMain(_) => Register(t, supply);
        case Create(_, _) => Register(t, supply);
        case GiveBack => Register(t, supply);
        case _ => Resize(t, supply);
      }
    }

    /** The object driven through any schedule is where the machine's run is. */
    method Follow(schedule: seq<Turn>)
      requires Inv(hashes, Abs())
      modifies this
      ensures Inv(hashes, Abs()) && Abs() == Run(hashes, old(Abs()), schedule)
      decreases |schedule|
    {
      hide Inv, Step;
      if |schedule| > 0 {
        if schedule[0].thread < |pcs| {
          Do(schedule[0].thread, schedule[0].supply);
        }
        Follow(schedule[1..]);
      }
    }
  }

  // What the allocator would answer matters to nobody else.
  lemma OnlyCreationAsks(hashes: seq<nat>, s: State, t: nat, supply: Supply)
    requires Enabled(hashes, s, t) && !s.pcs[t].Create? && !s.pcs[t].Allocate?
    ensures Step(hashes, s, t, supply) == Step(hashes, s, t, Nothing)
  {}

  /** A hash from its constructor through any schedule: the invariant holds at the end. */
  method FollowFromStart(hashes: seq<nat>, size: nat, schedule: seq<Turn>) returns (hash: SharedHash)
    ensures fresh(hash) && hash.hashes == hashes && Inv(hashes, hash.Abs())
  {
    hash := new SharedHash(hashes, size);
    EveryRunKeepsInv(hashes, hash.Abs(), []);
    hash.Follow(schedule);
  }
}
