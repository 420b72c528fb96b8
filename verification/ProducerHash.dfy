/** The hash table chain that maps thread ids to implicit producers: lock-free insertion, resizing under a try-lock, and
    lazy migration of ids found in older tables. Thread ids are the thread numbers; ids are never removed. */
module ProducerHash {
  import opened Common
  import opened Words

  // A table of 2^size entries; a key of None is invalid_thread_id.
  datatype Table = Table(size: nat, keys: seq<Option<nat>>, values: seq<Option<nat>>)

  // Where a thread stands inside get_or_add_implicit_producer: the constructor names the next atomic access. A probe
  // has looked at `steps` slots before the next one. Tables are named by their place in the chain.
  datatype Pc =
    | Idle
    | LoadMain
    | Probe(main: nat, table: nat, steps: nat)
    | ReadValue(main: nat, table: nat, slot: nat)
    | Migrate(main: nat, value: nat, steps: nat)
    | CasMigrate(main: nat, value: nat, steps: nat)
    | StoreMigrated(main: nat, slot: nat, value: nat)
    | AddCount(main: nat)
    | Check(main: nat, newCount: int)
    | TryLock(main: nat, newCount: int)
    | Reload(newCount: int)
    | Allocate(main: nat, newCount: int)
    | GiveBackLocked
    | UnlockFailed
    | Unlock(main: nat, newCount: int)
    | Fits(main: nat, newCount: int)
    | ReloadMain(newCount: int)
    | Create(main: nat, newCount: int)
    | GiveBack
    | Insert(main: nat, value: nat, steps: nat)
    | CasInsert(main: nat, value: nat, steps: nat)
    | StoreNew(main: nat, slot: nat, value: nat)
    | Done(result: Option<nat>)

  // implicitProducerHashCount, implicitProducerHashResizeInProgress and the tables, the main one last; each table's
  // prev is the one before it. Auxiliary: `order`, the threads whose increment of the count stands, in the order they
  // made it; `tickets`, what each of them read; `owner`, the producer created for a thread.
  datatype State = State(
    tables: seq<Table>,
    count: int,
    resizing: bool,
    pcs: seq<Pc>,
    order: seq<nat>,
    tickets: map<nat, int>,
    owner: map<nat, nat>)

  // What the allocator answers.
  datatype Supply = Nothing | Granted(id: nat)

  function Capacity(h: Table): int { Pow2(h.size) }

  // index & (capacity - 1), `steps` increments after it started at the hashed id.
  function Slot(h: Table, hash: nat, steps: nat): int { (hash + steps) % Pow2(h.size) }

  // Three quarters of the capacity, as the code computes it.
  function Quota(h: Table): int { Capacity(h) / 2 + Capacity(h) / 4 }

  // The capacity is doubled until the count is below half of it.
  function NewSize(size: nat, newCount: int): nat
    decreases newCount + 1 - Pow2(size) / 2
  {
    if newCount < Pow2(size + 1) / 2 then size + 1 else NewSize(size + 1, newCount)
  }

  function Empty(size: nat): Table {
    Table(size, seq(Pow2(size), _ => None), seq(Pow2(size), _ => None))
  }

  function Main(s: State): nat
    requires 0 < |s.tables|
  {
    |s.tables| - 1
  }

  predicate TablesOk(tables: seq<Table>) {
    && 0 < |tables|
    && forall j :: 0 <= j < |tables| ==> |tables[j].keys| == |tables[j].values| == Pow2(tables[j].size)
  }

  // A thread in the retry loop of an insertion, whose increment of the count still stands.
  predicate Holding(pc: Pc) {
    || pc.Check? || pc.TryLock? || pc.Reload? || pc.Allocate? || pc.GiveBackLocked? || pc.Unlock? || pc.Fits?
    || pc.ReloadMain? || pc.Create? || pc.GiveBack? || pc.Insert? || pc.CasInsert?
  }

  predicate Enabled(hashes: seq<nat>, s: State, t: nat) {
    && TablesOk(s.tables) && t < |s.pcs| && |hashes| == |s.pcs|
    && match s.pcs[t]
       case Probe(_, table, _) => table < |s.tables|
       case ReadValue(_, table, slot) =>
         table < |s.tables| && slot < |s.tables[table].values| && s.tables[table].values[slot].Some?
       case Migrate(main, _, _) => main < |s.tables|
       case CasMigrate(main, _, _) => main < |s.tables|
       case StoreMigrated(main, slot, _) => main < |s.tables| && slot < |s.tables[main].values|
       case Check(main, _) => main < |s.tables|
       case Allocate(main, _) => main < |s.tables|
       case Fits(main, _) => main < |s.tables|
       case Insert(main, _, _) => main < |s.tables|
       case CasInsert(main, _, _) => main < |s.tables|
       case StoreNew(main, slot, _) => main < |s.tables| && slot < |s.tables[main].values|
       case _ => true
  }

  function Without(order: seq<nat>, t: nat): seq<nat> {
    if |order| == 0 then []
    else if order[|order| - 1] == t then Without(order[..|order| - 1], t)
    else Without(order[..|order| - 1], t) + [order[|order| - 1]]
  }

  function KeyAt(h: Table, hash: nat, steps: nat): Option<nat>
    requires |h.keys| == Pow2(h.size)
  {
    h.keys[Slot(h, hash, steps)]
  }

  // What a probe does with the key it loaded.
  function Probed(t: nat, pc: Pc, key: Option<nat>, slot: nat): Pc
    requires pc.Probe?
  {
    var Probe(main, table, steps) := pc;
    if key == Some(t) then ReadValue(main, table, slot)
    else if key.None? then (if table == 0 then AddCount(main) else Probe(main, table - 1, 0))
    else Probe(main, table, steps + 1)
  }

  function Claim(s: State, main: nat, slot: nat, t: nat): State
    requires main < |s.tables| && slot < |s.tables[main].keys|
  {
    var h := s.tables[main];
    s.(tables := s.tables[main := h.(keys := h.keys[slot := Some(t)])])
  }

  function Store(s: State, main: nat, slot: nat, value: nat): State
    requires main < |s.tables| && slot < |s.tables[main].values|
  {
    var h := s.tables[main];
    s.(tables := s.tables[main := h.(values := h.values[slot := Some(value)])])
  }

  function Perform(hashes: seq<nat>, s: State, t: nat, supply: Supply): (State, Pc)
    requires Enabled(hashes, s, t)
  {
    var hash := hashes[t];
    match s.pcs[t]
    case Idle => (s, LoadMain)
    case LoadMain => (s, Probe(Main(s), Main(s), 0))
    case Probe(main, table, steps) =>
      var h := s.tables[table];
      (s, Probed(t, s.pcs[t], KeyAt(h, hash, steps), Slot(h, hash, steps)))
    case ReadValue(main, table, slot) =>
      var value := s.tables[table].values[slot].value;
      (s, if table == main then Done(Some(value)) else Migrate(main, value, 0))
    case Migrate(main, value, steps) =>
      (s, if KeyAt(s.tables[main], hash, steps).None? then CasMigrate(main, value, steps) else Migrate(main, value, steps + 1))
    case CasMigrate(main, value, steps) =>
      var slot := Slot(s.tables[main], hash, steps);
      if KeyAt(s.tables[main], hash, steps).None? then (Claim(s, main, slot, t), StoreMigrated(main, slot, value))
      else (s, Migrate(main, value, steps + 1))
    case StoreMigrated(main, slot, value) => (Store(s, main, slot, value), Done(Some(value)))
    case AddCount(main) =>
      (s.(count := s.count + 1, order := s.order + [t], tickets := s.tickets[t := s.count + 1]), Check(main, s.count + 1))
    case Check(main, newCount) =>
      (s, if Capacity(s.tables[main]) / 2 <= newCount then TryLock(main, newCount) else Fits(main, newCount))
    case TryLock(main, newCount) =>
      if s.resizing then (s, Fits(main, newCount)) else (s.(resizing := true), Reload(newCount))
    case Reload(newCount) =>
      (s, if Capacity(s.tables[Main(s)]) / 2 <= newCount then Allocate(Main(s), newCount) else Unlock(Main(s), newCount))
    case Allocate(main, newCount) =>
      if supply.Nothing? then (s, GiveBackLocked)
      else (s.(tables := s.tables + [Empty(NewSize(s.tables[main].size, newCount))]), Unlock(|s.tables|, newCount))
    case GiveBackLocked => (s.(count := s.count - 1, order := Without(s.order, t)), UnlockFailed)
    case UnlockFailed => (s.(resizing := false), Done(None))
    case Unlock(main, newCount) => (s.(resizing := false), Fits(main, newCount))
    case Fits(main, newCount) =>
      (s, if newCount < Quota(s.tables[main]) then Create(main, newCount) else ReloadMain(newCount))
    case ReloadMain(newCount) => (s, Check(Main(s), newCount))
    case Create(main, newCount) =>
      if supply.Granted? && supply.id !in s.owner.Values
      then (s.(owner := s.owner[t := supply.id]), Insert(main, supply.id, 0))
      else (s, GiveBack)
    case GiveBack => (s.(count := s.count - 1, order := Without(s.order, t)), Done(None))
    case Insert(main, value, steps) =>
      (s, if KeyAt(s.tables[main], hash, steps).None? then CasInsert(main, value, steps) else Insert(main, value, steps + 1))
    case CasInsert(main, value, steps) =>
      var slot := Slot(s.tables[main], hash, steps);
      if KeyAt(s.tables[main], hash, steps).None? then (Claim(s, main, slot, t), StoreNew(main, slot, value))
      else (s, Insert(main, value, steps + 1))
    case StoreNew(main, slot, value) => (Store(s, main, slot, value), Done(Some(value)))
    case Done(_) => (s, Idle)
  }

  function Step(hashes: seq<nat>, s: State, t: nat, supply: Supply): State
    requires Enabled(hashes, s, t)
  {
    var (s', pc') := Perform(hashes, s, t, supply);
    s'.(pcs := s.pcs[t := pc'])
  }

  // ---- The invariant, part by part ----

  // Thread t is in none of the tables from lo on.
  ghost predicate Absent(tables: seq<Table>, lo: nat, t: nat) {
    forall j :: lo <= j < |tables| ==> Some(t) !in tables[j].keys
  }

  ghost predicate Present(tables: seq<Table>, t: nat) {
    exists j :: 0 <= j < |tables| && Some(t) in tables[j].keys
  }

  // The slots looked at were taken by other threads.
  ghost predicate Passed(h: Table, hash: nat, t: nat, steps: nat)
    requires |h.keys| == Pow2(h.size)
  {
    forall e :: 0 <= e < steps ==> KeyAt(h, hash, e).Some? && KeyAt(h, hash, e) != Some(t)
  }

  // How many steps from its hashed id a key is.
  function Distance(h: Table, hash: nat, slot: int): int { (slot - hash) % Pow2(h.size) }

  ghost predicate KeyOk(h: Table, hashes: seq<nat>, order: seq<nat>, tickets: map<nat, int>, slot: nat)
    requires |h.keys| == Pow2(h.size) && slot < |h.keys|
  {
    h.keys[slot].Some? ==>
      var t := h.keys[slot].value;
      && t < |hashes| && t in order && t in tickets && tickets[t] < Quota(h)
      && Passed(h, hashes[t], t, Distance(h, hashes[t], slot))
  }

  ghost predicate TableOk(h: Table, hashes: seq<nat>, order: seq<nat>, tickets: map<nat, int>)
    requires |h.keys| == Pow2(h.size)
  {
    && (forall p, q :: 0 <= p < q < |h.keys| && h.keys[p].Some? ==> h.keys[p] != h.keys[q])
    && (forall p :: 0 <= p < |h.keys| ==> KeyOk(h, hashes, order, tickets, p))
  }

  ghost predicate ChainOk(hashes: seq<nat>, tables: seq<Table>, order: seq<nat>, tickets: map<nat, int>)
    requires TablesOk(tables)
  {
    && (forall j :: 0 <= j < |tables| ==> TableOk(tables[j], hashes, order, tickets))
    && (forall i, j :: 0 <= i < j < |tables| ==> tables[i].size < tables[j].size)
  }

  ghost predicate Distinct(order: seq<nat>) {
    forall i, j :: 0 <= i < j < |order| ==> order[i] != order[j]
  }

  // The i-th standing increment, counting from one, was made when at least i stood.
  ghost predicate OrderOk(count: int, order: seq<nat>, tickets: map<nat, int>) {
    && count == |order| && Distinct(order)
    && forall k :: 0 <= k < |order| ==> order[k] in tickets && k + 1 <= tickets[order[k]]
  }

  ghost predicate Counted(order: seq<nat>, tickets: map<nat, int>, t: nat, newCount: int) {
    t in order && t in tickets && tickets[t] == newCount
  }

  ghost predicate Owns(owner: map<nat, nat>, t: nat, value: nat) { t in owner && owner[t] == value }

  ghost predicate KeyIs(tables: seq<Table>, main: nat, slot: nat, t: nat)
    requires TablesOk(tables)
  {
    main < |tables| && slot < |tables[main].keys| && tables[main].keys[slot] == Some(t)
  }

  ghost predicate PcOk(hash: nat, tables: seq<Table>, order: seq<nat>, tickets: map<nat, int>, owner: map<nat, nat>,
                       t: nat, pc: Pc)
    requires TablesOk(tables)
  {
    match pc
    case Idle => true
    case LoadMain => true
    case Probe(main, table, steps) =>
      table <= main < |tables| && Absent(tables, table + 1, t) && Passed(tables[table], hash, t, steps)
    case ReadValue(main, table, slot) =>
      table <= main < |tables| && Absent(tables, table + 1, t) && KeyIs(tables, table, slot, t)
    case Migrate(main, value, steps) =>
      && main < |tables| && Absent(tables, main, t) && Passed(tables[main], hash, t, steps)
      && Owns(owner, t, value) && t in order && t in tickets && tickets[t] < Quota(tables[main])
    case CasMigrate(main, value, steps) =>
      && main < |tables| && Absent(tables, main, t) && Passed(tables[main], hash, t, steps)
      && Owns(owner, t, value) && t in order && t in tickets && tickets[t] < Quota(tables[main])
    case StoreMigrated(main, slot, value) => KeyIs(tables, main, slot, t) && Owns(owner, t, value)
    case AddCount(main) => main < |tables| && Absent(tables, 0, t)
    case Check(main, newCount) => main < |tables| && Absent(tables, 0, t) && Counted(order, tickets, t, newCount)
    case TryLock(main, newCount) => main < |tables| && Absent(tables, 0, t) && Counted(order, tickets, t, newCount)
    case Reload(newCount) => Absent(tables, 0, t) && Counted(order, tickets, t, newCount)
    case Allocate(main, newCount) =>
      main == |tables| - 1 && Absent(tables, 0, t) && Counted(order, tickets, t, newCount)
    case GiveBackLocked => Absent(tables, 0, t) && t in order
    case UnlockFailed => true
    case Unlock(main, newCount) => main < |tables| && Absent(tables, 0, t) && Counted(order, tickets, t, newCount)
    case Fits(main, newCount) => main < |tables| && Absent(tables, 0, t) && Counted(order, tickets, t, newCount)
    case ReloadMain(newCount) => Absent(tables, 0, t) && Counted(order, tickets, t, newCount)
    case Create(main, newCount) =>
      && main < |tables| && Absent(tables, 0, t) && Counted(order, tickets, t, newCount)
      && newCount < Quota(tables[main])
    case GiveBack => Absent(tables, 0, t) && t in order
    case Insert(main, value, steps) =>
      && main < |tables| && Absent(tables, 0, t) && Passed(tables[main], hash, t, steps)
      && Owns(owner, t, value) && t in order && t in tickets && tickets[t] < Quota(tables[main])
    case CasInsert(main, value, steps) =>
      && main < |tables| && Absent(tables, 0, t) && Passed(tables[main], hash, t, steps)
      && Owns(owner, t, value) && t in order && t in tickets && tickets[t] < Quota(tables[main])
    case StoreNew(main, slot, value) => KeyIs(tables, main, slot, t) && Owns(owner, t, value)
    case Done(result) => result.Some? ==> Owns(owner, t, result.value)
  }

  predicate Locked(pc: Pc) { pc.Reload? || pc.Allocate? || pc.GiveBackLocked? || pc.UnlockFailed? || pc.Unlock? }

  ghost predicate LockOk(resizing: bool, pcs: seq<Pc>) {
    && (forall t :: 0 <= t < |pcs| && Locked(pcs[t]) ==> resizing)
    && (forall t, u :: 0 <= t < u < |pcs| ==> !(Locked(pcs[t]) && Locked(pcs[u])))
  }

  // A key that is set but whose value is not stored yet belongs to a thread about to store it.
  predicate Storing(pc: Pc, table: nat, slot: nat) {
    (pc.StoreMigrated? || pc.StoreNew?) && pc.main == table && pc.slot == slot
  }

  ghost predicate ValueOk(tables: seq<Table>, pcs: seq<Pc>, owner: map<nat, nat>, j: nat, p: nat)
    requires TablesOk(tables) && j < |tables| && p < |tables[j].keys|
  {
    tables[j].keys[p].Some? ==>
      var t := tables[j].keys[p].value;
      t < |pcs| && t in owner && (tables[j].values[p] == Some(owner[t]) || Storing(pcs[t], j, p))
  }

  ghost predicate ValuesOk(tables: seq<Table>, pcs: seq<Pc>, owner: map<nat, nat>)
    requires TablesOk(tables)
  {
    forall j, p :: 0 <= j < |tables| && 0 <= p < |tables[j].keys| ==> ValueOk(tables, pcs, owner, j, p)
  }

  ghost predicate OwnersDiffer(owner: map<nat, nat>) {
    forall t, u :: t in owner && u in owner && t != u ==> owner[t] != owner[u]
  }

  // Only threads still inserting, or inserted, are counted.
  ghost predicate OrderUsed(tables: seq<Table>, order: seq<nat>, pcs: seq<Pc>) {
    forall t: nat :: t in order ==> t < |pcs| && (Holding(pcs[t]) || Present(tables, t))
  }

  ghost predicate PcsOk(hashes: seq<nat>, tables: seq<Table>, order: seq<nat>, tickets: map<nat, int>, owner: map<nat, nat>,
                        pcs: seq<Pc>)
    requires TablesOk(tables)
  {
    && |hashes| == |pcs|
    && forall t :: 0 <= t < |pcs| ==> PcOk(hashes[t], tables, order, tickets, owner, t, pcs[t])
  }

  ghost predicate Inv(hashes: seq<nat>, s: State) {
    && TablesOk(s.tables)
    && ChainOk(hashes, s.tables, s.order, s.tickets)
    && OrderOk(s.count, s.order, s.tickets)
    && OrderUsed(s.tables, s.order, s.pcs)
    && PcsOk(hashes, s.tables, s.order, s.tickets, s.owner, s.pcs)
    && LockOk(s.resizing, s.pcs)
    && ValuesOk(s.tables, s.pcs, s.owner)
    && OwnersDiffer(s.owner)
  }

  // ---- Slots ----

  /** The masked index is the hashed id plus the steps taken, modulo the capacity. */
  lemma NextSlot(h: Table, hash: nat, steps: nat)
    ensures (Slot(h, hash, steps) + 1) % Pow2(h.size) == Slot(h, hash, steps + 1)
  {
    ModOfSum(hash + steps, 1, Pow2(h.size));
  }

  lemma SlotAtDistance(h: Table, hash: nat, slot: nat)
    requires slot < Pow2(h.size)
    ensures 0 <= Distance(h, hash, slot) < Pow2(h.size) && Slot(h, hash, Distance(h, hash, slot)) == slot
  {
    ModOfSum(slot - hash, hash, Pow2(h.size));
    DivisionIsUnique(slot, Pow2(h.size), 0, slot);
  }

  lemma DistanceOfSlot(h: Table, hash: nat, steps: nat)
    requires steps < Pow2(h.size)
    ensures Distance(h, hash, Slot(h, hash, steps)) == steps
  {
    ModOfSum(hash + steps, 0 - hash, Pow2(h.size));
    DivisionIsUnique(steps, Pow2(h.size), 0, steps);
  }

  // ---- Every table keeps an empty slot ----

  function Ids(keys: seq<Option<nat>>): set<nat> {
    if |keys| == 0 then {}
    else Ids(keys[..|keys| - 1]) + (if keys[|keys| - 1].Some? then {keys[|keys| - 1].value} else {})
  }

  lemma {:induction false} IdsAre(keys: seq<Option<nat>>, t: nat)
    ensures t in Ids(keys) <==> Some(t) in keys
  {
    if |keys| > 0 {
      IdsAre(keys[..|keys| - 1], t);
      assert keys == keys[..|keys| - 1] + [keys[|keys| - 1]];
    }
  }

  // With no empty slot and no id twice there are as many ids as slots.
  lemma {:induction false} FullIdsCount(keys: seq<Option<nat>>)
    requires forall p :: 0 <= p < |keys| ==> keys[p].Some?
    requires forall p, q :: 0 <= p < q < |keys| ==> keys[p] != keys[q]
    ensures |Ids(keys)| == |keys|
  {
    if |keys| > 0 {
      FullIdsCount(keys[..|keys| - 1]);
      IdsAre(keys[..|keys| - 1], keys[|keys| - 1].value);
    }
  }

  function SetOf(order: seq<nat>): set<nat> {
    if |order| == 0 then {} else SetOf(order[..|order| - 1]) + {order[|order| - 1]}
  }

  lemma {:induction false} SetOfIs(order: seq<nat>, t: nat)
    ensures t in SetOf(order) <==> t in order
    ensures |SetOf(order)| <= |order|
  {
    if |order| > 0 {
      SetOfIs(order[..|order| - 1], t);
      assert order == order[..|order| - 1] + [order[|order| - 1]];
    }
  }

  lemma SubsetIsSmaller(a: set<nat>, b: set<nat>)
    requires a <= b
    ensures |a| <= |b|
  {
    if a != {} {
      var x :| x in a;
      SubsetIsSmaller(a - {x}, b - {x});
    }
  }

  // Ids whose tickets are below q are among the first q - 1 of the order.
  lemma TicketBoundsPlace(count: int, order: seq<nat>, tickets: map<nat, int>, t: nat, q: nat)
    requires OrderOk(count, order, tickets) && t in order && t in tickets && tickets[t] < q && 0 < q
    ensures t in SetOf(if q - 1 <= |order| then order[..q - 1] else order)
  {
    var k :| 0 <= k < |order| && order[k] == t;
    var prefix := if q - 1 <= |order| then order[..q - 1] else order;
    assert prefix[k] == t;
    SetOfIs(prefix, t);
  }

  /** Fewer than three quarters of the slots of any table are ever taken, counting ids that migrated to it lazily: the
      one whose increment came last saw all the others. */
  lemma OccupancyBelowQuota(hashes: seq<nat>, s: State, j: nat)
    requires Inv(hashes, s) && j < |s.tables|
    ensures Ids(s.tables[j].keys) != {} ==> |Ids(s.tables[j].keys)| < Quota(s.tables[j])
  {
    hide PcsOk, OrderUsed, ValuesOk, LockOk, Passed;
    var h := s.tables[j];
    var q := Quota(h);
    if Ids(h.keys) != {} {
      var x :| x in Ids(h.keys);
      IdsAre(h.keys, x);
      assert TableOk(h, hashes, s.order, s.tickets);
      KeyFacts(h, hashes, s.order, s.tickets, x);
      TicketPositive(s.count, s.order, s.tickets, x);
      var prefix := if q - 1 <= |s.order| then s.order[..q - 1] else s.order;
      forall t | t in Ids(h.keys) ensures t in SetOf(prefix) {
        IdsAre(h.keys, t);
        KeyFacts(h, hashes, s.order, s.tickets, t);
        TicketBoundsPlace(s.count, s.order, s.tickets, t, q);
      }
      SubsetIsSmaller(Ids(h.keys), SetOf(prefix));
      SetOfIs(prefix, x);
    }
  }

  lemma KeyFacts(h: Table, hashes: seq<nat>, order: seq<nat>, tickets: map<nat, int>, t: nat)
    requires |h.keys| == Pow2(h.size) && TableOk(h, hashes, order, tickets) && Some(t) in h.keys
    ensures t in order && t in tickets && tickets[t] < Quota(h)
  {
    var p :| 0 <= p < |h.keys| && h.keys[p] == Some(t);
    assert KeyOk(h, hashes, order, tickets, p);
  }

  lemma TicketPositive(count: int, order: seq<nat>, tickets: map<nat, int>, t: nat)
    requires OrderOk(count, order, tickets) && t in order
    ensures t in tickets && 1 <= tickets[t]
  {
    var k :| 0 <= k < |order| && order[k] == t;
  }

  /** So every table always has an empty slot. */
  lemma EmptySlot(hashes: seq<nat>, s: State, j: nat) returns (p: nat)
    requires Inv(hashes, s) && j < |s.tables|
    ensures p < |s.tables[j].keys| && s.tables[j].keys[p].None?
  {
    hide PcsOk, OrderUsed, ValuesOk, LockOk, KeyOk;
    var h := s.tables[j];
    OccupancyBelowQuota(hashes, s, j);
    assert TableOk(h, hashes, s.order, s.tickets);
    if forall q :: 0 <= q < |h.keys| ==> h.keys[q].Some? {
      FullIdsCount(h.keys);
      assert false;
    }
    p :| 0 <= p < |h.keys| && h.keys[p].None?;
  }

  /** No probe, whether it searches, migrates or inserts, ever looks at more slots than the table has: the loops, which
      have no exit of their own, end. */
  lemma ProbesEnd(hashes: seq<nat>, s: State, t: nat)
    requires Inv(hashes, s) && t < |s.pcs|
    ensures s.pcs[t].Probe? ==>
      s.pcs[t].table < |s.tables| && s.pcs[t].steps < Capacity(s.tables[s.pcs[t].table])
    ensures s.pcs[t].Migrate? || s.pcs[t].CasMigrate? || s.pcs[t].Insert? || s.pcs[t].CasInsert? ==>
      s.pcs[t].main < |s.tables| && s.pcs[t].steps < Capacity(s.tables[s.pcs[t].main])
  {
    hide ChainOk, OrderOk, OrderUsed, ValuesOk, LockOk, OwnersDiffer;
    var pc := s.pcs[t];
    assert PcOk(hashes[t], s.tables, s.order, s.tickets, s.owner, t, pc);
    if pc.Probe? {
      PassedIsShort(hashes, s, pc.table, hashes[t], t, pc.steps);
    } else if pc.Migrate? || pc.CasMigrate? || pc.Insert? || pc.CasInsert? {
      PassedIsShort(hashes, s, pc.main, hashes[t], t, pc.steps);
    }
  }

  lemma PassedIsShort(hashes: seq<nat>, s: State, j: nat, hash: nat, t: nat, steps: nat)
    requires Inv(hashes, s) && j < |s.tables| && Passed(s.tables[j], hash, t, steps)
    ensures steps < Capacity(s.tables[j])
  {
    var p := EmptySlot(hashes, s, j);
    hide Inv;
    SlotAtDistance(s.tables[j], hash, p);
    assert KeyAt(s.tables[j], hash, Distance(s.tables[j], hash, p)).None?;
  }

  // ---- Steps that only look ----

  // Thread t moves; its standing in the order, in the tables, with the lock and with its value does not change.
  ghost predicate SamePart(pc: Pc, pc': Pc) {
    && (Holding(pc) <==> Holding(pc')) && (Locked(pc) <==> Locked(pc'))
    && !pc.StoreMigrated? && !pc.StoreNew? && !pc'.StoreMigrated? && !pc'.StoreNew?
  }

  // The same with the resize lock taken, released or left alone.
  lemma MoveKeepsInv(hashes: seq<nat>, s: State, t: nat, pc': Pc, resizing': bool)
    requires Inv(hashes, s) && t < |s.pcs| && (Holding(s.pcs[t]) <==> Holding(pc'))
    requires !s.pcs[t].StoreMigrated? && !s.pcs[t].StoreNew? && !pc'.StoreMigrated? && !pc'.StoreNew?
    requires LockOk(resizing', s.pcs[t := pc'])
    requires PcOk(hashes[t], s.tables, s.order, s.tickets, s.owner, t, pc')
    ensures Inv(hashes, s.(pcs := s.pcs[t := pc'], resizing := resizing'))
  {
    hide ChainOk, OrderOk, OwnersDiffer, PcOk, Present, TablesOk, LockOk;
    var pcs' := s.pcs[t := pc'];
    forall j, p | 0 <= j < |s.tables| && 0 <= p < |s.tables[j].keys| ensures ValueOk(s.tables, pcs', s.owner, j, p) {
      assert ValueOk(s.tables, s.pcs, s.owner, j, p);
    }
  }

  lemma LookKeepsInv(hashes: seq<nat>, s: State, t: nat, pc': Pc)
    requires Inv(hashes, s) && t < |s.pcs| && SamePart(s.pcs[t], pc')
    requires PcOk(hashes[t], s.tables, s.order, s.tickets, s.owner, t, pc')
    ensures Inv(hashes, s.(pcs := s.pcs[t := pc']))
  {
    hide ChainOk, OrderOk, OwnersDiffer, PcOk, TablesOk, ValuesOk, OrderUsed;
    MoveKeepsInv(hashes, s, t, pc', s.resizing);
    assert s.(pcs := s.pcs[t := pc'], resizing := s.resizing) == s.(pcs := s.pcs[t := pc']);
  }

  // A key sits where a probe for it ends.
  lemma KeyIsMet(h: Table, hashes: seq<nat>, order: seq<nat>, tickets: map<nat, int>, t: nat) returns (d: nat)
    requires |h.keys| == Pow2(h.size) && TableOk(h, hashes, order, tickets) && Some(t) in h.keys
    ensures t < |hashes| && d < Pow2(h.size) && KeyAt(h, hashes[t], d) == Some(t) && Passed(h, hashes[t], t, d)
  {
    var p :| 0 <= p < |h.keys| && h.keys[p] == Some(t);
    assert KeyOk(h, hashes, order, tickets, p);
    SlotAtDistance(h, hashes[t], p);
    d := Distance(h, hashes[t], p);
  }

  /** An id that were in the table would have been met before an empty slot. */
  lemma EmptyMeansAbsent(h: Table, hashes: seq<nat>, order: seq<nat>, tickets: map<nat, int>, t: nat, steps: nat)
    requires |h.keys| == Pow2(h.size) && TableOk(h, hashes, order, tickets) && t < |hashes|
    requires Passed(h, hashes[t], t, steps) && KeyAt(h, hashes[t], steps).None?
    ensures Some(t) !in h.keys
  {
    if Some(t) in h.keys {
      var d := KeyIsMet(h, hashes, order, tickets, t);
      assert false;
    }
  }

  lemma AbsentFrom(tables: seq<Table>, j: nat, t: nat)
    requires j < |tables| && Some(t) !in tables[j].keys && Absent(tables, j + 1, t)
    ensures Absent(tables, j, t)
  {}

  lemma ProbeKeepsInv(hashes: seq<nat>, s: State, t: nat, supply: Supply)
    requires Inv(hashes, s) && t < |s.pcs| && s.pcs[t].Probe?
    ensures Enabled(hashes, s, t) && Inv(hashes, Step(hashes, s, t, supply))
  {
    hide OrderOk, OwnersDiffer, OrderUsed, LockOk, ValuesOk, TableOk;
    var Probe(main, table, steps) := s.pcs[t];
    assert PcOk(hashes[t], s.tables, s.order, s.tickets, s.owner, t, s.pcs[t]);
    var h := s.tables[table];
    var pc' := Probed(t, s.pcs[t], KeyAt(h, hashes[t], steps), Slot(h, hashes[t], steps));
    if KeyAt(h, hashes[t], steps).None? {
      EmptyMeansAbsent(h, hashes, s.order, s.tickets, t, steps);
      AbsentFrom(s.tables, table, t);
    }
    hide PcsOk, ChainOk;
    LookKeepsInv(hashes, s, t, pc');
  }

  lemma StartKeepsInv(hashes: seq<nat>, s: State, t: nat, supply: Supply)
    requires Inv(hashes, s) && t < |s.pcs| && (s.pcs[t].Idle? || s.pcs[t].LoadMain? || s.pcs[t].Done?)
    ensures Enabled(hashes, s, t) && Inv(hashes, Step(hashes, s, t, supply))
  {
    hide ChainOk, OrderOk, OwnersDiffer, OrderUsed, LockOk, ValuesOk;
    LookKeepsInv(hashes, s, t, Step(hashes, s, t, supply).pcs[t]);
  }

  // ---- Reading the value and migrating ----

  /** The value beside a thread's own key is the producer that was created for the thread. */
  lemma ReadFindsOwner(hashes: seq<nat>, s: State, t: nat)
    requires Inv(hashes, s) && t < |s.pcs| && s.pcs[t].ReadValue?
    ensures Enabled(hashes, s, t)
    ensures var ReadValue(main, table, slot) := s.pcs[t];
      Owns(s.owner, t, s.tables[table].values[slot].value)
  {
    hide ChainOk, OrderOk, OwnersDiffer, OrderUsed, LockOk;
    assert PcOk(hashes[t], s.tables, s.order, s.tickets, s.owner, t, s.pcs[t]);
    assert ValueOk(s.tables, s.pcs, s.owner, s.pcs[t].table, s.pcs[t].slot);
  }

  lemma QuotaGrows(a: Table, b: Table)
    requires a.size <= b.size
    ensures Quota(a) <= Quota(b)
  {
    Pow2Grows(a.size, b.size);
  }

  lemma ReadKeepsInv(hashes: seq<nat>, s: State, t: nat, supply: Supply)
    requires Inv(hashes, s) && t < |s.pcs| && s.pcs[t].ReadValue?
    ensures Enabled(hashes, s, t) && Inv(hashes, Step(hashes, s, t, supply))
  {
    hide OrderOk, OwnersDiffer, OrderUsed, LockOk, ValuesOk, TableOk;
    ReadFindsOwner(hashes, s, t);
    var ReadValue(main, table, slot) := s.pcs[t];
    assert PcOk(hashes[t], s.tables, s.order, s.tickets, s.owner, t, s.pcs[t]);
    assert TableOk(s.tables[table], hashes, s.order, s.tickets);
    KeyFacts(s.tables[table], hashes, s.order, s.tickets, t);
    QuotaGrows(s.tables[table], s.tables[main]);
    hide PcsOk, ChainOk;
    LookKeepsInv(hashes, s, t, Step(hashes, s, t, supply).pcs[t]);
  }

  lemma LookForSlotKeepsInv(hashes: seq<nat>, s: State, t: nat, supply: Supply)
    requires Inv(hashes, s) && t < |s.pcs|
    requires s.pcs[t].Migrate? || s.pcs[t].CasMigrate? || s.pcs[t].Insert? || s.pcs[t].CasInsert?
    requires s.pcs[t].main < |s.tables|
    requires (s.pcs[t].CasMigrate? || s.pcs[t].CasInsert?) ==>
      t < |hashes| && TablesOk(s.tables) && KeyAt(s.tables[s.pcs[t].main], hashes[t], s.pcs[t].steps).Some?
    ensures Enabled(hashes, s, t) && Inv(hashes, Step(hashes, s, t, supply))
  {
    hide OrderOk, OwnersDiffer, OrderUsed, LockOk, ValuesOk, ChainOk;
    var pc := s.pcs[t];
    assert PcOk(hashes[t], s.tables, s.order, s.tickets, s.owner, t, pc);
    var h := s.tables[pc.main];
    var slot := Slot(h, hashes[t], pc.steps);
    assert Some(t) !in h.keys;
    assert KeyAt(h, hashes[t], pc.steps) != Some(t);
    hide PcsOk;
    LookKeepsInv(hashes, s, t, Step(hashes, s, t, supply).pcs[t]);
  }

  lemma RetryKeepsInv(hashes: seq<nat>, s: State, t: nat, supply: Supply)
    requires Inv(hashes, s) && t < |s.pcs|
    requires s.pcs[t].Check? || s.pcs[t].Fits? || s.pcs[t].ReloadMain? || s.pcs[t].Reload?
    ensures Enabled(hashes, s, t) && Inv(hashes, Step(hashes, s, t, supply))
  {
    hide OrderOk, OwnersDiffer, OrderUsed, LockOk, ValuesOk, ChainOk;
    assert PcOk(hashes[t], s.tables, s.order, s.tickets, s.owner, t, s.pcs[t]);
    hide PcsOk;
    LookKeepsInv(hashes, s, t, Step(hashes, s, t, supply).pcs[t]);
  }

  // ---- The resize lock ----

  lemma LockStepKeepsInv(hashes: seq<nat>, s: State, t: nat, supply: Supply)
    requires Inv(hashes, s) && t < |s.pcs| && (s.pcs[t].TryLock? || s.pcs[t].Unlock? || s.pcs[t].UnlockFailed?)
    ensures Enabled(hashes, s, t) && Inv(hashes, Step(hashes, s, t, supply))
  {
    hide OrderOk, OwnersDiffer, OrderUsed, ValuesOk, ChainOk;
    assert PcOk(hashes[t], s.tables, s.order, s.tickets, s.owner, t, s.pcs[t]);
    hide PcsOk;
    var s' := Step(hashes, s, t, supply);
    MoveKeepsInv(hashes, s, t, s'.pcs[t], s'.resizing);
  }

  // ---- Counting ----

  lemma {:induction false} WithoutIs(order: seq<nat>, t: nat, u: nat)
    ensures u in Without(order, t) <==> u in order && u != t
    ensures |Without(order, t)| <= |order|
  {
    if |order| > 0 {
      var last := order[|order| - 1];
      WithoutIs(order[..|order| - 1], t, u);
      assert order == order[..|order| - 1] + [last];
    }
  }

  lemma {:induction false} WithoutAbsent(order: seq<nat>, t: nat)
    requires t !in order
    ensures Without(order, t) == order
  {
    if |order| > 0 {
      WithoutAbsent(order[..|order| - 1], t);
    }
  }

  // Taking one thread out moves the later ones down by one place at most.
  lemma {:induction false} WithoutKeepsOrder(order: seq<nat>, tickets: map<nat, int>, t: nat)
    requires OrderOk(|order|, order, tickets) && t in order
    ensures OrderOk(|order| - 1, Without(order, t), tickets)
  {
    var prefix, last := order[..|order| - 1], order[|order| - 1];
    assert order == prefix + [last];
    assert OrderOk(|prefix|, prefix, tickets);
    if last == t {
      WithoutAbsent(prefix, t);
    } else {
      WithoutKeepsOrder(prefix, tickets, t);
      var w := Without(prefix, t);
      WithoutIs(prefix, t, last);
      assert Without(order, t) == w + [last];
      hide OrderOk;
      assert OrderOk(|w| + 1, w + [last], tickets) by { AppendKeepsOrder(w, tickets, last, |order|); }
    }
  }

  lemma AppendKeepsOrder(order: seq<nat>, tickets: map<nat, int>, t: nat, place: nat)
    requires OrderOk(|order|, order, tickets) && t !in order && t in tickets && place <= tickets[t] && |order| + 1 <= place
    ensures OrderOk(|order| + 1, order + [t], tickets)
  {}

  // A thread that is in no table and not holding is not counted.
  lemma UncountedThread(hashes: seq<nat>, s: State, t: nat)
    requires Inv(hashes, s) && t < |s.pcs| && s.pcs[t].AddCount?
    ensures t !in s.order && s.pcs[t].main < |s.tables| && Absent(s.tables, 0, t)
  {
    hide OrderOk, OwnersDiffer, ValuesOk, ChainOk;
    assert PcOk(hashes[t], s.tables, s.order, s.tickets, s.owner, t, s.pcs[t]);
    hide PcsOk;
  }

  lemma OthersKeepPcWhenCounting(hash: nat, tables: seq<Table>, order: seq<nat>, tickets: map<nat, int>,
                                 owner: map<nat, nat>, u: nat, pc: Pc, order': seq<nat>, tickets': map<nat, int>)
    requires TablesOk(tables) && PcOk(hash, tables, order, tickets, owner, u, pc)
    requires u in order ==> u in order'
    requires u in tickets ==> u in tickets' && tickets'[u] == tickets[u]
    ensures PcOk(hash, tables, order', tickets', owner, u, pc)
  {}

  lemma CountingKeepsChain(hashes: seq<nat>, tables: seq<Table>, order: seq<nat>, tickets: map<nat, int>,
                           order': seq<nat>, tickets': map<nat, int>, t: nat)
    requires TablesOk(tables) && ChainOk(hashes, tables, order, tickets) && Absent(tables, 0, t)
    requires forall u :: u in order && u != t ==> u in order'
    requires forall u :: u in tickets && u != t ==> u in tickets' && tickets'[u] == tickets[u]
    ensures ChainOk(hashes, tables, order', tickets')
  {
    hide Passed;
    forall j | 0 <= j < |tables| ensures TableOk(tables[j], hashes, order', tickets') {
      assert TableOk(tables[j], hashes, order, tickets);
      forall p | 0 <= p < |tables[j].keys| ensures KeyOk(tables[j], hashes, order', tickets', p) {
        assert KeyOk(tables[j], hashes, order, tickets, p);
      }
    }
  }

  /** A change of the count by one thread keeps the invariant if the order stays in order. */
  lemma CountKeepsInv(hashes: seq<nat>, s: State, t: nat, pc': Pc, count': int, order': seq<nat>, tickets': map<nat, int>)
    requires Inv(hashes, s) && t < |s.pcs| && Absent(s.tables, 0, t) && OrderOk(count', order', tickets')
    requires forall u :: u != t ==> (u in order' <==> u in s.order)
    requires forall u :: u in s.tickets && u != t ==> u in tickets' && tickets'[u] == s.tickets[u]
    requires t in order' ==> Holding(pc')
    requires !s.pcs[t].StoreMigrated? && !s.pcs[t].StoreNew? && (Locked(s.pcs[t]) <==> Locked(pc'))
    requires PcOk(hashes[t], s.tables, order', tickets', s.owner, t, pc')
    ensures Inv(hashes, s.(pcs := s.pcs[t := pc'], count := count', order := order', tickets := tickets'))
  {
    hide OrderOk, OwnersDiffer, PcOk;
    CountingKeepsChain(hashes, s.tables, s.order, s.tickets, order', tickets', t);
    hide ChainOk;
    var pcs' := s.pcs[t := pc'];
    forall u | 0 <= u < |pcs'| ensures PcOk(hashes[u], s.tables, order', tickets', s.owner, u, pcs'[u]) {
      if u != t {
        OthersKeepPcWhenCounting(hashes[u], s.tables, s.order, s.tickets, s.owner, u, s.pcs[u], order', tickets');
      }
    }
    forall j, p | 0 <= j < |s.tables| && 0 <= p < |s.tables[j].keys| ensures ValueOk(s.tables, pcs', s.owner, j, p) {
      assert ValueOk(s.tables, s.pcs, s.owner, j, p);
    }
  }

  lemma AddCountKeepsInv(hashes: seq<nat>, s: State, t: nat, supply: Supply)
    requires Inv(hashes, s) && t < |s.pcs| && s.pcs[t].AddCount?
    ensures Enabled(hashes, s, t) && Inv(hashes, Step(hashes, s, t, supply))
  {
    hide OwnersDiffer, ValuesOk, ChainOk, OrderUsed, LockOk;
    UncountedThread(hashes, s, t);
    var s' := Step(hashes, s, t, supply);
    assert OrderOk(s.count, s.order, s'.tickets);
    AppendKeepsOrder(s.order, s'.tickets, t, |s.order| + 1);
    CountKeepsInv(hashes, s, t, s'.pcs[t], s'.count, s'.order, s'.tickets);
  }

  lemma GiveBackKeepsInv(hashes: seq<nat>, s: State, t: nat, supply: Supply)
    requires Inv(hashes, s) && t < |s.pcs| && (s.pcs[t].GiveBack? || s.pcs[t].GiveBackLocked?)
    ensures Enabled(hashes, s, t) && Inv(hashes, Step(hashes, s, t, supply))
  {
    hide OwnersDiffer, ValuesOk, ChainOk, OrderUsed, LockOk;
    assert PcOk(hashes[t], s.tables, s.order, s.tickets, s.owner, t, s.pcs[t]);
    hide PcsOk;
    assert s.count == |s.order|;
    hide OrderOk;
    WithoutKeepsOrder(s.order, s.tickets, t);
    forall u ensures u in Without(s.order, t) <==> u in s.order && u != t {
      WithoutIs(s.order, t, u);
    }
    var s' := Step(hashes, s, t, supply);
    CountKeepsInv(hashes, s, t, s'.pcs[t], s'.count, s'.order, s'.tickets);
  }

  // ---- Growing the chain ----

  lemma EmptyTableIsOk(hashes: seq<nat>, order: seq<nat>, tickets: map<nat, int>, size: nat)
    ensures |Empty(size).keys| == |Empty(size).values| == Pow2(size)
    ensures TableOk(Empty(size), hashes, order, tickets)
  {}

  /** The new capacity is the smallest power of two that is at least twice the old one and more than twice the count: the
      thread that allocated the table always has room in it. */
  lemma NewSizeIsRoomy(size: nat, newCount: int)
    ensures size < NewSize(size, newCount) && newCount < Pow2(NewSize(size, newCount)) / 2
    ensures newCount < Quota(Empty(NewSize(size, newCount)))
    ensures forall k :: size < k < NewSize(size, newCount) ==> Pow2(k) / 2 <= newCount
    decreases newCount + 1 - Pow2(size) / 2
  {
    if newCount >= Pow2(size + 1) / 2 {
      NewSizeIsRoomy(size + 1, newCount);
    }
  }

  lemma GrowKeepsChain(hashes: seq<nat>, tables: seq<Table>, order: seq<nat>, tickets: map<nat, int>, size: nat)
    requires TablesOk(tables) && ChainOk(hashes, tables, order, tickets) && tables[|tables| - 1].size < size
    ensures TablesOk(tables + [Empty(size)]) && ChainOk(hashes, tables + [Empty(size)], order, tickets)
  {
    hide TableOk;
    EmptyTableIsOk(hashes, order, tickets, size);
    var tables' := tables + [Empty(size)];
    forall i, j | 0 <= i < j < |tables'| ensures tables'[i].size < tables'[j].size {
      assert i < |tables| - 1 ==> tables[i].size < tables[|tables| - 1].size;
    }
  }

  lemma GrowKeepsAbsent(tables: seq<Table>, size: nat, lo: nat, t: nat)
    requires Absent(tables, lo, t)
    ensures Absent(tables + [Empty(size)], lo, t)
  {}

  lemma OthersKeepPcWhenGrowing(hash: nat, tables: seq<Table>, order: seq<nat>, tickets: map<nat, int>,
                                owner: map<nat, nat>, u: nat, pc: Pc, size: nat)
    requires TablesOk(tables) && PcOk(hash, tables, order, tickets, owner, u, pc) && !pc.Allocate?
    ensures TablesOk(tables + [Empty(size)]) && PcOk(hash, tables + [Empty(size)], order, tickets, owner, u, pc)
  {
    assert TablesOk(tables + [Empty(size)]);
    forall lo: nat | Absent(tables, lo, u) ensures Absent(tables + [Empty(size)], lo, u) {
      GrowKeepsAbsent(tables, size, lo, u);
    }
    hide Absent, Passed;
  }

  lemma GrowKeepsValues(tables: seq<Table>, pcs: seq<Pc>, owner: map<nat, nat>, size: nat, pcs': seq<Pc>)
    requires TablesOk(tables) && ValuesOk(tables, pcs, owner) && |pcs'| == |pcs|
    requires forall t :: 0 <= t < |pcs| ==> pcs'[t] == pcs[t] || pcs[t].Allocate?
    ensures TablesOk(tables + [Empty(size)]) && ValuesOk(tables + [Empty(size)], pcs', owner)
  {
    var tables' := tables + [Empty(size)];
    forall j, p | 0 <= j < |tables'| && 0 <= p < |tables'[j].keys| ensures ValueOk(tables', pcs', owner, j, p) {
      if j < |tables| {
        assert ValueOk(tables, pcs, owner, j, p);
      }
    }
  }

  lemma GrowKeepsPresent(tables: seq<Table>, size: nat, t: nat)
    requires Present(tables, t)
    ensures Present(tables + [Empty(size)], t)
  {
    var j :| 0 <= j < |tables| && Some(t) in tables[j].keys;
    assert Some(t) in (tables + [Empty(size)])[j].keys;
  }

  lemma OnlyAllocator(hashes: seq<nat>, s: State, t: nat, u: nat)
    requires Inv(hashes, s) && t < |s.pcs| && u < |s.pcs| && t != u && s.pcs[t].Allocate?
    ensures !s.pcs[u].Allocate?
  {
    hide OwnersDiffer, ValuesOk, ChainOk, OrderUsed, OrderOk, PcsOk;
    assert Locked(s.pcs[t]);
  }

  lemma GrowKeepsPcs(hashes: seq<nat>, s: State, t: nat, size: nat)
    requires Inv(hashes, s) && t < |s.pcs| && s.pcs[t].Allocate?
    ensures TablesOk(s.tables + [Empty(size)])
    ensures PcsOk(hashes, s.tables + [Empty(size)], s.order, s.tickets, s.owner,
                  s.pcs[t := Unlock(|s.tables|, s.pcs[t].newCount)])
    ensures OrderUsed(s.tables + [Empty(size)], s.order, s.pcs[t := Unlock(|s.tables|, s.pcs[t].newCount)])
    ensures LockOk(s.resizing, s.pcs[t := Unlock(|s.tables|, s.pcs[t].newCount)])
  {
    hide OwnersDiffer, ValuesOk, ChainOk, OrderOk;
    var tables' := s.tables + [Empty(size)];
    assert TablesOk(tables');
    var pcs' := s.pcs[t := Unlock(|s.tables|, s.pcs[t].newCount)];
    forall u | 0 <= u < |pcs'| ensures PcOk(hashes[u], tables', s.order, s.tickets, s.owner, u, pcs'[u]) {
      assert PcOk(hashes[u], s.tables, s.order, s.tickets, s.owner, u, s.pcs[u]);
      if u != t {
        OnlyAllocator(hashes, s, t, u);
        OthersKeepPcWhenGrowing(hashes[u], s.tables, s.order, s.tickets, s.owner, u, s.pcs[u], size);
      } else {
        GrowKeepsAbsent(s.tables, size, 0, t);
      }
    }
    hide PcOk;
    forall u: nat | u in s.order ensures u < |pcs'| && (Holding(pcs'[u]) || Present(tables', u)) {
      if Present(s.tables, u) {
        GrowKeepsPresent(s.tables, size, u);
      }
    }
  }

  lemma AllocateKeepsInv(hashes: seq<nat>, s: State, t: nat, supply: Supply)
    requires Inv(hashes, s) && t < |s.pcs| && s.pcs[t].Allocate?
    ensures Enabled(hashes, s, t) && Inv(hashes, Step(hashes, s, t, supply))
  {
    hide OwnersDiffer, ValuesOk, ChainOk, OrderOk, OrderUsed, LockOk;
    assert PcOk(hashes[t], s.tables, s.order, s.tickets, s.owner, t, s.pcs[t]);
    hide PcsOk;
    var Allocate(main, newCount) := s.pcs[t];
    if supply.Nothing? {
      LookKeepsInv(hashes, s, t, GiveBackLocked);
    } else {
      var size := NewSize(s.tables[main].size, newCount);
      NewSizeIsRoomy(s.tables[main].size, newCount);
      GrowKeepsPcs(hashes, s, t, size);
      GrowKeepsChain(hashes, s.tables, s.order, s.tickets, size);
      GrowKeepsValues(s.tables, s.pcs, s.owner, size, s.pcs[t := Unlock(|s.tables|, newCount)]);
    }
  }

  // ---- Creating the producer ----

  lemma OthersKeepPcWhenOwning(hash: nat, tables: seq<Table>, order: seq<nat>, tickets: map<nat, int>,
                               owner: map<nat, nat>, u: nat, pc: Pc, owner': map<nat, nat>)
    requires TablesOk(tables) && PcOk(hash, tables, order, tickets, owner, u, pc)
    requires u in owner ==> u in owner' && owner'[u] == owner[u]
    ensures PcOk(hash, tables, order, tickets, owner', u, pc)
  {}

  lemma FreshOwner(owner: map<nat, nat>, t: nat, id: nat)
    requires OwnersDiffer(owner) && id !in owner.Values
    ensures OwnersDiffer(owner[t := id])
  {
    forall u | u in owner ensures owner[u] != id {
      assert owner[u] in owner.Values;
    }
  }

  lemma CreateKeepsInv(hashes: seq<nat>, s: State, t: nat, supply: Supply)
    requires Inv(hashes, s) && t < |s.pcs| && s.pcs[t].Create?
    ensures Enabled(hashes, s, t) && Inv(hashes, Step(hashes, s, t, supply))
  {
    hide ChainOk, OrderOk;
    assert PcOk(hashes[t], s.tables, s.order, s.tickets, s.owner, t, s.pcs[t]);
    if supply.Granted? && supply.id !in s.owner.Values {
      CreatedKeepsInv(hashes, s, t, supply.id);
    } else {
      hide OwnersDiffer, ValuesOk, OrderUsed, LockOk, PcsOk;
      LookKeepsInv(hashes, s, t, GiveBack);
    }
  }

  lemma CreatedKeepsInv(hashes: seq<nat>, s: State, t: nat, id: nat)
    requires Inv(hashes, s) && t < |s.pcs| && s.pcs[t].Create? && id !in s.owner.Values
    ensures Inv(hashes, s.(owner := s.owner[t := id], pcs := s.pcs[t := Insert(s.pcs[t].main, id, 0)]))
  {
    hide ChainOk, OrderOk, PcOk;
    FreshOwner(s.owner, t, id);
    hide OwnersDiffer;
    var owner', pcs' := s.owner[t := id], s.pcs[t := Insert(s.pcs[t].main, id, 0)];
    CreatedPlaceIsRight(hashes[t], s.tables, s.order, s.tickets, s.owner, t, s.pcs[t], id);
    forall u | 0 <= u < |pcs'| ensures PcOk(hashes[u], s.tables, s.order, s.tickets, owner', u, pcs'[u]) {
      if u != t {
        OthersKeepPcWhenOwning(hashes[u], s.tables, s.order, s.tickets, s.owner, u, s.pcs[u], owner');
      }
    }
    forall j, p | 0 <= j < |s.tables| && 0 <= p < |s.tables[j].keys| ensures ValueOk(s.tables, pcs', owner', j, p) {
      assert ValueOk(s.tables, s.pcs, s.owner, j, p);
    }
  }

  lemma CreatedPlaceIsRight(hash: nat, tables: seq<Table>, order: seq<nat>, tickets: map<nat, int>, owner: map<nat, nat>,
                            t: nat, pc: Pc, id: nat)
    requires TablesOk(tables) && pc.Create? && PcOk(hash, tables, order, tickets, owner, t, pc)
    ensures Absent(tables, 0, t) && pc.main < |tables|
    ensures PcOk(hash, tables, order, tickets, owner[t := id], t, Insert(pc.main, id, 0))
  {}

  // ---- Claiming a slot ----

  function Keyed(tables: seq<Table>, main: nat, slot: nat, t: nat): seq<Table>
    requires main < |tables| && slot < |tables[main].keys|
  {
    tables[main := tables[main].(keys := tables[main].keys[slot := Some(t)])]
  }

  lemma KeyedKeepsPassed(h: Table, slot: nat, t: nat, hash: nat, u: nat, steps: nat)
    requires |h.keys| == Pow2(h.size) && slot < |h.keys| && Passed(h, hash, u, steps)
    requires u == t ==> h.keys[slot].None?
    ensures Passed(h.(keys := h.keys[slot := Some(t)]), hash, u, steps)
  {
    var h' := h.(keys := h.keys[slot := Some(t)]);
    forall e | 0 <= e < steps ensures KeyAt(h', hash, e).Some? && KeyAt(h', hash, e) != Some(u) {
      assert KeyAt(h, hash, e).Some? && KeyAt(h, hash, e) != Some(u);
    }
  }

  lemma KeyedKeepsKey(h: Table, hashes: seq<nat>, order: seq<nat>, tickets: map<nat, int>, t: nat, slot: nat, p: nat)
    requires |h.keys| == Pow2(h.size) && slot < |h.keys| && p < |h.keys| && p != slot
    requires KeyOk(h, hashes, order, tickets, p) && h.keys[slot].None? && h.keys[p] != Some(t)
    ensures KeyOk(h.(keys := h.keys[slot := Some(t)]), hashes, order, tickets, p)
  {
    if h.keys[p].Some? {
      var u := h.keys[p].value;
      KeyedKeepsPassed(h, slot, t, hashes[u], u, Distance(h, hashes[u], p));
    }
    hide Passed;
  }

  lemma KeyedKeepsTable(h: Table, hashes: seq<nat>, order: seq<nat>, tickets: map<nat, int>, t: nat, steps: nat)
    requires |h.keys| == Pow2(h.size) && TableOk(h, hashes, order, tickets) && t < |hashes|
    requires t in order && t in tickets && tickets[t] < Quota(h) && Some(t) !in h.keys
    requires steps < Pow2(h.size) && Passed(h, hashes[t], t, steps) && KeyAt(h, hashes[t], steps).None?
    ensures TableOk(h.(keys := h.keys[Slot(h, hashes[t], steps) := Some(t)]), hashes, order, tickets)
  {
    var slot := Slot(h, hashes[t], steps);
    var h' := h.(keys := h.keys[slot := Some(t)]);
    DistanceOfSlot(h, hashes[t], steps);
    KeyedKeepsPassed(h, slot, t, hashes[t], t, steps);
    hide Passed;
    assert KeyOk(h', hashes, order, tickets, slot);
    assert forall p :: 0 <= p < |h.keys| ==> h.keys[p] != Some(t);
    forall p | 0 <= p < |h.keys| && p != slot ensures KeyOk(h', hashes, order, tickets, p) {
      KeyedKeepsKey(h, hashes, order, tickets, t, slot, p);
    }
    hide KeyOk;
  }

  lemma KeyedKeepsChain(hashes: seq<nat>, tables: seq<Table>, order: seq<nat>, tickets: map<nat, int>, main: nat, t: nat,
                        steps: nat)
    requires TablesOk(tables) && ChainOk(hashes, tables, order, tickets) && main < |tables| && t < |hashes|
    requires var h := tables[main];
      && t in order && t in tickets && tickets[t] < Quota(h) && Some(t) !in h.keys
      && steps < Pow2(h.size) && Passed(h, hashes[t], t, steps) && KeyAt(h, hashes[t], steps).None?
    ensures TablesOk(Keyed(tables, main, Slot(tables[main], hashes[t], steps), t))
    ensures ChainOk(hashes, Keyed(tables, main, Slot(tables[main], hashes[t], steps), t), order, tickets)
  {
    hide TableOk;
    assert TableOk(tables[main], hashes, order, tickets);
    KeyedKeepsTable(tables[main], hashes, order, tickets, t, steps);
  }

  lemma OthersKeepPcWhenKeying(hash: nat, tables: seq<Table>, order: seq<nat>, tickets: map<nat, int>,
                               owner: map<nat, nat>, u: nat, pc: Pc, main: nat, slot: nat, t: nat)
    requires TablesOk(tables) && PcOk(hash, tables, order, tickets, owner, u, pc) && u != t
    requires main < |tables| && slot < |tables[main].keys| && tables[main].keys[slot].None?
    ensures TablesOk(Keyed(tables, main, slot, t))
    ensures PcOk(hash, Keyed(tables, main, slot, t), order, tickets, owner, u, pc)
  {
    var tables' := Keyed(tables, main, slot, t);
    forall lo: nat | Absent(tables, lo, u) ensures Absent(tables', lo, u) {
      KeyedKeepsAbsent(tables, main, slot, t, lo, u);
    }
    forall j, steps: nat | 0 <= j < |tables| && Passed(tables[j], hash, u, steps) ensures Passed(tables'[j], hash, u, steps) {
      if j == main {
        KeyedKeepsPassed(tables[main], slot, t, hash, u, steps);
      }
    }
    hide Absent, Passed;
  }

  lemma KeyedKeepsAbsent(tables: seq<Table>, main: nat, slot: nat, t: nat, lo: nat, u: nat)
    requires main < |tables| && slot < |tables[main].keys| && Absent(tables, lo, u) && u != t
    ensures Absent(Keyed(tables, main, slot, t), lo, u)
  {}

  lemma KeyedKeepsPresent(tables: seq<Table>, main: nat, slot: nat, t: nat, u: nat)
    requires main < |tables| && slot < |tables[main].keys| && tables[main].keys[slot].None?
    requires Present(tables, u) || u == t
    ensures Present(Keyed(tables, main, slot, t), u)
  {
    var tables' := Keyed(tables, main, slot, t);
    if u == t {
      assert tables'[main].keys[slot] == Some(t);
    } else {
      var j :| 0 <= j < |tables| && Some(u) in tables[j].keys;
      var p :| 0 <= p < |tables[j].keys| && tables[j].keys[p] == Some(u);
      assert tables'[j].keys[p] == Some(u);
    }
  }

  // The place after a successful compare-and-swap.
  function Claimed(pc: Pc, slot: nat): Pc
    requires pc.CasMigrate? || pc.CasInsert?
  {
    if pc.CasMigrate? then StoreMigrated(pc.main, slot, pc.value) else StoreNew(pc.main, slot, pc.value)
  }

  lemma KeyedKeepsValues(tables: seq<Table>, pcs: seq<Pc>, owner: map<nat, nat>, t: nat, slot: nat)
    requires TablesOk(tables) && ValuesOk(tables, pcs, owner) && t < |pcs| && (pcs[t].CasMigrate? || pcs[t].CasInsert?)
    requires pcs[t].main < |tables| && slot < |tables[pcs[t].main].keys| && t in owner
    ensures TablesOk(Keyed(tables, pcs[t].main, slot, t))
    ensures ValuesOk(Keyed(tables, pcs[t].main, slot, t), pcs[t := Claimed(pcs[t], slot)], owner)
  {
    var tables', pcs' := Keyed(tables, pcs[t].main, slot, t), pcs[t := Claimed(pcs[t], slot)];
    forall j, p | 0 <= j < |tables'| && 0 <= p < |tables'[j].keys| ensures ValueOk(tables', pcs', owner, j, p) {
      assert ValueOk(tables, pcs, owner, j, p);
    }
  }

  lemma ClaimKeepsPcs(hashes: seq<nat>, s: State, t: nat, slot: nat)
    requires Inv(hashes, s) && t < |s.pcs| && (s.pcs[t].CasMigrate? || s.pcs[t].CasInsert?)
    requires s.pcs[t].main < |s.tables| && slot < |s.tables[s.pcs[t].main].keys|
    requires s.tables[s.pcs[t].main].keys[slot].None?
    ensures var tables', pcs' := Keyed(s.tables, s.pcs[t].main, slot, t), s.pcs[t := Claimed(s.pcs[t], slot)];
      && TablesOk(tables') && PcsOk(hashes, tables', s.order, s.tickets, s.owner, pcs')
      && OrderUsed(tables', s.order, pcs') && LockOk(s.resizing, pcs')
  {
    hide OwnersDiffer, ValuesOk, ChainOk, OrderOk;
    var tables', pcs' := Keyed(s.tables, s.pcs[t].main, slot, t), s.pcs[t := Claimed(s.pcs[t], slot)];
    assert TablesOk(tables');
    forall u | 0 <= u < |pcs'| ensures PcOk(hashes[u], tables', s.order, s.tickets, s.owner, u, pcs'[u]) {
      assert PcOk(hashes[u], s.tables, s.order, s.tickets, s.owner, u, s.pcs[u]);
      if u != t {
        OthersKeepPcWhenKeying(hashes[u], s.tables, s.order, s.tickets, s.owner, u, s.pcs[u], s.pcs[t].main, slot, t);
      }
    }
    hide PcOk, Present;
    forall u: nat | u in s.order ensures u < |pcs'| && (Holding(pcs'[u]) || Present(tables', u)) {
      if Present(s.tables, u) || u == t {
        KeyedKeepsPresent(s.tables, s.pcs[t].main, slot, t, u);
      }
    }
  }

  lemma ClaimKeepsInv(hashes: seq<nat>, s: State, t: nat, supply: Supply)
    requires Inv(hashes, s) && t < |s.pcs| && (s.pcs[t].CasMigrate? || s.pcs[t].CasInsert?)
    requires t < |hashes| && s.pcs[t].main < |s.tables|
    requires KeyAt(s.tables[s.pcs[t].main], hashes[t], s.pcs[t].steps).None?
    ensures Enabled(hashes, s, t) && Inv(hashes, Step(hashes, s, t, supply))
  {
    ProbesEnd(hashes, s, t);
    hide OwnersDiffer, ValuesOk, ChainOk, OrderOk, OrderUsed, LockOk;
    var pc := s.pcs[t];
    assert PcOk(hashes[t], s.tables, s.order, s.tickets, s.owner, t, pc);
    hide PcsOk;
    assert Some(t) !in s.tables[pc.main].keys;
    var slot := Slot(s.tables[pc.main], hashes[t], pc.steps);
    ClaimKeepsPcs(hashes, s, t, slot);
    KeyedKeepsChain(hashes, s.tables, s.order, s.tickets, pc.main, t, pc.steps);
    KeyedKeepsValues(s.tables, s.pcs, s.owner, t, slot);
  }

  // ---- Storing the value ----

  function Valued(tables: seq<Table>, main: nat, slot: nat, value: nat): seq<Table>
    requires main < |tables| && slot < |tables[main].values|
  {
    tables[main := tables[main].(values := tables[main].values[slot := Some(value)])]
  }

  lemma SameKeysSameTable(h: Table, h': Table, hashes: seq<nat>, order: seq<nat>, tickets: map<nat, int>)
    requires |h.keys| == Pow2(h.size) && h'.keys == h.keys && h'.size == h.size && TableOk(h, hashes, order, tickets)
    ensures TableOk(h', hashes, order, tickets)
  {
    forall p | 0 <= p < |h'.keys| ensures KeyOk(h', hashes, order, tickets, p) {
      assert KeyOk(h, hashes, order, tickets, p);
      if h.keys[p].Some? {
        SameKeysPassed(h, h', hashes[h.keys[p].value], h.keys[p].value, Distance(h, hashes[h.keys[p].value], p));
      }
    }
    hide Passed;
  }

  lemma SameKeysPassed(h: Table, h': Table, hash: nat, u: nat, steps: nat)
    requires |h.keys| == Pow2(h.size) && h'.keys == h.keys && h'.size == h.size && Passed(h, hash, u, steps)
    ensures Passed(h', hash, u, steps)
  {
    forall e | 0 <= e < steps ensures KeyAt(h', hash, e).Some? && KeyAt(h', hash, e) != Some(u) {
      assert KeyAt(h, hash, e).Some?;
    }
  }

  lemma ValuedKeepsPc(hash: nat, tables: seq<Table>, order: seq<nat>, tickets: map<nat, int>, owner: map<nat, nat>, u: nat,
                      pc: Pc, main: nat, slot: nat, value: nat)
    requires TablesOk(tables) && PcOk(hash, tables, order, tickets, owner, u, pc)
    requires main < |tables| && slot < |tables[main].values|
    ensures TablesOk(Valued(tables, main, slot, value))
    ensures PcOk(hash, Valued(tables, main, slot, value), order, tickets, owner, u, pc)
  {
    var tables' := Valued(tables, main, slot, value);
    forall lo: nat | Absent(tables, lo, u) ensures Absent(tables', lo, u) {}
    forall j, steps: nat | 0 <= j < |tables| && Passed(tables[j], hash, u, steps) ensures Passed(tables'[j], hash, u, steps) {
      SameKeysPassed(tables[j], tables'[j], hash, u, steps);
    }
    hide Absent, Passed;
  }

  lemma ValuedKeepsValues(tables: seq<Table>, pcs: seq<Pc>, owner: map<nat, nat>, t: nat)
    requires TablesOk(tables) && ValuesOk(tables, pcs, owner) && t < |pcs| && (pcs[t].StoreMigrated? || pcs[t].StoreNew?)
    requires KeyIs(tables, pcs[t].main, pcs[t].slot, t) && Owns(owner, t, pcs[t].value)
    ensures TablesOk(Valued(tables, pcs[t].main, pcs[t].slot, pcs[t].value))
    ensures ValuesOk(Valued(tables, pcs[t].main, pcs[t].slot, pcs[t].value), pcs[t := Done(Some(pcs[t].value))], owner)
  {
    var tables', pcs' := Valued(tables, pcs[t].main, pcs[t].slot, pcs[t].value), pcs[t := Done(Some(pcs[t].value))];
    forall j, p | 0 <= j < |tables'| && 0 <= p < |tables'[j].keys| ensures ValueOk(tables', pcs', owner, j, p) {
      assert ValueOk(tables, pcs, owner, j, p);
    }
  }

  lemma ValuedKeepsChain(hashes: seq<nat>, tables: seq<Table>, order: seq<nat>, tickets: map<nat, int>, main: nat,
                         slot: nat, value: nat)
    requires TablesOk(tables) && ChainOk(hashes, tables, order, tickets) && main < |tables| && slot < |tables[main].values|
    ensures TablesOk(Valued(tables, main, slot, value))
    ensures ChainOk(hashes, Valued(tables, main, slot, value), order, tickets)
  {
    hide TableOk;
    var tables' := Valued(tables, main, slot, value);
    forall j | 0 <= j < |tables'| ensures TableOk(tables'[j], hashes, order, tickets) {
      assert TableOk(tables[j], hashes, order, tickets);
      SameKeysSameTable(tables[j], tables'[j], hashes, order, tickets);
    }
  }

  lemma StoreKeepsInv(hashes: seq<nat>, s: State, t: nat, supply: Supply)
    requires Inv(hashes, s) && t < |s.pcs| && (s.pcs[t].StoreMigrated? || s.pcs[t].StoreNew?)
    ensures Enabled(hashes, s, t) && Inv(hashes, Step(hashes, s, t, supply))
  {
    hide OwnersDiffer, OrderOk;
    var pc := s.pcs[t];
    assert PcOk(hashes[t], s.tables, s.order, s.tickets, s.owner, t, pc);
    assert KeyIs(s.tables, pc.main, pc.slot, t) && Owns(s.owner, t, pc.value);
    hide PcOk;
    var tables', pcs' := Valued(s.tables, pc.main, pc.slot, pc.value), s.pcs[t := Done(Some(pc.value))];
    ValuedKeepsChain(hashes, s.tables, s.order, s.tickets, pc.main, pc.slot, pc.value);
    ValuedKeepsValues(s.tables, s.pcs, s.owner, t);
    hide ChainOk, ValuesOk;
    forall u | 0 <= u < |pcs'| ensures PcOk(hashes[u], tables', s.order, s.tickets, s.owner, u, pcs'[u]) {
      if u != t {
        ValuedKeepsPc(hashes[u], s.tables, s.order, s.tickets, s.owner, u, s.pcs[u], pc.main, pc.slot, pc.value);
      } else {
        DoneIsOk(hashes[t], tables', s.order, s.tickets, s.owner, t, pc.value);
      }
    }
    forall u: nat | Present(s.tables, u) ensures Present(tables', u) {
      var j :| 0 <= j < |s.tables| && Some(u) in s.tables[j].keys;
      assert Some(u) in tables'[j].keys;
    }
  }

  lemma DoneIsOk(hash: nat, tables: seq<Table>, order: seq<nat>, tickets: map<nat, int>, owner: map<nat, nat>, t: nat,
                 value: nat)
    requires TablesOk(tables) && Owns(owner, t, value)
    ensures PcOk(hash, tables, order, tickets, owner, t, Done(Some(value)))
  {}

  // ---- What holds in every run ----

  lemma SlotSearchKeepsInv(hashes: seq<nat>, s: State, t: nat, supply: Supply)
    requires Inv(hashes, s) && t < |s.pcs|
    requires s.pcs[t].Migrate? || s.pcs[t].CasMigrate? || s.pcs[t].Insert? || s.pcs[t].CasInsert?
    ensures Enabled(hashes, s, t) && Inv(hashes, Step(hashes, s, t, supply))
  {
    ProbesEnd(hashes, s, t);
    assert t < |hashes| && TablesOk(s.tables);
    hide Inv, Step, Enabled, TablesOk;
    var pc := s.pcs[t];
    if (pc.CasMigrate? || pc.CasInsert?) && KeyAt(s.tables[pc.main], hashes[t], pc.steps).None? {
      ClaimKeepsInv(hashes, s, t, supply);
    } else {
      LookForSlotKeepsInv(hashes, s, t, supply);
    }
  }

  /** Any atomic step of any thread can be taken and keeps the invariant. */
  lemma StepKeepsInv(hashes: seq<nat>, s: State, t: nat, supply: Supply)
    requires Inv(hashes, s) && t < |s.pcs|
    ensures Enabled(hashes, s, t) && Inv(hashes, Step(hashes, s, t, supply))
  {
    hide Inv, Step, Enabled;
    match s.pcs[t]
    case Idle => StartKeepsInv(hashes, s, t, supply);
    case LoadMain => StartKeepsInv(hashes, s, t, supply);
    case Done(_) => StartKeepsInv(hashes, s, t, supply);
    case Probe(_, _, _) => ProbeKeepsInv(hashes, s, t, supply);
    case ReadValue(_, _, _) => ReadKeepsInv(hashes, s, t, supply);
    case Migrate(_, _, _) => SlotSearchKeepsInv(hashes, s, t, supply);
    case CasMigrate(_, _, _) => SlotSearchKeepsInv(hashes, s, t, supply);
    case StoreMigrated(_, _, _) => StoreKeepsInv(hashes, s, t, supply);
    case AddCount(_) => AddCountKeepsInv(hashes, s, t, supply);
    case Check(_, _) => RetryKeepsInv(hashes, s, t, supply);
    case TryLock(_, _) => LockStepKeepsInv(hashes, s, t, supply);
    case Reload(_) => RetryKeepsInv(hashes, s, t, supply);
    case Allocate(_, _) => AllocateKeepsInv(hashes, s, t, supply);
    case GiveBackLocked => GiveBackKeepsInv(hashes, s, t, supply);
    case UnlockFailed => LockStepKeepsInv(hashes, s, t, supply);
    case Unlock(_, _) => LockStepKeepsInv(hashes, s, t, supply);
    case Fits(_, _) => RetryKeepsInv(hashes, s, t, supply);
    case ReloadMain(_) => RetryKeepsInv(hashes, s, t, supply);
    case Create(_, _) => CreateKeepsInv(hashes, s, t, supply);
    case GiveBack => GiveBackKeepsInv(hashes, s, t, supply);
    case Insert(_, _, _) => SlotSearchKeepsInv(hashes, s, t, supply);
    case CasInsert(_, _, _) => SlotSearchKeepsInv(hashes, s, t, supply);
    case StoreNew(_, _, _) => StoreKeepsInv(hashes, s, t, supply);
  }

  datatype Turn = Turn(thread: nat, supply: Supply)

  function Run(hashes: seq<nat>, s: State, schedule: seq<Turn>): State
    decreases |schedule|
  {
    if |schedule| == 0 then s
    else
      var turn := schedule[0];
      Run(hashes, if Enabled(hashes, s, turn.thread) then Step(hashes, s, turn.thread, turn.supply) else s, schedule[1..])
  }

  ghost predicate Initial(hashes: seq<nat>, s: State) {
    && (exists size: nat :: s.tables == [Empty(size)])
    && s.count == 0 && !s.resizing && s.order == [] && s.tickets == map[] && s.owner == map[]
    && |hashes| == |s.pcs| && forall t :: 0 <= t < |s.pcs| ==> s.pcs[t].Idle?
  }

  lemma {:induction false} RunKeepsInv(hashes: seq<nat>, s: State, schedule: seq<Turn>)
    requires Inv(hashes, s)
    ensures Inv(hashes, Run(hashes, s, schedule))
    decreases |schedule|
  {
    hide Inv, Enabled;
    if |schedule| > 0 {
      var turn := schedule[0];
      if Enabled(hashes, s, turn.thread) {
        EnabledThread(hashes, s, turn.thread);
        StepKeepsInv(hashes, s, turn.thread, turn.supply);
        RunKeepsInv(hashes, Step(hashes, s, turn.thread, turn.supply), schedule[1..]);
      } else {
        RunKeepsInv(hashes, s, schedule[1..]);
      }
    }
  }

  lemma EnabledThread(hashes: seq<nat>, s: State, t: nat)
    requires Enabled(hashes, s, t)
    ensures t < |s.pcs|
  {}

  /** Any number of threads, any hashed ids however they collide, any interleaving, any answers of the allocator. */
  lemma EveryRunKeepsInv(hashes: seq<nat>, s: State, schedule: seq<Turn>)
    requires Initial(hashes, s)
    ensures Inv(hashes, Run(hashes, s, schedule))
  {
    var size: nat :| s.tables == [Empty(size)];
    EmptyTableIsOk(hashes, s.order, s.tickets, size);
    RunKeepsInv(hashes, s, schedule);
  }

  /** A thread id that is in any table is always found there: its thread never comes to insert it again. */
  lemma RegisteredIsFound(hashes: seq<nat>, s: State, t: nat)
    requires Inv(hashes, s) && t < |s.pcs| && Present(s.tables, t)
    ensures !s.pcs[t].AddCount? && !Holding(s.pcs[t])
    ensures s.pcs[t].Probe? ==> exists j :: 0 <= j <= s.pcs[t].table && j < |s.tables| && Some(t) in s.tables[j].keys
  {
    hide ChainOk, OrderOk, OrderUsed, ValuesOk, LockOk, OwnersDiffer, Passed;
    var j :| 0 <= j < |s.tables| && Some(t) in s.tables[j].keys;
    assert PcOk(hashes[t], s.tables, s.order, s.tickets, s.owner, t, s.pcs[t]);
  }

  /** Wherever a thread's id stands, in however many tables, the producer beside it is one and the same, every call
      returns that producer, and no other thread has it. */
  lemma OneProducerPerThread(hashes: seq<nat>, s: State, t: nat)
    requires Inv(hashes, s) && t < |s.pcs|
    ensures forall j, p :: 0 <= j < |s.tables| && 0 <= p < |s.tables[j].keys| && s.tables[j].keys[p] == Some(t) ==>
              t in s.owner && p < |s.tables[j].values|
              && (Storing(s.pcs[t], j, p) || s.tables[j].values[p] == Some(s.owner[t]))
    ensures s.pcs[t].Done? && s.pcs[t].result.Some? ==> t in s.owner && s.pcs[t].result == Some(s.owner[t])
    ensures forall u :: u in s.owner && t in s.owner && u != t ==> s.owner[u] != s.owner[t]
  {
    hide ChainOk, OrderOk, OrderUsed, LockOk;
    assert PcOk(hashes[t], s.tables, s.order, s.tickets, s.owner, t, s.pcs[t]);
    forall j, p | 0 <= j < |s.tables| && 0 <= p < |s.tables[j].keys| && s.tables[j].keys[p] == Some(t)
      ensures t in s.owner && p < |s.tables[j].values|
              && (Storing(s.pcs[t], j, p) || s.tables[j].values[p] == Some(s.owner[t]))
    {
      assert ValueOk(s.tables, s.pcs, s.owner, j, p);
    }
  }

  /** Once a thread is registered no step of anyone unregisters it or gives it another producer. */
  lemma RegistrationIsPermanent(hashes: seq<nat>, s: State, u: nat, supply: Supply, t: nat)
    requires Inv(hashes, s) && u < |s.pcs| && t < |s.pcs| && Present(s.tables, t)
    ensures Enabled(hashes, s, u) && Present(Step(hashes, s, u, supply).tables, t)
    ensures t in s.owner && t in Step(hashes, s, u, supply).owner && Step(hashes, s, u, supply).owner[t] == s.owner[t]
  {
    StepKeepsInv(hashes, s, u, supply);
    RegisteredIsFound(hashes, s, t);
    var j :| 0 <= j < |s.tables| && Some(t) in s.tables[j].keys;
    var p :| 0 <= p < |s.tables[j].keys| && s.tables[j].keys[p] == Some(t);
    assert ValueOk(s.tables, s.pcs, s.owner, j, p);
    assert TablesOk(s.tables);
    hide Inv;
    KeyStays(hashes, s, u, supply, j, p, t);
  }

  lemma KeyStays(hashes: seq<nat>, s: State, u: nat, supply: Supply, j: nat, p: nat, t: nat)
    requires Enabled(hashes, s, u) && j < |s.tables| && p < |s.tables[j].keys| && s.tables[j].keys[p] == Some(t)
    ensures Present(Step(hashes, s, u, supply).tables, t)
  {
    var s' := Step(hashes, s, u, supply);
    assert j < |s'.tables| && p < |s'.tables[j].keys| && s'.tables[j].keys[p] == Some(t);
  }
}
