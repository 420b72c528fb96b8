/** The block index of an implicit producer: a ring of shared entries that maps block numbers to blocks, is
    doubled when it is full, and is rewound when an enqueue has to be undone. Consumers may go on using any
    header they have loaded. */
module ImplicitIndex {
  import opened Common
  import opened Words

  // Block number b holds the elements [b * BLOCK_SIZE, (b + 1) * BLOCK_SIZE). An entry's key is its block
  // base, here the block's number; None is INVALID_BLOCK_BASE. Its value is the block, None the null pointer.
  datatype Entry = Entry(key: Option<nat>, value: Option<nat>)

  // A header: 2^size ring positions naming entries, and the position of the newest one. `shift` is
  // auxiliary: block b belongs at position (b + shift) modulo the capacity.
  datatype Header = Header(size: nat, tail: nat, ring: seq<nat>, shift: int)

  // All entries ever allocated and all headers, the current one last. Auxiliary: `inserted` is the number
  // of the next block to insert, every key in the current ring is below `high`, and `unsettled` is the
  // block number whose key has been stored and whose value has not.
  datatype Index = Index(entries: seq<Entry>, headers: seq<Header>, inserted: nat, high: nat, unsettled: Option<nat>)

  function Position(h: Header, b: int): nat { (b + h.shift) % Pow2(h.size) }

  // The entry of block b in a header.
  function At(h: Header, b: int): nat
    requires |h.ring| == Pow2(h.size)
  {
    h.ring[Position(h, b)]
  }

  predicate HeaderOk(h: Header, entries: nat) {
    && |h.ring| == Pow2(h.size) && h.tail < |h.ring|
    && (forall p :: 0 <= p < |h.ring| ==> h.ring[p] < entries)
    && (forall p, q :: 0 <= p < q < |h.ring| ==> h.ring[p] != h.ring[q])
  }

  predicate WellFormed(x: Index) {
    && 0 < |x.headers|
    && forall j :: 0 <= j < |x.headers| ==> HeaderOk(x.headers[j], |x.entries|)
  }

  function Current(x: Index): Header
    requires WellFormed(x)
  {
    x.headers[|x.headers| - 1]
  }

  // ---- The operations of the producer ----

  // insert_block_index_entry, first half: the entry after the tail can be used if it never held a block or
  // its block is gone; its key becomes the new block's base.
  function NextEntry(x: Index): nat
    requires WellFormed(x)
  {
    var h := Current(x);
    h.ring[(h.tail + 1) % |h.ring|]
  }

  predicate Usable(x: Index)
    requires WellFormed(x)
  {
    x.entries[NextEntry(x)].key == None || x.entries[NextEntry(x)].value == None
  }

  function StoreKey(x: Index): Index
    requires WellFormed(x)
  {
    var e := NextEntry(x);
    x.(entries := x.entries[e := x.entries[e].(key := Some(x.inserted))],
       high := if x.high <= x.inserted then x.inserted + 1 else x.high, unsettled := Some(x.inserted))
  }

  // insert_block_index_entry, second half.
  function StoreTail(x: Index): Index
    requires WellFormed(x)
  {
    var h := Current(x);
    x.(headers := x.headers[|x.headers| - 1 := h.(tail := (h.tail + 1) % |h.ring|)], inserted := x.inserted + 1)
  }

  // rewind_block_index_tail
  function Rewind(x: Index): Index
    requires WellFormed(x) && 0 < x.inserted
  {
    var h := Current(x);
    x.(headers := x.headers[|x.headers| - 1 := h.(tail := (h.tail - 1) % |h.ring|)], inserted := x.inserted - 1)
  }

  function StoreValue(x: Index, e: nat, value: Option<nat>): Index
    requires e < |x.entries|
  {
    x.(entries := x.entries[e := x.entries[e].(value := value)],
       unsettled := if x.entries[e].key == x.unsettled then None else x.unsettled)
  }

  // new_block_index: the old ring from the oldest entry to the newest, then as many fresh entries.
  function Doubled(h: Header, entries: nat, inserted: nat): Header
    requires HeaderOk(h, entries)
  {
    var n := |h.ring|;
    Header(h.size + 1, n - 1,
           seq(n, i requires 0 <= i < n => h.ring[(h.tail + 1 + i) % n]) + seq(n, i => entries + i),
           n - inserted)
  }

  // Fresh entries have no key; their value fields hold whatever the memory held.
  function Grow(x: Index, junk: seq<Option<nat>>): Index
    requires WellFormed(x) && |junk| == |Current(x).ring|
  {
    var h := Current(x);
    x.(entries := x.entries + seq(|junk|, i requires 0 <= i < |junk| => Entry(None, junk[i])),
       headers := x.headers + [Doubled(h, |x.entries|, x.inserted)])
  }

  // ---- The invariant ----

  // In every header, old or current, an entry with a key sits where that key's block belongs.
  ghost predicate KeysInPlace(x: Index)
    requires WellFormed(x)
  {
    forall j :: 0 <= j < |x.headers| ==> KeysInPlaceFor(x.headers[j], x.entries)
  }

  ghost predicate KeysInPlaceFor(h: Header, entries: seq<Entry>)
    requires HeaderOk(h, |entries|)
  {
    forall p :: 0 <= p < |h.ring| && entries[h.ring[p]].key.Some? ==>
      Position(h, entries[h.ring[p]].key.value) == p
  }

  // Where an old header knows the entry of a block at all, it has it in the right place.
  ghost predicate HeadersAgree(x: Index)
    requires WellFormed(x)
  {
    forall j :: 0 <= j < |x.headers| ==> Agree(Current(x), x.headers[j])
  }

  ghost predicate Agree(h: Header, old': Header)
    requires |h.ring| == Pow2(h.size) && |old'.ring| == Pow2(old'.size)
  {
    forall b: int :: At(h, b) in old'.ring ==> At(h, b) == At(old', b)
  }

  // The keys of the current ring lie in one lap.
  ghost predicate OneLap(x: Index)
    requires WellFormed(x)
  {
    var h := Current(x);
    && x.high - |h.ring| <= x.inserted <= x.high
    && h.tail == Position(h, x.inserted - 1)
    && forall p :: 0 <= p < |h.ring| && x.entries[h.ring[p]].key.Some? ==>
         x.high - |h.ring| <= x.entries[h.ring[p]].key.value < x.high
  }

  // Entries that keep the key of a block whose insertion was undone hold no block.
  ghost predicate NoLeftovers(x: Index)
    requires WellFormed(x)
  {
    forall p :: 0 <= p < |Current(x).ring| ==>
      var e := x.entries[Current(x).ring[p]];
      e.key.Some? && x.inserted <= e.key.value ==> e.value == None
  }

  ghost predicate Inv(x: Index) {
    WellFormed(x) && KeysInPlace(x) && HeadersAgree(x) && OneLap(x)
  }

  // Block b can be found: its entry carries its base and its block.
  predicate Shows(x: Index, b: nat, block: nat)
    requires WellFormed(x)
  {
    x.entries[At(Current(x), b)] == Entry(Some(b), Some(block))
  }

  // ---- Positions ----

  lemma PositionStep(b: int, shift: int, n: int)
    requires 0 < n
    ensures ((b + shift) % n + 1) % n == (b + 1 + shift) % n
    ensures ((b + shift) % n - 1) % n == (b - 1 + shift) % n
  {
    ModOfSum(b + shift, 1, n);
    ModOfSum(b + shift, -1, n);
  }

  lemma NextPosition(h: Header, b: int)
    requires |h.ring| == Pow2(h.size) && h.tail == Position(h, b - 1)
    ensures (h.tail + 1) % |h.ring| == Position(h, b)
    ensures (h.tail - 1) % |h.ring| == Position(h, b - 2)
  {
    PositionStep(b - 1, h.shift, |h.ring|);
  }

  lemma NextEntryIsNext(x: Index)
    requires WellFormed(x) && Current(x).tail == Position(Current(x), x.inserted - 1)
    ensures NextEntry(x) == At(Current(x), x.inserted)
  {
    NextPosition(Current(x), x.inserted);
  }

  /** Two block numbers of one lap are at the same position only if they are the same. */
  lemma SamePosition(h: Header, a: int, b: int, lo: int)
    requires lo <= a < lo + Pow2(h.size) && lo <= b < lo + Pow2(h.size) && Position(h, a) == Position(h, b)
    ensures a == b
  {
    var k := ModEqual(a + h.shift, b + h.shift, Pow2(h.size));
    SmallMultiple(k, Pow2(h.size));
  }

  lemma ModEqual(x: int, y: int, n: int) returns (k: int)
    requires 0 < n && x % n == y % n
    ensures x - y == k * n
  {
    k := x / n - y / n;
    assert k * n == (x / n) * n - (y / n) * n;
  }

  // ---- Each operation keeps the invariant ----

  lemma StoreKeyKeepsPlaces(x: Index, j: nat)
    requires Inv(x) && j < |x.headers|
    ensures KeysInPlaceFor(x.headers[j], StoreKey(x).entries)
  {
    var h := x.headers[j];
    var e := NextEntry(x);
    assert KeysInPlaceFor(h, x.entries) && Agree(Current(x), h);
    NextEntryIsNext(x);
    forall p | 0 <= p < |h.ring| && StoreKey(x).entries[h.ring[p]].key.Some?
      ensures Position(h, StoreKey(x).entries[h.ring[p]].key.value) == p
    {
      if h.ring[p] == e {
        assert e in h.ring;
        assert h.ring[p] == h.ring[Position(h, x.inserted)];
      }
    }
  }

  // Positions repeat with the capacity, so the entry of the next block is that of the block one lap before.
  lemma OneLapBefore(h: Header, b: int)
    ensures Position(h, b - Pow2(h.size)) == Position(h, b)
  {
    ModAddsMultiple(b + h.shift, Pow2(h.size), -1);
  }

  lemma StoreKeyKeepsLap(x: Index)
    requires Inv(x)
    ensures OneLap(StoreKey(x))
  {
    var h := Current(x);
    var x' := StoreKey(x);
    NextEntryIsNext(x);
    OneLapBefore(h, x.inserted);
    assert KeysInPlaceFor(h, x.entries);
    forall p | 0 <= p < |h.ring|
      ensures var e := x'.entries[h.ring[p]];
        e.key.Some? ==> x'.high - |h.ring| <= e.key.value < x'.high
    {
      var key := x.entries[h.ring[p]].key;
      if h.ring[p] != NextEntry(x) && key.Some? {
        assert Position(h, key.value) == p;
        assert key != Some(x.inserted);
      }
    }
  }

  lemma StoreKeyKeepsInv(x: Index)
    requires Inv(x)
    ensures Inv(StoreKey(x))
    ensures StoreKey(x).entries[At(Current(x), x.inserted)].key == Some(x.inserted)
  {
    StoreKeyKeepsLap(x);
    NextEntryIsNext(x);
    forall j | 0 <= j < |x.headers| ensures KeysInPlaceFor(x.headers[j], StoreKey(x).entries) {
      StoreKeyKeepsPlaces(x, j);
    }
  }

  // Moving the tail changes neither entries nor rings, so everything but the lap is untouched.
  lemma TailMoveKeepsInv(x: Index, x': Index, tail: nat)
    requires Inv(x) && x'.entries == x.entries
    requires x'.headers == x.headers[|x.headers| - 1 := Current(x).(tail := tail)]
    requires WellFormed(x') && OneLap(x')
    ensures Inv(x')
  {
    forall j | 0 <= j < |x'.headers|
      ensures KeysInPlaceFor(x'.headers[j], x'.entries) && Agree(Current(x'), x'.headers[j])
    {
      assert KeysInPlaceFor(x.headers[j], x.entries) && Agree(Current(x), x.headers[j]);
      assert forall b: int :: At(Current(x'), b) == At(Current(x), b);
    }
  }

  lemma StoreTailKeepsInv(x: Index)
    requires Inv(x)
    requires x.entries[At(Current(x), x.inserted)].key == Some(x.inserted)
    ensures Inv(StoreTail(x))
  {
    var h := Current(x);
    NextPosition(h, x.inserted);
    var x' := StoreTail(x);
    TailMoveKeepsInv(x, x', (h.tail + 1) % |h.ring|);
  }

  lemma RewindKeepsInv(x: Index)
    requires Inv(x) && 0 < x.inserted
    requires x.entries[At(Current(x), x.inserted - 1)].key == Some(x.inserted - 1)
    ensures Inv(Rewind(x))
  {
    var h := Current(x);
    NextPosition(h, x.inserted);
    TailMoveKeepsInv(x, Rewind(x), (h.tail - 1) % |h.ring|);
  }

  lemma StoreValueKeepsInv(x: Index, e: nat, value: Option<nat>)
    requires Inv(x) && e < |x.entries|
    ensures Inv(StoreValue(x, e, value))
  {
    var x' := StoreValue(x, e, value);
    forall j | 0 <= j < |x.headers|
      ensures KeysInPlaceFor(x'.headers[j], x'.entries) && Agree(Current(x'), x'.headers[j])
    {
      assert KeysInPlaceFor(x.headers[j], x.entries) && Agree(Current(x), x.headers[j]);
    }
  }

  // ---- Doubling ----

  /** When the next entry is in use the ring is full: its keys are exactly the last lap. */
  lemma FullRing(x: Index)
    requires Inv(x) && !Usable(x) && NoLeftovers(x)
    ensures x.high == x.inserted
  {
    var h := Current(x);
    NextEntryIsNext(x);
    var p := Position(h, x.inserted);
    var e := x.entries[h.ring[p]];
    assert KeysInPlaceFor(h, x.entries);
    assert Position(h, e.key.value) == p;
    OneLapBefore(h, x.inserted);
    if x.inserted < x.high {
      SamePosition(h, e.key.value, x.inserted, x.high - |h.ring|);
    }
  }

  // The position in a doubled ring, worked out on plain numbers: n is the old capacity, c the number of
  // blocks inserted, shift the old shift.
  lemma DoubledPosition(b: int, shift: int, c: int, n: int)
    requires 0 < n
    ensures var q := (b + (n - c)) % (2 * n);
      0 <= q < 2 * n && ((c - 1 + shift) % n + 1 + q) % n == (b + shift) % n
  {
    var q := (b + (n - c)) % (2 * n);
    var j := (b + (n - c)) / (2 * n);
    TwoLaps(b + (n - c), q, j, n);
    SameSlot(c - 1 + shift, 1 + q, b + shift, 1 - 2 * j, n);
  }

  lemma SameSlot(t: int, d: int, y: int, k: int, n: int)
    requires 0 < n && t + d == y + k * n
    ensures (t % n + d) % n == y % n
  {
    ModOfSum(t, d, n);
    ModAddsMultiple(y, n, k);
  }

  lemma TwoLaps(x: int, q: int, j: int, n: int)
    requires 0 < n && q == x % (2 * n) && j == x / (2 * n)
    ensures q - x + n == (1 - 2 * j) * n
  {
    Regroup(j, 2, n);
    assert x == j * (2 * n) + q;
  }

  // Where a block belongs in a doubled ring, against where it belonged before.
  lemma PositionAfterDoubling(h: Header, entries: nat, inserted: nat, b: int)
    requires HeaderOk(h, entries) && h.tail == Position(h, inserted - 1)
    ensures var q := Position(Doubled(h, entries, inserted), b);
      && q < 2 * |h.ring| && (h.tail + 1 + q) % |h.ring| == Position(h, b)
      && (inserted - |h.ring| <= b < inserted ==> q < |h.ring|)
  {
    var n := |h.ring|;
    DoubledPosition(b, h.shift, inserted, n);
    if inserted - n <= b < inserted {
      DivisionIsUnique(b + n - inserted, 2 * n, 0, b + n - inserted);
    }
  }

  lemma DoubledRing(h: Header, entries: nat, inserted: nat, q: nat)
    requires HeaderOk(h, entries) && q < 2 * |h.ring|
    ensures Doubled(h, entries, inserted).ring[q] ==
            if q < |h.ring| then h.ring[(h.tail + 1 + q) % |h.ring|] else entries + (q - |h.ring|)
  {}

  /** Doubling moves no block to another entry: an entry of the new ring is the one the block had, or one
      that no older header knows; and every block of the last lap keeps its entry. */
  lemma GrowKeepsEntries(h: Header, entries: nat, inserted: nat, b: int)
    requires HeaderOk(h, entries) && h.tail == Position(h, inserted - 1)
    ensures var h' := Doubled(h, entries, inserted);
      && |h'.ring| == Pow2(h'.size)
      && (At(h', b) == At(h, b) || entries <= At(h', b))
      && (inserted - |h.ring| <= b < inserted ==> At(h', b) == At(h, b))
  {
    PositionAfterDoubling(h, entries, inserted, b);
    DoubledRing(h, entries, inserted, Position(Doubled(h, entries, inserted), b));
  }

  lemma RotationIsInjective(tail: int, n: int, i: int, j: int)
    requires 0 <= i < j < n
    ensures (tail + 1 + i) % n != (tail + 1 + j) % n
  {
    if (tail + 1 + i) % n == (tail + 1 + j) % n {
      var k := ModEqual(tail + 1 + j, tail + 1 + i, n);
      SmallMultiple(k, n);
    }
  }

  lemma DoubledIsOk(h: Header, entries: nat, inserted: nat)
    requires HeaderOk(h, entries)
    ensures HeaderOk(Doubled(h, entries, inserted), entries + |h.ring|)
  {
    var n := |h.ring|;
    var h' := Doubled(h, entries, inserted);
    forall p, q | 0 <= p < q < |h'.ring| ensures h'.ring[p] != h'.ring[q] {
      if q < n {
        RotationIsInjective(h.tail, n, p, q);
      }
    }
  }

  lemma GrowIsOk(x: Index, junk: seq<Option<nat>>)
    requires WellFormed(x) && |junk| == |Current(x).ring|
    ensures WellFormed(Grow(x, junk))
    ensures Current(Grow(x, junk)) == Doubled(Current(x), |x.entries|, x.inserted)
  {
    DoubledIsOk(Current(x), |x.entries|, x.inserted);
    var x' := Grow(x, junk);
    forall j | 0 <= j < |x'.headers| ensures HeaderOk(x'.headers[j], |x'.entries|) {
      if j < |x.headers| {
        assert x'.headers[j] == x.headers[j];
      }
    }
  }

  // What a position of the doubled ring holds.
  lemma GrownEntry(x: Index, junk: seq<Option<nat>>, p: nat)
    requires WellFormed(x) && |junk| == |Current(x).ring| && p < 2 * |Current(x).ring|
    ensures WellFormed(Grow(x, junk))
    ensures var h := Current(x);
      var n := |h.ring|;
      var e := Grow(x, junk).entries[Current(Grow(x, junk)).ring[p]];
      if p < n then e == x.entries[h.ring[(h.tail + 1 + p) % n]] else e.key == None
  {
    GrowIsOk(x, junk);
    var h' := Doubled(Current(x), |x.entries|, x.inserted);
    if |Current(x).ring| <= p {
      assert h'.ring[p] == |x.entries| + (p - |Current(x).ring|);
    }
  }

  // A key of the last lap lands on the position its entry is copied to.
  lemma CopiedKeyInPlace(h: Header, entries: nat, inserted: nat, key: int, p: nat)
    requires HeaderOk(h, entries) && h.tail == Position(h, inserted - 1) && p < |h.ring|
    requires inserted - |h.ring| <= key < inserted
    requires Position(h, key) == (h.tail + 1 + p) % |h.ring|
    ensures Position(Doubled(h, entries, inserted), key) == p
  {
    KeyAfterDoubling(key, h.shift, inserted, |h.ring|, p);
  }

  lemma GrownKeyInPlace(x: Index, junk: seq<Option<nat>>, p: nat)
    requires Inv(x) && |junk| == |Current(x).ring| && x.high == x.inserted && p < 2 * |Current(x).ring|
    ensures WellFormed(Grow(x, junk))
    ensures var h' := Current(Grow(x, junk));
      var e := Grow(x, junk).entries[h'.ring[p]];
      e.key.Some? ==> Position(h', e.key.value) == p && x.high - |Current(x).ring| <= e.key.value < x.high
  {
    var h := Current(x);
    GrowIsOk(x, junk);
    GrownEntry(x, junk, p);
    if p < |h.ring| {
      var q := (h.tail + 1 + p) % |h.ring|;
      var e := x.entries[h.ring[q]];
      assert KeysInPlaceFor(h, x.entries);
      if e.key.Some? {
        CopiedKeyInPlace(h, |x.entries|, x.inserted, e.key.value, p);
      }
    }
  }

  lemma GrowKeepsPlaces(x: Index, junk: seq<Option<nat>>)
    requires Inv(x) && |junk| == |Current(x).ring| && x.high == x.inserted
    ensures WellFormed(Grow(x, junk)) && OneLap(Grow(x, junk))
    ensures KeysInPlaceFor(Current(Grow(x, junk)), Grow(x, junk).entries)
  {
    var n := |Current(x).ring|;
    GrowIsOk(x, junk);
    forall p | 0 <= p < 2 * n
      ensures var h' := Current(Grow(x, junk));
        var e := Grow(x, junk).entries[h'.ring[p]];
        e.key.Some? ==> Position(h', e.key.value) == p && x.high - n <= e.key.value < x.high
    {
      GrownKeyInPlace(x, junk, p);
    }
    DivisionIsUnique(n - 1, 2 * n, 0, n - 1);
  }

  lemma KeyAfterDoubling(b: int, shift: int, c: int, n: int, p: int)
    requires 0 <= p < n && c - n <= b < c
    requires (b + shift) % n == ((c - 1 + shift) % n + 1 + p) % n
    ensures (b + (n - c)) % (2 * n) == p
  {
    ModOfSum(c - 1 + shift, 1 + p, n);
    var k := ModEqual(b + shift, c + shift + p, n);
    assert b - c + n - p == (k + 1) * n;
    SmallMultiple(k + 1, n);
    DivisionIsUnique(p, 2 * n, 0, p);
  }

  lemma GrowKeepsAgreement(x: Index, junk: seq<Option<nat>>, j: nat)
    requires Inv(x) && |junk| == |Current(x).ring| && j < |x.headers|
    ensures WellFormed(Grow(x, junk)) && Agree(Current(Grow(x, junk)), x.headers[j])
    ensures KeysInPlaceFor(x.headers[j], Grow(x, junk).entries)
  {
    GrowIsOk(x, junk);
    var h' := Current(Grow(x, junk));
    var h := x.headers[j];
    assert Agree(Current(x), h) && KeysInPlaceFor(h, x.entries);
    forall b: int | At(h', b) in h.ring ensures At(h', b) == At(h, b) {
      GrowKeepsEntries(Current(x), |x.entries|, x.inserted, b);
    }
  }

  lemma GrowKeepsInv(x: Index, junk: seq<Option<nat>>)
    requires Inv(x) && x.high == x.inserted && |junk| == |Current(x).ring|
    ensures Inv(Grow(x, junk)) && Usable(Grow(x, junk))
  {
    GrowKeepsPlaces(x, junk);
    var x' := Grow(x, junk);
    forall j | 0 <= j < |x'.headers|
      ensures KeysInPlaceFor(x'.headers[j], x'.entries) && Agree(Current(x'), x'.headers[j])
    {
      if j < |x.headers| {
        GrowKeepsAgreement(x, junk, j);
      }
    }
    var n := |Current(x).ring|;
    DivisionIsUnique(n, 2 * n, 0, n);
    GrownEntry(x, junk, n);
  }

  // ---- Lookup ----

  // get_block_index_index_for_index: from any header and a tail position read in it, the position of the
  // block of an index, computed on w-bit words from the key of the tail's entry.
  function LookupPosition(w: nat, k: nat, h: Header, tail: nat, tailKey: int, index: int): int {
    MaskedSlot(w, k, h.size, tail, Wrap(w, tailKey * Pow2(k)), Wrap(w, index))
  }

  /** From whatever position with a key it starts, a lookup through any header computes the one position where
      the block of the index belongs. */
  lemma LookupIsExact(w: nat, k: nat, x: Index, j: nat, tail: nat, index: int)
    requires Inv(x) && j < |x.headers| && x.headers[j].size + k <= w && tail < |x.headers[j].ring|
    requires x.entries[x.headers[j].ring[tail]].key.Some?
    ensures var h := x.headers[j];
      LookupPosition(w, k, h, tail, x.entries[h.ring[tail]].key.value, index) == Position(h, index / Pow2(k))
  {
    var h := x.headers[j];
    var b := x.entries[h.ring[tail]].key.value;
    assert KeysInPlaceFor(h, x.entries);
    MaskedSlotIsExact(w, k, h.size, tail, b, index);
    ModOfSum(b + h.shift, index / Pow2(k) - b, Pow2(h.size));
  }

  // The constructor: one header of 2^size fresh entries, its tail poised before the first.
  function Fresh(size: nat, junk: seq<Option<nat>>): Index
    requires |junk| == Pow2(size)
  {
    Index(seq(|junk|, i requires 0 <= i < |junk| => Entry(None, junk[i])),
          [Header(size, Pow2(size) - 1, seq(Pow2(size), i => i), 0)], 0, 0, None)
  }

  lemma FreshInv(size: nat, junk: seq<Option<nat>>)
    requires |junk| == Pow2(size)
    ensures Inv(Fresh(size, junk))
  {
    DivisionIsUnique(-1, Pow2(size), -1, Pow2(size) - 1);
  }
}
