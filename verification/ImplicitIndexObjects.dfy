/** The implicit block index as the objects the source builds: entries shared by pointer between the arrays of all
    headers, keys that are w-bit words, and the loops that fill a new header. Each operation is proved to do to the
    objects what ImplicitIndex says about values. */
module ImplicitIndexObjects {
  import opened Common
  import opened Words
  import opened ImplicitIndex

  // No block starts at an odd index.
  const INVALID_BLOCK_BASE := 1

  class BlockIndexEntry {
    var key: int
    var value: Option<nat>
    // The number of the block whose base `key` is.
    ghost var block: Option<nat>

    constructor (junk: Option<nat>)
      ensures key == INVALID_BLOCK_BASE && value == junk && block == None
    {
      key, value, block := INVALID_BLOCK_BASE, junk, None;
    }

    ghost function Abs(): Entry
      reads this
    {
      Entry(block, value)
    }

    ghost predicate KeyOk(w: nat, k: nat)
      reads this
    {
      key == match block case None => INVALID_BLOCK_BASE case Some(b) => Wrap(w, b * Pow2(k))
    }
  }

  class BlockIndexHeader {
    const capacity: nat
    // The array of pointers; it is filled before the header is published and never written again.
    const index: seq<BlockIndexEntry>
    var tail: nat
    // log2 of the capacity, the numbers of the entries that `index` points to, and the shift of the header.
    ghost const size: nat
    ghost const ring: seq<nat>
    ghost const shift: int

    constructor (capacity: nat, index: seq<BlockIndexEntry>, tail: nat,
                 ghost size: nat, ghost ring: seq<nat>, ghost shift: int)
      ensures this.capacity == capacity && this.index == index && this.tail == tail
      ensures this.size == size && this.ring == ring && this.shift == shift
    {
      this.capacity, this.index, this.tail := capacity, index, tail;
      this.size, this.ring, this.shift := size, ring, shift;
    }

    ghost function Abs(): Header
      reads this
    {
      Header(size, tail, ring, shift)
    }

    // The array points to the entries it should.
    ghost predicate PointsInto(entries: seq<BlockIndexEntry>) {
      capacity == |index| == Pow2(size) && PointsTo(index, ring, entries)
    }
  }

  ghost predicate PointsTo(index: seq<BlockIndexEntry>, ring: seq<nat>, entries: seq<BlockIndexEntry>) {
    && |index| == |ring|
    && forall p :: 0 <= p < |ring| ==> ring[p] < |entries| && index[p] == entries[ring[p]]
  }

  ghost predicate Distinct(entries: seq<BlockIndexEntry>) {
    forall e, f :: 0 <= e < f < |entries| ==> entries[e] != entries[f]
  }

  ghost predicate DistinctHeaders(headers: seq<BlockIndexHeader>) {
    forall i, j :: 0 <= i < j < |headers| ==> headers[i] != headers[j]
  }

  ghost predicate AllPoint(headers: seq<BlockIndexHeader>, entries: seq<BlockIndexEntry>)
  {
    forall j :: 0 <= j < |headers| ==> headers[j].PointsInto(entries)
  }

  // How headers and entries hang together; none of this changes while an entry or a tail is written.
  ghost predicate Linked(headers: seq<BlockIndexHeader>, entries: seq<BlockIndexEntry>, current: BlockIndexHeader,
                         nextCapacity: nat) {
    && 0 < |headers| && current == headers[|headers| - 1] && nextCapacity == 2 * current.capacity
    && AllPoint(headers, entries) && DistinctHeaders(headers) && Distinct(entries)
  }

  ghost predicate KeysOk(w: nat, k: nat, entries: seq<BlockIndexEntry>)
    reads entries
  {
    forall e :: 0 <= e < |entries| ==> entries[e].KeyOk(w, k)
  }

  ghost function Contents(entries: seq<BlockIndexEntry>): (s: seq<Entry>)
    reads entries
    ensures |s| == |entries| && forall e :: 0 <= e < |entries| ==> s[e] == entries[e].Abs()
  {
    if |entries| == 0 then [] else Contents(entries[..|entries| - 1]) + [entries[|entries| - 1].Abs()]
  }

  ghost function Views(headers: seq<BlockIndexHeader>): (s: seq<Header>)
    reads headers
    ensures |s| == |headers| && forall j :: 0 <= j < |headers| ==> s[j] == headers[j].Abs()
  {
    if |headers| == 0 then [] else Views(headers[..|headers| - 1]) + [headers[|headers| - 1].Abs()]
  }

  function FreshEntries(junk: seq<Option<nat>>): (s: seq<Entry>)
    ensures |s| == |junk|
  {
    seq(|junk|, i requires 0 <= i < |junk| => Entry(None, junk[i]))
  }

  lemma FreshIsWellFormed(size: nat, junk: seq<Option<nat>>)
    requires |junk| == Pow2(size)
    ensures WellFormed(Fresh(size, junk))
    ensures Fresh(size, junk)
            == Index(FreshEntries(junk), [Header(size, Pow2(size) - 1, seq(Pow2(size), e => e), 0)], 0, 0, None)
  {}

  lemma OneHeader(header: BlockIndexHeader, entries: seq<BlockIndexEntry>)
    requires header.PointsInto(entries) && Distinct(entries)
    ensures Linked([header], entries, header, 2 * header.capacity)
  {}

  // Block bases are even.
  lemma BaseIsValid(w: nat, k: nat, b: nat)
    requires 1 <= k <= w
    ensures Wrap(w, b * Pow2(k)) != INVALID_BLOCK_BASE
  {
    WrapModPow2(w, k, b * Pow2(k));
    DivisionIsUnique(b * Pow2(k), Pow2(k), b, 0);
    DivisionIsUnique(1, Pow2(k), 0, 1);
  }

  lemma KeyTellsBlock(w: nat, k: nat, entries: seq<BlockIndexEntry>, e: nat)
    requires 1 <= k <= w && KeysOk(w, k, entries) && e < |entries|
    ensures entries[e].key == INVALID_BLOCK_BASE <==> entries[e].block == None
  {
    assert entries[e].KeyOk(w, k);
    if entries[e].block.Some? {
      BaseIsValid(w, k, entries[e].block.value);
    }
  }

  // Contents after a change to entry e alone.
  lemma OneEntryChanged(entries: seq<BlockIndexEntry>, before: seq<Entry>, e: nat)
    requires |before| == |entries| && e < |entries|
    requires forall f :: 0 <= f < |entries| && f != e ==> entries[f].Abs() == before[f]
    ensures Contents(entries) == before[e := entries[e].Abs()]
  {}

  lemma KeyIsBase(w: nat, k: nat, entries: seq<BlockIndexEntry>, e: nat)
    requires KeysOk(w, k, entries) && e < |entries| && Contents(entries)[e].key.Some?
    ensures entries[e].key == Wrap(w, Contents(entries)[e].key.value * Pow2(k))
  {
    assert entries[e].KeyOk(w, k);
  }

  // The index with room for one more block, if memory was needed and granted, and then with that block's entry.
  ghost function WithRoom(x: Index, memory: Option<seq<Option<nat>>>): (y: Index)
    requires WellFormed(x)
    ensures WellFormed(y)
  {
    if !Usable(x) && memory.Some? && |memory.value| == |Current(x).ring| then
      GrowIsOk(x, memory.value);
      Grow(x, memory.value)
    else x
  }

  ghost function WithEntry(x: Index, memory: Option<seq<Option<nat>>>): Index
    requires WellFormed(x)
  {
    StepsAreOk(WithRoom(x, memory));
    ImplicitIndex.StoreTail(ImplicitIndex.StoreKey(WithRoom(x, memory)))
  }

  lemma RoomAfterGrowth(x: Index, junk: seq<Option<nat>>)
    requires Inv(x) && NoLeftovers(x) && !Usable(x) && |junk| == |Current(x).ring|
    ensures WithRoom(x, Some(junk)) == Grow(x, junk) && Inv(Grow(x, junk)) && Usable(Grow(x, junk))
    ensures Grow(x, junk).inserted == x.inserted
  {
    hide Inv, NoLeftovers, Usable;
    FullRing(x);
    GrowKeepsInv(x, junk);
  }

  // An insertion leaves the tail at the new block's entry, with its key.
  lemma InsertIsRight(x: Index, memory: Option<seq<Option<nat>>>)
    requires WellFormed(x) && Inv(WithRoom(x, memory))
    ensures Inv(ImplicitIndex.StoreKey(WithRoom(x, memory)))
    ensures var z := WithEntry(x, memory);
      && z == ImplicitIndex.StoreTail(ImplicitIndex.StoreKey(WithRoom(x, memory)))
      && Inv(z) && z.inserted == x.inserted + 1
      && Current(z).tail == Position(Current(z), x.inserted)
      && z.entries[At(Current(z), x.inserted)].key == Some(x.inserted)
  {
    hide KeysInPlace, HeadersAgree, NextEntry;
    var y := WithRoom(x, memory);
    StoreKeyKeepsInv(y);
    StoreTailKeepsInv(ImplicitIndex.StoreKey(y));
    NextPosition(Current(y), y.inserted);
  }

  lemma StepsAreOk(x: Index)
    requires WellFormed(x)
    ensures WellFormed(ImplicitIndex.StoreKey(x)) && WellFormed(ImplicitIndex.StoreTail(x))
    ensures 0 < x.inserted ==> WellFormed(ImplicitIndex.Rewind(x))
  {}

  lemma NewHeaderPoints(prev: BlockIndexHeader, entries: seq<BlockIndexEntry>, inserted: nat, copied: seq<BlockIndexEntry>,
                        all: seq<BlockIndexEntry>)
    requires prev.PointsInto(entries) && HeaderOk(prev.Abs(), |entries|) && |copied| == |all| == prev.capacity
    requires forall p :: 0 <= p < |copied| ==> copied[p] == prev.index[(prev.tail + 1 + p) % |copied|]
    ensures var h := Doubled(prev.Abs(), |entries|, inserted);
      PointsTo(copied + all, h.ring, entries + all) && 2 * prev.capacity == Pow2(h.size)
      && h.size == prev.size + 1 && h.tail == prev.capacity - 1
  {
    var h := Doubled(prev.Abs(), |entries|, inserted);
    forall p | 0 <= p < |h.ring|
      ensures h.ring[p] < |entries + all| && (copied + all)[p] == (entries + all)[h.ring[p]]
    {
      DoubledRing(prev.Abs(), |entries|, inserted, p);
    }
  }

  lemma LinkedGrows(headers: seq<BlockIndexHeader>, entries: seq<BlockIndexEntry>, header: BlockIndexHeader,
                    all: seq<BlockIndexEntry>)
    requires 0 < |headers| && Linked(headers, entries, headers[|headers| - 1], 2 * headers[|headers| - 1].capacity)
    requires header !in headers && header.PointsInto(entries + all)
    requires Distinct(all) && forall e :: e in all ==> e !in entries
    ensures Linked(headers + [header], entries + all, header, 2 * header.capacity)
  {
    forall j | 0 <= j < |headers| ensures headers[j].PointsInto(entries + all) {
      assert headers[j].PointsInto(entries);
    }
    var both := entries + all;
    forall e, f | 0 <= e < f < |both| ensures both[e] != both[f] {
      if e < |entries| <= f {
        assert both[f] == all[f - |entries|] && both[e] == entries[e];
        assert both[f] in all;
      }
    }
  }

  lemma GrowIs(x: Index, junk: seq<Option<nat>>)
    requires WellFormed(x) && |junk| == |Current(x).ring|
    ensures Grow(x, junk) == x.(entries := x.entries + FreshEntries(junk),
                                headers := x.headers + [Doubled(Current(x), |x.entries|, x.inserted)])
  {}

  lemma KeysGrow(w: nat, k: nat, entries: seq<BlockIndexEntry>, all: seq<BlockIndexEntry>)
    requires KeysOk(w, k, entries) && KeysOk(w, k, all)
    ensures KeysOk(w, k, entries + all)
  {}

  lemma ContentsAdd(entries: seq<BlockIndexEntry>, all: seq<BlockIndexEntry>)
    ensures Contents(entries + all) == Contents(entries) + Contents(all)
  {}

  lemma ViewsAdd(headers: seq<BlockIndexHeader>, header: BlockIndexHeader)
    ensures Views(headers + [header]) == Views(headers) + [header.Abs()]
  {}

  class BlockIndex {
    const w: nat
    const k: nat
    var blockIndex: BlockIndexHeader
    var nextBlockIndexCapacity: nat
    // The headers linked through prev, oldest first.
    var headers: seq<BlockIndexHeader>
    ghost var entries: seq<BlockIndexEntry>
    ghost var inserted: nat
    ghost var high: nat
    ghost var unsettled: Option<nat>

    ghost function Abs(): Index
      reads this, entries, headers
    {
      Index(Contents(entries), Views(headers), inserted, high, unsettled)
    }

    ghost predicate Valid()
      reads this, entries, headers
    {
      && 1 <= k <= w && 0 < |headers|
      && Linked(headers, entries, blockIndex, nextBlockIndexCapacity) && KeysOk(w, k, entries)
      && WellFormed(Abs())
    }

    lemma AtHeader(j: nat)
      requires Valid() && j < |headers|
      ensures headers[j].PointsInto(entries) && HeaderOk(headers[j].Abs(), |entries|) && blockIndex == headers[|headers| - 1]
      ensures Distinct(entries) && forall i :: 0 <= i < |headers| && i != j ==> headers[i] != headers[j]
      ensures WellFormed(Abs()) && Abs().headers[j] == headers[j].Abs() && Current(Abs()) == blockIndex.Abs()
      ensures nextBlockIndexCapacity == 2 * blockIndex.capacity
    {}

    // The entry after the tail.
    lemma AtNext()
      requires Valid()
      ensures blockIndex.capacity == |blockIndex.index| && 0 < blockIndex.capacity
      ensures NextEntry(Abs()) < |entries|
      ensures blockIndex.index[(blockIndex.tail + 1) % blockIndex.capacity] == entries[NextEntry(Abs())]
      ensures var e := entries[NextEntry(Abs())];
        Usable(Abs()) <==> e.key == INVALID_BLOCK_BASE || e.value == None
    {
      hide Pow2, Contents, Views, Linked;
      AtHeader(|headers| - 1);
      KeyTellsBlock(w, k, entries, NextEntry(Abs()));
    }

    // The constructor of the producer runs new_block_index with no header before; 2^size is the initial capacity.
    constructor (w: nat, k: nat, capacity: nat, junk: seq<Option<nat>>, ghost size: nat)
      requires 1 <= k <= w && capacity == Pow2(size) && |junk| == capacity
      ensures Valid() && fresh(entries) && headers == [blockIndex] && fresh(blockIndex)
      ensures this.w == w && this.k == k && Abs() == Fresh(size, junk)
    {
      hide WellFormed, KeysOk, Linked, Distinct, Pow2, Fresh, FreshEntries, Contents, Views;
      ghost var first := Fresh(size, junk);
      FreshIsWellFormed(size, junk);
      var anything := new BlockIndexEntry(None);
      var index := new BlockIndexEntry[capacity](_ => anything);
      ghost var all := AddEntries(w, k, index, 0, junk);
      var header := new BlockIndexHeader(capacity, index[..], capacity - 1, size, first.headers[0].ring, 0);
      this.w, this.k := w, k;
      blockIndex, nextBlockIndexCapacity := header, 2 * capacity;
      entries, headers := all, [header];
      inserted, high, unsettled := 0, 0, None;
      new;
      assert index[0..] == index[..];
      OneHeader(header, entries);
      assert Views(headers) == first.headers;
      assert Abs() == first;
    }

    // The second loop of new_block_index: fresh entries without a key, and pointers to them.
    static method AddEntries(w: nat, k: nat, index: array<BlockIndexEntry>, prevCapacity: nat, junk: seq<Option<nat>>)
      returns (ghost all: seq<BlockIndexEntry>)
      requires prevCapacity + |junk| == index.Length
      modifies index
      ensures fresh(all) && |all| == |junk| && Distinct(all) && KeysOk(w, k, all)
      ensures Contents(all) == FreshEntries(junk)
      ensures index[..prevCapacity] == old(index[..prevCapacity]) && index[prevCapacity..] == all
    {
      all := [];
      var i := 0;
      while i != |junk|
        invariant 0 <= i <= |junk| && |all| == i
        invariant fresh(all) && Distinct(all)
        invariant forall e :: 0 <= e < i ==> all[e].key == INVALID_BLOCK_BASE && all[e].Abs() == Entry(None, junk[e])
        invariant index[..prevCapacity] == old(index[..prevCapacity]) && index[prevCapacity..prevCapacity + i] == all
        decreases |junk| - i
      {
        var entry := new BlockIndexEntry(junk[i]);
        index[prevCapacity + i] := entry;
        all := all + [entry];
        i := i + 1;
      }
    }

    /** The first half of insert_block_index_entry: whether the entry after the tail can be used, and the store of its
        key. */
    method StoreKey(blockStartIndex: int) returns (ok: bool)
      requires Valid() && blockStartIndex == Wrap(w, inserted * Pow2(k))
      modifies this, entries
      ensures Valid() && entries == old(entries) && headers == old(headers) && blockIndex == old(blockIndex)
      ensures ok == Usable(old(Abs()))
      ensures Abs() == if ok then ImplicitIndex.StoreKey(old(Abs())) else old(Abs())
    {
      hide WellFormed, Linked, Pow2, Contents, Views, NextEntry, Usable;
      AtHeader(|headers| - 1);
      AtNext();
      ghost var x, e := Abs(), NextEntry(Abs());
      var newTail := (blockIndex.tail + 1) % blockIndex.capacity;
      var idxEntry := blockIndex.index[newTail];
      ok := idxEntry.key == INVALID_BLOCK_BASE || idxEntry.value == None;
      if ok {
        idxEntry.key := blockStartIndex;
        idxEntry.block := Some(inserted);
        high, unsettled := if high <= inserted then inserted + 1 else high, Some(inserted);
        forall f | 0 <= f < |entries|
          ensures entries[f].KeyOk(w, k) && (f != e ==> entries[f].Abs() == x.entries[f])
        {
          assert f != e ==> entries[f] != idxEntry && old(entries[f].KeyOk(w, k));
        }
        OneEntryChanged(entries, x.entries, e);
        StepsAreOk(x);
        assert Abs() == ImplicitIndex.StoreKey(x);
      }
    }

    /** The end of the second half of insert_block_index_entry. */
    method StoreTail()
      requires Valid()
      modifies this, blockIndex
      ensures Valid() && entries == old(entries) && headers == old(headers) && blockIndex == old(blockIndex)
      ensures Abs() == ImplicitIndex.StoreTail(old(Abs()))
    {
      hide WellFormed, Linked, KeysOk, Pow2, Contents, Views;
      AtHeader(|headers| - 1);
      StepsAreOk(Abs());
      ghost var x := Abs();
      blockIndex.tail := (blockIndex.tail + 1) % blockIndex.capacity;
      inserted := inserted + 1;
      assert Abs().headers == ImplicitIndex.StoreTail(x).headers;
      assert Abs() == ImplicitIndex.StoreTail(x);
    }

    /** rewind_block_index_tail */
    method Rewind()
      requires Valid() && 0 < inserted
      modifies this, blockIndex
      ensures Valid() && entries == old(entries) && headers == old(headers) && blockIndex == old(blockIndex)
      ensures Abs() == ImplicitIndex.Rewind(old(Abs()))
    {
      hide WellFormed, Linked, KeysOk, Pow2, Contents, Views;
      AtHeader(|headers| - 1);
      StepsAreOk(Abs());
      ghost var x := Abs();
      blockIndex.tail := (blockIndex.tail - 1) % blockIndex.capacity;
      inserted := inserted - 1;
      assert Abs().headers == ImplicitIndex.Rewind(x).headers;
      assert Abs() == ImplicitIndex.Rewind(x);
    }

    /** The store of an entry's value: a block once it is hooked in, null once it is gone. */
    method StoreValue(idxEntry: BlockIndexEntry, value: Option<nat>, ghost e: nat)
      requires Valid() && e < |entries| && idxEntry == entries[e]
      modifies this, idxEntry
      ensures Valid() && entries == old(entries) && headers == old(headers) && blockIndex == old(blockIndex)
      ensures Abs() == ImplicitIndex.StoreValue(old(Abs()), e, value)
    {
      hide WellFormed, Linked, Pow2, Contents, Views;
      AtHeader(|headers| - 1);
      ghost var x := Abs();
      idxEntry.value := value;
      unsettled := if idxEntry.block == unsettled then None else unsettled;
      forall f | 0 <= f < |entries|
        ensures entries[f].KeyOk(w, k) && (f != e ==> entries[f].Abs() == x.entries[f])
      {
        assert f != e ==> entries[f] != idxEntry;
        assert old(entries[f].KeyOk(w, k));
      }
      OneEntryChanged(entries, x.entries, e);
      ValueIsOk(x, e, value);
      assert Abs() == ImplicitIndex.StoreValue(x, e, value);
    }

    // The header new_block_index builds: the pointers of the old array from the oldest to the newest, then pointers to
    // fresh entries.
    static method BuildHeader(w: nat, k: nat, prev: BlockIndexHeader, junk: seq<Option<nat>>,
                              ghost entries: seq<BlockIndexEntry>, ghost inserted: nat)
      returns (header: BlockIndexHeader, ghost all: seq<BlockIndexEntry>)
      requires prev.PointsInto(entries) && HeaderOk(prev.Abs(), |entries|) && |junk| == prev.capacity
      ensures fresh(header) && fresh(all) && Contents(all) == FreshEntries(junk) && KeysOk(w, k, all)
      ensures Distinct(all) && header.PointsInto(entries + all) && header.capacity == 2 * prev.capacity
      ensures header.Abs() == Doubled(prev.Abs(), |entries|, inserted)
    {
      hide KeysOk, Pow2, Contents, Distinct, FreshEntries, Doubled;
      var prevCapacity := prev.capacity;
      var index := new BlockIndexEntry[2 * prevCapacity](_ => prev.index[0]);
      CopyRing(prev.index, prev.tail, index);
      ghost var copied := index[..prevCapacity];
      all := AddEntries(w, k, index, prevCapacity, junk);
      assert index[..] == copied + all;
      ghost var h' := Doubled(prev.Abs(), |entries|, inserted);
      NewHeaderPoints(prev, entries, inserted, copied, all);
      header := new BlockIndexHeader(2 * prevCapacity, index[..], prevCapacity - 1, h'.size, h'.ring, h'.shift);
    }

    /** new_block_index */
    method NewBlockIndex(memory: Option<seq<Option<nat>>>) returns (ok: bool)
      requires Valid() && (memory.Some? ==> |memory.value| == blockIndex.capacity)
      modifies this
      ensures Valid() && ok == memory.Some?
      ensures Abs() == if ok then Grow(old(Abs()), memory.value) else old(Abs())
      ensures old(headers) <= headers && old(entries) <= entries
      ensures fresh(entries[|old(entries)|..]) && fresh(headers[|old(headers)|..])
      ensures if ok then fresh(blockIndex) else blockIndex == old(blockIndex)
    {
      hide WellFormed, KeysOk, Pow2, Contents, Views, Linked, Distinct, FreshEntries, Doubled, Grow;
      if memory == None {
        return false;
      }
      AtHeader(|headers| - 1);
      ghost var x := Abs();
      var header, all := BuildHeader(w, k, blockIndex, memory.value, entries, inserted);
      GrowIsOk(x, memory.value);
      GrowIs(x, memory.value);
      LinkedGrows(headers, entries, header, all);
      KeysGrow(w, k, entries, all);
      ContentsAdd(entries, all);
      ViewsAdd(headers, header);
      blockIndex := header;
      headers := headers + [header];
      entries := entries + all;
      nextBlockIndexCapacity := 2 * nextBlockIndexCapacity;
      ok := true;
      assert Abs() == Grow(x, memory.value);
    }

    // The entry after the tail is given the key, in a larger index if need be.
    method TakeEntry(blockStartIndex: int, memory: Option<seq<Option<nat>>>) returns (ok: bool)
      requires Valid() && Inv(Abs()) && NoLeftovers(Abs()) && blockStartIndex == Wrap(w, inserted * Pow2(k))
      requires memory.Some? ==> |memory.value| == blockIndex.capacity
      modifies this, entries
      ensures Valid() && (blockIndex in old(headers) || fresh(blockIndex))
      ensures ok == (Usable(old(Abs())) || memory.Some?)
      ensures WellFormed(old(Abs())) && Inv(WithRoom(old(Abs()), memory))
      ensures Abs() == if ok then ImplicitIndex.StoreKey(WithRoom(old(Abs()), memory)) else old(Abs())
    {
      hide Inv, NoLeftovers, WellFormed, Usable, KeysOk, Linked, Pow2, Contents, Views, Grow, NextEntry;
      hide ImplicitIndex.StoreKey;
      ghost var x := Abs();
      AtHeader(|headers| - 1);
      assert blockIndex in headers;
      ok := StoreKey(blockStartIndex);
      if !ok {
        ok := NewBlockIndex(memory);
        if !ok {
          return;
        }
        RoomAfterGrowth(x, memory.value);
        forall e | 0 <= e < |entries| ensures entries[e] in old(entries) || fresh(entries[e]) {
          if e < |old(entries)| {
            assert entries[e] == old(entries)[e];
          } else {
            assert entries[e] == entries[|old(entries)|..][e - |old(entries)|];
          }
        }
        ok := StoreKey(blockStartIndex);
      }
    }

    /** insert_block_index_entry run without interruption: it succeeds exactly if the entry after the tail can be used or
        memory for a larger index is granted, and hands out the entry where the new block belongs, now at the tail and
        with the block's base for a key. */
    method InsertEntry(blockStartIndex: int, memory: Option<seq<Option<nat>>>) returns (idxEntry: BlockIndexEntry?)
      requires Valid() && Inv(Abs()) && NoLeftovers(Abs()) && blockStartIndex == Wrap(w, inserted * Pow2(k))
      requires memory.Some? ==> |memory.value| == blockIndex.capacity
      modifies this, entries, headers
      ensures Valid() && Inv(Abs())
      ensures idxEntry == null <==> !Usable(old(Abs())) && memory == None
      ensures Abs() == if idxEntry == null then old(Abs()) else WithEntry(old(Abs()), memory)
      ensures idxEntry != null ==>
        && idxEntry.key == blockStartIndex && inserted == old(inserted) + 1
        && idxEntry == entries[At(Current(Abs()), inserted - 1)] && idxEntry == blockIndex.index[blockIndex.tail]
    {
      hide Inv, NoLeftovers, WellFormed, Usable, KeysOk, Linked, Pow2, Contents, Views;
      hide ImplicitIndex.StoreKey, ImplicitIndex.StoreTail, WithEntry, WithRoom, HeaderOk, Doubled, Grow;
      ghost var x := Abs();
      var ok := TakeEntry(blockStartIndex, memory);
      if !ok {
        return null;
      }
      InsertIsRight(x, memory);
      StoreTail();
      AtHeader(|headers| - 1);
      assert blockIndex.Abs() == Current(Abs());
      idxEntry := blockIndex.index[blockIndex.tail];
      KeyIsBase(w, k, entries, At(Current(Abs()), inserted - 1));
    }

    // The first loop of new_block_index.
    static method CopyRing(prevIndex: seq<BlockIndexEntry>, prevTail: nat, index: array<BlockIndexEntry>)
      requires prevTail < |prevIndex| <= index.Length
      modifies index
      ensures forall p :: 0 <= p < |prevIndex| ==> index[p] == prevIndex[(prevTail + 1 + p) % |prevIndex|]
    {
      var capacity := |prevIndex|;
      var prevPos: nat := prevTail;
      var i := 0;
      var more := true;
      while more
        invariant 0 <= i <= capacity && more == (i < capacity) && prevPos == (prevTail + i) % capacity
        invariant forall p :: 0 <= p < i ==> index[p] == prevIndex[(prevTail + 1 + p) % capacity]
        decreases capacity - i
      {
        NextInRing(prevTail, i, capacity);
        prevPos := (prevPos + 1) % capacity;
        index[i] := prevIndex[prevPos];
        i := i + 1;
        more := prevPos != prevTail;
      }
    }

    /** get_block_index_index_for_index, from a header and a tail position already loaded: word arithmetic on the key of
        the tail's entry. Whatever header and tail were loaded, it gives the position where the block of the index
        belongs. */
    method LookUp(header: BlockIndexHeader, tail: nat, word: int, ghost j: nat, ghost index: nat) returns (idx: nat)
      requires Valid() && j < |headers| && header == headers[j]
      requires tail < header.capacity && Abs().entries[header.ring[tail]].key.Some? && word == Wrap(w, index)
      ensures idx < header.capacity
      ensures idx == LookupPosition(w, k, Abs().headers[j], tail, Abs().entries[header.ring[tail]].key.value, index)
      ensures Inv(Abs()) && header.size + k <= w ==> idx == Position(Abs().headers[j], index / Pow2(k))
    {
      hide WellFormed, Pow2, Contents, Views, Inv, Linked;
      AtHeader(j);
      var tailBase := header.index[tail].key;
      KeyIsBase(w, k, entries, header.ring[tail]);
      if Inv(Abs()) && header.size + k <= w {
        LookupIsExact(w, k, Abs(), j, tail, index);
      }
      var blockBase := word - word % Pow2(k);
      var offset := Wrap(w, blockBase - tailBase) / Pow2(k);
      idx := Wrap(w, tail + offset) % header.capacity;
    }

    /** get_block_index_entry_for_index, by the producer itself. */
    method GetEntry(word: int, ghost index: nat) returns (idxEntry: BlockIndexEntry, ghost e: nat)
      requires Valid() && WellFormed(Abs()) && word == Wrap(w, index)
      requires Abs().entries[Current(Abs()).ring[Current(Abs()).tail]].key.Some?
      ensures var h := Current(Abs());
        var position := LookupPosition(w, k, h, h.tail, Abs().entries[h.ring[h.tail]].key.value, index);
        0 <= position < |h.ring| && e == h.ring[position]
      ensures e < |entries| && idxEntry == entries[e]
    {
      hide WellFormed, Pow2, Contents, Views, Linked, LookupPosition, Wrap;
      AtHeader(|headers| - 1);
      var idx := LookUp(blockIndex, blockIndex.tail, word, |headers| - 1, index);
      idxEntry, e := blockIndex.index[idx], blockIndex.ring[idx];
    }
  }

  lemma ValueIsOk(x: Index, e: nat, value: Option<nat>)
    requires WellFormed(x) && e < |x.entries|
    ensures WellFormed(ImplicitIndex.StoreValue(x, e, value))
    ensures ImplicitIndex.StoreValue(x, e, value).inserted == x.inserted
  {}

  lemma NextInRing(tail: nat, i: nat, n: nat)
    requires tail < n && i < n
    ensures ((tail + i) % n + 1) % n == (tail + 1 + i) % n == (tail + (i + 1)) % n
    ensures (tail + (i + 1)) % n == tail <==> i + 1 == n
  {
    ModOfSum(tail + i, 1, n);
    if i + 1 < n {
      DivisionIsUnique(tail, n, 0, tail);
      RotationIsInjective(tail - 1, n, 0, i + 1);
    } else {
      DivisionIsUnique(tail + n, n, 1, tail);
    }
  }
}
