/** How a block knows that all its elements have been dequeued completely: one flag for each element, stored in
    reverse order, when an explicit producer uses a small block, and a counter otherwise. */
module BlockEmptiness {
  // The offsets from lo up to hi.
  function Offsets(lo: nat, hi: nat): set<nat> {
    if hi <= lo then {} else Offsets(lo, hi - 1) + {hi - 1}
  }

  lemma {:induction false} OffsetsAre(lo: nat, hi: nat, o: nat)
    ensures o in Offsets(lo, hi) <==> lo <= o < hi
  {
    if lo < hi {
      OffsetsAre(lo, hi - 1, o);
    }
  }

  lemma OffsetsWithin(lo: nat, hi: nat, n: nat)
    requires hi <= n
    ensures Offsets(lo, hi) <= Offsets(0, n)
    ensures forall o :: o in Offsets(lo, hi) <==> lo <= o < hi
  {
    forall o ensures o in Offsets(lo, hi) <==> lo <= o < hi {
      if 0 <= o {
        OffsetsAre(lo, hi, o);
      }
    }
    forall o | o in Offsets(lo, hi) ensures o in Offsets(0, n) {
      OffsetsAre(0, n, o);
    }
  }

  lemma {:induction false} OffsetsCount(lo: nat, hi: nat)
    requires lo <= hi
    ensures |Offsets(lo, hi)| == hi - lo
  {
    if lo < hi {
      OffsetsCount(lo, hi - 1);
      OffsetsAre(lo, hi - 1, hi - 1);
    }
  }

  lemma SubsetIsSmaller(a: set<nat>, b: set<nat>)
    requires a <= b
    ensures |a| <= |b| && (|a| == |b| ==> a == b)
  {
    if a != {} {
      var x :| x in a;
      SubsetIsSmaller(a - {x}, b - {x});
    }
  }

  /** A counter of distinct offsets reaches the block size exactly when every offset was counted. */
  lemma CountIsFull(done: set<nat>, n: nat)
    requires done <= Offsets(0, n)
    ensures |done| <= n && (|done| == n <==> done == Offsets(0, n))
  {
    OffsetsCount(0, n);
    SubsetIsSmaller(done, Offsets(0, n));
  }

  lemma DisjointUnion(a: set<nat>, b: set<nat>)
    requires a !! b
    ensures |a + b| == |a| + |b|
  {}

  // `done` is auxiliary: the offsets of the elements reported since the block was last reset.
  class Block {
    const size: nat
    const useFlags: bool
    const emptyFlags: array<bool>
    var elementsCompletelyDequeued: nat
    ghost var done: set<nat>

    ghost predicate Valid()
      reads this, emptyFlags
    {
      && 0 < size && done <= Offsets(0, size)
      && (useFlags ==> emptyFlags.Length == size && forall o :: 0 <= o < size ==> emptyFlags[size - 1 - o] == (o in done))
      && (!useFlags ==> elementsCompletelyDequeued == |done|)
    }

    // A block in the explicit context uses flags if it is no larger than the threshold.
    constructor (size: nat, explicitContext: bool, threshold: nat)
      requires 0 < size
      ensures Valid() && done == {} && this.size == size && useFlags == (explicitContext && size <= threshold)
      ensures fresh(emptyFlags)
    {
      this.size := size;
      this.useFlags := explicitContext && size <= threshold;
      emptyFlags := new bool[if explicitContext && size <= threshold then size else 1](_ => false);
      elementsCompletelyDequeued, done := 0, {};
    }

    /** is_empty answers exactly whether every element has been reported. */
    method IsEmpty() returns (empty: bool)
      requires Valid()
      ensures empty <==> done == Offsets(0, size)
    {
      if useFlags {
        var i := 0;
        while i < size
          invariant i <= size && forall j :: 0 <= j < i ==> emptyFlags[j]
        {
          if !emptyFlags[i] {
            OffsetsAre(0, size, size - 1 - i);
            assert emptyFlags[size - 1 - (size - 1 - i)] == (size - 1 - i in done);
            return false;
          }
          i := i + 1;
        }
        AllReported();
        return true;
      } else {
        CountIsFull(done, size);
        return elementsCompletelyDequeued == size;
      }
    }

    lemma AllReported()
      requires Valid() && useFlags && forall j :: 0 <= j < size ==> emptyFlags[j]
      ensures done == Offsets(0, size)
    {
      forall o | o in Offsets(0, size) ensures o in done {
        OffsetsAre(0, size, o);
        assert emptyFlags[size - 1 - o] == (o in done);
      }
    }

    /** set_empty reports one element; with a counter its answer is whether the block is now empty. */
    method SetEmpty(i: nat) returns (nowEmpty: bool)
      requires Valid() && i % size !in done
      modifies this, emptyFlags
      ensures Valid() && done == old(done) + {i % size}
      ensures nowEmpty <==> !useFlags && done == Offsets(0, size)
    {
      OffsetsAre(0, size, i % size);
      if useFlags {
        emptyFlags[size - 1 - i % size] := true;
        done := done + {i % size};
        nowEmpty := false;
      } else {
        CountIsFull(done, size);
        var prevVal := elementsCompletelyDequeued;
        elementsCompletelyDequeued := prevVal + 1;
        done := done + {i % size};
        CountIsFull(done, size);
        nowEmpty := prevVal == size - 1;
      }
    }

    /** set_many_empty reports `count` elements in a row, none of them reported before, within the block. */
    method SetManyEmpty(i: nat, count: nat) returns (nowEmpty: bool)
      requires Valid() && i % size + count <= size && Offsets(i % size, i % size + count) !! done
      modifies this, emptyFlags
      ensures Valid() && done == old(done) + Offsets(i % size, i % size + count)
      ensures nowEmpty <==> !useFlags && done == Offsets(0, size)
    {
      nowEmpty := Report(i % size, count);
    }

    method Report(lo: nat, count: nat) returns (nowEmpty: bool)
      requires Valid() && lo + count <= size && Offsets(lo, lo + count) !! done
      modifies this, emptyFlags
      ensures Valid() && done == old(done) + Offsets(lo, lo + count)
      ensures nowEmpty <==> !useFlags && done == Offsets(0, size)
    {
      hide Offsets;
      OffsetsWithin(lo, lo + count, size);
      if useFlags {
        ReportFlags(lo, count);
        nowEmpty := false;
      } else {
        CountIsFull(done, size);
        CountIsFull(done + Offsets(lo, lo + count), size);
        OffsetsCount(lo, lo + count);
        DisjointUnion(done, Offsets(lo, lo + count));
        var prevVal := elementsCompletelyDequeued;
        elementsCompletelyDequeued := prevVal + count;
        done := done + Offsets(lo, lo + count);
        nowEmpty := prevVal + count == size;
      }
    }

    method ReportFlags(lo: nat, count: nat)
      requires Valid() && useFlags && lo + count <= size
      modifies `done, emptyFlags
      ensures Valid() && done == old(done) + Offsets(lo, lo + count)
    {
      hide Offsets;
      OffsetsWithin(lo, lo + count, size);
      SetFlags(size - 1 - lo - count + 1, count);
      ghost var after := done + Offsets(lo, lo + count);
      forall o | 0 <= o < size ensures emptyFlags[size - 1 - o] == (o in after) {
        assert old(emptyFlags[size - 1 - o]) == (o in done);
      }
      done := after;
    }

    method SetFlags(first: nat, count: nat)
      requires first + count <= emptyFlags.Length
      modifies emptyFlags
      ensures forall k :: 0 <= k < emptyFlags.Length ==> emptyFlags[k] == (old(emptyFlags[k]) || first <= k < first + count)
    {
      var j := 0;
      while j != count
        invariant 0 <= j <= count
        invariant forall k :: 0 <= k < emptyFlags.Length ==> emptyFlags[k] == (old(emptyFlags[k]) || first <= k < first + j)
        decreases count - j
      {
        emptyFlags[first + j] := true;
        j := j + 1;
      }
    }

    method SetAllEmpty()
      requires Valid()
      modifies this, emptyFlags
      ensures Valid() && done == Offsets(0, size)
    {
      forall o: nat ensures o in Offsets(0, size) <==> o < size {
        OffsetsAre(0, size, o);
      }
      if useFlags {
        var i := 0;
        while i != size
          invariant 0 <= i <= size && forall j :: 0 <= j < i ==> emptyFlags[j]
        {
          emptyFlags[i] := true;
          i := i + 1;
        }
      } else {
        elementsCompletelyDequeued := size;
        OffsetsCount(0, size);
      }
      done := Offsets(0, size);
    }

    method ResetEmpty()
      requires Valid()
      modifies this, emptyFlags
      ensures Valid() && done == {}
    {
      if useFlags {
        var i := 0;
        while i != size
          invariant 0 <= i <= size && forall j :: 0 <= j < i ==> !emptyFlags[j]
        {
          emptyFlags[i] := false;
          i := i + 1;
        }
      } else {
        elementsCompletelyDequeued := 0;
      }
      done := {};
    }
  }
}
