/** Which block an element index lies in. Quotients and products by the block size are defined by repeated
    subtraction and addition, which keeps the proofs about blocks linear; NumberIsQuotient and StartIsProduct
    say that they are the / and * of the source. */
module BlockMath {
  import opened Words

  // The number of the block of n elements that index i lies in.
  function Number(n: nat, i: nat): nat
    requires 0 < n
    decreases i
  {
    if i < n then 0 else 1 + Number(n, i - n)
  }

  // The first index of block b.
  function Start(n: nat, b: nat): nat {
    if b == 0 then 0 else Start(n, b - 1) + n
  }

  // The place of index i within its block: i & (BLOCK_SIZE - 1).
  function Offset(n: nat, i: nat): nat
    requires 0 < n
  {
    if i < Start(n, Number(n, i)) then 0 else i - Start(n, Number(n, i))
  }

  // How many blocks the first t elements occupy.
  function Blocks(n: nat, t: nat): nat
    requires 0 < n
  {
    if t == 0 then 0 else Number(n, t - 1) + 1
  }

  lemma {:induction false} NumberIsQuotient(n: nat, i: nat)
    requires 0 < n
    ensures Number(n, i) == i / n
  {
    if i < n {
      DivisionIsUnique(i, n, 0, i);
    } else {
      NumberIsQuotient(n, i - n);
      DivisionIsUnique(i, n, (i - n) / n + 1, (i - n) % n);
    }
  }

  lemma {:induction false} StartIsProduct(n: nat, b: nat)
    ensures Start(n, b) == b * n
  {
    if b > 0 {
      StartIsProduct(n, b - 1);
      assert b * n == (b - 1) * n + n;
    }
  }

  /** Clearing the low bits of an index gives the start of its block. */
  lemma StartIsAligned(n: nat, i: nat)
    requires 0 < n
    ensures i - i % n == Start(n, Number(n, i))
  {
    NumberIsQuotient(n, i);
    StartIsProduct(n, Number(n, i));
  }

  lemma {:induction false} StartMoves(n: nat, b: nat)
    ensures Start(n, b + 1) == Start(n, b) + n
  {}

  lemma {:induction false} StartAdds(n: nat, a: nat, b: nat)
    ensures Start(n, a + b) == Start(n, a) + Start(n, b)
  {
    if b > 0 {
      StartAdds(n, a, b - 1);
    }
  }

  /** An index lies in its block. */
  lemma {:induction false} Within(n: nat, i: nat)
    requires 0 < n
    ensures Start(n, Number(n, i)) <= i < Start(n, Number(n, i)) + n
    ensures Offset(n, i) < n
    decreases i
  {
    if n <= i {
      Within(n, i - n);
    }
  }

  /** A block number for which that holds is the only one. */
  lemma {:induction false} WithinOnly(n: nat, i: nat, b: nat)
    requires 0 < n && Start(n, b) <= i < Start(n, b) + n
    ensures Number(n, i) == b && Offset(n, i) == i - Start(n, b)
  {
    Within(n, i);
    if b < Number(n, i) {
      InOrder(n, b, Number(n, i));
    } else if Number(n, i) < b {
      InOrder(n, Number(n, i), b);
    }
  }

  /** Blocks do not overlap. */
  lemma {:induction false} InOrder(n: nat, a: nat, b: nat)
    requires a < b
    ensures Start(n, a) + n <= Start(n, b)
    decreases b
  {
    if a < b - 1 {
      InOrder(n, a, b - 1);
    }
  }

  lemma {:induction false} NumberMonotone(n: nat, i: nat, j: nat)
    requires 0 < n && i <= j
    ensures Number(n, i) <= Number(n, j)
    decreases i
  {
    if n <= i {
      NumberMonotone(n, i - n, j - n);
    }
  }

  /** The blocks of t elements reach t and no block further. */
  lemma BlocksReach(n: nat, t: nat)
    requires 0 < n
    ensures t <= Start(n, Blocks(n, t))
    ensures 0 < t ==> Start(n, Blocks(n, t)) < t + n
    ensures forall b: nat :: b < Blocks(n, t) ==> Start(n, b) < t
  {
    if 0 < t {
      Within(n, t - 1);
      StartMoves(n, Number(n, t - 1));
      forall b: nat | b < Blocks(n, t) ensures Start(n, b) < t {
        if b < Number(n, t - 1) {
          InOrder(n, b, Number(n, t - 1));
        }
      }
    }
  }

  lemma BlocksMonotone(n: nat, s: nat, t: nat)
    requires 0 < n && s <= t
    ensures Blocks(n, s) <= Blocks(n, t)
  {
    if 0 < s {
      NumberMonotone(n, s - 1, t - 1);
    }
  }

  /** On a block boundary the blocks of t elements end at t. */
  lemma {:induction false} BlocksAtBoundary(n: nat, t: nat)
    requires 0 < n && Start(n, Number(n, t)) == t
    ensures Blocks(n, t) == Number(n, t)
    decreases t
  {
    if n < t {
      BlocksAtBoundary(n, t - n);
    }
  }

  /** Elsewhere the block of t is the last of them. */
  lemma BlocksInside(n: nat, t: nat)
    requires 0 < n && Start(n, Number(n, t)) != t
    ensures Blocks(n, t) == Number(n, t) + 1
  {
    Within(n, t);
    WithinOnly(n, t - 1, Number(n, t));
  }

  lemma StartMonotone(n: nat, a: nat, b: nat)
    requires a <= b
    ensures Start(n, a) <= Start(n, b)
  {
    if a < b {
      InOrder(n, a, b);
    }
  }

  /** The source computes the block count by rounding up. */
  lemma BlocksIsCeiling(n: nat, t: nat)
    requires 0 < n
    ensures Blocks(n, t) == (t + n - 1) / n
  {
    if t == 0 {
      DivisionIsUnique(n - 1, n, 0, n - 1);
    } else {
      NumberIsQuotient(n, t - 1);
      DivisionIsUnique(t + n - 1, n, (t - 1) / n + 1, (t - 1) % n);
    }
  }
}
