/** Arithmetic of w-bit unsigned words, as the queue uses it for its wrapping indices. */
module Words {
  function Pow2(n: nat): (p: int)
    ensures 1 <= p
  {
    if n == 0 then 1 else 2 * Pow2(n - 1)
  }

  // A number reduced to a w-bit word; unsigned arithmetic in the source is arithmetic followed by this.
  function Wrap(w: nat, x: int): (r: int)
    ensures 0 <= r < Pow2(w)
  {
    x % Pow2(w)
  }

  // circular_less_than<T>(a, b) for a T of w bits.
  predicate CircularLessThan(w: nat, a: int, b: int)
    requires 1 <= w
  {
    Wrap(w, a - b) > Pow2(w - 1)
  }

  // The word a read as a two's complement number.
  function Signed(w: nat, a: int): int
    requires 1 <= w
  {
    if a < Pow2(w - 1) then a else a - Pow2(w)
  }

  // ---- Division facts ----

  lemma DivisionIsUnique(x: int, n: int, q: int, r: int)
    requires 0 <= r < n && x == q * n + r
    ensures x / n == q && x % n == r
  {
    var d := x / n - q;
    assert d * n == (x / n) * n - q * n == r - x % n;
    SmallMultiple(d, n);
  }

  lemma SmallMultiple(d: int, n: int)
    requires -n < d * n < n
    ensures d == 0
  {}

  lemma ModAddsMultiple(x: int, n: int, k: int)
    requires 0 < n
    ensures (x + k * n) % n == x % n
  {
    assert x + k * n == (x / n + k) * n + x % n;
    DivisionIsUnique(x + k * n, n, x / n + k, x % n);
  }

  lemma ModOfSum(x: int, y: int, n: int)
    requires 0 < n
    ensures (x % n + y) % n == (x + y) % n
  {
    assert x + y == (x % n + y) + (x / n) * n;
    ModAddsMultiple(x % n + y, n, x / n);
  }

  lemma ModOfDifference(x: int, y: int, n: int)
    requires 0 < n
    ensures (y - x % n) % n == (y - x) % n
  {
    var k := -(x / n);
    assert y - x == (y - x % n) + k * n;
    ModAddsMultiple(y - x % n, n, k);
  }

  lemma ModOfMod(x: int, n: int, r: int)
    requires 0 < n && 0 < r && 0 < r * n
    ensures (x % (r * n)) % n == x % n
  {
    var q := x / (r * n);
    assert x == x % (r * n) + q * (r * n);
    assert q * (r * n) == (q * r) * n;
    ModAddsMultiple(x % (r * n), n, q * r);
  }

  // A multiple of n reduced modulo a multiple of n is a multiple of n still.
  lemma ModOfMultiple(m: int, n: int, r: int) returns (j: int)
    requires 0 < n && 0 < r && 0 < r * n
    ensures (m * n) % (r * n) == (m + j * r) * n
  {
    var q := (m * n) / (r * n);
    j := -q;
    assert (m * n) % (r * n) == m * n - q * (r * n);
    assert q * (r * n) == (q * r) * n;
    assert (m - q * r) * n == m * n - (q * r) * n;
    assert j * r == -(q * r);
  }

  lemma {:induction false} Pow2Grows(m: nat, n: nat)
    ensures m < n ==> Pow2(m) < Pow2(n)
  {
    if m < n {
      Pow2Grows(m, n - 1);
    }
  }

  lemma Pow2Adds(m: nat, n: nat)
    ensures Pow2(m + n) == Pow2(m) * Pow2(n)
  {
    if m > 0 {
      Pow2Adds(m - 1, n);
      assert Pow2(m + n) == 2 * Pow2(m - 1 + n);
    }
  }

  /** The difference of two wrapped numbers is the wrapped difference. */
  lemma WrapOfDifference(w: nat, a: int, b: int)
    ensures Wrap(w, Wrap(w, a) - Wrap(w, b)) == Wrap(w, a - b)
  {
    ModOfSum(a, -Wrap(w, b), Pow2(w));
    ModOfDifference(b, a, Pow2(w));
  }

  lemma WrapOfSum(w: nat, a: int, b: int)
    ensures Wrap(w, Wrap(w, a) + b) == Wrap(w, a + b)
  {
    ModOfSum(a, b, Pow2(w));
  }

  lemma WrapModPow2(w: nat, s: nat, x: int)
    requires s <= w
    ensures Wrap(w, x) % Pow2(s) == x % Pow2(s)
  {
    Pow2Adds(w - s, s);
    ModOfMod(x, Pow2(s), Pow2(w - s));
  }

  // ---- circular_less_than ----

  /** On the words of two numbers less than 2^w apart, circular_less_than decides < exactly when the
      first is less than 2^(w-1) below the second and at most 2^(w-1) above it. */
  lemma CircularLessThanIsExact(w: nat, a: int, b: int)
    requires 1 <= w && -Pow2(w) < a - b < Pow2(w)
    ensures (CircularLessThan(w, Wrap(w, a), Wrap(w, b)) <==> a < b)
            <==> -Pow2(w - 1) < a - b <= Pow2(w - 1)
  {
    WrapOfDifference(w, a, b);
    if a < b {
      DivisionIsUnique(a - b, Pow2(w), -1, a - b + Pow2(w));
    } else {
      DivisionIsUnique(a - b, Pow2(w), 0, a - b);
    }
  }

  /** Whatever the distance, a positive answer is wrong only for a first number more than 2^(w-1) above. */
  lemma CircularLessThanIsSafe(w: nat, a: int, b: int)
    requires 1 <= w && a - b <= Pow2(w - 1)
    requires CircularLessThan(w, Wrap(w, a), Wrap(w, b))
    ensures a < b
  {
    WrapOfDifference(w, a, b);
    if b <= a {
      DivisionIsUnique(a - b, Pow2(w), 0, a - b);
    }
  }

  // ---- The masked slot of a block index ----

  // The slot of a ring of 2^s entries that the source computes for the block of `index`, from the ring
  // position `front` whose entry starts at `base`; blocks hold 2^k elements and all arithmetic wraps.
  // & ~(BLOCK_SIZE - 1) clears, and & (size - 1) keeps, the low bits of a word.
  function MaskedSlot(w: nat, k: nat, s: nat, front: int, base: int, index: int): int {
    var blockBase := index - index % Pow2(k);
    var offset := Wrap(w, blockBase - base) / Pow2(k);
    Wrap(w, front + offset) % Pow2(s)
  }

  // The same with the division done on signed numbers, as the comments beside it intend; C++ division
  // truncates, and on exact multiples every rounding agrees.
  function MaskedSlotSigned(w: nat, k: nat, s: nat, front: int, base: int, index: int): int
    requires 1 <= w
  {
    var blockBase := index - index % Pow2(k);
    var offset := Wrap(w, Signed(w, Wrap(w, blockBase - base)) / Pow2(k));
    Wrap(w, front + offset) % Pow2(s)
  }

  lemma ModOfBlockDistance(x: int, b: int, n: int, r: int)
    requires 0 < n && 0 < r && 0 < r * n
    ensures (x % (r * n) - (x % (r * n)) % n - (b * n) % (r * n)) % (r * n) == ((x / n - b) * n) % (r * n)
  {
    var N := r * n;
    var c := x % n;
    ModOfMod(x, n, r);
    ModOfSum(x, -c - (b * n) % N, N);
    ModOfDifference(b * n, x - c, N);
    assert (x / n - b) * n == x - c - b * n;
  }

  // The word distance between the block of an index and a block base is the wrapped true distance.
  lemma BlockDistance(w: nat, k: nat, baseBlock: int, index: int)
    requires k <= w
    ensures Wrap(w, (Wrap(w, index) - Wrap(w, index) % Pow2(k)) - Wrap(w, baseBlock * Pow2(k)))
            == Wrap(w, (index / Pow2(k) - baseBlock) * Pow2(k))
  {
    Pow2Adds(w - k, k);
    ModOfBlockDistance(index, baseBlock, Pow2(k), Pow2(w - k));
  }

  // A wrapped multiple of the block size is a multiple of it, and its quotient is the true one up to
  // laps of 2^(w-k) blocks.
  lemma WrappedQuotient(w: nat, k: nat, m: int) returns (j: int)
    requires k <= w
    ensures Wrap(w, m * Pow2(k)) == (m + j * Pow2(w - k)) * Pow2(k)
  {
    Pow2Adds(w - k, k);
    j := ModOfMultiple(m, Pow2(k), Pow2(w - k));
  }

  // Laps of 2^(w-k) blocks do not move the slot of a ring of 2^s entries.
  lemma SlotIgnoresLaps(w: nat, k: nat, s: nat, front: int, m: int, j: int)
    requires s + k <= w
    ensures Wrap(w, front + (m + j * Pow2(w - k))) % Pow2(s) == (front + m) % Pow2(s)
  {
    WrapModPow2(w, s, front + (m + j * Pow2(w - k)));
    Pow2Adds(w - k - s, s);
    Regroup(j, Pow2(w - k - s), Pow2(s));
    ModAddsMultiple(front + m, Pow2(s), j * Pow2(w - k - s));
  }

  lemma Regroup(a: int, b: int, c: int)
    ensures a * (b * c) == (a * b) * c
  {}

  /** For every index and every base of a block, whatever their words have wrapped to, the slot computed is
      the front plus the signed block distance modulo the ring size, provided ring and blocks together
      number no more elements than a word can. */
  lemma MaskedSlotIsExact(w: nat, k: nat, s: nat, front: int, baseBlock: int, index: int)
    requires s + k <= w
    ensures MaskedSlot(w, k, s, front, Wrap(w, baseBlock * Pow2(k)), Wrap(w, index))
            == (front + (index / Pow2(k) - baseBlock)) % Pow2(s)
  {
    var m := index / Pow2(k) - baseBlock;
    BlockDistance(w, k, baseBlock, index);
    var word := Wrap(w, m * Pow2(k));
    var j := WrappedQuotient(w, k, m);
    DivisionIsUnique(word, Pow2(k), m + j * Pow2(w - k), 0);
    var offset := word / Pow2(k);
    SlotIgnoresLaps(w, k, s, front, m, j);
    assert Wrap(w, front + offset) % Pow2(s) == (front + m) % Pow2(s);
  }

  /** The comments claim a signed division, the code performs an unsigned one; they choose the same slot. */
  lemma SignedDivisionChoosesTheSameSlot(w: nat, k: nat, s: nat, front: int, baseBlock: int, index: int)
    requires s + k <= w && 1 <= w
    ensures MaskedSlotSigned(w, k, s, front, Wrap(w, baseBlock * Pow2(k)), Wrap(w, index))
            == MaskedSlot(w, k, s, front, Wrap(w, baseBlock * Pow2(k)), Wrap(w, index))
  {
    var m := index / Pow2(k) - baseBlock;
    BlockDistance(w, k, baseBlock, index);
    var word := Wrap(w, m * Pow2(k));
    var j := WrappedQuotient(w, k, m);
    var j' := if word < Pow2(w - 1) then j else j - 1;
    SignedIsMultiple(w, k, m, j, word);
    DivisionIsUnique(Signed(w, word), Pow2(k), m + j' * Pow2(w - k), 0);
    WrapOfSum(w, m + j' * Pow2(w - k), front);
    SlotIgnoresLaps(w, k, s, front, m, j');
    MaskedSlotIsExact(w, k, s, front, baseBlock, index);
  }

  lemma SignedIsMultiple(w: nat, k: nat, m: int, j: int, word: int)
    requires k <= w && 1 <= w && word == (m + j * Pow2(w - k)) * Pow2(k)
    ensures var j' := if word < Pow2(w - 1) then j else j - 1;
            Signed(w, word) == (m + j' * Pow2(w - k)) * Pow2(k)
  {
    Pow2Adds(w - k, k);
    OneLapLess(m, j, Pow2(w - k), Pow2(k));
  }

  lemma OneLapLess(m: int, j: int, lap: int, n: int)
    ensures (m + (j - 1) * lap) * n == (m + j * lap) * n - lap * n
  {}
}
