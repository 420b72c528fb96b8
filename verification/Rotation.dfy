/** Consumer tokens: the walk of a bulk dequeue around the circle of producers, and how fresh tokens are spread over
    the producers. Producers are numbered along the list from its tail; next_prod wraps around at the end. */
module Rotation {
  import opened Common
  import opened Words

  type Element = int

  function Min(a: nat, b: nat): nat { if a < b then a else b }

  // ---- What all the producers hold ----

  function AllOf(queues: seq<seq<Element>>): multiset<Element> {
    if |queues| == 0 then multiset{} else AllOf(queues[..|queues| - 1]) + multiset(queues[|queues| - 1])
  }

  function Total(queues: seq<seq<Element>>): nat {
    if |queues| == 0 then 0 else Total(queues[..|queues| - 1]) + |queues[|queues| - 1]|
  }

  lemma {:induction false} TotalIsSize(queues: seq<seq<Element>>)
    ensures |AllOf(queues)| == Total(queues)
  {
    if |queues| > 0 {
      TotalIsSize(queues[..|queues| - 1]);
    }
  }

  lemma {:induction false} TakeFrom(queues: seq<seq<Element>>, i: nat, k: nat)
    requires i < |queues| && k <= |queues[i]|
    ensures var after := queues[i := queues[i][k..]];
      && multiset(queues[i][..k]) + AllOf(after) == AllOf(queues)
      && k + Total(after) == Total(queues)
  {
    var after := queues[i := queues[i][k..]];
    var last := |queues| - 1;
    if i == last {
      assert after[..last] == queues[..last];
      assert queues[i] == queues[i][..k] + queues[i][k..];
    } else {
      assert after[..last] == queues[..last][i := queues[i][k..]];
      TakeFrom(queues[..last], i, k);
    }
  }

  lemma TakeAll(queues: seq<seq<Element>>, i: nat)
    requires i < |queues|
    ensures multiset(queues[i]) + AllOf(queues[i := []]) == AllOf(queues)
    ensures |queues[i]| + Total(queues[i := []]) == Total(queues)
  {
    hide AllOf, Total;
    assert queues[i][..|queues[i]|] == queues[i] && queues[i][|queues[i]|..] == [];
    TakeFrom(queues, i, |queues[i]|);
  }

  lemma {:induction false} AllEmpty(queues: seq<seq<Element>>)
    requires forall i :: 0 <= i < |queues| ==> queues[i] == []
    ensures Total(queues) == 0
  {
    if |queues| > 0 {
      AllEmpty(queues[..|queues| - 1]);
    }
  }

  lemma {:induction false} NoneMore(queues: seq<seq<Element>>, i: nat)
    requires i < |queues|
    ensures |queues[i]| <= Total(queues)
  {
    if i < |queues| - 1 {
      NoneMore(queues[..|queues| - 1], i);
    }
  }

  // ---- The circular walk ----

  // next_prod, with the wrap-around to the tail that follows each use of it.
  function NextProd(n: nat, ptr: nat): (next: nat)
    requires ptr < n
    ensures next < n
  {
    if ptr + 1 == n then 0 else ptr + 1
  }

  // How many steps of next_prod lead from producer i to producer j.
  function StepsTo(n: nat, i: nat, j: nat): nat
    requires i < n && j < n
  {
    if i <= j then j - i else j + n - i
  }

  // Producer i lies on the way from `from` up to but not including `ptr`; all do when the walk has come round.
  predicate Visited(n: nat, from: nat, ptr: nat, i: nat)
    requires from < n && ptr < n && i < n
  {
    ptr == from || StepsTo(n, from, i) < StepsTo(n, from, ptr)
  }

  lemma StepOn(n: nat, from: nat, ptr: nat, i: nat)
    requires from < n && ptr < n && i < n && ptr != from
    ensures var next := NextProd(n, ptr);
      && (Visited(n, from, next, i) ==> Visited(n, from, ptr, i) || i == ptr)
      && StepsTo(n, next, from) < StepsTo(n, ptr, from)
  {}

  // A walk that starts at a producer visits that one first.
  lemma StepFrom(n: nat, ptr: nat, i: nat)
    requires ptr < n && i < n && Visited(n, ptr, NextProd(n, ptr), i)
    ensures i == ptr
  {}

  // What the walk keeps: nothing is lost, whoever it passed since the current producer gave something is empty, and
  // each producer is either untouched or emptied.
  ghost predicate Walked(was: seq<seq<Element>>, now: seq<seq<Element>>, items: seq<Element>, current: nat, ptr: nat) {
    && |now| == |was| && current < |was| && ptr < |was|
    && multiset(items) + AllOf(now) == AllOf(was)
    && |items| + Total(now) == Total(was)
    && (forall i :: 0 <= i < |was| && Visited(|was|, current, ptr, i) ==> now[i] == [])
    && (forall i :: 0 <= i < |was| ==> now[i] == [] || now[i] == was[i])
  }

  // What a call promises: what it delivers and what remains are what there was, and only the producer it ends at may be
  // left half emptied.
  ghost predicate Kept(was: seq<seq<Element>>, now: seq<seq<Element>>, items: seq<Element>, current: nat) {
    && |now| == |was|
    && multiset(items) + AllOf(now) == AllOf(was)
    && |items| + Total(now) == Total(was)
    && (forall i :: 0 <= i < |was| && i != current ==> now[i] == [] || now[i] == was[i])
  }

  lemma WalkStarts(was: seq<seq<Element>>, current: nat)
    requires current < |was|
    ensures Walked(was, was[current := []], was[current], current, NextProd(|was|, current))
  {
    TakeAll(was, current);
    var now := was[current := []];
    forall i | 0 <= i < |was| && Visited(|was|, current, NextProd(|was|, current), i) ensures now[i] == [] {
      StepFrom(|was|, current, i);
    }
  }

  lemma WalkGoesOn(was: seq<seq<Element>>, now: seq<seq<Element>>, items: seq<Element>, current: nat, ptr: nat)
    requires Walked(was, now, items, current, ptr) && ptr != current
    ensures var current' := if now[ptr] == [] then current else ptr;
            Walked(was, now[ptr := []], items + now[ptr], current', NextProd(|was|, ptr))
  {
    var n, next := |was|, NextProd(|was|, ptr);
    TakeAll(now, ptr);
    var after := now[ptr := []];
    var current' := if now[ptr] == [] then current else ptr;
    forall i | 0 <= i < n && Visited(n, current', next, i) ensures after[i] == [] {
      if now[ptr] == [] {
        StepOn(n, current, ptr, i);
      } else {
        StepFrom(n, ptr, i);
      }
    }
  }

  // The producer asked gives all that is still wanted.
  lemma WalkIsSatisfied(was: seq<seq<Element>>, now: seq<seq<Element>>, items: seq<Element>, current: nat, ptr: nat, k: nat)
    requires Walked(was, now, items, current, ptr) && k <= |now[ptr]|
    ensures Kept(was, now[ptr := now[ptr][k..]], items + now[ptr][..k], ptr)
    ensures 0 < k ==> now[ptr] == was[ptr]
  {
    TakeFrom(now, ptr, k);
  }

  lemma WalkKeeps(was: seq<seq<Element>>, now: seq<seq<Element>>, items: seq<Element>, current: nat, ptr: nat)
    requires Walked(was, now, items, current, ptr)
    ensures Kept(was, now, items, current)
    ensures now[ptr] != [] ==> now[ptr] == was[ptr]
  {}

  lemma WantedIsThere(was: seq<seq<Element>>, now: seq<seq<Element>>, items: seq<Element>, current: nat)
    requires Kept(was, now, items, current)
    ensures |items| <= Total(was)
  {}

  lemma FirstSatisfies(was: seq<seq<Element>>, current: nat, k: nat)
    requires current < |was| && k <= |was[current]|
    ensures Kept(was, was[current := was[current][k..]], was[current][..k], current) && k <= Total(was)
  {
    TakeFrom(was, current, k);
  }

  lemma WalkEnds(was: seq<seq<Element>>, now: seq<seq<Element>>, items: seq<Element>, current: nat)
    requires Walked(was, now, items, current, current)
    ensures |items| == Total(was)
  {
    AllEmpty(now);
  }

  // Whole laps of the circle need not be walked.
  lemma FewerSteps(delta: nat, desired: nat, n: nat)
    requires 0 < n
    ensures (desired + delta % n) % n == (delta + desired) % n && (delta < n ==> delta % n == delta)
  {
    ModOfSum(delta, desired, n);
    if delta < n {
      DivisionIsUnique(delta, n, 0, delta);
    }
  }

  /** A consumer token beside the producers of a stable list: queues[i] is what producer i holds, and a bulk dequeue from
      one producer, run alone, takes as many elements as it wants and there are. */
  class ConsumerToken {
    const queues: array<seq<Element>>
    const quota: nat
    const initialOffset: nat
    var globalOffset: nat
    var lastKnownGlobalOffset: nat
    var itemsConsumedFromCurrent: nat
    var currentProducer: Option<nat>
    var desiredProducer: Option<nat>

    ghost predicate Valid()
      reads this
    {
      && (desiredProducer.Some? ==> desiredProducer.value < queues.Length)
      && (currentProducer.Some? ==> currentProducer.value < queues.Length)
      && (desiredProducer.Some? ==> currentProducer.Some?)
    }

    constructor (queues: array<seq<Element>>, quota: nat, initialOffset: nat, globalOffset: nat)
      ensures Valid()
      ensures this.queues == queues && this.quota == quota && this.initialOffset == initialOffset
      ensures this.globalOffset == globalOffset && lastKnownGlobalOffset == Wrap(32, -1)
      ensures itemsConsumedFromCurrent == 0 && currentProducer == None && desiredProducer == None
    {
      this.queues, this.quota, this.initialOffset, this.globalOffset := queues, quota, initialOffset, globalOffset;
      lastKnownGlobalOffset, itemsConsumedFromCurrent := Wrap(32, -1), 0;
      currentProducer, desiredProducer := None, None;
    }

    /** update_current_producer_after_rotation: its two walks end where modular arithmetic says. */
    method UpdateCurrentProducer() returns (ok: bool)
      requires Valid()
      modifies this
      ensures Valid() && globalOffset == old(globalOffset)
      ensures ok == (0 < queues.Length)
      ensures !ok ==> unchanged(this)
      ensures ok ==>
        && desiredProducer == currentProducer == Some(
             if old(desiredProducer).None?
             then Place(32, queues.Length, initialOffset, globalOffset, old(lastKnownGlobalOffset))
             else Rotated(32, queues.Length, old(desiredProducer).value, globalOffset, old(lastKnownGlobalOffset)))
        && lastKnownGlobalOffset == globalOffset && itemsConsumedFromCurrent == 0
    {
      hide Wrap;
      var n := queues.Length;
      if n == 0 {
        return false;
      }
      var desired: nat := 0;
      if desiredProducer == None {
        var offset := n - 1 - initialOffset % n;
        FewerSteps(offset, 0, n);
        desired := Advance(n, 0, offset);
      } else {
        desired := desiredProducer.value;
      }
      var delta := Wrap(32, globalOffset - lastKnownGlobalOffset);
      FewerSteps(delta, desired, n);
      if delta >= n {
        delta := delta % n;
      }
      desired := Advance(n, desired, delta);
      desiredProducer := Some(desired);
      lastKnownGlobalOffset := globalOffset;
      currentProducer := desiredProducer;
      itemsConsumedFromCurrent := 0;
      ok := true;
    }

    method DequeueBulk(i: nat, max: nat) returns (items: seq<Element>)
      requires i < queues.Length
      modifies queues
      ensures |items| == Min(max, |old(queues[i])|) && items == old(queues[i])[..|items|]
      ensures queues[..] == old(queues[..])[i := old(queues[i])[|items|..]]
    {
      items := queues[i][..Min(max, |queues[i]|)];
      queues[i] := queues[i][|items|..];
    }

    /** The walk ends, and it delivers exactly as many elements as are wanted and there are, whichever producers hold
        them; what it delivers and what remains are what there was. The quota is only looked at when the first producer
        asked satisfies the whole call; otherwise the token moves to the last producer that gave something and counts
        what that one gave. */
    method TryDequeueBulk(max: nat) returns (items: seq<Element>)
      requires Valid() && 0 < max
      modifies this, queues
      ensures Valid()
      ensures |items| == Min(max, Total(old(queues[..])))
      ensures currentProducer.None? ==> queues.Length == 0 && items == []
      ensures currentProducer.Some? ==> Kept(old(queues[..]), queues[..], items, currentProducer.value)
    {
      items := [];
      if desiredProducer == None || lastKnownGlobalOffset != globalOffset {
        var ok := UpdateCurrentProducer();
        if !ok {
          assert queues[..] == [];
          return;
        }
      }
      items := WalkFromCurrent(max);
    }

    method WalkFromCurrent(max: nat) returns (items: seq<Element>)
      requires Valid() && 0 < max && currentProducer.Some?
      modifies this, queues
      ensures Valid() && currentProducer.Some?
      ensures desiredProducer == old(desiredProducer) && lastKnownGlobalOffset == old(lastKnownGlobalOffset)
      ensures |items| == Min(max, Total(old(queues[..])))
      ensures Kept(old(queues[..]), queues[..], items, currentProducer.value)
      ensures var first := old(currentProducer.value);
        if max <= |old(queues[first])| then
          var consumed := Wrap(32, old(itemsConsumedFromCurrent) + max);
          && currentProducer == old(currentProducer) && itemsConsumedFromCurrent == consumed
          && globalOffset == (if consumed >= quota then Wrap(32, old(globalOffset) + 1) else old(globalOffset))
        else
          && globalOffset == old(globalOffset)
          && itemsConsumedFromCurrent == Wrap(32,
               (if currentProducer == old(currentProducer) then old(itemsConsumedFromCurrent) else 0)
               + |old(queues[..])[currentProducer.value]| - |queues[currentProducer.value]|)
    {
      hide AllOf, Total, Walked, Kept, Visited, StepsTo, Wrap;
      var n := queues.Length;
      ghost var was, first := queues[..], currentProducer.value;
      items := DequeueBulk(currentProducer.value, max);
      itemsConsumedFromCurrent := Wrap(32, itemsConsumedFromCurrent + |items|);
      if |items| == max {
        FirstSatisfies(was, first, max);
        if itemsConsumedFromCurrent >= quota {
          globalOffset := Wrap(32, globalOffset + 1);
        }
        return;
      }
      WalkStarts(was, first);
      assert |items| == |was[first]| && items == was[first];
      assert was[first][|items|..] == [];
      assert queues[..] == was[first := []];
      var left := max - |items|;
      var ptr: nat := NextProd(n, currentProducer.value);
      while ptr != currentProducer.value
        invariant Valid() && currentProducer.Some? && ptr < n && 0 < left && left == max - |items|
        invariant desiredProducer == old(desiredProducer) && lastKnownGlobalOffset == old(lastKnownGlobalOffset)
        invariant globalOffset == old(globalOffset)
        invariant Walked(was, queues[..], items, currentProducer.value, ptr)
        invariant queues[first] == [] && queues[currentProducer.value] == []
        invariant itemsConsumedFromCurrent == Wrap(32,
            (if currentProducer.value == first then old(itemsConsumedFromCurrent) else 0) + |was[currentProducer.value]|)
        decreases left, StepsTo(n, ptr, currentProducer.value)
      {
        ghost var now, taken, current := queues[..], items, currentProducer.value;
        WalkKeeps(was, now, taken, current, ptr);
        var dequeued := DequeueBulk(ptr, left);
        items := items + dequeued;
        if dequeued != [] {
          currentProducer := Some(ptr);
          itemsConsumedFromCurrent := Wrap(32, |dequeued|);
        }
        if |dequeued| == left {
          WalkIsSatisfied(was, now, taken, current, ptr, left);
          WantedIsThere(was, queues[..], items, ptr);
          return;
        }
        assert |dequeued| == |now[ptr]| && dequeued == now[ptr];
        assert now[ptr][|dequeued|..] == [];
        assert queues[..] == now[ptr := []];
        WalkGoesOn(was, now, taken, current, ptr);
        StepOn(n, current, ptr, ptr);
        left := left - |dequeued|;
        ptr := NextProd(n, ptr);
      }
      WalkKeeps(was, queues[..], items, ptr, ptr);
      WalkEnds(was, queues[..], items, ptr);
    }
  }

  // for (i = 0; i != steps; ++i) desired = next_prod, wrapping to the tail.
  method Advance(n: nat, start: nat, steps: nat) returns (desired: nat)
    requires start < n && steps < n
    ensures desired < n && desired == (start + steps) % n
  {
    desired := start;
    var i := 0;
    while i != steps
      invariant 0 <= i <= steps && desired < n && desired == (if start + i < n then start + i else start + i - n)
      decreases steps - i
    {
      desired := NextProd(n, desired);
      i := i + 1;
    }
    DivisionIsUnique(start + steps, n, if start + steps < n then 0 else 1, desired);
  }

  // ---- Where a token starts ----

  // Where a token moves from `desired` when the global offset has gone from lastKnown to globalOffset.
  function Rotated(w: nat, n: nat, desired: nat, globalOffset: int, lastKnown: int): nat
    requires 0 < n
  {
    (Wrap(w, globalOffset - lastKnown) + desired) % n
  }

  // Where a token with this initialOffset starts.
  function Place(w: nat, n: nat, initialOffset: nat, globalOffset: int, lastKnown: int): nat
    requires 0 < n
  {
    Rotated(w, n, n - 1 - initialOffset % n, globalOffset, lastKnown)
  }

  // initialOffset of the i-th token created after a token that got j: the counter is a w-bit word.
  function OffsetOf(w: nat, j: nat, i: nat): nat { Wrap(w, j + i) }

  // Tokens i < n created one after the other have the same place as seen at one global offset.
  predicate Collide(w: nat, n: nat, j: nat, globalOffset: nat, a: nat, b: nat)
    requires 0 < n
  {
    Place(w, n, OffsetOf(w, j, a), globalOffset, -1) == Place(w, n, OffsetOf(w, j, b), globalOffset, -1)
  }

  lemma SameResidue(x: int, y: int, n: int)
    requires 0 < n && x % n == y % n && -n < x - y < n
    ensures x == y
  {
    var k := x / n - y / n;
    assert k * n == x - y;
    SmallMultiple(k, n);
  }

  // A token's place tells its offset modulo the number of producers.
  lemma PlaceTellsResidue(w: nat, n: nat, x: nat, y: nat, globalOffset: nat)
    requires 0 < n
    ensures Place(w, n, x, globalOffset, -1) == Place(w, n, y, globalOffset, -1) <==> x % n == y % n
  {
    if Place(w, n, x, globalOffset, -1) == Place(w, n, y, globalOffset, -1) {
      var d := Wrap(w, globalOffset + 1);
      SameResidue(d + (n - 1 - x % n), d + (n - 1 - y % n), n);
    }
  }

  /** Following the rotation in two steps or at once comes to the same place exactly if the two distances, as the words
      the token computes, do not add up to the range of the offset, or the number of producers divides that range. */
  lemma RotationsCompose(w: nat, n: nat, desired: nat, from: int, mid: int, to: int)
    requires 0 < n
    ensures Rotated(w, n, Rotated(w, n, desired, mid, from), to, mid) == Rotated(w, n, desired, to, from)
            <==> Wrap(w, mid - from) + Wrap(w, to - mid) < Pow2(w) || Pow2(w) % n == 0
  {
    hide Wrap, Pow2;
    var x, y := Wrap(w, mid - from), Wrap(w, to - mid);
    ModsCompose(x, y, desired, n);
    DistancesAdd(w, mid - from, to - mid);
    assert mid - from + (to - mid) == to - from;
    if Pow2(w) <= x + y {
      MovedByRange(x + y - Pow2(w) + desired, Pow2(w), n);
    }
  }

  // The distance as a word is the sum of two, less the range if it reaches it.
  lemma DistancesAdd(w: nat, a: int, b: int)
    ensures 0 <= Wrap(w, a) < Pow2(w) && 0 <= Wrap(w, b) < Pow2(w)
    ensures var sum := Wrap(w, a) + Wrap(w, b);
      Wrap(w, a + b) == if sum < Pow2(w) then sum else sum - Pow2(w)
  {
    var sum := Wrap(w, a) + Wrap(w, b);
    WrapOfSum(w, a, b);
    WrapOfSum(w, b, Wrap(w, a));
    if sum < Pow2(w) {
      DivisionIsUnique(sum, Pow2(w), 0, sum);
    } else {
      DivisionIsUnique(sum, Pow2(w), 1, sum - Pow2(w));
    }
  }

  lemma MovedByRange(x: int, range: int, n: int)
    requires 0 < n
    ensures (x + range) % n == x % n <==> range % n == 0
  {
    ModOfSum(range, x, n);
    if range % n == 0 {
      assert (range % n + x) % n == x % n;
    } else if (x + range) % n == x % n {
      var k := (x + range) / n - x / n;
      assert range == k * n;
      ModAddsMultiple(0, n, k);
    }
  }

  lemma ModsCompose(x: int, y: int, start: int, n: int)
    requires 0 < n
    ensures (y + (x + start) % n) % n == (x + y + start) % n
  {
    ModOfSum(x + start, y, n);
  }

  lemma NoWrap(w: nat, j: nat, i: nat)
    requires j + i < Pow2(w)
    ensures OffsetOf(w, j, i) == j + i
  {
    DivisionIsUnique(j + i, Pow2(w), 0, j + i);
  }

  lemma Wraps(w: nat, j: nat, i: nat)
    requires Pow2(w) <= j + i < 2 * Pow2(w)
    ensures OffsetOf(w, j, i) == j + i - Pow2(w)
  {
    DivisionIsUnique(j + i, Pow2(w), 1, j + i - Pow2(w));
  }

  lemma SpreadWithoutWrap(w: nat, n: nat, j: nat, globalOffset: nat, a: nat, b: nat)
    requires 0 < n && j + n <= Pow2(w) && a < b < n
    ensures !Collide(w, n, j, globalOffset, a, b)
  {
    NoWrap(w, j, a);
    NoWrap(w, j, b);
    PlaceTellsResidue(w, n, j + a, j + b, globalOffset);
    if (j + a) % n == (j + b) % n {
      SameResidue(j + a, j + b, n);
    }
  }

  lemma SpreadOverDivisor(w: nat, n: nat, j: nat, globalOffset: nat, a: nat, b: nat)
    requires 0 < n && Pow2(w) % n == 0 && a < b < n
    ensures !Collide(w, n, j, globalOffset, a, b)
  {
    var r := Pow2(w) / n;
    assert Pow2(w) == r * n;
    ModOfMod(j + a, n, r);
    ModOfMod(j + b, n, r);
    PlaceTellsResidue(w, n, OffsetOf(w, j, a), OffsetOf(w, j, b), globalOffset);
    if (j + a) % n == (j + b) % n {
      SameResidue(j + a, j + b, n);
    }
  }

  // The counter wraps among the n tokens and n does not divide its range: two of them meet.
  lemma WrapCollides(w: nat, n: nat, j: nat, globalOffset: nat) returns (a: nat, b: nat)
    requires 0 < n <= Pow2(w) && j < Pow2(w) < j + n && Pow2(w) % n != 0
    ensures a < b < n && Collide(w, n, j, globalOffset, a, b)
  {
    var r := Pow2(w) % n;
    if r <= Pow2(w) - j {
      a, b := Pow2(w) - j - r, Pow2(w) - j;
      MultipleMeetsZero(Pow2(w), n);
    } else {
      a, b := 0, r;
      MultipleApart(Pow2(w), n, j);
    }
    NoWrap(w, j, a);
    Wraps(w, j, b);
    PlaceTellsResidue(w, n, OffsetOf(w, j, a), OffsetOf(w, j, b), globalOffset);
  }

  lemma MultipleMeetsZero(range: int, n: int)
    requires 0 < n
    ensures (range - range % n) % n == 0 == 0 % n
  {
    ModAddsMultiple(0, n, range / n);
  }

  lemma MultipleApart(range: int, n: int, j: int)
    requires 0 < n
    ensures j % n == (j + range % n - range) % n
  {
    ModAddsMultiple(j + range % n - range, n, range / n);
  }

  /** n tokens created one after the other start on n different producers exactly if the counter of tokens does not
      wrap around among them, or the number of producers divides its range. */
  lemma FreshTokensSpread(w: nat, n: nat, j: nat, globalOffset: nat)
    requires 0 < n <= Pow2(w) && j < Pow2(w)
    ensures (forall a, b :: 0 <= a < b < n ==> !Collide(w, n, j, globalOffset, a, b))
            <==> (j + n <= Pow2(w) || Pow2(w) % n == 0)
  {
    if j + n <= Pow2(w) {
      forall a, b | 0 <= a < b < n ensures !Collide(w, n, j, globalOffset, a, b) {
        SpreadWithoutWrap(w, n, j, globalOffset, a, b);
      }
    } else if Pow2(w) % n == 0 {
      forall a, b | 0 <= a < b < n ensures !Collide(w, n, j, globalOffset, a, b) {
        SpreadOverDivisor(w, n, j, globalOffset, a, b);
      }
    } else {
      var a, b := WrapCollides(w, n, j, globalOffset);
    }
  }

  /** The smallest case in which they do not: three producers, a counter of 32 bits, and tokens numbered 2^32 - 1, 0
      and 1; the first two start on the same producer. */
  lemma ThreeTokensMeet(globalOffset: nat)
    ensures Collide(32, 3, Pow2(32) - 1, globalOffset, 0, 1)
  {
    Pow2Adds(16, 16);
    Pow2Adds(8, 8);
    assert Pow2(8) == 256 && Pow2(32) == 4294967296;
    NoWrap(32, Pow2(32) - 1, 0);
    Wraps(32, Pow2(32) - 1, 1);
    PlaceTellsResidue(32, 3, Pow2(32) - 1, 0, globalOffset);
  }
}
