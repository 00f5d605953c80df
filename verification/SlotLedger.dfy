/**
  Who owns each mail slot.  Every slot index is in exactly one place: on the free
  stack, in one mailbox's ring, or lost.  One multiset equation says all of it.
 */
module SlotLedger {
  import opened Mailboxes

  ghost function Bag(rings: seq<seq<nat>>): multiset<nat> {
    if rings == [] then multiset{} else multiset(rings[0]) + Bag(rings[1..])
  }

  ghost function SumLengths(rings: seq<seq<nat>>): nat {
    if rings == [] then 0 else |rings[0]| + SumLengths(rings[1..])
  }

  ghost function Indices(n: nat): multiset<nat> {
    if n == 0 then multiset{} else Indices(n - 1) + multiset{n - 1}
  }

  ghost predicate Ledger(k: Kernel) {
    Balanced(k.free, k.rings, k.lost, |k.slots|)
  }

  ghost predicate Balanced(free: seq<nat>, rings: seq<seq<nat>>, lost: seq<nat>, n: nat) {
    multiset(free) + Bag(rings) + multiset(lost) == Indices(n)
  }

  /** The mark on a slot agrees with the free stack. */
  ghost predicate Marked(slots: seq<MailSlot>, free: seq<nat>) {
    forall s :: 0 <= s < |slots| ==> (slots[s].inUse <==> s !in free)
  }

  ghost predicate BoxOk(box: Mbox, ring: seq<nat>, producers: seq<int>, consumers: seq<int>) {
    && |ring| <= box.numSlots
    && (!box.isActive ==> ring == [] && producers == [])
    && |producers| <= MAX_BLOCKED_PRODUCERS
    && |consumers| <= MAX_BLOCKED_CONSUMERS
  }

  /** What every reachable kernel state satisfies. */
  ghost predicate Inv(k: Kernel) {
    && Shape(k)
    && Ledger(k)
    && Marked(k.slots, k.free)
    && forall m :: 0 <= m < |k.boxes| ==> BoxOk(k.boxes[m], k.rings[m], k.producers[m], k.consumers[m])
  }

  lemma {:induction false} BagUpdate(rings: seq<seq<nat>>, m: nat, ring: seq<nat>)
    requires m < |rings|
    ensures multiset(rings[m]) <= Bag(rings)
    ensures Bag(rings[m := ring]) == Bag(rings) - multiset(rings[m]) + multiset(ring)
  {
    var changed := rings[m := ring];
    if m == 0 {
      assert changed[1..] == rings[1..];
    } else {
      BagUpdate(rings[1..], m - 1, ring);
      assert changed[1..] == rings[1..][m - 1 := ring];
    }
  }

  lemma {:induction false} BagSize(rings: seq<seq<nat>>)
    ensures |Bag(rings)| == SumLengths(rings)
  {
    if rings != [] {
      BagSize(rings[1..]);
    }
  }

  lemma {:induction false} BagHas(rings: seq<seq<nat>>, m: nat, s: nat)
    requires m < |rings|
    ensures Bag(rings)[s] >= multiset(rings[m])[s]
  {
    if m > 0 {
      BagHas(rings[1..], m - 1, s);
    }
  }

  lemma {:induction false} BagHasBoth(rings: seq<seq<nat>>, m: nat, n: nat, s: nat)
    requires m < n < |rings|
    ensures Bag(rings)[s] >= multiset(rings[m])[s] + multiset(rings[n])[s]
  {
    if m == 0 {
      BagHas(rings[1..], n - 1, s);
    } else {
      BagHasBoth(rings[1..], m - 1, n - 1, s);
    }
  }

  lemma {:induction false} IndicesOnce(n: nat, s: nat)
    ensures Indices(n)[s] == if s < n then 1 else 0
    ensures |Indices(n)| == n
  {
    if n > 0 {
      IndicesOnce(n - 1, s);
    }
  }

  lemma {:induction false} OnceMeansDistinct(list: seq<nat>)
    requires forall s :: multiset(list)[s] <= 1
    ensures forall i, j :: 0 <= i < j < |list| ==> list[i] != list[j]
  {
    forall i, j | 0 <= i < j < |list| ensures list[i] != list[j] {
      assert list == list[..j] + list[j..];
      assert list[i] in list[..j] && list[j] in list[j..];
      assert multiset(list)[list[i]] == multiset(list[..j])[list[i]] + multiset(list[j..])[list[i]];
    }
  }

  // --- what the ledger says ------------------------------------------------------

  /** Conservation: no slot is ever counted twice or forgotten. */
  lemma Conservation(k: Kernel)
    requires Ledger(k)
    ensures |k.free| + SumLengths(k.rings) + |k.lost| == |k.slots|
  {
    BagSize(k.rings);
    IndicesOnce(|k.slots|, 0);
  }

  /** While a mailbox holds a slot the free stack is not full. */
  lemma StackHasRoom(k: Kernel, m: nat)
    requires Ledger(k) && m < |k.rings| && k.rings[m] != []
    ensures |k.free| < |k.slots|
  {
    Conservation(k);
    SomeLength(k.rings, m);
  }

  lemma {:induction false} SomeLength(rings: seq<seq<nat>>, m: nat)
    requires m < |rings|
    ensures SumLengths(rings) >= |rings[m]|
  {
    if m > 0 {
      SomeLength(rings[1..], m - 1);
    }
  }

  /** Slot s occurs at most once in all the places a slot can be. */
  lemma AtMostOnce(k: Kernel, s: nat)
    requires Ledger(k)
    ensures multiset(k.free)[s] + Bag(k.rings)[s] + multiset(k.lost)[s] <= 1
  {
    IndicesOnce(|k.slots|, s);
    assert (multiset(k.free) + Bag(k.rings) + multiset(k.lost))[s] <= 1;
  }

  /** The free stack and the rings are duplicate-free and pairwise disjoint. */
  lemma Ownership(k: Kernel)
    requires Inv(k)
    ensures forall i, j :: 0 <= i < j < |k.free| ==> k.free[i] != k.free[j]
    ensures forall m, i, j :: 0 <= m < |k.rings| && 0 <= i < j < |k.rings[m]| ==> k.rings[m][i] != k.rings[m][j]
    ensures forall m, s :: 0 <= m < |k.rings| && s in k.rings[m] ==> s !in k.free && s !in k.lost
    ensures forall m, n, s :: 0 <= m < n < |k.rings| && s in k.rings[m] ==> s !in k.rings[n]
  {
    hide Balanced;
    forall s ensures multiset(k.free)[s] <= 1 { AtMostOnce(k, s); }
    OnceMeansDistinct(k.free);
    forall m, s | 0 <= m < |k.rings| ensures multiset(k.rings[m])[s] <= 1 {
      AtMostOnce(k, s);
      BagHas(k.rings, m, s);
    }
    forall m, i, j | 0 <= m < |k.rings| && 0 <= i < j < |k.rings[m]| ensures k.rings[m][i] != k.rings[m][j] {
      OnceMeansDistinct(k.rings[m]);
    }
    forall m, s | 0 <= m < |k.rings| && s in k.rings[m] ensures s !in k.free && s !in k.lost {
      RingSlotIsHeld(k, m, s);
    }
    forall m, n, s | 0 <= m < n < |k.rings| && s in k.rings[m] ensures s !in k.rings[n] {
      AtMostOnce(k, s);
      BagHasBoth(k.rings, m, n, s);
    }
  }

  lemma RingSlotIsHeld(k: Kernel, m: nat, s: nat)
    requires Ledger(k) && m < |k.rings| && s in k.rings[m]
    ensures s !in k.free && s !in k.lost
  {
    AtMostOnce(k, s);
    BagHas(k.rings, m, s);
    assert multiset(k.rings[m])[s] > 0;
  }

  /** A lost slot stays marked in use, so a free slot is exactly an unmarked one. */
  lemma UnusedIsFree(k: Kernel, s: nat)
    requires Inv(k) && s < |k.slots|
    ensures !k.slots[s].inUse <==> s in k.free
    ensures !k.slots[s].inUse ==> s !in k.lost && forall m :: 0 <= m < |k.rings| ==> s !in k.rings[m]
  {
    hide Balanced;
    if s in k.free {
      AtMostOnce(k, s);
      forall m | 0 <= m < |k.rings| ensures s !in k.rings[m] {
        BagHas(k.rings, m, s);
      }
    }
  }

  // --- each elementary change keeps the invariant ----------------------------------

  lemma StoreBalances(free: seq<nat>, s: nat, rings: seq<seq<nat>>, m: nat, lost: seq<nat>, n: nat)
    requires m < |rings| && Balanced(free + [s], rings, lost, n)
    ensures Balanced(free, rings[m := rings[m] + [s]], lost, n)
  {
    BagUpdate(rings, m, rings[m] + [s]);
    assert Bag(rings[m := rings[m] + [s]]) == Bag(rings) + multiset{s};
  }

  /** A ring gives up its first part to the free stack or to the lost slots. */
  lemma DropBalances(free: seq<nat>, rings: seq<seq<nat>>, m: nat, i: nat, lost: seq<nat>, n: nat)
    requires m < |rings| && i <= |rings[m]| && Balanced(free, rings, lost, n)
    ensures Balanced(free + rings[m][..i], rings[m := rings[m][i..]], lost, n)
    ensures Balanced(free, rings[m := rings[m][i..]], lost + rings[m][..i], n)
  {
    var gone, rest := rings[m][..i], rings[m][i..];
    assert rings[m] == gone + rest;
    BagUpdate(rings, m, rest);
    assert Bag(rings) == Bag(rings[m := rest]) + multiset(gone);
  }

  lemma StoreKeepsInv(k: Kernel, id: nat, data: Message)
    requires Inv(k) && id < |k.boxes| && k.free != [] && |data| <= MAX_MESSAGE
    requires k.boxes[id].isActive && |k.rings[id]| < k.boxes[id].numSlots
    ensures Inv(Store(k, id, data))
  {
    hide Balanced;
    var k', s := Store(k, id, data), k.free[|k.free| - 1];
    assert k.free == k'.free + [s];
    StoreBalances(k'.free, s, k.rings, id, k.lost, |k.slots|);
    FreeSlotOnce(k, s);
    assert Marked(k'.slots, k'.free);
  }

  lemma FreeSlotOnce(k: Kernel, s: nat)
    requires Ledger(k) && k.free != [] && s == k.free[|k.free| - 1]
    ensures s !in k.free[..|k.free| - 1]
  {
    AtMostOnce(k, s);
    assert k.free == k.free[..|k.free| - 1] + [s];
  }

  lemma TakeKeepsInv(k: Kernel, id: nat, max: int)
    requires Inv(k) && id < |k.boxes| && k.rings[id] != []
    ensures Inv(Take(k, id, max).kernel)
  {
    hide Balanced;
    var s, k' := k.rings[id][0], Take(k, id, max).kernel;
    assert k.rings[id][..1] == [s];
    DropBalances(k.free, k.rings, id, 1, k.lost, |k.slots|);
    RingSlotIsHeld(k, id, s);
    assert Marked(k'.slots, k'.free);
  }

  lemma ReleaseKeepsInv(k: Kernel, id: int)
    requires Inv(k)
    ensures Inv(Release(k, id).kernel)
  {
    hide Balanced;
    if IsOpen(k, id) {
      var k', ring := Release(k, id).kernel, k.rings[id];
      assert k'.rings == k.rings[id := []] && k'.lost == k.lost + ring && k'.free == k.free && k'.slots == k.slots;
      assert ring[..|ring|] == ring && ring[|ring|..] == [];
      DropBalances(k.free, k.rings, id, |ring|, k.lost, |k.slots|);
    }
  }

  lemma CreateKeepsInv(k: Kernel, numSlots: int, slotSize: int)
    requires Inv(k)
    ensures Inv(Create(k, numSlots, slotSize).kernel)
  {
    hide Balanced;
    var id := FirstInactive(k.boxes);
    if id < |k.boxes| {
      assert k.rings[id := []] == k.rings;
    }
  }

  lemma InitialInv(maxMbox: nat, maxSlots: nat, maxProc: nat)
    requires maxProc > 0
    ensures Inv(Initial(maxMbox, maxSlots, maxProc))
  {
    var k := Initial(maxMbox, maxSlots, maxProc);
    EmptyBag(maxMbox);
    FullIndices(maxSlots);
    assert k.rings == seq<seq<nat>>(maxMbox, i => []);
    assert k.free == seq(maxSlots, (i: nat) => i);
    forall s | 0 <= s < maxSlots ensures s in k.free { assert k.free[s] == s; }
  }

  lemma {:induction false} EmptyBag(n: nat)
    ensures Bag(seq<seq<nat>>(n, i => [])) == multiset{}
  {
    if n > 0 {
      EmptyBag(n - 1);
      assert seq<seq<nat>>(n, i => [])[1..] == seq<seq<nat>>(n - 1, i => []);
    }
  }

  lemma {:induction false} FullIndices(n: nat)
    ensures multiset(seq(n, (i: nat) => i)) == Indices(n)
  {
    if n > 0 {
      FullIndices(n - 1);
      assert seq(n, (i: nat) => i) == seq(n - 1, (i: nat) => i) + [n - 1];
    }
  }
}
