/**
 * The ring of linked-list descriptors: where descriptor i sits in memory, the
 * link structure the loop-building call leaves behind, and how the DMA engine
 * walks that ring.
 */
module DescriptorRing {
  import opened Gpdma

  /** The link words of a descriptor sequence. */
  function Links(ds: seq<Descriptor>): (links: seq<LinkWord>)
    ensures |links| == |ds|
  {
    seq(|ds|, i requires 0 <= i < |ds| => ds[i].clli)
  }

  /** Address of descriptor `i` of an array that starts at address `base`. */
  function DescriptorAddress(base: nat, i: nat): (address: nat)
  {
    base + DescriptorBytes * i
  }

  /** The postcondition assumed of gpdma_lli_create_loop (its body is not part of
      this model): the link word of descriptor i holds the address of descriptor
      (i + 1) mod n, for an array of n descriptors starting at `base`. */
  ghost predicate LoopLinked(links: seq<LinkWord>, base: nat)
    ensures LoopLinked(links, base) && |links| > 0 ==>
              links[|links| - 1].next == DescriptorAddress(base, 0)
  {
    forall i :: 0 <= i < |links| ==> links[i].next == DescriptorAddress(base, (i + 1) % |links|)
  }

  /** The link fields change, nothing else matters to the loop: forcing any other
      field of the link words (as the ring fill does with LM) keeps the ring. */
  lemma LoopLinkedByNext(links: seq<LinkWord>, links': seq<LinkWord>, base: nat)
    requires LoopLinked(links, base)
    requires |links'| == |links|
    requires forall i :: 0 <= i < |links| ==> links'[i].next == links[i].next
    ensures LoopLinked(links', base)
  {
  }

  /** Index arithmetic of a ring of n slots: the slot after slot i. */
  lemma NextSlot(i: nat, n: nat)
    requires i < n
    ensures (i + 1) % n == if i + 1 < n then i + 1 else 0
  {
    if i + 1 == n {
      assert (i + 1) % n == 0;
    }
  }

  /** The slot the DMA engine fetches after finishing slot `i`: the one at the
      address held in slot i's link word. */
  function Successor(links: seq<LinkWord>, base: nat, i: nat): (j: nat)
    requires LoopLinked(links, base) && i < |links|
    ensures j < |links| && DescriptorAddress(base, j) == links[i].next
    ensures j == if i + 1 < |links| then i + 1 else 0
  {
    NextSlot(i, |links|);
    (links[i].next - base) / DescriptorBytes
  }

  /** The slot the engine is at after `k` descriptors, starting from slot `i`. */
  function Walk(links: seq<LinkWord>, base: nat, i: nat, k: nat): (j: nat)
    requires LoopLinked(links, base) && i < |links|
    ensures j < |links|
    decreases k
  {
    if k == 0 then i else Successor(links, base, Walk(links, base, i, k - 1))
  }

  /** Walking a + b steps is walking a steps and then b more. */
  lemma {:induction false} WalkSplit(links: seq<LinkWord>, base: nat, i: nat, a: nat, b: nat)
    requires LoopLinked(links, base) && i < |links|
    ensures Walk(links, base, i, a + b) == Walk(links, base, Walk(links, base, i, a), b)
    decreases b
  {
    if b > 0 {
      WalkSplit(links, base, i, a, b - 1);
    }
  }

  /** Walking k steps from slot i, before the walk has gone once round, reaches slot
      i + k, or i + k - n once it has passed the end of the array. */
  lemma {:induction false} WalkValue(links: seq<LinkWord>, base: nat, i: nat, k: nat)
    requires LoopLinked(links, base) && i < |links| && k < |links|
    ensures Walk(links, base, i, k) == if i + k < |links| then i + k else i + k - |links|
  {
    var n := |links|;
    if i + k < n {
      WalkFromBelowEnd(links, base, i, k);
    } else {
      WalkFromBelowEnd(links, base, i, n - i - 1);
      assert Walk(links, base, i, n - i) == 0;
      WalkSplit(links, base, i, n - i, k - (n - i));
      WalkFromBelowEnd(links, base, 0, k - (n - i));
    }
  }

  /** Walking k steps from slot i without passing the end of the array reaches slot i + k. */
  lemma {:induction false} WalkFromBelowEnd(links: seq<LinkWord>, base: nat, i: nat, k: nat)
    requires LoopLinked(links, base) && i + k < |links|
    ensures Walk(links, base, i, k) == i + k
    decreases k
  {
    if k > 0 {
      WalkFromBelowEnd(links, base, i, k - 1);
    }
  }

  /** The number of steps from slot i forward to slot j in a ring of n slots. */
  function Steps(i: nat, j: nat, n: nat): (k: nat)
    requires i < n && j < n
    ensures k < n
  {
    if i <= j then j - i else j + n - i
  }

  /** The link words of a loop form one cycle through all n slots: starting from
      any slot, the first n steps visit every slot exactly once and the n-th step
      returns to the start, so there is no sub-cycle and no dangling link. */
  lemma SingleCycle(links: seq<LinkWord>, base: nat, i: nat)
    requires LoopLinked(links, base) && i < |links|
    ensures Walk(links, base, i, |links|) == i
    ensures forall k :: 0 < k < |links| ==> Walk(links, base, i, k) != i
    ensures forall k1, k2 :: 0 <= k1 < k2 < |links| ==> Walk(links, base, i, k1) != Walk(links, base, i, k2)
    ensures forall j :: 0 <= j < |links| ==> Walk(links, base, i, Steps(i, j, |links|)) == j
  {
    var n := |links|;
    forall k | 0 <= k < n
      ensures Walk(links, base, i, k) == if i + k < n then i + k else i + k - n
    {
      WalkValue(links, base, i, k);
    }
    WalkValue(links, base, i, n - 1);
    assert Walk(links, base, i, n) == Successor(links, base, Walk(links, base, i, n - 1));
  }

  /** The link words of a loop are pairwise distinct. */
  lemma LinksDistinct(links: seq<LinkWord>, base: nat)
    requires LoopLinked(links, base)
    ensures forall i, j :: 0 <= i < j < |links| ==> links[i] != links[j]
  {
    forall i, j | 0 <= i < j < |links|
      ensures links[i] != links[j]
    {
      var si, sj := Successor(links, base, i), Successor(links, base, j);
      assert si != sj;
      assert DescriptorAddress(base, si) != DescriptorAddress(base, sj);
    }
  }
}
