/** The bounded heap that keeps the dearest candidates of an impression
    (pipeline/stages/candidate_limit.rs). */
module CandidateLimit {
  import opened Common

  /** The order of heap entries: by price, and on equal prices the lower campaign id is
      the greater entry. */
  predicate Below(a: AdCandidate, b: AdCandidate) {
    a.bidPriceCents < b.bidPriceCents || (a.bidPriceCents == b.bidPriceCents && a.campaignId > b.campaignId)
  }

  /** The kept candidates are `k` of the input, or all if there are fewer, and none of
      the dropped ones is above any of them. */
  ghost predicate TopK(input: multiset<AdCandidate>, kept: multiset<AdCandidate>, k: nat) {
    && kept <= input
    && |kept| == Min(k, |input|)
    && forall x, y :: x in kept && y in input - kept ==> !Below(x, y)
  }

  /** Removes a least entry of a non-empty heap. */
  method PopLeast(heap: seq<AdCandidate>) returns (least: AdCandidate, rest: seq<AdCandidate>)
    requires heap != []
    ensures multiset(heap) == multiset(rest) + multiset{least} && |rest| == |heap| - 1
    ensures forall x :: x in heap ==> !Below(x, least)
  {
    var m := 0;
    for i := 1 to |heap|
      invariant 0 <= m < |heap|
      invariant forall j :: 0 <= j < i ==> !Below(heap[j], heap[m])
    {
      if Below(heap[i], heap[m]) {
        m := i;
      }
    }
    least, rest := heap[m], heap[..m] + heap[m + 1..];
    assert heap == heap[..m] + [heap[m]] + heap[m + 1..];
  }

  /** One push and, when the heap is over capacity, one pop. */
  lemma PushPop(seen: multiset<AdCandidate>, heap: multiset<AdCandidate>, k: nat,
                c: AdCandidate, least: AdCandidate, rest: multiset<AdCandidate>)
    requires TopK(seen, heap, k) && |heap| == k && heap + multiset{c} == rest + multiset{least}
    requires forall x :: x in heap + multiset{c} ==> !Below(x, least)
    ensures TopK(seen + multiset{c}, rest, k)
  {
    var all := seen + multiset{c};
    assert rest <= heap + multiset{c} <= all && seen == heap + (seen - heap);
    assert |rest| + 1 == |heap + multiset{c}|;
    forall x, y | x in rest && y in all - rest ensures !Below(x, y) {
      assert all - rest == (seen - heap) + multiset{least};
      assert !Below(x, least);
      if y != least {
        assert y in seen - heap;
        if x !in heap {
          // `x` is the new entry, so an old one was popped.
          assert x == c && (heap + multiset{c})[c] == 1;
          assert least != c && (rest + multiset{least})[least] > 0;
          assert least in heap && !Below(least, y);
        }
      }
    }
  }

  /** A push that leaves room: nothing was dropped yet. */
  lemma PushOnly(seen: multiset<AdCandidate>, heap: multiset<AdCandidate>, k: nat, c: AdCandidate)
    requires TopK(seen, heap, k) && |heap| < k
    ensures TopK(seen + multiset{c}, heap + multiset{c}, k)
  {
    SameSize(heap, seen);
    assert (seen + multiset{c}) - (heap + multiset{c}) == multiset{};
  }

  lemma SameSize(a: multiset<AdCandidate>, b: multiset<AdCandidate>)
    requires a <= b && |a| == |b|
    ensures a == b
  {
    assert b == a + (b - a);
    assert |b - a| == 0;
  }

  /** Keeps the greatest `topK` candidates; a list that fits is left as it is. */
  method Limit(candidates: seq<AdCandidate>, topK: nat) returns (kept: seq<AdCandidate>)
    ensures TopK(multiset(candidates), multiset(kept), topK)
    ensures |candidates| <= topK ==> kept == candidates
    // Nobody dropped bids more than anyone kept, nor as much with a lower campaign id.
    ensures forall x, y :: x in multiset(kept) && y in multiset(candidates) - multiset(kept) ==>
      x.bidPriceCents > y.bidPriceCents || (x.bidPriceCents == y.bidPriceCents && x.campaignId <= y.campaignId)
  {
    if |candidates| <= topK {
      assert multiset(candidates) - multiset(candidates) == multiset{};
      return candidates;
    }
    kept := [];
    for i := 0 to |candidates|
      invariant TopK(multiset(candidates[..i]), multiset(kept), topK)
    {
      assert candidates[..i + 1] == candidates[..i] + [candidates[i]];
      ghost var heap := multiset(kept);
      kept := kept + [candidates[i]];
      if |kept| > topK {
        var least, rest := PopLeast(kept);
        PushPop(multiset(candidates[..i]), heap, topK, candidates[i], least, multiset(rest));
        kept := rest;
      } else {
        PushOnly(multiset(candidates[..i]), heap, topK, candidates[i]);
      }
    }
    assert candidates[..|candidates|] == candidates;
  }

  /** No two different candidates of the list share a campaign. */
  ghost predicate IdsSeparate(m: multiset<AdCandidate>) {
    forall x, y :: x in m && y in m && x.campaignId == y.campaignId ==> x == y
  }

  /** With separate campaign ids the kept candidates are determined by the input as a
      multiset, so they do not depend on its order. */
  lemma TopKUnique(input: multiset<AdCandidate>, a: multiset<AdCandidate>, b: multiset<AdCandidate>, k: nat)
    requires IdsSeparate(input) && TopK(input, a, k) && TopK(input, b, k)
    ensures a == b
  {
    if a != b {
      var x := MoreOf(input, a, b);
      var y := MoreOf(input, b, a);
      KeptByOne(input, a, b, k, x, y);
      assert false;
    }
  }

  /** A candidate kept only on one side and one kept only on the other are the same. */
  lemma KeptByOne(input: multiset<AdCandidate>, a: multiset<AdCandidate>, b: multiset<AdCandidate>, k: nat,
                  x: AdCandidate, y: AdCandidate)
    requires IdsSeparate(input) && TopK(input, a, k) && TopK(input, b, k)
    requires x in a && x in input - b && y in b && y in input - a
    ensures x == y
  {
    assert !Below(x, y) && !Below(y, x);
  }

  /** Of two different multisets of one size, one has more of some element. */
  lemma MoreOf(input: multiset<AdCandidate>, a: multiset<AdCandidate>, b: multiset<AdCandidate>)
    returns (x: AdCandidate)
    requires |a| == |b| && a != b && a <= input
    ensures a[x] > b[x] && x in a && x in input - b
  {
    if forall x :: a[x] <= b[x] {
      SameSize(a, b);
      assert false;
    }
    x :| a[x] > b[x];
  }
}
