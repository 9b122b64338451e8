/** Types shared by the models of the bidder, and sums over sequences. */
module Common {
  datatype Option<+T> = None | Some(value: T)

  /** `u32` campaign and creative identifiers (catalog/types.rs). */
  type CampaignId = x: nat | x < 0x1_0000_0000
  type CreativeId = x: nat | x < 0x1_0000_0000

  /** A campaign and creative pair that passed retrieval (model/candidate.rs). */
  datatype AdCandidate = AdCandidate(
    campaignId: CampaignId,
    creativeId: CreativeId,
    bidPriceCents: int,
    score: real,
    dailyCapImps: nat,
    hourlyCapImps: nat)

  /** No two candidates of the list belong to the same campaign. */
  ghost predicate DistinctIds(cs: seq<AdCandidate>) {
    forall i, j :: 0 <= i < j < |cs| ==> cs[i].campaignId != cs[j].campaignId
  }

  function Min(a: nat, b: nat): nat {
    if a < b then a else b
  }

  lemma QuotientAbove(x: real, t: real, q: real)
    requires t > 0.0
    ensures x / t > q <==> x > q * t
    ensures x / t >= q <==> x >= q * t
  {
    var r := x / t;
    assert r * t == x;
    if r > q {
      assert (r - q) * t > 0.0;
    } else if r < q {
      assert (q - r) * t > 0.0;
    }
  }

  /** The sum of `f` over a sequence. */
  ghost function Total<T>(xs: seq<T>, f: T -> int): int {
    if xs == [] then 0 else f(xs[0]) + Total(xs[1..], f)
  }

  lemma {:induction false} TotalUpdate<T>(xs: seq<T>, i: nat, x: T, f: T -> int)
    requires i < |xs|
    ensures Total(xs[i := x], f) == Total(xs, f) - f(xs[i]) + f(x)
  {
    if i == 0 {
      assert xs[i := x][1..] == xs[1..];
    } else {
      assert xs[i := x][1..] == xs[1..][i - 1 := x];
      TotalUpdate(xs[1..], i - 1, x, f);
    }
  }

  lemma TotalOne<T>(x: T, f: T -> int)
    ensures Total([x], f) == f(x)
  {
    assert [x][1..] == [] && Total<T>([], f) == 0;
  }

  lemma {:induction false} TotalConcat<T>(xs: seq<T>, ys: seq<T>, f: T -> int)
    ensures Total(xs + ys, f) == Total(xs, f) + Total(ys, f)
  {
    if xs == [] {
      assert xs + ys == ys;
    } else {
      assert (xs + ys)[1..] == xs[1..] + ys;
      TotalConcat(xs[1..], ys, f);
    }
  }

  lemma {:induction false} TotalNonNegative<T>(xs: seq<T>, f: T -> int)
    requires forall x :: x in xs ==> f(x) >= 0
    ensures Total(xs, f) >= 0
    ensures forall x :: x in xs ==> f(x) <= Total(xs, f)
  {
    if xs != [] {
      assert forall x :: x in xs ==> x == xs[0] || x in xs[1..];
      TotalNonNegative(xs[1..], f);
    }
  }

  lemma {:induction false} TotalZero<T>(xs: seq<T>, f: T -> int)
    requires forall x :: x in xs ==> f(x) == 0
    ensures Total(xs, f) == 0
  {
    if xs != [] {
      assert xs[0] in xs;
      TotalZero(xs[1..], f);
    }
  }
}
