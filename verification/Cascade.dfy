/** The cascade scorer: a cheap stage for everyone, an expensive one for the best
    (scoring/cascade.rs). Scores are real numbers, so there is no NaN. */
module Cascade {
  import opened Common

  type Key = (CampaignId, CreativeId)

  function KeyOf(c: AdCandidate): Key { (c.campaignId, c.creativeId) }

  ghost predicate DistinctKeys(cs: seq<AdCandidate>) {
    forall i, j :: 0 <= i < j < |cs| ==> KeyOf(cs[i]) != KeyOf(cs[j])
  }

  // The stable sort by descending score.

  /** A key and its score, tagged with the position in the list. */
  datatype Entry = Entry(pos: nat, key: Key, score: real)

  /** Higher score first; equal scores stay in list order. */
  predicate Before(e: Entry, f: Entry) {
    e.score > f.score || (e.score == f.score && e.pos < f.pos)
  }

  ghost predicate Sorted(es: seq<Entry>) {
    forall a, b :: 0 <= a < b < |es| ==> Before(es[a], es[b])
  }

  function Tag(cs: seq<AdCandidate>, i: nat): Entry
    requires i < |cs|
  {
    Entry(i, KeyOf(cs[i]), cs[i].score)
  }

  /** Inserts behind every entry of at least its score. */
  function Insert(es: seq<Entry>, e: Entry): seq<Entry> {
    if es == [] || es[0].score < e.score then [e] + es else [es[0]] + Insert(es[1..], e)
  }

  lemma {:induction false} InsertSorts(es: seq<Entry>, e: Entry)
    requires Sorted(es) && forall f :: f in es ==> f.pos < e.pos
    ensures Sorted(Insert(es, e)) && forall f :: f in Insert(es, e) <==> f in es || f == e
  {
    if es != [] {
      assert es == [es[0]] + es[1..];
      assert forall k :: 0 <= k < |es| ==> es[k] in es;
      if es[0].score >= e.score {
        InsertSorts(es[1..], e);
        var rest := Insert(es[1..], e);
        forall b | 0 <= b < |rest| ensures Before(es[0], rest[b]) {
          assert rest[b] in rest;
        }
      }
    }
  }

  /** The first `n` candidates, sorted. */
  function Ranked(cs: seq<AdCandidate>, n: nat): seq<Entry>
    requires n <= |cs|
  {
    if n == 0 then [] else Insert(Ranked(cs, n - 1), Tag(cs, n - 1))
  }

  lemma {:induction false} RankedSorted(cs: seq<AdCandidate>, n: nat)
    requires n <= |cs|
    ensures Sorted(Ranked(cs, n))
    ensures forall e :: e in Ranked(cs, n) <==> e.pos < n && e == Tag(cs, e.pos)
    decreases n
  {
    if n > 0 {
      RankedSorted(cs, n - 1);
      InsertSorts(Ranked(cs, n - 1), Tag(cs, n - 1));
    }
  }

  /** The entries whose score reaches the threshold. */
  function Reaching(es: seq<Entry>, threshold: real): seq<Entry> {
    if es == [] then [] else (if es[0].score >= threshold then [es[0]] else []) + Reaching(es[1..], threshold)
  }

  lemma {:induction false} ReachingSorted(es: seq<Entry>, threshold: real)
    requires Sorted(es)
    ensures Sorted(Reaching(es, threshold))
    ensures forall e :: e in Reaching(es, threshold) <==> e in es && e.score >= threshold
  {
    if es != [] {
      assert es == [es[0]] + es[1..];
      ReachingSorted(es[1..], threshold);
      var rest := Reaching(es[1..], threshold);
      forall b | 0 <= b < |rest| ensures Before(es[0], rest[b]) {
        assert rest[b] in rest;
      }
    }
  }

  /** The entries that advance to stage 2. */
  function Advancing(cs: seq<AdCandidate>, topK: nat, threshold: real): seq<Entry> {
    var reaching := Reaching(Ranked(cs, |cs|), threshold);
    if topK > 0 && |reaching| > topK then reaching[..topK] else reaching
  }

  predicate Advances(cs: seq<AdCandidate>, topK: nat, threshold: real, i: nat)
    requires i < |cs|
  {
    Tag(cs, i) in Advancing(cs, topK, threshold)
  }

  /** The candidate at `i` reaches the threshold. */
  predicate Reaches(cs: seq<AdCandidate>, threshold: real, i: nat)
    requires i < |cs|
  {
    cs[i].score >= threshold
  }

  lemma AdvancingMembers(cs: seq<AdCandidate>, threshold: real)
    ensures var r := Reaching(Ranked(cs, |cs|), threshold);
      Sorted(r) && forall e :: e in r <==> e.pos < |cs| && e == Tag(cs, e.pos) && e.score >= threshold
  {
    RankedSorted(cs, |cs|);
    ReachingSorted(Ranked(cs, |cs|), threshold);
  }

  /** Those who advance are distinct positions that reach the threshold, at most `topK`
      of them when it is set. */
  lemma AdvancingFit(cs: seq<AdCandidate>, topK: nat, threshold: real)
    ensures var adv := Advancing(cs, topK, threshold);
      && (topK > 0 ==> |adv| <= topK)
      && (forall e :: e in adv ==> e.pos < |cs| && e == Tag(cs, e.pos) && e.score >= threshold)
      && (forall a, b :: 0 <= a < b < |adv| ==> adv[a].pos != adv[b].pos)
  {
    AdvancingMembers(cs, threshold);
    var adv := Advancing(cs, topK, threshold);
    assert forall a :: 0 <= a < |adv| ==> adv[a] in adv;
  }

  /** They come before everyone else who reaches the threshold, and if the cap does not
      bind everyone who reaches it advances. With `AdvancingFit` this determines them. */
  lemma AdvancingAreBest(cs: seq<AdCandidate>, topK: nat, threshold: real, i: nat, j: nat)
    requires i < |cs| && j < |cs| && Reaches(cs, threshold, j) && !Advances(cs, topK, threshold, j)
    ensures Advances(cs, topK, threshold, i) ==> Before(Tag(cs, i), Tag(cs, j))
    ensures Advances(cs, topK, threshold, i) ==>
      cs[i].score > cs[j].score || (cs[i].score == cs[j].score && i < j)
    ensures topK > 0 && |Advancing(cs, topK, threshold)| == topK
  {
    AdvancingMembers(cs, threshold);
    var r, adv := Reaching(Ranked(cs, |cs|), threshold), Advancing(cs, topK, threshold);
    assert Tag(cs, j) in r;
    var b :| 0 <= b < |r| && r[b] == Tag(cs, j);
    assert forall k :: 0 <= k < |adv| ==> adv[k] in adv;
    if Advances(cs, topK, threshold, i) {
      var a :| 0 <= a < |adv| && adv[a] == Tag(cs, i);
      assert Before(r[a], r[b]);
    }
  }

  // Stage 2 and the write-back.

  /** The candidates whose key advances, in list order. */
  function Batch(cs: seq<AdCandidate>, keys: set<Key>): seq<AdCandidate> {
    if cs == [] then []
    else (if KeyOf(cs[0]) in keys then [cs[0]] else []) + Batch(cs[1..], keys)
  }

  /** The scores by key; for a repeated key the last one counts. */
  function ScoresOf(batch: seq<AdCandidate>): map<Key, real> {
    if batch == [] then map[]
    else
      var last := batch[|batch| - 1];
      ScoresOf(batch[..|batch| - 1])[KeyOf(last) := last.score]
  }

  function Rescored(c: AdCandidate, scores: map<Key, real>): AdCandidate {
    if KeyOf(c) in scores then c.(score := scores[KeyOf(c)]) else c
  }

  /** The keys that advance. */
  function AdvanceKeys(cs: seq<AdCandidate>, topK: nat, threshold: real): set<Key> {
    set e | e in Advancing(cs, topK, threshold) :: e.key
  }

  method MakeBatch(cs: seq<AdCandidate>, keys: set<Key>) returns (batch: seq<AdCandidate>)
    ensures batch == Batch(cs, keys)
  {
    batch := [];
    for i := 0 to |cs|
      invariant batch + Batch(cs[i..], keys) == Batch(cs, keys)
    {
      assert cs[i..][1..] == cs[i + 1..];
      if KeyOf(cs[i]) in keys {
        assert batch + ([cs[i]] + Batch(cs[i + 1..], keys)) == (batch + [cs[i]]) + Batch(cs[i + 1..], keys);
        batch := batch + [cs[i]];
      }
    }
  }

  method CollectScores(batch: seq<AdCandidate>) returns (scores: map<Key, real>)
    ensures scores == ScoresOf(batch)
  {
    scores := map[];
    for i := 0 to |batch|
      invariant scores == ScoresOf(batch[..i])
    {
      assert batch[..i + 1][..i] == batch[..i];
      scores := scores[KeyOf(batch[i]) := batch[i].score];
    }
    assert batch[..|batch|] == batch;
  }

  method WriteBack(first: seq<AdCandidate>, scores: map<Key, real>) returns (scored: seq<AdCandidate>)
    ensures |scored| == |first| && forall i :: 0 <= i < |first| ==> scored[i] == Rescored(first[i], scores)
  {
    scored := first;
    for i := 0 to |scored|
      invariant |scored| == |first|
      invariant forall j :: 0 <= j < i ==> scored[j] == Rescored(first[j], scores)
      invariant forall j :: i <= j < |first| ==> scored[j] == first[j]
    {
      if KeyOf(scored[i]) in scores {
        scored := scored[i := scored[i].(score := scores[KeyOf(scored[i])])];
      }
    }
  }

  /** `score_all` with the two stages as arbitrary functions of the list. */
  method ScoreAll(candidates: seq<AdCandidate>, stage1: seq<AdCandidate> -> seq<AdCandidate>,
                  stage2: seq<AdCandidate> -> seq<AdCandidate>, topK: nat, threshold: real)
    returns (scored: seq<AdCandidate>)
    ensures candidates == [] ==> scored == []
    ensures candidates != [] ==>
      var first := stage1(candidates);
      var keys := AdvanceKeys(first, topK, threshold);
      && |scored| == |first|
      && (keys == {} ==> scored == first)
      && (keys != {} ==> forall i :: 0 <= i < |first| ==>
        scored[i] == Rescored(first[i], ScoresOf(stage2(Batch(first, keys)))))
  {
    if candidates == [] {
      return [];
    }
    var first := stage1(candidates);
    var keys := AdvanceKeys(first, topK, threshold);
    if keys == {} {
      return first;
    }
    var batch := MakeBatch(first, keys);
    batch := stage2(batch);
    var scores := CollectScores(batch);
    scored := WriteBack(first, scores);
  }

  /** Stage 2 may reorder, rescore and drop, but not invent or repeat keys. */
  ghost predicate Honest(batch: seq<AdCandidate>, result: seq<AdCandidate>) {
    && DistinctKeys(result)
    && forall c :: c in result ==> exists b :: b in batch && KeyOf(b) == KeyOf(c)
  }

  lemma {:induction false} BatchMembers(cs: seq<AdCandidate>, keys: set<Key>)
    ensures forall c :: c in Batch(cs, keys) <==> c in cs && KeyOf(c) in keys
  {
    if cs != [] {
      assert cs == [cs[0]] + cs[1..];
      BatchMembers(cs[1..], keys);
    }
  }

  /** Everyone who advances is in the batch that stage 2 gets, and nobody else. */
  lemma BatchIsAdvancing(first: seq<AdCandidate>, topK: nat, threshold: real, i: nat)
    requires DistinctKeys(first) && i < |first|
    ensures first[i] in Batch(first, AdvanceKeys(first, topK, threshold)) <==> Advances(first, topK, threshold, i)
  {
    BatchMembers(first, AdvanceKeys(first, topK, threshold));
    AdvancingFit(first, topK, threshold);
    if first[i] in Batch(first, AdvanceKeys(first, topK, threshold)) {
      var e :| e in Advancing(first, topK, threshold) && e.key == KeyOf(first[i]);
      assert e == Tag(first, e.pos) && KeyOf(first[e.pos]) == KeyOf(first[i]);
      assert e.pos == i;
    }
  }

  lemma {:induction false} ScoresOfMember(batch: seq<AdCandidate>, key: Key)
    requires DistinctKeys(batch)
    ensures key in ScoresOf(batch) <==> exists c :: c in batch && KeyOf(c) == key
    ensures forall c :: c in batch && KeyOf(c) == key ==> ScoresOf(batch)[key] == c.score
  {
    if batch != [] {
      var n := |batch| - 1;
      assert batch == batch[..n] + [batch[n]];
      ScoresOfMember(batch[..n], key);
    }
  }

  /** With distinct keys and an honest stage 2: everyone keeps their place and identity;
      an advancing candidate that stage 2 returned has its stage-2 score; everyone else,
      including those stage 2 dropped, keeps the stage-1 score. */
  lemma OnlyAdvancedRescored(first: seq<AdCandidate>, result: seq<AdCandidate>, topK: nat, threshold: real, i: nat)
    requires DistinctKeys(first) && i < |first|
    requires Honest(Batch(first, AdvanceKeys(first, topK, threshold)), result)
    ensures var r := Rescored(first[i], ScoresOf(result));
      && r.(score := first[i].score) == first[i]
      && (forall c :: c in result && KeyOf(c) == KeyOf(first[i]) ==>
            Advances(first, topK, threshold, i) && r.score == c.score)
      && ((forall c :: c in result ==> KeyOf(c) != KeyOf(first[i])) ==> r == first[i])
      && (!Advances(first, topK, threshold, i) ==> r == first[i])
  {
    var keys := AdvanceKeys(first, topK, threshold);
    ScoresOfMember(result, KeyOf(first[i]));
    BatchMembers(first, keys);
    AdvancingFit(first, topK, threshold);
    forall c | c in result && KeyOf(c) == KeyOf(first[i]) ensures Advances(first, topK, threshold, i) {
      var b :| b in Batch(first, keys) && KeyOf(b) == KeyOf(c);
      var e :| e in Advancing(first, topK, threshold) && e.key == KeyOf(b);
      assert e == Tag(first, e.pos) && KeyOf(first[e.pos]) == KeyOf(first[i]);
      assert e.pos == i;
    }
  }

  /** The result does not depend on the order in which stage 2 returns its batch. */
  lemma OrderIrrelevant(a: seq<AdCandidate>, b: seq<AdCandidate>)
    requires DistinctKeys(a) && DistinctKeys(b) && multiset(a) == multiset(b)
    ensures ScoresOf(a) == ScoresOf(b)
  {
    forall key: Key ensures key in ScoresOf(a) <==> key in ScoresOf(b)
    ensures key in ScoresOf(a) && key in ScoresOf(b) ==> ScoresOf(a)[key] == ScoresOf(b)[key]
    {
      ScoresOfMember(a, key);
      ScoresOfMember(b, key);
      assert forall c :: c in a <==> c in multiset(a);
      assert forall c :: c in b <==> c in multiset(b);
    }
  }
}
