/** The batched model scorer: chunks of at most `max_batch`, and a reset with fallback
    when any chunk fails (scoring/ml.rs:357-448). Inference is a function that may fail. */
module MlScorer {
  import opened Common

  /** Inference on a batch: one output for each row of the padded batch, of which the
      first ones belong to the candidates; `None` if it fails. */
  type Model = seq<AdCandidate> -> Option<seq<real>>

  /** `score_batch`: all scores of the chunk, or an error and none. */
  function ScoreBatch(chunk: seq<AdCandidate>, model: Model): (r: Option<seq<AdCandidate>>)
    ensures r.Some? ==> |r.value| == |chunk|
  {
    if chunk == [] then Some([])
    else
      match model(chunk)
      case None => None
      case Some(data) =>
        if |data| < |chunk| then None
        else Some(seq(|chunk|, i requires 0 <= i < |chunk| => chunk[i].(score := data[i])))
  }

  /** The list scored chunk by chunk from `start`, if no chunk fails. */
  function Scored(cs: seq<AdCandidate>, model: Model, maxBatch: nat): (r: Option<seq<AdCandidate>>)
    requires maxBatch > 0
    ensures r.Some? ==> |r.value| == |cs|
    decreases |cs|
  {
    if cs == [] then Some([])
    else
      var end := Min(maxBatch, |cs|);
      match ScoreBatch(cs[..end], model)
      case None => None
      case Some(head) => Prefixed(head, Scored(cs[end..], model, maxBatch))
  }

  function Prefixed(head: seq<AdCandidate>, tail: Option<seq<AdCandidate>>): Option<seq<AdCandidate>> {
    match tail
    case Some(t) => Some(head + t)
    case None => None
  }

  lemma PrefixedTwice(a: seq<AdCandidate>, b: seq<AdCandidate>, tail: Option<seq<AdCandidate>>)
    ensures Prefixed([], tail) == tail
    ensures Prefixed(a, Prefixed(b, tail)) == Prefixed(a + b, tail)
  {
    if tail.Some? {
      assert [] + tail.value == tail.value;
      assert a + (b + tail.value) == (a + b) + tail.value;
    }
  }

  function Reset(cs: seq<AdCandidate>): (r: seq<AdCandidate>)
    ensures |r| == |cs|
  {
    seq(|cs|, i requires 0 <= i < |cs| => cs[i].(score := 0.0))
  }

  method ResetAll(cs: seq<AdCandidate>) returns (r: seq<AdCandidate>)
    ensures r == Reset(cs)
  {
    r := cs;
    for i := 0 to |r|
      invariant |r| == |cs|
      invariant forall j :: 0 <= j < i ==> r[j] == cs[j].(score := 0.0)
      invariant forall j :: i <= j < |cs| ==> r[j] == cs[j]
    {
      r := r[i := r[i].(score := 0.0)];
    }
  }

  lemma {:induction false} SameReset(done: seq<AdCandidate>, chunk: seq<AdCandidate>, scored: seq<AdCandidate>,
                                     rest: seq<AdCandidate>)
    requires |chunk| == |scored| && forall i :: 0 <= i < |chunk| ==> chunk[i].(score := 0.0) == scored[i].(score := 0.0)
    ensures Reset(done + scored + rest) == Reset(done + chunk + rest)
  {
    var a, b := done + scored + rest, done + chunk + rest;
    assert forall i :: 0 <= i < |a| ==> a[i].(score := 0.0) == b[i].(score := 0.0);
  }

  /** One successful chunk in front of the rest. */
  lemma {:induction false} ChunkDone(done: seq<AdCandidate>, rest: seq<AdCandidate>, model: Model, maxBatch: nat,
                                     head: seq<AdCandidate>)
    requires maxBatch > 0 && rest != []
    requires ScoreBatch(rest[..Min(maxBatch, |rest|)], model) == Some(head)
    ensures var tail := rest[Min(maxBatch, |rest|)..];
      && Prefixed(done, Scored(rest, model, maxBatch)) == Prefixed(done + head, Scored(tail, model, maxBatch))
      && Reset(done + head + tail) == Reset(done + rest)
  {
    var end := Min(maxBatch, |rest|);
    PrefixedTwice(done, head, Scored(rest[end..], model, maxBatch));
    SameReset(done, rest[..end], head, rest[end..]);
    assert done + rest[..end] + rest[end..] == done + rest;
  }

  lemma Spliced(done: seq<AdCandidate>, rest: seq<AdCandidate>, size: nat)
    requires size <= |rest|
    ensures var all, start := done + rest, |done|;
      all[..start] == done && all[start..start + size] == rest[..size] && all[start + size..] == rest[size..]
  {
  }

  lemma Respliced(all: seq<AdCandidate>, done: seq<AdCandidate>, rest: seq<AdCandidate>, size: nat,
                  head: seq<AdCandidate>)
    requires all == done + rest && size <= |rest|
    ensures all[..|done|] + head + all[|done| + size..] == (done + head) + rest[size..]
  {
    Spliced(done, rest, size);
  }

  /** The chunk loop: stops at the first failure, with the earlier chunks already scored. */
  method ScoreChunks(candidates: seq<AdCandidate>, model: Model, maxBatch: nat)
    returns (ok: bool, scored: seq<AdCandidate>)
    requires maxBatch > 0
    ensures if ok then Scored(candidates, model, maxBatch) == Some(scored)
            else Scored(candidates, model, maxBatch).None? && Reset(scored) == Reset(candidates)
  {
    ok, scored := true, candidates;
    var start := 0;
    ghost var done, rest: seq<AdCandidate> := [], candidates;
    PrefixedTwice([], [], Scored(candidates, model, maxBatch));
    while start < |scored|
      invariant scored == done + rest && |done| == start
      invariant Reset(scored) == Reset(candidates)
      invariant Scored(candidates, model, maxBatch) == Prefixed(done, Scored(rest, model, maxBatch))
      decreases |rest|
    {
      var end := Min(start + maxBatch, |scored|);
      Spliced(done, rest, end - start);
      var result := ScoreBatch(scored[start..end], model);
      if result.None? {
        return false, scored;
      }
      ChunkDone(done, rest, model, maxBatch, result.value);
      Respliced(scored, done, rest, end - start, result.value);
      scored := scored[..start] + result.value + scored[end..];
      done, rest := done + result.value, rest[end - start..];
      start := end;
    }
  }

  /** Every score comes from the model, or none does: on any failure the scores of
      earlier chunks are wiped and the whole list goes to the fallback. */
  method ScoreAll(candidates: seq<AdCandidate>, model: Model, maxBatch: nat,
                  fallback: Option<seq<AdCandidate> -> seq<AdCandidate>>) returns (scored: seq<AdCandidate>)
    requires maxBatch > 0
    ensures match Scored(candidates, model, maxBatch)
      case Some(all) => scored == all
      case None => scored == if fallback.Some? then fallback.value(Reset(candidates)) else Reset(candidates)
    ensures Scored(candidates, model, maxBatch).None? && fallback.None? ==>
      |scored| == |candidates| && forall i :: 0 <= i < |scored| ==> scored[i] == candidates[i].(score := 0.0)
  {
    var ok, partial := ScoreChunks(candidates, model, maxBatch);
    if ok {
      return partial;
    }
    var wiped := ResetAll(partial);
    scored := if fallback.Some? then fallback.value(wiped) else wiped;
  }

  /** The model's scores change nothing but the scores. */
  lemma {:induction false} ScoredKeepsIdentities(cs: seq<AdCandidate>, model: Model, maxBatch: nat, i: nat)
    requires maxBatch > 0 && Scored(cs, model, maxBatch).Some? && i < |cs|
    ensures Scored(cs, model, maxBatch).value[i].(score := cs[i].score) == cs[i]
    decreases |cs|
  {
    var end := Min(maxBatch, |cs|);
    if i >= end {
      ScoredKeepsIdentities(cs[end..], model, maxBatch, i - end);
    }
  }

  /** The chunk a position falls in, and its offset there. */
  function ChunkOf(cs: seq<AdCandidate>, maxBatch: nat, i: nat): (seq<AdCandidate>, nat)
    requires maxBatch > 0 && i < |cs|
    decreases |cs|
  {
    var end := Min(maxBatch, |cs|);
    if i < end then (cs[..end], i) else ChunkOf(cs[end..], maxBatch, i - end)
  }

  /** Chunks start at the multiples of the batch size. */
  lemma {:induction false} ChunkOfIs(cs: seq<AdCandidate>, maxBatch: nat, i: nat)
    requires maxBatch > 0 && i < |cs|
    ensures var r := i % maxBatch;
      r <= i && ChunkOf(cs, maxBatch, i) == (cs[i - r..Min(i - r + maxBatch, |cs|)], r)
    decreases |cs|
  {
    if i < maxBatch {
      SmallMod(i, maxBatch);
    } else {
      var j, r := i - maxBatch, i % maxBatch;
      ChunkOfIs(cs[maxBatch..], maxBatch, j);
      ModShift(i, maxBatch);
      SliceShift(cs, maxBatch, i - r, Min(i - r + maxBatch, |cs|));
    }
  }

  lemma SliceShift(cs: seq<AdCandidate>, m: nat, a: nat, b: nat)
    requires m <= a <= b <= |cs|
    ensures cs[m..][a - m..b - m] == cs[a..b]
  {
  }

  lemma SmallMod(i: nat, m: nat)
    requires i < m
    ensures i % m == i
  {
  }

  lemma ModShift(i: nat, m: nat)
    requires 0 < m <= i
    ensures (i - m) % m == i % m
  {
    var q, r := i / m, i % m;
    assert i == q * m + r && i - m == (q - 1) * m + r;
    ModUnique(i - m, q - 1, r, m);
  }

  lemma ModUnique(n: int, q: int, r: int, m: int)
    requires m > 0 && 0 <= r < m && n == q * m + r
    ensures n % m == r
  {
    var d := n / m - q;
    assert n == (n / m) * m + n % m;
    assert d * m == r - n % m;
    MultipleBound(d, m);
  }

  lemma MultipleBound(d: int, m: int)
    requires m > 0
    ensures d >= 1 ==> d * m >= m
    ensures d <= -1 ==> d * m <= -m
  {
    if d >= 1 {
      assert (d - 1) * m >= 0;
    } else if d <= -1 {
      assert (-d - 1) * m >= 0;
    }
  }

  /** Whatever the model: each score is its output for the candidate's own chunk, at the
      candidate's own offset. */
  lemma {:induction false} ScoredFromChunk(cs: seq<AdCandidate>, model: Model, maxBatch: nat, i: nat)
    requires maxBatch > 0 && Scored(cs, model, maxBatch).Some? && i < |cs|
    ensures var (chunk, offset) := ChunkOf(cs, maxBatch, i);
      && model(chunk).Some? && offset < |model(chunk).value|
      && Scored(cs, model, maxBatch).value[i].score == model(chunk).value[offset]
    decreases |cs|
  {
    var end := Min(maxBatch, |cs|);
    if i >= end {
      ScoredFromChunk(cs[end..], model, maxBatch, i - end);
    }
  }

  /** A chunk is scored exactly when it is empty or the model answers with enough outputs. */
  predicate Answered(chunk: seq<AdCandidate>, model: Model) {
    chunk == [] || (model(chunk).Some? && |model(chunk).value| >= |chunk|)
  }

  lemma ScoreBatchIff(chunk: seq<AdCandidate>, model: Model)
    ensures ScoreBatch(chunk, model).Some? <==> Answered(chunk, model)
  {
  }

  predicate ChunkAnswered(cs: seq<AdCandidate>, model: Model, maxBatch: nat, i: nat)
    requires maxBatch > 0 && i < |cs|
  {
    Answered(ChunkOf(cs, maxBatch, i).0, model)
  }

  lemma LaterChunk(cs: seq<AdCandidate>, model: Model, maxBatch: nat, i: nat)
    requires 0 < maxBatch <= i < |cs|
    ensures ChunkAnswered(cs, model, maxBatch, i) == ChunkAnswered(cs[maxBatch..], model, maxBatch, i - maxBatch)
  {
  }

  lemma FirstChunk(cs: seq<AdCandidate>, model: Model, maxBatch: nat, i: nat)
    requires maxBatch > 0 && i < Min(maxBatch, |cs|)
    ensures ChunkAnswered(cs, model, maxBatch, i) == Answered(cs[..Min(maxBatch, |cs|)], model)
  {
  }

  /** The list is scored exactly when every chunk of it is. */
  lemma {:induction false} ScoredIff(cs: seq<AdCandidate>, model: Model, maxBatch: nat)
    requires maxBatch > 0
    ensures Scored(cs, model, maxBatch).Some? <==>
      forall i :: 0 <= i < |cs| ==> ChunkAnswered(cs, model, maxBatch, i)
    decreases |cs|
  {
    if cs != [] {
      var end := Min(maxBatch, |cs|);
      ScoredIff(cs[end..], model, maxBatch);
      ScoreBatchIff(cs[..end], model);
      FirstChunk(cs, model, maxBatch, 0);
      if Scored(cs, model, maxBatch).Some? {
        forall i | 0 <= i < |cs| ensures ChunkAnswered(cs, model, maxBatch, i) {
          if i < end {
            FirstChunk(cs, model, maxBatch, i);
          } else {
            LaterChunk(cs, model, maxBatch, i);
          }
        }
      } else if Answered(cs[..end], model) {
        var k :| 0 <= k < |cs[end..]| && !ChunkAnswered(cs[end..], model, maxBatch, k);
        LaterChunk(cs, model, maxBatch, k + end);
      }
    }
  }

  /** Each candidate with its own score. */
  function RowScored(cs: seq<AdCandidate>, f: AdCandidate -> real): seq<AdCandidate> {
    if cs == [] then [] else [cs[0].(score := f(cs[0]))] + RowScored(cs[1..], f)
  }

  lemma {:induction false} RowScoredIs(cs: seq<AdCandidate>, f: AdCandidate -> real)
    ensures |RowScored(cs, f)| == |cs| && forall i :: 0 <= i < |cs| ==> RowScored(cs, f)[i] == cs[i].(score := f(cs[i]))
  {
    if cs != [] {
      RowScoredIs(cs[1..], f);
    }
  }

  lemma {:induction false} RowScoredSplit(cs: seq<AdCandidate>, end: nat, f: AdCandidate -> real)
    requires end <= |cs|
    ensures RowScored(cs, f) == RowScored(cs[..end], f) + RowScored(cs[end..], f)
  {
    RowScoredIs(cs, f);
    RowScoredIs(cs[..end], f);
    RowScoredIs(cs[end..], f);
  }

  /** Inference that treats the rows of a batch independently. */
  ghost predicate Rowwise(model: Model, f: AdCandidate -> real) {
    forall chunk :: ScoreBatch(chunk, model) == Some(RowScored(chunk, f))
  }

  /** Chunking is invisible: with such a model, any batch size gives each candidate its
      own score. */
  lemma {:induction false} ChunkingInvisible(cs: seq<AdCandidate>, model: Model, maxBatch: nat, f: AdCandidate -> real)
    requires maxBatch > 0 && Rowwise(model, f)
    ensures Scored(cs, model, maxBatch) == Some(RowScored(cs, f))
    decreases |cs|
  {
    if cs != [] {
      var end := Min(maxBatch, |cs|);
      ChunkingInvisible(cs[end..], model, maxBatch, f);
      RowScoredSplit(cs, end, f);
      assert ScoreBatch(cs[..end], model) == Some(RowScored(cs[..end], f));
    }
  }
}
