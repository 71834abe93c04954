/** Ranking-quality metrics of a prediction list against a user's positive
    items: precision, recall, mean average precision, DCG and NDCG. Ratios
    are exact reals; the logarithmic DCG discount `1 / log(i + 2)` is an
    abstract function `discount`. */
module Quality {
  import opened Builtins
  import opened Primitives

  /** `predictions[:k]` when a k is set. */
  function Truncate(predictions: seq<Candidate>, k: Option<int>): (r: seq<Candidate>)
    ensures k.None? ==> r == predictions
    ensures k.Some? && k.value >= 0 ==> r == predictions[..Min(k.value, |predictions|)]
    ensures |r| <= |predictions|
  {
    if k.Some? then Take(predictions, k.value) else predictions
  }

  /** `{p.id for p in predictions} & set(positives)`. */
  function Relevant(predictions: seq<Candidate>, positives: seq<int>): set<int>
  {
    Elements(Ids(predictions)) * Elements(positives)
  }

  /** At most one relevant id per prediction and per positive. */
  lemma RelevantBounds(predictions: seq<Candidate>, positives: seq<int>)
    ensures |Relevant(predictions, positives)| <= |predictions|
    ensures |Relevant(predictions, positives)| <= |positives|
  {
    ElementsCard(Ids(predictions));
    ElementsCard(positives);
    assert Relevant(predictions, positives) <= Elements(Ids(predictions));
    assert Relevant(predictions, positives) <= Elements(positives);
    SubsetCard(Relevant(predictions, positives), Elements(Ids(predictions)));
    SubsetCard(Relevant(predictions, positives), Elements(positives));
  }

  lemma SubsetCard<T>(a: set<T>, b: set<T>)
    requires a <= b
    ensures |a| <= |b|
  {
    assert b == a + (b - a);
  }

  /** `x / y` lies in [0, 1] when `0 <= x <= y` and `y > 0`. */
  lemma RatioInUnit(x: real, y: real)
    requires 0.0 <= x <= y && y > 0.0
    ensures 0.0 <= x / y <= 1.0
  {
    assert x / y * y == x;
  }

  /** `hits / n` for counts `hits <= n`, `n > 0`. */
  function Ratio(hits: nat, n: nat): (r: real)
    requires hits <= n && n > 0
    ensures 0.0 <= r <= 1.0
    ensures r * n as real == hits as real
  {
    RatioInUnit(hits as real, n as real);
    assert hits as real / n as real * n as real == hits as real;
    hits as real / n as real
  }

  /** `Precision.compute`: distinct relevant ids over the number of
      (truncated) predictions, a ratio in [0, 1]; no prediction divides by
      zero. */
  function Precision(k: Option<int>, predictions: seq<Candidate>, positives: seq<int>): (r: Result<real>)
    ensures r.Err? <==> |Truncate(predictions, k)| == 0
    ensures r.Err? ==> r.error == ZeroDivisionError
    ensures r.Ok? ==> 0.0 <= r.value <= 1.0
  {
    var p := Truncate(predictions, k);
    if |p| == 0 then Err(ZeroDivisionError)
    else
      RelevantBounds(p, positives);
      Ok(Ratio(|Relevant(p, positives)|, |p|))
  }

  /** `Recall.compute`: distinct relevant ids over the length of the
      positives list (duplicates included), a ratio in [0, 1]; an empty
      positives list divides by zero. */
  function Recall(k: Option<int>, predictions: seq<Candidate>, positives: seq<int>): (r: Result<real>)
    ensures r.Err? <==> |positives| == 0
    ensures r.Err? ==> r.error == ZeroDivisionError
    ensures r.Ok? ==> 0.0 <= r.value <= 1.0
  {
    var p := Truncate(predictions, k);
    if |positives| == 0 then Err(ZeroDivisionError)
    else
      RelevantBounds(p, positives);
      Ok(Ratio(|Relevant(p, positives)|, |positives|))
  }

  /** Recall times the number of positives is the number of distinct
      relevant ids among the kept predictions. */
  lemma RecallIsHitRate(k: Option<int>, predictions: seq<Candidate>, positives: seq<int>)
    requires Recall(k, predictions, positives).Ok?
    ensures Recall(k, predictions, positives).value * |positives| as real
      == |Relevant(Truncate(predictions, k), positives)| as real
  {
    var p := Truncate(predictions, k);
    RelevantBounds(p, positives);
    assert Recall(k, predictions, positives) == Ok(Ratio(|Relevant(p, positives)|, |positives|));
  }

  function Candidates(ids: seq<int>): (r: seq<Candidate>)
    ensures Ids(r) == ids
  {
    if ids == [] then [] else [Candidate(ids[0], None)] + Candidates(ids[1..])
  }

  /** Predictions 5, 7, 9 against the positive 5: precision 1/3, recall 1. */
  lemma PrecisionRecallExample()
    ensures Precision(None, Candidates([5, 7, 9]), [5]) == Ok(1.0 / 3.0)
    ensures Recall(None, Candidates([5, 7, 9]), [5]) == Ok(1.0)
  {
    var p := Candidates([5, 7, 9]);
    assert Elements(Ids(p)) == {5, 7, 9};
    assert Elements([5]) == {5};
    assert Relevant(p, [5]) == {5};
  }

  /* ---------------------------------------------------------------------
     MAP
     --------------------------------------------------------------------- */

  /** Position `i` is a hit: a positive not already predicted earlier. */
  predicate IsHit(predicted: seq<int>, actual: set<int>, i: nat)
    requires i < |predicted|
  {
    predicted[i] in actual && predicted[i] !in predicted[..i]
  }

  /** `num_hits` after the first `i` positions. */
  function HitsUpTo(predicted: seq<int>, actual: set<int>, i: nat): (r: nat)
    requires i <= |predicted|
    ensures r <= i
  {
    if i == 0 then 0
    else HitsUpTo(predicted, actual, i - 1) + (if IsHit(predicted, actual, i - 1) then 1 else 0)
  }

  /** `score` after the first `i` positions: each hit adds the precision
      at its position. */
  function ScoreUpTo(predicted: seq<int>, actual: set<int>, i: nat): real
    requires i <= |predicted|
  {
    if i == 0 then 0.0
    else
      ScoreUpTo(predicted, actual, i - 1)
        + (if IsHit(predicted, actual, i - 1) then HitsUpTo(predicted, actual, i) as real / i as real else 0.0)
  }

  /** `MAP._apk`: 1 for no positives; `min(len(actual), None)` raises
      TypeError; 0 when that minimum is 0; else the score over it. */
  function Apk(predicted: seq<int>, actual: set<int>, k: Option<int>): (r: Result<real>)
    ensures actual == {} ==> r == Ok(1.0)
    ensures actual != {} && k.None? ==> r == Err(TypeError)
    ensures actual != {} && k.Some? ==> r.Ok?
  {
    if actual == {} then Ok(1.0)
    else if k.None? then Err(TypeError)
    else
      var d := Min(|actual|, k.value);
      if d == 0 then Ok(0.0) else Ok(ScoreUpTo(predicted, actual, |predicted|) / d as real)
  }

  /** `_apk` as the loop that accumulates the score. */
  method AveragePrecision(predicted: seq<int>, actual: set<int>, k: Option<int>) returns (r: Result<real>)
    ensures r == Apk(predicted, actual, k)
  {
    var score := 0.0;
    var numHits := 0;
    for i := 0 to |predicted|
      invariant numHits == HitsUpTo(predicted, actual, i)
      invariant score == ScoreUpTo(predicted, actual, i)
    {
      var p := predicted[i];
      if p in actual && p !in predicted[..i] {
        numHits := numHits + 1;
        score := score + numHits as real / (i + 1) as real;
      }
    }
    if actual == {} {
      return Ok(1.0);
    } else if k.None? {
      return Err(TypeError);
    }
    var d := Min(|actual|, k.value);
    if d == 0 {
      return Ok(0.0);
    }
    return Ok(score / d as real);
  }

  /** Hits count each positive id once, at its first occurrence. */
  lemma {:induction false} HitsAreDistinctPositives(predicted: seq<int>, actual: set<int>, i: nat)
    requires i <= |predicted|
    ensures HitsUpTo(predicted, actual, i) == |Elements(predicted[..i]) * actual|
  {
    if i > 0 {
      HitsAreDistinctPositives(predicted, actual, i - 1);
      var p := predicted[i - 1];
      assert predicted[..i] == predicted[..i - 1] + [p];
      assert Elements(predicted[..i]) == Elements(predicted[..i - 1]) + {p};
      var before := Elements(predicted[..i - 1]) * actual;
      if IsHit(predicted, actual, i - 1) {
        assert Elements(predicted[..i]) * actual == before + {p};
        assert p !in before;
      } else {
        assert Elements(predicted[..i]) * actual == before;
      }
    }
  }

  /** Each hit adds at most 1, so the score never exceeds the hits. */
  lemma {:induction false} ScoreAtMostHits(predicted: seq<int>, actual: set<int>, i: nat)
    requires i <= |predicted|
    ensures 0.0 <= ScoreUpTo(predicted, actual, i) <= HitsUpTo(predicted, actual, i) as real
  {
    if i > 0 {
      ScoreAtMostHits(predicted, actual, i - 1);
      if IsHit(predicted, actual, i - 1) {
        RatioInUnit(HitsUpTo(predicted, actual, i) as real, i as real);
      }
    }
  }

  /** `MAP.compute`. */
  function MeanAveragePrecision(k: Option<int>, predictions: seq<Candidate>, positives: seq<int>): (r: Result<real>)
    ensures positives == [] ==> r == Ok(1.0)
    ensures positives != [] && k.None? ==> r == Err(TypeError)
  {
    assert positives != [] ==> positives[0] in Elements(positives);
    Apk(Ids(Truncate(predictions, k)), Elements(positives), k)
  }

  /** With a non-negative k, MAP lies in [0, 1]: the score is at most the
      number of distinct hits, which is at most both `len(actual)` and the
      k predictions kept. */
  lemma MeanAveragePrecisionInUnit(k: Option<int>, predictions: seq<Candidate>, positives: seq<int>)
    requires k.None? || k.value >= 0
    requires MeanAveragePrecision(k, predictions, positives).Ok?
    ensures 0.0 <= MeanAveragePrecision(k, predictions, positives).value <= 1.0
  {
    var predicted := Ids(Truncate(predictions, k));
    var actual := Elements(positives);
    if actual != {} {
      var d := Min(|actual|, k.value);
      if d != 0 {
        var n := |predicted|;
        assert predicted[..n] == predicted;
        ScoreAtMostHits(predicted, actual, n);
        HitsAreDistinctPositives(predicted, actual, n);
        ElementsCard(predicted);
        SubsetCard(Elements(predicted) * actual, Elements(predicted));
        SubsetCard(Elements(predicted) * actual, actual);
        RatioInUnit(ScoreUpTo(predicted, actual, n), d as real);
      }
    }
  }

  /* ---------------------------------------------------------------------
     DCG and NDCG
     --------------------------------------------------------------------- */

  /** `[int(p.id in positives) for p in predictions]`. */
  function Relevance(predictions: seq<Candidate>, positives: seq<int>): (r: seq<int>)
    ensures |r| == |predictions|
    ensures forall i :: 0 <= i < |r| ==> r[i] == if predictions[i].id in positives then 1 else 0
  {
    if predictions == [] then []
    else [if predictions[0].id in positives then 1 else 0] + Relevance(predictions[1..], positives)
  }

  predicate Binary(rel: seq<int>)
  {
    forall i :: 0 <= i < |rel| ==> rel[i] == 0 || rel[i] == 1
  }

  /** The discount `1 / log(i + 2)` is positive and non-increasing. */
  ghost predicate Discount(discount: nat -> real)
  {
    (forall i: nat :: discount(i) > 0.0) && (forall i: nat :: discount(i + 1) <= discount(i))
  }

  /** `_dcg` of the relevances placed from position `start` on. */
  function DcgFrom(rel: seq<int>, discount: nat -> real, start: nat): real
  {
    if rel == [] then 0.0 else rel[0] as real * discount(start) + DcgFrom(rel[1..], discount, start + 1)
  }

  function Dcg(rel: seq<int>, discount: nat -> real): real
  {
    DcgFrom(rel, discount, 0)
  }

  function Count(rel: seq<int>): (r: nat)
    ensures r <= |rel|
  {
    if rel == [] then 0 else (if rel[0] == 1 then 1 else 0) + Count(rel[1..])
  }

  /** `sorted(relevance, reverse=True)` of a 0/1 list: its ones, then its
      zeros. */
  function Ideal(rel: seq<int>): (r: seq<int>)
    ensures |r| == |rel|
    ensures forall i :: 0 <= i < |r| ==> r[i] == if i < Count(rel) then 1 else 0
  {
    seq(|rel|, i => if i < Count(rel) then 1 else 0)
  }

  /** The ideal order is the descending sort: non-increasing, and a
      rearrangement of the relevances. */
  lemma {:induction false} IdealIsSorted(rel: seq<int>)
    requires Binary(rel)
    ensures forall i, j :: 0 <= i < j < |rel| ==> Ideal(rel)[i] >= Ideal(rel)[j]
    ensures multiset(Ideal(rel)) == multiset(rel)
  {
    if rel != [] {
      var tail := rel[1..];
      assert Binary(tail);
      IdealIsSorted(tail);
      var c := Count(tail);
      assert rel == [rel[0]] + tail;
      if rel[0] == 1 {
        assert Ideal(rel) == [1] + Ideal(tail);
      } else {
        assert Ideal(rel) == Ideal(tail) + [0];
      }
    }
  }

  /** The sum of the first `c` discounts from `start`. */
  function OnesFrom(c: nat, discount: nat -> real, start: nat): real
  {
    if c == 0 then 0.0 else discount(start) + OnesFrom(c - 1, discount, start + 1)
  }

  lemma {:induction false} OnesFromShift(c: nat, discount: nat -> real, start: nat)
    requires Discount(discount)
    ensures 0.0 <= OnesFrom(c, discount, start + 1) <= OnesFrom(c, discount, start)
  {
    if c > 0 {
      OnesFromShift(c - 1, discount, start + 1);
      assert discount(start + 1) <= discount(start);
    }
  }

  /** A 0/1 list's DCG is at most that of its hits placed first. */
  lemma {:induction false} DcgAtMostIdealFrom(rel: seq<int>, discount: nat -> real, start: nat)
    requires Binary(rel) && Discount(discount)
    ensures 0.0 <= DcgFrom(rel, discount, start) <= OnesFrom(Count(rel), discount, start)
  {
    if rel != [] {
      assert Binary(rel[1..]);
      DcgAtMostIdealFrom(rel[1..], discount, start + 1);
      OnesFromShift(Count(rel[1..]), discount, start);
    }
  }

  /** The ideal list's DCG is the sum of the first `Count` discounts. */
  lemma {:induction false} IdealDcg(c: nat, n: nat, discount: nat -> real, start: nat)
    requires c <= n
    ensures DcgFrom(seq(n, i => if i < c then 1 else 0), discount, start) == OnesFrom(c, discount, start)
  {
    var s := seq(n, i => if i < c then 1 else 0);
    if n > 0 {
      if c > 0 {
        assert s[1..] == seq(n - 1, i => if i < c - 1 then 1 else 0);
        IdealDcg(c - 1, n - 1, discount, start + 1);
      } else {
        assert s[1..] == seq(n - 1, i => if i < 0 then 1 else 0);
        IdealDcg(0, n - 1, discount, start + 1);
      }
    }
  }

  lemma {:induction false} OnesFromPositive(c: nat, discount: nat -> real, start: nat)
    requires Discount(discount)
    ensures c > 0 ==> OnesFrom(c, discount, start) > 0.0
    ensures OnesFrom(c, discount, start) >= 0.0
  {
    if c > 0 {
      OnesFromPositive(c - 1, discount, start + 1);
    }
  }

  /** `DCG.compute`. */
  function DiscountedGain(k: Option<int>, discount: nat -> real, predictions: seq<Candidate>, positives: seq<int>): (r: real)
    requires Discount(discount)
    ensures 0.0 <= r <= Dcg(Ideal(Relevance(Truncate(predictions, k), positives)), discount)
  {
    var rel := Relevance(Truncate(predictions, k), positives);
    RelevanceCount(Truncate(predictions, k), positives);
    DcgAtMostIdealFrom(rel, discount, 0);
    IdealDcg(Count(rel), |rel|, discount, 0);
    assert Ideal(rel) == seq(|rel|, i => if i < Count(rel) then 1 else 0);
    Dcg(rel, discount)
  }

  /** `NDCG.compute`: the DCG over the DCG of the descending sort, or 0
      when the latter is 0. */
  function NormalizedGain(k: Option<int>, discount: nat -> real, predictions: seq<Candidate>, positives: seq<int>): (r: real)
    requires Discount(discount)
    ensures 0.0 <= r <= 1.0
  {
    var rel := Relevance(Truncate(predictions, k), positives);
    var numer := DiscountedGain(k, discount, predictions, positives);
    var denom := Dcg(Ideal(rel), discount);
    if denom != 0.0 then
      RatioInUnit(numer, denom);
      numer / denom
    else 0.0
  }

  /** `Count` of the relevances is the number of positive predictions. */
  lemma {:induction false} RelevanceCount(predictions: seq<Candidate>, positives: seq<int>)
    ensures Binary(Relevance(predictions, positives))
    ensures Count(Relevance(predictions, positives)) == 0 <==> forall i :: 0 <= i < |predictions| ==> predictions[i].id !in positives
  {
    if predictions != [] {
      RelevanceCount(predictions[1..], positives);
      assert Relevance(predictions, positives)[1..] == Relevance(predictions[1..], positives);
      assert forall i :: 1 <= i < |predictions| ==> predictions[1..][i - 1] == predictions[i];
    }
  }

  lemma {:induction false} ZeroCountDcg(rel: seq<int>, discount: nat -> real, start: nat)
    requires Binary(rel) && Count(rel) == 0
    ensures DcgFrom(rel, discount, start) == 0.0
  {
    if rel != [] {
      assert Binary(rel[1..]);
      ZeroCountDcg(rel[1..], discount, start + 1);
    }
  }

  /** No positive among the predictions gives NDCG 0. */
  lemma NormalizedGainNoHit(k: Option<int>, discount: nat -> real, predictions: seq<Candidate>, positives: seq<int>)
    requires Discount(discount)
    requires forall c :: c in Truncate(predictions, k) ==> c.id !in positives
    ensures NormalizedGain(k, discount, predictions, positives) == 0.0
  {
    var p := Truncate(predictions, k);
    RelevanceCount(p, positives);
    ZeroCountDcg(Relevance(p, positives), discount, 0);
  }

  /** With at least one hit and every hit before every miss, NDCG is 1. */
  lemma NormalizedGainHitsFirst(k: Option<int>, discount: nat -> real, predictions: seq<Candidate>, positives: seq<int>)
    requires Discount(discount)
    requires exists c :: c in Truncate(predictions, k) && c.id in positives
    requires var p := Truncate(predictions, k);
      forall i, j :: 0 <= i < j < |p| && p[j].id in positives ==> p[i].id in positives
    ensures NormalizedGain(k, discount, predictions, positives) == 1.0
  {
    var p := Truncate(predictions, k);
    var rel := Relevance(p, positives);
    HitsFirstRelevance(p, positives);
    IdealDcgPositive(rel, discount);
    var denom := Dcg(Ideal(rel), discount);
    assert DiscountedGain(k, discount, predictions, positives) == denom;
    SelfRatio(denom);
  }

  lemma SelfRatio(x: real)
    requires x != 0.0
    ensures x / x == 1.0
  {
  }

  /** With at least one hit the ideal DCG is positive. */
  lemma IdealDcgPositive(rel: seq<int>, discount: nat -> real)
    requires Discount(discount) && Count(rel) > 0
    ensures Dcg(Ideal(rel), discount) > 0.0
  {
    IdealDcg(Count(rel), |rel|, discount, 0);
    assert Ideal(rel) == seq(|rel|, i => if i < Count(rel) then 1 else 0);
    OnesFromPositive(Count(rel), discount, 0);
  }

  /** Predictions with a hit and every hit first give a relevance list in
      its ideal order with a non-zero count. */
  lemma HitsFirstRelevance(p: seq<Candidate>, positives: seq<int>)
    requires exists c :: c in p && c.id in positives
    requires forall i, j :: 0 <= i < j < |p| && p[j].id in positives ==> p[i].id in positives
    ensures Relevance(p, positives) == Ideal(Relevance(p, positives))
    ensures Count(Relevance(p, positives)) > 0
  {
    var rel := Relevance(p, positives);
    RelevanceCount(p, positives);
    var c :| c in p && c.id in positives;
    var h :| 0 <= h < |p| && p[h] == c;
    assert rel[h] == 1;
    forall i, j | 0 <= i < j < |rel| && rel[j] == 1 ensures rel[i] == 1 {
      assert p[j].id in positives;
    }
    HitsFirstIsIdeal(rel);
  }

  /** A 0/1 list whose ones all precede its zeros is its own ideal order. */
  lemma {:induction false} HitsFirstIsIdeal(rel: seq<int>)
    requires Binary(rel)
    requires forall i, j :: 0 <= i < j < |rel| && rel[j] == 1 ==> rel[i] == 1
    ensures rel == Ideal(rel)
  {
    if rel != [] {
      var tail := rel[1..];
      assert Binary(tail);
      assert forall i, j :: 0 <= i < j < |tail| && tail[j] == 1 ==> tail[i] == 1 by {
        forall i, j | 0 <= i < j < |tail| && tail[j] == 1 ensures tail[i] == 1 {
          assert rel[j + 1] == 1;
        }
      }
      HitsFirstIsIdeal(tail);
      if rel[0] == 0 {
        AllZeroAfterZero(rel);
        assert Count(tail) == 0 by {
          ZeroCount(tail);
        }
      }
    }
  }

  lemma AllZeroAfterZero(rel: seq<int>)
    requires Binary(rel) && rel != [] && rel[0] == 0
    requires forall i, j :: 0 <= i < j < |rel| && rel[j] == 1 ==> rel[i] == 1
    ensures forall j :: 1 <= j < |rel| ==> rel[j] == 0
  {
    forall j | 1 <= j < |rel| ensures rel[j] == 0 {
      var first := rel[0];
      assert first == 0;
    }
  }

  lemma {:induction false} ZeroCount(rel: seq<int>)
    requires forall j :: 0 <= j < |rel| ==> rel[j] == 0
    ensures Count(rel) == 0
  {
    if rel != [] {
      ZeroCount(rel[1..]);
    }
  }
}
