/** The offline evaluation harness: a set of metrics, the test requests
    grouped from an action log, a replay of the requests through a
    recommendation callback (one user at a time, or in batches), and one
    aggregated value per metric name. */
module Evaluation {
  import opened Builtins
  import opened Primitives
  import opened Quality
  import opened Aspects

  /** The metric families, each with the lookup table or discount it uses. */
  datatype MetricKind =
    | PrecisionMetric
    | RecallMetric
    | MapMetric
    | DcgMetric(discount: nat -> real)
    | NdcgMetric(discount: nat -> real)
    | NoveltyMetric(itemNovelty: map<int, real>)
    | SerendipityMetric(userHistory: map<int, set<int>>)
    | CategoryDiversityMetric(categories: map<int, int>)

  /** `Metric`: what to compute, the cut-off `k`, the reduction and the
      display name. */
  datatype Metric = Metric(kind: MetricKind, k: Option<int>, reduceFunction: string, name: string)

  /** A DCG discount is positive and non-increasing, as `1 / log(i + 2)` is. */
  ghost predicate WellFormed(m: Metric)
  {
    (m.kind.DcgMetric? || m.kind.NdcgMetric?) ==> Discount(m.kind.discount)
  }

  ghost predicate AllWellFormed(metrics: seq<Metric>)
  {
    forall i :: 0 <= i < |metrics| ==> WellFormed(metrics[i])
  }

  /** `metric.compute(prediction, positives, user_id)`. */
  function Compute(m: Metric, predictions: seq<Candidate>, positives: seq<int>, userId: int): Result<real>
    requires WellFormed(m)
  {
    match m.kind
    case PrecisionMetric => Precision(m.k, predictions, positives)
    case RecallMetric => Recall(m.k, predictions, positives)
    case MapMetric => MeanAveragePrecision(m.k, predictions, positives)
    case DcgMetric(discount) => Ok(DiscountedGain(m.k, discount, predictions, positives))
    case NdcgMetric(discount) => Ok(NormalizedGain(m.k, discount, predictions, positives))
    case NoveltyMetric(table) => Novelty(m.k, table, predictions)
    case SerendipityMetric(history) => SerendipityValue(m.k, history, predictions, positives, userId)
    case CategoryDiversityMetric(categories) => CategoryDiversity(m.k, categories, predictions)
  }

  /** `max(metric.k for metric in metrics if metric.k is not None)`, which
      raises ValueError when no metric has a k. */
  function MaxK(metrics: seq<Metric>): (r: Result<int>)
    ensures r.Err? <==> forall i :: 0 <= i < |metrics| ==> metrics[i].k.None?
    ensures r.Err? ==> r.error == ValueError
    ensures r.Ok? ==> exists i :: 0 <= i < |metrics| && metrics[i].k == Some(r.value)
    ensures r.Ok? ==> forall i :: 0 <= i < |metrics| && metrics[i].k.Some? ==> metrics[i].k.value <= r.value
  {
    if metrics == [] then Err(ValueError)
    else
      var rest := MaxK(metrics[1..]);
      assert forall i :: 1 <= i < |metrics| ==> metrics[1..][i - 1] == metrics[i];
      if metrics[0].k.None? then rest
      else if rest.Ok? && rest.value > metrics[0].k.value then rest
      else Ok(metrics[0].k.value)
  }

  /* ---------------------------------------------------------------------
     Aggregation
     --------------------------------------------------------------------- */

  function Sum(values: seq<real>): real
  {
    if values == [] then 0.0 else values[0] + Sum(values[1..])
  }

  function MaxOf(values: seq<real>): (r: real)
    requires values != []
    ensures r in values
    ensures forall v :: v in values ==> v <= r
  {
    if |values| == 1 then values[0]
    else
      var rest := MaxOf(values[1..]);
      assert forall v :: v in values ==> v == values[0] || v in values[1..];
      if values[0] >= rest then values[0] else rest
  }

  function MinOf(values: seq<real>): (r: real)
    requires values != []
    ensures r in values
    ensures forall v :: v in values ==> r <= v
  {
    if |values| == 1 then values[0]
    else
      var rest := MinOf(values[1..]);
      assert forall v :: v in values ==> v == values[0] || v in values[1..];
      if values[0] <= rest then values[0] else rest
  }

  /** `Evaluator.aggregate`: only mean, sum, max and min are accepted
      (AssertionError otherwise); the mean of nothing divides by zero and
      the max or min of nothing raises ValueError. */
  function Aggregate(values: seq<real>, reduceFunction: string): (r: Result<real>)
    ensures reduceFunction !in ["mean", "sum", "max", "min"] ==> r == Err(AssertionError)
    ensures reduceFunction == "mean" ==> (r.Err? <==> values == [])
    ensures reduceFunction == "mean" && r.Err? ==> r.error == ZeroDivisionError
    ensures reduceFunction == "mean" && r.Ok? ==> r.value * |values| as real == Sum(values)
    ensures reduceFunction == "sum" ==> r == Ok(Sum(values))
    ensures reduceFunction == "max" || reduceFunction == "min" ==> (r.Err? <==> values == [])
    ensures (reduceFunction == "max" || reduceFunction == "min") && r.Err? ==> r.error == ValueError
    ensures reduceFunction == "max" && r.Ok? ==> r.value in values && forall v :: v in values ==> v <= r.value
    ensures reduceFunction == "min" && r.Ok? ==> r.value in values && forall v :: v in values ==> r.value <= v
  {
    if reduceFunction !in ["mean", "sum", "max", "min"] then Err(AssertionError)
    else if reduceFunction == "mean" then
      if values == [] then Err(ZeroDivisionError) else Ok(Sum(values) / |values| as real)
    else if reduceFunction == "sum" then Ok(Sum(values))
    else if values == [] then Err(ValueError)
    else if reduceFunction == "max" then Ok(MaxOf(values))
    else Ok(MinOf(values))
  }

  lemma {:induction false} SumBounds(values: seq<real>, lo: real, hi: real)
    requires forall v :: v in values ==> lo <= v <= hi
    ensures |values| as real * lo <= Sum(values) <= |values| as real * hi
  {
    if values != [] {
      var m := |values[1..]| as real;
      assert forall v :: v in values[1..] ==> v in values;
      SumBounds(values[1..], lo, hi);
      assert values[0] in values;
      assert |values| as real * lo == m * lo + lo;
      assert |values| as real * hi == m * hi + hi;
    }
  }

  lemma QuotientBounds(total: real, n: real, lo: real, hi: real)
    requires n > 0.0
    requires lo * n <= total <= hi * n
    ensures lo <= total / n <= hi
  {
    assert (total / n) * n == total;
  }

  /** For a non-empty list, min <= mean <= max. */
  lemma MeanBetweenMinAndMax(values: seq<real>)
    requires values != []
    ensures Aggregate(values, "min").value <= Aggregate(values, "mean").value <= Aggregate(values, "max").value
  {
    SumBounds(values, MinOf(values), MaxOf(values));
    QuotientBounds(Sum(values), |values| as real, MinOf(values), MaxOf(values));
  }

  /* ---------------------------------------------------------------------
     Test requests
     --------------------------------------------------------------------- */

  /** One row of the action log. */
  datatype Action = Action(requestId: int, userId: int, itemId: int)

  /** One test request: the user and the item ids of its group. */
  datatype Request = Request(userId: int, positives: seq<int>)

  function GroupKey(a: Action): (int, int)
  {
    (a.requestId, a.userId)
  }

  function Keys(actions: seq<Action>): (r: seq<(int, int)>)
    ensures |r| == |actions|
    ensures forall i :: 0 <= i < |actions| ==> r[i] == GroupKey(actions[i])
  {
    if actions == [] then [] else [GroupKey(actions[0])] + Keys(actions[1..])
  }

  /** The item ids of the rows in one `(request_id, user_id)` group, in log order. */
  function ItemsOf(actions: seq<Action>, key: (int, int)): (r: seq<int>)
    ensures forall x :: x in r <==> exists a :: a in actions && GroupKey(a) == key && a.itemId == x
  {
    if actions == [] then []
    else
      assert forall a :: a in actions <==> a == actions[0] || a in actions[1..];
      (if GroupKey(actions[0]) == key then [actions[0].itemId] else []) + ItemsOf(actions[1..], key)
  }

  /** The positions of the rows in one group, ascending. */
  function RowsOf(actions: seq<Action>, key: (int, int)): (r: seq<int>)
    ensures forall i, j :: 0 <= i < j < |r| ==> r[i] < r[j]
    ensures forall j :: j in r <==> 0 <= j < |actions| && GroupKey(actions[j]) == key
  {
    if actions == [] then []
    else
      var n := |actions| - 1;
      var front := RowsOf(actions[..n], key);
      assert forall j :: 0 <= j < n ==> actions[..n][j] == actions[j];
      assert forall i :: 0 <= i < |front| ==> front[i] in front;
      assert forall i :: 0 <= i < |front| ==> front[i] < n;
      front + (if GroupKey(actions[n]) == key then [n] else [])
  }

  /** Grouping distributes over a split of the log. */
  lemma {:induction false} ItemsOfAppend(a: seq<Action>, b: seq<Action>, key: (int, int))
    ensures ItemsOf(a + b, key) == ItemsOf(a, key) + ItemsOf(b, key)
  {
    if a == [] {
      assert a + b == b;
    } else {
      assert (a + b)[1..] == a[1..] + b;
      ItemsOfAppend(a[1..], b, key);
    }
  }

  /** One row contributes its item id to its own group only. */
  lemma ItemsOfSingle(x: Action, key: (int, int))
    ensures ItemsOf([x], key) == if GroupKey(x) == key then [x.itemId] else []
  {
    assert [x][1..] == [];
  }

  /** A group's item list has one entry per row of the group, in log
      order: duplicates are kept, each as often as its rows occur. */
  lemma {:induction false} ItemsOfRows(actions: seq<Action>, key: (int, int))
    ensures |ItemsOf(actions, key)| == |RowsOf(actions, key)|
    ensures forall i :: 0 <= i < |RowsOf(actions, key)| ==>
      0 <= RowsOf(actions, key)[i] < |actions|
      && ItemsOf(actions, key)[i] == actions[RowsOf(actions, key)[i]].itemId
  {
    if actions != [] {
      var n := |actions| - 1;
      var front := actions[..n];
      assert actions == front + [actions[n]];
      ItemsOfAppend(front, [actions[n]], key);
      ItemsOfSingle(actions[n], key);
      ItemsOfRows(front, key);
      var rows := RowsOf(actions, key);
      var items := ItemsOf(actions, key);
      var frontRows := RowsOf(front, key);
      assert rows == frontRows + (if GroupKey(actions[n]) == key then [n] else []);
      forall i | 0 <= i < |rows|
        ensures 0 <= rows[i] < |actions| && items[i] == actions[rows[i]].itemId
      {
        assert rows[i] in rows;
        if i < |frontRows| {
          assert frontRows[i] in frontRows;
          assert front[frontRows[i]] == actions[frontRows[i]];
        }
      }
    }
  }

  /** `group_by("request_id", "user_id").agg(item_ids)`: one request per
      group, in order of first appearance. */
  function GroupActions(actions: seq<Action>): (r: seq<Request>)
    ensures |r| == |Distinct(Keys(actions))|
  {
    var groups := Distinct(Keys(actions));
    seq(|groups|, i requires 0 <= i < |groups| => Request(groups[i].1, ItemsOf(actions, groups[i])))
  }

  /** Every group appears exactly once, with its user and all its items. */
  lemma GroupActionsSpec(actions: seq<Action>)
    ensures var groups := Distinct(Keys(actions));
      && NoDup(groups)
      && (forall a :: a in actions ==> GroupKey(a) in groups)
      && (forall i :: 0 <= i < |groups| ==> exists a :: a in actions && GroupKey(a) == groups[i])
      && (forall i :: 0 <= i < |groups| ==> GroupActions(actions)[i].userId == groups[i].1)
      && (forall i, x :: 0 <= i < |groups| ==>
            (x in GroupActions(actions)[i].positives <==>
             exists a :: a in actions && GroupKey(a) == groups[i] && a.itemId == x))
  {
    var groups := Distinct(Keys(actions));
    var keys := Keys(actions);
    forall a | a in actions ensures GroupKey(a) in groups {
      var j :| 0 <= j < |actions| && actions[j] == a;
      assert keys[j] in Elements(keys);
      assert GroupKey(a) in Elements(groups);
    }
    forall i | 0 <= i < |groups| ensures exists a :: a in actions && GroupKey(a) == groups[i] {
      assert groups[i] in Elements(groups);
      assert groups[i] in Elements(keys);
      var j :| 0 <= j < |keys| && keys[j] == groups[i];
      assert actions[j] in actions;
    }
  }

  /** Request `i`'s item list has one entry per row of its group, in log
      order, so an item bought twice in a request counts twice. */
  lemma GroupActionsRows(actions: seq<Action>, i: int)
    requires 0 <= i < |Distinct(Keys(actions))|
    ensures var key := Distinct(Keys(actions))[i];
      var rows := RowsOf(actions, key);
      && |GroupActions(actions)[i].positives| == |rows|
      && (forall j :: 0 <= j < |rows| ==>
            0 <= rows[j] < |actions| && GroupActions(actions)[i].positives[j] == actions[rows[j]].itemId)
  {
    ItemsOfRows(actions, Distinct(Keys(actions))[i]);
  }

  /* ---------------------------------------------------------------------
     Replaying the requests
     --------------------------------------------------------------------- */

  function UserIds(requests: seq<Request>): (r: seq<int>)
    ensures |r| == |requests|
    ensures forall i :: 0 <= i < |requests| ==> r[i] == requests[i].userId
  {
    if requests == [] then [] else [requests[0].userId] + UserIds(requests[1..])
  }

  /** `recommend_callable(user_id, max_k)` for each user, in order. */
  function RecommendEach(recommend: (int, int) -> seq<Candidate>, users: seq<int>, maxK: int): (r: seq<seq<Candidate>>)
    ensures |r| == |users|
    ensures forall i :: 0 <= i < |users| ==> r[i] == recommend(users[i], maxK)
  {
    if users == [] then [] else [recommend(users[0], maxK)] + RecommendEach(recommend, users[1..], maxK)
  }

  /** `[ids[i*bs:(i+1)*bs] for i in range(0, len(ids) // bs + 1)]`. */
  function Batches(users: seq<int>, batchSize: int): (r: seq<seq<int>>)
    requires batchSize != 0
    ensures |r| == Max(FloorDiv(|users|, batchSize) + 1, 0)
    ensures forall i :: 0 <= i < |r| ==> r[i] == Slice(users, i * batchSize, (i + 1) * batchSize)
  {
    seq(Max(FloorDiv(|users|, batchSize) + 1, 0), i => Slice(users, i * batchSize, (i + 1) * batchSize))
  }

  function Concat<T>(ss: seq<seq<T>>): seq<T>
  {
    if ss == [] then [] else Concat(ss[..|ss| - 1]) + ss[|ss| - 1]
  }

  /** `predictions.extend(recommend_callable(batch, max_k))` per batch. */
  function RecommendBatches(recommendBatch: (seq<int>, int) -> seq<seq<Candidate>>, batches: seq<seq<int>>, maxK: int)
    : seq<seq<Candidate>>
  {
    if batches == [] then []
    else RecommendBatches(recommendBatch, batches[..|batches| - 1], maxK) + recommendBatch(batches[|batches| - 1], maxK)
  }

  /** The predictions of `evaluate`: one call per request when the batch
      size is 1, otherwise one call per batch, concatenated; a batch size
      of 0 divides by zero. */
  function Predictions(requests: seq<Request>, maxK: int, recommend: (int, int) -> seq<Candidate>,
                       recommendBatch: (seq<int>, int) -> seq<seq<Candidate>>, batchSize: int)
    : Result<seq<seq<Candidate>>>
  {
    if batchSize == 1 then Ok(RecommendEach(recommend, UserIds(requests), maxK))
    else if batchSize == 0 then Err(ZeroDivisionError)
    else Ok(RecommendBatches(recommendBatch, Batches(UserIds(requests), batchSize), maxK))
  }

  /** `metric.compute` as a function of one prediction list, its request's
      positives and its user. */
  function Measure(m: Metric): (seq<Candidate>, seq<int>, int) -> Result<real>
    requires WellFormed(m)
  {
    (prediction: seq<Candidate>, positives: seq<int>, userId: int) => Compute(m, prediction, positives, userId)
  }

  /** A measure's values over `zip(predictions, requests)`: pair `i` is
      scored, the unmatched tail is dropped, and the first failure is raised. */
  function MetricValues(measure: (seq<Candidate>, seq<int>, int) -> Result<real>,
                        predictions: seq<seq<Candidate>>, requests: seq<Request>, n: nat): Result<seq<real>>
    requires n <= |predictions| && n <= |requests|
  {
    if n == 0 then Ok([])
    else
      match MetricValues(measure, predictions, requests, n - 1)
      case Err(e) => Err(e)
      case Ok(values) =>
        match measure(predictions[n - 1], requests[n - 1].positives, requests[n - 1].userId)
        case Err(e) => Err(e)
        case Ok(v) => Ok(values + [v])
  }

  /** One metric's aggregated value over the zipped predictions and requests. */
  function ScoreOf(m: Metric, predictions: seq<seq<Candidate>>, requests: seq<Request>): Result<real>
    requires WellFormed(m)
  {
    match MetricValues(Measure(m), predictions, requests, Min(|predictions|, |requests|))
    case Err(e) => Err(e)
    case Ok(values) => Aggregate(values, m.reduceFunction)
  }

  /** Each metric's aggregated value, in metric order. */
  function ScoreList(metrics: seq<Metric>, predictions: seq<seq<Candidate>>, requests: seq<Request>): (r: seq<Result<real>>)
    requires AllWellFormed(metrics)
    ensures |r| == |metrics|
  {
    seq(|metrics|, i requires 0 <= i < |metrics| => ScoreOf(metrics[i], predictions, requests))
  }

  /** `metrics[metric.name] = value` for the first `j` metrics, in order,
      stopping at the first failed value. */
  function Store(metrics: seq<Metric>, values: seq<Result<real>>, j: nat): Result<map<string, real>>
    requires j <= |metrics| && |values| == |metrics|
  {
    if j == 0 then Ok(map[])
    else
      match Store(metrics, values, j - 1)
      case Err(e) => Err(e)
      case Ok(scores) =>
        match values[j - 1]
        case Err(e) => Err(e)
        case Ok(v) => Ok(scores[metrics[j - 1].name := v])
  }

  /** `Evaluator.evaluate`: no loaded requests is an AttributeError. */
  function Evaluation(requests: Option<seq<Request>>, metrics: seq<Metric>, maxK: int,
                      recommend: (int, int) -> seq<Candidate>,
                      recommendBatch: (seq<int>, int) -> seq<seq<Candidate>>, batchSize: int)
    : Result<map<string, real>>
    requires AllWellFormed(metrics)
  {
    if requests.None? then Err(AttributeError)
    else
      match Predictions(requests.value, maxK, recommend, recommendBatch, batchSize)
      case Err(e) => Err(e)
      case Ok(predictions) => Store(metrics, ScoreList(metrics, predictions, requests.value), |metrics|)
  }

  /* ---------------------------------------------------------------------
     Properties of the replay
     --------------------------------------------------------------------- */

  /** Batch `i` starts at `lo = i * bs` and holds up to `bs` ids. */
  lemma BatchAt(users: seq<int>, batchSize: int, i: nat, lo: int)
    requires batchSize > 0
    requires i < |Batches(users, batchSize)| && lo == i * batchSize
    ensures 0 <= lo
    ensures Batches(users, batchSize)[i] == users[Min(lo, |users|)..Min(lo + batchSize, |users|)]
  {
    assert (i + 1) * batchSize == lo + batchSize;
  }

  lemma ConcatPrefix<T>(ss: seq<seq<T>>, j: nat)
    requires 0 < j <= |ss|
    ensures Concat(ss[..j]) == Concat(ss[..j - 1]) + ss[j - 1]
  {
    assert ss[..j][..j - 1] == ss[..j - 1];
  }

  lemma PrefixSplit<T>(s: seq<T>, a: nat, b: nat)
    requires a <= b <= |s|
    ensures s[..b] == s[..a] + s[a..b]
  {
  }

  /** The first `j` batches hold the first `min(j * bs, len)` user ids. */
  lemma {:induction false} BatchesPrefix(users: seq<int>, batchSize: int, j: nat, hi: int)
    requires batchSize > 0
    requires j <= |Batches(users, batchSize)| && hi == j * batchSize
    ensures Concat(Batches(users, batchSize)[..j]) == users[..Min(hi, |users|)]
  {
    var bs := Batches(users, batchSize);
    if j > 0 {
      var n := |users|;
      var lo := (j - 1) * batchSize;
      assert hi == lo + batchSize;
      BatchAt(users, batchSize, j - 1, lo);
      BatchesPrefix(users, batchSize, j - 1, lo);
      ConcatPrefix(bs, j);
      PrefixSplit(users, Min(lo, n), Min(hi, n));
    }
  }

  /** With a positive batch size the batches, concatenated, are the user
      ids in order, each exactly once. */
  lemma BatchesCoverUsers(users: seq<int>, batchSize: int)
    requires batchSize > 0
    ensures Concat(Batches(users, batchSize)) == users
  {
    var bs := Batches(users, batchSize);
    var count := |users| / batchSize + 1;
    assert |bs| == count;
    assert count * batchSize > |users| by {
      assert |users| / batchSize * batchSize + |users| % batchSize == |users|;
    }
    BatchesPrefix(users, batchSize, count, count * batchSize);
    assert bs[..count] == bs;
  }

  /** When the batch size divides the number of requests, the last batch
      is empty. */
  lemma LastBatchEmpty(users: seq<int>, batchSize: int)
    requires batchSize > 0 && |users| % batchSize == 0
    ensures var bs := Batches(users, batchSize); bs[|bs| - 1] == []
  {
    var count := |users| / batchSize + 1;
    assert |users| / batchSize * batchSize == |users|;
    assert (count - 1) * batchSize == |users|;
  }

  lemma RecommendEachAppend(recommend: (int, int) -> seq<Candidate>, a: seq<int>, b: seq<int>, maxK: int)
    ensures RecommendEach(recommend, a + b, maxK) == RecommendEach(recommend, a, maxK) + RecommendEach(recommend, b, maxK)
  {
    var l := RecommendEach(recommend, a + b, maxK);
    var rr := RecommendEach(recommend, a, maxK) + RecommendEach(recommend, b, maxK);
    assert |l| == |rr|;
    forall i | 0 <= i < |l| ensures l[i] == rr[i] {
      if i < |a| {
        assert (a + b)[i] == a[i];
      } else {
        assert (a + b)[i] == b[i - |a|];
      }
    }
  }

  /** A batch callback that answers each user as the single-user callback
      would gives the same predictions, batch by batch. */
  lemma {:induction false} RecommendBatchesPointwise(recommend: (int, int) -> seq<Candidate>,
                                                    recommendBatch: (seq<int>, int) -> seq<seq<Candidate>>,
                                                    batches: seq<seq<int>>, maxK: int)
    requires forall b :: recommendBatch(b, maxK) == RecommendEach(recommend, b, maxK)
    ensures RecommendBatches(recommendBatch, batches, maxK) == RecommendEach(recommend, Concat(batches), maxK)
  {
    if batches != [] {
      var k := |batches| - 1;
      RecommendBatchesPointwise(recommend, recommendBatch, batches[..k], maxK);
      RecommendEachAppend(recommend, Concat(batches[..k]), batches[k], maxK);
    }
  }

  /** Batched replay gives the unbatched predictions, given a batch
      callback with the single-user callback's answers. */
  lemma BatchedEqualsUnbatched(requests: seq<Request>, maxK: int, recommend: (int, int) -> seq<Candidate>,
                               recommendBatch: (seq<int>, int) -> seq<seq<Candidate>>, batchSize: int)
    requires batchSize > 1
    requires forall b :: recommendBatch(b, maxK) == RecommendEach(recommend, b, maxK)
    ensures Predictions(requests, maxK, recommend, recommendBatch, batchSize)
      == Predictions(requests, maxK, recommend, recommendBatch, 1)
  {
    RecommendBatchesPointwise(recommend, recommendBatch, Batches(UserIds(requests), batchSize), maxK);
    BatchesCoverUsers(UserIds(requests), batchSize);
  }

  /** Value `i` is the measure of prediction `i` against request `i`. */
  lemma {:induction false} MetricValuesPairing(measure: (seq<Candidate>, seq<int>, int) -> Result<real>,
                                               predictions: seq<seq<Candidate>>, requests: seq<Request>, n: nat)
    requires n <= |predictions| && n <= |requests|
    requires MetricValues(measure, predictions, requests, n).Ok?
    ensures var values := MetricValues(measure, predictions, requests, n).value;
      && |values| == n
      && forall i :: 0 <= i < n ==> measure(predictions[i], requests[i].positives, requests[i].userId) == Ok(values[i])
  {
    if n > 0 {
      MetricValuesPairing(measure, predictions, requests, n - 1);
    }
  }

  /** The result holds exactly the metric names, and every metric scored
      without error. */
  lemma {:induction false} StoreNames(metrics: seq<Metric>, values: seq<Result<real>>, j: nat)
    requires j <= |metrics| && |values| == |metrics|
    requires Store(metrics, values, j).Ok?
    ensures forall i :: 0 <= i < j ==> values[i].Ok?
    ensures forall name :: name in Store(metrics, values, j).value <==> exists i :: 0 <= i < j && metrics[i].name == name
  {
    if j > 0 {
      StoreNames(metrics, values, j - 1);
    }
  }

  /** A name holds the value of the last metric with that name: a later
      metric of the same name overwrites an earlier one. */
  lemma {:induction false} StoreLastWins(metrics: seq<Metric>, values: seq<Result<real>>, j: nat, i: nat)
    requires i < j <= |metrics| && |values| == |metrics|
    requires forall i' :: i < i' < j ==> metrics[i'].name != metrics[i].name
    requires Store(metrics, values, j).Ok?
    ensures metrics[i].name in Store(metrics, values, j).value
    ensures Ok(Store(metrics, values, j).value[metrics[i].name]) == values[i]
  {
    if i < j - 1 {
      StoreLastWins(metrics, values, j - 1, i);
    }
  }

  /** The first failed value is the result: later metrics are not reached. */
  lemma {:induction false} StoreFailure(metrics: seq<Metric>, values: seq<Result<real>>, j: nat)
    requires j <= |metrics| && |values| == |metrics|
    requires Store(metrics, values, j).Err?
    ensures Store(metrics, values, |metrics|) == Store(metrics, values, j)
    decreases |metrics| - j
  {
    if j < |metrics| {
      StoreFailure(metrics, values, j + 1);
    }
  }

  /** Two requests with positives 1 and 2, a callback always answering
      items 1 and 2: mean precision at 2 is 1/2. */
  lemma PrecisionExample(recommend: (int, int) -> seq<Candidate>, recommendBatch: (seq<int>, int) -> seq<seq<Candidate>>)
    requires forall u, n :: recommend(u, n) == Candidates([1, 2])
    ensures Evaluation(Some([Request(10, [1]), Request(20, [2])]),
                       [Metric(PrecisionMetric, Some(2), "mean", "precision@2")], 2, recommend, recommendBatch, 1)
      == Ok(map["precision@2" := 0.5])
  {
    var requests := [Request(10, [1]), Request(20, [2])];
    var m := Metric(PrecisionMetric, Some(2), "mean", "precision@2");
    var p := Candidates([1, 2]);
    var predictions := RecommendEach(recommend, UserIds(requests), 2);
    assert predictions == [p, p];
    assert Predictions(requests, 2, recommend, recommendBatch, 1) == Ok(predictions);
    PrecisionExampleScore(requests, p);
    var list := ScoreList([m], predictions, requests);
    assert list == [Ok(0.5)];
    assert Store([m], list, 0) == Ok(map[]);
    assert Store([m], list, 1) == Ok(map[]["precision@2" := 0.5]);
    assert map[]["precision@2" := 0.5] == map["precision@2" := 0.5];
  }

  /** The example's per-request precisions, 1/2 and 1/2, average to 1/2. */
  lemma PrecisionExampleScore(requests: seq<Request>, p: seq<Candidate>)
    requires requests == [Request(10, [1]), Request(20, [2])] && p == Candidates([1, 2])
    ensures ScoreOf(Metric(PrecisionMetric, Some(2), "mean", "precision@2"), [p, p], requests) == Ok(0.5)
  {
    var m := Metric(PrecisionMetric, Some(2), "mean", "precision@2");
    var predictions := [p, p];
    assert Truncate(p, Some(2)) == p;
    assert Elements(Ids(p)) == {1, 2};
    assert Elements([1]) == {1};
    assert Elements([2]) == {2};
    assert Relevant(p, [1]) == {1};
    assert Relevant(p, [2]) == {2};
    assert Measure(m)(p, [1], 10) == Ok(0.5);
    assert Measure(m)(p, [2], 20) == Ok(0.5);
    assert MetricValues(Measure(m), predictions, requests, 1) == Ok([] + [0.5]);
    assert [] + [0.5] == [0.5];
    assert MetricValues(Measure(m), predictions, requests, 2) == Ok([0.5] + [0.5]);
    assert [0.5] + [0.5] == [0.5, 0.5];
    assert Sum([0.5, 0.5]) == 1.0;
  }

  /* ---------------------------------------------------------------------
     The evaluator
     --------------------------------------------------------------------- */

  /** `Evaluator`: the metrics, their largest k, and the requests once
      loaded. */
  class Evaluator {
    const metrics: seq<Metric>
    const maxK: int
    var requests: Option<seq<Request>>

    constructor (metrics: seq<Metric>)
      requires MaxK(metrics).Ok?
      ensures this.metrics == metrics && maxK == MaxK(metrics).value
      ensures requests.None?
    {
      this.metrics := metrics;
      maxK := MaxK(metrics).value;
      requests := None;
    }

    /** `load_test_actions`. */
    method LoadTestActions(actions: seq<Action>)
      modifies this
      ensures requests == Some(GroupActions(actions))
    {
      requests := Some(GroupActions(actions));
    }

    /** `evaluate`: the recommendation callable is given in both of its
        calling conventions, per user and per batch. */
    method Evaluate(recommend: (int, int) -> seq<Candidate>,
                    recommendBatch: (seq<int>, int) -> seq<seq<Candidate>>, batchSize: int)
      returns (r: Result<map<string, real>>)
      requires AllWellFormed(metrics)
      ensures r == Evaluation(requests, metrics, maxK, recommend, recommendBatch, batchSize)
    {
      if requests.None? {
        return Err(AttributeError);
      }
      var reqs := requests.value;
      var predictions := Predict(reqs, maxK, recommend, recommendBatch, batchSize);
      if predictions.Err? {
        return Err(predictions.error);
      }
      r := ScoreAll(metrics, predictions.value, reqs);
    }
  }

  /** The scoring phase of `evaluate`: each metric's values, aggregated
      and stored under its name. */
  method ScoreAll(metrics: seq<Metric>, predictions: seq<seq<Candidate>>, requests: seq<Request>)
    returns (r: Result<map<string, real>>)
    requires AllWellFormed(metrics)
    ensures r == Store(metrics, ScoreList(metrics, predictions, requests), |metrics|)
  {
    ghost var list := ScoreList(metrics, predictions, requests);
    var scores: map<string, real> := map[];
    for j := 0 to |metrics|
      invariant Store(metrics, list, j) == Ok(scores)
    {
      var v := ScoreMetric(metrics[j], predictions, requests);
      assert list[j] == v;
      if v.Err? {
        StoreFailure(metrics, list, j + 1);
        return Err(v.error);
      }
      scores := scores[metrics[j].name := v.value];
    }
    return Ok(scores);
  }

  /** One metric of the scoring phase: its values, then their reduction. */
  method ScoreMetric(m: Metric, predictions: seq<seq<Candidate>>, requests: seq<Request>) returns (r: Result<real>)
    requires WellFormed(m)
    ensures r == ScoreOf(m, predictions, requests)
  {
    var values := ComputeValues(Measure(m), predictions, requests);
    if values.Err? {
      return Err(values.error);
    }
    r := Aggregate(values.value, m.reduceFunction);
  }

  /** The prediction phase of `evaluate`. */
  method Predict(requests: seq<Request>, maxK: int, recommend: (int, int) -> seq<Candidate>,
                 recommendBatch: (seq<int>, int) -> seq<seq<Candidate>>, batchSize: int)
    returns (r: Result<seq<seq<Candidate>>>)
    ensures r == Predictions(requests, maxK, recommend, recommendBatch, batchSize)
  {
    var users := UserIds(requests);
    if batchSize == 1 {
      var predictions := PredictEach(users, maxK, recommend);
      return Ok(predictions);
    }
    if batchSize == 0 {
      return Err(ZeroDivisionError);
    }
    var predictions := PredictBatches(Batches(users, batchSize), maxK, recommendBatch);
    return Ok(predictions);
  }

  /** One call of the callable per user. */
  method PredictEach(users: seq<int>, maxK: int, recommend: (int, int) -> seq<Candidate>)
    returns (predictions: seq<seq<Candidate>>)
    ensures predictions == RecommendEach(recommend, users, maxK)
  {
    predictions := [];
    for i := 0 to |users|
      invariant predictions == RecommendEach(recommend, users[..i], maxK)
    {
      RecommendEachAppend(recommend, users[..i], [users[i]], maxK);
      assert users[..i + 1] == users[..i] + [users[i]];
      predictions := predictions + [recommend(users[i], maxK)];
    }
    assert users[..|users|] == users;
  }

  /** One call of the callable per batch, the answers concatenated. */
  method PredictBatches(batches: seq<seq<int>>, maxK: int, recommendBatch: (seq<int>, int) -> seq<seq<Candidate>>)
    returns (predictions: seq<seq<Candidate>>)
    ensures predictions == RecommendBatches(recommendBatch, batches, maxK)
  {
    predictions := [];
    for b := 0 to |batches|
      invariant predictions == RecommendBatches(recommendBatch, batches[..b], maxK)
    {
      assert batches[..b + 1][..b] == batches[..b];
      predictions := predictions + recommendBatch(batches[b], maxK);
    }
    assert batches[..|batches|] == batches;
  }

  /** One metric's values over the zipped predictions and requests. */
  method ComputeValues(measure: (seq<Candidate>, seq<int>, int) -> Result<real>,
                       predictions: seq<seq<Candidate>>, requests: seq<Request>)
    returns (r: Result<seq<real>>)
    ensures r == MetricValues(measure, predictions, requests, Min(|predictions|, |requests|))
  {
    var n := Min(|predictions|, |requests|);
    var values: seq<real> := [];
    for i := 0 to n
      invariant MetricValues(measure, predictions, requests, i) == Ok(values)
    {
      var v := measure(predictions[i], requests[i].positives, requests[i].userId);
      if v.Err? {
        MetricValuesFailure(measure, predictions, requests, i + 1, n);
        return Err(v.error);
      }
      values := values + [v.value];
    }
    return Ok(values);
  }

  lemma {:induction false} MetricValuesFailure(measure: (seq<Candidate>, seq<int>, int) -> Result<real>,
                                               predictions: seq<seq<Candidate>>, requests: seq<Request>, i: nat, n: nat)
    requires i <= n <= |predictions| && n <= |requests|
    requires MetricValues(measure, predictions, requests, i).Err?
    ensures MetricValues(measure, predictions, requests, n) == MetricValues(measure, predictions, requests, i)
    decreases n - i
  {
    if i < n {
      MetricValuesFailure(measure, predictions, requests, i, n - 1);
    }
  }

  /** `Evaluator.__init__`, which raises ValueError when no metric has a k. */
  method NewEvaluator(metrics: seq<Metric>) returns (r: Result<Evaluator>)
    ensures MaxK(metrics).Err? ==> r == Err(ValueError)
    ensures MaxK(metrics).Ok? ==>
      (r.Ok? && fresh(r.value) && r.value.metrics == metrics && r.value.maxK == MaxK(metrics).value && r.value.requests.None?)
  {
    var maxK := MaxK(metrics);
    if maxK.Err? {
      return Err(maxK.error);
    }
    var e := new Evaluator(metrics);
    return Ok(e);
  }
}
