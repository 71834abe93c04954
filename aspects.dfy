/** Beyond-accuracy metrics: novelty (how unpopular the recommended items
    are), serendipity (the share of relevant recommendations the user had
    not interacted with) and category diversity (distinct categories per
    recommendation). The lookup tables are built from the interaction log
    elsewhere and are inputs here. */
module Aspects {
  import opened Builtins
  import opened Primitives
  import opened Quality

  /* ---------------------------------------------------------------------
     Novelty
     --------------------------------------------------------------------- */

  /** The novelty table: for each item, `1 - popularity / num_users`, where
      popularity is the number of distinct users of the item. */
  function NoveltyTable(popularity: map<int, nat>, numUsers: nat): (r: map<int, real>)
    requires numUsers > 0
    requires forall item :: item in popularity ==> popularity[item] <= numUsers
    ensures r.Keys == popularity.Keys
    ensures forall item :: item in r ==> 0.0 <= r[item] <= 1.0
    ensures forall item :: item in r ==> r[item] == 1.0 - popularity[item] as real / numUsers as real
  {
    map item | item in popularity :: NoveltyOf(popularity[item], numUsers)
  }

  function NoveltyOf(users: nat, numUsers: nat): (r: real)
    requires 0 < numUsers && users <= numUsers
    ensures 0.0 <= r <= 1.0
    ensures r == 1.0 - users as real / numUsers as real
  {
    RatioInUnit(users as real, numUsers as real);
    1.0 - users as real / numUsers as real
  }

  /** `item_novelty.get(id, 1)`: an item nobody used is fully novel. */
  function ItemNovelty(table: map<int, real>, id: int): real
  {
    if id in table then table[id] else 1.0
  }

  function NoveltySum(table: map<int, real>, predictions: seq<Candidate>): real
  {
    if predictions == [] then 0.0
    else ItemNovelty(table, predictions[0].id) + NoveltySum(table, predictions[1..])
  }

  ghost predicate UnitValues(table: map<int, real>)
  {
    forall item :: item in table ==> 0.0 <= table[item] <= 1.0
  }

  lemma {:induction false} NoveltySumBounds(table: map<int, real>, predictions: seq<Candidate>)
    requires UnitValues(table)
    ensures 0.0 <= NoveltySum(table, predictions) <= |predictions| as real
  {
    if predictions != [] {
      NoveltySumBounds(table, predictions[1..]);
    }
  }

  /** `Novelty.compute`: 0 for no predictions (checked before the cut to
      k); the mean per-item novelty of the kept predictions otherwise, a
      division by zero when none are kept. */
  function Novelty(k: Option<int>, table: map<int, real>, predictions: seq<Candidate>): (r: Result<real>)
    ensures predictions == [] ==> r == Ok(0.0)
    ensures predictions != [] ==> (r.Err? <==> |Truncate(predictions, k)| == 0)
    ensures r.Err? ==> r.error == ZeroDivisionError
    ensures r.Ok? && predictions != [] ==>
      r.value * |Truncate(predictions, k)| as real == NoveltySum(table, Truncate(predictions, k))
  {
    if predictions == [] then Ok(0.0)
    else
      var p := Truncate(predictions, k);
      if |p| == 0 then Err(ZeroDivisionError)
      else Ok(NoveltySum(table, p) / |p| as real)
  }

  /** With table values in [0, 1], novelty is in [0, 1]. */
  lemma NoveltyInUnit(k: Option<int>, table: map<int, real>, predictions: seq<Candidate>)
    requires UnitValues(table)
    requires Novelty(k, table, predictions).Ok?
    ensures 0.0 <= Novelty(k, table, predictions).value <= 1.0
  {
    if predictions != [] {
      var p := Truncate(predictions, k);
      NoveltySumBounds(table, p);
      RatioInUnit(NoveltySum(table, p), |p| as real);
    }
  }

  /** A table built from popularity counts gives novelty in [0, 1]. */
  lemma NoveltyOfCountsInUnit(popularity: map<int, nat>, numUsers: nat, k: Option<int>, predictions: seq<Candidate>)
    requires numUsers > 0
    requires forall item :: item in popularity ==> popularity[item] <= numUsers
    requires Novelty(k, NoveltyTable(popularity, numUsers), predictions).Ok?
    ensures 0.0 <= Novelty(k, NoveltyTable(popularity, numUsers), predictions).value <= 1.0
  {
    NoveltyInUnit(k, NoveltyTable(popularity, numUsers), predictions);
  }

  /* ---------------------------------------------------------------------
     Serendipity
     --------------------------------------------------------------------- */

  /** Per position: relevant and unseen (numerator), relevant (denominator). */
  function SerendipityCounts(seen: set<int>, positives: seq<int>, predictions: seq<Candidate>): (r: (nat, nat))
    ensures r.0 <= r.1 <= |predictions|
  {
    if predictions == [] then (0, 0)
    else
      var rest := SerendipityCounts(seen, positives, predictions[1..]);
      var id := predictions[0].id;
      (rest.0 + (if id !in seen && id in positives then 1 else 0), rest.1 + (if id in positives then 1 else 0))
  }

  /** Counts are taken position by position, so a repeated prediction
      counts every time it appears. */
  lemma {:induction false} SerendipityCountsAppend(seen: set<int>, positives: seq<int>, a: seq<Candidate>, b: seq<Candidate>)
    ensures SerendipityCounts(seen, positives, a + b).0
      == SerendipityCounts(seen, positives, a).0 + SerendipityCounts(seen, positives, b).0
    ensures SerendipityCounts(seen, positives, a + b).1
      == SerendipityCounts(seen, positives, a).1 + SerendipityCounts(seen, positives, b).1
  {
    if a == [] {
      assert a + b == b;
    } else {
      assert (a + b)[1..] == a[1..] + b;
      SerendipityCountsAppend(seen, positives, a[1..], b);
    }
  }

  /** `Serendipity.compute` as specified: 0 for no predictions; a user
      without history raises KeyError; the ratio of the counts, or 0 when
      no prediction is relevant. */
  function SerendipityValue(k: Option<int>, history: map<int, set<int>>, predictions: seq<Candidate>,
                            positives: seq<int>, userId: int): (r: Result<real>)
    ensures predictions == [] ==> r == Ok(0.0)
    ensures predictions != [] ==> (r.Err? <==> userId !in history)
    ensures r.Err? ==> r.error == KeyError
    ensures r.Ok? ==> 0.0 <= r.value <= 1.0
    ensures (&& predictions != []
             && userId in history
             && SerendipityCounts(history[userId], positives, Truncate(predictions, k)).1 == 0)
      ==> r == Ok(0.0)
    ensures r.Ok? && predictions != [] ==>
      var counts := SerendipityCounts(history[userId], positives, Truncate(predictions, k));
      r.value * counts.1 as real == counts.0 as real
  {
    if predictions == [] then Ok(0.0)
    else if userId !in history then Err(KeyError)
    else
      var counts := SerendipityCounts(history[userId], positives, Truncate(predictions, k));
      if counts.1 != 0 then
        RatioInUnit(counts.0 as real, counts.1 as real);
        Ok(counts.0 as real / counts.1 as real)
      else Ok(0.0)
  }

  /** `Serendipity.compute`, counting in a loop. */
  method Serendipity(k: Option<int>, history: map<int, set<int>>, predictions: seq<Candidate>,
                     positives: seq<int>, userId: int) returns (r: Result<real>)
    ensures r == SerendipityValue(k, history, predictions, positives, userId)
  {
    if predictions == [] {
      return Ok(0.0);
    }
    var p := Truncate(predictions, k);
    if userId !in history {
      return Err(KeyError);
    }
    var seen := history[userId];
    var numer, denom := 0, 0;
    for i := 0 to |p|
      invariant (numer, denom) == SerendipityCounts(seen, positives, p[..i])
    {
      var id := p[i].id;
      numer := numer + (if id !in seen && id in positives then 1 else 0);
      denom := denom + (if id in positives then 1 else 0);
      SerendipityCountsAppend(seen, positives, p[..i], [p[i]]);
      assert p[..i + 1] == p[..i] + [p[i]];
    }
    assert p[..|p|] == p;
    if denom != 0 {
      return Ok(numer as real / denom as real);
    }
    return Ok(0.0);
  }

  /* ---------------------------------------------------------------------
     Category diversity
     --------------------------------------------------------------------- */

  function Categories(categories: map<int, int>, predictions: seq<Candidate>): (r: seq<int>)
    requires forall c :: c in predictions ==> c.id in categories
    ensures |r| == |predictions|
    ensures forall i :: 0 <= i < |r| ==> r[i] == categories[predictions[i].id]
  {
    if predictions == [] then []
    else [categories[predictions[0].id]] + Categories(categories, predictions[1..])
  }

  /** `CategoryDiversity.compute`: 0 for no predictions (before the cut);
      an item without a category raises KeyError; otherwise the number of
      distinct categories over the number of kept predictions, and 0 kept
      divides by zero. */
  function CategoryDiversity(k: Option<int>, categories: map<int, int>, predictions: seq<Candidate>): (r: Result<real>)
    ensures predictions == [] ==> r == Ok(0.0)
    ensures predictions != [] && |Truncate(predictions, k)| == 0 ==> r == Err(ZeroDivisionError)
    ensures predictions != [] && |Truncate(predictions, k)| > 0 ==>
      (r.Err? <==> exists c :: c in Truncate(predictions, k) && c.id !in categories)
    ensures r.Err? ==> r.error in {KeyError, ZeroDivisionError}
    ensures r.Ok? && predictions != [] ==> 0.0 < r.value <= 1.0
  {
    if predictions == [] then Ok(0.0)
    else
      var p := Truncate(predictions, k);
      if |p| == 0 then Err(ZeroDivisionError)
      else if exists c :: c in p && c.id !in categories then Err(KeyError)
      else
        var cats := Categories(categories, p);
        var m := |Elements(cats)|;
        CategoryCount(cats);
        RatioInUnit(m as real, |p| as real);
        PositiveQuotient(m as real, |p| as real);
        Ok(m as real / |p| as real)
  }

  /** A successful diversity of a non-empty list: every kept prediction
      has a category, and the value is the number of distinct categories
      among them over their number. */
  lemma CategoryDiversityValue(k: Option<int>, categories: map<int, int>, predictions: seq<Candidate>)
    requires predictions != [] && CategoryDiversity(k, categories, predictions).Ok?
    ensures forall c :: c in Truncate(predictions, k) ==> c.id in categories
    ensures 0 < |Truncate(predictions, k)|
    ensures CategoryDiversity(k, categories, predictions)
      == Ok(|Elements(Categories(categories, Truncate(predictions, k)))| as real / |Truncate(predictions, k)| as real)
  {
  }

  /** A non-empty list has between one and its length distinct values. */
  lemma CategoryCount(cats: seq<int>)
    requires cats != []
    ensures 0 < |Elements(cats)| <= |cats|
  {
    ElementsCard(cats);
    assert cats[0] in Elements(cats);
  }

  /** A quotient of positives is positive. */
  lemma PositiveQuotient(x: real, y: real)
    requires x > 0.0 && y > 0.0
    ensures x / y > 0.0
  {
    assert x / y * y == x;
  }

  /** Three recommendations in categories A, A, B give 2/3. */
  lemma CategoryDiversityExample()
    ensures CategoryDiversity(None, map[1 := 10, 2 := 10, 3 := 20], Candidates([1, 2, 3])) == Ok(2.0 / 3.0)
  {
    var categories := map[1 := 10, 2 := 10, 3 := 20];
    var p := Candidates([1, 2, 3]);
    assert Ids(p) == [1, 2, 3];
    assert p[0].id == 1 && p[1].id == 2 && p[2].id == 3;
    assert forall c :: c in p ==> c.id in categories;
    assert Truncate(p, None) == p;
    var cats := Categories(categories, p);
    assert cats == [10, 10, 20];
    assert Elements(cats) == {10, 20};
    assert |Elements(cats)| == 2;
    assert CategoryDiversity(None, categories, p) == Ok(2 as real / 3 as real);
  }
}
