/** Candidate retrieval by nearest neighbours: every right-side item is scored
    against the query's left-side embedding, the items are ranked by
    descending score, the ranking is cut to `n`, and in self-similarity mode
    the query itself is then dropped. */
module Candidates {
  import opened Builtins
  import opened Primitives
  import opened Sorting

  /** An insertion-ordered dict from object id to embedding: its keys in
      insertion order, and the entries. */
  datatype EmbeddingTable = EmbeddingTable(order: seq<int>, entries: map<int, seq<real>>)

  /** A dict's keys are distinct and are exactly its entries' keys. */
  predicate WellFormed(t: EmbeddingTable)
  {
    NoDup(t.order) && Elements(t.order) == t.entries.Keys
  }

  /** Every embedding of the table has one length, so that `np.array` of
      its rows is a matrix rather than a ragged sequence, which numpy
      rejects. */
  predicate Rectangular(t: EmbeddingTable)
  {
    forall a, b :: a in t.entries && b in t.entries ==> |t.entries[a]| == |t.entries[b]|
  }

  /** `range(m)`. */
  function Range(m: nat): (r: seq<int>)
    ensures |r| == m
    ensures forall i :: 0 <= i < m ==> r[i] == i
  {
    if m == 0 then [] else Range(m - 1) + [m - 1]
  }

  /** `list(filter(lambda x: x.id != id, cs))`. */
  function WithoutId(cs: seq<Candidate>, id: int): (r: seq<Candidate>)
    ensures forall c :: c in r <==> c in cs && c.id != id
    ensures |r| <= |cs|
  {
    if cs == [] then []
    else if cs[0].id == id then WithoutId(cs[1..], id)
    else [cs[0]] + WithoutId(cs[1..], id)
  }

  /** Filtering keeps the order of what it keeps. */
  lemma {:induction false} WithoutIdOrdered(cs: seq<Candidate>, id: int, key: Candidate -> real)
    requires Ordered(cs, key, true)
    ensures Ordered(WithoutId(cs, id), key, true)
  {
    if cs != [] {
      var tail := WithoutId(cs[1..], id);
      assert Ordered(cs[1..], key, true);
      WithoutIdOrdered(cs[1..], id, key);
      if cs[0].id != id {
        forall c | c in tail ensures key(cs[0]) >= key(c) {
          var j :| 0 <= j < |cs[1..]| && cs[1..][j] == c;
          assert cs[j + 1] == c;
        }
        var r := [cs[0]] + tail;
        forall i, j | 0 <= i < j < |r| ensures key(r[i]) >= key(r[j]) {
          assert r[j] == tail[j - 1];
          if i > 0 {
            assert r[i] == tail[i - 1];
          }
        }
      }
    }
  }

  /** With distinct ids, filtering one id removes at most one candidate. */
  lemma {:induction false} WithoutIdLength(cs: seq<Candidate>, id: int)
    requires NoDup(Ids(cs))
    ensures |WithoutId(cs, id)| == |cs| - (if id in Ids(cs) then 1 else 0)
  {
    if cs != [] {
      assert Ids(cs[1..]) == Ids(cs)[1..];
      assert NoDup(Ids(cs[1..]));
      WithoutIdLength(cs[1..], id);
      assert id in Ids(cs) <==> id == cs[0].id || id in Ids(cs[1..]);
      if cs[0].id == id {
        HeadNotInTail(Ids(cs));
      }
    }
  }

  /** The nearest-neighbour generator. Its fields are fixed once built;
      `score` stands for numpy's dot product of a right-side row with the
      query. */
  class DotProductKNN {
    const left: EmbeddingTable
    const right: EmbeddingTable
    const score: (seq<real>, seq<real>) -> real
    const matrix: seq<seq<real>>
    const rightIdMap: map<int, int>
    const removeSelf: bool

    /** Row `i` of the matrix is the embedding of right-side id
        `rightIdMap[i]`, the `i`-th key in insertion order, and self mode
        is on exactly when both sides hold the same entries. */
    ghost predicate Valid()
    {
      && WellFormed(left)
      && WellFormed(right)
      && Rectangular(right)
      && |matrix| == |right.order|
      && (forall i :: i in rightIdMap <==> 0 <= i < |right.order|)
      && (forall i :: 0 <= i < |right.order| ==>
            rightIdMap[i] == right.order[i] && matrix[i] == right.entries[right.order[i]])
      && (removeSelf <==> left.entries == right.entries)
    }

    constructor (left: EmbeddingTable, right: EmbeddingTable, score: (seq<real>, seq<real>) -> real)
      requires WellFormed(left) && WellFormed(right) && Rectangular(right)
      ensures this.left == left && this.right == right && this.score == score
      ensures Valid()
    {
      var rows: seq<seq<real>> := [];
      var idMap: map<int, int> := map[];
      for idx := 0 to |right.order|
        invariant |rows| == idx
        invariant forall i :: i in idMap <==> 0 <= i < idx
        invariant forall i :: 0 <= i < idx ==> idMap[i] == right.order[i] && rows[i] == right.entries[right.order[i]]
      {
        var id := right.order[idx];
        idMap := idMap[idx := id];
        rows := rows + [right.entries[id]];
      }
      this.left := left;
      this.right := right;
      this.score := score;
      matrix := rows;
      rightIdMap := idMap;
      removeSelf := left.entries == right.entries;
    }

    /** The score of matrix row `i` against the query. */
    function IndexKey(q: seq<real>): int -> real
    {
      i => if 0 <= i < |matrix| then score(matrix[i], q) else 0.0
    }

    /** The score of a candidate's right-side embedding against the query. */
    function CandidateKey(q: seq<real>): Candidate -> real
    {
      (c: Candidate) => if c.id in right.entries then score(right.entries[c.id], q) else 0.0
    }

    /** `np.argsort(matrix @ q)[::-1]`: every row index, by descending score.
        Ties keep ascending row order here; numpy leaves their order open. */
    function Ranking(q: seq<real>): (r: seq<int>)
      ensures multiset(r) == multiset(Range(|matrix|))
      ensures |r| == |matrix|
      ensures Ordered(r, IndexKey(q), true)
    {
      SortBy(Range(|matrix|), IndexKey(q), true)
    }

    function CandidatesAt(idxs: seq<int>): (r: seq<Candidate>)
      ensures |r| == |idxs|
      ensures forall i :: 0 <= i < |idxs| ==>
        r[i] == Candidate(if idxs[i] in rightIdMap then rightIdMap[idxs[i]] else 0, None)
    {
      if idxs == [] then []
      else [Candidate(if idxs[0] in rightIdMap then rightIdMap[idxs[0]] else 0, None)] + CandidatesAt(idxs[1..])
    }

    /** `matrix @ q` is defined: there is a row, and the query is as long
        as the first one. */
    predicate Fits(q: seq<real>)
    {
      |matrix| > 0 && |q| == |matrix[0]|
    }

    /** A query that fits the first row fits every row, so the product is
        exactly numpy's matrix-vector product of matching shapes. */
    lemma FitsEveryRow(q: seq<real>)
      requires Valid() && Fits(q)
      ensures forall i :: 0 <= i < |matrix| ==> |matrix[i]| == |q|
    {
      forall i | 0 <= i < |matrix| ensures |matrix[i]| == |q| {
        assert right.order[i] in Elements(right.order);
        assert right.order[0] in Elements(right.order);
      }
    }

    /** The first `n` of the ranking, as candidates without features. */
    function TopCandidates(q: seq<real>, n: int): seq<Candidate>
    {
      CandidatesAt(Take(Ranking(q), n))
    }

    /** `extract_candidates(object_id, n)`: an unknown query id raises
        KeyError; an empty right side, or a query whose length differs from
        the rows', cannot be multiplied with the matrix (ValueError). */
    function ExtractCandidates(objectId: int, n: int): (r: Result<seq<Candidate>>)
      ensures objectId !in left.entries ==> r == Err(KeyError)
      ensures objectId in left.entries && |matrix| == 0 ==> r == Err(ValueError)
      ensures objectId in left.entries ==> (r.Ok? <==> Fits(left.entries[objectId]))
      ensures objectId in left.entries && !Fits(left.entries[objectId]) ==> r == Err(ValueError)
    {
      if objectId !in left.entries then Err(KeyError)
      else if !Fits(left.entries[objectId]) then Err(ValueError)
      else
        var top := TopCandidates(left.entries[objectId], n);
        Ok(if removeSelf then WithoutId(top, objectId) else top)
    }

    /** `batch_extract_candidates` as written. Every query id is looked up
        first (KeyError); an empty batch, an empty right side, or a query
        whose length differs from the rows' gives a matrix product of
        mismatched shapes (ValueError); in self mode the
        filter reads `.id` of each per-query list, which a list lacks
        (AttributeError). Otherwise entry `i` is query `i`'s cut ranking. */
    function BatchExtractAsWritten(objectIds: seq<int>, n: int): (r: Result<seq<seq<Candidate>>>)
      ensures (exists id :: id in objectIds && id !in left.entries) ==> r == Err(KeyError)
      ensures (forall id :: id in objectIds ==> id in left.entries) ==>
        (r == Err(ValueError) <==>
           (objectIds == [] || exists id :: id in objectIds && id in left.entries && !Fits(left.entries[id])))
      ensures r.Ok? ==> |r.value| == |objectIds| && !removeSelf
      ensures r.Ok? ==> forall i :: 0 <= i < |objectIds| ==>
        && objectIds[i] in left.entries
        && Fits(left.entries[objectIds[i]])
        && r.value[i] == TopCandidates(left.entries[objectIds[i]], n)
    {
      if exists id :: id in objectIds && id !in left.entries then Err(KeyError)
      else if objectIds == [] || exists id :: id in objectIds && !Fits(left.entries[id]) then Err(ValueError)
      else if removeSelf then Err(AttributeError)
      else Ok(seq(|objectIds|, i requires 0 <= i < |objectIds| => TopCandidates(left.entries[objectIds[i]], n)))
    }

    /** The batch as intended: entry `i` is `extract_candidates(object_ids[i], n)`,
        and the first failing query's error is raised. */
    function BatchExtract(objectIds: seq<int>, n: int): (r: Result<seq<seq<Candidate>>>)
      ensures r.Ok? <==> forall i :: 0 <= i < |objectIds| ==> ExtractCandidates(objectIds[i], n).Ok?
      ensures r.Ok? ==> |r.value| == |objectIds|
      ensures r.Ok? ==> forall i :: 0 <= i < |objectIds| ==> ExtractCandidates(objectIds[i], n) == Ok(r.value[i])
      ensures r.Err? ==> exists i :: 0 <= i < |objectIds| && ExtractCandidates(objectIds[i], n) == Err(r.error)
    {
      if objectIds == [] then Ok([])
      else
        var head := ExtractCandidates(objectIds[0], n);
        var rest := BatchExtract(objectIds[1..], n);
        assert forall i :: 0 <= i < |objectIds| - 1 ==> objectIds[1..][i] == objectIds[i + 1];
        if head.Err? then Err(head.error)
        else if rest.Err? then Err(rest.error)
        else Ok([head.value] + rest.value)
    }

    /** In self mode the batch as written fails for every non-empty batch
        of known ids, where the intended batch succeeds. */
    lemma BatchSelfModeFails(objectIds: seq<int>, n: int)
      requires removeSelf && objectIds != []
      requires forall id :: id in objectIds ==> id in left.entries && Fits(left.entries[id])
      ensures BatchExtractAsWritten(objectIds, n) == Err(AttributeError)
      ensures BatchExtract(objectIds, n).Ok?
    {
      forall i | 0 <= i < |objectIds| ensures ExtractCandidates(objectIds[i], n).Ok? {
        assert objectIds[i] in objectIds;
      }
    }

    /** Without self mode the batch as written and the intended one succeed
        on the same non-empty batches, with the same rows query by query;
        on a batch of known ids they also fail alike. With an unknown id the
        batch as written raises KeyError before any product, while the
        intended one raises the first failing query's error. */
    lemma BatchAgreesWithoutSelfMode(objectIds: seq<int>, n: int)
      requires !removeSelf && objectIds != []
      ensures BatchExtractAsWritten(objectIds, n).Ok? <==> BatchExtract(objectIds, n).Ok?
      ensures BatchExtractAsWritten(objectIds, n).Ok? ==> BatchExtractAsWritten(objectIds, n) == BatchExtract(objectIds, n)
      ensures (forall id :: id in objectIds ==> id in left.entries) ==>
        BatchExtractAsWritten(objectIds, n) == BatchExtract(objectIds, n)
    {
      var written := BatchExtractAsWritten(objectIds, n);
      var intended := BatchExtract(objectIds, n);
      if exists id :: id in objectIds && id !in left.entries {
        var id :| id in objectIds && id !in left.entries;
        var i :| 0 <= i < |objectIds| && objectIds[i] == id;
        assert ExtractCandidates(objectIds[i], n).Err?;
        assert intended.Err?;
      } else if exists id :: id in objectIds && !Fits(left.entries[id]) {
        var id :| id in objectIds && !Fits(left.entries[id]);
        var i :| 0 <= i < |objectIds| && objectIds[i] == id;
        assert ExtractCandidates(objectIds[i], n).Err?;
        assert intended.Err?;
        var j :| 0 <= j < |objectIds| && ExtractCandidates(objectIds[j], n) == Err(intended.error);
        assert objectIds[j] in objectIds;
      } else {
        forall i | 0 <= i < |objectIds| ensures ExtractCandidates(objectIds[i], n).Ok? {
          assert objectIds[i] in objectIds;
        }
        assert written.Ok? && intended.Ok?;
        forall i | 0 <= i < |objectIds| ensures written.value[i] == intended.value[i] {
          assert ExtractCandidates(objectIds[i], n) == Ok(intended.value[i]);
          assert objectIds[i] in left.entries;
          assert ExtractCandidates(objectIds[i], n) == Ok(TopCandidates(left.entries[objectIds[i]], n));
        }
        assert written.value == intended.value;
      }
    }

    /** The ranking holds each row index exactly once. */
    lemma RankingIsPermutation(q: seq<real>)
      ensures NoDup(Ranking(q))
      ensures forall x :: x in Ranking(q) <==> 0 <= x < |matrix|
    {
      var s := Ranking(q);
      var range := Range(|matrix|);
      SubMultisetNoDup(s, range);
      forall x ensures x in s <==> 0 <= x < |matrix| {
        assert x in s <==> x in multiset(s);
        assert x in range <==> x in multiset(range);
        if 0 <= x < |matrix| {
          assert range[x] == x;
        }
      }
    }

    /** The top candidates are distinct right-side ids, in non-increasing
        score order, and each item outside them scores no higher than each
        item inside. */
    lemma TopCandidatesSpec(q: seq<real>, n: int)
      requires Valid()
      ensures var top := TopCandidates(q, n);
        && |top| == (if n >= 0 then Min(n, |matrix|) else Max(|matrix| + n, 0))
        && NoDup(Ids(top))
        && (forall c :: c in top ==> c.id in right.entries && c.features.None?)
        && Ordered(top, CandidateKey(q), true)
        && (forall c, y :: c in top && y in right.entries && y !in Ids(top) ==>
              score(right.entries[y], q) <= CandidateKey(q)(c))
    {
      var s := Ranking(q);
      var top := TopCandidates(q, n);
      RankingIsPermutation(q);
      forall i, j | 0 <= i < j < |top| ensures top[i].id != top[j].id {
        TopEntry(q, n, i);
        TopEntry(q, n, j);
        assert s[i] != s[j];
      }
      forall c | c in top ensures c.id in right.entries && c.features.None? {
        var i :| 0 <= i < |top| && top[i] == c;
        TopEntry(q, n, i);
      }
      forall i, j | 0 <= i < j < |top| ensures CandidateKey(q)(top[i]) >= CandidateKey(q)(top[j]) {
        TopEntry(q, n, i);
        TopEntry(q, n, j);
      }
      forall c, y | c in top && y in right.entries && y !in Ids(top)
        ensures score(right.entries[y], q) <= CandidateKey(q)(c)
      {
        OmittedScoresLower(q, n, c, y);
      }
    }

    /** Position `i` of the top candidates is the right-side id of the
        `i`-th ranked row, and carries that row's score. */
    lemma TopEntry(q: seq<real>, n: int, i: int)
      requires Valid()
      requires 0 <= i < |TopCandidates(q, n)|
      ensures 0 <= Ranking(q)[i] < |right.order|
      ensures TopCandidates(q, n)[i] == Candidate(right.order[Ranking(q)[i]], None)
      ensures right.order[Ranking(q)[i]] in right.entries
      ensures CandidateKey(q)(TopCandidates(q, n)[i]) == IndexKey(q)(Ranking(q)[i])
    {
      var s := Ranking(q);
      var t := Take(s, n);
      RankingIsPermutation(q);
      assert t == s[..|t|];
      assert s[i] in s;
      assert right.order[s[i]] in Elements(right.order);
    }

    lemma OmittedScoresLower(q: seq<real>, n: int, c: Candidate, y: int)
      requires Valid()
      requires c in TopCandidates(q, n) && y in right.entries && y !in Ids(TopCandidates(q, n))
      ensures score(right.entries[y], q) <= CandidateKey(q)(c)
    {
      var s := Ranking(q);
      var t := Take(s, n);
      var top := TopCandidates(q, n);
      RankingIsPermutation(q);
      assert y in Elements(right.order);
      var k :| 0 <= k < |right.order| && right.order[k] == y;
      assert k in s;
      var p :| 0 <= p < |s| && s[p] == k;
      InTopWhenRankedHigh(q, n, p, k);
      var i :| 0 <= i < |top| && top[i] == c;
      assert t == s[..|t|];
      assert s[i] in s;
      assert right.order[s[i]] in Elements(right.order);
      assert CandidateKey(q)(c) == IndexKey(q)(s[i]);
      assert IndexKey(q)(s[p]) == score(right.entries[y], q);
    }

    /** A row ranked within the cut appears among the top candidates. */
    lemma InTopWhenRankedHigh(q: seq<real>, n: int, p: int, k: int)
      requires Valid()
      requires 0 <= k < |right.order|
      requires 0 <= p < |Ranking(q)| && Ranking(q)[p] == k
      ensures p < |Take(Ranking(q), n)| ==> right.order[k] in Ids(TopCandidates(q, n))
    {
      var s := Ranking(q);
      var t := Take(s, n);
      RankingIsPermutation(q);
      if p < |t| {
        assert t == s[..|t|];
        assert t[p] == k;
        assert Ids(TopCandidates(q, n))[p] == right.order[k];
      }
    }

    /** `extract_candidates`: without self mode, the first `n` right-side
        ids by non-increasing score (Python's `[:n]` for negative `n`),
        distinct, featureless, and no omitted item scores higher than a
        returned one; in self mode the query id is then dropped, so one
        fewer may come back. */
    lemma ExtractCandidatesSpec(objectId: int, n: int)
      requires Valid()
      requires objectId in left.entries && Fits(left.entries[objectId])
      ensures var q := left.entries[objectId];
        var r := ExtractCandidates(objectId, n).value;
        var cut := if n >= 0 then Min(n, |matrix|) else Max(|matrix| + n, 0);
        && (!removeSelf ==> |r| == cut)
        && (removeSelf ==> objectId !in Ids(r) && cut - 1 <= |r| <= cut)
        && NoDup(Ids(r))
        && (forall c :: c in r ==> c.id in right.entries && c.features.None?)
        && Ordered(r, CandidateKey(q), true)
        && (forall c, y :: c in r && y in right.entries && y !in Ids(r) && (removeSelf ==> y != objectId) ==>
              score(right.entries[y], q) <= CandidateKey(q)(c))
    {
      var q := left.entries[objectId];
      var top := TopCandidates(q, n);
      TopCandidatesSpec(q, n);
      if removeSelf {
        var r := WithoutId(top, objectId);
        WithoutIdLength(top, objectId);
        WithoutIdOrdered(top, objectId, CandidateKey(q));
        forall a, b | 0 <= a < b < |top| ensures top[a].id != top[b].id {
          assert Ids(top)[a] == top[a].id && Ids(top)[b] == top[b].id;
        }
        assert DistinctIds(top);
        WithoutIdDistinct(top, objectId);
        forall c, y | c in r && y in right.entries && y !in Ids(r) && y != objectId
          ensures score(right.entries[y], q) <= CandidateKey(q)(c)
        {
          IdKept(top, objectId, y);
        }
        forall x | x in Ids(r) ensures x != objectId {
          var i :| 0 <= i < |r| && Ids(r)[i] == x;
          assert r[i] in r;
        }
      }
    }
  }

  /** Building the generator: `np.array` of the right-side rows raises
      ValueError when they differ in length; otherwise the constructor's
      generator over the two tables. */
  method NewDotProductKNN(left: EmbeddingTable, right: EmbeddingTable, score: (seq<real>, seq<real>) -> real)
    returns (r: Result<DotProductKNN>)
    requires WellFormed(left) && WellFormed(right)
    ensures !Rectangular(right) ==> r == Err(ValueError)
    ensures Rectangular(right) ==>
      && r.Ok? && fresh(r.value) && r.value.Valid()
      && r.value.left == left && r.value.right == right && r.value.score == score
  {
    if !Rectangular(right) {
      return Err(ValueError);
    }
    var knn := new DotProductKNN(left, right, score);
    return Ok(knn);
  }

  /** A kept id stays among the ids after filtering. */
  lemma IdKept(cs: seq<Candidate>, id: int, y: int)
    requires y != id
    ensures y in Ids(cs) ==> y in Ids(WithoutId(cs, id))
  {
    if y in Ids(cs) {
      var i :| 0 <= i < |cs| && Ids(cs)[i] == y;
      assert cs[i] in WithoutId(cs, id);
      var j :| 0 <= j < |WithoutId(cs, id)| && WithoutId(cs, id)[j] == cs[i];
      assert Ids(WithoutId(cs, id))[j] == y;
    }
  }

  /** No two candidates share an id. */
  predicate DistinctIds(cs: seq<Candidate>)
  {
    forall a, b :: 0 <= a < b < |cs| ==> cs[a].id != cs[b].id
  }

  /** Filtering a list with distinct ids keeps them distinct. */
  lemma {:induction false} WithoutIdDistinct(cs: seq<Candidate>, id: int)
    requires DistinctIds(cs)
    ensures DistinctIds(WithoutId(cs, id))
  {
    if cs != [] {
      var tail := cs[1..];
      assert forall a :: 0 <= a < |tail| ==> tail[a] == cs[a + 1];
      assert DistinctIds(tail);
      WithoutIdDistinct(tail, id);
      var rt := WithoutId(tail, id);
      if cs[0].id != id {
        var r := [cs[0]] + rt;
        assert WithoutId(cs, id) == r;
        forall a, b | 0 <= a < b < |r| ensures r[a].id != r[b].id {
          assert r[b] == rt[b - 1];
          if a > 0 {
            assert r[a] == rt[a - 1];
          } else {
            var x := rt[b - 1];
            assert x in rt;
            assert x in tail;
            var k :| 0 <= k < |tail| && tail[k] == x;
            assert cs[k + 1] == x;
          }
        }
      }
    }
  }
}
