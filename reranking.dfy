/** Funnel reranking: top-n selection by a named feature, the model-scored
    ranker (the trained scoring model is a function parameter), the
    Gumbel-noise sampler (the noise draws are an input), and the pipeline
    that threads candidates through its stages. */
module Reranking {
  import opened Builtins
  import opened Primitives
  import opened Sorting

  /* ---------------------------------------------------------------------
     Ranking keys and select_top_n
     --------------------------------------------------------------------- */

  /** `c.features[name]` can serve as a numeric ranking key. */
  predicate HasScore(c: Candidate, name: string)
  {
    c.features.Some? && name in c.features.value && c.features.value[name].Num?
  }

  /** The ranking key `c.features[name]` (0 when it is not a number). */
  function Score(c: Candidate, name: string): real
  {
    if HasScore(c, name) then c.features.value[name].x else 0.0
  }

  /** The exception raised when `c.features[name]` is looked up as a key. */
  function KeyFailure(c: Candidate, name: string): (r: Option<Error>)
    ensures r.None? <==> HasScore(c, name)
  {
    if c.features.None? then Some(TypeError)
    else if name !in c.features.value then Some(KeyError)
    else if !c.features.value[name].Num? then Some(TypeError)
    else None
  }

  /** The first candidate's key failure, in list order. */
  function FirstKeyFailure(cs: seq<Candidate>, name: string): (r: Option<Error>)
    ensures r.None? <==> forall c :: c in cs ==> HasScore(c, name)
  {
    if cs == [] then None
    else if KeyFailure(cs[0], name).Some? then KeyFailure(cs[0], name)
    else
      assert forall c :: c in cs ==> c == cs[0] || c in cs[1..];
      FirstKeyFailure(cs[1..], name)
  }

  /** `Ranker.select_top_n`: for `n <= 0` the result is empty and no key is
      looked up; otherwise every key is looked up, and the result is the
      first `min(n, |cs|)` candidates of a stable sort by the key. */
  function SelectTopN(cs: seq<Candidate>, feature: string, n: int, descending: bool): (r: Result<seq<Candidate>>)
    ensures n <= 0 ==> r == Ok([])
    ensures n > 0 ==> (r.Ok? <==> forall c :: c in cs ==> HasScore(c, feature))
    ensures n > 0 && r.Err? ==> Some(r.error) == FirstKeyFailure(cs, feature)
    ensures r.Ok? ==> |r.value| == if n <= 0 then 0 else Min(n, |cs|)
    ensures r.Ok? ==> multiset(r.value) <= multiset(cs)
    ensures r.Ok? ==> forall i, j :: 0 <= i < j < |r.value| ==>
      InOrder(Score(r.value[i], feature), Score(r.value[j], feature), descending)
    ensures r.Ok? ==> forall x, y :: x in r.value && y in multiset(cs) - multiset(r.value) ==>
      InOrder(Score(x, feature), Score(y, feature), descending)
  {
    if n <= 0 then Ok([])
    else match FirstKeyFailure(cs, feature)
      case Some(e) => Err(e)
      case None => Ok(TopN(cs, c => Score(c, feature), n, descending))
  }

  /** `candidate.features[name] = value`, which fails on a missing map. */
  function SetFeature(c: Candidate, name: string, v: Feature): (r: Result<Candidate>)
    ensures r.Ok? <==> c.features.Some?
    ensures r.Ok? ==> r.value.id == c.id && r.value.features == Some(c.features.value[name := v])
  {
    if c.features.None? then Err(TypeError)
    else Ok(Candidate(c.id, Some(c.features.value[name := v])))
  }

  /** Writes `values[i]` under `name` onto `cs[i]` for every `i` below
      `min(|cs|, |values|)` (Python's `zip`), leaving later candidates as
      they are; fails if one of the written candidates has no feature map. */
  function WriteScores(cs: seq<Candidate>, name: string, values: seq<real>): (r: Result<seq<Candidate>>)
    ensures r.Ok? <==> forall i :: 0 <= i < Min(|cs|, |values|) ==> cs[i].features.Some?
    ensures r.Ok? ==> |r.value| == |cs| && Ids(r.value) == Ids(cs)
    ensures r.Ok? ==> forall i :: 0 <= i < |cs| ==>
      r.value[i].features == if i < |values| then Some(cs[i].features.value[name := Num(values[i])]) else cs[i].features
  {
    var m := Min(|cs|, |values|);
    if exists i :: 0 <= i < m && cs[i].features.None? then Err(TypeError)
    else Ok(seq(|cs|, i requires 0 <= i < |cs| =>
      if i < m then Candidate(cs[i].id, Some(cs[i].features.value[name := Num(values[i])])) else cs[i]))
  }

  /** The loop `for candidate, score in zip(candidates, scores)` that writes
      each score onto its candidate. */
  method AnnotateScores(cs: seq<Candidate>, name: string, values: seq<real>) returns (r: Result<seq<Candidate>>)
    ensures r == WriteScores(cs, name, values)
  {
    var m := Min(|cs|, |values|);
    var annotated := cs;
    var i := 0;
    while i < m
      invariant 0 <= i <= m
      invariant |annotated| == |cs|
      invariant forall j :: 0 <= j < i ==> cs[j].features.Some?
      invariant forall j :: 0 <= j < |cs| ==>
        annotated[j] == (if j < i then Candidate(cs[j].id, Some(cs[j].features.value[name := Num(values[j])])) else cs[j])
    {
      var written := SetFeature(annotated[i], name, Num(values[i]));
      if written.Err? {
        return Err(written.error);
      }
      annotated := annotated[i := written.value];
      i := i + 1;
    }
    ghost var w := WriteScores(cs, name, values);
    assert w.Ok?;
    assert w.value == annotated;
    return Ok(annotated);
  }

  /* ---------------------------------------------------------------------
     GroceryCatboostRanker
     --------------------------------------------------------------------- */

  /** The sentinel for a missing numeric feature. */
  const FillValue: real := -9999999.0

  /** The sentinel for a missing categorical feature. */
  const EmptyCategory: string := "EMPTY"

  /** The feature matrices handed to the scoring model. */
  datatype FeaturesData = FeaturesData(
    numData: seq<seq<real>>,
    catData: seq<seq<Feature>>,
    numNames: seq<string>,
    catNames: seq<string>)

  /** The model-scored ranker; `model` stands for the trained model's
      `predict`, one score per row. */
  datatype CatboostRanker = CatboostRanker(
    model: FeaturesData -> seq<real>,
    numSchema: seq<string>,
    catSchema: seq<string>,
    scoreName: string)

  /** A stored value that cannot become a float32 matrix entry. */
  predicate NonNumeric(c: Candidate, name: string)
  {
    c.features.Some? && name in c.features.value && !c.features.value[name].Num?
  }

  function NumEntry(c: Candidate, name: string): real
  {
    if c.features.Some? && name in c.features.value && c.features.value[name].Num?
    then c.features.value[name].x else FillValue
  }

  function CatEntry(c: Candidate, name: string): Feature
  {
    if c.features.Some? && name in c.features.value then c.features.value[name] else Cat(EmptyCategory)
  }

  /** `build_cbm_features`: the numeric rows are built first (a missing map
      raises AttributeError, a non-numeric value fails the float32
      conversion), then the categorical rows. */
  function BuildCbmFeatures(ranker: CatboostRanker, cs: seq<Candidate>): (r: Result<FeaturesData>)
    ensures r.Ok? <==>
      && (|ranker.numSchema| > 0 || |ranker.catSchema| > 0 ==> forall c :: c in cs ==> c.features.Some?)
      && (forall c, name :: c in cs && name in ranker.numSchema ==> !NonNumeric(c, name))
    ensures r.Ok? ==> |r.value.numData| == |r.value.catData| == |cs|
    ensures r.Ok? ==> forall i :: 0 <= i < |cs| ==>
      && |r.value.numData[i]| == |ranker.numSchema|
      && |r.value.catData[i]| == |ranker.catSchema|
    ensures r.Ok? ==> forall i, j :: 0 <= i < |cs| && 0 <= j < |ranker.numSchema| ==>
      && cs[i].features.Some?
      && (ranker.numSchema[j] in cs[i].features.value ==>
            cs[i].features.value[ranker.numSchema[j]] == Num(r.value.numData[i][j]))
      && (ranker.numSchema[j] !in cs[i].features.value ==> r.value.numData[i][j] == FillValue)
    ensures r.Ok? ==> forall i, j :: 0 <= i < |cs| && 0 <= j < |ranker.catSchema| ==>
      && cs[i].features.Some?
      && (ranker.catSchema[j] in cs[i].features.value ==>
            r.value.catData[i][j] == cs[i].features.value[ranker.catSchema[j]])
      && (ranker.catSchema[j] !in cs[i].features.value ==> r.value.catData[i][j] == Cat(EmptyCategory))
    ensures r.Ok? ==> r.value.numNames == ranker.numSchema && r.value.catNames == ranker.catSchema
  {
    if |ranker.numSchema| > 0 && exists c :: c in cs && c.features.None? then Err(AttributeError)
    else if exists c, name :: c in cs && name in ranker.numSchema && NonNumeric(c, name) then Err(ValueError)
    else if |ranker.catSchema| > 0 && exists c :: c in cs && c.features.None? then Err(AttributeError)
    else
      assert forall i, j :: 0 <= i < |cs| && 0 <= j < |ranker.numSchema| ==>
        cs[i] in cs && ranker.numSchema[j] in ranker.numSchema && !NonNumeric(cs[i], ranker.numSchema[j]);
      Ok(FeaturesData(
        seq(|cs|, i requires 0 <= i < |cs| =>
          seq(|ranker.numSchema|, j requires 0 <= j < |ranker.numSchema| => NumEntry(cs[i], ranker.numSchema[j]))),
        seq(|cs|, i requires 0 <= i < |cs| =>
          seq(|ranker.catSchema|, j requires 0 <= j < |ranker.catSchema| => CatEntry(cs[i], ranker.catSchema[j]))),
        ranker.numSchema,
        ranker.catSchema))
  }

  /** What `GroceryCatboostRanker.rank` computes: build the rows, score them,
      write each score onto its candidate, select the top `n` by it. */
  function CatboostRanking(ranker: CatboostRanker, cs: seq<Candidate>, n: int): Result<seq<Candidate>>
  {
    match BuildCbmFeatures(ranker, cs)
    case Err(e) => Err(e)
    case Ok(data) =>
      match WriteScores(cs, ranker.scoreName, ranker.model(data))
      case Err(e) => Err(e)
      case Ok(annotated) => SelectTopN(annotated, ranker.scoreName, n, true)
  }

  /** `GroceryCatboostRanker.rank`. */
  method CatboostRank(ranker: CatboostRanker, objectId: int, cs: seq<Candidate>, n: int) returns (r: Result<seq<Candidate>>)
    ensures r == CatboostRanking(ranker, cs, n)
  {
    var data := BuildCbmFeatures(ranker, cs);
    if data.Err? {
      return Err(data.error);
    }
    var scores := ranker.model(data.value);
    var annotated := AnnotateScores(cs, ranker.scoreName, scores);
    if annotated.Err? {
      return Err(annotated.error);
    }
    r := SelectTopN(annotated.value, ranker.scoreName, n, true);
  }

  /** When the model returns one score per row, every candidate carries its
      score under the configured name and the result is the top `n`
      candidates by that score, ordered, each with its own score. */
  lemma CatboostScoresEveryCandidate(ranker: CatboostRanker, cs: seq<Candidate>, n: int)
    requires BuildCbmFeatures(ranker, cs).Ok?
    requires forall c :: c in cs ==> c.features.Some?
    requires |ranker.model(BuildCbmFeatures(ranker, cs).value)| == |cs|
    requires n > 0
    ensures var r := CatboostRanking(ranker, cs, n);
      var scores := ranker.model(BuildCbmFeatures(ranker, cs).value);
      && r.Ok?
      && |r.value| == Min(n, |cs|)
      && (forall c :: c in r.value ==> exists i :: 0 <= i < |cs| && c.id == cs[i].id && Score(c, ranker.scoreName) == scores[i])
      && (forall i, j :: 0 <= i < j < |r.value| ==> Score(r.value[i], ranker.scoreName) >= Score(r.value[j], ranker.scoreName))
  {
    var scores := ranker.model(BuildCbmFeatures(ranker, cs).value);
    ScoredTopN(cs, ranker.scoreName, scores, n);
  }

  /** Writing one score per candidate and keeping the top `n` by it. */
  lemma ScoredTopN(cs: seq<Candidate>, name: string, scores: seq<real>, n: int)
    requires forall c :: c in cs ==> c.features.Some?
    requires |scores| == |cs| && n > 0
    ensures WriteScores(cs, name, scores).Ok?
    ensures var r := SelectTopN(WriteScores(cs, name, scores).value, name, n, true);
      && r.Ok?
      && |r.value| == Min(n, |cs|)
      && (forall c :: c in r.value ==> exists i :: 0 <= i < |cs| && c.id == cs[i].id && Score(c, name) == scores[i])
      && (forall i, j :: 0 <= i < j < |r.value| ==> Score(r.value[i], name) >= Score(r.value[j], name))
  {
    WrittenScores(cs, name, scores);
    var a := WriteScores(cs, name, scores).value;
    var r := SelectTopN(a, name, n, true);
    forall c | c in r.value
      ensures exists i :: 0 <= i < |cs| && c.id == cs[i].id && Score(c, name) == scores[i]
    {
      assert c in multiset(a);
      var i :| 0 <= i < |a| && a[i] == c;
    }
  }

  /** With a score per candidate, every annotated candidate carries its own
      score. */
  lemma WrittenScores(cs: seq<Candidate>, name: string, scores: seq<real>)
    requires forall c :: c in cs ==> c.features.Some?
    requires |scores| == |cs|
    ensures WriteScores(cs, name, scores).Ok?
    ensures var a := WriteScores(cs, name, scores).value;
      && |a| == |cs|
      && (forall i :: 0 <= i < |cs| ==> a[i].id == cs[i].id && HasScore(a[i], name) && Score(a[i], name) == scores[i])
      && (forall c :: c in a ==> HasScore(c, name))
  {
    assert forall i :: 0 <= i < |cs| ==> cs[i] in cs;
    var a := WriteScores(cs, name, scores).value;
    forall i | 0 <= i < |cs| ensures a[i].id == cs[i].id {
      assert Ids(a)[i] == Ids(cs)[i];
    }
  }

  /* ---------------------------------------------------------------------
     SoftmaxSampler
     --------------------------------------------------------------------- */

  /** The Gumbel-max sampler; the noise draws of one call are passed in. */
  datatype SoftmaxSampler = SoftmaxSampler(
    temperature: real,
    relevanceName: string,
    sampledName: string)

  /** `relevances + noise * temperature`, position by position. */
  function Perturbed(s: SoftmaxSampler, cs: seq<Candidate>, noise: seq<real>): (p: seq<real>)
    requires |noise| == |cs|
    ensures |p| == |cs|
    ensures forall i :: 0 <= i < |cs| ==> p[i] == Score(cs[i], s.relevanceName) + noise[i] * s.temperature
  {
    seq(|cs|, i requires 0 <= i < |cs| => Score(cs[i], s.relevanceName) + noise[i] * s.temperature)
  }

  /** What `SoftmaxSampler.rank` computes for given noise draws. */
  function SoftmaxRanking(s: SoftmaxSampler, cs: seq<Candidate>, n: int, noise: seq<real>): Result<seq<Candidate>>
    requires |noise| == |cs|
  {
    match FirstKeyFailure(cs, s.relevanceName)
    case Some(e) => Err(e)
    case None =>
      match WriteScores(cs, s.sampledName, Perturbed(s, cs, noise))
      case Err(e) => Err(e)
      case Ok(annotated) => SelectTopN(annotated, s.sampledName, n, true)
  }

  /** `SoftmaxSampler.rank`: gathers the relevances, perturbs them, writes
      the perturbed value onto each candidate and selects the top `n`. */
  method SoftmaxRank(s: SoftmaxSampler, objectId: int, cs: seq<Candidate>, n: int, noise: seq<real>)
    returns (r: Result<seq<Candidate>>)
    requires |noise| == |cs|
    ensures r == SoftmaxRanking(s, cs, n, noise)
  {
    var failure := FirstKeyFailure(cs, s.relevanceName);
    if failure.Some? {
      return Err(failure.value);
    }
    var perturbed := Perturbed(s, cs, noise);
    var annotated := AnnotateScores(cs, s.sampledName, perturbed);
    if annotated.Err? {
      return Err(annotated.error);
    }
    r := SelectTopN(annotated.value, s.sampledName, n, true);
  }

  /** Writes a candidate's own relevance under the sampled name. */
  function CopyRelevance(s: SoftmaxSampler, c: Candidate): Candidate
  {
    if c.features.Some?
    then Candidate(c.id, Some(c.features.value[s.sampledName := Num(Score(c, s.relevanceName))]))
    else c
  }

  /** At temperature 0 the sampler is the deterministic top `n` by
      relevance: its result is `select_top_n` by the relevance feature, each
      candidate carrying its relevance under the sampled name as well. */
  lemma SoftmaxZeroTemperature(s: SoftmaxSampler, cs: seq<Candidate>, n: int, noise: seq<real>)
    requires |noise| == |cs|
    requires s.temperature == 0.0
    requires n > 0
    ensures var top := SelectTopN(cs, s.relevanceName, n, true);
      SoftmaxRanking(s, cs, n, noise) == if top.Ok? then Ok(Map(c => CopyRelevance(s, c), top.value)) else top
  {
    var f := c => CopyRelevance(s, c);
    if FirstKeyFailure(cs, s.relevanceName).None? {
      var w := WriteScores(cs, s.sampledName, Perturbed(s, cs, noise));
      assert w.Ok? by {
        forall i | 0 <= i < |cs| ensures cs[i].features.Some? {
          assert HasScore(cs[i], s.relevanceName);
        }
      }
      assert w.value == Map(f, cs) by {
        forall i | 0 <= i < |cs| ensures w.value[i] == f(cs[i]) {
          assert HasScore(cs[i], s.relevanceName);
        }
      }
      forall c | c in cs ensures Score(f(c), s.sampledName) == Score(c, s.relevanceName) {
        assert HasScore(c, s.relevanceName);
      }
      forall c | c in w.value ensures HasScore(c, s.sampledName) {
        var i :| 0 <= i < |w.value| && w.value[i] == c;
      }
      TopNMap(f, cs, c => Score(c, s.relevanceName), c => Score(c, s.sampledName), n, true);
    }
  }

  /* ---------------------------------------------------------------------
     RankingPipeline
     --------------------------------------------------------------------- */

  /** A funnel of rankers with the number of candidates asked of each. */
  datatype RankingPipeline<R> = RankingPipeline(rerankers: seq<R>, nCandidates: seq<int>)
  {
    predicate Valid() { |rerankers| == |nCandidates| }
  }

  /** The constructor, whose assertion rejects lists of unequal lengths. */
  function NewRankingPipeline<R>(rerankers: seq<R>, nCandidates: seq<int>): (r: Result<RankingPipeline<R>>)
    ensures r.Ok? <==> |rerankers| == |nCandidates|
    ensures r.Err? ==> r.error == AssertionError
    ensures r.Ok? ==> r.value.Valid() && r.value.rerankers == rerankers && r.value.nCandidates == nCandidates
  {
    if |rerankers| == |nCandidates| then Ok(RankingPipeline(rerankers, nCandidates)) else Err(AssertionError)
  }

  /** The result after the first `k` stages: stage `i` is invoked, through
      `invoke(ranker, i, objectId, candidates, count)`, on the previous
      stage's output with `count = max(nCandidates[i], n)`; an exception in
      a stage ends the run. */
  function Funnel<R>(p: RankingPipeline<R>, invoke: (R, nat, int, seq<Candidate>, int) -> Result<seq<Candidate>>,
                     objectId: int, cs: seq<Candidate>, n: int, k: nat): Result<seq<Candidate>>
    requires p.Valid() && k <= |p.rerankers|
  {
    if k == 0 then Ok(cs)
    else match Funnel(p, invoke, objectId, cs, n, k - 1)
      case Err(e) => Err(e)
      case Ok(prev) => invoke(p.rerankers[k - 1], k - 1, objectId, prev, Max(p.nCandidates[k - 1], n))
  }

  /** `RankingPipeline.rank`; the result is the last stage's output as it
      is, without a final cut to `n`. */
  method PipelineRank<R>(p: RankingPipeline<R>, invoke: (R, nat, int, seq<Candidate>, int) -> Result<seq<Candidate>>,
                         objectId: int, cs: seq<Candidate>, n: int) returns (r: Result<seq<Candidate>>)
    requires p.Valid()
    ensures r == Funnel(p, invoke, objectId, cs, n, |p.rerankers|)
    ensures |p.rerankers| == 0 ==> r == Ok(cs)
  {
    var candidates := cs;
    var i := 0;
    while i < |p.rerankers|
      invariant 0 <= i <= |p.rerankers|
      invariant Funnel(p, invoke, objectId, cs, n, i) == Ok(candidates)
    {
      var out := invoke(p.rerankers[i], i, objectId, candidates, Max(p.nCandidates[i], n));
      if out.Err? {
        FunnelStops(p, invoke, objectId, cs, n, i + 1);
        return out;
      }
      candidates := out.value;
      i := i + 1;
    }
    r := Ok(candidates);
  }

  /** Once a stage fails, the whole run fails with its exception. */
  lemma {:induction false} FunnelStops<R>(p: RankingPipeline<R>, invoke: (R, nat, int, seq<Candidate>, int) -> Result<seq<Candidate>>,
                                          objectId: int, cs: seq<Candidate>, n: int, k: nat)
    requires p.Valid() && 0 < k <= |p.rerankers|
    requires Funnel(p, invoke, objectId, cs, n, k).Err?
    ensures Funnel(p, invoke, objectId, cs, n, |p.rerankers|) == Funnel(p, invoke, objectId, cs, n, k)
    decreases |p.rerankers| - k
  {
    if k < |p.rerankers| {
      FunnelStops(p, invoke, objectId, cs, n, k + 1);
    }
  }

  /** A stage that behaves like `select_top_n`: asked for `count`, it returns
      `min(count, |candidates|)` of them. */
  ghost predicate ExactStages<R(!new)>(invoke: (R, nat, int, seq<Candidate>, int) -> Result<seq<Candidate>>)
  {
    forall rr, i, o, c, count :: invoke(rr, i, o, c, count).Ok? &&
      |invoke(rr, i, o, c, count).value| == Min(Max(count, 0), |c|)
  }

  /** With stages that return exactly what they are asked for, the funnel
      never narrows below `min(n, |cs|)` (every stage is asked for at least
      `n`), and never returns more than any stage was asked for. */
  lemma {:induction false} FunnelKeepsN<R(!new)>(p: RankingPipeline<R>, invoke: (R, nat, int, seq<Candidate>, int) -> Result<seq<Candidate>>,
                                           objectId: int, cs: seq<Candidate>, n: int, k: nat)
    requires p.Valid() && k <= |p.rerankers|
    requires n >= 0
    requires ExactStages(invoke)
    ensures var r := Funnel(p, invoke, objectId, cs, n, k);
      && r.Ok?
      && Min(n, |cs|) <= |r.value| <= |cs|
      && forall i :: 0 <= i < k ==> |r.value| <= Max(p.nCandidates[i], n)
  {
    if k > 0 {
      FunnelKeepsN(p, invoke, objectId, cs, n, k - 1);
    }
  }
}
