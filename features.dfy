/** Feature storage and enrichment: a keyed store of named feature values
    with per-name defaults, the extractors that read it, and the manager
    that merges every extractor's output into each candidate's features. */
module Features {
  import opened Builtins
  import opened Primitives

  /** A storage key: one object id, or a pair of ids. */
  datatype StorageKey = Single(id: int) | Pair(left: int, right: int)

  /** The object map after `add_feature(name, values, _)`. */
  function WithFeature(fmap: map<StorageKey, FeatureMap>, name: string, values: map<StorageKey, Feature>)
    : map<StorageKey, FeatureMap>
  {
    map o | o in fmap.Keys + values.Keys ::
      if o in values then (if o in fmap then fmap[o] else map[])[name := values[o]] else fmap[o]
  }

  /** Each object in `values` gains `name` and keeps its other features,
      an object new to the store has only `name`, every other entry stays
      as it was. */
  lemma WithFeatureSpec(fmap: map<StorageKey, FeatureMap>, name: string, values: map<StorageKey, Feature>)
    ensures var r := WithFeature(fmap, name, values);
      && r.Keys == fmap.Keys + values.Keys
      && (forall o :: o in values ==> name in r[o] && r[o][name] == values[o])
      && (forall o, n :: o in values && n != name && o in fmap ==>
            (n in r[o] <==> n in fmap[o]) && (n in fmap[o] ==> r[o][n] == fmap[o][n]))
      && (forall o :: o in values && o !in fmap ==> r[o].Keys == {name})
      && (forall o :: o in fmap && o !in values ==> r[o] == fmap[o])
  {
  }

  /** Writing one more value extends the partial map by that entry. */
  lemma WithFeatureStep(fmap: map<StorageKey, FeatureMap>, name: string, values: map<StorageKey, Feature>,
                        pending: set<StorageKey>, o: StorageKey)
    requires o in pending && pending <= values.Keys
    ensures var cur := WithFeature(fmap, name, values - pending);
      WithFeature(fmap, name, values - (pending - {o}))
        == cur[o := (if o in cur then cur[o] else map[])[name := values[o]]]
  {
    var cur := WithFeature(fmap, name, values - pending);
    var next := WithFeature(fmap, name, values - (pending - {o}));
    var expected := cur[o := (if o in cur then cur[o] else map[])[name := values[o]]];
    assert next.Keys == expected.Keys;
    forall p | p in next.Keys ensures next[p] == expected[p] {
      if p == o {
        assert o !in values - pending && o in values - (pending - {o});
      } else {
        assert (p in values - pending) <==> (p in values - (pending - {o}));
      }
    }
  }

  /** `FeatureStorage`: object key -> (feature name -> value), the names in
      the order they were added, and each name's default. */
  class FeatureStorage {
    var fmap: map<StorageKey, FeatureMap>
    var names: seq<string>
    var defaults: map<string, Feature>

    /** Defaults are only ever written together with an added name. */
    ghost predicate Valid()
      reads this
    {
      defaults.Keys == Elements(names)
    }

    constructor ()
      ensures Valid()
      ensures fmap == map[] && names == [] && defaults == map[]
    {
      fmap := map[];
      names := [];
      defaults := map[];
    }

    /** `__getitem__`: the stored map, or an empty map for an unknown key
        (a lookup, so the store does not grow). */
    function Get(idx: StorageKey): (r: FeatureMap)
      reads this
      ensures idx in fmap ==> r == fmap[idx]
      ensures idx !in fmap ==> r == map[]
    {
      if idx in fmap then fmap[idx] else map[]
    }

    /** `add_feature`: appends the name (again, if it was added before),
        writes each value under the name, and records the default. */
    method AddFeature(name: string, values: map<StorageKey, Feature>, default: Feature)
      requires Valid()
      modifies this
      ensures Valid()
      ensures names == old(names) + [name]
      ensures defaults == old(defaults)[name := default]
      ensures fmap == WithFeature(old(fmap), name, values)
    {
      names := names + [name];
      var pending := values.Keys;
      while pending != {}
        invariant pending <= values.Keys
        invariant names == old(names) + [name] && defaults == old(defaults)
        invariant fmap == WithFeature(old(fmap), name, values - pending)
        decreases pending
      {
        var o :| o in pending;
        WithFeatureStep(old(fmap), name, values, pending, o);
        var row := if o in fmap then fmap[o] else map[];
        fmap := fmap[o := row[name := values[o]]];
        pending := pending - {o};
      }
      assert values - pending == values;
      defaults := defaults[name := default];
      assert Elements(names) == Elements(old(names)) + {name};
    }

    /** `get_feature_default`, which raises KeyError for a name never added. */
    function GetFeatureDefault(name: string): (r: Result<Feature>)
      reads this
      ensures r.Ok? <==> name in defaults
      ensures r.Ok? ==> r.value == defaults[name]
      ensures r.Err? ==> r.error == KeyError
    {
      if name in defaults then Ok(defaults[name]) else Err(KeyError)
    }
  }

  /** In a valid store the default is found exactly for the added names. */
  lemma DefaultFoundIffAdded(s: FeatureStorage, name: string)
    requires s.Valid()
    ensures s.GetFeatureDefault(name).Ok? <==> name in s.names
  {
    assert name in s.defaults <==> name in Elements(s.names);
  }

  /* ---------------------------------------------------------------------
     Extractors
     --------------------------------------------------------------------- */

  /** The extractor variants. A static extractor carries the key function
      the manager calls; the embedding extractor has none (see `Output`).
      `dot` stands for numpy's dot product. The static extractor's
      constructor also accepts a single name and wraps it in a list; here
      the list is always given. */
  datatype Extractor =
    | StaticFeatureExtractor(featureNames: seq<string>, storage: FeatureStorage, key: (int, int) -> StorageKey)
    | EmbeddingScoreExtractor(leftStorage: FeatureStorage, rightStorage: FeatureStorage,
                              embeddingKeys: seq<string>, dot: (seq<real>, seq<real>) -> real)

  /** What `StaticFeatureExtractor.__call__` returns for a key: every
      requested name, mapped to its stored value or else its default; it
      raises KeyError for a name without a default, even one with a stored
      value. */
  function StaticValues(storage: FeatureStorage, featureNames: seq<string>, key: StorageKey): (r: Result<FeatureMap>)
    reads storage
    ensures r.Ok? <==> forall n :: n in featureNames ==> n in storage.defaults
    ensures r.Err? ==> r.error == KeyError
    ensures r.Ok? ==> r.value.Keys == Elements(featureNames)
    ensures r.Ok? ==> forall n :: n in featureNames && n in storage.Get(key) ==> r.value[n] == storage.Get(key)[n]
    ensures r.Ok? ==> forall n :: n in featureNames && n !in storage.Get(key) ==> r.value[n] == storage.defaults[n]
  {
    if exists n :: n in featureNames && n !in storage.defaults then Err(KeyError)
    else
      var stored := storage.Get(key);
      Ok(map n | n in featureNames :: if n in stored then stored[n] else storage.defaults[n])
  }

  /** `StaticFeatureExtractor.__call__`, filling the result name by name. */
  method CallStatic(featureNames: seq<string>, storage: FeatureStorage, key: StorageKey) returns (r: Result<FeatureMap>)
    ensures r == StaticValues(storage, featureNames, key)
  {
    var features := storage.Get(key);
    var result: FeatureMap := map[];
    for i := 0 to |featureNames|
      invariant forall n :: n in featureNames[..i] ==> n in storage.defaults
      invariant result == map n | n in featureNames[..i] ::
        if n in features then features[n] else storage.defaults[n]
    {
      var name := featureNames[i];
      var default := storage.GetFeatureDefault(name);
      if default.Err? {
        return Err(default.error);
      }
      result := result[name := if name in features then features[name] else default.value];
      assert featureNames[..i + 1] == featureNames[..i] + [name];
    }
    assert featureNames[..|featureNames|] == featureNames;
    return Ok(result);
  }

  /** The failure of `left[k] @ right[k]` for one embedding key: a missing
      key raises KeyError; a number against an array reaches numpy's
      `matmul` with a 0-d operand, and arrays of unequal length mismatch,
      both ValueError; any other pair of non-arrays, or a string against an
      array, has no `@` and raises TypeError. */
  function DotFailure(left: FeatureMap, right: FeatureMap, k: string): (r: Option<Error>)
    ensures r.None? <==> k in left && k in right && left[k].Emb? && right[k].Emb? && |left[k].v| == |right[k].v|
    ensures r == Some(KeyError) <==> k !in left || k !in right
    ensures r == Some(ValueError) <==>
      (&& k in left && k in right
       && ((left[k].Emb? && right[k].Emb? && |left[k].v| != |right[k].v|)
           || (left[k].Emb? && right[k].Num?) || (left[k].Num? && right[k].Emb?)))
    ensures r.Some? ==> r.value in {KeyError, ValueError, TypeError}
  {
    if k !in left || k !in right then Some(KeyError)
    else if left[k].Emb? && right[k].Emb? then
      if |left[k].v| != |right[k].v| then Some(ValueError) else None
    else if (left[k].Emb? && right[k].Num?) || (left[k].Num? && right[k].Emb?) then Some(ValueError)
    else Some(TypeError)
  }

  function FirstDotFailure(left: FeatureMap, right: FeatureMap, keys: seq<string>): (r: Option<Error>)
    ensures r.None? <==> forall k :: k in keys ==> DotFailure(left, right, k).None?
  {
    if keys == [] then None
    else if DotFailure(left, right, keys[0]).Some? then DotFailure(left, right, keys[0])
    else
      assert forall k :: k in keys ==> k == keys[0] || k in keys[1..];
      FirstDotFailure(left, right, keys[1..])
  }

  /** `EmbeddingScoreExtractor.__call__` on the key `(objectId, candidateId)`:
      one score per embedding key, the dot product of the two sides'
      embeddings; a missing embedding on either side raises KeyError. */
  function EmbeddingScores(leftStorage: FeatureStorage, rightStorage: FeatureStorage, embeddingKeys: seq<string>,
                           dot: (seq<real>, seq<real>) -> real, objectId: int, candidateId: int): (r: Result<FeatureMap>)
    reads leftStorage, rightStorage
    ensures r.Ok? <==> forall k :: k in embeddingKeys ==>
      DotFailure(leftStorage.Get(Single(objectId)), rightStorage.Get(Single(candidateId)), k).None?
    ensures r.Ok? ==> r.value.Keys == Elements(embeddingKeys)
    ensures r.Ok? ==> forall k :: k in embeddingKeys ==>
      r.value[k] == Num(dot(leftStorage.Get(Single(objectId))[k].v, rightStorage.Get(Single(candidateId))[k].v))
    ensures !r.Ok? ==>
      exists k :: k in embeddingKeys && Some(r.error) == DotFailure(leftStorage.Get(Single(objectId)), rightStorage.Get(Single(candidateId)), k)
  {
    var user := leftStorage.Get(Single(objectId));
    var item := rightStorage.Get(Single(candidateId));
    match FirstDotFailure(user, item, embeddingKeys)
    case Some(e) =>
      FirstDotFailureWitness(user, item, embeddingKeys);
      Err(e)
    case None => Ok(map k | k in embeddingKeys :: Num(dot(user[k].v, item[k].v)))
  }

  lemma {:induction false} FirstDotFailureWitness(left: FeatureMap, right: FeatureMap, keys: seq<string>)
    requires FirstDotFailure(left, right, keys).Some?
    ensures exists k :: k in keys && FirstDotFailure(left, right, keys) == DotFailure(left, right, k)
  {
    if DotFailure(left, right, keys[0]).None? {
      FirstDotFailureWitness(left, right, keys[1..]);
      var k :| k in keys[1..] && FirstDotFailure(left, right, keys[1..]) == DotFailure(left, right, k);
      assert k in keys;
    }
  }

  /* ---------------------------------------------------------------------
     FeatureManager
     --------------------------------------------------------------------- */

  /** The storages one extractor reads. */
  function ReadSet(e: Extractor): set<FeatureStorage>
  {
    match e
    case StaticFeatureExtractor(_, storage, _) => {storage}
    case EmbeddingScoreExtractor(left, right, _, _) => {left, right}
  }

  /** The storages the extractors read. */
  function Storages(es: seq<Extractor>): set<FeatureStorage>
  {
    set i, s | 0 <= i < |es| && s in ReadSet(es[i]) :: s
  }

  /** One extractor's output for `(objectId, candidateId)`: the static
      extractor looks its storage up under `key(objectId, candidateId)`, the
      embedding extractor scores the pair itself. */
  function Output(e: Extractor, objectId: int, candidateId: int): Result<FeatureMap>
    reads ReadSet(e)
  {
    match e
    case StaticFeatureExtractor(featureNames, storage, key) =>
      StaticValues(storage, featureNames, key(objectId, candidateId))
    case EmbeddingScoreExtractor(left, right, keys, dot) =>
      EmbeddingScores(left, right, keys, dot, objectId, candidateId)
  }

  /** The output as the manager obtains it as written: it first calls
      `extractor.key`, which only the static extractor has, so an embedding
      extractor raises AttributeError there. */
  function OutputAsWritten(e: Extractor, objectId: int, candidateId: int): (r: Result<FeatureMap>)
    reads ReadSet(e)
    ensures e.EmbeddingScoreExtractor? ==> r == Err(AttributeError)
    ensures e.StaticFeatureExtractor? ==> r == Output(e, objectId, candidateId)
  {
    if e.EmbeddingScoreExtractor? then Err(AttributeError) else Output(e, objectId, candidateId)
  }

  /** An embedding extractor whose storages hold matching vectors scores
      every key when called on the pair, yet fails as the manager calls it. */
  lemma EmbeddingKeyMissing(e: Extractor, objectId: int, candidateId: int)
    requires e.EmbeddingScoreExtractor?
    requires forall k :: k in e.embeddingKeys ==>
      var left, right := e.leftStorage.Get(Single(objectId)), e.rightStorage.Get(Single(candidateId));
      k in left && k in right && left[k].Emb? && right[k].Emb? && |left[k].v| == |right[k].v|
    ensures OutputAsWritten(e, objectId, candidateId) == Err(AttributeError)
    ensures Output(e, objectId, candidateId).Ok?
    ensures Output(e, objectId, candidateId).value.Keys == Elements(e.embeddingKeys)
  {
  }

  lemma StoragesPrefix(es: seq<Extractor>, k: nat)
    requires k <= |es|
    ensures Storages(es[..k]) <= Storages(es)
    ensures k < |es| ==> ReadSet(es[k]) <= Storages(es)
  {
    forall i | 0 <= i < k
      ensures es[..k][i] == es[i]
    {
    }
  }

  /** The outputs of the extractors, in order; the first failure is raised. */
  function Outputs(es: seq<Extractor>, objectId: int, candidateId: int): (r: Result<seq<FeatureMap>>)
    reads Storages(es)
    ensures r.Ok? ==> |r.value| == |es|
  {
    if es == [] then Ok([])
    else
      var k := |es| - 1;
      StoragesPrefix(es, k);
      match Outputs(es[..k], objectId, candidateId)
      case Err(e) => Err(e)
      case Ok(prev) =>
        match Output(es[k], objectId, candidateId)
        case Err(e) => Err(e)
        case Ok(out) => Ok(prev + [out])
  }

  /** `features |= out` for each output in turn. */
  function Merge(prior: FeatureMap, outs: seq<FeatureMap>): FeatureMap
  {
    if outs == [] then prior else Merge(prior, outs[..|outs| - 1]) + outs[|outs| - 1]
  }

  /** Some output has the name. */
  predicate WrittenBy(outs: seq<FeatureMap>, n: string)
  {
    exists j :: 0 <= j < |outs| && n in outs[j]
  }

  lemma MergeSnoc(prior: FeatureMap, outs: seq<FeatureMap>, out: FeatureMap)
    ensures Merge(prior, outs + [out]) == Merge(prior, outs) + out
  {
    assert (outs + [out])[..|outs|] == outs;
  }

  /** A name is present after merging iff it was present before or some
      output has it. */
  lemma {:induction false} MergeKeys(prior: FeatureMap, outs: seq<FeatureMap>)
    ensures forall n :: n in Merge(prior, outs) <==> n in prior || WrittenBy(outs, n)
  {
    if outs != [] {
      var k := |outs| - 1;
      var front := outs[..k];
      MergeKeys(prior, front);
      forall n ensures WrittenBy(outs, n) <==> WrittenBy(front, n) || n in outs[k] {
        if WrittenBy(front, n) {
          var j :| 0 <= j < k && n in front[j];
          assert front[j] == outs[j];
        }
        if WrittenBy(outs, n) && n !in outs[k] {
          var j :| 0 <= j < |outs| && n in outs[j];
          assert front[j] == outs[j];
        }
      }
    }
  }

  /** A name takes the value of the last output that has it. */
  lemma {:induction false} MergeLastWriter(prior: FeatureMap, outs: seq<FeatureMap>, n: string, j: nat)
    requires j < |outs| && n in outs[j]
    requires forall j' :: j < j' < |outs| ==> n !in outs[j']
    ensures n in Merge(prior, outs) && Merge(prior, outs)[n] == outs[j][n]
  {
    var k := |outs| - 1;
    if j < k {
      var front := outs[..k];
      assert n !in outs[k];
      assert front[j] == outs[j];
      assert forall j' :: j < j' < k ==> front[j'] == outs[j'];
      MergeLastWriter(prior, front, n, j);
    }
  }

  /** A name no output has keeps its prior value. */
  lemma {:induction false} MergeKeepsPrior(prior: FeatureMap, outs: seq<FeatureMap>, n: string)
    requires n in prior
    requires forall j :: 0 <= j < |outs| ==> n !in outs[j]
    ensures n in Merge(prior, outs) && Merge(prior, outs)[n] == prior[n]
  {
    if outs != [] {
      var k := |outs| - 1;
      assert n !in outs[k];
      assert forall j :: 0 <= j < k ==> outs[..k][j] == outs[j];
      MergeKeepsPrior(prior, outs[..k], n);
    }
  }

  /** The starting map of a candidate: its features, or `{}` for `None`. */
  function Initial(c: Candidate): FeatureMap
  {
    if c.features.Some? then c.features.value else map[]
  }

  /** One candidate after every extractor has been merged into it. */
  function EnrichOne(es: seq<Extractor>, objectId: int, c: Candidate): (r: Result<Candidate>)
    reads Storages(es)
    ensures r.Ok? <==> Outputs(es, objectId, c.id).Ok?
    ensures r.Ok? ==> r.value.id == c.id && r.value.features == Some(Merge(Initial(c), Outputs(es, objectId, c.id).value))
  {
    match Outputs(es, objectId, c.id)
    case Err(e) => Err(e)
    case Ok(outs) => Ok(Candidate(c.id, Some(Merge(Initial(c), outs))))
  }

  /** What `FeatureManager.extract` produces when fully consumed. */
  function Enrich(es: seq<Extractor>, objectId: int, cs: seq<Candidate>): (r: Result<seq<Candidate>>)
    reads Storages(es)
    ensures r.Ok? ==> |r.value| == |cs|
  {
    if cs == [] then Ok([])
    else
      match Enrich(es, objectId, cs[..|cs| - 1])
      case Err(e) => Err(e)
      case Ok(prev) =>
        match EnrichOne(es, objectId, cs[|cs| - 1])
        case Err(e) => Err(e)
        case Ok(c) => Ok(prev + [c])
  }

  /** Candidate `i` of the result is candidate `i` enriched. */
  lemma {:induction false} EnrichAt(es: seq<Extractor>, objectId: int, cs: seq<Candidate>, i: nat)
    requires Enrich(es, objectId, cs).Ok?
    requires i < |cs|
    ensures EnrichOne(es, objectId, cs[i]).Ok?
    ensures Enrich(es, objectId, cs).value[i] == EnrichOne(es, objectId, cs[i]).value
  {
    var k := |cs| - 1;
    if i < k {
      assert cs[..k][i] == cs[i];
      EnrichAt(es, objectId, cs[..k], i);
    }
  }

  /** The enriched candidates are the inputs, in order, ids unchanged, each
      with the merge of its prior features (or `{}`) and every output. */
  lemma EnrichShape(es: seq<Extractor>, objectId: int, cs: seq<Candidate>)
    requires Enrich(es, objectId, cs).Ok?
    ensures var r := Enrich(es, objectId, cs).value;
      && |r| == |cs|
      && Ids(r) == Ids(cs)
      && forall i :: 0 <= i < |cs| ==>
           && Outputs(es, objectId, cs[i].id).Ok?
           && r[i].features == Some(Merge(Initial(cs[i]), Outputs(es, objectId, cs[i].id).value))
  {
    var r := Enrich(es, objectId, cs).value;
    forall i | 0 <= i < |cs|
      ensures r[i].id == cs[i].id
      ensures Outputs(es, objectId, cs[i].id).Ok?
      ensures r[i].features == Some(Merge(Initial(cs[i]), Outputs(es, objectId, cs[i].id).value))
    {
      EnrichAt(es, objectId, cs, i);
    }
  }

  /** The names an extractor writes. */
  function OutputNames(e: Extractor): seq<string>
  {
    if e.StaticFeatureExtractor? then e.featureNames else e.embeddingKeys
  }

  /** After enrichment, every name any extractor writes is present in every
      enriched candidate. */
  lemma OutputNamesPresent(es: seq<Extractor>, objectId: int, cs: seq<Candidate>, j: nat)
    requires Enrich(es, objectId, cs).Ok?
    requires j < |es|
    ensures var r := Enrich(es, objectId, cs).value;
      && |r| == |cs|
      && forall i, n :: 0 <= i < |cs| && n in OutputNames(es[j]) ==> r[i].features.Some? && n in r[i].features.value
  {
    var r := Enrich(es, objectId, cs).value;
    forall i, n | 0 <= i < |cs| && n in OutputNames(es[j])
      ensures r[i].features.Some? && n in r[i].features.value
    {
      EnrichAt(es, objectId, cs, i);
      var outs := Outputs(es, objectId, cs[i].id).value;
      OutputsAt(es, objectId, cs[i].id, j);
      assert n in outs[j];
      MergeKeys(Initial(cs[i]), outs);
    }
  }

  /** The `j`-th output is the `j`-th extractor's output. */
  lemma {:induction false} OutputsAt(es: seq<Extractor>, objectId: int, candidateId: int, j: nat)
    requires Outputs(es, objectId, candidateId).Ok?
    requires j < |es|
    ensures Output(es[j], objectId, candidateId).Ok?
    ensures Outputs(es, objectId, candidateId).value[j] == Output(es[j], objectId, candidateId).value
  {
    var k := |es| - 1;
    if j < k {
      OutputsAt(es[..k], objectId, candidateId, j);
    }
  }

  /** `FeatureManager`: an ordered list of extractors. */
  class FeatureManager {
    var extractors: seq<Extractor>

    constructor (extractors: seq<Extractor>)
      ensures this.extractors == extractors
    {
      this.extractors := extractors;
    }

    /** `add_extractor` appends. */
    method AddExtractor(e: Extractor)
      modifies this
      ensures extractors == old(extractors) + [e]
    {
      extractors := extractors + [e];
    }

    /** `extract`, consumed to the end: each candidate in turn gets `{}` in
        place of a missing map, then every extractor's output merged in. */
    method Extract(objectId: int, candidates: seq<Candidate>) returns (r: Result<seq<Candidate>>)
      ensures r == Enrich(extractors, objectId, candidates)
    {
      var es := extractors;
      var enriched: seq<Candidate> := [];
      for i := 0 to |candidates|
        invariant Enrich(es, objectId, candidates[..i]) == Ok(enriched)
      {
        var c := CandidateStep(es, objectId, candidates, i, enriched);
        if c.Err? {
          return Err(c.error);
        }
        enriched := enriched + [c.value];
      }
      assert candidates[..|candidates|] == candidates;
      return Ok(enriched);
    }
  }

  /** Candidate `i` enriched, with what it does to the candidates so far. */
  method CandidateStep(es: seq<Extractor>, objectId: int, cs: seq<Candidate>, i: nat, enriched: seq<Candidate>)
    returns (c: Result<Candidate>)
    requires i < |cs| && Enrich(es, objectId, cs[..i]) == Ok(enriched)
    ensures c.Err? ==> Enrich(es, objectId, cs) == Err(c.error)
    ensures c.Ok? ==> Enrich(es, objectId, cs[..i + 1]) == Ok(enriched + [c.value])
  {
    ghost var frame := Storages(es);
    c := EnrichCandidate(es, objectId, cs[i]);
    assert unchanged(frame);
    if c.Err? {
      EnrichStepFails(es, objectId, cs, i);
    } else {
      EnrichStep(es, objectId, cs, i);
    }
  }

  /** The body of `extract` for one candidate: `{}` in place of a missing
      map, then each extractor's output merged in, in order. */
  method EnrichCandidate(es: seq<Extractor>, objectId: int, candidate: Candidate) returns (r: Result<Candidate>)
    ensures r == EnrichOne(es, objectId, candidate)
  {
    var features := Initial(candidate);
    var outs: seq<FeatureMap> := [];
    for j := 0 to |es|
      invariant Outputs(es[..j], objectId, candidate.id) == Ok(outs)
      invariant features == Merge(Initial(candidate), outs)
    {
      var out := ExtractorStep(es, objectId, candidate.id, j, outs);
      if out.Err? {
        return Err(out.error);
      }
      MergeSnoc(Initial(candidate), outs, out.value);
      outs := outs + [out.value];
      features := features + out.value;
    }
    assert es[..|es|] == es;
    return Ok(Candidate(candidate.id, Some(features)));
  }

  /** Extractor `j` run on the pair, with what it does to the outputs so far. */
  method ExtractorStep(es: seq<Extractor>, objectId: int, candidateId: int, j: nat, outs: seq<FeatureMap>)
    returns (out: Result<FeatureMap>)
    requires j < |es| && Outputs(es[..j], objectId, candidateId) == Ok(outs)
    ensures out.Err? ==> Outputs(es, objectId, candidateId) == Err(out.error)
    ensures out.Ok? ==> Outputs(es[..j + 1], objectId, candidateId) == Ok(outs + [out.value])
  {
    ghost var frame := Storages(es[..j]);
    out := CallExtractor(es[j], objectId, candidateId);
    assert unchanged(frame);
    if out.Err? {
      OutputsStepFails(es, objectId, candidateId, j);
    } else {
      OutputsStep(es, objectId, candidateId, j);
    }
  }

  /** `extractor(extractor.key(object_id, candidate.id))`, with the pair as
      the embedding extractor's key. */
  method CallExtractor(e: Extractor, objectId: int, candidateId: int) returns (out: Result<FeatureMap>)
    ensures out == Output(e, objectId, candidateId)
  {
    if e.StaticFeatureExtractor? {
      out := CallStatic(e.featureNames, e.storage, e.key(objectId, candidateId));
    } else {
      out := EmbeddingScores(e.leftStorage, e.rightStorage, e.embeddingKeys, e.dot, objectId, candidateId);
    }
  }

  lemma OutputsStep(es: seq<Extractor>, objectId: int, candidateId: int, j: nat)
    requires j < |es|
    requires Outputs(es[..j], objectId, candidateId).Ok? && Output(es[j], objectId, candidateId).Ok?
    ensures Outputs(es[..j + 1], objectId, candidateId)
      == Ok(Outputs(es[..j], objectId, candidateId).value + [Output(es[j], objectId, candidateId).value])
  {
    assert es[..j + 1][..j] == es[..j];
  }

  /** The first failing extractor's error is the error of them all. */
  lemma OutputsStepFails(es: seq<Extractor>, objectId: int, candidateId: int, j: nat)
    requires j < |es|
    requires Outputs(es[..j], objectId, candidateId).Ok? && Output(es[j], objectId, candidateId).Err?
    ensures Outputs(es, objectId, candidateId) == Err(Output(es[j], objectId, candidateId).error)
  {
    assert es[..j + 1][..j] == es[..j];
    OutputsFailure(es, objectId, candidateId, j + 1);
  }

  /** A failing prefix of extractors makes all of them fail alike. */
  lemma {:induction false} OutputsFailure(es: seq<Extractor>, objectId: int, candidateId: int, k: nat)
    requires 0 < k <= |es|
    requires Outputs(es[..k], objectId, candidateId).Err?
    ensures Outputs(es, objectId, candidateId) == Outputs(es[..k], objectId, candidateId)
    decreases |es| - k
  {
    if k < |es| {
      assert es[..k + 1][..k] == es[..k];
      OutputsFailure(es, objectId, candidateId, k + 1);
    } else {
      assert es[..k] == es;
    }
  }

  lemma EnrichStep(es: seq<Extractor>, objectId: int, cs: seq<Candidate>, i: nat)
    requires i < |cs|
    requires Enrich(es, objectId, cs[..i]).Ok? && EnrichOne(es, objectId, cs[i]).Ok?
    ensures Enrich(es, objectId, cs[..i + 1])
      == Ok(Enrich(es, objectId, cs[..i]).value + [EnrichOne(es, objectId, cs[i]).value])
  {
    assert cs[..i + 1][..i] == cs[..i];
  }

  /** The first candidate whose enrichment fails decides the error. */
  lemma EnrichStepFails(es: seq<Extractor>, objectId: int, cs: seq<Candidate>, i: nat)
    requires i < |cs|
    requires Enrich(es, objectId, cs[..i]).Ok? && EnrichOne(es, objectId, cs[i]).Err?
    ensures Enrich(es, objectId, cs) == Err(EnrichOne(es, objectId, cs[i]).error)
  {
    assert cs[..i + 1][..i] == cs[..i];
    EnrichFailure(es, objectId, cs, i + 1);
  }

  /** A candidate whose enrichment fails makes the whole list fail. */
  lemma {:induction false} EnrichFailure(es: seq<Extractor>, objectId: int, cs: seq<Candidate>, k: nat)
    requires 0 < k <= |cs|
    requires Enrich(es, objectId, cs[..k]).Err?
    ensures Enrich(es, objectId, cs) == Enrich(es, objectId, cs[..k])
  {
    var j := k;
    while j < |cs|
      invariant k <= j <= |cs|
      invariant Enrich(es, objectId, cs[..j]) == Enrich(es, objectId, cs[..k])
    {
      assert cs[..j + 1][..j] == cs[..j];
      j := j + 1;
    }
    assert cs[..|cs|] == cs;
  }
}
