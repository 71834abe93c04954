/** The shared vocabulary of the recommender: feature values, candidates,
    and the exceptions the Python code raises, as an error datatype. */
module Primitives {

  datatype Option<T> = None | Some(value: T)

  /** The Python exceptions the core can raise. */
  datatype Error =
    | KeyError           // missing dict key
    | TypeError          // operation on a value of the wrong type (None, str, ...)
    | ValueError         // numpy conversion, `max` of an empty list, shape mismatch
    | AttributeError     // missing attribute or method
    | ZeroDivisionError
    | AssertionError

  datatype Result<T> = Ok(value: T) | Err(error: Error)

  /** A feature value: a float, a string, or an embedding vector. */
  datatype Feature = Num(x: real) | Cat(s: string) | Emb(v: seq<real>)

  type FeatureMap = map<string, Feature>

  /** A candidate: an identifier and an optional feature map. */
  datatype Candidate = Candidate(id: int, features: Option<FeatureMap>)

  function Ids(cs: seq<Candidate>): (r: seq<int>)
    ensures |r| == |cs|
    ensures forall i :: 0 <= i < |cs| ==> r[i] == cs[i].id
  {
    if cs == [] then [] else [cs[0].id] + Ids(cs[1..])
  }
}
