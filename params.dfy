/**
 * The search-parameter record `SeizzyhParams` and its fluent setters
 * (lib.rs lines 105-177). The record is a value: each setter takes it by
 * value, overrides one field and hands it back, so each setter is a
 * function from the old record to the new one.
 */
module Params {
  import opened Wrappers

  /** Rust's `usize` on a 64-bit target, and `u32`. Values are only copied, never computed with. */
  type Usize = x: int | 0 <= x < 0x1_0000_0000_0000_0000
  type U32 = x: int | 0 <= x < 0x1_0000_0000

  /** LanceDB's `DistanceType`: the metric a search ranks by. */
  datatype DistanceType = L2 | Cosine | Dot | Hamming

  /** `SeizzyhType`: an exhaustive (flat, kNN) or an approximate (ANN) search. */
  datatype SeizzyhType = Flat | Approximate

  /** `SeizzyhParams`: every field optional; an unset field leaves the backend's default in force. */
  datatype SeizzyhParams = SeizzyhParams(
    distanceType: Option<DistanceType>,
    seizzyhType: Option<SeizzyhType>,
    nprobes: Option<Usize>,
    refineFactor: Option<U32>,
    postFilter: Option<bool>,
    column: Option<string>)

  /** Names for the six fields of the record, so that "every other field" can be said once. */
  datatype Field = DistanceTypeField | SeizzyhTypeField | NProbesField | RefineFactorField | PostFilterField | ColumnField

  /** Field `f` holds a value (is `Some`) in `p`. */
  predicate IsSet(p: SeizzyhParams, f: Field) {
    match f
    case DistanceTypeField => p.distanceType.Some?
    case SeizzyhTypeField => p.seizzyhType.Some?
    case NProbesField => p.nprobes.Some?
    case RefineFactorField => p.refineFactor.Some?
    case PostFilterField => p.postFilter.Some?
    case ColumnField => p.column.Some?
  }

  /** `p` and `q` hold the same value in field `f`. */
  predicate Agree(p: SeizzyhParams, q: SeizzyhParams, f: Field) {
    match f
    case DistanceTypeField => p.distanceType == q.distanceType
    case SeizzyhTypeField => p.seizzyhType == q.seizzyhType
    case NProbesField => p.nprobes == q.nprobes
    case RefineFactorField => p.refineFactor == q.refineFactor
    case PostFilterField => p.postFilter == q.postFilter
    case ColumnField => p.column == q.column
  }

  /** `SeizzyhParams::default()` (derived `Default`): nothing is set. */
  function Default(): (r: SeizzyhParams)
    ensures forall f :: !IsSet(r, f)
  {
    SeizzyhParams(None, None, None, None, None, None)
  }

  /** `distance_type(d)`: the distance type becomes `Some(d)`; every other field is kept. */
  function SetDistanceType(p: SeizzyhParams, d: DistanceType): (r: SeizzyhParams)
    ensures r.distanceType == Some(d)
    ensures forall f | f != DistanceTypeField :: Agree(r, p, f)
  {
    p.(distanceType := Some(d))
  }

  /** `seizzyh_type(t)`: the search type becomes `Some(t)`; every other field is kept. */
  function SetSeizzyhType(p: SeizzyhParams, t: SeizzyhType): (r: SeizzyhParams)
    ensures r.seizzyhType == Some(t)
    ensures forall f | f != SeizzyhTypeField :: Agree(r, p, f)
  {
    p.(seizzyhType := Some(t))
  }

  /** `nprobes(n)`: nprobes becomes `Some(n)`, whatever the search type; every other field is kept. */
  function SetNProbes(p: SeizzyhParams, n: Usize): (r: SeizzyhParams)
    ensures r.nprobes == Some(n)
    ensures forall f | f != NProbesField :: Agree(r, p, f)
  {
    p.(nprobes := Some(n))
  }

  /** `refine_factor(k)`: the refine factor becomes `Some(k)`, whatever the search type; every other field is kept. */
  function SetRefineFactor(p: SeizzyhParams, k: U32): (r: SeizzyhParams)
    ensures r.refineFactor == Some(k)
    ensures forall f | f != RefineFactorField :: Agree(r, p, f)
  {
    p.(refineFactor := Some(k))
  }

  /** `post_filter(b)`: the post-filter flag becomes `Some(b)`, `false` included; every other field is kept. */
  function SetPostFilter(p: SeizzyhParams, b: bool): (r: SeizzyhParams)
    ensures r.postFilter == Some(b)
    ensures forall f | f != PostFilterField :: Agree(r, p, f)
  {
    p.(postFilter := Some(b))
  }

  /** `column(c)`: the target column becomes `Some(c)` (an owned copy of `c`); every other field is kept. */
  function SetColumn(p: SeizzyhParams, c: string): (r: SeizzyhParams)
    ensures r.column == Some(c)
    ensures forall f | f != ColumnField :: Agree(r, p, f)
  {
    p.(column := Some(c))
  }

  /** A later call to the same setter overwrites the earlier one: only the last value is kept. */
  lemma LaterSetterWins(p: SeizzyhParams)
    ensures forall a, b :: SetDistanceType(SetDistanceType(p, a), b) == SetDistanceType(p, b)
    ensures forall a, b :: SetSeizzyhType(SetSeizzyhType(p, a), b) == SetSeizzyhType(p, b)
    ensures forall a, b :: SetNProbes(SetNProbes(p, a), b) == SetNProbes(p, b)
    ensures forall a, b :: SetRefineFactor(SetRefineFactor(p, a), b) == SetRefineFactor(p, b)
    ensures forall a, b :: SetPostFilter(SetPostFilter(p, a), b) == SetPostFilter(p, b)
    ensures forall a, b :: SetColumn(SetColumn(p, a), b) == SetColumn(p, b)
  {
  }

  /** One setter call, with its argument. */
  datatype SetterCall =
    | DistanceTypeCall(d: DistanceType)
    | SeizzyhTypeCall(t: SeizzyhType)
    | NProbesCall(n: Usize)
    | RefineFactorCall(k: U32)
    | PostFilterCall(b: bool)
    | ColumnCall(c: string)

  /** The field a setter call overrides. */
  function FieldOf(call: SetterCall): Field {
    match call
    case DistanceTypeCall(_) => DistanceTypeField
    case SeizzyhTypeCall(_) => SeizzyhTypeField
    case NProbesCall(_) => NProbesField
    case RefineFactorCall(_) => RefineFactorField
    case PostFilterCall(_) => PostFilterField
    case ColumnCall(_) => ColumnField
  }

  /** `p.setter(arg)` for the setter and argument named by `call`. */
  function Apply(p: SeizzyhParams, call: SetterCall): SeizzyhParams {
    match call
    case DistanceTypeCall(d) => SetDistanceType(p, d)
    case SeizzyhTypeCall(t) => SetSeizzyhType(p, t)
    case NProbesCall(n) => SetNProbes(p, n)
    case RefineFactorCall(k) => SetRefineFactor(p, k)
    case PostFilterCall(b) => SetPostFilter(p, b)
    case ColumnCall(c) => SetColumn(p, c)
  }

  /**
   * Any two setter calls on different fields commute, so the order in which
   * a caller chains them does not matter.
   */
  lemma SettersCommute(p: SeizzyhParams, a: SetterCall, b: SetterCall)
    requires FieldOf(a) != FieldOf(b)
    ensures Apply(Apply(p, a), b) == Apply(Apply(p, b), a)
  {
  }

  /**
   * No cross-field validation: both tuning knobs are stored whatever the
   * search type, an unset one included, and storing them leaves the search
   * type as it was.
   */
  lemma KnobsStoredWithoutSearchType(p: SeizzyhParams, n: Usize, k: U32)
    ensures SetNProbes(p, n).nprobes == Some(n) && SetNProbes(p, n).seizzyhType == p.seizzyhType
    ensures SetRefineFactor(p, k).refineFactor == Some(k) && SetRefineFactor(p, k).seizzyhType == p.seizzyhType
    ensures SetNProbes(Default(), n).seizzyhType == None && SetRefineFactor(Default(), k).seizzyhType == None
  {
  }
}
