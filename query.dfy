/**
 * The LanceDB `VectorQuery` as the adapter sees it: an opaque builder, modelled
 * as the vector and cap it was created with plus the log of the tuning calls
 * applied to it. `ParamOps` is the call sequence `build_query` (lib.rs
 * lines 66-102) appends for a given `SeizzyhParams`; the lemmas below state
 * what that sequence contains and in which order.
 */
module Query {
  import opened Wrappers
  import opened Floats
  import P = Params

  /** One builder call `build_query` can issue on a `VectorQuery`. */
  datatype Op =
    | DistanceType(metric: P.DistanceType)  // query.distance_type(d)
    | BypassVectorIndex                     // query.bypass_vector_index()
    | NProbes(n: P.Usize)                   // query.nprobes(n)
    | RefineFactor(k: P.U32)                // query.refine_factor(k)
    | PostFilter                            // query.postfilter()
    | Column(name: string)                  // query.column(c)

  /**
   * A vector query: the query vector, the result cap (`limit`), the selected
   * output columns (`select`) and the tuning calls applied so far, oldest first.
   */
  datatype VectorQuery = VectorQuery(vector: seq<F64>, limit: Option<P.Usize>, columns: Option<seq<string>>, ops: seq<Op>)

  /** Step 1 of `build_query` (lines 76-78): the metric, if one is set. */
  function DistanceStage(p: P.SeizzyhParams): seq<Op> {
    match p.distanceType
    case Some(d) => [DistanceType(d)]
    case None => []
  }

  /** Steps 2-3 (lines 80-91): bypass for a flat search; nprobes then refine factor for an approximate one. */
  function SearchStage(p: P.SeizzyhParams): seq<Op> {
    match p.seizzyhType
    case Some(Flat) => [BypassVectorIndex]
    case Some(Approximate) =>
      (if p.nprobes.Some? then [NProbes(p.nprobes.value)] else [])
      + (if p.refineFactor.Some? then [RefineFactor(p.refineFactor.value)] else [])
    case None => []
  }

  /** Step 4 (lines 93-95): post-filtering, only for `Some(true)`. */
  function PostFilterStage(p: P.SeizzyhParams): seq<Op> {
    if p.postFilter == Some(true) then [PostFilter] else []
  }

  /** Step 5 (lines 97-99): the target column, if one is set. */
  function ColumnStage(p: P.SeizzyhParams): seq<Op> {
    match p.column
    case Some(c) => [Column(c)]
    case None => []
  }

  /** The builder calls `build_query` issues for `p`, in the order it issues them. */
  function ParamOps(p: P.SeizzyhParams): seq<Op> {
    DistanceStage(p) + SearchStage(p) + PostFilterStage(p) + ColumnStage(p)
  }

  /** The position of each kind of call in the fixed pipeline; bypass and nprobes share a slot. */
  function Rank(op: Op): nat {
    match op
    case DistanceType(_) => 0
    case BypassVectorIndex => 1
    case NProbes(_) => 1
    case RefineFactor(_) => 2
    case PostFilter => 3
    case Column(_) => 4
  }

  /** Ranks strictly increase along `ops`: pipeline order, and no kind of call twice. */
  predicate InPipelineOrder(ops: seq<Op>) {
    forall i, j | 0 <= i < j < |ops| :: Rank(ops[i]) < Rank(ops[j])
  }

  /** Every call in `ops` has a rank in `[lo, hi)`. */
  predicate RanksWithin(ops: seq<Op>, lo: nat, hi: nat) {
    forall i | 0 <= i < |ops| :: lo <= Rank(ops[i]) < hi
  }

  lemma OrderedConcat(a: seq<Op>, b: seq<Op>, lo: nat, mid: nat, hi: nat)
    requires lo <= mid <= hi
    requires InPipelineOrder(a) && RanksWithin(a, lo, mid)
    requires InPipelineOrder(b) && RanksWithin(b, mid, hi)
    ensures InPipelineOrder(a + b) && RanksWithin(a + b, lo, hi)
  {
    forall i, j | 0 <= i < j < |a + b|
      ensures Rank((a + b)[i]) < Rank((a + b)[j])
    {
      if j < |a| {
        assert (a + b)[i] == a[i] && (a + b)[j] == a[j];
      } else if i < |a| {
        assert (a + b)[i] == a[i] && (a + b)[j] == b[j - |a|];
      } else {
        assert (a + b)[i] == b[i - |a|] && (a + b)[j] == b[j - |a|];
      }
    }
    forall i | 0 <= i < |a + b|
      ensures lo <= Rank((a + b)[i]) < hi
    {
      if i < |a| {
        assert (a + b)[i] == a[i];
      } else {
        assert (a + b)[i] == b[i - |a|];
      }
    }
  }

  /**
   * The calls appear in the fixed order distance type, then bypass or
   * (nprobes, refine factor), then post-filter, then column, each at most once.
   */
  lemma {:induction false} ParamOpsInPipelineOrder(p: P.SeizzyhParams)
    ensures InPipelineOrder(ParamOps(p))
  {
    var d, s, f, c := DistanceStage(p), SearchStage(p), PostFilterStage(p), ColumnStage(p);
    assert RanksWithin(d, 0, 1) && RanksWithin(s, 1, 3) && RanksWithin(f, 3, 4) && RanksWithin(c, 4, 5);
    OrderedConcat(d, s, 0, 1, 3);
    OrderedConcat(d + s, f, 0, 3, 4);
    OrderedConcat(d + s + f, c, 0, 4, 5);
  }

  /** With all fields unset, `build_query` issues no call at all. */
  lemma DefaultIssuesNothing()
    ensures ParamOps(P.Default()) == []
  {
  }

  /**
   * An unset field issues no call of its kind; the metric and the column are
   * applied exactly with the value set.
   */
  lemma UnsetFieldsIssueNothing(p: P.SeizzyhParams)
    ensures forall d :: DistanceType(d) in ParamOps(p) <==> p.distanceType == Some(d)
    ensures forall c :: Column(c) in ParamOps(p) <==> p.column == Some(c)
    ensures p.seizzyhType.None? ==>
      forall op | op in ParamOps(p) :: !op.BypassVectorIndex? && !op.NProbes? && !op.RefineFactor?
    ensures p.distanceType.None? ==> forall op | op in ParamOps(p) :: !op.DistanceType?
    ensures p.column.None? ==> forall op | op in ParamOps(p) :: !op.Column?
  {
  }

  /** A flat search bypasses the index and never applies nprobes or refine factor, even when set. */
  lemma FlatBypassesIndex(p: P.SeizzyhParams)
    requires p.seizzyhType == Some(P.Flat)
    ensures BypassVectorIndex in ParamOps(p)
    ensures forall op | op in ParamOps(p) :: !op.NProbes? && !op.RefineFactor?
  {
  }

  /**
   * An approximate search applies nprobes exactly when it is set, the refine
   * factor exactly when it is set, nprobes first, and never bypasses the index.
   */
  lemma ApproximateAppliesKnobs(p: P.SeizzyhParams)
    requires p.seizzyhType == Some(P.Approximate)
    ensures forall n: P.Usize :: NProbes(n) in ParamOps(p) <==> p.nprobes == Some(n)
    ensures forall k: P.U32 :: RefineFactor(k) in ParamOps(p) <==> p.refineFactor == Some(k)
    ensures BypassVectorIndex !in ParamOps(p)
    ensures p.nprobes.Some? && p.refineFactor.Some? ==>
      exists i, j :: 0 <= i < j < |ParamOps(p)| && ParamOps(p)[i] == NProbes(p.nprobes.value)
        && ParamOps(p)[j] == RefineFactor(p.refineFactor.value)
  {
    if p.nprobes.Some? && p.refineFactor.Some? {
      var i := |DistanceStage(p)|;
      assert ParamOps(p)[i] == NProbes(p.nprobes.value);
      assert ParamOps(p)[i + 1] == RefineFactor(p.refineFactor.value);
    }
  }

  /** Post-filtering is applied only for `Some(true)`; `Some(false)` and `None` issue the same calls. */
  lemma PostFilterOnlyWhenTrue(p: P.SeizzyhParams)
    ensures PostFilter in ParamOps(p) <==> p.postFilter == Some(true)
    ensures ParamOps(P.SetPostFilter(p, false)) == ParamOps(p.(postFilter := None))
  {
  }

  /** Setting nprobes or a refine factor has no effect unless the search type is approximate. */
  lemma KnobsIgnoredUnlessApproximate(p: P.SeizzyhParams, n: P.Usize, k: P.U32)
    requires p.seizzyhType != Some(P.Approximate)
    ensures ParamOps(P.SetNProbes(p, n)) == ParamOps(p)
    ensures ParamOps(P.SetRefineFactor(p, k)) == ParamOps(p)
  {
  }

  /**
   * The part of a `SeizzyhParams` that reaches the query: knobs only under an
   * approximate search, an approximate search only with a knob (otherwise it
   * issues no call and is the backend default), and post-filtering only when true.
   */
  function Effective(p: P.SeizzyhParams): P.SeizzyhParams {
    var approx := p.seizzyhType == Some(P.Approximate);
    P.SeizzyhParams(
      p.distanceType,
      if approx && p.nprobes.None? && p.refineFactor.None? then None else p.seizzyhType,
      if approx then p.nprobes else None,
      if approx then p.refineFactor else None,
      if p.postFilter == Some(true) then Some(true) else None,
      p.column)
  }

  /** Reading one call back as the setter calls that request it. */
  function Step(p: P.SeizzyhParams, op: Op): P.SeizzyhParams {
    match op
    case DistanceType(d) => P.SetDistanceType(p, d)
    case BypassVectorIndex => P.SetSeizzyhType(p, P.Flat)
    case NProbes(n) => P.SetNProbes(P.SetSeizzyhType(p, P.Approximate), n)
    case RefineFactor(k) => P.SetRefineFactor(P.SetSeizzyhType(p, P.Approximate), k)
    case PostFilter => P.SetPostFilter(p, true)
    case Column(c) => P.SetColumn(p, c)
  }

  /** Reading a call log back, oldest call first, starting from `p`. */
  function Replay(p: P.SeizzyhParams, ops: seq<Op>): P.SeizzyhParams
    decreases |ops|
  {
    if ops == [] then p else Replay(Step(p, ops[0]), ops[1..])
  }

  lemma {:induction false} ReplayConcat(p: P.SeizzyhParams, a: seq<Op>, b: seq<Op>)
    ensures Replay(p, a + b) == Replay(Replay(p, a), b)
    decreases |a|
  {
    if a != [] {
      assert (a + b)[0] == a[0] && (a + b)[1..] == a[1..] + b;
      ReplayConcat(Step(p, a[0]), a[1..], b);
    } else {
      assert a + b == b;
    }
  }

  lemma ReplayPair(p: P.SeizzyhParams, x: Op, y: Op)
    ensures Replay(p, [x]) == Step(p, x)
    ensures Replay(p, [x, y]) == Step(Step(p, x), y)
  {
    assert [x][1..] == [];
    assert [y][1..] == [];
    assert [x, y][1..] == [y];
    assert Replay(Step(p, x), [y]) == Step(Step(p, x), y);
  }

  /** The calls `build_query` issues for `p` spell out exactly the effective part of `p`. */
  lemma {:induction false} ReadBackParamOps(p: P.SeizzyhParams)
    ensures Replay(P.Default(), ParamOps(p)) == Effective(p)
  {
    var d, s, f, c := DistanceStage(p), SearchStage(p), PostFilterStage(p), ColumnStage(p);
    ReplayConcat(P.Default(), d + s + f, c);
    ReplayConcat(P.Default(), d + s, f);
    ReplayConcat(P.Default(), d, s);
    var p1 := Replay(P.Default(), d);
    assert p1 == P.Default().(distanceType := p.distanceType);
    var p2 := Replay(p1, s);
    if p.seizzyhType == Some(P.Approximate) && p.nprobes.Some? && p.refineFactor.Some? {
      assert s == [NProbes(p.nprobes.value), RefineFactor(p.refineFactor.value)];
      ReplayPair(p1, s[0], s[1]);
    } else if s != [] {
      assert |s| == 1;
      ReplayPair(p1, s[0], s[0]);
    }
    assert p2 == Effective(p).(postFilter := None, column := None);
  }

  /** `build_query` ignores nothing that matters and adds nothing that does not. */
  lemma ParamOpsOfEffective(p: P.SeizzyhParams)
    ensures ParamOps(Effective(p)) == ParamOps(p)
  {
  }

  /**
   * Two parameter records make `build_query` issue the same calls if and
   * only if they agree on every field that reaches the query.
   */
  lemma {:induction false} SameOpsIffSameEffect(p: P.SeizzyhParams, q: P.SeizzyhParams)
    ensures ParamOps(p) == ParamOps(q) <==> Effective(p) == Effective(q)
  {
    ReadBackParamOps(p);
    ReadBackParamOps(q);
    ParamOpsOfEffective(p);
    ParamOpsOfEffective(q);
  }
}
