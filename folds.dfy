/** Folds shared by the geometry, the resolver and the evaluators: the
    running-minimum and running-maximum scans the source writes as loops with
    a strict comparison, and sums. */
module Folds {

  datatype Option<+T> = None | Some(value: T)

  /** A double that is either finite or +Infinity (`Double.POSITIVE_INFINITY`). */
  datatype ExtReal = Fin(r: real) | Inf

  /** `a < b` as Java compares doubles; +Infinity is below nothing. */
  predicate Below(a: ExtReal, b: ExtReal) {
    a.Fin? && (b.Inf? || a.r < b.r)
  }

  /** The smaller of two extended reals. */
  function MinOf(a: ExtReal, b: ExtReal): (m: ExtReal)
    ensures !Below(a, m) && !Below(b, m)
    ensures m == a || m == b
  {
    if Below(b, a) then b else a
  }

  /** `k * x` for a positive factor `k`; +Infinity stays +Infinity. */
  function Scale(k: real, x: ExtReal): (y: ExtReal)
    requires k > 0.0
    ensures y.Inf? <==> x.Inf?
  {
    if x.Inf? then Inf else Fin(k * x.r)
  }

  /** The loop `if (v < min) { min = v; minIdx = i; }` over `vals`, started
      from `min = bound` and `minIdx = -1`: the final `(min, minIdx)`. */
  function MinScan(vals: seq<ExtReal>, bound: ExtReal): (res: (ExtReal, int))
    ensures -1 <= res.1 < |vals|
  {
    if vals == [] then (bound, -1)
    else
      var prev := MinScan(vals[..|vals| - 1], bound);
      if Below(vals[|vals| - 1], prev.0) then (vals[|vals| - 1], |vals| - 1) else prev
  }

  /** One more step of the scan, as a loop takes it. */
  lemma MinScanStep(vals: seq<ExtReal>, j: nat, bound: ExtReal)
    requires j < |vals|
    ensures var prev := MinScan(vals[..j], bound);
      MinScan(vals[..j + 1], bound) == if Below(vals[j], prev.0) then (vals[j], j) else prev
  {
    assert vals[..j + 1][..j] == vals[..j];
  }

  /** Started from a finite bound, the scan's minimum stays finite and never
      rises above the bound. */
  lemma {:induction false} MinScanBelowBound(vals: seq<ExtReal>, b: real)
    ensures MinScan(vals, Fin(b)).0.Fin? && MinScan(vals, Fin(b)).0.r <= b
  {
    if vals != [] {
      MinScanBelowBound(vals[..|vals| - 1], b);
    }
  }

  /** The index a strict running-minimum scan settles on: -1 if no value is
      below `bound`. */
  function FirstArgMin(vals: seq<ExtReal>, bound: ExtReal): int {
    MinScan(vals, bound).1
  }

  /** The scan finds the FIRST index of the least value below `bound`, and
      -1 exactly when no value is below `bound`. */
  lemma {:induction false} MinScanIsFirstArgMin(vals: seq<ExtReal>, bound: ExtReal)
    ensures var (m, k) := MinScan(vals, bound);
      && (k == -1 ==> m == bound && forall j :: 0 <= j < |vals| ==> !Below(vals[j], bound))
      && (k != -1 ==>
            && 0 <= k < |vals| && m == vals[k] && Below(vals[k], bound)
            && (forall j :: 0 <= j < |vals| ==> !Below(vals[j], vals[k]))
            && (forall j :: 0 <= j < k ==> Below(vals[k], vals[j])))
  {
    if vals != [] {
      var init := vals[..|vals| - 1];
      MinScanIsFirstArgMin(init, bound);
      assert forall j :: 0 <= j < |init| ==> init[j] == vals[j];
    }
  }

  /** The loop `if (w > max) { max = w; maxIdx = i; }` over `vals`, started
      from `max = floor` and `maxIdx = -1`; `None` is a NaN, which compares
      greater than nothing. */
  function MaxScan(vals: seq<Option<real>>, floor: real): (res: (real, int))
    ensures -1 <= res.1 < |vals|
  {
    if vals == [] then (floor, -1)
    else
      var prev := MaxScan(vals[..|vals| - 1], floor);
      var v := vals[|vals| - 1];
      if v.Some? && v.value > prev.0 then (v.value, |vals| - 1) else prev
  }

  function FirstArgMax(vals: seq<Option<real>>, floor: real): int {
    MaxScan(vals, floor).1
  }

  /** The scan finds the FIRST index of the greatest value above `floor`
      (NaNs never win), and -1 exactly when no value exceeds `floor`. */
  lemma {:induction false} MaxScanIsFirstArgMax(vals: seq<Option<real>>, floor: real)
    ensures var (m, k) := MaxScan(vals, floor);
      && (k == -1 ==> m == floor && forall j :: 0 <= j < |vals| && vals[j].Some? ==> vals[j].value <= floor)
      && (k != -1 ==>
            && 0 <= k < |vals| && vals[k] == Some(m) && m > floor
            && (forall j :: 0 <= j < |vals| && vals[j].Some? ==> vals[j].value <= m)
            && (forall j :: 0 <= j < k && vals[j].Some? ==> vals[j].value < m))
  {
    if vals != [] {
      var init := vals[..|vals| - 1];
      MaxScanIsFirstArgMax(init, floor);
      assert forall j :: 0 <= j < |init| ==> init[j] == vals[j];
    }
  }

  /** The least of a list of finite distances, +Infinity for none. */
  function MinAll(ds: seq<real>): ExtReal {
    if ds == [] then Inf else MinOf(MinAll(ds[..|ds| - 1]), Fin(ds[|ds| - 1]))
  }

  /** `MinAll` is a lower bound of the list, is attained when the list is not
      empty, and is +Infinity exactly for the empty list. */
  lemma {:induction false} MinAllIsMinimum(ds: seq<real>)
    ensures MinAll(ds).Inf? <==> ds == []
    ensures forall k :: 0 <= k < |ds| ==> !Below(Fin(ds[k]), MinAll(ds))
    ensures ds != [] ==> exists k :: 0 <= k < |ds| && MinAll(ds) == Fin(ds[k])
  {
    if ds != [] {
      var init := ds[..|ds| - 1];
      MinAllIsMinimum(init);
      assert forall k :: 0 <= k < |init| ==> init[k] == ds[k];
      if init != [] {
        var k :| 0 <= k < |init| && MinAll(init) == Fin(init[k]);
        assert MinAll(ds) == Fin(ds[k]) || MinAll(ds) == Fin(ds[|ds| - 1]);
      } else {
        assert MinAll(ds) == Fin(ds[0]);
      }
    }
  }

  function SumReal(s: seq<real>): real {
    if s == [] then 0.0 else SumReal(s[..|s| - 1]) + s[|s| - 1]
  }

  function SumInt(s: seq<int>): int {
    if s == [] then 0 else SumInt(s[..|s| - 1]) + s[|s| - 1]
  }

  /** A sum of non-negative integers is non-negative, and zero only when every
      term is. */
  lemma {:induction false} SumIntNonNeg(s: seq<int>)
    requires forall k :: 0 <= k < |s| ==> s[k] >= 0
    ensures SumInt(s) >= 0
    ensures SumInt(s) == 0 ==> forall k :: 0 <= k < |s| ==> s[k] == 0
  {
    if s != [] {
      SumIntNonNeg(s[..|s| - 1]);
      assert forall k :: 0 <= k < |s| - 1 ==> s[..|s| - 1][k] == s[k];
    }
  }
}
