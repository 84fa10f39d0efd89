/** How `WeightedMinDistResolver` scores the candidates of one toponym
    against the other toponyms of its document: `checkCandidate`, the
    candidate loop with its running minimum, and the fall-back to the
    heaviest candidate, which `updateWeights` and `finalDisambiguationStep`
    both run. The distance between two locations is the resolver's distance
    table, a parameter here. */
module Scoring {
  import opened Folds
  import opened Text
  import opened Lexicons

  /** `Double.MAX_VALUE`, where every running minimum starts. */
  const MaxDouble: real := 179769313486231570814527423731704356798070567525844996598917476803157260780028538760589558632766878171540458953514382464234321326889464182768467546703537516986049910576551282076245490090389328944075868508455133942304583236903222948165808559332123348274797826204144723168738177180919299881250404026184124858368.0

  /** A weight as a double: a number, or NaN (`None`), which is what a type
      that received no votes gets from `0.0 / 0`. */
  type Weight = Option<real>

  /** The weight lists, one per lexicon index; a `None` row is a `null`
      entry of the list of lists. */
  type Table = seq<Option<seq<Weight>>>

  /** `DistanceTable.distance` between two locations: a distance, so never
      negative. */
  type Distance = f: (Location, Location) -> real | forall a, b :: f(a, b) >= 0.0
    witness (a: Location, b: Location) => 0.0

  /** Every weight lookup for `t` succeeds: a toponym with candidates has its
      form in the lexicon, a non-null row at that index, and a weight for
      each of its candidates (otherwise the lookup throws). A toponym without
      candidates is never looked up. */
  predicate Fits(tb: Table, lex: Lexicon, t: Toponym) {
    t.Ambiguity() > 0 ==>
      && t.form in lex.index && lex.index[t.form] < |tb|
      && tb[lex.index[t.form]].Some? && t.Ambiguity() <= |tb[lex.index[t.form]].value|
  }

  predicate AllFit(tb: Table, lex: Lexicon, ts: seq<Toponym>) {
    forall k :: 0 <= k < |ts| ==> Fits(tb, lex, ts[k])
  }

  /** `weights.get(lexicon.get(t.getForm()))`. */
  function RowOf(tb: Table, lex: Lexicon, t: Toponym): (row: seq<Weight>)
    requires t.Ambiguity() > 0 && Fits(tb, lex, t)
    ensures t.Ambiguity() <= |row|
  {
    tb[lex.index[t.form]].value
  }

  /** `weightedDist` as the inner loop compares it: the distance over the
      product of the two weights. A NaN weight gives NaN and a zero product
      gives +Infinity or NaN; none of these is below anything, which is what
      `Inf` means to `Below`. */
  function Weighted(d: real, a: Weight, b: Weight): ExtReal {
    if a.Some? && b.Some? && a.value * b.value != 0.0 then Fin(d / (a.value * b.value)) else Inf
  }

  /** The weighted distances from candidate `c` (of weight `wc`) to each
      candidate of `o`, whose weights are `ro`. */
  function PairValues(c: Location, wc: Weight, o: Toponym, ro: seq<Weight>, dist: Distance): (vals: seq<ExtReal>)
    requires o.Ambiguity() <= |ro|
    ensures |vals| == o.Ambiguity()
  {
    seq(o.Ambiguity(), k requires 0 <= k < o.Ambiguity() => Weighted(dist(c, o.candidates[k]), wc, ro[k]))
  }

  /** What `checkCandidate` adds to the total of candidate `i` of `t` for
      another toponym `o`: the least weighted distance below
      `Double.MAX_VALUE`, or `Double.MAX_VALUE` when none is below it. */
  function Increment(t: Toponym, i: nat, o: Toponym, tb: Table, lex: Lexicon, dist: Distance): real
    requires i < t.Ambiguity() && Fits(tb, lex, t) && o.Ambiguity() > 0 && Fits(tb, lex, o)
  {
    var vals := PairValues(t.candidates[i], RowOf(tb, lex, t)[i], o, RowOf(tb, lex, o), dist);
    MinScanBelowBound(vals, MaxDouble);
    MinScan(vals, Fin(MaxDouble)).0.r
  }

  /** `o` counts towards the totals of `t`'s candidates: it is another
      toponym, and it has candidates. */
  predicate Counted(t: Toponym, o: Toponym) {
    o != t && o.Ambiguity() > 0
  }

  /** The total of candidate `i` of `t` over `ts` without early exit, and
      how many toponyms of `ts` counted. */
  function FullTotal(t: Toponym, i: nat, ts: seq<Toponym>, tb: Table, lex: Lexicon, dist: Distance): (real, nat)
    requires i < t.Ambiguity() && Fits(tb, lex, t) && AllFit(tb, lex, ts)
  {
    if ts == [] then (0.0, 0)
    else
      var init := ts[..|ts| - 1];
      assert AllFit(tb, lex, init);
      var prev := FullTotal(t, i, init, tb, lex, dist);
      var o := ts[|ts| - 1];
      if Counted(t, o) then (prev.0 + Increment(t, i, o, tb, lex, dist), prev.1 + 1) else prev
  }

  /** The state of the loop of `checkCandidate`: still running with a total
      and a count of toponyms seen, or returned early. */
  datatype Scan = Running(total: real, seen: nat) | Stopped

  /** The loop of `checkCandidate` over `ts`: it stops as soon as the
      running total reaches `bound`. */
  function CheckScan(t: Toponym, i: nat, ts: seq<Toponym>, bound: real, tb: Table, lex: Lexicon, dist: Distance): Scan
    requires i < t.Ambiguity() && Fits(tb, lex, t) && AllFit(tb, lex, ts)
  {
    if ts == [] then Running(0.0, 0)
    else
      var init := ts[..|ts| - 1];
      assert AllFit(tb, lex, init);
      var prev := CheckScan(t, i, init, bound, tb, lex, dist);
      var o := ts[|ts| - 1];
      if prev.Stopped? || !Counted(t, o) then prev
      else
        var total := prev.total + Increment(t, i, o, tb, lex, dist);
        if total >= bound then Stopped else Running(total, prev.seen + 1)
  }

  /** `checkCandidate`: the total of candidate `i`, or null (`None`) when the
      loop returned early or no other toponym counted. */
  function CandidateTotal(t: Toponym, i: nat, ts: seq<Toponym>, bound: real, tb: Table, lex: Lexicon,
                          dist: Distance): Option<real>
    requires i < t.Ambiguity() && Fits(tb, lex, t) && AllFit(tb, lex, ts)
  {
    var s := CheckScan(t, i, ts, bound, tb, lex, dist);
    if s.Running? && s.seen > 0 then Some(s.total) else None
  }

  /** A running scan that has seen a toponym has its total below the
      bound. */
  lemma {:induction false} ScanBelowBound(t: Toponym, i: nat, ts: seq<Toponym>, bound: real, tb: Table, lex: Lexicon,
                                          dist: Distance)
    requires i < t.Ambiguity() && Fits(tb, lex, t) && AllFit(tb, lex, ts)
    ensures var s := CheckScan(t, i, ts, bound, tb, lex, dist); s.Running? && s.seen > 0 ==> s.total < bound
  {
    if ts != [] {
      var init := ts[..|ts| - 1];
      assert AllFit(tb, lex, init);
      ScanBelowBound(t, i, init, bound, tb, lex, dist);
    }
  }

  /** A total `checkCandidate` returns is strictly below the current
      minimum it was given. */
  lemma CheckCandidateBelowMin(t: Toponym, i: nat, ts: seq<Toponym>, bound: real, tb: Table, lex: Lexicon,
                               dist: Distance)
    requires i < t.Ambiguity() && Fits(tb, lex, t) && AllFit(tb, lex, ts)
    ensures var r := CandidateTotal(t, i, ts, bound, tb, lex, dist); r.Some? ==> r.value < bound
  {
    ScanBelowBound(t, i, ts, bound, tb, lex, dist);
  }

  /** With no other toponym that has candidates, the scan never adds
      anything. */
  lemma {:induction false} ScanWithoutOthers(t: Toponym, i: nat, ts: seq<Toponym>, bound: real, tb: Table,
                                             lex: Lexicon, dist: Distance)
    requires i < t.Ambiguity() && Fits(tb, lex, t) && AllFit(tb, lex, ts)
    requires forall k :: 0 <= k < |ts| ==> !Counted(t, ts[k])
    ensures CheckScan(t, i, ts, bound, tb, lex, dist) == Running(0.0, 0)
  {
    if ts != [] {
      var init := ts[..|ts| - 1];
      assert AllFit(tb, lex, init);
      ScanWithoutOthers(t, i, init, bound, tb, lex, dist);
    }
  }

  /** `checkCandidate` abstains (returns null) when no other
      toponym of the document has candidates. */
  lemma CheckCandidateAbstains(t: Toponym, i: nat, ts: seq<Toponym>, bound: real, tb: Table, lex: Lexicon,
                               dist: Distance)
    requires i < t.Ambiguity() && Fits(tb, lex, t) && AllFit(tb, lex, ts)
    requires forall k :: 0 <= k < |ts| ==> !Counted(t, ts[k])
    ensures CandidateTotal(t, i, ts, bound, tb, lex, dist) == None
  {
    ScanWithoutOthers(t, i, ts, bound, tb, lex, dist);
  }

  /** The toponyms of `ts` that count for `t`, in order. */
  function OthersOf(t: Toponym, ts: seq<Toponym>): (os: seq<Toponym>)
    ensures forall k :: 0 <= k < |os| ==> Counted(t, os[k]) && os[k] in ts
  {
    if ts == [] then []
    else
      var prev := OthersOf(t, ts[..|ts| - 1]);
      var o := ts[|ts| - 1];
      if Counted(t, o) then prev + [o] else prev
  }

  /** The toponyms that count fit whenever the document's toponyms do. */
  lemma {:induction false} OthersFit(t: Toponym, ts: seq<Toponym>, tb: Table, lex: Lexicon)
    requires AllFit(tb, lex, ts)
    ensures AllFit(tb, lex, OthersOf(t, ts))
  {
    if ts != [] {
      var init := ts[..|ts| - 1];
      assert AllFit(tb, lex, init);
      OthersFit(t, init, tb, lex);
    }
  }

  /** The scan over a document is the scan over the toponyms that count:
      the toponym itself and toponyms without candidates change nothing. */
  lemma {:induction false} ScanIgnores(t: Toponym, i: nat, ts: seq<Toponym>, bound: real, tb: Table, lex: Lexicon,
                                       dist: Distance)
    requires i < t.Ambiguity() && Fits(tb, lex, t) && AllFit(tb, lex, ts) && AllFit(tb, lex, OthersOf(t, ts))
    ensures CheckScan(t, i, ts, bound, tb, lex, dist) == CheckScan(t, i, OthersOf(t, ts), bound, tb, lex, dist)
  {
    if ts != [] {
      var init := ts[..|ts| - 1];
      assert AllFit(tb, lex, init);
      OthersFit(t, init, tb, lex);
      ScanIgnores(t, i, init, bound, tb, lex, dist);
      var o := ts[|ts| - 1];
      var prev := OthersOf(t, init);
      if Counted(t, o) {
        assert (prev + [o])[..|prev + [o]| - 1] == prev;
      }
    }
  }

  /** `checkCandidate` ignores the toponym itself and every toponym without
      candidates. */
  lemma CheckCandidateIgnores(t: Toponym, i: nat, ts: seq<Toponym>, bound: real, tb: Table, lex: Lexicon,
                              dist: Distance)
    requires i < t.Ambiguity() && Fits(tb, lex, t) && AllFit(tb, lex, ts)
    ensures AllFit(tb, lex, OthersOf(t, ts))
    ensures CandidateTotal(t, i, ts, bound, tb, lex, dist) == CandidateTotal(t, i, OthersOf(t, ts), bound, tb, lex, dist)
  {
    OthersFit(t, ts, tb, lex);
    ScanIgnores(t, i, ts, bound, tb, lex, dist);
  }

  // ---------------------------------------------------------------------
  // Early exit against the full totals

  ghost predicate WeightsNonNegative(tb: Table) {
    forall i, j :: 0 <= i < |tb| && tb[i].Some? && 0 <= j < |tb[i].value| && tb[i].value[j].Some? ==>
      tb[i].value[j].value >= 0.0
  }

  /** With non-negative weights, every increment is
      non-negative. */
  lemma IncrementNonNegative(t: Toponym, i: nat, o: Toponym, tb: Table, lex: Lexicon, dist: Distance)
    requires i < t.Ambiguity() && Fits(tb, lex, t) && o.Ambiguity() > 0 && Fits(tb, lex, o)
    requires WeightsNonNegative(tb)
    ensures Increment(t, i, o, tb, lex, dist) >= 0.0
  {
    var ro := RowOf(tb, lex, o);
    var vals := PairValues(t.candidates[i], RowOf(tb, lex, t)[i], o, ro, dist);
    MinScanIsFirstArgMin(vals, Fin(MaxDouble));
    var k := MinScan(vals, Fin(MaxDouble)).1;
    if k != -1 {
      var wa, wb := RowOf(tb, lex, t)[i], ro[k];
      var d := dist(t.candidates[i], o.candidates[k]);
      assert vals[k] == Weighted(d, wa, wb);
      assert wa.Some? && wb.Some? && wa.value * wb.value != 0.0;
      var a, b := wa.value, wb.value;
      assert a >= 0.0 && b >= 0.0 && d >= 0.0;
      assert a * b > 0.0;
      assert d / (a * b) >= 0.0;
    }
  }

  /** With non-negative increments the running total never falls, so the
      early exit happens exactly when the full total reaches the bound, and
      a scan that runs to the end holds the full total. */
  lemma {:induction false} EarlyExitMatchesFullTotal(t: Toponym, i: nat, ts: seq<Toponym>, bound: real, tb: Table,
                                                     lex: Lexicon, dist: Distance)
    requires i < t.Ambiguity() && Fits(tb, lex, t) && AllFit(tb, lex, ts)
    requires WeightsNonNegative(tb)
    ensures var full := FullTotal(t, i, ts, tb, lex, dist);
      CheckScan(t, i, ts, bound, tb, lex, dist) ==
      if full.1 > 0 && full.0 >= bound then Stopped else Running(full.0, full.1)
  {
    if ts != [] {
      var init := ts[..|ts| - 1];
      assert AllFit(tb, lex, init);
      EarlyExitMatchesFullTotal(t, i, init, bound, tb, lex, dist);
      var o := ts[|ts| - 1];
      if Counted(t, o) {
        IncrementNonNegative(t, i, o, tb, lex, dist);
      }
    }
  }

  /** The unterminated total of candidate `i`, and +Infinity when no other
      toponym counted (the candidate abstains). */
  function Completed(t: Toponym, i: nat, ts: seq<Toponym>, tb: Table, lex: Lexicon, dist: Distance): ExtReal
    requires i < t.Ambiguity() && Fits(tb, lex, t) && AllFit(tb, lex, ts)
  {
    var full := FullTotal(t, i, ts, tb, lex, dist);
    if full.1 > 0 then Fin(full.0) else Inf
  }

  function CompletedTotals(t: Toponym, ts: seq<Toponym>, tb: Table, lex: Lexicon, dist: Distance): (totals: seq<ExtReal>)
    requires Fits(tb, lex, t) && AllFit(tb, lex, ts)
    ensures |totals| == t.Ambiguity()
  {
    seq(t.Ambiguity(), i requires 0 <= i < t.Ambiguity() => Completed(t, i, ts, tb, lex, dist))
  }

  /** `checkCandidate` returns the unterminated total exactly when it is
      below the current minimum, and null otherwise. */
  lemma CandidateTotalIsCompleted(t: Toponym, i: nat, ts: seq<Toponym>, bound: real, tb: Table, lex: Lexicon,
                                  dist: Distance)
    requires i < t.Ambiguity() && Fits(tb, lex, t) && AllFit(tb, lex, ts)
    requires WeightsNonNegative(tb)
    ensures var c := Completed(t, i, ts, tb, lex, dist);
      CandidateTotal(t, i, ts, bound, tb, lex, dist) == if Below(c, Fin(bound)) then Some(c.r) else None
  {
    EarlyExitMatchesFullTotal(t, i, ts, bound, tb, lex, dist);
  }

  // ---------------------------------------------------------------------
  // The candidate loop

  /** The candidate loop after the first `n` candidates: the running
      minimum and its index, from `(Double.MAX_VALUE, -1)`, each candidate
      checked against the minimum so far. */
  function Choice(t: Toponym, ts: seq<Toponym>, n: nat, tb: Table, lex: Lexicon, dist: Distance): (c: (real, int))
    requires n <= t.Ambiguity() && Fits(tb, lex, t) && AllFit(tb, lex, ts)
    ensures -1 <= c.1 < n
  {
    if n == 0 then (MaxDouble, -1)
    else
      var prev := Choice(t, ts, n - 1, tb, lex, dist);
      var total := CandidateTotal(t, n - 1, ts, prev.0, tb, lex, dist);
      if total.Some? then (total.value, n - 1) else prev
  }

  /** One more candidate of the candidate loop: it becomes the minimum
      exactly when `checkCandidate` returns a total for it. */
  lemma ChoiceStep(t: Toponym, ts: seq<Toponym>, n: nat, tb: Table, lex: Lexicon, dist: Distance,
                   prev: (real, int), total: Option<real>)
    requires n < t.Ambiguity() && Fits(tb, lex, t) && AllFit(tb, lex, ts)
    requires prev == Choice(t, ts, n, tb, lex, dist) && total == CandidateTotal(t, n, ts, prev.0, tb, lex, dist)
    ensures Choice(t, ts, n + 1, tb, lex, dist) == if total.Some? then (total.value, n) else prev
  {
  }

  lemma {:induction false} ChoiceIsMinScan(t: Toponym, ts: seq<Toponym>, n: nat, tb: Table, lex: Lexicon,
                                           dist: Distance)
    requires n <= t.Ambiguity() && Fits(tb, lex, t) && AllFit(tb, lex, ts)
    requires WeightsNonNegative(tb)
    ensures var m := MinScan(CompletedTotals(t, ts, tb, lex, dist)[..n], Fin(MaxDouble));
      Fin(Choice(t, ts, n, tb, lex, dist).0) == m.0 && Choice(t, ts, n, tb, lex, dist).1 == m.1
  {
    if n > 0 {
      ChoiceIsMinScan(t, ts, n - 1, tb, lex, dist);
      var prev := Choice(t, ts, n - 1, tb, lex, dist);
      MinScanStep(CompletedTotals(t, ts, tb, lex, dist), n - 1, Fin(MaxDouble));
      CandidateTotalIsCompleted(t, n - 1, ts, prev.0, tb, lex, dist);
    }
  }

  /** Early exit changes nothing: with non-negative weights,
      the candidate loop settles on the first candidate whose unterminated
      total is least and below `Double.MAX_VALUE`, and on -1 exactly when
      no candidate has such a total. */
  lemma EarlyExitPicksFirstArgMin(t: Toponym, ts: seq<Toponym>, tb: Table, lex: Lexicon, dist: Distance)
    requires Fits(tb, lex, t) && AllFit(tb, lex, ts)
    requires WeightsNonNegative(tb)
    ensures var totals, k := CompletedTotals(t, ts, tb, lex, dist), Choice(t, ts, t.Ambiguity(), tb, lex, dist).1;
      && k == FirstArgMin(totals, Fin(MaxDouble))
      && (k == -1 <==> forall j :: 0 <= j < |totals| ==> !Below(totals[j], Fin(MaxDouble)))
      && (k != -1 ==> && Below(totals[k], Fin(MaxDouble))
                      && (forall j :: 0 <= j < |totals| ==> !Below(totals[j], totals[k]))
                      && (forall j :: 0 <= j < k ==> Below(totals[k], totals[j])))
  {
    var totals := CompletedTotals(t, ts, tb, lex, dist);
    ChoiceIsMinScan(t, ts, t.Ambiguity(), tb, lex, dist);
    assert totals[..t.Ambiguity()] == totals;
    MinScanIsFirstArgMin(totals, Fin(MaxDouble));
  }

  /** The candidate `t` resolves to in the document whose toponyms are `ts`,
      -1 for none: the candidate loop's choice, or when it found none, the
      first candidate whose weight exceeds 1.0 and every earlier weight. */
  function Winner(t: Toponym, ts: seq<Toponym>, tb: Table, lex: Lexicon, dist: Distance): (w: int)
    requires Fits(tb, lex, t) && AllFit(tb, lex, ts)
    ensures -1 <= w < t.Ambiguity()
  {
    var m := Choice(t, ts, t.Ambiguity(), tb, lex, dist).1;
    if m != -1 || t.Ambiguity() == 0 then m
    else FirstArgMax(RowOf(tb, lex, t)[..t.Ambiguity()], 1.0)
  }

  /** When the candidate loop finds nothing, the winner is the first
      candidate whose weight is above 1.0 and above every earlier weight
      (NaN weights never win), and -1 when no weight is above 1.0. */
  lemma FallbackPicksFirstHeaviest(t: Toponym, ts: seq<Toponym>, tb: Table, lex: Lexicon, dist: Distance)
    requires Fits(tb, lex, t) && AllFit(tb, lex, ts) && t.Ambiguity() > 0
    requires Choice(t, ts, t.Ambiguity(), tb, lex, dist).1 == -1
    ensures var ws, w := RowOf(tb, lex, t)[..t.Ambiguity()], Winner(t, ts, tb, lex, dist);
      && (w == -1 <==> forall j :: 0 <= j < |ws| && ws[j].Some? ==> ws[j].value <= 1.0)
      && (w != -1 ==> && ws[w].Some? && ws[w].value > 1.0
                      && (forall j :: 0 <= j < |ws| && ws[j].Some? ==> ws[j].value <= ws[w].value)
                      && (forall j :: 0 <= j < w && ws[j].Some? ==> ws[j].value < ws[w].value))
  {
    MaxScanIsFirstArgMax(RowOf(tb, lex, t)[..t.Ambiguity()], 1.0);
  }
}
