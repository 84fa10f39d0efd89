/** The tables `WeightedMinDistResolver` keeps per toponym type, indexed by
    the lexicon: the vote counts and the weights. Each pass of the resolver
    over a corpus is a fold over the documents and, within a document, over
    the toponyms `iterToponyms` yields, in order. */
module Tables {
  import opened Folds
  import opened Text
  import opened Lexicons
  import opened Scoring

  /** The count lists, one per lexicon index; `None` is a `null` entry. */
  type Counts = seq<Option<seq<int>>>

  /** Per document of a corpus, the toponyms `iterToponyms` yields for it. */
  type Lists = seq<seq<Toponym>>

  /** Every weight lookup of a pass over `lists` succeeds. */
  predicate TableFits(tb: Table, lex: Lexicon, lists: Lists) {
    forall n :: 0 <= n < |lists| ==> AllFit(tb, lex, lists[n])
  }

  /** Every toponym a pass over `lists` visits. */
  function ListSet(lists: Lists): set<Toponym> {
    set n, k | 0 <= n < |lists| && 0 <= k < |lists[n]| :: lists[n][k]
  }

  lemma ListSetHolds(lists: Lists, n: nat)
    requires n < |lists|
    ensures forall j :: 0 <= j < |lists[n]| ==> lists[n][j] in ListSet(lists)
  {
  }

  /** The weight lists of all indices are present, of the same lengths as
      the count lists. */
  predicate Shaped(tb: Table, counts: Counts) {
    && |counts| == |tb|
    && forall i :: 0 <= i < |tb| ==> tb[i].Some? && counts[i].Some? && |counts[i].value| == |tb[i].value|
  }

  /** Two tables whose rows are present and absent at the same indices,
      with the same lengths. */
  predicate SameShape(tb: Table, tb': Table) {
    && |tb'| == |tb|
    && forall i :: 0 <= i < |tb| ==> tb'[i].Some? == tb[i].Some? && (tb[i].Some? ==> |tb'[i].value| == |tb[i].value|)
  }

  /** Whether a weight lookup succeeds depends only on the shape of the
      table. */
  lemma FitsByShape(tb: Table, tb': Table, lex: Lexicon, lists: Lists)
    requires SameShape(tb, tb') && TableFits(tb, lex, lists)
    ensures TableFits(tb', lex, lists)
  {
    forall n, k | 0 <= n < |lists| && 0 <= k < |lists[n]|
      ensures Fits(tb', lex, lists[n][k])
    {
      assert Fits(tb, lex, lists[n][k]);
    }
  }

  // ---------------------------------------------------------------------
  // updateWeights: the votes

  /** The counts and their per-type sums during a pass of `updateWeights`. */
  datatype Tally = Tally(counts: Counts, sums: seq<int>)

  predicate TallyShaped(tb: Table, tl: Tally) {
    Shaped(tb, tl.counts) && |tl.sums| == |tl.counts|
  }

  /** `n` copies of `c`. */
  function Constant(n: nat, c: int): (s: seq<int>)
    ensures |s| == n
  {
    seq(n, _ => c)
  }

  /** `n` null rows. */
  function NoRows<T>(n: nat): (rows: seq<Option<T>>)
    ensures |rows| == n
  {
    seq(n, _ => None)
  }

  /** The first two loops of `updateWeights`: every count back to
      `initialCount`, and each sum to `initialCount` times the length of its
      count list. */
  function Reset(tb: Table, counts: Counts, initialCount: int): (tl: Tally)
    requires Shaped(tb, counts)
    ensures TallyShaped(tb, tl)
  {
    Tally(seq(|counts|, i requires 0 <= i < |counts| => Some(Constant(|counts[i].value|, initialCount))),
          seq(|counts|, i requires 0 <= i < |counts| => initialCount * |counts[i].value|))
  }

  /** One vote for candidate `w` of the type with index `i`. */
  function Vote(tl: Tally, i: nat, w: nat): (tl': Tally)
    requires i < |tl.counts| && i < |tl.sums| && tl.counts[i].Some? && w < |tl.counts[i].value|
  {
    var row := tl.counts[i].value;
    Tally(tl.counts[i := Some(row[w := row[w] + 1])], tl.sums[i := tl.sums[i] + 1])
  }

  /** The votes of the first `k` toponyms of a document: each toponym with
      a winner adds one vote to it. */
  function VoteInDoc(tl: Tally, ts: seq<Toponym>, k: nat, tb: Table, lex: Lexicon, dist: Distance): (tl': Tally)
    requires TallyShaped(tb, tl) && AllFit(tb, lex, ts) && k <= |ts|
    ensures TallyShaped(tb, tl')
  {
    if k == 0 then tl
    else
      var prev := VoteInDoc(tl, ts, k - 1, tb, lex, dist);
      var t := ts[k - 1];
      var w := Winner(t, ts, tb, lex, dist);
      if w == -1 then prev else Vote(prev, lex.index[t.form], w)
  }

  /** The votes of the first `n` documents. */
  function VoteInCorpus(tl: Tally, lists: Lists, n: nat, tb: Table, lex: Lexicon, dist: Distance): (tl': Tally)
    requires TallyShaped(tb, tl) && TableFits(tb, lex, lists) && n <= |lists|
    ensures TallyShaped(tb, tl')
  {
    if n == 0 then tl
    else VoteInDoc(VoteInCorpus(tl, lists, n - 1, tb, lex, dist), lists[n - 1], |lists[n - 1]|, tb, lex, dist)
  }

  /** `((double) count / sum) * size`: NaN when the sum is zero, which
      happens only when every count of the type is zero. */
  function Ratio(c: int, s: int, size: nat): Weight {
    if s == 0 then None else Some(Share(c as real, s as real, size as real))
  }

  /** The new weights of one type from its counts and their sum; the
      count and weight lists of a type have the same length. */
  function RatioRow(c: seq<int>, s: int): (ws: seq<Weight>)
    ensures |ws| == |c|
    ensures s != 0 ==> forall j :: 0 <= j < |ws| ==> ws[j].Some?
  {
    seq(|c|, j requires 0 <= j < |c| => Ratio(c[j], s, |c|))
  }

  /** The last loop of `updateWeights`: each weight becomes its count over
      its type's sum, times the number of weights of the type. */
  function Renormalised(tl: Tally, tb: Table): (tb': Table)
    requires TallyShaped(tb, tl)
    ensures Shaped(tb', tl.counts) && SameShape(tb, tb')
  {
    seq(|tb|, i requires 0 <= i < |tb| => Some(RatioRow(tl.counts[i].value, tl.sums[i])))
  }

  /** One call of `updateWeights`: the new weights and the new counts. */
  function Updated(tb: Table, counts: Counts, lists: Lists, initialCount: int, lex: Lexicon, dist: Distance)
    : (r: (Table, Counts))
    requires Shaped(tb, counts) && TableFits(tb, lex, lists)
    ensures Shaped(r.0, r.1) && SameShape(tb, r.0)
  {
    var tl := VoteInCorpus(Reset(tb, counts, initialCount), lists, |lists|, tb, lex, dist);
    (Renormalised(tl, tb), tl.counts)
  }

  /** `k` calls of `updateWeights`, as `train` makes them. */
  function Iterated(tb: Table, counts: Counts, lists: Lists, initialCount: int, lex: Lexicon, dist: Distance,
                    k: nat): (r: (Table, Counts))
    requires Shaped(tb, counts) && TableFits(tb, lex, lists)
    ensures Shaped(r.0, r.1) && SameShape(tb, r.0)
  {
    if k == 0 then (tb, counts)
    else
      var prev := Iterated(tb, counts, lists, initialCount, lex, dist, k - 1);
      FitsByShape(tb, prev.0, lex, lists);
      Updated(prev.0, prev.1, lists, initialCount, lex, dist)
  }

  // ---------------------------------------------------------------------
  // The sums stay the sums of the counts

  /** Every sum is the total of its type's counts, and no count is
      negative. */
  ghost predicate Consistent(tl: Tally) {
    && |tl.sums| == |tl.counts|
    && forall i :: 0 <= i < |tl.counts| ==>
         && tl.counts[i].Some? && tl.sums[i] == SumInt(tl.counts[i].value)
         && forall j :: 0 <= j < |tl.counts[i].value| ==> tl.counts[i].value[j] >= 0
  }

  lemma {:induction false} SumOfConstant(n: nat, c: int)
    ensures SumInt(Constant(n, c)) == c * n
  {
    if n > 0 {
      SumOfConstant(n - 1, c);
      assert Constant(n, c)[..n - 1] == Constant(n - 1, c);
    }
  }

  lemma {:induction false} SumOfBump(s: seq<int>, w: nat)
    requires w < |s|
    ensures SumInt(s[w := s[w] + 1]) == SumInt(s) + 1
  {
    var s' := s[w := s[w] + 1];
    assert s'[..|s| - 1] == if w == |s| - 1 then s[..|s| - 1] else s[..|s| - 1][w := s[w] + 1];
    if w < |s| - 1 {
      SumOfBump(s[..|s| - 1], w);
    }
  }

  /** After the reset, with a non-negative initial count, each sum is the
      total of its counts. */
  lemma ResetConsistent(tb: Table, counts: Counts, initialCount: nat)
    requires Shaped(tb, counts)
    ensures Consistent(Reset(tb, counts, initialCount))
  {
    var tl := Reset(tb, counts, initialCount);
    forall i | 0 <= i < |counts|
      ensures tl.sums[i] == SumInt(tl.counts[i].value)
    {
      SumOfConstant(|counts[i].value|, initialCount);
    }
  }

  /** A vote adds one to a count and one to that type's sum, so the sum
      stays the total of the counts. */
  lemma VoteConsistent(tl: Tally, i: nat, w: nat)
    requires Consistent(tl) && i < |tl.counts| && w < |tl.counts[i].value|
    ensures Consistent(Vote(tl, i, w))
  {
    SumOfBump(tl.counts[i].value, w);
  }

  lemma {:induction false} VoteInDocConsistent(tl: Tally, ts: seq<Toponym>, k: nat, tb: Table, lex: Lexicon,
                                               dist: Distance)
    requires TallyShaped(tb, tl) && AllFit(tb, lex, ts) && k <= |ts| && Consistent(tl)
    ensures Consistent(VoteInDoc(tl, ts, k, tb, lex, dist))
  {
    if k > 0 {
      VoteInDocConsistent(tl, ts, k - 1, tb, lex, dist);
      var prev := VoteInDoc(tl, ts, k - 1, tb, lex, dist);
      var t := ts[k - 1];
      var w := Winner(t, ts, tb, lex, dist);
      var r := VoteInDoc(tl, ts, k, tb, lex, dist);
      if w == -1 {
        assert r == prev;
      } else {
        assert r == Vote(prev, lex.index[t.form], w);
        VoteConsistent(prev, lex.index[t.form], w);
      }
    }
  }

  lemma {:induction false} VoteInCorpusConsistent(tl: Tally, lists: Lists, n: nat, tb: Table, lex: Lexicon,
                                                  dist: Distance)
    requires TallyShaped(tb, tl) && TableFits(tb, lex, lists) && n <= |lists| && Consistent(tl)
    ensures Consistent(VoteInCorpus(tl, lists, n, tb, lex, dist))
  {
    if n > 0 {
      VoteInCorpusConsistent(tl, lists, n - 1, tb, lex, dist);
      VoteInDocConsistent(VoteInCorpus(tl, lists, n - 1, tb, lex, dist), lists[n - 1], |lists[n - 1]|, tb, lex, dist);
    }
  }

  /** The votes of a document raise the grand total of the sums by at most
      one per toponym, and never lower it. */
  lemma {:induction false} VoteInDocBounded(tl: Tally, ts: seq<Toponym>, k: nat, tb: Table, lex: Lexicon,
                                            dist: Distance)
    requires TallyShaped(tb, tl) && AllFit(tb, lex, ts) && k <= |ts|
    ensures SumInt(tl.sums) <= SumInt(VoteInDoc(tl, ts, k, tb, lex, dist).sums) <= SumInt(tl.sums) + k
  {
    if k > 0 {
      VoteInDocBounded(tl, ts, k - 1, tb, lex, dist);
      var prev := VoteInDoc(tl, ts, k - 1, tb, lex, dist);
      var t := ts[k - 1];
      var w := Winner(t, ts, tb, lex, dist);
      var r := VoteInDoc(tl, ts, k, tb, lex, dist);
      if w == -1 {
        assert r == prev;
      } else {
        assert r == Vote(prev, lex.index[t.form], w);
        VoteBumps(prev, lex.index[t.form], w);
      }
    }
  }

  /** A vote raises the grand total of the sums by one. */
  lemma VoteBumps(tl: Tally, i: nat, w: nat)
    requires i < |tl.counts| && i < |tl.sums| && tl.counts[i].Some? && w < |tl.counts[i].value|
    ensures SumInt(Vote(tl, i, w).sums) == SumInt(tl.sums) + 1
  {
    SumOfBump(tl.sums, i);
  }

  /** The number of toponyms in the first `n` documents. */
  function Instances(lists: Lists, n: nat): nat
    requires n <= |lists|
  {
    if n == 0 then 0 else Instances(lists, n - 1) + |lists[n - 1]|
  }

  /** The votes of a corpus raise the grand total of the sums by at most
      one per toponym, and never lower it. */
  lemma {:induction false} VoteInCorpusBounded(tl: Tally, lists: Lists, n: nat, tb: Table, lex: Lexicon,
                                               dist: Distance)
    requires TallyShaped(tb, tl) && TableFits(tb, lex, lists) && n <= |lists|
    ensures SumInt(tl.sums) <= SumInt(VoteInCorpus(tl, lists, n, tb, lex, dist).sums)
                            <= SumInt(tl.sums) + Instances(lists, n)
  {
    if n > 0 {
      VoteInCorpusBounded(tl, lists, n - 1, tb, lex, dist);
      VoteInDocBounded(VoteInCorpus(tl, lists, n - 1, tb, lex, dist), lists[n - 1], |lists[n - 1]|, tb, lex, dist);
    }
  }

  /** A pass of `updateWeights` leaves every sum equal to the total of its
      type's counts, none of them negative. */
  lemma UpdatedTallyConsistent(tb: Table, counts: Counts, lists: Lists, initialCount: nat, lex: Lexicon,
                               dist: Distance)
    requires Shaped(tb, counts) && TableFits(tb, lex, lists)
    ensures Consistent(VoteInCorpus(Reset(tb, counts, initialCount), lists, |lists|, tb, lex, dist))
  {
    ResetConsistent(tb, counts, initialCount);
    VoteInCorpusConsistent(Reset(tb, counts, initialCount), lists, |lists|, tb, lex, dist);
  }

  // ---------------------------------------------------------------------
  // The new weights

  /** The values of a weight list with no NaN. */
  function Values(ws: seq<Weight>): (vs: seq<real>)
    requires forall j :: 0 <= j < |ws| ==> ws[j].Some?
    ensures |vs| == |ws| && forall j :: 0 <= j < |ws| ==> vs[j] == ws[j].value
  {
    seq(|ws|, j requires 0 <= j < |ws| => ws[j].value)
  }

  /** A weight list that is a distribution scaled to its length: no NaN, no
      negative weight, and the weights add up to the number of candidates. */
  ghost predicate Normal(ws: seq<Weight>) {
    && (forall j :: 0 <= j < |ws| ==> ws[j].Some? && ws[j].value >= 0.0)
    && SumReal(Values(ws)) == |ws| as real
  }

  /** A count over `s`, times `n`, as `Ratio` computes it. */
  function Share(a: real, s: real, n: real): real
    requires s != 0.0
  {
    a / s * n
  }

  /** Each count's share. */
  function Shares(c: seq<int>, s: real, n: real): (r: seq<real>)
    requires s != 0.0
    ensures |r| == |c|
  {
    if c == [] then [] else Shares(c[..|c| - 1], s, n) + [Share(c[|c| - 1] as real, s, n)]
  }

  lemma {:induction false} ShareAt(c: seq<int>, s: real, n: real, j: nat)
    requires s != 0.0 && j < |c|
    ensures Shares(c, s, n)[j] == Share(c[j] as real, s, n)
  {
    if j < |c| - 1 {
      ShareAt(c[..|c| - 1], s, n, j);
    }
  }

  lemma Distribute(a: real, b: real, s: real, n: real)
    requires s != 0.0
    ensures Share(a, s, n) + Share(b, s, n) == Share(a + b, s, n)
  {
  }

  lemma {:induction false} SumOfShares(c: seq<int>, s: real, n: real)
    requires s != 0.0
    ensures SumReal(Shares(c, s, n)) == Share(SumInt(c) as real, s, n)
  {
    if c == [] {
      assert SumReal(Shares(c, s, n)) == 0.0;
    } else {
      var init := c[..|c| - 1];
      var last := c[|c| - 1] as real;
      var sh := Shares(c, s, n);
      SumOfShares(init, s, n);
      assert sh[..|c| - 1] == Shares(init, s, n);
      assert SumReal(sh) == SumReal(Shares(init, s, n)) + Share(last, s, n);
      Distribute(SumInt(init) as real, last, s, n);
      assert SumInt(c) as real == SumInt(init) as real + last;
    }
  }

  lemma WholeShare(s: real, n: real)
    requires s != 0.0
    ensures Share(s, s, n) == n
  {
  }

  lemma NonNegativeShare(a: real, s: real, n: real)
    requires a >= 0.0 && s > 0.0 && n >= 0.0
    ensures Share(a, s, n) >= 0.0
  {
  }

  lemma RatioRowShares(c: seq<int>, s: int)
    requires s > 0
    ensures Values(RatioRow(c, s)) == Shares(c, s as real, |c| as real)
  {
    var ws := RatioRow(c, s);
    forall j | 0 <= j < |c|
      ensures Values(ws)[j] == Shares(c, s as real, |c| as real)[j]
    {
      assert ws[j] == Ratio(c[j], s, |c|);
      ShareAt(c, s as real, |c| as real, j);
    }
  }

  /** The weights a row of counts gives add up to the number of counts when
      their sum is positive. */
  lemma RatioRowSum(c: seq<int>, s: int)
    requires s == SumInt(c) && s > 0
    ensures SumReal(Values(RatioRow(c, s))) == |c| as real
  {
    RatioRowShares(c, s);
    SumOfShares(c, s as real, |c| as real);
    WholeShare(s as real, |c| as real);
  }

  lemma RatioRowNonNegative(c: seq<int>, s: int)
    requires s > 0 && forall j :: 0 <= j < |c| ==> c[j] >= 0
    ensures forall j :: 0 <= j < |c| ==> RatioRow(c, s)[j].Some? && RatioRow(c, s)[j].value >= 0.0
  {
    forall j | 0 <= j < |c|
      ensures RatioRow(c, s)[j].value >= 0.0
    {
      assert RatioRow(c, s)[j] == Ratio(c[j], s, |c|);
      NonNegativeShare(c[j] as real, s as real, |c| as real);
    }
  }

  /** A row of counts with a positive sum gives a normal weight list. */
  lemma RatioRowNormal(c: seq<int>, s: int)
    requires s == SumInt(c) && s > 0 && forall j :: 0 <= j < |c| ==> c[j] >= 0
    ensures Normal(RatioRow(c, s))
  {
    RatioRowNonNegative(c, s);
    RatioRowSum(c, s);
  }

  /** After a pass, each type's weights are NaN throughout when no instance
      of it voted (and the initial count is zero), and otherwise form a
      distribution scaled to the number of candidates: non-negative and
      adding up to it. */
  lemma UpdatedWeightsNormal(tb: Table, counts: Counts, lists: Lists, initialCount: nat, lex: Lexicon,
                             dist: Distance)
    requires Shaped(tb, counts) && TableFits(tb, lex, lists)
    ensures var r := Updated(tb, counts, lists, initialCount, lex, dist);
      forall i :: 0 <= i < |r.0| ==>
        && r.0[i].Some?
        && (SumInt(r.1[i].value) == 0 ==> forall j :: 0 <= j < |r.0[i].value| ==> r.0[i].value[j].None?)
        && (SumInt(r.1[i].value) > 0 ==> Normal(r.0[i].value))
  {
    var tl := VoteInCorpus(Reset(tb, counts, initialCount), lists, |lists|, tb, lex, dist);
    UpdatedTallyConsistent(tb, counts, lists, initialCount, lex, dist);
    var tb' := Renormalised(tl, tb);
    forall i | 0 <= i < |tb'| && tl.sums[i] > 0
      ensures Normal(tb'[i].value)
    {
      RatioRowNormal(tl.counts[i].value, tl.sums[i]);
    }
  }

  // ---------------------------------------------------------------------
  // Every toponym type gets a row: initializeCountsAndWeights,
  // initializeWeights and expandWeightsArray

  /** The weights of a weights file: per lexicon index, a list that may be
      empty. */
  type FileWeights = Option<seq<seq<Weight>>>

  /** Every toponym with candidates has its form in the lexicon (for any
      other, `lexicon.get` answers -1 and the lookup that follows fails). */
  predicate Known(lex: Lexicon, ts: seq<Toponym>) {
    forall k :: 0 <= k < |ts| && ts[k].Ambiguity() > 0 ==> ts[k].form in lex.index
  }

  predicate AllKnown(lex: Lexicon, lists: Lists) {
    forall n :: 0 <= n < |lists| ==> Known(lex, lists[n])
  }

  /** The file holds a list for the type of `t`, empty or with a weight for
      each of its candidates. */
  predicate FileFits(file: FileWeights, lex: Lexicon, t: Toponym) {
    file.Some? && t.Ambiguity() > 0 && t.form in lex.index ==>
      && lex.index[t.form] < |file.value|
      && (|file.value[lex.index[t.form]]| == 0 || t.Ambiguity() <= |file.value[lex.index[t.form]]|)
  }

  predicate FileFitsAll(file: FileWeights, lex: Lexicon, lists: Lists) {
    forall n, k :: 0 <= n < |lists| && 0 <= k < |lists[n]| ==> FileFits(file, lex, lists[n][k])
  }

  /** `m` weights of 1.0. */
  function Ones(m: nat): (ws: seq<Weight>)
    ensures |ws| == m
  {
    seq(m, _ => Some(1.0))
  }

  /** The first weights of a type of `amb` candidates: the file's, unless
      there is no file or its list is empty, and 1.0 each otherwise. */
  function FirstWeights(file: FileWeights, i: nat, amb: nat): (ws: seq<Weight>)
    requires file.Some? ==> i < |file.value| && (|file.value[i]| == 0 || amb <= |file.value[i]|)
    ensures |ws| == amb
  {
    if file.Some? && |file.value[i]| > 0 then file.value[i][..amb] else Ones(amb)
  }

  /** The count and weight lists side by side. */
  datatype Rows = Rows(counts: Counts, weights: Table)

  predicate Sized(st: Rows, lex: Lexicon) {
    |st.counts| == Size(lex) && |st.weights| == Size(lex)
  }

  /** `initializeCountsAndWeights` at one toponym: the first toponym of a
      type with no count list yet gives it `initialCount` for each
      candidate, and its first weights. */
  function InitOne(st: Rows, t: Toponym, lex: Lexicon, initialCount: int, file: FileWeights): (st': Rows)
    requires Valid(lex) && Sized(st, lex) && (t.Ambiguity() > 0 ==> t.form in lex.index) && FileFits(file, lex, t)
    ensures Sized(st', lex)
  {
    if t.Ambiguity() == 0 || st.counts[lex.index[t.form]].Some? then st
    else
      var i := lex.index[t.form];
      Rows(st.counts[i := Some(Constant(t.Ambiguity(), initialCount))],
           st.weights[i := Some(FirstWeights(file, i, t.Ambiguity()))])
  }

  /** `initializeCountsAndWeights` over the first `k` toponyms of a
      document. */
  function InitInDoc(st: Rows, ts: seq<Toponym>, k: nat, lex: Lexicon, initialCount: int, file: FileWeights)
    : (st': Rows)
    requires Valid(lex) && Sized(st, lex) && Known(lex, ts) && k <= |ts|
    requires forall j :: 0 <= j < |ts| ==> FileFits(file, lex, ts[j])
    ensures Sized(st', lex)
  {
    if k == 0 then st
    else InitOne(InitInDoc(st, ts, k - 1, lex, initialCount, file), ts[k - 1], lex, initialCount, file)
  }

  function InitInCorpus(st: Rows, lists: Lists, n: nat, lex: Lexicon, initialCount: int, file: FileWeights)
    : (st': Rows)
    requires Valid(lex) && Sized(st, lex) && AllKnown(lex, lists) && FileFitsAll(file, lex, lists) && n <= |lists|
    ensures Sized(st', lex)
  {
    if n == 0 then st
    else
      var prev := InitInCorpus(st, lists, n - 1, lex, initialCount, file);
      var ts := lists[n - 1];
      assert forall j :: 0 <= j < |ts| ==> FileFits(file, lex, ts[j]);
      InitInDoc(prev, ts, |ts|, lex, initialCount, file)
  }

  /** `initializeWeights` at one toponym: the first toponym of a type with
      no weight list gives it 1.0 for each candidate. */
  function FillOne(tb: Table, t: Toponym, lex: Lexicon): (tb': Table)
    requires Valid(lex) && |tb| == Size(lex) && (t.Ambiguity() > 0 ==> t.form in lex.index)
    ensures |tb'| == |tb|
  {
    if t.Ambiguity() == 0 || tb[lex.index[t.form]].Some? then tb
    else tb[lex.index[t.form] := Some(Ones(t.Ambiguity()))]
  }

  /** `initializeWeights` over the first `k` toponyms of a document. */
  function FillInDoc(tb: Table, ts: seq<Toponym>, k: nat, lex: Lexicon): (tb': Table)
    requires Valid(lex) && |tb| == Size(lex) && Known(lex, ts) && k <= |ts|
    ensures |tb'| == |tb|
  {
    if k == 0 then tb else FillOne(FillInDoc(tb, ts, k - 1, lex), ts[k - 1], lex)
  }

  function FillInCorpus(tb: Table, lists: Lists, n: nat, lex: Lexicon): (tb': Table)
    requires Valid(lex) && |tb| == Size(lex) && AllKnown(lex, lists) && n <= |lists|
    ensures |tb'| == |tb|
  {
    if n == 0 then tb else FillInDoc(FillInCorpus(tb, lists, n - 1, lex), lists[n - 1], |lists[n - 1]|, lex)
  }

  /** `expandWeightsArray`: the old weights when they already have a list
      per lexicon index; otherwise the old lists at their indices, null
      after them, and `initializeWeights` over the corpus. */
  function Expanded(prior: Table, lex: Lexicon, lists: Lists): (tb: Table)
    requires Valid(lex) && AllKnown(lex, lists)
  {
    if |prior| >= Size(lex) then prior
    else FillInCorpus(prior + NoRows(Size(lex) - |prior|), lists, |lists|, lex)
  }

  // ---------------------------------------------------------------------
  // The rows have each type's number of candidates

  /** Toponyms of the same form have the same number of candidates. */
  ghost predicate Agree(S: set<Toponym>) {
    forall s, t :: s in S && t in S && s.Ambiguity() > 0 && t.Ambiguity() > 0 && s.form == t.form ==>
      s.Ambiguity() == t.Ambiguity()
  }

  /** The number of candidates of each form, where the toponyms agree. */
  ghost function AmbOf(S: set<Toponym>): (A: map<string, nat>)
    requires Agree(S)
  {
    map t | t in S && t.Ambiguity() > 0 :: t.form := t.Ambiguity()
  }

  /** `A` gives the number of candidates of every toponym of `ts` that has
      any. */
  ghost predicate AgreeIn(ts: seq<Toponym>, A: map<string, nat>) {
    forall k :: 0 <= k < |ts| && ts[k].Ambiguity() > 0 ==> ts[k].form in A && A[ts[k].form] == ts[k].Ambiguity()
  }

  /** `A` is positive and agrees with every document of `lists`. */
  ghost predicate AgreeWith(lists: Lists, A: map<string, nat>) {
    && (forall f :: f in A ==> A[f] > 0)
    && forall n :: 0 <= n < |lists| ==> AgreeIn(lists[n], A)
  }

  lemma AgreeAsMap(lists: Lists)
    requires Agree(ListSet(lists))
    ensures AgreeWith(lists, AmbOf(ListSet(lists)))
  {
    var S := ListSet(lists);
    var A := AmbOf(S);
    forall f | f in A
      ensures A[f] > 0
    {
      var t :| t in S && t.Ambiguity() > 0 && t.form == f;
    }
    forall n, k | 0 <= n < |lists| && 0 <= k < |lists[n]| && lists[n][k].Ambiguity() > 0
      ensures lists[n][k].form in A && A[lists[n][k].form] == lists[n][k].Ambiguity()
    {
      var t := lists[n][k];
      assert t in S;
      var u :| u in S && u.Ambiguity() > 0 && u.form == t.form && A[t.form] == u.Ambiguity();
    }
  }

  /** Every row of `tb` that `tb0` lacked holds 1.0 for each candidate of
      its type, and every row `tb0` had is unchanged. */
  ghost predicate FilledFrom(tb0: Table, tb: Table, lex: Lexicon, A: map<string, nat>) {
    && |tb| == |tb0| <= |lex.forms|
    && forall i :: 0 <= i < |tb0| ==>
         && (tb0[i].Some? ==> tb[i] == tb0[i])
         && (tb0[i].None? && tb[i].Some? ==> lex.forms[i] in A && tb[i].value == Ones(A[lex.forms[i]]))
  }

  /** Every toponym of the first `k` of `ts` that has candidates has a row. */
  ghost predicate RowsFor<T>(tb: seq<Option<T>>, lex: Lexicon, ts: seq<Toponym>, k: nat)
    requires Known(lex, ts) && k <= |ts|
  {
    forall j :: 0 <= j < k && ts[j].Ambiguity() > 0 ==> lex.index[ts[j].form] < |tb| && tb[lex.index[ts[j].form]].Some?
  }

  ghost predicate RowsForAll<T>(tb: seq<Option<T>>, lex: Lexicon, lists: Lists, n: nat)
    requires AllKnown(lex, lists) && n <= |lists|
  {
    forall m :: 0 <= m < n ==> RowsFor(tb, lex, lists[m], |lists[m]|)
  }

  lemma RowsForAllStep<T>(tb: seq<Option<T>>, lex: Lexicon, lists: Lists, n: nat)
    requires AllKnown(lex, lists) && 0 < n <= |lists|
    requires RowsForAll(tb, lex, lists, n - 1) && RowsFor(tb, lex, lists[n - 1], |lists[n - 1]|)
    ensures RowsForAll(tb, lex, lists, n)
  {
  }

  /** A row once present stays as it is. */
  lemma KeepsRows<T>(tb: seq<Option<T>>, tb': seq<Option<T>>, lex: Lexicon, ts: seq<Toponym>, k: nat)
    requires Known(lex, ts) && k <= |ts| && |tb| == |tb'|
    requires forall i :: 0 <= i < |tb| && tb[i].Some? ==> tb'[i] == tb[i]
    requires RowsFor(tb, lex, ts, k)
    ensures RowsFor(tb', lex, ts, k)
  {
  }

  lemma KeepsRowsAll<T>(tb: seq<Option<T>>, tb': seq<Option<T>>, lex: Lexicon, lists: Lists, n: nat)
    requires AllKnown(lex, lists) && n <= |lists| && |tb| == |tb'|
    requires forall i :: 0 <= i < |tb| && tb[i].Some? ==> tb'[i] == tb[i]
    requires RowsForAll(tb, lex, lists, n)
    ensures RowsForAll(tb', lex, lists, n)
  {
    forall m | 0 <= m < n
      ensures RowsFor(tb', lex, lists[m], |lists[m]|)
    {
      KeepsRows(tb, tb', lex, lists[m], |lists[m]|);
    }
  }

  /** The toponym `t` agrees with `A`. */
  ghost predicate AgreesAt(t: Toponym, A: map<string, nat>) {
    t.Ambiguity() > 0 ==> t.form in A && A[t.form] == t.Ambiguity()
  }

  lemma FillOneFills(tb: Table, t: Toponym, lex: Lexicon, A: map<string, nat>)
    requires Valid(lex) && |tb| == Size(lex) && (t.Ambiguity() > 0 ==> t.form in lex.index) && AgreesAt(t, A)
    ensures FilledFrom(tb, FillOne(tb, t, lex), lex, A)
    ensures t.Ambiguity() > 0 ==> FillOne(tb, t, lex)[lex.index[t.form]].Some?
  {
  }

  lemma {:induction false} FillInDocFills(tb: Table, ts: seq<Toponym>, k: nat, lex: Lexicon, A: map<string, nat>)
    requires Valid(lex) && |tb| == Size(lex) && Known(lex, ts) && k <= |ts|
    requires AgreeIn(ts, A)
    ensures FilledFrom(tb, FillInDoc(tb, ts, k, lex), lex, A)
    ensures RowsFor(FillInDoc(tb, ts, k, lex), lex, ts, k)
  {
    if k > 0 {
      FillInDocFills(tb, ts, k - 1, lex, A);
      var prev := FillInDoc(tb, ts, k - 1, lex);
      var r := FillInDoc(tb, ts, k, lex);
      assert r == FillOne(prev, ts[k - 1], lex);
      assert AgreesAt(ts[k - 1], A);
      FillOneFills(prev, ts[k - 1], lex, A);
      FilledTransitive(tb, prev, r, lex, A);
      assert forall i :: 0 <= i < |prev| && prev[i].Some? ==> r[i] == prev[i] by {
        assert FilledFrom(prev, r, lex, A);
      }
      KeepsRows(prev, r, lex, ts, k - 1);
    }
  }

  lemma FilledTransitive(tb0: Table, tb1: Table, tb2: Table, lex: Lexicon, A: map<string, nat>)
    requires FilledFrom(tb0, tb1, lex, A) && FilledFrom(tb1, tb2, lex, A)
    ensures FilledFrom(tb0, tb2, lex, A)
  {
  }

  lemma {:induction false} FillInCorpusFills(tb: Table, lists: Lists, n: nat, lex: Lexicon, A: map<string, nat>)
    requires Valid(lex) && |tb| == Size(lex) && AllKnown(lex, lists) && n <= |lists| && AgreeWith(lists, A)
    ensures FilledFrom(tb, FillInCorpus(tb, lists, n, lex), lex, A)
    ensures RowsForAll(FillInCorpus(tb, lists, n, lex), lex, lists, n)
  {
    if n > 0 {
      FillInCorpusFills(tb, lists, n - 1, lex, A);
      var mid := FillInCorpus(tb, lists, n - 1, lex);
      var r := FillInCorpus(tb, lists, n, lex);
      FillInDocFills(mid, lists[n - 1], |lists[n - 1]|, lex, A);
      FilledTransitive(tb, mid, r, lex, A);
      assert forall i :: 0 <= i < |mid| && mid[i].Some? ==> r[i] == mid[i] by {
        assert FilledFrom(mid, r, lex, A);
      }
      KeepsRowsAll(mid, r, lex, lists, n - 1);
    }
  }

  /** Every row of the counts that `st0` lacked is there with its weights,
      both with the type's number of candidates, and every row `st0` had
      is unchanged. */
  ghost predicate InitFrom(st0: Rows, st: Rows, lex: Lexicon, A: map<string, nat>) {
    && |st0.counts| == |st0.weights| == |st.counts| == |st.weights| <= |lex.forms|
    && forall i :: 0 <= i < |st0.counts| ==>
         && (st0.counts[i].Some? ==> st.counts[i] == st0.counts[i] && st.weights[i] == st0.weights[i])
         && (st0.counts[i].None? && st.counts[i].Some? ==>
               && st.weights[i].Some? && lex.forms[i] in A
               && |st.counts[i].value| == A[lex.forms[i]] && |st.weights[i].value| == A[lex.forms[i]])
  }

  lemma InitKeeps(st0: Rows, st: Rows, lex: Lexicon, A: map<string, nat>)
    requires InitFrom(st0, st, lex, A)
    ensures forall i :: 0 <= i < |st0.counts| && st0.counts[i].Some? ==> st.counts[i] == st0.counts[i]
  {
  }

  lemma InitTransitive(st0: Rows, st1: Rows, st2: Rows, lex: Lexicon, A: map<string, nat>)
    requires InitFrom(st0, st1, lex, A) && InitFrom(st1, st2, lex, A)
    ensures InitFrom(st0, st2, lex, A)
  {
  }

  lemma InitOneInits(st: Rows, t: Toponym, lex: Lexicon, initialCount: int, file: FileWeights, A: map<string, nat>)
    requires Valid(lex) && Sized(st, lex) && (t.Ambiguity() > 0 ==> t.form in lex.index) && FileFits(file, lex, t)
    requires AgreesAt(t, A)
    ensures InitFrom(st, InitOne(st, t, lex, initialCount, file), lex, A)
    ensures t.Ambiguity() > 0 ==> InitOne(st, t, lex, initialCount, file).counts[lex.index[t.form]].Some?
  {
  }

  lemma {:induction false} InitInDocInits(st: Rows, ts: seq<Toponym>, k: nat, lex: Lexicon, initialCount: int,
                                          file: FileWeights, A: map<string, nat>)
    requires Valid(lex) && Sized(st, lex) && Known(lex, ts) && k <= |ts|
    requires forall j :: 0 <= j < |ts| ==> FileFits(file, lex, ts[j])
    requires AgreeIn(ts, A)
    ensures InitFrom(st, InitInDoc(st, ts, k, lex, initialCount, file), lex, A)
    ensures RowsFor(InitInDoc(st, ts, k, lex, initialCount, file).counts, lex, ts, k)
  {
    if k > 0 {
      InitInDocInits(st, ts, k - 1, lex, initialCount, file, A);
      var prev := InitInDoc(st, ts, k - 1, lex, initialCount, file);
      var r := InitInDoc(st, ts, k, lex, initialCount, file);
      assert r == InitOne(prev, ts[k - 1], lex, initialCount, file);
      assert AgreesAt(ts[k - 1], A);
      InitOneInits(prev, ts[k - 1], lex, initialCount, file, A);
      InitTransitive(st, prev, r, lex, A);
      InitKeeps(prev, r, lex, A);
      KeepsRows(prev.counts, r.counts, lex, ts, k - 1);
    }
  }

  lemma {:induction false} InitInCorpusInits(st: Rows, lists: Lists, n: nat, lex: Lexicon, initialCount: int,
                                             file: FileWeights, A: map<string, nat>)
    requires Valid(lex) && Sized(st, lex) && AllKnown(lex, lists) && FileFitsAll(file, lex, lists) && n <= |lists|
    requires AgreeWith(lists, A)
    ensures InitFrom(st, InitInCorpus(st, lists, n, lex, initialCount, file), lex, A)
    ensures RowsForAll(InitInCorpus(st, lists, n, lex, initialCount, file).counts, lex, lists, n)
  {
    if n > 0 {
      InitInCorpusInits(st, lists, n - 1, lex, initialCount, file, A);
      var mid := InitInCorpus(st, lists, n - 1, lex, initialCount, file);
      var r := InitInCorpus(st, lists, n, lex, initialCount, file);
      var ts := lists[n - 1];
      assert forall j :: 0 <= j < |ts| ==> FileFits(file, lex, ts[j]);
      InitInDocInits(mid, ts, |ts|, lex, initialCount, file, A);
      InitTransitive(st, mid, r, lex, A);
      InitKeeps(mid, r, lex, A);
      KeepsRowsAll(mid.counts, r.counts, lex, lists, n - 1);
      RowsForAllStep(r.counts, lex, lists, n);
    }
  }

  /** The forms of the toponyms of `lists` that have candidates. */
  ghost function ListForms(lists: Lists): set<string> {
    set n, k | 0 <= n < |lists| && 0 <= k < |lists[n]| && lists[n][k].Ambiguity() > 0 :: lists[n][k].form
  }

  /** No type has a row yet. */
  function Nulls(lex: Lexicon): (st: Rows)
    ensures Sized(st, lex)
  {
    Rows(NoRows(Size(lex)), NoRows(Size(lex)))
  }

  /** Every weight list is present and not empty. */
  ghost predicate Full(tb: Table) {
    forall i :: 0 <= i < |tb| ==> tb[i].Some? && |tb[i].value| > 0
  }

  /** What `train` iterates from: when every form of the lexicon is the
      form of a toponym of the corpus with candidates, and toponyms of a
      form agree on their number of candidates, every type has a count list
      and a weight list with its number of candidates, so every lookup of a
      pass succeeds. */
  lemma InitializedShaped(lists: Lists, lex: Lexicon, initialCount: int, file: FileWeights, A: map<string, nat>)
    requires Valid(lex) && AllKnown(lex, lists) && FileFitsAll(file, lex, lists) && AgreeWith(lists, A)
    requires forall f :: f in lex.index ==> f in ListForms(lists)
    ensures var st := InitInCorpus(Nulls(lex), lists, |lists|, lex, initialCount, file);
      Shaped(st.weights, st.counts) && Full(st.weights) && TableFits(st.weights, lex, lists)
  {
    var st0 := Nulls(lex);
    var st := InitInCorpus(st0, lists, |lists|, lex, initialCount, file);
    InitInCorpusInits(st0, lists, |lists|, lex, initialCount, file, A);
    forall i | 0 <= i < Size(lex)
      ensures st.counts[i].Some? && st.weights[i].Some? && |st.counts[i].value| == |st.weights[i].value| > 0
    {
      var f := lex.forms[i];
      assert f in ListForms(lists);
      var n, k :| 0 <= n < |lists| && 0 <= k < |lists[n]| && lists[n][k].Ambiguity() > 0 && lists[n][k].form == f;
      assert RowsFor(st.counts, lex, lists[n], |lists[n]|);
      assert AgreeIn(lists[n], A);
    }
    forall n, k | 0 <= n < |lists| && 0 <= k < |lists[n]|
      ensures Fits(st.weights, lex, lists[n][k])
    {
      assert AgreeIn(lists[n], A);
    }
  }

  /** The toponyms of `ts` whose type is below `|prior|` fit `prior`. */
  ghost predicate FitsBelow(prior: Table, lex: Lexicon, ts: seq<Toponym>) {
    forall k :: 0 <= k < |ts| && ts[k].Ambiguity() > 0 && ts[k].form in lex.index && lex.index[ts[k].form] < |prior| ==>
      Fits(prior, lex, ts[k])
  }

  /** `expandWeightsArray` returns the old table when it has a list per
      lexicon index. Otherwise it keeps every old list at its index, and
      every type that gets a list gets 1.0 for each of its candidates (the
      number the first toponym of the type has), and every toponym with
      candidates of the corpus gets one. */
  lemma ExpandedRows(prior: Table, lex: Lexicon, lists: Lists, A: map<string, nat>)
    requires Valid(lex) && AllKnown(lex, lists) && AgreeWith(lists, A)
    ensures var tb := Expanded(prior, lex, lists);
      && (|prior| >= Size(lex) ==> tb == prior)
      && (|prior| < Size(lex) ==>
            && |tb| == Size(lex)
            && (forall i :: 0 <= i < |prior| && prior[i].Some? ==> tb[i] == prior[i])
            && (forall i :: 0 <= i < |tb| && (i >= |prior| || prior[i].None?) && tb[i].Some? ==>
                  lex.forms[i] in A && tb[i].value == Ones(A[lex.forms[i]]))
            && RowsForAll(tb, lex, lists, |lists|))
  {
    if |prior| < Size(lex) {
      var base := prior + NoRows(Size(lex) - |prior|);
      FillInCorpusFills(base, lists, |lists|, lex, A);
    }
  }

  /** After `expandWeightsArray`, when the old lists were all present and
      the toponyms of old types fit them, every list is present and every
      lookup of the final pass succeeds. */
  lemma ExpandedFits(prior: Table, lex: Lexicon, lists: Lists, A: map<string, nat>)
    requires Valid(lex) && AllKnown(lex, lists) && AgreeWith(lists, A)
    requires |prior| <= Size(lex) && Full(prior)
    requires forall n :: 0 <= n < |lists| ==> FitsBelow(prior, lex, lists[n])
    requires forall f :: f in lex.index && lex.index[f] >= |prior| ==> f in ListForms(lists)
    ensures var tb := Expanded(prior, lex, lists);
      |tb| == Size(lex) && Full(tb) && TableFits(tb, lex, lists)
  {
    var tb := Expanded(prior, lex, lists);
    ExpandedRows(prior, lex, lists, A);
    forall i | |prior| <= i < |tb|
      ensures tb[i].Some? && |tb[i].value| > 0
    {
      var f := lex.forms[i];
      assert f in ListForms(lists);
      var n, k :| 0 <= n < |lists| && 0 <= k < |lists[n]| && lists[n][k].Ambiguity() > 0 && lists[n][k].form == f;
      assert RowsFor(tb, lex, lists[n], |lists[n]|);
    }
    forall n, k | 0 <= n < |lists| && 0 <= k < |lists[n]|
      ensures Fits(tb, lex, lists[n][k])
    {
      assert AgreeIn(lists[n], A);
      assert FitsBelow(prior, lex, lists[n]);
    }
  }

  // ---------------------------------------------------------------------
  // finalDisambiguationStep: the selections

  /** The selections after the final pass over the first `k` toponyms of a
      document: each toponym with a winner selects it, the others keep
      their selection. No selection feeds back into the choice, which
      reads only the weights and the distances. */
  function SelectInDoc(sel: Selections, ts: seq<Toponym>, k: nat, tb: Table, lex: Lexicon, dist: Distance)
    : (sel': Selections)
    requires AllFit(tb, lex, ts) && k <= |ts|
  {
    if k == 0 then sel
    else
      var prev := SelectInDoc(sel, ts, k - 1, tb, lex, dist);
      var t := ts[k - 1];
      var w := Winner(t, ts, tb, lex, dist);
      if w == -1 then prev else prev[t := w]
  }

  /** The selections after the final pass over the first `n` documents. */
  function SelectInCorpus(sel: Selections, lists: Lists, n: nat, tb: Table, lex: Lexicon, dist: Distance)
    : (sel': Selections)
    requires TableFits(tb, lex, lists) && n <= |lists|
  {
    if n == 0 then sel
    else SelectInDoc(SelectInCorpus(sel, lists, n - 1, tb, lex, dist), lists[n - 1], |lists[n - 1]|, tb, lex, dist)
  }

  /** Every selection of `sel'` is the one of `sel`, or a candidate index
      of a toponym of `S`. */
  ghost predicate KeepsOrRanges(sel: Selections, sel': Selections, S: set<Toponym>) {
    && sel'.Keys == sel.Keys
    && forall t :: t in sel' ==> sel'[t] == sel[t] || (t in S && 0 <= sel'[t] < t.Ambiguity())
  }

  lemma KeepsOrRangesTransitive(sel0: Selections, sel1: Selections, sel2: Selections, S: set<Toponym>)
    requires KeepsOrRanges(sel0, sel1, S) && KeepsOrRanges(sel1, sel2, S)
    ensures KeepsOrRanges(sel0, sel2, S)
  {
  }

  /** What `KeepsOrRanges` says of a set of toponyms holds of any part of
      it, read against the selections that part started with. */
  lemma KeepsOrRangesOn(T: set<Toponym>, selT: Selections, sel: Selections, sel': Selections, S: set<Toponym>)
    requires T <= S && selT.Keys == T && T <= sel.Keys
    requires forall t :: t in T ==> selT[t] == sel[t]
    requires KeepsOrRanges(sel, sel', S)
    ensures forall t :: t in T ==> t in sel' && (sel'[t] == selT[t] || 0 <= sel'[t] < t.Ambiguity())
  {
  }

  /** The final pass over a document changes only the selections of its
      own toponyms, and only to an index within their candidates. */
  lemma {:induction false} SelectInDocRanges(sel: Selections, ts: seq<Toponym>, k: nat, tb: Table, lex: Lexicon,
                                             dist: Distance, S: set<Toponym>)
    requires AllFit(tb, lex, ts) && k <= |ts| && Covered(ts, sel) && forall j :: 0 <= j < |ts| ==> ts[j] in S
    ensures KeepsOrRanges(sel, SelectInDoc(sel, ts, k, tb, lex, dist), S)
  {
    if k > 0 {
      SelectInDocRanges(sel, ts, k - 1, tb, lex, dist, S);
      var prev := SelectInDoc(sel, ts, k - 1, tb, lex, dist);
      var r := SelectInDoc(sel, ts, k, tb, lex, dist);
      var t := ts[k - 1];
      var w := Winner(t, ts, tb, lex, dist);
      if w == -1 {
        assert r == prev;
      } else {
        assert r == prev[t := w];
        assert t in S;
        assert KeepsOrRanges(prev, r, S);
        KeepsOrRangesTransitive(sel, prev, r, S);
      }
    }
  }

  /** The final pass over a corpus changes only the selections of the
      toponyms it visits, and only to an index within their candidates. */
  lemma {:induction false} SelectInCorpusRanges(sel: Selections, lists: Lists, n: nat, tb: Table, lex: Lexicon,
                                                dist: Distance)
    requires TableFits(tb, lex, lists) && n <= |lists| && ListSet(lists) <= sel.Keys
    ensures KeepsOrRanges(sel, SelectInCorpus(sel, lists, n, tb, lex, dist), ListSet(lists))
  {
    if n > 0 {
      SelectInCorpusRanges(sel, lists, n - 1, tb, lex, dist);
      var mid := SelectInCorpus(sel, lists, n - 1, tb, lex, dist);
      var ts := lists[n - 1];
      assert forall j :: 0 <= j < |ts| ==> ts[j] in ListSet(lists);
      SelectInDocRanges(mid, ts, |ts|, tb, lex, dist, ListSet(lists));
      KeepsOrRangesTransitive(sel, mid, SelectInCorpus(sel, lists, n, tb, lex, dist), ListSet(lists));
    }
  }

  /** A toponym the first `k` of `ts` do not hold keeps its selection. */
  lemma {:induction false} SelectInDocAway(sel: Selections, ts: seq<Toponym>, k: nat, tb: Table, lex: Lexicon,
                                           dist: Distance, t: Toponym)
    requires AllFit(tb, lex, ts) && k <= |ts| && t in sel && forall j :: 0 <= j < k ==> ts[j] != t
    ensures t in SelectInDoc(sel, ts, k, tb, lex, dist) && SelectInDoc(sel, ts, k, tb, lex, dist)[t] == sel[t]
  {
    if k > 0 {
      SelectInDocAway(sel, ts, k - 1, tb, lex, dist, t);
    }
  }

  /** A toponym that the first `k` of `ts` hold only at `j` ends with the
      winner of that occurrence, or its old selection when there is none. */
  lemma {:induction false} SelectInDocAt(sel: Selections, ts: seq<Toponym>, k: nat, tb: Table, lex: Lexicon,
                                         dist: Distance, j: nat)
    requires AllFit(tb, lex, ts) && j < k <= |ts| && ts[j] in sel
    requires forall i :: 0 <= i < k && i != j ==> ts[i] != ts[j]
    ensures var t, w, r := ts[j], Winner(ts[j], ts, tb, lex, dist), SelectInDoc(sel, ts, k, tb, lex, dist);
      t in r && r[t] == if w == -1 then sel[t] else w
  {
    var t := ts[j];
    if j == k - 1 {
      SelectInDocAway(sel, ts, k - 1, tb, lex, dist, t);
    } else {
      SelectInDocAt(sel, ts, k - 1, tb, lex, dist, j);
    }
  }

  /** A toponym the first `n` documents do not hold keeps its selection. */
  lemma {:induction false} SelectInCorpusAway(sel: Selections, lists: Lists, n: nat, tb: Table, lex: Lexicon,
                                              dist: Distance, t: Toponym)
    requires TableFits(tb, lex, lists) && n <= |lists| && t in sel
    requires forall m, i :: 0 <= m < n && 0 <= i < |lists[m]| ==> lists[m][i] != t
    ensures t in SelectInCorpus(sel, lists, n, tb, lex, dist) && SelectInCorpus(sel, lists, n, tb, lex, dist)[t] == sel[t]
  {
    if n > 0 {
      SelectInCorpusAway(sel, lists, n - 1, tb, lex, dist, t);
      var ts := lists[n - 1];
      SelectInDocAway(SelectInCorpus(sel, lists, n - 1, tb, lex, dist), ts, |ts|, tb, lex, dist, t);
    }
  }

  /** A toponym that occurs once in the first `n` documents, at `lists[m][j]`,
      ends with the winner of that occurrence, or keeps its selection when
      there is none. */
  lemma {:induction false} SelectInCorpusAt(sel: Selections, lists: Lists, n: nat, tb: Table, lex: Lexicon,
                                            dist: Distance, m: nat, j: nat)
    requires TableFits(tb, lex, lists) && m < n <= |lists| && j < |lists[m]| && lists[m][j] in sel
    requires forall p, i :: 0 <= p < n && 0 <= i < |lists[p]| && (p, i) != (m, j) ==> lists[p][i] != lists[m][j]
    ensures var t, w, r := lists[m][j], Winner(lists[m][j], lists[m], tb, lex, dist),
                           SelectInCorpus(sel, lists, n, tb, lex, dist);
      t in r && r[t] == if w == -1 then sel[t] else w
  {
    var t := lists[m][j];
    var ts := lists[n - 1];
    var mid := SelectInCorpus(sel, lists, n - 1, tb, lex, dist);
    if m == n - 1 {
      SelectInCorpusAway(sel, lists, n - 1, tb, lex, dist, t);
      SelectInDocAt(mid, ts, |ts|, tb, lex, dist, j);
    } else {
      SelectInCorpusAt(sel, lists, n - 1, tb, lex, dist, m, j);
      assert forall i :: 0 <= i < |ts| ==> ts[i] != t;
      SelectInDocAway(mid, ts, |ts|, tb, lex, dist, t);
    }
  }

  /** The toponym at `lists[m][j]` occurs nowhere else in `lists`. */
  predicate OnlyAt(lists: Lists, m: nat, j: nat)
    requires m < |lists| && j < |lists[m]|
  {
    forall p, i :: 0 <= p < |lists| && 0 <= i < |lists[p]| && (p, i) != (m, j) ==> lists[p][i] != lists[m][j]
  }

  /** After the final pass over a corpus, every toponym that occurs once has
      the winner of its document, or its old selection when there is none. */
  lemma SelectInCorpusWinners(sel: Selections, lists: Lists, tb: Table, lex: Lexicon, dist: Distance)
    requires TableFits(tb, lex, lists) && ListSet(lists) <= sel.Keys
    ensures forall m, j :: 0 <= m < |lists| && 0 <= j < |lists[m]| && OnlyAt(lists, m, j) ==>
      var t, w, r := lists[m][j], Winner(lists[m][j], lists[m], tb, lex, dist), SelectInCorpus(sel, lists, |lists|, tb, lex, dist);
      t in r && r[t] == if w == -1 then sel[t] else w
  {
    forall m, j | 0 <= m < |lists| && 0 <= j < |lists[m]| && OnlyAt(lists, m, j)
      ensures var t, w, r := lists[m][j], Winner(lists[m][j], lists[m], tb, lex, dist), SelectInCorpus(sel, lists, |lists|, tb, lex, dist);
        t in r && r[t] == if w == -1 then sel[t] else w
    {
      ListSetHolds(lists, m);
      SelectInCorpusAt(sel, lists, |lists|, tb, lex, dist, m, j);
    }
  }
}
