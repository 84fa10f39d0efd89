/** `SharedNEEvaluator`: scores a predicted corpus against a gold corpus
    that shares its named entities. Documents, then sentences, are walked in
    lockstep, and the toponyms of two aligned sentences are paired by
    position. A predicted toponym with a selection is right when the gold
    candidate whose centre is nearest to the selected region is the gold
    one. */
module SharedNE {
  import opened Folds
  import opened Geometry
  import opened Text
  import opened Reports

  function Min(a: nat, b: nat): nat {
    if a < b then a else b
  }

  // ---------------------------------------------------------------------
  // The nearest gold candidate

  /** The distance from region `r` to the centre of candidate `c`. */
  function CenterDistance(r: Region, c: Location, cd: (Coordinate, Coordinate) -> real): ExtReal {
    DistanceToCoordinate(r, Center(c.region), cd)
  }

  /** The distance from a region to the centre of each candidate. */
  function CenterDistances(r: Region, cands: seq<Location>, cd: (Coordinate, Coordinate) -> real): (ds: seq<ExtReal>)
    ensures |ds| == |cands|
  {
    if cands == [] then []
    else CenterDistances(r, cands[..|cands| - 1], cd) + [CenterDistance(r, cands[|cands| - 1], cd)]
  }

  lemma {:induction false} CenterDistancesAt(r: Region, cands: seq<Location>, cd: (Coordinate, Coordinate) -> real, j: nat)
    requires j < |cands|
    ensures CenterDistances(r, cands, cd)[j] == CenterDistance(r, cands[j], cd)
  {
    if j < |cands| - 1 {
      CenterDistancesAt(r, cands[..|cands| - 1], cd, j);
    }
  }

  /** The index of the gold candidate nearest to region `r`, as the loop
      keeps it: the first strict minimum, and -1 when no distance is finite. */
  function NearestCandidate(r: Region, cands: seq<Location>, cd: (Coordinate, Coordinate) -> real): int {
    FirstArgMin(CenterDistances(r, cands, cd), Inf)
  }

  /** The nearest candidate is -1 exactly when no candidate's centre is at a
      finite distance from `r` (in particular when there are no
      candidates); otherwise its centre is at a finite distance, no
      candidate's centre is strictly nearer, and every earlier candidate's
      centre is strictly farther. */
  lemma NearestCandidateIsFirstNearest(r: Region, cands: seq<Location>, cd: (Coordinate, Coordinate) -> real)
    ensures var k := NearestCandidate(r, cands, cd);
      && -1 <= k < |cands|
      && (k == -1 <==> forall j :: 0 <= j < |cands| ==> CenterDistance(r, cands[j], cd).Inf?)
      && (k != -1 ==>
            && CenterDistance(r, cands[k], cd).Fin?
            && (forall j :: 0 <= j < |cands| ==> !Below(CenterDistance(r, cands[j], cd), CenterDistance(r, cands[k], cd)))
            && (forall j :: 0 <= j < k ==> Below(CenterDistance(r, cands[k], cd), CenterDistance(r, cands[j], cd))))
  {
    var ds := CenterDistances(r, cands, cd);
    forall j | 0 <= j < |cands|
      ensures ds[j] == CenterDistance(r, cands[j], cd)
    {
      CenterDistancesAt(r, cands, cd, j);
    }
    MinScanIsFirstArgMin(ds, Inf);
  }

  // ---------------------------------------------------------------------
  // Judgements

  /** What the walk makes of a gold toponym and a predicted toponym with
      selection `sel`: the gold index, and, when there is a selection, the
      index of the gold candidate nearest to the selected region (`None`
      without a selection). */
  datatype Judgement = Judgement(goldIdx: int, nearest: Option<int>)

  function Judge(gold: Toponym, pred: Toponym, sel: int, cd: (Coordinate, Coordinate) -> real): Judgement
    requires sel < pred.Ambiguity()
  {
    Judgement(gold.goldIdx,
              if sel >= 0 then Some(NearestCandidate(pred.candidates[sel].region, gold.candidates, cd))
              else None)
  }

  /** A pair is a true positive when the predicted toponym has a selection
      and the gold candidate nearest to the selected region is the gold
      one. */
  predicate Hit(j: Judgement) {
    j.nearest == Some(j.goldIdx)
  }

  /** Scoring one judgement: a hit is a true positive, anything else only
      counts as an instance. */
  function Score(r: Report, j: Judgement): Report {
    if Hit(j) then IncrementTP(r) else IncrementInstanceCount(r)
  }

  // ---------------------------------------------------------------------
  // The walk, loop by loop

  /** Each pair of sentences walked in lockstep has as many gold as
      predicted toponyms (what the source asserts). */
  predicate SentencesAligned(gs: seq<Sentence>, ps: seq<Sentence>) {
    forall m :: 0 <= m < |gs| && m < |ps| ==> |SentenceToponyms(gs[m])| == |SentenceToponyms(ps[m])|
  }

  predicate Aligned(gold: seq<Document>, pred: seq<Document>) {
    forall n :: 0 <= n < |gold| && n < |pred| ==> SentencesAligned(gold[n].sentences, pred[n].sentences)
  }

  /** The report after the first `n` toponym pairs of two aligned
      sentences. */
  function TallyToponyms(r: Report, golds: seq<Toponym>, preds: seq<Toponym>, sel: Selections,
                         cd: (Coordinate, Coordinate) -> real, n: nat): Report
    requires n <= |golds| == |preds| && SelectionsValid(sel)
  {
    if n == 0 then r
    else Score(TallyToponyms(r, golds, preds, sel, cd, n - 1), Judge(golds[n - 1], preds[n - 1], SelOf(sel, preds[n - 1]), cd))
  }

  /** The report after the first `m` sentence pairs of two documents. */
  function TallySentences(r: Report, gs: seq<Sentence>, ps: seq<Sentence>, sel: Selections,
                          cd: (Coordinate, Coordinate) -> real, m: nat): Report
    requires m <= |gs| && m <= |ps| && SentencesAligned(gs, ps) && SelectionsValid(sel)
  {
    if m == 0 then r
    else
      var golds, preds := SentenceToponyms(gs[m - 1]), SentenceToponyms(ps[m - 1]);
      TallyToponyms(TallySentences(r, gs, ps, sel, cd, m - 1), golds, preds, sel, cd, |golds|)
  }

  /** The report after the first `n` document pairs. */
  function TallyDocs(r: Report, gold: seq<Document>, pred: seq<Document>, sel: Selections,
                     cd: (Coordinate, Coordinate) -> real, n: nat): Report
    requires n <= |gold| && n <= |pred| && Aligned(gold, pred) && SelectionsValid(sel)
  {
    if n == 0 then r
    else
      var gs, ps := gold[n - 1].sentences, pred[n - 1].sentences;
      TallySentences(TallyDocs(r, gold, pred, sel, cd, n - 1), gs, ps, sel, cd, Min(|gs|, |ps|))
  }

  /** The candidate loop of `evaluate`: the first candidate whose centre
      is strictly nearest to `r`, or -1. */
  method NearestIndex(r: Region, candidates: seq<Location>, cd: (Coordinate, Coordinate) -> real)
    returns (minIdx: int)
    ensures minIdx == NearestCandidate(r, candidates, cd)
  {
    ghost var ds := CenterDistances(r, candidates, cd);
    var minDist := Inf;
    minIdx := -1;
    var j := 0;
    while j < |candidates|
      invariant 0 <= j <= |candidates|
      invariant (minDist, minIdx) == MinScan(ds[..j], Inf)
    {
      assert ds[..j + 1][..j] == ds[..j];
      var dist := CenterDistance(r, candidates[j], cd);
      CenterDistancesAt(r, candidates, cd, j);
      if Below(dist, minDist) {
        minDist := dist;
        minIdx := j;
      }
      j := j + 1;
    }
    assert ds[..j] == ds;
  }

  /** The body of the toponym loop of `evaluate`: the predicted toponym
      is judged against the gold one and the report counts the verdict. */
  method ScoreToponym(r: Report, gold: Toponym, pred: Toponym, cd: (Coordinate, Coordinate) -> real,
                      ghost sel: Selections)
    returns (report: Report)
    requires SelectionsValid(sel) && SelectionsAre(sel) && pred in sel
    ensures report == Score(r, Judge(gold, pred, SelOf(sel, pred), cd))
  {
    assert pred.selectedIdx == SelOf(sel, pred);
    if pred.HasSelected() {
      var predRegion := pred.candidates[pred.selectedIdx].region;
      var minIdx := NearestIndex(predRegion, gold.candidates, cd);
      if minIdx == gold.goldIdx {
        report := IncrementTP(r);
      } else {
        report := IncrementInstanceCount(r);
      }
    } else {
      report := IncrementInstanceCount(r);
    }
  }

  /** The toponym loop of `evaluate` for one pair of aligned sentences;
      `sel` holds the current selections of (at least) `preds`. */
  method ScoreSentence(r: Report, golds: seq<Toponym>, preds: seq<Toponym>, cd: (Coordinate, Coordinate) -> real,
                       ghost sel: Selections)
    returns (report: Report)
    requires |golds| == |preds| && SelectionsValid(sel) && SelectionsAre(sel) && Covered(preds, sel)
    ensures SelectionsAre(sel)
    ensures report == TallyToponyms(r, golds, preds, sel, cd, |golds|)
  {
    report := r;
    var i := 0;
    while i < |golds|
      invariant 0 <= i <= |golds|
      invariant SelectionsAre(sel)
      invariant report == TallyToponyms(r, golds, preds, sel, cd, i)
    {
      report := ScoreToponym(report, golds[i], preds[i], cd, sel);
      i := i + 1;
    }
  }

  /** The sentence loop of `evaluate` for one pair of documents. */
  method ScoreDocument(r: Report, gs: seq<Sentence>, ps: seq<Sentence>, cd: (Coordinate, Coordinate) -> real,
                       ghost sel: Selections)
    returns (report: Report)
    requires SentencesAligned(gs, ps) && SelectionsValid(sel) && SelectionsAre(sel) && SentencesCovered(ps, sel)
    ensures SelectionsAre(sel)
    ensures report == TallySentences(r, gs, ps, sel, cd, Min(|gs|, |ps|))
  {
    report := r;
    var s := 0;
    while s < |gs| && s < |ps|
      invariant 0 <= s <= Min(|gs|, |ps|)
      invariant SelectionsAre(sel)
      invariant report == TallySentences(r, gs, ps, sel, cd, s)
    {
      var goldToponyms := SentenceToponyms(gs[s]);
      var predToponyms := SentenceToponyms(ps[s]);
      report := ScoreSentence(report, goldToponyms, predToponyms, cd, sel);
      s := s + 1;
    }
  }

  // ---------------------------------------------------------------------
  // What the walk computes

  /** A pair is a true positive exactly when the predicted toponym has a
      selection and the gold index is the first candidate whose centre is
      strictly nearest to the selected region; a gold index of -1 is hit
      when no gold candidate's centre is at a finite distance. */
  lemma HitMeaning(gold: Toponym, pred: Toponym, s: int, cd: (Coordinate, Coordinate) -> real)
    requires s < pred.Ambiguity()
    ensures Hit(Judge(gold, pred, s, cd)) <==>
      && s >= 0
      && var r, cands, k := pred.candidates[s].region, gold.candidates, gold.goldIdx;
         if k == -1 then forall j :: 0 <= j < |cands| ==> CenterDistance(r, cands[j], cd).Inf?
         else
           && 0 <= k < |cands|
           && CenterDistance(r, cands[k], cd).Fin?
           && (forall j :: 0 <= j < |cands| ==> !Below(CenterDistance(r, cands[j], cd), CenterDistance(r, cands[k], cd)))
           && (forall j :: 0 <= j < k ==> Below(CenterDistance(r, cands[k], cd), CenterDistance(r, cands[j], cd)))
  {
    if s >= 0 {
      var r, cands, k := pred.candidates[s].region, gold.candidates, gold.goldIdx;
      NearestCandidateIsFirstNearest(r, cands, cd);
      var m := NearestCandidate(r, cands, cd);
      if k == -1 && m != -1 {
        assert CenterDistance(r, cands[m], cd).Fin?;
      } else if 0 <= k < |cands| && m != k && m != -1 {
        if m < k {
          assert !Below(CenterDistance(r, cands[k], cd), CenterDistance(r, cands[m], cd));
        } else {
          assert Below(CenterDistance(r, cands[m], cd), CenterDistance(r, cands[k], cd));
        }
      }
    }
  }

  /** Scoring judgements one after another. */
  function Tally(r: Report, js: seq<Judgement>): Report {
    if js == [] then r else Score(Tally(r, js[..|js| - 1]), js[|js| - 1])
  }

  lemma {:induction false} TallyConcat(r: Report, xs: seq<Judgement>, ys: seq<Judgement>)
    ensures Tally(r, xs + ys) == Tally(Tally(r, xs), ys)
  {
    if ys == [] {
      assert xs + ys == xs;
    } else {
      TallyConcat(r, xs, ys[..|ys| - 1]);
      assert (xs + ys)[..|xs + ys| - 1] == xs + ys[..|ys| - 1];
    }
  }

  /** The positions of the hits among `js`. */
  function HitPositions(js: seq<Judgement>): set<nat> {
    set k: nat | k < |js| && Hit(js[k])
  }

  lemma HitPositionsStep(js: seq<Judgement>)
    requires js != []
    ensures |HitPositions(js)| == |HitPositions(js[..|js| - 1])| + (if Hit(js[|js| - 1]) then 1 else 0)
  {
    var n := |js| - 1;
    var init := js[..n];
    assert HitPositions(js) == HitPositions(init) + (if Hit(js[n]) then {n} else {});
    assert n !in HitPositions(init);
  }

  /** Scoring judgements touches neither false positives nor false
      negatives, adds one true positive per hit, and adds exactly one to
      true positives or instances per judgement. */
  lemma {:induction false} TallyCounts(r: Report, js: seq<Judgement>)
    ensures Tally(r, js).fp == r.fp && Tally(r, js).fn == r.fn
    ensures Tally(r, js).tp == r.tp + |HitPositions(js)|
    ensures Tally(r, js).tp + Tally(r, js).instances == r.tp + r.instances + |js|
  {
    if js != [] {
      TallyCounts(r, js[..|js| - 1]);
      HitPositionsStep(js);
    }
  }

  /** The judgements of the first `n` toponym pairs of two aligned
      sentences. */
  function Judgements(golds: seq<Toponym>, preds: seq<Toponym>, sel: Selections,
                      cd: (Coordinate, Coordinate) -> real, n: nat): (js: seq<Judgement>)
    requires n <= |golds| == |preds| && SelectionsValid(sel)
    ensures |js| == n
  {
    if n == 0 then []
    else Judgements(golds, preds, sel, cd, n - 1) + [Judge(golds[n - 1], preds[n - 1], SelOf(sel, preds[n - 1]), cd)]
  }

  /** The judgements of the first `m` sentence pairs of two documents. */
  function SentenceJudgements(gs: seq<Sentence>, ps: seq<Sentence>, sel: Selections,
                              cd: (Coordinate, Coordinate) -> real, m: nat): seq<Judgement>
    requires m <= |gs| && m <= |ps| && SentencesAligned(gs, ps) && SelectionsValid(sel)
  {
    if m == 0 then []
    else
      var golds, preds := SentenceToponyms(gs[m - 1]), SentenceToponyms(ps[m - 1]);
      SentenceJudgements(gs, ps, sel, cd, m - 1) + Judgements(golds, preds, sel, cd, |golds|)
  }

  /** The judgements of the first `n` document pairs, in walk order. */
  function CorpusJudgements(gold: seq<Document>, pred: seq<Document>, sel: Selections,
                            cd: (Coordinate, Coordinate) -> real, n: nat): seq<Judgement>
    requires n <= |gold| && n <= |pred| && Aligned(gold, pred) && SelectionsValid(sel)
  {
    if n == 0 then []
    else
      var gs, ps := gold[n - 1].sentences, pred[n - 1].sentences;
      CorpusJudgements(gold, pred, sel, cd, n - 1) + SentenceJudgements(gs, ps, sel, cd, Min(|gs|, |ps|))
  }

  /** Each loop scores its judgements in walk order. */
  lemma {:induction false} TallyToponymsFlat(r: Report, golds: seq<Toponym>, preds: seq<Toponym>, sel: Selections,
                                             cd: (Coordinate, Coordinate) -> real, n: nat)
    requires n <= |golds| == |preds| && SelectionsValid(sel)
    ensures TallyToponyms(r, golds, preds, sel, cd, n) == Tally(r, Judgements(golds, preds, sel, cd, n))
  {
    if n > 0 {
      TallyToponymsFlat(r, golds, preds, sel, cd, n - 1);
      var js := Judgements(golds, preds, sel, cd, n);
      assert js[..n - 1] == Judgements(golds, preds, sel, cd, n - 1);
    }
  }

  lemma {:induction false} TallySentencesFlat(r: Report, gs: seq<Sentence>, ps: seq<Sentence>, sel: Selections,
                                              cd: (Coordinate, Coordinate) -> real, m: nat)
    requires m <= |gs| && m <= |ps| && SentencesAligned(gs, ps) && SelectionsValid(sel)
    ensures TallySentences(r, gs, ps, sel, cd, m) == Tally(r, SentenceJudgements(gs, ps, sel, cd, m))
  {
    if m > 0 {
      var golds, preds := SentenceToponyms(gs[m - 1]), SentenceToponyms(ps[m - 1]);
      TallySentencesFlat(r, gs, ps, sel, cd, m - 1);
      TallyToponymsFlat(TallySentences(r, gs, ps, sel, cd, m - 1), golds, preds, sel, cd, |golds|);
      TallyConcat(r, SentenceJudgements(gs, ps, sel, cd, m - 1), Judgements(golds, preds, sel, cd, |golds|));
    }
  }

  lemma {:induction false} TallyDocsFlat(r: Report, gold: seq<Document>, pred: seq<Document>, sel: Selections,
                                         cd: (Coordinate, Coordinate) -> real, n: nat)
    requires n <= |gold| && n <= |pred| && Aligned(gold, pred) && SelectionsValid(sel)
    ensures TallyDocs(r, gold, pred, sel, cd, n) == Tally(r, CorpusJudgements(gold, pred, sel, cd, n))
  {
    if n > 0 {
      var gs, ps := gold[n - 1].sentences, pred[n - 1].sentences;
      TallyDocsFlat(r, gold, pred, sel, cd, n - 1);
      TallySentencesFlat(TallyDocs(r, gold, pred, sel, cd, n - 1), gs, ps, sel, cd, Min(|gs|, |ps|));
      TallyConcat(r, CorpusJudgements(gold, pred, sel, cd, n - 1), SentenceJudgements(gs, ps, sel, cd, Min(|gs|, |ps|)));
    }
  }

  /** What `evaluate` promises: no false positives or negatives, one true
      positive per hit, and exactly one increment per aligned toponym
      pair. */
  lemma EvaluateCounts(gold: seq<Document>, pred: seq<Document>, sel: Selections, cd: (Coordinate, Coordinate) -> real)
    requires Aligned(gold, pred) && SelectionsValid(sel)
    ensures var n := Min(|gold|, |pred|);
      var r, js := TallyDocs(NewReport(), gold, pred, sel, cd, n), CorpusJudgements(gold, pred, sel, cd, n);
      && r.fp == 0 && r.fn == 0
      && r.tp == |HitPositions(js)|
      && r.tp + r.instances == |js|
  {
    var n := Min(|gold|, |pred|);
    TallyDocsFlat(NewReport(), gold, pred, sel, cd, n);
    TallyCounts(NewReport(), CorpusJudgements(gold, pred, sel, cd, n));
  }

  /** The walk stops as soon as either corpus runs out: only the first `n`
      documents of each side play a part. */
  lemma {:induction false} LockstepPrefix(r: Report, gold: seq<Document>, pred: seq<Document>, sel: Selections,
                                          cd: (Coordinate, Coordinate) -> real, n: nat)
    requires n <= |gold| && n <= |pred| && Aligned(gold, pred) && SelectionsValid(sel)
    ensures Aligned(gold[..n], pred[..n])
    ensures TallyDocs(r, gold, pred, sel, cd, n) == TallyDocs(r, gold[..n], pred[..n], sel, cd, n)
    decreases n
  {
    assert forall k :: 0 <= k < n ==> gold[..n][k] == gold[k] && pred[..n][k] == pred[k];
    if n > 0 {
      LockstepPrefix(r, gold, pred, sel, cd, n - 1);
      assert gold[..n][..n - 1] == gold[..n - 1] && pred[..n][..n - 1] == pred[..n - 1];
      LockstepPrefix(r, gold[..n], pred[..n], sel, cd, n - 1);
    }
  }

  /** Predicted documents beyond the end of the gold corpus are never
      looked at. */
  lemma IgnoresSurplus(gold: seq<Document>, pred: seq<Document>, sel: Selections, cd: (Coordinate, Coordinate) -> real)
    requires |gold| <= |pred| && Aligned(gold, pred) && SelectionsValid(sel)
    ensures Aligned(gold, pred[..|gold|])
    ensures TallyDocs(NewReport(), gold, pred, sel, cd, Min(|gold|, |pred|))
         == TallyDocs(NewReport(), gold, pred[..|gold|], sel, cd, |gold|)
  {
    assert Min(|gold|, |pred|) == |gold| && gold[..|gold|] == gold;
    LockstepPrefix(NewReport(), gold, pred, sel, cd, |gold|);
  }

  class SharedNEEvaluator {
    /** The gold corpus. */
    const corpus: seq<Document>
    /** The distance between two coordinates. */
    const cd: (Coordinate, Coordinate) -> real

    constructor (corpus: seq<Document>, cd: (Coordinate, Coordinate) -> real)
      ensures this.corpus == corpus && this.cd == cd
    {
      this.corpus := corpus;
      this.cd := cd;
    }

    /** The pass over the `d`-th document pair, carrying the tally over the
        first `d` pairs to the first `d + 1`. */
    method ScoreDocumentAt(r: Report, gold: seq<Document>, pred: seq<Document>, cd: (Coordinate, Coordinate) -> real,
                           ghost sel: Selections, d: nat)
      returns (report: Report)
      requires d < |gold| && d < |pred| && Aligned(gold, pred)
      requires SelectionsValid(sel) && SelectionsAre(sel) && CorpusCovered(pred, sel)
      requires r == TallyDocs(NewReport(), gold, pred, sel, cd, d)
      ensures SelectionsAre(sel)
      ensures report == TallyDocs(NewReport(), gold, pred, sel, cd, d + 1)
    {
      report := ScoreDocument(r, gold[d].sentences, pred[d].sentences, cd, sel);
    }

    /** `evaluate(pred, useSelected)`; `useSelected` plays no part. */
    method Evaluate(pred: seq<Document>, useSelected: bool) returns (report: Report)
      requires Aligned(corpus, pred)
      requires SelectionsValid(Snapshot(ToponymSet(pred)))
      ensures report == TallyDocs(NewReport(), corpus, pred, Snapshot(ToponymSet(pred)), cd, Min(|corpus|, |pred|))
    {
      ghost var sel := Snapshot(ToponymSet(pred));
      SnapshotIsCurrent(ToponymSet(pred), sel);
      SnapshotCovers(pred);
      report := NewReport();
      var d := 0;
      while d < |corpus| && d < |pred|
        invariant 0 <= d <= Min(|corpus|, |pred|)
        invariant SelectionsAre(sel)
        invariant report == TallyDocs(NewReport(), corpus, pred, sel, cd, d)
      {
        report := ScoreDocumentAt(report, corpus, pred, cd, sel, d);
        d := d + 1;
      }
      SnapshotIsCurrent(ToponymSet(pred), sel);
    }

    /** `evaluate()`: the gold corpus scored against itself. */
    method EvaluateOwn() returns (report: Report)
      requires Aligned(corpus, corpus)
      requires SelectionsValid(Snapshot(ToponymSet(corpus)))
      ensures report == TallyDocs(NewReport(), corpus, corpus, Snapshot(ToponymSet(corpus)), cd, |corpus|)
    {
      report := Evaluate(corpus, false);
    }

    /** `evaluate(pred)`: the same as `evaluate(pred, false)`. */
    method EvaluateDefault(pred: seq<Document>) returns (report: Report)
      requires Aligned(corpus, pred)
      requires SelectionsValid(Snapshot(ToponymSet(pred)))
      ensures report == TallyDocs(NewReport(), corpus, pred, Snapshot(ToponymSet(pred)), cd, Min(|corpus|, |pred|))
    {
      report := Evaluate(pred, false);
    }
  }
}
