/** `AccuracyEvaluator`: scores a corpus that carries both gold and selected
    indices, on the assumption that the gold named entities were used. */
module Accuracy {
  import opened Folds
  import opened Text
  import opened Reports

  /** The report after scoring the toponyms `ts` one after another: a
      toponym without a gold index is skipped; one with a gold index is a
      true positive when the selected index equals it, and otherwise only
      counts as an instance. */
  function Tally(r: Report, ts: seq<Toponym>): Report
    reads ts
  {
    if ts == [] then r
    else
      var prev := Tally(r, ts[..|ts| - 1]);
      var t := ts[|ts| - 1];
      if !t.HasGold() then prev
      else if t.goldIdx == t.selectedIdx then IncrementTP(prev)
      else IncrementInstanceCount(prev)
  }

  /** The positions of `ts[..n]` whose toponym has a gold index. */
  function GoldPositions(ts: seq<Toponym>, n: nat): set<nat>
    requires n <= |ts|
  {
    set k: nat | k < n && ts[k].HasGold()
  }

  /** The positions of `ts[..n]` whose toponym has a gold index equal to its
      selected index. */
  function CorrectPositions(ts: seq<Toponym>, n: nat): set<nat>
    requires n <= |ts|
    reads ts
  {
    set k: nat | k < n && ts[k].HasGold() && ts[k].goldIdx == ts[k].selectedIdx
  }

  lemma PositionsStep(ts: seq<Toponym>, n: nat)
    requires 0 < n <= |ts|
    ensures GoldPositions(ts, n) == GoldPositions(ts, n - 1) + (if ts[n - 1].HasGold() then {n - 1} else {})
    ensures CorrectPositions(ts, n) == CorrectPositions(ts, n - 1) +
      (if ts[n - 1].HasGold() && ts[n - 1].goldIdx == ts[n - 1].selectedIdx then {n - 1} else {})
    ensures |GoldPositions(ts, n)| == |GoldPositions(ts, n - 1)| + (if ts[n - 1].HasGold() then 1 else 0)
    ensures |CorrectPositions(ts, n)| == |CorrectPositions(ts, n - 1)| +
      (if ts[n - 1].HasGold() && ts[n - 1].goldIdx == ts[n - 1].selectedIdx then 1 else 0)
  {
    assert n - 1 !in GoldPositions(ts, n - 1) && n - 1 !in CorrectPositions(ts, n - 1);
  }

  /** Scoring never touches the false-positive or false-negative counters;
      the true positives are exactly the gold toponyms whose selected index
      is the gold index; every gold toponym adds exactly one to true
      positives or instances, and no other toponym adds anything. */
  lemma {:induction false} TallyCounts(r: Report, ts: seq<Toponym>)
    ensures Tally(r, ts).fp == r.fp && Tally(r, ts).fn == r.fn
    ensures Tally(r, ts).tp == r.tp + |CorrectPositions(ts, |ts|)|
    ensures Tally(r, ts).tp + Tally(r, ts).instances == r.tp + r.instances + |GoldPositions(ts, |ts|)|
  {
    if ts != [] {
      var n := |ts|;
      var init := ts[..n - 1];
      TallyCounts(r, init);
      PrefixPositions(ts, n - 1);
      PositionsStep(ts, n);
    }
  }

  /** The positions below `n` depend only on the first `n` toponyms. */
  lemma PrefixPositions(ts: seq<Toponym>, n: nat)
    requires n <= |ts|
    ensures GoldPositions(ts[..n], n) == GoldPositions(ts, n)
    ensures CorrectPositions(ts[..n], n) == CorrectPositions(ts, n)
  {
    assert forall k :: 0 <= k < n ==> ts[..n][k] == ts[k];
  }

  /** Scoring a concatenation is scoring its parts one after the other. */
  lemma {:induction false} TallyConcat(r: Report, xs: seq<Toponym>, ys: seq<Toponym>)
    ensures Tally(r, xs + ys) == Tally(Tally(r, xs), ys)
  {
    if ys == [] {
      assert xs + ys == xs;
    } else {
      TallyConcat(r, xs, ys[..|ys| - 1]);
      assert (xs + ys)[..|xs + ys| - 1] == xs + ys[..|ys| - 1];
    }
  }

  /** The toponym loop of `evaluate()` for one sentence. */
  method ScoreToponyms(r: Report, ts: seq<Toponym>) returns (report: Report)
    ensures report == Tally(r, ts)
  {
    report := r;
    var k := 0;
    while k < |ts|
      invariant 0 <= k <= |ts|
      invariant report == Tally(r, ts[..k])
    {
      var toponym := ts[k];
      assert ts[..k + 1][..k] == ts[..k];
      if toponym.HasGold() {
        if toponym.goldIdx == toponym.selectedIdx {
          report := IncrementTP(report);
        } else {
          report := IncrementInstanceCount(report);
        }
      }
      k := k + 1;
    }
    assert ts[..k] == ts;
  }

  class AccuracyEvaluator {
    const corpus: seq<Document>

    constructor (corpus: seq<Document>)
      ensures this.corpus == corpus
    {
      this.corpus := corpus;
    }

    /** `evaluate()`: walks documents, sentences and toponyms in order. */
    method Evaluate() returns (report: Report)
      ensures report == Tally(NewReport(), CorpusToponyms(corpus))
    {
      report := NewReport();
      var d := 0;
      while d < |corpus|
        invariant 0 <= d <= |corpus|
        invariant report == Tally(NewReport(), CorpusToponyms(corpus[..d]))
      {
        var doc := corpus[d];
        var done := CorpusToponyms(corpus[..d]);
        var s := 0;
        while s < |doc.sentences|
          invariant 0 <= s <= |doc.sentences|
          invariant report == Tally(Tally(NewReport(), done), Concat(doc.sentences[..s]))
        {
          var ts := SentenceToponyms(doc.sentences[s]);
          ghost var x := Tally(Tally(NewReport(), done), Concat(doc.sentences[..s]));
          report := ScoreToponyms(report, ts);
          assert x == Tally(Tally(NewReport(), done), Concat(doc.sentences[..s]));
          assert doc.sentences[..s + 1][..s] == doc.sentences[..s];
          assert Concat(doc.sentences[..s + 1]) == Concat(doc.sentences[..s]) + ts;
          TallyConcat(Tally(NewReport(), done), Concat(doc.sentences[..s]), ts);
          s := s + 1;
        }
        assert doc.sentences[..s] == doc.sentences;
        assert corpus[..d + 1][..d] == corpus[..d];
        assert CorpusToponyms(corpus[..d + 1]) == done + DocToponyms(doc);
        TallyConcat(NewReport(), done, DocToponyms(doc));
        d := d + 1;
      }
      assert corpus[..d] == corpus;
    }

    /** `evaluate(pred, useSelected)`: not supported by this evaluator;
        returns no report whatever it is given. */
    method EvaluatePred(pred: seq<Document>, useSelected: bool) returns (report: Option<Report>)
      ensures report == None
    {
      report := None;
    }
  }

  /** What `evaluate()` promises: no false positives or negatives, the true
      positives are the gold toponyms whose selected index is the gold
      index, and true positives plus instances is the number of gold
      toponyms in the corpus. */
  lemma EvaluateCounts(corpus: seq<Document>)
    ensures var r := Tally(NewReport(), CorpusToponyms(corpus));
      var ts := CorpusToponyms(corpus);
      && r.fp == 0 && r.fn == 0
      && r.tp == |CorrectPositions(ts, |ts|)|
      && r.tp + r.instances == |GoldPositions(ts, |ts|)|
  {
    TallyCounts(NewReport(), CorpusToponyms(corpus));
  }
}
