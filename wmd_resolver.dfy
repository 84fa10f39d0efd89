/** `WeightedMinDistResolver`: the resolver object with its weights, its
    toponym lexicon and the synthetic toponyms it adds per document, and the
    loops of `train` and `disambiguate` over a corpus. Each loop is proved
    against the fold of the `Tables` or `Scoring` module that states what it
    computes. */
module Resolver {
  import opened Folds
  import opened Geometry
  import opened Text
  import opened Lexicons
  import opened Scoring
  import opened Tables

  /** How the document-level gold coordinate enters: not at all, or as an
      extra toponym per document whose one candidate is that coordinate. */
  datatype DocumentCoord = No | AddTopo

  /** `PHANTOM_COUNT`: the count every candidate starts each pass with. */
  const PhantomCount: nat := 0

  /** The prefix of every synthetic toponym's form. */
  const SynthPrefix: string := "__TOPO_"

  /** The decimal digits of `n`, as Java prints an `int`. */
  function Digits(n: nat): (s: string)
    ensures |s| > 0 && forall k :: 0 <= k < |s| ==> '0' <= s[k] <= '9'
  {
    var d := ['0' + (n % 10) as char];
    if n < 10 then d else Digits(n / 10) + d
  }

  /** The number a string of decimal digits denotes. */
  function DigitsValue(s: string): nat
    requires forall k :: 0 <= k < |s| ==> '0' <= s[k] <= '9'
  {
    if s == [] then 0 else DigitsValue(s[..|s| - 1]) * 10 + (s[|s| - 1] - '0') as nat
  }

  /** Printing a number and reading it back gives the number: distinct
      document indices give distinct digit strings. */
  lemma {:induction false} DigitsRoundTrip(n: nat)
    ensures DigitsValue(Digits(n)) == n
  {
    if n >= 10 {
      DigitsRoundTrip(n / 10);
      var s := Digits(n);
      assert s[..|s| - 1] == Digits(n / 10);
    }
  }

  /** The form of the synthetic toponym of a document with id `id` that
      got document index `k`. */
  function SynthForm(id: string, k: nat): (f: string)
    ensures |f| >= |SynthPrefix| && f[..|SynthPrefix|] == SynthPrefix
  {
    SynthPrefix + id + "_" + Digits(k) + "__"
  }

  predicate IsSynthForm(f: string) {
    |f| >= |SynthPrefix| && f[..|SynthPrefix|] == SynthPrefix
  }

  /** A synthetic toponym: one candidate, and a form with the synthetic
      prefix. */
  predicate SynthShaped(t: Toponym) {
    t.Ambiguity() == 1 && IsSynthForm(t.form)
  }

  /** `iterToponyms` of a document: its toponyms, sentence after sentence,
      then its synthetic toponym when the gold coordinate is added as a
      toponym. */
  function DocListWith(doc: Document, docTopo: DocumentCoord, synth: map<Document, Toponym>): seq<Toponym> {
    DocToponyms(doc) + if docTopo == AddTopo && doc in synth then [synth[doc]] else []
  }

  /** `iterToponyms` of every document of a corpus. */
  function ListsWith(corpus: seq<Document>, docTopo: DocumentCoord, synth: map<Document, Toponym>): (lists: Lists)
    ensures |lists| == |corpus|
    ensures forall n :: 0 <= n < |corpus| ==> lists[n] == DocListWith(corpus[n], docTopo, synth)
  {
    seq(|corpus|, n requires 0 <= n < |corpus| => DocListWith(corpus[n], docTopo, synth))
  }

  /** Every synthetic toponym is shaped as `initializeSyntheticToponyms`
      makes it. */
  predicate AllSynthShaped(synth: map<Document, Toponym>) {
    forall d :: d in synth ==> SynthShaped(synth[d])
  }

  /** Toponyms of the corpus with the same form have the same number of
      candidates (the gazetteer gives a form one candidate list), and when
      synthetic toponyms are added, a toponym of the corpus whose form looks
      synthetic has at most one candidate. Under this, every weight lookup
      of `train` and `disambiguate` succeeds. */
  ghost predicate CorpusAgrees(corpus: seq<Document>, docTopo: DocumentCoord) {
    && Agree(ToponymSet(corpus))
    && (docTopo == AddTopo ==> forall t :: t in ToponymSet(corpus) && IsSynthForm(t.form) ==> t.Ambiguity() <= 1)
  }

  /** `g` is the form of a toponym of the corpus with candidates: a form
      `TopoUtil` adds to the lexicon. */
  ghost predicate CorpusForm(corpus: seq<Document>, g: string) {
    exists k :: 0 <= k < |CorpusToponyms(corpus)| && CorpusToponyms(corpus)[k].Ambiguity() > 0
                && CorpusToponyms(corpus)[k].form == g
  }

  /** `g` is the form of the synthetic toponym of a document of the
      corpus. */
  ghost predicate SynthFormOf(corpus: seq<Document>, docTopo: DocumentCoord, synth: map<Document, Toponym>,
                              g: string) {
    docTopo == AddTopo && exists n :: 0 <= n < |corpus| && corpus[n] in synth && synth[corpus[n]].form == g
  }

  /** Every index a lexicon had, it keeps. */
  ghost predicate Extends(lex: Lexicon, lex': Lexicon) {
    forall g :: g in lex.index ==> g in lex'.index && lex'.index[g] == lex.index[g]
  }

  /** Each toponym of a document is among the corpus's toponyms. */
  lemma {:induction false} DocInCorpus(corpus: seq<Document>, n: nat, j: nat)
    requires n < |corpus| && j < |DocToponyms(corpus[n])|
    ensures DocToponyms(corpus[n])[j] in CorpusToponyms(corpus)
  {
    var init := corpus[..|corpus| - 1];
    if n < |corpus| - 1 {
      assert init[n] == corpus[n];
      DocInCorpus(init, n, j);
    }
  }

  /** Each toponym of the corpus is a toponym of one of its documents. */
  lemma {:induction false} CorpusInDocs(corpus: seq<Document>, t: Toponym)
    requires t in CorpusToponyms(corpus)
    ensures exists n, j :: 0 <= n < |corpus| && 0 <= j < |DocToponyms(corpus[n])| && DocToponyms(corpus[n])[j] == t
  {
    var init := corpus[..|corpus| - 1];
    var last := DocToponyms(corpus[|corpus| - 1]);
    if t in CorpusToponyms(init) {
      CorpusInDocs(init, t);
      var n, j :| 0 <= n < |init| && 0 <= j < |DocToponyms(init[n])| && DocToponyms(init[n])[j] == t;
      assert init[n] == corpus[n];
    } else {
      var j :| 0 <= j < |last| && last[j] == t;
      assert DocToponyms(corpus[|corpus| - 1])[j] == t;
    }
  }

  /** Every toponym of the corpus is visited by `iterToponyms`. */
  lemma RealListed(corpus: seq<Document>, docTopo: DocumentCoord, synth: map<Document, Toponym>, t: Toponym)
    requires t in ToponymSet(corpus)
    ensures var lists := ListsWith(corpus, docTopo, synth);
      t in ListSet(lists) && (t.Ambiguity() > 0 ==> t.form in ListForms(lists))
  {
    var lists: seq<seq<Toponym>> := ListsWith(corpus, docTopo, synth);
    CorpusInDocs(corpus, t);
    var n, j :| 0 <= n < |corpus| && 0 <= j < |DocToponyms(corpus[n])| && DocToponyms(corpus[n])[j] == t;
    assert lists[n][j] == t;
  }

  /** The synthetic toponym of a document of the corpus is visited by
      `iterToponyms`. */
  lemma SynthListed(corpus: seq<Document>, docTopo: DocumentCoord, synth: map<Document, Toponym>, n: nat)
    requires n < |corpus| && docTopo == AddTopo && corpus[n] in synth && SynthShaped(synth[corpus[n]])
    ensures var lists := ListsWith(corpus, docTopo, synth);
      synth[corpus[n]] in ListSet(lists) && synth[corpus[n]].form in ListForms(lists)
  {
    var lists: seq<seq<Toponym>> := ListsWith(corpus, docTopo, synth);
    assert lists[n][|lists[n]| - 1] == synth[corpus[n]];
  }

  /** A toponym `iterToponyms` visits is a toponym of the corpus or the
      synthetic toponym of one of its documents. */
  lemma ListedParts(corpus: seq<Document>, docTopo: DocumentCoord, synth: map<Document, Toponym>, t: Toponym)
    requires t in ListSet(ListsWith(corpus, docTopo, synth))
    ensures t in ToponymSet(corpus) || (docTopo == AddTopo && t in synth.Values)
  {
    var lists: seq<seq<Toponym>> := ListsWith(corpus, docTopo, synth);
    var n, k :| 0 <= n < |lists| && 0 <= k < |lists[n]| && lists[n][k] == t;
    if k < |DocToponyms(corpus[n])| {
      DocInCorpus(corpus, n, k);
    } else {
      assert t == synth[corpus[n]];
    }
  }

  /** The toponyms `iterToponyms` visits agree on the number of candidates
      of each form. */
  lemma ListsAgree(corpus: seq<Document>, docTopo: DocumentCoord, synth: map<Document, Toponym>)
    requires CorpusAgrees(corpus, docTopo) && AllSynthShaped(synth)
    ensures Agree(ListSet(ListsWith(corpus, docTopo, synth)))
  {
    var S := ListSet(ListsWith(corpus, docTopo, synth));
    forall s, t | s in S && t in S && s.Ambiguity() > 0 && t.Ambiguity() > 0 && s.form == t.form
      ensures s.Ambiguity() == t.Ambiguity()
    {
      ListedParts(corpus, docTopo, synth, s);
      ListedParts(corpus, docTopo, synth, t);
    }
  }

  /** `AllKnown` for a lexicon that holds the forms of the corpus's
      toponyms and of the synthetic toponyms of its documents. */
  lemma ListsKnown(corpus: seq<Document>, docTopo: DocumentCoord, synth: map<Document, Toponym>, lex: Lexicon)
    requires forall g :: CorpusForm(corpus, g) ==> g in lex.index
    requires docTopo == AddTopo ==> forall n :: 0 <= n < |corpus| ==> corpus[n] in synth && synth[corpus[n]].form in lex.index
    ensures AllKnown(lex, ListsWith(corpus, docTopo, synth))
  {
    var lists: seq<seq<Toponym>> := ListsWith(corpus, docTopo, synth);
    forall n: int, k: int | 0 <= n < |lists| && 0 <= k < |lists[n]| && lists[n][k].Ambiguity() > 0
      ensures lists[n][k].form in lex.index
    {
      if k < |DocToponyms(corpus[n])| {
        DocInCorpus(corpus, n, k);
        var t := lists[n][k];
        var i :| 0 <= i < |CorpusToponyms(corpus)| && CorpusToponyms(corpus)[i] == t;
        assert CorpusForm(corpus, t.form);
      }
    }
  }

  /** A form the lexicon gained beyond `base` is the form of a toponym
      `iterToponyms` visits. */
  lemma NewFormsListed(corpus: seq<Document>, docTopo: DocumentCoord, synth: map<Document, Toponym>, base: Lexicon,
                       lex: Lexicon)
    requires AllSynthShaped(synth)
    requires forall g :: g in lex.index ==> g in base.index || CorpusForm(corpus, g) || SynthFormOf(corpus, docTopo, synth, g)
    ensures forall g :: g in lex.index && g !in base.index ==> g in ListForms(ListsWith(corpus, docTopo, synth))
  {
    forall g | g in lex.index && g !in base.index
      ensures g in ListForms(ListsWith(corpus, docTopo, synth))
    {
      if CorpusForm(corpus, g) {
        var k :| 0 <= k < |CorpusToponyms(corpus)| && CorpusToponyms(corpus)[k].Ambiguity() > 0
                 && CorpusToponyms(corpus)[k].form == g;
        RealListed(corpus, docTopo, synth, CorpusToponyms(corpus)[k]);
      } else {
        var n :| 0 <= n < |corpus| && corpus[n] in synth && synth[corpus[n]].form == g;
        SynthListed(corpus, docTopo, synth, n);
      }
    }
  }

  /** What `train` starts its iterations from: with the lexicon built from
      the corpus and its synthetic toponyms, every type gets a count list
      and a weight list with its number of candidates, so every lookup of a
      pass succeeds. */
  lemma TrainingSetUp(corpus: seq<Document>, docTopo: DocumentCoord, synth: map<Document, Toponym>, base: Lexicon,
                      lex: Lexicon)
    requires Lexicons.Valid(lex) && CorpusAgrees(corpus, docTopo) && AllSynthShaped(synth)
    requires forall g :: g in base.index <==> CorpusForm(corpus, g)
    requires Extends(base, lex)
    requires forall g :: g in lex.index ==> g in base.index || SynthFormOf(corpus, docTopo, synth, g)
    requires docTopo == AddTopo ==> forall n :: 0 <= n < |corpus| ==> corpus[n] in synth && synth[corpus[n]].form in lex.index
    ensures AllKnown(lex, ListsWith(corpus, docTopo, synth))
    ensures var lists := ListsWith(corpus, docTopo, synth);
      var st := InitInCorpus(Nulls(lex), lists, |lists|, lex, PhantomCount, None);
      Shaped(st.weights, st.counts) && Full(st.weights) && TableFits(st.weights, lex, lists)
  {
    var lists := ListsWith(corpus, docTopo, synth);
    ListsKnown(corpus, docTopo, synth, lex);
    NewFormsListed(corpus, docTopo, synth, Empty(), lex);
    ListsAgree(corpus, docTopo, synth);
    AgreeAsMap(lists);
    InitializedShaped(lists, lex, PhantomCount, None, AmbOf(ListSet(lists)));
  }

  /** Every toponym of the corpus fits a table every pass over the corpus
      fits. */
  lemma CorpusFits(corpus: seq<Document>, docTopo: DocumentCoord, synth: map<Document, Toponym>, tb: Table,
                   lex: Lexicon)
    requires TableFits(tb, lex, ListsWith(corpus, docTopo, synth))
    ensures forall t :: t in ToponymSet(corpus) ==> Fits(tb, lex, t)
  {
    var lists: seq<seq<Toponym>> := ListsWith(corpus, docTopo, synth);
    forall t | t in ToponymSet(corpus)
      ensures Fits(tb, lex, t)
    {
      RealListed(corpus, docTopo, synth, t);
      var n, k :| 0 <= n < |lists| && 0 <= k < |lists[n]| && lists[n][k] == t;
      assert AllFit(tb, lex, lists[n]);
    }
  }

  /** A lexicon that extends a valid one is at least as large. */
  lemma ExtendsGrows(lex: Lexicon, lex': Lexicon)
    requires Lexicons.Valid(lex) && Lexicons.Valid(lex') && Extends(lex, lex')
    ensures Size(lex) <= Size(lex')
  {
    if Size(lex) > 0 {
      assert lex.forms[Size(lex) - 1] in lex.index;
    }
  }

  /** What `disambiguate` expands: the table trained with `lex0`, which
      every toponym of the corpus of a known form fits, stays valid for the
      extended lexicon, and `expandWeightsArray` gives a table every pass
      over the corpus fits. */
  lemma ExpansionSetUp(corpus: seq<Document>, docTopo: DocumentCoord, synth: map<Document, Toponym>, prior: Table,
                       lex0: Lexicon, lex: Lexicon)
    requires Lexicons.Valid(lex0) && Lexicons.Valid(lex) && CorpusAgrees(corpus, docTopo) && AllSynthShaped(synth)
    requires |prior| == Size(lex0) && Full(prior)
    requires forall t :: t in ToponymSet(corpus) && t.Ambiguity() > 0 && t.form in lex0.index ==> Fits(prior, lex0, t)
    requires Extends(lex0, lex)
    requires forall g :: g in lex.index ==> g in lex0.index || CorpusForm(corpus, g) || SynthFormOf(corpus, docTopo, synth, g)
    requires forall g :: CorpusForm(corpus, g) ==> g in lex.index
    requires docTopo == AddTopo ==> forall n :: 0 <= n < |corpus| ==> corpus[n] in synth && synth[corpus[n]].form in lex.index
    ensures AllKnown(lex, ListsWith(corpus, docTopo, synth))
    ensures var tb := Expanded(prior, lex, ListsWith(corpus, docTopo, synth));
      |tb| == Size(lex) && Full(tb) && TableFits(tb, lex, ListsWith(corpus, docTopo, synth))
  {
    var lists: seq<seq<Toponym>> := ListsWith(corpus, docTopo, synth);
    ListsKnown(corpus, docTopo, synth, lex);
    ListsAgree(corpus, docTopo, synth);
    AgreeAsMap(lists);
    ExtendsGrows(lex0, lex);
    forall n | 0 <= n < |lists|
      ensures FitsBelow(prior, lex, lists[n])
    {
      forall k | 0 <= k < |lists[n]| && lists[n][k].Ambiguity() > 0 && lists[n][k].form in lex.index
                 && lex.index[lists[n][k].form] < |prior|
        ensures Fits(prior, lex, lists[n][k])
      {
        var t := lists[n][k];
        var g := lex0.forms[lex.index[t.form]];
        IndexInjective(lex, g, t.form);
        ListedParts(corpus, docTopo, synth, t);
      }
    }
    forall g | g in lex.index && lex.index[g] >= |prior|
      ensures g !in lex0.index
    {
    }
    NewFormsListed(corpus, docTopo, synth, lex0, lex);
    ExpandedFits(prior, lex, lists, AmbOf(ListSet(lists)));
  }

  /** The first `n` documents of the corpus have a synthetic toponym whose
      form the lexicon holds. */
  ghost predicate Covers(corpus: seq<Document>, n: nat, synth: map<Document, Toponym>, lex: Lexicon)
    requires n <= |corpus|
  {
    forall m :: 0 <= m < n ==> corpus[m] in synth && synth[corpus[m]].form in lex.index
  }

  /** Every synthetic toponym of `synth` is still there in `synth'`. */
  ghost predicate KeepsEntries(synth: map<Document, Toponym>, synth': map<Document, Toponym>) {
    forall d :: d in synth ==> d in synth' && synth'[d] == synth[d]
  }

  /** Every form of `lex` is a form of `base` or of the synthetic toponym
      of one of the first `n` documents. */
  ghost predicate FromSynth(base: Lexicon, lex: Lexicon, corpus: seq<Document>, n: nat, synth: map<Document, Toponym>)
    requires n <= |corpus|
  {
    forall g :: g in lex.index ==>
      || g in base.index
      || exists m :: 0 <= m < n && corpus[m] in synth && synth[corpus[m]].form == g
  }

  /** `t` is the synthetic toponym `initializeSyntheticToponyms` makes for
      document `d` with a document index in `[lo, hi)`: its one candidate is
      a location named by its form at the document's gold coordinate, and it
      has neither a gold nor a selected index. */
  ghost predicate MadeFor(d: Document, t: Toponym, lo: nat, hi: nat)
    reads t
  {
    && (exists k :: lo <= k < hi && t.form == SynthForm(d.id, k))
    && t.candidates == [Location(t.form, PointRegion(d.goldCoord))]
    && t.goldIdx == -1 && t.selectedIdx == -1
  }

  /** Every synthetic toponym of `synth` not in `synth0` was made for one of
      the first `n` documents, with a document index in `[lo, hi)`. */
  ghost predicate NewMade(synth0: map<Document, Toponym>, synth: map<Document, Toponym>, corpus: seq<Document>,
                          n: nat, lo: nat, hi: nat)
    requires n <= |corpus|
    reads synth.Values
  {
    forall d :: d in synth && d !in synth0 ==> d in corpus[..n] && MadeFor(d, synth[d], lo, hi)
  }

  lemma NewMadeStep(synth0: map<Document, Toponym>, synth: map<Document, Toponym>, synth': map<Document, Toponym>,
                    corpus: seq<Document>, n: nat, lo: nat, hi: nat, hi': nat)
    requires n < |corpus| && hi <= hi' && NewMade(synth0, synth, corpus, n, lo, hi)
    requires synth' == synth || (corpus[n] !in synth && corpus[n] in synth' && synth' == synth[corpus[n] := synth'[corpus[n]]]
                                 && MadeFor(corpus[n], synth'[corpus[n]], lo, hi'))
    ensures NewMade(synth0, synth', corpus, n + 1, lo, hi')
  {
    assert corpus[..n + 1] == corpus[..n] + [corpus[n]];
    forall d | d in synth' && d !in synth0
      ensures d in corpus[..n + 1] && MadeFor(d, synth'[d], lo, hi')
    {
      if d in synth {
        assert synth'[d] == synth[d];
        var k :| lo <= k < hi && synth[d].form == SynthForm(d.id, k);
      }
    }
  }

  /** One step of `initializeSyntheticToponyms`: document `n` has its
      synthetic toponym, and its form is added to the lexicon. */
  lemma SynthStep(corpus: seq<Document>, n: nat, base: Lexicon, synth: map<Document, Toponym>,
                  synth': map<Document, Toponym>, lex: Lexicon)
    requires n < |corpus| && Lexicons.Valid(lex)
    requires Covers(corpus, n, synth, lex) && FromSynth(base, lex, corpus, n, synth)
    requires KeepsEntries(synth, synth') && corpus[n] in synth'
    ensures var lex' := GetOrAdd(lex, synth'[corpus[n]].form).0;
      Covers(corpus, n + 1, synth', lex') && FromSynth(base, lex', corpus, n + 1, synth') && Extends(lex, lex')
  {
    var lex' := GetOrAdd(lex, synth'[corpus[n]].form).0;
    forall g | g in lex'.index
      ensures || g in base.index
              || exists m :: 0 <= m < n + 1 && corpus[m] in synth' && synth'[corpus[m]].form == g
    {
      if g !in lex.index {
        assert corpus[n] in synth' && synth'[corpus[n]].form == g;
      } else if g !in base.index {
        var m :| 0 <= m < n && corpus[m] in synth && synth[corpus[m]].form == g;
        assert corpus[m] in synth' && synth'[corpus[m]].form == g;
      }
    }
  }

  /** The loop invariant of `initializeSyntheticToponyms` after `n`
      documents, with synthetic toponyms `synth`, lexicon `lex` and
      document index `index`, from `synth0`, `base` and `lo`. */
  ghost predicate UpTo(corpus: seq<Document>, n: nat, synth0: map<Document, Toponym>, base: Lexicon, lo: nat,
                       synth: map<Document, Toponym>, lex: Lexicon, index: nat)
    requires n <= |corpus|
    reads synth.Values
  {
    && Lexicons.Valid(lex) && AllSynthShaped(synth) && lo <= index
    && Covers(corpus, n, synth, lex)
    && KeepsEntries(synth0, synth)
    && NewMade(synth0, synth, corpus, n, lo, index)
    && Extends(base, lex)
    && FromSynth(base, lex, corpus, n, synth)
  }

  /** One step of `initializeSyntheticToponyms` keeps its loop invariant:
      document `n` has its synthetic toponym `top`, made new when it had
      none, and its form goes into the lexicon. */
  lemma UpToStep(corpus: seq<Document>, n: nat, synth0: map<Document, Toponym>, base: Lexicon, lo: nat,
                 synth: map<Document, Toponym>, lex: Lexicon, index: nat,
                 synth': map<Document, Toponym>, index': nat, top: Toponym)
    requires n < |corpus| && UpTo(corpus, n, synth0, base, lo, synth, lex, index)
    requires corpus[n] in synth' && top == synth'[corpus[n]] && KeepsEntries(synth, synth')
    requires || (synth' == synth && index' == index)
             || (&& corpus[n] !in synth && synth' == synth[corpus[n] := top] && index' == index + 1
                 && MadeFor(corpus[n], top, index, index') && SynthShaped(top))
    ensures UpTo(corpus, n + 1, synth0, base, lo, synth', GetOrAdd(lex, top.form).0, index')
  {
    SynthStep(corpus, n, base, synth, synth', lex);
    NewMadeStep(synth0, synth, synth', corpus, n, lo, index, index');
  }

  // ---------------------------------------------------------------------
  // Helpers of updateWeights that touch only their arguments

  /** The first loop of `updateWeights`: every count back to
      `initialCount`. */
  method ResetCounts(counts: Counts, initialCount: int, ghost tb: Table) returns (cs: Counts)
    requires Shaped(tb, counts)
    ensures cs == Reset(tb, counts, initialCount).counts
  {
    cs := counts;
    var i := 0;
    while i < |cs|
      invariant i <= |cs| == |counts|
      invariant forall p :: 0 <= p < i ==> cs[p] == Some(Constant(|counts[p].value|, initialCount))
      invariant forall p :: i <= p < |cs| ==> cs[p] == counts[p]
    {
      var row := cs[i].value;
      var j := 0;
      while j < |row|
        invariant j <= |row| == |counts[i].value|
        invariant forall q :: 0 <= q < j ==> row[q] == initialCount
      {
        row := row[j := initialCount];
        j := j + 1;
      }
      assert row == Constant(|counts[i].value|, initialCount);
      cs := cs[i := Some(row)];
      i := i + 1;
    }
  }

  /** The second loop of `updateWeights`: each sum starts at `initialCount`
      times the number of counts. */
  method InitialSums(cs: Counts, initialCount: int, ghost tb: Table, ghost counts: Counts) returns (sums: seq<int>)
    requires Shaped(tb, counts) && cs == Reset(tb, counts, initialCount).counts
    ensures sums == Reset(tb, counts, initialCount).sums
  {
    sums := [];
    var i := 0;
    while i < |cs|
      invariant i <= |cs|
      invariant |sums| == i && forall p :: 0 <= p < i ==> sums[p] == initialCount * |counts[p].value|
    {
      sums := sums + [initialCount * |cs[i].value|];
      i := i + 1;
    }
  }

  /** The last loop of `updateWeights`: every weight becomes its count over
      its type's sum, times the number of weights of the type. */
  method Renormalise(tl: Tally, tb: Table) returns (tb': Table)
    requires TallyShaped(tb, tl)
    ensures tb' == Renormalised(tl, tb)
  {
    tb' := tb;
    var i := 0;
    while i < |tb'|
      invariant i <= |tb'| == |tb|
      invariant forall p :: 0 <= p < i ==> tb'[p] == Some(RatioRow(tl.counts[p].value, tl.sums[p]))
      invariant forall p :: i <= p < |tb'| ==> tb'[p] == tb[p]
    {
      var curWeights := tb'[i].value;
      var curCounts := tl.counts[i].value;
      var curSum := tl.sums[i];
      var j := 0;
      while j < |curWeights|
        invariant j <= |curWeights| == |curCounts|
        invariant forall q :: 0 <= q < j ==> curWeights[q] == Ratio(curCounts[q], curSum, |curCounts|)
      {
        curWeights := curWeights[j := Ratio(curCounts[j], curSum, |curWeights|)];
        j := j + 1;
      }
      assert curWeights == RatioRow(curCounts, curSum);
      tb' := tb'[i := Some(curWeights)];
      i := i + 1;
    }
  }

  // ---------------------------------------------------------------------
  // Helpers of the initialisation loops

  /** A list of `m` nulls, as `train` and `expandWeightsArray` start their
      lists. */
  method NullRows<T>(m: nat) returns (rows: seq<Option<T>>)
    ensures rows == NoRows(m)
  {
    rows := [];
    var i := 0;
    while i < m
      invariant i <= m && |rows| == i && forall p :: 0 <= p < i ==> rows[p].None?
    {
      rows := rows + [None];
      i := i + 1;
    }
  }

  /** The lists `initializeCountsAndWeights` gives a new type of `amb`
      candidates with index `index`: `initialCount` for each candidate, and
      the file's weights when it has a non-empty list for the type, 1.0 each
      otherwise. */
  method NewRows(amb: nat, index: nat, initialCount: int, file: FileWeights) returns (cRow: seq<int>, wRow: seq<Weight>)
    requires file.Some? ==> index < |file.value| && (|file.value[index]| == 0 || amb <= |file.value[index]|)
    ensures cRow == Constant(amb, initialCount) && wRow == FirstWeights(file, index, amb)
  {
    cRow := [];
    wRow := [];
    var i := 0;
    while i < amb
      invariant i <= amb && |cRow| == i && |wRow| == i
      invariant forall p :: 0 <= p < i ==> cRow[p] == initialCount && wRow[p] == FirstWeights(file, index, amb)[p]
    {
      cRow := cRow + [initialCount];
      if file.Some? && |file.value[index]| > 0 {
        wRow := wRow + [file.value[index][i]];
      } else {
        wRow := wRow + [Some(1.0)];
      }
      i := i + 1;
    }
  }

  /** The list `initializeWeights` gives a new type: 1.0 for each of its
      `amb` candidates. */
  method OnesRow(amb: nat) returns (row: seq<Weight>)
    ensures row == Ones(amb)
  {
    row := [];
    var i := 0;
    while i < amb
      invariant i <= amb && |row| == i && forall p :: 0 <= p < i ==> row[p] == Some(1.0)
    {
      row := row + [Some(1.0)];
      i := i + 1;
    }
  }

  class WeightedMinDistResolver {
    const numIterations: nat
    const docTopo: DocumentCoord
    /** The distance table: the distance between two locations. */
    const dist: Distance
    /** The weight lists, indexed by the lexicon; `None` before training. */
    var weights: Option<Table>
    var lexicon: Lexicon
    var syntheticToponyms: map<Document, Toponym>
    var docIndex: nat

    /** The lexicon is consistent and every synthetic toponym is shaped as
        `initializeSyntheticToponyms` makes it. */
    ghost predicate Indexed()
      reads this
    {
      Lexicons.Valid(lexicon) && AllSynthShaped(syntheticToponyms)
    }

    /** `Indexed`, and once trained there is a non-empty weight list for
        every lexicon index. */
    ghost predicate Valid()
      reads this
    {
      && Indexed()
      && (weights.Some? ==> |weights.value| == Size(lexicon) && Full(weights.value))
    }

    constructor (numIterations: nat, docTopo: DocumentCoord, dist: Distance)
      ensures Valid()
      ensures this.numIterations == numIterations && this.docTopo == docTopo && this.dist == dist
      ensures weights.None? && syntheticToponyms == map[] && docIndex == 0
    {
      this.numIterations := numIterations;
      this.docTopo := docTopo;
      this.dist := dist;
      weights := None;
      lexicon := Empty();
      syntheticToponyms := map[];
      docIndex := 0;
    }

    /** `iterToponyms`: the toponyms of the document, sentence after
        sentence, then its synthetic toponym when the gold coordinate is
        added as a toponym. */
    function DocList(doc: Document): seq<Toponym>
      reads this
    {
      DocListWith(doc, docTopo, syntheticToponyms)
    }

    /** `iterToponyms` of every document of a corpus. */
    function CorpusLists(corpus: seq<Document>): (lists: Lists)
      reads this
      ensures |lists| == |corpus| && forall n :: 0 <= n < |corpus| ==> lists[n] == DocList(corpus[n])
    {
      ListsWith(corpus, docTopo, syntheticToponyms)
    }

    /** Every document of the corpus has its synthetic toponym, when there
        are any. */
    ghost predicate Synthesised(corpus: seq<Document>)
      reads this
    {
      docTopo == AddTopo ==> forall n :: 0 <= n < |corpus| ==> corpus[n] in syntheticToponyms
    }

    method IterToponyms(doc: Document) returns (ts: seq<Toponym>)
      ensures ts == DocList(doc)
    {
      ts := [];
      var m := 0;
      while m < |doc.sentences|
        invariant m <= |doc.sentences|
        invariant ts == Concat(doc.sentences[..m])
      {
        assert doc.sentences[..m + 1][..m] == doc.sentences[..m];
        ts := ts + SentenceToponyms(doc.sentences[m]);
        m := m + 1;
      }
      assert doc.sentences[..m] == doc.sentences;
      if docTopo == AddTopo && doc in syntheticToponyms {
        ts := ts + [syntheticToponyms[doc]];
      }
    }

    /** The inner loop of `checkCandidate`: the least weighted distance
        from candidate `i` of `t` to a candidate of `o`. */
    method NearestOther(t: Toponym, i: nat, o: Toponym, tb: Table, lex: Lexicon) returns (min: real)
      requires i < t.Ambiguity() && Fits(tb, lex, t) && o.Ambiguity() > 0 && Fits(tb, lex, o)
      ensures min == Increment(t, i, o, tb, lex, dist)
    {
      var vals := PairValues(t.candidates[i], RowOf(tb, lex, t)[i], o, RowOf(tb, lex, o), dist);
      var thisWeight := tb[lex.index[t.form]].value[i];
      min := MaxDouble;
      var k := 0;
      while k < o.Ambiguity()
        invariant k <= o.Ambiguity()
        invariant MinScan(vals[..k], Fin(MaxDouble)).0 == Fin(min)
      {
        MinScanStep(vals, k, Fin(MaxDouble));
        var otherWeight := tb[lex.index[o.form]].value[k];
        var weightedDist := Weighted(dist(t.candidates[i], o.candidates[k]), thisWeight, otherWeight);
        if Below(weightedDist, Fin(min)) {
          min := weightedDist.r;
        }
        k := k + 1;
      }
      assert vals[..k] == vals;
    }

    /** `checkCandidate`: the total of candidate `i` of `t` over the other
        toponyms of `doc`, or null when it reaches `currentMinTotal` or no
        other toponym counts. */
    method CheckCandidate(t: Toponym, i: nat, doc: Document, currentMinTotal: real, tb: Table, lex: Lexicon)
      returns (r: Option<real>)
      requires i < t.Ambiguity() && Fits(tb, lex, t) && AllFit(tb, lex, DocList(doc))
      ensures r == CandidateTotal(t, i, DocList(doc), currentMinTotal, tb, lex, dist)
    {
      var ts := IterToponyms(doc);
      var total := 0.0;
      var seen := 0;
      var k := 0;
      while k < |ts|
        invariant k <= |ts|
        invariant AllFit(tb, lex, ts[..k])
        invariant CheckScan(t, i, ts[..k], currentMinTotal, tb, lex, dist) == Running(total, seen)
      {
        var o := ts[k];
        assert ts[..k + 1][..k] == ts[..k];
        assert AllFit(tb, lex, ts[..k + 1]);
        if o != t && o.Ambiguity() > 0 {
          var min := NearestOther(t, i, o, tb, lex);
          seen := seen + 1;
          total := total + min;
          if total >= currentMinTotal {
            StoppedStays(t, i, ts, k + 1, currentMinTotal, tb, lex);
            return None;
          }
        }
        k := k + 1;
      }
      assert ts[..k] == ts;
      r := if seen > 0 then Some(total) else None;
    }

    /** Once the loop of `checkCandidate` has returned, the rest of the
        document changes nothing. */
    lemma {:induction false} StoppedStays(t: Toponym, i: nat, ts: seq<Toponym>, k: nat, bound: real, tb: Table,
                                          lex: Lexicon)
      requires i < t.Ambiguity() && Fits(tb, lex, t) && AllFit(tb, lex, ts) && k <= |ts|
      requires AllFit(tb, lex, ts[..k]) && CheckScan(t, i, ts[..k], bound, tb, lex, dist).Stopped?
      ensures CheckScan(t, i, ts, bound, tb, lex, dist).Stopped?
      decreases |ts| - k
    {
      if k == |ts| {
        assert ts[..k] == ts;
      } else {
        assert ts[..k + 1][..k] == ts[..k];
        assert AllFit(tb, lex, ts[..k + 1]);
        StoppedStays(t, i, ts, k + 1, bound, tb, lex);
      }
    }

    /** The candidate loop of `updateWeights` and `finalDisambiguationStep`:
        the candidate whose total undercuts every earlier one, or -1. */
    method CandidateLoop(t: Toponym, doc: Document, tb: Table, lex: Lexicon) returns (minIdx: int)
      requires Fits(tb, lex, t) && AllFit(tb, lex, DocList(doc))
      ensures minIdx == Choice(t, DocList(doc), t.Ambiguity(), tb, lex, dist).1
    {
      ghost var ts := DocList(doc);
      var min := MaxDouble;
      minIdx := -1;
      var idx := 0;
      while idx < t.Ambiguity()
        invariant idx <= t.Ambiguity()
        invariant min == Choice(t, ts, idx, tb, lex, dist).0 && minIdx == Choice(t, ts, idx, tb, lex, dist).1
      {
        var candidateMin := CheckCandidate(t, idx, doc, min, tb, lex);
        ChoiceStep(t, ts, idx, tb, lex, dist, (min, minIdx), candidateMin);
        if candidateMin.Some? {
          min := candidateMin.value;
          minIdx := idx;
        }
        idx := idx + 1;
      }
    }

    /** The fall-back when the candidate loop finds nothing: the first
        candidate whose weight exceeds 1.0 and every earlier weight, or -1. */
    method HeaviestCandidate(t: Toponym, tb: Table, lex: Lexicon) returns (minIdx: int)
      requires t.Ambiguity() > 0 && Fits(tb, lex, t)
      ensures minIdx == FirstArgMax(RowOf(tb, lex, t)[..t.Ambiguity()], 1.0)
    {
      ghost var ws := RowOf(tb, lex, t)[..t.Ambiguity()];
      var maxWeight := 1.0;
      minIdx := -1;
      var locationIdx := 0;
      while locationIdx < t.Ambiguity()
        invariant locationIdx <= t.Ambiguity()
        invariant MaxScan(ws[..locationIdx], 1.0) == (maxWeight, minIdx)
      {
        assert ws[..locationIdx + 1][..locationIdx] == ws[..locationIdx];
        var thisWeight := tb[lex.index[t.form]].value[locationIdx];
        if thisWeight.Some? && thisWeight.value > maxWeight {
          maxWeight := thisWeight.value;
          minIdx := locationIdx;
        }
        locationIdx := locationIdx + 1;
      }
      assert ws[..locationIdx] == ws;
    }

    /** The candidate loop and its fall-back, as `updateWeights` and
        `finalDisambiguationStep` both run them: the index `t` resolves to in
        `doc`, or -1. */
    method SelectCandidate(t: Toponym, doc: Document, tb: Table, lex: Lexicon) returns (minIdx: int)
      requires Fits(tb, lex, t) && AllFit(tb, lex, DocList(doc))
      ensures minIdx == Winner(t, DocList(doc), tb, lex, dist)
    {
      minIdx := CandidateLoop(t, doc, tb, lex);
      if minIdx == -1 && t.Ambiguity() > 0 {
        minIdx := HeaviestCandidate(t, tb, lex);
      }
    }

    /** The write of `finalDisambiguationStep`: a toponym takes `minIdx`
        as its selected index when it is a winner (not -1), and nothing
        else changes. */
    method ApplySelection(toponym: Toponym, minIdx: int, ghost S: set<Toponym>, ghost sel: Selections)
      returns (ghost sel': Selections)
      requires toponym in S && sel.Keys == S && SelectionsAre(sel)
      modifies toponym
      ensures sel' == if minIdx > -1 then sel[toponym := minIdx] else sel
      ensures sel'.Keys == S && SelectionsAre(sel')
    {
      sel' := sel;
      if minIdx > -1 {
        toponym.SetSelectedIdx(minIdx);
        sel' := sel[toponym := minIdx];
      }
    }

    /** `finalDisambiguationStep` over one document. */
    method SelectInDocument(doc: Document, tb: Table, lex: Lexicon, ghost S: set<Toponym>, ghost sel: Selections,
                            ghost listed: seq<Toponym>)
      returns (ghost sel': Selections)
      requires listed == DocList(doc) && AllFit(tb, lex, listed) && forall j :: 0 <= j < |listed| ==> listed[j] in S
      requires sel.Keys == S && SelectionsAre(sel)
      modifies S
      ensures sel' == SelectInDoc(sel, listed, |listed|, tb, lex, dist)
      ensures sel'.Keys == S && SelectionsAre(sel')
    {
      var ts := IterToponyms(doc);
      sel' := sel;
      var k := 0;
      while k < |ts|
        invariant k <= |ts| && ts == DocList(doc) == listed
        invariant sel' == SelectInDoc(sel, ts, k, tb, lex, dist)
        invariant sel'.Keys == S && SelectionsAre(sel')
      {
        var toponym := ts[k];
        var minIdx := SelectCandidate(toponym, doc, tb, lex);
        sel' := ApplySelection(toponym, minIdx, S, sel');
        k := k + 1;
      }
    }

    /** `finalDisambiguationStep`: every toponym of the corpus, in order,
        selects its winner when it has one. `S` names the toponyms the pass
        visits, the only ones whose selections can change. */
    method FinalDisambiguationStep(corpus: seq<Document>, tb: Table, lex: Lexicon, ghost S: set<Toponym>)
      requires TableFits(tb, lex, CorpusLists(corpus))
      requires S == ListSet(CorpusLists(corpus))
      modifies S
      ensures Snapshot(S) == SelectInCorpus(old(Snapshot(S)), CorpusLists(corpus), |corpus|, tb, lex, dist)
    {
      ghost var lists := CorpusLists(corpus);
      ghost var sel0 := Snapshot(S);
      ghost var cur := sel0;
      SnapshotIsCurrent(S, sel0);
      var n := 0;
      while n < |corpus|
        invariant n <= |corpus| && unchanged(this)
        invariant cur == SelectInCorpus(sel0, lists, n, tb, lex, dist)
        invariant cur.Keys == S
        invariant SelectionsAre(cur)
      {
        ghost var ts := lists[n];
        ListSetHolds(lists, n);
        ghost var next := SelectInDocument(corpus[n], tb, lex, S, cur, ts);
        cur := next;
        n := n + 1;
      }
      SnapshotIsCurrent(S, cur);
    }

    /** One vote of `updateWeights`: the count of candidate `w` of the type
        with index `i` and that type's sum each go up by one. */
    method CountVote(counts: Counts, sums: seq<int>, i: nat, w: nat) returns (counts': Counts, sums': seq<int>)
      requires i < |counts| && i < |sums| && counts[i].Some? && w < |counts[i].value|
      ensures Tally(counts', sums') == Vote(Tally(counts, sums), i, w)
    {
      var prevCount := counts[i].value[w];
      counts' := counts[i := Some(counts[i].value[w := prevCount + 1])];
      var prevSum := sums[i];
      sums' := sums[i := prevSum + 1];
    }

    /** The voting loop of `updateWeights` over one document: each of its
        toponyms, in order, votes for its winner. */
    method VoteInDocument(doc: Document, tl: Tally, tb: Table, lex: Lexicon, ghost listed: seq<Toponym>)
      returns (tl': Tally)
      requires listed == DocList(doc) && TallyShaped(tb, tl) && AllFit(tb, lex, listed)
      ensures tl' == VoteInDoc(tl, listed, |listed|, tb, lex, dist)
    {
      var ts := IterToponyms(doc);
      tl' := tl;
      var k := 0;
      while k < |ts|
        invariant k <= |ts| && ts == listed
        invariant tl' == VoteInDoc(tl, ts, k, tb, lex, dist)
      {
        var toponym := ts[k];
        var minIdx := SelectCandidate(toponym, doc, tb, lex);
        if minIdx > -1 {
          var counts, sums := CountVote(tl'.counts, tl'.sums, lex.index[toponym.form], minIdx);
          tl' := Tally(counts, sums);
        }
        k := k + 1;
      }
    }

    /** The voting loop of `updateWeights`: each toponym of the corpus, in
        order, votes for its winner. */
    method VotePass(corpus: seq<Document>, tl: Tally, tb: Table, lex: Lexicon) returns (tl': Tally)
      requires TallyShaped(tb, tl) && TableFits(tb, lex, CorpusLists(corpus))
      ensures tl' == VoteInCorpus(tl, CorpusLists(corpus), |corpus|, tb, lex, dist)
    {
      ghost var lists := CorpusLists(corpus);
      tl' := tl;
      var n := 0;
      while n < |corpus|
        invariant n <= |corpus|
        invariant tl' == VoteInCorpus(tl, lists, n, tb, lex, dist)
      {
        ghost var ts := lists[n];
        assert ts == DocList(corpus[n]) && AllFit(tb, lex, ts);
        tl' := VoteInDocument(corpus[n], tl', tb, lex, ts);
        n := n + 1;
      }
    }

    /** `updateWeights`: one pass of votes from the current weights, then
        the new weights from the votes. */
    method UpdateWeights(corpus: seq<Document>, counts: Counts, initialCount: int) returns (counts': Counts)
      requires weights.Some? && Shaped(weights.value, counts) && TableFits(weights.value, lexicon, CorpusLists(corpus))
      modifies this`weights
      ensures weights.Some?
      ensures weights.value == Updated(old(weights.value), counts, CorpusLists(corpus), initialCount, lexicon, dist).0
      ensures counts' == Updated(old(weights.value), counts, CorpusLists(corpus), initialCount, lexicon, dist).1
    {
      var tb := weights.value;
      var cs := ResetCounts(counts, initialCount, tb);
      var sums := InitialSums(cs, initialCount, tb, counts);
      var tl := VotePass(corpus, Tally(cs, sums), tb, lexicon);
      var tb' := Renormalise(tl, tb);
      weights := Some(tb');
      counts' := tl.counts;
    }
  
    /** `initializeCountsAndWeights` over one document. */
    method InitInDocument(doc: Document, st: Rows, lex: Lexicon, initialCount: int, file: FileWeights,
                          ghost listed: seq<Toponym>)
      returns (st': Rows)
      requires listed == DocList(doc) && Lexicons.Valid(lex) && Sized(st, lex) && Known(lex, listed)
      requires forall j :: 0 <= j < |listed| ==> FileFits(file, lex, listed[j])
      ensures st' == InitInDoc(st, listed, |listed|, lex, initialCount, file)
    {
      var ts := IterToponyms(doc);
      var counts := st.counts;
      var ws := st.weights;
      var k := 0;
      while k < |ts|
        invariant k <= |ts|
        invariant Rows(counts, ws) == InitInDoc(st, ts, k, lex, initialCount, file)
      {
        var toponym := ts[k];
        if toponym.Ambiguity() > 0 {
          var index := Get(lex, toponym.form);
          if counts[index].None? {
            var cRow, wRow := NewRows(toponym.Ambiguity(), index, initialCount, file);
            counts := counts[index := Some(cRow)];
            ws := ws[index := Some(wRow)];
          }
        }
        k := k + 1;
      }
      st' := Rows(counts, ws);
    }

    /** `initializeCountsAndWeights`: the first toponym of each type in the
        corpus gives the type its count list and its first weights. */
    method InitializeCountsAndWeights(counts: Counts, tb: Table, corpus: seq<Document>, lex: Lexicon,
                                      initialCount: int, file: FileWeights)
      returns (counts': Counts, tb': Table)
      requires Lexicons.Valid(lex) && Sized(Rows(counts, tb), lex) && AllKnown(lex, CorpusLists(corpus))
      requires FileFitsAll(file, lex, CorpusLists(corpus))
      ensures Rows(counts', tb') ==
              InitInCorpus(Rows(counts, tb), CorpusLists(corpus), |corpus|, lex, initialCount, file)
    {
      ghost var lists := CorpusLists(corpus);
      var st := Rows(counts, tb);
      var n := 0;
      while n < |corpus|
        invariant n <= |corpus|
        invariant st == InitInCorpus(Rows(counts, tb), lists, n, lex, initialCount, file)
      {
        ghost var ts := lists[n];
        assert ts == DocList(corpus[n]) && Known(lex, ts);
        assert forall j :: 0 <= j < |ts| ==> FileFits(file, lex, ts[j]);
        st := InitInDocument(corpus[n], st, lex, initialCount, file, ts);
        n := n + 1;
      }
      counts', tb' := st.counts, st.weights;
    }

    /** `initializeWeights` over one document. */
    method FillInDocument(doc: Document, tb: Table, lex: Lexicon, ghost listed: seq<Toponym>) returns (tb': Table)
      requires listed == DocList(doc) && Lexicons.Valid(lex) && |tb| == Size(lex) && Known(lex, listed)
      ensures tb' == FillInDoc(tb, listed, |listed|, lex)
    {
      var ts := IterToponyms(doc);
      tb' := tb;
      var k := 0;
      while k < |ts|
        invariant k <= |ts|
        invariant tb' == FillInDoc(tb, ts, k, lex)
      {
        var toponym := ts[k];
        if toponym.Ambiguity() > 0 {
          var index := Get(lex, toponym.form);
          if tb'[index].None? {
            var row := OnesRow(toponym.Ambiguity());
            tb' := tb'[index := Some(row)];
          }
        }
        k := k + 1;
      }
    }

    /** `initializeWeights`: the first toponym of each type without a
        weight list gives it 1.0 for each candidate. */
    method InitializeWeights(tb: Table, corpus: seq<Document>, lex: Lexicon) returns (tb': Table)
      requires Lexicons.Valid(lex) && |tb| == Size(lex) && AllKnown(lex, CorpusLists(corpus))
      ensures tb' == FillInCorpus(tb, CorpusLists(corpus), |corpus|, lex)
    {
      ghost var lists := CorpusLists(corpus);
      tb' := tb;
      var n := 0;
      while n < |corpus|
        invariant n <= |corpus|
        invariant tb' == FillInCorpus(tb, lists, n, lex)
      {
        ghost var ts := lists[n];
        assert ts == DocList(corpus[n]) && Known(lex, ts);
        tb' := FillInDocument(corpus[n], tb', lex, ts);
        n := n + 1;
      }
    }

    /** `expandWeightsArray`: the old weights when they have a list per
        lexicon index; otherwise the old lists, nulls after them, and
        `initializeWeights` over the corpus. */
    method ExpandWeightsArray(lex: Lexicon, corpus: seq<Document>, oldWeights: Table) returns (newWeights: Table)
      requires Lexicons.Valid(lex) && AllKnown(lex, CorpusLists(corpus))
      ensures newWeights == Expanded(oldWeights, lex, CorpusLists(corpus))
    {
      if |oldWeights| >= Size(lex) {
        return oldWeights;
      }
      newWeights := NullRows(Size(lex));
      var i := 0;
      while i < |oldWeights|
        invariant i <= |oldWeights| && |newWeights| == Size(lex)
        invariant forall p :: 0 <= p < i ==> newWeights[p] == oldWeights[p]
        invariant forall p :: i <= p < Size(lex) ==> newWeights[p].None?
      {
        newWeights := newWeights[i := oldWeights[i]];
        i := i + 1;
      }
      assert newWeights == oldWeights + NoRows(Size(lex) - |oldWeights|);
      newWeights := InitializeWeights(newWeights, corpus, lex);
    }
  
    /** The synthetic toponym of one document: the one it has, or a new
        one named with the next document index. */
    method SynthesiseFor(doc: Document) returns (top: Toponym)
      modifies this`syntheticToponyms, this`docIndex
      ensures doc in syntheticToponyms && top == syntheticToponyms[doc] && KeepsEntries(old(syntheticToponyms), syntheticToponyms)
      ensures old(doc in syntheticToponyms) ==> syntheticToponyms == old(syntheticToponyms) && docIndex == old(docIndex)
      ensures old(doc !in syntheticToponyms) ==>
                && syntheticToponyms == old(syntheticToponyms)[doc := top] && docIndex == old(docIndex) + 1
                && fresh(top) && MadeFor(doc, top, old(docIndex), docIndex) && SynthShaped(top)
    {
      if doc in syntheticToponyms {
        top := syntheticToponyms[doc];
      } else {
        ghost var k := docIndex;
        var idBase := doc.id + "_" + Digits(docIndex);
        docIndex := docIndex + 1;
        var topoId := SynthPrefix + idBase + "__";
        assert topoId == SynthForm(doc.id, k);
        var loc := Location(topoId, PointRegion(doc.goldCoord));
        top := new Toponym(topoId, [loc], -1, -1);
        syntheticToponyms := syntheticToponyms[doc := top];
      }
    }

    /** The loop invariant of `initializeSyntheticToponyms` after `n`
        documents, from synthetic toponyms `synth0`, lexicon `base` and
        document index `lo`. */
    ghost predicate SynthesisedUpTo(corpus: seq<Document>, n: nat, synth0: map<Document, Toponym>, base: Lexicon,
                                    lo: nat)
      requires n <= |corpus|
      reads this, syntheticToponyms.Values
    {
      UpTo(corpus, n, synth0, base, lo, syntheticToponyms, lexicon, docIndex)
    }

    /** One iteration of `initializeSyntheticToponyms`: document `n` gets
        its synthetic toponym, whose form the lexicon gets. */
    method SynthesiseStep(corpus: seq<Document>, n: nat, ghost synth0: map<Document, Toponym>, ghost base: Lexicon,
                          ghost lo: nat)
      requires n < |corpus| && SynthesisedUpTo(corpus, n, synth0, base, lo)
      modifies this`syntheticToponyms, this`docIndex, this`lexicon
      ensures SynthesisedUpTo(corpus, n + 1, synth0, base, lo)
      ensures KeepsEntries(old(syntheticToponyms), syntheticToponyms)
      ensures forall d :: d in syntheticToponyms && d !in old(syntheticToponyms) ==> fresh(syntheticToponyms[d])
    {
      ghost var synth, index, lex := syntheticToponyms, docIndex, lexicon;
      var top := SynthesiseFor(corpus[n]);
      lexicon := GetOrAdd(lexicon, top.form).0;
      UpToStep(corpus, n, synth0, base, lo, synth, lex, index, syntheticToponyms, docIndex, top);
    }

    /** `initializeSyntheticToponyms`: when the gold coordinate is added as
        a toponym, every document of the corpus without a synthetic toponym
        gets a new one, named with the next document index, and the form of
        every document's synthetic toponym is added to the lexicon. */
    method InitializeSyntheticToponyms(corpus: seq<Document>)
      requires Indexed()
      modifies this`syntheticToponyms, this`docIndex, this`lexicon
      ensures Indexed() && Synthesised(corpus)
      ensures docTopo != AddTopo ==>
                syntheticToponyms == old(syntheticToponyms) && docIndex == old(docIndex) && lexicon == old(lexicon)
      ensures KeepsEntries(old(syntheticToponyms), syntheticToponyms)
      ensures NewMade(old(syntheticToponyms), syntheticToponyms, corpus, |corpus|, old(docIndex), docIndex)
      ensures forall d :: d in syntheticToponyms && d !in old(syntheticToponyms) ==> fresh(syntheticToponyms[d])
      ensures Extends(old(lexicon), lexicon)
      ensures forall g :: g in lexicon.index ==> g in old(lexicon).index || SynthFormOf(corpus, docTopo, syntheticToponyms, g)
      ensures docTopo == AddTopo ==> Covers(corpus, |corpus|, syntheticToponyms, lexicon)
    {
      if docTopo != AddTopo {
        return;
      }
      var n := 0;
      while n < |corpus|
        invariant n <= |corpus| && SynthesisedUpTo(corpus, n, old(syntheticToponyms), old(lexicon), old(docIndex))
        invariant forall d :: d in syntheticToponyms && d !in old(syntheticToponyms) ==> fresh(syntheticToponyms[d])
      {
        SynthesiseStep(corpus, n, old(syntheticToponyms), old(lexicon), old(docIndex));
        n := n + 1;
      }
      assert corpus[..n] == corpus;
    }

    /** The lexicon `train` builds: the forms of the corpus's toponyms with
        candidates, then those of its documents' synthetic toponyms. From
        it, every type gets a count list and a weight list with its number
        of candidates. */
    method BuildTrainingLexicon(corpus: seq<Document>)
      requires Indexed() && CorpusAgrees(corpus, docTopo)
      modifies this`lexicon, this`syntheticToponyms, this`docIndex
      ensures Indexed() && Synthesised(corpus)
      ensures forall g :: g in lexicon.index <==> CorpusForm(corpus, g) || SynthFormOf(corpus, docTopo, syntheticToponyms, g)
      ensures KeepsEntries(old(syntheticToponyms), syntheticToponyms)
      ensures forall d :: d in syntheticToponyms && d !in old(syntheticToponyms) ==> fresh(syntheticToponyms[d])
      ensures AllKnown(lexicon, CorpusLists(corpus)) && FileFitsAll(None, lexicon, CorpusLists(corpus))
      ensures var lists := CorpusLists(corpus);
        var st := InitInCorpus(Nulls(lexicon), lists, |lists|, lexicon, PhantomCount, None);
        Shaped(st.weights, st.counts) && Full(st.weights) && TableFits(st.weights, lexicon, lists)
    {
      ghost var base := BuildLexicon(corpus);
      lexicon := BuildLexicon(corpus);
      InitializeSyntheticToponyms(corpus);
      TrainingSetUp(corpus, docTopo, syntheticToponyms, base, lexicon);
    }

    /** The iterations of `train`: `updateWeights` `numIterations` times. */
    method Iterate(corpus: seq<Document>, counts: Counts)
      requires weights.Some? && Shaped(weights.value, counts) && TableFits(weights.value, lexicon, CorpusLists(corpus))
      modifies this`weights
      ensures weights.Some? && SameShape(old(weights).value, weights.value)
      ensures weights.value ==
              Iterated(old(weights).value, counts, CorpusLists(corpus), PhantomCount, lexicon, dist, numIterations).0
    {
      ghost var tb0 := weights.value;
      ghost var lists := CorpusLists(corpus);
      var cs := counts;
      var i := 0;
      while i < numIterations
        invariant i <= numIterations && lists == CorpusLists(corpus)
        invariant weights.Some? && weights.value == Iterated(tb0, counts, lists, PhantomCount, lexicon, dist, i).0
        invariant cs == Iterated(tb0, counts, lists, PhantomCount, lexicon, dist, i).1
      {
        ghost var prev := Iterated(tb0, counts, lists, PhantomCount, lexicon, dist, i);
        FitsByShape(tb0, prev.0, lexicon, lists);
        cs := UpdateWeights(corpus, cs, PhantomCount);
        assert Iterated(tb0, counts, lists, PhantomCount, lexicon, dist, i + 1) ==
               Updated(prev.0, prev.1, lists, PhantomCount, lexicon, dist);
        i := i + 1;
      }
    }

    /** `train` without a weights file: the lexicon is built from the
        corpus and its synthetic toponyms, every type gets its first count
        and weight lists, and `updateWeights` runs `numIterations` times. */
    method Train(corpus: seq<Document>)
      requires Indexed() && CorpusAgrees(corpus, docTopo)
      modifies this
      ensures Valid() && weights.Some? && Synthesised(corpus)
      ensures forall g :: g in lexicon.index <==> CorpusForm(corpus, g) || SynthFormOf(corpus, docTopo, syntheticToponyms, g)
      ensures KeepsEntries(old(syntheticToponyms), syntheticToponyms)
      ensures forall d :: d in syntheticToponyms && d !in old(syntheticToponyms) ==> fresh(syntheticToponyms[d])
      ensures AllKnown(lexicon, CorpusLists(corpus)) && FileFitsAll(None, lexicon, CorpusLists(corpus))
      ensures var lists := CorpusLists(corpus);
        var st := InitInCorpus(Nulls(lexicon), lists, |lists|, lexicon, PhantomCount, None);
        && Shaped(st.weights, st.counts) && TableFits(st.weights, lexicon, lists)
        && weights.value == Iterated(st.weights, st.counts, lists, PhantomCount, lexicon, dist, numIterations).0
      ensures TableFits(weights.value, lexicon, CorpusLists(corpus))
    {
      BuildTrainingLexicon(corpus);
      ghost var lists := CorpusLists(corpus);
      var counts: Counts := NullRows(Size(lexicon));
      var tb: Table := NullRows(Size(lexicon));
      counts, tb := InitializeCountsAndWeights(counts, tb, corpus, lexicon, PhantomCount, None);
      weights := Some(tb);
      Iterate(corpus, counts);
      FitsByShape(tb, weights.value, lexicon, lists);
    }

    /** Every toponym of the corpus of a form the lexicon knows fits the
        trained weights (otherwise a lookup of `disambiguate` throws). */
    ghost predicate KnownFit(corpus: seq<Document>)
      reads this
    {
      weights.Some? &&
      forall t :: t in ToponymSet(corpus) && t.Ambiguity() > 0 && t.form in lexicon.index ==> Fits(weights.value, lexicon, t)
    }

    /** The lexicon `disambiguate` extends: the forms of the corpus's
        toponyms with candidates are added, then those of its documents'
        synthetic toponyms. The trained weights stay valid for the old
        indices, and expanding them gives a table every pass fits. */
    method ExtendIndex(corpus: seq<Document>)
      requires Valid() && CorpusAgrees(corpus, docTopo) && KnownFit(corpus)
      modifies this`lexicon, this`syntheticToponyms, this`docIndex
      ensures Indexed() && Synthesised(corpus) && Extends(old(lexicon), lexicon)
      ensures forall g :: g in lexicon.index <==>
                g in old(lexicon).index || CorpusForm(corpus, g) || SynthFormOf(corpus, docTopo, syntheticToponyms, g)
      ensures KeepsEntries(old(syntheticToponyms), syntheticToponyms)
      ensures forall d :: d in syntheticToponyms && d !in old(syntheticToponyms) ==> fresh(syntheticToponyms[d])
      ensures AllKnown(lexicon, CorpusLists(corpus))
      ensures var tb := Expanded(weights.value, lexicon, CorpusLists(corpus));
        |tb| == Size(lexicon) && Full(tb) && TableFits(tb, lexicon, CorpusLists(corpus))
    {
      ghost var lex0 := lexicon;
      lexicon := AddToponyms(lexicon, corpus);
      InitializeSyntheticToponyms(corpus);
      ExpansionSetUp(corpus, docTopo, syntheticToponyms, weights.value, lex0, lexicon);
    }

    /** `disambiguate` up to its final step: train first when untrained, add
        the corpus's forms and synthetic toponyms to the lexicon, and expand
        the weights to the lexicon. */
    method PrepareWeights(corpus: seq<Document>)
      requires Valid() && CorpusAgrees(corpus, docTopo)
      requires weights.Some? ==> KnownFit(corpus)
      modifies this
      ensures Valid() && weights.Some? && Synthesised(corpus)
      ensures AllKnown(lexicon, CorpusLists(corpus)) && TableFits(weights.value, lexicon, CorpusLists(corpus))
      ensures old(weights).Some? ==>
                Extends(old(lexicon), lexicon) && weights.value == Expanded(old(weights).value, lexicon, CorpusLists(corpus))
      ensures KeepsEntries(old(syntheticToponyms), syntheticToponyms)
      ensures forall d :: d in syntheticToponyms && d !in old(syntheticToponyms) ==> fresh(syntheticToponyms[d])
    {
      if weights.None? {
        Train(corpus);
        CorpusFits(corpus, docTopo, syntheticToponyms, weights.value, lexicon);
      }
      ExtendIndex(corpus);
      var tb := ExpandWeightsArray(lexicon, corpus, weights.value);
      weights := Some(tb);
    }

    /** `disambiguate`, up to the backoff: the weights are prepared for the
        corpus and each toponym's winner is selected. `start` is the
        selections the final pass starts from (for the corpus's own
        toponyms, the ones they had on entry); the new selections are the
        final pass over the prepared weights from there. Every toponym of
        the corpus keeps its selection or gets one in range, and a toponym
        that occurs once ends with its winner when it has one. */
    method Disambiguate(corpus: seq<Document>) returns (ghost start: Selections)
      requires Valid() && CorpusAgrees(corpus, docTopo)
      requires weights.Some? ==> KnownFit(corpus)
      modifies this, ToponymSet(corpus), syntheticToponyms.Values
      ensures Valid() && weights.Some? && Synthesised(corpus)
      ensures AllKnown(lexicon, CorpusLists(corpus)) && TableFits(weights.value, lexicon, CorpusLists(corpus))
      ensures old(weights).Some? ==>
                Extends(old(lexicon), lexicon) && weights.value == Expanded(old(weights).value, lexicon, CorpusLists(corpus))
      ensures forall t :: t in ToponymSet(corpus) ==>
                t.selectedIdx == old(Snapshot(ToponymSet(corpus)))[t] || 0 <= t.selectedIdx < t.Ambiguity()
      ensures start.Keys == ListSet(CorpusLists(corpus)) && ToponymSet(corpus) <= start.Keys
      ensures forall t :: t in ToponymSet(corpus) ==> start[t] == old(Snapshot(ToponymSet(corpus)))[t]
      ensures Snapshot(ListSet(CorpusLists(corpus))) ==
                SelectInCorpus(start, CorpusLists(corpus), |corpus|, weights.value, lexicon, dist)
      ensures forall m, j :: 0 <= m < |corpus| && 0 <= j < |CorpusLists(corpus)[m]| && OnlyAt(CorpusLists(corpus), m, j) ==>
                var t, w := CorpusLists(corpus)[m][j], Winner(CorpusLists(corpus)[m][j], CorpusLists(corpus)[m], weights.value, lexicon, dist);
                t.selectedIdx == if w == -1 then start[t] else w
    {
      PrepareWeights(corpus);
      ghost var T := ToponymSet(corpus);
      ghost var selT := Snapshot(T);
      assert selT == old(Snapshot(ToponymSet(corpus)));
      ghost var lists := CorpusLists(corpus);
      ghost var S := ListSet(lists);
      forall t | t in S
        ensures t in T || t in old(syntheticToponyms.Values) || fresh(t)
      {
        ListedParts(corpus, docTopo, syntheticToponyms, t);
      }
      forall t | t in T
        ensures t in S
      {
        RealListed(corpus, docTopo, syntheticToponyms, t);
      }
      ghost var sel0 := Snapshot(S);
      start := sel0;
      FinalDisambiguationStep(corpus, weights.value, lexicon, S);
      SelectInCorpusRanges(sel0, lists, |lists|, weights.value, lexicon, dist);
      KeepsOrRangesOn(T, selT, sel0, Snapshot(S), S);
      SelectInCorpusWinners(sel0, lists, weights.value, lexicon, dist);
    }
  }
}
