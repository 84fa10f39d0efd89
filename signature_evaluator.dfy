/** `SignatureEvaluator`: matches gold and predicted toponyms by a
    "signature" (the filtered characters around the toponym in its sentence,
    followed by the document id) and scores the matches. */
module Signatures {
  import opened Folds
  import opened Geometry
  import opened Text
  import opened Reports

  /** `CONTEXT_WINDOW_SIZE`: the characters kept on each side of a toponym. */
  const ContextWindowSize: nat := 20

  // ---------------------------------------------------------------------
  // Context buffers and signatures

  /** The characters `replaceAll("[^a-z0-9]", "")` keeps. */
  predicate Kept(c: char) {
    'a' <= c <= 'z' || '0' <= c <= '9'
  }

  /** A token form with every character other than a-z and 0-9 removed, the
      others kept in order. */
  function Filter(s: string): (f: string)
    ensures |f| <= |s|
  {
    if s == [] then []
    else Filter(s[..|s| - 1]) + (if Kept(s[|s| - 1]) then [s[|s| - 1]] else [])
  }

  /** Filtering leaves only kept characters. */
  lemma {:induction false} FilterKept(s: string)
    ensures forall i :: 0 <= i < |Filter(s)| ==> Kept(Filter(s)[i])
  {
    if s != [] {
      FilterKept(s[..|s| - 1]);
    }
  }

  /** Filtering keeps every occurrence of a kept character and drops every
      other character. */
  lemma {:induction false} FilterCounts(s: string)
    ensures forall c :: multiset(Filter(s))[c] == if Kept(c) then multiset(s)[c] else 0
  {
    if s != [] {
      var init := s[..|s| - 1];
      FilterCounts(init);
      assert s == init + [s[|s| - 1]];
    }
  }

  /** Filtering a concatenation filters its parts. */
  lemma {:induction false} FilterConcat(s: string, t: string)
    ensures Filter(s + t) == Filter(s) + Filter(t)
  {
    if t != [] {
      var init := t[..|t| - 1];
      FilterConcat(s, init);
      var u := s + t;
      var tail := if Kept(t[|t| - 1]) then [t[|t| - 1]] else [];
      assert u[..|u| - 1] == s + init && u[|u| - 1] == t[|t| - 1];
      assert Filter(u) == Filter(s + init) + tail;
      assert Filter(t) == Filter(init) + tail;
      assert (Filter(s) + Filter(init)) + tail == Filter(s) + (Filter(init) + tail);
    } else {
      assert s + t == s;
    }
  }

  /** A string of kept characters only is left as it is. */
  lemma {:induction false} FilterKeepsKept(s: string)
    requires forall i :: 0 <= i < |s| ==> Kept(s[i])
    ensures Filter(s) == s
  {
    if s != [] {
      var init := s[..|s| - 1];
      FilterKeepsKept(init);
      assert s == init + [s[|s| - 1]];
    }
  }

  /** Filtering twice is filtering once. */
  lemma FilterIdempotent(s: string)
    ensures Filter(Filter(s)) == Filter(s)
  {
    FilterKept(s);
    FilterKeepsKept(Filter(s));
  }

  /** `getSignature`: the characters of `buf` from `w` before `center` to
      `w` after it, clipped at both ends of the buffer. */
  function Signature(buf: string, center: nat, w: nat): (sig: string)
    requires center <= |buf|
    ensures |sig| <= 2 * w
    ensures var left := if center < w then center else w;
      var right := if |buf| - center < w then |buf| - center else w;
      sig == buf[center - left .. center + right]
  {
    var beginIndex := if 0 < center - w then center - w else 0;
    var endIndex := if |buf| < center + w then |buf| else center + w;
    buf[beginIndex..endIndex]
  }

  /** The context buffer of a sentence: the filtered forms of all its
      tokens, in order. */
  function Buffer(tokens: seq<Token>): string {
    if tokens == [] then [] else Buffer(tokens[..|tokens| - 1]) + Filter(TokenForm(tokens[|tokens| - 1]))
  }

  /** The buffer holds kept characters only. */
  lemma {:induction false} BufferKept(tokens: seq<Token>)
    ensures forall i :: 0 <= i < |Buffer(tokens)| ==> Kept(Buffer(tokens)[i])
  {
    if tokens != [] {
      var init := tokens[..|tokens| - 1];
      BufferKept(init);
      FilterKept(TokenForm(tokens[|tokens| - 1]));
    }
  }

  /** The buffer of a prefix of the tokens is a prefix of the buffer. */
  lemma {:induction false} BufferPrefix(tokens: seq<Token>, k: nat)
    requires k <= |tokens|
    ensures |Buffer(tokens[..k])| <= |Buffer(tokens)|
    ensures Buffer(tokens)[..|Buffer(tokens[..k])|] == Buffer(tokens[..k])
  {
    if k < |tokens| {
      var init := tokens[..|tokens| - 1];
      BufferPrefix(init, k);
      assert init[..k] == tokens[..k];
    } else {
      assert tokens[..k] == tokens;
    }
  }

  // ---------------------------------------------------------------------
  // The toponyms a side records

  /** Which toponyms `populateSigsAndLocations` records: on the gold side
      those with a gold index, on the predicted side those with a selection
      or without candidates. */
  predicate Included(t: Toponym, gold: bool, sel: Selections) {
    if gold then t.HasGold() else SelOf(sel, t) >= 0 || t.Ambiguity() == 0
  }

  /** What the recording demands of a side: every gold-indexed toponym has a
      candidate (otherwise the clamped index is -1), and every selection
      lies within its candidates. */
  predicate TokenLocatable(token: Token, gold: bool, sel: Selections) {
    token.Topo? ==>
      if gold then token.toponym.HasGold() ==> token.toponym.Ambiguity() > 0
      else SelOf(sel, token.toponym) < token.toponym.Ambiguity()
  }

  predicate TokensLocatable(tokens: seq<Token>, gold: bool, sel: Selections) {
    forall k :: 0 <= k < |tokens| ==> TokenLocatable(tokens[k], gold, sel)
  }

  predicate DocLocatable(doc: Document, gold: bool, sel: Selections) {
    forall m :: 0 <= m < |doc.sentences| ==> TokensLocatable(doc.sentences[m].tokens, gold, sel)
  }

  predicate CorpusLocatable(corpus: seq<Document>, gold: bool, sel: Selections) {
    forall n :: 0 <= n < |corpus| ==> DocLocatable(corpus[n], gold, sel)
  }

  /** The location recorded for a toponym: on the gold side its gold
      candidate, a gold index past the end standing for the last candidate;
      on the predicted side its selected candidate, and none (null) when it
      has no candidates. */
  function LocationOf(t: Toponym, gold: bool, sel: Selections): (loc: Option<Location>)
    requires Included(t, gold, sel)
    requires gold ==> t.Ambiguity() > 0
    requires !gold ==> SelOf(sel, t) < t.Ambiguity()
    ensures gold ==> loc.Some? && loc.value in t.candidates
    ensures gold && t.goldIdx < t.Ambiguity() ==> loc == Some(t.candidates[t.goldIdx])
    ensures !gold ==> (loc.None? <==> t.Ambiguity() == 0)
    ensures !gold && loc.Some? ==> loc.value == t.candidates[SelOf(sel, t)]
  {
    if gold then Some(t.candidates[if t.goldIdx < t.Ambiguity() then t.goldIdx else t.Ambiguity() - 1])
    else if t.Ambiguity() > 0 then Some(t.candidates[SelOf(sel, t)])
    else None
  }

  /** One recorded toponym of a sentence: where its form starts in the
      context buffer, the toponym, its location and (predicted side only)
      its candidates. These are the parallel lists `toponymStarts`,
      `curToponyms`, `curLocations` and `curCandidates`. */
  datatype Pick = Pick(start: nat, top: Toponym, loc: Option<Location>, cands: seq<Location>)

  /** A location whose region has at least one representative, so that
      distances to it can be finite. */
  predicate Located(l: Location) {
    Representatives(l.region) != []
  }

  predicate PickLocated(p: Pick) {
    (p.loc.Some? ==> Located(p.loc.value)) && forall i :: 0 <= i < |p.cands| ==> Located(p.cands[i])
  }

  /** Every candidate of every toponym among `tokens` is located. */
  predicate TokensLocated(tokens: seq<Token>) {
    forall k, i :: 0 <= k < |tokens| && tokens[k].Topo? && 0 <= i < |tokens[k].toponym.candidates| ==>
      Located(tokens[k].toponym.candidates[i])
  }

  predicate DocLocated(doc: Document) {
    forall m :: 0 <= m < |doc.sentences| ==> TokensLocated(doc.sentences[m].tokens)
  }

  predicate CorpusLocated(corpus: seq<Document>) {
    forall n :: 0 <= n < |corpus| ==> DocLocated(corpus[n])
  }

  /** What a side records for one token whose form starts at `start` in the
      buffer: nothing for a word or an excluded toponym. */
  function PickOf(token: Token, start: nat, gold: bool, sel: Selections): (ps: seq<Pick>)
    requires TokenLocatable(token, gold, sel)
    ensures |ps| <= 1
    ensures forall i :: 0 <= i < |ps| ==> ps[i].start == start
  {
    match token
    case Word(_) => []
    case Topo(t) =>
      if Included(t, gold, sel) then [Pick(start, t, LocationOf(t, gold, sel), if gold then [] else t.candidates)]
      else []
  }

  /** The toponyms of a sentence a side records, in token order, each with
      the length of the context buffer before its own form. */
  function Picks(tokens: seq<Token>, gold: bool, sel: Selections): (ps: seq<Pick>)
    requires TokensLocatable(tokens, gold, sel)
    ensures forall i :: 0 <= i < |ps| ==> ps[i].start <= |Buffer(tokens)|
  {
    if tokens == [] then []
    else
      var init := tokens[..|tokens| - 1];
      assert TokensLocatable(init, gold, sel);
      Picks(init, gold, sel) + PickOf(tokens[|tokens| - 1], |Buffer(init)|, gold, sel)
  }

  /** The filtered form of a recorded toponym sits in `buf` at its start. */
  predicate FormAt(buf: string, p: Pick) {
    var f := Filter(p.top.form);
    p.start + |f| <= |buf| && forall j :: 0 <= j < |f| ==> buf[p.start + j] == f[j]
  }

  lemma FormAtExtend(buf: string, more: string, p: Pick)
    requires FormAt(buf, p)
    ensures FormAt(buf + more, p)
  {
    var f := Filter(p.top.form);
    forall j | 0 <= j < |f|
      ensures (buf + more)[p.start + j] == f[j]
    {
      assert (buf + more)[p.start + j] == buf[p.start + j];
    }
  }

  lemma FormAtEnd(buf: string, p: Pick)
    requires p.start == |buf|
    ensures FormAt(buf + Filter(p.top.form), p)
  {
    var f := Filter(p.top.form);
    forall j | 0 <= j < |f|
      ensures (buf + f)[p.start + j] == f[j]
    {
    }
  }

  /** Each recorded toponym's filtered form sits in the buffer at its
      start. */
  lemma {:induction false} PickFormAtStart(tokens: seq<Token>, gold: bool, sel: Selections, i: nat)
    requires TokensLocatable(tokens, gold, sel) && i < |Picks(tokens, gold, sel)|
    ensures FormAt(Buffer(tokens), Picks(tokens, gold, sel)[i])
  {
    var init := tokens[..|tokens| - 1];
    assert TokensLocatable(init, gold, sel);
    var prev := Picks(init, gold, sel);
    var buf0 := Buffer(init);
    var last := tokens[|tokens| - 1];
    var more := PickOf(last, |buf0|, gold, sel);
    assert Picks(tokens, gold, sel) == prev + more;
    assert Buffer(tokens) == buf0 + Filter(TokenForm(last));
    if i < |prev| {
      PickFormAtStart(init, gold, sel, i);
      FormAtExtend(buf0, Filter(TokenForm(last)), prev[i]);
    } else {
      assert TokenForm(last) == more[0].top.form;
      FormAtEnd(buf0, more[0]);
    }
  }

  // ---------------------------------------------------------------------
  // The signature tables

  /** What the recording of one side builds: signature to location
      (`locs`), signature to candidate list (the evaluator's
      `predCandidates`) and signature to toponym (`signatureToToponym`). */
  datatype Tables = Tables(locs: map<string, Option<Location>>, cands: map<string, seq<Location>>,
                           tops: map<string, Toponym>)

  /** The tables can be joined: every gold location is present, and every
      predicted signature has its candidates and its toponym. */
  predicate Shaped(tb: Tables, gold: bool) {
    if gold then forall k :: k in tb.locs ==> tb.locs[k].Some?
    else forall k :: k in tb.locs ==> k in tb.cands && k in tb.tops
  }

  /** The locations recorded, and the candidates of every recorded
      predicted signature, are located. */
  predicate TablesLocated(tb: Tables, gold: bool) {
    LocsLocated(tb.locs) && (!gold ==> CandsLocated(tb))
  }

  predicate LocsLocated(locs: map<string, Option<Location>>) {
    forall k :: k in locs && locs[k].Some? ==> Located(locs[k].value)
  }

  predicate CandsLocated(tb: Tables) {
    forall k :: k in tb.locs && k in tb.cands ==> forall i :: 0 <= i < |tb.cands[k]| ==> Located(tb.cands[k][i])
  }

  /** Recording the first `n` picks of a sentence of document `docId`: each
      under the signature of its start followed by the document id, a later
      pick overwriting an earlier one with the same signature. Candidates
      are recorded on the predicted side only, and toponyms only where a
      `signatureToToponym` map is passed, which is the predicted side. */
  function RecordPicks(tb: Tables, buf: string, picks: seq<Pick>, docId: string, gold: bool, n: nat): Tables
    requires n <= |picks| && forall i :: 0 <= i < |picks| ==> picks[i].start <= |buf|
  {
    if n == 0 then tb
    else
      var prev := RecordPicks(tb, buf, picks, docId, gold, n - 1);
      var p := picks[n - 1];
      var key := Signature(buf, p.start, ContextWindowSize) + docId;
      Tables(prev.locs[key := p.loc],
             if gold then prev.cands else prev.cands[key := p.cands],
             if gold then prev.tops else prev.tops[key := p.top])
  }

  /** Recording the first `m` sentences of a document. */
  function RecordSentences(tb: Tables, doc: Document, gold: bool, sel: Selections, m: nat): Tables
    requires m <= |doc.sentences|
    requires DocLocatable(doc, gold, sel)
  {
    if m == 0 then tb
    else
      var tokens := doc.sentences[m - 1].tokens;
      var picks := Picks(tokens, gold, sel);
      RecordPicks(RecordSentences(tb, doc, gold, sel, m - 1), Buffer(tokens), picks, doc.id, gold, |picks|)
  }

  /** Recording one more sentence records its picks over its buffer. */
  lemma RecordSentencesStep(tb: Tables, doc: Document, gold: bool, sel: Selections, m: nat)
    requires m < |doc.sentences| && DocLocatable(doc, gold, sel)
    ensures var tokens := doc.sentences[m].tokens;
      var picks := Picks(tokens, gold, sel);
      RecordSentences(tb, doc, gold, sel, m + 1) ==
      RecordPicks(RecordSentences(tb, doc, gold, sel, m), Buffer(tokens), picks, doc.id, gold, |picks|)
  {
  }

  /** Recording the first `n` documents of a corpus. */
  function RecordDocs(tb: Tables, corpus: seq<Document>, gold: bool, sel: Selections, n: nat): Tables
    requires n <= |corpus| && CorpusLocatable(corpus, gold, sel)
  {
    if n == 0 then tb
    else
      var doc := corpus[n - 1];
      RecordSentences(RecordDocs(tb, corpus, gold, sel, n - 1), doc, gold, sel, |doc.sentences|)
  }

  /** A gold pick always has a location, and the pick of a toponym whose
      candidates are all located is located. */
  lemma PickOfShape(token: Token, start: nat, gold: bool, sel: Selections)
    requires TokenLocatable(token, gold, sel)
    ensures var ps := PickOf(token, start, gold, sel);
      && (gold ==> forall i :: 0 <= i < |ps| ==> ps[i].loc.Some?)
      && ((token.Topo? ==> forall i :: 0 <= i < |token.toponym.candidates| ==> Located(token.toponym.candidates[i])) ==>
            forall i :: 0 <= i < |ps| ==> PickLocated(ps[i]))
  {
    if token.Topo? && Included(token.toponym, gold, sel) {
      var t := token.toponym;
      var loc := LocationOf(t, gold, sel);
      if loc.Some? {
        var j :| 0 <= j < |t.candidates| && t.candidates[j] == loc.value;
      }
    }
  }

  /** The recorded picks of a gold sentence all have a location. */
  lemma {:induction false} PicksGold(tokens: seq<Token>, sel: Selections)
    requires TokensLocatable(tokens, true, sel)
    ensures forall i :: 0 <= i < |Picks(tokens, true, sel)| ==> Picks(tokens, true, sel)[i].loc.Some?
  {
    if tokens != [] {
      var init := tokens[..|tokens| - 1];
      assert TokensLocatable(init, true, sel);
      PicksGold(init, sel);
      var last := tokens[|tokens| - 1];
      PickOfShape(last, |Buffer(init)|, true, sel);
      assert Picks(tokens, true, sel) == Picks(init, true, sel) + PickOf(last, |Buffer(init)|, true, sel);
    }
  }

  /** The recorded picks of a located sentence are located. */
  lemma {:induction false} PicksLocated(tokens: seq<Token>, gold: bool, sel: Selections)
    requires TokensLocatable(tokens, gold, sel) && TokensLocated(tokens)
    ensures forall i :: 0 <= i < |Picks(tokens, gold, sel)| ==> PickLocated(Picks(tokens, gold, sel)[i])
  {
    if tokens != [] {
      var init := tokens[..|tokens| - 1];
      assert TokensLocatable(init, gold, sel) && TokensLocated(init);
      PicksLocated(init, gold, sel);
      var last := tokens[|tokens| - 1];
      assert last.Topo? ==> forall c :: 0 <= c < |last.toponym.candidates| ==> Located(last.toponym.candidates[c]);
      PickOfShape(last, |Buffer(init)|, gold, sel);
      assert Picks(tokens, gold, sel) == Picks(init, gold, sel) + PickOf(last, |Buffer(init)|, gold, sel);
    }
  }

  /** Recording keeps the tables joinable: every gold key has a location,
      and every predicted key its candidates and toponym. */
  lemma {:induction false} RecordPicksShaped(tb: Tables, buf: string, picks: seq<Pick>, docId: string, gold: bool, n: nat)
    requires n <= |picks| && forall i :: 0 <= i < |picks| ==> picks[i].start <= |buf|
    requires Shaped(tb, gold) && (gold ==> forall i :: 0 <= i < |picks| ==> picks[i].loc.Some?)
    ensures Shaped(RecordPicks(tb, buf, picks, docId, gold, n), gold)
  {
    if n > 0 {
      RecordPicksShaped(tb, buf, picks, docId, gold, n - 1);
    }
  }

  /** Recording located picks keeps the tables located. */
  lemma {:induction false} RecordPicksLocated(tb: Tables, buf: string, picks: seq<Pick>, docId: string, gold: bool, n: nat)
    requires n <= |picks| && forall i :: 0 <= i < |picks| ==> picks[i].start <= |buf|
    requires TablesLocated(tb, gold) && forall i :: 0 <= i < |picks| ==> PickLocated(picks[i])
    ensures TablesLocated(RecordPicks(tb, buf, picks, docId, gold, n), gold)
  {
    if n > 0 {
      RecordPicksLocated(tb, buf, picks, docId, gold, n - 1);
    }
  }

  /** Recording one sentence keeps the tables joinable. */
  lemma SentenceShaped(tb: Tables, tokens: seq<Token>, docId: string, gold: bool, sel: Selections)
    requires TokensLocatable(tokens, gold, sel) && Shaped(tb, gold)
    ensures Shaped(RecordPicks(tb, Buffer(tokens), Picks(tokens, gold, sel), docId, gold, |Picks(tokens, gold, sel)|), gold)
  {
    if gold {
      PicksGold(tokens, sel);
    }
    RecordPicksShaped(tb, Buffer(tokens), Picks(tokens, gold, sel), docId, gold, |Picks(tokens, gold, sel)|);
  }

  /** Recording one located sentence keeps the tables located. */
  lemma SentenceLocated(tb: Tables, tokens: seq<Token>, docId: string, gold: bool, sel: Selections)
    requires TokensLocatable(tokens, gold, sel) && TokensLocated(tokens) && TablesLocated(tb, gold)
    ensures TablesLocated(RecordPicks(tb, Buffer(tokens), Picks(tokens, gold, sel), docId, gold, |Picks(tokens, gold, sel)|), gold)
  {
    PicksLocated(tokens, gold, sel);
    RecordPicksLocated(tb, Buffer(tokens), Picks(tokens, gold, sel), docId, gold, |Picks(tokens, gold, sel)|);
  }

  lemma {:induction false} RecordSentencesShaped(tb: Tables, doc: Document, gold: bool, sel: Selections, m: nat)
    requires m <= |doc.sentences|
    requires DocLocatable(doc, gold, sel)
    requires Shaped(tb, gold)
    ensures Shaped(RecordSentences(tb, doc, gold, sel, m), gold)
  {
    if m > 0 {
      RecordSentencesShaped(tb, doc, gold, sel, m - 1);
      SentencesStepShaped(tb, doc, gold, sel, m - 1);
    }
  }

  /** Recording one more sentence keeps the tables joinable. */
  lemma SentencesStepShaped(tb: Tables, doc: Document, gold: bool, sel: Selections, m: nat)
    requires m < |doc.sentences| && DocLocatable(doc, gold, sel)
    requires Shaped(RecordSentences(tb, doc, gold, sel, m), gold)
    ensures Shaped(RecordSentences(tb, doc, gold, sel, m + 1), gold)
  {
    assert TokensLocatable(doc.sentences[m].tokens, gold, sel);
    SentenceShaped(RecordSentences(tb, doc, gold, sel, m), doc.sentences[m].tokens, doc.id, gold, sel);
    RecordSentencesStep(tb, doc, gold, sel, m);
  }

  lemma {:induction false} RecordSentencesLocated(tb: Tables, doc: Document, gold: bool, sel: Selections, m: nat)
    requires m <= |doc.sentences|
    requires DocLocatable(doc, gold, sel)
    requires TablesLocated(tb, gold) && DocLocated(doc)
    ensures TablesLocated(RecordSentences(tb, doc, gold, sel, m), gold)
  {
    if m > 0 {
      RecordSentencesLocated(tb, doc, gold, sel, m - 1);
      assert TokensLocatable(doc.sentences[m - 1].tokens, gold, sel) && TokensLocated(doc.sentences[m - 1].tokens);
      SentenceLocated(RecordSentences(tb, doc, gold, sel, m - 1), doc.sentences[m - 1].tokens, doc.id, gold, sel);
      RecordSentencesStep(tb, doc, gold, sel, m - 1);
    }
  }

  lemma {:induction false} RecordDocsShaped(tb: Tables, corpus: seq<Document>, gold: bool, sel: Selections, n: nat)
    requires n <= |corpus| && CorpusLocatable(corpus, gold, sel)
    requires Shaped(tb, gold)
    ensures Shaped(RecordDocs(tb, corpus, gold, sel, n), gold)
  {
    if n > 0 {
      var doc := corpus[n - 1];
      RecordDocsShaped(tb, corpus, gold, sel, n - 1);
      RecordSentencesShaped(RecordDocs(tb, corpus, gold, sel, n - 1), doc, gold, sel, |doc.sentences|);
    }
  }

  lemma {:induction false} RecordDocsLocated(tb: Tables, corpus: seq<Document>, gold: bool, sel: Selections, n: nat)
    requires n <= |corpus| && CorpusLocatable(corpus, gold, sel)
    requires TablesLocated(tb, gold) && CorpusLocated(corpus)
    ensures TablesLocated(RecordDocs(tb, corpus, gold, sel, n), gold)
  {
    if n > 0 {
      var doc := corpus[n - 1];
      RecordDocsLocated(tb, corpus, gold, sel, n - 1);
      RecordSentencesLocated(RecordDocs(tb, corpus, gold, sel, n - 1), doc, gold, sel, |doc.sentences|);
    }
  }

  /** Recording a whole side keeps the tables joinable, and keeps them
      located when the corpus is. */
  lemma RecordDocsShape(tb: Tables, corpus: seq<Document>, gold: bool, sel: Selections)
    requires CorpusLocatable(corpus, gold, sel)
    ensures var r := RecordDocs(tb, corpus, gold, sel, |corpus|);
      && (Shaped(tb, gold) ==> Shaped(r, gold))
      && (TablesLocated(tb, gold) && CorpusLocated(corpus) ==> TablesLocated(r, gold))
  {
    if Shaped(tb, gold) {
      RecordDocsShaped(tb, corpus, gold, sel, |corpus|);
    }
    if TablesLocated(tb, gold) && CorpusLocated(corpus) {
      RecordDocsLocated(tb, corpus, gold, sel, |corpus|);
    }
  }

  /** The tables `evaluate` records from a gold and a predicted corpus can
      be walked. */
  lemma SidesWalkable(corpus: seq<Document>, pred: seq<Document>, pc: map<string, seq<Location>>, sel: Selections,
                      oracle: bool)
    requires CorpusLocatable(corpus, true, map[]) && CorpusLocatable(pred, false, sel)
    requires oracle ==> CorpusLocated(corpus) && CorpusLocated(pred)
    ensures var g := RecordDocs(Tables(map[], pc, map[]), corpus, true, map[], |corpus|);
      var p := RecordDocs(Tables(map[], g.cands, map[]), pred, false, sel, |pred|);
      Walkable(g, p, oracle)
  {
    var g := RecordDocs(Tables(map[], pc, map[]), corpus, true, map[], |corpus|);
    RecordDocsShape(Tables(map[], pc, map[]), corpus, true, map[]);
    RecordDocsShape(Tables(map[], g.cands, map[]), pred, false, sel);
  }

  /** Valid selections make every corpus recordable on the predicted
      side. */
  lemma ValidSelectionsLocatable(corpus: seq<Document>, sel: Selections)
    requires SelectionsValid(sel)
    ensures CorpusLocatable(corpus, false, sel)
  {
    forall n, m, k | 0 <= n < |corpus| && 0 <= m < |corpus[n].sentences| && 0 <= k < |corpus[n].sentences[m].tokens|
      ensures TokenLocatable(corpus[n].sentences[m].tokens[k], false, sel)
    {
      var token := corpus[n].sentences[m].tokens[k];
      if token.Topo? && token.toponym in sel {
        assert SelOf(sel, token.toponym) == sel[token.toponym];
      }
    }
  }

  /** The toponyms of the tokens are all held by `sel`. */
  predicate TokensHeld(tokens: seq<Token>, sel: Selections) {
    forall k :: 0 <= k < |tokens| && tokens[k].Topo? ==> tokens[k].toponym in sel
  }

  predicate DocHeld(doc: Document, sel: Selections) {
    forall m :: 0 <= m < |doc.sentences| ==> TokensHeld(doc.sentences[m].tokens, sel)
  }

  predicate CorpusHeld(corpus: seq<Document>, sel: Selections) {
    forall n :: 0 <= n < |corpus| ==> DocHeld(corpus[n], sel)
  }

  /** A snapshot of a corpus's toponyms holds the toponym of every token. */
  lemma SnapshotHoldsTokens(corpus: seq<Document>)
    ensures CorpusHeld(corpus, Snapshot(ToponymSet(corpus)))
  {
    forall n, m, k | 0 <= n < |corpus| && 0 <= m < |corpus[n].sentences| && 0 <= k < |corpus[n].sentences[m].tokens|
      && corpus[n].sentences[m].tokens[k].Topo?
      ensures corpus[n].sentences[m].tokens[k].toponym in ToponymSet(corpus)
    {
      TokenInCorpus(corpus, n, m, k);
    }
  }

  /** The current selections of a predicted corpus with valid selections
      let the predicted side be recorded. */
  lemma PredictionRecordable(pred: seq<Document>)
    requires SelectionsValid(Snapshot(ToponymSet(pred)))
    ensures var sel := Snapshot(ToponymSet(pred));
      SelectionsAre(sel) && CorpusLocatable(pred, false, sel) && CorpusHeld(pred, sel)
  {
    var sel := Snapshot(ToponymSet(pred));
    SnapshotIsCurrent(ToponymSet(pred), sel);
    SnapshotHoldsTokens(pred);
    ValidSelectionsLocatable(pred, sel);
  }

  // ---------------------------------------------------------------------
  // Closest matches

  /** `Location.distance`: the distance between the locations' regions. */
  function LocationDistance(a: Location, b: Location, cd: (Coordinate, Coordinate) -> real): ExtReal {
    Distance(a.region, b.region, cd)
  }

  /** No candidate is strictly closer to `goldLoc` than `toBeat`. */
  function NoneCloser(goldLoc: Location, cands: seq<Location>, toBeat: ExtReal, cd: (Coordinate, Coordinate) -> real): bool {
    if cands == [] then true
    else if Below(LocationDistance(cands[0], goldLoc, cd), toBeat) then false
    else NoneCloser(goldLoc, cands[1..], toBeat, cd)
  }

  /** The loop of `isClosestMatch` finds no closer candidate exactly when
      there is none. */
  lemma {:induction false} NoneCloserMeans(goldLoc: Location, cands: seq<Location>, toBeat: ExtReal,
                                           cd: (Coordinate, Coordinate) -> real)
    ensures NoneCloser(goldLoc, cands, toBeat, cd) <==>
            forall j :: 0 <= j < |cands| ==> !Below(LocationDistance(cands[j], goldLoc, cd), toBeat)
  {
    if cands != [] {
      NoneCloserMeans(goldLoc, cands[1..], toBeat, cd);
      assert forall j :: 1 <= j < |cands| ==> cands[1..][j - 1] == cands[j];
    }
  }

  /** `isClosestMatch`: false for no prediction; otherwise true when no
      candidate is strictly closer to the gold location than the predicted
      one. */
  function IsClosestMatch(goldLoc: Location, predLoc: Option<Location>, cands: seq<Location>,
                          cd: (Coordinate, Coordinate) -> real): bool {
    predLoc.Some? && NoneCloser(goldLoc, cands, LocationDistance(predLoc.value, goldLoc, cd), cd)
  }

  /** A prediction is a closest match exactly when there is one and no
      candidate is strictly closer to the gold location. */
  lemma IsClosestMatchMeans(goldLoc: Location, predLoc: Option<Location>, cands: seq<Location>,
                            cd: (Coordinate, Coordinate) -> real)
    ensures IsClosestMatch(goldLoc, predLoc, cands, cd) <==>
      && predLoc.Some?
      && forall j :: 0 <= j < |cands| ==>
           !Below(LocationDistance(cands[j], goldLoc, cd), LocationDistance(predLoc.value, goldLoc, cd))
  {
    if predLoc.Some? {
      NoneCloserMeans(goldLoc, cands, LocationDistance(predLoc.value, goldLoc, cd), cd);
    }
  }

  /** The distance of each candidate to `goldLoc`. */
  function CandidateDistances(goldLoc: Location, cands: seq<Location>, cd: (Coordinate, Coordinate) -> real): (ds: seq<ExtReal>)
    ensures |ds| == |cands|
  {
    if cands == [] then []
    else CandidateDistances(goldLoc, cands[..|cands| - 1], cd) + [LocationDistance(cands[|cands| - 1], goldLoc, cd)]
  }

  lemma {:induction false} CandidateDistancesAt(goldLoc: Location, cands: seq<Location>, cd: (Coordinate, Coordinate) -> real, j: nat)
    requires j < |cands|
    ensures CandidateDistances(goldLoc, cands, cd)[j] == LocationDistance(cands[j], goldLoc, cd)
  {
    if j < |cands| - 1 {
      CandidateDistancesAt(goldLoc, cands[..|cands| - 1], cd, j);
    }
  }

  /** The index the loop of `getClosestMatch` settles on. */
  function ClosestIndex(goldLoc: Location, cands: seq<Location>, cd: (Coordinate, Coordinate) -> real): int {
    FirstArgMin(CandidateDistances(goldLoc, cands, cd), Inf)
  }

  /** `getClosestMatch`: the candidate at that index, and none (null) when
      no candidate is at a finite distance, in particular for no
      candidates. */
  function GetClosestMatch(goldLoc: Location, cands: seq<Location>, cd: (Coordinate, Coordinate) -> real): Option<Location> {
    var k := ClosestIndex(goldLoc, cands, cd);
    if 0 <= k < |cands| then Some(cands[k]) else None
  }

  /** The closest match is none exactly when every candidate is at an
      infinite distance; otherwise it is the first candidate at the least
      distance. */
  lemma ClosestIndexIsFirstClosest(goldLoc: Location, cands: seq<Location>, cd: (Coordinate, Coordinate) -> real)
    ensures var k := ClosestIndex(goldLoc, cands, cd);
      && -1 <= k < |cands|
      && (k == -1 <==> forall j :: 0 <= j < |cands| ==> LocationDistance(cands[j], goldLoc, cd).Inf?)
      && (GetClosestMatch(goldLoc, cands, cd).None? <==> k == -1)
      && (k != -1 ==>
            && GetClosestMatch(goldLoc, cands, cd) == Some(cands[k])
            && LocationDistance(cands[k], goldLoc, cd).Fin?
            && (forall j :: 0 <= j < |cands| ==> !Below(LocationDistance(cands[j], goldLoc, cd), LocationDistance(cands[k], goldLoc, cd)))
            && (forall j :: 0 <= j < k ==> Below(LocationDistance(cands[k], goldLoc, cd), LocationDistance(cands[j], goldLoc, cd))))
  {
    var ds := CandidateDistances(goldLoc, cands, cd);
    forall j | 0 <= j < |cands|
      ensures ds[j] == LocationDistance(cands[j], goldLoc, cd)
    {
      CandidateDistancesAt(goldLoc, cands, cd, j);
    }
    MinScanIsFirstArgMin(ds, Inf);
  }

  /** The closest match passes `isClosestMatch`. */
  lemma ClosestMatchIsClosest(goldLoc: Location, cands: seq<Location>, cd: (Coordinate, Coordinate) -> real)
    requires GetClosestMatch(goldLoc, cands, cd).Some?
    ensures IsClosestMatch(goldLoc, GetClosestMatch(goldLoc, cands, cd), cands, cd)
  {
    ClosestIndexIsFirstClosest(goldLoc, cands, cd);
    IsClosestMatchMeans(goldLoc, GetClosestMatch(goldLoc, cands, cd), cands, cd);
  }

  /** Between located regions distances are finite, so a located gold
      location always has a closest match among a non-empty list of
      located candidates. */
  lemma ClosestMatchFound(goldLoc: Location, cands: seq<Location>, cd: (Coordinate, Coordinate) -> real)
    requires Located(goldLoc) && |cands| > 0 && forall i :: 0 <= i < |cands| ==> Located(cands[i])
    ensures GetClosestMatch(goldLoc, cands, cd).Some?
  {
    ClosestIndexIsFirstClosest(goldLoc, cands, cd);
    DistanceIsLeastRepresentativeDistance(cands[0].region, goldLoc.region, cd);
  }

  // ---------------------------------------------------------------------
  // Scoring

  /** What a gold signature counts as. */
  datatype Outcome = TruePositive | FalsePositiveAndNegative | FalseNegative | NotScored

  /** The tables of the two sides can be joined. */
  predicate Joinable(g: Tables, p: Tables) {
    Shaped(g, true) && Shaped(p, false)
  }

  /** A gold signature missing from the prediction is a false negative. A
      matched one is, in oracle mode, a true positive when the prediction
      has candidates and not scored otherwise; outside oracle mode a true
      positive when the predicted location passes `isClosestMatch`, and
      otherwise both a false positive and a false negative. */
  function Classify(ctx: string, g: Tables, p: Tables, oracle: bool, cd: (Coordinate, Coordinate) -> real): Outcome
    requires Joinable(g, p) && ctx in g.locs
  {
    if ctx !in p.locs then FalseNegative
    else if oracle then (if |p.cands[ctx]| > 0 then TruePositive else NotScored)
    else if IsClosestMatch(g.locs[ctx].value, p.locs[ctx], p.cands[ctx], cd) then TruePositive
    else FalsePositiveAndNegative
  }

  function Count(r: Report, o: Outcome): Report {
    match o
    case TruePositive => IncrementTP(r)
    case FalsePositiveAndNegative => IncrementFPandFN(r)
    case FalseNegative => IncrementFN(r)
    case NotScored => r
  }

  /** A distance is recorded for a matched signature: in oracle mode when
      the prediction has candidates, otherwise when it has a location. */
  predicate Recorded(ctx: string, g: Tables, p: Tables, oracle: bool)
    requires Joinable(g, p)
  {
    ctx in p.locs && if oracle then |p.cands[ctx]| > 0 else p.locs[ctx].Some?
  }

  /** The evaluator's state along the walk over the gold signatures. */
  datatype EvalState = EvalState(report: Report, distances: seq<ExtReal>, correct: map<Toponym, Option<Location>>)

  /** Oracle mode reads a distance to the closest match, so it needs
      located tables. */
  predicate Walkable(g: Tables, p: Tables, oracle: bool) {
    Joinable(g, p) && (oracle ==> TablesLocated(g, true) && TablesLocated(p, false))
  }

  /** Scoring one gold signature `ctx`. */
  function Step(st: EvalState, ctx: string, g: Tables, p: Tables, oracle: bool,
                cd: (Coordinate, Coordinate) -> real, cdKm: (Coordinate, Coordinate) -> real): EvalState
    requires Walkable(g, p, oracle) && ctx in g.locs
  {
    if ctx !in p.locs then st.(report := IncrementFN(st.report))
    else
      var goldLoc, predLoc, cands := g.locs[ctx].value, p.locs[ctx], p.cands[ctx];
      var ds := if predLoc.Some? && !oracle then st.distances + [DistanceInKm(goldLoc.region, predLoc.value.region, cd, cdKm)]
                else st.distances;
      var correct := if |cands| > 0 then st.correct[p.tops[ctx] := GetClosestMatch(goldLoc, cands, cd)] else st.correct;
      var ds' := if oracle && |cands| > 0 then
                   ClosestMatchFound(goldLoc, cands, cd);
                   ds + [DistanceInKm(goldLoc.region, GetClosestMatch(goldLoc, cands, cd).value.region, cd, cdKm)]
                 else ds;
      EvalState(Count(st.report, Classify(ctx, g, p, oracle, cd)), ds', correct)
  }

  /** Scoring the gold signatures of `order` one after another. */
  function Walk(st: EvalState, order: seq<string>, g: Tables, p: Tables, oracle: bool,
                cd: (Coordinate, Coordinate) -> real, cdKm: (Coordinate, Coordinate) -> real): EvalState
    requires Walkable(g, p, oracle) && forall i :: 0 <= i < |order| ==> order[i] in g.locs
  {
    if order == [] then st
    else Step(Walk(st, order[..|order| - 1], g, p, oracle, cd, cdKm), order[|order| - 1], g, p, oracle, cd, cdKm)
  }

  predicate Distinct(order: seq<string>) {
    forall i, j :: 0 <= i < j < |order| ==> order[i] != order[j]
  }

  /** The outcome of every gold signature. */
  function Outcomes(g: Tables, p: Tables, oracle: bool, cd: (Coordinate, Coordinate) -> real): (m: map<string, Outcome>)
    requires Joinable(g, p)
    ensures m.Keys == g.locs.Keys
  {
    map c | c in g.locs :: Classify(c, g, p, oracle, cd)
  }

  /** The keys of `keys` that `m` maps to `o`. */
  function WithOutcome(keys: set<string>, m: map<string, Outcome>, o: Outcome): set<string>
    requires keys <= m.Keys
  {
    set c | c in keys && m[c] == o
  }

  lemma WithOutcomeStep(keys: set<string>, k: string, m: map<string, Outcome>, o: Outcome)
    requires keys <= m.Keys && k in m && k !in keys
    ensures |WithOutcome(keys + {k}, m, o)| == |WithOutcome(keys, m, o)| + (if m[k] == o then 1 else 0)
  {
    if m[k] == o {
      assert WithOutcome(keys + {k}, m, o) == WithOutcome(keys, m, o) + {k};
    } else {
      assert WithOutcome(keys + {k}, m, o) == WithOutcome(keys, m, o);
    }
  }

  /** The signatures of `keys` with outcome `o`. */
  function Classed(keys: set<string>, g: Tables, p: Tables, oracle: bool, cd: (Coordinate, Coordinate) -> real,
                   o: Outcome): set<string>
    requires Joinable(g, p) && keys <= g.locs.Keys
  {
    WithOutcome(keys, Outcomes(g, p, oracle, cd), o)
  }

  /** The signatures of `keys` that record a distance. */
  function RecordedKeys(keys: set<string>, g: Tables, p: Tables, oracle: bool): set<string>
    requires Joinable(g, p)
  {
    set c | c in keys && Recorded(c, g, p, oracle)
  }

  lemma ClassedStep(keys: set<string>, k: string, g: Tables, p: Tables, oracle: bool,
                    cd: (Coordinate, Coordinate) -> real, o: Outcome)
    requires Joinable(g, p) && keys <= g.locs.Keys && k in g.locs && k !in keys
    ensures |Classed(keys + {k}, g, p, oracle, cd, o)| ==
            |Classed(keys, g, p, oracle, cd, o)| + (if Classify(k, g, p, oracle, cd) == o then 1 else 0)
  {
    WithOutcomeStep(keys, k, Outcomes(g, p, oracle, cd), o);
  }

  lemma RecordedStep(keys: set<string>, k: string, g: Tables, p: Tables, oracle: bool)
    requires Joinable(g, p) && k !in keys
    ensures |RecordedKeys(keys + {k}, g, p, oracle)| ==
            |RecordedKeys(keys, g, p, oracle)| + (if Recorded(k, g, p, oracle) then 1 else 0)
  {
    if Recorded(k, g, p, oracle) {
      assert RecordedKeys(keys + {k}, g, p, oracle) == RecordedKeys(keys, g, p, oracle) + {k};
    } else {
      assert RecordedKeys(keys + {k}, g, p, oracle) == RecordedKeys(keys, g, p, oracle);
    }
  }

  /** The last of distinct signatures is not among the earlier ones, which
      are distinct too. */
  lemma OrderSplit(order: seq<string>)
    requires order != [] && Distinct(order)
    ensures var init, last := order[..|order| - 1], order[|order| - 1];
      && Distinct(init) && (forall i :: 0 <= i < |init| ==> init[i] == order[i])
      && last !in (set c | c in init)
      && (set c | c in order) == (set c | c in init) + {last}
  {
    var init, last := order[..|order| - 1], order[|order| - 1];
    assert order == init + [last];
  }

  /** Scoring one gold signature counts its outcome and records at most
      one distance, exactly when the signature records one. */
  lemma StepEffect(st: EvalState, ctx: string, g: Tables, p: Tables, oracle: bool,
                   cd: (Coordinate, Coordinate) -> real, cdKm: (Coordinate, Coordinate) -> real)
    requires Walkable(g, p, oracle) && ctx in g.locs
    ensures Step(st, ctx, g, p, oracle, cd, cdKm).report == Count(st.report, Classify(ctx, g, p, oracle, cd))
    ensures |Step(st, ctx, g, p, oracle, cd, cdKm).distances| ==
            |st.distances| + if Recorded(ctx, g, p, oracle) then 1 else 0
  {
  }

  /** Walking distinct gold signatures counts each by its outcome: true
      positives, false negatives and both-counted ones, the instance
      counter untouched. */
  lemma {:induction false} WalkTally(st: EvalState, order: seq<string>, g: Tables, p: Tables, oracle: bool,
                                     cd: (Coordinate, Coordinate) -> real, cdKm: (Coordinate, Coordinate) -> real)
    requires Walkable(g, p, oracle) && (forall i :: 0 <= i < |order| ==> order[i] in g.locs) && Distinct(order)
    ensures var r, keys := Walk(st, order, g, p, oracle, cd, cdKm).report, set c | c in order;
      && r.tp == st.report.tp + |Classed(keys, g, p, oracle, cd, TruePositive)|
      && r.fp == st.report.fp + |Classed(keys, g, p, oracle, cd, FalsePositiveAndNegative)|
      && r.fn == st.report.fn + |Classed(keys, g, p, oracle, cd, FalsePositiveAndNegative)|
                              + |Classed(keys, g, p, oracle, cd, FalseNegative)|
      && r.instances == st.report.instances
  {
    if order != [] {
      var init, last := order[..|order| - 1], order[|order| - 1];
      OrderSplit(order);
      WalkTally(st, init, g, p, oracle, cd, cdKm);
      var keys0 := set c | c in init;
      StepEffect(Walk(st, init, g, p, oracle, cd, cdKm), last, g, p, oracle, cd, cdKm);
      ClassedStep(keys0, last, g, p, oracle, cd, TruePositive);
      ClassedStep(keys0, last, g, p, oracle, cd, FalsePositiveAndNegative);
      ClassedStep(keys0, last, g, p, oracle, cd, FalseNegative);
    }
  }

  /** Walking distinct gold signatures records one distance per recording
      signature. */
  lemma {:induction false} WalkDistances(st: EvalState, order: seq<string>, g: Tables, p: Tables, oracle: bool,
                                         cd: (Coordinate, Coordinate) -> real, cdKm: (Coordinate, Coordinate) -> real)
    requires Walkable(g, p, oracle) && (forall i :: 0 <= i < |order| ==> order[i] in g.locs) && Distinct(order)
    ensures |Walk(st, order, g, p, oracle, cd, cdKm).distances| ==
            |st.distances| + |RecordedKeys((set c | c in order), g, p, oracle)|
  {
    if order != [] {
      var init, last := order[..|order| - 1], order[|order| - 1];
      OrderSplit(order);
      WalkDistances(st, init, g, p, oracle, cd, cdKm);
      var keys0 := set c | c in init;
      StepEffect(Walk(st, init, g, p, oracle, cd, cdKm), last, g, p, oracle, cd, cdKm);
      RecordedStep(keys0, last, g, p, oracle);
    }
  }

  /** Every gold signature has exactly one outcome, and outside oracle
      mode none is left unscored. */
  lemma {:induction false} OutcomesPartition(keys: set<string>, g: Tables, p: Tables, oracle: bool,
                                             cd: (Coordinate, Coordinate) -> real)
    requires Joinable(g, p) && keys <= g.locs.Keys
    ensures |Classed(keys, g, p, oracle, cd, TruePositive)| + |Classed(keys, g, p, oracle, cd, FalsePositiveAndNegative)|
            + |Classed(keys, g, p, oracle, cd, FalseNegative)| + |Classed(keys, g, p, oracle, cd, NotScored)| == |keys|
    ensures !oracle ==> Classed(keys, g, p, oracle, cd, NotScored) == {}
  {
    if keys != {} {
      var k :| k in keys;
      var rest := keys - {k};
      OutcomesPartition(rest, g, p, oracle, cd);
      assert keys == rest + {k};
      ClassedStep(rest, k, g, p, oracle, cd, TruePositive);
      ClassedStep(rest, k, g, p, oracle, cd, FalsePositiveAndNegative);
      ClassedStep(rest, k, g, p, oracle, cd, FalseNegative);
      ClassedStep(rest, k, g, p, oracle, cd, NotScored);
    }
  }

  /** What `evaluate(pred, useSelected)` promises, whatever order the gold
      signatures are walked in: each gold signature gives exactly one of a
      true positive, a false positive and false negative, or a false
      negative (outside oracle mode it is never left unscored); each
      predicted signature missing from the gold side gives one false
      positive; and one distance is recorded per recording signature. */
  lemma EvaluateCounts(g: Tables, p: Tables, order: seq<string>, oracle: bool, correct: map<Toponym, Option<Location>>,
                       cd: (Coordinate, Coordinate) -> real, cdKm: (Coordinate, Coordinate) -> real)
    requires Walkable(g, p, oracle) && Distinct(order) && (set c | c in order) == g.locs.Keys
    ensures forall i :: 0 <= i < |order| ==> order[i] in g.locs
    ensures var st := Walk(EvalState(NewReport(), [], correct), order, g, p, oracle, cd, cdKm);
      var r := st.report.(fp := st.report.fp + |p.locs.Keys - g.locs.Keys|);
      var keys := g.locs.Keys;
      && r.tp == |Classed(keys, g, p, oracle, cd, TruePositive)|
      && r.fp == |Classed(keys, g, p, oracle, cd, FalsePositiveAndNegative)| + |p.locs.Keys - g.locs.Keys|
      && r.fn == |Classed(keys, g, p, oracle, cd, FalsePositiveAndNegative)| + |Classed(keys, g, p, oracle, cd, FalseNegative)|
      && r.instances == 0
      && |Classed(keys, g, p, oracle, cd, TruePositive)| + |Classed(keys, g, p, oracle, cd, FalsePositiveAndNegative)|
         + |Classed(keys, g, p, oracle, cd, FalseNegative)| + |Classed(keys, g, p, oracle, cd, NotScored)| == |keys|
      && (!oracle ==> Classed(keys, g, p, oracle, cd, NotScored) == {})
      && |st.distances| == |RecordedKeys(keys, g, p, oracle)|
  {
    assert forall i :: 0 <= i < |order| ==> order[i] in (set c | c in order);
    WalkTally(EvalState(NewReport(), [], correct), order, g, p, oracle, cd, cdKm);
    WalkDistances(EvalState(NewReport(), [], correct), order, g, p, oracle, cd, cdKm);
    OutcomesPartition(g.locs.Keys, g, p, oracle, cd);
  }

  /** In oracle mode a matched signature whose prediction has candidates
      is a true positive, and the distance recorded for it is the one from
      the gold location to the closest candidate. */
  lemma OracleMatch(st: EvalState, ctx: string, g: Tables, p: Tables,
                    cd: (Coordinate, Coordinate) -> real, cdKm: (Coordinate, Coordinate) -> real)
    requires Walkable(g, p, true) && ctx in g.locs && ctx in p.locs && |p.cands[ctx]| > 0
    ensures var st' := Step(st, ctx, g, p, true, cd, cdKm);
      var goldLoc := g.locs[ctx].value;
      var closest := GetClosestMatch(goldLoc, p.cands[ctx], cd);
      && closest.Some? && closest.value in p.cands[ctx]
      && st'.report == IncrementTP(st.report)
      && st'.distances == st.distances + [DistanceInKm(goldLoc.region, closest.value.region, cd, cdKm)]
  {
    var goldLoc := g.locs[ctx].value;
    ClosestMatchFound(goldLoc, p.cands[ctx], cd);
  }

  /** The loop over the predicted signatures: one false positive for each
      signature the gold side lacks. */
  method CountUnmatched(r: Report, predKeys: set<string>, goldKeys: set<string>) returns (report: Report)
    ensures report == r.(fp := r.fp + |predKeys - goldKeys|)
  {
    report := r;
    var rest := predKeys;
    while rest != {}
      invariant rest <= predKeys
      invariant report == r.(fp := r.fp + |(predKeys - rest) - goldKeys|)
      decreases |rest|
    {
      var context :| context in rest;
      ghost var done := (predKeys - rest) - goldKeys;
      if context !in goldKeys {
        assert (predKeys - (rest - {context})) - goldKeys == done + {context};
        report := IncrementFP(report);
      } else {
        assert (predKeys - (rest - {context})) - goldKeys == done;
      }
      rest := rest - {context};
    }
  }

  /** The body of the token loop of `populateSigsAndLocations` before the
      form is appended: the toponym recorded for `token`, if any. */
  method ScanToken(token: Token, start: nat, gold: bool, ghost sel: Selections) returns (more: seq<Pick>)
    requires TokenLocatable(token, gold, sel) && SelectionsAre(sel)
    requires !gold && token.Topo? ==> token.toponym in sel
    ensures more == PickOf(token, start, gold, sel)
  {
    more := [];
    if token.Topo? {
      var toponym := token.toponym;
      if (gold && toponym.HasGold()) || (!gold && (toponym.HasSelected() || toponym.Ambiguity() == 0)) {
        var loc: Option<Location>;
        var cands: seq<Location> := [];
        if gold {
          loc := Some(toponym.candidates[if toponym.goldIdx < toponym.Ambiguity() then toponym.goldIdx else toponym.Ambiguity() - 1]);
        } else {
          if toponym.Ambiguity() > 0 {
            loc := Some(toponym.candidates[toponym.selectedIdx]);
          } else {
            loc := None;
          }
          cands := toponym.candidates;
        }
        more := [Pick(start, toponym, loc, cands)];
      }
    }
  }

  /** One more token of a sentence: the buffer grows by its kept
      characters and the picks by its own pick, placed at the old end of
      the buffer. */
  lemma ScanStep(tokens: seq<Token>, k: nat, gold: bool, sel: Selections)
    requires k < |tokens| && TokensLocatable(tokens, gold, sel)
    ensures TokenLocatable(tokens[k], gold, sel) && TokensLocatable(tokens[..k], gold, sel)
    ensures Buffer(tokens[..k + 1]) == Buffer(tokens[..k]) + Filter(TokenForm(tokens[k]))
    ensures Picks(tokens[..k + 1], gold, sel) == Picks(tokens[..k], gold, sel) + PickOf(tokens[k], |Buffer(tokens[..k])|, gold, sel)
  {
    assert tokens[..k + 1][..k] == tokens[..k] && tokens[..k + 1][k] == tokens[k];
  }

  /** The token loop of `populateSigsAndLocations` for one sentence: the
      context buffer, and the toponyms the side records. */
  method ScanSentence(tokens: seq<Token>, gold: bool, ghost sel: Selections) returns (sb: string, picks: seq<Pick>)
    requires TokensLocatable(tokens, gold, sel) && SelectionsAre(sel)
    requires !gold ==> TokensHeld(tokens, sel)
    ensures sb == Buffer(tokens) && picks == Picks(tokens, gold, sel)
  {
    sb := [];
    picks := [];
    var k := 0;
    while k < |tokens|
      invariant 0 <= k <= |tokens|
      invariant sb == Buffer(tokens[..k]) && picks == Picks(tokens[..k], gold, sel)
    {
      var token := tokens[k];
      ScanStep(tokens, k, gold, sel);
      var more := ScanToken(token, |sb|, gold, sel);
      picks := picks + more;
      sb := sb + Filter(TokenForm(token));
      k := k + 1;
    }
    assert tokens[..k] == tokens;
  }

  /** Taking a not yet visited key extends a visiting order without
      repeats. */
  lemma OrderStep(order: seq<string>, key: string, keys: set<string>, remaining: set<string>)
    requires remaining <= keys && (set c | c in order) == keys - remaining && Distinct(order) && key in remaining
    ensures Distinct(order + [key])
    ensures (set c | c in order + [key]) == keys - (remaining - {key})
  {
    assert key !in (set c | c in order);
    assert (set c | c in order + [key]) == (set c | c in order) + {key};
  }

  class SignatureEvaluator {
    /** The gold corpus. */
    const corpus: seq<Document>
    const doOracleEval: bool
    /** `Location.distance` between coordinates, and the kilometre distance
        between centres. */
    const cd: (Coordinate, Coordinate) -> real
    const cdKm: (Coordinate, Coordinate) -> real
    /** Signature to candidate list; filled by every predicted-side
        recording and never cleared. */
    var predCandidates: map<string, seq<Location>>
    /** Predicted toponym to the candidate closest to its gold location. */
    var correctLocations: map<Toponym, Option<Location>>
    /** The distance report of the last evaluation (null before the
        first). */
    var dreport: Option<DistanceReport>

    constructor (corpus: seq<Document>, doOracleEval: bool, cd: (Coordinate, Coordinate) -> real,
                 cdKm: (Coordinate, Coordinate) -> real)
      ensures this.corpus == corpus && this.doOracleEval == doOracleEval && this.cd == cd && this.cdKm == cdKm
      ensures predCandidates == map[] && correctLocations == map[] && dreport == None
    {
      this.corpus := corpus;
      this.doOracleEval := doOracleEval;
      this.cd := cd;
      this.cdKm := cdKm;
      predCandidates := map[];
      correctLocations := map[];
      dreport := None;
    }

    /** `evaluate()`: not supported; returns no report. */
    method EvaluateOwn() returns (report: Option<Report>)
      ensures report == None
    {
      report := None;
    }

    /** The second loop of `populateSigsAndLocations` for one sentence. */
    method RecordSentence(locs: map<string, Option<Location>>, tops: map<string, Toponym>, sb: string,
                          picks: seq<Pick>, docId: string, gold: bool)
      returns (locs': map<string, Option<Location>>, tops': map<string, Toponym>)
      requires forall i :: 0 <= i < |picks| ==> picks[i].start <= |sb|
      modifies this`predCandidates
      ensures Tables(locs', predCandidates, tops') == RecordPicks(Tables(locs, old(predCandidates), tops), sb, picks, docId, gold, |picks|)
    {
      locs', tops' := locs, tops;
      var i := 0;
      while i < |picks|
        invariant 0 <= i <= |picks|
        invariant Tables(locs', predCandidates, tops') == RecordPicks(Tables(locs, old(predCandidates), tops), sb, picks, docId, gold, i)
      {
        var context := Signature(sb, picks[i].start, ContextWindowSize) + docId;
        locs' := locs'[context := picks[i].loc];
        if !gold {
          predCandidates := predCandidates[context := picks[i].cands];
          tops' := tops'[context := picks[i].top];
        }
        i := i + 1;
      }
    }

    /** The body of the sentence loop of `populateSigsAndLocations`: the
        tokens are scanned into a buffer and picks, which are recorded. */
    method ScanAndRecord(locs: map<string, Option<Location>>, tops: map<string, Toponym>, tokens: seq<Token>,
                         docId: string, gold: bool, ghost sel: Selections)
      returns (locs': map<string, Option<Location>>, tops': map<string, Toponym>)
      requires TokensLocatable(tokens, gold, sel) && SelectionsAre(sel)
      requires !gold ==> TokensHeld(tokens, sel)
      modifies this`predCandidates
      ensures Tables(locs', predCandidates, tops') ==
              RecordPicks(Tables(locs, old(predCandidates), tops), Buffer(tokens), Picks(tokens, gold, sel), docId, gold,
                          |Picks(tokens, gold, sel)|)
    {
      var sb, picks := ScanSentence(tokens, gold, sel);
      locs', tops' := RecordSentence(locs, tops, sb, picks, docId, gold);
    }

    /** Sentence `s` of `doc` recorded after the first `s`. */
    method RecordSentenceStep(locs: map<string, Option<Location>>, tops: map<string, Toponym>, doc: Document,
                              gold: bool, ghost sel: Selections, ghost start: Tables, s: nat)
      returns (locs': map<string, Option<Location>>, tops': map<string, Toponym>)
      requires s < |doc.sentences| && DocLocatable(doc, gold, sel) && SelectionsAre(sel)
      requires !gold ==> DocHeld(doc, sel)
      requires Tables(locs, predCandidates, tops) == RecordSentences(start, doc, gold, sel, s)
      modifies this`predCandidates
      ensures Tables(locs', predCandidates, tops') == RecordSentences(start, doc, gold, sel, s + 1)
    {
      var tokens := doc.sentences[s].tokens;
      assert TokensLocatable(tokens, gold, sel) && (!gold ==> TokensHeld(tokens, sel));
      RecordSentencesStep(start, doc, gold, sel, s);
      locs', tops' := ScanAndRecord(locs, tops, tokens, doc.id, gold, sel);
    }

    /** The sentence loop of `populateSigsAndLocations` for one document. */
    method RecordDocument(locs: map<string, Option<Location>>, tops: map<string, Toponym>, doc: Document,
                          gold: bool, ghost sel: Selections)
      returns (locs': map<string, Option<Location>>, tops': map<string, Toponym>)
      requires DocLocatable(doc, gold, sel) && SelectionsAre(sel)
      requires !gold ==> DocHeld(doc, sel)
      modifies this`predCandidates
      ensures Tables(locs', predCandidates, tops') ==
              RecordSentences(Tables(locs, old(predCandidates), tops), doc, gold, sel, |doc.sentences|)
    {
      locs', tops' := locs, tops;
      ghost var start := Tables(locs, predCandidates, tops);
      var s := 0;
      while s < |doc.sentences|
        invariant 0 <= s <= |doc.sentences|
        invariant Tables(locs', predCandidates, tops') == RecordSentences(start, doc, gold, sel, s)
      {
        locs', tops' := RecordSentenceStep(locs', tops', doc, gold, sel, start, s);
        s := s + 1;
      }
    }

    /** Document `d` of `c` recorded after the first `d`. */
    method RecordDocumentStep(locs: map<string, Option<Location>>, tops: map<string, Toponym>, c: seq<Document>,
                              gold: bool, ghost sel: Selections, ghost start: Tables, d: nat)
      returns (locs': map<string, Option<Location>>, tops': map<string, Toponym>)
      requires d < |c| && CorpusLocatable(c, gold, sel) && SelectionsAre(sel)
      requires !gold ==> CorpusHeld(c, sel)
      requires Tables(locs, predCandidates, tops) == RecordDocs(start, c, gold, sel, d)
      modifies this`predCandidates
      ensures Tables(locs', predCandidates, tops') == RecordDocs(start, c, gold, sel, d + 1)
    {
      assert DocLocatable(c[d], gold, sel) && (!gold ==> DocHeld(c[d], sel));
      locs', tops' := RecordDocument(locs, tops, c[d], gold, sel);
    }

    /** `populateSigsAndLocations`: the signature tables of one side. */
    method Populate(c: seq<Document>, gold: bool, ghost sel: Selections)
      returns (locs: map<string, Option<Location>>, tops: map<string, Toponym>)
      requires CorpusLocatable(c, gold, sel) && SelectionsAre(sel)
      requires !gold ==> CorpusHeld(c, sel)
      modifies this`predCandidates
      ensures Tables(locs, predCandidates, tops) == RecordDocs(Tables(map[], old(predCandidates), map[]), c, gold, sel, |c|)
    {
      locs, tops := map[], map[];
      ghost var start := Tables(map[], predCandidates, map[]);
      var d := 0;
      while d < |c|
        invariant 0 <= d <= |c|
        invariant Tables(locs, predCandidates, tops) == RecordDocs(start, c, gold, sel, d)
      {
        locs, tops := RecordDocumentStep(locs, tops, c, gold, sel, start, d);
        d := d + 1;
      }
    }

    /** The body of the loop over the gold signatures of `evaluate`: scores
        the gold signature `context`. */
    method ScoreSignature(report: Report, context: string, goldLocs: map<string, Option<Location>>,
                          predLocs: map<string, Option<Location>>, sigToPredTop: map<string, Toponym>,
                          ghost g: Tables, ghost p: Tables)
      returns (report': Report)
      requires g.locs == goldLocs && p == Tables(predLocs, predCandidates, sigToPredTop)
      requires Walkable(g, p, doOracleEval) && context in goldLocs && dreport.Some?
      modifies this`correctLocations, this`dreport
      ensures dreport.Some?
      ensures EvalState(report', dreport.value.distances, correctLocations) ==
              Step(EvalState(report, old(dreport).value.distances, old(correctLocations)), context, g, p, doOracleEval, cd, cdKm)
    {
      report' := report;
      if context in predLocs {
        var goldLoc := goldLocs[context].value;
        var predLoc := predLocs[context];
        if predLoc.Some? && !doOracleEval {
          var dist := DistanceInKm(goldLoc.region, predLoc.value.region, cd, cdKm);
          dreport := Some(AddDistance(dreport.value, dist));
        }
        if |predCandidates[context]| > 0 {
          var closestMatch := GetClosestMatch(goldLoc, predCandidates[context], cd);
          correctLocations := correctLocations[sigToPredTop[context] := closestMatch];
        }
        if doOracleEval {
          if |predCandidates[context]| > 0 {
            var closestMatch := GetClosestMatch(goldLoc, predCandidates[context], cd);
            ClosestMatchFound(goldLoc, predCandidates[context], cd);
            var dist := DistanceInKm(goldLoc.region, closestMatch.value.region, cd, cdKm);
            dreport := Some(AddDistance(dreport.value, dist));
            report' := IncrementTP(report');
          }
        } else {
          if IsClosestMatch(goldLoc, predLoc, predCandidates[context], cd) {
            report' := IncrementTP(report');
          } else {
            report' := IncrementFPandFN(report');
          }
        }
      } else {
        report' := IncrementFN(report');
      }
    }

    /** The loop over the gold signatures of `evaluate`, in an unspecified
        order (the iteration order of a hash map); `order` is the order
        taken. */
    method WalkGold(goldLocs: map<string, Option<Location>>, predLocs: map<string, Option<Location>>,
                    sigToPredTop: map<string, Toponym>, ghost g: Tables, ghost p: Tables)
      returns (report: Report, ghost order: seq<string>)
      requires g.locs == goldLocs && p == Tables(predLocs, predCandidates, sigToPredTop)
      requires Walkable(g, p, doOracleEval)
      modifies this`correctLocations, this`dreport
      ensures Distinct(order) && (set c | c in order) == goldLocs.Keys
      ensures forall i :: 0 <= i < |order| ==> order[i] in g.locs
      ensures var st := Walk(EvalState(NewReport(), [], old(correctLocations)), order, g, p, doOracleEval, cd, cdKm);
        report == st.report && dreport == Some(DistanceReport(st.distances)) && correctLocations == st.correct
    {
      report := NewReport();
      dreport := Some(DistanceReport([]));
      ghost var start := EvalState(NewReport(), [], correctLocations);
      order := [];
      var remaining := goldLocs.Keys;
      while remaining != {}
        invariant remaining <= goldLocs.Keys
        invariant (set c | c in order) == goldLocs.Keys - remaining
        invariant forall i :: 0 <= i < |order| ==> order[i] in g.locs
        invariant Distinct(order)
        invariant dreport.Some?
        invariant EvalState(report, dreport.value.distances, correctLocations) == Walk(start, order, g, p, doOracleEval, cd, cdKm)
        decreases |remaining|
      {
        var context :| context in remaining;
        OrderStep(order, context, goldLocs.Keys, remaining);
        ghost var prevOrder := order;
        report := ScoreSignature(report, context, goldLocs, predLocs, sigToPredTop, g, p);
        remaining := remaining - {context};
        order := order + [context];
        assert order[..|order| - 1] == prevOrder;
      }
    }

    /** The two `populateSigsAndLocations` calls of `evaluate`: the gold
        side's locations, then the predicted side's locations and
        toponyms; the candidate table ends as the predicted side left it. */
    method RecordSides(pred: seq<Document>)
      returns (goldLocs: map<string, Option<Location>>, predLocs: map<string, Option<Location>>,
               sigToPredTop: map<string, Toponym>)
      requires CorpusLocatable(corpus, true, map[])
      requires SelectionsValid(Snapshot(ToponymSet(pred)))
      modifies this`predCandidates
      ensures var g := RecordDocs(Tables(map[], old(predCandidates), map[]), corpus, true, map[], |corpus|);
        && goldLocs == g.locs
        && Tables(predLocs, predCandidates, sigToPredTop) ==
           RecordDocs(Tables(map[], g.cands, map[]), pred, false, Snapshot(ToponymSet(pred)), |pred|)
    {
      ghost var sel := Snapshot(ToponymSet(pred));
      PredictionRecordable(pred);
      var goldTops;
      goldLocs, goldTops := Populate(corpus, true, map[]);
      predLocs, sigToPredTop := Populate(pred, false, sel);
    }

    /** `evaluate(pred, useSelected)`: records the gold side, then the
        predicted side, then scores; `useSelected` plays no part. The
        gold side leaves the candidate table as it was, and the predicted
        side adds to it. */
    method Evaluate(pred: seq<Document>, useSelected: bool) returns (report: Report, ghost order: seq<string>)
      requires CorpusLocatable(corpus, true, map[])
      requires SelectionsValid(Snapshot(ToponymSet(pred)))
      requires doOracleEval ==> CorpusLocated(corpus) && CorpusLocated(pred)
      modifies this`predCandidates, this`correctLocations, this`dreport
      ensures var g := RecordDocs(Tables(map[], old(predCandidates), map[]), corpus, true, map[], |corpus|);
        var p := RecordDocs(Tables(map[], g.cands, map[]), pred, false, old(Snapshot(ToponymSet(pred))), |pred|);
        && Walkable(g, p, doOracleEval)
        && Distinct(order) && (set c | c in order) == g.locs.Keys
        && (forall i :: 0 <= i < |order| ==> order[i] in g.locs)
        && var st := Walk(EvalState(NewReport(), [], old(correctLocations)), order, g, p, doOracleEval, cd, cdKm);
           && report == st.report.(fp := st.report.fp + |p.locs.Keys - g.locs.Keys|)
           && dreport == Some(DistanceReport(st.distances))
           && correctLocations == st.correct
           && predCandidates == p.cands
    {
      ghost var sel := Snapshot(ToponymSet(pred));
      ghost var pc0 := predCandidates;
      ghost var cl0 := correctLocations;
      var goldLocs, predLocs, sigToPredTop := RecordSides(pred);
      ghost var g := RecordDocs(Tables(map[], pc0, map[]), corpus, true, map[], |corpus|);
      ghost var p := Tables(predLocs, predCandidates, sigToPredTop);
      PredictionRecordable(pred);
      SidesWalkable(corpus, pred, pc0, sel, doOracleEval);
      var walked;
      walked, order := WalkGold(goldLocs, predLocs, sigToPredTop, g, p);
      ghost var st := Walk(EvalState(NewReport(), [], cl0), order, g, p, doOracleEval, cd, cdKm);
      report := CountUnmatched(walked, predLocs.Keys, goldLocs.Keys);
    }
  }
}
