/** The text side of a corpus: locations, toponyms, tokens, sentences and
    documents. A toponym's form, candidates and gold index never change once
    it is read; its selected index is what a resolver writes. */
module Text {
  import opened Geometry

  /** A gazetteer location: a name and a region. */
  datatype Location = Location(name: string, region: Region)

  /** A toponym: its form, its candidate locations, the index of the gold
      candidate (-1 for none) and the index of the selected candidate (-1
      for none). */
  class Toponym {
    const form: string
    const candidates: seq<Location>
    const goldIdx: int
    var selectedIdx: int

    constructor (form: string, candidates: seq<Location>, goldIdx: int, selectedIdx: int)
      ensures this.form == form && this.candidates == candidates
      ensures this.goldIdx == goldIdx && this.selectedIdx == selectedIdx
    {
      this.form := form;
      this.candidates := candidates;
      this.goldIdx := goldIdx;
      this.selectedIdx := selectedIdx;
    }

    /** `getAmbiguity`: the number of candidates. */
    function Ambiguity(): nat {
      |candidates|
    }

    /** `hasGold`. */
    predicate HasGold() {
      goldIdx >= 0
    }

    /** `hasSelected`. */
    predicate HasSelected()
      reads this
    {
      selectedIdx >= 0
    }

    /** `setSelectedIdx`. */
    method SetSelectedIdx(idx: int)
      modifies this
      ensures selectedIdx == idx
    {
      selectedIdx := idx;
    }
  }

  /** A token of a sentence: an ordinary word, or a toponym (which is a token
      with its own form). */
  datatype Token = Word(word: string) | Topo(toponym: Toponym)

  /** `getForm` of a token. */
  function TokenForm(t: Token): string {
    match t
    case Word(w) => w
    case Topo(top) => top.form
  }

  datatype Sentence = Sentence(tokens: seq<Token>)

  /** `getToponyms`: the toponyms of a sentence, in token order. */
  function SentenceToponyms(s: Sentence): seq<Toponym> {
    ToponymsOf(s.tokens)
  }

  function ToponymsOf(tokens: seq<Token>): (ts: seq<Toponym>)
    ensures |ts| <= |tokens|
  {
    if tokens == [] then []
    else
      var init := ToponymsOf(tokens[..|tokens| - 1]);
      match tokens[|tokens| - 1]
      case Word(_) => init
      case Topo(t) => init + [t]
  }

  /** The toponyms of a token list are exactly the toponym tokens among
      them: each one comes from a toponym token, and each toponym token
      gives one. */
  lemma {:induction false} ToponymsOfMembers(tokens: seq<Token>)
    ensures var ts := ToponymsOf(tokens);
      && (forall k :: 0 <= k < |ts| ==> Topo(ts[k]) in tokens)
      && (forall k :: 0 <= k < |tokens| && tokens[k].Topo? ==> tokens[k].toponym in ts)
  {
    if tokens != [] {
      var init := tokens[..|tokens| - 1];
      ToponymsOfMembers(init);
      assert tokens == init + [tokens[|tokens| - 1]];
    }
  }

  /** A document: its id, its document-level gold coordinate and its
      sentences. Documents are compared by identity. */
  class Document {
    const id: string
    const goldCoord: Coordinate
    const sentences: seq<Sentence>

    constructor (id: string, goldCoord: Coordinate, sentences: seq<Sentence>)
      ensures this.id == id && this.goldCoord == goldCoord && this.sentences == sentences
    {
      this.id := id;
      this.goldCoord := goldCoord;
      this.sentences := sentences;
    }
  }

  /** The toponyms of a list of sentences, concatenated in order. */
  function Concat(ss: seq<Sentence>): seq<Toponym> {
    if ss == [] then [] else Concat(ss[..|ss| - 1]) + SentenceToponyms(ss[|ss| - 1])
  }

  /** The toponyms of a document, sentence after sentence. */
  function DocToponyms(d: Document): seq<Toponym> {
    Concat(d.sentences)
  }

  /** The toponyms of a whole corpus, document after document. */
  function CorpusToponyms(corpus: seq<Document>): seq<Toponym> {
    if corpus == [] then [] else CorpusToponyms(corpus[..|corpus| - 1]) + DocToponyms(corpus[|corpus| - 1])
  }

  /** Each toponym of a sentence is among the toponyms of the sentence
      list it belongs to. */
  lemma {:induction false} ConcatMember(ss: seq<Sentence>, m: nat, i: nat)
    requires m < |ss| && i < |SentenceToponyms(ss[m])|
    ensures SentenceToponyms(ss[m])[i] in Concat(ss)
  {
    var init := ss[..|ss| - 1];
    if m < |ss| - 1 {
      ConcatMember(init, m, i);
    }
  }

  /** Each toponym of a sentence of a document is among the toponyms of
      the corpus. */
  lemma {:induction false} CorpusToponymsMember(corpus: seq<Document>, n: nat, m: nat, i: nat)
    requires n < |corpus| && m < |corpus[n].sentences| && i < |SentenceToponyms(corpus[n].sentences[m])|
    ensures SentenceToponyms(corpus[n].sentences[m])[i] in CorpusToponyms(corpus)
  {
    var init := corpus[..|corpus| - 1];
    if n < |corpus| - 1 {
      CorpusToponymsMember(init, n, m, i);
    } else {
      ConcatMember(corpus[n].sentences, m, i);
    }
  }

  /** The toponym of a toponym token of a corpus is among the corpus's
      toponyms. */
  lemma TokenInCorpus(corpus: seq<Document>, n: nat, m: nat, k: nat)
    requires n < |corpus| && m < |corpus[n].sentences| && k < |corpus[n].sentences[m].tokens|
    requires corpus[n].sentences[m].tokens[k].Topo?
    ensures corpus[n].sentences[m].tokens[k].toponym in CorpusToponyms(corpus)
  {
    var s := corpus[n].sentences[m];
    ToponymsOfMembers(s.tokens);
    var ts := SentenceToponyms(s);
    var i :| 0 <= i < |ts| && ts[i] == s.tokens[k].toponym;
    CorpusToponymsMember(corpus, n, m, i);
  }

  /** Every toponym object of a corpus. */
  function ToponymSet(corpus: seq<Document>): set<Toponym> {
    set t | t in CorpusToponyms(corpus)
  }

  // ---------------------------------------------------------------------
  // Selections

  /** The selected indices of some toponyms, read off at one moment. */
  type Selections = map<Toponym, int>

  /** `sel` holds the selected index each of its toponyms has right now. */
  ghost predicate SelectionsAre(sel: Selections)
    reads sel.Keys
  {
    forall t :: t in sel ==> t.selectedIdx == sel[t]
  }

  /** The current selected index of each toponym of `ts`. */
  function Snapshot(ts: set<Toponym>): (sel: Selections)
    reads ts
  {
    map t | t in ts :: t.selectedIdx
  }

  /** A snapshot holds exactly the current selections of its toponyms. */
  lemma SnapshotIsCurrent(ts: set<Toponym>, sel: Selections)
    ensures sel == Snapshot(ts) <==> sel.Keys == ts && SelectionsAre(sel)
  {
    if sel.Keys == ts && SelectionsAre(sel) {
      assert forall t :: t in sel ==> sel[t] == Snapshot(ts)[t];
    }
  }

  /** The selection of `t` under `sel`, and -1 (none) for a toponym it does
      not hold. */
  function SelOf(sel: Selections, t: Toponym): int {
    if t in sel then sel[t] else -1
  }

  /** `getSelected` can be called: every selection lies within its
      toponym's candidates. */
  predicate SelectionsValid(sel: Selections) {
    forall t :: t in sel ==> sel[t] < t.Ambiguity()
  }

  /** Each toponym of `ts` is held by `sel`. */
  predicate Covered(ts: seq<Toponym>, sel: Selections) {
    forall i :: 0 <= i < |ts| ==> ts[i] in sel
  }

  predicate SentencesCovered(ss: seq<Sentence>, sel: Selections) {
    forall m :: 0 <= m < |ss| ==> Covered(SentenceToponyms(ss[m]), sel)
  }

  predicate CorpusCovered(docs: seq<Document>, sel: Selections) {
    forall n :: 0 <= n < |docs| ==> SentencesCovered(docs[n].sentences, sel)
  }

  /** A snapshot of a corpus's toponyms holds every toponym of its
      sentences. */
  lemma SnapshotCovers(docs: seq<Document>)
    ensures CorpusCovered(docs, Snapshot(ToponymSet(docs)))
  {
    forall n, m, i | 0 <= n < |docs| && 0 <= m < |docs[n].sentences| && 0 <= i < |SentenceToponyms(docs[n].sentences[m])|
      ensures SentenceToponyms(docs[n].sentences[m])[i] in ToponymSet(docs)
    {
      CorpusToponymsMember(docs, n, m, i);
    }
  }
}
