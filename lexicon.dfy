/** A lexicon of toponym forms: each form added gets the next free index,
    and an index once given never changes. The resolver indexes its
    per-type weight and count tables with it. The lexicon class itself and
    the helpers that fill it from a corpus are not part of this model; they
    are modelled here from how the resolver uses them. */
module Lexicons {
  import opened Text

  /** `forms[i]` is the form with index `i`; `index` maps each form back. */
  datatype Lexicon = Lexicon(forms: seq<string>, index: map<string, nat>)

  ghost predicate Valid(lex: Lexicon) {
    && (forall i :: 0 <= i < |lex.forms| ==> lex.forms[i] in lex.index && lex.index[lex.forms[i]] == i)
    && (forall f :: f in lex.index ==> lex.index[f] < |lex.forms| && lex.forms[lex.index[f]] == f)
  }

  function Size(lex: Lexicon): nat {
    |lex.forms|
  }

  /** The empty lexicon. */
  function Empty(): (lex: Lexicon)
    ensures Valid(lex) && Size(lex) == 0
  {
    Lexicon([], map[])
  }

  /** In a valid lexicon two forms share an index only when they are equal. */
  lemma IndexInjective(lex: Lexicon, f: string, g: string)
    requires Valid(lex) && f in lex.index && g in lex.index
    ensures lex.index[f] == lex.index[g] ==> f == g
  {
  }

  /** `get`: the index of a form, or -1 for a form never added. */
  function Get(lex: Lexicon, f: string): (i: int)
    requires Valid(lex)
    ensures f in lex.index ==> 0 <= i < Size(lex) && lex.forms[i] == f
    ensures f !in lex.index ==> i == -1
  {
    if f in lex.index then lex.index[f] else -1
  }

  /** `getOrAdd`: a known form keeps its index and leaves the lexicon as it
      is; a new form is appended with the next index. */
  function GetOrAdd(lex: Lexicon, f: string): (r: (Lexicon, nat))
    requires Valid(lex)
    ensures Valid(r.0)
    ensures f in lex.index ==> r.0 == lex && r.1 == lex.index[f]
    ensures f !in lex.index ==> r.0.forms == lex.forms + [f] && r.1 == Size(lex)
    ensures f in r.0.index && r.0.index[f] == r.1
    ensures forall g :: g in lex.index ==> g in r.0.index && r.0.index[g] == lex.index[g]
    ensures forall g :: g in r.0.index <==> g in lex.index || g == f
  {
    if f in lex.index then (lex, lex.index[f])
    else
      var lex' := Lexicon(lex.forms + [f], lex.index[f := |lex.forms|]);
      assert forall i :: 0 <= i < |lex.forms| ==> lex'.forms[i] == lex.forms[i];
      (lex', |lex.forms|)
  }

  /** `getOrAdd` of every form of `fs`, in order. */
  function AddForms(lex: Lexicon, fs: seq<string>): (lex': Lexicon)
    requires Valid(lex)
    ensures Valid(lex')
    ensures forall g :: g in lex.index ==> g in lex'.index && lex'.index[g] == lex.index[g]
    ensures forall g :: g in lex'.index <==> g in lex.index || g in fs
    ensures Size(lex) <= Size(lex')
  {
    if fs == [] then lex
    else
      var prev := AddForms(lex, fs[..|fs| - 1]);
      assert fs == fs[..|fs| - 1] + [fs[|fs| - 1]];
      GetOrAdd(prev, fs[|fs| - 1]).0
  }

  /** The forms of the toponyms that have candidates, in order. */
  function FormsWithCandidates(ts: seq<Toponym>): (fs: seq<string>)
    ensures forall f :: f in fs <==> exists k :: 0 <= k < |ts| && ts[k].Ambiguity() > 0 && ts[k].form == f
  {
    if ts == [] then []
    else
      var prev := FormsWithCandidates(ts[..|ts| - 1]);
      assert forall k :: 0 <= k < |ts| - 1 ==> ts[..|ts| - 1][k] == ts[k];
      var t := ts[|ts| - 1];
      if t.Ambiguity() > 0 then prev + [t.form] else prev
  }

  /** `TopoUtil.addToponymsToLexicon`: the form of every toponym of the
      corpus that has candidates, added in corpus order. */
  function AddToponyms(lex: Lexicon, corpus: seq<Document>): (lex': Lexicon)
    requires Valid(lex)
    ensures Valid(lex')
    ensures forall g :: g in lex.index ==> g in lex'.index && lex'.index[g] == lex.index[g]
    ensures forall g :: g in lex'.index <==> (g in lex.index ||
      exists k :: 0 <= k < |CorpusToponyms(corpus)| && CorpusToponyms(corpus)[k].Ambiguity() > 0
                  && CorpusToponyms(corpus)[k].form == g)
  {
    AddForms(lex, FormsWithCandidates(CorpusToponyms(corpus)))
  }

  /** `TopoUtil.buildLexicon`: a fresh lexicon holding exactly the forms of
      the corpus's toponyms that have candidates. */
  function BuildLexicon(corpus: seq<Document>): (lex: Lexicon)
    ensures Valid(lex)
    ensures forall g :: g in lex.index <==>
      exists k :: 0 <= k < |CorpusToponyms(corpus)| && CorpusToponyms(corpus)[k].Ambiguity() > 0
                  && CorpusToponyms(corpus)[k].form == g
  {
    AddToponyms(Empty(), corpus)
  }
}
