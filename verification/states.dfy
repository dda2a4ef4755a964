/**
  The workflow state: the record that the three translation nodes read and
  extend. Four inputs are supplied by the caller; the three outputs start
  absent and are filled in by the nodes.
 */
module States {
  import opened Wrappers

  datatype State = State(
    sourceLang: string,
    targetLang: string,
    sourceText: string,
    country: string,              // "" means: no localisation hint
    translation1: Option<string>, // the first draft
    reflection: Option<string>,   // the reviewer's suggestions
    translation2: Option<string>  // the improved translation
  )

  /** The keys of the state record */
  datatype Key = SourceLang | TargetLang | SourceText | Country | Translation1 | Reflection | Translation2 {
    predicate IsOutput() {
      Translation1? || Reflection? || Translation2?
    }
  }

  /** A node's partial update: the keys it returns, with their new values */
  type Update = map<Key, string>

  /** The state a run starts from when the caller supplies only the four
      inputs: the inputs are present and no output has been produced. */
  function Fresh(sourceLang: string, targetLang: string, sourceText: string, country: string): (r: State)
    ensures forall k :: Get(r, k).None? <==> k.IsOutput()
    ensures Produced(r) == {}
    ensures r.sourceLang == sourceLang && r.targetLang == targetLang
    ensures r.sourceText == sourceText && r.country == country
  {
    State(sourceLang, targetLang, sourceText, country, None, None, None)
  }

  /** Reads one key of the state; outputs that were never written are None */
  function Get(s: State, k: Key): Option<string> {
    match k
    case SourceLang => Some(s.sourceLang)
    case TargetLang => Some(s.targetLang)
    case SourceText => Some(s.sourceText)
    case Country => Some(s.country)
    case Translation1 => s.translation1
    case Reflection => s.reflection
    case Translation2 => s.translation2
  }

  /** Merging a node's update into the state: every key the update carries is
      assigned its new value, every other key keeps the value it had. */
  function Merge(s: State, u: Update): (r: State)
    ensures forall k :: Get(r, k) == if k in u then Some(u[k]) else Get(s, k)
  {
    State(
      if SourceLang in u then u[SourceLang] else s.sourceLang,
      if TargetLang in u then u[TargetLang] else s.targetLang,
      if SourceText in u then u[SourceText] else s.sourceText,
      if Country in u then u[Country] else s.country,
      if Translation1 in u then Some(u[Translation1]) else s.translation1,
      if Reflection in u then Some(u[Reflection]) else s.reflection,
      if Translation2 in u then Some(u[Translation2]) else s.translation2
    )
  }

  /** The two states carry the same four caller inputs */
  predicate SameInputs(a: State, b: State) {
    a.sourceLang == b.sourceLang && a.targetLang == b.targetLang &&
    a.sourceText == b.sourceText && a.country == b.country
  }

  /** The output keys that hold a value */
  function Produced(s: State): set<Key> {
    (if s.translation1.Some? then {Translation1} else {}) +
    (if s.reflection.Some? then {Reflection} else {}) +
    (if s.translation2.Some? then {Translation2} else {})
  }

  /** Merging an update that writes exactly one output key keeps the inputs,
      sets that key, and adds it to the produced outputs. */
  lemma MergeOneOutput(s: State, u: Update, k: Key)
    requires k.IsOutput() && u.Keys == {k}
    ensures SameInputs(Merge(s, u), s)
    ensures Get(Merge(s, u), k) == Some(u[k])
    ensures forall j :: j != k ==> Get(Merge(s, u), j) == Get(s, j)
    ensures Produced(Merge(s, u)) == Produced(s) + {k}
  {
    var r := Merge(s, u);
    assert Get(r, SourceLang) == Get(s, SourceLang);
    assert Get(r, TargetLang) == Get(s, TargetLang);
    assert Get(r, SourceText) == Get(s, SourceText);
    assert Get(r, Country) == Get(s, Country);
    assert Get(r, Translation1) == Get(s, Translation1) || k == Translation1;
    assert Get(r, Reflection) == Get(s, Reflection) || k == Reflection;
    assert Get(r, Translation2) == Get(s, Translation2) || k == Translation2;
  }
}
