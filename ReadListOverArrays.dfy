/** readList() and readArray() check for START_ARRAY but then call
    _readFromObject(). On an array's tokens the object loop reads every
    element, never meets END_OBJECT, and fails on the array's own END_ARRAY;
    so neither entry point can return a value. The corrected entry points,
    which call _readFromArray(), read every array document. */
module ReadListOverArrays {
  import opened Tokens
  import opened Values
  import opened Parsing
  import opened JSONReader
  import opened Documents
  import ReaderProperties

  /** The object loop over an element list and the closing END_ARRAY: it
      reads each element and then fails on the END_ARRAY. */
  lemma {:induction false} ObjectLoopOverItems(cfg: Blueprint, xs: seq<Json>, toks: seq<Token>, st: St,
                                               b: Builders.MapBuilder)
    requires ItemsAt(toks, st.pos, xs)
    decreases xs
    ensures ObjectTail(cfg, toks, st, b).result == Failure(UnexpectedValueToken(Some(EndArray)))
    ensures ObjectTail(cfg, toks, st, b).st.pos == st.pos + ItemsSize(xs)
  {
    ItemsHead(toks, st.pos, xs);
    if xs != [] {
      ItemsCons(toks, st.pos, xs);
      ReadsDocument(cfg, xs[0], toks, st);
      var q := st.pos + Size(xs[0]);
      ItemsHead(toks, q, xs[1..]);
      var b' := b.Put(FromKey(st.name), Expected(cfg.features, xs[0]));
      ReaderProperties.ObjectTailAfter(cfg, toks, st, b, Expected(cfg.features, xs[0]), q);
      ObjectLoopOverItems(cfg, xs[1..], toks, St(q, FromAny(cfg, toks, st).st.name), b');
    }
  }

  /** _readFromObject() entered on an array document fails on the array's
      END_ARRAY, whatever the elements. */
  lemma {:induction false} ObjectReadOverArray(cfg: Blueprint, xs: seq<Json>, toks: seq<Token>, st: St)
    requires DocAt(toks, st.pos, JArray(xs))
    ensures st.pos < |toks|
    ensures FromObject(cfg, toks, st).result == Failure(UnexpectedValueToken(Some(EndArray)))
    ensures FromObject(cfg, toks, st).st.pos == st.pos + Size(JArray(xs)) - 1
  {
    var a := st.pos + 1;
    ItemsHead(toks, a, xs);
    NextValueOnto(toks, st, a);
    if xs != [] {
      ItemsCons(toks, a, xs);
      var s1 := St(a, st.name);
      ReadsDocument(cfg, xs[0], toks, s1);
      var q := a + Size(xs[0]);
      ItemsHead(toks, q, xs[1..]);
      ReaderProperties.ObjectOpenAfter(cfg, toks, st, s1, Expected(cfg.features, xs[0]), q);
      var b := cfg.mapBuilder.Start().Put(FromKey(st.name), Expected(cfg.features, xs[0]));
      ObjectLoopOverItems(cfg, xs[1..], toks, St(q, FromAny(cfg, toks, s1).st.name), b);
    }
  }

  /** readList() and readArray() as written fail on every array document,
      and the failure is raised on the array's closing END_ARRAY. */
  lemma {:induction false} EntriesAsWrittenRejectArrays(cfg: Blueprint, xs: seq<Json>, toks: seq<Token>, st: St)
    requires DocAt(toks, st.pos, JArray(xs))
    ensures ListEntry(cfg, toks, st).result == Failure(UnexpectedValueToken(Some(EndArray)))
    ensures ListEntry(cfg, toks, st).st.pos == st.pos + Size(JArray(xs)) - 1
    ensures ArrayEntry(cfg, toks, st).result == Failure(UnexpectedValueToken(Some(EndArray)))
    ensures ArrayEntry(cfg, toks, st).st.pos == st.pos + Size(JArray(xs)) - 1
  {
    ObjectReadOverArray(cfg, xs, toks, st);
  }

  /** The smallest witness: `[]` is refused by readList() as written and
      read as the empty list by the corrected one. */
  lemma EmptyArrayWitness(cfg: Blueprint)
    ensures ListEntry(cfg, [StartArray, EndArray], St(0, "")).result == Failure(UnexpectedValueToken(Some(EndArray)))
    ensures ListEntryCorrected(cfg, [StartArray, EndArray], St(0, "")).result == Success(ListEmpty)
  {
    var toks := [StartArray, EndArray];
    assert DocAt(toks, 0, JArray([]));
    EntriesAsWrittenRejectArrays(cfg, [], toks, St(0, ""));
  }

  /** The elements of the expected list of an array document are its
      items' expected values. */
  lemma ElementsOfExpected(f: Features, xs: seq<Json>)
    ensures Expected(f, JArray(xs)).IsList()
    ensures Elements(Expected(f, JArray(xs))) == ExpectedItems(f, xs)
  {
    if |xs| == 1 {
      assert ExpectedItems(f, xs) == [Expected(f, xs[0])] + ExpectedItems(f, []);
    }
  }

  /** The corrected readList() and readArray() read every array document:
      the list, and the elements in document order, that the document
      stands for, stopping on its END_ARRAY. */
  lemma {:induction false} CorrectedEntriesReadArrays(cfg: Blueprint, xs: seq<Json>, toks: seq<Token>, st: St)
    requires DocAt(toks, st.pos, JArray(xs))
    ensures ListEntryCorrected(cfg, toks, st).result == Success(Expected(cfg.features, JArray(xs)))
    ensures ListEntryCorrected(cfg, toks, st).st.pos == st.pos + Size(JArray(xs)) - 1
    ensures ArrayEntryCorrected(cfg, toks, st).result == Success(ExpectedItems(cfg.features, xs))
    ensures ArrayEntryCorrected(cfg, toks, st).st.pos == st.pos + Size(JArray(xs)) - 1
  {
    ReadsArray(cfg, xs, toks, st);
    ElementsOfExpected(cfg.features, xs);
  }
}
