/** A reference for what the reader must produce: a JSON document, the token
    stream a parser presents for it, and the value the reader is meant to
    build from it (containers by size class, fields and elements in document
    order, keys and scalars through the default hooks). The main lemma proves
    that _readFromAny() reads every document's tokens, wherever they sit in
    the stream, into that value and stops on the document's last token. */
module Documents {
  import opened Tokens
  import opened Values
  import opened Parsing
  import opened JSONReader
  import ReaderProperties

  datatype Json =
    | JNull
    | JTrue
    | JFalse
    | JString(text: string)
    | JInt(intType: NumberType)
    | JFloat(floatType: NumberType)
    | JEmbedded(obj: nat)
    | JObject(fields: seq<(string, Json)>)
    | JArray(items: seq<Json>)

  /** The tokens of a document. */
  function Serialize(j: Json): (r: seq<Token>)
    decreases j
    ensures |r| > 0
  {
    match j
    case JNull => [ValueNull]
    case JTrue => [ValueTrue]
    case JFalse => [ValueFalse]
    case JString(s) => [ValueString(s)]
    case JInt(nt) => [ValueNumberInt(nt)]
    case JFloat(nt) => [ValueNumberFloat(nt)]
    case JEmbedded(o) => [ValueEmbeddedObject(o)]
    case JObject(fs) => [StartObject] + SerializeFields(fs) + [EndObject]
    case JArray(xs) => [StartArray] + SerializeItems(xs) + [EndArray]
  }

  function SerializeFields(fs: seq<(string, Json)>): seq<Token>
    decreases fs
  {
    if fs == [] then []
    else
      assert fs[0].1 < fs[0];
      [FieldName(fs[0].0)] + Serialize(fs[0].1) + SerializeFields(fs[1..])
  }

  function SerializeItems(xs: seq<Json>): seq<Token>
    decreases xs
  {
    if xs == [] then [] else Serialize(xs[0]) + SerializeItems(xs[1..])
  }

  /** The number of tokens of a document. */
  function Size(j: Json): (n: nat)
    decreases j
    ensures n >= 1
  {
    match j
    case JObject(fs) => FieldsSize(fs) + 2
    case JArray(xs) => ItemsSize(xs) + 2
    case _ => 1
  }

  function FieldsSize(fs: seq<(string, Json)>): nat
    decreases fs
  {
    if fs == [] then 0
    else
      assert fs[0].1 < fs[0];
      1 + Size(fs[0].1) + FieldsSize(fs[1..])
  }

  function ItemsSize(xs: seq<Json>): nat
    decreases xs
  {
    if xs == [] then 0 else Size(xs[0]) + ItemsSize(xs[1..])
  }

  /** The document `j` is laid out in `toks` from position `at` on. */
  predicate DocAt(toks: seq<Token>, at: nat, j: Json)
    decreases j
  {
    at < |toks| &&
    match j
    case JNull => toks[at] == ValueNull
    case JTrue => toks[at] == ValueTrue
    case JFalse => toks[at] == ValueFalse
    case JString(s) => toks[at] == ValueString(s)
    case JInt(nt) => toks[at] == ValueNumberInt(nt)
    case JFloat(nt) => toks[at] == ValueNumberFloat(nt)
    case JEmbedded(o) => toks[at] == ValueEmbeddedObject(o)
    case JObject(fs) => toks[at] == StartObject && FieldsAt(toks, at + 1, fs)
    case JArray(xs) => toks[at] == StartArray && ItemsAt(toks, at + 1, xs)
  }

  /** The fields `fs` and the closing END_OBJECT are laid out from `at` on. */
  predicate FieldsAt(toks: seq<Token>, at: nat, fs: seq<(string, Json)>)
    decreases fs
  {
    at < |toks| &&
    if fs == [] then toks[at] == EndObject
    else
      assert fs[0].1 < fs[0];
      && toks[at] == FieldName(fs[0].0)
      && DocAt(toks, at + 1, fs[0].1)
      && FieldsAt(toks, at + 1 + Size(fs[0].1), fs[1..])
  }

  /** The elements `xs` and the closing END_ARRAY are laid out from `at` on. */
  predicate ItemsAt(toks: seq<Token>, at: nat, xs: seq<Json>)
    decreases xs
  {
    at < |toks| &&
    if xs == [] then toks[at] == EndArray
    else DocAt(toks, at, xs[0]) && ItemsAt(toks, at + Size(xs[0]), xs[1..])
  }

  /** A document's first token starts a value: it closes nothing and is not
      a field name. */
  lemma DocStart(toks: seq<Token>, at: nat, j: Json)
    requires DocAt(toks, at, j)
    ensures StartsValue(Some(toks[at]))
    ensures toks[at] != EndObject && toks[at] != EndArray && !toks[at].FieldName?
  {
  }

  /** The first field of a laid-out field list, and where the rest begins. */
  lemma FieldsCons(toks: seq<Token>, at: nat, fs: seq<(string, Json)>)
    requires fs != [] && FieldsAt(toks, at, fs)
    ensures toks[at] == FieldName(fs[0].0)
    ensures DocAt(toks, at + 1, fs[0].1)
    ensures FieldsAt(toks, at + 1 + Size(fs[0].1), fs[1..])
    ensures FieldsSize(fs) == 1 + Size(fs[0].1) + FieldsSize(fs[1..])
  {
  }

  /** The first element of a laid-out element list, and where the rest begins. */
  lemma ItemsCons(toks: seq<Token>, at: nat, xs: seq<Json>)
    requires xs != [] && ItemsAt(toks, at, xs)
    ensures DocAt(toks, at, xs[0])
    ensures ItemsAt(toks, at + Size(xs[0]), xs[1..])
    ensures ItemsSize(xs) == Size(xs[0]) + ItemsSize(xs[1..])
  {
  }

  /** The token a laid-out field list starts with: END_OBJECT when it is
      empty, the first field's name otherwise, followed by a value. */
  lemma FieldsHead(toks: seq<Token>, at: nat, fs: seq<(string, Json)>)
    requires FieldsAt(toks, at, fs)
    ensures fs == [] ==> toks[at] == EndObject
    ensures fs != [] ==> toks[at] == FieldName(fs[0].0) && at + 1 < |toks|
                         && !toks[at + 1].FieldName? && toks[at + 1] != EndObject
  {
    if fs != [] {
      FieldsCons(toks, at, fs);
      DocStart(toks, at + 1, fs[0].1);
    }
  }

  /** The token a laid-out element list starts with: END_ARRAY when it is
      empty, the start of the first element otherwise. */
  lemma ItemsHead(toks: seq<Token>, at: nat, xs: seq<Json>)
    requires ItemsAt(toks, at, xs)
    ensures xs == [] ==> toks[at] == EndArray
    ensures xs != [] ==> StartsValue(Some(toks[at])) && toks[at] != EndArray
                         && toks[at] != EndObject && !toks[at].FieldName?
  {
    if xs != [] {
      ItemsCons(toks, at, xs);
      DocStart(toks, at, xs[0]);
    }
  }

  /** A document has as many tokens as its size. */
  lemma {:induction false} SizeIsLength(j: Json)
    decreases j
    ensures Size(j) == |Serialize(j)|
  {
    match j
    case JObject(fs) => FieldsSizeIsLength(fs);
    case JArray(xs) => ItemsSizeIsLength(xs);
    case _ =>
  }

  lemma {:induction false} FieldsSizeIsLength(fs: seq<(string, Json)>)
    decreases fs
    ensures FieldsSize(fs) == |SerializeFields(fs)|
  {
    if fs != [] {
      assert fs[0].1 < fs[0];
      SizeIsLength(fs[0].1);
      FieldsSizeIsLength(fs[1..]);
    }
  }

  lemma {:induction false} ItemsSizeIsLength(xs: seq<Json>)
    decreases xs
    ensures ItemsSize(xs) == |SerializeItems(xs)|
  {
    if xs != [] {
      SizeIsLength(xs[0]);
      ItemsSizeIsLength(xs[1..]);
    }
  }

  /** The tokens `w` occur in `toks` from position `at` on. */
  predicate Occurs(toks: seq<Token>, at: nat, w: seq<Token>)
  {
    at + |w| <= |toks| && toks[at..at + |w|] == w
  }

  /** Tokens placed between a prefix and a suffix occur right after the prefix. */
  lemma OccursBetween(p: seq<Token>, w: seq<Token>, s: seq<Token>)
    ensures Occurs(p + w + s, |p|, w)
  {
    assert (p + w + s)[|p|..|p| + |w|] == w;
  }

  /** An occurrence of `a + b` is one of `a` followed by one of `b` at `mid`. */
  lemma OccursSplit(toks: seq<Token>, at: nat, a: seq<Token>, b: seq<Token>, mid: nat)
    requires Occurs(toks, at, a + b) && mid == at + |a|
    ensures Occurs(toks, at, a) && Occurs(toks, mid, b)
  {
    assert toks[at..mid] == (a + b)[..|a|];
    assert toks[mid..mid + |b|] == (a + b)[|a|..];
  }

  /** The first token of an occurrence. */
  lemma OccursHead(toks: seq<Token>, at: nat, t: Token, w: seq<Token>)
    requires Occurs(toks, at, [t] + w)
    ensures at < |toks| && toks[at] == t
  {
    assert toks[at] == toks[at..at + |[t] + w|][0];
  }

  /** Wherever a document's tokens occur, the document is laid out there. */
  lemma {:induction false} SerializedLayout(toks: seq<Token>, at: nat, j: Json)
    requires Occurs(toks, at, Serialize(j))
    decreases j
    ensures DocAt(toks, at, j)
  {
    match j
    case JObject(fs) =>
      var w := SerializeFields(fs) + [EndObject];
      assert Serialize(j) == [StartObject] + w;
      OccursHead(toks, at, StartObject, w);
      OccursSplit(toks, at, [StartObject], w, at + 1);
      FieldsLayout(toks, at + 1, fs);
    case JArray(xs) =>
      var w := SerializeItems(xs) + [EndArray];
      assert Serialize(j) == [StartArray] + w;
      OccursHead(toks, at, StartArray, w);
      OccursSplit(toks, at, [StartArray], w, at + 1);
      ItemsLayout(toks, at + 1, xs);
    case _ =>
      assert Serialize(j) == [Serialize(j)[0]] + [];
      OccursHead(toks, at, Serialize(j)[0], []);
  }

  lemma {:induction false} FieldsLayout(toks: seq<Token>, at: nat, fs: seq<(string, Json)>)
    requires Occurs(toks, at, SerializeFields(fs) + [EndObject])
    decreases fs
    ensures FieldsAt(toks, at, fs)
  {
    if fs == [] {
      assert SerializeFields(fs) + [EndObject] == [EndObject] + [];
      OccursHead(toks, at, EndObject, []);
    } else {
      var k, v, rest := fs[0].0, fs[0].1, fs[1..];
      assert v < fs[0];
      var tail := SerializeFields(rest) + [EndObject];
      var w := Serialize(v) + tail;
      assert SerializeFields(fs) + [EndObject] == [FieldName(k)] + w;
      OccursHead(toks, at, FieldName(k), w);
      OccursSplit(toks, at, [FieldName(k)], w, at + 1);
      SizeIsLength(v);
      OccursSplit(toks, at + 1, Serialize(v), tail, at + 1 + Size(v));
      SerializedLayout(toks, at + 1, v);
      FieldsLayout(toks, at + 1 + Size(v), rest);
    }
  }

  lemma {:induction false} ItemsLayout(toks: seq<Token>, at: nat, xs: seq<Json>)
    requires Occurs(toks, at, SerializeItems(xs) + [EndArray])
    decreases xs
    ensures ItemsAt(toks, at, xs)
  {
    if xs == [] {
      assert SerializeItems(xs) + [EndArray] == [EndArray] + [];
      OccursHead(toks, at, EndArray, []);
    } else {
      var v, rest := xs[0], xs[1..];
      var tail := SerializeItems(rest) + [EndArray];
      assert SerializeItems(xs) + [EndArray] == Serialize(v) + tail;
      SizeIsLength(v);
      OccursSplit(toks, at, Serialize(v), tail, at + Size(v));
      SerializedLayout(toks, at, v);
      ItemsLayout(toks, at + Size(v), rest);
    }
  }

  /** The value the reader is meant to build from a document. */
  function Expected(f: Features, j: Json): Value
    decreases j
  {
    match j
    case JNull => NullForRootValue()
    case JTrue => FromBoolean(true)
    case JFalse => FromBoolean(false)
    case JString(s) => FromString(s)
    case JInt(nt) => Integral(IntegerReprOf(nt))
    case JFloat(nt) => Floating(FloatReprOf(f, nt))
    case JEmbedded(o) => FromEmbedded(o)
    case JObject(fs) =>
      if |fs| == 0 then MapEmpty
      else if |fs| == 1 then
        assert fs[0].1 < fs[0];
        MapSingleton(FromKey(fs[0].0), Expected(f, fs[0].1))
      else MapBuilt(ExpectedEntries(f, fs))
    case JArray(xs) =>
      if |xs| == 0 then ListEmpty
      else if |xs| == 1 then ListSingleton(Expected(f, xs[0]))
      else ListBuilt(ExpectedItems(f, xs))
  }

  function ExpectedEntries(f: Features, fs: seq<(string, Json)>): seq<(string, Value)>
    decreases fs
  {
    if fs == [] then []
    else
      assert fs[0].1 < fs[0];
      [(FromKey(fs[0].0), Expected(f, fs[0].1))] + ExpectedEntries(f, fs[1..])
  }

  function ExpectedItems(f: Features, xs: seq<Json>): seq<Value>
    decreases xs
  {
    if xs == [] then [] else [Expected(f, xs[0])] + ExpectedItems(f, xs[1..])
  }

  /** The expected entries are the fields in document order, each key and
      value through the hooks. */
  lemma {:induction false} ExpectedEntriesInOrder(f: Features, fs: seq<(string, Json)>)
    decreases fs
    ensures |ExpectedEntries(f, fs)| == |fs|
    ensures forall i :: 0 <= i < |fs| ==> ExpectedEntries(f, fs)[i] == (FromKey(fs[i].0), Expected(f, fs[i].1))
  {
    if fs != [] {
      ExpectedEntriesInOrder(f, fs[1..]);
      assert forall i :: 1 <= i < |fs| ==> fs[1..][i - 1] == fs[i];
    }
  }

  /** The expected elements are the items in document order. */
  lemma {:induction false} ExpectedItemsInOrder(f: Features, xs: seq<Json>)
    decreases xs
    ensures |ExpectedItems(f, xs)| == |xs|
    ensures forall i :: 0 <= i < |xs| ==> ExpectedItems(f, xs)[i] == Expected(f, xs[i])
  {
    if xs != [] {
      ExpectedItemsInOrder(f, xs[1..]);
      assert forall i :: 1 <= i < |xs| ==> xs[1..][i - 1] == xs[i];
    }
  }

  /** nextValue() onto a token that is not a field name. */
  lemma NextValueOnto(toks: seq<Token>, st: St, at: nat)
    requires at == st.pos + 1 && at < |toks| && !toks[at].FieldName?
    ensures NextValueState(toks, st) == St(at, st.name)
    ensures NextTokenState(toks, st) == St(at, st.name)
  {
  }

  /** nextValue() over the field name at `at` onto its value. */
  lemma NextValueOverField(toks: seq<Token>, st: St, at: nat, k: string)
    requires at == st.pos + 1 && at + 1 < |toks| && toks[at] == FieldName(k) && !toks[at + 1].FieldName?
    ensures NextValueState(toks, st) == St(at + 1, k)
  {
    assert NextTokenState(toks, st) == St(at, k);
  }

  /** _readFromAny() reads a document laid out from the cursor into the
      expected value and stops on the document's last token. */
  lemma {:induction false} ReadsDocument(cfg: Blueprint, j: Json, toks: seq<Token>, st: St)
    requires DocAt(toks, st.pos, j)
    decreases j, 2
    ensures FromAny(cfg, toks, st).result == Success(Expected(cfg.features, j))
    ensures FromAny(cfg, toks, st).st.pos == st.pos + Size(j) - 1
  {
    match j
    case JObject(fs) => ReadsObject(cfg, fs, toks, st);
    case JArray(xs) => ReadsArray(cfg, xs, toks, st);
    case _ =>
  }

  lemma {:induction false} ReadsObject(cfg: Blueprint, fs: seq<(string, Json)>, toks: seq<Token>, st: St)
    requires DocAt(toks, st.pos, JObject(fs))
    decreases fs, 1
    ensures st.pos < |toks|
    ensures FromObject(cfg, toks, st).result == Success(Expected(cfg.features, JObject(fs)))
    ensures FromObject(cfg, toks, st).st.pos == st.pos + Size(JObject(fs)) - 1
  {
    var f := cfg.features;
    var a := st.pos + 1;
    FieldsHead(toks, a, fs);
    if fs == [] {
      NextValueOnto(toks, st, a);
      ReaderProperties.ObjectStageEmpty(cfg, toks, st);
    } else {
      var q, b := ObjectOpening(cfg, fs, toks, st);
      if fs[1..] != [] {
        ReadsFields(cfg, fs[1..], toks, q, St(q + 1, fs[1].0), b);
        ObjectGlue(f, fs);
      }
    }
  }

  /** An object of two or more fields is the built map of the first
      field's pair followed by the others'. */
  lemma ObjectGlue(f: Features, fs: seq<(string, Json)>)
    requires fs != [] && fs[1..] != []
    ensures Expected(f, JObject(fs)) == MapBuilt([(FromKey(fs[0].0), Expected(f, fs[0].1))] + ExpectedEntries(f, fs[1..]))
  {
  }

  /** _readFromObject() on a non-empty object up to its second field name,
      at `q`: a single field gives the singleton map, otherwise the loop
      takes over on the second field's value with the first pair in the
      builder. */
  lemma {:induction false} ObjectOpening(cfg: Blueprint, fs: seq<(string, Json)>, toks: seq<Token>, st: St)
      returns (q: nat, b: Builders.MapBuilder)
    requires fs != [] && DocAt(toks, st.pos, JObject(fs))
    decreases fs, 0
    ensures q == st.pos + 2 + Size(fs[0].1)
    ensures b == cfg.mapBuilder.Start().Put(FromKey(fs[0].0), Expected(cfg.features, fs[0].1))
    ensures b.pending == [(FromKey(fs[0].0), Expected(cfg.features, fs[0].1))]
    ensures FieldsAt(toks, q, fs[1..])
    ensures FieldsSize(fs) == 1 + Size(fs[0].1) + FieldsSize(fs[1..])
    ensures fs[1..] == [] ==>
              FromObject(cfg, toks, st).result == Success(MapSingleton(FromKey(fs[0].0), Expected(cfg.features, fs[0].1)))
              && FromObject(cfg, toks, st).st.pos == q
    ensures fs[1..] != [] ==> FromObject(cfg, toks, st) == ObjectTail(cfg, toks, St(q + 1, fs[1].0), b)
  {
    var a := st.pos + 1;
    var k, v := fs[0].0, fs[0].1;
    FieldsHead(toks, a, fs);
    FieldsCons(toks, a, fs);
    NextValueOverField(toks, st, a, k);
    var s1 := St(a + 1, k);
    ReadsDocument(cfg, v, toks, s1);
    q := a + 1 + Size(v);
    b := cfg.mapBuilder.Start().Put(FromKey(k), Expected(cfg.features, v));
    FieldsHead(toks, q, fs[1..]);
    ReaderProperties.ObjectOpenAfter(cfg, toks, st, s1, Expected(cfg.features, v), q);
  }

  /** The loop of _readFromObject() reads the fields laid out from the
      field name at `at` on, in order, entered on the first one's value. */
  lemma {:induction false} ReadsFields(cfg: Blueprint, fs: seq<(string, Json)>, toks: seq<Token>, at: nat, st: St, b: Builders.MapBuilder)
    requires fs != [] && st == St(at + 1, fs[0].0) && FieldsAt(toks, at, fs)
    decreases fs, 1
    ensures st.pos <= |toks|
    ensures ObjectTail(cfg, toks, st, b).result
         == Success(MapBuilt(b.pending + ExpectedEntries(cfg.features, fs)))
    ensures ObjectTail(cfg, toks, st, b).st.pos == at + FieldsSize(fs)
  {
    var f := cfg.features;
    var next, b' := FieldStep(cfg, fs, toks, at, st, b);
    var rest := fs[1..];
    EntriesGlue(cfg.features, fs, b.pending);
    if rest != [] {
      ReadsFields(cfg, rest, toks, next, St(next + 1, fs[1].0), b');
    }
  }

  /** The expected entries after the first, appended to what was put before. */
  lemma EntriesGlue(f: Features, fs: seq<(string, Json)>, p: seq<(string, Value)>)
    requires fs != []
    ensures (p + [(FromKey(fs[0].0), Expected(f, fs[0].1))]) + ExpectedEntries(f, fs[1..]) == p + ExpectedEntries(f, fs)
    ensures fs[1..] == [] ==> p + [(FromKey(fs[0].0), Expected(f, fs[0].1))] == p + ExpectedEntries(f, fs)
  {
    assert ExpectedEntries(f, fs) == [(FromKey(fs[0].0), Expected(f, fs[0].1))] + ExpectedEntries(f, fs[1..]);
  }

  /** One pass of the object loop over the field whose name is at `at`:
      the last field builds the map, any other hands over to the value of
      the field whose name is at `next`. */
  lemma {:induction false} FieldStep(cfg: Blueprint, fs: seq<(string, Json)>, toks: seq<Token>, at: nat, st: St, b: Builders.MapBuilder)
      returns (next: nat, b': Builders.MapBuilder)
    requires fs != [] && st == St(at + 1, fs[0].0) && FieldsAt(toks, at, fs)
    decreases fs, 0
    ensures st.pos <= |toks|
    ensures next == at + 1 + Size(fs[0].1)
    ensures b' == b.Put(FromKey(fs[0].0), Expected(cfg.features, fs[0].1))
    ensures FieldsAt(toks, next, fs[1..])
    ensures FieldsSize(fs) == 1 + Size(fs[0].1) + FieldsSize(fs[1..])
    ensures fs[1..] == [] ==>
              ObjectTail(cfg, toks, st, b).result == Success(b'.Build())
              && ObjectTail(cfg, toks, st, b).st.pos == next
    ensures fs[1..] != [] ==> ObjectTail(cfg, toks, st, b) == ObjectTail(cfg, toks, St(next + 1, fs[1].0), b')
  {
    var v := fs[0].1;
    assert v < fs[0];
    FieldsCons(toks, at, fs);
    ReadsDocument(cfg, v, toks, st);
    next := at + 1 + Size(v);
    b' := b.Put(FromKey(fs[0].0), Expected(cfg.features, v));
    FieldsHead(toks, next, fs[1..]);
    ReaderProperties.ObjectTailAfter(cfg, toks, st, b, Expected(cfg.features, v), next);
  }

  lemma {:induction false} ReadsArray(cfg: Blueprint, xs: seq<Json>, toks: seq<Token>, st: St)
    requires DocAt(toks, st.pos, JArray(xs))
    decreases xs, 1
    ensures st.pos < |toks|
    ensures FromArray(cfg, toks, st).result == Success(Expected(cfg.features, JArray(xs)))
    ensures FromArray(cfg, toks, st).st.pos == st.pos + Size(JArray(xs)) - 1
  {
    var f := cfg.features;
    var a := st.pos + 1;
    ItemsHead(toks, a, xs);
    if xs == [] {
      NextValueOnto(toks, st, a);
      ReaderProperties.ArrayStageEmpty(cfg, toks, st);
    } else {
      var s2, b := ArrayOpening(cfg, xs, toks, st);
      if xs[1..] != [] {
        ReadsItems(cfg, xs[1..], toks, s2, b);
        ArrayGlue(f, xs);
      }
    }
  }

  /** An array of two or more items is the built list of the first
      item's value followed by the others'. */
  lemma ArrayGlue(f: Features, xs: seq<Json>)
    requires xs != [] && xs[1..] != []
    ensures Expected(f, JArray(xs)) == ListBuilt([Expected(f, xs[0])] + ExpectedItems(f, xs[1..]))
  {
  }

  /** _readFromArray() on a non-empty array up to its second element, on
      which it leaves the cursor `s2`: a single element gives the singleton
      list, otherwise the loop takes over with the first one in the builder. */
  lemma {:induction false} ArrayOpening(cfg: Blueprint, xs: seq<Json>, toks: seq<Token>, st: St)
      returns (s2: St, b: Builders.ListBuilder)
    requires xs != [] && DocAt(toks, st.pos, JArray(xs))
    decreases xs, 0
    ensures s2.pos == st.pos + 1 + Size(xs[0])
    ensures b == cfg.listBuilder.Start().Add(Expected(cfg.features, xs[0]))
    ensures b.pending == [Expected(cfg.features, xs[0])]
    ensures ItemsAt(toks, s2.pos, xs[1..])
    ensures ItemsSize(xs) == Size(xs[0]) + ItemsSize(xs[1..])
    ensures xs[1..] == [] ==> FromArray(cfg, toks, st) == Step(Success(ListSingleton(Expected(cfg.features, xs[0]))), s2)
    ensures xs[1..] != [] ==> FromArray(cfg, toks, st) == ArrayTail(cfg, toks, s2, b)
  {
    var a := st.pos + 1;
    ItemsHead(toks, a, xs);
    ItemsCons(toks, a, xs);
    NextValueOnto(toks, st, a);
    var s1 := St(a, st.name);
    ReadsDocument(cfg, xs[0], toks, s1);
    var q := a + Size(xs[0]);
    ItemsHead(toks, q, xs[1..]);
    ReaderProperties.ArrayOpenAfter(cfg, toks, st, s1, Expected(cfg.features, xs[0]), q);
    s2 := St(q, FromAny(cfg, toks, s1).st.name);
    b := cfg.listBuilder.Start().Add(Expected(cfg.features, xs[0]));
  }

  /** The loop of _readFromArray() reads the remaining elements, in order. */
  lemma {:induction false} ReadsItems(cfg: Blueprint, xs: seq<Json>, toks: seq<Token>, st: St, b: Builders.ListBuilder)
    requires xs != [] && ItemsAt(toks, st.pos, xs)
    decreases xs, 1
    ensures st.pos <= |toks|
    ensures ArrayTail(cfg, toks, st, b).result
         == Success(ListBuilt(b.pending + ExpectedItems(cfg.features, xs)))
    ensures ArrayTail(cfg, toks, st, b).st.pos == st.pos + ItemsSize(xs)
  {
    var s2, b' := ItemStep(cfg, xs, toks, st, b);
    var rest := xs[1..];
    ItemsGlue(cfg.features, xs, b.pending);
    if rest != [] {
      ReadsItems(cfg, rest, toks, s2, b');
    }
  }

  /** The expected elements after the first, appended to what was added before. */
  lemma ItemsGlue(f: Features, xs: seq<Json>, p: seq<Value>)
    requires xs != []
    ensures (p + [Expected(f, xs[0])]) + ExpectedItems(f, xs[1..]) == p + ExpectedItems(f, xs)
    ensures xs[1..] == [] ==> p + [Expected(f, xs[0])] == p + ExpectedItems(f, xs)
  {
    assert ExpectedItems(f, xs) == [Expected(f, xs[0])] + ExpectedItems(f, xs[1..]);
  }

  /** One pass of the array loop over the element the cursor is on; the
      next pass, if any, starts at `s2`. */
  lemma {:induction false} ItemStep(cfg: Blueprint, xs: seq<Json>, toks: seq<Token>, st: St, b: Builders.ListBuilder)
      returns (s2: St, b': Builders.ListBuilder)
    requires xs != [] && ItemsAt(toks, st.pos, xs)
    decreases xs, 0
    ensures st.pos <= |toks|
    ensures s2.pos == st.pos + Size(xs[0])
    ensures b' == b.Add(Expected(cfg.features, xs[0]))
    ensures ItemsAt(toks, s2.pos, xs[1..])
    ensures ItemsSize(xs) == Size(xs[0]) + ItemsSize(xs[1..])
    ensures xs[1..] == [] ==> ArrayTail(cfg, toks, st, b) == Step(Success(b'.Build()), s2)
    ensures xs[1..] != [] ==> ArrayTail(cfg, toks, st, b) == ArrayTail(cfg, toks, s2, b')
  {
    ItemsCons(toks, st.pos, xs);
    ReadsDocument(cfg, xs[0], toks, st);
    var q := st.pos + Size(xs[0]);
    ItemsHead(toks, q, xs[1..]);
    ReaderProperties.ArrayTailAfter(cfg, toks, st, b, Expected(cfg.features, xs[0]), q);
    s2 := St(q, FromAny(cfg, toks, st).st.name);
    b' := b.Add(Expected(cfg.features, xs[0]));
  }

  /** The reader reads every serialized document, wherever it sits in the
      stream, into its expected value and stops on its last token. */
  lemma ReadsSerialized(cfg: Blueprint, p: seq<Token>, j: Json, s: seq<Token>, name: string)
    ensures var toks := p + Serialize(j) + s;
            && FromAny(cfg, toks, St(|p|, name)).result == Success(Expected(cfg.features, j))
            && FromAny(cfg, toks, St(|p|, name)).st.pos == |p| + |Serialize(j)| - 1
  {
    OccursBetween(p, Serialize(j), s);
    SerializedLayout(p + Serialize(j) + s, |p|, j);
    SizeIsLength(j);
    ReadsDocument(cfg, j, p + Serialize(j) + s, St(|p|, name));
  }

  /** readMap() reads any object document into its expected map and stops
      on the object's END_OBJECT. */
  lemma ReadsMapDocument(cfg: Blueprint, fs: seq<(string, Json)>, toks: seq<Token>, st: St)
    requires DocAt(toks, st.pos, JObject(fs))
    ensures MapEntry(cfg, toks, st).result == Success(Expected(cfg.features, JObject(fs)))
    ensures MapEntry(cfg, toks, st).st.pos == st.pos + Size(JObject(fs)) - 1
  {
    ReadsObject(cfg, fs, toks, st);
  }
}
