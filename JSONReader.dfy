/** JSONReader: turns the parser's token stream into a generic tree of maps,
    lists and scalars.

    The reader's configuration (features and the two builders) is the value
    `Blueprint`; its mutant factories are functions on it. A per-operation
    reader is the class `Reader`, which adds a parser whose cursor its
    methods advance. Each reading method is proved equal to a function over
    the token sequence and the parser state (`FromAny`, `FromObject`, ...);
    what the source promises is proved about those functions. */
module JSONReader {
  import opened Tokens
  import opened Values
  import opened Builders
  import opened Parsing

  /** The outcome of a read together with the parser state it leaves. */
  datatype Step<+T> = Step(result: Result<T>, st: St)

  /** The configuration fields of a JSONReader: `_features`, `_listBuilder`,
      `_mapBuilder`. A blueprint is exactly this; a per-operation reader also
      has a parser. Instance identity is value equality here. */
  datatype Blueprint = Blueprint(features: Features, listBuilder: ListBuilder, mapBuilder: MapBuilder)
  {
    /** withFeatures(features). */
    function WithFeatures(f: Features): (r: Blueprint)
      ensures r.features == f
      ensures r.listBuilder == listBuilder && r.mapBuilder == mapBuilder
      ensures f == features ==> r == this
    {
      if features == f then this else With(f, listBuilder, mapBuilder)
    }

    /** with(MapBuilder). */
    function WithMapBuilder(mb: MapBuilder): (r: Blueprint)
      ensures r.mapBuilder == mb
      ensures r.features == features && r.listBuilder == listBuilder
      ensures mb == mapBuilder ==> r == this
    {
      if mapBuilder == mb then this else With(features, listBuilder, mb)
    }

    /** with(ListBuilder). */
    function WithListBuilder(lb: ListBuilder): (r: Blueprint)
      ensures r.listBuilder == lb
      ensures r.features == features && r.mapBuilder == mapBuilder
      ensures lb == listBuilder ==> r == this
    {
      if listBuilder == lb then this else With(features, lb, mapBuilder)
    }

    /** _with(...): the new instance every mutant factory builds. */
    function With(f: Features, lb: ListBuilder, mb: MapBuilder): (r: Blueprint)
      ensures r.features == f && r.listBuilder == lb && r.mapBuilder == mb
    {
      Blueprint(f, lb, mb)
    }

    /** perOperationInstance(p): a fresh reader bound to `p`, with the
        blueprint's features and builders derived for those features. */
    method PerOperationInstance(p: JsonParser) returns (r: Reader)
      ensures fresh(r)
      ensures r.features == features && r.parser == p
      ensures r.listBuilder == listBuilder.NewBuilder(features)
      ensures r.mapBuilder == mapBuilder.NewBuilder(features)
    {
      r := new Reader(this, p);
    }
  }

  // The default conversion hooks. fromNull, nullForRootList, nullForRootMap
  // and nullForRootArray exist in the source but nothing in the reader calls them.

  function FromNull(): Value {
    Null
  }

  function FromBoolean(b: bool): Value {
    Bool(b)
  }

  function FromKey(key: string): string {
    key
  }

  function FromString(s: string): Value {
    Str(s)
  }

  function FromEmbedded(obj: nat): Value {
    Embedded(obj)
  }

  function NullForRootValue(): Value {
    Null
  }

  function NullForRootList(): Value {
    Null
  }

  function NullForRootMap(): Value {
    Null
  }

  function NullForRootArray(): Value {
    Null
  }

  /** The class _readFromInteger() chooses for the parser's number type. */
  function IntegerReprOf(nt: NumberType): (r: IntRepr)
    ensures r == JavaInteger <==> nt == INT
    ensures r == JavaLong <==> nt == LONG
  {
    match nt
    case INT => JavaInteger
    case LONG => JavaLong
    case _ => JavaBigInteger
  }

  /** The class _readFromFloat() chooses: BigDecimal whenever
      USE_BIG_DECIMAL_FOR_FLOATS is on, otherwise by the number type. */
  function FloatReprOf(features: Features, nt: NumberType): (r: FloatRepr)
    ensures UseBigDecimalForFloats in features ==> r == JavaBigDecimal
    ensures r == JavaFloat <==> UseBigDecimalForFloats !in features && nt == FLOAT
    ensures r == JavaDouble <==> UseBigDecimalForFloats !in features && nt == DOUBLE
  {
    if UseBigDecimalForFloats !in features && nt == FLOAT then JavaFloat
    else if UseBigDecimalForFloats !in features && nt == DOUBLE then JavaDouble
    else JavaBigDecimal
  }

  /** Tokens on which _readFromAny() starts a value. */
  predicate StartsValue(t: Option<Token>) {
    match t
    case Some(EndObject) => false
    case Some(EndArray) => false
    case Some(FieldName(_)) => false
    case Some(NotAvailable) => false
    case None => false
    case _ => true
  }

  /** Tokens that are a whole value by themselves. */
  predicate StartsScalar(t: Option<Token>) {
    StartsValue(t) && t != Some(StartObject) && t != Some(StartArray)
  }

  /** _readFromAny(): what it returns and where it leaves the parser. A
      successful read leaves the cursor on the last token of the value. */
  function FromAny(cfg: Blueprint, toks: seq<Token>, st: St): (r: Step<Value>)
    requires st.pos <= |toks|
    decreases |toks| - st.pos, 1
    ensures st.pos <= r.st.pos <= |toks|
    ensures r.result.Success? ==> r.st.pos < |toks|
  {
    match Current(toks, st)
    case Some(ValueNull) => Step(Success(NullForRootValue()), st)
    case Some(StartObject) => FromObject(cfg, toks, st)
    case Some(StartArray) => FromArray(cfg, toks, st)
    case Some(ValueString(text)) => Step(Success(FromString(text)), st)
    case Some(ValueNumberInt(nt)) => Step(Success(Integral(IntegerReprOf(nt))), st)
    case Some(ValueNumberFloat(nt)) => Step(Success(Floating(FloatReprOf(cfg.features, nt))), st)
    case Some(ValueTrue) => Step(Success(FromBoolean(true)), st)
    case Some(ValueFalse) => Step(Success(FromBoolean(false)), st)
    case Some(ValueEmbeddedObject(obj)) => Step(Success(FromEmbedded(obj)), st)
    case _ => Step(Failure(UnexpectedValueToken(Current(toks, st))), st)
  }

  /** _readFromObject(), entered on the token that opens the object. A
      successful read is a map and leaves the cursor on an END_OBJECT; a map
      from the growable builder has at least two entries. */
  function FromObject(cfg: Blueprint, toks: seq<Token>, st: St): (r: Step<Value>)
    requires st.pos < |toks|
    decreases |toks| - st.pos, 0
    ensures st.pos < r.st.pos <= |toks|
    ensures r.result.Success? ==> Current(toks, r.st) == Some(EndObject) && r.result.value.IsMap()
    ensures r.result.Success? && r.result.value.MapBuilt? ==> |r.result.value.entries| >= 2
  {
    var s1 := NextValueState(toks, st);
    if Current(toks, s1) == Some(EndObject) then
      Step(Success(cfg.mapBuilder.EmptyMap()), s1)
    else
      var key := FromKey(s1.name);
      var first := FromAny(cfg, toks, s1);
      if first.result.Failure? then first
      else
        var s2 := NextValueState(toks, first.st);
        if Current(toks, s2) == Some(EndObject) then
          Step(Success(cfg.mapBuilder.SingletonMap(key, first.result.value)), s2)
        else
          ObjectTail(cfg, toks, s2, cfg.mapBuilder.Start().Put(key, first.result.value))
  }

  /** The do/while loop of _readFromObject(), entered on the value of the
      next field: the built map holds what `b` already held followed by at
      least the pair read now. */
  function ObjectTail(cfg: Blueprint, toks: seq<Token>, st: St, b: MapBuilder): (r: Step<Value>)
    requires st.pos <= |toks|
    decreases |toks| - st.pos, 2
    ensures st.pos <= r.st.pos <= |toks|
    ensures r.result.Success? ==> Current(toks, r.st) == Some(EndObject) && r.result.value.MapBuilt?
    ensures r.result.Success? ==>
      |r.result.value.entries| > |b.pending| && r.result.value.entries[..|b.pending|] == b.pending
  {
    var key := FromKey(st.name);
    var v := FromAny(cfg, toks, st);
    if v.result.Failure? then v
    else
      var b' := b.Put(key, v.result.value);
      var s' := NextValueState(toks, v.st);
      if Current(toks, s') == Some(EndObject) then Step(Success(b'.Build()), s')
      else
        var r := ObjectTail(cfg, toks, s', b');
        assert r.result.Success? ==> r.result.value.entries[..|b.pending|] == b'.pending[..|b.pending|];
        r
  }

  /** _readFromArray(), entered on the token that opens the array. A
      successful read is a list and leaves the cursor on an END_ARRAY; a list
      from the growable builder has at least two elements. */
  function FromArray(cfg: Blueprint, toks: seq<Token>, st: St): (r: Step<Value>)
    requires st.pos < |toks|
    decreases |toks| - st.pos, 0
    ensures st.pos < r.st.pos <= |toks|
    ensures r.result.Success? ==> Current(toks, r.st) == Some(EndArray) && r.result.value.IsList()
    ensures r.result.Success? && r.result.value.ListBuilt? ==> |r.result.value.elems| >= 2
  {
    var s1 := NextTokenState(toks, st);
    if Current(toks, s1) == Some(EndArray) then
      Step(Success(cfg.listBuilder.EmptyList()), s1)
    else
      var first := FromAny(cfg, toks, s1);
      if first.result.Failure? then first
      else
        var s2 := NextTokenState(toks, first.st);
        if Current(toks, s2) == Some(EndArray) then
          Step(Success(cfg.listBuilder.SingletonList(first.result.value)), s2)
        else
          ArrayTail(cfg, toks, s2, cfg.listBuilder.Start().Add(first.result.value))
  }

  /** The do/while loop of _readFromArray(), entered on the next element. */
  function ArrayTail(cfg: Blueprint, toks: seq<Token>, st: St, b: ListBuilder): (r: Step<Value>)
    requires st.pos <= |toks|
    decreases |toks| - st.pos, 2
    ensures st.pos <= r.st.pos <= |toks|
    ensures r.result.Success? ==> Current(toks, r.st) == Some(EndArray) && r.result.value.ListBuilt?
    ensures r.result.Success? ==>
      |r.result.value.elems| > |b.pending| && r.result.value.elems[..|b.pending|] == b.pending
  {
    var v := FromAny(cfg, toks, st);
    if v.result.Failure? then v
    else
      var b' := b.Add(v.result.value);
      var s' := NextTokenState(toks, v.st);
      if Current(toks, s') == Some(EndArray) then Step(Success(b'.Build()), s')
      else
        var r := ArrayTail(cfg, toks, s', b');
        assert r.result.Success? ==> r.result.value.elems[..|b.pending|] == b'.pending[..|b.pending|];
        r
  }

  /** readMap(): only on START_OBJECT, and a refusal consumes nothing. */
  function MapEntry(cfg: Blueprint, toks: seq<Token>, st: St): (r: Step<Value>)
    requires st.pos <= |toks|
    ensures Current(toks, st) != Some(StartObject) ==> r == Step(Failure(NotStartObject(Current(toks, st))), st)
    ensures Current(toks, st) == Some(StartObject) ==> r == FromObject(cfg, toks, st)
  {
    if Current(toks, st) != Some(StartObject) then Step(Failure(NotStartObject(Current(toks, st))), st)
    else FromObject(cfg, toks, st)
  }

  /** readList() as written: it checks for START_ARRAY, reads with
      _readFromObject(), and casts the map that returns to a List. */
  function ListEntry(cfg: Blueprint, toks: seq<Token>, st: St): (r: Step<Value>)
    requires st.pos <= |toks|
    ensures Current(toks, st) != Some(StartArray) ==> r == Step(Failure(NotStartArray(Current(toks, st))), st)
    ensures r.result.Failure?
  {
    if Current(toks, st) != Some(StartArray) then Step(Failure(NotStartArray(Current(toks, st))), st)
    else
      var o := FromObject(cfg, toks, st);
      if o.result.Success? && !o.result.value.IsList() then Step(Failure(ClassCast), o.st) else o
  }

  /** readArray() as written: like readList(), with a cast to Object[],
      which no map is. */
  function ArrayEntry(cfg: Blueprint, toks: seq<Token>, st: St): (r: Step<seq<Value>>)
    requires st.pos <= |toks|
    ensures Current(toks, st) != Some(StartArray) ==> r == Step(Failure(NotStartArray(Current(toks, st))), st)
    ensures r.result.Failure?
  {
    if Current(toks, st) != Some(StartArray) then Step(Failure(NotStartArray(Current(toks, st))), st)
    else
      var o := FromObject(cfg, toks, st);
      if o.result.Success? then Step(Failure(ClassCast), o.st) else Step(Failure(o.result.error), o.st)
  }

  /** The elements of a list value, as an Object[] would hold them. */
  function Elements(v: Value): seq<Value>
    requires v.IsList()
  {
    match v
    case ListEmpty => []
    case ListSingleton(e) => [e]
    case ListBuilt(es) => es
  }

  /** readList() as evidently intended: read the array with _readFromArray(). */
  function ListEntryCorrected(cfg: Blueprint, toks: seq<Token>, st: St): (r: Step<Value>)
    requires st.pos <= |toks|
    ensures Current(toks, st) != Some(StartArray) ==> r == Step(Failure(NotStartArray(Current(toks, st))), st)
    ensures r.result.Success? ==> r.result.value.IsList() && Current(toks, r.st) == Some(EndArray)
  {
    if Current(toks, st) != Some(StartArray) then Step(Failure(NotStartArray(Current(toks, st))), st)
    else FromArray(cfg, toks, st)
  }

  /** readArray() as evidently intended: the elements _readFromArray() reads. */
  function ArrayEntryCorrected(cfg: Blueprint, toks: seq<Token>, st: St): (r: Step<seq<Value>>)
    requires st.pos <= |toks|
    ensures Current(toks, st) != Some(StartArray) ==> r == Step(Failure(NotStartArray(Current(toks, st))), st)
    ensures r.result.Success? ==> Current(toks, r.st) == Some(EndArray)
  {
    if Current(toks, st) != Some(StartArray) then Step(Failure(NotStartArray(Current(toks, st))), st)
    else
      var l := FromArray(cfg, toks, st);
      match l.result
      case Success(v) => Step(Success(Elements(v)), l.st)
      case Failure(e) => Step(Failure(e), l.st)
  }

  /** A per-operation JSONReader: the blueprint's configuration, derived
      builders, and the parser it reads from. */
  class Reader {
    const features: Features
    const listBuilder: ListBuilder
    const mapBuilder: MapBuilder
    const parser: JsonParser

    /** JSONReader(base, p): the per-operation constructor. */
    constructor (base: Blueprint, p: JsonParser)
      ensures features == base.features && parser == p
      ensures listBuilder == base.listBuilder.NewBuilder(base.features)
      ensures mapBuilder == base.mapBuilder.NewBuilder(base.features)
    {
      var f := base.features;
      features := f;
      listBuilder := base.listBuilder.NewBuilder(f);
      mapBuilder := base.mapBuilder.NewBuilder(f);
      parser := p;
    }

    /** This reader's configuration fields. */
    function Config(): Blueprint {
      Blueprint(features, listBuilder, mapBuilder)
    }

    method ReadValue() returns (r: Result<Value>)
      requires parser.Valid()
      modifies parser
      ensures parser.Valid()
      ensures Step(r, parser.State()) == FromAny(Config(), parser.tokens, old(parser.State()))
    {
      r := ReadFromAny();
    }

    method ReadMap() returns (r: Result<Value>)
      requires parser.Valid()
      modifies parser
      ensures parser.Valid()
      ensures Step(r, parser.State()) == MapEntry(Config(), parser.tokens, old(parser.State()))
    {
      if parser.CurrentToken() != Some(StartObject) {
        return Failure(NotStartObject(parser.CurrentToken()));
      }
      r := ReadFromObject();
    }

    method ReadList() returns (r: Result<Value>)
      requires parser.Valid()
      modifies parser
      ensures parser.Valid()
      ensures Step(r, parser.State()) == ListEntry(Config(), parser.tokens, old(parser.State()))
    {
      if parser.CurrentToken() != Some(StartArray) {
        return Failure(NotStartArray(parser.CurrentToken()));
      }
      r := ReadFromObject();
      if r.Success? && !r.value.IsList() {
        r := Failure(ClassCast);
      }
    }

    method ReadArray() returns (r: Result<seq<Value>>)
      requires parser.Valid()
      modifies parser
      ensures parser.Valid()
      ensures Step(r, parser.State()) == ArrayEntry(Config(), parser.tokens, old(parser.State()))
    {
      if parser.CurrentToken() != Some(StartArray) {
        return Failure(NotStartArray(parser.CurrentToken()));
      }
      var o := ReadFromObject();
      if o.Success? {
        r := Failure(ClassCast);
      } else {
        r := Failure(o.error);
      }
    }

    method ReadFromAny() returns (r: Result<Value>)
      requires parser.Valid()
      modifies parser
      decreases |parser.tokens| - parser.pos, 1
      ensures parser.Valid()
      ensures Step(r, parser.State()) == FromAny(Config(), parser.tokens, old(parser.State()))
    {
      match parser.CurrentToken()
      case Some(ValueNull) => r := Success(NullForRootValue());
      case Some(StartObject) => r := ReadFromObject();
      case Some(StartArray) => r := ReadFromArray();
      case Some(ValueString(text)) => r := Success(FromString(text));
      case Some(ValueNumberInt(_)) =>
        var v := ReadFromInteger();
        r := Success(v);
      case Some(ValueNumberFloat(_)) =>
        var v := ReadFromFloat();
        r := Success(v);
      case Some(ValueTrue) => r := Success(FromBoolean(true));
      case Some(ValueFalse) => r := Success(FromBoolean(false));
      case Some(ValueEmbeddedObject(obj)) => r := Success(FromEmbedded(obj));
      case _ => r := Failure(UnexpectedValueToken(parser.CurrentToken()));
    }

    method ReadFromObject() returns (r: Result<Value>)
      requires parser.Valid() && parser.pos < |parser.tokens|
      modifies parser
      decreases |parser.tokens| - parser.pos, 0
      ensures parser.Valid()
      ensures Step(r, parser.State()) == FromObject(Config(), parser.tokens, old(parser.State()))
    {
      var p := parser;
      ghost var start := p.pos;
      ghost var spec := FromObject(Config(), p.tokens, p.State());
      // First, the shared empty map.
      var t := p.NextValue();
      if t == Some(EndObject) {
        return Success(mapBuilder.EmptyMap());
      }
      // Then the singleton map.
      var key := FromKey(p.CurrentName());
      var value :- ReadFromAny();
      t := p.NextValue();
      if t == Some(EndObject) {
        return Success(mapBuilder.SingletonMap(key, value));
      }
      // Otherwise the growable builder.
      var b := mapBuilder.Start().Put(key, value);
      while true
        invariant p.Valid() && start < p.pos
        invariant ObjectTail(Config(), p.tokens, p.State(), b) == spec
        decreases |p.tokens| - p.pos
      {
        var k := FromKey(p.CurrentName());
        var v :- ReadFromAny();
        b := b.Put(k, v);
        t := p.NextValue();
        if t == Some(EndObject) {
          return Success(b.Build());
        }
      }
    }

    method ReadFromArray() returns (r: Result<Value>)
      requires parser.Valid() && parser.pos < |parser.tokens|
      modifies parser
      decreases |parser.tokens| - parser.pos, 0
      ensures parser.Valid()
      ensures Step(r, parser.State()) == FromArray(Config(), parser.tokens, old(parser.State()))
    {
      var p := parser;
      ghost var start := p.pos;
      ghost var spec := FromArray(Config(), p.tokens, p.State());
      var t := p.NextToken();
      if t == Some(EndArray) {
        return Success(listBuilder.EmptyList());
      }
      var value :- ReadFromAny();
      t := p.NextToken();
      if t == Some(EndArray) {
        return Success(listBuilder.SingletonList(value));
      }
      var b := listBuilder.Start().Add(value);
      while true
        invariant p.Valid() && start < p.pos
        invariant ArrayTail(Config(), p.tokens, p.State(), b) == spec
        decreases |p.tokens| - p.pos
      {
        var v :- ReadFromAny();
        b := b.Add(v);
        t := p.NextToken();
        if t == Some(EndArray) {
          return Success(b.Build());
        }
      }
    }

    method ReadFromInteger() returns (v: Value)
      requires parser.CurrentToken().Some? && parser.CurrentToken().value.ValueNumberInt?
      ensures v == Integral(IntegerReprOf(parser.CurrentToken().value.intType))
    {
      match parser.CurrentNumberType()
      case Some(INT) => v := Integral(JavaInteger);
      case Some(LONG) => v := Integral(JavaLong);
      case _ => v := Integral(JavaBigInteger);
    }

    method ReadFromFloat() returns (v: Value)
      requires parser.CurrentToken().Some? && parser.CurrentToken().value.ValueNumberFloat?
      ensures v == Floating(FloatReprOf(features, parser.CurrentToken().value.floatType))
    {
      if UseBigDecimalForFloats !in features {
        match parser.CurrentNumberType()
        case Some(FLOAT) => return Floating(JavaFloat);
        case Some(DOUBLE) => return Floating(JavaDouble);
        case _ =>
      }
      v := Floating(JavaBigDecimal);
    }
  }
}
