/** Properties of the reader over arbitrary token streams: the per-token
    dispatch of _readFromAny(), the three construction stages of the object
    and array readers, and the entry points' token checks. */
module ReaderProperties {
  import opened Tokens
  import opened Values
  import opened Parsing
  import opened JSONReader

  /** _readFromAny() refuses, without moving, exactly the tokens that start
      no value (with no current token at all the source's switch throws
      before its default; the model reports the same failure kind); a
      scalar token is read where it stands; a container moves the cursor;
      and a successful read is a map exactly when it started on
      START_OBJECT and a list exactly when it started on START_ARRAY. */
  lemma FromAnyDispatch(cfg: Blueprint, toks: seq<Token>, st: St)
    requires st.pos <= |toks|
    ensures var r := FromAny(cfg, toks, st);
            && (!StartsValue(Current(toks, st)) <==> r == Step(Failure(UnexpectedValueToken(Current(toks, st))), st))
            && (StartsScalar(Current(toks, st)) ==> r.result.Success? && r.st == st)
            && (!StartsScalar(Current(toks, st)) ==> r.result.Failure? || r.st.pos > st.pos)
            && (r.result.Success? ==>
                  && (r.result.value.IsMap() <==> Current(toks, st) == Some(StartObject))
                  && (r.result.value.IsList() <==> Current(toks, st) == Some(StartArray)))
  {
  }

  /** An object whose first nextValue() is END_OBJECT is the builder's empty map. */
  lemma ObjectStageEmpty(cfg: Blueprint, toks: seq<Token>, st: St)
    requires st.pos < |toks|
    requires Current(toks, NextValueState(toks, st)) == Some(EndObject)
    ensures FromObject(cfg, toks, st) == Step(Success(MapEmpty), NextValueState(toks, st))
  {
  }

  /** An object whose first value is followed by END_OBJECT is the builder's
      singleton map of the transformed key and that value. */
  lemma ObjectStageSingleton(cfg: Blueprint, toks: seq<Token>, st: St)
    requires st.pos < |toks|
    requires Current(toks, NextValueState(toks, st)) != Some(EndObject)
    requires FromAny(cfg, toks, NextValueState(toks, st)).result.Success?
    requires Current(toks, NextValueState(toks, FromAny(cfg, toks, NextValueState(toks, st)).st)) == Some(EndObject)
    ensures var s1 := NextValueState(toks, st);
            var first := FromAny(cfg, toks, s1);
            FromObject(cfg, toks, st)
            == Step(Success(MapSingleton(FromKey(s1.name), first.result.value)), NextValueState(toks, first.st))
  {
  }

  /** Otherwise a successfully read first field seeds the growable builder. */
  lemma ObjectStageBuilt(cfg: Blueprint, toks: seq<Token>, st: St)
    requires st.pos < |toks|
    requires Current(toks, NextValueState(toks, st)) != Some(EndObject)
    requires FromAny(cfg, toks, NextValueState(toks, st)).result.Success?
    requires Current(toks, NextValueState(toks, FromAny(cfg, toks, NextValueState(toks, st)).st)) != Some(EndObject)
    ensures var s1 := NextValueState(toks, st);
            var first := FromAny(cfg, toks, s1);
            FromObject(cfg, toks, st)
            == ObjectTail(cfg, toks, NextValueState(toks, first.st),
                          cfg.mapBuilder.Start().Put(FromKey(s1.name), first.result.value))
  {
  }

  /** An array whose first nextToken() is END_ARRAY is the builder's empty list. */
  lemma ArrayStageEmpty(cfg: Blueprint, toks: seq<Token>, st: St)
    requires st.pos < |toks|
    requires Current(toks, NextTokenState(toks, st)) == Some(EndArray)
    ensures FromArray(cfg, toks, st) == Step(Success(ListEmpty), NextTokenState(toks, st))
  {
  }

  /** An array of one element is the builder's singleton list. */
  lemma ArrayStageSingleton(cfg: Blueprint, toks: seq<Token>, st: St)
    requires st.pos < |toks|
    requires Current(toks, NextTokenState(toks, st)) != Some(EndArray)
    requires FromAny(cfg, toks, NextTokenState(toks, st)).result.Success?
    requires Current(toks, NextTokenState(toks, FromAny(cfg, toks, NextTokenState(toks, st)).st)) == Some(EndArray)
    ensures var first := FromAny(cfg, toks, NextTokenState(toks, st));
            FromArray(cfg, toks, st)
            == Step(Success(ListSingleton(first.result.value)), NextTokenState(toks, first.st))
  {
  }

  /** Otherwise the first element seeds the growable builder. */
  lemma ArrayStageBuilt(cfg: Blueprint, toks: seq<Token>, st: St)
    requires st.pos < |toks|
    requires Current(toks, NextTokenState(toks, st)) != Some(EndArray)
    requires FromAny(cfg, toks, NextTokenState(toks, st)).result.Success?
    requires Current(toks, NextTokenState(toks, FromAny(cfg, toks, NextTokenState(toks, st)).st)) != Some(EndArray)
    ensures var first := FromAny(cfg, toks, NextTokenState(toks, st));
            FromArray(cfg, toks, st)
            == ArrayTail(cfg, toks, NextTokenState(toks, first.st),
                         cfg.listBuilder.Start().Add(first.result.value))
  {
  }

  /** One iteration of the object loop: the pair read now is put, then
      nextValue() decides between build() and the next iteration. */
  lemma ObjectTailStep(cfg: Blueprint, toks: seq<Token>, st: St, b: Builders.MapBuilder)
    requires st.pos <= |toks|
    requires FromAny(cfg, toks, st).result.Success?
    ensures var v := FromAny(cfg, toks, st);
            var b' := b.Put(FromKey(st.name), v.result.value);
            var s' := NextValueState(toks, v.st);
            ObjectTail(cfg, toks, st, b)
            == if Current(toks, s') == Some(EndObject) then Step(Success(b'.Build()), s')
               else ObjectTail(cfg, toks, s', b')
  {
  }

  /** One iteration of the array loop. */
  lemma ArrayTailStep(cfg: Blueprint, toks: seq<Token>, st: St, b: Builders.ListBuilder)
    requires st.pos <= |toks|
    requires FromAny(cfg, toks, st).result.Success?
    ensures var v := FromAny(cfg, toks, st);
            var b' := b.Add(v.result.value);
            var s' := NextTokenState(toks, v.st);
            ArrayTail(cfg, toks, st, b)
            == if Current(toks, s') == Some(EndArray) then Step(Success(b'.Build()), s')
               else ArrayTail(cfg, toks, s', b')
  {
  }

  /** The array loop after an element whose next token is at `next`:
      END_ARRAY there builds, anything else that is not a field name
      continues with that token. */
  lemma ArrayTailAfter(cfg: Blueprint, toks: seq<Token>, st: St, b: Builders.ListBuilder, v: Value, next: nat)
    requires st.pos <= |toks|
    requires FromAny(cfg, toks, st).result == Success(v) && FromAny(cfg, toks, st).st.pos + 1 == next
    requires next < |toks| && !toks[next].FieldName?
    ensures var s' := St(next, FromAny(cfg, toks, st).st.name);
            && (toks[next] == EndArray ==> ArrayTail(cfg, toks, st, b) == Step(Success(b.Add(v).Build()), s'))
            && (toks[next] != EndArray ==> ArrayTail(cfg, toks, st, b) == ArrayTail(cfg, toks, s', b.Add(v)))
  {
    ArrayTailStep(cfg, toks, st, b);
  }

  /** The object loop after a value whose next token is at `next`:
      END_OBJECT there builds; a field name there moves on to that
      field's value. */
  lemma ObjectTailAfter(cfg: Blueprint, toks: seq<Token>, st: St, b: Builders.MapBuilder, v: Value, next: nat)
    requires st.pos <= |toks|
    requires FromAny(cfg, toks, st).result == Success(v) && FromAny(cfg, toks, st).st.pos + 1 == next
    requires next < |toks|
    ensures var b' := b.Put(FromKey(st.name), v);
            && (toks[next] == EndObject ==>
                  ObjectTail(cfg, toks, st, b) == Step(Success(b'.Build()), St(next, FromAny(cfg, toks, st).st.name)))
            && (toks[next].FieldName? && next + 1 < |toks| && !toks[next + 1].FieldName? && toks[next + 1] != EndObject ==>
                  ObjectTail(cfg, toks, st, b) == ObjectTail(cfg, toks, St(next + 1, toks[next].name), b'))
            && (!toks[next].FieldName? && toks[next] != EndObject ==>
                  ObjectTail(cfg, toks, st, b) == ObjectTail(cfg, toks, St(next, FromAny(cfg, toks, st).st.name), b'))
  {
    ObjectTailStep(cfg, toks, st, b);
    var after := FromAny(cfg, toks, st).st;
    if toks[next].FieldName? {
      assert NextTokenState(toks, after) == St(next, toks[next].name);
    }
  }

  /** The opening of the object reader after its first value, read from
      `s1`, whose next token is at `next`: END_OBJECT there gives the
      singleton map; a field name there moves on to that field's value; any
      other value token is read as the next value, under the last name seen. */
  lemma ObjectOpenAfter(cfg: Blueprint, toks: seq<Token>, st: St, s1: St, v: Value, next: nat)
    requires st.pos < |toks|
    requires NextValueState(toks, st) == s1 && Current(toks, s1) != Some(EndObject)
    requires FromAny(cfg, toks, s1).result == Success(v) && FromAny(cfg, toks, s1).st.pos + 1 == next
    requires next < |toks|
    ensures var b := cfg.mapBuilder.Start().Put(FromKey(s1.name), v);
            var name := FromAny(cfg, toks, s1).st.name;
            && (toks[next] == EndObject ==>
                  FromObject(cfg, toks, st) == Step(Success(MapSingleton(FromKey(s1.name), v)), St(next, name)))
            && (toks[next].FieldName? && next + 1 < |toks| && !toks[next + 1].FieldName? && toks[next + 1] != EndObject ==>
                  FromObject(cfg, toks, st) == ObjectTail(cfg, toks, St(next + 1, toks[next].name), b))
            && (!toks[next].FieldName? && toks[next] != EndObject ==>
                  FromObject(cfg, toks, st) == ObjectTail(cfg, toks, St(next, name), b))
  {
    var after := FromAny(cfg, toks, s1).st;
    if toks[next] == EndObject {
      assert NextTokenState(toks, after) == St(next, after.name);
      ObjectStageSingleton(cfg, toks, st);
    } else if !toks[next].FieldName? {
      assert NextTokenState(toks, after) == St(next, after.name);
      ObjectStageBuilt(cfg, toks, st);
    } else if next + 1 < |toks| && !toks[next + 1].FieldName? && toks[next + 1] != EndObject {
      assert NextTokenState(toks, after) == St(next, toks[next].name);
      ObjectStageBuilt(cfg, toks, st);
    }
  }

  /** The opening of the array reader after its first element, read from
      `s1`, whose next token is at `next`: END_ARRAY there gives the
      singleton list, anything else that is not a field name is the next
      element. */
  lemma ArrayOpenAfter(cfg: Blueprint, toks: seq<Token>, st: St, s1: St, v: Value, next: nat)
    requires st.pos < |toks|
    requires NextTokenState(toks, st) == s1 && Current(toks, s1) != Some(EndArray)
    requires FromAny(cfg, toks, s1).result == Success(v) && FromAny(cfg, toks, s1).st.pos + 1 == next
    requires next < |toks| && !toks[next].FieldName?
    ensures var s2 := St(next, FromAny(cfg, toks, s1).st.name);
            && (toks[next] == EndArray ==> FromArray(cfg, toks, st) == Step(Success(ListSingleton(v)), s2))
            && (toks[next] != EndArray ==>
                  FromArray(cfg, toks, st) == ArrayTail(cfg, toks, s2, cfg.listBuilder.Start().Add(v)))
  {
    var after := FromAny(cfg, toks, s1).st;
    assert NextTokenState(toks, after) == St(next, after.name);
    if toks[next] == EndArray {
      ArrayStageSingleton(cfg, toks, st);
    } else {
      ArrayStageBuilt(cfg, toks, st);
    }
  }
}
