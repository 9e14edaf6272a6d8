/** The container builder strategies the reader delegates to. Their
    implementations are not part of this model: a builder is a value handle
    that remembers which strategy it is, the features it was derived with, and
    every pair or element handed to it, in call order. */
module Builders {
  import opened Values

  datatype MapBuilder = MapBuilder(impl: nat, features: Features, pending: seq<(string, Value)>) {
    /** The per-operation builder derived from a blueprint builder. */
    function NewBuilder(f: Features): MapBuilder {
      MapBuilder(impl, f, [])
    }

    function EmptyMap(): Value {
      MapEmpty
    }

    function SingletonMap(key: string, value: Value): Value {
      MapSingleton(key, value)
    }

    /** A growable builder with nothing put into it yet. */
    function Start(): MapBuilder {
      MapBuilder(impl, features, [])
    }

    function Put(key: string, value: Value): MapBuilder {
      MapBuilder(impl, features, pending + [(key, value)])
    }

    function Build(): Value {
      MapBuilt(pending)
    }
  }

  datatype ListBuilder = ListBuilder(impl: nat, features: Features, pending: seq<Value>) {
    /** The per-operation builder derived from a blueprint builder. */
    function NewBuilder(f: Features): ListBuilder {
      ListBuilder(impl, f, [])
    }

    function EmptyList(): Value {
      ListEmpty
    }

    function SingletonList(elem: Value): Value {
      ListSingleton(elem)
    }

    /** A growable builder with nothing added to it yet. */
    function Start(): ListBuilder {
      ListBuilder(impl, features, [])
    }

    function Add(elem: Value): ListBuilder {
      ListBuilder(impl, features, pending + [elem])
    }

    function Build(): Value {
      ListBuilt(pending)
    }
  }
}
