/** The generic value tree the reader produces, the feature flags it reads,
    and its error outcomes. */
module Values {
  import opened Tokens

  /** One bit of the reader's feature bit set. Only USE_BIG_DECIMAL_FOR_FLOATS
      is read by the reader; every other flag is kept apart only by its ordinal. */
  datatype Feature = UseBigDecimalForFloats | OtherFeature(ordinal: nat)

  /** The `int` bit set of features: two bit sets are equal exactly when they
      hold the same flags. */
  type Features = set<Feature>

  /** Which Java class represents an integral number. */
  datatype IntRepr = JavaInteger | JavaLong | JavaBigInteger

  /** Which Java class represents a floating-point number. */
  datatype FloatRepr = JavaFloat | JavaDouble | JavaBigDecimal

  /** A generic value. Containers are tagged by the builder call that
      produced them: the shared empty container, the singleton container, or
      a growable builder's `build()` over every pair or element it received,
      in call order. Numbers carry only their chosen representation. */
  datatype Value =
    | Null
    | Bool(b: bool)
    | Str(s: string)
    | Integral(intRepr: IntRepr)
    | Floating(floatRepr: FloatRepr)
    | Embedded(obj: nat)
    | MapEmpty
    | MapSingleton(key: string, value: Value)
    | MapBuilt(entries: seq<(string, Value)>)
    | ListEmpty
    | ListSingleton(elem: Value)
    | ListBuilt(elems: seq<Value>)
  {
    /** A `java.util.Map`. */
    predicate IsMap() {
      MapEmpty? || MapSingleton? || MapBuilt?
    }

    /** A `java.util.List`. */
    predicate IsList() {
      ListEmpty? || ListSingleton? || ListBuilt?
    }
  }

  /** Why a read failed; message text is not modelled. */
  datatype Error =
    | UnexpectedValueToken(token: Option<Token>)  // "Unexpected value token: ..."; on no token (None) the source's switch throws instead
    | NotStartObject(got: Option<Token>)          // "Can not read a Map: ..."
    | NotStartArray(got: Option<Token>)           // "Can not read a List: ..."
    | ClassCast                                   // a cast to List or Object[] that does not hold

  datatype Result<+T> = Success(value: T) | Failure(error: Error) {
    predicate IsFailure() {
      Failure?
    }

    function PropagateFailure<U>(): Result<U>
      requires Failure?
    {
      Failure(error)
    }

    function Extract(): T
      requires Success?
    {
      value
    }
  }
}
