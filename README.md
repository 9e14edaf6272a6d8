# JSONReader, modelled and proved in Dafny

This project models `JSONReader` from jackson-jr's simple object layer. The reader
takes the token stream of a streaming JSON parser and materialises it as a generic
tree of maps, lists and scalars.

The model has two halves.

- **The blueprint.** A blueprint holds the reader's configuration: the feature bit
  set, a list builder and a map builder. It is the immutable datatype
  `JSONReader.Blueprint`. Its mutant factories (`withFeatures`, the two `with`
  overloads, `_with`) are functions on it. `perOperationInstance` is a method that
  allocates a `JSONReader.Reader`.
- **The per-operation reader.** `JSONReader.Reader` reads from a `Parsing.JsonParser`.
  That class holds a token sequence, a cursor and the current field name, and its
  `NextToken`/`NextValue` methods advance the cursor in place. The entry points
  `readValue`, `readMap`, `readList` and `readArray` and the internal readers
  `_readFromAny`, `_readFromObject`, `_readFromArray`, `_readFromInteger` and
  `_readFromFloat` are imperative methods. Their do/while loops reassign the
  builder. Each method is proved equal to a function of the token sequence and the
  parser state it started from (`FromAny`, `FromObject`, `ObjectTail`, ...).

The properties are proved about those functions in three modules.

- `ReaderProperties` covers arbitrary token streams: the per-token dispatch, and
  the construction stages and loop passes, one step at a time, that the document
  proofs below are built from.
- `Documents` defines a reference: a JSON document, the tokens a parser presents for
  it, and the value the reader is meant to build from it. A document is laid
  out in a stream (`DocAt`) when its tokens sit there in order; every serialized
  document is laid out wherever it is placed. It proves that
  `_readFromAny()` reads every laid-out document into that value. The read works wherever the
  document sits in the stream and stops on the document's last token. Fields and
  elements reach the builders in document order.
- `ReadListOverArrays` proves that `readList()` and `readArray()`, as written, fail on every
  array document. It also proves that the corrected versions read every array.

The default hooks are the functions `FromNull`, `FromBoolean`, `FromKey`,
`FromString`, `FromEmbedded` and `NullForRootValue`/`List`/`Map`/`Array`. They are
identities, and booleans become `Bool`. A `VALUE_NULL` at any depth goes through
`NullForRootValue()`; `FromNull()` and the three other `nullForRoot*` hooks are
never called, as in the source.

The value tree tags each container with the builder call that produced it:
`MapEmpty`/`MapSingleton`/`MapBuilt` and `ListEmpty`/`ListSingleton`/`ListBuilt`.
The builders are abstract value handles that only record the pairs or elements
handed to them, in call order. Numbers carry only the Java class chosen for them.
The parser's `nextValue()` is `nextToken()`, plus one more step when it lands on a
field name.

## Model

All source paths are in `src/main/java/com/fasterxml/jackson/simple/ob/JSONReader.java`.

| member | source | states |
|---|---|---|
| JSONReader.Blueprint.WithFeatures | src/main/java/com/fasterxml/jackson/simple/ob/JSONReader.java:84-90 | the result has the requested features and the same two builders; it is the receiver itself when the features are unchanged |
| JSONReader.Blueprint.WithMapBuilder | src/main/java/com/fasterxml/jackson/simple/ob/JSONReader.java:92-95 | only the map builder is replaced, features and list builder are kept; the receiver itself when the builder is the same |
| JSONReader.Blueprint.WithListBuilder | src/main/java/com/fasterxml/jackson/simple/ob/JSONReader.java:97-100 | only the list builder is replaced, features and map builder are kept; the receiver itself when the builder is the same |
| JSONReader.Blueprint.With | src/main/java/com/fasterxml/jackson/simple/ob/JSONReader.java:106-112 | the new blueprint holds exactly the given features and builders |
| JSONReader.Blueprint.PerOperationInstance | src/main/java/com/fasterxml/jackson/simple/ob/JSONReader.java:120-126 | a freshly allocated reader with the blueprint's features, its builders derived by `newBuilder(features)`, and the given parser; the blueprint is a value and stays as it was |
| JSONReader.Reader.constructor | src/main/java/com/fasterxml/jackson/simple/ob/JSONReader.java:69-76 | the per-operation reader copies the base's features, derives both builders for those features and binds the parser |
| JSONReader.IntegerReprOf | src/main/java/com/fasterxml/jackson/simple/ob/JSONReader.java:252-262 | Integer exactly for INT, Long exactly for LONG, BigInteger otherwise |
| JSONReader.FloatReprOf | src/main/java/com/fasterxml/jackson/simple/ob/JSONReader.java:264-276 | BigDecimal whenever USE_BIG_DECIMAL_FOR_FLOATS is on; Float exactly when it is off and the type is FLOAT, Double exactly when it is off and the type is DOUBLE |
| JSONReader.Reader.ReadFromInteger | src/main/java/com/fasterxml/jackson/simple/ob/JSONReader.java:252-262 | the switch on the parser's number type returns the representation `IntegerReprOf` gives |
| JSONReader.Reader.ReadFromFloat | src/main/java/com/fasterxml/jackson/simple/ob/JSONReader.java:264-276 | the feature test and the switch return the representation `FloatReprOf` gives |
| JSONReader.FromAny | src/main/java/com/fasterxml/jackson/simple/ob/JSONReader.java:175-207 | a read never moves the cursor backwards and a successful read ends on a token of the stream |
| JSONReader.FromObject | src/main/java/com/fasterxml/jackson/simple/ob/JSONReader.java:209-231 | the cursor always moves; a successful read is a map and leaves the cursor on an END_OBJECT; a map from the growable builder has at least two entries |
| JSONReader.ObjectTail | src/main/java/com/fasterxml/jackson/simple/ob/JSONReader.java:226-230 | the loop ends on END_OBJECT with a built map that extends what the builder already held by at least one pair |
| JSONReader.FromArray | src/main/java/com/fasterxml/jackson/simple/ob/JSONReader.java:233-250 | the cursor always moves; a successful read is a list and leaves the cursor on an END_ARRAY; a list from the growable builder has at least two elements |
| JSONReader.ArrayTail | src/main/java/com/fasterxml/jackson/simple/ob/JSONReader.java:245-249 | the loop ends on END_ARRAY with a built list that extends what the builder already held by at least one element |
| JSONReader.MapEntry | src/main/java/com/fasterxml/jackson/simple/ob/JSONReader.java:140-147 | readMap fails without consuming a token unless the current token is START_OBJECT, a root null included; on START_OBJECT it is the object read |
| JSONReader.ListEntry | src/main/java/com/fasterxml/jackson/simple/ob/JSONReader.java:150-157 | readList as written fails without consuming a token off START_ARRAY, and never succeeds on any input |
| JSONReader.ArrayEntry | src/main/java/com/fasterxml/jackson/simple/ob/JSONReader.java:159-166 | readArray as written fails without consuming a token off START_ARRAY, and never succeeds on any input |
| JSONReader.ListEntryCorrected | src/main/java/com/fasterxml/jackson/simple/ob/JSONReader.java:150-157 | readList reading with _readFromArray: same refusal off START_ARRAY; a success is a list and ends on END_ARRAY |
| JSONReader.ArrayEntryCorrected | src/main/java/com/fasterxml/jackson/simple/ob/JSONReader.java:159-166 | readArray reading with _readFromArray: same refusal off START_ARRAY; a success ends on END_ARRAY |
| JSONReader.Reader.ReadValue | src/main/java/com/fasterxml/jackson/simple/ob/JSONReader.java:134-137 | the result and the parser state it leaves are those of `FromAny` from the starting state |
| JSONReader.Reader.ReadMap | src/main/java/com/fasterxml/jackson/simple/ob/JSONReader.java:140-147 | the result and the final parser state are those of `MapEntry` |
| JSONReader.Reader.ReadList | src/main/java/com/fasterxml/jackson/simple/ob/JSONReader.java:150-157 | the result and the final parser state are those of `ListEntry` |
| JSONReader.Reader.ReadArray | src/main/java/com/fasterxml/jackson/simple/ob/JSONReader.java:159-166 | the result and the final parser state are those of `ArrayEntry` |
| JSONReader.Reader.ReadFromAny | src/main/java/com/fasterxml/jackson/simple/ob/JSONReader.java:175-207 | the switch on the current token computes `FromAny` and advances the parser as it does |
| JSONReader.Reader.ReadFromObject | src/main/java/com/fasterxml/jackson/simple/ob/JSONReader.java:209-231 | the three stages and the do/while loop compute `FromObject`; the loop keeps the invariant that finishing from the current state with the current builder gives the overall result |
| JSONReader.Reader.ReadFromArray | src/main/java/com/fasterxml/jackson/simple/ob/JSONReader.java:233-250 | the same for `FromArray` |
| ReaderProperties.FromAnyDispatch | src/main/java/com/fasterxml/jackson/simple/ob/JSONReader.java:175-207 | a failure without moving exactly for END_OBJECT, END_ARRAY, FIELD_NAME, NOT_AVAILABLE (the "Unexpected value token" default) and for no current token; scalar tokens succeed in place; containers move the cursor; a result is a map exactly when read from START_OBJECT and a list exactly when read from START_ARRAY |
| Documents.ReadsDocument | src/main/java/com/fasterxml/jackson/simple/ob/JSONReader.java:175-207 | on the tokens of any document, wherever they sit in the stream, _readFromAny returns the document's expected value and stops on the document's last token |
| Documents.ReadsObject | src/main/java/com/fasterxml/jackson/simple/ob/JSONReader.java:209-231 | an object document of 0, 1 or more fields gives the empty map, the singleton map, or the built map of all transformed pairs in document order, stopping on the matching END_OBJECT |
| Documents.ObjectOpening | src/main/java/com/fasterxml/jackson/simple/ob/JSONReader.java:213-226 | up to the second field: a single field gives the singleton map on END_OBJECT; otherwise the loop is entered on the second value with the first pair in the builder |
| Documents.ReadsFields | src/main/java/com/fasterxml/jackson/simple/ob/JSONReader.java:226-230 | the loop appends every remaining field's pair to the builder, in order, and ends on the object's END_OBJECT |
| Documents.FieldStep | src/main/java/com/fasterxml/jackson/simple/ob/JSONReader.java:227-229 | one pass over a field: the last field builds, any other hands over to the next field's value |
| Documents.ReadsArray | src/main/java/com/fasterxml/jackson/simple/ob/JSONReader.java:233-250 | an array document of 0, 1 or more items gives the empty list, the singleton list, or the built list of all items in document order, stopping on the matching END_ARRAY |
| Documents.ArrayOpening | src/main/java/com/fasterxml/jackson/simple/ob/JSONReader.java:236-245 | up to the second element: a single element gives the singleton list on END_ARRAY; otherwise the loop is entered on the second element with the first one in the builder |
| Documents.ItemStep | src/main/java/com/fasterxml/jackson/simple/ob/JSONReader.java:246-248 | one pass over an element: the last one builds, any other hands over to the next element |
| Documents.ReadsItems | src/main/java/com/fasterxml/jackson/simple/ob/JSONReader.java:245-249 | the loop appends every remaining element, in order, and ends on the array's END_ARRAY |
| Documents.ReadsSerialized | src/main/java/com/fasterxml/jackson/simple/ob/JSONReader.java:175-207 | on a serialized document placed anywhere between other tokens, _readFromAny returns its expected value and stops on its last serialized token |
| Documents.ReadsMapDocument | src/main/java/com/fasterxml/jackson/simple/ob/JSONReader.java:140-147 | readMap reads every object document into its expected map and stops on its END_OBJECT |
| Documents.ExpectedEntriesInOrder | src/main/java/com/fasterxml/jackson/simple/ob/JSONReader.java:226-229 | the i-th expected entry is the i-th field's transformed key and expected value |
| Documents.ExpectedItemsInOrder | src/main/java/com/fasterxml/jackson/simple/ob/JSONReader.java:245-248 | the i-th expected element is the i-th item's expected value |
| ReadListOverArrays.ObjectLoopOverItems | src/main/java/com/fasterxml/jackson/simple/ob/JSONReader.java:227-229 | the object loop run over an element list never meets END_OBJECT and fails with "Unexpected value token" on the closing END_ARRAY |
| ReadListOverArrays.ObjectReadOverArray | src/main/java/com/fasterxml/jackson/simple/ob/JSONReader.java:209-231 | _readFromObject entered on any array document fails on that array's END_ARRAY |
| ReadListOverArrays.EntriesAsWrittenRejectArrays | src/main/java/com/fasterxml/jackson/simple/ob/JSONReader.java:150-166 | readList and readArray as written fail on every array document, on its closing END_ARRAY |
| ReadListOverArrays.EmptyArrayWitness | src/main/java/com/fasterxml/jackson/simple/ob/JSONReader.java:150-157 | on `[]` readList as written fails while the corrected readList gives the empty list |
| ReadListOverArrays.CorrectedEntriesReadArrays | src/main/java/com/fasterxml/jackson/simple/ob/JSONReader.java:150-166 | the corrected readList gives every array document's expected list, and the corrected readArray gives its items' expected values in order, both stopping on its END_ARRAY |

## Left out

- The tokenizer and number parsing of `JsonParser` are not part of this model. The parser is a fixed token sequence with a cursor and a current name, and numeric tokens carry only their number-type tag.
- Numeric payloads (Integer, Long, BigInteger, Float, Double, BigDecimal) are not modelled, only which class is chosen; there is no floating-point arithmetic.
- The `MapBuilder` and `ListBuilder` implementations are not part of this model. The builders only record put/add calls in order, so duplicate keys and last-write-wins are not modelled.
- The `getClass()` sanity checks in `_with` and `perOperationInstance` are left out: there are no subclasses here, so the hooks are fixed to their defaults.
- Exception message text and `IOException` propagation are left out; each failure is one `Error` value.
- Thread safety of a shared blueprint is left out (nothing concurrent is modelled). Per-operation isolation appears only as the freshly allocated reader.
- Reader identity (`return this`, builder `==`) is modelled as value equality of blueprints and builders.
- The feature `int` bit set is a set of flags. Only USE_BIG_DECIMAL_FOR_FLOATS is read.
- Outside an object context (array elements, the root, END_ARRAY, NOT_AVAILABLE) `getCurrentName()` is modelled as the last field name seen. The reader uses such a name only on paths that then fail.
- A root `null` given to readMap is an error, following the code at line 142; `nullForRootMap()` is never called.
- With no current token the source's `switch` at line 177 throws a NullPointerException; the model reports `UnexpectedValueToken(None)`, the same single failure outcome.
- JSONReader.FromAny: the per-token outcome is stated in ReaderProperties.FromAnyDispatch, not in the function's own contract.

## Findings

| source | as written | input that shows it | evidently intended | confidence | as-written member | corrected member |
|---|---|---|---|---|---|---|
| src/main/java/com/fasterxml/jackson/simple/ob/JSONReader.java:156 | after checking for START_ARRAY, readList reads with `_readFromObject()`, which walks the array with nextValue() looking for END_OBJECT and then asks `_readFromAny()` to read the array's END_ARRAY | `[]` (tokens START_ARRAY, END_ARRAY): "Unexpected value token: END_ARRAY"; every array document fails the same way | read with `_readFromArray()` and return the list | not executed | ReadListOverArrays.EntriesAsWrittenRejectArrays | ReadListOverArrays.CorrectedEntriesReadArrays |
| src/main/java/com/fasterxml/jackson/simple/ob/JSONReader.java:165 | readArray also reads with `_readFromObject()` and casts the result to `Object[]`, which no map is | `[1]` (tokens START_ARRAY, number, END_ARRAY): "Unexpected value token: END_ARRAY" | read with `_readFromArray()` and return its elements as an array | not executed | ReadListOverArrays.EntriesAsWrittenRejectArrays | ReadListOverArrays.CorrectedEntriesReadArrays |
