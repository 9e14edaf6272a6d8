/** The token vocabulary of the streaming parser that the reader consumes.
    The tokenizer itself is not modelled: a JSON document reaches the reader
    as a sequence of these tokens. */
module Tokens {

  /** `None` stands for the parser's `null` token (no current token, or end of input). */
  datatype Option<+T> = None | Some(value: T)

  /** The parser's own classification of a numeric token (JsonParser.NumberType). */
  datatype NumberType = INT | LONG | BIG_INTEGER | FLOAT | DOUBLE | BIG_DECIMAL

  /** The token kinds of JsonToken, with the payload the reader asks for:
      the field name, the string text, the number type, the embedded object. */
  datatype Token =
    | StartObject
    | EndObject
    | StartArray
    | EndArray
    | FieldName(name: string)
    | ValueString(text: string)
    | ValueNumberInt(intType: NumberType)
    | ValueNumberFloat(floatType: NumberType)
    | ValueTrue
    | ValueFalse
    | ValueNull
    | ValueEmbeddedObject(obj: nat)
    | NotAvailable
}
