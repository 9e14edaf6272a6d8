/** The streaming parser as the reader sees it: a fixed token sequence, a
    cursor on the current token, and the most recently seen field name. */
module Parsing {
  import opened Tokens

  /** Cursor position and current field name. Position |toks| means the
      input is exhausted and there is no current token. */
  datatype St = St(pos: nat, name: string)

  /** getCurrentToken(). */
  function Current(toks: seq<Token>, st: St): Option<Token> {
    if st.pos < |toks| then Some(toks[st.pos]) else None
  }

  /** The state after nextToken(): one token further (an exhausted parser
      stays exhausted); landing on a field name makes it the current name. */
  function NextTokenState(toks: seq<Token>, st: St): (s: St)
    requires st.pos <= |toks|
    ensures s.pos == if st.pos < |toks| then st.pos + 1 else st.pos
    ensures s.name == match Current(toks, s) case Some(FieldName(n)) => n case _ => st.name
  {
    var pos := if st.pos < |toks| then st.pos + 1 else st.pos;
    var name := if pos < |toks| && toks[pos].FieldName? then toks[pos].name else st.name;
    St(pos, name)
  }

  /** The state after nextValue(): nextToken(), and once more if that landed
      on a field name, so the cursor rests on the value of the field. */
  function NextValueState(toks: seq<Token>, st: St): (s: St)
    requires st.pos <= |toks|
    ensures st.pos <= s.pos <= |toks|
    ensures st.pos < |toks| ==> st.pos < s.pos
  {
    var s1 := NextTokenState(toks, st);
    match Current(toks, s1)
    case Some(FieldName(_)) => NextTokenState(toks, s1)
    case _ => s1
  }

  class JsonParser {
    const tokens: seq<Token>
    var pos: nat
    var currentName: string

    ghost predicate Valid()
      reads this
    {
      pos <= |tokens|
    }

    /** A parser positioned on the first token. */
    constructor (tokens: seq<Token>)
      ensures Valid() && this.tokens == tokens && State() == St(0, "")
    {
      this.tokens := tokens;
      pos := 0;
      currentName := "";
    }

    function State(): St
      reads this
    {
      St(pos, currentName)
    }

    function CurrentToken(): Option<Token>
      reads this
    {
      Current(tokens, State())
    }

    /** getCurrentName(). */
    function CurrentName(): string
      reads this
    {
      currentName
    }

    /** getNumberType(): defined on numeric tokens only. */
    function CurrentNumberType(): Option<NumberType>
      reads this
    {
      match CurrentToken()
      case Some(ValueNumberInt(nt)) => Some(nt)
      case Some(ValueNumberFloat(nt)) => Some(nt)
      case _ => None
    }

    method NextToken() returns (t: Option<Token>)
      requires Valid()
      modifies this
      ensures Valid() && State() == NextTokenState(tokens, old(State()))
      ensures t == CurrentToken()
    {
      if pos < |tokens| {
        pos := pos + 1;
        if pos < |tokens| && tokens[pos].FieldName? {
          currentName := tokens[pos].name;
        }
      }
      t := CurrentToken();
    }

    method NextValue() returns (t: Option<Token>)
      requires Valid()
      modifies this
      ensures Valid() && State() == NextValueState(tokens, old(State()))
      ensures t == CurrentToken()
    {
      t := NextToken();
      if t.Some? && t.value.FieldName? {
        t := NextToken();
      }
    }
  }
}
