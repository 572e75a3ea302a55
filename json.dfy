/**
 * JSON as the stream of tokens a Jackson streaming parser reports (JSON per RFC 8259),
 * and the parser itself as a cursor over that stream.
 *
 * Lexing is not modelled: a document is given as the tokens the lexer would produce,
 * together with how the input ends after the last of them: cleanly, or with the
 * exception the lexer raises there (malformed text, a truncated archive, a read error).
 */
module Json {
  import opened Wrappers

  datatype JsonToken =
    | StartObject
    | EndObject
    | StartArray
    | EndArray
    | FieldName(name: string)
    | ValueString(text: string)
    | ValueNumber(text: string)
    | ValueTrue
    | ValueFalse
    | ValueNull

  /** The tokens of a document and how the input ends after them: `None` cleanly, `Some(m)` with an exception saying `m`. */
  datatype TokenStream = TokenStream(tokens: seq<JsonToken>, failure: Option<string>)

  /** What one call of nextToken() does at position `pos`. */
  datatype Step = Token(token: JsonToken) | EndOfInput | LexFailure(message: string)

  function Next(input: TokenStream, pos: nat): (s: Step)
    requires pos <= |input.tokens|
    ensures s.Token? <==> pos < |input.tokens|
    ensures s.LexFailure? <==> pos == |input.tokens| && input.failure.Some?
  {
    if pos < |input.tokens| then Token(input.tokens[pos])
    else if input.failure.Some? then LexFailure(input.failure.value)
    else EndOfInput
  }

  /**
   * getValueAsString() on the current token: the text of a string, the name of a field,
   * the literal text of another scalar, and null for null, structural tokens and no token.
   */
  function ValueAsString(current: Option<JsonToken>): (s: Option<string>)
    ensures current.Some? && current.value.ValueString? ==> s == Some(current.value.text)
    ensures current.Some? && current.value.FieldName? ==> s == Some(current.value.name)
    ensures current.None? || current.value in {StartObject, EndObject, StartArray, EndArray, ValueNull} ==> s.None?
  {
    match current
    case Some(ValueString(t)) => Some(t)
    case Some(FieldName(n)) => Some(n)
    case Some(ValueNumber(t)) => Some(t)
    case Some(ValueTrue) => Some("true")
    case Some(ValueFalse) => Some("false")
    case _ => None
  }

  /** The value nextTextValue() returns once it has read `current`: its text if it is a string, null otherwise. */
  function TextValue(current: Option<JsonToken>): (s: Option<string>)
    ensures s.Some? <==> current.Some? && current.value.ValueString?
    ensures s.Some? ==> s.value == current.value.text
  {
    match current
    case Some(ValueString(t)) => Some(t)
    case _ => None
  }

  /** A Jackson JsonParser reading a TokenStream. */
  class JsonParser {
    const input: TokenStream
    var pos: nat
    var current: Option<JsonToken>
    var closed: bool

    ghost predicate Valid()
      reads this
    {
      pos <= |input.tokens| && (closed ==> pos == |input.tokens| && current.None? && input.failure.None?)
    }

    constructor (input: TokenStream)
      ensures Valid() && this.input == input
      ensures pos == 0 && current.None? && !closed
    {
      this.input := input;
      pos := 0;
      current := None;
      closed := false;
    }

    /**
     * nextToken(): the next token, or null once the input has ended (the parser then
     * closes itself); `failure` is the exception the lexer raises instead.
     */
    method NextToken() returns (t: Option<JsonToken>, failure: Option<string>)
      requires Valid()
      modifies this
      ensures Valid()
      ensures match Next(input, old(pos))
              case Token(tok) =>
                t == Some(tok) && failure.None? && pos == old(pos) + 1 && current == t && closed == old(closed)
              case EndOfInput =>
                t.None? && failure.None? && pos == old(pos) && current.None? && closed
              case LexFailure(m) =>
                failure == Some(m) && pos == old(pos) && current == old(current) && closed == old(closed)
    {
      t, failure := None, None;
      if pos < |input.tokens| {
        t := Some(input.tokens[pos]);
        pos := pos + 1;
        current := t;
      } else if input.failure.Some? {
        failure := input.failure;
      } else {
        current := None;
        closed := true;
      }
    }
  }
}
