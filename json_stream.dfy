/**
 * A model of the pull-style JSON decoder the importer drives (Go's
 * `json.Decoder`). The input is a sequence of already-lexed tokens; the
 * decoder is a cursor into it. Three operations are modelled: reading the
 * next token, decoding the next complete value, and asking whether the
 * current array has more elements. Turning a value's tokens into a Go value
 * is left abstract: the caller passes a conversion function.
 */
module JsonStream {
  import opened Wrappers

  /** Where a token stands: an object key, an object member's value, an array element, or top level. */
  datatype Place = ObjectKey | ObjectMember | ArrayElement | TopLevel

  /**
   * One token as the decoder returns it. Colons and commas are never returned
   * and are not represented. `Literal` stands for a number, `true`, `false`
   * or `null`. `Malformed` marks the point where the input stops being valid
   * JSON: reading it gives a syntax error.
   */
  datatype Token =
    | Str(s: string, place: Place)
    | Literal(place: Place)
    | BeginArray(place: Place)
    | EndArray(place: Place)
    | BeginObject(place: Place)
    | EndObject(place: Place)
    | Malformed

  /** The errors the decoder (and the seekable reader behind it) can report. */
  datatype Error =
    | EOF            // io.EOF: no more input
    | UnexpectedEOF  // io.ErrUnexpectedEOF: the input ends inside a value
    | SyntaxError    // malformed input, or a Decode where no value may start
    | TypeError      // the value does not fit the Go type it is decoded into
    | SeekError      // the reader could not rewind

  /**
   * The decoder's state: how many tokens it has consumed, and whether its
   * token state lets a `Decode` start a value here.
   */
  datatype Cursor = Cursor(pos: nat, valueAllowed: bool)

  /** A fresh decoder at the start of the input. */
  const Start := Cursor(0, true)

  /** The outcome of one decoder operation and the state it leaves behind. */
  datatype Step<T> = Step(result: Result<T, Error>, after: Cursor)

  /**
   * Whether `Decode` may start a value right after token `t` was read. After a
   * key the colon is consumed and a value follows; after `[` the first
   * element follows; after an array element or a top-level value the next one
   * may follow. After `{` a key must come first, and after an object member's
   * value the next key must come first, so `Decode` is refused there.
   */
  predicate ValueAllowedAfter(t: Token) {
    match t
    case Str(_, place) => place != ObjectMember
    case Literal(place) => place != ObjectMember
    case BeginArray(_) => true
    case EndArray(place) => place != ObjectMember
    case BeginObject(_) => false
    case EndObject(place) => place != ObjectMember
    case Malformed => false
  }

  /**
   * Whether `Decode` may start a value right after a value whose first token
   * is `t` was decoded: the decoder is then between siblings, so this depends
   * only on where that value stands.
   */
  predicate ValueAllowedAfterValue(t: Token) {
    match t
    case Str(_, place) => place != ObjectMember
    case Literal(place) => place != ObjectMember
    case BeginArray(place) => place != ObjectMember
    case BeginObject(place) => place != ObjectMember
    case _ => false
  }

  /** `Token()`: the next token, EOF at the end of the input, a syntax error at a malformed point. */
  function TokenStep(ts: seq<Token>, c: Cursor): (st: Step<Token>)
    requires c.pos <= |ts|
    ensures st.after.pos <= |ts|
    ensures st.result.Ok? ==> st.after.pos == c.pos + 1 && st.result.value == ts[c.pos] && !ts[c.pos].Malformed?
    ensures st.result.Err? ==> st.after == c && (st.result.error == EOF <==> c.pos == |ts|)
  {
    if c.pos == |ts| then Step(Err(EOF), c)
    else if ts[c.pos].Malformed? then Step(Err(SyntaxError), c)
    else Step(Ok(ts[c.pos]), Cursor(c.pos + 1, ValueAllowedAfter(ts[c.pos])))
  }

  /** Where a complete value that starts at some position ends, or why it does not. */
  datatype Span = Span(end: nat) | Broken(err: Error)

  /**
   * The extent of the value starting at `i`: one token for a string or a
   * literal, up to the matching close for an array or an object. The input
   * may end before the value starts (EOF) or inside it (unexpected EOF).
   */
  function ValueSpan(ts: seq<Token>, i: nat): (r: Span)
    requires i <= |ts|
    ensures r.Span? ==> i < r.end <= |ts|
    ensures r.Broken? ==> (r.err == EOF <==> i == |ts|)
  {
    if i == |ts| then Broken(EOF)
    else match ts[i]
      case Str(_, _) => Span(i + 1)
      case Literal(_) => Span(i + 1)
      case BeginArray(_) => Nested(ts, i + 1, 1)
      case BeginObject(_) => Nested(ts, i + 1, 1)
      case _ => Broken(SyntaxError)
  }

  /** The end of a value whose `depth` innermost containers are still open at `j`. */
  function Nested(ts: seq<Token>, j: nat, depth: nat): (r: Span)
    requires j <= |ts| && depth > 0
    ensures r.Span? ==> j < r.end <= |ts|
    ensures r.Broken? ==> r.err != EOF
    decreases |ts| - j
  {
    if j == |ts| then Broken(UnexpectedEOF)
    else match ts[j]
      case Malformed => Broken(SyntaxError)
      case BeginArray(_) => Nested(ts, j + 1, depth + 1)
      case BeginObject(_) => Nested(ts, j + 1, depth + 1)
      case EndArray(_) => if depth == 1 then Span(j + 1) else Nested(ts, j + 1, depth - 1)
      case EndObject(_) => if depth == 1 then Span(j + 1) else Nested(ts, j + 1, depth - 1)
      case _ => Nested(ts, j + 1, depth)
  }

  /** A complete value inside `ts` ends in the same place when more tokens follow. */
  lemma {:induction false} NestedExtends(ts: seq<Token>, rest: seq<Token>, j: nat, depth: nat)
    requires j <= |ts| && depth > 0
    requires Nested(ts, j, depth).Span?
    ensures Nested(ts + rest, j, depth) == Nested(ts, j, depth)
    decreases |ts| - j
  {
    assert (ts + rest)[j] == ts[j];
    match ts[j]
    case BeginArray(_) => NestedExtends(ts, rest, j + 1, depth + 1);
    case BeginObject(_) => NestedExtends(ts, rest, j + 1, depth + 1);
    case EndArray(_) => if depth > 1 { NestedExtends(ts, rest, j + 1, depth - 1); }
    case EndObject(_) => if depth > 1 { NestedExtends(ts, rest, j + 1, depth - 1); }
    case Str(_, _) => NestedExtends(ts, rest, j + 1, depth);
    case Literal(_) => NestedExtends(ts, rest, j + 1, depth);
  }

  /** The extent of a complete value does not depend on what follows it. */
  lemma ValueSpanExtends(ts: seq<Token>, rest: seq<Token>, i: nat)
    requires i <= |ts|
    requires ValueSpan(ts, i).Span?
    ensures ValueSpan(ts + rest, i) == ValueSpan(ts, i)
  {
    assert (ts + rest)[i] == ts[i];
    if ts[i].BeginArray? || ts[i].BeginObject? {
      NestedExtends(ts, rest, i + 1, 1);
    }
  }

  /**
   * `Decode(&v)`: refused where no value may start; otherwise the next value's
   * tokens are consumed and handed to `convert`. A conversion failure still
   * consumes the value, as Go's decoder does. Afterwards a value may start
   * again unless the decoded value was an object member.
   */
  function DecodeStep<T>(ts: seq<Token>, c: Cursor, convert: seq<Token> -> Option<T>): (st: Step<T>)
    requires c.pos <= |ts|
    ensures c.pos <= st.after.pos <= |ts|
    ensures st.result.Ok? ==> c.pos < st.after.pos
  {
    if !c.valueAllowed then Step(Err(SyntaxError), c)
    else match ValueSpan(ts, c.pos)
      case Broken(e) => Step(Err(e), c)
      case Span(e) =>
        var after := Cursor(e, ValueAllowedAfterValue(ts[c.pos]));
        match convert(ts[c.pos..e])
        case Some(v) => Step(Ok(v), after)
        case None => Step(Err(TypeError), after)
  }

  /** A decode that succeeds inside `ts` gives the same result when more tokens follow. */
  lemma DecodeStepExtends<T>(ts: seq<Token>, rest: seq<Token>, c: Cursor, convert: seq<Token> -> Option<T>)
    requires c.pos <= |ts|
    requires DecodeStep(ts, c, convert).result.Ok?
    ensures DecodeStep(ts + rest, c, convert) == DecodeStep(ts, c, convert)
  {
    ValueSpanExtends(ts, rest, c.pos);
    var e := ValueSpan(ts, c.pos).end;
    assert (ts + rest)[c.pos..e] == ts[c.pos..e];
    assert (ts + rest)[c.pos] == ts[c.pos];
  }

  /** `More()`: input remains and the next token does not close the current array or object. */
  predicate MoreAt(ts: seq<Token>, c: Cursor)
    requires c.pos <= |ts|
  {
    c.pos < |ts| && !ts[c.pos].EndArray? && !ts[c.pos].EndObject?
  }

  /**
   * Where `More()` says no, nothing is left to decode: the input is
   * exhausted (EOF) or the next token closes a container (a syntax error),
   * and the decoder does not move.
   */
  lemma NoMoreNoValue<T>(ts: seq<Token>, c: Cursor, convert: seq<Token> -> Option<T>)
    requires c.pos <= |ts| && !MoreAt(ts, c)
    ensures DecodeStep(ts, c, convert).after == c
    ensures c.pos == |ts| && c.valueAllowed ==> DecodeStep(ts, c, convert).result == Err(EOF)
    ensures c.pos < |ts| || !c.valueAllowed ==> DecodeStep(ts, c, convert).result == Err(SyntaxError)
  {
  }

  /** A decoder reading one input from its start. */
  class Decoder {
    const tokens: seq<Token>
    var cursor: Cursor

    ghost predicate Valid()
      reads this
    {
      cursor.pos <= |tokens|
    }

    /** `json.NewDecoder(r)`. */
    constructor (tokens: seq<Token>)
      ensures Valid() && this.tokens == tokens && cursor == Start
    {
      this.tokens := tokens;
      cursor := Start;
    }

    /** `d.Token()`. */
    method ReadToken() returns (r: Result<Token, Error>)
      requires Valid()
      modifies this
      ensures Valid()
      ensures Step(r, cursor) == TokenStep(tokens, old(cursor))
    {
      if cursor.pos == |tokens| {
        r := Err(EOF);
      } else if tokens[cursor.pos].Malformed? {
        r := Err(SyntaxError);
      } else {
        r := Ok(tokens[cursor.pos]);
        cursor := Cursor(cursor.pos + 1, ValueAllowedAfter(tokens[cursor.pos]));
      }
    }

    /** `d.Decode(&v)`, where `convert` stands for unmarshalling into the type of `v`. */
    method Decode<T(==)>(convert: seq<Token> -> Option<T>) returns (r: Result<T, Error>)
      requires Valid()
      modifies this
      ensures Valid()
      ensures Step(r, cursor) == DecodeStep(tokens, old(cursor), convert)
    {
      if !cursor.valueAllowed {
        return Err(SyntaxError);
      }
      var span := ValueSpan(tokens, cursor.pos);
      if span.Broken? {
        return Err(span.err);
      }
      var value := convert(tokens[cursor.pos..span.end]);
      cursor := Cursor(span.end, ValueAllowedAfterValue(tokens[cursor.pos]));
      r := if value.Some? then Ok(value.value) else Err(TypeError);
    }

    /** `d.More()`. */
    method More() returns (b: bool)
      requires Valid()
      ensures b == MoreAt(tokens, cursor)
    {
      b := cursor.pos < |tokens| && !tokens[cursor.pos].EndArray? && !tokens[cursor.pos].EndObject?;
    }
  }
}
