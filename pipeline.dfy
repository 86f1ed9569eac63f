/**
 * `ReadConfig` of main.cc: a `Tokenizer` over the buffer drives an
 * `ISCParser`, calling its handler for every token as soon as it is read.
 * `ReadFrom` states the outcome of the whole run from one scanning position,
 * and `ReadConfigFrom` performs it with the two objects.
 */
module Pipeline {
  import opened Wrappers
  import opened Config
  import opened Tokenize
  import opened IscParser

  /** How reading a configuration fails: `EofError`, `parse_error`, or the integer handler's `error`. */
  datatype ReadError = UnexpectedEof | ParseFailed(parseError: ParseError) | BadInteger(integerError: IntegerError)

  /** What `ParsedTokenHandler` needs of a token to convert it. */
  predicate Fits(s: seq<char>, t: Token)
  {
    && t.start + t.length <= |s|
    && (t.kind == IntegerToken ==> 1 <= t.length && IsDigit(s[t.start]))
    && (t.kind == CharacterToken ==> t.length == 1)
  }

  /** Every token the scanner hands on can be converted. */
  lemma {:induction false} ScannedTokensFit(s: seq<char>, p: nat)
    requires p <= |s|
    ensures forall i | 0 <= i < |ScanFrom(s, p).tokens| :: Fits(s, ScanFrom(s, p).tokens[i])
    decreases |s| - p
  {
    if p + 1 < |s| {
      ScanStep(s, p);
      var r := ScanFrom(s, p);
      if r.tokens != [] {
        LexemeFits(s, r.tokens[0], p);
        ScannedTokensFit(s, LexemeEnd(r.tokens[0]));
      }
    }
  }

  /** One token: converted by `ParsedTokenHandler`, then handled by the parser. */
  function Handle(s: seq<char>, t: Token, p: Parser): (r: Result<Parser, ReadError>)
    requires Wellformed(p) && Fits(s, t)
    ensures r.Ok? ==> Wellformed(r.value)
  {
    match Classify(s, t)
    case Err(ie) => Err(BadInteger(ie))
    case Ok(e) =>
      match Step(p, e)
      case Err(pe) => Err(ParseFailed(pe))
      case Ok(q) => Ok(q)
  }

  /** The handler calls for `tokens`, in order, up to the first error. */
  function Feed(s: seq<char>, tokens: seq<Token>, p: Parser): (r: Result<Parser, ReadError>)
    requires Wellformed(p) && forall i | 0 <= i < |tokens| :: Fits(s, tokens[i])
    ensures r.Ok? ==> Wellformed(r.value)
    decreases |tokens|
  {
    if tokens == [] then Ok(p)
    else
      var q :- Handle(s, tokens[0], p);
      Feed(s, tokens[1..], q)
  }

  /**
   * The outcome of the scanning loop from `s[p]` with parser `parser`: an
   * error of a handler call comes first, then an `EofError` of the scanner,
   * then the check of `HandleEndOfInput`.
   */
  function ReadFrom(s: seq<char>, p: nat, parser: Parser): Result<ConfigValue, ReadError>
    requires p <= |s| && Wellformed(parser)
  {
    ScannedTokensFit(s, p);
    var scan := ScanFrom(s, p);
    var q :- Feed(s, scan.tokens, parser);
    if scan.ending == EofError then Err(UnexpectedEof)
    else
      match Finish(q)
      case Err(pe) => Err(ParseFailed(pe))
      case Ok(cfg) => Ok(cfg)
  }

  /** `ReadConfig` on the contents of a file. */
  function ReadConfig(s: seq<char>): Result<ConfigValue, ReadError>
  {
    if |s| == 0 then Err(UnexpectedEof) else ReadFrom(s, 0, Initial())
  }

  /** One pass of the scanning loop hands one token to the parser and continues behind it. */
  lemma ReadFromStep(s: seq<char>, p: nat, q: nat, t: Token, parser: Parser)
    requires p <= |s| && q <= |s| && Wellformed(parser) && Fits(s, t)
    requires ScanFrom(s, p) == Prepend(t, ScanFrom(s, q))
    ensures var h := Handle(s, t, parser);
      ReadFrom(s, p, parser) == if h.Err? then Err(h.error) else ReadFrom(s, q, h.value)
  {
    ScannedTokensFit(s, q);
    var tokens := ScanFrom(s, p).tokens;
    assert tokens[0] == t && tokens[1..] == ScanFrom(s, q).tokens;
  }

  /** The scanning loop stops with an `EofError`: only earlier handler errors come before it. */
  lemma ReadFromEof(s: seq<char>, p: nat, parser: Parser)
    requires p <= |s| && Wellformed(parser) && ScanFrom(s, p) == Scan([], EofError)
    ensures ReadFrom(s, p, parser) == Err(UnexpectedEof)
  {
  }

  /** The scanning loop ends normally: `HandleEndOfInput` decides. */
  lemma ReadFromEnd(s: seq<char>, p: nat, parser: Parser)
    requires p <= |s| && p + 1 >= |s| && Wellformed(parser)
    ensures var f := Finish(parser);
      ReadFrom(s, p, parser) == if f.Err? then Err(ParseFailed(f.error)) else Ok(f.value)
  {
  }

  /**
   * A configuration is read only when the scan ended with `HandleEndOfInput`,
   * every token was handled, and the parser was back in its root map with
   * nothing pending; the result is that root map.
   */
  lemma ReadConfigOk(s: seq<char>)
    ensures ReadConfig(s).Ok? <==>
      && Scanned(s).ending == EndOfInput
      && (ScannedTokensFit(s, 0);
          var f := Feed(s, Scanned(s).tokens, Initial());
          f.Ok? && f.value.state == InMap && f.value.path == [])
    ensures ReadConfig(s).Ok? ==> ReadConfig(s).value.tag == Map
  {
  }

  /** `ParsedTokenHandler`'s conversion of `token` and the parser's typed handler. */
  method HandleToken(parser: ISCParser, data: seq<char>, token: Token) returns (err: Option<ReadError>)
    requires parser.Valid() && Fits(data, token)
    modifies parser
    ensures var h := Handle(data, token, old(parser.Snapshot()));
      && parser.Valid()
      && if h.Ok? then err == None && parser.Snapshot() == h.value
         else err == Some(h.error) && parser.Snapshot() == old(parser.Snapshot())
  {
    var event := Classify(data, token);
    if event.Err? {
      return Some(BadInteger(event.error));
    }
    var e := parser.Dispatch(event.value);
    if e.Some? {
      return Some(ParseFailed(e.value));
    }
    return None;
  }

  /**
   * One pass of the scanning loop: read a token and hand it to the parser.
   * `stop` carries the outcome when an error ends the run.
   */
  method ReadAndHandle(toker: Tokenizer, parser: ISCParser, bit: char)
    returns (stop: Option<ReadError>, next: char)
    requires toker.Valid() && 1 <= toker.pos && toker.size > 0 && bit == toker.data[toker.pos - 1]
    requires parser.Valid()
    modifies toker, parser
    ensures toker.Valid() && parser.Valid()
    ensures var before := ReadFrom(toker.data, old(toker.pos) - 1, old(parser.Snapshot()));
      if stop.Some? then before == Err(stop.value)
      else && old(toker.pos) < toker.pos && next == toker.data[toker.pos - 1]
           && before == ReadFrom(toker.data, toker.pos - 1, parser.Snapshot())
  {
    ghost var p := toker.pos - 1;
    ghost var start := parser.Snapshot();
    ScannedTokensFit(toker.data, p);
    var ok, token;
    ok, token, next := toker.ReadToken(bit);
    if !ok {
      ReadFromEof(toker.data, p, start);
      return Some(UnexpectedEof), next;
    }
    assert Fits(toker.data, ScanFrom(toker.data, p).tokens[0]);
    ReadFromStep(toker.data, p, toker.pos - 1, token, start);
    stop := HandleToken(parser, toker.data, token);
  }

  /** `ReadConfig`: `toker(parser)`, then the parser's configuration. */
  method ReadConfigFrom(data: seq<char>) returns (r: Result<ConfigValue, ReadError>)
    ensures r == ReadConfig(data)
  {
    var toker := new Tokenizer(data);
    var parser := new ISCParser();
    var c := toker.Next();
    if c.None? {
      return Err(UnexpectedEof);
    }
    var bit := c.value;
    while toker.size > 0
      invariant toker.Valid() && toker.data == data && 1 <= toker.pos <= |data| && bit == data[toker.pos - 1]
      invariant parser.Valid()
      invariant ReadConfig(data) == ReadFrom(data, toker.pos - 1, parser.Snapshot())
      decreases toker.size
    {
      var stop;
      stop, bit := ReadAndHandle(toker, parser, bit);
      if stop.Some? {
        return Err(stop.value);
      }
    }
    ReadFromEnd(data, toker.pos - 1, parser.Snapshot());
    var err := parser.HandleEndOfInput();
    if err.Some? {
      return Err(ParseFailed(err.value));
    }
    return Ok(parser.cfg);
  }
}
