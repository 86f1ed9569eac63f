/**
 * The scanner of tokenize.cc / tokenize.hh.
 *
 * `Tokenizer` is the cursor class (`input`, `size` and `next()`); its `Run`
 * method is the scanning loop of `Tokenizer::operator()`.  Instead of calling
 * a handler for every token, it returns the tokens in the order the handler
 * calls would have been made, together with the way the loop ended: either
 * `HandleEndOfInput` was called, or an `EofError` escaped.  `ScanFrom` is the
 * same scanner written as a recursive function, and `ScansFrom` says
 * declaratively what a correct scan is; the two are proved to agree.
 */
module Tokenize {
  import opened Wrappers

  // Character classes of the C locale.
  predicate IsDigit(c: char) { '0' <= c <= '9' }
  predicate IsSpace(c: char) { c == ' ' || c == '\t' || c == '\n' || c == '\U{0B}' || c == '\U{0C}' || c == '\r' }
  predicate IsAlpha(c: char) { 'a' <= c <= 'z' || 'A' <= c <= 'Z' }
  predicate IsOctalDigit(c: char) { '0' <= c <= '7' }
  predicate IsHexDigit(c: char) { IsDigit(c) || 'a' <= c <= 'f' || 'A' <= c <= 'F' }

  /** The byte sets a scanning loop keeps consuming. */
  datatype RunClass = Digits | Spaces | WordChars | NotQuote | OctalDigits | HexDigits

  predicate InRun(c: char, cls: RunClass)
  {
    match cls
    case Digits => IsDigit(c)
    case Spaces => IsSpace(c)
    case WordChars => IsAlpha(c) || IsDigit(c) || c == '_'
    case NotQuote => c != '"'
    case OctalDigits => IsOctalDigit(c)
    case HexDigits => IsHexDigit(c)
  }

  /** The end of the longest run of `cls` bytes that starts at `i`. */
  function RunEnd(s: seq<char>, i: nat, cls: RunClass): (j: nat)
    requires i <= |s|
    ensures i <= j <= |s|
    ensures forall k | i <= k < j :: InRun(s[k], cls)
    ensures j == |s| || !InRun(s[j], cls)
    decreases |s| - i
  {
    if i == |s| || !InRun(s[i], cls) then i else RunEnd(s, i + 1, cls)
  }

  /** Any index with the two defining properties of RunEnd is RunEnd. */
  lemma RunEndUnique(s: seq<char>, i: nat, cls: RunClass, j: nat)
    requires i <= j <= |s|
    requires forall k | i <= k < j :: InRun(s[k], cls)
    requires j == |s| || !InRun(s[j], cls)
    ensures RunEnd(s, i, cls) == j
  {
  }

  datatype TokenKind = IntegerToken | StringToken | WhitespaceToken | KeywordToken | CharacterToken

  /** A span handed to the handler; for a quoted string it excludes both quotes. */
  datatype Token = Token(kind: TokenKind, start: nat, length: nat)

  /** How the scanning loop ended: `HandleEndOfInput` was called, or `EofError` was thrown. */
  datatype Ending = EndOfInput | EofError

  /** The tokens handed to the handler, in order, and how the scan ended. */
  datatype Scan = Scan(tokens: seq<Token>, ending: Ending)

  /** Where the bytes a token was read from end, the closing quote of a string included. */
  function LexemeEnd(t: Token): nat
  {
    if t.kind == StringToken then t.start + t.length + 1 else t.start + t.length
  }

  function Prepend(t: Token, r: Scan): Scan
  {
    Scan([t] + r.tokens, r.ending)
  }

  /** What one pass of the loop body reads: a token, and the position of the byte then held in `bit`. */
  datatype Read = Read(token: Token, next: nat)

  /**
   * One pass of the loop body from `s[p]`, with bytes left after it; `None`
   * when `next()` throws looking for a closing quote or right after it.
   */
  function NextToken(s: seq<char>, p: nat): (r: Option<Read>)
    requires p + 1 < |s|
    ensures r.Some? ==> p < r.value.next <= |s|
  {
    if IsDigit(s[p]) then
      var j := RunEnd(s, p + 1, Digits);
      Some(Read(Token(IntegerToken, p, j - p), j))
    else if s[p] == '"' then
      var q := RunEnd(s, p + 1, NotQuote);
      if q + 1 >= |s| then None
      else Some(Read(Token(StringToken, p + 1, q - p - 1), q + 1))
    else if IsSpace(s[p]) then
      var j := RunEnd(s, p + 1, Spaces);
      Some(Read(Token(WhitespaceToken, p, j - p), j))
    else if IsAlpha(s[p]) || s[p] == '_' then
      var j := RunEnd(s, p + 1, WordChars);
      Some(Read(Token(KeywordToken, p, j - p), j))
    else
      Some(Read(Token(CharacterToken, p, 1), p + 1))
  }

  /**
   * The scan from the loop head with the cursor just past `s[p]`, the byte
   * held in `bit`.  The loop runs only while bytes remain after `s[p]`, so a
   * last byte that would start a new token is never handed on.
   */
  function ScanFrom(s: seq<char>, p: nat): Scan
    requires p <= |s|
    decreases |s| - p
  {
    if p + 1 >= |s| then Scan([], EndOfInput)
    else
      match NextToken(s, p)
      case None => Scan([], EofError)
      case Some(read) => Prepend(read.token, ScanFrom(s, read.next))
  }

  /** The scan from `p` is the token one pass reads, then the scan from where that pass stops. */
  lemma UnfoldScan(s: seq<char>, p: nat, read: Read)
    requires p + 1 < |s| && NextToken(s, p) == Some(read)
    ensures ScanFrom(s, p) == Prepend(read.token, ScanFrom(s, read.next))
  {
  }

  /** `Tokenizer::operator()` on a whole buffer: an empty buffer fails on the first `next()`. */
  function Scanned(s: seq<char>): Scan
  {
    if |s| == 0 then Scan([], EofError) else ScanFrom(s, 0)
  }

  /** `s[p..p+n]` is a maximal run of `cls` bytes. */
  ghost predicate MaximalRun(s: seq<char>, p: nat, n: nat, cls: RunClass)
  {
    && 1 <= n && p + n <= |s|
    && (forall k | p <= k < p + n :: InRun(s[k], cls))
    && (p + n == |s| || !InRun(s[p + n], cls))
  }

  /** `t` is the token the scanner reads when its loop starts at `s[p]`. */
  ghost predicate Lexeme(s: seq<char>, t: Token, p: nat)
  {
    && p + 1 < |s|
    && match t.kind
       case IntegerToken => t.start == p && IsDigit(s[p]) && MaximalRun(s, p, t.length, Digits)
       case WhitespaceToken => t.start == p && IsSpace(s[p]) && MaximalRun(s, p, t.length, Spaces)
       case KeywordToken =>
         t.start == p && (IsAlpha(s[p]) || s[p] == '_') && MaximalRun(s, p, t.length, WordChars)
       case StringToken =>
         && s[p] == '"' && t.start == p + 1
         && p + t.length + 2 < |s| && s[p + t.length + 1] == '"'
         && (forall k | p < k <= p + t.length :: s[k] != '"')
       case CharacterToken =>
         && t.start == p && t.length == 1
         && !IsDigit(s[p]) && s[p] != '"' && !IsSpace(s[p]) && !IsAlpha(s[p]) && s[p] != '_'
  }

  /**
   * `r` is a correct scan of `s` from `p`: its tokens are lexemes laid end to
   * end from `p`; it ends normally only when at most one byte is left, and
   * with `EofError` only at a quote with no closing quote before the last byte.
   */
  ghost predicate ScansFrom(s: seq<char>, r: Scan, p: nat)
    decreases |r.tokens|
  {
    if r.tokens == [] then
      || (r.ending == EndOfInput && p + 1 >= |s|)
      || (r.ending == EofError && p + 1 < |s| && s[p] == '"' && forall k | p < k < |s| - 1 :: s[k] != '"')
    else
      && Lexeme(s, r.tokens[0], p)
      && ScansFrom(s, Scan(r.tokens[1..], r.ending), LexemeEnd(r.tokens[0]))
  }

  ghost predicate IsScanOf(s: seq<char>, r: Scan)
  {
    if |s| == 0 then r == Scan([], EofError) else ScansFrom(s, r, 0)
  }

  /** A token in front of a correct scan from where its lexeme ends gives a correct scan. */
  lemma PrependScans(s: seq<char>, t: Token, r: Scan, p: nat)
    requires Lexeme(s, t, p) && ScansFrom(s, r, LexemeEnd(t))
    ensures ScansFrom(s, Prepend(t, r), p)
  {
    assert Prepend(t, r).tokens[1..] == r.tokens;
  }

  /** One pass of the scanning loop reads a lexeme, or stops with `EofError` at an unterminated quote. */
  lemma ScanStep(s: seq<char>, p: nat)
    requires p + 1 < |s|
    ensures var r := ScanFrom(s, p);
      if r.tokens == [] then ScansFrom(s, r, p)
      else (p < LexemeEnd(r.tokens[0]) <= |s|
        && Lexeme(s, r.tokens[0], p) && r == Prepend(r.tokens[0], ScanFrom(s, LexemeEnd(r.tokens[0]))))
  {
    var r := ScanFrom(s, p);
    if NextToken(s, p).Some? {
      assert r.tokens[0] == NextToken(s, p).value.token;
      assert LexemeEnd(r.tokens[0]) == NextToken(s, p).value.next;
    }
  }

  lemma {:induction false} ScanFromSound(s: seq<char>, p: nat)
    requires p <= |s|
    ensures ScansFrom(s, ScanFrom(s, p), p)
    decreases |s| - p
  {
    if p + 1 < |s| {
      ScanStep(s, p);
      var r := ScanFrom(s, p);
      if r.tokens != [] {
        var t := r.tokens[0];
        ScanFromSound(s, LexemeEnd(t));
        PrependScans(s, t, ScanFrom(s, LexemeEnd(t)), p);
      }
    }
  }

  /** A lexeme at `p` is the token the scanner reads there. */
  lemma LexemeIsScanned(s: seq<char>, t: Token, p: nat)
    requires Lexeme(s, t, p)
    ensures ScanFrom(s, p).tokens != [] && ScanFrom(s, p).tokens[0] == t
    ensures ScanFrom(s, p) == Prepend(t, ScanFrom(s, LexemeEnd(t)))
  {
    LexemeIsNextToken(s, t, p);
  }

  /** A lexeme at `p` is what one pass of the loop body reads there. */
  lemma LexemeIsNextToken(s: seq<char>, t: Token, p: nat)
    requires Lexeme(s, t, p)
    ensures NextToken(s, p) == Some(Read(t, LexemeEnd(t)))
  {
    match t.kind
    case IntegerToken => RunEndUnique(s, p + 1, Digits, p + t.length);
    case WhitespaceToken => RunEndUnique(s, p + 1, Spaces, p + t.length);
    case KeywordToken => RunEndUnique(s, p + 1, WordChars, p + t.length);
    case StringToken => RunEndUnique(s, p + 1, NotQuote, p + t.length + 1);
    case CharacterToken =>
  }

  lemma {:induction false} ScanFromUnique(s: seq<char>, r: Scan, p: nat)
    requires p <= |s| && ScansFrom(s, r, p)
    ensures r == ScanFrom(s, p)
    decreases |r.tokens|
  {
    if r.tokens == [] {
      if r.ending == EofError && p + 1 < |s| {
        var q := RunEnd(s, p + 1, NotQuote);
        assert q + 1 >= |s|;
      }
    } else {
      var t := r.tokens[0];
      LexemeIsScanned(s, t, p);
      ScanFromUnique(s, Scan(r.tokens[1..], r.ending), LexemeEnd(t));
      assert r.tokens == [t] + r.tokens[1..];
    }
  }

  /** The recursive scanner is exactly the correct scans: each buffer has one, and it is `Scanned`. */
  lemma ScannedIsTheScan(s: seq<char>, r: Scan)
    ensures IsScanOf(s, r) <==> r == Scanned(s)
  {
    if |s| > 0 {
      ScanFromSound(s, 0);
      if ScansFrom(s, r, 0) {
        ScanFromUnique(s, r, 0);
      }
    }
  }

  // ---------------------------------------------------------------------
  // ParsedTokenHandler: spans to typed values
  // ---------------------------------------------------------------------

  /** A token as the typed handlers of `ParsedTokenHandler` receive it. */
  datatype Event =
    | KeywordEvent(text: string)
    | StringEvent(text: string)
    | IntegerEvent(value: int)
    | CharacterEvent(c: char)
    | WhitespaceEvent(text: string)

  /** The two `throw new error()` of the integer handler. */
  datatype IntegerError = OutOfRange | Overrun

  /** LONG_MAX of a 64-bit `long`. */
  const LongMax: int := 0x7FFF_FFFF_FFFF_FFFF

  function DigitValue(c: char): nat
  {
    if IsDigit(c) then c as int - '0' as int
    else if 'a' <= c <= 'f' then c as int - 'a' as int + 10
    else if 'A' <= c <= 'F' then c as int - 'A' as int + 10
    else 0
  }

  /** The value of the digits `ds`, most significant first, in `base`. */
  function DigitsValue(ds: seq<char>, base: nat): nat
  {
    if ds == [] then 0 else DigitsValue(ds[..|ds| - 1], base) * base + DigitValue(ds[|ds| - 1])
  }

  /**
   * What `strtol(text, &end, 0)` yields: the result (LONG_MAX on overflow),
   * how far `end` got, and whether `errno` was set to ERANGE.
   */
  datatype Conversion = Conversion(value: int, consumed: nat, outOfRange: bool)

  /** Digits of `cls` in `base` from `text[from]` on. */
  function ConvertDigits(text: seq<char>, from: nat, base: nat, cls: RunClass): (r: Conversion)
    requires from < |text| && InRun(text[from], cls)
    ensures from < r.consumed <= |text|
    ensures 0 <= r.value <= LongMax
    ensures r.outOfRange <==> DigitsValue(text[from..r.consumed], base) > LongMax
    ensures !r.outOfRange ==> r.value == DigitsValue(text[from..r.consumed], base)
    ensures forall k | from <= k < r.consumed :: InRun(text[k], cls)
    ensures r.consumed == |text| || !InRun(text[r.consumed], cls)
  {
    var end := RunEnd(text, from, cls);
    var v := DigitsValue(text[from..end], base);
    if v > LongMax then Conversion(LongMax, end, true) else Conversion(v, end, false)
  }

  /** `text` starts with "0x" or "0X" and a hex digit, so base 0 reads it in base 16. */
  predicate HexPrefixed(text: seq<char>)
  {
    |text| >= 3 && text[0] == '0' && (text[1] == 'x' || text[1] == 'X') && IsHexDigit(text[2])
  }

  /**
   * `strtol(text, &end, 0)` on text that starts with a decimal digit, as
   * section 7.20.1.4 of ISO/IEC 9899:1999 describes it: a "0x" prefix with a
   * hex digit selects base 16, another leading `0` base 8, anything else base 10.
   */
  function Strtol(text: seq<char>): (r: Conversion)
    requires |text| > 0 && IsDigit(text[0])
    ensures 1 <= r.consumed <= |text|
    ensures 0 <= r.value <= LongMax
  {
    if HexPrefixed(text) then ConvertDigits(text, 2, 16, HexDigits)
    else if text[0] == '0' then ConvertDigits(text, 0, 8, OctalDigits)
    else ConvertDigits(text, 0, 10, Digits)
  }

  /**
   * `HandleInteger(const char*, unsigned)`: `strtol` is handed the rest of
   * the buffer, so it may read past the span; an overflow and a conversion
   * that ends beyond the span are errors.
   */
  function ConvertInteger(s: seq<char>, t: Token): (r: Result<int, IntegerError>)
    requires t.start < |s| && IsDigit(s[t.start])
    ensures r.Ok? ==> 0 <= r.value <= LongMax
    ensures r == Err(Overrun) ==> Strtol(s[t.start..]).consumed > t.length
  {
    var c := Strtol(s[t.start..]);
    if c.outOfRange then Err(OutOfRange)
    else if c.consumed > t.length then Err(Overrun)
    else Ok(c.value)
  }

  /** The span's bytes as one `std::string`. */
  function SpanText(s: seq<char>, t: Token): string
    requires t.start + t.length <= |s|
  {
    s[t.start..t.start + t.length]
  }

  /** `ParsedTokenHandler`: the typed event the span of `t` becomes. */
  function Classify(s: seq<char>, t: Token): (r: Result<Event, IntegerError>)
    requires t.start + t.length <= |s|
    requires t.kind == IntegerToken ==> 1 <= t.length && IsDigit(s[t.start])
    requires t.kind == CharacterToken ==> t.length == 1
    ensures t.kind != IntegerToken ==> r.Ok?
    ensures r.Ok? ==> (r.value.IntegerEvent? <==> t.kind == IntegerToken)
    ensures r.Ok? && r.value.IntegerEvent? ==> 0 <= r.value.value <= LongMax
  {
    match t.kind
    case StringToken => Ok(StringEvent(SpanText(s, t)))
    case KeywordToken => Ok(KeywordEvent(SpanText(s, t)))
    case WhitespaceToken => Ok(WhitespaceEvent(SpanText(s, t)))
    case CharacterToken => Ok(CharacterEvent(s[t.start]))
    case IntegerToken =>
      var v :- ConvertInteger(s, t);
      Ok(IntegerEvent(v))
  }

  /** Every token of a correct scan lies inside the buffer and meets the handlers' demands. */
  lemma LexemeFits(s: seq<char>, t: Token, p: nat)
    requires Lexeme(s, t, p)
    ensures t.start + t.length <= |s| && LexemeEnd(t) <= |s|
    ensures t.kind == IntegerToken ==> 1 <= t.length && IsDigit(s[t.start])
    ensures t.kind == CharacterToken ==> t.length == 1
  {
  }

  /** The value base 0 gives a digit span read on its own: octal after a leading `0`, else decimal. */
  function SpanValue(span: seq<char>): nat
    requires |span| > 0 && IsDigit(span[0])
  {
    if span[0] == '0' then DigitsValue(span[..RunEnd(span, 0, OctalDigits)], 8)
    else DigitsValue(span, 10)
  }

  /**
   * Unless the span is a lone `0` followed by "x" and a hex digit, the
   * conversion depends only on the span: the value base 0 gives the span,
   * or an overflow error.
   */
  lemma IntegerFromSpan(s: seq<char>, t: Token, p: nat)
    requires Lexeme(s, t, p) && t.kind == IntegerToken
    requires !HexPrefixed(s[t.start..])
    ensures var span := SpanText(s, t);
      Classify(s, t) == if SpanValue(span) <= LongMax then Ok(IntegerEvent(SpanValue(span))) else Err(OutOfRange)
  {
    var text := s[t.start..];
    var span := SpanText(s, t);
    assert span == text[..t.length];
    if s[t.start] == '0' {
      var c := ConvertDigits(text, 0, 8, OctalDigits);
      assert c.consumed <= t.length;
      RunEndUnique(span, 0, OctalDigits, c.consumed);
      assert text[0..c.consumed] == span[..c.consumed];
    } else {
      var c := ConvertDigits(text, 0, 10, Digits);
      RunEndUnique(text, 0, Digits, t.length);
      assert text[0..c.consumed] == span;
    }
  }

  /** A lone `0` before "x" and a hex digit: `strtol` reads on past the span, and the token is rejected. */
  lemma HexPrefixRejected(s: seq<char>, t: Token, p: nat)
    requires Lexeme(s, t, p) && t.kind == IntegerToken
    requires HexPrefixed(s[t.start..])
    ensures t.length == 1 && Classify(s, t).Err?
  {
    assert s[t.start + 1] == s[t.start..][1];
  }

  /**
   * The text events carry the lexeme's bytes unchanged: a string is exactly
   * what lies between its quotes and holds no quote, a keyword is exactly the
   * word the span holds, and whitespace exactly its run of spaces.
   */
  lemma TextEvents(s: seq<char>, t: Token, p: nat)
    requires Lexeme(s, t, p) && t.kind != IntegerToken
    ensures Classify(s, t).Ok?
    ensures var e := Classify(s, t).value;
      match t.kind
      case StringToken =>
        e.StringEvent? && ['"'] + e.text + ['"'] == s[p..LexemeEnd(t)]
        && forall k | 0 <= k < |e.text| :: e.text[k] != '"'
      case KeywordToken =>
        e.KeywordEvent? && e.text == s[p..LexemeEnd(t)]
        && |e.text| >= 1 && (IsAlpha(e.text[0]) || e.text[0] == '_')
        && forall k | 0 <= k < |e.text| :: InRun(e.text[k], WordChars)
      case WhitespaceToken =>
        e.WhitespaceEvent? && e.text == s[p..LexemeEnd(t)]
        && |e.text| >= 1 && forall k | 0 <= k < |e.text| :: IsSpace(e.text[k])
      case CharacterToken => e == CharacterEvent(s[p])
      case IntegerToken => true
  {
    if t.kind == StringToken {
      var e := Classify(s, t).value;
      assert ['"'] + e.text + ['"'] == s[p..LexemeEnd(t)];
    }
  }

  /** The cursor of `Tokenizer`: `input` is `data[pos..]` and `size` is what remains of the buffer. */
  class Tokenizer {
    const data: seq<char>
    var pos: nat
    var size: nat

    ghost predicate Valid()
      reads this
    {
      pos + size == |data|
    }

    constructor (data: seq<char>)
      ensures Valid() && this.data == data && pos == 0 && size == |data|
    {
      this.data := data;
      pos := 0;
      size := |data|;
    }

    /** `next()`: `None` stands for the `EofError` thrown on an exhausted buffer. */
    method Next() returns (c: Option<char>)
      requires Valid()
      modifies this
      ensures Valid()
      ensures old(size) == 0 <==> c == None
      ensures old(size) == 0 ==> pos == old(pos) && size == old(size)
      ensures old(size) > 0 ==> c == Some(data[old(pos)]) && pos == old(pos) + 1 && size == old(size) - 1
    {
      if size == 0 {
        return None;
      }
      size := size - 1;
      c := Some(data[pos]);
      pos := pos + 1;
    }

    /**
     * `while (size && cls(bit=next())) length++;` after the first byte of
     * the run: the loop of the integer, whitespace and keyword cases.
     */
    method ExtendRun(cls: RunClass) returns (length: nat, bit: char)
      requires Valid() && 1 <= pos
      modifies this
      ensures Valid() && 1 <= pos && bit == data[pos - 1]
      ensures var j := RunEnd(data, old(pos), cls);
        && length == j - old(pos) + 1
        && (if j == |data| then pos == |data| else pos == j + 1)
        && ScanFrom(data, pos - 1) == ScanFrom(data, j)
    {
      length := 1;
      bit := data[pos - 1];
      while size > 0
        invariant Valid() && old(pos) <= pos <= |data| && bit == data[pos - 1]
        invariant length == pos - old(pos) + 1
        invariant forall k | old(pos) <= k < pos :: InRun(data[k], cls)
        decreases size
      {
        var c := Next();
        bit := c.value;
        if !InRun(bit, cls) {
          RunEndUnique(data, old(pos), cls, pos - 1);
          return;
        }
        length := length + 1;
      }
      RunEndUnique(data, old(pos), cls, |data|);
    }

    /**
     * `while ((bit=next())!='"') length++; bit=next();` after an opening
     * quote; `ok` is false when one of the `next()` calls throws.
     */
    method ReadQuoted() returns (ok: bool, length: nat, bit: char)
      requires Valid() && 1 <= pos
      modifies this
      ensures Valid() && 1 <= length && old(pos) <= pos
      ensures var q := RunEnd(data, old(pos), NotQuote);
        && ok == (q + 1 < |data|)
        && (ok ==> length == q - old(pos) + 1 && pos == q + 2 && bit == data[pos - 1])
    {
      length := 1;
      bit := data[pos - 1];
      while true
        invariant Valid() && old(pos) <= pos <= |data|
        invariant length == pos - old(pos) + 1
        invariant forall k | old(pos) <= k < pos :: data[k] != '"'
        decreases size
      {
        var c := Next();
        if c.None? {
          RunEndUnique(data, old(pos), NotQuote, |data|);
          return false, length, bit;
        }
        bit := c.value;
        if bit == '"' {
          break;
        }
        length := length + 1;
      }
      RunEndUnique(data, old(pos), NotQuote, pos - 1);
      var c := Next();
      if c.None? {
        return false, length, bit;
      }
      bit := c.value;
      ok := true;
    }

    /**
     * One pass of the body of the scanning loop, with the cursor just past
     * `bit`; `ok` is false when an `EofError` escapes.
     */
    method ReadToken(bit: char) returns (ok: bool, token: Token, next: char)
      requires Valid() && 1 <= pos && size > 0 && bit == data[pos - 1]
      modifies this
      ensures Valid() && 1 <= pos
      ensures !ok ==> ScanFrom(data, old(pos) - 1) == Scan([], EofError)
      ensures ok ==> old(pos) < pos && next == data[pos - 1] && ScanFrom(data, old(pos) - 1) == Prepend(token, ScanFrom(data, pos - 1))
    {
      var start := pos - 1;
      var length;
      ok, next := true, bit;
      if IsDigit(bit) {
        length, next := ExtendRun(Digits);
        token := Token(IntegerToken, start, length);
        UnfoldScan(data, start, Read(token, RunEnd(data, start + 1, Digits)));
        return;
      } else if bit == '"' {
        ok, length, next := ReadQuoted();
        token := Token(StringToken, start + 1, length - 1);
        if ok {
          UnfoldScan(data, start, Read(token, pos - 1));
        }
        return;
      } else if IsSpace(bit) {
        length, next := ExtendRun(Spaces);
        token := Token(WhitespaceToken, start, length);
        UnfoldScan(data, start, Read(token, RunEnd(data, start + 1, Spaces)));
        return;
      } else if IsAlpha(bit) || bit == '_' {
        length, next := ExtendRun(WordChars);
        token := Token(KeywordToken, start, length);
        UnfoldScan(data, start, Read(token, RunEnd(data, start + 1, WordChars)));
        return;
      } else {
        token := Token(CharacterToken, start, 1);
        var c := Next();
        next := c.value;
        UnfoldScan(data, start, Read(token, pos - 1));
      }
    }

    /** `Tokenizer::operator()`: the tokens handed on, in order, and how the scan ended. */
    method Run() returns (r: Scan)
      requires Valid() && pos == 0
      modifies this
      ensures r == Scanned(data)
      ensures IsScanOf(data, r)
      ensures |data| == 0 ==> r == Scan([], EofError)
    {
      ScannedIsTheScan(data, Scanned(data));
      var tokens: seq<Token> := [];
      var c := Next();
      if c.None? {
        return Scan([], EofError);
      }
      var bit := c.value;
      while size > 0
        invariant Valid() && 1 <= pos <= |data| && bit == data[pos - 1]
        invariant Scanned(data) == Scan(tokens + ScanFrom(data, pos - 1).tokens, ScanFrom(data, pos - 1).ending)
        decreases size
      {
        var ok, token;
        ok, token, bit := ReadToken(bit);
        if !ok {
          assert tokens + [] == tokens;
          return Scan(tokens, EofError);
        }
        ghost var rest := ScanFrom(data, pos - 1);
        assert (tokens + [token]) + rest.tokens == tokens + ([token] + rest.tokens);
        tokens := tokens + [token];
      }
      assert tokens + [] == tokens;
      return Scan(tokens, EndOfInput);
    }
  }
}
