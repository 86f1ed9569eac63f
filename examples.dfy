/** Concrete buffers and what reading them gives. */
module Examples {
  import opened Wrappers
  import opened Config
  import opened Tokenize
  import opened IscParser
  import opened Pipeline

  /** A byte that would start a token but ends the buffer is never handed on. */
  lemma FinalByteDropped()
    ensures Scanned("a;") == Scan([Token(KeywordToken, 0, 1)], EndOfInput)
  {
  }

  /** A closing quote that is the last byte fails, as does an empty buffer. */
  lemma ScannerEofCases()
    ensures Scanned("\"a\"") == Scan([], EofError)
    ensures Scanned("\"a\" ") == Scan([Token(StringToken, 1, 1)], EndOfInput)
    ensures Scanned("") == Scan([], EofError)
  {
  }

  /** A leading `0` reads the span in octal. */
  lemma OctalSpan()
    ensures Classify("017;", Token(IntegerToken, 0, 3)) == Ok(IntegerEvent(15))
  {
    RunEndUnique("017;", 0, OctalDigits, 3);
    assert "017;"[0..3] == "017" && "017"[..2] == "01" && "01"[..1] == "0" && "0"[..0] == [];
  }

  /** The octal reading stops at the first non-octal digit; the rest of the span is ignored. */
  lemma OctalStopsAtNine()
    ensures Classify("09;", Token(IntegerToken, 0, 2)) == Ok(IntegerEvent(0))
  {
    RunEndUnique("09;", 0, OctalDigits, 1);
    assert "09;"[0..1] == "0" && "0"[..0] == [];
  }

  /** Without a leading `0` the span is decimal. */
  lemma DecimalSpan()
    ensures Classify("42;", Token(IntegerToken, 0, 2)) == Ok(IntegerEvent(42))
  {
    RunEndUnique("42;", 0, Digits, 2);
    assert "42;"[0..2] == "42" && "42"[..1] == "4" && "4"[..0] == [];
  }

  /** "0x1F" scans as the integer `0` followed by a keyword, and the integer is rejected. */
  lemma HexIsRejected()
    ensures Scanned("0x1F;\n").tokens[0] == Token(IntegerToken, 0, 1)
    ensures Classify("0x1F;\n", Token(IntegerToken, 0, 1)) == Err(Overrun)
  {
    var s := "0x1F;\n";
    assert s[0..] == s;
    RunEndUnique(s, 2, HexDigits, 4);
    RunEndUnique(s, 1, Digits, 1);
    assert s[2..4] == "1F" && "1F"[..1] == "1" && "1"[..0] == [];
  }

  /** A byte that starts no run is a one-byte character token. */
  lemma ScanCharacter(s: seq<char>, p: nat)
    requires p + 1 < |s|
    requires !IsDigit(s[p]) && s[p] != '"' && !IsSpace(s[p]) && !IsAlpha(s[p]) && s[p] != '_'
    ensures ScanFrom(s, p) == Prepend(Token(CharacterToken, p, 1), ScanFrom(s, p + 1))
  {
    UnfoldScan(s, p, Read(Token(CharacterToken, p, 1), p + 1));
  }

  /** A run-starting byte followed by a byte outside that run is a one-byte token. */
  lemma ScanOneByteRun(s: seq<char>, p: nat, cls: RunClass, kind: TokenKind)
    requires p + 1 < |s| && !InRun(s[p + 1], cls)
    requires || (cls == Digits && kind == IntegerToken && IsDigit(s[p]))
             || (cls == Spaces && kind == WhitespaceToken && !IsDigit(s[p]) && s[p] != '"' && IsSpace(s[p]))
             || (cls == WordChars && kind == KeywordToken && !IsDigit(s[p]) && s[p] != '"' && !IsSpace(s[p])
                 && (IsAlpha(s[p]) || s[p] == '_'))
    ensures ScanFrom(s, p) == Prepend(Token(kind, p, 1), ScanFrom(s, p + 1))
  {
    RunEndUnique(s, p + 1, cls, p + 1);
    UnfoldScan(s, p, Read(Token(kind, p, 1), p + 1));
  }

  /** The parser after `a`. */
  const AfterKey := Parser(InMapKeyword, ["a"], [], Blank(Map))

  /** The parser after `a 1`. */
  const AfterValue := Parser(InMapNeedTerminator, [], [], Blank(Map).(mapValue := map["a" := IntValue(1)]))

  /** The parser after `a 1;`. */
  const AfterTerminator := Parser(InMap, [], [], Blank(Map).(mapValue := map["a" := IntValue(1)]))

  /** A buffer that starts with `a 1;`. */
  predicate StartsWithAssignment(s: seq<char>)
  {
    |s| >= 4 && s[0] == 'a' && s[1] == ' ' && s[2] == '1' && s[3] == ';'
  }

  lemma AssignmentKeyword(s: seq<char>)
    requires StartsWithAssignment(s)
    ensures ReadFrom(s, 0, Initial()) == ReadFrom(s, 1, AfterKey)
  {
    ScanOneByteRun(s, 0, WordChars, KeywordToken);
    assert s[0..1] == "a" && [] + ["a"] == ["a"];
    ReadFromStep(s, 0, 1, Token(KeywordToken, 0, 1), Initial());
  }

  lemma AssignmentSpace(s: seq<char>)
    requires StartsWithAssignment(s)
    ensures ReadFrom(s, 1, AfterKey) == ReadFrom(s, 2, AfterKey)
  {
    ScanOneByteRun(s, 1, Spaces, WhitespaceToken);
    ReadFromStep(s, 1, 2, Token(WhitespaceToken, 1, 1), AfterKey);
  }

  /** The `1` converts to the integer 1 whatever follows the `;`. */
  lemma AssignmentInteger(s: seq<char>)
    requires StartsWithAssignment(s)
    ensures Classify(s, Token(IntegerToken, 2, 1)) == Ok(IntegerEvent(1))
  {
    RunEndUnique(s[2..], 0, Digits, 1);
    assert s[2..][0..1] == "1" && "1"[..0] == [];
  }

  lemma AssignmentValue(s: seq<char>)
    requires StartsWithAssignment(s)
    ensures ReadFrom(s, 2, AfterKey) == ReadFrom(s, 3, AfterValue)
  {
    ScanOneByteRun(s, 2, Digits, IntegerToken);
    AssignmentInteger(s);
    ReadFromStep(s, 2, 3, Token(IntegerToken, 2, 1), AfterKey);
  }

  lemma AssignmentTerminator(s: seq<char>)
    requires StartsWithAssignment(s) && |s| > 4
    ensures ReadFrom(s, 3, AfterValue) == ReadFrom(s, 4, AfterTerminator)
  {
    ScanCharacter(s, 3);
    ReadFromStep(s, 3, 4, Token(CharacterToken, 3, 1), AfterValue);
  }

  const Unterminated := "a 1;"

  /** A file whose last byte is the final `;` ends with the value still unterminated. */
  lemma MissingFinalNewline()
    ensures ReadConfig(Unterminated) == Err(ParseFailed(ParseError(UnexpectedEnd)))
  {
    AssignmentKeyword(Unterminated);
    AssignmentSpace(Unterminated);
    AssignmentValue(Unterminated);
    ReadFromEnd(Unterminated, 3, AfterValue);
  }

  const Simple := "a 1;\n"

  /** `a 1;` followed by a newline is a map with one integer. */
  lemma SimpleAssignment()
    ensures ReadConfig(Simple) == Ok(Blank(Map).(mapValue := map["a" := IntValue(1)]))
  {
    AssignmentKeyword(Simple);
    AssignmentSpace(Simple);
    AssignmentValue(Simple);
    AssignmentTerminator(Simple);
    ReadFromEnd(Simple, 4, AfterTerminator);
  }

  /** The parser after `k`, after `k {` and after `k { }`. */
  const InKey := Parser(InMapKeyword, ["k"], [], Blank(Map))
  const InEmpty := Parser(InSection, ["k"], [], Blank(Map))
  const Closed := Parser(EndingSection, [], [], Blank(Map).(mapValue := map["k" := Blank(Map)]))

  /** A buffer that starts with `k { };`. */
  predicate StartsWithEmptySection(s: seq<char>)
  {
    |s| >= 6 && s[0] == 'k' && s[1] == ' ' && s[2] == '{' && s[3] == ' ' && s[4] == '}' && s[5] == ';'
  }

  lemma EmptySectionKeyword(s: seq<char>)
    requires StartsWithEmptySection(s)
    ensures ReadFrom(s, 0, Initial()) == ReadFrom(s, 2, InKey)
  {
    ScanOneByteRun(s, 0, WordChars, KeywordToken);
    ScanOneByteRun(s, 1, Spaces, WhitespaceToken);
    assert s[0..1] == "k" && [] + ["k"] == ["k"];
    ReadFromStep(s, 0, 1, Token(KeywordToken, 0, 1), Initial());
    ReadFromStep(s, 1, 2, Token(WhitespaceToken, 1, 1), InKey);
  }

  lemma EmptySectionOpen(s: seq<char>)
    requires StartsWithEmptySection(s)
    ensures ReadFrom(s, 2, InKey) == ReadFrom(s, 4, InEmpty)
  {
    ScanCharacter(s, 2);
    ScanOneByteRun(s, 3, Spaces, WhitespaceToken);
    ReadFromStep(s, 2, 3, Token(CharacterToken, 2, 1), InKey);
    ReadFromStep(s, 3, 4, Token(WhitespaceToken, 3, 1), InEmpty);
  }

  lemma EmptySectionClose(s: seq<char>)
    requires StartsWithEmptySection(s)
    ensures ReadFrom(s, 4, InEmpty) == ReadFrom(s, 5, Closed)
  {
    ScanCharacter(s, 4);
    ReadFromStep(s, 4, 5, Token(CharacterToken, 4, 1), InEmpty);
  }

  lemma EmptySectionTerminator(s: seq<char>)
    requires StartsWithEmptySection(s) && |s| > 6
    ensures ReadFrom(s, 5, Closed) == Err(ParseFailed(ParseError(CannotCloseRoot)))
  {
    ScanCharacter(s, 5);
    ReadFromStep(s, 5, 6, Token(CharacterToken, 5, 1), Closed);
  }

  const EmptySection := "k { };\n"

  /** The empty section at top level closes the root section. */
  lemma EmptyTopLevelSection()
    ensures ReadConfig(EmptySection) == Err(ParseFailed(ParseError(CannotCloseRoot)))
  {
    EmptySectionKeyword(EmptySection);
    EmptySectionOpen(EmptySection);
    EmptySectionClose(EmptySection);
    EmptySectionTerminator(EmptySection);
  }

  /** The parser inside `items {` after `"a";`: a list holding "a". */
  const ListAfterA := Parser(InList, [], ["items"], Blank(Map).(mapValue := map["items" := Blank(List).(listValue := [StringValue("a")])]))

  /** `items { "a"` opens a list with the string as its first element. */
  lemma ListOpensWithString()
    ensures Steps(Initial(), [KeywordEvent("items"), CharacterEvent('{'), StringEvent("a"), CharacterEvent(';')]) == Ok(ListAfterA)
  {
    var p1 := Parser(InMapKeyword, ["items"], [], Blank(Map));
    var p2 := p1.(state := InSection);
    var cfg := Blank(Map).(mapValue := map["items" := Blank(List)]);
    var p3 := Parser(InListNeedTerminator, [], ["items"], Blank(Map).(mapValue := map["items" := Blank(List).(listValue := [StringValue("a")])]));
    assert [] + ["items"] == ["items"];
    assert Step(Initial(), KeywordEvent("items")) == Ok(p1);
    assert Step(p1, CharacterEvent('{')) == Ok(p2);
    assert StoreAt(Blank(Map), [], "items", Blank(List)) == cfg;
    assert Opened(p2, List) == Parser(InSection, [], ["items"], cfg);
    var list := Blank(List).(listValue := [StringValue("a")]);
    assert ["items"][1..] == [] && [] + [StringValue("a")] == [StringValue("a")];
    assert NodeAt(cfg, ["items"]) == Blank(List);
    assert ReplaceAt(cfg, ["items"], list) == cfg.(mapValue := cfg.mapValue["items" := list]);
    assert cfg.mapValue["items" := list] == map["items" := list];
    assert AppendAt(cfg, ["items"], StringValue("a")) == p3.cfg;
    assert Step(p2, StringEvent("a")) == Ok(p3);
    assert Step(p3, CharacterEvent(';')) == Ok(ListAfterA);
  }

  /** Once the list is open an integer is appended like a string. */
  lemma ListTakesIntegerLater()
    ensures Steps(ListAfterA, [IntegerEvent(3), CharacterEvent(';')]) ==
      Ok(ListAfterA.(cfg := Blank(Map).(mapValue := map["items" := Blank(List).(listValue := [StringValue("a"), IntValue(3)])])))
  {
    var cfg := ListAfterA.cfg;
    var list := Blank(List).(listValue := [StringValue("a"), IntValue(3)]);
    var after := Blank(Map).(mapValue := map["items" := list]);
    assert ["items"][1..] == [] && [StringValue("a")] + [IntValue(3)] == [StringValue("a"), IntValue(3)];
    assert NarrowToInt(3) == 3;
    assert ReplaceAt(cfg, ["items"], list) == cfg.(mapValue := cfg.mapValue["items" := list]);
    assert cfg.mapValue["items" := list] == map["items" := list];
    assert AppendAt(cfg, ["items"], IntValue(3)) == after;
    assert Step(ListAfterA, IntegerEvent(3)) == Ok(ListAfterA.(cfg := after, state := InListNeedTerminator));
  }

  /** A section cannot start with an integer. */
  lemma ListCannotStartWithInteger()
    ensures Steps(Initial(), [KeywordEvent("items"), CharacterEvent('{'), IntegerEvent(3)]) == Err(ParseError(StringNotAllowed))
  {
    var p1 := Step(Initial(), KeywordEvent("items")).value;
    var p2 := Step(p1, CharacterEvent('{')).value;
    assert Steps(p2, [IntegerEvent(3)]) == Err(ParseError(StringNotAllowed));
  }
}
