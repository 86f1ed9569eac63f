/**
 * The ISC configuration parser of iscparser.cc: a seven-state machine with a
 * stack of pending keys and a stack of open nodes of the configuration tree.
 *
 * The stack of open nodes is a key path from the root: the nodes on the
 * original's stack are the root and the nodes reached by following the path,
 * and only the node at the end of the path is ever written, so no write can
 * replace a node that is still open.  `Parser` is a snapshot of the parser's
 * fields; `Step` says what each typed handler does to it, and the class
 * `ISCParser` does it in place.
 */
module IscParser {
  import opened Wrappers
  import opened Config
  import Tokenize

  datatype State =
    | InSection            // a section was opened, its kind is not known yet
    | InMap                // in a map, awaiting a key or the end of the section
    | InMapKeyword         // in a map, a key was read, awaiting its value
    | InMapNeedTerminator  // in a map, a value was stored, awaiting `;`
    | InList               // in a list, awaiting a value or the end of the section
    | InListNeedTerminator // in a list, a value was appended, awaiting `;`
    | EndingSection        // a section was closed, awaiting `;`

  /** `parse_error` and its message. */
  datatype ParseError = ParseError(message: string)

  const KeywordNotAllowed := "keyword not allowed in this context"
  // The integer handler reuses the string handler's message, as the original does.
  const StringNotAllowed := "string not allowed in this context"
  const UnexpectedOpen := "Unexpected { found"
  const UnexpectedClose := "Unexpected } found"
  const UnexpectedSeparator := "Unexpected seperator (;) found"
  const CannotCloseRoot := "Can not close the root section"
  const UnexpectedCharacter := "Unexpected character found"
  const UnexpectedEnd := "Unexpected end of input"

  // ---------------------------------------------------------------------
  // The tree below the root, addressed by key paths
  // ---------------------------------------------------------------------

  /** Every key of `path` names a child of a map, starting at `root`. */
  predicate PathOk(root: ConfigValue, path: seq<string>)
    decreases |path|
  {
    path == [] || (root.tag == Map && path[0] in root.mapValue && PathOk(root.mapValue[path[0]], path[1..]))
  }

  /** The node the path leads to. */
  function NodeAt(root: ConfigValue, path: seq<string>): ConfigValue
    requires PathOk(root, path)
    decreases |path|
  {
    if path == [] then root else NodeAt(root.mapValue[path[0]], path[1..])
  }

  /**
   * `b` is `a` except inside the node at `path`: every node along the path
   * keeps its tag, scalars, list and all its other keys, and only the entry
   * that continues the path may differ.
   */
  predicate SameOutside(a: ConfigValue, b: ConfigValue, path: seq<string>)
    decreases |path|
  {
    path == [] ||
    (&& path[0] in a.mapValue && path[0] in b.mapValue
     && b == a.(mapValue := a.mapValue[path[0] := b.mapValue[path[0]]])
     && SameOutside(a.mapValue[path[0]], b.mapValue[path[0]], path[1..]))
  }

  /** `root` with the node at `path` replaced by `node`, and nothing else changed. */
  function ReplaceAt(root: ConfigValue, path: seq<string>, node: ConfigValue): (r: ConfigValue)
    requires PathOk(root, path)
    ensures PathOk(r, path) && NodeAt(r, path) == node
    ensures SameOutside(root, r, path)
    ensures path != [] ==> r.tag == root.tag
    decreases |path|
  {
    if path == [] then node
    else root.(mapValue := root.mapValue[path[0] := ReplaceAt(root.mapValue[path[0]], path[1..], node)])
  }

  /** A path that ends at a map with key `k` extends by `k`. */
  lemma {:induction false} PathExtend(root: ConfigValue, path: seq<string>, k: string)
    requires PathOk(root, path) && NodeAt(root, path).tag == Map && k in NodeAt(root, path).mapValue
    ensures PathOk(root, path + [k]) && NodeAt(root, path + [k]) == NodeAt(root, path).mapValue[k]
    decreases |path|
  {
    if path != [] {
      assert (path + [k])[1..] == path[1..] + [k];
      PathExtend(root.mapValue[path[0]], path[1..], k);
    }
  }

  /** Dropping the last key of a path leads to the map that holds the last node. */
  lemma {:induction false} PathShrink(root: ConfigValue, path: seq<string>)
    requires path != [] && PathOk(root, path)
    ensures var parent := path[..|path| - 1];
      && PathOk(root, parent) && NodeAt(root, parent).tag == Map
      && path[|path| - 1] in NodeAt(root, parent).mapValue
    decreases |path|
  {
    if |path| > 1 {
      assert path[1..][..|path[1..]| - 1] == path[..|path| - 1][1..];
      PathShrink(root.mapValue[path[0]], path[1..]);
    }
  }

  /** `contextStack.top()->mapValue[key]=value`. */
  function StoreAt(root: ConfigValue, path: seq<string>, key: string, value: ConfigValue): (r: ConfigValue)
    requires PathOk(root, path)
    ensures PathOk(r, path) && SameOutside(root, r, path)
    ensures NodeAt(r, path) == NodeAt(root, path).(mapValue := NodeAt(root, path).mapValue[key := value])
    ensures path != [] ==> r.tag == root.tag
  {
    var top := NodeAt(root, path);
    ReplaceAt(root, path, top.(mapValue := top.mapValue[key := value]))
  }

  /** `contextStack.top()->listValue.push_back(value)`. */
  function AppendAt(root: ConfigValue, path: seq<string>, value: ConfigValue): (r: ConfigValue)
    requires PathOk(root, path)
    ensures PathOk(r, path) && SameOutside(root, r, path)
    ensures NodeAt(r, path) == NodeAt(root, path).(listValue := NodeAt(root, path).listValue + [value])
    ensures path != [] ==> r.tag == root.tag
  {
    var top := NodeAt(root, path);
    ReplaceAt(root, path, top.(listValue := top.listValue + [value]))
  }

  /**
   * `ConfigData(int)` called with a `long`: the value is narrowed to a
   * 32-bit `int`, keeping its low 32 bits as two's complement.
   */
  function NarrowToInt(v: int): (r: int)
    ensures -0x8000_0000 <= r < 0x8000_0000
    ensures (v - r) % 0x1_0000_0000 == 0
    ensures -0x8000_0000 <= v < 0x8000_0000 ==> r == v
  {
    var m := v % 0x1_0000_0000;
    if m >= 0x8000_0000 then m - 0x1_0000_0000 else m
  }

  // ---------------------------------------------------------------------
  // The state machine
  // ---------------------------------------------------------------------

  /** The parser's fields: `state`, `tokenStack` (top last), the open path and `cfg`. */
  datatype Parser = Parser(state: State, tokenStack: seq<string>, path: seq<string>, cfg: ConfigValue)

  predicate InMapState(s: State)
  {
    s == InSection || s == InMap || s == InMapKeyword || s == InMapNeedTerminator
  }

  predicate InListState(s: State)
  {
    s == InList || s == InListNeedTerminator
  }

  /**
   * What holds between handler calls: the root is a map and the path leads
   * to an open node; exactly one key is pending in `InMapKeyword` and
   * `InSection` and none otherwise; the open node is a map in the map
   * states and a list in the list states.
   */
  predicate Wellformed(p: Parser)
  {
    && p.cfg.tag == Map
    && PathOk(p.cfg, p.path)
    && |p.tokenStack| == (if p.state == InMapKeyword || p.state == InSection then 1 else 0)
    && (InMapState(p.state) ==> NodeAt(p.cfg, p.path).tag == Map)
    && (InListState(p.state) ==> NodeAt(p.cfg, p.path).tag == List)
  }

  /** `ISCParser()`: in `InMap`, with the empty root map as the only open node. */
  function Initial(): (p: Parser)
    ensures Wellformed(p)
    ensures p.state == InMap && p.tokenStack == [] && p.path == [] && p.cfg == Blank(Map)
  {
    Parser(InMap, [], [], Blank(Map))
  }

  function Top(stack: seq<string>): string
    requires stack != []
  {
    stack[|stack| - 1]
  }

  function Pop(stack: seq<string>): seq<string>
    requires stack != []
  {
    stack[..|stack| - 1]
  }

  /**
   * Store a new node of type `dt` under the pending key, open it, and pop
   * the key: the first half of the `InSection` cases.
   */
  function Opened(p: Parser, dt: DataType): (q: Parser)
    requires Wellformed(p) && p.state == InSection
    ensures q.cfg.tag == Map && q.tokenStack == [] && q.path == p.path + [Top(p.tokenStack)]
    ensures PathOk(q.cfg, q.path) && NodeAt(q.cfg, q.path) == Blank(dt)
    ensures PathOk(q.cfg, p.path) && SameOutside(p.cfg, q.cfg, p.path)
    ensures var top := NodeAt(p.cfg, p.path);
      NodeAt(q.cfg, p.path) == top.(mapValue := top.mapValue[Top(p.tokenStack) := Blank(dt)])
  {
    var key := Top(p.tokenStack);
    var cfg := StoreAt(p.cfg, p.path, key, Blank(dt));
    PathExtend(cfg, p.path, key);
    p.(cfg := cfg, path := p.path + [key], tokenStack := Pop(p.tokenStack))
  }

  /** `HandleKeyword`. */
  function OnKeyword(p: Parser, data: string): (r: Result<Parser, ParseError>)
    requires Wellformed(p)
    ensures r.Ok? <==> p.state == InSection || p.state == InMap
    ensures r.Ok? ==> Wellformed(r.value) && r.value.state == InMapKeyword && r.value.tokenStack == [data]
    ensures r.Err? ==> r.error == ParseError(KeywordNotAllowed)
  {
    if p.state == InSection then
      var q := Opened(p, Map);
      Ok(q.(tokenStack := q.tokenStack + [data], state := InMapKeyword))
    else if p.state == InMap then
      Ok(p.(tokenStack := p.tokenStack + [data], state := InMapKeyword))
    else
      Err(ParseError(KeywordNotAllowed))
  }

  /** The value handlers in `InMapKeyword`: store under the pending key and pop it. */
  function Assign(p: Parser, value: ConfigValue): (q: Parser)
    requires Wellformed(p) && p.state == InMapKeyword
    ensures Wellformed(q) && q.state == InMapNeedTerminator && q.path == p.path
    ensures q.tokenStack == [] && SameOutside(p.cfg, q.cfg, p.path)
    ensures var top := NodeAt(p.cfg, p.path);
      NodeAt(q.cfg, q.path) == top.(mapValue := top.mapValue[Top(p.tokenStack) := value])
  {
    p.(cfg := StoreAt(p.cfg, p.path, Top(p.tokenStack), value), tokenStack := Pop(p.tokenStack),
       state := InMapNeedTerminator)
  }

  /** The value handlers in `InList`: append to the open list. */
  function Append(p: Parser, value: ConfigValue): (q: Parser)
    requires Wellformed(p) && NodeAt(p.cfg, p.path).tag == List && p.tokenStack == []
    ensures Wellformed(q) && q.state == InListNeedTerminator && q.path == p.path
    ensures q.tokenStack == [] && SameOutside(p.cfg, q.cfg, p.path)
    ensures var top := NodeAt(p.cfg, p.path);
      NodeAt(q.cfg, q.path) == top.(listValue := top.listValue + [value])
  {
    var cfg := AppendAt(p.cfg, p.path, value);
    assert p.path == [] ==> cfg.tag == List;
    p.(cfg := cfg, state := InListNeedTerminator)
  }

  /** `HandleString`. */
  function OnString(p: Parser, data: string): (r: Result<Parser, ParseError>)
    requires Wellformed(p)
    ensures r.Ok? <==> p.state == InMapKeyword || p.state == InSection || p.state == InList
    ensures r.Ok? ==> Wellformed(r.value)
    ensures r.Err? ==> r.error == ParseError(StringNotAllowed)
  {
    if p.state == InMapKeyword then Ok(Assign(p, StringValue(data)))
    else if p.state == InSection then
      var q := Opened(p, List);
      Ok(Append(q.(state := InList), StringValue(data)))
    else if p.state == InList then Ok(Append(p, StringValue(data)))
    else Err(ParseError(StringNotAllowed))
  }

  /** `HandleInteger`: there is no `InSection` case, so a section cannot start with an integer. */
  function OnInteger(p: Parser, data: int): (r: Result<Parser, ParseError>)
    requires Wellformed(p)
    ensures r.Ok? <==> p.state == InMapKeyword || p.state == InList
    ensures r.Ok? ==> Wellformed(r.value)
    ensures r.Err? ==> r.error == ParseError(StringNotAllowed)
  {
    if p.state == InMapKeyword then Ok(Assign(p, IntValue(NarrowToInt(data))))
    else if p.state == InList then Ok(Append(p, IntValue(NarrowToInt(data))))
    else Err(ParseError(StringNotAllowed))
  }

  /** `HandleCharacter`. */
  function OnCharacter(p: Parser, c: char): (r: Result<Parser, ParseError>)
    requires Wellformed(p)
    ensures r.Ok? ==> Wellformed(r.value)
    ensures c != '{' && c != '}' && c != ';' ==> r == Err(ParseError(UnexpectedCharacter))
    ensures c == ';' && p.state == EndingSection && p.path == [] ==> r == Err(ParseError(CannotCloseRoot))
  {
    if c == '{' then
      if p.state == InMapKeyword then Ok(p.(state := InSection))
      else Err(ParseError(UnexpectedOpen))
    else if c == '}' then
      if p.state == InSection then
        var cfg := StoreAt(p.cfg, p.path, Top(p.tokenStack), Blank(Map));
        Ok(p.(cfg := cfg, tokenStack := Pop(p.tokenStack), state := EndingSection))
      else if p.state == InMap || p.state == InList then Ok(p.(state := EndingSection))
      else Err(ParseError(UnexpectedClose))
    else if c == ';' then
      if p.state == InMapNeedTerminator then Ok(p.(state := InMap))
      else if p.state == InListNeedTerminator then Ok(p.(state := InList))
      else if p.state == EndingSection then
        if |p.path| == 0 then Err(ParseError(CannotCloseRoot))
        else
          PathShrink(p.cfg, p.path);
          Ok(p.(state := InMap, path := p.path[..|p.path| - 1]))
      else Err(ParseError(UnexpectedSeparator))
    else
      Err(ParseError(UnexpectedCharacter))
  }

  /** One typed handler call; whitespace is ignored. */
  function Step(p: Parser, e: Tokenize.Event): (r: Result<Parser, ParseError>)
    requires Wellformed(p)
    ensures r.Ok? ==> Wellformed(r.value)
    ensures e.WhitespaceEvent? ==> r == Ok(p)
  {
    match e
    case KeywordEvent(data) => OnKeyword(p, data)
    case StringEvent(data) => OnString(p, data)
    case IntegerEvent(v) => OnInteger(p, v)
    case CharacterEvent(c) => OnCharacter(p, c)
    case WhitespaceEvent(_) => Ok(p)
  }

  /**
   * `HandleEndOfInput`: the configuration, if nothing is pending and no
   * section is open.  Between handler calls an empty key stack follows from
   * being in `InMap`, so only the state and the open sections matter.
   */
  function Finish(p: Parser): (r: Result<ConfigValue, ParseError>)
    ensures Wellformed(p) ==> (r.Ok? <==> p.state == InMap && p.path == [])
    ensures r.Ok? ==> r.value == p.cfg
    ensures r.Err? ==> r.error == ParseError(UnexpectedEnd)
  {
    if |p.tokenStack| > 0 || p.state != InMap || |p.path| > 0 then Err(ParseError(UnexpectedEnd))
    else Ok(p.cfg)
  }

  /** The handler calls for `events`, in order, up to the first error. */
  function Steps(p: Parser, events: seq<Tokenize.Event>): (r: Result<Parser, ParseError>)
    requires Wellformed(p)
    ensures r.Ok? ==> Wellformed(r.value)
    decreases |events|
  {
    if events == [] then Ok(p)
    else
      var q :- Step(p, events[0]);
      Steps(q, events[1..])
  }

  // ---------------------------------------------------------------------
  // The parser object
  // ---------------------------------------------------------------------

  /** `ISCParser`. */
  class ISCParser {
    var state: State
    var tokenStack: seq<string>
    var path: seq<string>
    var cfg: ConfigValue

    function Snapshot(): Parser
      reads this
    {
      Parser(state, tokenStack, path, cfg)
    }

    ghost predicate Valid()
      reads this
    {
      Wellformed(Snapshot())
    }

    /** On success the fields are `r`'s value; on a `parse_error` they are unchanged. */
    ghost predicate Outcome(r: Result<Parser, ParseError>, before: Parser, err: Option<ParseError>)
      reads this
    {
      if r.Ok? then err == None && Snapshot() == r.value
      else err == Some(r.error) && Snapshot() == before
    }

    constructor ()
      ensures Snapshot() == Initial()
      ensures Valid()
    {
      state := InMap;
      tokenStack := [];
      path := [];
      cfg := Blank(Map);
    }

    /** Store a fresh node under the pending key, open it and pop the key. */
    method OpenSection(dt: DataType)
      requires Valid() && state == InSection
      modifies this
      ensures Snapshot() == Opened(old(Snapshot()), dt).(state := InSection)
    {
      var key := tokenStack[|tokenStack| - 1];
      cfg := StoreAt(cfg, path, key, Blank(dt));
      path := path + [key];
      tokenStack := tokenStack[..|tokenStack| - 1];
    }

    method HandleKeyword(data: string) returns (err: Option<ParseError>)
      requires Valid()
      modifies this
      ensures Outcome(OnKeyword(old(Snapshot()), data), old(Snapshot()), err)
    {
      err := None;
      if state == InSection {
        OpenSection(Map);
      } else if state != InMap {
        return Some(ParseError(KeywordNotAllowed));
      }
      tokenStack := tokenStack + [data];
      state := InMapKeyword;
    }

    method HandleString(data: string) returns (err: Option<ParseError>)
      requires Valid()
      modifies this
      ensures Outcome(OnString(old(Snapshot()), data), old(Snapshot()), err)
    {
      err := None;
      if state == InMapKeyword {
        cfg := StoreAt(cfg, path, tokenStack[|tokenStack| - 1], StringValue(data));
        tokenStack := tokenStack[..|tokenStack| - 1];
        state := InMapNeedTerminator;
        return;
      } else if state == InSection {
        OpenSection(List);
      } else if state != InList {
        return Some(ParseError(StringNotAllowed));
      }
      cfg := AppendAt(cfg, path, StringValue(data));
      state := InListNeedTerminator;
    }

    method HandleInteger(data: int) returns (err: Option<ParseError>)
      requires Valid()
      modifies this
      ensures Outcome(OnInteger(old(Snapshot()), data), old(Snapshot()), err)
    {
      err := None;
      if state == InMapKeyword {
        cfg := StoreAt(cfg, path, tokenStack[|tokenStack| - 1], IntValue(NarrowToInt(data)));
        tokenStack := tokenStack[..|tokenStack| - 1];
        state := InMapNeedTerminator;
      } else if state == InList {
        cfg := AppendAt(cfg, path, IntValue(NarrowToInt(data)));
        state := InListNeedTerminator;
      } else {
        err := Some(ParseError(StringNotAllowed));
      }
    }

    method HandleCharacter(data: char) returns (err: Option<ParseError>)
      requires Valid()
      modifies this
      ensures Outcome(OnCharacter(old(Snapshot()), data), old(Snapshot()), err)
    {
      err := None;
      if data == '{' {
        if state == InMapKeyword {
          state := InSection;
        } else {
          err := Some(ParseError(UnexpectedOpen));
        }
      } else if data == '}' {
        if state == InSection {
          cfg := StoreAt(cfg, path, tokenStack[|tokenStack| - 1], Blank(Map));
          tokenStack := tokenStack[..|tokenStack| - 1];
          state := EndingSection;
        } else if state == InMap || state == InList {
          state := EndingSection;
        } else {
          err := Some(ParseError(UnexpectedClose));
        }
      } else if data == ';' {
        if state == InMapNeedTerminator {
          state := InMap;
        } else if state == InListNeedTerminator {
          state := InList;
        } else if state == EndingSection {
          if |path| + 1 <= 1 {
            return Some(ParseError(CannotCloseRoot));
          }
          state := InMap;
          path := path[..|path| - 1];
        } else {
          err := Some(ParseError(UnexpectedSeparator));
        }
      } else {
        err := Some(ParseError(UnexpectedCharacter));
      }
    }

    /** `HandleEndOfInput`: fails unless nothing is pending and only the root is open. */
    method HandleEndOfInput() returns (err: Option<ParseError>)
      ensures err.None? <==> Finish(Snapshot()).Ok?
      ensures err.Some? ==> err.value == ParseError(UnexpectedEnd)
    {
      if |tokenStack| > 0 || state != InMap || |path| + 1 > 1 {
        return Some(ParseError(UnexpectedEnd));
      }
      return None;
    }

    /** `HandleWhitespace`: nothing happens. */
    method HandleWhitespace(data: string)
      ensures Snapshot() == old(Snapshot())
    {
    }

    /** The typed handler for `e`, as `ParsedTokenHandler` picks it. */
    method Dispatch(e: Tokenize.Event) returns (err: Option<ParseError>)
      requires Valid()
      modifies this
      ensures Outcome(Step(old(Snapshot()), e), old(Snapshot()), err)
    {
      match e {
        case KeywordEvent(data) => err := HandleKeyword(data);
        case StringEvent(data) => err := HandleString(data);
        case IntegerEvent(v) => err := HandleInteger(v);
        case CharacterEvent(c) => err := HandleCharacter(c);
        case WhitespaceEvent(data) => HandleWhitespace(data); err := None;
      }
    }
  }
}

/** What the state machine of iscparser.cc guarantees over several handler calls. */
module ParserProperties {
  import opened Wrappers
  import opened Config
  import opened Tokenize
  import opened IscParser

  /**
   * The first token after `{` fixes the section's kind: a keyword opens a
   * map, a string opens a list holding that string, `}` stores an empty map
   * without opening it, and an integer is an error.
   */
  lemma SectionKindFixedByFirstToken(p: Parser, e: Event)
    requires Wellformed(p) && p.state == InSection
    ensures var key := Top(p.tokenStack);
      var inner := p.path + [key];
      var top := NodeAt(p.cfg, p.path);
      var r := Step(p, e);
      match e
      case KeywordEvent(d) =>
        && r.Ok? && r.value.path == inner && r.value.state == InMapKeyword && r.value.tokenStack == [d]
        && PathOk(r.value.cfg, inner) && NodeAt(r.value.cfg, inner) == Blank(Map)
      case StringEvent(d) =>
        && r.Ok? && r.value.path == inner && r.value.state == InListNeedTerminator && r.value.tokenStack == []
        && NodeAt(r.value.cfg, inner).tag == List && NodeAt(r.value.cfg, inner).listValue == [StringValue(d)]
      case IntegerEvent(_) => r == Err(ParseError(StringNotAllowed))
      case CharacterEvent(c) =>
        c == '}' ==>
          && r.Ok? && r.value.path == p.path && r.value.state == EndingSection && r.value.tokenStack == []
          && SameOutside(p.cfg, r.value.cfg, p.path)
          && NodeAt(r.value.cfg, p.path) == top.(mapValue := top.mapValue[key := Blank(Map)])
      case WhitespaceEvent(_) => r == Ok(p)
  {
  }

  /**
   * The empty section `key { };`: the `;` after the `}` closes the section
   * that encloses it, and at top level it is an error.
   */
  lemma EmptySectionClosesEnclosing(p: Parser)
    requires Wellformed(p) && p.state == InSection
    ensures var r := Steps(p, [CharacterEvent('}'), CharacterEvent(';')]);
      if p.path == [] then r == Err(ParseError(CannotCloseRoot))
      else
        && r.Ok? && r.value.state == InMap && r.value.path == Pop(p.path)
        && PathOk(r.value.cfg, p.path) && SameOutside(p.cfg, r.value.cfg, p.path)
        && var top := NodeAt(p.cfg, p.path);
           NodeAt(r.value.cfg, p.path) == top.(mapValue := top.mapValue[Top(p.tokenStack) := Blank(Map)])
  {
    var q := Step(p, CharacterEvent('}')).value;
    assert Steps(p, [CharacterEvent('}'), CharacterEvent(';')]) == Steps(q, [CharacterEvent(';')]);
  }

  /** A section that is open and not empty is closed by `};`, and nothing else changes. */
  lemma NonEmptySectionCloses(p: Parser)
    requires Wellformed(p) && (p.state == InMap || p.state == InList) && p.path != []
    ensures Steps(p, [CharacterEvent('}'), CharacterEvent(';')]) == Ok(p.(state := InMap, path := Pop(p.path)))
  {
    var q := Step(p, CharacterEvent('}')).value;
    assert Steps(p, [CharacterEvent('}'), CharacterEvent(';')]) == Steps(q, [CharacterEvent(';')]);
  }

  /** A `;` at the end of the root section is always an error. */
  lemma RootCannotClose(p: Parser)
    requires Wellformed(p) && (p.state == InMap || p.state == InList) && p.path == []
    ensures Steps(p, [CharacterEvent('}'), CharacterEvent(';')]) == Err(ParseError(CannotCloseRoot))
  {
    var q := Step(p, CharacterEvent('}')).value;
    assert Steps(p, [CharacterEvent('}'), CharacterEvent(';')]) == Steps(q, [CharacterEvent(';')]);
  }

  /** A value event in a map, and the node it stores. */
  predicate IsValue(e: Event)
  {
    e.StringEvent? || e.IntegerEvent?
  }

  function StoredValue(e: Event): ConfigValue
    requires IsValue(e)
  {
    if e.StringEvent? then StringValue(e.text) else IntValue(NarrowToInt(e.value))
  }

  /** The events of the statement `key value;`. */
  function Assignment(key: string, v: Event): seq<Event>
  {
    [KeywordEvent(key), v, CharacterEvent(';')]
  }

  /** `key value;` in a map stores the value under the key, replacing whatever was there. */
  lemma AssignmentStores(p: Parser, key: string, v: Event)
    requires Wellformed(p) && p.state == InMap && IsValue(v)
    ensures var r := Steps(p, Assignment(key, v));
      && r.Ok? && r.value.state == InMap && r.value.path == p.path && r.value.tokenStack == []
      && PathOk(r.value.cfg, p.path) && SameOutside(p.cfg, r.value.cfg, p.path)
      && var top := NodeAt(p.cfg, p.path);
         NodeAt(r.value.cfg, p.path) == top.(mapValue := top.mapValue[key := StoredValue(v)])
  {
    var q1 := Step(p, KeywordEvent(key)).value;
    var q2 := Step(q1, v).value;
    var events := Assignment(key, v);
    assert events[0] == KeywordEvent(key) && events[1..] == [v, CharacterEvent(';')];
    assert Steps(p, events) == Steps(q1, [v, CharacterEvent(';')]);
    assert Steps(q1, [v, CharacterEvent(';')]) == Steps(q2, [CharacterEvent(';')]);
  }

  /** Assigning a key twice keeps only the second value: the last one wins. */
  lemma LastAssignmentWins(p: Parser, key: string, v1: Event, v2: Event)
    requires Wellformed(p) && p.state == InMap && IsValue(v1) && IsValue(v2)
    ensures var r := Steps(p, Assignment(key, v1) + Assignment(key, v2));
      && r.Ok? && r.value.path == p.path && PathOk(r.value.cfg, p.path)
      && SameOutside(p.cfg, r.value.cfg, p.path)
      && var top := NodeAt(p.cfg, p.path);
         NodeAt(r.value.cfg, p.path) == top.(mapValue := top.mapValue[key := StoredValue(v2)])
  {
    AssignmentStores(p, key, v1);
    var q := Steps(p, Assignment(key, v1)).value;
    AssignmentStores(q, key, v2);
    StepsConcat(p, Assignment(key, v1), Assignment(key, v2));
    var r := Steps(q, Assignment(key, v2)).value;
    SameOutsideTrans(p.cfg, q.cfg, r.cfg, p.path);
    var m := NodeAt(p.cfg, p.path).mapValue;
    assert NodeAt(q.cfg, p.path).mapValue == m[key := StoredValue(v1)];
    assert m[key := StoredValue(v1)][key := StoredValue(v2)] == m[key := StoredValue(v2)];
  }

  /**
   * Two statements about different keys: `k1 v1; k2 v2;` stores both, so
   * the second assignment keeps the first one's entry.
   */
  lemma AssignmentsKeepEarlierKeys(p: Parser, k1: string, v1: Event, k2: string, v2: Event)
    requires Wellformed(p) && p.state == InMap && IsValue(v1) && IsValue(v2) && k1 != k2
    ensures var r := Steps(p, Assignment(k1, v1) + Assignment(k2, v2));
      && r.Ok? && r.value.path == p.path && PathOk(r.value.cfg, p.path)
      && SameOutside(p.cfg, r.value.cfg, p.path)
      && var top := NodeAt(p.cfg, p.path);
         NodeAt(r.value.cfg, p.path) == top.(mapValue := top.mapValue[k1 := StoredValue(v1)][k2 := StoredValue(v2)])
  {
    AssignmentStores(p, k1, v1);
    var q := Steps(p, Assignment(k1, v1)).value;
    AssignmentStores(q, k2, v2);
    StepsConcat(p, Assignment(k1, v1), Assignment(k2, v2));
    var r := Steps(q, Assignment(k2, v2)).value;
    SameOutsideTrans(p.cfg, q.cfg, r.cfg, p.path);
  }

  /** Changes confined to the node at `path` compose. */
  lemma {:induction false} SameOutsideTrans(a: ConfigValue, b: ConfigValue, c: ConfigValue, path: seq<string>)
    requires SameOutside(a, b, path) && SameOutside(b, c, path)
    ensures SameOutside(a, c, path)
    decreases |path|
  {
    if path != [] {
      SameOutsideTrans(a.mapValue[path[0]], b.mapValue[path[0]], c.mapValue[path[0]], path[1..]);
      assert c == a.(mapValue := a.mapValue[path[0] := c.mapValue[path[0]]]);
    }
  }

  /** Handling two runs of events one after the other is handling their concatenation. */
  lemma {:induction false} StepsConcat(p: Parser, xs: seq<Event>, ys: seq<Event>)
    requires Wellformed(p)
    ensures Steps(p, xs + ys) == match Steps(p, xs) case Ok(q) => Steps(q, ys) case Err(e) => Err(e)
    decreases |xs|
  {
    if xs == [] {
      assert xs + ys == ys;
    } else {
      assert (xs + ys)[0] == xs[0] && (xs + ys)[1..] == xs[1..] + ys;
      var r := Step(p, xs[0]);
      if r.Ok? {
        StepsConcat(r.value, xs[1..], ys);
      }
    }
  }
}
