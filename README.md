# sict: ISC-style configuration reader, in Dafny

This project models the core of `sict`, a small C++ library that reads
configuration files in the style of ISC BIND and DHCP
(`key value;`, `section { ... };`, `list { "a"; "b"; };`) into a typed tree,
and merges one such tree into another. Four pieces are modelled:

- **The scanner** (`Tokenizer::operator()` and its cursor `next()`). This is
  the class `Tokenize.Tokenizer`, with fields `data`, `pos` and `size`. Its
  `Run` method is the scanning loop. It returns the tokens in the order the
  handler calls would be made, plus whether the loop ended by calling
  `HandleEndOfInput` or by an `EofError`. `Run` is proved equal to the
  recursive function `ScanFrom`. `ScanFrom` is proved to be the unique scan
  meeting the declarative `ScansFrom` description: maximal runs, quoted
  strings and one-byte characters laid end to end.
- **The token classifier** (`ParsedTokenHandler`). `Tokenize.Classify` turns
  a span into a typed event. Integers go through `strtol` with base 0, as
  section 7.20.1.4 of ISO/IEC 9899:1999 describes it: a `0x` prefix means
  hex, a leading `0` octal, anything else decimal, and overflow sets
  `ERANGE`. A conversion that ends beyond the span is rejected.
- **The parser** (`ISCParser`). It is a seven-state machine with a stack of
  pending keys and a stack of open nodes. `IscParser.Step` states what each
  typed handler does to a snapshot of the fields. The class
  `IscParser.ISCParser` does the same in place, and each handler method is
  proved to match `Step`. The stack of open nodes is a key path from the
  root, which is exact because only the node on top of the stack is ever
  written. `Pipeline.ReadConfigFrom` runs the scanner and the parser
  together, as `ReadConfig` in main.cc does.
- **The configuration tree** (`ConfigData`). The class `Config.ConfigData`
  has the five fields of the original and the in-place `Merge`, `Clear`,
  `+=` and the or-assign operator. `Config.Merged` is the specification `Merge` is proved
  against. The properties of a merge are proved about `Merged`.

The model follows the code, also where it departs from the library's own
doc comments. For instance, the doc comment on `Merge`
(configdata.hh:272-284) says that overwriting replaces existing values and
that adding mode only adds keys that do not exist yet; the first two points
below show that the code does otherwise. The behaviours of the code that a
reader might not expect:

- An overwriting merge of two maps clears the receiver first
  (configdata.cc:15-16). So keys only the receiver had do not survive;
  `ConfigProperties.MergeMapEntries` states this.
- Every key of the other map replaces the receiver's entry, whatever the
  `overwrite` flag says (configdata.cc:46-50). So the front end's
  `settings.Merge(*defaults, false, true)` lets a default replace a user
  setting (`ConfigProperties.DefaultsReplaceUserValue`).
- The early return for merging a node into itself (configdata.cc:9-10)
  tests the address, so it applies only to the same object. An equal copy
  goes through the whole merge, and comes back unchanged when it holds no
  stale payloads (`ConfigProperties.MergeWithCopy`).
- `strtol` is handed the rest of the buffer, not the span, so the
  `end-data>length` test can fire: `0x1F` scans as the integer `0`, and that
  integer is rejected (`Examples.HexIsRejected`).
- The integer handler's `long` is stored through `ConfigData(int)`, so it is
  narrowed to 32 bits (`IscParser.NarrowToInt`).
- A byte that would start a token is dropped when it is the last byte of the
  buffer (tokenize.cc:16). A file that ends with its final `;`, with no
  newline after it, therefore fails with "Unexpected end of input"
  (`Examples.MissingFinalNewline`).
- A closing quote that is the last byte throws `EofError`, because of the
  extra `next()` after it (tokenize.cc:27).
- A stray `}` at top level is accepted. Only the `;` after it fails, with
  "Can not close the root section" (`ParserProperties.RootCannotClose`).
- `isspace` in the C locale also accepts vertical tab, form feed and carriage
  return.

Files: `wrappers.dfy` (Option and Result), `config.dfy`, `tokenize.dfy`,
`parser.dfy`, `pipeline.dfy`, `examples.dfy` (concrete buffers).

## Model

| member | source | states |
|---|---|---|
| Config.ConfigValue.AsInt | configdata.hh:177-181 | the integer cast succeeds exactly on an Integer node and yields `intValue`; otherwise it is a `type_error` with the original message |
| Config.ConfigValue.AsString | configdata.hh:191-224 | the string casts succeed exactly on a String node and yield `strValue`; otherwise a `type_error` |
| Config.ConfigValue.At | configdata.hh:233-237 | indexing succeeds exactly on a List node and yields that element; otherwise a `type_error` (the index is unchecked, so it must be in range) |
| Config.ConfigValue.Lookup | configdata.hh:246-270 | key lookup: a `type_error` (with the list message) on a non-map, `range_error` "Key not found" on a missing key, the child otherwise |
| Config.Blank | configdata.hh:104 | `ConfigData(data_type)` has that tag and empty payloads |
| Config.IntValue | configdata.hh:112 | a node built from an int reads back that int, and string access and key lookup on it fail |
| Config.StringValue | configdata.hh:120-128 | a node built from a string reads back that string, and integer access and key lookup on it fail |
| Config.TypeMismatchError.constructor | configdata.hh:41 | the error starts with the given context |
| Config.TypeMismatchError.AddContext | configdata.hh:50-55 | an empty context becomes the key, otherwise `key + "/"` is put in front |
| Config.ConfigData.constructor | configdata.hh:90 | the default node is Bogus |
| Config.ConfigData.OfType | configdata.hh:104 | the node has the given tag |
| Config.ConfigData.OfInt | configdata.hh:112 | the node is an Integer reading back `data` |
| Config.ConfigData.OfString | configdata.hh:120-128 | the node is a String reading back `data` |
| Config.ConfigData.Clear | configdata.cc:65-74 | the tag becomes Bogus, only the payload of the old tag is emptied, and `intValue` and the other payloads are untouched |
| Config.ConfigData.Merge | configdata.cc:8-62 | merging into itself changes nothing; otherwise it fails exactly when the type check is on and the tags differ, leaving the node unchanged with an empty context, and on success the new node is `Merged` of the old node and the other |
| Config.ConfigData.MergeFrom | configdata.cc:12-61 | the body after the self test: the type check, the clear, the new tag, and the payload of each tag, equal to `Merged` |
| Config.ConfigData.AppendElements | configdata.cc:32-40 | the loop over the other list pushes back every element in order and changes nothing else |
| Config.ConfigData.StoreChildren | configdata.cc:42-57 | the loop over the other map stores, under each of its keys, the child merged into a fresh node of the child's tag; the receiver's other keys stay |
| Config.ConfigData.OverwriteWith | configdata.hh:292-295 | `+=` is `Merge(other, true, true)` and returns the receiver |
| Config.ConfigData.AddFrom | configdata.hh:303-306 | the or-assign operator is `Merge(other, false, true)` and returns the receiver |
| Config.MergeChildNeverFails | configdata.cc:46-54 | merging a child into a fresh node of its own tag never throws, so the catch that adds context is dead, and the result keeps only the payloads the tags make meaningful |
| Config.MergeMapChildren | configdata.cc:42-57 | every child merge of the map case succeeds, and together they give the canonical copies of the other map's children |
| ConfigProperties.MergeFailsOnlyAtTop | configdata.cc:12-54 | a merge fails if and only if the type check is on and the two top-level tags differ, and the error then has an empty context |
| ConfigProperties.MergeAdoptsTagAndScalar | configdata.cc:18-30 | after a successful merge the node has the other's tag, and its integer or string reads back the other's |
| ConfigProperties.MergeReplacesList | configdata.cc:15-40 | merging a list leaves exactly the other's elements: a list receiver is cleared first, and a node of another tag holds no elements |
| ConfigProperties.MergeKeepsListClean | configdata.cc:15-61 | a merge never leaves list elements on a node that is not a list |
| ConfigProperties.MergeMapEntries | configdata.cc:42-57 | every key of the other map holds the canonical copy of its child whatever `overwrite` says; the key set is the other's keys plus the receiver's unless an overwrite cleared a map receiver; keys only the receiver had keep their value |
| ConfigProperties.TypedMapMerge | configdata.hh:292-306 | with the type check on, an overwriting merge (`+=`) leaves exactly the other's keys and a non-overwriting one (the or-assign operator) both key sets, and every key of the other holds a node indistinguishable from its child |
| ConfigProperties.CanonicalSameContent | configdata.cc:48-50 | the copy the merge builds for a child cannot be told apart from the child through the accessors |
| ConfigProperties.MergeWithCopy | configdata.cc:8-62 | a tree without stale payloads merged with an equal copy of itself is unchanged |
| ConfigProperties.DefaultsReplaceUserValue | main.cc:35 | merging defaults into the settings without overwrite still replaces a user's value for the same key |
| ConfigProperties.AddContextsOnto | configdata.cc:51-53 | adding the keys of a path to a non-empty context, innermost first, prefixes the slash-joined path |
| ConfigProperties.AddContextsJoinsPath | configdata.cc:51-53 | adding the keys of a path to an empty context, innermost first, gives the path joined with slashes, outermost first |
| Tokenize.RunEnd | tokenize.cc:20-21 | the end of the longest run of a byte class from a position: every byte before it is in the class, the byte at it is not |
| Tokenize.NextToken | tokenize.cc:17-43 | one pass of the loop body from a byte with bytes after it reads up to at least the next byte, or fails at an unterminated quote |
| Tokenize.ScanStep | tokenize.cc:16-43 | one pass of the loop reads a lexeme and continues behind it, or stops correctly |
| Tokenize.ScanFromSound | tokenize.cc:15-46 | the recursive scanner yields a correct scan: lexemes laid end to end, ending normally only with at most one byte left and with `EofError` only at an unterminated quote |
| Tokenize.LexemeIsScanned | tokenize.cc:17-43 | a lexeme at a position is exactly the token the loop reads there |
| Tokenize.LexemeIsNextToken | tokenize.cc:17-43 | a lexeme at a position is what one pass of the loop body reads, and the pass stops where the lexeme ends |
| Tokenize.ScanFromUnique | tokenize.cc:15-46 | a buffer has only one correct scan from a position |
| Tokenize.ScannedIsTheScan | tokenize.cc:10-47 | a scan is correct for a buffer if and only if it is the scanner's output; an empty buffer fails with `EofError` |
| Tokenize.ConvertDigits | tokenize.hh:116 | the digits read form the longest run of the base's digits, and the value is theirs, or LONG_MAX with `ERANGE` when it exceeds LONG_MAX |
| Tokenize.Strtol | tokenize.hh:116 | base 0 conversion reads at least one byte, at most to the buffer's end, and yields a value in [0, LONG_MAX] |
| Tokenize.ConvertInteger | tokenize.hh:112-124 | the integer handler's value is in [0, LONG_MAX], and a conversion is rejected as an overrun only when it read past the span |
| Tokenize.Classify | tokenize.hh:106-140 | only integer spans can fail, and exactly integer spans become integers, within [0, LONG_MAX] |
| Tokenize.LexemeFits | tokenize.hh:132-135 | every scanned token lies in the buffer, an integer token starts with a digit, and a character token has length 1, as the handlers demand |
| Tokenize.IntegerFromSpan | tokenize.hh:112-124 | unless the span is a lone `0` before `x` and a hex digit, the value is the span read in octal after a leading `0` (stopping at the first non-octal digit) or in decimal, and an overflow is an error |
| Tokenize.HexPrefixRejected | tokenize.hh:116-121 | a lone `0` before `x` and a hex digit is a one-byte token, and its conversion reads past it and is rejected |
| Tokenize.TextEvents | tokenize.hh:107-140 | string, keyword and whitespace events carry the span's bytes unchanged: a string is what lies between its quotes and holds no quote, a keyword or whitespace text is exactly the span (a word, or a run of spaces); a character event is the byte |
| Tokenize.Tokenizer.constructor | tokenize.hh:208 | the cursor starts at the first byte with the whole buffer remaining |
| Tokenize.Tokenizer.Next | tokenize.hh:225-230 | `next()` fails exactly when nothing remains; otherwise it returns the byte under the cursor, advances it and decrements `size` |
| Tokenize.Tokenizer.ExtendRun | tokenize.cc:20-21 | the inner loop of the integer, whitespace and keyword cases stops at the end of the maximal run and holds the byte after it |
| Tokenize.Tokenizer.ReadQuoted | tokenize.cc:25-27 | the quoted-string loop succeeds exactly when the closing quote has a byte after it, and then the length counts the bytes up to the closing quote |
| Tokenize.Tokenizer.ReadToken | tokenize.cc:17-43 | one pass of the loop body consumes at least one byte and reads the token the recursive scanner reads, or fails as it does |
| Tokenize.Tokenizer.Run | tokenize.cc:10-47 | the scanning loop hands on exactly the tokens of the recursive scanner and ends as it does, which is the unique correct scan |
| IscParser.StoreAt | iscparser.cc:21 | `contextStack.top()->mapValue[key]=value` sets that one key of the open node; the node's other keys and fields and the rest of the tree are unchanged (`SameOutside`), and the path stays valid |
| IscParser.AppendAt | iscparser.cc:62 | `contextStack.top()->listValue.push_back(value)` appends to the open node's elements; the node's other fields and the rest of the tree are unchanged |
| IscParser.NarrowToInt | iscparser.cc:77 | the `long` stored through `ConfigData(int)` keeps its low 32 bits as a two's complement `int`, and values that fit are unchanged |
| IscParser.Initial | iscparser.cc:11-13 | the parser starts in `InMap` with no pending key and only the root map open |
| IscParser.Opened | iscparser.cc:18-24 | a section's first token stores a fresh node under the pending key in the enclosing map, opens it and pops the key; nothing else in the tree changes |
| IscParser.OnKeyword | iscparser.cc:16-35 | a keyword is accepted exactly in `InSection` and `InMap`, leaves it as the one pending key in `InMapKeyword`, and otherwise is "keyword not allowed in this context" |
| IscParser.Assign | iscparser.cc:40-47 | a value after a key is stored under the key in the open map, the key is popped, nothing else in the tree changes, and the parser then awaits `;` |
| IscParser.Append | iscparser.cc:59-65 | a value in a list is appended to the open list, nothing else in the tree changes, and the parser then awaits `;` |
| IscParser.OnString | iscparser.cc:38-70 | a string is accepted exactly in `InMapKeyword`, `InSection` and `InList`, and otherwise is "string not allowed in this context" |
| IscParser.OnInteger | iscparser.cc:73-95 | an integer is accepted exactly in `InMapKeyword` and `InList`, so a section cannot start with one |
| IscParser.OnCharacter | iscparser.cc:98-152 | any character other than `{`, `}` and `;` is an error, and `;` after a closed section at the root is "Can not close the root section" |
| IscParser.Step | iscparser.cc:16-162 | every handler keeps the parser well formed (one pending key exactly in `InMapKeyword` and `InSection`, the open node a map or list as the state says), and whitespace changes nothing |
| IscParser.Finish | iscparser.cc:155-158 | end of input is accepted exactly when the parser is in `InMap` with only the root open, and then yields the root |
| IscParser.Steps | iscparser.cc:16-162 | any run of handler calls keeps the parser well formed |
| IscParser.ISCParser.constructor | iscparser.cc:11-13 | the new parser's fields are the initial snapshot |
| IscParser.ISCParser.OpenSection | iscparser.cc:50-56 | the in-place store, push and pop match `Opened` |
| IscParser.ISCParser.HandleKeyword | iscparser.cc:16-35 | the fields change as `OnKeyword` says, and stay unchanged when it throws |
| IscParser.ISCParser.HandleString | iscparser.cc:38-70 | the fields change as `OnString` says, and stay unchanged when it throws |
| IscParser.ISCParser.HandleInteger | iscparser.cc:73-95 | the fields change as `OnInteger` says, and stay unchanged when it throws |
| IscParser.ISCParser.HandleCharacter | iscparser.cc:98-152 | the fields change as `OnCharacter` says, and stay unchanged when it throws |
| IscParser.ISCParser.HandleEndOfInput | iscparser.cc:155-158 | it throws "Unexpected end of input" exactly when `Finish` rejects the fields |
| IscParser.ISCParser.HandleWhitespace | iscparser.cc:161-162 | nothing changes |
| IscParser.ISCParser.Dispatch | tokenize.hh:147-179 | the typed handler for an event changes the fields as `Step` says |
| ParserProperties.SectionKindFixedByFirstToken | iscparser.cc:16-128 | after `{` a keyword opens a map, a string opens a list holding it, `}` stores an empty map without opening it and changes nothing else, and an integer is an error |
| ParserProperties.EmptySectionClosesEnclosing | iscparser.cc:110-145 | in `k { };` the `}` stores an empty map under `k` and changes nothing else, the `;` closes the enclosing section, and at top level it fails |
| ParserProperties.NonEmptySectionCloses | iscparser.cc:121-145 | `};` closes an open non-empty section and changes nothing else |
| ParserProperties.RootCannotClose | iscparser.cc:139-141 | `};` in the root section always fails with "Can not close the root section" |
| ParserProperties.AssignmentStores | iscparser.cc:27-133 | `key value;` in a map stores the value under the key, replacing any earlier one, leaves the rest of the tree as it was, and returns to `InMap` |
| ParserProperties.LastAssignmentWins | iscparser.cc:40-47 | assigning a key twice keeps the second value, and nothing else changes |
| ParserProperties.AssignmentsKeepEarlierKeys | iscparser.cc:21 | `k1 v1; k2 v2;` with different keys stores both: the second statement keeps the first one's entry |
| ParserProperties.SameOutsideTrans | iscparser.cc:21 | two changes confined to the open node leave the rest of the tree as it was |
| Pipeline.ScannedTokensFit | tokenize.hh:132-135 | every token the scanner hands on meets the handlers' demands |
| Pipeline.Handle | tokenize.hh:106-140 | converting a token and calling the typed handler keeps the parser well formed |
| Pipeline.Feed | tokenize.cc:16-44 | handing on a run of tokens keeps the parser well formed |
| Pipeline.ReadFromStep | tokenize.cc:16-44 | the first handler error ends the read; otherwise reading continues behind the token |
| Pipeline.ReadFromEof | tokenize.hh:225-227 | an `EofError` of the scanner ends the read unless a handler failed first |
| Pipeline.ReadFromEnd | tokenize.cc:46 | when the loop ends normally, `HandleEndOfInput` decides the outcome |
| Pipeline.ReadConfigOk | main.cc:13-20 | a read succeeds exactly when the scan ended normally and every token was handled with the parser back in the root map; the result is a map |
| Pipeline.HandleToken | tokenize.hh:106-140 | converting and handling one token changes the parser as `Handle` says, and not at all on an error |
| Pipeline.ReadAndHandle | tokenize.cc:17-43 | one pass of the scanning loop with its handler call, as `ReadFrom` says |
| Pipeline.ReadConfigFrom | main.cc:13-20 | running the tokenizer over the buffer with a fresh parser yields `ReadConfig` of the buffer |
| Examples.FinalByteDropped | tokenize.cc:16 | in `a;` the final `;` is never handed on |
| Examples.ScannerEofCases | tokenize.cc:25-27 | a closing quote as the last byte fails, a byte after it does not, and an empty buffer fails |
| Examples.OctalSpan | tokenize.hh:116-123 | `017` is 15 |
| Examples.OctalStopsAtNine | tokenize.hh:116-123 | `09` is 0: the octal reading stops at `9` and the shorter reading is accepted |
| Examples.DecimalSpan | tokenize.hh:116-123 | `42` is 42 |
| Examples.HexIsRejected | tokenize.hh:120-121 | `0x1F` scans as the integer `0`, whose conversion reads past it and is rejected |
| Examples.MissingFinalNewline | tokenize.cc:16 | `a 1;` with no byte after the `;` fails with "Unexpected end of input" |
| Examples.SimpleAssignment | main.cc:13-20 | `a 1;` and a newline read as a map with `a` set to 1 |
| Examples.EmptyTopLevelSection | iscparser.cc:139-141 | `k { };` at top level fails with "Can not close the root section" |
| Examples.ListOpensWithString | iscparser.cc:50-65 | `items { "a";` opens a list under `items` holding "a" |
| Examples.ListTakesIntegerLater | iscparser.cc:84-89 | once a list is open, an integer is appended to it |
| Examples.ListCannotStartWithInteger | iscparser.cc:73-94 | `items { 3` fails with "string not allowed in this context" |

## Left out

- file.cc and file.hh (`MemoryFile`: `open`, `fstat`, `mmap`) are not part of this model: the scanner takes the file's bytes as a sequence.
- main.cc's argument check, its fixed file names and its printing are not modelled; only `ReadConfig` and the merge call are.
- `shared_ptr` sharing: children are held by value, so the sharing of list elements by a list merge (configdata.cc:37) and the aliasing of the parser's open nodes into the tree are not captured. Open nodes are a key path from the root.
- Config.Blank: `ConfigData(data_type)` leaves `intValue` uninitialised; the model uses 0.
- Config.FailureContext: the context of a failing child merge names some failing key, not the first in key order; the case never arises (`Config.MergeChildNeverFails`).
- Config.ConfigValue.At: the index is not checked by the original, so the model requires it to be in range on a list.
- The `default: logic_error` branch of `Merge` (configdata.cc:59-60) is unreachable for the five tags and is not modelled.
- The commented-out `as<>` templates (configdata.hh:144-167) and the destructor are not modelled.
- Tokenize.Classify: an integer span is required to start with a digit, which every scanned integer token does (`Tokenize.LexemeFits`).
- Tokenize.LongMax: `long` is taken to be 64 bits wide (LP64). Where `long` is 32 bits wide (LLP64, or a 32-bit target), `strtol` clamps at 2^31-1 with `ERANGE`, so every larger integer is rejected and `IscParser.NarrowToInt` never wraps; that case is not modelled.
- Config.ConfigData.Merge: the default arguments `overwrite=false` and `typecheck=true` (configdata.hh:284) are not modelled; callers pass both flags explicitly.
- Tokenize.Strtol: `strtol` may read past the end of the buffer, since the buffer is not NUL-terminated; the model stops at the buffer's end.
- Tokenize.ConvertInteger: `errno` is never reset by the original, so a stale `ERANGE` could reject LONG_MAX itself; the model assumes `errno` starts clear. A negative result is impossible because a span starts with a digit.
- Tokenize.TextEvents: `std::string(data, 0, length)` first builds a string from the NUL-terminated text; the model takes the span's bytes, which is the same unless the span holds a NUL byte.
- The integer handler throws a pointer to `error`; the model has one `BadInteger` outcome that says which of the two checks failed.
- Character classes are those of the C locale on ASCII; other locales and negative `char` values are not modelled.
- Exceptions are results: `parse_error`, `EofError` and the integer error end the read, and the parser's fields after an error are the ones before the failing handler call.
