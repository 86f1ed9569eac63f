/**
 * The configuration tree of configdata.hh / configdata.cc.
 *
 * A ConfigData node carries a type tag and one field per payload kind; the
 * tag says which payload is meaningful, but the other payloads are still
 * there and `Clear` only empties the one belonging to the old tag.  The
 * model keeps all five fields so that stale payloads behave as in the
 * original.  Children are held by value (`ConfigValue`), not through shared
 * pointers.
 */
module Config {
  import opened Wrappers

  datatype DataType = Bogus | Integer | String | List | Map

  /** Failure of a tag-checked accessor: `type_error` or `std::range_error`. */
  datatype AccessError = TypeError(message: string) | RangeError(message: string)

  const IntegerAccessMessage := "integer-style access on non-integer data"
  const StringAccessMessage := "string-style access on non-string data"
  // The map accessors reuse the list message, as the original does.
  const ListAccessMessage := "list-style access on non-list data"
  const KeyNotFoundMessage := "Key not found"

  /** The fields of one ConfigData node, children included, as a value. */
  datatype ConfigValue = ConfigValue(
    tag: DataType,
    intValue: int,
    strValue: string,
    mapValue: map<string, ConfigValue>,
    listValue: seq<ConfigValue>)
  {
    /** `operator int()`. */
    function AsInt(): (r: Result<int, AccessError>)
      ensures r.Ok? <==> tag == Integer
      ensures r.Ok? ==> r.value == intValue
      ensures r.Err? ==> r.error == TypeError(IntegerAccessMessage)
    {
      if tag != Integer then Err(TypeError(IntegerAccessMessage)) else Ok(intValue)
    }

    /** `operator const char*()`, `operator const std::string&()` and `operator std::string&()`. */
    function AsString(): (r: Result<string, AccessError>)
      ensures r.Ok? <==> tag == String
      ensures r.Ok? ==> r.value == strValue
      ensures r.Err? ==> r.error == TypeError(StringAccessMessage)
    {
      if tag != String then Err(TypeError(StringAccessMessage)) else Ok(strValue)
    }

    /** `operator[](int)`: the tag is checked, the index is not, so it must be in range. */
    function At(index: int): (r: Result<ConfigValue, AccessError>)
      requires tag == List ==> 0 <= index < |listValue|
      ensures r.Ok? <==> tag == List
      ensures r.Ok? ==> r.value == listValue[index]
      ensures r.Err? ==> r.error == TypeError(ListAccessMessage)
    {
      if tag != List then Err(TypeError(ListAccessMessage)) else Ok(listValue[index])
    }

    /** `operator[](const char*)` and `operator[](const std::string&)`. */
    function Lookup(key: string): (r: Result<ConfigValue, AccessError>)
      ensures tag != Map ==> r == Err(TypeError(ListAccessMessage))
      ensures tag == Map && key !in mapValue ==> r == Err(RangeError(KeyNotFoundMessage))
      ensures tag == Map && key in mapValue ==> r == Ok(mapValue[key])
    {
      if tag != Map then Err(TypeError(ListAccessMessage))
      else if key !in mapValue then Err(RangeError(KeyNotFoundMessage))
      else Ok(mapValue[key])
    }
  }

  /**
   * `ConfigData(data_type)`; `ConfigData()` is `Blank(Bogus)`.  The original
   * leaves `intValue` uninitialised; the model uses 0.
   */
  function Blank(dt: DataType): (v: ConfigValue)
    ensures v.tag == dt && v.mapValue == map[] && v.listValue == [] && v.strValue == ""
  {
    ConfigValue(dt, 0, "", map[], [])
  }

  /** `ConfigData(int)`. */
  function IntValue(data: int): (v: ConfigValue)
    ensures v.AsInt() == Ok(data)
    ensures v.AsString().Err? && v.Lookup("").Err?
  {
    Blank(Integer).(intValue := data)
  }

  /** `ConfigData(const char*)` and `ConfigData(const std::string&)`. */
  function StringValue(data: string): (v: ConfigValue)
    ensures v.AsString() == Ok(data)
    ensures v.AsInt().Err? && v.Lookup("").Err?
  {
    Blank(String).(strValue := data)
  }

  /** The node after `ConfigData::Clear`: only the payload of the old tag is emptied. */
  function Cleared(v: ConfigValue): ConfigValue
  {
    match v.tag
    case Map => v.(tag := Bogus, mapValue := map[])
    case List => v.(tag := Bogus, listValue := [])
    case String => v.(tag := Bogus, strValue := "")
    case _ => v.(tag := Bogus)
  }

  /** The context of a `typemismatch_error` after `AddContext(key)`. */
  function WithContext(context: string, key: string): string
  {
    if context == "" then key else key + "/" + context
  }

  /**
   * `ConfigData::Merge(other, overwrite, typecheck)` on values.  The error is
   * the context string of the `typemismatch_error` thrown.
   */
  ghost function Merged(t: ConfigValue, o: ConfigValue, overwrite: bool, typecheck: bool): Result<ConfigValue, string>
    decreases o, 1
  {
    if typecheck && t.tag != o.tag then Err("")
    else
      var base := (if overwrite || t.tag == List then Cleared(t) else t).(tag := o.tag);
      match o.tag
      case Bogus => Ok(base)
      case Integer => Ok(base.(intValue := o.intValue))
      case String => Ok(base.(strValue := o.strValue))
      case List => Ok(base.(listValue := base.listValue + o.listValue))
      case Map =>
        var children := MergedChildren(o, overwrite, typecheck);
        if AllOk(children) then Ok(base.(mapValue := base.mapValue + OkValues(children)))
        else Err(FailureContext(children))
  }

  /** For each key of `o`, the result of merging its child into a fresh node of the child's tag. */
  ghost function MergedChildren(o: ConfigValue, overwrite: bool, typecheck: bool): map<string, Result<ConfigValue, string>>
    decreases o, 0
  {
    map k | k in o.mapValue :: Merged(Blank(o.mapValue[k].tag), o.mapValue[k], overwrite, typecheck)
  }

  predicate AllOk(m: map<string, Result<ConfigValue, string>>)
  {
    forall k | k in m :: m[k].Ok?
  }

  function OkValues(m: map<string, Result<ConfigValue, string>>): map<string, ConfigValue>
    requires AllOk(m)
  {
    map k | k in m :: m[k].value
  }

  /**
   * The context of the error a failing child merge propagates.  This case
   * never arises (MergeChildNeverFails); the original would report the first
   * failing key in key order, the model reports some failing key.
   */
  ghost function FailureContext(m: map<string, Result<ConfigValue, string>>): string
    requires !AllOk(m)
  {
    var k :| k in m && m[k].Err?;
    WithContext(m[k].error, k)
  }

  /** The node a merge builds for a child: only the payload of its tag, recursively. */
  function Canonical(c: ConfigValue): ConfigValue
    decreases c
  {
    ConfigValue(
      c.tag,
      if c.tag == Integer then c.intValue else 0,
      if c.tag == String then c.strValue else "",
      if c.tag == Map then map k | k in c.mapValue :: Canonical(c.mapValue[k]) else map[],
      if c.tag == List then c.listValue else [])
  }

  /** Two nodes cannot be told apart through the tag-checked accessors. */
  ghost predicate SameContent(a: ConfigValue, b: ConfigValue)
    decreases a
  {
    && a.tag == b.tag
    && (a.tag == Integer ==> a.intValue == b.intValue)
    && (a.tag == String ==> a.strValue == b.strValue)
    && (a.tag == List ==> a.listValue == b.listValue)
    && (a.tag == Map ==>
          && a.mapValue.Keys == b.mapValue.Keys
          && forall k | k in a.mapValue :: SameContent(a.mapValue[k], b.mapValue[k]))
  }

  /** No list payload is left over on a node that is not a list. */
  predicate ListClean(v: ConfigValue)
  {
    v.tag != List ==> v.listValue == []
  }

  /** `typemismatch_error`: the exception object whose context grows as it propagates. */
  class TypeMismatchError {
    var context: string

    constructor (context: string)
      ensures this.context == context
    {
      this.context := context;
    }

    method AddContext(key: string)
      modifies this
      ensures context == WithContext(old(context), key)
      ensures old(context) == "" ==> context == key
      ensures old(context) != "" ==> context == key + "/" + old(context)
    {
      if context == "" {
        context := key;
      } else {
        context := key + "/" + context;
      }
    }
  }

  /** A ConfigData node whose fields are updated in place. */
  class ConfigData {
    var tag: DataType
    var intValue: int
    var strValue: string
    var mapValue: map<string, ConfigValue>
    var listValue: seq<ConfigValue>

    function Value(): ConfigValue
      reads this
    {
      ConfigValue(tag, intValue, strValue, mapValue, listValue)
    }

    constructor ()
      ensures Value() == Blank(Bogus)
    {
      tag, intValue, strValue, mapValue, listValue := Bogus, 0, "", map[], [];
    }

    constructor OfType(dt: DataType)
      ensures Value() == Blank(dt)
    {
      tag, intValue, strValue, mapValue, listValue := dt, 0, "", map[], [];
    }

    constructor OfInt(data: int)
      ensures Value() == IntValue(data)
      ensures Value().AsInt() == Ok(data)
    {
      tag, intValue, strValue, mapValue, listValue := Integer, data, "", map[], [];
    }

    constructor OfString(data: string)
      ensures Value() == StringValue(data)
      ensures Value().AsString() == Ok(data)
    {
      tag, intValue, strValue, mapValue, listValue := String, 0, data, map[], [];
    }

    /** `ConfigData::Clear`. */
    method Clear()
      modifies this
      ensures Value() == Cleared(old(Value()))
      ensures tag == Bogus && intValue == old(intValue)
      ensures mapValue == (if old(tag) == Map then map[] else old(mapValue))
      ensures listValue == (if old(tag) == List then [] else old(listValue))
      ensures strValue == (if old(tag) == String then "" else old(strValue))
    {
      if tag == Map {
        mapValue := map[];
      } else if tag == List {
        listValue := [];
      } else if tag == String {
        strValue := "";
      }
      tag := Bogus;
    }

    /** `ConfigData::Merge`: merging a node into itself does nothing. */
    method Merge(other: ConfigData, overwrite: bool, typecheck: bool) returns (err: TypeMismatchError?)
      modifies this
      ensures other == this ==> err == null && unchanged(this)
      ensures other != this ==> (err == null <==> !(typecheck && old(tag) != other.tag))
      ensures other != this && err == null ==>
                Merged(old(Value()), other.Value(), overwrite, typecheck) == Ok(Value())
      ensures err != null ==> fresh(err) && err.context == "" && unchanged(this)
    {
      if other == this {
        return null;
      }
      err := MergeFrom(other.Value(), overwrite, typecheck);
    }

    /** The body of `ConfigData::Merge` once the self-merge test has passed. */
    method MergeFrom(other: ConfigValue, overwrite: bool, typecheck: bool) returns (err: TypeMismatchError?)
      modifies this
      decreases other, 1
      ensures err == null <==> !(typecheck && old(tag) != other.tag)
      ensures err == null ==> Merged(old(Value()), other, overwrite, typecheck) == Ok(Value())
      ensures err != null ==> fresh(err) && err.context == "" && unchanged(this)
    {
      if typecheck && tag != other.tag {
        err := new TypeMismatchError("");
        return;
      }
      err := null;
      ghost var target := Value();
      if overwrite || tag == List {
        Clear();
      }
      tag := other.tag;
      ghost var base := Value();
      assert base == (if overwrite || target.tag == List then Cleared(target) else target).(tag := other.tag);
      if other.tag == Integer {
        intValue := other.intValue;
      } else if other.tag == String {
        strValue := other.strValue;
      } else if other.tag == List {
        AppendElements(other.listValue);
      } else if other.tag == Map {
        StoreChildren(other, overwrite, typecheck);
        MergeMapChildren(other, overwrite, typecheck);
        assert CanonicalChildren(other, other.mapValue.Keys) == OkValues(MergedChildren(other, overwrite, typecheck));
      }
    }

    /** The list case of Merge: every element of the other list is pushed back in order. */
    method AppendElements(elements: seq<ConfigValue>)
      modifies this
      ensures Value() == old(Value()).(listValue := old(listValue) + elements)
    {
      var i := 0;
      while i < |elements|
        invariant 0 <= i <= |elements|
        invariant Value() == old(Value()).(listValue := old(listValue) + elements[..i])
      {
        listValue := listValue + [elements[i]];
        i := i + 1;
      }
      assert elements[..i] == elements;
    }

    /**
     * The map case of Merge: each child of `other` is merged into a fresh
     * node of its own tag, which then replaces whatever this node held under
     * that key.
     */
    method StoreChildren(other: ConfigValue, overwrite: bool, typecheck: bool)
      requires other.tag == Map
      modifies this
      decreases other, 0
      ensures Value() == old(Value()).(mapValue := old(mapValue) + CanonicalChildren(other, other.mapValue.Keys))
    {
      var pending := other.mapValue.Keys;
      while pending != {}
        invariant pending <= other.mapValue.Keys
        invariant Value() == old(Value()).(mapValue := old(mapValue) + CanonicalChildren(other, other.mapValue.Keys - pending))
        decreases pending
      {
        var key :| key in pending;
        var child := other.mapValue[key];
        var node := new ConfigData.OfType(child.tag);
        var e := node.MergeFrom(child, overwrite, typecheck);
        if e != null {
          // The original catches the error here, adds the key as context and
          // rethrows; a node built with the child's own tag never fails the
          // type check, so this branch is dead.
          assert false;
        }
        MergeChildNeverFails(child, overwrite, typecheck);
        assert node.Value() == Canonical(child);
        StoreOneChild(old(mapValue), other, other.mapValue.Keys - pending, key);
        mapValue := mapValue[key := node.Value()];
        assert other.mapValue.Keys - (pending - {key}) == (other.mapValue.Keys - pending) + {key};
        pending := pending - {key};
      }
    }

    /** `operator+=`: an overwriting merge; returns the receiver. */
    method OverwriteWith(other: ConfigData) returns (r: ConfigData, err: TypeMismatchError?)
      modifies this
      ensures r == this
      ensures other == this ==> err == null && unchanged(this)
      ensures other != this ==> (err == null <==> old(tag) == other.tag)
      ensures other != this && err == null ==> Merged(old(Value()), other.Value(), true, true) == Ok(Value())
      ensures err != null ==> fresh(err) && err.context == "" && unchanged(this)
    {
      err := Merge(other, true, true);
      r := this;
    }

    /** `operator|=`: a merge without the overwrite flag; returns the receiver. */
    method AddFrom(other: ConfigData) returns (r: ConfigData, err: TypeMismatchError?)
      modifies this
      ensures r == this
      ensures other == this ==> err == null && unchanged(this)
      ensures other != this ==> (err == null <==> old(tag) == other.tag)
      ensures other != this && err == null ==> Merged(old(Value()), other.Value(), false, true) == Ok(Value())
      ensures err != null ==> fresh(err) && err.context == "" && unchanged(this)
    {
      err := Merge(other, false, true);
      r := this;
    }
  }

  /** A child node merged into a fresh node of its own tag never fails and keeps only the meaningful payloads. */
  lemma {:induction false} MergeChildNeverFails(c: ConfigValue, overwrite: bool, typecheck: bool)
    ensures Merged(Blank(c.tag), c, overwrite, typecheck) == Ok(Canonical(c))
    decreases c
  {
    if c.tag == Map {
      var children := MergedChildren(c, overwrite, typecheck);
      forall k | k in c.mapValue
        ensures children[k] == Ok(Canonical(c.mapValue[k]))
      {
        MergeChildNeverFails(c.mapValue[k], overwrite, typecheck);
      }
      assert OkValues(children) == Canonical(c).mapValue;
      assert map[] + OkValues(children) == OkValues(children);
    } else if c.tag == List {
      assert [] + c.listValue == c.listValue;
    }
  }

  /** The canonical copies of the children of `o` under `keys`. */
  function CanonicalChildren(o: ConfigValue, keys: set<string>): map<string, ConfigValue>
    requires keys <= o.mapValue.Keys
  {
    map k | k in keys :: Canonical(o.mapValue[k])
  }

  /** Storing one more child extends the stored children by its key. */
  lemma StoreOneChild(m: map<string, ConfigValue>, o: ConfigValue, done: set<string>, key: string)
    requires done <= o.mapValue.Keys && key in o.mapValue
    ensures (m + CanonicalChildren(o, done))[key := Canonical(o.mapValue[key])] == m + CanonicalChildren(o, done + {key})
  {
  }

  /** The map case of Merge stores the canonical copy of every child of `o`. */
  lemma MergeMapChildren(o: ConfigValue, overwrite: bool, typecheck: bool)
    ensures AllOk(MergedChildren(o, overwrite, typecheck))
    ensures OkValues(MergedChildren(o, overwrite, typecheck)) == CanonicalChildren(o, o.mapValue.Keys)
  {
    forall k | k in o.mapValue
      ensures Merged(Blank(o.mapValue[k].tag), o.mapValue[k], overwrite, typecheck) == Ok(Canonical(o.mapValue[k]))
    {
      MergeChildNeverFails(o.mapValue[k], overwrite, typecheck);
    }
  }
}

module ConfigProperties {
  import opened Wrappers
  import opened Config

  /** Merge fails only through the type check on the node itself, and the error then carries no context. */
  lemma MergeFailsOnlyAtTop(t: ConfigValue, o: ConfigValue, overwrite: bool, typecheck: bool)
    ensures Merged(t, o, overwrite, typecheck).Err? <==> typecheck && t.tag != o.tag
    ensures Merged(t, o, overwrite, typecheck).Err? ==> Merged(t, o, overwrite, typecheck).error == ""
  {
    if o.tag == Map {
      MergeMapChildren(o, overwrite, typecheck);
    }
  }

  /** After a successful merge the node has the other node's tag, and its integer or string payload. */
  lemma MergeAdoptsTagAndScalar(t: ConfigValue, o: ConfigValue, overwrite: bool, typecheck: bool)
    requires Merged(t, o, overwrite, typecheck).Ok?
    ensures Merged(t, o, overwrite, typecheck).value.tag == o.tag
    ensures o.tag == Integer ==> Merged(t, o, overwrite, typecheck).value.AsInt() == o.AsInt()
    ensures o.tag == String ==> Merged(t, o, overwrite, typecheck).value.AsString() == o.AsString()
  {
    if o.tag == Map {
      MergeMapChildren(o, overwrite, typecheck);
    }
  }

  /**
   * Lists are replaced, never appended to: the receiver is cleared when it is
   * a list, and a node of another tag holds no list payload.
   */
  lemma MergeReplacesList(t: ConfigValue, o: ConfigValue, overwrite: bool, typecheck: bool)
    requires o.tag == List && ListClean(t)
    requires Merged(t, o, overwrite, typecheck).Ok?
    ensures Merged(t, o, overwrite, typecheck).value.listValue == o.listValue
  {
  }

  /** Merging never leaves a list payload behind on a node that is not a list. */
  lemma MergeKeepsListClean(t: ConfigValue, o: ConfigValue, overwrite: bool, typecheck: bool)
    requires ListClean(t) && Merged(t, o, overwrite, typecheck).Ok?
    ensures ListClean(Merged(t, o, overwrite, typecheck).value)
  {
    if o.tag == Map {
      MergeMapChildren(o, overwrite, typecheck);
    }
  }

  /**
   * The map case.  Every key of `o` ends up holding the canonical copy of
   * `o`'s child, whether or not `overwrite` is set; a key only the receiver
   * has survives, unchanged, unless the receiver was a map that got cleared.
   */
  lemma MergeMapEntries(t: ConfigValue, o: ConfigValue, overwrite: bool, typecheck: bool)
    requires o.tag == Map && Merged(t, o, overwrite, typecheck).Ok?
    ensures var r := Merged(t, o, overwrite, typecheck).value;
      && (forall k | k in o.mapValue :: k in r.mapValue && r.mapValue[k] == Canonical(o.mapValue[k]))
      && r.mapValue.Keys == o.mapValue.Keys + (if overwrite && t.tag == Map then {} else t.mapValue.Keys)
      && (forall k | k in r.mapValue && k !in o.mapValue :: r.mapValue[k] == t.mapValue[k])
  {
    MergeMapChildren(o, overwrite, typecheck);
    var base := (if overwrite || t.tag == List then Cleared(t) else t).(tag := Map);
    assert Merged(t, o, overwrite, typecheck) == Ok(base.(mapValue := base.mapValue + CanonicalChildren(o, o.mapValue.Keys)));
    assert base.mapValue == if overwrite && t.tag == Map then map[] else t.mapValue;
    UnionEntries(base.mapValue, o);
  }

  /** The entries of a map after the canonical children of `o` are stored over it. */
  lemma UnionEntries(base: map<string, ConfigValue>, o: ConfigValue)
    ensures var m := base + CanonicalChildren(o, o.mapValue.Keys);
      && (forall k | k in o.mapValue :: k in m && m[k] == Canonical(o.mapValue[k]))
      && m.Keys == o.mapValue.Keys + base.Keys
      && (forall k | k in m && k !in o.mapValue :: m[k] == base[k])
  {
  }

  /**
   * With the type check on (as `+=` and `|=` do), an overwriting merge of maps
   * leaves exactly the other map's keys, and a non-overwriting one keeps the
   * receiver's other keys.
   */
  lemma TypedMapMerge(t: ConfigValue, o: ConfigValue, overwrite: bool)
    requires o.tag == Map && Merged(t, o, overwrite, true).Ok?
    ensures var r := Merged(t, o, overwrite, true).value;
      && (overwrite ==> r.mapValue.Keys == o.mapValue.Keys)
      && (!overwrite ==> r.mapValue.Keys == o.mapValue.Keys + t.mapValue.Keys)
      && (forall k | k in o.mapValue :: SameContent(r.mapValue[k], o.mapValue[k]))
  {
    MergeMapEntries(t, o, overwrite, true);
    var r := Merged(t, o, overwrite, true).value;
    forall k | k in o.mapValue
      ensures SameContent(r.mapValue[k], o.mapValue[k])
    {
      CanonicalSameContent(o.mapValue[k]);
    }
  }

  /** The canonical copy of a node cannot be told apart from it through the accessors. */
  lemma {:induction false} CanonicalSameContent(c: ConfigValue)
    ensures SameContent(Canonical(c), c)
    decreases c
  {
    if c.tag == Map {
      forall k | k in c.mapValue
        ensures SameContent(Canonical(c).mapValue[k], c.mapValue[k])
      {
        CanonicalSameContent(c.mapValue[k]);
      }
    }
  }

  /**
   * Merging a node with an equal copy of itself changes nothing when the node
   * holds no stale payloads (trees built by the parser are such nodes).
   */
  lemma MergeWithCopy(t: ConfigValue, overwrite: bool, typecheck: bool)
    requires Canonical(t) == t
    ensures Merged(t, t, overwrite, typecheck) == Ok(t)
  {
    if t.tag == Map {
      MergeMapChildren(t, overwrite, typecheck);
      assert t.mapValue == CanonicalChildren(t, t.mapValue.Keys);
      assert t.mapValue + t.mapValue == t.mapValue && map[] + t.mapValue == t.mapValue;
      var base := (if overwrite then Cleared(t) else t).(tag := Map);
      assert base.mapValue + OkValues(MergedChildren(t, overwrite, typecheck)) == t.mapValue;
      assert base.(mapValue := t.mapValue) == t;
    } else if t.tag == List {
      assert [] + t.listValue == t.listValue;
    }
  }

  /**
   * The merge `settings.Merge(defaults, false, true)` made by the command-line
   * front end lets a default replace a value the user set, because map keys
   * are always overwritten.
   */
  lemma DefaultsReplaceUserValue()
    ensures var settings := Blank(Map).(mapValue := map["port" := IntValue(1812)]);
      var defaults := Blank(Map).(mapValue := map["port" := IntValue(1645)]);
      Merged(settings, defaults, false, true).Ok?
      && Merged(settings, defaults, false, true).value.Lookup("port") == Ok(IntValue(1645))
  {
    var settings := Blank(Map).(mapValue := map["port" := IntValue(1812)]);
    var defaults := Blank(Map).(mapValue := map["port" := IntValue(1645)]);
    MergeMapEntries(settings, defaults, false, true);
  }

  /** Context after the keys of `path` have been added innermost first, as the error propagates outwards. */
  function AddContexts(context: string, path: seq<string>): string
    decreases |path|
  {
    if path == [] then context
    else AddContexts(WithContext(context, path[|path| - 1]), path[..|path| - 1])
  }

  /** `path` joined with slashes, outermost key first. */
  function JoinPath(path: seq<string>): string
    decreases |path|
  {
    if path == [] then ""
    else if |path| == 1 then path[0]
    else JoinPath(path[..|path| - 1]) + "/" + path[|path| - 1]
  }

  lemma {:induction false} AddContextsOnto(context: string, path: seq<string>)
    requires context != ""
    ensures AddContexts(context, path) == if path == [] then context else JoinPath(path) + "/" + context
    decreases |path|
  {
    if path != [] {
      var front, last := path[..|path| - 1], path[|path| - 1];
      AddContextsOnto(last + "/" + context, front);
      if front != [] {
        assert JoinPath(path) == JoinPath(front) + "/" + last;
      }
    }
  }

  /**
   * Adding the keys of a path innermost first to an empty context gives the
   * slash-joined path, outermost first, provided no key is empty.
   */
  lemma AddContextsJoinsPath(path: seq<string>)
    requires forall i | 0 <= i < |path| :: path[i] != ""
    ensures AddContexts("", path) == JoinPath(path)
  {
    if path != [] {
      var front, last := path[..|path| - 1], path[|path| - 1];
      AddContextsOnto(last, front);
    }
  }
}
