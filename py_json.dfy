/** JSON values as the client sees them after `response.json()`, together with
    the handful of Python operations the client applies to them: `in`, `.get`,
    subscripting, iteration, `len`, truthiness and `str.join`.  Every operation
    that Python would answer with an exception returns `Raised`, so exceptions
    become an explicit result instead of hidden control flow. */
module PyJson {

  datatype Option<+T> = None | Some(value: T)

  /** The outcome of a Python expression: a value, or an exception. */
  datatype Try<+T> = Ok(value: T) | Raised {
    predicate IsFailure() { Raised? }
    function PropagateFailure<U>(): Try<U>
      requires Raised?
    {
      Raised
    }
    function Extract(): T
      requires Ok?
    {
      value
    }
  }

  /** A decoded JSON document.  An object keeps its members in wire order, as
      a sequence of key-value pairs.  Numbers are integers only. */
  datatype Json =
    | Null
    | Bool(b: bool)
    | Int(n: int)
    | Str(s: string)
    | Arr(items: seq<Json>)
    | Obj(fields: seq<(string, Json)>)

  /** Dictionary lookup.  `json.loads` keeps the last of duplicated keys, so the
      last binding of `key` wins. */
  function Lookup(fields: seq<(string, Json)>, key: string): Option<Json>
  {
    if fields == [] then None
    else if fields[|fields| - 1].0 == key then Some(fields[|fields| - 1].1)
    else Lookup(fields[..|fields| - 1], key)
  }

  /** The keys of the dictionary in iteration order: each key once, at the
      place where it first occurred. */
  function Keys(fields: seq<(string, Json)>): seq<string>
  {
    if fields == [] then []
    else
      var ks := Keys(fields[..|fields| - 1]);
      var k := fields[|fields| - 1].0;
      if k in ks then ks else ks + [k]
  }

  /** Python truthiness of a JSON value. */
  predicate Truthy(j: Json)
  {
    match j
    case Null => false
    case Bool(b) => b
    case Int(n) => n != 0
    case Str(s) => s != ""
    case Arr(items) => items != []
    case Obj(fields) => fields != []
  }

  predicate IsPrefix(p: string, s: string)
  {
    |p| <= |s| && s[..|p|] == p
  }

  /** `p in s` on two Python strings. */
  predicate IsSubstring(p: string, s: string)
  {
    IsPrefix(p, s) || (s != [] && IsSubstring(p, s[1..]))
  }

  /** `key in c`: key membership for a dictionary, element membership for a
      list, substring search for a string, a TypeError otherwise. */
  function Contains(c: Json, key: string): Try<bool>
  {
    match c
    case Obj(fields) => Ok(key in Keys(fields))
    case Arr(items) => Ok(Str(key) in items)
    case Str(s) => Ok(IsSubstring(key, s))
    case _ => Raised
  }

  /** `d.get(key, default)`: only a dictionary has `.get`. */
  function Get(d: Json, key: string, default: Json): Try<Json>
  {
    match d
    case Obj(fields) =>
      (match Lookup(fields, key)
       case Some(v) => Ok(v)
       case None => Ok(default))
    case _ => Raised
  }

  /** The value of a dictionary entry, like `.get(key)`, or None. */
  function Entry(fields: seq<(string, Json)>, key: string): Json
  {
    match Lookup(fields, key)
    case Some(v) => v
    case None => Null
  }

  /** `.get(key, default)` on the dictionary `fields` gives `v`: the key is
      bound to `v`, or it is absent and `v` is the default. */
  predicate Gives(fields: seq<(string, Json)>, key: string, default: Json, v: Json)
  {
    Lookup(fields, key) == Some(v) || (Lookup(fields, key) == None && v == default)
  }

  /** `c[key]` with a string key: a KeyError for a missing key, a TypeError on
      anything but a dictionary. */
  function Subscript(c: Json, key: string): Try<Json>
  {
    match c
    case Obj(fields) =>
      (match Lookup(fields, key)
       case Some(v) => Ok(v)
       case None => Raised)
    case _ => Raised
  }

  /** `c[0]`: the first element of a list, the first character of a string; an
      IndexError when empty, a KeyError on a dictionary (JSON keys are strings),
      a TypeError otherwise. */
  function First(c: Json): Try<Json>
  {
    match c
    case Arr(items) => if items == [] then Raised else Ok(items[0])
    case Str(s) => if s == "" then Raised else Ok(Str([s[0]]))
    case _ => Raised
  }

  /** The one-character strings of `s`, as iterating a Python string yields. */
  function Chars(s: string): (r: seq<Json>)
    ensures |r| == |s|
    ensures forall i :: 0 <= i < |s| ==> r[i] == Str([s[i]])
  {
    if s == "" then [] else [Str([s[0]])] + Chars(s[1..])
  }

  /** A list of strings as JSON string values (the keys a loop over a
      dictionary yields, the `values` list of a text feature). */
  function StrList(ss: seq<string>): (r: seq<Json>)
    ensures |r| == |ss|
    ensures forall i :: 0 <= i < |ss| ==> r[i] == Str(ss[i])
  {
    if ss == [] then [] else [Str(ss[0])] + StrList(ss[1..])
  }

  /** Reading the strings back out of `StrList` gives the original list. */
  lemma TextsOfStrList(ss: seq<string>)
    ensures AllStrings(StrList(ss))
    ensures Texts(StrList(ss)) == ss
  {
    var t := Texts(StrList(ss));
    assert |t| == |ss| && forall i :: 0 <= i < |ss| ==> t[i] == ss[i];
  }

  /** What a `for` loop over `c` visits: the elements of a list, the keys of a
      dictionary, the characters of a string; a TypeError otherwise. */
  function Iter(c: Json): Try<seq<Json>>
  {
    match c
    case Arr(items) => Ok(items)
    case Obj(fields) => Ok(StrList(Keys(fields)))
    case Str(s) => Ok(Chars(s))
    case _ => Raised
  }

  /** `len(c)`. */
  function Len(c: Json): Try<nat>
  {
    match c
    case Arr(items) => Ok(|items|)
    case Obj(fields) => Ok(|Keys(fields)|)
    case Str(s) => Ok(|s|)
    case _ => Raised
  }

  /** Plain concatenation of strings with `sep` between neighbours. */
  function Join(sep: string, parts: seq<string>): string
  {
    if parts == [] then ""
    else if |parts| == 1 then parts[0]
    else parts[0] + sep + Join(sep, parts[1..])
  }

  predicate AllStrings(parts: seq<Json>)
  {
    forall i :: 0 <= i < |parts| ==> parts[i].Str?
  }

  function Texts(parts: seq<Json>): (r: seq<string>)
    requires AllStrings(parts)
    ensures |r| == |parts|
    ensures forall i :: 0 <= i < |parts| ==> r[i] == parts[i].s
  {
    if parts == [] then [] else [parts[0].s] + Texts(parts[1..])
  }

  /** `sep.join(parts)`: a TypeError unless every part is a string. */
  function JoinStrings(sep: string, parts: seq<Json>): (r: Try<string>)
    ensures r.Ok? <==> AllStrings(parts)
  {
    if AllStrings(parts) then Ok(Join(sep, Texts(parts))) else Raised
  }

  /** `str(j)` (and f-string interpolation of `j`): a string is itself; the
      rendering of any other value is the host's, given as `show`. */
  function PyStr(show: Json -> string, j: Json): string
  {
    if j.Str? then j.s else show(j)
  }

  // ---------------------------------------------------------------------
  // Facts about dictionaries

  /** A key is in the dictionary's key list exactly when some member carries it. */
  lemma {:induction false} KeysHaveMember(fields: seq<(string, Json)>, key: string)
    ensures key in Keys(fields) <==> exists i :: 0 <= i < |fields| && fields[i].0 == key
  {
    if fields != [] {
      var init := fields[..|fields| - 1];
      KeysHaveMember(init, key);
      if key in Keys(init) {
        var i :| 0 <= i < |init| && init[i].0 == key;
        assert fields[i].0 == key;
      } else if exists i :: 0 <= i < |fields| && fields[i].0 == key {
        var i :| 0 <= i < |fields| && fields[i].0 == key;
        if i < |init| {
          assert init[i].0 == key;
        }
      }
    }
  }

  /** `key in d` and `d.get(key)` agree: a lookup succeeds exactly for the listed keys. */
  lemma {:induction false} LookupIffKey(fields: seq<(string, Json)>, key: string)
    ensures Lookup(fields, key).Some? <==> key in Keys(fields)
  {
    if fields != [] {
      var init := fields[..|fields| - 1];
      LookupIffKey(init, key);
    }
  }

  /** The lookup finds the LAST member with the key: that member is present and
      no later member carries the same key. */
  lemma {:induction false} LookupIsLastBinding(fields: seq<(string, Json)>, key: string, v: Json)
    ensures Lookup(fields, key) == Some(v) <==>
      exists i :: 0 <= i < |fields| && fields[i] == (key, v) &&
        forall j :: i < j < |fields| ==> fields[j].0 != key
  {
    if fields != [] {
      var n := |fields| - 1;
      var init := fields[..n];
      LookupIsLastBinding(init, key, v);
      if Lookup(fields, key) == Some(v) {
        if fields[n].0 == key {
          assert fields[n] == (key, v);
        } else {
          var i :| 0 <= i < |init| && init[i] == (key, v) &&
            forall j :: i < j < |init| ==> init[j].0 != key;
          assert fields[i] == (key, v);
          assert forall j :: i < j < |fields| ==> fields[j].0 != key by {
            forall j | i < j < |fields| ensures fields[j].0 != key {
              if j < n { assert fields[j] == init[j]; }
            }
          }
        }
      }
      if exists i :: 0 <= i < |fields| && fields[i] == (key, v) &&
          (forall j :: i < j < |fields| ==> fields[j].0 != key) {
        var i :| 0 <= i < |fields| && fields[i] == (key, v) &&
          (forall j :: i < j < |fields| ==> fields[j].0 != key);
        if i < n {
          assert fields[n].0 != key;
          assert init[i] == (key, v);
          assert forall j :: i < j < |init| ==> init[j].0 != key by {
            forall j | i < j < |init| ensures init[j].0 != key {
              assert init[j] == fields[j];
            }
          }
        }
      }
    }
  }

  /** A non-empty dictionary has at least one key. */
  lemma {:induction false} NonEmptyHasKeys(fields: seq<(string, Json)>)
    requires fields != []
    ensures Keys(fields) != []
  {
    var init := fields[..|fields| - 1];
    if Keys(init) != [] {
    }
  }

  /** On a dictionary, `in` answers exactly whether `.get` finds the key, and
      `d[key]` then yields what `.get` yields. */
  lemma ContainsIsLookup(fields: seq<(string, Json)>, key: string)
    ensures Contains(Obj(fields), key) == Ok(Lookup(fields, key).Some?)
    ensures Lookup(fields, key).Some? ==> Subscript(Obj(fields), key) == Ok(Lookup(fields, key).value)
  {
    LookupIffKey(fields, key);
  }

  /** Lookup in a one- and a two-member dictionary. */
  lemma LookupSmall(a: (string, Json), b: (string, Json), key: string)
    ensures Lookup([a], key) == if a.0 == key then Some(a.1) else None
    ensures Lookup([a, b], key) ==
      if b.0 == key then Some(b.1) else if a.0 == key then Some(a.1) else None
    ensures Keys([a]) == [a.0]
    ensures Keys([a, b]) == if a.0 == b.0 then [a.0] else [a.0, b.0]
  {
    assert [a, b][..1] == [a];
    assert [a][..0] == [];
  }
}
