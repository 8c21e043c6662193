/**
 * Decoded JSON values as the integration sees them after `response.json()`,
 * together with the few pieces of Python semantics the core relies on:
 * truthiness, `dict.get(key, default)` and the `in` operator.
 */
module JsonValues {
  import opened Wrappers

  /** A decoded JSON document. `JNull` is also Python's `None`. */
  datatype Json =
    | JNull
    | JBool(b: bool)
    | JInt(i: int)
    | JStr(s: string)
    | JArr(items: seq<Json>)
    | JObj(fields: map<string, Json>)

  /** The Python exceptions that can escape the modelled code unchanged. */
  datatype PyError =
    | KeyError(key: string)
    | TypeError
    | AttributeError
    | ValueError

  /** `bool(j)` for a decoded JSON value. */
  predicate Truthy(j: Json)
  {
    match j
    case JNull => false
    case JBool(b) => b
    case JInt(i) => i != 0
    case JStr(s) => |s| > 0
    case JArr(items) => |items| > 0
    case JObj(fields) => |fields| > 0
  }

  /** Python's falsy values are exactly the empty and zero ones. */
  lemma FalsyValues(j: Json)
    ensures !Truthy(j) <==> j in {JNull, JBool(false), JInt(0), JStr(""), JArr([]), JObj(map[])}
  {
  }

  /** `m.get(key, default)`. */
  function GetOr(m: map<string, Json>, key: string, default: Json): (r: Json)
    ensures key in m ==> r == m[key]
    ensures key !in m ==> r == default
  {
    if key in m then m[key] else default
  }

  /** `p in s` for two Python strings: a substring test, scanning from the left. */
  function IsSubstring(p: string, s: string): bool
    decreases |s|
  {
    if |p| > |s| then false
    else if s[..|p|] == p then true
    else IsSubstring(p, s[1..])
  }

  /** The window of `s` starting at `i` spells `p`. */
  predicate WindowAt(p: string, s: string, i: int)
  {
    0 <= i <= |s| - |p| && s[i..i + |p|] == p
  }

  /** The scan finds `p` exactly when some window of `s` spells `p`. */
  lemma {:induction false} IsSubstringFindsWindow(p: string, s: string)
    decreases |s|
    ensures IsSubstring(p, s) <==> exists i :: WindowAt(p, s, i)
  {
    if |p| > |s| {
    } else if s[..|p|] == p {
      assert WindowAt(p, s, 0);
    } else {
      IsSubstringFindsWindow(p, s[1..]);
      if IsSubstring(p, s[1..]) {
        var i :| WindowAt(p, s[1..], i);
        assert s[i + 1..i + 1 + |p|] == s[1..][i..i + |p|];
        assert WindowAt(p, s, i + 1);
      } else {
        assert !WindowAt(p, s, 0);
        forall i | 0 < i <= |s| - |p|
          ensures !WindowAt(p, s, i)
        {
          var t := s[1..];
          assert i - 1 + |p| <= |t|;
          assert s[i..i + |p|] == t[i - 1..i - 1 + |p|];
          assert !WindowAt(p, t, i - 1);
        }
      }
    }
  }

  /**
   * `item in container` for a string `item`: key membership for an object,
   * element membership for an array, substring for a string, and a
   * `TypeError` for the scalars, which are not iterable.
   */
  function Contains(container: Json, item: string): (r: Result<bool, PyError>)
    ensures r.Failure? <==> container.JNull? || container.JBool? || container.JInt?
    ensures r.Failure? ==> r.error == TypeError
    ensures container.JObj? ==> r == Success(item in container.fields)
    ensures container.JArr? ==> (r == Success(true) <==> exists k :: 0 <= k < |container.items| && container.items[k] == JStr(item))
    ensures container.JStr? ==>
              (r == Success(true) <==> exists i :: WindowAt(item, container.s, i))
  {
    match container
    case JObj(fields) => Success(item in fields)
    case JArr(items) => Success(JStr(item) in items)
    case JStr(s) => IsSubstringFindsWindow(item, s); Success(IsSubstring(item, s))
    case _ => Failure(TypeError)
  }
}
