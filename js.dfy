/** JavaScript values and the few built-in operations the rest of the model
    relies on: truthiness, property reads, `||`, `startsWith` and `includes`. */
module Js {

  datatype Option<+T> = None | Some(value: T)

  /** A JSON-shaped JavaScript value, as it arrives in a request body, is
      stored in a JSONB column or sits in browser storage. Numbers are
      modelled as integers. */
  datatype Json =
    | Undefined
    | Null
    | Bool(b: bool)
    | Num(n: int)
    | Str(s: string)
    | Arr(items: seq<Json>)
    | Obj(fields: map<string, Json>)

  /** ToBoolean: the falsy values are undefined, null, false, 0 and "". */
  predicate Truthy(v: Json) {
    match v
    case Undefined => false
    case Null => false
    case Bool(b) => b
    case Num(n) => n != 0
    case Str(s) => s != ""
    case Arr(_) => true
    case Obj(_) => true
  }

  /** `typeof v === 'object'` (true of null, arrays and objects). */
  predicate TypeofObject(v: Json) {
    v.Null? || v.Arr? || v.Obj?
  }

  /** The property read `v.key`: an own field of an object, otherwise undefined. */
  function Prop(v: Json, key: string): Json {
    if v.Obj? && key in v.fields then v.fields[key] else Undefined
  }

  /** The canonical decimal text of an array index. */
  function Decimal(n: nat): (d: string)
    ensures |d| > 0
    ensures forall i :: 0 <= i < |d| ==> '0' <= d[i] <= '9'
  {
    var digit := ['0' + (n % 10) as char];
    if n < 10 then digit else Decimal(n / 10) + digit
  }

  /** A non-empty string of decimal digits, the form of an array index key. */
  predicate IsIndexKey(k: string) {
    |k| > 0 && forall j :: 0 <= j < |k| ==> '0' <= k[j] <= '9'
  }

  /** The first `n` index keys of a sequence, each mapped to its element. */
  function IndexKeys<T>(items: seq<T>, n: nat, f: T -> Json): (m: map<string, Json>)
    requires n <= |items|
    ensures forall k :: k in m ==> IsIndexKey(k)
  {
    if n == 0 then map[] else IndexKeys(items, n - 1, f)[Decimal(n - 1) := f(items[n - 1])]
  }

  /** The own enumerable properties an object spread `{...v}` copies: an
      object's fields, an array's elements and a string's characters under
      their index keys, and nothing for the other values. */
  function Spread(v: Json): (m: map<string, Json>)
    ensures v.Obj? ==> m == v.fields
    ensures !v.Obj? ==> forall k :: k in m ==> IsIndexKey(k)
  {
    match v
    case Obj(fields) => fields
    case Arr(items) => IndexKeys(items, |items|, (x: Json) => x)
    case Str(s) => IndexKeys(s, |s|, (c: char) => Str([c]))
    case _ => map[]
  }

  /** `a || b` */
  function Or(a: Json, b: Json): Json {
    if Truthy(a) then a else b
  }

  /** A string-valued optional field read with `x || fallback`. */
  function OrDefault(o: Option<string>, fallback: string): string {
    if o.Some? && o.value != "" then o.value else fallback
  }

  /** `!x` is false for a present, non-empty string. */
  predicate Present(o: Option<string>) {
    o.Some? && o.value != ""
  }

  /** `s.startsWith(prefix)`, case-sensitive. */
  predicate StartsWith(s: string, prefix: string) {
    |prefix| <= |s| && s[..|prefix|] == prefix
  }

  predicate OccursAt(s: string, sub: string, i: int) {
    0 <= i && i + |sub| <= |s| && s[i..i + |sub|] == sub
  }

  /** `s.includes(sub)`, scanning from the left. */
  predicate Includes(s: string, sub: string)
    decreases |s|
  {
    StartsWith(s, sub) || (|s| > 0 && Includes(s[1..], sub))
  }

  /** An occurrence of `sub` at any offset makes `includes` true. */
  lemma {:induction false} OccursIncludes(s: string, sub: string, i: int)
    requires OccursAt(s, sub, i)
    ensures Includes(s, sub)
    decreases i
  {
    if i == 0 {
      assert s[..|sub|] == s[i..i + |sub|];
    } else {
      assert s[1..][i - 1..i - 1 + |sub|] == s[i..i + |sub|];
      OccursIncludes(s[1..], sub, i - 1);
    }
  }

  /** When `includes` is true, `sub` occurs at some offset. */
  lemma {:induction false} IncludesOccurs(s: string, sub: string)
    requires Includes(s, sub)
    ensures exists i :: OccursAt(s, sub, i)
    decreases |s|
  {
    if StartsWith(s, sub) {
      assert OccursAt(s, sub, 0);
    } else {
      IncludesOccurs(s[1..], sub);
      var i :| OccursAt(s[1..], sub, i);
      assert s[1..][i..i + |sub|] == s[i + 1..i + 1 + |sub|];
      assert OccursAt(s, sub, i + 1);
    }
  }

  /** `includes` holds exactly when `sub` occurs at some offset of `s`. */
  lemma IncludesIffOccurs(s: string, sub: string)
    ensures Includes(s, sub) <==> exists i :: OccursAt(s, sub, i)
  {
    if Includes(s, sub) {
      IncludesOccurs(s, sub);
    }
    forall i | OccursAt(s, sub, i) ensures Includes(s, sub) {
      OccursIncludes(s, sub, i);
    }
  }

  /** A string in which a character never occurs does not include any
      string that starts with that character. */
  lemma ExcludesByFirstChar(s: string, sub: string)
    requires |sub| > 0
    requires forall k :: 0 <= k < |s| ==> s[k] != sub[0]
    ensures !Includes(s, sub)
  {
    forall i | 0 <= i < |s| ensures !OccursAt(s, sub, i) {
      if i + |sub| <= |s| {
        assert s[i..i + |sub|][0] == s[i];
      }
    }
    IncludesIffOccurs(s, sub);
  }
}
