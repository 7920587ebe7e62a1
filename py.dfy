/** The slice of Python's runtime that the integration's code relies on:
    decoded JSON documents, truthiness, the `in` operator, subscripts,
    `dict.get`, iteration, `str()`, and the exceptions these raise. */
module Py {

  datatype Option<+T> = None | Some(value: T)

  /** The exceptions the modelled code can raise or catch. */
  datatype Exc =
    | KeyError(key: Json)
    | IndexError
    | TypeError
    | AttributeError
    | ValueError
    | JSONDecodeError
    | HTTPError(status: int)
    | ConnectionError
    | Raised(detail: Json)        // `raise Exception(...)` with a payload or message
    | OperationalError            // SQLite: "no such table"
    | ProgrammingError            // SQLite: parameters that cannot be bound to the placeholders
    | OverflowError               // SQLite: an integer parameter outside 64 bits
    | IntegrityError              // SQLite: primary key already present
    | NameError(name: string)

  /** A value, or the exception raised instead of producing it. */
  datatype Result<+T> = Ok(value: T) | Err(error: Exc) {
    predicate IsFailure() { Err? }
    function PropagateFailure<U>(): Result<U>
      requires Err?
    {
      Err(error)
    }
    function Extract(): T
      requires Ok?
    {
      value
    }
  }

  /** A decoded JSON (or YAML) document as Python holds it. */
  datatype Json =
    | JNull
    | JBool(b: bool)
    | JInt(i: int)
    | JStr(s: string)
    | JList(items: seq<Json>)
    | JObj(fields: map<string, Json>)

  /** Values Python can use as dictionary keys. */
  predicate Hashable(j: Json) {
    !j.JList? && !j.JObj?
  }

  /** Python's `bool(j)`. */
  predicate Truthy(j: Json) {
    match j
    case JNull => false
    case JBool(b) => b
    case JInt(i) => i != 0
    case JStr(s) => s != []
    case JList(xs) => xs != []
    case JObj(m) => m != map[]
  }

  predicate IsSubstring(p: string, t: string) {
    exists i :: 0 <= i <= |t| && p <= t[i..]
  }

  /** Python's `x in container` for a string `x`: key presence for a dict,
      membership for a list, substring for a string, TypeError otherwise. */
  function Contains(container: Json, x: string): Result<bool> {
    match container
    case JObj(m) => Ok(x in m)
    case JList(xs) => Ok(JStr(x) in xs)
    case JStr(t) => Ok(IsSubstring(x, t))
    case _ => Err(TypeError)
  }

  /** Python's `j[key]` for a string key. */
  function Get(j: Json, key: string): Result<Json> {
    match j
    case JObj(m) => if key in m then Ok(m[key]) else Err(KeyError(JStr(key)))
    case _ => Err(TypeError)
  }

  /** Python's `j[i]` for an integer index (negative indices count from the end). */
  function At(j: Json, i: int): Result<Json> {
    match j
    case JList(xs) =>
      if -|xs| <= i < |xs| then Ok(xs[if i < 0 then i + |xs| else i]) else Err(IndexError)
    case JStr(s) =>
      if -|s| <= i < |s| then Ok(JStr([s[if i < 0 then i + |s| else i]])) else Err(IndexError)
    case JObj(_) => Err(KeyError(JInt(i)))
    case _ => Err(TypeError)
  }

  /** Python's `j.get(key)`: None for a missing key, AttributeError on a non-dict. */
  function DictGet(j: Json, key: string): Result<Json> {
    match j
    case JObj(m) => Ok(if key in m then m[key] else JNull)
    case _ => Err(AttributeError)
  }

  /** Python's `m.get(k, default)` on a dictionary held by the program. */
  function MapGet(m: map<Json, Json>, k: Json, default: Json): Result<Json> {
    if !Hashable(k) then Err(TypeError)
    else if k in m then Ok(m[k])
    else Ok(default)
  }

  /** The one-character strings of `s`, as iterating a Python string yields them. */
  function Chars(s: string): (r: seq<Json>)
    ensures |r| == |s|
  {
    seq(|s|, i requires 0 <= i < |s| => JStr([s[i]]))
  }

  /** What `for x in j` visits: a list's items, a dict's keys, a string's
      characters; TypeError for anything else. */
  function Iterate(j: Json): Result<seq<Json>> {
    match j
    case JList(xs) => Ok(xs)
    case JObj(m) => var ks := SortedKeys(m.Keys); Ok(seq(|ks|, i requires 0 <= i < |ks| => JStr(ks[i])))
    case JStr(s) => Ok(Chars(s))
    case _ => Err(TypeError)
  }

  // ---- a fixed order on dictionary keys ----

  /** Lexicographic order on strings. */
  predicate LexLe(a: string, b: string) {
    if a == [] then true
    else if b == [] then false
    else if a[0] != b[0] then a[0] < b[0]
    else LexLe(a[1..], b[1..])
  }

  lemma {:induction false} LexTotal(a: string, b: string)
    ensures LexLe(a, b) || LexLe(b, a)
  {
    if a != [] && b != [] && a[0] == b[0] {
      LexTotal(a[1..], b[1..]);
    }
  }

  lemma {:induction false} LexAntisymmetric(a: string, b: string)
    requires LexLe(a, b) && LexLe(b, a)
    ensures a == b
  {
    if a != [] && b != [] {
      LexAntisymmetric(a[1..], b[1..]);
      assert a == [a[0]] + a[1..];
      assert b == [b[0]] + b[1..];
    }
  }

  lemma {:induction false} LexReflexive(a: string)
    ensures LexLe(a, a)
  {
    if a != [] { LexReflexive(a[1..]); }
  }

  lemma {:induction false} LexTransitive(a: string, b: string, c: string)
    requires LexLe(a, b) && LexLe(b, c)
    ensures LexLe(a, c)
  {
    if a != [] && b != [] && c != [] && a[0] == b[0] && b[0] == c[0] {
      LexTransitive(a[1..], b[1..], c[1..]);
    }
  }

  predicate IsLeast(k: string, s: set<string>) {
    k in s && forall x :: x in s ==> LexLe(k, x)
  }

  lemma {:induction false} LeastExists(s: set<string>)
    requires s != {}
    ensures exists k :: IsLeast(k, s)
    decreases |s|
  {
    var x :| x in s;
    LexReflexive(x);
    if s == {x} {
      assert IsLeast(x, s);
    } else {
      LeastExists(s - {x});
      var k :| IsLeast(k, s - {x});
      LexTotal(k, x);
      if LexLe(k, x) {
        assert IsLeast(k, s);
      } else {
        forall y | y in s ensures LexLe(x, y) {
          if y != x { LexTransitive(x, k, y); }
        }
        assert IsLeast(x, s);
      }
    }
  }

  lemma LeastUnique(s: set<string>)
    ensures forall k, k' :: IsLeast(k, s) && IsLeast(k', s) ==> k == k'
  {
    forall k, k' | IsLeast(k, s) && IsLeast(k', s) ensures k == k' {
      LexAntisymmetric(k, k');
    }
  }

  /** The keys of a set in lexicographic order. */
  function SortedKeys(s: set<string>): (r: seq<string>)
    ensures forall k :: k in r <==> k in s
    decreases |s|
  {
    if s == {} then []
    else
      LeastExists(s);
      LeastUnique(s);
      var k :| IsLeast(k, s);
      [k] + SortedKeys(s - {k})
  }

  // ---- str() and repr() ----

  function DigitChar(d: int): char
    requires 0 <= d < 10
  {
    ('0' as int + d) as char
  }

  function NatToStr(n: nat): string
    decreases n
  {
    if n < 10 then [DigitChar(n)] else NatToStr(n / 10) + [DigitChar(n % 10)]
  }

  /** Python's `str(i)` for an int. */
  function IntToStr(i: int): string {
    if i < 0 then "-" + NatToStr(-i) else NatToStr(i)
  }

  function Join(parts: seq<string>, sep: string): string {
    if parts == [] then "" else if |parts| == 1 then parts[0] else parts[0] + sep + Join(parts[1..], sep)
  }

  /** Python's `repr(j)`; strings are quoted with single quotes and not
      escaped, and dict keys are listed in lexicographic order. */
  function Repr(j: Json): string {
    match j
    case JNull => "None"
    case JBool(b) => if b then "True" else "False"
    case JInt(i) => IntToStr(i)
    case JStr(s) => "'" + s + "'"
    case JList(xs) => "[" + Join(seq(|xs|, i requires 0 <= i < |xs| => Repr(xs[i])), ", ") + "]"
    case JObj(m) =>
      var ks := SortedKeys(m.Keys);
      "{" + Join(seq(|ks|, i requires 0 <= i < |ks| => "'" + ks[i] + "': " + Repr(m[ks[i]])), ", ") + "}"
  }

  /** Python's `str(j)`: a string is itself, everything else is its repr. */
  function PyStr(j: Json): string {
    if j.JStr? then j.s else Repr(j)
  }
}
