/** Python values as they cross the JSON and dict boundaries of the agents, and the few
    Python operations the agents apply to them: `dict.get`, `in`, `[]`, `len`, truthiness
    and `str()` / f-string rendering. Each operation that Python can make raise returns an
    `Outcome` whose `Raise` carries the exception Python would raise. */
module PyJson {

  datatype Option<+T> = None | Some(value: T)

  /** A JSON-shaped Python value: None, bool, int, str, list or dict with string keys. */
  datatype Json =
    | JNull
    | JBool(b: bool)
    | JInt(n: int)
    | JStr(s: string)
    | JArr(items: seq<Json>)
    | JObj(fields: map<string, Json>)

  /** The Python exceptions the core raises or catches. `HttpxError` stands for every error
      raised by the HTTP client (connection failures, time-outs, `raise_for_status`). */
  datatype PyError =
    | KeyError(key: Json)
    | ValueError(message: string)
    | TypeError(message: string)
    | AttributeError(message: string)
    | PermissionError(message: string)
    | HTTPException(status: int, detail: string)
    | HttpxError(message: string)

  /** What a Python call does: return a value or raise. */
  datatype Outcome<+T> = Return(value: T) | Raise(error: PyError)

  /** `d.get(key)` on a dict: None when the key is absent. */
  function Get(d: map<string, Json>, key: string): Json {
    if key in d then d[key] else JNull
  }

  /** `d.get(key, default)` on a dict. */
  function GetOr(d: map<string, Json>, key: string, default: Json): Json {
    if key in d then d[key] else default
  }

  /** Python truthiness (`if x:` / `not x`): exactly None, False, 0, the empty string, the
      empty list and the empty dict are false. */
  predicate Truthy(j: Json)
    ensures !Truthy(j) <==> j in {JNull, JBool(false), JInt(0), JStr(""), JArr([]), JObj(map[])}
  {
    match j
    case JNull => false
    case JBool(b) => b
    case JInt(n) => n != 0
    case JStr(s) => s != ""
    case JArr(items) => items != []
    case JObj(fields) => fields != map[]
  }

  /** The Python type name that appears in TypeError and AttributeError messages. */
  function TypeName(j: Json): string {
    match j
    case JNull => "NoneType"
    case JBool(_) => "bool"
    case JInt(_) => "int"
    case JStr(_) => "str"
    case JArr(_) => "list"
    case JObj(_) => "dict"
  }

  /** `x.get(key, default)` on any value: only a dict has a `get` method. */
  function DictGet(j: Json, key: string, default: Json): (r: Outcome<Json>)
    ensures r.Return? <==> j.JObj?
  {
    match j
    case JObj(d) => Return(GetOr(d, key, default))
    case _ => Raise(AttributeError("'" + TypeName(j) + "' object has no attribute 'get'"))
  }

  /** `len(x)`. */
  function Len(j: Json): (r: Outcome<nat>)
    ensures r.Return? <==> (j.JArr? || j.JStr? || j.JObj?)
    ensures r.Raise? ==> r.error.TypeError?
  {
    match j
    case JArr(items) => Return(|items|)
    case JStr(s) => Return(|s|)
    case JObj(d) => Return(|d.Keys|)
    case _ => Raise(TypeError("object of type '" + TypeName(j) + "' has no len()"))
  }

  /** `t` occurs as a contiguous piece of `s` (Python's `t in s` on strings). */
  predicate IsSubstring(t: string, s: string) {
    exists i :: 0 <= i <= |s| && t <= s[i..]
  }

  /** `key in container` for a string `key`: element of a list, substring of a string, key of
      a dict; any other container raises TypeError. */
  function ContainsStr(container: Json, key: string): (r: Outcome<bool>)
    ensures r.Return? <==> (container.JArr? || container.JStr? || container.JObj?)
    ensures container.JArr? ==> r == Return(JStr(key) in container.items)
    ensures container.JObj? ==> r == Return(key in container.fields)
  {
    match container
    case JArr(items) => Return(JStr(key) in items)
    case JStr(s) => Return(IsSubstring(key, s))
    case JObj(d) => Return(key in d)
    case _ => Raise(TypeError("argument of type '" + TypeName(container) + "' is not iterable"))
  }

  /** `container[key]` for a string `key`. */
  function Index(container: Json, key: string): (r: Outcome<Json>)
    ensures r.Return? <==> container.JObj? && key in container.fields
  {
    match container
    case JObj(d) => if key in d then Return(d[key]) else Raise(KeyError(JStr(key)))
    case JArr(_) => Raise(TypeError("list indices must be integers or slices, not str"))
    case JStr(_) => Raise(TypeError("string indices must be integers, not 'str'"))
    case _ => Raise(TypeError("'" + TypeName(container) + "' object is not subscriptable"))
  }

  /** `len(x.get("messages", []))`, the message count the agents take of a Gmail listing. */
  function MessageCount(emails: Json): (r: Outcome<nat>)
    ensures emails.JObj? && "messages" !in emails.fields ==> r == Return(0)
    ensures emails.JObj? && "messages" in emails.fields && emails.fields["messages"].JArr?
            ==> r == Return(|emails.fields["messages"].items|)
    ensures !emails.JObj? ==> r.Raise? && r.error.AttributeError?
    ensures r.Raise? ==> r.error.AttributeError? || r.error.TypeError?
  {
    match DictGet(emails, "messages", JArr([]))
    case Raise(e) => Raise(e)
    case Return(messages) => Len(messages)
  }

  // ----- decimal rendering of integers -----

  predicate IsDigit(c: char) { '0' <= c <= '9' }

  predicate AllDigits(s: string) { forall i :: 0 <= i < |s| ==> IsDigit(s[i]) }

  function DigitChar(d: nat): (c: char)
    requires d < 10
    ensures IsDigit(c) && c as int - '0' as int == d
  {
    ['0', '1', '2', '3', '4', '5', '6', '7', '8', '9'][d]
  }

  /** The decimal digits of `n`, most significant first, without leading zeros. */
  function NatToString(n: nat): (s: string)
    ensures |s| >= 1 && AllDigits(s)
    ensures |s| > 1 ==> s[0] != '0'
    decreases n
  {
    if n < 10 then [DigitChar(n)] else NatToString(n / 10) + [DigitChar(n % 10)]
  }

  /** Python's `str(n)` for an int. */
  function IntToString(n: int): string {
    if n < 0 then "-" + NatToString(-n) else NatToString(n)
  }

  /** Reads a string of decimal digits back as a number. */
  function ParseNat(s: string): nat
    requires AllDigits(s)
  {
    if s == [] then 0 else ParseNat(s[..|s| - 1]) * 10 + (s[|s| - 1] as int - '0' as int)
  }

  lemma {:induction false} ParseNatToString(n: nat)
    ensures ParseNat(NatToString(n)) == n
    decreases n
  {
    if n >= 10 {
      var s := NatToString(n);
      assert s[..|s| - 1] == NatToString(n / 10);
      ParseNatToString(n / 10);
    }
  }

  /** Different numbers render differently. */
  lemma NatToStringInjective(a: nat, b: nat)
    requires NatToString(a) == NatToString(b)
    ensures a == b
  {
    ParseNatToString(a);
    ParseNatToString(b);
  }

  /** A common prefix can be dropped from two equal strings. */
  lemma DropPrefix(p: string, d1: string, t1: string, d2: string, t2: string)
    requires p + d1 + t1 == p + d2 + t2
    ensures d1 + t1 == d2 + t2
  {
    assert (p + d1 + t1)[|p|..] == d1 + t1;
    assert (p + d2 + t2)[|p|..] == d2 + t2;
  }

  lemma CharsOfJoins(a: string, b: string, c: string, d: string, k: nat)
    requires a + b == c + d && k < |a| + |b|
    ensures (if k < |a| then a[k] else b[k - |a|]) == (if k < |c| then c[k] else d[k - |c|])
  {
    assert (a + b)[k] == (c + d)[k];
  }

  /** A run of digits followed by a non-digit is recovered unambiguously from the
      concatenation: this is how a count embedded in a message can be read back. */
  lemma DigitRunsAgree(d1: string, r1: string, d2: string, r2: string)
    requires AllDigits(d1) && AllDigits(d2)
    requires |r1| > 0 && |r2| > 0 && !IsDigit(r1[0]) && !IsDigit(r2[0])
    requires d1 + r1 == d2 + r2
    ensures d1 == d2 && r1 == r2
  {
    var s := d1 + r1;
    if |d1| < |d2| {
      CharsOfJoins(d1, r1, d2, r2, |d1|);
      assert false;
    } else if |d2| < |d1| {
      CharsOfJoins(d1, r1, d2, r2, |d2|);
      assert false;
    }
    assert d1 == s[..|d1|] == d2;
  }

  // ----- str() of values and exceptions -----

  /** `f"{x}"` / `str(x)` of a value. Lists and dicts get a placeholder instead of Python's repr. */
  function Render(j: Json): (r: string)
    ensures r == "" <==> j == JStr("")
    ensures j.JInt? && j.n >= 0 ==> AllDigits(r) && ParseNat(r) == j.n
    ensures j.JInt? && j.n < 0 ==> r[0] == '-' && AllDigits(r[1..]) && ParseNat(r[1..]) == -j.n
  {
    match j
    case JNull => "None"
    case JBool(b) => if b then "True" else "False"
    case JInt(n) =>
      var k: nat := if n < 0 then -n else n;
      ParseNatToString(k);
      assert n < 0 ==> ("-" + NatToString(k))[1..] == NatToString(k);
      IntToString(n)
    case JStr(s) => s
    case JArr(_) => "[...]"
    case JObj(_) => "{...}"
  }

  /** `repr(x)`, as `str()` of a KeyError shows its key. */
  function Repr(j: Json): string {
    match j
    case JStr(s) => "'" + s + "'"
    case _ => Render(j)
  }

  /** `str(e)` of an exception. */
  function ErrorText(e: PyError): (r: string)
    ensures e.KeyError? && e.key.JStr? ==> |r| == |e.key.s| + 2 && r[0] == r[|r| - 1] == '\'' && r[1..|r| - 1] == e.key.s
    ensures e.HTTPException? && e.status >= 0 ==>
      var n := |NatToString(e.status)|;
      n <= |r| && AllDigits(r[..n]) && ParseNat(r[..n]) == e.status && r[n..] == ": " + e.detail
    ensures !e.KeyError? && !e.HTTPException? ==> r == e.message
  {
    match e
    case KeyError(k) => Repr(k)
    case ValueError(m) => m
    case TypeError(m) => m
    case AttributeError(m) => m
    case PermissionError(m) => m
    case HTTPException(status, detail) =>
      if status >= 0 then
        var d := NatToString(status);
        ParseNatToString(status);
        assert (d + ": " + detail)[..|d|] == d;
        IntToString(status) + ": " + detail
      else IntToString(status) + ": " + detail
    case HttpxError(m) => m
  }
}
