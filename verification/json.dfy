/** JSON values as Python's `json.loads` hands them to the agents, with the
    Python operations the agents apply to them: `dict.get`, truthiness,
    `json.dumps` with its default separators, `str()` and `repr()`.
    Floating-point numbers are not part of this model. */
module Json {
  import opened Common
  import opened Text

  datatype Json =
    | JNull
    | JBool(b: bool)
    | JInt(i: int)
    | JString(s: string)
    | JArray(items: seq<Json>)
    | JObject(fields: seq<(string, Json)>)

  /** The result of `json.loads`: a value, or the `JSONDecodeError` text. */
  datatype Decoded = Parsed(value: Json) | DecodeError(message: string)

  /** `json.loads`, left abstract: the model never parses JSON itself. */
  type Loads = string -> Decoded

  /** Characters a JSON value may start with in Python's decoder (which also
      accepts `NaN` and `Infinity`). */
  predicate StartsValue(c: char) {
    c in "{[\"-0123456789tfnNI"
  }

  predicate IsJsonSpace(c: char) {
    c in " \t\n\r"
  }

  /** The one fact about `json.loads` the agents' error path relies on: text
      whose first character is neither JSON whitespace nor the start of a
      value is rejected. */
  ghost predicate RejectsNonValueStart(loads: Loads) {
    forall s :: |s| > 0 && !IsJsonSpace(s[0]) && !StartsValue(s[0]) ==> loads(s).DecodeError?
  }

  /** The value stored under `key` in an object's fields (a decoded object's
      keys are distinct, as in a Python `dict`). */
  function Lookup(fields: seq<(string, Json)>, key: string): Option<Json> {
    if |fields| == 0 then None
    else if fields[0].0 == key then Some(fields[0].1)
    else Lookup(fields[1..], key)
  }

  /** A key is found exactly when some field carries it, and what is found
      is the value of the first such field. */
  lemma {:induction false} LookupFirst(fields: seq<(string, Json)>, key: string)
    ensures Lookup(fields, key).Some? <==> exists k :: 0 <= k < |fields| && fields[k].0 == key
    ensures Lookup(fields, key).Some? ==>
              exists k :: 0 <= k < |fields| && fields[k] == (key, Lookup(fields, key).value)
                          && forall m :: 0 <= m < k ==> fields[m].0 != key
  {
    if |fields| > 0 && fields[0].0 != key {
      LookupFirst(fields[1..], key);
      assert forall k :: 1 <= k < |fields| ==> fields[k] == fields[1..][k - 1];
      if Lookup(fields, key).Some? {
        var k :| 0 <= k < |fields[1..]| && fields[1..][k] == (key, Lookup(fields, key).value)
                 && forall m :: 0 <= m < k ==> fields[1..][m].0 != key;
        assert fields[k + 1] == (key, Lookup(fields, key).value);
        assert forall m :: 1 <= m < k + 1 ==> fields[m].0 != key;
      }
    } else if |fields| > 0 {
      assert fields[0] == (key, Lookup(fields, key).value);
    }
  }

  /** `value.get(key)` on a decoded object; other values have no keys. */
  function Get(j: Json, key: string): Option<Json> {
    if j.JObject? then Lookup(j.fields, key) else None
  }

  predicate HasKey(j: Json, key: string) {
    Get(j, key).Some?
  }

  /** `get` on an object with two distinct keys. */
  lemma GetPair(k1: string, v1: Json, k2: string, v2: Json)
    requires k1 != k2
    ensures Get(JObject([(k1, v1), (k2, v2)]), k1) == Some(v1)
    ensures Get(JObject([(k1, v1), (k2, v2)]), k2) == Some(v2)
  {
    var fs := [(k1, v1), (k2, v2)];
    assert fs[1..] == [(k2, v2)];
    assert Lookup(fs[1..], k2) == Some(v2);
    assert Lookup(fs, k2) == Lookup(fs[1..], k2);
  }

  /** A key that no field carries is not found. */
  lemma GetAbsent(j: Json, key: string)
    requires j.JObject? && forall i :: 0 <= i < |j.fields| ==> j.fields[i].0 != key
    ensures Get(j, key) == None
  {
    LookupFirst(j.fields, key);
  }

  /** Python truthiness of a decoded value. */
  predicate Truthy(j: Json) {
    match j
    case JNull => false
    case JBool(b) => b
    case JInt(i) => i != 0
    case JString(s) => s != ""
    case JArray(xs) => xs != []
    case JObject(fs) => fs != []
  }

  /** Truthiness of `value.get(key)`, where an absent key reads as `None`. */
  predicate TruthyOpt(o: Option<Json>) {
    o.Some? && Truthy(o.value)
  }

  /** The name Python gives the type of a decoded value. */
  function TypeName(j: Json): string {
    match j
    case JNull => "NoneType"
    case JBool(_) => "bool"
    case JInt(_) => "int"
    case JString(_) => "str"
    case JArray(_) => "list"
    case JObject(_) => "dict"
  }

  // ---------------------------------------------------------------------
  // json.dumps
  // ---------------------------------------------------------------------

  /** One lower-case hexadecimal digit. */
  function HexDigit(d: nat): (c: char)
    requires d < 16
    ensures ('0' <= c <= '9' || 'a' <= c <= 'f') && (d < 10 <==> c <= '9')
  {
    if d < 10 then ('0' as int + d) as char else ('a' as int + d - 10) as char
  }

  /** `\uXXXX` with four lower-case hex digits, as the encoder writes it. */
  function UnicodeEscape(n: nat): (r: string)
    requires n < 0x10000
    ensures |r| == 6 && forall k :: 0 <= k < |r| ==> Safe(r[k], true)
  {
    "\\u" + [HexDigit(n / 4096), HexDigit(n / 256 % 16), HexDigit(n / 16 % 16), HexDigit(n % 16)]
  }

  /** A character the encoder may leave in its output: never a newline, and
      only printable ASCII when `ensure_ascii` is on. */
  predicate Safe(c: char, ascii: bool) {
    c != '\n' && (ascii ==> 0x20 <= c as int <= 0x7e)
  }

  /** How `json.dumps` writes one character of a string. */
  function EscapeChar(c: char, ascii: bool): (r: string)
    ensures forall k :: 0 <= k < |r| ==> Safe(r[k], ascii)
  {
    var n := c as int;
    if c == '"' then "\\\""
    else if c == '\\' then "\\\\"
    else if c == '\n' then "\\n"
    else if c == '\r' then "\\r"
    else if c == '\t' then "\\t"
    else if n == 8 then "\\b"
    else if n == 12 then "\\f"
    else if n < 0x20 then UnicodeEscape(n)
    else if ascii && n > 0x7e then
      if n < 0x10000 then UnicodeEscape(n)
      else
        var v := n - 0x10000;
        UnicodeEscape(0xd800 + v / 1024) + UnicodeEscape(0xdc00 + v % 1024)
    else [c]
  }

  function EscapeString(s: string, ascii: bool): (r: string)
    ensures forall k :: 0 <= k < |r| ==> Safe(r[k], ascii)
  {
    if |s| == 0 then ""
    else
      var head := EscapeChar(s[0], ascii);
      var tail := EscapeString(s[1..], ascii);
      assert forall k :: |head| <= k < |head + tail| ==> (head + tail)[k] == tail[k - |head|];
      head + tail
  }

  /** A JSON string literal. */
  function Quote(s: string, ascii: bool): string {
    "\"" + EscapeString(s, ascii) + "\""
  }

  /** A value `json.loads` can give back unchanged after `json.dumps`: the
      keys of every object are distinct (`loads` keeps only the last of
      repeated keys) and every integer is within CPython's digit limit
      (beyond it `loads` raises `ValueError`). */
  predicate Canonical(j: Json) {
    match j
    case JInt(i) => DigitCount(i) <= MaxStrDigits
    case JArray(xs) => forall k :: 0 <= k < |xs| ==> Canonical(xs[k])
    case JObject(fs) =>
      && (forall a, b :: 0 <= a < b < |fs| ==> fs[a].0 != fs[b].0)
      && (forall k :: 0 <= k < |fs| ==> Canonical(fs[k].1))
    case _ => true
  }

  /** `json.dumps(value, ensure_ascii=ascii)` with the default separators
      `", "` and `": "`. */
  function Dumps(j: Json, ascii: bool): string {
    match j
    case JNull => "null"
    case JBool(b) => if b then "true" else "false"
    case JInt(i) => IntToString(i)
    case JString(s) => Quote(s, ascii)
    case JArray(xs) =>
      "[" + Join(seq(|xs|, k requires 0 <= k < |xs| => Dumps(xs[k], ascii)), ", ") + "]"
    case JObject(fs) =>
      "{" + Join(seq(|fs|, k requires 0 <= k < |fs| => Quote(fs[k].0, ascii) + ": " + Dumps(fs[k].1, ascii)), ", ") + "}"
  }

  lemma AllSafeConcat(a: string, b: string, ascii: bool)
    requires forall k :: 0 <= k < |a| ==> Safe(a[k], ascii)
    requires forall k :: 0 <= k < |b| ==> Safe(b[k], ascii)
    ensures forall k :: 0 <= k < |a + b| ==> Safe((a + b)[k], ascii)
  {
    forall k | 0 <= k < |a + b| ensures Safe((a + b)[k], ascii) {
      if k >= |a| {
        assert (a + b)[k] == b[k - |a|];
      }
    }
  }

  lemma QuoteSafe(s: string, ascii: bool)
    ensures forall k :: 0 <= k < |Quote(s, ascii)| ==> Safe(Quote(s, ascii)[k], ascii)
  {
    AllSafeConcat("\"", EscapeString(s, ascii), ascii);
    AllSafeConcat("\"" + EscapeString(s, ascii), "\"", ascii);
  }

  /** Every character `json.dumps` writes is safe: the encoding of a value is
      a single line, and pure printable ASCII when `ensure_ascii` is on. */
  lemma {:induction false} DumpsSafe(j: Json, ascii: bool)
    ensures forall k :: 0 <= k < |Dumps(j, ascii)| ==> Safe(Dumps(j, ascii)[k], ascii)
  {
    match j
    case JNull =>
    case JBool(_) =>
    case JInt(i) =>
      IntToStringRoundTrip(i);
    case JString(s) =>
      QuoteSafe(s, ascii);
    case JArray(xs) =>
      var parts := seq(|xs|, k requires 0 <= k < |xs| => Dumps(xs[k], ascii));
      forall k | 0 <= k < |xs| ensures forall m :: 0 <= m < |parts[k]| ==> Safe(parts[k][m], ascii) {
        DumpsSafe(xs[k], ascii);
      }
      JoinAll(parts, ", ", c => Safe(c, ascii));
      AllSafeConcat("[", Join(parts, ", "), ascii);
      AllSafeConcat("[" + Join(parts, ", "), "]", ascii);
    case JObject(fs) =>
      var parts := seq(|fs|, k requires 0 <= k < |fs| => Quote(fs[k].0, ascii) + ": " + Dumps(fs[k].1, ascii));
      forall k | 0 <= k < |fs| ensures forall m :: 0 <= m < |parts[k]| ==> Safe(parts[k][m], ascii) {
        DumpsSafe(fs[k].1, ascii);
        QuoteSafe(fs[k].0, ascii);
        AllSafeConcat(Quote(fs[k].0, ascii), ": ", ascii);
        AllSafeConcat(Quote(fs[k].0, ascii) + ": ", Dumps(fs[k].1, ascii), ascii);
      }
      JoinAll(parts, ", ", c => Safe(c, ascii));
      AllSafeConcat("{", Join(parts, ", "), ascii);
      AllSafeConcat("{" + Join(parts, ", "), "}", ascii);
  }

  /** The encoding of a value never contains a line break. */
  lemma DumpsSingleLine(j: Json, ascii: bool)
    ensures '\n' !in Dumps(j, ascii)
  {
    DumpsSafe(j, ascii);
  }

  // ---------------------------------------------------------------------
  // str() and repr()
  // ---------------------------------------------------------------------

  /** `repr` of one character inside a string literal quoted with `q`.
      Every character above U+00FF is taken as printable. */
  function ReprChar(c: char, q: char): string {
    var n := c as int;
    if c == '\\' then "\\\\"
    else if c == q then ['\\', q]
    else if c == '\t' then "\\t"
    else if c == '\n' then "\\n"
    else if c == '\r' then "\\r"
    else if n < 0x20 || 0x7f <= n <= 0xa0 || n == 0xad then "\\x" + [HexDigit(n / 16), HexDigit(n % 16)]
    else [c]
  }

  function ReprChars(s: string, q: char): string {
    if |s| == 0 then "" else ReprChar(s[0], q) + ReprChars(s[1..], q)
  }

  /** `repr(s)`: single quotes unless the text holds a single quote and no
      double quote. */
  function ReprString(s: string): string {
    var q := if '\'' in s && '"' !in s then '"' else '\'';
    [q] + ReprChars(s, q) + [q]
  }

  /** `repr()` of a decoded value. */
  function Repr(j: Json): string {
    match j
    case JNull => "None"
    case JBool(b) => if b then "True" else "False"
    case JInt(i) => IntToString(i)
    case JString(s) => ReprString(s)
    case JArray(xs) =>
      "[" + Join(seq(|xs|, k requires 0 <= k < |xs| => Repr(xs[k])), ", ") + "]"
    case JObject(fs) =>
      "{" + Join(seq(|fs|, k requires 0 <= k < |fs| => ReprString(fs[k].0) + ": " + Repr(fs[k].1)), ", ") + "}"
  }

  /** `str()` of a decoded value, as an f-string renders it: a string is its
      own text, anything else is its `repr`. */
  function Str(j: Json): string {
    if j.JString? then j.s else Repr(j)
  }
}
