/** Decoded JSON values as the Python program sees them (the objects that
    `response.json()` builds), with Python's `dict.get` and the text that
    `str()` and `repr()` produce for them. */
module PyJson {

  datatype Option<+T> = None | Some(value: T)

  /** A decoded JSON value: None, bool, int, str, list or dict. A dict keeps
      its keys in insertion order, as Python's does. */
  datatype Json =
    | JNull
    | JBool(b: bool)
    | JInt(n: int)
    | JStr(s: string)
    | JList(items: seq<Json>)
    | JDict(fields: seq<Field>)

  datatype Field = Field(key: string, value: Json)

  /** Subscripting a dict: the value of the first entry with `key`, or None
      when the key is absent (where Python raises KeyError). */
  function Lookup(fields: seq<Field>, key: string): (r: Option<Json>)
    ensures r.Some? <==> exists i :: 0 <= i < |fields| && fields[i].key == key
    ensures r.Some? ==> exists i :: 0 <= i < |fields| && fields[i] == Field(key, r.value)
                                  && forall j :: 0 <= j < i ==> fields[j].key != key
  {
    if fields == [] then None
    else if fields[0].key == key then Some(fields[0].value)
    else
      var r := Lookup(fields[1..], key);
      assert forall i :: 1 <= i < |fields| ==> fields[i] == fields[1..][i - 1];
      r
  }

  /** `d.get(key)`: a missing key reads as None. */
  function Get(fields: seq<Field>, key: string): Json {
    match Lookup(fields, key)
    case Some(v) => v
    case None => JNull
  }

  /** Lists and dicts are unhashable: using one as a dict key raises TypeError. */
  predicate Hashable(v: Json) {
    !v.JList? && !v.JDict?
  }

  /** `str(v)`: a string is its own text, everything else is shown as `repr`. */
  function Str(v: Json): string {
    if v.JStr? then v.s else Repr(v)
  }

  /** `repr(v)` for the decoded JSON values. */
  function Repr(v: Json): string {
    match v
    case JNull => "None"
    case JBool(b) => if b then "True" else "False"
    case JInt(n) => IntToString(n)
    case JStr(s) => StrRepr(s)
    case JList(items) =>
      "[" + Join(seq(|items|, i requires 0 <= i < |items| => Repr(items[i]))) + "]"
    case JDict(fields) =>
      "{" + Join(seq(|fields|, i requires 0 <= i < |fields| =>
        assert fields[i] in fields;
        StrRepr(fields[i].key) + ": " + Repr(fields[i].value))) + "}"
  }

  /** Items separated by ", ", as in the repr of a list or a dict. */
  function Join(parts: seq<string>): string {
    if parts == [] then ""
    else if |parts| == 1 then parts[0]
    else parts[0] + ", " + Join(parts[1..])
  }

  /** `repr(s)` for a str: single quotes, unless the text holds a single
      quote and no double quote. */
  function StrRepr(s: string): string {
    var q := if '\'' in s && '"' !in s then '"' else '\'';
    [q] + EscapeAll(s, q) + [q]
  }

  /** A character that `repr` shows as itself inside quotes `q`. */
  predicate Plain(c: char, q: char) {
    c != '\\' && c != q && 0x20 <= c as int && !(0x7f <= c as int < 0xa0)
  }

  /** A str holding no quote and nothing to escape is shown between single
      quotes, unchanged. */
  lemma StrReprOfPlain(s: string)
    requires forall i :: 0 <= i < |s| ==> Plain(s[i], '\'')
    ensures StrRepr(s) == "'" + s + "'"
  {
    EscapeAllOfPlain(s, '\'');
  }

  lemma {:induction false} EscapeAllOfPlain(s: string, q: char)
    requires forall i :: 0 <= i < |s| ==> Plain(s[i], q)
    ensures EscapeAll(s, q) == s
  {
    if s != [] {
      EscapeAllOfPlain(s[1..], q);
      assert s == [s[0]] + s[1..];
    }
  }

  function EscapeAll(s: string, q: char): string {
    if s == [] then "" else Escape(s[0], q) + EscapeAll(s[1..], q)
  }

  function Escape(c: char, q: char): string {
    if c == '\\' then "\\\\"
    else if c == q then ['\\', q]
    else if c == '\t' then "\\t"
    else if c == '\n' then "\\n"
    else if c == '\r' then "\\r"
    else if c as int < 0x20 || 0x7f <= c as int < 0xa0 then
      "\\x" + [HexDigit(c as int / 16), HexDigit(c as int % 16)]
    else [c]
  }

  function HexDigit(d: int): char
    requires 0 <= d < 16
  {
    "0123456789abcdef"[d]
  }

  /** Decimal text of an integer, with a leading '-' when negative. */
  function IntToString(n: int): string {
    if n < 0 then "-" + NatToString(-n) else NatToString(n)
  }

  function NatToString(n: nat): string {
    if n < 10 then ["0123456789"[n]]
    else NatToString(n / 10) + ["0123456789"[n % 10]]
  }
}
