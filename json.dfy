/** Parsed JSON documents, as `JSON.parse` hands them to the status and button code, and
    the parts of JavaScript's `String(value)` that the templates need. */
module Json {
  import opened Wrappers

  /** One own property of a parsed object. */
  datatype Field = Field(key: string, value: Json)

  /** A parsed JSON value. An object's fields are listed in the order
      `Object.entries` enumerates them; `JSON.parse` leaves no duplicate keys. Numbers are
      integers in this model. */
  datatype Json =
    | JNull
    | JBool(b: bool)
    | JNum(n: int)
    | JStr(s: string)
    | JArr(items: seq<Json>)
    | JObj(fields: seq<Field>)

  /** `obj[key]` on a parsed object: the value of the field named `key`, `None` for `undefined`. */
  function Get(fs: seq<Field>, key: string): (r: Option<Json>)
    ensures r.Some? <==> exists i :: 0 <= i < |fs| && fs[i].key == key
    ensures r.Some? ==> exists i :: 0 <= i < |fs| && fs[i] == Field(key, r.value)
  {
    if fs == [] then None
    else if fs[0].key == key then Some(fs[0].value)
    else
      var r := Get(fs[1..], key);
      assert forall i :: 0 <= i < |fs[1..]| ==> fs[1..][i] == fs[i + 1];
      r
  }

  /** `obj[key]` finds the first field named `key`. */
  lemma {:induction false} GetField(fs: seq<Field>, i: nat)
    requires i < |fs| && forall j :: 0 <= j < i ==> fs[j].key != fs[i].key
    ensures Get(fs, fs[i].key) == Some(fs[i].value)
  {
    if i > 0 {
      assert fs[1..][i - 1] == fs[i];
      GetField(fs[1..], i - 1);
    }
  }

  /** `value?.key` where `value` is any parsed document: only objects have properties here. */
  function Property(doc: Json, key: string): Option<Json>
  {
    if doc.JObj? then Get(doc.fields, key) else None
  }

  /** `value instanceof Object` for a parsed document: objects and arrays, not scalars or null. */
  predicate IsObjectLike(doc: Json)
  {
    doc.JObj? || doc.JArr?
  }

  predicate IsDigit(c: char)
  {
    '0' <= c <= '9'
  }

  function DigitChar(d: nat): (c: char)
    requires d < 10
    ensures IsDigit(c)
  {
    "0123456789"[d]
  }

  function DigitValue(c: char): (d: nat)
    requires IsDigit(c)
    ensures d < 10
  {
    (c as int - '0' as int) as nat
  }

  /** The decimal text of a non-negative integer, as `String(n)` writes it. */
  function NatToString(n: nat): (r: string)
    ensures |r| >= 1
    ensures forall i :: 0 <= i < |r| ==> IsDigit(r[i])
    ensures r[0] == '0' ==> n == 0
    decreases n
  {
    if n < 10 then [DigitChar(n)] else NatToString(n / 10) + [DigitChar(n % 10)]
  }

  /** Reads a decimal digit string back: the reference that `NatToString` is measured against. */
  function ParseNat(s: string): nat
    requires forall i :: 0 <= i < |s| ==> IsDigit(s[i])
  {
    if s == [] then 0 else ParseNat(s[..|s| - 1]) * 10 + DigitValue(s[|s| - 1])
  }

  lemma {:induction false} ParseNatToString(n: nat)
    ensures ParseNat(NatToString(n)) == n
    decreases n
  {
    var s := NatToString(n);
    if n < 10 {
      assert s == [DigitChar(n)];
      assert s[..0] == [];
    } else {
      ParseNatToString(n / 10);
      assert s[..|s| - 1] == NatToString(n / 10);
      assert DigitValue(s[|s| - 1]) == n % 10;
    }
  }

  /** Two numbers print alike only when they are equal. */
  lemma NatToStringInjective(m: nat, n: nat)
    requires NatToString(m) == NatToString(n)
    ensures m == n
  {
    ParseNatToString(m);
    ParseNatToString(n);
  }

  /** `String(n)` for an integer number. */
  function IntToString(n: int): (r: string)
    ensures |r| >= 1
    ensures (r[0] == '-') <==> n < 0
  {
    if n < 0 then "-" + NatToString(-n) else NatToString(n)
  }

  /** `parts.join(sep)`. */
  function Join(parts: seq<string>, sep: string): (r: string)
    ensures |parts| == 1 ==> r == parts[0]
  {
    if parts == [] then ""
    else if |parts| == 1 then parts[0]
    else Join(parts[..|parts| - 1], sep) + sep + parts[|parts| - 1]
  }

  /** `s.split(sep)` for a one-character separator: the pieces between separators, so
      `n` separators give `n + 1` pieces. */
  function Split(s: string, sep: char): (r: seq<string>)
    ensures |r| >= 1
    decreases |s|
  {
    if s == [] then [""]
    else
      var init := Split(s[..|s| - 1], sep);
      if s[|s| - 1] == sep then init + [""]
      else init[..|init| - 1] + [init[|init| - 1] + [s[|s| - 1]]]
  }

  lemma {:induction false} SplitNoSeparator(s: string, sep: char)
    requires sep !in s
    ensures Split(s, sep) == [s]
    decreases |s|
  {
    if s != [] {
      SplitNoSeparator(s[..|s| - 1], sep);
      assert s[..|s| - 1] + [s[|s| - 1]] == s;
    }
  }

  lemma {:induction false} SplitAfterSeparator(x: string, sep: char, tail: string)
    requires sep !in tail
    ensures Split(x + [sep] + tail, sep) == Split(x, sep) + [tail]
    decreases |tail|
  {
    var s := x + [sep] + tail;
    if tail == [] {
      assert s[..|s| - 1] == x;
    } else {
      var t := tail[..|tail| - 1];
      assert s[..|s| - 1] == x + [sep] + t;
      assert tail[|tail| - 1] in tail;
      SplitAfterSeparator(x, sep, t);
      assert t + [tail[|tail| - 1]] == tail;
    }
  }

  /** Splitting undoes joining, as long as no part holds the separator. */
  lemma {:induction false} SplitJoin(parts: seq<string>, sep: char)
    requires |parts| >= 1 && forall i :: 0 <= i < |parts| ==> sep !in parts[i]
    ensures Split(Join(parts, [sep]), sep) == parts
    decreases |parts|
  {
    if |parts| == 1 {
      SplitNoSeparator(parts[0], sep);
    } else {
      var init := parts[..|parts| - 1];
      SplitJoin(init, sep);
      SplitAfterSeparator(Join(init, [sep]), sep, parts[|parts| - 1]);
    }
  }

  /** `String(value)` for a parsed JSON value: arrays print as their elements joined by
      commas (a null element prints as nothing) and every object as `[object Object]`. */
  function JsString(v: Json): string
  {
    match v
    case JNull => "null"
    case JBool(b) => if b then "true" else "false"
    case JNum(n) => IntToString(n)
    case JStr(s) => s
    case JArr(items) => Join(ArrayElementStrings(items), ",")
    case JObj(_) => "[object Object]"
  }

  function ArrayElementStrings(items: seq<Json>): (r: seq<string>)
    ensures |r| == |items|
    decreases items
  {
    if items == [] then []
    else
      var last := items[|items| - 1];
      ArrayElementStrings(items[..|items| - 1]) + [if last.JNull? then "" else JsString(last)]
  }

  predicate StartsWith(s: string, prefix: string)
  {
    |prefix| <= |s| && s[..|prefix|] == prefix
  }

  lemma PrefixOfConcat(a: string, b: string)
    ensures StartsWith(a + b, a)
  {
    assert (a + b)[..|a|] == a;
  }
}
