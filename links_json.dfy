/**
 * The socialLinks column holds a JSON object mapping platform keys to link strings. This module
 * gives that object as a list of entries in property order, JSON.stringify for it (no white
 * space, JSON string escaping as ECMAScript's QuoteJSONString writes it) and JSON.parse
 * restricted to objects whose values are all strings.
 */
module LinksJson {
  import opened Wrappers
  import Utf8
  import Strings

  /** The properties of a parsed object, in their enumeration order. */
  type Links = seq<(string, string)>

  /**
   * An array index key: the canonical decimal text of an integer below 2^32 - 1, that is,
   * a key that the number it denotes prints back as.
   */
  predicate IsIndexKey(k: string) {
    Strings.AllDecimalDigits(k) && Strings.NatToDecimal(Strings.DecimalValue(k)) == k
    && Strings.DecimalValue(k) < 0xFFFF_FFFF
  }

  /** x may come before every key of `keys`: any index key there is preceded only by a smaller index key. */
  predicate PrecedesAll(x: string, keys: set<string>) {
    forall y :: y in keys && IsIndexKey(y) ==>
      IsIndexKey(x) && Strings.DecimalValue(x) < Strings.DecimalValue(y)
  }

  /**
   * The order in which an ordinary ECMAScript object enumerates its own string keys
   * (OrdinaryOwnPropertyKeys, section 10.1.11.1 of ECMA-262): array index keys first, in
   * ascending numeric order, then the other keys in the order they were created.
   */
  predicate JsOrdered(l: Links) {
    l == [] || (PrecedesAll(l[0].0, Keys(l[1..])) && JsOrdered(l[1..]))
  }

  function Keys(l: Links): set<string> {
    if l == [] then {} else {l[0].0} + Keys(l[1..])
  }

  /** No property name occurs twice (true of every JavaScript object). */
  predicate DistinctKeys(l: Links) {
    l == [] || (l[0].0 !in Keys(l[1..]) && DistinctKeys(l[1..]))
  }

  /** obj[k]: the value of the first property named k. */
  function Lookup(l: Links, k: string): Option<string> {
    if l == [] then None
    else if l[0].0 == k then Some(l[0].1)
    else Lookup(l[1..], k)
  }

  /** The lookup finds a value exactly when the key is present, and the value is that entry's. */
  lemma {:induction false} LookupFinds(l: Links, k: string)
    ensures Lookup(l, k).Some? <==> k in Keys(l)
    ensures Lookup(l, k).Some? ==> exists i :: 0 <= i < |l| && l[i] == (k, Lookup(l, k).value)
  {
    if l != [] && l[0].0 != k {
      LookupFinds(l[1..], k);
      if Lookup(l, k).Some? {
        var i :| 0 <= i < |l[1..]| && l[1..][i] == (k, Lookup(l, k).value);
        assert l[i + 1] == (k, Lookup(l, k).value);
      }
    } else if l != [] {
      assert l[0] == (k, l[0].1);
    }
  }

  lemma {:induction false} KeysAppend(a: Links, b: Links)
    ensures Keys(a + b) == Keys(a) + Keys(b)
  {
    if a != [] {
      assert (a + b)[1..] == a[1..] + b;
      KeysAppend(a[1..], b);
    } else {
      assert a + b == b;
    }
  }

  lemma {:induction false} DistinctAppend(a: Links, b: Links)
    ensures DistinctKeys(a + b) <==> DistinctKeys(a) && DistinctKeys(b) && Keys(a) !! Keys(b)
  {
    if a != [] {
      assert (a + b)[1..] == a[1..] + b;
      assert (a + b)[0] == a[0];
      DistinctAppend(a[1..], b);
      KeysAppend(a[1..], b);
    } else {
      assert a + b == b;
    }
  }

  // ---------------------------------------------------------------------------------------
  // JSON.stringify

  function HexDigit(d: nat): (c: char)
    requires d < 16
  {
    if d < 10 then ('0' as int + d) as char else ('a' as int + d - 10) as char
  }

  /** How JSON.stringify writes one character inside a string literal. */
  function EscapeChar(c: char): (e: string)
    ensures |e| > 0
  {
    var n := c as int;
    if c == '"' then "\\\""
    else if c == '\\' then "\\\\"
    else if n == 0x08 then "\\b"
    else if n == 0x09 then "\\t"
    else if n == 0x0A then "\\n"
    else if n == 0x0C then "\\f"
    else if n == 0x0D then "\\r"
    else if n < 0x20 then "\\u00" + [HexDigit(n / 16), HexDigit(n % 16)]
    else [c]
  }

  function Escape(s: string): string {
    if s == [] then "" else EscapeChar(s[0]) + Escape(s[1..])
  }

  function Quote(s: string): string {
    "\"" + Escape(s) + "\""
  }

  function Entry(e: (string, string)): string {
    Quote(e.0) + ":" + Quote(e.1)
  }

  function Members(l: Links): string {
    if l == [] then ""
    else if |l| == 1 then Entry(l[0])
    else Entry(l[0]) + "," + Members(l[1..])
  }

  /** JSON.stringify of an object whose property values are strings. */
  function Stringify(l: Links): (t: string)
    ensures |t| >= 2 && t[0] == '{' && t[|t| - 1] == '}'
    ensures t == "{}" <==> l == []
  {
    assert l != [] ==> Entry(l[0])[0] == '"';
    "{" + Members(l) + "}"
  }

  // ---------------------------------------------------------------------------------------
  // JSON.parse

  predicate IsJsonWs(c: char) {
    c == ' ' || c == '\t' || c == '\n' || c == '\r'
  }

  function SkipWs(s: string): (r: string)
    ensures |r| <= |s| && r == s[|s| - |r|..]
    ensures r == [] || !IsJsonWs(r[0])
  {
    if |s| > 0 && IsJsonWs(s[0]) then SkipWs(s[1..]) else s
  }

  function HexValue(c: char): Option<nat> {
    if '0' <= c <= '9' then Some(c as int - '0' as int)
    else if 'a' <= c <= 'f' then Some(c as int - 'a' as int + 10)
    else if 'A' <= c <= 'F' then Some(c as int - 'A' as int + 10)
    else None
  }

  function ParseHex4(s: string): Option<nat>
    requires |s| == 4
  {
    var h0, h1, h2, h3 := HexValue(s[0]), HexValue(s[1]), HexValue(s[2]), HexValue(s[3]);
    if h0.None? || h1.None? || h2.None? || h3.None? then None
    else Some(((h0.value * 16 + h1.value) * 16 + h2.value) * 16 + h3.value)
  }

  /** Reads the escape sequence at the start of `s`: the character it stands for and its length. */
  function DecodeEscape(s: string): (r: Option<(char, nat)>)
    requires |s| >= 2 && s[0] == '\\'
    ensures r.Some? ==> 2 <= r.value.1 <= |s|
  {
    var e := s[1];
    if e == '"' then Some(('"', 2))
    else if e == '\\' then Some(('\\', 2))
    else if e == '/' then Some(('/', 2))
    else if e == 'b' then Some((0x08 as char, 2))
    else if e == 'f' then Some((0x0C as char, 2))
    else if e == 'n' then Some((0x0A as char, 2))
    else if e == 'r' then Some((0x0D as char, 2))
    else if e == 't' then Some((0x09 as char, 2))
    else if e == 'u' && |s| >= 6 then
      match ParseHex4(s[2..6])
      case Some(n) =>
        if Utf8.IsScalar(n) then Some((n as char, 6))
        else if IsHighSurrogate(n) && |s| >= 12 && s[6] == '\\' && s[7] == 'u' then
          match ParseHex4(s[8..12])
          case Some(m) => if IsLowSurrogate(m) then Some((SurrogatePair(n, m), 12)) else None
          case None => None
        else None
      case None => None
    else None
  }

  /** A surrogate pair written as two escapes reads as the one character it encodes. */
  lemma SurrogatePairEscape(u: string)
    ensures DecodeEscape("\\ud83d\\ude00" + u) == Some((0x1_F600 as char, 12))
  {
    var s := "\\ud83d\\ude00" + u;
    assert s[2..6] == "d83d" && s[8..12] == "de00";
    assert ParseHex4(s[2..6]) == Some(0xD83D);
    assert ParseHex4(s[8..12]) == Some(0xDE00);
  }

  predicate IsHighSurrogate(n: int) { 0xD800 <= n < 0xDC00 }

  predicate IsLowSurrogate(n: int) { 0xDC00 <= n < 0xE000 }

  /** The supplementary-plane character a UTF-16 surrogate pair stands for. */
  function SurrogatePair(hi: int, lo: int): (c: char)
    requires IsHighSurrogate(hi) && IsLowSurrogate(lo)
    ensures 0x1_0000 <= c as int < 0x11_0000
    ensures (c as int - 0x1_0000) / 0x400 == hi - 0xD800 && (c as int - 0x1_0000) % 0x400 == lo - 0xDC00
  {
    (0x1_0000 + (hi - 0xD800) * 0x400 + (lo - 0xDC00)) as char
  }

  function Prepend(c: char, r: Option<(string, string)>): Option<(string, string)> {
    match r
    case None => None
    case Some((str, rest)) => Some(([c] + str, rest))
  }

  /** Reads the body of a string literal, after its opening quote, through its closing quote. */
  function ParseChars(s: string): (r: Option<(string, string)>)
    ensures r.Some? ==> |r.value.1| < |s|
    decreases |s|
  {
    if s == [] then None
    else if s[0] == '"' then Some(("", s[1..]))
    else if (s[0] as int) < 0x20 then None
    else if s[0] == '\\' then
      if |s| < 2 then None
      else
        match DecodeEscape(s)
        case None => None
        case Some((c, k)) => Prepend(c, ParseChars(s[k..]))
    else Prepend(s[0], ParseChars(s[1..]))
  }

  function ParseString(s: string): (r: Option<(string, string)>)
    ensures r.Some? ==> |r.value.1| < |s|
  {
    if |s| > 0 && s[0] == '"' then ParseChars(s[1..]) else None
  }

  /**
   * Assigning obj[k] = v: an existing key keeps its place; a new array index key goes before
   * the first key that is not an index or is a larger index, any other new key goes last.
   */
  function InsertEntry(l: Links, k: string, v: string): Links {
    if l == [] then [(k, v)]
    else if l[0].0 == k then [(k, v)] + l[1..]
    else if IsIndexKey(k) && k !in Keys(l) && Before(k, l[0].0) then [(k, v)] + l
    else [l[0]] + InsertEntry(l[1..], k, v)
  }

  /** An index key k enumerates before `other`. */
  predicate Before(k: string, other: string)
    requires IsIndexKey(k)
  {
    !IsIndexKey(other) || Strings.DecimalValue(k) < Strings.DecimalValue(other)
  }

  lemma {:induction false} InsertEntryKeys(l: Links, k: string, v: string)
    ensures Keys(InsertEntry(l, k, v)) == Keys(l) + {k}
    ensures DistinctKeys(l) ==> DistinctKeys(InsertEntry(l, k, v))
    ensures Lookup(InsertEntry(l, k, v), k) == Some(v)
  {
    var r := InsertEntry(l, k, v);
    if l == [] {
    } else if l[0].0 == k {
      assert r[1..] == l[1..];
    } else if IsIndexKey(k) && k !in Keys(l) && Before(k, l[0].0) {
      assert r[1..] == l;
    } else {
      InsertEntryKeys(l[1..], k, v);
      assert r[1..] == InsertEntry(l[1..], k, v);
    }
  }

  /** Assigning obj[k] leaves every other property's value as it was. */
  lemma {:induction false} InsertEntryOthers(l: Links, k: string, v: string, k2: string)
    requires k2 != k
    ensures Lookup(InsertEntry(l, k, v), k2) == Lookup(l, k2)
  {
    var r := InsertEntry(l, k, v);
    if l == [] {
    } else if l[0].0 == k {
      assert r[1..] == l[1..];
    } else if IsIndexKey(k) && k !in Keys(l) && Before(k, l[0].0) {
      assert r[1..] == l;
    } else {
      InsertEntryOthers(l[1..], k, v, k2);
      assert r[1..] == InsertEntry(l[1..], k, v);
    }
  }

  /** Assignment keeps an object's keys in enumeration order. */
  lemma {:induction false} InsertEntryOrdered(l: Links, k: string, v: string)
    ensures JsOrdered(l) ==> JsOrdered(InsertEntry(l, k, v))
  {
    var r := InsertEntry(l, k, v);
    if l == [] {
      assert r[1..] == [];
    } else if l[0].0 == k {
      assert r[1..] == l[1..];
    } else if IsIndexKey(k) && k !in Keys(l) && Before(k, l[0].0) {
      assert r[1..] == l;
    } else if JsOrdered(l) {
      InsertEntryOrdered(l[1..], k, v);
      InsertEntryKeys(l[1..], k, v);
      assert r[1..] == InsertEntry(l[1..], k, v);
      if IsIndexKey(k) && k !in Keys(l) {
        assert IsIndexKey(l[0].0) && Strings.DecimalValue(l[0].0) < Strings.DecimalValue(k);
      }
      assert PrecedesAll(l[0].0, Keys(r[1..]));
    }
  }

  /** A key with no index key at or after it in the enumeration order goes last. */
  predicate Follows(keys: set<string>, k: string) {
    IsIndexKey(k) ==> forall y :: y in keys ==> IsIndexKey(y) && Strings.DecimalValue(y) < Strings.DecimalValue(k)
  }

  lemma {:induction false} InsertNew(l: Links, k: string, v: string)
    requires k !in Keys(l) && Follows(Keys(l), k)
    ensures InsertEntry(l, k, v) == l + [(k, v)]
  {
    if l != [] {
      assert l[0].0 in Keys(l);
      InsertNew(l[1..], k, v);
      assert [l[0]] + (l[1..] + [(k, v)]) == l + [(k, v)];
    }
  }

  /** In an object in enumeration order, every key of a later part follows the earlier part. */
  lemma {:induction false} OrderedAppend(a: Links, b: Links, y: string)
    requires JsOrdered(a + b) && y in Keys(b)
    ensures Follows(Keys(a), y)
  {
    if a != [] {
      assert (a + b)[1..] == a[1..] + b;
      assert (a + b)[0] == a[0];
      KeysAppend(a[1..], b);
      OrderedAppend(a[1..], b, y);
    }
  }

  /** Reads `"key" : "value"` with the white space around it, and the white space after it. */
  function ParseEntry(s: string): (r: Option<(string, string, string)>)
    ensures r.Some? ==> |r.value.2| < |s|
  {
    match ParseString(SkipWs(s))
    case None => None
    case Some((k, r1)) =>
      var r2 := SkipWs(r1);
      if |r2| == 0 || r2[0] != ':' then None
      else
        match ParseString(SkipWs(r2[1..]))
        case None => None
        case Some((v, r3)) => Some((k, v, SkipWs(r3)))
  }

  /** Reads `"key" : "value"` pairs separated by ',' up to the closing '}'. */
  function ParseMembers(s: string, acc: Links): (r: Option<(Links, string)>)
    ensures DistinctKeys(acc) && r.Some? ==> DistinctKeys(r.value.0)
    ensures JsOrdered(acc) && r.Some? ==> JsOrdered(r.value.0)
    decreases |s|, 1
  {
    AfterEntry(|s|, ParseEntry(s), acc)
  }

  /** What may follow a member read from a text of length n: ',' and more members, or '}'. */
  function AfterEntry(n: nat, e: Option<(string, string, string)>, acc: Links): (r: Option<(Links, string)>)
    requires e.Some? ==> |e.value.2| < n
    ensures DistinctKeys(acc) && r.Some? ==> DistinctKeys(r.value.0)
    ensures JsOrdered(acc) && r.Some? ==> JsOrdered(r.value.0)
    decreases n, 0
  {
    match e
    case None => None
    case Some((k, v, rest)) =>
      InsertEntryKeys(acc, k, v);
      InsertEntryOrdered(acc, k, v);
      if |rest| > 0 && rest[0] == ',' then ParseMembers(rest[1..], InsertEntry(acc, k, v))
      else if |rest| > 0 && rest[0] == '}' then Some((InsertEntry(acc, k, v), rest[1..]))
      else None
  }

  /** Reads an object literal at the start of `t` and returns it with the text after it. */
  function ParseObject(t: string): (r: Option<(Links, string)>)
    ensures r.Some? ==> DistinctKeys(r.value.0) && JsOrdered(r.value.0)
  {
    if |t| == 0 || t[0] != '{' then None
    else
      var u := SkipWs(t[1..]);
      if |u| > 0 && u[0] == '}' then Some(([], u[1..])) else ParseMembers(u, [])
  }

  /**
   * JSON.parse, for texts that denote an object whose property values are all strings;
   * None where it throws. Every object it produces has distinct keys, in enumeration order.
   */
  function Parse(s: string): (r: Option<Links>)
    ensures r.Some? ==> DistinctKeys(r.value) && JsOrdered(r.value)
  {
    match ParseObject(SkipWs(s))
    case None => None
    case Some((l, rest)) => if SkipWs(rest) == [] then Some(l) else None
  }

  // ---------------------------------------------------------------------------------------
  // Round trip

  lemma HexRoundTrip(d: nat)
    requires d < 16
    ensures HexValue(HexDigit(d)) == Some(d)
  {
  }

  /** Reading an escape sequence and then the rest. */
  lemma EscapeStep(s: string, c: char, k: nat, u: string)
    requires |s| >= 2 && s[0] == '\\' && DecodeEscape(s) == Some((c, k)) && s[k..] == u
    ensures ParseChars(s) == Prepend(c, ParseChars(u))
  {
  }

  lemma UnicodeEscape(n: nat, u: string)
    requires n < 0x20
    ensures DecodeEscape("\\u00" + [HexDigit(n / 16), HexDigit(n % 16)] + u) == Some((n as char, 6))
  {
    var hi, lo := n / 16, n % 16;
    var s := "\\u00" + [HexDigit(hi), HexDigit(lo)] + u;
    HexRoundTrip(hi);
    HexRoundTrip(lo);
    assert s[2..6] == ['0', '0', HexDigit(hi), HexDigit(lo)];
    assert hi * 16 + lo == n;
    assert ParseHex4(s[2..6]) == Some(n);
  }

  lemma {:induction false} ParseEscapedChar(c: char, u: string)
    ensures ParseChars(EscapeChar(c) + u) == Prepend(c, ParseChars(u))
  {
    var n := c as int;
    var s := EscapeChar(c) + u;
    if c == '"' || c == '\\' || n == 0x08 || n == 0x09 || n == 0x0A || n == 0x0C || n == 0x0D {
      assert s[2..] == u;
      EscapeStep(s, c, 2, u);
    } else if n < 0x20 {
      UnicodeEscape(n, u);
      assert s[6..] == u;
      EscapeStep(s, c, 6, u);
    } else {
      assert s[1..] == u;
    }
  }

  lemma {:induction false} ParseEscaped(k: string, t: string)
    ensures ParseChars(Escape(k) + "\"" + t) == Some((k, t))
  {
    if k == [] {
      assert Escape(k) + "\"" + t == "\"" + t;
      assert ("\"" + t)[1..] == t;
    } else {
      var e := EscapeChar(k[0]);
      assert Escape(k) + "\"" + t == e + (Escape(k[1..]) + "\"" + t);
      ParseEscapedChar(k[0], Escape(k[1..]) + "\"" + t);
      ParseEscaped(k[1..], t);
      assert [k[0]] + k[1..] == k;
    }
  }

  lemma ParseQuoted(k: string, t: string)
    ensures ParseString(Quote(k) + t) == Some((k, t))
  {
    var s := Quote(k) + t;
    assert s[1..] == Escape(k) + "\"" + t;
    ParseEscaped(k, t);
  }

  lemma SkipWsNoop(s: string)
    requires s == [] || !IsJsonWs(s[0])
    ensures SkipWs(s) == s
  {
  }

  /** After the key and its colon, the value literal is read back. */
  lemma ParseValueOfEntry(v: string, tail: string)
    requires tail == [] || !IsJsonWs(tail[0])
    ensures ParseString(SkipWs((":" + Quote(v) + tail)[1..])) == Some((v, tail))
  {
    var q := Quote(v);
    DropFirst(':', q, tail);
    assert (q + tail)[0] == '"';
    SkipWsNoop(q + tail);
    ParseQuoted(v, tail);
  }

  lemma ParseEntryOfEntry(e: (string, string), tail: string)
    requires tail == [] || !IsJsonWs(tail[0])
    ensures ParseEntry(Entry(e) + tail) == Some((e.0, e.1, tail))
  {
    var r2 := ":" + Quote(e.1) + tail;
    var s := Entry(e) + tail;
    Assoc(Quote(e.0) + ":", Quote(e.1), tail);
    Assoc(Quote(e.0), ":", Quote(e.1) + tail);
    Assoc(":", Quote(e.1), tail);
    assert s == Quote(e.0) + r2;
    SkipWsNoop(s);
    ParseQuoted(e.0, r2);
    SkipWsNoop(r2);
    ParseValueOfEntry(e.1, tail);
    SkipWsNoop(tail);
  }

  lemma ParseMembersLast(e: (string, string), t: string, acc: Links)
    ensures ParseMembers(Entry(e) + ("}" + t), acc) == Some((InsertEntry(acc, e.0, e.1), t))
  {
    var tail := "}" + t;
    ParseEntryOfEntry(e, tail);
    assert tail[0] == '}' && tail[1..] == t;
    var s := Entry(e) + tail;
    match ParseEntry(s)
    case Some((k, v, rest)) =>
      assert k == e.0 && v == e.1 && rest == tail;
      assert ParseMembers(s, acc) == Some((InsertEntry(acc, k, v), rest[1..]));
  }

  lemma ParseMembersNext(e: (string, string), rest: string, acc: Links)
    ensures ParseMembers(Entry(e) + ("," + rest), acc) == ParseMembers(rest, InsertEntry(acc, e.0, e.1))
  {
    ParseEntryOfEntry(e, "," + rest);
    assert ("," + rest)[1..] == rest;
  }

  lemma ShiftEntry(acc: Links, l: Links)
    requires l != [] && DistinctKeys(acc + l) && JsOrdered(acc + l)
    ensures InsertEntry(acc, l[0].0, l[0].1) == acc + [l[0]]
    ensures (acc + [l[0]]) + l[1..] == acc + l
  {
    DistinctAppend(acc, l);
    assert l[0].0 in Keys(l);
    OrderedAppend(acc, l, l[0].0);
    InsertNew(acc, l[0].0, l[0].1);
    assert [l[0]] + l[1..] == l;
    Assoc(acc, [l[0]], l[1..]);
  }

  lemma MembersSplit(l: Links, t: string)
    requires l != []
    ensures |l| == 1 ==> Members(l) + "}" + t == Entry(l[0]) + ("}" + t)
    ensures |l| > 1 ==> Members(l) + "}" + t == Entry(l[0]) + ("," + (Members(l[1..]) + "}" + t))
  {
    var x := Entry(l[0]);
    if |l| == 1 {
      Assoc(x, "}", t);
    } else {
      var m := Members(l[1..]);
      assert Members(l) == x + "," + m;
      Assoc(x, ",", m);
      Assoc(x + ("," + m), "}", t);
      Assoc(x, "," + m, "}" + t);
      Assoc(",", m, "}" + t);
      Assoc(m, "}", t);
    }
  }

  lemma DropFirst<T>(x: T, a: seq<T>, b: seq<T>)
    ensures ([x] + a + b)[1..] == a + b
  {
    assert [x] + a + b == [x] + (a + b);
  }

  lemma Assoc<T>(a: seq<T>, b: seq<T>, c: seq<T>)
    ensures a + b + c == a + (b + c)
  {
  }

  /** The object built by assigning the entries of l, in order, to the properties of acc. */
  function AssignAll(acc: Links, l: Links): Links
    decreases |l|
  {
    if l == [] then acc else AssignAll(InsertEntry(acc, l[0].0, l[0].1), l[1..])
  }

  /** The object a literal with the members l denotes. */
  function FromEntries(l: Links): Links {
    AssignAll([], l)
  }

  lemma {:induction false} ParseMembersRoundTrip(l: Links, acc: Links, t: string)
    requires l != []
    ensures ParseMembers(Members(l) + "}" + t, acc) == Some((AssignAll(acc, l), t))
    decreases |l|
  {
    var e := l[0];
    var acc' := InsertEntry(acc, e.0, e.1);
    assert AssignAll(acc, l) == AssignAll(acc', l[1..]);
    MembersSplit(l, t);
    if |l| == 1 {
      ParseMembersLast(e, t, acc);
      assert AssignAll(acc', l[1..]) == acc';
    } else {
      ParseMembersNext(e, Members(l[1..]) + "}" + t, acc);
      ParseMembersRoundTrip(l[1..], acc', t);
    }
  }

  /** Assigning entries whose keys are new and already in enumeration order appends them. */
  lemma {:induction false} AssignInOrder(acc: Links, l: Links)
    requires DistinctKeys(acc + l) && JsOrdered(acc + l)
    ensures AssignAll(acc, l) == acc + l
    decreases |l|
  {
    if l == [] {
      assert acc + l == acc;
    } else {
      ShiftEntry(acc, l);
      AssignInOrder(acc + [l[0]], l[1..]);
    }
  }

  /** The properties after the assignments: the keys of acc and l, each with its latest value. */
  lemma {:induction false} AssignAllShape(acc: Links, l: Links, k: string)
    requires DistinctKeys(l)
    ensures Keys(AssignAll(acc, l)) == Keys(acc) + Keys(l)
    ensures DistinctKeys(acc) ==> DistinctKeys(AssignAll(acc, l))
    ensures JsOrdered(acc) ==> JsOrdered(AssignAll(acc, l))
    ensures Lookup(AssignAll(acc, l), k) == if k in Keys(l) then Lookup(l, k) else Lookup(acc, k)
    decreases |l|
  {
    if l != [] {
      var e := l[0];
      InsertEntryKeys(acc, e.0, e.1);
      InsertEntryOrdered(acc, e.0, e.1);
      if k != e.0 {
        InsertEntryOthers(acc, e.0, e.1, k);
      }
      AssignAllShape(InsertEntry(acc, e.0, e.1), l[1..], k);
    }
  }

  /**
   * The object a literal denotes has exactly the literal's keys, each with its value, in
   * enumeration order; when the literal already lists them in that order it is that order.
   */
  lemma FromEntriesShape(l: Links, k: string)
    requires DistinctKeys(l)
    ensures Keys(FromEntries(l)) == Keys(l)
    ensures DistinctKeys(FromEntries(l)) && JsOrdered(FromEntries(l))
    ensures Lookup(FromEntries(l), k) == Lookup(l, k)
    ensures JsOrdered(l) ==> FromEntries(l) == l
  {
    AssignAllShape([], l, k);
    LookupFinds(l, k);
    assert [] + l == l;
    if JsOrdered(l) {
      AssignInOrder([], l);
    }
  }

  /**
   * An example of the enumeration order that InsertEntryOrdered and FromEntriesShape prove in
   * general: keys that are array indices move before the others, so {"b":…,"1":…} reads as
   * {"1":…,"b":…}.
   */
  lemma IndexKeyMovesFirst(x: string, y: string)
    ensures FromEntries([("b", x), ("1", y)]) == [("1", y), ("b", x)]
  {
    assert Strings.NatToDecimal(1) == "1";
    assert IsIndexKey("1");
    assert !IsIndexKey("b") by { assert !Strings.IsDecimalDigit("b"[0]); }
    assert Keys([("b", x)]) == {"b"};
    assert Before("1", "b");
    assert InsertEntry([], "b", x) == [("b", x)];
    assert InsertEntry([("b", x)], "1", y) == [("1", y), ("b", x)];
    assert AssignAll([("b", x)], [("1", y)]) == AssignAll([("1", y), ("b", x)], []);
  }

  lemma ParseObjectOfEmpty()
    ensures ParseObject(Stringify([])) == Some(([], ""))
  {
    var s := Stringify([]);
    assert s == "{}";
    var u := s[1..];
    assert u == "}";
    SkipWsNoop(u);
    assert u[1..] == "";
  }

  lemma ParseObjectOfMembers(l: Links)
    requires l != []
    ensures ParseObject(Stringify(l)) == Some((FromEntries(l), ""))
  {
    var m := Members(l);
    var s := Stringify(l);
    var u := s[1..];
    DropFirst('{', m, "}");
    MembersSplit(l, "");
    assert m + "}" + "" == u;
    assert Entry(l[0])[0] == '"';
    SkipWsNoop(u);
    ParseMembersRoundTrip(l, [], "");
  }

  /** JSON.parse of what JSON.stringify wrote for the members l is the object the literal denotes. */
  lemma ParseStringified(l: Links)
    ensures Parse(Stringify(l)) == Some(FromEntries(l))
  {
    var s := Stringify(l);
    assert s[0] == '{';
    SkipWsNoop(s);
    if l == [] {
      ParseObjectOfEmpty();
    } else {
      ParseObjectOfMembers(l);
    }
    SkipWsNoop("");
  }

  /** JSON.parse gives back every object JSON.stringify wrote. */
  lemma ParseStringify(l: Links)
    requires DistinctKeys(l) && JsOrdered(l)
    ensures Parse(Stringify(l)) == Some(l)
  {
    ParseStringified(l);
    FromEntriesShape(l, "");
  }

  /** JSON.stringify(JSON.parse(text)), or None when the parse throws. */
  function Reserialise(text: string): (r: Option<string>)
    ensures r.Some? <==> Parse(text).Some?
    ensures r.Some? ==> |r.value| >= 2 && r.value[0] == '{' && r.value[|r.value| - 1] == '}'
  {
    match Parse(text)
    case None => None
    case Some(l) => Some(Stringify(l))
  }

  /** The text written denotes the same object as the text read. */
  lemma ReserialiseSameObject(text: string)
    requires Reserialise(text).Some?
    ensures Parse(Reserialise(text).value) == Parse(text)
  {
    ParseStringify(Parse(text).value);
  }

  /** Re-serialising is idempotent: a second parse/stringify pass changes nothing. */
  lemma ReserialiseIdempotent(text: string)
    requires Reserialise(text).Some?
    ensures Reserialise(Reserialise(text).value) == Reserialise(text)
  {
    ParseStringify(Parse(text).value);
  }
}
