/** JSON values as Python holds them after `json.loads` (dictionaries in insertion order,
    no floats), the canonical text `canonical_json` prints, and a reader of that text
    (RFC 8259, sections 3 to 7, without insignificant whitespace). */
module CanonicalJson {
  import opened Ordering
  import opened Sequences

  datatype Json =
    | JNull
    | JBool(b: bool)
    | JInt(n: int)
    | JStr(s: string)
    | JArr(items: seq<Json>)
    | JObj(fields: seq<Field>)

  datatype Field = Field(key: string, value: Json)

  /** `value.get(key)` on a dictionary; a missing key gives None. */
  function Get(fields: seq<Field>, key: string): Json {
    if fields == [] then JNull
    else if fields[0].key == key then fields[0].value
    else Get(fields[1..], key)
  }

  /** Dictionary keys are unique at every level. */
  ghost predicate UniqueKeys(v: Json) {
    match v
    case JArr(items) => forall i | 0 <= i < |items| :: UniqueKeys(items[i])
    case JObj(fields) =>
      && (forall i, j | 0 <= i < j < |fields| :: fields[i].key != fields[j].key)
      && (forall i | 0 <= i < |fields| :: UniqueKeys(fields[i].value))
    case _ => true
  }

  /** Equality of JSON values: dictionaries are compared without regard to insertion order. */
  ghost predicate SameValue(a: Json, b: Json) {
    match (a, b)
    case (JArr(xs), JArr(ys)) =>
      |xs| == |ys| && forall i | 0 <= i < |xs| :: SameValue(xs[i], ys[i])
    case (JObj(fs), JObj(gs)) =>
      && |fs| == |gs|
      && forall i | 0 <= i < |fs| ::
           exists j | 0 <= j < |gs| :: fs[i].key == gs[j].key && SameValue(fs[i].value, gs[j].value)
    case _ => a == b
  }

  // ---------------------------------------------------------------- key order

  predicate FieldLeq(f: Field, g: Field) { StrLeq(f.key, g.key) }

  /** What `_jsonable` followed by `sort_keys=True` leaves: keys ascending at every level. */
  function SortKeys(v: Json): Json
    decreases v, 0
  {
    match v
    case JArr(items) => JArr(SortItems(items))
    case JObj(fields) => JObj(Sorted(FieldLeq, SortValues(fields)))
    case _ => v
  }

  function SortItems(items: seq<Json>): (r: seq<Json>)
    ensures |r| == |items| && forall i | 0 <= i < |r| :: r[i] == SortKeys(items[i])
    decreases items, 1
  {
    if items == [] then [] else [SortKeys(items[0])] + SortItems(items[1..])
  }

  function SortValues(fields: seq<Field>): (r: seq<Field>)
    ensures |r| == |fields|
    ensures forall i | 0 <= i < |r| :: r[i] == Field(fields[i].key, SortKeys(fields[i].value))
    decreases fields, 1
  {
    if fields == [] then []
    else [Field(fields[0].key, SortKeys(fields[0].value))] + SortValues(fields[1..])
  }

  // ---------------------------------------------------------------- printing

  /** `json.dumps(_jsonable(value), ensure_ascii=False, sort_keys=True, separators=(",", ":"))` */
  function CanonicalText(v: Json): string { Print(SortKeys(v), "") }

  /** The text of `v` followed by `rest`. */
  function Print(v: Json, rest: string): string
    decreases v, 0
  {
    match v
    case JNull => "null" + rest
    case JBool(b) => (if b then "true" else "false") + rest
    case JInt(n) => if n < 0 then "-" + (Digits(-n) + rest) else Digits(n) + rest
    case JStr(s) => Quote(s, rest)
    case JArr(items) => "[" + if items == [] then "]" + rest else PrintItems(items, rest)
    case JObj(fields) => "{" + if fields == [] then "}" + rest else PrintFields(fields, rest)
  }

  /** The elements of a nonempty array, its closing bracket, then `rest`. */
  function PrintItems(items: seq<Json>, rest: string): string
    requires items != []
    decreases items, 1
  {
    Print(items[0], if |items| == 1 then "]" + rest else "," + PrintItems(items[1..], rest))
  }

  /** The members of a nonempty object, its closing brace, then `rest`. */
  function PrintFields(fields: seq<Field>, rest: string): string
    requires fields != []
    decreases fields, 1
  {
    var follow := if |fields| == 1 then "}" + rest else "," + PrintFields(fields[1..], rest);
    Quote(fields[0].key, ":" + Print(fields[0].value, follow))
  }

  function Digit(d: nat): char
    requires d < 16
  {
    "0123456789abcdef"[d]
  }

  function Digits(n: nat): string {
    if n < 10 then [Digit(n)] else Digits(n / 10) + [Digit(n % 10)]
  }

  function Quote(s: string, rest: string): string { "\"" + EscapeAll(s, rest) }

  function EscapeAll(s: string, rest: string): string {
    if s == "" then "\"" + rest else Escape(s[0]) + EscapeAll(s[1..], rest)
  }

  function Escape(c: char): string {
    if c == '"' then "\\\""
    else if c == '\\' then "\\\\"
    else if c == '\n' then "\\n"
    else if c == '\r' then "\\r"
    else if c == '\t' then "\\t"
    else if c == '\U{000C}' then "\\f"
    else if c == '\U{0008}' then "\\b"
    else if c < ' ' then "\\u00" + [Digit(c as int / 16), Digit(c as int % 16)]
    else [c]
  }

  // ---------------------------------------------------------------- reading

  datatype Reading<+T> = Malformed | Read(value: T, rest: string)

  predicate IsDigit(c: char) { '0' <= c <= '9' }

  function HexValue(c: char): int {
    if '0' <= c <= '9' then c as int - '0' as int
    else if 'a' <= c <= 'f' then c as int - 'a' as int + 10
    else if 'A' <= c <= 'F' then c as int - 'A' as int + 10
    else -1
  }

  function ReadChars(s: string): (r: Reading<string>)
    ensures r.Read? ==> |r.rest| < |s|
  {
    if s == "" || s[0] < ' ' then Malformed
    else if s[0] == '"' then Read("", s[1..])
    else if s[0] != '\\' then Prepend(s[0], ReadChars(s[1..]))
    else if |s| < 2 then Malformed
    else if s[1] == '"' || s[1] == '\\' || s[1] == '/' then Prepend(s[1], ReadChars(s[2..]))
    else if s[1] == 'n' then Prepend('\n', ReadChars(s[2..]))
    else if s[1] == 'r' then Prepend('\r', ReadChars(s[2..]))
    else if s[1] == 't' then Prepend('\t', ReadChars(s[2..]))
    else if s[1] == 'f' then Prepend('\U{000C}', ReadChars(s[2..]))
    else if s[1] == 'b' then Prepend('\U{0008}', ReadChars(s[2..]))
    else if s[1] == 'u' && |s| >= 6 && s[2] == '0' && s[3] == '0' && HexValue(s[4]) >= 0 && HexValue(s[5]) >= 0
    then Prepend((HexValue(s[4]) * 16 + HexValue(s[5])) as char, ReadChars(s[6..]))
    else Malformed
  }

  function Prepend(c: char, r: Reading<string>): Reading<string> {
    if r.Read? then Read([c] + r.value, r.rest) else Malformed
  }

  function DigitRun(s: string): (n: nat)
    ensures n <= |s|
    ensures forall i | 0 <= i < n :: IsDigit(s[i])
    ensures n < |s| ==> !IsDigit(s[n])
  {
    if s != "" && IsDigit(s[0]) then 1 + DigitRun(s[1..]) else 0
  }

  function NumberOf(digits: string): nat
    requires forall c | c in digits :: IsDigit(c)
  {
    if digits == "" then 0
    else
      var n := |digits| - 1;
      assert IsDigit(digits[n]);
      NumberOf(digits[..n]) * 10 + HexValue(digits[n])
  }

  function ReadNat(s: string): (r: Reading<int>)
    ensures r.Read? ==> |r.rest| < |s|
  {
    var n := DigitRun(s);
    if n == 0 then Malformed else Read(NumberOf(s[..n]), s[n..])
  }

  function ReadScalar(s: string): (r: Reading<Json>)
    requires s != ""
    ensures r.Read? ==> |r.rest| < |s|
  {
    if s[0] == '"' then
      var r := ReadChars(s[1..]);
      if r.Read? then Read(JStr(r.value), r.rest) else Malformed
    else if s[0] == '-' then
      var r := ReadNat(s[1..]);
      if r.Read? then Read(JInt(-r.value), r.rest) else Malformed
    else if IsDigit(s[0]) then
      var r := ReadNat(s);
      if r.Read? then Read(JInt(r.value), r.rest) else Malformed
    else if "null" <= s then Read(JNull, s[4..])
    else if "true" <= s then Read(JBool(true), s[4..])
    else if "false" <= s then Read(JBool(false), s[5..])
    else Malformed
  }

  function ReadValue(s: string): (r: Reading<Json>)
    ensures r.Read? ==> |r.rest| < |s|
    decreases |s|, 0
  {
    if s == "" then Malformed
    else if s[0] == '[' then
      if |s| > 1 && s[1] == ']' then Read(JArr([]), s[2..])
      else
        var r := ReadItems(s[1..]);
        if r.Read? then Read(JArr(r.value), r.rest) else Malformed
    else if s[0] == '{' then
      if |s| > 1 && s[1] == '}' then Read(JObj([]), s[2..])
      else
        var r := ReadFields(s[1..]);
        if r.Read? then Read(JObj(r.value), r.rest) else Malformed
    else ReadScalar(s)
  }

  /** The elements of an array up to and including its closing bracket. */
  function ReadItems(s: string): (r: Reading<seq<Json>>)
    ensures r.Read? ==> |r.rest| < |s|
    decreases |s|, 1
  {
    var head := ReadValue(s);
    if head.Malformed? || head.rest == "" then Malformed
    else if head.rest[0] == ']' then Read([head.value], head.rest[1..])
    else if head.rest[0] == ',' then
      var tail := ReadItems(head.rest[1..]);
      if tail.Read? then Read([head.value] + tail.value, tail.rest) else Malformed
    else Malformed
  }

  /** The members of an object up to and including its closing brace. */
  function ReadFields(s: string): (r: Reading<seq<Field>>)
    ensures r.Read? ==> |r.rest| < |s|
    decreases |s|, 1
  {
    if s == "" || s[0] != '"' then Malformed
    else
      var key := ReadChars(s[1..]);
      if key.Malformed? || key.rest == "" || key.rest[0] != ':' then Malformed
      else
        var head := ReadValue(key.rest[1..]);
        if head.Malformed? || head.rest == "" then Malformed
        else if head.rest[0] == '}' then Read([Field(key.value, head.value)], head.rest[1..])
        else if head.rest[0] == ',' then
          var tail := ReadFields(head.rest[1..]);
          if tail.Read? then Read([Field(key.value, head.value)] + tail.value, tail.rest) else Malformed
        else Malformed
  }

  // ---------------------------------------------------------------- reading what was printed

  lemma {:induction false} HexOfDigit(d: nat)
    requires d < 16
    ensures HexValue(Digit(d)) == d
    ensures d < 10 ==> IsDigit(Digit(d))
  {}

  lemma {:induction false} ReadUnicodeEscape(c: char, tail: string)
    requires c < ' '
    ensures ReadChars("\\u00" + [Digit(c as int / 16), Digit(c as int % 16)] + tail) == Prepend(c, ReadChars(tail))
  {
    var s := "\\u00" + [Digit(c as int / 16), Digit(c as int % 16)] + tail;
    HexOfDigit(c as int / 16);
    HexOfDigit(c as int % 16);
    assert s[4] == Digit(c as int / 16) && s[5] == Digit(c as int % 16) && s[6..] == tail;
  }

  lemma {:induction false} ReadEscaped(c: char, tail: string)
    ensures ReadChars(Escape(c) + tail) == Prepend(c, ReadChars(tail))
  {
    var s := Escape(c) + tail;
    if |Escape(c)| == 1 {
      assert s[1..] == tail;
    } else if |Escape(c)| == 2 {
      assert s[2..] == tail;
    } else {
      ReadUnicodeEscape(c, tail);
    }
  }

  /** `e` reads back as the one character `c`. */
  predicate Denotes(e: string, c: char) { ReadChars(e + "\"") == Read([c], "") }

  /** `e` is as long as `escape` but for the case of hexadecimal digits the same. */
  predicate SameUpToHexCase(e: string, escape: string) {
    && |e| == |escape| == 6 && e[..4] == escape[..4]
    && forall i | 4 <= i < 6 :: HexValue(e[i]) == HexValue(escape[i]) && !('A' <= escape[i] <= 'F')
  }

  /** The escape of a character is the shortest text that denotes it, in lower-case hexadecimal where
      digits are needed. */
  lemma {:induction false} EscapeIsShortest(c: char, e: string)
    requires Denotes(e, c)
    ensures Denotes(Escape(c), c) && |Escape(c)| <= |e|
    ensures |Escape(c)| == |e| ==> e == Escape(c) || SameUpToHexCase(e, Escape(c))
  {
    hide Escape, SameUpToHexCase;
    EscapeDenotes(c);
    var s := e + "\"";
    if e == "" {
      NothingDenotes(c);
    } else if e[0] != '\\' {
      PlainDenotes(c, e);
    } else if s[1] == 'u' {
      HexDenotes(c, e);
    } else {
      ShortDenotes(c, e);
    }
  }

  lemma {:induction false} EscapeDenotes(c: char)
    ensures Denotes(Escape(c), c)
  {
    ReadEscaped(c, "\"");
    assert ReadChars("\"") == Read("", "");
    assert [c] + "" == [c];
  }

  lemma {:induction false} NothingDenotes(c: char)
    ensures !Denotes("", c)
  {
    assert "" + "\"" == "\"";
  }

  lemma {:induction false} OneCharacter(x: char, r: Reading<string>, c: char)
    requires Prepend(x, r) == Read([c], "")
    ensures x == c && r == Read("", "")
  {
    assert ([x] + r.value)[0] == c && |[x] + r.value| == 1;
  }

  lemma {:induction false} PlainDenotes(c: char, e: string)
    requires Denotes(e, c) && e != "" && e[0] != '\\'
    ensures |Escape(c)| == 1 && (|e| == 1 ==> e == Escape(c))
  {
    var s := e + "\"";
    assert s[0] == e[0];
    OneCharacter(s[0], ReadChars(s[1..]), c);
  }

  lemma {:induction false} ShortDenotes(c: char, e: string)
    requires Denotes(e, c) && e != "" && e[0] == '\\' && (e + "\"")[1] != 'u'
    ensures |Escape(c)| <= |e| && (|Escape(c)| == |e| ==> e == Escape(c))
  {
    var s := e + "\"";
    LoneBackslash(c);
    assert |e| > 1 by { assert |e| == 1 ==> e == "\\"; }
    assert s[1] == e[1];
    var meant := if e[1] == 'n' then '\n' else if e[1] == 'r' then '\r' else if e[1] == 't' then '\t'
      else if e[1] == 'f' then '\U{000C}' else if e[1] == 'b' then '\U{0008}' else e[1];
    OneCharacter(meant, ReadChars(s[2..]), c);
    assert |e| == 2 ==> e == [e[0], e[1]];
  }

  lemma {:induction false} LoneBackslash(c: char)
    ensures !Denotes("\\", c)
  {
    var s := "\\" + "\"";
    assert s[0] == '\\' && s[1] == '"' && s[2..] == "";
    assert ReadChars("") == Malformed;
  }

  lemma {:induction false} HexDenotes(c: char, e: string)
    requires Denotes(e, c) && e != "" && e[0] == '\\' && (e + "\"")[1] == 'u'
    ensures |Escape(c)| <= |e| && (|Escape(c)| == |e| ==> SameUpToHexCase(e, Escape(c)))
  {
    var s := e + "\"";
    assert |s| >= 6 && s[2] == '0' && s[3] == '0' && HexValue(s[4]) >= 0 && HexValue(s[5]) >= 0;
    assert |e| >= 6 by { assert s[|e|] == '"' && HexValue('"') < 0; }
    assert s[4] == e[4] && s[5] == e[5];
    OneCharacter((HexValue(s[4]) * 16 + HexValue(s[5])) as char, ReadChars(s[6..]), c);
    assert |Escape(c)| == 6 ==> Escape(c)[..4] == "\\u00" == e[..4] || |e| > 6;
    if |Escape(c)| == 6 {
      HexOfDigit(c as int / 16);
      HexOfDigit(c as int % 16);
      DigitsAreLower(c as int / 16);
      DigitsAreLower(c as int % 16);
    }
  }

  lemma {:induction false} DigitsAreLower(d: nat)
    requires d < 16
    ensures !('A' <= Digit(d) <= 'F')
  {}

  lemma {:induction false} ReadQuoted(t: string, rest: string)
    ensures ReadChars(EscapeAll(t, rest)) == Read(t, rest)
  {
    if t != "" {
      ReadQuoted(t[1..], rest);
      ReadEscaped(t[0], EscapeAll(t[1..], rest));
      assert t == [t[0]] + t[1..];
    }
  }

  lemma {:induction false} DigitsAreDigits(n: nat)
    ensures Digits(n) != "" && forall c | c in Digits(n) :: IsDigit(c)
    ensures NumberOf(Digits(n)) == n
  {
    if n >= 10 {
      DigitsAreDigits(n / 10);
      assert Digits(n)[..|Digits(n)| - 1] == Digits(n / 10);
    } else {
      assert Digits(n)[..0] == "";
    }
  }

  lemma {:induction false} DigitRunStops(digits: string, rest: string)
    requires forall c | c in digits :: IsDigit(c)
    requires rest == "" || !IsDigit(rest[0])
    ensures DigitRun(digits + rest) == |digits|
  {
    if digits == "" {
      assert digits + rest == rest;
    } else {
      assert (digits + rest)[1..] == digits[1..] + rest;
      DigitRunStops(digits[1..], rest);
    }
  }

  lemma {:induction false} ReadDigits(n: nat, rest: string)
    requires rest == "" || !IsDigit(rest[0])
    ensures ReadNat(Digits(n) + rest) == Read(n, rest)
  {
    DigitsAreDigits(n);
    DigitRunStops(Digits(n), rest);
    assert (Digits(n) + rest)[..|Digits(n)|] == Digits(n);
    assert (Digits(n) + rest)[|Digits(n)|..] == rest;
  }

  lemma {:induction false} ReadLiteral(rest: string)
    ensures ReadScalar("null" + rest) == Read(JNull, rest)
    ensures ReadScalar("true" + rest) == Read(JBool(true), rest)
    ensures ReadScalar("false" + rest) == Read(JBool(false), rest)
  {
    assert ("null" + rest)[..4] == "null" && ("null" + rest)[4..] == rest;
    assert ("true" + rest)[..4] == "true" && ("true" + rest)[4..] == rest;
    assert ("false" + rest)[..5] == "false" && ("false" + rest)[5..] == rest;
  }

  lemma {:induction false} ReadPositive(s: string, n: nat, rest: string)
    requires ReadNat(s) == Read(n, rest)
    ensures StartsScalar(s) && ReadScalar(s) == Read(JInt(n), rest)
  {
    assert 0 < DigitRun(s);
  }

  lemma {:induction false} ReadNegative(s: string, n: nat, rest: string)
    requires ReadNat(s) == Read(n, rest)
    ensures StartsScalar("-" + s) && ReadScalar("-" + s) == Read(JInt(0 - n), rest)
  {
    assert ("-" + s)[1..] == s;
  }

  lemma {:induction false} ReadString(t: string, rest: string)
    ensures ReadScalar(Quote(t, rest)) == Read(JStr(t), rest)
  {
    ReadQuoted(t, rest);
    assert Quote(t, rest)[1..] == EscapeAll(t, rest);
  }

  predicate StartsScalar(s: string) {
    s != "" && s[0] != '[' && s[0] != ']' && s[0] != '{' && s[0] != '}'
  }

  lemma {:induction false} ReadPrintedInt(n: int, rest: string)
    requires rest == "" || !IsDigit(rest[0])
    ensures StartsScalar(Print(JInt(n), rest)) && ReadScalar(Print(JInt(n), rest)) == Read(JInt(n), rest)
  {
    hide ReadScalar, ReadNat, Digits, StartsScalar;
    if n < 0 {
      ReadDigits(-n, rest);
      ReadNegative(Digits(-n) + rest, -n, rest);
    } else {
      ReadDigits(n, rest);
      ReadPositive(Digits(n) + rest, n, rest);
    }
  }

  lemma {:induction false} ReadPrintedScalar(v: Json, rest: string)
    requires !v.JArr? && !v.JObj?
    requires rest == "" || !IsDigit(rest[0])
    ensures StartsScalar(Print(v, rest)) && ReadScalar(Print(v, rest)) == Read(v, rest)
  {
    match v
    case JStr(t) => ReadString(t, rest);
    case JInt(n) => ReadPrintedInt(n, rest);
    case _ => ReadLiteral(rest);
  }

  lemma {:induction false} ReadBrackets(body: string)
    ensures body != "" && body[0] != ']' && ReadItems(body).Read? ==>
              ReadValue("[" + body) == Read(JArr(ReadItems(body).value), ReadItems(body).rest)
    ensures body != "" && body[0] == ']' ==> ReadValue("[" + body) == Read(JArr([]), body[1..])
  {
    assert ("[" + body)[1..] == body;
  }

  lemma {:induction false} ReadBraces(body: string)
    ensures body != "" && body[0] != '}' && ReadFields(body).Read? ==>
              ReadValue("{" + body) == Read(JObj(ReadFields(body).value), ReadFields(body).rest)
    ensures body != "" && body[0] == '}' ==> ReadValue("{" + body) == Read(JObj([]), body[1..])
  {
    assert ("{" + body)[1..] == body;
  }

  lemma {:induction false} ReadLastItem(s: string, v: Json, rest: string)
    requires ReadValue(s) == Read(v, "]" + rest)
    ensures ReadItems(s) == Read([v], rest)
  {
    assert ("]" + rest)[1..] == rest;
  }

  lemma {:induction false} ReadNextItem(s: string, v: Json, tail: string, more: seq<Json>, rest: string)
    requires ReadValue(s) == Read(v, "," + tail) && ReadItems(tail) == Read(more, rest)
    ensures ReadItems(s) == Read([v] + more, rest)
  {
    assert ("," + tail)[1..] == tail;
  }

  lemma {:induction false} ReadKey(key: string, body: string)
    ensures Quote(key, ":" + body) != "" && Quote(key, ":" + body)[0] == '"'
    ensures ReadChars(Quote(key, ":" + body)[1..]) == Read(key, ":" + body)
    ensures (":" + body)[1..] == body
  {
    ReadQuoted(key, ":" + body);
    assert Quote(key, ":" + body)[1..] == EscapeAll(key, ":" + body);
  }

  lemma {:induction false} ReadLastField(key: string, s: string, v: Json, rest: string)
    requires ReadValue(s) == Read(v, "}" + rest)
    ensures Quote(key, ":" + s) != "" && Quote(key, ":" + s)[0] == '"'
    ensures ReadFields(Quote(key, ":" + s)) == Read([Field(key, v)], rest)
  {
    ReadKey(key, s);
    assert ("}" + rest)[1..] == rest;
  }

  lemma {:induction false} ReadNextField(key: string, s: string, v: Json, tail: string, more: seq<Field>, rest: string)
    requires ReadValue(s) == Read(v, "," + tail) && ReadFields(tail) == Read(more, rest)
    ensures Quote(key, ":" + s) != "" && Quote(key, ":" + s)[0] == '"'
    ensures ReadFields(Quote(key, ":" + s)) == Read([Field(key, v)] + more, rest)
  {
    ReadKey(key, s);
    assert ("," + tail)[1..] == tail;
  }

  /** Reading the printed text of a value gives the value back and leaves what follows. */
  lemma {:induction false} ReadPrinted(v: Json, rest: string)
    requires rest == "" || !IsDigit(rest[0])
    ensures Print(v, rest) != "" && Print(v, rest)[0] != ']'
    ensures ReadValue(Print(v, rest)) == Read(v, rest)
    decreases v, 0
  {
    match v
    case JArr(items) =>
      if items == [] {
        ReadBrackets("]" + rest);
        assert ("]" + rest)[1..] == rest;
      } else {
        ReadPrintedItems(items, rest);
        ReadBrackets(PrintItems(items, rest));
      }
    case JObj(fields) =>
      if fields == [] {
        ReadBraces("}" + rest);
        assert ("}" + rest)[1..] == rest;
      } else {
        ReadPrintedFields(fields, rest);
        ReadBraces(PrintFields(fields, rest));
      }
    case _ => ReadPrintedScalar(v, rest);
  }

  lemma {:induction false} ReadPrintedItems(items: seq<Json>, rest: string)
    requires items != []
    ensures PrintItems(items, rest) != "" && PrintItems(items, rest)[0] != ']'
    ensures ReadItems(PrintItems(items, rest)) == Read(items, rest)
    decreases items, 1
  {
    if |items| == 1 {
      ReadPrinted(items[0], "]" + rest);
      ReadLastItem(PrintItems(items, rest), items[0], rest);
      assert items == [items[0]];
    } else {
      var tail := PrintItems(items[1..], rest);
      ReadPrintedItems(items[1..], rest);
      ReadPrinted(items[0], "," + tail);
      ReadNextItem(PrintItems(items, rest), items[0], tail, items[1..], rest);
      assert items == [items[0]] + items[1..];
    }
  }

  lemma {:induction false} ReadPrintedFields(fields: seq<Field>, rest: string)
    requires fields != []
    ensures PrintFields(fields, rest) != "" && PrintFields(fields, rest)[0] != '}'
    ensures ReadFields(PrintFields(fields, rest)) == Read(fields, rest)
    decreases fields, 1
  {
    var key, value := fields[0].key, fields[0].value;
    if |fields| == 1 {
      var follow := "}" + rest;
      ReadPrinted(value, follow);
      ReadLastField(key, Print(value, follow), value, rest);
      assert fields == [Field(key, value)];
    } else {
      var tail := PrintFields(fields[1..], rest);
      var follow := "," + tail;
      ReadPrintedFields(fields[1..], rest);
      ReadPrinted(value, follow);
      ReadNextField(key, Print(value, follow), value, tail, fields[1..], rest);
      assert fields == [Field(key, value)] + fields[1..];
    }
  }

  // ---------------------------------------------------------------- main results

  /** The canonical text determines the value up to dictionary order: it reads back as the
      value with its keys sorted. */
  lemma {:induction false} CanonicalRoundTrip(v: Json)
    ensures ReadValue(CanonicalText(v)) == Read(SortKeys(v), "")
  {
    ReadPrinted(SortKeys(v), "");
  }

  lemma {:induction false} SameValueGivesSameOrder(a: Json, b: Json)
    requires UniqueKeys(a) && UniqueKeys(b) && SameValue(a, b)
    ensures SortKeys(a) == SortKeys(b)
  {
    if a.JArr? {
      var xs, ys := a.items, b.items;
      forall i | 0 <= i < |xs| ensures SortKeys(xs[i]) == SortKeys(ys[i]) {
        SameValueGivesSameOrder(xs[i], ys[i]);
      }
      assert SortItems(xs) == SortItems(ys);
    } else if a.JObj? {
      var fs, gs := a.fields, b.fields;
      var f, g := SortValues(fs), SortValues(gs);
      forall i | 0 <= i < |f| ensures f[i] in g {
        var j :| 0 <= j < |gs| && fs[i].key == gs[j].key && SameValue(fs[i].value, gs[j].value);
        SameValueGivesSameOrder(fs[i].value, gs[j].value);
        assert f[i] == g[j];
      }
      SortedSameFields(f, g);
    }
  }

  lemma {:induction false} SortedSameFields(f: seq<Field>, g: seq<Field>)
    requires |f| == |g| && forall i | 0 <= i < |f| :: f[i] in g
    requires forall i, j | 0 <= i < j < |f| :: f[i].key != f[j].key
    requires forall i, j | 0 <= i < j < |g| :: g[i].key != g[j].key
    ensures Sorted(FieldLeq, f) == Sorted(FieldLeq, g)
  {
    DistinctKeysPermute(f, g);
    StrOrder();
    SortedPermutationInvariant(FieldLeq, f, g);
  }

  /** Of two equally long lists with unique keys, one included in the other, each is a
      reordering of the other. */
  lemma {:induction false} DistinctKeysPermute(f: seq<Field>, g: seq<Field>)
    requires |f| == |g| && forall i | 0 <= i < |f| :: f[i] in g
    requires forall i, j | 0 <= i < j < |f| :: f[i].key != f[j].key
    requires forall i, j | 0 <= i < j < |g| :: g[i].key != g[j].key
    ensures multiset(f) == multiset(g)
    ensures forall x, y | x in f && y in f && x.key == y.key :: x == y
  {
    assert Distinct(f) && Distinct(g);
    DistinctCardinality(f);
    DistinctCardinality(g);
    var left, right := set x | x in f, set x | x in g;
    assert left <= right;
    EqualCardinality(left, right);
    forall x ensures x in f <==> x in g {
      assert (x in f <==> x in left) && (x in g <==> x in right);
    }
    DistinctSameElements(f, g);
  }

  lemma {:induction false} EqualCardinality<T>(a: set<T>, b: set<T>)
    requires a <= b && |a| == |b|
    ensures a == b
  {
    assert |b - a| == |b| - |a|;
  }

  lemma {:induction false} SameOrderGivesSameValue(a: Json, b: Json)
    requires SortKeys(a) == SortKeys(b)
    ensures SameValue(a, b)
  {
    if a.JArr? {
      var xs, ys := a.items, b.items;
      assert |SortItems(xs)| == |SortItems(ys)|;
      forall i | 0 <= i < |xs| ensures SameValue(xs[i], ys[i]) {
        assert SortItems(xs)[i] == SortItems(ys)[i];
        SameOrderGivesSameValue(xs[i], ys[i]);
      }
    } else if a.JObj? {
      var fs, gs := a.fields, b.fields;
      var f, g := SortValues(fs), SortValues(gs);
      SortedSameMembers(f, g);
      forall i | 0 <= i < |fs|
        ensures exists j | 0 <= j < |gs| :: fs[i].key == gs[j].key && SameValue(fs[i].value, gs[j].value)
      {
        assert f[i] in g;
        var j :| 0 <= j < |g| && g[j] == f[i];
        SameOrderGivesSameValue(fs[i].value, gs[j].value);
      }
    }
  }

  lemma {:induction false} SortedSameMembers(f: seq<Field>, g: seq<Field>)
    requires Sorted(FieldLeq, f) == Sorted(FieldLeq, g)
    ensures |f| == |g| && forall x :: x in f <==> x in g
  {
    SortedIsSortedPermutation(FieldLeq, f);
    SortedIsSortedPermutation(FieldLeq, g);
    PermutationMembers(f, g);
  }

  /** Canonical texts are equal exactly when the values are: the text forgets insertion
      order and nothing else. */
  lemma {:induction false} CanonicalTextDecidesEquality(a: Json, b: Json)
    requires UniqueKeys(a) && UniqueKeys(b)
    ensures CanonicalText(a) == CanonicalText(b) <==> SameValue(a, b)
  {
    CanonicalRoundTrip(a);
    CanonicalRoundTrip(b);
    if SameValue(a, b) { SameValueGivesSameOrder(a, b); }
    if CanonicalText(a) == CanonicalText(b) { SameOrderGivesSameValue(a, b); }
  }

  /** Keys come in strictly ascending order at every level. */
  ghost predicate KeysAscend(v: Json) {
    match v
    case JArr(items) => forall i | 0 <= i < |items| :: KeysAscend(items[i])
    case JObj(fields) =>
      && (forall i, j | 0 <= i < j < |fields| :: StrLeq(fields[i].key, fields[j].key) && fields[i].key != fields[j].key)
      && (forall i | 0 <= i < |fields| :: KeysAscend(fields[i].value))
    case _ => true
  }

  lemma {:induction false} SortKeysAscend(v: Json)
    requires UniqueKeys(v)
    ensures KeysAscend(SortKeys(v))
  {
    if v.JArr? {
      forall i | 0 <= i < |v.items| ensures KeysAscend(SortItems(v.items)[i]) { SortKeysAscend(v.items[i]); }
    } else if v.JObj? {
      var f := SortValues(v.fields);
      forall i | 0 <= i < |f| ensures KeysAscend(f[i].value) { SortKeysAscend(v.fields[i].value); }
      assert forall i, j | 0 <= i < j < |f| :: f[i].key != f[j].key;
      AscendingFields(f);
    }
  }

  lemma {:induction false} AscendingFields(f: seq<Field>)
    requires forall i, j | 0 <= i < j < |f| :: f[i].key != f[j].key
    requires forall i | 0 <= i < |f| :: KeysAscend(f[i].value)
    ensures KeysAscend(JObj(Sorted(FieldLeq, f)))
  {
    hide StrLeq, Sorted;
    var g := Sorted(FieldLeq, f);
    StrOrder();
    assert TotalPreorder(FieldLeq);
    SortedIsSortedPermutation(FieldLeq, f);
    SortedMembers(FieldLeq, f);
    assert Distinct(f);
    DistinctPermutation(f, g);
    forall i, j | 0 <= i < j < |g| ensures StrLeq(g[i].key, g[j].key) && g[i].key != g[j].key {
      assert FieldLeq(g[i], g[j]) && g[i] != g[j] && g[i] in f && g[j] in f;
    }
    forall i | 0 <= i < |g| ensures KeysAscend(g[i].value) { assert g[i] in f; }
  }

  lemma {:induction false} SortKeysSame(v: Json)
    requires UniqueKeys(v)
    ensures SameValue(SortKeys(v), v)
  {
    SortedTwice(v);
    SameOrderGivesSameValue(SortKeys(v), v);
  }

  /** Sorting the keys again changes nothing. */
  lemma {:induction false} SortedTwice(v: Json)
    ensures SortKeys(SortKeys(v)) == SortKeys(v)
  {
    if v.JArr? {
      forall i | 0 <= i < |v.items| ensures SortItems(SortItems(v.items))[i] == SortItems(v.items)[i] {
        SortedTwice(v.items[i]);
      }
      assert SortItems(SortItems(v.items)) == SortItems(v.items);
    } else if v.JObj? {
      var f := SortValues(v.fields);
      var g := Sorted(FieldLeq, f);
      SortedMembers(FieldLeq, f);
      forall i | 0 <= i < |g| ensures SortValues(g)[i] == g[i] {
        assert g[i] in f;
        var j :| 0 <= j < |f| && f[j] == g[i];
        SortedTwice(v.fields[j].value);
      }
      assert SortValues(g) == g;
      StrOrder();
      assert TotalPreorder(FieldLeq);
      SortedIsSortedPermutation(FieldLeq, f);
      SortedFixpoint(FieldLeq, g);
    }
  }

  /** The canonical text is that of an equal value with its keys in ascending order: it reads back
      as one. */
  lemma {:induction false} CanonicalTextAscends(v: Json) returns (w: Json)
    requires UniqueKeys(v)
    ensures ReadValue(CanonicalText(v)) == Read(w, "") && KeysAscend(w) && SameValue(w, v)
  {
    w := SortKeys(v);
    CanonicalRoundTrip(v);
    SortKeysAscend(v);
    SortKeysSame(v);
  }

  ghost predicate Injective(h: string -> string) {
    forall s, t :: h(s) == h(t) ==> s == t
  }

  /** `canonical_json_sha256`, over a hash left abstract. */
  function Digest(sha256: string -> string, v: Json): string { sha256(CanonicalText(v)) }

  lemma {:induction false} DigestDecidesEquality(sha256: string -> string, a: Json, b: Json)
    requires UniqueKeys(a) && UniqueKeys(b) && Injective(sha256)
    ensures Digest(sha256, a) == Digest(sha256, b) <==> SameValue(a, b)
  {
    CanonicalTextDecidesEquality(a, b);
  }
}
