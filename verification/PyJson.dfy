/** Printing JSON the way Python's `json.dumps` does with default separators. */
module PyJson {
  import opened Types

  /**
   * A JSON value. `Float` is the shortest decimal of a finite float as its formatter reports it:
   * sign, significant digits d1 d2 ... dn and exponent, meaning d1.d2...dn x 10^exp.
   */
  datatype Value =
    | Null
    | Bool(b: bool)
    | Int(i: int)
    | Float(neg: bool, digits: string, exp: int)
    | Str(text: string)
    | Arr(items: seq<Value>)
    | Obj(fields: seq<Field>)

  datatype Field = Field(name: string, value: Value)

  // ---------- Digits ----------

  predicate IsDigit(c: char) {
    '0' <= c <= '9'
  }

  predicate AllDigits(d: string) {
    forall i :: 0 <= i < |d| ==> IsDigit(d[i])
  }

  function DigitChar(n: nat): (c: char)
    requires n < 10
    ensures IsDigit(c) && c as int - '0' as int == n
  {
    (('0' as int) + n) as char
  }

  function NatText(n: nat): (t: string)
    ensures AllDigits(t) && t != []
  {
    if n < 10 then [DigitChar(n)] else NatText(n / 10) + [DigitChar(n % 10)]
  }

  function IntText(i: int): string {
    if i < 0 then "-" + NatText(-i) else NatText(i)
  }

  function Zeros(n: nat): (t: string)
    ensures |t| == n && AllDigits(t) && forall i :: 0 <= i < n ==> t[i] == '0'
  {
    seq(n, _ => '0')
  }

  // ---------- Floats ----------

  /** The exponent with its sign and at least two digits. */
  function ExpText(e: int): string {
    (if e < 0 then "-" else "+") + (if Abs(e) < 10 then "0" else "") + NatText(Abs(e))
  }

  function Abs(e: int): nat {
    if e < 0 then -e else e
  }

  /** Scientific layout exactly when the decimal exponent is below -4 or at least 16. */
  predicate Scientific(exp: int) {
    exp < -4 || exp >= 16
  }

  function FloatBody(digits: string, exp: int): string
    requires digits != []
  {
    var decpt := exp + 1;
    if decpt <= -4 || decpt > 16 then
      digits[..1] + (if |digits| == 1 then "" else "." + digits[1..]) + "e" + ExpText(decpt - 1)
    else if decpt <= 0 then
      "0." + Zeros(-decpt) + digits
    else if decpt >= |digits| then
      digits + Zeros(decpt - |digits|) + ".0"
    else
      digits[..decpt] + "." + digits[decpt..]
  }

  function FloatText(neg: bool, digits: string, exp: int): string
    requires digits != []
  {
    (if neg then "-" else "") + FloatBody(digits, exp)
  }

  // ---------- Strings ----------

  function HexChar(n: nat): char
    requires n < 16
  {
    if n < 10 then ('0' as int + n) as char else ('a' as int + n - 10) as char
  }

  /** Four lower-case hexadecimal digits. */
  function Hex4(u: nat): string
    requires u < 0x10000
  {
    [HexChar(u / 0x1000), HexChar(u / 0x100 % 16), HexChar(u / 16 % 16), HexChar(u % 16)]
  }

  function Unit(u: nat): string
    requires u < 0x10000
  {
    "\\u" + Hex4(u)
  }

  /** One character as it appears between the quotes. */
  function Escape(c: char, ascii: bool): string {
    if c == '\"' then "\\\""
    else if c == '\\' then "\\\\"
    else if c == '\n' then "\\n"
    else if c == '\r' then "\\r"
    else if c == '\t' then "\\t"
    else if c as int == 0x08 then "\\b"
    else if c as int == 0x0c then "\\f"
    else if c < ' ' then Unit(c as int)
    else if ascii && c > '~' then
      if c as int < 0x10000 then Unit(c as int)
      else Unit(0xD800 + (c as int - 0x10000) / 0x400) + Unit(0xDC00 + (c as int - 0x10000) % 0x400)
    else [c]
  }

  function Escapes(s: string, i: nat, ascii: bool): string
    requires i <= |s|
    decreases |s| - i
  {
    if i == |s| then "" else Escape(s[i], ascii) + Escapes(s, i + 1, ascii)
  }

  function StrText(s: string, ascii: bool): string {
    "\"" + Escapes(s, 0, ascii) + "\""
  }

  // ---------- Values ----------

  /** Digits as a formatter reports them: a nonzero first digit, or a plain zero. */
  predicate Mantissa(digits: string, exp: int) {
    AllDigits(digits) && digits != [] && (digits[0] != '0' || (digits == "0" && exp == 0))
  }

  /** Shortest digits have no trailing zero. */
  predicate Shortest(digits: string, exp: int) {
    Mantissa(digits, exp) && (digits == "0" || digits[|digits| - 1] != '0')
  }

  /** Every float in the value is a finite float's shortest decimal. */
  predicate Finite(v: Value) {
    match v
    case Float(_, digits, exp) => Shortest(digits, exp)
    case Arr(items) => forall i :: 0 <= i < |items| ==> Finite(items[i])
    case Obj(fields) => forall i :: 0 <= i < |fields| ==> Finite(fields[i].value)
    case _ => true
  }

  function Text(v: Value, ascii: bool): string
    requires Finite(v)
    decreases v, 1, 0
  {
    match v
    case Null => "null"
    case Bool(b) => if b then "true" else "false"
    case Int(i) => IntText(i)
    case Float(neg, digits, exp) => FloatText(neg, digits, exp)
    case Str(s) => StrText(s, ascii)
    case Arr(items) => "[" + Join(Texts(items, ascii), 0) + "]"
    case Obj(fields) => "{" + Join(FieldTexts(fields, ascii), 0) + "}"
  }

  function Texts(items: seq<Value>, ascii: bool): (r: seq<string>)
    requires forall k :: 0 <= k < |items| ==> Finite(items[k])
    ensures |r| == |items| && forall k :: 0 <= k < |items| ==> r[k] == Text(items[k], ascii)
    decreases items, 0, 0
  {
    seq(|items|, k requires 0 <= k < |items| => Text(items[k], ascii))
  }

  function FieldTexts(fields: seq<Field>, ascii: bool): (r: seq<string>)
    requires forall k :: 0 <= k < |fields| ==> Finite(fields[k].value)
    ensures |r| == |fields| && forall k :: 0 <= k < |fields| ==> r[k] == FieldText(fields[k], ascii)
    decreases fields, 0, 0
  {
    seq(|fields|, k requires 0 <= k < |fields| => FieldText(fields[k], ascii))
  }

  function FieldText(f: Field, ascii: bool): string
    requires Finite(f.value)
    decreases f, 2, 0
  {
    StrText(f.name, ascii) + ": " + Text(f.value, ascii)
  }

  /** The parts from position `i` on, each preceded by ", " unless it is the first of all. */
  function Join(parts: seq<string>, i: nat): string
    requires i <= |parts|
    decreases |parts| - i
  {
    if i == |parts| then "" else (if i > 0 then ", " else "") + parts[i] + Join(parts, i + 1)
  }

  // ---------- The printer ----------

  /** The growing output. */
  class Out {
    var text: string

    constructor ()
      ensures text == ""
    {
      text := "";
    }

    method Push(t: string)
      modifies this
      ensures text == old(text) + t
    {
      text := text + t;
    }

    method WriteStr(s: string, ascii: bool)
      modifies this
      ensures text == old(text) + StrText(s, ascii)
    {
      Push("\"");
      ghost var start := text;
      for i := 0 to |s|
        invariant text + Escapes(s, i, ascii) == start + Escapes(s, 0, ascii)
      {
        Regroup(text, Escape(s[i], ascii), Escapes(s, i + 1, ascii));
        WriteChar(s[i], ascii);
      }
      assert text == start + Escapes(s, 0, ascii);
      Push("\"");
    }

    method WriteChar(c: char, ascii: bool)
      modifies this
      ensures text == old(text) + Escape(c, ascii)
    {
      if c == '\"' {
        Push("\\\"");
      } else if c == '\\' {
        Push("\\\\");
      } else if c == '\n' {
        Push("\\n");
      } else if c == '\r' {
        Push("\\r");
      } else if c == '\t' {
        Push("\\t");
      } else if c as int == 0x08 {
        Push("\\b");
      } else if c as int == 0x0c {
        Push("\\f");
      } else if c < ' ' {
        Push(Unit(c as int));
      } else if ascii && !(' ' <= c <= '~') {
        var units := Utf16(c);
        WriteUnits(units);
      } else {
        Push([c]);
      }
    }

    method WriteUnits(units: seq<nat>)
      requires 1 <= |units| <= 2 && forall k :: 0 <= k < |units| ==> units[k] < 0x10000
      modifies this
      ensures text == old(text) + if |units| == 1 then Unit(units[0]) else Unit(units[0]) + Unit(units[1])
    {
      ghost var start := text;
      Push(Unit(units[0]));
      if |units| == 2 {
        Push(Unit(units[1]));
      }
    }

    method WriteValue(v: Value, ascii: bool)
      requires Finite(v)
      modifies this
      ensures text == old(text) + Text(v, ascii)
      decreases v, 1
    {
      match v {
        case Null => Push("null");
        case Bool(b) => Push(if b then "true" else "false");
        case Int(i) => Push(IntText(i));
        case Float(neg, digits, exp) => Push(FloatText(neg, digits, exp));
        case Str(s) => WriteStr(s, ascii);
        case Arr(items) => WriteArr(items, ascii);
        case Obj(fields) => WriteObj(fields, ascii);
      }
    }

    method WriteArr(items: seq<Value>, ascii: bool)
      requires forall k :: 0 <= k < |items| ==> Finite(items[k])
      modifies this
      ensures text == old(text) + ("[" + Join(Texts(items, ascii), 0) + "]")
      decreases items, 1
    {
      ghost var start := text;
      Push("[");
      WriteItems(items, ascii);
      Push("]");
      Enclose(start, "[", Join(Texts(items, ascii), 0), "]");
    }

    method WriteObj(fields: seq<Field>, ascii: bool)
      requires forall k :: 0 <= k < |fields| ==> Finite(fields[k].value)
      modifies this
      ensures text == old(text) + ("{" + Join(FieldTexts(fields, ascii), 0) + "}")
      decreases fields, 1
    {
      ghost var start := text;
      Push("{");
      WriteFields(fields, ascii);
      Push("}");
      Enclose(start, "{", Join(FieldTexts(fields, ascii), 0), "}");
    }

    method WriteItems(items: seq<Value>, ascii: bool)
      requires forall k :: 0 <= k < |items| ==> Finite(items[k])
      modifies this
      ensures text == old(text) + Join(Texts(items, ascii), 0)
      decreases items, 0
    {
      ghost var start, parts := text, Texts(items, ascii);
      for i := 0 to |items|
        invariant text + Join(parts, i) == start + Join(parts, 0)
      {
        ghost var was := text;
        if i > 0 {
          Push(", ");
        }
        WriteValue(items[i], ascii);
        Regroup3(was, if i > 0 then ", " else "", parts[i], Join(parts, i + 1));
      }
    }

    method WriteField(f: Field, ascii: bool)
      requires Finite(f.value)
      modifies this
      ensures text == old(text) + FieldText(f, ascii)
      decreases f, 0
    {
      WriteStr(f.name, ascii);
      Push(": ");
      WriteValue(f.value, ascii);
    }

    method WriteFields(fields: seq<Field>, ascii: bool)
      requires forall k :: 0 <= k < |fields| ==> Finite(fields[k].value)
      modifies this
      ensures text == old(text) + Join(FieldTexts(fields, ascii), 0)
      decreases fields, 0
    {
      ghost var start, parts := text, FieldTexts(fields, ascii);
      for i := 0 to |fields|
        invariant text + Join(parts, i) == start + Join(parts, 0)
      {
        ghost var was := text;
        if i > 0 {
          Push(", ");
        }
        WriteField(fields[i], ascii);
        Regroup3(was, if i > 0 then ", " else "", parts[i], Join(parts, i + 1));
      }
    }
  }

  lemma Regroup3(was: string, sep: string, t: string, rest: string)
    ensures was + (sep + t + rest) == (if sep == "" then was + t else was + sep + t) + rest
  {
    assert sep == "" ==> sep + t == t;
  }

  /** The UTF-16 code units of a character. */
  function Utf16(c: char): (units: seq<nat>)
    ensures 1 <= |units| <= 2 && forall k :: 0 <= k < |units| ==> units[k] < 0x10000
  {
    if c as int < 0x10000 then [c as int]
    else [0xD800 + (c as int - 0x10000) / 0x400, 0xDC00 + (c as int - 0x10000) % 0x400]
  }

  lemma Enclose(a: string, open: string, inner: string, close: string)
    ensures a + open + inner + close == a + (open + inner + close)
  {
  }

  lemma Regroup(a: string, b: string, c: string)
    ensures a + (b + c) == (a + b) + c
  {
  }

  method Dumps(v: Value, ascii: bool) returns (t: string)
    requires Finite(v)
    ensures t == Text(v, ascii)
  {
    var out := new Out();
    out.WriteValue(v, ascii);
    t := out.text;
  }
}
