/** The printed text, spelled out: what no reader of JSON would insist on. */
module JsonSpelled {
  import opened Types
  import opened PyJson
  import opened JsonParser
  import opened JsonRoundTrip

  // ---------- Words ----------

  lemma WordsAreSpelled(ascii: bool)
    ensures Text(Null, ascii) == "null" && Text(Bool(true), ascii) == "true" && Text(Bool(false), ascii) == "false"
  {
  }

  // ---------- Lists and objects ----------

  /** The parts with a comma and one space between them. */
  function Listed(parts: seq<string>): string {
    if parts == [] then "" else if |parts| == 1 then parts[0] else Listed(parts[..|parts| - 1]) + ", " + parts[|parts| - 1]
  }

  lemma {:induction false} JoinIsListed(parts: seq<string>, i: nat)
    requires i < |parts|
    ensures Join(parts, 0) == Listed(parts[..i + 1]) + Join(parts, i + 1)
    decreases i
  {
    assert parts[..i + 1][..i] == parts[..i];
    if i > 0 {
      JoinIsListed(parts, i - 1);
      assert Join(parts, i) == ", " + parts[i] + Join(parts, i + 1);
      assert Listed(parts[..i]) + (", " + parts[i] + Join(parts, i + 1)) == Listed(parts[..i + 1]) + Join(parts, i + 1);
    } else {
      assert Join(parts, 0) == "" + parts[0] + Join(parts, 1) == parts[0] + Join(parts, 1);
    }
  }

  lemma JoinedIsListed(parts: seq<string>)
    ensures Join(parts, 0) == Listed(parts)
  {
    if parts != [] {
      JoinIsListed(parts, |parts| - 1);
      assert parts[..|parts|] == parts && Listed(parts) + "" == Listed(parts);
    }
  }

  /** A list: its values' texts in order, a comma and one space between them, in brackets. */
  lemma ListIsSpelled(items: seq<Value>, ascii: bool, parts: seq<string>)
    requires Finite(Arr(items)) && |parts| == |items| && forall k :: 0 <= k < |items| ==> parts[k] == Text(items[k], ascii)
    ensures Text(Arr(items), ascii) == "[" + Listed(parts) + "]"
  {
    assert Texts(items, ascii) == parts;
    JoinedIsListed(parts);
  }

  /** An object: its fields in order, each its quoted name, a colon, one space and its value. */
  lemma ObjectIsSpelled(fields: seq<Field>, ascii: bool, parts: seq<string>)
    requires Finite(Obj(fields)) && |parts| == |fields|
    requires forall k :: 0 <= k < |fields| ==> parts[k] == Text(Str(fields[k].name), ascii) + ": " + Text(fields[k].value, ascii)
    ensures Text(Obj(fields), ascii) == "{" + Listed(parts) + "}"
  {
    assert FieldTexts(fields, ascii) == parts;
    JoinedIsListed(parts);
  }

  // ---------- Strings ----------

  function Concat(parts: seq<string>): string {
    if parts == [] then "" else Concat(parts[..|parts| - 1]) + parts[|parts| - 1]
  }

  lemma ConcatNext(parts: seq<string>, i: nat)
    requires i < |parts|
    ensures Concat(parts[..i + 1]) == Concat(parts[..i]) + parts[i]
  {
    assert parts[..i + 1][..i] == parts[..i];
  }

  lemma {:induction false} EscapesConcat(s: string, ascii: bool, parts: seq<string>, i: nat)
    requires |parts| == |s| && i <= |s| && forall k :: 0 <= k < |s| ==> parts[k] == Escape(s[k], ascii)
    ensures Escapes(s, 0, ascii) == Concat(parts[..i]) + Escapes(s, i, ascii)
    decreases i
  {
    if i > 0 {
      EscapesConcat(s, ascii, parts, i - 1);
      ConcatNext(parts, i - 1);
      Regroup(Concat(parts[..i - 1]), parts[i - 1], Escapes(s, i, ascii));
    } else {
      assert "" + Escapes(s, 0, ascii) == Escapes(s, 0, ascii);
    }
  }

  /** A lower-case hexadecimal digit. */
  predicate HexDigit(c: char, v: nat) {
    if v < 10 then c as int == '0' as int + v else v < 16 && c as int == 'a' as int + (v - 10)
  }

  /** Backslash, u, and the code unit in four lower-case hexadecimal digits. */
  predicate IsUnit(t: string, u: nat) {
    && |t| == 6 && t[0] == '\\' && t[1] == 'u' && u < 0x10000
    && HexDigit(t[2], u / 4096) && HexDigit(t[3], u / 256 % 16) && HexDigit(t[4], u / 16 % 16) && HexDigit(t[5], u % 16)
  }

  /** How one character is written: the short escapes, code units for other control characters and what is not ASCII. */
  predicate IsWritten(c: char, ascii: bool, t: string) {
    var n := c as int;
    if n == 34 then t == "\\\""
    else if n == 92 then t == "\\\\"
    else if n == 10 then t == "\\n"
    else if n == 13 then t == "\\r"
    else if n == 9 then t == "\\t"
    else if n == 8 then t == "\\b"
    else if n == 12 then t == "\\f"
    else if n < 32 then IsUnit(t, n)
    else if ascii && n > 126 then
      if n < 0x10000 then IsUnit(t, n)
      else |t| == 12 && IsUnit(t[..6], 0xD800 + (n - 0x10000) / 1024) && IsUnit(t[6..], 0xDC00 + (n - 0x10000) % 1024)
    else t == [c]
  }

  lemma UnitIsSpelled(u: nat)
    requires u < 0x10000
    ensures IsUnit(Unit(u), u)
  {
  }

  lemma CharIsSpelled(c: char, ascii: bool)
    ensures IsWritten(c, ascii, Escape(c, ascii))
  {
    var n := c as int;
    if n < 0x10000 {
      UnitIsSpelled(n);
    } else {
      var a, b := 0xD800 + (n - 0x10000) / 1024, 0xDC00 + (n - 0x10000) % 1024;
      UnitIsSpelled(a);
      UnitIsSpelled(b);
      assert (Unit(a) + Unit(b))[..6] == Unit(a) && (Unit(a) + Unit(b))[6..] == Unit(b);
    }
  }

  /** A string: its characters as written, one after the other, in quotes. */
  lemma StringIsSpelled(s: string, ascii: bool) returns (parts: seq<string>)
    ensures |parts| == |s| && (forall k :: 0 <= k < |s| ==> IsWritten(s[k], ascii, parts[k]))
    ensures Text(Str(s), ascii) == "\"" + Concat(parts) + "\""
  {
    parts := seq(|s|, k requires 0 <= k < |s| => Escape(s[k], ascii));
    forall k | 0 <= k < |s| ensures IsWritten(s[k], ascii, parts[k]) {
      CharIsSpelled(s[k], ascii);
    }
    EscapesConcat(s, ascii, parts, |s|);
    assert parts[..|s|] == parts && Concat(parts) + "" == Concat(parts);
  }

  // ---------- Numbers ----------

  /** Decimal digits of a number, without needless zeros in front. */
  predicate Decimal(t: string, n: nat) {
    AllDigits(t) && t != [] && NatOf(t) == n && (|t| > 1 ==> t[0] != '0')
  }

  lemma NatIsSpelled(n: nat)
    ensures Decimal(NatText(n), n)
  {
    NatTextReads(n);
  }

  lemma IntIsSpelled(n: int, ascii: bool)
    ensures n >= 0 ==> Decimal(Text(Int(n), ascii), n)
    ensures n < 0 ==> Text(Int(n), ascii) != [] && Text(Int(n), ascii)[0] == '-' && Decimal(Text(Int(n), ascii)[1..], -n)
  {
    NatIsSpelled(if n < 0 then -n else n);
  }

  predicate AllZeros(t: string, n: nat) {
    |t| == n && forall k :: 0 <= k < n ==> t[k] == '0'
  }

  /** An exponent: its sign, always there, and two digits or as many as it takes. */
  ghost predicate IsExponent(t: string, e: int) {
    && |t| >= 3 && t[0] == (if e < 0 then '-' else '+')
    && var n := if e < 0 then -e else e;
       if n < 10 then |t| == 3 && t[1] == '0' && Decimal(t[2..], n) else Decimal(t[1..], n)
  }

  lemma ExponentIsSpelled(e: int)
    ensures IsExponent(ExpText(e), e)
  {
    var n := if e < 0 then -e else e;
    NatIsSpelled(n);
    NatTextReads(n);
    var t := ExpText(e);
    if n < 10 {
      assert t[2..] == NatText(n);
    } else {
      assert t[1..] == NatText(n);
      assert |NatText(n)| >= 2;
    }
  }

  /**
   * A float's digits d and exponent e, meaning d1.d2... times ten to the e. Scientific below 1e-4 and from 1e16 on;
   * else the point stands where it belongs, with a zero on either side where no digit is.
   */
  ghost predicate IsFloat(t: string, d: string, e: int)
    requires d != []
  {
    if e < -4 || e > 15 then
      exists x :: IsExponent(x, e) && t == (if |d| == 1 then d else d[..1] + "." + d[1..]) + "e" + x
    else if e < 0 then
      exists z :: AllZeros(z, -e - 1) && t == "0." + z + d
    else if |d| <= e + 1 then
      exists z :: AllZeros(z, e + 1 - |d|) && t == d + z + ".0"
    else
      t == d[..e + 1] + "." + d[e + 1..]
  }

  lemma FloatIsSpelled(neg: bool, digits: string, exp: int, ascii: bool)
    requires Finite(Float(neg, digits, exp))
    ensures var t := Text(Float(neg, digits, exp), ascii);
            if neg then t != [] && t[0] == '-' && IsFloat(t[1..], digits, exp) else IsFloat(t, digits, exp)
  {
    var t, body := Text(Float(neg, digits, exp), ascii), FloatBody(digits, exp);
    BodyIsSpelled(digits, exp);
    assert if neg then t[1..] == body else "" + body == body;
  }

  lemma BodyIsSpelled(digits: string, exp: int)
    requires digits != []
    ensures IsFloat(FloatBody(digits, exp), digits, exp)
  {
    if exp < -4 || exp > 15 {
      ExponentIsSpelled(exp);
      assert |digits| == 1 ==> digits[..1] + "" == digits;
      assert digits[..1] + ("." + digits[1..]) == digits[..1] + "." + digits[1..];
    } else if exp < 0 {
      assert AllZeros(Zeros(-exp - 1), -exp - 1);
    } else if |digits| <= exp + 1 {
      assert AllZeros(Zeros(exp + 1 - |digits|), exp + 1 - |digits|);
    }
  }
}
