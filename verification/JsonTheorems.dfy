/** What the printer promises: it can be undone, it says what it was given, and in ASCII mode it emits only ASCII. */
module JsonTheorems {
  import opened Types
  import opened PyJson
  import opened JsonParser
  import opened JsonRoundTrip

  /** Reading the printed text, followed by nothing or by any delimiter, returns the value and the rest. */
  lemma DumpsRoundTrip(v: Value, ascii: bool, rest: string)
    requires Finite(v)
    requires rest != [] ==> !IsDigit(rest[0]) && rest[0] != '.' && rest[0] != 'e' && rest[0] != 'E'
    ensures var t := Text(v, ascii); Parse(t + rest, 0) == Some((v, |t|)) && (t + rest)[|t|..] == rest
  {
    var t := Text(v, ascii);
    PrefixReads(v, ascii, t, rest, t + rest);
  }

  lemma PrefixReads(v: Value, ascii: bool, t: string, rest: string, s: string)
    requires Finite(v) && t == Text(v, ascii) && s == t + rest
    requires rest != [] ==> !IsDigit(rest[0]) && rest[0] != '.' && rest[0] != 'e' && rest[0] != 'E'
    ensures Parse(s, 0) == Some((v, |t|)) && s[|t|..] == rest
  {
    TextThenRest(t, rest);
    ValueReads(s, 0, v, ascii, t);
  }

  /** Different values never print alike, not even in different modes. */
  lemma DumpsIsInjective(v: Value, w: Value, ascii: bool, ascii': bool)
    requires Finite(v) && Finite(w) && Text(v, ascii) == Text(w, ascii')
    ensures v == w
  {
    var t := Text(v, ascii);
    ValueReads(t, 0, v, ascii, t);
    ValueReads(t, 0, w, ascii', t);
  }

  /** The text says which kind of number it is: only floats show a point or an exponent. */
  lemma NumbersPrintApart(n: int, neg: bool, digits: string, exp: int)
    requires Mantissa(digits, exp)
    ensures forall k :: 0 <= k < |IntText(n)| ==> IntText(n)[k] == '-' || IsDigit(IntText(n)[k])
    ensures 'e' in FloatText(neg, digits, exp) <==> Scientific(exp)
    ensures !Scientific(exp) ==> '.' in FloatText(neg, digits, exp)
  {
    var whole, frac, e := FloatParted(neg, digits, exp);
    var sign := Sign(neg);
    PartsShow(sign, whole, frac, e);
  }

  /** A float's text by its parts. */
  lemma FloatParted(neg: bool, digits: string, exp: int) returns (whole: string, frac: string, e: Option<int>)
    requires Mantissa(digits, exp)
    ensures WellParted(whole, frac, e) && FloatText(neg, digits, exp) == NumText(neg, whole, frac, e)
    ensures e == if Scientific(exp) then Some(exp) else None
  {
    var layout := Layout(digits, exp);
    whole, frac, e := layout.0, layout.1, layout.2;
    FloatTextIsLayout(neg, digits, exp);
    LayoutIsText(digits, exp);
  }

  lemma PartsShow(sign: string, whole: string, frac: string, e: Option<int>)
    requires WellParted(whole, frac, e) && (sign == "" || sign == "-")
    ensures var t := sign + (whole + Tail(frac, e));
            && ('e' in t <==> e.Some?) && (e.None? ==> '.' in t)
  {
    Shown(sign, whole, DotText(frac), ETail(e));
  }

  predicate Without(t: string, c: char) {
    forall k :: 0 <= k < |t| ==> t[k] != c
  }

  /** Only the exponent shows an 'e'. */
  lemma Shown(sign: string, whole: string, point: string, tail: string)
    requires Without(sign, 'e') && Without(whole, 'e') && Without(point, 'e') && (tail == "" || tail[0] == 'e')
    ensures var t := sign + (whole + (point + tail));
            ('e' in t <==> tail != "") && (point != "" && point[0] == '.' ==> '.' in t)
  {
    var t := sign + (whole + (point + tail));
    if point != "" {
      assert t[|sign| + |whole|] == point[0];
    }
    if tail != "" {
      assert t[|sign| + |whole| + |point|] == 'e';
    }
  }

  // ---------- The exact decimal value ----------

  function Ten(k: nat): (p: nat)
    ensures p > 0
  {
    if k == 0 then 1 else 10 * Ten(k - 1)
  }

  /** 10^e for any integer e. */
  function Power(e: int): (p: real)
    ensures p > 0.0
  {
    if e >= 0 then Ten(e) as real else 1.0 / (Ten(-e) as real)
  }

  lemma PowerStep(e: int)
    ensures Power(e + 1) == 10.0 * Power(e)
  {
    if e < 0 {
      var a, b := Ten(-e) as real, Ten(-e - 1) as real;
      assert a == 10.0 * b;
      assert 10.0 * (1.0 / (10.0 * b)) == 1.0 / b;
    }
  }

  /** The number that sign, digits and the place of the point denote: 0.DIGITS x 10^decpt. */
  function Denoted(neg: bool, digits: string, decpt: int): real
    requires AllDigits(digits)
  {
    Scaled(neg, NatOf(digits), decpt - |digits|)
  }

  /** n x 10^e with a sign. */
  function Scaled(neg: bool, n: nat, e: int): real {
    if neg then -((n as real) * Power(e)) else (n as real) * Power(e)
  }

  /** The number a float stands for: d1.d2...dn x 10^exp. */
  function Number(v: Value): real
    requires v.Float? && AllDigits(v.digits)
  {
    Denoted(v.neg, v.digits, v.exp + 1)
  }

  lemma {:induction false} NatOfZero(digits: string)
    requires AllDigits(digits) && digits != [] && digits[0] == '0'
    ensures NatOf(digits) == NatOf(digits[1..])
    decreases |digits|
  {
    var n := |digits| - 1;
    if n > 0 {
      NatOfZero(digits[..n]);
      assert digits[..n][1..] == digits[1..][..n - 1];
    } else {
      assert NatOf(digits) == 10 * NatOf([]) + 0;
    }
  }

  lemma LeadStep(neg: bool, digits: string, decpt: int)
    requires AllDigits(digits) && digits != [] && digits[0] == '0'
    ensures Denoted(neg, digits[1..], decpt - 1) == Denoted(neg, digits, decpt)
  {
    NatOfZero(digits);
    assert (decpt - 1) - |digits[1..]| == decpt - |digits|;
  }

  /** Dropping leading zeros moves the point and keeps the number. */
  lemma {:induction false} LeadKeeps(neg: bool, digits: string, decpt: int, d: string, p: int)
    requires AllDigits(digits) && Lead(digits, decpt) == (d, p)
    ensures AllDigits(d) && Denoted(neg, d, p) == Denoted(neg, digits, decpt) && (d != [] ==> d[0] != '0')
    decreases |digits|
  {
    if digits != [] && digits[0] == '0' {
      LeadStep(neg, digits, decpt);
      LeadKeeps(neg, digits[1..], decpt - 1, d, p);
    }
  }

  lemma TenFold(neg: bool, n: nat, e: int)
    ensures Scaled(neg, 10 * n, e) == Scaled(neg, n, e + 1)
  {
    PowerStep(e);
    assert (10 * n) as real == 10.0 * (n as real);
    assert (10.0 * (n as real)) * Power(e) == (n as real) * (10.0 * Power(e));
  }

  lemma TrailStep(neg: bool, digits: string, decpt: int)
    requires AllDigits(digits) && digits != [] && digits[|digits| - 1] == '0'
    ensures Denoted(neg, digits[..|digits| - 1], decpt) == Denoted(neg, digits, decpt)
  {
    var d := digits[..|digits| - 1];
    assert NatOf(digits) == 10 * NatOf(d);
    TenFold(neg, NatOf(d), decpt - |digits|);
    assert decpt - |d| == decpt - |digits| + 1;
  }

  lemma {:induction false} TrailKeeps(neg: bool, digits: string, decpt: int, t: string)
    requires AllDigits(digits) && t == Trail(digits)
    ensures AllDigits(t) && Denoted(neg, t, decpt) == Denoted(neg, digits, decpt)
    ensures t != [] ==> t[0] == digits[0] && t[|t| - 1] != '0'
    decreases |digits|
  {
    if digits != [] && digits[|digits| - 1] == '0' {
      TrailStep(neg, digits, decpt);
      TrailKeeps(neg, digits[..|digits| - 1], decpt, t);
    }
  }

  /** The shortest form keeps the number, and is a shortest decimal. */
  lemma CanonKeeps(neg: bool, digits: string, decpt: int)
    requires AllDigits(digits)
    ensures var v := Canon(neg, digits, decpt);
            v.Float? && v.neg == neg && Shortest(v.digits, v.exp) && Number(v) == Denoted(neg, digits, decpt)
  {
    var (d, p) := Lead(digits, decpt);
    LeadKeeps(neg, digits, decpt, d, p);
    TrailKeeps(neg, d, p, Trail(d));
    if Trail(d) == [] {
      assert NatOf("0") == 10 * NatOf([]) + 0;
    }
  }

  /**
   * Whatever sign, digits and exponent the formatter reports, either layout reads back as a float with exactly
   * that sign and that decimal value.
   */
  lemma FloatTextIsExact(neg: bool, digits: string, exp: int, rest: string)
    requires Mantissa(digits, exp)
    requires rest != [] ==> !IsDigit(rest[0]) && rest[0] != '.' && rest[0] != 'e' && rest[0] != 'E'
    ensures var t := FloatText(neg, digits, exp);
            exists v: Value ::
              && Parse(t + rest, 0) == Some((v, |t|)) && v.Float? && v.neg == neg
              && AllDigits(v.digits) && Number(v) == Denoted(neg, digits, exp + 1)
  {
    var t, v := FloatText(neg, digits, exp), Canon(neg, digits, exp + 1);
    CanonKeeps(neg, digits, exp + 1);
    FloatPrefixReads(neg, digits, exp, t, rest, t + rest, v);
  }

  lemma FloatPrefixReads(neg: bool, digits: string, exp: int, t: string, rest: string, s: string, v: Value)
    requires Mantissa(digits, exp) && t == FloatText(neg, digits, exp) && v == Canon(neg, digits, exp + 1) && s == t + rest
    requires rest != [] ==> !IsDigit(rest[0]) && rest[0] != '.' && rest[0] != 'e' && rest[0] != 'E'
    ensures Parse(s, 0) == Some((v, |t|))
  {
    TextThenRest(t, rest);
    FloatReads(s, 0, neg, digits, exp, t);
  }

  lemma TextThenRest(t: string, rest: string)
    requires rest != [] ==> !IsDigit(rest[0]) && rest[0] != '.' && rest[0] != 'e' && rest[0] != 'E'
    ensures Has(t + rest, 0, t) && Delimited(t + rest, |t|) && (t + rest)[|t|..] == rest
  {
  }

  // ---------- ASCII mode ----------

  predicate Plain(t: string) {
    forall k :: 0 <= k < |t| ==> ' ' <= t[k] <= '~'
  }

  lemma HexIsPlain(u: nat)
    requires u < 0x10000
    ensures Plain(Unit(u)) && |Unit(u)| == 6
  {
  }

  lemma EscapeIsPlain(c: char)
    ensures Plain(Escape(c, true))
  {
    var n := c as int;
    if n < 0x10000 {
      HexIsPlain(n);
    } else {
      HexIsPlain(0xD800 + (n - 0x10000) / 0x400);
      HexIsPlain(0xDC00 + (n - 0x10000) % 0x400);
    }
  }

  lemma {:induction false} StrIsPlain(s: string, i: nat)
    requires i <= |s|
    ensures Plain(Escapes(s, i, true))
    decreases |s| - i
  {
    if i < |s| {
      EscapeIsPlain(s[i]);
      StrIsPlain(s, i + 1);
    }
  }

  lemma {:induction false} JoinIsPlain(parts: seq<string>, i: nat)
    requires i <= |parts| && forall k :: 0 <= k < |parts| ==> Plain(parts[k])
    ensures Plain(Join(parts, i))
    decreases |parts| - i
  {
    if i < |parts| {
      JoinIsPlain(parts, i + 1);
    }
  }

  lemma FloatIsPlain(neg: bool, digits: string, exp: int)
    requires Mantissa(digits, exp)
    ensures Plain(FloatText(neg, digits, exp))
  {
    var whole, frac, e := FloatParted(neg, digits, exp);
    TailIsPlain(frac, e);
  }

  lemma TailIsPlain(frac: string, e: Option<int>)
    requires AllDigits(frac)
    ensures Plain(Tail(frac, e))
  {
  }

  lemma IntIsPlain(n: int)
    ensures Plain(IntText(n))
  {
  }

  /** ASCII mode emits only the characters from space to tilde. */
  lemma {:induction false} AsciiIsPlain(v: Value)
    requires Finite(v)
    ensures Plain(Text(v, true))
    decreases v, 1
  {
    match v {
      case Int(n) => IntIsPlain(n);
      case Float(neg, digits, exp) => FloatIsPlain(neg, digits, exp);
      case Str(s) => StrIsPlain(s, 0);
      case Arr(items) => ItemsArePlain(items, Texts(items, true));
      case Obj(fields) => FieldsArePlain(fields, FieldTexts(fields, true));
      case _ =>
    }
  }

  lemma {:induction false} ItemsArePlain(items: seq<Value>, parts: seq<string>)
    requires AllFinite(items) && |parts| == |items| && forall k :: 0 <= k < |items| ==> parts[k] == Text(items[k], true)
    ensures Plain(Join(parts, 0))
    decreases items, 0
  {
    forall k | 0 <= k < |parts| ensures Plain(parts[k]) {
      AsciiIsPlain(items[k]);
    }
    JoinIsPlain(parts, 0);
  }

  lemma {:induction false} FieldsArePlain(fields: seq<Field>, parts: seq<string>)
    requires FieldsFinite(fields) && |parts| == |fields| && forall k :: 0 <= k < |fields| ==> parts[k] == FieldText(fields[k], true)
    ensures Plain(Join(parts, 0))
    decreases fields, 0
  {
    forall k | 0 <= k < |parts| ensures Plain(parts[k]) {
      StrIsPlain(fields[k].name, 0);
      AsciiIsPlain(fields[k].value);
    }
    JoinIsPlain(parts, 0);
  }

  /** A character outside ASCII is written as its UTF-16 code units: a surrogate pair beyond the first plane. */
  lemma UnicodeEscapes(c: char)
    requires c > '~'
    ensures var units := Utf16(c);
            && Escape(c, true) == (if |units| == 1 then Unit(units[0]) else Unit(units[0]) + Unit(units[1]))
            && (|units| == 2 <==> c as int >= 0x10000)
            && (|units| == 2 ==> 0xD800 <= units[0] < 0xDC00 <= units[1] < 0xE000)
            && (|units| == 2 ==> 0x10000 + (units[0] - 0xD800) * 0x400 + (units[1] - 0xDC00) == c as int)
  {
  }
}
