/** Reading back what was printed gives the value that was printed. */
module JsonRoundTrip {
  import opened Types
  import opened PyJson
  import opened JsonParser

  // ---------- Positions ----------

  lemma HasSplit(s: string, i: nat, a: string, b: string)
    ensures Has(s, i, a + b) <==> Has(s, i, a) && Has(s, i + |a|, b)
  {
    if Has(s, i, a + b) {
      forall k | 0 <= k < |a| ensures s[i + k] == a[k] {
        assert (a + b)[k] == a[k];
      }
      forall k | 0 <= k < |b| ensures s[i + |a| + k] == b[k] {
        assert (a + b)[|a| + k] == b[k];
      }
    }
    if Has(s, i, a) && Has(s, i + |a|, b) {
      forall k | 0 <= k < |a + b| ensures s[i + k] == (a + b)[k] {
        assert k >= |a| ==> s[i + k] == b[k - |a|];
      }
    }
  }

  /** The first characters found at `i`. */
  lemma HasAt(s: string, i: nat, t: string)
    requires Has(s, i, t)
    ensures t != [] ==> s[i] == t[0]
    ensures |t| > 1 ==> s[i + 1] == t[1]
    ensures s[i..i + |t|] == t
  {
    assert t != [] ==> s[i + 0] == t[0];
  }

  /** What may follow a number without being read as part of it. */
  predicate Delimited(s: string, j: nat) {
    j == |s| || (j < |s| && !IsDigit(s[j]) && s[j] != '.' && s[j] != 'e' && s[j] != 'E')
  }

  predicate DigitsStop(s: string, j: nat) {
    j == |s| || (j < |s| && !IsDigit(s[j]))
  }

  // ---------- Numbers ----------

  lemma {:induction false} DigitsEndAt(s: string, i: nat, d: string)
    requires Has(s, i, d) && AllDigits(d) && DigitsStop(s, i + |d|)
    ensures DigitsEnd(s, i) == i + |d|
    decreases |d|
  {
    HasAt(s, i, d);
    if d != [] {
      forall k | 0 <= k < |d[1..]| ensures s[i + 1 + k] == d[1..][k] {
        assert s[i + (k + 1)] == d[k + 1];
      }
      DigitsEndAt(s, i + 1, d[1..]);
    }
  }

  lemma {:induction false} NatTextReads(n: nat)
    ensures NatOf(NatText(n)) == n
    ensures n > 0 ==> NatText(n)[0] != '0'
    ensures n < 10 ==> |NatText(n)| == 1
  {
    if n >= 10 {
      NatTextReads(n / 10);
      var t := NatText(n);
      assert t[..|t| - 1] == NatText(n / 10);
    } else {
      assert NatOf([DigitChar(n)]) == 10 * NatOf([]) + n;
    }
  }

  lemma NatTextStarts(n: nat)
    ensures IsDigit(NatText(n)[0])
  {
  }

  /** Where an integer's digits lie. */
  lemma IntLies(s: string, i: nat, n: int) returns (a: nat)
    requires Has(s, i, IntText(n))
    ensures i <= a && a + |NatText(Abs(n))| == i + |IntText(n)| && Has(s, a, NatText(Abs(n)))
    ensures a == (if n < 0 then i + 1 else i) && a < |s| && (s[i] == '-' <==> n < 0) && (IsDigit(s[i]) || s[i] == '-')
  {
    var t := NatText(Abs(n));
    a := if n < 0 then i + 1 else i;
    NatTextStarts(Abs(n));
    if n < 0 {
      HasSplit(s, i, "-", t);
      HasAt(s, i, "-");
    }
    HasAt(s, a, t);
  }

  /** The reader's positions for an integer, put together. */
  lemma IntAt(s: string, i: nat, neg: bool, a: nat, b: nat, n: int)
    requires i <= a < b <= |s| && (s[i] == '-' <==> neg) && (IsDigit(s[i]) || s[i] == '-') && a == (if neg then i + 1 else i)
    requires IntEnd(s, a) == b && Delimited(s, b) && n == Signed(neg, NatOf(s[a..b]))
    ensures Parse(s, i) == Some((Int(n), b))
  {
    NotLiteral(s, i);
  }

  lemma IntReads(s: string, i: nat, n: int, end: nat)
    requires Has(s, i, IntText(n)) && end == i + |IntText(n)| && Delimited(s, end)
    ensures i < |s| && Parse(s, i) == Some((Int(n), end))
  {
    var t := NatText(Abs(n));
    NatTextReads(Abs(n));
    var a := IntLies(s, i, n);
    WholeReads(s, a, t);
    IntAt(s, i, n < 0, a, end, n);
  }

  /** A text starting with a digit or a minus is none of the literals. */
  lemma NotLiteral(s: string, i: nat)
    requires i < |s| && (IsDigit(s[i]) || s[i] == '-')
    ensures Parse(s, i) == ParseNumber(s, i)
  {
  }

  /** The exponent's digits, padded to two. */
  function ExpDigits(e: int): string {
    (if Abs(e) < 10 then "0" else "") + NatText(Abs(e))
  }

  lemma ExpDigitsRead(e: int)
    ensures AllDigits(ExpDigits(e)) && ExpDigits(e) != [] && NatOf(ExpDigits(e)) == Abs(e)
  {
    NatTextReads(Abs(e));
    if Abs(e) < 10 {
      var d := ExpDigits(e);
      assert d == ['0', DigitChar(Abs(e))];
      assert d[..1] == ['0'] && ['0'][..0] == [];
      assert NatOf(['0']) == 0;
    } else {
      assert ExpDigits(e) == NatText(Abs(e));
    }
  }

  lemma ExpReads(s: string, k: nat, e: int)
    requires Has(s, k, "e" + ExpText(e)) && DigitsStop(s, k + 1 + |ExpText(e)|)
    ensures ParseExp(s, k) == Some((e, k + 1 + |ExpText(e)|))
  {
    var sign := if e < 0 then "-" else "+";
    var d := ExpDigits(e);
    assert ExpText(e) == sign + d;
    HasSplit(s, k, "e", ExpText(e));
    HasSplit(s, k + 1, sign, d);
    HasAt(s, k, "e");
    HasAt(s, k + 1, sign);
    ExpDigitsRead(e);
    DigitsEndAt(s, k + 2, d);
    SignedExp(s, k, d, e);
  }

  lemma SignedExp(s: string, k: nat, d: string, e: int)
    requires k + 2 <= |s| && s[k] == 'e' && s[k + 1] == if e < 0 then '-' else '+'
    requires Has(s, k + 2, d) && DigitsEnd(s, k + 2) == k + 2 + |d| && d != [] && AllDigits(d) && NatOf(d) == Abs(e)
    ensures ParseExp(s, k) == Some((e, k + 2 + |d|))
  {
    HasAt(s, k + 2, d);
  }

  lemma FracReads(s: string, k: nat, d: string)
    requires Has(s, k, "." + d) && AllDigits(d) && d != [] && DigitsStop(s, k + 1 + |d|)
    ensures FracEnd(s, k) == Some(k + 1 + |d|) && s[k + 1..k + 1 + |d|] == d
  {
    HasSplit(s, k, ".", d);
    HasAt(s, k, ".");
    DigitsEndAt(s, k + 1, d);
  }

  /** The text of a fraction and exponent, either of which may be missing. */
  function Tail(frac: string, exp: Option<int>): string {
    DotText(frac) + ETail(exp)
  }

  function ExpOf(exp: Option<int>): int {
    if exp.None? then 0 else exp.value
  }

  function DotText(frac: string): string {
    if frac == [] then "" else "." + frac
  }

  function ETail(exp: Option<int>): string {
    if exp.None? then "" else "e" + ExpText(exp.value)
  }

  /** Where the fraction ends and the exponent begins: nothing of a number follows either. */
  lemma TwoParts(s: string, b: nat, dot: string, tail: string, end: nat)
    requires dot != "" || tail != ""
    requires (dot == "" || dot[0] == '.') && (tail == "" || tail[0] == 'e')
    requires Has(s, b, dot + tail) && end == b + |dot| + |tail| && Delimited(s, end)
    ensures var c := b + |dot|;
            && Has(s, b, dot) && Has(s, c, tail) && b < |s| && DigitsStop(s, b) && DigitsStop(s, c)
            && (dot == "" ==> s[b] != '.')
  {
    HasSplit(s, b, dot, tail);
    HasAt(s, b, dot);
    HasAt(s, b + |dot|, tail);
  }

  /** The digits between a point at `b` and `c`; none when there is no point. */
  function FracDigits(s: string, b: nat, c: nat): string
    requires b <= c <= |s|
  {
    if c > b then s[b + 1..c] else ""
  }

  lemma FracAt(s: string, b: nat, frac: string, c: nat)
    requires AllDigits(frac) && b < |s| && c == b + |DotText(frac)| && Has(s, b, DotText(frac)) && DigitsStop(s, c)
    requires frac == [] ==> s[b] != '.'
    ensures c <= |s| && FracEnd(s, b) == Some(c) && FracDigits(s, b, c) == frac
  {
    if frac != [] {
      FracReads(s, b, frac);
    }
  }

  /** The reader's view of fraction and exponent: where they end and what they say. */
  predicate TailIs(s: string, b: nat, c: nat, end: nat, frac: string, e: int) {
    && b <= c <= end <= |s| && b < end && DigitsStop(s, b)
    && FracEnd(s, b) == Some(c) && FracDigits(s, b, c) == frac && ParseExp(s, c) == Some((e, end))
  }

  lemma TailReads(s: string, b: nat, c: nat, end: nat, frac: string, exp: Option<int>, dot: string, et: string)
    requires AllDigits(frac) && dot == DotText(frac) && et == ETail(exp) && (dot != "" || et != "")
    requires b < |s| && Has(s, b, dot) && c == b + |dot| && Has(s, c, et) && end == c + |et| && Delimited(s, end)
    requires DigitsStop(s, b) && DigitsStop(s, c) && (dot == "" ==> s[b] != '.')
    ensures TailIs(s, b, c, end, frac, ExpOf(exp))
  {
    FracAt(s, b, frac, c);
    ExpAt(s, c, exp, end);
  }

  lemma ExpAt(s: string, c: nat, exp: Option<int>, end: nat)
    requires c <= |s| && end == c + |ETail(exp)| && Has(s, c, ETail(exp)) && Delimited(s, end)
    ensures ParseExp(s, c) == Some((ExpOf(exp), end))
  {
    if exp.Some? {
      ExpReads(s, c, exp.value);
    }
  }

  lemma WholeReads(s: string, a: nat, whole: string)
    requires AllDigits(whole) && whole != [] && (whole[0] != '0' || |whole| == 1)
    requires Has(s, a, whole) && DigitsStop(s, a + |whole|)
    ensures a < |s| && s[a] == whole[0] && IntEnd(s, a) == a + |whole| && s[a..a + |whole|] == whole
  {
    HasAt(s, a, whole);
    DigitsEndAt(s, a, whole);
    assert s[a] == whole[0];
  }

  /** The reader's positions, put together. */
  lemma NumberAt(s: string, i: nat, neg: bool, a: nat, b: nat, c: nat, j: nat, e: int)
    requires i <= a < b <= c <= j <= |s| && j > b && (s[i] == '-' <==> neg) && a == (if neg then i + 1 else i)
    requires IntEnd(s, a) == b && FracEnd(s, b) == Some(c) && ParseExp(s, c) == Some((e, j))
    ensures ParseNumber(s, i) == Some((Canon(neg, s[a..b] + FracDigits(s, b, c), (b - a) + e), j))
  {
  }

  function Sign(neg: bool): string {
    if neg then "-" else ""
  }

  function NumText(neg: bool, whole: string, frac: string, exp: Option<int>): string {
    Sign(neg) + (whole + Tail(frac, exp))
  }

  /** Where the parts of a number lie. */
  lemma PartsAt(s: string, i: nat, neg: bool, whole: string, tail: string) returns (a: nat, b: nat)
    requires Has(s, i, Sign(neg) + (whole + tail)) && whole != [] && IsDigit(whole[0])
    ensures a == (if neg then i + 1 else i) && b == a + |whole| && b + |tail| == i + |Sign(neg) + (whole + tail)|
    ensures Has(s, a, whole) && Has(s, b, tail)
    ensures i <= a < |s| && (s[i] == '-' <==> neg) && (IsDigit(s[i]) || s[i] == '-')
  {
    a := i + |Sign(neg)|;
    b := a + |whole|;
    HasSplit(s, i, Sign(neg), whole + tail);
    HasSplit(s, a, whole, tail);
    HasAt(s, i, Sign(neg));
    HasAt(s, a, whole);
    assert s[a] == whole[0];
  }

  /** Integer part, fraction and exponent, each read at its place. */
  lemma FloatAt(s: string, i: nat, neg: bool, a: nat, b: nat, c: nat, end: nat, whole: string, frac: string, e: int)
    requires i <= a < b <= c <= end <= |s| && end > b && (s[i] == '-' <==> neg) && a == (if neg then i + 1 else i)
    requires IntEnd(s, a) == b && FracEnd(s, b) == Some(c) && ParseExp(s, c) == Some((e, end))
    requires s[a..b] == whole && FracDigits(s, b, c) == frac
    ensures ParseNumber(s, i) == Some((Canon(neg, whole + frac, |whole| + e), end))
  {
    NumberAt(s, i, neg, a, b, c, end, e);
  }

  lemma PlacedParts(s: string, i: nat, neg: bool, a: nat, b: nat, c: nat, end: nat, whole: string, frac: string, e: int, v: Value)
    requires AllDigits(whole) && whole != [] && (whole[0] != '0' || |whole| == 1)
    requires Has(s, a, whole) && b == a + |whole| && TailIs(s, b, c, end, frac, e)
    requires i <= a < |s| && (s[i] == '-' <==> neg) && (IsDigit(s[i]) || s[i] == '-') && a == (if neg then i + 1 else i)
    requires v == Canon(neg, whole + frac, |whole| + e)
    ensures Parse(s, i) == Some((v, end))
  {
    WholeReads(s, a, whole);
    FloatAt(s, i, neg, a, b, c, end, whole, frac, e);
    NotLiteral(s, i);
  }

  /** Sign, integer part, fraction and exponent lie one after the other. */
  lemma FloatLies(s: string, i: nat, neg: bool, whole: string, dot: string, et: string, end: nat) returns (a: nat, b: nat, c: nat)
    requires AllDigits(whole) && whole != [] && (dot != "" || et != "")
    requires (dot == "" || dot[0] == '.') && (et == "" || et[0] == 'e')
    requires var t := Sign(neg) + (whole + (dot + et)); Has(s, i, t) && end == i + |t| && Delimited(s, end)
    ensures a == (if neg then i + 1 else i) && b == a + |whole| && c == b + |dot| && end == c + |et|
    ensures Has(s, a, whole) && Has(s, b, dot) && Has(s, c, et) && DigitsStop(s, b) && DigitsStop(s, c)
    ensures i <= a < |s| && b < |s| && (s[i] == '-' <==> neg) && (IsDigit(s[i]) || s[i] == '-') && (dot == "" ==> s[b] != '.')
  {
    a, b := PartsAt(s, i, neg, whole, dot + et);
    TwoParts(s, b, dot, et, end);
    c := b + |dot|;
  }

  /** The integer part, fraction and exponent a float is laid out in. */
  function Layout(digits: string, exp: int): (string, string, Option<int>)
    requires digits != []
  {
    if Scientific(exp) then (digits[..1], digits[1..], Some(exp))
    else if exp < 0 then ("0", Zeros(-exp - 1) + digits, None)
    else if exp + 1 >= |digits| then (digits + Zeros(exp + 1 - |digits|), "0", None)
    else (digits[..exp + 1], digits[exp + 1..], None)
  }

  /** The parts of a number as the grammar has them: digits, no leading zero, and a fraction or an exponent. */
  predicate WellParted(whole: string, frac: string, exp: Option<int>) {
    && AllDigits(whole) && AllDigits(frac) && whole != [] && (whole[0] != '0' || |whole| == 1)
    && (frac != [] || exp.Some?)
  }

  lemma ScientificIsText(digits: string, exp: int)
    requires Mantissa(digits, exp) && Scientific(exp)
    ensures WellParted(digits[..1], digits[1..], Some(exp)) && FloatBody(digits, exp) == digits[..1] + Tail(digits[1..], Some(exp))
  {
    var point := if |digits| == 1 then "" else "." + digits[1..];
    assert point == DotText(digits[1..]) && ETail(Some(exp)) == "e" + ExpText(exp);
    assert digits[..1] + point + "e" + ExpText(exp) == digits[..1] + (point + ("e" + ExpText(exp)));
  }

  lemma SmallIsText(digits: string, exp: int)
    requires Mantissa(digits, exp) && -4 <= exp < 0
    ensures WellParted("0", Zeros(-exp - 1) + digits, None) && FloatBody(digits, exp) == "0" + Tail(Zeros(-exp - 1) + digits, None)
  {
    assert "0." + Zeros(-exp - 1) + digits == "0" + ("." + (Zeros(-exp - 1) + digits));
  }

  lemma WholeIsText(digits: string, exp: int)
    requires Mantissa(digits, exp) && 0 <= exp < 16 && exp + 1 >= |digits|
    ensures var whole := digits + Zeros(exp + 1 - |digits|);
            WellParted(whole, "0", None) && FloatBody(digits, exp) == whole + Tail("0", None)
  {
    assert "." + "0" == ".0";
  }

  lemma MixedIsText(digits: string, exp: int)
    requires Mantissa(digits, exp) && 0 <= exp < 16 && exp + 1 < |digits|
    ensures WellParted(digits[..exp + 1], digits[exp + 1..], None)
    ensures FloatBody(digits, exp) == digits[..exp + 1] + Tail(digits[exp + 1..], None)
  {
    assert digits[..exp + 1] + "." + digits[exp + 1..] == digits[..exp + 1] + ("." + digits[exp + 1..]);
  }

  lemma LayoutIsText(digits: string, exp: int)
    requires Mantissa(digits, exp)
    ensures var (whole, frac, e) := Layout(digits, exp);
            WellParted(whole, frac, e) && FloatBody(digits, exp) == whole + Tail(frac, e)
  {
    if Scientific(exp) {
      ScientificIsText(digits, exp);
    } else if exp < 0 {
      SmallIsText(digits, exp);
    } else if exp + 1 >= |digits| {
      WholeIsText(digits, exp);
    } else {
      MixedIsText(digits, exp);
    }
  }

  /** Whatever the layout, its digits and point denote the same shortest decimal. */
  lemma LayoutKeepsValue(neg: bool, digits: string, exp: int)
    requires Mantissa(digits, exp)
    ensures var (whole, frac, e) := Layout(digits, exp);
            Canon(neg, whole + frac, |whole| + ExpOf(e)) == Canon(neg, digits, exp + 1)
  {
    var (whole, frac, e) := Layout(digits, exp);
    if Scientific(exp) {
      assert whole + frac == digits;
    } else if exp < 0 {
      LeadZeros("0" + Zeros(-exp - 1), digits, 1);
      assert whole + frac == ("0" + Zeros(-exp - 1)) + digits;
    } else if exp + 1 >= |digits| {
      CanonTrail(neg, digits, Zeros(exp + 1 - |digits|) + "0", exp + 1);
      assert whole + frac == digits + (Zeros(exp + 1 - |digits|) + "0");
    } else {
      assert whole + frac == digits;
    }
  }

  lemma FloatTextIsLayout(neg: bool, digits: string, exp: int)
    requires Mantissa(digits, exp)
    ensures var (whole, frac, e) := Layout(digits, exp);
            FloatText(neg, digits, exp) == NumText(neg, whole, frac, e)
  {
    LayoutIsText(digits, exp);
  }

  /** Reading back a printed float gives the shortest form of the same decimal, in either layout. */
  lemma FloatReads(s: string, i: nat, neg: bool, digits: string, exp: int, t: string)
    requires Mantissa(digits, exp) && t == FloatText(neg, digits, exp) && Has(s, i, t) && Delimited(s, i + |t|)
    ensures i < |s| && Parse(s, i) == Some((Canon(neg, digits, exp + 1), i + |t|))
  {
    var (whole, frac, e) := Layout(digits, exp);
    LayoutIsText(digits, exp);
    FloatTextIsLayout(neg, digits, exp);
    LayoutKeepsValue(neg, digits, exp);
    PartsRead(s, i, neg, whole, frac, e, DotText(frac), ETail(e), i + |t|, Canon(neg, digits, exp + 1));
  }

  lemma PartsRead(s: string, i: nat, neg: bool, whole: string, frac: string, exp: Option<int>, dot: string, et: string, end: nat, v: Value)
    requires WellParted(whole, frac, exp) && dot == DotText(frac) && et == ETail(exp)
    requires var t := Sign(neg) + (whole + (dot + et)); Has(s, i, t) && end == i + |t| && Delimited(s, end)
    requires v == Canon(neg, whole + frac, |whole| + ExpOf(exp))
    ensures i < |s| && Parse(s, i) == Some((v, end))
  {
    var a, b, c := FloatLies(s, i, neg, whole, dot, et, end);
    TailReads(s, b, c, end, frac, exp, dot, et);
    PlacedParts(s, i, neg, a, b, c, end, whole, frac, ExpOf(exp), v);
  }

  /** Leading zeros move the point and nothing else. */
  lemma {:induction false} LeadZeros(zeros: string, digits: string, decpt: int)
    requires forall k :: 0 <= k < |zeros| ==> zeros[k] == '0'
    ensures Lead(zeros + digits, decpt) == Lead(digits, decpt - |zeros|)
  {
    if zeros == [] {
      assert zeros + digits == digits;
    } else {
      LeadZeros(zeros[1..], digits, decpt - 1);
      assert (zeros + digits)[1..] == zeros[1..] + digits;
    }
  }

  lemma {:induction false} TrailZeros(digits: string, zeros: string)
    requires forall k :: 0 <= k < |zeros| ==> zeros[k] == '0'
    ensures Trail(digits + zeros) == Trail(digits)
    decreases |zeros|
  {
    if zeros == [] {
      assert digits + zeros == digits;
    } else {
      var z := zeros[..|zeros| - 1];
      TrailZeros(digits, z);
      assert (digits + zeros)[..|digits + zeros| - 1] == digits + z;
    }
  }

  /** Zeros after the significant digits do not change the shortest form. */
  lemma CanonTrail(neg: bool, digits: string, zeros: string, decpt: int)
    requires Mantissa(digits, decpt - 1) && forall k :: 0 <= k < |zeros| ==> zeros[k] == '0'
    ensures Canon(neg, digits + zeros, decpt) == Canon(neg, digits, decpt)
  {
    if digits == "0" {
      LeadZeros(digits + zeros, "", decpt);
      LeadZeros(digits, "", decpt);
      assert digits + zeros + "" == digits + zeros && digits + "" == digits;
    } else {
      TrailZeros(digits, zeros);
    }
  }

  /** A shortest decimal is its own shortest form. */
  lemma CanonIsIdentity(neg: bool, digits: string, exp: int)
    requires Shortest(digits, exp)
    ensures Canon(neg, digits, exp + 1) == Float(neg, digits, exp)
  {
    if digits == "0" {
      LeadZeros(digits, "", exp + 1);
      assert digits + "" == digits;
    }
  }

  // ---------- Strings ----------

  lemma HexReads(n: nat)
    requires n < 16
    ensures HexVal(HexChar(n)) == Some(n)
  {
  }

  lemma HexDigitsOf(u: nat)
    requires u < 0x10000
    ensures ((u / 0x1000 * 16 + u / 0x100 % 16) * 16 + u / 16 % 16) * 16 + u % 16 == u
    ensures u / 0x1000 < 16
  {
    assert u / 0x100 == 16 * (u / 0x1000) + u / 0x100 % 16;
    assert u / 16 == 16 * (u / 0x100) + u / 16 % 16;
  }

  lemma UnitReads(s: string, i: nat, u: nat)
    requires u < 0x10000 && Has(s, i, Unit(u))
    ensures ParseUnit(s, i) == Some(u) && i + 6 <= |s| && s[i] == '\\' && s[i + 1] == 'u'
  {
    var t := Unit(u);
    HasAt(s, i, t);
    assert |t| == 6 && s[i] == t[0] && s[i + 1] == t[1] && s[i + 2] == t[2] && s[i + 3] == t[3] && s[i + 4] == t[4] && s[i + 5] == t[5];
    HexDigitsOf(u);
    HexReads(u / 0x1000);
    HexReads(u / 0x100 % 16);
    HexReads(u / 16 % 16);
    HexReads(u % 16);
  }

  /** An escaped character is read back as itself, and never starts with the closing quote. */
  lemma EscapeReads(s: string, i: nat, c: char, ascii: bool, t: string)
    requires t == Escape(c, ascii) && Has(s, i, t)
    ensures i < |s| && s[i] != '\"' && ParseChar(s, i) == Some((c, i + |t|))
  {
    var n := c as int;
    HasAt(s, i, t);
    if c == '\"' || c == '\\' || c == '\n' || c == '\r' || c == '\t' || n == 0x08 || n == 0x0c {
      ShortEscapeReads(s, i, c, ascii);
    } else if c < ' ' || (ascii && c > '~') {
      UnicodeEscapeReads(s, i, c, ascii);
    } else {
      assert t == [c] && s[i] == t[0];
    }
  }

  lemma ShortEscapeReads(s: string, i: nat, c: char, ascii: bool)
    requires Has(s, i, Escape(c, ascii))
    requires c == '\"' || c == '\\' || c == '\n' || c == '\r' || c == '\t' || c as int == 0x08 || c as int == 0x0c
    ensures i < |s| && s[i] != '\"' && ParseChar(s, i) == Some((c, i + |Escape(c, ascii)|))
  {
    var t := Escape(c, ascii);
    HasAt(s, i, t);
    assert |t| == 2 && s[i] == t[0] == '\\' && s[i + 1] == t[1];
    assert c as int == 0x08 ==> c == 0x08 as char;
    assert c as int == 0x0c ==> c == 0x0c as char;
  }

  lemma UnicodeEscapeReads(s: string, i: nat, c: char, ascii: bool)
    requires Has(s, i, Escape(c, ascii)) && (c < ' ' || (ascii && c > '~'))
    requires c != '\n' && c != '\r' && c != '\t' && c as int != 0x08 && c as int != 0x0c
    ensures i < |s| && s[i] != '\"' && ParseChar(s, i) == Some((c, i + |Escape(c, ascii)|))
  {
    var n := c as int;
    if n < 0x10000 {
      UnitReads(s, i, n);
      assert n as char == c;
    } else {
      var hi, lo := 0xD800 + (n - 0x10000) / 0x400, 0xDC00 + (n - 0x10000) % 0x400;
      HasSplit(s, i, Unit(hi), Unit(lo));
      UnitReads(s, i, hi);
      UnitReads(s, i + 6, lo);
      assert 0x10000 + (hi - 0xD800) * 0x400 + (lo - 0xDC00) == n;
      assert n as char == c;
    }
  }

  lemma StrStep(s: string, i: nat, t: string, k: nat, j: nat, e: nat)
    requires i < |s| && k < |t| && s[i] != '\"' && ParseChar(s, i) == Some((t[k], j)) && ParseStr(s, j) == Some((t[k + 1..], e))
    ensures ParseStr(s, i) == Some((t[k..], e))
  {
    assert t[k..] == [t[k]] + t[k + 1..];
  }

  /** The escape of the next character, and where the rest of the string begins. */
  lemma CharLies(s: string, i: nat, t: string, k: nat, ascii: bool) returns (e: string)
    requires k < |t| && Has(s, i, Escapes(t, k, ascii) + "\"")
    ensures e == Escape(t[k], ascii) && Has(s, i, e) && Has(s, i + |e|, Escapes(t, k + 1, ascii) + "\"")
    ensures |Escapes(t, k, ascii)| == |e| + |Escapes(t, k + 1, ascii)|
  {
    e := Escape(t[k], ascii);
    var rest := Escapes(t, k + 1, ascii);
    assert Escapes(t, k, ascii) == e + rest;
    SplitOff(s, i, e, rest, "\"");
  }

  /** The next character is read, and `j` is where the rest of the string begins. */
  lemma CharReads(s: string, i: nat, t: string, k: nat, ascii: bool) returns (j: nat)
    requires k < |t| && Has(s, i, Escapes(t, k, ascii) + "\"")
    ensures i < |s| && s[i] != '\"' && ParseChar(s, i) == Some((t[k], j))
    ensures Has(s, j, Escapes(t, k + 1, ascii) + "\"")
    ensures j + |Escapes(t, k + 1, ascii)| == i + |Escapes(t, k, ascii)|
  {
    var e := CharLies(s, i, t, k, ascii);
    EscapeReads(s, i, t[k], ascii, e);
    j := i + |e|;
  }

  lemma SplitOff(s: string, i: nat, a: string, b: string, c: string)
    requires Has(s, i, (a + b) + c)
    ensures Has(s, i, a) && Has(s, i + |a|, b + c)
  {
    assert (a + b) + c == a + (b + c);
    HasSplit(s, i, a, b + c);
  }

  lemma StrEnds(s: string, i: nat)
    requires Has(s, i, "\"")
    ensures ParseStr(s, i) == Some(("", i + 1))
  {
    HasAt(s, i, "\"");
    assert s[i + 0] == "\""[0];
  }

  lemma {:induction false} StrReads(s: string, i: nat, t: string, k: nat, ascii: bool, e: nat)
    requires k <= |t| && Has(s, i, Escapes(t, k, ascii) + "\"") && e == i + |Escapes(t, k, ascii)| + 1
    ensures ParseStr(s, i) == Some((t[k..], e))
    decreases |t| - k
  {
    if k == |t| {
      assert Escapes(t, k, ascii) + "\"" == "\"" && t[k..] == "";
      StrEnds(s, i);
    } else {
      var j := CharReads(s, i, t, k, ascii);
      StrReads(s, j, t, k + 1, ascii, e);
      StrStep(s, i, t, k, j, e);
    }
  }

  lemma QuotedLies(s: string, i: nat, inner: string)
    requires Has(s, i, "\"" + inner + "\"")
    ensures i < |s| && s[i] == '\"' && Has(s, i + 1, inner + "\"")
  {
    SplitOff(s, i, "\"", inner, "\"");
    HasAt(s, i, "\"");
  }

  lemma StrTextReads(s: string, i: nat, text: string, ascii: bool, t: string)
    requires t == StrText(text, ascii) && Has(s, i, t)
    ensures i < |s| && s[i] == '\"' && ParseStr(s, i + 1) == Some((text, i + |t|))
  {
    QuotedLies(s, i, Escapes(text, 0, ascii));
    StrReads(s, i + 1, text, 0, ascii, i + |t|);
    assert text[0..] == text;
  }

  // ---------- Lists ----------

  /** A part worth printing starts with neither white space nor a closing bracket. */
  ghost predicate Visible(t: string) {
    t != [] && !IsSpace(t[0]) && t[0] != ']' && t[0] != '}'
  }

  lemma FloatStarts(neg: bool, digits: string, exp: int)
    requires Mantissa(digits, exp)
    ensures Visible(FloatText(neg, digits, exp))
  {
    var (whole, frac, e) := Layout(digits, exp);
    FloatTextIsLayout(neg, digits, exp);
    LayoutIsText(digits, exp);
    FirstOf(Sign(neg), whole, Tail(frac, e));
  }

  lemma FirstOf(sign: string, whole: string, tail: string)
    requires whole != []
    ensures (sign + (whole + tail))[0] == if sign != "" then sign[0] else whole[0]
  {
  }

  /** A printed value starts with neither white space nor a closing bracket. */
  lemma TextStarts(v: Value, ascii: bool)
    requires Finite(v)
    ensures Visible(Text(v, ascii))
  {
    match v {
      case Int(i) => NatTextStarts(Abs(i));
      case Float(neg, digits, exp) => FloatStarts(neg, digits, exp);
      case _ =>
    }
  }

  predicate AllFinite(items: seq<Value>) {
    forall k :: 0 <= k < |items| ==> Finite(items[k])
  }

  predicate FieldsFinite(fields: seq<Field>) {
    forall k :: 0 <= k < |fields| ==> Finite(fields[k].value)
  }

  /** The parts from `k` on, without the separator before the first of them, and the closing bracket. */
  function From(parts: seq<string>, k: nat, close: char): string
    requires k < |parts|
  {
    parts[k] + (Join(parts, k + 1) + [close])
  }

  /** After a part comes ", " or the bracket, which delimit it and lead to the next part or the end. */
  lemma AfterPart(s: string, j: nat, more: bool, close: char, next: string)
    requires close == ']' || close == '}'
    requires next != [] && !IsSpace(next[0])
    requires Has(s, j, if more then ", " + next else [close])
    ensures j < |s| && Delimited(s, j) && Skip(s, j) == j && s[j] == (if more then ',' else close)
    ensures more ==> Skip(s, j + 1) == j + 2 && Has(s, j + 2, next)
  {
    if more {
      HasSplit(s, j, ", ", next);
      HasAt(s, j, ", ");
      HasAt(s, j + 2, next);
      assert s[j] == ", "[0] && s[j + 1] == ", "[1] && s[j + 2 + 0] == next[0];
    } else {
      HasAt(s, j, [close]);
      assert s[j + 0] == [close][0];
    }
  }

  lemma RestUnfolds(parts: seq<string>, k: nat, close: char)
    requires k < |parts|
    ensures Join(parts, k + 1) + [close] == if k + 1 < |parts| then ", " + From(parts, k + 1, close) else [close]
  {
    if k + 1 < |parts| {
      assert (", " + parts[k + 1] + Join(parts, k + 2)) + [close] == ", " + (parts[k + 1] + (Join(parts, k + 2) + [close]));
    }
  }

  /** A part, then either ", " and the next part or the closing bracket. */
  lemma PartPlaces(s: string, i: nat, parts: seq<string>, k: nat, close: char)
    requires k < |parts| && Has(s, i, From(parts, k, close)) && (close == ']' || close == '}')
    requires k + 1 < |parts| ==> Visible(parts[k + 1])
    ensures var j := i + |parts[k]|;
            && Has(s, i, parts[k]) && j < |s| && Delimited(s, j) && Skip(s, j) == j
            && if k + 1 == |parts| then s[j] == close && |From(parts, k, close)| == |parts[k]| + 1
               else s[j] == ',' && Skip(s, j + 1) == j + 2 && Has(s, j + 2, From(parts, k + 1, close))
                    && |From(parts, k, close)| == |parts[k]| + 2 + |From(parts, k + 1, close)|
  {
    var more := k + 1 < |parts|;
    HasSplit(s, i, parts[k], Join(parts, k + 1) + [close]);
    RestUnfolds(parts, k, close);
    AfterPart(s, i + |parts[k]|, more, close, if more then From(parts, k + 1, close) else [close]);
  }

  /** What stands between the brackets. */
  lemma Bracketed(s: string, i: nat, open: char, parts: seq<string>, close: char)
    requires Has(s, i, [open] + Join(parts, 0) + [close]) && (close == ']' || close == '}')
    requires parts != [] ==> Visible(parts[0])
    ensures i + 1 < |s| && s[i] == open && Skip(s, i + 1) == i + 1
    ensures if parts == [] then s[i + 1] == close && Join(parts, 0) == ""
            else s[i + 1] == parts[0][0] && Has(s, i + 1, From(parts, 0, close))
                 && |From(parts, 0, close)| == |Join(parts, 0)| + 1
  {
    var inner := Join(parts, 0) + [close];
    SplitOff(s, i, [open], Join(parts, 0), [close]);
    HasAt(s, i, [open]);
    InnerIs(parts, close);
    SkipToValue(s, i + 1, inner);
  }

  lemma InnerIs(parts: seq<string>, close: char)
    requires parts != [] ==> parts[0] != []
    ensures var inner := Join(parts, 0) + [close];
            if parts == [] then inner == [close] else inner == From(parts, 0, close) && inner[0] == parts[0][0]
  {
  }

  lemma SkipToValue(s: string, i: nat, t: string)
    requires Has(s, i, t) && t != [] && !IsSpace(t[0])
    ensures i < |s| && s[i] == t[0] && Skip(s, i) == i
  {
    HasAt(s, i, t);
    assert s[i + 0] == t[0];
  }

  /** Part `n` lies at `at[n]` and ends at `ends[n]`, where a comma leads to the next one or the bracket closes. */
  ghost predicate Laid(s: string, parts: seq<string>, at: seq<nat>, ends: seq<nat>, close: char) {
    && |at| == |ends| == |parts|
    && (forall n :: 0 <= n < |parts| ==> Has(s, at[n], parts[n]) && ends[n] == at[n] + |parts[n]|)
    && (forall n :: 0 <= n < |parts| ==> Linked(s, at, ends, n, close))
  }

  predicate Linked(s: string, at: seq<nat>, ends: seq<nat>, n: nat, close: char) {
    && n < |at| == |ends| && Ended(s, ends[n])
    && (if n + 1 == |at| then s[ends[n]] == close else s[ends[n]] == ',' && Skip(s, ends[n] + 1) == at[n + 1])
  }

  predicate Ended(s: string, j: nat) {
    j < |s| && Delimited(s, j) && Skip(s, j) == j
  }

  lemma {:induction false} Lay(s: string, i: nat, parts: seq<string>, k: nat, close: char) returns (at: seq<nat>, ends: seq<nat>)
    requires k < |parts| && Has(s, i, From(parts, k, close)) && (close == ']' || close == '}')
    requires forall n :: 0 <= n < |parts| ==> Visible(parts[n])
    ensures Laid(s, parts[k..], at, ends, close) && at[0] == i
    ensures ends[|ends| - 1] + 1 == i + |From(parts, k, close)|
    decreases |parts| - k
  {
    PartPlaces(s, i, parts, k, close);
    var j := i + |parts[k]|;
    at, ends := [i], [j];
    if k + 1 < |parts| {
      var at', ends' := Lay(s, j + 2, parts, k + 1, close);
      LaidCons(s, parts[k], i, parts[k + 1..], at', ends', close);
      assert parts[k..] == [parts[k]] + parts[k + 1..];
      at, ends := at + at', ends + ends';
    }
  }

  lemma LaidCons(s: string, part: string, i: nat, parts: seq<string>, at: seq<nat>, ends: seq<nat>, close: char)
    requires Laid(s, parts, at, ends, close) && parts != []
    requires var j := i + |part|; Has(s, i, part) && Ended(s, j) && s[j] == ',' && Skip(s, j + 1) == at[0]
    ensures Laid(s, [part] + parts, [i] + at, [i + |part|] + ends, close)
  {
    var at', ends' := [i] + at, [i + |part|] + ends;
    forall n | 0 <= n < |at'| ensures Linked(s, at', ends', n, close) {
      assert n > 0 ==> Linked(s, at, ends, n - 1, close);
    }
  }

  // ---------- Values ----------

  lemma OpenStep(s: string, i: nat)
    requires i + 1 < |s| && Skip(s, i + 1) == i + 1
    ensures s[i] == '[' && s[i + 1] == ']' ==> Parse(s, i) == Some((Arr([]), i + 2))
    ensures s[i] == '{' && s[i + 1] == '}' ==> Parse(s, i) == Some((Obj([]), i + 2))
  {
  }

  lemma ArrStep(s: string, i: nat, items: seq<Value>, k: nat)
    requires i + 1 < |s| && s[i] == '[' && Skip(s, i + 1) == i + 1 && s[i + 1] != ']'
    requires ParseItems(s, i + 1) == Some((items, k))
    ensures Parse(s, i) == Some((Arr(items), k))
  {
  }

  lemma ObjStep(s: string, i: nat, fields: seq<Field>, k: nat)
    requires i + 1 < |s| && s[i] == '{' && Skip(s, i + 1) == i + 1 && s[i + 1] != '}'
    requires ParseFields(s, i + 1) == Some((fields, k))
    ensures Parse(s, i) == Some((Obj(fields), k))
  {
  }

  lemma StrStepValue(s: string, i: nat, t: string, k: nat)
    requires i < |s| && s[i] == '\"' && ParseStr(s, i + 1) == Some((t, k))
    ensures Parse(s, i) == Some((Str(t), k))
  {
  }

  lemma LastItem(s: string, i: nat, v: Value, j: nat)
    requires i <= |s| && Parse(s, i) == Some((v, j)) && j < |s| && Skip(s, j) == j && s[j] == ']'
    ensures ParseItems(s, i) == Some(([v], j + 1))
  {
  }

  lemma NextItem(s: string, i: nat, v: Value, j: nat, next: nat, rest: seq<Value>, all: seq<Value>, e: nat)
    requires i <= |s| && Parse(s, i) == Some((v, j)) && j < |s| && Skip(s, j) == j && s[j] == ','
    requires next == Skip(s, j + 1) && ParseItems(s, next) == Some((rest, e)) && all == [v] + rest
    ensures ParseItems(s, i) == Some((all, e))
  {
  }

  predicate ItemAt(s: string, items: seq<Value>, at: seq<nat>, ends: seq<nat>, n: nat) {
    n < |items| == |at| == |ends| && at[n] <= |s| && Parse(s, at[n]) == Some((items[n], ends[n]))
  }

  /** Items read at their places read as a list. */
  lemma {:induction false} ItemsFold(s: string, items: seq<Value>, at: seq<nat>, ends: seq<nat>, k: nat, rest: seq<Value>, e: nat)
    requires |items| == |at| == |ends| > k && rest == items[k..] && e == ends[|ends| - 1] + 1
    requires forall n :: 0 <= n < |items| ==> ItemAt(s, items, at, ends, n)
    requires forall n :: 0 <= n < |items| ==> Linked(s, at, ends, n, ']')
    ensures at[k] <= |s| && ParseItems(s, at[k]) == Some((rest, e))
    decreases |items| - k
  {
    assert ItemAt(s, items, at, ends, k) && Linked(s, at, ends, k, ']');
    if k + 1 == |items| {
      assert rest == [items[k]];
      LastItem(s, at[k], items[k], ends[k]);
    } else {
      var more := rest[1..];
      ItemsFold(s, items, at, ends, k + 1, more, e);
      assert rest == [items[k]] + more;
      NextItem(s, at[k], items[k], ends[k], at[k + 1], more, rest, e);
    }
  }

  lemma FieldStep(s: string, i: nat, name: string, c: nat, v: Value, j: nat)
    requires i < |s| && s[i] == '\"' && ParseStr(s, i + 1) == Some((name, c))
    requires c < |s| && Skip(s, c) == c && s[c] == ':' && Skip(s, c + 1) == c + 2 && Parse(s, c + 2) == Some((v, j))
    ensures ParseField(s, i) == Some((Field(name, v), j))
  {
  }

  lemma LastField(s: string, i: nat, v: Field, j: nat)
    requires i <= |s| && ParseField(s, i) == Some((v, j)) && j < |s| && Skip(s, j) == j && s[j] == '}'
    ensures ParseFields(s, i) == Some(([v], j + 1))
  {
  }

  lemma NextField(s: string, i: nat, v: Field, j: nat, next: nat, rest: seq<Field>, all: seq<Field>, e: nat)
    requires i <= |s| && ParseField(s, i) == Some((v, j)) && j < |s| && Skip(s, j) == j && s[j] == ','
    requires next == Skip(s, j + 1) && ParseFields(s, next) == Some((rest, e)) && all == [v] + rest
    ensures ParseFields(s, i) == Some((all, e))
  {
  }

  predicate FieldAt(s: string, fields: seq<Field>, at: seq<nat>, ends: seq<nat>, n: nat) {
    n < |fields| == |at| == |ends| && at[n] <= |s| && ParseField(s, at[n]) == Some((fields[n], ends[n]))
  }

  /** Fields read at their places read as a list. */
  lemma {:induction false} FieldsFold(s: string, fields: seq<Field>, at: seq<nat>, ends: seq<nat>, k: nat, rest: seq<Field>, e: nat)
    requires |fields| == |at| == |ends| > k && rest == fields[k..] && e == ends[|ends| - 1] + 1
    requires forall n :: 0 <= n < |fields| ==> FieldAt(s, fields, at, ends, n)
    requires forall n :: 0 <= n < |fields| ==> Linked(s, at, ends, n, '}')
    ensures at[k] <= |s| && ParseFields(s, at[k]) == Some((rest, e))
    decreases |fields| - k
  {
    assert FieldAt(s, fields, at, ends, k) && Linked(s, at, ends, k, '}');
    if k + 1 == |fields| {
      assert rest == [fields[k]];
      LastField(s, at[k], fields[k], ends[k]);
    } else {
      var more := rest[1..];
      FieldsFold(s, fields, at, ends, k + 1, more, e);
      assert rest == [fields[k]] + more;
      NextField(s, at[k], fields[k], ends[k], at[k + 1], more, rest, e);
    }
  }

  /** Parsing a printed value followed by any delimiter returns the value and the place after it. */
  lemma {:induction false} ValueReads(s: string, i: nat, v: Value, ascii: bool, t: string)
    requires Finite(v) && t == Text(v, ascii) && Has(s, i, t) && Delimited(s, i + |t|)
    ensures Parse(s, i) == Some((v, i + |t|))
    decreases v, 1
  {
    match v {
      case Null => LiteralReads(s, i, v, ascii);
      case Bool(_) => LiteralReads(s, i, v, ascii);
      case Int(n) => IntReads(s, i, n, i + |t|);
      case Float(neg, digits, exp) => ShortestReads(s, i, neg, digits, exp, t);
      case Str(text) => StrValueReads(s, i, text, ascii, t);
      case Arr(items) => ArrReads(s, i, items, ascii, Texts(items, ascii), t);
      case Obj(fields) => ObjReads(s, i, fields, ascii, FieldTexts(fields, ascii), t);
    }
  }

  lemma ShortestReads(s: string, i: nat, neg: bool, digits: string, exp: int, t: string)
    requires Shortest(digits, exp) && t == FloatText(neg, digits, exp) && Has(s, i, t) && Delimited(s, i + |t|)
    ensures i < |s| && Parse(s, i) == Some((Float(neg, digits, exp), i + |t|))
  {
    FloatReads(s, i, neg, digits, exp, t);
    CanonIsIdentity(neg, digits, exp);
  }

  lemma StrValueReads(s: string, i: nat, text: string, ascii: bool, t: string)
    requires t == StrText(text, ascii) && Has(s, i, t)
    ensures Parse(s, i) == Some((Str(text), i + |t|))
  {
    StrTextReads(s, i, text, ascii, t);
    StrStepValue(s, i, text, i + |t|);
  }

  /** A printed list read item by item. */
  lemma {:induction false} ItemsRead(s: string, items: seq<Value>, ascii: bool, parts: seq<string>, at: seq<nat>, ends: seq<nat>)
    requires AllFinite(items) && |parts| == |items| && Laid(s, parts, at, ends, ']')
    requires forall n :: 0 <= n < |items| ==> parts[n] == Text(items[n], ascii)
    ensures forall n :: 0 <= n < |items| ==> ItemAt(s, items, at, ends, n)
    decreases items, 0
  {
    forall n | 0 <= n < |items| ensures ItemAt(s, items, at, ends, n) {
      assert Linked(s, at, ends, n, ']');
      ValueReads(s, at[n], items[n], ascii, parts[n]);
    }
  }

  lemma {:induction false} FieldsRead(s: string, fields: seq<Field>, ascii: bool, parts: seq<string>, at: seq<nat>, ends: seq<nat>)
    requires FieldsFinite(fields) && |parts| == |fields| && Laid(s, parts, at, ends, '}')
    requires forall n :: 0 <= n < |fields| ==> parts[n] == FieldText(fields[n], ascii)
    ensures forall n :: 0 <= n < |fields| ==> FieldAt(s, fields, at, ends, n)
    decreases fields, 0
  {
    forall n | 0 <= n < |fields| ensures FieldAt(s, fields, at, ends, n) {
      assert Linked(s, at, ends, n, '}');
      FieldReads(s, at[n], fields[n], ascii, parts[n]);
    }
  }

  lemma {:induction false} FieldReads(s: string, i: nat, f: Field, ascii: bool, text: string)
    requires Finite(f.value) && text == FieldText(f, ascii) && Has(s, i, text) && Delimited(s, i + |text|)
    ensures ParseField(s, i) == Some((f, i + |text|))
    decreases f, 2
  {
    var c := FieldLies(s, i, f, ascii, text);
    var t := Text(f.value, ascii);
    ValueReads(s, c + 2, f.value, ascii, t);
    FieldStep(s, i, f.name, c, f.value, i + |text|);
  }

  /** The name is read up to `c`, where the colon leads to the value. */
  lemma FieldLies(s: string, i: nat, f: Field, ascii: bool, text: string) returns (c: nat)
    requires Finite(f.value) && text == FieldText(f, ascii) && Has(s, i, text)
    ensures i < |s| && s[i] == '\"' && ParseStr(s, i + 1) == Some((f.name, c))
    ensures c < |s| && Skip(s, c) == c && s[c] == ':' && Skip(s, c + 1) == c + 2
    ensures Has(s, c + 2, Text(f.value, ascii)) && c + 2 + |Text(f.value, ascii)| == i + |text|
  {
    var n, t := StrText(f.name, ascii), Text(f.value, ascii);
    c := i + |n|;
    FieldPlaces(s, i, n, t);
    StrTextReads(s, i, f.name, ascii, n);
    TextStarts(f.value, ascii);
    ColonAt(s, c, t);
  }

  /** Brackets around parts: either the closing one at once, or the parts one after the other. */
  lemma Enclosed(s: string, i: nat, open: char, parts: seq<string>, close: char, t: string) returns (at: seq<nat>, ends: seq<nat>)
    requires t == [open] + Join(parts, 0) + [close] && Has(s, i, t) && (close == ']' || close == '}')
    requires forall n :: 0 <= n < |parts| ==> Visible(parts[n])
    ensures i + 1 < |s| && s[i] == open && Skip(s, i + 1) == i + 1
    ensures parts == [] ==> s[i + 1] == close && |t| == 2
    ensures parts != [] ==> Laid(s, parts, at, ends, close) && at[0] == i + 1 && ends[|ends| - 1] + 1 == i + |t|
    ensures parts != [] ==> Visible(parts[0]) && s[i + 1] == parts[0][0]
  {
    Bracketed(s, i, open, parts, close);
    at, ends := [], [];
    if parts != [] {
      at, ends := Lay(s, i + 1, parts, 0, close);
      assert parts[0..] == parts;
    }
  }

  lemma ArrReads(s: string, i: nat, items: seq<Value>, ascii: bool, parts: seq<string>, t: string)
    requires AllFinite(items) && t == "[" + Join(parts, 0) + "]" && Has(s, i, t)
    requires |parts| == |items| && forall n :: 0 <= n < |items| ==> parts[n] == Text(items[n], ascii)
    ensures Parse(s, i) == Some((Arr(items), i + |t|))
    decreases items, 1
  {
    forall n | 0 <= n < |parts| ensures Visible(parts[n]) {
      TextStarts(items[n], ascii);
    }
    var at, ends := Enclosed(s, i, '[', parts, ']', t);
    if items == [] {
      OpenStep(s, i);
    } else {
      ItemsRead(s, items, ascii, parts, at, ends);
      ArrFold(s, i, items, at, ends, i + |t|);
    }
  }

  lemma ObjReads(s: string, i: nat, fields: seq<Field>, ascii: bool, parts: seq<string>, t: string)
    requires FieldsFinite(fields) && t == "{" + Join(parts, 0) + "}" && Has(s, i, t)
    requires |parts| == |fields| && forall n :: 0 <= n < |fields| ==> parts[n] == FieldText(fields[n], ascii)
    ensures Parse(s, i) == Some((Obj(fields), i + |t|))
    decreases fields, 1
  {
    FieldsStart(fields, ascii, parts);
    var at, ends := Enclosed(s, i, '{', parts, '}', t);
    if fields == [] {
      OpenStep(s, i);
    } else {
      FieldsRead(s, fields, ascii, parts, at, ends);
      ObjFold(s, i, fields, at, ends, i + |t|);
    }
  }

  lemma ArrFold(s: string, i: nat, items: seq<Value>, at: seq<nat>, ends: seq<nat>, e: nat)
    requires |items| == |at| == |ends| > 0
    requires forall n :: 0 <= n < |items| ==> ItemAt(s, items, at, ends, n)
    requires forall n :: 0 <= n < |items| ==> Linked(s, at, ends, n, ']')
    requires i + 1 < |s| && s[i] == '[' && Skip(s, i + 1) == i + 1 && s[i + 1] != ']'
    requires at[0] == i + 1 && e == ends[|ends| - 1] + 1
    ensures Parse(s, i) == Some((Arr(items), e))
  {
    ItemsFold(s, items, at, ends, 0, items, e);
    ArrStep(s, i, items, e);
  }

  lemma ObjFold(s: string, i: nat, fields: seq<Field>, at: seq<nat>, ends: seq<nat>, e: nat)
    requires |fields| == |at| == |ends| > 0
    requires forall n :: 0 <= n < |fields| ==> FieldAt(s, fields, at, ends, n)
    requires forall n :: 0 <= n < |fields| ==> Linked(s, at, ends, n, '}')
    requires i + 1 < |s| && s[i] == '{' && Skip(s, i + 1) == i + 1 && s[i + 1] != '}'
    requires at[0] == i + 1 && e == ends[|ends| - 1] + 1
    ensures Parse(s, i) == Some((Obj(fields), e))
  {
    FieldsFold(s, fields, at, ends, 0, fields, e);
    ObjStep(s, i, fields, e);
  }

  lemma FieldsStart(fields: seq<Field>, ascii: bool, parts: seq<string>)
    requires FieldsFinite(fields) && |parts| == |fields|
    requires forall n :: 0 <= n < |fields| ==> parts[n] == FieldText(fields[n], ascii)
    ensures forall n :: 0 <= n < |parts| ==> Visible(parts[n]) && parts[n][0] == '\"'
  {
    forall n | 0 <= n < |parts| ensures Visible(parts[n]) && parts[n][0] == '\"' {
      FieldStarts(fields[n], ascii);
    }
  }

  lemma FieldStarts(f: Field, ascii: bool)
    requires Finite(f.value)
    ensures Visible(FieldText(f, ascii)) && FieldText(f, ascii)[0] == '\"'
  {
  }

  lemma LiteralReads(s: string, i: nat, v: Value, ascii: bool)
    requires (v.Null? || v.Bool?) && Has(s, i, Text(v, ascii))
    ensures Parse(s, i) == Some((v, i + |Text(v, ascii)|))
  {
    var t := Text(v, ascii);
    HasAt(s, i, t);
    assert s[i] == t[0];
    assert Parse(s, i) == ParseLiteral(s, i);
    assert v != Null ==> !Has(s, i, "null") by {
      assert Has(s, i, "null") ==> s[i + 0] == "null"[0];
    }
    assert v == Bool(false) ==> !Has(s, i, "true") by {
      assert Has(s, i, "true") ==> s[i + 0] == "true"[0];
    }
  }
  lemma FieldPlaces(s: string, i: nat, n: string, t: string)
    requires Has(s, i, n + ": " + t)
    ensures Has(s, i, n) && Has(s, i + |n|, ": ") && Has(s, i + |n| + 2, t)
  {
    HasSplit(s, i, n + ": ", t);
    HasSplit(s, i, n, ": ");
  }

  lemma ColonAt(s: string, c: nat, t: string)
    requires Has(s, c, ": ") && Has(s, c + 2, t) && t != [] && !IsSpace(t[0])
    ensures Skip(s, c) == c && s[c] == ':' && Skip(s, c + 1) == c + 2
  {
    HasAt(s, c, ": ");
    assert s[c + 0] == ": "[0] && s[c + 1] == ": "[1];
    SkipToValue(s, c + 2, t);
  }
}
