/** A JSON reader after RFC 8259, working by position in the text. It knows nothing of the printer. */
module JsonParser {
  import opened Types
  import opened PyJson

  // ---------- White space and literals (section 2) ----------

  predicate IsSpace(c: char) {
    c == ' ' || c == '\t' || c == '\n' || c == '\r'
  }

  function Skip(s: string, i: nat): (j: nat)
    requires i <= |s|
    ensures i <= j <= |s|
    decreases |s| - i
  {
    if i < |s| && IsSpace(s[i]) then Skip(s, i + 1) else i
  }

  /** `t` occurs at position `i`. */
  predicate Has(s: string, i: nat, t: string) {
    i + |t| <= |s| && forall k :: 0 <= k < |t| ==> s[i + k] == t[k]
  }

  // ---------- Numbers (section 6) ----------

  function DigitsEnd(s: string, i: nat): (j: nat)
    requires i <= |s|
    ensures i <= j <= |s| && forall k :: i <= k < j ==> IsDigit(s[k])
    decreases |s| - i
  {
    if i < |s| && IsDigit(s[i]) then DigitsEnd(s, i + 1) else i
  }

  /** A leading zero stands alone. */
  function IntEnd(s: string, i: nat): (j: nat)
    requires i <= |s|
    ensures i <= j <= |s| && forall k :: i <= k < j ==> IsDigit(s[k])
  {
    if i < |s| && s[i] == '0' then i + 1 else DigitsEnd(s, i)
  }

  function NatOf(d: string): nat
    requires AllDigits(d)
  {
    if d == [] then 0 else 10 * NatOf(d[..|d| - 1]) + (d[|d| - 1] as int - '0' as int)
  }

  function Signed(neg: bool, n: nat): int {
    if neg then -(n as int) else n
  }

  /** Exponent part at `k`: its value and where it ends; `None` when malformed. No part counts as zero. */
  function ParseExp(s: string, k: nat): (r: Option<(int, nat)>)
    requires k <= |s|
    ensures r.Some? ==> k <= r.value.1 <= |s|
  {
    if k < |s| && (s[k] == 'e' || s[k] == 'E') then
      var signed := k + 1 < |s| && (s[k + 1] == '+' || s[k + 1] == '-');
      var a := if signed then k + 2 else k + 1;
      var b := DigitsEnd(s, a);
      if b == a then None
      else Some((Signed(signed && s[k + 1] == '-', NatOf(s[a..b])), b))
    else Some((0, k))
  }

  /** Fraction part at `k`: where it ends; `None` when malformed. */
  function FracEnd(s: string, k: nat): (r: Option<nat>)
    requires k <= |s|
    ensures r.Some? ==> k <= r.value <= |s|
    ensures r.Some? && r.value > k ==> r.value >= k + 2 && s[k] == '.' && forall j :: k < j < r.value ==> IsDigit(s[j])
  {
    if k < |s| && s[k] == '.' then
      var e := DigitsEnd(s, k + 1);
      if e == k + 1 then None else Some(e)
    else Some(k)
  }

  /** Drops leading zeros of 0.DIGITS x 10^decpt. */
  function Lead(digits: string, decpt: int): (string, int) {
    if digits != [] && digits[0] == '0' then Lead(digits[1..], decpt - 1) else (digits, decpt)
  }

  function Trail(digits: string): string {
    if digits != [] && digits[|digits| - 1] == '0' then Trail(digits[..|digits| - 1]) else digits
  }

  /** The shortest decimal with the value 0.DIGITS x 10^decpt. */
  function Canon(neg: bool, digits: string, decpt: int): Value {
    var (d, p) := Lead(digits, decpt);
    var t := Trail(d);
    if t == [] then Float(neg, "0", 0) else Float(neg, t, p - 1)
  }

  function ParseNumber(s: string, i: nat): (r: Option<(Value, nat)>)
    requires i < |s|
    ensures r.Some? ==> i < r.value.1 <= |s|
  {
    var neg := s[i] == '-';
    var a := if neg then i + 1 else i;
    var b := IntEnd(s, a);
    if b == a then None
    else match FracEnd(s, b)
      case None => None
      case Some(c) =>
        match ParseExp(s, c)
        case None => None
        case Some((e, j)) =>
          if j == b then Some((Int(Signed(neg, NatOf(s[a..b]))), j))
          else Some((Canon(neg, s[a..b] + (if c > b then s[b + 1..c] else ""), (b - a) + e), j))
  }

  // ---------- Strings (section 7) ----------

  function HexVal(c: char): Option<nat> {
    if '0' <= c <= '9' then Some(c as int - '0' as int)
    else if 'a' <= c <= 'f' then Some(c as int - 'a' as int + 10)
    else if 'A' <= c <= 'F' then Some(c as int - 'A' as int + 10)
    else None
  }

  /** The code unit of a \uXXXX escape at `i`. */
  function ParseUnit(s: string, i: nat): (r: Option<nat>)
    ensures r.Some? ==> r.value < 0x10000
  {
    if i + 6 <= |s| && s[i] == '\\' && s[i + 1] == 'u' then
      match (HexVal(s[i + 2]), HexVal(s[i + 3]), HexVal(s[i + 4]), HexVal(s[i + 5]))
      case (Some(a), Some(b), Some(c), Some(d)) =>
        if a < 16 && b < 16 && c < 16 && d < 16 then Some(((a * 16 + b) * 16 + c) * 16 + d) else None
      case _ => None
    else None
  }

  /** One character between the quotes and where it ends. A surrogate must be one of a pair. */
  function ParseChar(s: string, i: nat): (r: Option<(char, nat)>)
    requires i < |s|
    ensures r.Some? ==> i < r.value.1 <= |s|
  {
    if s[i] != '\\' then
      if s[i] < ' ' || s[i] == '\"' then None else Some((s[i], i + 1))
    else if i + 1 == |s| then None
    else if s[i + 1] == 'u' then
      match ParseUnit(s, i)
      case None => None
      case Some(u) =>
        if u < 0xD800 || u >= 0xE000 then Some((u as char, i + 6))
        else if u >= 0xDC00 then None
        else match ParseUnit(s, i + 6)
          case None => None
          case Some(v) =>
            if 0xDC00 <= v < 0xE000 then Some(((0x10000 + (u - 0xD800) * 0x400 + (v - 0xDC00)) as char, i + 12))
            else None
    else
      match s[i + 1]
      case '\"' => Some(('\"', i + 2))
      case '\\' => Some(('\\', i + 2))
      case '/' => Some(('/', i + 2))
      case 'n' => Some(('\n', i + 2))
      case 'r' => Some(('\r', i + 2))
      case 't' => Some(('\t', i + 2))
      case 'b' => Some((0x08 as char, i + 2))
      case 'f' => Some((0x0c as char, i + 2))
      case _ => None
  }

  /** The rest of a string after its opening quote. */
  function ParseStr(s: string, i: nat): (r: Option<(string, nat)>)
    requires i <= |s|
    ensures r.Some? ==> i < r.value.1 <= |s|
    decreases |s| - i
  {
    if i == |s| then None
    else if s[i] == '\"' then Some(("", i + 1))
    else match ParseChar(s, i)
      case None => None
      case Some((c, j)) =>
        match ParseStr(s, j)
        case None => None
        case Some((t, k)) => Some(([c] + t, k))
  }

  // ---------- Values (sections 3 to 5) ----------

  function ParseLiteral(s: string, i: nat): (r: Option<(Value, nat)>)
    ensures r.Some? ==> i < r.value.1 <= |s|
  {
    if Has(s, i, "null") then Some((Null, i + 4))
    else if Has(s, i, "true") then Some((Bool(true), i + 4))
    else if Has(s, i, "false") then Some((Bool(false), i + 5))
    else None
  }

  function Parse(s: string, i: nat): (r: Option<(Value, nat)>)
    requires i <= |s|
    ensures r.Some? ==> i < r.value.1 <= |s|
    decreases |s| - i, 0
  {
    if i == |s| then None
    else if s[i] == 'n' || s[i] == 't' || s[i] == 'f' then ParseLiteral(s, i)
    else if s[i] == '\"' then
      match ParseStr(s, i + 1)
      case None => None
      case Some((t, j)) => Some((Str(t), j))
    else if s[i] == '[' then
      var j := Skip(s, i + 1);
      if j < |s| && s[j] == ']' then Some((Arr([]), j + 1))
      else match ParseItems(s, j)
        case None => None
        case Some((items, k)) => Some((Arr(items), k))
    else if s[i] == '{' then
      var j := Skip(s, i + 1);
      if j < |s| && s[j] == '}' then Some((Obj([]), j + 1))
      else match ParseFields(s, j)
        case None => None
        case Some((fields, k)) => Some((Obj(fields), k))
    else ParseNumber(s, i)
  }

  function ParseItems(s: string, i: nat): (r: Option<(seq<Value>, nat)>)
    requires i <= |s|
    ensures r.Some? ==> i < r.value.1 <= |s|
    decreases |s| - i, 1
  {
    match Parse(s, i)
    case None => None
    case Some((v, k)) =>
      var j := Skip(s, k);
      if j == |s| then None
      else if s[j] == ']' then Some(([v], j + 1))
      else if s[j] != ',' then None
      else match ParseItems(s, Skip(s, j + 1))
        case None => None
        case Some((items, e)) => Some(([v] + items, e))
  }

  /** One name, colon and value. */
  function ParseField(s: string, i: nat): (r: Option<(Field, nat)>)
    requires i <= |s|
    ensures r.Some? ==> i < r.value.1 <= |s|
    decreases |s| - i, 1
  {
    if i == |s| || s[i] != '\"' then None
    else match ParseStr(s, i + 1)
      case None => None
      case Some((name, n)) =>
        var c := Skip(s, n);
        if c == |s| || s[c] != ':' then None
        else match Parse(s, Skip(s, c + 1))
          case None => None
          case Some((v, k)) => Some((Field(name, v), k))
  }

  function ParseFields(s: string, i: nat): (r: Option<(seq<Field>, nat)>)
    requires i <= |s|
    ensures r.Some? ==> i < r.value.1 <= |s|
    decreases |s| - i, 2
  {
    match ParseField(s, i)
    case None => None
    case Some((f, k)) =>
      var j := Skip(s, k);
      if j == |s| then None
      else if s[j] == '}' then Some(([f], j + 1))
      else if s[j] != ',' then None
      else match ParseFields(s, Skip(s, j + 1))
        case None => None
        case Some((fields, e)) => Some(([f] + fields, e))
  }
}
