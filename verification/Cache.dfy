/** Cache keys, and the in-process tier of the cache. */
module Cache {
  import opened Types

  // ---------- Key framing ----------

  const SCHEMA := "rsdecider-cache-v1"

  function Ascii(t: string): seq<Byte> {
    seq(|t|, i requires 0 <= i < |t| => t[i] as int % 256)
  }

  function Power256(k: nat): nat {
    if k == 0 then 1 else 256 * Power256(k - 1)
  }

  /** The low `k` bytes of `n`, least significant first. */
  function Le(n: nat, k: nat): (r: seq<Byte>)
    ensures |r| == k
  {
    if k == 0 then [] else [n % 256] + Le(n / 256, k - 1)
  }

  /** Each segment from the `i`-th on, after its length in eight bytes. */
  function Framed(segments: seq<seq<Byte>>, i: nat): seq<Byte>
    requires i <= |segments|
    decreases |segments| - i
  {
    if i == |segments| then [] else Le(|segments[i]|, 8) + segments[i] + Framed(segments, i + 1)
  }

  function Frame(fingerprint: seq<Byte>, qtype: Byte, segments: seq<seq<Byte>>): seq<Byte> {
    Ascii(SCHEMA) + fingerprint + [qtype] + Framed(segments, 0)
  }

  class Hasher {
    var fed: seq<Byte>

    constructor ()
      ensures fed == []
    {
      fed := [];
    }

    method Update(bytes: seq<Byte>)
      modifies this
      ensures fed == old(fed) + bytes
    {
      fed := fed + bytes;
    }
  }

  lemma FramedNext(fed: seq<Byte>, segments: seq<seq<Byte>>, i: nat)
    requires i < |segments|
    ensures fed + Framed(segments, i) == fed + Le(|segments[i]|, 8) + segments[i] + Framed(segments, i + 1)
  {
  }

  // ---------- The frame by position ----------

  /** Eight bytes of a length, least significant first. */
  predicate LengthAt(f: seq<Byte>, at: nat, n: nat) {
    && at + 8 <= |f|
    && f[at] == n % 256 && f[at + 1] == n / 0x100 % 256 && f[at + 2] == n / 0x1_0000 % 256 && f[at + 3] == n / 0x100_0000 % 256
    && f[at + 4] == n / 0x1_0000_0000 % 256 && f[at + 5] == n / 0x100_0000_0000 % 256
    && f[at + 6] == n / 0x1_0000_0000_0000 % 256 && f[at + 7] == n / 0x100_0000_0000_0000 % 256
  }

  /** The bytes lie in the frame from there on. */
  predicate BytesAt(f: seq<Byte>, at: nat, bytes: seq<Byte>) {
    at + |bytes| <= |f| && forall i :: 0 <= i < |bytes| ==> f[at + i] == bytes[i]
  }

  /** From `starts[0]` on each segment lies behind its length, one after the other, to the end. */
  predicate SegmentsAt(f: seq<Byte>, segments: seq<seq<Byte>>, starts: seq<nat>) {
    && |starts| == |segments| + 1 && starts[|segments|] == |f|
    && forall k :: 0 <= k < |segments| ==>
         && starts[k + 1] == starts[k] + 8 + |segments[k]|
         && LengthAt(f, starts[k], |segments[k]|) && BytesAt(f, starts[k] + 8, segments[k])
  }

  /** The schema name, the fingerprint, the question type, and the segments each behind its length. */
  ghost predicate IsFrame(f: seq<Byte>, fingerprint: seq<Byte>, qtype: Byte, segments: seq<seq<Byte>>) {
    && |f| >= 19 + |fingerprint|
    && (forall i :: 0 <= i < 18 ==> f[i] == "rsdecider-cache-v1"[i] as int)
    && BytesAt(f, 18, fingerprint) && f[18 + |fingerprint|] == qtype
    && exists starts: seq<nat> :: SegmentsAt(f, segments, starts) && starts[0] == 19 + |fingerprint|
  }

  lemma LeIsLength(n: nat)
    ensures LengthAt(Le(n, 8), 0, n)
  {
    var a := Le(n, 8);
    assert a[1..] == Le(n / 256, 7) && a[2..] == Le(n / 256 / 256, 6);
    LeAt(n, 8, 0);
    LeAt(n, 8, 1);
    LeAt(n, 8, 2);
    LeAt(n, 8, 3);
    LeAt(n, 8, 4);
    LeAt(n, 8, 5);
    LeAt(n, 8, 6);
    LeAt(n, 8, 7);
    PowersOf256();
  }

  lemma PowersOf256()
    ensures Power256(0) == 1 && Power256(1) == 0x100 && Power256(2) == 0x1_0000 && Power256(3) == 0x100_0000
    ensures Power256(4) == 0x1_0000_0000 && Power256(5) == 0x100_0000_0000 && Power256(6) == 0x1_0000_0000_0000
    ensures Power256(7) == 0x100_0000_0000_0000
  {
    assert Power256(2) == 256 * Power256(1) && Power256(3) == 256 * Power256(2) && Power256(4) == 256 * Power256(3);
    assert Power256(5) == 256 * Power256(4) && Power256(6) == 256 * Power256(5) && Power256(7) == 256 * Power256(6);
  }

  lemma {:induction false} LeAt(n: nat, k: nat, i: nat)
    requires i < k
    ensures Power256(i) > 0 && Le(n, k)[i] == n / Power256(i) % 256
  {
    if i > 0 {
      LeAt(n / 256, k - 1, i - 1);
      assert Le(n, k)[i] == Le(n / 256, k - 1)[i - 1];
      QuotientTwice(n, Power256(i - 1));
    }
  }

  lemma QuotientTwice(n: nat, b: nat)
    requires b > 0
    ensures n / 256 / b == n / (256 * b)
  {
    var q, r := n / 256, n % 256;
    var q', r' := q / b, q % b;
    assert q == b * q' + r';
    Regrouped(b, q', r');
    QuotientIs(n, 256 * b, q', 256 * r' + r);
  }

  lemma Regrouped(b: nat, q: nat, r: nat)
    ensures 256 * (b * q + r) == (256 * b) * q + 256 * r
  {
  }

  lemma QuotientIs(n: nat, d: nat, q: nat, r: nat)
    requires d > 0 && n == d * q + r && r < d
    ensures n / d == q
  {
    var p := n / d;
    assert n == d * p + n % d;
    MulMonotone(p + 1, q, d);
    MulMonotone(q + 1, p, d);
  }

  /** The segments' part of the frame, wherever it is put. */
  lemma {:induction false} FramedAt(before: seq<Byte>, segments: seq<seq<Byte>>, i: nat) returns (starts: seq<nat>)
    requires i <= |segments|
    ensures SegmentsAt(before + Framed(segments, i), segments[i..], starts) && starts[0] == |before|
    decreases |segments| - i
  {
    if i == |segments| {
      starts := [|before|];
    } else {
      var rest := FramedAt(before + Le(|segments[i]|, 8) + segments[i], segments, i + 1);
      FramedStep(before, segments, i, rest);
      starts := [|before|] + rest;
    }
  }

  lemma FramedStep(before: seq<Byte>, segments: seq<seq<Byte>>, i: nat, rest: seq<nat>)
    requires i < |segments|
    requires SegmentsAt(before + Le(|segments[i]|, 8) + segments[i] + Framed(segments, i + 1), segments[i + 1..], rest)
    requires rest[0] == |before| + 8 + |segments[i]|
    ensures SegmentsAt(before + Framed(segments, i), segments[i..], [|before|] + rest)
  {
    var seg := segments[i];
    var f := before + Le(|seg|, 8) + seg + Framed(segments, i + 1);
    FramedNext(before, segments, i);
    OneFramed(before, seg, Framed(segments, i + 1), f);
    SegmentsCons(f, |before|, seg, segments[i + 1..], rest);
    HeadAndTail(segments, i);
  }

  lemma HeadAndTail(segments: seq<seq<Byte>>, i: nat)
    requires i < |segments|
    ensures segments[i..] == [segments[i]] + segments[i + 1..]
  {
  }

  lemma OneFramed(before: seq<Byte>, seg: seq<Byte>, rest: seq<Byte>, f: seq<Byte>)
    requires f == before + Le(|seg|, 8) + seg + rest
    ensures LengthAt(f, |before|, |seg|) && BytesAt(f, |before| + 8, seg)
  {
    var len := Le(|seg|, 8);
    LeIsLength(|seg|);
    assert forall j :: 0 <= j < 8 ==> f[|before| + j] == len[j];
  }

  lemma SegmentsCons(f: seq<Byte>, at: nat, seg: seq<Byte>, segments: seq<seq<Byte>>, starts: seq<nat>)
    requires LengthAt(f, at, |seg|) && BytesAt(f, at + 8, seg)
    requires SegmentsAt(f, segments, starts) && starts[0] == at + 8 + |seg|
    ensures SegmentsAt(f, [seg] + segments, [at] + starts)
  {
  }

  lemma FrameIsSpelled(fingerprint: seq<Byte>, qtype: Byte, segments: seq<seq<Byte>>)
    ensures IsFrame(Frame(fingerprint, qtype, segments), fingerprint, qtype, segments)
  {
    var before := Ascii(SCHEMA) + fingerprint + [qtype];
    var starts := FramedAt(before, segments, 0);
    assert segments[0..] == segments && |before| == 19 + |fingerprint|;
    FrameOpens(fingerprint, qtype, Framed(segments, 0));
  }

  lemma FrameOpens(fingerprint: seq<Byte>, qtype: Byte, rest: seq<Byte>)
    ensures var f := Ascii(SCHEMA) + fingerprint + [qtype] + rest;
            && |f| >= 19 + |fingerprint| && BytesAt(f, 18, fingerprint) && f[18 + |fingerprint|] == qtype
            && forall i :: 0 <= i < 18 ==> f[i] == "rsdecider-cache-v1"[i] as int
  {
    var name: string := "rsdecider-cache-v1";
    assert SCHEMA == name && |name| == 18;
    AsciiIsSpelled(name);
  }

  lemma AsciiIsSpelled(t: string)
    ensures forall i :: 0 <= i < |t| && t[i] as int < 256 ==> Ascii(t)[i] == t[i] as int
  {
  }

  method KeyOf(hash: seq<Byte> -> Key, fingerprint: seq<Byte>, qtype: Byte, segments: seq<seq<Byte>>) returns (key: Key)
    ensures key == hash(Frame(fingerprint, qtype, segments))
    ensures exists f :: IsFrame(f, fingerprint, qtype, segments) && key == hash(f)
  {
    var h := new Hasher();
    h.Update(Ascii(SCHEMA));
    h.Update(fingerprint);
    h.Update([qtype]);
    for i := 0 to |segments|
      invariant h.fed + Framed(segments, i) == Frame(fingerprint, qtype, segments)
    {
      FramedNext(h.fed, segments, i);
      h.Update(Le(|segments[i]|, 8));
      h.Update(segments[i]);
    }
    assert h.fed + [] == h.fed;
    key := hash(h.fed);
    FrameIsSpelled(fingerprint, qtype, segments);
  }

  lemma {:induction false} LeInjective(n: nat, m: nat, k: nat)
    requires Le(n, k) == Le(m, k) && n < Power256(k) && m < Power256(k)
    ensures n == m
    decreases k
  {
    if k > 0 {
      var a, b := Le(n, k), Le(m, k);
      assert a[0] == n % 256 && b[0] == m % 256;
      assert Le(n / 256, k - 1) == a[1..] == b[1..] == Le(m / 256, k - 1);
      LeInjective(n / 256, m / 256, k - 1);
    }
  }

  /** A segment's length fits in the eight bytes it is written in. */
  ghost predicate Short(segments: seq<seq<Byte>>) {
    forall i :: 0 <= i < |segments| ==> |segments[i]| < Power256(8)
  }

  lemma FrameSplits(s: seq<Byte>, rest: seq<Byte>)
    ensures var f := Le(|s|, 8) + s + rest; |f| >= 8 && f[..8] == Le(|s|, 8) && f[8..] == s + rest
  {
  }

  lemma {:induction false} FramedInjective(a: seq<seq<Byte>>, b: seq<seq<Byte>>, i: nat)
    requires Short(a) && Short(b) && i <= |a| && i <= |b| && Framed(a, i) == Framed(b, i)
    ensures a[i..] == b[i..]
    decreases |a| - i
  {
    if i < |a| {
      FrameSplits(a[i], Framed(a, i + 1));
    }
    if i < |b| {
      FrameSplits(b[i], Framed(b, i + 1));
    }
    if i < |a| && i < |b| {
      LeInjective(|a[i]|, |b[i]|, 8);
      assert a[i] == (a[i] + Framed(a, i + 1))[..|a[i]|] == (b[i] + Framed(b, i + 1))[..|b[i]|] == b[i];
      assert Framed(a, i + 1) == (a[i] + Framed(a, i + 1))[|a[i]|..] == (b[i] + Framed(b, i + 1))[|b[i]|..] == Framed(b, i + 1);
      FramedInjective(a, b, i + 1);
      assert a[i..] == [a[i]] + a[i + 1..] && b[i..] == [b[i]] + b[i + 1..];
    }
  }

  /** What is hashed tells model, question type and every segment apart, wherever their borders fall. */
  lemma FrameInjective(f: seq<Byte>, g: seq<Byte>, q: Byte, r: Byte, a: seq<seq<Byte>>, b: seq<seq<Byte>>)
    requires |f| == |g| == 32 && Short(a) && Short(b)
    ensures Frame(f, q, a) == Frame(g, r, b) <==> f == g && q == r && a == b
  {
    if Frame(f, q, a) == Frame(g, r, b) {
      var n, x, y := |Ascii(SCHEMA)|, Frame(f, q, a), Frame(g, r, b);
      assert f == x[n..n + 32] == y[n..n + 32] == g;
      assert q == x[n + 32] && r == y[n + 32];
      assert Framed(a, 0) == x[n + 33..] == y[n + 33..] == Framed(b, 0);
      FramedInjective(a, b, 0);
      assert a[0..] == a && b[0..] == b;
    }
  }

  ghost predicate CollisionFree(hash: seq<Byte> -> Key) {
    forall a, b :: hash(a) == hash(b) ==> a == b
  }

  /** Keys are equal exactly for the same model, type and segments. */
  lemma KeysTellApart(hash: seq<Byte> -> Key, f: seq<Byte>, g: seq<Byte>, q: Byte, r: Byte, a: seq<seq<Byte>>, b: seq<seq<Byte>>)
    requires CollisionFree(hash) && |f| == |g| == 32 && Short(a) && Short(b)
    ensures hash(Frame(f, q, a)) == hash(Frame(g, r, b)) <==> f == g && q == r && a == b
  {
    FrameInjective(f, g, q, r, a, b);
  }

  // ---------- The in-process tier ----------

  datatype Tier = L1 | L2

  /** What a lookup returns, and the first tier after it. `l2` is what the second tier has, if it answers. */
  function Found(l1: map<Key, Raw>, k: Key, n: nat, l2: Option<Raw>): (Option<(Raw, Tier)>, map<Key, Raw>) {
    if k in l1 && |l1[k].logits| == n then (Some((l1[k], L1)), l1)
    else if l2.Some? && |l2.value.logits| == n then (Some((l2.value, L2)), l1[k := l2.value])
    else (None, l1)
  }

  class Store {
    var l1: map<Key, Raw>

    constructor ()
      ensures l1 == map[]
    {
      l1 := map[];
    }

    method Put(k: Key, v: Raw)
      modifies this
      ensures l1 == old(l1)[k := v]
    {
      l1 := l1[k := v];
    }

    method Get(k: Key, n: nat, l2: Option<Raw>) returns (hit: Option<(Raw, Tier)>)
      modifies this
      ensures (hit, l1) == Found(old(l1), k, n, l2)
      ensures if k in old(l1) && |old(l1)[k].logits| == n then hit == Some((old(l1)[k], L1)) && l1 == old(l1)
              else if l2.Some? && |l2.value.logits| == n then hit == Some((l2.value, L2)) && l1 == old(l1)[k := l2.value]
              else hit == None && l1 == old(l1)
    {
      if k in l1 {
        var v := l1[k];
        if |v.logits| == n {
          return Some((v, L1));
        }
      }
      match l2 {
        case None => hit := None;
        case Some(raw) =>
          if |raw.logits| == n {
            l1 := l1[k := raw];
            hit := Some((raw, L2));
          } else {
            hit := None;
          }
      }
    }
  }

  ghost predicate AllGood(l1: map<Key, Raw>, good: (Key, Raw) -> bool) {
    forall k :: k in l1 ==> good(k, l1[k])
  }

  /**
   * Over a second tier with good values, a first tier with good values keeps them and lookups return good values of
   * the length asked for. Only what neither tier has at that length is missed.
   */
  lemma LookupsAreGood(l1: map<Key, Raw>, good: (Key, Raw) -> bool, k: Key, n: nat, l2: Option<Raw>)
    requires AllGood(l1, good) && (l2.Some? ==> good(k, l2.value))
    ensures var (hit, l1') := Found(l1, k, n, l2);
            && AllGood(l1', good) && l1.Keys <= l1'.Keys
            && (hit.Some? ==> good(k, hit.value.0) && |hit.value.0.logits| == n && k in l1')
            && (hit.None? <==> !(k in l1 && |l1[k].logits| == n) && !(l2.Some? && |l2.value.logits| == n))
  {
  }
}
