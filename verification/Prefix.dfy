/** Tokenizing only as much of a long text as can show, with the result full tokenization would give. */
module Prefix {
  import opened Types
  import opened Sequence
  import opened Questions

  const MARGIN := 64
  const MAX_USIZE := 0xFFFF_FFFF_FFFF_FFFF

  /** A token and the byte offset its text ends at. */
  datatype Token = Token(id: nat, end: nat)

  /** The tokenizer, and which positions of a text start a white space character. */
  datatype Tool = Tool(encode: seq<Byte> -> Result<seq<Token>, string>, white: (seq<Byte>, nat) -> bool)

  // ---------- Cutting ----------

  /** Between two characters: not before a continuation byte. */
  predicate Boundary(text: seq<Byte>, i: nat) {
    i == 0 || i == |text| || (i < |text| && !(0x80 <= text[i] < 0xC0))
  }

  /** The nearest boundary at or before `i`. */
  function Back(text: seq<Byte>, i: nat): (j: nat)
    requires i <= |text|
    ensures j <= i && Boundary(text, j) && forall k :: j < k <= i ==> !Boundary(text, k)
  {
    if Boundary(text, i) then i else Back(text, i - 1)
  }

  /** The last white space before `i`, or `i` when there is none. */
  function LastWhite(tool: Tool, text: seq<Byte>, i: nat): (j: nat)
    requires i <= |text|
    ensures j <= i && (j < i ==> tool.white(text, j))
    ensures forall k :: (if j < i then j < k else 0 <= k) && k < i ==> !tool.white(text, k)
  {
    if exists k :: 0 <= k < i && tool.white(text, k) then WhiteBefore(tool, text, i) else i
  }

  function WhiteBefore(tool: Tool, text: seq<Byte>, i: nat): (j: nat)
    requires exists k :: 0 <= k < i && tool.white(text, k)
    ensures j < i && tool.white(text, j) && forall k :: j < k < i ==> !tool.white(text, k)
  {
    if tool.white(text, i - 1) then i - 1 else WhiteBefore(tool, text, i - 1)
  }

  function CutAt(tool: Tool, text: seq<Byte>, need: nat): (cut: nat)
    requires 8 * need < |text|
    ensures cut <= 8 * need
  {
    LastWhite(tool, text, Back(text, 8 * need))
  }

  // ---------- Tokens well clear of the cut ----------

  function Clear(tokens: seq<Token>, cut: nat): (n: nat)
    ensures n <= |tokens| && (forall k :: 0 <= k < n ==> tokens[k].end + MARGIN <= cut)
    ensures n < |tokens| ==> tokens[n].end + MARGIN > cut
  {
    if tokens != [] && tokens[0].end + MARGIN <= cut then 1 + Clear(tokens[1..], cut) else 0
  }

  function IdsOf(tokens: seq<Token>): (r: Tokens)
    ensures |r| == |tokens| && forall k :: 0 <= k < |r| ==> r[k] == tokens[k].id
  {
    seq(|tokens|, k requires 0 <= k < |tokens| => tokens[k].id)
  }

  function Full(tool: Tool, text: seq<Byte>): Result<Tokens, string> {
    match tool.encode(text)
    case Err(e) => Err(e)
    case Ok(tokens) => Ok(IdsOf(tokens))
  }

  // ---------- The algorithm ----------

  /** What the method below returns; short texts and dense ones are tokenized in full. */
  function Leading(tool: Tool, text: seq<Byte>, need: nat): Result<Tokens, string> {
    if 8 * need >= |text| then Full(tool, text)
    else
      var cut := CutAt(tool, text, need);
      match tool.encode(text[..cut])
      case Err(e) => Err(e)
      case Ok(tokens) => if Clear(tokens, cut) >= need then Ok(IdsOf(tokens[..Clear(tokens, cut)])) else Full(tool, text)
  }

  /** Text positions fit in a machine word, and white space starts at a character. */
  ghost predicate Sane(tool: Tool, text: seq<Byte>) {
    |text| <= MAX_USIZE && forall i: nat :: i < |text| && tool.white(text, i) ==> Boundary(text, i)
  }

  method TokenizePrefix(tool: Tool, text: seq<Byte>, need: nat) returns (r: Result<Tokens, string>)
    requires Sane(tool, text)
    ensures r == Leading(tool, text, need) && IsLeading(tool, text, need, r)
  {
    LeadingIsSpelled(tool, text, need);
    var cut: nat := Min(8 * need, MAX_USIZE);
    if cut >= |text| {
      r := Full(tool, text);
      return;
    }
    while !Boundary(text, cut)
      invariant cut < |text| && Back(text, cut) == Back(text, 8 * need)
      decreases cut
    {
      cut := cut - 1;
    }
    cut := LastWhite(tool, text, cut);
    assert Boundary(text, cut);
    var enc := tool.encode(text[..cut]);
    if enc.Err? {
      return Err(enc.error);
    }
    var keep := CountClear(enc.value, cut);
    if keep >= need {
      r := Ok(IdsOf(enc.value[..keep]));
    } else {
      r := Full(tool, text);
    }
  }

  method CountClear(tokens: seq<Token>, cut: nat) returns (n: nat)
    ensures n == Clear(tokens, cut)
  {
    n := 0;
    while n < |tokens| && tokens[n].end + MARGIN <= cut
      invariant n <= |tokens| && Clear(tokens, cut) == n + Clear(tokens[n..], cut)
    {
      n := n + 1;
    }
  }

  // ---------- What is cut and kept, spelled out ----------

  /** Not inside a character: no continuation byte stands there. */
  predicate AtChar(text: seq<Byte>, k: nat) {
    k == 0 || k == |text| || (k < |text| && (text[k] < 128 || text[k] > 191))
  }

  /** The last character's start within eight bytes a token wanted, then the last white space before it if there is one. */
  ghost predicate IsCut(tool: Tool, text: seq<Byte>, need: nat, cut: nat) {
    exists back: nat ::
      && back <= 8 * need && AtChar(text, back) && (forall k: nat :: back < k <= 8 * need ==> !AtChar(text, k))
      && cut <= back && (forall k: nat :: cut < k < back ==> !tool.white(text, k))
      && (cut < back ==> tool.white(text, cut)) && (cut == back ==> forall k: nat :: k < back ==> !tool.white(text, k))
  }

  /** The first `n` tokens end at least 64 bytes before the cut, and the next one does not. */
  predicate IsClear(tokens: seq<Token>, cut: nat, n: nat) {
    && n <= |tokens| && (forall k :: 0 <= k < n ==> tokens[k].end + 64 <= cut)
    && (n < |tokens| ==> tokens[n].end + 64 > cut)
  }

  /** The ids of the first `n` tokens. */
  predicate AreIds(tokens: seq<Token>, n: nat, ids: Tokens) {
    |ids| == n <= |tokens| && forall k :: 0 <= k < n ==> ids[k] == tokens[k].id
  }

  predicate IsWhole(tool: Tool, text: seq<Byte>, r: Result<Tokens, string>) {
    match tool.encode(text)
    case Err(e) => r == Err(e)
    case Ok(tokens) => r.Ok? && AreIds(tokens, |tokens|, r.value)
  }

  /** The tokens of the part up to the cut that are clear of it, if they are enough; else those of the whole text. */
  ghost predicate IsPart(tool: Tool, text: seq<Byte>, need: nat, cut: nat, r: Result<Tokens, string>)
    requires cut <= |text|
  {
    match tool.encode(text[..cut])
    case Err(e) => r == Err(e)
    case Ok(tokens) =>
      exists n: nat :: IsClear(tokens, cut, n) && if n >= need then r.Ok? && AreIds(tokens, n, r.value) else IsWhole(tool, text, r)
  }

  ghost predicate IsLeading(tool: Tool, text: seq<Byte>, need: nat, r: Result<Tokens, string>) {
    if 8 * need >= |text| then IsWhole(tool, text, r)
    else exists cut: nat :: cut <= |text| && IsCut(tool, text, need, cut) && IsPart(tool, text, need, cut, r)
  }

  lemma LeadingIsSpelled(tool: Tool, text: seq<Byte>, need: nat)
    ensures IsLeading(tool, text, need, Leading(tool, text, need))
  {
    if 8 * need < |text| {
      var cut := CutAt(tool, text, need);
      CutIsSpelled(tool, text, need);
      if tool.encode(text[..cut]).Ok? {
        assert IsClear(tool.encode(text[..cut]).value, cut, Clear(tool.encode(text[..cut]).value, cut));
      }
    }
  }

  lemma CutIsSpelled(tool: Tool, text: seq<Byte>, need: nat)
    requires 8 * need < |text|
    ensures IsCut(tool, text, need, CutAt(tool, text, need))
  {
    var back := Back(text, 8 * need);
    assert forall k: nat :: k <= 8 * need ==> (AtChar(text, k) <==> Boundary(text, k));
  }

  /** A text whose beginning has tokens enough is read no further than its budget and the byte after it. */
  lemma OnlyTheBudgetIsRead(tool: Tool, a: seq<Byte>, b: seq<Byte>, need: nat)
    requires 8 * need < |a| && 8 * need < |b| && a[..8 * need + 1] == b[..8 * need + 1]
    requires forall k: nat :: k < 8 * need ==> (tool.white(a, k) <==> tool.white(b, k))
    requires var part := tool.encode(a[..CutAt(tool, a, need)]); part.Ok? && Clear(part.value, CutAt(tool, a, need)) >= need
    ensures Leading(tool, a, need) == Leading(tool, b, need)
  {
    forall k: nat | k <= 8 * need ensures Boundary(a, k) <==> Boundary(b, k) {
      assert a[k] == a[..8 * need + 1][k] == b[k];
    }
    var i, j := Back(a, 8 * need), Back(b, 8 * need);
    assert i == j;
    assert LastWhite(tool, a, i) == LastWhite(tool, b, i);
    var cut := CutAt(tool, a, need);
    assert a[..cut] == a[..8 * need + 1][..cut] == b[..cut];
  }

  // ---------- It refines full tokenization ----------

  /** The tokens that end the margin before `cut`, up to the first that does not. */
  function Early(tokens: seq<Token>, cut: nat): seq<Token> {
    tokens[..Clear(tokens, cut)]
  }

  /** The text ends at `cut`, goes on with white space there, or has had no white space yet. */
  predicate WordEnds(tool: Tool, text: seq<Byte>, cut: nat) {
    cut == |text| || tool.white(text, cut) || forall k :: 0 <= k < cut ==> !tool.white(text, k)
  }

  /** Both texts begin with the same `cut` bytes, and both may be cut there. */
  predicate ShareUpTo(tool: Tool, a: seq<Byte>, b: seq<Byte>, cut: nat) {
    && cut <= |a| && cut <= |b| && a[..cut] == b[..cut]
    && Boundary(a, cut) && Boundary(b, cut) && WordEnds(tool, a, cut) && WordEnds(tool, b, cut)
  }

  /**
   * The tokenizer looks at most the margin ahead of a word's end: texts that agree up to such a place have the same
   * tokens up to the margin before it. Nothing is asked of places inside a word that follows white space.
   */
  ghost predicate Local(tool: Tool) {
    forall a, b, cut: nat :: ShareUpTo(tool, a, b, cut) && tool.encode(a).Ok? && tool.encode(b).Ok? ==>
      Early(tool.encode(a).value, cut) == Early(tool.encode(b).value, cut)
  }

  /** The cut is a place where the text may be sliced, and no white space lies between it and the byte budget. */
  lemma CutIsSound(tool: Tool, text: seq<Byte>, need: nat)
    requires Sane(tool, text) && 8 * need < |text|
    ensures var cut := CutAt(tool, text, need);
            && Boundary(text, cut)
            && (cut < Back(text, 8 * need) ==> tool.white(text, cut))
            && (forall k :: cut < k < Back(text, 8 * need) ==> !tool.white(text, k))
  {
  }

  /** The white-space search makes the cut a place where a word has ended, unless no word has yet. */
  lemma CutEndsAWord(tool: Tool, text: seq<Byte>, need: nat)
    requires Sane(tool, text) && 8 * need < |text|
    ensures var cut := CutAt(tool, text, need); ShareUpTo(tool, text[..cut], text, cut)
  {
    var back, cut := Back(text, 8 * need), CutAt(tool, text, need);
    CutIsSound(tool, text, need);
    assert cut == back ==> forall k :: 0 <= k < back ==> !tool.white(text, k);
    assert text[..cut][..cut] == text[..cut];
  }

  /** The result is all tokens, or the first ones and at least as many as asked for. */
  lemma LeadingRefinesFull(tool: Tool, text: seq<Byte>, need: nat)
    requires Sane(tool, text) && Local(tool) && Leading(tool, text, need).Ok? && Full(tool, text).Ok?
    ensures var full := Full(tool, text);
            && Leading(tool, text, need).value <= full.value
            && (Leading(tool, text, need) == full || |Leading(tool, text, need).value| >= need)
  {
    if 8 * need < |text| {
      var cut := CutAt(tool, text, need);
      var part, whole := tool.encode(text[..cut]), tool.encode(text);
      if part.Ok? && Clear(part.value, cut) >= need {
        CutEndsAWord(tool, text, need);
        var n := Clear(part.value, cut);
        assert part.value[..n] == Early(whole.value, cut);
        forall k | 0 <= k < n ensures IdsOf(part.value[..n])[k] == IdsOf(whole.value)[k] {
          assert part.value[..n][k] == Early(whole.value, cut)[k] == whole.value[k];
        }
      }
    }
  }

  /** It fails only where full tokenization of the text, or of a part of it, does. */
  lemma LeadingFailsOnlyIf(tool: Tool, text: seq<Byte>, need: nat)
    requires Leading(tool, text, need).Err?
    ensures tool.encode(text).Err? || exists cut: nat :: cut <= |text| && tool.encode(text[..cut]).Err?
  {
    if 8 * need < |text| {
      var cut := CutAt(tool, text, need);
      assert tool.encode(text).Err? || tool.encode(text[..cut]).Err?;
    }
  }

  // ---------- Masks in what is tokenized ----------

  /** The bytes of the mask stand somewhere in the text. */
  ghost predicate Holds(text: seq<Byte>, mask: seq<Byte>) {
    exists i: nat :: HoldsAt(text, mask, i)
  }

  predicate HoldsAt(text: seq<Byte>, mask: seq<Byte>, i: nat) {
    i <= |text| && mask <= text[i..]
  }

  /** The tokenizer makes the mask token only of bytes that spell the mask. */
  ghost predicate SpellsMask(tool: Tool, meta: Meta, mask: seq<Byte>) {
    forall text :: tool.encode(text).Ok? && !Holds(text, mask) ==> Clean(meta, IdsOf(tool.encode(text).value))
  }

  /** A part of a text spells nothing the text does not. */
  lemma PartHoldsLess(text: seq<Byte>, mask: seq<Byte>, cut: nat)
    requires cut <= |text| && !Holds(text, mask)
    ensures !Holds(text[..cut], mask)
  {
    forall i: nat ensures !HoldsAt(text[..cut], mask, i) {
      if HoldsAt(text[..cut], mask, i) {
        assert text[i..][..|mask|] == text[..cut][i..][..|mask|] == mask;
        assert HoldsAt(text, mask, i);
      }
    }
  }

  /** Cut or whole, a text that does not spell the mask gives no mask token; whatever else the tokenizer does. */
  lemma LeadingHoldsNoMask(tool: Tool, text: seq<Byte>, need: nat, meta: Meta, mask: seq<Byte>)
    requires SpellsMask(tool, meta, mask) && !Holds(text, mask) && Leading(tool, text, need).Ok?
    ensures Clean(meta, Leading(tool, text, need).value)
  {
    if 8 * need < |text| {
      var cut := CutAt(tool, text, need);
      PartHoldsLess(text, mask, cut);
      if tool.encode(text[..cut]).Ok? {
        var tokens := tool.encode(text[..cut]).value;
        assert forall k :: 0 <= k < Clear(tokens, cut) ==> IdsOf(tokens)[k] != meta.mask;
      }
    }
  }

  /** With the model's length asked for, every question encodes as it would from the whole text. */
  lemma SameQuestionEitherWay(tool: Tool, text: seq<Byte>, meta: Meta, tok: Tokenize, p: Prepared)
    requires Sane(tool, text) && Local(tool) && Leading(tool, text, meta.maxLen).Ok? && Full(tool, text).Ok?
    ensures Encoding(meta, tok, Leading(tool, text, meta.maxLen).value, p) == Encoding(meta, tok, Full(tool, text).value, p)
  {
    LeadingRefinesFull(tool, text, meta.maxLen);
    var part, whole := Leading(tool, text, meta.maxLen).value, Full(tool, text).value;
    if tok(p.head).Ok? && TokenizedAll(tok, p.options).Ok? {
      OnlyThePrefixShows(meta, tok(p.head).value, TokenizedAll(tok, p.options).value, whole, part);
    }
  }
}
