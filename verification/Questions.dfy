/** Turning a client's question into the text segments the model sees, and those into tokens. */
module Questions {
  import opened Types
  import opened PyJson
  import opened Sequence

  datatype Question = Question(qtype: string, instructions: Value, criteria: Option<Value>)

  /** The text segments, with what is needed to read the answer back. */
  datatype Prepared = Prepared(qtype: nat, head: string, options: seq<string>, labels: seq<string>, legend: seq<Value>)

  datatype Problem = ListHoldsNonString | NotLabels | OptionCount(n: nat) | NotLevels | LevelCount(n: nat) | NotSides
                   | UnknownType(name: string) | Tokenizer(message: string) | OptionsDoNotFit

  // ---------- Text ----------

  /** Every occurrence of the mask, left to right, becomes a space. An empty mask matches between all characters. */
  function Replace(s: string, mask: string): string
    decreases |s|
  {
    if mask == [] then if s == [] then " " else [' ', s[0]] + Replace(s[1..], mask)
    else if mask <= s then " " + Replace(s[|mask|..], mask)
    else if s == [] then ""
    else [s[0]] + Replace(s[1..], mask)
  }

  ghost predicate Occurs(mask: string, s: string) {
    exists i: nat :: OccursAt(mask, s, i)
  }

  predicate OccursAt(mask: string, s: string, i: nat) {
    i <= |s| && mask <= s[i..]
  }

  function Render(v: Value): string
    requires Finite(v)
  {
    if v.Str? then v.text else Text(v, false)
  }

  predicate Blank(v: Value) {
    v == Null || v == Str("")
  }

  function StateSegment(state: Value, mask: string): string
    requires Finite(state)
  {
    Replace(Render(state), mask)
  }

  // ---------- Options by kind ----------

  /** The first appearance of each name, in order. */
  function Distinct(names: seq<string>): (r: seq<string>)
    ensures NoDup(r) && forall n :: n in r <==> n in names
  {
    if names == [] then []
    else
      var n, before := names[|names| - 1], Distinct(names[..|names| - 1]);
      assert names == names[..|names| - 1] + [n];
      if n in before then before else before + [n]
  }

  /** The name a list entry stands for; only strings are let through. */
  function NameOf(v: Value): string {
    if v.Str? then v.text else ""
  }

  function Names(items: seq<Value>): (r: seq<string>)
    ensures |r| == |items|
  {
    seq(|items|, k requires 0 <= k < |items| => NameOf(items[k]))
  }

  predicate Labelled(fields: seq<Field>) {
    forall i, j :: 0 <= i < j < |fields| ==> fields[i].name != fields[j].name
  }

  function Bare(names: seq<string>): (r: seq<Field>)
    ensures |r| == |names|
  {
    seq(|names|, k requires 0 <= k < |names| => Field(names[k], Null))
  }

  /** The labels of a choice with their criteria. A list may only hold strings, and repeated ones count once. */
  function Pairs(criteria: Option<Value>): Result<seq<Field>, Problem> {
    match criteria
    case Some(Obj(fields)) => Ok(fields)
    case Some(Arr(items)) =>
      if exists k :: 0 <= k < |items| && !items[k].Str? then Err(ListHoldsNonString) else Ok(Bare(Distinct(Names(items))))
    case _ => Err(NotLabels)
  }

  method CollectPairs(criteria: Option<Value>) returns (r: Result<seq<Field>, Problem>)
    ensures r == Pairs(criteria)
  {
    match criteria {
      case Some(Obj(fields)) => r := Ok(fields);
      case Some(Arr(items)) =>
        var seen: seq<string> := [];
        for i := 0 to |items|
          invariant forall k :: 0 <= k < i ==> items[k].Str?
          invariant seen == Distinct(Names(items)[..i])
        {
          if !items[i].Str? {
            return Err(ListHoldsNonString);
          }
          assert Names(items)[..i + 1][..i] == Names(items)[..i];
          if items[i].text !in seen {
            seen := seen + [items[i].text];
          }
        }
        assert Names(items)[..|items|] == Names(items);
        r := Ok(Bare(seen));
      case _ => r := Err(NotLabels);
    }
  }

  /** The criteria are finite values, and an object's names differ. */
  predicate WellFormed(q: Question) {
    && Finite(q.instructions)
    && (q.criteria.Some? ==> Finite(q.criteria.value))
    && (q.criteria.Some? && q.criteria.value.Obj? ==> Labelled(q.criteria.value.fields))
  }

  function ChoiceText(f: Field): string
    requires Finite(f.value)
  {
    if Blank(f.value) then f.name else f.name + ": " + Render(f.value)
  }

  function LevelText(i: nat, v: Value): string
    requires Finite(v)
  {
    "level " + NatText(i) + ": " + Render(v)
  }

  function Lookup(fields: seq<Field>, name: string): (r: Value)
    requires forall k :: 0 <= k < |fields| ==> Finite(fields[k].value)
    ensures Finite(r)
  {
    if fields == [] then Null else if fields[0].name == name then fields[0].value else Lookup(fields[1..], name)
  }

  function SideText(fields: seq<Field>, name: string, default: string): string
    requires forall k :: 0 <= k < |fields| ==> Finite(fields[k].value)
  {
    var v := Lookup(fields, name);
    name + ": " + if Blank(v) then default else Render(v)
  }

  function Sides(fields: seq<Field>): seq<string>
    requires forall k :: 0 <= k < |fields| ==> Finite(fields[k].value)
  {
    [SideText(fields, "false", "no, the statement does not hold"), SideText(fields, "true", "yes, the statement holds")]
  }

  function Segments(texts: seq<string>, mask: string): (r: seq<string>)
    ensures |r| == |texts|
    ensures forall k :: 0 <= k < |texts| ==> r[k] == " " + Replace(texts[k], mask)
  {
    seq(|texts|, k requires 0 <= k < |texts| => " " + Replace(texts[k], mask))
  }

  function Head(name: string, q: Question, mask: string): string
    requires Finite(q.instructions)
  {
    name + " question: " + Replace(if q.instructions.Str? then q.instructions.text else Text(q.instructions, true), mask)
  }

  function PrepareChoice(q: Question, mask: string, fields: seq<Field>): Result<Prepared, Problem>
    requires Finite(q.instructions) && forall k :: 0 <= k < |fields| ==> Finite(fields[k].value)
  {
    if !(2 <= |fields| <= 255) then Err(OptionCount(|fields|))
    else
      var texts := seq(|fields|, k requires 0 <= k < |fields| => ChoiceText(fields[k]));
      var labels := seq(|fields|, k requires 0 <= k < |fields| => fields[k].name);
      Ok(Prepared(0, Head("choice", q, mask), Segments(texts, mask), labels, []))
  }

  function PrepareScore(q: Question, mask: string, levels: seq<Value>): Result<Prepared, Problem>
    requires Finite(q.instructions) && forall k :: 0 <= k < |levels| ==> Finite(levels[k])
  {
    if !(2 <= |levels| <= 10) then Err(LevelCount(|levels|))
    else
      var texts := seq(|levels|, k requires 0 <= k < |levels| => LevelText(k, levels[k]));
      Ok(Prepared(1, Head("score", q, mask), Segments(texts, mask), [], levels))
  }

  function PrepareNoul(q: Question, mask: string, fields: seq<Field>): Result<Prepared, Problem>
    requires Finite(q.instructions) && forall k :: 0 <= k < |fields| ==> Finite(fields[k].value)
  {
    Ok(Prepared(2, Head("noul", q, mask), Segments(Sides(fields), mask), [], []))
  }

  lemma PairsAreFinite(criteria: Option<Value>)
    requires criteria.Some? ==> Finite(criteria.value)
    ensures Pairs(criteria).Ok? ==> forall k :: 0 <= k < |Pairs(criteria).value| ==> Finite(Pairs(criteria).value[k].value)
  {
  }

  /** What a question is prepared as. */
  function Preparation(q: Question, mask: string): Result<Prepared, Problem>
    requires WellFormed(q)
  {
    if q.qtype == "choice" then
      PairsAreFinite(q.criteria);
      match Pairs(q.criteria)
      case Err(e) => Err(e)
      case Ok(fields) => PrepareChoice(q, mask, fields)
    else if q.qtype == "score" then
      match q.criteria
      case Some(Arr(levels)) => PrepareScore(q, mask, levels)
      case _ => Err(NotLevels)
    else if q.qtype == "noul" then
      match q.criteria
      case None => PrepareNoul(q, mask, [])
      case Some(Obj(fields)) => PrepareNoul(q, mask, fields)
      case Some(_) => Err(NotSides)
    else Err(UnknownType(q.qtype))
  }

  method Prepare(q: Question, mask: string) returns (r: Result<Prepared, Problem>)
    requires WellFormed(q)
    ensures r == Preparation(q, mask)
  {
    var qtype: nat, labels: seq<string>, legend: seq<Value>, texts: seq<string> := 0, [], [], [];
    if q.qtype == "choice" {
      PairsAreFinite(q.criteria);
      var pairs := CollectPairs(q.criteria);
      if pairs.Err? {
        return Err(pairs.error);
      }
      var fields := pairs.value;
      if !(2 <= |fields| <= 255) {
        return Err(OptionCount(|fields|));
      }
      texts := seq(|fields|, k requires 0 <= k < |fields| => ChoiceText(fields[k]));
      labels := seq(|fields|, k requires 0 <= k < |fields| => fields[k].name);
    } else if q.qtype == "score" {
      if !(q.criteria.Some? && q.criteria.value.Arr?) {
        return Err(NotLevels);
      }
      qtype, legend := 1, q.criteria.value.items;
      if !(2 <= |legend| <= 10) {
        return Err(LevelCount(|legend|));
      }
      texts := seq(|legend|, k requires 0 <= k < |legend| => LevelText(k, legend[k]));
    } else if q.qtype == "noul" {
      if q.criteria.Some? && !q.criteria.value.Obj? {
        return Err(NotSides);
      }
      var fields := if q.criteria.Some? then q.criteria.value.fields else [];
      qtype, texts := 2, Sides(fields);
    } else {
      return Err(UnknownType(q.qtype));
    }
    r := Ok(Prepared(qtype, Head(q.qtype, q, mask), Segments(texts, mask), labels, legend));
  }

  /** The options of a prepared question: how many there may be, and what reads them back. */
  lemma PreparedOptions(q: Question, mask: string)
    requires WellFormed(q) && Preparation(q, mask).Ok?
    ensures var p := Preparation(q, mask).value;
            && 2 <= |p.options| <= 255
            && (p.qtype == 0 ==> |p.labels| == |p.options| && NoDup(p.labels))
            && (p.qtype == 1 ==> |p.legend| == |p.options| <= 10)
            && (p.qtype == 2 ==> |p.options| == 2)
            && p.qtype < 3
  {
  }

  // ---------- No mask in the texts ----------

  /** No space among the first `n` characters. */
  predicate SpaceFree(t: string, n: nat) {
    n <= |t| && forall k :: 0 <= k < n ==> t[k] != ' '
  }

  /** Characters before the first space of a replaced text were copied from the original. */
  lemma {:induction false} CopiedPrefix(s: string, mask: string, n: nat)
    requires mask != []
    ensures SpaceFree(Replace(s, mask), n) ==> n <= |s| && forall k :: 0 <= k < n ==> s[k] == Replace(s, mask)[k]
    decreases |s|
  {
    var r := Replace(s, mask);
    if mask <= s || s == [] {
      assert n > 0 ==> s == [] || r[0] == ' ';
    } else if n > 0 {
      var r' := Replace(s[1..], mask);
      CopiedPrefix(s[1..], mask, n - 1);
      assert r == [s[0]] + r';
      assert SpaceFree(r, n) ==> SpaceFree(r', n - 1) by {
        assert forall k :: 0 <= k < |r'| ==> r'[k] == r[k + 1];
      }
    }
  }

  /** After replacement the mask is nowhere in the text, not even where the pieces around an occurrence meet. */
  lemma {:induction false} ReplacedHoldsNoMask(s: string, mask: string)
    requires mask != [] && ' ' !in mask
    ensures !Occurs(mask, Replace(s, mask))
    decreases |s|
  {
    var r := Replace(s, mask);
    forall i: nat ensures !OccursAt(mask, r, i) {
      if OccursAt(mask, r, i) {
        if i > 0 {
          var rest := if mask <= s then s[|mask|..] else s[1..];
          ReplacedHoldsNoMask(rest, mask);
          assert r[i..] == Replace(rest, mask)[i - 1..];
          assert OccursAt(mask, Replace(rest, mask), i - 1);
        } else {
          FirstIsNotMask(s, mask);
        }
      }
    }
  }

  lemma FirstIsNotMask(s: string, mask: string)
    requires mask != [] && ' ' !in mask
    ensures !(mask <= Replace(s, mask)[0..])
  {
    var r, n := Replace(s, mask), |mask|;
    assert r[0..] == r;
    assert mask <= r ==> SpaceFree(r, n) && r[0] == mask[0];
    assert mask <= r && n <= |s| && (forall k :: 0 <= k < n ==> s[k] == r[k]) ==> mask <= s;
    CopiedPrefix(s, mask, n);
    assert mask <= s ==> r[0] == ' ';
  }

  /** A mask reaching over the space would hold one. */
  lemma StraddlerHoldsSpace(a: string, b: string, mask: string, i: nat)
    requires OccursAt(mask, a + " " + b, i) && i <= |a| < i + |mask|
    ensures ' ' in mask
  {
    assert mask[|a| - i] == (a + " " + b)[i..][|a| - i] == ' ';
  }

  /** A space between two texts keeps a mask without spaces from reaching across. */
  lemma SpaceSeparates(a: string, b: string, mask: string)
    requires mask != [] && ' ' !in mask
    ensures Occurs(mask, a + " " + b) <==> Occurs(mask, a) || Occurs(mask, b)
  {
    var t := a + " " + b;
    forall i: nat ensures OccursAt(mask, a, i) ==> OccursAt(mask, t, i) {
      if OccursAt(mask, a, i) {
        assert mask == a[i..][..|mask|] == t[i..][..|mask|];
      }
    }
    forall i: nat ensures OccursAt(mask, b, i) ==> OccursAt(mask, t, |a| + 1 + i) {
      assert i <= |b| ==> t[|a| + 1 + i..] == b[i..];
    }
    forall i: nat ensures OccursAt(mask, t, i) ==> OccursAt(mask, a, i) || (i > |a| && OccursAt(mask, b, i - |a| - 1)) {
      if OccursAt(mask, t, i) {
        if i > |a| {
          assert t[i..] == b[i - |a| - 1..];
        } else {
          if i + |mask| > |a| {
            StraddlerHoldsSpace(a, b, mask, i);
          }
          assert mask == t[i..][..|mask|] == a[i..][..|mask|];
        }
      }
    }
  }

  /** What a prepared question shows the model holds the mask only where the question type's own words do. */
  lemma PreparedHoldsNoMask(q: Question, mask: string)
    requires WellFormed(q) && Preparation(q, mask).Ok? && mask != [] && ' ' !in mask
    ensures var p := Preparation(q, mask).value;
            && (forall k :: 0 <= k < |p.options| ==> !Occurs(mask, p.options[k]))
            && (Occurs(mask, p.head) <==> Occurs(mask, q.qtype + " question:"))
  {
    var texts := PreparedTexts(q, mask);
    SegmentsHoldNoMask(texts, mask);
    HeadHoldsNoMask(q, mask);
  }

  /** Options and head as built from the texts before replacement. */
  lemma PreparedTexts(q: Question, mask: string) returns (texts: seq<string>)
    requires WellFormed(q) && Preparation(q, mask).Ok?
    ensures var p := Preparation(q, mask).value; p.options == Segments(texts, mask) && p.head == Head(q.qtype, q, mask)
  {
    if q.qtype == "choice" {
      var fields := Pairs(q.criteria).value;
      PairsAreFinite(q.criteria);
      texts := seq(|fields|, k requires 0 <= k < |fields| => ChoiceText(fields[k]));
    } else if q.qtype == "score" {
      var levels := q.criteria.value.items;
      texts := seq(|levels|, k requires 0 <= k < |levels| => LevelText(k, levels[k]));
    } else {
      texts := Sides(if q.criteria.None? then [] else q.criteria.value.fields);
    }
  }

  lemma SegmentsHoldNoMask(texts: seq<string>, mask: string)
    requires mask != [] && ' ' !in mask
    ensures forall k :: 0 <= k < |texts| ==> !Occurs(mask, Segments(texts, mask)[k])
  {
    forall k | 0 <= k < |texts| ensures !Occurs(mask, Segments(texts, mask)[k]) {
      var t := Replace(texts[k], mask);
      ReplacedHoldsNoMask(texts[k], mask);
      SpaceSeparates("", t, mask);
      assert "" + " " + t == Segments(texts, mask)[k];
    }
  }

  lemma HeadHoldsNoMask(q: Question, mask: string)
    requires Finite(q.instructions) && mask != [] && ' ' !in mask
    ensures Occurs(mask, Head(q.qtype, q, mask)) <==> Occurs(mask, q.qtype + " question:")
  {
    HeadTextHoldsNoMask(q.qtype, if q.instructions.Str? then q.instructions.text else Text(q.instructions, true), mask);
  }

  lemma HeadTextHoldsNoMask(name: string, ins: string, mask: string)
    requires mask != [] && ' ' !in mask
    ensures Occurs(mask, name + " question: " + Replace(ins, mask)) <==> Occurs(mask, name + " question:")
  {
    ReplacedHoldsNoMask(ins, mask);
    SpaceSeparates(name + " question:", Replace(ins, mask), mask);
    assert name + " question: " + Replace(ins, mask) == name + " question:" + " " + Replace(ins, mask);
  }

  // ---------- Encoding ----------

  type Tokenize = string -> Result<Tokens, string>

  function TokenizedAll(tok: Tokenize, texts: seq<string>): (r: Result<seq<Tokens>, Problem>)
    ensures r.Ok? ==> |r.value| == |texts| && forall k :: 0 <= k < |texts| ==> tok(texts[k]) == Ok(r.value[k])
    ensures r.Err? ==> exists k :: 0 <= k < |texts| && tok(texts[k]).Err?
  {
    if texts == [] then Ok([])
    else
      match TokenizedAll(tok, texts[..|texts| - 1])
      case Err(e) => Err(e)
      case Ok(before) =>
        match tok(texts[|texts| - 1])
        case Err(e) => Err(Tokenizer(e))
        case Ok(t) => Ok(before + [t])
  }

  /** A question's tokens; refused when a marker fell past the limit. */
  function Encoding(meta: Meta, tok: Tokenize, state: Tokens, p: Prepared): Result<Encoded, Problem> {
    match tok(p.head)
    case Err(e) => Err(Tokenizer(e))
    case Ok(head) =>
      match TokenizedAll(tok, p.options)
      case Err(e) => Err(e)
      case Ok(opts) =>
        if |Markers(meta, head, opts)| != |p.options| then Err(OptionsDoNotFit)
        else Ok(Encoded(Ids(meta, head, opts, state), Markers(meta, head, opts), p.qtype))
  }

  method TokenizeAll(tok: Tokenize, texts: seq<string>) returns (r: Result<seq<Tokens>, Problem>)
    ensures r == TokenizedAll(tok, texts)
  {
    var all: seq<Tokens> := [];
    for i := 0 to |texts|
      invariant TokenizedAll(tok, texts[..i]) == Ok(all)
    {
      assert texts[..i + 1][..i] == texts[..i];
      var t := tok(texts[i]);
      if t.Err? {
        FirstError(tok, texts, i + 1, Tokenizer(t.error));
        return Err(Tokenizer(t.error));
      }
      all := all + [t.value];
    }
    assert texts[..|texts|] == texts;
    r := Ok(all);
  }

  lemma {:induction false} FirstError(tok: Tokenize, texts: seq<string>, i: nat, e: Problem)
    requires i <= |texts| && TokenizedAll(tok, texts[..i]) == Err(e)
    ensures TokenizedAll(tok, texts) == Err(e)
    decreases |texts|
  {
    if i < |texts| {
      var init := texts[..|texts| - 1];
      assert init[..i] == texts[..i];
      FirstError(tok, init, i, e);
    } else {
      assert texts[..i] == texts;
    }
  }

  method Encode(meta: Meta, tok: Tokenize, state: Tokens, p: Prepared) returns (r: Result<Encoded, Problem>)
    ensures r == Encoding(meta, tok, state, p)
    ensures if r.Ok? then IsEncoding(meta, tok, state, p, r.value) else IsRefused(meta, tok, p, r.error)
  {
    EncodingIsRight(meta, tok, state, p);
    var head := tok(p.head);
    if head.Err? {
      return Err(Tokenizer(head.error));
    }
    var opts := TokenizeAll(tok, p.options);
    if opts.Err? {
      return Err(opts.error);
    }
    var ids, markers := Assemble(meta, head.value, opts.value, state);
    if |markers| != |p.options| {
      return Err(OptionsDoNotFit);
    }
    r := Ok(Encoded(ids, markers, p.qtype));
  }

  predicate Tokenizes(tok: Tokenize, p: Prepared) {
    tok(p.head).Ok? && forall k :: 0 <= k < |p.options| ==> tok(p.options[k]).Ok?
  }

  /**
   * A prepared question is never refused for its length when the limits leave 4 places an option and 16 for the
   * head: 56 do for a score or noul question, 1036 for any.
   */
  lemma PreparedAlwaysFits(meta: Meta, tok: Tokenize, state: Tokens, q: Question, mask: string)
    requires WellFormed(q) && Preparation(q, mask).Ok?
    requires var p := Preparation(q, mask).value;
             Tokenizes(tok, p) && 4 * |p.options| <= meta.headMaxLen - 16 && meta.maxLen >= meta.headMaxLen + 4
    ensures var p := Preparation(q, mask).value;
            var r := Encoding(meta, tok, state, p);
            && r.Ok? && |r.value.markers| == |p.options| && |r.value.ids| <= meta.maxLen
            && r.value.ids[|r.value.ids| - 1] == meta.sep
            && (p.qtype != 0 ==> 4 * |p.options| <= 40) && 4 * |p.options| <= 1020
  {
    var p := Preparation(q, mask).value;
    PreparedOptions(q, mask);
    var head, opts := tok(p.head).value, TokenizedAll(tok, p.options).value;
    NothingIsCutOff(meta, head, opts, state);
  }

  /** Whatever is accepted has one marker an option, and its length fits the model. */
  lemma EncodedIsWellFormed(meta: Meta, tok: Tokenize, state: Tokens, p: Prepared)
    ensures var r := Encoding(meta, tok, state, p);
            r.Ok? ==>
              && |r.value.markers| == |p.options| && |r.value.ids| <= meta.maxLen
              && forall k :: 0 <= k < |p.options| ==> r.value.markers[k] < |r.value.ids| && r.value.ids[r.value.markers[k]] == meta.mask
  {
    if tok(p.head).Ok? && TokenizedAll(tok, p.options).Ok? {
      AssembledIsWellFormed(meta, tok(p.head).value, TokenizedAll(tok, p.options).value, state);
    }
  }

  /** The encoding is refused for length exactly when the last option would start past the limit. */
  lemma RefusedIff(meta: Meta, tok: Tokenize, state: Tokens, p: Prepared)
    requires Tokenizes(tok, p) && p.options != []
    ensures var head, opts := tok(p.head).value, TokenizedAll(tok, p.options);
            opts.Ok? &&
            (Encoding(meta, tok, state, p) == Err(OptionsDoNotFit)
             <==> HeadLen(meta, head, opts.value) + 2 + Offset(Pieces(meta, opts.value), |p.options| - 1) >= meta.maxLen)
  {
    AllSurviveIff(meta, tok(p.head).value, TokenizedAll(tok, p.options).value);
  }

  /** The tokenizer makes the mask token only of a text that spells the mask. */
  ghost predicate SpelledOut(tok: Tokenize, meta: Meta, mask: string) {
    forall t: string :: tok(t).Ok? && !Occurs(mask, t) ==> Clean(meta, tok(t).value)
  }

  /** Over any state tokens without the mask, the mask tokens of a question are exactly those at its markers. */
  lemma OnlyMarkersInQuestion(meta: Meta, tok: Tokenize, state: Tokens, q: Question, mask: string, i: nat)
    requires WellFormed(q) && Preparation(q, mask).Ok? && Clean(meta, state)
    requires mask != [] && ' ' !in mask && !Occurs(mask, q.qtype + " question:")
    requires SpelledOut(tok, meta, mask) && meta.cls != meta.mask && meta.sep != meta.mask
    requires var r := Encoding(meta, tok, state, Preparation(q, mask).value); r.Ok? && i < |r.value.ids|
    ensures var e := Encoding(meta, tok, state, Preparation(q, mask).value).value; e.ids[i] == meta.mask <==> i in e.markers
  {
    var p := Preparation(q, mask).value;
    PreparedHoldsNoMask(q, mask);
    var head, opts := tok(p.head).value, TokenizedAll(tok, p.options).value;
    assert forall k :: 0 <= k < |opts| ==> tok(p.options[k]) == Ok(opts[k]) && Clean(meta, opts[k]);
    MasksAreMarkers(meta, head, opts, state, i);
  }

  /** No state, question or option text can forge an option: the mask tokens are exactly those at the markers. */
  lemma OnlyMarkersAreMasks(meta: Meta, tok: Tokenize, state: Value, q: Question, mask: string, i: nat)
    requires WellFormed(q) && Preparation(q, mask).Ok? && Finite(state) && tok(StateSegment(state, mask)).Ok?
    requires mask != [] && ' ' !in mask && !Occurs(mask, q.qtype + " question:")
    requires SpelledOut(tok, meta, mask) && meta.cls != meta.mask && meta.sep != meta.mask
    requires var r := Encoding(meta, tok, tok(StateSegment(state, mask)).value, Preparation(q, mask).value);
             r.Ok? && i < |r.value.ids|
    ensures var e := Encoding(meta, tok, tok(StateSegment(state, mask)).value, Preparation(q, mask).value).value;
            e.ids[i] == meta.mask <==> i in e.markers
  {
    ReplacedHoldsNoMask(Render(state), mask);
    OnlyMarkersInQuestion(meta, tok, tok(StateSegment(state, mask)).value, q, mask, i);
  }

  // ---------- What is encoded, by position ----------

  /** `e` is the question's tokens laid out over these state tokens, one marker an option. */
  ghost predicate IsEncoding(meta: Meta, tok: Tokenize, state: Tokens, p: Prepared, e: Encoded) {
    && |e.markers| == |p.options| && e.qtype == p.qtype
    && exists head, opts :: TokensOf(tok, p, head, opts) && LaidOut(meta, head, opts, state, e.ids, e.markers)
  }

  predicate TokensOf(tok: Tokenize, p: Prepared, head: Tokens, opts: seq<Tokens>) {
    tok(p.head) == Ok(head) && |opts| == |p.options| && forall k :: 0 <= k < |opts| ==> tok(p.options[k]) == Ok(opts[k])
  }

  /** The tokenizer's first refusal, head before options; or the last option would start at the limit or past it. */
  ghost predicate IsRefused(meta: Meta, tok: Tokenize, p: Prepared, e: Problem) {
    match e
    case Tokenizer(msg) =>
      || tok(p.head) == Err(msg)
      || (tok(p.head).Ok? && exists k :: 0 <= k < |p.options| && tok(p.options[k]) == Err(msg)
                                         && forall j :: 0 <= j < k ==> tok(p.options[j]).Ok?)
    case OptionsDoNotFit =>
      exists head, opts, plan :: TokensOf(tok, p, head, opts) && Planned(meta, head, opts, plan) && opts != []
                                 && StartOf(plan, |opts| - 1) >= meta.maxLen
    case _ => false
  }

  lemma {:induction false} TokenizedFails(tok: Tokenize, texts: seq<string>)
    requires TokenizedAll(tok, texts).Err?
    ensures TokenizedAll(tok, texts).error.Tokenizer?
    ensures exists k :: 0 <= k < |texts| && tok(texts[k]) == Err(TokenizedAll(tok, texts).error.message)
                        && forall j :: 0 <= j < k ==> tok(texts[j]).Ok?
  {
    var n := |texts| - 1;
    var init := texts[..n];
    if TokenizedAll(tok, init).Err? {
      TokenizedFails(tok, init);
      var k :| 0 <= k < n && tok(init[k]) == Err(TokenizedAll(tok, init).error.message) && forall j :: 0 <= j < k ==> tok(init[j]).Ok?;
      assert init[k] == texts[k] && forall j :: 0 <= j < k ==> init[j] == texts[j];
    } else {
      assert forall j :: 0 <= j < n ==> init[j] == texts[j];
      assert tok(texts[n]).Err?;
    }
  }

  /** A question is encoded as laid out, or refused for the reason given. */
  lemma EncodingIsRight(meta: Meta, tok: Tokenize, state: Tokens, p: Prepared)
    ensures var r := Encoding(meta, tok, state, p);
            if r.Ok? then IsEncoding(meta, tok, state, p, r.value) else IsRefused(meta, tok, p, r.error)
  {
    if tok(p.head).Ok? {
      var head := tok(p.head).value;
      if TokenizedAll(tok, p.options).Ok? {
        AssembledIsRight(meta, tok, state, p, head, TokenizedAll(tok, p.options).value);
      } else {
        TokenizedFails(tok, p.options);
      }
    }
  }

  lemma AssembledIsRight(meta: Meta, tok: Tokenize, state: Tokens, p: Prepared, head: Tokens, opts: seq<Tokens>)
    requires tok(p.head) == Ok(head) && TokenizedAll(tok, p.options) == Ok(opts)
    ensures var r := Encoding(meta, tok, state, p);
            if r.Ok? then IsEncoding(meta, tok, state, p, r.value) else IsRefused(meta, tok, p, r.error)
  {
    AssembledIsLaidOut(meta, head, opts, state);
    assert TokensOf(tok, p, head, opts);
    if |Markers(meta, head, opts)| != |p.options| {
      PlanIsPlanned(meta, head, opts);
      AllSurviveIff(meta, head, opts);
      var plan := PlanOf(meta, head, opts);
      assert StartOf(plan, |opts| - 1) >= meta.maxLen;
    }
  }

  /** There is one encoding of a question over given state tokens. */
  lemma EncodingIsOne(meta: Meta, tok: Tokenize, state: Tokens, p: Prepared, a: Encoded, b: Encoded)
    requires IsEncoding(meta, tok, state, p, a) && IsEncoding(meta, tok, state, p, b)
    ensures a == b
  {
    var head, opts :| TokensOf(tok, p, head, opts) && LaidOut(meta, head, opts, state, a.ids, a.markers);
    var head', opts' :| TokensOf(tok, p, head', opts') && LaidOut(meta, head', opts', state, b.ids, b.markers);
    assert head == head' && opts == opts';
    LaidOutIsOne(meta, head, opts, state, a.ids, b.ids, a.markers, b.markers);
  }

  /** What is laid out is not refused: a question is encoded exactly when there is an encoding of it. */
  lemma EncodesIff(meta: Meta, tok: Tokenize, state: Tokens, p: Prepared)
    ensures Encoding(meta, tok, state, p).Ok? <==> exists e :: IsEncoding(meta, tok, state, p, e)
  {
    if Encoding(meta, tok, state, p).Ok? {
      EncodingIsRight(meta, tok, state, p);
    }
    if e :| IsEncoding(meta, tok, state, p, e) {
      WhatIsLaidOutEncodes(meta, tok, state, p, e);
    }
  }

  lemma WhatIsLaidOutEncodes(meta: Meta, tok: Tokenize, state: Tokens, p: Prepared, e: Encoded)
    requires IsEncoding(meta, tok, state, p, e)
    ensures Encoding(meta, tok, state, p).Ok?
  {
    var head, opts :| TokensOf(tok, p, head, opts) && LaidOut(meta, head, opts, state, e.ids, e.markers);
    AllTokenize(tok, p.options);
    assert TokenizedAll(tok, p.options).value == opts;
    AssembledIsLaidOut(meta, head, opts, state);
    LaidOutIsOne(meta, head, opts, state, e.ids, Ids(meta, head, opts, state), e.markers, Markers(meta, head, opts));
  }

  lemma AllTokenize(tok: Tokenize, texts: seq<string>)
    requires forall k :: 0 <= k < |texts| ==> tok(texts[k]).Ok?
    ensures TokenizedAll(tok, texts).Ok?
  {
  }

  // ---------- What a question is prepared as, spelled out ----------

  function Joined(parts: seq<string>, sep: string): string {
    if parts == [] then "" else if |parts| == 1 then parts[0] else parts[0] + sep + Joined(parts[1..], sep)
  }

  /** The parts between the occurrences, each found as early as it can be. */
  ghost predicate SplitAt(s: string, mask: string, parts: seq<string>) {
    && parts != [] && s == Joined(parts, mask)
    && forall k, i: nat :: 0 <= k < |parts| && i < |parts[k]| ==> !OccursAt(mask, Joined(parts[k..], mask), i)
  }

  /** Replacing splits the text at the mask, left to right, and joins the parts with spaces. */
  lemma {:induction false} ReplacedIsSplit(s: string, mask: string) returns (parts: seq<string>)
    requires mask != []
    ensures SplitAt(s, mask, parts) && Replace(s, mask) == Joined(parts, " ")
    decreases |s|
  {
    if mask <= s {
      var rest := ReplacedIsSplit(s[|mask|..], mask);
      parts := [""] + rest;
      SplitAfterMask(s, mask, rest);
    } else if s == [] {
      parts := [""];
    } else {
      var rest := ReplacedIsSplit(s[1..], mask);
      parts := [[s[0]] + rest[0]] + rest[1..];
      SplitAfterChar(s, mask, rest);
    }
  }

  lemma SplitAfterMask(s: string, mask: string, rest: seq<string>)
    requires mask <= s && SplitAt(s[|mask|..], mask, rest)
    ensures SplitAt(s, mask, [""] + rest) && Joined([""] + rest, " ") == " " + Joined(rest, " ")
  {
    var parts := [""] + rest;
    assert parts[1..] == rest;
    assert s == mask + s[|mask|..];
    forall k, i: nat | 0 <= k < |parts| && i < |parts[k]| ensures !OccursAt(mask, Joined(parts[k..], mask), i) {
      assert parts[k..] == rest[k - 1..] && parts[k] == rest[k - 1];
    }
  }

  lemma JoinedHead(c: char, parts: seq<string>, sep: string)
    requires parts != []
    ensures Joined([[c] + parts[0]] + parts[1..], sep) == [c] + Joined(parts, sep)
  {
    var more := [[c] + parts[0]] + parts[1..];
    assert more[1..] == parts[1..];
    if |parts| > 1 {
      assert [c] + parts[0] + sep + Joined(parts[1..], sep) == [c] + (parts[0] + sep + Joined(parts[1..], sep));
    }
  }

  lemma SplitAfterChar(s: string, mask: string, rest: seq<string>)
    requires s != [] && !(mask <= s) && SplitAt(s[1..], mask, rest)
    ensures SplitAt(s, mask, [[s[0]] + rest[0]] + rest[1..])
    ensures Joined([[s[0]] + rest[0]] + rest[1..], " ") == [s[0]] + Joined(rest, " ")
  {
    var parts := [[s[0]] + rest[0]] + rest[1..];
    JoinedHead(s[0], rest, mask);
    JoinedHead(s[0], rest, " ");
    assert s == [s[0]] + s[1..];
    forall k, i: nat | 0 <= k < |parts| && i < |parts[k]| ensures !OccursAt(mask, Joined(parts[k..], mask), i) {
      if k == 0 {
        assert parts[0..] == parts && s[0..] == s;
        if i > 0 {
          assert rest[0..] == rest && !OccursAt(mask, s[1..], i - 1);
          assert s[i..] == s[1..][i - 1..];
        }
      } else {
        assert parts[k..] == rest[k..] && parts[k] == rest[k];
      }
    }
  }

  /** A string stands for itself, anything else for its JSON text. */
  ghost predicate Reads(v: Value, ascii: bool, t: string)
    requires Finite(v)
  {
    if v.Str? then t == v.text else t == Text(v, ascii)
  }

  /** The names are those of the list, each once, in the order they first appear in it; none has a criterion. */
  ghost predicate FirstNames(items: seq<Value>, fields: seq<Field>) {
    && (forall k :: 0 <= k < |fields| ==> fields[k].value == Null && Str(fields[k].name) in items)
    && (forall t :: Str(t) in items ==> exists k :: 0 <= k < |fields| && fields[k].name == t)
    && (forall j, k :: 0 <= j < k < |fields| ==> AppearsBefore(items, fields[j].name, fields[k].name))
  }

  predicate AppearsBefore(items: seq<Value>, a: string, b: string) {
    exists i :: 0 <= i < |items| && items[i] == Str(a) && forall j :: 0 <= j <= i ==> items[j] != Str(b)
  }

  ghost predicate HasHead(q: Question, mask: string, name: string, p: Prepared)
    requires Finite(q.instructions)
  {
    exists t :: Reads(q.instructions, true, t) && p.head == name + " question: " + Replace(t, mask)
  }

  /** A choice: option k carries label k, and its criterion if there is one. */
  ghost predicate IsChoice(q: Question, mask: string, fields: seq<Field>, p: Prepared)
    requires Finite(q.instructions) && forall k :: 0 <= k < |fields| ==> Finite(fields[k].value)
  {
    && p.qtype == 0 && HasHead(q, mask, "choice", p) && p.legend == [] && |p.options| == |p.labels| == |fields|
    && forall k :: 0 <= k < |fields| ==>
         && p.labels[k] == fields[k].name
         && if fields[k].value == Null || fields[k].value == Str("") then p.options[k] == " " + Replace(fields[k].name, mask)
            else exists t :: Reads(fields[k].value, false, t) && p.options[k] == " " + Replace(fields[k].name + ": " + t, mask)
  }

  /** A score: option k is level k, counted from 0. */
  ghost predicate IsScore(q: Question, mask: string, levels: seq<Value>, p: Prepared)
    requires Finite(q.instructions) && forall k :: 0 <= k < |levels| ==> Finite(levels[k])
  {
    && p.qtype == 1 && HasHead(q, mask, "score", p) && p.labels == [] && p.legend == levels && |p.options| == |levels| <= 10
    && forall k :: 0 <= k < |levels| ==> IsLevel(levels[k], k, mask, p.options[k])
  }

  ghost predicate IsLevel(level: Value, k: nat, mask: string, option: string)
    requires Finite(level) && k < 10
  {
    exists t :: Reads(level, false, t) && option == " " + Replace("level " + [(('0' as int) + k) as char] + ": " + t, mask)
  }

  /** The criterion an object gives for a name, if it has one that is not blank. */
  predicate Gives(fields: seq<Field>, name: string, k: nat) {
    && k < |fields| && fields[k].name == name && fields[k].value != Null && fields[k].value != Str("")
  }

  ghost predicate IsSide(fields: seq<Field>, name: string, default: string, mask: string, option: string)
    requires forall k :: 0 <= k < |fields| ==> Finite(fields[k].value)
  {
    if exists k: nat :: Gives(fields, name, k) then
      exists k: nat, t :: Gives(fields, name, k) && Reads(fields[k].value, false, t) && option == " " + Replace(name + ": " + t, mask)
    else option == " " + Replace(name + ": " + default, mask)
  }

  /** A noul question: the side for "false" first, then the one for "true". */
  ghost predicate IsNoul(q: Question, mask: string, fields: seq<Field>, p: Prepared)
    requires Finite(q.instructions) && forall k :: 0 <= k < |fields| ==> Finite(fields[k].value)
  {
    && p.qtype == 2 && HasHead(q, mask, "noul", p) && p.labels == [] && p.legend == [] && |p.options| == 2
    && IsSide(fields, "false", "no, the statement does not hold", mask, p.options[0])
    && IsSide(fields, "true", "yes, the statement holds", mask, p.options[1])
  }

  ghost predicate IsChoiceOrCount(q: Question, mask: string, fields: seq<Field>, r: Result<Prepared, Problem>)
    requires Finite(q.instructions) && forall k :: 0 <= k < |fields| ==> Finite(fields[k].value)
  {
    if 2 <= |fields| <= 255 then r.Ok? && IsChoice(q, mask, fields, r.value) else r == Err(OptionCount(|fields|))
  }

  /** What comes of a question: its segments, or the reason it has none. */
  ghost predicate IsPreparation(q: Question, mask: string, r: Result<Prepared, Problem>)
    requires WellFormed(q)
  {
    if q.qtype == "choice" then
      match q.criteria
      case Some(Obj(fields)) => IsChoiceOrCount(q, mask, fields, r)
      case Some(Arr(items)) =>
        if exists k :: 0 <= k < |items| && !items[k].Str? then r == Err(ListHoldsNonString)
        else exists fields :: FirstNames(items, fields) && IsChoiceOrCount(q, mask, fields, r)
      case _ => r == Err(NotLabels)
    else if q.qtype == "score" then
      match q.criteria
      case Some(Arr(levels)) =>
        if 2 <= |levels| <= 10 then r.Ok? && IsScore(q, mask, levels, r.value) else r == Err(LevelCount(|levels|))
      case _ => r == Err(NotLevels)
    else if q.qtype == "noul" then
      match q.criteria
      case None => r.Ok? && IsNoul(q, mask, [], r.value)
      case Some(Obj(fields)) => r.Ok? && IsNoul(q, mask, fields, r.value)
      case Some(_) => r == Err(NotSides)
    else r == Err(UnknownType(q.qtype))
  }

  lemma {:induction false} DistinctAppear(names: seq<string>, j: nat, k: nat) returns (i: nat)
    requires j < k < |Distinct(names)|
    ensures i < |names| && names[i] == Distinct(names)[j] && forall a :: 0 <= a <= i ==> names[a] != Distinct(names)[k]
  {
    var n := |names| - 1;
    var init := names[..n];
    if k < |Distinct(init)| {
      i := DistinctAppear(init, j, k);
      assert forall a :: 0 <= a <= i ==> names[a] == init[a];
    } else {
      assert Distinct(init)[j] in init;
      i :| 0 <= i < n && init[i] == Distinct(init)[j];
      assert forall a :: 0 <= a < n ==> init[a] in init && init[a] == names[a];
    }
  }

  lemma BareNamesAreFirst(items: seq<Value>)
    requires forall k :: 0 <= k < |items| ==> items[k].Str?
    ensures FirstNames(items, Bare(Distinct(Names(items))))
  {
    var names, fields := Names(items), Bare(Distinct(Names(items)));
    assert forall k :: 0 <= k < |items| ==> items[k] == Str(names[k]);
    forall k | 0 <= k < |fields| ensures Str(fields[k].name) in items {
      assert Distinct(names)[k] in names;
      var i :| 0 <= i < |names| && names[i] == fields[k].name;
      assert items[i] == Str(names[i]);
    }
    forall t | Str(t) in items ensures exists k :: 0 <= k < |fields| && fields[k].name == t {
      var i :| 0 <= i < |items| && items[i] == Str(t);
      assert names[i] in Distinct(names);
      var k :| 0 <= k < |Distinct(names)| && Distinct(names)[k] == t;
      assert fields[k].name == t;
    }
    forall j, k | 0 <= j < k < |fields| ensures AppearsBefore(items, fields[j].name, fields[k].name) {
      var i := DistinctAppear(names, j, k);
      assert items[i] == Str(fields[j].name);
    }
  }

  lemma HeadIsRead(q: Question, mask: string, name: string, p: Prepared)
    requires Finite(q.instructions) && p.head == Head(name, q, mask)
    ensures HasHead(q, mask, name, p)
  {
    assert Reads(q.instructions, true, if q.instructions.Str? then q.instructions.text else Text(q.instructions, true));
  }

  lemma ChoiceIsRight(q: Question, mask: string, fields: seq<Field>)
    requires Finite(q.instructions) && forall k :: 0 <= k < |fields| ==> Finite(fields[k].value)
    ensures IsChoiceOrCount(q, mask, fields, PrepareChoice(q, mask, fields))
  {
    if 2 <= |fields| <= 255 {
      var p := PrepareChoice(q, mask, fields).value;
      HeadIsRead(q, mask, "choice", p);
      forall k | 0 <= k < |fields| && !Blank(fields[k].value)
        ensures exists t :: Reads(fields[k].value, false, t) && p.options[k] == " " + Replace(fields[k].name + ": " + t, mask)
      {
        assert Reads(fields[k].value, false, Render(fields[k].value));
        assert p.options[k] == " " + Replace(fields[k].name + ": " + Render(fields[k].value), mask);
      }
    }
  }

  lemma ScoreIsRight(q: Question, mask: string, levels: seq<Value>)
    requires Finite(q.instructions) && forall k :: 0 <= k < |levels| ==> Finite(levels[k])
    ensures var r := PrepareScore(q, mask, levels);
            if 2 <= |levels| <= 10 then r.Ok? && IsScore(q, mask, levels, r.value) else r == Err(LevelCount(|levels|))
  {
    if 2 <= |levels| <= 10 {
      var p := PrepareScore(q, mask, levels).value;
      HeadIsRead(q, mask, "score", p);
      forall k | 0 <= k < |levels| ensures IsLevel(levels[k], k, mask, p.options[k]) {
        assert Reads(levels[k], false, Render(levels[k])) && NatText(k) == [(('0' as int) + k) as char];
        assert p.options[k] == " " + Replace(LevelText(k, levels[k]), mask);
      }
    }
  }

  lemma {:induction false} LookupFinds(fields: seq<Field>, name: string)
    requires Labelled(fields) && forall k :: 0 <= k < |fields| ==> Finite(fields[k].value)
    ensures forall k :: 0 <= k < |fields| && fields[k].name == name ==> Lookup(fields, name) == fields[k].value
    ensures (forall k :: 0 <= k < |fields| ==> fields[k].name != name) ==> Lookup(fields, name) == Null
  {
    if fields != [] {
      var rest := fields[1..];
      assert forall k :: 0 < k < |fields| ==> fields[k] == rest[k - 1];
      LookupFinds(rest, name);
    }
  }

  lemma SideIsRight(fields: seq<Field>, name: string, default: string, mask: string)
    requires Labelled(fields) && forall k :: 0 <= k < |fields| ==> Finite(fields[k].value)
    ensures IsSide(fields, name, default, mask, " " + Replace(SideText(fields, name, default), mask))
  {
    LookupFinds(fields, name);
    var v := Lookup(fields, name);
    if k: nat :| Gives(fields, name, k) {
      assert Reads(fields[k].value, false, Render(v));
    } else if k: nat :| k < |fields| && fields[k].name == name {
      assert !Gives(fields, name, k);
    }
  }

  lemma NoulIsRight(q: Question, mask: string, fields: seq<Field>)
    requires Finite(q.instructions) && Labelled(fields) && forall k :: 0 <= k < |fields| ==> Finite(fields[k].value)
    ensures var r := PrepareNoul(q, mask, fields); r.Ok? && IsNoul(q, mask, fields, r.value)
  {
    var p := PrepareNoul(q, mask, fields).value;
    HeadIsRead(q, mask, "noul", p);
    SideIsRight(fields, "false", "no, the statement does not hold", mask);
    SideIsRight(fields, "true", "yes, the statement holds", mask);
  }

  /** Every question is prepared, or refused, as spelled out. */
  lemma PreparationIsRight(q: Question, mask: string)
    requires WellFormed(q)
    ensures IsPreparation(q, mask, Preparation(q, mask))
  {
    if q.qtype == "choice" {
      PairsAreFinite(q.criteria);
      match q.criteria {
        case Some(Obj(fields)) => ChoiceIsRight(q, mask, fields);
        case Some(Arr(items)) =>
          if forall k :: 0 <= k < |items| ==> items[k].Str? {
            BareNamesAreFirst(items);
            ChoiceIsRight(q, mask, Bare(Distinct(Names(items))));
          }
        case _ =>
      }
    } else if q.qtype == "score" {
      match q.criteria {
        case Some(Arr(levels)) => ScoreIsRight(q, mask, levels);
        case _ =>
      }
    } else if q.qtype == "noul" {
      match q.criteria {
        case None => NoulIsRight(q, mask, []);
        case Some(Obj(fields)) => NoulIsRight(q, mask, fields);
        case Some(_) =>
      }
    }
  }
}
