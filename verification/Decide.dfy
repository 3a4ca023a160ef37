/** One request: which questions are computed, and how the answers find their way back. */
module Decide {
  import opened Types
  import Cache
  import opened PyJson
  import opened Sequence
  import opened Questions
  import opened Prefix
  import Padding
  import Scheduler = SchedulerModel
  import RunJobs

  type Job = Scheduler.Job

  /** A loaded model. The fingerprint covers the weights, the tokenizer and the limits. */
  datatype Model = Model(fingerprint: seq<Byte>, meta: Meta, tok: Tokenize, tool: Tool, net: Padding.Network)

  datatype Site = Site(models: seq<Model>, hash: seq<Byte> -> Key, utf8: string -> seq<Byte>)

  /** A validated state with the model it is routed to, its text segment and its prepared questions. */
  datatype Item = Item(model: nat, seg: string, questions: seq<(string, Prepared)>)

  /** One question of a request. */
  datatype Q = Q(item: nat, qid: string, prep: Prepared, key: Key)

  datatype Refusal = Deadline | Overloaded | Internal(msg: string) | Invalid(problem: Problem)

  // ---------- Keys and encodings ----------

  function SegmentBytes(site: Site, seg: string, p: Prepared): (r: seq<seq<Byte>>)
    ensures |r| == |p.options| + 2
  {
    var texts := [seg, p.head] + p.options;
    seq(|texts|, i requires 0 <= i < |texts| => site.utf8(texts[i]))
  }

  function KeyFor(site: Site, m: nat, seg: string, p: Prepared): Key
    requires m < |site.models|
  {
    site.hash(Cache.Frame(site.models[m].fingerprint, p.qtype % 256, SegmentBytes(site, seg, p)))
  }

  /** The question's tokens, with only as much of the state tokenized as can show. */
  function EncodingFor(site: Site, m: nat, seg: string, p: Prepared): Result<Encoded, Refusal>
    requires m < |site.models|
  {
    var model := site.models[m];
    match Leading(model.tool, site.utf8(seg), model.meta.maxLen)
    case Err(e) => Err(Internal(e))
    case Ok(state) =>
      match Encoding(model.meta, model.tok, state, p)
      case Err(e) => Err(Invalid(e))
      case Ok(enc) => Ok(enc)
  }

  // ---------- What a question's tokens are ----------

  /**
   * `full` are the tokens of the whole state text, for a tokenizer that looks no further than the margin past a
   * word's end and accepts the text and every beginning of it.
   */
  ghost predicate WholeTokens(site: Site, m: nat, seg: string, full: Tokens) {
    && m < |site.models|
    && var tool, text := site.models[m].tool, site.utf8(seg);
       && Sane(tool, text) && Local(tool) && (forall cut: nat :: cut <= |text| ==> tool.encode(text[..cut]).Ok?)
       && tool.encode(text).Ok? && |full| == |tool.encode(text).value|
       && forall i :: 0 <= i < |full| ==> full[i] == tool.encode(text).value[i].id
  }

  /** The question's tokens over the whole state: what would come of tokenizing all of it. */
  ghost predicate LaidOver(site: Site, m: nat, seg: string, p: Prepared, e: Encoded) {
    && m < |site.models|
    && forall full: Tokens :: WholeTokens(site, m, seg, full) ==> IsEncoding(site.models[m].meta, site.models[m].tok, full, p, e)
  }

  /** The tokenizer refused the state or a beginning of it, or the question itself is refused. */
  ghost predicate Blamed(site: Site, m: nat, seg: string, p: Prepared, e: Refusal) {
    && m < |site.models|
    && match e
       case Internal(msg) =>
         exists cut: nat :: cut <= |site.utf8(seg)| && site.models[m].tool.encode(site.utf8(seg)[..cut]) == Err(msg)
       case Invalid(problem) => IsRefused(site.models[m].meta, site.models[m].tok, p, problem)
       case _ => false
  }

  lemma WholeIsFull(site: Site, m: nat, seg: string, full: Tokens)
    requires WholeTokens(site, m, seg, full)
    ensures Full(site.models[m].tool, site.utf8(seg)) == Ok(full)
    ensures Leading(site.models[m].tool, site.utf8(seg), site.models[m].meta.maxLen).Ok?
  {
    var tool, text := site.models[m].tool, site.utf8(seg);
    assert IdsOf(tool.encode(text).value) == full;
  }

  /** Tokenizing only what can show gives the tokens of the whole state, and nothing else does. */
  lemma EncodingIsWhole(site: Site, m: nat, seg: string, p: Prepared, full: Tokens, e: Encoded)
    requires WholeTokens(site, m, seg, full)
    ensures EncodingFor(site, m, seg, p) == Ok(e) <==> IsEncoding(site.models[m].meta, site.models[m].tok, full, p, e)
  {
    var model, text := site.models[m], site.utf8(seg);
    WholeIsFull(site, m, seg, full);
    SameQuestionEitherWay(model.tool, text, model.meta, model.tok, p);
    EncodingIsRight(model.meta, model.tok, full, p);
    if IsEncoding(model.meta, model.tok, full, p, e) {
      EncodesIff(model.meta, model.tok, full, p);
      EncodingIsOne(model.meta, model.tok, full, p, e, Encoding(model.meta, model.tok, full, p).value);
    }
  }

  lemma JobIsLaidOver(site: Site, m: nat, seg: string, p: Prepared, e: Encoded)
    requires m < |site.models| && EncodingFor(site, m, seg, p) == Ok(e)
    ensures LaidOver(site, m, seg, p, e)
  {
    forall full: Tokens | WholeTokens(site, m, seg, full) ensures IsEncoding(site.models[m].meta, site.models[m].tok, full, p, e) {
      EncodingIsWhole(site, m, seg, p, full, e);
    }
  }

  lemma ErrorIsBlamed(site: Site, m: nat, seg: string, p: Prepared, e: Refusal)
    requires m < |site.models| && EncodingFor(site, m, seg, p) == Err(e)
    ensures Blamed(site, m, seg, p, e)
  {
    var model, text := site.models[m], site.utf8(seg);
    var state := Leading(model.tool, text, model.meta.maxLen);
    assert text[..|text|] == text;
    if state.Ok? {
      EncodingIsRight(model.meta, model.tok, state.value, p);
    }
  }

  /** The hash is taken as free of collisions, and fingerprints identify models. */
  ghost predicate SiteOk(site: Site) {
    && Cache.CollisionFree(site.hash)
    && (forall t, u :: site.utf8(t) == site.utf8(u) ==> t == u)
    && (forall m :: 0 <= m < |site.models| ==> |site.models[m].fingerprint| == 32)
    && (forall m, n :: 0 <= m < |site.models| && 0 <= n < |site.models| ==>
          site.models[m].fingerprint == site.models[n].fingerprint ==> site.models[m] == site.models[n])
  }

  /** The texts of a question are shorter than 2^64 bytes. */
  ghost predicate Sized(site: Site, seg: string, p: Prepared) {
    Cache.Short(SegmentBytes(site, seg, p))
  }

  /** A question's key hashes the model's fingerprint, the type, and the state, the head and the options in UTF-8. */
  lemma KeyIsSpelled(site: Site, m: nat, seg: string, p: Prepared) returns (f: seq<Byte>, segments: seq<seq<Byte>>)
    requires m < |site.models| && p.qtype < 3
    ensures KeyFor(site, m, seg, p) == site.hash(f) && Cache.IsFrame(f, site.models[m].fingerprint, p.qtype, segments)
    ensures |segments| == 2 + |p.options| && segments[0] == site.utf8(seg) && segments[1] == site.utf8(p.head)
    ensures forall k :: 0 <= k < |p.options| ==> segments[2 + k] == site.utf8(p.options[k])
  {
    segments := SegmentBytes(site, seg, p);
    SegmentsAreSpelled(site, seg, p);
    var qtype: Byte := p.qtype % 256;
    assert qtype == p.qtype;
    f := Cache.Frame(site.models[m].fingerprint, qtype, segments);
    assert KeyFor(site, m, seg, p) == site.hash(f);
    Cache.FrameIsSpelled(site.models[m].fingerprint, qtype, segments);
  }

  lemma SegmentsAreSpelled(site: Site, seg: string, p: Prepared)
    ensures var segments := SegmentBytes(site, seg, p);
            && segments[0] == site.utf8(seg) && segments[1] == site.utf8(p.head)
            && forall k :: 0 <= k < |p.options| ==> segments[2 + k] == site.utf8(p.options[k])
  {
  }

  /** Equal keys mean equal questions: type, state, head, options and model. Only labels and legend may differ. */
  lemma SameKeySameQuestion(site: Site, m: nat, n: nat, seg: string, seg': string, p: Prepared, p': Prepared)
    requires SiteOk(site) && m < |site.models| && n < |site.models| && p.qtype < 3 && p'.qtype < 3
    requires Sized(site, seg, p) && Sized(site, seg', p')
    requires KeyFor(site, m, seg, p) == KeyFor(site, n, seg', p')
    ensures site.models[m] == site.models[n] && p.qtype == p'.qtype && seg == seg' && p.head == p'.head && p.options == p'.options
  {
    var a, b := SegmentBytes(site, seg, p), SegmentBytes(site, seg', p');
    Cache.KeysTellApart(site.hash, site.models[m].fingerprint, site.models[n].fingerprint, p.qtype % 256, p'.qtype % 256, a, b);
    var t, u := [seg, p.head] + p.options, [seg', p'.head] + p'.options;
    assert forall i :: 0 <= i < |t| ==> a[i] == site.utf8(t[i]);
    assert forall i :: 0 <= i < |u| ==> b[i] == site.utf8(u[i]);
    assert forall i :: 0 <= i < |t| ==> t[i] == u[i];
    assert t == u;
    assert t[0] == u[0] && t[1] == u[1] && t[2..] == u[2..];
  }

  lemma SameKeySameEncoding(site: Site, m: nat, n: nat, seg: string, seg': string, p: Prepared, p': Prepared)
    requires SiteOk(site) && m < |site.models| && n < |site.models| && p.qtype < 3 && p'.qtype < 3
    requires Sized(site, seg, p) && Sized(site, seg', p')
    requires KeyFor(site, m, seg, p) == KeyFor(site, n, seg', p')
    ensures EncodingFor(site, m, seg, p) == EncodingFor(site, n, seg', p')
  {
    SameKeySameQuestion(site, m, n, seg, seg', p, p');
    if Leading(site.models[m].tool, site.utf8(seg), site.models[m].meta.maxLen).Ok? {
      var state := Leading(site.models[m].tool, site.utf8(seg), site.models[m].meta.maxLen).value;
      assert Encoding(site.models[m].meta, site.models[m].tok, state, p) == Encoding(site.models[m].meta, site.models[m].tok, state, p');
    }
  }

  /** `k` is the key of a question that encodes as `e`. */
  ghost predicate Encodes(site: Site, k: Key, e: Encoded) {
    exists m: nat, seg, p :: EncodesAs(site, m, seg, p, k, e)
  }

  ghost predicate EncodesAs(site: Site, m: nat, seg: string, p: Prepared, k: Key, e: Encoded) {
    m < |site.models| && p.qtype < 3 && Sized(site, seg, p) && KeyFor(site, m, seg, p) == k && EncodingFor(site, m, seg, p) == Ok(e)
  }

  /** A key determines the tokens: over all requests the site ever sees, one function gives them. */
  lemma KeysDetermineEncodings(site: Site, k: Key, e: Encoded, e': Encoded)
    requires SiteOk(site) && Encodes(site, k, e) && Encodes(site, k, e')
    ensures e == e'
  {
    var m: nat, seg, p :| EncodesAs(site, m, seg, p, k, e);
    var n: nat, seg', p' :| EncodesAs(site, n, seg', p', k, e');
    SameKeySameEncoding(site, m, n, seg, seg', p, p');
  }

  /** Bytes spell the mask only where the text does, as they do in UTF-8. */
  ghost predicate SpellsAlike(utf8: string -> seq<Byte>, mask: string) {
    forall t: string :: Holds(utf8(t), utf8(mask)) ==> Occurs(mask, t)
  }

  /**
   * From client text to the tokens of a job, with only as much of the state tokenized as can show: the mask tokens
   * are exactly those at the markers.
   */
  lemma OnlyMarkersAreMasksInJobs(site: Site, m: nat, state: Value, q: Question, mask: string, i: nat)
    requires m < |site.models| && WellFormed(q) && Preparation(q, mask).Ok? && Finite(state)
    requires mask != [] && ' ' !in mask && !Occurs(mask, q.qtype + " question:") && SpellsAlike(site.utf8, mask)
    requires var model := site.models[m];
             && SpelledOut(model.tok, model.meta, mask) && SpellsMask(model.tool, model.meta, site.utf8(mask))
             && model.meta.cls != model.meta.mask && model.meta.sep != model.meta.mask
    requires var r := EncodingFor(site, m, StateSegment(state, mask), Preparation(q, mask).value);
             r.Ok? && i < |r.value.ids|
    ensures var e := EncodingFor(site, m, StateSegment(state, mask), Preparation(q, mask).value).value;
            e.ids[i] == site.models[m].meta.mask <==> i in e.markers
  {
    var model, text := site.models[m], site.utf8(StateSegment(state, mask));
    ReplacedHoldsNoMask(Render(state), mask);
    LeadingHoldsNoMask(model.tool, text, model.meta.maxLen, model.meta, site.utf8(mask));
    OnlyMarkersInQuestion(model.meta, model.tok, Leading(model.tool, text, model.meta.maxLen).value, q, mask, i);
  }

  // ---------- The questions ----------

  function ItemQs(site: Site, i: nat, it: Item): (r: seq<Q>)
    requires it.model < |site.models|
    ensures |r| == |it.questions|
  {
    seq(|it.questions|, n requires 0 <= n < |it.questions| =>
      Q(i, it.questions[n].0, it.questions[n].1, KeyFor(site, it.model, it.seg, it.questions[n].1)))
  }

  ghost predicate ItemsOk(site: Site, items: seq<Item>) {
    forall i :: 0 <= i < |items| ==> items[i].model < |site.models| && QuestionsOk(site, items[i])
  }

  ghost predicate QuestionsOk(site: Site, it: Item) {
    forall n :: 0 <= n < |it.questions| ==> it.questions[n].1.qtype < 3 && Sized(site, it.seg, it.questions[n].1)
  }

  /** The questions of the first `n` items, in order. */
  ghost function QsOf(site: Site, items: seq<Item>, n: nat): seq<Q>
    requires ItemsOk(site, items) && n <= |items|
  {
    if n == 0 then [] else QsOf(site, items, n - 1) + ItemQs(site, n - 1, items[n - 1])
  }

  /** These are all questions of the request. */
  ghost predicate AreQs(site: Site, items: seq<Item>, qs: seq<Q>) {
    ItemsOk(site, items) && qs == QsOf(site, items, |items|)
  }

  /** Each question carries its item's number and its own key. */
  ghost predicate Labelled(site: Site, items: seq<Item>, qs: seq<Q>) {
    forall q :: q in qs ==> IsLabelled(site, items, q)
  }

  ghost predicate IsLabelled(site: Site, items: seq<Item>, q: Q) {
    && q.item < |items| && items[q.item].model < |site.models| && q.prep.qtype < 3 && Sized(site, items[q.item].seg, q.prep)
    && q.key == KeyFor(site, items[q.item].model, items[q.item].seg, q.prep)
  }

  lemma {:induction false} QsAreLabelled(site: Site, items: seq<Item>, n: nat)
    requires ItemsOk(site, items) && n <= |items|
    ensures Labelled(site, items, QsOf(site, items, n))
  {
    if n > 0 {
      QsAreLabelled(site, items, n - 1);
    }
  }

  method CollectQs(site: Site, items: seq<Item>) returns (qs: seq<Q>)
    requires ItemsOk(site, items)
    ensures AreQs(site, items, qs)
  {
    qs := [];
    for i := 0 to |items|
      invariant qs == QsOf(site, items, i)
    {
      var it := items[i];
      for n := 0 to |it.questions|
        invariant qs == QsOf(site, items, i) + ItemQs(site, i, it)[..n]
      {
        var (qid, prep) := it.questions[n];
        qs := qs + [Q(i, qid, prep, KeyFor(site, it.model, it.seg, prep))];
      }
    }
  }

  // ---------- Cache hits ----------

  type Raws = map<Key, (Raw, bool)>

  /** A hit has as many logits as its question has options. */
  predicate HitsFit(qs: seq<Q>, hits: seq<Option<Raw>>) {
    |hits| == |qs| && forall n :: 0 <= n < |qs| && hits[n].Some? ==> |hits[n].value.logits| == |qs[n].prep.options|
  }

  /** Every answer belongs to a question of the request, and has a logit for each of its options. */
  ghost predicate Fit(site: Site, qs: seq<Q>, raws: Raws) {
    forall k :: k in raws ==> FitsKey(qs, k, raws[k].0)
  }

  ghost predicate FitsKey(qs: seq<Q>, k: Key, raw: Raw) {
    exists q :: q in qs && q.key == k && |raw.logits| == |q.prep.options|
  }

  ghost predicate Good(raws: Raws, good: (Key, Raw) -> bool) {
    forall k :: k in raws ==> good(k, raws[k].0)
  }

  /** What the n-th lookup meets: the first tier as it is at that moment, and what the second would answer. */
  type Look = (nat, Q) -> (map<Key, Raw>, Option<Raw>)

  ghost predicate LooksAreGood(look: Look, good: (Key, Raw) -> bool) {
    && (forall n, q :: Cache.AllGood(look(n, q).0, good))
    && (forall n, q :: look(n, q).1.Some? ==> good(q.key, look(n, q).1.value))
  }

  /** One of the tiers has an output of the question's own length under its key. */
  predicate IsHit(look: Look, n: nat, q: Q) {
    var (l1, l2) := look(n, q);
    (q.key in l1 && |l1[q.key].logits| == |q.prep.options|) || (l2.Some? && |l2.value.logits| == |q.prep.options|)
  }

  /** What a lookup finds: the first tier's output if it has the length, else the second's if that has, else nothing. */
  predicate FindsIn(look: Look, n: nat, q: Q, hit: Option<Raw>) {
    var (l1, l2) := look(n, q);
    if q.key in l1 && |l1[q.key].logits| == |q.prep.options| then hit == Some(l1[q.key])
    else if l2.Some? && |l2.value.logits| == |q.prep.options| then hit == l2
    else hit == None
  }

  function HitOf(look: Look, n: nat, q: Q): Option<Raw> {
    var (l1, l2) := look(n, q);
    match Cache.Found(l1, q.key, |q.prep.options|, l2).0
    case None => None
    case Some((raw, _)) => Some(raw)
  }

  /** Some lookup for this key was a hit. */
  predicate Hit(qs: seq<Q>, look: Look, k: Key) {
    exists n :: 0 <= n < |qs| && qs[n].key == k && IsHit(look, n, qs[n])
  }

  /** Every question is looked up, asking for as many logits as it has options. */
  method LookUp(qs: seq<Q>, look: Look, ghost good: (Key, Raw) -> bool) returns (hits: seq<Option<Raw>>)
    requires LooksAreGood(look, good)
    ensures HitsFit(qs, hits) && forall n :: 0 <= n < |qs| ==> hits[n] == HitOf(look, n, qs[n]) && FindsIn(look, n, qs[n], hits[n])
    ensures forall n :: 0 <= n < |qs| && hits[n].Some? ==> good(qs[n].key, hits[n].value)
  {
    hits := [];
    for n := 0 to |qs|
      invariant |hits| == n && forall i :: 0 <= i < n ==> hits[i] == HitOf(look, i, qs[i])
    {
      hits := hits + [HitOf(look, n, qs[n])];
    }
    forall n | 0 <= n < |qs| && hits[n].Some?
      ensures |hits[n].value.logits| == |qs[n].prep.options| && good(qs[n].key, hits[n].value)
    {
      var (l1, l2) := look(n, qs[n]);
      Cache.LookupsAreGood(l1, good, qs[n].key, |qs[n].prep.options|, l2);
    }
  }

  method TakeHits(site: Site, qs: seq<Q>, hits: seq<Option<Raw>>, ghost good: (Key, Raw) -> bool) returns (raws: Raws)
    requires HitsFit(qs, hits) && forall n :: 0 <= n < |qs| && hits[n].Some? ==> good(qs[n].key, hits[n].value)
    ensures Fit(site, qs, raws) && Good(raws, good)
    ensures forall k :: k in raws <==> exists n :: 0 <= n < |qs| && hits[n].Some? && qs[n].key == k
    ensures forall k :: k in raws ==> raws[k].1
  {
    raws := map[];
    for i := 0 to |qs|
      invariant Fit(site, qs, raws) && Good(raws, good)
      invariant forall k :: k in raws <==> exists n :: 0 <= n < i && hits[n].Some? && qs[n].key == k
      invariant forall k :: k in raws ==> raws[k].1
    {
      if hits[i].Some? {
        assert FitsKey(qs, qs[i].key, hits[i].value) by {
          assert qs[i] in qs;
        }
        raws := raws[qs[i].key := (hits[i].value, true)];
      }
    }
  }

  // ---------- Jobs for the misses ----------

  /** What stands in the way of tokenizing item `i`: the deadline, or a full queue. */
  type Gate = nat -> Option<Refusal>

  /** The n-th question is the first to ask for its key, and the key is not known yet. */
  predicate Due(qs: seq<Q>, known: set<Key>, n: nat) {
    n < |qs| && qs[n].key !in known && forall a :: 0 <= a < n ==> qs[a].key != qs[n].key
  }

  /** Nothing stands in the way of the question's item, and the question encodes. */
  ghost predicate Passes(site: Site, items: seq<Item>, gate: Gate, q: Q) {
    && IsLabelled(site, items, q) && gate(q.item).None?
    && EncodingFor(site, items[q.item].model, items[q.item].seg, q.prep).Ok?
  }

  ghost predicate AllPass(site: Site, items: seq<Item>, qs: seq<Q>, known: set<Key>, gate: Gate) {
    forall n: nat :: Due(qs, known, n) ==> Passes(site, items, gate, qs[n])
  }

  /** The n-th question is refused, its item's gate asked first, and it is the first due one that is. */
  ghost predicate Refuses(site: Site, items: seq<Item>, qs: seq<Q>, known: set<Key>, gate: Gate, n: nat, e: Refusal) {
    && Due(qs, known, n) && IsLabelled(site, items, qs[n])
    && (if gate(qs[n].item).Some? then gate(qs[n].item).value == e
        else EncodingFor(site, items[qs[n].item].model, items[qs[n].item].seg, qs[n].prep) == Err(e)
             && Blamed(site, items[qs[n].item].model, items[qs[n].item].seg, qs[n].prep, e))
    && forall a: nat :: a < n && Due(qs, known, a) ==> Passes(site, items, gate, qs[a])
  }

  ghost predicate JobFor(site: Site, items: seq<Item>, qs: seq<Q>, known: set<Key>, job: Job) {
    exists n: nat :: Due(qs, known, n) && JobFrom(site, items, qs[n], job)
  }

  ghost predicate JobFrom(site: Site, items: seq<Item>, q: Q, job: Job) {
    && q.key == job.key && IsLabelled(site, items, q) && job.model == items[q.item].model
    && EncodingFor(site, job.model, items[q.item].seg, q.prep) == Ok(job.enc)
    && LaidOver(site, job.model, items[q.item].seg, q.prep, job.enc)
  }

  ghost predicate JobsOk(site: Site, items: seq<Item>, qs: seq<Q>, known: set<Key>, jobs: seq<Job>) {
    Scheduler.UniqueKeys(jobs) && forall j :: j in jobs ==> JobFor(site, items, qs, known, j)
  }

  /** What the request owes to its clients: one job for each due question, and no other. */
  ghost predicate Owes(site: Site, items: seq<Item>, qs: seq<Q>, known: set<Key>, todo: map<Key, Job>) {
    && (forall n: nat :: Due(qs, known, n) ==> qs[n].key in todo && JobFrom(site, items, qs[n], todo[qs[n].key]))
    && (forall k :: k in todo ==> exists n: nat :: Due(qs, known, n) && qs[n].key == k)
  }

  /** There is one way to owe. */
  lemma OwedIsOne(site: Site, items: seq<Item>, qs: seq<Q>, known: set<Key>, a: map<Key, Job>, b: map<Key, Job>)
    requires Owes(site, items, qs, known, a) && Owes(site, items, qs, known, b)
    ensures a == b
  {
    forall k | k in a ensures k in b && a[k] == b[k] {
      OwedAlike(site, items, qs, known, a, b, k);
    }
    forall k | k in b ensures k in a {
      OwedAlike(site, items, qs, known, b, a, k);
    }
    SameMap(a, b);
  }

  lemma SameMap(a: map<Key, Job>, b: map<Key, Job>)
    requires (forall k :: k in a ==> k in b && a[k] == b[k]) && forall k :: k in b ==> k in a
    ensures a == b
  {
  }

  lemma OwedAlike(site: Site, items: seq<Item>, qs: seq<Q>, known: set<Key>, a: map<Key, Job>, b: map<Key, Job>, k: Key)
    requires Owes(site, items, qs, known, a) && Owes(site, items, qs, known, b) && k in a
    ensures k in b && a[k] == b[k]
  {
    var n: nat :| Due(qs, known, n) && qs[n].key == k;
    JobsAlike(site, items, qs[n], a[k], b[k]);
  }

  lemma JobsAlike(site: Site, items: seq<Item>, q: Q, a: Job, b: Job)
    requires JobFrom(site, items, q, a) && JobFrom(site, items, q, b)
    ensures a == b
  {
  }

  /** If all pass, there is something that is owed. */
  lemma OwedExists(site: Site, items: seq<Item>, qs: seq<Q>, known: set<Key>, gate: Gate)
    requires AllPass(site, items, qs, known, gate)
    ensures exists todo :: Owes(site, items, qs, known, todo)
  {
    var keys := set n | 0 <= n < |qs| && Due(qs, known, n) :: qs[n].key;
    var todo := map k | k in keys :: JobAt(site, items, qs, known, gate, k);
    forall n: nat | Due(qs, known, n) ensures qs[n].key in todo && JobFrom(site, items, qs[n], todo[qs[n].key]) {
      assert qs[n].key in keys;
      DueJob(site, items, qs, known, gate, n);
    }
    assert Owes(site, items, qs, known, todo);
  }

  /** The job for the due question that asks for `k`. */
  ghost function JobAt(site: Site, items: seq<Item>, qs: seq<Q>, known: set<Key>, gate: Gate, k: Key): Job
    requires AllPass(site, items, qs, known, gate) && exists n: nat :: Due(qs, known, n) && qs[n].key == k
  {
    var n: nat :| Due(qs, known, n) && qs[n].key == k;
    JobOf(site, items, gate, qs[n])
  }

  lemma DueJob(site: Site, items: seq<Item>, qs: seq<Q>, known: set<Key>, gate: Gate, n: nat)
    requires AllPass(site, items, qs, known, gate) && Due(qs, known, n)
    ensures JobAt(site, items, qs, known, gate, qs[n].key) == JobOf(site, items, gate, qs[n])
  {
    forall d: nat | Due(qs, known, d) && qs[d].key == qs[n].key ensures d == n {
      assert d < n || n < d || d == n;
    }
  }

  ghost function JobOf(site: Site, items: seq<Item>, gate: Gate, q: Q): (job: Job)
    requires Passes(site, items, gate, q)
    ensures JobFrom(site, items, q, job)
  {
    var m := items[q.item].model;
    JobIsLaidOver(site, m, items[q.item].seg, q.prep, EncodingFor(site, m, items[q.item].seg, q.prep).value);
    Scheduler.Job(q.key, m, EncodingFor(site, m, items[q.item].seg, q.prep).value)
  }

  /** The questions come item by item. */
  predicate Ordered(qs: seq<Q>) {
    forall a, b :: 0 <= a < b < |qs| ==> qs[a].item <= qs[b].item
  }

  lemma {:induction false} QsAreOrdered(site: Site, items: seq<Item>, n: nat)
    requires ItemsOk(site, items) && n <= |items|
    ensures Ordered(QsOf(site, items, n)) && forall q :: q in QsOf(site, items, n) ==> q.item < n
  {
    if n > 0 {
      QsAreOrdered(site, items, n - 1);
    }
  }

  /** Unknown keys of earlier items, and of item `i` among the first `n` questions. */
  function SeenKeys(qs: seq<Q>, known: set<Key>, i: nat, n: nat): set<Key> {
    set a | 0 <= a < |qs| && qs[a].key !in known && (qs[a].item < i || (qs[a].item == i && a < n)) :: qs[a].key
  }

  /** What has been seen tells which questions are due. */
  lemma DueIff(qs: seq<Q>, known: set<Key>, n: nat)
    requires Ordered(qs) && n < |qs|
    ensures Due(qs, known, n) <==> qs[n].key !in known && qs[n].key !in SeenKeys(qs, known, qs[n].item, n)
  {
    if qs[n].key in SeenKeys(qs, known, qs[n].item, n) {
      var a :| 0 <= a < |qs| && qs[a].key == qs[n].key && (qs[a].item < qs[n].item || (qs[a].item == qs[n].item && a < n));
      assert a < n;
    } else if qs[n].key !in known {
      forall a | 0 <= a < n ensures qs[a].key != qs[n].key {
        assert qs[a].item <= qs[n].item;
      }
    }
  }

  lemma SeenNext(qs: seq<Q>, known: set<Key>, i: nat, n: nat)
    requires n < |qs|
    ensures SeenKeys(qs, known, i, n + 1)
         == SeenKeys(qs, known, i, n) + if qs[n].item == i && qs[n].key !in known then {qs[n].key} else {}
  {
  }

  lemma SeenItem(qs: seq<Q>, known: set<Key>, i: nat)
    ensures SeenKeys(qs, known, i, |qs|) == SeenKeys(qs, known, i + 1, 0)
  {
  }

  function KeysOf(jobs: seq<Job>): set<Key> {
    set j | j in jobs :: j.key
  }

  function QKeys(qs: seq<Q>): set<Key> {
    set q | q in qs :: q.key
  }

  predicate OnceEach(qs: seq<Q>) {
    forall a, b :: 0 <= a < b < |qs| ==> qs[a].key != qs[b].key
  }

  lemma NextIsNew(qs: seq<Q>, n: nat)
    requires OnceEach(qs) && n < |qs|
    ensures qs[n].key !in QKeys(qs[..n])
  {
  }

  /** The questions are the due ones of item `i` before the n-th, in order. */
  predicate DueOf(qs: seq<Q>, known: set<Key>, i: nat, n: nat, missing: seq<Q>, at: seq<nat>) {
    && |at| == |missing| && (forall a, b :: 0 <= a < b < |at| ==> at[a] < at[b])
    && (forall a :: 0 <= a < |at| ==> at[a] < n && Due(qs, known, at[a]) && missing[a] == qs[at[a]] && missing[a].item == i)
    && (forall d: nat :: d < n && Due(qs, known, d) && qs[d].item == i ==> d in at)
  }

  /** The questions of item `i` that are neither answered nor seen; each key once. */
  method Missing(qs: seq<Q>, raws: Raws, i: nat, seen: set<Key>) returns (missing: seq<Q>, seen': set<Key>, ghost at: seq<nat>)
    requires Ordered(qs) && seen == SeenKeys(qs, raws.Keys, i, 0)
    ensures DueOf(qs, raws.Keys, i, |qs|, missing, at)
    ensures forall q :: q in missing ==> q.key !in seen
    ensures seen' == SeenKeys(qs, raws.Keys, i + 1, 0) == seen + QKeys(missing)
  {
    missing, seen', at := [], seen, [];
    for n := 0 to |qs|
      invariant DueOf(qs, raws.Keys, i, n, missing, at)
      invariant seen' == SeenKeys(qs, raws.Keys, i, n) == seen + QKeys(missing)
    {
      NextDue(qs, raws.Keys, i, n, missing, at);
      if qs[n].item == i && qs[n].key !in raws && qs[n].key !in seen' {
        QKeysAppend(missing, qs[n]);
        missing, seen', at := missing + [qs[n]], seen' + {qs[n].key}, at + [n];
      }
    }
    SeenItem(qs, raws.Keys, i);
    DueIsUnseen(qs, raws.Keys, i, missing, at);
  }

  lemma DueIsUnseen(qs: seq<Q>, known: set<Key>, i: nat, missing: seq<Q>, at: seq<nat>)
    requires Ordered(qs) && DueOf(qs, known, i, |qs|, missing, at)
    ensures forall q :: q in missing ==> q.key !in SeenKeys(qs, known, i, 0)
  {
    forall a | 0 <= a < |missing| ensures missing[a].key !in SeenKeys(qs, known, i, 0) {
      DueIff(qs, known, at[a]);
    }
  }

  /** The next question is due exactly if it is this item's, unanswered and unseen. */
  lemma NextDue(qs: seq<Q>, known: set<Key>, i: nat, n: nat, missing: seq<Q>, at: seq<nat>)
    requires Ordered(qs) && DueOf(qs, known, i, n, missing, at) && n < |qs|
    ensures var seen := SeenKeys(qs, known, i, n);
            if qs[n].item == i && qs[n].key !in known && qs[n].key !in seen
            then SeenKeys(qs, known, i, n + 1) == seen + {qs[n].key} && DueOf(qs, known, i, n + 1, missing + [qs[n]], at + [n])
            else SeenKeys(qs, known, i, n + 1) == seen && DueOf(qs, known, i, n + 1, missing, at)
  {
    SeenNext(qs, known, i, n);
    DueIff(qs, known, n);
    if Due(qs, known, n) && qs[n].item == i {
      DueNext(qs, known, i, n, missing, at);
    }
  }

  lemma DueNext(qs: seq<Q>, known: set<Key>, i: nat, n: nat, missing: seq<Q>, at: seq<nat>)
    requires DueOf(qs, known, i, n, missing, at) && Due(qs, known, n) && qs[n].item == i
    ensures DueOf(qs, known, i, n + 1, missing + [qs[n]], at + [n])
  {
    forall d: nat | d < n + 1 && Due(qs, known, d) && qs[d].item == i ensures d in at + [n] {
      assert d == n || d in at;
    }
  }

  lemma DueOnce(qs: seq<Q>, known: set<Key>, i: nat, missing: seq<Q>, at: seq<nat>)
    requires DueOf(qs, known, i, |qs|, missing, at)
    ensures OnceEach(missing)
  {
    forall a, b | 0 <= a < b < |missing| ensures missing[a].key != missing[b].key {
      assert at[a] < at[b] && Due(qs, known, at[b]);
    }
  }

  lemma QKeysAppend(qs: seq<Q>, q: Q)
    ensures QKeys(qs + [q]) == QKeys(qs) + {q.key}
  {
    assert forall x :: x in qs + [q] <==> x in qs || x == q;
    assert q in qs + [q];
  }

  lemma QKeysUpTo(qs: seq<Q>, n: nat)
    requires n < |qs|
    ensures QKeys(qs[..n + 1]) == QKeys(qs[..n]) + {qs[n].key}
  {
    QKeysAppend(qs[..n], qs[n]);
    assert qs[..n + 1] == qs[..n] + [qs[n]];
  }

  ghost predicate Encodable(site: Site, items: seq<Item>, i: nat, q: Q) {
    i < |items| && items[i].model < |site.models| && EncodingFor(site, items[i].model, items[i].seg, q.prep).Ok?
  }

  /** The n-th does not encode, and those before it do. */
  ghost predicate FailsAt(site: Site, items: seq<Item>, i: nat, missing: seq<Q>, n: nat, e: Refusal) {
    && n < |missing| && i < |items| && items[i].model < |site.models|
    && EncodingFor(site, items[i].model, items[i].seg, missing[n].prep) == Err(e)
    && Blamed(site, items[i].model, items[i].seg, missing[n].prep, e)
    && forall a :: 0 <= a < n ==> Encodable(site, items, i, missing[a])
  }

  method EncodeMissing(site: Site, items: seq<Item>, i: nat, qs: seq<Q>, raws: Raws, missing: seq<Q>, jobs: seq<Job>,
                       ghost at: seq<nat>) returns (r: Result<seq<Job>, Refusal>)
    requires i < |items| && items[i].model < |site.models| && Labelled(site, items, qs) && JobsOk(site, items, qs, raws.Keys, jobs)
    requires DueOf(qs, raws.Keys, i, |qs|, missing, at) && forall q :: q in missing ==> q.key !in KeysOf(jobs)
    ensures r.Ok? ==> JobsOk(site, items, qs, raws.Keys, r.value) && KeysOf(r.value) == KeysOf(jobs) + QKeys(missing)
    ensures r.Ok? ==> forall q :: q in missing ==> Encodable(site, items, i, q)
    ensures r.Err? ==> exists n: nat :: FailsAt(site, items, i, missing, n, r.error)
  {
    var all := jobs;
    for n := 0 to |missing|
      invariant BuiltUpTo(site, items, i, qs, raws.Keys, missing, jobs, n, all)
    {
      var enc := EncodingFor(site, items[i].model, items[i].seg, missing[n].prep);
      if enc.Err? {
        ErrorIsBlamed(site, items[i].model, items[i].seg, missing[n].prep, enc.error);
        assert FailsAt(site, items, i, missing, n, enc.error);
        return Err(enc.error);
      }
      BuildsNext(site, items, i, qs, raws.Keys, missing, at, jobs, n, all, enc.value);
      all := all + [Scheduler.Job(missing[n].key, items[i].model, enc.value)];
    }
    assert missing[..|missing|] == missing;
    r := Ok(all);
  }

  /** The first `n` of the missing questions have their jobs. */
  ghost predicate BuiltUpTo(site: Site, items: seq<Item>, i: nat, qs: seq<Q>, known: set<Key>, missing: seq<Q>, jobs: seq<Job>,
                            n: nat, all: seq<Job>) {
    && n <= |missing| && JobsOk(site, items, qs, known, all) && KeysOf(all) == KeysOf(jobs) + QKeys(missing[..n])
    && forall a :: 0 <= a < n ==> Encodable(site, items, i, missing[a])
  }

  lemma BuildsNext(site: Site, items: seq<Item>, i: nat, qs: seq<Q>, known: set<Key>, missing: seq<Q>, at: seq<nat>, jobs: seq<Job>,
                   n: nat, all: seq<Job>, enc: Encoded)
    requires i < |items| && items[i].model < |site.models| && Labelled(site, items, qs) && n < |missing|
    requires DueOf(qs, known, i, |qs|, missing, at) && forall q :: q in missing ==> q.key !in KeysOf(jobs)
    requires BuiltUpTo(site, items, i, qs, known, missing, jobs, n, all)
    requires EncodingFor(site, items[i].model, items[i].seg, missing[n].prep) == Ok(enc)
    ensures BuiltUpTo(site, items, i, qs, known, missing, jobs, n + 1, all + [Scheduler.Job(missing[n].key, items[i].model, enc)])
  {
    DueOnce(qs, known, i, missing, at);
    NextIsNew(missing, n);
    QKeysUpTo(missing, n);
    assert missing[n] in missing;
    NextJob(site, items, qs, known, all, at[n], Scheduler.Job(missing[n].key, items[i].model, enc));
  }

  lemma KeysAppend(jobs: seq<Job>, job: Job)
    ensures KeysOf(jobs + [job]) == KeysOf(jobs) + {job.key}
  {
    assert forall j :: j in jobs + [job] <==> j in jobs || j == job;
    assert job in jobs + [job];
  }

  lemma UniqueAppend(jobs: seq<Job>, job: Job)
    requires Scheduler.UniqueKeys(jobs) && job.key !in KeysOf(jobs)
    ensures Scheduler.UniqueKeys(jobs + [job])
  {
    forall a | 0 <= a < |jobs| ensures jobs[a].key != job.key {
      assert jobs[a] in jobs;
    }
  }

  lemma OneMoreJob(site: Site, items: seq<Item>, qs: seq<Q>, known: set<Key>, jobs: seq<Job>, job: Job)
    requires JobsOk(site, items, qs, known, jobs) && JobFor(site, items, qs, known, job) && job.key !in KeysOf(jobs)
    ensures JobsOk(site, items, qs, known, jobs + [job]) && KeysOf(jobs + [job]) == KeysOf(jobs) + {job.key}
  {
    KeysAppend(jobs, job);
    UniqueAppend(jobs, job);
    forall j | j in jobs + [job] ensures JobFor(site, items, qs, known, j) {
      assert j in jobs || j == job;
    }
  }

  lemma NextJob(site: Site, items: seq<Item>, qs: seq<Q>, known: set<Key>, jobs: seq<Job>, n: nat, job: Job)
    requires JobsOk(site, items, qs, known, jobs) && Labelled(site, items, qs) && Due(qs, known, n)
    requires job.key == qs[n].key && job.key !in KeysOf(jobs)
    requires qs[n].item < |items| && job.model == items[qs[n].item].model < |site.models|
    requires EncodingFor(site, job.model, items[qs[n].item].seg, qs[n].prep) == Ok(job.enc)
    ensures JobsOk(site, items, qs, known, jobs + [job]) && KeysOf(jobs + [job]) == KeysOf(jobs) + {job.key}
  {
    assert IsLabelled(site, items, qs[n]);
    JobIsLaidOver(site, job.model, items[qs[n].item].seg, qs[n].prep, job.enc);
    assert JobFrom(site, items, qs[n], job);
    OneMoreJob(site, items, qs, known, jobs, job);
  }

  /** What is due in the items before the i-th passes. */
  ghost predicate PassedUpTo(site: Site, items: seq<Item>, qs: seq<Q>, known: set<Key>, gate: Gate, i: nat) {
    forall n: nat :: Due(qs, known, n) && qs[n].item < i ==> Passes(site, items, gate, qs[n])
  }

  /** One job for each due question, or the first refusal. */
  method BuildJobs(site: Site, items: seq<Item>, qs: seq<Q>, raws: Raws, gate: Gate) returns (r: Result<seq<Job>, Refusal>)
    requires ItemsOk(site, items) && Labelled(site, items, qs) && Ordered(qs)
    ensures r.Ok? ==> JobsOk(site, items, qs, raws.Keys, r.value) && AllPass(site, items, qs, raws.Keys, gate)
    ensures r.Ok? ==> forall q :: q in qs ==> q.key in KeysOf(r.value) || q.key in raws
    ensures r.Err? ==> exists n: nat :: Refuses(site, items, qs, raws.Keys, gate, n, r.error)
  {
    var jobs: seq<Job> := [];
    var seen: set<Key> := {};
    for i := 0 to |items|
      invariant JobsOk(site, items, qs, raws.Keys, jobs) && KeysOf(jobs) == seen == SeenKeys(qs, raws.Keys, i, 0)
      invariant PassedUpTo(site, items, qs, raws.Keys, gate, i)
    {
      var missing: seq<Q>;
      ghost var at: seq<nat>;
      missing, seen, at := Missing(qs, raws, i, seen);
      if missing != [] {
        if gate(i).Some? {
          GateRefuses(site, items, qs, raws.Keys, gate, i, missing, at);
          return Err(gate(i).value);
        }
        var more := EncodeMissing(site, items, i, qs, raws, missing, jobs, at);
        if more.Err? {
          EncodingRefuses(site, items, qs, raws.Keys, gate, i, missing, at, more.error);
          return Err(more.error);
        }
        jobs := more.value;
      }
      ItemPasses(site, items, qs, raws.Keys, gate, i, missing, at);
    }
    AllItemsPassed(site, items, qs, raws.Keys, gate);
    r := Ok(jobs);
  }

  lemma GateRefuses(site: Site, items: seq<Item>, qs: seq<Q>, known: set<Key>, gate: Gate, i: nat, missing: seq<Q>, at: seq<nat>)
    requires Labelled(site, items, qs) && Ordered(qs) && PassedUpTo(site, items, qs, known, gate, i)
    requires DueOf(qs, known, i, |qs|, missing, at) && missing != [] && gate(i).Some?
    ensures Refuses(site, items, qs, known, gate, at[0], gate(i).value)
  {
    assert Due(qs, known, at[0]) && IsLabelled(site, items, qs[at[0]]);
    forall a: nat | a < at[0] && Due(qs, known, a) ensures Passes(site, items, gate, qs[a]) {
      assert qs[a].item <= qs[at[0]].item;
    }
  }

  lemma EncodingRefuses(site: Site, items: seq<Item>, qs: seq<Q>, known: set<Key>, gate: Gate, i: nat, missing: seq<Q>,
                        at: seq<nat>, e: Refusal)
    requires i < |items| && items[i].model < |site.models| && gate(i).None?
    requires Labelled(site, items, qs) && Ordered(qs) && PassedUpTo(site, items, qs, known, gate, i)
    requires DueOf(qs, known, i, |qs|, missing, at)
    requires exists n: nat :: FailsAt(site, items, i, missing, n, e)
    ensures exists n: nat :: Refuses(site, items, qs, known, gate, n, e)
  {
    var n: nat :| FailsAt(site, items, i, missing, n, e);
    assert Due(qs, known, at[n]) && IsLabelled(site, items, qs[at[n]]);
    forall a: nat | a < at[n] && Due(qs, known, a) ensures Passes(site, items, gate, qs[a]) {
      assert qs[a].item <= qs[at[n]].item;
      if qs[a].item == i {
        assert a in at;
        var b :| 0 <= b < |at| && at[b] == a;
        assert Encodable(site, items, i, missing[b]) && IsLabelled(site, items, qs[a]);
      }
    }
    assert Refuses(site, items, qs, known, gate, at[n], e);
  }

  lemma ItemPasses(site: Site, items: seq<Item>, qs: seq<Q>, known: set<Key>, gate: Gate, i: nat, missing: seq<Q>, at: seq<nat>)
    requires Labelled(site, items, qs) && PassedUpTo(site, items, qs, known, gate, i)
    requires DueOf(qs, known, i, |qs|, missing, at)
    requires missing != [] ==> gate(i).None? && forall q :: q in missing ==> Encodable(site, items, i, q)
    ensures PassedUpTo(site, items, qs, known, gate, i + 1)
  {
    forall n: nat | Due(qs, known, n) && qs[n].item < i + 1 ensures Passes(site, items, gate, qs[n]) {
      if qs[n].item == i {
        assert n in at;
        var b :| 0 <= b < |at| && at[b] == n;
        assert missing[b] in missing && IsLabelled(site, items, qs[n]);
      }
    }
  }

  lemma AllItemsPassed(site: Site, items: seq<Item>, qs: seq<Q>, known: set<Key>, gate: Gate)
    requires Labelled(site, items, qs) && PassedUpTo(site, items, qs, known, gate, |items|)
    ensures AllPass(site, items, qs, known, gate)
    ensures forall q :: q in qs ==> q.key in SeenKeys(qs, known, |items|, 0) || q.key in known
  {
    forall n: nat | Due(qs, known, n) ensures Passes(site, items, gate, qs[n]) {
      assert IsLabelled(site, items, qs[n]);
    }
    forall q | q in qs ensures q.key in SeenKeys(qs, known, |items|, 0) || q.key in known {
      assert IsLabelled(site, items, q);
    }
  }

  /** Built jobs are what is owed. */
  lemma JobsAreOwed(site: Site, items: seq<Item>, qs: seq<Q>, known: set<Key>, jobs: seq<Job>)
    requires JobsOk(site, items, qs, known, jobs) && forall q :: q in qs ==> q.key in KeysOf(jobs) || q.key in known
    ensures Owes(site, items, qs, known, RunJobs.JobMap(jobs))
  {
    var todo := RunJobs.JobMap(jobs);
    JobMapKeys(jobs);
    forall k | k in todo ensures exists n: nat :: Due(qs, known, n) && qs[n].key == k && JobFrom(site, items, qs[n], todo[k]) {
      JobMapHolds(jobs, k);
      assert JobFor(site, items, qs, known, todo[k]);
    }
    forall n: nat | Due(qs, known, n) ensures qs[n].key in todo && JobFrom(site, items, qs[n], todo[qs[n].key]) {
      assert qs[n] in qs;
      var d: nat :| Due(qs, known, d) && qs[d].key == qs[n].key && JobFrom(site, items, qs[d], todo[qs[n].key]);
      assert d == n;
    }
  }

  // ---------- Computed answers ----------

  /** What computing jobs promises: an answer for exactly each of them, with a logit for each marker. */
  ghost predicate Answers(jobs: seq<Job>, computed: map<Key, Raw>, good: (Key, Raw) -> bool) {
    && computed.Keys == KeysOf(jobs)
    && (forall j :: j in jobs ==> |computed[j.key].logits| == |j.enc.markers|)
    && (forall k :: k in computed ==> good(k, computed[k]))
  }

  lemma ComputedFits(site: Site, items: seq<Item>, qs: seq<Q>, raws: Raws, jobs: seq<Job>, computed: map<Key, Raw>, k: Key)
    requires JobsOk(site, items, qs, raws.Keys, jobs) && computed.Keys == KeysOf(jobs) && k in computed
    requires forall j :: j in jobs ==> |computed[j.key].logits| == |j.enc.markers|
    ensures FitsKey(qs, k, computed[k])
  {
    var j :| j in jobs && j.key == k;
    assert JobFor(site, items, qs, raws.Keys, j);
    var n: nat :| Due(qs, raws.Keys, n) && JobFrom(site, items, qs[n], j);
    var q := qs[n];
    MarkersMatch(site, j.model, items[q.item].seg, q.prep, j.enc);
    assert q in qs && q.key == k && |computed[k].logits| == |q.prep.options|;
  }

  lemma MarkersMatch(site: Site, m: nat, seg: string, p: Prepared, enc: Encoded)
    requires m < |site.models| && EncodingFor(site, m, seg, p) == Ok(enc)
    ensures |enc.markers| == |p.options|
  {
  }

  function Uncached(computed: map<Key, Raw>): Raws {
    map k | k in computed :: (computed[k], false)
  }

  // ---------- The answers of a request ----------

  /** One question's answer: its id, the model's raw output, and whether it came from the cache. */
  datatype Reply = Reply(qid: string, raw: Raw, cached: bool)

  /** Any answer found under a question's key fits that question. */
  lemma FoundFits(site: Site, items: seq<Item>, qs: seq<Q>, raws: Raws, q: Q)
    requires SiteOk(site) && Labelled(site, items, qs) && Fit(site, qs, raws) && q in qs && q.key in raws
    ensures |raws[q.key].0.logits| == |q.prep.options|
  {
    var p :| p in qs && p.key == q.key && |raws[q.key].0.logits| == |p.prep.options|;
    assert IsLabelled(site, items, p) && IsLabelled(site, items, q);
    SameKeySameQuestion(site, items[p.item].model, items[q.item].model, items[p.item].seg, items[q.item].seg, p.prep, q.prep);
  }

  /** Item `i`'s replies: one for each of its questions, in order, each fitting its question. */
  ghost predicate Replied(site: Site, i: nat, it: Item, replies: seq<Reply>, good: (Key, Raw) -> bool)
    requires it.model < |site.models|
  {
    && |replies| == |it.questions|
    && forall n :: 0 <= n < |replies| ==> RepliesTo(ItemQs(site, i, it)[n], replies[n], good)
  }

  ghost predicate RepliesTo(q: Q, reply: Reply, good: (Key, Raw) -> bool) {
    reply.qid == q.qid && |reply.raw.logits| == |q.prep.options| && good(q.key, reply.raw)
  }

  /** Each reply says where its answer came from. */
  ghost predicate Marked(site: Site, i: nat, it: Item, replies: seq<Reply>, raws: Raws)
    requires it.model < |site.models|
  {
    && |replies| == |it.questions|
    && forall n :: 0 <= n < |replies| ==>
         ItemQs(site, i, it)[n].key in raws && replies[n].cached == raws[ItemQs(site, i, it)[n].key].1
  }

  ghost predicate ReadOff(site: Site, i: nat, it: Item, replies: seq<Reply>, raws: Raws, good: (Key, Raw) -> bool)
    requires it.model < |site.models|
  {
    Replied(site, i, it, replies, good) && Marked(site, i, it, replies, raws)
  }

  /** A reply is marked as cached exactly when a lookup for its key was a hit. */
  ghost predicate MarkedAsHit(site: Site, items: seq<Item>, look: Look, i: nat, replies: seq<Reply>)
    requires ItemsOk(site, items) && i < |items|
  {
    && |replies| == |items[i].questions|
    && forall n :: 0 <= n < |replies| ==>
         (replies[n].cached <==> Hit(QsOf(site, items, |items|), look, ItemQs(site, i, items[i])[n].key))
  }

  lemma {:induction false} MarksAreHits(site: Site, items: seq<Item>, qs: seq<Q>, look: Look, raws: Raws, jobs: seq<Job>, computed: map<Key, Raw>,
                     i: nat, replies: seq<Reply>)
    requires AreQs(site, items, qs) && i < |items| && JobsOk(site, items, qs, raws.Keys, jobs)
    requires forall k :: k in raws ==> raws[k].1 && Hit(qs, look, k)
    requires forall k :: Hit(qs, look, k) ==> k in raws
    requires computed.Keys <= KeysOf(jobs) && Marked(site, i, items[i], replies, raws + Uncached(computed))
    ensures MarkedAsHit(site, items, look, i, replies)
  {
    forall k | k in computed ensures k !in raws {
      var j :| j in jobs && j.key == k;
      assert JobFor(site, items, qs, raws.Keys, j);
    }
    var mine := ItemQs(site, i, items[i]);
    forall n | 0 <= n < |replies| ensures replies[n].cached <==> Hit(qs, look, mine[n].key) {
      UnionMark(raws, computed, mine[n].key);
    }
  }

  /** In the union, what was hit is marked so, and what was computed is not. */
  lemma UnionMark(raws: Raws, computed: map<Key, Raw>, k: Key)
    requires raws.Keys !! computed.Keys && (forall x :: x in raws ==> raws[x].1) && k in raws + Uncached(computed)
    ensures (raws + Uncached(computed))[k].1 <==> k in raws
  {
  }

  /** The keys some lookup was a hit for. */
  ghost function HitKeys(qs: seq<Q>, look: Look): set<Key> {
    set n | 0 <= n < |qs| && IsHit(look, n, qs[n]) :: qs[n].key
  }

  /** Nothing stands in the way of what was not hit. */
  ghost predicate MayCompute(site: Site, items: seq<Item>, look: Look, gate: Gate)
    requires ItemsOk(site, items)
  {
    var qs := QsOf(site, items, |items|);
    AllPass(site, items, qs, HitKeys(qs, look), gate)
  }

  /** The jobs for what was not hit. */
  ghost predicate Owed(site: Site, items: seq<Item>, look: Look, todo: map<Key, Job>)
    requires ItemsOk(site, items)
  {
    var qs := QsOf(site, items, |items|);
    Owes(site, items, qs, HitKeys(qs, look), todo)
  }

  /** What was not hit is refused: the first due question that does not pass gives the reason. */
  ghost predicate CannotCompute(site: Site, items: seq<Item>, look: Look, gate: Gate, e: Refusal)
    requires ItemsOk(site, items)
  {
    var qs := QsOf(site, items, |items|);
    exists n: nat :: Refuses(site, items, qs, HitKeys(qs, look), gate, n, e)
  }

  /** The jobs are run, and the last turn they reach ends the request. */
  ghost predicate ComputingFails(site: Site, items: seq<Item>, look: Look, gate: Gate, world: RunJobs.World, e: Refusal)
    requires ItemsOk(site, items)
  {
    && MayCompute(site, items, look, gate)
    && exists todo :: Owed(site, items, look, todo) && todo != map[] && LastTurnEnds(world, todo, e)
  }

  ghost predicate LastTurnEnds(world: RunJobs.World, todo: map<Key, Job>, e: Refusal) {
    var (i, left) := RunJobs.LastTurn(world, todo, map[], 0);
    exists se :: RunJobs.EndsWith(world(i, left), i, se) && e == Refused(se)
  }

  /** Nothing is owed, or the last turn brings all that is left. */
  ghost predicate LastTurnAnswers(world: RunJobs.World, todo: map<Key, Job>) {
    todo == map[] ||
    var (i, left) := RunJobs.LastTurn(world, todo, map[], 0);
    world(i, left).Answers? && RunJobs.AllDone(world(i, left).results)
  }

  /** When a request succeeds. */
  ghost predicate Succeeds(site: Site, items: seq<Item>, look: Look, gate: Gate, world: RunJobs.World)
    requires ItemsOk(site, items)
  {
    MayCompute(site, items, look, gate) && forall todo :: Owed(site, items, look, todo) ==> LastTurnAnswers(world, todo)
  }

  lemma {:induction false} ItemQsAreQs(site: Site, items: seq<Item>, n: nat, i: nat, q: Q)
    requires ItemsOk(site, items) && i < n <= |items|
    ensures q in ItemQs(site, i, items[i]) ==> q in QsOf(site, items, n)
  {
    if i < n - 1 {
      ItemQsAreQs(site, items, n - 1, i, q);
    }
  }

  /** The lookup of a computed or cached answer never misses, and never finds one of another length. */
  method ReadBack(site: Site, items: seq<Item>, qs: seq<Q>, raws: Raws, ghost good: (Key, Raw) -> bool)
    returns (results: seq<seq<Reply>>)
    requires SiteOk(site) && AreQs(site, items, qs)
    requires Fit(site, qs, raws) && Good(raws, good) && forall q :: q in qs ==> q.key in raws
    ensures |results| == |items|
    ensures forall i :: 0 <= i < |items| ==> ReadOff(site, i, items[i], results[i], raws, good)
  {
    results := [];
    for i := 0 to |items|
      invariant |results| == i
      invariant forall a :: 0 <= a < i ==> ReadOff(site, a, items[a], results[a], raws, good)
    {
      var replies := ReadItem(site, items, qs, raws, i, good);
      results := results + [replies];
    }
  }

  lemma ReplyFits(site: Site, items: seq<Item>, qs: seq<Q>, raws: Raws, i: nat, q: Q, good: (Key, Raw) -> bool)
    requires SiteOk(site) && AreQs(site, items, qs) && i < |items| && q in ItemQs(site, i, items[i])
    requires Fit(site, qs, raws) && Good(raws, good) && forall q :: q in qs ==> q.key in raws
    ensures q.key in raws && RepliesTo(q, ReplyFrom(raws, q), good)
  {
    QsAreLabelled(site, items, |items|);
    ItemQsAreQs(site, items, |items|, i, q);
    FoundFits(site, items, qs, raws, q);
  }

  method ReadItem(site: Site, items: seq<Item>, qs: seq<Q>, raws: Raws, i: nat, ghost good: (Key, Raw) -> bool)
    returns (replies: seq<Reply>)
    requires SiteOk(site) && AreQs(site, items, qs) && i < |items|
    requires Fit(site, qs, raws) && Good(raws, good) && forall q :: q in qs ==> q.key in raws
    ensures ReadOff(site, i, items[i], replies, raws, good)
  {
    var mine := ItemQs(site, i, items[i]);
    KeysAreThere(site, items, qs, raws, i);
    replies := [];
    for n := 0 to |mine|
      invariant |replies| == n
      invariant forall a :: 0 <= a < n ==> replies[a] == ReplyFrom(raws, mine[a])
    {
      replies := replies + [ReplyFrom(raws, mine[n])];
    }
    forall n | 0 <= n < |mine| ensures RepliesTo(mine[n], replies[n], good) {
      ReplyFits(site, items, qs, raws, i, mine[n], good);
    }
  }

  function ReplyFrom(raws: Raws, q: Q): Reply
    requires q.key in raws
  {
    Reply(q.qid, raws[q.key].0, raws[q.key].1)
  }

  lemma KeysAreThere(site: Site, items: seq<Item>, qs: seq<Q>, raws: Raws, i: nat)
    requires AreQs(site, items, qs) && i < |items| && forall q :: q in qs ==> q.key in raws
    ensures forall n :: 0 <= n < |ItemQs(site, i, items[i])| ==> ItemQs(site, i, items[i])[n].key in raws
  {
    forall n | 0 <= n < |ItemQs(site, i, items[i])| ensures ItemQs(site, i, items[i])[n].key in raws {
      ItemQsAreQs(site, items, |items|, i, ItemQs(site, i, items[i])[n]);
    }
  }

  /** A good output for a key has a logit for each marker of the key's question. */
  ghost predicate GoodIsSized(site: Site, good: (Key, Raw) -> bool) {
    forall k, raw, e :: good(k, raw) && Encodes(site, k, e) ==> |raw.logits| == |e.markers|
  }

  function Refused(e: RunJobs.SchedError): Refusal {
    match e
    case Overloaded => Overloaded
    case Deadline => Deadline
    case Backend(msg) => Internal(msg)
  }

  lemma {:induction false} JobMapKeys(jobs: seq<Job>)
    ensures RunJobs.JobMap(jobs).Keys == KeysOf(jobs)
  {
    if jobs != [] {
      var init, last := jobs[..|jobs| - 1], jobs[|jobs| - 1];
      JobMapKeys(init);
      KeysAppend(init, last);
      assert init + [last] == jobs;
    }
  }

  lemma {:induction false} JobMapHolds(jobs: seq<Job>, k: Key)
    requires k in RunJobs.JobMap(jobs)
    ensures RunJobs.JobMap(jobs)[k] in jobs && RunJobs.JobMap(jobs)[k].key == k
  {
    var init, last := jobs[..|jobs| - 1], jobs[|jobs| - 1];
    assert jobs == init + [last];
    if k != last.key {
      JobMapHolds(init, k);
      assert RunJobs.JobMap(jobs)[k] == RunJobs.JobMap(init)[k];
    }
  }

  /** No job is for an unknown model. */
  lemma JobsAreRouted(site: Site, items: seq<Item>, qs: seq<Q>, raws: Raws, jobs: seq<Job>)
    requires JobsOk(site, items, qs, raws.Keys, jobs)
    ensures forall k :: k in RunJobs.JobMap(jobs) ==> RunJobs.JobMap(jobs)[k].model < |site.models|
  {
    forall k | k in RunJobs.JobMap(jobs) ensures RunJobs.JobMap(jobs)[k].model < |site.models| {
      JobMapHolds(jobs, k);
      assert JobFor(site, items, qs, raws.Keys, RunJobs.JobMap(jobs)[k]);
    }
  }

  /** The scheduler's part: the jobs are run over whatever world the request meets. */
  method Compute(site: Site, items: seq<Item>, qs: seq<Q>, raws: Raws, jobs: seq<Job>, world: RunJobs.World,
                 ghost good: (Key, Raw) -> bool) returns (r: Result<map<Key, Raw>, Refusal>)
    requires JobsOk(site, items, qs, raws.Keys, jobs) && GoodIsSized(site, good)
    requires RunJobs.WorldOk(world) && RunJobs.WorldIsGood(world, good)
    ensures r.Ok? ==> Answers(jobs, r.value, good)
    ensures r.Ok? <==> LastTurnAnswers(world, RunJobs.JobMap(jobs))
    ensures r.Err? ==> jobs != [] && LastTurnEnds(world, RunJobs.JobMap(jobs), r.error)
  {
    var computed, admissions := RunJobs.Run(jobs, |site.models|, world);
    RunJobs.TurnsAnswerExactly(world, RunJobs.JobMap(jobs), map[], 0, good);
    JobMapKeys(jobs);
    JobsAreRouted(site, items, qs, raws, jobs);
    if RunJobs.JobMap(jobs) != map[] {
      RunJobs.TurnsEndAsMet(world, RunJobs.JobMap(jobs), map[], 0);
    }
    if computed.Err? {
      return Err(Refused(computed.error));
    }
    forall j | j in jobs ensures j.key in computed.value && |computed.value[j.key].logits| == |j.enc.markers| {
      assert j.key in KeysOf(jobs);
      JobEncodes(site, items, qs, raws.Keys, j);
    }
    r := Ok(computed.value);
  }

  lemma JobEncodes(site: Site, items: seq<Item>, qs: seq<Q>, known: set<Key>, job: Job)
    requires JobFor(site, items, qs, known, job)
    ensures job.model < |site.models| && Encodes(site, job.key, job.enc)
    ensures exists seg, p :: EncodesAs(site, job.model, seg, p, job.key, job.enc)
  {
    var n: nat :| Due(qs, known, n) && JobFrom(site, items, qs[n], job);
    assert EncodesAs(site, job.model, items[qs[n].item].seg, qs[n].prep, job.key, job.enc);
  }

  lemma JoinedFits(site: Site, items: seq<Item>, qs: seq<Q>, raws: Raws, jobs: seq<Job>, computed: map<Key, Raw>, good: (Key, Raw) -> bool)
    requires JobsOk(site, items, qs, raws.Keys, jobs) && Answers(jobs, computed, good) && Fit(site, qs, raws) && Good(raws, good)
    requires forall q :: q in qs ==> q.key in KeysOf(jobs) || q.key in raws
    ensures var all := raws + Uncached(computed);
            Fit(site, qs, all) && Good(all, good) && forall q :: q in qs ==> q.key in all
  {
    var all := raws + Uncached(computed);
    forall k | k in computed ensures FitsKey(qs, k, computed[k]) {
      ComputedFits(site, items, qs, raws, jobs, computed, k);
    }
    UnionFits(site, qs, raws, computed);
    UnionIsGood(raws, computed, good);
    assert forall k :: k in all <==> k in raws || k in computed;
  }

  lemma UnionFits(site: Site, qs: seq<Q>, raws: Raws, computed: map<Key, Raw>)
    requires Fit(site, qs, raws) && forall k :: k in computed ==> FitsKey(qs, k, computed[k])
    ensures Fit(site, qs, raws + Uncached(computed))
  {
    var all := raws + Uncached(computed);
    forall k | k in all ensures FitsKey(qs, k, all[k].0) {
      assert all[k].0 == if k in computed then computed[k] else raws[k].0;
    }
  }

  lemma UnionIsGood(raws: Raws, computed: map<Key, Raw>, good: (Key, Raw) -> bool)
    requires Good(raws, good) && forall k :: k in computed ==> good(k, computed[k])
    ensures Good(raws + Uncached(computed), good)
  {
    var all := raws + Uncached(computed);
    forall k | k in all ensures good(k, all[k].0) {
      assert all[k].0 == if k in computed then computed[k] else raws[k].0;
    }
  }

  /**
   * The join of cached and computed answers. Over whatever the lookups find and whatever world the jobs meet, a
   * request that succeeds answers every question of every item, in order, with a `good` raw output for its own key
   * that has one logit for each option, and marks as cached exactly what was hit. It succeeds exactly when nothing
   * stands in the way of what was not hit and the last turn of its jobs brings all that is left.
   */
  method DecideItems(site: Site, items: seq<Item>, look: Look, gate: Gate, world: RunJobs.World,
                     ghost good: (Key, Raw) -> bool) returns (r: Result<seq<seq<Reply>>, Refusal>)
    requires SiteOk(site) && ItemsOk(site, items) && GoodIsSized(site, good) && LooksAreGood(look, good)
    requires RunJobs.WorldOk(world) && RunJobs.WorldIsGood(world, good)
    ensures r.Ok? ==> |r.value| == |items| && forall i :: 0 <= i < |items| ==> Replied(site, i, items[i], r.value[i], good)
    ensures r.Ok? ==> forall i :: 0 <= i < |items| ==> MarkedAsHit(site, items, look, i, r.value[i])
    ensures r.Ok? <==> Succeeds(site, items, look, gate, world)
    ensures r.Err? ==> CannotCompute(site, items, look, gate, r.error) || ComputingFails(site, items, look, gate, world, r.error)
  {
    var qs := CollectQs(site, items);
    QsAreLabelled(site, items, |items|);
    QsAreOrdered(site, items, |items|);
    var hits := LookUp(qs, look, good);
    var raws := TakeHits(site, qs, hits, good);
    HitsAreKnown(qs, look, raws);
    var jobs := BuildJobs(site, items, qs, raws, gate);
    if jobs.Err? {
      RefusedFails(site, items, look, gate, world, jobs.error);
      return Err(jobs.error);
    }
    JobsAreOwed(site, items, qs, raws.Keys, jobs.value);
    OutcomeIsDue(site, items, look, gate, world, jobs.value);
    var computed := map[];
    if jobs.value != [] {
      var answers := Compute(site, items, qs, raws, jobs.value, world, good);
      if answers.Err? {
        return Err(answers.error);
      }
      computed := answers.value;
    }
    JoinedFits(site, items, qs, raws, jobs.value, computed, good);
    var results := ReadBack(site, items, qs, raws + Uncached(computed), good);
    forall i | 0 <= i < |items| ensures MarkedAsHit(site, items, look, i, results[i]) {
      MarksAreHits(site, items, qs, look, raws, jobs.value, computed, i, results[i]);
    }
    r := Ok(results);
  }

  lemma HitsAreKnown(qs: seq<Q>, look: Look, raws: Raws)
    requires forall k :: k in raws <==> exists n :: 0 <= n < |qs| && HitOf(look, n, qs[n]).Some? && qs[n].key == k
    ensures raws.Keys == HitKeys(qs, look) && forall k :: k in raws <==> Hit(qs, look, k)
  {
  }

  /** A refused question does not pass. */
  lemma RefusedFails(site: Site, items: seq<Item>, look: Look, gate: Gate, world: RunJobs.World, e: Refusal)
    requires ItemsOk(site, items) && CannotCompute(site, items, look, gate, e)
    ensures !Succeeds(site, items, look, gate, world)
  {
    var qs := QsOf(site, items, |items|);
    var n: nat :| Refuses(site, items, qs, HitKeys(qs, look), gate, n, e);
    assert !Passes(site, items, gate, qs[n]);
  }

  /** The jobs are all that is owed, so how their last turn ends decides. */
  lemma OutcomeIsDue(site: Site, items: seq<Item>, look: Look, gate: Gate, world: RunJobs.World, jobs: seq<Job>)
    requires ItemsOk(site, items) && Owed(site, items, look, RunJobs.JobMap(jobs)) && MayCompute(site, items, look, gate)
    ensures Succeeds(site, items, look, gate, world) <==> LastTurnAnswers(world, RunJobs.JobMap(jobs))
    ensures jobs == [] ==> Succeeds(site, items, look, gate, world)
    ensures forall e :: jobs != [] && LastTurnEnds(world, RunJobs.JobMap(jobs), e)
              ==> ComputingFails(site, items, look, gate, world, e)
  {
    var qs, todo := QsOf(site, items, |items|), RunJobs.JobMap(jobs);
    forall t | Owed(site, items, look, t) ensures t == todo {
      OwedIsOne(site, items, qs, HitKeys(qs, look), t, todo);
    }
    JobMapKeys(jobs);
    if jobs != [] {
      assert jobs[0].key in KeysOf(jobs);
    }
  }
}
