/** Assembling one question's token sequence within the model's length limits. */
module Sequence {
  import opened Types

  datatype Meta = Meta(maxLen: nat, headMaxLen: nat, mask: nat, cls: nat, sep: nat)

  type Tokens = seq<nat>

  // ---------- Pieces laid end to end ----------

  /** Where piece `k` starts, counted from the first. */
  function Offset(pieces: seq<Tokens>, k: nat): nat
    requires k <= |pieces|
  {
    if k == 0 then 0 else Offset(pieces, k - 1) + |pieces[k - 1]|
  }

  function Total(pieces: seq<Tokens>): nat {
    Offset(pieces, |pieces|)
  }

  function Flat(pieces: seq<Tokens>, k: nat): (r: Tokens)
    requires k <= |pieces|
    ensures |r| == Offset(pieces, k)
  {
    if k == 0 then [] else Flat(pieces, k - 1) + pieces[k - 1]
  }

  function Cut(t: Tokens, n: int): Tokens {
    if n < 0 then [] else if n < |t| then t[..n] else t
  }

  // ---------- The layout ----------

  /** An option is the mask and its first 48 tokens. */
  function Masked(meta: Meta, opts: seq<Tokens>): (r: seq<Tokens>)
    ensures |r| == |opts|
  {
    seq(|opts|, k requires 0 <= k < |opts| => [meta.mask] + Cut(opts[k], 48))
  }

  function Shortened(pieces: seq<Tokens>, n: int): (r: seq<Tokens>)
    ensures |r| == |pieces|
  {
    seq(|pieces|, k requires 0 <= k < |pieces| => Cut(pieces[k], n))
  }

  function PerOption(meta: Meta, n: nat): int {
    Max(4, (meta.headMaxLen - 16) / Max(n, 1))
  }

  /** The options in full when 16 places remain for the head, cut evenly otherwise. */
  function Pieces(meta: Meta, opts: seq<Tokens>): (r: seq<Tokens>)
    ensures |r| == |opts|
  {
    var full := Masked(meta, opts);
    if meta.headMaxLen - Total(full) < 16 then Shortened(full, PerOption(meta, |opts|)) else full
  }

  function HeadLen(meta: Meta, head: Tokens, opts: seq<Tokens>): (n: nat)
    ensures n <= |head|
  {
    Min(Max(8, meta.headMaxLen - Total(Pieces(meta, opts))), |head|)
  }

  /** Everything before the first option. */
  function Opening(meta: Meta, head: Tokens, opts: seq<Tokens>): Tokens {
    [meta.cls] + head[..HeadLen(meta, head, opts)] + [meta.sep]
  }

  /** Everything before the state. */
  function Body(meta: Meta, head: Tokens, opts: seq<Tokens>): Tokens {
    var pieces := Pieces(meta, opts);
    Opening(meta, head, opts) + Flat(pieces, |pieces|) + [meta.sep]
  }

  function Room(meta: Meta, head: Tokens, opts: seq<Tokens>): nat {
    Max(meta.maxLen - |Body(meta, head, opts)| - 1, 0)
  }

  function Ids(meta: Meta, head: Tokens, opts: seq<Tokens>, state: Tokens): Tokens {
    Cut(Body(meta, head, opts) + Cut(state, Room(meta, head, opts)) + [meta.sep], meta.maxLen)
  }

  /** Where the mask of each of the first `k` options goes. */
  function Places(start: nat, pieces: seq<Tokens>, k: nat): (r: seq<nat>)
    requires k <= |pieces|
    ensures |r| == k && forall i {:trigger r[i]} :: 0 <= i < k ==> r[i] == start + Offset(pieces, i)
  {
    if k == 0 then [] else Places(start, pieces, k - 1) + [start + Offset(pieces, k - 1)]
  }

  function Below(marks: seq<nat>, limit: nat): seq<nat> {
    if marks == [] then []
    else Below(marks[..|marks| - 1], limit) + if marks[|marks| - 1] < limit then [marks[|marks| - 1]] else []
  }

  function Markers(meta: Meta, head: Tokens, opts: seq<Tokens>): seq<nat> {
    Below(Places(|Opening(meta, head, opts)|, Pieces(meta, opts), |opts|), meta.maxLen)
  }

  // ---------- The algorithm ----------

  method Assemble(meta: Meta, head: Tokens, opts: seq<Tokens>, state: Tokens) returns (ids: Tokens, markers: seq<nat>)
    ensures ids == Ids(meta, head, opts, state)
    ensures markers == Markers(meta, head, opts)
    ensures LaidOut(meta, head, opts, state, ids, markers)
  {
    var optIds := Masked(meta, opts);
    var budget := meta.headMaxLen - Total(optIds);
    if budget < 16 {
      optIds := TruncateEach(optIds, PerOption(meta, |optIds|));
      budget := meta.headMaxLen - Total(optIds);
    }
    assert optIds == Pieces(meta, opts);
    var headLen := Min(Max(8, budget), |head|);
    ids := [meta.cls];
    ids := ids + head[..headLen];
    ids := ids + [meta.sep];
    assert ids == Opening(meta, head, opts);
    ids, markers := PushOptions(ids, optIds);
    ids := ids + [meta.sep];
    assert ids == Body(meta, head, opts);
    var room := Max(meta.maxLen - |ids| - 1, 0);
    ids := ids + state[..Min(room, |state|)];
    ids := ids + [meta.sep];
    ghost var all := ids;
    assert all == Body(meta, head, opts) + Cut(state, room) + [meta.sep];
    if meta.maxLen < |ids| {
      ids := ids[..meta.maxLen];
    }
    assert ids == Cut(all, meta.maxLen) == Ids(meta, head, opts, state);
    markers := RetainBelow(markers, meta.maxLen);
    AssembledIsLaidOut(meta, head, opts, state);
  }

  method TruncateEach(pieces: seq<Tokens>, n: int) returns (r: seq<Tokens>)
    requires n >= 0
    ensures r == Shortened(pieces, n)
  {
    r := pieces;
    for i := 0 to |r|
      invariant |r| == |pieces|
      invariant forall k :: 0 <= k < |r| ==> r[k] == if k < i then Cut(pieces[k], n) else pieces[k]
    {
      if n < |r[i]| {
        r := r[i := r[i][..n]];
      }
    }
  }

  method PushOptions(start: Tokens, pieces: seq<Tokens>) returns (ids: Tokens, markers: seq<nat>)
    ensures ids == start + Flat(pieces, |pieces|)
    ensures markers == Places(|start|, pieces, |pieces|)
  {
    ids, markers := start, [];
    for i := 0 to |pieces|
      invariant ids == start + Flat(pieces, i)
      invariant markers == Places(|start|, pieces, i)
    {
      markers := markers + [|ids|];
      ids := ids + pieces[i];
    }
  }

  method RetainBelow(marks: seq<nat>, limit: nat) returns (kept: seq<nat>)
    ensures kept == Below(marks, limit)
  {
    kept := [];
    for i := 0 to |marks|
      invariant kept == Below(marks[..i], limit)
    {
      assert marks[..i + 1][..i] == marks[..i];
      if marks[i] < limit {
        kept := kept + [marks[i]];
      }
    }
    assert marks[..|marks|] == marks;
  }

  // ---------- Lengths ----------

  lemma {:induction false} OffsetGrows(pieces: seq<Tokens>, i: nat, j: nat)
    requires i < j <= |pieces| && forall k :: 0 <= k < |pieces| ==> pieces[k] != []
    ensures Offset(pieces, i) + |pieces[i]| <= Offset(pieces, j)
    decreases j
  {
    if i < j - 1 {
      OffsetGrows(pieces, i, j - 1);
    }
  }

  lemma {:induction false} OffsetBound(pieces: seq<Tokens>, k: nat, n: nat)
    requires k <= |pieces| && forall i :: 0 <= i < |pieces| ==> |pieces[i]| <= n
    ensures Offset(pieces, k) <= k * n
  {
    if k > 0 {
      OffsetBound(pieces, k - 1, n);
      assert k * n == (k - 1) * n + n;
    }
  }

  /** Every piece starts with the mask, holds at most 49 tokens, and is a prefix of its masked option. */
  lemma PiecesAreOptions(meta: Meta, opts: seq<Tokens>)
    ensures forall k :: 0 <= k < |opts| ==>
      var p := Pieces(meta, opts)[k];
      0 < |p| <= 49 && p[0] == meta.mask && p <= [meta.mask] + opts[k]
  {
    forall k | 0 <= k < |opts|
      ensures var p := Pieces(meta, opts)[k]; 0 < |p| <= 49 && p[0] == meta.mask && p <= [meta.mask] + opts[k]
    {
      assert Cut(opts[k], 48) <= opts[k];
      assert [meta.mask] + Cut(opts[k], 48) <= [meta.mask] + opts[k];
    }
  }

  /** Either condition leaves at least 16 places for the head. */
  lemma PiecesFit(meta: Meta, opts: seq<Tokens>)
    requires Total(Masked(meta, opts)) <= meta.headMaxLen - 16 || 4 * |opts| <= meta.headMaxLen - 16
    ensures Total(Pieces(meta, opts)) <= meta.headMaxLen - 16
  {
    var full, n := Masked(meta, opts), |opts|;
    if meta.headMaxLen - Total(full) < 16 && n > 0 {
      EvenShare(meta.headMaxLen - 16, n);
      OffsetBound(Pieces(meta, opts), n, PerOption(meta, n));
    }
  }

  lemma EvenShare(a: int, n: nat)
    requires 4 * n <= a && n > 0
    ensures a / n >= 4 && n * (a / n) <= a
  {
    var q := a / n;
    assert a == q * n + a % n;
    MulMonotone(q + 1, 4, n);
  }

  /** The head and the options together then fit the head's limit. */
  lemma HeadAndOptionsFit(meta: Meta, head: Tokens, opts: seq<Tokens>)
    requires Total(Masked(meta, opts)) <= meta.headMaxLen - 16 || 4 * |opts| <= meta.headMaxLen - 16
    ensures HeadLen(meta, head, opts) + Total(Pieces(meta, opts)) <= meta.headMaxLen
    ensures HeadLen(meta, head, opts) >= Min(16, |head|)
  {
    PiecesFit(meta, opts);
  }

  // ---------- Markers ----------

  lemma {:induction false} BelowOfRising(marks: seq<nat>, limit: nat)
    requires forall i, j :: 0 <= i < j < |marks| ==> marks[i] < marks[j]
    ensures Below(marks, limit) <= marks
    ensures forall i :: 0 <= i < |marks| ==> (i < |Below(marks, limit)| <==> marks[i] < limit)
  {
    if marks != [] {
      var init := marks[..|marks| - 1];
      BelowOfRising(init, limit);
      assert forall i :: 0 <= i < |init| ==> init[i] == marks[i];
    }
  }

  /** Every piece holds at least its mask. */
  predicate Filled(pieces: seq<Tokens>) {
    forall k :: 0 <= k < |pieces| ==> pieces[k] != []
  }

  /** The places rise, so those below the limit are the first ones. */
  lemma PlacesBelow(start: nat, pieces: seq<Tokens>, limit: nat)
    requires Filled(pieces)
    ensures var places := Places(start, pieces, |pieces|);
            var kept := Below(places, limit);
            && kept <= places
            && (forall i, j :: 0 <= i < j < |kept| ==> kept[i] < kept[j])
            && (forall i {:trigger places[i]} :: 0 <= i < |pieces| ==> (i < |kept| <==> places[i] < limit))
  {
    var places := Places(start, pieces, |pieces|);
    forall i, j | 0 <= i < j < |places| ensures places[i] < places[j] {
      OffsetGrows(pieces, i, j);
    }
    BelowOfRising(places, limit);
  }

  /** `part` lies in `all` from place `o` on. */
  predicate LiesAt(all: Tokens, o: nat, part: Tokens) {
    o + |part| <= |all| && forall k :: 0 <= k < |part| ==> all[o + k] == part[k]
  }

  lemma {:induction false} FlatAt(pieces: seq<Tokens>, n: nat, k: nat)
    requires k < n <= |pieces|
    ensures LiesAt(Flat(pieces, n), Offset(pieces, k), pieces[k])
    decreases n
  {
    if k < n - 1 {
      FlatAt(pieces, n - 1, k);
    }
  }

  /** The text from `m` on is the piece, as far as the text goes; its first token is there. */
  predicate Shows(t: Tokens, m: nat, piece: Tokens) {
    && m < |t| && piece != []
    && forall k :: 0 <= k < |piece| && m + k < |t| ==> t[m + k] == piece[k]
  }

  lemma InnerShows(all: Tokens, o: nat, flat: Tokens, at: nat, piece: Tokens, limit: nat)
    requires LiesAt(all, o, flat) && LiesAt(flat, at, piece) && o + at < limit && piece != []
    ensures Shows(Cut(all, limit), o + at, piece)
  {
    forall k | 0 <= k < |piece| ensures all[o + at + k] == piece[k] {
      assert flat[at + k] == piece[k] && all[o + (at + k)] == flat[at + k];
    }
  }

  /** Piece `k` shows in the text at its place, as far as the limit lets it. */
  lemma PieceShows(all: Tokens, o: nat, pieces: seq<Tokens>, limit: nat, k: nat)
    requires LiesAt(all, o, Flat(pieces, |pieces|))
    requires k < |pieces| && o + Offset(pieces, k) < limit && pieces[k] != []
    ensures Shows(Cut(all, limit), o + Offset(pieces, k), pieces[k])
  {
    FlatAt(pieces, |pieces|, k);
    InnerShows(all, o, Flat(pieces, |pieces|), Offset(pieces, k), pieces[k], limit);
  }

  /** Markers that rise strictly, each at the mask its option starts with. */
  predicate WellMarked(meta: Meta, ids: Tokens, marks: seq<nat>, pieces: seq<Tokens>) {
    && |ids| <= meta.maxLen && |marks| <= |pieces|
    && (forall i, j :: 0 <= i < j < |marks| ==> marks[i] < marks[j])
    && (forall i :: 0 <= i < |marks| ==> MarksPiece(meta, ids, marks[i], pieces[i]))
  }

  predicate MarksPiece(meta: Meta, ids: Tokens, m: nat, piece: Tokens) {
    Shows(ids, m, piece) && ids[m] == meta.mask
  }

  /** `marks` are the places below the limit. */
  predicate Rising(start: nat, pieces: seq<Tokens>, limit: nat, marks: seq<nat>) {
    && |marks| <= |pieces|
    && (forall i, j :: 0 <= i < j < |marks| ==> marks[i] < marks[j])
    && (forall i {:trigger marks[i]} :: 0 <= i < |marks| ==> marks[i] == start + Offset(pieces, i) && marks[i] < limit)
  }

  lemma MarkersRise(start: nat, pieces: seq<Tokens>, limit: nat, marks: seq<nat>)
    requires Filled(pieces) && marks == Below(Places(start, pieces, |pieces|), limit)
    ensures Rising(start, pieces, limit, marks)
  {
    PlacesBelow(start, pieces, limit);
    var places := Places(start, pieces, |pieces|);
    forall i | 0 <= i < |marks| ensures marks[i] == start + Offset(pieces, i) && marks[i] < limit {
      assert marks[i] == places[i];
    }
  }

  lemma MarkedWell(meta: Meta, all: Tokens, o: nat, pieces: seq<Tokens>, ids: Tokens, marks: seq<nat>)
    requires Filled(pieces) && forall k :: 0 <= k < |pieces| ==> pieces[k][0] == meta.mask
    requires LiesAt(all, o, Flat(pieces, |pieces|)) && ids == Cut(all, meta.maxLen)
    requires Rising(o, pieces, meta.maxLen, marks)
    ensures WellMarked(meta, ids, marks, pieces)
  {
    forall i | 0 <= i < |marks| ensures MarksPiece(meta, ids, marks[i], pieces[i]) {
      MarkIsGood(meta, all, o, pieces, ids, marks[i], i);
    }
  }

  lemma MarkIsGood(meta: Meta, all: Tokens, o: nat, pieces: seq<Tokens>, ids: Tokens, m: nat, i: nat)
    requires i < |pieces| && pieces[i] != [] && pieces[i][0] == meta.mask
    requires LiesAt(all, o, Flat(pieces, |pieces|)) && ids == Cut(all, meta.maxLen)
    requires m == o + Offset(pieces, i) < meta.maxLen
    ensures MarksPiece(meta, ids, m, pieces[i])
  {
    PieceShows(all, o, pieces, meta.maxLen, i);
    assert ids[m + 0] == pieces[i][0];
  }

  lemma IdsAreCut(meta: Meta, head: Tokens, opts: seq<Tokens>, state: Tokens) returns (all: Tokens)
    ensures Ids(meta, head, opts, state) == Cut(all, meta.maxLen)
    ensures LiesAt(all, |Opening(meta, head, opts)|, Flat(Pieces(meta, opts), |opts|))
  {
    all := Body(meta, head, opts) + Cut(state, Room(meta, head, opts)) + [meta.sep];
    var o, f := Opening(meta, head, opts), Flat(Pieces(meta, opts), |opts|);
    assert all == o + f + ([meta.sep] + Cut(state, Room(meta, head, opts)) + [meta.sep]);
  }

  /**
   * The result fits the limit. Markers rise strictly and each points at a mask, and the option's piece lies there,
   * cut off only by the end of the sequence.
   */
  lemma AssembledIsWellFormed(meta: Meta, head: Tokens, opts: seq<Tokens>, state: Tokens)
    ensures WellMarked(meta, Ids(meta, head, opts, state), Markers(meta, head, opts), Pieces(meta, opts))
  {
    PiecesAreOptions(meta, opts);
    var open, pieces, marks := Opening(meta, head, opts), Pieces(meta, opts), Markers(meta, head, opts);
    MarkersRise(|open|, pieces, meta.maxLen, marks);
    var all := IdsAreCut(meta, head, opts, state);
    MarkedWell(meta, all, |open|, pieces, Ids(meta, head, opts, state), marks);
  }

  /** All markers survive exactly when the last option starts before the limit. */
  lemma AllSurviveIff(meta: Meta, head: Tokens, opts: seq<Tokens>)
    ensures |Markers(meta, head, opts)| == |opts|
       <==> (opts != [] ==> HeadLen(meta, head, opts) + 2 + Offset(Pieces(meta, opts), |opts| - 1) < meta.maxLen)
  {
    PiecesAreOptions(meta, opts);
    var pieces, start := Pieces(meta, opts), |Opening(meta, head, opts)|;
    PlacesBelow(start, pieces, meta.maxLen);
    assert opts != [] ==> Places(start, pieces, |pieces|)[|opts| - 1] == start + Offset(pieces, |opts| - 1);
  }

  /**
   * When the options in full leave 16 places of the head's limit, or 4 places an option do, and the model takes
   * 4 more tokens than that limit, every marker survives and the sequence closes with the separator.
   */
  lemma NothingIsCutOff(meta: Meta, head: Tokens, opts: seq<Tokens>, state: Tokens)
    requires Total(Masked(meta, opts)) <= meta.headMaxLen - 16 || 4 * |opts| <= meta.headMaxLen - 16
    requires meta.maxLen >= meta.headMaxLen + 4
    ensures var ids := Ids(meta, head, opts, state);
            && |Markers(meta, head, opts)| == |opts|
            && Body(meta, head, opts) <= ids && ids[|ids| - 1] == meta.sep
            && ids == Body(meta, head, opts) + Cut(state, meta.maxLen - |Body(meta, head, opts)| - 1) + [meta.sep]
  {
    HeadAndOptionsFit(meta, head, opts);
    PiecesAreOptions(meta, opts);
    AllSurviveIff(meta, head, opts);
    if opts != [] {
      OffsetGrows(Pieces(meta, opts), |opts| - 1, |opts|);
    }
    BodyAndStateFit(meta, Body(meta, head, opts), state);
  }

  lemma BodyAndStateFit(meta: Meta, body: Tokens, state: Tokens)
    requires |body| < meta.maxLen
    ensures var ids := Cut(body + Cut(state, Max(meta.maxLen - |body| - 1, 0)) + [meta.sep], meta.maxLen);
            && ids == body + Cut(state, meta.maxLen - |body| - 1) + [meta.sep]
            && body <= ids && ids[|ids| - 1] == meta.sep
  {
  }

  // ---------- The state ----------

  /** No more state than this can show: the sequence is the same for any two states with this much in common. */
  lemma OnlyThePrefixShows(meta: Meta, head: Tokens, opts: seq<Tokens>, state: Tokens, part: Tokens)
    requires part <= state && (part == state || |part| >= meta.maxLen - 4)
    ensures Ids(meta, head, opts, part) == Ids(meta, head, opts, state)
  {
    assert |Body(meta, head, opts)| >= 3;
    assert Cut(part, Room(meta, head, opts)) == Cut(state, Room(meta, head, opts));
  }

  // ---------- Masks ----------

  lemma {:induction false} FlatIsBetween(pieces: seq<Tokens>, n: nat, p: nat) returns (k: nat)
    requires n <= |pieces| && p < Offset(pieces, n)
    ensures k < n && Offset(pieces, k) <= p < Offset(pieces, k) + |pieces[k]|
    ensures Flat(pieces, n)[p] == pieces[k][p - Offset(pieces, k)]
  {
    if p < Offset(pieces, n - 1) {
      k := FlatIsBetween(pieces, n - 1, p);
    } else {
      k := n - 1;
    }
  }

  predicate Clean(meta: Meta, t: Tokens) {
    forall k :: 0 <= k < |t| ==> t[k] != meta.mask
  }

  /** A mask in the options is the first token of one of them. */
  lemma MaskStartsPiece(meta: Meta, opts: seq<Tokens>, k: nat, j: nat)
    requires k < |opts| && Clean(meta, opts[k]) && j < |Pieces(meta, opts)[k]| && Pieces(meta, opts)[k][j] == meta.mask
    ensures j == 0
  {
    PiecesAreOptions(meta, opts);
    var p, o := Pieces(meta, opts)[k], [meta.mask] + opts[k];
    assert p[j] == o[j];
  }

  /** If the texts hold no mask, the masks in the sequence are exactly the tokens the markers point at. */
  lemma MasksAreMarkers(meta: Meta, head: Tokens, opts: seq<Tokens>, state: Tokens, p: nat)
    requires Clean(meta, head) && Clean(meta, state) && meta.cls != meta.mask && meta.sep != meta.mask
    requires forall k :: 0 <= k < |opts| ==> Clean(meta, opts[k])
    requires p < |Ids(meta, head, opts, state)|
    ensures Ids(meta, head, opts, state)[p] == meta.mask <==> p in Markers(meta, head, opts)
  {
    AssembledIsWellFormed(meta, head, opts, state);
    if Ids(meta, head, opts, state)[p] == meta.mask {
      UnmarkedIsNoMask(meta, head, opts, state, p);
    }
  }

  lemma UnmarkedIsNoMask(meta: Meta, head: Tokens, opts: seq<Tokens>, state: Tokens, p: nat)
    requires Clean(meta, head) && Clean(meta, state) && meta.cls != meta.mask && meta.sep != meta.mask
    requires forall k :: 0 <= k < |opts| ==> Clean(meta, opts[k])
    requires p < |Ids(meta, head, opts, state)| && Ids(meta, head, opts, state)[p] == meta.mask
    ensures p in Markers(meta, head, opts)
  {
    MaskIsInOptions(meta, head, opts, state, p);
    var start, marks := |Opening(meta, head, opts)|, Markers(meta, head, opts);
    assert p < meta.maxLen;
    assert marks == Below(Places(start, Pieces(meta, opts), |Pieces(meta, opts)|), meta.maxLen);
    MaskIsMarked(meta, start, opts, Pieces(meta, opts), p, marks);
  }

  lemma PlaceIsMarked(start: nat, pieces: seq<Tokens>, limit: nat, k: nat) returns (kept: seq<nat>)
    requires Filled(pieces) && k < |pieces| && start + Offset(pieces, k) < limit
    ensures kept == Below(Places(start, pieces, |pieces|), limit)
    ensures k < |kept| && kept[k] == start + Offset(pieces, k)
  {
    PlacesBelow(start, pieces, limit);
    kept := Below(Places(start, pieces, |pieces|), limit);
    assert Places(start, pieces, |pieces|)[k] < limit;
  }

  /** A mask among the options is where one of them starts. */
  lemma MaskStartsOption(meta: Meta, opts: seq<Tokens>, pieces: seq<Tokens>, q: nat) returns (k: nat)
    requires pieces == Pieces(meta, opts) && forall k :: 0 <= k < |opts| ==> Clean(meta, opts[k])
    requires q < Total(pieces) && Flat(pieces, |pieces|)[q] == meta.mask
    ensures k < |pieces| && q == Offset(pieces, k)
  {
    k := FlatIsBetween(pieces, |pieces|, q);
    MaskStartsPiece(meta, opts, k, q - Offset(pieces, k));
  }

  lemma MaskIsMarked(meta: Meta, start: nat, opts: seq<Tokens>, pieces: seq<Tokens>, p: nat, marks: seq<nat>)
    requires pieces == Pieces(meta, opts) && forall k :: 0 <= k < |opts| ==> Clean(meta, opts[k])
    requires start <= p < start + Total(pieces) && p < meta.maxLen && Flat(pieces, |pieces|)[p - start] == meta.mask
    requires marks == Below(Places(start, pieces, |pieces|), meta.maxLen)
    ensures p in marks
  {
    var k := MaskStartsOption(meta, opts, pieces, p - start);
    PiecesAreOptions(meta, opts);
    var kept := PlaceIsMarked(start, pieces, meta.maxLen, k);
    assert kept[k] == p;
  }

  lemma MaskIsInOptions(meta: Meta, head: Tokens, opts: seq<Tokens>, state: Tokens, p: nat)
    requires Clean(meta, head) && Clean(meta, state) && meta.cls != meta.mask && meta.sep != meta.mask
    requires p < |Ids(meta, head, opts, state)| && Ids(meta, head, opts, state)[p] == meta.mask
    ensures var start, pieces := |Opening(meta, head, opts)|, Pieces(meta, opts);
            && start <= p < start + Total(pieces)
            && Flat(pieces, |pieces|)[p - start] == meta.mask
  {
    var o, pieces := Opening(meta, head, opts), Pieces(meta, opts);
    var f, t := Flat(pieces, |pieces|), Cut(state, Room(meta, head, opts));
    var all := o + f + [meta.sep] + t + [meta.sep];
    assert all[p] == meta.mask;
    OpeningIsClean(meta, head, opts);
    CutIsClean(meta, state, Room(meta, head, opts));
    OnlyBetween(meta, o, f, t);
    assert |o| <= p < |o| + |f|;
  }

  lemma OpeningIsClean(meta: Meta, head: Tokens, opts: seq<Tokens>)
    requires Clean(meta, head) && meta.cls != meta.mask && meta.sep != meta.mask
    ensures Clean(meta, Opening(meta, head, opts))
  {
    var o := Opening(meta, head, opts);
    assert forall k :: 0 < k < |o| - 1 ==> o[k] == head[k - 1];
  }

  lemma CutIsClean(meta: Meta, t: Tokens, n: int)
    requires Clean(meta, t)
    ensures Clean(meta, Cut(t, n))
  {
  }

  /** Masks are only in the middle part. */
  lemma OnlyBetween(meta: Meta, o: Tokens, f: Tokens, t: Tokens)
    requires Clean(meta, o) && Clean(meta, t) && meta.sep != meta.mask
    ensures var all := o + f + [meta.sep] + t + [meta.sep];
            forall p :: 0 <= p < |all| && all[p] == meta.mask ==> |o| <= p < |o| + |f| && f[p - |o|] == meta.mask
  {
    var all := o + f + [meta.sep] + t + [meta.sep];
    forall p | 0 <= p < |all|
      ensures all[p] == meta.mask ==> |o| <= p < |o| + |f| && f[p - |o|] == meta.mask
    {
      if p < |o| {
        assert all[p] == o[p];
      } else if p < |o| + |f| {
        assert all[p] == f[p - |o|];
      } else if |o| + |f| < p < |all| - 1 {
        assert all[p] == t[p - |o| - |f| - 1];
      }
    }
  }

  // ---------- The layout by position ----------

  /**
   * How the places are given out: the head's length, the most an option may take if all are cut, and for the options
   * in full and as kept, each with its mask, the running totals of their lengths.
   */
  datatype Plan = Plan(headLen: nat, share: nat, full: seq<nat>, kept: seq<nat>)

  /**
   * An option takes its mask and at most 48 tokens. If all leave 16 places of the head's limit they are kept; else
   * each keeps its share of what is below those 16, and at least 4. The head takes what is left, and at least 8.
   */
  predicate Planned(meta: Meta, head: Tokens, opts: seq<Tokens>, plan: Plan) {
    && |plan.full| == |plan.kept| == |opts| + 1 && plan.full[0] == plan.kept[0] == 0
    && FullTotals(opts, plan.full)
    && (opts != [] ==> IsShare(meta.headMaxLen - 16, |opts|, plan.share))
    && KeptTotals(plan, plan.full[|opts|] + 16 <= meta.headMaxLen)
    && plan.headLen == HeadTakes(meta.headMaxLen - plan.kept[|opts|], |head|)
  }

  predicate FullTotals(opts: seq<Tokens>, full: seq<nat>)
    requires |full| == |opts| + 1
  {
    forall k :: 0 <= k < |opts| ==> full[k + 1] == full[k] + 1 + (if |opts[k]| < 48 then |opts[k]| else 48)
  }

  /** The larger of 4 and what `places` give to each of `n`. */
  predicate IsShare(places: int, n: nat, share: nat) {
    share >= 4 && (share > 4 ==> n * share <= places) && n * (share + 1) > places
  }

  predicate KeptTotals(plan: Plan, allFit: bool)
    requires |plan.full| == |plan.kept|
  {
    forall k :: 0 <= k < |plan.full| - 1 ==>
      if allFit || plan.full[k + 1] <= plan.full[k] + plan.share
      then plan.kept[k + 1] + plan.full[k] == plan.kept[k] + plan.full[k + 1]
      else plan.kept[k + 1] == plan.kept[k] + plan.share
  }

  function HeadTakes(left: int, len: nat): nat {
    if left >= 8 then if len <= left then len else left else if len <= 8 then len else 8
  }

  /** Where the k-th option's mask goes; for the last `k`, where the separator after the options goes. */
  function StartOf(plan: Plan, k: nat): nat
    requires k < |plan.kept|
  {
    2 + plan.headLen + plan.kept[k]
  }

  /** As much state as leaves a place for the separator after it. */
  function Shown(meta: Meta, plan: Plan, state: Tokens): nat
    requires plan.kept != []
  {
    var e := StartOf(plan, |plan.kept| - 1);
    if e + 2 + |state| <= meta.maxLen then |state| else if e + 2 <= meta.maxLen then meta.maxLen - e - 2 else 0
  }

  /** A token at a place, unless the sequence ends before it. */
  predicate Has(ids: Tokens, p: nat, t: nat) {
    p < |ids| ==> ids[p] == t
  }

  /** Class token, head, separator, the options each behind its mask, separator, state, separator; cut at the limit. */
  predicate Follows(meta: Meta, head: Tokens, opts: seq<Tokens>, state: Tokens, plan: Plan, ids: Tokens) {
    && |plan.kept| == |opts| + 1 && plan.headLen <= |head|
    && var e, shown := StartOf(plan, |opts|), Shown(meta, plan, state);
       && shown <= |state|
       && |ids| == (if e + 2 + shown <= meta.maxLen then e + 2 + shown else meta.maxLen)
       && ShowsHead(meta, head, plan.headLen, ids)
       && (forall k :: 0 <= k < |opts| ==> ShowsOption(meta, opts[k], plan, k, ids))
       && ShowsState(meta, state, e, shown, ids)
  }

  predicate ShowsHead(meta: Meta, head: Tokens, headLen: nat, ids: Tokens)
    requires headLen <= |head|
  {
    && Has(ids, 0, meta.cls) && Has(ids, 1 + headLen, meta.sep)
    && forall j :: 0 <= j < headLen ==> Has(ids, 1 + j, head[j])
  }

  predicate ShowsState(meta: Meta, state: Tokens, e: nat, shown: nat, ids: Tokens)
    requires shown <= |state|
  {
    && Has(ids, e, meta.sep) && Has(ids, e + 1 + shown, meta.sep)
    && forall j :: 0 <= j < shown ==> Has(ids, e + 1 + j, state[j])
  }

  predicate ShowsOption(meta: Meta, opt: Tokens, plan: Plan, k: nat, ids: Tokens) {
    && k + 1 < |plan.kept| && plan.kept[k] < plan.kept[k + 1] <= plan.kept[k] + 1 + |opt|
    && Has(ids, StartOf(plan, k), meta.mask)
    && forall j :: 0 <= j < plan.kept[k + 1] - plan.kept[k] - 1 ==> Has(ids, StartOf(plan, k) + 1 + j, opt[j])
  }

  /** The markers are the options' places below the limit. */
  predicate MarksStarts(meta: Meta, plan: Plan, n: nat, markers: seq<nat>) {
    && |markers| <= n < |plan.kept|
    && (forall k :: 0 <= k < |markers| ==> markers[k] == StartOf(plan, k) < meta.maxLen)
    && (|markers| < n ==> StartOf(plan, |markers|) >= meta.maxLen)
  }

  ghost predicate LaidOut(meta: Meta, head: Tokens, opts: seq<Tokens>, state: Tokens, ids: Tokens, markers: seq<nat>) {
    exists plan :: Planned(meta, head, opts, plan) && Follows(meta, head, opts, state, plan, ids)
                   && MarksStarts(meta, plan, |opts|, markers)
  }

  predicate AreOffsets(pieces: seq<Tokens>, sums: seq<nat>) {
    |sums| == |pieces| + 1 && forall k :: 0 <= k <= |pieces| ==> sums[k] == Offset(pieces, k)
  }

  function Offsets(pieces: seq<Tokens>): (sums: seq<nat>)
    ensures AreOffsets(pieces, sums)
  {
    seq(|pieces| + 1, k requires 0 <= k <= |pieces| => Offset(pieces, k))
  }

  /** The places the algorithm gives out. */
  function PlanOf(meta: Meta, head: Tokens, opts: seq<Tokens>): (plan: Plan)
    ensures plan.headLen == HeadLen(meta, head, opts)
    ensures AreOffsets(Masked(meta, opts), plan.full) && AreOffsets(Pieces(meta, opts), plan.kept)
  {
    Plan(HeadLen(meta, head, opts), if PerOption(meta, |opts|) < 0 then 0 else PerOption(meta, |opts|),
         Offsets(Masked(meta, opts)), Offsets(Pieces(meta, opts)))
  }

  lemma ShareIsEven(places: int, n: nat)
    requires n > 0
    ensures IsShare(places, n, Max(4, places / n))
  {
    var q := places / n;
    assert places == n * q + places % n;
    if q < 4 {
      MulMonotone(q + 1, 5, n);
    }
  }

  lemma PlanIsPlanned(meta: Meta, head: Tokens, opts: seq<Tokens>)
    ensures Planned(meta, head, opts, PlanOf(meta, head, opts))
  {
    var plan := PlanOf(meta, head, opts);
    if opts != [] {
      ShareOfPlan(meta, head, opts);
    }
    FullIsTotal(meta, opts, plan.full);
    KeptIsTotal(meta, head, opts);
    HeadOfPlan(meta, head, opts);
  }

  lemma ShareOfPlan(meta: Meta, head: Tokens, opts: seq<Tokens>)
    requires opts != []
    ensures IsShare(meta.headMaxLen - 16, |opts|, PlanOf(meta, head, opts).share)
  {
    ShareIsEven(meta.headMaxLen - 16, |opts|);
    assert Max(|opts|, 1) == |opts|;
  }

  lemma HeadOfPlan(meta: Meta, head: Tokens, opts: seq<Tokens>)
    ensures var plan := PlanOf(meta, head, opts); plan.headLen == HeadTakes(meta.headMaxLen - plan.kept[|opts|], |head|)
  {
    var left := meta.headMaxLen - Total(Pieces(meta, opts));
    HeadIsTaken(left, |head|);
    assert HeadLen(meta, head, opts) == Min(Max(8, left), |head|);
  }

  lemma HeadIsTaken(left: int, len: nat)
    ensures Min(Max(8, left), len) == HeadTakes(left, len)
  {
  }

  lemma TotalsAreOffsets(pieces: seq<Tokens>, sums: seq<nat>)
    requires AreOffsets(pieces, sums)
    ensures sums[0] == 0 && forall k :: 0 <= k < |pieces| ==> sums[k + 1] == sums[k] + |pieces[k]|
  {
  }

  lemma FullIsTotal(meta: Meta, opts: seq<Tokens>, full: seq<nat>)
    requires AreOffsets(Masked(meta, opts), full)
    ensures full[0] == 0 && FullTotals(opts, full)
  {
    var masked := Masked(meta, opts);
    TotalsAreOffsets(masked, full);
    forall k | 0 <= k < |opts| ensures full[k + 1] == full[k] + 1 + (if |opts[k]| < 48 then |opts[k]| else 48) {
      assert full[k + 1] == full[k] + |masked[k]|;
      MaskedLength(meta, opts, k);
    }
  }

  lemma MaskedLength(meta: Meta, opts: seq<Tokens>, k: nat)
    requires k < |opts|
    ensures |Masked(meta, opts)[k]| == 1 + (if |opts[k]| < 48 then |opts[k]| else 48)
  {
  }

  lemma KeptIsTotal(meta: Meta, head: Tokens, opts: seq<Tokens>)
    ensures var plan := PlanOf(meta, head, opts);
            plan.kept[0] == 0 && KeptTotals(plan, plan.full[|opts|] + 16 <= meta.headMaxLen)
  {
    var plan, masked, pieces := PlanOf(meta, head, opts), Masked(meta, opts), Pieces(meta, opts);
    var allFit := plan.full[|opts|] + 16 <= meta.headMaxLen;
    TotalsAreOffsets(masked, plan.full);
    TotalsAreOffsets(pieces, plan.kept);
    assert plan.full[|opts|] == Total(masked);
    KeptAsShared(masked, pieces, plan, PerOption(meta, |opts|), allFit) by {
      forall k | 0 <= k < |opts| ensures |pieces[k]| == if allFit || |masked[k]| <= plan.share then |masked[k]| else plan.share {
        PieceLength(meta, opts, k);
      }
    }
  }

  lemma KeptAsShared(masked: seq<Tokens>, pieces: seq<Tokens>, plan: Plan, share: int, allFit: bool)
    requires |plan.full| == |plan.kept| == |masked| + 1 == |pieces| + 1 && share == plan.share
    requires forall k :: 0 <= k < |masked| ==> plan.full[k + 1] == plan.full[k] + |masked[k]|
    requires forall k :: 0 <= k < |pieces| ==> plan.kept[k + 1] == plan.kept[k] + |pieces[k]|
    requires forall k :: 0 <= k < |pieces| ==> |pieces[k]| == if allFit || |masked[k]| <= plan.share then |masked[k]| else plan.share
    ensures KeptTotals(plan, allFit)
  {
  }

  lemma PieceLength(meta: Meta, opts: seq<Tokens>, k: nat)
    requires k < |opts|
    ensures var masked, share := Masked(meta, opts), PerOption(meta, |opts|);
            |Pieces(meta, opts)[k]|
            == if Total(masked) + 16 <= meta.headMaxLen || |masked[k]| <= share then |masked[k]| else share
  {
  }

  /** All that is laid end to end, before the cut at the limit. */
  function Uncut(meta: Meta, head: Tokens, opts: seq<Tokens>, state: Tokens): Tokens {
    Body(meta, head, opts) + Cut(state, Room(meta, head, opts)) + [meta.sep]
  }

  /** Opening, options and the rest, end to end. */
  lemma UncutParts(meta: Meta, head: Tokens, opts: seq<Tokens>, state: Tokens) returns (rest: Tokens)
    ensures Uncut(meta, head, opts, state) == Opening(meta, head, opts) + Flat(Pieces(meta, opts), |opts|) + rest
  {
    rest := [meta.sep] + Cut(state, Room(meta, head, opts)) + [meta.sep];
    ThreeParts(Opening(meta, head, opts), Flat(Pieces(meta, opts), |opts|), [meta.sep], Cut(state, Room(meta, head, opts)), [meta.sep]);
  }

  lemma ThreeParts(a: Tokens, b: Tokens, c: Tokens, d: Tokens, e: Tokens)
    ensures a + b + c + d + e == a + b + (c + d + e)
  {
  }

  lemma UncutOpens(meta: Meta, head: Tokens, opts: seq<Tokens>, state: Tokens)
    ensures var all, h := Uncut(meta, head, opts, state), HeadLen(meta, head, opts);
            ShowsHead(meta, head, h, all)
  {
    var rest := UncutParts(meta, head, opts, state);
    OpensWithHead(meta, head, HeadLen(meta, head, opts), Flat(Pieces(meta, opts), |opts|), rest);
  }

  lemma OpensWithHead(meta: Meta, head: Tokens, h: nat, f: Tokens, rest: Tokens)
    requires h <= |head|
    ensures ShowsHead(meta, head, h, [meta.cls] + head[..h] + [meta.sep] + f + rest)
  {
  }

  lemma UncutOptions(meta: Meta, head: Tokens, opts: seq<Tokens>, state: Tokens, k: nat)
    requires k < |opts|
    ensures LiesAt(Uncut(meta, head, opts, state), StartOf(PlanOf(meta, head, opts), k), Pieces(meta, opts)[k])
  {
    var rest := UncutParts(meta, head, opts, state);
    FlatAt(Pieces(meta, opts), |opts|, k);
    LiesInside(Opening(meta, head, opts), Flat(Pieces(meta, opts), |opts|), rest, Offset(Pieces(meta, opts), k), Pieces(meta, opts)[k]);
  }

  lemma LiesInside(o: Tokens, f: Tokens, rest: Tokens, at: nat, piece: Tokens)
    requires LiesAt(f, at, piece)
    ensures LiesAt(o + f + rest, |o| + at, piece)
  {
    forall j | 0 <= j < |piece| ensures (o + f + rest)[|o| + at + j] == piece[j] {
      assert (o + f + rest)[|o| + (at + j)] == f[at + j];
    }
  }

  lemma UncutCloses(meta: Meta, head: Tokens, opts: seq<Tokens>, state: Tokens)
    ensures var all, plan := Uncut(meta, head, opts, state), PlanOf(meta, head, opts);
            var e, shown := StartOf(plan, |opts|), Shown(meta, plan, state);
            |all| == e + 2 + shown && shown <= |state| && ShowsState(meta, state, e, shown, all)
  {
    var all, plan, b := Uncut(meta, head, opts, state), PlanOf(meta, head, opts), Body(meta, head, opts);
    var t := Cut(state, Room(meta, head, opts));
    assert |b| == StartOf(plan, |opts|) + 1 && |t| == Shown(meta, plan, state);
    assert all[|b| - 1] == b[|b| - 1];
    forall j | 0 <= j < |t| ensures all[|b| + j] == state[j] {
      assert all[|b| + j] == t[j];
    }
  }

  lemma AssembledFollows(meta: Meta, head: Tokens, opts: seq<Tokens>, state: Tokens)
    ensures Follows(meta, head, opts, state, PlanOf(meta, head, opts), Ids(meta, head, opts, state))
  {
    var all, plan := Uncut(meta, head, opts, state), PlanOf(meta, head, opts);
    UncutOpens(meta, head, opts, state);
    UncutCloses(meta, head, opts, state);
    forall k | 0 <= k < |opts| ensures ShowsOption(meta, opts[k], plan, k, Cut(all, meta.maxLen)) {
      OptionIsShown(meta, head, opts, state, k);
    }
    CutFollows(meta, head, opts, state, plan, all);
  }

  lemma CutFollows(meta: Meta, head: Tokens, opts: seq<Tokens>, state: Tokens, plan: Plan, all: Tokens)
    requires |plan.kept| == |opts| + 1 && plan.headLen <= |head| && Shown(meta, plan, state) <= |state|
    requires ShowsHead(meta, head, plan.headLen, all) && |all| == StartOf(plan, |opts|) + 2 + Shown(meta, plan, state)
    requires ShowsState(meta, state, StartOf(plan, |opts|), Shown(meta, plan, state), all)
    requires forall k :: 0 <= k < |opts| ==> ShowsOption(meta, opts[k], plan, k, Cut(all, meta.maxLen))
    ensures Follows(meta, head, opts, state, plan, Cut(all, meta.maxLen))
  {
    CutShowsHead(meta, head, plan.headLen, all);
    CutShowsState(meta, state, StartOf(plan, |opts|), Shown(meta, plan, state), all);
  }

  lemma CutShowsHead(meta: Meta, head: Tokens, headLen: nat, all: Tokens)
    requires headLen <= |head| && ShowsHead(meta, head, headLen, all)
    ensures ShowsHead(meta, head, headLen, Cut(all, meta.maxLen))
  {
  }

  lemma CutShowsState(meta: Meta, state: Tokens, e: nat, shown: nat, all: Tokens)
    requires shown <= |state| && ShowsState(meta, state, e, shown, all)
    ensures ShowsState(meta, state, e, shown, Cut(all, meta.maxLen))
  {
  }

  lemma OptionIsShown(meta: Meta, head: Tokens, opts: seq<Tokens>, state: Tokens, k: nat)
    requires k < |opts|
    ensures ShowsOption(meta, opts[k], PlanOf(meta, head, opts), k, Ids(meta, head, opts, state))
  {
    var all, plan := Uncut(meta, head, opts, state), PlanOf(meta, head, opts);
    PiecesAreOptions(meta, opts);
    UncutOptions(meta, head, opts, state, k);
    TotalsAreOffsets(Pieces(meta, opts), plan.kept);
    PieceIsShown(meta, opts[k], plan, k, all, Pieces(meta, opts)[k]);
  }

  lemma PieceIsShown(meta: Meta, opt: Tokens, plan: Plan, k: nat, all: Tokens, piece: Tokens)
    requires k + 1 < |plan.kept| && plan.kept[k + 1] == plan.kept[k] + |piece|
    requires piece != [] && piece[0] == meta.mask && piece <= [meta.mask] + opt && LiesAt(all, StartOf(plan, k), piece)
    ensures ShowsOption(meta, opt, plan, k, Cut(all, meta.maxLen))
  {
    var s := StartOf(plan, k);
    assert all[s + 0] == piece[0];
    forall j | 0 <= j < |piece| - 1 ensures Has(Cut(all, meta.maxLen), s + 1 + j, opt[j]) {
      assert all[s + (1 + j)] == piece[1 + j] == ([meta.mask] + opt)[1 + j];
    }
  }

  lemma MarkersAreStarts(meta: Meta, head: Tokens, opts: seq<Tokens>)
    ensures MarksStarts(meta, PlanOf(meta, head, opts), |opts|, Markers(meta, head, opts))
  {
    var plan, pieces, start := PlanOf(meta, head, opts), Pieces(meta, opts), |Opening(meta, head, opts)|;
    PiecesAreOptions(meta, opts);
    PlacesBelow(start, pieces, meta.maxLen);
    assert start == 2 + plan.headLen;
    PlacesAreStarts(meta, plan, start, pieces, Places(start, pieces, |pieces|), Markers(meta, head, opts));
  }

  lemma PlacesAreStarts(meta: Meta, plan: Plan, start: nat, pieces: seq<Tokens>, places: seq<nat>, kept: seq<nat>)
    requires AreOffsets(pieces, plan.kept) && start == 2 + plan.headLen && places == Places(start, pieces, |pieces|)
    requires kept <= places && forall i {:trigger places[i]} :: 0 <= i < |pieces| ==> (i < |kept| <==> places[i] < meta.maxLen)
    ensures MarksStarts(meta, plan, |pieces|, kept)
  {
    forall k | 0 <= k < |pieces| ensures places[k] == StartOf(plan, k) {
    }
    assert forall k :: 0 <= k < |kept| ==> kept[k] == places[k];
  }

  /** What is assembled is laid out as planned. */
  lemma AssembledIsLaidOut(meta: Meta, head: Tokens, opts: seq<Tokens>, state: Tokens)
    ensures LaidOut(meta, head, opts, state, Ids(meta, head, opts, state), Markers(meta, head, opts))
  {
    PlanIsPlanned(meta, head, opts);
    AssembledFollows(meta, head, opts, state);
    MarkersAreStarts(meta, head, opts);
  }

  // ---------- There is one such layout ----------

  lemma {:induction false} TotalsAgree(a: seq<nat>, b: seq<nat>, n: nat)
    requires n < |a| == |b| && a[0] == b[0]
    requires forall k :: 0 <= k < n ==> a[k] == b[k] ==> a[k + 1] == b[k + 1]
    ensures forall k :: 0 <= k <= n ==> a[k] == b[k]
  {
    if n > 0 {
      TotalsAgree(a, b, n - 1);
      var k := n - 1;
      assert a[k] == b[k] && a[k + 1] == b[k + 1];
    }
  }

  lemma ShareIsOne(places: int, n: nat, a: nat, b: nat)
    requires n > 0 && IsShare(places, n, a) && IsShare(places, n, b)
    ensures a == b
  {
    if a < b {
      MulMonotone(a + 1, b, n);
    } else if b < a {
      MulMonotone(b + 1, a, n);
    }
  }

  lemma PlansAgree(meta: Meta, head: Tokens, opts: seq<Tokens>, a: Plan, b: Plan)
    requires Planned(meta, head, opts, a) && Planned(meta, head, opts, b)
    ensures a.headLen == b.headLen && a.kept == b.kept
  {
    TotalsAgree(a.full, b.full, |opts|);
    if opts != [] {
      ShareIsOne(meta.headMaxLen - 16, |opts|, a.share, b.share);
    }
    KeptAgree(a, b, |opts|, a.full[|opts|] + 16 <= meta.headMaxLen);
  }

  lemma KeptAgree(a: Plan, b: Plan, n: nat, allFit: bool)
    requires |a.full| == |a.kept| == |b.full| == |b.kept| == n + 1 && a.kept[0] == b.kept[0]
    requires (forall k :: 0 <= k <= n ==> a.full[k] == b.full[k]) && (n > 0 ==> a.share == b.share)
    requires KeptTotals(a, allFit) && KeptTotals(b, allFit)
    ensures a.kept == b.kept
  {
    forall k | 0 <= k < n && a.kept[k] == b.kept[k] ensures a.kept[k + 1] == b.kept[k + 1] {
    }
    TotalsAgree(a.kept, b.kept, n);
  }

  /** The option a place among the options belongs to. */
  lemma {:induction false} OptionAt(kept: seq<nat>, n: nat, q: nat) returns (k: nat)
    requires n < |kept| && kept[0] == 0 && q < kept[n]
    ensures k < n && kept[k] <= q < kept[k + 1]
  {
    if q < kept[n - 1] {
      k := OptionAt(kept, n - 1, q);
    } else {
      k := n - 1;
    }
  }

  /** Every place below the limit is spoken for. */
  lemma PlaceAgrees(meta: Meta, head: Tokens, opts: seq<Tokens>, state: Tokens, plan: Plan, a: Tokens, b: Tokens, p: nat)
    requires Follows(meta, head, opts, state, plan, a) && Follows(meta, head, opts, state, plan, b)
    requires plan.kept[0] == 0 && p < |a| && p < |b|
    ensures a[p] == b[p]
  {
    var e, h := StartOf(plan, |opts|), plan.headLen;
    if 1 <= p < 1 + h {
      assert Has(a, 1 + (p - 1), head[p - 1]) && Has(b, 1 + (p - 1), head[p - 1]);
    } else if 2 + h <= p < e {
      var k := OptionAt(plan.kept, |opts|, p - 2 - h);
      assert ShowsOption(meta, opts[k], plan, k, a) && ShowsOption(meta, opts[k], plan, k, b);
      var j := p - StartOf(plan, k);
      assert j > 0 ==> Has(a, StartOf(plan, k) + 1 + (j - 1), opts[k][j - 1]) && Has(b, StartOf(plan, k) + 1 + (j - 1), opts[k][j - 1]);
    } else if e < p < e + 1 + Shown(meta, plan, state) {
      var j := p - e - 1;
      assert Has(a, e + 1 + j, state[j]) && Has(b, e + 1 + j, state[j]);
    }
  }

  /** The layout determines the tokens and the markers. */
  lemma LaidOutIsOne(meta: Meta, head: Tokens, opts: seq<Tokens>, state: Tokens, a: Tokens, b: Tokens, x: seq<nat>, y: seq<nat>)
    requires LaidOut(meta, head, opts, state, a, x) && LaidOut(meta, head, opts, state, b, y)
    ensures a == b && x == y
  {
    var p :| Planned(meta, head, opts, p) && Follows(meta, head, opts, state, p, a) && MarksStarts(meta, p, |opts|, x);
    var q :| Planned(meta, head, opts, q) && Follows(meta, head, opts, state, q, b) && MarksStarts(meta, q, |opts|, y);
    PlansAgree(meta, head, opts, p, q);
    SamePlanFollows(meta, head, opts, state, p, q, b);
    assert |a| == |b|;
    forall i | 0 <= i < |a| ensures a[i] == b[i] {
      PlaceAgrees(meta, head, opts, state, p, a, b, i);
    }
    MarksAgree(meta, p, q, |opts|, x, y);
  }

  lemma SamePlanFollows(meta: Meta, head: Tokens, opts: seq<Tokens>, state: Tokens, p: Plan, q: Plan, ids: Tokens)
    requires Follows(meta, head, opts, state, q, ids) && p.headLen == q.headLen && p.kept == q.kept
    ensures Follows(meta, head, opts, state, p, ids)
  {
    forall k | 0 <= k < |opts| ensures ShowsOption(meta, opts[k], p, k, ids) {
      assert ShowsOption(meta, opts[k], q, k, ids);
    }
  }

  lemma MarksAgree(meta: Meta, p: Plan, q: Plan, n: nat, x: seq<nat>, y: seq<nat>)
    requires MarksStarts(meta, p, n, x) && MarksStarts(meta, q, n, y) && p.headLen == q.headLen && p.kept == q.kept
    ensures x == y
  {
    assert forall k :: 0 <= k < |p.kept| ==> StartOf(p, k) == StartOf(q, k);
  }
}
