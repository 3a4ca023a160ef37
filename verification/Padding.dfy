/** Packing a batch into flat row-major tensors and reading the rows of the model's output back. */
module Padding {
  import opened Types

  // ---------- Rows in a flat buffer ----------

  function Longest(rows: seq<seq<nat>>): (w: nat)
    ensures forall i :: 0 <= i < |rows| ==> |rows[i]| <= w
    ensures w > 0 ==> exists i :: 0 <= i < |rows| && |rows[i]| == w
  {
    if rows == [] then 0
    else
      var w := Longest(rows[..|rows| - 1]);
      assert forall i :: 0 <= i < |rows| - 1 ==> rows[i] == rows[..|rows| - 1][i];
      if w < |rows[|rows| - 1]| then |rows[|rows| - 1]| else w
  }

  /** Rows of width `w`: values where `marks` is false, ones where it is true; `pad` elsewhere. */
  function CellOf(rows: seq<seq<nat>>, w: nat, pad: int, marks: bool, c: nat): int
    requires c < |rows| * w
  {
    InRows(|rows|, w, c);
    var row, j := rows[c / w], c % w;
    if j < |row| then if marks then 1 else row[j] else pad
  }

  lemma InRows(n: nat, w: nat, c: nat)
    requires c < n * w
    ensures w > 0 && c / w < n && c == (c / w) * w + c % w
  {
    if w > 0 {
      MulMonotone(n, c / w, w);
    }
  }

  function Packed(rows: seq<seq<nat>>, w: nat, pad: int, marks: bool): (r: seq<int>)
    ensures |r| == |rows| * w
  {
    seq(|rows| * w, c requires 0 <= c < |rows| * w => CellOf(rows, w, pad, marks, c))
  }

  /** Cell (i, j) is cell i * w + j of the buffer. */
  lemma PlaceOf(n: nat, w: nat, i: nat, j: nat)
    requires i < n && j < w
    ensures i * w + j < (i + 1) * w <= n * w
    ensures (i * w + j) / w == i && (i * w + j) % w == j
  {
    assert (i + 1) * w <= n * w;
    DivMod(i * w + j, w, i, j);
  }

  lemma DivMod(c: nat, w: nat, i: nat, j: nat)
    requires c == i * w + j && j < w
    ensures c / w == i && c % w == j
  {
    var q := c / w;
    assert c == q * w + c % w;
    MulMonotone(q + 1, i, w);
    MulMonotone(i + 1, q, w);
  }

  /** Cells of different rows or columns are different places. */
  lemma CellsApart(w: nat, i: nat, j: nat, i': nat, j': nat)
    requires j < w && j' < w && i * w + j == i' * w + j'
    ensures i == i' && j == j'
  {
    DivMod(i * w + j, w, i, j);
    DivMod(i * w + j, w, i', j');
  }

  // ---------- The algorithm ----------

  datatype Batch = Batch(padId: nat, items: seq<Encoded>)

  datatype Padded = Padded(b: nat, l: nat, k: nat, inputIds: array<int>, attentionMask: array<int>, typeIds: seq<int>,
                           markerPos: array<int>, markerMask: array<int>)

  function IdRows(items: seq<Encoded>): (r: seq<seq<nat>>)
    ensures |r| == |items| && forall i :: 0 <= i < |items| ==> r[i] == items[i].ids
  {
    seq(|items|, i requires 0 <= i < |items| => items[i].ids)
  }

  function MarkerRows(items: seq<Encoded>): (r: seq<seq<nat>>)
    ensures |r| == |items| && forall i :: 0 <= i < |items| ==> r[i] == items[i].markers
  {
    seq(|items|, i requires 0 <= i < |items| => items[i].markers)
  }

  /** The first `n` rows are filled in and the others still hold the pad. */
  ghost predicate FilledTo(cells: seq<int>, rows: seq<seq<nat>>, n: nat, w: nat, pad: int, marks: bool) {
    && |cells| == |rows| * w
    && forall c :: 0 <= c < |cells| ==> cells[c] == if c < n * w then CellOf(rows, w, pad, marks, c) else pad
  }

  lemma Complete(cells: seq<int>, rows: seq<seq<nat>>, w: nat, pad: int, marks: bool)
    requires FilledTo(cells, rows, |rows|, w, pad, marks)
    ensures cells == Packed(rows, w, pad, marks)
  {
  }

  /** Row by row, `w` cells each: the row's values and then the pad. */
  ghost predicate Holds(cells: seq<int>, rows: seq<seq<nat>>, w: nat, pad: int) {
    && |cells| == |rows| * w
    && forall i, j :: 0 <= i < |rows| && 0 <= j < w ==> ValueAt(cells, rows, w, pad, i, j)
  }

  predicate ValueAt(cells: seq<int>, rows: seq<seq<nat>>, w: nat, pad: int, i: nat, j: nat)
    requires i < |rows|
  {
    i * w + j < |cells| && cells[i * w + j] == if j < |rows[i]| then rows[i][j] else pad
  }

  /** Row by row, a one for each of the row's values and zeros after. */
  ghost predicate Masks(cells: seq<int>, rows: seq<seq<nat>>, w: nat) {
    && |cells| == |rows| * w
    && forall i, j :: 0 <= i < |rows| && 0 <= j < w ==> MaskAt(cells, rows, w, i, j)
  }

  predicate MaskAt(cells: seq<int>, rows: seq<seq<nat>>, w: nat, i: nat, j: nat)
    requires i < |rows|
  {
    i * w + j < |cells| && cells[i * w + j] == if j < |rows[i]| then 1 else 0
  }

  /** As wide as the longest row, and no wider. */
  predicate Widest(rows: seq<seq<nat>>, w: nat) {
    && (forall i :: 0 <= i < |rows| ==> |rows[i]| <= w)
    && (w > 0 ==> exists i :: 0 <= i < |rows| && |rows[i]| == w)
  }

  lemma PackedHolds(rows: seq<seq<nat>>, w: nat, pad: int)
    ensures Holds(Packed(rows, w, pad, false), rows, w, pad)
  {
    forall i, j | 0 <= i < |rows| && 0 <= j < w ensures ValueAt(Packed(rows, w, pad, false), rows, w, pad, i, j) {
      CellAt(rows, w, pad, false, i, j);
    }
  }

  lemma PackedMasks(rows: seq<seq<nat>>, w: nat)
    ensures Masks(Packed(rows, w, 0, true), rows, w)
  {
    forall i, j | 0 <= i < |rows| && 0 <= j < w ensures MaskAt(Packed(rows, w, 0, true), rows, w, i, j) {
      CellAt(rows, w, 0, true, i, j);
    }
  }

  lemma PackedIsLaidOut(rows: seq<seq<nat>>, w: nat, pad: int)
    ensures Holds(Packed(rows, w, pad, false), rows, w, pad) && Masks(Packed(rows, w, 0, true), rows, w)
  {
    PackedHolds(rows, w, pad);
    PackedMasks(rows, w);
  }

  method Pad(batch: Batch) returns (p: Padded)
    ensures var ids, marks := IdRows(batch.items), MarkerRows(batch.items);
            && p.b == |batch.items| && p.l == Longest(ids) && p.k == Longest(marks)
            && p.inputIds[..] == Packed(ids, p.l, batch.padId, false) && p.attentionMask[..] == Packed(ids, p.l, 0, true)
            && p.markerPos[..] == Packed(marks, p.k, 0, false) && p.markerMask[..] == Packed(marks, p.k, 0, true)
            && |p.typeIds| == p.b && forall i :: 0 <= i < p.b ==> p.typeIds[i] == batch.items[i].qtype
    ensures var ids, marks := IdRows(batch.items), MarkerRows(batch.items);
            && Widest(ids, p.l) && Widest(marks, p.k)
            && Holds(p.inputIds[..], ids, p.l, batch.padId) && Masks(p.attentionMask[..], ids, p.l)
            && Holds(p.markerPos[..], marks, p.k, 0) && Masks(p.markerMask[..], marks, p.k)
    ensures fresh(p.inputIds) && fresh(p.attentionMask) && fresh(p.markerPos) && fresh(p.markerMask)
  {
    var b := |batch.items|;
    var ids, marks := IdRows(batch.items), MarkerRows(batch.items);
    var l, k := Longest(ids), Longest(marks);
    var inputIds, attentionMask := Allocate(ids, l, batch.padId);
    var markerPos, markerMask := Allocate(marks, k, 0);
    var typeIds: seq<int> := [];
    for i := 0 to b
      invariant FilledTo(inputIds[..], ids, i, l, batch.padId, false) && FilledTo(attentionMask[..], ids, i, l, 0, true)
      invariant FilledTo(markerPos[..], marks, i, k, 0, false) && FilledTo(markerMask[..], marks, i, k, 0, true)
      invariant |typeIds| == i && forall n :: 0 <= n < i ==> typeIds[n] == batch.items[n].qtype
    {
      FillRow(inputIds, attentionMask, ids, i, l, batch.padId);
      FillRow(markerPos, markerMask, marks, i, k, 0);
      typeIds := typeIds + [batch.items[i].qtype];
    }
    Complete(inputIds[..], ids, l, batch.padId, false);
    Complete(attentionMask[..], ids, l, 0, true);
    Complete(markerPos[..], marks, k, 0, false);
    Complete(markerMask[..], marks, k, 0, true);
    PackedIsLaidOut(ids, l, batch.padId);
    PackedIsLaidOut(marks, k, 0);
    p := Padded(b, l, k, inputIds, attentionMask, typeIds, markerPos, markerMask);
  }

  method Allocate(rows: seq<seq<nat>>, w: nat, pad: int) returns (values: array<int>, mask: array<int>)
    ensures fresh(values) && fresh(mask) && values != mask
    ensures FilledTo(values[..], rows, 0, w, pad, false) && FilledTo(mask[..], rows, 0, w, 0, true)
  {
    values := new int[|rows| * w](_ => pad);
    mask := new int[|rows| * w](_ => 0);
  }

  method FillRow(values: array<int>, mask: array<int>, rows: seq<seq<nat>>, i: nat, w: nat, pad: int)
    requires values != mask && i < |rows| && |rows[i]| <= w
    requires FilledTo(values[..], rows, i, w, pad, false) && FilledTo(mask[..], rows, i, w, 0, true)
    modifies values, mask
    ensures FilledTo(values[..], rows, i + 1, w, pad, false) && FilledTo(mask[..], rows, i + 1, w, 0, true)
  {
    ghost var vs, ms := values[..], mask[..];
    RowEnds(|rows|, w, i);
    for j := 0 to |rows[i]|
      invariant values[..] == Written(vs, i * w, rows[i][..j])
      invariant mask[..] == Written(ms, i * w, seq(j, _ => 1))
    {
      values[i * w + j] := rows[i][j];
      mask[i * w + j] := 1;
    }
    assert rows[i][..|rows[i]|] == rows[i];
    RowFilled(vs, rows, i, w, pad, false, rows[i]);
    RowFilled(ms, rows, i, w, 0, true, seq(|rows[i]|, _ => 1));
  }

  lemma RowEnds(n: nat, w: nat, i: nat)
    requires i < n
    ensures i * w + w == (i + 1) * w <= n * w
  {
    assert (i + 1) * w <= n * w;
  }

  /** `cells` with `new` written from `at` on. */
  function Written(cells: seq<int>, at: nat, new': seq<int>): (r: seq<int>)
    requires at + |new'| <= |cells|
    ensures |r| == |cells|
    ensures forall c :: 0 <= c < |cells| ==> r[c] == if at <= c < at + |new'| then new'[c - at] else cells[c]
  {
    cells[..at] + new' + cells[at + |new'|..]
  }

  lemma RowFilled(cells: seq<int>, rows: seq<seq<nat>>, i: nat, w: nat, pad: int, marks: bool, new': seq<int>)
    requires i < |rows| && |new'| == |rows[i]| <= w && FilledTo(cells, rows, i, w, pad, marks) && i * w + w <= |cells|
    requires forall j :: 0 <= j < |new'| ==> new'[j] == if marks then 1 else rows[i][j]
    ensures FilledTo(Written(cells, i * w, new'), rows, i + 1, w, pad, marks)
  {
    var r := Written(cells, i * w, new');
    assert (i + 1) * w == i * w + w;
    forall c | 0 <= c < |r| ensures r[c] == if c < (i + 1) * w then CellOf(rows, w, pad, marks, c) else pad {
      if i * w <= c < (i + 1) * w {
        DivMod(c, w, i, c - i * w);
      }
    }
  }

  // ---------- Nothing is lost ----------

  /** The values of row `i` whose mask is one, from column `j` on. */
  function Unpacked(values: seq<int>, mask: seq<int>, w: nat, i: nat, j: nat): seq<int>
    requires |values| == |mask| && j <= w && i * w + w <= |values|
    decreases w - j
  {
    if j == w then []
    else (if mask[i * w + j] == 1 then [values[i * w + j]] else []) + Unpacked(values, mask, w, i, j + 1)
  }

  lemma CellAt(rows: seq<seq<nat>>, w: nat, pad: int, marks: bool, i: nat, j: nat)
    requires i < |rows| && j < w
    ensures i * w + j < |rows| * w
    ensures Packed(rows, w, pad, marks)[i * w + j] == if j < |rows[i]| then if marks then 1 else rows[i][j] else pad
  {
    PlaceOf(|rows|, w, i, j);
  }

  /** Reading a row through its mask gives back exactly the row that was packed, whatever its length. */
  lemma {:induction false} UnpackIsRow(rows: seq<seq<nat>>, w: nat, pad: int, i: nat, j: nat)
    requires i < |rows| && |rows[i]| <= w && j <= w
    ensures i * w + w <= |rows| * w
    ensures Unpacked(Packed(rows, w, pad, false), Packed(rows, w, 0, true), w, i, j)
         == if j < |rows[i]| then rows[i][j..] else []
    decreases w - j
  {
    RowEnds(|rows|, w, i);
    if j < w {
      CellAt(rows, w, pad, false, i, j);
      CellAt(rows, w, 0, true, i, j);
      UnpackIsRow(rows, w, pad, i, j + 1);
      if j < |rows[i]| {
        assert rows[i][j..] == [rows[i][j]] + if j + 1 < |rows[i]| then rows[i][j + 1..] else [];
      }
    }
  }

  /** What a model sees of row `i`: the unpadded tokens and markers, and the question type. */
  function RowOf(batch: Batch, i: nat): (seq<int>, seq<int>, int)
    requires i < |batch.items|
  {
    var ids, marks := IdRows(batch.items), MarkerRows(batch.items);
    var l, k := Longest(ids), Longest(marks);
    RowEnds(|ids|, l, i);
    RowEnds(|marks|, k, i);
    (Unpacked(Packed(ids, l, batch.padId, false), Packed(ids, l, 0, true), l, i, 0),
     Unpacked(Packed(marks, k, 0, false), Packed(marks, k, 0, true), k, i, 0),
     batch.items[i].qtype)
  }

  /** A batch is packed without loss: each row reads back as its own item. */
  lemma RowIsItem(batch: Batch, i: nat)
    requires i < |batch.items|
    ensures RowOf(batch, i) == (batch.items[i].ids, batch.items[i].markers, batch.items[i].qtype)
  {
    var ids, marks := IdRows(batch.items), MarkerRows(batch.items);
    UnpackIsRow(ids, Longest(ids), batch.padId, i, 0);
    UnpackIsRow(marks, Longest(marks), 0, i, 0);
    assert ids[i][0..] == ids[i] && marks[i][0..] == marks[i];
  }

  // ---------- Reading the output ----------

  /** The model's two outputs: a row of `k` logits and one probability for each item. */
  datatype Output = Output(logits: seq<real>, act: seq<real>)

  predicate Shaped(batch: Batch, out: Output) {
    |out.logits| == |batch.items| * Longest(MarkerRows(batch.items)) && |out.act| == |batch.items|
  }

  lemma ShareBounds(batch: Batch, i: nat)
    requires i < |batch.items|
    ensures var k := Longest(MarkerRows(batch.items)); i * k + |batch.items[i].markers| <= (i + 1) * k <= |batch.items| * k
  {
    var marks := MarkerRows(batch.items);
    RowEnds(|marks|, Longest(marks), i);
    assert |marks[i]| <= Longest(marks);
  }

  /** The slice for row `i` lies inside row `i`, and within the buffer. */
  lemma SliceInRow(batch: Batch, i: nat)
    requires i < |batch.items|
    ensures var k := Longest(MarkerRows(batch.items));
            && i * k + |batch.items[i].markers| <= (i + 1) * k <= |batch.items| * k
            && forall c :: i * k <= c < i * k + |batch.items[i].markers| ==> c / k == i
  {
    var k := Longest(MarkerRows(batch.items));
    ShareBounds(batch, i);
    forall c | i * k <= c < i * k + |batch.items[i].markers| ensures c / k == i {
      DivMod(c, k, i, c - i * k);
    }
  }

  lemma ShareInside(batch: Batch, out: Output, i: nat)
    requires Shaped(batch, out) && i < |batch.items|
    ensures i * Longest(MarkerRows(batch.items)) + |batch.items[i].markers| <= |out.logits| && i < |out.act|
    ensures i * Longest(MarkerRows(batch.items)) >= 0
  {
    ShareBounds(batch, i);
  }

  /** Item `i`'s share of the output. */
  function Share(batch: Batch, out: Output, i: nat): (r: Raw)
    requires Shaped(batch, out) && i < |batch.items|
    ensures |r.logits| == |batch.items[i].markers|
  {
    ShareInside(batch, out, i);
    var k, e := Longest(MarkerRows(batch.items)), batch.items[i];
    Raw(out.logits[i * k..i * k + |e.markers|], out.act[i], |e.ids|)
  }

  method Rows(batch: Batch, out: Output) returns (raws: seq<Raw>)
    requires Shaped(batch, out)
    ensures |raws| == |batch.items| && forall i :: 0 <= i < |raws| ==> raws[i] == Share(batch, out, i)
  {
    raws := [];
    for i := 0 to |batch.items|
      invariant |raws| == i && forall n :: 0 <= n < i ==> raws[n] == Share(batch, out, n)
    {
      raws := raws + [Share(batch, out, i)];
    }
  }

  /** A network that answers row by row: what it says of a row depends on what it sees of that row alone. */
  datatype Network = Network(logit: ((seq<int>, seq<int>, int), int) -> real, act: ((seq<int>, seq<int>, int)) -> real)

  predicate AnswersRowwise(net: Network, batch: Batch, out: Output) {
    var k := Longest(MarkerRows(batch.items));
    && Shaped(batch, out)
    && (forall i :: 0 <= i < |batch.items| ==> out.act[i] == net.act(RowOf(batch, i)))
    && (forall i, j :: 0 <= i < |batch.items| && 0 <= j < |batch.items[i].markers| ==>
          i * k + j < |out.logits| && out.logits[i * k + j] == net.logit(RowOf(batch, i), j))
  }

  /** The answer to one item alone, whatever batch it rides in. */
  function AnswerFor(net: Network, e: Encoded): Raw {
    var row := (e.ids, e.markers, e.qtype);
    Raw(seq(|e.markers|, j => net.logit(row, j)), net.act(row), |e.ids|)
  }

  /** One logit a marker, the act probability and the token count, as the network has them for the item alone. */
  predicate IsAnswer(net: Network, e: Encoded, raw: Raw) {
    && |raw.logits| == |e.markers| && raw.nTokens == |e.ids| && raw.actProb == net.act((e.ids, e.markers, e.qtype))
    && forall j :: 0 <= j < |raw.logits| ==> raw.logits[j] == net.logit((e.ids, e.markers, e.qtype), j)
  }

  lemma ShareAt(batch: Batch, out: Output, i: nat, j: nat)
    requires Shaped(batch, out) && i < |batch.items| && j < |batch.items[i].markers|
    ensures var c := i * Longest(MarkerRows(batch.items)) + j;
            c < |out.logits| && Share(batch, out, i).logits[j] == out.logits[c]
  {
    ShareBounds(batch, i);
  }

  lemma ShareIsAnswer(net: Network, batch: Batch, out: Output, i: nat)
    requires AnswersRowwise(net, batch, out) && i < |batch.items|
    ensures Share(batch, out, i) == AnswerFor(net, batch.items[i])
  {
    var e, row := batch.items[i], RowOf(batch, i);
    RowIsItem(batch, i);
    assert row == (e.ids, e.markers, e.qtype);
    var r, answer := Share(batch, out, i), AnswerFor(net, e);
    forall j | 0 <= j < |e.markers| ensures r.logits[j] == answer.logits[j] {
      ShareAt(batch, out, i, j);
      assert answer.logits[j] == net.logit(row, j);
    }
    assert r.logits == answer.logits;
  }

  /** With a row-wise network, batching changes no answer: each item gets what it would get by itself. */
  method RunBatch(net: Network, batch: Batch, out: Output) returns (raws: seq<Raw>)
    requires AnswersRowwise(net, batch, out)
    ensures |raws| == |batch.items| && forall i :: 0 <= i < |raws| ==> raws[i] == AnswerFor(net, batch.items[i])
    ensures forall i :: 0 <= i < |raws| ==> IsAnswer(net, batch.items[i], raws[i])
  {
    raws := Rows(batch, out);
    forall i | 0 <= i < |raws| ensures raws[i] == AnswerFor(net, batch.items[i]) {
      ShareIsAnswer(net, batch, out, i);
    }
  }
}
