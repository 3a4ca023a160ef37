/** The decision gate an exported model must pass, over any sequence of questions. Probabilities are real numbers. */
module Gate {

  /** One question's probabilities and act probability: the compared model's, and the reference's. */
  datatype Case = Case(cmp: seq<real>, ref: seq<real>, actCmp: real, actRef: real)

  datatype Tally = Tally(nearTies: nat, flipped: nat, decisive: nat, agree: nat, maxDp: real, maxDact: real)

  predicate Paired(c: Case) {
    |c.cmp| == |c.ref| > 0
  }

  function Abs(x: real): real {
    if x < 0.0 then -x else x
  }

  function Larger(x: real, y: real): real {
    if x < y then y else x
  }

  // ---------- Ranking ----------

  /** A later value must be larger to take over. */
  function ArgMax(p: seq<real>): (k: nat)
    requires p != []
    ensures k < |p|
  {
    if |p| == 1 then 0
    else
      var k := ArgMax(p[..|p| - 1]);
      if p[k] < p[|p| - 1] then |p| - 1 else k
  }

  /** It is the first index holding the largest value. */
  lemma {:induction false} ArgMaxIsFirst(p: seq<real>, i: nat)
    requires p != [] && i < |p|
    ensures p[i] <= p[ArgMax(p)] && (i < ArgMax(p) ==> p[i] < p[ArgMax(p)])
    decreases |p|
  {
    var init := p[..|p| - 1];
    if |p| > 1 {
      if i < |init| {
        ArgMaxIsFirst(init, i);
      }
    }
  }

  function Insert(x: real, s: seq<real>): (r: seq<real>)
    ensures |r| == |s| + 1
  {
    if s == [] || x >= s[0] then [x] + s else [s[0]] + Insert(x, s[1..])
  }

  /** In descending order. */
  function Descending(p: seq<real>): (r: seq<real>)
    ensures |r| == |p|
  {
    if p == [] then [] else Insert(p[0], Descending(p[1..]))
  }

  /** How far the reference's best option is ahead of its second best. */
  function Margin(p: seq<real>): real
    requires |p| >= 2
  {
    Descending(p)[0] - Descending(p)[1]
  }

  predicate Decisive(c: Case)
    requires Paired(c)
  {
    |c.ref| == 1 || Margin(c.ref) > 0.10
  }

  predicate Agrees(c: Case)
    requires Paired(c)
  {
    ArgMax(c.cmp) == ArgMax(c.ref)
  }

  function LargestGap(a: seq<real>, b: seq<real>): real
    requires |a| == |b| > 0
  {
    var last := Abs(a[|a| - 1] - b[|a| - 1]);
    if |a| == 1 then last else Larger(LargestGap(a[..|a| - 1], b[..|a| - 1]), last)
  }

  lemma {:induction false} GapBounds(a: seq<real>, b: seq<real>, i: nat)
    requires |a| == |b| && i < |a|
    ensures Abs(a[i] - b[i]) <= LargestGap(a, b)
    decreases |a|
  {
    if i < |a| - 1 {
      GapBounds(a[..|a| - 1], b[..|a| - 1], i);
    }
  }

  /** The bound is met by one of the options. */
  lemma {:induction false} GapIsMet(a: seq<real>, b: seq<real>) returns (i: nat)
    requires |a| == |b| > 0
    ensures i < |a| && Abs(a[i] - b[i]) == LargestGap(a, b)
    decreases |a|
  {
    i := |a| - 1;
    if |a| > 1 && Abs(a[i] - b[i]) < LargestGap(a, b) {
      i := GapIsMet(a[..|a| - 1], b[..|a| - 1]);
    }
  }

  // ---------- The gate ----------

  function Count(b: bool): nat {
    if b then 1 else 0
  }

  function Observe(t: Tally, c: Case): Tally
    requires Paired(c)
  {
    var d, a := Decisive(c), Agrees(c);
    Tally(t.nearTies + Count(!d), t.flipped + Count(!d && !a), t.decisive + Count(d), t.agree + Count(d && a),
          Larger(t.maxDp, LargestGap(c.cmp, c.ref)), Larger(t.maxDact, Abs(c.actCmp - c.actRef)))
  }

  function Start(): Tally {
    Tally(0, 0, 0, 0, 0.0, 0.0)
  }

  predicate Failed(t: Tally) {
    t.agree < t.decisive || t.maxDp > 0.05 || t.maxDact > 0.05
  }

  predicate AllPaired(cases: seq<Case>) {
    forall i :: 0 <= i < |cases| ==> Paired(cases[i])
  }

  function After(cases: seq<Case>): Tally
    requires AllPaired(cases)
  {
    if cases == [] then Start() else Observe(After(cases[..|cases| - 1]), cases[|cases| - 1])
  }

  /** The running statistics. */
  class Stats {
    var nearTies: nat
    var flipped: nat
    var decisive: nat
    var agree: nat
    var maxDp: real
    var maxDact: real

    function View(): Tally
      reads this
    {
      Tally(nearTies, flipped, decisive, agree, maxDp, maxDact)
    }

    constructor ()
      ensures View() == Start()
    {
      nearTies, flipped, decisive, agree, maxDp, maxDact := 0, 0, 0, 0, 0.0, 0.0;
    }

    method Update(c: Case)
      requires Paired(c)
      modifies this
      ensures View() == Observe(old(View()), c)
    {
      var topCmp, topRef := ArgMax(c.cmp), ArgMax(c.ref);
      var isDecisive := true;
      if |c.ref| > 1 {
        var sorted := Descending(c.ref);
        isDecisive := sorted[0] - sorted[1] > 0.10;
        if !isDecisive {
          nearTies := nearTies + 1;
          if topCmp != topRef {
            flipped := flipped + 1;
          }
        }
      }
      if isDecisive {
        decisive := decisive + 1;
        if topCmp == topRef {
          agree := agree + 1;
        }
      }
      maxDp := Larger(maxDp, LargestGap(c.cmp, c.ref));
      maxDact := Larger(maxDact, Abs(c.actCmp - c.actRef));
    }
  }

  method Judge(cases: seq<Case>) returns (failed: bool)
    requires AllPaired(cases)
    ensures failed == Failed(After(cases)) && (failed <==> OffByMore(cases))
  {
    FailsIff(cases);
    var stats := new Stats();
    for i := 0 to |cases|
      invariant stats.View() == After(cases[..i])
    {
      assert cases[..i + 1][..i] == cases[..i];
      stats.Update(cases[i]);
    }
    assert cases[..|cases|] == cases;
    failed := Failed(stats.View());
  }

  // ---------- The two largest ----------

  predicate Sorted(s: seq<real>) {
    forall i :: 0 <= i < |s| - 1 ==> s[i] >= s[i + 1]
  }

  lemma {:induction false} InsertSorts(x: real, s: seq<real>)
    requires Sorted(s)
    ensures Sorted(Insert(x, s)) && Insert(x, s)[0] == (if s == [] then x else Larger(x, s[0]))
  {
    if s != [] && x < s[0] {
      InsertSorts(x, s[1..]);
    }
  }

  /** The largest is the first, and of any two places one holds no more than the second. */
  lemma {:induction false} TopTwo(p: seq<real>)
    requires p != []
    ensures var d := Descending(p);
            && Sorted(d) && (forall i :: 0 <= i < |p| ==> p[i] <= d[0]) && (exists i :: 0 <= i < |p| && p[i] == d[0])
            && (forall i, j :: 0 <= i < j < |p| ==> p[i] <= d[1] || p[j] <= d[1])
  {
    var d := Descending(p);
    if |p| == 1 {
      assert p[0] == d[0];
    } else {
      var rest := p[1..];
      var e := Descending(rest);
      TopTwo(rest);
      InsertSorts(p[0], e);
      var k :| 0 <= k < |rest| && rest[k] == e[0];
      assert p[k + 1] == e[0] && forall i :: 0 < i < |p| ==> p[i] == rest[i - 1];
      assert d[1] == if p[0] >= e[0] then e[0] else Insert(p[0], e[1..])[0];
      assert p[0] < e[0] && |e| > 1 ==> d[1] == Larger(p[0], e[1]) by {
        if |e| > 1 {
          InsertSorts(p[0], e[1..]);
        }
      }
    }
  }

  /** Everything but the best option is behind it by at least the margin. */
  lemma MarginSeparates(p: seq<real>, i: nat)
    requires |p| >= 2 && i < |p| && i != ArgMax(p)
    ensures p[i] <= p[ArgMax(p)] - Margin(p)
  {
    var a, d := ArgMax(p), Descending(p);
    TopTwo(p);
    var top :| 0 <= top < |p| && p[top] == d[0];
    ArgMaxIsFirst(p, top);
    ArgMaxIsFirst(p, i);
    assert p[a] == d[0];
    var x, y := if i < a then i else a, if i < a then a else i;
    assert p[x] <= d[1] || p[y] <= d[1];
  }

  // ---------- What passing means ----------

  /** A small change of each probability cannot turn a decisive question. */
  lemma SmallGapAgrees(c: Case)
    requires Paired(c) && Decisive(c) && LargestGap(c.cmp, c.ref) <= 0.05
    ensures Agrees(c)
  {
    var a := ArgMax(c.ref);
    GapBounds(c.cmp, c.ref, a);
    forall j | 0 <= j < |c.ref| && j != a ensures c.cmp[j] < c.cmp[a] {
      MarginSeparates(c.ref, j);
      GapBounds(c.cmp, c.ref, j);
    }
    ArgMaxIsFirst(c.cmp, a);
  }

  lemma {:induction false} TallyCounts(cases: seq<Case>)
    requires AllPaired(cases)
    ensures var t := After(cases); t.decisive + t.nearTies == |cases| && t.agree <= t.decisive && t.flipped <= t.nearTies
  {
    if cases != [] {
      TallyCounts(cases[..|cases| - 1]);
    }
  }

  lemma {:induction false} TallyBounds(cases: seq<Case>, i: nat)
    requires AllPaired(cases) && i < |cases|
    ensures var t := After(cases);
            LargestGap(cases[i].cmp, cases[i].ref) <= t.maxDp && Abs(cases[i].actCmp - cases[i].actRef) <= t.maxDact
  {
    if i < |cases| - 1 {
      TallyBounds(cases[..|cases| - 1], i);
    }
  }

  /** After any question the recorded maximum is one question's difference in one option. */
  lemma {:induction false} MaxIsMet(cases: seq<Case>) returns (i: nat, j: nat)
    requires AllPaired(cases) && cases != []
    ensures i < |cases| && j < |cases[i].ref| && Abs(cases[i].cmp[j] - cases[i].ref[j]) == After(cases).maxDp
  {
    i := |cases| - 1;
    var init, last := cases[..i], cases[i];
    j := GapIsMet(last.cmp, last.ref);
    if init != [] && LargestGap(last.cmp, last.ref) < After(init).maxDp {
      i, j := MaxIsMet(init);
    }
  }

  /** Close probabilities imply agreement on every decisive question. */
  lemma {:induction false} CloseAgrees(cases: seq<Case>)
    requires AllPaired(cases) && After(cases).maxDp <= 0.05
    ensures After(cases).agree == After(cases).decisive
  {
    if cases != [] {
      var last := cases[|cases| - 1];
      CloseAgrees(cases[..|cases| - 1]);
      if Decisive(last) {
        SmallGapAgrees(last);
      }
    }
  }

  // ---------- The counts, spelled out ----------

  /** An option leads if it is the first of the largest. */
  predicate LeadsAt(p: seq<real>, k: nat) {
    k < |p| && (forall j :: 0 <= j < |p| ==> p[j] <= p[k]) && forall j :: 0 <= j < k ==> p[j] < p[k]
  }

  /** A single option, or one that is ahead of every other by more than a tenth. */
  ghost predicate FarAhead(p: seq<real>) {
    |p| == 1 || exists k: nat :: AheadOfAll(p, k)
  }

  ghost predicate SameLeader(c: Case) {
    exists k :: LeadsAt(c.cmp, k) && LeadsAt(c.ref, k)
  }

  lemma LeaderIsOne(p: seq<real>, k: nat)
    requires p != []
    ensures LeadsAt(p, k) <==> k == ArgMax(p)
  {
    forall j | 0 <= j < |p| ensures p[j] <= p[ArgMax(p)] && (j < ArgMax(p) ==> p[j] < p[ArgMax(p)]) {
      ArgMaxIsFirst(p, j);
    }
  }

  lemma AgreesIff(c: Case)
    requires Paired(c)
    ensures Agrees(c) <==> SameLeader(c)
  {
    LeaderIsOne(c.ref, ArgMax(c.ref));
    LeaderIsOne(c.cmp, ArgMax(c.cmp));
    if SameLeader(c) {
      var k: nat :| LeadsAt(c.cmp, k) && LeadsAt(c.ref, k);
      LeaderIsOne(c.ref, k);
      LeaderIsOne(c.cmp, k);
    }
  }

  /** The second largest is some other option's. */
  lemma {:induction false} SecondIsMet(p: seq<real>) returns (a: nat, b: nat)
    requires |p| >= 2
    ensures a < |p| && b < |p| && a != b && p[a] == Descending(p)[0] && p[b] == Descending(p)[1]
  {
    var rest, e := p[1..], Descending(p[1..]);
    TopTwo(rest);
    var k :| 0 <= k < |rest| && rest[k] == e[0];
    if p[0] >= e[0] {
      a, b := 0, k + 1;
    } else if |rest| == 1 {
      a, b := k + 1, 0;
      assert e[1..] == [] && Descending(p) == [e[0], p[0]];
    } else {
      var x, y := SecondIsMet(rest);
      a := x + 1;
      b := if p[0] >= e[1] then 0 else y + 1;
      assert Descending(p)[1] == Insert(p[0], e[1..])[0];
    }
  }

  predicate AheadOfAll(p: seq<real>, k: nat) {
    k < |p| && forall j :: 0 <= j < |p| && j != k ==> p[k] - p[j] > 0.10
  }

  lemma AheadIsMargin(p: seq<real>, a: nat, b: nat)
    requires |p| >= 2 && a < |p| && b < |p| && a != b && p[a] == Descending(p)[0] && p[b] == Descending(p)[1]
    ensures AheadOfAll(p, a) <==> Margin(p) > 0.10
  {
    TopTwo(p);
    if Margin(p) > 0.10 {
      forall j | 0 <= j < |p| && j != a ensures p[a] - p[j] > 0.10 {
        var x, y := if j < a then j else a, if j < a then a else j;
        assert p[x] <= Descending(p)[1] || p[y] <= Descending(p)[1];
      }
    }
  }

  lemma OnlyTheLargestIsAhead(p: seq<real>, a: nat, k: nat)
    requires p != [] && a < |p| && p[a] == Descending(p)[0] && AheadOfAll(p, k)
    ensures k == a
  {
    TopTwo(p);
    assert p[k] <= p[a];
  }

  lemma DecisiveIff(c: Case)
    requires Paired(c)
    ensures Decisive(c) <==> FarAhead(c.ref)
  {
    var p := c.ref;
    if |p| > 1 {
      var a, b := SecondIsMet(p);
      AheadIsMargin(p, a, b);
      if k: nat :| AheadOfAll(p, k) {
        OnlyTheLargestIsAhead(p, a, k);
      }
    }
  }

  /** The questions before the n-th that are decisive or not, and agree or not. */
  ghost function Which(cases: seq<Case>, n: nat, decisive: bool, agree: bool): set<nat>
    requires n <= |cases|
  {
    set i: nat | i < n && (FarAhead(cases[i].ref) <==> decisive) && (SameLeader(cases[i]) <==> agree)
  }

  lemma WhichNext(cases: seq<Case>, n: nat, decisive: bool, agree: bool)
    requires n < |cases|
    ensures Which(cases, n + 1, decisive, agree)
         == Which(cases, n, decisive, agree)
            + if (FarAhead(cases[n].ref) <==> decisive) && (SameLeader(cases[n]) <==> agree) then {n} else {}
  {
  }

  /** Each question is counted where it belongs. */
  lemma {:induction false} TallyIsCount(cases: seq<Case>, n: nat)
    requires AllPaired(cases) && n <= |cases|
    ensures var t := After(cases[..n]);
            && t.agree == |Which(cases, n, true, true)|
            && t.decisive == |Which(cases, n, true, true)| + |Which(cases, n, true, false)|
            && t.flipped == |Which(cases, n, false, false)|
            && t.nearTies == |Which(cases, n, false, true)| + |Which(cases, n, false, false)|
  {
    if n > 0 {
      TallyIsCount(cases, n - 1);
      assert cases[..n][..n - 1] == cases[..n - 1];
      DecisiveIff(cases[n - 1]);
      AgreesIff(cases[n - 1]);
      WhichNext(cases, n - 1, true, true);
      WhichNext(cases, n - 1, true, false);
      WhichNext(cases, n - 1, false, true);
      WhichNext(cases, n - 1, false, false);
    }
  }

  /** Some option of some question is off by more than a twentieth, or some act probability. */
  ghost predicate OffByMore(cases: seq<Case>) {
    exists i :: 0 <= i < |cases| && (Apart(cases[i].actCmp, cases[i].actRef) || OptionsApart(cases[i]))
  }

  predicate Apart(x: real, y: real) {
    x - y > 0.05 || y - x > 0.05
  }

  ghost predicate OptionsApart(c: Case) {
    exists j :: 0 <= j < |c.cmp| && j < |c.ref| && Apart(c.cmp[j], c.ref[j])
  }

  lemma GapIff(c: Case)
    requires Paired(c)
    ensures LargestGap(c.cmp, c.ref) > 0.05 <==> OptionsApart(c)
  {
    var i := GapIsMet(c.cmp, c.ref);
    if OptionsApart(c) {
      var j :| 0 <= j < |c.cmp| && j < |c.ref| && Apart(c.cmp[j], c.ref[j]);
      GapBounds(c.cmp, c.ref, j);
    } else {
      assert !Apart(c.cmp[i], c.ref[i]);
    }
  }

  lemma {:induction false} MaximaIff(cases: seq<Case>)
    requires AllPaired(cases)
    ensures After(cases).maxDp > 0.05 || After(cases).maxDact > 0.05 <==> OffByMore(cases)
  {
    if cases != [] {
      var init, last := cases[..|cases| - 1], cases[|cases| - 1];
      MaximaIff(init);
      GapIff(last);
      assert forall i :: 0 <= i < |init| ==> init[i] == cases[i];
      if OffByMore(init) {
        var i :| 0 <= i < |init| && (Apart(init[i].actCmp, init[i].actRef) || OptionsApart(init[i]));
        assert cases[i] == init[i];
      }
    }
  }

  /** The gate fails exactly if some probability is off by more than a twentieth. */
  lemma FailsIff(cases: seq<Case>)
    requires AllPaired(cases)
    ensures Failed(After(cases)) <==> OffByMore(cases)
  {
    GateIsTheMaxima(cases);
    MaximaIff(cases);
  }

  /** So only the two maxima decide the gate. */
  lemma GateIsTheMaxima(cases: seq<Case>)
    requires AllPaired(cases)
    ensures After(cases).maxDp <= 0.05 ==> After(cases).agree == After(cases).decisive
    ensures Failed(After(cases)) <==> After(cases).maxDp > 0.05 || After(cases).maxDact > 0.05
  {
    TallyCounts(cases);
    if After(cases).maxDp <= 0.05 {
      CloseAgrees(cases);
    }
  }

  /** After a pass, a changed decision was a near tie, and costs at most 0.10 of the reference's probability. */
  lemma PassedFlipsAreNearTies(cases: seq<Case>, i: nat)
    requires AllPaired(cases) && !Failed(After(cases)) && i < |cases|
    ensures var c := cases[i];
            && (!Agrees(c) ==> !Decisive(c))
            && c.ref[ArgMax(c.ref)] - c.ref[ArgMax(c.cmp)] <= 0.10
            && Abs(c.actCmp - c.actRef) <= 0.05
  {
    var c := cases[i];
    TallyBounds(cases, i);
    assert LargestGap(c.cmp, c.ref) <= 0.05;
    if Decisive(c) {
      SmallGapAgrees(c);
    }
    var a, b := ArgMax(c.ref), ArgMax(c.cmp);
    GapBounds(c.cmp, c.ref, a);
    GapBounds(c.cmp, c.ref, b);
    ArgMaxIsFirst(c.cmp, a);
  }

  /** The margin must be exceeded, not only met: at 0.10 a change of 0.05 can turn the decision. */
  lemma MarginIsTight()
    ensures exists c: Case :: Paired(c) && |c.ref| == 2 && Margin(c.ref) == 0.10 && LargestGap(c.cmp, c.ref) == 0.05 && !Agrees(c)
  {
    var c := Case([0.50, 0.50], [0.45, 0.55], 0.0, 0.0);
    assert Descending([0.55]) == [0.55];
    assert c.ref[1..] == [0.55];
    assert Descending(c.ref) == Insert(0.45, [0.55]) == [0.55] + Insert(0.45, [0.55][1..]) == [0.55, 0.45];
    assert c.cmp[..1] == [0.50] && c.ref[..1] == [0.45];
    assert ArgMax([0.50]) == 0 && ArgMax([0.45]) == 0;
    assert ArgMax(c.cmp) == 0 && ArgMax(c.ref) == 1;
    assert LargestGap([0.50], [0.45]) == 0.05;
  }
}
