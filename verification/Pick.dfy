/** Batch selection: the oldest item leads and buffered items of a similar length join it. */
module Pick {
  import opened Types

  // ---------- Specification on lengths ----------

  /** Within a factor of two of the leader's length. */
  predicate Compatible(target: nat, n: nat) {
    Max(n, target) <= 2 * Min(n, target)
  }

  /** Indices chosen from `lens[i..]`, given `count` followers already chosen and their longest length. */
  function Greedy(target: nat, lens: seq<nat>, i: nat, longest: nat, count: nat, maxItems: nat, maxTokens: nat)
    : seq<nat>
    requires i <= |lens|
    decreases |lens| - i
  {
    if i == |lens| || count + 1 >= maxItems then
      []
    else if !Compatible(target, lens[i]) then
      Greedy(target, lens, i + 1, longest, count, maxItems, maxTokens)
    else if (count + 2) * Max(longest, lens[i]) <= maxTokens then
      [i] + Greedy(target, lens, i + 1, Max(longest, lens[i]), count + 1, maxItems, maxTokens)
    else
      Greedy(target, lens, i + 1, longest, count, maxItems, maxTokens)
  }

  function Chosen(target: nat, lens: seq<nat>, maxItems: nat, maxTokens: nat): seq<nat> {
    Greedy(target, lens, 0, target, 0, maxItems, maxTokens)
  }

  /** Strictly increasing positions inside a sequence of length `n`. */
  ghost predicate Ascending(idx: seq<nat>, n: nat) {
    && (forall k :: 0 <= k < |idx| ==> idx[k] < n)
    && (forall j, k :: 0 <= j < k < |idx| ==> idx[j] < idx[k])
  }

  /** The items of `s[i..]` whose position was chosen (or was not), in order. */
  function Keep<T>(s: seq<T>, idx: seq<nat>, chosen: bool, i: nat): seq<T>
    requires i <= |s|
    decreases |s| - i
  {
    if i == |s| then []
    else (if (i in idx) == chosen then [s[i]] else []) + Keep(s, idx, chosen, i + 1)
  }

  /** The batch's followers, in arrival order. */
  function Followers<T>(s: seq<T>, idx: seq<nat>): seq<T> {
    Keep(s, idx, true, 0)
  }

  /** What stays in the buffer, in arrival order. */
  function Remainder<T>(s: seq<T>, idx: seq<nat>): seq<T> {
    Keep(s, idx, false, 0)
  }

  /** The longest of the leader and the chosen lengths. */
  function Longest(target: nat, lens: seq<nat>, idx: seq<nat>): nat
    requires forall k :: 0 <= k < |idx| ==> idx[k] < |lens|
    decreases |idx|
  {
    if idx == [] then target else Longest(Max(target, lens[idx[0]]), lens, idx[1..])
  }

  // ---------- Properties of the choice ----------

  lemma {:induction false} GreedyAscends(
    target: nat, lens: seq<nat>, i: nat, longest: nat, count: nat, maxItems: nat, maxTokens: nat)
    requires i <= |lens|
    ensures var c := Greedy(target, lens, i, longest, count, maxItems, maxTokens);
            && Ascending(c, |lens|)
            && (forall k :: 0 <= k < |c| ==> i <= c[k] && Compatible(target, lens[c[k]]))
            && (count + 1 <= maxItems ==> count + 1 + |c| <= maxItems)
    decreases |lens| - i
  {
    if i == |lens| || count + 1 >= maxItems {
    } else if !Compatible(target, lens[i]) {
      GreedyAscends(target, lens, i + 1, longest, count, maxItems, maxTokens);
    } else if (count + 2) * Max(longest, lens[i]) <= maxTokens {
      GreedyAscends(target, lens, i + 1, Max(longest, lens[i]), count + 1, maxItems, maxTokens);
    } else {
      GreedyAscends(target, lens, i + 1, longest, count, maxItems, maxTokens);
    }
  }

  /** The padded size of the batch stays under the cap whenever it did before. */
  lemma {:induction false} GreedyFits(
    target: nat, lens: seq<nat>, i: nat, longest: nat, count: nat, maxItems: nat, maxTokens: nat)
    requires i <= |lens| && (count + 1) * longest <= maxTokens
    ensures var c := Greedy(target, lens, i, longest, count, maxItems, maxTokens);
            && Ascending(c, |lens|)
            && (count + 1 + |c|) * Longest(longest, lens, c) <= maxTokens
    decreases |lens| - i
  {
    GreedyAscends(target, lens, i, longest, count, maxItems, maxTokens);
    if i == |lens| || count + 1 >= maxItems {
    } else if !Compatible(target, lens[i]) {
      GreedyFits(target, lens, i + 1, longest, count, maxItems, maxTokens);
    } else if (count + 2) * Max(longest, lens[i]) <= maxTokens {
      GreedyFits(target, lens, i + 1, Max(longest, lens[i]), count + 1, maxItems, maxTokens);
      var c' := Greedy(target, lens, i + 1, Max(longest, lens[i]), count + 1, maxItems, maxTokens);
      assert ([i] + c')[1..] == c';
    } else {
      GreedyFits(target, lens, i + 1, longest, count, maxItems, maxTokens);
    }
  }

  lemma {:induction false} LongestGrows(target: nat, lens: seq<nat>, idx: seq<nat>)
    requires forall k :: 0 <= k < |idx| ==> idx[k] < |lens|
    ensures target <= Longest(target, lens, idx)
    ensures forall k :: 0 <= k < |idx| ==> lens[idx[k]] <= Longest(target, lens, idx)
    decreases |idx|
  {
    if idx != [] {
      LongestGrows(Max(target, lens[idx[0]]), lens, idx[1..]);
      forall k | 0 <= k < |idx| ensures lens[idx[k]] <= Longest(target, lens, idx) {
        if k > 0 {
          assert idx[k] == idx[1..][k - 1];
        }
      }
    }
  }

  lemma PaddedMonotone(a: nat, b: nat, x: nat, y: nat)
    requires a <= b && x <= y
    ensures a * x <= b * y
  {
    assert a * x <= b * x && b * x <= b * y;
  }

  /** Nothing compatible was left behind that still fits, unless the item cap was reached. */
  lemma {:induction false} GreedyMaximal(
    target: nat, lens: seq<nat>, i: nat, longest: nat, count: nat, maxItems: nat, maxTokens: nat, j: nat)
    requires i <= j < |lens| && Compatible(target, lens[j])
    requires j !in Greedy(target, lens, i, longest, count, maxItems, maxTokens)
    ensures var c := Greedy(target, lens, i, longest, count, maxItems, maxTokens);
            && Ascending(c, |lens|)
            && (count + 1 + |c| < maxItems
                ==> (count + 2 + |c|) * Max(Longest(longest, lens, c), lens[j]) > maxTokens)
    decreases |lens| - i
  {
    GreedyAscends(target, lens, i, longest, count, maxItems, maxTokens);
    if count + 1 >= maxItems {
    } else if !Compatible(target, lens[i]) {
      GreedyMaximal(target, lens, i + 1, longest, count, maxItems, maxTokens, j);
    } else if (count + 2) * Max(longest, lens[i]) <= maxTokens {
      var c' := Greedy(target, lens, i + 1, Max(longest, lens[i]), count + 1, maxItems, maxTokens);
      assert ([i] + c')[1..] == c' && j != i;
      GreedyMaximal(target, lens, i + 1, Max(longest, lens[i]), count + 1, maxItems, maxTokens, j);
    } else if j == i {
      var c := Greedy(target, lens, i + 1, longest, count, maxItems, maxTokens);
      GreedyAscends(target, lens, i + 1, longest, count, maxItems, maxTokens);
      LongestGrows(longest, lens, c);
      PaddedMonotone(count + 2, count + 2 + |c|, Max(longest, lens[i]), Max(Longest(longest, lens, c), lens[j]));
    } else {
      GreedyMaximal(target, lens, i + 1, longest, count, maxItems, maxTokens, j);
    }
  }

  /** What a batch drawn from `lens` behind a leader of length `target` always satisfies. */
  lemma ChosenIsGood(target: nat, lens: seq<nat>, maxItems: nat, maxTokens: nat)
    ensures var c := Chosen(target, lens, maxItems, maxTokens);
            && Ascending(c, |lens|)
            && (forall k :: 0 <= k < |c| ==> Compatible(target, lens[c[k]]))
            && (maxItems >= 1 ==> 1 + |c| <= maxItems)
            && (target <= maxTokens ==> (1 + |c|) * Longest(target, lens, c) <= maxTokens)
            && (1 + |c| < maxItems ==>
                  forall j :: 0 <= j < |lens| && j !in c && Compatible(target, lens[j])
                    ==> (2 + |c|) * Max(Longest(target, lens, c), lens[j]) > maxTokens)
  {
    var c := Chosen(target, lens, maxItems, maxTokens);
    GreedyAscends(target, lens, 0, target, 0, maxItems, maxTokens);
    if target <= maxTokens {
      GreedyFits(target, lens, 0, target, 0, maxItems, maxTokens);
    }
    forall j | 0 <= j < |lens| && j !in c && Compatible(target, lens[j])
      ensures 1 + |c| < maxItems ==> (2 + |c|) * Max(Longest(target, lens, c), lens[j]) > maxTokens
    {
      GreedyMaximal(target, lens, 0, target, 0, maxItems, maxTokens, j);
    }
  }

  /** Followers and remainder together are exactly the buffer. */
  lemma {:induction false} SplitIsPartition<T>(s: seq<T>, idx: seq<nat>, i: nat)
    requires i <= |s|
    ensures multiset(Keep(s, idx, true, i)) + multiset(Keep(s, idx, false, i)) == multiset(s[i..])
    decreases |s| - i
  {
    if i < |s| {
      var rest := s[i + 1..];
      assert s[i..] == [s[i]] + rest;
      SplitIsPartition(s, idx, i + 1);
      SplitStep(s, idx, i, rest);
    }
  }

  lemma SplitStep<T>(s: seq<T>, idx: seq<nat>, i: nat, rest: seq<T>)
    requires i < |s| && multiset(Keep(s, idx, true, i + 1)) + multiset(Keep(s, idx, false, i + 1)) == multiset(rest)
    ensures multiset(Keep(s, idx, true, i)) + multiset(Keep(s, idx, false, i)) == multiset([s[i]] + rest)
  {
    OneMore(s[i], Keep(s, idx, true, i + 1), Keep(s, idx, false, i + 1), rest, i in idx);
  }

  lemma OneMore<T>(x: T, kept: seq<T>, left: seq<T>, rest: seq<T>, chosen: bool)
    requires multiset(kept) + multiset(left) == multiset(rest)
    ensures multiset(if chosen then [x] + kept else kept) + multiset(if chosen then left else [x] + left) == multiset([x] + rest)
  {
  }

  /** Followers are the items at the chosen positions. */
  lemma {:induction false} FollowersAt<T>(s: seq<T>, idx: seq<nat>, i: nat, t: nat)
    requires Ascending(idx, |s|) && i <= |s| && t <= |idx|
    requires (t > 0 ==> idx[t - 1] < i) && (t < |idx| ==> i <= idx[t])
    ensures |Keep(s, idx, true, i)| == |idx| - t
    ensures forall k :: t <= k < |idx| ==> Keep(s, idx, true, i)[k - t] == s[idx[k]]
    decreases |s| - i
  {
    if i < |s| {
      if i in idx {
        var k :| 0 <= k < |idx| && idx[k] == i;
        assert t == 0 || idx[t - 1] < idx[k];
        assert k == t;
        FollowersAt(s, idx, i + 1, t + 1);
      } else {
        assert t < |idx| ==> idx[t] in idx;
        FollowersAt(s, idx, i + 1, t);
      }
    }
  }

  /** An item that stays behind never moves back: its new position is at most its old one. */
  lemma {:induction false} StaysInOrder<T>(s: seq<T>, idx: seq<nat>, i: nat, j: nat) returns (p: nat)
    requires i <= j < |s| && j !in idx
    ensures p <= j - i && p < |Keep(s, idx, false, i)| && Keep(s, idx, false, i)[p] == s[j]
    decreases |s| - i
  {
    if i == j {
      p := 0;
    } else {
      var q := StaysInOrder(s, idx, i + 1, j);
      p := if i in idx then q else q + 1;
    }
  }

  /** Two items that stay behind keep their order. */
  lemma {:induction false} StaysBehind<T>(s: seq<T>, idx: seq<nat>, i: nat, j: nat, j': nat) returns (p: nat, p': nat)
    requires i <= j < j' < |s| && j !in idx && j' !in idx
    ensures p < p' < |Keep(s, idx, false, i)| && p <= j - i && p' <= j' - i
    ensures Keep(s, idx, false, i)[p] == s[j] && Keep(s, idx, false, i)[p'] == s[j']
    decreases |s| - i
  {
    if i == j {
      var q := StaysInOrder(s, idx, i + 1, j');
      p, p' := 0, q + 1;
    } else {
      var q, q' := StaysBehind(s, idx, i + 1, j, j');
      p, p' := if i in idx then q else q + 1, if i in idx then q' else q' + 1;
    }
  }

  /** A stretch without chosen positions is kept whole. */
  lemma {:induction false} KeepStretch<T>(s: seq<T>, idx: seq<nat>, i: nat, hi: nat)
    requires i <= hi <= |s| && forall k :: i <= k < hi ==> k !in idx
    ensures Keep(s, idx, false, i) == s[i..hi] + Keep(s, idx, false, hi)
    ensures Keep(s, idx, true, i) == Keep(s, idx, true, hi)
    decreases hi - i
  {
    if i < hi {
      KeepStretch(s, idx, i + 1, hi);
      assert s[i..hi] == [s[i]] + s[i + 1..hi];
    }
  }

  // ---------- A good batch, in plain numbers ----------

  /**
   * Lengths of a batch, the leader's first, and of what is left behind: no more items than allowed; all within a
   * factor of two of the leader; padded to the longest, no more tokens than allowed, unless the leader alone has more
   * and then it rides alone; and nobody left behind who is within the factor could ride along below the item cap.
   */
  ghost predicate GoodBatch(batch: seq<nat>, left: seq<nat>, maxItems: nat, maxTokens: nat) {
    && batch != [] && (maxItems > 0 ==> |batch| <= maxItems)
    && (forall i :: 0 <= i < |batch| ==> batch[i] <= 2 * batch[0] && batch[0] <= 2 * batch[i])
    && (if batch[0] <= maxTokens then forall i :: 0 <= i < |batch| ==> |batch| * batch[i] <= maxTokens else |batch| == 1)
    && (|batch| < maxItems ==>
          forall j :: 0 <= j < |left| && left[j] <= 2 * batch[0] && batch[0] <= 2 * left[j] ==> TooMany(batch, left[j], maxTokens))
  }

  /** With one more of this length some item's row would be too long for so many. */
  ghost predicate TooMany(batch: seq<nat>, len: nat, maxTokens: nat) {
    (|batch| + 1) * len > maxTokens || exists i :: 0 <= i < |batch| && (|batch| + 1) * batch[i] > maxTokens
  }

  /** The part's items come in the line's order. */
  ghost predicate InOrder<T>(part: seq<T>, line: seq<T>) {
    exists at: seq<nat> :: Positions(part, line, at)
  }

  ghost predicate Positions<T>(part: seq<T>, line: seq<T>, at: seq<nat>) {
    |at| == |part| && Ascending(at, |line|) && forall i :: 0 <= i < |part| ==> part[i] == line[at[i]]
  }

  lemma {:induction false} LongestIsOne(target: nat, lens: seq<nat>, idx: seq<nat>)
    requires forall k :: 0 <= k < |idx| ==> idx[k] < |lens|
    ensures Longest(target, lens, idx) == target || exists k :: 0 <= k < |idx| && lens[idx[k]] == Longest(target, lens, idx)
    decreases |idx|
  {
    if idx != [] {
      LongestIsOne(Max(target, lens[idx[0]]), lens, idx[1..]);
      assert forall k :: 0 <= k < |idx[1..]| ==> idx[1..][k] == idx[k + 1];
    }
  }

  /** Nobody rides with a leader that is too long. */
  lemma {:induction false} TooLongRidesAlone(target: nat, lens: seq<nat>, i: nat, maxItems: nat, maxTokens: nat)
    requires i <= |lens| && target > maxTokens
    ensures Greedy(target, lens, i, target, 0, maxItems, maxTokens) == []
    decreases |lens| - i
  {
    if i < |lens| {
      TooLongRidesAlone(target, lens, i + 1, maxItems, maxTokens);
    }
  }

  lemma {:induction false} RemainderFrom<T>(s: seq<T>, idx: seq<nat>, i: nat) returns (at: seq<nat>)
    requires i <= |s|
    ensures Positions(Keep(s, idx, false, i), s, at) && forall k :: 0 <= k < |at| ==> i <= at[k] && at[k] !in idx
    decreases |s| - i
  {
    if i == |s| {
      at := [];
    } else {
      at := RemainderFrom(s, idx, i + 1);
      if i !in idx {
        at := [i] + at;
      }
    }
  }

  lemma FollowersFrom<T>(s: seq<T>, idx: seq<nat>)
    requires Ascending(idx, |s|)
    ensures Positions(Followers(s, idx), s, idx)
  {
    FollowersAt(s, idx, 0, 0);
  }

  lemma ChosenLengths(target: nat, lens: seq<nat>, maxItems: nat, maxTokens: nat, batch: seq<nat>)
    requires var c := Chosen(target, lens, maxItems, maxTokens);
             Ascending(c, |lens|) ==> |batch| == 1 + |c| && batch[0] == target && forall k :: 0 <= k < |c| ==> batch[k + 1] == lens[c[k]]
    ensures var c := Chosen(target, lens, maxItems, maxTokens);
            && Ascending(c, |lens|)
            && (forall i :: 0 <= i < |batch| ==> batch[i] <= Longest(target, lens, c))
            && (exists i :: 0 <= i < |batch| && batch[i] == Longest(target, lens, c))
  {
    var c := Chosen(target, lens, maxItems, maxTokens);
    ChosenIsGood(target, lens, maxItems, maxTokens);
    LongestGrows(target, lens, c);
    LongestIsOne(target, lens, c);
    forall i | 0 <= i < |batch| ensures batch[i] <= Longest(target, lens, c) {
      assert i > 0 ==> batch[(i - 1) + 1] == lens[c[i - 1]];
    }
    if Longest(target, lens, c) != target {
      var k :| 0 <= k < |c| && lens[c[k]] == Longest(target, lens, c);
      assert batch[k + 1] == Longest(target, lens, c);
    }
  }

  lemma ChosenIsGoodBatch(target: nat, lens: seq<nat>, maxItems: nat, maxTokens: nat, batch: seq<nat>, left: seq<nat>, at: seq<nat>)
    requires var c := Chosen(target, lens, maxItems, maxTokens);
             Ascending(c, |lens|) ==> |batch| == 1 + |c| && batch[0] == target && forall k :: 0 <= k < |c| ==> batch[k + 1] == lens[c[k]]
    requires Positions(left, lens, at) && forall k :: 0 <= k < |at| ==> at[k] !in Chosen(target, lens, maxItems, maxTokens)
    ensures GoodBatch(batch, left, maxItems, maxTokens)
  {
    var c := Chosen(target, lens, maxItems, maxTokens);
    ChosenIsGood(target, lens, maxItems, maxTokens);
    ChosenLengths(target, lens, maxItems, maxTokens, batch);
    forall i | 0 <= i < |batch| ensures batch[i] <= 2 * batch[0] && batch[0] <= 2 * batch[i] {
      assert i > 0 ==> batch[(i - 1) + 1] == lens[c[i - 1]];
    }
    if target <= maxTokens {
      forall i | 0 <= i < |batch| ensures |batch| * batch[i] <= maxTokens {
        PaddedMonotone(|batch|, |batch|, batch[i], Longest(target, lens, c));
      }
    } else {
      TooLongRidesAlone(target, lens, 0, maxItems, maxTokens);
    }
    forall j | |batch| < maxItems && 0 <= j < |left| && left[j] <= 2 * batch[0] && batch[0] <= 2 * left[j]
      ensures TooMany(batch, left[j], maxTokens)
    {
      assert at[j] !in c && Compatible(target, lens[at[j]]) && left[j] == lens[at[j]];
      var i :| 0 <= i < |batch| && batch[i] == Longest(target, lens, c);
      assert (2 + |c|) * Max(batch[i], left[j]) > maxTokens;
    }
  }

  /** The leader and those chosen make a good batch, in arrival order, and what is left keeps its order. */
  lemma PickedIsGood<T>(first: T, rest: seq<T>, len: T -> nat, maxItems: nat, maxTokens: nat)
    ensures var c := Chosen(len(first), Lens(rest, len), maxItems, maxTokens);
            var batch, left := [first] + Followers(rest, c), Remainder(rest, c);
            && GoodBatch(Lens(batch, len), Lens(left, len), maxItems, maxTokens)
            && InOrder(batch[1..], rest) && InOrder(left, rest) && multiset(batch[1..]) + multiset(left) == multiset(rest)
  {
    var lens := Lens(rest, len);
    var c := Chosen(len(first), lens, maxItems, maxTokens);
    var batch, left := [first] + Followers(rest, c), Remainder(rest, c);
    ChosenIsGood(len(first), lens, maxItems, maxTokens);
    FollowersFrom(rest, c);
    var at := RemainderFrom(rest, c, 0);
    SplitIsPartition(rest, c, 0);
    assert rest[0..] == rest && batch[1..] == Followers(rest, c);
    assert Positions(Lens(left, len), lens, at);
    ChosenIsGoodBatch(len(first), lens, maxItems, maxTokens, Lens(batch, len), Lens(left, len), at);
  }

  // ---------- The algorithm, in place ----------

  /** The reorder buffer (a deque the batcher owns). */
  class Buffer<T> {
    var items: seq<T>

    constructor (items: seq<T>)
      ensures this.items == items
    {
      this.items := items;
    }

    /** Removes and returns the item at `i`. */
    method RemoveAt(i: nat) returns (x: T)
      requires i < |items|
      modifies this
      ensures x == old(items)[i]
      ensures items == old(items)[..i] + old(items)[i + 1..]
    {
      x := items[i];
      items := items[..i] + items[i + 1..];
    }
  }

  function Lens<T>(s: seq<T>, len: T -> nat): (r: seq<nat>)
    ensures |r| == |s| && forall i :: 0 <= i < |s| ==> r[i] == len(s[i])
  {
    seq(|s|, i requires 0 <= i < |s| => len(s[i]))
  }

  function Reversed<T>(s: seq<T>): (r: seq<T>)
    ensures |r| == |s| && forall i :: 0 <= i < |s| ==> r[i] == s[|s| - 1 - i]
  {
    seq(|s|, i requires 0 <= i < |s| => s[|s| - 1 - i])
  }

  lemma ReversedAppend<T>(s: seq<T>, x: T)
    ensures Reversed(s + [x]) == [x] + Reversed(s)
  {
  }

  /** Takes a batch led by `first` out of the buffer. */
  method PickBatch<T>(first: T, buf: Buffer<T>, len: T -> nat, maxItems: nat, maxTokens: nat)
    returns (batch: seq<T>)
    modifies buf
    ensures var c := Chosen(len(first), Lens(old(buf.items), len), maxItems, maxTokens);
            && batch == [first] + Followers(old(buf.items), c)
            && buf.items == Remainder(old(buf.items), c)
  {
    var target := len(first);
    var longest: nat, chosen: seq<nat> := target, [];
    ghost var before := buf.items;
    ghost var lens := Lens(before, len);
    ghost var all := Chosen(target, lens, maxItems, maxTokens);
    var i := 0;
    while i < |buf.items|
      invariant 0 <= i <= |buf.items| && buf.items == before
      invariant all == chosen + Greedy(target, lens, i, longest, |chosen|, maxItems, maxTokens)
    {
      if |chosen| + 1 >= maxItems {
        break;
      }
      var n := len(buf.items[i]);
      if Max(n, target) > 2 * Min(n, target) {
        i := i + 1;
        continue;
      }
      var l := Max(longest, n);
      if (|chosen| + 2) * l <= maxTokens {
        longest := l;
        chosen := chosen + [i];
      }
      i := i + 1;
    }
    assert chosen == all;
    GreedyAscends(target, lens, 0, target, 0, maxItems, maxTokens);
    var picked := TakeOut(buf, chosen);
    batch := [first] + Reversed(picked);
  }

  /** Removes the chosen positions, the highest first, so earlier removals do not shift the ones to come. */
  method TakeOut<T>(buf: Buffer<T>, chosen: seq<nat>) returns (picked: seq<T>)
    requires Ascending(chosen, |buf.items|)
    modifies buf
    ensures Reversed(picked) == Followers(old(buf.items), chosen)
    ensures buf.items == Remainder(old(buf.items), chosen)
  {
    ghost var s := buf.items;
    ghost var lo := |s|;
    picked := [];
    var k := |chosen|;
    assert forall j :: 0 <= j < k ==> chosen[j] < lo;
    while k > 0
      invariant 0 <= k <= |chosen| && lo == if k == |chosen| then |s| else chosen[k]
      invariant buf.items == s[..lo] + Keep(s, chosen, false, lo)
      invariant Reversed(picked) == Keep(s, chosen, true, lo)
    {
      k := k - 1;
      var q := chosen[k];
      Gap(s, chosen, k, lo);
      var x := buf.RemoveAt(q);
      ReversedAppend(picked, x);
      picked := picked + [x];
      lo := q;
    }
    KeepStretchBelow(s, chosen, lo);
  }

  /** Between a chosen position and the next one up nothing was chosen. */
  lemma Gap<T>(s: seq<T>, idx: seq<nat>, k: nat, hi: nat)
    requires Ascending(idx, |s|) && k < |idx| && hi == if k + 1 == |idx| then |s| else idx[k + 1]
    ensures Keep(s, idx, false, idx[k]) == s[idx[k] + 1..hi] + Keep(s, idx, false, hi)
    ensures Keep(s, idx, true, idx[k]) == [s[idx[k]]] + Keep(s, idx, true, hi)
  {
    forall p: nat | idx[k] < p < hi ensures p !in idx {
      assert forall j :: 0 <= j < |idx| ==> if j <= k then idx[j] <= idx[k] else hi <= idx[j];
    }
    assert idx[k] in idx;
    KeepStretch(s, idx, idx[k] + 1, hi);
  }

  lemma KeepStretchBelow<T>(s: seq<T>, idx: seq<nat>, lo: nat)
    requires Ascending(idx, |s|) && lo == if idx == [] then |s| else idx[0]
    ensures Keep(s, idx, false, 0) == s[..lo] + Keep(s, idx, false, lo)
    ensures Keep(s, idx, true, 0) == Keep(s, idx, true, lo)
  {
    KeepStretch(s, idx, 0, lo);
  }
}
