/** The batcher's last stretch before a dispatch: drop dead items, then let the oldest lead a batch. */
module Batcher {
  import opened Types
  import opened Pick
  import opened SchedulerModel
  import opened SchedulerInvariant
  import opened SchedulerTheorems

  /** The items that pass `keep`, in order. */
  function Kept(line: seq<nat>, keep: nat -> bool): seq<nat> {
    if line == [] then []
    else Kept(line[..|line| - 1], keep) + if keep(line[|line| - 1]) then [line[|line| - 1]] else []
  }

  method Retain(buf: Buffer<nat>, keep: nat -> bool)
    modifies buf
    ensures buf.items == Kept(old(buf.items), keep)
    ensures InOrder(buf.items, old(buf.items)) && forall g :: g in buf.items <==> g in old(buf.items) && keep(g)
  {
    ghost var at := KeptFrom(buf.items, keep);
    var line := buf.items;
    var kept: seq<nat> := [];
    for i := 0 to |line|
      invariant kept == Kept(line[..i], keep)
    {
      assert line[..i + 1][..i] == line[..i];
      if keep(line[i]) {
        kept := kept + [line[i]];
      }
    }
    assert line[..|line|] == line;
    buf.items := kept;
  }

  function IsLive(s: State, at: nat): nat -> bool {
    (g: nat) => g < |s.recs| && Live(s, g, at)
  }

  function LenOf(s: State): nat -> nat {
    (g: nat) => ItemLen(s.recs, g)
  }

  /** An item somebody waits for: no outcome yet, a handle on its channel somewhere, time left at `at`. */
  ghost predicate Wanted(s: State, g: nat, at: nat) {
    g < |s.recs| && s.recs[g].chan == Pending && at < s.recs[g].deadline && exists u :: u in s.subs && u.gen == g
  }

  /** How many tokens each item has. */
  function TokenCounts(recs: seq<Rec>, line: seq<nat>): (r: seq<nat>)
    requires forall i :: 0 <= i < |line| ==> line[i] < |recs|
    ensures |r| == |line| && forall i :: 0 <= i < |line| ==> r[i] == |recs[line[i]].job.enc.ids|
  {
    seq(|line|, i requires 0 <= i < |line| => |recs[line[i]].job.enc.ids|)
  }

  /** The batch led by the oldest of the line, a good one by the model's limits, and what it leaves of the line. */
  ghost predicate Leads(recs: seq<Rec>, limits: Limits, line: seq<nat>, batch: seq<nat>, left: seq<nat>) {
    && line != [] && batch != [] && batch[0] == line[0]
    && InOrder(batch[1..], line[1..]) && InOrder(left, line[1..])
    && multiset(batch) + multiset(left) == multiset(line)
    && (forall i :: 0 <= i < |batch| ==> batch[i] < |recs|) && (forall i :: 0 <= i < |left| ==> left[i] < |recs|)
    && GoodBatch(TokenCounts(recs, batch), TokenCounts(recs, left), limits.maxItems, limits.maxTokens)
  }

  /** The line holds exactly the wanted items of the buffer, in order. */
  ghost predicate WantedOf(s: State, buf: seq<nat>, at: nat, line: seq<nat>) {
    && InOrder(line, buf) && (forall i :: 0 <= i < |line| ==> Wanted(s, line[i], at))
    && forall i :: 0 <= i < |buf| && Wanted(s, buf[i], at) ==> buf[i] in line
  }

  lemma {:induction false} KeptFrom(buf: seq<nat>, keep: nat -> bool) returns (at: seq<nat>)
    ensures Positions(Kept(buf, keep), buf, at)
    ensures forall g :: g in Kept(buf, keep) <==> g in buf && keep(g)
  {
    if buf == [] {
      at := [];
    } else {
      var n := |buf| - 1;
      at := KeptFrom(buf[..n], keep);
      assert buf == buf[..n] + [buf[n]];
      if keep(buf[n]) {
        at := at + [n];
      }
    }
  }

  lemma LiveIsWanted(s: State, g: nat, at: nat)
    ensures IsLive(s, at)(g) <==> Wanted(s, g, at)
  {
  }

  lemma KeptIsWanted(s: State, buf: seq<nat>, at: nat)
    ensures WantedOf(s, buf, at, Kept(buf, IsLive(s, at)))
  {
    var keep := IsLive(s, at);
    var pos := KeptFrom(buf, keep);
    forall g: nat ensures keep(g) <==> Wanted(s, g, at) {
      LiveIsWanted(s, g, at);
    }
    assert forall i :: 0 <= i < |Kept(buf, keep)| ==> Kept(buf, keep)[i] in Kept(buf, keep);
  }

  /** The next batch of a line of known items is a good one, led by the oldest. */
  lemma NextBatchLeads(recs: seq<Rec>, q: Model)
    requires q.buf != [] && forall i :: 0 <= i < |q.buf| ==> q.buf[i] < |recs|
    ensures Leads(recs, q.limits, q.buf, NextBatch(recs, q).0, NextBatch(recs, q).1)
  {
    var first: nat, rest: seq<nat> := q.buf[0], q.buf[1..];
    var (batch, left) := NextBatch(recs, q);
    NextBatchIsPicked(recs, q);
    LeaderAndRest(q.buf, batch, left);
    PartsAreKnown(recs, q.buf, batch, left);
    CountsAreLens(recs, batch);
    CountsAreLens(recs, left);
  }

  lemma NextBatchIsPicked(recs: seq<Rec>, q: Model)
    requires q.buf != []
    ensures var (batch, left) := NextBatch(recs, q);
            && batch != [] && batch[0] == q.buf[0] && InOrder(batch[1..], q.buf[1..]) && InOrder(left, q.buf[1..])
            && multiset(batch[1..]) + multiset(left) == multiset(q.buf[1..])
            && GoodBatch(Lens(batch, g => ItemLen(recs, g)), Lens(left, g => ItemLen(recs, g)), q.limits.maxItems, q.limits.maxTokens)
  {
    var first: nat, rest: seq<nat> := q.buf[0], q.buf[1..];
    assert LineLens(recs, rest) == Lens(rest, g => ItemLen(recs, g));
    PickedIsGood(first, rest, g => ItemLen(recs, g), q.limits.maxItems, q.limits.maxTokens);
  }

  lemma LeaderAndRest(line: seq<nat>, batch: seq<nat>, left: seq<nat>)
    requires line != [] && batch != [] && batch[0] == line[0]
    requires multiset(batch[1..]) + multiset(left) == multiset(line[1..])
    ensures multiset(batch) + multiset(left) == multiset(line)
  {
    assert line == [line[0]] + line[1..] && batch == [batch[0]] + batch[1..];
  }

  lemma CountsAreLens(recs: seq<Rec>, line: seq<nat>)
    requires forall i :: 0 <= i < |line| ==> line[i] < |recs|
    ensures TokenCounts(recs, line) == Lens(line, g => ItemLen(recs, g))
  {
  }

  lemma PartsAreKnown(recs: seq<Rec>, line: seq<nat>, batch: seq<nat>, left: seq<nat>)
    requires multiset(batch) + multiset(left) == multiset(line) && forall i :: 0 <= i < |line| ==> line[i] < |recs|
    ensures (forall i :: 0 <= i < |batch| ==> batch[i] < |recs|) && (forall i :: 0 <= i < |left| ==> left[i] < |recs|)
  {
    assert forall g :: g in line ==> g < |recs|;
    forall i | 0 <= i < |batch| ensures batch[i] < |recs| {
      assert batch[i] in multiset(line);
    }
    forall i | 0 <= i < |left| ensures left[i] < |recs| {
      assert left[i] in multiset(line);
    }
  }

  /** Every dispatch of a reachable state sends a good batch, led by the oldest buffered item, and keeps the rest in order. */
  lemma DispatchLeads(env: Env, s: State, m: nat)
    requires Reachable(env, s) && Enabled(env, s, Dispatch(m))
    ensures var q, q' := s.models[m], Apply(env, s, Dispatch(m)).models[m];
            && |q'.sent| == |q.sent| + 1 && q'.sent[..|q.sent|] == q.sent
            && Leads(s.recs, q.limits, q.buf, q'.sent[|q.sent|], q'.buf)
  {
    ReachableInv(env, s);
    var q := s.models[m];
    assert ModelOk(s.recs, m, q) && Lists(s.recs, m, q.buf, Buffered);
    NextBatchLeads(s.recs, q);
  }

  /** `None` when every buffered item was dead; else the next batch of the items still live at `at`. */
  method NextDispatch(s: State, q: Model, at: nat, buf: Buffer<nat>) returns (batch: Option<seq<nat>>)
    requires buf.items == q.buf
    modifies buf
    ensures var live := Kept(q.buf, IsLive(s, at));
            if live == [] then batch == None && buf.items == []
            else batch.Some? && (batch.value, buf.items) == NextBatch(s.recs, q.(buf := live))
    ensures exists line :: WantedOf(s, q.buf, at, line)
              && if line == [] then batch == None && buf.items == []
                 else batch.Some? && Leads(s.recs, q.limits, line, batch.value, buf.items)
  {
    KeptIsWanted(s, q.buf, at);
    if Kept(q.buf, IsLive(s, at)) != [] {
      NextBatchLeads(s.recs, q.(buf := Kept(q.buf, IsLive(s, at))));
    }
    Retain(buf, IsLive(s, at));
    ghost var live := buf.items;
    if |buf.items| == 0 {
      return None;
    }
    var first := buf.RemoveAt(0);
    ghost var rest := buf.items;
    assert rest == live[1..];
    var b := PickBatch(first, buf, LenOf(s), q.limits.maxItems, q.limits.maxTokens);
    assert LineLens(s.recs, live[1..]) == Lens(rest, LenOf(s));
    return Some(b);
  }

  // ---------- The scan, step by step ----------

  /** The scan has looked at the first `n` of `line`, kept the live ones and still has the others before it. */
  ghost predicate ScannedTo(s: State, m: nat, line: seq<nat>, n: nat, at: nat, keep: nat -> bool) {
    && m < |s.models| && n <= |line|
    && s.models[m].phase == Scanning(|Kept(line[..n], keep)|, at)
    && s.models[m].buf == Kept(line[..n], keep) + line[n..]
  }

  /** Jobs, channels, subscribers and deadlines are as they were, so the same items are live and batch alike. */
  ghost predicate SameLives(s: State, s': State) {
    && s'.subs == s.subs && |s'.recs| == |s.recs|
    && forall g :: 0 <= g < |s.recs| ==> s'.recs[g] == s.recs[g].(stage := s'.recs[g].stage)
  }

  predicate ScanStep(step: Step, m: nat) {
    step == ScanKeep(m) || step == ScanDrop(m)
  }

  lemma OneScanned(env: Env, s0: State, s: State, step: Step, m: nat, line: seq<nat>, n: nat, at: nat)
    requires ScannedTo(s, m, line, n, at, IsLive(s0, at)) && SameLives(s0, s) && ScanStep(step, m) && Enabled(env, s, step)
    ensures n < |line| && ScannedTo(Apply(env, s, step), m, line, n + 1, at, IsLive(s0, at))
    ensures SameLives(s0, Apply(env, s, step)) && Apply(env, s, step).models[m].limits == s.models[m].limits
  {
    var kept, q, keep := Kept(line[..n], IsLive(s0, at)), s.models[m], IsLive(s0, at);
    assert q.phase.next == |kept| < |q.buf|;
    assert q.buf[|kept|] == line[n];
    assert line[..n + 1][..n] == line[..n];
    assert Kept(line[..n + 1], keep) == kept + if keep(line[n]) then [line[n]] else [];
    assert keep(line[n]) <==> Live(s, line[n], at);
    if step == ScanKeep(m) {
      assert kept + line[n..] == (kept + [line[n]]) + line[n + 1..];
    } else {
      assert (kept + line[n..])[..|kept|] == kept && (kept + line[n..])[|kept| + 1..] == line[n + 1..];
      assert kept + [] == kept;
    }
  }

  lemma {:induction false} ScanGoesThrough(env: Env, states: seq<State>, steps: seq<Step>, m: nat, at: nat, i: nat)
    requires Run(env, states, steps) && i < |states| && m < |states[0].models| && states[0].models[m].phase == Scanning(0, at)
    requires forall j :: 0 <= j < |steps| ==> ScanStep(steps[j], m)
    ensures ScannedTo(states[i], m, states[0].models[m].buf, i, at, IsLive(states[0], at)) && SameLives(states[0], states[i])
    ensures states[i].models[m].limits == states[0].models[m].limits
  {
    var line := states[0].models[m].buf;
    if i == 0 {
      assert line[..0] == [] && [] + line[0..] == line;
    } else {
      ScanGoesThrough(env, states, steps, m, at, i - 1);
      assert ScanStep(steps[i - 1], m) && Enabled(env, states[i - 1], steps[i - 1]);
      assert states[i] == Apply(env, states[i - 1], steps[i - 1]);
      OneScanned(env, states[0], states[i - 1], steps[i - 1], m, line, i - 1, at);
    }
  }

  lemma SameNextBatch(recs: seq<Rec>, recs': seq<Rec>, q: Model, q': Model)
    requires |recs| == |recs'| && forall g :: 0 <= g < |recs| ==> recs'[g].job == recs[g].job
    requires q.buf == q'.buf != [] && q.limits == q'.limits
    ensures NextBatch(recs, q) == NextBatch(recs', q')
  {
    var rest: seq<nat> := q.buf[1..];
    assert LineLens(recs, rest) == LineLens(recs', rest);
  }

  /** A scan at one instant leaves what `Retain` leaves for that instant, and leads to the same batch. */
  lemma ScanIsRetain(env: Env, states: seq<State>, steps: seq<Step>, m: nat, at: nat)
    requires Run(env, states, steps) && m < |states[0].models| && states[0].models[m].phase == Scanning(0, at)
    requires forall j :: 0 <= j < |steps| ==> ScanStep(steps[j], m)
    ensures var s, q := states[|steps|], states[0].models[m];
            && m < |s.models| && s.models[m].phase.Scanning?
            && (s.models[m].phase.next == |s.models[m].buf| ==>
                  var live := Kept(q.buf, IsLive(states[0], at));
                  && s.models[m].buf == live
                  && (live != [] ==> NextBatch(s.recs, s.models[m]) == NextBatch(states[0].recs, q.(buf := live))))
  {
    var line, n, q := states[0].models[m].buf, |steps|, states[0].models[m];
    ScanGoesThrough(env, states, steps, m, at, n);
    if states[n].models[m].phase.next == |states[n].models[m].buf| {
      assert line[n..] == [];
      assert line[..n] == line;
      var live := Kept(line, IsLive(states[0], at));
      if live != [] {
        SameNextBatch(states[0].recs, states[n].recs, q.(buf := live), states[n].models[m]);
      }
    }
  }
}
