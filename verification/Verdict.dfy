/** When a request is admitted and what admission does, in plain numbers: jobs counted one by one, no helper's verdict. */
module Verdict {
  import opened Types
  import opened SchedulerModel
  import opened SchedulerInvariant
  import opened SchedulerSteps
  import opened SchedulerTheorems

  // ---------- What is new ----------

  /** No item is listed for the job's key, or nobody holds a handle on the one listed. */
  predicate IsNew(s: State, j: Job) {
    j.key !in s.entries || forall u :: u in s.subs ==> u.gen != s.entries[j.key]
  }

  /** Running totals over the jobs: how many are new and for model `m`, and how many tokens those have. */
  predicate NewFor(s: State, jobs: seq<Job>, m: nat, counts: seq<nat>, tokens: seq<nat>) {
    && |counts| == |tokens| == |jobs| + 1 && counts[0] == tokens[0] == 0
    && forall i :: 0 <= i < |jobs| ==>
         if jobs[i].model == m && IsNew(s, jobs[i])
         then counts[i + 1] == counts[i] + 1 && tokens[i + 1] == tokens[i] + |jobs[i].enc.ids|
         else counts[i + 1] == counts[i] && tokens[i + 1] == tokens[i]
  }

  lemma {:induction false} TotalsOfFresh(s: State, jobs: seq<Job>, m: nat, counts: seq<nat>, tokens: seq<nat>, i: nat)
    requires NewFor(s, jobs, m, counts, tokens) && i <= |jobs|
    ensures counts[i] == CountFor(Fresh(s, jobs[..i]), m) && tokens[i] == TokensFor(Fresh(s, jobs[..i]), m)
  {
    if i > 0 {
      TotalsOfFresh(s, jobs, m, counts, tokens, i - 1);
      var j, init := jobs[i - 1], Fresh(s, jobs[..i - 1]);
      assert jobs[..i][..i - 1] == jobs[..i - 1];
      assert IsNew(s, j) <==> !Joinable(s, j.key);
      assert (init + [j])[..|init|] == init && init + [] == init;
    }
  }

  /** There are such totals for every model. */
  lemma TotalsExist(s: State, jobs: seq<Job>, m: nat) returns (counts: seq<nat>, tokens: seq<nat>)
    ensures NewFor(s, jobs, m, counts, tokens)
  {
    counts := CountsOf(s, jobs, m);
    tokens := TokensOf(s, jobs, m);
    forall i | 0 <= i < |jobs|
      ensures if jobs[i].model == m && IsNew(s, jobs[i])
              then counts[i + 1] == counts[i] + 1 && tokens[i + 1] == tokens[i] + |jobs[i].enc.ids|
              else counts[i + 1] == counts[i] && tokens[i + 1] == tokens[i]
    {
      OneMoreJob(s, jobs, m, i);
      var j := i + 1;
      assert counts[j] == CountFor(Fresh(s, jobs[..j]), m) && tokens[j] == TokensFor(Fresh(s, jobs[..j]), m);
    }
  }

  function CountsOf(s: State, jobs: seq<Job>, m: nat): (r: seq<nat>)
    ensures |r| == |jobs| + 1 && r[0] == 0 && forall i :: 0 <= i <= |jobs| ==> r[i] == CountFor(Fresh(s, jobs[..i]), m)
  {
    seq(|jobs| + 1, i requires 0 <= i <= |jobs| => CountFor(Fresh(s, jobs[..i]), m))
  }

  function TokensOf(s: State, jobs: seq<Job>, m: nat): (r: seq<nat>)
    ensures |r| == |jobs| + 1 && r[0] == 0 && forall i :: 0 <= i <= |jobs| ==> r[i] == TokensFor(Fresh(s, jobs[..i]), m)
  {
    seq(|jobs| + 1, i requires 0 <= i <= |jobs| => TokensFor(Fresh(s, jobs[..i]), m))
  }

  lemma OneMoreJob(s: State, jobs: seq<Job>, m: nat, i: nat)
    requires i < |jobs|
    ensures var before, after := Fresh(s, jobs[..i]), Fresh(s, jobs[..i + 1]);
            if jobs[i].model == m && IsNew(s, jobs[i])
            then CountFor(after, m) == CountFor(before, m) + 1 && TokensFor(after, m) == TokensFor(before, m) + |jobs[i].enc.ids|
            else CountFor(after, m) == CountFor(before, m) && TokensFor(after, m) == TokensFor(before, m)
  {
    var j, before := jobs[i], Fresh(s, jobs[..i]);
    assert jobs[..i + 1][..i] == jobs[..i];
    assert IsNew(s, j) <==> !Joinable(s, j.key);
    assert (before + [j])[..|before|] == before && before + [] == before;
  }

  // ---------- The verdict ----------

  /**
   * `n` new items of `own` tokens fit the model: there are permits for them, and the work ahead with them takes the
   * workers at most `headroom` of the time left, by the estimate if there is one and if any work is ahead.
   */
  predicate Fits(q: Model, n: nat, own: nat, left: nat, headroom: real) {
    n > 0 ==>
      && n <= q.permits
      && (q.spt <= 0.0 || q.tokens <= 0
          || (q.limits.workers > 0 && (q.tokens + own) as real * q.spt / q.limits.workers as real <= headroom * left as real))
  }

  ghost predicate FitsModel(s: State, jobs: seq<Job>, m: nat, left: nat, headroom: real)
    requires m < |s.models|
  {
    forall counts, tokens :: NewFor(s, jobs, m, counts, tokens) ==>
      Fits(s.models[m], counts[|jobs|], tokens[|jobs|], left, headroom)
  }

  function TimeLeft(s: State, deadline: nat): nat {
    if s.now < deadline then deadline - s.now else 0
  }

  ghost predicate FitsAll(s: State, jobs: seq<Job>, deadline: nat, headroom: real) {
    forall m :: 0 <= m < |s.models| ==> FitsModel(s, jobs, m, TimeLeft(s, deadline), headroom)
  }

  lemma QuotientFits(a: real, w: nat, b: real)
    requires w > 0
    ensures a / w as real <= b <==> a <= b * w as real
  {
    var r := w as real;
    assert a == (a / r) * r;
    if a / r <= b {
      assert (a / r) * r <= b * r;
    } else {
      assert (a / r) * r > b * r;
    }
  }

  lemma FitsIsAdmits(q: Model, n: nat, own: nat, left: nat, headroom: real)
    requires headroom * left as real >= 0.0
    ensures Fits(q, n, own, left, headroom) <==> Admits(q, n, own, left, headroom)
  {
    var a, b, w := (q.tokens + own) as real * q.spt, headroom * left as real, q.limits.workers;
    if w > 0 {
      QuotientFits(a, w, b);
    } else if q.spt > 0.0 && q.tokens > 0 {
      PositiveProduct((q.tokens + own) as real, q.spt);
      assert b * w as real == 0.0;
    }
  }

  lemma PositiveProduct(x: real, y: real)
    requires x > 0.0 && y > 0.0
    ensures x * y > 0.0
  {
  }

  /** A request is admitted if and only if its new items fit each model. */
  lemma AdmittedIff(s: State, c: nat, jobs: seq<Job>, deadline: nat, headroom: real)
    requires headroom >= 0.0
    ensures AdmitSection(s, c, jobs, deadline, headroom).1
       <==> FitsAll(s, jobs, deadline, headroom)
  {
    var left, novel := TimeLeft(s, deadline), Fresh(s, jobs);
    forall m | 0 <= m < |s.models|
      ensures FitsModel(s, jobs, m, left, headroom) <==> Admits(s.models[m], CountFor(novel, m), TokensFor(novel, m), left, headroom)
    {
      FitsAsAdmitted(s, jobs, m, left, headroom);
    }
  }

  /** Items counted beforehand are admitted if and only if they fit each model. */
  lemma CountedFitIff(s: State, novel: seq<Job>, deadline: nat, headroom: real)
    requires headroom >= 0.0
    ensures AllAdmit(s, novel, deadline, headroom)
       <==> forall m :: 0 <= m < |s.models| ==>
              Fits(s.models[m], CountFor(novel, m), TokensFor(novel, m), TimeLeft(s, deadline), headroom)
  {
    forall m | 0 <= m < |s.models|
      ensures Fits(s.models[m], CountFor(novel, m), TokensFor(novel, m), TimeLeft(s, deadline), headroom)
         <==> Admits(s.models[m], CountFor(novel, m), TokensFor(novel, m), TimeLeft(s, deadline), headroom)
    {
      FitsIsAdmits(s.models[m], CountFor(novel, m), TokensFor(novel, m), TimeLeft(s, deadline), headroom);
    }
  }

  lemma VerdictIsFit(s: State, c: nat, jobs: seq<Job>, deadline: nat, headroom: real)
    ensures headroom >= 0.0 ==> (AdmitSection(s, c, jobs, deadline, headroom).1 <==> FitsAll(s, jobs, deadline, headroom))
  {
    if headroom >= 0.0 {
      AdmittedIff(s, c, jobs, deadline, headroom);
    }
  }

  lemma FitsAsAdmitted(s: State, jobs: seq<Job>, m: nat, left: nat, headroom: real)
    requires m < |s.models| && headroom >= 0.0
    ensures FitsModel(s, jobs, m, left, headroom)
       <==> Admits(s.models[m], CountFor(Fresh(s, jobs), m), TokensFor(Fresh(s, jobs), m), left, headroom)
  {
    var novel := Fresh(s, jobs);
    assert jobs[..|jobs|] == jobs;
    FitsIsAdmits(s.models[m], CountFor(novel, m), TokensFor(novel, m), left, headroom);
    forall counts, tokens | NewFor(s, jobs, m, counts, tokens)
      ensures counts[|jobs|] == CountFor(novel, m) && tokens[|jobs|] == TokensFor(novel, m)
    {
      TotalsOfFresh(s, jobs, m, counts, tokens, |jobs|);
    }
    var counts, tokens := TotalsExist(s, jobs, m);
  }

  /** Nothing of `q'` is worse than `q`: as many permits, no more tokens ahead, the same estimate and workers. */
  predicate NoWorse(q: Model, q': Model) {
    q.permits <= q'.permits && q'.tokens <= q.tokens && q'.spt == q.spt && q'.limits.workers == q.limits.workers
  }

  lemma FitsStays(q: Model, q': Model, n: nat, own: nat, left: nat, left': nat, headroom: real, headroom': real)
    requires Fits(q, n, own, left, headroom) && NoWorse(q, q') && left <= left' && 0.0 <= headroom <= headroom'
    ensures Fits(q', n, own, left', headroom')
  {
    var w := q.limits.workers as real;
    if n > 0 && q'.spt > 0.0 && q'.tokens > 0 {
      var a, a' := (q.tokens + own) as real, (q'.tokens + own) as real;
      ProductGrows(a', a, q.spt, q.spt);
      ProductGrows(headroom, headroom', left as real, left' as real);
      QuotientFits(a * q.spt, q.limits.workers, headroom * left as real);
      var b, b' := headroom * left as real, headroom' * left' as real;
      ProductGrows(b, b', w, w);
      QuotientFits(a' * q.spt, q.limits.workers, b');
    }
  }

  lemma ProductGrows(x: real, x': real, y: real, y': real)
    requires 0.0 <= x <= x' && 0.0 <= y <= y'
    ensures x * y <= x' * y'
  {
    assert x * y <= x' * y;
    assert x' * y <= x' * y';
  }

  /** More time, more headroom, more permits or less work ahead never turn an admission into a rejection. */
  lemma MoreRoomNeverRejects(s: State, s': State, c: nat, jobs: seq<Job>, deadline: nat, deadline': nat, headroom: real, headroom': real)
    requires AdmitSection(s, c, jobs, deadline, headroom).1 && 0.0 <= headroom <= headroom'
    requires s'.entries == s.entries && s'.subs == s.subs && |s'.models| == |s.models|
    requires forall m :: 0 <= m < |s.models| ==> NoWorse(s.models[m], s'.models[m])
    requires TimeLeft(s, deadline) <= TimeLeft(s', deadline')
    ensures AdmitSection(s', c, jobs, deadline', headroom').1
  {
    AdmittedIff(s, c, jobs, deadline, headroom);
    AdmittedIff(s', c, jobs, deadline', headroom');
    forall m | 0 <= m < |s'.models| ensures FitsModel(s', jobs, m, TimeLeft(s', deadline'), headroom') {
      assert FitsModel(s, jobs, m, TimeLeft(s, deadline), headroom);
      forall counts, tokens | NewFor(s', jobs, m, counts, tokens)
        ensures Fits(s'.models[m], counts[|jobs|], tokens[|jobs|], TimeLeft(s', deadline'), headroom')
      {
        assert NewFor(s, jobs, m, counts, tokens);
        FitsStays(s.models[m], s'.models[m], counts[|jobs|], tokens[|jobs|], TimeLeft(s, deadline), TimeLeft(s', deadline'),
                  headroom, headroom');
      }
    }
  }

  // ---------- What admission does ----------

  /** Item `g` is one a job of the request joins. */
  predicate IsJoined(s: State, jobs: seq<Job>, g: nat) {
    exists i :: 0 <= i < |jobs| && !IsNew(s, jobs[i]) && s.entries[jobs[i].key] == g
  }

  /** The deadline of each item joined is raised to the request's, whatever the verdict; other items stay as they are. */
  lemma JoinedAreRaised(s: State, c: nat, jobs: seq<Job>, deadline: nat, headroom: real, g: nat)
    requires (forall j :: j in jobs ==> j.model < |s.models|) && g < |s.recs|
    ensures var s' := AdmitSection(s, c, jobs, deadline, headroom).0;
            && g < |s'.recs|
            && s'.recs[g] == s.recs[g].(deadline := if IsJoined(s, jobs, g) && s.recs[g].deadline < deadline then deadline
                                                    else s.recs[g].deadline)
  {
    var joined, novel := Joined(s, jobs), Fresh(s, jobs);
    RaisedIff(s, jobs, deadline, g);
    if AdmitSection(s, c, jobs, deadline, headroom).1 {
      var s1 := RaiseDeadlines(s, joined, deadline).(subs := s.subs + JoinSubs(s, c, joined));
      FreshAreKnown(s, jobs);
      RegisteredRecs(s1, c, deadline, novel);
    }
  }

  lemma RaisedIff(s: State, jobs: seq<Job>, deadline: nat, g: nat)
    requires g < |s.recs|
    ensures RaiseDeadlines(s, Joined(s, jobs), deadline).recs[g]
         == s.recs[g].(deadline := if IsJoined(s, jobs, g) && s.recs[g].deadline < deadline then deadline else s.recs[g].deadline)
  {
    var joined := Joined(s, jobs);
    if k :| k in joined && k in s.entries && s.entries[k] == g {
      var j :| j in jobs && Joinable(s, j.key) && j.key == k;
      var i :| 0 <= i < |jobs| && jobs[i] == j;
      assert !IsNew(s, jobs[i]);
    }
    if i :| 0 <= i < |jobs| && !IsNew(s, jobs[i]) && s.entries[jobs[i].key] == g {
      assert jobs[i] in jobs && Joinable(s, jobs[i].key);
      assert jobs[i].key in joined;
    }
  }

  lemma {:induction false} FreshAreKnown(s: State, jobs: seq<Job>)
    requires forall j :: j in jobs ==> j.model < |s.models|
    ensures forall j :: j in Fresh(s, jobs) ==> j.model < |s.models|
  {
    if jobs != [] {
      assert jobs[|jobs| - 1] in jobs;
      assert forall j :: j in jobs[..|jobs| - 1] ==> j in jobs;
      FreshAreKnown(s, jobs[..|jobs| - 1]);
    }
  }

  /** Registering adds one pending record a job, with its deadline, and changes no other. */
  lemma {:induction false} RegisteredRecs(s: State, c: nat, deadline: nat, jobs: seq<Job>)
    requires forall j :: j in jobs ==> j.model < |s.models|
    ensures var s' := RegisterAll(s, c, deadline, jobs);
            && |s'.models| == |s.models| && |s'.recs| == |s.recs| + |jobs|
            && (forall g :: 0 <= g < |s.recs| ==> s'.recs[g] == s.recs[g])
            && forall i :: 0 <= i < |jobs| ==> s'.recs[|s.recs| + i] == Rec(jobs[i], Parked, Pending, deadline)
  {
    if jobs != [] {
      var init := jobs[..|jobs| - 1];
      assert jobs[|jobs| - 1] in jobs && forall j :: j in init ==> j in jobs;
      RegisteredRecs(s, c, deadline, init);
    }
  }

  /** Each new job of an admitted request gets an item of its own: waiting to be queued, unanswered, with the request's deadline. */
  lemma NewAreRegistered(env: Env, s: State, c: nat, jobs: seq<Job>, deadline: nat, i: nat)
    requires Reachable(env, s) && AdmitCall(env, s, c, jobs) && AdmitSection(s, c, jobs, deadline, env.headroom).1
    requires i < |jobs| && IsNew(s, jobs[i])
    ensures var s' := AdmitSection(s, c, jobs, deadline, env.headroom).0;
            exists g :: |s.recs| <= g < |s'.recs| && s'.recs[g] == Rec(jobs[i], Parked, Pending, deadline)
                        && jobs[i].key in s'.entries && s'.entries[jobs[i].key] == g && Sub(c, jobs[i].key, g) in s'.subs
  {
    var joined, novel := Joined(s, jobs), Fresh(s, jobs);
    var s1 := RaiseDeadlines(s, joined, deadline).(subs := s.subs + JoinSubs(s, c, joined));
    AdmittedSubscribesAll(env, s, c, jobs, deadline, jobs[i]);
    FreshIsNovel(s, jobs);
    var n := NewIsFresh(s, jobs, i);
    NovelIsRegistered(s1, c, deadline, novel, n);
  }

  lemma {:induction false} NewIsFresh(s: State, jobs: seq<Job>, i: nat) returns (n: nat)
    requires i < |jobs| && IsNew(s, jobs[i])
    ensures n < |Fresh(s, jobs)| && Fresh(s, jobs)[n] == jobs[i]
  {
    var init, last := jobs[..|jobs| - 1], jobs[|jobs| - 1];
    if i < |init| {
      n := NewIsFresh(s, init, i);
    } else {
      assert !Joinable(s, last.key);
      n := |Fresh(s, init)|;
    }
  }

  lemma NovelIsRegistered(s: State, c: nat, deadline: nat, jobs: seq<Job>, n: nat)
    requires UniqueKeys(jobs) && (forall j :: j in jobs ==> j.model < |s.models|) && n < |jobs|
    ensures var s' := RegisterAll(s, c, deadline, jobs);
            && |s'.recs| == |s.recs| + |jobs| && s'.recs[|s.recs| + n] == Rec(jobs[n], Parked, Pending, deadline)
            && jobs[n].key in s'.entries && s'.entries[jobs[n].key] == |s.recs| + n
  {
    RegisteredRecs(s, c, deadline, jobs);
    RegisteredEntries(s, c, deadline, jobs);
  }

  /** A registered key is listed with the record of its own job. */
  lemma {:induction false} RegisteredEntries(s: State, c: nat, deadline: nat, jobs: seq<Job>)
    requires UniqueKeys(jobs) && (forall j :: j in jobs ==> j.model < |s.models|)
    ensures var s' := RegisterAll(s, c, deadline, jobs);
            |s'.models| == |s.models| && |s'.recs| == |s.recs| + |jobs| &&
            forall i :: 0 <= i < |jobs| ==> jobs[i].key in s'.entries && s'.entries[jobs[i].key] == |s.recs| + i
  {
    if jobs != [] {
      var init := jobs[..|jobs| - 1];
      assert jobs[|jobs| - 1] in jobs && forall j :: j in init ==> j in jobs;
      RegisteredEntries(s, c, deadline, init);
      assert forall i :: 0 <= i < |init| ==> init[i] == jobs[i] && jobs[i].key != jobs[|jobs| - 1].key;
    }
  }
}
