/** `admit` as the scheduler runs it: one critical section over shared, mutable state, then the hand-over. */
module Admission {
  import opened Types
  import opened SchedulerModel
  import opened SchedulerInvariant
  import opened SchedulerSteps
  import opened Verdict

  class Scheduler {
    var recs: seq<Rec>
    var entries: map<Key, nat>
    var subs: set<Sub>
    var models: seq<Model>
    var now: nat
    ghost var l1: map<Key, Raw>
    ghost var evicted: set<Key>
    ghost var delivered: set<Delivery>

    ghost function View(): State
      reads this
    {
      State(recs, entries, subs, models, l1, evicted, delivered, now)
    }

    /** Joins live entries, else takes permits for every new item of every model, all or nothing. */
    method Admit(c: nat, jobs: seq<Job>, deadline: nat, headroom: real) returns (ok: bool, parts: seq<nat>)
      requires UniqueKeys(jobs) && (forall j :: j in jobs ==> j.model < |models|)
      requires EntriesOk(View()) && (forall u :: u in subs ==> u.client != c)
      modifies this
      ensures (View(), ok) == AdmitSection(old(View()), c, jobs, deadline, headroom)
      ensures |recs| == |old(recs)| + |parts| && parts == Generations(|old(recs)|, |parts|)
      ensures |parts| == if ok then |Fresh(old(View()), jobs)| else 0
      ensures headroom >= 0.0 ==> (ok <==> FitsAll(old(View()), jobs, deadline, headroom))
    {
      ghost var s := View();
      VerdictIsFit(s, c, jobs, deadline, headroom);
      var handles, novel := Join(c, jobs, deadline);
      ghost var raised := RaiseDeadlines(s, Joined(s, jobs), deadline);
      ghost var entered := raised.(subs := s.subs + handles);
      assert View() == entered;
      parts := [];
      FreshIsNovel(s, jobs);
      var counts := Count(novel);
      ok := Acquire(novel, counts, deadline, headroom);
      SameLimits(s, entered, novel, deadline, headroom);
      if !ok {
        subs := subs - handles;
        assert subs == s.subs && models == s.models;
        assert View() == raised;
        return;
      }
      assert View().(models := s.models) == entered;
      parts := RegisterParts(c, novel, counts, deadline, s.models);
    }

    method Join(c: nat, jobs: seq<Job>, deadline: nat) returns (handles: set<Sub>, novel: seq<Job>)
      requires EntriesOk(View()) && (forall u :: u in subs ==> u.client != c)
      modifies `recs, `subs
      ensures var s := old(View()); var joined := Joined(s, jobs);
              && recs == RaiseDeadlines(s, joined, deadline).recs
              && handles == JoinSubs(s, c, joined) && subs == s.subs + handles && novel == Fresh(s, jobs)
    {
      ghost var s := View();
      handles, novel := {}, [];
      assert recs == RaiseDeadlines(s, Joined(s, jobs[..0]), deadline).recs;
      for i := 0 to |jobs|
        invariant recs == RaiseDeadlines(s, Joined(s, jobs[..i]), deadline).recs
        invariant handles == JoinSubs(s, c, Joined(s, jobs[..i])) && subs == s.subs + handles
        invariant novel == Fresh(s, jobs[..i])
      {
        var k := jobs[i].key;
        SameJoinable(s, c, Joined(s, jobs[..i]), k);
        FreshNext(s, jobs, i);
        if k in entries && HasSub(subs, entries[k]) {
          var g := entries[k];
          recs := recs[g := recs[g].(deadline := Max(recs[g].deadline, deadline))];
          handles := handles + {Sub(c, k, g)};
          subs := subs + {Sub(c, k, g)};
          JoinOneMore(s, c, jobs, i, deadline);
        } else {
          novel := novel + [jobs[i]];
        }
      }
      assert jobs[..|jobs|] == jobs;
    }

    method Count(novel: seq<Job>) returns (counts: array<nat>)
      requires forall j :: j in novel ==> j.model < |models|
      ensures fresh(counts) && counts.Length == |models|
      ensures forall m :: 0 <= m < |models| ==> counts[m] == CountFor(novel, m)
    {
      counts := new nat[|models|](_ => 0);
      for i := 0 to |novel|
        invariant forall m :: 0 <= m < |models| ==> counts[m] == CountFor(novel[..i], m)
      {
        assert novel[..i + 1][..i] == novel[..i] && novel[i] in novel;
        counts[novel[i].model] := counts[novel[i].model] + 1;
      }
      assert novel[..|novel|] == novel;
    }

    /** Takes all permits model by model; on the first refusal gives back those already taken. */
    method Acquire(novel: seq<Job>, counts: array<nat>, deadline: nat, headroom: real) returns (ok: bool)
      requires counts.Length == |models| && forall m :: 0 <= m < |models| ==> counts[m] == CountFor(novel, m)
      modifies `models
      ensures ok == AllAdmit(old(View()), novel, deadline, headroom)
      ensures headroom >= 0.0 ==> (ok <==> NewFit(old(View()), novel, deadline, headroom))
      ensures |models| == |old(models)|
      ensures forall m :: 0 <= m < |models| ==>
                models[m] == if ok then old(models)[m].(permits := old(models)[m].permits - CountFor(novel, m)) else old(models)[m]
    {
      ghost var was := models;
      NewFitIff(View(), novel, deadline, headroom);
      var m := 0;
      while m < |models|
        invariant 0 <= m <= |models| == |was|
        invariant forall k :: 0 <= k < |was| ==>
                    models[k] == if k < m then was[k].(permits := was[k].permits - CountFor(novel, k)) else was[k]
        invariant forall k :: 0 <= k < m ==>
                    Admits(was[k], CountFor(novel, k), TokensFor(novel, k), Max(0, deadline - now), headroom)
      {
        var n := counts[m];
        if n > 0 {
          var own := TokensFor(novel, m);
          var left: nat := Max(0, deadline - now);
          var q := models[m];
          if Sheds(q, own, left, headroom) || q.permits < n {
            assert !Admits(was[m], CountFor(novel, m), own, left, headroom);
            Release(counts, m);
            return false;
          }
          models := models[m := q.(permits := q.permits - n)];
        } else {
          assert was[m].(permits := was[m].permits - CountFor(novel, m)) == was[m];
        }
        m := m + 1;
      }
      ok := true;
    }

    method Release(counts: array<nat>, hi: nat)
      requires counts.Length == |models| && hi <= |models|
      modifies `models
      ensures |models| == |old(models)|
      ensures forall k :: 0 <= k < |models| ==>
                models[k] == if k < hi then old(models)[k].(permits := old(models)[k].permits + counts[k]) else old(models)[k]
    {
      ghost var was := models;
      for m := 0 to hi
        invariant |models| == |was|
        invariant forall k :: 0 <= k < |was| ==>
                    models[k] == if k < m then was[k].(permits := was[k].permits + counts[k]) else was[k]
      {
        models := models[m := models[m].(permits := models[m].permits + counts[m])];
      }
    }

    /** Registers the new items, giving each one of the permits taken for its model. */
    method RegisterParts(c: nat, novel: seq<Job>, held: array<nat>, deadline: nat, ghost was: seq<Model>)
      returns (parts: seq<nat>)
      requires held.Length == |models| == |was| && forall j :: j in novel ==> j.model < |models|
      requires forall m :: 0 <= m < |models| ==>
                 held[m] == CountFor(novel, m) && models[m] == was[m].(permits := was[m].permits - CountFor(novel, m))
      modifies this, held
      ensures View() == RegisterAll(old(View()).(models := was), c, deadline, novel)
      ensures |recs| == |old(recs)| + |parts| && parts == Generations(|old(recs)|, |parts|) && |parts| == |novel|
    {
      ghost var s := View().(models := was);
      parts := [];
      for i := 0 to |novel|
        invariant |parts| == i && |recs| == |s.recs| + i && parts == Generations(|s.recs|, i)
        invariant |models| == |was|
        invariant Partway(View(), RegisterAll(s, c, deadline, novel[..i]), was, novel)
        invariant forall m :: 0 <= m < |was| ==> held[m] == CountFor(novel, m) - CountFor(novel[..i], m)
      {
        assert novel[i] in novel;
        NextPart(View(), s, was, novel, c, deadline, i);
        parts := parts + [|recs|];
        RegisterOne(c, novel[i], held, deadline);
      }
      assert novel[..|novel|] == novel;
      AllThere(View(), s, was, novel, c, deadline);
    }

    /** One new item: an entry, its tokens counted, one of the permits already taken, and a handle for the caller. */
    method RegisterOne(c: nat, job: Job, held: array<nat>, deadline: nat)
      requires held.Length == |models| && job.model < |models| && held[job.model] > 0
      modifies this, held
      ensures View() == RegisterHolding(old(View()), c, deadline, job)
      ensures forall m :: 0 <= m < held.Length ==> held[m] == old(held[m]) - if m == job.model then 1 else 0
    {
      entries := entries[job.key := |recs|];
      var q := models[job.model];
      models := models[job.model := q.(tokens := q.tokens + |job.enc.ids|)];
      held[job.model] := held[job.model] - 1; // the split never fails
      subs := subs + {Sub(c, job.key, |recs|)};
      recs := recs + [Rec(job, Parked, Pending, deadline)];
    }

    /** Hands the new items to their queues, lock released; a queue already closed fails the item instead. */
    method HandOver(ghost env: Env, parts: seq<nat>)
      requires forall i :: 0 <= i < |parts| ==> AtStage(View(), parts[i], Parked)
      requires NoDup(parts)
      modifies this
      ensures View() == EnqueueAll(env, old(View()), parts)
    {
      ghost var s := View();
      for i := 0 to |parts|
        invariant View() == EnqueueAll(env, s, parts[..i])
        invariant forall k :: i <= k < |parts| ==> AtStage(View(), parts[k], Parked)
      {
        assert parts[..i + 1][..i] == parts[..i];
        var g := parts[i];
        var r := recs[g];
        var q := models[r.job.model];
        if q.open {
          recs := recs[g := r.(stage := Queued)];
          models := models[r.job.model := q.(queue := q.queue + [g])];
        } else {
          recs := recs[g := r.(stage := Doomed, chan := Sent(Failed("model workers unavailable")))];
        }
      }
      assert parts[..|parts|] == parts;
    }
  }

  /** The hand-over as a run of single enqueue steps. */
  ghost function EnqueueAll(env: Env, s: State, parts: seq<nat>): State {
    if parts == [] then s
    else
      var s' := EnqueueAll(env, s, parts[..|parts| - 1]);
      if Enabled(env, s', Enqueue(parts[|parts| - 1])) then Apply(env, s', Enqueue(parts[|parts| - 1])) else s'
  }

  /** One job more is joined, or new. */
  lemma FreshNext(s: State, jobs: seq<Job>, i: nat)
    requires i < |jobs|
    ensures if Joinable(s, jobs[i].key) then Fresh(s, jobs[..i + 1]) == Fresh(s, jobs[..i])
            else Fresh(s, jobs[..i + 1]) == Fresh(s, jobs[..i]) + [jobs[i]] && Joined(s, jobs[..i + 1]) == Joined(s, jobs[..i])
  {
    var init := jobs[..i];
    assert jobs[..i + 1] == init + [jobs[i]] && jobs[..i + 1][..i] == init;
    assert Fresh(s, init) + [] == Fresh(s, init);
    assert forall j :: j in jobs[..i + 1] <==> j in init || j == jobs[i];
  }

  /** Each model has room for its new items. */
  predicate NewFit(s: State, novel: seq<Job>, deadline: nat, headroom: real) {
    forall m :: 0 <= m < |s.models| ==>
      Fits(s.models[m], CountFor(novel, m), TokensFor(novel, m), TimeLeft(s, deadline), headroom)
  }

  lemma NewFitIff(s: State, novel: seq<Job>, deadline: nat, headroom: real)
    ensures headroom >= 0.0 ==> (AllAdmit(s, novel, deadline, headroom) <==> NewFit(s, novel, deadline, headroom))
  {
    if headroom >= 0.0 {
      CountedFitIff(s, novel, deadline, headroom);
    }
  }

  /** Who joins and which deadlines are raised does not change whether the new items are admitted. */
  lemma SameLimits(s: State, s': State, novel: seq<Job>, deadline: nat, headroom: real)
    requires s'.models == s.models && s'.now == s.now
    ensures AllAdmit(s', novel, deadline, headroom) == AllAdmit(s, novel, deadline, headroom)
  {
  }

  /** Generations handed out one after the other. */
  function Generations(base: nat, n: nat): (r: seq<nat>)
    ensures |r| == n && forall i :: 0 <= i < n ==> r[i] == base + i
  {
    seq(n, i => base + i)
  }

  /** `Register` when the permit was taken beforehand. */
  function RegisterHolding(s: State, c: nat, deadline: nat, job: Job): State
    requires job.model < |s.models|
  {
    var r := Register(s, c, deadline, job);
    r.(models := r.models[job.model := r.models[job.model].(permits := s.models[job.model].permits)])
  }

  /** `v` is `r` except that all permits for `novel` are already gone. */
  ghost predicate Partway(v: State, r: State, was: seq<Model>, novel: seq<Job>) {
    && v.(models := r.models) == r && |v.models| == |was| == |r.models|
    && forall m :: 0 <= m < |was| ==>
         v.models[m] == r.models[m].(permits := was[m].permits - CountFor(novel, m))
  }

  lemma PartwayStep(v: State, r: State, was: seq<Model>, novel: seq<Job>, c: nat, deadline: nat, job: Job)
    requires Partway(v, r, was, novel) && job.model < |was|
    ensures Partway(RegisterHolding(v, c, deadline, job), Register(r, c, deadline, job), was, novel)
  {
  }

  /** The next new item has a permit to take, and taking it leads to the next state on the way. */
  lemma NextPart(v: State, s: State, was: seq<Model>, novel: seq<Job>, c: nat, deadline: nat, i: nat)
    requires i < |novel| && Partway(v, RegisterAll(s, c, deadline, novel[..i]), was, novel) && novel[i].model < |was|
    ensures CountFor(novel[..i], novel[i].model) < CountFor(novel, novel[i].model)
    ensures Partway(RegisterHolding(v, c, deadline, novel[i]), RegisterAll(s, c, deadline, novel[..i + 1]), was, novel)
    ensures forall m :: CountFor(novel[..i + 1], m) == CountFor(novel[..i], m) + if novel[i].model == m then 1 else 0
  {
    CountGrows(novel, i);
    RegisterNext(s, c, deadline, novel, i);
    PartwayStep(v, RegisterAll(s, c, deadline, novel[..i]), was, novel, c, deadline, novel[i]);
  }

  /** With every new item registered, the permits taken are the permits due. */
  lemma AllThere(v: State, s: State, was: seq<Model>, novel: seq<Job>, c: nat, deadline: nat)
    requires s.models == was && forall j :: j in novel ==> j.model < |was|
    requires Partway(v, RegisterAll(s, c, deadline, novel), was, novel)
    ensures v == RegisterAll(s, c, deadline, novel)
  {
    RegisteredPermits(s, c, deadline, novel);
    assert v.models == RegisterAll(s, c, deadline, novel).models;
  }

  lemma RegisterNext(s: State, c: nat, deadline: nat, novel: seq<Job>, i: nat)
    requires i < |novel|
    ensures RegisterAll(s, c, deadline, novel[..i + 1]) == Register(RegisterAll(s, c, deadline, novel[..i]), c, deadline, novel[i])
    ensures forall m :: CountFor(novel[..i + 1], m) == CountFor(novel[..i], m) + if novel[i].model == m then 1 else 0
  {
    assert novel[..i + 1][..i] == novel[..i];
  }

  lemma {:induction false} RegisteredPermits(s: State, c: nat, deadline: nat, jobs: seq<Job>)
    requires forall j :: j in jobs ==> j.model < |s.models|
    ensures var r := RegisterAll(s, c, deadline, jobs);
            |r.models| == |s.models| &&
            forall m :: 0 <= m < |s.models| ==> r.models[m].permits == s.models[m].permits - CountFor(jobs, m)
  {
    if jobs != [] {
      var init := jobs[..|jobs| - 1];
      assert jobs == init + [jobs[|jobs| - 1]];
      assert forall j :: j in init ==> j in jobs;
      RegisteredPermits(s, c, deadline, init);
    }
  }

  /** A prefix that stops before an item of the model counts fewer of them. */
  lemma {:induction false} CountGrows(jobs: seq<Job>, i: nat)
    requires i < |jobs|
    ensures CountFor(jobs[..i], jobs[i].model) < CountFor(jobs, jobs[i].model)
    decreases |jobs|
  {
    var n := |jobs| - 1;
    if i < n {
      CountGrows(jobs[..n], i);
      assert jobs[..n][..i] == jobs[..i];
    }
  }

  /** Taking a handle on entries that already have one changes nothing for other keys. */
  lemma SameJoinable(s: State, c: nat, keys: set<Key>, k: Key)
    requires EntriesOk(s) && forall j :: j in keys ==> Joinable(s, j)
    ensures Joinable(s, k) <==> k in s.entries && HasSub(s.subs + JoinSubs(s, c, keys), s.entries[k])
  {
    if !Joinable(s, k) {
      StillNovel(s, c, keys, k);
    } else {
      var u :| u in s.subs && u.gen == s.entries[k];
      assert u in s.subs + JoinSubs(s, c, keys);
    }
  }

  lemma JoinOneMore(s: State, c: nat, jobs: seq<Job>, i: nat, deadline: nat)
    requires i < |jobs| && Joinable(s, jobs[i].key) && EntriesOk(s)
    ensures var g := s.entries[jobs[i].key];
            var a, b := Joined(s, jobs[..i]), Joined(s, jobs[..i + 1]);
            var recs := RaiseDeadlines(s, a, deadline).recs;
            && b == a + {jobs[i].key}
            && RaiseDeadlines(s, b, deadline).recs == recs[g := recs[g].(deadline := Max(recs[g].deadline, deadline))]
            && JoinSubs(s, c, b) == JoinSubs(s, c, a) + {Sub(c, jobs[i].key, g)}
  {
    assert jobs[..i + 1] == jobs[..i] + [jobs[i]];
  }
}
