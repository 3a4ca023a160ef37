/** What every run of the scheduler guarantees. */
module SchedulerTheorems {
  import opened Types
  import opened SchedulerModel
  import opened SchedulerInvariant
  import opened SchedulerSteps

  lemma {:induction false} RunKeepsInv(env: Env, states: seq<State>, steps: seq<Step>, i: nat)
    requires Run(env, states, steps) && Inv(env, states[0]) && i < |states|
    ensures Inv(env, states[i])
  {
    if i > 0 {
      RunKeepsInv(env, states, steps, i - 1);
      StepKeepsInv(env, states[i - 1], steps[i - 1]);
    }
  }

  /** Reachable from a freshly started scheduler. */
  ghost predicate Reachable(env: Env, s: State) {
    exists limits, states, steps :: ReachedBy(env, s, limits, states, steps)
  }

  ghost predicate ReachedBy(env: Env, s: State, limits: seq<Limits>, states: seq<State>, steps: seq<Step>) {
    Run(env, states, steps) && Init(states[0], limits) && states[|steps|] == s
  }

  lemma ReachableInv(env: Env, s: State)
    requires Reachable(env, s)
    ensures Inv(env, s)
  {
    var limits, states, steps :| ReachedBy(env, s, limits, states, steps);
    InitInv(env, states[0], limits);
    RunKeepsInv(env, states, steps, |steps|);
  }

  // ---------- Coalescing ----------

  /** At most one item per key that still has its entry stage ahead has subscribers, running orphans included. */
  lemma OneSubscribedItemPerKey(env: Env, s: State, g: nat, h: nat)
    requires Reachable(env, s) && g < |s.recs| && h < |s.recs|
    requires s.recs[g].job.key == s.recs[h].job.key && HasSub(s.subs, g) && HasSub(s.subs, h)
    requires Registered(s.recs[g]) && Registered(s.recs[h])
    ensures g == h
  {
    ReachableInv(env, s);
    var u :| u in s.subs && u.gen == g;
    var v :| v in s.subs && v.gen == h;
    assert SubOk(s, u) && SubOk(s, v);
  }

  /** Each entry is owned by one outstanding item; dropping an item removes its own entry or none. */
  lemma DropRemovesOwnEntryOnly(env: Env, s: State, g: nat, k: Key)
    requires Reachable(env, s) && Enabled(env, s, DropEntry(g)) && k in s.entries
    ensures var s' := Apply(env, s, DropEntry(g));
            if k in s'.entries then s'.entries[k] == s.entries[k] && g != s.entries[k] < |s.recs| && Outstanding(s.recs[s.entries[k]])
            else s.entries[k] == g && s.recs[g].job.key == k
  {
    ReachableInv(env, s);
  }

  /** A subscriber whose item died without a result can never join that item again. */
  lemma DeadItemIsUnlisted(env: Env, s: State, g: nat)
    requires Reachable(env, s) && g < |s.recs| && s.recs[g].chan.Closed?
    ensures forall k :: k in s.entries ==> s.entries[k] != g
  {
    ReachableInv(env, s);
    assert RecOk(env, s, s.recs[g]);
  }

  /** No subscriber waits for an item that is gone: its channel is resolved by then. */
  lemma GoneItemsAreResolved(env: Env, s: State, g: nat)
    requires Reachable(env, s) && g < |s.recs| && !Outstanding(s.recs[g])
    ensures !s.recs[g].chan.Pending?
  {
    ReachableInv(env, s);
    assert RecOk(env, s, s.recs[g]);
  }

  // ---------- Values ----------

  /** Every successful result a client receives is the backend's output for its own question. */
  lemma DeliveredAnswersAreRight(env: Env, s: State, d: Delivery)
    requires Reachable(env, s) && d in s.delivered && d.chan.Sent? && d.chan.outcome.Done?
    ensures d.chan.outcome.raw == Answer(env, d.key)
  {
    ReachableInv(env, s);
    assert DeliveryOk(env, s, d);
  }

  /** L1 only holds right answers, and a computed answer is there before its entry can disappear. */
  lemma CachedBeforeUnlisted(env: Env, s: State, g: nat)
    requires Reachable(env, s) && g < |s.recs|
    requires s.recs[g].chan.Sent? && s.recs[g].chan.outcome.Done?
    ensures var k := s.recs[g].job.key;
            if k in s.l1 then s.l1[k] == Answer(env, k) else k in s.evicted
  {
    ReachableInv(env, s);
    assert RecOk(env, s, s.recs[g]);
  }

  // ---------- Conservation ----------

  /** Free permits plus outstanding items make up the limit; the token counter is the outstanding items' tokens. */
  lemma Conservation(env: Env, s: State, m: nat)
    requires Reachable(env, s) && m < |s.models|
    ensures var q := s.models[m];
            && 0 <= q.permits && q.permits + Tally(s.recs, m, PermitsHeld) == q.limits.maxPending
            && q.tokens == Tally(s.recs, m, TokensCounted)
  {
    ReachableInv(env, s);
  }

  lemma TokensNeverUnderflow(env: Env, s: State, g: nat)
    requires Reachable(env, s) && Enabled(env, s, DropTokens(g))
    ensures |s.recs[g].job.enc.ids| <= s.models[s.recs[g].job.model].tokens
  {
    ReachableInv(env, s);
    TallyZero(s.recs, s.recs[g].job.model, TokensCounted, g);
  }

  lemma {:induction false} NothingLeft(recs: seq<Rec>, m: nat, what: Measure)
    requires forall g :: 0 <= g < |recs| && recs[g].job.model == m ==> !Outstanding(recs[g])
    ensures Tally(recs, m, what) == 0
  {
    if recs != [] {
      NothingLeft(recs[..|recs| - 1], m, what);
    }
  }

  // ---------- Dispatches and workers ----------

  /** Idle permits behind which a worker should wait: free, held by the batcher, or with a dispatch in the channel. */
  function Promised(q: Model): int {
    q.idle + (if HoldsIdle(q.phase) then 1 else 0) + |q.sent| - q.taken
  }

  /** They are the waiting workers and one more for each worker lost to a panicking rebuild. */
  lemma PromisedAndWaiting(env: Env, s: State, m: nat)
    requires Reachable(env, s) && m < |s.models|
    ensures var q := s.models[m]; Promised(q) == WaitingCount(q.workers) + CrashedCount(q.workers)
  {
    ReachableInv(env, s);
    assert ModelOk(s.recs, m, s.models[m]);
    CountsAddUp(s.models[m].workers);
  }

  /** Unless a rebuild panicked, a dispatch in the channel always has a worker waiting for it. */
  lemma DispatchHasWorker(env: Env, s: State, m: nat) returns (w: nat)
    requires Reachable(env, s) && m < |s.models| && s.models[m].taken < |s.models[m].sent|
    requires CrashedCount(s.models[m].workers) == 0
    ensures Enabled(env, s, TakeBatch(m, w))
  {
    PromisedAndWaiting(env, s, m);
    ReachableInv(env, s);
    assert HandshakeOk(s.models[m]);
    w := SomeoneWaits(s.models[m].workers);
  }

  ghost predicate Panics(step: Step, m: nat) {
    step.RebuildPanics? && step.m == m
  }

  /** Only a panicking rebuild adds to the workers lost. */
  lemma StepCrashes(env: Env, s: State, step: Step, m: nat)
    requires Enabled(env, s, step) && m < |s.models|
    ensures var s' := Apply(env, s, step);
            |s'.models| == |s.models|
            && CrashedCount(s'.models[m].workers) == CrashedCount(s.models[m].workers) + if Panics(step, m) then 1 else 0
  {
    if step.Admit? {
      AdmitCrashesNobody(env, s, step.c, step.jobs, step.deadline);
    } else if WorkerStep(step) {
      WorkerCrashes(env, s, step);
      OneWorkerCrashes(s, Apply(env, s, step), step, m, AfterWorker(env, s, step));
    } else {
      OthersCrashNobody(env, s, step, m);
    }
  }

  lemma OneWorkerCrashes(s: State, s': State, step: Step, m: nat, q': Model)
    requires WorkerStep(step) && step.m < |s.models| && s'.models == s.models[step.m := q'] && m < |s.models|
    requires var ws := s.models[step.m].workers;
             && step.w < |ws| == |q'.workers| && q'.workers == ws[step.w := q'.workers[step.w]]
             && !ws[step.w].Crashed? && (q'.workers[step.w].Crashed? <==> step.RebuildPanics?)
    ensures CrashedCount(s'.models[m].workers) == CrashedCount(s.models[m].workers) + if Panics(step, m) then 1 else 0
  {
    CountsUpdate(s.models[step.m].workers, step.w, q'.workers[step.w]);
  }

  lemma AdmitCrashesNobody(env: Env, s: State, c: nat, jobs: seq<Job>, deadline: nat)
    ensures var s' := AdmitSection(s, c, jobs, deadline, env.headroom).0;
            |s'.models| == |s.models| && forall m :: 0 <= m < |s.models| ==> s'.models[m].workers == s.models[m].workers
  {
    var joined := Joined(s, jobs);
    var raised := RaiseDeadlines(s, joined, deadline).(subs := s.subs + JoinSubs(s, c, joined));
    RegisterKeepsRaws(env, raised, c, deadline, Fresh(s, jobs));
  }

  /** A worker step changes one worker. */
  lemma WorkerCrashes(env: Env, s: State, step: Step)
    requires Enabled(env, s, step) && WorkerStep(step)
    ensures var q, q' := s.models[step.m], AfterWorker(env, s, step);
            && step.w < |q.workers| && |q'.workers| == |q.workers|
            && q'.workers == q.workers[step.w := q'.workers[step.w]] && !q.workers[step.w].Crashed?
            && (q'.workers[step.w].Crashed? <==> step.RebuildPanics?)
            && Apply(env, s, step).models == s.models[step.m := q']
  {
  }

  lemma OthersCrashNobody(env: Env, s: State, step: Step, m: nat)
    requires Enabled(env, s, step) && m < |s.models| && !step.Admit? && !WorkerStep(step)
    ensures var s' := Apply(env, s, step); |s'.models| == |s.models| && s'.models[m].workers == s.models[m].workers
  {
  }

  function PanicCount(steps: seq<Step>, m: nat): nat {
    if steps == [] then 0
    else PanicCount(steps[..|steps| - 1], m) + if steps[|steps| - 1].RebuildPanics? && steps[|steps| - 1].m == m then 1 else 0
  }

  lemma {:induction false} PanicsCounted(steps: seq<Step>, m: nat)
    ensures PanicCount(steps, m) == 0 <==> forall i :: 0 <= i < |steps| ==> !Panics(steps[i], m)
  {
    if steps != [] {
      var init := steps[..|steps| - 1];
      PanicsCounted(init, m);
      assert forall i :: 0 <= i < |init| ==> init[i] == steps[i];
    }
  }

  /** The workers lost are the panicking rebuilds of the run. */
  lemma {:induction false} RunCrashes(env: Env, states: seq<State>, steps: seq<Step>, m: nat, i: nat)
    requires Run(env, states, steps) && i < |states| && m < |states[0].models|
    requires CrashedCount(states[0].models[m].workers) == 0
    ensures m < |states[i].models| && CrashedCount(states[i].models[m].workers) == PanicCount(steps[..i], m)
  {
    if i > 0 {
      RunCrashes(env, states, steps, m, i - 1);
      StepCrashes(env, states[i - 1], steps[i - 1], m);
      assert steps[..i][..i - 1] == steps[..i - 1];
    }
  }

  lemma {:induction false} NobodyCrashed(ws: seq<Worker>)
    requires forall w :: 0 <= w < |ws| ==> !ws[w].Crashed?
    ensures CrashedCount(ws) == 0
  {
    if ws != [] {
      NobodyCrashed(ws[..|ws| - 1]);
    }
  }

  /** At the end of a run every promised permit has its waiting worker, exactly if no rebuild of the model panicked. */
  lemma HandshakeHoldsIff(env: Env, limits: seq<Limits>, states: seq<State>, steps: seq<Step>, m: nat)
    requires Run(env, states, steps) && Init(states[0], limits) && m < |limits|
    ensures m < |states[|steps|].models|
    ensures var q := states[|steps|].models[m];
            Promised(q) == WaitingCount(q.workers) <==> forall i :: 0 <= i < |steps| ==> !Panics(steps[i], m)
  {
    NobodyCrashed(states[0].models[m].workers);
    RunCrashes(env, states, steps, m, |steps|);
    assert steps[..|steps|] == steps;
    PanicsCounted(steps, m);
    assert ReachedBy(env, states[|steps|], limits, states, steps);
    PromisedAndWaiting(env, states[|steps|], m);
  }

  /** Whatever happened, the channel has room for each dispatch, so sending never blocks, and somebody can receive. */
  lemma SendNeverBlocks(env: Env, s: State, m: nat)
    requires Reachable(env, s) && Enabled(env, s, Dispatch(m))
    ensures var q := s.models[m];
            |q.sent| - q.taken < q.limits.workers && q.live > 0 && HasThread(q)
  {
    ReachableInv(env, s);
    assert HandshakeOk(s.models[m]);
    CountsAddUp(s.models[m].workers);
    var w :| 0 <= w < |s.models[m].workers| && Alive(s.models[m].workers[w]);
    OneShows(s.models[m].workers, w);
  }

  /** When the last worker retires nothing is left in the channel and the batcher holds no idle permit. */
  lemma LastRetirementLeavesNothing(env: Env, s: State, m: nat)
    requires Reachable(env, s) && m < |s.models| && s.models[m].live == 0
    ensures var q := s.models[m];
            && q.taken == |q.sent| && !HoldsIdle(q.phase) && q.idle == 0
            && forall g :: 0 <= g < |s.recs| && s.recs[g].job.model == m ==> !s.recs[g].stage.InBatch? && !s.recs[g].stage.Cached?
  {
    ReachableInv(env, s);
    var q := s.models[m];
    assert HandshakeOk(q) && ModelOk(s.recs, m, q);
    forall g | 0 <= g < |s.recs| && s.recs[g].job.model == m && (s.recs[g].stage.InBatch? || s.recs[g].stage.Cached?)
      ensures false
    {
      assert ItemHeld(q, g, s.recs[g].stage);
      var w :| 0 <= w < |q.workers| && HoldsBatch(q.workers[w], s.recs[g].stage.batch);
      OneShows(q.workers, w);
    }
  }

  // ---------- A rebuild that panics ----------

  /**
   * Once a rebuild has panicked the model counts as live for good, and its idle semaphore is never closed: `ready`
   * goes on saying ready. If it took the last thread, no dispatch is ever sent or taken again.
   */
  lemma CrashedModelLooksLive(env: Env, s: State, m: nat)
    requires Reachable(env, s) && m < |s.models| && CrashedCount(s.models[m].workers) > 0
    ensures var q := s.models[m];
            && q.live > 0 && !q.idleClosed
            && (!HasThread(q) ==> !Enabled(env, s, Dispatch(m)) && forall w :: !Enabled(env, s, TakeBatch(m, w)))
  {
    ReachableInv(env, s);
    var q := s.models[m];
    assert HandshakeOk(q);
    CountsAddUp(q.workers);
  }

  /**
   * The first dispatch after the last thread is gone fails: batch and buffer are dropped and the batcher ends. Then
   * its queue closes, and from there on new work fails at once, while the model still counts as live.
   */
  lemma FailedDispatchEndsTheModel(env: Env, s: State, m: nat)
    requires Reachable(env, s) && m < |s.models| && Enabled(env, s, DispatchFails(m))
    ensures var s1 := Apply(env, s, DispatchFails(m));
            && (forall g :: g in s.models[m].buf ==> g < |s1.recs| && s1.recs[g].stage.Doomed? && s1.recs[g].chan.Pending?)
            && s1.models[m].phase.Stopped? && s1.models[m].buf == [] && s1.models[m].live > 0
            && Enabled(env, s1, CloseQueue(m)) && !Apply(env, s1, CloseQueue(m)).models[m].open
  {
    ReachableInv(env, s);
    var q := s.models[m];
    assert ModelOk(s.recs, m, q) && HandshakeOk(q);
    forall g | g in q.buf ensures g < |s.recs| && s.recs[g].chan.Pending? {
      assert Lists(s.recs, m, q.buf, Buffered);
      var i :| 0 <= i < |q.buf| && q.buf[i] == g;
      assert s.recs[q.buf[i]].stage == Buffered && RecOk(env, s, s.recs[g]);
    }
  }

  /** Work handed to a closed queue is failed at once. */
  lemma ClosedQueueFailsFast(env: Env, s: State, g: nat)
    requires Enabled(env, s, Enqueue(g)) && !s.models[s.recs[g].job.model].open
    ensures Apply(env, s, Enqueue(g)).recs[g].chan == Sent(Failed("model workers unavailable"))
  {
  }

  /** An item's way out has begun, and it was not answered. */
  predicate Unanswered(s: State, g: nat) {
    && g < |s.recs| && !s.recs[g].chan.Sent?
    && (s.recs[g].stage.Doomed? || s.recs[g].stage.TokensBack? || s.recs[g].stage.EntryGone?
        || s.recs[g].stage.SenderGone? || s.recs[g].stage.Gone?)
  }

  lemma StepLeavesUnanswered(env: Env, s: State, step: Step, g: nat)
    requires Inv(env, s) && Enabled(env, s, step) && Unanswered(s, g)
    ensures Unanswered(Apply(env, s, step), g)
  {
    if step.Admit? {
      AdmitLeavesUnanswered(env, s, step.c, step.jobs, step.deadline, g);
    } else if MovesItems(step) {
      MovesAreMoves(env, s, step);
      assert Moved(s.recs[g], Apply(env, s, step).recs[g]);
    } else if WorkerStep(step) || ChangesPhase(step) {
      StillItems(env, s, step);
      assert Moved(s.recs[g], Apply(env, s, step).recs[g]);
    } else {
      OthersLeaveUnanswered(env, s, step, g);
    }
  }

  lemma AdmitLeavesUnanswered(env: Env, s: State, c: nat, jobs: seq<Job>, deadline: nat, g: nat)
    requires Unanswered(s, g)
    ensures Unanswered(AdmitSection(s, c, jobs, deadline, env.headroom).0, g)
  {
    var joined := Joined(s, jobs);
    var raised := RaiseDeadlines(s, joined, deadline);
    RegisterKeepsRaws(env, raised.(subs := s.subs + JoinSubs(s, c, joined)), c, deadline, Fresh(s, jobs));
  }

  lemma OthersLeaveUnanswered(env: Env, s: State, step: Step, g: nat)
    requires Enabled(env, s, step) && Unanswered(s, g)
    requires !step.Admit? && !MovesItems(step) && !WorkerStep(step) && !ChangesPhase(step)
    ensures Unanswered(Apply(env, s, step), g)
  {
  }

  /** What is dropped unanswered stays so: its subscribers will find the channel closed. */
  lemma {:induction false} DroppedIsNeverAnswered(env: Env, states: seq<State>, steps: seq<Step>, g: nat, i: nat)
    requires Run(env, states, steps) && Inv(env, states[0]) && Unanswered(states[0], g) && i < |states|
    ensures Unanswered(states[i], g)
    ensures !Outstanding(states[i].recs[g]) ==> states[i].recs[g].chan.Closed?
  {
    RunKeepsInv(env, states, steps, i);
    if i > 0 {
      DroppedIsNeverAnswered(env, states, steps, g, i - 1);
      RunKeepsInv(env, states, steps, i - 1);
      StepLeavesUnanswered(env, states[i - 1], steps[i - 1], g);
    }
    assert RecOk(env, states[i], states[i].recs[g]);
  }

  // ---------- Admission ----------

  /** A rejected request changes nothing but deadlines of entries it could have joined, and only upwards. */
  lemma RejectionRaisesDeadlinesOnly(s: State, c: nat, jobs: seq<Job>, deadline: nat, headroom: real)
    requires !AdmitSection(s, c, jobs, deadline, headroom).1
    ensures var s' := AdmitSection(s, c, jobs, deadline, headroom).0;
            && s' == s.(recs := s'.recs) && |s'.recs| == |s.recs|
            && forall g :: 0 <= g < |s.recs| ==>
                 && s'.recs[g] == s.recs[g].(deadline := s'.recs[g].deadline)
                 && s'.recs[g].deadline >= s.recs[g].deadline
                 && (s'.recs[g].deadline > s.recs[g].deadline ==> s'.recs[g].deadline == deadline && HasSub(s.subs, g))
  {
    var joined := Joined(s, jobs);
    forall k | k in joined ensures Joinable(s, k) {
      var j :| j in jobs && Joinable(s, j.key) && j.key == k;
    }
  }

  /** No entry the request could join has a deadline before the request's own. */
  predicate NoneEarlier(s: State, jobs: seq<Job>, deadline: nat) {
    forall j :: j in jobs && Joinable(s, j.key) && s.entries[j.key] < |s.recs| ==> deadline <= s.recs[s.entries[j.key]].deadline
  }

  /** A rejection changes nothing at all exactly when no entry it could join has an earlier deadline. */
  lemma RejectionChangesNothingIff(env: Env, s: State, c: nat, jobs: seq<Job>, deadline: nat)
    requires Reachable(env, s) && !AdmitSection(s, c, jobs, deadline, env.headroom).1
    ensures AdmitSection(s, c, jobs, deadline, env.headroom).0 == s <==> NoneEarlier(s, jobs, deadline)
  {
    ReachableInv(env, s);
    var joined := Joined(s, jobs);
    var s' := RaiseDeadlines(s, joined, deadline);
    if NoneEarlier(s, jobs, deadline) {
      forall g | 0 <= g < |s.recs| ensures s'.recs[g] == s.recs[g] {
        if k :| k in joined && k in s.entries && s.entries[k] == g {
          var j :| j in jobs && Joinable(s, j.key) && j.key == k;
        }
      }
      assert s'.recs == s.recs;
    } else {
      var j :| j in jobs && Joinable(s, j.key) && s.entries[j.key] < |s.recs|
        && deadline > s.recs[s.entries[j.key]].deadline;
      assert j.key in joined;
      assert s'.recs[s.entries[j.key]].deadline == deadline;
    }
  }

  lemma {:induction false} CountAtMostAll(jobs: seq<Job>, m: nat)
    ensures CountFor(jobs, m) <= |jobs|
    ensures CountFor(jobs, m) > 0 ==> exists j :: j in jobs && j.model == m
  {
    if jobs != [] {
      var init, last := jobs[..|jobs| - 1], jobs[|jobs| - 1];
      assert jobs == init + [last];
      CountAtMostAll(init, m);
      if CountFor(init, m) > 0 {
        var j :| j in init && j.model == m;
        assert j in jobs;
      } else if last.model == m {
        assert last in jobs;
      }
    }
  }

  lemma {:induction false} FreshIsPart(s: State, jobs: seq<Job>, m: nat)
    ensures CountFor(Fresh(s, jobs), m) <= CountFor(jobs, m)
  {
    if jobs != [] {
      var init, last := jobs[..|jobs| - 1], jobs[|jobs| - 1];
      FreshIsPart(s, init, m);
      var f := Fresh(s, init) + [last];
      assert f[..|f| - 1] == Fresh(s, init);
      assert CountFor(f, m) == CountFor(Fresh(s, init), m) + if last.model == m then 1 else 0;
      assert Fresh(s, init) + [] == Fresh(s, init);
    }
  }

  /**
   * With nothing outstanding for the models it touches, a request with no more jobs for a model than its limit is
   * admitted, whatever the cost estimate; with a worker left, all its items reach an open queue.
   */
  lemma IdleModelsAdmit(env: Env, s: State, c: nat, jobs: seq<Job>, deadline: nat)
    requires Reachable(env, s) && AdmitCall(env, s, c, jobs)
    requires forall m :: 0 <= m < |s.models| ==> CountFor(jobs, m) <= s.models[m].limits.maxPending
    requires forall j, g :: j in jobs && 0 <= g < |s.recs| && s.recs[g].job.model == j.model ==> !Outstanding(s.recs[g])
    ensures AdmitSection(s, c, jobs, deadline, env.headroom).1
    ensures forall j :: j in jobs && HasThread(s.models[j.model]) ==> s.models[j.model].open
  {
    ReachableInv(env, s);
    var novel := Fresh(s, jobs);
    FreshIsNovel(s, jobs);
    forall m | 0 <= m < |s.models|
      ensures Admits(s.models[m], CountFor(novel, m), TokensFor(novel, m), Max(0, deadline - s.now), env.headroom)
    {
      CountAtMostAll(novel, m);
      FreshIsPart(s, jobs, m);
      if CountFor(novel, m) > 0 {
        var j :| j in novel && j.model == m;
        NothingLeft(s.recs, m, PermitsHeld);
        NothingLeft(s.recs, m, TokensCounted);
        assert ModelOk(s.recs, m, s.models[m]);
      }
    }
    forall j | j in jobs && HasThread(s.models[j.model]) ensures s.models[j.model].open {
      assert ModelOk(s.recs, j.model, s.models[j.model]);
      var ws := s.models[j.model].workers;
      var w :| 0 <= w < |ws| && Alive(ws[w]);
      OneShows(ws, w);
    }
  }

  /** An admitted request holds one subscription per job, on the entry now listed for its key. */
  lemma AdmittedSubscribesAll(env: Env, s: State, c: nat, jobs: seq<Job>, deadline: nat, j: Job)
    requires Reachable(env, s) && AdmitCall(env, s, c, jobs) && j in jobs
    requires AdmitSection(s, c, jobs, deadline, env.headroom).1
    ensures var s' := AdmitSection(s, c, jobs, deadline, env.headroom).0;
            && j.key in s'.entries && Sub(c, j.key, s'.entries[j.key]) in s'.subs
            && (Joinable(s, j.key) ==> s'.entries[j.key] == s.entries[j.key])
            && (!Joinable(s, j.key) ==> s'.entries[j.key] >= |s.recs|)
  {
    ReachableInv(env, s);
    var joined, novel := Joined(s, jobs), Fresh(s, jobs);
    FreshIsNovel(s, jobs);
    var s1 := RaiseDeadlines(s, joined, deadline).(subs := s.subs + JoinSubs(s, c, joined));
    if Joinable(s, j.key) {
      assert j.key in joined;
      assert Sub(c, j.key, s.entries[j.key]) in s1.subs;
      RegisteredSubs(s1, c, deadline, novel, j.key);
    } else {
      RegisteredSubs(s1, c, deadline, novel, j.key);
    }
  }

  lemma {:induction false} RegisteredSubs(s: State, c: nat, deadline: nat, jobs: seq<Job>, k: Key)
    requires UniqueKeys(jobs) && forall j :: j in jobs ==> j.model < |s.models|
    ensures var s' := RegisterAll(s, c, deadline, jobs);
            && |s'.models| == |s.models| && s.subs <= s'.subs && |s'.recs| == |s.recs| + |jobs|
            && ((exists j :: j in jobs && j.key == k) ==>
                  k in s'.entries && s'.entries[k] >= |s.recs| && Sub(c, k, s'.entries[k]) in s'.subs)
            && ((forall j :: j in jobs ==> j.key != k) ==>
                  (k in s'.entries <==> k in s.entries) && (k in s.entries ==> s'.entries[k] == s.entries[k]))
  {
    if jobs != [] {
      var init, last := jobs[..|jobs| - 1], jobs[|jobs| - 1];
      assert jobs == init + [last];
      RegisteredSubs(s, c, deadline, init, k);
      assert last in jobs;
      if last.key != k && exists j :: j in jobs && j.key == k {
        var j :| j in jobs && j.key == k;
        assert j in init;
      }
      assert forall j :: j in init ==> j in jobs;
    }
  }
}
