/** What a scan keeps had time left and somebody waiting, so nothing too late is dispatched. */
module ScanTimes {
  import opened Types
  import opened Pick
  import opened SchedulerModel
  import opened SchedulerInvariant
  import opened SchedulerSteps
  import opened SchedulerTheorems
  import opened SchedulerLiveness
  import opened Answers
  import Batcher

  /** What a scan has kept so far had time left at the scan's moment. */
  predicate ScannedInTime(recs: seq<Rec>, q: Model) {
    q.phase.Scanning? ==>
      q.phase.next <= |q.buf|
      && forall i :: 0 <= i < q.phase.next ==> q.buf[i] < |recs| && q.phase.at < recs[q.buf[i]].deadline
  }

  ghost predicate ScansInTime(s: State) {
    forall m :: 0 <= m < |s.models| ==> ScannedInTime(s.recs, s.models[m])
  }

  /** No deadline goes down. */
  predicate DeadlinesKept(s: State, s': State) {
    |s.recs| <= |s'.recs| && forall g :: 0 <= g < |s.recs| ==> s.recs[g].deadline <= s'.recs[g].deadline
  }

  /** Buffer and scan are as they were, or no scan is on. */
  predicate SameScan(q: Model, q': Model) {
    !q'.phase.Scanning? || (q'.phase == q.phase && q'.buf == q.buf)
  }

  lemma ScansStay(s: State, s': State)
    requires ScansInTime(s) && DeadlinesKept(s, s') && |s'.models| == |s.models|
    requires forall m :: 0 <= m < |s.models| ==> SameScan(s.models[m], s'.models[m]) || ScannedInTime(s'.recs, s'.models[m])
    ensures ScansInTime(s')
  {
    forall m | 0 <= m < |s'.models| ensures ScannedInTime(s'.recs, s'.models[m]) {
      assert ScannedInTime(s.recs, s.models[m]);
    }
  }

  lemma {:induction false} RegisterKeepsScans(s: State, c: nat, deadline: nat, jobs: seq<Job>)
    ensures var s' := RegisterAll(s, c, deadline, jobs);
            && |s'.models| == |s.models|
            && forall m :: 0 <= m < |s.models| ==> s'.models[m].phase == s.models[m].phase && s'.models[m].buf == s.models[m].buf
  {
    if jobs != [] {
      RegisterKeepsScans(s, c, deadline, jobs[..|jobs| - 1]);
    }
  }

  lemma AdmitScans(env: Env, s: State, c: nat, jobs: seq<Job>, deadline: nat)
    requires ScansInTime(s)
    ensures ScansInTime(AdmitSection(s, c, jobs, deadline, env.headroom).0)
  {
    var joined := Joined(s, jobs);
    var s1 := RaiseDeadlines(s, joined, deadline).(subs := s.subs + JoinSubs(s, c, joined));
    RegisterKeepsScans(s1, c, deadline, Fresh(s, jobs));
    RegisterKeepsSends(s1, c, deadline, Fresh(s, jobs));
    ScansStay(s, AdmitSection(s, c, jobs, deadline, env.headroom).0);
  }

  lemma InternalKeepsDeadlines(env: Env, s: State, step: Step)
    requires Inv(env, s) && Enabled(env, s, step) && Internal(step)
    ensures DeadlinesKept(s, Apply(env, s, step)) && |Apply(env, s, step).models| == |s.models|
  {
    StepKeepsSize(env, s, step);
    forall g | 0 <= g < |s.recs| ensures s.recs[g].deadline <= Apply(env, s, step).recs[g].deadline {
      InternalKeepsWaits(env, s, step, g);
    }
  }

  lemma StepKeepsSize(env: Env, s: State, step: Step)
    requires Enabled(env, s, step) && Internal(step)
    ensures |Apply(env, s, step).recs| == |s.recs| && |Apply(env, s, step).models| == |s.models|
  {
    if MovesItems(step) {
      MovesKeepSize(env, s, step);
    } else if WorkerStep(step) || ChangesPhase(step) {
      StillRecs(env, s, step);
      StillItems(env, s, step);
    } else if DeliveryStep(step) {
      DeliveryIsOne(env, s, step, ItemAt(s, step.m, step.w, step.i));
    } else if step.Enqueue? {
      EnqueueIsOne(env, s, step.g);
    } else {
      DropIsOne(env, s, step);
    }
  }

  lemma MovesKeepSize(env: Env, s: State, step: Step)
    requires Enabled(env, s, step) && MovesItems(step)
    ensures |Apply(env, s, step).recs| == |s.recs| && |Apply(env, s, step).models| == |s.models|
  {
  }

  lemma ScanKeepInTime(env: Env, s: State, m: nat)
    requires ScansInTime(s) && Enabled(env, s, ScanKeep(m))
    ensures var s' := Apply(env, s, ScanKeep(m)); m < |s'.models| && ScannedInTime(s'.recs, s'.models[m])
  {
    assert ScannedInTime(s.recs, s.models[m]);
  }

  lemma ScanDropInTime(env: Env, s: State, m: nat)
    requires ScansInTime(s) && Enabled(env, s, ScanDrop(m))
    ensures var s' := Apply(env, s, ScanDrop(m)); m < |s'.models| && ScannedInTime(s'.recs, s'.models[m])
  {
    assert ScannedInTime(s.recs, s.models[m]);
  }

  lemma OthersKeepScans(env: Env, s: State, step: Step, m: nat)
    requires Enabled(env, s, step) && Internal(step) && m < |s.models| && |Apply(env, s, step).models| == |s.models|
    requires !step.ScanKeep? && !step.ScanDrop? && !step.StartScan? && !step.Collect?
    ensures SameScan(s.models[m], Apply(env, s, step).models[m])
  {
    if WorkerStep(step) {
      WorkersKeepScans(env, s, step, m);
    } else if DeliveryStep(step) {
      DeliveriesKeepScans(env, s, step, m);
    } else if step.Enqueue? || Drops(step) {
      ItemsKeepScans(env, s, step, m);
    } else {
      BatcherKeepsScans(env, s, step, m);
    }
  }

  lemma WorkersKeepScans(env: Env, s: State, step: Step, m: nat)
    requires Enabled(env, s, step) && WorkerStep(step) && m < |s.models| && |Apply(env, s, step).models| == |s.models|
    ensures SameScan(s.models[m], Apply(env, s, step).models[m])
  {
  }

  lemma DeliveriesKeepScans(env: Env, s: State, step: Step, m: nat)
    requires Enabled(env, s, step) && DeliveryStep(step) && m < |s.models| && |Apply(env, s, step).models| == |s.models|
    ensures SameScan(s.models[m], Apply(env, s, step).models[m])
  {
  }

  lemma ItemsKeepScans(env: Env, s: State, step: Step, m: nat)
    requires Enabled(env, s, step) && (step.Enqueue? || Drops(step)) && m < |s.models| && |Apply(env, s, step).models| == |s.models|
    ensures SameScan(s.models[m], Apply(env, s, step).models[m])
  {
  }

  lemma BatcherKeepsScans(env: Env, s: State, step: Step, m: nat)
    requires Enabled(env, s, step) && (ChangesPhase(step) || MovesItems(step)) && m < |s.models|
    requires |Apply(env, s, step).models| == |s.models|
    requires !step.ScanKeep? && !step.ScanDrop? && !step.StartScan? && !step.Collect?
    ensures SameScan(s.models[m], Apply(env, s, step).models[m])
  {
  }

  lemma OwnScan(env: Env, s: State, step: Step, m: nat)
    requires Enabled(env, s, step) && (step.StartScan? || step.Collect? || step.ScanKeep? || step.ScanDrop?) && m < |s.models|
    ensures var s' := Apply(env, s, step);
            && m < |s'.models| && (m != step.m ==> s'.models[m] == s.models[m])
            && (step.StartScan? && m == step.m ==> s'.models[m].phase == Scanning(0, s.now))
            && (step.Collect? && m == step.m ==> s'.models[m].phase.Collecting?)
  {
  }

  lemma StepKeepsScans(env: Env, s: State, step: Step)
    requires Inv(env, s) && ScansInTime(s) && Enabled(env, s, step)
    ensures ScansInTime(Apply(env, s, step))
  {
    var s' := Apply(env, s, step);
    if step.Admit? {
      AdmitScans(env, s, step.c, step.jobs, step.deadline);
    } else if !Internal(step) {
      ClientLeaves(env, s, step);
    } else {
      InternalKeepsDeadlines(env, s, step);
      forall m | 0 <= m < |s.models| ensures SameScan(s.models[m], s'.models[m]) || ScannedInTime(s'.recs, s'.models[m]) {
        if step.StartScan? || step.Collect? || step.ScanKeep? || step.ScanDrop? {
          OwnScan(env, s, step, m);
          if step.ScanKeep? {
            ScanKeepInTime(env, s, step.m);
          } else if step.ScanDrop? {
            ScanDropInTime(env, s, step.m);
          }
        } else {
          OthersKeepScans(env, s, step, m);
        }
      }
      ScansStay(s, s');
    }
  }

  lemma {:induction false} RunKeepsScans(env: Env, states: seq<State>, steps: seq<Step>, i: nat)
    requires Run(env, states, steps) && Inv(env, states[0]) && ScansInTime(states[0]) && i < |states|
    ensures ScansInTime(states[i])
  {
    if i > 0 {
      RunKeepsScans(env, states, steps, i - 1);
      RunKeepsInv(env, states, steps, i - 1);
      StepKeepsScans(env, states[i - 1], steps[i - 1]);
    }
  }

  /** A scan begins at the present moment, and every item dispatched after it had time left then. */
  lemma DispatchedInTime(env: Env, s: State, m: nat, i: nat)
    requires Reachable(env, s) && Enabled(env, s, Dispatch(m))
    requires var q' := Apply(env, s, Dispatch(m)).models[m]; i < |q'.sent[|s.models[m].sent|]|
    ensures var g := Apply(env, s, Dispatch(m)).models[m].sent[|s.models[m].sent|][i];
            g < |s.recs| && s.models[m].phase.Scanning? && s.models[m].phase.at < s.recs[g].deadline
  {
    var limits, states, steps :| ReachedBy(env, s, limits, states, steps);
    InitInv(env, states[0], limits);
    RunKeepsScans(env, states, steps, |steps|);
    Batcher.DispatchLeads(env, s, m);
    var q, batch := s.models[m], Apply(env, s, Dispatch(m)).models[m].sent[|s.models[m].sent|];
    assert ScannedInTime(s.recs, q);
    assert batch[i] in multiset(q.buf) by {
      assert batch[i] in multiset(batch);
    }
  }

  lemma ScanStartsNow(env: Env, s: State, m: nat)
    requires Enabled(env, s, StartScan(m))
    ensures Apply(env, s, StartScan(m)).models[m].phase == Scanning(0, s.now)
  {
  }

  /** The scan drops an item exactly when nobody waits for it any more, it was told already, or its time is up. */
  lemma ScanDropsIff(env: Env, s: State, m: nat)
    requires m < |s.models| && s.models[m].phase.Scanning? && s.models[m].phase.next < |s.models[m].buf|
    requires s.models[m].buf[s.models[m].phase.next] < |s.recs|
    ensures var g, at := s.models[m].buf[s.models[m].phase.next], s.models[m].phase.at;
            && (Enabled(env, s, ScanKeep(m)) <==> Batcher.Wanted(s, g, at))
            && (Enabled(env, s, ScanDrop(m)) <==> !Batcher.Wanted(s, g, at))
  {
  }
}
