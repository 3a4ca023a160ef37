/** Every item of a batch is told its own outcome, and an item somebody waits for is answered when nothing fails. */
module Answers {
  import opened Types
  import opened Pick
  import opened SchedulerModel
  import opened SchedulerInvariant
  import opened SchedulerSteps
  import opened SchedulerTheorems
  import opened SchedulerLiveness
  import Batcher

  // ---------- Batches stay whole until they are delivered ----------

  /** The batch is in the channel, or a worker is running it. */
  predicate Undelivered(q: Model, b: nat) {
    b < |q.sent| && (q.taken <= b || exists w :: 0 <= w < |q.workers| && q.workers[w] == Running(b))
  }

  /** Each item listed, once, is one of the model's, dispatched in batch `b`. */
  predicate Whole(recs: seq<Rec>, m: nat, batch: seq<nat>, b: nat) {
    NoDup(batch) && forall i :: 0 <= i < |batch| ==> batch[i] < |recs| && recs[batch[i]].job.model == m && recs[batch[i]].stage == InBatch(b)
  }

  ghost predicate WholeOk(s: State) {
    forall m, b: nat :: 0 <= m < |s.models| && Undelivered(s.models[m], b) ==> Whole(s.recs, m, s.models[m].sent[b], b)
  }

  /** No batch becomes undelivered that was not, and the items of undelivered ones stay where they are. */
  ghost predicate Frame(s: State, s': State) {
    && |s'.models| == |s.models| && |s.recs| <= |s'.recs|
    && (forall g :: 0 <= g < |s.recs| ==> s'.recs[g].job == s.recs[g].job)
    && (forall m, b: nat :: 0 <= m < |s.models| && Undelivered(s'.models[m], b) ==>
          Undelivered(s.models[m], b) && s'.models[m].sent[b] == s.models[m].sent[b])
    && (forall g :: 0 <= g < |s.recs| && s.recs[g].stage.InBatch? && s'.recs[g].stage != s.recs[g].stage ==>
          s.recs[g].job.model < |s.models| ==> !Undelivered(s'.models[s.recs[g].job.model], s.recs[g].stage.batch))
  }

  lemma FrameKeepsWhole(s: State, s': State)
    requires WholeOk(s) && Frame(s, s')
    ensures WholeOk(s')
  {
    forall m, b: nat | 0 <= m < |s'.models| && Undelivered(s'.models[m], b) ensures Whole(s'.recs, m, s'.models[m].sent[b], b) {
      assert Whole(s.recs, m, s.models[m].sent[b], b);
    }
  }

  /** Workers and channel as they were. */
  ghost predicate SameSends(s: State, s': State) {
    && |s'.models| == |s.models|
    && forall m :: 0 <= m < |s.models| ==>
         var q, q' := s.models[m], s'.models[m];
         q'.workers == q.workers && q'.sent == q.sent && q'.taken == q.taken
  }

  lemma {:induction false} RegisterKeepsSends(s: State, c: nat, deadline: nat, jobs: seq<Job>)
    ensures var s' := RegisterAll(s, c, deadline, jobs);
            && SameSends(s, s') && |s.recs| <= |s'.recs| && s'.now == s.now
            && forall g :: 0 <= g < |s.recs| ==> s'.recs[g] == s.recs[g]
  {
    if jobs != [] {
      RegisterKeepsSends(s, c, deadline, jobs[..|jobs| - 1]);
    }
  }

  lemma AdmitFrame(env: Env, s: State, c: nat, jobs: seq<Job>, deadline: nat)
    ensures Frame(s, AdmitSection(s, c, jobs, deadline, env.headroom).0)
  {
    var joined := Joined(s, jobs);
    var raised := RaiseDeadlines(s, joined, deadline);
    RegisterKeepsSends(raised.(subs := s.subs + JoinSubs(s, c, joined)), c, deadline, Fresh(s, jobs));
  }

  lemma ClientFrame(env: Env, s: State, step: Step)
    requires Enabled(env, s, step) && !Internal(step) && !step.Admit?
    ensures Frame(s, Apply(env, s, step))
  {
  }

  lemma ItemFrame(env: Env, s: State, step: Step)
    requires Inv(env, s) && Enabled(env, s, step) && (step.Enqueue? || Drops(step))
    ensures Frame(s, Apply(env, s, step))
  {
    if step.Enqueue? {
      EnqueueIsOne(env, s, step.g);
    } else {
      DropIsOne(env, s, step);
    }
    OneItemFrame(s, Apply(env, s, step), step.g);
  }

  /** An item that is in no batch changes, and nothing else a batch could notice. */
  ghost predicate OneItem(s: State, s': State, g: nat) {
    && SameSends(s, s') && g < |s.recs| == |s'.recs| && s'.recs == s.recs[g := s'.recs[g]]
    && s'.recs[g].job == s.recs[g].job && !s.recs[g].stage.InBatch?
  }

  lemma OneItemFrame(s: State, s': State, g: nat)
    requires OneItem(s, s', g)
    ensures Frame(s, s')
  {
  }

  lemma EnqueueIsOne(env: Env, s: State, g: nat)
    requires Enabled(env, s, Enqueue(g))
    ensures OneItem(s, Apply(env, s, Enqueue(g)), g)
  {
  }

  lemma DropIsOne(env: Env, s: State, step: Step)
    requires Enabled(env, s, step) && Drops(step)
    ensures OneItem(s, Apply(env, s, step), step.g)
  {
  }

  /** What a worker delivers belongs to the batch it is delivering. */
  lemma DeliveryFrame(env: Env, s: State, step: Step)
    requires Inv(env, s) && Enabled(env, s, step) && DeliveryStep(step)
    ensures Frame(s, Apply(env, s, step))
  {
    var m, g := step.m, ItemAt(s, step.m, step.w, step.i);
    var q, b := s.models[m], s.models[m].workers[step.w].batch;
    assert ModelOk(s.recs, m, q);
    DeliveringIsNotUndelivered(s.recs, m, q, step.w);
    DeliveryIsOne(env, s, step, g);
    OneOfBatchFrame(s, Apply(env, s, step), g, m, b);
  }

  lemma DeliveringIsNotUndelivered(recs: seq<Rec>, m: nat, q: Model, w: nat)
    requires BatchesOk(recs, m, q) && w < |q.workers| && q.workers[w].Delivering?
    ensures !Undelivered(q, q.workers[w].batch)
  {
  }

  lemma OneOfBatchFrame(s: State, s': State, g: nat, m: nat, b: nat)
    requires SameSends(s, s') && g < |s.recs| == |s'.recs| && s'.recs == s.recs[g := s'.recs[g]] && s'.recs[g].job == s.recs[g].job
    requires m < |s.models| && s.recs[g].job.model == m && !Undelivered(s.models[m], b)
    requires s.recs[g].stage.InBatch? ==> s.recs[g].stage.batch == b
    ensures Frame(s, s')
  {
  }

  lemma DeliveryIsOne(env: Env, s: State, step: Step, g: nat)
    requires Enabled(env, s, step) && DeliveryStep(step) && g == ItemAt(s, step.m, step.w, step.i)
    ensures var s' := Apply(env, s, step);
            SameSends(s, s') && s'.recs == s.recs[g := s'.recs[g]] && s'.recs[g].job == s.recs[g].job
  {
  }

  lemma WorkerFrame(env: Env, s: State, step: Step)
    requires Inv(env, s) && Enabled(env, s, step) && WorkerStep(step)
    ensures Frame(s, Apply(env, s, step))
  {
    var s', m := Apply(env, s, step), step.m;
    var q, q' := s.models[m], s'.models[m];
    StillWorkers(env, s, step);
    WorkerCrashes(env, s, step);
    forall b: nat | Undelivered(q', b) ensures Undelivered(q, b) && q'.sent[b] == q.sent[b] {
      OneWorkerSends(env, s, step, b);
    }
  }

  lemma OneWorkerSends(env: Env, s: State, step: Step, b: nat)
    requires Inv(env, s) && Enabled(env, s, step) && WorkerStep(step) && Undelivered(AfterWorker(env, s, step), b)
    ensures Undelivered(s.models[step.m], b) && AfterWorker(env, s, step).sent == s.models[step.m].sent
  {
    var q, q' := s.models[step.m], AfterWorker(env, s, step);
    WorkerCrashes(env, s, step);
    WorkerKeepsSent(env, s, step);
    WorkerTakes(env, s, step);
    if q'.taken > b {
      var w :| 0 <= w < |q'.workers| && q'.workers[w] == Running(b);
      assert w != step.w ==> q.workers[w] == Running(b);
    }
  }

  /** A worker only starts running what was next in the channel. */
  lemma WorkerTakes(env: Env, s: State, step: Step)
    requires Enabled(env, s, step) && WorkerStep(step)
    ensures var q, q' := s.models[step.m], AfterWorker(env, s, step);
            && q.taken <= q'.taken && step.w < |q'.workers|
            && (q'.workers[step.w].Running? ==> q'.workers[step.w].batch == q.taken < |q.sent|)
  {
    if !step.TakeBatch? {
      OthersDoNotRun(env, s, step);
    }
  }

  lemma OthersDoNotRun(env: Env, s: State, step: Step)
    requires Enabled(env, s, step) && WorkerStep(step) && !step.TakeBatch?
    ensures var q, q' := s.models[step.m], AfterWorker(env, s, step);
            q.taken == q'.taken && step.w < |q'.workers| && !q'.workers[step.w].Running?
  {
    if step.FinishRun? {
      RunComesBack(env, s, step.m, step.w, step.reply, step.cost);
    } else {
      EndsDoNotRun(env, s, step);
    }
  }

  lemma EndsDoNotRun(env: Env, s: State, step: Step)
    requires Enabled(env, s, step) && (step.EndBatch? || step.Rebuild? || step.RebuildPanics?)
    ensures var q, q' := s.models[step.m], AfterWorker(env, s, step);
            q.taken == q'.taken && step.w < |q'.workers| && !q'.workers[step.w].Running?
  {
    match step
    case EndBatch(m, w) => EndDoesNotRun(env, s, m, w);
    case Rebuild(m, w, ok) => RebuildDoesNotRun(env, s, m, w, ok);
    case RebuildPanics(m, w) => PanicDoesNotRun(env, s, m, w);
  }

  lemma EndDoesNotRun(env: Env, s: State, m: nat, w: nat)
    requires Enabled(env, s, EndBatch(m, w))
    ensures var q, q' := s.models[m], Apply(env, s, EndBatch(m, w)).models[m];
            q.taken == q'.taken && w < |q'.workers| && !q'.workers[w].Running?
  {
  }

  lemma RebuildDoesNotRun(env: Env, s: State, m: nat, w: nat, ok: bool)
    requires Enabled(env, s, Rebuild(m, w, ok))
    ensures var q, q' := s.models[m], Apply(env, s, Rebuild(m, w, ok)).models[m];
            q.taken == q'.taken && w < |q'.workers| && !q'.workers[w].Running?
  {
  }

  lemma PanicDoesNotRun(env: Env, s: State, m: nat, w: nat)
    requires Enabled(env, s, RebuildPanics(m, w))
    ensures var q, q' := s.models[m], Apply(env, s, RebuildPanics(m, w)).models[m];
            q.taken == q'.taken && w < |q'.workers| && !q'.workers[w].Running?
  {
  }

  lemma PhaseFrame(env: Env, s: State, step: Step)
    requires Enabled(env, s, step) && ChangesPhase(step)
    ensures Frame(s, Apply(env, s, step))
  {
    StillPhases(env, s, step);
    assert SameSends(s, Apply(env, s, step));
  }

  lemma MoveFrame(env: Env, s: State, step: Step)
    requires Inv(env, s) && Enabled(env, s, step) && MovesItems(step) && !step.Dispatch? && !step.Flush?
    ensures Frame(s, Apply(env, s, step))
  {
    MovesAreMoves(env, s, step);
    MovesLeaveBatches(env, s, step);
  }

  lemma MovesLeaveBatches(env: Env, s: State, step: Step)
    requires Inv(env, s) && Enabled(env, s, step) && MovesItems(step) && !step.Dispatch? && !step.Flush?
    ensures var s' := Apply(env, s, step);
            && SameSends(s, s') && |s'.recs| == |s.recs|
            && forall g :: 0 <= g < |s.recs| && s.recs[g].stage.InBatch? ==> s'.recs[g].stage == s.recs[g].stage
  {
    var q := s.models[step.m];
    assert ModelOk(s.recs, step.m, q);
    assert Lists(s.recs, step.m, q.queue, Queued) && Lists(s.recs, step.m, q.buf, Buffered);
    MarksItems(env, s, step);
    var (gs, to, list, st) := Marked(s, step);
    MarkLeavesBatches(s.recs, step.m, list, st, gs, to);
    MovesKeepSends(env, s, step);
  }

  lemma MarkLeavesBatches(recs: seq<Rec>, m: nat, list: seq<nat>, st: Stage, gs: seq<nat>, to: Stage)
    requires Lists(recs, m, list, st) && (st.Queued? || st.Buffered?) && forall g :: g in gs ==> g in list
    ensures forall g :: 0 <= g < |recs| && recs[g].stage.InBatch? ==> Mark(recs, gs, to)[g].stage == recs[g].stage
  {
  }

  lemma MovesKeepSends(env: Env, s: State, step: Step)
    requires Enabled(env, s, step) && MovesItems(step) && !step.Dispatch? && !step.Flush?
    ensures SameSends(s, Apply(env, s, step))
  {
  }

  lemma FlushFrame(env: Env, s: State, m: nat)
    requires Inv(env, s) && Enabled(env, s, Flush(m))
    ensures Frame(s, Apply(env, s, Flush(m)))
  {
    assert ModelOk(s.recs, m, s.models[m]) && BatchesOk(s.recs, m, s.models[m]);
  }

  /** The model after one more batch was sent. */
  ghost predicate SentOneMore(s: State, s': State, m: nat, batch: seq<nat>) {
    && m < |s.models| == |s'.models| && s'.recs == Mark(s.recs, batch, InBatch(|s.models[m].sent|))
    && s'.models[m].sent == s.models[m].sent + [batch]
    && (forall k :: 0 <= k < |s.models| ==> s'.models[k].workers == s.models[k].workers && s'.models[k].taken == s.models[k].taken)
    && forall k :: 0 <= k < |s.models| && k != m ==> s'.models[k].sent == s.models[k].sent
  }

  lemma DispatchSends(env: Env, s: State, m: nat)
    requires Enabled(env, s, Dispatch(m))
    ensures SentOneMore(s, Apply(env, s, Dispatch(m)), m, NextBatch(s.recs, s.models[m]).0)
  {
  }

  lemma DispatchedAreBuffered(recs: seq<Rec>, m: nat, q: Model, batch: seq<nat>)
    requires ModelOk(recs, m, q) && q.buf != [] && batch == NextBatch(recs, q).0
    ensures NoDup(batch) && q.taken <= |q.sent|
    ensures forall g :: g in batch ==> g < |recs| && recs[g].job.model == m && recs[g].stage == Buffered
  {
    assert Lists(recs, m, q.buf, Buffered) && BatchesOk(recs, m, q);
    NextBatchDivides(recs, q);
    BatchHasNoRepeats(recs, q);
    forall g | g in batch ensures g < |recs| && recs[g].job.model == m && recs[g].stage == Buffered {
      assert g in q.buf;
    }
  }

  lemma BatchHasNoRepeats(recs: seq<Rec>, q: Model)
    requires q.buf != [] && NoDup(q.buf)
    ensures NoDup(NextBatch(recs, q).0)
  {
    var (batch, left) := NextBatch(recs, q);
    Batcher.NextBatchIsPicked(recs, q);
    Batcher.LeaderAndRest(q.buf, batch, left);
    NoDupCounts(q.buf);
    forall g: nat ensures multiset(batch)[g] <= 1 {
      assert multiset(q.buf)[g] == multiset(batch)[g] + multiset(left)[g];
    }
    CountsNoDup(batch);
  }

  /** A dispatch adds one batch, and its items are in it. */
  lemma DispatchKeepsWhole(env: Env, s: State, m: nat)
    requires Inv(env, s) && WholeOk(s) && Enabled(env, s, Dispatch(m))
    ensures WholeOk(Apply(env, s, Dispatch(m)))
  {
    DispatchSends(env, s, m);
    DispatchedAreBuffered(s.recs, m, s.models[m], NextBatch(s.recs, s.models[m]).0);
    OneMoreIsWhole(s, Apply(env, s, Dispatch(m)), m, NextBatch(s.recs, s.models[m]).0);
  }

  lemma OneMoreIsWhole(s: State, s': State, m: nat, batch: seq<nat>)
    requires WholeOk(s) && SentOneMore(s, s', m, batch) && NoDup(batch) && s.models[m].taken <= |s.models[m].sent|
    requires forall g :: g in batch ==> g < |s.recs| && s.recs[g].job.model == m && s.recs[g].stage == Buffered
    ensures WholeOk(s')
  {
    var n := |s.models[m].sent|;
    MarkedIsWhole(s.recs, m, batch, n);
    forall k, b: nat | 0 <= k < |s'.models| && Undelivered(s'.models[k], b) ensures Whole(s'.recs, k, s'.models[k].sent[b], b) {
      if k != m || b != n {
        assert Undelivered(s.models[k], b) && s'.models[k].sent[b] == s.models[k].sent[b];
        OldStaysWhole(s.recs, k, s.models[k].sent[b], b, batch, n);
      }
    }
  }

  lemma MarkedIsWhole(recs: seq<Rec>, m: nat, batch: seq<nat>, n: nat)
    requires NoDup(batch) && forall g :: g in batch ==> g < |recs| && recs[g].job.model == m
    ensures Whole(Mark(recs, batch, InBatch(n)), m, batch, n)
  {
    assert forall i :: 0 <= i < |batch| ==> batch[i] in batch;
  }

  lemma OldStaysWhole(recs: seq<Rec>, k: nat, old': seq<nat>, b: nat, batch: seq<nat>, n: nat)
    requires Whole(recs, k, old', b) && forall g :: g in batch ==> g < |recs| && recs[g].stage == Buffered
    ensures Whole(Mark(recs, batch, InBatch(n)), k, old', b)
  {
  }

  lemma StepKeepsWhole(env: Env, s: State, step: Step)
    requires Inv(env, s) && WholeOk(s) && Enabled(env, s, step)
    ensures WholeOk(Apply(env, s, step))
  {
    if step.Dispatch? {
      DispatchKeepsWhole(env, s, step.m);
    } else {
      StepIsFramed(env, s, step);
      FrameKeepsWhole(s, Apply(env, s, step));
    }
  }

  lemma StepIsFramed(env: Env, s: State, step: Step)
    requires Inv(env, s) && Enabled(env, s, step) && !step.Dispatch?
    ensures Frame(s, Apply(env, s, step))
  {
    if step.Admit? {
      AdmitFrame(env, s, step.c, step.jobs, step.deadline);
    } else if !Internal(step) {
      ClientFrame(env, s, step);
    } else if step.Enqueue? || Drops(step) {
      ItemFrame(env, s, step);
    } else if DeliveryStep(step) {
      DeliveryFrame(env, s, step);
    } else if WorkerStep(step) {
      WorkerFrame(env, s, step);
    } else if ChangesPhase(step) {
      PhaseFrame(env, s, step);
    } else if step.Flush? {
      FlushFrame(env, s, step.m);
    } else {
      MoveFrame(env, s, step);
    }
  }

  lemma {:induction false} RunKeepsWhole(env: Env, states: seq<State>, steps: seq<Step>, i: nat)
    requires Run(env, states, steps) && Inv(env, states[0]) && WholeOk(states[0]) && i < |states|
    ensures WholeOk(states[i])
  {
    if i > 0 {
      RunKeepsWhole(env, states, steps, i - 1);
      RunKeepsInv(env, states, steps, i - 1);
      StepKeepsWhole(env, states[i - 1], steps[i - 1]);
    }
  }

  lemma ReachableWhole(env: Env, s: State)
    requires Reachable(env, s)
    ensures WholeOk(s)
  {
    var limits, states, steps :| ReachedBy(env, s, limits, states, steps);
    InitInv(env, states[0], limits);
    RunKeepsWhole(env, states, steps, |steps|);
  }

  // ---------- What a step leaves alone ----------

  /** Job, stage and outcome are as they were. */
  predicate SameItem(r: Rec, r': Rec) {
    r'.job == r.job && r'.stage == r.stage && r'.chan == r.chan
  }

  /** The item is with a worker, or its output is. */
  predicate Held(s: State, g: nat) {
    && g < |s.recs| && s.recs[g].job.model < |s.models|
    && (s.recs[g].stage.Cached? || (s.recs[g].stage.InBatch? && s.recs[g].stage.batch < s.models[s.recs[g].job.model].taken))
  }

  lemma AdmitLeaves(env: Env, s: State, c: nat, jobs: seq<Job>, deadline: nat, g: nat)
    requires g < |s.recs|
    ensures var s' := AdmitSection(s, c, jobs, deadline, env.headroom).0; g < |s'.recs| && SameItem(s.recs[g], s'.recs[g])
  {
    var joined := Joined(s, jobs);
    var raised := RaiseDeadlines(s, joined, deadline);
    RegisterKeepsSends(raised.(subs := s.subs + JoinSubs(s, c, joined)), c, deadline, Fresh(s, jobs));
  }

  lemma ClientLeaves(env: Env, s: State, step: Step)
    requires Enabled(env, s, step) && !Internal(step) && !step.Admit?
    ensures Apply(env, s, step).recs == s.recs && Apply(env, s, step).models == s.models
  {
  }

  lemma MovesLeaveHeld(env: Env, s: State, step: Step, g: nat)
    requires Inv(env, s) && Enabled(env, s, step) && MovesItems(step) && Held(s, g)
    ensures var s' := Apply(env, s, step); g < |s'.recs| && SameItem(s.recs[g], s'.recs[g])
  {
    var q := s.models[step.m];
    MovesAreMoves(env, s, step);
    assert Moved(s.recs[g], Apply(env, s, step).recs[g]);
    if step.Flush? {
      FlushLeavesHeld(env, s, step.m, g);
    } else if step.Dispatch? {
      DispatchLeavesHeld(env, s, step.m, g);
    } else {
      MovesLeaveBatches(env, s, step);
    }
  }

  lemma FlushLeavesHeld(env: Env, s: State, m: nat, g: nat)
    requires Enabled(env, s, Flush(m)) && Held(s, g)
    ensures SameItem(s.recs[g], Apply(env, s, Flush(m)).recs[g])
  {
  }

  lemma DispatchLeavesHeld(env: Env, s: State, m: nat, g: nat)
    requires Inv(env, s) && Enabled(env, s, Dispatch(m)) && Held(s, g)
    ensures SameItem(s.recs[g], Apply(env, s, Dispatch(m)).recs[g])
  {
    var q := s.models[m];
    assert ModelOk(s.recs, m, q) && Lists(s.recs, m, q.buf, Buffered);
    NextBatchDivides(s.recs, q);
  }

  /** Only the worker that has it does anything to an item in a worker's hands. */
  lemma HeldStays(env: Env, s: State, step: Step, g: nat)
    requires Inv(env, s) && Enabled(env, s, step) && !DeliveryStep(step) && Held(s, g)
    ensures var s' := Apply(env, s, step); g < |s'.recs| && SameItem(s.recs[g], s'.recs[g])
  {
    if step.Admit? {
      AdmitLeaves(env, s, step.c, step.jobs, step.deadline, g);
    } else if !Internal(step) {
      ClientLeaves(env, s, step);
    } else if step.Enqueue? || Drops(step) {
      ItemLeavesHeld(env, s, step, g);
    } else if WorkerStep(step) || ChangesPhase(step) {
      StillRecs(env, s, step);
    } else {
      MovesLeaveHeld(env, s, step, g);
    }
  }

  lemma ItemLeavesHeld(env: Env, s: State, step: Step, g: nat)
    requires Enabled(env, s, step) && (step.Enqueue? || Drops(step)) && Held(s, g)
    ensures var s' := Apply(env, s, step); g < |s'.recs| && s'.recs[g] == s.recs[g]
  {
    if step.Enqueue? {
      EnqueueIsOne(env, s, step.g);
    } else {
      DropIsOne(env, s, step);
    }
  }

  lemma StillRecs(env: Env, s: State, step: Step)
    requires Enabled(env, s, step) && (WorkerStep(step) || ChangesPhase(step))
    ensures Apply(env, s, step).recs == s.recs
  {
  }

  lemma SentByDelivery(env: Env, s: State, step: Step, g: nat)
    requires Inv(env, s) && Enabled(env, s, step) && DeliveryStep(step) && g < |s.recs| && s.recs[g].chan.Sent?
    ensures Apply(env, s, step).recs[g].chan == s.recs[g].chan
  {
    var h := ItemAt(s, step.m, step.w, step.i);
    assert RecOk(env, s, s.recs[h]);
    DeliveryIsOne(env, s, step, h);
  }

  lemma SentByOthers(env: Env, s: State, step: Step, g: nat)
    requires Inv(env, s) && Enabled(env, s, step) && (step.Enqueue? || Drops(step)) && g < |s.recs| && s.recs[g].chan.Sent?
    ensures Apply(env, s, step).recs[g].chan == s.recs[g].chan
  {
    assert RecOk(env, s, s.recs[g]);
  }

  /** An outcome once sent stays. */
  lemma SentStays(env: Env, s: State, step: Step, g: nat)
    requires Inv(env, s) && Enabled(env, s, step) && g < |s.recs| && s.recs[g].chan.Sent?
    ensures var s' := Apply(env, s, step);
            g < |s'.recs| && s'.recs[g].job == s.recs[g].job && s'.recs[g].chan == s.recs[g].chan
  {
    if step.Admit? {
      AdmitLeaves(env, s, step.c, step.jobs, step.deadline, g);
    } else if !Internal(step) {
      ClientLeaves(env, s, step);
    } else if DeliveryStep(step) {
      SentByDelivery(env, s, step, g);
      DeliveryIsOne(env, s, step, ItemAt(s, step.m, step.w, step.i));
    } else if step.Enqueue? || Drops(step) {
      ItemFrame(env, s, step);
      SentByOthers(env, s, step, g);
    } else if WorkerStep(step) || ChangesPhase(step) {
      StillRecs(env, s, step);
    } else {
      MovesAreMoves(env, s, step);
      assert Moved(s.recs[g], Apply(env, s, step).recs[g]);
    }
  }

  // ---------- A batch tells all its items ----------

  /** What the n items of a batch are told when its run comes back with this reply. */
  predicate Hears(reply: BackendReply, n: nat, i: nat, o: Outcome) {
    match reply
    case Returned(raws) =>
      if |raws| == n then i < n && o == Done(raws[i]) else o == Failed("backend returned the wrong number of outputs")
    case Errored(msg) => o == Failed(msg)
    case Panicked => o == Failed("inference worker panicked")
  }

  /** Item `g` is the i-th of batch `b`, which worker `w` is delivering, and it has not been told yet. */
  predicate AwaitsWord(s: State, m: nat, w: nat, b: nat, i: nat, g: nat, result: RunResult) {
    && WorkerAt(s, m, w) && s.models[m].workers[w] == Delivering(b, result)
    && b < |s.models[m].sent| && i < |s.models[m].sent[b]| && s.models[m].sent[b][i] == g && NoDup(s.models[m].sent[b])
    && g < |s.recs| && s.recs[g].job.model == m
    && (s.recs[g].stage == InBatch(b) || (s.recs[g].stage == Cached(b) && result.Outputs?))
  }

  predicate IsTold(s: State, g: nat, reply: BackendReply, n: nat, i: nat) {
    g < |s.recs| && s.recs[g].chan.Sent? && Hears(reply, n, i, s.recs[g].chan.outcome)
  }

  /** Told, or about to be. */
  predicate WillHear(s: State, m: nat, w: nat, b: nat, i: nat, g: nat, reply: BackendReply, n: nat) {
    IsTold(s, g, reply, n, i) || AwaitsWord(s, m, w, b, i, g, Judge(reply, n))
  }

  lemma HeldByItsWorker(env: Env, s: State, m: nat, w: nat, b: nat, i: nat, g: nat, result: RunResult)
    requires Inv(env, s) && AwaitsWord(s, m, w, b, i, g, result)
    ensures Held(s, g)
    ensures forall v :: 0 <= v < |s.models[m].workers| && HoldsBatch(s.models[m].workers[v], b) ==> v == w
  {
    var q := s.models[m];
    assert ModelOk(s.recs, m, q) && BatchesOk(s.recs, m, q);
    forall v | 0 <= v < |q.workers| && HoldsBatch(q.workers[v], b) ensures v == w {
      assert Holding(q.workers[v]) && Holding(q.workers[w]);
    }
  }

  /** The delivering worker tells the item what its position in the batch says. */
  lemma DeliveryTells(env: Env, s: State, step: Step, m: nat, w: nat, b: nat, i: nat, g: nat, reply: BackendReply, n: nat)
    requires Inv(env, s) && Enabled(env, s, step) && DeliveryStep(step)
    requires AwaitsWord(s, m, w, b, i, g, Judge(reply, n)) && n == |s.models[m].sent[b]|
    requires step.m == m && ItemAt(s, step.m, step.w, step.i) == g
    ensures WillHear(Apply(env, s, step), m, w, b, i, g, reply, n)
  {
    HeldByItsWorker(env, s, m, w, b, i, g, Judge(reply, n));
    assert HoldsBatch(s.models[m].workers[step.w], b);
    assert step.w == w && step.i == i;
    DeliveryIsOne(env, s, step, g);
    if !step.PutL1? {
      TellsByPosition(env, s, step, reply, n);
    }
  }

  lemma TellsByPosition(env: Env, s: State, step: Step, reply: BackendReply, n: nat)
    requires Enabled(env, s, step) && (step.SendOk? || step.SendErr?)
    requires s.models[step.m].workers[step.w].result == Judge(reply, n) && n == |s.models[step.m].sent[s.models[step.m].workers[step.w].batch]|
    ensures IsTold(Apply(env, s, step), ItemAt(s, step.m, step.w, step.i), reply, n, step.i)
  {
  }

  lemma OtherDelivery(env: Env, s: State, step: Step, m: nat, w: nat, b: nat, i: nat, g: nat, result: RunResult)
    requires Inv(env, s) && Enabled(env, s, step) && DeliveryStep(step) && AwaitsWord(s, m, w, b, i, g, result)
    requires ItemAt(s, step.m, step.w, step.i) != g
    ensures AwaitsWord(Apply(env, s, step), m, w, b, i, g, result)
  {
    DeliveryIsOne(env, s, step, ItemAt(s, step.m, step.w, step.i));
  }

  /** While an item of its batch is left the worker stays where it is. */
  lemma WorkerWaits(env: Env, s: State, step: Step, m: nat, w: nat, b: nat, i: nat, g: nat, result: RunResult)
    requires Inv(env, s) && Enabled(env, s, step) && !DeliveryStep(step) && AwaitsWord(s, m, w, b, i, g, result)
    ensures var s' := Apply(env, s, step);
            && WorkerAt(s', m, w) && s'.models[m].workers[w] == Delivering(b, result)
            && |s.models[m].sent| <= |s'.models[m].sent| && s'.models[m].sent[b] == s.models[m].sent[b]
  {
    if WorkerStep(step) {
      WorkerCrashes(env, s, step);
      OneWorkerStays(env, s, step, m, w, b, g);
    } else {
      OthersKeepWorkers(env, s, step, m);
    }
  }

  lemma OneWorkerStays(env: Env, s: State, step: Step, m: nat, w: nat, b: nat, g: nat)
    requires Enabled(env, s, step) && WorkerStep(step) && WorkerAt(s, m, w) && s.models[m].workers[w].Delivering?
    requires b == s.models[m].workers[w].batch < |s.models[m].sent|
    requires g < |s.recs| && s.recs[g].job.model == m && (s.recs[g].stage == InBatch(b) || s.recs[g].stage == Cached(b))
    ensures var s' := Apply(env, s, step);
            WorkerAt(s', m, w) && s'.models[m].workers[w] == s.models[m].workers[w] && s'.models[m].sent == s.models[m].sent
  {
    WorkerCrashes(env, s, step);
    WorkerKeepsSent(env, s, step);
    if step.m == m && step.w == w {
      OnlyEmptyEnds(env, s, step);
    }
  }

  lemma WorkerKeepsSent(env: Env, s: State, step: Step)
    requires Enabled(env, s, step) && WorkerStep(step)
    ensures AfterWorker(env, s, step).sent == s.models[step.m].sent
  {
  }

  lemma OnlyEmptyEnds(env: Env, s: State, step: Step)
    requires Enabled(env, s, step) && WorkerStep(step) && s.models[step.m].workers[step.w].Delivering?
    ensures BatchEmpty(s.recs, step.m, s.models[step.m].workers[step.w].batch)
  {
  }

  lemma OthersKeepWorkers(env: Env, s: State, step: Step, m: nat)
    requires Inv(env, s) && Enabled(env, s, step) && !DeliveryStep(step) && !WorkerStep(step) && m < |s.models|
    ensures var s' := Apply(env, s, step);
            && m < |s'.models| && s'.models[m].workers == s.models[m].workers
            && s.models[m].sent <= s'.models[m].sent
  {
    if step.Admit? {
      var joined := Joined(s, step.jobs);
      var raised := RaiseDeadlines(s, joined, step.deadline);
      RegisterKeepsSends(raised.(subs := s.subs + JoinSubs(s, step.c, joined)), step.c, step.deadline, Fresh(s, step.jobs));
    } else if !Internal(step) {
      ClientLeaves(env, s, step);
    } else if step.Enqueue? {
      EnqueueIsOne(env, s, step.g);
    } else if Drops(step) {
      DropIsOne(env, s, step);
    } else {
      BatcherKeepsWorkers(env, s, step, m);
    }
  }

  lemma BatcherKeepsWorkers(env: Env, s: State, step: Step, m: nat)
    requires Enabled(env, s, step) && (ChangesPhase(step) || MovesItems(step)) && m < |s.models|
    ensures var s' := Apply(env, s, step);
            m < |s'.models| && s'.models[m].workers == s.models[m].workers && s.models[m].sent <= s'.models[m].sent
  {
  }

  lemma StepTells(env: Env, s: State, step: Step, m: nat, w: nat, b: nat, i: nat, g: nat, reply: BackendReply, n: nat)
    requires Inv(env, s) && Enabled(env, s, step) && WillHear(s, m, w, b, i, g, reply, n)
    requires m < |s.models| && b < |s.models[m].sent| && n == |s.models[m].sent[b]|
    ensures WillHear(Apply(env, s, step), m, w, b, i, g, reply, n)
  {
    if IsTold(s, g, reply, n, i) {
      SentStays(env, s, step, g);
    } else if DeliveryStep(step) {
      var h := ItemAt(s, step.m, step.w, step.i);
      if h == g {
        DeliveryTells(env, s, step, m, w, b, i, g, reply, n);
      } else {
        OtherDelivery(env, s, step, m, w, b, i, g, Judge(reply, n));
      }
    } else {
      HeldByItsWorker(env, s, m, w, b, i, g, Judge(reply, n));
      HeldStays(env, s, step, g);
      WorkerWaits(env, s, step, m, w, b, i, g, Judge(reply, n));
    }
  }

  lemma {:induction false} RunTells(env: Env, states: seq<State>, steps: seq<Step>, j: nat, m: nat, w: nat, b: nat, i: nat, g: nat,
                                    reply: BackendReply, n: nat)
    requires Run(env, states, steps) && Inv(env, states[0]) && j < |states| && WillHear(states[0], m, w, b, i, g, reply, n)
    requires m < |states[0].models| && b < |states[0].models[m].sent| && n == |states[0].models[m].sent[b]|
    ensures m < |states[j].models| && b < |states[j].models[m].sent| && n == |states[j].models[m].sent[b]|
    ensures WillHear(states[j], m, w, b, i, g, reply, n)
  {
    if j > 0 {
      RunTells(env, states, steps, j - 1, m, w, b, i, g, reply, n);
      RunKeepsInv(env, states, steps, j - 1);
      StepTells(env, states[j - 1], steps[j - 1], m, w, b, i, g, reply, n);
      SendsGrow(env, states[j - 1], steps[j - 1], m);
    }
  }

  lemma SendsGrow(env: Env, s: State, step: Step, m: nat)
    requires Inv(env, s) && Enabled(env, s, step) && m < |s.models|
    ensures var s' := Apply(env, s, step); m < |s'.models| && s.models[m].sent <= s'.models[m].sent
  {
    if WorkerStep(step) {
      WorkerCrashes(env, s, step);
      WorkerKeepsSent(env, s, step);
    } else if DeliveryStep(step) {
      DeliveryIsOne(env, s, step, ItemAt(s, step.m, step.w, step.i));
    } else {
      OthersKeepWorkers(env, s, step, m);
    }
  }

  /** Worker `w` runs a batch, and its run comes back with this reply. */
  ghost predicate RunsBatch(env: Env, s: State, m: nat, w: nat, reply: BackendReply, cost: real) {
    Enabled(env, s, FinishRun(m, w, reply, cost))
  }

  lemma RunStartsTelling(env: Env, s: State, m: nat, w: nat, reply: BackendReply, cost: real, i: nat)
    requires Inv(env, s) && WholeOk(s) && RunsBatch(env, s, m, w, reply, cost)
    requires i < |s.models[m].sent[s.models[m].workers[w].batch]|
    ensures var b, s' := s.models[m].workers[w].batch, Apply(env, s, FinishRun(m, w, reply, cost));
            && m < |s'.models| && s'.models[m].sent == s.models[m].sent
            && WillHear(s', m, w, b, i, s.models[m].sent[b][i], reply, |s.models[m].sent[b]|)
  {
    var q, b := s.models[m], s.models[m].workers[w].batch;
    assert q.workers[w] == Running(b) && Undelivered(q, b);
    assert Whole(s.recs, m, q.sent[b], b);
    RunComesBack(env, s, m, w, reply, cost);
  }

  lemma RunComesBack(env: Env, s: State, m: nat, w: nat, reply: BackendReply, cost: real)
    requires RunsBatch(env, s, m, w, reply, cost)
    ensures var b, s' := s.models[m].workers[w].batch, Apply(env, s, FinishRun(m, w, reply, cost));
            && s'.recs == s.recs && m < |s'.models| && s'.models[m].sent == s.models[m].sent && w < |s'.models[m].workers|
            && s'.models[m].taken == s.models[m].taken
            && b < |s.models[m].sent| && s'.models[m].workers[w] == Delivering(b, Judge(reply, |s.models[m].sent[b]|))
  {
  }

  /**
   * Whatever the reply and whatever else happens meanwhile: once the worker is no longer delivering, each item of the
   * batch has been told what the reply says for its own position. A success is its own output; an error, a wrong
   * number of outputs and a panic are told to all.
   */
  lemma BatchTellsAll(env: Env, states: seq<State>, steps: seq<Step>, m: nat, w: nat, reply: BackendReply, cost: real, i: nat)
    requires Run(env, states, steps) && Reachable(env, states[0]) && steps != [] && steps[0] == FinishRun(m, w, reply, cost)
    requires var q := states[0].models[m]; i < |q.sent[q.workers[w].batch]|
    requires var last, b := states[|steps|], states[0].models[m].workers[w].batch;
             WorkerAt(last, m, w) && !HoldsBatch(last.models[m].workers[w], b)
    ensures var q := states[0].models[m];
            var batch := q.sent[q.workers[w].batch];
            IsTold(states[|steps|], batch[i], reply, |batch|, i)
  {
    var q, b := states[0].models[m], states[0].models[m].workers[w].batch;
    ReachableInv(env, states[0]);
    ReachableWhole(env, states[0]);
    RunStartsTelling(env, states[0], m, w, reply, cost, i);
    StepKeepsInv(env, states[0], steps[0]);
    TailIsRun(env, states, steps);
    RunTells(env, states[1..], steps[1..], |steps| - 1, m, w, b, i, q.sent[b][i], reply, |q.sent[b]|);
  }

  // ---------- After a run ----------

  /**
   * A run that returns one output an item updates the cost estimate: eight tenths of the old and two tenths of the
   * new, the first taken whole. Any other leaves it. Only a panic leads to a rebuild; after anything else the worker waits again.
   */
  lemma RunEnds(env: Env, s: State, m: nat, w: nat, reply: BackendReply, cost: real)
    requires RunsBatch(env, s, m, w, reply, cost)
    ensures var n, old' := |s.models[m].sent[s.models[m].workers[w].batch]|, s.models[m].spt;
            var q := Apply(env, s, FinishRun(m, w, reply, cost)).models[m];
            && q.spt == (if reply.Returned? && |reply.raws| == n then if old' == 0.0 then cost else (8.0 * old' + 2.0 * cost) / 10.0 else old')
            && w < |q.workers| && q.workers[w].Delivering? && q.workers[w].batch == s.models[m].workers[w].batch
            && (q.workers[w].result.Outputs? <==> reply.Returned? && |reply.raws| == n)
            && (q.workers[w].result.Failure? && q.workers[w].result.panicked <==> reply.Panicked?)
  {
  }

  lemma DeliveryEnds(env: Env, s: State, m: nat, w: nat)
    requires Enabled(env, s, EndBatch(m, w))
    ensures var q, q', r := s.models[m], Apply(env, s, EndBatch(m, w)).models[m], s.models[m].workers[w].result;
            && w < |q'.workers|
            && (if r.Failure? && r.panicked then q'.workers[w] == Rebuilding && q'.idle == q.idle
                else q'.workers[w] == Waiting && q'.idle == q.idle + 1)
  {
  }

  // ---------- When nothing fails ----------

  /** A step of the scheduler itself in which no run fails and no rebuild does. */
  predicate Smooth(s: State, step: Step) {
    && Internal(step) && !step.RebuildPanics? && (step.Rebuild? ==> step.ok)
    && (step.FinishRun? ==>
          && WorkerAt(s, step.m, step.w) && s.models[step.m].workers[step.w].Running?
          && s.models[step.m].workers[step.w].batch < |s.models[step.m].sent|
          && step.reply.Returned? && |step.reply.raws| == |s.models[step.m].sent[s.models[step.m].workers[step.w].batch]|)
  }

  /** The model takes work: its queue is open, its batcher runs, and some worker has a thread. */
  predicate Up(q: Model) {
    q.open && !q.phase.Stopped? && HasThread(q) && !q.idleClosed
  }

  /** The item's batch, if it is in one, has not failed. */
  predicate NotFailed(q: Model, st: Stage) {
    st.InBatch? ==> forall w :: 0 <= w < |q.workers| && q.workers[w].Delivering? && q.workers[w].batch == st.batch ==>
                      q.workers[w].result.Outputs?
  }

  /** Answered with its key's answer; or waited for with time left, and on its way. */
  ghost predicate OnTrack(env: Env, s: State, g: nat) {
    && g < |s.recs| && s.recs[g].job.model < |s.models|
    && (s.recs[g].chan == Sent(Done(Answer(env, s.recs[g].job.key)))
        || (&& HasSub(s.subs, g) && s.now < s.recs[g].deadline && BeforeSend(s.recs[g].stage)
            && NotFailed(s.models[s.recs[g].job.model], s.recs[g].stage)))
  }

  lemma UpStays(env: Env, s: State, step: Step, m: nat)
    requires Inv(env, s) && Enabled(env, s, step) && Smooth(s, step) && m < |s.models| && Up(s.models[m])
    ensures var s' := Apply(env, s, step); m < |s'.models| && Up(s'.models[m])
  {
    if WorkerStep(step) {
      WorkersStayUp(env, s, step, m);
    } else if DeliveryStep(step) {
      DeliveriesStayUp(env, s, step, m);
    } else if step.Enqueue? || Drops(step) {
      ItemsStayUp(env, s, step, m);
    } else {
      BatcherStaysUp(env, s, step, m);
    }
  }

  lemma WorkersStayUp(env: Env, s: State, step: Step, m: nat)
    requires Enabled(env, s, step) && Smooth(s, step) && WorkerStep(step) && m < |s.models| && Up(s.models[m])
    ensures var s' := Apply(env, s, step); m < |s'.models| && Up(s'.models[m])
  {
    WorkerCrashes(env, s, step);
    var q, q' := s.models[m], Apply(env, s, step).models[m];
    var v :| 0 <= v < |q.workers| && Alive(q.workers[v]);
    if step.m == m {
      SmoothKeepsAlive(env, s, step);
      assert Alive(q'.workers[v]);
    }
  }

  lemma SmoothKeepsAlive(env: Env, s: State, step: Step)
    requires Enabled(env, s, step) && Smooth(s, step) && WorkerStep(step)
    ensures var q, q' := s.models[step.m], AfterWorker(env, s, step);
            && step.w < |q'.workers| && Alive(q'.workers[step.w])
            && q'.open == q.open && q'.phase == q.phase && q'.idleClosed == q.idleClosed
  {
  }

  lemma DeliveriesStayUp(env: Env, s: State, step: Step, m: nat)
    requires Enabled(env, s, step) && DeliveryStep(step) && m < |s.models| && Up(s.models[m])
    ensures var s' := Apply(env, s, step); m < |s'.models| && Up(s'.models[m])
  {
  }

  lemma ItemsStayUp(env: Env, s: State, step: Step, m: nat)
    requires Enabled(env, s, step) && (step.Enqueue? || Drops(step)) && m < |s.models| && Up(s.models[m])
    ensures var s' := Apply(env, s, step); m < |s'.models| && Up(s'.models[m])
  {
  }

  lemma BatcherStaysUp(env: Env, s: State, step: Step, m: nat)
    requires Inv(env, s) && Enabled(env, s, step) && (ChangesPhase(step) || MovesItems(step)) && m < |s.models| && Up(s.models[m])
    ensures var s' := Apply(env, s, step); m < |s'.models| && Up(s'.models[m])
  {
    if step.CloseIdle? && step.m == m {
      LivesWithThread(env, s, m);
    } else if step.Flush? || step.DispatchFails? || step.StopBatcher? || step.CloseQueue? {
      StopsNotUp(env, s, step, m);
    } else {
      RunsOn(env, s, step, m);
    }
  }

  lemma LivesWithThread(env: Env, s: State, m: nat)
    requires Inv(env, s) && m < |s.models| && HasThread(s.models[m])
    ensures s.models[m].live > 0
  {
    var q := s.models[m];
    assert ModelOk(s.recs, m, q) && HandshakeOk(q);
    var w :| 0 <= w < |q.workers| && Alive(q.workers[w]);
    OneShows(q.workers, w);
  }

  lemma StopsNotUp(env: Env, s: State, step: Step, m: nat)
    requires Enabled(env, s, step) && (step.Flush? || step.DispatchFails? || step.StopBatcher? || step.CloseQueue?)
    requires m < |s.models| && Up(s.models[m])
    ensures step.m != m && |Apply(env, s, step).models| == |s.models| && Apply(env, s, step).models[m] == s.models[m]
  {
  }

  lemma RunsOn(env: Env, s: State, step: Step, m: nat)
    requires Enabled(env, s, step) && (ChangesPhase(step) || MovesItems(step)) && m < |s.models| && Up(s.models[m])
    requires !(step.CloseIdle? && step.m == m)
    requires !step.Flush? && !step.DispatchFails? && !step.StopBatcher? && !step.CloseQueue?
    ensures var s' := Apply(env, s, step); m < |s'.models| && Up(s'.models[m])
  {
  }

  /** Nobody but clients gives up handles, lets time pass or sets deadlines. */
  lemma InternalKeepsWaits(env: Env, s: State, step: Step, g: nat)
    requires Inv(env, s) && Enabled(env, s, step) && Internal(step) && g < |s.recs|
    ensures var s' := Apply(env, s, step);
            && s'.subs == s.subs && s'.now == s.now && |s'.models| == |s.models|
            && g < |s'.recs| && s'.recs[g].job == s.recs[g].job && s'.recs[g].deadline == s.recs[g].deadline
  {
    if MovesItems(step) {
      MovesKeepWaits(env, s, step, g);
    } else if WorkerStep(step) || ChangesPhase(step) {
      StillRecs(env, s, step);
      StillItems(env, s, step);
      BackgroundKeepsTime(env, s, step);
    } else {
      ItemsKeepWaits(env, s, step, g);
    }
  }

  lemma BackgroundKeepsTime(env: Env, s: State, step: Step)
    requires Enabled(env, s, step) && (WorkerStep(step) || ChangesPhase(step))
    ensures Apply(env, s, step).now == s.now
  {
  }

  lemma MovesKeepWaits(env: Env, s: State, step: Step, g: nat)
    requires Enabled(env, s, step) && MovesItems(step) && g < |s.recs|
    ensures var s' := Apply(env, s, step);
            && s'.subs == s.subs && s'.now == s.now && |s'.models| == |s.models|
            && g < |s'.recs| && s'.recs[g].job == s.recs[g].job && s'.recs[g].deadline == s.recs[g].deadline
  {
  }

  lemma ItemsKeepWaits(env: Env, s: State, step: Step, g: nat)
    requires Enabled(env, s, step) && (step.Enqueue? || Drops(step) || DeliveryStep(step)) && g < |s.recs|
    ensures var s' := Apply(env, s, step);
            && s'.subs == s.subs && s'.now == s.now && |s'.models| == |s.models|
            && g < |s'.recs| && s'.recs[g].job == s.recs[g].job && s'.recs[g].deadline == s.recs[g].deadline
  {
    if DeliveryStep(step) {
      DeliveryKeepsWaits(env, s, step, g);
    } else if step.Enqueue? {
      EnqueueKeepsWaits(env, s, step.g, g);
    } else {
      DropKeepsWaits(env, s, step, g);
    }
  }

  /** Handles, time and the item's job and deadline are as they were. */
  predicate SameWaits(s: State, s': State, g: nat) {
    && s'.subs == s.subs && s'.now == s.now && |s'.models| == |s.models|
    && g < |s.recs| && g < |s'.recs| && s'.recs[g].job == s.recs[g].job && s'.recs[g].deadline == s.recs[g].deadline
  }

  lemma DeliveryKeepsWaits(env: Env, s: State, step: Step, g: nat)
    requires Enabled(env, s, step) && DeliveryStep(step) && g < |s.recs|
    ensures SameWaits(s, Apply(env, s, step), g)
  {
  }

  lemma EnqueueKeepsWaits(env: Env, s: State, h: nat, g: nat)
    requires Enabled(env, s, Enqueue(h)) && g < |s.recs|
    ensures SameWaits(s, Apply(env, s, Enqueue(h)), g)
  {
  }

  lemma DropKeepsWaits(env: Env, s: State, step: Step, g: nat)
    requires Enabled(env, s, step) && Drops(step) && g < |s.recs|
    ensures SameWaits(s, Apply(env, s, step), g)
  {
  }

  /** On its way: at a stage before its outcome, in no failed batch. */
  predicate Underway(s: State, g: nat) {
    && g < |s.recs| && s.recs[g].job.model < |s.models| && BeforeSend(s.recs[g].stage)
    && NotFailed(s.models[s.recs[g].job.model], s.recs[g].stage)
  }

  predicate Arrives(env: Env, s: State, g: nat) {
    g < |s.recs| && s.recs[g].chan == Sent(Done(Answer(env, s.recs[g].job.key)))
  }

  lemma DeliveryTracks(env: Env, s: State, step: Step, g: nat)
    requires Inv(env, s) && Enabled(env, s, step) && DeliveryStep(step) && Underway(s, g)
    ensures Underway(Apply(env, s, step), g) || Arrives(env, Apply(env, s, step), g)
  {
    var h := ItemAt(s, step.m, step.w, step.i);
    DeliveryIsOne(env, s, step, h);
    if h == g {
      if step.SendOk? {
        OutputIsRight(env, s, step.m, step.w, step.i);
      }
      OwnDelivery(env, s, step, g);
    }
  }

  lemma OwnDelivery(env: Env, s: State, step: Step, g: nat)
    requires Enabled(env, s, step) && DeliveryStep(step) && Underway(s, g) && ItemAt(s, step.m, step.w, step.i) == g
    requires step.SendOk? ==> OutputAt(s.models[step.m].workers[step.w], step.i).value == Answer(env, s.recs[g].job.key)
    ensures var r := Apply(env, s, step).recs[g];
            && r.job == s.recs[g].job && (r.stage.Cached? || (step.SendOk? && r.chan == Sent(Done(Answer(env, s.recs[g].job.key)))))
  {
  }

  lemma WorkerTracks(env: Env, s: State, step: Step, g: nat)
    requires Inv(env, s) && Enabled(env, s, step) && WorkerStep(step) && Smooth(s, step) && Underway(s, g)
    ensures Underway(Apply(env, s, step), g)
  {
    StillRecs(env, s, step);
    WorkerCrashes(env, s, step);
    SmoothDelivers(env, s, step);
  }

  lemma SmoothDelivers(env: Env, s: State, step: Step)
    requires Enabled(env, s, step) && WorkerStep(step) && Smooth(s, step)
    ensures var q' := AfterWorker(env, s, step);
            step.w < |q'.workers| && (q'.workers[step.w].Delivering? ==> q'.workers[step.w].result.Outputs?)
  {
  }

  lemma ItemTracks(env: Env, s: State, step: Step, g: nat)
    requires Enabled(env, s, step) && (step.Enqueue? || Drops(step)) && Underway(s, g) && Up(s.models[s.recs[g].job.model])
    ensures Underway(Apply(env, s, step), g)
  {
    if step.Enqueue? {
      EnqueueIsOne(env, s, step.g);
      if step.g == g {
        QueuesIfOpen(env, s, g);
      }
    } else {
      DropIsOne(env, s, step);
    }
  }

  /** Handed to an open queue, an item is its last. */
  lemma QueuesIfOpen(env: Env, s: State, g: nat)
    requires Enabled(env, s, Enqueue(g)) && s.models[s.recs[g].job.model].open
    ensures var s', m := Apply(env, s, Enqueue(g)), s.recs[g].job.model;
            s'.recs[g].stage == Queued && m < |s'.models| && s'.models[m].queue == s.models[m].queue + [g]
  {
  }

  /** A scan keeps who is waited for and has time left. */
  lemma ScanKeepsWaited(env: Env, s: State, step: Step, g: nat)
    requires Inv(env, s) && ClocksOk(s) && Enabled(env, s, step) && step.ScanDrop? && Underway(s, g)
    requires HasSub(s.subs, g) && s.now < s.recs[g].deadline
    ensures Apply(env, s, step).recs[g].stage == s.recs[g].stage
  {
    var q := s.models[step.m];
    var h := q.buf[q.phase.next];
    assert RecOk(env, s, s.recs[g]);
    assert h == g ==> Live(s, g, q.phase.at);
  }

  lemma DispatchTracks(env: Env, s: State, m: nat, g: nat)
    requires Inv(env, s) && Enabled(env, s, Dispatch(m)) && Underway(s, g)
    ensures Underway(Apply(env, s, Dispatch(m)), g)
  {
    DispatchSends(env, s, m);
    var q, batch := s.models[m], NextBatch(s.recs, s.models[m]).0;
    assert ModelOk(s.recs, m, q) && BatchesOk(s.recs, m, q);
    DispatchedAreBuffered(s.recs, m, q, batch);
  }

  lemma CollectTracks(env: Env, s: State, m: nat, g: nat)
    requires Inv(env, s) && Enabled(env, s, Collect(m)) && Underway(s, g)
    ensures Underway(Apply(env, s, Collect(m)), g)
  {
    var q := s.models[m];
    assert ModelOk(s.recs, m, q) && Lists(s.recs, m, q.queue, Queued);
  }

  /** Another model's stops and drops do not concern the item. */
  lemma StopsTrack(env: Env, s: State, step: Step, g: nat)
    requires Inv(env, s) && Enabled(env, s, step) && Underway(s, g) && Up(s.models[s.recs[g].job.model])
    requires step.Flush? || step.DispatchFails? || step.StopBatcher? || step.CloseQueue?
    ensures Underway(Apply(env, s, step), g)
  {
    var m := s.recs[g].job.model;
    StopsNotUp(env, s, step, m);
    MovesAreMoves(env, s, step);
    assert SameFor(s.recs, Apply(env, s, step).recs, m);
  }

  lemma MoveTracks(env: Env, s: State, step: Step, g: nat)
    requires Inv(env, s) && ClocksOk(s) && Enabled(env, s, step) && MovesItems(step) && Underway(s, g)
    requires HasSub(s.subs, g) && s.now < s.recs[g].deadline && Up(s.models[s.recs[g].job.model])
    ensures Underway(Apply(env, s, step), g)
  {
    if step.Dispatch? {
      DispatchTracks(env, s, step.m, g);
    } else if step.Collect? {
      CollectTracks(env, s, step.m, g);
    } else if step.ScanDrop? {
      ScanKeepsWaited(env, s, step, g);
      MovesKeepWaits(env, s, step, g);
      MovesKeepSends(env, s, step);
    } else {
      StopsTrack(env, s, step, g);
    }
  }

  lemma PhaseTracks(env: Env, s: State, step: Step, g: nat)
    requires Enabled(env, s, step) && ChangesPhase(step) && Underway(s, g)
    ensures Underway(Apply(env, s, step), g)
  {
  }

  lemma StepTracks(env: Env, s: State, step: Step, g: nat)
    requires Inv(env, s) && ClocksOk(s) && Enabled(env, s, step) && Smooth(s, step)
    requires OnTrack(env, s, g) && Up(s.models[s.recs[g].job.model])
    ensures OnTrack(env, Apply(env, s, step), g)
  {
    InternalKeepsWaits(env, s, step, g);
    if Arrives(env, s, g) {
      SentStays(env, s, step, g);
    } else if DeliveryStep(step) {
      DeliveryTracks(env, s, step, g);
    } else if WorkerStep(step) {
      WorkerTracks(env, s, step, g);
    } else if step.Enqueue? || Drops(step) {
      ItemTracks(env, s, step, g);
    } else if ChangesPhase(step) {
      PhaseTracks(env, s, step, g);
    } else {
      MoveTracks(env, s, step, g);
    }
  }

  // ---------- Who is waited for is answered ----------

  /** What a run of the batch returns if nothing fails. */
  function GoodReply(env: Env, s: State, m: nat, b: nat): BackendReply
    requires m < |s.models| && b < |s.models[m].sent|
    requires forall i :: 0 <= i < |s.models[m].sent[b]| ==> s.models[m].sent[b][i] < |s.recs|
  {
    var batch := s.models[m].sent[b];
    Returned(seq(|batch|, i requires 0 <= i < |batch| => env.infer(m, s.recs[batch[i]].job.enc)))
  }

  lemma GoodRunExists(env: Env, s: State, m: nat, w: nat) returns (step: Step)
    requires Inv(env, s) && WholeOk(s) && WorkerAt(s, m, w) && s.models[m].workers[w].Running?
    ensures Enabled(env, s, step) && Smooth(s, step)
  {
    var q, b := s.models[m], s.models[m].workers[w].batch;
    assert ModelOk(s.recs, m, q) && BatchesOk(s.recs, m, q);
    assert Undelivered(q, b) && Whole(s.recs, m, q.sent[b], b);
    step := FinishRun(m, w, GoodReply(env, s, m, b), 0.0);
  }

  /** Whenever the scheduler can move, it can without a failure. */
  lemma SmoothStepExists(env: Env, s: State) returns (step: Step)
    requires Inv(env, s) && WholeOk(s) && !Quiet(env, s)
    ensures Enabled(env, s, step) && Smooth(s, step)
  {
    step :| Internal(step) && Enabled(env, s, step);
    if step.FinishRun? {
      step := GoodRunExists(env, s, step.m, step.w);
    } else if step.RebuildPanics? || step.Rebuild? {
      step := Rebuild(step.m, step.w, true);
    }
  }

  ghost predicate AllSmooth(states: seq<State>, steps: seq<Step>) {
    |states| == |steps| + 1 && forall i :: 0 <= i < |steps| ==> Smooth(states[i], steps[i])
  }

  lemma {:induction false} RunTracks(env: Env, states: seq<State>, steps: seq<Step>, g: nat, i: nat)
    requires Run(env, states, steps) && AllSmooth(states, steps) && Inv(env, states[0]) && ClocksOk(states[0]) && i < |states|
    requires OnTrack(env, states[0], g) && Up(states[0].models[states[0].recs[g].job.model])
    ensures OnTrack(env, states[i], g) && states[i].recs[g].job == states[0].recs[g].job
    ensures Up(states[i].models[states[i].recs[g].job.model])
  {
    if i > 0 {
      RunTracks(env, states, steps, g, i - 1);
      RunKeepsInv(env, states, steps, i - 1);
      RunKeepsClocks(env, states, steps, i - 1);
      assert Smooth(states[i - 1], steps[i - 1]) && Enabled(env, states[i - 1], steps[i - 1]);
      SmoothStep(env, states[i - 1], steps[i - 1], g);
    }
  }

  lemma SmoothStep(env: Env, s: State, step: Step, g: nat)
    requires Inv(env, s) && ClocksOk(s) && Enabled(env, s, step) && Smooth(s, step)
    requires OnTrack(env, s, g) && Up(s.models[s.recs[g].job.model])
    ensures var s' := Apply(env, s, step);
            OnTrack(env, s', g) && s'.recs[g].job == s.recs[g].job && Up(s'.models[s.recs[g].job.model])
  {
    StepTracks(env, s, step, g);
    InternalKeepsWaits(env, s, step, g);
    UpStays(env, s, step, s.recs[g].job.model);
  }

  /**
   * An item somebody waits for, with time left, at a model that is up: whatever the scheduler does without a failure,
   * when it has nothing left to do the item has been answered with its own key's answer.
   */
  lemma SmoothRunsAnswer(env: Env, states: seq<State>, steps: seq<Step>, g: nat)
    requires Run(env, states, steps) && AllSmooth(states, steps) && Reachable(env, states[0]) && Quiet(env, states[|steps|])
    requires OnTrack(env, states[0], g) && Up(states[0].models[states[0].recs[g].job.model])
    ensures g < |states[|steps|].recs| && states[|steps|].recs[g].job == states[0].recs[g].job
    ensures states[|steps|].recs[g].chan == Sent(Done(Answer(env, states[0].recs[g].job.key)))
  {
    ReachableInv(env, states[0]);
    ReachableClocks(env, states[0]);
    RunTracks(env, states, steps, g, |steps|);
    RunKeepsInv(env, states, steps, |steps|);
    QuietIsRestored(env, states[|steps|]);
  }

  /** And there always is such a run of its own steps. */
  lemma SmoothlyDrains(env: Env, s: State) returns (states: seq<State>, steps: seq<Step>)
    requires Inv(env, s) && WholeOk(s)
    ensures Run(env, states, steps) && AllSmooth(states, steps) && states[0] == s && Quiet(env, states[|steps|])
    decreases WaitCount(s.recs), Work(s)
  {
    WorkStaysNatural(env, s);
    if Quiet(env, s) {
      states, steps := [s], [];
    } else {
      var step := SmoothStepExists(env, s);
      var s' := Apply(env, s, step);
      InternalStepsUseUpWork(env, s, step);
      StepKeepsInv(env, s, step);
      StepKeepsWhole(env, s, step);
      var states', steps' := SmoothlyDrains(env, s');
      SmoothCons(env, s, step, states', steps');
      states, steps := [s] + states', [step] + steps';
    }
  }

  lemma SmoothCons(env: Env, s: State, step: Step, states: seq<State>, steps: seq<Step>)
    requires Run(env, states, steps) && AllSmooth(states, steps)
    requires Enabled(env, s, step) && Smooth(s, step) && states[0] == Apply(env, s, step)
    ensures Run(env, [s] + states, [step] + steps) && AllSmooth([s] + states, [step] + steps)
    ensures ([s] + states)[|steps| + 1] == states[|steps|]
  {
    RunCons(env, s, step, states, steps);
    var states', steps' := [s] + states, [step] + steps;
    forall i | 0 <= i < |steps'| ensures Smooth(states'[i], steps'[i]) {
      if i > 0 {
        assert states'[i] == states[i - 1] && steps'[i] == steps[i - 1];
      }
    }
  }

  /** So who is waited for can be answered from every reachable state. */
  lemma WaitedForIsAnswered(env: Env, s: State, g: nat) returns (states: seq<State>, steps: seq<Step>)
    requires Reachable(env, s) && OnTrack(env, s, g) && Up(s.models[s.recs[g].job.model])
    ensures Run(env, states, steps) && AllSmooth(states, steps) && states[0] == s
    ensures g < |states[|steps|].recs| && states[|steps|].recs[g].chan == Sent(Done(Answer(env, s.recs[g].job.key)))
  {
    ReachableInv(env, s);
    ReachableWhole(env, s);
    states, steps := SmoothlyDrains(env, s);
    SmoothRunsAnswer(env, states, steps, g);
  }
}
