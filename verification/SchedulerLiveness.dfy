/** Waiting is bounded, work never gets stuck, and an undisturbed scheduler drains to its start values. */
module SchedulerLiveness {
  import opened Types
  import opened Pick
  import opened SchedulerModel
  import opened SchedulerInvariant
  import opened SchedulerSteps
  import opened SchedulerTheorems

  // ---------- Bounded waiting ----------

  /** Items waiting for a batch, oldest first. */
  function Line(q: Model): seq<nat> {
    q.buf + q.queue
  }

  ghost predicate InLine(s: State, m: nat, g: nat, p: nat) {
    m < |s.models| && p < |Line(s.models[m])| && Line(s.models[m])[p] == g
  }

  /** The item was taken into the batch this step dispatched. */
  ghost predicate TakenBy(env: Env, s: State, step: Step, m: nat, g: nat) {
    && step == Dispatch(m) && Enabled(env, s, step)
    && g in NextBatch(s.recs, s.models[m]).0
  }

  /** The only other ways out of the line: found dead, or the model's batcher stopped. */
  ghost predicate LostBy(env: Env, s: State, step: Step, m: nat, g: nat) {
    || (step == ScanDrop(m) && Enabled(env, s, step) && g < |s.recs| && !Live(s, g, s.models[m].phase.at))
    || Stops(step, m)
  }

  /** The model's batcher comes to its end, or its queue to that of the batcher. */
  predicate Stops(step: Step, m: nat) {
    step == StopBatcher(m) || step == DispatchFails(m) || step == CloseQueue(m)
  }

  lemma {:induction false} RegisterKeepsLines(s: State, c: nat, deadline: nat, jobs: seq<Job>)
    ensures var s' := RegisterAll(s, c, deadline, jobs);
            && |s'.models| == |s.models|
            && forall m :: 0 <= m < |s.models| ==> Line(s'.models[m]) == Line(s.models[m]) && s'.models[m].phase == s.models[m].phase
  {
    if jobs != [] {
      RegisterKeepsLines(s, c, deadline, jobs[..|jobs| - 1]);
    }
  }

  /** One step: a waiting item keeps or improves its position, and a dispatch always improves it. */
  lemma LineStep(env: Env, s: State, step: Step, m: nat, g: nat, p: nat) returns (p': nat)
    requires Inv(env, s) && Enabled(env, s, step) && InLine(s, m, g, p)
    ensures var s' := Apply(env, s, step);
            || TakenBy(env, s, step, m, g)
            || LostBy(env, s, step, m, g)
            || (InLine(s', m, g, p') && p' <= p && (step == Dispatch(m) ==> p' < p))
  {
    assert Lists(s.recs, m, s.models[m].buf, Buffered) by {
      assert ModelOk(s.recs, m, s.models[m]);
    }
    p' := p;
    if step == Dispatch(m) {
      p' := DispatchStepLine(env, s, m, g, p);
    } else if step == ScanDrop(m) {
      p' := ScanDropStepLine(env, s, m, g, p);
    } else if Stops(step, m) {
      StopStepLine(env, s, step, m, g, p);
    } else {
      OtherStepLine(env, s, step, m, g, p);
    }
  }

  lemma DispatchStepLine(env: Env, s: State, m: nat, g: nat, p: nat) returns (p': nat)
    requires Enabled(env, s, Dispatch(m)) && InLine(s, m, g, p)
    requires Lists(s.recs, m, s.models[m].buf, Buffered)
    ensures var s' := Apply(env, s, Dispatch(m));
            TakenBy(env, s, Dispatch(m), m, g) || (InLine(s', m, g, p') && p' < p)
  {
    p' := DispatchLine(s.recs, m, s.models[m], g, p);
  }

  lemma ScanDropStepLine(env: Env, s: State, m: nat, g: nat, p: nat) returns (p': nat)
    requires Enabled(env, s, ScanDrop(m)) && InLine(s, m, g, p)
    ensures var s' := Apply(env, s, ScanDrop(m));
            LostBy(env, s, ScanDrop(m), m, g) || (InLine(s', m, g, p') && p' <= p)
  {
    var q := s.models[m];
    ScanDropLine(q, g, p);
    p' := if p <= q.phase.next then p else p - 1;
  }

  lemma StopStepLine(env: Env, s: State, step: Step, m: nat, g: nat, p: nat)
    requires Enabled(env, s, step) && InLine(s, m, g, p)
    requires Stops(step, m)
    ensures LostBy(env, s, step, m, g)
  {
  }

  lemma OtherStepLine(env: Env, s: State, step: Step, m: nat, g: nat, p: nat)
    requires Enabled(env, s, step) && InLine(s, m, g, p)
    requires step != Dispatch(m) && step != ScanDrop(m) && !Stops(step, m)
    ensures InLine(Apply(env, s, step), m, g, p)
  {
    if step.Admit? {
      AdmitLine(env, s, step.c, step.jobs, step.deadline, m);
    } else if step == Collect(m) {
      assert Line(Apply(env, s, step).models[m]) == Line(s.models[m]);
    } else {
      QuietLine(env, s, step, m);
    }
  }

  lemma AdmitLine(env: Env, s: State, c: nat, jobs: seq<Job>, deadline: nat, m: nat)
    requires m < |s.models|
    ensures var s' := AdmitSection(s, c, jobs, deadline, env.headroom).0;
            |s'.models| == |s.models| && Line(s'.models[m]) == Line(s.models[m]) && s'.models[m].phase == s.models[m].phase
  {
    var joined := Joined(s, jobs);
    RegisterKeepsLines(RaiseDeadlines(s, joined, deadline).(subs := s.subs + JoinSubs(s, c, joined)),
                       c, deadline, Fresh(s, jobs));
  }

  lemma QuietLine(env: Env, s: State, step: Step, m: nat)
    requires Enabled(env, s, step) && m < |s.models| && !step.Admit?
    requires step != Dispatch(m) && step != ScanDrop(m) && step != Collect(m) && !Stops(step, m)
    ensures var s' := Apply(env, s, step);
            |s'.models| == |s.models| && Line(s.models[m]) <= Line(s'.models[m])
  {
    if WorkerStep(step) || DeliveryStep(step) {
      QuietWorkers(env, s, step, m);
    } else {
      QuietOthers(env, s, step, m);
    }
  }

  lemma QuietWorkers(env: Env, s: State, step: Step, m: nat)
    requires Enabled(env, s, step) && m < |s.models| && (WorkerStep(step) || DeliveryStep(step))
    ensures var s' := Apply(env, s, step);
            |s'.models| == |s.models| && Line(s.models[m]) <= Line(s'.models[m])
  {
    if WorkerStep(step) {
      QuietRuns(env, s, step, m);
    } else {
      QuietDeliveries(env, s, step);
    }
  }

  lemma QuietRuns(env: Env, s: State, step: Step, m: nat)
    requires Enabled(env, s, step) && m < |s.models| && WorkerStep(step)
    ensures var s' := Apply(env, s, step);
            |s'.models| == |s.models| && Line(s.models[m]) <= Line(s'.models[m])
  {
  }

  lemma QuietDeliveries(env: Env, s: State, step: Step)
    requires Enabled(env, s, step) && DeliveryStep(step)
    ensures Apply(env, s, step).models == s.models
  {
  }

  lemma QuietOthers(env: Env, s: State, step: Step, m: nat)
    requires Enabled(env, s, step) && m < |s.models| && !step.Admit? && !WorkerStep(step) && !DeliveryStep(step)
    requires step != Dispatch(m) && step != ScanDrop(m) && step != Collect(m) && !Stops(step, m)
    ensures var s' := Apply(env, s, step);
            |s'.models| == |s.models| && Line(s.models[m]) <= Line(s'.models[m])
  {
  }

  lemma ScanDropLine(q: Model, g: nat, p: nat)
    requires q.phase.Scanning? && q.phase.next < |q.buf| && p < |Line(q)| && Line(q)[p] == g
    ensures var i := q.phase.next;
            var line := q.buf[..i] + q.buf[i + 1..] + q.queue;
            if p == i then g == q.buf[i] else p != i && (if p < i then line[p] else line[p - 1]) == g
  {
  }

  lemma DispatchLine(recs: seq<Rec>, m: nat, q: Model, g: nat, p: nat) returns (p': nat)
    requires Lists(recs, m, q.buf, Buffered) && q.buf != [] && p < |Line(q)| && Line(q)[p] == g
    ensures var (batch, left) := NextBatch(recs, q);
            g in batch || (p' < p && p' < |left + q.queue| && (left + q.queue)[p'] == g)
  {
    var rest: seq<nat> := q.buf[1..];
    var c := Chosen(ItemLen(recs, q.buf[0]), LineLens(recs, rest), q.limits.maxItems, q.limits.maxTokens);
    var (batch, left) := NextBatch(recs, q);
    NextBatchDivides(recs, q);
    p' := 0;
    if p >= |q.buf| {
      RemainderShorter(rest, c, 0);
      p' := p - |q.buf| + |left|;
    } else if p == 0 {
      assert batch[0] == g;
    } else if p - 1 in c {
      ChosenIsGood(ItemLen(recs, q.buf[0]), LineLens(recs, rest), q.limits.maxItems, q.limits.maxTokens);
      ChosenFollows(rest, c, p - 1);
    } else {
      p' := StaysInOrder(rest, c, 0, p - 1);
      assert left[p'] == rest[p - 1];
    }
  }

  lemma ChosenFollows(s: seq<nat>, idx: seq<nat>, i: nat)
    requires Ascending(idx, |s|) && i in idx
    ensures s[i] in Followers(s, idx)
  {
    FollowersAt(s, idx, 0, 0);
    var k :| 0 <= k < |idx| && idx[k] == i;
    assert Followers(s, idx)[k] == s[i];
  }

  lemma {:induction false} RemainderShorter(s: seq<nat>, idx: seq<nat>, i: nat)
    requires i <= |s|
    ensures |Keep(s, idx, false, i)| <= |s| - i
    decreases |s| - i
  {
    if i < |s| {
      RemainderShorter(s, idx, i + 1);
    }
  }

  /** A scan never looks at a time in the future. */
  ghost predicate ClocksOk(s: State) {
    forall m :: 0 <= m < |s.models| && s.models[m].phase.Scanning? ==> s.models[m].phase.at <= s.now
  }

  lemma StepKeepsClocks(env: Env, s: State, step: Step)
    requires ClocksOk(s) && Enabled(env, s, step)
    ensures ClocksOk(Apply(env, s, step))
  {
    if step.Admit? {
      AdmitClock(env, s, step.c, step.jobs, step.deadline);
    } else if WorkerStep(step) {
      WorkersKeepClocks(env, s, step);
    } else if DeliveryStep(step) {
      DeliveriesKeepClocks(env, s, step);
    } else {
      OthersKeepClocks(env, s, step);
    }
  }

  lemma WorkersKeepClocks(env: Env, s: State, step: Step)
    requires ClocksOk(s) && Enabled(env, s, step) && WorkerStep(step)
    ensures ClocksOk(Apply(env, s, step))
  {
  }

  lemma DeliveriesKeepClocks(env: Env, s: State, step: Step)
    requires ClocksOk(s) && Enabled(env, s, step) && DeliveryStep(step)
    ensures ClocksOk(Apply(env, s, step))
  {
  }

  lemma OthersKeepClocks(env: Env, s: State, step: Step)
    requires ClocksOk(s) && Enabled(env, s, step) && !step.Admit? && !WorkerStep(step) && !DeliveryStep(step)
    ensures ClocksOk(Apply(env, s, step))
  {
  }

  lemma AdmitClock(env: Env, s: State, c: nat, jobs: seq<Job>, deadline: nat)
    requires ClocksOk(s)
    ensures ClocksOk(AdmitSection(s, c, jobs, deadline, env.headroom).0)
  {
    var s' := AdmitSection(s, c, jobs, deadline, env.headroom).0;
    var joined := Joined(s, jobs);
    var s1 := RaiseDeadlines(s, joined, deadline).(subs := s.subs + JoinSubs(s, c, joined));
    RegisterKeepsLines(s1, c, deadline, Fresh(s, jobs));
    RegisterKeepsClock(s1, c, deadline, Fresh(s, jobs));
  }

  lemma {:induction false} RegisterKeepsClock(s: State, c: nat, deadline: nat, jobs: seq<Job>)
    ensures RegisterAll(s, c, deadline, jobs).now == s.now
  {
    if jobs != [] {
      RegisterKeepsClock(s, c, deadline, jobs[..|jobs| - 1]);
    }
  }

  lemma {:induction false} RunKeepsClocks(env: Env, states: seq<State>, steps: seq<Step>, i: nat)
    requires Run(env, states, steps) && ClocksOk(states[0]) && i < |states|
    ensures ClocksOk(states[i])
  {
    if i > 0 {
      RunKeepsClocks(env, states, steps, i - 1);
      StepKeepsClocks(env, states[i - 1], steps[i - 1]);
    }
  }

  lemma ReachableClocks(env: Env, s: State)
    requires Reachable(env, s)
    ensures ClocksOk(s)
  {
    var limits, states, steps :| ReachedBy(env, s, limits, states, steps);
    RunKeepsClocks(env, states, steps, |steps|);
  }

  /** The item still has a subscriber and time left. */
  ghost predicate Wanted(s: State, g: nat) {
    g < |s.recs| && HasSub(s.subs, g) && s.now < s.recs[g].deadline
  }

  function Dispatches(steps: seq<Step>, m: nat): nat {
    if steps == [] then 0 else (if steps[0] == Dispatch(m) then 1 else 0) + Dispatches(steps[1..], m)
  }

  ghost predicate NeverStops(steps: seq<Step>, m: nat) {
    forall i :: 0 <= i < |steps| ==> !Stops(steps[i], m)
  }

  lemma WantedIsKept(env: Env, s: State, step: Step, m: nat, g: nat, p: nat)
    requires Inv(env, s) && ClocksOk(s) && Enabled(env, s, step) && InLine(s, m, g, p) && Wanted(s, g)
    requires !Stops(step, m)
    ensures !LostBy(env, s, step, m, g)
  {
    var q := s.models[m];
    assert ModelOk(s.recs, m, q);
    assert RecOk(env, s, s.recs[g]);
    assert if p < |q.buf| then q.buf[p] == g else q.queue[p - |q.buf|] == g;
  }

  /** A wanted item is taken or stays in line, a place further on if its model dispatches. */
  lemma WaitStep(env: Env, s: State, step: Step, m: nat, g: nat, p: nat) returns (p': nat)
    requires Inv(env, s) && ClocksOk(s) && Enabled(env, s, step) && InLine(s, m, g, p) && Wanted(s, g)
    requires !Stops(step, m)
    ensures Inv(env, Apply(env, s, step)) && ClocksOk(Apply(env, s, step))
    ensures !TakenBy(env, s, step, m, g) ==> InLine(Apply(env, s, step), m, g, p')
    ensures !TakenBy(env, s, step, m, g) ==> p' + (if step == Dispatch(m) then 1 else 0) <= p
  {
    p' := LineStep(env, s, step, m, g, p);
    WantedIsKept(env, s, step, m, g, p);
    StepKeepsInv(env, s, step);
    StepKeepsClocks(env, s, step);
  }

  lemma TailIsRun(env: Env, states: seq<State>, steps: seq<Step>)
    requires Run(env, states, steps) && steps != []
    ensures Run(env, states[1..], steps[1..])
  {
    var states', steps' := states[1..], steps[1..];
    forall i | 0 <= i < |steps'| ensures Enabled(env, states'[i], steps'[i]) && states'[i + 1] == Apply(env, states'[i], steps'[i]) {
      assert states'[i] == states[i + 1] && steps'[i] == steps[i + 1];
    }
  }

  lemma TakenInTail(env: Env, states: seq<State>, steps: seq<Step>, m: nat, g: nat)
    requires |states| == |steps| + 1 && steps != []
    requires exists i :: 0 <= i < |steps[1..]| && TakenBy(env, states[1..][i], steps[1..][i], m, g)
    ensures exists i :: 0 <= i < |steps| && TakenBy(env, states[i], steps[i], m, g)
  {
    var i :| 0 <= i < |steps[1..]| && TakenBy(env, states[1..][i], steps[1..][i], m, g);
    assert TakenBy(env, states[i + 1], steps[i + 1], m, g);
  }

  /** An item at position `p` that stays wanted is in a batch before the model's dispatches exceed `p`. */
  lemma {:induction false} WaitIsBounded(env: Env, states: seq<State>, steps: seq<Step>, m: nat, g: nat, p: nat)
    requires Run(env, states, steps) && Inv(env, states[0]) && ClocksOk(states[0]) && InLine(states[0], m, g, p)
    requires NeverStops(steps, m) && forall i :: 0 <= i < |states| ==> Wanted(states[i], g)
    requires p < Dispatches(steps, m)
    ensures exists i :: 0 <= i < |steps| && TakenBy(env, states[i], steps[i], m, g)
    decreases |steps|
  {
    var p' := WaitStep(env, states[0], steps[0], m, g, p);
    if !TakenBy(env, states[0], steps[0], m, g) {
      TailIsRun(env, states, steps);
      WaitIsBounded(env, states[1..], steps[1..], m, g, p');
      TakenInTail(env, states, steps, m, g);
    }
  }

  /** Every waiting item holds a permit, so the line is never longer than the limit. */
  lemma LineWithinLimit(env: Env, s: State, m: nat)
    requires Inv(env, s) && m < |s.models|
    ensures |Line(s.models[m])| <= s.models[m].limits.maxPending
  {
    var q := s.models[m];
    assert ModelOk(s.recs, m, q);
    assert Lists(s.recs, m, q.queue, Queued) && Lists(s.recs, m, q.buf, Buffered);
    Pigeonhole(s.recs, m, Line(q));
  }

  /** Whatever arrives later, a wanted item leaves in a batch within `maxPending` dispatches of its model. */
  lemma LeavesWithinMaxPending(env: Env, states: seq<State>, steps: seq<Step>, m: nat, g: nat)
    requires Run(env, states, steps) && Reachable(env, states[0])
    requires m < |states[0].models| && g in Line(states[0].models[m])
    requires NeverStops(steps, m) && forall i :: 0 <= i < |states| ==> Wanted(states[i], g)
    requires Dispatches(steps, m) >= states[0].models[m].limits.maxPending
    ensures exists i :: 0 <= i < |steps| && TakenBy(env, states[i], steps[i], m, g)
  {
    ReachableInv(env, states[0]);
    ReachableClocks(env, states[0]);
    LineWithinLimit(env, states[0], m);
    var line := Line(states[0].models[m]);
    var p :| 0 <= p < |line| && line[p] == g;
    WaitIsBounded(env, states, steps, m, g, p);
  }

  // ---------- Progress ----------

  /** Steps of the scheduler itself, as opposed to its clients and environment. */
  predicate Internal(step: Step) {
    !step.Tick? && !step.Admit? && !step.Abandon? && !step.Receive? && !step.Evict? && !step.Promote?
  }

  /** An item held by a delivering worker can be delivered. */
  lemma ItemMoves(env: Env, s: State, g: nat, w: nat) returns (step: Step)
    requires Inv(env, s) && g < |s.recs| && (s.recs[g].stage.InBatch? || s.recs[g].stage.Cached?)
    requires var m := s.recs[g].job.model;
             && WorkerAt(s, m, w) && s.models[m].workers[w].Delivering?
             && s.models[m].workers[w].batch == s.recs[g].stage.batch
             && (s.recs[g].stage.Cached? ==> s.models[m].workers[w].result.Outputs?)
    ensures Internal(step) && Enabled(env, s, step)
  {
    var m, st := s.recs[g].job.model, s.recs[g].stage;
    var q, wk := s.models[m], s.models[m].workers[w];
    assert ModelOk(s.recs, m, q) && ItemHeld(q, g, st);
    assert WorkerRawsOk(env, s.recs, m, q, wk);
    var i :| 0 <= i < |q.sent[st.batch]| && q.sent[st.batch][i] == g;
    assert Delivers(s, m, w, i) && ItemAt(s, m, w, i) == g;
    step := if wk.result.Failure? then SendErr(m, w, i) else if st.Cached? then SendOk(m, w, i) else PutL1(m, w, i);
  }

  /** Some worker of a model with a dispatched item can move, or the channel's end drops the batch. */
  lemma BatchMoves(env: Env, s: State, g: nat) returns (step: Step)
    requires Inv(env, s) && g < |s.recs| && (s.recs[g].stage.InBatch? || s.recs[g].stage.Cached?)
    ensures Internal(step) && Enabled(env, s, step)
  {
    var m := s.recs[g].job.model;
    assert RecOk(env, s, s.recs[g]);
    var q, st := s.models[m], s.recs[g].stage;
    assert ModelOk(s.recs, m, q) && ItemHeld(q, g, st);
    if st.Cached? {
      var w :| 0 <= w < |q.workers| && DeliversOutputs(q.workers[w], st.batch);
      step := ItemMoves(env, s, g, w);
    } else if st.batch < q.taken {
      var w :| 0 <= w < |q.workers| && HoldsBatch(q.workers[w], st.batch);
      if q.workers[w].Running? {
        step := FinishRun(m, w, Errored(""), 0.0);
      } else {
        step := ItemMoves(env, s, g, w);
      }
    } else {
      step := ChannelMoves(env, s, m);
    }
  }

  /** A dispatch in the channel is taken, waits for a busy worker, or is dropped with the receiver. */
  lemma ChannelMoves(env: Env, s: State, m: nat) returns (step: Step)
    requires Inv(env, s) && m < |s.models| && s.models[m].taken < |s.models[m].sent|
    ensures Internal(step) && Enabled(env, s, step)
  {
    var q := s.models[m];
    ThreadsCounted(q);
    CountsAddUp(q.workers);
    if WaitingCount(q.workers) > 0 {
      var w := SomeoneWaits(q.workers);
      step := TakeBatch(m, w);
    } else if BusyCount(q.workers) > 0 {
      var w := SomeoneIsBusy(q.workers);
      step := WorkerMoves(env, s, m, w);
    } else {
      step := Flush(m);
    }
  }

  /** A busy worker can always move. */
  lemma WorkerMoves(env: Env, s: State, m: nat, w: nat) returns (step: Step)
    requires Inv(env, s) && WorkerAt(s, m, w) && Busy(s.models[m].workers[w])
    ensures Internal(step) && Enabled(env, s, step)
  {
    var q, wk := s.models[m], s.models[m].workers[w];
    assert ModelOk(s.recs, m, q);
    if wk.Running? {
      step := FinishRun(m, w, Errored(""), 0.0);
    } else if wk.Rebuilding? {
      step := Rebuild(m, w, true);
    } else if BatchEmpty(s.recs, m, wk.batch) {
      step := EndBatch(m, w);
    } else {
      var g :| 0 <= g < |s.recs| && s.recs[g].job.model == m && (s.recs[g].stage == InBatch(wk.batch) || s.recs[g].stage == Cached(wk.batch));
      HolderDelivers(s, m, w, g);
      step := ItemMoves(env, s, g, w);
    }
  }

  /** Only the worker holding a cached item's batch has outputs for it. */
  lemma HolderDelivers(s: State, m: nat, w: nat, g: nat)
    requires ModelsOk(s) && WorkerAt(s, m, w) && s.models[m].workers[w].Delivering? && g < |s.recs| && s.recs[g].job.model == m
    requires s.recs[g].stage == Cached(s.models[m].workers[w].batch)
          || s.recs[g].stage == InBatch(s.models[m].workers[w].batch)
    ensures s.recs[g].stage.Cached? ==> s.models[m].workers[w].result.Outputs?
  {
    var q := s.models[m];
    assert ModelOk(s.recs, m, q) && ItemHeld(q, g, s.recs[g].stage);
    if s.recs[g].stage.Cached? {
      var v :| 0 <= v < |q.workers| && DeliversOutputs(q.workers[v], s.recs[g].stage.batch);
      assert v == w;
    }
  }

  /** If an item waits in line, its model's batcher or workers can move. */
  lemma LineMoves(env: Env, s: State, m: nat) returns (step: Step)
    requires Inv(env, s) && m < |s.models| && Line(s.models[m]) != []
    ensures Internal(step) && Enabled(env, s, step)
  {
    var q := s.models[m];
    assert ModelOk(s.recs, m, q) && HandshakeOk(q);
    match q.phase {
      case Collecting => step := if q.queue != [] then Collect(m) else StartScan(m);
      case Scanning(i, at) =>
        step := if i < |q.buf| then (if Live(s, q.buf[i], at) then ScanKeep(m) else ScanDrop(m))
                else if q.buf == [] then ReleaseIdle(m)
                else if HasThread(q) then Dispatch(m) else DispatchFails(m);
      case Stopped => step := CloseQueue(m);
      case AwaitIdle =>
        if q.idleClosed {
          step := StopBatcher(m);
        } else if q.idle > 0 {
          step := AcquireIdle(m);
        } else if q.live == 0 {
          step := CloseIdle(m);
        } else if q.taken < |q.sent| {
          step := ChannelMoves(env, s, m);
        } else {
          var w := SomeoneIsBusy(q.workers);
          step := WorkerMoves(env, s, m, w);
        }
    }
  }

  /** While anything is outstanding, some step of the scheduler is possible. */
  lemma NeverStuck(env: Env, s: State, g: nat) returns (step: Step)
    requires Inv(env, s) && g < |s.recs| && Outstanding(s.recs[g])
    ensures Internal(step) && Enabled(env, s, step)
  {
    assert RecOk(env, s, s.recs[g]);
    var m := s.recs[g].job.model;
    match s.recs[g].stage {
      case Parked => step := Enqueue(g);
      case InBatch(_) => step := BatchMoves(env, s, g);
      case Cached(_) => step := BatchMoves(env, s, g);
      case Doomed => step := DropTokens(g);
      case TokensBack => step := DropEntry(g);
      case EntryGone => step := DropSender(g);
      case SenderGone => step := DropPermit(g);
      case Queued =>
        assert ModelOk(s.recs, m, s.models[m]) && g in s.models[m].queue;
        step := LineMoves(env, s, m);
      case Buffered =>
        assert ModelOk(s.recs, m, s.models[m]) && g in s.models[m].buf;
        step := LineMoves(env, s, m);
    }
  }

  // ---------- Draining ----------

  predicate IsWaiting(st: Stage) {
    st.Parked? || st.Queued? || st.Buffered?
  }

  function WaitCount(recs: seq<Rec>): nat {
    if recs == [] then 0 else WaitCount(recs[..|recs| - 1]) + if IsWaiting(recs[|recs| - 1].stage) then 1 else 0
  }

  function StageRank(st: Stage): nat {
    match st
    case Parked => 20
    case Queued => 10
    case Buffered => 9
    case InBatch(_) => 8
    case Cached(_) => 7
    case Doomed => 4
    case TokensBack => 3
    case EntryGone => 2
    case SenderGone => 1
    case Gone => 0
  }

  function StageWork(recs: seq<Rec>): nat {
    if recs == [] then 0 else StageWork(recs[..|recs| - 1]) + StageRank(recs[|recs| - 1].stage)
  }

  function WorkerRank(w: Worker): nat {
    match w
    case Running(_) => 3
    case Delivering(_, _) => 2
    case Rebuilding => 1
    case Waiting => 0
    case Retired => 0
    case Crashed => 0
  }

  function WorkerWork(ws: seq<Worker>): nat {
    if ws == [] then 0 else WorkerWork(ws[..|ws| - 1]) + WorkerRank(ws[|ws| - 1])
  }

  /** Steps the batcher can take before it needs a new item or loses one. */
  function BatcherWork(q: Model): int {
    match q.phase
    case AwaitIdle => |Line(q)| + 4
    case Collecting => |Line(q)| + 3
    case Scanning(i, _) => if q.buf == [] then |Line(q)| + 5 else |Line(q)| - i + 1
    case Stopped => if q.open then 1 else 0
  }

  function ModelWork(q: Model): int {
    BatcherWork(q) + 4 * (|q.sent| - q.taken) + WorkerWork(q.workers) + if q.idleClosed then 0 else 1
  }

  function ModelsWork(models: seq<Model>): int {
    if models == [] then 0 else ModelsWork(models[..|models| - 1]) + ModelWork(models[|models| - 1])
  }

  /** Work left apart from the items still waiting. */
  function Work(s: State): int {
    StageWork(s.recs) + ModelsWork(s.models)
  }

  lemma {:induction false} StageSums(recs: seq<Rec>, recs': seq<Rec>)
    requires |recs| == |recs'|
    requires forall g :: 0 <= g < |recs| ==> StageRank(recs'[g].stage) <= StageRank(recs[g].stage)
    ensures StageWork(recs') <= StageWork(recs)
    ensures WaitCount(recs') <= WaitCount(recs)
    ensures (exists g :: 0 <= g < |recs| && StageRank(recs'[g].stage) < StageRank(recs[g].stage)) ==> StageWork(recs') < StageWork(recs)
    ensures (exists g :: 0 <= g < |recs| && IsWaiting(recs[g].stage) && !IsWaiting(recs'[g].stage)) ==> WaitCount(recs') < WaitCount(recs)
  {
    if recs != [] {
      StageSums(recs[..|recs| - 1], recs'[..|recs| - 1]);
    }
  }

  lemma {:induction false} OneStage(recs: seq<Rec>, g: nat, r: Rec)
    requires g < |recs|
    ensures StageWork(recs[g := r]) == StageWork(recs) - StageRank(recs[g].stage) + StageRank(r.stage)
  {
    var n := |recs| - 1;
    if g < n {
      OneStage(recs[..n], g, r);
      assert recs[g := r][..n] == recs[..n][g := r];
    } else {
      assert recs[g := r][..n] == recs[..n];
    }
  }

  lemma {:induction false} OneWorker(ws: seq<Worker>, w: nat, wk: Worker)
    requires w < |ws|
    ensures WorkerWork(ws[w := wk]) == WorkerWork(ws) - WorkerRank(ws[w]) + WorkerRank(wk)
  {
    var n := |ws| - 1;
    if w < n {
      OneWorker(ws[..n], w, wk);
      assert ws[w := wk][..n] == ws[..n][w := wk];
    } else {
      assert ws[w := wk][..n] == ws[..n];
    }
  }

  lemma {:induction false} OneModel(models: seq<Model>, m: nat, q: Model)
    requires m < |models|
    ensures ModelsWork(models[m := q]) == ModelsWork(models) - ModelWork(models[m]) + ModelWork(q)
  {
    var n := |models| - 1;
    if m < n {
      OneModel(models[..n], m, q);
      assert models[m := q][..n] == models[..n][m := q];
    } else {
      assert models[m := q][..n] == models[..n];
    }
  }

  lemma {:induction false} WorkIsNatural(models: seq<Model>)
    requires forall m :: 0 <= m < |models| ==> HandshakeOk(models[m])
    ensures ModelsWork(models) >= 0
  {
    if models != [] {
      WorkIsNatural(models[..|models| - 1]);
    }
  }

  /** Fewer items wait, or as many wait and less other work is left. */
  ghost predicate Less(s': State, s: State) {
    || WaitCount(s'.recs) < WaitCount(s.recs)
    || (WaitCount(s'.recs) == WaitCount(s.recs) && Work(s') < Work(s))
  }

  /** An item moved on, and its model has at most as much more work as the item's move used up. */
  lemma OneItemLess(s: State, s': State, g: nat, m: nat)
    requires g < |s.recs| == |s'.recs| && m < |s.models| == |s'.models|
    requires s'.recs == s.recs[g := s'.recs[g]] && s'.models == s.models[m := s'.models[m]]
    requires ModelWork(s'.models[m]) - ModelWork(s.models[m]) < StageRank(s.recs[g].stage) - StageRank(s'.recs[g].stage)
    requires StageRank(s'.recs[g].stage) <= StageRank(s.recs[g].stage)
    ensures Less(s', s)
  {
    StageSums(s.recs, s'.recs);
    OneStage(s.recs, g, s'.recs[g]);
    OneModel(s.models, m, s'.models[m]);
  }

  lemma DropLess(env: Env, s: State, step: Step)
    requires Enabled(env, s, step) && Drops(step)
    ensures Less(Apply(env, s, step), s)
  {
    OneItemLess(s, Apply(env, s, step), step.g, s.recs[step.g].job.model);
  }

  lemma DeliveryLess(env: Env, s: State, step: Step)
    requires Enabled(env, s, step) && DeliveryStep(step)
    ensures Less(Apply(env, s, step), s)
  {
    OneItemLess(s, Apply(env, s, step), ItemAt(s, step.m, step.w, step.i), step.m);
  }

  lemma EnqueueLess(env: Env, s: State, g: nat)
    requires Enabled(env, s, Enqueue(g))
    ensures Less(Apply(env, s, Enqueue(g)), s)
  {
    OneItemLess(s, Apply(env, s, Enqueue(g)), g, s.recs[g].job.model);
  }

  lemma OneModelLess(s: State, m: nat, q: Model)
    requires m < |s.models| && ModelWork(q) < ModelWork(s.models[m])
    ensures Less(Put(s, m, q), s)
  {
    OneModel(s.models, m, q);
  }

  lemma WorkerLess(env: Env, s: State, step: Step)
    requires Enabled(env, s, step) && WorkerStep(step)
    ensures Less(Apply(env, s, step), s)
  {
    var q, q' := s.models[step.m], AfterWorker(env, s, step);
    if step.TakeBatch? || step.FinishRun? {
      WorkerUsesUp(env, s, step);
    } else {
      WorkerEnds(env, s, step);
    }
    OneModelLess(s, step.m, q');
    assert Apply(env, s, step) == Put(s, step.m, q');
  }

  lemma WorkerUsesUp(env: Env, s: State, step: Step)
    requires Enabled(env, s, step) && (step.TakeBatch? || step.FinishRun?)
    ensures ModelWork(AfterWorker(env, s, step)) < ModelWork(s.models[step.m])
  {
    var q, q' := s.models[step.m], AfterWorker(env, s, step);
    OneWorker(q.workers, step.w, q'.workers[step.w]);
    assert BatcherWork(q') == BatcherWork(q);
  }

  lemma WorkerEnds(env: Env, s: State, step: Step)
    requires Enabled(env, s, step) && (step.EndBatch? || step.Rebuild? || step.RebuildPanics?)
    ensures ModelWork(AfterWorker(env, s, step)) < ModelWork(s.models[step.m])
  {
    if step.EndBatch? {
      BatchEnds(env, s, step);
    } else {
      RebuildEnds(env, s, step);
    }
  }

  lemma BatchEnds(env: Env, s: State, step: Step)
    requires Enabled(env, s, step) && step.EndBatch?
    ensures ModelWork(AfterWorker(env, s, step)) < ModelWork(s.models[step.m])
  {
    var q, result := s.models[step.m], s.models[step.m].workers[step.w].result;
    if result.Failure? && result.panicked {
      WorkerDown(q, step.w, Rebuilding, q.idle, q.live);
    } else {
      WorkerDown(q, step.w, Waiting, q.idle + 1, q.live);
    }
  }

  lemma RebuildEnds(env: Env, s: State, step: Step)
    requires Enabled(env, s, step) && (step.Rebuild? || step.RebuildPanics?)
    ensures ModelWork(AfterWorker(env, s, step)) < ModelWork(s.models[step.m])
  {
    if step.RebuildPanics? {
      PanicEnds(env, s, step);
    } else {
      var q := s.models[step.m];
      WorkerDown(q, step.w, if step.ok then Waiting else Retired, q.idle + 1, q.live - 1);
    }
  }

  lemma PanicEnds(env: Env, s: State, step: Step)
    requires Enabled(env, s, step) && step.RebuildPanics?
    ensures ModelWork(AfterWorker(env, s, step)) < ModelWork(s.models[step.m])
  {
    WorkerDown(s.models[step.m], step.w, Crashed, s.models[step.m].idle + 1, s.models[step.m].live);
  }

  lemma WorkerDown(q: Model, w: nat, wk: Worker, idle: int, live: int)
    requires w < |q.workers| && WorkerRank(wk) < WorkerRank(q.workers[w])
    ensures ModelWork(WithWorker(q, w, wk)) < ModelWork(q)
    ensures ModelWork(WithWorker(q, w, wk).(idle := idle)) < ModelWork(q)
    ensures ModelWork(WithWorker(q, w, wk).(live := live)) < ModelWork(q)
  {
    OneWorker(q.workers, w, wk);
  }

  lemma PhaseLess(env: Env, s: State, step: Step)
    requires Inv(env, s) && Enabled(env, s, step) && ChangesPhase(step)
    ensures Less(Apply(env, s, step), s)
  {
    OneModel(s.models, step.m, Apply(env, s, step).models[step.m]);
  }

  /** The item a batcher step is sure to take out of the line, if the line has one. */
  function Leaver(q: Model, step: Step): Option<nat> {
    if step.CloseQueue? then (if q.queue == [] then None else Some(q.queue[0]))
    else if step.ScanDrop? && q.phase.Scanning? && q.phase.next < |q.buf| then Some(q.buf[q.phase.next])
    else if q.buf == [] then None else Some(q.buf[0])
  }

  lemma MoveLess(env: Env, s: State, step: Step)
    requires ModelsOk(s) && Enabled(env, s, step) && MovesItems(step)
    ensures Less(Apply(env, s, step), s)
  {
    if step.Collect? {
      CollectUsesUp(env, s, step.m);
    } else if step.Flush? {
      FlushUsesUp(env, s, step.m);
    } else if Leaver(s.models[step.m], step).Some? {
      LineShrinks(env, s, step, Leaver(s.models[step.m], step).value);
    } else {
      EmptyStopLess(env, s, step);
    }
  }

  lemma FlushUsesUp(env: Env, s: State, m: nat)
    requires ModelsOk(s) && Enabled(env, s, Flush(m))
    ensures Less(Apply(env, s, Flush(m)), s)
  {
    var s' := Apply(env, s, Flush(m));
    MovesDescend(env, s, Flush(m));
    StageSums(s.recs, s'.recs);
    OneModel(s.models, m, s'.models[m]);
  }

  lemma EmptyStopLess(env: Env, s: State, step: Step)
    requires Enabled(env, s, step) && MovesItems(step) && !step.Collect? && !step.Flush? && Leaver(s.models[step.m], step).None?
    ensures Less(Apply(env, s, step), s)
  {
    var s' := Apply(env, s, step);
    assert s'.recs == s.recs;
    OneModelLess(s, step.m, s'.models[step.m]);
    assert s' == Put(s, step.m, s'.models[step.m]);
  }

  lemma LineShrinks(env: Env, s: State, step: Step, g: nat)
    requires ModelsOk(s) && Enabled(env, s, step) && MovesItems(step) && !step.Collect? && !step.Flush?
    requires Leaver(s.models[step.m], step) == Some(g)
    ensures WaitCount(Apply(env, s, step).recs) < WaitCount(s.recs)
  {
    MovesDescend(env, s, step);
    LosesWaiting(env, s, step, g);
    StageSums(s.recs, Apply(env, s, step).recs);
  }

  lemma MovesDescend(env: Env, s: State, step: Step)
    requires ModelsOk(s) && Enabled(env, s, step) && MovesItems(step)
    ensures var s' := Apply(env, s, step);
            |s'.recs| == |s.recs| &&
            forall g :: 0 <= g < |s.recs| ==> StageRank(s'.recs[g].stage) <= StageRank(s.recs[g].stage)
  {
    MovesAreMoves(env, s, step);
    MovedDescend(s, Apply(env, s, step));
  }

  lemma MovedDescend(s: State, s': State)
    requires MovesOnly(s, s')
    ensures |s'.recs| == |s.recs| && forall g :: 0 <= g < |s.recs| ==> StageRank(s'.recs[g].stage) <= StageRank(s.recs[g].stage)
  {
    forall g | 0 <= g < |s.recs| ensures StageRank(s'.recs[g].stage) <= StageRank(s.recs[g].stage) {
      assert Moved(s.recs[g], s'.recs[g]);
    }
  }

  lemma LosesWaiting(env: Env, s: State, step: Step, g: nat)
    requires ModelsOk(s) && Enabled(env, s, step) && MovesItems(step) && !step.Collect? && !step.Flush?
    requires Leaver(s.models[step.m], step) == Some(g)
    ensures g < |s.recs| && IsWaiting(s.recs[g].stage) && !IsWaiting(Apply(env, s, step).recs[g].stage)
  {
    var q := s.models[step.m];
    assert ModelOk(s.recs, step.m, q);
    assert Lists(s.recs, step.m, q.queue, Queued) && Lists(s.recs, step.m, q.buf, Buffered);
    if step.Dispatch? {
      NextBatchDivides(s.recs, q);
    }
  }

  lemma CollectUsesUp(env: Env, s: State, m: nat)
    requires ModelsOk(s) && Enabled(env, s, Collect(m))
    ensures var s' := Apply(env, s, Collect(m));
            Work(s') < Work(s) && WaitCount(s'.recs) == WaitCount(s.recs)
  {
    var s' := Apply(env, s, Collect(m));
    var q, g := s.models[m], s.models[m].queue[0];
    assert ModelOk(s.recs, m, q);
    OneCollected(s.recs, m, q.queue);
    OneStage(s.recs, g, s'.recs[g]);
    OneModel(s.models, m, s'.models[m]);
    assert |Line(s'.models[m])| == |Line(q)|;
  }

  /** The oldest queued item moves on to the buffer and keeps waiting. */
  lemma OneCollected(recs: seq<Rec>, m: nat, queue: seq<nat>)
    requires Lists(recs, m, queue, Queued) && queue != []
    ensures var g := queue[0];
            && g < |recs| && recs[g].stage == Queued
            && Mark(recs, [g], Buffered) == recs[g := recs[g].(stage := Buffered)]
            && WaitCount(Mark(recs, [g], Buffered)) == WaitCount(recs)
  {
    var g := queue[0];
    assert Mark(recs, [g], Buffered) == recs[g := recs[g].(stage := Buffered)];
    SameWaiting(recs, Mark(recs, [g], Buffered));
  }

  lemma {:induction false} SameWaiting(recs: seq<Rec>, recs': seq<Rec>)
    requires |recs| == |recs'| && forall g :: 0 <= g < |recs| ==> IsWaiting(recs[g].stage) == IsWaiting(recs'[g].stage)
    ensures WaitCount(recs) == WaitCount(recs')
  {
    if recs != [] {
      SameWaiting(recs[..|recs| - 1], recs'[..|recs| - 1]);
    }
  }

  /** Every step of the scheduler itself uses up work. */
  lemma InternalStepsUseUpWork(env: Env, s: State, step: Step)
    requires Inv(env, s) && Enabled(env, s, step) && Internal(step)
    ensures Less(Apply(env, s, step), s)
  {
    if WorkerStep(step) {
      WorkerLess(env, s, step);
    } else if ChangesPhase(step) {
      PhaseLess(env, s, step);
    } else if MovesItems(step) {
      MoveLess(env, s, step);
    } else if Drops(step) {
      DropLess(env, s, step);
    } else if DeliveryStep(step) {
      DeliveryLess(env, s, step);
    } else {
      EnqueueLess(env, s, step.g);
    }
  }

  ghost predicate Quiet(env: Env, s: State) {
    forall step :: Internal(step) ==> !Enabled(env, s, step)
  }

  /** Nothing outstanding, and every counter back at its start value. */
  ghost predicate Restored(s: State) {
    && (forall g :: 0 <= g < |s.recs| ==> !Outstanding(s.recs[g]) && !s.recs[g].chan.Pending?)
    && s.entries == map[]
    && forall m :: 0 <= m < |s.models| ==> ModelRestored(s.models[m])
  }

  ghost predicate ModelRestored(q: Model) {
    && q.permits == q.limits.maxPending && q.tokens == 0
    && q.queue == [] && q.buf == [] && q.taken == |q.sent|
    && q.idle + (if HoldsIdle(q.phase) then 1 else 0) == q.live
  }

  /** When the scheduler can do nothing more, everything has been returned, whatever happened before. */
  lemma QuietIsRestored(env: Env, s: State)
    requires Inv(env, s) && Quiet(env, s)
    ensures Restored(s)
  {
    assert forall k :: k in s.entries ==> s.entries[k] < |s.recs| && Outstanding(s.recs[s.entries[k]]);
    forall g | 0 <= g < |s.recs| ensures !Outstanding(s.recs[g]) && !s.recs[g].chan.Pending? {
      assert RecOk(env, s, s.recs[g]);
      if Outstanding(s.recs[g]) {
        var step := NeverStuck(env, s, g);
      }
    }
    forall m | 0 <= m < |s.models| ensures ModelRestored(s.models[m]) {
      QuietModel(env, s, m);
    }
  }

  lemma QuietModel(env: Env, s: State, m: nat)
    requires Inv(env, s) && Quiet(env, s) && m < |s.models|
    requires forall g :: 0 <= g < |s.recs| ==> !Outstanding(s.recs[g])
    ensures ModelRestored(s.models[m])
  {
    var q := s.models[m];
    assert ModelOk(s.recs, m, q) && HandshakeOk(q);
    NothingLeft(s.recs, m, PermitsHeld);
    NothingLeft(s.recs, m, TokensCounted);
    if Line(q) != [] {
      var step := LineMoves(env, s, m);
    }
    if BusyCount(q.workers) > 0 {
      var w := SomeoneIsBusy(q.workers);
      var step := WorkerMoves(env, s, m, w);
    }
    if q.taken < |q.sent| {
      var step := ChannelMoves(env, s, m);
    }
  }

  lemma WorkStaysNatural(env: Env, s: State)
    requires Inv(env, s)
    ensures Work(s) >= 0
  {
    assert forall m :: 0 <= m < |s.models| ==> ModelOk(s.recs, m, s.models[m]);
    WorkIsNatural(s.models);
  }

  ghost predicate InternalStepAt(env: Env, f: nat -> State, steps: nat -> Step, i: nat) {
    Internal(steps(i)) && Enabled(env, f(i), steps(i)) && f(i + 1) == Apply(env, f(i), steps(i))
  }

  /** The scheduler never runs forever on its own: every sequence of its steps ends. */
  lemma NoEndlessWork(env: Env, f: nat -> State, steps: nat -> Step, i: nat)
    requires Inv(env, f(i))
    ensures exists j :: j >= i && !InternalStepAt(env, f, steps, j)
    decreases WaitCount(f(i).recs), Work(f(i))
  {
    WorkStaysNatural(env, f(i));
    if InternalStepAt(env, f, steps, i) {
      InternalStepsUseUpWork(env, f(i), steps(i));
      StepKeepsInv(env, f(i), steps(i));
      NoEndlessWork(env, f, steps, i + 1);
    }
  }

  lemma RunCons(env: Env, s: State, step: Step, states: seq<State>, steps: seq<Step>)
    requires Run(env, states, steps) && Enabled(env, s, step) && states[0] == Apply(env, s, step)
    requires Internal(step) && forall i :: 0 <= i < |steps| ==> Internal(steps[i])
    ensures Run(env, [s] + states, [step] + steps) && ([s] + states)[|steps| + 1] == states[|steps|]
    ensures forall i :: 0 <= i < |steps| + 1 ==> Internal(([step] + steps)[i])
  {
    var states', steps' := [s] + states, [step] + steps;
    forall i | 0 <= i < |steps'| ensures Enabled(env, states'[i], steps'[i]) && states'[i + 1] == Apply(env, states'[i], steps'[i]) {
      if i > 0 {
        assert states'[i] == states[i - 1] && steps'[i] == steps[i - 1];
      }
    }
  }

  /** From every reachable state the scheduler alone can finish: a run of its own steps restores everything. */
  lemma Drains(env: Env, s: State) returns (states: seq<State>, steps: seq<Step>)
    requires Inv(env, s)
    ensures Run(env, states, steps) && states[0] == s && Restored(states[|steps|])
    ensures forall i :: 0 <= i < |steps| ==> Internal(steps[i])
    decreases WaitCount(s.recs), Work(s)
  {
    WorkStaysNatural(env, s);
    if Quiet(env, s) {
      QuietIsRestored(env, s);
      states, steps := [s], [];
    } else {
      var step :| Internal(step) && Enabled(env, s, step);
      var s' := Apply(env, s, step);
      InternalStepsUseUpWork(env, s, step);
      StepKeepsInv(env, s, step);
      var states', steps' := Drains(env, s');
      RunCons(env, s, step, states', steps');
      states, steps := [s] + states', [step] + steps';
    }
  }
}
