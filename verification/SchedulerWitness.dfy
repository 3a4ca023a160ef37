/** Runs spelled out: states the scheduler does reach, where a condition in the theorems is needed. */
module SchedulerWitness {
  import opened Types
  import opened Pick
  import opened SchedulerModel
  import opened SchedulerInvariant
  import opened SchedulerTheorems

  /** One step further is reachable too. */
  lemma StepReaches(env: Env, s: State, step: Step)
    requires Reachable(env, s) && Enabled(env, s, step)
    ensures Reachable(env, Apply(env, s, step))
  {
    var limits, states, steps :| ReachedBy(env, s, limits, states, steps);
    var states', steps' := states + [Apply(env, s, step)], steps + [step];
    assert Run(env, states', steps') by {
      forall i | 0 <= i < |steps'|
        ensures Enabled(env, states'[i], steps'[i]) && states'[i + 1] == Apply(env, states'[i], steps'[i])
      {
        if i < |steps| {
          assert states'[i] == states[i] && states'[i + 1] == states[i + 1];
        }
      }
    }
    assert ReachedBy(env, Apply(env, s, step), limits, states', steps');
  }

  lemma StartReaches(env: Env, s: State, limits: seq<Limits>)
    requires Init(s, limits)
    ensures Reachable(env, s)
  {
    assert ReachedBy(env, s, limits, [s], []);
  }

  // ---------- One item on its way to a batch ----------

  /** The only model waits for work: nothing queued or buffered, a permit to give, and no cost estimate yet. */
  predicate Ready(s: State) {
    && |s.models| == 1
    && var q := s.models[0];
       q.phase.AwaitIdle? && !q.idleClosed && q.open && q.queue == [] && q.buf == [] && q.permits > 0 && q.spt == 0.0
  }

  /** A client that asks for a key it cannot join. */
  predicate Asks(env: Env, s: State, c: nat, job: Job) {
    JobOk(env, job) && job.model == 0 && !Joinable(s, job.key) && forall u :: u in s.subs ==> u.client != c
  }

  lemma AdmitsOne(env: Env, s: State, c: nat, job: Job, deadline: nat)
    requires Ready(s) && Asks(env, s, c, job)
    ensures Enabled(env, s, Admit(c, [job], deadline))
    ensures Apply(env, s, Admit(c, [job], deadline)) == Register(s, c, deadline, job)
  {
    NoneJoined(s, c, job, deadline);
    OneIsNovel(s, job);
    OneFits(s, job, deadline, env.headroom);
    RegistersOne(s, c, job, deadline);
  }

  lemma NoneJoined(s: State, c: nat, job: Job, deadline: nat)
    requires !Joinable(s, job.key)
    ensures Joined(s, [job]) == {}
    ensures RaiseDeadlines(s, {}, deadline) == s && s.(subs := s.subs + JoinSubs(s, c, {})) == s
  {
    assert RaiseDeadlines(s, {}, deadline).recs == s.recs;
    assert JoinSubs(s, c, {}) == {} && s.subs + {} == s.subs;
  }

  lemma OneIsNovel(s: State, job: Job)
    requires !Joinable(s, job.key)
    ensures Fresh(s, [job]) == [job]
  {
    assert [job][..0] == [];
    assert Fresh(s, [job]) == Fresh(s, []) + [job];
  }

  lemma OneFits(s: State, job: Job, deadline: nat, headroom: real)
    requires Ready(s) && job.model == 0
    ensures AllAdmit(s, [job], deadline, headroom)
  {
    assert [job][..0] == [];
    assert CountFor([job], 0) == CountFor([], 0) + 1;
  }

  lemma RegistersOne(s: State, c: nat, job: Job, deadline: nat)
    ensures RegisterAll(s, c, deadline, [job]) == Register(s, c, deadline, job)
  {
    assert [job][..0] == [];
    assert RegisterAll(s, c, deadline, []) == s;
  }

  /** Registered, and handed to the queue. */
  function Handed(s: State, c: nat, job: Job, deadline: nat): State
    requires Ready(s) && job.model == 0
  {
    var g, q := |s.recs|, s.models[0];
    s.(recs := s.recs + [Rec(job, Queued, Pending, deadline)],
       entries := s.entries[job.key := g],
       subs := s.subs + {Sub(c, job.key, g)},
       models := [q.(permits := q.permits - 1, tokens := q.tokens + |job.enc.ids|, queue := [g])])
  }

  lemma HandsOver(env: Env, s: State, c: nat, job: Job, deadline: nat)
    requires Reachable(env, s) && Ready(s) && Asks(env, s, c, job)
    ensures Reachable(env, Handed(s, c, job, deadline))
  {
    var g := |s.recs|;
    AdmitsOne(env, s, c, job, deadline);
    StepReaches(env, s, Admit(c, [job], deadline));
    var s1 := Register(s, c, deadline, job);
    assert s1.recs[g] == Rec(job, Parked, Pending, deadline);
    StepReaches(env, s1, Enqueue(g));
    var s2, t := Apply(env, s1, Enqueue(g)), Handed(s, c, job, deadline);
    assert s1.models[0].queue + [g] == [g];
    assert s2.recs == t.recs && s2.models == t.models;
    assert s2 == t;
  }

  /** In the buffer, an idle permit held. */
  function Collected(s: State, c: nat, job: Job, deadline: nat): State
    requires Ready(s) && job.model == 0
  {
    var t, g := Handed(s, c, job, deadline), |s.recs|;
    t.(recs := s.recs + [Rec(job, Buffered, Pending, deadline)],
       models := [t.models[0].(idle := t.models[0].idle - 1, phase := Collecting, queue := [], buf := [g])])
  }

  /** Nobody else waits, so nobody else's stage is touched. */
  lemma CollectsAlone(env: Env, s: State, m: nat, g: nat)
    requires Enabled(env, s, Collect(m)) && s.models[m].queue == [g] && g < |s.recs| && s.models[m].buf == []
    ensures Apply(env, s, Collect(m))
         == s.(recs := s.recs[g := s.recs[g].(stage := Buffered)], models := s.models[m := s.models[m].(queue := [], buf := [g])])
  {
    assert Mark(s.recs, [g], Buffered) == s.recs[g := s.recs[g].(stage := Buffered)];
    assert [g][1..] == [] && [] + [g] == [g];
  }

  lemma CollectsOne(env: Env, s: State, c: nat, job: Job, deadline: nat)
    requires Reachable(env, s) && Ready(s) && s.models[0].idle > 0 && Asks(env, s, c, job)
    ensures Reachable(env, Collected(s, c, job, deadline))
  {
    var g := |s.recs|;
    HandsOver(env, s, c, job, deadline);
    var s2 := Handed(s, c, job, deadline);
    StepReaches(env, s2, AcquireIdle(0));
    var s3 := Apply(env, s2, AcquireIdle(0));
    StepReaches(env, s3, Collect(0));
    CollectsAlone(env, s3, 0, g);
    var s4, t := Apply(env, s3, Collect(0)), Collected(s, c, job, deadline);
    assert s4.recs == t.recs && s4.models == t.models;
    assert s4 == t;
  }

  /** The item alone in the next batch. */
  function Dispatched(s: State, c: nat, job: Job, deadline: nat): State
    requires Ready(s) && job.model == 0
  {
    var t, g, q := Collected(s, c, job, deadline), |s.recs|, s.models[0];
    t.(recs := s.recs + [Rec(job, InBatch(|q.sent|), Pending, deadline)],
       models := [t.models[0].(phase := AwaitIdle, buf := [], sent := q.sent + [[g]])])
  }

  /** Found alive by the scan. */
  function Scanned1(s: State, c: nat, job: Job, deadline: nat): State
    requires Ready(s) && job.model == 0
  {
    var t := Collected(s, c, job, deadline);
    t.(models := [t.models[0].(phase := Scanning(1, s.now))])
  }

  lemma ScansOne(env: Env, s: State, c: nat, job: Job, deadline: nat)
    requires Reachable(env, s) && Ready(s) && s.models[0].idle > 0 && Asks(env, s, c, job) && s.now < deadline
    ensures Reachable(env, Scanned1(s, c, job, deadline))
  {
    var g := |s.recs|;
    CollectsOne(env, s, c, job, deadline);
    var s1 := Collected(s, c, job, deadline);
    StepReaches(env, s1, StartScan(0));
    var s2 := Apply(env, s1, StartScan(0));
    assert Sub(c, job.key, g) in s2.subs && s2.recs[g].deadline == deadline;
    assert Live(s2, g, s2.now);
    StepReaches(env, s2, ScanKeep(0));
    assert Apply(env, s2, ScanKeep(0)) == Scanned1(s, c, job, deadline);
  }

  lemma DispatchesOne(env: Env, s: State, c: nat, job: Job, deadline: nat)
    requires Reachable(env, s) && Ready(s) && s.models[0].idle > 0 && HasThread(s.models[0]) && Asks(env, s, c, job)
    requires s.now < deadline
    ensures Reachable(env, Dispatched(s, c, job, deadline))
  {
    var g, q := |s.recs|, s.models[0];
    ScansOne(env, s, c, job, deadline);
    var s3 := Scanned1(s, c, job, deadline);
    var q3 := s3.models[0];
    assert HasThread(q3) by {
      var w :| 0 <= w < |q.workers| && Alive(q.workers[w]);
      assert Alive(q3.workers[w]);
    }
    AloneInBatch(s3.recs, q3, g);
    DispatchesAlone(env, s3, g);
    assert Apply(env, s3, Dispatch(0)).recs == Dispatched(s, c, job, deadline).recs;
  }

  lemma DispatchesAlone(env: Env, s: State, g: nat)
    requires Reachable(env, s) && |s.models| == 1 && Scanned(s.models[0]) && HasThread(s.models[0]) && g < |s.recs|
    requires NextBatch(s.recs, s.models[0]) == ([g], [])
    ensures Enabled(env, s, Dispatch(0)) && Reachable(env, Apply(env, s, Dispatch(0)))
    ensures var q := s.models[0];
            Apply(env, s, Dispatch(0)) == s.(recs := s.recs[g := s.recs[g].(stage := InBatch(|q.sent|))],
                                             models := [q.(buf := [], sent := q.sent + [[g]], phase := AwaitIdle)])
  {
    StepReaches(env, s, Dispatch(0));
    var b := |s.models[0].sent|;
    assert Mark(s.recs, [g], InBatch(b)) == s.recs[g := s.recs[g].(stage := InBatch(b))];
  }

  lemma AloneInBatch(recs: seq<Rec>, q: Model, g: nat)
    requires q.buf == [g]
    ensures NextBatch(recs, q) == ([g], [])
  {
    var rest: seq<nat> := q.buf[1..];
    var c := Chosen(ItemLen(recs, g), LineLens(recs, rest), q.limits.maxItems, q.limits.maxTokens);
    assert rest == [] && c == [];
    assert Followers(rest, c) == [] && Remainder(rest, c) == [];
    assert [g] + [] == [g];
  }

  // ---------- A rebuild that panics ----------

  /** Two workers, three places, one item a batch. */
  const TWO_WORKERS := Limits(3, 2, 1, 1)

  /** Three different questions, all answered alike. */
  function PlainEnv(): Env {
    Env(k => Encoded([], [], 0), (m, e) => Raw([], 0.0, 0), k => Raw([], 0.0, 0), 1.0)
  }

  function PlainJob(k: Key): Job {
    Job(k, 0, Encoded([], [], 0))
  }

  /**
   * A worker's first batch panics, and so does its rebuild. Its idle permit comes back, so two more batches are
   * dispatched to the one worker left: the second waits in the channel while nobody waits for it.
   */
  lemma DispatchWithoutWorker() returns (env: Env, s: State)
    ensures Reachable(env, s) && |s.models| == 1
    ensures var q := s.models[0];
            && q.taken < |q.sent| && CrashedCount(q.workers) == 1 && HasThread(q)
            && forall w :: !Enabled(env, s, TakeBatch(0, w))
  {
    env := PlainEnv();
    var s3 := SecondRuns(env);
    assert Alive(s3.models[0].workers[1]);
    DispatchesOne(env, s3, 3, PlainJob(3), 1);
    s := Dispatched(s3, 3, PlainJob(3), 1);
    OneCrashed(s.models[0].workers, 1);
  }

  lemma OneCrashed(ws: seq<Worker>, b: nat)
    requires ws == [Crashed, Running(b)]
    ensures CrashedCount(ws) == 1 && Alive(ws[1])
  {
    assert ws[..1] == [Crashed] && CrashedCount([Crashed]) == CrashedCount([]) + 1;
  }

  /** The state after the first item's batch panicked, and the rebuild too. */
  lemma LoseOneWorker(env: Env) returns (s: State)
    requires env == PlainEnv()
    ensures Reachable(env, s) && Ready(s) && s.now == 0 && |s.recs| == 1
    ensures s.entries == map[1 := 0] && s.subs == {Sub(1, 1, 0)} && s.recs[0].stage.Doomed?
    ensures var q := s.models[0];
            q.workers == [Crashed, Waiting] && q.idle == 2 && q.taken == |q.sent| == 1 && q.permits == 2
  {
    var s2 := TakeFirst(env);
    StepReaches(env, s2, FinishRun(0, 0, Panicked, 0.0));
    var s3 := Apply(env, s2, FinishRun(0, 0, Panicked, 0.0));
    assert s3.models[0].sent[0] == [0] && s3.models[0].workers[0].Delivering?;
    assert Delivers(s3, 0, 0, 0) && ItemAt(s3, 0, 0, 0) == 0;
    StepReaches(env, s3, SendErr(0, 0, 0));
    var s4 := Apply(env, s3, SendErr(0, 0, 0));
    s := EndsCrashed(env, s4);
  }

  lemma EndsCrashed(env: Env, s: State) returns (s': State)
    requires Reachable(env, s) && |s.models| == 1 && |s.recs| == 1 && s.recs[0].stage.Doomed?
    requires s.models[0].workers == [Delivering(0, Failure("inference worker panicked", true)), Waiting]
    ensures Reachable(env, s')
    ensures s' == s.(models := [s.models[0].(workers := [Crashed, Waiting], idle := s.models[0].idle + 1)])
  {
    assert BatchEmpty(s.recs, 0, 0);
    StepReaches(env, s, EndBatch(0, 0));
    var s5 := Apply(env, s, EndBatch(0, 0));
    StepReaches(env, s5, RebuildPanics(0, 0));
    s' := Apply(env, s5, RebuildPanics(0, 0));
    assert s'.models[0].workers == [Crashed, Waiting];
  }

  /** The first worker runs the first item's batch. */
  lemma TakeFirst(env: Env) returns (s: State)
    requires env == PlainEnv()
    ensures Reachable(env, s) && |s.models| == 1 && s.now == 0 && s.recs == [Rec(PlainJob(1), InBatch(0), Pending, 1)]
    ensures s.entries == map[1 := 0] && s.subs == {Sub(1, 1, 0)}
    ensures s.models[0] == NewModel(TWO_WORKERS).(permits := 2, idle := 1, sent := [[0]], taken := 1, workers := [Running(0), Waiting])
  {
    var s0 := Start(env);
    assert Alive(s0.models[0].workers[0]);
    DispatchesOne(env, s0, 1, PlainJob(1), 1);
    var s1 := Dispatched(s0, 1, PlainJob(1), 1);
    StepReaches(env, s1, TakeBatch(0, 0));
    s := Apply(env, s1, TakeBatch(0, 0));
    assert s.models[0].workers == [Running(0), Waiting];
  }

  lemma Start(env: Env) returns (s: State)
    ensures Reachable(env, s) && s == State([], map[], {}, [NewModel(TWO_WORKERS)], map[], {}, {}, 0) && Ready(s)
    ensures s.models[0].workers == [Waiting, Waiting]
  {
    s := State([], map[], {}, seq(1, i => NewModel(TWO_WORKERS)), map[], {}, {}, 0);
    assert s.models == [NewModel(TWO_WORKERS)];
    assert Init(s, [TWO_WORKERS]);
    StartReaches(env, s, [TWO_WORKERS]);
  }

  /** The one worker left runs the second item's batch. */
  lemma SecondRuns(env: Env) returns (s: State)
    requires env == PlainEnv()
    ensures Reachable(env, s) && Ready(s) && s.now == 0 && |s.recs| == 2 && s.recs[0].stage.Doomed?
    ensures s.recs[1] == Rec(PlainJob(2), InBatch(1), Pending, 1)
    ensures s.entries == map[1 := 0, 2 := 1] && s.subs == {Sub(1, 1, 0), Sub(2, 2, 1)}
    ensures var q := s.models[0];
            && q.workers == [Crashed, Running(1)] && q.idle == 1 && q.permits == 1 && q.taken == |q.sent| == 2 && q.sent[1] == [1]
  {
    var s1 := LoseOneWorker(env);
    assert Alive(s1.models[0].workers[1]);
    DispatchesOne(env, s1, 2, PlainJob(2), 1);
    var s2 := Dispatched(s1, 2, PlainJob(2), 1);
    StepReaches(env, s2, TakeBatch(0, 1));
    s := Apply(env, s2, TakeBatch(0, 1));
    assert s.models[0].workers == [Crashed, Running(1)];
  }

  /** The second worker goes the same way with the second item, and no thread is left. */
  lemma LoseBothWorkers(env: Env) returns (s: State)
    requires env == PlainEnv()
    ensures Reachable(env, s) && Ready(s) && s.now == 0 && |s.recs| == 2
    ensures s.entries == map[1 := 0, 2 := 1] && s.subs == {Sub(1, 1, 0), Sub(2, 2, 1)}
    ensures var q := s.models[0]; q.workers == [Crashed, Crashed] && q.idle == 2 && q.permits == 1
  {
    var s3 := SecondRuns(env);
    StepReaches(env, s3, FinishRun(0, 1, Panicked, 0.0));
    var s4 := Apply(env, s3, FinishRun(0, 1, Panicked, 0.0));
    s := SecondCrashes(env, s4);
  }

  lemma SecondCrashes(env: Env, s: State) returns (s': State)
    requires Reachable(env, s) && |s.models| == 1 && |s.recs| == 2
    requires s.recs[1].stage == InBatch(1) && s.recs[1].job.model == 0 && s.recs[0].stage.Doomed?
    requires |s.models[0].sent| == 2 && s.models[0].sent[1] == [1]
    requires s.models[0].workers == [Crashed, Delivering(1, Failure("inference worker panicked", true))]
    ensures Reachable(env, s') && |s'.recs| == 2
    ensures s' == s.(recs := s'.recs, models := [s.models[0].(workers := [Crashed, Crashed], idle := s.models[0].idle + 1)])
  {
    assert Delivers(s, 0, 1, 0) && ItemAt(s, 0, 1, 0) == 1;
    StepReaches(env, s, SendErr(0, 1, 0));
    s' := EndsSecond(env, Apply(env, s, SendErr(0, 1, 0)));
  }

  lemma EndsSecond(env: Env, s: State) returns (s': State)
    requires Reachable(env, s) && |s.models| == 1 && |s.recs| == 2 && s.recs[0].stage.Doomed? && s.recs[1].stage.Doomed?
    requires s.models[0].workers == [Crashed, Delivering(1, Failure("inference worker panicked", true))]
    ensures Reachable(env, s')
    ensures s' == s.(models := [s.models[0].(workers := [Crashed, Crashed], idle := s.models[0].idle + 1)])
  {
    assert BatchEmpty(s.recs, 0, 1);
    StepReaches(env, s, EndBatch(0, 1));
    var s2 := Apply(env, s, EndBatch(0, 1));
    StepReaches(env, s2, RebuildPanics(0, 1));
    s' := Apply(env, s2, RebuildPanics(0, 1));
    assert s'.models[0].workers == [Crashed, Crashed];
  }

  /**
   * With no thread left the next dispatch fails: its item is dropped unanswered, the batcher has ended and the queue
   * is closed, while two workers still count as live.
   */
  lemma LastCrashEndsTheModel() returns (env: Env, s: State)
    ensures Reachable(env, s) && |s.models| == 1 && |s.recs| == 3
    ensures var q := s.models[0];
            !HasThread(q) && q.phase.Stopped? && !q.open && q.live == 2 && !q.idleClosed && Unanswered(s, 2)
  {
    env := PlainEnv();
    var s1 := LoseBothWorkers(env);
    ScansOne(env, s1, 3, PlainJob(3), 1);
    s := FailsToDispatch(env, Scanned1(s1, 3, PlainJob(3), 1));
    ReachableInv(env, s);
    assert HandshakeOk(s.models[0]);
    CountsOfTwoLost(s.models[0].workers);
  }

  lemma FailsToDispatch(env: Env, s: State) returns (s': State)
    requires Reachable(env, s) && |s.models| == 1 && |s.recs| == 3 && s.recs[2].chan.Pending?
    requires Scanned(s.models[0]) && !HasThread(s.models[0]) && s.models[0].open && s.models[0].buf == [2]
    requires s.models[0].queue == []
    ensures Reachable(env, s') && |s'.recs| == 3 && Unanswered(s', 2)
    ensures var q := s.models[0];
            s' == s.(recs := s'.recs, models := [q.(buf := [], phase := Stopped, idle := q.idle + 1, open := false)])
  {
    StepReaches(env, s, DispatchFails(0));
    var s2 := Apply(env, s, DispatchFails(0));
    assert 2 in s.models[0].buf && Unanswered(s2, 2);
    StepReaches(env, s2, CloseQueue(0));
    s' := Apply(env, s2, CloseQueue(0));
    assert s2.models[0].(queue := [], open := false) == s'.models[0];
  }

  lemma CountsOfTwoLost(ws: seq<Worker>)
    requires ws == [Crashed, Crashed]
    ensures LiveCount(ws) == 2
  {
    assert ws[..1] == [Crashed] && LiveCount([Crashed]) == LiveCount([]) + 1;
  }

  // ---------- Two items with subscribers ----------

  /**
   * An item found dead has given up its entry but not yet told its subscriber; another request for the same key is
   * admitted beside it. Two outstanding items of one key have subscribers then, one of them past its entry stage.
   */
  lemma TwoSubscribedPastEntry() returns (env: Env, s: State)
    ensures Reachable(env, s) && |s.recs| == 2
    ensures s.recs[0].job.key == s.recs[1].job.key && HasSub(s.subs, 0) && HasSub(s.subs, 1)
    ensures Outstanding(s.recs[0]) && Outstanding(s.recs[1]) && s.recs[0].chan.Pending? && s.recs[1].chan.Pending?
    ensures !Registered(s.recs[0]) && Registered(s.recs[1])
  {
    env := PlainEnv();
    var s6 := DeadUnlisted(env);
    AdmitsOne(env, s6, 2, PlainJob(1), 9);
    StepReaches(env, s6, Admit(2, [PlainJob(1)], 9));
    s := Register(s6, 2, 9, PlainJob(1));
    assert Sub(1, 1, 0) in s.subs && Sub(2, 1, 1) in s.subs;
  }

  // ---------- A busy model ----------

  const FOUR_TOKENS := Encoded([7, 7, 7, 7], [], 0)

  /** Questions of four tokens, and eight tenths of the time left to fill. */
  function CostlyEnv(): Env {
    Env(k => FOUR_TOKENS, (m, e) => Raw([], 0.0, 0), k => Raw([], 0.0, 0), 0.8)
  }

  function CostlyJob(k: Key): Job {
    Job(k, 0, FOUR_TOKENS)
  }

  /**
   * One item's run took half a second a token, and its tokens still count. Another item would bring the work of two
   * workers to two seconds: a request with two seconds left is shed, one with three is admitted.
   */
  lemma BusyShedsAndAdmits() returns (env: Env, s: State)
    ensures Reachable(env, s) && env.headroom == 0.8 && |s.models| == 1 && s.now == 0
    ensures s.models[0].spt == 0.5 && s.models[0].tokens == 4 && s.models[0].permits == 2 && s.models[0].limits.workers == 2
    ensures Enabled(env, s, Admit(2, [CostlyJob(2)], 2)) && !AdmitSection(s, 2, [CostlyJob(2)], 2, 0.8).1
    ensures Enabled(env, s, Admit(2, [CostlyJob(2)], 3)) && AdmitSection(s, 2, [CostlyJob(2)], 3, 0.8).1
  {
    env := CostlyEnv();
    s := FirstCosts(env);
    ShedsAndAdmits(s, CostlyJob(2));
  }

  lemma ShedsAndAdmits(s: State, job: Job)
    requires |s.models| == 1 && s.now == 0 && job == CostlyJob(2) && !Joinable(s, 2)
    requires var q := s.models[0]; q.spt == 0.5 && q.tokens == 4 && q.permits == 2 && q.limits.workers == 2
    ensures !AdmitSection(s, 2, [job], 2, 0.8).1 && AdmitSection(s, 2, [job], 3, 0.8).1
  {
    OneIsNovel(s, job);
    assert [job][..0] == [];
    assert CountFor([job], 0) == CountFor([], 0) + 1 && TokensFor([job], 0) == TokensFor([], 0) + 4;
    var q := s.models[0];
    assert (q.tokens + 4) as real * q.spt == 4.0;
    assert Sheds(q, 4, 2, 0.8) && !Sheds(q, 4, 3, 0.8);
    assert !Admits(s.models[0], CountFor([job], 0), TokensFor([job], 0), Max(0, 2 - s.now), 0.8);
  }

  /** The first item's run is over and its answer is about to be delivered. */
  lemma FirstCosts(env: Env) returns (s: State)
    requires env == CostlyEnv()
    ensures Reachable(env, s) && |s.models| == 1 && s.now == 0 && s.subs == {Sub(1, 1, 0)} && s.entries == map[1 := 0]
    ensures var q := s.models[0]; q.spt == 0.5 && q.tokens == 4 && q.permits == 2 && q.limits.workers == 2
  {
    var s0 := Start(env);
    assert Alive(s0.models[0].workers[0]);
    DispatchesOne(env, s0, 1, CostlyJob(1), 9);
    var s1 := Dispatched(s0, 1, CostlyJob(1), 9);
    StepReaches(env, s1, TakeBatch(0, 0));
    var s2 := Apply(env, s1, TakeBatch(0, 0));
    s := FirstReturns(env, s2);
  }

  lemma FirstReturns(env: Env, s: State) returns (s': State)
    requires env == CostlyEnv() && Reachable(env, s) && |s.models| == 1 && |s.recs| == 1 && s.recs[0].job == CostlyJob(1)
    requires s.models[0].sent == [[0]] && |s.models[0].workers| > 0 && s.models[0].workers[0] == Running(0) && s.models[0].spt == 0.0
    ensures Reachable(env, s') && |s'.models| == 1
    ensures s' == s.(models := [s.models[0].(spt := 0.5, workers := s'.models[0].workers)])
  {
    var reply := Returned([Raw([], 0.0, 0)]);
    assert Computed(env, s.recs, 0, [0], reply.raws);
    StepReaches(env, s, FinishRun(0, 0, reply, 0.5));
    s' := Apply(env, s, FinishRun(0, 0, reply, 0.5));
  }

  // ---------- An orphan beside its successor ----------

  /**
   * A client leaves while its item is computed; another asks for the same key, cannot join, and its item is computed
   * too, at the same time. A key is not computed at most once; only one of the two has a subscriber.
   */
  lemma OrphanBesideSuccessor() returns (env: Env, s: State)
    ensures Reachable(env, s) && |s.recs| == 2 && |s.models| == 1 && s.recs[0].job == s.recs[1].job
    ensures s.models[0].workers == [Running(0), Running(1)] && s.models[0].sent == [[0], [1]]
    ensures s.recs[0].stage == InBatch(0) && s.recs[1].stage == InBatch(1)
    ensures !HasSub(s.subs, 0) && HasSub(s.subs, 1) && s.entries == map[1 := 1]
  {
    env := PlainEnv();
    var s2 := Orphaned(env);
    assert Alive(s2.models[0].workers[1]);
    DispatchesOne(env, s2, 2, PlainJob(1), 1);
    s := SecondTakes(env, Dispatched(s2, 2, PlainJob(1), 1));
    assert Sub(2, 1, 1) in s.subs;
  }

  lemma SecondTakes(env: Env, s: State) returns (s': State)
    requires Reachable(env, s) && |s.models| == 1 && s.models[0].workers == [Running(0), Waiting]
    requires s.models[0].taken == 1 < |s.models[0].sent|
    ensures Reachable(env, s')
    ensures s' == s.(models := [s.models[0].(workers := [Running(0), Running(1)], taken := 2)])
  {
    StepReaches(env, s, TakeBatch(0, 1));
    s' := Apply(env, s, TakeBatch(0, 1));
    assert s'.models[0].workers == [Running(0), Running(1)];
  }

  /** The first item runs, and nobody waits for it any more. */
  lemma Orphaned(env: Env) returns (s: State)
    requires env == PlainEnv()
    ensures Reachable(env, s) && Ready(s) && s.now == 0 && s.recs == [Rec(PlainJob(1), InBatch(0), Pending, 1)]
    ensures s.entries == map[1 := 0] && s.subs == {}
    ensures s.models[0] == NewModel(TWO_WORKERS).(permits := 2, idle := 1, sent := [[0]], taken := 1, workers := [Running(0), Waiting])
  {
    var s1 := TakeFirst(env);
    StepReaches(env, s1, Abandon(Sub(1, 1, 0)));
    s := Apply(env, s1, Abandon(Sub(1, 1, 0)));
    assert s.subs == {};
  }

  // ---------- A rejection that leaves a trace ----------

  /**
   * A request that could join one item but finds no permits for three others is rejected, and the item it could have
   * joined keeps the later deadline.
   */
  lemma RejectedButRaised() returns (env: Env, s: State, jobs: seq<Job>)
    ensures Reachable(env, s) && Enabled(env, s, Admit(2, jobs, 9)) && !AdmitSection(s, 2, jobs, 9, env.headroom).1
    ensures |s.recs| == 1 && s.recs[0].deadline == 1 && Apply(env, s, Admit(2, jobs, 9)).recs[0].deadline == 9
  {
    env := PlainEnv();
    s := FirstParked(env);
    jobs := [PlainJob(1), PlainJob(2), PlainJob(3), PlainJob(4)];
    RejectsAndRaises(s, jobs, env.headroom);
  }

  lemma FirstParked(env: Env) returns (s: State)
    requires env == PlainEnv()
    ensures Reachable(env, s) && |s.models| == 1 && s.models[0].permits == 2
    ensures s.entries == map[1 := 0] && s.subs == {Sub(1, 1, 0)} && |s.recs| == 1 && s.recs[0].deadline == 1
  {
    var s0 := Start(env);
    AdmitsOne(env, s0, 1, PlainJob(1), 1);
    StepReaches(env, s0, Admit(1, [PlainJob(1)], 1));
    s := Register(s0, 1, 1, PlainJob(1));
  }

  lemma RejectsAndRaises(s: State, jobs: seq<Job>, headroom: real)
    requires jobs == [PlainJob(1), PlainJob(2), PlainJob(3), PlainJob(4)]
    requires s.entries == map[1 := 0] && s.subs == {Sub(1, 1, 0)} && |s.recs| == 1 && s.recs[0].deadline == 1
    requires |s.models| == 1 && s.models[0].permits == 2
    ensures var (s', ok) := AdmitSection(s, 2, jobs, 9, headroom);
            !ok && |s'.recs| == 1 && s'.recs[0].deadline == 9
  {
    assert Sub(1, 1, 0) in s.subs && Joinable(s, 1);
    ThreeAreNovel(s, jobs);
    var novel, left := Fresh(s, jobs), Max(0, 9 - s.now);
    assert !Admits(s.models[0], CountFor(novel, 0), TokensFor(novel, 0), left, headroom);
    FirstIsRaised(s, jobs);
  }

  lemma FirstIsRaised(s: State, jobs: seq<Job>)
    requires s.entries == map[1 := 0] && Joinable(s, 1) && |s.recs| == 1 && s.recs[0].deadline == 1 && PlainJob(1) in jobs
    ensures RaiseDeadlines(s, Joined(s, jobs), 9).recs[0].deadline == 9
  {
    assert PlainJob(1).key in Joined(s, jobs);
  }

  lemma ThreeAreNovel(s: State, jobs: seq<Job>)
    requires jobs == [PlainJob(1), PlainJob(2), PlainJob(3), PlainJob(4)] && s.entries == map[1 := 0] && Joinable(s, 1)
    ensures Fresh(s, jobs) == jobs[1..] && CountFor(Fresh(s, jobs), 0) == 3
  {
    var a, b, c := jobs[..1], jobs[..2], jobs[..3];
    assert a[..0] == [] && b[..1] == a && c[..2] == b && jobs[..3] == c;
    assert Fresh(s, a) == [];
    assert Fresh(s, b) == jobs[1..2];
    assert Fresh(s, c) == jobs[1..3];
    var n := jobs[1..];
    assert n[..2][..1] == n[..1] && n[..1][..0] == [];
    assert CountFor(n[..1], 0) == 1 && CountFor(n[..2], 0) == 2;
  }

  /** The first item timed out in the buffer, was dropped by the scan, and its entry is gone. */
  lemma DeadUnlisted(env: Env) returns (s: State)
    requires env == PlainEnv()
    ensures Reachable(env, s) && |s.recs| == 1 && s.recs[0] == Rec(PlainJob(1), EntryGone, Pending, 0)
    ensures s.entries == map[] && s.subs == {Sub(1, 1, 0)} && Ready(s)
  {
    var s4 := ScannedDead(env);
    StepReaches(env, s4, DropTokens(0));
    var s5 := Apply(env, s4, DropTokens(0));
    StepReaches(env, s5, DropEntry(0));
    s := Apply(env, s5, DropEntry(0));
    assert s.entries == map[];
  }

  lemma ScannedDead(env: Env) returns (s: State)
    requires env == PlainEnv()
    ensures Reachable(env, s) && s.recs == [Rec(PlainJob(1), Doomed, Pending, 0)]
    ensures s.entries == map[1 := 0] && s.subs == {Sub(1, 1, 0)} && Ready(s)
  {
    var s0 := Start(env);
    CollectsOne(env, s0, 1, PlainJob(1), 0);
    s := ScansDead(env, Collected(s0, 1, PlainJob(1), 0));
  }

  lemma ScansDead(env: Env, s: State) returns (s': State)
    requires Reachable(env, s) && |s.models| == 1 && |s.recs| == 1 && s.recs[0].deadline <= s.now
    requires s.models[0].phase.Collecting? && s.models[0].queue == [] && s.models[0].buf == [0]
    ensures Reachable(env, s')
    ensures s' == s.(recs := [s.recs[0].(stage := Doomed)],
                     models := [s.models[0].(buf := [], phase := AwaitIdle, idle := s.models[0].idle + 1)])
  {
    var s1 := StartsScan(env, s);
    var s2 := DropsDead(env, s1);
    s' := Releases(env, s2);
  }

  lemma StartsScan(env: Env, s: State) returns (s': State)
    requires Reachable(env, s) && |s.models| == 1 && s.models[0].phase.Collecting?
    requires s.models[0].queue == [] && s.models[0].buf != []
    ensures Reachable(env, s') && s' == s.(models := [s.models[0].(phase := Scanning(0, s.now))])
  {
    StepReaches(env, s, StartScan(0));
    s' := Apply(env, s, StartScan(0));
  }

  lemma DropsDead(env: Env, s: State) returns (s': State)
    requires Reachable(env, s) && |s.models| == 1 && |s.recs| == 1 && s.recs[0].deadline <= s.now
    requires s.models[0].phase == Scanning(0, s.now) && s.models[0].buf == [0]
    ensures Reachable(env, s')
    ensures s' == s.(recs := [s.recs[0].(stage := Doomed)], models := [s.models[0].(buf := [])])
  {
    StepReaches(env, s, ScanDrop(0));
    DropsAlone(env, s, 0, 0);
    s' := Apply(env, s, ScanDrop(0));
  }

  lemma Releases(env: Env, s: State) returns (s': State)
    requires Reachable(env, s) && |s.models| == 1 && s.models[0].phase.Scanning? && s.models[0].buf == []
    ensures Reachable(env, s') && s' == s.(models := [s.models[0].(phase := AwaitIdle, idle := s.models[0].idle + 1)])
  {
    StepReaches(env, s, ReleaseIdle(0));
    s' := Apply(env, s, ReleaseIdle(0));
  }

  lemma DropsAlone(env: Env, s: State, m: nat, g: nat)
    requires Enabled(env, s, ScanDrop(m)) && s.models[m].buf == [g] && g < |s.recs|
    ensures Apply(env, s, ScanDrop(m))
         == s.(recs := s.recs[g := s.recs[g].(stage := Doomed)], models := s.models[m := s.models[m].(buf := [])])
  {
    assert Mark(s.recs, [g], Doomed) == s.recs[g := s.recs[g].(stage := Doomed)];
    assert [g][..0] + [g][1..] == [];
  }
}
