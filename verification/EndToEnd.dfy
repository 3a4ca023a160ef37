/**
 * One request from its questions to its replies, over a run of the scheduler that other clients share: what each
 * layer takes as given is what the layer below it guarantees.
 */
module EndToEnd {
  import opened Types
  import opened SchedulerModel
  import opened SchedulerInvariant
  import opened SchedulerSteps
  import opened SchedulerTheorems
  import RunJobs
  import Cache
  import Decide
  import Padding
  import Questions

  // ---------- The scheduler's environment at a site ----------

  /** What model `m`'s network answers to a question by itself. */
  function NetAnswer(site: Decide.Site, m: nat, e: Encoded): Raw {
    if m < |site.models| then Padding.AnswerFor(site.models[m].net, e) else Raw([], 0.0, 0)
  }

  /** `k` is the key of a question that encodes as `e` and is routed to model `m`. */
  ghost predicate Asked(site: Decide.Site, m: nat, k: Key, e: Encoded) {
    exists seg, p :: Decide.EncodesAs(site, m, seg, p, k, e)
  }

  ghost function EncodedOf(site: Decide.Site, k: Key): Encoded {
    if exists m: nat, e :: Asked(site, m, k, e) then
      var m: nat, e :| Asked(site, m, k, e);
      e
    else Encoded([], [], 0)
  }

  ghost function AnswerOf(site: Decide.Site, k: Key): Raw {
    if exists m: nat, e :: Asked(site, m, k, e) then
      var m: nat, e :| Asked(site, m, k, e);
      NetAnswer(site, m, e)
    else Raw([], 0.0, 0)
  }

  /** The questions behind the keys, and the models' networks. */
  ghost function EnvOf(site: Decide.Site, headroom: real): Env {
    Env((k: Key) => EncodedOf(site, k), (m: nat, e) => NetAnswer(site, m, e), (k: Key) => AnswerOf(site, k), headroom)
  }

  /** Whatever model and request a key comes from, its tokens and its answer are the same. */
  lemma KeysDetermineAnswers(site: Decide.Site, k: Key, m: nat, e: Encoded, m': nat, e': Encoded)
    requires Decide.SiteOk(site) && Asked(site, m, k, e) && Asked(site, m', k, e')
    ensures e == e' && NetAnswer(site, m, e) == NetAnswer(site, m', e')
  {
    var seg, p :| Decide.EncodesAs(site, m, seg, p, k, e);
    var seg', p' :| Decide.EncodesAs(site, m', seg', p', k, e');
    Decide.SameKeySameQuestion(site, m, m', seg, seg', p, p');
    Decide.SameKeySameEncoding(site, m, m', seg, seg', p, p');
  }

  lemma EnvIsRight(site: Decide.Site, headroom: real, m: nat, k: Key, e: Encoded)
    requires Decide.SiteOk(site) && Asked(site, m, k, e)
    ensures var env := EnvOf(site, headroom);
            env.encOf(k) == e && env.answer(k) == NetAnswer(site, m, e) == env.infer(m, e)
  {
    forall m': nat, e' | Asked(site, m', k, e') ensures e' == e && NetAnswer(site, m', e') == NetAnswer(site, m, e) {
      KeysDetermineAnswers(site, k, m, e, m', e');
    }
  }

  /** A client without open handles may admit the jobs built for a request, and any part of them again. */
  lemma JobsMayBeAdmitted(site: Decide.Site, headroom: real, items: seq<Decide.Item>, qs: seq<Decide.Q>, known: set<Key>,
                          built: seq<Job>, jobs: seq<Job>, s: State, c: nat)
    requires Decide.SiteOk(site) && Decide.JobsOk(site, items, qs, known, built) && UniqueKeys(jobs)
    requires (forall j :: j in jobs ==> j in built) && |s.models| == |site.models| && forall u :: u in s.subs ==> u.client != c
    ensures AdmitCall(EnvOf(site, headroom), s, c, jobs)
  {
    forall j | j in jobs ensures j.model < |s.models| && JobOk(EnvOf(site, headroom), j) {
      assert Decide.JobFor(site, items, qs, known, j);
      Decide.JobEncodes(site, items, qs, known, j);
      var seg, p :| Decide.EncodesAs(site, j.model, seg, p, j.key, j.enc);
      assert Asked(site, j.model, j.key, j.enc);
      EnvIsRight(site, headroom, j.model, j.key, j.enc);
    }
  }

  function Encodings(recs: seq<Rec>, batch: seq<nat>): (r: seq<Encoded>)
    requires forall i :: 0 <= i < |batch| ==> batch[i] < |recs|
    ensures |r| == |batch|
  {
    seq(|batch|, i requires 0 <= i < |batch| => recs[batch[i]].job.enc)
  }

  /**
   * A worker's run of a batch: with a network that answers row by row, what comes back is accepted, and is what the
   * scheduler's steps expect of a run, position by position.
   */
  method RunItems(site: Decide.Site, ghost headroom: real, recs: seq<Rec>, m: nat, batch: seq<nat>, padId: nat, out: Padding.Output)
    returns (reply: BackendReply)
    requires m < |site.models| && forall i :: 0 <= i < |batch| ==> batch[i] < |recs|
    requires Padding.AnswersRowwise(site.models[m].net, Padding.Batch(padId, Encodings(recs, batch)), out)
    ensures Judge(reply, |batch|).Outputs? && Computed(EnvOf(site, headroom), recs, m, batch, reply.raws)
  {
    var items := Padding.Batch(padId, Encodings(recs, batch));
    var raws := Padding.RunBatch(site.models[m].net, items, out);
    reply := Returned(raws);
    assert forall i :: 0 <= i < |batch| ==> items.items[i] == recs[batch[i]].job.enc;
  }

  // ---------- Handles of an admission ----------

  lemma {:induction false} RegisteredHandles(s: State, c: nat, deadline: nat, jobs: seq<Job>, u: Sub)
    requires UniqueKeys(jobs) && (forall j :: j in jobs ==> j.model < |s.models|)
    requires u in RegisterAll(s, c, deadline, jobs).subs && u !in s.subs
    ensures var s' := RegisterAll(s, c, deadline, jobs);
            (exists j :: j in jobs && j.key == u.key) && u.key in s'.entries && s'.entries[u.key] == u.gen
  {
    var init, last := jobs[..|jobs| - 1], jobs[|jobs| - 1];
    assert jobs == init + [last];
    assert forall j :: j in init ==> j in jobs;
    var s1 := RegisterAll(s, c, deadline, init);
    RegisteredSubs(s, c, deadline, init, last.key);
    assert last in jobs && last.model < |s1.models|;
    if u in s1.subs {
      RegisteredHandles(s, c, deadline, init, u);
      var j :| j in init && j.key == u.key;
      assert j in jobs;
      OtherKey(jobs, j);
    }
  }

  lemma OtherKey(jobs: seq<Job>, j: Job)
    requires UniqueKeys(jobs) && jobs != [] && j in jobs[..|jobs| - 1]
    ensures j.key != jobs[|jobs| - 1].key
  {
    var n :| 0 <= n < |jobs| - 1 && jobs[..|jobs| - 1][n] == j;
    assert jobs[n] == j;
  }

  /** After its admission a client's handles are for its jobs' keys, each on the entry then listed. */
  lemma AdmittedHandles(env: Env, s: State, c: nat, jobs: seq<Job>, deadline: nat, u: Sub)
    requires Inv(env, s) && AdmitCall(env, s, c, jobs) && AdmitSection(s, c, jobs, deadline, env.headroom).1
    requires u in AdmitSection(s, c, jobs, deadline, env.headroom).0.subs && u.client == c
    ensures var s' := AdmitSection(s, c, jobs, deadline, env.headroom).0;
            (exists j :: j in jobs && j.key == u.key) && u.key in s'.entries && s'.entries[u.key] == u.gen
  {
    var joined, novel := Joined(s, jobs), Fresh(s, jobs);
    var s1 := RaiseDeadlines(s, joined, deadline).(subs := s.subs + JoinSubs(s, c, joined));
    FreshIsNovel(s, jobs);
    if u in s1.subs {
      assert u in JoinSubs(s, c, joined) && u.key in joined;
      var j :| j in jobs && Joinable(s, j.key) && j.key == u.key;
      RegisteredSubs(s1, c, deadline, novel, u.key);
    } else {
      RegisteredHandles(s1, c, deadline, novel, u);
      var j :| j in novel && j.key == u.key;
      assert j in jobs;
    }
  }

  // ---------- A request's turns in a run ----------

  /**
   * One turn of `run_jobs` as it happens in a run: from step `begin` on, and for each awaited handle the step that
   * received its outcome and the generation it was for.
   */
  datatype Turn = Turn(todo: map<Key, Job>, round: RunJobs.Round, begin: nat, heard: seq<(nat, nat)>)

  /** The jobs still owed, in any order. */
  ghost predicate Lists(jobs: seq<Job>, todo: map<Key, Job>) {
    && UniqueKeys(jobs)
    && (forall j :: j in jobs ==> j.key in todo && todo[j.key] == j)
    && (forall k :: k in todo ==> todo[k] in jobs && todo[k].key == k)
  }

  /** Client `c` admits what it owes at step `i`, with its deadline; `ok` is the verdict. */
  ghost predicate Admits(env: Env, states: seq<State>, steps: seq<Step>, c: nat, deadline: nat, todo: map<Key, Job>, i: nat,
                         ok: bool) {
    && i < |steps| && i < |states| && steps[i].Admit? && steps[i].c == c && SchedulerModel.UniqueKeys(steps[i].jobs)
    && steps[i].deadline == deadline
    && Lists(steps[i].jobs, todo)
    && AdmitSection(states[i], c, steps[i].jobs, steps[i].deadline, env.headroom).1 == ok
  }

  /** The n-th outcome was received at step `at.0`, on the handle for generation `at.1` got in this turn. */
  ghost predicate Heard(states: seq<State>, steps: seq<Step>, c: nat, t: Turn, result: (Key, Channel), at: (nat, nat)) {
    && t.begin < at.0 < |steps| && |states| == |steps| + 1
    && Sub(c, result.0, at.1) in states[t.begin + 1].subs
    && steps[at.0] == Receive(Sub(c, result.0, at.1))
    && at.1 < |states[at.0].recs| && result.1 == states[at.0].recs[at.1].chan
  }

  /** Joining all handles: each is heard once, and none is left. */
  ghost predicate AllHeard(states: seq<State>, steps: seq<Step>, c: nat, t: Turn) {
    && t.round.Answers? && |t.heard| == |t.round.results|
    && (forall n :: 0 <= n < |t.heard| ==> Heard(states, steps, c, t, t.round.results[n], t.heard[n]))
    && (forall n, n' :: 0 <= n < n' < |t.heard| ==> t.round.results[n].0 != t.round.results[n'].0)
    && (forall k :: k in t.todo ==> exists n :: 0 <= n < |t.heard| && t.round.results[n].0 == k)
  }

  /** The deadline passes at step `from` or later. */
  predicate Passed(states: seq<State>, deadline: nat, from: nat) {
    exists i :: from <= i < |states| && states[i].now >= deadline
  }

  ghost predicate Seen(env: Env, states: seq<State>, steps: seq<Step>, c: nat, deadline: nat, t: Turn) {
    match t.round
    case Expired => t.begin < |states| && states[t.begin].now >= deadline
    case Refused => Admits(env, states, steps, c, deadline, t.todo, t.begin, false)
    case TimedOut => Admits(env, states, steps, c, deadline, t.todo, t.begin, true) && Passed(states, deadline, t.begin)
    case Answers(_) => Admits(env, states, steps, c, deadline, t.todo, t.begin, true) && AllHeard(states, steps, c, t)
  }

  ghost predicate RequestSeen(env: Env, states: seq<State>, steps: seq<Step>, c: nat, deadline: nat, turns: seq<Turn>) {
    forall i :: 0 <= i < |turns| ==> Seen(env, states, steps, c, deadline, turns[i])
  }

  /** What the request meets, turn by turn. Nothing else is ever asked for: see `LastOfTurns`. */
  ghost predicate Meets(world: RunJobs.World, turns: seq<Turn>) {
    forall i: nat, todo ::
      world(i, todo) == if i < |turns| && turns[i].todo == todo then turns[i].round else RunJobs.Expired
  }

  /** From the r-th on, each turn is for what is owed by then, all but the last go on, and the last does not. */
  ghost predicate Plays(turns: seq<Turn>, todo: map<Key, Job>, done: map<Key, Raw>, r: nat)
    decreases |turns| - r
  {
    && r < |turns| && turns[r].todo == todo
    && if RunJobs.GoesOn(turns[r].round, r) then
         var p := RunJobs.Absorb(RunJobs.Progress(todo, done, false, None), turns[r].round.results);
         Plays(turns, p.todo, p.done, r + 1)
       else |turns| == r + 1
  }

  /** The turns are all there are for this request: none if nothing is owed. */
  ghost predicate AllTurns(site: Decide.Site, items: seq<Decide.Item>, look: Decide.Look, gate: Decide.Gate, turns: seq<Turn>)
    requires Decide.ItemsOk(site, items)
  {
    Decide.MayCompute(site, items, look, gate) ==>
      forall todo :: Decide.Owed(site, items, look, todo) ==> if todo == map[] then turns == [] else Plays(turns, todo, map[], 0)
  }

  /** The last turn a request reaches is the last of its turns. */
  lemma {:induction false} LastOfTurns(world: RunJobs.World, turns: seq<Turn>, todo: map<Key, Job>, done: map<Key, Raw>, r: nat)
    requires Meets(world, turns) && Plays(turns, todo, done, r) && r <= RunJobs.MAX_READMITS
    ensures |turns| > 0
    ensures var last := turns[|turns| - 1];
            RunJobs.LastTurn(world, todo, done, r) == (|turns| - 1, last.todo) && world(|turns| - 1, last.todo) == last.round
    decreases |turns| - r
  {
    var round := turns[r].round;
    assert world(r, todo) == round;
    if RunJobs.GoesOn(round, r) {
      var p := RunJobs.Absorb(RunJobs.Progress(todo, done, false, None), round.results);
      LastOfTurns(world, turns, p.todo, p.done, r + 1);
    }
  }

  // ---------- How a request ends in a run ----------

  /** Nothing is left to do after these turns. */
  ghost predicate EndsAnswered(turns: seq<Turn>) {
    turns == [] || (turns[|turns| - 1].round.Answers? && RunJobs.AllDone(turns[|turns| - 1].round.results))
  }

  /** The last of these turns ends the request with this refusal. */
  ghost predicate EndsRefused(turns: seq<Turn>, e: Decide.Refusal) {
    && turns != []
    && exists se :: RunJobs.EndsWith(turns[|turns| - 1].round, |turns| - 1, se) && e == Decide.Refused(se)
  }

  /** The run shows the reason for a refusal: a rejected admission, the deadline gone by, or an item that failed or died. */
  ghost predicate Shows(env: Env, states: seq<State>, steps: seq<Step>, c: nat, deadline: nat, t: Turn, e: Decide.Refusal) {
    match e
    case Overloaded => Admits(env, states, steps, c, deadline, t.todo, t.begin, false)
    case Deadline => Passed(states, deadline, t.begin)
    case Internal(msg) => exists n: nat :: Blames(states, t, n, msg)
    case Invalid(_) => false
  }

  /** The turns of a request that gets to compute decide its outcome. */
  lemma TurnsDecide(site: Decide.Site, items: seq<Decide.Item>, look: Decide.Look, gate: Decide.Gate, world: RunJobs.World,
                    turns: seq<Turn>)
    requires Decide.ItemsOk(site, items) && Decide.MayCompute(site, items, look, gate)
    requires AllTurns(site, items, look, gate, turns) && Meets(world, turns)
    ensures Decide.Succeeds(site, items, look, gate, world) <==> EndsAnswered(turns)
    ensures forall e :: Decide.ComputingFails(site, items, look, gate, world, e) ==> EndsRefused(turns, e)
  {
    var qs := Decide.QsOf(site, items, |items|);
    Decide.OwedExists(site, items, qs, Decide.HitKeys(qs, look), gate);
    var todo :| Decide.Owes(site, items, qs, Decide.HitKeys(qs, look), todo);
    assert Decide.Owed(site, items, look, todo);
    forall t | Decide.Owed(site, items, look, t) ensures t == todo {
      Decide.OwedIsOne(site, items, qs, Decide.HitKeys(qs, look), t, todo);
    }
    if todo != map[] {
      LastOfTurns(world, turns, todo, map[], 0);
    }
  }

  lemma RefusalShows(env: Env, states: seq<State>, steps: seq<Step>, c: nat, deadline: nat, turns: seq<Turn>, e: Decide.Refusal)
    requires Run(env, states, steps) && Reachable(env, states[0])
    requires RequestSeen(env, states, steps, c, deadline, turns) && EndsRefused(turns, e)
    ensures Shows(env, states, steps, c, deadline, turns[|turns| - 1], e)
  {
    var t := turns[|turns| - 1];
    assert Seen(env, states, steps, c, deadline, t);
    var se :| RunJobs.EndsWith(t.round, |turns| - 1, se) && e == Decide.Refused(se);
    if se.Backend? {
      ErrorShows(env, states, steps, c, deadline, t, |turns| - 1, se.msg);
    }
  }

  lemma ErrorShows(env: Env, states: seq<State>, steps: seq<Step>, c: nat, deadline: nat, t: Turn, r: nat, msg: string)
    requires Run(env, states, steps) && Reachable(env, states[0])
    requires Admits(env, states, steps, c, deadline, t.todo, t.begin, true) && AllHeard(states, steps, c, t)
    requires RunJobs.EndsWith(t.round, r, RunJobs.Backend(msg))
    ensures exists n: nat :: Blames(states, t, n, msg)
  {
    var n := Culprit(t.round, r, msg);
    HeardIsRight(env, states, steps, c, deadline, t, n);
    BlameIsHeard(states, steps, c, t, n, msg);
  }

  lemma BlameIsHeard(states: seq<State>, steps: seq<Step>, c: nat, t: Turn, n: nat, msg: string)
    requires AllHeard(states, steps, c, t) && n < |t.heard| && !t.round.results[n].1.Pending?
    requires t.round.results[n].1 == Sent(Failed(msg)) || (msg == RunJobs.DROPPED && !t.round.results[n].1.Sent?)
    ensures exists n: nat :: Blames(states, t, n, msg)
  {
    assert Heard(states, steps, c, t, t.round.results[n], t.heard[n]);
    assert Blames(states, t, n, msg);
  }

  /** The n-th handle heard was of an item that failed with this message, or died. */
  ghost predicate Blames(states: seq<State>, t: Turn, n: nat, msg: string) {
    && n < |t.heard| && t.heard[n].0 < |states| && t.heard[n].1 < |states[t.heard[n].0].recs|
    && var chan := states[t.heard[n].0].recs[t.heard[n].1].chan;
       chan == Sent(Failed(msg)) || (msg == RunJobs.DROPPED && chan.Closed?)
  }

  /** The outcome to blame for a backend error. */
  lemma Culprit(round: RunJobs.Round, r: nat, msg: string) returns (n: nat)
    requires RunJobs.EndsWith(round, r, RunJobs.Backend(msg))
    ensures n < |round.results|
    ensures round.results[n].1 == Sent(Failed(msg)) || (msg == RunJobs.DROPPED && !round.results[n].1.Sent?)
  {
    if RunJobs.FailsFirst(round.results, msg) {
      n :| 0 <= n < |round.results| && round.results[n].1 == Sent(Failed(msg)) && RunJobs.NoFailure(round.results[..n]);
    } else {
      n :| 0 <= n < |round.results| && !round.results[n].1.Sent?;
    }
  }

  function RightAnswer(env: Env): (Key, Raw) -> bool {
    (k: Key, raw) => raw == Answer(env, k)
  }

  lemma {:induction false} RunReaches(env: Env, states: seq<State>, steps: seq<Step>, i: nat)
    requires Run(env, states, steps) && Reachable(env, states[0]) && i < |states|
    ensures Reachable(env, states[i])
  {
    var limits, before, steps0 :| ReachedBy(env, states[0], limits, before, steps0);
    var all, steps' := before + states[1..i + 1], steps0 + steps[..i];
    assert Run(env, all, steps') by {
      forall n | 0 <= n < |steps'| ensures Enabled(env, all[n], steps'[n]) && all[n + 1] == Apply(env, all[n], steps'[n]) {
        if n < |steps0| {
          assert all[n] == before[n] && all[n + 1] == before[n + 1];
        } else {
          var d := n - |steps0|;
          assert all[n] == states[d] && all[n + 1] == states[d + 1] && steps'[n] == steps[d];
        }
      }
    }
    assert all[|steps'|] == states[i];
    assert ReachedBy(env, states[i], limits, all, steps');
  }

  /** What is heard is resolved, is for a key that was owed, and if a value, the right one. */
  lemma HeardIsRight(env: Env, states: seq<State>, steps: seq<Step>, c: nat, deadline: nat, t: Turn, n: nat)
    requires Run(env, states, steps) && Reachable(env, states[0])
    requires Admits(env, states, steps, c, deadline, t.todo, t.begin, true) && AllHeard(states, steps, c, t) && n < |t.heard|
    ensures var (k, chan) := t.round.results[n];
            k in t.todo && !chan.Pending? && (chan.Sent? && chan.outcome.Done? ==> chan.outcome.raw == Answer(env, k))
  {
    var (k, chan) := t.round.results[n];
    var (j, g) := t.heard[n];
    assert Heard(states, steps, c, t, t.round.results[n], t.heard[n]);
    RunReaches(env, states, steps, t.begin);
    ReachableInv(env, states[t.begin]);
    assert Enabled(env, states[t.begin], steps[t.begin]);
    AdmittedHandles(env, states[t.begin], c, steps[t.begin].jobs, steps[t.begin].deadline, Sub(c, k, g));
    assert Enabled(env, states[j], steps[j]) && states[j + 1] == Apply(env, states[j], steps[j]);
    RunReaches(env, states, steps, j + 1);
    var d := Delivery(c, k, g, chan);
    assert d in states[j + 1].delivered;
    if chan.Sent? && chan.outcome.Done? {
      DeliveredAnswersAreRight(env, states[j + 1], d);
    }
  }

  /** A request that meets what happens in a run of the scheduler meets a good world. */
  lemma WorldOfRun(env: Env, states: seq<State>, steps: seq<Step>, c: nat, deadline: nat, turns: seq<Turn>, world: RunJobs.World)
    requires Run(env, states, steps) && Reachable(env, states[0])
    requires RequestSeen(env, states, steps, c, deadline, turns) && Meets(world, turns)
    ensures RunJobs.WorldOk(world) && RunJobs.WorldIsGood(world, RightAnswer(env))
  {
    forall i: nat, todo | world(i, todo).Answers?
      ensures RunJobs.Resolves(todo, world(i, todo).results) && RunJobs.ResultsAreGood(world(i, todo).results, RightAnswer(env))
    {
      var t := turns[i];
      assert Seen(env, states, steps, c, deadline, t) && t.todo == todo && t.round == world(i, todo);
      forall n | 0 <= n < |t.heard|
        ensures var (k, chan) := t.round.results[n];
                k in t.todo && !chan.Pending? && (chan.Sent? && chan.outcome.Done? ==> chan.outcome.raw == Answer(env, k))
      {
        HeardIsRight(env, states, steps, c, deadline, t, n);
      }
    }
  }

  // ---------- Readmission ----------

  lemma StepKeepsClosed(env: Env, s: State, step: Step, g: nat)
    requires Inv(env, s) && Enabled(env, s, step) && g < |s.recs| && s.recs[g].chan.Closed?
    ensures var s' := Apply(env, s, step); g < |s'.recs| && s'.recs[g].chan.Closed?
  {
    assert RecOk(env, s, s.recs[g]);
    if step.Admit? {
      var joined := Joined(s, step.jobs);
      var raised := RaiseDeadlines(s, joined, step.deadline);
      RegisterKeepsRaws(env, raised.(subs := s.subs + JoinSubs(s, step.c, joined)), step.c, step.deadline, Fresh(s, step.jobs));
    } else {
      OthersKeepClosed(env, s, step, g);
    }
  }

  lemma OthersKeepClosed(env: Env, s: State, step: Step, g: nat)
    requires Enabled(env, s, step) && !step.Admit? && g < |s.recs| && s.recs[g].chan.Closed? && !BeforeSend(s.recs[g].stage)
    ensures var s' := Apply(env, s, step); g < |s'.recs| && s'.recs[g].chan.Closed?
  {
    if step.Enqueue? || DeliveryStep(step) || Drops(step) {
      ItemsKeepClosed(env, s, step, g);
    } else {
      RestKeepsClosed(env, s, step, g);
    }
  }

  lemma ItemsKeepClosed(env: Env, s: State, step: Step, g: nat)
    requires Enabled(env, s, step) && (step.Enqueue? || DeliveryStep(step) || Drops(step))
    requires g < |s.recs| && s.recs[g].chan.Closed? && !BeforeSend(s.recs[g].stage)
    ensures var s' := Apply(env, s, step); g < |s'.recs| && s'.recs[g].chan.Closed?
  {
  }

  lemma RestKeepsClosed(env: Env, s: State, step: Step, g: nat)
    requires Enabled(env, s, step) && !step.Admit? && !step.Enqueue? && !DeliveryStep(step) && !Drops(step)
    requires g < |s.recs| && s.recs[g].chan.Closed?
    ensures var s' := Apply(env, s, step); g < |s'.recs| && s'.recs[g].chan.Closed?
  {
  }

  lemma {:induction false} StaysClosed(env: Env, states: seq<State>, steps: seq<Step>, i: nat, j: nat, g: nat)
    requires Run(env, states, steps) && Reachable(env, states[0]) && i <= j < |states|
    requires g < |states[i].recs| && states[i].recs[g].chan.Closed?
    ensures g < |states[j].recs| && states[j].recs[g].chan.Closed?
    decreases j
  {
    if i < j {
      StaysClosed(env, states, steps, i, j - 1, g);
      RunReaches(env, states, steps, j - 1);
      ReachableInv(env, states[j - 1]);
      StepKeepsClosed(env, states[j - 1], steps[j - 1], g);
    }
  }

  /** A key whose item died unanswered is admitted again on an item of another generation. */
  lemma NextHandleIsNew(env: Env, states: seq<State>, steps: seq<Step>, c: nat, deadline: nat, t: Turn, n: nat, next: Turn, g': nat)
    requires Run(env, states, steps) && Reachable(env, states[0])
    requires Admits(env, states, steps, c, deadline, t.todo, t.begin, true) && AllHeard(states, steps, c, t) && n < |t.heard|
    requires t.round.results[n].1.Closed? && t.heard[n].0 < next.begin
    requires Admits(env, states, steps, c, deadline, next.todo, next.begin, true)
    requires Sub(c, t.round.results[n].0, g') in states[next.begin + 1].subs
    ensures g' != t.heard[n].1
  {
    var (k, chan) := t.round.results[n];
    var (j, g) := t.heard[n];
    var b := next.begin;
    assert Heard(states, steps, c, t, t.round.results[n], t.heard[n]);
    StaysClosed(env, states, steps, j, b, g);
    RunReaches(env, states, steps, b);
    ReachableInv(env, states[b]);
    DeadItemIsUnlisted(env, states[b], g);
    var jobs := steps[b].jobs;
    assert Enabled(env, states[b], steps[b]) && states[b + 1] == Apply(env, states[b], steps[b]);
    AdmittedHandles(env, states[b], c, jobs, deadline, Sub(c, k, g'));
    var job :| job in jobs && job.key == k;
    AdmittedSubscribesAll(env, states[b], c, jobs, deadline, job);
  }

  // ---------- Cache lookups over the run ----------

  /** Each lookup finds the first tier as it is at some moment of the run, and a second tier that holds right answers. */
  ghost predicate LooksInto(env: Env, states: seq<State>, look: Decide.Look) {
    && (forall n: nat, q :: exists i :: 0 <= i < |states| && look(n, q).0 == states[i].l1)
    && (forall n: nat, q :: look(n, q).1.Some? ==> look(n, q).1.value == Answer(env, q.key))
  }

  lemma LooksAreRight(env: Env, states: seq<State>, steps: seq<Step>, look: Decide.Look)
    requires Run(env, states, steps) && Reachable(env, states[0]) && LooksInto(env, states, look)
    ensures Decide.LooksAreGood(look, RightAnswer(env))
  {
    forall n: nat, q ensures Cache.AllGood(look(n, q).0, RightAnswer(env)) {
      var i :| 0 <= i < |states| && look(n, q).0 == states[i].l1;
      RunReaches(env, states, steps, i);
      ReachableInv(env, states[i]);
    }
  }

  // ---------- The request ----------

  /**
   * The reply to a question is what its model's network answers to that question's own tokens: those laid out over
   * the tokens of the whole state, and, whatever the tokenizer is like, those its job was made with.
   */
  ghost predicate RightReply(site: Decide.Site, it: Decide.Item, n: nat, reply: Decide.Reply)
    requires it.model < |site.models| && n < |it.questions|
  {
    var (qid, p) := it.questions[n];
    && reply.qid == qid && |reply.raw.logits| == |p.options|
    && (forall full: seq<nat>, e :: WholeEncoding(site, it.model, it.seg, p, full, e) ==>
          Padding.IsAnswer(site.models[it.model].net, e, reply.raw))
    && (forall e :: Decide.EncodingFor(site, it.model, it.seg, p) == Ok(e) ==>
          Padding.IsAnswer(site.models[it.model].net, e, reply.raw))
  }

  ghost predicate WholeEncoding(site: Decide.Site, m: nat, seg: string, p: Questions.Prepared, full: seq<nat>, e: Encoded) {
    && Decide.WholeTokens(site, m, seg, full)
    && Questions.IsEncoding(site.models[m].meta, site.models[m].tok, full, p, e)
  }

  lemma GoodIsSized(site: Decide.Site, headroom: real)
    requires Decide.SiteOk(site)
    ensures Decide.GoodIsSized(site, RightAnswer(EnvOf(site, headroom)))
  {
    var env := EnvOf(site, headroom);
    forall k: Key, raw, e | RightAnswer(env)(k, raw) && Decide.Encodes(site, k, e) ensures |raw.logits| == |e.markers| {
      var m: nat, seg, p :| Decide.EncodesAs(site, m, seg, p, k, e);
      assert Asked(site, m, k, e);
      EnvIsRight(site, headroom, m, k, e);
    }
  }

  /**
   * Over any run of the scheduler, with any other clients, evictions, panics and retirements in it: if client `c`
   * meets in it the turns of this request, and its lookups find the run's first tier at any moments, then a request
   * that succeeds answers every question of every item, in order, with exactly what the model's network answers to
   * that question's tokens. It succeeds exactly when nothing stands in the way of what was not hit and the last turn
   * brings all that is left; a failure is the first refused question's, or how the last turn ends in the run.
   */
  method Serve(site: Decide.Site, items: seq<Decide.Item>, look: Decide.Look, gate: Decide.Gate, world: RunJobs.World,
               ghost headroom: real, ghost states: seq<State>, ghost steps: seq<Step>, ghost c: nat, ghost deadline: nat,
               ghost turns: seq<Turn>)
    returns (r: Result<seq<seq<Decide.Reply>>, Decide.Refusal>)
    requires Decide.SiteOk(site) && Decide.ItemsOk(site, items)
    requires var env := EnvOf(site, headroom);
             && Run(env, states, steps) && Reachable(env, states[0])
             && RequestSeen(env, states, steps, c, deadline, turns) && Meets(world, turns) && LooksInto(env, states, look)
    requires AllTurns(site, items, look, gate, turns)
    ensures r.Ok? ==> |r.value| == |items| && forall i :: 0 <= i < |items| ==>
              |r.value[i]| == |items[i].questions|
              && forall n :: 0 <= n < |items[i].questions| ==> RightReply(site, items[i], n, r.value[i][n])
    ensures r.Ok? ==> forall i :: 0 <= i < |items| ==> Decide.MarkedAsHit(site, items, look, i, r.value[i])
    ensures r.Ok? <==> Decide.MayCompute(site, items, look, gate) && EndsAnswered(turns)
    ensures r.Err? ==>
              || Decide.CannotCompute(site, items, look, gate, r.error)
              || (&& Decide.MayCompute(site, items, look, gate) && EndsRefused(turns, r.error)
                  && Shows(EnvOf(site, headroom), states, steps, c, deadline, turns[|turns| - 1], r.error))
  {
    ghost var env := EnvOf(site, headroom);
    WorldOfRun(env, states, steps, c, deadline, turns, world);
    LooksAreRight(env, states, steps, look);
    GoodIsSized(site, headroom);
    r := Decide.DecideItems(site, items, look, gate, world, RightAnswer(env));
    if Decide.MayCompute(site, items, look, gate) {
      TurnsDecide(site, items, look, gate, world, turns);
    }
    if r.Err? && EndsRefused(turns, r.error) {
      RefusalShows(env, states, steps, c, deadline, turns, r.error);
    }
    if r.Ok? {
      forall i, n | 0 <= i < |items| && 0 <= n < |items[i].questions| ensures RightReply(site, items[i], n, r.value[i][n]) {
        GoodReplyIsRight(site, headroom, items, i, n, r.value[i]);
      }
    }
  }

  lemma GoodReplyIsRight(site: Decide.Site, headroom: real, items: seq<Decide.Item>, i: nat, n: nat, replies: seq<Decide.Reply>)
    requires Decide.SiteOk(site) && Decide.ItemsOk(site, items) && i < |items| && n < |items[i].questions|
    requires Decide.Replied(site, i, items[i], replies, RightAnswer(EnvOf(site, headroom)))
    ensures RightReply(site, items[i], n, replies[n])
  {
    var it, q := items[i], Decide.ItemQs(site, i, items[i])[n];
    assert Decide.RepliesTo(q, replies[n], RightAnswer(EnvOf(site, headroom)));
    assert Decide.QuestionsOk(site, it);
    var p := it.questions[n].1;
    forall e | Decide.EncodingFor(site, it.model, it.seg, p) == Ok(e)
      ensures Padding.IsAnswer(site.models[it.model].net, e, replies[n].raw)
    {
      assert Decide.EncodesAs(site, it.model, it.seg, p, q.key, e);
      assert Asked(site, it.model, q.key, e);
      EnvIsRight(site, headroom, it.model, q.key, e);
    }
    forall full: seq<nat>, e | WholeEncoding(site, it.model, it.seg, p, full, e)
      ensures Padding.IsAnswer(site.models[it.model].net, e, replies[n].raw)
    {
      Decide.EncodingIsWhole(site, it.model, it.seg, p, full, e);
    }
  }
}
