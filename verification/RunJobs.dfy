/** `run_jobs`: admit, wait for every handle, and admit again what joined a dying item. */
module RunJobs {
  import opened Types
  import opened SchedulerModel

  const MAX_READMITS: nat := 3
  const DROPPED := "work items dropped without a result"

  datatype SchedError = Overloaded | Deadline | Backend(msg: string)

  /** What one turn of the loop meets. `Answers` lists how each handle resolved. */
  datatype Round =
    | Expired                                     // the deadline passed before admission
    | Refused                                     // admission shed the request
    | TimedOut                                    // the deadline passed while waiting
    | Answers(results: seq<(Key, Channel)>)

  /** What the `i`-th turn meets, given the jobs still to do. */
  type World = (nat, map<Key, Job>) -> Round

  /** Waiting on all handles yields one resolved outcome per job still to do. */
  ghost predicate Resolves(todo: map<Key, Job>, results: seq<(Key, Channel)>) {
    && (forall i :: 0 <= i < |results| ==> results[i].0 in todo && !results[i].1.Pending?)
    && (forall k :: k in todo ==> exists i :: 0 <= i < |results| && results[i].0 == k)
    && (forall i, j :: 0 <= i < j < |results| ==> results[i].0 != results[j].0)
  }

  ghost predicate WorldOk(world: World) {
    forall i, todo :: world(i, todo).Answers? ==> Resolves(todo, world(i, todo).results)
  }

  /** Every successful outcome satisfies `good`. */
  ghost predicate WorldIsGood(world: World, good: (Key, Raw) -> bool) {
    forall i, todo :: world(i, todo).Answers? ==> ResultsAreGood(world(i, todo).results, good)
  }

  ghost predicate ResultsAreGood(results: seq<(Key, Channel)>, good: (Key, Raw) -> bool) {
    forall n :: 0 <= n < |results| && results[n].1.Sent? && results[n].1.outcome.Done? ==>
      good(results[n].0, results[n].1.outcome.raw)
  }

  function JobMap(jobs: seq<Job>): map<Key, Job> {
    if jobs == [] then map[] else JobMap(jobs[..|jobs| - 1])[jobs[|jobs| - 1].key := jobs[|jobs| - 1]]
  }

  /** What the request still owes after looking at some outcomes. */
  datatype Progress = Progress(todo: map<Key, Job>, done: map<Key, Raw>, dropped: bool, error: Option<string>)

  function Absorb(p: Progress, results: seq<(Key, Channel)>): Progress {
    if results == [] then p
    else
      var p' := Absorb(p, results[..|results| - 1]);
      var (k, ch) := results[|results| - 1];
      if p'.error.Some? then p'
      else match ch
        case Sent(Done(raw)) => p'.(todo := p'.todo - {k}, done := p'.done[k := raw])
        case Sent(Failed(e)) => p'.(error := Some(e))
        case _ => p'.(dropped := true)
  }

  /** After outcomes for a part of the jobs: what was answered moved over, and nothing else. */
  lemma {:induction false} AbsorbPartitions(todo: map<Key, Job>, done: map<Key, Raw>, results: seq<(Key, Channel)>)
    requires todo.Keys !! done.Keys && forall i :: 0 <= i < |results| ==> results[i].0 in todo
    ensures var p := Absorb(Progress(todo, done, false, None), results);
            && p.todo.Keys !! p.done.Keys && p.todo.Keys + p.done.Keys == todo.Keys + done.Keys
            && p.todo.Keys <= todo.Keys
            && (forall k :: k in p.todo ==> p.todo[k] == todo[k])
            && (p.error.None? && !p.dropped ==> forall i :: 0 <= i < |results| && !results[i].1.Pending? ==> results[i].0 !in p.todo)
            && (p.dropped ==> exists i :: 0 <= i < |results| && !results[i].1.Sent?)
            && (p.error.Some? ==> exists i :: 0 <= i < |results| && results[i].1 == Sent(Failed(p.error.value)))
  {
    if results != [] {
      AbsorbPartitions(todo, done, results[..|results| - 1]);
    }
  }

  lemma {:induction false} AbsorbIsGood(p: Progress, results: seq<(Key, Channel)>, good: (Key, Raw) -> bool)
    requires forall k :: k in p.done ==> good(k, p.done[k])
    requires ResultsAreGood(results, good)
    ensures var q := Absorb(p, results); forall k :: k in q.done ==> good(k, q.done[k])
  {
    if results != [] {
      var init := results[..|results| - 1];
      assert ResultsAreGood(init, good);
      AbsorbIsGood(p, init, good);
      assert forall k :: k in Absorb(p, init).done ==> good(k, Absorb(p, init).done[k]);
      var p' := Absorb(p, init);
      var (k, ch) := results[|results| - 1];
      var q := Absorb(p, results);
      if p'.error.None? && ch.Sent? && ch.outcome.Done? {
        assert good(k, ch.outcome.raw) && q.done == p'.done[k := ch.outcome.raw];
      } else {
        assert q.done == p'.done;
      }
    }
  }

  /** Outcomes for every job, none of them lost or failed, leave nothing to do. */
  lemma AllAnswered(todo: map<Key, Job>, done: map<Key, Raw>, results: seq<(Key, Channel)>)
    requires todo.Keys !! done.Keys && Resolves(todo, results)
    ensures var p := Absorb(Progress(todo, done, false, None), results);
            p.error.None? && !p.dropped ==> p.todo == map[]
  {
    AbsorbPartitions(todo, done, results);
  }

  /** The turns from here on: a turn without a dead item answers everything; each dead one costs a readmission. */
  function Turns(world: World, todo: map<Key, Job>, done: map<Key, Raw>, readmits: nat)
    : (Result<map<Key, Raw>, SchedError>, nat)
    requires readmits <= MAX_READMITS
    decreases MAX_READMITS - readmits
  {
    if todo == map[] then (Ok(done), 0)
    else match world(readmits, todo)
      case Expired => (Err(Deadline), 0)
      case Refused => (Err(Overloaded), 1)
      case TimedOut => (Err(Deadline), 1)
      case Answers(results) =>
        var p := Absorb(Progress(todo, done, false, None), results);
        if p.error.Some? then (Err(Backend(p.error.value)), 1)
        else if !p.dropped then (Ok(p.done), 1)
        else if readmits == MAX_READMITS then (Err(Backend(DROPPED)), 1)
        else
          var (r, n) := Turns(world, p.todo, p.done, readmits + 1);
          (r, n + 1)
  }

  /** At most `budget` admissions, and success answers exactly `keys`, each one well. */
  ghost predicate EndsWell(t: (Result<map<Key, Raw>, SchedError>, nat), keys: set<Key>, budget: nat, good: (Key, Raw) -> bool) {
    && t.1 <= budget
    && (t.0.Ok? ==> t.0.value.Keys == keys && forall k :: k in t.0.value ==> good(k, t.0.value[k]))
  }

  /** A turn with good outcomes moves keys from owed to answered, each one well. */
  lemma GoodTurn(todo: map<Key, Job>, done: map<Key, Raw>, results: seq<(Key, Channel)>, good: (Key, Raw) -> bool)
    requires Resolves(todo, results) && ResultsAreGood(results, good)
    requires todo.Keys !! done.Keys && forall k :: k in done ==> good(k, done[k])
    ensures var p := Absorb(Progress(todo, done, false, None), results);
            && p.todo.Keys !! p.done.Keys && p.todo.Keys + p.done.Keys == todo.Keys + done.Keys
            && forall k :: k in p.done ==> good(k, p.done[k])
  {
    AbsorbPartitions(todo, done, results);
    AbsorbIsGood(Progress(todo, done, false, None), results, good);
  }

  /** Terminates within the readmission budget; success answers exactly the requested keys, each one well. */
  lemma {:induction false} TurnsAnswerExactly(
    world: World, todo: map<Key, Job>, done: map<Key, Raw>, readmits: nat, good: (Key, Raw) -> bool)
    requires WorldOk(world) && WorldIsGood(world, good) && readmits <= MAX_READMITS
    requires todo.Keys !! done.Keys && forall k :: k in done ==> good(k, done[k])
    ensures EndsWell(Turns(world, todo, done, readmits), todo.Keys + done.Keys, MAX_READMITS + 1 - readmits, good)
    decreases MAX_READMITS - readmits
  {
    if todo != map[] && world(readmits, todo).Answers? {
      var results := world(readmits, todo).results;
      var p := Absorb(Progress(todo, done, false, None), results);
      GoodTurn(todo, done, results, good);
      AnsweredTurn(world, todo, done, readmits);
      KeysMoved(todo, done, p.todo, p.done);
      if p.error.None? && p.dropped && readmits < MAX_READMITS {
        TurnsAnswerExactly(world, p.todo, p.done, readmits + 1, good);
        var later := Turns(world, p.todo, p.done, readmits + 1);
        OneMoreEndsWell(later, p.todo.Keys + p.done.Keys, MAX_READMITS - readmits, good);
        assert Turns(world, todo, done, readmits) == (later.0, later.1 + 1);
      }
    }
  }

  lemma OneMoreEndsWell(t: (Result<map<Key, Raw>, SchedError>, nat), keys: set<Key>, budget: nat, good: (Key, Raw) -> bool)
    requires EndsWell(t, keys, budget, good)
    ensures EndsWell((t.0, t.1 + 1), keys, budget + 1, good)
  {
  }

  lemma KeysMoved(todo: map<Key, Job>, done: map<Key, Raw>, todo': map<Key, Job>, done': map<Key, Raw>)
    requires todo'.Keys + done'.Keys == todo.Keys + done.Keys
    ensures todo' == map[] ==> done'.Keys == todo.Keys + done.Keys
  {
  }

  ghost predicate AllDone(results: seq<(Key, Channel)>) {
    forall i :: 0 <= i < |results| ==> results[i].1.Sent? && results[i].1.outcome.Done?
  }

  /** If every wait is answered with a value the request succeeds with one admission. */
  lemma SmoothRunSucceeds(world: World, todo: map<Key, Job>)
    requires WorldOk(world) && todo != map[]
    requires world(0, todo).Answers? && AllDone(world(0, todo).results)
    ensures Turns(world, todo, map[], 0).0.Ok? && Turns(world, todo, map[], 0).1 == 1
  {
    AbsorbPartitions(todo, map[], world(0, todo).results);
  }

  /** One turn that was answered, in terms of what is left after it. */
  lemma AnsweredTurn(world: World, todo: map<Key, Job>, done: map<Key, Raw>, readmits: nat)
    requires readmits <= MAX_READMITS && todo != map[] && todo.Keys !! done.Keys && world(readmits, todo).Answers?
    requires Resolves(todo, world(readmits, todo).results)
    ensures var p := Absorb(Progress(todo, done, false, None), world(readmits, todo).results);
            var t := Turns(world, todo, done, readmits);
            && p.todo.Keys !! p.done.Keys
            && if p.error.Some? then t == (Err(Backend(p.error.value)), 1)
               else if !p.dropped then p.todo == map[] && t == (Ok(p.done), 1)
               else if readmits == MAX_READMITS then t == (Err(Backend(DROPPED)), 1)
               else t == (Turns(world, p.todo, p.done, readmits + 1).0, Turns(world, p.todo, p.done, readmits + 1).1 + 1)
  {
    AbsorbPartitions(todo, done, world(readmits, todo).results);
    AllAnswered(todo, done, world(readmits, todo).results);
  }

  // ---------- The turn a request ends with ----------

  predicate IsFailure(ch: Channel) {
    ch.Sent? && ch.outcome.Failed?
  }

  predicate NoFailure(results: seq<(Key, Channel)>) {
    forall n :: 0 <= n < |results| ==> !IsFailure(results[n].1)
  }

  /** `msg` comes with the first outcome that is a failure. */
  predicate FailsFirst(results: seq<(Key, Channel)>, msg: string) {
    exists n :: 0 <= n < |results| && results[n].1 == Sent(Failed(msg)) && NoFailure(results[..n])
  }

  predicate SomeDropped(results: seq<(Key, Channel)>) {
    exists n :: 0 <= n < |results| && !results[n].1.Sent?
  }

  lemma OneMoreOutcome(results: seq<(Key, Channel)>, last: (Key, Channel))
    ensures NoFailure(results + [last]) <==> NoFailure(results) && !IsFailure(last.1)
    ensures SomeDropped(results + [last]) <==> SomeDropped(results) || !last.1.Sent?
  {
    var all := results + [last];
    assert all[|results|] == last && forall i :: 0 <= i < |results| ==> all[i] == results[i];
  }

  /** The first failure stays the first. */
  lemma FirstStays(results: seq<(Key, Channel)>, last: (Key, Channel), msg: string)
    requires FailsFirst(results, msg) || (NoFailure(results) && last.1 == Sent(Failed(msg)))
    ensures FailsFirst(results + [last], msg)
  {
    var all := results + [last];
    if FailsFirst(results, msg) {
      var i :| 0 <= i < |results| && results[i].1 == Sent(Failed(msg)) && NoFailure(results[..i]);
      assert all[..i] == results[..i] && all[i] == results[i];
    } else {
      assert all[..|results|] == results;
    }
  }

  /** Without a failure all outcomes are taken in. */
  lemma {:induction false} AbsorbGoesOn(p: Progress, results: seq<(Key, Channel)>)
    requires p.error.None?
    ensures var q := Absorb(p, results);
            && (q.error.None? <==> NoFailure(results))
            && (q.error.None? ==> (q.dropped <==> p.dropped || SomeDropped(results)))
  {
    if results != [] {
      var init, last := results[..|results| - 1], results[|results| - 1];
      AbsorbGoesOn(p, init);
      assert results == init + [last];
      OneMoreOutcome(init, last);
    }
  }

  lemma {:induction false} AbsorbStops(p: Progress, results: seq<(Key, Channel)>)
    requires p.error.None? && Absorb(p, results).error.Some?
    ensures FailsFirst(results, Absorb(p, results).error.value)
  {
    if results != [] {
      var init, last := results[..|results| - 1], results[|results| - 1];
      assert results == init + [last];
      if Absorb(p, init).error.Some? {
        AbsorbStops(p, init);
        FirstStays(init, last, Absorb(p, init).error.value);
      } else {
        AbsorbGoesOn(p, init);
        FirstStays(init, last, last.1.outcome.msg);
      }
    }
  }

  lemma AbsorbEnds(p: Progress, results: seq<(Key, Channel)>)
    requires p.error.None?
    ensures var q := Absorb(p, results);
            && (q.error.None? <==> NoFailure(results))
            && (q.error.Some? ==> FailsFirst(results, q.error.value))
            && (q.error.None? ==> (q.dropped <==> p.dropped || SomeDropped(results)))
  {
    AbsorbGoesOn(p, results);
    if Absorb(p, results).error.Some? {
      AbsorbStops(p, results);
    }
  }

  /** There is one first failure. */
  lemma FirstFailureIsOne(results: seq<(Key, Channel)>, a: string, b: string)
    requires FailsFirst(results, a) && FailsFirst(results, b)
    ensures a == b
  {
    var i :| 0 <= i < |results| && results[i].1 == Sent(Failed(a)) && NoFailure(results[..i]);
    var j :| 0 <= j < |results| && results[j].1 == Sent(Failed(b)) && NoFailure(results[..j]);
  }

  /** After turn `readmits` the request admits once more. */
  predicate GoesOn(round: Round, readmits: nat) {
    round.Answers? && NoFailure(round.results) && SomeDropped(round.results) && readmits < MAX_READMITS
  }

  /** The turn ends the request with this error. */
  predicate EndsWith(round: Round, readmits: nat, e: SchedError) {
    match e
    case Overloaded => round.Refused?
    case Deadline => round.Expired? || round.TimedOut?
    case Backend(msg) =>
      && round.Answers?
      && (FailsFirst(round.results, msg)
          || (NoFailure(round.results) && SomeDropped(round.results) && readmits >= MAX_READMITS && msg == DROPPED))
  }

  /** The last turn the request reaches, and what it owes then: each turn before it was answered and goes on. */
  function LastTurn(world: World, todo: map<Key, Job>, done: map<Key, Raw>, readmits: nat): (r: (nat, map<Key, Job>))
    requires readmits <= MAX_READMITS
    ensures readmits <= r.0 <= MAX_READMITS && !GoesOn(world(r.0, r.1), r.0)
    decreases MAX_READMITS - readmits
  {
    var round := world(readmits, todo);
    if GoesOn(round, readmits) then
      var p := Absorb(Progress(todo, done, false, None), round.results);
      LastTurn(world, p.todo, p.done, readmits + 1)
    else (readmits, todo)
  }

  /** What is still owed after an answered turn that goes on: exactly what was dropped in it. */
  lemma OwedIsDropped(todo: map<Key, Job>, done: map<Key, Raw>, results: seq<(Key, Channel)>)
    requires todo.Keys !! done.Keys && Resolves(todo, results) && NoFailure(results)
    ensures var p := Absorb(Progress(todo, done, false, None), results);
            && (forall n :: 0 <= n < |results| ==> (results[n].0 in p.todo <==> !results[n].1.Sent?))
            && (forall k :: k in p.todo ==> k in todo && p.todo[k] == todo[k])
            && (SomeDropped(results) ==> p.todo != map[])
  {
    AbsorbPartitions(todo, done, results);
    AbsorbLeavesDropped(Progress(todo, done, false, None), results);
  }

  lemma {:induction false} AbsorbLeavesDropped(p: Progress, results: seq<(Key, Channel)>)
    requires p.error.None? && NoFailure(results) && forall i, j :: 0 <= i < j < |results| ==> results[i].0 != results[j].0
    ensures var q := Absorb(p, results);
            && q.error.None? && q.todo.Keys <= p.todo.Keys
            && (forall n :: 0 <= n < |results| ==> (results[n].0 in q.todo <==> !results[n].1.Sent? && results[n].0 in p.todo))
            && (forall k :: k in p.todo && (forall n :: 0 <= n < |results| ==> results[n].0 != k) ==> k in q.todo)
  {
    if results != [] {
      var n := |results| - 1;
      var init := results[..n];
      AbsorbLeavesDropped(p, init);
      forall i | 0 <= i < n
        ensures results[i].0 in Absorb(p, results).todo <==> !results[i].1.Sent? && results[i].0 in p.todo
      {
        assert init[i] == results[i] && results[i].0 != results[n].0;
      }
      assert !IsFailure(results[n].1);
      assert forall i :: 0 <= i < n ==> init[i] == results[i];
    }
  }

  /** The outcome is the one the turn ends with. */
  ghost predicate EndsAsMet(r: Result<map<Key, Raw>, SchedError>, round: Round, i: nat) {
    && (r.Ok? <==> round.Answers? && AllDone(round.results))
    && (forall e :: r == Err(e) <==> EndsWith(round, i, e))
  }

  /**
   * The request fails with an error exactly when the last turn it reaches ends with it, and succeeds exactly when
   * that turn brings a value for everything still owed. Each turn up to it is one admission, unless it came too late.
   */
  lemma {:induction false} TurnsEndAsMet(world: World, todo: map<Key, Job>, done: map<Key, Raw>, readmits: nat)
    requires WorldOk(world) && readmits <= MAX_READMITS && todo.Keys !! done.Keys && todo != map[]
    ensures var (i, left) := LastTurn(world, todo, done, readmits);
            && EndsAsMet(Turns(world, todo, done, readmits).0, world(i, left), i)
            && Turns(world, todo, done, readmits).1 == i - readmits + (if world(i, left).Expired? then 0 else 1)
    decreases MAX_READMITS - readmits
  {
    var round := world(readmits, todo);
    if GoesOn(round, readmits) {
      NextTurn(world, todo, done, readmits);
      var p := Absorb(Progress(todo, done, false, None), round.results);
      TurnsEndAsMet(world, p.todo, p.done, readmits + 1);
    } else if round.Answers? {
      AnsweredEnds(world, todo, done, readmits);
    }
  }

  lemma AnsweredEnds(world: World, todo: map<Key, Job>, done: map<Key, Raw>, readmits: nat)
    requires WorldOk(world) && readmits <= MAX_READMITS && todo.Keys !! done.Keys && todo != map[]
    requires world(readmits, todo).Answers? && !GoesOn(world(readmits, todo), readmits)
    ensures EndsAsMet(Turns(world, todo, done, readmits).0, world(readmits, todo), readmits)
    ensures Turns(world, todo, done, readmits).1 == 1
  {
    var round := world(readmits, todo);
    AnsweredTurn(world, todo, done, readmits);
    AbsorbEnds(Progress(todo, done, false, None), round.results);
    EndsAnswered(round, readmits, Absorb(Progress(todo, done, false, None), round.results));
  }

  /** A turn that goes on leaves something owed, and the next turn decides. */
  lemma NextTurn(world: World, todo: map<Key, Job>, done: map<Key, Raw>, readmits: nat)
    requires WorldOk(world) && readmits < MAX_READMITS && todo.Keys !! done.Keys && todo != map[]
    requires GoesOn(world(readmits, todo), readmits)
    ensures var p := Absorb(Progress(todo, done, false, None), world(readmits, todo).results);
            && p.todo != map[] && p.todo.Keys !! p.done.Keys
            && Turns(world, todo, done, readmits) == Later(Turns(world, p.todo, p.done, readmits + 1), 1)
  {
    AnsweredTurn(world, todo, done, readmits);
    AbsorbEnds(Progress(todo, done, false, None), world(readmits, todo).results);
    OwedIsDropped(todo, done, world(readmits, todo).results);
  }

  /** An answered turn that does not go on ends the request one way. */
  lemma EndsAnswered(round: Round, readmits: nat, p: Progress)
    requires round.Answers? && !GoesOn(round, readmits)
    requires p.error.None? <==> NoFailure(round.results)
    requires p.error.Some? ==> FailsFirst(round.results, p.error.value)
    requires p.error.None? ==> (p.dropped <==> SomeDropped(round.results))
    ensures AllDone(round.results) <==> p.error.None? && !p.dropped
    ensures forall e :: EndsWith(round, readmits, e) <==>
              || (p.error.Some? && e == Backend(p.error.value))
              || (p.error.None? && p.dropped && e == Backend(DROPPED))
  {
    forall e | EndsWith(round, readmits, e)
      ensures (p.error.Some? && e == Backend(p.error.value)) || (p.error.None? && p.dropped && e == Backend(DROPPED))
    {
      if p.error.Some? && FailsFirst(round.results, e.msg) {
        FirstFailureIsOne(round.results, p.error.value, e.msg);
      }
    }
  }

  /** Runs the jobs to the end. Every admission is counted. */
  method Run(jobs: seq<Job>, models: nat, world: World) returns (r: Result<map<Key, Raw>, SchedError>, admissions: nat)
    requires WorldOk(world)
    ensures var todo := JobMap(jobs);
            (r, admissions) == if exists k :: k in todo && todo[k].model >= models
                               then (Err(Backend("unknown model index")), 0)
                               else Turns(world, todo, map[], 0)
  {
    var todo := Collect(jobs);
    admissions := 0;
    if exists k :: k in todo && todo[k].model >= models {
      return Err(Backend("unknown model index")), 0;
    }
    r, admissions := Loop(todo, world);
  }

  /** The same result after so many admissions more. */
  function Later(t: (Result<map<Key, Raw>, SchedError>, nat), n: nat): (Result<map<Key, Raw>, SchedError>, nat) {
    (t.0, t.1 + n)
  }

  lemma OneLater(t: (Result<map<Key, Raw>, SchedError>, nat), n: nat)
    ensures Later(Later(t, 1), n) == Later(t, n + 1)
  {
  }

  method Loop(jobs: map<Key, Job>, world: World) returns (r: Result<map<Key, Raw>, SchedError>, admissions: nat)
    requires WorldOk(world)
    ensures r == Turns(world, jobs, map[], 0).0 && admissions == Turns(world, jobs, map[], 0).1
  {
    var todo := jobs;
    admissions := 0;
    ghost var spec := Turns(world, todo, map[], 0);
    var done: map<Key, Raw> := map[];
    var readmits: nat := 0;
    while todo != map[]
      invariant readmits <= MAX_READMITS && todo.Keys !! done.Keys
      invariant spec == Later(Turns(world, todo, done, readmits), admissions)
      decreases if todo == map[] then 0 else MAX_READMITS - readmits + 1
    {
      var turn := world(readmits, todo);
      if turn.Expired? {
        return Err(Deadline), admissions;
      }
      admissions := admissions + 1;
      if turn.Refused? {
        return Err(Overloaded), admissions;
      } else if turn.TimedOut? {
        return Err(Deadline), admissions;
      }
      var stop: Option<SchedError>;
      todo, done, readmits, stop := TakeIn(world, todo, done, readmits, turn.results);
      if stop.Some? {
        return Err(stop.value), admissions;
      }
      OneLater(Turns(world, todo, done, readmits), admissions - 1);
    }
    r := Ok(done);
  }

  /** Takes in the outcomes of one turn: all answered, some to be admitted again, or an end to it. */
  method TakeIn(ghost world: World, todo0: map<Key, Job>, done0: map<Key, Raw>, readmits0: nat, results: seq<(Key, Channel)>)
    returns (todo: map<Key, Job>, done: map<Key, Raw>, readmits: nat, stop: Option<SchedError>)
    requires readmits0 <= MAX_READMITS && todo0 != map[] && todo0.Keys !! done0.Keys
    requires world(readmits0, todo0) == Answers(results) && Resolves(todo0, results)
    ensures var t := Turns(world, todo0, done0, readmits0);
            if stop.Some? then t == (Err(stop.value), 1)
            else readmits <= MAX_READMITS && todo.Keys !! done.Keys && t == Later(Turns(world, todo, done, readmits), 1)
    ensures stop.None? ==> readmits > readmits0 || todo == map[]
  {
    AnsweredTurn(world, todo0, done0, readmits0);
    var dropped, error;
    todo, done, dropped, error := Settle(todo0, done0, results);
    readmits, stop := readmits0, None;
    if error.Some? {
      stop := Some(Backend(error.value));
    } else if dropped {
      if readmits == MAX_READMITS {
        stop := Some(Backend(DROPPED));
      } else {
        readmits := readmits + 1;
      }
    }
  }

  method Collect(jobs: seq<Job>) returns (todo: map<Key, Job>)
    ensures todo == JobMap(jobs)
  {
    todo := map[];
    for i := 0 to |jobs|
      invariant todo == JobMap(jobs[..i])
    {
      assert jobs[..i + 1][..i] == jobs[..i];
      todo := todo[jobs[i].key := jobs[i]];
    }
    assert jobs[..|jobs|] == jobs;
  }

  /** Goes through the outcomes in order, stopping at the first failure. */
  method Settle(todo0: map<Key, Job>, done0: map<Key, Raw>, results: seq<(Key, Channel)>)
    returns (todo: map<Key, Job>, done: map<Key, Raw>, dropped: bool, error: Option<string>)
    ensures Progress(todo, done, dropped, error) == Absorb(Progress(todo0, done0, false, None), results)
  {
    todo, done, dropped, error := todo0, done0, false, None;
    ghost var start := Progress(todo0, done0, false, None);
    var i := 0;
    while i < |results|
      invariant 0 <= i <= |results|
      invariant Progress(todo, done, dropped, error) == Absorb(start, results[..i]) && error.None?
    {
      assert results[..i + 1][..i] == results[..i];
      match results[i].1 {
        case Sent(Done(raw)) =>
          todo := todo - {results[i].0};
          done := done[results[i].0 := raw];
        case Sent(Failed(e)) =>
          error := Some(e);
          FailureSticks(start, results, i + 1);
          return;
        case Pending => dropped := true;
        case Closed => dropped := true;
      }
      i := i + 1;
    }
    assert results[..|results|] == results;
  }

  lemma {:induction false} FailureSticks(p: Progress, results: seq<(Key, Channel)>, i: nat)
    requires i <= |results| && Absorb(p, results[..i]).error.Some?
    ensures Absorb(p, results) == Absorb(p, results[..i])
    decreases |results|
  {
    if i < |results| {
      var init := results[..|results| - 1];
      assert init[..i] == results[..i];
      FailureSticks(p, init, i);
    } else {
      assert results[..i] == results;
    }
  }

  // ---------- Four admissions at most ----------

  /** A turn goes on only if nothing failed, something was dropped, and it is one of the first three. */
  lemma GoesOnIff(round: Round, r: nat)
    ensures GoesOn(round, r) <==>
              && round.Answers? && r < 3
              && (forall n :: 0 <= n < |round.results| ==> !(round.results[n].1.Sent? && round.results[n].1.outcome.Failed?))
              && (exists n :: 0 <= n < |round.results| && !round.results[n].1.Sent?)
  {
  }

  /** No world makes a request admit more than four times. */
  lemma FourAdmissionsAtMost(world: World, todo: map<Key, Job>)
    requires WorldOk(world)
    ensures Turns(world, todo, map[], 0).1 <= 4
  {
    if todo != map[] {
      TurnsEndAsMet(world, todo, map[], 0);
    }
  }

  /** Every item of every turn dies. */
  ghost predicate AllDie(world: World) {
    forall i, todo :: world(i, todo).Answers? && forall n :: 0 <= n < |world(i, todo).results| ==> world(i, todo).results[n].1.Closed?
  }

  lemma DyingGoesOn(world: World, todo: map<Key, Job>, done: map<Key, Raw>, r: nat)
    requires WorldOk(world) && AllDie(world) && todo != map[] && todo.Keys !! done.Keys && r < 3
    ensures var p := Absorb(Progress(todo, done, false, None), world(r, todo).results);
            && p.todo != map[] && p.todo.Keys !! p.done.Keys
            && Turns(world, todo, done, r) == Later(Turns(world, p.todo, p.done, r + 1), 1)
  {
    SomethingDies(world, todo, r);
    NextTurn(world, todo, done, r);
  }

  lemma SomethingDies(world: World, todo: map<Key, Job>, r: nat)
    requires WorldOk(world) && AllDie(world) && todo != map[]
    ensures world(r, todo).Answers? && NoFailure(world(r, todo).results) && SomeDropped(world(r, todo).results)
  {
    var results := world(r, todo).results;
    assert Resolves(todo, results);
    var k :| k in todo;
    var n :| 0 <= n < |results| && results[n].0 == k;
    assert results[n].1.Closed?;
  }

  lemma {:induction false} DeathsFrom(world: World, todo: map<Key, Job>, done: map<Key, Raw>, r: nat)
    requires WorldOk(world) && AllDie(world) && todo != map[] && todo.Keys !! done.Keys && r <= 3
    ensures Turns(world, todo, done, r) == (Err(Backend("work items dropped without a result")), 4 - r)
    decreases 3 - r
  {
    SomethingDies(world, todo, r);
    if r < 3 {
      DyingGoesOn(world, todo, done, r);
      var p := Absorb(Progress(todo, done, false, None), world(r, todo).results);
      DeathsFrom(world, p.todo, p.done, r + 1);
    } else {
      AnsweredTurn(world, todo, done, r);
      AbsorbEnds(Progress(todo, done, false, None), world(r, todo).results);
    }
  }

  /** If all its items always die, a request admits four times and then gives up. */
  lemma FourDeathsEnd(world: World, todo: map<Key, Job>)
    requires WorldOk(world) && AllDie(world) && todo != map[]
    ensures Turns(world, todo, map[], 0) == (Err(Backend("work items dropped without a result")), 4)
  {
    DeathsFrom(world, todo, map[], 0);
  }
}
