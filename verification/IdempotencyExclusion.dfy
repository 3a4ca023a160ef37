/** At most one request at a time is let through for a key in a store, and when exactly that holds. */
module IdempotencyExclusion {
  import opened Types
  import opened IdempotencyModel

  /** A request let through by this slot: open, or its response still on the way to the store. */
  predicate Holds(s: State, c: nat, slot: Slot) {
    && c < |s.clients| && s.clients[c].key == slot.key
    && match s.clients[c].phase
       case Open(place, _) => place == slot.place
       case Finishing(response, _) => slot.place == Shared && response.Some?
       case _ => false
  }

  /** How long the pending record lasts that the request was let through with. */
  function Until(s: State, c: nat): nat
    requires c < |s.clients|
  {
    match s.clients[c].phase
    case Open(_, until) => until
    case Finishing(_, until) => until
    case _ => 0
  }

  predicate InTime(s: State, c: nat, slot: Slot) {
    Holds(s, c, slot) && s.now < Until(s, c)
  }

  /** A kept response outlives any pending record it may replace. */
  predicate KeepsLonger(cfg: Config) {
    cfg.doneTtl >= PendingTtl(cfg)
  }

  /** The slot is taken for as long as the hold lasts. */
  predicate Guarded(cfg: Config, s: State, c: nat, slot: Slot)
    requires c < |s.clients|
  {
    && slot in s.store && s.store[slot].exp >= Until(s, c)
    && (s.store[slot].rec == Pending(s.clients[c].body, c) || (KeepsLonger(cfg) && s.store[slot].rec.Done?))
  }

  /** The hold lasts past the request's own deadline by the grace, and no longer than a fresh one would. */
  predicate Dated(cfg: Config, s: State, c: nat)
    requires c < |s.clients|
  {
    s.clients[c].start + PendingTtl(cfg) <= Until(s, c) <= s.now + PendingTtl(cfg) && s.clients[c].start <= s.now
  }

  ghost predicate Exclusion(cfg: Config, s: State) {
    && (forall c: nat :: c < |s.clients| ==> s.clients[c].start <= s.now)
    && (forall c: nat, slot :: Holds(s, c, slot) ==> Dated(cfg, s, c))
    && (forall c: nat, slot :: InTime(s, c, slot) ==> Guarded(cfg, s, c, slot))
    && (forall c: nat, d: nat, slot :: InTime(s, c, slot) && InTime(s, d, slot) ==> c == d)
  }

  // ---------- The runs it holds for ----------

  /** The request whose response this step writes to a store. */
  predicate Writes(cfg: Config, s: State, step: Step, c: nat) {
    && c < |s.clients|
    && match step
       case Finish(k, response, fate) =>
         && k == c && s.clients[c].phase.Open? && ToKeep(cfg, s.clients[c].body, response).Some?
         && (s.clients[c].phase.place != Shared || fate == Applied)
       case FinishLands(k) => k == c && s.clients[c].phase.Finishing? && s.clients[c].phase.response.Some?
       case _ => false
  }

  /** Nothing is evicted, and a response is written no later than the grace after its request's deadline. */
  predicate Timely(cfg: Config, s: State, step: Step) {
    && !step.Evict?
    && (forall c: nat :: c < |s.clients| && Writes(cfg, s, step, c) ==> s.now < s.clients[c].start + cfg.timeout + GRACE)
  }

  /** Timely, or with responses kept long enough for timing not to matter. */
  predicate Orderly(cfg: Config, s: State, step: Step) {
    !step.Evict? && (KeepsLonger(cfg) || Timely(cfg, s, step))
  }

  // ---------- Steps ----------

  /** A writer that is in time is the only one its slot has. */
  lemma WriterIsAlone(cfg: Config, s: State, step: Step, c: nat, d: nat, slot: Slot)
    requires Exclusion(cfg, s) && Enabled(cfg, s, step) && Timely(cfg, s, step)
    requires Writes(cfg, s, step, c) && Holds(s, c, slot) && InTime(s, d, slot)
    ensures c == d
  {
    assert Dated(cfg, s, c);
    assert InTime(s, c, slot);
  }

  /** Where a response is written, or a record released. */
  function Target(s: State, step: Step): Slot
    requires (step.Finish? || step.FinishLands?) && step.c < |s.clients|
  {
    var me := s.clients[step.c];
    Slot(if me.phase.Open? then me.phase.place else Shared, me.key)
  }

  /** Storing or releasing leaves the slots of other requests that are in time guarded. */
  lemma SettleGuards(cfg: Config, s: State, step: Step, d: nat, slot: Slot, keep: Option<nat>)
    requires Exclusion(cfg, s) && Enabled(cfg, s, step) && Orderly(cfg, s, step)
    requires (step.Finish? || step.FinishLands?) && InTime(s, d, slot) && step.c != d
    requires keep.Some? ==> Writes(cfg, s, step, step.c) && Holds(s, step.c, Target(s, step))
    ensures var s' := s.(store := Settle(cfg, s, step.c, Target(s, step).place, keep)); Guarded(cfg, s', d, slot)
  {
    assert Guarded(cfg, s, d, slot) && Dated(cfg, s, d);
    if keep.Some? && Target(s, step) == slot && !KeepsLonger(cfg) {
      WriterIsAlone(cfg, s, step, step.c, d, slot);
    }
  }

  /** A request that holds a slot before and after a step, and is in time, stays guarded. */
  lemma StaysGuarded(cfg: Config, s: State, step: Step, d: nat, slot: Slot)
    requires Exclusion(cfg, s) && Enabled(cfg, s, step) && Orderly(cfg, s, step)
    requires Holds(s, d, slot) && InTime(Apply(cfg, s, step), d, slot)
    ensures InTime(s, d, slot) && Guarded(cfg, Apply(cfg, s, step), d, slot)
  {
    var s' := Apply(cfg, s, step);
    assert InTime(s, d, slot);
    assert Guarded(cfg, s, d, slot);
    if step.Finish? && step.c != d {
      SettleGuards(cfg, s, step, d, slot, ToKeepNow(cfg, s, step));
    } else if step.FinishLands? && step.c != d {
      SettleGuards(cfg, s, step, d, slot, s.clients[step.c].phase.response);
    }
  }

  /** What a finish writes at once. */
  function ToKeepNow(cfg: Config, s: State, step: Step): Option<nat>
    requires step.Finish? && step.c < |s.clients| && s.clients[step.c].phase.Open?
  {
    if s.clients[step.c].phase.place != Shared || step.fate == Applied then ToKeep(cfg, s.clients[step.c].body, step.response)
    else None
  }

  /** A request newly let through finds nobody else in time, and its slot is its own. */
  lemma NewHold(cfg: Config, s: State, step: Step, c: nat, slot: Slot)
    requires Exclusion(cfg, s) && Enabled(cfg, s, step)
    requires Holds(Apply(cfg, s, step), c, slot) && !Holds(s, c, slot)
    ensures var s' := Apply(cfg, s, step);
            && Guarded(cfg, s', c, slot) && Dated(cfg, s', c)
            && forall d: nat :: InTime(s', d, slot) ==> d == c
  {
    var s' := Apply(cfg, s, step);
    assert Live(s.store, slot, s.now).None?;
    NobodyInTime(cfg, s, slot);
    forall d: nat | InTime(s', d, slot) ensures d == c {
      assert d != c ==> InTime(s, d, slot);
    }
  }

  lemma NobodyInTime(cfg: Config, s: State, slot: Slot)
    requires Exclusion(cfg, s) && Live(s.store, slot, s.now).None?
    ensures forall d: nat :: !InTime(s, d, slot)
  {
    forall d: nat ensures !InTime(s, d, slot) {
      assert InTime(s, d, slot) ==> Guarded(cfg, s, d, slot);
    }
  }

  lemma StepKeepsDates(cfg: Config, s: State, step: Step)
    requires Exclusion(cfg, s) && Enabled(cfg, s, step)
    ensures var s' := Apply(cfg, s, step);
            && (forall c: nat :: c < |s'.clients| ==> s'.clients[c].start <= s'.now)
            && (forall c: nat, slot :: Holds(s', c, slot) ==> Dated(cfg, s', c))
  {
    var s' := Apply(cfg, s, step);
    forall c: nat, slot | Holds(s', c, slot) ensures Dated(cfg, s', c) {
      if Holds(s, c, slot) {
        assert Dated(cfg, s, c);
      } else {
        NewHold(cfg, s, step, c, slot);
      }
    }
  }

  lemma StepKeepsExclusion(cfg: Config, s: State, step: Step)
    requires Exclusion(cfg, s) && Enabled(cfg, s, step) && Orderly(cfg, s, step)
    ensures Exclusion(cfg, Apply(cfg, s, step))
  {
    var s' := Apply(cfg, s, step);
    StepKeepsDates(cfg, s, step);
    forall c: nat, slot | InTime(s', c, slot) ensures Guarded(cfg, s', c, slot) {
      if Holds(s, c, slot) {
        StaysGuarded(cfg, s, step, c, slot);
      } else {
        NewHold(cfg, s, step, c, slot);
      }
    }
    forall c: nat, d: nat, slot | InTime(s', c, slot) && InTime(s', d, slot) ensures c == d {
      if !Holds(s, c, slot) {
        NewHold(cfg, s, step, c, slot);
      } else if !Holds(s, d, slot) {
        NewHold(cfg, s, step, d, slot);
      } else {
        StaysGuarded(cfg, s, step, c, slot);
        StaysGuarded(cfg, s, step, d, slot);
      }
    }
  }

  ghost predicate OrderlyRun(cfg: Config, run: seq<State>, steps: seq<Step>) {
    IsRun(cfg, run, steps) && forall i :: 0 <= i < |steps| ==> Orderly(cfg, run[i], steps[i])
  }

  lemma {:induction false} RunKeepsExclusion(cfg: Config, run: seq<State>, steps: seq<Step>, i: nat)
    requires OrderlyRun(cfg, run, steps) && i < |run|
    ensures Exclusion(cfg, run[i])
  {
    if i > 0 {
      RunKeepsExclusion(cfg, run, steps, i - 1);
      StepKeepsExclusion(cfg, run[i - 1], steps[i - 1]);
    }
  }

  /** Two requests let through for one key by one store: one of them is at least the grace past its deadline. */
  lemma AtMostOneOpen(cfg: Config, run: seq<State>, steps: seq<Step>, i: nat, c: nat, d: nat)
    requires OrderlyRun(cfg, run, steps) && i < |run| && c < |run[i].clients| && d < |run[i].clients| && c != d
    requires run[i].clients[c].phase.Open? && run[i].clients[d].phase.Open?
    requires run[i].clients[c].phase.place == run[i].clients[d].phase.place && run[i].clients[c].key == run[i].clients[d].key
    ensures var s := run[i];
            || s.now >= s.clients[c].start + cfg.timeout + GRACE
            || s.now >= s.clients[d].start + cfg.timeout + GRACE
  {
    var s := run[i];
    RunKeepsExclusion(cfg, run, steps, i);
    var slot := Slot(s.clients[c].phase.place, s.clients[c].key);
    assert Holds(s, c, slot) && Holds(s, d, slot);
    assert Dated(cfg, s, c) && Dated(cfg, s, d);
    assert !(InTime(s, c, slot) && InTime(s, d, slot));
  }

  // ---------- Exactly when lateness does no harm ----------

  /** A run in which no record is evicted; responses may be written at any time. */
  ghost predicate Calm(cfg: Config, run: seq<State>, steps: seq<Step>) {
    IsRun(cfg, run, steps) && forall i :: 0 <= i < |steps| ==> !steps[i].Evict?
  }

  ghost predicate NoTwo(s: State) {
    forall c: nat, d: nat, slot :: InTime(s, c, slot) && InTime(s, d, slot) ==> c == d
  }

  ghost predicate NeverTwo(cfg: Config) {
    forall run, steps :: Calm(cfg, run, steps) ==> NoTwo(run[|run| - 1])
  }

  /** Where the story below is set: in the shared store, if it is there and keeps responses at all. */
  function Place0(cfg: Config): Place {
    if cfg.hasRedis && cfg.doneTtl > 0 then Shared else Own(0)
  }

  /** The steps by which a request takes a free slot. */
  function Taking(cfg: Config, c: nat): seq<Step> {
    if Place0(cfg) == Shared then [SetNx(c, true)]
    else if cfg.hasRedis then [SetLost(c, false), BeginLocal(c)]
    else [BeginLocal(c)]
  }

  /**
   * Two requests for one key. The first outlives its record; the second takes the slot; the first writes its
   * response over the second's record; that expires, and a third request is let through beside the second.
   */
  function LateStory(cfg: Config, response: nat): seq<Step> {
    [Arrive(0, 0, 0)] + Taking(cfg, 0) + [Tick(PendingTtl(cfg))] + ([Arrive(0, 0, 0)] + Taking(cfg, 1))
    + [Finish(0, Some(response), Applied), Tick(cfg.doneTtl)] + ([Arrive(0, 0, 0)] + Taking(cfg, 2))
  }

  lemma OneMoreStep(cfg: Config, run: seq<State>, steps: seq<Step>, step: Step) returns (run': seq<State>)
    requires Calm(cfg, run, steps) && Enabled(cfg, run[|run| - 1], step) && !step.Evict?
    ensures run' == run + [Apply(cfg, run[|run| - 1], step)] && Calm(cfg, run', steps + [step])
  {
    run' := run + [Apply(cfg, run[|run| - 1], step)];
  }

  /** The state after client `c`, just arrived, took the free slot. */
  function Took(cfg: Config, s: State, c: nat): State
    requires c < |s.clients|
  {
    var until := s.now + PendingTtl(cfg);
    s.(store := s.store[Slot(Place0(cfg), 0) := Entry(Pending(0, c), until)],
       clients := s.clients[c := s.clients[c].(phase := Open(Place0(cfg), until))])
  }

  lemma Takes(cfg: Config, run: seq<State>, steps: seq<Step>, c: nat) returns (run': seq<State>)
    requires Calm(cfg, run, steps)
    requires var s := run[|run| - 1];
             && c < |s.clients| && s.clients[c] == Client(0, 0, 0, s.now, Started(cfg), false)
             && Live(s.store, Slot(Place0(cfg), 0), s.now).None?
    ensures Calm(cfg, run', steps + Taking(cfg, c)) && run'[|run'| - 1] == Took(cfg, run[|run| - 1], c)
  {
    var s := run[|run| - 1];
    if Place0(cfg) != Shared && cfg.hasRedis {
      run' := OneMoreStep(cfg, run, steps, SetLost(c, false));
      run' := OneMoreStep(cfg, run', steps + [SetLost(c, false)], BeginLocal(c));
      assert steps + [SetLost(c, false)] + [BeginLocal(c)] == steps + Taking(cfg, c);
    } else {
      run' := OneMoreStep(cfg, run, steps, Taking(cfg, c)[0]);
      assert [Taking(cfg, c)[0]] == Taking(cfg, c);
    }
  }

  /** A request arrives and finds the slot free. */
  lemma ArrivesAndTakes(cfg: Config, run: seq<State>, steps: seq<Step>) returns (run': seq<State>)
    requires Calm(cfg, run, steps)
    requires var s := run[|run| - 1]; Live(s.store, Slot(Place0(cfg), 0), s.now).None?
    ensures var s, c := run[|run| - 1], |run[|run| - 1].clients|;
            var until := s.now + PendingTtl(cfg);
            && Calm(cfg, run', steps + ([Arrive(0, 0, 0)] + Taking(cfg, c)))
            && run'[|run'| - 1] == s.(store := s.store[Slot(Place0(cfg), 0) := Entry(Pending(0, c), until)],
                                      clients := s.clients + [Client(0, 0, 0, s.now, Open(Place0(cfg), until), false)])
  {
    var s, c := run[|run| - 1], |run[|run| - 1].clients|;
    run' := OneMoreStep(cfg, run, steps, Arrive(0, 0, 0));
    var s1 := run'[|run'| - 1];
    run' := Takes(cfg, run', steps + [Arrive(0, 0, 0)], c);
    assert steps + [Arrive(0, 0, 0)] + Taking(cfg, c) == steps + ([Arrive(0, 0, 0)] + Taking(cfg, c));
    var until := s.now + PendingTtl(cfg);
    assert s1.clients[c := s1.clients[c].(phase := Open(Place0(cfg), until))]
        == s.clients + [Client(0, 0, 0, s.now, Open(Place0(cfg), until), false)];
  }

  lemma LateOwnerLetsTwoIn(cfg: Config, response: nat) returns (run: seq<State>)
    requires !KeepsLonger(cfg) && cfg.size(0, response) <= cfg.maxStored
    ensures Calm(cfg, run, LateStory(cfg, response)) && !NoTwo(run[|run| - 1])
  {
    var p, slot := PendingTtl(cfg), Slot(Place0(cfg), 0);
    assert Calm(cfg, [Init()], []);
    run := ArrivesAndTakes(cfg, [Init()], []);
    var steps := [] + ([Arrive(0, 0, 0)] + Taking(cfg, 0));
    run := OneMoreStep(cfg, run, steps, Tick(p));
    steps := steps + [Tick(p)];
    run := ArrivesAndTakes(cfg, run, steps);
    steps := steps + ([Arrive(0, 0, 0)] + Taking(cfg, 1));
    run := LateWrite(cfg, run, steps, response);
    steps := steps + [Finish(0, Some(response), Applied), Tick(cfg.doneTtl)];
    run := ArrivesAndTakes(cfg, run, steps);
    steps := steps + ([Arrive(0, 0, 0)] + Taking(cfg, 2));
    assert steps == LateStory(cfg, response);
    var s := run[|run| - 1];
    assert InTime(s, 1, slot) && InTime(s, 2, slot);
  }

  /** The first request's response replaces the second's record, and expires before it would have. */
  lemma LateWrite(cfg: Config, run: seq<State>, steps: seq<Step>, response: nat) returns (run': seq<State>)
    requires Calm(cfg, run, steps) && cfg.size(0, response) <= cfg.maxStored
    requires var s := run[|run| - 1];
             |s.clients| == 2 && s.clients[0].phase == Open(Place0(cfg), s.now) && s.clients[0].key == 0 && s.clients[0].body == 0
    ensures Calm(cfg, run', steps + [Finish(0, Some(response), Applied), Tick(cfg.doneTtl)])
    ensures var s, s' := run[|run| - 1], run'[|run'| - 1];
            && s'.now == s.now + cfg.doneTtl && |s'.clients| == 2 && s'.clients[1] == s.clients[1]
            && Live(s'.store, Slot(Place0(cfg), 0), s'.now).None?
  {
    assert ToKeep(cfg, 0, Some(response)) == Some(response);
    run' := OneMoreStep(cfg, run, steps, Finish(0, Some(response), Applied));
    run' := OneMoreStep(cfg, run', steps + [Finish(0, Some(response), Applied)], Tick(cfg.doneTtl));
    assert steps + [Finish(0, Some(response), Applied)] + [Tick(cfg.doneTtl)]
        == steps + [Finish(0, Some(response), Applied), Tick(cfg.doneTtl)];
  }

  /**
   * However late requests finish, no two in-time requests are ever let through for one key by one store, if and
   * only if responses are kept at least as long as pending records. `response` is any that is small enough to keep.
   */
  lemma LatenessIsHarmlessIff(cfg: Config, response: nat)
    requires cfg.size(0, response) <= cfg.maxStored
    ensures NeverTwo(cfg) <==> KeepsLonger(cfg)
  {
    if KeepsLonger(cfg) {
      forall run, steps | Calm(cfg, run, steps) ensures NoTwo(run[|run| - 1]) {
        RunKeepsExclusion(cfg, run, steps, |run| - 1);
      }
    } else {
      var run := LateOwnerLetsTwoIn(cfg, response);
      assert Calm(cfg, run, LateStory(cfg, response));
    }
  }
}
