/** What the idempotency records guarantee over every run. */
module IdempotencyTheorems {
  import opened Types
  import opened IdempotencyModel

  // ---------- Replays ----------

  /** Somebody earlier finished this key and body with this response. */
  ghost predicate WasKept(cfg: Config, s: State, key: nat, body: nat, response: nat) {
    exists i :: 0 <= i < |s.log| && s.log[i].key == key && s.log[i].body == body && s.log[i].response == response
  }

  /** Each logged response is small enough, and was handed in once, by a request for that key and body. */
  ghost predicate LogIsHonest(cfg: Config, s: State) {
    && (forall i :: 0 <= i < |s.log| ==> EntryIsHonest(cfg, s, s.log[i]))
    && (forall i, j :: 0 <= i < j < |s.log| ==> s.log[i].owner != s.log[j].owner)
  }

  predicate EntryIsHonest(cfg: Config, s: State, e: Kept) {
    && cfg.size(e.body, e.response) <= cfg.maxStored
    && e.owner < |s.clients| && s.clients[e.owner].key == e.key && s.clients[e.owner].body == e.body
    && (s.clients[e.owner].phase.Closed? || s.clients[e.owner].phase.Finishing?)
  }

  /** Everything a finished record could come from, or a replay was taken from, is in the log. */
  ghost predicate RecordsAreKept(cfg: Config, s: State) {
    && (forall slot :: slot in s.store && s.store[slot].rec.Done? ==>
          WasKept(cfg, s, slot.key, s.store[slot].rec.body, s.store[slot].rec.response))
    && (forall c :: 0 <= c < |s.clients| ==> ClientIsKept(cfg, s, c))
  }

  ghost predicate ClientIsKept(cfg: Config, s: State, c: nat)
    requires c < |s.clients|
  {
    var me := s.clients[c];
    match me.phase
    case Timing(_, Some(Done(body, response))) => WasKept(cfg, s, me.key, body, response)
    case Answered(Replay(response)) => WasKept(cfg, s, me.key, me.body, response)
    case Finishing(Some(response), _) => WasKept(cfg, s, me.key, me.body, response)
    case _ => true
  }

  lemma KeptGrows(cfg: Config, s: State, s': State, key: nat, body: nat, response: nat)
    requires WasKept(cfg, s, key, body, response) && s.log <= s'.log
    ensures WasKept(cfg, s', key, body, response)
  {
    var i :| 0 <= i < |s.log| && s.log[i].key == key && s.log[i].body == body && s.log[i].response == response;
    assert s'.log[i] == s.log[i];
  }

  /** Only finished records already there, or just logged, are in the new store; only client `c` moved. */
  lemma KeptAfter(cfg: Config, s: State, s': State, c: nat)
    requires RecordsAreKept(cfg, s) && s.log <= s'.log && c < |s'.clients| && |s.clients| <= |s'.clients|
    requires forall k {:trigger s'.clients[k]} :: 0 <= k < |s'.clients| && k != c ==> k < |s.clients| && s'.clients[k] == s.clients[k]
    requires ClientIsKept(cfg, s', c)
    requires forall slot :: slot in s'.store && s'.store[slot].rec.Done? ==>
               (slot in s.store && s'.store[slot] == s.store[slot])
               || WasKept(cfg, s', slot.key, s'.store[slot].rec.body, s'.store[slot].rec.response)
    ensures RecordsAreKept(cfg, s')
  {
    forall slot | slot in s'.store && s'.store[slot].rec.Done?
      ensures WasKept(cfg, s', slot.key, s'.store[slot].rec.body, s'.store[slot].rec.response)
    {
      if slot in s.store && s'.store[slot] == s.store[slot] {
        KeptGrows(cfg, s, s', slot.key, s'.store[slot].rec.body, s'.store[slot].rec.response);
      }
    }
    forall k | 0 <= k < |s'.clients| ensures ClientIsKept(cfg, s', k) {
      if k != c {
        ghost var me := s'.clients[k];
        assert k < |s.clients|;
        StillKept(cfg, s, s', k);
      }
    }
  }

  lemma StillKept(cfg: Config, s: State, s': State, k: nat)
    requires k < |s.clients| && k < |s'.clients| && s'.clients[k] == s.clients[k] && s.log <= s'.log
    requires ClientIsKept(cfg, s, k)
    ensures ClientIsKept(cfg, s', k)
  {
    var me := s.clients[k];
    match me.phase
    case Timing(_, Some(Done(body, response))) => KeptGrows(cfg, s, s', me.key, body, response);
    case Answered(Replay(response)) => KeptGrows(cfg, s, s', me.key, me.body, response);
    case Finishing(Some(response), _) => KeptGrows(cfg, s, s', me.key, me.body, response);
    case _ =>
  }

  lemma FinishKeeps(cfg: Config, s: State, c: nat, response: Option<nat>, fate: Fate)
    requires RecordsAreKept(cfg, s) && c < |s.clients| && s.clients[c].phase.Open?
    ensures RecordsAreKept(cfg, ApplyFinish(cfg, s, c, response, fate))
  {
    var s', me := ApplyFinish(cfg, s, c, response, fate), s.clients[c];
    var keep := ToKeep(cfg, me.body, response);
    if keep.Some? {
      assert s'.log[|s.log|] == Kept(me.key, me.body, c, keep.value);
      assert WasKept(cfg, s', me.key, me.body, keep.value);
    }
    KeptAfter(cfg, s, s', c);
  }

  lemma BeginLocalKeeps(cfg: Config, s: State, c: nat)
    requires RecordsAreKept(cfg, s) && c < |s.clients|
    ensures RecordsAreKept(cfg, ApplyBeginLocal(cfg, s, c))
  {
    var s', me := ApplyBeginLocal(cfg, s, c), s.clients[c];
    var slot := Slot(Own(me.inst), me.key);
    if slot in s.store && s.store[slot].rec.Done? {
      KeptGrows(cfg, s, s', me.key, s.store[slot].rec.body, s.store[slot].rec.response);
    }
    KeptAfter(cfg, s, s', c);
  }

  lemma SharedKeeps(cfg: Config, s: State, step: Step)
    requires RecordsAreKept(cfg, s) && Enabled(cfg, s, step)
    requires step.SetNx? || step.Get? || step.Pttl? || step.FinishLands?
    ensures RecordsAreKept(cfg, Apply(cfg, s, step))
  {
    var s', c := Apply(cfg, s, step), step.c;
    assert ClientIsKept(cfg, s, c);
    var slot := Mine(s, c);
    if slot in s.store && s.store[slot].rec.Done? {
      KeptGrows(cfg, s, s', slot.key, s.store[slot].rec.body, s.store[slot].rec.response);
    }
    match s.clients[c].phase {
      case Timing(_, Some(Done(body, response))) => KeptGrows(cfg, s, s', slot.key, body, response);
      case Finishing(Some(response), _) => KeptGrows(cfg, s, s', slot.key, s.clients[c].body, response);
      case _ =>
    }
    KeptAfter(cfg, s, s', c);
  }

  lemma StepKeepsRecords(cfg: Config, s: State, step: Step)
    requires RecordsAreKept(cfg, s) && Enabled(cfg, s, step)
    ensures RecordsAreKept(cfg, Apply(cfg, s, step)) && s.log <= Apply(cfg, s, step).log
  {
    var s' := Apply(cfg, s, step);
    match step
    case Arrive(_, _, _) => KeptAfter(cfg, s, s', |s.clients|);
    case SetNx(_, _) => SharedKeeps(cfg, s, step);
    case Get(_, _) => SharedKeeps(cfg, s, step);
    case Pttl(_, _) => SharedKeeps(cfg, s, step);
    case FinishLands(_) => SharedKeeps(cfg, s, step);
    case BeginLocal(c) => BeginLocalKeeps(cfg, s, c);
    case Finish(c, response, fate) => FinishKeeps(cfg, s, c, response, fate);
    case SetLost(c, _) => KeptAfter(cfg, s, s', c);
    case FinishVanishes(c) => KeptAfter(cfg, s, s', c);
    case StragglerLands(c) =>
      StillKeptAside(cfg, s, s', c);
      KeptAfter(cfg, s, s', c);
    case StragglerVanishes(c) =>
      StillKeptAside(cfg, s, s', c);
      KeptAfter(cfg, s, s', c);
    case Abandon(c) => KeptAfter(cfg, s, s', c);
    case Tick(_) => StillAll(cfg, s, s');
    case Evict(_) => StillAll(cfg, s, s');
  }

  lemma StillKeptAside(cfg: Config, s: State, s': State, c: nat)
    requires c < |s.clients| && c < |s'.clients| && s'.clients[c] == s.clients[c].(straggler := false) && s.log == s'.log
    requires ClientIsKept(cfg, s, c)
    ensures ClientIsKept(cfg, s', c)
  {
  }

  lemma StillAll(cfg: Config, s: State, s': State)
    requires RecordsAreKept(cfg, s) && s'.clients == s.clients && s'.log == s.log
    requires forall slot :: slot in s'.store ==> slot in s.store && s'.store[slot] == s.store[slot]
    ensures RecordsAreKept(cfg, s')
  {
    forall k | 0 <= k < |s'.clients| ensures ClientIsKept(cfg, s', k) {
      StillKept(cfg, s, s', k);
    }
  }

  /** Requests keep what they came with, and one that has finished stays so. */
  lemma ClientsGoOn(cfg: Config, s: State, step: Step, c: nat)
    requires Enabled(cfg, s, step) && c < |s.clients|
    ensures var s' := Apply(cfg, s, step);
            && c < |s'.clients| && s'.clients[c].key == s.clients[c].key && s'.clients[c].body == s.clients[c].body
            && (s.clients[c].phase.Closed? || s.clients[c].phase.Finishing?
                ==> s'.clients[c].phase.Closed? || s'.clients[c].phase.Finishing?)
  {
  }

  /** The log grows by what an open request hands in, and by nothing else. */
  lemma LogGrows(cfg: Config, s: State, step: Step)
    requires Enabled(cfg, s, step)
    ensures var s' := Apply(cfg, s, step);
            || s'.log == s.log
            || (&& step.Finish? && s.clients[step.c].phase.Open? && step.response.Some?
                && s'.log == s.log + [Kept(s.clients[step.c].key, s.clients[step.c].body, step.c, step.response.value)]
                && EntryIsHonest(cfg, s', s'.log[|s.log|]))
  {
  }

  lemma StepKeepsLog(cfg: Config, s: State, step: Step)
    requires LogIsHonest(cfg, s) && Enabled(cfg, s, step)
    ensures LogIsHonest(cfg, Apply(cfg, s, step))
  {
    var s' := Apply(cfg, s, step);
    LogGrows(cfg, s, step);
    forall i | 0 <= i < |s.log| ensures s.log[i] == s'.log[i] && EntryIsHonest(cfg, s', s.log[i]) {
      assert EntryIsHonest(cfg, s, s.log[i]);
      ClientsGoOn(cfg, s, step, s.log[i].owner);
    }
  }

  lemma {:induction false} RunKeepsRecords(cfg: Config, run: seq<State>, steps: seq<Step>, i: nat)
    requires IsRun(cfg, run, steps) && i < |run|
    ensures RecordsAreKept(cfg, run[i]) && LogIsHonest(cfg, run[i])
  {
    if i > 0 {
      RunKeepsRecords(cfg, run, steps, i - 1);
      StepKeepsRecords(cfg, run[i - 1], steps[i - 1]);
      StepKeepsLog(cfg, run[i - 1], steps[i - 1]);
    }
  }

  /**
   * A replayed response was handed in, earlier in the run, by another request with the same key and body that had
   * been let through; it is within the size limit. No response is ever replayed to a different body. This holds
   * with expiry, eviction, lost and late commands and fallback to the in-process store.
   */
  lemma ReplaysAreEarned(cfg: Config, run: seq<State>, steps: seq<Step>, i: nat, c: nat, response: nat)
    requires IsRun(cfg, run, steps) && i < |run| && c < |run[i].clients|
    requires run[i].clients[c].phase == Answered(Replay(response))
    ensures exists owner :: 0 <= owner < |run[i].clients| && owner != c
              && run[i].clients[owner].key == run[i].clients[c].key
              && run[i].clients[owner].body == run[i].clients[c].body
              && (run[i].clients[owner].phase.Closed? || run[i].clients[owner].phase.Finishing?)
              && Kept(run[i].clients[c].key, run[i].clients[c].body, owner, response) in run[i].log
    ensures cfg.size(run[i].clients[c].body, response) <= cfg.maxStored
  {
    RunKeepsRecords(cfg, run, steps, i);
    var s, me := run[i], run[i].clients[c];
    assert ClientIsKept(cfg, s, c);
    var n :| 0 <= n < |s.log| && s.log[n].key == me.key && s.log[n].body == me.body && s.log[n].response == response;
    assert EntryIsHonest(cfg, s, s.log[n]);
    assert s.log[n] == Kept(me.key, me.body, s.log[n].owner, response);
  }

  // ---------- One command ----------

  /** Whoever is let through found no live record in the store that let it through. */
  lemma ProceedsOnlyWhenFree(cfg: Config, s: State, step: Step, c: nat)
    requires Enabled(cfg, s, step) && c < |Apply(cfg, s, step).clients| && Apply(cfg, s, step).clients[c].phase.Open?
    ensures c < |s.clients|
    ensures !s.clients[c].phase.Open? ==>
      var place := Apply(cfg, s, step).clients[c].phase.place;
      var slot := Slot(place, s.clients[c].key);
      && Live(s.store, slot, s.now).None?
      && Apply(cfg, s, step).store == s.store[slot := Entry(Pending(s.clients[c].body, c), s.now + PendingTtl(cfg))]
  {
  }

  /** A release takes away nothing but the releaser's own pending record, and leaves every other slot alone. */
  lemma ReleaseTakesOnlyOwn(cfg: Config, s: State, c: nat, place: Place, slot: Slot)
    requires c < |s.clients| && slot in s.store
    ensures var s' := Settle(cfg, s, c, place, None);
            && (slot in s' ==> s'[slot] == s.store[slot])
            && (slot !in s' ==> s.store[slot].rec.Pending? && s.store[slot].rec.owner == c)
  {
  }
}
