/** Every step of the scheduler keeps the invariant. */
module SchedulerSteps {
  import opened Types
  import opened Pick
  import opened SchedulerModel
  import opened SchedulerInvariant

  // ---------- Frames ----------

  /** Model `m` sees no difference between the two records. */
  ghost predicate SameFor(recs: seq<Rec>, recs': seq<Rec>, m: nat) {
    && |recs| == |recs'|
    && forall g :: 0 <= g < |recs| ==>
         recs'[g].job == recs[g].job && (recs[g].job.model == m ==> recs'[g].stage == recs[g].stage)
  }

  lemma ModelFrame(recs: seq<Rec>, recs': seq<Rec>, m: nat, q: Model)
    requires ModelOk(recs, m, q) && SameFor(recs, recs', m)
    ensures ModelOk(recs', m, q)
  {
    TallySame(recs, recs', m, PermitsHeld);
    TallySame(recs, recs', m, TokensCounted);
  }

  /** A step that touches only model `m` and items of model `m`. */
  lemma OtherModels(s: State, s': State, m: nat)
    requires ModelsOk(s) && m < |s.models| && |s'.models| == |s.models|
    requires forall k :: 0 <= k < |s.models| && k != m ==> s'.models[k] == s.models[k] && SameFor(s.recs, s'.recs, k)
    requires ModelOk(s'.recs, m, s'.models[m])
    ensures ModelsOk(s')
  {
    forall k | 0 <= k < |s.models| && k != m ensures ModelOk(s'.recs, k, s'.models[k]) {
      ModelFrame(s.recs, s'.recs, k, s.models[k]);
    }
  }

  /** Items, entries and subscriptions keep their invariant when stages only move between registered ones. */
  ghost predicate MovesOnly(s: State, s': State) {
    && s'.subs == s.subs && s'.entries == s.entries && |s'.models| == |s.models|
    && s'.l1 == s.l1 && s'.evicted == s.evicted && s'.delivered == s.delivered
    && |s'.recs| == |s.recs|
    && forall g :: 0 <= g < |s.recs| ==> Moved(s.recs[g], s'.recs[g])
  }

  ghost predicate Moved(r: Rec, r': Rec) {
    && r'.job == r.job && r'.chan == r.chan
    && (r'.stage == r.stage
        || (r.stage.Queued? && (r'.stage.Buffered? || r'.stage.Doomed?))
        || (r.stage.Buffered? && (r'.stage.InBatch? || r'.stage.Doomed?))
        || (r.stage.InBatch? && r'.stage.Doomed?))
  }

  lemma MovesKeepItems(env: Env, s: State, s': State)
    requires RecsOk(env, s) && EntriesOk(s) && SubsOk(s) && ValuesOk(env, s) && MovesOnly(s, s')
    ensures RecsOk(env, s') && EntriesOk(s') && SubsOk(s') && ValuesOk(env, s')
  {
    forall g | 0 <= g < |s'.recs| ensures RecOk(env, s', s'.recs[g]) {
      assert Moved(s.recs[g], s'.recs[g]) && RecOk(env, s, s.recs[g]);
    }
    forall k | k in s'.entries ensures Registered(s'.recs[s'.entries[k]]) && s'.recs[s'.entries[k]].job.key == k {
      assert Moved(s.recs[s.entries[k]], s'.recs[s.entries[k]]);
    }
    forall u | u in s'.subs ensures SubOk(s', u) {
      assert SubOk(s, u) && Moved(s.recs[u.gen], s'.recs[u.gen]);
    }
    forall d | d in s'.delivered ensures DeliveryOk(env, s', d) {
      assert DeliveryOk(env, s, d);
    }
  }

  // ---------- Clients and environment ----------

  lemma ClientStep(env: Env, s: State, step: Step)
    requires Inv(env, s) && Enabled(env, s, step)
    requires step.Tick? || step.Abandon? || step.Receive? || step.Evict? || step.Promote?
    ensures Inv(env, Apply(env, s, step))
  {
    var s' := Apply(env, s, step);
    forall g | 0 <= g < |s'.recs| ensures RecOk(env, s', s'.recs[g]) {
      assert RecOk(env, s, s.recs[g]);
    }
    forall u | u in s'.subs ensures SubOk(s', u) {
      assert SubOk(s, u);
    }
    forall d | d in s'.delivered ensures DeliveryOk(env, s', d) {
      if d in s.delivered {
        assert DeliveryOk(env, s, d);
      } else {
        assert SubOk(s, step.sub) && RecOk(env, s, s.recs[step.sub.gen]);
      }
    }
    forall m | 0 <= m < |s'.models| ensures ModelOk(s'.recs, m, s'.models[m]) {
      assert ModelOk(s.recs, m, s.models[m]);
    }
    RawsKept(env, s, s');
  }

  // ---------- Single items ----------

  /** Items, entries and subscriptions after one item's record changes. */
  lemma OneItemChanged(env: Env, s: State, s': State, g: nat)
    requires RecsOk(env, s) && EntriesOk(s) && SubsOk(s)
    requires g < |s.recs| == |s'.recs| && s'.recs == s.recs[g := s'.recs[g]] && s'.recs[g].job == s.recs[g].job
    requires s'.subs == s.subs && |s'.models| == |s.models| && s.l1.Keys <= s'.l1.Keys
    requires forall k :: k in s.evicted ==> k in s'.evicted || k in s'.l1
    requires RecOk(env, s', s'.recs[g])
    requires Registered(s'.recs[g]) ==> Registered(s.recs[g])
    requires forall k :: k in s'.entries ==>
               k in s.entries && s'.entries[k] == s.entries[k] && (s.entries[k] == g ==> Registered(s'.recs[g]))
    requires forall k :: k in s.entries && k !in s'.entries ==> s.entries[k] == g && !Registered(s'.recs[g])
    ensures RecsOk(env, s') && EntriesOk(s') && SubsOk(s')
  {
    forall i | 0 <= i < |s'.recs| ensures RecOk(env, s', s'.recs[i]) {
      assert RecOk(env, s, s.recs[i]);
    }
    forall u | u in s'.subs ensures SubOk(s', u) {
      assert SubOk(s, u);
    }
  }

  /** The stages at which an item is on no list and in no batch. */
  predicate OffLists(st: Stage) {
    !st.Queued? && !st.Buffered? && !st.InBatch? && !st.Cached?
  }

  /** The item's own model after the item moves between stages that no list tracks. */
  lemma OneItemModel(recs: seq<Rec>, m: nat, q: Model, g: nat, r: Rec)
    requires ModelOk(recs, m, q) && g < |recs| && recs[g].job.model == m && r.job == recs[g].job
    requires OffLists(recs[g].stage) && OffLists(r.stage)
    requires recs[g].stage.Gone? ==> r.stage.Gone?
    ensures ModelOk(recs[g := r], m, q.(permits := q.permits + Weight(recs[g], m, PermitsHeld) - Weight(r, m, PermitsHeld),
                                        tokens := q.tokens + Weight(r, m, TokensCounted) - Weight(recs[g], m, TokensCounted)))
  {
    TallyUpdate(recs, g, r, m, PermitsHeld);
    TallyUpdate(recs, g, r, m, TokensCounted);
  }

  lemma DeliveriesKept(env: Env, s: State, s': State)
    requires ValuesOk(env, s) && s'.delivered == s.delivered
    requires forall k :: k in s'.l1 ==> s'.l1[k] == Answer(env, k)
    ensures ValuesOk(env, s')
  {
    forall d | d in s'.delivered ensures DeliveryOk(env, s', d) {
      assert DeliveryOk(env, s, d);
    }
  }

  lemma DropItems(env: Env, s: State, step: Step)
    requires RecsOk(env, s) && EntriesOk(s) && SubsOk(s) && ValuesOk(env, s) && Drops(step) && Enabled(env, s, step)
    ensures var s' := Apply(env, s, step);
            RecsOk(env, s') && EntriesOk(s') && SubsOk(s') && ValuesOk(env, s')
  {
    var s' := Apply(env, s, step);
    assert RecOk(env, s, s.recs[step.g]);
    OneItemChanged(env, s, s', step.g);
    DeliveriesKept(env, s, s');
  }

  lemma OneItemModels(s: State, s': State, g: nat, r: Rec)
    requires ModelsOk(s) && g < |s.recs| && s'.recs == s.recs[g := r] && r.job == s.recs[g].job
    requires OffLists(s.recs[g].stage) && OffLists(r.stage) && (s.recs[g].stage.Gone? ==> r.stage.Gone?)
    requires r.job.model < |s.models|
    requires var m := r.job.model; var q := s.models[m];
      s'.models == s.models[m :=
        q.(permits := q.permits + Weight(s.recs[g], m, PermitsHeld) - Weight(r, m, PermitsHeld),
           tokens := q.tokens + Weight(r, m, TokensCounted) - Weight(s.recs[g], m, TokensCounted))]
    ensures ModelsOk(s')
  {
    OneItemModel(s.recs, r.job.model, s.models[r.job.model], g, r);
    OtherModels(s, s', r.job.model);
  }

  lemma DropModels(env: Env, s: State, step: Step)
    requires ModelsOk(s) && Drops(step) && Enabled(env, s, step)
    ensures ModelsOk(Apply(env, s, step))
  {
    var s' := Apply(env, s, step);
    OneItemModels(s, s', step.g, s'.recs[step.g]);
  }

  lemma EnqueueItems(env: Env, s: State, g: nat)
    requires RecsOk(env, s) && EntriesOk(s) && SubsOk(s) && ValuesOk(env, s) && Enabled(env, s, Enqueue(g))
    ensures var s' := Apply(env, s, Enqueue(g));
            RecsOk(env, s') && EntriesOk(s') && SubsOk(s') && ValuesOk(env, s')
  {
    var s' := Apply(env, s, Enqueue(g));
    assert RecOk(env, s, s.recs[g]);
    OneItemChanged(env, s, s', g);
    DeliveriesKept(env, s, s');
  }

  lemma EnqueueModels(env: Env, s: State, g: nat)
    requires ModelsOk(s) && Enabled(env, s, Enqueue(g))
    ensures ModelsOk(Apply(env, s, Enqueue(g)))
  {
    var s' := Apply(env, s, Enqueue(g));
    var m := s.recs[g].job.model;
    var q := s.models[m];
    if q.open {
      QueuedModel(s.recs, m, q, g);
    } else {
      OneItemModel(s.recs, m, q, g, s'.recs[g]);
    }
    OtherModels(s, s', m);
  }

  lemma QueuedModel(recs: seq<Rec>, m: nat, q: Model, g: nat)
    requires ModelOk(recs, m, q) && g < |recs| && recs[g].job.model == m && recs[g].stage.Parked? && q.open
    ensures ModelOk(recs[g := recs[g].(stage := Queued)], m, q.(queue := q.queue + [g]))
  {
    var r := recs[g].(stage := Queued);
    TallyUpdate(recs, g, r, m, PermitsHeld);
    TallyUpdate(recs, g, r, m, TokensCounted);
  }

  // ---------- Batcher ----------

  predicate ChangesPhase(step: Step) {
    step.AcquireIdle? || step.StartScan? || step.ScanKeep? || step.ReleaseIdle? || step.CloseIdle?
  }

  predicate MovesItems(step: Step) {
    step.Collect? || step.ScanDrop? || step.Dispatch? || step.DispatchFails? || step.StopBatcher? || step.CloseQueue? || step.Flush?
  }

  lemma PhaseModel(recs: seq<Rec>, m: nat, q: Model, q': Model)
    requires ModelOk(recs, m, q) && HandshakeOk(q')
    requires q' == q.(phase := q'.phase, idle := q'.idle, idleClosed := q'.idleClosed)
    ensures ModelOk(recs, m, q')
  {
    forall g | 0 <= g < |recs| && recs[g].job.model == m && (recs[g].stage.InBatch? || recs[g].stage.Cached?)
      ensures ItemHeld(q', g, recs[g].stage)
    {
      assert ItemHeld(q, g, recs[g].stage);
    }
  }

  lemma PhaseModels(env: Env, s: State, step: Step)
    requires ModelsOk(s) && ChangesPhase(step) && Enabled(env, s, step)
    ensures ModelsOk(Apply(env, s, step))
  {
    var s' := Apply(env, s, step);
    assert HandshakeOk(s.models[step.m]);
    PhaseModel(s.recs, step.m, s.models[step.m], s'.models[step.m]);
    OtherModels(s, s', step.m);
  }

  lemma MovesModels(env: Env, s: State, step: Step)
    requires ModelsOk(s) && MovesItems(step) && Enabled(env, s, step)
    ensures ModelsOk(Apply(env, s, step))
  {
    var s' := Apply(env, s, step);
    MovesAreMoves(env, s, step);
    MovedModel(env, s, step);
    OtherModels(s, s', step.m);
  }

  lemma MovedModel(env: Env, s: State, step: Step)
    requires ModelsOk(s) && MovesItems(step) && Enabled(env, s, step)
    ensures var s' := Apply(env, s, step); ModelOk(s'.recs, step.m, s'.models[step.m])
  {
    var m := step.m;
    var q := s.models[m];
    assert ModelOk(s.recs, m, q);
    if step.Dispatch? || step.Flush? {
      BatchMovedModel(env, s, step);
    } else if step.Collect? || step.ScanDrop? {
      OneMovedModel(env, s, step);
    } else {
      AllMovedModel(env, s, step);
    }
  }

  lemma BatchMovedModel(env: Env, s: State, step: Step)
    requires (step.Dispatch? || step.Flush?) && Enabled(env, s, step) && ModelOk(s.recs, step.m, s.models[step.m])
    ensures var s' := Apply(env, s, step); ModelOk(s'.recs, step.m, s'.models[step.m])
  {
    if step.Dispatch? {
      DispatchModel(s.recs, step.m, s.models[step.m]);
    } else {
      FlushModel(s.recs, step.m, s.models[step.m]);
    }
  }

  lemma OneMovedModel(env: Env, s: State, step: Step)
    requires (step.Collect? || step.ScanDrop?) && Enabled(env, s, step) && ModelOk(s.recs, step.m, s.models[step.m])
    ensures var s' := Apply(env, s, step); ModelOk(s'.recs, step.m, s'.models[step.m])
  {
    if step.Collect? {
      CollectModel(s.recs, step.m, s.models[step.m]);
    } else {
      ScanDropModel(s.recs, step.m, s.models[step.m]);
    }
  }

  lemma AllMovedModel(env: Env, s: State, step: Step)
    requires (step.StopBatcher? || step.DispatchFails? || step.CloseQueue?) && Enabled(env, s, step)
    requires ModelOk(s.recs, step.m, s.models[step.m])
    ensures var s' := Apply(env, s, step); ModelOk(s'.recs, step.m, s'.models[step.m])
  {
    if step.CloseQueue? {
      CloseModel(s.recs, step.m, s.models[step.m]);
    } else {
      StopMovedModel(env, s, step);
    }
  }

  lemma StopMovedModel(env: Env, s: State, step: Step)
    requires (step.StopBatcher? || step.DispatchFails?) && Enabled(env, s, step) && ModelOk(s.recs, step.m, s.models[step.m])
    ensures var s' := Apply(env, s, step); ModelOk(s'.recs, step.m, s'.models[step.m])
  {
    var q := s.models[step.m];
    StopModel(s.recs, step.m, q, if step.StopBatcher? then q.idle else q.idle + 1);
  }

  /** The receiver's end drops a batch nobody took. */
  lemma FlushModel(recs: seq<Rec>, m: nat, q: Model)
    requires ModelOk(recs, m, q) && q.taken < |q.sent| && !HasThread(q)
    ensures ModelOk(DropBatch(recs, m, q.taken), m, q.(taken := q.taken + 1, idle := q.idle + 1))
  {
    var recs' := DropBatch(recs, m, q.taken);
    TallySame(recs, recs', m, PermitsHeld);
    TallySame(recs, recs', m, TokensCounted);
    var q' := q.(taken := q.taken + 1, idle := q.idle + 1);
    forall g | 0 <= g < |recs'| && recs'[g].job.model == m && (recs'[g].stage.InBatch? || recs'[g].stage.Cached?)
      ensures ItemHeld(q', g, recs'[g].stage)
    {
      assert ItemHeld(q, g, recs[g].stage);
    }
  }

  /** The items a batcher step marks, where it takes them to, and the list they come from. */
  function Marked(s: State, step: Step): (seq<nat>, Stage, seq<nat>, Stage)
    requires MovesItems(step) && !step.Flush? && step.m < |s.models|
    requires step.Collect? ==> s.models[step.m].queue != []
    requires step.ScanDrop? ==> s.models[step.m].phase.Scanning? && s.models[step.m].phase.next < |s.models[step.m].buf|
    requires step.Dispatch? ==> s.models[step.m].buf != []
  {
    var q := s.models[step.m];
    match step
    case Collect(_) => ([q.queue[0]], Buffered, q.queue, Queued)
    case ScanDrop(_) => ([q.buf[q.phase.next]], Doomed, q.buf, Buffered)
    case Dispatch(_) => (NextBatch(s.recs, q).0, InBatch(|q.sent|), q.buf, Buffered)
    case CloseQueue(_) => (q.queue, Doomed, q.queue, Queued)
    case _ => (q.buf, Doomed, q.buf, Buffered)
  }

  lemma MarksItems(env: Env, s: State, step: Step)
    requires MovesItems(step) && !step.Flush? && Enabled(env, s, step)
    ensures var s' := Apply(env, s, step);
            && s' == s.(recs := Mark(s.recs, Marked(s, step).0, Marked(s, step).1), models := s'.models)
            && |s'.models| == |s.models|
  {
  }

  /** The items a batcher step moves come from its own lists. */
  lemma MovesAreMoves(env: Env, s: State, step: Step)
    requires ModelsOk(s) && MovesItems(step) && Enabled(env, s, step)
    ensures var s' := Apply(env, s, step);
            && MovesOnly(s, s')
            && forall k :: k != step.m ==> SameFor(s.recs, s'.recs, k)
  {
    var q := s.models[step.m];
    assert ModelOk(s.recs, step.m, q);
    assert Lists(s.recs, step.m, q.queue, Queued) && Lists(s.recs, step.m, q.buf, Buffered);
    if step.Flush? {
      FlushMoves(env, s, step.m);
    } else {
      MarksItems(env, s, step);
      if step.Dispatch? {
        NextBatchDivides(s.recs, q);
      }
      var (gs, to, list, st) := Marked(s, step);
      MarkedMove(s.recs, step.m, list, st, gs, to);
    }
  }

  lemma FlushMoves(env: Env, s: State, m: nat)
    requires Enabled(env, s, Flush(m))
    ensures var s' := Apply(env, s, Flush(m));
            && MovesOnly(s, s')
            && forall k :: k != m ==> SameFor(s.recs, s'.recs, k)
  {
  }

  lemma MarkedMove(recs: seq<Rec>, m: nat, list: seq<nat>, st: Stage, gs: seq<nat>, to: Stage)
    requires Lists(recs, m, list, st) && forall g :: g in gs ==> g in list
    requires (st.Queued? && (to.Buffered? || to.Doomed?)) || (st.Buffered? && (to.InBatch? || to.Doomed?))
    ensures forall g :: 0 <= g < |recs| ==> Moved(recs[g], Mark(recs, gs, to)[g])
    ensures forall k :: k != m ==> SameFor(recs, Mark(recs, gs, to), k)
  {
  }

  /** Marking items leaves both tallies alone while they stay outstanding with their tokens counted. */
  lemma MarkTallies(recs: seq<Rec>, gs: seq<nat>, st: Stage, m: nat)
    requires forall i :: 0 <= i < |gs| ==> gs[i] < |recs| && (recs[gs[i]].stage.Queued? || recs[gs[i]].stage.Buffered?)
    requires st.Buffered? || st.InBatch? || st.Doomed?
    ensures Tally(Mark(recs, gs, st), m, PermitsHeld) == Tally(recs, m, PermitsHeld)
    ensures Tally(Mark(recs, gs, st), m, TokensCounted) == Tally(recs, m, TokensCounted)
  {
    TallySame(recs, Mark(recs, gs, st), m, PermitsHeld);
    TallySame(recs, Mark(recs, gs, st), m, TokensCounted);
  }

  lemma CollectModel(recs: seq<Rec>, m: nat, q: Model)
    requires ModelOk(recs, m, q) && q.phase.Collecting? && q.queue != []
    ensures ModelOk(Mark(recs, [q.queue[0]], Buffered), m, q.(queue := q.queue[1..], buf := q.buf + [q.queue[0]]))
  {
    var g, q' := q.queue[0], q.(queue := q.queue[1..], buf := q.buf + [q.queue[0]]);
    MarkTallies(recs, [g], Buffered, m);
    MovesOne(recs, m, q.queue, q.buf);
    BatchesElsewhere(recs, m, q, q', [g], Buffered);
  }

  /** The oldest queued item goes to the end of the buffer. */
  lemma MovesOne(recs: seq<Rec>, m: nat, queue: seq<nat>, buf: seq<nat>)
    requires Lists(recs, m, queue, Queued) && Lists(recs, m, buf, Buffered) && queue != []
    ensures Lists(Mark(recs, [queue[0]], Buffered), m, queue[1..], Queued)
    ensures Lists(Mark(recs, [queue[0]], Buffered), m, buf + [queue[0]], Buffered)
  {
    var g := queue[0];
    var recs' := Mark(recs, [g], Buffered);
    forall i | 0 <= i < |recs'| && recs'[i].job.model == m && recs'[i].stage == Queued ensures i in queue[1..] {
      assert i in queue && i != g;
    }
    var buf' := buf + [g];
    forall i | 0 <= i < |recs'| && recs'[i].job.model == m && recs'[i].stage == Buffered ensures i in buf' {
      assert i == g || i in buf;
    }
  }

  lemma ScanDropModel(recs: seq<Rec>, m: nat, q: Model)
    requires ModelOk(recs, m, q) && q.phase.Scanning? && q.phase.next < |q.buf|
    ensures var i := q.phase.next;
            ModelOk(Mark(recs, [q.buf[i]], Doomed), m, q.(buf := q.buf[..i] + q.buf[i + 1..]))
  {
    var i := q.phase.next;
    var g := q.buf[i];
    MarkTallies(recs, [g], Doomed, m);
    WithoutOne(recs, m, q.buf, i);
    ListElsewhere(recs, m, q.queue, Queued, [g], Doomed);
    BatchesElsewhere(recs, m, q, q.(buf := q.buf[..i] + q.buf[i + 1..]), [g], Doomed);
  }

  lemma WithoutOne(recs: seq<Rec>, m: nat, buf: seq<nat>, i: nat)
    requires Lists(recs, m, buf, Buffered) && i < |buf|
    ensures Lists(Mark(recs, [buf[i]], Doomed), m, buf[..i] + buf[i + 1..], Buffered)
  {
    var recs', buf' := Mark(recs, [buf[i]], Doomed), buf[..i] + buf[i + 1..];
    forall j | 0 <= j < |recs'| && recs'[j].job.model == m && recs'[j].stage == Buffered ensures j in buf' {
      assert j in buf && j != buf[i];
      var k :| 0 <= k < |buf| && buf[k] == j;
      assert j == buf'[if k < i then k else k - 1];
    }
  }

  /** A list whose items are not marked stays a list. */
  lemma ListElsewhere(recs: seq<Rec>, m: nat, list: seq<nat>, st: Stage, gs: seq<nat>, to: Stage)
    requires Lists(recs, m, list, st) && to != st
    requires forall i :: 0 <= i < |gs| ==> gs[i] < |recs| && recs[gs[i]].stage != st
    ensures Lists(Mark(recs, gs, to), m, list, st)
  {
  }

  /** Batches are unaffected when waiting items are marked as something other than dispatched. */
  lemma BatchesElsewhere(recs: seq<Rec>, m: nat, q: Model, q': Model, gs: seq<nat>, to: Stage)
    requires BatchesOk(recs, m, q) && !to.InBatch? && !to.Cached?
    requires q'.sent == q.sent && q'.taken == q.taken && q'.workers == q.workers
    ensures BatchesOk(Mark(recs, gs, to), m, q')
  {
    var recs' := Mark(recs, gs, to);
    forall g | 0 <= g < |recs'| && recs'[g].job.model == m && (recs'[g].stage.InBatch? || recs'[g].stage.Cached?)
      ensures ItemHeld(q', g, recs'[g].stage)
    {
      assert ItemHeld(q, g, recs[g].stage);
    }
  }

  /** The batcher ends: because the idle semaphore is closed, or because a dispatch found nobody to receive it. */
  lemma StopModel(recs: seq<Rec>, m: nat, q: Model, idle: int)
    requires ModelOk(recs, m, q)
    requires if idle == q.idle then q.phase.AwaitIdle? && q.idleClosed
             else idle == q.idle + 1 && q.phase.Scanning? && !HasThread(q)
    ensures ModelOk(Mark(recs, q.buf, Doomed), m, q.(buf := [], phase := Stopped, idle := idle))
  {
    MarkTallies(recs, q.buf, Doomed, m);
  }

  lemma CloseModel(recs: seq<Rec>, m: nat, q: Model)
    requires ModelOk(recs, m, q) && q.phase.Stopped? && q.open
    ensures ModelOk(Mark(recs, q.queue, Doomed), m, q.(queue := [], open := false))
  {
    MarkTallies(recs, q.queue, Doomed, m);
  }

  /** A batch and what it leaves behind divide the buffer, without repeats. */
  lemma NextBatchDivides(recs: seq<Rec>, q: Model)
    requires q.buf != [] && NoDup(q.buf)
    ensures var (batch, left) := NextBatch(recs, q);
            && (forall g :: g in q.buf <==> g in batch || g in left)
            && (forall g :: g in batch ==> g !in left)
            && NoDup(left) && batch[0] == q.buf[0]
  {
    var first: nat, rest: seq<nat> := q.buf[0], q.buf[1..];
    var c := Chosen(ItemLen(recs, first), LineLens(recs, rest), q.limits.maxItems, q.limits.maxTokens);
    var (batch, left) := NextBatch(recs, q);
    SplitIsPartition(rest, c, 0);
    assert rest[0..] == rest && q.buf == [first] + rest;
    NoDupCounts(rest);
    assert batch == [first] + Followers(rest, c);
    assert batch[1..] == Followers(rest, c);
    forall g: nat ensures (g in rest <==> g in batch[1..] || g in left) && !(g in batch[1..] && g in left) {
      assert multiset(rest)[g] == multiset(batch[1..])[g] + multiset(left)[g];
    }
    forall g: nat ensures multiset(left)[g] <= 1 {
      assert multiset(rest)[g] == multiset(batch[1..])[g] + multiset(left)[g];
    }
    CountsNoDup(left);
    forall g ensures g in batch <==> g == first || g in batch[1..] {
    }
    forall k | 0 <= k < |rest| ensures rest[k] != first {
      assert rest[k] == q.buf[k + 1];
    }
  }

  lemma {:induction false} NoDupCounts(s: seq<nat>)
    requires NoDup(s)
    ensures forall g: nat :: multiset(s)[g] <= 1
  {
    if s != [] {
      var s', x := s[..|s| - 1], s[|s| - 1];
      assert s == s' + [x];
      NoDupCounts(s');
      assert x !in s';
    }
  }

  lemma CountsNoDup(s: seq<nat>)
    requires forall g: nat :: multiset(s)[g] <= 1
    ensures NoDup(s)
  {
    forall i, j | 0 <= i < j < |s| ensures s[i] != s[j] {
      assert s == s[..i] + [s[i]] + s[i + 1..j] + [s[j]] + s[j + 1..];
      assert multiset(s) == multiset(s[..i]) + multiset{s[i]} + multiset(s[i + 1..j]) + multiset{s[j]} + multiset(s[j + 1..]);
      assert multiset(s)[s[i]] <= 1;
    }
  }

  lemma DispatchModel(recs: seq<Rec>, m: nat, q: Model)
    requires ModelOk(recs, m, q) && q.phase.Scanning? && q.buf != []
    ensures var (batch, left) := NextBatch(recs, q);
            ModelOk(Mark(recs, batch, InBatch(|q.sent|)), m, q.(buf := left, sent := q.sent + [batch], phase := AwaitIdle))
  {
    var (batch, left) := NextBatch(recs, q);
    NextBatchDivides(recs, q);
    forall i | 0 <= i < |batch| ensures batch[i] in q.buf {
      assert batch[i] in batch;
    }
    forall i | 0 <= i < |left| ensures left[i] in q.buf && left[i] !in batch {
      assert left[i] in left;
    }
    MarkTallies(recs, batch, InBatch(|q.sent|), m);
    DispatchBatches(recs, m, q, batch, left);
  }

  lemma DispatchBatches(recs: seq<Rec>, m: nat, q: Model, batch: seq<nat>, left: seq<nat>)
    requires BatchesOk(recs, m, q)
    ensures BatchesOk(Mark(recs, batch, InBatch(|q.sent|)), m, q.(buf := left, sent := q.sent + [batch], phase := AwaitIdle))
  {
    var recs' := Mark(recs, batch, InBatch(|q.sent|));
    var q' := q.(buf := left, sent := q.sent + [batch], phase := AwaitIdle);
    forall g | 0 <= g < |recs'| && recs'[g].job.model == m && (recs'[g].stage.InBatch? || recs'[g].stage.Cached?)
      ensures ItemHeld(q', g, recs'[g].stage)
    {
      if g !in batch {
        assert ItemHeld(q, g, recs[g].stage);
      }
    }
  }

  // ---------- Workers ----------

  predicate WorkerStep(step: Step) {
    step.TakeBatch? || step.FinishRun? || step.EndBatch? || step.Rebuild? || step.RebuildPanics?
  }

  /** A change of one worker keeps every dispatched item held. */
  lemma WorkerModel(recs: seq<Rec>, m: nat, q: Model, q': Model, w: nat)
    requires ModelOk(recs, m, q) && HandshakeOk(q') && WorkerMove(recs, m, q, q', w)
    ensures ModelOk(recs, m, q')
  {
    forall g | 0 <= g < |recs| && recs[g].job.model == m && (recs[g].stage.InBatch? || recs[g].stage.Cached?)
      ensures ItemHeld(q', g, recs[g].stage)
    {
      HeldAfter(recs, m, q, q', w, g);
    }
  }

  lemma HeldAfter(recs: seq<Rec>, m: nat, q: Model, q': Model, w: nat, g: nat)
    requires BatchesOk(recs, m, q) && WorkerMove(recs, m, q, q', w)
    requires g < |recs| && recs[g].job.model == m && (recs[g].stage.InBatch? || recs[g].stage.Cached?)
    ensures ItemHeld(q', g, recs[g].stage)
  {
    var st := recs[g].stage;
    assert ItemHeld(q, g, st);
    if st.batch < q.taken {
      var v :| 0 <= v < |q.workers| && HoldsBatch(q.workers[v], st.batch);
      assert v != w ==> q'.workers[v] == q.workers[v];
      assert HoldsBatch(q'.workers[v], st.batch);
    } else if st.batch < q'.taken {
      assert HoldsBatch(q'.workers[w], st.batch);
    }
    if st.Cached? {
      var v :| 0 <= v < |q.workers| && DeliversOutputs(q.workers[v], st.batch);
      assert v != w ==> q'.workers[v] == q.workers[v];
      assert DeliversOutputs(q'.workers[v], st.batch);
    }
  }

  /** The handshake survives a worker change that balances idle permits, dispatches and live workers. */
  lemma WorkerHandshake(recs: seq<Rec>, m: nat, q: Model, q': Model, w: nat)
    requires HandshakeOk(q) && WorkerMove(recs, m, q, q', w)
    ensures HandshakeOk(q')
  {
    CountsUpdate(q.workers, w, q'.workers[w]);
    assert forall v :: 0 <= v < |q.workers| && Alive(q'.workers[v]) ==> Alive(q.workers[v]);
  }

  /** What a worker step does to its model: the worker's next state and a balanced change of counters. */
  ghost predicate WorkerMove(recs: seq<Rec>, m: nat, q: Model, q': Model, w: nat) {
    && w < |q.workers| == |q'.workers|
    && q' == WithWorker(q, w, q'.workers[w]).(taken := q'.taken, idle := q'.idle, live := q'.live, spt := q'.spt)
    && q.taken <= q'.taken <= |q.sent| && q.idle <= q'.idle && q'.live <= q.live
    && q'.live - q.live == (if q'.workers[w].Retired? then 0 else 1) - (if q.workers[w].Retired? then 0 else 1)
    && q'.idle - q'.taken + (if Busy(q'.workers[w]) then 1 else 0) - q'.live
       == q.idle - q.taken + (if Busy(q.workers[w]) then 1 else 0) - q.live
    && (Holding(q'.workers[w]) ==>
          if Holding(q.workers[w]) then q'.taken == q.taken && q'.workers[w].batch == q.workers[w].batch
          else q'.taken == q.taken + 1 && q'.workers[w].batch == q.taken)
    && (!Holding(q'.workers[w]) ==> q'.taken == q.taken)
    && (Holding(q.workers[w]) && !Holding(q'.workers[w]) ==> BatchEmpty(recs, m, q.workers[w].batch))
    && (q.workers[w].Delivering? ==> !Holding(q'.workers[w]))
    && (q.spt >= 0.0 ==> q'.spt >= 0.0)
    && (Alive(q'.workers[w]) ==> Alive(q.workers[w]))
  }

  /** Replacing one worker's state in a balanced way. */
  lemma PutWorker(s: State, m: nat, q': Model, w: nat)
    requires ModelsOk(s) && m < |s.models| && WorkerMove(s.recs, m, s.models[m], q', w)
    ensures ModelsOk(Put(s, m, q'))
  {
    MovedWorkerModel(s.recs, m, s.models[m], q', w);
    OtherModels(s, Put(s, m, q'), m);
  }

  /** The model after a worker step. */
  function AfterWorker(env: Env, s: State, step: Step): Model
    requires WorkerStep(step) && Enabled(env, s, step)
  {
    Apply(env, s, step).models[step.m]
  }

  lemma TakeMoves(env: Env, s: State, step: Step)
    requires (step.TakeBatch? || step.FinishRun?) && Enabled(env, s, step)
    requires s.models[step.m].taken <= |s.models[step.m].sent|
    ensures WorkerMove(s.recs, step.m, s.models[step.m], AfterWorker(env, s, step), step.w)
  {
  }

  lemma EndMoves(env: Env, s: State, step: Step)
    requires (step.EndBatch? || step.Rebuild? || step.RebuildPanics?) && Enabled(env, s, step)
    requires s.models[step.m].taken <= |s.models[step.m].sent|
    ensures WorkerMove(s.recs, step.m, s.models[step.m], AfterWorker(env, s, step), step.w)
  {
    if step.EndBatch? {
      BatchEndMoves(env, s, step);
    } else {
      RebuildMoves(env, s, step);
    }
  }

  lemma BatchEndMoves(env: Env, s: State, step: Step)
    requires step.EndBatch? && Enabled(env, s, step) && s.models[step.m].taken <= |s.models[step.m].sent|
    ensures WorkerMove(s.recs, step.m, s.models[step.m], AfterWorker(env, s, step), step.w)
  {
  }

  lemma RebuildMoves(env: Env, s: State, step: Step)
    requires (step.Rebuild? || step.RebuildPanics?) && Enabled(env, s, step)
    requires s.models[step.m].taken <= |s.models[step.m].sent|
    ensures WorkerMove(s.recs, step.m, s.models[step.m], AfterWorker(env, s, step), step.w)
  {
  }

  lemma WorkerModels(env: Env, s: State, step: Step)
    requires ModelsOk(s) && WorkerStep(step) && Enabled(env, s, step)
    ensures ModelsOk(Apply(env, s, step))
  {
    var q' := AfterWorker(env, s, step);
    assert ModelOk(s.recs, step.m, s.models[step.m]);
    if step.TakeBatch? || step.FinishRun? {
      TakeMoves(env, s, step);
    } else {
      EndMoves(env, s, step);
    }
    PutWorker(s, step.m, q', step.w);
    assert Apply(env, s, step) == Put(s, step.m, q');
  }

  lemma MovedWorkerModel(recs: seq<Rec>, m: nat, q: Model, q': Model, w: nat)
    requires ModelOk(recs, m, q) && WorkerMove(recs, m, q, q', w)
    ensures ModelOk(recs, m, q')
  {
    WorkerHandshake(recs, m, q, q', w);
    WorkerModel(recs, m, q, q', w);
  }

  /** The output at an item's position is the answer for its key. */
  lemma OutputIsRight(env: Env, s: State, m: nat, w: nat, i: nat)
    requires RecsOk(env, s) && RawsOk(env, s) && Delivers(s, m, w, i) && OutputAt(s.models[m].workers[w], i).Some?
    ensures OutputAt(s.models[m].workers[w], i).value == Answer(env, s.recs[ItemAt(s, m, w, i)].job.key)
  {
    var g := ItemAt(s, m, w, i);
    assert RecOk(env, s, s.recs[g]);
    assert WorkerRawsOk(env, s.recs, m, s.models[m], s.models[m].workers[w]);
  }

  lemma DeliveryItems(env: Env, s: State, step: Step)
    requires Inv(env, s) && DeliveryStep(step) && Enabled(env, s, step)
    ensures var s' := Apply(env, s, step);
            RecsOk(env, s') && EntriesOk(s') && SubsOk(s') && ValuesOk(env, s')
  {
    if step.PutL1? {
      CachedItems(env, s, step);
    } else {
      SentItems(env, s, step);
    }
  }

  lemma CachedItems(env: Env, s: State, step: Step)
    requires Inv(env, s) && step.PutL1? && Enabled(env, s, step)
    ensures var s' := Apply(env, s, step);
            RecsOk(env, s') && EntriesOk(s') && SubsOk(s') && ValuesOk(env, s')
  {
    var s', g := Apply(env, s, step), ItemAt(s, step.m, step.w, step.i);
    assert RecOk(env, s, s.recs[g]);
    OutputIsRight(env, s, step.m, step.w, step.i);
    OneItemChanged(env, s, s', g);
    DeliveriesKept(env, s, s');
  }

  lemma SentItems(env: Env, s: State, step: Step)
    requires Inv(env, s) && (step.SendOk? || step.SendErr?) && Enabled(env, s, step)
    ensures var s' := Apply(env, s, step);
            RecsOk(env, s') && EntriesOk(s') && SubsOk(s') && ValuesOk(env, s')
  {
    var g := ItemAt(s, step.m, step.w, step.i);
    if step.SendOk? {
      OutputIsRight(env, s, step.m, step.w, step.i);
      AnsweredItems(env, s, g, Done(OutputAt(s.models[step.m].workers[step.w], step.i).value));
    } else {
      AnsweredItems(env, s, g, Failed(s.models[step.m].workers[step.w].result.msg));
    }
  }

  /** An item gets its outcome: a right value that is already cached, or a failure. */
  lemma AnsweredItems(env: Env, s: State, g: nat, outcome: Outcome)
    requires Inv(env, s) && g < |s.recs| && (s.recs[g].stage.InBatch? || s.recs[g].stage.Cached?)
    requires outcome.Done? ==> s.recs[g].stage.Cached? && outcome.raw == Answer(env, s.recs[g].job.key)
    ensures var s' := Answered(s, g, outcome);
            RecsOk(env, s') && EntriesOk(s') && SubsOk(s') && ValuesOk(env, s')
  {
    var s' := Answered(s, g, outcome);
    assert RecOk(env, s, s.recs[g]);
    OneItemChanged(env, s, s', g);
    DeliveriesKept(env, s, s');
  }

  /** An item leaving its batch, or being cached while its worker delivers outputs. */
  lemma DeliveredModel(recs: seq<Rec>, m: nat, q: Model, g: nat, r: Rec)
    requires ModelOk(recs, m, q) && g < |recs| && recs[g].job.model == m && r.job == recs[g].job
    requires recs[g].stage.InBatch? || recs[g].stage.Cached?
    requires r.stage.Doomed? || (r.stage == Cached(recs[g].stage.batch)
               && exists w :: 0 <= w < |q.workers| && DeliversOutputs(q.workers[w], recs[g].stage.batch))
    ensures ModelOk(recs[g := r], m, q)
  {
    TallyUpdate(recs, g, r, m, PermitsHeld);
    TallyUpdate(recs, g, r, m, TokensCounted);
    assert ItemHeld(q, g, recs[g].stage);
    var recs' := recs[g := r];
    forall i | 0 <= i < |recs'| && recs'[i].job.model == m && (recs'[i].stage.InBatch? || recs'[i].stage.Cached?)
      ensures ItemHeld(q, i, recs'[i].stage)
    {
      assert ItemHeld(q, i, recs[i].stage);
    }
  }

  lemma DeliveryModels(env: Env, s: State, step: Step)
    requires ModelsOk(s) && DeliveryStep(step) && Enabled(env, s, step)
    ensures ModelsOk(Apply(env, s, step))
  {
    var s' := Apply(env, s, step);
    var m, g := step.m, ItemAt(s, step.m, step.w, step.i);
    assert step.PutL1? ==> DeliversOutputs(s.models[m].workers[step.w], s.recs[g].stage.batch);
    DeliveredModel(s.recs, m, s.models[m], g, s'.recs[g]);
    OtherModels(s, s', m);
  }

  // ---------- Admission ----------

  lemma RaiseKeeps(env: Env, s: State, keys: set<Key>, deadline: nat)
    requires Inv(env, s)
    ensures Inv(env, RaiseDeadlines(s, keys, deadline))
  {
    var s' := RaiseDeadlines(s, keys, deadline);
    forall g | 0 <= g < |s'.recs| ensures RecOk(env, s', s'.recs[g]) {
      assert RecOk(env, s, s.recs[g]);
    }
    forall u | u in s'.subs ensures SubOk(s', u) {
      assert SubOk(s, u);
    }
    DeliveriesKept(env, s, s');
    forall m | 0 <= m < |s'.models| ensures ModelOk(s'.recs, m, s'.models[m]) {
      ModelFrame(s.recs, s'.recs, m, s.models[m]);
    }
    RawsKept(env, s, s');
  }

  lemma JoinKeeps(env: Env, s: State, c: nat, keys: set<Key>)
    requires Inv(env, s)
    ensures Inv(env, s.(subs := s.subs + JoinSubs(s, c, keys)))
  {
    var s' := s.(subs := s.subs + JoinSubs(s, c, keys));
    forall g | 0 <= g < |s'.recs| ensures RecOk(env, s', s'.recs[g]) {
      assert RecOk(env, s, s.recs[g]);
    }
    forall u | u in s'.subs ensures SubOk(s', u) {
      assert u in s.subs ==> SubOk(s, u);
    }
    DeliveriesKept(env, s, s');
    RawsKept(env, s, s');
  }

  /** One more item of model `m`, still parked. */
  lemma RegisterModel(recs: seq<Rec>, k: nat, q: Model, r: Rec)
    requires ModelOk(recs, k, q) && r.stage.Parked? && (r.job.model == k ==> q.permits > 0)
    ensures ModelOk(recs + [r], k,
              if r.job.model == k then q.(permits := q.permits - 1, tokens := q.tokens + |r.job.enc.ids|) else q)
  {
    TallyAppend(recs, r, k, PermitsHeld);
    TallyAppend(recs, r, k, TokensCounted);
    forall g | 0 <= g < |recs| && recs[g].job.model == k && (recs[g].stage.InBatch? || recs[g].stage.Cached?)
      ensures ItemHeld(q, g, recs[g].stage)
    {
    }
  }

  lemma RegisterKeeps(env: Env, s: State, c: nat, deadline: nat, job: Job)
    requires Inv(env, s) && job.model < |s.models| && JobOk(env, job) && !Joinable(s, job.key)
    requires s.models[job.model].permits > 0
    ensures Inv(env, Register(s, c, deadline, job))
  {
    var s' := Register(s, c, deadline, job);
    forall g | 0 <= g < |s'.recs| ensures RecOk(env, s', s'.recs[g]) {
      assert g < |s.recs| ==> RecOk(env, s, s.recs[g]);
    }
    forall u | u in s'.subs ensures SubOk(s', u) {
      if u in s.subs {
        assert SubOk(s, u);
        assert HasSub(s.subs, u.gen);
      }
    }
    DeliveriesKept(env, s, s');
    RegisterKeepsModels(s, c, deadline, job);
    RawsKept(env, s, s');
  }

  lemma RegisterKeepsModels(s: State, c: nat, deadline: nat, job: Job)
    requires ModelsOk(s) && job.model < |s.models| && s.models[job.model].permits > 0
    ensures ModelsOk(Register(s, c, deadline, job))
  {
    var s' := Register(s, c, deadline, job);
    forall m | 0 <= m < |s'.models| ensures ModelOk(s'.recs, m, s'.models[m]) {
      RegisterModel(s.recs, m, s.models[m], s'.recs[|s.recs|]);
    }
  }

  /** New items are a duplicate-free part of the request, none of which could join. */
  lemma {:induction false} FreshIsNovel(s: State, jobs: seq<Job>)
    requires UniqueKeys(jobs)
    ensures var novel := Fresh(s, jobs);
            && UniqueKeys(novel)
            && forall j :: j in novel <==> j in jobs && !Joinable(s, j.key)
  {
    if jobs != [] {
      var init, last := jobs[..|jobs| - 1], jobs[|jobs| - 1];
      FreshIsNovel(s, init);
      assert jobs == init + [last];
      forall i | 0 <= i < |Fresh(s, init)| ensures Fresh(s, init)[i].key != last.key {
        assert Fresh(s, init)[i] in init;
      }
    }
  }

  ghost predicate CanRegister(env: Env, s: State, job: Job) {
    job.model < |s.models| && JobOk(env, job) && !Joinable(s, job.key)
  }

  lemma {:induction false} RegisterAllKeeps(env: Env, s: State, c: nat, deadline: nat, jobs: seq<Job>)
    requires Inv(env, s) && UniqueKeys(jobs) && forall j :: j in jobs ==> CanRegister(env, s, j)
    requires forall m :: 0 <= m < |s.models| ==> CountFor(jobs, m) <= s.models[m].permits
    ensures var s' := RegisterAll(s, c, deadline, jobs);
            && Inv(env, s') && |s'.models| == |s.models|
            && (forall m :: 0 <= m < |s.models| ==> s'.models[m].permits == s.models[m].permits - CountFor(jobs, m))
            && (forall k :: !Joinable(s, k) && (forall i :: 0 <= i < |jobs| ==> jobs[i].key != k) ==> !Joinable(s', k))
  {
    if jobs != [] {
      var init, last := jobs[..|jobs| - 1], jobs[|jobs| - 1];
      assert jobs == init + [last];
      forall m | 0 <= m < |s.models| ensures CountFor(init, m) <= s.models[m].permits {
        assert CountFor(init, m) <= CountFor(jobs, m);
      }
      RegisterAllKeeps(env, s, c, deadline, init);
      var s1 := RegisterAll(s, c, deadline, init);
      assert CanRegister(env, s, last);
      assert CountFor(jobs, last.model) <= s.models[last.model].permits;
      RegisterKeeps(env, s1, c, deadline, last);
      RegisterJoinable(s1, c, deadline, last);
    }
  }

  lemma RegisterJoinable(s: State, c: nat, deadline: nat, job: Job)
    requires job.model < |s.models| && EntriesOk(s)
    ensures forall k :: k != job.key && !Joinable(s, k) ==> !Joinable(Register(s, c, deadline, job), k)
  {
    var s' := Register(s, c, deadline, job);
    forall k | k != job.key && !Joinable(s, k) ensures !Joinable(s', k) {
      if k in s'.entries && HasSub(s'.subs, s'.entries[k]) {
        var u :| u in s'.subs && u.gen == s'.entries[k];
        assert u in s.subs;
      }
    }
  }

  lemma AdmitKeeps(env: Env, s: State, c: nat, jobs: seq<Job>, deadline: nat)
    requires Inv(env, s) && AdmitCall(env, s, c, jobs)
    ensures Inv(env, AdmitSection(s, c, jobs, deadline, env.headroom).0)
  {
    var joined, novel := Joined(s, jobs), Fresh(s, jobs);
    var raised := RaiseDeadlines(s, joined, deadline);
    RaiseKeeps(env, s, joined, deadline);
    if AllAdmit(s, novel, deadline, env.headroom) {
      var s1 := raised.(subs := s.subs + JoinSubs(s, c, joined));
      assert s1.subs == raised.subs + JoinSubs(raised, c, joined);
      JoinKeeps(env, raised, c, joined);
      FreshIsNovel(s, jobs);
      forall j | j in novel ensures CanRegister(env, s1, j) {
        StillNovel(s, c, joined, j.key);
      }
      forall m | 0 <= m < |s.models| ensures CountFor(novel, m) <= s1.models[m].permits {
        assert ModelOk(s.recs, m, s.models[m]);
        assert Admits(s.models[m], CountFor(novel, m), TokensFor(novel, m), Max(0, deadline - s.now), env.headroom);
      }
      RegisterAllKeeps(env, s1, c, deadline, novel);
    }
  }

  /** Joining other keys' items does not make this key joinable. */
  lemma StillNovel(s: State, c: nat, keys: set<Key>, k: Key)
    requires EntriesOk(s) && !Joinable(s, k) && forall j :: j in keys ==> Joinable(s, j)
    ensures !Joinable(s.(subs := s.subs + JoinSubs(s, c, keys)), k)
  {
    forall u | u in JoinSubs(s, c, keys) ensures k in s.entries ==> u.gen != s.entries[k] {
    }
  }

  // ---------- Outputs keep their positions ----------

  /** Jobs and dispatched batches stay; a worker keeps what it has or has its own batch's outputs. */
  lemma RawsKept(env: Env, s: State, s': State)
    requires RawsOk(env, s) && |s.models| == |s'.models| && |s.recs| <= |s'.recs|
    requires forall g :: 0 <= g < |s.recs| ==> s'.recs[g].job == s.recs[g].job
    requires forall m :: 0 <= m < |s.models| ==> SameOutputs(env, s, s', m)
    ensures RawsOk(env, s')
  {
    forall m, w | 0 <= m < |s'.models| && 0 <= w < |s'.models[m].workers|
      ensures WorkerRawsOk(env, s'.recs, m, s'.models[m], s'.models[m].workers[w])
    {
      assert SameOutputs(env, s, s', m);
      assert WorkerRawsOk(env, s.recs, m, s.models[m], s.models[m].workers[w]);
    }
  }

  ghost predicate SameOutputs(env: Env, s: State, s': State, m: nat)
    requires m < |s.models| && m < |s'.models|
  {
    var q, q' := s.models[m], s'.models[m];
    && |q.workers| == |q'.workers| && q.sent <= q'.sent
    && forall w :: 0 <= w < |q.workers| ==>
         q'.workers[w] == q.workers[w] || WorkerRawsOk(env, s'.recs, m, q', q'.workers[w])
  }

  lemma {:induction false} RegisterKeepsRaws(env: Env, s: State, c: nat, deadline: nat, jobs: seq<Job>)
    ensures var s' := RegisterAll(s, c, deadline, jobs);
            && |s.models| == |s'.models| && |s.recs| <= |s'.recs|
            && (forall g :: 0 <= g < |s.recs| ==> s'.recs[g] == s.recs[g])
            && (forall m :: 0 <= m < |s.models| ==>
                  s'.models[m].workers == s.models[m].workers && s'.models[m].sent == s.models[m].sent)
  {
    if jobs != [] {
      RegisterKeepsRaws(env, s, c, deadline, jobs[..|jobs| - 1]);
    }
  }

  lemma AdmitKeepsRaws(env: Env, s: State, c: nat, jobs: seq<Job>, deadline: nat)
    requires RawsOk(env, s)
    ensures RawsOk(env, AdmitSection(s, c, jobs, deadline, env.headroom).0)
  {
    var joined := Joined(s, jobs);
    var raised := RaiseDeadlines(s, joined, deadline);
    RegisterKeepsRaws(env, raised.(subs := s.subs + JoinSubs(s, c, joined)), c, deadline, Fresh(s, jobs));
    RawsKept(env, s, AdmitSection(s, c, jobs, deadline, env.headroom).0);
  }

  lemma StepKeepsRaws(env: Env, s: State, step: Step)
    requires RawsOk(env, s) && Enabled(env, s, step)
    ensures RawsOk(env, Apply(env, s, step))
  {
    if step.Admit? {
      AdmitKeepsRaws(env, s, step.c, step.jobs, step.deadline);
    } else if WorkerStep(step) {
      WorkersKeepRaws(env, s, step);
    } else {
      OthersKeepRaws(env, s, step);
    }
  }

  lemma WorkersKeepRaws(env: Env, s: State, step: Step)
    requires RawsOk(env, s) && Enabled(env, s, step) && WorkerStep(step)
    ensures RawsOk(env, Apply(env, s, step))
  {
    RawsKept(env, s, Apply(env, s, step));
  }

  lemma OthersKeepRaws(env: Env, s: State, step: Step)
    requires RawsOk(env, s) && Enabled(env, s, step) && !WorkerStep(step) && !step.Admit?
    ensures RawsOk(env, Apply(env, s, step))
  {
    RawsKept(env, s, Apply(env, s, step));
  }

  // ---------- The invariant is inductive ----------

  lemma StepKeepsInv(env: Env, s: State, step: Step)
    requires Inv(env, s) && Enabled(env, s, step)
    ensures Inv(env, Apply(env, s, step))
  {
    StepKeepsRaws(env, s, step);
    if step.Tick? || step.Abandon? || step.Receive? || step.Evict? || step.Promote? {
      ClientStep(env, s, step);
    } else if step.Admit? {
      AdmitKeeps(env, s, step.c, step.jobs, step.deadline);
    } else if step.Enqueue? {
      EnqueueItems(env, s, step.g);
      EnqueueModels(env, s, step.g);
    } else if Drops(step) {
      DropItems(env, s, step);
      DropModels(env, s, step);
    } else if DeliveryStep(step) {
      DeliveryItems(env, s, step);
      DeliveryModels(env, s, step);
    } else {
      BackgroundItems(env, s, step);
      if WorkerStep(step) {
        WorkerModels(env, s, step);
      } else if ChangesPhase(step) {
        PhaseModels(env, s, step);
      } else {
        MovesModels(env, s, step);
      }
    }
  }

  lemma StillItems(env: Env, s: State, step: Step)
    requires Enabled(env, s, step) && (WorkerStep(step) || ChangesPhase(step))
    ensures MovesOnly(s, Apply(env, s, step))
  {
    if WorkerStep(step) {
      StillWorkers(env, s, step);
    } else {
      StillPhases(env, s, step);
    }
  }

  lemma StillWorkers(env: Env, s: State, step: Step)
    requires Enabled(env, s, step) && WorkerStep(step)
    ensures MovesOnly(s, Apply(env, s, step))
  {
  }

  lemma StillPhases(env: Env, s: State, step: Step)
    requires Enabled(env, s, step) && ChangesPhase(step)
    ensures MovesOnly(s, Apply(env, s, step))
  {
  }

  /** Batcher and worker steps only move items between registered stages. */
  lemma BackgroundItems(env: Env, s: State, step: Step)
    requires RecsOk(env, s) && EntriesOk(s) && SubsOk(s) && ValuesOk(env, s) && ModelsOk(s)
    requires Enabled(env, s, step) && (WorkerStep(step) || ChangesPhase(step) || MovesItems(step))
    ensures var s' := Apply(env, s, step);
            RecsOk(env, s') && EntriesOk(s') && SubsOk(s') && ValuesOk(env, s')
  {
    var s' := Apply(env, s, step);
    assert MovesOnly(s, s') by {
      if MovesItems(step) {
        MovesAreMoves(env, s, step);
      } else {
        StillItems(env, s, step);
      }
    }
    MovesKeepItems(env, s, s');
  }
}
