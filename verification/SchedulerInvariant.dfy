/** The inductive invariant of the scheduler and the counting lemmas behind it. */
module SchedulerInvariant {
  import opened Types
  import opened SchedulerModel

  // ---------- Counting over the record of items ----------

  datatype Measure = PermitsHeld | TokensCounted

  /** What one item contributes to model `m`: one permit until released, its tokens until subtracted. */
  function Weight(r: Rec, m: nat, what: Measure): nat {
    if r.job.model != m then 0
    else match what
      case PermitsHeld => if r.stage.Gone? then 0 else 1
      case TokensCounted =>
        if r.stage.TokensBack? || r.stage.EntryGone? || r.stage.SenderGone? || r.stage.Gone? then 0
        else |r.job.enc.ids|
  }

  function Tally(recs: seq<Rec>, m: nat, what: Measure): nat {
    if recs == [] then 0
    else Tally(recs[..|recs| - 1], m, what) + Weight(recs[|recs| - 1], m, what)
  }

  lemma {:induction false} TallyUpdate(recs: seq<Rec>, g: nat, r: Rec, m: nat, what: Measure)
    requires g < |recs|
    ensures Tally(recs[g := r], m, what) == Tally(recs, m, what) - Weight(recs[g], m, what) + Weight(r, m, what)
  {
    var n := |recs| - 1;
    if g < n {
      TallyUpdate(recs[..n], g, r, m, what);
      assert recs[g := r][..n] == recs[..n][g := r];
    } else {
      assert recs[g := r][..n] == recs[..n];
    }
  }

  lemma {:induction false} TallySame(recs: seq<Rec>, recs': seq<Rec>, m: nat, what: Measure)
    requires |recs| == |recs'|
    requires forall g :: 0 <= g < |recs| ==> Weight(recs[g], m, what) == Weight(recs'[g], m, what)
    ensures Tally(recs, m, what) == Tally(recs', m, what)
  {
    if recs != [] {
      TallySame(recs[..|recs| - 1], recs'[..|recs| - 1], m, what);
    }
  }

  lemma TallyAppend(recs: seq<Rec>, r: Rec, m: nat, what: Measure)
    ensures Tally(recs + [r], m, what) == Tally(recs, m, what) + Weight(r, m, what)
  {
    assert (recs + [r])[..|recs|] == recs;
  }

  /** A tally of zero means nothing contributes. */
  lemma {:induction false} TallyZero(recs: seq<Rec>, m: nat, what: Measure, g: nat)
    requires g < |recs|
    ensures Weight(recs[g], m, what) <= Tally(recs, m, what)
  {
    if g < |recs| - 1 {
      TallyZero(recs[..|recs| - 1], m, what, g);
    }
  }

  /** Distinct items that each hold a permit number at most the permits held. */
  lemma {:induction false} Pigeonhole(recs: seq<Rec>, m: nat, line: seq<nat>)
    requires NoDup(line)
    requires forall i :: 0 <= i < |line| ==> line[i] < |recs| && Weight(recs[line[i]], m, PermitsHeld) == 1
    ensures |line| <= Tally(recs, m, PermitsHeld)
    decreases |line|
  {
    if line != [] {
      var n := |line| - 1;
      var g := line[n];
      TallyUpdate(recs, g, recs[g].(stage := Gone), m, PermitsHeld);
      Pigeonhole(recs[g := recs[g].(stage := Gone)], m, line[..n]);
    }
  }

  // ---------- Counting workers ----------

  predicate Busy(w: Worker) {
    w.Running? || w.Delivering? || w.Rebuilding?
  }

  function BusyCount(ws: seq<Worker>): nat {
    if ws == [] then 0 else BusyCount(ws[..|ws| - 1]) + if Busy(ws[|ws| - 1]) then 1 else 0
  }

  function LiveCount(ws: seq<Worker>): nat {
    if ws == [] then 0 else LiveCount(ws[..|ws| - 1]) + if ws[|ws| - 1].Retired? then 0 else 1
  }

  /** Workers whose thread is still there. */
  function ThreadCount(ws: seq<Worker>): nat {
    if ws == [] then 0 else ThreadCount(ws[..|ws| - 1]) + if Alive(ws[|ws| - 1]) then 1 else 0
  }

  function CrashedCount(ws: seq<Worker>): nat {
    if ws == [] then 0 else CrashedCount(ws[..|ws| - 1]) + if ws[|ws| - 1].Crashed? then 1 else 0
  }

  function WaitingCount(ws: seq<Worker>): nat {
    if ws == [] then 0 else WaitingCount(ws[..|ws| - 1]) + if ws[|ws| - 1].Waiting? then 1 else 0
  }

  /** A worker waits, is busy, has crashed or has retired. */
  lemma {:induction false} CountsAddUp(ws: seq<Worker>)
    ensures ThreadCount(ws) == WaitingCount(ws) + BusyCount(ws)
    ensures LiveCount(ws) == ThreadCount(ws) + CrashedCount(ws)
    ensures LiveCount(ws) <= |ws|
  {
    if ws != [] {
      CountsAddUp(ws[..|ws| - 1]);
    }
  }

  lemma {:induction false} CountsUpdate(ws: seq<Worker>, w: nat, wk: Worker)
    requires w < |ws|
    ensures BusyCount(ws[w := wk]) == BusyCount(ws) - (if Busy(ws[w]) then 1 else 0) + (if Busy(wk) then 1 else 0)
    ensures LiveCount(ws[w := wk])
         == LiveCount(ws) - (if ws[w].Retired? then 0 else 1) + (if wk.Retired? then 0 else 1)
    ensures CrashedCount(ws[w := wk])
         == CrashedCount(ws) - (if ws[w].Crashed? then 1 else 0) + (if wk.Crashed? then 1 else 0)
  {
    var n := |ws| - 1;
    if w < n {
      CountsUpdate(ws[..n], w, wk);
      assert ws[w := wk][..n] == ws[..n][w := wk];
    } else {
      assert ws[w := wk][..n] == ws[..n];
    }
  }

  lemma {:induction false} CountsOfWaiting(ws: seq<Worker>)
    requires forall w :: 0 <= w < |ws| ==> ws[w].Waiting?
    ensures BusyCount(ws) == 0 && LiveCount(ws) == |ws|
  {
    if ws != [] {
      CountsOfWaiting(ws[..|ws| - 1]);
    }
  }

  lemma {:induction false} SomeoneWaits(ws: seq<Worker>) returns (w: nat)
    requires WaitingCount(ws) > 0
    ensures w < |ws| && ws[w].Waiting?
  {
    var n := |ws| - 1;
    if ws[n].Waiting? {
      w := n;
    } else {
      w := SomeoneWaits(ws[..n]);
    }
  }

  lemma {:induction false} OneShows(ws: seq<Worker>, w: nat)
    requires w < |ws|
    ensures Busy(ws[w]) ==> BusyCount(ws) > 0
    ensures !ws[w].Retired? ==> LiveCount(ws) > 0
    ensures ws[w].Crashed? ==> CrashedCount(ws) > 0
    ensures ws[w].Waiting? ==> WaitingCount(ws) > 0
    ensures Alive(ws[w]) ==> ThreadCount(ws) > 0
  {
    if w < |ws| - 1 {
      OneShows(ws[..|ws| - 1], w);
    }
  }

  lemma {:induction false} SomeoneIsAlive(ws: seq<Worker>) returns (w: nat)
    requires ThreadCount(ws) > 0
    ensures w < |ws| && Alive(ws[w])
  {
    var n := |ws| - 1;
    if Alive(ws[n]) {
      w := n;
    } else {
      w := SomeoneIsAlive(ws[..n]);
    }
  }

  /** Threads are left exactly when the count says so. */
  lemma ThreadsCounted(q: Model)
    ensures HasThread(q) <==> ThreadCount(q.workers) > 0
  {
    if HasThread(q) {
      var w :| 0 <= w < |q.workers| && Alive(q.workers[w]);
      OneShows(q.workers, w);
    }
    if ThreadCount(q.workers) > 0 {
      var w := SomeoneIsAlive(q.workers);
    }
  }

  lemma {:induction false} SomeoneIsBusy(ws: seq<Worker>) returns (w: nat)
    requires BusyCount(ws) > 0
    ensures w < |ws| && Busy(ws[w])
  {
    var n := |ws| - 1;
    if Busy(ws[n]) {
      w := n;
    } else {
      w := SomeoneIsBusy(ws[..n]);
    }
  }

  // ---------- The invariant ----------

  predicate BeforeSend(st: Stage) {
    st.Parked? || st.Queued? || st.Buffered? || st.InBatch? || st.Cached?
  }

  /** What holds of one item by itself. */
  ghost predicate RecOk(env: Env, s: State, r: Rec) {
    && r.job.model < |s.models|
    && JobOk(env, r.job)
    && (BeforeSend(r.stage) ==> r.chan.Pending?)
    && (r.stage.SenderGone? || r.stage.Gone? ==> !r.chan.Pending?)
    && (r.chan.Closed? ==> r.stage.SenderGone? || r.stage.Gone?)
    && (r.chan.Sent? && r.chan.outcome.Done? ==> r.chan.outcome.raw == Answer(env, r.job.key))
    && (r.stage.Cached? || (r.chan.Sent? && r.chan.outcome.Done?) ==> r.job.key in s.l1 || r.job.key in s.evicted)
  }

  ghost predicate RecsOk(env: Env, s: State) {
    forall g :: 0 <= g < |s.recs| ==> RecOk(env, s, s.recs[g])
  }

  /** Each map entry is owned by the registered item with its key and generation. */
  ghost predicate EntriesOk(s: State) {
    forall k :: k in s.entries ==>
      && s.entries[k] < |s.recs|
      && s.recs[s.entries[k]].job.key == k
      && Registered(s.recs[s.entries[k]])
  }

  /** A registered item with a subscriber is the one its key's map entry names. */
  ghost predicate SubOk(s: State, u: Sub) {
    && u.gen < |s.recs|
    && s.recs[u.gen].job.key == u.key
    && (Registered(s.recs[u.gen]) ==> u.key in s.entries && s.entries[u.key] == u.gen)
  }

  ghost predicate SubsOk(s: State) {
    forall u :: u in s.subs ==> SubOk(s, u)
  }

  ghost predicate DeliveryOk(env: Env, s: State, d: Delivery) {
    && !d.chan.Pending?
    && (d.chan.Sent? && d.chan.outcome.Done? ==> d.chan.outcome.raw == Answer(env, d.key))
  }

  ghost predicate ValuesOk(env: Env, s: State) {
    && (forall k :: k in s.l1 ==> s.l1[k] == Answer(env, k))
    && (forall d :: d in s.delivered ==> DeliveryOk(env, s, d))
  }

  /** The queue and the buffer list exactly the items at that stage. */
  ghost predicate Lists(recs: seq<Rec>, m: nat, list: seq<nat>, st: Stage) {
    && NoDup(list)
    && (forall i :: 0 <= i < |list| ==> list[i] < |recs| && recs[list[i]].job.model == m && recs[list[i]].stage == st)
    && (forall g :: 0 <= g < |recs| && recs[g].job.model == m && recs[g].stage == st ==> g in list)
  }

  /** Dispatched items are in a batch that is in the channel or held by one worker. */
  ghost predicate BatchesOk(recs: seq<Rec>, m: nat, q: Model) {
    && q.taken <= |q.sent|
    && (forall g :: 0 <= g < |recs| && recs[g].job.model == m && (recs[g].stage.InBatch? || recs[g].stage.Cached?) ==>
          ItemHeld(q, g, recs[g].stage))
    && (forall w :: 0 <= w < |q.workers| && (q.workers[w].Running? || q.workers[w].Delivering?) ==>
          q.workers[w].batch < q.taken)
    && (forall v, w :: 0 <= v < w < |q.workers| ==>
          !(Holding(q.workers[v]) && Holding(q.workers[w]) && q.workers[v].batch == q.workers[w].batch))
  }

  predicate Holding(w: Worker) {
    w.Running? || w.Delivering?
  }

  ghost predicate ItemHeld(q: Model, g: nat, st: Stage)
    requires st.InBatch? || st.Cached?
  {
    && st.batch < |q.sent|
    && g in q.sent[st.batch]
    && (st.batch < q.taken ==> exists w :: 0 <= w < |q.workers| && HoldsBatch(q.workers[w], st.batch))
    && (st.Cached? ==> exists w :: 0 <= w < |q.workers| && DeliversOutputs(q.workers[w], st.batch))
  }

  predicate DeliversOutputs(wk: Worker, b: nat) {
    wk.Delivering? && wk.batch == b && wk.result.Outputs?
  }

  /** What a delivering worker has are the outputs of its batch's items, in their order. */
  ghost predicate WorkerRawsOk(env: Env, recs: seq<Rec>, m: nat, q: Model, wk: Worker) {
    wk.Delivering? && wk.result.Outputs? ==>
      wk.batch < |q.sent| && Computed(env, recs, m, q.sent[wk.batch], wk.result.raws)
  }

  ghost predicate RawsOk(env: Env, s: State) {
    forall m, w :: 0 <= m < |s.models| && 0 <= w < |s.models[m].workers| ==>
      WorkerRawsOk(env, s.recs, m, s.models[m], s.models[m].workers[w])
  }

  /** Idle permits: free, held by the batcher, in the channel, or held by a busy worker. */
  ghost predicate HandshakeOk(q: Model) {
    && |q.workers| == q.limits.workers
    && q.idle >= 0
    && q.live == LiveCount(q.workers)
    && q.taken <= |q.sent|
    && q.idle + (if HoldsIdle(q.phase) then 1 else 0) + (|q.sent| - q.taken) + BusyCount(q.workers) == q.live
    && (q.idleClosed ==> q.live == 0)
    && (q.phase.Stopped? ==> q.buf == [] && (q.idleClosed || !HasThread(q)))
    && (!q.open ==> q.phase.Stopped? && q.queue == [])
    && (q.phase.Scanning? ==> q.phase.next <= |q.buf|)
  }

  ghost predicate ModelOk(recs: seq<Rec>, m: nat, q: Model) {
    && q.permits >= 0
    && q.permits + Tally(recs, m, PermitsHeld) == q.limits.maxPending
    && q.tokens == Tally(recs, m, TokensCounted)
    && q.spt >= 0.0
    && Lists(recs, m, q.queue, Queued)
    && Lists(recs, m, q.buf, Buffered)
    && BatchesOk(recs, m, q)
    && HandshakeOk(q)
  }

  ghost predicate ModelsOk(s: State) {
    forall m :: 0 <= m < |s.models| ==> ModelOk(s.recs, m, s.models[m])
  }

  ghost predicate Inv(env: Env, s: State) {
    && RecsOk(env, s)
    && EntriesOk(s)
    && SubsOk(s)
    && ValuesOk(env, s)
    && ModelsOk(s)
    && RawsOk(env, s)
  }

  lemma InitInv(env: Env, s: State, limits: seq<Limits>)
    requires Init(s, limits)
    ensures Inv(env, s)
  {
    forall m | 0 <= m < |s.models| ensures ModelOk(s.recs, m, s.models[m]) {
      CountsOfWaiting(s.models[m].workers);
    }
  }
}
