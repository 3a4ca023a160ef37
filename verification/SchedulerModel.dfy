/** The scheduler as a state machine: any number of clients, models and workers, one step per atomic action. */
module SchedulerModel {
  import opened Types
  import opened Pick

  // ---------- State ----------

  datatype Job = Job(key: Key, model: nat, enc: Encoded)

  datatype Outcome = Done(raw: Raw) | Failed(msg: string)

  /** The one-shot channel of a work item. `Closed`: the sender was dropped without a result. */
  datatype Channel = Pending | Sent(outcome: Outcome) | Closed

  /** Where an admitted item is. The last five are the stages of dropping it, in order. */
  datatype Stage =
    | Parked                 // admitted, not yet handed to the queue
    | Queued
    | Buffered
    | InBatch(batch: nat)
    | Cached(batch: nat)     // its output is in L1, not yet sent
    | Doomed                 // about to be dropped
    | TokensBack             // queued tokens subtracted
    | EntryGone              // map entry removed (if it was its own)
    | SenderGone             // sender dropped
    | Gone                   // permit released

  datatype Rec = Rec(job: Job, stage: Stage, chan: Channel, deadline: nat)

  /** A client holding a strong handle on item `gen`'s channel. */
  datatype Sub = Sub(client: nat, key: Key, gen: nat)

  datatype Limits = Limits(maxPending: nat, workers: nat, maxItems: nat, maxTokens: nat)

  datatype Phase =
    | AwaitIdle                      // waiting for an idle permit
    | Collecting                     // holds one, receiving items
    | Scanning(next: nat, at: nat)   // holds one, dropping dead items as of time `at`
    | Stopped

  /** What a backend's run comes back with. */
  datatype BackendReply = Returned(raws: seq<Raw>) | Errored(msg: string) | Panicked

  /** What the worker makes of it; `raws[i]` is for the batch's i-th item. */
  datatype RunResult = Outputs(raws: seq<Raw>) | Failure(msg: string, panicked: bool)

  datatype Worker =
    | Waiting
    | Running(batch: nat)
    | Delivering(batch: nat, result: RunResult)
    | Rebuilding
    | Retired   // a failed rebuild, counted out of `live`
    | Crashed   // a rebuild that panicked: the thread is gone, `live` still counts it

  /** One model's queue. Dispatches already made are `sent`; the channel holds `sent[taken..]`. */
  datatype Model = Model(
    limits: Limits,
    permits: int,
    tokens: int,
    spt: real,
    queue: seq<nat>,
    open: bool,
    buf: seq<nat>,
    phase: Phase,
    idle: int,
    idleClosed: bool,
    sent: seq<seq<nat>>,
    taken: nat,
    workers: seq<Worker>,
    live: int)

  datatype Delivery = Delivery(client: nat, key: Key, gen: nat, chan: Channel)

  /**
   * `recs` records every item ever admitted; its index is the item's generation.
   * `evicted` (keys evicted since last cached) and `delivered` are histories that no step reads.
   */
  datatype State = State(
    recs: seq<Rec>,
    entries: map<Key, nat>,
    subs: set<Sub>,
    models: seq<Model>,
    l1: map<Key, Raw>,
    evicted: set<Key>,
    delivered: set<Delivery>,
    now: nat)

  /**
   * What the model takes as given: the question behind a key and its answer, what each model's backend makes of a
   * question, and the admission headroom.
   */
  datatype Env = Env(encOf: Key -> Encoded, infer: (nat, Encoded) -> Raw, answer: Key -> Raw, headroom: real)

  function Answer(env: Env, k: Key): Raw {
    env.answer(k)
  }

  /** The job carries its key's question, and its model's backend answers it as the key says. */
  predicate JobOk(env: Env, j: Job) {
    j.enc == env.encOf(j.key) && env.infer(j.model, j.enc) == env.answer(j.key)
  }

  function NewModel(l: Limits): Model {
    Model(l, l.maxPending, 0, 0.0, [], true, [], AwaitIdle, l.workers, false, [], 0,
          seq(l.workers, _ => Waiting), l.workers)
  }

  ghost predicate Init(s: State, limits: seq<Limits>) {
    && s == State([], map[], {}, seq(|limits|, i requires 0 <= i < |limits| => NewModel(limits[i])), map[], {}, {}, s.now)
  }

  // ---------- Observations ----------

  predicate HasSub(subs: set<Sub>, g: nat) {
    exists u :: u in subs && u.gen == g
  }

  predicate Live(s: State, g: nat, at: nat)
    requires g < |s.recs|
  {
    s.recs[g].chan.Pending? && HasSub(s.subs, g) && at < s.recs[g].deadline
  }

  /** The item's own map entry has not been removed yet. */
  predicate Registered(r: Rec) {
    !r.stage.EntryGone? && !r.stage.SenderGone? && !r.stage.Gone?
  }

  predicate Outstanding(r: Rec) {
    !r.stage.Gone?
  }

  function ItemLen(recs: seq<Rec>, g: nat): nat {
    if g < |recs| then |recs[g].job.enc.ids| else 0
  }

  predicate HoldsBatch(w: Worker, b: nat) {
    (w.Running? || w.Delivering?) && w.batch == b
  }

  predicate HoldsIdle(p: Phase) {
    p.Collecting? || p.Scanning?
  }

  // ---------- Admission: one critical section ----------

  predicate Joinable(s: State, k: Key) {
    k in s.entries && HasSub(s.subs, s.entries[k])
  }

  /** Jobs that need an item of their own. */
  function Fresh(s: State, jobs: seq<Job>): seq<Job> {
    if jobs == [] then []
    else Fresh(s, jobs[..|jobs| - 1]) + if Joinable(s, jobs[|jobs| - 1].key) then [] else [jobs[|jobs| - 1]]
  }

  function Joined(s: State, jobs: seq<Job>): set<Key> {
    set j | j in jobs && Joinable(s, j.key) :: j.key
  }

  /** Joining an entry raises its deadline to the joiner's. */
  function RaiseDeadlines(s: State, keys: set<Key>, deadline: nat): State {
    s.(recs := seq(|s.recs|, g requires 0 <= g < |s.recs| =>
         if exists k :: k in keys && k in s.entries && s.entries[k] == g
         then s.recs[g].(deadline := Max(s.recs[g].deadline, deadline)) else s.recs[g]))
  }

  function CountFor(jobs: seq<Job>, m: nat): nat {
    if jobs == [] then 0
    else CountFor(jobs[..|jobs| - 1], m) + if jobs[|jobs| - 1].model == m then 1 else 0
  }

  function TokensFor(jobs: seq<Job>, m: nat): nat {
    if jobs == [] then 0
    else TokensFor(jobs[..|jobs| - 1], m) + if jobs[|jobs| - 1].model == m then |jobs[|jobs| - 1].enc.ids| else 0
  }

  /** The cost estimate says the work ahead plus this request cannot finish within the headroom. */
  predicate Sheds(q: Model, own: nat, left: nat, headroom: real) {
    && q.spt > 0.0
    && q.tokens > 0
    && (q.tokens + own) as real * q.spt > headroom * left as real * q.limits.workers as real
  }

  predicate Admits(q: Model, n: nat, own: nat, left: nat, headroom: real) {
    n == 0 || (!Sheds(q, own, left, headroom) && n <= q.permits)
  }

  predicate AllAdmit(s: State, novel: seq<Job>, deadline: nat, headroom: real) {
    forall m :: 0 <= m < |s.models| ==>
      Admits(s.models[m], CountFor(novel, m), TokensFor(novel, m), Max(0, deadline - s.now), headroom)
  }

  function Register(s: State, c: nat, deadline: nat, job: Job): State {
    if job.model >= |s.models| then s else
    var q := s.models[job.model];
    s.(recs := s.recs + [Rec(job, Parked, Pending, deadline)],
       entries := s.entries[job.key := |s.recs|],
       subs := s.subs + {Sub(c, job.key, |s.recs|)},
       models := s.models[job.model := q.(permits := q.permits - 1, tokens := q.tokens + |job.enc.ids|)])
  }

  function RegisterAll(s: State, c: nat, deadline: nat, jobs: seq<Job>): State {
    if jobs == [] then s
    else Register(RegisterAll(s, c, deadline, jobs[..|jobs| - 1]), c, deadline, jobs[|jobs| - 1])
  }

  function JoinSubs(s: State, c: nat, keys: set<Key>): set<Sub> {
    set k | k in keys && k in s.entries :: Sub(c, k, s.entries[k])
  }

  /** The state after the critical section, and whether the request was admitted. */
  function AdmitSection(s: State, c: nat, jobs: seq<Job>, deadline: nat, headroom: real): (State, bool) {
    var joined := Joined(s, jobs);
    var novel := Fresh(s, jobs);
    var raised := RaiseDeadlines(s, joined, deadline);
    if AllAdmit(s, novel, deadline, headroom) then
      (RegisterAll(raised.(subs := s.subs + JoinSubs(s, c, joined)), c, deadline, novel), true)
    else
      (raised, false)
  }

  // ---------- Steps ----------

  datatype Step =
    // environment and clients
    | Tick(dt: nat)
    | Admit(c: nat, jobs: seq<Job>, deadline: nat)
    | Abandon(sub: Sub)
    | Receive(sub: Sub)
    | Evict(k: Key)
    | Promote(k: Key)
    // the admitting task, after the lock is released
    | Enqueue(g: nat)
    // batcher of model m
    | AcquireIdle(m: nat)
    | Collect(m: nat)
    | StartScan(m: nat)
    | ScanKeep(m: nat)
    | ScanDrop(m: nat)
    | Dispatch(m: nat)
    | DispatchFails(m: nat)
    | ReleaseIdle(m: nat)
    | StopBatcher(m: nat)
    | CloseQueue(m: nat)
    // worker w of model m
    | TakeBatch(m: nat, w: nat)
    | FinishRun(m: nat, w: nat, reply: BackendReply, cost: real)
    | PutL1(m: nat, w: nat, i: nat)
    | SendOk(m: nat, w: nat, i: nat)
    | SendErr(m: nat, w: nat, i: nat)
    | EndBatch(m: nat, w: nat)
    | Rebuild(m: nat, w: nat, ok: bool)
    | RebuildPanics(m: nat, w: nat)
    | CloseIdle(m: nat)
    // the receiver of model m's channel, gone with the last worker thread
    | Flush(m: nat)
    // dropping an item
    | DropTokens(g: nat)
    | DropEntry(g: nat)
    | DropSender(g: nat)
    | DropPermit(g: nat)

  predicate DeliveryStep(step: Step) {
    step.PutL1? || step.SendOk? || step.SendErr?
  }

  predicate Drops(step: Step) {
    step.DropTokens? || step.DropEntry? || step.DropSender? || step.DropPermit?
  }

  predicate AtStage(s: State, g: nat, st: Stage) {
    g < |s.recs| && s.recs[g].job.model < |s.models| && s.recs[g].stage == st
  }

  predicate WorkerAt(s: State, m: nat, w: nat) {
    m < |s.models| && w < |s.models[m].workers|
  }

  predicate Alive(w: Worker) {
    !w.Retired? && !w.Crashed?
  }

  /** Some worker thread, and with it the channel's receiver, is still there. */
  predicate HasThread(q: Model) {
    exists w :: 0 <= w < |q.workers| && Alive(q.workers[w])
  }

  /** The outputs belong to the batch's items, position by position. */
  predicate Computed(env: Env, recs: seq<Rec>, m: nat, batch: seq<nat>, raws: seq<Raw>) {
    && |raws| == |batch|
    && forall i :: 0 <= i < |batch| ==> batch[i] < |recs| && raws[i] == env.infer(m, recs[batch[i]].job.enc)
  }

  /** A run succeeds only with one output for each item. */
  function Judge(reply: BackendReply, n: nat): RunResult {
    match reply
    case Returned(raws) =>
      if |raws| == n then Outputs(raws) else Failure("backend returned the wrong number of outputs", false)
    case Errored(msg) => Failure(msg, false)
    case Panicked => Failure("inference worker panicked", true)
  }

  /** Worker `w` is delivering, and the i-th item of its batch is still with it. */
  predicate Delivers(s: State, m: nat, w: nat, i: nat) {
    && WorkerAt(s, m, w)
    && var q := s.models[m];
       var wk := q.workers[w];
       && wk.Delivering? && wk.batch < |q.sent| && i < |q.sent[wk.batch]|
       && var g := q.sent[wk.batch][i];
          && g < |s.recs| && s.recs[g].job.model == m
          && (s.recs[g].stage == InBatch(wk.batch) || s.recs[g].stage == Cached(wk.batch))
  }

  function ItemAt(s: State, m: nat, w: nat, i: nat): (g: nat)
    requires Delivers(s, m, w, i)
    ensures g < |s.recs| && s.recs[g].job.model == m
  {
    s.models[m].sent[s.models[m].workers[w].batch][i]
  }

  /** No item of batch `b` is left with its worker. */
  predicate BatchEmpty(recs: seq<Rec>, m: nat, b: nat) {
    forall g :: 0 <= g < |recs| && recs[g].job.model == m ==> recs[g].stage != InBatch(b) && recs[g].stage != Cached(b)
  }

  predicate UniqueKeys(jobs: seq<Job>) {
    forall i, j :: 0 <= i < j < |jobs| ==> jobs[i].key != jobs[j].key
  }

  /** What the callers of `admit` guarantee: unique keys, known models, one question per key, no open handle. */
  predicate AdmitCall(env: Env, s: State, c: nat, jobs: seq<Job>) {
    && UniqueKeys(jobs)
    && (forall j :: j in jobs ==> j.model < |s.models| && JobOk(env, j))
    && (forall u :: u in s.subs ==> u.client != c)
  }

  /** The i-th output a delivering worker has, if its run succeeded. */
  function OutputAt(w: Worker, i: nat): Option<Raw> {
    if w.Delivering? && w.result.Outputs? && i < |w.result.raws| then Some(w.result.raws[i]) else None
  }

  /** The scan is over and left something to dispatch. */
  predicate Scanned(q: Model) {
    q.phase.Scanning? && q.phase.next == |q.buf| && q.buf != []
  }

  predicate Enabled(env: Env, s: State, step: Step) {
    match step
    case Tick(_) => true
    case Admit(c, jobs, _) => AdmitCall(env, s, c, jobs)
    case Abandon(_) => true
    case Receive(u) => u in s.subs && u.gen < |s.recs| && !s.recs[u.gen].chan.Pending?
    case Evict(_) => true
    case Promote(_) => true
    case Enqueue(g) => AtStage(s, g, Parked)
    case AcquireIdle(m) => m < |s.models| && s.models[m].phase.AwaitIdle? && !s.models[m].idleClosed && s.models[m].idle > 0
    case Collect(m) => m < |s.models| && s.models[m].phase.Collecting? && s.models[m].queue != []
    case StartScan(m) =>
      m < |s.models| && s.models[m].phase.Collecting? && s.models[m].queue == [] && s.models[m].buf != []
    case ScanKeep(m) =>
      && m < |s.models| && s.models[m].phase.Scanning? && s.models[m].phase.next < |s.models[m].buf|
      && var g := s.models[m].buf[s.models[m].phase.next];
         g < |s.recs| && Live(s, g, s.models[m].phase.at)
    case ScanDrop(m) =>
      && m < |s.models| && s.models[m].phase.Scanning? && s.models[m].phase.next < |s.models[m].buf|
      && var g := s.models[m].buf[s.models[m].phase.next];
         g < |s.recs| && !Live(s, g, s.models[m].phase.at)
    case Dispatch(m) => m < |s.models| && Scanned(s.models[m]) && HasThread(s.models[m])
    case DispatchFails(m) => m < |s.models| && Scanned(s.models[m]) && !HasThread(s.models[m])
    case ReleaseIdle(m) =>
      m < |s.models| && s.models[m].phase.Scanning? && s.models[m].buf == []
    case StopBatcher(m) => m < |s.models| && s.models[m].phase.AwaitIdle? && s.models[m].idleClosed
    case CloseQueue(m) => m < |s.models| && s.models[m].phase.Stopped? && s.models[m].open
    case TakeBatch(m, w) =>
      WorkerAt(s, m, w) && s.models[m].workers[w].Waiting? && s.models[m].taken < |s.models[m].sent|
    case FinishRun(m, w, reply, cost) =>
      && WorkerAt(s, m, w) && s.models[m].workers[w].Running? && cost >= 0.0
      && var batch := s.models[m].workers[w].batch;
         batch < |s.models[m].sent|
         && (Judge(reply, |s.models[m].sent[batch]|).Outputs? ==> Computed(env, s.recs, m, s.models[m].sent[batch], reply.raws))
    case PutL1(m, w, i) =>
      Delivers(s, m, w, i) && s.recs[ItemAt(s, m, w, i)].stage.InBatch? && OutputAt(s.models[m].workers[w], i).Some?
    case SendOk(m, w, i) =>
      Delivers(s, m, w, i) && s.recs[ItemAt(s, m, w, i)].stage.Cached? && OutputAt(s.models[m].workers[w], i).Some?
    case SendErr(m, w, i) =>
      Delivers(s, m, w, i) && s.recs[ItemAt(s, m, w, i)].stage.InBatch? && s.models[m].workers[w].result.Failure?
    case EndBatch(m, w) =>
      WorkerAt(s, m, w) && s.models[m].workers[w].Delivering? && BatchEmpty(s.recs, m, s.models[m].workers[w].batch)
    case Rebuild(m, w, _) => WorkerAt(s, m, w) && s.models[m].workers[w].Rebuilding?
    case RebuildPanics(m, w) => WorkerAt(s, m, w) && s.models[m].workers[w].Rebuilding?
    case Flush(m) => m < |s.models| && !HasThread(s.models[m]) && s.models[m].taken < |s.models[m].sent|
    case CloseIdle(m) => m < |s.models| && s.models[m].live == 0 && !s.models[m].idleClosed
    case DropTokens(g) => AtStage(s, g, Doomed)
    case DropEntry(g) => AtStage(s, g, TokensBack)
    case DropSender(g) => AtStage(s, g, EntryGone)
    case DropPermit(g) => AtStage(s, g, SenderGone)
  }

  function Put(s: State, m: nat, q: Model): State
    requires m < |s.models|
  {
    s.(models := s.models[m := q])
  }

  function PutRec(s: State, g: nat, r: Rec): State
    requires g < |s.recs|
  {
    s.(recs := s.recs[g := r])
  }

  /** Moves every item listed in `gs` to stage `st`. */
  function Mark(recs: seq<Rec>, gs: seq<nat>, st: Stage): (r: seq<Rec>)
    ensures |r| == |recs|
  {
    seq(|recs|, g requires 0 <= g < |recs| => if g in gs then recs[g].(stage := st) else recs[g])
  }

  /** The items still in batch `b` of model `m` are dropped. */
  function DropBatch(recs: seq<Rec>, m: nat, b: nat): (r: seq<Rec>)
    ensures |r| == |recs|
  {
    seq(|recs|, g requires 0 <= g < |recs| =>
      if recs[g].job.model == m && recs[g].stage == InBatch(b) then recs[g].(stage := Doomed) else recs[g])
  }

  function LineLens(recs: seq<Rec>, line: seq<nat>): (r: seq<nat>)
    ensures |r| == |line|
  {
    seq(|line|, i requires 0 <= i < |line| => ItemLen(recs, line[i]))
  }

  /** The batch led by the oldest buffered item, and the buffer left behind. */
  function NextBatch(recs: seq<Rec>, q: Model): (seq<nat>, seq<nat>)
    requires q.buf != []
  {
    var first: nat, rest: seq<nat> := q.buf[0], q.buf[1..];
    var c := Chosen(ItemLen(recs, first), LineLens(recs, rest), q.limits.maxItems, q.limits.maxTokens);
    ([first] + Followers(rest, c), Remainder(rest, c))
  }

  function WithWorker(q: Model, w: nat, wk: Worker): Model
    requires w < |q.workers|
  {
    q.(workers := q.workers[w := wk])
  }

  /** The worker's idle permit comes back. */
  function Freed(q: Model, w: nat, wk: Worker): Model
    requires w < |q.workers|
  {
    WithWorker(q, w, wk).(idle := q.idle + 1)
  }

  /** A run is over; a successful one updates the cost estimate. */
  function AfterRun(q: Model, w: nat, reply: BackendReply, cost: real): Model
    requires w < |q.workers| && q.workers[w].Running? && q.workers[w].batch < |q.sent|
  {
    var batch := q.workers[w].batch;
    var result := Judge(reply, |q.sent[batch]|);
    var spt := if result.Failure? then q.spt else if q.spt == 0.0 then cost else 0.8 * q.spt + 0.2 * cost;
    WithWorker(q, w, Delivering(batch, result)).(spt := spt)
  }

  function Answered(s: State, g: nat, outcome: Outcome): State
    requires g < |s.recs|
  {
    PutRec(s, g, s.recs[g].(stage := Doomed, chan := Sent(outcome)))
  }

  /** Deliveries, drops and the hand-over concern one item. */
  function ApplyToItem(env: Env, s: State, step: Step): State
    requires Enabled(env, s, step) && (step.Enqueue? || DeliveryStep(step) || Drops(step))
  {
    match step
    case Enqueue(g) =>
      var r := s.recs[g];
      var q := s.models[r.job.model];
      if q.open then
        Put(PutRec(s, g, r.(stage := Queued)), r.job.model, q.(queue := q.queue + [g]))
      else
        PutRec(s, g, r.(stage := Doomed, chan := Sent(Failed("model workers unavailable"))))
    case PutL1(m, w, i) =>
      var g := ItemAt(s, m, w, i);
      var k := s.recs[g].job.key;
      PutRec(s, g, s.recs[g].(stage := Cached(s.recs[g].stage.batch))).
        (l1 := s.l1[k := OutputAt(s.models[m].workers[w], i).value], evicted := s.evicted - {k})
    case SendOk(m, w, i) => Answered(s, ItemAt(s, m, w, i), Done(OutputAt(s.models[m].workers[w], i).value))
    case SendErr(m, w, i) => Answered(s, ItemAt(s, m, w, i), Failed(s.models[m].workers[w].result.msg))
    case DropTokens(g) =>
      var r := s.recs[g];
      var q := s.models[r.job.model];
      Put(PutRec(s, g, r.(stage := TokensBack)), r.job.model, q.(tokens := q.tokens - |r.job.enc.ids|))
    case DropEntry(g) =>
      var r := s.recs[g];
      var own := r.job.key in s.entries && s.entries[r.job.key] == g;
      PutRec(s, g, r.(stage := EntryGone)).(entries := if own then s.entries - {r.job.key} else s.entries)
    case DropSender(g) =>
      var r := s.recs[g];
      PutRec(s, g, r.(stage := SenderGone, chan := if r.chan.Pending? then Closed else r.chan))
    case DropPermit(g) =>
      var r := s.recs[g];
      var q := s.models[r.job.model];
      Put(PutRec(s, g, r.(stage := Gone)), r.job.model, q.(permits := q.permits + 1))
  }

  function Apply(env: Env, s: State, step: Step): State
    requires Enabled(env, s, step)
  {
    match step
    case Tick(dt) => s.(now := s.now + dt)
    case Admit(c, jobs, deadline) => AdmitSection(s, c, jobs, deadline, env.headroom).0
    case Abandon(u) => s.(subs := s.subs - {u})
    case Receive(u) =>
      s.(subs := s.subs - {u}, delivered := s.delivered + {Delivery(u.client, u.key, u.gen, s.recs[u.gen].chan)})
    case Evict(k) => s.(l1 := s.l1 - {k}, evicted := s.evicted + {k})
    case Promote(k) => s.(l1 := s.l1[k := Answer(env, k)], evicted := s.evicted - {k})
    case AcquireIdle(m) =>
      var q := s.models[m];
      Put(s, m, q.(idle := q.idle - 1, phase := Collecting))
    case Collect(m) =>
      var q := s.models[m];
      Put(s.(recs := Mark(s.recs, [q.queue[0]], Buffered)), m, q.(queue := q.queue[1..], buf := q.buf + [q.queue[0]]))
    case StartScan(m) => Put(s, m, s.models[m].(phase := Scanning(0, s.now)))
    case ScanKeep(m) =>
      var q := s.models[m];
      Put(s, m, q.(phase := Scanning(q.phase.next + 1, q.phase.at)))
    case ScanDrop(m) =>
      var q := s.models[m];
      var i := q.phase.next;
      Put(s.(recs := Mark(s.recs, [q.buf[i]], Doomed)), m, q.(buf := q.buf[..i] + q.buf[i + 1..]))
    case Dispatch(m) =>
      var q := s.models[m];
      var (batch, left) := NextBatch(s.recs, q);
      Put(s.(recs := Mark(s.recs, batch, InBatch(|q.sent|))), m,
          q.(buf := left, sent := q.sent + [batch], phase := AwaitIdle))
    case DispatchFails(m) =>
      var q := s.models[m];
      Put(s.(recs := Mark(s.recs, q.buf, Doomed)), m, q.(buf := [], phase := Stopped, idle := q.idle + 1))
    case ReleaseIdle(m) =>
      var q := s.models[m];
      Put(s, m, q.(idle := q.idle + 1, phase := AwaitIdle))
    case StopBatcher(m) =>
      var q := s.models[m];
      Put(s.(recs := Mark(s.recs, q.buf, Doomed)), m, q.(buf := [], phase := Stopped))
    case CloseQueue(m) =>
      var q := s.models[m];
      Put(s.(recs := Mark(s.recs, q.queue, Doomed)), m, q.(queue := [], open := false))
    case TakeBatch(m, w) =>
      var q := s.models[m];
      Put(s, m, WithWorker(q, w, Running(q.taken)).(taken := q.taken + 1))
    case FinishRun(m, w, reply, cost) => Put(s, m, AfterRun(s.models[m], w, reply, cost))
    case EndBatch(m, w) =>
      var result := s.models[m].workers[w].result;
      if result.Failure? && result.panicked then Put(s, m, WithWorker(s.models[m], w, Rebuilding))
      else Put(s, m, Freed(s.models[m], w, Waiting))
    case Rebuild(m, w, ok) =>
      if ok then Put(s, m, Freed(s.models[m], w, Waiting))
      else Put(s, m, WithWorker(s.models[m], w, Retired).(live := s.models[m].live - 1))
    case RebuildPanics(m, w) => Put(s, m, Freed(s.models[m], w, Crashed))
    case Flush(m) =>
      var q := s.models[m];
      Put(s.(recs := DropBatch(s.recs, m, q.taken)), m, q.(taken := q.taken + 1, idle := q.idle + 1))
    case CloseIdle(m) => Put(s, m, s.models[m].(idleClosed := true))
    case _ => ApplyToItem(env, s, step)
  }

  // ---------- Runs ----------

  /** `states[i + 1]` follows from `states[i]` by `steps[i]`. */
  ghost predicate Run(env: Env, states: seq<State>, steps: seq<Step>) {
    && |states| == |steps| + 1
    && forall i :: 0 <= i < |steps| ==> Enabled(env, states[i], steps[i]) && states[i + 1] == Apply(env, states[i], steps[i])
  }
}
