/** Start-up checks of the configuration, and what the scheduler may rely on once they pass. */
module Settings {
  import opened Types
  import Scheduler = SchedulerModel
  import SchedulerTheorems
  import Pick
  import Sequence
  import Questions

  /** Machine words, on which the checks multiply. */
  const WORD := 0x1_0000_0000_0000_0000

  datatype Limits = Limits(states: nat, questions: nat)

  datatype ModelEntry = ModelEntry(name: string, provider: string, workers: nat, intraOp: nat, maxPending: nat,
                                   maxItems: nat, maxTokens: nat, download: Option<string>)

  datatype KeyEntry = KeyEntry(name: string, sha256: string, rps: nat, burst: nat)

  datatype Knobs = Knobs(tokenizeQueue: Option<nat>, retryAfter: nat, redisTimeout: nat, localMaxBytes: nat,
                         maxStoredBytes: nat, ortThreads: Option<nat>, headroom: real)

  datatype Config = Config(workerThreads: nat, limits: Limits, english: string, nonEnglish: string,
                           models: seq<ModelEntry>, keys: seq<KeyEntry>, knobs: Knobs)

  datatype Problem =
    | NoModels
    | NoWorkerThreads
    | DuplicateModel(name: string)
    | ZeroInModel(name: string)
    | NeedsMlxBuild(name: string)
    | BadDownload(name: string)
    | PendingTooSmall(name: string, need: nat)
    | UnknownRoute(name: string)
    | BadKnobs
    | ZeroLimits
    | DuplicateKey(name: string)
    | BadSha(name: string)
    | ZeroRps(name: string)
    | BurstTooSmall(name: string)

  // ---------- What each entry must satisfy ----------

  /** The product as the machine computes it: it wraps. */
  function Need(l: Limits): nat {
    l.states * l.questions % WORD
  }

  predicate StartsWith(s: string, prefix: string) {
    prefix <= s
  }

  predicate DownloadOk(m: ModelEntry) {
    m.download.Some? ==> StartsWith(m.download.value, "https://") || StartsWith(m.download.value, "http://")
  }

  predicate ModelOk(m: ModelEntry, l: Limits, mlx: bool) {
    && m.workers > 0 && m.maxItems > 0 && m.intraOp > 0
    && (m.provider == "mlx" ==> mlx) && DownloadOk(m) && Need(l) <= m.maxPending
  }

  predicate LowerHex(c: char) {
    '0' <= c <= '9' || 'a' <= c <= 'f'
  }

  predicate ShaOk(t: string) {
    |t| == 64 && forall i :: 0 <= i < |t| ==> LowerHex(t[i])
  }

  predicate KeyOk(k: KeyEntry, l: Limits) {
    ShaOk(k.sha256) && k.rps > 0 && k.burst >= l.states
  }

  function OrOne(n: Option<nat>): nat {
    if n.Some? then n.value else 1
  }

  predicate KnobsOk(k: Knobs) {
    && OrOne(k.tokenizeQueue) > 0 && k.retryAfter > 0 && k.redisTimeout > 0 && k.localMaxBytes > 0 && k.maxStoredBytes > 0
    && OrOne(k.ortThreads) > 0 && k.maxStoredBytes <= k.localMaxBytes && 0.0 < k.headroom <= 1.0
  }

  predicate Named(c: Config, name: string) {
    exists i :: 0 <= i < |c.models| && c.models[i].name == name
  }

  ghost predicate ModelsOk(c: Config, mlx: bool) {
    && (forall i :: 0 <= i < |c.models| ==> ModelOk(c.models[i], c.limits, mlx))
    && (forall i, j :: 0 <= i < j < |c.models| ==> c.models[i].name != c.models[j].name)
  }

  ghost predicate KeysOk(c: Config) {
    && (forall i :: 0 <= i < |c.keys| ==> KeyOk(c.keys[i], c.limits))
    && (forall i, j :: 0 <= i < j < |c.keys| ==> c.keys[i].name != c.keys[j].name)
  }

  /** Everything the checks ask for. `mlx`: the binary is built with that back end. */
  ghost predicate Valid(c: Config, mlx: bool) {
    && c.models != [] && c.workerThreads > 0 && c.limits.states > 0 && c.limits.questions > 0 && KnobsOk(c.knobs)
    && ModelsOk(c, mlx) && KeysOk(c) && Named(c, c.english) && Named(c, c.nonEnglish)
  }

  // ---------- Which problem is reported ----------

  predicate ZeroIn(m: ModelEntry) {
    m.workers == 0 || m.maxItems == 0 || m.intraOp == 0
  }

  /** `p` is the first of an entry's own problems, in the order they are looked for. */
  predicate Blames(m: ModelEntry, l: Limits, mlx: bool, p: Problem) {
    match p
    case ZeroInModel(n) => n == m.name && ZeroIn(m)
    case NeedsMlxBuild(n) => n == m.name && !ZeroIn(m) && m.provider == "mlx" && !mlx
    case BadDownload(n) => n == m.name && !ZeroIn(m) && (m.provider == "mlx" ==> mlx) && !DownloadOk(m)
    case PendingTooSmall(n, need) =>
      n == m.name && !ZeroIn(m) && (m.provider == "mlx" ==> mlx) && DownloadOk(m) && need == Need(l) > m.maxPending
    case _ => false
  }

  /** Entry `n` is the first with a problem, and `p` is it: a name seen before, or one of its own. */
  ghost predicate FirstModelProblem(c: Config, mlx: bool, n: nat, p: Problem) {
    && n < |c.models| && ModelsOk(c.(models := c.models[..n]), mlx)
    && if exists i :: 0 <= i < n && c.models[i].name == c.models[n].name then p == DuplicateModel(c.models[n].name)
       else Blames(c.models[n], c.limits, mlx, p)
  }

  predicate BlamesKey(k: KeyEntry, l: Limits, p: Problem) {
    match p
    case BadSha(n) => n == k.name && !ShaOk(k.sha256)
    case ZeroRps(n) => n == k.name && ShaOk(k.sha256) && k.rps == 0
    case BurstTooSmall(n) => n == k.name && ShaOk(k.sha256) && k.rps > 0 && k.burst < l.states
    case _ => false
  }

  ghost predicate FirstKeyProblem(c: Config, n: nat, p: Problem) {
    && n < |c.keys| && KeysOk(c.(keys := c.keys[..n]))
    && if exists i :: 0 <= i < n && c.keys[i].name == c.keys[n].name then p == DuplicateKey(c.keys[n].name)
       else BlamesKey(c.keys[n], c.limits, p)
  }

  /** The first problem of a configuration, in the order of the checks. */
  ghost predicate FirstProblem(c: Config, mlx: bool, p: Problem) {
    if c.models == [] then p == NoModels
    else if c.workerThreads == 0 then p == NoWorkerThreads
    else if !ModelsOk(c, mlx) then exists n :: FirstModelProblem(c, mlx, n, p)
    else if !Named(c, c.english) then p == UnknownRoute(c.english)
    else if !Named(c, c.nonEnglish) then p == UnknownRoute(c.nonEnglish)
    else if !KnobsOk(c.knobs) then p == BadKnobs
    else if c.limits.states == 0 || c.limits.questions == 0 then p == ZeroLimits
    else exists n :: FirstKeyProblem(c, n, p)
  }

  // ---------- The checks ----------

  method CheckModel(m: ModelEntry, l: Limits, mlx: bool) returns (r: Option<Problem>)
    ensures r.None? <==> ModelOk(m, l, mlx)
    ensures r.Some? ==> Blames(m, l, mlx, r.value)
  {
    if m.workers == 0 || m.maxItems == 0 || m.intraOp == 0 {
      return Some(ZeroInModel(m.name));
    }
    if !mlx && m.provider == "mlx" {
      return Some(NeedsMlxBuild(m.name));
    }
    if m.download.Some? && !(StartsWith(m.download.value, "https://") || StartsWith(m.download.value, "http://")) {
      return Some(BadDownload(m.name));
    }
    var need := l.states * l.questions % WORD;
    if need > m.maxPending {
      return Some(PendingTooSmall(m.name, need));
    }
    r := None;
  }

  method CheckModels(c: Config, mlx: bool) returns (r: Option<Problem>, names: set<string>)
    ensures r.None? ==> names == set m | m in c.models :: m.name
    ensures r.None? <==> ModelsOk(c, mlx)
    ensures r.Some? ==> exists n :: FirstModelProblem(c, mlx, n, r.value)
  {
    names := {};
    for n := 0 to |c.models|
      invariant forall x :: x in names <==> exists i :: 0 <= i < n && c.models[i].name == x
      invariant forall i :: 0 <= i < n ==> ModelOk(c.models[i], c.limits, mlx)
      invariant forall i, j :: 0 <= i < j < n ==> c.models[i].name != c.models[j].name
    {
      var m := c.models[n];
      assert ModelsOk(c.(models := c.models[..n]), mlx);
      if m.name in names {
        assert FirstModelProblem(c, mlx, n, DuplicateModel(m.name));
        return Some(DuplicateModel(m.name)), names;
      }
      names := names + {m.name};
      var p := CheckModel(m, c.limits, mlx);
      if p.Some? {
        assert FirstModelProblem(c, mlx, n, p.value);
        return p, names;
      }
    }
    r := None;
  }

  /** None of the numbers is zero, a stored record fits the store, and the headroom is in (0, 1]. */
  method CheckKnobs(k: Knobs) returns (ok: bool)
    ensures ok <==> KnobsOk(k)
  {
    var numbers := [OrOne(k.tokenizeQueue), k.retryAfter, k.redisTimeout, k.localMaxBytes, k.maxStoredBytes, OrOne(k.ortThreads)];
    for i := 0 to |numbers|
      invariant forall j :: 0 <= j < i ==> numbers[j] > 0
    {
      if numbers[i] == 0 {
        return false;
      }
    }
    assert numbers[0] > 0 && numbers[1] > 0 && numbers[2] > 0 && numbers[3] > 0 && numbers[4] > 0 && numbers[5] > 0;
    if k.maxStoredBytes > k.localMaxBytes {
      return false;
    }
    ok := k.headroom > 0.0 && k.headroom <= 1.0;
  }

  method IsSha(t: string) returns (ok: bool)
    ensures ok <==> |t| == 64 && forall i :: 0 <= i < |t| ==> '0' <= t[i] <= '9' || 'a' <= t[i] <= 'f'
  {
    if |t| != 64 {
      return false;
    }
    for i := 0 to |t|
      invariant forall j :: 0 <= j < i ==> '0' <= t[j] <= '9' || 'a' <= t[j] <= 'f'
    {
      if !('0' <= t[i] <= '9' || 'a' <= t[i] <= 'f') {
        return false;
      }
    }
    ok := true;
  }

  method CheckKeys(c: Config) returns (r: Option<Problem>)
    ensures r.None? <==> KeysOk(c)
    ensures r.Some? ==> exists n :: FirstKeyProblem(c, n, r.value)
  {
    var names: set<string> := {};
    for n := 0 to |c.keys|
      invariant forall x :: x in names <==> exists i :: 0 <= i < n && c.keys[i].name == x
      invariant forall i :: 0 <= i < n ==> KeyOk(c.keys[i], c.limits)
      invariant forall i, j :: 0 <= i < j < n ==> c.keys[i].name != c.keys[j].name
    {
      var k := c.keys[n];
      assert KeysOk(c.(keys := c.keys[..n]));
      if k.name in names {
        assert FirstKeyProblem(c, n, DuplicateKey(k.name));
        return Some(DuplicateKey(k.name));
      }
      names := names + {k.name};
      var isSha := IsSha(k.sha256);
      if !isSha {
        assert FirstKeyProblem(c, n, BadSha(k.name));
        return Some(BadSha(k.name));
      }
      if k.rps == 0 {
        assert FirstKeyProblem(c, n, ZeroRps(k.name));
        return Some(ZeroRps(k.name));
      }
      if k.burst < c.limits.states {
        assert FirstKeyProblem(c, n, BurstTooSmall(k.name));
        return Some(BurstTooSmall(k.name));
      }
    }
    r := None;
  }

  /** Passes exactly the valid configurations. */
  method Validate(c: Config, mlx: bool) returns (r: Result<(), Problem>)
    ensures r.Ok? <==> Valid(c, mlx)
    ensures r.Err? ==> FirstProblem(c, mlx, r.error)
  {
    if c.models == [] {
      return Err(NoModels);
    }
    if c.workerThreads == 0 {
      return Err(NoWorkerThreads);
    }
    var p, names := CheckModels(c, mlx);
    if p.Some? {
      return Err(p.value);
    }
    if c.english !in names {
      return Err(UnknownRoute(c.english));
    }
    if c.nonEnglish !in names {
      return Err(UnknownRoute(c.nonEnglish));
    }
    var sound := CheckKnobs(c.knobs);
    if !sound {
      return Err(BadKnobs);
    }
    if c.limits.states == 0 || c.limits.questions == 0 {
      return Err(ZeroLimits);
    }
    var q := CheckKeys(c);
    if q.Some? {
      return Err(q.value);
    }
    r := Ok(());
  }

  // ---------- What they guarantee ----------

  /** The largest request the limits let through fits each model's queue. */
  predicate LargestRequestFits(c: Config) {
    forall i :: 0 <= i < |c.models| ==> c.limits.states * c.limits.questions <= c.models[i].maxPending
  }

  /** The machine's numbers. */
  predicate InWords(c: Config) {
    forall i :: 0 <= i < |c.models| ==> c.models[i].maxPending < WORD
  }

  /** The checks establish it exactly when the product of the limits does not wrap. */
  lemma ValidatedRequestsFitIff(c: Config, mlx: bool)
    requires Valid(c, mlx) && InWords(c)
    ensures LargestRequestFits(c) <==> c.limits.states * c.limits.questions < WORD
  {
    var need := c.limits.states * c.limits.questions;
    assert ModelOk(c.models[0], c.limits, mlx) && c.models[0].maxPending < WORD;
    if need < WORD {
      assert need % WORD == need;
      forall i | 0 <= i < |c.models| ensures need <= c.models[i].maxPending {
        assert ModelOk(c.models[i], c.limits, mlx);
      }
    }
  }

  /** A configuration that passes although its largest request could never be admitted. */
  lemma WrappedLimitsPass() returns (c: Config)
    ensures Valid(c, false) && InWords(c) && !LargestRequestFits(c)
  {
    var m := ModelEntry("m", "cpu", 1, 1, 256, 8, 8192, None);
    c := Config(2, Limits(0x1_0000_0000, 0x1_0000_0000), "m", "m", [m], [], Knobs(None, 1, 250, 1, 1, None, 0.8));
    assert c.models[0] == m && Need(c.limits) == 0;
  }

  /** A request within the limits, as the jobs of its states. */
  predicate WithinLimits(l: Limits, states: nat, jobs: nat) {
    states <= l.states && jobs <= states * l.questions
  }

  lemma JobsWithin(l: Limits, states: nat, jobs: nat)
    requires WithinLimits(l, states, jobs)
    ensures jobs <= l.states * l.questions
  {
    assert states * l.questions <= l.states * l.questions;
  }

  /**
   * With a validated configuration whose limits do not wrap, every request within the limits is admitted when
   * nothing is outstanding for the models it touches, whatever the cost estimate says.
   */
  lemma ValidRequestsAreAdmitted(cfg: Config, mlx: bool, env: Scheduler.Env, s: Scheduler.State, c: nat,
                                 jobs: seq<Scheduler.Job>, states: nat, deadline: nat)
    requires Valid(cfg, mlx) && InWords(cfg) && cfg.limits.states * cfg.limits.questions < WORD
    requires SchedulerTheorems.Reachable(env, s) && Scheduler.AdmitCall(env, s, c, jobs)
    requires |s.models| == |cfg.models| && forall m :: 0 <= m < |s.models| ==> s.models[m].limits.maxPending == cfg.models[m].maxPending
    requires WithinLimits(cfg.limits, states, |jobs|)
    requires forall j, g :: j in jobs && 0 <= g < |s.recs| && s.recs[g].job.model == j.model ==> !Scheduler.Outstanding(s.recs[g])
    ensures Scheduler.AdmitSection(s, c, jobs, deadline, env.headroom).1
  {
    ValidatedRequestsFitIff(cfg, mlx);
    JobsWithin(cfg.limits, states, |jobs|);
    assert forall m :: 0 <= m < |s.models| ==> |jobs| <= cfg.models[m].maxPending;
    forall m | 0 <= m < |s.models| ensures Scheduler.CountFor(jobs, m) <= s.models[m].limits.maxPending {
      SchedulerTheorems.CountAtMostAll(jobs, m);
    }
    SchedulerTheorems.IdleModelsAdmit(env, s, c, jobs, deadline);
  }

  /**
   * A model is loaded only if its batches have room for its longest sequence. Then every accepted question fits a
   * batch alone, and any batch led by it stays within the token limit.
   */
  lemma BatchesStayWithinTokens(meta: Sequence.Meta, tok: Questions.Tokenize, state: Sequence.Tokens, p: Questions.Prepared,
                                lens: seq<nat>, maxItems: nat, maxTokens: nat)
    requires maxTokens >= meta.maxLen && Questions.Encoding(meta, tok, state, p).Ok?
    ensures var target := |Questions.Encoding(meta, tok, state, p).value.ids|;
            var c := Pick.Chosen(target, lens, maxItems, maxTokens);
            target <= maxTokens && Pick.Ascending(c, |lens|) && (1 + |c|) * Pick.Longest(target, lens, c) <= maxTokens
  {
    Questions.EncodedIsWellFormed(meta, tok, state, p);
    Pick.ChosenIsGood(|Questions.Encoding(meta, tok, state, p).value.ids|, lens, maxItems, maxTokens);
  }
}
