/**
 * Idempotency records as a state machine over any number of requests, instances and stores. Every store command is
 * a step of its own; a command may be applied with its reply lost, be applied late, or never be applied.
 */
module IdempotencyModel {
  import opened Types

  /** Added to the request timeout to give a pending record's lifetime, in milliseconds. */
  const GRACE := 5000

  /** The request's index stands for the owner id, which no two requests share. */
  datatype Record = Pending(body: nat, owner: nat) | Done(body: nat, response: nat)

  datatype Entry = Entry(rec: Record, exp: nat)

  /** The shared store, or the in-process map of one instance. */
  datatype Place = Shared | Own(instance: nat)

  datatype Slot = Slot(place: Place, key: nat)

  type Store = map<Slot, Entry>

  datatype Config = Config(hasRedis: bool, timeout: nat, doneTtl: nat, maxStored: nat, size: (nat, nat) -> nat)

  datatype Begin = Replay(response: nat) | InProgress(remaining: nat) | Mismatch

  datatype Phase =
    | Setting(tries: nat)
    | Getting(tries: nat)
    | Timing(tries: nat, cur: Option<Record>)
    | Falling
    | Open(place: Place, until: nat)
    | Answered(begin: Begin)
    | Finishing(response: Option<nat>, until: nat)
    | Closed

  /** `straggler`: a SET NX the request gave up on is still on its way to the shared store. */
  datatype Client = Client(inst: nat, key: nat, body: nat, start: nat, phase: Phase, straggler: bool)

  /** A response handed to `finish` for keeping. */
  datatype Kept = Kept(key: nat, body: nat, owner: nat, response: nat)

  datatype State = State(store: Store, now: nat, clients: seq<Client>, log: seq<Kept>)

  datatype Fate = Applied | Late | Lost

  datatype Step =
    | Arrive(inst: nat, key: nat, body: nat)
    | SetNx(c: nat, seen: bool)
    | SetLost(c: nat, late: bool)
    | Get(c: nat, seen: bool)
    | Pttl(c: nat, seen: bool)
    | BeginLocal(c: nat)
    | Finish(c: nat, response: Option<nat>, fate: Fate)
    | FinishLands(c: nat)
    | FinishVanishes(c: nat)
    | StragglerLands(c: nat)
    | StragglerVanishes(c: nat)
    | Abandon(c: nat)
    | Tick(d: nat)
    | Evict(slot: Slot)

  function PendingTtl(cfg: Config): nat {
    cfg.timeout + GRACE
  }

  function Init(): State {
    State(map[], 0, [], [])
  }

  // ---------- One store ----------

  /** An entry past its expiry is not there. */
  function Live(store: Store, slot: Slot, now: nat): Option<Entry> {
    if slot in store && now < store[slot].exp then Some(store[slot]) else None
  }

  /** SET with NX and an expiry; also the in-process map's insert-if-absent. */
  function SetIfAbsent(store: Store, slot: Slot, now: nat, e: Entry): Store {
    if Live(store, slot, now).None? then store[slot := e] else store
  }

  /** DEL_IF_OWNER: only a pending record carries an owner. */
  function DelIfOwner(store: Store, slot: Slot, now: nat, owner: nat): Store {
    match Live(store, slot, now)
    case Some(Entry(Pending(_, o), _)) => if o == owner then store - {slot} else store
    case _ => store
  }

  /** What an existing record means for a request with this body. */
  function Existing(rec: Record, body: nat, remaining: nat): Begin {
    match rec
    case Pending(b, _) => if b != body then Mismatch else InProgress(remaining)
    case Done(b, response) => if b == body then Replay(response) else Mismatch
  }

  // ---------- Steps ----------

  function Mine(s: State, c: nat): Slot
    requires c < |s.clients|
  {
    Slot(Shared, s.clients[c].key)
  }

  function Move(s: State, c: nat, p: Phase): State
    requires c < |s.clients|
  {
    s.(clients := s.clients[c := s.clients[c].(phase := p)])
  }

  /** Another round of SET NX and GET, at most three in all. */
  function Again(tries: nat): Phase {
    if tries + 1 < 3 then Setting(tries + 1) else Falling
  }

  function Started(cfg: Config): Phase {
    if cfg.hasRedis then Setting(0) else Falling
  }

  /** The slot as a command finds it, and whether the command's reply arrives. */
  datatype Moment = Moment(live: Option<Entry>, now: nat, seen: bool)

  function At(s: State, slot: Slot, seen: bool): Moment {
    Moment(Live(s.store, slot, s.now), s.now, seen)
  }

  /**
   * After a command of a request that is asking the shared store. SET NX: the record is ours, or another is there
   * to be read. GET: the record found is remembered. PTTL: that record decides; one that had expired by then means
   * another round. A missing reply means the in-process store is asked instead.
   */
  function Next(cfg: Config, p: Phase, m: Moment, body: nat): Phase
    requires p.Setting? || p.Getting? || p.Timing?
  {
    if !m.seen then Falling
    else match p
      case Setting(tries) => if m.live.None? then Open(Shared, m.now + PendingTtl(cfg)) else Getting(tries)
      case Getting(tries) => Timing(tries, match m.live case None => None case Some(e) => Some(e.rec))
      case Timing(tries, None) => Again(tries)
      case Timing(_, Some(rec)) =>
        var left := match m.live case None => -2 case Some(e) => e.exp - m.now;
        Answered(Existing(rec, body, Max(left, 1000)))
  }

  /** The response to keep, if it is one and not too large. */
  function ToKeep(cfg: Config, body: nat, response: Option<nat>): Option<nat> {
    if response.Some? && cfg.size(body, response.value) <= cfg.maxStored then response else None
  }

  /**
   * `finish` on a store: keep the response, or release our pending record. The shared store refuses a lifetime of
   * zero; the in-process one takes it, and the record is gone at once.
   */
  function Settle(cfg: Config, s: State, c: nat, place: Place, keep: Option<nat>): Store
    requires c < |s.clients|
  {
    var slot := Slot(place, s.clients[c].key);
    match keep
    case Some(r) =>
      if place == Shared && cfg.doneTtl == 0 then s.store
      else s.store[slot := Entry(Done(s.clients[c].body, r), s.now + cfg.doneTtl)]
    case None => DelIfOwner(s.store, slot, s.now, c)
  }

  function Logged(s: State, c: nat, keep: Option<nat>): seq<Kept>
    requires c < |s.clients|
  {
    match keep
    case Some(r) => s.log + [Kept(s.clients[c].key, s.clients[c].body, c, r)]
    case None => s.log
  }

  predicate Enabled(cfg: Config, s: State, step: Step) {
    match step
    case Arrive(_, _, _) => true
    case Tick(_) => true
    case Evict(_) => true
    case SetNx(c, _) => c < |s.clients| && s.clients[c].phase.Setting?
    case SetLost(c, _) => c < |s.clients| && s.clients[c].phase.Setting?
    case Get(c, _) => c < |s.clients| && s.clients[c].phase.Getting?
    case Pttl(c, _) => c < |s.clients| && s.clients[c].phase.Timing?
    case BeginLocal(c) => c < |s.clients| && s.clients[c].phase == Falling
    case Finish(c, _, _) => c < |s.clients| && s.clients[c].phase.Open?
    case FinishLands(c) => c < |s.clients| && s.clients[c].phase.Finishing?
    case FinishVanishes(c) => c < |s.clients| && s.clients[c].phase.Finishing?
    case StragglerLands(c) => c < |s.clients| && s.clients[c].straggler
    case StragglerVanishes(c) => c < |s.clients| && s.clients[c].straggler
    case Abandon(c) => c < |s.clients| && !s.clients[c].phase.Finishing?
  }

  function Ask(cfg: Config, s: State, c: nat, seen: bool): State
    requires c < |s.clients| && (s.clients[c].phase.Setting? || s.clients[c].phase.Getting? || s.clients[c].phase.Timing?)
  {
    Move(s, c, Next(cfg, s.clients[c].phase, At(s, Mine(s, c), seen), s.clients[c].body))
  }

  function ApplySetNx(cfg: Config, s: State, c: nat, seen: bool): State
    requires c < |s.clients| && s.clients[c].phase.Setting?
  {
    var e := Entry(Pending(s.clients[c].body, c), s.now + PendingTtl(cfg));
    var s' := Ask(cfg, s, c, seen);
    s'.(store := SetIfAbsent(s.store, Mine(s, c), s.now, e))
  }

  function ApplyStraggler(cfg: Config, s: State, c: nat): State
    requires c < |s.clients|
  {
    var e := Entry(Pending(s.clients[c].body, c), s.now + PendingTtl(cfg));
    s.(store := SetIfAbsent(s.store, Mine(s, c), s.now, e),
       clients := s.clients[c := s.clients[c].(straggler := false)])
  }

  function ApplyBeginLocal(cfg: Config, s: State, c: nat): State
    requires c < |s.clients|
  {
    var me := s.clients[c];
    var slot := Slot(Own(me.inst), me.key);
    match Live(s.store, slot, s.now)
    case None =>
      var until := s.now + PendingTtl(cfg);
      Move(s, c, Open(Own(me.inst), until)).(store := s.store[slot := Entry(Pending(me.body, c), until)])
    case Some(e) => Move(s, c, Answered(Existing(e.rec, me.body, e.exp - s.now)))
  }

  function ApplyFinish(cfg: Config, s: State, c: nat, response: Option<nat>, fate: Fate): State
    requires c < |s.clients| && s.clients[c].phase.Open?
  {
    var me := s.clients[c];
    var keep := ToKeep(cfg, me.body, response);
    var log := Logged(s, c, keep);
    if me.phase.place != Shared || fate == Applied then
      Move(s, c, Closed).(store := Settle(cfg, s, c, me.phase.place, keep), log := log)
    else if fate == Late then Move(s, c, Finishing(keep, me.phase.until)).(log := log)
    else Move(s, c, Closed).(log := log)
  }

  function Apply(cfg: Config, s: State, step: Step): State
    requires Enabled(cfg, s, step)
  {
    match step
    case Arrive(inst, key, body) => s.(clients := s.clients + [Client(inst, key, body, s.now, Started(cfg), false)])
    case SetNx(c, seen) => ApplySetNx(cfg, s, c, seen)
    case SetLost(c, late) => s.(clients := s.clients[c := s.clients[c].(phase := Falling, straggler := s.clients[c].straggler || late)])
    case Get(c, seen) => Ask(cfg, s, c, seen)
    case Pttl(c, seen) => Ask(cfg, s, c, seen)
    case BeginLocal(c) => ApplyBeginLocal(cfg, s, c)
    case Finish(c, response, fate) => ApplyFinish(cfg, s, c, response, fate)
    case FinishLands(c) =>
      Move(s, c, Closed).(store := Settle(cfg, s, c, Shared, s.clients[c].phase.response))
    case FinishVanishes(c) => Move(s, c, Closed)
    case StragglerLands(c) => ApplyStraggler(cfg, s, c)
    case StragglerVanishes(c) => s.(clients := s.clients[c := s.clients[c].(straggler := false)])
    case Abandon(c) => Move(s, c, Closed)
    case Tick(d) => s.(now := s.now + d)
    case Evict(slot) => s.(store := s.store - {slot})
  }

  ghost predicate IsRun(cfg: Config, run: seq<State>, steps: seq<Step>) {
    && |run| == |steps| + 1 && run[0] == Init()
    && forall i :: 0 <= i < |steps| ==> Enabled(cfg, run[i], steps[i]) && run[i + 1] == Apply(cfg, run[i], steps[i])
  }
}
