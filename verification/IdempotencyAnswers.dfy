/** What each command and each answer comes to, case by case, and that a kept response is replayed. */
module IdempotencyAnswers {
  import opened Types
  import opened IdempotencyModel

  // ---------- What a request is told ----------

  /** The store's record for the slot, if it has not expired. */
  predicate Finds(store: Store, slot: Slot, now: nat, e: Entry) {
    slot in store && store[slot] == e && now < e.exp
  }

  predicate Free(store: Store, slot: Slot, now: nat) {
    slot !in store || store[slot].exp <= now
  }

  /** The answer a record gives a request with this body: same body, its response or the time to wait; else a mismatch. */
  predicate Tells(rec: Record, body: nat, left: nat, b: Begin) {
    match rec
    case Done(theirs, response) => if theirs == body then b == Replay(response) else b == Mismatch
    case Pending(theirs, _) => if theirs == body then b == InProgress(left) else b == Mismatch
  }

  /**
   * Asking the in-process store: a live record answers with the time it has left, or a free slot takes the request's
   * own record, for the request's timeout and five seconds more, and lets it through.
   */
  lemma LocalBegins(cfg: Config, s: State, c: nat)
    requires Enabled(cfg, s, BeginLocal(c))
    ensures var me, s' := s.clients[c], Apply(cfg, s, BeginLocal(c));
            var slot := Slot(Own(me.inst), me.key);
            && |s'.clients| == |s.clients| && s'.now == s.now && s'.log == s.log
            && (forall e :: Finds(s.store, slot, s.now, e) ==>
                  s'.store == s.store && s'.clients[c].phase.Answered? && Tells(e.rec, me.body, e.exp - s.now, s'.clients[c].phase.begin))
            && (Free(s.store, slot, s.now) ==>
                  && s'.clients[c].phase == Open(Own(me.inst), s.now + cfg.timeout + 5000)
                  && s'.store == s.store[slot := Entry(Pending(me.body, c), s.now + cfg.timeout + 5000)])
  {
  }

  /**
   * SET NX: a free slot takes the request's record, whether the reply comes back or not, and lets it through if it
   * does. A live record is left alone, and read next.
   */
  lemma SetsIfFree(cfg: Config, s: State, c: nat, seen: bool)
    requires Enabled(cfg, s, SetNx(c, seen))
    ensures var me, s' := s.clients[c], Apply(cfg, s, SetNx(c, seen));
            var slot := Slot(Shared, me.key);
            && |s'.clients| == |s.clients|
            && (Free(s.store, slot, s.now) ==>
                  && s'.store == s.store[slot := Entry(Pending(me.body, c), s.now + cfg.timeout + 5000)]
                  && s'.clients[c].phase == if seen then Open(Shared, s.now + cfg.timeout + 5000) else Falling)
            && (!Free(s.store, slot, s.now) ==>
                  s'.store == s.store && s'.clients[c].phase == if seen then Getting(me.phase.tries) else Falling)
  {
  }

  /** GET: what is there is remembered; a reply that does not come sends the request to the in-process store. */
  lemma ReadsWhatIsThere(cfg: Config, s: State, c: nat, seen: bool)
    requires Enabled(cfg, s, Get(c, seen))
    ensures var me, s' := s.clients[c], Apply(cfg, s, Get(c, seen));
            var slot := Slot(Shared, me.key);
            && |s'.clients| == |s.clients| && s'.store == s.store
            && (!seen ==> s'.clients[c].phase == Falling)
            && (seen && Free(s.store, slot, s.now) ==> s'.clients[c].phase == Timing(me.phase.tries, None))
            && (forall e :: seen && Finds(s.store, slot, s.now, e) ==> s'.clients[c].phase == Timing(me.phase.tries, Some(e.rec)))
  {
  }

  /**
   * PTTL: the record remembered answers, with the time it has left and at least a second. If none was there the
   * request starts over, twice at most; the third time it goes to the in-process store.
   */
  lemma AnswersWhatWasRead(cfg: Config, s: State, c: nat, seen: bool)
    requires Enabled(cfg, s, Pttl(c, seen))
    ensures var me, s' := s.clients[c], Apply(cfg, s, Pttl(c, seen));
            var slot, read := Slot(Shared, me.key), me.phase.cur;
            && |s'.clients| == |s.clients| && s'.store == s.store
            && (!seen ==> s'.clients[c].phase == Falling)
            && (seen && read.None? ==> s'.clients[c].phase == if me.phase.tries < 2 then Setting(me.phase.tries + 1) else Falling)
            && (seen && read.Some? ==>
                  && s'.clients[c].phase.Answered?
                  && (Free(s.store, slot, s.now) ==> Tells(read.value, me.body, 1000, s'.clients[c].phase.begin))
                  && (forall e :: Finds(s.store, slot, s.now, e) ==>
                        var left := if e.exp - s.now < 1000 then 1000 else e.exp - s.now;
                        Tells(read.value, me.body, left, s'.clients[c].phase.begin)))
  {
  }

  /**
   * A SET NX given up on changes nothing yet and sends the request to the in-process store. If it still lands, it
   * takes a slot that is free then, in the name of the request that gave up; a live record is left alone.
   */
  lemma LateSetLands(cfg: Config, s: State, c: nat)
    requires Enabled(cfg, s, SetLost(c, true))
    ensures var me, s1 := s.clients[c], Apply(cfg, s, SetLost(c, true));
            var slot := Slot(Shared, me.key);
            && s1.store == s.store && |s1.clients| == |s.clients| && s1.clients[c].phase == Falling
            && Enabled(cfg, s1, StragglerLands(c))
            && var s2 := Apply(cfg, s1, StragglerLands(c));
               && s2.clients[c].phase == Falling
               && s2.store == if Free(s.store, slot, s.now)
                              then s.store[slot := Entry(Pending(me.body, c), s.now + cfg.timeout + 5000)] else s.store
  {
  }

  // ---------- Asking the shared store, round by round ----------

  /** In the first `r` rounds all replies came, and the record was there for SET NX and gone for GET. */
  predicate RoundsMissed(at: nat -> Moment, r: nat) {
    forall t :: 0 <= t < r ==>
      at(3 * t).seen && at(3 * t).live.Some? && at(3 * t + 1).seen && at(3 * t + 1).live.None? && at(3 * t + 2).seen
  }

  /** How the asking ends in round `r`: with the slot taken, a reply missing, or the record read; or never, after three. */
  predicate EndsIn(cfg: Config, at: nat -> Moment, body: nat, r: nat, p: Phase) {
    if r >= 3 then p == Falling
    else
      var put, cur, ttl := at(3 * r), at(3 * r + 1), at(3 * r + 2);
      if !put.seen then p == Falling
      else if put.live.None? then p == Open(Shared, put.now + cfg.timeout + 5000)
      else if !cur.seen || !ttl.seen then p == Falling
      else
        && cur.live.Some? && p.Answered?
        && var left := if ttl.live.Some? && ttl.live.value.exp - ttl.now > 1000 then ttl.live.value.exp - ttl.now else 1000;
           Tells(cur.live.value.rec, body, left, p.begin)
  }

  // ---------- What a request leaves behind ----------

  /** The response is there and small enough to keep. */
  predicate Keepable(cfg: Config, body: nat, response: Option<nat>) {
    response.Some? && cfg.size(body, response.value) <= cfg.maxStored
  }

  /** The store after a request's end: its response kept for the configured time, or its own pending record gone. */
  predicate Leaves(cfg: Config, s: State, c: nat, place: Place, response: Option<nat>, store: Store)
    requires c < |s.clients|
  {
    var me, slot := s.clients[c], Slot(place, s.clients[c].key);
    if Keepable(cfg, me.body, response) then
      if place == Shared && cfg.doneTtl == 0 then store == s.store
      else store == s.store[slot := Entry(Done(me.body, response.value), s.now + cfg.doneTtl)]
    else if slot in s.store && s.now < s.store[slot].exp && s.store[slot].rec.Pending? && s.store[slot].rec.owner == c then
      store == s.store - {slot}
    else store == s.store
  }

  /**
   * The end of a request: in the in-process store at once; in the shared one at once, later, or never. What it hands
   * in to be kept is noted, in its own name.
   */
  lemma EndsAsItLeaves(cfg: Config, s: State, c: nat, response: Option<nat>, fate: Fate)
    requires Enabled(cfg, s, Finish(c, response, fate))
    ensures var me, s' := s.clients[c], Apply(cfg, s, Finish(c, response, fate));
            && |s'.clients| == |s.clients|
            && s'.log == (if Keepable(cfg, me.body, response) then s.log + [Kept(me.key, me.body, c, response.value)] else s.log)
            && (if me.phase.place.Own? || fate.Applied? then
                  s'.clients[c].phase == Closed && Leaves(cfg, s, c, me.phase.place, response, s'.store)
                else s'.store == s.store && if fate.Late? then s'.clients[c].phase.Finishing? else s'.clients[c].phase == Closed)
  {
  }

  /** A command that was on its way lands like one applied at once. */
  lemma LandsAsItLeaves(cfg: Config, s: State, c: nat, response: Option<nat>)
    requires Enabled(cfg, s, Finish(c, response, Late)) && s.clients[c].phase.place == Shared
    ensures var s1 := Apply(cfg, s, Finish(c, response, Late));
            && Enabled(cfg, s1, FinishLands(c))
            && Leaves(cfg, s, c, Shared, response, Apply(cfg, s1, FinishLands(c)).store)
  {
  }

  // ---------- A kept response is replayed ----------

  /** The step puts something else in the slot, or takes it away: a response kept there, or an eviction. */
  predicate Disturbs(s: State, step: Step, slot: Slot) {
    match step
    case Evict(other) => other == slot
    case Finish(c, Some(_), _) =>
      c < |s.clients| && s.clients[c].phase.Open? && Slot(s.clients[c].phase.place, s.clients[c].key) == slot
    case FinishLands(c) =>
      && c < |s.clients| && s.clients[c].phase.Finishing? && s.clients[c].phase.response.Some?
      && Slot(Shared, s.clients[c].key) == slot
    case _ => false
  }

  /** A live finished record stays, whatever other requests ask or give up. */
  lemma KeptStays(cfg: Config, s: State, step: Step, slot: Slot, e: Entry)
    requires Finds(s.store, slot, s.now, e) && e.rec.Done? && Enabled(cfg, s, step) && !Disturbs(s, step, slot)
    ensures var s' := Apply(cfg, s, step); slot in s'.store && s'.store[slot] == e
  {
  }

  /** Where the request looks for its key. */
  predicate LooksAt(c: Client, slot: Slot) {
    c.key == slot.key && (if slot.place == Shared then true else slot.place == Own(c.inst))
  }

  /** The request is asking where the record is, has read it, or was told. */
  predicate OnItsWay(s: State, c: nat, slot: Slot, e: Entry) {
    && c < |s.clients| && LooksAt(s.clients[c], slot) && e.rec.Done? && s.clients[c].body == e.rec.body
    && match s.clients[c].phase
       case Setting(_) => slot.place == Shared
       case Getting(_) => slot.place == Shared
       case Timing(_, cur) => slot.place == Shared && cur == Some(e.rec)
       case Falling => slot.place != Shared
       case Answered(begin) => begin == Replay(e.rec.response)
       case _ => false
  }

  /** The request's own commands are answered, and it does not give up. */
  predicate Answers(step: Step, c: nat) {
    match step
    case SetNx(d, seen) => d == c ==> seen
    case Get(d, seen) => d == c ==> seen
    case Pttl(d, seen) => d == c ==> seen
    case SetLost(d, _) => d != c
    case Abandon(d) => d != c
    case _ => true
  }

  lemma StaysOnItsWay(cfg: Config, s: State, step: Step, c: nat, slot: Slot, e: Entry)
    requires Finds(s.store, slot, s.now, e) && OnItsWay(s, c, slot, e) && Enabled(cfg, s, step)
    requires !Disturbs(s, step, slot) && Answers(step, c)
    ensures OnItsWay(Apply(cfg, s, step), c, slot, e)
  {
  }

  /** Nothing disturbs the record before step `n`, it does not expire before, and the request's commands are answered. */
  ghost predicate Undisturbed(run: seq<State>, steps: seq<Step>, i: nat, n: nat, c: nat, slot: Slot, e: Entry) {
    && i <= n < |run| == |steps| + 1
    && (forall k :: i <= k < n ==> !Disturbs(run[k], steps[k], slot) && Answers(steps[k], c) && run[k].now < e.exp)
  }

  lemma {:induction false} RunKeepsRecord(cfg: Config, run: seq<State>, steps: seq<Step>, i: nat, n: nat, c: nat, slot: Slot, e: Entry)
    requires Undisturbed(run, steps, i, n, c, slot, e) && e.rec.Done? && Finds(run[i].store, slot, run[i].now, e)
    requires forall k :: 0 <= k < |steps| ==> Enabled(cfg, run[k], steps[k]) && run[k + 1] == Apply(cfg, run[k], steps[k])
    ensures slot in run[n].store && run[n].store[slot] == e
    decreases n
  {
    if i < n {
      RunKeepsRecord(cfg, run, steps, i, n - 1, c, slot, e);
      KeptStays(cfg, run[n - 1], steps[n - 1], slot, e);
    }
  }

  lemma {:induction false} RunStaysOnItsWay(cfg: Config, run: seq<State>, steps: seq<Step>, i: nat, n: nat, c: nat, slot: Slot, e: Entry)
    requires Undisturbed(run, steps, i, n, c, slot, e) && Finds(run[i].store, slot, run[i].now, e) && OnItsWay(run[i], c, slot, e)
    requires forall k :: 0 <= k < |steps| ==> Enabled(cfg, run[k], steps[k]) && run[k + 1] == Apply(cfg, run[k], steps[k])
    ensures OnItsWay(run[n], c, slot, e)
    decreases n
  {
    if i < n {
      RunStaysOnItsWay(cfg, run, steps, i, n - 1, c, slot, e);
      RunKeepsRecord(cfg, run, steps, i, n - 1, c, slot, e);
      StaysOnItsWay(cfg, run[n - 1], steps[n - 1], c, slot, e);
    }
  }

  /**
   * A retry is answered with the kept response: once a response is in a store, a request with the same key and body
   * that arrives there later and is told anything is told exactly that response, as long as the record is live and
   * neither evicted nor written over, and the request's commands are answered. Nobody is let through.
   */
  lemma KeptIsReplayed(cfg: Config, run: seq<State>, steps: seq<Step>, i: nat, n: nat, c: nat, e: Entry)
    requires IsRun(cfg, run, steps) && i < |steps| && steps[i].Arrive? && c == |run[i].clients| && i + 1 <= n
    requires e.rec.Done? && e.rec.body == steps[i].body
    requires var slot := Slot(if cfg.hasRedis then Shared else Own(steps[i].inst), steps[i].key);
             Finds(run[i].store, slot, run[i].now, e) && Undisturbed(run, steps, i + 1, n, c, slot, e)
    ensures c < |run[n].clients| && !run[n].clients[c].phase.Open?
    ensures run[n].clients[c].phase.Answered? ==> run[n].clients[c].phase.begin == Replay(e.rec.response)
    ensures run[n].clients[c].phase.Answered? || run[n].clients[c].phase.Setting? || run[n].clients[c].phase.Getting?
            || run[n].clients[c].phase.Timing? || run[n].clients[c].phase == Falling
  {
    var slot := Slot(if cfg.hasRedis then Shared else Own(steps[i].inst), steps[i].key);
    assert Enabled(cfg, run[i], steps[i]) && run[i + 1] == Apply(cfg, run[i], steps[i]);
    RunStaysOnItsWay(cfg, run, steps, i + 1, n, c, slot, e);
  }

  /** Such a request is told by its next command, or its next three. */
  lemma ReplayedWithinThree(cfg: Config, s: State, c: nat, slot: Slot, e: Entry)
    requires Finds(s.store, slot, s.now, e) && OnItsWay(s, c, slot, e)
    ensures s.clients[c].phase == Falling ==>
              Enabled(cfg, s, BeginLocal(c)) && Apply(cfg, s, BeginLocal(c)).clients[c].phase == Answered(Replay(e.rec.response))
    ensures s.clients[c].phase.Setting? ==>
              && Enabled(cfg, s, SetNx(c, true))
              && var s1 := Apply(cfg, s, SetNx(c, true));
                 && Enabled(cfg, s1, Get(c, true))
                 && var s2 := Apply(cfg, s1, Get(c, true));
                    Enabled(cfg, s2, Pttl(c, true)) && Apply(cfg, s2, Pttl(c, true)).clients[c].phase == Answered(Replay(e.rec.response))
  {
  }
}
