/** Beginning and finishing an idempotent request, as each request runs it. */
module Idempotency {
  import opened Types
  import opened IdempotencyModel
  import opened IdempotencyAnswers

  /** What a request gets to know by asking the shared store, command by command; `at` is what each one finds. */
  function Talk(cfg: Config, at: nat -> Moment, body: nat, n: nat, p: Phase): Phase
    requires p.Setting? ==> p.tries < 3
    decreases match p
      case Setting(t) => if t < 3 then 12 - 3 * t else 0
      case Getting(t) => if t < 3 then 11 - 3 * t else 2
      case Timing(t, _) => if t < 3 then 10 - 3 * t else 1
      case _ => 0
  {
    if p.Setting? || p.Getting? || p.Timing? then Talk(cfg, at, body, n + 1, Next(cfg, p, at(n), body)) else p
  }

  /** Asking ends with the request let through, answered, or sent to the in-process store. */
  lemma {:induction false} TalkEnds(cfg: Config, at: nat -> Moment, body: nat, n: nat, p: Phase)
    requires p.Setting? ==> p.tries < 3
    requires p.Setting? || p.Getting? || p.Timing?
    ensures var q := Talk(cfg, at, body, n, p); q.Open? || q.Answered? || q == Falling
    decreases match p
      case Setting(t) => if t < 3 then 12 - 3 * t else 0
      case Getting(t) => if t < 3 then 11 - 3 * t else 2
      case Timing(t, _) => if t < 3 then 10 - 3 * t else 1
      case _ => 0
  {
    var q := Next(cfg, p, at(n), body);
    if q.Setting? || q.Getting? || q.Timing? {
      TalkEnds(cfg, at, body, n + 1, q);
    }
  }

  /** Up to three rounds of SET NX, GET and PTTL; `None` means the record kept vanishing or a reply did not come. */
  method BeginShared(cfg: Config, at: nat -> Moment, body: nat) returns (p: Phase)
    ensures p == Talk(cfg, at, body, 0, Setting(0))
    ensures exists r: nat :: r <= 3 && RoundsMissed(at, r) && EndsIn(cfg, at, body, r, p)
  {
    for i := 0 to 3
      invariant RoundsMissed(at, i)
      invariant Talk(cfg, at, body, 0, Setting(0)) == Talk(cfg, at, body, 3 * i, if i < 3 then Setting(i) else Falling)
    {
      var put := at(3 * i);
      if !put.seen {
        assert EndsIn(cfg, at, body, i, Falling);
        return Falling;
      }
      if put.live.None? {
        assert EndsIn(cfg, at, body, i, Open(Shared, put.now + PendingTtl(cfg)));
        return Open(Shared, put.now + PendingTtl(cfg));
      }
      var cur := at(3 * i + 1);
      assert Talk(cfg, at, body, 3 * i, Setting(i)) == Talk(cfg, at, body, 3 * i + 1, Getting(i));
      ghost var read := Next(cfg, Getting(i), cur, body);
      assert Talk(cfg, at, body, 3 * i + 1, Getting(i)) == Talk(cfg, at, body, 3 * i + 2, read);
      if !cur.seen {
        assert EndsIn(cfg, at, body, i, Falling);
        return Falling;
      }
      var ttl := at(3 * i + 2);
      assert Talk(cfg, at, body, 3 * i + 2, read) == Talk(cfg, at, body, 3 * i + 3, Next(cfg, read, ttl, body));
      if !ttl.seen {
        assert EndsIn(cfg, at, body, i, Falling);
        return Falling;
      }
      if cur.live.Some? {
        var left := if ttl.live.Some? then ttl.live.value.exp - ttl.now else -2;
        p := Answered(Existing(cur.live.value.rec, body, Max(left, 1000)));
        assert EndsIn(cfg, at, body, i, p);
        return p;
      }
    }
    assert EndsIn(cfg, at, body, 3, Falling);
    return Falling;
  }

  /** The in-process store, whose operations on a key are atomic. */
  class Records {
    var store: Store
    var now: nat

    constructor ()
      ensures store == map[] && now == 0
    {
      store, now := map[], 0;
    }

    /** Inserts our pending record if the key is free; otherwise says what is there. */
    method BeginLocal(cfg: Config, ghost s: State, c: nat, inst: nat, key: nat, body: nat) returns (p: Phase)
      requires s.store == store && s.now == now && c < |s.clients|
      requires s.clients[c].inst == inst && s.clients[c].key == key && s.clients[c].body == body
      modifies this
      ensures now == old(now) && store == ApplyBeginLocal(cfg, s, c).store && p == ApplyBeginLocal(cfg, s, c).clients[c].phase
      ensures var slot := Slot(Own(inst), key);
              && (forall e :: Finds(old(store), slot, now, e) ==>
                    store == old(store) && p.Answered? && Tells(e.rec, body, e.exp - now, p.begin))
              && (Free(old(store), slot, now) ==>
                    && p == Open(Own(inst), now + cfg.timeout + 5000)
                    && store == old(store)[slot := Entry(Pending(body, c), now + cfg.timeout + 5000)])
    {
      var slot := Slot(Own(inst), key);
      if slot in store && now < store[slot].exp {
        var e := store[slot];
        p := Answered(Existing(e.rec, body, e.exp - now));
      } else {
        var until := now + PendingTtl(cfg);
        store := store[slot := Entry(Pending(body, c), until)];
        p := Open(Own(inst), until);
      }
    }

    /** Keeps a response that is there and small enough; otherwise releases the record if it is still ours. */
    method FinishLocal(cfg: Config, ghost s: State, c: nat, inst: nat, key: nat, body: nat, response: Option<nat>)
      requires s.store == store && s.now == now && c < |s.clients| && s.clients[c].phase.Open?
      requires s.clients[c].phase.place == Own(inst) && s.clients[c].key == key && s.clients[c].body == body
      modifies this
      ensures now == old(now) && forall fate :: store == ApplyFinish(cfg, s, c, response, fate).store
      ensures Leaves(cfg, s, c, Own(inst), response, store)
    {
      var slot := Slot(Own(inst), key);
      if response.Some? && cfg.size(body, response.value) <= cfg.maxStored {
        store := store[slot := Entry(Done(body, response.value), now + cfg.doneTtl)];
      } else if slot in store && now < store[slot].exp {
        match store[slot].rec {
          case Pending(_, owner) =>
            if owner == c {
              store := store - {slot};
            }
          case Done(_, _) =>
        }
      }
    }
  }
}
