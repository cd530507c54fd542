/**
 * The sliding-window rate limiter: a sorted set of request times, pruned on every request
 * and dropped by its key's expiry, against the full history of requests.
 */
module RateLimit {

  /** Every request so far, latest outermost: the limiter's clock reading and whether it was let through. */
  datatype History = Start | Then(past: History, at: nat, admitted: bool)

  /** The clock never ran past `now`, and never backwards. */
  predicate OrderedUpTo(h: History, now: int) {
    h.Then? ==> h.at <= now && OrderedUpTo(h.past, h.at)
  }

  /** How many requests fall in (now - window, now]. */
  function InWindow(h: History, now: int, window: nat): nat {
    match h
    case Start => 0
    case Then(past, at, _) => InWindow(past, now, window) + if now - window < at <= now then 1 else 0
  }

  /** How many of them were admitted. */
  function AdmittedIn(h: History, now: int, window: nat): nat {
    match h
    case Start => 0
    case Then(past, at, admitted) =>
      AdmittedIn(past, now, window) + if now - window < at <= now && admitted then 1 else 0
  }

  /** The reference decision: count everybody in the window, this request included. */
  function Allows(h: History, now: nat, window: nat, max: nat): bool {
    InWindow(h, now, window) + 1 <= max
  }

  /** A history every entry of which was decided by the reference. */
  predicate Decided(h: History, window: nat, max: nat) {
    h.Then? ==> h.admitted == Allows(h.past, h.at, window, max) && Decided(h.past, window, max)
  }

  lemma {:induction false} AdmittedAtMostAll(h: History, now: int, window: nat)
    ensures AdmittedIn(h, now, window) <= InWindow(h, now, window)
  {
    if h.Then? {
      AdmittedAtMostAll(h.past, now, window);
    }
  }

  lemma {:induction false} OrderedLater(h: History, now: int, later: int)
    requires OrderedUpTo(h, now) && now <= later
    ensures OrderedUpTo(h, later)
  {
  }

  /** Moving the window's end forward past every request only loses requests. */
  lemma {:induction false} LaterCountsLess(h: History, now: int, later: int, window: nat)
    requires now <= later && OrderedUpTo(h, now)
    ensures AdmittedIn(h, later, window) <= AdmittedIn(h, now, window)
  {
    if h.Then? {
      OrderedLater(h.past, h.at, now);
      LaterCountsLess(h.past, now, later, window);
    }
  }

  /** No window of the configured length, wherever it ends, ever admits more than `max` requests. */
  lemma {:induction false} WindowBound(h: History, now: int, window: nat, max: nat, end: int)
    requires OrderedUpTo(h, now) && Decided(h, window, max)
    ensures AdmittedIn(h, end, window) <= max
  {
    if h.Then? {
      WindowBound(h.past, h.at, window, max, end);
      if end - window < h.at <= end && h.admitted {
        LaterCountsLess(h.past, h.at, end, window);
        AdmittedAtMostAll(h.past, h.at, window);
      }
    }
  }

  /** The times of all requests, oldest first, refused ones included. */
  function Times(h: History): seq<nat> {
    match h
    case Start => []
    case Then(past, at, _) => Times(past) + [at]
  }

  /** Which of them are less than a window old. */
  function Recent(h: History, now: int, window: nat): set<nat> {
    set i | 0 <= i < |Times(h)| && now - window < Times(h)[i] <= now
  }

  lemma {:induction false} RecentCounts(h: History, now: int, window: nat)
    ensures |Recent(h, now, window)| == InWindow(h, now, window)
  {
    if h.Then? {
      RecentCounts(h.past, now, window);
      var n := |Times(h.past)|;
      assert Recent(h, now, window) == Recent(h.past, now, window) + if now - window < h.at <= now then {n} else {};
    }
  }

  /** The history as it was before request `k`. */
  function Before(h: History, k: nat): History
    requires k <= |Times(h)|
  {
    if k == |Times(h)| then h else Before(h.past, k)
  }

  /** Every request ever made was let through exactly if fewer than `max` others were less than a window old. */
  lemma {:induction false} AllowedExactly(h: History, window: nat, max: nat, k: nat)
    requires Decided(h, window, max) && k < |Times(h)|
    ensures var asked := Before(h, k + 1);
            && asked.Then? && asked.past == Before(h, k) && asked.at == Times(h)[k]
            && (asked.admitted <==> |Recent(asked.past, asked.at, window)| < max)
    decreases h
  {
    if k + 1 == |Times(h)| {
      RecentCounts(h.past, h.at, window);
    } else {
      AllowedExactly(h.past, window, max, k);
    }
  }

  // ---- The guard over its sorted set ----

  /** The request times of a history that are later than `bound`, oldest first. */
  function Kept(h: History, bound: int): seq<nat> {
    match h
    case Start => []
    case Then(past, at, _) => Kept(past, bound) + if bound < at then [at] else []
  }

  /** `ZREMRANGEBYSCORE key 0 bound`; scores are never negative. */
  function Prune(zset: seq<nat>, bound: int): seq<nat> {
    if zset == [] then []
    else Prune(zset[..|zset| - 1], bound) + if bound < zset[|zset| - 1] then [zset[|zset| - 1]] else []
  }

  /** `ZCOUNT key lo hi`, both ends included. */
  function CountBetween(zset: seq<nat>, lo: int, hi: int): nat {
    if zset == [] then 0
    else CountBetween(zset[..|zset| - 1], lo, hi) + if lo <= zset[|zset| - 1] <= hi then 1 else 0
  }

  lemma {:induction false} PruneKept(h: History, early: int, late: int)
    requires early <= late
    ensures Prune(Kept(h, early), late) == Kept(h, late)
  {
    if h.Then? {
      PruneKept(h.past, early, late);
      var kept := Kept(h, early);
      if early < h.at {
        assert kept[..|kept| - 1] == Kept(h.past, early);
      } else {
        assert kept == Kept(h.past, early) && Kept(h, late) == Kept(h.past, late);
      }
    }
  }

  lemma {:induction false} NothingKept(h: History, bound: int)
    requires OrderedUpTo(h, bound)
    ensures Kept(h, bound) == []
  {
    if h.Then? {
      OrderedLater(h.past, h.at, bound);
      NothingKept(h.past, bound);
    }
  }

  /** The pruned set counts exactly the requests of the window. */
  lemma {:induction false} KeptCounts(h: History, now: int, window: nat)
    requires OrderedUpTo(h, now)
    ensures CountBetween(Kept(h, now - window), now - window, now) == InWindow(h, now, window)
  {
    if h.Then? {
      OrderedLater(h.past, h.at, now);
      KeptCounts(h.past, now, window);
      var kept := Kept(h, now - window);
      if now - window < h.at {
        assert kept[..|kept| - 1] == Kept(h.past, now - window);
      } else {
        assert kept == Kept(h.past, now - window);
      }
    }
  }

  /** The stored set and its expiry time represent a history. */
  predicate Represents(h: History, zset: seq<nat>, expireAt: int, window: nat, max: nat) {
    && window > 0 && Decided(h, window, max)
    && match h
       case Start => zset == []
       case Then(_, last, _) => OrderedUpTo(h, last) && expireAt == last + window && zset == Kept(h, last - window)
  }

  /** What the store still has of the set: all of it, or nothing once the key may have expired. */
  predicate MayLeave(zset: seq<nat>, expireAt: int, now: int, left: seq<nat>) {
    left == zset || (left == [] && expireAt <= now)
  }

  /** Dropped or not, pruning leaves the window's requests. */
  lemma StillKept(h: History, zset: seq<nat>, last: int, left: seq<nat>, now: int, window: nat)
    requires OrderedUpTo(h, last) && last <= now && zset == Kept(h, last - window)
    requires MayLeave(zset, last + window, now, left)
    ensures Prune(left, now - window) == Kept(h, now - window)
  {
    if left == zset {
      PruneKept(h, last - window, now - window);
    } else {
      OrderedLater(h, last, now - window);
      NothingKept(h, now - window);
    }
  }

  lemma CountWithNew(h: History, now: nat, window: nat)
    requires OrderedUpTo(h, now)
    ensures CountBetween(Kept(h, now - window) + [now], now - window, now) == InWindow(h, now, window) + 1
  {
    var kept := Kept(h, now - window);
    assert (kept + [now])[..|kept|] == kept;
    KeptCounts(h, now, window);
  }

  lemma Recorded(h: History, now: nat, window: nat, max: nat)
    requires window > 0 && Decided(h, window, max) && OrderedUpTo(h, now)
    ensures var h' := Then(h, now, Allows(h, now, window, max));
            Represents(h', Kept(h, now - window) + [now], now + window, window, max)
  {
  }

  /** One request keeps the set a representation, and counts what the window holds. */
  lemma Served(h: History, zset: seq<nat>, expireAt: int, left: seq<nat>, pruned: seq<nat>, now: nat, window: nat,
               max: nat)
    requires Represents(h, zset, expireAt, window, max) && OrderedUpTo(h, now)
    requires MayLeave(zset, expireAt, now, left) && pruned == Prune(left, now - window)
    ensures CountBetween(pruned + [now], now - window, now) == InWindow(h, now, window) + 1
    ensures Represents(Then(h, now, Allows(h, now, window, max)), pruned + [now], now + window, window, max)
  {
    assert pruned == Kept(h, now - window) by {
      if h.Then? {
        StillKept(h, zset, h.at, left, now, window);
      }
    }
    CountWithNew(h, now, window);
    Recorded(h, now, window, max);
  }

  /** One rate-limited key. */
  class RateLimitGuard {
    const window: nat
    const max: nat
    var zset: seq<nat>
    var expireAt: int
    ghost var history: History

    ghost predicate Valid()
      reads this
    {
      Represents(history, zset, expireAt, window, max)
    }

    constructor (window: nat, max: nat)
      requires window > 0
      ensures Valid() && history == Start && this.window == window && this.max == max
    {
      this.window, this.max := window, max;
      zset, expireAt, history := [], 0, Start;
    }

    /**
     * One request. `expired` is the store's choice: once `expireAt` is reached the key may
     * have been dropped already, or not yet. The answer is the reference's either way.
     */
    method CanActivate(now: nat, expired: bool) returns (allowed: bool)
      requires Valid() && OrderedUpTo(history, now)
      requires expired ==> expireAt <= now
      modifies this
      ensures Valid() && OrderedUpTo(history, now)
      ensures allowed == Allows(old(history), now, window, max)
      ensures allowed <==> |Recent(old(history), now, window)| < max
      ensures history == Then(old(history), now, allowed)
    {
      ghost var stored := zset;
      if expired {
        zset := [];
      }
      ghost var left := zset;
      var windowStart := now - window;
      zset := Prune(zset, windowStart);
      Served(history, stored, expireAt, left, zset, now, window, max);
      zset := zset + [now];
      var count := CountBetween(zset, windowStart, now);
      expireAt := now + window;
      allowed := count <= max;
      RecentCounts(history, now, window);
      history := Then(history, now, allowed);
    }
  }
}
