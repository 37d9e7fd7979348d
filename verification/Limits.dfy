/** The fixed-window counter: the window arithmetic, the shared counter as Redis keeps
    it, and one process's `spend`. */
module Limits {
  import opened Common

  const WINDOW_MS: nat := 60_000
  const DOWN_WINDOW_MS: nat := 5_000

  // ---- The arithmetic ----

  function WindowStartFor(nowMs: int, windowMs: nat): int
    requires windowMs > 0
  {
    nowMs / windowMs * windowMs
  }

  /** `Math.ceil(ms / 1_000)` */
  function CeilSeconds(ms: int): int {
    -(-ms / 1_000)
  }

  predicate OverLimit(count: Option<nat>, limit: int) {
    count.Some? && count.value > limit
  }

  datatype Decision = Decision(over: bool, limit: int, remaining: int, resetSeconds: int, retryAfterSeconds: int)

  function Decide(count: Option<nat>, limit: int, nowMs: int, windowMs: nat): Decision
    requires windowMs > 0
  {
    var reset := WindowStartFor(nowMs, windowMs) + windowMs;
    Decision(
      OverLimit(count, limit),
      limit,
      Max(0, limit - (if count.Some? then count.value else 0)),
      CeilSeconds(reset),
      Max(1, CeilSeconds(reset - nowMs)))
  }

  lemma CeilSecondsIsLeast(ms: int)
    ensures 1_000 * (CeilSeconds(ms) - 1) < ms <= 1_000 * CeilSeconds(ms)
  {
  }

  /** The quotient is the only whole number whose window holds the instant. */
  lemma QuotientHolds(x: int, d: nat)
    requires d > 0
    ensures x / d * d <= x < x / d * d + d
  {
    assert x == x / d * d + x % d;
  }

  lemma MultiplesAreApart(p: int, q: int, d: nat)
    requires p < q
    ensures p * d + d <= q * d
  {
    var gap := q - p - 1;
    assert gap * d >= 0;
    assert q * d == p * d + d + gap * d;
  }

  /** An instant belongs to the window that starts at `windowMs * n` exactly when it lies
      in it: windows are disjoint and leave no gap. */
  lemma WindowHolds(nowMs: int, windowMs: nat, n: int)
    requires windowMs > 0
    ensures WindowStartFor(nowMs, windowMs) == n * windowMs <==> n * windowMs <= nowMs < n * windowMs + windowMs
  {
    var q := nowMs / windowMs;
    QuotientHolds(nowMs, windowMs);
    if q < n {
      MultiplesAreApart(q, n, windowMs);
    } else if n < q {
      MultiplesAreApart(n, q, windowMs);
    }
  }

  /** Waiting `retryAfterSeconds` always lands in a later window, one second less never
      does, and `resetSeconds` is the first whole second outside this window. */
  lemma RetryAfterIsExact(count: Option<nat>, limit: int, nowMs: int, windowMs: nat)
    requires windowMs > 0
    ensures var d, start := Decide(count, limit, nowMs, windowMs), WindowStartFor(nowMs, windowMs);
            && d.retryAfterSeconds >= 1
            && WindowStartFor(nowMs + 1_000 * d.retryAfterSeconds, windowMs) > start
            && WindowStartFor(nowMs + 1_000 * (d.retryAfterSeconds - 1), windowMs) == start
            && WindowStartFor(1_000 * d.resetSeconds, windowMs) > start
            && 1_000 * (d.resetSeconds - 1) < start + windowMs
  {
    var d, n := Decide(count, limit, nowMs, windowMs), nowMs / windowMs;
    var reset := n * windowMs + windowMs;
    WindowHolds(nowMs, windowMs, n);
    CeilSecondsIsLeast(reset - nowMs);
    CeilSecondsIsLeast(reset);
    WindowHolds(nowMs + 1_000 * (d.retryAfterSeconds - 1), windowMs, n);
    LaterIsLater(nowMs + 1_000 * d.retryAfterSeconds, windowMs, n);
    LaterIsLater(1_000 * d.resetSeconds, windowMs, n);
  }

  /** A decision without a count is never over, one with a count is over exactly when the count
      exceeds the limit; what remains is what the limit leaves after the count, and all of it
      without one. */
  lemma DecisionFailsOpen(count: Option<nat>, limit: int, nowMs: int, windowMs: nat)
    requires windowMs > 0
    ensures var d := Decide(count, limit, nowMs, windowMs);
            && d.limit == limit && d.remaining >= 0
            && (count.None? ==> !d.over && (limit >= 0 ==> d.remaining == limit))
            && (count.Some? ==>
                  && (d.over <==> count.value > limit)
                  && (count.value <= limit ==> count.value + d.remaining == limit)
                  && (count.value >= limit ==> d.remaining == 0))
  {
  }

  lemma LaterIsLater(later: int, windowMs: nat, n: int)
    requires windowMs > 0 && later >= n * windowMs + windowMs
    ensures WindowStartFor(later, windowMs) > n * windowMs
  {
    QuotientHolds(later, windowMs);
  }

  // ---- The shared counter ----

  /** `rl:{environment}:{operation}:{window}` */
  datatype Bucket = Bucket(environment: string, operation: string, window: int)

  /** A counter expires only once it has been told to. */
  datatype Counter = Counter(count: nat, expiry: Option<int>)

  datatype Store = Store(now: int, counters: map<Bucket, Counter>)

  predicate Live(s: Store, b: Bucket) {
    b in s.counters && (s.counters[b].expiry.Some? ==> s.now < s.counters[b].expiry.value)
  }

  /** `INCR key`: a key that is gone starts over, without an expiry. */
  function Incr(s: Store, b: Bucket): (Store, nat) {
    var next := if Live(s, b) then s.counters[b].(count := s.counters[b].count + 1) else Counter(1, None);
    (s.(counters := s.counters[b := next]), next.count)
  }

  /** `PEXPIRE key window` */
  function PExpire(s: Store, b: Bucket): Store {
    if Live(s, b) then s.(counters := s.counters[b := s.counters[b].(expiry := Some(s.now + WINDOW_MS))]) else s
  }

  // ---- One process ----

  datatype Happening = Incremented(bucket: Bucket) | GivenExpiry(bucket: Bucket) | Passed(ms: nat)

  datatype Turn = Turn(others: seq<Happening>, hearing: Hearing)

  /** The store, and what will happen to it and to our commands; with no turns left the
      world is quiet. */
  datatype World = World(store: Store, turns: seq<Turn>)

  function Happen(s: Store, hs: seq<Happening>): Store
    decreases |hs|
  {
    if hs == [] then s
    else match hs[0]
      case Incremented(b) => Happen(Incr(s, b).0, hs[1..])
      case GivenExpiry(b) => Happen(PExpire(s, b), hs[1..])
      case Passed(ms) => Happen(s.(now := s.now + ms), hs[1..])
  }

  function NextTurn(w: World): Turn {
    if w.turns == [] then Turn([], Answered) else w.turns[0]
  }

  function Found(w: World): Store {
    Happen(w.store, NextTurn(w).others)
  }

  function Rest(w: World): seq<Turn> {
    if w.turns == [] then [] else w.turns[1..]
  }

  /** Send INCR: the world after it, and the count if it was heard. */
  function AskIncr(w: World, b: Bucket): (World, Option<nat>) {
    var (after, count) := Incr(Found(w), b);
    match NextTurn(w).hearing
    case Answered => (World(after, Rest(w)), Some(count))
    case RanUnheard => (World(after, Rest(w)), None)
    case NeverRan => (World(Found(w), Rest(w)), None)
  }

  /** Send PEXPIRE: the world after it, and whether it was heard. */
  function AskExpire(w: World, b: Bucket): (World, bool) {
    match NextTurn(w).hearing
    case Answered => (World(PExpire(Found(w), b), Rest(w)), true)
    case RanUnheard => (World(PExpire(Found(w), b), Rest(w)), false)
    case NeverRan => (World(Found(w), Rest(w)), false)
  }

  /** What the store said to one spend, if it said anything: a first count whose expiry
      was not acknowledged does not stand. */
  function Asked(w: World, b: Bucket): (World, Option<nat>) {
    var (w1, count) := AskIncr(w, b);
    if count != Some(1) then (w1, count) else
    var (w2, heard) := AskExpire(w1, b);
    (w2, if heard then count else None)
  }

  class GatewayLimits {
    var store: Store
    var turns: seq<Turn>
    var downUntil: int

    ghost function Now(): World reads this { World(store, turns) }

    constructor (store: Store, turns: seq<Turn>)
      ensures Now() == World(store, turns) && downUntil == 0
    {
      this.store, this.turns, downUntil := store, turns, 0;
    }

    method TakeTurn() returns (hearing: Hearing)
      modifies this
      ensures hearing == NextTurn(old(Now())).hearing && Now() == World(Found(old(Now())), Rest(old(Now())))
      ensures downUntil == old(downUntil)
    {
      hearing := NextTurn(World(store, turns)).hearing;
      store := Found(World(store, turns));
      turns := if turns == [] then [] else turns[1..];
    }

    method SendIncr(b: Bucket) returns (count: Option<nat>)
      modifies this
      ensures (Now(), count) == AskIncr(old(Now()), b) && downUntil == old(downUntil)
    {
      var hearing := TakeTurn();
      count := None;
      if hearing != NeverRan {
        var (after, ran) := Incr(store, b);
        store := after;
        count := if hearing == Answered then Some(ran) else None;
      }
    }

    method SendExpire(b: Bucket) returns (heard: bool)
      modifies this
      ensures (Now(), heard) == AskExpire(old(Now()), b) && downUntil == old(downUntil)
    {
      var hearing := TakeTurn();
      if hearing != NeverRan {
        store := PExpire(store, b);
      }
      heard := hearing == Answered;
    }

    /** Counts one operation. A store known to be down is not asked; a store that answers
        is asked again at once, one that does not is left alone for five seconds; and
        nobody is refused for what the store did not say. */
    method Spend(environment: string, operation: string, limit: int) returns (d: Decision)
      modifies this
      ensures old(store.now < downUntil) ==>
                Now() == old(Now()) && downUntil == old(downUntil)
                    && d == Decide(None, limit, old(store.now), 60_000)
      ensures old(store.now >= downUntil) ==>
                var (w, count) := Asked(old(Now()),
                    Bucket(environment, operation, WindowStartFor(old(store.now), 60_000)));
                && Now() == w
                && downUntil == (if count.Some? then 0 else old(store.now) + 5_000)
                && d == Decide(count, limit, old(store.now), 60_000)
      ensures d.over <==>
                var (_, count) := Asked(old(Now()),
                    Bucket(environment, operation, WindowStartFor(old(store.now), 60_000)));
                old(store.now >= downUntil) && count.Some? && count.value > limit
    {
      var now := store.now;
      if now < downUntil { return Decide(None, limit, now, WINDOW_MS); }
      var key := Bucket(environment, operation, WindowStartFor(now, WINDOW_MS));
      var count := SendIncr(key);
      if count == Some(1) {
        var heard := SendExpire(key);
        if !heard { count := None; }
      }
      downUntil := if count.Some? then 0 else now + DOWN_WINDOW_MS;
      return Decide(count, limit, now, WINDOW_MS);
    }
  }
}
