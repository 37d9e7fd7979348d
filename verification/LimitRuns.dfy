/** Any number of processes spending from one Redis counter on one clock: commands
    interleave, replies are lost, and a command whose caller gave up may still run. */
module LimitRuns {
  import opened Common
  import opened Limits

  /** `Waiting` for INCR; `Counting` for PEXPIRE, having heard a count of 1. */
  datatype Phase = Waiting | Counting | Decided(count: Option<nat>)

  /** A command that Redis may still run for this spend. */
  datatype Pending = Nothing | IncrPending | ExpirePending

  /** The count Redis gave an INCR, and how often its bucket had started over by then. */
  datatype Mark = Mark(era: nat, count: nat)

  /** `got` remembers what Redis gave this spend's INCR, whether or not anyone heard it. */
  datatype Spend = Spend(bucket: Bucket, limit: int, readAt: int, phase: Phase, pending: Pending, got: Option<Mark>)

  /** `revivals` counts the INCRs that found a counted key expired; `tops` remembers how far
      the counting came in each era of a bucket. */
  datatype Sys = Sys(
    store: Store,
    spends: map<string, Spend>,
    revivals: map<Bucket, nat>,
    tops: map<(Bucket, nat), nat>)

  datatype Step =
    | Tick(ms: nat)
    | Begin(id: string, environment: string, operation: string, limit: int)
    | Refrain(id: string, environment: string, operation: string, limit: int)
    | RunIncr(id: string, heard: bool)
    | RunExpire(id: string, heard: bool)
    | GiveUp(id: string)

  function Init(now: int): Sys {
    Sys(Store(now, map[]), map[], map[], map[])
  }

  predicate IsWaiting(s: Sys, id: string) {
    id in s.spends && !s.spends[id].phase.Decided?
  }

  /** `Refrain` is a spend whose process holds the store to be down. A command can only be
      heard while its caller still waits for it. */
  predicate Can(s: Sys, step: Step) {
    match step
    case Tick(_) => true
    case Begin(id, _, _, _) => id !in s.spends
    case Refrain(id, _, _, _) => id !in s.spends
    case RunIncr(id, heard) =>
      id in s.spends && s.spends[id].pending.IncrPending? && (heard ==> s.spends[id].phase.Waiting?)
    case RunExpire(id, heard) =>
      id in s.spends && s.spends[id].pending.ExpirePending? && (heard ==> s.spends[id].phase.Counting?)
    case GiveUp(id) => IsWaiting(s, id)
  }

  function Fresh(s: Sys, environment: string, operation: string, limit: int): Spend {
    Spend(Bucket(environment, operation, WindowStartFor(s.store.now, WINDOW_MS)), limit, s.store.now, Waiting,
        IncrPending, None)
  }

  function Revivals(s: Sys, b: Bucket): nat {
    if b in s.revivals then s.revivals[b] else 0
  }

  function Top(s: Sys, b: Bucket, era: nat): nat {
    if (b, era) in s.tops then s.tops[(b, era)] else 0
  }

  /** An INCR of this bucket would start a key over that had been counted. */
  predicate Expired(s: Sys, b: Bucket) {
    b in s.store.counters && !Live(s.store, b)
  }

  /** The INCR of `c` ran and was given `m`. */
  function AfterIncr(c: Spend, m: Mark, heard: bool): Spend {
    if !heard then c.(got := Some(m), pending := Nothing, phase := if c.phase.Waiting? then Decided(None) else c.phase)
    else if m.count == 1 then c.(got := Some(m), pending := ExpirePending, phase := Counting)
    else c.(got := Some(m), pending := Nothing, phase := Decided(Some(m.count)))
  }

  function AfterExpire(c: Spend, heard: bool): Spend {
    if heard then c.(pending := Nothing, phase := Decided(if c.got.Some? then Some(c.got.value.count) else None))
    else c.(pending := Nothing, phase := if c.phase.Counting? then Decided(None) else c.phase)
  }

  /** The process got an exception: the command it waited for may still run. */
  function AfterGivingUp(c: Spend): Spend {
    c.(phase := Decided(None))
  }

  function Counted(s: Sys, id: string, heard: bool): Sys
    requires id in s.spends
  {
    var b := s.spends[id].bucket;
    var (after, n) := Incr(s.store, b);
    var era := Revivals(s, b) + if Expired(s, b) then 1 else 0;
    Sys(after, s.spends[id := AfterIncr(s.spends[id], Mark(era, n), heard)], s.revivals[b := era],
        s.tops[(b, era) := n])
  }

  function Next(s: Sys, step: Step): Sys
    requires Can(s, step)
  {
    match step
    case Tick(ms) => s.(store := s.store.(now := s.store.now + ms))
    case Begin(id, environment, operation, limit) =>
      s.(spends := s.spends[id := Fresh(s, environment, operation, limit)])
    case Refrain(id, environment, operation, limit) =>
      s.(spends := s.spends[id := Fresh(s, environment, operation, limit).(phase := Decided(None), pending := Nothing)])
    case RunIncr(id, heard) => Counted(s, id, heard)
    case RunExpire(id, heard) =>
      s.(store := PExpire(s.store, s.spends[id].bucket), spends := s.spends[id := AfterExpire(s.spends[id], heard)])
    case GiveUp(id) => s.(spends := s.spends[id := AfterGivingUp(s.spends[id])])
  }

  predicate Reaches(s: Sys, steps: seq<Step>, t: Sys)
    decreases |steps|
  {
    if steps == [] then s == t
    else Can(s, steps[0]) && Reaches(Next(s, steps[0]), steps[1..], t)
  }

  /** The step its INCR is, by what its process hears of it. */
  function IncrStep(id: string, hearing: Hearing): Step {
    if hearing.NeverRan? then GiveUp(id) else RunIncr(id, hearing.Answered?)
  }

  function ExpireStep(id: string, hearing: Hearing): Step {
    if hearing.NeverRan? then GiveUp(id) else RunExpire(id, hearing.Answered?)
  }

  /** The system as others have brought its store to this. */
  function With(s: Sys, store: Store): Sys {
    s.(store := store)
  }

  /** `spend` of one process takes exactly these steps, whatever it hears or does not hear of
      either command and whatever others do in between: they leave the store as it does, and
      what it decides is the phase its spend ends in. */
  lemma SpendIsSteps(s: Sys, id: string, w: World)
    requires id in s.spends && s.spends[id].phase.Waiting? && s.spends[id].pending.IncrPending?
    ensures var b := s.spends[id].bucket;
            var first, asked := IncrStep(id, NextTurn(w).hearing), AskIncr(w, b).0;
            && Can(With(s, Found(w)), first)
            && var counted := Next(With(s, Found(w)), first);
            && counted.store == asked.store
            && if !counted.spends[id].phase.Counting? then
                counted.spends[id].phase == Decided(Asked(w, b).1) && Asked(w, b).0 == asked
              else
                var second := ExpireStep(id, NextTurn(asked).hearing);
                && Can(With(counted, Found(asked)), second)
                && var done := Next(With(counted, Found(asked)), second);
                done.spends[id].phase == Decided(Asked(w, b).1) && done.store == Asked(w, b).0.store
  {
  }

  /** It begins by reading the clock, which names its bucket; a process that holds the store to
      be down has decided then, and neither touches the store. */
  lemma SpendBegins(s: Sys, id: string, environment: string, operation: string, limit: int, down: bool)
    requires id !in s.spends
    ensures var step :=
              if down then Refrain(id, environment, operation, limit) else Begin(id, environment, operation, limit);
            var t := Next(s, step);
            && t.store == s.store && t.spends.Keys == s.spends.Keys + {id}
            && var c := t.spends[id];
            && c.bucket == Bucket(environment, operation, WindowStartFor(s.store.now, 60_000))
            && c.limit == limit && c.readAt == s.store.now
            && (if down then c.phase == Decided(None) && c.pending.Nothing?
                else c.phase.Waiting? && c.pending.IncrPending?)
  {
  }

  // ---- A key outlives its window ----

  predicate SpendOk(s: Sys, c: Spend) {
    && c.bucket.window == WindowStartFor(c.readAt, WINDOW_MS) <= c.readAt <= s.store.now
    && (c.pending.IncrPending? ==> c.got.None? && !c.phase.Counting?)
    && (c.phase.Waiting? ==> c.got.None?)
    && (c.phase.Counting? ==> c.got.Some?)
    && (c.phase.Decided? && c.phase.count.Some? ==> c.got.Some? && c.got.value.count == c.phase.count.value)
  }

  predicate Inv(s: Sys) {
    && (forall id :: id in s.spends ==> SpendOk(s, s.spends[id]))
    && (forall b :: b in s.store.counters && s.store.counters[b].expiry.Some? ==>
        s.store.counters[b].expiry.value >= b.window + WINDOW_MS)
  }

  lemma StepIsInv(s: Sys, step: Step)
    requires Inv(s) && Can(s, step)
    ensures Inv(Next(s, step))
  {
    QuotientHolds(s.store.now, WINDOW_MS);
  }

  lemma {:induction false} RunIsInv(s: Sys, steps: seq<Step>, t: Sys)
    requires Inv(s) && Reaches(s, steps, t)
    ensures Inv(t)
    decreases |steps|
  {
    if steps != [] {
      StepIsInv(s, steps[0]);
      RunIsInv(Next(s, steps[0]), steps[1..], t);
    }
  }

  /** After any run at all, a key that was ever counted is still there for as long as its
      own window lasts, whether or not its PEXPIRE was ever run. */
  lemma KeyOutlivesItsWindow(start: int, steps: seq<Step>, s: Sys, b: Bucket)
    requires Reaches(Init(start), steps, s)
    requires b in s.store.counters && s.store.now < b.window + 60_000
    ensures Live(s.store, b)
  {
    RunIsInv(Init(start), steps, s);
  }

  // ---- Counting ----

  function CountOf(s: Sys, b: Bucket): nat {
    if b in s.store.counters then s.store.counters[b].count else 0
  }

  predicate Got(s: Sys, b: Bucket, m: Mark, id: string) {
    id in s.spends && s.spends[id].bucket == b && s.spends[id].got == Some(m)
  }

  ghost predicate HandedOut(s: Sys, b: Bucket, m: Mark) {
    exists id :: Got(s, b, m, id)
  }

  /** The counting stands where its latest era has come to. */
  ghost predicate TopsOk(s: Sys) {
    && (forall b :: Top(s, b, Revivals(s, b)) == CountOf(s, b))
    && (forall b, era: nat :: era > Revivals(s, b) ==> Top(s, b, era) == 0)
  }

  ghost predicate InBounds(s: Sys) {
    forall b, m, id :: Got(s, b, m, id) ==> m.era <= Revivals(s, b) && 1 <= m.count <= Top(s, b, m.era)
  }

  ghost predicate OneEach(s: Sys) {
    forall b, m, id, other :: Got(s, b, m, id) && Got(s, b, m, other) ==> id == other
  }

  ghost predicate NoGaps(s: Sys) {
    forall b, m: Mark :: 1 <= m.count <= Top(s, b, m.era) ==> HandedOut(s, b, m)
  }

  /** In each era of a bucket the counts handed out are 1, 2, … each to one spend. */
  ghost predicate Numbered(s: Sys) {
    TopsOk(s) && InBounds(s) && OneEach(s) && NoGaps(s)
  }

  /** Only an INCR hands out a count. */
  lemma OthersHandOutNothing(s: Sys, step: Step)
    requires Inv(s) && Can(s, step) && !step.RunIncr?
    ensures forall b, m, id :: Got(Next(s, step), b, m, id) <==> Got(s, b, m, id)
    ensures forall b :: CountOf(Next(s, step), b) == CountOf(s, b)
    ensures Next(s, step).revivals == s.revivals && Next(s, step).tops == s.tops
  {
  }

  lemma OthersKeepNumbered(s: Sys, step: Step)
    requires Inv(s) && Numbered(s) && Can(s, step) && !step.RunIncr?
    ensures Numbered(Next(s, step))
  {
    var t := Next(s, step);
    OthersHandOutNothing(s, step);
    assert forall b, era: nat :: Top(t, b, era) == Top(s, b, era);
    assert forall b :: Revivals(t, b) == Revivals(s, b);
    forall b, m: Mark | 1 <= m.count <= Top(t, b, m.era) ensures HandedOut(t, b, m) {
      assert HandedOut(s, b, m);
      var id :| Got(s, b, m, id);
      assert Got(t, b, m, id);
    }
  }

  /** What an INCR hands out: the next count of the era, or the first of a new one. */
  function Given(s: Sys, b: Bucket): Mark {
    if Expired(s, b) then Mark(Revivals(s, b) + 1, 1) else Mark(Revivals(s, b), CountOf(s, b) + 1)
  }

  lemma IncrHandsOutGiven(s: Sys, id: string, heard: bool)
    requires Inv(s) && Can(s, RunIncr(id, heard))
    ensures var t, b, m := Counted(s, id, heard), s.spends[id].bucket, Given(s, s.spends[id].bucket);
            && Revivals(t, b) == m.era && CountOf(t, b) == m.count
            && (forall x :: x != b ==> CountOf(t, x) == CountOf(s, x) && Revivals(t, x) == Revivals(s, x))
            && (forall x, era: nat :: Top(t, x, era) == (if x == b && era == m.era then m.count else Top(s, x, era)))
            && (forall x, y, z :: Got(t, x, y, z) <==> (Got(s, x, y, z) || (x == b && y == m && z == id)))
  {
  }

  /** What the INCR hands out was not handed out before, and leaves no gap behind it. */
  lemma GivenIsNext(s: Sys, b: Bucket)
    requires Numbered(s)
    ensures Given(s, b).count == Top(s, b, Given(s, b).era) + 1
    ensures forall id :: !Got(s, b, Given(s, b), id)
  {
    assert Top(s, b, Revivals(s, b)) == CountOf(s, b);
  }

  lemma IncrKeepsBounds(s: Sys, id: string, heard: bool)
    requires Inv(s) && Numbered(s) && Can(s, RunIncr(id, heard))
    ensures TopsOk(Counted(s, id, heard)) && InBounds(Counted(s, id, heard))
  {
    IncrHandsOutGiven(s, id, heard);
    GivenIsNext(s, s.spends[id].bucket);
  }

  lemma IncrKeepsOneEach(s: Sys, id: string, heard: bool)
    requires Inv(s) && Numbered(s) && Can(s, RunIncr(id, heard))
    ensures OneEach(Counted(s, id, heard))
  {
    IncrHandsOutGiven(s, id, heard);
    GivenIsNext(s, s.spends[id].bucket);
  }

  lemma IncrLeavesNoGaps(s: Sys, id: string, heard: bool)
    requires Inv(s) && Numbered(s) && Can(s, RunIncr(id, heard))
    ensures NoGaps(Counted(s, id, heard))
  {
    var t, b := Counted(s, id, heard), s.spends[id].bucket;
    IncrHandsOutGiven(s, id, heard);
    GivenIsNext(s, b);
    forall x, m: Mark | 1 <= m.count <= Top(t, x, m.era) ensures HandedOut(t, x, m) {
      if x == b && m == Given(s, b) {
        assert Got(t, x, m, id);
      } else {
        assert HandedOut(s, x, m);
        var y :| Got(s, x, m, y);
        assert Got(t, x, m, y);
      }
    }
  }

  lemma {:induction false} RunIsNumbered(s: Sys, steps: seq<Step>, t: Sys)
    requires Inv(s) && Numbered(s) && Reaches(s, steps, t)
    ensures Inv(t) && Numbered(t)
    decreases |steps|
  {
    if steps != [] {
      var step := steps[0];
      StepIsInv(s, step);
      if step.RunIncr? {
        IncrKeepsBounds(s, step.id, step.heard);
        IncrKeepsOneEach(s, step.id, step.heard);
        IncrLeavesNoGaps(s, step.id, step.heard);
      } else {
        OthersKeepNumbered(s, step);
      }
      RunIsNumbered(Next(s, step), steps[1..], t);
    }
  }

  /** The spends of a bucket that were counted in this era, up to the given count. */
  function CountedUpTo(s: Sys, b: Bucket, era: nat, n: nat): set<string> {
    set id | id in s.spends && s.spends[id].bucket == b
             && s.spends[id].got.Some? && s.spends[id].got.value.era == era && s.spends[id].got.value.count <= n
  }

  lemma {:induction false} CountedUpToCounts(s: Sys, b: Bucket, era: nat, n: nat)
    requires Numbered(s) && n <= Top(s, b, era)
    ensures |CountedUpTo(s, b, era, n)| == n
  {
    if n == 0 {
      forall id | id in CountedUpTo(s, b, era, 0) ensures false {
        assert Got(s, b, s.spends[id].got.value, id);
      }
    } else {
      assert HandedOut(s, b, Mark(era, n));
      var id :| Got(s, b, Mark(era, n), id);
      CountedUpToCounts(s, b, era, n - 1);
      forall other | other in CountedUpTo(s, b, era, n) ensures other in CountedUpTo(s, b, era, n - 1) + {id} {
        assert Got(s, b, s.spends[other].got.value, other);
      }
      assert CountedUpTo(s, b, era, n) == CountedUpTo(s, b, era, n - 1) + {id};
    }
  }

  /** No INCR of this run finds a counted key of its bucket expired. */
  predicate NoneExpired(s: Sys, steps: seq<Step>, b: Bucket)
    decreases |steps|
  {
    steps != [] ==>
      && Can(s, steps[0])
      && (steps[0].RunIncr? && s.spends[steps[0].id].bucket == b ==> !Expired(s, b))
      && NoneExpired(Next(s, steps[0]), steps[1..], b)
  }

  /** A bucket starts over exactly when an INCR finds its counted key expired. */
  lemma {:induction false} RevivesIffExpired(s: Sys, steps: seq<Step>, t: Sys, b: Bucket)
    requires Reaches(s, steps, t)
    ensures Revivals(t, b) >= Revivals(s, b)
    ensures Revivals(t, b) == Revivals(s, b) <==> NoneExpired(s, steps, b)
    decreases |steps|
  {
    if steps != [] {
      RevivesIffExpired(Next(s, steps[0]), steps[1..], t, b);
    }
  }

  // ---- The guarantees ----

  /** The spends of a bucket that the store answered, and those of them it allowed. */
  function Answered(s: Sys, b: Bucket): set<string> {
    set id | id in s.spends && s.spends[id].bucket == b && s.spends[id].phase.Decided? && s.spends[id].phase.count.Some?
  }

  predicate Allows(c: Spend)
    requires c.phase.Decided?
  {
    !Decide(c.phase.count, c.limit, c.readAt, WINDOW_MS).over
  }

  function Allowed(s: Sys, b: Bucket): set<string> {
    set id | id in Answered(s, b) && Allows(s.spends[id])
  }

  /** Those whose count belongs to the given era. */
  function OfEra(s: Sys, ids: set<string>, era: nat): set<string> {
    set id | id in ids && id in s.spends && s.spends[id].got.Some? && s.spends[id].got.value.era == era
  }

  predicate SameLimit(s: Sys, b: Bucket, limit: nat) {
    forall id :: id in s.spends && s.spends[id].bucket == b ==> s.spends[id].limit == limit
  }

  lemma EraAllowsAtMost(s: Sys, b: Bucket, limit: nat, era: nat)
    requires Inv(s) && Numbered(s) && SameLimit(s, b, limit)
    ensures |OfEra(s, Allowed(s, b), era)| <= limit
  {
    var n := Min(limit, Top(s, b, era));
    forall id | id in OfEra(s, Allowed(s, b), era) ensures id in CountedUpTo(s, b, era, n) {
      assert Got(s, b, s.spends[id].got.value, id);
    }
    CountedUpToCounts(s, b, era, n);
    SubsetIsSmaller(OfEra(s, Allowed(s, b), era), CountedUpTo(s, b, era, n));
  }

  function UpToEra(s: Sys, ids: set<string>, eras: nat): set<string> {
    set id | id in ids && id in s.spends && s.spends[id].got.Some? && s.spends[id].got.value.era < eras
  }

  lemma OneEraMore(s: Sys, ids: set<string>, eras: nat)
    ensures |UpToEra(s, ids, eras + 1)| <= |UpToEra(s, ids, eras)| + |OfEra(s, ids, eras)|
  {
    assert UpToEra(s, ids, eras + 1) == UpToEra(s, ids, eras) + OfEra(s, ids, eras);
  }

  lemma {:induction false} ErasAllowAtMost(s: Sys, b: Bucket, limit: nat, eras: nat)
    requires Inv(s) && Numbered(s) && SameLimit(s, b, limit)
    ensures |UpToEra(s, Allowed(s, b), eras)| <= limit * eras
  {
    if eras > 0 {
      ErasAllowAtMost(s, b, limit, eras - 1);
      EraAllowsAtMost(s, b, limit, eras - 1);
      OneEraMore(s, Allowed(s, b), eras - 1);
      OneLimitMore(limit, eras);
    }
  }

  lemma OneLimitMore(limit: nat, eras: nat)
    ensures limit * eras == limit * (eras - 1) + limit
  {
  }

  lemma NumberedAllowsAtMost(s: Sys, b: Bucket, limit: nat)
    requires Inv(s) && Numbered(s) && SameLimit(s, b, limit)
    ensures |Allowed(s, b)| <= limit * (1 + Revivals(s, b))
  {
    ErasAllowAtMost(s, b, limit, 1 + Revivals(s, b));
    forall id | id in Allowed(s, b) ensures id in UpToEra(s, Allowed(s, b), 1 + Revivals(s, b)) {
      assert Got(s, b, s.spends[id].got.value, id);
    }
    assert UpToEra(s, Allowed(s, b), 1 + Revivals(s, b)) == Allowed(s, b);
  }

  lemma InitIsNumbered(start: int)
    ensures Inv(Init(start)) && Numbered(Init(start))
  {
  }

  /** After every run, over all processes: a window allows at most its limit of answered
      spends, and its limit again for each INCR that found the window's key expired,
      however many replies were lost. */
  lemma WindowAllowsAtMostLimit(start: int, steps: seq<Step>, s: Sys, b: Bucket, limit: nat)
    requires Reaches(Init(start), steps, s) && SameLimit(s, b, limit)
    ensures |Allowed(s, b)| <= limit * (1 + Revivals(s, b))
    ensures NoneExpired(Init(start), steps, b) ==> |Allowed(s, b)| <= limit
  {
    InitIsNumbered(start);
    RevivesIffExpired(Init(start), steps, s, b);
    RunIsNumbered(Init(start), steps, s);
    NumberedAllowsAtMost(s, b, limit);
  }

  /** Those counted within the limit whose answer was lost, or is not there yet. */
  function Lost(s: Sys, b: Bucket, limit: nat, era: nat): set<string> {
    CountedUpTo(s, b, era, limit) - Answered(s, b)
  }

  /** What the store counts within the limit is allowed or lost. */
  lemma CountedIsAllowedOrLost(s: Sys, b: Bucket, limit: nat, era: nat)
    requires Inv(s) && Numbered(s) && SameLimit(s, b, limit)
    ensures CountedUpTo(s, b, era, limit) == OfEra(s, Allowed(s, b), era) + Lost(s, b, limit, era)
    ensures OfEra(s, Allowed(s, b), era) !! Lost(s, b, limit, era)
    ensures |CountedUpTo(s, b, era, limit)| == Min(limit, Top(s, b, era))
  {
    var n := Min(limit, Top(s, b, era));
    forall id | id in CountedUpTo(s, b, era, limit) ensures id in CountedUpTo(s, b, era, n) {
      assert Got(s, b, s.spends[id].got.value, id);
    }
    assert CountedUpTo(s, b, era, limit) == CountedUpTo(s, b, era, n);
    CountedUpToCounts(s, b, era, n);
  }

  lemma AnsweredWithinTop(s: Sys, b: Bucket, era: nat)
    requires Inv(s) && Numbered(s)
    ensures |OfEra(s, Answered(s, b), era)| <= Top(s, b, era)
  {
    var n := Top(s, b, era);
    forall id | id in OfEra(s, Answered(s, b), era) ensures id in CountedUpTo(s, b, era, n) {
      assert Got(s, b, s.spends[id].got.value, id);
    }
    CountedUpToCounts(s, b, era, n);
    SubsetIsSmaller(OfEra(s, Answered(s, b), era), CountedUpTo(s, b, era, n));
  }

  /** Counts within the limit are allowed or lost, and the allowed ones are min(n, limit) of
      the n answered exactly if none is lost or all that are answered are allowed. */
  ghost predicate ExactButForLost(s: Sys, b: Bucket, limit: nat, era: nat) {
    var allowed, answered := OfEra(s, Allowed(s, b), era), OfEra(s, Answered(s, b), era);
    && |allowed| + |Lost(s, b, limit, era)| == Min(limit, Top(s, b, era))
    && (|allowed| == Min(|answered|, limit) <==> Lost(s, b, limit, era) == {} || allowed == answered)
  }

  lemma EraIsExactButForLost(s: Sys, b: Bucket, limit: nat, era: nat)
    requires Inv(s) && Numbered(s) && SameLimit(s, b, limit)
    ensures ExactButForLost(s, b, limit, era)
  {
    var allowed, answered := OfEra(s, Allowed(s, b), era), OfEra(s, Answered(s, b), era);
    CountedIsAllowedOrLost(s, b, limit, era);
    AnsweredWithinTop(s, b, era);
    SubsetIsSmaller(allowed, answered);
    SubsetOfSameSize(allowed, answered);
  }

  /** After every run the counts of an era within the limit are allowed or lost, so the store
      allows exactly min(n, limit) of the n spends it answered in it if and only if no such
      count is lost or every answered spend is allowed; and of all of a window's spends while
      its key never expired under one, when its counter stands at the number counted. */
  lemma WindowAllowsExactlyLimit(start: int, steps: seq<Step>, s: Sys, b: Bucket, limit: nat, era: nat)
    requires Reaches(Init(start), steps, s) && SameLimit(s, b, limit)
    ensures ExactButForLost(s, b, limit, era)
    ensures NoneExpired(Init(start), steps, b) ==>
              && |Allowed(s, b)| + |Lost(s, b, limit, 0)| == Min(limit, CountOf(s, b))
              && (|Allowed(s, b)| == Min(|Answered(s, b)|, limit) <==>
                  Lost(s, b, limit, 0) == {} || Allowed(s, b) == Answered(s, b))
  {
    InitIsNumbered(start);
    RevivesIffExpired(Init(start), steps, s, b);
    RunIsNumbered(Init(start), steps, s);
    EraIsExactButForLost(s, b, limit, era);
    if Revivals(s, b) == 0 {
      EraIsExactButForLost(s, b, limit, 0);
      AllOfEraZero(s, b, Answered(s, b));
      AllOfEraZero(s, b, Allowed(s, b));
      assert Top(s, b, Revivals(s, b)) == CountOf(s, b);
    }
  }

  /** So it is exact when all the store's answers arrive. */
  lemma AllAnsweredIsExact(start: int, steps: seq<Step>, s: Sys, b: Bucket, limit: nat, era: nat)
    requires Reaches(Init(start), steps, s) && SameLimit(s, b, limit)
    requires forall id :: id in s.spends && s.spends[id].bucket == b && s.spends[id].got.Some? ==> id in Answered(s, b)
    ensures |OfEra(s, Allowed(s, b), era)| == Min(|OfEra(s, Answered(s, b), era)|, limit)
    ensures NoneExpired(Init(start), steps, b) ==> |Allowed(s, b)| == Min(|Answered(s, b)|, limit)
  {
    WindowAllowsExactlyLimit(start, steps, s, b, limit, era);
    assert Lost(s, b, limit, era) == {} && Lost(s, b, limit, 0) == {};
  }

  /** Two spends under a limit of one have begun, */
  function Begun(a: string, b: string): Sys
    requires a != b
  {
    var first := Next(Init(0), Begin(a, "", "send", 1));
    Next(first, Begin(b, "", "send", 1))
  }

  lemma BothBegan(a: string, b: string)
    requires a != b
    ensures var spend := Spend(Bucket("", "send", 0), 1, 0, Waiting, IncrPending, None);
            Begun(a, b) == Sys(Store(0, map[]), map[a := spend, b := spend], map[], map[])
  {
  }

  /** and the answer to the first one's INCR is lost. */
  function FirstAnswerLost(a: string, b: string): Sys
    requires a != b
  {
    Next(Begun(a, b), RunIncr(a, false))
  }

  /** And not exact in this run: the one answer that arrives is past a limit of one, which
      the lost one has used up. */
  lemma LostAnswerAllowsLess(a: string, b: string) returns (steps: seq<Step>, s: Sys, key: Bucket)
    requires a != b
    ensures Reaches(Init(0), steps, s) && NoneExpired(Init(0), steps, key) && SameLimit(s, key, 1)
    ensures Answered(s, key) == {b} && Allowed(s, key) == {} && Lost(s, key, 1, 0) == {a}
  {
    key := Bucket("", "send", 0);
    steps := [Begin(a, "", "send", 1), Begin(b, "", "send", 1), RunIncr(a, false), RunIncr(b, true)];
    var first, began, lost := Next(Init(0), steps[0]), Begun(a, b), FirstAnswerLost(a, b);
    BothBegan(a, b);
    assert lost.store == Store(0, map[key := Counter(1, None)]);
    s := Next(lost, steps[3]);
    assert Reaches(lost, steps[3..], s);
    assert Reaches(began, steps[2..], s);
    assert Reaches(first, steps[1..], s);
    RevivesIffExpired(Init(0), steps, s, key);
  }

  lemma AllOfEraZero(s: Sys, b: Bucket, ids: set<string>)
    requires Inv(s) && Numbered(s) && Revivals(s, b) == 0 && ids <= Answered(s, b)
    ensures OfEra(s, ids, 0) == ids
  {
    forall id | id in ids ensures id in OfEra(s, ids, 0) {
      assert id in Answered(s, b) && Got(s, b, s.spends[id].got.value, id);
    }
  }

  /** A decided spend is refused. Nothing is asked of how it was decided. */
  predicate Refused(s: Sys, id: string) {
    id in s.spends && s.spends[id].phase.Decided?
        && Decide(s.spends[id].phase.count, s.spends[id].limit, s.spends[id].readAt, WINDOW_MS).over
  }

  /** After every run, over every decided spend, answered or not, or of a process that held the
      store to be down: it is refused if and only if it was told the count Redis gave it and
      that exceeds its limit; and then Redis had counted as many others as the limit allows in
      the same window before. So nobody is refused for what the store did not say. */
  lemma RefusedIsOverItsLimit(start: int, steps: seq<Step>, s: Sys, id: string)
    requires Reaches(Init(start), steps, s) && id in s.spends && s.spends[id].phase.Decided?
    ensures var c := s.spends[id];
            && (Refused(s, id) <==> c.phase.count.Some? && c.phase.count.value > c.limit)
            && (c.phase.count.Some? ==> c.got.Some? && c.got.value.count == c.phase.count.value)
            && (Refused(s, id) && c.limit >= 0 ==>
                  && id !in CountedUpTo(s, c.bucket, c.got.value.era, c.limit)
                  && |CountedUpTo(s, c.bucket, c.got.value.era, c.limit)| == c.limit)
  {
    InitIsNumbered(start);
    RunIsNumbered(Init(start), steps, s);
    var c := s.spends[id];
    assert SpendOk(s, c);
    DecisionFailsOpen(c.phase.count, c.limit, c.readAt, WINDOW_MS);
    if Refused(s, id) && c.limit >= 0 {
      assert Got(s, c.bucket, c.got.value, id);
      CountedUpToCounts(s, c.bucket, c.got.value.era, c.limit);
    }
  }

  /** The answered and allowed spends whose clock read a time in `from .. from + 60 s`. */
  function AllowedBetween(s: Sys, environment: string, operation: string, from: int): set<string> {
    set id | id in s.spends && id in Allowed(s, s.spends[id].bucket)
             && s.spends[id].bucket.environment == environment && s.spends[id].bucket.operation == operation
             && from <= s.spends[id].readAt < from + 60_000
  }

  lemma MinuteMeetsTwoWindows(s: Sys, environment: string, operation: string, from: int, n: int)
    requires Inv(s) && n == from / WINDOW_MS
    ensures AllowedBetween(s, environment, operation, from)
            <= Allowed(s, Bucket(environment, operation, n * WINDOW_MS))
               + Allowed(s, Bucket(environment, operation, (n + 1) * WINDOW_MS))
  {
    QuotientHolds(from, WINDOW_MS);
    forall id | id in AllowedBetween(s, environment, operation, from)
      ensures s.spends[id].bucket.window == n * WINDOW_MS || s.spends[id].bucket.window == (n + 1) * WINDOW_MS
    {
      WindowHolds(s.spends[id].readAt, WINDOW_MS, n);
      WindowHolds(s.spends[id].readAt, WINDOW_MS, n + 1);
    }
  }

  lemma TwoWindowsAllow(s: Sys, environment: string, operation: string, limit: nat, from: int, n: int)
    requires Inv(s) && Numbered(s) && n == from / WINDOW_MS
    requires forall w: int :: SameLimit(s, Bucket(environment, operation, w), limit)
    ensures |AllowedBetween(s, environment, operation, from)|
            <= limit * (1 + Revivals(s, Bucket(environment, operation, n * WINDOW_MS)))
               + limit * (1 + Revivals(s, Bucket(environment, operation, (n + 1) * WINDOW_MS)))
  {
    var a, b := Bucket(environment, operation, n * WINDOW_MS), Bucket(environment, operation, (n + 1) * WINDOW_MS);
    NumberedAllowsAtMost(s, a, limit);
    NumberedAllowsAtMost(s, b, limit);
    MinuteMeetsTwoWindows(s, environment, operation, from, n);
    SubsetIsSmaller(AllowedBetween(s, environment, operation, from), Allowed(s, a) + Allowed(s, b));
  }

  /** Any sixty seconds meet two windows, so they allow at most twice the limit, and the
      limit again for each key found expired. */
  lemma AnyMinuteAllowsAtMostTwice(
      start: int, steps: seq<Step>, s: Sys, environment: string, operation: string, limit: nat, from: int, n: int)
    requires Reaches(Init(start), steps, s) && n == from / WINDOW_MS
    requires forall w: int :: SameLimit(s, Bucket(environment, operation, w), limit)
    ensures |AllowedBetween(s, environment, operation, from)|
            <= limit * (1 + Revivals(s, Bucket(environment, operation, n * WINDOW_MS)))
               + limit * (1 + Revivals(s, Bucket(environment, operation, (n + 1) * WINDOW_MS)))
    ensures (forall b: Bucket :: NoneExpired(Init(start), steps, b)) ==>
            |AllowedBetween(s, environment, operation, from)| <= 2 * limit
  {
    InitIsNumbered(start);
    RunIsNumbered(Init(start), steps, s);
    TwoWindowsAllow(s, environment, operation, limit, from, n);
    RevivesIffExpired(Init(start), steps, s, Bucket(environment, operation, n * WINDOW_MS));
    RevivesIffExpired(Init(start), steps, s, Bucket(environment, operation, (n + 1) * WINDOW_MS));
  }

  /** Each INCR of this run reaches Redis before the window its caller read has ended. */
  predicate Timely(s: Sys, steps: seq<Step>)
    decreases |steps|
  {
    steps != [] ==>
      && Can(s, steps[0])
      && (steps[0].RunIncr? ==> s.store.now < s.spends[steps[0].id].bucket.window + WINDOW_MS)
      && Timely(Next(s, steps[0]), steps[1..])
  }

  /** INCRs that run inside their window never find its key expired. */
  lemma {:induction false} TimelyFindsNoneExpired(s: Sys, steps: seq<Step>, b: Bucket)
    requires Inv(s) && Timely(s, steps)
    ensures NoneExpired(s, steps, b)
    decreases |steps|
  {
    if steps != [] {
      StepIsInv(s, steps[0]);
      TimelyFindsNoneExpired(Next(s, steps[0]), steps[1..], b);
    }
  }

  /** Conversely, from any state, an INCR that finds its counted key expired is given a count
      of 1 again, so its spend is allowed on top of all that were before. */
  lemma LateIncrAllowsOneMore(s: Sys, id: string) returns (steps: seq<Step>, t: Sys)
    requires id in s.spends && s.spends[id].phase.Waiting? && s.spends[id].pending.IncrPending?
            && s.spends[id].limit >= 1
    requires Expired(s, s.spends[id].bucket)
    ensures Reaches(s, steps, t) && t.spends.Keys == s.spends.Keys
    ensures Revivals(t, s.spends[id].bucket) == Revivals(s, s.spends[id].bucket) + 1
    ensures id !in Allowed(s, s.spends[id].bucket)
    ensures Allowed(t, s.spends[id].bucket) == Allowed(s, s.spends[id].bucket) + {id}
  {
    var b := s.spends[id].bucket;
    var counted := Next(s, RunIncr(id, true));
    t := Next(counted, RunExpire(id, true));
    steps := [RunIncr(id, true), RunExpire(id, true)];
    assert steps[1..] == [RunExpire(id, true)] && [RunExpire(id, true)][1..] == [];
    assert Reaches(counted, [RunExpire(id, true)], t);
    var m := Mark(Revivals(s, b) + 1, 1);
    assert t.spends == s.spends[id := s.spends[id].(got := Some(m), pending := Nothing, phase := Decided(Some(1)))];
  }

  /** Such a run: two spends under a limit of one read the clock in the same window, the
      first is counted in it and the second sixty seconds later, when the key has gone. */
  lemma SecondSpendArrivesLate(a: string, b: string) returns (steps: seq<Step>, s: Sys)
    requires a != b
    ensures Reaches(Init(0), steps, s) && s.spends.Keys == {a, b}
    ensures s.spends[a].bucket == s.spends[b].bucket && s.spends[b].limit == 1
    ensures s.spends[b].phase.Waiting? && s.spends[b].pending.IncrPending? && Expired(s, s.spends[b].bucket)
    ensures Allowed(s, s.spends[b].bucket) == {a}
  {
    var key := Bucket("", "send", 0);
    steps := [Begin(a, "", "send", 1), Begin(b, "", "send", 1), RunIncr(a, true), RunExpire(a, true), Tick(WINDOW_MS)];
    var s2 := Begun(a, b);
    BothBegan(a, b);
    var s3 := Next(s2, steps[2]);
    var s4 := Next(s3, steps[3]);
    assert s4.store == Store(0, map[key := Counter(1, Some(WINDOW_MS))]);
    s := Next(s4, steps[4]);
    assert Reaches(s4, steps[4..], s);
    assert Reaches(s3, steps[3..], s);
    assert Reaches(s2, steps[2..], s);
  }
}
