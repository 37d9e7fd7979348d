/** Reference-counted subscriptions: counts change as soon as a call is made, the commands
    they cause queue up in order on one connection, and the broker runs them later. */
module Subscriptions {
  import opened Common

  datatype Call<K> = Up(key: K) | Down(key: K)

  datatype Command<K> = Command(on: bool, key: K)

  /** What an unsubscribe of a key nobody counts does: membership returns at once, the
      fan-out takes the missing count for 1. */
  datatype Policy = IgnoresAbsent | TakesAbsentForOne

  datatype Tally<K> = Tally(counts: map<K, int>, queue: seq<Command<K>>)

  function At<K(==)>(counts: map<K, int>, k: K, absent: int): int {
    if k in counts then counts[k] else absent
  }

  function Raised<K(==)>(t: Tally<K>, k: K): Tally<K> {
    var next := At(t.counts, k, 0) + 1;
    Tally(t.counts[k := next], t.queue + if next == 1 then [Command(true, k)] else [])
  }

  function Lowered<K(==)>(policy: Policy, t: Tally<K>, k: K): Tally<K> {
    if policy.IgnoresAbsent? && k !in t.counts then t else
    var next := At(t.counts, k, 1) - 1;
    if next <= 0 then Tally(t.counts - {k}, t.queue + [Command(false, k)]) else Tally(t.counts[k := next], t.queue)
  }

  function Called<K(==)>(policy: Policy, t: Tally<K>, call: Call<K>): Tally<K> {
    match call
    case Up(k) => Raised(t, k)
    case Down(k) => Lowered(policy, t, k)
  }

  // ---- The two services ----

  /** A membership key: the two maps share one subscriber. */
  datatype Watched = ChannelWatch(channel: string) | UserWatch(user: string)

  class Membership {
    var channelCounts: map<string, int>
    var userCounts: map<string, int>
    var queue: seq<Command<Watched>>
    /** Both maps as one. */
    ghost var counts: map<Watched, int>

    ghost function Now(): Tally<Watched> reads this { Tally(counts, queue) }

    ghost predicate Valid() reads this {
      && (forall c :: ChannelWatch(c) in counts <==> c in channelCounts)
      && (forall c :: c in channelCounts ==> counts[ChannelWatch(c)] == channelCounts[c])
      && (forall u :: UserWatch(u) in counts <==> u in userCounts)
      && (forall u :: u in userCounts ==> counts[UserWatch(u)] == userCounts[u])
    }

    constructor ()
      ensures Valid() && Now() == Tally(map[], [])
    {
      channelCounts, userCounts, queue, counts := map[], map[], [], map[];
    }

    method SubscribeChannel(channel: string)
      requires Valid()
      modifies this
      ensures Valid() && Now() == Raised(old(Now()), ChannelWatch(channel))
    {
      var next := At(channelCounts, channel, 0) + 1;
      channelCounts := channelCounts[channel := next];
      counts := counts[ChannelWatch(channel) := next];
      if next == 1 { queue := queue + [Command(true, ChannelWatch(channel))]; }
    }

    method UnsubscribeChannel(channel: string)
      requires Valid()
      modifies this
      ensures Valid() && Now() == Lowered(IgnoresAbsent, old(Now()), ChannelWatch(channel))
    {
      if channel !in channelCounts { return; }
      var next := channelCounts[channel] - 1;
      if next <= 0 {
        channelCounts := channelCounts - {channel};
        counts := counts - {ChannelWatch(channel)};
        queue := queue + [Command(false, ChannelWatch(channel))];
      } else {
        channelCounts := channelCounts[channel := next];
        counts := counts[ChannelWatch(channel) := next];
      }
    }

    method SubscribeUser(environment: string, user: string)
      requires Valid()
      modifies this
      ensures Valid() && Now() == Raised(old(Now()), UserWatch(environment + ":" + user))
    {
      var key := environment + ":" + user;
      var next := At(userCounts, key, 0) + 1;
      userCounts := userCounts[key := next];
      counts := counts[UserWatch(key) := next];
      if next == 1 { queue := queue + [Command(true, UserWatch(key))]; }
    }

    method UnsubscribeUser(environment: string, user: string)
      requires Valid()
      modifies this
      ensures Valid() && Now() == Lowered(IgnoresAbsent, old(Now()), UserWatch(environment + ":" + user))
    {
      var key := environment + ":" + user;
      if key !in userCounts { return; }
      var next := userCounts[key] - 1;
      if next <= 0 {
        userCounts := userCounts - {key};
        counts := counts - {UserWatch(key)};
        queue := queue + [Command(false, UserWatch(key))];
      } else {
        userCounts := userCounts[key := next];
        counts := counts[UserWatch(key) := next];
      }
    }
  }

  class Fanout {
    var counts: map<string, int>
    var queue: seq<Command<string>>

    ghost function Now(): Tally<string> reads this { Tally(counts, queue) }

    constructor ()
      ensures Now() == Tally(map[], [])
    {
      counts, queue := map[], [];
    }

    /** One command names the channel's `chan:` and `revision:` subjects together. */
    method Subscribe(channel: string)
      modifies this
      ensures Now() == Raised(old(Now()), channel)
    {
      var next := At(counts, channel, 0) + 1;
      counts := counts[channel := next];
      if next == 1 { queue := queue + [Command(true, channel)]; }
    }

    method Unsubscribe(channel: string)
      modifies this
      ensures Now() == Lowered(TakesAbsentForOne, old(Now()), channel)
    {
      var next := At(counts, channel, 1) - 1;
      if next <= 0 {
        counts := counts - {channel};
        queue := queue + [Command(false, channel)];
      } else {
        counts := counts[channel := next];
      }
    }
  }

  // ---- What the counts are for: how many holders a key has ----

  /** The holders of a key after these calls; nobody can hold it less than not at all. */
  function Holders<K(==)>(calls: seq<Call<K>>, k: K): nat {
    if calls == [] then 0 else
    var before, last := Holders(calls[..|calls| - 1], k), calls[|calls| - 1];
    if last.key != k then before else if last.Up? then before + 1 else Max(0, before - 1)
  }

  /** The commands owed: one whenever a key gets its first holder or loses its last. */
  function Edges<K(==)>(calls: seq<Call<K>>): seq<Command<K>> {
    if calls == [] then [] else
    var most, last := calls[..|calls| - 1], calls[|calls| - 1];
    Edges(most) + if (Holders(most, last.key) > 0) == (Holders(calls, last.key) > 0) then []
        else [Command(last.Up?, last.key)]
  }

  /** Does every unsubscribe of these calls find a holder? */
  predicate Matched<K(==)>(calls: seq<Call<K>>) {
    calls == [] ||
    (Matched(calls[..|calls| - 1])
        && (calls[|calls| - 1].Down? ==> Holders(calls[..|calls| - 1], calls[|calls| - 1].key) > 0))
  }

  function Run<K(==)>(policy: Policy, calls: seq<Call<K>>): Tally<K> {
    if calls == [] then Tally(map[], []) else Called(policy, Run(policy, calls[..|calls| - 1]), calls[|calls| - 1])
  }

  /** Both services count holders: a key is in the map exactly while it has some, with
      their number, whatever was unsubscribed without being held. */
  lemma {:induction false} CountsAreHolders<K>(policy: Policy, calls: seq<Call<K>>, k: K)
    ensures At(Run(policy, calls).counts, k, 0) == Holders(calls, k)
    ensures k in Run(policy, calls).counts <==> Holders(calls, k) > 0
  {
    if calls != [] {
      CountsAreHolders(policy, calls[..|calls| - 1], k);
    }
  }

  /** Membership issues exactly the edges, in the order of the calls. */
  lemma {:induction false} MembershipIssuesEdges<K>(calls: seq<Call<K>>)
    ensures Run(IgnoresAbsent, calls).queue == Edges(calls)
  {
    if calls != [] {
      var most, last := calls[..|calls| - 1], calls[|calls| - 1];
      MembershipIssuesEdges(most);
      CountsAreHolders(IgnoresAbsent, most, last.key);
    }
  }

  /** The fan-out never issues fewer, and exactly the edges if and only if no call
      unsubscribed what nobody held; such a call costs one needless command. */
  lemma {:induction false} FanoutIssuesEdges<K>(calls: seq<Call<K>>)
    ensures |Run(TakesAbsentForOne, calls).queue| >= |Edges(calls)|
    ensures |Run(TakesAbsentForOne, calls).queue| == |Edges(calls)| <==> Matched(calls)
    ensures Run(TakesAbsentForOne, calls).queue == Edges(calls) <==> Matched(calls)
  {
    if calls != [] {
      var most, last := calls[..|calls| - 1], calls[|calls| - 1];
      FanoutIssuesEdges(most);
      CountsAreHolders(TakesAbsentForOne, most, last.key);
    }
  }

  // ---- Calls and the broker, interleaved ----

  function Applied<K>(held: set<string>, c: Command<K>, subjects: K -> set<string>): set<string> {
    if c.on then held + subjects(c.key) else held - subjects(c.key)
  }

  function AppliedAll<K>(held: set<string>, queue: seq<Command<K>>, subjects: K -> set<string>): set<string> {
    if queue == [] then held
    else Applied(AppliedAll(held, queue[..|queue| - 1], subjects), queue[|queue| - 1], subjects)
  }

  /** `held` is what the broker delivers to us; the calls made so far, and the commands the
      broker has run, are remembered. */
  datatype Sys<K> = Sys(calls: seq<Call<K>>, tally: Tally<K>, ran: seq<Command<K>>, held: set<string>)

  datatype Step<K> = Make(call: Call<K>) | Drain

  predicate Can<K>(s: Sys<K>, step: Step<K>) {
    step.Drain? ==> s.tally.queue != []
  }

  function Next<K(==)>(policy: Policy, subjects: K -> set<string>, s: Sys<K>, step: Step<K>): Sys<K>
    requires Can(s, step)
  {
    match step
    case Make(call) => s.(calls := s.calls + [call], tally := Called(policy, s.tally, call))
    case Drain =>
      Sys(s.calls, s.tally.(queue := s.tally.queue[1..]), s.ran + [s.tally.queue[0]],
          Applied(s.held, s.tally.queue[0], subjects))
  }

  function Init<K>(): Sys<K> {
    Sys([], Tally(map[], []), [], {})
  }

  predicate Reaches<K(==)>(policy: Policy, subjects: K -> set<string>, s: Sys<K>, steps: seq<Step<K>>, t: Sys<K>)
    decreases |steps|
  {
    if steps == [] then s == t
    else Can(s, steps[0]) && Reaches(policy, subjects, Next(policy, subjects, s, steps[0]), steps[1..], t)
  }

  /** No subject stands for two of these keys. */
  predicate Apart<K(==)>(subjects: K -> set<string>, keys: set<K>) {
    forall a, b :: a in keys && b in keys && a != b ==> subjects(a) !! subjects(b)
  }

  predicate Uses<K(==)>(steps: seq<Step<K>>, keys: set<K>) {
    forall step :: step in steps && step.Make? ==> step.call.key in keys
  }

  predicate Wanted<K(==)>(counts: map<K, int>, x: string, subjects: K -> set<string>) {
    exists k :: k in counts && x in subjects(k)
  }

  ghost predicate Inv<K(!new)>(policy: Policy, subjects: K -> set<string>, keys: set<K>, s: Sys<K>) {
    && s.tally.counts == Run(policy, s.calls).counts
    && (forall k :: k in s.tally.counts ==> k in keys && s.tally.counts[k] >= 1)
    && (forall c :: c in s.tally.queue ==> c.key in keys)
    && (forall x :: x in AppliedAll(s.held, s.tally.queue, subjects) <==> Wanted(s.tally.counts, x, subjects))
  }

  lemma {:induction false} AppliesInOrder<K>(held: set<string>, queue: seq<Command<K>>, subjects: K -> set<string>)
    requires queue != []
    ensures AppliedAll(Applied(held, queue[0], subjects), queue[1..], subjects) == AppliedAll(held, queue, subjects)
  {
    if |queue| == 1 {
      assert queue[..0] == [] && queue[1..] == [];
    } else {
      AppliesInOrder(held, queue[..|queue| - 1], subjects);
      assert queue[1..][..|queue[1..]| - 1] == queue[..|queue| - 1][1..];
    }
  }

  lemma AppliesOneMore<K>(held: set<string>, queue: seq<Command<K>>, c: Command<K>, subjects: K -> set<string>)
    ensures AppliedAll(held, queue + [c], subjects) == Applied(AppliedAll(held, queue, subjects), c, subjects)
  {
    assert (queue + [c])[..|queue + [c]| - 1] == queue;
  }

  /** A call moves the set that the queue leads to exactly as it moves the wanted set. */
  lemma CallKeepsWanted<K(!new)>(policy: Policy, subjects: K -> set<string>, keys: set<K>, s: Sys<K>, call: Call<K>,
        x: string)
    requires Apart(subjects, keys) && Inv(policy, subjects, keys, s) && call.key in keys
    ensures var t := Called(policy, s.tally, call);
            x in AppliedAll(s.held, t.queue, subjects) <==> Wanted(t.counts, x, subjects)
  {
    var t, k := Called(policy, s.tally, call), call.key;
    if |t.queue| > |s.tally.queue| {
      AppliesOneMore(s.held, s.tally.queue, t.queue[|s.tally.queue|], subjects);
    } else {
      assert t.queue == s.tally.queue;
    }
    assert Wanted(s.tally.counts, x, subjects) <==> x in AppliedAll(s.held, s.tally.queue, subjects);
    if Wanted(s.tally.counts, x, subjects) {
      var other :| other in s.tally.counts && x in subjects(other);
      assert other != k ==> other in t.counts;
    }
    if Wanted(t.counts, x, subjects) {
      var other :| other in t.counts && x in subjects(other);
      assert other != k ==> other in s.tally.counts;
    }
    if k in t.counts && x in subjects(k) {
      assert Wanted(t.counts, x, subjects);
    }
  }

  lemma StepIsInv<K(!new)>(policy: Policy, subjects: K -> set<string>, keys: set<K>, s: Sys<K>, step: Step<K>)
    requires Apart(subjects, keys) && Inv(policy, subjects, keys, s) && Can(s, step)
    requires step.Make? ==> step.call.key in keys
    ensures Inv(policy, subjects, keys, Next(policy, subjects, s, step))
  {
    if step.Make? {
      var t := Called(policy, s.tally, step.call);
      assert (s.calls + [step.call])[..|s.calls|] == s.calls;
      CalledCounts(policy, s.tally, Run(policy, s.calls), step.call);
      forall x ensures x in AppliedAll(s.held, t.queue, subjects) <==> Wanted(t.counts, x, subjects) {
        CallKeepsWanted(policy, subjects, keys, s, step.call, x);
      }
    } else {
      AppliesInOrder(s.held, s.tally.queue, subjects);
    }
  }

  lemma CalledCounts<K>(policy: Policy, a: Tally<K>, b: Tally<K>, call: Call<K>)
    requires a.counts == b.counts
    ensures Called(policy, a, call).counts == Called(policy, b, call).counts
  {
  }

  lemma {:induction false} RunIsInv<K(!new)>(policy: Policy, subjects: K -> set<string>, keys: set<K>, s: Sys<K>,
        steps: seq<Step<K>>, t: Sys<K>)
    requires Apart(subjects, keys) && Inv(policy, subjects, keys, s) && Uses(steps, keys)
    requires Reaches(policy, subjects, s, steps, t)
    ensures Inv(policy, subjects, keys, t)
    decreases |steps|
  {
    if steps != [] {
      assert steps[0] in steps;
      StepIsInv(policy, subjects, keys, s, steps[0]);
      RunIsInv(policy, subjects, keys, Next(policy, subjects, s, steps[0]), steps[1..], t);
    }
  }

  predicate InOrder<K(==)>(policy: Policy, s: Sys<K>) {
    s.tally.counts == Run(policy, s.calls).counts && s.ran + s.tally.queue == Run(policy, s.calls).queue
  }

  lemma CallIsInOrder<K>(policy: Policy, ran: seq<Command<K>>, a: Tally<K>, b: Tally<K>, call: Call<K>)
    requires a.counts == b.counts && ran + a.queue == b.queue
    ensures ran + Called(policy, a, call).queue == Called(policy, b, call).queue
  {
  }

  /** What the broker has run and what is queued are the commands issued, in order. */
  lemma {:induction false} CommandsRunInOrder<K(!new)>(policy: Policy, subjects: K -> set<string>, s: Sys<K>,
        steps: seq<Step<K>>, t: Sys<K>)
    requires InOrder(policy, s) && Reaches(policy, subjects, s, steps, t)
    ensures InOrder(policy, t)
    decreases |steps|
  {
    if steps != [] {
      var next := Next(policy, subjects, s, steps[0]);
      if steps[0].Make? {
        assert next.calls[..|s.calls|] == s.calls;
        CalledCounts(policy, s.tally, Run(policy, s.calls), steps[0].call);
        CallIsInOrder(policy, s.ran, s.tally, Run(policy, s.calls), steps[0].call);
      } else {
        assert s.tally.queue == [s.tally.queue[0]] + next.tally.queue;
      }
      CommandsRunInOrder(policy, subjects, next, steps[1..], t);
    }
  }

  /** Under either policy and any interleaving of calls with the broker: draining the queue
      leads to exactly the subjects of the keys that have holders; once it is empty the
      broker is there. */
  lemma QueueLeadsToHolders<K(!new)>(policy: Policy, subjects: K -> set<string>, keys: set<K>, steps: seq<Step<K>>,
        s: Sys<K>, x: string)
    requires Apart(subjects, keys) && Uses(steps, keys) && Reaches(policy, subjects, Init(), steps, s)
    ensures x in AppliedAll(s.held, s.tally.queue, subjects) <==>
            exists k :: Holders(s.calls, k) > 0 && x in subjects(k)
    ensures s.tally.queue == [] ==> (x in s.held <==> exists k :: Holders(s.calls, k) > 0 && x in subjects(k))
  {
    RunIsInv(policy, subjects, keys, Init(), steps, s);
    forall k ensures k in s.tally.counts <==> Holders(s.calls, k) > 0 {
      CountsAreHolders(policy, s.calls, k);
    }
    assert x in AppliedAll(s.held, s.tally.queue, subjects) <==> Wanted(s.tally.counts, x, subjects);
  }

  /** So with the queue drained, a subject of a key is held exactly while the key is. */
  lemma DrainedHoldsExactly<K(!new)>(policy: Policy, subjects: K -> set<string>, keys: set<K>, steps: seq<Step<K>>,
        s: Sys<K>, k: K, x: string)
    requires Apart(subjects, keys) && Uses(steps, keys) && Reaches(policy, subjects, Init(), steps, s)
    requires k in keys && x in subjects(k) && s.tally.queue == []
    ensures x in s.held <==> Holders(s.calls, k) > 0
  {
    QueueLeadsToHolders(policy, subjects, keys, steps, s, x);
    if x in s.held {
      var other :| Holders(s.calls, other) > 0 && x in subjects(other);
      RunIsInv(policy, subjects, keys, Init(), steps, s);
      CountsAreHolders(policy, s.calls, other);
      assert !(subjects(k) !! subjects(other));
    }
  }

  /** At every moment, also between two commands, the subjects of one key are held all
      together or not at all. */
  lemma {:induction false} SubjectsOfAKeyAgree<K(!new)>(policy: Policy, subjects: K -> set<string>, keys: set<K>,
        s: Sys<K>, steps: seq<Step<K>>, t: Sys<K>, k: K, x: string, y: string)
    requires Apart(subjects, keys) && Uses(steps, keys) && Reaches(policy, subjects, s, steps, t)
    requires forall c :: c in s.tally.queue ==> c.key in keys
    requires k in keys && x in subjects(k) && y in subjects(k)
    requires x in s.held <==> y in s.held
    ensures x in t.held <==> y in t.held
    decreases |steps|
  {
    if steps != [] {
      assert steps[0] in steps;
      var next := Next(policy, subjects, s, steps[0]);
      if steps[0].Drain? {
        assert s.tally.queue[0] in s.tally.queue;
      }
      SubjectsOfAKeyAgree(policy, subjects, keys, next, steps[1..], t, k, x, y);
    }
  }
}
