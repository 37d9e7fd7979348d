/** The strings the services use as names: Redis keys, subscription subjects, and the
    broker's subjects with the filters that read them. */
module Subjects {
  import opened Text
  import Calendar
  import Metering
  import Slots
  import opened Subscriptions

  // ---- Keys ----

  /** `conn:{env}:{user}:{slot}` */
  function SlotKey(p: Slots.Place): string {
    "conn:" + p.env + ":" + p.user + ":" + Decimal(p.slot)
  }

  /** `connection_id|period` */
  function RetentionKey(k: Metering.Key): string {
    k.connection + "|" + k.period
  }

  /** The same text before the last separator, and the same text after it. */
  lemma LastSeparator(x: string, a: string, y: string, b: string, c: char)
    requires Without(a, c) && Without(b, c)
    requires x + [c] + a == y + [c] + b
    ensures x == y && a == b
  {
    var s := x + [c] + a;
    assert s[|x|] == c && s == y + [c] + b && s[|y|] == c;
    assert |x| <= |y| by {
      assert forall i :: |y| < i < |s| ==> s[i] == b[i - |y| - 1];
    }
    assert |y| <= |x| by {
      assert forall i :: |x| < i < |s| ==> s[i] == a[i - |x| - 1];
    }
    assert x == s[..|x|] && y == s[..|y|];
    assert a == s[|x| + 1..] && b == s[|y| + 1..];
  }

  /** A slot key names its environment, user and slot, whatever the user is called, as long
      as environments hold no colon. */
  lemma SlotKeyInjective(p: Slots.Place, q: Slots.Place)
    requires Without(p.env, ':') && Without(q.env, ':') && SlotKey(p) == SlotKey(q)
    ensures p == q
  {
    var x, y := "conn:" + p.env + ":" + p.user, "conn:" + q.env + ":" + q.user;
    LastSeparator(x, Decimal(p.slot), y, Decimal(q.slot), ':');
    DecimalInjective(p.slot, q.slot);
    assert p.env + ":" + p.user == x[5..] && q.env + ":" + q.user == y[5..];
    FirstSeparator(p.env, p.user, q.env, q.user, ':');
  }

  lemma SplitsInTwo(a: string, b: string, c: char)
    requires Without(a, c) && Without(b, c)
    ensures Split(a + [c] + b, c) == [a, b]
  {
    SplitToken(b, c);
    SplitHead(a, c, b);
  }

  lemma SplitsOff(a: string, rest: string, tokens: seq<string>, c: char)
    requires Without(a, c) && Split(rest, c) == tokens
    ensures Split(a + [c] + rest, c) == [a] + tokens
  {
    SplitHead(a, c, rest);
  }

  lemma SplitsInFour(a: string, b: string, c: string, d: string, sep: char)
    requires Without(a, sep) && Without(b, sep) && Without(c, sep) && Without(d, sep)
    ensures Split(a + [sep] + (b + [sep] + (c + [sep] + d)), sep) == [a, b, c, d]
  {
    SplitsInTwo(c, d, sep);
    SplitsOff(b, c + [sep] + d, [c, d], sep);
    SplitsOff(a, b + [sep] + (c + [sep] + d), [b, c, d], sep);
  }

  lemma ConnWith(a: string, b: string, c: string)
    ensures "conn:" + a + ":" + b + ":" + c == "conn" + [':'] + (a + [':'] + (b + [':'] + c))
  {
  }

  /** As long as neither environment nor user holds a colon, it splits into its four parts. */
  lemma SlotKeySplits(p: Slots.Place)
    requires Without(p.env, ':') && Without(p.user, ':')
    ensures Split(SlotKey(p), ':') == ["conn", p.env, p.user, Decimal(p.slot)]
  {
    SplitsInFour("conn", p.env, p.user, Decimal(p.slot), ':');
    ConnWith(p.env, p.user, Decimal(p.slot));
  }

  lemma PeriodHasNoBar(month: int)
    ensures Without(Calendar.PeriodName(month), '|')
  {
    var year, rest := Decimal(month / 12), "-" + Pad2(month % 12 + 1) + "-01";
    assert Calendar.PeriodName(month) == year + rest;
    assert Without(year, '|') && Without(rest, '|');
  }

  /** Periods hold no bar, so a retention key names its connection and its period. */
  lemma RetentionKeyInjective(k: Metering.Key, l: Metering.Key, month: int, other: int)
    requires k.period == Calendar.PeriodName(month) && l.period == Calendar.PeriodName(other)
    requires RetentionKey(k) == RetentionKey(l)
    ensures k == l
  {
    PeriodHasNoBar(month);
    PeriodHasNoBar(other);
    LastSeparator(k.connection, k.period, l.connection, l.period, '|');
  }

  /** And splits into the two. */
  lemma RetentionKeySplits(k: Metering.Key)
    requires Without(k.connection, '|') && Without(k.period, '|')
    ensures Split(RetentionKey(k), '|') == [k.connection, k.period]
  {
    SplitsInTwo(k.connection, k.period, '|');
    assert RetentionKey(k) == k.connection + ['|'] + k.period;
  }

  // ---- Membership and fan-out subjects ----

  function MembershipOf(name: string): string {
    "member:" + name
  }

  function ChannelMembership(channel: string): string {
    MembershipOf(channel)
  }

  /** What a user is counted under. */
  function UserKey(environment: string, user: string): string {
    environment + ":" + user
  }

  function UserMembership(environment: string, user: string): string {
    MembershipOf(UserKey(environment, user))
  }

  function ChannelMessages(channel: string): string {
    "chan:" + channel
  }

  const REVISION_PREFIX := "revision:"

  function ChannelRevisions(channel: string): string {
    REVISION_PREFIX + channel
  }

  predicate IsChannelRevisionSubject(subject: string) {
    REVISION_PREFIX <= subject
  }

  lemma MembershipNames(a: string, b: string)
    ensures MembershipOf(a) == MembershipOf(b) <==> a == b
  {
    assert a == MembershipOf(a)[7..] && b == MembershipOf(b)[7..];
  }

  /** Each kind of subject is its own word, and the ids it is about, with colons between. */
  lemma ChannelSubjectsSplit(c: string)
    requires Without(c, ':')
    ensures Split(ChannelMembership(c), ':') == ["member", c]
    ensures Split(ChannelMessages(c), ':') == ["chan", c]
    ensures Split(ChannelRevisions(c), ':') == ["revision", c]
  {
    SplitsInTwo("member", c, ':');
    SplitsInTwo("chan", c, ':');
    SplitsInTwo("revision", c, ':');
    assert ChannelMembership(c) == "member" + [':'] + c;
    assert ChannelMessages(c) == "chan" + [':'] + c;
    assert ChannelRevisions(c) == "revision" + [':'] + c;
  }

  lemma UserSubjectSplits(e: string, u: string)
    requires Without(e, ':') && Without(u, ':')
    ensures Split(UserMembership(e, u), ':') == ["member", e, u]
  {
    SplitsInTwo(e, u, ':');
    SplitsOff("member", e + [':'] + u, [e, u], ':');
    assert UserMembership(e, u) == "member" + [':'] + (e + [':'] + u);
  }

  /** The two membership forms never name the same thing while channel and environment ids
      hold no colon, whatever users are called. */
  lemma MembershipSubjectsName(c: string, d: string, e: string, u: string, f: string, v: string)
    requires Without(c, ':') && Without(e, ':') && Without(f, ':')
    ensures ChannelMembership(c) == ChannelMembership(d) ==> c == d
    ensures UserMembership(e, u) == UserMembership(f, v) ==> e == f && u == v
    ensures ChannelMembership(c) != UserMembership(e, u)
  {
    MembershipNames(c, d);
    MembershipNames(UserKey(e, u), UserKey(f, v));
    MembershipNames(c, UserKey(e, u));
    if UserMembership(e, u) == UserMembership(f, v) {
      FirstSeparator(e, u, f, v, ':');
    }
    assert UserKey(e, u)[|e|] == ':';
  }

  /** In general they collide for exactly one channel id. */
  lemma MembershipCollides(c: string, e: string, u: string)
    ensures ChannelMembership(c) == UserMembership(e, u) <==> c == UserKey(e, u)
  {
    MembershipNames(c, UserKey(e, u));
  }

  function NameOf(w: Watched): string {
    if w.ChannelWatch? then w.channel else w.user
  }

  function MembershipSubjects(w: Watched): set<string> {
    match w
    case ChannelWatch(c) => {ChannelMembership(c)}
    case UserWatch(key) => {MembershipOf(key)}
  }

  function FanoutSubjects(channel: string): set<string> {
    {ChannelMessages(channel), ChannelRevisions(channel)}
  }

  /** The two count maps interfere exactly when a channel's id is also some user's key. */
  lemma MembershipApart(keys: set<Watched>)
    ensures Apart(MembershipSubjects, keys) <==>
            forall c, u :: ChannelWatch(c) in keys && UserWatch(u) in keys ==> c != u
  {
    forall a, b | a in keys && b in keys && a != b
      ensures MembershipSubjects(a) !! MembershipSubjects(b) <==> (a.ChannelWatch? == b.ChannelWatch?
              || (if a.ChannelWatch? then a.channel != b.user else a.user != b.channel))
    {
      MembershipNames(NameOf(a), NameOf(b));
    }
    if Apart(MembershipSubjects, keys) {
      forall c, u | ChannelWatch(c) in keys && UserWatch(u) in keys ensures c != u {
        assert MembershipSubjects(ChannelWatch(c)) !! MembershipSubjects(UserWatch(u));
        assert ChannelMembership(c) in MembershipSubjects(ChannelWatch(c));
      }
    }
  }

  /** A `chan:` subject goes to messages, a `revision:` subject to revisions, and each
      names one channel. */
  lemma RoutesByPrefix(c: string, d: string)
    ensures !IsChannelRevisionSubject(ChannelMessages(c)) && IsChannelRevisionSubject(ChannelRevisions(c))
    ensures ChannelMessages(c) == ChannelMessages(d) ==> c == d
    ensures ChannelRevisions(c) == ChannelRevisions(d) ==> c == d
    ensures ChannelMessages(c) != ChannelRevisions(d)
  {
    assert ChannelMessages(c)[0] == 'c' && ChannelRevisions(d)[0] == 'r';
    assert c == ChannelMessages(c)[5..] && d == ChannelMessages(d)[5..];
    assert c == ChannelRevisions(c)[9..] && d == ChannelRevisions(d)[9..];
  }

  lemma FanoutApart(keys: set<string>)
    ensures Apart(FanoutSubjects, keys)
  {
    forall a, b | a in keys && b in keys && a != b ensures FanoutSubjects(a) !! FanoutSubjects(b) {
      RoutesByPrefix(a, b);
      RoutesByPrefix(b, a);
    }
  }

  /** After any calls on colon-free channels and users, interleaved in any way with the
      broker running the commands: once the queue is drained, a channel's subject is held
      exactly while somebody holds the channel, and a user's while somebody holds the user. */
  lemma MembershipBrokerFollows(keys: set<Watched>, steps: seq<Step<Watched>>, s: Sys<Watched>, w: Watched)
    requires forall c :: ChannelWatch(c) in keys ==> Without(c, ':')
    requires forall u :: UserWatch(u) in keys ==> ':' in u
    requires Uses(steps, keys) && w in keys && Reaches(IgnoresAbsent, MembershipSubjects, Init(), steps, s)
    requires s.tally.queue == []
    ensures MembershipSubjects(w) <= s.held <==> Holders(s.calls, w) > 0
  {
    MembershipApart(keys);
    assert MembershipSubjects(w) == {MembershipOf(NameOf(w))};
    DrainedHoldsExactly(IgnoresAbsent, MembershipSubjects, keys, steps, s, w, MembershipOf(NameOf(w)));
  }

  /** The commands membership sends are exactly the edges of its counts, in order. */
  lemma MembershipSendsEdges(steps: seq<Step<Watched>>, s: Sys<Watched>)
    requires Reaches(IgnoresAbsent, MembershipSubjects, Init(), steps, s)
    ensures s.ran + s.tally.queue == Edges(s.calls)
  {
    CommandsRunInOrder(IgnoresAbsent, MembershipSubjects, Init(), steps, s);
    MembershipIssuesEdges(s.calls);
  }

  /** The fan-out's two subjects of a channel are always both held or both not, also while
      commands are still queued, and they are held exactly while the channel is once the
      queue is drained. */
  lemma FanoutBrokerFollows(keys: set<string>, steps: seq<Step<string>>, s: Sys<string>, c: string)
    requires Uses(steps, keys) && c in keys && Reaches(TakesAbsentForOne, FanoutSubjects, Init(), steps, s)
    ensures ChannelMessages(c) in s.held <==> ChannelRevisions(c) in s.held
    ensures s.tally.queue == [] ==> (ChannelMessages(c) in s.held <==> Holders(s.calls, c) > 0)
    ensures s.tally.queue == [] ==> (s.ran == Edges(s.calls) <==> Matched(s.calls))
  {
    FanoutApart(keys);
    SubjectsOfAKeyAgree(TakesAbsentForOne, FanoutSubjects, keys, Init(), steps, s, c, ChannelMessages(c),
        ChannelRevisions(c));
    if s.tally.queue == [] {
      DrainedHoldsExactly(TakesAbsentForOne, FanoutSubjects, keys, steps, s, c, ChannelMessages(c));
      CommandsRunInOrder(TakesAbsentForOne, FanoutSubjects, Init(), steps, s);
      FanoutIssuesEdges(s.calls);
    }
  }
}
