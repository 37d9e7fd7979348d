/** What holds after every run of the meter and the api, however reports were lost,
    repeated, overtaken or answered late. */
module MeterGuarantees {
  import opened Common
  import opened OrderedMap
  import opened MinuteBuckets
  import opened Metering
  import opened RetentionHistory
  import opened MeterRuns

  ghost predicate Reachable(cal: Cal, s: Sys) {
    exists start: int, steps: seq<Step> :: Reaches(cal, Init(start), steps, s)
  }

  lemma ReachableIsInv(cal: Cal, s: Sys)
    requires cal.Good() && Reachable(cal, s)
    ensures Inv(cal, s)
  {
    var start: int, steps: seq<Step> :| Reaches(cal, Init(start), steps, s);
    InitIsInv(cal, start);
    RunIsInv(cal, Init(start), steps, s);
  }

  /** The map the steps keep is the one the meter's own methods compute. */
  lemma HeldIsTheMetersMap(cal: Cal, s: Sys, step: Step)
    requires cal.Good() && Reachable(cal, s) && Can(s, step)
    ensures Next(cal, s, step).held.kept == match step
      case Close(id) => HoldAll(s.held.kept, EntriesFor(cal, s.stays[id].connection, s.now))
      case Heard(i) => s.held.kept.(entries := Forget(s.held.kept.entries, s.reports[i].closedNow))
      case HeardNull => s.held.kept.(entries := [])
      case _ => s.held.kept
  {
    ReachableIsInv(cal, s);
    if step.Close? {
      ClosingIsNew(cal, s, step.id);
      HoldAllNewIsOk(s.held, EntriesFor(cal, s.stays[step.id].connection, s.now));
    } else if step.Heard? {
      SettleAllIsOk(s.held, s.reports[step.report].closedNow);
    }
  }

  // ---- The ledger ----

  /** After every run no row holds more than was accepted for it, and nothing accepted is more
      than the minutes the socket really occupied in that month, however landings overlap;
      a row that none of them undercuts is the maximum of the totals accepted for it. */
  lemma RowsNeverExceedOccupied(cal: Cal, start: int, steps: seq<Step>, s: Sys, k: Key)
    requires cal.Good() && Reaches(cal, Init(start), steps, s)
    ensures Credited(s.ledger, k) <= Highest(s.accepted, k) <= Due(cal, s, k)
    ensures NoneUndercut(cal, Init(start), steps, k) ==> Credited(s.ledger, k) == Highest(s.accepted, k)
  {
    InitIsInv(cal, start);
    RunIsInv(cal, Init(start), steps, s);
    AcceptedCapped(cal, s, k);
    if NoneUndercut(cal, Init(start), steps, k) {
      RunIsExact(cal, Init(start), steps, s, k);
    }
  }

  // ---- The retained entries ----

  /** In this run a report was answered null after the socket had closed. */
  ghost predicate NullAfterClose(steps: seq<Step>, id: string) {
    exists i, j :: 0 <= i < j < |steps| && steps[i] == Close(id) && steps[j] == HeardNull
  }

  /** What clearing an entry that was not yet cleared takes. */
  ghost predicate ClearedBy(s: Sys, steps: seq<Step>, id: string) {
    if IsClosed(s, id) then HeardNull in steps else NullAfterClose(steps, id)
  }

  predicate IsWiped(h: History, k: Key) {
    k in h.lives && h.lives[k].fate.Wiped?
  }

  lemma HoldingWipesNothing(h: History, es: seq<Entry>, k: Key)
    requires Ok(h) && AllNew(h, es)
    ensures IsWiped(HoldAllNew(h, es), k) ==> IsWiped(h, k)
  {
    HoldAllNewTakes(h, es);
  }

  lemma StepWipes(cal: Cal, s: Sys, step: Step, k: Key)
    requires cal.Good() && Registered(s) && LivesOk(s) && Ok(s.held) && Can(s, step)
    requires IsWiped(Next(cal, s, step).held, k) && !IsWiped(s.held, k)
    ensures step.HeardNull? && IsClosed(s, k.connection)
  {
    if step.Close? {
      ClosingIsNew(cal, s, step.id);
      HoldingWipesNothing(s.held, EntriesFor(cal, s.stays[step.id].connection, s.now), k);
    } else if step.Heard? {
      SettleAllFate(s.held, s.reports[step.report].closedNow, k);
    }
  }

  lemma ClearedLater(cal: Cal, s: Sys, steps: seq<Step>, id: string)
    requires steps != [] && Can(s, steps[0]) && ClearedBy(Next(cal, s, steps[0]), steps[1..], id)
    ensures ClearedBy(s, steps, id)
  {
    var next, rest := Next(cal, s, steps[0]), steps[1..];
    if IsClosed(s, id) {
      assert IsClosed(next, id);
    } else if IsClosed(next, id) {
      assert steps[0] == Close(id);
      var j :| 0 <= j < |rest| && rest[j] == HeardNull;
      assert steps[j + 1] == HeardNull;
    } else {
      var i, j :| 0 <= i < j < |rest| && rest[i] == Close(id) && rest[j] == HeardNull;
      assert steps[i + 1] == Close(id) && steps[j + 1] == HeardNull;
    }
  }

  /** An entry is cleared only by a null answer after its socket closed. */
  lemma {:induction false} OnlyNullWipes(cal: Cal, s: Sys, steps: seq<Step>, t: Sys, k: Key)
    requires cal.Good() && Inv(cal, s) && Reaches(cal, s, steps, t)
    requires IsWiped(t.held, k) && !IsWiped(s.held, k)
    ensures ClearedBy(s, steps, k.connection)
    decreases |steps|
  {
    if steps != [] {
      var next := Next(cal, s, steps[0]);
      if IsWiped(next.held, k) {
        StepWipes(cal, s, steps[0], k);
        assert steps[0] in steps;
      } else {
        StepIsInv(cal, s, steps[0]);
        OnlyNullWipes(cal, next, steps[1..], t, k);
        ClearedLater(cal, s, steps, k.connection);
      }
    }
  }

  lemma StepEvictsUnderFull(cal: Cal, s: Sys, step: Step)
    requires cal.Good() && Registered(s) && LivesOk(s) && Ok(s.held) && Can(s, step) && EvictedUnderFull(s.held)
    ensures EvictedUnderFull(Next(cal, s, step).held)
  {
    if step.Close? {
      ClosingIsNew(cal, s, step.id);
      HoldAllUnderFull(s.held, EntriesFor(cal, s.stays[step.id].connection, s.now));
    } else if step.Heard? {
      SettlingEvictsNothing(s.held, s.reports[step.report].closedNow);
    }
  }

  lemma {:induction false} RunEvictsUnderFull(cal: Cal, s: Sys, steps: seq<Step>, t: Sys)
    requires cal.Good() && Inv(cal, s) && Reaches(cal, s, steps, t) && EvictedUnderFull(s.held)
    ensures EvictedUnderFull(t.held)
    decreases |steps|
  {
    if steps != [] {
      StepEvictsUnderFull(cal, s, steps[0]);
      StepIsInv(cal, s, steps[0]);
      RunEvictsUnderFull(cal, Next(cal, s, steps[0]), steps[1..], t);
    }
  }

  /** Nothing is ever discarded but from a full map: at least 4,000 entries have been
      inserted after it. */
  lemma EvictsOnlyPastTheCap(cal: Cal, s: Sys, k: Key)
    requires cal.Good() && Reachable(cal, s) && k in WithFate(s.held, Evicted)
    ensures s.held.inserted > s.held.lives[k].stamp + 4_000
  {
    ReachableIsInv(cal, s);
    var start: int, steps: seq<Step> :| Reaches(cal, Init(start), steps, s);
    InitIsInv(cal, start);
    RunEvictsUnderFull(cal, Init(start), steps, s);
    EvictedAtTheCap(s.held, k);
  }

  /** A month a closed socket owes for is never lost track of: its final total is still
      retained, or it was settled by an accepted report, and then the ledger holds it in
      full if no landing undercut it, or it was evicted with 4,000 entries inserted after it,
      or a report was answered null after the socket had closed. */
  lemma ClosedMinutesAreAccountedFor(cal: Cal, start: int, steps: seq<Step>, s: Sys, k: Key)
    requires cal.Good() && Reaches(cal, Init(start), steps, s)
    requires IsClosed(s, k.connection) && Due(cal, s, k) > 0
    ensures k in s.held.lives
    ensures match s.held.lives[k].fate
      case Kept => Has(s.held.kept.entries, k) && Lookup(s.held.kept.entries, k).value.minutes == Due(cal, s, k)
      case Settled => NoneUndercut(cal, Init(start), steps, k) ==> Credited(s.ledger, k) == Due(cal, s, k)
      case Evicted => s.held.inserted > s.held.lives[k].stamp + 4_000
      case Wiped => NullAfterClose(steps, k.connection)
  {
    InitIsInv(cal, start);
    RunIsInv(cal, Init(start), steps, s);
    match s.held.lives[k].fate
    case Kept => KeptIsFinal(cal, s, k);
    case Settled =>
      if NoneUndercut(cal, Init(start), steps, k) {
        RunIsExact(cal, Init(start), steps, s, k);
      }
    case Evicted => EvictsOnlyPastTheCap(cal, s, k);
    case Wiped => OnlyNullWipes(cal, Init(start), steps, s, k);
  }

  lemma KeptIsFinal(cal: Cal, s: Sys, k: Key)
    requires Ok(s.held) && RetainedAreFinal(cal, s) && Retained(s.held, k)
    ensures Has(s.held.kept.entries, k) && Lookup(s.held.kept.entries, k).value.minutes == Due(cal, s, k)
  {
    var es := s.held.kept.entries;
    var i := IndexOf(es, k);
    assert es[i].1 == Values(es)[i] && Final(cal, s, es[i].1);
  }

  /** The map stays within its cap, lets its oldest entries go first, and every fresh
      insertion is retained, evicted, settled or cleared, and only one of these. */
  lemma RetentionIsBoundedAndConserves(cal: Cal, s: Sys)
    requires cal.Good() && Reachable(cal, s)
    ensures |s.held.kept.entries| <= 4_000
    ensures s.held.inserted
            == |s.held.kept.entries| + s.held.kept.discarded + |WithFate(s.held, Settled)| + |WithFate(s.held, Wiped)|
    ensures forall k, i :: k in WithFate(s.held, Evicted) && 0 <= i < |s.held.kept.entries| ==>
              StampOf(s.held, k) < StampOf(s.held, s.held.kept.entries[i].0)
    ensures forall i, j :: 0 <= i < j < |s.held.kept.entries| ==>
              StampOf(s.held, s.held.kept.entries[i].0) < StampOf(s.held, s.held.kept.entries[j].0)
  {
    ReachableIsInv(cal, s);
    Conserves(s.held);
    forall k, i | k in WithFate(s.held, Evicted) && 0 <= i < |s.held.kept.entries|
      ensures StampOf(s.held, k) < StampOf(s.held, s.held.kept.entries[i].0)
    {
      EvictedIsOlder(s.held, k, i);
    }
    var stamps := Stamps(s.held);
    assert forall i :: 0 <= i < |stamps| ==> stamps[i] == StampOf(s.held, s.held.kept.entries[i].0);
  }

  // ---- One accepted report repairs everything ----

  /** The state after a report is sent, taken by the api, and its answer heard. */
  function Reported(cal: Cal, s: Sys): Sys
    requires BatchNow(cal, s) != []
  {
    var landed := Landed(Sent(cal, s), |s.reports|, {});
    landed.(held := SettleAll(landed.held, landed.reports[|s.reports|].closedNow))
  }

  lemma {:induction false} ReachesOn(cal: Cal, s: Sys, first: seq<Step>, u: Sys, second: seq<Step>, t: Sys)
    requires Reaches(cal, s, first, u) && Reaches(cal, u, second, t)
    ensures Reaches(cal, s, first + second, t)
    decreases |first|
  {
    if first == [] {
      assert first + second == second;
    } else {
      ReachesOn(cal, Next(cal, s, first[0]), first[1..], u, second, t);
      assert (first + second)[1..] == first[1..] + second;
    }
  }

  lemma OneStep(cal: Cal, s: Sys, step: Step)
    requires Can(s, step)
    ensures Reaches(cal, s, [step], Next(cal, s, step))
  {
    assert [step][1..] == [];
  }

  lemma SendsAndLands(cal: Cal, s: Sys)
    requires Lands(BatchNow(cal, s))
    ensures Reaches(cal, s, [Send] + [Land(|s.reports|, {})], Landed(Sent(cal, s), |s.reports|, {}))
    ensures Landed(Sent(cal, s), |s.reports|, {}).reports[|s.reports|].landed
  {
    OneStep(cal, s, Send);
    OneStep(cal, Sent(cal, s), Land(|s.reports|, {}));
    ReachesOn(cal, s, [Send], Sent(cal, s), [Land(|s.reports|, {})], Landed(Sent(cal, s), |s.reports|, {}));
  }

  lemma ReportedIsReachable(cal: Cal, s: Sys)
    requires cal.Good() && Inv(cal, s) && Lands(BatchNow(cal, s))
    ensures Reaches(cal, s, [Send] + [Land(|s.reports|, {})] + [Heard(|s.reports|)], Reported(cal, s))
    ensures Inv(cal, Reported(cal, s))
  {
    var landed := Landed(Sent(cal, s), |s.reports|, {});
    SendsAndLands(cal, s);
    OneStep(cal, landed, Heard(|s.reports|));
    ReachesOn(cal, s, [Send] + [Land(|s.reports|, {})], landed, [Heard(|s.reports|)], Reported(cal, s));
    RunIsInv(cal, s, [Send] + [Land(|s.reports|, {})] + [Heard(|s.reports|)], Reported(cal, s));
  }

  /** The batch states everything an open socket owes. */
  lemma OpenIsInBatch(cal: Cal, s: Sys, k: Key) returns (e: Entry)
    requires cal.Good() && Registered(s) && IsOpen(s, k.connection) && Due(cal, s, k) > 0
    ensures e in BatchNow(cal, s) && KeyOf(e) == k && e.minutes == Due(cal, s, k)
  {
    var c := s.stays[k.connection].connection;
    var es := EntriesFor(cal, c, s.now);
    OwedHasEntry(cal, c, s.now, k.period);
    NamesIsMember(es, k);
    var j :| 0 <= j < |es| && KeyOf(es[j]) == k;
    e := es[j];
    EntriesForAreOwed(cal, c, s.now);
    InEntriesForAll(cal, s.open, s.now, e);
    var i :| 0 <= i < |s.open| && s.open[i] == c;
    assert e in EntriesFor(cal, s.open[i], s.now);
  }

  /** It states every retained final total too. */
  lemma KeptIsInBatch(cal: Cal, s: Sys, k: Key) returns (e: Entry)
    requires Ok(s.held) && RetainedAreFinal(cal, s) && Retained(s.held, k)
    ensures e in BatchNow(cal, s) && KeyOf(e) == k && e.minutes == Due(cal, s, k)
  {
    KeptIsFinal(cal, s, k);
    var es := s.held.kept.entries;
    e := es[IndexOf(es, k)].1;
    assert Values(es)[IndexOf(es, k)] == e;
  }

  /** A report that lands covers what it states, and lowers no row. */
  lemma ReportCovers(cal: Cal, s: Sys, k: Key)
    requires Lands(BatchNow(cal, s))
    ensures Credited(Reported(cal, s).ledger, k) == Max(Credited(s.ledger, k), Highest(BatchNow(cal, s), k))
  {
    CreditedAfter(s.ledger, BatchNow(cal, s), {}, k);
  }

  /** Settling everything retained leaves nothing retained and touches no other fate. */
  lemma SettlesWhole(h: History)
    requires Ok(h)
    ensures SettleAll(h, Values(h.kept.entries)).kept.entries == []
    ensures forall k :: k in h.lives ==>
              && k in SettleAll(h, Values(h.kept.entries)).lives
              && SettleAll(h, Values(h.kept.entries)).lives[k].fate
                  == (if h.lives[k].fate.Kept? then Settled else h.lives[k].fate)
  {
    var all := Values(h.kept.entries);
    var t := SettleAll(h, all);
    SettleAllIsOk(h, all);
    forall k
      ensures k in t.lives ==> !t.lives[k].fate.Kept?
      ensures k in h.lives ==>
              k in t.lives && t.lives[k].fate == (if h.lives[k].fate.Kept? then Settled else h.lives[k].fate)
    {
      SettleAllFate(h, all, k);
      KeptIsRetained(h, k);
      NamesIsMember(all, k);
      var i := IndexOf(h.kept.entries, k);
      assert i < |h.kept.entries| ==> KeyOf(all[i]) == k;
    }
    assert |t.kept.entries| > 0 ==> Retained(t, t.kept.entries[0].0);
  }

  /** Minutes an overlapping landing has taken off the row of an entry already settled. */
  predicate LostToARace(cal: Cal, s: Sys, k: Key) {
    k in WithFate(s.held, Settled) && Credited(s.ledger, k) < Due(cal, s, k)
  }

  lemma BatchStatesDue(cal: Cal, s: Sys, k: Key)
    requires cal.Good() && Inv(cal, s) && Due(cal, s, k) > 0
    requires k !in WithFate(s.held, Evicted) + WithFate(s.held, Wiped) + WithFate(s.held, Settled)
    ensures Highest(BatchNow(cal, s), k) >= Due(cal, s, k)
  {
    if IsOpen(s, k.connection) {
      var e := OpenIsInBatch(cal, s, k);
      HighestCovers(BatchNow(cal, s), e);
    } else {
      assert IsClosed(s, k.connection) && k in s.held.lives;
      assert Retained(s.held, k);
      var e := KeptIsInBatch(cal, s, k);
      HighestCovers(BatchNow(cal, s), e);
    }
  }

  lemma ReportedIsCapped(cal: Cal, s: Sys, k: Key)
    requires cal.Good() && Inv(cal, s) && Lands(BatchNow(cal, s))
    ensures Credited(Reported(cal, s).ledger, k) <= Due(cal, Reported(cal, s), k)
  {
    ReportedIsReachable(cal, s);
    AcceptedCapped(cal, Reported(cal, s), k);
  }

  lemma InvConverges(cal: Cal, s: Sys, k: Key)
    requires cal.Good() && Inv(cal, s) && Lands(BatchNow(cal, s))
    requires k !in WithFate(s.held, Evicted) + WithFate(s.held, Wiped) && !LostToARace(cal, s, k)
    ensures Credited(Reported(cal, s).ledger, k) == Due(cal, s, k)
  {
    SameWorld(cal, s, Reported(cal, s));
    ReportedIsCapped(cal, s, k);
    ReportCovers(cal, s, k);
    if Due(cal, s, k) > 0 && k !in WithFate(s.held, Settled) {
      BatchStatesDue(cal, s, k);
    }
  }

  /** From any reachable state, one report that is taken and answered puts the ledger at
      exactly what every socket, open or closed, has occupied, but for what the cap, a null
      answer or an overlapping landing had already cost, and leaves nothing to retain. A row
      that no landing undercut has lost nothing to the last. The batch must have a size the
      request schema takes. */
  lemma OneReportConverges(cal: Cal, start: int, steps: seq<Step>, s: Sys, k: Key)
    requires cal.Good() && Reaches(cal, Init(start), steps, s) && Lands(BatchNow(cal, s))
    ensures Reported(cal, s).held.kept.entries == []
    ensures Due(cal, Reported(cal, s), k) == Due(cal, s, k)
    ensures k in WithFate(s.held, Evicted) + WithFate(s.held, Wiped) || LostToARace(cal, s, k)
            || Credited(Reported(cal, s).ledger, k) == Due(cal, s, k)
    ensures NoneUndercut(cal, Init(start), steps, k) ==> !LostToARace(cal, s, k)
  {
    InitIsInv(cal, start);
    RunIsInv(cal, Init(start), steps, s);
    SettlesWhole(s.held);
    SameWorld(cal, s, Reported(cal, s));
    if k !in WithFate(s.held, Evicted) + WithFate(s.held, Wiped) && !LostToARace(cal, s, k) {
      InvConverges(cal, s, k);
    }
    if NoneUndercut(cal, Init(start), steps, k) {
      RunIsExact(cal, Init(start), steps, s, k);
    }
  }

  // ---- What overlapping landings can cost ----

  /** A socket that stays from one minute into the next of the same month. */
  lemma FirstMinutes(cal: Cal, c: Connection)
    requires cal.Good() && StaysInMonth(cal, c)
    ensures var p := cal.name(cal.monthOf(MinuteOf(c.openedAt)));
            && EntriesFor(cal, c, c.openedAt) == [Entry(c.id, c.environment, p, 1)]
            && EntriesFor(cal, c, c.openedAt + MINUTE_MS) == [Entry(c.id, c.environment, p, 2)]
            && Owed(cal, MinuteOf(c.openedAt), MinuteOf(c.openedAt + MINUTE_MS), p) == 2
  {
    var m := MinuteOf(c.openedAt);
    var p := cal.name(cal.monthOf(m));
    assert MinuteOf(c.openedAt + MINUTE_MS) == m + 1;
    assert Buckets(cal, m, m - 1) == [];
    assert Buckets(cal, m, m) == [(p, 1)];
    assert Buckets(cal, m, m + 1) == [(p, 2)];
    BucketsHoldOwed(cal, m, m + 1, p);
  }

  /** What such a socket owes after its first minute, and after its second. */
  function Owes(cal: Cal, c: Connection, minutes: nat): Entry {
    Entry(c.id, c.environment, cal.name(cal.monthOf(MinuteOf(c.openedAt))), minutes)
  }

  /** It is open and its first minute has been sent. */
  function FirstSent(cal: Cal, c: Connection): Sys {
    Sys(c.openedAt, [c], map[c.id := Stay(c, None)], NOTHING, [Report([Owes(cal, c, 1)], [], {}, false)], map[], [], [])
  }

  /** A minute later it closes. */
  function NowClosed(cal: Cal, c: Connection): Sys {
    Closed(cal, Ticked(FirstSent(cal, c), MINUTE_MS), c.id)
  }

  /** And its final total has been sent too. */
  function BothSent(cal: Cal, c: Connection): Sys {
    var s := NowClosed(cal, c);
    s.(reports := s.reports + [Report([Owes(cal, c, 2)], [Owes(cal, c, 2)], {}, false)])
  }

  predicate StaysInMonth(cal: Cal, c: Connection) {
    cal.monthOf(MinuteOf(c.openedAt)) == cal.monthOf(MinuteOf(c.openedAt) + 1)
  }

  lemma FirstIsSent(cal: Cal, c: Connection)
    requires cal.Good() && StaysInMonth(cal, c)
    ensures Sent(cal, Opened(Init(c.openedAt), c.id, c.environment)) == FirstSent(cal, c)
  {
    FirstMinutes(cal, c);
    var s := Opened(Init(c.openedAt), c.id, c.environment);
    assert s.open == [c] && [c][1..] == [];
    assert EntriesForAll(cal, [c], c.openedAt) == [Owes(cal, c, 1)];
    assert BatchNow(cal, s) == [Owes(cal, c, 1)];
    NoRowsYet(s);
  }

  lemma NoRowsYet(s: Sys)
    requires s.ledger == map[]
    ensures s.ledger.Keys == {}
  {
  }

  lemma HoldsOne(cal: Cal, c: Connection)
    requires cal.Good() && StaysInMonth(cal, c)
    ensures HoldAllNew(NOTHING, EntriesFor(cal, c, c.openedAt + MINUTE_MS)) == HoldNew(NOTHING, Owes(cal, c, 2))
  {
    FirstMinutes(cal, c);
    var two := Owes(cal, c, 2);
    assert [two][1..] == [] && HoldAllNew(HoldNew(NOTHING, two), []) == HoldNew(NOTHING, two);
  }

  lemma ClosesAs(cal: Cal, c: Connection)
    ensures NowClosed(cal, c).open == WithoutId([c], c.id)
    ensures NowClosed(cal, c).held == HoldAllNew(NOTHING, EntriesFor(cal, c, c.openedAt + MINUTE_MS))
  {
  }

  lemma ThenCloses(cal: Cal, c: Connection)
    requires cal.Good() && StaysInMonth(cal, c)
    ensures NowClosed(cal, c).open == [] && NowClosed(cal, c).held == HoldNew(NOTHING, Owes(cal, c, 2))
  {
    ClosesAs(cal, c);
    OnlyOneLeaves(c);
    HoldsOne(cal, c);
  }

  lemma OnlyOneLeaves(c: Connection)
    ensures WithoutId([c], c.id) == []
  {
    assert [c][1..] == [];
  }

  lemma LastIsSent(cal: Cal, c: Connection)
    requires cal.Good() && StaysInMonth(cal, c)
    ensures Sent(cal, NowClosed(cal, c)) == BothSent(cal, c)
  {
    var s := NowClosed(cal, c);
    ThenCloses(cal, c);
    assert Values(s.held.kept.entries) == [Owes(cal, c, 2)];
    assert BatchNow(cal, s) == [Owes(cal, c, 2)];
    NoRowsYet(s);
  }

  lemma BothSentIsReached(cal: Cal, c: Connection) returns (steps: seq<Step>)
    requires cal.Good() && StaysInMonth(cal, c)
    ensures Reaches(cal, Init(c.openedAt), steps, BothSent(cal, c))
  {
    var s0, s1 := Init(c.openedAt), Opened(Init(c.openedAt), c.id, c.environment);
    var s2, s3, s4 := FirstSent(cal, c), Ticked(FirstSent(cal, c), MINUTE_MS), NowClosed(cal, c);
    FirstIsSent(cal, c);
    LastIsSent(cal, c);
    OneStep(cal, s0, Open(c.id, c.environment));
    OneStep(cal, s1, Send);
    OneStep(cal, s2, Tick(MINUTE_MS));
    OneStep(cal, s3, Close(c.id));
    OneStep(cal, s4, Send);
    steps := [Open(c.id, c.environment)];
    ReachesOn(cal, s0, steps, s1, [Send], s2);
    ReachesOn(cal, s0, steps + [Send], s2, [Tick(MINUTE_MS)], s3);
    ReachesOn(cal, s0, steps + [Send] + [Tick(MINUTE_MS)], s3, [Close(c.id)], s4);
    ReachesOn(cal, s0, steps + [Send] + [Tick(MINUTE_MS)] + [Close(c.id)], s4, [Send], BothSent(cal, c));
    steps := steps + [Send] + [Tick(MINUTE_MS)] + [Close(c.id)] + [Send];
  }

  /** The final total lands first, */
  function OneLanded(cal: Cal, c: Connection): Sys {
    Landed(BothSent(cal, c), 1, {})
  }

  /** the older report overwrites it, */
  function OtherLanded(cal: Cal, c: Connection): Sys {
    Landed(OneLanded(cal, c), 0, {KeyOf(Owes(cal, c, 1))})
  }

  /** and the final total's answer is heard. */
  function RaceRun(cal: Cal, c: Connection): Sys {
    OtherLanded(cal, c).(held := SettleAll(OtherLanded(cal, c).held, [Owes(cal, c, 2)]))
  }

  lemma RaceRunIsReached(cal: Cal, c: Connection)
    ensures var s, k := BothSent(cal, c), KeyOf(Owes(cal, c, 1));
            Reaches(cal, s, [Land(1, {})] + [Land(0, {k})] + [Heard(1)], RaceRun(cal, c))
  {
    var s, u, v, k := BothSent(cal, c), OneLanded(cal, c), OtherLanded(cal, c), KeyOf(Owes(cal, c, 1));
    OneStep(cal, s, Land(1, {}));
    OneStep(cal, u, Land(0, {k}));
    assert v.reports[1].landed && v.reports[1].closedNow == [Owes(cal, c, 2)];
    OneStep(cal, v, Heard(1));
    ReachesOn(cal, s, [Land(1, {})], u, [Land(0, {k})], v);
    ReachesOn(cal, s, [Land(1, {})] + [Land(0, {k})], v, [Heard(1)], RaceRun(cal, c));
  }

  lemma SecondUndercuts(one: Entry, two: Entry)
    requires KeyOf(one) == KeyOf(two) && one.minutes <= two.minutes
    ensures var ledger := CreditAll(CreditAll(map[], [two], {}).0, [one], {KeyOf(one)}).0;
            Credited(ledger, KeyOf(one)) == one.minutes
    ensures Highest([two] + [one], KeyOf(one)) == two.minutes
  {
    var k := KeyOf(one);
    CreditedAfter(CreditAll(map[], [two], {}).0, [one], {k}, k);
    assert [one][..0] == [] && [two][..0] == [];
    HighestOfBoth([two], [one], k);
  }

  lemma RaceRunState(cal: Cal, c: Connection)
    requires cal.Good() && StaysInMonth(cal, c)
    ensures var one, two, s := Owes(cal, c, 1), Owes(cal, c, 2), RaceRun(cal, c);
            && s.ledger == CreditAll(CreditAll(map[], [two], {}).0, [one], {KeyOf(one)}).0
            && s.accepted == [two] + [one]
            && s.credits == [Credit(two, 2)] + [Credit(one, 1)]
            && s.stays == NowClosed(cal, c).stays && s.held == SettleAll(HoldNew(NOTHING, two), [two])
  {
    ThenCloses(cal, c);
    UnseenIsCredited(map[], Owes(cal, c, 2), {});
    UnseenIsCredited(OneLanded(cal, c).ledger, Owes(cal, c, 1), {KeyOf(Owes(cal, c, 1))});
  }

  /** A row that is not there, or not seen, is credited in full. */
  lemma UnseenIsCredited(ledger: map<Key, nat>, e: Entry, blind: set<Key>)
    requires KeyOf(e) in blind || KeyOf(e) !in ledger
    ensures CreditsOf(ledger, [e], blind) == [Credit(e, e.minutes)]
    ensures CreditAll(ledger, [e], blind).0 == ledger[KeyOf(e) := e.minutes]
  {
    var (next, one) := CreditOne(ledger, e, blind);
    assert [e][1..] == [] && one == e.minutes && next == ledger[KeyOf(e) := e.minutes];
    assert CreditsOf(next, [], blind - {KeyOf(e)}) == [] && CreditAll(next, [], blind - {KeyOf(e)}) == (next, 0);
  }

  lemma BothCharged(one: Entry, two: Entry)
    requires KeyOf(one) == KeyOf(two)
    ensures var credits := [Credit(two, two.minutes)] + [Credit(one, one.minutes)];
            ChargedTo(credits, KeyOf(one)) == two.minutes + one.minutes
  {
    var first, last := [Credit(two, two.minutes)], [Credit(one, one.minutes)];
    assert first[1..] == [] && last[1..] == [];
    ChargesAddUp(first, last, KeyOf(one));
  }

  /** Two landings that both found no row: the one with the closed socket's final total
      commits first, the older report overwrites it, and the answer to the first still
      settles the entry. The ledger is left a minute short, and nothing will report it; yet
      three minutes have been charged for the two. */
  lemma OverlappingLandingsLose(cal: Cal, c: Connection) returns (steps: seq<Step>, s: Sys, k: Key)
    requires cal.Good() && StaysInMonth(cal, c)
    ensures Reaches(cal, Init(c.openedAt), steps, s) && IsClosed(s, k.connection) && LostToARace(cal, s, k)
    ensures Credited(s.ledger, k) == 1 && Highest(s.accepted, k) == Due(cal, s, k) == 2
    ensures ChargedTo(s.credits, k) == 3
  {
    k, s := KeyOf(Owes(cal, c, 1)), RaceRun(cal, c);
    var before := BothSentIsReached(cal, c);
    RaceRunIsReached(cal, c);
    steps := before + ([Land(1, {})] + [Land(0, {k})] + [Heard(1)]);
    ReachesOn(cal, Init(c.openedAt), before, BothSent(cal, c), [Land(1, {})] + [Land(0, {k})] + [Heard(1)], s);
    RaceRunLoses(cal, c);
  }

  lemma StaysOneMinute(cal: Cal, c: Connection)
    ensures NowClosed(cal, c).stays == map[c.id := Stay(c, Some(c.openedAt + MINUTE_MS))]
  {
  }

  lemma RaceRunDue(cal: Cal, c: Connection, s: Sys)
    requires cal.Good() && StaysInMonth(cal, c) && s.stays == map[c.id := Stay(c, Some(c.openedAt + MINUTE_MS))]
    ensures IsClosed(s, c.id) && Due(cal, s, KeyOf(Owes(cal, c, 1))) == 2
  {
    FirstMinutes(cal, c);
  }

  lemma RaceRunLoses(cal: Cal, c: Connection)
    requires cal.Good() && StaysInMonth(cal, c)
    ensures var s, k := RaceRun(cal, c), KeyOf(Owes(cal, c, 1));
            && IsClosed(s, k.connection) && LostToARace(cal, s, k)
            && Credited(s.ledger, k) == 1 && Highest(s.accepted, k) == Due(cal, s, k) == 2
            && ChargedTo(s.credits, k) == 3
  {
    RaceRunState(cal, c);
    SecondUndercuts(Owes(cal, c, 1), Owes(cal, c, 2));
    BothCharged(Owes(cal, c, 1), Owes(cal, c, 2));
    HeldIsSettled(Owes(cal, c, 2));
    StaysOneMinute(cal, c);
    RaceRunDue(cal, c, RaceRun(cal, c));
  }

  lemma HeldIsSettled(e: Entry)
    ensures var h := SettleAll(HoldNew(NOTHING, e), [e]);
            KeyOf(e) in h.lives && h.lives[KeyOf(e)].fate.Settled?
  {
    var h := HoldNew(NOTHING, e);
    assert h.kept.entries == [(KeyOf(e), e)] && IndexOf(h.kept.entries, KeyOf(e)) == 0;
    assert [e][1..] == [];
    assert SettleAll(Settle(h, KeyOf(e)), []) == Settle(h, KeyOf(e));
  }

  // ---- And what the size limit costs ----

  /** The months a socket has been open in. */
  function MonthsSpanned(cal: Cal, c: Connection, at: int): int {
    if MinuteOf(at) < MinuteOf(c.openedAt) then 0
    else cal.monthOf(MinuteOf(at)) - cal.monthOf(MinuteOf(c.openedAt)) + 1
  }

  function AllSpanned(cal: Cal, open: seq<Connection>, at: int): int {
    if open == [] then 0 else MonthsSpanned(cal, open[0], at) + AllSpanned(cal, open[1..], at)
  }

  lemma {:induction false} EntriesAreMonthsSpanned(cal: Cal, open: seq<Connection>, at: int)
    requires cal.Good()
    ensures |EntriesForAll(cal, open, at)| == AllSpanned(cal, open, at)
  {
    if open != [] {
      BucketsClosedForm(cal, MinuteOf(open[0].openedAt), MinuteOf(at));
      EntriesAreMonthsSpanned(cal, open[1..], at);
    }
  }

  /** A report has one entry for each retained one and one for each month of each open
      socket. Whatever a gateway has to report goes into one report, nothing is split, so
      from 5,001 entries on it is refused, and otherwise taken. */
  lemma ReportLandsIffItFits(cal: Cal, s: Sys)
    requires cal.Good() && BatchNow(cal, s) != []
    ensures |BatchNow(cal, s)| == |s.held.kept.entries| + AllSpanned(cal, s.open, s.now)
    ensures var sent := Sent(cal, s);
            Landed(sent, |s.reports|, {}) == sent <==>
                |s.held.kept.entries| + AllSpanned(cal, s.open, s.now) > 5_000
  {
    EntriesAreMonthsSpanned(cal, s.open, s.now);
    var sent := Sent(cal, s);
    if Lands(BatchNow(cal, s)) {
      assert Landed(sent, |s.reports|, {}).reports[|s.reports|].landed && !sent.reports[|s.reports|].landed;
    }
  }

  lemma {:induction false} EveryOpenSocketReports(cal: Cal, open: seq<Connection>, at: int)
    requires cal.Good() && forall c :: c in open ==> c.openedAt <= at
    ensures AllSpanned(cal, open, at) >= |open|
  {
    if open != [] {
      assert open[0] in open;
      MonthsFollow(cal, MinuteOf(open[0].openedAt), MinuteOf(at));
      EveryOpenSocketReports(cal, open[1..], at);
    }
  }

  /** So a gateway that holds more than 5,000 open sockets, or that retains so much beside
      them, can no longer report at all. */
  lemma OversizeReportNeverLands(cal: Cal, s: Sys)
    requires cal.Good() && Reachable(cal, s)
    requires |s.held.kept.entries| + |s.open| > 5_000
    ensures BatchNow(cal, s) != [] && Landed(Sent(cal, s), |s.reports|, {}) == Sent(cal, s)
  {
    ReachableIsInv(cal, s);
    assert forall c :: c in s.open ==> c == s.stays[c.id].connection;
    EveryOpenSocketReports(cal, s.open, s.now);
    EntriesAreMonthsSpanned(cal, s.open, s.now);
    ReportLandsIffItFits(cal, s);
  }

  /** Any number of sockets can be open at once. */
  lemma {:induction false} AnyNumberOpens(cal: Cal, start: int, n: nat) returns (steps: seq<Step>, s: Sys)
    ensures Reaches(cal, Init(start), steps, s) && |s.open| == n
    ensures forall id :: id in s.stays ==> |id| < n
  {
    if n == 0 {
      steps, s := [], Init(start);
    } else {
      var before, u := AnyNumberOpens(cal, start, n - 1);
      var id := seq(n - 1, _ => 'x');
      s := Opened(u, id, "");
      steps := before + [Open(id, "")];
      OneStep(cal, u, Open(id, ""));
      ReachesOn(cal, Init(start), before, u, [Open(id, "")], s);
    }
  }
}
