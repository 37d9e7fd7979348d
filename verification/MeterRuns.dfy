/** The meter and the api together: sockets open and close, reports go out and overlap,
    arrive late, twice or never, and their answers may be lost. */
module MeterRuns {
  import opened Common
  import opened OrderedMap
  import opened MinuteBuckets
  import opened Metering
  import opened RetentionHistory

  /** One report the gateway has sent: its body, the retained entries it carried, the rows
      the api had when it was sent, and whether the api has ever accepted it. */
  datatype Report = Report(batch: seq<Entry>, closedNow: seq<Entry>, rows: set<Key>, landed: bool)

  datatype Stay = Stay(connection: Connection, closedAt: Option<int>)

  /** `open` is the registry in its own order; `stays` remembers every socket there ever
      was; `accepted` is every entry the api has taken, in the order it took them, and
      `credits` what it has charged for each. */
  datatype Sys = Sys(
    now: int,
    open: seq<Connection>,
    stays: map<string, Stay>,
    held: History,
    reports: seq<Report>,
    ledger: map<Key, nat>,
    accepted: seq<Entry>,
    credits: seq<Credit>)

  datatype Step =
    | Open(id: string, environment: string)
    | Close(id: string)
    | Tick(ms: nat)
    | Send
    | Land(report: nat, blind: set<Key>)
    | Heard(report: nat)
    | HeardNull

  function Init(now: int): Sys {
    Sys(now, [], map[], NOTHING, [], map[], [], [])
  }

  function WithoutId(open: seq<Connection>, id: string): (r: seq<Connection>)
    ensures forall c :: c in r <==> c in open && c.id != id
  {
    if open == [] then []
    else if open[0].id == id then WithoutId(open[1..], id)
    else [open[0]] + WithoutId(open[1..], id)
  }

  predicate IsOpen(s: Sys, id: string) {
    id in s.stays && s.stays[id].closedAt.None?
  }

  /** `Land` may run any number of times and in any order, before or after the gateway
      gave up on the report. It locks the rows it reads; `blind` are keys that had no row
      yet when it read them, which another landing may have written since.
      `Heard` needs it to have landed. A report that is lost, or
      whose answer is, simply never makes the later step. */
  predicate Can(s: Sys, step: Step) {
    match step
    case Open(id, _) => id !in s.stays
    case Close(id) => IsOpen(s, id)
    case Tick(_) => true
    case Send => true
    case Land(i, blind) => i < |s.reports| && blind !! s.reports[i].rows
    case Heard(i) => i < |s.reports| && s.reports[i].landed
    case HeardNull => true
  }

  function BatchNow(cal: Cal, s: Sys): seq<Entry> {
    Values(s.held.kept.entries) + EntriesForAll(cal, s.open, s.now)
  }

  function Opened(s: Sys, id: string, environment: string): Sys {
    var c := Connection(id, environment, s.now);
    s.(open := s.open + [c], stays := s.stays[id := Stay(c, None)])
  }

  function Closed(cal: Cal, s: Sys, id: string): Sys
    requires IsOpen(s, id)
  {
    var c := s.stays[id].connection;
    s.(open := WithoutId(s.open, id),
       stays := s.stays[id := Stay(c, Some(s.now))],
       held := HoldAllNew(s.held, EntriesFor(cal, c, s.now)))
  }

  function Ticked(s: Sys, ms: nat): Sys {
    s.(now := s.now + ms)
  }

  function Sent(cal: Cal, s: Sys): Sys {
    var batch := BatchNow(cal, s);
    if batch == [] then s
    else s.(reports := s.reports + [Report(batch, Values(s.held.kept.entries), s.ledger.Keys, false)])
  }

  function Landed(s: Sys, i: nat, blind: set<Key>): Sys
    requires i < |s.reports|
  {
    var batch := s.reports[i].batch;
    if Lands(batch)
    then s.(ledger := CreditAll(s.ledger, batch, blind).0,
            accepted := s.accepted + batch,
            credits := s.credits + CreditsOf(s.ledger, batch, blind),
            reports := s.reports[i := s.reports[i].(landed := true)])
    else s
  }

  /** The landing saw every row there is: none it reads was written while it ran. */
  predicate Serial(s: Sys, step: Step) {
    step.Land? ==> step.blind !! s.ledger.Keys
  }

  function Next(cal: Cal, s: Sys, step: Step): Sys
    requires Can(s, step)
  {
    match step
    case Open(id, environment) => Opened(s, id, environment)
    case Close(id) => Closed(cal, s, id)
    case Tick(ms) => Ticked(s, ms)
    case Send => Sent(cal, s)
    case Land(i, blind) => Landed(s, i, blind)
    case Heard(i) => s.(held := SettleAll(s.held, s.reports[i].closedNow))
    case HeardNull => s.(held := Wipe(s.held))
  }

  predicate Reaches(cal: Cal, s: Sys, steps: seq<Step>, t: Sys)
    decreases |steps|
  {
    if steps == [] then s == t
    else Can(s, steps[0]) && Reaches(cal, Next(cal, s, steps[0]), steps[1..], t)
  }

  /** All landings of this run are serial. */
  predicate Serialised(cal: Cal, s: Sys, steps: seq<Step>)
    decreases |steps|
  {
    steps != [] ==> Can(s, steps[0]) && Serial(s, steps[0]) && Serialised(cal, Next(cal, s, steps[0]), steps[1..])
  }

  /** The landing leaves this row, which it did not see, below what it found there. */
  predicate StepUndercuts(s: Sys, step: Step, k: Key)
    requires Can(s, step)
  {
    && step.Land? && Lands(s.reports[step.report].batch)
    && Undercuts(s.ledger, s.reports[step.report].batch, step.blind, k)
  }

  /** No landing of this run undercuts this row, overlapping or not. */
  predicate NoneUndercut(cal: Cal, s: Sys, steps: seq<Step>, k: Key)
    decreases |steps|
  {
    steps != [] ==>
      Can(s, steps[0]) && !StepUndercuts(s, steps[0], k) && NoneUndercut(cal, Next(cal, s, steps[0]), steps[1..], k)
  }

  /** Serial landings see every row. */
  lemma {:induction false} SerialUndercutsNone(cal: Cal, s: Sys, steps: seq<Step>, k: Key)
    requires Serialised(cal, s, steps)
    ensures NoneUndercut(cal, s, steps, k)
    decreases |steps|
  {
    if steps != [] {
      SerialUndercutsNone(cal, Next(cal, s, steps[0]), steps[1..], k);
    }
  }

  // ---- What is true of every reachable state ----

  /** The minutes a socket has really occupied in a period, up to its close or to now. */
  function Due(cal: Cal, s: Sys, k: Key): nat {
    if k.connection !in s.stays then 0 else
    var stay := s.stays[k.connection];
    Owed(cal, MinuteOf(stay.connection.openedAt), MinuteOf(match stay.closedAt case Some(at) => at case None => s.now),
        k.period)
  }

  predicate Registered(s: Sys) {
    && (forall c :: c in s.open ==> c.id in s.stays && s.stays[c.id] == Stay(c, None))
    && (forall id :: id in s.stays ==>
          && s.stays[id].connection.id == id
          && s.stays[id].connection.openedAt <= s.now
          && (s.stays[id].closedAt.None? ==> s.stays[id].connection in s.open)
          && (s.stays[id].closedAt.Some? ==> s.stays[id].closedAt.value <= s.now))
  }

  /** The tenant whose socket this is. */
  function EnvironmentOf(s: Sys, id: string): string
    requires id in s.stays
  {
    s.stays[id].connection.environment
  }

  /** An entry claims some minutes for its socket's tenant, and never more than were occupied. */
  predicate Truthful(cal: Cal, s: Sys, e: Entry) {
    && e.connection in s.stays && e.environment == EnvironmentOf(s, e.connection)
    && 0 < e.minutes <= Due(cal, s, KeyOf(e))
  }

  predicate IsClosed(s: Sys, id: string) {
    id in s.stays && s.stays[id].closedAt.Some?
  }

  /** An entry of a closed socket states its final total. */
  predicate Final(cal: Cal, s: Sys, e: Entry) {
    IsClosed(s, e.connection) && Truthful(cal, s, e) && e.minutes == Due(cal, s, KeyOf(e))
  }

  predicate ReportOk(cal: Cal, s: Sys, r: Report) {
    && (forall e :: e in r.batch ==> Truthful(cal, s, e))
    && (forall e :: e in r.closedNow ==> Final(cal, s, e) && e in r.batch)
    && (r.landed ==> forall e :: e in r.batch ==> e in s.accepted)
  }

  predicate ReportsOk(cal: Cal, s: Sys) {
    forall r :: r in s.reports ==> ReportOk(cal, s, r)
  }

  predicate AcceptedOk(cal: Cal, s: Sys) {
    forall e :: e in s.accepted ==> Truthful(cal, s, e) && KeyOf(e) in s.ledger
  }

  /** No row holds more than was ever accepted for it. */
  ghost predicate LedgerIsAccepted(s: Sys) {
    forall k :: Credited(s.ledger, k) <= Highest(s.accepted, k)
  }

  predicate RetainedAreFinal(cal: Cal, s: Sys) {
    forall e :: e in Values(s.held.kept.entries) ==> Final(cal, s, e)
  }

  /** Only closed sockets are held. */
  predicate LivesOk(s: Sys) {
    forall k :: k in s.held.lives ==> IsClosed(s, k.connection)
  }

  /** Every month a closed socket owes for has been held. */
  ghost predicate Covered(cal: Cal, s: Sys) {
    forall k: Key :: IsClosed(s, k.connection) && Due(cal, s, k) > 0 ==> k in s.held.lives
  }

  ghost predicate Inv(cal: Cal, s: Sys) {
    && Registered(s)
    && ReportsOk(cal, s)
    && AcceptedOk(cal, s)
    && LedgerIsAccepted(s)
    && Ok(s.held)
    && RetainedAreFinal(cal, s)
    && LivesOk(s)
    && Covered(cal, s)
  }

  // ---- What is true besides of a row that no landing undercuts ----

  /** The row holds the highest total accepted for it. */
  predicate RowIsHighest(s: Sys, k: Key) {
    Credited(s.ledger, k) == Highest(s.accepted, k)
  }

  predicate IsSettled(h: History, k: Key) {
    k in h.lives && h.lives[k].fate.Settled?
  }

  /** And once it is settled, all that is due. */
  predicate Exact(cal: Cal, s: Sys, k: Key) {
    RowIsHighest(s, k) && (IsSettled(s.held, k) ==> Credited(s.ledger, k) == Due(cal, s, k))
  }

  // ---- The entries of one socket ----

  lemma EntriesForAreOwed(cal: Cal, c: Connection, at: int)
    requires cal.Good()
    ensures forall e :: e in EntriesFor(cal, c, at) ==>
              && e.connection == c.id && e.environment == c.environment
              && 0 < e.minutes == Owed(cal, MinuteOf(c.openedAt), MinuteOf(at), e.period)
    ensures forall i, j :: 0 <= i < j < |EntriesFor(cal, c, at)| ==>
            KeyOf(EntriesFor(cal, c, at)[i]) != KeyOf(EntriesFor(cal, c, at)[j])
  {
    var totals := Buckets(cal, MinuteOf(c.openedAt), MinuteOf(at));
    BucketsClosedForm(cal, MinuteOf(c.openedAt), MinuteOf(at));
    forall i | 0 <= i < |totals|
      ensures Lookup(totals, totals[i].0) == Some(totals[i].1)
      ensures 0 < totals[i].1 == Owed(cal, MinuteOf(c.openedAt), MinuteOf(at), totals[i].0)
    {
      FoundAt(totals, i);
      BucketsHoldOwed(cal, MinuteOf(c.openedAt), MinuteOf(at), totals[i].0);
    }
  }

  lemma OwedHasEntry(cal: Cal, c: Connection, at: int, period: string)
    requires cal.Good() && Owed(cal, MinuteOf(c.openedAt), MinuteOf(at), period) > 0
    ensures Names(EntriesFor(cal, c, at), Key(c.id, period))
  {
    var totals := Buckets(cal, MinuteOf(c.openedAt), MinuteOf(at));
    BucketsHoldOwed(cal, MinuteOf(c.openedAt), MinuteOf(at), period);
    var i := IndexOf(totals, period);
    NamesIsMember(EntriesFor(cal, c, at), Key(c.id, period));
    assert KeyOf(EntriesFor(cal, c, at)[i]) == Key(c.id, period);
  }

  lemma {:induction false} InEntriesForAll(cal: Cal, open: seq<Connection>, at: int, e: Entry)
    ensures e in EntriesForAll(cal, open, at) <==> exists i :: 0 <= i < |open| && e in EntriesFor(cal, open[i], at)
  {
    if open != [] {
      InEntriesForAll(cal, open[1..], at, e);
      assert forall i :: 0 <= i < |open[1..]| ==> open[1..][i] == open[i + 1];
      if i :| 0 <= i < |open| && e in EntriesFor(cal, open[i], at) {
        assert i > 0 ==> e in EntriesFor(cal, open[1..][i - 1], at);
      }
    }
  }

  // ---- The clock and the registry ----

  /** Nothing a socket owes ever shrinks, and a closed one's total is fixed. */
  ghost predicate Grew(cal: Cal, s: Sys, t: Sys) {
    && (forall id :: id in s.stays ==>
          id in t.stays && EnvironmentOf(t, id) == EnvironmentOf(s, id) && (IsClosed(s, id) ==> IsClosed(t, id)))
    && (forall k: Key :: k.connection in s.stays ==> Due(cal, s, k) <= Due(cal, t, k))
    && (forall k: Key :: IsClosed(s, k.connection) ==> Due(cal, s, k) == Due(cal, t, k))
  }

  lemma TickGrows(cal: Cal, s: Sys, ms: nat)
    ensures Grew(cal, s, Ticked(s, ms))
  {
    var t := Ticked(s, ms);
    forall k: Key | k.connection in s.stays ensures Due(cal, s, k) <= Due(cal, t, k) {
      OwedGrows(cal, MinuteOf(s.stays[k.connection].connection.openedAt), MinuteOf(s.now), MinuteOf(t.now), k.period);
    }
  }

  lemma OpenGrows(cal: Cal, s: Sys, id: string, environment: string)
    requires id !in s.stays
    ensures Grew(cal, s, Opened(s, id, environment))
  {
  }

  lemma CloseGrows(cal: Cal, s: Sys, id: string)
    requires IsOpen(s, id)
    ensures Grew(cal, s, Closed(cal, s, id))
    ensures forall k: Key :: Due(cal, Closed(cal, s, id), k) == Due(cal, s, k)
  {
  }

  lemma CloseIsRegistered(cal: Cal, s: Sys, id: string)
    requires Registered(s) && IsOpen(s, id)
    ensures Registered(Closed(cal, s, id))
  {
  }

  /** What was said of entries stays true as sockets stay longer. */
  lemma EntriesKeep(cal: Cal, s: Sys, t: Sys)
    requires Grew(cal, s, t)
    ensures forall e :: Truthful(cal, s, e) ==> Truthful(cal, t, e)
    ensures forall e :: Final(cal, s, e) ==> Final(cal, t, e)
  {
  }

  /** Reports and ledger do not care how the world moved on. */
  lemma ApiSideKeeps(cal: Cal, s: Sys, t: Sys)
    requires Grew(cal, s, t) && t.reports == s.reports && t.accepted == s.accepted && t.ledger == s.ledger
    requires ReportsOk(cal, s) && AcceptedOk(cal, s)
    ensures ReportsOk(cal, t) && AcceptedOk(cal, t)
  {
    EntriesKeep(cal, s, t);
    forall r | r in t.reports ensures ReportOk(cal, t, r) {
      assert ReportOk(cal, s, r);
    }
  }

  lemma HeldKeeps(cal: Cal, s: Sys, t: Sys)
    requires Grew(cal, s, t) && t.held == s.held
    requires forall id :: IsClosed(t, id) ==> IsClosed(s, id)
    requires RetainedAreFinal(cal, s) && LivesOk(s) && Covered(cal, s)
    ensures RetainedAreFinal(cal, t) && LivesOk(t) && Covered(cal, t)
  {
    EntriesKeep(cal, s, t);
  }

  // ---- A socket closes ----

  lemma ClosingIsNew(cal: Cal, s: Sys, id: string)
    requires cal.Good() && Registered(s) && LivesOk(s) && IsOpen(s, id)
    ensures AllNew(s.held, EntriesFor(cal, s.stays[id].connection, s.now))
  {
    var es := EntriesFor(cal, s.stays[id].connection, s.now);
    EntriesForAreOwed(cal, s.stays[id].connection, s.now);
    forall i | 0 <= i < |es| ensures KeyOf(es[i]) !in s.held.lives {
      assert es[i] in es && !IsClosed(s, id);
    }
  }

  lemma ClosingIsFinal(cal: Cal, s: Sys, id: string)
    requires cal.Good() && Registered(s) && IsOpen(s, id)
    ensures forall e :: e in EntriesFor(cal, s.stays[id].connection, s.now) ==> Final(cal, Closed(cal, s, id), e)
  {
    EntriesForAreOwed(cal, s.stays[id].connection, s.now);
  }

  lemma CloseRetainsFinal(cal: Cal, s: Sys, id: string)
    requires cal.Good() && Registered(s) && Ok(s.held) && LivesOk(s) && RetainedAreFinal(cal, s) && IsOpen(s, id)
    ensures RetainedAreFinal(cal, Closed(cal, s, id))
  {
    var t, es := Closed(cal, s, id), EntriesFor(cal, s.stays[id].connection, s.now);
    ClosingIsNew(cal, s, id);
    ClosingIsFinal(cal, s, id);
    CloseGrows(cal, s, id);
    EntriesKeep(cal, s, t);
    forall e | e in Values(t.held.kept.entries) ensures Final(cal, t, e) {
      HoldAllNewValues(s.held, es, e);
    }
  }

  lemma CloseLivesOk(cal: Cal, s: Sys, id: string, k: Key)
    requires cal.Good() && Registered(s) && Ok(s.held) && LivesOk(s) && IsOpen(s, id)
    requires k in Closed(cal, s, id).held.lives
    ensures IsClosed(Closed(cal, s, id), k.connection)
    ensures k !in s.held.lives ==> !Closed(cal, s, id).held.lives[k].fate.Settled?
    ensures k in s.held.lives && Closed(cal, s, id).held.lives[k].fate.Settled? ==> s.held.lives[k].fate.Settled?
  {
    var es := EntriesFor(cal, s.stays[id].connection, s.now);
    ClosingIsNew(cal, s, id);
    CloseGrows(cal, s, id);
    HoldAllNewTakes(s.held, es);
    HoldAllNewAdds(s.held, es, k);
    NamesIsMember(es, k);
    if k !in s.held.lives {
      var i :| 0 <= i < |es| && KeyOf(es[i]) == k;
      EntriesForAreOwed(cal, s.stays[id].connection, s.now);
      assert es[i] in es;
    }
  }

  lemma CloseCovers(cal: Cal, s: Sys, id: string, k: Key)
    requires cal.Good() && Registered(s) && Ok(s.held) && LivesOk(s) && Covered(cal, s) && IsOpen(s, id)
    requires IsClosed(Closed(cal, s, id), k.connection) && Due(cal, Closed(cal, s, id), k) > 0
    ensures k in Closed(cal, s, id).held.lives
  {
    var es := EntriesFor(cal, s.stays[id].connection, s.now);
    ClosingIsNew(cal, s, id);
    HoldAllNewAdds(s.held, es, k);
    if k.connection == id {
      OwedHasEntry(cal, s.stays[id].connection, s.now, k.period);
    } else {
      assert IsClosed(s, k.connection) && Due(cal, s, k) > 0;
    }
  }

  lemma CloseIsInv(cal: Cal, s: Sys, id: string)
    requires cal.Good() && Inv(cal, s) && IsOpen(s, id)
    ensures Inv(cal, Closed(cal, s, id))
  {
    var t := Closed(cal, s, id);
    CloseGrows(cal, s, id);
    CloseIsRegistered(cal, s, id);
    ApiSideKeeps(cal, s, t);
    ClosingIsNew(cal, s, id);
    HoldAllNewIsOk(s.held, EntriesFor(cal, s.stays[id].connection, s.now));
    CloseRetainsFinal(cal, s, id);
    forall k | k in t.held.lives ensures IsClosed(t, k.connection) {
      CloseLivesOk(cal, s, id, k);
    }
    forall k: Key | IsClosed(t, k.connection) && Due(cal, t, k) > 0 ensures k in t.held.lives {
      CloseCovers(cal, s, id, k);
    }
  }

  // ---- A report goes out, lands, and is answered ----

  lemma BatchIsTruthful(cal: Cal, s: Sys, e: Entry)
    requires cal.Good() && Registered(s) && RetainedAreFinal(cal, s) && e in BatchNow(cal, s)
    ensures Truthful(cal, s, e)
  {
    if e !in Values(s.held.kept.entries) {
      InEntriesForAll(cal, s.open, s.now, e);
      var i :| 0 <= i < |s.open| && e in EntriesFor(cal, s.open[i], s.now);
      assert s.open[i] in s.open;
      EntriesForAreOwed(cal, s.open[i], s.now);
    } else {
      assert Final(cal, s, e);
    }
  }

  lemma SendKeepsReports(cal: Cal, s: Sys)
    requires cal.Good() && Registered(s) && ReportsOk(cal, s) && RetainedAreFinal(cal, s)
    ensures ReportsOk(cal, Sent(cal, s))
  {
    var t := Sent(cal, s);
    SameWorld(cal, s, t);
    EntriesKeep(cal, s, t);
    forall e | e in BatchNow(cal, s) ensures Truthful(cal, t, e) {
      BatchIsTruthful(cal, s, e);
    }
    forall r | r in t.reports ensures ReportOk(cal, t, r) {
      if r in s.reports {
        assert ReportOk(cal, s, r);
      }
    }
  }

  lemma SendIsInv(cal: Cal, s: Sys)
    requires cal.Good() && Inv(cal, s)
    ensures Inv(cal, Sent(cal, s))
  {
    var t := Sent(cal, s);
    SameWorld(cal, s, t);
    EntriesKeep(cal, s, t);
    SendKeepsReports(cal, s);
    HeldKeeps(cal, s, t);
  }

  /** Steps that move no clock and no socket change nothing that is owed. */
  lemma SameWorld(cal: Cal, s: Sys, t: Sys)
    requires t.now == s.now && t.stays == s.stays
    ensures Grew(cal, s, t)
    ensures forall k: Key :: Due(cal, s, k) == Due(cal, t, k)
  {
  }

  /** No accepted total exceeds what was occupied. */
  lemma AcceptedCapped(cal: Cal, s: Sys, k: Key)
    requires AcceptedOk(cal, s)
    ensures Highest(s.accepted, k) <= Due(cal, s, k)
  {
    HighestIsSome(s.accepted, k);
    if Highest(s.accepted, k) > 0 {
      var e :| e in s.accepted && KeyOf(e) == k && e.minutes == Highest(s.accepted, k);
      assert Truthful(cal, s, e);
    }
  }

  lemma LandKeepsReports(cal: Cal, s: Sys, i: nat, blind: set<Key>)
    requires ReportsOk(cal, s) && i < |s.reports|
    ensures ReportsOk(cal, Landed(s, i, blind))
  {
    var t := Landed(s, i, blind);
    SameWorld(cal, s, t);
    EntriesKeep(cal, s, t);
    forall r | r in t.reports ensures ReportOk(cal, t, r) {
      if r in s.reports {
        assert ReportOk(cal, s, r);
      } else {
        assert s.reports[i] in s.reports && ReportOk(cal, s, s.reports[i]);
      }
    }
  }

  lemma LandKeepsAccepted(cal: Cal, s: Sys, i: nat, blind: set<Key>)
    requires ReportsOk(cal, s) && AcceptedOk(cal, s) && i < |s.reports|
    ensures AcceptedOk(cal, Landed(s, i, blind))
  {
    var t, batch := Landed(s, i, blind), s.reports[i].batch;
    SameWorld(cal, s, t);
    EntriesKeep(cal, s, t);
    assert s.reports[i] in s.reports && ReportOk(cal, s, s.reports[i]);
    forall e | e in t.accepted ensures Truthful(cal, t, e) && KeyOf(e) in t.ledger {
      assert e in s.accepted || e in batch;
      assert Truthful(cal, s, e);
      CreditedAfter(s.ledger, batch, blind, KeyOf(e));
      NamesIsMember(batch, KeyOf(e));
      if e in batch {
        var j :| 0 <= j < |batch| && batch[j] == e;
        assert KeyOf(batch[j]) == KeyOf(e);
      }
    }
  }

  /** However it was interleaved, a landing leaves no row above what was accepted for it. */
  lemma LandKeepsLedger(s: Sys, i: nat, blind: set<Key>)
    requires LedgerIsAccepted(s) && i < |s.reports|
    ensures LedgerIsAccepted(Landed(s, i, blind))
  {
    forall k ensures Credited(Landed(s, i, blind).ledger, k) <= Highest(Landed(s, i, blind).accepted, k) {
      CreditedAfter(s.ledger, s.reports[i].batch, blind, k);
      HighestOfBoth(s.accepted, s.reports[i].batch, k);
    }
  }

  lemma LandIsInv(cal: Cal, s: Sys, i: nat, blind: set<Key>)
    requires cal.Good() && Inv(cal, s) && i < |s.reports|
    ensures Inv(cal, Landed(s, i, blind))
  {
    var t := Landed(s, i, blind);
    SameWorld(cal, s, t);
    LandKeepsReports(cal, s, i, blind);
    LandKeepsAccepted(cal, s, i, blind);
    LandKeepsLedger(s, i, blind);
    HeldKeeps(cal, s, t);
  }

  lemma HeardRetainsFinal(cal: Cal, s: Sys, i: nat)
    requires Ok(s.held) && RetainedAreFinal(cal, s) && Can(s, Heard(i))
    ensures RetainedAreFinal(cal, Next(cal, s, Heard(i)))
  {
    var t, carried := Next(cal, s, Heard(i)), s.reports[i].closedNow;
    SameWorld(cal, s, t);
    EntriesKeep(cal, s, t);
    forall e | e in Values(t.held.kept.entries) ensures Final(cal, t, e) {
      SettleAllValues(s.held, carried, e);
    }
  }

  lemma HeardKeepsLives(cal: Cal, s: Sys, i: nat)
    requires Ok(s.held) && LivesOk(s) && Covered(cal, s) && Can(s, Heard(i))
    ensures LivesOk(Next(cal, s, Heard(i))) && Covered(cal, Next(cal, s, Heard(i)))
  {
    var t := Next(cal, s, Heard(i));
    SameWorld(cal, s, t);
    forall k ensures k in t.held.lives <==> k in s.held.lives {
      SettleAllFate(s.held, s.reports[i].closedNow, k);
    }
  }

  lemma HeardIsInv(cal: Cal, s: Sys, i: nat)
    requires cal.Good() && Inv(cal, s) && Can(s, Heard(i))
    ensures Inv(cal, Next(cal, s, Heard(i)))
  {
    var t := Next(cal, s, Heard(i));
    SameWorld(cal, s, t);
    ApiSideKeeps(cal, s, t);
    SettleAllIsOk(s.held, s.reports[i].closedNow);
    HeardRetainsFinal(cal, s, i);
    HeardKeepsLives(cal, s, i);
  }

  lemma NullIsInv(cal: Cal, s: Sys)
    requires cal.Good() && Inv(cal, s)
    ensures Inv(cal, Next(cal, s, HeardNull))
  {
    var t := Next(cal, s, HeardNull);
    SameWorld(cal, s, t);
    EntriesKeep(cal, s, t);
    ApiSideKeeps(cal, s, t);
    WipeIsOk(s.held);
  }

  lemma OpenIsInv(cal: Cal, s: Sys, id: string, environment: string)
    requires Inv(cal, s) && id !in s.stays
    ensures Inv(cal, Opened(s, id, environment))
  {
    var t := Opened(s, id, environment);
    OpenGrows(cal, s, id, environment);
    ApiSideKeeps(cal, s, t);
    HeldKeeps(cal, s, t);
  }

  lemma TickIsInv(cal: Cal, s: Sys, ms: nat)
    requires Inv(cal, s)
    ensures Inv(cal, Ticked(s, ms))
  {
    var t := Ticked(s, ms);
    TickGrows(cal, s, ms);
    ApiSideKeeps(cal, s, t);
    HeldKeeps(cal, s, t);
  }

  lemma StepIsInv(cal: Cal, s: Sys, step: Step)
    requires cal.Good() && Inv(cal, s) && Can(s, step)
    ensures Inv(cal, Next(cal, s, step))
  {
    if step.Open? || step.Close? {
      SocketStepIsInv(cal, s, step);
    } else if step.Tick? {
      TickIsInv(cal, s, step.ms);
    } else {
      ReportStepIsInv(cal, s, step);
    }
  }

  lemma SocketStepIsInv(cal: Cal, s: Sys, step: Step)
    requires cal.Good() && Inv(cal, s) && Can(s, step)
    requires step.Open? || step.Close?
    ensures Inv(cal, Next(cal, s, step))
  {
    if step.Open? {
      OpenIsInv(cal, s, step.id, step.environment);
    } else {
      CloseIsInv(cal, s, step.id);
    }
  }

  lemma ReportStepIsInv(cal: Cal, s: Sys, step: Step)
    requires cal.Good() && Inv(cal, s) && Can(s, step)
    requires step.Send? || step.Land? || step.Heard? || step.HeardNull?
    ensures Inv(cal, Next(cal, s, step))
  {
    if step.Send? {
      SendIsInv(cal, s);
    } else if step.Land? {
      LandIsInv(cal, s, step.report, step.blind);
    } else if step.Heard? {
      HeardIsInv(cal, s, step.report);
    } else {
      NullIsInv(cal, s);
    }
  }

  lemma InitIsInv(cal: Cal, now: int)
    ensures Inv(cal, Init(now)) && forall k :: Exact(cal, Init(now), k)
  {
    var s := Init(now);
    assert Stamps(s.held) == [];
    assert WithFate(s.held, Evicted) == {};
  }

  lemma {:induction false} RunIsInv(cal: Cal, s: Sys, steps: seq<Step>, t: Sys)
    requires cal.Good() && Inv(cal, s) && Reaches(cal, s, steps, t)
    ensures Inv(cal, t)
    decreases |steps|
  {
    if steps != [] {
      StepIsInv(cal, s, steps[0]);
      RunIsInv(cal, Next(cal, s, steps[0]), steps[1..], t);
    }
  }

  // ---- A row that no landing undercuts is exact ----

  /** A landing keeps a row at the maximum of what was accepted for it if and only if it does
      not overwrite it unseen with less. A serial one never does. */
  lemma LandingIsExact(s: Sys, i: nat, blind: set<Key>, k: Key)
    requires RowIsHighest(s, k) && i < |s.reports| && Lands(s.reports[i].batch)
    ensures RowIsHighest(Landed(s, i, blind), k) <==> !Undercuts(s.ledger, s.reports[i].batch, blind, k)
    ensures blind !! s.ledger.Keys ==> RowIsHighest(Landed(s, i, blind), k)
  {
    CreditedAfter(s.ledger, s.reports[i].batch, blind, k);
    HighestOfBoth(s.accepted, s.reports[i].batch, k);
  }

  lemma LandIsExact(cal: Cal, s: Sys, i: nat, blind: set<Key>, k: Key)
    requires cal.Good() && Inv(cal, s) && Exact(cal, s, k) && Can(s, Land(i, blind))
    requires !StepUndercuts(s, Land(i, blind), k)
    ensures Exact(cal, Landed(s, i, blind), k)
  {
    var t := Landed(s, i, blind);
    SameWorld(cal, s, t);
    LandIsInv(cal, s, i, blind);
    if Lands(s.reports[i].batch) {
      LandingIsExact(s, i, blind, k);
      AcceptedCapped(cal, t, k);
      HighestOfBoth(s.accepted, s.reports[i].batch, k);
    }
  }

  /** A settled entry was in a report the api had taken, at its final total. */
  lemma SettledIsCredited(cal: Cal, s: Sys, i: nat, k: Key)
    requires ReportsOk(cal, s) && AcceptedOk(cal, s) && RowIsHighest(s, k)
    requires i < |s.reports| && s.reports[i].landed && Names(s.reports[i].closedNow, k)
    ensures Credited(s.ledger, k) == Due(cal, s, k)
  {
    var carried := s.reports[i].closedNow;
    assert s.reports[i] in s.reports && ReportOk(cal, s, s.reports[i]);
    NamesIsMember(carried, k);
    var j :| 0 <= j < |carried| && KeyOf(carried[j]) == k;
    assert carried[j] in carried;
    HighestCovers(s.accepted, carried[j]);
    AcceptedCapped(cal, s, k);
  }

  lemma HeardIsExact(cal: Cal, s: Sys, i: nat, k: Key)
    requires Inv(cal, s) && Exact(cal, s, k) && Can(s, Heard(i))
    ensures Exact(cal, Next(cal, s, Heard(i)), k)
  {
    var carried := s.reports[i].closedNow;
    SameWorld(cal, s, Next(cal, s, Heard(i)));
    SettleAllFate(s.held, carried, k);
    if Names(carried, k) {
      SettledIsCredited(cal, s, i, k);
    }
  }

  lemma CloseIsExact(cal: Cal, s: Sys, id: string, k: Key)
    requires cal.Good() && Inv(cal, s) && Exact(cal, s, k) && IsOpen(s, id)
    ensures Exact(cal, Closed(cal, s, id), k)
  {
    CloseGrows(cal, s, id);
    if k in Closed(cal, s, id).held.lives {
      CloseLivesOk(cal, s, id, k);
    }
  }

  /** Steps that leave ledger and retained entries alone keep what is settled. */
  lemma OthersAreExact(cal: Cal, s: Sys, t: Sys, k: Key)
    requires Exact(cal, s, k) && LivesOk(s) && Grew(cal, s, t)
    requires t.held == s.held && t.ledger == s.ledger && t.accepted == s.accepted
    ensures Exact(cal, t, k)
  {
  }

  lemma QuietStepIsExact(cal: Cal, s: Sys, step: Step, k: Key)
    requires Exact(cal, s, k) && LivesOk(s) && Can(s, step) && (step.Open? || step.Tick? || step.Send?)
    ensures Exact(cal, Next(cal, s, step), k)
  {
    var t := Next(cal, s, step);
    if step.Open? {
      OpenGrows(cal, s, step.id, step.environment);
    } else if step.Tick? {
      TickGrows(cal, s, step.ms);
    } else {
      SameWorld(cal, s, t);
    }
    OthersAreExact(cal, s, t, k);
  }

  lemma NullIsExact(cal: Cal, s: Sys, k: Key)
    requires Exact(cal, s, k)
    ensures Exact(cal, Next(cal, s, HeardNull), k)
  {
    SameWorld(cal, s, Next(cal, s, HeardNull));
  }

  lemma StepIsExact(cal: Cal, s: Sys, step: Step, k: Key)
    requires cal.Good() && Inv(cal, s) && Exact(cal, s, k) && Can(s, step) && !StepUndercuts(s, step, k)
    ensures Exact(cal, Next(cal, s, step), k)
  {
    if step.Close? {
      CloseIsExact(cal, s, step.id, k);
    } else if step.Land? {
      LandIsExact(cal, s, step.report, step.blind, k);
    } else if step.Heard? {
      HeardIsExact(cal, s, step.report, k);
    } else if step.HeardNull? {
      NullIsExact(cal, s, k);
    } else {
      QuietStepIsExact(cal, s, step, k);
    }
  }

  lemma {:induction false} RunIsExact(cal: Cal, s: Sys, steps: seq<Step>, t: Sys, k: Key)
    requires cal.Good() && Inv(cal, s) && Exact(cal, s, k) && Reaches(cal, s, steps, t)
    requires NoneUndercut(cal, s, steps, k)
    ensures Inv(cal, t) && Exact(cal, t, k)
    decreases |steps|
  {
    if steps != [] {
      StepIsInv(cal, s, steps[0]);
      StepIsExact(cal, s, steps[0], k);
      RunIsExact(cal, Next(cal, s, steps[0]), steps[1..], t, k);
    }
  }
}
