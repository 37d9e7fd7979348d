/** What the meter retains for closed sockets, what it puts in a report, and what the api
    credits for it. */
module Metering {
  import opened Common
  import opened OrderedMap
  import opened MinuteBuckets

  const MAX_RETAINED_CLOSED: nat := 4_000
  const MAX_REPORT_ENTRIES: nat := 5_000

  datatype Connection = Connection(id: string, environment: string, openedAt: int)

  /** `connection_id|period`; `Subjects.RetentionKeyInjective` is about the string form. */
  datatype Key = Key(connection: string, period: string)

  datatype Entry = Entry(connection: string, environment: string, period: string, minutes: nat)

  function KeyOf(e: Entry): Key {
    Key(e.connection, e.period)
  }

  function EntriesFor(cal: Cal, c: Connection, at: int): seq<Entry> {
    var totals := Buckets(cal, MinuteOf(c.openedAt), MinuteOf(at));
    seq(|totals|, i requires 0 <= i < |totals| => Entry(c.id, c.environment, totals[i].0, totals[i].1))
  }

  /** `registry.all().flatMap(c => entriesFor(c, at))` */
  function EntriesForAll(cal: Cal, open: seq<Connection>, at: int): seq<Entry> {
    if open == [] then [] else EntriesFor(cal, open[0], at) + EntriesForAll(cal, open[1..], at)
  }

  datatype Retention = Retention(entries: seq<(Key, Entry)>, discarded: nat)

  /** Make room for one entry: at the cap a new key costs the oldest. */
  function MakeRoom(r: Retention, k: Key): Retention {
    if |r.entries| >= MAX_RETAINED_CLOSED && !Has(r.entries, k)
    then Retention(r.entries[1..], r.discarded + 1)
    else r
  }

  function Hold(r: Retention, e: Entry): Retention {
    var room := MakeRoom(r, KeyOf(e));
    room.(entries := Put(room.entries, KeyOf(e), e))
  }

  function HoldAll(r: Retention, es: seq<Entry>): Retention
    decreases |es|
  {
    if es == [] then r else HoldAll(Hold(r, es[0]), es[1..])
  }

  function Forget(entries: seq<(Key, Entry)>, es: seq<Entry>): seq<(Key, Entry)>
    decreases |es|
  {
    if es == [] then entries else Forget(Remove(entries, KeyOf(es[0])), es[1..])
  }

  function Values(entries: seq<(Key, Entry)>): seq<Entry> {
    seq(|entries|, i requires 0 <= i < |entries| => entries[i].1)
  }

  datatype Answer = Accepted(credited: nat) | NoCredential | Failed

  class Meter {
    const cal: Cal
    var closedEntries: seq<(Key, Entry)>
    var discarded: nat

    ghost function Retained(): Retention reads this { Retention(closedEntries, discarded) }

    constructor (cal: Cal)
      ensures this.cal == cal && Retained() == Retention([], 0)
    {
      this.cal, closedEntries, discarded := cal, [], 0;
    }

    method HoldEntry(e: Entry)
      modifies this
      ensures Retained() == Hold(old(Retained()), e)
    {
      if |closedEntries| >= MAX_RETAINED_CLOSED && !Has(closedEntries, KeyOf(e)) {
        closedEntries := closedEntries[1..];
        discarded := discarded + 1;
      }
      closedEntries := Put(closedEntries, KeyOf(e), e);
    }

    method Closed(c: Connection, at: int)
      modifies this
      ensures Retained() == HoldAll(old(Retained()), EntriesFor(cal, c, at))
    {
      var totals := BucketsFor(cal, c.openedAt, at);
      ghost var all := EntriesFor(cal, c, at);
      for i := 0 to |totals|
        invariant HoldAll(old(Retained()), all) == HoldAll(Retained(), all[i..])
      {
        assert all[i..][1..] == all[i + 1..];
        HoldEntry(Entry(c.id, c.environment, totals[i].0, totals[i].1));
      }
    }

    /** The first half of `reportOnce`, up to the await. An empty batch is not sent. */
    method BeginReport(open: seq<Connection>, at: int) returns (batch: seq<Entry>, closedNow: seq<Entry>)
      ensures closedNow == Values(closedEntries)
      ensures batch == closedNow + EntriesForAll(cal, open, at)
    {
      closedNow := Values(closedEntries);
      batch := closedNow;
      for i := 0 to |open|
        invariant batch + EntriesForAll(cal, open[i..], at) == closedNow + EntriesForAll(cal, open, at)
      {
        var totals := BucketsFor(cal, open[i].openedAt, at);
        var entries := seq(|totals|,
            j requires 0 <= j < |totals| => Entry(open[i].id, open[i].environment, totals[j].0, totals[j].1));
        assert entries == EntriesFor(cal, open[i], at);
        assert open[i..][1..] == open[i + 1..];
        batch := batch + entries;
      }
    }

    /** The second half, after it: whatever `closed` and other reports did meanwhile. */
    method EndReport(closedNow: seq<Entry>, answer: Answer)
      modifies this
      ensures Retained() == match answer
        case Accepted(_) => old(Retained()).(entries := Forget(old(closedEntries), closedNow))
        case NoCredential => old(Retained()).(entries := [])
        case Failed => old(Retained())
    {
      match answer
      case Accepted(_) =>
        for i := 0 to |closedNow|
          invariant discarded == old(discarded)
          invariant Forget(old(closedEntries), closedNow) == Forget(closedEntries, closedNow[i..])
        {
          closedEntries := Remove(closedEntries, KeyOf(closedNow[i]));
        }
      case NoCredential => closedEntries := [];
      case Failed =>
    }
  }

  // ---- The api's side of the contract ----

  function Credited(ledger: map<Key, nat>, k: Key): nat {
    if k in ledger then ledger[k] else 0
  }

  /** One entry states a total: `max(0, reported - credited)` is what it is worth. A row that
      was not there to be read counts for 0, and `blind` are the keys whose rows were not
      there when this landing read them; whatever another landing has written since then is
      overwritten. */
  function CreditOne(ledger: map<Key, nat>, e: Entry, blind: set<Key>): (map<Key, nat>, nat) {
    var already := if KeyOf(e) in blind then 0 else Credited(ledger, KeyOf(e));
    (ledger[KeyOf(e) := Max(e.minutes, already)], Max(0, e.minutes - already))
  }

  /** A landing reads a key again after it has written it. */
  function CreditAll(ledger: map<Key, nat>, batch: seq<Entry>, blind: set<Key>): (map<Key, nat>, nat)
    decreases |batch|
  {
    if batch == [] then (ledger, 0) else
    var (next, one) := CreditOne(ledger, batch[0], blind);
    var (final, rest) := CreditAll(next, batch[1..], blind - {KeyOf(batch[0])});
    (final, one + rest)
  }

  /** One delta the api has applied: it is added to the figure its tenant is charged by. */
  datatype Credit = Credit(entry: Entry, minutes: nat)

  /** The deltas of one landing, in order. */
  function CreditsOf(ledger: map<Key, nat>, batch: seq<Entry>, blind: set<Key>): seq<Credit>
    decreases |batch|
  {
    if batch == [] then [] else
    var (next, one) := CreditOne(ledger, batch[0], blind);
    [Credit(batch[0], one)] + CreditsOf(next, batch[1..], blind - {KeyOf(batch[0])})
  }

  function SumOfCredits(credits: seq<Credit>): nat {
    if credits == [] then 0 else credits[0].minutes + SumOfCredits(credits[1..])
  }

  /** What has been charged for one connection in one month. */
  function ChargedTo(credits: seq<Credit>, k: Key): nat {
    if credits == [] then 0
    else (if KeyOf(credits[0].entry) == k then credits[0].minutes else 0) + ChargedTo(credits[1..], k)
  }

  /** A tenant's figure for one month, the roll-up its usage is read from. */
  function Figure(credits: seq<Credit>, environment: string, period: string): nat {
    if credits == [] then 0 else
    var e := credits[0].entry;
    (if e.environment == environment && e.period == period then credits[0].minutes else 0)
    + Figure(credits[1..], environment, period)
  }

  /** The request schema's size limits. */
  predicate Lands(batch: seq<Entry>) {
    1 <= |batch| <= MAX_REPORT_ENTRIES
  }

  /** The highest total reported for a key, 0 when none was. */
  function Highest(es: seq<Entry>, k: Key): nat {
    if es == [] then 0
    else Max(Highest(es[..|es| - 1], k), if KeyOf(es[|es| - 1]) == k then es[|es| - 1].minutes else 0)
  }

  lemma {:induction false} HighestCovers(es: seq<Entry>, e: Entry)
    requires e in es
    ensures e.minutes <= Highest(es, KeyOf(e))
  {
    if es[|es| - 1] != e {
      HighestCovers(es[..|es| - 1], e);
    }
  }

  lemma {:induction false} HighestIsSome(es: seq<Entry>, k: Key)
    ensures Highest(es, k) > 0 ==> exists e :: e in es && KeyOf(e) == k && e.minutes == Highest(es, k)
  {
    if es != [] {
      HighestIsSome(es[..|es| - 1], k);
      assert es[|es| - 1] in es;
    }
  }

  predicate Names(es: seq<Entry>, k: Key) {
    es != [] && (KeyOf(es[0]) == k || Names(es[1..], k))
  }

  lemma {:induction false} NamesIsMember(es: seq<Entry>, k: Key)
    ensures Names(es, k) <==> exists i :: 0 <= i < |es| && KeyOf(es[i]) == k
  {
    if es != [] {
      NamesIsMember(es[1..], k);
      assert forall i :: 0 <= i < |es[1..]| ==> es[1..][i] == es[i + 1];
      if i :| 0 <= i < |es| && KeyOf(es[i]) == k {
        assert i > 0 ==> KeyOf(es[1..][i - 1]) == k;
      }
    }
  }

  lemma {:induction false} HighestOfBoth(a: seq<Entry>, b: seq<Entry>, k: Key)
    ensures Highest(a + b, k) == Max(Highest(a, k), Highest(b, k))
    decreases |b|
  {
    if b == [] {
      assert a + b == a;
    } else {
      HighestOfBoth(a, b[..|b| - 1], k);
      assert (a + b)[..|a + b| - 1] == a + b[..|b| - 1];
    }
  }

  lemma HighestOfHead(batch: seq<Entry>, k: Key)
    requires batch != []
    ensures Highest(batch, k) == Max(if KeyOf(batch[0]) == k then batch[0].minutes else 0, Highest(batch[1..], k))
  {
    assert batch == [batch[0]] + batch[1..];
    HighestOfBoth([batch[0]], batch[1..], k);
    assert [batch[0]][..0] == [];
  }

  /** What a landing leaves on a row: the highest of what was there and what it states, or of
      what it states alone if it did not see the row. */
  lemma {:induction false} CreditedAfter(ledger: map<Key, nat>, batch: seq<Entry>, blind: set<Key>, k: Key)
    ensures Credited(CreditAll(ledger, batch, blind).0, k) ==
            Max(if k in blind && Names(batch, k) then 0 else Credited(ledger, k), Highest(batch, k))
    ensures k in CreditAll(ledger, batch, blind).0 <==> k in ledger || Names(batch, k)
    decreases |batch|
  {
    if batch != [] {
      HighestOfHead(batch, k);
      CreditedAfter(CreditOne(ledger, batch[0], blind).0, batch[1..], blind - {KeyOf(batch[0])}, k);
    }
  }

  lemma {:induction false} ChargesAddUp(a: seq<Credit>, b: seq<Credit>, k: Key)
    ensures ChargedTo(a + b, k) == ChargedTo(a, k) + ChargedTo(b, k)
    decreases |a|
  {
    if a == [] {
      assert a + b == b;
    } else {
      ChargesAddUp(a[1..], b, k);
      assert (a + b)[1..] == a[1..] + b;
    }
  }

  /** The answer to a report is the sum of the deltas applied. */
  lemma {:induction false} AnswerIsTheSum(ledger: map<Key, nat>, batch: seq<Entry>, blind: set<Key>)
    ensures CreditAll(ledger, batch, blind).1 == SumOfCredits(CreditsOf(ledger, batch, blind))
    decreases |batch|
  {
    if batch != [] {
      var next := CreditOne(ledger, batch[0], blind).0;
      AnswerIsTheSum(next, batch[1..], blind - {KeyOf(batch[0])});
      assert CreditsOf(ledger, batch, blind)[1..] == CreditsOf(next, batch[1..], blind - {KeyOf(batch[0])});
    }
  }

  /** The minutes of a row that a landing overwrites without having seen it. */
  function OverwrittenBy(ledger: map<Key, nat>, batch: seq<Entry>, blind: set<Key>, k: Key): nat {
    if k in blind && Names(batch, k) then Credited(ledger, k) else 0
  }

  /** A landing charges what it adds to a row, and once more what it overwrites unseen. */
  lemma {:induction false} ChargesWhatItAdds(ledger: map<Key, nat>, batch: seq<Entry>, blind: set<Key>, k: Key)
    ensures Credited(ledger, k) + ChargedTo(CreditsOf(ledger, batch, blind), k)
            == Credited(CreditAll(ledger, batch, blind).0, k) + OverwrittenBy(ledger, batch, blind, k)
    decreases |batch|
  {
    if batch != [] {
      var next := CreditOne(ledger, batch[0], blind).0;
      ChargesWhatItAdds(next, batch[1..], blind - {KeyOf(batch[0])}, k);
      assert CreditsOf(ledger, batch, blind)[1..] == CreditsOf(next, batch[1..], blind - {KeyOf(batch[0])});
    }
  }

  /** The minutes a landing reads for a key. */
  function Read(ledger: map<Key, nat>, blind: set<Key>, k: Key): nat {
    if k in blind then 0 else Credited(ledger, k)
  }

  /** A landing credits 0 if and only if it states no more of any key than it reads there. */
  lemma {:induction false} CreditsNothingIff(ledger: map<Key, nat>, batch: seq<Entry>, blind: set<Key>)
    ensures CreditAll(ledger, batch, blind).1 == 0 <==>
            (forall e :: e in batch ==> e.minutes <= Read(ledger, blind, KeyOf(e)))
    decreases |batch|
  {
    if batch != [] {
      var e, rest := batch[0], batch[1..];
      var next := CreditOne(ledger, e, blind).0;
      CreditsNothingIff(next, rest, blind - {KeyOf(e)});
      assert forall other :: other in batch <==> other == e || other in rest;
      if e.minutes <= Read(ledger, blind, KeyOf(e)) {
        assert forall k :: Read(next, blind - {KeyOf(e)}, k) == Read(ledger, blind, k);
      }
    }
  }

  /** Does the landing overwrite a row it did not see with less? */
  predicate Undercuts(ledger: map<Key, nat>, batch: seq<Entry>, blind: set<Key>, k: Key) {
    k in blind && Names(batch, k) && Credited(ledger, k) > Highest(batch, k)
  }

  /** A landing keeps the ledger at the highest total reported so far, whatever order the
      totals come in, if and only if it overwrites no row that it did not see with less. */
  lemma CreditKeepsHighest(ledger: map<Key, nat>, before: seq<Entry>, batch: seq<Entry>, blind: set<Key>)
    requires forall k :: Credited(ledger, k) == Highest(before, k)
    ensures (forall k :: Credited(CreditAll(ledger, batch, blind).0, k) == Highest(before + batch, k)) <==>
            (forall k :: !Undercuts(ledger, batch, blind, k))
  {
    forall k
      ensures Credited(CreditAll(ledger, batch, blind).0, k) == Highest(before + batch, k) <==>
              !Undercuts(ledger, batch, blind, k)
    {
      CreditedAfter(ledger, batch, blind, k);
      HighestOfBoth(before, batch, k);
    }
  }

  /** A batch whose every total is already covered, by rows that are read, changes nothing and
      credits 0. */
  lemma {:induction false} CoveredCreditsNothing(ledger: map<Key, nat>, batch: seq<Entry>, blind: set<Key>)
    requires forall e :: e in batch ==> KeyOf(e) in ledger && e.minutes <= ledger[KeyOf(e)] && KeyOf(e) !in blind
    ensures CreditAll(ledger, batch, blind) == (ledger, 0)
    decreases |batch|
  {
    if batch != [] {
      assert batch[0] in batch;
      assert CreditOne(ledger, batch[0], blind).0 == ledger;
      CoveredCreditsNothing(ledger, batch[1..], blind - {KeyOf(batch[0])});
    }
  }
}
