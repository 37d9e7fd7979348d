/** The minute arithmetic of the meter: how many calendar minutes a connection has been
    open in, per month. */
module MinuteBuckets {
  import opened Common
  import opened OrderedMap
  import Calendar

  const MINUTE_MS: int := 60_000

  /** A calendar as this arithmetic needs it: months numbered in order, the first minute
      of each (counted from the epoch), the month of a minute, and a name per month. */
  datatype Cal = Cal(monthOf: int -> int, first: int -> int, name: int -> string) {
    ghost predicate Good() {
      && (forall x :: first(monthOf(x)) <= x < first(monthOf(x) + 1))
      && (forall a, b :: a < b ==> first(a) < first(b))
      && (forall a, b :: a != b ==> name(a) != name(b))
    }
  }

  /** The calendar `periodOf` uses. */
  const UTC: Cal := Cal(Calendar.MonthOf, Calendar.FirstMinute, Calendar.PeriodName)

  lemma UtcIsGood()
    ensures UTC.Good()
  {
    forall x ensures UTC.first(UTC.monthOf(x)) <= x < UTC.first(UTC.monthOf(x) + 1) {
      Calendar.MonthIsItsRange(x, Calendar.MonthOf(x));
    }
    forall a, b | a < b ensures UTC.first(a) < UTC.first(b) {
      Calendar.MonthsRise(a, b);
    }
    forall a, b | a != b ensures UTC.name(a) != UTC.name(b) {
      Calendar.PeriodNamesMonth(a, b);
    }
  }

  /** The minute an instant belongs to. */
  function MinuteOf(ms: int): int {
    ms / MINUTE_MS
  }

  function PeriodOf(cal: Cal, ms: int): string {
    cal.name(cal.monthOf(MinuteOf(ms)))
  }

  function CountOne(totals: seq<(string, nat)>, period: string): seq<(string, nat)> {
    Put(totals, period, 1 + match Lookup(totals, period) case Some(n) => n case None => 0)
  }

  /** One minute after the other, each counted under the period it starts in. */
  function Buckets(cal: Cal, first: int, last: int): seq<(string, nat)>
    decreases last - first
  {
    if last < first then [] else CountOne(Buckets(cal, first, last - 1), cal.name(cal.monthOf(last)))
  }

  method BucketsFor(cal: Cal, openedAt: int, at: int) returns (totals: seq<(string, nat)>)
    ensures totals == Buckets(cal, MinuteOf(openedAt), MinuteOf(at))
  {
    var first := openedAt / MINUTE_MS * MINUTE_MS;
    var last := at / MINUTE_MS * MINUTE_MS;
    totals := [];
    if last < first { return; }
    var ms := first;
    ghost var minute := MinuteOf(openedAt);
    while ms <= last
      invariant ms == minute * MINUTE_MS && MinuteOf(openedAt) <= minute <= MinuteOf(at) + 1
      invariant totals == Buckets(cal, MinuteOf(openedAt), minute - 1)
    {
      totals := CountOne(totals, PeriodOf(cal, ms));
      ms := ms + MINUTE_MS;
      minute := minute + 1;
    }
  }

  // ---- The closed form ----

  /** How many minutes of `first..last`, both included, lie in the month. */
  function Overlap(cal: Cal, first: int, last: int, month: int): nat {
    Max(0, Min(last, cal.first(month + 1) - 1) - Max(first, cal.first(month)) + 1)
  }

  /** A month is exactly its range of minutes. */
  lemma MonthIsItsRange(cal: Cal, minute: int, month: int)
    requires cal.Good()
    ensures cal.monthOf(minute) == month <==> cal.first(month) <= minute < cal.first(month + 1)
  {
    assert cal.first(cal.monthOf(minute)) <= minute < cal.first(cal.monthOf(minute) + 1);
  }

  lemma MonthsFollow(cal: Cal, a: int, b: int)
    requires cal.Good() && a <= b
    ensures cal.monthOf(a) <= cal.monthOf(b)
    ensures b == a + 1 ==> cal.monthOf(b) <= cal.monthOf(a) + 1
  {
    var m, n := cal.monthOf(a), cal.monthOf(b);
    assert cal.first(n + 1) <= cal.first(m) || m <= n;
    assert cal.first(m + 1) < cal.first(n) || n <= m + 1;
  }

  /** One more minute adds one to its own month and nothing to any other. */
  ghost predicate AddsOneMinute(cal: Cal, first: int, last: int) {
    forall month ::
      Overlap(cal, first, last, month)
      == Overlap(cal, first, last - 1, month) + if cal.monthOf(last) == month then 1 else 0
  }

  lemma OneMoreMinute(cal: Cal, first: int, last: int)
    requires cal.Good() && first <= last
    ensures AddsOneMinute(cal, first, last)
  {
    forall month
      ensures Overlap(cal, first, last, month)
              == Overlap(cal, first, last - 1, month) + if cal.monthOf(last) == month then 1 else 0
    {
      MonthIsItsRange(cal, last, month);
      assert cal.first(month) < cal.first(month + 1);
    }
  }

  /** What the totals say about month number `j` after the first. */
  predicate Row(cal: Cal, totals: seq<(string, nat)>, first: int, last: int, j: int)
    requires 0 <= j < |totals|
  {
    totals[j] == (cal.name(cal.monthOf(first) + j), Overlap(cal, first, last, cal.monthOf(first) + j))
  }

  lemma RowsAreDistinct(cal: Cal, totals: seq<(string, nat)>, first: int, last: int)
    requires cal.Good()
    requires forall j :: 0 <= j < |totals| ==> Row(cal, totals, first, last, j)
    ensures Distinct(totals)
  {
    forall i, j | 0 <= i < j < |totals| ensures totals[i].0 != totals[j].0 {
      assert Row(cal, totals, first, last, i) && Row(cal, totals, first, last, j);
    }
  }

  predicate Rows(cal: Cal, totals: seq<(string, nat)>, first: int, last: int) {
    && |totals| == (if last < first then 0 else cal.monthOf(last) - cal.monthOf(first) + 1)
    && forall j :: 0 <= j < |totals| ==> Row(cal, totals, first, last, j)
  }

  /** The loop's totals in one formula: one entry for each month from the first minute's
      to the last minute's, in order, each holding that month's overlap with the range. */
  lemma {:induction false} BucketsClosedForm(cal: Cal, first: int, last: int)
    requires cal.Good()
    ensures Rows(cal, Buckets(cal, first, last), first, last)
    ensures Distinct(Buckets(cal, first, last))
    decreases last - first
  {
    if first <= last {
      BucketsClosedForm(cal, first, last - 1);
      var before, month := Buckets(cal, first, last - 1), cal.monthOf(last);
      MonthsFollow(cal, first, last);
      if first < last {
        MonthsFollow(cal, first, last - 1);
        MonthsFollow(cal, last - 1, last);
      }
      OneMoreMinute(cal, first, last);
      if month - cal.monthOf(first) < |before| {
        SameMonthAgain(cal, before, first, last);
      } else {
        JustEntered(cal, first, last);
        forall j | 0 <= j < |before| ensures before[j].0 != cal.name(month) {
          assert Row(cal, before, first, last - 1, j);
        }
        MonthEntered(cal, before, first, last);
      }
      RowsAreDistinct(cal, Buckets(cal, first, last), first, last);
    }
  }

  lemma SameMonthAgain(cal: Cal, before: seq<(string, nat)>, first: int, last: int)
    requires first <= last && AddsOneMinute(cal, first, last)
    requires Distinct(before) && Rows(cal, before, first, last - 1)
    requires |before| == cal.monthOf(last) - cal.monthOf(first) + 1 > 0
    ensures Rows(cal, CountOne(before, cal.name(cal.monthOf(last))), first, last)
  {
    var n := |before| - 1;
    assert Row(cal, before, first, last - 1, n);
    FoundAt(before, n);
    var totals := CountOne(before, cal.name(cal.monthOf(last)));
    assert totals == before[n := (before[n].0, before[n].1 + 1)];
    forall j | 0 <= j < |totals| ensures Row(cal, totals, first, last, j) {
      assert Row(cal, before, first, last - 1, j);
    }
  }

  lemma MonthEntered(cal: Cal, before: seq<(string, nat)>, first: int, last: int)
    requires first <= last && AddsOneMinute(cal, first, last)
    requires Rows(cal, before, first, last - 1)
    requires |before| == cal.monthOf(last) - cal.monthOf(first)
    requires forall j :: 0 <= j < |before| ==> before[j].0 != cal.name(cal.monthOf(last))
    requires Overlap(cal, first, last - 1, cal.monthOf(last)) == 0
    ensures Rows(cal, CountOne(before, cal.name(cal.monthOf(last))), first, last)
  {
    var totals := CountOne(before, cal.name(cal.monthOf(last)));
    assert totals == before + [(cal.name(cal.monthOf(last)), 1)];
    forall j | 0 <= j < |totals| ensures Row(cal, totals, first, last, j) {
      if j < |before| {
        assert Row(cal, before, first, last - 1, j);
      }
    }
  }

  /** A month just entered has nothing of the range before it. */
  lemma JustEntered(cal: Cal, first: int, last: int)
    requires cal.Good() && first <= last
    requires first < last ==> cal.monthOf(last - 1) < cal.monthOf(last)
    ensures Overlap(cal, first, last - 1, cal.monthOf(last)) == 0
  {
    var b := cal.monthOf(last);
    if first < last {
      var before := cal.monthOf(last - 1);
      assert last - 1 < cal.first(before + 1);
      assert before + 1 < b ==> cal.first(before + 1) < cal.first(b);
    }
  }

  /** What a connection open over these minutes owes to a period: how many of them belong
      to it. */
  function Owed(cal: Cal, first: int, last: int, period: string): nat
    decreases last - first
  {
    if last < first then 0
    else Owed(cal, first, last - 1, period) + if cal.name(cal.monthOf(last)) == period then 1 else 0
  }

  /** The totals hold exactly what is owed, and do not mention what is not. */
  lemma {:induction false} BucketsHoldOwed(cal: Cal, first: int, last: int, period: string)
    requires cal.Good()
    ensures Lookup(Buckets(cal, first, last), period)
            == if Owed(cal, first, last, period) > 0 then Some(Owed(cal, first, last, period)) else None
    decreases last - first
  {
    if first <= last {
      BucketsHoldOwed(cal, first, last - 1, period);
      BucketsClosedForm(cal, first, last - 1);
      CountOneLooksUp(Buckets(cal, first, last - 1), cal.name(cal.monthOf(last)), period);
    }
  }

  lemma CountOneLooksUp(totals: seq<(string, nat)>, counted: string, period: string)
    requires Distinct(totals)
    ensures Lookup(CountOne(totals, counted), period) ==
      if counted == period then Some(1 + match Lookup(totals, period) case Some(n) => n case None => 0)
          else Lookup(totals, period)
  {
    PutLooksUp(totals, counted, 1 + match Lookup(totals, counted) case Some(n) => n case None => 0);
  }

  /** Each month is owed its overlap with the stay. */
  lemma {:induction false} OwedIsOverlap(cal: Cal, first: int, last: int, month: int)
    requires cal.Good()
    ensures Owed(cal, first, last, cal.name(month)) == Overlap(cal, first, last, month)
    decreases last - first
  {
    if first <= last {
      OwedIsOverlap(cal, first, last - 1, month);
      OneMoreMinute(cal, first, last);
      assert cal.monthOf(last) != month ==> cal.name(cal.monthOf(last)) != cal.name(month);
    } else {
      assert cal.first(month) < cal.first(month + 1);
    }
  }

  // ---- What a period says when it is read ----

  /** The period of an instant says year `y` and month `n` exactly if the instant lies between
      the first minute of that month and of the next, in milliseconds since 1970. */
  lemma PeriodOfSaysWhen(ms: int, y: int, n: int)
    requires 1 <= n <= 12
    ensures Calendar.ReadPeriod(PeriodOf(UTC, ms)) == Some((y, n)) <==>
            60_000 * Calendar.FirstMinute(12 * y + n - 1) <= ms < 60_000 * Calendar.FirstMinute(12 * y + n)
  {
    Calendar.PeriodSaysWhen(MinuteOf(ms), y, n);
    MinutesOfMs(ms, Calendar.FirstMinute(12 * y + n - 1));
    MinutesOfMs(ms, Calendar.FirstMinute(12 * y + n));
  }

  lemma MinutesOfMs(ms: int, minute: int)
    ensures minute <= MinuteOf(ms) <==> 60_000 * minute <= ms
  {
  }

  // ---- What a report relies on ----

  function Sum(totals: seq<(string, nat)>): nat {
    if totals == [] then 0 else totals[0].1 + Sum(totals[1..])
  }

  lemma {:induction false} CountOneAddsOne(totals: seq<(string, nat)>, period: string)
    ensures Sum(CountOne(totals, period)) == Sum(totals) + 1
  {
    if totals != [] && totals[0].0 != period {
      CountOneAddsOne(totals[1..], period);
      var t := CountOne(totals, period);
      assert t[0] == totals[0] && t[1..] == CountOne(totals[1..], period);
    } else if totals != [] {
      assert CountOne(totals, period)[1..] == totals[1..];
    }
  }

  lemma {:induction false} SumIsMinutes(cal: Cal, first: int, last: int)
    ensures Sum(Buckets(cal, first, last)) == Max(0, last - first + 1)
    decreases last - first
  {
    if first <= last {
      SumIsMinutes(cal, first, last - 1);
      CountOneAddsOne(Buckets(cal, first, last - 1), cal.name(cal.monthOf(last)));
    }
  }

  /** All the months together: every minute touched is charged once, and a stay of `d`
      milliseconds costs its whole minutes plus one, or plus two, never anything else. */
  lemma {:induction false} StayCosts(cal: Cal, openedAt: int, at: int)
    ensures var sum := Sum(Buckets(cal, MinuteOf(openedAt), MinuteOf(at)));
            && (MinuteOf(at) < MinuteOf(openedAt) ==> sum == 0)
            && (openedAt <= at ==>
                  && sum == MinuteOf(at) - MinuteOf(openedAt) + 1
                  && (at - openedAt) / 60_000 + 1 <= sum <= (at - openedAt) / 60_000 + 2)
  {
    SumIsMinutes(cal, MinuteOf(openedAt), MinuteOf(at));
  }

  /** In every period the total only grows while the connection stays open. */
  lemma {:induction false} OwedGrows(cal: Cal, first: int, last: int, later: int, period: string)
    requires last <= later
    ensures Owed(cal, first, last, period) <= Owed(cal, first, later, period)
    decreases later - last
  {
    if last < later {
      OwedGrows(cal, first, last, later - 1, period);
    }
  }

  /** Splitting a stay at any minute splits what each period is owed. */
  lemma {:induction false} OwedSplits(cal: Cal, first: int, middle: int, last: int, period: string)
    requires first <= middle + 1 && middle <= last
    ensures Owed(cal, first, last, period) == Owed(cal, first, middle, period) + Owed(cal, middle + 1, last, period)
    decreases last - middle
  {
    if middle < last {
      OwedSplits(cal, first, middle, last - 1, period);
    }
  }
}
