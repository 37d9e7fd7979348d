/** What tenants are charged: the sum of the deltas the api has applied. The figure a usage
    query reads is this sum, not the rows the deltas were computed from. */
module MeterCharges {
  import opened Common
  import opened MinuteBuckets
  import opened Metering
  import opened RetentionHistory
  import opened MeterRuns
  import opened MeterGuarantees

  // ---- One connection in one month ----

  /** What a step takes off a row by overwriting it unseen. */
  function StepOverwrites(s: Sys, step: Step, k: Key): nat
    requires Can(s, step)
  {
    if step.Land? && Lands(s.reports[step.report].batch)
    then OverwrittenBy(s.ledger, s.reports[step.report].batch, step.blind, k)
    else 0
  }

  /** And what a run does. */
  function Overwritten(cal: Cal, s: Sys, steps: seq<Step>, k: Key): nat
    decreases |steps|
  {
    if steps == [] || !Can(s, steps[0]) then 0
    else StepOverwrites(s, steps[0], k) + Overwritten(cal, Next(cal, s, steps[0]), steps[1..], k)
  }

  /** Each landing of this run that names the key sees its row, or finds nothing in it. */
  predicate EachSees(cal: Cal, s: Sys, steps: seq<Step>, k: Key)
    decreases |steps|
  {
    steps != [] ==>
      && Can(s, steps[0])
      && (steps[0].Land? && Lands(s.reports[steps[0].report].batch) && Names(s.reports[steps[0].report].batch, k) ==>
          k !in steps[0].blind || Credited(s.ledger, k) == 0)
      && EachSees(cal, Next(cal, s, steps[0]), steps[1..], k)
  }

  lemma {:induction false} OverwritesIffUnseen(cal: Cal, s: Sys, steps: seq<Step>, t: Sys, k: Key)
    requires Reaches(cal, s, steps, t)
    ensures Overwritten(cal, s, steps, k) == 0 <==> EachSees(cal, s, steps, k)
    decreases |steps|
  {
    if steps != [] {
      OverwritesIffUnseen(cal, Next(cal, s, steps[0]), steps[1..], t, k);
    }
  }

  /** Serial landings see every row. */
  lemma {:induction false} SerialSees(cal: Cal, s: Sys, steps: seq<Step>, k: Key)
    requires Serialised(cal, s, steps)
    ensures EachSees(cal, s, steps, k)
    decreases |steps|
  {
    if steps != [] {
      SerialSees(cal, Next(cal, s, steps[0]), steps[1..], k);
    }
  }

  lemma StepCharges(cal: Cal, s: Sys, step: Step, k: Key)
    requires Can(s, step)
    ensures ChargedTo(Next(cal, s, step).credits, k) + Credited(s.ledger, k)
            == ChargedTo(s.credits, k) + Credited(Next(cal, s, step).ledger, k) + StepOverwrites(s, step, k)
  {
    if step.Land? {
      var batch := s.reports[step.report].batch;
      ChargesWhatItAdds(s.ledger, batch, step.blind, k);
      ChargesAddUp(s.credits, CreditsOf(s.ledger, batch, step.blind), k);
    }
  }

  lemma {:induction false} RunCharges(cal: Cal, s: Sys, steps: seq<Step>, t: Sys, k: Key)
    requires Reaches(cal, s, steps, t)
    ensures ChargedTo(t.credits, k) + Credited(s.ledger, k)
            == ChargedTo(s.credits, k) + Credited(t.ledger, k) + Overwritten(cal, s, steps, k)
    decreases |steps|
  {
    if steps != [] {
      StepCharges(cal, s, steps[0], k);
      RunCharges(cal, Next(cal, s, steps[0]), steps[1..], t, k);
    }
  }

  /** After every run a connection has been charged what its row holds and what landings
      overwrote there: never less than its row, as much if and only if each landing saw it,
      and then no more than the minutes it occupied. */
  lemma ChargedIsRowAndOverwritten(cal: Cal, start: int, steps: seq<Step>, s: Sys, k: Key)
    requires cal.Good() && Reaches(cal, Init(start), steps, s)
    ensures ChargedTo(s.credits, k) == Credited(s.ledger, k) + Overwritten(cal, Init(start), steps, k)
    ensures ChargedTo(s.credits, k) == Credited(s.ledger, k) <==> EachSees(cal, Init(start), steps, k)
    ensures EachSees(cal, Init(start), steps, k) ==> ChargedTo(s.credits, k) <= Due(cal, s, k)
    ensures Serialised(cal, Init(start), steps) ==> EachSees(cal, Init(start), steps, k)
  {
    if Serialised(cal, Init(start), steps) {
      SerialSees(cal, Init(start), steps, k);
    }
    RunCharges(cal, Init(start), steps, s, k);
    OverwritesIffUnseen(cal, Init(start), steps, s, k);
    RowsNeverExceedOccupied(cal, start, steps, s, k);
  }

  // ---- Replays ----

  /** It sees every row it names, and these cover it. */
  predicate SeesCovered(s: Sys, batch: seq<Entry>, blind: set<Key>) {
    forall e :: e in batch ==> KeyOf(e) !in blind && e.minutes <= Credited(s.ledger, KeyOf(e))
  }

  lemma LandedNamesRows(cal: Cal, s: Sys, i: nat)
    requires ReportsOk(cal, s) && AcceptedOk(cal, s) && i < |s.reports| && s.reports[i].landed
    ensures forall e :: e in s.reports[i].batch ==> e in s.accepted && KeyOf(e) in s.ledger && e.minutes > 0
  {
    assert s.reports[i] in s.reports && ReportOk(cal, s, s.reports[i]);
    forall e | e in s.reports[i].batch ensures e in s.accepted && KeyOf(e) in s.ledger && e.minutes > 0 {
      assert Truthful(cal, s, e);
    }
  }

  lemma CreditsNothingIffCovered(s: Sys, batch: seq<Entry>, blind: set<Key>)
    requires forall e :: e in batch ==> KeyOf(e) in s.ledger && e.minutes > 0
    ensures CreditAll(s.ledger, batch, blind).1 == 0 <==> SeesCovered(s, batch, blind)
    ensures SeesCovered(s, batch, blind) ==> CreditAll(s.ledger, batch, blind).0 == s.ledger
  {
    CreditsNothingIff(s.ledger, batch, blind);
    if SeesCovered(s, batch, blind) {
      CoveredCreditsNothing(s.ledger, batch, blind);
    }
  }

  /** However much later a report lands again, it credits 0 if and only if it sees every row it
      names and these cover it; and then it changes no row. The rows do cover it but where a
      landing has undercut them. */
  lemma ReplayCreditsNothingIff(cal: Cal, start: int, steps: seq<Step>, s: Sys, i: nat, blind: set<Key>)
    requires cal.Good() && Reaches(cal, Init(start), steps, s)
    requires Can(s, Land(i, blind)) && s.reports[i].landed
    ensures CreditAll(s.ledger, s.reports[i].batch, blind).1 == 0 <==> SeesCovered(s, s.reports[i].batch, blind)
    ensures SeesCovered(s, s.reports[i].batch, blind) ==> Landed(s, i, blind).ledger == s.ledger
    ensures forall e :: e in s.reports[i].batch && NoneUndercut(cal, Init(start), steps, KeyOf(e)) ==>
              e.minutes <= Credited(s.ledger, KeyOf(e))
  {
    InitIsInv(cal, start);
    RunIsInv(cal, Init(start), steps, s);
    LandedNamesRows(cal, s, i);
    CreditsNothingIffCovered(s, s.reports[i].batch, blind);
    forall e | e in s.reports[i].batch && NoneUndercut(cal, Init(start), steps, KeyOf(e))
      ensures e.minutes <= Credited(s.ledger, KeyOf(e))
    {
      RowsNeverExceedOccupied(cal, start, steps, s, KeyOf(e));
      HighestCovers(s.accepted, e);
    }
  }

  /** The final total lands, and lands again without seeing what it has written. */
  function LandedTwice(cal: Cal, c: Connection): Sys {
    Landed(OneLanded(cal, c), 1, {KeyOf(Owes(cal, c, 2))})
  }

  lemma LandedTwiceState(cal: Cal, c: Connection)
    requires cal.Good() && StaysInMonth(cal, c)
    ensures var two, s := Owes(cal, c, 2), LandedTwice(cal, c);
            && s.ledger == map[KeyOf(two) := 2]
            && s.credits == [Credit(two, 2)] + [Credit(two, 2)]
            && s.stays == NowClosed(cal, c).stays
  {
    var two := Owes(cal, c, 2);
    UnseenIsCredited(map[], two, {});
    UnseenIsCredited(OneLanded(cal, c).ledger, two, {KeyOf(two)});
    ThenCloses(cal, c);
  }

  /** Two deliveries of one report that both found no row: the row is right, and the two
      minutes are charged twice. */
  lemma OverlappingReplayChargesAgain(cal: Cal, c: Connection) returns (steps: seq<Step>, s: Sys, k: Key)
    requires cal.Good() && StaysInMonth(cal, c)
    ensures Reaches(cal, Init(c.openedAt), steps, s)
    ensures Credited(s.ledger, k) == Due(cal, s, k) == 2 && ChargedTo(s.credits, k) == 4
  {
    k, s := KeyOf(Owes(cal, c, 2)), LandedTwice(cal, c);
    var before := BothSentIsReached(cal, c);
    OneStep(cal, BothSent(cal, c), Land(1, {}));
    OneStep(cal, OneLanded(cal, c), Land(1, {k}));
    ReachesOn(cal, BothSent(cal, c), [Land(1, {})], OneLanded(cal, c), [Land(1, {k})], s);
    steps := before + ([Land(1, {})] + [Land(1, {k})]);
    ReachesOn(cal, Init(c.openedAt), before, BothSent(cal, c), [Land(1, {})] + [Land(1, {k})], s);
    LandedTwiceState(cal, c);
    BothCharged(Owes(cal, c, 2), Owes(cal, c, 2));
    StaysOneMinute(cal, c);
    RaceRunDue(cal, c, s);
  }

  // ---- A tenant's figure ----

  /** One key for each socket the tenant ever had. */
  function TenantKeys(s: Sys, environment: string, period: string): set<Key> {
    set id | id in s.stays && EnvironmentOf(s, id) == environment :: Key(id, period)
  }

  function Charges(credits: seq<Credit>): Key -> nat {
    k => ChargedTo(credits, k)
  }

  function Rows(s: Sys): Key -> nat {
    k => Credited(s.ledger, k)
  }

  function Dues(cal: Cal, s: Sys): Key -> nat {
    k => Due(cal, s, k)
  }

  function Overwrites(cal: Cal, s: Sys, steps: seq<Step>): Key -> nat {
    k => Overwritten(cal, s, steps, k)
  }

  /** The figure is the sum of what was charged for each of the keys. */
  lemma {:induction false} FigureIsSum(credits: seq<Credit>, environment: string, period: string, keys: set<Key>)
    requires forall c :: c in credits ==>
               (c.entry.environment == environment && c.entry.period == period <==> KeyOf(c.entry) in keys)
    ensures Figure(credits, environment, period) == SumOver(keys, Charges(credits))
  {
    if credits == [] {
      SumOfOne(keys, Charges(credits), Key("", period));
    } else {
      var head := KeyOf(credits[0].entry);
      var first := k => if k == head then credits[0].minutes else 0;
      FigureIsSum(credits[1..], environment, period, keys);
      SumOfOne(keys, first, head);
      SumAdds(keys, first, Charges(credits[1..]), Charges(credits));
    }
  }

  /** Every credit is for an entry the api accepted. */
  predicate CreditsOk(s: Sys) {
    forall c :: c in s.credits ==> c.entry in s.accepted
  }

  lemma {:induction false} CreditsNameTheBatch(ledger: map<Key, nat>, batch: seq<Entry>, blind: set<Key>)
    ensures forall c :: c in CreditsOf(ledger, batch, blind) ==> c.entry in batch
    decreases |batch|
  {
    if batch != [] {
      CreditsNameTheBatch(CreditOne(ledger, batch[0], blind).0, batch[1..], blind - {KeyOf(batch[0])});
    }
  }

  lemma {:induction false} RunCreditsOk(cal: Cal, s: Sys, steps: seq<Step>, t: Sys)
    requires CreditsOk(s) && Reaches(cal, s, steps, t)
    ensures CreditsOk(t)
    decreases |steps|
  {
    if steps != [] {
      if steps[0].Land? {
        CreditsNameTheBatch(s.ledger, s.reports[steps[0].report].batch, steps[0].blind);
      }
      RunCreditsOk(cal, Next(cal, s, steps[0]), steps[1..], t);
    }
  }

  lemma FigureIsCharged(cal: Cal, s: Sys, environment: string, period: string)
    requires AcceptedOk(cal, s) && CreditsOk(s)
    ensures Figure(s.credits, environment, period)
            == SumOver(TenantKeys(s, environment, period), Charges(s.credits))
  {
    var keys := TenantKeys(s, environment, period);
    forall c | c in s.credits
      ensures c.entry.environment == environment && c.entry.period == period <==> KeyOf(c.entry) in keys
    {
      assert Truthful(cal, s, c.entry);
    }
    FigureIsSum(s.credits, environment, period, keys);
  }

  /** After every run a tenant's figure for a month is the sum of its rows and of what landings
      overwrote there, and its rows sum to no more than its sockets occupied. So the figure is
      at least the rows, equal to them if and only if each landing saw each row it named, and
      then at most what was occupied. */
  lemma FigureIsRowsAndOverwritten(
      cal: Cal, start: int, steps: seq<Step>, s: Sys, environment: string, period: string)
    requires cal.Good() && Reaches(cal, Init(start), steps, s)
    ensures var keys, figure := TenantKeys(s, environment, period), Figure(s.credits, environment, period);
            var rows := SumOver(keys, Rows(s));
            && figure == rows + SumOver(keys, Overwrites(cal, Init(start), steps))
            && (figure == rows <==> forall k :: k in keys ==> EachSees(cal, Init(start), steps, k))
            && rows <= SumOver(keys, Dues(cal, s))
  {
    var keys := TenantKeys(s, environment, period);
    InitIsInv(cal, start);
    RunIsInv(cal, Init(start), steps, s);
    RunCreditsOk(cal, Init(start), steps, s);
    FigureIsCharged(cal, s, environment, period);
    forall k
      ensures ChargedTo(s.credits, k) == Credited(s.ledger, k) + Overwritten(cal, Init(start), steps, k)
      ensures ChargedTo(s.credits, k) == Credited(s.ledger, k) <==> EachSees(cal, Init(start), steps, k)
      ensures Credited(s.ledger, k) <= Due(cal, s, k)
    {
      ChargedIsRowAndOverwritten(cal, start, steps, s, k);
      RowsNeverExceedOccupied(cal, start, steps, s, k);
    }
    SumAdds(keys, Rows(s), Overwrites(cal, Init(start), steps), Charges(s.credits));
    SumIsOrdered(keys, Rows(s), Charges(s.credits));
    SumIsOrdered(keys, Rows(s), Dues(cal, s));
  }

  /** One report overwrites nothing and charges what it adds. */
  lemma ReportedCharges(cal: Cal, s: Sys, k: Key)
    requires cal.Good() && Inv(cal, s) && Lands(BatchNow(cal, s))
    ensures ChargedTo(Reported(cal, s).credits, k) + Credited(s.ledger, k)
            == ChargedTo(s.credits, k) + Credited(Reported(cal, s).ledger, k)
  {
    var sent, landed := Sent(cal, s), Landed(Sent(cal, s), |s.reports|, {});
    StepCharges(cal, sent, Land(|s.reports|, {}), k);
  }

  lemma ReportedIsOk(cal: Cal, s: Sys)
    requires cal.Good() && Inv(cal, s) && CreditsOk(s) && Lands(BatchNow(cal, s))
    ensures AcceptedOk(cal, Reported(cal, s)) && CreditsOk(Reported(cal, s))
  {
    ReportedIsReachable(cal, s);
    CreditsNameTheBatch(s.ledger, BatchNow(cal, s), {});
  }

  lemma ChargeConverges(cal: Cal, start: int, steps: seq<Step>, s: Sys, k: Key)
    requires cal.Good() && Inv(cal, s) && Reaches(cal, Init(start), steps, s) && Lands(BatchNow(cal, s))
    requires k !in WithFate(s.held, Evicted) + WithFate(s.held, Wiped) && !LostToARace(cal, s, k)
    ensures ChargedTo(Reported(cal, s).credits, k) == Due(cal, s, k) + Overwritten(cal, Init(start), steps, k)
  {
    ReportedCharges(cal, s, k);
    ChargedIsRowAndOverwritten(cal, start, steps, s, k);
    InvConverges(cal, s, k);
  }

  lemma ReportedFigure(cal: Cal, s: Sys, environment: string, period: string)
    requires cal.Good() && Inv(cal, s) && CreditsOk(s) && Lands(BatchNow(cal, s))
    ensures Figure(Reported(cal, s).credits, environment, period)
            == SumOver(TenantKeys(s, environment, period), Charges(Reported(cal, s).credits))
  {
    ReportedIsOk(cal, s);
    FigureIsCharged(cal, Reported(cal, s), environment, period);
    SameTenants(s, Reported(cal, s), environment, period);
  }

  lemma SameTenants(s: Sys, t: Sys, environment: string, period: string)
    requires t.stays == s.stays
    ensures TenantKeys(t, environment, period) == TenantKeys(s, environment, period)
  {
  }

  /** From any reachable state, one report that is taken and answered brings a tenant's figure
      to exactly the minutes its sockets have occupied and what landings had overwritten,
      if no entry of its own was evicted, cleared or lost to a race. */
  lemma FigureConverges(cal: Cal, start: int, steps: seq<Step>, s: Sys, environment: string, period: string)
    requires cal.Good() && Reaches(cal, Init(start), steps, s) && Lands(BatchNow(cal, s))
    requires forall k :: k in TenantKeys(s, environment, period) ==>
               k !in WithFate(s.held, Evicted) + WithFate(s.held, Wiped) && !LostToARace(cal, s, k)
    ensures var keys := TenantKeys(s, environment, period);
            Figure(Reported(cal, s).credits, environment, period)
            == SumOver(keys, Dues(cal, s)) + SumOver(keys, Overwrites(cal, Init(start), steps))
  {
    var keys := TenantKeys(s, environment, period);
    InitIsInv(cal, start);
    RunIsInv(cal, Init(start), steps, s);
    RunCreditsOk(cal, Init(start), steps, s);
    ReportedFigure(cal, s, environment, period);
    forall k | k in keys
      ensures ChargedTo(Reported(cal, s).credits, k) == Due(cal, s, k) + Overwritten(cal, Init(start), steps, k)
    {
      ChargeConverges(cal, start, steps, s, k);
    }
    SumAdds(keys, Dues(cal, s), Overwrites(cal, Init(start), steps), Charges(Reported(cal, s).credits));
  }

  /** No report names a connection for another tenant than an accepted one did, so no landing
      is ever refused for it. */
  lemma TenantsNeverConflict(cal: Cal, s: Sys, i: nat, e: Entry, accepted: Entry)
    requires cal.Good() && Reachable(cal, s)
    requires i < |s.reports| && e in s.reports[i].batch && accepted in s.accepted
    requires e.connection == accepted.connection
    ensures e.environment == accepted.environment
  {
    ReachableIsInv(cal, s);
    assert s.reports[i] in s.reports && ReportOk(cal, s, s.reports[i]);
    assert Truthful(cal, s, e) && Truthful(cal, s, accepted);
  }
}
