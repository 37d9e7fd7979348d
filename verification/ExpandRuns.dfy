/** Events with the broker: fetched by any number of dispatchers, expanded through an api
    that commits rows and claim one after the other and may die in between, redelivered
    when a process dies or a call fails. */
module ExpandRuns {
  import opened Expand

  const MAX_DELIVER: nat := 10

  datatype Settled = Open | Acked | Termed

  datatype Message = Message(bytes: Bytes, delivered: nat, settled: Settled)

  datatype Ticket = Ticket(message: nat, delivery: nat)

  /** Where a dispatcher stands with one delivery of a message: it has it; its call has
      inserted the rows of this event, if any endpoint matched, and holds the claim open; or
      it has decided and not yet told the broker. */
  datatype Stage = Fetched | Halfway(id: string, expanded: bool) | Decided(decision: Decision)

  /** `deaths` counts for each event the calls that inserted rows and ended halfway. */
  datatype Sys = Sys(api: Api, messages: seq<Message>, workers: map<Ticket, Stage>, deaths: map<string, nat>)

  datatype Step =
    | Subscribe(matching: map<(string, string), set<string>>)
    | Publish(bytes: Bytes)
    | Fetch(message: nat)
    | Miss(ticket: Ticket)
    | Insert(ticket: Ticket, heard: bool)
    | Claim(ticket: Ticket, heard: bool)
    | Die(ticket: Ticket)
    | Settle(ticket: Ticket, reaches: bool)
    | Crash(ticket: Ticket)

  function Init(uuid: string -> bool): Sys {
    Sys(Api(uuid, map[], {}, []), [], map[], map[])
  }

  predicate Is(s: Sys, t: Ticket, stage: Stage) {
    t in s.workers && t.message < |s.messages| && s.workers[t] == stage
  }

  /** Some call holds the claim of this event open. */
  predicate UnderWay(s: Sys, id: string) {
    exists t :: t in s.workers && HalfwayWith(s, t, id)
  }

  predicate IsHalfway(s: Sys, t: Ticket) {
    t in s.workers && s.workers[t].Halfway?
  }

  predicate HalfwayWith(s: Sys, t: Ticket, id: string) {
    IsHalfway(s, t) && s.workers[t].id == id
  }

  function Deaths(s: Sys, id: string): nat {
    if id in s.deaths then s.deaths[id] else 0
  }

  predicate HasDecided(s: Sys, t: Ticket) {
    t in s.workers && t.message < |s.messages| && s.workers[t].Decided?
  }

  /** A call waits for another one that holds the claim of the same event open. `Crash` is
      the dispatcher's; a call under way does not notice it. */
  predicate Can(s: Sys, step: Step) {
    match step
    case Subscribe(_) => true
    case Publish(_) => true
    case Fetch(m) => m < |s.messages| && s.messages[m].settled.Open? && s.messages[m].delivered < MAX_DELIVER
    case Miss(t) => Is(s, t, Fetched) && Parses(s.messages[t.message].bytes)
    case Insert(t, _) =>
      Is(s, t, Fetched) && (Parses(s.messages[t.message].bytes) ==>
          !UnderWay(s, EnvelopeOf(s.messages[t.message].bytes).id))
    case Claim(t, _) => IsHalfway(s, t)
    case Die(t) => IsHalfway(s, t)
    case Settle(t, _) => HasDecided(s, t)
    case Crash(t) => t in s.workers && !IsHalfway(s, t)
  }

  function At(s: Sys, t: Ticket, stage: Stage): Sys {
    s.(workers := s.workers[t := stage])
  }

  /** The handler up to the end of the call's first half. */
  function InsertedBy(s: Sys, t: Ticket, heard: bool): Sys
    requires t.message < |s.messages|
  {
    var bytes := s.messages[t.message].bytes;
    if !Parses(bytes) then At(s, t, Decided(ToTerm)) else
    var (api, how) := InsertRows(s.api, EnvelopeOf(bytes));
    match how
    case Refused => At(s, t, Decided(ToRetry))
    case Collides => At(s, t, Decided(ToRetry))
    case Duplicate => At(s, t, Decided(if heard then ToAck else ToRetry))
    case Inserted => At(s, t, Halfway(EnvelopeOf(bytes).id, Matching(s.api, EnvelopeOf(bytes)) != {})).(api := api)
  }

  function ClaimedBy(s: Sys, t: Ticket, heard: bool): Sys
    requires IsHalfway(s, t)
  {
    At(s, t, Decided(if heard then ToAck else ToRetry)).(api := CommitClaim(s.api, s.workers[t].id))
  }

  /** The claim is lost, the rows stay. */
  function DiedBy(s: Sys, t: Ticket): Sys
    requires IsHalfway(s, t)
  {
    var id := s.workers[t].id;
    At(s, t, Decided(ToRetry)).(deaths :=
      if s.workers[t].expanded then s.deaths[id := Deaths(s, id) + 1] else s.deaths)
  }

  /** A decision to retry tells the broker nothing, and so does one that gets lost. */
  function SettledBy(s: Sys, t: Ticket, reaches: bool): Sys
    requires HasDecided(s, t)
  {
    var message, decision := s.messages[t.message], s.workers[t].decision;
    var settled :=
      if !reaches || !message.settled.Open? || decision.ToRetry? then message.settled
      else if decision.ToAck? then Acked
      else Termed;
    s.(messages := s.messages[t.message := message.(settled := settled)], workers := s.workers - {t})
  }

  function FetchedBy(s: Sys, m: nat): Sys
    requires m < |s.messages|
  {
    var n := s.messages[m].delivered + 1;
    At(s.(messages := s.messages[m := s.messages[m].(delivered := n)]), Ticket(m, n), Fetched)
  }

  function Next(s: Sys, step: Step): Sys
    requires Can(s, step)
  {
    match step
    case Subscribe(matching) => s.(api := s.api.(matching := matching))
    case Publish(bytes) => s.(messages := s.messages + [Message(bytes, 0, Open)])
    case Fetch(m) => FetchedBy(s, m)
    case Miss(t) => At(s, t, Decided(ToRetry))
    case Insert(t, heard) => InsertedBy(s, t, heard)
    case Claim(t, heard) => ClaimedBy(s, t, heard)
    case Die(t) => DiedBy(s, t)
    case Settle(t, reaches) => SettledBy(s, t, reaches)
    case Crash(t) => s.(workers := s.workers - {t})
  }

  ghost predicate Reaches(s: Sys, steps: seq<Step>, t: Sys)
    decreases |steps|
  {
    if steps == [] then s == t
    else Can(s, steps[0]) && Reaches(Next(s, steps[0]), steps[1..], t)
  }

  /** The second half of a call, by what becomes of it. */
  function SecondHalf(t: Ticket, fate: Fate): Step {
    if fate.DiedHalfway? then Die(t) else Claim(t, fate.Heard?)
  }

  /** With nothing in between, these steps are what the handler does with one message. */
  lemma HandlerIsSteps(s: Sys, t: Ticket, fate: Fate)
    requires Can(s, Insert(t, fate.Heard?))
    ensures var bytes := s.messages[t.message].bytes;
            var (api, decision) := Handled(s.api, bytes, fate);
            if Parses(bytes) && fate.NeverMade? then
              Can(s, Miss(t)) && Next(s, Miss(t)).workers[t] == Decided(decision) && Next(s, Miss(t)).api == api
            else
              var u := Next(s, Insert(t, fate.Heard?));
              if !IsHalfway(u, t) then u.workers[t] == Decided(decision) && u.api == api
              else
                var v := Next(u, SecondHalf(t, fate));
                v.workers[t] == Decided(decision) && v.api == api
  {
  }

  // ---- What is true of every reachable state ----

  /** Acknowledging is right for these bytes. */
  predicate IsClaimed(api: Api, bytes: Bytes) {
    Parses(bytes) && Accepts(api, EnvelopeOf(bytes)) && EnvelopeOf(bytes).id in api.claims
  }

  /** What a worker stands for. An open claim is for an event nobody has claimed. */
  predicate StageOk(api: Api, bytes: Bytes, stage: Stage) {
    match stage
    case Fetched => true
    case Halfway(id, _) =>
      id !in api.claims && Parses(bytes) && EnvelopeOf(bytes).id == id && Accepts(api, EnvelopeOf(bytes))
    case Decided(decision) =>
      && (decision.ToAck? ==> IsClaimed(api, bytes))
      && (decision.ToTerm? ==> !Parses(bytes))
  }

  predicate WorkerOk(s: Sys, t: Ticket)
    requires t in s.workers
  {
    && t.message < |s.messages|
    && 1 <= t.delivery <= s.messages[t.message].delivered
    && StageOk(s.api, s.messages[t.message].bytes, s.workers[t])
  }

  /** At most one call holds a claim open. */
  ghost predicate OneHolder(s: Sys) {
    forall t, u :: IsHalfway(s, t) && IsHalfway(s, u) && s.workers[t].id == s.workers[u].id ==> t == u
  }

  predicate MessageOk(s: Sys, message: Message) {
    && message.delivered <= MAX_DELIVER
    && (message.settled.Acked? ==> IsClaimed(s.api, message.bytes))
    && (message.settled.Termed? ==> !Parses(message.bytes))
  }

  ghost predicate Inv(s: Sys) {
    && ApiOk(s.api)
    && (forall t :: t in s.workers ==> WorkerOk(s, t))
    && OneHolder(s)
    && (forall i :: 0 <= i < |s.messages| ==> MessageOk(s, s.messages[i]))
  }

  /** The api forgets nothing, and a message keeps its bytes. */
  ghost predicate Onward(s: Sys, t: Sys) {
    && Keeps(s.api, t.api)
    && |s.messages| <= |t.messages|
    && forall i :: 0 <= i < |s.messages| ==> t.messages[i].bytes == s.messages[i].bytes
  }

  /** What the first half of a call does to the api is what `InsertRows` does. */
  lemma InsertedApi(s: Sys, t: Ticket, heard: bool)
    requires t.message < |s.messages|
    ensures var u, bytes := InsertedBy(s, t, heard), s.messages[t.message].bytes;
            && u.api == (if Parses(bytes) then InsertRows(s.api, EnvelopeOf(bytes)).0 else s.api)
            && u.api.claims == s.api.claims && u.deaths == s.deaths && u.messages == s.messages
  {
  }

  lemma StepIsOnward(s: Sys, step: Step)
    requires ApiOk(s.api) && Can(s, step)
    ensures Onward(s, Next(s, step)) && ApiOk(Next(s, step).api)
  {
    if step.Insert? {
      InsertedApi(s, step.ticket, step.heard);
      if Parses(s.messages[step.ticket.message].bytes) {
        InsertIsOk(s.api, EnvelopeOf(s.messages[step.ticket.message].bytes));
      }
    }
  }

  /** Only a `Claim` claims, and only what its own call holds open. */
  lemma StepClaims(s: Sys, step: Step, id: string)
    requires Can(s, step)
    ensures id in Next(s, step).api.claims <==> id in s.api.claims || (step.Claim? && s.workers[step.ticket].id == id)
    ensures Next(s, step).api.uuid == s.api.uuid
  {
  }

  lemma StageStays(s: Sys, step: Step, bytes: Bytes, stage: Stage)
    requires Can(s, step) && StageOk(s.api, bytes, stage)
    requires step.Claim? && stage.Halfway? ==> stage.id != s.workers[step.ticket].id
    ensures StageOk(Next(s, step).api, bytes, stage)
  {
    if stage.Halfway? {
      StepClaims(s, step, stage.id);
    } else if stage.Decided? && stage.decision.ToAck? {
      StepClaims(s, step, EnvelopeOf(bytes).id);
    }
  }

  lemma OwnStage(s: Sys, step: Step)
    requires Can(s, step) && (step.Insert? || step.Claim?) && WorkerOk(s, step.ticket)
    ensures WorkerOk(Next(s, step), step.ticket)
  {
  }

  lemma NewWorkerIsOk(s: Sys, step: Step, t: Ticket)
    requires Can(s, step) && t !in s.workers && t in Next(s, step).workers
    ensures step.Fetch? && WorkerOk(Next(s, step), t)
  {
  }

  /** Workers that do not move keep what they stand for. */
  lemma OtherStage(s: Sys, step: Step, t: Ticket)
    requires Can(s, step) && t in s.workers && t in Next(s, step).workers && WorkerOk(s, t)
    requires !((step.Insert? || step.Claim?) && step.ticket == t)
    requires step.Claim? && s.workers[t].Halfway? ==> s.workers[t].id != s.workers[step.ticket].id
    ensures WorkerOk(Next(s, step), t)
  {
    StageStays(s, step, s.messages[t.message].bytes, s.workers[t]);
  }

  lemma StepKeepsWorker(s: Sys, step: Step, t: Ticket)
    requires Can(s, step) && t in Next(s, step).workers
    requires OneHolder(s) && forall x :: x in s.workers ==> WorkerOk(s, x)
    ensures WorkerOk(Next(s, step), t)
  {
    if t !in s.workers {
      NewWorkerIsOk(s, step, t);
    } else if (step.Insert? || step.Claim?) && step.ticket == t {
      OwnStage(s, step);
    } else {
      assert step.Claim? && IsHalfway(s, t) ==> s.workers[t].id != s.workers[step.ticket].id;
      OtherStage(s, step, t);
    }
  }

  /** A call under way stays so until it claims or dies. */
  lemma HalfwayStays(s: Sys, step: Step, t: Ticket)
    requires Can(s, step) && IsHalfway(s, t) && WorkerOk(s, t)
    requires !((step.Claim? || step.Die?) && step.ticket == t)
    ensures t in Next(s, step).workers && Next(s, step).workers[t] == s.workers[t]
  {
  }

  /** And none comes to be so but by its own insertion. */
  lemma HalfwayBefore(s: Sys, step: Step, t: Ticket)
    requires Can(s, step) && IsHalfway(Next(s, step), t) && !(step.Insert? && step.ticket == t)
    ensures t in s.workers && s.workers[t] == Next(s, step).workers[t]
  {
  }

  lemma StepKeepsOneHolder(s: Sys, step: Step)
    requires Can(s, step) && OneHolder(s)
    ensures OneHolder(Next(s, step))
  {
    var u := Next(s, step);
    forall x, y | IsHalfway(u, x) && IsHalfway(u, y) && u.workers[x].id == u.workers[y].id ensures x == y {
      if !(step.Insert? && step.ticket == x) {
        HalfwayBefore(s, step, x);
      }
      if !(step.Insert? && step.ticket == y) {
        HalfwayBefore(s, step, y);
      }
    }
  }

  lemma StepKeepsMessage(s: Sys, step: Step, i: nat)
    requires Inv(s) && Can(s, step) && i < |Next(s, step).messages|
    ensures MessageOk(Next(s, step), Next(s, step).messages[i])
  {
    if i < |s.messages| {
      assert MessageOk(s, s.messages[i]);
      if Parses(s.messages[i].bytes) {
        StepClaims(s, step, EnvelopeOf(s.messages[i].bytes).id);
      }
      if step.Settle? {
        assert WorkerOk(s, step.ticket);
      }
    }
  }

  lemma StepIsInv(s: Sys, step: Step)
    requires Inv(s) && Can(s, step)
    ensures Inv(Next(s, step))
  {
    var u := Next(s, step);
    StepIsOnward(s, step);
    forall t | t in u.workers ensures WorkerOk(u, t) {
      StepKeepsWorker(s, step, t);
    }
    StepKeepsOneHolder(s, step);
    forall i | 0 <= i < |u.messages| ensures MessageOk(u, u.messages[i]) {
      StepKeepsMessage(s, step, i);
    }
  }

  lemma KeepsOn(a: Api, b: Api, c: Api)
    requires Keeps(a, b) && Keeps(b, c)
    ensures Keeps(a, c)
  {
  }

  lemma {:induction false} RunIsInv(s: Sys, steps: seq<Step>, t: Sys)
    requires Inv(s) && Reaches(s, steps, t)
    ensures Inv(t) && Onward(s, t)
    decreases |steps|
  {
    if steps != [] {
      var next := Next(s, steps[0]);
      StepIsInv(s, steps[0]);
      StepIsOnward(s, steps[0]);
      RunIsInv(next, steps[1..], t);
      KeepsOn(s.api, next.api, t.api);
    }
  }

  // ---- The guarantees ----

  /** An event acknowledged was claimed; one terminated could never parse; any other is
      still with the broker. */
  lemma SettledMeansDone(uuid: string -> bool, steps: seq<Step>, s: Sys, m: nat)
    requires Reaches(Init(uuid), steps, s) && m < |s.messages|
    ensures match s.messages[m].settled
      case Acked => Parses(s.messages[m].bytes) && EnvelopeOf(s.messages[m].bytes).id in s.api.claims
      case Termed => !Parses(s.messages[m].bytes)
      case Open => Can(s, Fetch(m)) || s.messages[m].delivered == 10
  {
    RunIsInv(Init(uuid), steps, s);
    assert MessageOk(s, s.messages[m]);
  }

  /** A message is settled exactly by the first settlement of it that reaches the broker, as its
      worker has decided. */
  lemma StepSettles(s: Sys, step: Step, m: nat)
    requires Can(s, step) && m < |s.messages|
    ensures var before, after := s.messages[m].settled, Next(s, step).messages[m].settled;
            var settles := step.Settle? && step.ticket.message == m && step.reaches && before.Open?;
            && (after.Acked? <==> before.Acked? || (settles && s.workers[step.ticket].decision.ToAck?))
            && (after.Termed? <==> before.Termed? || (settles && s.workers[step.ticket].decision.ToTerm?))
            && (step.Settle? || step.Crash? ==> step.ticket !in Next(s, step).workers && Next(s, step).api == s.api)
  {
  }

  /** However often an event is redelivered, by whomever, and wherever the api dies: no
      endpoint ever gets two rows of it, and once its claim has committed its rows stay as
      they are. */
  lemma NoRowTwice(uuid: string -> bool, steps: seq<Step>, s: Sys, more: seq<Step>, t: Sys, id: string)
    requires Reaches(Init(uuid), steps, s) && Reaches(s, more, t)
    ensures forall i, j :: 0 <= i < j < |t.api.batches| && t.api.batches[i].event == t.api.batches[j].event ==>
              t.api.batches[i].endpoints !! t.api.batches[j].endpoints
    ensures id in s.api.claims ==> id in t.api.claims && RowsOf(t.api, id) == RowsOf(s.api, id)
  {
    RunIsInv(Init(uuid), steps, s);
    RunIsInv(s, more, t);
  }

  /** How often an event was expanded. */
  function Expansions(batches: seq<Batch>, id: string): nat {
    if batches == [] then 0
    else Expansions(batches[..|batches| - 1], id) + if batches[|batches| - 1].event == id then 1 else 0
  }

  lemma ExpansionsOfOneMore(batches: seq<Batch>, batch: Batch, id: string)
    ensures Expansions(batches + [batch], id) == Expansions(batches, id) + if batch.event == id then 1 else 0
  {
    assert (batches + [batch])[..|batches|] == batches;
  }

  lemma {:induction false} NoneExpandedMeansNoRows(batches: seq<Batch>, id: string)
    requires forall i :: 0 <= i < |batches| ==> batches[i].endpoints != {}
    ensures Expansions(batches, id) == 0 <==> RowsIn(batches, id) == {}
  {
    if batches != [] {
      NoneExpandedMeansNoRows(batches[..|batches| - 1], id);
    }
  }

  /** A call that has inserted rows of the event holds its claim open. */
  predicate Expanding(s: Sys, t: Ticket, id: string) {
    HalfwayWith(s, t, id) && s.workers[t].expanded
  }

  ghost predicate BeingExpanded(s: Sys, id: string) {
    exists t :: Expanding(s, t, id)
  }

  /** Each expansion of an unclaimed event died halfway, but for the one under way. */
  ghost predicate Tallied(s: Sys, id: string) {
    var n := Expansions(s.api.batches, id);
    && Deaths(s, id) <= n <= Deaths(s, id) + 1
    && (id !in s.api.claims ==> (n == Deaths(s, id) + 1 <==> BeingExpanded(s, id)))
  }

  lemma BeingExpandedIsUnderWay(s: Sys, id: string)
    ensures BeingExpanded(s, id) ==> UnderWay(s, id)
  {
    if t :| Expanding(s, t, id) {
      assert HalfwayWith(s, t, id);
    }
  }

  /** A call with these bytes inserts rows of this event. */
  predicate Expands(api: Api, bytes: Bytes, id: string) {
    && Parses(bytes) && EnvelopeOf(bytes).id == id
    && InsertRows(api, EnvelopeOf(bytes)).1.Inserted? && Matching(api, EnvelopeOf(bytes)) != {}
  }

  lemma RowsExpand(api: Api, bytes: Bytes, id: string)
    requires Parses(bytes)
    ensures Expansions(InsertRows(api, EnvelopeOf(bytes)).0.batches, id)
            == Expansions(api.batches, id) + if Expands(api, bytes, id) then 1 else 0
  {
    ExpansionsOfOneMore(api.batches, Batch(EnvelopeOf(bytes).id, Matching(api, EnvelopeOf(bytes))), id);
  }

  lemma InsertIsExpanding(s: Sys, t: Ticket, heard: bool, id: string)
    requires t.message < |s.messages|
    ensures Expanding(InsertedBy(s, t, heard), t, id) <==> Expands(s.api, s.messages[t.message].bytes, id)
  {
  }

  /** An insertion expands its own event at most, which nobody has claimed, and then holds its
      claim open. */
  lemma InsertExpands(s: Sys, t: Ticket, heard: bool, id: string)
    requires t.message < |s.messages|
    ensures var u := InsertedBy(s, t, heard);
            && Expansions(u.api.batches, id) == Expansions(s.api.batches, id) + (if Expanding(u, t, id) then 1 else 0)
            && u.api.claims == s.api.claims && u.deaths == s.deaths
  {
    InsertIsExpanding(s, t, heard, id);
    InsertedApi(s, t, heard);
    if Parses(s.messages[t.message].bytes) {
      RowsExpand(s.api, s.messages[t.message].bytes, id);
    }
  }

  lemma ExpandsUnclaimed(s: Sys, t: Ticket, heard: bool, id: string)
    requires Can(s, Insert(t, heard)) && Expanding(InsertedBy(s, t, heard), t, id)
    ensures id !in s.api.claims && !BeingExpanded(s, id)
  {
    InsertIsExpanding(s, t, heard, id);
    BeingExpandedIsUnderWay(s, id);
  }

  /** Which calls expand an event changes only by a call's own step. */
  lemma OthersExpandOn(s: Sys, step: Step, id: string)
    requires Can(s, step) && forall t :: t in s.workers ==> WorkerOk(s, t)
    requires (step.Claim? || step.Die?) ==> s.workers[step.ticket].id != id || !s.workers[step.ticket].expanded
    requires step.Insert? ==> !Expanding(Next(s, step), step.ticket, id)
    ensures BeingExpanded(Next(s, step), id) <==> BeingExpanded(s, id)
  {
    if t :| Expanding(s, t, id) {
      assert WorkerOk(s, t);
      HalfwayStays(s, step, t);
      assert Expanding(Next(s, step), t, id);
    }
    if t :| Expanding(Next(s, step), t, id) {
      HalfwayBefore(s, step, t);
      assert Expanding(s, t, id);
    }
  }

  lemma InsertTallies(s: Sys, t: Ticket, heard: bool, id: string)
    requires Can(s, Insert(t, heard)) && Tallied(s, id) && forall x :: x in s.workers ==> WorkerOk(s, x)
    ensures Tallied(InsertedBy(s, t, heard), id)
  {
    InsertExpands(s, t, heard, id);
    if Expanding(InsertedBy(s, t, heard), t, id) {
      ExpandsUnclaimed(s, t, heard, id);
    } else {
      OthersExpandOn(s, Insert(t, heard), id);
    }
  }

  /** A death ends the only call that was expanding its event. */
  lemma DeathTallies(s: Sys, t: Ticket, id: string)
    requires Can(s, Die(t)) && Tallied(s, id) && OneHolder(s) && forall x :: x in s.workers ==> WorkerOk(s, x)
    ensures Tallied(DiedBy(s, t), id)
  {
    var u := DiedBy(s, t);
    if Expanding(s, t, id) {
      assert WorkerOk(s, t);
      forall other | Expanding(u, other, id) ensures false {
        assert IsHalfway(s, other);
      }
    } else {
      OthersExpandOn(s, Die(t), id);
    }
  }

  lemma StepTallies(s: Sys, step: Step, id: string)
    requires Inv(s) && Can(s, step) && Tallied(s, id)
    ensures Tallied(Next(s, step), id)
  {
    if step.Insert? {
      InsertTallies(s, step.ticket, step.heard, id);
    } else if step.Die? {
      DeathTallies(s, step.ticket, id);
    } else if !step.Claim? || s.workers[step.ticket].id != id {
      OthersExpandOn(s, step, id);
    }
  }

  lemma {:induction false} RunTallies(s: Sys, steps: seq<Step>, t: Sys, id: string)
    requires Inv(s) && Reaches(s, steps, t) && Tallied(s, id)
    ensures Tallied(t, id)
    decreases |steps|
  {
    if steps != [] {
      StepIsInv(s, steps[0]);
      StepTallies(s, steps[0], id);
      RunTallies(Next(s, steps[0]), steps[1..], t, id);
    }
  }

  /** After every run an event has been expanded once more at most than calls for it died
      after inserting rows, however often it is redelivered and whoever subscribes meanwhile;
      while it is unclaimed and no call is under way exactly as often, so then it has rows if
      and only if such a call died. */
  lemma ExpansionsAreDeathsAndOne(uuid: string -> bool, steps: seq<Step>, s: Sys, id: string)
    requires Reaches(Init(uuid), steps, s)
    ensures Deaths(s, id) <= Expansions(s.api.batches, id) <= Deaths(s, id) + 1
    ensures id !in s.api.claims && !UnderWay(s, id) ==>
              Expansions(s.api.batches, id) == Deaths(s, id) && (RowsOf(s.api, id) == {} <==> Deaths(s, id) == 0)
  {
    RunIsInv(Init(uuid), steps, s);
    RunTallies(Init(uuid), steps, s, id);
    NoneExpandedMeansNoRows(s.api.batches, id);
    BeingExpandedIsUnderWay(s, id);
  }

  /** So an event none of whose calls died so is expanded once at most, and has no rows
      before its claim but those of a call under way. */
  lemma OneExpansionPerEvent(uuid: string -> bool, steps: seq<Step>, s: Sys, id: string)
    requires Reaches(Init(uuid), steps, s) && Deaths(s, id) == 0
    ensures Expansions(s.api.batches, id) <= 1
    ensures id !in s.api.claims && !UnderWay(s, id) ==> RowsOf(s.api, id) == {}
  {
    ExpansionsAreDeathsAndOne(uuid, steps, s, id);
  }

  // ---- What the death of the api between the two commits costs ----

  /** An event with rows, no claim, and no call under way. */
  predicate Orphaned(s: Sys, id: string) {
    id !in s.api.claims && !UnderWay(s, id) && RowsOf(s.api, id) != {}
  }

  /** One more delivery of such an event, with the api answering: it is acknowledged if and
      only if none of the endpoints that match now has a row of it; then it is expanded a
      second time if and only if some endpoint matches at all. */
  lemma OrphanIsAckedIffDisjoint(s: Sys, t: Ticket)
    requires Inv(s) && Can(s, Insert(t, true)) && Parses(s.messages[t.message].bytes)
    requires Accepts(s.api, EnvelopeOf(s.messages[t.message].bytes))
            && Orphaned(s, EnvelopeOf(s.messages[t.message].bytes).id)
    ensures var e, u := EnvelopeOf(s.messages[t.message].bytes), Next(s, Insert(t, true));
            && (IsHalfway(u, t) <==> Matching(s.api, e) !! RowsOf(s.api, e.id))
            && (IsHalfway(u, t) ==> ClaimedBy(u, t, true).workers[t] == Decided(ToAck))
            && (!IsHalfway(u, t) ==> u.workers[t] == Decided(ToRetry) && u.api == s.api)
            && (Expansions(u.api.batches, e.id) == Expansions(s.api.batches, e.id) + 1 <==>
                Matching(s.api, e) != {} && Matching(s.api, e) !! RowsOf(s.api, e.id))
  {
    var e := EnvelopeOf(s.messages[t.message].bytes);
    ExpansionsOfOneMore(s.api.batches, Batch(e.id, Matching(s.api, e)), e.id);
  }

  /** Does some endpoint of the event that has a row of it still match? */
  predicate StillMeets(api: Api, e: Envelope) {
    !(Matching(api, e) !! RowsOf(api, e.id))
  }

  /** Every subscription change of this run leaves such an endpoint in place. */
  predicate KeepsMeeting(s: Sys, steps: seq<Step>, e: Envelope)
    decreases |steps|
  {
    && StillMeets(s.api, e)
    && (steps != [] ==> Can(s, steps[0]) && KeepsMeeting(Next(s, steps[0]), steps[1..], e))
  }

  /** All events of this id come in the same envelope. */
  predicate OneEnvelope(s: Sys, e: Envelope) {
    forall i :: 0 <= i < |s.messages| && Parses(s.messages[i].bytes) && EnvelopeOf(s.messages[i].bytes).id == e.id ==>
        EnvelopeOf(s.messages[i].bytes) == e
  }

  predicate AlwaysOneEnvelope(s: Sys, steps: seq<Step>, e: Envelope)
    decreases |steps|
  {
    && OneEnvelope(s, e)
    && (steps != [] ==> Can(s, steps[0]) && AlwaysOneEnvelope(Next(s, steps[0]), steps[1..], e))
  }

  lemma OrphanStaysUntouched(s: Sys, step: Step, e: Envelope, t: Ticket)
    requires Can(s, step) && Orphaned(s, e.id) && StillMeets(s.api, e) && OneEnvelope(s, e)
            && t in Next(s, step).workers
    ensures !HalfwayWith(Next(s, step), t, e.id)
  {
    if t in s.workers {
      assert !HalfwayWith(s, t, e.id);
    }
  }

  lemma OrphanStaysOrphaned(s: Sys, step: Step, e: Envelope)
    requires Can(s, step) && Orphaned(s, e.id) && StillMeets(s.api, e) && OneEnvelope(s, e)
    ensures Orphaned(Next(s, step), e.id) && RowsOf(Next(s, step).api, e.id) == RowsOf(s.api, e.id)
  {
    StepClaims(s, step, e.id);
    assert step.Claim? ==> !HalfwayWith(s, step.ticket, e.id);
    if step.Insert? && Parses(s.messages[step.ticket.message].bytes) {
      var other := EnvelopeOf(s.messages[step.ticket.message].bytes);
      RowsOfOneMore(s.api.batches, Batch(other.id, Matching(s.api, other)), e.id);
    }
    forall t | t in Next(s, step).workers ensures !HalfwayWith(Next(s, step), t, e.id) {
      OrphanStaysUntouched(s, step, e, t);
    }
  }

  /** For as long as one of the endpoints that have its row keeps matching, an orphaned event
      is acknowledged in no run, though its rows are there and are delivered. */
  lemma {:induction false} OrphanIsNeverAcked(s: Sys, steps: seq<Step>, t: Sys, e: Envelope, m: nat)
    requires Inv(s) && Reaches(s, steps, t) && Orphaned(s, e.id)
    requires KeepsMeeting(s, steps, e) && AlwaysOneEnvelope(s, steps, e)
    requires m < |t.messages| && Parses(t.messages[m].bytes) && EnvelopeOf(t.messages[m].bytes) == e
    ensures t.messages[m].settled.Open? && RowsOf(t.api, e.id) == RowsOf(s.api, e.id)
    decreases |steps|
  {
    if steps == [] {
      assert MessageOk(t, t.messages[m]);
    } else {
      StepIsInv(s, steps[0]);
      OrphanStaysOrphaned(s, steps[0], e);
      OrphanIsNeverAcked(Next(s, steps[0]), steps[1..], t, e, m);
    }
  }

  lemma {:induction false} ReachesOn(s: Sys, first: seq<Step>, u: Sys, second: seq<Step>, t: Sys)
    requires Reaches(s, first, u) && Reaches(u, second, t)
    ensures Reaches(s, first + second, t)
    decreases |first|
  {
    if first == [] {
      assert first + second == second;
    } else {
      ReachesOn(Next(s, first[0]), first[1..], u, second, t);
      assert (first + second)[1..] == first[1..] + second;
    }
  }

  lemma OneStep(s: Sys, step: Step)
    requires Can(s, step)
    ensures Reaches(s, [step], Next(s, step))
  {
    assert [step][1..] == [];
  }

  /** One endpoint is subscribed to the event, which one dispatcher has in hand. */
  function InHand(uuid: string -> bool, raw: Json, endpoint: string): Sys
    requires Parses(Decoded(raw))
  {
    var e := EnvelopeOf(Decoded(raw));
    Sys(
      Api(uuid, map[(e.environment, e.kind) := {endpoint}], {}, []),
      [Message(Decoded(raw), 1, Open)],
      map[Ticket(0, 1) := Fetched],
      map[])
  }

  lemma InHandIsReached(uuid: string -> bool, raw: Json, endpoint: string) returns (steps: seq<Step>)
    requires Parses(Decoded(raw))
    ensures Reaches(Init(uuid), steps, InHand(uuid, raw, endpoint))
  {
    var e := EnvelopeOf(Decoded(raw));
    var subscribe := Subscribe(map[(e.environment, e.kind) := {endpoint}]);
    var s1 := Next(Init(uuid), subscribe);
    var s2 := Next(s1, Publish(Decoded(raw)));
    OneStep(Init(uuid), subscribe);
    OneStep(s1, Publish(Decoded(raw)));
    OneStep(s2, Fetch(0));
    assert Next(s2, Fetch(0)) == InHand(uuid, raw, endpoint);
    ReachesOn(Init(uuid), [subscribe], s1, [Publish(Decoded(raw))], s2);
    ReachesOn(Init(uuid), [subscribe] + [Publish(Decoded(raw))], s2, [Fetch(0)], InHand(uuid, raw, endpoint));
    steps := [subscribe] + [Publish(Decoded(raw))] + [Fetch(0)];
  }

  /** Its rows commit, and the api dies before its claim does. */
  lemma DiesInHand(uuid: string -> bool, raw: Json, endpoint: string) returns (t: Sys)
    requires Parses(Decoded(raw)) && Accepts(Init(uuid).api, EnvelopeOf(Decoded(raw)))
    ensures Reaches(InHand(uuid, raw, endpoint), [Insert(Ticket(0, 1), true)] + [Die(Ticket(0, 1))], t)
    ensures t.api.batches == [Batch(EnvelopeOf(Decoded(raw)).id, {endpoint})] && t.api.claims == {}
    ensures t.messages == InHand(uuid, raw, endpoint).messages && t.workers == map[Ticket(0, 1) := Decided(ToRetry)]
    ensures t.api.matching == InHand(uuid, raw, endpoint).api.matching
  {
    var s, ticket := InHand(uuid, raw, endpoint), Ticket(0, 1);
    var u := Next(s, Insert(ticket, true));
    t := Next(u, Die(ticket));
    OneStep(s, Insert(ticket, true));
    OneStep(u, Die(ticket));
    ReachesOn(s, [Insert(ticket, true)], u, [Die(ticket)], t);
  }

  /** A run that orphans an event. Its message is open, and by `OrphanIsNeverAcked` stays so. */
  lemma DeathOrphans(uuid: string -> bool, raw: Json, endpoint: string) returns (steps: seq<Step>, s: Sys)
    requires Parses(Decoded(raw)) && Accepts(Init(uuid).api, EnvelopeOf(Decoded(raw)))
    ensures Reaches(Init(uuid), steps, s)
    ensures var e := EnvelopeOf(Decoded(raw));
            && Orphaned(s, e.id) && RowsOf(s.api, e.id) == {endpoint} && StillMeets(s.api, e) && OneEnvelope(s, e)
            && s.messages == [Message(Decoded(raw), 1, Open)]
  {
    var e := EnvelopeOf(Decoded(raw));
    steps := InHandIsReached(uuid, raw, endpoint);
    s := DiesInHand(uuid, raw, endpoint);
    ReachesOn(
      Init(uuid), steps, InHand(uuid, raw, endpoint), [Insert(Ticket(0, 1), true)] + [Die(Ticket(0, 1))], s);
    steps := steps + ([Insert(Ticket(0, 1), true)] + [Die(Ticket(0, 1))]);
    RowsOfOneMore([], Batch(e.id, {endpoint}), e.id);
    assert [] + [Batch(e.id, {endpoint})] == s.api.batches;
  }

  // ---- What the contract refuses ----

  predicate ContractRefuses(uuid: string -> bool, bytes: Bytes) {
    Parses(bytes) && (!uuid(EnvelopeOf(bytes).id) || EnvelopeOf(bytes).environment == ""
        || EnvelopeOf(bytes).kind == "")
  }

  /** An envelope of three strings that the request schema refuses can never be expanded,
      and yet it is neither terminated nor acknowledged in any run: it comes back until the
      broker gives up. */
  lemma RefusedIsNeverSettled(uuid: string -> bool, steps: seq<Step>, s: Sys, m: nat)
    requires Reaches(Init(uuid), steps, s) && m < |s.messages| && ContractRefuses(uuid, s.messages[m].bytes)
    ensures s.messages[m].settled.Open?
  {
    RunIsInv(Init(uuid), steps, s);
    assert MessageOk(s, s.messages[m]);
  }

  /** One more delivery of a message, on which the api answers and lives. */
  function AfterGoodDelivery(s: Sys, m: nat): Sys
    requires Can(s, Fetch(m))
  {
    var t := Ticket(m, s.messages[m].delivered + 1);
    var u := InsertedBy(FetchedBy(s, m), t, true);
    SettledBy(if IsHalfway(u, t) then ClaimedBy(u, t, true) else u, t, true)
  }

  /** Such a delivery leaves a message open if and only if the contract refuses it, or the
      event is unclaimed and one of the endpoints that match has a row of it. */
  lemma OneGoodDeliverySettles(s: Sys, m: nat)
    requires Can(s, Fetch(m))
    ensures var bytes := s.messages[m].bytes;
            AfterGoodDelivery(s, m).messages[m].settled.Open? <==> Parses(bytes) && !Succeeds(s.api, EnvelopeOf(bytes))
  {
    DecisionIsExact(s.api, s.messages[m].bytes, Heard);
  }
}
