/** One webhook delivery: the api's side of the contract, and the dispatcher's post, then
    report, that never decides anything itself. */
module Delivery {
  import opened Common

  datatype Outcome = Delivered | Rescheduled | DeadLettered | Skipped

  datatype RowState = RowPending | RowDelivered | RowDead

  /** `attempt` is the one due next, or the last one made; `last` is where the schedule of
      this delivery ends. */
  datatype Row = Row(attempt: nat, last: nat, state: RowState)

  /** An outcome as it was written down, with the status it was decided on. */
  datatype Record = Record(delivery: string, attempt: nat, status: Option<int>, outcome: Outcome)

  /** `available` are the deliveries whose endpoint is neither paused nor removed;
      `recorded` is every outcome the api ever wrote down, in order. */
  datatype Api = Api(rows: map<string, Row>, available: set<string>, recorded: seq<Record>)

  /** What `material` names: the row's own attempt, whatever state the row is in. */
  function Material(api: Api, delivery: string): Option<nat> {
    if delivery in api.rows && delivery in api.available then Some(api.rows[delivery].attempt) else None
  }

  /** The outcome of a first report for the attempt that is due. */
  function Decided(row: Row, status: Option<int>): (Row, Outcome) {
    if status.Some? && 200 <= status.value < 300 then (row.(state := RowDelivered), Delivered)
    else if row.attempt < row.last then (row.(attempt := row.attempt + 1), Rescheduled)
    else (row.(state := RowDead), DeadLettered)
  }

  /** A repeat is answered with what was decided the first time, as far as the row tells. */
  function Repeated(row: Row): Outcome {
    match row.state
    case RowDelivered => Delivered
    case RowDead => DeadLettered
    case RowPending => Rescheduled
  }

  /** `reportOutcome`; an unknown delivery is an error the dispatcher hears as a throw. */
  function Report(api: Api, delivery: string, attempt: nat, status: Option<int>): (Api, Option<Outcome>) {
    if delivery !in api.rows then (api, None) else
    var row := api.rows[delivery];
    if row.state != RowPending || row.attempt != attempt then (api, Some(Repeated(row))) else
    var (next, outcome) := Decided(row, status);
    (Api(api.rows[delivery := next], api.available, api.recorded + [Record(delivery, attempt, status, outcome)]),
      Some(outcome))
  }

  predicate HasRecord(api: Api, delivery: string, attempt: nat) {
    exists i :: 0 <= i < |api.recorded| && api.recorded[i].delivery == delivery && api.recorded[i].attempt == attempt
  }

  /** The attempts of a row that have an outcome: all before the due one, and the last one
      too once the row is closed. */
  predicate Past(row: Row, attempt: nat) {
    1 <= attempt && (attempt < row.attempt || (attempt == row.attempt && row.state != RowPending))
  }

  ghost predicate RowsOk(api: Api) {
    && (forall d :: d in api.rows ==> 1 <= api.rows[d].attempt <= api.rows[d].last)
    && (forall d, a: nat :: d in api.rows && Past(api.rows[d], a) ==> HasRecord(api, d, a))
    && (forall i :: 0 <= i < |api.recorded| ==>
          api.recorded[i].delivery in api.rows && Past(api.rows[api.recorded[i].delivery], api.recorded[i].attempt))
    && (forall i, j :: 0 <= i < j < |api.recorded| ==>
          api.recorded[i].delivery != api.recorded[j].delivery || api.recorded[i].attempt != api.recorded[j].attempt)
  }

  /** Rows only move forward, and nothing recorded is ever forgotten. */
  ghost predicate Forward(api: Api, later: Api) {
    && api.recorded <= later.recorded
    && (forall d :: d in api.rows ==>
          && d in later.rows && api.rows[d].attempt <= later.rows[d].attempt
          && forall a: nat :: Past(api.rows[d], a) ==> Past(later.rows[d], a))
  }

  lemma RecordStays(api: Api, later: Api, d: string, attempt: nat)
    requires HasRecord(api, d, attempt) && api.recorded <= later.recorded
    ensures HasRecord(later, d, attempt)
  {
    var i :| 0 <= i < |api.recorded| && api.recorded[i].delivery == d && api.recorded[i].attempt == attempt;
    assert later.recorded[i] == api.recorded[i];
  }

  lemma ReportIsOk(api: Api, d: string, attempt: nat, status: Option<int>)
    requires RowsOk(api)
    ensures RowsOk(Report(api, d, attempt, status).0) && Forward(api, Report(api, d, attempt, status).0)
  {
    var (t, answer) := Report(api, d, attempt, status);
    if t != api {
      assert t.recorded[..|api.recorded|] == api.recorded;
      forall x, a: nat | x in t.rows && Past(t.rows[x], a) ensures HasRecord(t, x, a) {
        if x == d && a == attempt {
          assert t.recorded[|api.recorded|] == Record(d, attempt, status, answer.value);
        } else {
          RecordStays(api, t, x, a);
        }
      }
    }
  }

  /** The customer took it: a status of the 200s. A timeout has no status. */
  predicate Accepted(status: Option<int>) {
    status.Some? && status.value / 100 == 2
  }

  /** The report for the attempt that is due is answered `delivered` if and only if the customer
      took it; otherwise the next attempt is due while the schedule has one, and the delivery
      is dead when it has none. It is written down with its status, and no other row moves. */
  lemma ReportDecides(api: Api, d: string, attempt: nat, status: Option<int>)
    requires d in api.rows && api.rows[d].state.RowPending? && api.rows[d].attempt == attempt
    requires attempt <= api.rows[d].last
    ensures var (t, answer) := Report(api, d, attempt, status);
            var last := api.rows[d].last;
            && answer.Some? && t.available == api.available
            && (answer.value == Delivered <==> Accepted(status))
            && (answer.value == Rescheduled <==> !Accepted(status) && attempt < last)
            && (answer.value == DeadLettered <==> !Accepted(status) && attempt == last)
            && (answer.value == Delivered ==> t.rows == api.rows[d := Row(attempt, last, RowDelivered)])
            && (answer.value == Rescheduled ==> t.rows == api.rows[d := Row(attempt + 1, last, RowPending)])
            && (answer.value == DeadLettered ==> t.rows == api.rows[d := Row(last, last, RowDead)])
            && t.recorded == api.recorded + [Record(d, attempt, status, answer.value)]
  {
  }

  /** Any other report changes nothing and writes nothing down; one for an unknown delivery is
      an error. */
  lemma StaleReportChangesNothing(api: Api, d: string, attempt: nat, status: Option<int>)
    requires d in api.rows ==> !api.rows[d].state.RowPending? || api.rows[d].attempt != attempt
    ensures Report(api, d, attempt, status).0 == api
    ensures Report(api, d, attempt, status).1.Some? <==> d in api.rows
    ensures d in api.rows ==> (Report(api, d, attempt, status).1 == Some(Delivered) <==>
                api.rows[d].state.RowDelivered?)
    ensures d in api.rows ==> (Report(api, d, attempt, status).1 == Some(DeadLettered) <==> api.rows[d].state.RowDead?)
    ensures d in api.rows ==> (Report(api, d, attempt, status).1 == Some(Rescheduled) <==>
                api.rows[d].state.RowPending?)
  {
  }

  /** An answered report of an attempt that `material` once named leaves that attempt with
      an outcome: this one, or the one written down before. */
  lemma AnsweredIsRecorded(api: Api, d: string, attempt: nat, status: Option<int>)
    requires RowsOk(api) && d in api.rows && 1 <= attempt <= api.rows[d].attempt
    ensures Report(api, d, attempt, status).1.Some?
    ensures HasRecord(Report(api, d, attempt, status).0, d, attempt)
  {
    ReportIsOk(api, d, attempt, status);
  }

  /** The schedule advances once per attempt: reporting an attempt again at once, whatever
      status is said, changes nothing and is answered as the first time. */
  lemma ReportTwiceIsReportOnce(api: Api, d: string, attempt: nat, first: Option<int>, second: Option<int>)
    requires RowsOk(api)
    ensures var once := Report(api, d, attempt, first).0;
            Report(once, d, attempt, second) == (once, Report(api, d, attempt, first).1)
  {
  }

  /** What is on record for an attempt that is past is what the row has made of it, and what its
      status and its place in the schedule ask for. */
  ghost predicate OutcomesOk(api: Api) {
    forall i :: 0 <= i < |api.recorded| && api.recorded[i].delivery in api.rows ==>
      OutcomeOk(api.rows[api.recorded[i].delivery], api.recorded[i])
  }

  predicate OutcomeOk(row: Row, r: Record) {
    && (r.attempt < row.attempt ==> r.outcome == Rescheduled)
    && (r.attempt == row.attempt ==> r.outcome == Repeated(row))
    && FollowsStatus(row.last, r)
  }

  /** The outcome is the one its status and the schedule's end call for. */
  predicate FollowsStatus(last: nat, r: Record) {
    && (r.outcome == Delivered <==> Accepted(r.status))
    && (r.outcome == Rescheduled <==> !Accepted(r.status) && r.attempt < last)
    && (r.outcome == DeadLettered <==> !Accepted(r.status) && r.attempt == last)
  }

  lemma ReportKeepsOutcomes(api: Api, d: string, attempt: nat, status: Option<int>)
    requires RowsOk(api) && OutcomesOk(api)
    ensures OutcomesOk(Report(api, d, attempt, status).0)
  {
    var t := Report(api, d, attempt, status).0;
    forall i | 0 <= i < |t.recorded| && t.recorded[i].delivery in t.rows
      ensures OutcomeOk(t.rows[t.recorded[i].delivery], t.recorded[i])
    {
      if i < |api.recorded| {
        assert t.recorded[i] == api.recorded[i];
        assert Past(api.rows[api.recorded[i].delivery], api.recorded[i].attempt);
      }
    }
  }

  /** A repeat is answered with what was decided the first time if and only if the delivery
      has not come to its end at a later attempt. */
  lemma RepeatIsAnsweredAsFirst(api: Api, i: nat, status: Option<int>)
    requires RowsOk(api) && OutcomesOk(api) && i < |api.recorded|
    ensures var past := api.recorded[i];
            Report(api, past.delivery, past.attempt, status).0 == api
    ensures var past := api.recorded[i];
            Report(api, past.delivery, past.attempt, status).1 == Some(past.outcome) <==>
            past.attempt == api.rows[past.delivery].attempt || api.rows[past.delivery].state.RowPending?
  {
    assert Past(api.rows[api.recorded[i].delivery], api.recorded[i].attempt);
    assert OutcomeOk(api.rows[api.recorded[i].delivery], api.recorded[i]);
  }

  // ---- deliverOnce ----

  datatype Job = Job(delivery: string, endpoint: string, event: string, attempt: nat)

  /** What a message decodes to. A job that lacks a field names a delivery or an endpoint
      that does not exist; only the JSON value `null` has no fields to ask for. */
  datatype Body = NotJson | JsonNull | Work(job: Job)

  datatype Phase =
    | Fetched
    | Named(attempt: nat)
    | Posting(attempt: nat)
    | Posted(attempt: nat, status: Option<int>)
    | Finished(outcome: Outcome)
    | Failed

  /** `heard` is false when the api could not be reached. */
  function AfterMaterial(heard: bool, material: Option<nat>): Phase {
    if !heard then Failed
    else if material.None? then Finished(Skipped)
    else Named(material.value)
  }

  function AfterReport(heard: bool, answer: Option<Outcome>): Phase {
    if heard && answer.Some? then Finished(answer.value) else Failed
  }

  /** What others make of the api between our calls. */
  datatype Happening =
    | Told(delivery: string, attempt: nat, status: Option<int>)
    | Paused(delivery: string)
    | Resumed(delivery: string)

  datatype Turn = Turn(others: seq<Happening>, hearing: Hearing, status: Option<int>)

  datatype Post = Post(delivery: string, attempt: nat)

  /** `posts` is every request this dispatcher has sent to a customer. */
  datatype World = World(api: Api, posts: seq<Post>, turns: seq<Turn>)

  function Happen(api: Api, hs: seq<Happening>): Api
    decreases |hs|
  {
    if hs == [] then api
    else match hs[0]
      case Told(d, attempt, status) => Happen(Report(api, d, attempt, status).0, hs[1..])
      case Paused(d) => Happen(api.(available := api.available - {d}), hs[1..])
      case Resumed(d) => Happen(api.(available := api.available + {d}), hs[1..])
  }

  function NextTurn(w: World): Turn {
    if w.turns == [] then Turn([], Answered, Some(200)) else w.turns[0]
  }

  /** The world as our next effect finds it, with its turn used up. */
  function Met(w: World): World {
    World(Happen(w.api, NextTurn(w).others), w.posts, if w.turns == [] then [] else w.turns[1..])
  }

  function MaterialRun(w: World, delivery: string): (World, Phase) {
    (Met(w), AfterMaterial(NextTurn(w).hearing == Answered, Material(Met(w).api, delivery)))
  }

  /** A timeout or a refused connection is a status of `None`; it never throws. */
  function PostRun(w: World, delivery: string, attempt: nat): (World, Phase) {
    (Met(w).(posts := w.posts + [Post(delivery, attempt)]), Posted(attempt, NextTurn(w).status))
  }

  function ReportRun(w: World, delivery: string, attempt: nat, status: Option<int>): (World, Phase) {
    var (told, answer) := Report(Met(w).api, delivery, attempt, status);
    var after := if NextTurn(w).hearing == NeverRan then Met(w) else Met(w).(api := told);
    (after, AfterReport(NextTurn(w).hearing == Answered, answer))
  }

  /** `Finished` is a normal return, `Failed` a throw. */
  function DeliverRun(w: World, job: Job): (World, Phase) {
    var (w1, p1) := MaterialRun(w, job.delivery);
    if !p1.Named? then (w1, p1) else
    var (w2, p2) := PostRun(w1, job.delivery, p1.attempt);
    ReportRun(w2, job.delivery, p1.attempt, p2.status)
  }

  class Deliverer {
    var api: Api
    var posts: seq<Post>
    var turns: seq<Turn>

    ghost function Now(): World reads this { World(api, posts, turns) }

    constructor (api: Api, turns: seq<Turn>)
      ensures Now() == World(api, [], turns)
    {
      this.api, posts, this.turns := api, [], turns;
    }

    method TakeTurn() returns (turn: Turn)
      modifies this
      ensures turn == NextTurn(old(Now())) && Now() == Met(old(Now()))
    {
      turn := NextTurn(World(api, posts, turns));
      api := Happen(api, turn.others);
      turns := if turns == [] then [] else turns[1..];
    }

    /** Signs and posts with `material.attempt`; what the job said of its attempt is not
        used for anything. */
    method DeliverOnce(job: Job) returns (end: Phase)
      modifies this
      ensures (Now(), end) == DeliverRun(old(Now()), job)
      ensures end.Finished? || end.Failed?
    {
      var asked := TakeTurn();
      var material := Material(api, job.delivery);
      if asked.hearing != Answered { return Failed; }
      if material.None? { return Finished(Skipped); }
      var attempt := material.value;

      var sent := TakeTurn();
      posts := posts + [Post(job.delivery, attempt)];

      var told := TakeTurn();
      var (after, answer) := Report(api, job.delivery, attempt, sent.status);
      if told.hearing != NeverRan { api := after; }
      if told.hearing != Answered || answer.None? { return Failed; }
      return Finished(answer.value);
    }
  }

  lemma ForwardForward(a: Api, b: Api, c: Api)
    requires Forward(a, b) && Forward(b, c)
    ensures Forward(a, c)
  {
  }

  lemma {:induction false} HappenIsOk(api: Api, hs: seq<Happening>)
    requires RowsOk(api)
    ensures RowsOk(Happen(api, hs)) && Forward(api, Happen(api, hs))
    decreases |hs|
  {
    if hs != [] {
      match hs[0]
      case Told(d, attempt, status) =>
        ReportIsOk(api, d, attempt, status);
        HappenIsOk(Report(api, d, attempt, status).0, hs[1..]);
        ForwardForward(api, Report(api, d, attempt, status).0, Happen(api, hs));
      case Paused(d) =>
        AvailabilityIsOk(api, api.available - {d});
        HappenIsOk(api.(available := api.available - {d}), hs[1..]);
        ForwardForward(api, api.(available := api.available - {d}), Happen(api, hs));
      case Resumed(d) =>
        AvailabilityIsOk(api, api.available + {d});
        HappenIsOk(api.(available := api.available + {d}), hs[1..]);
        ForwardForward(api, api.(available := api.available + {d}), Happen(api, hs));
    }
  }

  lemma AvailabilityIsOk(api: Api, available: set<string>)
    requires RowsOk(api)
    ensures RowsOk(api.(available := available)) && Forward(api, api.(available := available))
  {
    forall d, a: nat | d in api.rows && Past(api.rows[d], a) ensures HasRecord(api.(available := available), d, a) {
      assert HasRecord(api, d, a);
    }
  }

  lemma NamedIsRecorded(w: World, job: Job)
    requires RowsOk(w.api) && MaterialRun(w, job.delivery).1.Named?
    ensures var (t, end) := DeliverRun(w, job);
            && RowsOk(t.api) && Forward(w.api, t.api)
            && end != Finished(Skipped)
            && (end.Finished? ==> HasRecord(t.api, job.delivery, MaterialRun(w, job.delivery).1.attempt))
  {
    var (w1, p1) := MaterialRun(w, job.delivery);
    var (w2, p2) := PostRun(w1, job.delivery, p1.attempt);
    HappenIsOk(w.api, NextTurn(w).others);
    HappenIsOk(w1.api, NextTurn(w1).others);
    HappenIsOk(w2.api, NextTurn(w2).others);
    ForwardForward(w.api, w1.api, w2.api);
    ForwardForward(w.api, w2.api, Met(w2).api);
    ReportIsOk(Met(w2).api, job.delivery, p1.attempt, p2.status);
    AnsweredIsRecorded(Met(w2).api, job.delivery, p1.attempt, p2.status);
    ForwardForward(w.api, Met(w2).api, DeliverRun(w, job).0.api);
    OutcomeIsNotSkipped(Met(w2).api, job.delivery, p1.attempt, p2.status);
  }

  /** One run of `deliverOnce`, with anything going on beside it: it posts once if the api
      named an attempt and not at all otherwise; when it returns an outcome, the attempt it
      posted has one on record. */
  lemma PostsThenRecords(w: World, job: Job)
    requires RowsOk(w.api)
    ensures var (t, end) := DeliverRun(w, job);
            var named := MaterialRun(w, job.delivery).1;
            && RowsOk(t.api) && Forward(w.api, t.api)
            && t.posts == w.posts + (if named.Named? then [Post(job.delivery, named.attempt)] else [])
            && (end == Finished(Skipped) <==> named == Finished(Skipped))
            && (end.Finished? && end.outcome != Skipped ==>
                named.Named? && HasRecord(t.api, job.delivery, named.attempt))
  {
    if MaterialRun(w, job.delivery).1.Named? {
      NamedIsRecorded(w, job);
    } else {
      HappenIsOk(w.api, NextTurn(w).others);
    }
  }

  /** It posts if and only if it hears from the api, which then has the delivery with its
      endpoint available, and posts the attempt the row stands at. */
  lemma PostsWhatIsDue(w: World, job: Job)
    ensures var posts, d := DeliverRun(w, job).0.posts, job.delivery;
            var found := Met(w).api;
            && (posts == w.posts <==>
                !(NextTurn(w).hearing.Answered? && d in found.rows && d in found.available))
            && (posts != w.posts ==> posts == w.posts + [Post(d, found.rows[d].attempt)])
            && (DeliverRun(w, job).1 == Finished(Skipped) <==>
                NextTurn(w).hearing.Answered? && !(d in found.rows && d in found.available))
  {
    if MaterialRun(w, job.delivery).1.Named? {
      var (w1, p1) := MaterialRun(w, job.delivery);
      var (w2, p2) := PostRun(w1, job.delivery, p1.attempt);
      OutcomeIsNotSkipped(Met(w2).api, job.delivery, p1.attempt, p2.status);
    }
  }

  /** Having posted, it returns what the api answers to the status its POST ended with: while the
      attempt is still due, `delivered` exactly when the customer took it. */
  lemma ReturnsTheAnswer(w: World, job: Job)
    requires RowsOk(w.api) && MaterialRun(w, job.delivery).1.Named?
    ensures var w1, a := MaterialRun(w, job.delivery).0, MaterialRun(w, job.delivery).1.attempt;
            var w2, status, end := Met(w1), NextTurn(w1).status, DeliverRun(w, job).1;
            var found := Met(w2).api;
            && job.delivery in found.rows
            && (end.Finished? <==> NextTurn(w2).hearing.Answered?)
            && (end.Finished? && found.rows[job.delivery].state.RowPending? && found.rows[job.delivery].attempt == a ==>
                (end.outcome == Delivered <==> Accepted(status)))
  {
    var (w1, p1) := MaterialRun(w, job.delivery);
    var (w2, p2) := PostRun(w1, job.delivery, p1.attempt);
    HappenIsOk(w.api, NextTurn(w).others);
    HappenIsOk(w1.api, NextTurn(w1).others);
    HappenIsOk(w2.api, NextTurn(w2).others);
    if Met(w2).api.rows[job.delivery].state.RowPending? && Met(w2).api.rows[job.delivery].attempt == p1.attempt {
      ReportDecides(Met(w2).api, job.delivery, p1.attempt, p2.status);
    }
  }

  lemma OutcomeIsNotSkipped(api: Api, d: string, attempt: nat, status: Option<int>)
    ensures Report(api, d, attempt, status).1 != Some(Skipped)
  {
  }

  /** It throws only when the api could not be heard: whatever status the customer answers,
      and none, is a normal input. */
  lemma ThrowsOnlyForTheApi(w: World, job: Job)
    requires RowsOk(w.api) && DeliverRun(w, job).1.Failed?
    ensures var w1 := MaterialRun(w, job.delivery).0;
            NextTurn(w).hearing != Answered
                || (MaterialRun(w, job.delivery).1.Named? && NextTurn(Met(w1)).hearing != Answered)
  {
    var (w1, p1) := MaterialRun(w, job.delivery);
    HappenIsOk(w.api, NextTurn(w).others);
    if p1.Named? {
      var w2 := PostRun(w1, job.delivery, p1.attempt).0;
      HappenIsOk(w1.api, NextTurn(w1).others);
      HappenIsOk(w2.api, NextTurn(w2).others);
    }
  }
}
