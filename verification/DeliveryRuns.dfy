/** The broker, the dispatchers and the api together: messages are fetched, worked on by
    processes that may die at any point, redelivered up to the broker's limit, and settled
    by acknowledgements that may themselves be lost. */
module DeliveryRuns {
  import opened Common
  import opened Delivery

  const MAX_DELIVER: nat := 10

  /** One delivery of one message by the broker: which message, and the how-manieth time. */
  datatype Ticket = Ticket(message: nat, delivery: nat)

  datatype Settled = Open | Acked(ticket: Ticket) | Termed

  datatype Message = Message(body: Body, delivered: nat, settled: Settled)

  /** `answer` remembers what this worker heard from `material`: nothing yet, null, or an
      attempt. */
  datatype Worker = Worker(job: Job, phase: Phase, answer: Option<Option<nat>>)

  datatype Sent = Sent(ticket: Ticket, post: Post)

  /** A POST that has ended, and with which status. */
  datatype Ended = Ended(sent: Sent, status: Option<int>)

  datatype Sys = Sys(
    api: Api,
    messages: seq<Message>,
    workers: map<Ticket, Worker>,
    posts: seq<Sent>,
    ends: seq<Ended>)

  datatype Step =
    | AddRow(delivery: string, last: nat)
    | SetAvailable(available: set<string>)
    | Publish(body: Body)
    | Fetch(message: nat)
    | Term(message: nat, reaches: bool)
    | AskMaterial(ticket: Ticket, hearing: Hearing)
    | StartPost(ticket: Ticket)
    | EndPost(ticket: Ticket, status: Option<int>)
    | TellOutcome(ticket: Ticket, hearing: Hearing)
    | Ack(ticket: Ticket, reaches: bool)
    | Crash(ticket: Ticket)

  function Init(): Sys {
    Sys(Api(map[], {}, []), [], map[], [], [])
  }

  predicate Works(s: Sys, t: Ticket) {
    t in s.workers && t.message < |s.messages|
  }

  /** The broker hands out a message again whenever it is not settled, however many
      workers are still at it, until its limit. */
  predicate Fetchable(s: Sys, m: nat) {
    m < |s.messages| && s.messages[m].settled.Open? && s.messages[m].delivered < MAX_DELIVER
  }

  predicate Can(s: Sys, step: Step) {
    match step
    case AddRow(d, last) => d !in s.api.rows && last >= 1
    case SetAvailable(_) => true
    case Publish(_) => true
    case Fetch(m) => Fetchable(s, m)
    case Term(m, _) => m < |s.messages| && s.messages[m].body.NotJson? && s.messages[m].delivered > 0
    case AskMaterial(t, _) => Works(s, t) && s.workers[t].phase.Fetched?
    case StartPost(t) => Works(s, t) && s.workers[t].phase.Named?
    case EndPost(t, _) => Works(s, t) && s.workers[t].phase.Posting?
    case TellOutcome(t, _) => Works(s, t) && s.workers[t].phase.Posted?
    case Ack(t, _) => Works(s, t) && s.workers[t].phase.Finished?
    case Crash(t) => Works(s, t)
  }

  function Fetched(s: Sys, m: nat): Sys
    requires Fetchable(s, m)
  {
    var message := s.messages[m].(delivered := s.messages[m].delivered + 1);
    var ticket := Ticket(m, message.delivered);
    var workers :=
      if message.body.Work? then s.workers[ticket := Worker(message.body.job, Phase.Fetched, None)] else s.workers;
    s.(messages := s.messages[m := message], workers := workers)
  }

  function AtPhase(s: Sys, t: Ticket, phase: Phase): Sys
    requires Works(s, t)
  {
    s.(workers := s.workers[t := s.workers[t].(phase := phase)])
  }

  function Asked(s: Sys, t: Ticket, hearing: Hearing): Sys
    requires Works(s, t)
  {
    var material := Material(s.api, s.workers[t].job.delivery);
    var phase := AfterMaterial(hearing == Answered, material);
    var answer := if hearing == Answered then Some(material) else None;
    s.(workers := s.workers[t := s.workers[t].(phase := phase, answer := answer)])
  }

  function Started(s: Sys, t: Ticket): Sys
    requires Works(s, t) && s.workers[t].phase.Named?
  {
    var w := s.workers[t];
    AtPhase(s, t, Posting(w.phase.attempt)).(posts := s.posts + [Sent(t, Post(w.job.delivery, w.phase.attempt))])
  }

  function Stopped(s: Sys, t: Ticket, status: Option<int>): Sys
    requires Works(s, t) && s.workers[t].phase.Posting?
  {
    var w := s.workers[t];
    var sent := Sent(t, Post(w.job.delivery, w.phase.attempt));
    AtPhase(s, t, Posted(w.phase.attempt, status)).(ends := s.ends + [Ended(sent, status)])
  }

  function Told(s: Sys, t: Ticket, hearing: Hearing): Sys
    requires Works(s, t) && s.workers[t].phase.Posted?
  {
    var w := s.workers[t];
    var (api, answer) := Report(s.api, w.job.delivery, w.phase.attempt, w.phase.status);
    AtPhase(s, t, AfterReport(hearing == Answered, answer)).(api := if hearing == NeverRan then s.api else api)
  }

  function SettledAs(s: Sys, m: nat, settled: Settled): Sys
    requires m < |s.messages|
  {
    s.(messages := s.messages[m := s.messages[m].(settled := settled)])
  }

  function Next(s: Sys, step: Step): Sys
    requires Can(s, step)
  {
    match step
    case AddRow(d, last) => s.(api := s.api.(rows := s.api.rows[d := Row(1, last, RowPending)]))
    case SetAvailable(available) => s.(api := s.api.(available := available))
    case Publish(body) => s.(messages := s.messages + [Message(body, 0, Open)])
    case Fetch(m) => Fetched(s, m)
    case Term(m, reaches) => if reaches && s.messages[m].settled.Open? then SettledAs(s, m, Termed) else s
    case AskMaterial(t, hearing) => Asked(s, t, hearing)
    case StartPost(t) => Started(s, t)
    case EndPost(t, status) => Stopped(s, t, status)
    case TellOutcome(t, hearing) => Told(s, t, hearing)
    case Ack(t, reaches) =>
      if reaches && s.messages[t.message].settled.Open? then SettledAs(s, t.message, Acked(t)) else s
    case Crash(t) => AtPhase(s, t, Failed)
  }

  predicate Reaches(s: Sys, steps: seq<Step>, t: Sys)
    decreases |steps|
  {
    if steps == [] then s == t
    else Can(s, steps[0]) && Reaches(Next(s, steps[0]), steps[1..], t)
  }

  /** The worker's part of a state in which others have brought the api to this. */
  function With(s: Sys, api: Api): Sys {
    s.(api := api)
  }

  /** Whatever others do to the api between its calls, a worker goes through `deliverOnce`:
      the same calls, the same POST, the same end. */
  lemma WorkerRunsDeliverOnce(s: Sys, t: Ticket, w: World)
    requires Works(s, t) && s.workers[t].phase.Fetched?
    ensures var job := s.workers[t].job;
            var (end, phase) := DeliverRun(w, job);
            var asked := Asked(With(s, Met(w).api), t, NextTurn(w).hearing);
            if !asked.workers[t].phase.Named? then
              phase == asked.workers[t].phase && end.api == asked.api && end.posts == w.posts
            else
              var w2 := Met(w);
              var w3 := Met(w2);
              var a := asked.workers[t].phase.attempt;
              var posted := Stopped(Started(With(asked, w2.api), t), t, NextTurn(w2).status);
              var told := Told(With(posted, Met(w3).api), t, NextTurn(w3).hearing);
              && posted.posts == s.posts + [Sent(t, Post(job.delivery, a))]
                  && end.posts == w.posts + [Post(job.delivery, a)]
              && phase == told.workers[t].phase && end.api == told.api
  {
  }

  // ---- What is true of every reachable state ----

  /** The attempt `material` named to this worker has an outcome on record, or `material`
      answered null. */
  ghost predicate Handled(s: Sys, w: Worker) {
    && w.answer.Some?
    && (w.answer.value.Some? ==> HasRecord(s.api, w.job.delivery, w.answer.value.value))
  }

  ghost predicate WorkerOk(s: Sys, t: Ticket, w: Worker) {
    && t.message < |s.messages|
    && s.messages[t.message].body == Work(w.job)
    && 1 <= t.delivery <= s.messages[t.message].delivered
    && (w.answer.Some? && w.answer.value.Some? ==>
          w.job.delivery in s.api.rows && 1 <= w.answer.value.value <= s.api.rows[w.job.delivery].attempt)
    && (w.phase.Named? || w.phase.Posting? || w.phase.Posted? ==> w.answer == Some(Some(w.phase.attempt)))
    && (w.phase.Finished? ==> Handled(s, w))
  }

  ghost predicate WorkersOk(s: Sys) {
    forall t :: t in s.workers ==> WorkerOk(s, t, s.workers[t])
  }

  ghost predicate MessageOk(s: Sys, m: nat, message: Message) {
    && message.delivered <= MAX_DELIVER
    && (message.settled.Termed? ==> message.body.NotJson?)
    && (message.settled.Acked? ==>
          && message.settled.ticket.message == m && message.settled.ticket in s.workers
          && (s.workers[message.settled.ticket].phase.Finished? || s.workers[message.settled.ticket].phase.Failed?)
          && Handled(s, s.workers[message.settled.ticket]))
  }

  ghost predicate MessagesOk(s: Sys) {
    forall m: nat :: m < |s.messages| ==> MessageOk(s, m, s.messages[m])
  }

  /** Every POST belongs to one worker, which has got past posting; no worker posts twice. */
  predicate PostOk(s: Sys, sent: Sent) {
    && sent.ticket in s.workers
    && var w := s.workers[sent.ticket];
    && w.answer == Some(Some(sent.post.attempt)) && w.job.delivery == sent.post.delivery
    && !w.phase.Fetched? && !w.phase.Named?
  }

  ghost predicate PostsOk(s: Sys) {
    && (forall i :: 0 <= i < |s.posts| ==> PostOk(s, s.posts[i]))
    && (forall i, j :: 0 <= i < j < |s.posts| ==> s.posts[i].ticket != s.posts[j].ticket)
  }

  predicate WasPosted(s: Sys, p: Post) {
    exists i :: 0 <= i < |s.posts| && s.posts[i].post == p
  }

  /** What has been posted stays in the log; a worker that is past the POST made one. */
  ghost predicate FromPosts(s: Sys) {
    && (forall i :: 0 <= i < |s.api.recorded| ==>
        WasPosted(s, Post(s.api.recorded[i].delivery, s.api.recorded[i].attempt)))
    && (forall t :: t in s.workers && (s.workers[t].phase.Posting? || s.workers[t].phase.Posted?) ==>
          WasPosted(s, Post(s.workers[t].job.delivery, s.workers[t].phase.attempt)))
  }

  ghost predicate Inv(s: Sys) {
    RowsOk(s.api) && OutcomesOk(s.api) && WorkersOk(s) && MessagesOk(s) && PostsOk(s) && FromPosts(s)
  }

  lemma HandledStays(s: Sys, t: Sys, w: Worker)
    requires Handled(s, w) && s.api.recorded <= t.api.recorded
    ensures Handled(t, w)
  {
    if w.answer.value.Some? {
      var i :| 0 <= i < |s.api.recorded| && s.api.recorded[i].delivery == w.job.delivery
          && s.api.recorded[i].attempt == w.answer.value.value;
      assert t.api.recorded[i] == s.api.recorded[i];
    }
  }

  lemma PostedStays(s: Sys, t: Sys, p: Post)
    requires WasPosted(s, p) && s.posts <= t.posts
    ensures WasPosted(t, p)
  {
    var i :| 0 <= i < |s.posts| && s.posts[i].post == p;
    assert t.posts[i] == s.posts[i];
  }

  /** Steps never take back a record, a POST, a message, or a delivery count. */
  ghost predicate Onward(s: Sys, t: Sys) {
    && Forward(s.api, t.api)
    && s.posts <= t.posts
    && |s.messages| <= |t.messages|
    && (forall m: nat :: m < |s.messages| ==>
        t.messages[m].body == s.messages[m].body && s.messages[m].delivered <= t.messages[m].delivered)
  }

  lemma WorkerStays(s: Sys, u: Sys, t: Ticket, w: Worker)
    requires WorkerOk(s, t, w) && Onward(s, u)
    ensures WorkerOk(u, t, w)
  {
    if w.phase.Finished? {
      HandledStays(s, u, w);
    }
  }

  lemma StepIsOnward(s: Sys, step: Step)
    requires RowsOk(s.api) && Can(s, step)
    ensures Onward(s, Next(s, step)) && RowsOk(Next(s, step).api)
  {
    match step
    case AddRow(d, last) => RowAddedIsOk(s.api, d, last);
    case SetAvailable(available) => AvailabilityIsOk(s.api, available);
    case TellOutcome(t, _) => ReportIsOk(s.api, s.workers[t].job.delivery, s.workers[t].phase.attempt,
        s.workers[t].phase.status);
    case _ =>
  }

  lemma StepKeepsOutcomes(s: Sys, step: Step)
    requires RowsOk(s.api) && OutcomesOk(s.api) && Can(s, step)
    ensures OutcomesOk(Next(s, step).api)
  {
    if step.TellOutcome? {
      ReportKeepsOutcomes(s.api, s.workers[step.ticket].job.delivery, s.workers[step.ticket].phase.attempt,
          s.workers[step.ticket].phase.status);
    }
  }

  lemma RowAddedIsOk(api: Api, d: string, last: nat)
    requires RowsOk(api) && d !in api.rows && last >= 1
    ensures RowsOk(api.(rows := api.rows[d := Row(1, last, RowPending)]))
            && Forward(api, api.(rows := api.rows[d := Row(1, last, RowPending)]))
  {
    var later := api.(rows := api.rows[d := Row(1, last, RowPending)]);
    forall x, a: nat | x in later.rows && Past(later.rows[x], a) ensures HasRecord(later, x, a) {
      assert HasRecord(api, x, a);
    }
  }

  lemma TellIsHandled(s: Sys, t: Ticket, hearing: Hearing)
    requires RowsOk(s.api) && Can(s, TellOutcome(t, hearing)) && WorkerOk(s, t, s.workers[t])
    requires Told(s, t, hearing).workers[t].phase.Finished?
    ensures Handled(Told(s, t, hearing), Told(s, t, hearing).workers[t])
  {
    var w := s.workers[t];
    AnsweredIsRecorded(s.api, w.job.delivery, w.phase.attempt, w.phase.status);
  }

  /** What one step can do to one worker: it may be new, or hear `material`, or move on
      with what it heard. */
  predicate Moved(before: Worker, after: Worker) {
    && after.job == before.job
    && (after.answer == before.answer || before.phase.Fetched?)
    && (before.phase.Finished? || before.phase.Failed? ==> after == before || after.phase.Failed?)
    && (after.phase.Fetched? || after.phase.Named? ==> after == before || before.phase.Fetched?)
  }

  lemma StepMovesWorker(s: Sys, step: Step, t: Ticket)
    requires Can(s, step) && t in s.workers && (step.Fetch? ==> WorkerOk(s, t, s.workers[t]))
    ensures t in Next(s, step).workers && Moved(s.workers[t], Next(s, step).workers[t])
  {
  }

  lemma StepKeepsWorker(s: Sys, step: Step, t: Ticket)
    requires RowsOk(s.api) && Can(s, step) && Onward(s, Next(s, step)) && t in Next(s, step).workers
    requires t in s.workers ==> WorkerOk(s, t, s.workers[t])
    ensures WorkerOk(Next(s, step), t, Next(s, step).workers[t])
  {
    var u := Next(s, step);
    if t in s.workers {
      WorkerStays(s, u, t, s.workers[t]);
      if step.TellOutcome? && step.ticket == t && u.workers[t].phase.Finished? {
        TellIsHandled(s, t, step.hearing);
      }
    }
  }

  lemma StepKeepsMessage(s: Sys, step: Step, m: nat)
    requires WorkersOk(s) && Can(s, step) && Onward(s, Next(s, step)) && m < |Next(s, step).messages|
    requires m < |s.messages| ==> MessageOk(s, m, s.messages[m])
    ensures MessageOk(Next(s, step), m, Next(s, step).messages[m])
  {
    var u := Next(s, step);
    if m < |s.messages| {
      if s.messages[m].settled.Acked? {
        var t := s.messages[m].settled.ticket;
        assert WorkerOk(s, t, s.workers[t]);
        StepMovesWorker(s, step, t);
        HandledStays(s, u, s.workers[t]);
      }
      if step.Ack? && step.ticket.message == m {
        assert WorkerOk(s, step.ticket, s.workers[step.ticket]);
      }
    }
  }

  lemma StepKeepsPosts(s: Sys, step: Step)
    requires WorkersOk(s) && PostsOk(s) && Can(s, step)
    ensures PostsOk(Next(s, step))
  {
    var u := Next(s, step);
    forall i | 0 <= i < |s.posts| ensures PostOk(u, s.posts[i]) {
      var t := s.posts[i].ticket;
      assert PostOk(s, s.posts[i]) && WorkerOk(s, t, s.workers[t]);
      StepMovesWorker(s, step, t);
    }
    if step.StartPost? {
      assert WorkerOk(s, step.ticket, s.workers[step.ticket]);
      assert u.posts == s.posts + [u.posts[|s.posts|]];
    } else {
      assert u.posts == s.posts;
    }
  }

  lemma RecordsFromPosts(s: Sys, step: Step, i: nat)
    requires FromPosts(s) && Can(s, step) && Onward(s, Next(s, step)) && i < |Next(s, step).api.recorded|
    ensures WasPosted(Next(s, step),
            Post(Next(s, step).api.recorded[i].delivery, Next(s, step).api.recorded[i].attempt))
  {
    var u := Next(s, step);
    if i < |s.api.recorded| {
      assert u.api.recorded[i] == s.api.recorded[i];
      PostedStays(s, u, Post(s.api.recorded[i].delivery, s.api.recorded[i].attempt));
    } else {
      PostedStays(s, u, Post(s.workers[step.ticket].job.delivery, s.workers[step.ticket].phase.attempt));
    }
  }

  lemma WorkersFromPosts(s: Sys, step: Step, t: Ticket)
    requires FromPosts(s) && Can(s, step) && Onward(s, Next(s, step)) && t in Next(s, step).workers
    requires Next(s, step).workers[t].phase.Posting? || Next(s, step).workers[t].phase.Posted?
    ensures WasPosted(Next(s, step),
            Post(Next(s, step).workers[t].job.delivery, Next(s, step).workers[t].phase.attempt))
  {
    var u := Next(s, step);
    if step.StartPost? && step.ticket == t {
      assert u.posts[|s.posts|].post == Post(u.workers[t].job.delivery, u.workers[t].phase.attempt);
    } else {
      PostedStays(s, u, Post(s.workers[t].job.delivery, s.workers[t].phase.attempt));
    }
  }

  lemma StepIsInv(s: Sys, step: Step)
    requires Inv(s) && Can(s, step)
    ensures Inv(Next(s, step))
  {
    var u := Next(s, step);
    StepIsOnward(s, step);
    StepKeepsOutcomes(s, step);
    forall t | t in u.workers ensures WorkerOk(u, t, u.workers[t]) {
      StepKeepsWorker(s, step, t);
    }
    forall m: nat | m < |u.messages| ensures MessageOk(u, m, u.messages[m]) {
      StepKeepsMessage(s, step, m);
    }
    StepKeepsPosts(s, step);
    forall i | 0 <= i < |u.api.recorded|
      ensures WasPosted(u, Post(u.api.recorded[i].delivery, u.api.recorded[i].attempt))
    {
      RecordsFromPosts(s, step, i);
    }
    forall t | t in u.workers && (u.workers[t].phase.Posting? || u.workers[t].phase.Posted?)
      ensures WasPosted(u, Post(u.workers[t].job.delivery, u.workers[t].phase.attempt))
    {
      WorkersFromPosts(s, step, t);
    }
  }

  lemma {:induction false} RunIsInv(s: Sys, steps: seq<Step>, t: Sys)
    requires Inv(s) && Reaches(s, steps, t)
    ensures Inv(t)
    decreases |steps|
  {
    if steps != [] {
      StepIsInv(s, steps[0]);
      RunIsInv(Next(s, steps[0]), steps[1..], t);
    }
  }

  // ---- The guarantees ----

  /** No delivery is silently lost: however processes die, calls fail and messages come
      back, an acknowledged message was decoded and its worker either had `material` answer
      null or left the attempt `material` named with an outcome on record; a terminated one
      was not even JSON; and any other is still with the broker or was handed out ten times. */
  lemma NothingIsSilentlyLost(steps: seq<Step>, s: Sys, m: nat)
    requires Reaches(Init(), steps, s) && m < |s.messages|
    ensures match s.messages[m].settled
      case Acked(t) =>
        && t.message == m && t in s.workers && s.messages[m].body == Work(s.workers[t].job)
        && s.workers[t].answer.Some?
        && (s.workers[t].answer.value.Some? ==>
            HasRecord(s.api, s.workers[t].job.delivery, s.workers[t].answer.value.value))
      case Termed => s.messages[m].body.NotJson?
      case Open => Fetchable(s, m) || s.messages[m].delivered == 10
  {
    RunIsInv(Init(), steps, s);
    assert MessageOk(s, m, s.messages[m]);
    if s.messages[m].settled.Acked? {
      assert WorkerOk(s, s.messages[m].settled.ticket, s.workers[s.messages[m].settled.ticket]);
    }
  }

  /** This step tells the broker to settle the message so, and reaches it. */
  predicate Settles(s: Sys, step: Step, m: nat, settled: Settled) {
    || (step == Term(m, true) && settled == Termed)
    || (step.Ack? && step.reaches && step.ticket.message == m && settled == Acked(step.ticket))
  }

  /** A message is settled exactly by the first acknowledgement or termination of it that
      reaches the broker; one that is lost leaves it open. */
  lemma StepSettles(s: Sys, step: Step, m: nat, settled: Settled)
    requires Can(s, step) && m < |s.messages| && !settled.Open?
    ensures Next(s, step).messages[m].settled == settled <==>
            s.messages[m].settled == settled || (s.messages[m].settled.Open? && Settles(s, step, m, settled))
  {
  }

  /** And stays as it was settled in every run. */
  lemma {:induction false} SettlementsStand(s: Sys, steps: seq<Step>, t: Sys, m: nat)
    requires Reaches(s, steps, t) && m < |s.messages| && !s.messages[m].settled.Open?
    ensures m < |t.messages| && t.messages[m].settled == s.messages[m].settled
    decreases |steps|
  {
    if steps != [] {
      StepSettles(s, steps[0], m, s.messages[m].settled);
      SettlementsStand(Next(s, steps[0]), steps[1..], t, m);
    }
  }

  /** The JSON value `null` is neither: no run ever settles it. */
  lemma NullIsNeverSettled(steps: seq<Step>, s: Sys, m: nat)
    requires Reaches(Init(), steps, s) && m < |s.messages| && s.messages[m].body.JsonNull?
    ensures s.messages[m].settled.Open?
  {
    NothingIsSilentlyLost(steps, s, m);
  }

  /** How often a message was handed out at which a POST was made. */
  function PostedDeliveries(s: Sys, m: nat): set<nat> {
    set i | 0 <= i < |s.posts| && s.posts[i].ticket.message == m :: s.posts[i].ticket.delivery
  }

  /** A crash can only repeat a POST, at most once per delivery by the broker: the tickets
      in the log are all different, and one message causes at most ten. */
  lemma AtMostOnePostPerDelivery(steps: seq<Step>, s: Sys, m: nat)
    requires Reaches(Init(), steps, s)
    ensures forall i, j :: 0 <= i < j < |s.posts| ==> s.posts[i].ticket != s.posts[j].ticket
    ensures |PostedDeliveries(s, m)| <= 10
  {
    RunIsInv(Init(), steps, s);
    var room := Below(MAX_DELIVER + 1) - {0};
    forall n | n in PostedDeliveries(s, m) ensures n in room {
      var i :| 0 <= i < |s.posts| && s.posts[i].ticket.message == m && s.posts[i].ticket.delivery == n;
      assert PostOk(s, s.posts[i]) && WorkerOk(s, s.posts[i].ticket, s.workers[s.posts[i].ticket]);
      assert MessageOk(s, m, s.messages[m]);
    }
    SubsetIsSmaller(PostedDeliveries(s, m), room);
  }

  /** The schedule of a delivery: each outcome on record came from a POST of that very
      attempt, no attempt has two, and the row stands right after the last of them. */
  lemma OutcomesComeFromPosts(steps: seq<Step>, s: Sys, i: nat)
    requires Reaches(Init(), steps, s) && i < |s.api.recorded|
    ensures WasPosted(s, Post(s.api.recorded[i].delivery, s.api.recorded[i].attempt))
    ensures forall j :: i < j < |s.api.recorded| ==>
              || s.api.recorded[i].delivery != s.api.recorded[j].delivery
              || s.api.recorded[i].attempt != s.api.recorded[j].attempt
    ensures s.api.recorded[i].delivery in s.api.rows
            && Past(s.api.rows[s.api.recorded[i].delivery], s.api.recorded[i].attempt)
  {
    RunIsInv(Init(), steps, s);
  }

  // ---- What customers answered ----

  /** Some POST of this attempt ended with this status. */
  ghost predicate HasEnded(s: Sys, p: Post, status: Option<int>) {
    exists e :: e in s.ends && e.sent.post == p && e.status == status
  }

  function SentBy(s: Sys, t: Ticket): Sent
    requires t in s.workers && (s.workers[t].phase.Posting? || s.workers[t].phase.Posted?)
  {
    Sent(t, Post(s.workers[t].job.delivery, s.workers[t].phase.attempt))
  }

  /** A worker with a POST under way has sent it, and one past it has had this answer. */
  predicate WorkerEnds(s: Sys, t: Ticket)
    requires t in s.workers
  {
    && (s.workers[t].phase.Posting? ==> SentBy(s, t) in s.posts)
    && (s.workers[t].phase.Posted? ==> Ended(SentBy(s, t), s.workers[t].phase.status) in s.ends)
  }

  /** What ended was sent, and what is on record was decided on how such a POST ended. */
  ghost predicate EndsOk(s: Sys) {
    && (forall e :: e in s.ends ==> e.sent in s.posts)
    && (forall t :: t in s.workers ==> WorkerEnds(s, t))
    && (forall r :: r in s.api.recorded ==> HasEnded(s, Post(r.delivery, r.attempt), r.status))
  }

  lemma TellRecords(s: Sys, t: Ticket, hearing: Hearing, r: Record)
    requires Can(s, TellOutcome(t, hearing)) && WorkerEnds(s, t)
    requires r in Told(s, t, hearing).api.recorded && r !in s.api.recorded
    ensures HasEnded(s, Post(r.delivery, r.attempt), r.status)
  {
    var e := Ended(SentBy(s, t), s.workers[t].phase.status);
    assert e in s.ends && e.sent.post == Post(r.delivery, r.attempt) && e.status == r.status;
  }

  lemma StepKeepsWorkerEnds(s: Sys, step: Step, t: Ticket)
    requires Can(s, step) && t in Next(s, step).workers && (t in s.workers ==> WorkerEnds(s, t))
    ensures WorkerEnds(Next(s, step), t)
  {
  }

  lemma StepKeepsEnds(s: Sys, step: Step)
    requires Can(s, step) && EndsOk(s)
    ensures EndsOk(Next(s, step))
  {
    var u := Next(s, step);
    forall t | t in u.workers ensures WorkerEnds(u, t) {
      StepKeepsWorkerEnds(s, step, t);
    }
    forall r | r in u.api.recorded ensures HasEnded(u, Post(r.delivery, r.attempt), r.status) {
      if r !in s.api.recorded {
        TellRecords(s, step.ticket, step.hearing, r);
      }
      var e :| e in s.ends && e.sent.post == Post(r.delivery, r.attempt) && e.status == r.status;
      assert e in u.ends;
    }
  }

  lemma {:induction false} RunKeepsEnds(s: Sys, steps: seq<Step>, t: Sys)
    requires EndsOk(s) && Reaches(s, steps, t)
    ensures EndsOk(t)
    decreases |steps|
  {
    if steps != [] {
      StepKeepsEnds(s, steps[0]);
      RunKeepsEnds(Next(s, steps[0]), steps[1..], t);
    }
  }

  /** After every run an outcome on record was decided on the status a POST of that attempt
      ended with: `delivered` if and only if that is one of the 200s, dead if and only if it is
      not and the attempt was the schedule's last. So it is `delivered` if every POST of the
      attempt was taken by the customer, and is not if none was. */
  lemma OutcomesFollowAnswers(steps: seq<Step>, s: Sys, r: Record)
    requires Reaches(Init(), steps, s) && r in s.api.recorded
    ensures r.delivery in s.api.rows && FollowsStatus(s.api.rows[r.delivery].last, r)
    ensures exists e :: e in s.ends && e.sent in s.posts && e.sent.post == Post(r.delivery, r.attempt)
                && e.status == r.status
    ensures (forall e :: e in s.ends && e.sent.post == Post(r.delivery, r.attempt) ==> Accepted(e.status)) ==>
              r.outcome == Delivered
    ensures (forall e :: e in s.ends && e.sent.post == Post(r.delivery, r.attempt) ==> !Accepted(e.status)) ==>
              r.outcome != Delivered
  {
    RunIsInv(Init(), steps, s);
    RunKeepsEnds(Init(), steps, s);
    var i :| 0 <= i < |s.api.recorded| && s.api.recorded[i] == r;
    assert OutcomeOk(s.api.rows[r.delivery], s.api.recorded[i]);
    var e :| e in s.ends && e.sent.post == Post(r.delivery, r.attempt) && e.status == r.status;
    assert e.sent in s.posts;
  }

  /** Redelivery posts again, always: from any state, an open message with
      deliveries left, whose endpoint is available, can be fetched and posted once more,
      with the attempt the row stands at, even when its outcome has been recorded already
      and whatever attempt the job itself carries. */
  lemma RedeliveryPostsAgain(s: Sys, m: nat) returns (steps: seq<Step>, t: Sys)
    requires Fetchable(s, m) && s.messages[m].body.Work?
    requires Material(s.api, s.messages[m].body.job.delivery).Some?
    ensures Reaches(s, steps, t) && forall step :: step in steps ==> !step.Publish?
    ensures t.messages == s.messages[m := s.messages[m].(delivered := s.messages[m].delivered + 1)]
    ensures var job, ticket := s.messages[m].body.job, Ticket(m, s.messages[m].delivered + 1);
            var a := s.api.rows[job.delivery].attempt;
            t.workers == s.workers[ticket := Worker(job, Posting(a), Some(Some(a)))]
    ensures var d := s.messages[m].body.job.delivery;
            t.api == s.api && t.ends == s.ends &&
            t.posts == s.posts + [Sent(Ticket(m, s.messages[m].delivered + 1), Post(d, s.api.rows[d].attempt))]
  {
    var ticket := Ticket(m, s.messages[m].delivered + 1);
    steps := [Fetch(m), AskMaterial(ticket, Answered), StartPost(ticket)];
    var s1 := Next(s, steps[0]);
    var s2 := Next(s1, steps[1]);
    t := Next(s2, steps[2]);
    assert Reaches(t, [], t);
    assert Reaches(s2, steps[2..], t);
    assert Reaches(s1, steps[1..], t);
  }

  /** In every reachable state, a repeated report changes nothing, and is answered as the
      first one was if and only if the delivery has not ended at a later attempt. */
  lemma RepeatsAreHarmless(steps: seq<Step>, s: Sys, i: nat, status: Option<int>)
    requires Reaches(Init(), steps, s) && i < |s.api.recorded|
    ensures var past := s.api.recorded[i];
            && past.delivery in s.api.rows
            && Report(s.api, past.delivery, past.attempt, status).0 == s.api
            && (Report(s.api, past.delivery, past.attempt, status).1 == Some(past.outcome) <==>
                past.attempt == s.api.rows[past.delivery].attempt || s.api.rows[past.delivery].state.RowPending?)
  {
    RunIsInv(Init(), steps, s);
    RepeatIsAnsweredAsFirst(s.api, i, status);
  }

  lemma {:induction false} ReachesOn(s: Sys, first: seq<Step>, u: Sys, second: seq<Step>, t: Sys)
    requires Reaches(s, first, u) && Reaches(u, second, t)
    ensures Reaches(s, first + second, t)
    decreases |first|
  {
    if first == [] {
      assert first + second == second;
    } else {
      ReachesOn(Next(s, first[0]), first[1..], u, second, t);
      assert (first + second)[1..] == first[1..] + second;
    }
  }

  lemma OneStep(s: Sys, step: Step)
    requires Can(s, step)
    ensures Reaches(s, [step], Next(s, step))
  {
    assert [step][1..] == [];
  }

  /** One more delivery of a message whose customer does not answer: the outcome is recorded,
      the acknowledgement is lost, and the message is open as before. */
  lemma FailsUnacked(s: Sys, m: nat) returns (steps: seq<Step>, t: Sys)
    requires Fetchable(s, m) && s.messages[m].body.Work?
    requires Material(s.api, s.messages[m].body.job.delivery).Some?
    ensures Reaches(s, steps, t) && forall step :: step in steps ==> !step.Publish?
    ensures t.messages == s.messages[m := s.messages[m].(delivered := s.messages[m].delivered + 1)]
    ensures var d := s.messages[m].body.job.delivery;
            t.api == Report(s.api, d, s.api.rows[d].attempt, None).0 && |t.posts| == |s.posts| + 1
  {
    var ticket := Ticket(m, s.messages[m].delivered + 1);
    var first, u := RedeliveryPostsAgain(s, m);
    var v := Next(u, EndPost(ticket, None));
    t := Next(v, TellOutcome(ticket, Answered));
    OneStep(u, EndPost(ticket, None));
    OneStep(v, TellOutcome(ticket, Answered));
    ReachesOn(s, first, u, [EndPost(ticket, None)], v);
    ReachesOn(s, first + [EndPost(ticket, None)], v, [TellOutcome(ticket, Answered)], t);
    steps := first + [EndPost(ticket, None)] + [TellOutcome(ticket, Answered)];
  }

  /** Redeliveries by the broker do consume the customer's retries: from any state in which a
      row is due and its message has deliveries enough left, lost acknowledgements of that
      one message alone take the row through every attempt it has left to the dead letter,
      without its schedule being waited for. */
  lemma {:induction false} LostAcksExhaustRetries(s: Sys, m: nat) returns (steps: seq<Step>, t: Sys)
    requires m < |s.messages| && s.messages[m].settled.Open? && s.messages[m].body.Work?
    requires var d := s.messages[m].body.job.delivery;
             && d in s.api.rows && d in s.api.available && s.api.rows[d].state.RowPending?
             && s.api.rows[d].attempt <= s.api.rows[d].last
             && s.messages[m].delivered + (s.api.rows[d].last - s.api.rows[d].attempt + 1) <= MAX_DELIVER
    ensures Reaches(s, steps, t) && forall step :: step in steps ==> !step.Publish?
    ensures var d := s.messages[m].body.job.delivery;
            var left := s.api.rows[d].last - s.api.rows[d].attempt + 1;
            && t.api.rows == s.api.rows[d := Row(s.api.rows[d].last, s.api.rows[d].last, RowDead)]
            && |t.api.recorded| == |s.api.recorded| + left && |t.posts| == |s.posts| + left
    decreases s.api.rows[s.messages[m].body.job.delivery].last - s.api.rows[s.messages[m].body.job.delivery].attempt
  {
    var d := s.messages[m].body.job.delivery;
    steps, t := FailsUnacked(s, m);
    if s.api.rows[d].attempt < s.api.rows[d].last {
      var u := t;
      var rest;
      rest, t := LostAcksExhaustRetries(u, m);
      ReachesOn(s, steps, u, rest, t);
      steps := steps + rest;
    }
  }

  /** Only an endpoint that is paused or removed stops it: then the message is acknowledged
      without a POST. */
  lemma UnavailableIsAckedUnposted(s: Sys, m: nat) returns (steps: seq<Step>, t: Sys)
    requires Fetchable(s, m) && s.messages[m].body.Work?
    requires Material(s.api, s.messages[m].body.job.delivery).None?
    ensures Reaches(s, steps, t) && steps == [Fetch(m), AskMaterial(Ticket(m, s.messages[m].delivered + 1), Answered),
            Ack(Ticket(m, s.messages[m].delivered + 1), true)]
    ensures t.api == s.api && t.posts == s.posts && m < |t.messages| && t.messages[m].settled.Acked?
  {
    var ticket := Ticket(m, s.messages[m].delivered + 1);
    steps := [Fetch(m), AskMaterial(ticket, Answered), Ack(ticket, true)];
    var s1 := Next(s, steps[0]);
    var s2 := Next(s1, steps[1]);
    t := Next(s2, steps[2]);
    assert Reaches(t, [], t);
    assert Reaches(s2, steps[2..], t);
    assert Reaches(s1, steps[1..], t);
  }

  /** A row due for its only attempt, and a message that carries it. */
  function Due(job: Job): Sys {
    Sys(
      Api(map[job.delivery := Row(1, 1, RowPending)], {job.delivery}, []),
      [Message(Work(job), 0, Open)],
      map[],
      [],
      [])
  }

  lemma DueIsReached(job: Job)
    ensures Reaches(Init(), [AddRow(job.delivery, 1), SetAvailable({job.delivery}), Publish(Work(job))], Due(job))
  {
    var steps := [AddRow(job.delivery, 1), SetAvailable({job.delivery}), Publish(Work(job))];
    var s1 := Next(Init(), steps[0]);
    var s2 := Next(s1, steps[1]);
    assert Next(s2, steps[2]) == Due(job);
    assert Reaches(s2, steps[2..], Due(job));
    assert Reaches(s1, steps[1..], Due(job));
  }

  lemma DueIsDelivered(job: Job) returns (steps: seq<Step>, s: Sys)
    ensures Reaches(Due(job), steps, s)
    ensures s.api == Api(map[job.delivery := Row(1, 1, RowDelivered)], {job.delivery},
            [Record(job.delivery, 1, Some(200), Delivered)])
    ensures s.messages == [Message(Work(job), 1, Open)] && s.posts == [Sent(Ticket(0, 1), Post(job.delivery, 1))]
  {
    var last := [EndPost(Ticket(0, 1), Some(200)), TellOutcome(Ticket(0, 1), Answered)];
    var first, u := RedeliveryPostsAgain(Due(job), 0);
    var v := Next(u, last[0]);
    s := Next(v, last[1]);
    assert Reaches(v, last[1..], s);
    steps := first + last;
    ReachesOn(Due(job), first, u, last, s);
  }

  /** A run that ends with a delivery recorded as made and not yet acknowledged. The
      message is open, so by `RedeliveryPostsAgain` the customer gets it twice. */
  lemma RecordedButUnacked(job: Job) returns (steps: seq<Step>, s: Sys)
    ensures Reaches(Init(), steps, s)
    ensures Fetchable(s, 0) && s.messages[0].body == Work(job) && Material(s.api, job.delivery) == Some(1)
    ensures s.api.recorded == [Record(job.delivery, 1, Some(200), Delivered)]
            && s.posts == [Sent(Ticket(0, 1), Post(job.delivery, 1))]
  {
    DueIsReached(job);
    var rest;
    rest, s := DueIsDelivered(job);
    steps := [AddRow(job.delivery, 1), SetAvailable({job.delivery}), Publish(Work(job))] + rest;
    ReachesOn(Init(), [AddRow(job.delivery, 1), SetAvailable({job.delivery}), Publish(Work(job))], Due(job), rest, s);
  }

  /** Two deliveries of the message are being posted at once. */
  lemma TwoArePosting(job: Job) returns (steps: seq<Step>, s: Sys)
    ensures Reaches(Due(job), steps, s) && s.api == Due(job).api && s.ends == []
    ensures s.messages == [Message(Work(job), 2, Open)]
    ensures s.workers == map[Ticket(0, 1) := Worker(job, Posting(1), Some(Some(1))),
                             Ticket(0, 2) := Worker(job, Posting(1), Some(Some(1)))]
  {
    var first, u := RedeliveryPostsAgain(Due(job), 0);
    var second;
    second, s := RedeliveryPostsAgain(u, 0);
    steps := first + second;
    ReachesOn(Due(job), first, u, second, s);
  }

  /** The first fails and is told; the second is taken by the customer. */
  lemma OneFailsOneIsTaken(s: Sys, job: Job) returns (steps: seq<Step>, t: Sys)
    requires s.api == Due(job).api && s.ends == [] && |s.messages| == 1
    requires s.workers == map[Ticket(0, 1) := Worker(job, Posting(1), Some(Some(1))),
                              Ticket(0, 2) := Worker(job, Posting(1), Some(Some(1)))]
    ensures Reaches(s, steps, t) && t.api.recorded == [Record(job.delivery, 1, None, DeadLettered)]
    ensures t.ends == [Ended(Sent(Ticket(0, 1), Post(job.delivery, 1)), None),
                       Ended(Sent(Ticket(0, 2), Post(job.delivery, 1)), Some(200))]
  {
    var a, b := Ticket(0, 1), Ticket(0, 2);
    var u := Next(s, EndPost(a, None));
    var v := Next(u, TellOutcome(a, Answered));
    t := Next(v, EndPost(b, Some(200)));
    OneStep(s, EndPost(a, None));
    OneStep(u, TellOutcome(a, Answered));
    OneStep(v, EndPost(b, Some(200)));
    ReachesOn(s, [EndPost(a, None)], u, [TellOutcome(a, Answered)], v);
    ReachesOn(s, [EndPost(a, None)] + [TellOutcome(a, Answered)], v, [EndPost(b, Some(200))], t);
    steps := [EndPost(a, None)] + [TellOutcome(a, Answered)] + [EndPost(b, Some(200))];
  }

  /** Where the answers differ the first report decides: a run in which the customer took a
      delivery that is on record as dead. */
  lemma TakenAndDead(job: Job) returns (steps: seq<Step>, s: Sys, taken: Ended)
    ensures Reaches(Init(), steps, s)
    ensures s.api.recorded == [Record(job.delivery, 1, None, DeadLettered)]
    ensures taken in s.ends && taken.sent.post == Post(job.delivery, 1) && Accepted(taken.status)
  {
    DueIsReached(job);
    var first, u := TwoArePosting(job);
    var second;
    second, s := OneFailsOneIsTaken(u, job);
    taken := Ended(Sent(Ticket(0, 2), Post(job.delivery, 1)), Some(200));
    var due := [AddRow(job.delivery, 1), SetAvailable({job.delivery}), Publish(Work(job))];
    ReachesOn(Init(), due, Due(job), first, u);
    ReachesOn(Init(), due + first, u, second, s);
    steps := due + first + second;
  }
}
