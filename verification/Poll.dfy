/** One pass over the deliveries: the fetched messages are grouped by endpoint, and every
    group is worked off by its own worker while the others work theirs. */
module Poll {
  import opened Common
  import opened OrderedMap
  import opened Delivery

  datatype Message = Message(number: nat, body: Body)

  type Groups = seq<(string, seq<Message>)>

  // ---- Grouping ----

  function QueueOf(groups: Groups, endpoint: string): seq<Message> {
    if Has(groups, endpoint) then Lookup(groups, endpoint).value else []
  }

  function GroupOne(groups: Groups, m: Message): Groups {
    if !m.body.Work? then groups
    else Put(groups, m.body.job.endpoint, QueueOf(groups, m.body.job.endpoint) + [m])
  }

  function Grouped(fetched: seq<Message>): Groups {
    if fetched == [] then [] else GroupOne(Grouped(fetched[..|fetched| - 1]), fetched[|fetched| - 1])
  }

  /** The decodable messages for one endpoint, in the order they were fetched. */
  function For(fetched: seq<Message>, endpoint: string): seq<Message> {
    if fetched == [] then [] else
    var m := fetched[|fetched| - 1];
    For(fetched[..|fetched| - 1], endpoint) + if m.body.Work? && m.body.job.endpoint == endpoint then [m] else []
  }

  function Undecodable(fetched: seq<Message>): seq<Message> {
    if fetched == [] then [] else
    var m := fetched[|fetched| - 1];
    Undecodable(fetched[..|fetched| - 1]) + if m.body.NotJson? then [m] else []
  }

  /** What is read of a batch: a message that is the JSON value `null` throws while its
      endpoint is asked for, outside the handler that catches bytes that are not JSON. */
  function Read(fetched: seq<Message>): seq<Message> {
    if fetched == [] || fetched[0].body.JsonNull? then [] else [fetched[0]] + Read(fetched[1..])
  }

  predicate Throws(fetched: seq<Message>) {
    exists m :: m in fetched && m.body.JsonNull?
  }

  lemma {:induction false} ReadsAllUnlessThrows(fetched: seq<Message>)
    ensures Read(fetched) <= fetched && !Throws(Read(fetched))
    ensures Read(fetched) == fetched <==> !Throws(fetched)
  {
    if fetched != [] {
      ReadsAllUnlessThrows(fetched[1..]);
      assert fetched == [fetched[0]] + fetched[1..];
    }
  }

  lemma {:induction false} ReadStopsAt(fetched: seq<Message>, i: nat)
    requires i <= |fetched| && forall j :: 0 <= j < i ==> !fetched[j].body.JsonNull?
    requires i < |fetched| ==> fetched[i].body.JsonNull?
    ensures Read(fetched) == fetched[..i]
  {
    if i > 0 {
      ReadStopsAt(fetched[1..], i - 1);
      assert fetched[..i] == [fetched[0]] + fetched[1..][..i - 1];
    }
  }

  /** Terminates what is not JSON, on its first delivery, and groups the rest. When it
      throws, the whole pass ends there: nothing it grouped is worked on. */
  method GroupByEndpoint(fetched: seq<Message>) returns (threw: bool, byEndpoint: Groups, termed: seq<Message>)
    ensures threw <==> Throws(fetched)
    ensures byEndpoint == Grouped(Read(fetched)) && termed == Undecodable(Read(fetched))
    ensures !threw ==> Read(fetched) == fetched
  {
    ReadsAllUnlessThrows(fetched);
    byEndpoint, termed := [], [];
    for i := 0 to |fetched|
      invariant forall j :: 0 <= j < i ==> !fetched[j].body.JsonNull?
      invariant byEndpoint == Grouped(fetched[..i]) && termed == Undecodable(fetched[..i])
    {
      var m := fetched[i];
      assert fetched[..i + 1][..i] == fetched[..i];
      if m.body.NotJson? {
        termed := termed + [m];
      } else if m.body.JsonNull? {
        ReadStopsAt(fetched, i);
        return true, byEndpoint, termed;
      } else {
        var endpoint := m.body.job.endpoint;
        byEndpoint := Put(byEndpoint, endpoint, QueueOf(byEndpoint, endpoint) + [m]);
      }
    }
    ReadStopsAt(fetched, |fetched|);
    threw := false;
  }

  /** Positions in order, none twice. */
  predicate Rising(at: seq<nat>, n: nat) {
    && (forall i :: 0 <= i < |at| ==> at[i] < n)
    && (forall i, j :: 0 <= i < j < |at| ==> at[i] < at[j])
  }

  /** These are the messages at the given positions, in order. */
  predicate Stands(chosen: seq<Message>, fetched: seq<Message>, at: seq<nat>) {
    Rising(at, |fetched|) && |chosen| == |at| && forall i :: 0 <= i < |at| ==> chosen[i] == fetched[at[i]]
  }

  lemma StandsOn(chosen: seq<Message>, fetched: seq<Message>, at: seq<nat>, m: Message)
    requires Stands(chosen, fetched, at)
    ensures Stands(chosen, fetched + [m], at)
    ensures Stands(chosen + [m], fetched + [m], at + [|fetched|])
  {
  }

  /** What is terminated is every message that is not JSON, each once, in fetch order. */
  lemma {:induction false} UndecodableStand(fetched: seq<Message>) returns (at: seq<nat>)
    ensures Stands(Undecodable(fetched), fetched, at)
    ensures forall k :: 0 <= k < |fetched| ==> (k in at <==> fetched[k].body.NotJson?)
  {
    at := [];
    if fetched != [] {
      var n := |fetched| - 1;
      at := UndecodableStand(fetched[..n]);
      assert fetched == fetched[..n] + [fetched[n]];
      StandsOn(Undecodable(fetched[..n]), fetched[..n], at, fetched[n]);
      at := if fetched[n].body.NotJson? then at + [n] else at;
    }
  }

  /** What an endpoint's worker gets is every message that names the endpoint, each once, in
      fetch order. */
  lemma {:induction false} ForStand(fetched: seq<Message>, endpoint: string) returns (at: seq<nat>)
    ensures Stands(For(fetched, endpoint), fetched, at)
    ensures forall k :: 0 <= k < |fetched| ==>
              (k in at <==> fetched[k].body.Work? && fetched[k].body.job.endpoint == endpoint)
  {
    at := [];
    if fetched != [] {
      var n := |fetched| - 1;
      at := ForStand(fetched[..n], endpoint);
      assert fetched == fetched[..n] + [fetched[n]];
      StandsOn(For(fetched[..n], endpoint), fetched[..n], at, fetched[n]);
      at := if fetched[n].body.Work? && fetched[n].body.job.endpoint == endpoint then at + [n] else at;
    }
  }

  function Size(groups: Groups): nat {
    if groups == [] then 0 else |groups[0].1| + Size(groups[1..])
  }

  lemma {:induction false} SizeOfPut(groups: Groups, endpoint: string, queue: seq<Message>)
    ensures Size(Put(groups, endpoint, queue)) == Size(groups) - |QueueOf(groups, endpoint)| + |queue|
    ensures |QueueOf(groups, endpoint)| <= Size(groups)
  {
    if groups == [] {
      assert Put(groups, endpoint, queue)[1..] == [];
    } else {
      SizeOfPut(groups[1..], endpoint, queue);
      var put := Put(groups, endpoint, queue);
      if groups[0].0 == endpoint {
        assert put[1..] == groups[1..];
      } else {
        assert put[1..] == Put(groups[1..], endpoint, queue);
      }
    }
  }

  /** The groups partition the decodable messages: each endpoint's queue is exactly its own
      messages in fetch order, no endpoint has two queues, and with the terminated ones
      every fetched message is accounted for once. */
  lemma {:induction false} GroupsPartition(fetched: seq<Message>)
    ensures Distinct(Grouped(fetched))
    ensures forall e :: QueueOf(Grouped(fetched), e) == For(fetched, e)
    ensures forall e :: Has(Grouped(fetched), e) <==> For(fetched, e) != []
    ensures !Throws(fetched) ==> Size(Grouped(fetched)) + |Undecodable(fetched)| == |fetched|
  {
    if fetched != [] {
      var before, m := Grouped(fetched[..|fetched| - 1]), fetched[|fetched| - 1];
      GroupsPartition(fetched[..|fetched| - 1]);
      assert m in fetched;
      if m.body.Work? {
        var endpoint := m.body.job.endpoint;
        PutLooksUp(before, endpoint, QueueOf(before, endpoint) + [m]);
        SizeOfPut(before, endpoint, QueueOf(before, endpoint) + [m]);
        forall e
          ensures QueueOf(Grouped(fetched), e) == For(fetched, e)
          ensures Has(Grouped(fetched), e) <==> For(fetched, e) != []
        {
          assert Lookup(Grouped(fetched), e)
              == if e == endpoint then Some(QueueOf(before, endpoint) + [m]) else Lookup(before, e);
          assert For(fetched, e) == For(fetched[..|fetched| - 1], e) + if endpoint == e then [m] else [];
        }
      }
    }
  }

  // ---- One queue, run alone ----

  /** What will be heard when a message is worked on: whether `material` answers and with
      what, the customer's status, and what the report is answered, if it is. */
  datatype Replies = Replies(heard: bool, material: Option<nat>, status: Option<int>, told: Option<Outcome>)

  datatype What = AskedMaterial | StartedPost(attempt: nat) | EndedPost | ToldOutcome | Acked | LeftUnacked

  datatype Event = Event(endpoint: string, message: Message, what: What)

  /** What working one message amounts to. */
  function MessageRun(r: Replies): seq<What> {
    [AskedMaterial] + if r.heard && r.material.Some? then PostRunOf(r.material.value, r) else Closing(r.heard)
  }

  /** Post, then report, then acknowledge. */
  function PostRunOf(attempt: nat, r: Replies): seq<What> {
    [StartedPost(attempt), EndedPost, ToldOutcome] + Closing(r.told.Some?)
  }

  function Closing(good: bool): seq<What> {
    if good then [Acked] else [LeftUnacked]
  }

  function Events(endpoint: string, m: Message, whats: seq<What>): seq<Event> {
    seq(|whats|, i requires 0 <= i < |whats| => Event(endpoint, m, whats[i]))
  }

  /** A message and what was heard for it. */
  datatype Dealt = Dealt(message: Message, heard: Replies)

  function QueueRun(endpoint: string, works: seq<Dealt>): seq<Event> {
    if works == [] then [] else
    var last := works[|works| - 1];
    QueueRun(endpoint, works[..|works| - 1]) + Events(endpoint, last.message, MessageRun(last.heard))
  }

  function Acks(log: seq<Event>): nat {
    if log == [] then 0 else Acks(log[..|log| - 1]) + if log[|log| - 1].what.Acked? then 1 else 0
  }

  lemma {:induction false} AcksAdd(a: seq<Event>, b: seq<Event>)
    ensures Acks(a + b) == Acks(a) + Acks(b)
  {
    if b == [] {
      assert a + b == a;
    } else {
      AcksAdd(a, b[..|b| - 1]);
      assert (a + b)[..|a + b| - 1] == a + b[..|b| - 1];
    }
  }

  /** One message, worked on to its end: a message whose delivery throws is left for the
      broker to bring back, every other is acknowledged. */
  method RunMessage(r: Replies) returns (whats: seq<What>, acked: bool)
    ensures whats == MessageRun(r)
    ensures acked <==> Acked in whats
    ensures acked <==> r.heard && (r.material.Some? ==> r.told.Some?)
  {
    whats := [AskedMaterial];
    if !r.heard { return whats + [LeftUnacked], false; }
    if r.material.Some? {
      whats := whats + ([StartedPost(r.material.value), EndedPost, ToldOutcome] + Closing(r.told.Some?));
      return whats, r.told.Some?;
    }
    return whats + [Acked], true;
  }

  lemma MessageAcks(endpoint: string, m: Message, r: Replies)
    ensures Acks(Events(endpoint, m, MessageRun(r))) == if Acked in MessageRun(r) then 1 else 0
  {
    var whats := MessageRun(r);
    NoAcksAmong(endpoint, m, whats[..|whats| - 1]);
    assert Events(endpoint, m, whats)[..|whats| - 1] == Events(endpoint, m, whats[..|whats| - 1]);
  }

  lemma QueueRunOneMore(endpoint: string, works: seq<Dealt>, last: Dealt)
    ensures QueueRun(endpoint, works + [last])
            == QueueRun(endpoint, works) + Events(endpoint, last.message, MessageRun(last.heard))
  {
    assert (works + [last])[..|works|] == works;
  }

  lemma OneMoreMessage(endpoint: string, works: seq<Dealt>, i: nat)
    requires i < |works|
    ensures QueueRun(endpoint, works[..i + 1])
            == QueueRun(endpoint, works[..i]) + Events(endpoint, works[i].message, MessageRun(works[i].heard))
    ensures Acks(QueueRun(endpoint, works[..i + 1]))
            == Acks(QueueRun(endpoint, works[..i])) + if Acked in MessageRun(works[i].heard) then 1 else 0
  {
    assert works[..i + 1] == works[..i] + [works[i]];
    QueueRunOneMore(endpoint, works[..i], works[i]);
    MessageAcks(endpoint, works[i].message, works[i].heard);
    AcksAdd(QueueRun(endpoint, works[..i]), Events(endpoint, works[i].message, MessageRun(works[i].heard)));
  }

  /** One worker's loop; `handled` counts what it acknowledged. */
  method RunQueue(endpoint: string, works: seq<Dealt>) returns (log: seq<Event>, handled: nat)
    ensures log == QueueRun(endpoint, works)
    ensures handled == Acks(log)
  {
    log, handled := [], 0;
    for i := 0 to |works|
      invariant log == QueueRun(endpoint, works[..i])
      invariant handled == Acks(log)
    {
      OneMoreMessage(endpoint, works, i);
      var whats, acked := RunMessage(works[i].heard);
      log := log + Events(endpoint, works[i].message, whats);
      if acked {
        handled := handled + 1;
      }
    }
    assert works[..|works|] == works;
  }

  lemma PlusIsAssociative<T>(a: seq<T>, b: seq<T>, c: seq<T>)
    ensures a + (b + c) == (a + b) + c
  {
  }

  lemma {:induction false} NoAcksAmong(endpoint: string, m: Message, whats: seq<What>)
    requires forall what :: what in whats ==> !what.Acked?
    ensures Acks(Events(endpoint, m, whats)) == 0
  {
    if whats != [] {
      var n := |whats| - 1;
      NoAcksAmong(endpoint, m, whats[..n]);
      assert Events(endpoint, m, whats)[..n] == Events(endpoint, m, whats[..n]);
      assert whats[n] in whats;
    }
  }

  /** What one run of `deliverOnce` hears. */
  function HeardBy(w: World, job: Job): Replies {
    var (asked, named) := MaterialRun(w, job.delivery);
    var heard, material := NextTurn(w).hearing == Answered, Material(asked.api, job.delivery);
    if !named.Named? then Replies(heard, material, None, None) else
    var (sent, posted) := PostRun(asked, job.delivery, named.attempt);
    var end := ReportRun(sent, job.delivery, named.attempt, posted.status).1;
    Replies(heard, material, posted.status, if end.Finished? then Some(end.outcome) else None)
  }

  /** The worker acknowledges exactly when `deliverOnce` returns and does not throw, and it
      starts the very POST that `deliverOnce` sends. */
  lemma AcksWhatDeliverOnceReturns(w: World, job: Job)
    ensures Acked in MessageRun(HeardBy(w, job)) <==> DeliverRun(w, job).1.Finished?
    ensures forall a: nat :: StartedPost(a) in MessageRun(HeardBy(w, job)) <==>
            DeliverRun(w, job).0.posts == w.posts + [Post(job.delivery, a)]
  {
    var named := MaterialRun(w, job.delivery).1;
    if !named.Named? {
      assert DeliverRun(w, job).0.posts == w.posts;
    } else {
      assert (w.posts + [Post(job.delivery, named.attempt)])[|w.posts|] == Post(job.delivery, named.attempt);
      forall a: nat
        ensures w.posts + [Post(job.delivery, named.attempt)] == w.posts + [Post(job.delivery, a)] <==>
                a == named.attempt
      {
        assert (w.posts + [Post(job.delivery, a)])[|w.posts|] == Post(job.delivery, a);
      }
    }
  }

  // ---- All queues at once ----

  /** `queue[0]` is the message in hand and `now` what has been heard for it so far; `done`
      are the messages worked off. */
  datatype Worker = Worker(queue: seq<Message>, phase: Phase, now: Replies, done: seq<Dealt>)

  datatype Sys = Sys(workers: map<string, Worker>, log: seq<Event>, handled: nat)

  const NOTHING_HEARD: Replies := Replies(false, None, None, None)

  function Waiting(queue: seq<Message>): Worker {
    Worker(queue, Fetched, NOTHING_HEARD, [])
  }

  /** A pass that did not throw, with every worker at the head of its queue. */
  function Started(fetched: seq<Message>): Sys {
    Sys(map e | e in Endpoints(fetched) :: Waiting(For(fetched, e)), [], 0)
  }

  function Endpoints(fetched: seq<Message>): set<string> {
    if fetched == [] then {} else
    var m := fetched[|fetched| - 1];
    Endpoints(fetched[..|fetched| - 1]) + if m.body.Work? then {m.body.job.endpoint} else {}
  }

  predicate CanStep(s: Sys, e: string) {
    e in s.workers && s.workers[e].queue != []
  }

  function PhaseNext(phase: Phase, r: Replies): Phase {
    match phase
    case Fetched => AfterMaterial(r.heard, r.material)
    case Named(attempt) => Posting(attempt)
    case Posting(attempt) => Posted(attempt, r.status)
    case Posted(_, _) => AfterReport(r.told.Some?, r.told)
    case Finished(_) => Fetched
    case Failed => Fetched
  }

  function PhaseEvent(phase: Phase): What {
    match phase
    case Fetched => AskedMaterial
    case Named(attempt) => StartedPost(attempt)
    case Posting(_) => EndedPost
    case Posted(_, _) => ToldOutcome
    case Finished(_) => Acked
    case Failed => LeftUnacked
  }

  /** What a step adds to what has been heard: each call hears its own part of `r`. */
  function Hears(phase: Phase, now: Replies, r: Replies): Replies {
    match phase
    case Fetched => Replies(r.heard, r.material, None, None)
    case Posting(_) => now.(status := r.status)
    case Posted(_, _) => now.(told := r.told)
    case _ => now
  }

  predicate Through(phase: Phase) {
    phase.Finished? || phase.Failed?
  }

  function WorkerNext(w: Worker, r: Replies): Worker
    requires w.queue != []
  {
    if Through(w.phase) then Worker(w.queue[1..], Fetched, NOTHING_HEARD, w.done + [Dealt(w.queue[0], w.now)])
    else Worker(w.queue, PhaseNext(w.phase, r), Hears(w.phase, w.now, r), w.done)
  }

  /** The worker of one endpoint does the next thing it has to do and hears `r`. */
  function Step(s: Sys, e: string, r: Replies): Sys
    requires CanStep(s, e)
  {
    var w := s.workers[e];
    Sys(
      s.workers[e := WorkerNext(w, r)],
      s.log + [Event(e, w.queue[0], PhaseEvent(w.phase))],
      s.handled + if w.phase.Finished? then 1 else 0)
  }

  /** A schedule names the endpoint whose worker moves next, and what it hears. */
  type Schedule = seq<(string, Replies)>

  predicate Reaches(s: Sys, schedule: Schedule, t: Sys)
    decreases |schedule|
  {
    if schedule == [] then s == t
    else CanStep(s, schedule[0].0) && Reaches(Step(s, schedule[0].0, schedule[0].1), schedule[1..], t)
  }

  function Only(log: seq<Event>, e: string): seq<Event> {
    if log == [] then []
    else Only(log[..|log| - 1], e) + if log[|log| - 1].endpoint == e then [log[|log| - 1]] else []
  }

  /** POSTs to the endpoint that have started and not ended. */
  function InFlight(log: seq<Event>, e: string): int {
    if log == [] then 0 else
    var last := log[|log| - 1];
    InFlight(log[..|log| - 1], e) + if last.endpoint == e then Flight(last.what) else 0
  }

  function Flight(what: What): int {
    if what.StartedPost? then 1 else if what.EndedPost? then -1 else 0
  }

  lemma LogGrows(log: seq<Event>, event: Event, e: string)
    ensures Only(log + [event], e) == Only(log, e) + (if event.endpoint == e then [event] else [])
    ensures InFlight(log + [event], e) == InFlight(log, e) + (if event.endpoint == e then Flight(event.what) else 0)
    ensures Acks(log + [event]) == Acks(log) + if event.what.Acked? then 1 else 0
  {
    assert (log + [event])[..|log + [event]| - 1] == log;
  }

  // ---- One endpoint among the others ----

  /** What the workers of the schedule's steps for one endpoint heard, in order. */
  function Own(schedule: Schedule, e: string): seq<Replies> {
    if schedule == [] then []
    else (if schedule[0].0 == e then [schedule[0].1] else []) + Own(schedule[1..], e)
  }

  /** A worker all by itself, hearing these replies one step after the other. */
  function Alone(e: string, w: Worker, heard: seq<Replies>): (Worker, seq<Event>)
    decreases |heard|
  {
    if heard == [] || w.queue == [] then (w, []) else
    var (end, events) := Alone(e, WorkerNext(w, heard[0]), heard[1..]);
    (end, [Event(e, w.queue[0], PhaseEvent(w.phase))] + events)
  }

  lemma OnlyAfter(s: Sys, e: string, r: Replies, x: string)
    requires CanStep(s, e)
    ensures Only(Step(s, e, r).log, x) == Only(s.log, x)
            + (if e == x then [Event(e, s.workers[e].queue[0], PhaseEvent(s.workers[e].phase))] else [])
  {
    LogGrows(s.log, Event(e, s.workers[e].queue[0], PhaseEvent(s.workers[e].phase)), x);
  }

  /** However the workers interleave, and whatever each of them hears: an endpoint's worker
      stands, and its part of the log reads, as if it had worked all alone and heard what it
      heard. Nothing another endpoint does or fails to do shows. */
  lemma {:induction false} OthersDoNotShow(s: Sys, schedule: Schedule, t: Sys, e: string)
    requires Reaches(s, schedule, t) && e in s.workers
    ensures e in t.workers
    ensures t.workers[e] == Alone(e, s.workers[e], Own(schedule, e)).0
    ensures Only(t.log, e) == Only(s.log, e) + Alone(e, s.workers[e], Own(schedule, e)).1
    decreases |schedule|
  {
    if schedule != [] {
      var x, r := schedule[0].0, schedule[0].1;
      var next := Step(s, x, r);
      OnlyAfter(s, x, r, e);
      OthersDoNotShow(next, schedule[1..], t, e);
      if x == e {
        var own := Own(schedule[1..], e);
        assert ([r] + own)[1..] == own;
        PlusIsAssociative(Only(s.log, e), [Event(e, s.workers[e].queue[0], PhaseEvent(s.workers[e].phase))],
            Alone(e, next.workers[e], own).1);
      } else {
        assert Own(schedule, e) == Own(schedule[1..], e);
        assert next.workers[e] == s.workers[e];
      }
    }
  }

  // ---- A worker follows its loop ----

  /** The phase is the one that what was heard leads to. */
  predicate Fits(phase: Phase, now: Replies) {
    match phase
    case Fetched => true
    case Named(attempt) => now.heard && now.material == Some(attempt)
    case Posting(attempt) => now.heard && now.material == Some(attempt)
    case Posted(attempt, _) => now.heard && now.material == Some(attempt)
    case Finished(_) => now.heard && (now.material.Some? ==> now.told.Some?)
    case Failed => !now.heard || (now.material.Some? && now.told.None?)
  }

  /** What has happened for the message in hand. */
  function SoFar(phase: Phase, now: Replies): seq<What> {
    match phase
    case Fetched => []
    case Named(_) => [AskedMaterial]
    case Posting(attempt) => [AskedMaterial, StartedPost(attempt)]
    case Posted(attempt, _) => [AskedMaterial, StartedPost(attempt), EndedPost]
    case _ => MessageRun(now)[..|MessageRun(now)| - 1]
  }

  lemma SoFarGrows(phase: Phase, now: Replies, r: Replies)
    requires Fits(phase, now)
    ensures Through(phase) ==> SoFar(phase, now) + [PhaseEvent(phase)] == MessageRun(now)
    ensures !Through(phase) ==>
              && Fits(PhaseNext(phase, r), Hears(phase, now, r))
              && SoFar(phase, now) + [PhaseEvent(phase)] == SoFar(PhaseNext(phase, r), Hears(phase, now, r))
  {
  }

  /** The log of this endpoint is what the loop does for the messages worked off, and the
      part done of the one in hand. */
  predicate Follows(log: seq<Event>, e: string, w: Worker) {
    && Fits(w.phase, w.now)
    && (w.queue == [] ==> w.phase.Fetched?)
    && Only(log, e) == QueueRun(e, w.done)
         + (if w.queue == [] then [] else Events(e, w.queue[0], SoFar(w.phase, w.now)))
    && InFlight(log, e) == (if w.phase.Posting? then 1 else 0)
  }

  function Messages(works: seq<Dealt>): seq<Message> {
    seq(|works|, i requires 0 <= i < |works| => works[i].message)
  }

  lemma EventsOneMore(e: string, m: Message, whats: seq<What>, what: What)
    ensures Events(e, m, whats + [what]) == Events(e, m, whats) + [Event(e, m, what)]
  {
  }

  lemma OwnStep(log: seq<Event>, e: string, w: Worker, r: Replies)
    requires w.queue != [] && Follows(log, e, w)
    ensures Follows(log + [Event(e, w.queue[0], PhaseEvent(w.phase))], e, WorkerNext(w, r))
  {
    var m, whats, what := w.queue[0], SoFar(w.phase, w.now), PhaseEvent(w.phase);
    LogGrows(log, Event(e, m, what), e);
    SoFarGrows(w.phase, w.now, r);
    EventsOneMore(e, m, whats, what);
    PlusIsAssociative(QueueRun(e, w.done), Events(e, m, whats), [Event(e, m, what)]);
    if Through(w.phase) {
      QueueRunOneMore(e, w.done, Dealt(m, w.now));
      NothingMore(e, w.queue[1..], QueueRun(e, w.done + [Dealt(m, w.now)]));
    }
  }

  lemma NothingMore(e: string, queue: seq<Message>, run: seq<Event>)
    ensures run + (if queue == [] then [] else Events(e, queue[0], SoFar(Fetched, NOTHING_HEARD))) == run
  {
  }

  lemma OthersStep(log: seq<Event>, event: Event, e: string, w: Worker)
    requires event.endpoint != e && Follows(log, e, w)
    ensures Follows(log + [event], e, w)
  {
    LogGrows(log, event, e);
    assert Only(log, e) + [] == Only(log, e);
  }

  ghost predicate Inv(s: Sys) {
    && s.handled == Acks(s.log)
    && (forall e :: e in s.workers ==> Follows(s.log, e, s.workers[e]))
    && (forall e :: e !in s.workers ==> Only(s.log, e) == [])
  }

  lemma StepKeepsWorker(s: Sys, e: string, r: Replies, x: string)
    requires CanStep(s, e) && x in s.workers && Follows(s.log, x, s.workers[x])
    ensures Follows(Step(s, e, r).log, x, Step(s, e, r).workers[x])
  {
    if x == e {
      OwnStep(s.log, e, s.workers[e], r);
    } else {
      OthersStep(s.log, Event(e, s.workers[e].queue[0], PhaseEvent(s.workers[e].phase)), x, s.workers[x]);
    }
  }

  lemma StepIsInv(s: Sys, e: string, r: Replies)
    requires Inv(s) && CanStep(s, e)
    ensures Inv(Step(s, e, r))
  {
    var t := Step(s, e, r);
    forall x | x in t.workers ensures Follows(t.log, x, t.workers[x]) {
      StepKeepsWorker(s, e, r, x);
    }
    forall x | x !in t.workers ensures Only(t.log, x) == [] {
      OnlyAfter(s, e, r, x);
    }
    LogGrows(s.log, Event(e, s.workers[e].queue[0], PhaseEvent(s.workers[e].phase)), e);
  }

  lemma {:induction false} RunIsInv(s: Sys, schedule: Schedule, t: Sys)
    requires Inv(s) && Reaches(s, schedule, t)
    ensures Inv(t) && t.workers.Keys == s.workers.Keys
    decreases |schedule|
  {
    if schedule != [] {
      StepIsInv(s, schedule[0].0, schedule[0].1);
      RunIsInv(Step(s, schedule[0].0, schedule[0].1), schedule[1..], t);
    }
  }

  /** No worker loses or swaps a message. */
  lemma {:induction false} AloneKeepsMessages(e: string, w: Worker, heard: seq<Replies>)
    ensures Messages(Alone(e, w, heard).0.done) + Alone(e, w, heard).0.queue == Messages(w.done) + w.queue
    decreases |heard|
  {
    if heard != [] && w.queue != [] {
      var next := WorkerNext(w, heard[0]);
      AloneKeepsMessages(e, next, heard[1..]);
      if Through(w.phase) {
        assert Messages(next.done) == Messages(w.done) + [w.queue[0]];
        PlusIsAssociative(Messages(w.done), [w.queue[0]], w.queue[1..]);
        assert w.queue == [w.queue[0]] + w.queue[1..];
      }
    }
  }

  lemma {:induction false} EndpointsHaveQueues(fetched: seq<Message>, e: string)
    ensures e in Endpoints(fetched) <==> For(fetched, e) != []
  {
    if fetched != [] {
      EndpointsHaveQueues(fetched[..|fetched| - 1], e);
    }
  }

  lemma StartFollows(e: string, queue: seq<Message>)
    ensures Follows([], e, Waiting(queue))
  {
    NothingMore(e, queue, []);
  }

  lemma StartIsInv(fetched: seq<Message>)
    ensures Inv(Started(fetched))
  {
    forall e | e in Started(fetched).workers ensures Follows([], e, Started(fetched).workers[e]) {
      StartFollows(e, For(fetched, e));
    }
  }

  /** However the workers interleave and whatever they hear: an endpoint's messages are
      worked off in fetch order; its log is its own queue run, under the replies it heard,
      for the messages done, and a beginning of that run for the one in hand; and it is the
      log its worker would have written alone. An endpoint without messages has none. */
  lemma EndpointsAreIsolated(fetched: seq<Message>, schedule: Schedule, t: Sys, e: string)
    requires Reaches(Started(fetched), schedule, t)
    ensures e in t.workers <==> For(fetched, e) != []
    ensures e !in t.workers ==> Only(t.log, e) == []
    ensures e in t.workers ==>
              var w := t.workers[e];
              && Messages(w.done) + w.queue == For(fetched, e)
              && QueueRun(e, w.done) <= Only(t.log, e)
              && (w.queue == [] ==> Only(t.log, e) == QueueRun(e, w.done))
              && (w.queue != [] ==>
                    Only(t.log, e) == QueueRun(e, w.done) + Events(e, w.queue[0], SoFar(w.phase, w.now)))
              && (w, Only(t.log, e)) == Alone(e, Waiting(For(fetched, e)), Own(schedule, e))
  {
    var s := Started(fetched);
    StartIsInv(fetched);
    RunIsInv(s, schedule, t);
    EndpointsHaveQueues(fetched, e);
    if e in t.workers {
      assert Follows(t.log, e, t.workers[e]);
      OthersDoNotShow(s, schedule, t, e);
      AloneKeepsMessages(e, Waiting(For(fetched, e)), Own(schedule, e));
      NoMessages(For(fetched, e));
      NoEvents(Alone(e, Waiting(For(fetched, e)), Own(schedule, e)).1);
    }
  }

  lemma NoMessages(queue: seq<Message>)
    ensures Messages([]) + queue == queue
  {
  }

  lemma NoEvents(events: seq<Event>)
    ensures [] + events == events
  {
  }

  /** At most one POST to an endpoint is in flight at any moment, and the count returned is
      the number of messages acknowledged. */
  lemma OneInFlightAndHandledIsAcked(fetched: seq<Message>, schedule: Schedule, t: Sys, e: string)
    requires Reaches(Started(fetched), schedule, t)
    ensures 0 <= InFlight(t.log, e) <= 1
    ensures t.handled == Acks(t.log)
  {
    StartIsInv(fetched);
    RunIsInv(Started(fetched), schedule, t);
    if e in t.workers {
      assert Follows(t.log, e, t.workers[e]);
    } else {
      NoneInFlight(t.log, e);
    }
  }

  lemma {:induction false} NoneInFlight(log: seq<Event>, e: string)
    requires Only(log, e) == []
    ensures InFlight(log, e) == 0
  {
    if log != [] {
      NoneInFlight(log[..|log| - 1], e);
    }
  }

  function Rank(phase: Phase): nat {
    match phase
    case Fetched => 4
    case Named(_) => 3
    case Posting(_) => 2
    case Posted(_, _) => 1
    case Finished(_) => 0
    case Failed => 0
  }

  /** No endpoint waits for another: from any state, and whatever it will hear, one worker
      alone can finish its queue, with every other worker where it was. */
  lemma {:induction false} WorkerFinishesAlone(s: Sys, e: string, hears: nat -> Replies, i: nat)
    returns (schedule: Schedule, t: Sys)
    requires e in s.workers
    ensures Reaches(s, schedule, t)
    ensures forall j :: 0 <= j < |schedule| ==> schedule[j] == (e, hears(i + j))
    ensures t.workers.Keys == s.workers.Keys && t.workers[e].queue == []
    ensures forall x :: x in s.workers && x != e ==> t.workers[x] == s.workers[x]
    decreases |s.workers[e].queue|, Rank(s.workers[e].phase)
  {
    if s.workers[e].queue == [] {
      schedule, t := [], s;
    } else {
      var next := Step(s, e, hears(i));
      var rest;
      rest, t := WorkerFinishesAlone(next, e, hears, i + 1);
      schedule := [(e, hears(i))] + rest;
      assert schedule[1..] == rest;
      assert forall j :: 0 < j < |schedule| ==> schedule[j] == rest[j - 1];
    }
  }
}
