/** Turning an event into deliveries: the envelope parser, the api's claimed expansion, and
    the dispatcher's `drain`, which decides what becomes of each message. */
module Expand {
  import opened Common

  /** A parsed JSON value. */
  datatype Json =
    | Null
    | Bool(value: bool)
    | Number(digits: string)
    | Str(text: string)
    | Array(items: seq<Json>)
    | Object(fields: map<string, Json>)

  datatype Envelope = Envelope(id: string, kind: string, environment: string)

  function TextField(fields: map<string, Json>, name: string): Option<string> {
    if name in fields && fields[name].Str? then Some(fields[name].text) else None
  }

  /** An array is an object too, but has no field of these names. */
  function ParseEventEnvelope(raw: Json): Option<Envelope> {
    if !raw.Object? then None else
    var id, kind, environment := TextField(raw.fields, "id"), TextField(raw.fields, "type"),
        TextField(raw.fields, "environment_id");
    if id.None? || kind.None? || environment.None? then None
    else Some(Envelope(id.value, kind.value, environment.value))
  }

  // ---- The api's side ----

  /** The delivery rows one call inserted for an event, in one statement. */
  datatype Batch = Batch(event: string, endpoints: set<string>)

  /** `uuid` is the request schema's test of an event id; `claims` are the events whose claim
      has committed; `batches` are all the rows ever inserted, in order. */
  datatype Api = Api(
    uuid: string -> bool,
    matching: map<(string, string), set<string>>,
    claims: set<string>,
    batches: seq<Batch>)

  /** The request schema: a uuid and two non-empty strings. */
  predicate Accepts(api: Api, e: Envelope) {
    api.uuid(e.id) && e.environment != "" && e.kind != ""
  }

  /** The endpoints subscribed to this type in this environment, now. */
  function Matching(api: Api, e: Envelope): set<string> {
    if (e.environment, e.kind) in api.matching then api.matching[(e.environment, e.kind)] else {}
  }

  /** The endpoints that have a delivery of this event. */
  function RowsIn(batches: seq<Batch>, id: string): set<string> {
    if batches == [] then {}
    else
      var last := batches[|batches| - 1];
      RowsIn(batches[..|batches| - 1], id) + if last.event == id then last.endpoints else {}
  }

  function RowsOf(api: Api, id: string): set<string> {
    RowsIn(api.batches, id)
  }

  datatype Insertion = Refused | Duplicate | Collides | Inserted

  /** The first half of an expansion: the claim is opened in a transaction, and the rows are
      inserted on another connection, so that they commit by themselves. A row that is
      already there for one of the endpoints fails the statement, and with it the call. */
  function InsertRows(api: Api, e: Envelope): (Api, Insertion) {
    if !Accepts(api, e) then (api, Refused)
    else if e.id in api.claims then (api, Duplicate)
    else if Matching(api, e) == {} then (api, Inserted)
    else if !(Matching(api, e) !! RowsOf(api, e.id)) then (api, Collides)
    else (api.(batches := api.batches + [Batch(e.id, Matching(api, e))]), Inserted)
  }

  /** The second half: the claim commits. */
  function CommitClaim(api: Api, id: string): Api {
    api.(claims := api.claims + {id})
  }

  /** No event has two rows for one endpoint. */
  ghost predicate ApiOk(api: Api) {
    && (forall i :: 0 <= i < |api.batches| ==> api.batches[i].endpoints != {})
    && (forall i, j :: 0 <= i < j < |api.batches| && api.batches[i].event == api.batches[j].event ==>
          api.batches[i].endpoints !! api.batches[j].endpoints)
  }

  /** Nothing claimed or inserted is ever taken back, and no claimed event gets more rows. */
  ghost predicate Keeps(api: Api, later: Api) {
    && later.uuid == api.uuid && api.claims <= later.claims && api.batches <= later.batches
    && forall id :: id in api.claims ==> RowsOf(later, id) == RowsOf(api, id)
  }

  lemma RowsOfOneMore(batches: seq<Batch>, batch: Batch, id: string)
    ensures RowsIn(batches + [batch], id) == RowsIn(batches, id) + if batch.event == id then batch.endpoints else {}
  {
    assert (batches + [batch])[..|batches|] == batches;
  }

  lemma {:induction false} BatchIsInRows(batches: seq<Batch>, i: nat)
    requires i < |batches|
    ensures batches[i].endpoints <= RowsIn(batches, batches[i].event)
  {
    if i < |batches| - 1 {
      BatchIsInRows(batches[..|batches| - 1], i);
    }
  }

  lemma InsertIsOk(api: Api, e: Envelope)
    requires ApiOk(api)
    ensures ApiOk(InsertRows(api, e).0) && Keeps(api, InsertRows(api, e).0)
  {
    var t := InsertRows(api, e).0;
    if t != api {
      var batch := Batch(e.id, Matching(api, e));
      forall i | 0 <= i < |api.batches| && api.batches[i].event == e.id
        ensures api.batches[i].endpoints !! batch.endpoints
      {
        BatchIsInRows(api.batches, i);
      }
      forall id | id in api.claims ensures RowsOf(t, id) == RowsOf(api, id) {
        RowsOfOneMore(api.batches, batch, id);
      }
    }
  }

  /** Exactly when a call adds rows: the contract takes the event, nobody has claimed it, and
      some endpoint matches but none of those that already have a row. */
  lemma GrowsIffDisjoint(api: Api, e: Envelope)
    ensures InsertRows(api, e).0.batches != api.batches <==>
            Accepts(api, e) && e.id !in api.claims && Matching(api, e) != {} && Matching(api, e) !! RowsOf(api, e.id)
    ensures InsertRows(api, e).0.batches != api.batches ==>
            RowsOf(InsertRows(api, e).0, e.id) == RowsOf(api, e.id) + Matching(api, e) != RowsOf(api, e.id)
  {
    RowsOfOneMore(api.batches, Batch(e.id, Matching(api, e)), e.id);
    if InsertRows(api, e).0.batches != api.batches {
      var x :| x in Matching(api, e);
      assert x !in RowsOf(api, e.id);
    }
  }

  // ---- The dispatcher's side ----

  /** A message as fetched: bytes that are not JSON decode to nothing. */
  datatype Bytes = Undecodable | Decoded(raw: Json)

  datatype Decision = ToAck | ToTerm | ToRetry

  predicate Parses(bytes: Bytes) {
    bytes.Decoded? && ParseEventEnvelope(bytes.raw).Some?
  }

  function EnvelopeOf(bytes: Bytes): Envelope
    requires Parses(bytes)
  {
    ParseEventEnvelope(bytes.raw).value
  }

  /** What becomes of the call for one message: answered, run with the answer lost, never
      run, or ended by the death of the api between the two commits. */
  datatype Fate = Heard | Unheard | NeverMade | DiedHalfway

  /** What the handler decides, having asked the api if it asks at all. */
  function Handled(api: Api, bytes: Bytes, fate: Fate): (Api, Decision) {
    if !Parses(bytes) then (api, ToTerm)
    else if fate.NeverMade? then (api, ToRetry)
    else
      var (inserted, how) := InsertRows(api, EnvelopeOf(bytes));
      match how
      case Refused => (inserted, ToRetry)
      case Collides => (inserted, ToRetry)
      case Duplicate => (inserted, if fate.Heard? then ToAck else ToRetry)
      case Inserted =>
        var after := if fate.DiedHalfway? then inserted else CommitClaim(inserted, EnvelopeOf(bytes).id);
        (after, if fate.Heard? then ToAck else ToRetry)
  }

  /** A message of the batch, and what becomes of the call made for it. */
  datatype Work = Work(bytes: Bytes, fate: Fate)

  function HandledAll(api: Api, batch: seq<Work>): (Api, seq<Decision>)
    decreases |batch|
  {
    if batch == [] then (api, []) else
    var (next, decision) := Handled(api, batch[0].bytes, batch[0].fate);
    var (after, decisions) := HandledAll(next, batch[1..]);
    (after, [decision] + decisions)
  }

  function Settlements(decisions: seq<Decision>): nat {
    if decisions == [] then 0
    else Settlements(decisions[..|decisions| - 1]) + if decisions[|decisions| - 1] == ToRetry then 0 else 1
  }

  class Expander {
    var api: Api

    constructor (api: Api)
      ensures this.api == api
    {
      this.api := api;
    }

    /** `expandOnce` inside the handler of `pollOnce`: a throw asks for the work back. */
    method Handle(bytes: Bytes, fate: Fate) returns (decision: Decision)
      modifies this
      ensures (api, decision) == Handled(old(api), bytes, fate)
    {
      if bytes.Undecodable? { return ToTerm; }
      var event := ParseEventEnvelope(bytes.raw);
      if event.None? { return ToTerm; }
      if fate.NeverMade? { return ToRetry; }
      var (inserted, how) := InsertRows(api, event.value);
      api := inserted;
      if how.Refused? || how.Collides? { return ToRetry; }
      if how.Inserted? && !fate.DiedHalfway? {
        api := CommitClaim(api, event.value.id);
      }
      return if fate.Heard? then ToAck else ToRetry;
    }

    /** Acknowledges or terminates what is decided; `handled` counts both. */
    method Drain(batch: seq<Work>) returns (decisions: seq<Decision>, handled: nat)
      modifies this
      ensures (api, decisions) == HandledAll(old(api), batch)
      ensures handled == Settlements(decisions)
    {
      decisions, handled := [], 0;
      for i := 0 to |batch|
        invariant HandledAll(old(api), batch).0 == HandledAll(api, batch[i..]).0
        invariant HandledAll(old(api), batch).1 == decisions + HandledAll(api, batch[i..]).1
        invariant handled == Settlements(decisions)
      {
        assert batch[i..][1..] == batch[i + 1..];
        var decision := Handle(batch[i].bytes, batch[i].fate);
        OneMoreDecision(decisions, decision, HandledAll(api, batch[i + 1..]).1);
        decisions := decisions + [decision];
        if decision != ToRetry { handled := handled + 1; }
      }
      assert batch[|batch|..] == [] && HandledAll(api, []) == (api, []);
      assert decisions + [] == decisions;
    }
  }

  lemma OneMoreDecision(decisions: seq<Decision>, decision: Decision, rest: seq<Decision>)
    ensures decisions + ([decision] + rest) == (decisions + [decision]) + rest
    ensures Settlements(decisions + [decision]) == Settlements(decisions) + if decision == ToRetry then 0 else 1
  {
    assert (decisions + [decision])[..|decisions|] == decisions;
  }

  /** Each message of a batch is handled once, in order, by the api as those before it left it,
      and what is counted are the messages acknowledged or terminated. */
  lemma {:induction false} DrainHandlesEach(api: Api, batch: seq<Work>, i: nat)
    requires i < |batch|
    ensures var (_, decisions) := HandledAll(api, batch);
            var (after, decision) := Handled(HandledAll(api, batch[..i]).0, batch[i].bytes, batch[i].fate);
            && |decisions| == |batch|
            && decisions[i] == decision
            && HandledAll(api, batch[..i + 1]).0 == after
            && Settlements(decisions) == |SettledAt(decisions)|
    ensures HandledAll(api, batch[..0]).0 == api && batch[..|batch|] == batch
    decreases |batch|
  {
    var next := Handled(api, batch[0].bytes, batch[0].fate).0;
    SettlementsCount(HandledAll(api, batch).1);
    assert batch[..0] == [] && batch[..|batch|] == batch;
    if i == 0 {
      OneHandled(api, batch[0]);
      assert batch[..1] == [batch[0]];
      DecisionForEach(next, batch[1..]);
    } else {
      DrainHandlesEach(next, batch[1..], i - 1);
      assert batch[1..][..i - 1] == batch[..i][1..] && batch[1..][..i] == batch[..i + 1][1..];
    }
  }

  lemma OneHandled(api: Api, work: Work)
    ensures HandledAll(api, [work]).0 == Handled(api, work.bytes, work.fate).0
  {
    assert [work][1..] == [] && HandledAll(Handled(api, work.bytes, work.fate).0, []).0
        == Handled(api, work.bytes, work.fate).0;
  }

  lemma {:induction false} DecisionForEach(api: Api, batch: seq<Work>)
    ensures |HandledAll(api, batch).1| == |batch|
    decreases |batch|
  {
    if batch != [] {
      DecisionForEach(Handled(api, batch[0].bytes, batch[0].fate).0, batch[1..]);
    }
  }

  /** The positions at which something is settled. */
  function SettledAt(decisions: seq<Decision>): set<nat> {
    set i: nat | i < |decisions| && (decisions[i].ToAck? || decisions[i].ToTerm?)
  }

  lemma OneMoreSettled(decisions: seq<Decision>, decision: Decision)
    ensures |SettledAt(decisions + [decision])| == |SettledAt(decisions)| + if decision.ToRetry? then 0 else 1
  {
    var n, all := |decisions|, decisions + [decision];
    assert forall i: nat :: i < n ==> all[i] == decisions[i];
    assert SettledAt(all) == SettledAt(decisions) + (if decision.ToRetry? then {} else {n});
  }

  lemma {:induction false} SettlementsCount(decisions: seq<Decision>)
    ensures Settlements(decisions) == |SettledAt(decisions)|
  {
    if decisions == [] {
      assert SettledAt([]) == {};
    } else {
      var n := |decisions| - 1;
      SettlementsCount(decisions[..n]);
      OneMoreSettled(decisions[..n], decisions[n]);
      assert decisions == decisions[..n] + [decisions[n]];
    }
  }

  /** Can a call for this envelope succeed at all, as things stand? */
  predicate Succeeds(api: Api, e: Envelope) {
    Accepts(api, e) && (e.id in api.claims || Matching(api, e) !! RowsOf(api, e.id))
  }

  /** The decision, exactly: bytes and shapes that can never parse are terminated whatever
      the api does; an envelope is acknowledged when the api is heard, its contract takes it,
      and it is claimed or none of its endpoints has a row; and everything else is left to
      the broker, which includes every envelope the contract will always refuse. */
  lemma DecisionIsExact(api: Api, bytes: Bytes, fate: Fate)
    ensures Handled(api, bytes, fate).1 == ToTerm <==> !Parses(bytes)
    ensures Handled(api, bytes, fate).1 == ToAck <==> Parses(bytes) && fate.Heard? && Succeeds(api, EnvelopeOf(bytes))
    ensures Handled(api, bytes, fate).1 == ToAck ==> EnvelopeOf(bytes).id in Handled(api, bytes, fate).0.claims
    ensures Handled(api, bytes, fate).1 == ToTerm ==> Handled(api, bytes, fate).0 == api
  {
  }

  /** The text of a field, if the value is an object that has it as a text. */
  predicate FieldIs(raw: Json, name: string, text: string) {
    raw.Object? && name in raw.fields && raw.fields[name] == Str(text)
  }

  /** What parses is exactly an object with three text fields, and it is read from them by their
      names. */
  lemma ParsesIsThreeTexts(raw: Json)
    ensures Parses(Decoded(raw)) <==>
            raw.Object? && forall name :: name in ["id", "type", "environment_id"] ==>
                name in raw.fields && raw.fields[name].Str?
    ensures Parses(Decoded(raw)) ==>
              var e := EnvelopeOf(Decoded(raw));
              FieldIs(raw, "id", e.id) && FieldIs(raw, "type", e.kind) && FieldIs(raw, "environment_id", e.environment)
  {
    if raw.Object? && forall name :: name in ["id", "type", "environment_id"] ==>
        name in raw.fields && raw.fields[name].Str? {
      assert "id" in ["id", "type", "environment_id"] && "type" in ["id", "type", "environment_id"];
      assert "environment_id" in ["id", "type", "environment_id"];
    }
  }

  lemma FieldsMakeEnvelope(raw: Json, id: string, kind: string, environment: string)
    requires FieldIs(raw, "id", id) && FieldIs(raw, "type", kind) && FieldIs(raw, "environment_id", environment)
    ensures Parses(Decoded(raw)) && EnvelopeOf(Decoded(raw)) == Envelope(id, kind, environment)
  {
  }

  lemma FirstInsert(api: Api, e: Envelope, other: string)
    requires Accepts(api, e) && e.id !in api.claims && RowsOf(api, e.id) == {}
    ensures var (after, how) := InsertRows(api, e);
            && how.Inserted? && after.claims == api.claims && after.matching == api.matching
            && RowsOf(after, e.id) == Matching(api, e)
            && (other != e.id ==> RowsOf(after, other) == RowsOf(api, other))
  {
    RowsOfOneMore(api.batches, Batch(e.id, Matching(api, e)), e.id);
    RowsOfOneMore(api.batches, Batch(e.id, Matching(api, e)), other);
  }

  /** What a message of these three fields comes to on its first heard call: the event is claimed
      and acknowledged, and has a row for each endpoint subscribed to its `type` in its
      `environment_id`, and for no other; no other event is touched. */
  lemma FirstCallExpands(api: Api, raw: Json, id: string, kind: string, environment: string, other: string)
    requires FieldIs(raw, "id", id) && FieldIs(raw, "type", kind) && FieldIs(raw, "environment_id", environment)
    requires api.uuid(id) && kind != "" && environment != ""
    requires id !in api.claims && RowsOf(api, id) == {}
    ensures var (after, decision) := Handled(api, Decoded(raw), Heard);
            && decision == ToAck
            && after.claims == api.claims + {id}
            && RowsOf(after, id)
                == (if (environment, kind) in api.matching then api.matching[(environment, kind)] else {})
            && (other != id ==> RowsOf(after, other) == RowsOf(api, other))
            && after.matching == api.matching
  {
    FieldsMakeEnvelope(raw, id, kind, environment);
    FirstInsert(api, Envelope(id, kind, environment), other);
  }
}
