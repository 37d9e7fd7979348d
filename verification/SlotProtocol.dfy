/** Any number of processes interleaving on one Redis: one step per command, per lost
    reply, per late command and per tick of the clock. */
module SlotProtocol {
  import opened Common
  import opened Slots
  import opened SlotRegistry

  /** The last command of this connection that Redis answered OK to a claim or renewal. */
  datatype Lease = Lease(slot: nat, ranAt: int)

  datatype Phase =
    | Idle
    | Walking(at: nat, retired: bool)
    | Renewing
    | Releasing
    | Out

  /** What a gateway keeps for one connection; `slot` is the session's own variable. `stray`
      is where a first claim was when its answer got lost, and `shed` are the slots for which
      a release at shutdown got lost while the session went on. */
  datatype Session = Session(
    env: string,
    user: string,
    slot: Option<nat>,
    phase: Phase,
    lease: Option<Lease>,
    stray: Option<nat>,
    shed: set<nat>)

  predicate Asking(c: Session) {
    c.phase.Walking? || ((c.phase.Renewing? || c.phase.Releasing?) && c.slot.Some?)
  }

  function CommandOf(id: string, c: Session): Command
    requires Asking(c)
  {
    match c.phase
    case Walking(at, false) => Take(Place(c.env, c.user, at), id)
    case Walking(at, true) => TakeRetired(Place(c.env, c.user, at), id)
    case Renewing => Keep(Place(c.env, c.user, c.slot.value), id)
    case Releasing => Retire(Place(c.env, c.user, c.slot.value), id)
  }

  /** What the session makes of an answer. */
  function Heard(c: Session, ok: bool, now: int): Session
    requires Asking(c)
  {
    match c.phase
    case Walking(at, retired) =>
      if ok then c.(slot := Some(at), phase := Idle, lease := Some(Lease(at, now)))
      else if !retired then c.(phase := Walking(at, true))
      else if at + 1 < MAX_CONNECTIONS_PER_USER then c.(phase := Walking(at + 1, false))
      else c.(slot := None, phase := Out, lease := None)
    case Renewing =>
      if ok then c.(phase := Idle, lease := Some(Lease(c.slot.value, now)))
      else c.(phase := Walking(0, false))
    case Releasing => c.(phase := Out)
  }

  /** What it makes of an exception: a claim goes on without a slot, a renewal keeps the
      slot number it had. */
  function Unheard(c: Session): Session
    requires Asking(c)
  {
    match c.phase
    case Walking(at, _) => if c.slot.Some? then c.(phase := Idle) else c.(phase := Out, stray := Some(at))
    case Renewing => c.(phase := Idle)
    case Releasing => c.(phase := Out)
  }

  /** What becomes of a session when `releaseAll` retires one of its slots beside its own
      operations: it has let go of that slot, and if the answer is lost, for good. */
  function Shedding(c: Session, slot: nat, heard: bool): Session {
    var shed := if heard then c.shed else c.shed + {slot};
    c.(lease := if c.lease.Some? && c.lease.value.slot == slot then None else c.lease, shed := shed)
  }

  /** `late` holds the commands whose sender gave up on them. Redis may still run them. */
  datatype Sys = Sys(store: Store, sessions: map<string, Session>, late: set<Command>)

  datatype Step =
    | Open(id: string, env: string, user: string)
    | Answer(id: string)
    | Lose(id: string)
    | RunLate(command: Command)
    | Heartbeat(id: string)
    | Close(id: string)
    | Shed(id: string, slot: nat, heard: bool)
    | Tick(ms: nat)

  function Init(edge: bool): Sys {
    Sys(Store(0, edge, map[]), map[], {})
  }

  predicate Can(s: Sys, step: Step) {
    match step
    case Open(id, _, _) => id !in s.sessions && id != TOMBSTONE
    case Answer(id) => id in s.sessions && Asking(s.sessions[id])
    case Lose(id) => id in s.sessions && Asking(s.sessions[id])
    case RunLate(c) => c in s.late
    case Heartbeat(id) => id in s.sessions && s.sessions[id].phase.Idle? && s.sessions[id].slot.Some?
    case Close(id) => id in s.sessions && s.sessions[id].phase.Idle? && s.sessions[id].slot.Some?
    case Shed(id, slot, _) => id in s.sessions && slot < MAX_CONNECTIONS_PER_USER
    case Tick(_) => true
  }

  function Next(cfg: Config, s: Sys, step: Step): Sys
    requires Can(s, step)
  {
    match step
    case Open(id, env, user) =>
      s.(sessions := s.sessions[id := Session(env, user, None, Walking(0, false), None, None, {})])
    case Answer(id) =>
      var c := s.sessions[id];
      var (store, ok) := Run(cfg, s.store, CommandOf(id, c));
      s.(store := store, sessions := s.sessions[id := Heard(c, ok, store.now)])
    case Lose(id) =>
      var c := s.sessions[id];
      s.(sessions := s.sessions[id := Unheard(c)], late := s.late + {CommandOf(id, c)})
    case RunLate(c) => s.(store := Run(cfg, s.store, c).0)
    case Heartbeat(id) => s.(sessions := s.sessions[id := s.sessions[id].(phase := Renewing)])
    case Close(id) => s.(sessions := s.sessions[id := s.sessions[id].(phase := Releasing, lease := None)])
    case Shed(id, slot, heard) =>
      var c := s.sessions[id];
      var retire := Retire(Place(c.env, c.user, slot), id);
      Sys(
        if heard then Run(cfg, s.store, retire).0 else s.store,
        s.sessions[id := Shedding(c, slot, heard)],
        if heard then s.late else s.late + {retire})
    case Tick(ms) => s.(store := Pass(s.store, ms))
  }

  predicate Reaches(cfg: Config, s: Sys, steps: seq<Step>, t: Sys)
    decreases |steps|
  {
    if steps == [] then s == t
    else Can(s, steps[0]) && Reaches(cfg, Next(cfg, s, steps[0]), steps[1..], t)
  }

  // ---- The invariant ----

  predicate Belongs(s: Sys, p: Place, id: string) {
    && p.slot < MAX_CONNECTIONS_PER_USER
    && id in s.sessions
    && s.sessions[id].env == p.env && s.sessions[id].user == p.user
  }

  predicate KeysNamed(s: Sys) {
    forall p :: p in s.store.keys ==>
      p.slot < MAX_CONNECTIONS_PER_USER && (s.store.keys[p].value == TOMBSTONE || Belongs(s, p, s.store.keys[p].value))
  }

  /** The connection's last answered claim or renewal is younger than the bound, and it has
      not let go of that slot. */
  predicate Current(cfg: Config, s: Store, c: Session) {
    c.lease.Some? && c.lease.value.slot !in c.shed && Standing(s, c.lease.value.ranAt + cfg.boundMs)
  }

  /** Its slot key still carries its id, for at least the rest of that bound. */
  predicate KeyHeld(cfg: Config, s: Store, id: string, c: Session)
    requires c.lease.Some?
  {
    var p := Place(c.env, c.user, c.lease.value.slot);
    p in s.keys && s.keys[p].value == id && s.keys[p].expiry >= c.lease.value.ranAt + cfg.boundMs
  }

  predicate LeaseOk(cfg: Config, s: Store, id: string, c: Session) {
    c.lease.Some? ==>
      && c.lease.value.slot < MAX_CONNECTIONS_PER_USER
      && c.lease.value.ranAt <= s.now
      && (Current(cfg, s, c) ==> KeyHeld(cfg, s, id, c))
  }

  predicate SessionOk(c: Session) {
    && (c.phase.Walking? ==> c.phase.at < MAX_CONNECTIONS_PER_USER)
    && (c.slot.Some? ==> c.slot.value < MAX_CONNECTIONS_PER_USER)
    && (c.slot.None? ==> c.lease.None?)
    && (c.phase.Releasing? || c.phase.Out? ==> c.lease.None?)
  }

  predicate LetGo(c: Session, slot: nat) {
    c.lease.None? || c.lease.value.slot != slot || slot in c.shed
  }

  /** May this command still reach Redis? Only a connection that let go of a slot sends a
      `Retire` for it. */
  predicate CommandOk(s: Sys, c: Command) {
    && Belongs(s, c.place, c.id)
    && (c.Retire? ==> LetGo(s.sessions[c.id], c.place.slot))
  }

  /** A late `Retire` finds its connection closed, or counted as gone from that slot. */
  predicate LateOk(s: Sys, c: Command) {
    CommandOk(s, c) && (c.Retire? ==> s.sessions[c.id].phase.Out? || c.place.slot in s.sessions[c.id].shed)
  }

  predicate Sound(cfg: Config, s: Sys) {
    && TOMBSTONE !in s.sessions
    && KeysNamed(s)
    && (forall id :: id in s.sessions ==> SessionOk(s.sessions[id]) && LeaseOk(cfg, s.store, id, s.sessions[id]))
    && (forall c :: c in s.late ==> LateOk(s, c))
  }

  /** Running any command a session could have sent, now or late, breaks no lease. */
  lemma CommandKeepsLease(cfg: Config, s: Sys, c: Command, id: string, x: Session)
    requires cfg.Valid() && TOMBSTONE != id && LeaseOk(cfg, s.store, id, x)
    requires c.id == id && c.Retire? && c.place.env == x.env && c.place.user == x.user ==> LetGo(x, c.place.slot)
    ensures LeaseOk(cfg, Run(cfg, s.store, c).0, id, x)
  {
    if x.lease.Some? && Current(cfg, s.store, x) {
      var p := Place(x.env, x.user, x.lease.value.slot);
      assert Value(s.store, p) == Some(id);
      if c.id == id && !(c.Retire? && c.place == p) {
        OwnCommandKeepsLiveId(cfg, s.store, c, p);
      } else if c.id != id {
        LiveIdIsSafe(cfg, s.store, c, p, id);
      }
    }
  }

  lemma CommandKeepsNames(cfg: Config, s: Sys, c: Command)
    requires KeysNamed(s) && Belongs(s, c.place, c.id)
    ensures KeysNamed(s.(store := Run(cfg, s.store, c).0))
  {
  }

  /** Sessions are never forgotten and never change hands. */
  lemma KeepsBelonging(s: Sys, t: Sys)
    requires KeysNamed(s.(store := t.store))
    requires forall id :: id in s.sessions ==>
            id in t.sessions && t.sessions[id].env == s.sessions[id].env && t.sessions[id].user == s.sessions[id].user
    ensures KeysNamed(t)
    ensures forall p, x :: Belongs(s, p, x) ==> Belongs(t, p, x)
  {
    forall p | p in t.store.keys && t.store.keys[p].value != TOMBSTONE ensures Belongs(t, p, t.store.keys[p].value) {
      assert Belongs(s.(store := t.store), p, t.store.keys[p].value);
    }
  }

  lemma SentIsOk(cfg: Config, s: Sys, id: string)
    requires Sound(cfg, s) && id in s.sessions && Asking(s.sessions[id])
    ensures CommandOk(s, CommandOf(id, s.sessions[id]))
  {
  }

  /** An OK leaves the answered session with the lease it now records. */
  lemma AnsweredLeaseIsOk(cfg: Config, s: Sys, id: string)
    requires cfg.Valid() && Sound(cfg, s) && Can(s, Answer(id))
    ensures var t := Next(cfg, s, Answer(id));
            SessionOk(t.sessions[id]) && LeaseOk(cfg, t.store, id, t.sessions[id])
  {
    var c := s.sessions[id];
    SentIsOk(cfg, s, id);
    CommandKeepsLease(cfg, s, CommandOf(id, c), id, c);
  }

  lemma AnswerIsSound(cfg: Config, s: Sys, id: string)
    requires cfg.Valid() && Sound(cfg, s) && Can(s, Answer(id))
    ensures Sound(cfg, Next(cfg, s, Answer(id)))
  {
    var c := CommandOf(id, s.sessions[id]);
    SentIsOk(cfg, s, id);
    CommandKeepsNames(cfg, s, c);
    var t := Next(cfg, s, Answer(id));
    forall other | other in t.sessions
      ensures SessionOk(t.sessions[other]) && LeaseOk(cfg, t.store, other, t.sessions[other])
    {
      if other == id {
        AnsweredLeaseIsOk(cfg, s, id);
      } else {
        CommandKeepsLease(cfg, s, c, other, s.sessions[other]);
      }
    }
    KeepsBelonging(s, t);
  }

  lemma LateIsSound(cfg: Config, s: Sys, c: Command)
    requires cfg.Valid() && Sound(cfg, s) && c in s.late
    ensures Sound(cfg, Next(cfg, s, RunLate(c)))
  {
    CommandKeepsNames(cfg, s, c);
    forall id | id in s.sessions ensures LeaseOk(cfg, Run(cfg, s.store, c).0, id, s.sessions[id]) {
      CommandKeepsLease(cfg, s, c, id, s.sessions[id]);
    }
  }

  /** A release at shutdown breaks no lease but the one it ends. */
  lemma ShedIsSound(cfg: Config, s: Sys, id: string, slot: nat, heard: bool)
    requires cfg.Valid() && Sound(cfg, s) && Can(s, Shed(id, slot, heard))
    ensures Sound(cfg, Next(cfg, s, Shed(id, slot, heard)))
  {
    var x := s.sessions[id];
    var retire, t := Retire(Place(x.env, x.user, slot), id), Next(cfg, s, Shed(id, slot, heard));
    CommandKeepsNames(cfg, s, retire);
    assert LeaseOk(cfg, s.store, id, Shedding(x, slot, heard));
    forall other | other in t.sessions
      ensures SessionOk(t.sessions[other]) && LeaseOk(cfg, t.store, other, t.sessions[other])
    {
      if heard {
        CommandKeepsLease(cfg, s, retire, other, t.sessions[other]);
      }
    }
    KeepsBelonging(s, t);
    forall c | c in t.late ensures LateOk(t, c) {
      assert c in s.late ==> LateOk(s, c);
    }
  }

  lemma LoseIsSound(cfg: Config, s: Sys, id: string)
    requires cfg.Valid() && Sound(cfg, s) && Can(s, Lose(id))
    ensures Sound(cfg, Next(cfg, s, Lose(id)))
  {
    SentIsOk(cfg, s, id);
    KeepsBelonging(s, Next(cfg, s, Lose(id)));
  }

  lemma QuietStepIsSound(cfg: Config, s: Sys, step: Step)
    requires cfg.Valid() && Sound(cfg, s) && Can(s, step)
    requires step.Open? || step.Heartbeat? || step.Close? || step.Tick?
    ensures Sound(cfg, Next(cfg, s, step))
  {
    KeepsBelonging(s, Next(cfg, s, step));
  }

  lemma StepIsSound(cfg: Config, s: Sys, step: Step)
    requires cfg.Valid() && Sound(cfg, s) && Can(s, step)
    ensures Sound(cfg, Next(cfg, s, step))
  {
    match step
    case Answer(id) => AnswerIsSound(cfg, s, id);
    case RunLate(c) => LateIsSound(cfg, s, c);
    case Lose(id) => LoseIsSound(cfg, s, id);
    case Shed(id, slot, heard) => ShedIsSound(cfg, s, id, slot, heard);
    case _ => QuietStepIsSound(cfg, s, step);
  }

  lemma {:induction false} RunIsSound(cfg: Config, s: Sys, steps: seq<Step>, t: Sys)
    requires cfg.Valid() && Sound(cfg, s) && Reaches(cfg, s, steps, t)
    ensures Sound(cfg, t)
    decreases |steps|
  {
    if steps != [] {
      StepIsSound(cfg, s, steps[0]);
      RunIsSound(cfg, Next(cfg, s, steps[0]), steps[1..], t);
    }
  }

  // ---- Never over five ----

  function CurrentHolders(cfg: Config, s: Sys, env: string, user: string): set<string> {
    set id | id in s.sessions && s.sessions[id].env == env && s.sessions[id].user == user
        && Current(cfg, s.store, s.sessions[id])
  }

  /** After any run, with any losses, and with releases at shutdown running beside sessions
      that stay open: a connection whose last claim or renewal is younger than the bound and
      that has not let go of that slot has its own id in its slot key, and one user has at
      most five such connections. */
  lemma {:induction false} NeverOverAdmits(cfg: Config, edge: bool, steps: seq<Step>, t: Sys, env: string, user: string)
    requires cfg.Valid() && Reaches(cfg, Init(edge), steps, t)
    ensures forall id :: id in CurrentHolders(cfg, t, env, user) ==>
              Value(t.store, Place(env, user, t.sessions[id].lease.value.slot)) == Some(id)
    ensures |CurrentHolders(cfg, t, env, user)| <= 5
  {
    RunIsSound(cfg, Init(edge), steps, t);
    var holders := CurrentHolders(cfg, t, env, user);
    var slotOf := (id: string) => if id in t.sessions && t.sessions[id].lease.Some?
        then t.sessions[id].lease.value.slot else 0;
    forall id | id in holders
      ensures Value(t.store, Place(env, user, slotOf(id))) == Some(id) && slotOf(id) in Below(MAX_CONNECTIONS_PER_USER)
    {
      assert LeaseOk(cfg, t.store, id, t.sessions[id]);
    }
    InjectiveImage(holders, slotOf, Below(MAX_CONNECTIONS_PER_USER));
  }

  // ---- One slot each, while no claim is lost on the way to another slot ----

  /** No answer to a command of a re-claim gets lost in this run. */
  predicate ReclaimsHeard(cfg: Config, s: Sys, steps: seq<Step>)
    decreases |steps|
  {
    steps != [] ==>
      && Can(s, steps[0])
      && !LosesReclaim(s, steps[0])
      && ReclaimsHeard(cfg, Next(cfg, s, steps[0]), steps[1..])
  }

  predicate LosesReclaim(s: Sys, step: Step) {
    step.Lose? && step.id in s.sessions && s.sessions[step.id].phase.Walking? && s.sessions[step.id].slot.Some?
  }

  /** The only slot where a connection's id may stand, or a late command may put it. */
  function Home(c: Session): Option<nat> {
    if c.phase.Walking? then None else if c.slot.Some? then c.slot else c.stray
  }

  predicate AtHome(s: Sys, p: Place) {
    Value(s.store, p).Some? && Value(s.store, p).value in s.sessions ==>
      Home(s.sessions[Value(s.store, p).value]) == Some(p.slot)
  }

  predicate LateAtHome(s: Sys, c: Command) {
    c.Take? || c.TakeRetired? ==>
      && c.id in s.sessions && c.id != TOMBSTONE
      && s.sessions[c.id].phase.Out? && s.sessions[c.id].slot.None? && s.sessions[c.id].stray == Some(c.place.slot)
  }

  predicate Single(s: Sys) {
    && (forall p :: p in s.store.keys ==> AtHome(s, p))
    && (forall c :: c in s.late ==> LateAtHome(s, c))
    && (forall id :: id in s.sessions && s.sessions[id].phase.Walking? ==> s.sessions[id].stray.None?)
    && (forall id :: id in s.sessions && s.sessions[id].slot.Some? ==> s.sessions[id].stray.None?)
  }

  /** An id stands nowhere but where its own command looks. */
  lemma StandsNowhereElse(s: Sys, id: string, p: Place)
    requires KeysNamed(s) && Single(s) && id in s.sessions && id != TOMBSTONE && Asking(s.sessions[id])
    requires p != CommandOf(id, s.sessions[id]).place
    ensures Value(s.store, p) != Some(id)
  {
    assert p in s.store.keys ==> AtHome(s, p);
    assert p in s.store.keys && s.store.keys[p].value == id ==> Belongs(s, p, id);
  }

  lemma AnswerKeepsHome(cfg: Config, s: Sys, id: string, p: Place)
    requires TOMBSTONE !in s.sessions && KeysNamed(s) && Single(s) && Can(s, Answer(id))
    requires p in Next(cfg, s, Answer(id)).store.keys
    ensures AtHome(Next(cfg, s, Answer(id)), p)
  {
    assert p in s.store.keys ==> AtHome(s, p);
    if p != CommandOf(id, s.sessions[id]).place {
      StandsNowhereElse(s, id, p);
    }
  }

  lemma LateKeepsHome(cfg: Config, s: Sys, c: Command, p: Place)
    requires cfg.Valid() && Sound(cfg, s) && Single(s) && c in s.late
    requires p in Next(cfg, s, RunLate(c)).store.keys
    ensures AtHome(Next(cfg, s, RunLate(c)), p)
  {
    assert p in s.store.keys ==> AtHome(s, p);
    assert LateAtHome(s, c) && LateOk(s, c);
  }

  lemma OtherKeepsHome(cfg: Config, s: Sys, step: Step, p: Place)
    requires cfg.Valid() && Sound(cfg, s) && Single(s) && Can(s, step) && !step.Answer? && !step.RunLate?
    requires !LosesReclaim(s, step) && p in Next(cfg, s, step).store.keys
    ensures AtHome(Next(cfg, s, step), p)
  {
    assert p in s.store.keys ==> AtHome(s, p);
    assert p in s.store.keys && s.store.keys[p].value != TOMBSTONE ==> Belongs(s, p, s.store.keys[p].value);
  }

  lemma StepKeepsLateHome(cfg: Config, s: Sys, step: Step, c: Command)
    requires cfg.Valid() && Sound(cfg, s) && Single(s) && Can(s, step) && !LosesReclaim(s, step)
    requires c in Next(cfg, s, step).late
    ensures LateAtHome(Next(cfg, s, step), c)
  {
    assert c in s.late ==> LateAtHome(s, c);
  }

  lemma StepKeepsSingle(cfg: Config, s: Sys, step: Step)
    requires cfg.Valid() && Sound(cfg, s) && Single(s) && Can(s, step) && !LosesReclaim(s, step)
    ensures Single(Next(cfg, s, step))
  {
    var t := Next(cfg, s, step);
    forall p | p in t.store.keys ensures AtHome(t, p) {
      if step.Answer? {
        AnswerKeepsHome(cfg, s, step.id, p);
      } else if step.RunLate? {
        LateKeepsHome(cfg, s, step.command, p);
      } else {
        OtherKeepsHome(cfg, s, step, p);
      }
    }
    forall c | c in t.late ensures LateAtHome(t, c) {
      StepKeepsLateHome(cfg, s, step, c);
    }
  }

  lemma {:induction false} RunKeepsSingle(cfg: Config, s: Sys, steps: seq<Step>, t: Sys)
    requires cfg.Valid() && Sound(cfg, s) && Single(s) && Reaches(cfg, s, steps, t) && ReclaimsHeard(cfg, s, steps)
    ensures Sound(cfg, t) && Single(t)
    decreases |steps|
  {
    if steps != [] {
      StepIsSound(cfg, s, steps[0]);
      StepKeepsSingle(cfg, s, steps[0]);
      RunKeepsSingle(cfg, Next(cfg, s, steps[0]), steps[1..], t);
    }
  }

  /** Whatever other answers get lost, and however late their commands run: while the
      commands of re-claims are heard, a connection owns at most one slot key at any instant,
      also while it is moving from one slot to another. */
  lemma OneSlotEach(cfg: Config, edge: bool, steps: seq<Step>, t: Sys, id: string, p: Place, q: Place)
    requires cfg.Valid() && Reaches(cfg, Init(edge), steps, t) && ReclaimsHeard(cfg, Init(edge), steps)
    requires id != TOMBSTONE && Value(t.store, p) == Some(id) && Value(t.store, q) == Some(id)
    ensures p == q
  {
    RunKeepsSingle(cfg, Init(edge), steps, t);
    assert AtHome(t, p) && AtHome(t, q);
    assert Belongs(t, p, id) && Belongs(t, q, id);
  }

  lemma {:induction false} ReachesOn(cfg: Config, s: Sys, first: seq<Step>, u: Sys, second: seq<Step>, t: Sys)
    requires Reaches(cfg, s, first, u) && Reaches(cfg, u, second, t)
    ensures Reaches(cfg, s, first + second, t)
    decreases |first|
  {
    if first == [] {
      assert first + second == second;
    } else {
      ReachesOn(cfg, Next(cfg, s, first[0]), first[1..], u, second, t);
      assert (first + second)[1..] == first[1..] + second;
    }
  }

  lemma OneStep(cfg: Config, s: Sys, step: Step)
    requires Can(s, step)
    ensures Reaches(cfg, s, [step], Next(cfg, s, step))
  {
    assert [step][1..] == [];
  }

  /** One connection of the user holds slot 0. */
  function OneIn(cfg: Config, edge: bool, env: string, user: string, other: string): Sys {
    Sys(
      Store(0, edge, map[Place(env, user, 0) := Entry(other, cfg.boundMs)]),
      map[other := Session(env, user, Some(0), Idle, Some(Lease(0, 0)), None, {})],
      {})
  }

  lemma OneComesIn(cfg: Config, edge: bool, env: string, user: string, other: string)
    requires other != TOMBSTONE
    ensures Reaches(cfg, Init(edge), [Open(other, env, user)] + [Answer(other)], OneIn(cfg, edge, env, user, other))
  {
    var s1 := Next(cfg, Init(edge), Open(other, env, user));
    OneStep(cfg, Init(edge), Open(other, env, user));
    OneStep(cfg, s1, Answer(other));
    assert Next(cfg, s1, Answer(other)) == OneIn(cfg, edge, env, user, other);
    ReachesOn(cfg, Init(edge), [Open(other, env, user)], s1, [Answer(other)], OneIn(cfg, edge, env, user, other));
  }

  /** Another finds slot 0 taken and holds slot 1. */
  function TwoIn(cfg: Config, edge: bool, env: string, user: string, other: string, id: string): Sys {
    var s := OneIn(cfg, edge, env, user, other);
    s.(store := s.store.(keys := s.store.keys[Place(env, user, 1) := Entry(id, cfg.boundMs)]),
       sessions := s.sessions[id := Session(env, user, Some(1), Idle, Some(Lease(1, 0)), None, {})])
  }

  lemma AnotherComesIn(cfg: Config, edge: bool, env: string, user: string, other: string, id: string)
    requires cfg.Valid() && other != id && other != TOMBSTONE && id != TOMBSTONE
    ensures Reaches(
      cfg,
      OneIn(cfg, edge, env, user, other),
      [Open(id, env, user)] + [Answer(id)] + [Answer(id)] + [Answer(id)],
      TwoIn(cfg, edge, env, user, other, id))
  {
    var s0 := OneIn(cfg, edge, env, user, other);
    var c := Session(env, user, None, Walking(0, false), None, None, {});
    assert Value(s0.store, Place(env, user, 0)) == Some(other) && Value(s0.store, Place(env, user, 1)).None?;
    var s1, s2, s3 := s0.(sessions := s0.sessions[id := c]),
        s0.(sessions := s0.sessions[id := c.(phase := Walking(0, true))]),
        s0.(sessions := s0.sessions[id := c.(phase := Walking(1, false))]);
    OneStep(cfg, s0, Open(id, env, user));
    OneStep(cfg, s1, Answer(id));
    assert s1.sessions[id := c.(phase := Walking(0, true))] == s2.sessions;
    OneStep(cfg, s2, Answer(id));
    assert s2.sessions[id := c.(phase := Walking(1, false))] == s3.sessions;
    OneStep(cfg, s3, Answer(id));
    assert Next(cfg, s3, Answer(id)).sessions == TwoIn(cfg, edge, env, user, other, id).sessions;
    ReachesOn(cfg, s0, [Open(id, env, user)], s1, [Answer(id)], s2);
    ReachesOn(cfg, s0, [Open(id, env, user)] + [Answer(id)], s2, [Answer(id)], s3);
    ReachesOn(cfg, s0, [Open(id, env, user)] + [Answer(id)] + [Answer(id)], s3, [Answer(id)],
        TwoIn(cfg, edge, env, user, other, id));
  }

  /** Is `id` about to re-claim at slot 0, with its old slot 1 and slot 0 both empty? */
  predicate ReclaimsAtZero(s: Sys, id: string) {
    && id in s.sessions && id != TOMBSTONE
    && var c := s.sessions[id];
    && c.phase == Walking(0, false) && c.slot == Some(1)
    && Value(s.store, Place(c.env, c.user, 0)).None? && Value(s.store, Place(c.env, c.user, 1)).None?
  }

  /** Both leases lapse, and the second connection asks again. */
  lemma BothLapse(cfg: Config, edge: bool, env: string, user: string, other: string, id: string) returns (t: Sys)
    requires cfg.Valid() && other != id && other != TOMBSTONE && id != TOMBSTONE
    ensures Reaches(cfg, TwoIn(cfg, edge, env, user, other, id),
            [Tick(cfg.boundMs + 1)] + [Heartbeat(id)] + [Answer(id)], t)
    ensures ReclaimsAtZero(t, id) && t.sessions[id].env == env && t.sessions[id].user == user
  {
    var s0 := TwoIn(cfg, edge, env, user, other, id);
    var s1 := Next(cfg, s0, Tick(cfg.boundMs + 1));
    assert Value(s1.store, Place(env, user, 0)).None? && Value(s1.store, Place(env, user, 1)).None?;
    var s2 := Next(cfg, s1, Heartbeat(id));
    t := Next(cfg, s2, Answer(id));
    OneStep(cfg, s0, Tick(cfg.boundMs + 1));
    OneStep(cfg, s1, Heartbeat(id));
    OneStep(cfg, s2, Answer(id));
    ReachesOn(cfg, s0, [Tick(cfg.boundMs + 1)], s1, [Heartbeat(id)], s2);
    ReachesOn(cfg, s0, [Tick(cfg.boundMs + 1)] + [Heartbeat(id)], s2, [Answer(id)], t);
  }

  /** The answer to its command is lost, which has run all the same. */
  lemma LosesIt(cfg: Config, s: Sys, id: string) returns (t: Sys)
    requires cfg.Valid() && ReclaimsAtZero(s, id)
    ensures Reaches(cfg, s, [Lose(id)] + [RunLate(Take(Place(s.sessions[id].env, s.sessions[id].user, 0), id))], t)
    ensures t.sessions == s.sessions[id := s.sessions[id].(phase := Idle)]
    ensures Value(t.store, Place(s.sessions[id].env, s.sessions[id].user, 0)) == Some(id)
    ensures Value(t.store, Place(s.sessions[id].env, s.sessions[id].user, 1)).None?
  {
    var take := Take(Place(s.sessions[id].env, s.sessions[id].user, 0), id);
    var u := Next(cfg, s, Lose(id));
    t := Next(cfg, u, RunLate(take));
    OneStep(cfg, s, Lose(id));
    OneStep(cfg, u, RunLate(take));
    ReachesOn(cfg, s, [Lose(id)], u, [RunLate(take)], t);
  }

  /** The next heartbeat finds slot 1 gone, walks past its own slot 0 and takes slot 1. */
  lemma WalksPastItself(cfg: Config, s: Sys, id: string) returns (t: Sys)
    requires cfg.Valid() && id in s.sessions && id != TOMBSTONE && s.sessions[id].phase.Idle?
            && s.sessions[id].slot == Some(1)
    requires Value(s.store, Place(s.sessions[id].env, s.sessions[id].user, 0)) == Some(id)
    requires Value(s.store, Place(s.sessions[id].env, s.sessions[id].user, 1)).None?
    ensures Reaches(cfg, s, [Heartbeat(id)] + [Answer(id)] + [Answer(id)] + [Answer(id)] + [Answer(id)], t)
    ensures Value(t.store, Place(s.sessions[id].env, s.sessions[id].user, 0)) == Some(id)
    ensures Value(t.store, Place(s.sessions[id].env, s.sessions[id].user, 1)) == Some(id)
  {
    var s1 := Next(cfg, s, Heartbeat(id));
    var s2 := Next(cfg, s1, Answer(id));
    assert s2.store == s.store && s2.sessions[id].phase == Walking(0, false);
    var s3 := Next(cfg, s2, Answer(id));
    assert s3.store == s.store && s3.sessions[id].phase == Walking(0, true);
    var s4 := Next(cfg, s3, Answer(id));
    assert s4.store == s.store && s4.sessions[id].phase == Walking(1, false);
    t := Next(cfg, s4, Answer(id));
    OneStep(cfg, s, Heartbeat(id));
    OneStep(cfg, s1, Answer(id));
    OneStep(cfg, s2, Answer(id));
    OneStep(cfg, s3, Answer(id));
    OneStep(cfg, s4, Answer(id));
    ReachesOn(cfg, s, [Heartbeat(id)], s1, [Answer(id)], s2);
    ReachesOn(cfg, s, [Heartbeat(id)] + [Answer(id)], s2, [Answer(id)], s3);
    ReachesOn(cfg, s, [Heartbeat(id)] + [Answer(id)] + [Answer(id)], s3, [Answer(id)], s4);
    ReachesOn(cfg, s, [Heartbeat(id)] + [Answer(id)] + [Answer(id)] + [Answer(id)], s4, [Answer(id)], t);
  }

  /** The hypothesis of `OneSlotEach` is needed: a run from the start in which the answer to
      one command of a re-claim is lost, and a connection comes to own two slot keys. */
  lemma LostReplyOwnsTwo(cfg: Config, edge: bool, env: string, user: string, other: string, id: string)
    returns (steps: seq<Step>, t: Sys)
    requires cfg.Valid() && other != id && other != TOMBSTONE && id != TOMBSTONE
    ensures Reaches(cfg, Init(edge), steps, t)
    ensures Value(t.store, Place(env, user, 0)) == Some(id) && Value(t.store, Place(env, user, 1)) == Some(id)
  {
    var a, b := OneIn(cfg, edge, env, user, other), TwoIn(cfg, edge, env, user, other, id);
    OneComesIn(cfg, edge, env, user, other);
    AnotherComesIn(cfg, edge, env, user, other, id);
    var c := BothLapse(cfg, edge, env, user, other, id);
    var d := LosesIt(cfg, c, id);
    t := WalksPastItself(cfg, d, id);
    steps := [Open(other, env, user)] + [Answer(other)];
    var more := [Open(id, env, user)] + [Answer(id)] + [Answer(id)] + [Answer(id)];
    ReachesOn(cfg, Init(edge), steps, a, more, b);
    steps := steps + more;
    more := [Tick(cfg.boundMs + 1)] + [Heartbeat(id)] + [Answer(id)];
    ReachesOn(cfg, Init(edge), steps, b, more, c);
    steps := steps + more;
    more := [Lose(id)] + [RunLate(Take(Place(env, user, 0), id))];
    ReachesOn(cfg, Init(edge), steps, c, more, d);
    steps := steps + more;
    more := [Heartbeat(id)] + [Answer(id)] + [Answer(id)] + [Answer(id)] + [Answer(id)];
    ReachesOn(cfg, Init(edge), steps, d, more, t);
    steps := steps + more;
  }

  // ---- Renewals in time never move ----

  /** No step of this run closes `id` or releases it at shutdown, and each renewal of `id` that
      is answered runs while the lease before it still stands. Answers may be lost. */
  predicate Punctual(cfg: Config, s: Sys, steps: seq<Step>, id: string)
    requires id in s.sessions
    decreases |steps|
  {
    steps != [] ==>
      && Can(s, steps[0])
      && steps[0] != Close(id) && !(steps[0].Shed? && steps[0].id == id)
      && (steps[0] == Answer(id) ==> Current(cfg, s.store, s.sessions[id]))
      && Punctual(cfg, Next(cfg, s, steps[0]), steps[1..], id)
  }

  predicate Settled(s: Sys, id: string, slot: nat) {
    && id in s.sessions
    && var c := s.sessions[id];
    && c.slot == Some(slot)
    && (c.phase.Idle? || c.phase.Renewing?)
    && c.lease.Some? && c.lease.value.slot == slot
  }

  /** For a run of any length, whatever all the others do and whichever of its answers are
      lost, such a connection is answered `renewed` each time it is answered and stays on its
      slot: it never walks. */
  lemma {:induction false} PunctualRenewalsNeverMove(cfg: Config, s: Sys, steps: seq<Step>, t: Sys, id: string,
        slot: nat)
    requires cfg.Valid() && Sound(cfg, s) && Reaches(cfg, s, steps, t)
    requires Settled(s, id, slot) && Punctual(cfg, s, steps, id)
    ensures Settled(t, id, slot)
    decreases |steps|
  {
    if steps != [] {
      var next := Next(cfg, s, steps[0]);
      StepIsSound(cfg, s, steps[0]);
      if steps[0] == Answer(id) {
        assert LeaseOk(cfg, s.store, id, s.sessions[id]);
      }
      PunctualRenewalsNeverMove(cfg, next, steps[1..], t, id, slot);
    }
  }

  /** A connection whose renewal was answered, and that then misses `misses` heartbeats in a row,
      asks again after `misses + 1` of them. With the shipped 20 s and 60 s, one miss never
      costs the slot; two cost it unless Redis keeps a key through its very expiry instant;
      three always do. */
  lemma MissedHeartbeats(s: Store, h: Held, misses: nat)
    requires h.id != TOMBSTONE
    requires RenewRun(Config(DEFAULT_BOUND_MS, DEFAULT_TOMBSTONE_MS), World(s, []), h).1.Renewed?
    ensures var shipped := Config(DEFAULT_BOUND_MS, DEFAULT_TOMBSTONE_MS);
            var later := Pass(RenewRun(shipped, World(s, []), h).0.store, (misses + 1) * 20_000);
            RenewRun(shipped, World(later, []), h).1.Renewed? <==> misses < 2 || (misses == 2 && s.edge)
  {
    var shipped := Config(DEFAULT_BOUND_MS, DEFAULT_TOMBSTONE_MS);
    RenewedIsKept(shipped, World(s, []), h);
    RenewedIsKept(shipped, World(Pass(RenewRun(shipped, World(s, []), h).0.store, (misses + 1) * 20_000), []), h);
  }

  // ---- The walk of one process, as steps of the system ----

  /** Drive one session with its own commands until it has nothing more to ask. */
  function Drive(cfg: Config, w: World, id: string, c: Session): (World, Session)
    requires c.phase.Walking? ==> c.phase.at < MAX_CONNECTIONS_PER_USER
    decreases if c.phase.Walking? then 2 * (MAX_CONNECTIONS_PER_USER - c.phase.at) + (if c.phase.retired then 0 else 1)
        else if Asking(c) then 2 * MAX_CONNECTIONS_PER_USER + 2
        else 0
  {
    if !Asking(c) then (w, c) else
    var a := Ask(cfg, w, CommandOf(id, c));
    if a.heard then Drive(cfg, a.world, id, Heard(c, a.ok, a.world.store.now)) else (a.world, Unheard(c))
  }

  /** `claim` and the second half of `renew` take exactly these steps. */
  lemma {:induction false} WalkIsSteps(cfg: Config, w: World, id: string, c: Session, slot: nat)
    requires slot < MAX_CONNECTIONS_PER_USER && c.phase == Walking(slot, false)
    ensures var (w', out) := WalkFrom(cfg, w, c.env, c.user, id, slot);
            var (v, d) := Drive(cfg, w, id, c);
            v == w' && d == match out
              case Claimed(j, _) => c.(slot := Some(j), phase := Idle, lease := Some(Lease(j, w'.store.now)))
              case Full(_) => c.(slot := None, phase := Out, lease := None)
              case Unenforced => if c.slot.Some? then c.(phase := Idle) else c.(phase := Out, stray := d.stray)
    decreases MAX_CONNECTIONS_PER_USER - slot
  {
    var p := Place(c.env, c.user, slot);
    var first := Ask(cfg, w, Take(p, id));
    if first.heard && !first.ok {
      var c2 := c.(phase := Walking(slot, true));
      var second := Ask(cfg, first.world, TakeRetired(p, id));
      assert Drive(cfg, w, id, c) == Drive(cfg, first.world, id, c2);
      if second.heard && !second.ok {
        var c3 := Heard(c2, false, second.world.store.now);
        assert Drive(cfg, first.world, id, c2) == Drive(cfg, second.world, id, c3);
        if slot + 1 < MAX_CONNECTIONS_PER_USER {
          WalkIsSteps(cfg, second.world, id, c3, slot + 1);
        }
      }
    }
  }

  /** `renew` takes exactly these: its own command, and then the walk's. */
  lemma RenewIsSteps(cfg: Config, w: World, id: string, c: Session)
    requires c.phase.Renewing? && c.slot.Some?
    ensures var (w', out) := RenewRun(cfg, w, Held(c.env, c.user, id, c.slot.value));
            var (v, d) := Drive(cfg, w, id, c);
            v == w' && d == match out
              case Renewed => c.(phase := Idle, lease := Some(Lease(c.slot.value, w'.store.now)))
              case Reclaimed(j) => c.(slot := Some(j), phase := Idle, lease := Some(Lease(j, w'.store.now)))
              case RenewFull(_) => c.(slot := None, phase := Out, lease := None)
              case RenewUnenforced => c.(phase := Idle)
  {
    var h := Held(c.env, c.user, id, c.slot.value);
    var asked := Ask(cfg, w, Keep(PlaceOf(h), h.id));
    if asked.heard && !asked.ok {
      var walking := c.(phase := Walking(0, false));
      assert Drive(cfg, w, id, c) == Drive(cfg, asked.world, id, walking);
      WalkIsSteps(cfg, asked.world, id, walking, 0);
    }
  }

  /** `release` takes one. */
  lemma ReleaseIsSteps(cfg: Config, w: World, id: string, c: Session)
    requires c.phase.Releasing? && c.slot.Some?
    ensures Drive(cfg, w, id, c) == (ReleaseRun(cfg, w, Held(c.env, c.user, id, c.slot.value)), c.(phase := Out))
  {
  }

  /** A socket that closes sends its release, and that is what `release` and, beside any session,
      `releaseAll` send for it; one that is lost may still run. */
  lemma ClosingReleases(cfg: Config, s: Sys, id: string)
    requires Can(s, Close(id))
    ensures var closing, h := Next(cfg, s, Close(id)), HeldBy(s, id, s.sessions[id].slot.value);
            && Can(closing, Answer(id))
            && var t := Next(cfg, closing, Answer(id));
            && t.store == ReleaseRun(cfg, World(s.store, []), h).store && t.late == s.late
            && t.sessions[id].phase.Out? && t.sessions[id].lease.None?
  {
  }

  function HeldBy(s: Sys, id: string, slot: nat): Held
    requires id in s.sessions
  {
    Held(s.sessions[id].env, s.sessions[id].user, id, slot)
  }

  lemma ShedReleases(cfg: Config, s: Sys, id: string, slot: nat, heard: bool)
    requires Can(s, Shed(id, slot, heard))
    ensures var t, h := Next(cfg, s, Shed(id, slot, heard)), HeldBy(s, id, slot);
            && (heard ==> t.store == ReleaseRun(cfg, World(s.store, []), h).store && t.late == s.late)
            && (!heard ==> t.store == s.store && t.late == s.late + {Retire(PlaceOf(h), id)})
            && (forall other :: other in s.sessions && other != id ==> t.sessions[other] == s.sessions[other])
  {
  }
}
