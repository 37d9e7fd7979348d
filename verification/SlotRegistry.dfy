/** `walk`, `renew`, `release` and `releaseAll` as one process runs them, against a
    Redis that other processes keep using in between. */
module SlotRegistry {
  import opened Common
  import opened Slots

  /** What the rest of the world can do to the store between two of our commands. */
  datatype Happening = Ran(command: Command) | Passed(ms: nat)

  datatype Turn = Turn(others: seq<Happening>, hearing: Hearing)

  /** The store, and the turns still to come; with none left the world is quiet. */
  datatype World = World(store: Store, turns: seq<Turn>)

  datatype Asked = Asked(world: World, heard: bool, ok: bool)

  datatype ClaimOutcome = Claimed(slot: nat, held: nat) | Full(held: nat) | Unenforced

  datatype RenewOutcome = Renewed | Reclaimed(slot: nat) | RenewFull(held: nat) | RenewUnenforced

  datatype Held = Held(env: string, user: string, id: string, slot: nat)

  function PlaceOf(h: Held): Place {
    Place(h.env, h.user, h.slot)
  }

  function Happen(cfg: Config, s: Store, hs: seq<Happening>): Store
    decreases |hs|
  {
    if hs == [] then s
    else match hs[0]
      case Ran(c) => Happen(cfg, Run(cfg, s, c).0, hs[1..])
      case Passed(ms) => Happen(cfg, Pass(s, ms), hs[1..])
  }

  function NextTurn(w: World): Turn {
    if w.turns == [] then Turn([], Answered) else w.turns[0]
  }

  /** The store as the next command of ours finds it. */
  function Found(cfg: Config, w: World): Store {
    Happen(cfg, w.store, NextTurn(w).others)
  }

  function Ask(cfg: Config, w: World, c: Command): Asked {
    var rest := if w.turns == [] then [] else w.turns[1..];
    var (after, ok) := Run(cfg, Found(cfg, w), c);
    match NextTurn(w).hearing
    case Answered => Asked(World(after, rest), true, ok)
    case RanUnheard => Asked(World(after, rest), false, false)
    case NeverRan => Asked(World(Found(cfg, w), rest), false, false)
  }

  /** The walk from `slot` on: two commands per contested slot, one failure path. */
  function WalkFrom(cfg: Config, w: World, env: string, user: string, id: string, slot: nat): (World, ClaimOutcome)
    decreases MAX_CONNECTIONS_PER_USER - slot
  {
    if slot >= MAX_CONNECTIONS_PER_USER then (w, Full(MAX_CONNECTIONS_PER_USER)) else
    var first := Ask(cfg, w, Take(Place(env, user, slot), id));
    if !first.heard then (first.world, Unenforced) else
    if first.ok then (first.world, Claimed(slot, slot)) else
    var second := Ask(cfg, first.world, TakeRetired(Place(env, user, slot), id));
    if !second.heard then (second.world, Unenforced) else
    if second.ok then (second.world, Claimed(slot, slot)) else
    WalkFrom(cfg, second.world, env, user, id, slot + 1)
  }

  function RenewRun(cfg: Config, w: World, h: Held): (World, RenewOutcome) {
    var asked := Ask(cfg, w, Keep(PlaceOf(h), h.id));
    if !asked.heard then (asked.world, RenewUnenforced) else
    if asked.ok then (asked.world, Renewed) else
    var (w', again) := WalkFrom(cfg, asked.world, h.env, h.user, h.id, 0);
    match again
    case Claimed(slot, _) => (w', Reclaimed(slot))
    case Full(held) => (w', RenewFull(held))
    case Unenforced => (w', RenewUnenforced)
  }

  function ReleaseRun(cfg: Config, w: World, h: Held): World {
    Ask(cfg, w, Retire(PlaceOf(h), h.id)).world
  }

  function ReleaseAllRun(cfg: Config, w: World, held: seq<Held>): World
    decreases |held|
  {
    if held == [] then w else ReleaseAllRun(cfg, ReleaseRun(cfg, w, held[0]), held[1..])
  }

  /** One process's client. `store` is the shared Redis; `turns` is what the world will
      do to it, and to our commands, as we go. */
  class Registry {
    const cfg: Config
    var store: Store
    var turns: seq<Turn>

    ghost function Now(): World reads this { World(store, turns) }

    constructor (cfg: Config, store: Store, turns: seq<Turn>)
      ensures this.cfg == cfg && Now() == World(store, turns)
    {
      this.cfg, this.store, this.turns := cfg, store, turns;
    }

    /** One command under `failable`: an exception is `heard == false`. */
    method Send(c: Command) returns (heard: bool, ok: bool)
      modifies this
      ensures Asked(Now(), heard, ok) == Ask(cfg, old(Now()), c)
    {
      var turn := NextTurn(World(store, turns));
      var found := Happen(cfg, store, turn.others);
      turns := if turns == [] then [] else turns[1..];
      heard, ok := turn.hearing == Answered, false;
      if turn.hearing == NeverRan {
        store := found;
      } else {
        var (after, took) := Run(cfg, found, c);
        store := after;
        ok := heard && took;
      }
    }

    method Claim(env: string, user: string, id: string) returns (outcome: ClaimOutcome)
      modifies this
      ensures (Now(), outcome) == WalkFrom(cfg, old(Now()), env, user, id, 0)
    {
      for slot := 0 to MAX_CONNECTIONS_PER_USER
        invariant WalkFrom(cfg, old(Now()), env, user, id, 0) == WalkFrom(cfg, Now(), env, user, id, slot)
      {
        var place := Place(env, user, slot);
        var heard, ok := Send(Take(place, id));
        if heard && !ok {
          heard, ok := Send(TakeRetired(place, id));
        }
        if !heard { return Unenforced; }
        if ok { return Claimed(slot, slot); }
      }
      return Full(MAX_CONNECTIONS_PER_USER);
    }

    method Renew(h: Held) returns (outcome: RenewOutcome)
      modifies this
      ensures (Now(), outcome) == RenewRun(cfg, old(Now()), h)
    {
      var heard, ok := Send(Keep(PlaceOf(h), h.id));
      if !heard { return RenewUnenforced; }
      if ok { return Renewed; }
      var again := Claim(h.env, h.user, h.id);
      match again
      case Claimed(slot, _) => return Reclaimed(slot);
      case Full(held) => return RenewFull(held);
      case Unenforced => return RenewUnenforced;
    }

    method Release(h: Held)
      modifies this
      ensures Now() == ReleaseRun(cfg, old(Now()), h)
    {
      var _, _ := Send(Retire(PlaceOf(h), h.id));
    }

    method ReleaseAll(held: seq<Held>)
      modifies this
      ensures Now() == ReleaseAllRun(cfg, old(Now()), held)
    {
      for i := 0 to |held|
        invariant ReleaseAllRun(cfg, old(Now()), held) == ReleaseAllRun(cfg, Now(), held[i..])
      {
        var _, _ := Send(Retire(PlaceOf(held[i]), held[i].id));
      }
    }
  }

  // ---- Run without interleaving ----

  /** The slots whose key holds a live connection id. */
  function Holders(s: Store, env: string, user: string): set<nat> {
    set slot | slot in Below(MAX_CONNECTIONS_PER_USER) && !Free(s, Place(env, user, slot))
  }

  /** A quiet walk takes the least free slot and writes nothing else; it answers `full`
      exactly when every slot from here on holds a live id, and then writes nothing. */
  lemma {:induction false} QuietWalkTakesLeastFree(cfg: Config, s: Store, env: string, user: string, id: string,
        slot: nat)
    requires slot <= MAX_CONNECTIONS_PER_USER
    ensures var (w, out) := WalkFrom(cfg, World(s, []), env, user, id, slot);
            && w.turns == []
            && !out.Unenforced?
            && (out.Full? <==> forall j: nat :: slot <= j < MAX_CONNECTIONS_PER_USER ==> !Free(s, Place(env, user, j)))
            && (out.Full? ==> w.store == s && out.held == MAX_CONNECTIONS_PER_USER)
            && (out.Claimed? ==>
                  && slot <= out.slot < MAX_CONNECTIONS_PER_USER
                  && Free(s, Place(env, user, out.slot))
                  && (forall j: nat :: slot <= j < out.slot ==> !Free(s, Place(env, user, j)))
                  && w.store == Write(s, Place(env, user, out.slot), id, cfg.boundMs)
                  && out.held == out.slot)
    decreases MAX_CONNECTIONS_PER_USER - slot
  {
    if slot < MAX_CONNECTIONS_PER_USER && !Free(s, Place(env, user, slot)) {
      QuietWalkTakesLeastFree(cfg, s, env, user, id, slot + 1);
    }
  }

  lemma HoldersAreAtLeast(s: Store, env: string, user: string, n: nat)
    requires n <= MAX_CONNECTIONS_PER_USER
    requires forall j: nat :: j < n ==> !Free(s, Place(env, user, j))
    ensures |Holders(s, env, user)| >= n
  {
    forall j | j in Below(n) ensures j in Holders(s, env, user) {
      assert j in Below(MAX_CONNECTIONS_PER_USER);
    }
    SubsetIsSmaller(Below(n), Holders(s, env, user));
  }

  lemma FreeIsNoHolder(s: Store, env: string, user: string, slot: nat)
    requires slot < MAX_CONNECTIONS_PER_USER && Free(s, Place(env, user, slot))
    ensures |Holders(s, env, user)| < MAX_CONNECTIONS_PER_USER
  {
    var all := Below(MAX_CONNECTIONS_PER_USER);
    assert slot in all;
    SubsetIsSmaller(Holders(s, env, user), all - {slot});
  }

  lemma HoldersAreAtMostFive(s: Store, env: string, user: string)
    ensures |Holders(s, env, user)| <= MAX_CONNECTIONS_PER_USER
  {
    SubsetIsSmaller(Holders(s, env, user), Below(MAX_CONNECTIONS_PER_USER));
  }

  /** `held` never claims more holders than there are, and `full` counts them exactly. */
  lemma {:induction false} HeldNeverExceedsHolders(cfg: Config, s: Store, env: string, user: string, id: string)
    ensures var out := WalkFrom(cfg, World(s, []), env, user, id, 0).1;
            && !out.Unenforced?
            && out.held <= |Holders(s, env, user)|
            && (out.Full? <==> |Holders(s, env, user)| == 5)
            && (out.Full? ==> out.held == |Holders(s, env, user)|)
  {
    QuietWalkTakesLeastFree(cfg, s, env, user, id, 0);
    var out := WalkFrom(cfg, World(s, []), env, user, id, 0).1;
    HoldersAreAtLeast(s, env, user, out.held);
    HoldersAreAtMostFive(s, env, user);
    if out.Claimed? {
      FreeIsNoHolder(s, env, user, out.slot);
    }
  }

  // ---- Run under interleaving ----

  function BothAsked(cfg: Config, w: World, p: Place, id: string): World {
    Ask(cfg, Ask(cfg, w, Take(p, id)).world, TakeRetired(p, id)).world
  }

  lemma FullGoesOn(cfg: Config, w: World, env: string, user: string, id: string, slot: nat)
    requires slot < MAX_CONNECTIONS_PER_USER
    requires WalkFrom(cfg, w, env, user, id, slot).1.Full?
    ensures WalkFrom(cfg, BothAsked(cfg, w, Place(env, user, slot), id), env, user, id, slot + 1)
            == WalkFrom(cfg, w, env, user, id, slot)
  {
  }

  /** The world when the walk from `first` on reaches `slot`, refused at every one before. */
  function WorldAt(cfg: Config, w: World, env: string, user: string, id: string, first: nat, slot: nat): World
    decreases slot - first
  {
    if slot <= first then w else
    WorldAt(cfg, BothAsked(cfg, w, Place(env, user, first), id), env, user, id, first + 1, slot)
  }

  /** The store as the walk's first and second command at `slot` find it. */
  function FirstLook(cfg: Config, w: World, env: string, user: string, id: string, slot: nat): Store {
    Found(cfg, WorldAt(cfg, w, env, user, id, 0, slot))
  }

  function SecondLook(cfg: Config, w: World, env: string, user: string, id: string, slot: nat): Store {
    Found(cfg, Ask(cfg, WorldAt(cfg, w, env, user, id, 0, slot), Take(Place(env, user, slot), id)).world)
  }

  /** Commands alone never empty a slot: only the passing of time does. */
  lemma {:induction false} OnlyTimeEmpties(cfg: Config, s: Store, hs: seq<Happening>, p: Place)
    requires cfg.Valid()
    ensures Happen(cfg, s, hs).now >= s.now
    ensures Value(s, p).Some? && Happen(cfg, s, hs).now == s.now ==> Value(Happen(cfg, s, hs), p).Some?
    decreases |hs|
  {
    if hs != [] {
      match hs[0]
      case Ran(c) => OnlyTimeEmpties(cfg, Run(cfg, s, c).0, hs[1..], p);
      case Passed(ms) => OnlyTimeEmpties(cfg, Pass(s, ms), hs[1..], p);
    }
  }

  /** The slot was occupied at the walk's first command, and at its second held a live id, or
      nothing because it expired between the two. */
  predicate Refuses(one: Store, two: Store, p: Place) {
    && Value(one, p).Some?
    && (|| (Value(two, p).Some? && Value(two, p) != Some(TOMBSTONE))
        || (Value(two, p).None? && one.now < two.now))
  }

  /** Each of the five slots refused both commands. */
  ghost predicate FiveRefused(cfg: Config, w: World, env: string, user: string, id: string) {
    forall slot: nat :: slot < 5 ==>
      Refuses(FirstLook(cfg, w, env, user, id, slot), SecondLook(cfg, w, env, user, id, slot), Place(env, user, slot))
  }

  /** Whatever else runs in between, `full` means that all five slots refused. It is never
      answered over a tombstone. */
  lemma {:induction false} FullMeansFiveRefusals(cfg: Config, w: World, env: string, user: string, id: string)
    requires cfg.Valid()
    requires WalkFrom(cfg, w, env, user, id, 0).1.Full?
    ensures WalkFrom(cfg, w, env, user, id, 0).1 == Full(5)
    ensures FiveRefused(cfg, w, env, user, id)
  {
    FullCarriesFive(cfg, w, env, user, id, 0);
    forall slot: nat | slot < 5
      ensures Refuses(FirstLook(cfg, w, env, user, id, slot), SecondLook(cfg, w, env, user, id, slot),
                  Place(env, user, slot))
    {
      FullReaches(cfg, w, env, user, id, 0, slot, WalkFrom(cfg, w, env, user, id, 0));
      var at := WorldAt(cfg, w, env, user, id, 0, slot);
      var first := Ask(cfg, at, Take(Place(env, user, slot), id));
      OnlyTimeEmpties(cfg, first.world.store, NextTurn(first.world).others, Place(env, user, slot));
    }
  }

  lemma {:induction false} FullCarriesFive(cfg: Config, w: World, env: string, user: string, id: string, slot: nat)
    ensures var out := WalkFrom(cfg, w, env, user, id, slot).1;
            && (out.Full? ==> out.held == 5)
            && (out.Claimed? ==> out.held == out.slot < 5)
    decreases MAX_CONNECTIONS_PER_USER - slot
  {
    if slot < MAX_CONNECTIONS_PER_USER {
      var first := Ask(cfg, w, Take(Place(env, user, slot), id));
      var second := Ask(cfg, first.world, TakeRetired(Place(env, user, slot), id));
      FullCarriesFive(cfg, second.world, env, user, id, slot + 1);
    }
  }

  /** A walk that ends in `full` comes by every slot, and what it comes to is known there. */
  lemma {:induction false} FullReaches(cfg: Config, w: World, env: string, user: string, id: string, first: nat,
        slot: nat, whole: (World, ClaimOutcome))
    requires first <= slot <= MAX_CONNECTIONS_PER_USER
    requires WalkFrom(cfg, w, env, user, id, first) == whole && whole.1.Full?
    ensures WalkFrom(cfg, WorldAt(cfg, w, env, user, id, first, slot), env, user, id, slot) == whole
    decreases slot - first
  {
    if first < slot {
      OneSlotOn(cfg, w, env, user, id, first + 1, whole);
      FullReaches(cfg, BothAsked(cfg, w, Place(env, user, first), id), env, user, id, first + 1, slot, whole);
    }
  }

  lemma OneSlotOn(cfg: Config, at: World, env: string, user: string, id: string, slot: nat,
        whole: (World, ClaimOutcome))
    requires 0 < slot <= MAX_CONNECTIONS_PER_USER
    requires WalkFrom(cfg, at, env, user, id, slot - 1) == whole && whole.1.Full?
    ensures WalkFrom(cfg, BothAsked(cfg, at, Place(env, user, slot - 1), id), env, user, id, slot) == whole
  {
    FullGoesOn(cfg, at, env, user, id, slot - 1);
  }

  /** A claim that was answered `claimed` owns the slot it names, for a full bound. */
  lemma {:induction false} ClaimedSlotIsOwned(cfg: Config, w: World, env: string, user: string, id: string, slot: nat)
    requires cfg.Valid()
    ensures var (w', out) := WalkFrom(cfg, w, env, user, id, slot);
            out.Claimed? ==>
              var p := Place(env, user, out.slot);
              p in w'.store.keys && w'.store.keys[p] == Entry(id, w'.store.now + cfg.boundMs)
                  && Value(w'.store, p) == Some(id)
    decreases MAX_CONNECTIONS_PER_USER - slot
  {
    if slot < MAX_CONNECTIONS_PER_USER {
      var first := Ask(cfg, w, Take(Place(env, user, slot), id));
      var second := Ask(cfg, first.world, TakeRetired(Place(env, user, slot), id));
      ClaimedSlotIsOwned(cfg, second.world, env, user, id, slot + 1);
    }
  }

  /** The turns of `w` that have been used up by the time it has become `later`. */
  function Used(w: World, later: World): seq<Turn>
    requires |later.turns| <= |w.turns|
  {
    w.turns[..|w.turns| - |later.turns|]
  }

  predicate AllHeard(turns: seq<Turn>) {
    forall turn :: turn in turns ==> turn.hearing.Answered?
  }

  /** `later` is what some commands made of `w`, and `heard` says whether all were. */
  predicate Consumes(w: World, later: World, heard: bool) {
    && |later.turns| <= |w.turns| && w.turns == Used(w, later) + later.turns
    && (heard <==> AllHeard(Used(w, later)))
  }

  lemma AskConsumes(cfg: Config, w: World, c: Command)
    ensures Consumes(w, Ask(cfg, w, c).world, Ask(cfg, w, c).heard)
  {
  }

  lemma ConsumesOn(w: World, u: World, v: World, heard: bool)
    requires Consumes(w, u, true) && Consumes(u, v, heard)
    ensures Consumes(w, v, heard)
  {
    assert Used(w, v) == Used(w, u) + Used(u, v);
  }

  lemma NothingConsumed(w: World)
    ensures Consumes(w, w, true)
  {
    assert Used(w, w) == [];
  }

  lemma BothConsume(cfg: Config, w: World, p: Place, id: string)
    requires Ask(cfg, w, Take(p, id)).heard
    ensures var second := Ask(cfg, Ask(cfg, w, Take(p, id)).world, TakeRetired(p, id));
            Consumes(w, second.world, second.heard)
  {
    var first := Ask(cfg, w, Take(p, id));
    AskConsumes(cfg, w, Take(p, id));
    AskConsumes(cfg, first.world, TakeRetired(p, id));
    ConsumesOn(w, first.world, Ask(cfg, first.world, TakeRetired(p, id)).world,
        Ask(cfg, first.world, TakeRetired(p, id)).heard);
  }

  /** A walk gives up if and only if one of its commands was not heard. */
  lemma {:induction false} UnenforcedIffUnheard(
      cfg: Config, w: World, env: string, user: string, id: string, slot: nat)
    ensures var (later, out) := WalkFrom(cfg, w, env, user, id, slot);
            Consumes(w, later, !out.Unenforced?)
    decreases MAX_CONNECTIONS_PER_USER - slot
  {
    var p := Place(env, user, slot);
    var first := Ask(cfg, w, Take(p, id));
    var second := Ask(cfg, first.world, TakeRetired(p, id));
    if slot >= MAX_CONNECTIONS_PER_USER {
      NothingConsumed(w);
    } else if !first.heard || first.ok {
      AskConsumes(cfg, w, Take(p, id));
    } else {
      BothConsume(cfg, w, p, id);
      if second.heard && !second.ok {
        UnenforcedIffUnheard(cfg, second.world, env, user, id, slot + 1);
        var (end, out) := WalkFrom(cfg, second.world, env, user, id, slot + 1);
        ConsumesOn(w, second.world, end, !out.Unenforced?);
        assert WalkFrom(cfg, w, env, user, id, slot) == (end, out);
      }
    }
  }

  // ---- renew ----

  /** A renewal is answered `renewed` if and only if its command was heard and found the own id
      on the own slot; the key then stands for a full bound from that instant, and that is all
      it changes. */
  lemma RenewedIsKept(cfg: Config, w: World, h: Held)
    ensures var (w', out) := RenewRun(cfg, w, h);
            && (out.Renewed? <==> NextTurn(w).hearing.Answered? && Value(Found(cfg, w), PlaceOf(h)) == Some(h.id))
            && (out.Renewed? ==>
                w'.store == Found(cfg, w).(
                    keys := Found(cfg, w).keys[PlaceOf(h) := Entry(h.id, Found(cfg, w).now + cfg.boundMs)]))
  {
  }

  /** Otherwise it claims again, from the first slot: a slot it names is its own for a full
      bound, and `full` means that all five refused it. */
  lemma LostSlotIsReclaimed(cfg: Config, w: World, h: Held)
    requires cfg.Valid()
    ensures var (w', out) := RenewRun(cfg, w, h);
            var asked := Ask(cfg, w, Keep(PlaceOf(h), h.id)).world;
            && (out.Reclaimed? || out.RenewFull? ==> Value(Found(cfg, w), PlaceOf(h)) != Some(h.id))
            && (out.Reclaimed? ==>
                  && out.slot < 5
                  && var p := Place(h.env, h.user, out.slot);
                  p in w'.store.keys && w'.store.keys[p] == Entry(h.id, w'.store.now + cfg.boundMs)
                      && Value(w'.store, p) == Some(h.id))
            && (out.RenewFull? ==> out.held == 5 && FiveRefused(cfg, asked, h.env, h.user, h.id))
  {
    var asked := Ask(cfg, w, Keep(PlaceOf(h), h.id));
    if asked.heard && !asked.ok {
      ClaimedSlotIsOwned(cfg, asked.world, h.env, h.user, h.id, 0);
      FullCarriesFive(cfg, asked.world, h.env, h.user, h.id, 0);
      if WalkFrom(cfg, asked.world, h.env, h.user, h.id, 0).1.Full? {
        FullMeansFiveRefusals(cfg, asked.world, h.env, h.user, h.id);
      }
    }
  }

  /** And it is answered `unenforced` if and only if one of its commands was not heard. */
  lemma RenewUnenforcedIffUnheard(cfg: Config, w: World, h: Held)
    ensures Consumes(w, RenewRun(cfg, w, h).0, !RenewRun(cfg, w, h).1.RenewUnenforced?)
  {
    var asked := Ask(cfg, w, Keep(PlaceOf(h), h.id));
    AskConsumes(cfg, w, Keep(PlaceOf(h), h.id));
    if asked.heard && !asked.ok {
      var end, enforced := RenewWalks(cfg, w, h);
      ConsumesOn(w, asked.world, end, enforced);
    }
  }

  lemma RenewWalks(cfg: Config, w: World, h: Held) returns (end: World, enforced: bool)
    requires Ask(cfg, w, Keep(PlaceOf(h), h.id)).heard && !Ask(cfg, w, Keep(PlaceOf(h), h.id)).ok
    ensures end == RenewRun(cfg, w, h).0 && enforced == !RenewRun(cfg, w, h).1.RenewUnenforced?
    ensures Consumes(Ask(cfg, w, Keep(PlaceOf(h), h.id)).world, end, enforced)
  {
    var asked := Ask(cfg, w, Keep(PlaceOf(h), h.id)).world;
    UnenforcedIffUnheard(cfg, asked, h.env, h.user, h.id, 0);
    end := WalkFrom(cfg, asked, h.env, h.user, h.id, 0).0;
    enforced := !WalkFrom(cfg, asked, h.env, h.user, h.id, 0).1.Unenforced?;
  }

  // ---- releaseAll ----

  lemma {:induction false} ReleaseAllGoesOn(cfg: Config, w: World, first: seq<Held>, second: seq<Held>)
    ensures ReleaseAllRun(cfg, w, first + second) == ReleaseAllRun(cfg, ReleaseAllRun(cfg, w, first), second)
    decreases |first|
  {
    if first == [] {
      assert first + second == second;
    } else {
      ReleaseAllGoesOn(cfg, ReleaseRun(cfg, w, first[0]), first[1..], second);
      assert (first + second)[1..] == first[1..] + second;
    }
  }

  /** Whoever else acts and whatever time passes between the commands of one list: each entry
      retires its slot if and only if its command runs and then finds its own id there, and
      changes nothing else, and the list goes on past it heard or not. */
  lemma EachEntryReleasesItsOwn(cfg: Config, w: World, held: seq<Held>, i: nat)
    requires i < |held|
    ensures var before, after := ReleaseAllRun(cfg, w, held[..i]), ReleaseAllRun(cfg, w, held[..i + 1]);
            var found, p := Found(cfg, before), PlaceOf(held[i]);
            && (if !NextTurn(before).hearing.NeverRan? && Value(found, p) == Some(held[i].id)
                then after.store == Write(found, p, TOMBSTONE, cfg.tombstoneMs)
                else after.store == found)
            && ReleaseAllRun(cfg, w, held) == ReleaseAllRun(cfg, after, held[i + 1..])
  {
    var before := ReleaseAllRun(cfg, w, held[..i]);
    assert held[..i + 1] == held[..i] + [held[i]] && [held[i]][1..] == [];
    ReleaseAllGoesOn(cfg, w, held[..i], [held[i]]);
    assert ReleaseAllRun(cfg, before, [held[i]]) == ReleaseRun(cfg, before, held[i]);
    assert held == held[..i + 1] + held[i + 1..];
    ReleaseAllGoesOn(cfg, w, held[..i + 1], held[i + 1..]);
  }

  /** Is the slot still owned by one of the ids this list names for it? */
  predicate OwnedBy(s: Store, held: seq<Held>, p: Place) {
    exists i :: 0 <= i < |held| && Owns(s, held[i], p)
  }

  predicate Owns(s: Store, h: Held, p: Place) {
    PlaceOf(h) == p && Value(s, p) == Some(h.id)
  }

  function Released(cfg: Config, s: Store, held: seq<Held>, p: Place): Entry
    requires p in s.keys
  {
    if OwnedBy(s, held, p) then Entry(TOMBSTONE, s.now + cfg.tombstoneMs) else s.keys[p]
  }

  lemma OwnedByFirstOrRest(s: Store, held: seq<Held>, p: Place)
    requires held != []
    ensures OwnedBy(s, held, p) <==> Owns(s, held[0], p) || OwnedBy(s, held[1..], p)
  {
    if OwnedBy(s, held[1..], p) {
      var i :| 0 <= i < |held[1..]| && Owns(s, held[1..][i], p);
      assert Owns(s, held[i + 1], p);
    }
    if OwnedBy(s, held, p) {
      var i :| 0 <= i < |held| && Owns(s, held[i], p);
      assert i > 0 ==> Owns(s, held[1..][i - 1], p);
    }
  }

  /** What the first command retires no later entry owns, and what it does not it leaves. */
  lemma FirstReleaseLeaves(cfg: Config, s: Store, held: seq<Held>, p: Place)
    requires cfg.Valid() && held != [] && p in s.keys
    requires forall h :: h in held ==> h.id != TOMBSTONE
    ensures var after := ReleaseRun(cfg, World(s, []), held[0]).store;
            p in after.keys && Released(cfg, after, held[1..], p) == Released(cfg, s, held, p)
  {
    var after := ReleaseRun(cfg, World(s, []), held[0]).store;
    OwnedByFirstOrRest(s, held, p);
    if Owns(s, held[0], p) {
      assert !OwnedBy(after, held[1..], p);
    } else {
      assert Value(after, p) == Value(s, p);
    }
  }

  /** Whatever the list holds, stale or repeated, a `releaseAll` with nobody and no time in
      between tombstones exactly the slots still owned by the ids named for them and leaves
      every other key as it was. */
  lemma {:induction false} ReleaseAllFreesExactlyTheOwned(cfg: Config, s: Store, held: seq<Held>)
    requires cfg.Valid()
    requires forall h :: h in held ==> h.id != TOMBSTONE
    ensures var w := ReleaseAllRun(cfg, World(s, []), held);
            && w.turns == [] && w.store.now == s.now && w.store.edge == s.edge
            && w.store.keys.Keys == s.keys.Keys
            && (forall p :: p in s.keys ==> w.store.keys[p] == Released(cfg, s, held, p))
    decreases |held|
  {
    if held != [] {
      var w := ReleaseRun(cfg, World(s, []), held[0]);
      assert w.turns == [] && w.store.now == s.now && w.store.edge == s.edge && w.store.keys.Keys == s.keys.Keys;
      ReleaseAllFreesExactlyTheOwned(cfg, w.store, held[1..]);
      forall p | p in s.keys ensures Released(cfg, w.store, held[1..], p) == Released(cfg, s, held, p) {
        FirstReleaseLeaves(cfg, s, held, p);
      }
    }
  }

  /** The deploy case: when all five slots were this process's, the very next claim gets
      slot 0, however little or much time passes before it. */
  lemma {:induction false} ClaimAfterReleaseAllSucceeds(cfg: Config, s: Store, held: seq<Held>, env: string,
        user: string, id: string, ms: nat)
    requires cfg.Valid()
    requires forall h :: h in held ==> h.id != TOMBSTONE
    requires forall slot: nat :: slot < 5 ==> OwnedBy(s, held, Place(env, user, slot))
    ensures WalkFrom(cfg, World(s, []), env, user, id, 0).1.Full?
    ensures var after := ReleaseAllRun(cfg, World(s, []), held).store;
            WalkFrom(cfg, World(Pass(after, ms), []), env, user, id, 0).1 == Claimed(0, 0)
  {
    ReleaseAllFreesExactlyTheOwned(cfg, s, held);
    var after := Pass(ReleaseAllRun(cfg, World(s, []), held).store, ms);
    QuietWalkTakesLeastFree(cfg, after, env, user, id, 0);
    QuietWalkTakesLeastFree(cfg, s, env, user, id, 0);
    forall slot: nat | slot < MAX_CONNECTIONS_PER_USER ensures !Free(s, Place(env, user, slot)) {
      assert OwnedBy(s, held, Place(env, user, slot));
    }
    assert OwnedBy(s, held, Place(env, user, 0));
    assert Free(after, Place(env, user, 0));
  }
}
