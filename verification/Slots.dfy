/** The five slot keys of one user, as Redis holds them: a timed map and the two
    atomic commands the connection registry sends to it. */
module Slots {
  import opened Common

  const MAX_CONNECTIONS_PER_USER: nat := 5
  const DEFAULT_BOUND_MS: nat := 60_000
  const DEFAULT_TOMBSTONE_MS: nat := 1

  /** The value that retires a slot. No connection id equals it. */
  const TOMBSTONE := "-"

  /** One slot key. `Subjects.SlotKeyInjective` shows that the string form names it. */
  datatype Place = Place(env: string, user: string, slot: nat)

  datatype Entry = Entry(value: string, expiry: int)

  /** `edge` says whether a key is still there at exactly its expiry instant. Nothing
      in the registry depends on the answer, so the model fixes neither. */
  datatype Store = Store(now: int, edge: bool, keys: map<Place, Entry>)

  datatype Config = Config(boundMs: int, tombstoneMs: int) {
    // Redis refuses a PX of zero or less.
    predicate Valid() { 0 < boundMs && 0 < tombstoneMs }
  }

  /** Is an expiry stamped `expiry` still standing? */
  predicate Standing(s: Store, expiry: int) {
    s.now < expiry || (s.edge && s.now == expiry)
  }

  /** What a command that looks at the key sees. */
  function Value(s: Store, p: Place): Option<string> {
    if p in s.keys && Standing(s, s.keys[p].expiry) then Some(s.keys[p].value) else None
  }

  /** A claim may take this slot: nothing there, or a tombstone. */
  predicate Free(s: Store, p: Place) {
    Value(s, p) == None || Value(s, p) == Some(TOMBSTONE)
  }

  function Write(s: Store, p: Place, value: string, px: int): Store {
    s.(keys := s.keys[p := Entry(value, s.now + px)])
  }

  /** `SET key value PX px NX` */
  function SetNx(s: Store, p: Place, value: string, px: int): (Store, bool) {
    if Value(s, p).None? then (Write(s, p, value, px), true) else (s, false)
  }

  /** `SET key value IFEQ comparison PX px` */
  function SetIfEq(s: Store, p: Place, value: string, comparison: string, px: int): (Store, bool) {
    if Value(s, p) == Some(comparison) then (Write(s, p, value, px), true) else (s, false)
  }

  /** The four commands the registry ever sends. */
  datatype Command =
    | Take(place: Place, id: string)
    | TakeRetired(place: Place, id: string)
    | Keep(place: Place, id: string)
    | Retire(place: Place, id: string)

  function Run(cfg: Config, s: Store, c: Command): (Store, bool) {
    match c
    case Take(p, id) => SetNx(s, p, id, cfg.boundMs)
    case TakeRetired(p, id) => SetIfEq(s, p, id, TOMBSTONE, cfg.boundMs)
    case Keep(p, id) => SetIfEq(s, p, id, id, cfg.boundMs)
    case Retire(p, id) => SetIfEq(s, p, TOMBSTONE, id, cfg.tombstoneMs)
  }

  function Pass(s: Store, ms: nat): Store {
    s.(now := s.now + ms)
  }

  /** No command overwrites another connection's live id, and none touches any other
      key: a live id changes only under a command that carries that same id. */
  lemma LiveIdIsSafe(cfg: Config, s: Store, c: Command, p: Place, owner: string)
    requires Value(s, p) == Some(owner) && owner != TOMBSTONE
    requires c.id != owner || c.place != p
    ensures Run(cfg, s, c).0.keys[p] == s.keys[p]
    ensures Value(Run(cfg, s, c).0, p) == Some(owner)
    ensures Run(cfg, s, c).1 ==> c.place != p
  {
  }

  /** Even its own commands cannot take a live id away, unless it retires the slot. */
  lemma OwnCommandKeepsLiveId(cfg: Config, s: Store, c: Command, p: Place)
    requires cfg.Valid()
    requires Value(s, p) == Some(c.id) && c.id != TOMBSTONE
    requires !(c.Retire? && c.place == p)
    ensures Value(Run(cfg, s, c).0, p) == Some(c.id)
    ensures Run(cfg, s, c).0.keys[p].expiry == if c.Keep? && c.place == p then s.now + cfg.boundMs else s.keys[p].expiry
  {
  }
}
