/** The retention map with its history beside it: when each entry was first inserted, and
    what became of it. */
module RetentionHistory {
  import opened Common
  import opened OrderedMap
  import opened Metering

  datatype Fate = Kept | Evicted | Settled | Wiped

  /** One entry's life: its number among the fresh insertions, and where it is now. */
  datatype Life = Life(stamp: nat, fate: Fate)

  /** `inserted` counts fresh insertions; `watermark` is above every evicted number. */
  datatype History = History(kept: Retention, lives: map<Key, Life>, inserted: nat, watermark: nat)

  const NOTHING: History := History(Retention([], 0), map[], 0, 0)

  function WithFate(h: History, fate: Fate): set<Key> {
    set k | k in h.lives && h.lives[k].fate == fate
  }

  predicate Retained(h: History, k: Key) {
    k in h.lives && h.lives[k].fate.Kept?
  }

  ghost predicate Filed(h: History) {
    && (forall i :: 0 <= i < |h.kept.entries| ==> h.kept.entries[i].0 == KeyOf(h.kept.entries[i].1))
    && (forall i :: 0 <= i < |h.kept.entries| ==> Retained(h, h.kept.entries[i].0))
    && (forall k :: Retained(h, k) ==> Has(h.kept.entries, k))
  }

  function StampOf(h: History, k: Key): nat {
    if k in h.lives then h.lives[k].stamp else 0
  }

  /** The insertion numbers of the retained entries, in the order the map iterates. */
  function Stamps(h: History): seq<nat> {
    seq(|h.kept.entries|, i requires 0 <= i < |h.kept.entries| => StampOf(h, h.kept.entries[i].0))
  }

  predicate Rising(s: seq<nat>) {
    forall i, j :: 0 <= i < j < |s| ==> s[i] < s[j]
  }

  /** Retained entries stand in insertion order, and everything evicted is older. */
  predicate OldestGoFirst(h: History) {
    && Rising(Stamps(h))
    && (forall i :: 0 <= i < |Stamps(h)| ==> h.watermark <= Stamps(h)[i])
    && (forall k :: k in h.lives && h.lives[k].fate.Evicted? ==> h.lives[k].stamp < h.watermark)
  }

  predicate Stamped(h: History) {
    h.watermark <= h.inserted && forall k :: k in h.lives ==> h.lives[k].stamp < h.inserted
  }

  ghost predicate Ok(h: History) {
    && |h.kept.entries| <= MAX_RETAINED_CLOSED
    && Distinct(h.kept.entries)
    && Filed(h)
    && OldestGoFirst(h) && Stamped(h)
    && |h.lives| == h.inserted
    && |WithFate(h, Evicted)| == h.kept.discarded
  }

  /** Take out the entry at `n`, for the reason given. */
  function Drop(h: History, n: nat, fate: Fate): History
    requires n < |h.kept.entries|
  {
    var es, k := h.kept.entries, h.kept.entries[n].0;
    History(
      Retention(es[..n] + es[n + 1..], h.kept.discarded + if fate.Evicted? then 1 else 0),
      h.lives[k := Life(StampOf(h, k), fate)],
      h.inserted,
      if fate.Evicted? then StampOf(h, k) + 1 else h.watermark)
  }

  /** Add an entry whose key was never seen. */
  function Append(h: History, e: Entry): History {
    History(
      h.kept.(entries := h.kept.entries + [(KeyOf(e), e)]),
      h.lives[KeyOf(e) := Life(h.inserted, Kept)],
      h.inserted + 1,
      h.watermark)
  }

  function HoldNew(h: History, e: Entry): History {
    if |h.kept.entries| >= MAX_RETAINED_CLOSED then Append(Drop(h, 0, Evicted), e) else Append(h, e)
  }

  function Settle(h: History, k: Key): History {
    if Has(h.kept.entries, k) then Drop(h, IndexOf(h.kept.entries, k), Settled) else h
  }

  function HoldAllNew(h: History, es: seq<Entry>): History
    decreases |es|
  {
    if es == [] then h else HoldAllNew(HoldNew(h, es[0]), es[1..])
  }

  function SettleAll(h: History, es: seq<Entry>): History
    decreases |es|
  {
    if es == [] then h else SettleAll(Settle(h, KeyOf(es[0])), es[1..])
  }

  /** Keys never inserted before, each named once. */
  ghost predicate AllNew(h: History, es: seq<Entry>) {
    && (forall i :: 0 <= i < |es| ==> KeyOf(es[i]) !in h.lives)
    && (forall i, j :: 0 <= i < j < |es| ==> KeyOf(es[i]) != KeyOf(es[j]))
  }

  function Wipe(h: History): History {
    var lives := map k | k in h.lives :: if h.lives[k].fate.Kept? then h.lives[k].(fate := Wiped) else h.lives[k];
    History(h.kept.(entries := []), lives, h.inserted, h.watermark)
  }

  lemma DropIsFiled(h: History, n: nat, fate: Fate)
    requires Distinct(h.kept.entries) && Filed(h) && n < |h.kept.entries| && !fate.Kept?
    ensures Filed(Drop(h, n, fate)) && Distinct(Drop(h, n, fate).kept.entries)
    ensures Drop(h, n, fate).kept.entries == Remove(h.kept.entries, h.kept.entries[n].0)
  {
    var es, t := h.kept.entries, Drop(h, n, fate);
    var fs := t.kept.entries;
    FoundAt(es, n);
    RemoveLooksUp(es, es[n].0);
    RemovedRows(es, es[n].0);
    forall i | 0 <= i < |fs| ensures fs[i].0 == KeyOf(fs[i].1) && Retained(t, fs[i].0) {
      assert fs[i] == es[Was(n, i)];
      assert Retained(h, es[Was(n, i)].0);
    }
    forall k | Retained(t, k) ensures Has(fs, k) {
      assert Retained(h, k);
    }
  }

  lemma DropStamps(h: History, n: nat, fate: Fate)
    requires Filed(h) && n < |h.kept.entries|
    ensures var s, t := Stamps(h), Stamps(Drop(h, n, fate));
            |t| == |s| - 1 && forall i :: 0 <= i < |t| ==> t[i] == s[Was(n, i)]
  {
    var es, fs := h.kept.entries, Drop(h, n, fate).kept.entries;
    assert forall i :: 0 <= i < |fs| ==> fs[i] == es[Was(n, i)];
    assert forall k :: StampOf(Drop(h, n, fate), k) == StampOf(h, k);
  }

  lemma RisingWithout(s: seq<nat>, t: seq<nat>, n: nat)
    requires Rising(s) && n < |s| && |t| == |s| - 1
    requires forall i :: 0 <= i < |t| ==> t[i] == s[Was(n, i)]
    ensures Rising(t)
    ensures n == 0 ==> forall i :: 0 <= i < |t| ==> s[0] < t[i]
  {
  }

  lemma DropKeepsOrder(h: History, n: nat, fate: Fate)
    requires Filed(h) && OldestGoFirst(h) && Stamped(h) && n < |h.kept.entries|
    requires fate.Evicted? ==> n == 0
    ensures OldestGoFirst(Drop(h, n, fate)) && Stamped(Drop(h, n, fate))
  {
    DropStamps(h, n, fate);
    RisingWithout(Stamps(h), Stamps(Drop(h, n, fate)), n);
    assert Retained(h, h.kept.entries[n].0);
    assert Stamps(h)[n] == h.lives[h.kept.entries[n].0].stamp;
  }

  lemma DropKeepsCounts(h: History, n: nat, fate: Fate)
    requires n < |h.kept.entries| && Retained(h, h.kept.entries[n].0) && !fate.Kept?
    ensures |Drop(h, n, fate).lives| == |h.lives|
    ensures |WithFate(Drop(h, n, fate), Evicted)| == |WithFate(h, Evicted)| + if fate.Evicted? then 1 else 0
  {
    var t, k := Drop(h, n, fate), h.kept.entries[n].0;
    SameKeys(h, t);
    assert k !in WithFate(h, Evicted);
    assert WithFate(t, Evicted) == WithFate(h, Evicted) + if fate.Evicted? then {k} else {};
  }

  lemma DropIsOk(h: History, n: nat, fate: Fate)
    requires Ok(h) && n < |h.kept.entries| && !fate.Kept?
    requires fate.Evicted? ==> n == 0
    ensures Ok(Drop(h, n, fate))
  {
    assert Retained(h, h.kept.entries[n].0);
    DropIsFiled(h, n, fate);
    DropKeepsOrder(h, n, fate);
    DropKeepsCounts(h, n, fate);
  }

  lemma SameKeys(h: History, t: History)
    requires t.lives.Keys == h.lives.Keys
    ensures |t.lives| == |h.lives|
  {
    assert |t.lives| == |t.lives.Keys| && |h.lives| == |h.lives.Keys|;
  }

  lemma NewIsAbsent(h: History, k: Key)
    requires Filed(h) && k !in h.lives
    ensures !Has(h.kept.entries, k)
  {
    var i := IndexOf(h.kept.entries, k);
    assert i < |h.kept.entries| ==> Retained(h, h.kept.entries[i].0);
  }

  lemma AppendIsFiled(h: History, e: Entry)
    requires Distinct(h.kept.entries) && Filed(h) && KeyOf(e) !in h.lives
    ensures Filed(Append(h, e)) && Distinct(Append(h, e).kept.entries)
    ensures Append(h, e).kept.entries == Put(h.kept.entries, KeyOf(e), e)
    ensures Lookup(Append(h, e).kept.entries, KeyOf(e)) == Some(e)
  {
    var es, t := h.kept.entries, Append(h, e);
    NewIsAbsent(h, KeyOf(e));
    PutLooksUp(es, KeyOf(e), e);
    forall i | 0 <= i < |es| ensures Retained(t, es[i].0) {
      assert Retained(h, es[i].0);
    }
    forall k | Retained(t, k) ensures Has(t.kept.entries, k) {
      assert k != KeyOf(e) ==> Retained(h, k);
    }
  }

  lemma AppendKeepsOrder(h: History, e: Entry)
    requires Filed(h) && OldestGoFirst(h) && Stamped(h) && KeyOf(e) !in h.lives
    ensures OldestGoFirst(Append(h, e)) && Stamped(Append(h, e))
  {
    AppendStamps(h, e);
  }

  lemma AppendStamps(h: History, e: Entry)
    requires Filed(h) && Stamped(h) && KeyOf(e) !in h.lives
    ensures Stamps(Append(h, e)) == Stamps(h) + [h.inserted]
    ensures forall i :: 0 <= i < |Stamps(h)| ==> Stamps(h)[i] < h.inserted
  {
    var es, t := h.kept.entries, Append(h, e);
    forall i | 0 <= i < |es| ensures Stamps(t)[i] == Stamps(h)[i] < h.inserted {
      assert Retained(h, es[i].0);
    }
  }

  lemma AppendIsOk(h: History, e: Entry)
    requires Ok(h) && KeyOf(e) !in h.lives && |h.kept.entries| < MAX_RETAINED_CLOSED
    ensures Ok(Append(h, e))
  {
    var t := Append(h, e);
    AppendIsFiled(h, e);
    AppendKeepsOrder(h, e);
    assert |t.lives| == |h.lives| + 1 by {
      assert t.lives.Keys == h.lives.Keys + {KeyOf(e)};
      assert |t.lives| == |t.lives.Keys| && |h.lives| == |h.lives.Keys|;
    }
    assert WithFate(t, Evicted) == WithFate(h, Evicted);
  }

  /** Holding a new entry is the meter's own `Hold` and keeps the books. */
  lemma HoldNewIsOk(h: History, e: Entry)
    requires Ok(h) && KeyOf(e) !in h.lives
    ensures Ok(HoldNew(h, e)) && HoldNew(h, e).kept == Hold(h.kept, e)
  {
    var es := h.kept.entries;
    NewIsAbsent(h, KeyOf(e));
    if |es| >= MAX_RETAINED_CLOSED {
      assert es[..0] + es[1..] == es[1..];
      DropIsOk(h, 0, Evicted);
      AppendIsOk(Drop(h, 0, Evicted), e);
      AppendIsFiled(Drop(h, 0, Evicted), e);
    } else {
      AppendIsOk(h, e);
      AppendIsFiled(h, e);
    }
  }

  /** What making room can do to an entry that is already there. */
  predicate Moved(before: Fate, after: Fate) {
    after == before || (before.Kept? && after.Evicted?)
  }

  /** `t` came from `h` by holding more: nothing was forgotten, new entries were kept or
      evicted again. */
  predicate Took(h: History, t: History) {
    && (forall k :: k in h.lives ==> k in t.lives && Moved(h.lives[k].fate, t.lives[k].fate))
    && (forall k :: k in t.lives && k !in h.lives ==> t.lives[k].fate.Kept? || t.lives[k].fate.Evicted?)
  }

  lemma DropTakes(h: History)
    requires Filed(h) && |h.kept.entries| > 0
    ensures Took(h, Drop(h, 0, Evicted)) && Drop(h, 0, Evicted).lives.Keys == h.lives.Keys
  {
    assert Retained(h, h.kept.entries[0].0);
  }

  lemma AppendTakes(h: History, e: Entry)
    requires KeyOf(e) !in h.lives
    ensures Took(h, Append(h, e)) && Append(h, e).lives.Keys == h.lives.Keys + {KeyOf(e)}
  {
  }

  lemma HoldNewTakes(h: History, e: Entry)
    requires Ok(h) && KeyOf(e) !in h.lives
    ensures Took(h, HoldNew(h, e)) && HoldNew(h, e).lives.Keys == h.lives.Keys + {KeyOf(e)}
  {
    if |h.kept.entries| >= MAX_RETAINED_CLOSED {
      DropTakes(h);
      AppendTakes(Drop(h, 0, Evicted), e);
    } else {
      AppendTakes(h, e);
    }
  }

  lemma HoldNewValues(h: History, e: Entry, x: Entry)
    requires Ok(h) && x in Values(HoldNew(h, e).kept.entries)
    ensures x == e || x in Values(h.kept.entries)
  {
    var es, fs := h.kept.entries, HoldNew(h, e).kept.entries;
    var i :| 0 <= i < |fs| && fs[i].1 == x;
    if i < |fs| - 1 {
      assert fs[i] == if |es| >= MAX_RETAINED_CLOSED then es[i + 1] else es[i];
      assert x == Values(es)[if |es| >= MAX_RETAINED_CLOSED then i + 1 else i];
    }
  }

  lemma Rest(es: seq<Entry>, h: History)
    requires |es| > 0 && Ok(h) && AllNew(h, es)
    ensures AllNew(HoldNew(h, es[0]), es[1..])
  {
    HoldNewTakes(h, es[0]);
    assert forall i :: 0 <= i < |es[1..]| ==> es[1..][i] == es[i + 1];
  }

  lemma {:induction false} HoldAllNewIsOk(h: History, es: seq<Entry>)
    requires Ok(h) && AllNew(h, es)
    ensures Ok(HoldAllNew(h, es)) && HoldAllNew(h, es).kept == HoldAll(h.kept, es)
    decreases |es|
  {
    if es != [] {
      HoldNewIsOk(h, es[0]);
      Rest(es, h);
      HoldAllNewIsOk(HoldNew(h, es[0]), es[1..]);
    }
  }

  lemma {:induction false} HoldAllNewTakes(h: History, es: seq<Entry>)
    requires Ok(h) && AllNew(h, es)
    ensures Took(h, HoldAllNew(h, es))
    decreases |es|
  {
    if es != [] {
      HoldNewIsOk(h, es[0]);
      HoldNewTakes(h, es[0]);
      Rest(es, h);
      HoldAllNewTakes(HoldNew(h, es[0]), es[1..]);
      TookOn(h, HoldNew(h, es[0]), HoldAllNew(h, es));
    }
  }

  lemma TookOn(h: History, t: History, u: History)
    requires Took(h, t) && Took(t, u)
    ensures Took(h, u)
  {
  }

  lemma {:induction false} HoldAllNewAdds(h: History, es: seq<Entry>, k: Key)
    requires Ok(h) && AllNew(h, es)
    ensures k in HoldAllNew(h, es).lives <==> k in h.lives || Names(es, k)
    decreases |es|
  {
    if es != [] {
      HoldNewIsOk(h, es[0]);
      HoldNewTakes(h, es[0]);
      Rest(es, h);
      HoldAllNewAdds(HoldNew(h, es[0]), es[1..], k);
    }
  }

  lemma {:induction false} HoldAllNewValues(h: History, es: seq<Entry>, x: Entry)
    requires Ok(h) && AllNew(h, es) && x in Values(HoldAllNew(h, es).kept.entries)
    ensures x in es || x in Values(h.kept.entries)
    decreases |es|
  {
    if es != [] {
      HoldNewIsOk(h, es[0]);
      Rest(es, h);
      HoldAllNewValues(HoldNew(h, es[0]), es[1..], x);
      if x in Values(HoldNew(h, es[0]).kept.entries) {
        HoldNewValues(h, es[0], x);
      }
    }
  }

  lemma SettleIsOk(h: History, k: Key)
    requires Ok(h)
    ensures Ok(Settle(h, k)) && Settle(h, k).kept == h.kept.(entries := Remove(h.kept.entries, k))
  {
    if Has(h.kept.entries, k) {
      DropIsOk(h, IndexOf(h.kept.entries, k), Settled);
    }
  }

  lemma KeptIsRetained(h: History, k: Key)
    requires Filed(h)
    ensures Has(h.kept.entries, k) <==> Retained(h, k)
  {
    var i := IndexOf(h.kept.entries, k);
    assert i < |h.kept.entries| ==> Retained(h, h.kept.entries[i].0);
  }

  lemma SettleValues(h: History, k: Key, x: Entry)
    requires x in Values(Settle(h, k).kept.entries)
    ensures x in Values(h.kept.entries)
  {
    var es, fs := h.kept.entries, Settle(h, k).kept.entries;
    var i :| 0 <= i < |fs| && fs[i].1 == x;
    assert fs == Remove(es, k);
    RemoveKeepsRows(es, k, fs[i]);
    var j :| 0 <= j < |es| && es[j] == fs[i];
    assert Values(es)[j] == x;
  }

  lemma {:induction false} SettleAllIsOk(h: History, es: seq<Entry>)
    requires Ok(h)
    ensures Ok(SettleAll(h, es)) && SettleAll(h, es).kept == h.kept.(entries := Forget(h.kept.entries, es))
    decreases |es|
  {
    if es != [] {
      SettleIsOk(h, KeyOf(es[0]));
      SettleAllIsOk(Settle(h, KeyOf(es[0])), es[1..]);
    }
  }

  lemma {:induction false} SettleAllValues(h: History, es: seq<Entry>, x: Entry)
    requires Ok(h) && x in Values(SettleAll(h, es).kept.entries)
    ensures x in Values(h.kept.entries)
    decreases |es|
  {
    if es != [] {
      SettleIsOk(h, KeyOf(es[0]));
      SettleAllValues(Settle(h, KeyOf(es[0])), es[1..], x);
      SettleValues(h, KeyOf(es[0]), x);
    }
  }

  /** An accepted report settles what it carried and is still retained, nothing else. */
  lemma {:induction false} SettleAllFate(h: History, es: seq<Entry>, k: Key)
    requires Ok(h)
    ensures k in SettleAll(h, es).lives <==> k in h.lives
    ensures k in h.lives ==>
              var settled := h.lives[k].fate.Kept? && Names(es, k);
              SettleAll(h, es).lives[k].fate == if settled then Settled else h.lives[k].fate
    decreases |es|
  {
    if es != [] {
      SettleIsOk(h, KeyOf(es[0]));
      KeptIsRetained(h, KeyOf(es[0]));
      SettleAllFate(Settle(h, KeyOf(es[0])), es[1..], k);
    }
  }

  lemma WipeIsOk(h: History)
    requires Ok(h)
    ensures Ok(Wipe(h))
  {
    var t := Wipe(h);
    assert t.lives.Keys == h.lives.Keys;
    SameKeys(h, t);
    assert WithFate(t, Evicted) == WithFate(h, Evicted);
  }

  /** Whatever was evicted had been inserted before everything still retained. */
  lemma EvictedIsOlder(h: History, k: Key, i: nat)
    requires Ok(h) && k in h.lives && h.lives[k].fate.Evicted? && i < |h.kept.entries|
    ensures h.kept.entries[i].0 in h.lives && h.lives[k].stamp < h.lives[h.kept.entries[i].0].stamp
  {
    assert Retained(h, h.kept.entries[i].0);
    assert h.watermark <= Stamps(h)[i];
  }

  lemma {:induction false} KeysCount(es: seq<(Key, Entry)>)
    requires Distinct(es)
    ensures |set i | 0 <= i < |es| :: es[i].0| == |es|
  {
    if es != [] {
      var n := |es| - 1;
      KeysCount(es[..n]);
      var all, most := set i | 0 <= i < |es| :: es[i].0, set i | 0 <= i < |es[..n]| :: es[..n][i].0;
      forall k | k in all ensures k in most + {es[n].0} {
        var i :| 0 <= i < |es| && es[i].0 == k;
        assert i < n ==> es[..n][i].0 == k;
      }
      assert all == most + {es[n].0};
    }
  }

  /** Nothing inserted is unaccounted for: it is retained, was evicted at the cap, left
      with an accepted report, or was cleared by a null answer, and never two of these. */
  lemma {:induction false} Conserves(h: History)
    requires Ok(h)
    ensures h.inserted == |h.kept.entries| + h.kept.discarded + |WithFate(h, Settled)| + |WithFate(h, Wiped)|
  {
    var es := h.kept.entries;
    var keys := set i | 0 <= i < |es| :: es[i].0;
    KeysCount(es);
    assert keys == WithFate(h, Kept) by {
      forall k | k in WithFate(h, Kept) ensures k in keys {
        assert Retained(h, k);
        assert es[IndexOf(es, k)].0 == k;
      }
      forall k | k in keys ensures k in WithFate(h, Kept) {
        assert Retained(h, k);
      }
    }
    FourFates(h);
  }

  lemma FourFates(h: History)
    ensures |h.lives| == |WithFate(h, Kept)| + |WithFate(h, Evicted)| + |WithFate(h, Settled)| + |WithFate(h, Wiped)|
  {
    var k, v, s, w := WithFate(h, Kept), WithFate(h, Evicted), WithFate(h, Settled), WithFate(h, Wiped);
    assert h.lives.Keys == (k + v) + (s + w);
    assert |h.lives| == |h.lives.Keys|;
    assert |(k + v) + (s + w)| == |k + v| + |s + w|;
  }

  /** Whatever was evicted, a full map of younger entries was held after it. */
  predicate EvictedUnderFull(h: History) {
    h.watermark > 0 ==> h.watermark + MAX_RETAINED_CLOSED <= h.inserted
  }

  lemma {:induction false} RisesByOne(s: seq<nat>, j: nat)
    requires Rising(s) && j < |s|
    ensures s[j] >= s[0] + j
  {
    if j > 0 {
      RisesByOne(s, j - 1);
    }
  }

  lemma HoldNewUnderFull(h: History, e: Entry)
    requires Ok(h) && EvictedUnderFull(h) && KeyOf(e) !in h.lives
    ensures EvictedUnderFull(HoldNew(h, e))
  {
    var es, stamps := h.kept.entries, Stamps(h);
    if |es| >= MAX_RETAINED_CLOSED {
      RisesByOne(stamps, MAX_RETAINED_CLOSED - 1);
      assert Retained(h, es[MAX_RETAINED_CLOSED - 1].0) && stamps[0] == StampOf(h, es[0].0);
      assert stamps[MAX_RETAINED_CLOSED - 1] < h.inserted;
    }
  }

  lemma {:induction false} HoldAllUnderFull(h: History, es: seq<Entry>)
    requires Ok(h) && AllNew(h, es) && EvictedUnderFull(h)
    ensures EvictedUnderFull(HoldAllNew(h, es))
    decreases |es|
  {
    if es != [] {
      HoldNewUnderFull(h, es[0]);
      HoldNewIsOk(h, es[0]);
      Rest(es, h);
      HoldAllUnderFull(HoldNew(h, es[0]), es[1..]);
    }
  }

  lemma {:induction false} SettlingEvictsNothing(h: History, es: seq<Entry>)
    ensures SettleAll(h, es).inserted == h.inserted && SettleAll(h, es).watermark == h.watermark
    decreases |es|
  {
    if es != [] {
      SettlingEvictsNothing(Settle(h, KeyOf(es[0])), es[1..]);
    }
  }

  /** At least 4,000 entries have been inserted after any evicted one. */
  lemma EvictedAtTheCap(h: History, k: Key)
    requires Ok(h) && EvictedUnderFull(h) && k in h.lives && h.lives[k].fate.Evicted?
    ensures h.inserted > h.lives[k].stamp + 4_000
  {
  }
}
