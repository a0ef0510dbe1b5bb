/** Which entries an admission evicts, and when it calls a model too large. */
module VictimSelection {
  import opened Common
  import opened CoordinatorState
  import opened CoordinatorWorld

  /** Idle entries come first, then the least recently used. */
  predicate NoLater(c: Coord, a: ModelKey, b: ModelKey)
    requires a in c.residents && b in c.residents
  {
    var x, y := c.residents[a], c.residents[b];
    if (x.active > 0) != (y.active > 0) then y.active > 0 else x.recency <= y.recency
  }

  predicate Known(c: Coord, s: seq<ModelKey>) { forall v :: v in s ==> v in c.residents }

  predicate Ranked(c: Coord, s: seq<ModelKey>)
    requires Known(c, s)
  {
    forall i, j :: 0 <= i < j < |s| ==> NoLater(c, s[i], s[j])
  }

  // The order, as a stable sort

  function Insert(c: Coord, v: ModelKey, s: seq<ModelKey>): (r: seq<ModelKey>)
    requires v in c.residents && Known(c, s)
    ensures forall x :: x in r <==> x == v || x in s
  {
    if s == [] || NoLater(c, v, s[0]) then [v] + s
    else
      assert forall x :: x in s <==> x == s[0] || x in s[1..];
      [s[0]] + Insert(c, v, s[1..])
  }

  lemma {:induction false} InsertRanked(c: Coord, v: ModelKey, s: seq<ModelKey>)
    requires v in c.residents && Known(c, s) && Ranked(c, s)
    ensures Ranked(c, Insert(c, v, s))
    ensures Distinct(s) && v !in s ==> Distinct(Insert(c, v, s))
  {
    if s != [] && !NoLater(c, v, s[0]) {
      assert forall x :: x in s[1..] ==> NoLater(c, s[0], x);
      InsertRanked(c, v, s[1..]);
      var r := Insert(c, v, s[1..]);
      assert forall x :: x in r ==> NoLater(c, s[0], x);
      assert Distinct(s) && v !in s ==> s[0] !in r;
    }
  }

  function Order(c: Coord, s: seq<ModelKey>): (r: seq<ModelKey>)
    requires Known(c, s)
    ensures forall x :: x in r <==> x in s
  {
    if s == [] then []
    else
      assert forall x :: x in s <==> x == s[0] || x in s[1..];
      Insert(c, s[0], Order(c, s[1..]))
  }

  lemma {:induction false} OrderRanked(c: Coord, s: seq<ModelKey>)
    requires Known(c, s)
    ensures Ranked(c, Order(c, s))
    ensures Distinct(s) ==> Distinct(Order(c, s))
  {
    if s != [] {
      OrderRanked(c, s[1..]);
      InsertRanked(c, s[0], Order(c, s[1..]));
    }
  }

  // What releasing entries frees

  function Freed(c: Coord, vs: seq<ModelKey>): nat
    requires Known(c, vs)
  {
    if vs == [] then 0 else Freed(c, vs[..|vs| - 1]) + c.residents[vs[|vs| - 1]].vram
  }

  /** Both bounds hold once `vs` are gone and their memory is free. */
  ghost predicate Suffices(c: Coord, cfg: Config, est: nat, free: nat, vs: seq<ModelKey>)
    requires Known(c, vs)
  {
    && Accounted(c) - Freed(c, vs) + est <= cfg.Capacity()
    && est <= free + Freed(c, vs) - Unmaterialized(c) - cfg.headroom
  }

  ghost function Keyed(s: seq<ModelKey>): set<ModelKey> { set x | x in s }

  /** Releasing entries is the same as not having them. */
  lemma {:induction false} FreedIsGone(c: Coord, m: map<ModelKey, Entry>, vs: seq<ModelKey>)
    requires Known(c, vs) && Distinct(vs) && Keyed(vs) <= m.Keys
    requires forall v :: v in vs ==> m[v] == c.residents[v]
    ensures SumBy(m, EntryBytes) == Freed(c, vs) + SumBy(m - Keyed(vs), EntryBytes)
  {
    if vs == [] {
      assert m - Keyed(vs) == m;
    } else {
      var last, rest := vs[|vs| - 1], vs[..|vs| - 1];
      assert Keyed(vs) == Keyed(rest) + {last} && last !in rest;
      SumRemove(m, last, EntryBytes);
      FreedIsGone(c, m - {last}, rest);
      assert m - {last} - Keyed(rest) == m - Keyed(vs);
    }
  }

  /** More entries free at least as much. */
  lemma FreedGrows(c: Coord, vs: seq<ModelKey>, ws: seq<ModelKey>)
    requires Known(c, vs) && Known(c, ws) && Distinct(vs) && Distinct(ws)
    requires forall v :: v in vs ==> v in ws
    ensures Freed(c, vs) <= Freed(c, ws)
  {
    FreedIsGone(c, c.residents, vs);
    FreedIsGone(c, c.residents, ws);
    SumShrinks(c.residents - Keyed(vs), c.residents - Keyed(ws), EntryBytes);
  }

  // The selection

  /** Everything but the answer's shape: `chosen` ranks ahead of every entry passed over. */
  ghost predicate Leads(c: Coord, k: ModelKey, chosen: seq<ModelKey>)
    requires Known(c, chosen)
  {
    forall v, u :: v in chosen && Evictable(c, k, u) && u !in chosen ==> NoLater(c, v, u)
  }

  /** The shortest run of the eligible entries, idle first and then oldest, whose release satisfies both
      bounds; nothing exactly when no choice of eligible entries would do. `listed` is the order in
      which the resident table is walked. */
  method SelectVictims(c: Coord, cfg: Config, k: ModelKey, est: nat, free: nat, listed: seq<ModelKey>,
                       accounted: nat, unmaterialized: nat)
    returns (chosen: seq<ModelKey>)
    requires Distinct(listed) && forall x :: x in listed <==> x in c.residents
    requires accounted == Accounted(c) && unmaterialized == Unmaterialized(c)
    ensures AreVictims(c, k, chosen) && Known(c, chosen) && Ranked(c, chosen) && Leads(c, k, chosen)
    ensures chosen != [] ==> Suffices(c, cfg, est, free, chosen)
    ensures forall n :: 0 < n < |chosen| ==> !Suffices(c, cfg, est, free, chosen[..n])
    ensures chosen == [] <==>
      forall vs :: vs != [] && Known(c, vs) && AreVictims(c, k, vs) ==> !Suffices(c, cfg, est, free, vs)
  {
    var eligible := Eligible(c, k, listed);
    EligibleDistinct(c, k, listed);
    var order := Order(c, eligible);
    OrderRanked(c, eligible);
    var count := ShortestPrefix(c, cfg, est, free, order, accounted, unmaterialized);
    chosen := order[..count];
    PrefixLeads(c, k, order, count);
    PrefixIsVictims(c, k, order, count);
    assert forall n :: 0 < n < count ==> chosen[..n] == order[..n];
    if count == 0 {
      NoChoiceSuffices(c, cfg, k, est, free, order);
    } else {
      assert chosen != [] && Known(c, chosen) && AreVictims(c, k, chosen) && Suffices(c, cfg, est, free, chosen);
    }
  }

  /** The loop over the ranked entries: take one more until both bounds hold. */
  method ShortestPrefix(c: Coord, cfg: Config, est: nat, free: nat, order: seq<ModelKey>, accounted: nat, unmaterialized: nat)
    returns (count: nat)
    requires Known(c, order) && accounted == Accounted(c) && unmaterialized == Unmaterialized(c)
    ensures count <= |order| && (count > 0 ==> Suffices(c, cfg, est, free, order[..count]))
    ensures forall n :: 0 < n <= |order| && (count == 0 || n < count) ==> !Suffices(c, cfg, est, free, order[..n])
  {
    var freed := 0;
    count := 0;
    while count < |order|
      invariant 0 <= count <= |order| && freed == Freed(c, order[..count])
      invariant forall n :: 0 < n <= count ==> !Suffices(c, cfg, est, free, order[..n])
    {
      freed := freed + c.residents[order[count]].vram;
      count := count + 1;
      assert order[..count][..count - 1] == order[..count - 1];
      var fitsBudget := accounted - freed + est <= cfg.Capacity();
      var fitsLive := est <= free + freed - unmaterialized - cfg.headroom;
      if fitsBudget && fitsLive { return; }
    }
    count := 0;
  }

  /** When all eligible entries together free too little, so does every choice among them. */
  lemma NoChoiceSuffices(c: Coord, cfg: Config, k: ModelKey, est: nat, free: nat, order: seq<ModelKey>)
    requires Known(c, order) && Distinct(order) && forall u :: u in order <==> Evictable(c, k, u)
    requires order != [] ==> !Suffices(c, cfg, est, free, order[..|order|])
    ensures forall vs :: vs != [] && Known(c, vs) && AreVictims(c, k, vs) ==> !Suffices(c, cfg, est, free, vs)
  {
    forall vs | vs != [] && Known(c, vs) && AreVictims(c, k, vs) ensures !Suffices(c, cfg, est, free, vs) {
      assert vs[0] in vs;
      FreedGrows(c, vs, order);
      assert order[..|order|] == order;
    }
  }

  lemma PrefixIsVictims(c: Coord, k: ModelKey, order: seq<ModelKey>, i: nat)
    requires i <= |order| && Known(c, order) && Ranked(c, order) && Distinct(order)
    requires forall u :: u in order <==> Evictable(c, k, u)
    ensures AreVictims(c, k, order[..i]) && Known(c, order[..i]) && Ranked(c, order[..i])
  {
    assert forall v :: v in order[..i] ==> v in order;
  }

  function Eligible(c: Coord, k: ModelKey, listed: seq<ModelKey>): (r: seq<ModelKey>)
    ensures forall v :: v in r <==> v in listed && Evictable(c, k, v)
  {
    if listed == [] then []
    else
      var rest := Eligible(c, k, listed[1..]);
      assert forall v :: v in listed <==> v == listed[0] || v in listed[1..];
      if Evictable(c, k, listed[0]) then [listed[0]] + rest else rest
  }

  lemma {:induction false} EligibleDistinct(c: Coord, k: ModelKey, listed: seq<ModelKey>)
    requires Distinct(listed)
    ensures Distinct(Eligible(c, k, listed))
  {
    if listed != [] {
      EligibleDistinct(c, k, listed[1..]);
      assert listed[0] !in listed[1..];
    }
  }

  lemma PrefixLeads(c: Coord, k: ModelKey, order: seq<ModelKey>, i: nat)
    requires i <= |order| && Known(c, order) && Ranked(c, order)
    requires forall u :: u in order <==> Evictable(c, k, u)
    ensures Leads(c, k, order[..i])
  {
    assert forall m :: 0 <= m < i ==> order[..i][m] == order[m] && order[m] in order[..i];
    forall v, u | v in order[..i] && Evictable(c, k, u) && u !in order[..i] ensures NoLater(c, v, u) {
      var m, n := IndexOf(order[..i], v), IndexOf(order, u);
      assert order[m] == v && order[n] == u;
    }
  }

  /** Once exactly the victims are gone and their memory is free, the request fits both bounds: the
      next pass through stage 1 admits it, if nothing else moved. */
  lemma EvictionMakesRoom(c: Coord, cfg: Config, k: ModelKey, est: nat, free: nat, victims: seq<ModelKey>)
    requires AreVictims(c, k, victims) && Known(c, victims) && Suffices(c, cfg, est, free, victims)
    ensures var d := c.(residents := c.residents - Keyed(victims));
      FitsBudget(d, cfg, est) && FitsLive(d, cfg, est, free + Freed(c, victims))
  {
    var d := c.(residents := c.residents - Keyed(victims));
    FreedIsGone(c, c.residents, victims);
    assert forall v :: v in victims ==> Evictable(c, k, v);
    SumAgrees(c.residents, d.residents, EntryPending);
  }

  // Too large?

  /** What an idle device with nothing resident admits. */
  predicate FitsEmptyDevice(cfg: Config, est: nat) { est <= cfg.Capacity() && est + cfg.headroom <= cfg.total }

  predicate CalledTooLarge(cfg: Config, est: nat) { est > cfg.Capacity() - cfg.headroom }

  /** On the empty device itself the request is admitted, never refused. */
  lemma EmptyDeviceAdmits(cfg: Config, k: ModelKey, est: nat, owner: OpId, victims: seq<ModelKey>)
    ensures FitsEmptyDevice(cfg, est) <==> Decide(EMPTY, cfg, k, est, cfg.total, owner, victims).LoadIt?
  {
  }

  /** The threshold is not what an empty device admits. With nothing to evict, a request is refused for its size
      although it fits the empty device exactly when its size lies above capacity less headroom, within both
      capacity and device less headroom, and a bound fails just now. The refusal for want of room is always
      truthful: what is not called too large fits the empty device. */
  lemma TooLargeThoughItFitsExactly(c: Coord, cfg: Config, k: ModelKey, est: nat, free: nat, owner: OpId)
    requires !Barred(c) && k !in c.residents
    ensures Decide(c, cfg, k, est, free, owner, []) == Reject(ModelTooLarge) && FitsEmptyDevice(cfg, est) <==>
      && cfg.Capacity() - cfg.headroom < est <= Least(cfg.Capacity(), cfg.total - cfg.headroom)
      && !(FitsBudget(c, cfg, est) && FitsLive(c, cfg, est, free))
    ensures Decide(c, cfg, k, est, free, owner, []) == Reject(GpuBusy) ==> FitsEmptyDevice(cfg, est)
  {
  }

  function Least(m: int, n: int): int { if m < n then m else n }
}
