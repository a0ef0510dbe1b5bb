/** What the coordinator's answers have to be, said of its tables alone. */
module CoordinatorDecisions {
  import opened Common
  import opened CoordinatorState
  import opened CoordinatorWorld
  import opened VictimSelection

  // What is accounted

  /** An entry counts its bytes, and as pending until they are allocated. */
  lemma EntryCounts(c: Coord, k: ModelKey)
    requires k in c.residents
    ensures var e, d := c.residents[k], c.(residents := c.residents - {k});
      && Accounted(c) == Accounted(d) + e.vram
      && Unmaterialized(c) == Unmaterialized(d) + if e.materialized then 0 else e.vram
  {
    SumRemove(c.residents, k, EntryBytes);
    SumRemove(c.residents, k, EntryPending);
  }

  /** So does a reservation. */
  lemma ReservationCounts(c: Coord, op: OpId)
    requires op in c.reservations
    ensures var r, d := c.reservations[op], c.(reservations := c.reservations - {op});
      && Accounted(c) == Accounted(d) + r.est
      && Unmaterialized(c) == Unmaterialized(d) + if r.materialized then 0 else r.est
  {
    SumRemove(c.reservations, op, ReservedBytes);
    SumRemove(c.reservations, op, ReservedPending);
  }

  /** And nothing else does. */
  lemma NothingElseCounts(c: Coord)
    requires c.residents == map[] && c.reservations == map[]
    ensures Accounted(c) == 0 && Unmaterialized(c) == 0
  {
  }

  // Stage 1

  /** Idle before busy, and then the longer unused. */
  predicate GoesBefore(x: Entry, y: Entry) {
    (x.active == 0 && y.active > 0) || ((x.active == 0 <==> y.active == 0) && x.recency <= y.recency)
  }

  predicate MayGo(c: Coord, k: ModelKey, v: ModelKey) {
    v != k && v in c.residents && c.residents[v].phase == Resident && c.residents[v].materialized
  }

  /** With the entries under `gone` out of the table and their memory free, both bounds hold. */
  ghost predicate MakesRoom(c: Coord, cfg: Config, k: ModelKey, est: nat, free: nat, gone: set<ModelKey>) {
    var all, left := SumBy(c.residents, EntryBytes), SumBy(c.residents - gone, EntryBytes);
    && gone != {} && (forall v :: v in gone ==> MayGo(c, k, v))
    && left + SumBy(c.reservations, ReservedBytes) + est <= cfg.Capacity()
    && est + SumBy(c.reservations, ReservedPending) + SumBy(c.residents, EntryPending) + cfg.headroom <= free + (all - left)
  }

  /** Distinct entries that may go and make room together, but no fewer of them in their order do; whoever is
      passed over goes no earlier than any of them. */
  ghost predicate RightVictims(c: Coord, cfg: Config, k: ModelKey, est: nat, free: nat, victims: seq<ModelKey>) {
    && Distinct(victims) && Known(c, victims) && MakesRoom(c, cfg, k, est, free, Keyed(victims))
    && (forall n :: 0 < n < |victims| ==> !MakesRoom(c, cfg, k, est, free, Keyed(victims[..n])))
    && (forall i, j :: 0 <= i < j < |victims| ==> GoesBefore(c.residents[victims[i]], c.residents[victims[j]]))
    && (forall v, u :: v in victims && MayGo(c, k, u) && u !in victims ==> GoesBefore(c.residents[v], c.residents[u]))
  }

  /** Both bounds, as things stand. */
  ghost predicate HasRoom(c: Coord, cfg: Config, est: nat, free: nat) {
    && SumBy(c.residents, EntryBytes) + SumBy(c.reservations, ReservedBytes) + est <= cfg.Capacity()
    && est + SumBy(c.reservations, ReservedPending) + SumBy(c.residents, EntryPending) + cfg.headroom <= free
  }

  ghost predicate BeingLoaded(c: Coord, k: ModelKey) {
    exists o :: o in c.reservations && c.reservations[o].key == k
  }

  ghost predicate CanMakeRoom(c: Coord, cfg: Config, k: ModelKey, est: nat, free: nat) {
    exists gone :: MakesRoom(c, cfg, k, est, free, gone)
  }

  /** The one right answer of stage 1, case by case. */
  ghost predicate RightPlan(c: Coord, cfg: Config, k: ModelKey, est: nat, free: nat, plan: Plan) {
    if c.exclusive.Some? || c.barrier then plan == Reject(GpuBusy)
    else if k in c.residents then
      var joinable := c.residents[k].phase == Loading && BeingLoaded(c, k);
      && (plan.Share? <==> c.residents[k].phase == Resident)
      && (plan.Join? <==> joinable)
      && (plan.Join? ==> plan.owner in c.reservations && c.reservations[plan.owner].key == k)
      && (plan.AwaitTransient? <==> c.residents[k].phase != Resident && !joinable)
    else
      var room := CanMakeRoom(c, cfg, k, est, free);
      && (plan.LoadIt? <==> HasRoom(c, cfg, est, free))
      && (plan.Mark? <==> !HasRoom(c, cfg, est, free) && room)
      && (plan.Mark? ==> RightVictims(c, cfg, k, est, free, plan.victims))
      && (plan == Reject(ModelTooLarge) <==> !HasRoom(c, cfg, est, free) && !room && est + cfg.headroom > cfg.Capacity())
      && (plan == Reject(GpuBusy) <==> !HasRoom(c, cfg, est, free) && !room && est + cfg.headroom <= cfg.Capacity())
  }

  /** What each answer does to the tables: a resident model is shared at once, with one fresh claim and one request
      more; a joiner is listed with the load it joins; a load is reserved under the current generation; victims
      drain. Nothing else changes, and no other answer changes anything. */
  predicate RightEffect(c: Coord, d: Coord, op: OpId, k: ModelKey, est: nat, plan: Plan) {
    match plan
    case Share =>
      && k in c.residents
      && d == c.(residents := c.residents[k := c.residents[k].(active := c.residents[k].active + 1, recency := c.nextTicket)],
                 claims := c.claims[k := (if k in c.claims then c.claims[k] else {}) + {c.nextClaim}],
                 nextClaim := c.nextClaim + 1, nextTicket := c.nextTicket + 1)
    case Join(owner) =>
      && owner in c.reservations
      && d == c.(waiters := c.waiters[c.nextWaiter := Waiter(op, Unset)], live := c.live[op := c.nextWaiter],
                 reservations := c.reservations[owner := c.reservations[owner].(waiters := c.reservations[owner].waiters + [c.nextWaiter])],
                 nextWaiter := c.nextWaiter + 1)
    case LoadIt =>
      d == c.(residents := c.residents[k := Entry(Loading, 0, 0, c.nextTicket, true)],
              reservations := c.reservations[op := Reservation(k, est, if k in c.generation then c.generation[k] else 0, false, [])],
              nextTicket := c.nextTicket + 1)
    case Mark(victims) =>
      && d == c.(residents := d.residents, intent := c.intent[op := victims]) && d.residents.Keys == c.residents.Keys
      && forall j :: j in c.residents ==>
           d.residents[j] == if j in victims then c.residents[j].(phase := Draining) else c.residents[j]
    case _ => d == c
  }

  lemma EffectIsRight(c: Coord, op: OpId, k: ModelKey, est: nat, plan: Plan)
    requires plan.Share? ==> k in c.residents
    requires plan.Join? ==> plan.owner in c.reservations
    ensures RightEffect(c, ApplyPlan(c, op, k, est, plan), op, k, est, plan)
  {
  }

  lemma RanksAgree(c: Coord, a: ModelKey, b: ModelKey)
    requires a in c.residents && b in c.residents
    ensures NoLater(c, a, b) <==> GoesBefore(c.residents[a], c.residents[b])
  {
  }

  /** What suffices, by victims, is what makes room, by keys. */
  lemma SufficientIsRoom(c: Coord, cfg: Config, k: ModelKey, est: nat, free: nat, vs: seq<ModelKey>)
    requires vs != [] && AreVictims(c, k, vs) && Known(c, vs)
    ensures Suffices(c, cfg, est, free, vs) <==> MakesRoom(c, cfg, k, est, free, Keyed(vs))
  {
    FreedIsGone(c, c.residents, vs);
    assert vs[0] in Keyed(vs);
    assert forall v :: v in vs <==> v in Keyed(vs);
    assert forall v :: v in vs ==> Evictable(c, k, v);
  }

  lemma {:induction false} AsSequence(s: set<ModelKey>) returns (l: seq<ModelKey>)
    ensures Distinct(l) && Keyed(l) == s && (l == [] ==> s == {})
    decreases s
  {
    if s == {} {
      l := [];
    } else {
      var x :| x in s;
      var rest := AsSequence(s - {x});
      l := rest + [x];
      assert forall y :: y in rest <==> y in s - {x};
    }
  }

  /** If no choice of victims suffices, no set of keys makes room. */
  lemma NoVictimsNoRoom(c: Coord, cfg: Config, k: ModelKey, est: nat, free: nat)
    requires forall vs :: vs != [] && Known(c, vs) && AreVictims(c, k, vs) ==> !Suffices(c, cfg, est, free, vs)
    ensures !CanMakeRoom(c, cfg, k, est, free)
  {
    if CanMakeRoom(c, cfg, k, est, free) {
      var gone :| MakesRoom(c, cfg, k, est, free, gone);
      var vs := AsSequence(gone);
      assert forall v :: v in vs <==> v in gone;
      forall v | v in vs ensures Evictable(c, k, v) { assert MayGo(c, k, v); }
      SufficientIsRoom(c, cfg, k, est, free, vs);
    }
  }

  lemma VictimsAreRight(c: Coord, cfg: Config, k: ModelKey, est: nat, free: nat, victims: seq<ModelKey>)
    requires victims != [] && AreVictims(c, k, victims) && Known(c, victims) && Ranked(c, victims) && Leads(c, k, victims)
    requires Suffices(c, cfg, est, free, victims)
    requires forall n :: 0 < n < |victims| ==> Known(c, victims[..n]) && !Suffices(c, cfg, est, free, victims[..n])
    ensures RightVictims(c, cfg, k, est, free, victims)
  {
    hide Suffices, MakesRoom;
    SufficientIsRoom(c, cfg, k, est, free, victims);
    forall n | 0 < n < |victims| ensures !MakesRoom(c, cfg, k, est, free, Keyed(victims[..n])) {
      assert forall v :: v in victims[..n] ==> v in victims;
      SufficientIsRoom(c, cfg, k, est, free, victims[..n]);
    }
    forall i, j | 0 <= i < j < |victims| ensures GoesBefore(c.residents[victims[i]], c.residents[victims[j]]) {
      RanksAgree(c, victims[i], victims[j]);
    }
    forall v, u | v in victims && MayGo(c, k, u) && u !in victims ensures GoesBefore(c.residents[v], c.residents[u]) {
      assert Evictable(c, k, u);
      RanksAgree(c, v, u);
    }
  }

  lemma LoadedIsInFlight(c: Coord, k: ModelKey)
    ensures BeingLoaded(c, k) <==> exists o :: LoadInFlight(c, o, k)
  {
    if o :| LoadInFlight(c, o, k) { assert c.reservations[o].key == k; }
    if BeingLoaded(c, k) {
      var o :| o in c.reservations && c.reservations[o].key == k;
      assert LoadInFlight(c, o, k);
    }
  }

  /** The decision made is the right one, given a reservation of that key if there is one, and victims chosen as
      they are. */
  lemma DecisionIsRight(c: Coord, cfg: Config, k: ModelKey, est: nat, free: nat, owner: OpId, victims: seq<ModelKey>)
    requires BeingLoaded(c, k) ==> LoadInFlight(c, owner, k)
    requires victims != [] ==> RightVictims(c, cfg, k, est, free, victims)
    requires victims == [] && Decide(c, cfg, k, est, free, owner, victims).Reject? && !Barred(c) ==> !CanMakeRoom(c, cfg, k, est, free)
    ensures RightPlan(c, cfg, k, est, free, Decide(c, cfg, k, est, free, owner, victims))
  {
    hide MakesRoom;
    assert LoadInFlight(c, owner, k) ==> BeingLoaded(c, k);
    if victims != [] { assert MakesRoom(c, cfg, k, est, free, Keyed(victims)); }
    hide RightVictims, CanMakeRoom, BeingLoaded;
    assert FitsBudget(c, cfg, est) && FitsLive(c, cfg, est, free) <==> HasRoom(c, cfg, est, free);
    hide HasRoom, FitsBudget, FitsLive;
  }

  // Stage 3

  datatype Rechecked = Lost | Objected(verdict: Disposition) | Kept(claim: nat)

  /** The one right outcome of the re-check: busy when a job has come, try again when the key was displaced, and when
      the load does not fit beside everything else, too large only for a size above capacity less headroom. */
  ghost predicate RightVerdict(c: Coord, cfg: Config, op: OpId, k: ModelKey, size: nat, outcome: Rechecked)
    requires op in c.reservations
  {
    var barred := c.exclusive.Some? || c.barrier;
    var displaced := (if k in c.generation then c.generation[k] else 0) != c.reservations[op].generation;
    var over := SumBy(c.residents - {k}, EntryBytes) + size + SumBy(c.reservations - {op}, ReservedBytes) > cfg.Capacity();
    && (outcome == Objected(Retry) <==> !barred && displaced)
    && (outcome == Objected(Refused(ModelTooLarge)) <==> !barred && !displaced && over && size + cfg.headroom > cfg.Capacity())
    && (outcome == Objected(Refused(GpuBusy)) <==> barred || (!displaced && over && size + cfg.headroom <= cfg.Capacity()))
    && (outcome == Kept(c.nextClaim) <==> !barred && !displaced && !over)
  }

  /** A load kept: the entry is resident with its measured bytes, one request for the loader and one for each joiner;
      joiner `i` is handed the claim numbered `i` after the loader's. */
  ghost predicate RightCommit(c: Coord, d: Coord, op: OpId, k: ModelKey, size: nat, deferred: bool)
    requires op in c.reservations
  {
    var ws := c.reservations[op].waiters;
    && k in c.residents
    && d == c.(residents := d.residents, claims := d.claims, waiters := d.waiters, reservations := c.reservations - {op},
               nextClaim := c.nextClaim + 1 + |ws|, nextTicket := d.nextTicket)
    && d.nextTicket > c.nextTicket + |ws|
    && k in d.residents && d.residents == c.residents[k := d.residents[k]]
    && d.residents[k].phase == Resident && d.residents[k].vram == size && d.residents[k].materialized == !deferred
    && d.residents[k].active == c.residents[k].active + 1 + |ws| && c.nextTicket <= d.residents[k].recency < d.nextTicket
    && k in d.claims && d.claims == c.claims[k := d.claims[k]]
    && (forall claim: nat :: claim in d.claims[k] <==> (k in c.claims && claim in c.claims[k]) || c.nextClaim <= claim <= c.nextClaim + |ws|)
    && d.waiters.Keys == c.waiters.Keys
    && (forall i :: 0 <= i < |ws| && ws[i] in c.waiters ==>
          d.waiters[ws[i]] == c.waiters[ws[i]].(disposition := Shared(c.nextClaim + 1 + i)))
    && (forall j :: j in c.waiters && j !in ws ==> d.waiters[j] == c.waiters[j])
  }

  /** A load rolled back: its own reservation goes, its joiners are in its custody, the entry waits to be removed. */
  predicate RightRollback(c: Coord, d: Coord, op: OpId, k: ModelKey)
    requires op in c.reservations
  {
    d == c.(residents := if k in c.residents then c.residents[k := c.residents[k].(phase := RollingBack)] else c.residents,
            reservations := c.reservations - {op}, custody := c.custody[op := c.reservations[op].waiters])
  }

  function Answered(objection: Disposition, claim: nat): Rechecked {
    if objection == Unset then Kept(claim) else Objected(objection)
  }

  lemma VerdictIsRight(c: Coord, cfg: Config, op: OpId, k: ModelKey, size: nat)
    requires op in c.reservations
    ensures RightVerdict(c, cfg, op, k, size, Answered(Objection(c, cfg, op, k, size), c.nextClaim))
  {
  }

  lemma RollbackIsRight(c: Coord, op: OpId, k: ModelKey)
    requires op in c.reservations
    ensures RightRollback(c, RollbackIntent(c, op, k), op, k)
  {
  }

  lemma CommitIsRight(c: Coord, op: OpId, k: ModelKey, size: nat, deferred: bool)
    requires op in c.reservations && k in c.residents && Distinct(c.reservations[op].waiters)
    ensures RightCommit(c, CommitLoad(c, op, k, size, deferred), op, k, size, deferred)
  {
    hide CommitLoad, HandClaims;
    CommitHandsInOrder(c.waiters, c.reservations[op].waiters, c.nextClaim + 1);
    CommitClaimsAre(c, op, k, size, deferred);
    CommitEntryIs(c, op, k, size, deferred);
  }

  lemma CommitEntryIs(c: Coord, op: OpId, k: ModelKey, size: nat, deferred: bool)
    requires op in c.reservations && k in c.residents
    ensures var d, ws := CommitLoad(c, op, k, size, deferred), c.reservations[op].waiters;
      && d == c.(residents := d.residents, claims := d.claims, waiters := HandClaims(c.waiters, ws, c.nextClaim + 1),
                 reservations := c.reservations - {op}, nextClaim := c.nextClaim + 1 + |ws|, nextTicket := c.nextTicket + 2 + |ws|)
      && d.residents == c.residents[k := Entry(Resident, size, c.residents[k].active + 1 + |ws|, c.nextTicket + 1 + |ws|, !deferred)]
  {
    hide HandClaims, ClaimRange, ClaimsOf;
  }

  lemma CommitHandsInOrder(waiters: map<nat, Waiter>, ws: seq<nat>, first: nat)
    requires Distinct(ws)
    ensures var h := HandClaims(waiters, ws, first);
      && h.Keys == waiters.Keys
      && (forall i :: 0 <= i < |ws| && ws[i] in waiters ==> h[ws[i]] == waiters[ws[i]].(disposition := Shared(first + i)))
      && (forall j :: j in waiters && j !in ws ==> h[j] == waiters[j])
  {
    forall i | 0 <= i < |ws| ensures IndexOf(ws, ws[i]) == i {}
  }

  lemma CommitClaimsAre(c: Coord, op: OpId, k: ModelKey, size: nat, deferred: bool)
    requires op in c.reservations && k in c.residents
    ensures var d, n := CommitLoad(c, op, k, size, deferred), |c.reservations[op].waiters|;
      && k in d.claims && d.claims == c.claims[k := d.claims[k]]
      && (forall claim: nat :: claim in d.claims[k] <==> (k in c.claims && claim in c.claims[k]) || c.nextClaim <= claim <= c.nextClaim + n)
  {
    hide HandClaims;
  }
}
