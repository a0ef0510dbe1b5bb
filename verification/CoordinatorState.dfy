/** The coordinator's bookkeeping as a value, and each of its critical sections as a function on it.

    Every section below is one `with self._locked()` block. Loading, unloading and measuring a child
    happen between sections; `CoordinatorWorld` interleaves them, and class `Coordinator` performs
    them in place. */
module CoordinatorState {
  import opened Common

  datatype ModelKey = ModelKey(name: string)
  datatype OpId = OpId(id: string)
  datatype JobId = JobId(id: string)

  datatype Phase = Loading | Resident | Draining | Evicting | RollingBack

  datatype Entry = Entry(phase: Phase, vram: nat, active: nat, recency: nat, materialized: bool)

  /** Joiners are named by the number of their waiter record. */
  datatype Reservation = Reservation(key: ModelKey, est: nat, generation: nat, materialized: bool, waiters: seq<nat>)

  datatype Code = GpuBusy | ModelTooLarge | LoadFailed

  /** What a joiner is handed. `Retry` makes it re-enter stage 1. */
  datatype Disposition = Unset | Shared(claim: nat) | Refused(code: Code) | Retry

  datatype Waiter = Waiter(op: OpId, disposition: Disposition)

  datatype Config = Config(total: nat, reserve: nat, headroom: nat, budget: Option<nat>)
  {
    /** Never negative: a device smaller than the reserve admits nothing. */
    function Capacity(): (bytes: nat)
      ensures reserve > total ==> bytes == 0
      ensures reserve <= total ==>
        bytes <= total - reserve && (budget.Some? ==> bytes <= budget.value) && (bytes == total - reserve || budget == Some(bytes))
    {
      var fromDevice := total - reserve;
      var bounded := if budget.Some? && budget.value < fromDevice then budget.value else fromDevice;
      if bounded < 0 then 0 else bounded
    }
  }

  datatype Coord = Coord(
    residents: map<ModelKey, Entry>,
    reservations: map<OpId, Reservation>,
    exclusive: Option<JobId>,
    barrier: bool,
    generation: map<ModelKey, nat>,
    claims: map<ModelKey, set<nat>>,
    waiters: map<nat, Waiter>,
    live: map<OpId, nat>,
    custody: map<OpId, seq<nat>>,
    intent: map<OpId, seq<ModelKey>>,
    nextClaim: nat,
    nextTicket: nat,
    nextWaiter: nat)

  const EMPTY := Coord(map[], map[], None, false, map[], map[], map[], map[], map[], map[], 1, 1, 0)

  // Derived quantities

  function EntryBytes(e: Entry): nat { e.vram }
  function EntryPending(e: Entry): nat { if e.materialized then 0 else e.vram }
  function ReservedBytes(r: Reservation): nat { r.est }
  function ReservedPending(r: Reservation): nat { if r.materialized then 0 else r.est }

  ghost function ResidentBytes(c: Coord): nat { SumBy(c.residents, EntryBytes) }
  ghost function Accounted(c: Coord): nat { ResidentBytes(c) + SumBy(c.reservations, ReservedBytes) }
  ghost function Unmaterialized(c: Coord): nat {
    SumBy(c.reservations, ReservedPending) + SumBy(c.residents, EntryPending)
  }

  function Gen(c: Coord, k: ModelKey): nat { if k in c.generation then c.generation[k] else 0 }
  function ClaimsOf(c: Coord, k: ModelKey): set<nat> { if k in c.claims then c.claims[k] else {} }
  predicate Barred(c: Coord) { c.exclusive.Some? || c.barrier }
  predicate LoadInFlight(c: Coord, owner: OpId, k: ModelKey) {
    owner in c.reservations && c.reservations[owner].key == k
  }

  ghost predicate FitsBudget(c: Coord, cfg: Config, est: nat) { Accounted(c) + est <= cfg.Capacity() }
  ghost predicate FitsLive(c: Coord, cfg: Config, est: nat, free: nat) {
    est + Unmaterialized(c) + cfg.headroom <= free
  }

  /** Entries an admission of `k` may evict. */
  predicate Evictable(c: Coord, k: ModelKey, v: ModelKey) {
    v != k && v in c.residents && c.residents[v].phase == Resident && c.residents[v].materialized
  }

  // Claims

  function GrantClaim(c: Coord, k: ModelKey): Coord
    requires k in c.residents
  {
    var e := c.residents[k];
    c.(residents := c.residents[k := e.(active := e.active + 1, recency := c.nextTicket)],
       claims := c.claims[k := ClaimsOf(c, k) + {c.nextClaim}],
       nextClaim := c.nextClaim + 1,
       nextTicket := c.nextTicket + 1)
  }

  /** Dropping a claim: the decrement saturates at zero. */
  function ReleaseClaim(c: Coord, k: ModelKey, claim: nat): (d: Coord)
    ensures d == c.(residents := d.residents, nextTicket := d.nextTicket, claims := d.claims)
    ensures d.residents.Keys == c.residents.Keys
  {
    var residents :=
      if k in c.residents then
        var e := c.residents[k];
        c.residents[k := e.(active := if e.active == 0 then 0 else e.active - 1, recency := c.nextTicket)]
      else c.residents;
    c.(residents := residents,
       nextTicket := if k in c.residents then c.nextTicket + 1 else c.nextTicket,
       claims := if k in c.claims then c.claims[k := c.claims[k] - {claim}] else c.claims)
  }

  // Stage 1

  /** What stage 1 decides. `Join` names the reservation joined, `Mark` the victims marked. */
  datatype Plan =
    | Share
    | Join(owner: OpId)
    | AwaitTransient
    | LoadIt
    | Mark(victims: seq<ModelKey>)
    | Reject(code: Code)

  /** The decision, given which matching reservation is met first and which victims are selected. */
  ghost function Decide(c: Coord, cfg: Config, k: ModelKey, est: nat, free: nat, owner: OpId, victims: seq<ModelKey>): Plan {
    if Barred(c) then Reject(GpuBusy)
    else if k in c.residents && c.residents[k].phase == Resident then Share
    else if k in c.residents && c.residents[k].phase == Loading then
      if LoadInFlight(c, owner, k) then Join(owner) else AwaitTransient
    else if k in c.residents then AwaitTransient
    else if FitsBudget(c, cfg, est) && FitsLive(c, cfg, est, free) then LoadIt
    else if victims != [] then Mark(victims)
    else if est > cfg.Capacity() - cfg.headroom then Reject(ModelTooLarge)
    else Reject(GpuBusy)
  }

  function Join1(c: Coord, op: OpId, owner: OpId): Coord
    requires owner in c.reservations
  {
    var r := c.reservations[owner];
    c.(waiters := c.waiters[c.nextWaiter := Waiter(op, Unset)],
       reservations := c.reservations[owner := r.(waiters := r.waiters + [c.nextWaiter])],
       live := c.live[op := c.nextWaiter],
       nextWaiter := c.nextWaiter + 1)
  }

  function Reserve(c: Coord, op: OpId, k: ModelKey, est: nat): Coord {
    c.(reservations := c.reservations[op := Reservation(k, est, Gen(c, k), false, [])],
       residents := c.residents[k := Entry(Loading, 0, 0, c.nextTicket, true)],
       nextTicket := c.nextTicket + 1)
  }

  function MarkVictims(c: Coord, op: OpId, victims: seq<ModelKey>): Coord {
    c.(residents := map k | k in c.residents ::
         if k in victims then c.residents[k].(phase := Draining) else c.residents[k],
       intent := c.intent[op := victims])
  }

  function ApplyPlan(c: Coord, op: OpId, k: ModelKey, est: nat, plan: Plan): Coord
    requires plan.Share? ==> k in c.residents
    requires plan.Join? ==> plan.owner in c.reservations
  {
    match plan
    case Share => GrantClaim(c, k)
    case Join(owner) => Join1(c, op, owner)
    case LoadIt => Reserve(c, op, k, est)
    case Mark(victims) => MarkVictims(c, op, victims)
    case _ => c
  }

  // Stage 3

  /** A live process was measured: its bytes are now visible in live-free. */
  function Materialize(c: Coord, op: OpId, size: nat): Coord {
    if op in c.reservations then
      c.(reservations := c.reservations[op := c.reservations[op].(est := size, materialized := true)])
    else c
  }

  /** The commit re-check: why a finished load must be rolled back, if it must. */
  ghost function Objection(c: Coord, cfg: Config, op: OpId, k: ModelKey, size: nat): Disposition
    requires op in c.reservations
  {
    var others := SumBy(c.reservations - {op}, ReservedBytes);
    var residentTotal := SumBy(c.residents - {k}, EntryBytes);
    if Barred(c) then Refused(GpuBusy)
    else if Gen(c, k) != c.reservations[op].generation then Retry
    else if residentTotal + size + others > cfg.Capacity() then
      if size > cfg.Capacity() - cfg.headroom then Refused(ModelTooLarge) else Refused(GpuBusy)
    else Unset
  }

  /** Rollback records intent, drops the operation's own reservation and takes custody of its joiners. */
  function RollbackIntent(c: Coord, op: OpId, k: ModelKey): (d: Coord)
    requires op in c.reservations
    ensures d == c.(residents := d.residents, reservations := d.reservations, custody := d.custody)
    ensures d.residents.Keys == c.residents.Keys
    ensures forall j :: j in c.residents && d.residents[j].phase != RollingBack ==> d.residents[j] == c.residents[j]
  {
    c.(residents := if k in c.residents then SetPhase(c, k, RollingBack).residents else c.residents,
       reservations := c.reservations - {op},
       custody := c.custody[op := c.reservations[op].waiters])
  }

  /** Joiner `ws[i]` is handed claim `first + i`. */
  function HandClaims(waiters: map<nat, Waiter>, ws: seq<nat>, first: nat): map<nat, Waiter> {
    map w | w in waiters ::
      if w in ws then waiters[w].(disposition := Shared(first + IndexOf(ws, w))) else waiters[w]
  }

  /** The claim numbers `first, …, first + count - 1`. */
  function ClaimRange(first: nat, count: nat): (s: set<nat>)
    ensures forall i :: i in s <==> first <= i < first + count
    ensures |s| == count
  {
    if count == 0 then {} else ClaimRange(first, count - 1) + {first + count - 1}
  }

  /** Commit: claims for the loader and for every joiner, in the section that makes the entry resident. */
  function CommitLoad(c: Coord, op: OpId, k: ModelKey, size: nat, deferred: bool): Coord
    requires op in c.reservations && k in c.residents
  {
    var ws := c.reservations[op].waiters;
    var e := c.residents[k];
    c.(residents := c.residents[k := Entry(Resident, size, e.active + 1 + |ws|, c.nextTicket + 1 + |ws|, !deferred)],
       claims := c.claims[k := ClaimsOf(c, k) + ClaimRange(c.nextClaim, 1 + |ws|)],
       waiters := HandClaims(c.waiters, ws, c.nextClaim + 1),
       reservations := c.reservations - {op},
       nextClaim := c.nextClaim + 1 + |ws|,
       nextTicket := c.nextTicket + 2 + |ws|)
  }

  /** A failed load drops its reservation, and its entry when nobody displaced it. */
  function FailLoad(c: Coord, op: OpId, k: ModelKey): (d: Coord)
    ensures d == c.(reservations := c.reservations - {op}, custody := d.custody, residents := d.residents, generation := d.generation)
  {
    var ws := if op in c.reservations then c.reservations[op].waiters else [];
    var own := k in c.residents && op in c.reservations && Gen(c, k) == c.reservations[op].generation;
    c.(reservations := c.reservations - {op},
       custody := c.custody[op := ws],
       residents := if own then c.residents - {k} else c.residents,
       generation := if own then c.generation[k := Gen(c, k) + 1] else c.generation)
  }

  /** The closing section of a rollback or an eviction: remove by key, and bump the generation. */
  function Finalize(c: Coord, k: ModelKey): Coord {
    c.(residents := c.residents - {k}, generation := c.generation[k := Gen(c, k) + 1])
  }

  // Joiners

  ghost function OpsOf(waiters: map<nat, Waiter>, ws: seq<nat>): set<OpId> {
    set w | w in waiters && w in ws :: waiters[w].op
  }

  /** Hand every joiner that has none yet the owner's disposition, and close its registration. */
  ghost function Dispose(c: Coord, ws: seq<nat>, d: Disposition, owner: OpId): Coord {
    c.(waiters := map w | w in c.waiters ::
         if w in ws && c.waiters[w].disposition == Unset then c.waiters[w].(disposition := d) else c.waiters[w],
       live := c.live - OpsOf(c.waiters, ws),
       custody := c.custody - {owner})
  }

  /** The joiner's own closing section: take the disposition found, or deregister on its deadline. */
  function EndWait(c: Coord, op: OpId, w: nat): (d: Coord)
    requires w in c.waiters
    ensures d == c.(reservations := d.reservations, waiters := d.waiters, live := d.live)
    ensures d.reservations.Keys == c.reservations.Keys
    ensures forall o :: o in c.reservations ==> d.reservations[o].(waiters := []) == c.reservations[o].(waiters := [])
  {
    if c.waiters[w].disposition == Unset then
      c.(reservations := map o | o in c.reservations ::
           c.reservations[o].(waiters := Without(c.reservations[o].waiters, w)),
         waiters := c.waiters[w := c.waiters[w].(disposition := Refused(GpuBusy))],
         live := c.live - {op})
    else c.(live := c.live - {op})
  }

  // Eviction

  function BeginEvict(c: Coord, k: ModelKey): (d: Coord)
    ensures d == c.(residents := d.residents)
  {
    if k in c.residents && c.residents[k].phase == Resident then SetPhase(c, k, Draining) else c
  }

  datatype DrainVerdict = AlreadyGone | Drained | TimedOut | KeepWaiting

  function DrainCheck(c: Coord, k: ModelKey, expired: bool): DrainVerdict {
    if k !in c.residents then AlreadyGone
    else if c.residents[k].active == 0 then Drained
    else if expired then TimedOut
    else KeepWaiting
  }

  function SetPhase(c: Coord, k: ModelKey, p: Phase): Coord
    requires k in c.residents
  {
    c.(residents := c.residents[k := c.residents[k].(phase := p)])
  }

  /** Drained: committed to unload. Timed out: the victim reverts, unless a barrier takes it over. */
  function DrainStep(c: Coord, k: ModelKey, expired: bool): (d: Coord)
    ensures d == c.(residents := d.residents) && d.residents.Keys == c.residents.Keys
  {
    if k !in c.residents then c
    else if c.residents[k].active == 0 then SetPhase(c, k, Evicting)
    else if expired && !Barred(c) then SetPhase(c, k, Resident)
    else c
  }

  function CloseIntent(c: Coord, op: OpId): Coord { c.(intent := c.intent - {op}) }

  /** The caller has already stopped the child. */
  function Forget(c: Coord, k: ModelKey): Coord {
    if k in c.residents then Finalize(c, k) else c
  }

  /** The spawned process reported in: a non-zero reading replaces the estimate. */
  function SetChild(c: Coord, k: ModelKey, measured: nat): Coord {
    if k in c.residents && measured != 0 then
      c.(residents := c.residents[k := c.residents[k].(vram := measured, materialized := true)])
    else c
  }

  // Exclusive jobs

  function SwapPhase(residents: map<ModelKey, Entry>, from: Phase, to: Phase): (r: map<ModelKey, Entry>)
    ensures r.Keys == residents.Keys
    ensures forall k :: k in r ==>
      r[k] == if residents[k].phase == from then residents[k].(phase := to) else residents[k]
  {
    map k | k in residents :: if residents[k].phase == from then residents[k].(phase := to) else residents[k]
  }

  function BeginJob(c: Coord): (d: Coord)
    ensures d == c.(barrier := d.barrier, residents := d.residents)
  {
    if Barred(c) then c else c.(barrier := true, residents := SwapPhase(c.residents, Resident, Draining))
  }

  predicate JobMayStart(c: Coord, drained: bool) {
    drained && c.residents == map[] && c.reservations == map[]
  }

  function FinishJob(c: Coord, job: JobId, drained: bool): (d: Coord)
    ensures d == c.(exclusive := d.exclusive, barrier := d.barrier, residents := d.residents)
  {
    if JobMayStart(c, drained) then c.(exclusive := Some(job), barrier := false)
    else c.(barrier := false, residents := SwapPhase(c.residents, Draining, Resident))
  }

  function EndJob(c: Coord, job: Option<JobId>): Coord {
    if job.None? || c.exclusive == job then c.(exclusive := None) else c
  }

  /** A joiner with no disposition that no registry and no custody lists: nothing will ever wake it. */
  ghost predicate Orphaned(c: Coord, op: OpId) {
    && op in c.live && c.live[op] in c.waiters && c.waiters[c.live[op]].disposition == Unset
    && (forall o :: o in c.reservations ==> c.live[op] !in c.reservations[o].waiters)
    && (forall o :: o in c.custody ==> c.live[op] !in c.custody[o])
  }

  /** The coordinator's own self-check: the invariants it asserts continuously. */
  ghost predicate SelfCheck(c: Coord, cfg: Config) {
    && Accounted(c) <= cfg.Capacity()
    && c.intent.Keys !! c.reservations.Keys
    && (forall k :: k in c.residents ==> c.residents[k].active == |ClaimsOf(c, k)|)
    && (forall op :: !Orphaned(c, op))
  }
}
