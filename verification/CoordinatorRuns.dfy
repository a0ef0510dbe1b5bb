/** Whole runs: what holds after every finite interleaving of the coordinator's sections. */
module CoordinatorRuns {
  import opened Common
  import opened CoordinatorState
  import opened CoordinatorWorld
  import opened CoordinatorOwnership
  import opened CoordinatorJoiners
  import opened CoordinatorPhases
  import opened CoordinatorFlights
  import opened CoordinatorClaims
  import opened CoordinatorBudget
  import opened CoordinatorMemory

  /** What is assumed of the surroundings throughout a run. With every field off, nothing is. */
  datatype Surroundings = Surroundings(clean: bool, idlePops: bool, noOvershoot: bool, modest: bool, external: Option<nat>)

  ghost predicate Allowed(w: World, cfg: Config, s: Surroundings, e: Event) {
    && Enabled(w, e)
    && (s.clean ==> Clean(w, cfg, e))
    && (s.idlePops ==> !PopsBusy(w, e))
    && (s.noOvershoot ==> NoOvershoot(w, e))
    && (s.modest ==> Modest(w, e))
    && (s.external.Some? ==> Physical(w, cfg, s.external.value, e))
  }

  ghost predicate IsRun(w: World, cfg: Config, s: Surroundings, events: seq<Event>)
    decreases |events|
  {
    events == [] || (Allowed(w, cfg, s, events[0]) && IsRun(Step(w, cfg, events[0]), cfg, s, events[1..]))
  }

  ghost function After(w: World, cfg: Config, s: Surroundings, events: seq<Event>): World
    requires IsRun(w, cfg, s, events)
    decreases |events|
  {
    if events == [] then w else After(Step(w, cfg, events[0]), cfg, s, events[1..])
  }

  // Eviction intent is open only while its operation is evicting

  predicate ForGoal(pc: Pc) {
    (pc.Evictions? || pc.DrainWait? || pc.Unloading? || pc.Unloaded?) && pc.goal.Some?
  }

  predicate IntentOk(w: World, o: OpId) { o in w.c.intent ==> o in w.pcs && ForGoal(w.pcs[o]) }

  ghost predicate Intended(w: World) { forall o :: IntentOk(w, o) }

  lemma IntentStill(w: World, v: World, op: OpId)
    requires Intended(w) && Moves(w, v, op)
    requires v.c.intent == w.c.intent || v.c.intent == w.c.intent - {op}
    requires op in v.c.intent ==> ForGoal(v.pcs[op])
    ensures Intended(v)
  {
    forall o ensures IntentOk(v, o) { assert IntentOk(w, o); }
  }

  lemma MarkKeepsIntended(w: World, op: OpId, req: Request, victims: seq<ModelKey>)
    requires Intended(w)
    ensures Intended(OnMark(w, op, req, victims))
  {
    var v := OnMark(w, op, req, victims);
    forall o ensures IntentOk(v, o) { assert IntentOk(w, o); }
  }

  lemma PlanKeepsIntended(w: World, op: OpId, req: Request, plan: Plan)
    requires Intended(w) && op in w.pcs && w.pcs[op] == Ready(req)
    requires plan.Share? ==> req.key in w.c.residents
    requires plan.Join? ==> plan.owner in w.c.reservations
    ensures Intended(OnStage1(w, op, req, plan))
  {
    assert IntentOk(w, op);
    if plan.Mark? {
      MarkKeepsIntended(w, op, req, plan.victims);
    } else if !plan.AwaitTransient? {
      IntentStill(w, OnStage1(w, op, req, plan), op);
    }
  }

  lemma WaitKeepsIntended(w: World, op: OpId, req: Request, j: nat)
    requires Intended(w) && op in w.pcs && w.pcs[op] == Awaiting(req, j)
    ensures Intended(OnWaitEnds(w, op, req, j))
  {
    assert IntentOk(w, op);
    if j in w.c.waiters { IntentStill(w, OnWaitEnds(w, op, req, j), op); }
  }

  lemma AdmitKeepsIntended(w: World, cfg: Config, op: OpId, a: AdmitEvent)
    requires Intended(w) && AdmitEnabled(w, op, a)
    ensures Intended(AdmitStep(w, cfg, op, a))
  {
    assert IntentOk(w, op);
    match a
    case Stage1(free, owner, victims) =>
      var req := w.pcs[op].req;
      PlanKeepsIntended(w, op, req, Decide(w.c, cfg, req.key, req.est, free, owner, victims));
    case WaitEnds => WaitKeepsIntended(w, op, w.pcs[op].req, w.pcs[op].waiter);
    case _ => IntentStill(w, AdmitStep(w, cfg, op, a), op);
  }

  lemma LeaveLoadKeepsIntended(w: World, op: OpId, k: ModelKey, size: nat, deferred: bool, verdict: Disposition)
    requires Intended(w) && op in w.pcs && w.pcs[op] == Loaded(k, size, deferred) && op in w.c.reservations
    ensures Intended(OnUndo(w, op, k, verdict))
    ensures k in w.c.residents ==> Intended(OnCommit(w, op, k, size, deferred))
  {
    assert IntentOk(w, op);
    IntentStill(w, OnUndo(w, op, k, verdict), op);
    if k in w.c.residents {
      CommitLeavesRest(w.c, op, k, size, deferred);
      IntentStill(w, OnCommit(w, op, k, size, deferred), op);
    }
  }

  lemma CommitLeavesRest(c: Coord, op: OpId, k: ModelKey, size: nat, deferred: bool)
    requires op in c.reservations && k in c.residents
    ensures var d := CommitLoad(c, op, k, size, deferred);
      d.intent == c.intent && d.generation == c.generation && d.exclusive == c.exclusive
  {
  }

  lemma LoadKeepsIntended(w: World, cfg: Config, op: OpId, l: LoadEvent)
    requires Owned(w) && Intended(w) && LoadEnabled(w, op, l)
    ensures Intended(LoadStep(w, cfg, op, l))
  {
    assert IntentOk(w, op);
    if l.Commit? {
      ReservationNeverLost(w, op);
      var k, size := w.pcs[op].key, w.pcs[op].size;
      LeaveLoadKeepsIntended(w, op, k, size, w.pcs[op].deferred, Objection(w.c, cfg, op, k, size));
    } else {
      IntentStill(w, LoadStep(w, cfg, op, l), op);
    }
  }

  lemma EvictKeepsIntended(w: World, op: OpId, e: EvictEvent)
    requires Intended(w) && EvictEnabled(w, op, e)
    ensures Intended(EvictStep(w, op, e))
  {
    assert IntentOk(w, op);
    IntentStill(w, EvictStep(w, op, e), op);
  }

  lemma JobKeepsIntended(w: World, op: OpId, j: JobEvent)
    requires Intended(w) && JobEnabled(w, op, j)
    ensures Intended(JobStep(w, op, j))
  {
    assert IntentOk(w, op);
    IntentStill(w, JobStep(w, op, j), op);
  }

  lemma IntendedKept(w: World, cfg: Config, e: Event)
    requires Owned(w) && Intended(w) && Enabled(w, e)
    ensures Intended(Step(w, cfg, e))
  {
    match e
    case Admit(op, a) => AdmitKeepsIntended(w, cfg, op, a);
    case Load(op, l) => LoadKeepsIntended(w, cfg, op, l);
    case Evict(op, v) => EvictKeepsIntended(w, op, v);
    case Job(op, j) => JobKeepsIntended(w, op, j);
    case Outside(x) => OutsideKeepsIntended(w, x);
  }

  lemma OutsideKeepsIntended(w: World, x: OutsideEvent)
    requires Intended(w) && Enabled(w, Outside(x))
    ensures Intended(OutsideStep(w, x))
  {
    forall o ensures IntentOk(OutsideStep(w, x), o) { assert IntentOk(w, o); }
  }

  // Every run

  /** Everything known after a run in surroundings `s`. */
  ghost predicate Good(w: World, cfg: Config, s: Surroundings) {
    && Owned(w) && Joined(w) && Intended(w) && InFlightIdle(w)
    && (s.clean ==> Phased(w))
    && (s.clean || s.idlePops ==> Claimed(w))
    && (s.noOvershoot ==> ResidentBytes(w.c) <= cfg.Capacity())
    && (s.modest ==> Accounted(w.c) <= cfg.Capacity())
    && (s.clean && s.external.Some? ==> Sound(w, cfg, s.external.value))
  }

  lemma GoodKept(w: World, cfg: Config, s: Surroundings, e: Event)
    requires Good(w, cfg, s) && Allowed(w, cfg, s, e)
    ensures Good(Step(w, cfg, e), cfg, s)
  {
    OwnedKept(w, cfg, e);
    JoinedKept(w, cfg, e);
    IntendedKept(w, cfg, e);
    InFlightIdleKept(w, cfg, e);
    if s.clean { PhasedKept(w, cfg, e); CleanPopsIdle(w, cfg, e); }
    if s.clean || s.idlePops { ClaimedKept(w, cfg, e); }
    if s.noOvershoot { BytesKept(w, cfg, e); }
    if s.modest { BudgetKept(w, cfg, e); }
    if s.clean && s.external.Some? { SoundKept(w, cfg, s.external.value, e); }
  }

  lemma StartIsGood(cfg: Config, s: Surroundings)
    requires s.external.Some? ==> s.external.value <= cfg.total
    ensures Good(START, cfg, s)
  {
    assert Phased(START) && Owned(START) && Joined(START) && InFlightIdle(START) && Claimed(START);
  }

  lemma {:induction false} AlwaysGood(w: World, cfg: Config, s: Surroundings, events: seq<Event>)
    requires Good(w, cfg, s) && IsRun(w, cfg, s, events)
    ensures Good(After(w, cfg, s, events), cfg, s)
    decreases |events|
  {
    if events != [] {
      GoodKept(w, cfg, s, events[0]);
      AlwaysGood(Step(w, cfg, events[0]), cfg, s, events[1..]);
    }
  }

  /** Nothing assumed of the surroundings. An exclusive job has the whole device; each draining entry has
      an evictor on its way or a raised barrier; each open joiner stands in exactly one place. */
  lemma EveryRun(cfg: Config, s: Surroundings, events: seq<Event>)
    requires s.external.None? && IsRun(START, cfg, s, events)
    ensures var w := After(START, cfg, s, events);
      && (w.c.exclusive.Some? ==> w.c.residents == map[] && w.c.reservations == map[])
      && (forall k :: IsDraining(w.c, k) ==> w.c.barrier || exists o :: o in w.pcs && Pursues(w.pcs[o], k))
      && (forall j :: j in w.c.waiters && w.c.waiters[j].disposition == Unset ==> |Places(w.c, j)| == 1)
  {
    StartIsGood(cfg, s);
    AlwaysGood(START, cfg, s, events);
    var w := After(START, cfg, s, events);
    assert Exclusivity(w);
    forall k | IsDraining(w.c, k) ensures w.c.barrier || exists o :: o in w.pcs && Pursues(w.pcs[o], k) {
      assert Answered(w, k);
    }
    forall j | j in w.c.waiters && w.c.waiters[j].disposition == Unset ensures |Places(w.c, j)| == 1 {
      OpenJoinerHasOnePlace(w, j);
    }
  }

  /** Exactly one operation holds, or has been handed, this claim. */
  ghost predicate InOneHand(w: World, k: ModelKey, claim: nat) {
    exists o :: Held(w, o) == Grip(k, claim) && forall p :: Held(w, p) == Grip(k, claim) ==> p == o
  }

  lemma ClaimInOneHand(w: World, k: ModelKey, claim: nat)
    requires Claimed(w) && claim in ClaimsOf(w.c, k)
    ensures InOneHand(w, k, claim)
  {
    assert ClaimHeld(w, k, claim);
    var o := w.holder[claim];
    forall p | Held(w, p) == Grip(k, claim) ensures p == o { assert HeldOk(w, p); }
  }

  ghost predicate Conserved(w: World, k: ModelKey) {
    && (k in w.c.residents ==> w.c.residents[k].active == |ClaimsOf(w.c, k)|)
    && (ClaimsOf(w.c, k) != {} ==> k in w.c.residents)
    && (forall claim :: claim in ClaimsOf(w.c, k) ==> InOneHand(w, k, claim))
  }

  lemma ClaimedConserves(w: World, k: ModelKey)
    requires Claimed(w)
    ensures Conserved(w, k)
  {
    assert KeyClaims(w.c, k);
    forall claim | claim in ClaimsOf(w.c, k) ensures InOneHand(w, k, claim) { ClaimInOneHand(w, k, claim); }
  }

  /** Claims are conserved in every run in which no removal by key meets an entry in use: a request count is the
      number of live claims, a claimed entry is resident, and each live claim is in one operation's hands. */
  lemma EveryIdlePopRun(cfg: Config, s: Surroundings, events: seq<Event>, k: ModelKey)
    requires s.idlePops && s.external.None? && IsRun(START, cfg, s, events)
    ensures Conserved(After(START, cfg, s, events), k)
  {
    StartIsGood(cfg, s);
    AlwaysGood(START, cfg, s, events);
    ClaimedConserves(After(START, cfg, s, events), k);
  }

  /** Clean runs conserve claims, and no claimed entry has been committed to unload. */
  lemma EveryCleanRun(cfg: Config, s: Surroundings, events: seq<Event>, k: ModelKey)
    requires s.clean && s.external.None? && IsRun(START, cfg, s, events)
    ensures var w := After(START, cfg, s, events);
      Conserved(w, k) && (ClaimsOf(w.c, k) != {} ==> w.c.residents[k].phase in {Resident, Draining})
  {
    StartIsGood(cfg, s);
    AlwaysGood(START, cfg, s, events);
    var w := After(START, cfg, s, events);
    ClaimedConserves(w, k);
    assert UnusableIdle(w.c, k);
  }

  /** After any run at all in which claims are still conserved, the next step conserves them if and only if it
      does not remove, by key, an entry in use. */
  lemma ConservationEndsExactly(cfg: Config, s: Surroundings, events: seq<Event>, e: Event)
    requires s.external.None? && IsRun(START, cfg, s, events)
    requires var w := After(START, cfg, s, events); Claimed(w) && Enabled(w, e)
    ensures var w := After(START, cfg, s, events); Claimed(Step(w, cfg, e)) <==> !PopsBusy(w, e)
  {
    StartIsGood(cfg, s);
    AlwaysGood(START, cfg, s, events);
    ClaimedExactly(After(START, cfg, s, events), cfg, e);
  }

  /** The coordinator's own self-check finds nothing, in any clean run whose measurements stay within
      estimates. */
  lemma SelfCheckNeverFails(cfg: Config, s: Surroundings, events: seq<Event>)
    requires s.clean && s.modest && s.external.None? && IsRun(START, cfg, s, events)
    ensures SelfCheck(After(START, cfg, s, events).c, cfg)
  {
    StartIsGood(cfg, s);
    AlwaysGood(START, cfg, s, events);
    var w := After(START, cfg, s, events);
    IntentAndReservationApart(w);
    NoOrphans(w);
    CountsAreClaims(w);
  }

  lemma CountsAreClaims(w: World)
    requires Claimed(w)
    ensures forall k :: k in w.c.residents ==> w.c.residents[k].active == |ClaimsOf(w.c, k)|
  {
    forall k | k in w.c.residents ensures w.c.residents[k].active == |ClaimsOf(w.c, k)| { assert KeyClaims(w.c, k); }
  }

  lemma NoOrphans(w: World)
    requires Joined(w)
    ensures forall op :: !Orphaned(w.c, op)
  {
    forall op ensures !Orphaned(w.c, op) {
      if op in w.c.live { assert JoinerOk(w, w.c.live[op]); }
    }
  }

  lemma IntentAndReservationApart(w: World)
    requires Owned(w) && Intended(w)
    ensures w.c.intent.Keys !! w.c.reservations.Keys
  {
    forall o | o in w.c.intent ensures o !in w.c.reservations {
      assert IntentOk(w, o) && OwnsReservation(w.c.reservations, w.pcs, o);
    }
  }

  /** Arbitrary measurements at commit: what is resident fits the budget. */
  lemma ResidentsAlwaysFit(cfg: Config, s: Surroundings, events: seq<Event>)
    requires s.noOvershoot && s.external.None? && IsRun(START, cfg, s, events)
    ensures ResidentBytes(After(START, cfg, s, events).c) <= cfg.Capacity()
  {
    StartIsGood(cfg, s);
    AlwaysGood(START, cfg, s, events);
  }

  /** Measurements within estimates: everything promised fits the budget. */
  lemma PromisesAlwaysFit(cfg: Config, s: Surroundings, events: seq<Event>)
    requires s.modest && s.external.None? && IsRun(START, cfg, s, events)
    ensures Accounted(After(START, cfg, s, events).c) <= cfg.Capacity()
  {
    StartIsGood(cfg, s);
    AlwaysGood(START, cfg, s, events);
  }

  /** Whatever was measured before, a commit that goes through leaves everything promised within budget. */
  lemma CommitRestoresBudget(cfg: Config, s: Surroundings, events: seq<Event>, w: World, op: OpId, k: ModelKey, size: nat, deferred: bool)
    requires s.noOvershoot && s.external.None? && IsRun(START, cfg, s, events) && w == After(START, cfg, s, events)
    requires op in w.pcs && w.pcs[op] == Loaded(k, size, deferred)
    ensures var v := OnRecheck(w, cfg, op, k, size, deferred); HasCommitted(v, op) ==> Accounted(v.c) <= cfg.Capacity()
  {
    StartIsGood(cfg, s);
    AlwaysGood(START, cfg, s, events);
    assert Owned(w);
    hide Owned;
    RecheckBytes(w, cfg, op, k, size, deferred);
  }

  /** What admitted loads may still allocate is always free on the device, headroom left over. */
  lemma DeviceNeverOvercommitted(cfg: Config, s: Surroundings, events: seq<Event>)
    requires s.clean && s.external.Some? && s.external.value <= cfg.total && IsRun(START, cfg, s, events)
    ensures var w := After(START, cfg, s, events);
      && 0 <= Pending(w) <= LiveFree(w, cfg, s.external.value)
      && (w.growing.Keys != {} ==> Pending(w) + cfg.headroom <= LiveFree(w, cfg, s.external.value))
  {
    StartIsGood(cfg, s);
    AlwaysGood(START, cfg, s, events);
    NoOvercommit(After(START, cfg, s, events), cfg, s.external.value);
  }

  // While a job holds the device

  /** A second job changes nothing of the first's. */
  lemma SecondJobChangesNothing(w: World, op: OpId)
    requires op !in w.pcs && Barred(w.c)
    ensures JobStep(w, op, Begin).c == w.c && JobStep(w, op, Begin).pcs[op].Done?
  {
  }

  /** What no section but one takes back: the generation of a key and, the end of the job aside, the
      exclusive slot. */
  ghost predicate Advances(c: Coord, d: Coord) {
    && (forall k :: Gen(d, k) >= Gen(c, k))
    && (c.exclusive.Some? ==> d.exclusive.Some?)
  }

  lemma AdmitAdvances(w: World, cfg: Config, op: OpId, a: AdmitEvent)
    requires AdmitEnabled(w, op, a)
    ensures Advances(w.c, AdmitStep(w, cfg, op, a).c)
  {
    if a.Stage1? {
      var req := w.pcs[op].req;
      PlanAdvances(w, op, req, Decide(w.c, cfg, req.key, req.est, a.free, a.owner, a.victims));
    }
  }

  lemma PlanAdvances(w: World, op: OpId, req: Request, plan: Plan)
    requires plan.Share? ==> req.key in w.c.residents
    requires plan.Join? ==> plan.owner in w.c.reservations
    ensures Advances(w.c, OnStage1(w, op, req, plan).c)
    ensures OnStage1(w, op, req, plan).c.generation == w.c.generation
    ensures !plan.LoadIt? ==> OnStage1(w, op, req, plan).born == w.born
  {
  }

  lemma LoadAdvances(w: World, cfg: Config, op: OpId, l: LoadEvent)
    requires LoadEnabled(w, op, l)
    ensures Advances(w.c, LoadStep(w, cfg, op, l).c) && LoadStep(w, cfg, op, l).born == w.born
  {
    if l.Commit? { RecheckAdvances(w, cfg, op, w.pcs[op].key, w.pcs[op].size, w.pcs[op].deferred); }
  }

  lemma UndoAdvances(w: World, op: OpId, k: ModelKey, verdict: Disposition)
    requires op in w.c.reservations
    ensures var v := OnUndo(w, op, k, verdict); Advances(w.c, v.c) && v.born == w.born
  {
  }

  lemma CommitAdvances(w: World, op: OpId, k: ModelKey, size: nat, deferred: bool)
    requires op in w.c.reservations && k in w.c.residents
    ensures var v := OnCommit(w, op, k, size, deferred); Advances(w.c, v.c) && v.born == w.born
  {
    CommitLeavesRest(w.c, op, k, size, deferred);
  }

  lemma RecheckAdvances(w: World, cfg: Config, op: OpId, k: ModelKey, size: nat, deferred: bool)
    ensures var v := OnRecheck(w, cfg, op, k, size, deferred); Advances(w.c, v.c) && v.born == w.born
  {
    if op in w.c.reservations {
      UndoAdvances(w, op, k, Objection(w.c, cfg, op, k, size));
      if k in w.c.residents { CommitAdvances(w, op, k, size, deferred); }
    }
  }

  lemma EvictAdvances(w: World, op: OpId, e: EvictEvent)
    requires EvictEnabled(w, op, e)
    ensures Advances(w.c, EvictStep(w, op, e).c) && EvictStep(w, op, e).born == w.born
  {
  }

  lemma JobAdvances(w: World, op: OpId, j: JobEvent)
    ensures Advances(w.c, JobStep(w, op, j).c) && JobStep(w, op, j).born == w.born
  {
  }

  lemma OutsideAdvances(w: World, x: OutsideEvent)
    requires Enabled(w, Outside(x))
    ensures !x.EndOfJob? ==> Advances(w.c, OutsideStep(w, x).c)
    ensures forall k :: Gen(OutsideStep(w, x).c, k) >= Gen(w.c, k)
    ensures OutsideStep(w, x).born == w.born
  {
  }

  lemma StaysExclusive(w: World, cfg: Config, e: Event)
    requires Enabled(w, e) && w.c.exclusive.Some? && !(e.Outside? && e.x.EndOfJob?)
    ensures Step(w, cfg, e).c.exclusive.Some?
  {
    match e
    case Admit(op, a) => AdmitAdvances(w, cfg, op, a);
    case Load(op, l) => LoadAdvances(w, cfg, op, l);
    case Evict(op, v) => EvictAdvances(w, op, v);
    case Job(op, j) => JobAdvances(w, op, j);
    case Outside(x) => OutsideAdvances(w, x);
  }

  /** No section can add a resident or a reservation, not even the one that ends the job. */
  lemma NothingAddedWhileExclusive(w: World, cfg: Config, e: Event)
    requires Owned(w) && Enabled(w, e) && w.c.exclusive.Some?
    ensures Step(w, cfg, e).c.residents == map[] && Step(w, cfg, e).c.reservations == map[]
  {
    assert Exclusivity(w);
    if !(e.Outside? && e.x.EndOfJob?) {
      hide Step;
      StaysExclusive(w, cfg, e);
      OwnedKept(w, cfg, e);
      assert Exclusivity(Step(w, cfg, e));
    }
  }

  // Why the drain converges

  /** Nothing is admitted and no entry gains a request. */
  ghost predicate OnlyDrains(c: Coord, d: Coord) {
    && d.reservations.Keys <= c.reservations.Keys
    && forall k :: k in d.residents ==> k in c.residents && d.residents[k].active <= c.residents[k].active
  }

  lemma AdmitOnlyDrains(w: World, cfg: Config, op: OpId, a: AdmitEvent)
    requires Barred(w.c) && AdmitEnabled(w, op, a)
    ensures OnlyDrains(w.c, AdmitStep(w, cfg, op, a).c)
  {
  }

  lemma UndoOnlyDrains(w: World, op: OpId, k: ModelKey, verdict: Disposition)
    requires op in w.c.reservations
    ensures OnlyDrains(w.c, OnUndo(w, op, k, verdict).c)
  {
  }

  lemma LoadOnlyDrains(w: World, cfg: Config, op: OpId, l: LoadEvent)
    requires Barred(w.c) && LoadEnabled(w, op, l)
    ensures OnlyDrains(w.c, LoadStep(w, cfg, op, l).c)
  {
    if l.Commit? {
      if op in w.c.reservations { UndoOnlyDrains(w, op, w.pcs[op].key, Refused(GpuBusy)); }
    }
  }

  lemma EvictOnlyDrains(w: World, op: OpId, e: EvictEvent)
    requires EvictEnabled(w, op, e)
    ensures OnlyDrains(w.c, EvictStep(w, op, e).c)
  {
  }

  lemma JobOnlyDrains(w: World, op: OpId, j: JobEvent)
    ensures OnlyDrains(w.c, JobStep(w, op, j).c)
  {
    hide OnlyDrains, BeginJob, FinishJob;
    match j
    case Begin => BeginOnlyDrains(w.c);
    case Collect(_) => SameOnlyDrains(w.c);
    case Finish(job, drained) => FinishOnlyDrains(w.c, job, drained);
  }

  lemma SameOnlyDrains(c: Coord)
    ensures OnlyDrains(c, c)
  {
  }

  lemma BeginOnlyDrains(c: Coord)
    ensures OnlyDrains(c, BeginJob(c))
  {
  }

  lemma FinishOnlyDrains(c: Coord, job: JobId, drained: bool)
    ensures OnlyDrains(c, FinishJob(c, job, drained))
  {
  }

  lemma OutsideOnlyDrains(w: World, x: OutsideEvent)
    requires Enabled(w, Outside(x))
    ensures OnlyDrains(w.c, OutsideStep(w, x).c)
  {
  }

  /** Under a barrier every request count and the serving set itself only shrink, whoever moves; a second job is
      turned away. */
  lemma BarrierOnlyDrains(w: World, cfg: Config, e: Event)
    requires Enabled(w, e) && Barred(w.c)
    ensures OnlyDrains(w.c, Step(w, cfg, e).c)
    ensures e.Job? && e.j.Begin? ==> Step(w, cfg, e).c == w.c && Step(w, cfg, e) == At(w, e.op, Done)
  {
    if e.Job? && e.j.Begin? { SecondJobChangesNothing(w, e.op); }
    match e
    case Admit(op, a) => AdmitOnlyDrains(w, cfg, op, a);
    case Load(op, l) => LoadOnlyDrains(w, cfg, op, l);
    case Evict(op, v) => EvictOnlyDrains(w, op, v);
    case Job(op, j) => JobOnlyDrains(w, op, j);
    case Outside(x) => OutsideOnlyDrains(w, x);
  }

  // (key, generation) names one entry ever

  datatype Name = Name(key: ModelKey, generation: nat)

  /** The entry a step creates. */
  ghost function Created(w: World, cfg: Config, e: Event): Option<Name>
    requires Enabled(w, e)
  {
    if e.Admit? && e.a.Stage1?
       && Decide(w.c, cfg, w.pcs[e.op].req.key, w.pcs[e.op].req.est, e.a.free, e.a.owner, e.a.victims).LoadIt?
    then Some(Name(w.pcs[e.op].req.key, Gen(w.c, w.pcs[e.op].req.key)))
    else None
  }

  ghost function AllCreated(w: World, cfg: Config, s: Surroundings, events: seq<Event>): seq<Name>
    requires IsRun(w, cfg, s, events)
    decreases |events|
  {
    if events == [] then []
    else
      var later := AllCreated(Step(w, cfg, events[0]), cfg, s, events[1..]);
      match Created(w, cfg, events[0])
      case Some(name) => [name] + later
      case None => later
  }

  lemma GenerationsRise(w: World, cfg: Config, e: Event, k: ModelKey)
    requires Enabled(w, e)
    ensures Gen(Step(w, cfg, e).c, k) >= Gen(w.c, k)
  {
    match e
    case Admit(op, a) => AdmitAdvances(w, cfg, op, a);
    case Load(op, l) => LoadAdvances(w, cfg, op, l);
    case Evict(op, v) => EvictAdvances(w, op, v);
    case Job(op, j) => JobAdvances(w, op, j);
    case Outside(x) => OutsideAdvances(w, x);
  }

  lemma OnlyCreationBears(w: World, cfg: Config, e: Event)
    requires Enabled(w, e)
    ensures var v := Step(w, cfg, e);
      match Created(w, cfg, e)
      case None => v.born == w.born
      case Some(n) =>
        && n.key !in w.c.residents && n.key in v.c.residents && n.generation == Gen(w.c, n.key)
        && v.c.generation == w.c.generation
        && forall k :: k in w.c.residents ==> k in v.c.residents
  {
    match e
    case Admit(op, a) =>
      if a.Stage1? {
        var req := w.pcs[op].req;
        PlanAdvances(w, op, req, Decide(w.c, cfg, req.key, req.est, a.free, a.owner, a.victims));
      }
    case Load(op, l) => LoadAdvances(w, cfg, op, l);
    case Evict(op, v) => EvictAdvances(w, op, v);
    case Job(op, j) => JobAdvances(w, op, j);
    case Outside(x) => OutsideAdvances(w, x);
  }

  /** Whatever is created later under `k` carries a later generation than the entry standing now. */
  lemma {:induction false} CreatedLater(w: World, cfg: Config, s: Surroundings, events: seq<Event>, n: Name)
    requires Owned(w) && IsRun(w, cfg, s, events) && n in AllCreated(w, cfg, s, events)
    ensures n.generation >= Gen(w.c, n.key)
    ensures n.key in w.c.residents ==> n.generation > Gen(w.c, n.key)
    decreases |events|
  {
    var e := events[0];
    var v := Step(w, cfg, e);
    OwnedKept(w, cfg, e);
    GenerationsRise(w, cfg, e, n.key);
    OnlyCreationBears(w, cfg, e);
    assert BirthOk(w.c, w.born, n.key) && BirthOk(v.c, v.born, n.key);
    if Created(w, cfg, e) != Some(n) { CreatedLater(v, cfg, s, events[1..], n); }
  }

  /** No two entries of a run share a key and a generation. */
  lemma {:induction false} NamesAreUnique(w: World, cfg: Config, s: Surroundings, events: seq<Event>)
    requires Owned(w) && IsRun(w, cfg, s, events)
    ensures Distinct(AllCreated(w, cfg, s, events))
    decreases |events|
  {
    if events != [] {
      var e := events[0];
      var v := Step(w, cfg, e);
      OwnedKept(w, cfg, e);
      OnlyCreationBears(w, cfg, e);
      NamesAreUnique(v, cfg, s, events[1..]);
      var later := AllCreated(v, cfg, s, events[1..]);
      forall n | n in later ensures Created(w, cfg, e) != Some(n) { CreatedLater(v, cfg, s, events[1..], n); }
    }
  }

  predicate Touched(w: World, v: World, k: ModelKey) {
    k in w.c.residents && (k !in v.c.residents || v.c.residents[k] != w.c.residents[k])
  }

  /** A load that fails deletes no entry but the one its own stage 1 created. */
  lemma FailureTouchesOwnEntry(w: World, op: OpId, childLeft: bool, k: ModelKey)
    requires Owned(w) && LoadEnabled(w, op, Raised(childLeft))
    requires Touched(w, OnRaised(w, op, w.pcs[op].req.key, childLeft), k)
    ensures Creator(w, k) == Some(op)
  {
    assert OwnsReservation(w.c.reservations, w.pcs, op);
    assert LoadsOwnEntry(w.c.reservations, w.born, op) && BirthOk(w.c, w.born, k);
  }

  /** And a load that commits makes no other entry resident. */
  lemma CommitTouchesOwnEntry(w: World, cfg: Config, op: OpId, k: ModelKey)
    requires Owned(w) && LoadEnabled(w, op, Commit)
    requires OnRecheck(w, cfg, op, w.pcs[op].key, w.pcs[op].size, w.pcs[op].deferred).pcs[op].Committed?
    requires Touched(w, OnRecheck(w, cfg, op, w.pcs[op].key, w.pcs[op].size, w.pcs[op].deferred), k)
    ensures Creator(w, k) == Some(op)
  {
    ReservationNeverLost(w, op);
    if k != w.pcs[op].key { CommitTouchesOneKey(w, op, w.pcs[op].key, w.pcs[op].size, w.pcs[op].deferred, k); }
  }

  lemma CommitTouchesOneKey(w: World, op: OpId, k: ModelKey, size: nat, deferred: bool, l: ModelKey)
    requires op in w.c.reservations && k in w.c.residents && l in w.c.residents && l != k
    ensures l in OnCommit(w, op, k, size, deferred).c.residents
    ensures OnCommit(w, op, k, size, deferred).c.residents[l] == w.c.residents[l]
  {
  }

  // A closing that comes late

  /** A closing that meets a load of its key removes the new load's entry, and the load finds itself
      displaced at its re-check instead of committing over it. */
  lemma LateClosingDisplacesLoad(w: World, cfg: Config, late: OpId, loader: OpId, size: nat)
    requires Owned(w) && late in w.pcs && w.pcs[late].Unloaded?
    requires LoadInFlight(w.c, loader, w.pcs[late].key)
    ensures var k := w.pcs[late].key; var v := EvictStep(w, late, Remove);
      && k !in v.c.residents && loader in v.c.reservations
      && (!Barred(v.c) ==> Objection(v.c, cfg, loader, k, size) == Retry)
  {
    assert LoadsOwnEntry(w.c.reservations, w.born, loader) && BirthOk(w.c, w.born, w.pcs[late].key);
  }
}
