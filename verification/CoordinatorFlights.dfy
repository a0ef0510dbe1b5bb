/** Loads in flight, with nothing assumed of the surroundings: the entry a load made stays unused until that
    load ends it, and which steps disturb a load. */
module CoordinatorFlights {
  import opened Common
  import opened CoordinatorState
  import opened CoordinatorWorld
  import opened CoordinatorOwnership
  import opened CoordinatorPhases

  /** Nobody can be granted this entry and nobody uses it. */
  predicate IdleUnusable(c: Coord, k: ModelKey) {
    k in c.residents && Unusable(c.residents[k].phase) && c.residents[k].active == 0
  }

  /** The entry the load of `o` made, while it stands. */
  predicate FlightIdle(c: Coord, o: OpId) {
    o in c.reservations ==>
      var r := c.reservations[o];
      r.key in c.residents && Gen(c, r.key) == r.generation ==> IdleUnusable(c, r.key)
  }

  ghost predicate InFlightIdle(w: World) { forall o :: FlightIdle(w.c, o) }

  // Shapes

  /** No entry is created, and an idle entry that cannot be used stays one. */
  ghost predicate IdleStays(c: Coord, d: Coord) {
    forall k :: k in d.residents ==>
      k in c.residents && Gen(d, k) == Gen(c, k) && (IdleUnusable(c, k) ==> IdleUnusable(d, k))
  }

  ghost predicate OnlyDropped(r: map<OpId, Reservation>, s: map<OpId, Reservation>) {
    forall o :: o in s ==> SameLoad(r, s, o)
  }

  lemma FlightsStill(c: Coord, d: Coord)
    requires (forall o :: FlightIdle(c, o)) && IdleStays(c, d) && OnlyDropped(c.reservations, d.reservations)
    ensures forall o :: FlightIdle(d, o)
  {
    forall o ensures FlightIdle(d, o) { assert FlightIdle(c, o); }
  }

  lemma ReserveKeepsFlights(c: Coord, op: OpId, k: ModelKey, est: nat)
    requires (forall o :: FlightIdle(c, o)) && k !in c.residents
    ensures forall o :: FlightIdle(Reserve(c, op, k, est), o)
  {
    var d := Reserve(c, op, k, est);
    forall o ensures FlightIdle(d, o) {
      assert FlightIdle(c, o);
    }
  }

  lemma CommitKeepsFlights(w: World, op: OpId, k: ModelKey, size: nat, deferred: bool)
    requires Owned(w) && InFlightIdle(w) && op in w.c.reservations && w.c.reservations[op].key == k && k in w.c.residents
    requires Gen(w.c, k) == w.c.reservations[op].generation
    ensures forall o :: FlightIdle(CommitLoad(w.c, op, k, size, deferred), o)
  {
    var d := CommitLoad(w.c, op, k, size, deferred);
    forall o ensures FlightIdle(d, o) {
      assert FlightIdle(w.c, o);
      assert LoadsOwnEntry(w.c.reservations, w.born, o) && LoadsOwnEntry(w.c.reservations, w.born, op);
      assert BirthOk(w.c, w.born, k);
    }
  }

  // Every step keeps it

  lemma Stage1KeepsFlights(w: World, op: OpId, req: Request, plan: Plan)
    requires InFlightIdle(w)
    requires plan.Share? ==> req.key in w.c.residents && w.c.residents[req.key].phase == Resident
    requires plan.Join? ==> plan.owner in w.c.reservations
    requires plan.LoadIt? ==> req.key !in w.c.residents
    requires plan.Mark? ==> AreVictims(w.c, req.key, plan.victims)
    ensures InFlightIdle(OnStage1(w, op, req, plan))
  {
    var v := OnStage1(w, op, req, plan);
    if plan.LoadIt? {
      ReserveKeepsFlights(w.c, op, req.key, req.est);
    } else {
      if plan.Mark? {
        forall k | k in plan.victims ensures k in w.c.residents && w.c.residents[k].phase == Resident {
          assert Evictable(w.c, req.key, k);
        }
      }
      FlightsStill(w.c, v.c);
    }
  }

  lemma AdmitKeepsFlights(w: World, cfg: Config, op: OpId, a: AdmitEvent)
    requires InFlightIdle(w) && AdmitEnabled(w, op, a)
    ensures InFlightIdle(AdmitStep(w, cfg, op, a))
  {
    match a
    case Stage1(free, owner, victims) =>
      var req := w.pcs[op].req;
      Stage1KeepsFlights(w, op, req, Decide(w.c, cfg, req.key, req.est, free, owner, victims));
    case _ => FlightsStill(w.c, AdmitStep(w, cfg, op, a).c);
  }

  lemma RecheckKeepsFlights(w: World, cfg: Config, op: OpId, k: ModelKey, size: nat, deferred: bool)
    requires Owned(w) && InFlightIdle(w) && op in w.pcs && w.pcs[op] == Loaded(k, size, deferred)
    ensures InFlightIdle(OnRecheck(w, cfg, op, k, size, deferred))
  {
    ReservationNeverLost(w, op);
    assert OwnsReservation(w.c.reservations, w.pcs, op);
    var objection := Objection(w.c, cfg, op, k, size);
    if objection == Unset && k in w.c.residents {
      CommitKeepsFlights(w, op, k, size, deferred);
    } else {
      FlightsStill(w.c, RollbackIntent(w.c, op, k));
    }
  }

  lemma LoadKeepsFlights(w: World, cfg: Config, op: OpId, l: LoadEvent)
    requires Owned(w) && InFlightIdle(w) && LoadEnabled(w, op, l)
    ensures InFlightIdle(LoadStep(w, cfg, op, l))
  {
    if l.Commit? {
      RecheckKeepsFlights(w, cfg, op, w.pcs[op].key, w.pcs[op].size, w.pcs[op].deferred);
    } else {
      LoadStepLeavesIdle(w, cfg, op, l);
      hide IdleStays, OnlyDropped;
      FlightsStill(w.c, LoadStep(w, cfg, op, l).c);
    }
  }

  lemma LoadStepLeavesIdle(w: World, cfg: Config, op: OpId, l: LoadEvent)
    requires LoadEnabled(w, op, l) && !l.Commit?
    ensures IdleStays(w.c, LoadStep(w, cfg, op, l).c) && OnlyDropped(w.c.reservations, LoadStep(w, cfg, op, l).c.reservations)
  {
    match l
    case Measured(bytes) => MeasuredLeavesIdle(w.c, op, bytes);
    case Raised(_) => FailureLeavesIdle(w.c, op, w.pcs[op].req.key);
    case UndoFinalize => FinalizeLeavesIdle(w.c, w.pcs[op].key);
    case _ => OthersLeaveIdle(w, cfg, op, l);
  }

  lemma MeasuredLeavesIdle(c: Coord, op: OpId, bytes: nat)
    ensures var d := Materialize(c, op, bytes); IdleStays(c, d) && OnlyDropped(c.reservations, d.reservations)
  {
  }

  lemma FailureLeavesIdle(c: Coord, op: OpId, k: ModelKey)
    ensures var d := FailLoad(c, op, k); IdleStays(c, d) && OnlyDropped(c.reservations, d.reservations)
  {
  }

  lemma FinalizeLeavesIdle(c: Coord, k: ModelKey)
    ensures var d := Finalize(c, k); IdleStays(c, d) && OnlyDropped(c.reservations, d.reservations)
  {
  }

  lemma OthersLeaveIdle(w: World, cfg: Config, op: OpId, l: LoadEvent)
    requires LoadEnabled(w, op, l) && !l.Commit? && !l.Measured? && !l.Raised? && !l.UndoFinalize?
    ensures IdleStays(w.c, LoadStep(w, cfg, op, l).c) && OnlyDropped(w.c.reservations, LoadStep(w, cfg, op, l).c.reservations)
  {
  }

  lemma EvictKeepsFlights(w: World, op: OpId, e: EvictEvent)
    requires InFlightIdle(w) && EvictEnabled(w, op, e)
    ensures InFlightIdle(EvictStep(w, op, e))
  {
    EvictLeavesIdle(w, op, e);
    hide IdleStays, OnlyDropped;
    FlightsStill(w.c, EvictStep(w, op, e).c);
  }

  lemma EvictLeavesIdle(w: World, op: OpId, e: EvictEvent)
    requires EvictEnabled(w, op, e)
    ensures IdleStays(w.c, EvictStep(w, op, e).c) && EvictStep(w, op, e).c.reservations == w.c.reservations
    ensures OnlyDropped(w.c.reservations, EvictStep(w, op, e).c.reservations)
  {
    match e
    case Next => BeginEvictLeavesIdle(w.c, w.pcs[op].rest[0]);
    case Poll(expired) => DrainLeavesIdle(w.c, w.pcs[op].key, expired);
    case Remove => FinalizeLeavesIdle(w.c, w.pcs[op].key);
    case _ =>
  }

  lemma BeginEvictLeavesIdle(c: Coord, k: ModelKey)
    ensures IdleStays(c, BeginEvict(c, k))
  {
  }

  lemma DrainLeavesIdle(c: Coord, k: ModelKey, expired: bool)
    ensures IdleStays(c, DrainStep(c, k, expired))
  {
  }

  lemma JobKeepsFlights(w: World, op: OpId, j: JobEvent)
    requires InFlightIdle(w)
    ensures InFlightIdle(JobStep(w, op, j))
  {
    FlightsStill(w.c, JobStep(w, op, j).c);
  }

  lemma OutsideKeepsFlights(w: World, x: OutsideEvent)
    requires InFlightIdle(w) && Enabled(w, Outside(x))
    ensures InFlightIdle(OutsideStep(w, x))
  {
    FlightsStill(w.c, OutsideStep(w, x).c);
  }

  /** Whoever moves, and however late: an entry still standing under its load's generation has no request on it
      and can be given to nobody. */
  lemma InFlightIdleKept(w: World, cfg: Config, e: Event)
    requires Owned(w) && InFlightIdle(w) && Enabled(w, e)
    ensures InFlightIdle(Step(w, cfg, e))
  {
    match e
    case Admit(op, a) => AdmitKeepsFlights(w, cfg, op, a);
    case Load(op, l) => LoadKeepsFlights(w, cfg, op, l);
    case Evict(op, v) => EvictKeepsFlights(w, op, v);
    case Job(op, j) => JobKeepsFlights(w, op, j);
    case Outside(x) => OutsideKeepsFlights(w, x);
  }

  // Which steps disturb a load

  ghost predicate LoadsUndisturbed(w: World) { forall o :: Undisturbed(w.c, o) }

  ghost predicate SomebodyLoads(c: Coord, k: ModelKey) { exists o :: LoadInFlight(c, o, k) }

  /** The step removes an entry by key, or a drain poll takes one out of its phase, while a load of that key is
      in flight. */
  ghost predicate Disturbs(w: World, e: Event)
    requires Enabled(w, e)
  {
    match e
    case Load(op, l) => l.UndoFinalize? && SomebodyLoads(w.c, w.pcs[op].key)
    case Evict(op, v) =>
      && (v.Remove? || (v.Poll? && DrainCheck(w.c, w.pcs[op].key, v.expired) == Drained))
      && SomebodyLoads(w.c, w.pcs[op].key)
    case Outside(x) => x.Forgotten? && SomebodyLoads(w.c, x.key)
    case _ => false
  }

  /** Undisturbed loads are of different keys. */
  lemma OneLoadPerKey(w: World, o: OpId, p: OpId)
    requires Incarnations(w) && LoadsUndisturbed(w)
    requires o in w.c.reservations && p in w.c.reservations && w.c.reservations[o].key == w.c.reservations[p].key
    ensures o == p
  {
    assert Undisturbed(w.c, o) && Undisturbed(w.c, p);
    assert LoadsOwnEntry(w.c.reservations, w.born, o) && LoadsOwnEntry(w.c.reservations, w.born, p);
    assert BirthOk(w.c, w.born, w.c.reservations[o].key);
  }

  /** The loading entry under `k` stands as it did. */
  predicate LoadingStays(c: Coord, d: Coord, k: ModelKey) {
    k in c.residents && c.residents[k].phase == Loading ==>
      k in d.residents && d.residents[k].phase == Loading && Gen(d, k) == Gen(c, k)
  }

  lemma LoadsStill(w: World, v: World)
    requires LoadsUndisturbed(w) && OnlyDropped(w.c.reservations, v.c.reservations)
    requires forall o :: o in v.c.reservations ==> LoadingStays(w.c, v.c, v.c.reservations[o].key)
    ensures LoadsUndisturbed(v)
  {
    forall o ensures Undisturbed(v.c, o) { assert Undisturbed(w.c, o); }
  }

  /** Admitting a key disturbs nobody, whether or not somebody is still closing that key. */
  lemma AdmissionDisturbsNobody(w: World, op: OpId, req: Request)
    requires LoadsUndisturbed(w) && req.key !in w.c.residents
    ensures LoadsUndisturbed(OnReserve(w, op, req))
  {
    var v := OnReserve(w, op, req);
    forall o ensures Undisturbed(v.c, o) { assert Undisturbed(w.c, o); }
  }

  lemma AdmitDisturbsNobody(w: World, cfg: Config, op: OpId, a: AdmitEvent)
    requires LoadsUndisturbed(w) && AdmitEnabled(w, op, a)
    ensures LoadsUndisturbed(AdmitStep(w, cfg, op, a))
  {
    match a
    case Stage1(free, owner, victims) =>
      var req := w.pcs[op].req;
      PlanDisturbsNobody(w, op, req, Decide(w.c, cfg, req.key, req.est, free, owner, victims));
    case _ => LoadsStill(w, AdmitStep(w, cfg, op, a));
  }

  lemma PlanDisturbsNobody(w: World, op: OpId, req: Request, plan: Plan)
    requires LoadsUndisturbed(w)
    requires plan.Share? ==> req.key in w.c.residents && w.c.residents[req.key].phase == Resident
    requires plan.Join? ==> plan.owner in w.c.reservations
    requires plan.LoadIt? ==> req.key !in w.c.residents
    requires plan.Mark? ==> AreVictims(w.c, req.key, plan.victims)
    ensures LoadsUndisturbed(OnStage1(w, op, req, plan))
  {
    if plan.LoadIt? {
      AdmissionDisturbsNobody(w, op, req);
    } else {
      if plan.Mark? {
        forall k | k in plan.victims ensures w.c.residents[k].phase == Resident { assert Evictable(w.c, req.key, k); }
      }
      LoadsStill(w, OnStage1(w, op, req, plan));
    }
  }

  lemma EndedLoadDisturbsNobody(w: World, v: World, op: OpId, k: ModelKey)
    requires Incarnations(w) && LoadsUndisturbed(w) && op in w.c.reservations && w.c.reservations[op].key == k
    requires v.c.reservations == w.c.reservations - {op}
    requires forall l :: l != k ==> LoadingStays(w.c, v.c, l)
    ensures LoadsUndisturbed(v)
  {
    forall o | o in v.c.reservations ensures LoadingStays(w.c, v.c, v.c.reservations[o].key) {
      if v.c.reservations[o].key == k { OneLoadPerKey(w, o, op); }
    }
    LoadsStill(w, v);
  }

  lemma RecheckDisturbsNobody(w: World, cfg: Config, op: OpId, k: ModelKey, size: nat, deferred: bool)
    requires Owned(w) && LoadsUndisturbed(w) && op in w.pcs && w.pcs[op] == Loaded(k, size, deferred)
    ensures LoadsUndisturbed(OnRecheck(w, cfg, op, k, size, deferred))
  {
    ReservationNeverLost(w, op);
    assert OwnsReservation(w.c.reservations, w.pcs, op) && Incarnations(w);
    hide LoadsUndisturbed, Owned, Incarnations, OwnsReservation, Objection;
    if k in w.c.residents { CommitDisturbsNobody(w, op, k, size, deferred); }
    UndoDisturbsNobody(w, op, k, Objection(w.c, cfg, op, k, size));
  }

  lemma UndoDisturbsNobody(w: World, op: OpId, k: ModelKey, verdict: Disposition)
    requires Incarnations(w) && LoadsUndisturbed(w) && op in w.c.reservations && w.c.reservations[op].key == k
    ensures LoadsUndisturbed(OnUndo(w, op, k, verdict))
  {
    hide LoadsUndisturbed, Incarnations;
    EndedLoadDisturbsNobody(w, OnUndo(w, op, k, verdict), op, k);
  }

  lemma CommitDisturbsNobody(w: World, op: OpId, k: ModelKey, size: nat, deferred: bool)
    requires Incarnations(w) && LoadsUndisturbed(w) && op in w.c.reservations && w.c.reservations[op].key == k && k in w.c.residents
    ensures LoadsUndisturbed(OnCommit(w, op, k, size, deferred))
  {
    hide LoadsUndisturbed, Incarnations;
    var v := OnCommit(w, op, k, size, deferred);
    forall l | l != k ensures LoadingStays(w.c, v.c, l) {}
    EndedLoadDisturbsNobody(w, v, op, k);
  }

  lemma RaisedDisturbsNobody(w: World, op: OpId, req: Request, childLeft: bool)
    requires Owned(w) && LoadsUndisturbed(w) && op in w.pcs && w.pcs[op] == LoadRunning(req)
    ensures LoadsUndisturbed(OnRaised(w, op, req.key, childLeft))
  {
    assert OwnsReservation(w.c.reservations, w.pcs, op);
    EndedLoadDisturbsNobody(w, OnRaised(w, op, req.key, childLeft), op, req.key);
  }

  /** A removal by key disturbs a load exactly when that key is being loaded. */
  lemma PopDisturbsExactly(w: World, v: World, k: ModelKey)
    requires LoadsUndisturbed(w) && v.c == Finalize(w.c, k)
    ensures LoadsUndisturbed(v) <==> !SomebodyLoads(w.c, k)
  {
    if SomebodyLoads(w.c, k) {
      var o :| LoadInFlight(w.c, o, k);
      assert !Undisturbed(v.c, o);
    } else {
      forall o | o in v.c.reservations ensures LoadingStays(w.c, v.c, v.c.reservations[o].key) {
        assert !LoadInFlight(w.c, o, k);
      }
      LoadsStill(w, v);
    }
  }

  lemma PollDisturbsExactly(w: World, op: OpId, goal: Option<Request>, k: ModelKey, rest: seq<ModelKey>, expired: bool)
    requires InFlightIdle(w) && LoadsUndisturbed(w)
    ensures LoadsUndisturbed(OnDrainPoll(w, op, goal, k, rest, expired)) <==>
      !(DrainCheck(w.c, k, expired) == Drained && SomebodyLoads(w.c, k))
  {
    var v := OnDrainPoll(w, op, goal, k, rest, expired);
    if SomebodyLoads(w.c, k) {
      var o :| LoadInFlight(w.c, o, k);
      assert Undisturbed(w.c, o) && FlightIdle(w.c, o);
      assert !Undisturbed(v.c, o);
    } else {
      forall o | o in v.c.reservations ensures LoadingStays(w.c, v.c, v.c.reservations[o].key) {
        assert !LoadInFlight(w.c, o, k);
      }
      LoadsStill(w, v);
    }
  }

  lemma EvictDisturbsExactly(w: World, op: OpId, e: EvictEvent)
    requires InFlightIdle(w) && LoadsUndisturbed(w) && EvictEnabled(w, op, e)
    ensures LoadsUndisturbed(EvictStep(w, op, e)) <==> !Disturbs(w, Evict(op, e))
  {
    match e
    case Poll(expired) => PollDisturbsExactly(w, op, w.pcs[op].goal, w.pcs[op].key, w.pcs[op].rest, expired);
    case Remove => PopDisturbsExactly(w, EvictStep(w, op, e), w.pcs[op].key);
    case _ => LoadsStill(w, EvictStep(w, op, e));
  }

  lemma LoadDisturbsExactly(w: World, cfg: Config, op: OpId, l: LoadEvent)
    requires Owned(w) && LoadsUndisturbed(w) && LoadEnabled(w, op, l)
    ensures LoadsUndisturbed(LoadStep(w, cfg, op, l)) <==> !Disturbs(w, Load(op, l))
  {
    hide LoadsUndisturbed, Owned;
    match l
    case Raised(childLeft) => RaisedDisturbsNobody(w, op, w.pcs[op].req, childLeft);
    case Commit => RecheckDisturbsNobody(w, cfg, op, w.pcs[op].key, w.pcs[op].size, w.pcs[op].deferred);
    case UndoFinalize => PopDisturbsExactly(w, LoadStep(w, cfg, op, l), w.pcs[op].key);
    case _ => LoadsStill(w, LoadStep(w, cfg, op, l));
  }

  lemma JobDisturbsNobody(w: World, op: OpId, j: JobEvent)
    requires LoadsUndisturbed(w)
    ensures LoadsUndisturbed(JobStep(w, op, j))
  {
    hide LoadsUndisturbed, BeginJob, FinishJob, LoadingStays;
    match j
    case Begin => BeginLeavesLoading(w.c); LoadsStill(w, OnJobBegin(w, op));
    case Collect(pending) => LoadsSame(w, JobStep(w, op, j));
    case Finish(job, drained) => FinishLeavesLoading(w.c, job, drained); LoadsStill(w, OnJobFinish(w, op, job, drained));
  }

  lemma LoadsSame(w: World, v: World)
    requires LoadsUndisturbed(w) && v.c == w.c
    ensures LoadsUndisturbed(v)
  {
    forall o ensures Undisturbed(v.c, o) { assert Undisturbed(w.c, o); }
  }

  lemma BeginLeavesLoading(c: Coord)
    ensures forall k :: LoadingStays(c, BeginJob(c), k)
    ensures BeginJob(c).reservations == c.reservations
  {
  }

  lemma FinishLeavesLoading(c: Coord, job: JobId, drained: bool)
    ensures forall k :: LoadingStays(c, FinishJob(c, job, drained), k)
    ensures FinishJob(c, job, drained).reservations == c.reservations
  {
  }

  lemma OutsideDisturbsExactly(w: World, x: OutsideEvent)
    requires LoadsUndisturbed(w) && Enabled(w, Outside(x))
    ensures LoadsUndisturbed(OutsideStep(w, x)) <==> !Disturbs(w, Outside(x))
  {
    if x.Forgotten? && x.key in w.c.residents {
      PopDisturbsExactly(w, OutsideStep(w, x), x.key);
    } else {
      if x.Forgotten? {
        forall o ensures !LoadInFlight(w.c, o, x.key) { assert Undisturbed(w.c, o); }
      }
      LoadsStill(w, OutsideStep(w, x));
    }
  }

  /** A step of anybody leaves every load its own loading entry if and only if it does not close, by key, a key
      that is being loaded. No admission is among the steps that do. */
  lemma LoadsDisturbedExactly(w: World, cfg: Config, e: Event)
    requires Owned(w) && InFlightIdle(w) && LoadsUndisturbed(w) && Enabled(w, e)
    ensures LoadsUndisturbed(Step(w, cfg, e)) <==> !Disturbs(w, e)
  {
    hide LoadsUndisturbed, InFlightIdle, Owned;
    match e
    case Admit(op, a) => AdmitDisturbsNobody(w, cfg, op, a);
    case Load(op, l) => LoadDisturbsExactly(w, cfg, op, l);
    case Evict(op, v) => EvictDisturbsExactly(w, op, v);
    case Job(op, j) => JobDisturbsNobody(w, op, j);
    case Outside(x) => OutsideDisturbsExactly(w, x);
  }
}
