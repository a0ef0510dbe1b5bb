/** The budget bound. Resident bytes plus reservations stay within usable capacity when measurements
    do not exceed estimates; with arbitrary measurements resident bytes alone still do, and every
    commit restores the full bound. */
module CoordinatorBudget {
  import opened Common
  import opened CoordinatorState
  import opened CoordinatorWorld
  import opened CoordinatorOwnership

  /** The runtime's late report never raises an entry's bytes. */
  ghost predicate NoOvershoot(w: World, e: Event) {
    e.Outside? && e.x.ChildReported? && e.x.key in w.c.residents ==> e.x.measured <= w.c.residents[e.x.key].vram
  }

  /** Nor does a load's own measurement exceed its estimate. */
  ghost predicate Modest(w: World, e: Event)
    requires Enabled(w, e)
  {
    NoOvershoot(w, e) && (e.Load? && e.l.Measured? ==> e.l.bytes <= w.pcs[e.op].req.est)
  }

  ghost predicate ResidentsShrink(c: Coord, d: Coord) {
    forall k :: k in d.residents ==> k in c.residents && d.residents[k].vram <= c.residents[k].vram
  }

  ghost predicate ReservationsShrink(c: Coord, d: Coord) {
    forall o :: o in d.reservations ==> o in c.reservations && d.reservations[o].est <= c.reservations[o].est
  }

  lemma BytesShrink(c: Coord, d: Coord)
    requires ResidentsShrink(c, d)
    ensures ResidentBytes(d) <= ResidentBytes(c)
    ensures ReservationsShrink(c, d) ==> Accounted(d) <= Accounted(c)
  {
    SumShrinks(c.residents, d.residents, EntryBytes);
    if ReservationsShrink(c, d) { SumShrinks(c.reservations, d.reservations, ReservedBytes); }
  }

  lemma ReserveCounts(c: Coord, op: OpId, k: ModelKey, est: nat)
    requires k !in c.residents && op !in c.reservations
    ensures var d := Reserve(c, op, k, est);
      ResidentBytes(d) == ResidentBytes(c) && Accounted(d) == Accounted(c) + est
  {
    SumUpdate(c.residents, k, Entry(Loading, 0, 0, c.nextTicket, true), EntryBytes);
    SumUpdate(c.reservations, op, Reservation(k, est, Gen(c, k), false, []), ReservedBytes);
  }

  /** A commit the re-check does not object to lands within the whole bound. */
  lemma CommitFits(c: Coord, cfg: Config, op: OpId, k: ModelKey, size: nat, deferred: bool)
    requires op in c.reservations && k in c.residents && Objection(c, cfg, op, k, size) == Unset
    ensures Accounted(CommitLoad(c, op, k, size, deferred)) <= cfg.Capacity()
  {
    var d := CommitLoad(c, op, k, size, deferred);
    SumUpdate(c.residents, k, d.residents[k], EntryBytes);
  }

  // Steps only shrink what is counted, except a reservation and a commit

  lemma AdmitShrinks(w: World, cfg: Config, op: OpId, a: AdmitEvent)
    requires AdmitEnabled(w, op, a)
    requires a.Stage1? ==> !Decide(w.c, cfg, w.pcs[op].req.key, w.pcs[op].req.est, a.free, a.owner, a.victims).LoadIt?
    ensures var v := AdmitStep(w, cfg, op, a); ResidentsShrink(w.c, v.c) && ReservationsShrink(w.c, v.c)
  {
    match a
    case Stage1(free, owner, victims) =>
      var req := w.pcs[op].req;
      PlanShrinks(w, op, req, Decide(w.c, cfg, req.key, req.est, free, owner, victims));
    case WaitEnds => WaitShrinks(w, op, w.pcs[op].req, w.pcs[op].waiter);
    case _ =>
  }

  lemma PlanShrinks(w: World, op: OpId, req: Request, plan: Plan)
    requires !plan.LoadIt?
    requires plan.Share? ==> req.key in w.c.residents
    requires plan.Join? ==> plan.owner in w.c.reservations
    ensures var v := OnStage1(w, op, req, plan); ResidentsShrink(w.c, v.c) && ReservationsShrink(w.c, v.c)
  {
  }

  lemma WaitShrinks(w: World, op: OpId, req: Request, j: nat)
    ensures var v := OnWaitEnds(w, op, req, j); ResidentsShrink(w.c, v.c) && ReservationsShrink(w.c, v.c)
  {
    if j in w.c.waiters {
      var d := EndWait(w.c, op, j);
      forall o | o in d.reservations ensures o in w.c.reservations && d.reservations[o].est == w.c.reservations[o].est {
        assert d.reservations[o].(waiters := []) == w.c.reservations[o].(waiters := []);
      }
    }
  }

  lemma LoadShrinks(w: World, cfg: Config, op: OpId, l: LoadEvent)
    requires Owned(w) && LoadEnabled(w, op, l) && !l.Commit?
    ensures var v := LoadStep(w, cfg, op, l); ResidentsShrink(w.c, v.c)
    ensures !(l.Measured? && l.bytes > w.pcs[op].req.est) ==> ReservationsShrink(w.c, LoadStep(w, cfg, op, l).c)
  {
    assert OwnsReservation(w.c.reservations, w.pcs, op);
  }

  lemma UndoShrinks(w: World, op: OpId, k: ModelKey, verdict: Disposition)
    requires op in w.c.reservations
    ensures var v := OnUndo(w, op, k, verdict); ResidentsShrink(w.c, v.c) && ReservationsShrink(w.c, v.c)
  {
  }

  lemma EvictShrinks(w: World, op: OpId, e: EvictEvent)
    requires EvictEnabled(w, op, e)
    ensures var v := EvictStep(w, op, e); ResidentsShrink(w.c, v.c) && ReservationsShrink(w.c, v.c)
  {
  }

  lemma JobShrinks(w: World, op: OpId, j: JobEvent)
    ensures var v := JobStep(w, op, j); ResidentsShrink(w.c, v.c) && ReservationsShrink(w.c, v.c)
  {
  }

  lemma OutsideShrinks(w: World, x: OutsideEvent)
    requires Enabled(w, Outside(x)) && NoOvershoot(w, Outside(x))
    ensures var v := OutsideStep(w, x); ResidentsShrink(w.c, v.c) && ReservationsShrink(w.c, v.c)
  {
  }

  /** Arbitrary measurements: what is resident fits. */
  lemma BytesKept(w: World, cfg: Config, e: Event)
    requires Owned(w) && Enabled(w, e) && NoOvershoot(w, e) && ResidentBytes(w.c) <= cfg.Capacity()
    ensures ResidentBytes(Step(w, cfg, e).c) <= cfg.Capacity()
  {
    var v := Step(w, cfg, e);
    match e
    case Admit(op, a) => AdmitBytes(w, cfg, op, a);
    case Load(op, l) => LoadBytes(w, cfg, op, l);
    case Evict(op, x) => EvictShrinks(w, op, x); BytesShrink(w.c, v.c);
    case Job(op, j) => JobShrinks(w, op, j); BytesShrink(w.c, v.c);
    case Outside(x) => OutsideShrinks(w, x); BytesShrink(w.c, v.c);
  }

  lemma AdmitBytes(w: World, cfg: Config, op: OpId, a: AdmitEvent)
    requires Owned(w) && AdmitEnabled(w, op, a)
    ensures var v := AdmitStep(w, cfg, op, a);
      ResidentBytes(v.c) <= ResidentBytes(w.c) && (Accounted(w.c) <= cfg.Capacity() ==> Accounted(v.c) <= cfg.Capacity())
  {
    var v := AdmitStep(w, cfg, op, a);
    assert OwnsReservation(w.c.reservations, w.pcs, op);
    if a.Stage1? && Decide(w.c, cfg, w.pcs[op].req.key, w.pcs[op].req.est, a.free, a.owner, a.victims).LoadIt? {
      ReserveCounts(w.c, op, w.pcs[op].req.key, w.pcs[op].req.est);
    } else {
      AdmitShrinks(w, cfg, op, a);
      BytesShrink(w.c, v.c);
    }
  }

  predicate HasCommitted(w: World, op: OpId) { op in w.pcs && w.pcs[op].Committed? }

  lemma LoadBytes(w: World, cfg: Config, op: OpId, l: LoadEvent)
    requires Owned(w) && LoadEnabled(w, op, l) && ResidentBytes(w.c) <= cfg.Capacity()
    ensures ResidentBytes(LoadStep(w, cfg, op, l).c) <= cfg.Capacity()
    ensures Accounted(w.c) <= cfg.Capacity() && !(l.Measured? && l.bytes > w.pcs[op].req.est) ==>
      Accounted(LoadStep(w, cfg, op, l).c) <= cfg.Capacity()
    ensures l.Commit? && HasCommitted(LoadStep(w, cfg, op, l), op) ==> Accounted(LoadStep(w, cfg, op, l).c) <= cfg.Capacity()
  {
    var v := LoadStep(w, cfg, op, l);
    if l.Commit? {
      RecheckBytes(w, cfg, op, w.pcs[op].key, w.pcs[op].size, w.pcs[op].deferred);
    } else {
      LoadShrinks(w, cfg, op, l);
      BytesShrink(w.c, v.c);
    }
  }

  lemma RecheckBytes(w: World, cfg: Config, op: OpId, k: ModelKey, size: nat, deferred: bool)
    requires Owned(w) && op in w.pcs && w.pcs[op] == Loaded(k, size, deferred)
    ensures var v := OnRecheck(w, cfg, op, k, size, deferred);
      if HasCommitted(v, op) then Accounted(v.c) <= cfg.Capacity()
      else ResidentBytes(v.c) <= ResidentBytes(w.c) && Accounted(v.c) <= Accounted(w.c)
  {
    ReservationNeverLost(w, op);
    ObjectedExactly(w, cfg, op, k, size, deferred);
    var objection := Objection(w.c, cfg, op, k, size);
    hide Owned, Objection, OnRecheck, OnUndo, OnCommit, CommitLoad, ResidentsShrink, ReservationsShrink;
    if objection == Unset {
      CommitFits(w.c, cfg, op, k, size, deferred);
    } else {
      UndoShrinks(w, op, k, objection);
      BytesShrink(w.c, OnUndo(w, op, k, objection).c);
    }
  }

  /** Either nothing objects, and the load is committed, or it is undone. */
  lemma ObjectedExactly(w: World, cfg: Config, op: OpId, k: ModelKey, size: nat, deferred: bool)
    requires Owned(w) && op in w.pcs && w.pcs[op] == Loaded(k, size, deferred) && op in w.c.reservations
    ensures var objection := Objection(w.c, cfg, op, k, size); var v := OnRecheck(w, cfg, op, k, size, deferred);
      if objection == Unset then k in w.c.residents && v.c == CommitLoad(w.c, op, k, size, deferred) && HasCommitted(v, op)
      else v == OnUndo(w, op, k, objection) && !HasCommitted(v, op)
  {
    ReservationNeverLost(w, op);
    UnobjectedIsCurrent(w.c, cfg, op, k, size);
    hide Owned, Objection, OnCommit, OnUndo, HasCommitted;
    var objection := Objection(w.c, cfg, op, k, size);
    if objection == Unset { CommitIs(w, op, k, size, deferred); } else { UndoIs(w, op, k, objection); }
  }

  lemma UnobjectedIsCurrent(c: Coord, cfg: Config, op: OpId, k: ModelKey, size: nat)
    requires op in c.reservations
    ensures Objection(c, cfg, op, k, size) == Unset ==> Gen(c, k) == c.reservations[op].generation
  {
  }

  lemma CommitIs(w: World, op: OpId, k: ModelKey, size: nat, deferred: bool)
    requires op in w.c.reservations && k in w.c.residents
    ensures var v := OnCommit(w, op, k, size, deferred); v.c == CommitLoad(w.c, op, k, size, deferred) && HasCommitted(v, op)
  {
    hide CommitLoad, Holders;
  }

  lemma UndoIs(w: World, op: OpId, k: ModelKey, verdict: Disposition)
    requires op in w.c.reservations
    ensures !HasCommitted(OnUndo(w, op, k, verdict), op)
  {
    hide RollbackIntent, Adopt;
  }

  /** Measurements within estimates: everything promised fits. */
  lemma BudgetKept(w: World, cfg: Config, e: Event)
    requires Owned(w) && Enabled(w, e) && Modest(w, e) && Accounted(w.c) <= cfg.Capacity()
    ensures Accounted(Step(w, cfg, e).c) <= cfg.Capacity()
  {
    var v := Step(w, cfg, e);
    match e
    case Admit(op, a) => AdmitBytes(w, cfg, op, a);
    case Load(op, l) => LoadBytes(w, cfg, op, l);
    case Evict(op, x) => EvictShrinks(w, op, x); BytesShrink(w.c, v.c);
    case Job(op, j) => JobShrinks(w, op, j); BytesShrink(w.c, v.c);
    case Outside(x) => OutsideShrinks(w, x); BytesShrink(w.c, v.c);
  }
}
