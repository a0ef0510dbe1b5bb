/** Entries and the operations that close them, when no admission of a key falls between two closings
    of it and the runtime forgets only idle, loaded entries. */
module CoordinatorPhases {
  import opened Common
  import opened CoordinatorState
  import opened CoordinatorWorld
  import opened CoordinatorOwnership

  /** `pc` will still remove the entry under `k` by key. */
  predicate Finalizing(pc: Pc, k: ModelKey) {
    || Pursues(pc, k)
    || ((pc.Unloading? || pc.Unloaded? || pc.Undoing? || pc.Undone?) && pc.key == k)
  }

  ghost predicate NobodyFinalizing(w: World, k: ModelKey) {
    forall o :: o in w.pcs ==> !Finalizing(w.pcs[o], k)
  }

  /** The environment's part: closing pops go by key, so nothing may be admitted between two of them,
      and `forget` is called on entries nobody uses. */
  ghost predicate Clean(w: World, cfg: Config, e: Event)
    requires Enabled(w, e)
  {
    match e
    case Admit(op, a) =>
      a.Stage1? && Decide(w.c, cfg, w.pcs[op].req.key, w.pcs[op].req.est, a.free, a.owner, a.victims).LoadIt? ==>
        NobodyFinalizing(w, w.pcs[op].req.key)
    case Outside(x) =>
      x.Forgotten? && x.key in w.c.residents ==>
        ClaimsOf(w.c, x.key) == {} && w.c.residents[x.key].phase != Loading
    case _ => true
  }

  predicate PhaseIn(c: Coord, k: ModelKey, phases: set<Phase>) {
    k in c.residents ==> c.residents[k].phase in phases
  }

  predicate StageFits(c: Coord, pc: Pc, k: ModelKey) {
    && (Pursues(pc, k) ==> PhaseIn(c, k, {Resident, Draining, Evicting}))
    && ((pc.Unloading? || pc.Unloaded?) && pc.key == k ==> PhaseIn(c, k, {Evicting}))
    && ((pc.Undoing? || pc.Undone?) && pc.key == k ==> PhaseIn(c, k, {RollingBack}))
  }

  ghost predicate FinalizerOk(w: World, o: OpId) {
    o in w.pcs ==> forall k :: StageFits(w.c, w.pcs[o], k)
  }

  /** A load in flight is never displaced. */
  predicate Undisturbed(c: Coord, o: OpId) {
    o in c.reservations ==>
      var k := c.reservations[o].key;
      k in c.residents && c.residents[k].phase == Loading && c.reservations[o].generation == Gen(c, k)
  }

  /** A loading entry has its loader. */
  predicate LoaderThere(w: World, k: ModelKey) {
    k in w.c.residents && w.c.residents[k].phase == Loading ==>
      k in w.born && LoadInFlight(w.c, w.born[k].creator, k)
  }

  /** Phases in which an entry is given to nobody. */
  predicate Unusable(p: Phase) { p != Resident && p != Draining }

  /** An entry that is given to nobody has no request on it. */
  predicate UnusableIdle(c: Coord, k: ModelKey) {
    k in c.residents && Unusable(c.residents[k].phase) ==> c.residents[k].active == 0
  }

  ghost predicate Phased(w: World) {
    && (forall o :: FinalizerOk(w, o))
    && (forall o :: Undisturbed(w.c, o))
    && (forall k :: LoaderThere(w, k))
    && (forall k :: UnusableIdle(w.c, k))
  }

  // Shapes

  /** Phases are as before, except that some resident entries became draining or the reverse. */
  ghost predicate SamePhases(c: Coord, d: Coord) {
    && d.residents.Keys == c.residents.Keys
    && forall k :: k in c.residents ==>
         || (d.residents[k].phase == c.residents[k].phase && (Unusable(d.residents[k].phase) ==> d.residents[k].active <= c.residents[k].active))
         || (c.residents[k].phase in {Resident, Draining} && d.residents[k].phase in {Resident, Draining})
  }

  lemma PhasesStill(w: World, v: World, op: OpId)
    requires Phased(w) && Moves(w, v, op) && SamePhases(w.c, v.c)
    requires v.born == w.born && v.c.generation == w.c.generation
    requires SameLoads(w.c.reservations, v.c.reservations, op)
    requires op in v.c.reservations <==> op in w.c.reservations
    requires op in w.c.reservations ==> SameLoad(w.c.reservations, v.c.reservations, op)
    requires forall k :: StageFits(v.c, v.pcs[op], k)
    ensures Phased(v)
  {
    forall o ensures FinalizerOk(v, o) {
      assert FinalizerOk(w, o);
      if o in v.pcs && o != op {
        forall k ensures StageFits(v.c, v.pcs[o], k) { assert StageFits(w.c, w.pcs[o], k); }
      }
    }
    forall o ensures Undisturbed(v.c, o) {
      assert Undisturbed(w.c, o);
      if o in v.c.reservations && o != op { assert v.c.reservations[o].(waiters := []) == w.c.reservations[o].(waiters := []); }
    }
    forall k ensures LoaderThere(v, k) {
      assert LoaderThere(w, k);
      if k in w.born && w.born[k].creator != op && w.born[k].creator in w.c.reservations {
        var o := w.born[k].creator;
        assert v.c.reservations[o].(waiters := []) == w.c.reservations[o].(waiters := []);
      }
    }
    forall k ensures UnusableIdle(v.c, k) { assert UnusableIdle(w.c, k); }
  }

  /** Stages that close no entry. */
  predicate ClosesNothing(pc: Pc) {
    !pc.Evictions? && !pc.DrainWait? && !pc.Unloading? && !pc.Unloaded? && !pc.Undoing? && !pc.Undone?
  }

  lemma PhasesIdle(w: World, v: World, op: OpId)
    requires Phased(w) && Moves(w, v, op) && SamePhases(w.c, v.c) && ClosesNothing(v.pcs[op])
    requires v.born == w.born && v.c.generation == w.c.generation
    requires SameLoads(w.c.reservations, v.c.reservations, op)
    requires op in v.c.reservations <==> op in w.c.reservations
    requires op in w.c.reservations ==> SameLoad(w.c.reservations, v.c.reservations, op)
    ensures Phased(v)
  {
    PhasesStill(w, v, op);
  }

  lemma PhasesReserve(w: World, op: OpId, req: Request)
    requires Phased(w) && op in w.pcs && w.pcs[op] == Ready(req) && op !in w.c.reservations
    requires req.key !in w.c.residents && NobodyFinalizing(w, req.key)
    ensures Phased(OnReserve(w, op, req))
  {
    var v := OnReserve(w, op, req);
    forall o ensures FinalizerOk(v, o) {
      assert FinalizerOk(w, o);
      if o in v.pcs && o != op {
        forall k ensures StageFits(v.c, v.pcs[o], k) { assert StageFits(w.c, w.pcs[o], k); }
      }
    }
    forall o ensures Undisturbed(v.c, o) { assert Undisturbed(w.c, o); }
    forall k ensures LoaderThere(v, k) { assert LoaderThere(w, k); }
    forall k ensures UnusableIdle(v.c, k) { assert UnusableIdle(w.c, k); }
  }

  lemma OtherLoadStays(w: World, v: World, op: OpId, k: ModelKey, o: OpId)
    requires Phased(w) && Incarnations(w) && op in w.c.reservations && w.c.reservations[op].key == k
    requires v.c.reservations == w.c.reservations - {op}
    requires forall l :: l != k ==> (l in w.c.residents <==> l in v.c.residents) && Gen(v.c, l) == Gen(w.c, l)
    requires forall l :: l != k && l in w.c.residents ==> v.c.residents[l] == w.c.residents[l]
    ensures Undisturbed(v.c, o)
  {
    assert Undisturbed(w.c, o) && Undisturbed(w.c, op);
    assert LoadsOwnEntry(w.c.reservations, w.born, o) && LoadsOwnEntry(w.c.reservations, w.born, op);
    assert BirthOk(w.c, w.born, k);
  }

  /** A load ends: its entry leaves `loading` for `to`, or leaves altogether. */
  lemma PhasesEndLoad(w: World, v: World, op: OpId, k: ModelKey)
    requires Phased(w) && Moves(w, v, op) && op in w.c.reservations && w.c.reservations[op].key == k
    requires ReservationsOwned(w) && Incarnations(w)
    requires v.born == w.born && v.c.reservations == w.c.reservations - {op}
    requires forall l :: l != k ==> (l in w.c.residents <==> l in v.c.residents) && Gen(v.c, l) == Gen(w.c, l)
    requires forall l :: l != k && l in w.c.residents ==> v.c.residents[l] == w.c.residents[l]
    requires k in v.c.residents ==> v.c.residents[k].phase in {Resident, RollingBack}
    requires k in v.c.residents && v.c.residents[k].phase == RollingBack ==> k in w.c.residents && v.c.residents[k].active == w.c.residents[k].active
    requires StageFits(v.c, v.pcs[op], k) && forall l :: l != k ==> !Finalizing(v.pcs[op], l)
    ensures Phased(v)
  {
    assert Undisturbed(w.c, op);
    forall o ensures FinalizerOk(v, o) {
      assert FinalizerOk(w, o);
      if o in v.pcs {
        forall l ensures StageFits(v.c, v.pcs[o], l) {
          if o != op { assert StageFits(w.c, w.pcs[o], l); } else { assert l != k ==> !Finalizing(v.pcs[op], l); }
        }
      }
    }
    forall o ensures Undisturbed(v.c, o) { OtherLoadStays(w, v, op, k, o); }
    forall l ensures LoaderThere(v, l) { assert LoaderThere(w, l); }
    forall l ensures UnusableIdle(v.c, l) { assert UnusableIdle(w.c, l); }
  }

  /** The operation that removed an entry takes up the rest of its list, or disposes of its joiners. */
  predicate MovesOn(was: Pc, pc: Pc) {
    pc == was || pc.Disposing? || (was.Unloaded? && pc == Evictions(was.goal, was.rest))
  }

  /** An entry in phase evicting or rolling back, or none, is removed. */
  lemma PhasesRemove(w: World, v: World, k: ModelKey)
    requires Phased(w)
    requires forall o :: o in v.pcs ==> o in w.pcs && MovesOn(w.pcs[o], v.pcs[o])
    requires v.c == Finalize(w.c, k) && v.born == w.born
    requires PhaseIn(w.c, k, {Resident, Draining, Evicting, RollingBack})
    ensures Phased(v)
  {
    forall o ensures FinalizerOk(v, o) {
      if o in v.pcs {
        assert FinalizerOk(w, o);
        forall l ensures StageFits(v.c, v.pcs[o], l) { assert StageFits(w.c, w.pcs[o], l); }
      }
    }
    forall o ensures Undisturbed(v.c, o) { assert Undisturbed(w.c, o); }
    forall l ensures LoaderThere(v, l) { assert LoaderThere(w, l); }
    forall l ensures UnusableIdle(v.c, l) { assert UnusableIdle(w.c, l); }
  }

  /** A drained entry is committed to unload. */
  lemma PhasesDrained(w: World, v: World, op: OpId, k: ModelKey)
    requires Phased(w) && Moves(w, v, op) && op in w.pcs && w.pcs[op].DrainWait? && w.pcs[op].key == k
    requires k in w.c.residents && w.c.residents[k].active == 0
    requires v.c == SetPhase(w.c, k, Evicting) && v.born == w.born
    requires v.pcs[op] == Unloading(w.pcs[op].goal, k, w.pcs[op].rest)
    ensures Phased(v)
  {
    assert FinalizerOk(w, op) && StageFits(w.c, w.pcs[op], k);
    forall o ensures FinalizerOk(v, o) {
      if o in v.pcs {
        assert FinalizerOk(w, o);
        forall l ensures StageFits(v.c, v.pcs[o], l) { assert StageFits(w.c, w.pcs[o], l); }
      }
    }
    forall o ensures Undisturbed(v.c, o) { assert Undisturbed(w.c, o); }
    forall l ensures LoaderThere(v, l) { assert LoaderThere(w, l); }
    forall l ensures UnusableIdle(v.c, l) { assert UnusableIdle(w.c, l); }
  }

  // Every clean step keeps it

  lemma MarkKeepsPhased(w: World, op: OpId, req: Request, victims: seq<ModelKey>)
    requires Owned(w) && Phased(w) && op in w.pcs && w.pcs[op] == Ready(req) && AreVictims(w.c, req.key, victims)
    ensures Phased(OnMark(w, op, req, victims))
  {
    assert OwnsReservation(w.c.reservations, w.pcs, op);
    var v := OnMark(w, op, req, victims);
    forall k ensures StageFits(v.c, v.pcs[op], k) {
      if k in victims { assert Evictable(w.c, req.key, k); }
    }
    PhasesStill(w, v, op);
  }

  lemma JoinKeepsPhased(w: World, op: OpId, req: Request, owner: OpId)
    requires Owned(w) && Phased(w) && op in w.pcs && w.pcs[op] == Ready(req) && owner in w.c.reservations
    ensures Phased(OnJoin(w, op, req, owner))
  {
    assert OwnsReservation(w.c.reservations, w.pcs, op);
    PhasesIdle(w, OnJoin(w, op, req, owner), op);
  }

  lemma ShareKeepsPhased(w: World, op: OpId, req: Request)
    requires Owned(w) && Phased(w) && op in w.pcs && w.pcs[op] == Ready(req)
    requires req.key in w.c.residents && w.c.residents[req.key].phase == Resident
    ensures Phased(OnShare(w, op, req))
  {
    assert OwnsReservation(w.c.reservations, w.pcs, op);
    PhasesIdle(w, OnShare(w, op, req), op);
  }

  lemma BeginEvictPhases(c: Coord, k: ModelKey)
    ensures SamePhases(c, BeginEvict(c, k))
  {
  }

  lemma BeginJobPhases(c: Coord)
    ensures SamePhases(c, BeginJob(c))
  {
  }

  lemma FinishJobPhases(c: Coord, job: JobId, drained: bool)
    ensures SamePhases(c, FinishJob(c, job, drained))
  {
  }

  lemma NextKeepsPhased(w: World, op: OpId, goal: Option<Request>, k: ModelKey, rest: seq<ModelKey>)
    requires Owned(w) && Phased(w) && op in w.pcs && w.pcs[op] == Evictions(goal, [k] + rest)
    ensures Phased(OnEvictNext(w, op, goal, k, rest))
  {
    assert OwnsReservation(w.c.reservations, w.pcs, op) && FinalizerOk(w, op);
    BeginEvictPhases(w.c, k);
    var v := OnEvictNext(w, op, goal, k, rest);
    forall l ensures StageFits(v.c, v.pcs[op], l) { assert StageFits(w.c, w.pcs[op], l); }
    PhasesStill(w, v, op);
  }

  lemma UnloadKeepsPhased(w: World, op: OpId, goal: Option<Request>, k: ModelKey, rest: seq<ModelKey>)
    requires Owned(w) && Phased(w) && op in w.pcs && w.pcs[op] == Unloading(goal, k, rest)
    ensures Phased(OnEvictUnload(w, op, goal, k, rest))
  {
    assert OwnsReservation(w.c.reservations, w.pcs, op) && FinalizerOk(w, op);
    var v := OnEvictUnload(w, op, goal, k, rest);
    forall l ensures StageFits(v.c, v.pcs[op], l) { assert StageFits(w.c, w.pcs[op], l); }
    PhasesStill(w, v, op);
  }

  lemma AdmitKeepsPhased(w: World, cfg: Config, op: OpId, a: AdmitEvent)
    requires Owned(w) && Phased(w) && AdmitEnabled(w, op, a) && Clean(w, cfg, Admit(op, a))
    ensures Phased(AdmitStep(w, cfg, op, a))
  {
    assert OwnsReservation(w.c.reservations, w.pcs, op);
    match a
    case Start(req) => PhasesIdle(w, At(w, op, Ready(req)), op);
    case Stage1(free, owner, victims) =>
      var req := w.pcs[op].req;
      Stage1KeepsPhased(w, op, req, Decide(w.c, cfg, req.key, req.est, free, owner, victims));
    case GiveUp => PhasesIdle(w, At(w, op, Done), op);
    case WaitEnds => WaitKeepsPhased(w, op, w.pcs[op].req, w.pcs[op].waiter);
    case Release => PhasesIdle(w, OnRelease(w, op, w.pcs[op].key, w.pcs[op].claim), op);
  }

  lemma WaitKeepsPhased(w: World, op: OpId, req: Request, j: nat)
    requires Owned(w) && Phased(w) && op in w.pcs && w.pcs[op] == Awaiting(req, j)
    ensures Phased(OnWaitEnds(w, op, req, j))
  {
    assert OwnsReservation(w.c.reservations, w.pcs, op);
    if j in w.c.waiters { PhasesIdle(w, OnWaitEnds(w, op, req, j), op); }
  }

  lemma Stage1KeepsPhased(w: World, op: OpId, req: Request, plan: Plan)
    requires Owned(w) && Phased(w) && op in w.pcs && w.pcs[op] == Ready(req)
    requires plan.Share? ==> req.key in w.c.residents && w.c.residents[req.key].phase == Resident
    requires plan.Join? ==> plan.owner in w.c.reservations
    requires plan.LoadIt? ==> req.key !in w.c.residents && NobodyFinalizing(w, req.key)
    requires plan.Mark? ==> AreVictims(w.c, req.key, plan.victims)
    ensures Phased(OnStage1(w, op, req, plan))
  {
    assert OwnsReservation(w.c.reservations, w.pcs, op);
    match plan
    case Share => ShareKeepsPhased(w, op, req);
    case Join(owner) => JoinKeepsPhased(w, op, req, owner);
    case AwaitTransient =>
    case LoadIt => PhasesReserve(w, op, req);
    case Mark(victims) => MarkKeepsPhased(w, op, req, victims);
    case Reject(_) => PhasesIdle(w, At(w, op, Done), op);
  }

  lemma LoadKeepsPhased(w: World, cfg: Config, op: OpId, l: LoadEvent)
    requires Owned(w) && Phased(w) && LoadEnabled(w, op, l)
    ensures Phased(LoadStep(w, cfg, op, l))
  {
    assert OwnsReservation(w.c.reservations, w.pcs, op);
    hide Phased, Owned;
    match l
    case Deferred => PhasesIdle(w, LoadStep(w, cfg, op, l), op);
    case Measured(bytes) => PhasesIdle(w, OnMeasured(w, op, w.pcs[op].req.key, bytes), op);
    case Raised(childLeft) => RaisedKeepsPhased(w, op, w.pcs[op].req, childLeft);
    case Commit => RecheckKeepsPhased(w, cfg, op, w.pcs[op].key, w.pcs[op].size, w.pcs[op].deferred);
    case UndoUnload => UndoUnloadKeepsPhased(w, cfg, op);
    case UndoFinalize => UndoFinalizeKeepsPhased(w, op, w.pcs[op].key, w.pcs[op].verdict);
    case _ => IdleLoadKeepsPhased(w, cfg, op, l);
  }

  lemma UndoUnloadKeepsPhased(w: World, cfg: Config, op: OpId)
    requires Owned(w) && Phased(w) && LoadEnabled(w, op, UndoUnload)
    ensures Phased(LoadStep(w, cfg, op, UndoUnload))
  {
    assert OwnsReservation(w.c.reservations, w.pcs, op) && FinalizerOk(w, op);
    hide Phased, Owned;
    forall k ensures StageFits(w.c, Undone(w.pcs[op].key, w.pcs[op].verdict), k) { assert StageFits(w.c, w.pcs[op], k); }
    PhasesStill(w, LoadStep(w, cfg, op, UndoUnload), op);
  }

  lemma UndoFinalizeKeepsPhased(w: World, op: OpId, k: ModelKey, verdict: Disposition)
    requires Phased(w) && op in w.pcs && w.pcs[op] == Undone(k, verdict)
    ensures Phased(OnUndoFinalize(w, op, k, verdict))
  {
    assert FinalizerOk(w, op) && StageFits(w.c, w.pcs[op], k);
    hide Phased;
    PhasesRemove(w, OnUndoFinalize(w, op, k, verdict), k);
  }

  lemma IdleLoadKeepsPhased(w: World, cfg: Config, op: OpId, l: LoadEvent)
    requires Phased(w) && LoadEnabled(w, op, l) && (l.StopPartial? || l.DisposeJoiners? || l.WakeJoiners?)
    ensures Phased(LoadStep(w, cfg, op, l))
  {
    hide Phased;
    PhasesIdle(w, LoadStep(w, cfg, op, l), op);
  }

  lemma RecheckKeepsPhased(w: World, cfg: Config, op: OpId, k: ModelKey, size: nat, deferred: bool)
    requires Owned(w) && Phased(w) && op in w.pcs && w.pcs[op] == Loaded(k, size, deferred)
    ensures Phased(OnRecheck(w, cfg, op, k, size, deferred))
  {
    ReservationNeverLost(w, op);
    assert OwnsReservation(w.c.reservations, w.pcs, op) && Undisturbed(w.c, op);
    var objection := Objection(w.c, cfg, op, k, size);
    if objection == Unset {
      CommitKeepsPhased(w, op, k, size, deferred);
    } else {
      UndoKeepsPhased(w, op, k, size, deferred, objection);
    }
  }

  lemma CommitKeepsPhased(w: World, op: OpId, k: ModelKey, size: nat, deferred: bool)
    requires Owned(w) && Phased(w) && op in w.pcs && w.pcs[op] == Loaded(k, size, deferred)
    requires op in w.c.reservations && w.c.reservations[op].key == k && k in w.c.residents
    ensures Phased(OnCommit(w, op, k, size, deferred))
  {
    PhasesEndLoad(w, OnCommit(w, op, k, size, deferred), op, k);
  }

  lemma UndoKeepsPhased(w: World, op: OpId, k: ModelKey, size: nat, deferred: bool, verdict: Disposition)
    requires Owned(w) && Phased(w) && op in w.pcs && w.pcs[op] == Loaded(k, size, deferred)
    requires op in w.c.reservations && w.c.reservations[op].key == k
    ensures Phased(OnUndo(w, op, k, verdict))
  {
    PhasesEndLoad(w, OnUndo(w, op, k, verdict), op, k);
  }

  lemma RaisedKeepsPhased(w: World, op: OpId, req: Request, childLeft: bool)
    requires Owned(w) && Phased(w) && op in w.pcs && w.pcs[op] == LoadRunning(req)
    ensures Phased(OnRaised(w, op, req.key, childLeft))
  {
    assert OwnsReservation(w.c.reservations, w.pcs, op) && Undisturbed(w.c, op);
    PhasesEndLoad(w, OnRaised(w, op, req.key, childLeft), op, req.key);
  }

  lemma EvictKeepsPhased(w: World, op: OpId, e: EvictEvent)
    requires Owned(w) && Phased(w) && EvictEnabled(w, op, e)
    ensures Phased(EvictStep(w, op, e))
  {
    assert OwnsReservation(w.c.reservations, w.pcs, op);
    assert FinalizerOk(w, op);
    match e
    case Next =>
      assert w.pcs[op].rest == [w.pcs[op].rest[0]] + w.pcs[op].rest[1..];
      NextKeepsPhased(w, op, w.pcs[op].goal, w.pcs[op].rest[0], w.pcs[op].rest[1..]);
    case Poll(expired) => PollKeepsPhased(w, op, w.pcs[op].goal, w.pcs[op].key, w.pcs[op].rest, expired);
    case Unload => UnloadKeepsPhased(w, op, w.pcs[op].goal, w.pcs[op].key, w.pcs[op].rest);
    case Remove =>
      assert StageFits(w.c, w.pcs[op], w.pcs[op].key);
      PhasesRemove(w, OnEvictFinalize(w, op, w.pcs[op].goal, w.pcs[op].key, w.pcs[op].rest), w.pcs[op].key);
    case CloseUp => PhasesIdle(w, EvictStep(w, op, e), op);
  }

  /** A timed-out victim reverts only from a phase in which it can still be used. */
  lemma PollKeepsPhased(w: World, op: OpId, goal: Option<Request>, k: ModelKey, rest: seq<ModelKey>, expired: bool)
    requires Owned(w) && Phased(w) && op in w.pcs && w.pcs[op] == DrainWait(goal, k, rest)
    ensures Phased(OnDrainPoll(w, op, goal, k, rest, expired))
  {
    assert OwnsReservation(w.c.reservations, w.pcs, op) && FinalizerOk(w, op);
    assert StageFits(w.c, w.pcs[op], k) && UnusableIdle(w.c, k);
    hide Phased, Owned;
    var v := OnDrainPoll(w, op, goal, k, rest, expired);
    if DrainCheck(w.c, k, expired) == Drained {
      PhasesDrained(w, v, op, k);
    } else {
      UndrainedPhases(w.c, k, expired);
      hide SamePhases, DrainStep;
      forall l ensures StageFits(v.c, v.pcs[op], l) {
        assert StageFits(w.c, w.pcs[op], l);
        UndrainedFits(w.c, k, expired, l);
      }
      PhasesStill(w, v, op);
    }
  }

  lemma UndrainedPhases(c: Coord, k: ModelKey, expired: bool)
    requires DrainCheck(c, k, expired) != Drained && PhaseIn(c, k, {Resident, Draining, Evicting}) && UnusableIdle(c, k)
    ensures SamePhases(c, DrainStep(c, k, expired))
  {
  }

  lemma UndrainedFits(c: Coord, k: ModelKey, expired: bool, l: ModelKey)
    requires DrainCheck(c, k, expired) != Drained && PhaseIn(c, k, {Resident, Draining, Evicting})
    ensures PhaseIn(c, l, {Resident, Draining, Evicting}) ==> PhaseIn(DrainStep(c, k, expired), l, {Resident, Draining, Evicting})
  {
  }

  lemma BeginKeepsPhased(w: World, op: OpId)
    requires Owned(w) && Phased(w) && op !in w.pcs
    ensures Phased(OnJobBegin(w, op))
  {
    assert OwnsReservation(w.c.reservations, w.pcs, op);
    BeginJobPhases(w.c);
    PhasesStill(w, OnJobBegin(w, op), op);
  }

  lemma FinishKeepsPhased(w: World, op: OpId, job: JobId, drained: bool)
    requires Owned(w) && Phased(w) && op in w.pcs && w.pcs[op] == Evictions(None, [])
    ensures Phased(OnJobFinish(w, op, job, drained))
  {
    assert OwnsReservation(w.c.reservations, w.pcs, op);
    FinishJobPhases(w.c, job, drained);
    PhasesIdle(w, OnJobFinish(w, op, job, drained), op);
  }

  lemma JobKeepsPhased(w: World, op: OpId, j: JobEvent)
    requires Owned(w) && Phased(w) && JobEnabled(w, op, j)
    ensures Phased(JobStep(w, op, j))
  {
    assert OwnsReservation(w.c.reservations, w.pcs, op);
    match j
    case Begin => BeginKeepsPhased(w, op);
    case Collect(pending) => PhasesStill(w, JobStep(w, op, j), op);
    case Finish(job, drained) => FinishKeepsPhased(w, op, job, drained);
  }

  /** Nobody moves and no entry is removed. */
  lemma PhasesUnmoved(w: World, v: World)
    requires Phased(w) && SamePhases(w.c, v.c)
    requires v.pcs == w.pcs && v.born == w.born && v.c.reservations == w.c.reservations && v.c.generation == w.c.generation
    ensures Phased(v)
  {
    forall o ensures FinalizerOk(v, o) {
      if o in v.pcs {
        assert FinalizerOk(w, o);
        forall l ensures StageFits(v.c, v.pcs[o], l) { assert StageFits(w.c, w.pcs[o], l); }
      }
    }
    forall o ensures Undisturbed(v.c, o) { assert Undisturbed(w.c, o); }
    forall k ensures LoaderThere(v, k) { assert LoaderThere(w, k); }
    forall k ensures UnusableIdle(v.c, k) { assert UnusableIdle(w.c, k); }
  }

  lemma OutsideLeavesPhases(w: World, x: OutsideEvent)
    requires Enabled(w, Outside(x)) && (x.Forgotten? ==> x.key !in w.c.residents)
    ensures var v := OutsideStep(w, x);
      && SamePhases(w.c, v.c) && v.pcs == w.pcs && v.born == w.born
      && v.c.reservations == w.c.reservations && v.c.generation == w.c.generation
  {
  }

  lemma OutsideKeepsPhased(w: World, cfg: Config, x: OutsideEvent)
    requires Owned(w) && Phased(w) && Enabled(w, Outside(x)) && Clean(w, cfg, Outside(x))
    ensures Phased(OutsideStep(w, x))
  {
    if x.Forgotten? && x.key in w.c.residents {
      PhasesRemove(w, OutsideStep(w, x), x.key);
    } else {
      OutsideLeavesPhases(w, x);
      hide Phased, SamePhases, OutsideStep;
      PhasesUnmoved(w, OutsideStep(w, x));
    }
  }

  lemma PhasedKept(w: World, cfg: Config, e: Event)
    requires Owned(w) && Phased(w) && Enabled(w, e) && Clean(w, cfg, e)
    ensures Phased(Step(w, cfg, e))
  {
    match e
    case Admit(op, a) => AdmitKeepsPhased(w, cfg, op, a);
    case Load(op, l) => LoadKeepsPhased(w, cfg, op, l);
    case Evict(op, v) => EvictKeepsPhased(w, op, v);
    case Job(op, j) => JobKeepsPhased(w, op, j);
    case Outside(x) => OutsideKeepsPhased(w, cfg, x);
  }
}
