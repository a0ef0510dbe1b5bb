/** What holds in every run, with no assumption on the environment: who owns each reservation, each
    entry and the exclusive slot, and that a load only ever touches the entry its own stage 1 made. */
module CoordinatorOwnership {
  import opened Common
  import opened CoordinatorState
  import opened CoordinatorWorld

  // Each reservation belongs to the operation that is loading

  predicate LoadPc(pc: Pc) { pc.LoadRunning? || pc.Loaded? }

  predicate Matches(r: Reservation, pc: Pc) {
    match pc
    case LoadRunning(req) => r.key == req.key && r.est == req.est && !r.materialized
    case Loaded(k, size, deferred) => r.key == k && r.est == size && r.materialized == !deferred
    case _ => false
  }

  predicate OwnsReservation(res: map<OpId, Reservation>, pcs: map<OpId, Pc>, o: OpId) {
    && (o in res <==> o in pcs && LoadPc(pcs[o]))
    && (o in res ==> Matches(res[o], pcs[o]))
  }

  ghost predicate ReservationsOwned(w: World) {
    forall o :: OwnsReservation(w.c.reservations, w.pcs, o)
  }

  /** Reservations other than `op`'s change in their joiner lists only. */
  ghost predicate SameLoads(r: map<OpId, Reservation>, s: map<OpId, Reservation>, op: OpId) {
    forall o :: o != op ==> (o in r <==> o in s) && (o in r ==> r[o].(waiters := []) == s[o].(waiters := []))
  }

  predicate Moves(w: World, v: World, op: OpId) { op in v.pcs && v.pcs == w.pcs[op := v.pcs[op]] }

  lemma ReservationsLocal(w: World, v: World, op: OpId)
    requires ReservationsOwned(w)
    requires Moves(w, v, op)
    requires SameLoads(w.c.reservations, v.c.reservations, op)
    requires OwnsReservation(v.c.reservations, v.pcs, op)
    ensures ReservationsOwned(v)
  {
    forall o ensures OwnsReservation(v.c.reservations, v.pcs, o) {
      if o != op { assert OwnsReservation(w.c.reservations, w.pcs, o); }
    }
  }

  // (key, generation) names one entry

  /** An operation that has loaded never comes back to stage 1. */
  predicate AfterLoad(pc: Pc) {
    LoadPc(pc) || pc.Undoing? || pc.Undone? || pc.Failing? || pc.Disposing? || pc.Committed? || pc.Holding? || pc.Done?
  }

  /** The generation of the latest entry is the current one exactly while that entry stands. */
  predicate BirthOk(c: Coord, born: map<ModelKey, Birth>, k: ModelKey) {
    && (k in c.residents ==> k in born && born[k].generation == Gen(c, k))
    && (k in born ==> born[k].generation <= Gen(c, k))
    && (k in born && born[k].generation == Gen(c, k) ==> k in c.residents)
  }

  predicate CreatorOk(pcs: map<OpId, Pc>, born: map<ModelKey, Birth>, k: ModelKey) {
    k in born ==> born[k].creator in pcs && AfterLoad(pcs[born[k].creator])
  }

  predicate LoadsOwnEntry(res: map<OpId, Reservation>, born: map<ModelKey, Birth>, o: OpId) {
    o in res ==>
      && res[o].key in born
      && res[o].generation <= born[res[o].key].generation
      && (res[o].generation == born[res[o].key].generation ==> born[res[o].key].creator == o)
  }

  ghost predicate Incarnations(w: World) {
    && (forall k :: BirthOk(w.c, w.born, k))
    && (forall k :: CreatorOk(w.pcs, w.born, k))
    && (forall k, l :: k in w.born && l in w.born && w.born[k].creator == w.born[l].creator ==> k == l)
    && (forall o :: LoadsOwnEntry(w.c.reservations, w.born, o))
  }

  predicate SameLoad(r: map<OpId, Reservation>, s: map<OpId, Reservation>, o: OpId) {
    o in r && o in s && s[o].key == r[o].key && s[o].generation == r[o].generation
  }

  /** No entry created or removed; reservations only dropped or edited in place. */
  lemma IncarnationsSame(w: World, v: World, op: OpId)
    requires Incarnations(w)
    requires Moves(w, v, op) && (op in w.pcs && AfterLoad(w.pcs[op]) ==> AfterLoad(v.pcs[op]))
    requires v.born == w.born && v.c.generation == w.c.generation && v.c.residents.Keys == w.c.residents.Keys
    requires forall o :: o in v.c.reservations ==> SameLoad(w.c.reservations, v.c.reservations, o)
    ensures Incarnations(v)
  {
    forall k ensures BirthOk(v.c, v.born, k) { assert BirthOk(w.c, w.born, k); }
    forall k ensures CreatorOk(v.pcs, v.born, k) { assert CreatorOk(w.pcs, w.born, k); }
    forall o ensures LoadsOwnEntry(v.c.reservations, v.born, o) { assert LoadsOwnEntry(w.c.reservations, w.born, o); }
  }

  /** The entry under `k` goes, if there is one, and the generation is bumped. */
  lemma IncarnationsRemove(w: World, v: World, k: ModelKey)
    requires Incarnations(w)
    requires forall o :: o in w.pcs ==> o in v.pcs && (AfterLoad(w.pcs[o]) ==> AfterLoad(v.pcs[o]))
    requires v.born == w.born && v.c.generation == w.c.generation[k := Gen(w.c, k) + 1]
    requires v.c.residents.Keys == w.c.residents.Keys - {k}
    requires forall o :: o in v.c.reservations ==> o in w.c.reservations && v.c.reservations[o] == w.c.reservations[o]
    ensures Incarnations(v)
  {
    forall j ensures BirthOk(v.c, v.born, j) { assert BirthOk(w.c, w.born, j); }
    forall j ensures CreatorOk(v.pcs, v.born, j) { assert CreatorOk(w.pcs, w.born, j); }
    forall o ensures LoadsOwnEntry(v.c.reservations, v.born, o) { assert LoadsOwnEntry(w.c.reservations, w.born, o); }
  }

  lemma IncarnationsCreate(w: World, op: OpId, req: Request)
    requires Incarnations(w) && op in w.pcs && w.pcs[op] == Ready(req) && req.key !in w.c.residents
    ensures Incarnations(OnReserve(w, op, req))
  {
    var v := OnReserve(w, op, req);
    assert BirthOk(w.c, w.born, req.key);
    forall k ensures BirthOk(v.c, v.born, k) { assert BirthOk(w.c, w.born, k); }
    forall k ensures CreatorOk(v.pcs, v.born, k) { assert CreatorOk(w.pcs, w.born, k); }
    forall o ensures LoadsOwnEntry(v.c.reservations, v.born, o) { assert LoadsOwnEntry(w.c.reservations, w.born, o); }
    forall k | k in w.born ensures w.born[k].creator != op { assert CreatorOk(w.pcs, w.born, k); }
  }

  // One exclusive job, over an empty serving set

  predicate JobPc(pc: Pc) {
    (pc.Evictions? || pc.DrainWait? || pc.Unloading? || pc.Unloaded?) && pc.goal.None?
  }

  /** While an exclusive job runs nothing is resident or reserved; one job at a time raises the barrier. */
  ghost predicate Exclusivity(w: World) {
    && (w.c.exclusive.Some? ==> w.c.residents.Keys == {} && w.c.reservations.Keys == {} && !w.c.barrier)
    && (forall o :: o in w.pcs && JobPc(w.pcs[o]) ==> w.c.barrier)
    && (forall o, p :: o in w.pcs && p in w.pcs && JobPc(w.pcs[o]) && JobPc(w.pcs[p]) ==> o == p)
  }

  lemma ExclusivityLocal(w: World, v: World, op: OpId)
    requires Exclusivity(w)
    requires Moves(w, v, op) && (JobPc(v.pcs[op]) ==> op in w.pcs && JobPc(w.pcs[op]))
    requires v.c.exclusive == w.c.exclusive && v.c.barrier == w.c.barrier
    requires v.c.exclusive.Some? ==> v.c.residents.Keys == {} && v.c.reservations.Keys == {}
    ensures Exclusivity(v)
  {
  }

  // No entry is left draining that neither an evictor nor a raised barrier answers for

  predicate Pursues(pc: Pc, k: ModelKey) {
    match pc
    case Evictions(_, rest) => k in rest
    case DrainWait(_, key, rest) => k == key || k in rest
    case Unloading(_, _, rest) => k in rest
    case Unloaded(_, _, rest) => k in rest
    case _ => false
  }

  predicate IsDraining(c: Coord, k: ModelKey) { k in c.residents && c.residents[k].phase == Draining }

  ghost predicate Answered(w: World, k: ModelKey) {
    w.c.barrier || exists o :: o in w.pcs && Pursues(w.pcs[o], k)
  }

  ghost predicate DrainsAnswered(w: World) {
    forall k :: IsDraining(w.c, k) ==> Answered(w, k)
  }

  lemma DrainsLocal(w: World, v: World, op: OpId)
    requires DrainsAnswered(w)
    requires Moves(w, v, op) && v.c.barrier == w.c.barrier
    requires forall k :: IsDraining(v.c, k) && !v.c.barrier ==>
      Pursues(v.pcs[op], k) || (IsDraining(w.c, k) && !(op in w.pcs && Pursues(w.pcs[op], k)))
    ensures DrainsAnswered(v)
  {
    forall k | IsDraining(v.c, k) ensures Answered(v, k) {
      if !v.c.barrier && !Pursues(v.pcs[op], k) {
        assert Answered(w, k);
        var o :| o in w.pcs && Pursues(w.pcs[o], k);
        assert o in v.pcs && Pursues(v.pcs[o], k);
      }
    }
  }

  ghost predicate Owned(w: World) {
    ReservationsOwned(w) && Incarnations(w) && Exclusivity(w) && DrainsAnswered(w)
  }

  // Every step keeps it

  /** Steps that move one operation without loading, reserving, removing or barring. */
  ghost predicate Quiet(w: World, v: World, op: OpId) {
    && op in w.pcs && Moves(w, v, op)
    && !LoadPc(w.pcs[op]) && !LoadPc(v.pcs[op])
    && (AfterLoad(w.pcs[op]) ==> AfterLoad(v.pcs[op]))
    && (JobPc(v.pcs[op]) ==> JobPc(w.pcs[op]))
    && SameLoads(w.c.reservations, v.c.reservations, op) && (op in v.c.reservations ==> op in w.c.reservations)
    && v.c.residents.Keys == w.c.residents.Keys && v.c.generation == w.c.generation && v.born == w.born
    && v.c.exclusive == w.c.exclusive && v.c.barrier == w.c.barrier
    && (forall k :: IsDraining(v.c, k) && !v.c.barrier ==>
          Pursues(v.pcs[op], k) || (IsDraining(w.c, k) && !Pursues(w.pcs[op], k)))
  }

  lemma QuietKeeps(w: World, v: World, op: OpId)
    requires Owned(w) && Quiet(w, v, op)
    ensures Owned(v)
  {
    assert OwnsReservation(w.c.reservations, w.pcs, op);
    ReservationsLocal(w, v, op);
    forall o | o in v.c.reservations ensures SameLoad(w.c.reservations, v.c.reservations, o) {
      assert v.c.reservations[o].(waiters := []) == w.c.reservations[o].(waiters := []);
    }
    IncarnationsSame(w, v, op);
    assert v.c.exclusive.Some? ==> v.c.reservations.Keys == {} by {
      forall o | o in v.c.reservations ensures o in w.c.reservations {}
    }
    ExclusivityLocal(w, v, op);
    DrainsLocal(w, v, op);
  }

  lemma ReserveKeeps(w: World, op: OpId, req: Request)
    requires Owned(w) && op in w.pcs && w.pcs[op] == Ready(req) && req.key !in w.c.residents && !Barred(w.c)
    ensures Owned(OnReserve(w, op, req))
  {
    var v := OnReserve(w, op, req);
    ReservationsLocal(w, v, op);
    IncarnationsCreate(w, op, req);
    ExclusivityLocal(w, v, op);
    DrainsLocal(w, v, op);
  }

  lemma ShareKeeps(w: World, op: OpId, req: Request)
    requires Owned(w) && op in w.pcs && w.pcs[op] == Ready(req) && req.key in w.c.residents
    ensures Owned(OnShare(w, op, req))
  {
    QuietKeeps(w, OnShare(w, op, req), op);
  }

  lemma JoinKeeps(w: World, op: OpId, req: Request, owner: OpId)
    requires Owned(w) && op in w.pcs && w.pcs[op] == Ready(req) && owner in w.c.reservations
    ensures Owned(OnJoin(w, op, req, owner))
  {
    assert OwnsReservation(w.c.reservations, w.pcs, op);
    QuietKeeps(w, OnJoin(w, op, req, owner), op);
  }

  lemma MarkKeeps(w: World, op: OpId, req: Request, victims: seq<ModelKey>)
    requires Owned(w) && op in w.pcs && w.pcs[op] == Ready(req)
    ensures Owned(OnMark(w, op, req, victims))
  {
    QuietKeeps(w, OnMark(w, op, req, victims), op);
  }

  lemma WaitEndsKeeps(w: World, op: OpId, req: Request, j: nat)
    requires Owned(w) && op in w.pcs && w.pcs[op] == Awaiting(req, j) && j in w.c.waiters
    ensures Owned(OnWaitEnds(w, op, req, j))
  {
    assert OwnsReservation(w.c.reservations, w.pcs, op);
    QuietKeeps(w, OnWaitEnds(w, op, req, j), op);
  }

  lemma PollKeeps(w: World, op: OpId, goal: Option<Request>, k: ModelKey, rest: seq<ModelKey>, expired: bool)
    requires Owned(w) && op in w.pcs && w.pcs[op] == DrainWait(goal, k, rest)
    ensures Owned(OnDrainPoll(w, op, goal, k, rest, expired))
  {
    assert Exclusivity(w);
    PollDrains(w, op, goal, k, rest, expired);
    hide Owned, Exclusivity, IsDraining, Pursues;
    QuietKeeps(w, OnDrainPoll(w, op, goal, k, rest, expired), op);
  }

  /** A poll leaves an entry draining without its own pursuit only under a raised barrier. */
  lemma PollDrains(w: World, op: OpId, goal: Option<Request>, k: ModelKey, rest: seq<ModelKey>, expired: bool)
    requires Exclusivity(w) && op in w.pcs && w.pcs[op] == DrainWait(goal, k, rest)
    ensures var v := OnDrainPoll(w, op, goal, k, rest, expired);
      forall j :: IsDraining(v.c, j) && !v.c.barrier ==>
        Pursues(v.pcs[op], j) || (IsDraining(w.c, j) && !Pursues(w.pcs[op], j))
  {
    if w.c.exclusive.None? {
      DrainStepDrains(w.c, k, expired);
      hide Exclusivity, DrainStep, IsDraining;
    }
  }

  lemma DrainStepDrains(c: Coord, k: ModelKey, expired: bool)
    ensures forall j :: IsDraining(DrainStep(c, k, expired), j) ==> IsDraining(c, j)
    ensures !Barred(c) && IsDraining(DrainStep(c, k, expired), k) ==> DrainCheck(c, k, expired) == KeepWaiting
  {
  }

  lemma NextKeeps(w: World, op: OpId, goal: Option<Request>, k: ModelKey, rest: seq<ModelKey>)
    requires Owned(w) && op in w.pcs && w.pcs[op] == Evictions(goal, [k] + rest)
    ensures Owned(OnEvictNext(w, op, goal, k, rest))
  {
    QuietKeeps(w, OnEvictNext(w, op, goal, k, rest), op);
  }

  lemma Stage1Keeps(w: World, op: OpId, req: Request, plan: Plan)
    requires Owned(w) && op in w.pcs && w.pcs[op] == Ready(req)
    requires plan.Share? ==> req.key in w.c.residents
    requires plan.Join? ==> plan.owner in w.c.reservations
    requires plan.LoadIt? ==> req.key !in w.c.residents && !Barred(w.c)
    ensures Owned(OnStage1(w, op, req, plan))
  {
    assert OwnsReservation(w.c.reservations, w.pcs, op);
    match plan
    case Share => ShareKeeps(w, op, req);
    case Join(o) => JoinKeeps(w, op, req, o);
    case AwaitTransient =>
    case LoadIt => ReserveKeeps(w, op, req);
    case Mark(vs) => MarkKeeps(w, op, req, vs);
    case Reject(_) => QuietKeeps(w, At(w, op, Done), op);
  }

  lemma MeasuredKeeps(w: World, op: OpId, req: Request, measured: nat)
    requires Owned(w) && op in w.pcs && w.pcs[op] == LoadRunning(req)
    ensures Owned(OnMeasured(w, op, req.key, measured))
  {
    var v := OnMeasured(w, op, req.key, measured);
    assert OwnsReservation(w.c.reservations, w.pcs, op);
    ReservationsLocal(w, v, op);
    IncarnationsSame(w, v, op);
    ExclusivityLocal(w, v, op);
    DrainsLocal(w, v, op);
  }

  lemma DeferredKeeps(w: World, op: OpId, req: Request)
    requires Owned(w) && op in w.pcs && w.pcs[op] == LoadRunning(req)
    ensures Owned(At(w, op, Loaded(req.key, req.est, true)))
  {
    var v := At(w, op, Loaded(req.key, req.est, true));
    assert OwnsReservation(w.c.reservations, w.pcs, op);
    ReservationsLocal(w, v, op);
    IncarnationsSame(w, v, op);
    ExclusivityLocal(w, v, op);
    DrainsLocal(w, v, op);
  }

  /** The "reservation lost" branch is dead, and an unobjected load still finds its own entry. */
  lemma ReservationNeverLost(w: World, op: OpId)
    requires Owned(w) && LoadEnabled(w, op, Commit)
    ensures op in w.c.reservations
    ensures Gen(w.c, w.pcs[op].key) == w.c.reservations[op].generation ==>
      w.pcs[op].key in w.c.residents && Creator(w, w.pcs[op].key) == Some(op)
  {
    assert OwnsReservation(w.c.reservations, w.pcs, op);
    assert LoadsOwnEntry(w.c.reservations, w.born, op);
    assert BirthOk(w.c, w.born, w.pcs[op].key);
  }

  /** Leaving the load, by a commit or by a rollback. */
  lemma LeaveLoadKeeps(w: World, v: World, op: OpId)
    requires Owned(w) && op in w.c.reservations && op in w.pcs
    requires Moves(w, v, op) && (v.pcs[op].Committed? || v.pcs[op].Undoing?)
    requires v.c.reservations == w.c.reservations - {op}
    requires v.c.residents.Keys == w.c.residents.Keys
    requires v.c.generation == w.c.generation && v.born == w.born
    requires v.c.exclusive == w.c.exclusive && v.c.barrier == w.c.barrier
    requires forall k :: IsDraining(v.c, k) ==> IsDraining(w.c, k)
    ensures Owned(v)
  {
    assert OwnsReservation(w.c.reservations, w.pcs, op);
    ReservationsLocal(w, v, op);
    IncarnationsSame(w, v, op);
    ExclusivityLocal(w, v, op);
    DrainsLocal(w, v, op);
  }

  lemma RecheckKeeps(w: World, cfg: Config, op: OpId, k: ModelKey, size: nat, deferred: bool)
    requires Owned(w) && op in w.pcs && w.pcs[op] == Loaded(k, size, deferred)
    ensures Owned(OnRecheck(w, cfg, op, k, size, deferred))
  {
    ReservationNeverLost(w, op);
    var objection := Objection(w.c, cfg, op, k, size);
    if objection == Unset && k in w.c.residents {
      CommitKeeps(w, op, k, size, deferred);
    } else {
      UndoKeeps(w, op, k, size, deferred, objection);
    }
  }

  lemma CommitKeeps(w: World, op: OpId, k: ModelKey, size: nat, deferred: bool)
    requires Owned(w) && op in w.pcs && w.pcs[op] == Loaded(k, size, deferred)
    requires op in w.c.reservations && k in w.c.residents
    ensures Owned(OnCommit(w, op, k, size, deferred))
  {
    LeaveLoadKeeps(w, OnCommit(w, op, k, size, deferred), op);
  }

  lemma UndoKeeps(w: World, op: OpId, k: ModelKey, size: nat, deferred: bool, verdict: Disposition)
    requires Owned(w) && op in w.pcs && w.pcs[op] == Loaded(k, size, deferred) && op in w.c.reservations
    ensures Owned(OnUndo(w, op, k, verdict))
  {
    LeaveLoadKeeps(w, OnUndo(w, op, k, verdict), op);
  }

  lemma RaisedKeeps(w: World, op: OpId, req: Request, childLeft: bool)
    requires Owned(w) && op in w.pcs && w.pcs[op] == LoadRunning(req)
    ensures Owned(OnRaised(w, op, req.key, childLeft))
  {
    var v := OnRaised(w, op, req.key, childLeft);
    assert OwnsReservation(w.c.reservations, w.pcs, op);
    RaisedKeepsIncarnations(w, op, req, childLeft);
    hide Incarnations;
    ReservationsLocal(w, v, op);
    ExclusivityLocal(w, v, op);
    DrainsLocal(w, v, op);
  }

  lemma RaisedKeepsIncarnations(w: World, op: OpId, req: Request, childLeft: bool)
    requires Incarnations(w) && op in w.pcs && w.pcs[op] == LoadRunning(req)
    ensures Incarnations(OnRaised(w, op, req.key, childLeft))
  {
    hide Incarnations;
    var v := OnRaised(w, op, req.key, childLeft);
    if v.c.generation == w.c.generation {
      IncarnationsSame(w, v, op);
    } else {
      IncarnationsRemove(w, v, req.key);
    }
  }

  lemma FinalizeKeeps(w: World, v: World, op: OpId, k: ModelKey)
    requires Owned(w) && op in w.pcs && Moves(w, v, op) && v.c == Finalize(w.c, k) && v.born == w.born
    requires w.pcs[op].Undone? || w.pcs[op].Unloaded?
    requires if w.pcs[op].Undone? then v.pcs[op].Disposing?
             else v.pcs[op] == Evictions(w.pcs[op].goal, w.pcs[op].rest) && w.pcs[op].key == k
    ensures Owned(v)
  {
    assert OwnsReservation(w.c.reservations, w.pcs, op);
    ReservationsLocal(w, v, op);
    IncarnationsRemove(w, v, k);
    ExclusivityLocal(w, v, op);
    DrainsLocal(w, v, op);
  }

  lemma JobBeginKeeps(w: World, op: OpId)
    requires Owned(w) && op !in w.pcs
    ensures Owned(OnJobBegin(w, op))
  {
    var v := OnJobBegin(w, op);
    assert OwnsReservation(w.c.reservations, w.pcs, op);
    if Barred(w.c) {
      assert v == At(w, op, Done);
      FreshKeeps(w, op, Done);
    } else {
      ReservationsLocal(w, v, op);
      IncarnationsSame(w, v, op);
    }
  }

  lemma JobFinishKeeps(w: World, op: OpId, job: JobId, drained: bool)
    requires Owned(w) && op in w.pcs && w.pcs[op] == Evictions(None, [])
    ensures Owned(OnJobFinish(w, op, job, drained))
  {
    var v := OnJobFinish(w, op, job, drained);
    assert OwnsReservation(w.c.reservations, w.pcs, op);
    ReservationsLocal(w, v, op);
    IncarnationsSame(w, v, op);
  }

  lemma ForgottenKeeps(w: World, k: ModelKey)
    requires Owned(w)
    ensures Owned(OnForgotten(w, k))
  {
    var v := OnForgotten(w, k);
    if k in w.c.residents {
      assert ReservationsOwned(v) by {
        forall o ensures OwnsReservation(v.c.reservations, v.pcs, o) { assert OwnsReservation(w.c.reservations, w.pcs, o); }
      }
      IncarnationsRemove(w, v, k);
      forall j | IsDraining(v.c, j) ensures Answered(v, j) { assert Answered(w, j); }
    }
  }

  /** Only bookkeeping that ownership does not read changes. */
  lemma UnrelatedKeeps(w: World, v: World)
    requires Owned(w)
    requires v.pcs == w.pcs && v.born == w.born
    requires v.c == w.c.(residents := v.c.residents, exclusive := v.c.exclusive)
    requires v.c.exclusive.None? || v.c.exclusive == w.c.exclusive
    requires v.c.residents.Keys == w.c.residents.Keys
    requires forall k :: k in w.c.residents ==> v.c.residents[k].phase == w.c.residents[k].phase
    ensures Owned(v)
  {
    assert ReservationsOwned(v) by {
      forall o ensures OwnsReservation(v.c.reservations, v.pcs, o) { assert OwnsReservation(w.c.reservations, w.pcs, o); }
    }
    assert Incarnations(v) by {
      forall k ensures BirthOk(v.c, v.born, k) { assert BirthOk(w.c, w.born, k); }
      forall k ensures CreatorOk(v.pcs, v.born, k) { assert CreatorOk(w.pcs, w.born, k); }
      forall o ensures LoadsOwnEntry(v.c.reservations, v.born, o) { assert LoadsOwnEntry(w.c.reservations, w.born, o); }
    }
    forall j | IsDraining(v.c, j) ensures Answered(v, j) { assert IsDraining(w.c, j) && Answered(w, j); }
  }

  /** A first step of a fresh operation. */
  lemma FreshKeeps(w: World, op: OpId, pc: Pc)
    requires Owned(w) && op !in w.pcs && !LoadPc(pc) && !JobPc(pc)
    ensures Owned(At(w, op, pc))
  {
    var v := At(w, op, pc);
    assert OwnsReservation(w.c.reservations, w.pcs, op);
    ReservationsLocal(w, v, op);
    IncarnationsSame(w, v, op);
    ExclusivityLocal(w, v, op);
    DrainsLocal(w, v, op);
  }

  lemma AdmitKeeps(w: World, cfg: Config, op: OpId, a: AdmitEvent)
    requires Owned(w) && AdmitEnabled(w, op, a)
    ensures Owned(AdmitStep(w, cfg, op, a))
  {
    assert OwnsReservation(w.c.reservations, w.pcs, op);
    match a
    case Start(req) => FreshKeeps(w, op, Ready(req));
    case Stage1(free, owner, victims) =>
      var req := w.pcs[op].req;
      Stage1Keeps(w, op, req, Decide(w.c, cfg, req.key, req.est, free, owner, victims));
    case GiveUp => QuietKeeps(w, At(w, op, Done), op);
    case WaitEnds =>
      if w.pcs[op].waiter in w.c.waiters { WaitEndsKeeps(w, op, w.pcs[op].req, w.pcs[op].waiter); }
    case Release => QuietKeeps(w, OnRelease(w, op, w.pcs[op].key, w.pcs[op].claim), op);
  }

  lemma LoadKeeps(w: World, cfg: Config, op: OpId, l: LoadEvent)
    requires Owned(w) && LoadEnabled(w, op, l)
    ensures Owned(LoadStep(w, cfg, op, l))
  {
    assert OwnsReservation(w.c.reservations, w.pcs, op);
    match l
    case Deferred => DeferredKeeps(w, op, w.pcs[op].req);
    case Measured(bytes) => MeasuredKeeps(w, op, w.pcs[op].req, bytes);
    case Raised(childLeft) => RaisedKeeps(w, op, w.pcs[op].req, childLeft);
    case Commit => RecheckKeeps(w, cfg, op, w.pcs[op].key, w.pcs[op].size, w.pcs[op].deferred);
    case UndoFinalize => FinalizeKeeps(w, LoadStep(w, cfg, op, l), op, w.pcs[op].key);
    case _ => QuietKeeps(w, LoadStep(w, cfg, op, l), op);
  }

  lemma EvictKeeps(w: World, op: OpId, e: EvictEvent)
    requires Owned(w) && EvictEnabled(w, op, e)
    ensures Owned(EvictStep(w, op, e))
  {
    hide Owned;
    match e
    case Next => assert w.pcs[op].rest == [w.pcs[op].rest[0]] + w.pcs[op].rest[1..];
                 NextKeeps(w, op, w.pcs[op].goal, w.pcs[op].rest[0], w.pcs[op].rest[1..]);
    case Poll(expired) => PollKeeps(w, op, w.pcs[op].goal, w.pcs[op].key, w.pcs[op].rest, expired);
    case Remove => FinalizeKeeps(w, EvictStep(w, op, e), op, w.pcs[op].key);
    case _ => QuietEvictKeeps(w, op, e);
  }

  lemma QuietEvictKeeps(w: World, op: OpId, e: EvictEvent)
    requires Owned(w) && EvictEnabled(w, op, e) && (e.Unload? || e.CloseUp?)
    ensures Owned(EvictStep(w, op, e))
  {
    hide Owned;
    QuietKeeps(w, EvictStep(w, op, e), op);
  }

  lemma JobKeeps(w: World, op: OpId, j: JobEvent)
    requires Owned(w) && JobEnabled(w, op, j)
    ensures Owned(JobStep(w, op, j))
  {
    assert OwnsReservation(w.c.reservations, w.pcs, op);
    match j
    case Begin => JobBeginKeeps(w, op);
    case Collect(pending) => QuietKeeps(w, JobStep(w, op, j), op);
    case Finish(job, drained) => JobFinishKeeps(w, op, job, drained);
  }

  lemma OutsideKeeps(w: World, x: OutsideEvent)
    requires Owned(w) && Enabled(w, Outside(x))
    ensures Owned(OutsideStep(w, x))
  {
    match x
    case Forgotten(k) => ForgottenKeeps(w, k);
    case ChildReported(k, measured) => UnrelatedKeeps(w, OnChildReported(w, k, measured));
    case EndOfJob(which) => UnrelatedKeeps(w, w.(c := EndJob(w.c, which)));
    case Allocate(_, _) => UnrelatedKeeps(w, OutsideStep(w, x));
  }

  lemma OwnedKept(w: World, cfg: Config, e: Event)
    requires Owned(w) && Enabled(w, e)
    ensures Owned(Step(w, cfg, e))
  {
    match e
    case Admit(op, a) => AdmitKeeps(w, cfg, op, a);
    case Load(op, l) => LoadKeeps(w, cfg, op, l);
    case Evict(op, v) => EvictKeeps(w, op, v);
    case Job(op, j) => JobKeeps(w, op, j);
    case Outside(x) => OutsideKeeps(w, x);
  }
}
