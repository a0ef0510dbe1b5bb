/** The physical bound. If every load allocates at most its estimate until its final measurement and
    the rest of the device is steady, then in every clean interleaving the bytes admitted loads may
    still allocate never exceed live free memory, and leave the headroom while any are pending. */
module CoordinatorMemory {
  import opened Common
  import opened CoordinatorState
  import opened CoordinatorWorld
  import opened CoordinatorOwnership
  import opened CoordinatorPhases

  function Limit(g: Growing): nat { g.limit }
  function Bytes(g: Growing): nat { g.bytes }
  function Size(n: nat): nat { n }

  /** What the device reports free, when other programs hold `external` bytes of it. */
  ghost function LiveFree(w: World, cfg: Config, external: nat): int {
    cfg.total - external - SumBy(w.settled, Size) - SumBy(w.growing, Bytes)
  }

  /** What admitted loads may still allocate. */
  ghost function Pending(w: World): int { SumBy(w.growing, Limit) - SumBy(w.growing, Bytes) }

  /** The environment's part. */
  ghost predicate Physical(w: World, cfg: Config, external: nat, e: Event)
    requires Enabled(w, e)
  {
    match e
    case Admit(op, a) => a.Stage1? ==> a.free == LiveFree(w, cfg, external)
    case Load(op, l) =>
      && (l.Deferred? ==> op in w.growing && w.growing[op].bytes == 0)
      && (l.Measured? ==> op in w.growing && l.bytes == w.growing[op].bytes)
    case Outside(x) =>
      && (x.Allocate? ==>
            && !w.growing[x.op].stopped && w.growing[x.op].bytes + x.bytes <= w.growing[x.op].limit
            && !(x.op in w.pcs && w.pcs[x.op].Loaded?))
      && (x.ChildReported? && x.key in w.c.residents && x.measured != 0 ==>
            && w.c.residents[x.key].phase !in {Loading, RollingBack}
            && Creator(w, x.key).Some?
            && var o := Creator(w, x.key).value;
               if o in w.growing then x.measured == w.growing[o].bytes
               else o in w.settled && x.measured == w.settled[o])
    case _ => true
  }

  // What each growing process stands for

  predicate Unmeasured(c: Coord, o: OpId) { o in c.reservations && !c.reservations[o].materialized }

  predicate Unspawned(c: Coord, k: ModelKey) { k in c.residents && !c.residents[k].materialized }

  /** A growing process belongs to an unmeasured load, or to an entry committed before its process was. */
  predicate GrowthTracked(w: World, o: OpId) {
    && (o in w.growing ==>
          var g := w.growing[o];
          && g.bytes <= g.limit
          && (if o in w.c.reservations then
                Unmeasured(w.c, o) && w.c.reservations[o].est == g.limit && w.c.reservations[o].key == g.key
                && (o in w.pcs && w.pcs[o].Loaded? ==> g.bytes == 0)
              else
                Unspawned(w.c, g.key) && Creator(w, g.key) == Some(o) && w.c.residents[g.key].vram == g.limit))
    && (Unmeasured(w.c, o) ==> o in w.growing)
  }

  predicate EntryTracked(w: World, k: ModelKey) {
    && (Unspawned(w.c, k) ==> Creator(w, k).Some? && Creator(w, k).value in w.growing && Creator(w, k).value !in w.c.reservations)
    && (k in w.c.residents && w.c.residents[k].phase in {Loading, RollingBack} ==>
          w.c.residents[k].vram == 0 && w.c.residents[k].materialized)
  }

  ghost predicate Tracked(w: World) {
    && (forall o :: o in w.c.reservations ==> o in w.pcs)
    && (forall o :: GrowthTracked(w, o))
    && (forall k :: EntryTracked(w, k))
  }

  ghost predicate Fits(w: World, cfg: Config, external: nat) {
    && SumBy(w.growing, Limit) == Unmaterialized(w.c)
    && external + SumBy(w.settled, Size) + SumBy(w.growing, Limit) <= cfg.total
    && (w.growing.Keys != {} ==>
          external + SumBy(w.settled, Size) + SumBy(w.growing, Limit) + cfg.headroom <= cfg.total)
  }

  ghost predicate Sound(w: World, cfg: Config, external: nat) { Tracked(w) && Fits(w, cfg, external) }

  /** The bound itself: what may still be allocated is free. */
  lemma NoOvercommit(w: World, cfg: Config, external: nat)
    requires Sound(w, cfg, external)
    ensures 0 <= Pending(w) <= LiveFree(w, cfg, external)
    ensures w.growing.Keys != {} ==> Pending(w) + cfg.headroom <= LiveFree(w, cfg, external)
  {
    forall o | o in w.growing ensures Bytes(w.growing[o]) <= Limit(w.growing[o]) { assert GrowthTracked(w, o); }
    SumBelow(w.growing, Bytes, Limit);
  }

  // Steps that change no holding

  predicate SameEntry(e: Entry, f: Entry) {
    && f.vram == e.vram && f.materialized == e.materialized
    && (f.phase in {Loading, RollingBack} ==> e.phase in {Loading, RollingBack})
  }

  ghost predicate SameHoldings(c: Coord, d: Coord) {
    && d.residents.Keys == c.residents.Keys && d.reservations.Keys == c.reservations.Keys
    && (forall k :: k in c.residents ==> SameEntry(c.residents[k], d.residents[k]))
    && (forall o :: o in c.reservations ==> d.reservations[o].(waiters := []) == c.reservations[o].(waiters := []))
  }

  predicate Settles(w: World, v: World) {
    v.settled.Keys <= w.settled.Keys && forall o :: o in v.settled ==> v.settled[o] == w.settled[o]
  }

  lemma HoldingsCount(c: Coord, d: Coord)
    requires SameHoldings(c, d)
    ensures Unmaterialized(d) == Unmaterialized(c)
  {
    SumSame(c.residents, d.residents, EntryPending);
    forall o | o in c.reservations ensures ReservedPending(d.reservations[o]) == ReservedPending(c.reservations[o]) {
      assert d.reservations[o].(waiters := []) == c.reservations[o].(waiters := []);
    }
    SumSame(c.reservations, d.reservations, ReservedPending);
  }

  lemma TrackedStill(w: World, v: World)
    requires Tracked(w) && SameHoldings(w.c, v.c) && v.growing == w.growing && v.born == w.born
    requires forall o :: o in w.pcs ==> o in v.pcs
    requires forall o :: o in v.pcs && v.pcs[o].Loaded? && o in w.growing ==>
      (o in w.pcs && w.pcs[o].Loaded?) || w.growing[o].bytes == 0
    ensures Tracked(v)
  {
    forall o ensures GrowthTracked(v, o) {
      assert GrowthTracked(w, o);
      if o in w.c.reservations { assert v.c.reservations[o].(waiters := []) == w.c.reservations[o].(waiters := []); }
    }
    forall k ensures EntryTracked(v, k) { assert EntryTracked(w, k); }
  }

  lemma SoundStill(w: World, v: World, cfg: Config, external: nat)
    requires Sound(w, cfg, external) && SameHoldings(w.c, v.c) && v.growing == w.growing && v.born == w.born
    requires Settles(w, v)
    requires forall o :: o in w.pcs ==> o in v.pcs
    requires forall o :: o in v.pcs && v.pcs[o].Loaded? && o in w.growing ==>
      (o in w.pcs && w.pcs[o].Loaded?) || w.growing[o].bytes == 0
    ensures Sound(v, cfg, external)
  {
    TrackedStill(w, v);
    HoldingsCount(w.c, v.c);
    SumShrinks(w.settled, v.settled, Size);
  }

  lemma SoundMove(w: World, v: World, op: OpId, cfg: Config, external: nat)
    requires Sound(w, cfg, external) && SameHoldings(w.c, v.c) && v.growing == w.growing && v.born == w.born
    requires Settles(w, v) && Moves(w, v, op)
    requires v.pcs[op].Loaded? && op in w.growing ==> w.growing[op].bytes == 0
    ensures Sound(v, cfg, external)
  {
    SoundStill(w, v, cfg, external);
  }

  // An admission promises its estimate

  lemma ReserveKeepsSound(w: World, op: OpId, req: Request, cfg: Config, external: nat)
    requires Owned(w) && Sound(w, cfg, external) && op in w.pcs && w.pcs[op] == Ready(req) && req.key !in w.c.residents
    requires req.est + Unmaterialized(w.c) + cfg.headroom <= LiveFree(w, cfg, external)
    ensures Sound(OnReserve(w, op, req), cfg, external)
  {
    assert OwnsReservation(w.c.reservations, w.pcs, op) && GrowthTracked(w, op);
    assert op !in w.growing by {
      assert op in w.growing ==> CreatorOk(w.pcs, w.born, w.growing[op].key);
    }
    ReserveTracked(w, op, req);
    ReserveFits(w, op, req, cfg, external);
  }

  lemma ReserveFits(w: World, op: OpId, req: Request, cfg: Config, external: nat)
    requires Fits(w, cfg, external) && op !in w.growing && op !in w.c.reservations && req.key !in w.c.residents
    requires req.est + Unmaterialized(w.c) + cfg.headroom <= LiveFree(w, cfg, external)
    ensures Fits(OnReserve(w, op, req), cfg, external)
  {
    var v := OnReserve(w, op, req);
    SumUpdate(w.growing, op, v.growing[op], Limit);
    SumUpdate(w.c.reservations, op, v.c.reservations[op], ReservedPending);
    SumUpdate(w.c.residents, req.key, v.c.residents[req.key], EntryPending);
  }

  lemma ReserveTracked(w: World, op: OpId, req: Request)
    requires Owned(w) && Tracked(w) && op in w.pcs && w.pcs[op] == Ready(req) && req.key !in w.c.residents
    requires op !in w.growing && op !in w.c.reservations
    ensures Tracked(OnReserve(w, op, req))
  {
    var v := OnReserve(w, op, req);
    forall o ensures GrowthTracked(v, o) { assert GrowthTracked(w, o); }
    forall k ensures EntryTracked(v, k) { assert EntryTracked(w, k); }
  }

  // A process settles: what it took replaces what it might have taken

  lemma Settled(w: World, op: OpId, bytes: nat, v: World)
    requires op in w.growing && bytes <= w.growing[op].limit
    requires v.growing == w.growing - {op} && v.settled == w.settled[op := bytes]
    ensures SumBy(v.growing, Limit) + w.growing[op].limit == SumBy(w.growing, Limit)
    ensures SumBy(v.settled, Size) + SumBy(v.growing, Limit) <= SumBy(w.settled, Size) + SumBy(w.growing, Limit)
    ensures v.growing.Keys != {} ==> w.growing.Keys != {}
  {
    SumRemove(w.growing, op, Limit);
    SumUpdate(w.settled, op, bytes, Size);
    SumShrinks(w.settled, w.settled - {op}, Size);
  }

  lemma MeasuredKeepsSound(w: World, op: OpId, req: Request, measured: nat, cfg: Config, external: nat)
    requires Owned(w) && Sound(w, cfg, external) && op in w.pcs && w.pcs[op] == LoadRunning(req)
    requires op in w.growing && measured == w.growing[op].bytes
    ensures Sound(OnMeasured(w, op, req.key, measured), cfg, external)
  {
    var v := OnMeasured(w, op, req.key, measured);
    assert OwnsReservation(w.c.reservations, w.pcs, op) && GrowthTracked(w, op);
    MeasuredFits(w, op, req.key, measured, cfg, external);
    MeasuredTracked(w, op, req.key, measured);
  }

  lemma MeasuredFits(w: World, op: OpId, k: ModelKey, measured: nat, cfg: Config, external: nat)
    requires Fits(w, cfg, external) && op in w.c.reservations && op in w.growing
    requires !w.c.reservations[op].materialized && w.c.reservations[op].est == w.growing[op].limit && measured <= w.growing[op].limit
    ensures Fits(OnMeasured(w, op, k, measured), cfg, external)
  {
    var v := OnMeasured(w, op, k, measured);
    Settled(w, op, measured, v);
    SumUpdate(w.c.reservations, op, v.c.reservations[op], ReservedPending);
  }

  lemma MeasuredTracked(w: World, op: OpId, k: ModelKey, measured: nat)
    requires Tracked(w) && op in w.c.reservations && op in w.growing
    ensures Tracked(OnMeasured(w, op, k, measured))
  {
    var v := OnMeasured(w, op, k, measured);
    forall o ensures GrowthTracked(v, o) { assert GrowthTracked(w, o); }
    forall k ensures EntryTracked(v, k) { assert EntryTracked(w, k); }
  }

  /** A load ends without its entry ever counting bytes: a rollback or a failure. */
  lemma AbandonedKeepsSound(w: World, v: World, op: OpId, k: ModelKey, cfg: Config, external: nat)
    requires Owned(w) && Phased(w) && Sound(w, cfg, external) && Moves(w, v, op) && !v.pcs[op].Loaded?
    requires op in w.c.reservations && w.c.reservations[op].key == k && v.c.reservations == w.c.reservations - {op}
    requires v.born == w.born && v.growing == w.growing - {op}
    requires v.settled == w.settled || (op in w.growing && v.settled == w.settled[op := w.growing[op].bytes])
    requires forall l :: l != k ==> (l in w.c.residents <==> l in v.c.residents)
    requires forall l :: l != k && l in w.c.residents ==> v.c.residents[l] == w.c.residents[l]
    requires k in v.c.residents ==> v.c.residents[k].vram == 0 && v.c.residents[k].materialized
    ensures Sound(v, cfg, external)
  {
    assert GrowthTracked(w, op) && Undisturbed(w.c, op) && EntryTracked(w, k);
    AbandonedTracked(w, v, op, k);
    AbandonedFits(w, v, op, k, cfg, external);
  }

  lemma AbandonedFits(w: World, v: World, op: OpId, k: ModelKey, cfg: Config, external: nat)
    requires Fits(w, cfg, external) && op in w.c.reservations && GrowthTracked(w, op)
    requires k in w.c.residents && EntryPending(w.c.residents[k]) == 0
    requires v.c.reservations == w.c.reservations - {op} && v.growing == w.growing - {op}
    requires v.settled == w.settled || (op in w.growing && v.settled == w.settled[op := w.growing[op].bytes])
    requires forall l :: l != k ==> (l in w.c.residents <==> l in v.c.residents)
    requires forall l :: l != k && l in w.c.residents ==> v.c.residents[l] == w.c.residents[l]
    requires k in v.c.residents ==> EntryPending(v.c.residents[k]) == 0
    ensures Fits(v, cfg, external)
  {
    SumRemove(w.c.reservations, op, ReservedPending);
    SumAgrees(w.c.residents, v.c.residents, EntryPending);
    if op in w.growing {
      SumRemove(w.growing, op, Limit);
      SumUpdate(w.settled, op, w.growing[op].bytes, Size);
      SumShrinks(w.settled, w.settled - {op}, Size);
    } else {
      assert v.growing == w.growing;
    }
  }

  lemma AbandonedTracked(w: World, v: World, op: OpId, k: ModelKey)
    requires Owned(w) && Phased(w) && Tracked(w) && Moves(w, v, op) && !v.pcs[op].Loaded?
    requires op in w.c.reservations && w.c.reservations[op].key == k && v.c.reservations == w.c.reservations - {op}
    requires v.born == w.born && v.growing == w.growing - {op}
    requires forall l :: l != k ==> (l in w.c.residents <==> l in v.c.residents)
    requires forall l :: l != k && l in w.c.residents ==> v.c.residents[l] == w.c.residents[l]
    requires k in v.c.residents ==> v.c.residents[k].vram == 0 && v.c.residents[k].materialized
    ensures Tracked(v)
  {
    assert Undisturbed(w.c, op) && EntryTracked(w, k);
    forall o ensures GrowthTracked(v, o) { assert GrowthTracked(w, o); }
    forall l ensures EntryTracked(v, l) { assert EntryTracked(w, l); }
  }

  /** A deferred commit moves the promise from the reservation to the entry. */
  lemma CommitKeepsSound(w: World, op: OpId, k: ModelKey, size: nat, deferred: bool, cfg: Config, external: nat)
    requires Owned(w) && Phased(w) && Sound(w, cfg, external) && op in w.pcs && w.pcs[op] == Loaded(k, size, deferred)
    requires op in w.c.reservations && k in w.c.residents
    ensures Sound(OnCommit(w, op, k, size, deferred), cfg, external)
  {
    var v := OnCommit(w, op, k, size, deferred);
    assert OwnsReservation(w.c.reservations, w.pcs, op) && GrowthTracked(w, op);
    assert Undisturbed(w.c, op) && EntryTracked(w, k);
    CommitKeepsFits(w, OnCommit(w, op, k, size, deferred), op, k, cfg, external);
    CommitTracked(w, op, k, size, deferred);
  }

  lemma CommitKeepsFits(w: World, v: World, op: OpId, k: ModelKey, cfg: Config, external: nat)
    requires Fits(w, cfg, external) && op in w.c.reservations && k in w.c.residents && k in v.c.residents
    requires v.c.reservations == w.c.reservations - {op} && v.c.residents == w.c.residents[k := v.c.residents[k]]
    requires v.growing == w.growing && v.settled == w.settled
    requires EntryPending(w.c.residents[k]) == 0
    requires EntryPending(v.c.residents[k]) == ReservedPending(w.c.reservations[op])
    ensures Fits(v, cfg, external)
  {
    SumRemove(w.c.reservations, op, ReservedPending);
    SumUpdate(w.c.residents, k, v.c.residents[k], EntryPending);
  }

  lemma CommitTracked(w: World, op: OpId, k: ModelKey, size: nat, deferred: bool)
    requires Owned(w) && Phased(w) && Tracked(w) && op in w.pcs && w.pcs[op] == Loaded(k, size, deferred)
    requires op in w.c.reservations && k in w.c.residents
    ensures Tracked(OnCommit(w, op, k, size, deferred))
  {
    assert OwnsReservation(w.c.reservations, w.pcs, op) && GrowthTracked(w, op);
    assert Undisturbed(w.c, op) && EntryTracked(w, k);
    ReservationNeverLost(w, op);
    hide Owned, Phased, Tracked;
    PromiseMoves(w, OnCommit(w, op, k, size, deferred), op, k);
  }

  /** A load's promise becomes its entry's. */
  lemma PromiseMoves(w: World, v: World, op: OpId, k: ModelKey)
    requires Tracked(w) && Moves(w, v, op) && !v.pcs[op].Loaded? && v.growing == w.growing && v.born == w.born
    requires v.c.reservations == w.c.reservations - {op}
    requires k in w.c.residents && k in v.c.residents && v.c.residents == w.c.residents[k := v.c.residents[k]]
    requires w.c.residents[k].materialized && Creator(w, k) == Some(op) && v.c.residents[k].phase == Resident
    requires op in w.growing <==> !v.c.residents[k].materialized
    requires op in w.growing ==> w.growing[op].key == k && w.growing[op].limit == v.c.residents[k].vram
    ensures Tracked(v)
  {
    forall o ensures GrowthTracked(v, o) { assert GrowthTracked(w, o); }
    forall l ensures EntryTracked(v, l) { assert EntryTracked(w, l); }
  }

  // An entry leaves, and its process with it

  /** The creator of an entry that is not loading has no load in flight, and if its process is still
      growing, that entry is the one that counts it. */
  lemma CreatorsProcess(w: World, k: ModelKey)
    requires Owned(w) && Phased(w) && Tracked(w) && Creator(w, k).Some? && w.c.residents[k].phase != Loading
    ensures Creator(w, k).value !in w.c.reservations
    ensures Creator(w, k).value in w.growing ==> w.growing[Creator(w, k).value].key == k
    ensures Creator(w, k).value in w.growing <==> Unspawned(w.c, k)
  {
    var o := Creator(w, k).value;
    assert Undisturbed(w.c, o) && LoadsOwnEntry(w.c.reservations, w.born, o) && GrowthTracked(w, o) && EntryTracked(w, k);
    assert o in w.c.reservations ==> BirthOk(w.c, w.born, w.c.reservations[o].key);
  }

  lemma RemovedKeepsSound(w: World, v: World, k: ModelKey, cfg: Config, external: nat)
    requires Owned(w) && Phased(w) && Sound(w, cfg, external) && k in w.c.residents && w.c.residents[k].phase != Loading
    requires forall o :: o in w.pcs ==> o in v.pcs
    requires forall o :: o in v.pcs && v.pcs[o].Loaded? ==> o in w.pcs && w.pcs[o].Loaded?
    requires v.c == Finalize(w.c, k) && v.born == w.born
    requires v.growing == DropChild(w, k).growing && v.settled == DropChild(w, k).settled
    ensures Sound(v, cfg, external)
  {
    assert BirthOk(w.c, w.born, k);
    CreatorsProcess(w, k);
    var o := Creator(w, k).value;
    assert GrowthTracked(w, o);
    RemovedFits(w, v, k, o, cfg, external);
    RemovedTracked(w, v, k);
  }

  lemma RemovedFits(w: World, v: World, k: ModelKey, o: OpId, cfg: Config, external: nat)
    requires Fits(w, cfg, external) && k in w.c.residents
    requires EntryPending(w.c.residents[k]) == if o in w.growing then w.growing[o].limit else 0
    requires v.c == Finalize(w.c, k) && v.growing == w.growing - {o} && v.settled == w.settled - {o}
    ensures Fits(v, cfg, external)
  {
    SumRemove(w.c.residents, k, EntryPending);
    SumShrinks(w.settled, v.settled, Size);
    if o in w.growing { SumRemove(w.growing, o, Limit); } else { assert v.growing == w.growing; }
  }

  lemma RemovedTracked(w: World, v: World, k: ModelKey)
    requires Owned(w) && Phased(w) && Tracked(w) && k in w.c.residents && w.c.residents[k].phase != Loading
    requires forall o :: o in w.pcs ==> o in v.pcs
    requires forall o :: o in v.pcs && v.pcs[o].Loaded? ==> o in w.pcs && w.pcs[o].Loaded?
    requires v.c == Finalize(w.c, k) && v.born == w.born && v.growing == DropChild(w, k).growing
    ensures Tracked(v)
  {
    assert BirthOk(w.c, w.born, k);
    CreatorsProcess(w, k);
    forall o ensures GrowthTracked(v, o) { assert GrowthTracked(w, o); }
    forall l ensures EntryTracked(v, l) { assert EntryTracked(w, l); }
  }

  /** A rolled-back entry counts nothing when it leaves. */
  lemma UndoneKeepsSound(w: World, v: World, op: OpId, k: ModelKey, cfg: Config, external: nat)
    requires Sound(w, cfg, external) && Moves(w, v, op) && !v.pcs[op].Loaded?
    requires k in w.c.residents ==> w.c.residents[k].phase == RollingBack
    requires v.c == Finalize(w.c, k) && v.born == w.born && v.growing == w.growing && v.settled == w.settled
    ensures Sound(v, cfg, external)
  {
    assert EntryTracked(w, k);
    UndoneFits(w, v, k, cfg, external);
    UndoneTracked(w, v, op, k);
  }

  lemma UndoneFits(w: World, v: World, k: ModelKey, cfg: Config, external: nat)
    requires Fits(w, cfg, external) && (k in w.c.residents ==> EntryPending(w.c.residents[k]) == 0)
    requires v.c == Finalize(w.c, k) && v.growing == w.growing && v.settled == w.settled
    ensures Fits(v, cfg, external)
  {
    SumAgrees(w.c.residents, v.c.residents, EntryPending);
  }

  lemma UndoneTracked(w: World, v: World, op: OpId, k: ModelKey)
    requires Tracked(w) && Moves(w, v, op) && !v.pcs[op].Loaded?
    requires k in w.c.residents ==> w.c.residents[k].phase == RollingBack
    requires v.c == Finalize(w.c, k) && v.born == w.born && v.growing == w.growing
    ensures Tracked(v)
  {
    assert EntryTracked(w, k);
    forall o ensures GrowthTracked(v, o) { assert GrowthTracked(w, o); }
    forall l ensures EntryTracked(v, l) { assert EntryTracked(w, l); }
  }

  lemma StoppedKeepsSound(w: World, v: World, op: OpId, k: ModelKey, cfg: Config, external: nat)
    requires Sound(w, cfg, external) && Moves(w, v, op) && !v.pcs[op].Loaded? && v.c == w.c && v.born == w.born
    requires v.growing == StopChild(w, k).growing && v.settled == StopChild(w, k).settled
    ensures Sound(v, cfg, external)
  {
    StoppedFits(w, v, k, cfg, external);
    StoppedTracked(w, v, op, k);
  }

  lemma StoppedFits(w: World, v: World, k: ModelKey, cfg: Config, external: nat)
    requires Fits(w, cfg, external) && v.c == w.c
    requires v.growing == StopChild(w, k).growing && v.settled == StopChild(w, k).settled
    ensures Fits(v, cfg, external)
  {
    SumShrinks(w.settled, v.settled, Size);
    SumSame(w.growing, v.growing, Limit);
  }

  lemma StoppedTracked(w: World, v: World, op: OpId, k: ModelKey)
    requires Tracked(w) && Moves(w, v, op) && !v.pcs[op].Loaded? && v.c == w.c && v.born == w.born
    requires v.growing == StopChild(w, k).growing
    ensures Tracked(v)
  {
    forall o ensures GrowthTracked(v, o) {
      assert GrowthTracked(w, o);
      hide Tracked, EntryTracked;
    }
    forall l ensures EntryTracked(v, l) {
      assert EntryTracked(w, l);
      hide Tracked, GrowthTracked;
    }
  }

  lemma GrownKeepsSound(w: World, o: OpId, bytes: nat, cfg: Config, external: nat)
    requires Sound(w, cfg, external) && Enabled(w, Outside(Allocate(o, bytes)))
    requires Physical(w, cfg, external, Outside(Allocate(o, bytes)))
    ensures Sound(OutsideStep(w, Allocate(o, bytes)), cfg, external)
  {
    var v := OutsideStep(w, Allocate(o, bytes));
    SumSame(w.growing, v.growing, Limit);
    forall p ensures GrowthTracked(v, p) { assert GrowthTracked(w, p); }
    forall l ensures EntryTracked(v, l) { assert EntryTracked(w, l); }
  }

  lemma ReportedKeepsSound(w: World, k: ModelKey, measured: nat, cfg: Config, external: nat)
    requires Owned(w) && Phased(w) && Sound(w, cfg, external)
    requires Physical(w, cfg, external, Outside(ChildReported(k, measured)))
    ensures Sound(OnChildReported(w, k, measured), cfg, external)
  {
    if k !in w.c.residents || measured == 0 {
      assert OnChildReported(w, k, measured) == w;
    } else {
      CreatorsProcess(w, k);
      assert GrowthTracked(w, Creator(w, k).value);
      hide Owned, Phased, Tracked, Fits, OnChildReported;
      ReportedTracked(w, k, measured);
      ReportedFits(w, k, measured, cfg, external);
    }
  }

  lemma ReportedFits(w: World, k: ModelKey, measured: nat, cfg: Config, external: nat)
    requires Fits(w, cfg, external) && measured != 0 && Creator(w, k).Some? && GrowthTracked(w, Creator(w, k).value)
    requires Creator(w, k).value !in w.c.reservations && (Creator(w, k).value in w.growing ==> w.growing[Creator(w, k).value].key == k)
    requires Creator(w, k).value in w.growing <==> Unspawned(w.c, k)
    requires Physical(w, cfg, external, Outside(ChildReported(k, measured)))
    ensures Fits(OnChildReported(w, k, measured), cfg, external)
  {
    var v, o := OnChildReported(w, k, measured), Creator(w, k).value;
    SumUpdate(w.c.residents, k, v.c.residents[k], EntryPending);
    if o in w.growing {
      Settled(w, o, measured, v);
    } else {
      assert v.growing == w.growing && v.settled == w.settled;
    }
  }

  lemma ReportedTracked(w: World, k: ModelKey, measured: nat)
    requires Owned(w) && Phased(w) && Tracked(w) && measured != 0
    requires Creator(w, k).Some? && w.c.residents[k].phase !in {Loading, RollingBack}
    ensures Tracked(OnChildReported(w, k, measured))
  {
    var v := OnChildReported(w, k, measured);
    CreatorsProcess(w, k);
    forall p ensures GrowthTracked(v, p) { assert GrowthTracked(w, p); }
    forall l ensures EntryTracked(v, l) {
      assert EntryTracked(w, l);
      if l != k && Unspawned(w.c, l) { assert GrowthTracked(w, Creator(w, l).value); }
    }
  }

  // Every clean step the device allows keeps it

  lemma AdmitKeepsSound(w: World, cfg: Config, external: nat, op: OpId, a: AdmitEvent)
    requires Owned(w) && Sound(w, cfg, external) && AdmitEnabled(w, op, a) && Physical(w, cfg, external, Admit(op, a))
    ensures Sound(AdmitStep(w, cfg, op, a), cfg, external)
  {
    match a
    case Stage1(free, owner, victims) =>
      var req := w.pcs[op].req;
      Stage1KeepsSound(w, op, req, Decide(w.c, cfg, req.key, req.est, free, owner, victims), cfg, external);
    case WaitEnds => WaitKeepsSound(w, op, w.pcs[op].req, w.pcs[op].waiter, cfg, external);
    case _ => SoundMove(w, AdmitStep(w, cfg, op, a), op, cfg, external);
  }

  lemma Stage1KeepsSound(w: World, op: OpId, req: Request, plan: Plan, cfg: Config, external: nat)
    requires Owned(w) && Sound(w, cfg, external) && op in w.pcs && w.pcs[op] == Ready(req)
    requires plan.Share? ==> req.key in w.c.residents
    requires plan.Join? ==> plan.owner in w.c.reservations
    requires plan.LoadIt? ==> req.key !in w.c.residents
    requires plan.LoadIt? ==> req.est + Unmaterialized(w.c) + cfg.headroom <= LiveFree(w, cfg, external)
    ensures Sound(OnStage1(w, op, req, plan), cfg, external)
  {
    hide Fits, Tracked;
    if plan.LoadIt? {
      ReserveKeepsSound(w, op, req, cfg, external);
    } else if !plan.AwaitTransient? {
      SoundMove(w, OnStage1(w, op, req, plan), op, cfg, external);
    }
  }

  lemma WaitKeepsSound(w: World, op: OpId, req: Request, j: nat, cfg: Config, external: nat)
    requires Sound(w, cfg, external) && op in w.pcs && w.pcs[op] == Awaiting(req, j)
    ensures Sound(OnWaitEnds(w, op, req, j), cfg, external)
  {
    if j in w.c.waiters { SoundMove(w, OnWaitEnds(w, op, req, j), op, cfg, external); }
  }

  lemma LoadKeepsSound(w: World, cfg: Config, external: nat, op: OpId, l: LoadEvent)
    requires Owned(w) && Phased(w) && Sound(w, cfg, external) && LoadEnabled(w, op, l)
    requires Physical(w, cfg, external, Load(op, l))
    ensures Sound(LoadStep(w, cfg, op, l), cfg, external)
  {
    assert OwnsReservation(w.c.reservations, w.pcs, op);
    match l
    case Measured(bytes) => MeasuredKeepsSound(w, op, w.pcs[op].req, bytes, cfg, external);
    case Raised(childLeft) => RaisedKeepsSound(w, op, w.pcs[op].req, childLeft, cfg, external);
    case Commit => RecheckKeepsSound(w, op, w.pcs[op].key, w.pcs[op].size, w.pcs[op].deferred, cfg, external);
    case UndoFinalize => UndoFinalizeKeepsSound(w, op, w.pcs[op].key, w.pcs[op].verdict, cfg, external);
    case DisposeJoiners => SoundMove(w, OnDispose(w, op, w.pcs[op].verdict), op, cfg, external);
    case WakeJoiners => SoundMove(w, OnWake(w, op, w.pcs[op].key, w.pcs[op].claim, w.pcs[op].joiners), op, cfg, external);
    case _ => SameLoadHoldings(w, cfg, op, l); SoundMove(w, LoadStep(w, cfg, op, l), op, cfg, external);
  }

  lemma SameLoadHoldings(w: World, cfg: Config, op: OpId, l: LoadEvent)
    requires LoadEnabled(w, op, l) && (l.Deferred? || l.StopPartial? || l.UndoUnload?)
    ensures var v := LoadStep(w, cfg, op, l);
      v.c == w.c && v.growing == w.growing && v.born == w.born && Settles(w, v) && Moves(w, v, op)
    ensures LoadStep(w, cfg, op, l).pcs[op].Loaded? ==> l.Deferred?
  {
  }

  lemma UndoFinalizeKeepsSound(w: World, op: OpId, k: ModelKey, verdict: Disposition, cfg: Config, external: nat)
    requires Phased(w) && Sound(w, cfg, external) && op in w.pcs && w.pcs[op] == Undone(k, verdict)
    ensures Sound(OnUndoFinalize(w, op, k, verdict), cfg, external)
  {
    assert FinalizerOk(w, op) && StageFits(w.c, w.pcs[op], k);
    UndoneKeepsSound(w, OnUndoFinalize(w, op, k, verdict), op, k, cfg, external);
  }

  lemma RaisedKeepsSound(w: World, op: OpId, req: Request, childLeft: bool, cfg: Config, external: nat)
    requires Owned(w) && Phased(w) && Sound(w, cfg, external) && op in w.pcs && w.pcs[op] == LoadRunning(req)
    ensures Sound(OnRaised(w, op, req.key, childLeft), cfg, external)
  {
    assert OwnsReservation(w.c.reservations, w.pcs, op) && GrowthTracked(w, op);
    assert Undisturbed(w.c, op);
    AbandonedKeepsSound(w, OnRaised(w, op, req.key, childLeft), op, req.key, cfg, external);
  }

  lemma RecheckKeepsSound(w: World, op: OpId, k: ModelKey, size: nat, deferred: bool, cfg: Config, external: nat)
    requires Owned(w) && Phased(w) && Sound(w, cfg, external) && op in w.pcs && w.pcs[op] == Loaded(k, size, deferred)
    ensures Sound(OnRecheck(w, cfg, op, k, size, deferred), cfg, external)
  {
    ReservationNeverLost(w, op);
    assert OwnsReservation(w.c.reservations, w.pcs, op);
    assert w.c.reservations[op].key == k;
    hide Owned, Phased, Sound, Objection, Undisturbed, OwnsReservation, EntryTracked;
    var objection := Objection(w.c, cfg, op, k, size);
    if objection == Unset && k in w.c.residents {
      CommitKeepsSound(w, op, k, size, deferred, cfg, external);
    } else {
      UndoKeepsSound(w, op, k, objection, cfg, external);
    }
  }

  lemma UndoKeepsSound(w: World, op: OpId, k: ModelKey, verdict: Disposition, cfg: Config, external: nat)
    requires Owned(w) && Phased(w) && Sound(w, cfg, external) && op in w.pcs
    requires op in w.c.reservations && w.c.reservations[op].key == k
    ensures Sound(OnUndo(w, op, k, verdict), cfg, external)
  {
    assert EntryTracked(w, k) && Undisturbed(w.c, op);
    hide Owned, Phased, Sound;
    AbandonedKeepsSound(w, OnUndo(w, op, k, verdict), op, k, cfg, external);
  }

  lemma RemoveKeepsSound(w: World, op: OpId, goal: Option<Request>, k: ModelKey, rest: seq<ModelKey>, cfg: Config, external: nat)
    requires Owned(w) && Phased(w) && Sound(w, cfg, external) && op in w.pcs && w.pcs[op] == Unloaded(goal, k, rest)
    ensures Sound(OnEvictFinalize(w, op, goal, k, rest), cfg, external)
  {
    var v := OnEvictFinalize(w, op, goal, k, rest);
    assert FinalizerOk(w, op) && StageFits(w.c, w.pcs[op], k);
    if k in w.c.residents {
      RemovedKeepsSound(w, v, k, cfg, external);
    } else {
      assert v.c.residents == w.c.residents;
      SoundMove(w, v, op, cfg, external);
    }
  }

  lemma EvictKeepsSound(w: World, cfg: Config, external: nat, op: OpId, e: EvictEvent)
    requires Owned(w) && Phased(w) && Sound(w, cfg, external) && EvictEnabled(w, op, e)
    ensures Sound(EvictStep(w, op, e), cfg, external)
  {
    match e
    case Unload => StoppedKeepsSound(w, EvictStep(w, op, e), op, w.pcs[op].key, cfg, external);
    case Remove => RemoveKeepsSound(w, op, w.pcs[op].goal, w.pcs[op].key, w.pcs[op].rest, cfg, external);
    case _ => SameEvictHoldings(w, op, e); SoundMove(w, EvictStep(w, op, e), op, cfg, external);
  }

  lemma PhaseHoldings(c: Coord, k: ModelKey, p: Phase)
    requires k in c.residents && (p in {Loading, RollingBack} ==> c.residents[k].phase in {Loading, RollingBack})
    ensures SameHoldings(c, SetPhase(c, k, p))
  {
  }

  lemma NextHoldings(c: Coord, k: ModelKey)
    ensures SameHoldings(c, BeginEvict(c, k))
  {
    if k in c.residents {
      PhaseHoldings(c, k, Draining);
      hide SetPhase;
    }
  }

  lemma PollHoldings(c: Coord, k: ModelKey, expired: bool)
    ensures SameHoldings(c, DrainStep(c, k, expired))
  {
    if k in c.residents {
      PhaseHoldings(c, k, Evicting);
      PhaseHoldings(c, k, Resident);
      hide SetPhase;
    }
  }

  lemma SameEvictHoldings(w: World, op: OpId, e: EvictEvent)
    requires EvictEnabled(w, op, e) && !e.Unload? && !e.Remove?
    ensures var v := EvictStep(w, op, e);
      SameHoldings(w.c, v.c) && v.growing == w.growing && v.born == w.born && v.settled == w.settled && Moves(w, v, op)
    ensures !EvictStep(w, op, e).pcs[op].Loaded?
  {
    match e
    case Next => hide BeginEvict, SameHoldings; NextHoldings(w.c, w.pcs[op].rest[0]);
    case Poll(expired) => hide DrainStep, SameHoldings; PollHoldings(w.c, w.pcs[op].key, expired);
    case CloseUp =>
  }

  lemma BeginHoldings(c: Coord)
    ensures SameHoldings(c, BeginJob(c))
  {
  }

  lemma FinishHoldings(c: Coord, job: JobId, drained: bool)
    ensures SameHoldings(c, FinishJob(c, job, drained))
  {
  }

  lemma SameJobHoldings(w: World, op: OpId, j: JobEvent)
    ensures var v := JobStep(w, op, j);
      SameHoldings(w.c, v.c) && v.growing == w.growing && v.born == w.born && v.settled == w.settled && Moves(w, v, op)
    ensures !JobStep(w, op, j).pcs[op].Loaded?
  {
    match j
    case Begin => hide BeginJob, SameHoldings; BeginHoldings(w.c);
    case Collect(_) =>
    case Finish(job, drained) => hide FinishJob, SameHoldings; FinishHoldings(w.c, job, drained);
  }

  lemma JobKeepsSound(w: World, cfg: Config, external: nat, op: OpId, j: JobEvent)
    requires Sound(w, cfg, external) && JobEnabled(w, op, j)
    ensures Sound(JobStep(w, op, j), cfg, external)
  {
    SameJobHoldings(w, op, j);
    SoundMove(w, JobStep(w, op, j), op, cfg, external);
  }

  lemma OutsideKeepsSound(w: World, cfg: Config, external: nat, x: OutsideEvent)
    requires Owned(w) && Phased(w) && Sound(w, cfg, external) && Enabled(w, Outside(x))
    requires Clean(w, cfg, Outside(x)) && Physical(w, cfg, external, Outside(x))
    ensures Sound(OutsideStep(w, x), cfg, external)
  {
    match x
    case EndOfJob(which) => SoundStill(w, OutsideStep(w, x), cfg, external);
    case Forgotten(k) => if k in w.c.residents { RemovedKeepsSound(w, OutsideStep(w, x), k, cfg, external); }
    case ChildReported(k, measured) => ReportedKeepsSound(w, k, measured, cfg, external);
    case Allocate(op, bytes) => GrownKeepsSound(w, op, bytes, cfg, external);
  }

  lemma SoundKept(w: World, cfg: Config, external: nat, e: Event)
    requires Owned(w) && Phased(w) && Sound(w, cfg, external) && Enabled(w, e)
    requires Clean(w, cfg, e) && Physical(w, cfg, external, e)
    ensures Sound(Step(w, cfg, e), cfg, external)
  {
    match e
    case Admit(op, a) => AdmitKeepsSound(w, cfg, external, op, a);
    case Load(op, l) => LoadKeepsSound(w, cfg, external, op, l);
    case Evict(op, v) => EvictKeepsSound(w, cfg, external, op, v);
    case Job(op, j) => JobKeepsSound(w, cfg, external, op, j);
    case Outside(x) => OutsideKeepsSound(w, cfg, external, x);
  }
}
