/** The coordinator as one object: one method per critical section, each method
    performing in place the section function of the same name. */
module CoordinatorClass {
  import opened Common
  import opened CoordinatorState
  import opened CoordinatorWorld
  import opened VictimSelection
  import opened CoordinatorDecisions

  class Coordinator {
    const cfg: Config
    var residents: map<ModelKey, Entry>
    var reservations: map<OpId, Reservation>
    var exclusive: Option<JobId>
    var barrier: bool
    var generation: map<ModelKey, nat>
    var claims: map<ModelKey, set<nat>>
    var waiters: map<nat, Waiter>
    var live: map<OpId, nat>
    var custody: map<OpId, seq<nat>>
    var intent: map<OpId, seq<ModelKey>>
    var nextClaim: nat
    var nextTicket: nat
    var nextWaiter: nat

    function View(): Coord
      reads this
    {
      Coord(residents, reservations, exclusive, barrier, generation, claims, waiters, live, custody, intent,
            nextClaim, nextTicket, nextWaiter)
    }

    constructor (config: Config)
      ensures cfg == config && View() == EMPTY
    {
      cfg := config;
      residents, reservations, generation, claims := map[], map[], map[], map[];
      exclusive, barrier := None, false;
      waiters, live, custody, intent := map[], map[], map[], map[];
      nextClaim, nextTicket, nextWaiter := 1, 1, 0;
    }

    // Claims

    method Grant(k: ModelKey) returns (claim: nat)
      requires k in residents
      modifies this
      ensures View() == GrantClaim(old(View()), k) && claim == old(nextClaim)
      // one request more, one fresh claim, and the entry the latest used
      ensures residents == old(residents)[k := old(residents)[k].(active := old(residents)[k].active + 1, recency := old(nextTicket))]
      ensures k in claims && claims == old(claims)[k := claims[k]]
      ensures claims[k] == (if k in old(claims) then old(claims)[k] else {}) + {claim}
      ensures nextClaim == claim + 1 && nextTicket == old(nextTicket) + 1
    {
      var e := residents[k];
      residents := residents[k := e.(active := e.active + 1, recency := nextTicket)];
      nextTicket := nextTicket + 1;
      claim := nextClaim;
      nextClaim := nextClaim + 1;
      claims := claims[k := (if k in claims then claims[k] else {}) + {claim}];
    }

    method Release(k: ModelKey, claim: nat)
      modifies this
      ensures View() == ReleaseClaim(old(View()), k, claim)
      // one request less, never below none, and the entry the latest used
      ensures k in old(residents) ==>
        && residents == old(residents)[k := residents[k]] && nextTicket == old(nextTicket) + 1
        && residents[k] == old(residents)[k].(active := residents[k].active, recency := old(nextTicket))
        && residents[k].active == (if old(residents)[k].active > 0 then old(residents)[k].active - 1 else 0)
      ensures k !in old(residents) ==> residents == old(residents) && nextTicket == old(nextTicket)
      ensures k in old(claims) ==> claims == old(claims)[k := old(claims)[k] - {claim}]
    {
      if k in residents {
        var e := residents[k];
        residents := residents[k := e.(active := if e.active == 0 then 0 else e.active - 1, recency := nextTicket)];
        nextTicket := nextTicket + 1;
      }
      if k in claims { claims := claims[k := claims[k] - {claim}]; }
    }

    // Stage 1

    method AccountedBytes() returns (bytes: nat)
      ensures bytes == Accounted(View())
    {
      var resident := Total(residents, EntryBytes);
      var reserved := Total(reservations, ReservedBytes);
      bytes := resident + reserved;
    }

    method UnmaterializedBytes() returns (bytes: nat)
      ensures bytes == Unmaterialized(View())
    {
      var reserved := Total(reservations, ReservedPending);
      var resident := Total(residents, EntryPending);
      bytes := reserved + resident;
    }

    /** The first reservation met for `k`, if there is one. */
    method ReservationFor(k: ModelKey) returns (owner: Option<OpId>)
      ensures owner.Some? ==> LoadInFlight(View(), owner.value, k)
      ensures owner.None? ==> forall o :: !LoadInFlight(View(), o, k)
    {
      var rest := reservations.Keys;
      while rest != {}
        invariant rest <= reservations.Keys
        invariant forall o :: o in reservations && o !in rest ==> reservations[o].key != k
        decreases rest
      {
        var o :| o in rest;
        if reservations[o].key == k { return Some(o); }
        rest := rest - {o};
      }
      return None;
    }

    method MarkDraining(victims: seq<ModelKey>) returns (marked: map<ModelKey, Entry>)
      requires forall v :: v in victims ==> v in residents
      ensures marked == map k | k in residents ::
        if k in victims then residents[k].(phase := Draining) else residents[k]
    {
      marked := residents;
      for i := 0 to |victims|
        invariant marked.Keys == residents.Keys
        invariant forall k :: k in residents ==>
          marked[k] == if k in victims[..i] then residents[k].(phase := Draining) else residents[k]
      {
        marked := marked[victims[i] := marked[victims[i]].(phase := Draining)];
      }
      assert victims[..|victims|] == victims;
    }

    /** The plan made is the decision for the reservation met and the victims selected, and the state
        becomes what that plan makes of it. */
    method Stage1(op: OpId, k: ModelKey, est: nat, free: nat) returns (plan: Plan)
      modifies this
      ensures exists owner, victims ::
        && AreVictims(old(View()), k, victims)
        && plan == Decide(old(View()), cfg, k, est, free, owner, victims)
        && ((exists o :: LoadInFlight(old(View()), o, k)) ==> LoadInFlight(old(View()), owner, k))
      ensures plan.Mark? ==> Known(old(View()), plan.victims) && Suffices(old(View()), cfg, est, free, plan.victims)
      ensures plan.Reject? && !Barred(old(View())) ==>
        forall vs :: vs != [] && Known(old(View()), vs) && AreVictims(old(View()), k, vs) ==>
          !Suffices(old(View()), cfg, est, free, vs)
      ensures plan.Share? ==> k in old(residents)
      ensures plan.Join? ==> plan.owner in old(reservations)
      ensures View() == ApplyPlan(old(View()), op, k, est, plan)
      // the one right answer, and what it does, said of the tables alone
      ensures RightPlan(old(View()), cfg, k, est, free, plan) && RightEffect(old(View()), View(), op, k, est, plan)
      ensures old(exclusive).None? && !old(barrier) ==>
        (plan.Share? <==> k in old(residents) && old(residents)[k].phase == Resident)
      ensures old(exclusive).Some? || old(barrier) ==> plan == Reject(GpuBusy) && View() == old(View())
    {
      ghost var c := View();
      var owner, victims;
      plan, owner, victims := Plan1(k, est, free);
      LoadedIsInFlight(c, k);
      DecisionIsRight(c, cfg, k, est, free, owner, victims);
      EffectIsRight(c, op, k, est, plan);
      hide RightEffect, MakesRoom, RightVictims, CanMakeRoom, HasRoom, Suffices;
      match plan
      case Share => var _ := Grant(k);
      case Join(o) => Join(op, o);
      case LoadIt => Reserve(op, k, est);
      case Mark(vs) => Mark(op, vs);
      case _ =>
    }

    /** The decision alone. */
    method Plan1(k: ModelKey, est: nat, free: nat) returns (plan: Plan, owner: OpId, victims: seq<ModelKey>)
      ensures AreVictims(View(), k, victims) && plan == Decide(View(), cfg, k, est, free, owner, victims)
      ensures (exists o :: LoadInFlight(View(), o, k)) ==> LoadInFlight(View(), owner, k)
      ensures plan.Mark? ==> Known(View(), plan.victims) && Suffices(View(), cfg, est, free, plan.victims)
      ensures plan.Reject? && !Barred(View()) ==>
        forall vs :: vs != [] && Known(View(), vs) && AreVictims(View(), k, vs) ==> !Suffices(View(), cfg, est, free, vs)
      ensures victims != [] ==> RightVictims(View(), cfg, k, est, free, victims)
      ensures victims == [] && plan.Reject? && !Barred(View()) ==> !CanMakeRoom(View(), cfg, k, est, free)
    {
      hide RightVictims, CanMakeRoom, Suffices;
      var met := ReservationFor(k);
      owner, victims := if met.Some? then met.value else OpId(""), [];
      if exclusive.Some? || barrier { return Reject(GpuBusy), owner, []; }
      if k in residents {
        match residents[k].phase
        case Resident => return Share, owner, [];
        case Loading => return if met.Some? then Plan.Join(met.value) else AwaitTransient, owner, [];
        case _ => return AwaitTransient, owner, [];
      }
      var accounted := AccountedBytes();
      var unmaterialized := UnmaterializedBytes();
      if accounted + est <= cfg.Capacity() && est <= free - unmaterialized - cfg.headroom { return LoadIt, owner, []; }
      var listed := Listing(residents.Keys);
      victims := SelectVictims(View(), cfg, k, est, free, listed, accounted, unmaterialized);
      if victims != [] {
        VictimsAreRight(View(), cfg, k, est, free, victims);
      } else {
        NoVictimsNoRoom(View(), cfg, k, est, free);
      }
      plan :=
        if victims != [] then Plan.Mark(victims)
        else if est > cfg.Capacity() - cfg.headroom then Reject(ModelTooLarge)
        else Reject(GpuBusy);
    }

    method Join(op: OpId, owner: OpId)
      requires owner in reservations
      modifies this
      ensures View() == Join1(old(View()), op, owner)
    {
      var r := reservations[owner];
      waiters := waiters[nextWaiter := Waiter(op, Unset)];
      reservations := reservations[owner := r.(waiters := r.waiters + [nextWaiter])];
      live := live[op := nextWaiter];
      nextWaiter := nextWaiter + 1;
    }

    method Reserve(op: OpId, k: ModelKey, est: nat)
      modifies this
      ensures View() == CoordinatorState.Reserve(old(View()), op, k, est)
    {
      reservations := reservations[op := Reservation(k, est, if k in generation then generation[k] else 0, false, [])];
      residents := residents[k := Entry(Loading, 0, 0, nextTicket, true)];
      nextTicket := nextTicket + 1;
    }

    method Mark(op: OpId, victims: seq<ModelKey>)
      requires forall v :: v in victims ==> v in residents
      modifies this
      ensures View() == MarkVictims(old(View()), op, victims)
    {
      residents := MarkDraining(victims);
      intent := intent[op := victims];
    }

    // Stage 3

    method Materialize(op: OpId, size: nat)
      modifies this
      ensures View() == CoordinatorState.Materialize(old(View()), op, size)
      ensures reservations == if op in old(reservations)
        then old(reservations)[op := old(reservations)[op].(est := size, materialized := true)] else old(reservations)
    {
      if op in reservations {
        reservations := reservations[op := reservations[op].(est := size, materialized := true)];
      }
    }

    /** Why a finished load may not stay, if so. */
    method Recheck(op: OpId, k: ModelKey, size: nat) returns (verdict: Disposition)
      requires op in reservations
      ensures verdict == Objection(View(), cfg, op, k, size)
    {
      var others := Total(reservations - {op}, ReservedBytes);
      var residentTotal := Total(residents - {k}, EntryBytes);
      if exclusive.Some? || barrier { return Refused(GpuBusy); }
      if (if k in generation then generation[k] else 0) != reservations[op].generation { return Retry; }
      if residentTotal + size + others > cfg.Capacity() {
        return if size > cfg.Capacity() - cfg.headroom then Refused(ModelTooLarge) else Refused(GpuBusy);
      }
      return Unset;
    }

    /** The commit section. That a generation still current means an entry still there, and that each
        listed joiner is a distinct registered one, hold of every reachable state. */
    method Stage3(op: OpId, k: ModelKey, size: nat, deferred: bool) returns (outcome: Rechecked)
      requires op in reservations ==>
        && Distinct(reservations[op].waiters) && (forall j :: j in reservations[op].waiters ==> j in waiters)
        && (Gen(View(), k) == reservations[op].generation ==> k in residents)
      modifies this
      ensures op !in old(reservations) ==> outcome == Lost && View() == old(View())
      ensures op in old(reservations) ==>
        var objection := Objection(old(View()), cfg, op, k, size);
        if objection == Unset then
          outcome == Kept(old(nextClaim)) && k in old(residents) && View() == CommitLoad(old(View()), op, k, size, deferred)
        else outcome == Objected(objection) && View() == RollbackIntent(old(View()), op, k)
      // the one right outcome, and what it does, said of the tables alone
      ensures op in old(reservations) ==>
        && RightVerdict(old(View()), cfg, op, k, size, outcome)
        && (if outcome.Kept? then RightCommit(old(View()), View(), op, k, size, deferred) else RightRollback(old(View()), View(), op, k))
    {
      ghost var c := View();
      if op in reservations {
        VerdictIsRight(c, cfg, op, k, size);
        RollbackIsRight(c, op, k);
        if k in residents { CommitIsRight(c, op, k, size, deferred); }
      }
      hide RightVerdict, RightRollback, RightCommit, Distinct, CommitLoad, RollbackIntent;
      if op !in reservations { return Lost; }
      var objection := Recheck(op, k, size);
      if objection == Unset {
        var claim := Commit(op, k, size, deferred);
        outcome := Kept(claim);
      } else {
        Rollback(op, k);
        outcome := Objected(objection);
      }
    }

    method Rollback(op: OpId, k: ModelKey)
      requires op in reservations
      modifies this
      ensures View() == RollbackIntent(old(View()), op, k)
    {
      if k in residents { residents := residents[k := residents[k].(phase := RollingBack)]; }
      custody := custody[op := reservations[op].waiters];
      reservations := reservations - {op};
    }

    /** The loader's claim, then one for each joiner in turn. */
    method Commit(op: OpId, k: ModelKey, size: nat, deferred: bool) returns (mine: nat)
      requires op in reservations && k in residents
      requires Distinct(reservations[op].waiters) && forall j :: j in reservations[op].waiters ==> j in waiters
      modifies this
      ensures mine == old(nextClaim) && View() == CommitLoad(old(View()), op, k, size, deferred)
    {
      hide CommitLoad, GrantAll, HandClaims, LoaderGranted, AllGranted, ClaimsOf, Distinct;
      ghost var c := View();
      var ws := reservations[op].waiters;
      mine := GrantLoader(k, size, deferred);
      ghost var g := View();
      LoaderIsGranted(c, g, k, size, deferred);
      GrantJoiners(k, ws);
      GrantAllFrame(g, k, ws, |ws|);
      reservations := reservations - {op};
      CommitTables(c, op, k, size, deferred);
      CommitIsGranting(c, g, CommitLoad(c, op, k, size, deferred), op, k, size, deferred, ws);
    }

    method GrantLoader(k: ModelKey, size: nat, deferred: bool) returns (mine: nat)
      requires k in residents
      modifies this
      ensures mine == old(nextClaim)
      ensures residents == old(residents)[k := Entry(Resident, size, old(residents)[k].active + 1, old(nextTicket) + 1, !deferred)]
      ensures claims == old(claims)[k := ClaimsOf(old(View()), k) + {old(nextClaim)}]
      ensures View() == old(View()).(residents := residents, claims := claims,
                                     nextClaim := old(nextClaim) + 1, nextTicket := old(nextTicket) + 2)
    {
      ghost var c := View();
      residents := residents[k := Entry(Resident, size, residents[k].active, nextTicket, !deferred)];
      nextTicket := nextTicket + 1;
      mine := Grant(k);
      Overwritten(c.residents, k, Entry(Resident, size, c.residents[k].active, c.nextTicket, !deferred), residents[k]);
    }

    method GrantJoiners(k: ModelKey, ws: seq<nat>)
      requires k in residents && forall j :: j in ws ==> j in waiters
      modifies this
      ensures View() == GrantAll(old(View()), k, ws, |ws|)
    {
      ghost var c := View();
      for i := 0 to |ws|
        invariant View() == GrantAll(c, k, ws, i)
      {
        GrantTo(k, ws[i]);
      }
    }

    method GrantTo(k: ModelKey, j: nat)
      requires k in residents && j in waiters
      modifies this
      ensures View() == Granted(old(View()), k, j)
    {
      var claim := Grant(k);
      waiters := waiters[j := waiters[j].(disposition := Shared(claim))];
    }

    method FailLoad(op: OpId, k: ModelKey)
      modifies this
      ensures View() == CoordinatorState.FailLoad(old(View()), op, k)
      ensures reservations == old(reservations) - {op}
      ensures custody == old(custody)[op := if op in old(reservations) then old(reservations)[op].waiters else []]
      ensures var current := if k in old(generation) then old(generation)[k] else 0;
        if k in old(residents) && op in old(reservations) && current == old(reservations)[op].generation
        then residents == old(residents) - {k} && generation == old(generation)[k := current + 1]
        else residents == old(residents) && generation == old(generation)
    {
      custody := custody[op := if op in reservations then reservations[op].waiters else []];
      var current := if k in generation then generation[k] else 0;
      if k in residents && op in reservations && current == reservations[op].generation {
        residents := residents - {k};
        generation := generation[k := current + 1];
      }
      reservations := reservations - {op};
    }

    /** The closing section of a rollback and of an eviction. */
    method Finalize(k: ModelKey)
      modifies this
      ensures View() == CoordinatorState.Finalize(old(View()), k)
      ensures k !in residents && residents == old(residents) - {k} && reservations == old(reservations)
      ensures generation == old(generation)[k := (if k in old(generation) then old(generation)[k] else 0) + 1]
    {
      residents := residents - {k};
      generation := generation[k := (if k in generation then generation[k] else 0) + 1];
    }

    // Joiners

    method Dispose(ws: seq<nat>, d: Disposition, owner: OpId)
      requires forall j :: j in ws ==> j in waiters
      modifies this
      ensures View() == CoordinatorState.Dispose(old(View()), ws, d, owner)
      // whoever has no disposition gets this one; nobody's is overwritten; all are deregistered
      ensures waiters.Keys == old(waiters).Keys && custody == old(custody) - {owner}
      ensures forall j :: j in old(waiters) ==>
        waiters[j] == old(waiters)[j].(disposition := if j in ws && old(waiters)[j].disposition.Unset? then d else old(waiters)[j].disposition)
      ensures forall o :: o in live <==> o in old(live) && forall j :: j in ws ==> old(waiters)[j].op != o
    {
      ghost var c := View();
      DisposeEach(ws, d);
      custody := custody - {owner};
      DisposedAll(c, ws, d);
    }

    method DisposeEach(ws: seq<nat>, d: Disposition)
      requires forall j :: j in ws ==> j in waiters
      modifies this
      ensures View() == DisposeAll(old(View()), ws, |ws|, d)
    {
      ghost var c := View();
      for i := 0 to |ws|
        invariant View() == DisposeAll(c, ws, i, d)
      {
        DisposeOne(ws[i], d);
      }
    }

    method DisposeOne(j: nat, d: Disposition)
      requires j in waiters
      modifies this
      ensures View() == Disposed(old(View()), j, d)
    {
      if waiters[j].disposition == Unset { waiters := waiters[j := waiters[j].(disposition := d)]; }
      live := live - {waiters[j].op};
    }

    /** A joiner's own deadline, or its wake-up: the disposition it leaves with. */
    method EndWait(op: OpId, j: nat) returns (d: Disposition)
      requires j in waiters
      requires forall o :: o in reservations ==> Distinct(reservations[o].waiters)
      modifies this
      ensures View() == CoordinatorState.EndWait(old(View()), op, j)
      ensures d == waiters[j].disposition && d != Unset
      // a joiner that was answered leaves with that answer; one that was not refuses itself and is off every list
      ensures d == if old(waiters)[j].disposition.Unset? then Refused(GpuBusy) else old(waiters)[j].disposition
      ensures old(waiters)[j].disposition.Unset? ==>
        && (forall o :: o in reservations ==> j !in reservations[o].waiters)
        && (forall o, i :: o in old(reservations) && i in old(reservations)[o].waiters && i != j ==>
              o in reservations && i in reservations[o].waiters)
      ensures !old(waiters)[j].disposition.Unset? ==> reservations == old(reservations) && waiters == old(waiters)
      ensures live == old(live) - {op}
    {
      if waiters[j].disposition == Unset {
        Deregister(j);
        waiters := waiters[j := waiters[j].(disposition := Refused(GpuBusy))];
      }
      live := live - {op};
      d := waiters[j].disposition;
    }

    method Deregister(j: nat)
      requires forall o :: o in reservations ==> Distinct(reservations[o].waiters)
      modifies this`reservations
      ensures reservations == map o | o in old(reservations) ::
        old(reservations)[o].(waiters := Without(old(reservations)[o].waiters, j))
    {
      var table := reservations;
      var rest, after := table.Keys, table;
      while rest != {}
        invariant rest <= table.Keys && after.Keys == table.Keys
        invariant forall o :: o in table ==>
          after[o] == if o in rest then table[o] else table[o].(waiters := Without(table[o].waiters, j))
        decreases rest
      {
        var o :| o in rest;
        RemoveFirstOfDistinct(table[o].waiters, j);
        after := after[o := after[o].(waiters := RemoveFirst(after[o].waiters, j))];
        rest := rest - {o};
      }
      reservations := after;
    }

    // Eviction

    method BeginEvict(k: ModelKey)
      modifies this
      ensures View() == CoordinatorState.BeginEvict(old(View()), k)
      ensures residents == if k in old(residents) && old(residents)[k].phase.Resident?
        then old(residents)[k := old(residents)[k].(phase := Draining)] else old(residents)
    {
      if k in residents && residents[k].phase == Resident {
        residents := residents[k := residents[k].(phase := Draining)];
      }
    }

    method PollDrain(k: ModelKey, expired: bool) returns (verdict: DrainVerdict)
      modifies this
      ensures verdict == DrainCheck(old(View()), k, expired) && View() == DrainStep(old(View()), k, expired)
      ensures verdict.AlreadyGone? <==> k !in old(residents)
      ensures verdict.Drained? <==> k in old(residents) && old(residents)[k].active == 0
      ensures verdict.TimedOut? <==> k in old(residents) && old(residents)[k].active > 0 && expired
      ensures residents ==
        if verdict.Drained? then old(residents)[k := old(residents)[k].(phase := Evicting)]
        else if verdict.TimedOut? && exclusive.None? && !barrier then old(residents)[k := old(residents)[k].(phase := Resident)]
        else old(residents)
    {
      if k !in residents { return AlreadyGone; }
      if residents[k].active == 0 {
        residents := residents[k := residents[k].(phase := Evicting)];
        return Drained;
      }
      if !expired { return KeepWaiting; }
      if !barrier && exclusive.None? { residents := residents[k := residents[k].(phase := Resident)]; }
      return TimedOut;
    }

    method CloseIntent(op: OpId)
      modifies this
      ensures View() == CoordinatorState.CloseIntent(old(View()), op)
    {
      intent := intent - {op};
    }

    method Forget(k: ModelKey) returns (removed: bool)
      modifies this
      ensures removed == (k in old(residents)) && View() == CoordinatorState.Forget(old(View()), k)
      ensures residents == old(residents) - {k} && claims == old(claims) && reservations == old(reservations)
      ensures generation == if removed then old(generation)[k := (if k in old(generation) then old(generation)[k] else 0) + 1] else old(generation)
    {
      removed := k in residents;
      if removed { Finalize(k); }
    }

    method SetChild(k: ModelKey, measured: nat)
      modifies this
      ensures View() == CoordinatorState.SetChild(old(View()), k, measured)
      ensures residents == if k in old(residents) && measured != 0
        then old(residents)[k := old(residents)[k].(vram := measured, materialized := true)] else old(residents)
    {
      if k !in residents { return; }
      if measured != 0 { residents := residents[k := residents[k].(vram := measured, materialized := true)]; }
    }

    // Exclusive jobs

    method Rephase(from: Phase, to: Phase) returns (after: map<ModelKey, Entry>)
      requires from != to
      ensures after == SwapPhase(residents, from, to)
    {
      var rest := residents.Keys;
      after := residents;
      while rest != {}
        invariant rest <= residents.Keys && after.Keys == residents.Keys
        invariant forall k :: k in residents ==>
          after[k] == if k !in rest && residents[k].phase == from then residents[k].(phase := to) else residents[k]
        decreases rest
      {
        var k :| k in rest;
        if after[k].phase == from { after := after[k := after[k].(phase := to)]; }
        rest := rest - {k};
      }
    }

    method BeginJob() returns (mine: bool)
      modifies this
      ensures mine == !Barred(old(View())) && View() == CoordinatorState.BeginJob(old(View()))
      ensures mine <==> old(exclusive).None? && !old(barrier)
      ensures !mine ==> View() == old(View())
      ensures mine ==> barrier && exclusive.None? && residents.Keys == old(residents).Keys && forall k :: k in residents ==>
        residents[k] == if old(residents)[k].phase.Resident? then old(residents)[k].(phase := Draining) else old(residents)[k]
    {
      if exclusive.Some? || barrier { return false; }
      barrier := true;
      residents := Rephase(Resident, Draining);
      return true;
    }

    method FinishJob(job: JobId, drained: bool) returns (started: bool)
      modifies this
      ensures started == JobMayStart(old(View()), drained) && View() == CoordinatorState.FinishJob(old(View()), job, drained)
      ensures started <==> drained && old(residents) == map[] && old(reservations) == map[]
      ensures !barrier && exclusive == if started then Some(job) else old(exclusive)
      ensures started ==> residents == map[]
      ensures !started ==> residents.Keys == old(residents).Keys && forall k :: k in residents ==>
        residents[k] == if old(residents)[k].phase.Draining? then old(residents)[k].(phase := Resident) else old(residents)[k]
    {
      if !drained || residents != map[] || reservations != map[] {
        residents := Rephase(Draining, Resident);
        barrier := false;
        return false;
      }
      exclusive := Some(job);
      barrier := false;
      return true;
    }

    method EndJob(job: Option<JobId>)
      modifies this
      ensures View() == CoordinatorState.EndJob(old(View()), job)
      // the end of the job that holds the device frees it; the end of another leaves it alone
      ensures job.None? || old(exclusive) == job ==> exclusive.None?
      ensures job.Some? && old(exclusive) != job ==> exclusive == old(exclusive)
      ensures residents == old(residents) && reservations == old(reservations) && barrier == old(barrier)
    {
      if job.None? || exclusive == job { exclusive := None; }
    }
  }

  // The commit's loop

  predicate AreWaiters(ws: seq<nat>, waiters: map<nat, Waiter>) { forall j :: j in ws ==> j in waiters }

  function Granted(c: Coord, k: ModelKey, j: nat): Coord
    requires k in c.residents && j in c.waiters
  {
    GrantClaim(c, k).(waiters := c.waiters[j := c.waiters[j].(disposition := Shared(c.nextClaim))])
  }

  /** Claims granted to the first `n` of `ws`, in turn. */
  function GrantAll(c: Coord, k: ModelKey, ws: seq<nat>, n: nat): (d: Coord)
    requires k in c.residents && n <= |ws| && AreWaiters(ws, c.waiters)
    ensures k in d.residents && d.waiters.Keys == c.waiters.Keys
  {
    if n == 0 then c else Granted(GrantAll(c, k, ws, n - 1), k, ws[n - 1])
  }

  // What granting leaves, table by table

  /** Everything else stays as it was, and the counters advance by one for each. */
  lemma {:induction false} GrantAllFrame(c: Coord, k: ModelKey, ws: seq<nat>, n: nat)
    requires k in c.residents && n <= |ws| && AreWaiters(ws, c.waiters)
    ensures var d := GrantAll(c, k, ws, n);
      d == c.(residents := d.residents, claims := d.claims, waiters := d.waiters, nextClaim := c.nextClaim + n, nextTicket := c.nextTicket + n)
  {
    hide AreWaiters, GrantAll;
    GrantAllUnfolds(c, k, ws, n);
    if n > 0 { GrantAllFrame(c, k, ws, n - 1); }
  }

  lemma GrantAllUnfolds(c: Coord, k: ModelKey, ws: seq<nat>, n: nat)
    requires k in c.residents && n <= |ws| && AreWaiters(ws, c.waiters)
    ensures GrantAll(c, k, ws, n) == if n == 0 then c else Granted(GrantAll(c, k, ws, n - 1), k, ws[n - 1])
  {
  }

  lemma GrantAllCounts(c: Coord, k: ModelKey, ws: seq<nat>, n: nat)
    requires k in c.residents && n <= |ws| && AreWaiters(ws, c.waiters)
    ensures GrantAll(c, k, ws, n).nextClaim == c.nextClaim + n && GrantAll(c, k, ws, n).nextTicket == c.nextTicket + n
  {
    hide GrantAll;
    GrantAllFrame(c, k, ws, n);
  }

  lemma IsWaiter(ws: seq<nat>, waiters: map<nat, Waiter>, i: nat)
    requires i < |ws| && AreWaiters(ws, waiters)
    ensures ws[i] in waiters
  {
  }

  /** `d` is `b` with one more grant, the one that takes claim `claim` and ticket `ticket`. */
  predicate OneMore(b: Coord, d: Coord, k: ModelKey, j: nat, claim: nat, ticket: nat) {
    && k in b.residents && j in b.waiters
    && d.residents == b.residents[k := b.residents[k].(active := b.residents[k].active + 1, recency := ticket)]
    && d.claims == b.claims[k := ClaimsOf(b, k) + {claim}]
    && d.waiters == b.waiters[j := b.waiters[j].(disposition := Shared(claim))]
  }

  lemma GrantedOnce(b: Coord, k: ModelKey, j: nat)
    requires k in b.residents && j in b.waiters
    ensures OneMore(b, Granted(b, k, j), k, j, b.nextClaim, b.nextTicket)
  {
  }

  lemma GrantOneMore(c: Coord, k: ModelKey, ws: seq<nat>, n: nat)
    requires k in c.residents && 0 < n <= |ws| && AreWaiters(ws, c.waiters)
    ensures OneMore(GrantAll(c, k, ws, n - 1), GrantAll(c, k, ws, n), k, ws[n - 1], c.nextClaim + n - 1, c.nextTicket + n - 1)
  {
    hide *;
    var b, j := GrantAll(c, k, ws, n - 1), ws[n - 1];
    IsWaiter(ws, c.waiters, n - 1);
    GrantAllCounts(c, k, ws, n - 1);
    GrantedOnce(b, k, j);
    GrantAllUnfolds(c, k, ws, n);
  }

  lemma {:induction false} GrantAllResidents(c: Coord, k: ModelKey, ws: seq<nat>, n: nat)
    requires k in c.residents && n <= |ws| && AreWaiters(ws, c.waiters)
    ensures var e := c.residents[k];
      GrantAll(c, k, ws, n).residents == c.residents[k := e.(active := e.active + n,
        recency := if n == 0 then e.recency else c.nextTicket + n - 1)]
  {
    hide AreWaiters, GrantAll;
    if n == 0 {
      GrantAllUnfolds(c, k, ws, n);
    } else {
      GrantAllResidents(c, k, ws, n - 1);
      GrantOneMore(c, k, ws, n);
      UpdatedTwice(c.residents, k, GrantAll(c, k, ws, n - 1).residents, GrantAll(c, k, ws, n).residents);
    }
  }

  lemma UpdatedTwice<K, V>(m: map<K, V>, k: K, m1: map<K, V>, m2: map<K, V>)
    requires k in m1 && k in m2 && m1 == m[k := m1[k]] && m2 == m1[k := m2[k]]
    ensures m2 == m[k := m2[k]]
  {
  }

  /** `s` with `n` claims added in turn. */
  function Added(s: set<nat>, first: nat, n: nat): set<nat> {
    if n == 0 then s else Added(s, first, n - 1) + {first + n - 1}
  }

  lemma {:induction false} AddedIsRange(s: set<nat>, first: nat, n: nat)
    ensures Added(s + {first}, first + 1, n) == s + ClaimRange(first, 1 + n)
  {
    if n > 0 {
      AddedIsRange(s, first, n - 1);
      assert ClaimRange(first, 1 + n) == ClaimRange(first, n) + {first + n};
      hide ClaimRange;
    }
  }

  lemma {:induction false} GrantAllClaims(c: Coord, k: ModelKey, ws: seq<nat>, n: nat)
    requires k in c.residents && k in c.claims && n <= |ws| && AreWaiters(ws, c.waiters)
    ensures GrantAll(c, k, ws, n).claims == c.claims[k := Added(c.claims[k], c.nextClaim, n)]
  {
    hide AreWaiters, GrantAll, ClaimsOf;
    if n == 0 {
      GrantAllUnfolds(c, k, ws, n);
    } else {
      GrantAllClaims(c, k, ws, n - 1);
      GrantOneMore(c, k, ws, n);
      assert ClaimsOf(GrantAll(c, k, ws, n - 1), k) == GrantAll(c, k, ws, n - 1).claims[k] by { KnownClaims(GrantAll(c, k, ws, n - 1), k); }
      UpdatedTwice(c.claims, k, GrantAll(c, k, ws, n - 1).claims, GrantAll(c, k, ws, n).claims);
    }
  }

  lemma KnownClaims(c: Coord, k: ModelKey)
    requires k in c.claims
    ensures ClaimsOf(c, k) == c.claims[k]
  {
  }

  /** The first `n` of `ws` have been handed their claims. */
  function HandUpto(waiters: map<nat, Waiter>, ws: seq<nat>, first: nat, n: nat): map<nat, Waiter>
    requires n <= |ws|
  {
    map w | w in waiters ::
      if IndexOf(ws, w) < n then waiters[w].(disposition := Shared(first + IndexOf(ws, w))) else waiters[w]
  }

  lemma HandOneMore(waiters: map<nat, Waiter>, ws: seq<nat>, first: nat, n: nat)
    requires 0 < n <= |ws| && Distinct(ws) && AreWaiters(ws, waiters)
    ensures var j, h := ws[n - 1], HandUpto(waiters, ws, first, n - 1);
      j in h && HandUpto(waiters, ws, first, n) == h[j := h[j].(disposition := Shared(first + n - 1))]
  {
    assert IndexOf(ws, ws[n - 1]) == n - 1;
    forall w ensures IndexOf(ws, w) == n - 1 <==> w == ws[n - 1] {}
  }

  lemma {:induction false} GrantAllWaiters(c: Coord, k: ModelKey, ws: seq<nat>, n: nat)
    requires k in c.residents && n <= |ws| && Distinct(ws) && AreWaiters(ws, c.waiters)
    ensures GrantAll(c, k, ws, n).waiters == HandUpto(c.waiters, ws, c.nextClaim, n)
  {
    hide AreWaiters, GrantAll, HandUpto, Distinct;
    if n == 0 {
      GrantAllUnfolds(c, k, ws, n);
      HandedNone(c.waiters, ws, c.nextClaim);
    } else {
      GrantAllWaiters(c, k, ws, n - 1);
      GrantOneMore(c, k, ws, n);
      HandOneMore(c.waiters, ws, c.nextClaim, n);
    }
  }

  lemma HandedNone(waiters: map<nat, Waiter>, ws: seq<nat>, first: nat)
    ensures HandUpto(waiters, ws, first, 0) == waiters
  {
  }

  lemma HandedAll(waiters: map<nat, Waiter>, ws: seq<nat>, first: nat)
    ensures HandUpto(waiters, ws, first, |ws|) == HandClaims(waiters, ws, first)
  {
  }

  /** `g` is `c` with the entry resident and the loader's claim granted. */
  predicate LoaderGranted(c: Coord, g: Coord, k: ModelKey, size: nat, deferred: bool) {
    && k in c.residents
    && g == c.(residents := g.residents, claims := g.claims, nextClaim := c.nextClaim + 1, nextTicket := c.nextTicket + 2)
    && g.residents == c.residents[k := Entry(Resident, size, c.residents[k].active + 1, c.nextTicket + 1, !deferred)]
    && g.claims == c.claims[k := ClaimsOf(c, k) + {c.nextClaim}]
  }

  lemma LoaderIsGranted(c: Coord, g: Coord, k: ModelKey, size: nat, deferred: bool)
    requires k in c.residents
    requires g.residents == c.residents[k := Entry(Resident, size, c.residents[k].active + 1, c.nextTicket + 1, !deferred)]
    requires g.claims == c.claims[k := ClaimsOf(c, k) + {c.nextClaim}]
    requires g == c.(residents := g.residents, claims := g.claims, nextClaim := c.nextClaim + 1, nextTicket := c.nextTicket + 2)
    ensures LoaderGranted(c, g, k, size, deferred)
  {
  }

  /** `e` is `c` with the entry resident and a claim granted to the loader and to each of `ws`. */
  predicate AllGranted(c: Coord, e: Coord, op: OpId, k: ModelKey, size: nat, deferred: bool, ws: seq<nat>) {
    && k in c.residents
    && e == c.(residents := e.residents, claims := e.claims, waiters := e.waiters, reservations := c.reservations - {op},
               nextClaim := c.nextClaim + 1 + |ws|, nextTicket := c.nextTicket + 2 + |ws|)
    && e.residents == c.residents[k := Entry(Resident, size, c.residents[k].active + 1 + |ws|, c.nextTicket + 1 + |ws|, !deferred)]
    && e.claims == c.claims[k := Added(ClaimsOf(c, k) + {c.nextClaim}, c.nextClaim + 1, |ws|)]
    && e.waiters == HandClaims(c.waiters, ws, c.nextClaim + 1)
  }

  lemma CommitTables(c: Coord, op: OpId, k: ModelKey, size: nat, deferred: bool)
    requires op in c.reservations && k in c.residents
    ensures AllGranted(c, CommitLoad(c, op, k, size, deferred), op, k, size, deferred, c.reservations[op].waiters)
  {
    hide HandClaims, ClaimRange, Added, ClaimsOf;
    AddedIsRange(ClaimsOf(c, k), c.nextClaim, |c.reservations[op].waiters|);
  }

  lemma Overwritten<K, V>(m: map<K, V>, k: K, a: V, b: V)
    ensures m[k := a][k := b] == m[k := b]
  {
  }

  /** `n` is `m` with `v` under `k`, point by point. */
  ghost predicate OnlyAt<K(!new), V>(m: map<K, V>, n: map<K, V>, k: K, v: V) {
    && k in n && n[k] == v
    && forall l :: l != k ==> (l in m <==> l in n) && (l in m ==> n[l] == m[l])
  }

  lemma UpdateIsOnlyAt<K(!new), V>(m: map<K, V>, n: map<K, V>, k: K, v: V)
    ensures n == m[k := v] <==> OnlyAt(m, n, k, v)
  {
  }

  lemma OnlyAtTwice<K(!new), V>(m: map<K, V>, n: map<K, V>, p: map<K, V>, k: K, u: V, v: V)
    requires OnlyAt(m, n, k, u) && OnlyAt(n, p, k, v)
    ensures OnlyAt(m, p, k, v)
  {
  }

  lemma CommitResidents(c: Coord, g: Coord, k: ModelKey, size: nat, deferred: bool, ws: seq<nat>)
    requires k in c.residents && k in g.residents && AreWaiters(ws, g.waiters)
    requires OnlyAt(c.residents, g.residents, k, Entry(Resident, size, c.residents[k].active + 1, c.nextTicket + 1, !deferred))
    requires g.residents[k] == Entry(Resident, size, c.residents[k].active + 1, c.nextTicket + 1, !deferred)
    requires g.nextTicket == c.nextTicket + 2
    ensures OnlyAt(c.residents, GrantAll(g, k, ws, |ws|).residents, k,
      Entry(Resident, size, c.residents[k].active + 1 + |ws|, c.nextTicket + 1 + |ws|, !deferred))
  {
    hide *;
    var e, f := g.residents[k], Entry(Resident, size, c.residents[k].active + 1 + |ws|, c.nextTicket + 1 + |ws|, !deferred);
    GrantAllResidents(g, k, ws, |ws|);
    UpdateIsOnlyAt(g.residents, GrantAll(g, k, ws, |ws|).residents, k, f);
    OnlyAtTwice(c.residents, g.residents, GrantAll(g, k, ws, |ws|).residents, k, e, f);
  }

  lemma CommitEntry(c: Coord, g: Coord, k: ModelKey, size: nat, deferred: bool, ws: seq<nat>)
    requires LoaderGranted(c, g, k, size, deferred) && AreWaiters(ws, g.waiters)
    ensures k in g.residents && GrantAll(g, k, ws, |ws|).residents
      == c.residents[k := Entry(Resident, size, c.residents[k].active + 1 + |ws|, c.nextTicket + 1 + |ws|, !deferred)]
  {
    hide GrantAll, AreWaiters, OnlyAt;
    UpdateIsOnlyAt(c.residents, g.residents, k, Entry(Resident, size, c.residents[k].active + 1, c.nextTicket + 1, !deferred));
    CommitResidents(c, g, k, size, deferred, ws);
    UpdateIsOnlyAt(c.residents, GrantAll(g, k, ws, |ws|).residents, k,
      Entry(Resident, size, c.residents[k].active + 1 + |ws|, c.nextTicket + 1 + |ws|, !deferred));
  }

  lemma CommitClaimsTable(c: Coord, g: Coord, k: ModelKey, first: set<nat>, ws: seq<nat>)
    requires k in g.residents && AreWaiters(ws, g.waiters)
    requires g.claims == c.claims[k := first]
    ensures GrantAll(g, k, ws, |ws|).claims == c.claims[k := Added(first, g.nextClaim, |ws|)]
  {
    GrantAllClaims(g, k, ws, |ws|);
    Overwritten(c.claims, k, first, Added(first, g.nextClaim, |ws|));
  }

  /** Granting one claim at a time, to the loader and then to each joiner, is the commit. */
  lemma CommitIsGranting(c: Coord, g: Coord, e: Coord, op: OpId, k: ModelKey, size: nat, deferred: bool, ws: seq<nat>)
    requires LoaderGranted(c, g, k, size, deferred) && AllGranted(c, e, op, k, size, deferred, ws)
    requires Distinct(ws) && AreWaiters(ws, c.waiters)
    ensures k in g.residents && g.waiters == c.waiters
    ensures e == GrantAll(g, k, ws, |ws|).(reservations := c.reservations - {op})
  {
    CommitEntry(c, g, k, size, deferred, ws);
    CommitClaimsTable(c, g, k, ClaimsOf(c, k) + {c.nextClaim}, ws);
    GrantAllWaiters(g, k, ws, |ws|);
    HandedAll(g.waiters, ws, g.nextClaim);
    GrantAllFrame(g, k, ws, |ws|);
  }

  // The disposal's loop

  function Disposed(c: Coord, j: nat, d: Disposition): Coord
    requires j in c.waiters
  {
    c.(waiters := if c.waiters[j].disposition == Unset then c.waiters[j := c.waiters[j].(disposition := d)] else c.waiters,
       live := c.live - {c.waiters[j].op})
  }

  /** The first `n` of `ws` disposed of, in turn. */
  function DisposeAll(c: Coord, ws: seq<nat>, n: nat, d: Disposition): (b: Coord)
    requires n <= |ws| && AreWaiters(ws, c.waiters)
    ensures b == c.(waiters := b.waiters, live := b.live) && b.waiters.Keys == c.waiters.Keys
  {
    if n == 0 then c else Disposed(DisposeAll(c, ws, n - 1, d), ws[n - 1], d)
  }

  /** Waiters keep their operations; the first `n` of `ws` without a disposition get `d`. */
  predicate DisposedUpto(c: Coord, ws: seq<nat>, n: nat, d: Disposition, waiters: map<nat, Waiter>)
    requires n <= |ws|
  {
    && waiters.Keys == c.waiters.Keys
    && forall w :: w in c.waiters ==>
         waiters[w] == if w in ws[..n] && c.waiters[w].disposition == Unset then c.waiters[w].(disposition := d) else c.waiters[w]
  }

  lemma {:induction false} DisposeAllWaiters(c: Coord, ws: seq<nat>, n: nat, d: Disposition)
    requires n <= |ws| && AreWaiters(ws, c.waiters)
    ensures DisposedUpto(c, ws, n, d, DisposeAll(c, ws, n, d).waiters)
  {
    hide DisposeAll;
    DisposeAllUnfolds(c, ws, n, d);
    if n > 0 {
      DisposeAllWaiters(c, ws, n - 1, d);
      assert forall w :: w in ws[..n] <==> w in ws[..n - 1] || w == ws[n - 1];
    }
  }

  lemma {:induction false} DisposeAllLive(c: Coord, ws: seq<nat>, n: nat, d: Disposition)
    requires n <= |ws| && AreWaiters(ws, c.waiters)
    ensures DisposeAll(c, ws, n, d).live == c.live - OpsOf(c.waiters, ws[..n])
  {
    hide OpsOf, DisposeAll, AreWaiters;
    DisposeAllUnfolds(c, ws, n, d);
    if n == 0 {
      OpsOfNone(c.waiters, ws);
    } else {
      DisposeAllLive(c, ws, n - 1, d);
      DisposeAllWaiters(c, ws, n - 1, d);
      OpsOfSnoc(c.waiters, ws, n);
    }
  }

  lemma OpsOfNone(waiters: map<nat, Waiter>, ws: seq<nat>)
    ensures OpsOf(waiters, ws[..0]) == {}
  {
  }

  lemma DisposeAllUnfolds(c: Coord, ws: seq<nat>, n: nat, d: Disposition)
    requires n <= |ws| && AreWaiters(ws, c.waiters)
    ensures n == 0 ==> DisposeAll(c, ws, n, d) == c
    ensures n > 0 ==> ws[n - 1] in c.waiters && DisposeAll(c, ws, n, d) == Disposed(DisposeAll(c, ws, n - 1, d), ws[n - 1], d)
  {
  }

  lemma OpsOfSnoc(waiters: map<nat, Waiter>, ws: seq<nat>, n: nat)
    requires 0 < n <= |ws| && ws[n - 1] in waiters
    ensures OpsOf(waiters, ws[..n]) == OpsOf(waiters, ws[..n - 1]) + {waiters[ws[n - 1]].op}
  {
    assert forall w :: w in ws[..n] <==> w in ws[..n - 1] || w == ws[n - 1];
  }

  lemma DisposedAll(c: Coord, ws: seq<nat>, d: Disposition)
    requires AreWaiters(ws, c.waiters)
    ensures forall owner :: DisposeAll(c, ws, |ws|, d).(custody := c.custody - {owner}) == Dispose(c, ws, d, owner)
  {
    assert ws[..|ws|] == ws;
    DisposeAllWaiters(c, ws, |ws|, d);
    DisposeAllLive(c, ws, |ws|, d);
    hide DisposeAll, OpsOf;
  }
}
