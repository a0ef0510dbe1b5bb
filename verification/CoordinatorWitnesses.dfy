/** Concrete runs of the coordinator, from the very start and with nothing assumed, that end where something
    is lost. */
module CoordinatorWitnesses {
  import opened Common
  import opened CoordinatorState
  import opened CoordinatorWorld
  import opened CoordinatorOwnership
  import opened CoordinatorClaims
  import opened CoordinatorRuns
  import opened VictimSelection

  const ANYTHING := Surroundings(false, false, false, false, None)

  ghost predicate Reaches(cfg: Config, events: seq<Event>, v: World) {
    IsRun(START, cfg, ANYTHING, events) && After(START, cfg, ANYTHING, events) == v
  }

  lemma {:induction false} RunSnoc(w: World, cfg: Config, s: Surroundings, events: seq<Event>, e: Event)
    requires IsRun(w, cfg, s, events) && Allowed(After(w, cfg, s, events), cfg, s, e)
    ensures IsRun(w, cfg, s, events + [e])
    ensures After(w, cfg, s, events + [e]) == Step(After(w, cfg, s, events), cfg, e)
    decreases |events|
  {
    hide Step;
    if events == [] {
      assert [] + [e] == [e] && [e][1..] == [];
    } else {
      assert Allowed(w, cfg, s, events[0]);
      hide Allowed;
      assert (events + [e])[1..] == events[1..] + [e];
      RunSnoc(Step(w, cfg, events[0]), cfg, s, events[1..], e);
    }
  }

  lemma Extend(cfg: Config, events: seq<Event>, w: World, e: Event)
    requires Reaches(cfg, events, w) && Enabled(w, e)
    ensures Reaches(cfg, events + [e], Step(w, cfg, e))
  {
    RunSnoc(START, cfg, ANYTHING, events, e);
  }

  /** Nothing resident, nothing reserved, nothing barred. */
  ghost predicate Vacant(c: Coord) { c.residents == map[] && c.reservations == map[] && !Barred(c) }

  ghost predicate Alone(c: Coord, k: ModelKey) { c.residents.Keys == {k} && c.reservations == map[] && !Barred(c) }

  lemma VacantSums(c: Coord)
    requires Vacant(c)
    ensures Accounted(c) == 0 && Unmaterialized(c) == 0
  {
  }

  /** A request that fits the empty device is admitted on one. */
  lemma AdmitOnVacant(w: World, cfg: Config, op: OpId, req: Request)
    requires op in w.pcs && w.pcs[op] == Ready(req) && Vacant(w.c) && FitsEmptyDevice(cfg, req.est)
    ensures var e := Admit(op, Stage1(cfg.total, op, [])); Enabled(w, e) && Step(w, cfg, e) == OnReserve(w, op, req)
  {
    VacantSums(w.c);
  }

  lemma CommitAlone(w: World, cfg: Config, op: OpId, k: ModelKey, size: nat)
    requires op in w.pcs && w.pcs[op] == Loaded(k, size, false) && !Barred(w.c) && FitsEmptyDevice(cfg, size)
    requires w.c.residents.Keys == {k} && w.c.reservations.Keys == {op}
    requires w.c.reservations[op].generation == Gen(w.c, k)
    ensures Enabled(w, Load(op, Commit)) && Step(w, cfg, Load(op, Commit)) == OnCommit(w, op, k, size, false)
  {
    assert w.c.residents - {k} == map[] && w.c.reservations - {op} == map[];
    assert Objection(w.c, cfg, op, k, size) == Unset;
  }

  /** What a load on a vacant device leaves. */
  ghost predicate LoadedAlone(w: World, v: World, op: OpId, k: ModelKey, est: nat) {
    && v.pcs == w.pcs[op := Committed(k, w.c.nextClaim, [])]
    && Alone(v.c, k) && v.c.residents[k].(recency := 0) == Entry(Resident, est, 1, 0, true)
    && w.c.nextClaim in ClaimsOf(v.c, k)
  }

  lemma CommitLeaves(w: World, op: OpId, k: ModelKey, est: nat)
    requires op in w.c.reservations && w.c.reservations.Keys == {op} && w.c.reservations[op].waiters == []
    requires w.c.residents.Keys == {k} && w.c.residents[k].active == 0 && !Barred(w.c)
    ensures LoadedAlone(w, OnCommit(w, op, k, est, false), op, k, est)
  {
    var d := CommitLoad(w.c, op, k, est, false);
    assert d.reservations == map[];
    assert w.c.nextClaim in ClaimRange(w.c.nextClaim, 1);
  }

  function LoadEvents(cfg: Config, op: OpId, k: ModelKey, est: nat): seq<Event> {
    [Admit(op, Start(Request(k, est)))] + [Admit(op, Stage1(cfg.total, op, []))] + [Load(op, Measured(est))] + [Load(op, Commit)]
  }

  lemma StartsAs(w: World, cfg: Config, op: OpId, req: Request)
    requires op !in w.pcs
    ensures var e := Admit(op, Start(req)); Enabled(w, e) && Step(w, cfg, e) == At(w, op, Ready(req))
  {
  }

  lemma MeasureSteps(w: World, cfg: Config, op: OpId, req: Request)
    requires op in w.pcs && w.pcs[op] == LoadRunning(req)
    ensures var e := Load(op, Measured(req.est));
      Enabled(w, e) && Step(w, cfg, e) == OnMeasured(w, op, req.key, req.est)
  {
  }

  lemma ReserveRuns(w: World, op: OpId, req: Request)
    ensures var v := OnReserve(w, op, req); op in v.pcs && v.pcs[op] == LoadRunning(req)
  {
  }

  lemma MeasuredAlone(w: World, op: OpId, req: Request)
    requires Vacant(w.c)
    ensures var v := OnMeasured(OnReserve(At(w, op, Ready(req)), op, req), op, req.key, req.est);
      && v.pcs == w.pcs[op := Loaded(req.key, req.est, false)] && !Barred(v.c) && v.c.nextClaim == w.c.nextClaim
      && v.c.residents.Keys == {req.key} && v.c.residents[req.key].active == 0
      && v.c.reservations.Keys == {op} && v.c.reservations[op].waiters == []
      && v.c.reservations[op].generation == Gen(v.c, req.key)
  {
  }

  lemma LoadedAloneFrom(w: World, w3: World, v: World, op: OpId, k: ModelKey, est: nat)
    requires LoadedAlone(w3, v, op, k, est) && w3.c.nextClaim == w.c.nextClaim
    requires op in w3.pcs && w3.pcs == w.pcs[op := w3.pcs[op]]
    ensures LoadedAlone(w, v, op, k, est)
  {
  }

  lemma ReserveFrom(cfg: Config, es: seq<Event>, w: World, op: OpId, req: Request)
    requires Reaches(cfg, es, w) && Vacant(w.c) && op !in w.pcs && FitsEmptyDevice(cfg, req.est)
    ensures Reaches(cfg, es + [Admit(op, Start(req))] + [Admit(op, Stage1(cfg.total, op, []))], OnReserve(At(w, op, Ready(req)), op, req))
  {
    hide Reaches, Step, Enabled, FitsEmptyDevice, OnReserve;
    StartsAs(w, cfg, op, req);
    Extend(cfg, es, w, Admit(op, Start(req)));
    AdmitOnVacant(At(w, op, Ready(req)), cfg, op, req);
    Extend(cfg, es + [Admit(op, Start(req))], At(w, op, Ready(req)), Admit(op, Stage1(cfg.total, op, [])));
  }

  lemma CommitFrom(cfg: Config, es: seq<Event>, w: World, op: OpId, req: Request) returns (v: World)
    requires Reaches(cfg, es, OnReserve(At(w, op, Ready(req)), op, req)) && Vacant(w.c) && FitsEmptyDevice(cfg, req.est)
    ensures Reaches(cfg, es + [Load(op, Measured(req.est))] + [Load(op, Commit)], v) && LoadedAlone(w, v, op, req.key, req.est)
  {
    hide Reaches, Step, Enabled, FitsEmptyDevice, OnReserve, OnMeasured, OnCommit, At, Vacant, LoadedAlone;
    var w2 := OnReserve(At(w, op, Ready(req)), op, req);
    ReserveRuns(At(w, op, Ready(req)), op, req);
    MeasureSteps(w2, cfg, op, req);
    Extend(cfg, es, w2, Load(op, Measured(req.est)));
    var w3 := OnMeasured(w2, op, req.key, req.est);
    MeasuredAlone(w, op, req);
    CommitAlone(w3, cfg, op, req.key, req.est);
    Extend(cfg, es + [Load(op, Measured(req.est))], w3, Load(op, Commit));
    CommitLeaves(w3, op, req.key, req.est);
    v := OnCommit(w3, op, req.key, req.est, false);
    LoadedAloneFrom(w, w3, v, op, req.key, req.est);
  }

  /** A whole load on a vacant device, from its start to its commit. */
  lemma LoadAlone(cfg: Config, es: seq<Event>, w: World, op: OpId, k: ModelKey, est: nat) returns (v: World)
    requires Reaches(cfg, es, w) && Vacant(w.c) && op !in w.pcs && FitsEmptyDevice(cfg, est)
    ensures Reaches(cfg, es + LoadEvents(cfg, op, k, est), v) && LoadedAlone(w, v, op, k, est)
  {
    hide Reaches, LoadedAlone, Vacant, FitsEmptyDevice;
    var e1, e2, e3, e4 := Admit(op, Start(Request(k, est))), Admit(op, Stage1(cfg.total, op, [])), Load(op, Measured(est)), Load(op, Commit);
    ReserveFrom(cfg, es, w, op, Request(k, est));
    v := CommitFrom(cfg, es + [e1] + [e2], w, op, Request(k, est));
    assert es + [e1] + [e2] + [e3] + [e4] == es + LoadEvents(cfg, op, k, est);
  }

  // An entry in use is removed

  function UseEvents(op: OpId): seq<Event> { [Load(op, WakeJoiners)] + [Admit(op, Release)] }

  /** The only entry, loaded and with no request on it. */
  ghost predicate IdleAlone(c: Coord, k: ModelKey, est: nat, phase: Phase) {
    Alone(c, k) && c.residents[k].(recency := 0) == Entry(phase, est, 0, 0, true)
  }

  lemma WakeAlone(w: World, cfg: Config, op: OpId, k: ModelKey, claim: nat)
    requires op in w.pcs && w.pcs[op] == Committed(k, claim, [])
    ensures var e := Load(op, WakeJoiners);
      Enabled(w, e) && (var v := Step(w, cfg, e);
          v.pcs == w.pcs[op := Holding(k, claim)] && v.c.residents == w.c.residents && v.c.reservations == w.c.reservations
          && Barred(v.c) == Barred(w.c))
  {
  }

  lemma ReleaseAlone(w: World, cfg: Config, op: OpId, k: ModelKey, claim: nat, est: nat)
    requires op in w.pcs && w.pcs[op] == Holding(k, claim)
    requires Alone(w.c, k) && w.c.residents[k].(recency := 0) == Entry(Resident, est, 1, 0, true)
    ensures var e := Admit(op, Release);
      Enabled(w, e) && (var v := Step(w, cfg, e); v.pcs == w.pcs[op := Done] && IdleAlone(v.c, k, est, Resident))
  {
  }

  /** The load is used once and given back. */
  lemma UseAndRelease(cfg: Config, es: seq<Event>, u: World, w: World, op: OpId, k: ModelKey, est: nat) returns (v: World)
    requires Reaches(cfg, es, w) && LoadedAlone(u, w, op, k, est)
    ensures Reaches(cfg, es + UseEvents(op), v) && v.pcs == u.pcs[op := Done] && IdleAlone(v.c, k, est, Resident)
  {
    hide Reaches, Step, Enabled, IdleAlone;
    var e1, e2 := Load(op, WakeJoiners), Admit(op, Release);
    WakeAlone(w, cfg, op, k, u.c.nextClaim);
    Extend(cfg, es, w, e1);
    var w1 := Step(w, cfg, e1);
    ReleaseAlone(w1, cfg, op, k, u.c.nextClaim, est);
    Extend(cfg, es + [e1], w1, e2);
    v := Step(w1, cfg, e2);
    assert es + [e1] + [e2] == es + UseEvents(op);
  }

  function DrainEvents(op: OpId, m: ModelKey, est: nat, k: ModelKey): seq<Event> {
    [Admit(op, Start(Request(m, est)))] + [Admit(op, Stage1(0, op, [k]))] + [Evict(op, Next)] + [Evict(op, Poll(false))]
  }

  lemma AloneSum(c: Coord, k: ModelKey)
    requires Alone(c, k)
    ensures Accounted(c) == c.residents[k].vram
  {
    SumRemove(c.residents, k, EntryBytes);
    assert c.residents - {k} == map[];
  }

  lemma MarkAlone(w: World, cfg: Config, op: OpId, req: Request, k: ModelKey, est: nat)
    requires op in w.pcs && w.pcs[op] == Ready(req) && IdleAlone(w.c, k, est, Resident) && req.key != k
    requires est + req.est > cfg.Capacity()
    ensures var e := Admit(op, Stage1(0, op, [k]));
      Enabled(w, e) && (var v := Step(w, cfg, e); v.pcs == w.pcs[op := Evictions(Some(req), [k])] && IdleAlone(v.c, k, est, Draining))
  {
    AloneSum(w.c, k);
    assert Evictable(w.c, req.key, k);
    assert !FitsBudget(w.c, cfg, req.est);
    hide FitsBudget, FitsLive, Accounted;
    var v := OnMark(w, op, req, [k]);
    assert v.c.residents.Keys == {k};
  }

  lemma NextAlone(w: World, cfg: Config, op: OpId, goal: Option<Request>, k: ModelKey, est: nat)
    requires op in w.pcs && w.pcs[op] == Evictions(goal, [k]) && IdleAlone(w.c, k, est, Draining)
    ensures var e := Evict(op, Next);
      Enabled(w, e) && (var v := Step(w, cfg, e); v.pcs == w.pcs[op := DrainWait(goal, k, [])] && v.c == w.c)
  {
    assert [k][1..] == [] && BeginEvict(w.c, k) == w.c;
  }

  lemma PollAlone(w: World, cfg: Config, op: OpId, goal: Option<Request>, k: ModelKey, est: nat)
    requires op in w.pcs && w.pcs[op] == DrainWait(goal, k, []) && IdleAlone(w.c, k, est, Draining)
    ensures var e := Evict(op, Poll(false));
      Enabled(w, e) && (var v := Step(w, cfg, e); v.pcs == w.pcs[op := Unloading(goal, k, [])] && IdleAlone(v.c, k, est, Evicting))
  {
  }

  /** Another admission marks the idle entry. */
  lemma MarkFrom(cfg: Config, es: seq<Event>, w: World, op: OpId, req: Request, k: ModelKey, est: nat) returns (v: World)
    requires Reaches(cfg, es, w) && op !in w.pcs && IdleAlone(w.c, k, est, Resident) && req.key != k && est + req.est > cfg.Capacity()
    ensures Reaches(cfg, es + [Admit(op, Start(req))] + [Admit(op, Stage1(0, op, [k]))], v)
    ensures v.pcs == w.pcs[op := Evictions(Some(req), [k])] && IdleAlone(v.c, k, est, Draining)
  {
    hide Reaches, Step, Enabled, IdleAlone;
    var e1, e2 := Admit(op, Start(req)), Admit(op, Stage1(0, op, [k]));
    StartsAs(w, cfg, op, req);
    Extend(cfg, es, w, e1);
    var w1 := At(w, op, Ready(req));
    MarkAlone(w1, cfg, op, req, k, est);
    Extend(cfg, es + [e1], w1, e2);
    v := Step(w1, cfg, e2);
  }

  /** And finds it drained. */
  lemma DrainFrom(cfg: Config, es: seq<Event>, w: World, op: OpId, goal: Option<Request>, k: ModelKey, est: nat) returns (v: World)
    requires Reaches(cfg, es, w) && op in w.pcs && w.pcs[op] == Evictions(goal, [k]) && IdleAlone(w.c, k, est, Draining)
    ensures Reaches(cfg, es + [Evict(op, Next)] + [Evict(op, Poll(false))], v)
    ensures v.pcs == w.pcs[op := Unloading(goal, k, [])] && IdleAlone(v.c, k, est, Evicting)
  {
    hide Reaches, Step, Enabled, IdleAlone;
    var e1, e2 := Evict(op, Next), Evict(op, Poll(false));
    NextAlone(w, cfg, op, goal, k, est);
    Extend(cfg, es, w, e1);
    var w1 := Step(w, cfg, e1);
    PollAlone(w1, cfg, op, goal, k, est);
    Extend(cfg, es + [e1], w1, e2);
    v := Step(w1, cfg, e2);
  }

  lemma DrainAlone(cfg: Config, es: seq<Event>, w: World, op: OpId, m: ModelKey, need: nat, k: ModelKey, est: nat) returns (v: World)
    requires Reaches(cfg, es, w) && op !in w.pcs && IdleAlone(w.c, k, est, Resident) && m != k && est + need > cfg.Capacity()
    ensures Reaches(cfg, es + DrainEvents(op, m, need, k), v)
    ensures v.pcs == w.pcs[op := Unloading(Some(Request(m, need)), k, [])] && IdleAlone(v.c, k, est, Evicting)
  {
    hide Reaches, IdleAlone;
    var req := Request(m, need);
    var e1, e2, e3, e4 := Admit(op, Start(req)), Admit(op, Stage1(0, op, [k])), Evict(op, Next), Evict(op, Poll(false));
    var w2 := MarkFrom(cfg, es, w, op, req, k, est);
    v := DrainFrom(cfg, es + [e1] + [e2], w2, op, Some(req), k, est);
    assert es + [e1] + [e2] + [e3] + [e4] == es + DrainEvents(op, m, need, k);
  }

  lemma ForgetAlone(w: World, cfg: Config, k: ModelKey)
    requires Alone(w.c, k)
    ensures var e := Outside(Forgotten(k));
      Enabled(w, e) && (var v := Step(w, cfg, e); v.pcs == w.pcs && Vacant(v.c))
  {
    assert w.c.residents - {k} == map[];
  }

  lemma UnloadSteps(w: World, cfg: Config, op: OpId, goal: Option<Request>, k: ModelKey)
    requires op in w.pcs && w.pcs[op] == Unloading(goal, k, [])
    ensures var e := Evict(op, Unload);
      Enabled(w, e) && (var v := Step(w, cfg, e); v.pcs == w.pcs[op := Unloaded(goal, k, [])] && v.c == w.c)
  {
  }

  lemma RemoveSteps(w: World, cfg: Config, op: OpId, goal: Option<Request>, k: ModelKey)
    requires op in w.pcs && w.pcs[op] == Unloaded(goal, k, [])
    ensures var e := Evict(op, Remove); Enabled(w, e) && Step(w, cfg, e).c == Finalize(w.c, k)
  {
  }

  /** Ten bytes of device; `a` loads `k` and is done with it; `b` wants room for `m`, drains `k` and unloads it;
      the runtime, its child gone, has the coordinator forget `k`, and the unload returns; `c` loads `k` anew and
      holds a claim; `b` comes to remove what it drained. */
  function BusyRun(cfg: Config, k: ModelKey, m: ModelKey): seq<Event> {
    var a, b, c := OpId("a"), OpId("b"), OpId("c");
    LoadEvents(cfg, a, k, 6) + UseEvents(a) + DrainEvents(b, m, 6, k) + [Outside(Forgotten(k))] + [Evict(b, Unload)]
      + LoadEvents(cfg, c, k, 6) + [Evict(b, Remove)]
  }

  /** That run is one the coordinator has, and at its end the claim `c` holds is on an entry that is gone. */
  lemma EntryInUseRemoved()
    ensures var cfg := Config(10, 0, 0, None); var k, m := ModelKey("k"), ModelKey("m");
      && IsRun(START, cfg, ANYTHING, BusyRun(cfg, k, m))
      && (var w := After(START, cfg, ANYTHING, BusyRun(cfg, k, m));
          k !in w.c.residents && ClaimsOf(w.c, k) != {} && !Claimed(w))
  {
    var cfg := Config(10, 0, 0, None);
    var k, m := ModelKey("k"), ModelKey("m");
    hide Reaches, BusyRun, KeyClaims;
    var last := BusyRunReached(cfg, k, m);
    assert !KeyClaims(last.c, k) by { MissingKey(last.c, k); }
    ReachesIsAfter(cfg, BusyRun(cfg, k, m), last);
  }

  lemma MissingKey(c: Coord, k: ModelKey)
    requires k !in c.residents && ClaimsOf(c, k) != {}
    ensures !KeyClaims(c, k)
  {
  }

  lemma BusyRunReached(cfg: Config, k: ModelKey, m: ModelKey) returns (last: World)
    requires FitsEmptyDevice(cfg, 6) && cfg.Capacity() < 12 && k != m
    ensures Reaches(cfg, BusyRun(cfg, k, m), last) && k !in last.c.residents && ClaimsOf(last.c, k) != {}
  {
    var a, b, c := OpId("a"), OpId("b"), OpId("c");
    assert a != b && b != c && a != c;
    assert [] + LoadEvents(cfg, a, k, 6) == LoadEvents(cfg, a, k, 6);
    assert Reaches(cfg, [], START) && Vacant(START.c) && START.pcs == map[];
    hide Reaches, LoadEvents, UseEvents, DrainEvents, IdleAlone, Vacant, FitsEmptyDevice, LoadedAlone;
    var w1 := LoadAlone(cfg, [], START, a, k, 6);
    var es1 := LoadEvents(cfg, a, k, 6);
    var w2 := UseAndRelease(cfg, es1, START, w1, a, k, 6);
    var es2 := es1 + UseEvents(a);
    assert b !in w2.pcs && c !in w2.pcs;
    var w3 := DrainAlone(cfg, es2, w2, b, m, 6, k, 6);
    last := BusyRunEnds(cfg, es2 + DrainEvents(b, m, 6, k), w3, b, Some(Request(m, 6)), c, k, 6);
  }

  lemma ReachesIsAfter(cfg: Config, es: seq<Event>, w: World)
    requires Reaches(cfg, es, w)
    ensures IsRun(START, cfg, ANYTHING, es) && After(START, cfg, ANYTHING, es) == w
  {
  }

  /** The child is gone and so is the entry: the device is vacant, and the evictor has only the removal to do. */
  lemma UnloadForgotten(cfg: Config, es: seq<Event>, w: World, b: OpId, goal: Option<Request>, k: ModelKey) returns (v: World)
    requires Reaches(cfg, es, w) && b in w.pcs && w.pcs[b] == Unloading(goal, k, []) && Alone(w.c, k)
    ensures Reaches(cfg, es + [Outside(Forgotten(k))] + [Evict(b, Unload)], v)
    ensures v.pcs == w.pcs[b := Unloaded(goal, k, [])] && Vacant(v.c)
  {
    hide Reaches, Step, Enabled;
    ForgetAlone(w, cfg, k);
    Extend(cfg, es, w, Outside(Forgotten(k)));
    var w1 := Step(w, cfg, Outside(Forgotten(k)));
    UnloadSteps(w1, cfg, b, goal, k);
    Extend(cfg, es + [Outside(Forgotten(k))], w1, Evict(b, Unload));
    v := Step(w1, cfg, Evict(b, Unload));
  }

  lemma BusyRunEnds(cfg: Config, es: seq<Event>, w: World, b: OpId, goal: Option<Request>, c: OpId, k: ModelKey, est: nat) returns (v: World)
    requires Reaches(cfg, es, w) && b in w.pcs && w.pcs[b] == Unloading(goal, k, []) && c !in w.pcs && IdleAlone(w.c, k, est, Evicting)
    requires FitsEmptyDevice(cfg, est)
    ensures Reaches(cfg, es + [Outside(Forgotten(k))] + [Evict(b, Unload)] + LoadEvents(cfg, c, k, est) + [Evict(b, Remove)], v)
    ensures k !in v.c.residents && ClaimsOf(v.c, k) != {}
  {
    hide Reaches, Step, Enabled, LoadEvents, Vacant;
    var w1 := UnloadForgotten(cfg, es, w, b, goal, k);
    var w2 := LoadAlone(cfg, es + [Outside(Forgotten(k))] + [Evict(b, Unload)], w1, c, k, est);
    RemoveSteps(w2, cfg, b, goal, k);
    Extend(cfg, es + [Outside(Forgotten(k))] + [Evict(b, Unload)] + LoadEvents(cfg, c, k, est), w2, Evict(b, Remove));
    v := Step(w2, cfg, Evict(b, Remove));
  }

  // A request refused for good although it fits

  /** Some run from the start, on a device nobody else uses, leads to a state in which the request, next in stage
      1 and with nothing to evict, is refused as too large for ever. */
  ghost predicate RefusedSomewhere(cfg: Config, k: ModelKey, est: nat) {
    exists events, w, owner: OpId :: Reaches(cfg, events, w) && RefusedNow(w, cfg, k, est, owner)
  }

  ghost predicate RefusedNow(w: World, cfg: Config, k: ModelKey, est: nat, owner: OpId) {
    && w.settled == map[] && (forall o :: o in w.growing ==> w.growing[o].bytes == 0)
    && !Barred(w.c) && k !in w.c.residents && (forall v :: !Evictable(w.c, k, v))
    && Decide(w.c, cfg, k, est, cfg.total, owner, []) == Reject(ModelTooLarge)
  }

  /** While another load is in flight whose size leaves too little room. */
  lemma AdmittedLeaves(w: World, op: OpId, req: Request)
    requires Vacant(w.c) && w.settled == map[] && w.growing == map[]
    ensures var v := OnReserve(w, op, req);
      && v.settled == map[] && (forall o :: o in v.growing ==> v.growing[o].bytes == 0)
      && !Barred(v.c) && (forall j, k :: !Evictable(v.c, k, j)) && v.c.residents.Keys == {req.key}
      && Accounted(v.c) == req.est && Unmaterialized(v.c) == req.est
  {
    SumUpdate(w.c.reservations, op, Reservation(req.key, req.est, Gen(w.c, req.key), false, []), ReservedBytes);
    SumUpdate(w.c.reservations, op, Reservation(req.key, req.est, Gen(w.c, req.key), false, []), ReservedPending);
    SumUpdate(w.c.residents, req.key, Entry(Loading, 0, 0, w.c.nextTicket, true), EntryBytes);
    SumUpdate(w.c.residents, req.key, Entry(Loading, 0, 0, w.c.nextTicket, true), EntryPending);
  }

  function BusyEvents(cfg: Config, op: OpId, req: Request): seq<Event> {
    [Admit(op, Start(req))] + [Admit(op, Stage1(cfg.total, op, []))]
  }

  lemma BusyReached(cfg: Config, op: OpId, req: Request)
    requires FitsEmptyDevice(cfg, req.est)
    ensures Reaches(cfg, BusyEvents(cfg, op, req), OnReserve(At(START, op, Ready(req)), op, req))
  {
    assert Reaches(cfg, [], START) && Vacant(START.c);
    hide Reaches, Step, Enabled;
    StartsAs(START, cfg, op, req);
    Extend(cfg, [], START, Admit(op, Start(req)));
    var w := At(START, op, Ready(req));
    AdmitOnVacant(w, cfg, op, req);
    Extend(cfg, [] + [Admit(op, Start(req))], w, Admit(op, Stage1(cfg.total, op, [])));
    assert [] + [Admit(op, Start(req))] + [Admit(op, Stage1(cfg.total, op, []))] == BusyEvents(cfg, op, req);
  }

  /** A request that fits the empty device is refused for good in some run if and only if its size lies above
      capacity less headroom: the state needed, another load in flight, can always be reached. */
  lemma RefusedSomewhereExactly(cfg: Config, k: ModelKey, est: nat)
    requires est > 0
    ensures RefusedSomewhere(cfg, k, est) && FitsEmptyDevice(cfg, est) <==>
      cfg.Capacity() - cfg.headroom < est <= Least(cfg.Capacity(), cfg.total - cfg.headroom)
  {
    if CalledTooLarge(cfg, est) && FitsEmptyDevice(cfg, est) {
      var op, other := OpId("a"), Request(ModelKey(k.name + "x"), Least(cfg.Capacity(), cfg.total - cfg.headroom));
      assert |other.key.name| == |k.name| + 1;
      BusyReached(cfg, op, other);
      var w := OnReserve(At(START, op, Ready(other)), op, other);
      AdmittedLeaves(At(START, op, Ready(other)), op, other);
      TooLargeThoughItFitsExactly(w.c, cfg, k, est, cfg.total, op);
      assert RefusedNow(w, cfg, k, est, op);
    }
    if RefusedSomewhere(cfg, k, est) {
      var events, w, owner: OpId :| Reaches(cfg, events, w) && RefusedNow(w, cfg, k, est, owner);
      TooLargeThoughItFitsExactly(w.c, cfg, k, est, cfg.total, owner);
    }
  }

  /** A device has such requests if and only if it keeps headroom, its capacity is below its total, and it admits
      anything at all. */
  lemma ThresholdIsWrongExactly(cfg: Config)
    ensures (exists k, est: nat :: est > 0 && RefusedSomewhere(cfg, k, est) && FitsEmptyDevice(cfg, est)) <==>
      0 < cfg.headroom < cfg.total && 0 < cfg.Capacity() < cfg.total
  {
    var most := Least(cfg.Capacity(), cfg.total - cfg.headroom);
    if 0 < cfg.headroom < cfg.total && 0 < cfg.Capacity() < cfg.total {
      RefusedSomewhereExactly(cfg, ModelKey("k"), most);
      assert RefusedSomewhere(cfg, ModelKey("k"), most) && FitsEmptyDevice(cfg, most);
    }
    forall k, est: nat | est > 0 && RefusedSomewhere(cfg, k, est) && FitsEmptyDevice(cfg, est)
      ensures 0 < cfg.headroom < cfg.total && 0 < cfg.Capacity() < cfg.total
    {
      RefusedSomewhereExactly(cfg, k, est);
    }
  }

  /** An input that shows it: on a 12-byte device with a reserve of 1 and a headroom of 2, which admits 10 bytes
      when empty, the same 10 bytes are refused for good while a load of 5 is in flight. */
  lemma RefusedForGood()
    ensures var cfg := Config(12, 1, 2, None);
      var a, b, small, big := OpId("a"), OpId("b"), Request(ModelKey("small"), 5), Request(ModelKey("big"), 10);
      var events := BusyEvents(cfg, a, small) + [Admit(b, Start(big))];
      && IsRun(START, cfg, ANYTHING, events)
      && Decide(EMPTY, cfg, big.key, 10, 12, b, []) == LoadIt
      && RefusedNow(After(START, cfg, ANYTHING, events), cfg, big.key, 10, b)
  {
    var cfg := Config(12, 1, 2, None);
    var a, b, small, big := OpId("a"), OpId("b"), Request(ModelKey("small"), 5), Request(ModelKey("big"), 10);
    EmptyDeviceAdmits(cfg, big.key, 10, b, []);
    BusyReached(cfg, a, small);
    var w := OnReserve(At(START, a, Ready(small)), a, small);
    AdmittedLeaves(At(START, a, Ready(small)), a, small);
    StartsAs(w, cfg, b, big);
    Extend(cfg, BusyEvents(cfg, a, small), w, Admit(b, Start(big)));
    TooLargeThoughItFitsExactly(w.c, cfg, big.key, 10, cfg.total, b);
    ReachesIsAfter(cfg, BusyEvents(cfg, a, small) + [Admit(b, Start(big))], At(w, b, Ready(big)));
    assert RefusedNow(w, cfg, big.key, 10, b);
    hide Reaches, Step;
  }
}
