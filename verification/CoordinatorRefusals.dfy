/** Why a joiner is told to give up for good. */
module CoordinatorRefusals {
  import opened Common
  import opened CoordinatorState
  import opened CoordinatorWorld
  import opened CoordinatorOwnership
  import opened CoordinatorRuns

  /** The verdict an operation is about to hand its joiners. */
  function Verdict(pc: Pc): Disposition {
    match pc
    case Undoing(_, verdict) => verdict
    case Undone(_, verdict) => verdict
    case Disposing(verdict) => verdict
    case _ => Unset
  }

  const TOO_LARGE := Refused(ModelTooLarge)

  predicate KeptFor(w: World, j: nat, op: OpId) {
    op in w.pcs && Verdict(w.pcs[op]) == TOO_LARGE && op in w.c.custody && j in w.c.custody[op]
  }

  /** The joiner has been told that the model is too large, or the owner it is in custody of is about to tell it. */
  ghost predicate Doomed(w: World, j: nat) {
    || (j in w.c.waiters && w.c.waiters[j].disposition == TOO_LARGE)
    || exists op :: KeptFor(w, j, op)
  }

  /** A re-check of a load joined by `j`: no job has come, the key was not displaced, and the load does not fit beside
      everything else, its own size being above capacity less headroom. */
  ghost predicate TooLargeAtRecheck(w: World, cfg: Config, e: Event, j: nat) {
    && e.Load? && e.l.Commit? && e.op in w.pcs && w.pcs[e.op].Loaded?
    && e.op in w.c.reservations && j in w.c.reservations[e.op].waiters
    && var k, size := w.pcs[e.op].key, w.pcs[e.op].size;
       && w.c.exclusive.None? && !w.c.barrier && Gen(w.c, k) == w.c.reservations[e.op].generation
       && SumBy(w.c.residents - {k}, EntryBytes) + size + SumBy(w.c.reservations - {e.op}, ReservedBytes) > cfg.Capacity()
       && size + cfg.headroom > cfg.Capacity()
  }

  /** What a step leaves of doom: dispositions and custody as they were, or fewer. */
  ghost predicate DoomsNobody(w: World, v: World, j: nat) {
    && (j in v.c.waiters && v.c.waiters[j].disposition == TOO_LARGE ==> Doomed(w, j))
    && (forall op :: KeptFor(v, j, op) ==> KeptFor(w, j, op))
  }

  lemma NobodyDoomed(w: World, v: World, j: nat)
    requires DoomsNobody(w, v, j) && Doomed(v, j)
    ensures Doomed(w, j)
  {
    if op :| KeptFor(v, j, op) { assert KeptFor(w, j, op); }
  }

  lemma AdmitDoomsNobody(w: World, cfg: Config, op: OpId, a: AdmitEvent, j: nat)
    requires AdmitEnabled(w, op, a)
    ensures DoomsNobody(w, AdmitStep(w, cfg, op, a), j)
  {
    hide DoomsNobody;
    match a
    case Stage1(free, owner, victims) =>
      var req := w.pcs[op].req;
      PlanDoomsNobody(w, op, req, Decide(w.c, cfg, req.key, req.est, free, owner, victims), j);
    case WaitEnds => WaitDoomsNobody(w, op, w.pcs[op].req, w.pcs[op].waiter, j);
    case Release => ReleaseDoomsNobody(w, op, w.pcs[op].key, w.pcs[op].claim, j);
    case Start(req) => MoveDoomsNobody(w, op, Ready(req), j);
    case GiveUp => MoveDoomsNobody(w, op, Done, j);
  }

  lemma MoveDoomsNobody(w: World, op: OpId, pc: Pc, j: nat)
    requires Verdict(pc) == Unset
    ensures DoomsNobody(w, At(w, op, pc), j)
  {
  }

  lemma WaitDoomsNobody(w: World, op: OpId, req: Request, i: nat, j: nat)
    ensures DoomsNobody(w, OnWaitEnds(w, op, req, i), j)
  {
  }

  lemma ReleaseDoomsNobody(w: World, op: OpId, k: ModelKey, claim: nat, j: nat)
    ensures DoomsNobody(w, OnRelease(w, op, k, claim), j)
  {
    hide ReleaseClaim;
  }

  lemma PlanDoomsNobody(w: World, op: OpId, req: Request, plan: Plan, j: nat)
    requires op in w.pcs && w.pcs[op].Ready?
    requires plan.Share? ==> req.key in w.c.residents
    requires plan.Join? ==> plan.owner in w.c.reservations
    ensures DoomsNobody(w, OnStage1(w, op, req, plan), j)
  {
  }

  lemma CommitDoomsNobody(w: World, op: OpId, k: ModelKey, size: nat, deferred: bool, j: nat)
    requires op in w.c.reservations && k in w.c.residents
    ensures DoomsNobody(w, OnCommit(w, op, k, size, deferred), j)
  {
    CommitHandsShares(w.c, op, k, size, deferred, j);
    hide CommitLoad, Holders;
  }

  lemma CommitHandsShares(c: Coord, op: OpId, k: ModelKey, size: nat, deferred: bool, j: nat)
    requires op in c.reservations && k in c.residents
    ensures var d := CommitLoad(c, op, k, size, deferred);
      && d.custody == c.custody
      && (j in d.waiters && d.waiters[j].disposition == TOO_LARGE ==> j in c.waiters && c.waiters[j].disposition == TOO_LARGE)
  {
  }

  lemma UndoDoomsOwnJoiners(w: World, op: OpId, k: ModelKey, verdict: Disposition, j: nat)
    requires op in w.c.reservations && (verdict == TOO_LARGE ==> j !in w.c.reservations[op].waiters)
    ensures DoomsNobody(w, OnUndo(w, op, k, verdict), j)
  {
  }

  lemma RecheckDooms(w: World, cfg: Config, op: OpId, j: nat)
    requires LoadEnabled(w, op, Commit) && !TooLargeAtRecheck(w, cfg, Load(op, Commit), j)
    ensures DoomsNobody(w, LoadStep(w, cfg, op, Commit), j)
  {
    var k, size, deferred := w.pcs[op].key, w.pcs[op].size, w.pcs[op].deferred;
    if op in w.c.reservations {
      var objection := Objection(w.c, cfg, op, k, size);
      assert objection == TOO_LARGE ==> j !in w.c.reservations[op].waiters;
      hide Objection, OnCommit, OnUndo, DoomsNobody;
      if objection == Unset && k in w.c.residents {
        CommitDoomsNobody(w, op, k, size, deferred, j);
      } else {
        UndoDoomsOwnJoiners(w, op, k, objection, j);
      }
    } else {
      LostDoomsNobody(w, op, k, j);
    }
  }

  lemma LostDoomsNobody(w: World, op: OpId, k: ModelKey, j: nat)
    ensures DoomsNobody(w, At(w, op, Undoing(k, Refused(GpuBusy))), j)
  {
  }

  lemma LoadDooms(w: World, cfg: Config, op: OpId, l: LoadEvent, j: nat)
    requires LoadEnabled(w, op, l) && !TooLargeAtRecheck(w, cfg, Load(op, l), j)
    ensures DoomsNobody(w, LoadStep(w, cfg, op, l), j)
  {
    match l
    case Commit => RecheckDooms(w, cfg, op, j);
    case DisposeJoiners => DisposeDoomsNobody(w, op, w.pcs[op].verdict, j);
    case WakeJoiners => WakeDoomsNobody(w, op, w.pcs[op].key, w.pcs[op].claim, w.pcs[op].joiners, j);
    case Raised(childLeft) => RaisedDoomsNobody(w, op, w.pcs[op].req.key, childLeft, j);
    case _ => PlainLoadDoomsNobody(w, cfg, op, l, j);
  }

  lemma PlainLoadDoomsNobody(w: World, cfg: Config, op: OpId, l: LoadEvent, j: nat)
    requires LoadEnabled(w, op, l) && !l.Commit? && !l.DisposeJoiners? && !l.WakeJoiners? && !l.Raised?
    ensures DoomsNobody(w, LoadStep(w, cfg, op, l), j)
  {
  }

  lemma RaisedDoomsNobody(w: World, op: OpId, k: ModelKey, childLeft: bool, j: nat)
    ensures DoomsNobody(w, OnRaised(w, op, k, childLeft), j)
  {
  }

  lemma DisposeDoomsNobody(w: World, op: OpId, verdict: Disposition, j: nat)
    requires op in w.pcs && w.pcs[op] == Disposing(verdict)
    ensures DoomsNobody(w, OnDispose(w, op, verdict), j)
  {
    assert verdict == TOO_LARGE && op in w.c.custody && j in w.c.custody[op] ==> KeptFor(w, j, op);
  }

  lemma WakeDoomsNobody(w: World, op: OpId, k: ModelKey, claim: nat, joiners: seq<nat>, j: nat)
    ensures DoomsNobody(w, OnWake(w, op, k, claim, joiners), j)
  {
  }

  lemma EvictDoomsNobody(w: World, op: OpId, e: EvictEvent, j: nat)
    requires EvictEnabled(w, op, e)
    ensures DoomsNobody(w, EvictStep(w, op, e), j)
  {
  }

  lemma JobDoomsNobody(w: World, op: OpId, e: JobEvent, j: nat)
    ensures DoomsNobody(w, JobStep(w, op, e), j)
  {
  }

  lemma OutsideDoomsNobody(w: World, x: OutsideEvent, j: nat)
    requires Enabled(w, Outside(x))
    ensures DoomsNobody(w, OutsideStep(w, x), j)
  {
  }

  /** Only such a re-check dooms a joiner. */
  lemma OnlyRecheckDooms(w: World, cfg: Config, e: Event, j: nat)
    requires Enabled(w, e) && Doomed(Step(w, cfg, e), j) && !Doomed(w, j)
    ensures TooLargeAtRecheck(w, cfg, e, j)
  {
    hide Doomed, DoomsNobody, TooLargeAtRecheck;
    if !TooLargeAtRecheck(w, cfg, e, j) {
      match e
      case Admit(op, a) => AdmitDoomsNobody(w, cfg, op, a, j); NobodyDoomed(w, Step(w, cfg, e), j);
      case Load(op, l) => LoadDooms(w, cfg, op, l, j); NobodyDoomed(w, Step(w, cfg, e), j);
      case Evict(op, v) => EvictDoomsNobody(w, op, v, j); NobodyDoomed(w, Step(w, cfg, e), j);
      case Job(op, x) => JobDoomsNobody(w, op, x, j); NobodyDoomed(w, Step(w, cfg, e), j);
      case Outside(x) => OutsideDoomsNobody(w, x, j); NobodyDoomed(w, Step(w, cfg, e), j);
    }
  }

  /** After `n` events of the run, the next is a re-check that finds the load `j` joined too large. */
  ghost predicate TooLargeAt(w: World, cfg: Config, s: Surroundings, events: seq<Event>, n: nat, j: nat)
    requires IsRun(w, cfg, s, events)
  {
    n < |events| && (PrefixRuns(w, cfg, s, events, n); TooLargeAtRecheck(After(w, cfg, s, events[..n]), cfg, events[n], j))
  }

  lemma {:induction false} PrefixRuns(w: World, cfg: Config, s: Surroundings, events: seq<Event>, n: nat)
    requires IsRun(w, cfg, s, events) && n <= |events|
    ensures IsRun(w, cfg, s, events[..n])
    decreases n
  {
    if n > 0 {
      PrefixRuns(Step(w, cfg, events[0]), cfg, s, events[1..], n - 1);
      assert events[..n][1..] == events[1..][..n - 1];
    }
  }

  lemma {:induction false} DoomedAtRecheck(w: World, cfg: Config, s: Surroundings, events: seq<Event>, j: nat)
    requires IsRun(w, cfg, s, events) && Doomed(After(w, cfg, s, events), j) && !Doomed(w, j)
    ensures exists n: nat :: TooLargeAt(w, cfg, s, events, n, j)
    decreases |events|
  {
    hide Doomed, TooLargeAtRecheck, Step, Enabled;
    var v := Step(w, cfg, events[0]);
    if Doomed(v, j) {
      OnlyRecheckDooms(w, cfg, events[0], j);
      assert events[..0] == [];
      assert TooLargeAt(w, cfg, s, events, 0, j);
    } else {
      DoomedAtRecheck(v, cfg, s, events[1..], j);
      var n: nat :| TooLargeAt(v, cfg, s, events[1..], n, j);
      PrefixRuns(w, cfg, s, events, n + 1);
      assert events[..n + 1][1..] == events[1..][..n];
      assert TooLargeAt(w, cfg, s, events, n + 1, j);
    }
  }

  /** In every run: a joiner whose wait ends for good ran into its own deadline, or the load it joined failed, or
      that load was rolled back at a re-check that found its measured size above capacity less headroom. Whatever
      else it is told, it has a claim or goes back to stage 1. */
  lemma JoinerLeavesForGood(cfg: Config, s: Surroundings, events: seq<Event>, op: OpId)
    requires IsRun(START, cfg, s, events) && AdmitEnabled(After(START, cfg, s, events), op, WaitEnds)
    ensures var w := After(START, cfg, s, events); var j := w.pcs[op].waiter;
      j in w.c.waiters && AdmitStep(w, cfg, op, WaitEnds).pcs[op].Done? ==>
        || w.c.waiters[j].disposition.Unset?
        || w.c.waiters[j].disposition == Refused(LoadFailed)
        || exists n: nat :: TooLargeAt(START, cfg, s, events, n, j)
  {
    var w := After(START, cfg, s, events);
    var j := w.pcs[op].waiter;
    if j in w.c.waiters && w.c.waiters[j].disposition == TOO_LARGE {
      assert Doomed(w, j);
      assert !Doomed(START, j);
      DoomedAtRecheck(START, cfg, s, events, j);
    }
  }
}
