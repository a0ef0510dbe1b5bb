/** Recency is the order of use: of two entries, the one that goes first when both are idle, or both busy, is the one
    not used for longer. */
module CoordinatorRecency {
  import opened Common
  import opened CoordinatorState
  import opened CoordinatorWorld
  import opened CoordinatorOwnership
  import opened CoordinatorRuns
  import opened VictimSelection
  import opened CoordinatorDecisions

  /** The event creates the entry under `k`, or grants or gives back a claim on it. */
  ghost predicate Uses(w: World, cfg: Config, e: Event, k: ModelKey)
    requires Enabled(w, e)
  {
    match e
    case Admit(op, a) =>
      || (a.Release? && w.pcs[op].key == k && k in w.c.residents)
      || (a.Stage1? && w.pcs[op].req.key == k
          && var plan := Decide(w.c, cfg, k, w.pcs[op].req.est, a.free, a.owner, a.victims); plan.Share? || plan.LoadIt?)
    case Load(op, l) => l.Commit? && w.pcs[op].key == k && Keeps(w, cfg, op)
    case _ => false
  }

  /** The re-check of this load goes through. */
  ghost predicate Keeps(w: World, cfg: Config, op: OpId)
    requires LoadEnabled(w, op, Commit)
  {
    op in w.c.reservations && w.pcs[op].key in w.c.residents && Objection(w.c, cfg, op, w.pcs[op].key, w.pcs[op].size) == Unset
  }

  /** What a step does to recency: an entry used, or a new one, is later than all before; the others keep theirs. */
  ghost predicate Touches(c: Coord, d: Coord, used: iset<ModelKey>) {
    && d.nextTicket >= c.nextTicket
    && forall k :: k in d.residents ==>
         if k in used then c.nextTicket <= d.residents[k].recency < d.nextTicket
         else k in c.residents && d.residents[k].recency == c.residents[k].recency
  }

  ghost function UsedBy(w: World, cfg: Config, e: Event): iset<ModelKey>
    requires Enabled(w, e)
  {
    iset k | Uses(w, cfg, e, k)
  }

  lemma PlanTouches(w: World, op: OpId, req: Request, plan: Plan)
    requires plan.Share? ==> req.key in w.c.residents
    requires plan.Join? ==> plan.owner in w.c.reservations
    ensures Touches(w.c, OnStage1(w, op, req, plan).c, if plan.Share? || plan.LoadIt? then iset{req.key} else iset{})
  {
  }

  lemma ReleaseTouches(c: Coord, k: ModelKey, claim: nat)
    ensures Touches(c, ReleaseClaim(c, k, claim), if k in c.residents then iset{k} else iset{})
  {
  }

  lemma AdmitTouches(w: World, cfg: Config, op: OpId, a: AdmitEvent)
    requires AdmitEnabled(w, op, a)
    ensures Touches(w.c, AdmitStep(w, cfg, op, a).c, UsedBy(w, cfg, Admit(op, a)))
  {
    match a
    case Stage1(free, owner, victims) =>
      var req := w.pcs[op].req;
      var plan := Decide(w.c, cfg, req.key, req.est, free, owner, victims);
      PlanTouches(w, op, req, plan);
      assert UsedBy(w, cfg, Admit(op, a)) == if plan.Share? || plan.LoadIt? then iset{req.key} else iset{};
    case Release =>
      var k := w.pcs[op].key;
      ReleaseTouches(w.c, k, w.pcs[op].claim);
      assert UsedBy(w, cfg, Admit(op, a)) == if k in w.c.residents then iset{k} else iset{};
    case _ => SameTouches(w.c, AdmitStep(w, cfg, op, a).c, UsedBy(w, cfg, Admit(op, a)));
  }

  lemma SameTouches(c: Coord, d: Coord, used: iset<ModelKey>)
    requires used == iset{} && d.nextTicket == c.nextTicket && d.residents.Keys <= c.residents.Keys
    requires forall k :: k in d.residents ==> d.residents[k].recency == c.residents[k].recency
    ensures Touches(c, d, used)
  {
  }

  lemma CommitTouches(c: Coord, op: OpId, k: ModelKey, size: nat, deferred: bool)
    requires op in c.reservations && k in c.residents
    ensures Touches(c, CommitLoad(c, op, k, size, deferred), iset{k})
  {
  }

  lemma KeptIsCommit(w: World, cfg: Config, op: OpId)
    requires LoadEnabled(w, op, Commit) && Keeps(w, cfg, op)
    ensures LoadStep(w, cfg, op, Commit).c == CommitLoad(w.c, op, w.pcs[op].key, w.pcs[op].size, w.pcs[op].deferred)
  {
    hide CommitLoad;
  }

  lemma LoadTouches(w: World, cfg: Config, op: OpId, l: LoadEvent)
    requires LoadEnabled(w, op, l)
    ensures Touches(w.c, LoadStep(w, cfg, op, l).c, UsedBy(w, cfg, Load(op, l)))
  {
    if l.Commit? && Keeps(w, cfg, op) {
      KeptIsCommit(w, cfg, op);
      assert UsedBy(w, cfg, Load(op, l)) == iset{w.pcs[op].key};
      hide Keeps, Uses, Touches;
      CommitTouches(w.c, op, w.pcs[op].key, w.pcs[op].size, w.pcs[op].deferred);
    } else {
      assert UsedBy(w, cfg, Load(op, l)) == iset{};
      hide Keeps, Uses, Touches;
      UnkeptLoadTouchesNothing(w, cfg, op, l);
    }
  }

  lemma UnkeptLoadTouchesNothing(w: World, cfg: Config, op: OpId, l: LoadEvent)
    requires LoadEnabled(w, op, l) && !(l.Commit? && Keeps(w, cfg, op))
    ensures Touches(w.c, LoadStep(w, cfg, op, l).c, iset{})
  {
    if l.Commit? && op in w.c.reservations { UndoTouchesNothing(w.c, op, w.pcs[op].key); }
  }

  lemma UndoTouchesNothing(c: Coord, op: OpId, k: ModelKey)
    requires op in c.reservations
    ensures Touches(c, RollbackIntent(c, op, k), iset{})
  {
  }

  lemma EvictTouchesNothing(w: World, op: OpId, e: EvictEvent)
    requires EvictEnabled(w, op, e)
    ensures Touches(w.c, EvictStep(w, op, e).c, iset{})
  {
    match e
    case Poll(expired) => DrainTouchesNothing(w.c, w.pcs[op].key, expired);
    case _ =>
  }

  lemma DrainTouchesNothing(c: Coord, k: ModelKey, expired: bool)
    ensures Touches(c, DrainStep(c, k, expired), iset{})
  {
  }

  lemma JobTouchesNothing(w: World, op: OpId, j: JobEvent)
    ensures Touches(w.c, JobStep(w, op, j).c, iset{})
  {
    match j
    case Begin => BeginTouchesNothing(w.c);
    case Collect(_) =>
    case Finish(job, drained) => FinishTouchesNothing(w.c, job, drained);
  }

  lemma BeginTouchesNothing(c: Coord)
    ensures Touches(c, BeginJob(c), iset{})
  {
  }

  lemma FinishTouchesNothing(c: Coord, job: JobId, drained: bool)
    ensures Touches(c, FinishJob(c, job, drained), iset{})
  {
  }

  lemma OutsideTouchesNothing(w: World, x: OutsideEvent)
    requires Enabled(w, Outside(x))
    ensures Touches(w.c, OutsideStep(w, x).c, iset{})
  {
  }

  lemma StepTouches(w: World, cfg: Config, e: Event)
    requires Enabled(w, e)
    ensures Touches(w.c, Step(w, cfg, e).c, UsedBy(w, cfg, e))
  {
    hide Touches;
    match e
    case Admit(op, a) => AdmitTouches(w, cfg, op, a);
    case Load(op, l) => LoadTouches(w, cfg, op, l);
    case Evict(op, v) => EvictTouchesNothing(w, op, v); assert UsedBy(w, cfg, e) == iset{};
    case Job(op, j) => JobTouchesNothing(w, op, j); assert UsedBy(w, cfg, e) == iset{};
    case Outside(x) => OutsideTouchesNothing(w, x); assert UsedBy(w, cfg, e) == iset{};
  }

  /** Where in the run `k` was last used, if it was. */
  ghost function LastUse(w: World, cfg: Config, s: Surroundings, events: seq<Event>, k: ModelKey): Option<nat>
    requires IsRun(w, cfg, s, events)
    decreases |events|
  {
    if events == [] then None
    else
      var later := LastUse(Step(w, cfg, events[0]), cfg, s, events[1..], k);
      if later.Some? then Some(later.value + 1) else if Uses(w, cfg, events[0], k) then Some(0) else None
  }

  /** What the run leaves of an entry's recency: its own if it was not used, and otherwise one of its own time. */
  lemma {:induction false} RecencyAfter(w: World, cfg: Config, s: Surroundings, events: seq<Event>, k: ModelKey)
    requires IsRun(w, cfg, s, events) && k in After(w, cfg, s, events).c.residents
    ensures var v := After(w, cfg, s, events);
      && v.c.nextTicket >= w.c.nextTicket
      && (LastUse(w, cfg, s, events, k).Some? ==> w.c.nextTicket <= v.c.residents[k].recency)
      && (LastUse(w, cfg, s, events, k).None? ==> k in w.c.residents && v.c.residents[k].recency == w.c.residents[k].recency)
    decreases |events|
  {
    hide Step, Uses;
    if events != [] {
      StepTouches(w, cfg, events[0]);
      RecencyAfter(Step(w, cfg, events[0]), cfg, s, events[1..], k);
    }
  }

  /** Of two entries used in the run, the one used last is the later. */
  lemma {:induction false} RecencyOrders(w: World, cfg: Config, s: Surroundings, events: seq<Event>, a: ModelKey, b: ModelKey)
    requires IsRun(w, cfg, s, events) && a != b
    requires forall k :: k in w.c.residents ==> w.c.residents[k].recency < w.c.nextTicket
    requires a in After(w, cfg, s, events).c.residents && b in After(w, cfg, s, events).c.residents
    requires LastUse(w, cfg, s, events, a).Some? && LastUse(w, cfg, s, events, b).Some?
    ensures var v := After(w, cfg, s, events); var i, j := LastUse(w, cfg, s, events, a), LastUse(w, cfg, s, events, b);
      i != j && (v.c.residents[a].recency < v.c.residents[b].recency <==> i.value < j.value)
      && v.c.residents[a].recency != v.c.residents[b].recency
    decreases |events|
  {
    var v := Step(w, cfg, events[0]);
    var rest := events[1..];
    StepTouches(w, cfg, events[0]);
    OneUse(w, cfg, events[0], a, b);
    hide Step, Uses;
    var i, j := LastUse(v, cfg, s, rest, a), LastUse(v, cfg, s, rest, b);
    RecencyAfter(v, cfg, s, rest, a);
    RecencyAfter(v, cfg, s, rest, b);
    if i.Some? && j.Some? { RecencyOrders(v, cfg, s, rest, a, b); }
  }

  lemma OneUse(w: World, cfg: Config, e: Event, a: ModelKey, b: ModelKey)
    requires Enabled(w, e) && a != b
    ensures !(Uses(w, cfg, e, a) && Uses(w, cfg, e, b))
  {
  }

  /** In every run: every entry has been used, no two last in the same event, and of two entries both idle or both
      busy the one that goes first is the one whose last use lies further back. */
  lemma OldestIsLeastRecentlyUsed(cfg: Config, s: Surroundings, events: seq<Event>, a: ModelKey, b: ModelKey)
    requires IsRun(START, cfg, s, events) && a != b
    requires var c := After(START, cfg, s, events).c;
      a in c.residents && b in c.residents && (c.residents[a].active == 0 <==> c.residents[b].active == 0)
    ensures var c := After(START, cfg, s, events).c;
      var i, j := LastUse(START, cfg, s, events, a), LastUse(START, cfg, s, events, b);
      i.Some? && j.Some? && (GoesBefore(c.residents[a], c.residents[b]) <==> i.value < j.value)
  {
    RecencyAfter(START, cfg, s, events, a);
    RecencyAfter(START, cfg, s, events, b);
    RecencyOrders(START, cfg, s, events, a, b);
  }
}
