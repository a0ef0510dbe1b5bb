/** Every interleaving of the coordinator's critical sections.

    A world is the coordinator's bookkeeping plus, for each operation, how far it has come, plus what
    the proofs remember: who created each entry, where each joiner was last put, who was handed each
    claim, and what each loaded process occupies on the device. */
module CoordinatorWorld {
  import opened Common
  import opened CoordinatorState

  datatype Request = Request(key: ModelKey, est: nat)

  /** Where an operation stands between two critical sections. */
  datatype Pc =
    | Ready(req: Request)                               // about to enter stage 1
    | LoadRunning(req: Request)                         // inside lifecycle.load, gate held
    | Loaded(key: ModelKey, size: nat, deferred: bool)  // measured, about to commit
    | Undoing(key: ModelKey, verdict: Disposition)      // rollback decided, child still up
    | Undone(key: ModelKey, verdict: Disposition)       // child unloaded, entry not yet removed
    | Failing(key: ModelKey)                            // load failed, partial child still up
    | Disposing(verdict: Disposition)                   // about to hand joiners the verdict
    | Committed(key: ModelKey, claim: nat, joiners: seq<nat>)
    | Awaiting(req: Request, waiter: nat)
    | Holding(key: ModelKey, claim: nat)
    | Evictions(goal: Option<Request>, rest: seq<ModelKey>) // None: the job's drain
    | DrainWait(goal: Option<Request>, key: ModelKey, rest: seq<ModelKey>)
    | Unloading(goal: Option<Request>, key: ModelKey, rest: seq<ModelKey>)
    | Unloaded(goal: Option<Request>, key: ModelKey, rest: seq<ModelKey>)
    | Done

  /** The list a joiner was last put on: a reservation's, or a load owner's custody. */
  datatype Home = Registered(owner: OpId) | InCustody(owner: OpId)

  /** The latest entry created under a key: its generation, and whose stage 1 made it. */
  datatype Birth = Birth(generation: nat, creator: OpId)

  /** A process that may still allocate up to `limit`, unless it was stopped. */
  datatype Growing = Growing(key: ModelKey, limit: nat, bytes: nat, stopped: bool)

  datatype World = World(
    c: Coord,
    pcs: map<OpId, Pc>,
    born: map<ModelKey, Birth>,
    home: map<nat, Home>,
    holder: map<nat, OpId>,
    growing: map<OpId, Growing>,
    settled: map<OpId, nat>)

  // Events, by the activity they belong to

  datatype AdmitEvent =
    | Start(req: Request)
    | Stage1(free: nat, owner: OpId, victims: seq<ModelKey>)
    | GiveUp
    | WaitEnds
    | Release

  datatype LoadEvent =
    | Deferred
    | Measured(bytes: nat)
    | Raised(childLeft: bool)
    | StopPartial
    | Commit
    | UndoUnload
    | UndoFinalize
    | DisposeJoiners
    | WakeJoiners

  datatype EvictEvent = Next | Poll(expired: bool) | Unload | Remove | CloseUp

  datatype JobEvent = Begin | Collect(pending: seq<ModelKey>) | Finish(job: JobId, drained: bool)

  /** Calls from outside an admission: the end of a job, the runtime's callbacks, a process allocating. */
  datatype OutsideEvent =
    | EndOfJob(which: Option<JobId>)
    | Forgotten(key: ModelKey)
    | ChildReported(key: ModelKey, measured: nat)
    | Allocate(op: OpId, bytes: nat)

  datatype Event =
    | Admit(op: OpId, a: AdmitEvent)
    | Load(op: OpId, l: LoadEvent)
    | Evict(op: OpId, v: EvictEvent)
    | Job(op: OpId, j: JobEvent)
    | Outside(x: OutsideEvent)

  const START := World(EMPTY, map[], map[], map[], map[], map[], map[])

  /** The operation whose stage 1 created the entry now under `k`. */
  function Creator(w: World, k: ModelKey): Option<OpId> {
    if k in w.c.residents && k in w.born then Some(w.born[k].creator) else None
  }

  ghost predicate IsPending(c: Coord, pending: seq<ModelKey>) {
    && Distinct(pending)
    && forall k :: k in pending <==> k in c.residents && c.residents[k].phase in {Draining, Resident}
  }

  /** Victims are distinct evictable entries; which ones is the business of `VictimSelection`. */
  ghost predicate AreVictims(c: Coord, k: ModelKey, victims: seq<ModelKey>) {
    Distinct(victims) && forall v :: v in victims ==> Evictable(c, k, v)
  }

  ghost predicate AdmitEnabled(w: World, op: OpId, a: AdmitEvent) {
    match a
    case Start(_) => op !in w.pcs
    case Stage1(_, owner, victims) =>
      && op in w.pcs && w.pcs[op].Ready?
      && AreVictims(w.c, w.pcs[op].req.key, victims)
      && ((exists o :: LoadInFlight(w.c, o, w.pcs[op].req.key)) ==> LoadInFlight(w.c, owner, w.pcs[op].req.key))
    case GiveUp => op in w.pcs && w.pcs[op].Ready?
    case WaitEnds => op in w.pcs && w.pcs[op].Awaiting?
    case Release => op in w.pcs && w.pcs[op].Holding?
  }

  predicate LoadEnabled(w: World, op: OpId, l: LoadEvent) {
    && op in w.pcs
    && match l
       case Deferred => w.pcs[op].LoadRunning?
       case Measured(_) => w.pcs[op].LoadRunning?
       case Raised(_) => w.pcs[op].LoadRunning?
       case StopPartial => w.pcs[op].Failing?
       case Commit => w.pcs[op].Loaded?
       case UndoUnload => w.pcs[op].Undoing?
       case UndoFinalize => w.pcs[op].Undone?
       case DisposeJoiners => w.pcs[op].Disposing?
       case WakeJoiners => w.pcs[op].Committed?
  }

  predicate EvictEnabled(w: World, op: OpId, v: EvictEvent) {
    && op in w.pcs
    && match v
       case Next => w.pcs[op].Evictions? && w.pcs[op].rest != []
       case Poll(_) => w.pcs[op].DrainWait?
       case Unload => w.pcs[op].Unloading?
       case Remove => w.pcs[op].Unloaded?
       case CloseUp => w.pcs[op].Evictions? && w.pcs[op].goal.Some? && w.pcs[op].rest == []
  }

  ghost predicate JobEnabled(w: World, op: OpId, j: JobEvent) {
    match j
    case Begin => op !in w.pcs
    case Collect(pending) => op in w.pcs && w.pcs[op] == Evictions(None, []) && IsPending(w.c, pending)
    case Finish(_, _) => op in w.pcs && w.pcs[op] == Evictions(None, [])
  }

  ghost predicate Enabled(w: World, e: Event) {
    match e
    case Admit(op, a) => AdmitEnabled(w, op, a)
    case Load(op, l) => LoadEnabled(w, op, l)
    case Evict(op, v) => EvictEnabled(w, op, v)
    case Job(op, j) => JobEnabled(w, op, j)
    case Outside(x) => x.Allocate? ==> x.op in w.growing
  }

  function Settle(w: World, op: OpId, bytes: nat): World {
    w.(growing := w.growing - {op}, settled := w.settled[op := bytes])
  }

  /** The process behind the entry under `k` is stopped: its memory is free again. */
  function StopChild(w: World, k: ModelKey): (v: World)
    ensures v == w.(growing := v.growing, settled := v.settled)
  {
    var o := Creator(w, k);
    if o.None? then w
    else w.(growing := if o.value in w.growing then w.growing[o.value := w.growing[o.value].(bytes := 0, stopped := true)] else w.growing,
            settled := w.settled - {o.value})
  }

  /** Forget what was recorded about the process of an entry that has left the resident set. */
  function DropChild(w: World, k: ModelKey): (v: World)
    ensures v == w.(growing := v.growing, settled := v.settled)
  {
    var o := Creator(w, k);
    if o.None? then w else w.(growing := w.growing - {o.value}, settled := w.settled - {o.value})
  }

  function At(w: World, op: OpId, pc: Pc): World { w.(pcs := w.pcs[op := pc]) }

  /** Claims minted in order: the loader's first, then one for each joiner. */
  function Holders(w: World, op: OpId, ws: seq<nat>): map<nat, OpId> {
    var first := w.c.nextClaim;
    var minted := ClaimRange(first, 1 + |ws|);
    w.holder + map claim | claim in minted ::
      if claim == first then op else JoinerOp(w, ws[claim - first - 1], op)
  }

  function JoinerOp(w: World, j: nat, default: OpId): OpId {
    if j in w.c.waiters then w.c.waiters[j].op else default
  }

  // Stage 1, one function per decision

  function OnShare(w: World, op: OpId, req: Request): World
    requires req.key in w.c.residents
  {
    At(w, op, Holding(req.key, w.c.nextClaim)).(
      c := GrantClaim(w.c, req.key),
      holder := w.holder[w.c.nextClaim := op])
  }

  function OnJoin(w: World, op: OpId, req: Request, owner: OpId): World
    requires owner in w.c.reservations
  {
    At(w, op, Awaiting(req, w.c.nextWaiter)).(
      c := Join1(w.c, op, owner),
      home := w.home[w.c.nextWaiter := Registered(owner)])
  }

  function OnReserve(w: World, op: OpId, req: Request): World {
    At(w, op, LoadRunning(req)).(
      c := Reserve(w.c, op, req.key, req.est),
      born := w.born[req.key := Birth(Gen(w.c, req.key), op)],
      growing := w.growing[op := Growing(req.key, req.est, 0, false)])
  }

  function OnMark(w: World, op: OpId, req: Request, victims: seq<ModelKey>): World {
    At(w, op, Evictions(Some(req), victims)).(c := MarkVictims(w.c, op, victims))
  }

  ghost function OnStage1(w: World, op: OpId, req: Request, plan: Plan): World
    requires plan.Share? ==> req.key in w.c.residents
    requires plan.Join? ==> plan.owner in w.c.reservations
  {
    match plan
    case Share => OnShare(w, op, req)
    case Join(owner) => OnJoin(w, op, req, owner)
    case AwaitTransient => w
    case LoadIt => OnReserve(w, op, req)
    case Mark(victims) => OnMark(w, op, req, victims)
    case Reject(_) => At(w, op, Done)
  }

  // Stage 3

  function OnMeasured(w: World, op: OpId, k: ModelKey, measured: nat): World {
    Settle(At(w, op, Loaded(k, measured, false)).(c := Materialize(w.c, op, measured)), op, measured)
  }

  function Adopt(home: map<nat, Home>, ws: seq<nat>, op: OpId): map<nat, Home> {
    map j | j in home :: if j in ws then InCustody(op) else home[j]
  }

  function OnUndo(w: World, op: OpId, k: ModelKey, verdict: Disposition): World
    requires op in w.c.reservations
  {
    At(w, op, Undoing(k, verdict)).(
      c := RollbackIntent(w.c, op, k),
      home := Adopt(w.home, w.c.reservations[op].waiters, op),
      growing := w.growing - {op})
  }

  function OnCommit(w: World, op: OpId, k: ModelKey, size: nat, deferred: bool): World
    requires op in w.c.reservations && k in w.c.residents
  {
    var ws := w.c.reservations[op].waiters;
    At(w, op, Committed(k, w.c.nextClaim, ws)).(
      c := CommitLoad(w.c, op, k, size, deferred),
      holder := Holders(w, op, ws))
  }

  ghost function OnRecheck(w: World, cfg: Config, op: OpId, k: ModelKey, size: nat, deferred: bool): World {
    if op !in w.c.reservations then At(w, op, Undoing(k, Refused(GpuBusy))) // "reservation lost"
    else
      var objection := Objection(w.c, cfg, op, k, size);
      if objection == Unset && k in w.c.residents then OnCommit(w, op, k, size, deferred)
      else OnUndo(w, op, k, objection)
  }

  function OnRaised(w: World, op: OpId, k: ModelKey, childLeft: bool): World {
    var ws := if op in w.c.reservations then w.c.reservations[op].waiters else [];
    var bytes := if op in w.growing then w.growing[op].bytes else 0;
    At(w, op, if childLeft then Failing(k) else Disposing(Refused(LoadFailed))).(
      c := FailLoad(w.c, op, k),
      home := Adopt(w.home, ws, op),
      growing := w.growing - {op},
      settled := if childLeft then w.settled[op := bytes] else w.settled)
  }

  function OnUndoFinalize(w: World, op: OpId, k: ModelKey, verdict: Disposition): World {
    At(w, op, Disposing(verdict)).(c := Finalize(w.c, k))
  }

  ghost function OnDispose(w: World, op: OpId, verdict: Disposition): World {
    At(w, op, Done).(c := Dispose(w.c, if op in w.c.custody then w.c.custody[op] else [], verdict, op))
  }

  ghost function OnWake(w: World, op: OpId, k: ModelKey, claim: nat, joiners: seq<nat>): World {
    At(w, op, Holding(k, claim)).(c := Dispose(w.c, joiners, Shared(claim), op))
  }

  // Joiners and claims

  function AfterWait(req: Request, d: Disposition): Pc {
    match d
    case Unset => Done
    case Shared(claim) => Holding(req.key, claim)
    case Refused(code) => if code == GpuBusy then Ready(req) else Done
    case Retry => Ready(req)
  }

  function OnWaitEnds(w: World, op: OpId, req: Request, j: nat): World {
    if j in w.c.waiters then
      At(w, op, AfterWait(req, w.c.waiters[j].disposition)).(c := EndWait(w.c, op, j))
    else w
  }

  function OnRelease(w: World, op: OpId, k: ModelKey, claim: nat): World {
    At(w, op, Done).(c := ReleaseClaim(w.c, k, claim))
  }

  // Evictions

  function OnEvictNext(w: World, op: OpId, goal: Option<Request>, k: ModelKey, rest: seq<ModelKey>): World {
    At(w, op, if k in w.c.residents then DrainWait(goal, k, rest) else Evictions(goal, rest)).(c := BeginEvict(w.c, k))
  }

  function AfterPoll(goal: Option<Request>, k: ModelKey, rest: seq<ModelKey>, verdict: DrainVerdict): Pc {
    match verdict
    case AlreadyGone => Evictions(goal, rest)
    case Drained => Unloading(goal, k, rest)
    case TimedOut => Evictions(goal, rest)
    case KeepWaiting => DrainWait(goal, k, rest)
  }

  function OnDrainPoll(w: World, op: OpId, goal: Option<Request>, k: ModelKey, rest: seq<ModelKey>, expired: bool): World {
    At(w, op, AfterPoll(goal, k, rest, DrainCheck(w.c, k, expired))).(c := DrainStep(w.c, k, expired))
  }

  function OnEvictUnload(w: World, op: OpId, goal: Option<Request>, k: ModelKey, rest: seq<ModelKey>): World {
    At(StopChild(w, k), op, Unloaded(goal, k, rest))
  }

  function OnEvictFinalize(w: World, op: OpId, goal: Option<Request>, k: ModelKey, rest: seq<ModelKey>): World {
    At(DropChild(w, k), op, Evictions(goal, rest)).(c := Finalize(w.c, k))
  }

  // Jobs and outside calls

  function OnJobBegin(w: World, op: OpId): World {
    At(w, op, if Barred(w.c) then Done else Evictions(None, [])).(c := BeginJob(w.c))
  }

  function OnJobFinish(w: World, op: OpId, job: JobId, drained: bool): World {
    At(w, op, Done).(c := FinishJob(w.c, job, drained))
  }

  function OnForgotten(w: World, k: ModelKey): World {
    if k in w.c.residents then DropChild(w, k).(c := Forget(w.c, k)) else w
  }

  function OnChildReported(w: World, k: ModelKey, measured: nat): (v: World)
    ensures v == w.(c := SetChild(w.c, k, measured), growing := v.growing, settled := v.settled)
  {
    var o := Creator(w, k);
    var w1 := w.(c := SetChild(w.c, k, measured));
    if o.Some? && measured != 0 then Settle(w1, o.value, measured) else w1
  }

  ghost function AdmitStep(w: World, cfg: Config, op: OpId, a: AdmitEvent): World
    requires AdmitEnabled(w, op, a)
  {
    match a
    case Start(req) => At(w, op, Ready(req))
    case Stage1(free, owner, victims) =>
      OnStage1(w, op, w.pcs[op].req, Decide(w.c, cfg, w.pcs[op].req.key, w.pcs[op].req.est, free, owner, victims))
    case GiveUp => At(w, op, Done)
    case WaitEnds => OnWaitEnds(w, op, w.pcs[op].req, w.pcs[op].waiter)
    case Release => OnRelease(w, op, w.pcs[op].key, w.pcs[op].claim)
  }

  ghost function LoadStep(w: World, cfg: Config, op: OpId, l: LoadEvent): World
    requires LoadEnabled(w, op, l)
  {
    match l
    case Deferred => At(w, op, Loaded(w.pcs[op].req.key, w.pcs[op].req.est, true))
    case Measured(bytes) => OnMeasured(w, op, w.pcs[op].req.key, bytes)
    case Raised(childLeft) => OnRaised(w, op, w.pcs[op].req.key, childLeft)
    case StopPartial => At(w, op, Disposing(Refused(LoadFailed))).(settled := w.settled - {op})
    case Commit => OnRecheck(w, cfg, op, w.pcs[op].key, w.pcs[op].size, w.pcs[op].deferred)
    case UndoUnload => At(w, op, Undone(w.pcs[op].key, w.pcs[op].verdict)).(settled := w.settled - {op})
    case UndoFinalize => OnUndoFinalize(w, op, w.pcs[op].key, w.pcs[op].verdict)
    case DisposeJoiners => OnDispose(w, op, w.pcs[op].verdict)
    case WakeJoiners => OnWake(w, op, w.pcs[op].key, w.pcs[op].claim, w.pcs[op].joiners)
  }

  function EvictStep(w: World, op: OpId, v: EvictEvent): World
    requires EvictEnabled(w, op, v)
  {
    match v
    case Next => OnEvictNext(w, op, w.pcs[op].goal, w.pcs[op].rest[0], w.pcs[op].rest[1..])
    case Poll(expired) => OnDrainPoll(w, op, w.pcs[op].goal, w.pcs[op].key, w.pcs[op].rest, expired)
    case Unload => OnEvictUnload(w, op, w.pcs[op].goal, w.pcs[op].key, w.pcs[op].rest)
    case Remove => OnEvictFinalize(w, op, w.pcs[op].goal, w.pcs[op].key, w.pcs[op].rest)
    case CloseUp => At(w, op, Ready(w.pcs[op].goal.value)).(c := CloseIntent(w.c, op))
  }

  function JobStep(w: World, op: OpId, j: JobEvent): World {
    match j
    case Begin => OnJobBegin(w, op)
    case Collect(pending) => At(w, op, Evictions(None, pending))
    case Finish(job, drained) => OnJobFinish(w, op, job, drained)
  }

  function OutsideStep(w: World, x: OutsideEvent): World
    requires x.Allocate? ==> x.op in w.growing
  {
    match x
    case EndOfJob(which) => w.(c := EndJob(w.c, which))
    case Forgotten(k) => OnForgotten(w, k)
    case ChildReported(k, measured) => OnChildReported(w, k, measured)
    case Allocate(op, bytes) =>
      w.(growing := w.growing[op := w.growing[op].(bytes := w.growing[op].bytes + bytes)])
  }

  ghost function Step(w: World, cfg: Config, e: Event): World
    requires Enabled(w, e)
  {
    match e
    case Admit(op, a) => AdmitStep(w, cfg, op, a)
    case Load(op, l) => LoadStep(w, cfg, op, l)
    case Evict(op, v) => EvictStep(w, op, v)
    case Job(op, j) => JobStep(w, op, j)
    case Outside(x) => OutsideStep(w, x)
  }
}
