/** The single GPU slot with its swap reservation: as a value, as the object that keeps it, and under
    the swap transaction with any interleaving of other threads. */
module Slot {
  import opened Common

  datatype Tenant = Engine(id: string) | Training
  datatype Kind = Serving | JobKind
  datatype Holder = Holder(tenant: Tenant, kind: Kind)
  datatype State = State(holder: Option<Holder>, reserved: Option<Tenant>)

  datatype Answer = Admitted | Held(other: Tenant) | VramExceeded

  /** What admission knows of the memory: the free reading, when there is one, and the static budget. */
  datatype Reading = Reading(free: Option<nat>, budget: nat)
  {
    /** Without a reading, 95 percent of the budget. */
    predicate Fits(est: nat) {
      if free.Some? then est <= free.value else 100 * est <= 95 * budget
    }
  }

  function Reply(s: State, t: Tenant, est: nat, r: Reading): Answer {
    if s.holder.Some? then (if s.holder.value.tenant == t then Admitted else Held(s.holder.value.tenant))
    else if s.reserved.Some? && s.reserved.value != t then Held(s.reserved.value)
    else if !r.Fits(est) then VramExceeded
    else Admitted
  }

  function Acquire(s: State, t: Tenant, kind: Kind, est: nat, r: Reading): State {
    if s.holder.None? && Reply(s, t, est, r).Admitted? then s.(holder := Some(Holder(t, kind))) else s
  }

  function Release(s: State, t: Tenant): State {
    if s.holder.Some? && s.holder.value.tenant == t then s.(holder := None) else s
  }

  function Begin(s: State, target: Tenant): State { if s.reserved.Some? then s else s.(reserved := Some(target)) }
  function End(s: State, target: Tenant): State { if s.reserved == Some(target) then s.(reserved := None) else s }
  function Retarget(s: State, was: Tenant, now: Tenant): State {
    if s.reserved == Some(was) then s.(reserved := Some(now)) else s
  }

  predicate Holds(s: State, t: Tenant) { s.holder.Some? && s.holder.value.tenant == t }

  /** The object the agent shares: every method runs under its lock. */
  class Admission {
    const budget: nat
    var holder: Option<Holder>
    var swapTarget: Option<Tenant>

    function View(): State
      reads this
    {
      State(holder, swapTarget)
    }

    constructor (vramBudget: nat)
      ensures budget == vramBudget && View() == State(None, None)
    {
      budget, holder, swapTarget := vramBudget, None, None;
    }

    method BeginSwap(target: Tenant) returns (mine: bool)
      modifies this`swapTarget
      ensures mine == old(swapTarget).None? && View() == Begin(old(View()), target)
      ensures swapTarget == if mine then Some(target) else old(swapTarget)
    {
      if swapTarget.Some? { return false; }
      swapTarget := Some(target);
      return true;
    }

    method EndSwap(target: Tenant)
      modifies this`swapTarget
      ensures View() == End(old(View()), target)
      ensures swapTarget == if old(swapTarget) == Some(target) then None else old(swapTarget)
    {
      if swapTarget == Some(target) { swapTarget := None; }
    }

    method RetargetSwap(was: Tenant, now: Tenant)
      modifies this`swapTarget
      ensures View() == Retarget(old(View()), was, now)
      ensures swapTarget == if old(swapTarget) == Some(was) then Some(now) else old(swapTarget)
    {
      if swapTarget == Some(was) { swapTarget := Some(now); }
    }

    method AcquireSlot(t: Tenant, kind: Kind, est: nat, free: Option<nat>) returns (answer: Answer)
      modifies this`holder
      ensures answer == Reply(old(View()), t, est, Reading(free, budget))
      ensures View() == Acquire(old(View()), t, kind, est, Reading(free, budget))
      ensures answer.Admitted? <==> Holds(View(), t)
      // who holds the slot keeps it; nobody passes a reservation for another; memory is asked for last, the reading
      // where there is one and otherwise 95 percent of the budget
      ensures old(holder).Some? ==>
        answer == if old(holder).value.tenant == t then Admitted else Held(old(holder).value.tenant)
      ensures old(holder).None? ==>
        answer ==
          if swapTarget.Some? && swapTarget.value != t then Held(swapTarget.value)
          else if (if free.Some? then est <= free.value else est * 100 <= budget * 95) then Admitted
          else VramExceeded
      ensures holder == if old(holder).None? && answer.Admitted? then Some(Holder(t, kind)) else old(holder)
    {
      if holder.Some? {
        if holder.value.tenant == t { return Admitted; }
        return Held(holder.value.tenant);
      }
      if swapTarget.Some? && swapTarget.value != t { return Held(swapTarget.value); }
      if free.Some? {
        if est > free.value { return VramExceeded; }
      } else if 100 * est > 95 * budget {
        return VramExceeded;
      }
      holder := Some(Holder(t, kind));
      return Admitted;
    }

    method ReleaseSlot(t: Tenant)
      modifies this`holder
      ensures View() == Release(old(View()), t) && !Holds(View(), t)
      ensures holder == if old(holder).Some? && old(holder).value.tenant == t then None else old(holder)
    {
      if holder.Some? && holder.value.tenant == t { holder := None; }
    }
  }
}

/** The swap transaction: reserve, inspect, evict, load, and on failure load the evicted holder back. */
module SwapProtocol {
  import opened Common
  import opened Slot

  datatype SwapId = SwapId(n: nat)

  datatype Stage =
    | Begun                       // reserved; the holder not yet read
    | Loading                     // nothing to evict
    | Evicting(victim: Tenant)    // every check passed; about to unload the victim
    | Evicted(victim: Tenant)     // slot free; about to load the target
    | Restoring(victim: Tenant)   // reservation handed to the victim; about to load it back
    | Restored                    // the inner end done, the outer one still to come
    | Closing                     // about to end
    | Over

  datatype Swap = Swap(target: Tenant, stage: Stage)

  datatype World = World(slot: State, swaps: map<SwapId, Swap>)

  /** The reservation a transaction counts on. */
  function Counted(s: Swap): Option<Tenant> {
    match s.stage
    case Restoring(victim) => Some(victim)
    case Restored => None
    case Over => None
    case _ => Some(s.target)
  }

  datatype Event =
    | Start(id: SwapId, target: Tenant)
    | Inspect(id: SwapId, batchActive: bool, ready: bool)
    | Evict(id: SwapId, released: bool)
    | Load(id: SwapId, r: Reading, est: nat, fails: bool, wedged: bool)
    | Restore(id: SwapId, r: Reading, est: nat, fails: bool, wedged: bool)
    | Finish(id: SwapId)
    | OtherAcquire(t: Tenant, kind: Kind, est: nat, r: Reading)
    | OtherRelease(t: Tenant)

  predicate At(w: World, id: SwapId, s: Stage) { id in w.swaps && w.swaps[id].stage == s }

  /** Engines serve; only the training tenant runs jobs, and it is nobody's swap target. */
  predicate Enabled(w: World, e: Event) {
    match e
    case Start(id, target) => id !in w.swaps && target.Engine?
    case Inspect(id, _, _) => At(w, id, Begun)
    case Evict(id, _) => id in w.swaps && w.swaps[id].stage.Evicting?
    case Load(id, _, _, _, _) => id in w.swaps && (w.swaps[id].stage.Loading? || w.swaps[id].stage.Evicted?)
    case Restore(id, _, _, _, _) => id in w.swaps && w.swaps[id].stage.Restoring?
    case Finish(id) => At(w, id, Restored) || At(w, id, Closing)
    case OtherAcquire(t, kind, _, _) => t.Engine? <==> kind.Serving?
    case OtherRelease(_) => true
  }

  function Put(w: World, id: SwapId, target: Tenant, stage: Stage, slot: State): World {
    World(slot, w.swaps[id := Swap(target, stage)])
  }

  function OnStart(w: World, id: SwapId, target: Tenant): World {
    if w.slot.reserved.Some? then w else Put(w, id, target, Begun, Begin(w.slot, target))
  }

  /** `ready` stands for the target's probe: enabled, not wedged, artifacts available. */
  function OnInspect(w: World, id: SwapId, target: Tenant, batchActive: bool, ready: bool): World {
    var next :=
      if w.slot.holder.None? || w.slot.holder.value.tenant == target then Loading
      else if w.slot.holder.value.kind.JobKind? || batchActive || !w.slot.holder.value.tenant.Engine? || !ready then Closing
      else Evicting(w.slot.holder.value.tenant);
    Put(w, id, target, next, w.slot)
  }

  function OnEvict(w: World, id: SwapId, s: Swap, released: bool): World
    requires s.stage.Evicting?
  {
    if released then Put(w, id, s.target, Evicted(s.stage.victim), Release(w.slot, s.stage.victim))
    else Put(w, id, s.target, Closing, w.slot)
  }

  /** Loading an engine: acquire, and on a failed start release again unless its child survives the kill. */
  function Loads(slot: State, t: Tenant, est: nat, r: Reading, fails: bool, wedged: bool): (State, bool) {
    var acquired := Acquire(slot, t, Serving, est, r);
    if !Reply(slot, t, est, r).Admitted? then (slot, false)
    else if fails then (if wedged then acquired else Release(acquired, t), false)
    else (acquired, true)
  }

  function OnLoad(w: World, id: SwapId, s: Swap, est: nat, r: Reading, fails: bool, wedged: bool): World {
    var (slot, loaded) := Loads(w.slot, s.target, est, r, fails, wedged);
    if loaded || !s.stage.Evicted? then Put(w, id, s.target, Closing, slot)
    else Put(w, id, s.target, Restoring(s.stage.victim), Retarget(slot, s.target, s.stage.victim))
  }

  function OnRestore(w: World, id: SwapId, s: Swap, est: nat, r: Reading, fails: bool, wedged: bool): World
    requires s.stage.Restoring?
  {
    Put(w, id, s.target, Restored, End(Loads(w.slot, s.stage.victim, est, r, fails, wedged).0, s.stage.victim))
  }

  function OnFinish(w: World, id: SwapId, target: Tenant): World { Put(w, id, target, Over, End(w.slot, target)) }

  function Step(w: World, e: Event): World
    requires Enabled(w, e)
  {
    match e
    case Start(id, target) => OnStart(w, id, target)
    case Inspect(id, batchActive, ready) => OnInspect(w, id, w.swaps[id].target, batchActive, ready)
    case Evict(id, released) => OnEvict(w, id, w.swaps[id], released)
    case Load(id, r, est, fails, wedged) => OnLoad(w, id, w.swaps[id], est, r, fails, wedged)
    case Restore(id, r, est, fails, wedged) => OnRestore(w, id, w.swaps[id], est, r, fails, wedged)
    case Finish(id) => OnFinish(w, id, w.swaps[id].target)
    case OtherAcquire(t, kind, est, r) => w.(slot := Acquire(w.slot, t, kind, est, r))
    case OtherRelease(t) => w.(slot := Release(w.slot, t))
  }

  // What the reservation guarantees

  /** A transaction under way has exactly the reservation it counts on, and is the only one; jobs and
      engines keep their kinds; what is being unloaded is an engine's, never a job's. */
  ghost predicate Guarded(w: World) {
    && (forall id :: id in w.swaps && Counted(w.swaps[id]).Some? ==> w.slot.reserved == Counted(w.swaps[id]))
    && (forall i, j :: i in w.swaps && j in w.swaps && Counted(w.swaps[i]).Some? && Counted(w.swaps[j]).Some? ==> i == j)
    && (w.slot.holder.Some? ==> (w.slot.holder.value.tenant.Engine? <==> w.slot.holder.value.kind.Serving?))
    && (forall id :: id in w.swaps ==> w.swaps[id].target.Engine?)
    && (forall id :: id in w.swaps && w.swaps[id].stage.Evicting? ==> EvictsServing(w, w.swaps[id]))
    && (forall id :: id in w.swaps && (w.swaps[id].stage.Evicted? || w.swaps[id].stage.Restoring?) ==> w.swaps[id].stage.victim.Engine?)
  }

  /** When the swap unloads its victim the slot is still the victim's, or nobody's, or the target's
      already: in no case a job's. */
  predicate EvictsServing(w: World, s: Swap)
    requires s.stage.Evicting?
  {
    && s.stage.victim.Engine?
    && (w.slot.holder.Some? ==> w.slot.holder.value.tenant in {s.stage.victim, s.target})
  }

  /** The outer end of a rolled-back swap comes after its inner end; a new swap for the same target may
      have begun in between. */
  predicate LateEndHits(w: World, e: Event) {
    e.Finish? && At(w, e.id, Restored) && w.slot.reserved == Some(w.swaps[e.id].target)
    && exists j :: j in w.swaps && Counted(w.swaps[j]) == Some(w.swaps[e.id].target)
  }

  lemma NewSwapKeepsGuarded(w: World, id: SwapId, target: Tenant)
    requires Guarded(w) && id !in w.swaps && target.Engine?
    ensures Guarded(OnStart(w, id, target))
  {
  }

  /** A transaction moves on without ending. */
  lemma MoveKeepsGuarded(w: World, v: World, id: SwapId)
    requires Guarded(w) && id in w.swaps && id in v.swaps && v.swaps == w.swaps[id := v.swaps[id]]
    requires v.swaps[id].target == w.swaps[id].target && Counted(w.swaps[id]).Some?
    requires Counted(v.swaps[id]).Some? ==> v.slot.reserved == Counted(v.swaps[id])
    requires v.slot.holder.Some? ==> (v.slot.holder.value.tenant.Engine? <==> v.slot.holder.value.kind.Serving?)
    requires v.swaps[id].stage.Evicting? ==> EvictsServing(v, v.swaps[id])
    requires v.swaps[id].stage.Evicted? || v.swaps[id].stage.Restoring? ==> v.swaps[id].stage.victim.Engine?
    ensures Guarded(v)
  {
    assert forall j :: j in w.swaps && j != id ==> Counted(w.swaps[j]).None?;
  }

  /** Somebody else acquires or releases: only the reserved tenant can enter an empty slot. */
  lemma OthersKeepGuarded(w: World, slot: State)
    requires Guarded(w) && slot.reserved == w.slot.reserved
    requires slot.holder == w.slot.holder || slot.holder.None?
      || (w.slot.holder.None? && (slot.holder.value.tenant.Engine? <==> slot.holder.value.kind.Serving?)
          && (w.slot.reserved.Some? ==> slot.holder.value.tenant == w.slot.reserved.value))
    ensures Guarded(w.(slot := slot))
  {
    var v := w.(slot := slot);
    forall id | id in v.swaps && v.swaps[id].stage.Evicting? ensures EvictsServing(v, v.swaps[id]) {
      assert EvictsServing(w, w.swaps[id]);
    }
  }

  /** Every step keeps the guarantee, the late outer end included, exactly unless that end comes when a
      new swap for the same target has begun. */
  lemma GuardedKept(w: World, e: Event)
    requires Guarded(w) && Enabled(w, e)
    ensures Guarded(Step(w, e)) <==> !LateEndHits(w, e)
  {
    match e
    case Start(id, target) => NewSwapKeepsGuarded(w, id, target);
    case OtherAcquire(t, kind, est, r) => OthersKeepGuarded(w, Acquire(w.slot, t, kind, est, r));
    case OtherRelease(t) => OthersKeepGuarded(w, Release(w.slot, t));
    case Finish(id) => FinishKeepsGuarded(w, id);
    case Inspect(id, batchActive, ready) => InspectKeepsGuarded(w, id, batchActive, ready);
    case Evict(id, released) => EvictKeepsGuarded(w, id, released);
    case Load(id, r, est, fails, wedged) => LoadKeepsGuarded(w, id, r, est, fails, wedged);
    case Restore(id, r, est, fails, wedged) => RestoreKeepsGuarded(w, id, r, est, fails, wedged);
  }

  lemma InspectKeepsGuarded(w: World, id: SwapId, batchActive: bool, ready: bool)
    requires Guarded(w) && Enabled(w, Inspect(id, batchActive, ready))
    ensures Guarded(OnInspect(w, id, w.swaps[id].target, batchActive, ready))
  {
    MoveKeepsGuarded(w, OnInspect(w, id, w.swaps[id].target, batchActive, ready), id);
  }

  lemma EvictKeepsGuarded(w: World, id: SwapId, released: bool)
    requires Guarded(w) && Enabled(w, Evict(id, released))
    ensures Guarded(OnEvict(w, id, w.swaps[id], released))
  {
    MoveKeepsGuarded(w, OnEvict(w, id, w.swaps[id], released), id);
  }

  lemma LoadKeepsGuarded(w: World, id: SwapId, r: Reading, est: nat, fails: bool, wedged: bool)
    requires Guarded(w) && Enabled(w, Load(id, r, est, fails, wedged))
    ensures Guarded(OnLoad(w, id, w.swaps[id], est, r, fails, wedged))
  {
    MoveKeepsGuarded(w, OnLoad(w, id, w.swaps[id], est, r, fails, wedged), id);
  }

  lemma RestoreKeepsGuarded(w: World, id: SwapId, r: Reading, est: nat, fails: bool, wedged: bool)
    requires Guarded(w) && Enabled(w, Restore(id, r, est, fails, wedged))
    ensures Guarded(OnRestore(w, id, w.swaps[id], est, r, fails, wedged))
  {
    MoveKeepsGuarded(w, OnRestore(w, id, w.swaps[id], est, r, fails, wedged), id);
  }

  lemma FinishKeepsGuarded(w: World, id: SwapId)
    requires Guarded(w) && Enabled(w, Finish(id))
    ensures Guarded(Step(w, Finish(id))) <==> !LateEndHits(w, Finish(id))
  {
    var v := Step(w, Finish(id));
    if w.swaps[id].stage.Closing? {
      MoveKeepsGuarded(w, v, id);
    } else if LateEndHits(w, Finish(id)) {
      var j :| j in w.swaps && Counted(w.swaps[j]) == Some(w.swaps[id].target);
      assert j in v.swaps && Counted(v.swaps[j]).Some?;
    } else {
      forall j | j in v.swaps && Counted(v.swaps[j]).Some? ensures v.slot.reserved == Counted(v.swaps[j]) {
        assert j != id && w.slot.reserved == Counted(w.swaps[j]);
      }
      forall j | j in v.swaps && v.swaps[j].stage.Evicting? ensures EvictsServing(v, v.swaps[j]) {
        assert EvictsServing(w, w.swaps[j]);
      }
    }
  }

  // How the slot moves while a transaction is under way

  predicate UnderWay(w: World, id: SwapId) { id in w.swaps && Counted(w.swaps[id]).Some? }

  /** One step of anybody: the slot keeps its holder, or loses it, or an empty slot goes to the very
      tenant the reservation names. */
  lemma SlotMovesAsReserved(w: World, e: Event, id: SwapId)
    requires Guarded(w) && Enabled(w, e) && UnderWay(w, id)
    ensures var v := Step(w, e);
      || v.slot.holder == w.slot.holder
      || v.slot.holder.None?
      || (w.slot.holder.None? && v.slot.holder.value.tenant == Counted(w.swaps[id]).value)
  {
  }

  /** From its begin to its end a transaction is never without a reservation: a failed load turns the
      target's into the victim's in one step. */
  lemma NoGap(w: World, e: Event, id: SwapId)
    requires Guarded(w) && Enabled(w, e) && UnderWay(w, id) && !LateEndHits(w, e)
    ensures var v := Step(w, e);
      || v.slot.reserved == w.slot.reserved
      || (e.Load? && e.id == id && w.swaps[id].stage.Evicted? && v.slot.reserved == Some(w.swaps[id].stage.victim))
      || ((e.Finish? || e.Restore?) && e.id == id && !UnderWay(v, id) && v.slot.reserved.None?)
  {
  }

  const START := World(State(None, None), map[])

  ghost predicate IsRun(w: World, events: seq<Event>)
    decreases |events|
  {
    events == [] || (Enabled(w, events[0]) && !LateEndHits(w, events[0]) && IsRun(Step(w, events[0]), events[1..]))
  }

  ghost function After(w: World, events: seq<Event>): World
    requires IsRun(w, events)
    decreases |events|
  {
    if events == [] then w else After(Step(w, events[0]), events[1..])
  }

  lemma {:induction false} AlwaysGuarded(w: World, events: seq<Event>)
    requires Guarded(w) && IsRun(w, events)
    ensures Guarded(After(w, events))
    decreases |events|
  {
    if events != [] {
      GuardedKept(w, events[0]);
      AlwaysGuarded(Step(w, events[0]), events[1..]);
    }
  }

  /** In every run from an empty slot, a swap about to unload faces its serving victim, an empty slot, or
      its own target: never a job. */
  lemma JobsAreNeverUnloaded(events: seq<Event>, id: SwapId)
    requires IsRun(START, events)
    ensures var w := After(START, events);
      id in w.swaps && w.swaps[id].stage.Evicting? && w.slot.holder.Some? ==> w.slot.holder.value.kind == Serving
  {
    AlwaysGuarded(START, events);
  }

  lemma Prepend(w: World, e: Event, rest: seq<Event>)
    requires Enabled(w, e) && !LateEndHits(w, e) && IsRun(Step(w, e), rest)
    ensures IsRun(w, [e] + rest) && After(w, [e] + rest) == After(Step(w, e), rest)
  {
    assert ([e] + rest)[1..] == rest;
  }

  const ROOM := Reading(Some(0), 0)

  /** A serving victim; a swap that evicts it, fails to load its target and rolls back. */
  function RollbackEvents(one: SwapId, target: Tenant, victim: Tenant): seq<Event> {
    [OtherAcquire(victim, Serving, 0, ROOM)] + ([Start(one, target)] + ([Inspect(one, false, true)] + ([Evict(one, true)]
      + ([Load(one, ROOM, 0, true, false)] + [Restore(one, ROOM, 0, false, false)]))))
  }

  lemma RollbackSteps(one: SwapId, target: Tenant, victim: Tenant)
    requires target.Engine? && victim.Engine? && target != victim
    ensures var h := Some(Holder(victim, Serving));
      var e1, e2, e3, e4 := OtherAcquire(victim, Serving, 0, ROOM), Start(one, target), Inspect(one, false, true), Evict(one, true);
      var e5, e6 := Load(one, ROOM, 0, true, false), Restore(one, ROOM, 0, false, false);
      var w1 := World(State(h, None), map[]);
      var w2 := World(State(h, Some(target)), map[one := Swap(target, Begun)]);
      var w3 := World(State(h, Some(target)), map[one := Swap(target, Evicting(victim))]);
      var w4 := World(State(None, Some(target)), map[one := Swap(target, Evicted(victim))]);
      var w5 := World(State(None, Some(victim)), map[one := Swap(target, Restoring(victim))]);
      && Enabled(START, e1) && Step(START, e1) == w1 && Enabled(w1, e2) && Step(w1, e2) == w2
      && Enabled(w2, e3) && Step(w2, e3) == w3 && Enabled(w3, e4) && Step(w3, e4) == w4
      && Enabled(w4, e5) && Step(w4, e5) == w5 && Enabled(w5, e6)
      && Step(w5, e6) == World(State(h, None), map[one := Swap(target, Restored)])
  {
  }

  lemma RollbackRuns(one: SwapId, target: Tenant, victim: Tenant, rest: seq<Event>)
    requires target.Engine? && victim.Engine? && target != victim
    requires IsRun(World(State(Some(Holder(victim, Serving)), None), map[one := Swap(target, Restored)]), rest)
    ensures IsRun(START, RollbackEvents(one, target, victim) + rest)
    ensures After(START, RollbackEvents(one, target, victim) + rest)
      == After(World(State(Some(Holder(victim, Serving)), None), map[one := Swap(target, Restored)]), rest)
  {
    var h := Some(Holder(victim, Serving));
    var e1, e2, e3, e4 := OtherAcquire(victim, Serving, 0, ROOM), Start(one, target), Inspect(one, false, true), Evict(one, true);
    var e5, e6 := Load(one, ROOM, 0, true, false), Restore(one, ROOM, 0, false, false);
    var w1 := World(State(h, None), map[]);
    var w2 := World(State(h, Some(target)), map[one := Swap(target, Begun)]);
    var w3 := World(State(h, Some(target)), map[one := Swap(target, Evicting(victim))]);
    var w4 := World(State(None, Some(target)), map[one := Swap(target, Evicted(victim))]);
    var w5 := World(State(None, Some(victim)), map[one := Swap(target, Restoring(victim))]);
    hide Step, Enabled, IsRun, After;
    RollbackSteps(one, target, victim);
    Prepend(w5, e6, rest);
    Prepend(w4, e5, [e6] + rest);
    Prepend(w3, e4, [e5] + ([e6] + rest));
    Prepend(w2, e3, [e4] + ([e5] + ([e6] + rest)));
    Prepend(w1, e2, [e3] + ([e4] + ([e5] + ([e6] + rest))));
    Prepend(START, e1, [e2] + ([e3] + ([e4] + ([e5] + ([e6] + rest)))));
    assert RollbackEvents(one, target, victim) + rest == [e1] + ([e2] + ([e3] + ([e4] + ([e5] + ([e6] + rest)))));
  }

  /** The run that breaks it: swap 1 has rolled back and ended its reservation, swap 2 for the same target has
      reserved; the late outer end of swap 1 takes swap 2's reservation away. */
  lemma LateEndDropsNewReservation(target: Tenant, victim: Tenant)
    requires target.Engine? && victim.Engine? && target != victim
    ensures var one, two := SwapId(1), SwapId(2);
      var events := RollbackEvents(one, target, victim) + [Start(two, target)];
      && IsRun(START, events)
      && (var w := After(START, events);
          && Enabled(w, Finish(one)) && UnderWay(w, two) && w.slot.reserved == Some(target)
          && Step(w, Finish(one)).slot.reserved.None? && UnderWay(Step(w, Finish(one)), two))
  {
    var one, two := SwapId(1), SwapId(2);
    var w6 := World(State(Some(Holder(victim, Serving)), None), map[one := Swap(target, Restored)]);
    var w7 := Step(w6, Start(two, target));
    assert IsRun(w7, []) && After(w7, []) == w7;
    Prepend(w6, Start(two, target), []);
    assert [Start(two, target)] + [] == [Start(two, target)];
    RollbackRuns(one, target, victim, [Start(two, target)]);
    hide IsRun, After;
  }

  /** A swap nothing goes wrong with: a serving victim is evicted, the target loaded, and the reservation gone. */
  lemma SwapCarriedOut(one: SwapId, target: Tenant, victim: Tenant)
    requires target.Engine? && victim.Engine? && target != victim
    ensures var events := [OtherAcquire(victim, Serving, 0, ROOM)] + ([Start(one, target)] + ([Inspect(one, false, true)]
        + ([Evict(one, true)] + ([Load(one, ROOM, 0, false, false)] + [Finish(one)]))));
      IsRun(START, events) && After(START, events).slot == State(Some(Holder(target, Serving)), None)
  {
    RollbackSteps(one, target, victim);
    SwapEnds(one, target, victim);
    var e1, e2, e3, e4 := OtherAcquire(victim, Serving, 0, ROOM), Start(one, target), Inspect(one, false, true), Evict(one, true);
    var e5, e6 := Load(one, ROOM, 0, false, false), Finish(one);
    var w4 := World(State(None, Some(target)), map[one := Swap(target, Evicted(victim))]);
    var w5 := Step(w4, e5);
    var w6 := Step(w5, e6);
    assert IsRun(w6, []) && After(w6, []) == w6;
    hide Step, Enabled, IsRun, After;
    Prepend(w5, e6, []);
    assert [e6] + [] == [e6];
    Prepend(w4, e5, [e6]);
    Prepend(World(State(Some(Holder(victim, Serving)), Some(target)), map[one := Swap(target, Evicting(victim))]), e4, [e5] + [e6]);
    Prepend(World(State(Some(Holder(victim, Serving)), Some(target)), map[one := Swap(target, Begun)]), e3, [e4] + ([e5] + [e6]));
    Prepend(World(State(Some(Holder(victim, Serving)), None), map[]), e2, [e3] + ([e4] + ([e5] + [e6])));
    Prepend(START, e1, [e2] + ([e3] + ([e4] + ([e5] + [e6]))));
  }

  lemma SwapEnds(one: SwapId, target: Tenant, victim: Tenant)
    requires target.Engine? && victim.Engine? && target != victim
    ensures var w4 := World(State(None, Some(target)), map[one := Swap(target, Evicted(victim))]);
      var e5, e6 := Load(one, ROOM, 0, false, false), Finish(one);
      && Enabled(w4, e5) && Enabled(Step(w4, e5), e6) && !LateEndHits(Step(w4, e5), e6)
      && Step(Step(w4, e5), e6).slot == State(Some(Holder(target, Serving)), None)
  {
    var w5 := World(State(Some(Holder(target, Serving)), Some(target)), map[one := Swap(target, Closing)]);
    assert Step(World(State(None, Some(target)), map[one := Swap(target, Evicted(victim))]), Load(one, ROOM, 0, false, false)) == w5;
  }
}
