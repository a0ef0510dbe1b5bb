/** The preemptive swap as the agent runs it, over the shared slot and the engines' runtimes, and the
    reload command keyed by an operation id. */
module SwapClass {
  import opened Common
  import opened Slot
  import opened Lifecycle

  datatype Swapped = Refused | NotEvicted | LoadFailed | Done(evicted: Option<string>)

  class EngineManager {
    const admission: Admission
    const runtimes: map<string, EngineRuntime>

    constructor (slot: Admission, table: map<string, EngineRuntime>)
      requires forall id :: id in table ==> table[id].engine == id && table[id].admission == slot && table[id].Tied()
      ensures Wired() && AllTied() && admission == slot && runtimes == table
    {
      admission, runtimes := slot, table;
    }

    predicate Wired() {
      forall id :: id in runtimes ==> runtimes[id].engine == id && runtimes[id].admission == admission
    }

    predicate AllTied()
      requires Wired()
      reads admission, runtimes.Values
    {
      forall id :: id in runtimes ==> runtimes[id].Tied()
    }

    /** The slot is somebody else's, for a job or for a batch. */
    predicate Protected(holder: Option<Holder>, id: string, batchActive: bool) {
      holder.Some? && holder.value.tenant != Engine(id) && (holder.value.kind.JobKind? || batchActive)
    }

    /** The slot is somebody else's. */
    predicate Foreign(id: string)
      reads admission
    {
      admission.holder.Some? && admission.holder.value.tenant != Engine(id)
    }

    /** Its holder is an engine of the table, and no job. */
    predicate Evictable(id: string)
      requires Foreign(id)
      reads admission
    {
      && admission.holder.value.kind == Serving
      && admission.holder.value.tenant.Engine? && admission.holder.value.tenant.id in runtimes
    }

    /** The holder's child is alive and survives both kills. */
    predicate Stays(alive: bool, kill: Kill)
      reads admission, runtimes.Values
    {
      && admission.holder.Some? && admission.holder.value.tenant.Engine? && admission.holder.value.tenant.id in runtimes
      && runtimes[admission.holder.value.tenant.id].child.Some? && alive && Survives(kill)
    }

    /** Make room for `id` and load it. `batchActive` and `available` are what the two probes answer,
        `alive` and `kill` what the victim's teardown meets, `loads` and `restores` what the two loads meet. */
    method PreemptFor(id: string, batchActive: bool, available: bool, alive: bool, kill: Kill,
                      loads: Surroundings, restores: Surroundings)
      returns (result: Swapped)
      requires Wired() && AllTied()
      modifies admission, runtimes.Values
      ensures AllTied()
      // the reservation is back where it was, on every path
      ensures admission.swapTarget == old(admission.swapTarget)
      ensures id !in runtimes || old(admission.swapTarget).Some? ==> result == Refused
      // a refusal leaves slot and engines alone; a job or a batch is always refused
      ensures result == Refused ==> unchanged(admission) && forall e :: e in runtimes ==> unchanged(runtimes[e])
      ensures Protected(old(admission.holder), id, batchActive) ==> result == Refused
      // success: the target runs, and whoever held the slot before was evicted for it
      ensures result.Done? ==> id in runtimes && runtimes[id].child.Some?
      ensures result.Done? && runtimes[id].gpu ==> Holds(admission.View(), Engine(id))
      ensures result.Done? && result.evicted.Some? ==>
        old(admission.holder).Some? && old(admission.holder).value == Holder(Engine(result.evicted.value), Serving)
        && result.evicted.value in runtimes && result.evicted.value != id && !Holds(admission.View(), Engine(result.evicted.value))
      // a victim that would not go keeps the slot
      ensures result == NotEvicted ==> admission.holder == old(admission.holder)
      // a target that would not start leaves the slot to nobody, to the victim, or to its own wedged child
      ensures result == LoadFailed && admission.holder.Some? ==>
        || admission.holder.value.tenant == Engine(id)
        || (old(admission.holder).Some? && admission.holder.value.tenant == old(admission.holder).value.tenant)
      // what it answers, exactly
      ensures result == Refused <==>
        || id !in runtimes
        || old(admission.swapTarget).Some?
        || (old(Foreign(id)) && (batchActive || !available || !old(Evictable(id)) || !runtimes[id].enabled || old(runtimes[id].wedged)))
      ensures result == NotEvicted <==> result != Refused && old(Foreign(id)) && old(Stays(alive, kill))
      ensures result.Done? <==>
        result != Refused && !(old(Foreign(id)) && old(Stays(alive, kill))) && old(runtimes[id].Loads(loads))
      ensures result.Done? ==> (result.evicted.Some? <==> old(Foreign(id)))
      // and after a target that would not start, a victim that can be brought back is
      ensures result == LoadFailed && old(Foreign(id)) && !Holds(admission.View(), Engine(id)) ==>
        var victim := runtimes[old(admission.holder).value.tenant.id];
        victim.enabled && restores.available && victim.HasMemory(restores) && ComesUp(restores) ==>
          Holds(admission.View(), victim.Me()) && victim.child == restores.pid && !victim.wedged
    {
      if id !in runtimes { return Refused; }
      var target := runtimes[id];
      var mine := admission.BeginSwap(Engine(id));
      if !mine { return Refused; }
      var holder := admission.holder;
      if holder.None? || holder.value.tenant == Engine(id) {
        result := LoadHere(id, loads);
        return;
      }
      if holder.value.kind.JobKind? || batchActive || !holder.value.tenant.Engine? || holder.value.tenant.id !in runtimes
         || !target.enabled || target.wedged || !available {
        admission.EndSwap(Engine(id));
        return Refused;
      }
      result := Exchange(id, holder.value.tenant.id, alive, kill, loads, restores);
    }

    /** Nobody to evict. */
    method LoadHere(id: string, loads: Surroundings) returns (result: Swapped)
      requires Wired() && AllTied() && id in runtimes
      requires admission.swapTarget == Some(Engine(id)) && !Foreign(id)
      modifies admission, runtimes[id]
      ensures AllTied() && admission.swapTarget.None?
      ensures result == if old(runtimes[id].Loads(loads)) then Done(None) else LoadFailed
      ensures result.Done? ==> runtimes[id].child.Some?
      ensures admission.holder.Some? ==> admission.holder.value.tenant == Engine(id)
    {
      var target := runtimes[id];
      assert target.Tied();
      var outcome := target.EnsureLoaded(loads);
      admission.EndSwap(Engine(id));
      return if outcome.Failed? then LoadFailed else Done(None);
    }

    /** Evict the victim and load the target under the reservation, or load the victim back. */
    method Exchange(id: string, victim: string, alive: bool, kill: Kill, loads: Surroundings, restores: Surroundings)
      returns (result: Swapped)
      requires Wired() && AllTied() && id in runtimes && victim in runtimes && id != victim
      requires admission.swapTarget == Some(Engine(id)) && Holds(admission.View(), Engine(victim))
      modifies admission, runtimes[id], runtimes[victim]
      ensures AllTied() && admission.swapTarget.None? && result in {NotEvicted, LoadFailed, Done(Some(victim))}
      ensures result.Done? ==> runtimes[id].child.Some? && !Holds(admission.View(), Engine(victim))
      ensures result == NotEvicted ==> admission.holder == old(admission.holder)
      ensures result == LoadFailed && admission.holder.Some? ==> admission.holder.value.tenant in {Engine(id), Engine(victim)}
      ensures result == NotEvicted <==> old(runtimes[victim].child).Some? && alive && Survives(kill)
      ensures result.Done? <==>
        !(old(runtimes[victim].child).Some? && alive && Survives(kill)) && old(runtimes[id].Loads(loads))
      ensures result == LoadFailed && !Holds(admission.View(), Engine(id)) ==>
        runtimes[victim].enabled && restores.available && runtimes[victim].HasMemory(restores) && ComesUp(restores) ==>
          Holds(admission.View(), Engine(victim)) && runtimes[victim].child == restores.pid && !runtimes[victim].wedged
    {
      var target, evicted := runtimes[id], runtimes[victim];
      assert evicted.Tied() && target.Tied();
      var status := evicted.Teardown(alive, kill);
      if status.Busy? {
        admission.EndSwap(Engine(id));
        return NotEvicted;
      }
      assert admission.holder.None?;
      var outcome := target.EnsureLoaded(loads);
      if !outcome.Failed? {
        admission.EndSwap(Engine(id));
        return Done(Some(victim));
      }
      BringBack(id, victim, restores);
      return LoadFailed;
    }

    /** The reservation passes to the victim, the victim is loaded again if it can be, and the reservation ends: first
        under the victim's name, then once more under the target's. */
    method BringBack(id: string, victim: string, restores: Surroundings)
      requires Wired() && AllTied() && id in runtimes && victim in runtimes && id != victim
      requires admission.swapTarget == Some(Engine(id))
      requires admission.holder.Some? ==> admission.holder.value.tenant == Engine(id)
      requires runtimes[victim].gpu && runtimes[victim].child.None? && !runtimes[victim].wedged
      modifies admission, runtimes[victim]
      ensures AllTied() && admission.swapTarget.None?
      ensures admission.holder.Some? ==> admission.holder.value.tenant in {Engine(id), Engine(victim)}
      ensures !Holds(admission.View(), Engine(id)) ==>
        runtimes[victim].enabled && restores.available && runtimes[victim].HasMemory(restores) && ComesUp(restores) ==>
          Holds(admission.View(), Engine(victim)) && runtimes[victim].child == restores.pid && !runtimes[victim].wedged
    {
      var evicted := runtimes[victim];
      assert evicted.Tied();
      admission.RetargetSwap(Engine(id), Engine(victim));
      var restored := evicted.EnsureLoaded(restores);
      admission.EndSwap(Engine(victim));
      admission.EndSwap(Engine(id));
    }
  }
}

/** The operation store behind the keyed reload. */
module ReloadStore {
  import opened Common

  /** What an operation asks for, and what a reload reports as resident. The model may be unnamed. */
  datatype Target = Target(model: Option<string>, version: Option<string>)

  datatype Record = Record(target: Target, result: Option<Target>)

  type Operations = map<string, Record>

  datatype Entry = Mismatch | Replay(result: Target) | Execute

  function Enter(ops: Operations, id: string, want: Target): Entry {
    if id in ops && ops[id].target != want then Mismatch
    else if id in ops && ops[id].result.Some? then Replay(ops[id].result.value)
    else Execute
  }

  function Entered(ops: Operations, id: string, want: Target): Operations {
    if Enter(ops, id, want).Execute? then ops[id := Record(want, None)] else ops
  }

  predicate Accepted(want: Target, got: Target) { want.model.None? || got == want }

  function Finished(ops: Operations, id: string, want: Target, got: Target): Operations
    requires id in ops
  {
    if Accepted(want, got) then ops[id := ops[id].(result := Some(got))] else ops
  }

  /** The table of one manager: both sections run under its lock, the reload itself between them. */
  class Store {
    var ops: Operations

    constructor ()
      ensures ops == map[]
    {
      ops := map[];
    }

    method EnterOp(id: string, want: Target) returns (entry: Entry)
      modifies this
      ensures entry == Enter(old(ops), id, want) && ops == Entered(old(ops), id, want)
      // another target under the id is a mismatch, a stored result is replayed, and only the rest is executed
      ensures entry.Mismatch? <==> id in old(ops) && old(ops)[id].target != want
      ensures entry.Replay? <==> id in old(ops) && old(ops)[id].target == want && old(ops)[id].result.Some?
      ensures entry.Replay? ==> Some(entry.result) == old(ops)[id].result
      ensures ops == if entry.Execute? then old(ops)[id := Record(want, None)] else old(ops)
    {
      if id in ops && ops[id].target != want { return Mismatch; }
      if id in ops && ops[id].result.Some? { return Replay(ops[id].result.value); }
      ops := ops[id := Record(want, None)];
      return Execute;
    }

    method FinishOp(id: string, want: Target, got: Target) returns (verified: bool)
      requires id in ops
      modifies this
      ensures verified == Accepted(want, got) && ops == Finished(old(ops), id, want, got)
      ensures verified <==> want.model.None? || got == want
      ensures ops == if verified then old(ops)[id := old(ops)[id].(result := Some(got))] else old(ops)
    {
      if want.model.Some? && got != want { return false; }
      ops := ops[id := ops[id].(result := Some(got))];
      return true;
    }
  }

  // Calls interleaving at the two sections; `reloads` counts how often an operation reached the engine

  datatype Call = Arrives(n: nat, id: string, want: Target) | Completes(n: nat, got: Target) | Fails(n: nat)

  datatype Pending = Pending(id: string, want: Target)

  datatype World = World(ops: Operations, inFlight: map<nat, Pending>, reloads: map<string, nat>)

  predicate Enabled(w: World, c: Call) { c.Arrives? <==> c.n !in w.inFlight }

  function Count(w: World, id: string): nat { if id in w.reloads then w.reloads[id] else 0 }

  /** Every call under way is recorded under its own target; a stored result is its operation's target. */
  ghost predicate Recorded(w: World) {
    && (forall n :: n in w.inFlight ==> w.inFlight[n].id in w.ops && w.ops[w.inFlight[n].id].target == w.inFlight[n].want)
    && (forall id :: id in w.ops && w.ops[id].result.Some? ==> Accepted(w.ops[id].target, w.ops[id].result.value))
  }

  function Step(w: World, c: Call): World
    requires Recorded(w) && Enabled(w, c)
  {
    match c
    case Arrives(n, id, want) =>
      if Enter(w.ops, id, want).Execute? then
        World(Entered(w.ops, id, want), w.inFlight[n := Pending(id, want)], w.reloads[id := Count(w, id) + 1])
      else w
    case Completes(n, got) =>
      World(Finished(w.ops, w.inFlight[n].id, w.inFlight[n].want, got), w.inFlight - {n}, w.reloads)
    case Fails(n) => w.(inFlight := w.inFlight - {n})
  }

  predicate Answered(w: World, id: string) { id in w.ops && w.ops[id].result.Some? }

  lemma RecordedKept(w: World, c: Call)
    requires Recorded(w) && Enabled(w, c)
    ensures Recorded(Step(w, c))
  {
  }

  lemma AnswerStays(w: World, c: Call, id: string)
    requires Recorded(w) && Enabled(w, c) && Answered(w, id)
    ensures Answered(Step(w, c), id) && Step(w, c).ops[id].target == w.ops[id].target && Count(Step(w, c), id) == Count(w, id)
  {
  }

  ghost predicate IsRun(w: World, calls: seq<Call>)
    requires Recorded(w)
    decreases |calls|
  {
    calls == [] || (Enabled(w, calls[0]) && (RecordedKept(w, calls[0]); IsRun(Step(w, calls[0]), calls[1..])))
  }

  ghost function After(w: World, calls: seq<Call>): World
    requires Recorded(w) && IsRun(w, calls)
    decreases |calls|
  {
    if calls == [] then w else (RecordedKept(w, calls[0]); After(Step(w, calls[0]), calls[1..]))
  }

  /** A call naming another target than its operation was issued for never touches table or engine. */
  lemma MismatchTouchesNothing(w: World, n: nat, id: string, want: Target)
    requires Recorded(w) && n !in w.inFlight && id in w.ops && w.ops[id].target != want
    ensures Step(w, Arrives(n, id, want)) == w
  {
  }

  /** Once a result is stored for an operation id, no later call with that id reaches the engine, in any
      interleaving; a repeat of the same request is answered from the store, another target refused. */
  lemma {:induction false} StoredMeansNoReload(w: World, calls: seq<Call>, id: string)
    requires Recorded(w) && IsRun(w, calls) && Answered(w, id)
    ensures var v := After(w, calls);
      && Count(v, id) == Count(w, id) && Answered(v, id) && v.ops[id].target == w.ops[id].target
      && Accepted(v.ops[id].target, v.ops[id].result.value)
    ensures forall want :: Enter(After(w, calls).ops, id, want).Execute? == false
    ensures forall want :: Enter(After(w, calls).ops, id, want) == Mismatch <==> want != w.ops[id].target
    ensures Recorded(After(w, calls))
    ensures forall n, want :: n !in After(w, calls).inFlight && want != w.ops[id].target ==>
      Step(After(w, calls), Arrives(n, id, want)) == After(w, calls)
    decreases |calls|
  {
    if calls != [] {
      RecordedKept(w, calls[0]);
      AnswerStays(w, calls[0], id);
      StoredMeansNoReload(Step(w, calls[0]), calls[1..], id);
    } else {
      forall n, want | n !in w.inFlight && want != w.ops[id].target ensures Step(w, Arrives(n, id, want)) == w {
        MismatchTouchesNothing(w, n, id, want);
      }
    }
  }
}
