/** One engine's life on the slot: loading, readiness, teardown, wedging and reaping. */
module Lifecycle {
  import opened Common
  import opened Slot

  datatype Status = Idle | Unloaded | Busy
  datatype Outcome = AlreadyReady | Started | Failed

  /** Whether the child is gone after terminate, and after kill. */
  datatype Kill = Kill(onTerminate: bool, onKill: bool)

  /** One look at a starting child. */
  datatype Poll = Poll(ready: bool, exited: bool)

  /** Everything a load learns from its surroundings, in the order it asks. */
  datatype Surroundings = Surroundings(
    alive: bool, ready: bool, available: bool, reap: Kill,
    est: nat, free: Option<nat>, pid: Option<nat>, polls: seq<Poll>, aliveAtEnd: bool, cleanup: Kill)

  /** The first poll that settles the matter decides; running out of polls is a failure. */
  predicate BecomesReady(polls: seq<Poll>) {
    polls != [] && (polls[0].ready || (!polls[0].exited && BecomesReady(polls[1..])))
  }

  lemma {:induction false} ReadyBeforeExit(polls: seq<Poll>)
    ensures BecomesReady(polls) <==>
      exists i :: 0 <= i < |polls| && polls[i].ready && forall j :: 0 <= j < i ==> !polls[j].exited
  {
    if polls != [] {
      ReadyBeforeExit(polls[1..]);
      if BecomesReady(polls) && !polls[0].ready {
        var i :| 0 <= i < |polls[1..]| && polls[1..][i].ready && forall j :: 0 <= j < i ==> !polls[1..][j].exited;
        assert polls[i + 1].ready;
        assert forall j :: 0 < j < i + 1 ==> polls[j] == polls[1..][j - 1];
      }
      if i :| 0 <= i < |polls| && polls[i].ready && forall j :: 0 <= j < i ==> !polls[j].exited {
        if i > 0 {
          assert polls[1..][i - 1].ready;
          assert forall j :: 0 <= j < i - 1 ==> polls[1..][j] == polls[j + 1];
        }
      }
    }
  }

  /** A process comes up: it is spawned, and some poll finds it ready before one finds it gone. */
  ghost predicate ComesUp(env: Surroundings) {
    && env.pid.Some?
    && exists i :: 0 <= i < |env.polls| && env.polls[i].ready && forall j :: 0 <= j < i ==> !env.polls[j].exited
  }

  predicate Survives(kill: Kill) { !kill.onTerminate && !kill.onKill }

  class EngineRuntime {
    const engine: string
    const gpu: bool
    const enabled: bool
    const admission: Admission
    var child: Option<nat>
    var wedged: bool

    function Me(): Tenant { Engine(engine) }

    /** The slot follows the child; a wedged engine still has one; a CPU engine never holds the slot. */
    predicate Tied()
      reads this, admission
    {
      && (gpu ==> (Holds(admission.View(), Me()) <==> child.Some?))
      && (!gpu ==> !Holds(admission.View(), Me()))
      && (wedged ==> child.Some?)
    }

    /** The slot changes hands only between this engine and nobody. */
    predicate OnlyMine(was: Option<Holder>, now: Option<Holder>) {
      now == was || ((was.None? || was.value.tenant == Me()) && (now.None? || now.value.tenant == Me()))
    }

    constructor (name: string, onGpu: bool, on: bool, slot: Admission)
      requires !Holds(slot.View(), Engine(name))
      ensures engine == name && gpu == onGpu && enabled == on && admission == slot && Tied() && child.None?
    {
      engine, gpu, enabled, admission := name, onGpu, on, slot;
      child, wedged := None, false;
    }

    /** Kill what runs, then give the slot back, unless the child survives. `alive` is its last poll. */
    method Teardown(alive: bool, kill: Kill) returns (status: Status)
      requires gpu && child.Some? ==> Holds(admission.View(), Me())
      requires !gpu ==> !Holds(admission.View(), Me())
      modifies this, admission`holder
      ensures Tied() && OnlyMine(old(admission.holder), admission.holder)
      ensures status == if old(child).None? || !alive then Idle else if kill.onTerminate || kill.onKill then Unloaded else Busy
      ensures status.Busy? <==> wedged
      ensures status.Busy? ==> admission.holder == old(admission.holder)
      ensures child == if status.Busy? then old(child) else None
    {
      if child.None? || !alive {
        child, wedged := None, false;
        if gpu { admission.ReleaseSlot(Me()); }
        return Idle;
      }
      if !kill.onTerminate && !kill.onKill {
        wedged := true;
        return Busy;
      }
      child, wedged := None, false;
      if gpu { admission.ReleaseSlot(Me()); }
      return Unloaded;
    }

    method AwaitReady(polls: seq<Poll>) returns (ready: bool)
      ensures ready == BecomesReady(polls)
    {
      var i := 0;
      while i < |polls|
        invariant 0 <= i <= |polls|
        invariant BecomesReady(polls) <==> BecomesReady(polls[i..])
      {
        if polls[i].ready { return true; }
        if polls[i].exited { return false; }
        assert polls[i..][1..] == polls[i + 1..];
        i := i + 1;
      }
      return false;
    }

    /** The slot is this engine's, or will be when it asks: nobody else has it or has it reserved, and its memory is
        there. An engine whose child is dead still has the slot and is not asked again. */
    predicate SlotOpen(env: Surroundings)
      reads this, admission
    {
      || !gpu
      || (child.Some? && !env.alive)
      || ((admission.holder.None? || admission.holder.value.tenant == Me())
          && (admission.swapTarget.None? || admission.swapTarget.value == Me())
          && (if env.free.Some? then env.est <= env.free.value else env.est * 100 <= admission.budget * 95))
    }

    /** A live child that is not ready has to go first, and does. */
    predicate CanRelaunch(env: Surroundings)
      reads this
    {
      child.Some? && env.alive ==> !Survives(env.reap)
    }

    predicate AlreadyServes(env: Surroundings)
      reads this
    {
      child.Some? && env.alive && env.ready
    }

    /** A load succeeds, once the slot is nobody else's. */
    ghost predicate Loads(env: Surroundings)
      reads this
    {
      && enabled && !wedged
      && (AlreadyServes(env) || (env.available && CanRelaunch(env) && (HasMemory(env) || (child.Some? && !env.alive)) && ComesUp(env)))
    }

    predicate HasMemory(env: Surroundings) {
      !gpu || if env.free.Some? then env.est <= env.free.value else env.est * 100 <= admission.budget * 95
    }

    /** Load on demand. Whatever the spawn, the readiness polls and the kills do, the slot follows the
        child; and after a failure nothing is left behind but a child that survived its kill, or one that
        was there before. */
    method EnsureLoaded(env: Surroundings) returns (outcome: Outcome)
      requires Tied()
      modifies this, admission`holder
      ensures Tied() && OnlyMine(old(admission.holder), admission.holder)
      ensures outcome.Started? ==> child.Some? && child == env.pid && BecomesReady(env.polls) && !wedged
      ensures outcome.AlreadyReady? ==> child == old(child) && child.Some? && env.alive && env.ready && !wedged
      ensures outcome.Failed? && !wedged && child.Some? ==> child == old(child)
      ensures outcome.Failed? && (!enabled || old(wedged)) ==> child == old(child) && wedged == old(wedged)
      // what it answers, exactly
      ensures outcome.AlreadyReady? <==> enabled && !old(wedged) && old(child).Some? && env.alive && env.ready
      ensures outcome.Started? <==>
        && enabled && !old(wedged) && !old(AlreadyServes(env)) && env.available && old(CanRelaunch(env)) && old(SlotOpen(env))
        && ComesUp(env)
      // and what a failed load leaves
      ensures outcome.Failed? && (!enabled || old(wedged) || !env.available) ==>
        child == old(child) && wedged == old(wedged) && admission.holder == old(admission.holder)
      ensures outcome.Failed? && enabled && !old(wedged) && env.available && !old(CanRelaunch(env)) ==>
        child == old(child) && wedged && admission.holder == old(admission.holder)
      ensures outcome.Failed? && enabled && !old(wedged) && env.available && old(CanRelaunch(env)) && !old(SlotOpen(env)) ==>
        child.None? && !wedged
      ensures outcome.Failed? && enabled && !old(wedged) && env.available && old(CanRelaunch(env)) && old(SlotOpen(env)) ==>
        (wedged <==> child.Some?)
      ensures admission.swapTarget == old(admission.swapTarget)
    {
      ReadyBeforeExit(env.polls);
      if !enabled || wedged { return Failed; }
      if child.Some? && env.alive && env.ready { return AlreadyReady; }
      if !env.available { return Failed; }
      if child.Some? && env.alive {
        var status := Teardown(true, env.reap);
        if wedged { return Failed; }
      }
      if gpu {
        var answer := admission.AcquireSlot(Me(), Serving, env.est, env.free);
        if !answer.Admitted? { return Failed; }
      }
      outcome := SpawnAndWait(env);
    }

    method SpawnAndWait(env: Surroundings) returns (outcome: Outcome)
      requires !wedged && (gpu ==> Holds(admission.View(), Me())) && (!gpu ==> !Holds(admission.View(), Me()))
      modifies this, admission`holder
      ensures Tied() && OnlyMine(old(admission.holder), admission.holder)
      ensures outcome == if env.pid.Some? && BecomesReady(env.polls) then Started else Failed
      ensures outcome.Started? ==> child.Some? && child == env.pid && !wedged
      ensures outcome.Failed? && !wedged ==> child.None? || (env.pid.None? && child == old(child))
      ensures outcome.Failed? ==> (wedged <==> child.Some?)
    {
      if env.pid.Some? {
        child := env.pid;
        var ready := AwaitReady(env.polls);
        if ready { return Started; }
      }
      var status := Teardown(env.aliveAtEnd, env.cleanup);
      return Failed;
    }

    /** One tick of the reaper: a dead child is reconciled, an idle one unloaded. */
    method IdleReap(alive: bool, idle: bool, kill: Kill) returns (reaped: bool)
      requires Tied()
      modifies this, admission`holder
      ensures Tied() && OnlyMine(old(admission.holder), admission.holder)
      ensures reaped <==> old(child).Some? && (!alive || idle)
      ensures old(child).Some? && !alive ==> child.None? && !wedged && !Holds(admission.View(), Me())
      ensures !reaped ==> child == old(child) && wedged == old(wedged) && admission.holder == old(admission.holder)
      ensures old(child).Some? && alive && idle ==>
        wedged == Survives(kill) && child == (if Survives(kill) then old(child) else None)
    {
      if child.Some? && !alive {
        var status := Teardown(false, kill);
        return true;
      }
      if child.None? || !idle { return false; }
      var status := Teardown(alive, kill);
      return true;
    }
  }
}

/** Engines, jobs and swaps interleaving at every access to the slot. */
module EngineProtocol {
  import opened Common
  import opened Slot

  /** What the holder of an engine's runtime lock is doing. */
  datatype Pc =
    | Free
    | Checking
    | Reaping                 // a resident child that is not ready is torn down before a relaunch
    | Acquiring
    | Owning                  // the slot is this engine's, its child not yet spawned
    | Waiting                 // spawned, polling for readiness
    | Failing                 // a failed load cleans up
    | Unloading
    | Cleared(after: Pc)      // the child is forgotten, the slot not yet given back
    | Forwarding
    | Cutting                 // a hard cut while the lock holder forwards

  /** `child` says whether the recorded child, if any, is alive. */
  datatype Runtime = Runtime(gpu: bool, pc: Pc, child: Option<bool>, wedged: bool)

  datatype World = World(slot: State, engines: map<string, Runtime>)

  datatype Event =
    | Enter(e: string)
    | Return(e: string)
    | Proceed(e: string)
    | Teardown(e: string, survives: bool)
    | GiveBack(e: string)
    | TryAcquire(e: string, est: nat, r: Reading)
    | Spawn(e: string, works: bool)
    | Ready(e: string)
    | NotReady(e: string)
    | Die(e: string)
    | Unload(e: string)
    | Forward(e: string)
    | HardCut(e: string)
    | JobAcquires(est: nat, r: Reading)
    | JobReleases
    | Reserve(reserved: Option<Tenant>)

  function PcOf(w: World, e: string): Option<Pc> { if e in w.engines then Some(w.engines[e].pc) else None }

  predicate Enabled(w: World, ev: Event) {
    match ev
    case Enter(e) => PcOf(w, e) == Some(Free)
    case Return(e) => PcOf(w, e) == Some(Checking) || PcOf(w, e) == Some(Forwarding)
    case Proceed(e) => PcOf(w, e) == Some(Checking) && !w.engines[e].wedged
    case Teardown(e, _) => PcOf(w, e) in {Some(Reaping), Some(Failing), Some(Unloading), Some(Cutting)}
    case GiveBack(e) => e in w.engines && w.engines[e].pc.Cleared?
    case TryAcquire(e, _, _) => PcOf(w, e) == Some(Acquiring)
    case Spawn(e, _) => PcOf(w, e) == Some(Owning)
    case Ready(e) => PcOf(w, e) == Some(Waiting)
    case NotReady(e) => PcOf(w, e) == Some(Waiting)
    case Die(e) => e in w.engines && w.engines[e].child == Some(true)
    case Unload(e) => PcOf(w, e) == Some(Free)
    case Forward(e) => PcOf(w, e) == Some(Free)
    case HardCut(e) => PcOf(w, e) == Some(Forwarding)
    case JobAcquires(_, _) => true
    case JobReleases => true
    case Reserve(_) => true
  }

  function Put(w: World, e: string, r: Runtime): World { w.(engines := w.engines[e := r]) }

  function AfterTeardown(pc: Pc): Pc {
    match pc
    case Reaping => Acquiring
    case Cutting => Forwarding
    case _ => Free
  }

  function OnTeardown(w: World, e: string, survives: bool): World
    requires e in w.engines
  {
    var r := w.engines[e];
    if r.child == Some(true) && survives then
      Put(w, e, r.(wedged := true, pc := if r.pc.Cutting? then Forwarding else Free))
    else Put(w, e, r.(child := None, wedged := false, pc := Cleared(AfterTeardown(r.pc))))
  }

  function Step(w: World, ev: Event): World
    requires Enabled(w, ev)
  {
    match ev
    case Enter(e) => Put(w, e, w.engines[e].(pc := Checking))
    case Return(e) => Put(w, e, w.engines[e].(pc := Free))
    case Proceed(e) => Put(w, e, w.engines[e].(pc := if w.engines[e].child == Some(true) then Reaping else Acquiring))
    case Teardown(e, survives) => OnTeardown(w, e, survives)
    case GiveBack(e) =>
      var r := w.engines[e];
      Put(w, e, r.(pc := r.pc.after)).(slot := if r.gpu then Release(w.slot, Engine(e)) else w.slot)
    case TryAcquire(e, est, reading) =>
      var r := w.engines[e];
      if !r.gpu then Put(w, e, r.(pc := Owning))
      else Put(w, e, r.(pc := if Reply(w.slot, Engine(e), est, reading).Admitted? then Owning else Free)).(
             slot := Acquire(w.slot, Engine(e), Serving, est, reading))
    case Spawn(e, works) =>
      var r := w.engines[e];
      Put(w, e, if works then r.(pc := Waiting, child := Some(true)) else r.(pc := Failing))
    case Ready(e) => Put(w, e, w.engines[e].(pc := Free))
    case NotReady(e) => Put(w, e, w.engines[e].(pc := Failing))
    case Die(e) => Put(w, e, w.engines[e].(child := Some(false)))
    case Unload(e) => Put(w, e, w.engines[e].(pc := Unloading))
    case Forward(e) => Put(w, e, w.engines[e].(pc := Forwarding))
    case HardCut(e) => Put(w, e, w.engines[e].(pc := Cutting))
    case JobAcquires(est, reading) => w.(slot := Acquire(w.slot, Training, JobKind, est, reading))
    case JobReleases => w.(slot := Release(w.slot, Training))
    case Reserve(reserved) => w.(slot := w.slot.(reserved := reserved))
  }

  /** The tie between an engine's child and the slot, at each stage. */
  predicate Tied(s: State, e: string, r: Runtime) {
    && (r.wedged ==> r.child.Some?)
    && (r.pc.Cleared? ==> r.child.None? && r.pc.after in {Free, Acquiring, Forwarding})
    && (r.pc.Acquiring? || r.pc.Owning? || r.pc.Waiting? ==> !r.wedged)
    && (if !r.gpu then !Holds(s, Engine(e))
        else
          && (r.child.Some? ==> Holds(s, Engine(e)))
          && (r.pc.Owning? || r.pc.Waiting? || r.pc.Failing? ==> Holds(s, Engine(e)))
          && (!r.pc.Owning? && !r.pc.Failing? && !r.pc.Cleared? && Holds(s, Engine(e)) ==> r.child.Some?))
  }

  ghost predicate AllTied(w: World) {
    && (forall e :: e in w.engines ==> Tied(w.slot, e, w.engines[e]))
    && (w.slot.holder.Some? && w.slot.holder.value.tenant.Engine? ==> w.slot.holder.value.tenant.id in w.engines)
  }

  lemma TiedKept(w: World, ev: Event)
    requires AllTied(w) && Enabled(w, ev)
    ensures AllTied(Step(w, ev))
  {
    var v := Step(w, ev);
    forall e | e in v.engines ensures Tied(v.slot, e, v.engines[e]) { assert Tied(w.slot, e, w.engines[e]); }
  }

  ghost predicate IsRun(w: World, events: seq<Event>)
    decreases |events|
  {
    events == [] || (Enabled(w, events[0]) && IsRun(Step(w, events[0]), events[1..]))
  }

  ghost function After(w: World, events: seq<Event>): World
    requires IsRun(w, events)
    decreases |events|
  {
    if events == [] then w else After(Step(w, events[0]), events[1..])
  }

  lemma {:induction false} AlwaysTied(w: World, events: seq<Event>)
    requires AllTied(w) && IsRun(w, events)
    ensures AllTied(After(w, events))
    decreases |events|
  {
    if events != [] {
      TiedKept(w, events[0]);
      AlwaysTied(Step(w, events[0]), events[1..]);
    }
  }

  /** An agent just started: nothing loaded, nothing held. */
  predicate Fresh(w: World) {
    w.slot.holder.None? && forall e :: e in w.engines ==> w.engines[e] == Runtime(w.engines[e].gpu, Free, None, false)
  }

  predicate Occupies(w: World, e: string) { e in w.engines && w.engines[e].gpu && w.engines[e].child.Some? }

  /** Whenever an engine's lock is free it holds the slot exactly when it has a recorded child, wedged and
      dead ones included; so at most one engine has a child, and none while a job holds the slot. */
  lemma SlotFollowsChild(w: World, events: seq<Event>)
    requires Fresh(w) && IsRun(w, events)
    ensures var v := After(w, events);
      && (forall e :: e in v.engines && v.engines[e].gpu && v.engines[e].pc.Free? ==>
            (Holds(v.slot, Engine(e)) <==> v.engines[e].child.Some?))
      && (forall e, f :: Occupies(v, e) && Occupies(v, f) ==> e == f)
      && (Holds(v.slot, Training) ==> forall e :: !Occupies(v, e))
  {
    AlwaysTied(w, events);
    var v := After(w, events);
    assert forall e :: e in v.engines ==> Tied(v.slot, e, v.engines[e]);
  }

  lemma Prepend(w: World, ev: Event, rest: seq<Event>)
    requires Enabled(w, ev) && IsRun(Step(w, ev), rest)
    ensures IsRun(w, [ev] + rest) && After(w, [ev] + rest) == After(Step(w, ev), rest)
  {
    assert ([ev] + rest)[1..] == rest;
  }

  /** And a load that nothing goes wrong with takes the slot: free, not reserved for another, memory enough, the child
      spawned and ready. */
  lemma LoadTakesSlot(w: World, e: string, est: nat, r: Reading)
    requires AllTied(w) && PcOf(w, e) == Some(Free) && w.engines[e].gpu && w.engines[e].child.None?
    requires w.slot.holder.None? && (w.slot.reserved.None? || w.slot.reserved == Some(Engine(e)))
    requires if r.free.Some? then est <= r.free.value else est * 100 <= r.budget * 95
    ensures var events := [Enter(e)] + ([Proceed(e)] + ([TryAcquire(e, est, r)] + ([Spawn(e, true)] + [Ready(e)])));
      && IsRun(w, events)
      && (var v := After(w, events);
          Holds(v.slot, Engine(e)) && PcOf(v, e) == Some(Free) && v.engines[e].child == Some(true) && !v.engines[e].wedged)
  {
    assert Tied(w.slot, e, w.engines[e]);
    var a := Step(w, Enter(e));
    var b := Step(a, Proceed(e));
    var c := Step(b, TryAcquire(e, est, r));
    var d := Step(c, Spawn(e, true));
    var v := Step(d, Ready(e));
    assert IsRun(v, []) && After(v, []) == v;
    hide IsRun, After;
    Prepend(d, Ready(e), []);
    assert [Ready(e)] + [] == [Ready(e)];
    Prepend(c, Spawn(e, true), [Ready(e)]);
    Prepend(b, TryAcquire(e, est, r), [Spawn(e, true)] + [Ready(e)]);
    Prepend(a, Proceed(e), [TryAcquire(e, est, r)] + ([Spawn(e, true)] + [Ready(e)]));
    Prepend(w, Enter(e), [Proceed(e)] + ([TryAcquire(e, est, r)] + ([Spawn(e, true)] + [Ready(e)])));
  }

  /** No slot leaks: a dead child's slot is free again after one unload of its engine, and a live one's
      too unless the child survives its kill. */
  lemma UnloadFrees(w: World, e: string, survives: bool)
    requires AllTied(w) && PcOf(w, e) == Some(Free) && w.engines[e].gpu
    requires w.engines[e].child == Some(true) ==> !survives
    ensures var u := Step(w, Unload(e)); var t := Step(u, Teardown(e, survives));
      && Enabled(u, Teardown(e, survives)) && Enabled(t, GiveBack(e))
      && !Holds(Step(t, GiveBack(e)).slot, Engine(e)) && PcOf(Step(t, GiveBack(e)), e) == Some(Free)
  {
  }
}
