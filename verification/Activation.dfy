/** The activation saga: one durable operation moves the serving pointer and reloads the agent, with a
    crash possible between any two calls. */
module Activation {
  import opened Common

  const MAX_ATTEMPTS: nat := 5

  datatype Phase = Prepared | Committing | Reloading | RollingBack | Active | RolledBack | Degraded

  predicate Terminal(p: Phase) { p in {Active, RolledBack, Degraded} }

  /** Phases only ever go up. */
  function Rank(p: Phase): nat {
    match p
    case Prepared => 0
    case Committing => 1
    case Reloading => 2
    case RollingBack => 3
    case _ => 4
  }

  datatype Target = Target(model: string, version: string)

  datatype Row = Row(key: string, target: Target, previous: Option<string>, phase: Phase, attempts: nat)

  /** Compare-and-set on the phase; a lost race changes nothing. */
  function Cas(r: Row, wanted: Phase, next: Phase, bump: bool): Row {
    if r.phase == wanted then r.(phase := next, attempts := if bump then r.attempts + 1 else r.attempts) else r
  }

  /** The agent's answer to the keyed reload. */
  datatype Reply = Loaded | VerifyFailed | Unresolvable | Deferred | Unreachable

  /** A write that may raise, having taken effect or not. */
  datatype Write = Works | Raises(effect: bool)

  predicate TakesEffect(x: Write) { x.Works? || x.effect }

  /** The call a run makes next. */
  datatype Pc =
    | Off
    | Read
    | SetPointer
    | CasSetFailed
    | CasCommitting
    | CasReloading
    | Reload
    | AskIdentity
    | CasActive
    | CasPending
    | CasMaybeDegrade
    | CasRollingBack
    | Restore
    | CasRolledBack
    | CasRestoreFailed

  /** `reported` is what the agent last said is resident, in this run. */
  datatype World = World(row: Row, pointer: Option<string>, pc: Pc, reported: Option<Target>)

  /** Everything one pass meets. */
  datatype Surroundings = Surroundings(write: Write, reply: Reply, identity: Target, restore: Write)

  datatype Event =
    | Begin
    | Call(s: Surroundings)        // the next call of the run, answered by `s`
    | Lost(s: Surroundings)        // the next call takes effect, but its answer never arrives
    | Crash

  predicate Enabled(w: World, e: Event) {
    match e
    case Begin => w.pc.Off?
    case Call(_) => !w.pc.Off?
    case Lost(_) => !w.pc.Off?
    case Crash => true
  }

  /** Where a run that has re-read its record goes. */
  function Enter(p: Phase): Pc {
    match p
    case Prepared => SetPointer
    case Committing => CasReloading
    case Reloading => Reload
    case RollingBack => Restore
    case _ => Off
  }

  function AfterReply(r: Reply): Pc {
    match r
    case Loaded => AskIdentity
    case Unresolvable => CasRollingBack
    case _ => CasMaybeDegrade
  }

  function Degrades(r: Row): bool { r.attempts + 1 >= MAX_ATTEMPTS }

  /** One call and the branch its answer selects. */
  function Advance(w: World, s: Surroundings): World {
    match w.pc
    case Off => w
    case Read => w.(pc := Enter(w.row.phase), reported := None)
    case SetPointer =>
      w.(pointer := if TakesEffect(s.write) then Some(w.row.target.model) else w.pointer,
         pc := if s.write.Works? then CasCommitting else CasSetFailed)
    case CasSetFailed => w.(row := Cas(w.row, Prepared, Prepared, true), pc := Off)
    case CasCommitting => w.(row := Cas(w.row, Prepared, Committing, false), pc := CasReloading)
    case CasReloading => w.(row := Cas(w.row, Committing, Reloading, false), pc := Reload)
    case Reload => w.(pc := AfterReply(s.reply))
    case AskIdentity => w.(reported := Some(s.identity), pc := if s.identity == w.row.target then CasActive else CasPending)
    case CasActive => w.(row := Cas(w.row, Reloading, Active, false), pc := Off)
    case CasPending => w.(row := Cas(w.row, Reloading, Reloading, true), pc := Off)
    case CasMaybeDegrade => w.(row := Cas(w.row, Reloading, if Degrades(w.row) then Degraded else Reloading, true), pc := Off)
    case CasRollingBack => w.(row := Cas(w.row, Reloading, RollingBack, false), pc := Restore)
    case Restore =>
      w.(pointer := if TakesEffect(s.restore) then w.row.previous else w.pointer,
         pc := if s.restore.Works? then CasRolledBack else CasRestoreFailed)
    case CasRolledBack => w.(row := Cas(w.row, RollingBack, RolledBack, false), pc := Off)
    case CasRestoreFailed => w.(row := Cas(w.row, RollingBack, Degraded, false), pc := Off)
  }

  function Step(w: World, e: Event): World {
    match e
    case Begin => w.(pc := Read)
    case Call(s) => Advance(w, s)
    case Lost(s) => Advance(w, s).(pc := Off)
    case Crash => w.(pc := Off)
  }

  // Crash safety

  /** What the record's phase says about the pointer and the agent. */
  predicate PhaseTold(w: World) {
    match w.row.phase
    case Prepared => w.pointer in {w.row.previous, Some(w.row.target.model)}
    case Committing => w.pointer == Some(w.row.target.model)
    case Reloading => w.pointer == Some(w.row.target.model)
    case RollingBack => w.pointer in {w.row.previous, Some(w.row.target.model)}
    case Active => w.pointer == Some(w.row.target.model)
    case RolledBack => w.pointer == w.row.previous
    case Degraded => w.pointer in {w.row.previous, Some(w.row.target.model)}
  }

  /** What the next call takes for granted: each compare-and-set finds the phase it expects. */
  predicate CallTold(w: World) {
    match w.pc
    case Off => true
    case Read => true
    case SetPointer => w.row.phase == Prepared
    case CasSetFailed => w.row.phase == Prepared
    case CasCommitting => w.row.phase == Prepared && w.pointer == Some(w.row.target.model)
    case CasReloading => w.row.phase == Committing
    case Reload => w.row.phase == Reloading
    case AskIdentity => w.row.phase == Reloading
    case CasActive => w.row.phase == Reloading && w.reported == Some(w.row.target)
    case CasPending => w.row.phase == Reloading
    case CasMaybeDegrade => w.row.phase == Reloading
    case CasRollingBack => w.row.phase == Reloading
    case Restore => w.row.phase == RollingBack
    case CasRolledBack => w.row.phase == RollingBack && w.pointer == w.row.previous
    case CasRestoreFailed => w.row.phase == RollingBack
  }

  predicate Told(w: World) { PhaseTold(w) && CallTold(w) }

  lemma ToldKept(w: World, e: Event)
    requires Told(w) && Enabled(w, e)
    ensures Told(Step(w, e))
    ensures Rank(Step(w, e).row.phase) >= Rank(w.row.phase)
    ensures Terminal(w.row.phase) ==> Step(w, e).row == w.row && Step(w, e).pointer == w.pointer
    ensures Step(w, e).row.phase.Active? && !w.row.phase.Active? ==> w.reported == Some(w.row.target)
    ensures Step(w, e).row.target == w.row.target && Step(w, e).row.previous == w.row.previous
  {
  }

  ghost predicate IsRun(w: World, events: seq<Event>)
    decreases |events|
  {
    events == [] || (Enabled(w, events[0]) && IsRun(Step(w, events[0]), events[1..]))
  }

  ghost function After(w: World, events: seq<Event>): World
    decreases |events|
  {
    if events == [] then w else After(Step(w, events[0]), events[1..])
  }

  /** An operation just submitted over the pointer it found. */
  predicate Submitted(w: World) { w.row.phase.Prepared? && w.pc.Off? && w.pointer == w.row.previous }

  lemma {:induction false} AlwaysTold(w: World, events: seq<Event>)
    requires Told(w) && IsRun(w, events)
    ensures var v := After(w, events);
      Told(v) && Rank(v.row.phase) >= Rank(w.row.phase) && v.row.target == w.row.target && v.row.previous == w.row.previous
    decreases |events|
  {
    if events != [] {
      ToldKept(w, events[0]);
      AlwaysTold(Step(w, events[0]), events[1..]);
    }
  }

  /** In every run, crashes and lost answers anywhere: the serving pointer is at the previous or the target model;
      committing and reloading imply the target, rolled back the previous. */
  lemma PointerAlwaysExplained(w: World, events: seq<Event>)
    requires Submitted(w) && IsRun(w, events)
    ensures var v := After(w, events);
      && v.pointer in {w.row.previous, Some(w.row.target.model)}
      && (v.row.phase in {Committing, Reloading, Active} ==> v.pointer == Some(w.row.target.model))
      && (v.row.phase.RolledBack? ==> v.pointer == w.row.previous)
  {
    AlwaysTold(w, events);
  }

  /** After `n` steps of the run the operation is not yet active, and the agent has just reported exactly
      its target. */
  ghost predicate ReportedAt(w: World, events: seq<Event>, n: nat) {
    && n < |events| && !After(w, events[..n]).row.phase.Active?
    && After(w, events[..n]).pc.CasActive? && After(w, events[..n]).reported == Some(w.row.target)
  }

  /** An operation is active only if, in the very run that made it so, the agent reported exactly its model
      and version. */
  lemma {:induction false} ActiveWasReported(w: World, events: seq<Event>)
    requires Told(w) && !w.row.phase.Active? && IsRun(w, events) && After(w, events).row.phase.Active?
    ensures exists n: nat :: ReportedAt(w, events, n)
    decreases |events|
  {
    var v := Step(w, events[0]);
    ToldKept(w, events[0]);
    if v.row.phase.Active? {
      assert events[..0] == [];
      assert ReportedAt(w, events, 0);
    } else {
      ActiveWasReported(v, events[1..]);
      var n: nat :| ReportedAt(v, events[1..], n);
      assert events[..n + 1][1..] == events[1..][..n];
      assert ReportedAt(w, events, n + 1);
    }
  }

  // Convergence

  /** How many calls a run has left at most. */
  function Left(pc: Pc): nat {
    match pc
    case Off => 0
    case Read => 10
    case SetPointer => 9
    case CasSetFailed => 1
    case CasCommitting => 8
    case CasReloading => 7
    case Reload => 6
    case AskIdentity => 5
    case CasRollingBack => 4
    case Restore => 3
    case _ => 1
  }

  /** The rest of a run that is not interrupted. */
  function Finish(w: World, s: Surroundings): World
    decreases Left(w.pc)
  {
    if w.pc.Off? then w else Finish(Advance(w, s), s)
  }

  /** One whole pass over the operation. */
  function Pass(w: World, s: Surroundings): World { Finish(w.(pc := Read), s) }

  predicate VerifyPending(w: World, s: Surroundings) { s.reply.Loaded? && s.identity != w.row.target }

  /** The phase and attempts a pass leaves a reloading operation with. */
  function Settle(r: Row, s: Surroundings): Row {
    match s.reply
    case Loaded =>
      if s.identity == r.target then r.(phase := Active) else r.(phase := Reloading, attempts := r.attempts + 1)
    case Unresolvable => r.(phase := if s.restore.Works? then RolledBack else Degraded)
    case _ => r.(phase := if Degrades(r) then Degraded else Reloading, attempts := r.attempts + 1)
  }

  function Restored(r: Row, pointer: Option<string>, s: Surroundings): Option<string> {
    if TakesEffect(s.restore) then r.previous else pointer
  }

  /** What one pass makes of an operation and of the pointer. */
  function Outcome(r: Row, pointer: Option<string>, s: Surroundings): (Row, Option<string>) {
    match r.phase
    case Prepared =>
      var now := if TakesEffect(s.write) then Some(r.target.model) else pointer;
      if !s.write.Works? then (r.(attempts := r.attempts + 1), now)
      else (Settle(r, s), if s.reply.Unresolvable? then Restored(r, now, s) else now)
    case RollingBack => (r.(phase := if s.restore.Works? then RolledBack else Degraded), Restored(r, pointer, s))
    case Committing => (Settle(r, s), if s.reply.Unresolvable? then Restored(r, pointer, s) else pointer)
    case Reloading => (Settle(r, s), if s.reply.Unresolvable? then Restored(r, pointer, s) else pointer)
    case _ => (r, pointer)
  }

  /** The record and pointer a pass has to leave, case by case: a refused pointer write counts an attempt; an agent that
      reports exactly the target makes the operation active; one that reports another model counts an attempt; one that
      cannot resolve it has the pointer restored; every other answer counts an attempt and gives up at the fifth. */
  predicate RightPass(r: Row, pointer: Option<string>, s: Surroundings, after: Row, now: Option<string>) {
    var reloads := r.phase in {Committing, Reloading} || (r.phase == Prepared && s.write.Works?);
    var moved := if r.phase == Prepared && (s.write.Works? || s.write.effect) then Some(r.target.model) else pointer;
    && (r.phase in {Active, RolledBack, Degraded} ==> after == r && now == pointer)
    && (r.phase == Prepared && s.write.Raises? ==> after == r.(attempts := r.attempts + 1) && now == moved)
    && (reloads && s.reply.Loaded? && s.identity == r.target ==> after == r.(phase := Active) && now == moved)
    && (reloads && s.reply.Loaded? && s.identity != r.target ==>
          after == r.(phase := Reloading, attempts := r.attempts + 1) && now == moved)
    && (reloads && s.reply in {VerifyFailed, Deferred, Unreachable} ==>
          after == r.(phase := if r.attempts >= 4 then Degraded else Reloading, attempts := r.attempts + 1) && now == moved)
    && ((reloads && s.reply.Unresolvable?) || r.phase == RollingBack ==>
          && after == r.(phase := if s.restore.Works? then RolledBack else Degraded)
          && now == if s.restore.Works? || s.restore.effect then r.previous else moved)
  }

  lemma PassIsRight(w: World, s: Surroundings)
    ensures RightPass(w.row, w.pointer, s, Pass(w, s).row, Pass(w, s).pointer)
  {
    PassEffect(w, s);
    OutcomeIsRight(w.row, w.pointer, s);
    hide Pass, RightPass, Outcome;
  }

  lemma OutcomeIsRight(r: Row, pointer: Option<string>, s: Surroundings)
    ensures RightPass(r, pointer, s, Outcome(r, pointer, s).0, Outcome(r, pointer, s).1)
  {
  }

  lemma FinishRestore(w: World, s: Surroundings)
    requires w.pc.Restore? && w.row.phase.RollingBack?
    ensures var v := Finish(w, s);
      v.pc.Off? && v.row == w.row.(phase := if s.restore.Works? then RolledBack else Degraded) && v.pointer == Restored(w.row, w.pointer, s)
  {
    var a := Advance(w, s);
    var b := Advance(a, s);
    assert Finish(a, s) == Finish(b, s);
  }

  lemma FinishReload(w: World, s: Surroundings)
    requires w.pc.Reload? && w.row.phase.Reloading?
    ensures var v := Finish(w, s);
      v.pc.Off? && v.row == Settle(w.row, s) && v.pointer == if s.reply.Unresolvable? then Restored(w.row, w.pointer, s) else w.pointer
  {
    var a := Advance(w, s);
    var b := Advance(a, s);
    assert Finish(w, s) == Finish(a, s) == Finish(b, s);
    match s.reply
    case Loaded =>
      var c := Advance(b, s);
      assert Finish(b, s) == Finish(c, s) == c;
    case Unresolvable => FinishRestore(b, s);
    case _ =>
  }

  /** The machine run without interruption does just that. */
  lemma PassEffect(w: World, s: Surroundings)
    ensures var v := Pass(w, s); v.pc.Off? && (v.row, v.pointer) == Outcome(w.row, w.pointer, s)
  {
    var r := w.(pc := Read);
    var a := Advance(r, s);
    assert Finish(r, s) == Finish(a, s);
    match w.row.phase
    case Prepared => PassFromPrepared(a, s);
    case Committing => FinishReload(Advance(a, s), s);
    case Reloading => FinishReload(a, s);
    case RollingBack => FinishRestore(a, s);
    case _ =>
  }

  lemma PassFromPrepared(a: World, s: Surroundings)
    requires a.pc.SetPointer? && a.row.phase.Prepared?
    ensures var v := Finish(a, s); v.pc.Off? && (v.row, v.pointer) == Outcome(a.row, a.pointer, s)
  {
    var b := Advance(a, s);
    var c := Advance(b, s);
    assert Finish(a, s) == Finish(b, s) == Finish(c, s);
    if s.write.Works? {
      var d := Advance(c, s);
      assert Finish(c, s) == Finish(d, s);
      FinishReload(d, s);
    }
  }

  /** Neither of the two branches that count an attempt without ever giving up is taken. */
  predicate Good(w: World, s: Surroundings) {
    && (w.row.phase.Prepared? ==> s.write.Works?)
    && (w.row.phase in {Prepared, Committing, Reloading} ==> !VerifyPending(w, s))
  }

  /** A good pass ends the operation, or leaves it reloading, later than it was or with an attempt more. */
  lemma GoodPassProgresses(w: World, s: Surroundings)
    requires Good(w, s) && !Terminal(w.row.phase)
    ensures var v := Pass(w, s);
      || Terminal(v.row.phase)
      || (v.row.phase.Reloading? && v.row.attempts == w.row.attempts + 1 < MAX_ATTEMPTS && Rank(v.row.phase) >= Rank(w.row.phase))
  {
    PassEffect(w, s);
  }

  /** So reconciliation stops: as many good passes as there are attempts left, and at least one, end it. */
  lemma {:induction false} GoodPassesEnd(w: World, passes: seq<Surroundings>)
    requires forall s :: s in passes ==> s.write.Works? && !VerifyPending(w, s)
    requires |passes| > 0 && |passes| + w.row.attempts >= MAX_ATTEMPTS
    ensures Terminal(Passes(w, passes).row.phase)
    decreases |passes|
  {
    PassEffect(w, passes[0]);
    var v := Pass(w, passes[0]);
    if Terminal(v.row.phase) {
      PassesStay(v, passes[1..]);
    } else {
      GoodPassProgresses(w, passes[0]);
      assert |passes[1..]| > 0;
      GoodPassesEnd(v, passes[1..]);
    }
  }

  function Passes(w: World, passes: seq<Surroundings>): World
    decreases |passes|
  {
    if passes == [] then w else Passes(Pass(w, passes[0]), passes[1..])
  }

  lemma {:induction false} PassesStay(w: World, passes: seq<Surroundings>)
    requires Terminal(w.row.phase)
    ensures Passes(w, passes).row == w.row
    decreases |passes|
  {
    if passes != [] {
      PassEffect(w, passes[0]);
      PassesStay(Pass(w, passes[0]), passes[1..]);
    }
  }

  /** At its last attempt an operation ends with this pass exactly when the pass is good. */
  lemma LastAttemptExactly(w: World, s: Surroundings)
    requires !Terminal(w.row.phase) && w.row.attempts + 1 >= MAX_ATTEMPTS
    ensures Terminal(Pass(w, s).row.phase) <==> Good(w, s)
  {
    PassEffect(w, s);
  }

  /** An agent that keeps answering "loaded" while reporting another model is asked for ever: after any
      number of passes the operation is still reloading, its attempts counted past the limit. */
  lemma {:induction false} PendingForEver(w: World, passes: seq<Surroundings>)
    requires w.row.phase.Reloading? && forall s :: s in passes ==> VerifyPending(w, s)
    ensures var v := Passes(w, passes);
      v.row.phase.Reloading? && v.row.attempts == w.row.attempts + |passes| && v.row.target == w.row.target
    decreases |passes|
  {
    if passes != [] {
      assert VerifyPending(w, passes[0]);
      PassEffect(w, passes[0]);
      var v := Pass(w, passes[0]);
      assert v.row == Settle(w.row, passes[0]);
      assert forall s :: s in passes[1..] ==> s in passes && VerifyPending(w, s);
      PendingForEver(v, passes[1..]);
    }
  }

  /** So is a pointer store that keeps refusing writes. */
  lemma {:induction false} PreparedForEver(w: World, passes: seq<Surroundings>)
    requires w.row.phase.Prepared? && forall s :: s in passes ==> s.write.Raises?
    ensures var v := Passes(w, passes); v.row.phase.Prepared? && v.row.attempts == w.row.attempts + |passes|
    decreases |passes|
  {
    if passes != [] {
      PassEffect(w, passes[0]);
      PreparedForEver(Pass(w, passes[0]), passes[1..]);
    }
  }

  // The service

  datatype Submission = Created | Joined(id: string) | Refused

  /** At most one operation is under way, platform-wide: the store's unique index. */
  ghost predicate OneUnderWay(rows: map<string, Row>) {
    forall i, j :: i in rows && j in rows && !Terminal(rows[i].phase) && !Terminal(rows[j].phase) ==> i == j
  }

  class ActivationService {
    var rows: map<string, Row>
    var pointer: Option<string>

    constructor (current: Option<string>)
      ensures rows == map[] && pointer == current && OneUnderWay(rows)
    {
      rows, pointer := map[], current;
    }

    /** The operation under way, if there is one. */
    method UnderWay() returns (found: Option<string>)
      ensures found.Some? ==> found.value in rows && !Terminal(rows[found.value].phase)
      ensures found.None? ==> forall i :: i in rows ==> Terminal(rows[i].phase)
    {
      var rest := rows.Keys;
      while rest != {}
        invariant rest <= rows.Keys && forall i :: i in rows && i !in rest ==> Terminal(rows[i].phase)
        decreases rest
      {
        var i :| i in rest;
        if !Terminal(rows[i].phase) { return Some(i); }
        rest := rest - {i};
      }
      return None;
    }

    /** Create the operation, join the one under way for this very key and target, or refuse. */
    method Submit(id: string, key: string, target: Target, prior: Option<string>) returns (result: Submission)
      requires OneUnderWay(rows) && id !in rows
      modifies this`rows
      ensures OneUnderWay(rows)
      ensures result.Created? ==> rows == old(rows)[id := Row(key, target, prior, Prepared, 0)]
      ensures !result.Created? ==> rows == old(rows)
      ensures result.Created? <==> forall i :: i in old(rows) ==> Terminal(old(rows)[i].phase)
      ensures result.Joined? <==> exists i :: i in old(rows) && !Terminal(old(rows)[i].phase) && old(rows)[i].key == key && old(rows)[i].target == target
      ensures result.Joined? ==> result.id in rows && !Terminal(rows[result.id].phase) && rows[result.id].target == target
    {
      var current := UnderWay();
      if current.Some? {
        var row := rows[current.value];
        if row.key == key && row.target == target { return Joined(current.value); }
        return Refused;
      }
      rows := rows[id := Row(key, target, prior, Prepared, 0)];
      return Created;
    }

    /** Compare-and-set; the caller goes on with the record as it then stands, its own or a winner's. */
    method CasActivation(id: string, wanted: Phase, next: Phase, bump: bool) returns (after: Row)
      requires id in rows
      modifies this`rows
      ensures rows == old(rows)[id := Cas(old(rows)[id], wanted, next, bump)] && after == rows[id]
      ensures old(rows)[id].phase != wanted ==> after == old(rows)[id]
      ensures old(rows)[id].phase == wanted ==>
        after == old(rows)[id].(phase := next, attempts := old(rows)[id].attempts + if bump then 1 else 0)
    {
      after := rows[id];
      if after.phase == wanted {
        after := after.(phase := next, attempts := if bump then after.attempts + 1 else after.attempts);
        rows := rows[id := after];
      }
    }

    /** One pass, as the gateway drives it: the local record advances through whatever phases it can. The
        record and the pointer end where the machine's uninterrupted pass ends. */
    method Run(id: string, s: Surroundings)
      requires id in rows
      modifies this
      ensures rows == old(rows)[id := Pass(World(old(rows)[id], old(pointer), Off, None), s).row]
      ensures pointer == Pass(World(old(rows)[id], old(pointer), Off, None), s).pointer
      ensures id in rows && rows == old(rows)[id := rows[id]]
      ensures RightPass(old(rows)[id], old(pointer), s, rows[id], pointer)
    {
      PassIsRight(World(rows[id], pointer, Off, None), s);
      hide RightPass;
      PassEffect(World(rows[id], pointer, Off, None), s);
      var op := rows[id];
      if op.phase.Prepared? { op := CommitPointer(id, op, s); }
      if op.phase.Committing? {
        op := CasActivation(id, Committing, Reloading, false);
      }
      if op.phase.Reloading? { op := ReloadAndVerify(id, op, s); }
      if op.phase.RollingBack? { op := RollBack(id, s); }
    }

    method CommitPointer(id: string, op: Row, s: Surroundings) returns (after: Row)
      requires id in rows && rows[id] == op && op.phase.Prepared?
      modifies this
      ensures rows == old(rows)[id := after]
      ensures after == if s.write.Works? then op.(phase := Committing) else op.(attempts := op.attempts + 1)
      ensures pointer == if TakesEffect(s.write) then Some(op.target.model) else old(pointer)
    {
      if TakesEffect(s.write) { pointer := Some(op.target.model); }
      if s.write.Raises? {
        after := CasActivation(id, Prepared, Prepared, true);
      } else {
        after := CasActivation(id, Prepared, Committing, false);
      }
    }

    method ReloadAndVerify(id: string, op: Row, s: Surroundings) returns (after: Row)
      requires id in rows && rows[id] == op && op.phase.Reloading?
      modifies this
      ensures rows == old(rows)[id := after]
      ensures after == Settle(op, s)
      ensures pointer == if s.reply.Unresolvable? && TakesEffect(s.restore) then op.previous else old(pointer)
    {
      match s.reply
      case Loaded =>
        if s.identity == op.target {
          after := CasActivation(id, Reloading, Active, false);
        } else {
          after := CasActivation(id, Reloading, Reloading, true);
        }
      case Unresolvable =>
        after := CasActivation(id, Reloading, RollingBack, false);
        after := RollBack(id, s);
      case _ =>
        after := CasActivation(id, Reloading, if op.attempts + 1 >= MAX_ATTEMPTS then Degraded else Reloading, true);
    }

    method RollBack(id: string, s: Surroundings) returns (after: Row)
      requires id in rows && rows[id].phase.RollingBack?
      modifies this
      ensures rows == old(rows)[id := after]
      ensures after == old(rows)[id].(phase := if s.restore.Works? then RolledBack else Degraded)
      ensures pointer == if TakesEffect(s.restore) then old(rows)[id].previous else old(pointer)
    {
      if TakesEffect(s.restore) { pointer := rows[id].previous; }
      after := CasActivation(id, RollingBack, if s.restore.Works? then RolledBack else Degraded, false);
    }
  }
}
