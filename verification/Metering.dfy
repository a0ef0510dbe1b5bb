/** The settlement outbox: a write-ahead log over an idempotent store, with the log's file as it is on
    disk, torn tail included. */
module Metering {
  import opened Common

  type OpId = string

  /** What is owed to the store for one operation: a charge, or a release. */
  datatype Entry = Entry(op: OpId, release: bool, seconds: nat)

  // The log

  datatype Line = Good(entry: Entry) | Junk

  /** What stands after the last newline: nothing, a fragment, or a whole record short of its newline. */
  datatype Tail = Clean | Fragment | Whole(entry: Entry)

  datatype Log = Log(lines: seq<Line>, tail: Tail)

  function GoodLines(lines: seq<Line>): seq<Entry> {
    if lines == [] then []
    else if lines[|lines| - 1].Good? then GoodLines(lines[..|lines| - 1]) + [lines[|lines| - 1].entry]
    else GoodLines(lines[..|lines| - 1])
  }

  /** What a reader finds: every line that parses, the unterminated last one included. */
  function Entries(l: Log): seq<Entry> {
    if l.tail.Whole? then GoodLines(l.lines) + [l.tail.entry] else GoodLines(l.lines)
  }

  /** A record written after an unterminated tail shares its line with it, and neither parses. */
  function Appended(l: Log, e: Entry): Log {
    Log(l.lines + [if l.tail.Clean? then Good(e) else Junk], Clean)
  }

  /** A write cut short by a crash: nothing, a fragment, or all but the newline reached the file. */
  datatype Cut = Nothing | Part | AllButNewline

  function Torn(l: Log, e: Entry, cut: Cut): Log {
    match cut
    case Nothing => l
    case Part => l.(tail := Fragment)
    case AllButNewline => l.(tail := if l.tail.Clean? then Whole(e) else Fragment)
  }

  function Keep(es: seq<Entry>, done: set<OpId>): seq<Entry> {
    if es == [] then []
    else if es[|es| - 1].op in done then Keep(es[..|es| - 1], done)
    else Keep(es[..|es| - 1], done) + [es[|es| - 1]]
  }

  function Written(es: seq<Entry>): seq<Line> { seq(|es|, i requires 0 <= i < |es| => Good(es[i])) }

  /** Rewritten through a temporary file and put in place in one step, under the log's lock. */
  function Compacted(l: Log, done: set<OpId>): Log { Log(Written(Keep(Entries(l), done)), Clean) }

  lemma {:induction false} KeepKeeps(es: seq<Entry>, done: set<OpId>, e: Entry)
    ensures e in Keep(es, done) <==> e in es && e.op !in done
  {
    if es != [] {
      KeepKeeps(es[..|es| - 1], done, e);
      assert e in es <==> e in es[..|es| - 1] || e == es[|es| - 1];
    }
  }

  lemma {:induction false} WrittenReads(es: seq<Entry>)
    ensures GoodLines(Written(es)) == es
  {
    if es != [] {
      assert Written(es)[..|es| - 1] == Written(es[..|es| - 1]);
      WrittenReads(es[..|es| - 1]);
    }
  }

  /** Compaction loses exactly the entries of finished operations, whatever was appended before it, and
      leaves the file well terminated. */
  lemma CompactionDropsExactly(l: Log, done: set<OpId>, e: Entry)
    ensures e in Entries(Compacted(l, done)) <==> e in Entries(l) && e.op !in done
    ensures Compacted(l, done).tail.Clean?
  {
    WrittenReads(Keep(Entries(l), done));
    KeepKeeps(Entries(l), done, e);
  }

  lemma AppendedLines(lines: seq<Line>, line: Line)
    ensures GoodLines(lines + [line]) == GoodLines(lines) + if line.Good? then [line.entry] else []
  {
    assert (lines + [line])[..|lines|] == lines;
  }

  /** A new entry can be read back exactly when the file ended in a newline, or the same entry was there
      already. */
  lemma AppendReadableExactly(l: Log, e: Entry)
    ensures e in Entries(Appended(l, e)) <==> l.tail.Clean? || e in GoodLines(l.lines)
  {
    AppendedLines(l.lines, if l.tail.Clean? then Good(e) else Junk);
  }

  lemma AppendKeepsOthers(l: Log, e: Entry, f: Entry)
    requires f in GoodLines(l.lines)
    ensures f in Entries(Appended(l, e))
  {
    AppendedLines(l.lines, if l.tail.Clean? then Good(e) else Junk);
  }

  // The store

  datatype Reservation = Reserved | Settled(seconds: nat) | Released

  datatype Charge = Charge(op: OpId, seconds: nat)

  datatype Store = Store(reservations: map<OpId, Reservation>, ledger: seq<Charge>)

  predicate Charged(s: Store, op: OpId) { exists c :: c in s.ledger && c.op == op }

  predicate Finished(s: Store, op: OpId) { op in s.reservations && !s.reservations[op].Reserved? }

  /** The settling transaction: the ledger row is unique per operation, the state moves only from reserved. */
  function Settle(s: Store, op: OpId, seconds: nat): Store {
    Store(if op in s.reservations && s.reservations[op].Reserved? then s.reservations[op := Settled(seconds)] else s.reservations,
          if Charged(s, op) then s.ledger else s.ledger + [Charge(op, seconds)])
  }

  function Release(s: Store, op: OpId): Store {
    if op in s.reservations && s.reservations[op].Reserved? then s.(reservations := s.reservations[op := Released]) else s
  }

  // Gateways, replays, sweeps and crashes interleaving

  /** A write that fails, on a full disk say, may leave a torn tail and raises to its caller, which then owes
      nothing; the tasks of others go on. A crash does the same and ends every task. A compaction that cannot
      write its copy leaves the log as it was.

      A settle or a release works one entry off, a replay all it found. `seen` is the state read before
      the transaction, `failed` the operations the store did not take. */
  datatype Task = Task(promised: set<OpId>, work: seq<Entry>, seen: Option<Reservation>, done: set<OpId>, failed: set<OpId>)

  datatype World = World(store: Store, log: Log, tasks: map<nat, Task>, owed: set<OpId>)

  const START := World(Store(map[], []), Log([], Clean), map[], {})

  datatype Event =
    | Reserve(op: OpId)
    | Append(id: nat, e: Entry)
    | StartReplay(id: nat)
    | Look(id: nat)
    | Apply(id: nat, answered: bool)
    | Fail(id: nat)
    | Compact(id: nat)
    | Abandon(id: nat)
    | Sweep(op: OpId)
    | FailedWrite(e: Entry, cut: Cut)
    | Crash(e: Entry, cut: Cut)

  predicate Enabled(w: World, ev: Event) {
    match ev
    case Reserve(_) => true
    case Append(id, e) => id !in w.tasks && e.op in w.store.reservations
    case StartReplay(id) => id !in w.tasks
    case Look(id) => id in w.tasks && w.tasks[id].work != [] && !w.tasks[id].work[0].release && w.tasks[id].seen.None?
                     && w.tasks[id].work[0].op in w.store.reservations
    case Apply(id, _) => id in w.tasks && w.tasks[id].work != [] && (w.tasks[id].work[0].release || w.tasks[id].seen.Some?)
    case Fail(id) => id in w.tasks && w.tasks[id].work != []
    case Compact(id) => id in w.tasks && w.tasks[id].work == []
    case Abandon(id) => id in w.tasks && w.tasks[id].work == []
    case Sweep(_) => true
    case FailedWrite(e, _) => e.op in w.store.reservations
    case Crash(e, _) => e.op in w.store.reservations
  }

  function Ops(es: seq<Entry>): set<OpId> { set e | e in es :: e.op }

  function Begin(es: seq<Entry>): Task { Task(Ops(es), es, None, {}, {}) }

  /** The store's part of one entry, given the state read before. */
  function Effect(s: Store, e: Entry, seen: Option<Reservation>): Store {
    if e.release then Release(s, e.op)
    else if seen == Some(Reserved) then Settle(s, e.op, e.seconds)
    else s
  }

  function Next(t: Task, answered: bool): Task
    requires t.work != []
  {
    var op := t.work[0].op;
    Task(t.promised, t.work[1..], None, if answered then t.done + {op} else t.done, if answered then t.failed else t.failed + {op})
  }

  function Step(w: World, ev: Event): World
    requires Enabled(w, ev)
  {
    match ev
    case Reserve(op) =>
      if op in w.store.reservations then w
      else w.(store := w.store.(reservations := w.store.reservations[op := Reserved]))
    case Append(id, e) =>
      World(w.store, Appended(w.log, e), w.tasks[id := Begin([e])], w.owed + {e.op})
    case StartReplay(id) => w.(tasks := w.tasks[id := Begin(Entries(w.log))])
    case Look(id) =>
      w.(tasks := w.tasks[id := w.tasks[id].(seen := Some(w.store.reservations[w.tasks[id].work[0].op]))])
    case Apply(id, answered) =>
      w.(store := Effect(w.store, w.tasks[id].work[0], w.tasks[id].seen), tasks := w.tasks[id := Next(w.tasks[id], answered)])
    case Fail(id) => w.(tasks := w.tasks[id := Next(w.tasks[id], false)])
    case Compact(id) =>
      w.(log := if w.tasks[id].done == {} then w.log else Compacted(w.log, w.tasks[id].done), tasks := w.tasks - {id})
    case Abandon(id) => w.(tasks := w.tasks - {id})
    case Sweep(op) => w.(store := Release(w.store, op))
    case FailedWrite(e, cut) => w.(log := Torn(w.log, e, cut))
    case Crash(e, cut) => w.(log := Torn(w.log, e, cut), tasks := map[])
  }

  // What every step keeps

  predicate OncePerOp(ledger: seq<Charge>) { forall i, j :: 0 <= i < j < |ledger| ==> ledger[i].op != ledger[j].op }

  ghost predicate TaskOk(w: World, id: nat) {
    id in w.tasks ==>
      var t := w.tasks[id];
      && (forall op :: op in t.done ==> Finished(w.store, op))
      && (forall e :: e in t.work ==> e.op in w.store.reservations)
      && (t.seen.Some? && t.seen != Some(Reserved) ==> t.work != [] && Finished(w.store, t.work[0].op))
      && (forall op :: op in t.promised ==> op in t.done || op in t.failed || op in Ops(t.work))
  }

  ghost predicate Orderly(w: World) {
    && OncePerOp(w.store.ledger)
    && (forall e :: e in Entries(w.log) ==> e.op in w.store.reservations)
    && (forall id :: TaskOk(w, id))
  }

  /** Time never unfinishes an operation, and the ledger only grows. */
  ghost predicate Grows(s: Store, t: Store) {
    && s.ledger <= t.ledger
    && (forall op :: op in s.reservations ==> op in t.reservations)
    && (forall op :: Finished(s, op) ==> Finished(t, op) && t.reservations[op] == s.reservations[op])
  }

  lemma StoreGrows(w: World, ev: Event)
    requires Enabled(w, ev)
    ensures Grows(w.store, Step(w, ev).store)
    ensures OncePerOp(w.store.ledger) ==> OncePerOp(Step(w, ev).store.ledger)
  {
    if ev.Apply? {
      var e := w.tasks[ev.id].work[0];
      assert !Charged(w.store, e.op) ==> forall i :: 0 <= i < |w.store.ledger| ==> w.store.ledger[i] in w.store.ledger && w.store.ledger[i].op != e.op;
    }
  }

  lemma LogStaysKnown(w: World, ev: Event)
    requires Orderly(w) && Enabled(w, ev)
    ensures forall e :: e in Entries(Step(w, ev).log) ==> e.op in w.store.reservations
  {
    var v := Step(w, ev);
    forall e | e in Entries(v.log) ensures e.op in w.store.reservations {
      match ev
      case Append(_, f) => AppendedLines(w.log.lines, if w.log.tail.Clean? then Good(f) else Junk);
      case Compact(id) => CompactionDropsExactly(w.log, w.tasks[id].done, e);
      case _ =>
    }
  }

  lemma OrderlyKept(w: World, ev: Event)
    requires Orderly(w) && Enabled(w, ev)
    ensures Orderly(Step(w, ev))
  {
    var v := Step(w, ev);
    StoreGrows(w, ev);
    LogStaysKnown(w, ev);
    forall id ensures TaskOk(v, id) { TaskStaysOk(w, ev, id); }
  }

  lemma TaskStaysOk(w: World, ev: Event, id: nat)
    requires Orderly(w) && Enabled(w, ev) && Grows(w.store, Step(w, ev).store)
    ensures TaskOk(Step(w, ev), id)
  {
    var v := Step(w, ev);
    assert TaskOk(w, id);
    if (ev.Apply? || ev.Fail?) && ev.id == id {
      var t := w.tasks[id];
      assert forall op :: op in Ops(t.work) ==> op == t.work[0].op || op in Ops(t.work[1..]);
      assert t.work[0] in t.work;
    }
  }

  // The log forgets nothing

  predicate Logged(l: Log, op: OpId) { exists e :: e in GoodLines(l.lines) && e.op == op }

  /** Whatever a gateway returned from logging is finished at the store, or on a line of the log. */
  ghost predicate Remembered(w: World) {
    forall op :: op in w.owed ==> Finished(w.store, op) || Logged(w.log, op)
  }

  /** An entry on a line of the log leaves it only after the store has finished its operation: whatever
      tasks compact, append or crash meanwhile. */
  lemma LeavesOnlyFinished(w: World, ev: Event, e: Entry)
    requires Orderly(w) && Enabled(w, ev) && e in GoodLines(w.log.lines) && e !in GoodLines(Step(w, ev).log.lines)
    ensures Finished(w.store, e.op)
  {
    match ev
    case Append(_, f) => AppendKeepsOthers(w.log, f, e);
    case Compact(id) =>
      assert TaskOk(w, id);
      CompactionDropsExactly(w.log, w.tasks[id].done, e);
    case _ =>
  }

  /** The step that can forget: an append onto an unterminated tail, unless its operation is finished or
      logged already. Exactly then. */
  predicate AppendsOntoTornTail(w: World, ev: Event) {
    ev.Append? && !w.log.tail.Clean? && !Finished(w.store, ev.e.op) && !Logged(w.log, ev.e.op)
  }

  lemma RememberedExactly(w: World, ev: Event)
    requires Orderly(w) && Remembered(w) && Enabled(w, ev)
    ensures Remembered(Step(w, ev)) <==> !AppendsOntoTornTail(w, ev)
  {
    var v := Step(w, ev);
    StoreGrows(w, ev);
    if ev.Append? { AppendedLines(w.log.lines, if w.log.tail.Clean? then Good(ev.e) else Junk); }
    if AppendsOntoTornTail(w, ev) {
      assert ev.e.op in v.owed && !Finished(v.store, ev.e.op) && !Logged(v.log, ev.e.op);
    } else {
      forall op | op in v.owed ensures Finished(v.store, op) || Logged(v.log, op) { OpStaysRemembered(w, ev, op); }
    }
  }

  lemma OpStaysRemembered(w: World, ev: Event, op: OpId)
    requires Orderly(w) && Remembered(w) && Enabled(w, ev) && !AppendsOntoTornTail(w, ev)
    requires op in Step(w, ev).owed && Grows(w.store, Step(w, ev).store)
    ensures Finished(Step(w, ev).store, op) || Logged(Step(w, ev).log, op)
  {
    var v := Step(w, ev);
    if !Finished(w.store, op) {
      if Logged(w.log, op) {
        var e :| e in GoodLines(w.log.lines) && e.op == op;
        assert e !in GoodLines(v.log.lines) ==> Finished(w.store, op) by {
          if e !in GoodLines(v.log.lines) { LeavesOnlyFinished(w, ev, e); }
        }
      } else {
        assert ev.Append? && ev.e.op == op && w.log.tail.Clean?;
        AppendedLines(w.log.lines, Good(ev.e));
        assert ev.e in GoodLines(v.log.lines);
      }
    }
  }

  /** A replay whose every store call was answered leaves none of what it found: each operation logged when
      it began is finished, and gone from the log. */
  lemma AnsweredReplayFinishes(w: World, id: nat, op: OpId)
    requires Orderly(w) && Enabled(w, Compact(id)) && w.tasks[id].failed == {} && op in w.tasks[id].promised
    ensures Finished(Step(w, Compact(id)).store, op)
    ensures forall e :: e in Entries(Step(w, Compact(id)).log) ==> e.op != op
  {
    assert TaskOk(w, id);
    var t := w.tasks[id];
    assert Ops(t.work) == {};
    forall e | e in Entries(Step(w, Compact(id)).log) ensures e.op != op { CompactionDropsExactly(w.log, t.done, e); }
  }

  /** And everything owed when it began was among what it found. */
  lemma ReplayFindsAllOwed(w: World, id: nat, op: OpId)
    requires Remembered(w) && Enabled(w, StartReplay(id)) && op in w.owed
    ensures Finished(w.store, op) || op in Step(w, StartReplay(id)).tasks[id].promised
  {
    if !Finished(w.store, op) {
      var e :| e in GoodLines(w.log.lines) && e.op == op;
      assert e in Entries(w.log);
    }
  }

  /** A replay mends a torn file exactly when it finished something: with no readable entry, or nothing
      taken by the store, the torn tail stays for the next append to run into. */
  lemma ReplayMendsExactly(w: World, id: nat)
    requires Enabled(w, Compact(id))
    ensures Step(w, Compact(id)).log.tail.Clean? <==> w.log.tail.Clean? || w.tasks[id].done != {}
  {
  }

  // The ledger and the reservations

  /** A reservation is settled at what the ledger charges, and nothing else is charged. */
  ghost predicate Reconciled(s: Store, op: OpId) {
    if op in s.reservations && s.reservations[op].Settled? then Charge(op, s.reservations[op].seconds) in s.ledger
    else !Charged(s, op)
  }

  ghost predicate AllReconciled(s: Store) { forall op :: Reconciled(s, op) }

  /** The state is read before the transaction; released in between, the charge still goes in. */
  predicate ChargesReleased(w: World, ev: Event) {
    && ev.Apply? && ev.id in w.tasks && w.tasks[ev.id].work != []
    && var e := w.tasks[ev.id].work[0];
       !e.release && w.tasks[ev.id].seen == Some(Reserved)
       && e.op in w.store.reservations && w.store.reservations[e.op].Released?
  }

  /** Every step keeps ledger and reservations reconciled, exactly except that one. */
  lemma ReconciledExactly(w: World, ev: Event)
    requires Orderly(w) && AllReconciled(w.store) && Enabled(w, ev)
    ensures AllReconciled(Step(w, ev).store) <==> !ChargesReleased(w, ev)
  {
    var v := Step(w, ev);
    if ev.Apply? {
      assert TaskOk(w, ev.id);
      EffectReconciles(w.store, w.tasks[ev.id].work[0], w.tasks[ev.id].seen);
    } else {
      forall op ensures Reconciled(v.store, op) { assert Reconciled(w.store, op); }
    }
  }

  lemma EffectReconciles(s: Store, e: Entry, seen: Option<Reservation>)
    requires AllReconciled(s) && e.op in s.reservations
    ensures AllReconciled(Effect(s, e, seen)) <==>
      !(!e.release && seen == Some(Reserved) && s.reservations[e.op].Released?)
  {
    var t := Effect(s, e, seen);
    assert Reconciled(s, e.op);
    if !e.release && seen == Some(Reserved) {
      var c := Charge(e.op, e.seconds);
      assert !Charged(s, e.op) ==> t.ledger[|s.ledger|] == c;
      if s.reservations[e.op].Released? {
        assert c in t.ledger && !Reconciled(t, e.op);
      } else {
        forall op ensures Reconciled(t, op) { assert Reconciled(s, op); }
      }
    } else {
      forall op ensures Reconciled(t, op) { assert Reconciled(s, op); }
    }
  }

  // Every run

  ghost predicate IsRun(w: World, events: seq<Event>)
    decreases |events|
  {
    events == [] || (Enabled(w, events[0]) && IsRun(Step(w, events[0]), events[1..]))
  }

  ghost function After(w: World, events: seq<Event>): World
    requires IsRun(w, events)
    decreases |events|
  {
    if events == [] then w else After(Step(w, events[0]), events[1..])
  }

  /** No append meets a torn tail. */
  ghost predicate NeverOntoTorn(w: World, events: seq<Event>)
    requires IsRun(w, events)
    decreases |events|
  {
    events == [] || (!AppendsOntoTornTail(w, events[0]) && NeverOntoTorn(Step(w, events[0]), events[1..]))
  }

  /** No settle is overtaken by a release between its read and its charge. */
  ghost predicate NeverOvertaken(w: World, events: seq<Event>)
    requires IsRun(w, events)
    decreases |events|
  {
    events == [] || (!ChargesReleased(w, events[0]) && NeverOvertaken(Step(w, events[0]), events[1..]))
  }

  lemma {:induction false} RunKeeps(w: World, events: seq<Event>)
    requires Orderly(w) && IsRun(w, events)
    ensures Orderly(After(w, events)) && Grows(w.store, After(w, events).store)
    ensures Remembered(w) && NeverOntoTorn(w, events) ==> Remembered(After(w, events))
    ensures AllReconciled(w.store) && NeverOvertaken(w, events) ==> AllReconciled(After(w, events).store)
    decreases |events|
  {
    hide Orderly, Remembered, AllReconciled, AppendsOntoTornTail, ChargesReleased, Step, Enabled;
    if events != [] {
      StoreGrows(w, events[0]);
      OrderlyKept(w, events[0]);
      if Remembered(w) { RememberedExactly(w, events[0]); }
      if AllReconciled(w.store) { ReconciledExactly(w, events[0]); }
      RunKeeps(Step(w, events[0]), events[1..]);
    }
  }

  lemma StartIsOrderly()
    ensures Orderly(START) && Remembered(START) && AllReconciled(START.store)
  {
  }

  /** In every run, crashes anywhere: each operation is charged at most once. If no append meets a torn tail,
      nothing logged is forgotten before it is finished; if no settle is overtaken, what is charged is what is
      settled. */
  lemma SettlementExactlyOnce(events: seq<Event>)
    requires IsRun(START, events)
    ensures OncePerOp(After(START, events).store.ledger)
    ensures NeverOntoTorn(START, events) ==> Remembered(After(START, events))
    ensures NeverOvertaken(START, events) ==> AllReconciled(After(START, events).store)
  {
    StartIsOrderly();
    RunKeeps(START, events);
  }

  // Where charges come from

  /** The entry an event writes, or begins to write. */
  function Written1(ev: Event): set<Entry> {
    match ev
    case Append(_, e) => {e}
    case FailedWrite(e, _) => {e}
    case Crash(e, _) => {e}
    case _ => {}
  }

  function Swept1(ev: Event): set<OpId> { if ev.Sweep? then {ev.op} else {} }

  /** Every entry written in the run, and every operation swept. */
  function AllWritten(events: seq<Event>): set<Entry> { if events == [] then {} else Written1(events[0]) + AllWritten(events[1..]) }
  function AllSwept(events: seq<Event>): set<OpId> { if events == [] then {} else Swept1(events[0]) + AllSwept(events[1..]) }

  /** What is logged, worked off, charged and settled was written, with these very seconds; what is released was
      swept, or its release was written. */
  ghost predicate Sourced(w: World, written: set<Entry>, swept: set<OpId>) {
    && (forall e :: e in Entries(w.log) ==> e in written)
    && (forall id, e :: id in w.tasks && e in w.tasks[id].work ==> e in written)
    && StoreSourced(w.store, written, swept)
  }

  ghost predicate StoreSourced(s: Store, written: set<Entry>, swept: set<OpId>) {
    && (forall c :: c in s.ledger ==> Entry(c.op, false, c.seconds) in written)
    && (forall op :: op in s.reservations && s.reservations[op].Settled? ==> Entry(op, false, s.reservations[op].seconds) in written)
    && (forall op :: op in s.reservations && s.reservations[op].Released? ==>
          op in swept || exists e :: e in written && e.op == op && e.release)
  }

  lemma StoreSourcedGrows(s: Store, written: set<Entry>, swept: set<OpId>, more: set<Entry>, moreSwept: set<OpId>)
    requires StoreSourced(s, written, swept)
    ensures StoreSourced(s, written + more, swept + moreSwept)
  {
    forall op | op in s.reservations && s.reservations[op].Released?
      ensures op in swept + moreSwept || exists e :: e in written + more && e.op == op && e.release
    {
      if op !in swept {
        var e :| e in written && e.op == op && e.release;
        assert e in written + more;
      }
    }
  }

  lemma EffectSourced(s: Store, e: Entry, seen: Option<Reservation>, written: set<Entry>, swept: set<OpId>)
    requires StoreSourced(s, written, swept) && e in written
    ensures StoreSourced(Effect(s, e, seen), written, swept)
  {
  }

  lemma LogSourced(w: World, ev: Event, written: set<Entry>)
    requires Enabled(w, ev) && (forall e :: e in Entries(w.log) ==> e in written)
    ensures forall e :: e in Entries(Step(w, ev).log) ==> e in written + Written1(ev)
  {
    var v := Step(w, ev);
    forall e | e in Entries(v.log) ensures e in written + Written1(ev) {
      match ev
      case Append(_, f) => AppendedLines(w.log.lines, if w.log.tail.Clean? then Good(f) else Junk);
      case Compact(id) => CompactionDropsExactly(w.log, w.tasks[id].done, e);
      case _ =>
    }
  }

  lemma SourcedKept(w: World, ev: Event, written: set<Entry>, swept: set<OpId>)
    requires Sourced(w, written, swept) && Enabled(w, ev)
    ensures Sourced(Step(w, ev), written + Written1(ev), swept + Swept1(ev))
  {
    var v := Step(w, ev);
    LogSourced(w, ev, written);
    StoreSourcedGrows(w.store, written, swept, Written1(ev), Swept1(ev));
    if ev.Apply? {
      assert w.tasks[ev.id].work[0] in w.tasks[ev.id].work;
      EffectSourced(w.store, w.tasks[ev.id].work[0], w.tasks[ev.id].seen, written + Written1(ev), swept + Swept1(ev));
    }
  }

  lemma {:induction false} RunSourced(w: World, events: seq<Event>, written: set<Entry>, swept: set<OpId>)
    requires Sourced(w, written, swept) && IsRun(w, events)
    ensures Sourced(After(w, events), written + AllWritten(events), swept + AllSwept(events))
    decreases |events|
  {
    hide Sourced, Step, Enabled;
    if events == [] {
      assert written + AllWritten(events) == written && swept + AllSwept(events) == swept;
    } else {
      SourcedKept(w, events[0], written, swept);
      RunSourced(Step(w, events[0]), events[1..], written + Written1(events[0]), swept + Swept1(events[0]));
      assert written + Written1(events[0]) + AllWritten(events[1..]) == written + AllWritten(events);
      assert swept + Swept1(events[0]) + AllSwept(events[1..]) == swept + AllSwept(events);
    }
  }

  /** In every run: nothing is charged or settled but the seconds of an entry written for that operation, and nothing
      released but what was swept or had its release written. */
  lemma ChargesWereWritten(events: seq<Event>)
    requires IsRun(START, events)
    ensures StoreSourced(After(START, events).store, AllWritten(events), AllSwept(events))
  {
    assert Sourced(START, {}, {});
    RunSourced(START, events, {}, {});
    assert {} + AllWritten(events) == AllWritten(events) && {} + AllSwept(events) == AllSwept(events);
  }

  // A whole replay

  /** The task lives through all of it: no crash, and not finished yet. */
  ghost predicate Alive(w: World, events: seq<Event>, id: nat)
    requires IsRun(w, events)
    decreases |events|
  {
    id in w.tasks && (events == [] || Alive(Step(w, events[0]), events[1..], id))
  }

  lemma {:induction false} PromiseStands(w: World, events: seq<Event>, id: nat)
    requires IsRun(w, events) && Alive(w, events, id)
    ensures id in After(w, events).tasks && After(w, events).tasks[id].promised == w.tasks[id].promised
    decreases |events|
  {
    if events != [] {
      PromiseStandsOnce(w, events[0], id);
      PromiseStands(Step(w, events[0]), events[1..], id);
    }
  }

  lemma PromiseStandsOnce(w: World, ev: Event, id: nat)
    requires Enabled(w, ev) && id in w.tasks && id in Step(w, ev).tasks
    ensures Step(w, ev).tasks[id].promised == w.tasks[id].promised
  {
  }

  /** How often the ledger charges an operation. */
  function Times(ledger: seq<Charge>, op: OpId): nat {
    if ledger == [] then 0
    else Times(ledger[..|ledger| - 1], op) + if ledger[|ledger| - 1].op == op then 1 else 0
  }

  lemma {:induction false} TimesOnce(ledger: seq<Charge>, op: OpId)
    requires OncePerOp(ledger)
    ensures Times(ledger, op) == if exists c :: c in ledger && c.op == op then 1 else 0
  {
    if ledger != [] {
      var front := ledger[..|ledger| - 1];
      TimesOnce(front, op);
      assert forall c :: c in ledger <==> c in front || c == ledger[|ledger| - 1];
      if ledger[|ledger| - 1].op == op {
        forall c | c in front ensures c.op != op { var i :| 0 <= i < |front| && front[i] == c; assert ledger[i] == c; }
        assert ledger[|ledger| - 1] in ledger;
      }
    }
  }

  /** The replay `id` began after the run `before`, lived through `during`, and now compacts with no store call
      unanswered: the world before it began, and the world after. */
  ghost predicate WholeReplay(before: seq<Event>, id: nat, during: seq<Event>, w: World, v: World) {
    && IsRun(START, before) && w == After(START, before) && Enabled(w, StartReplay(id))
    && var w1 := Step(w, StartReplay(id));
       && IsRun(w1, during) && Alive(w1, during, id)
       && var w2 := After(w1, during);
          Enabled(w2, Compact(id)) && w2.tasks[id].failed == {} && v == Step(w2, Compact(id))
  }

  lemma WholeReplayFinishes(before: seq<Event>, id: nat, during: seq<Event>, w: World, v: World, op: OpId)
    requires WholeReplay(before, id, during, w, v)
    ensures op in Ops(Entries(w.log)) ==> Finished(v.store, op) && op !in Ops(Entries(v.log))
    ensures Finished(w.store, op) ==> Finished(v.store, op)
    ensures OncePerOp(v.store.ledger)
  {
    StartIsOrderly();
    RunKeeps(START, before);
    OrderlyKept(w, StartReplay(id));
    var w1 := Step(w, StartReplay(id));
    assert w1.store == w.store && id in w1.tasks && w1.tasks[id].promised == Ops(Entries(w.log));
    hide Orderly, Step, Enabled, IsRun, After, Remembered, Entries;
    RunKeeps(w1, during);
    PromiseStands(w1, during, id);
    var w2 := After(w1, during);
    OrderlyKept(w2, Compact(id));
    StoreGrows(w2, Compact(id));
    CompactOrderly(w2, id);
    if op in w2.tasks[id].promised { AnsweredReplayFinishes(w2, id, op); }
  }

  lemma CompactOrderly(w: World, id: nat)
    requires Orderly(w) && Enabled(w, Compact(id))
    ensures OncePerOp(Step(w, Compact(id)).store.ledger) && Step(w, Compact(id)).store == w.store
  {
  }

  /** What the run writes for `op` is a settlement for `n` seconds, and `op` is not swept. */
  ghost predicate OnlySettles(events: seq<Event>, op: OpId, n: nat) {
    op !in AllSwept(events) && forall e :: e in AllWritten(events) && e.op == op ==> e == Entry(op, false, n)
  }

  lemma WholeReplaySourced(before: seq<Event>, id: nat, during: seq<Event>, w: World, v: World)
    requires WholeReplay(before, id, during, w, v)
    ensures StoreSourced(v.store, AllWritten(before) + AllWritten(during), AllSwept(before) + AllSwept(during))
  {
    assert Sourced(START, {}, {});
    RunSourced(START, before, {}, {});
    assert {} + AllWritten(before) == AllWritten(before) && {} + AllSwept(before) == AllSwept(before);
    var w1 := Step(w, StartReplay(id));
    SourcedKept(w, StartReplay(id), AllWritten(before), AllSwept(before));
    assert AllWritten(before) + Written1(StartReplay(id)) == AllWritten(before);
    assert AllSwept(before) + Swept1(StartReplay(id)) == AllSwept(before);
    RunSourced(w1, during, AllWritten(before), AllSwept(before));
    assert v.store == After(w1, during).store;
  }

  /** Exactly once, end to end: if no append before met a torn tail, then after a whole replay everything owed when
      it began is finished, and what it found in the log is gone from it; and if no settle was overtaken, each of
      those operations is charged exactly once, for the seconds it was settled at, or not at all when it was
      released. */
  lemma WholeReplayChargesOnce(before: seq<Event>, id: nat, during: seq<Event>, w: World, v: World, op: OpId)
    requires WholeReplay(before, id, during, w, v) && op in w.owed && NeverOntoTorn(START, before)
    ensures Finished(v.store, op)
    ensures op in Ops(Entries(w.log)) ==> op !in Ops(Entries(v.log))
    ensures NeverOvertaken(START, before) && NeverOvertaken(Step(w, StartReplay(id)), during) ==>
      && Times(v.store.ledger, op) == (if v.store.reservations[op].Settled? then 1 else 0)
      && (v.store.reservations[op].Settled? ==> Charge(op, v.store.reservations[op].seconds) in v.store.ledger)
    // for the seconds written for it, and for no others
    ensures v.store.reservations[op].Settled? ==>
      Entry(op, false, v.store.reservations[op].seconds) in AllWritten(before) + AllWritten(during)
    ensures forall n: nat :: OnlySettles(before, op, n) && OnlySettles(during, op, n) ==> v.store.reservations[op] == Settled(n)
  {
    WholeReplaySourced(before, id, during, w, v);
    WholeReplayFinishes(before, id, during, w, v, op);
    StartIsOrderly();
    RunKeeps(START, before);
    ReplayFindsAllOwed(w, id, op);
    OrderlyKept(w, StartReplay(id));
    ReplayReconciles(before, id, during, w, v);
    TimesOnce(v.store.ledger, op);
    if AllReconciled(v.store) { assert Reconciled(v.store, op); }
    hide Orderly, Step, Enabled, IsRun, After, Remembered, Entries;
  }

  lemma ReplayReconciles(before: seq<Event>, id: nat, during: seq<Event>, w: World, v: World)
    requires WholeReplay(before, id, during, w, v)
    ensures NeverOvertaken(START, before) && NeverOvertaken(Step(w, StartReplay(id)), during) ==> AllReconciled(v.store)
  {
    StartIsOrderly();
    RunKeeps(START, before);
    OrderlyKept(w, StartReplay(id));
    var w1 := Step(w, StartReplay(id));
    assert w1.store == w.store;
    hide Orderly, Step, Enabled, IsRun, After, Remembered, Entries, AllReconciled;
    RunKeeps(w1, during);
    CompactOrderly(After(w1, during), id);
  }

  // Inputs that show what goes wrong

  lemma Prepend(w: World, ev: Event, rest: seq<Event>)
    requires Enabled(w, ev) && IsRun(Step(w, ev), rest)
    ensures IsRun(w, [ev] + rest) && After(w, [ev] + rest) == After(Step(w, ev), rest)
  {
    assert ([ev] + rest)[1..] == rest;
  }

  /** The steps of the next run, one by one. */
  lemma TornSteps(id: nat, e: Entry, crash: bool)
    ensures var breaks := if crash then Crash(e, Part) else FailedWrite(e, Part);
      var w1 := World(Store(map[e.op := Reserved], []), Log([], Clean), map[], {});
      var w2 := w1.(log := Log([], Fragment));
      var w3 := World(w1.store, Log([Junk], Clean), map[id := Begin([e])], {e.op});
      && Enabled(START, Reserve(e.op)) && Step(START, Reserve(e.op)) == w1
      && Enabled(w1, breaks) && Step(w1, breaks) == w2 && Enabled(w2, Append(id, e)) && Step(w2, Append(id, e)) == w3
  {
    assert [] + [Junk] == [Junk];
  }

  /** The run that loses a settlement: a write breaks off in the middle, the log holds no other entry to replay,
      and the next settlement shares its line with the fragment. It is owed, not finished, and not in the log. */
  lemma TornTailLosesNextSettlement(id: nat, e: Entry, crash: bool)
    ensures var breaks := if crash then Crash(e, Part) else FailedWrite(e, Part);
      var events := [Reserve(e.op)] + ([breaks] + [Append(id, e)]);
      && IsRun(START, events)
      && (var w := After(START, events);
          e.op in w.owed && !Finished(w.store, e.op) && Entries(w.log) == [] && !Remembered(w))
  {
    var breaks := if crash then Crash(e, Part) else FailedWrite(e, Part);
    TornSteps(id, e, crash);
    hide Step, Enabled;
    var w1 := Step(START, Reserve(e.op));
    var w2 := Step(w1, breaks);
    var w3 := Step(w2, Append(id, e));
    AppendedLines([], Junk);
    assert [] + [Junk] == [Junk];
    assert !Logged(w3.log, e.op);
    assert IsRun(w3, []) && After(w3, []) == w3;
    hide IsRun, After;
    Prepend(w2, Append(id, e), []);
    assert [Append(id, e)] + [] == [Append(id, e)];
    Prepend(w1, breaks, [Append(id, e)]);
    Prepend(START, Reserve(e.op), [breaks] + [Append(id, e)]);
  }

  /** The steps of the next run, one by one. */
  lemma OvertakenSteps(id: nat, op: OpId, seconds: nat)
    ensures var e := Entry(op, false, seconds);
      var w1 := World(Store(map[op := Reserved], []), Log([], Clean), map[], {});
      var w2 := World(w1.store, Log([Good(e)], Clean), map[id := Begin([e])], {op});
      var w3 := w2.(tasks := map[id := Begin([e]).(seen := Some(Reserved))]);
      var w4 := w3.(store := Store(map[op := Released], []));
      && Enabled(START, Reserve(op)) && Step(START, Reserve(op)) == w1
      && Enabled(w1, Append(id, e)) && Step(w1, Append(id, e)) == w2
      && Enabled(w2, Look(id)) && Step(w2, Look(id)) == w3
      && Enabled(w3, Sweep(op)) && Step(w3, Sweep(op)) == w4
      && Enabled(w4, Apply(id, true)) && Step(w4, Apply(id, true)).store == Store(map[op := Released], [Charge(op, seconds)])
  {
    var e := Entry(op, false, seconds);
    assert [] + [Good(e)] == [Good(e)];
    assert [] + [Charge(op, seconds)] == [Charge(op, seconds)];
  }

  /** And the run that charges a released reservation. */
  lemma SweepBetweenReadAndCharge(id: nat, op: OpId, seconds: nat)
    ensures var e := Entry(op, false, seconds);
      var events := [Reserve(op)] + ([Append(id, e)] + ([Look(id)] + ([Sweep(op)] + [Apply(id, true)])));
      IsRun(START, events) && After(START, events).store == Store(map[op := Released], [Charge(op, seconds)])
  {
    var e := Entry(op, false, seconds);
    OvertakenSteps(id, op, seconds);
    hide Step, Enabled;
    var w1 := Step(START, Reserve(op));
    var w2 := Step(w1, Append(id, e));
    var w3 := Step(w2, Look(id));
    var w4 := Step(w3, Sweep(op));
    var w5 := Step(w4, Apply(id, true));
    assert IsRun(w5, []) && After(w5, []) == w5;
    hide IsRun, After;
    Prepend(w4, Apply(id, true), []);
    assert [Apply(id, true)] + [] == [Apply(id, true)];
    Prepend(w3, Sweep(op), [Apply(id, true)]);
    Prepend(w2, Look(id), [Sweep(op)] + [Apply(id, true)]);
    Prepend(w1, Append(id, e), [Look(id)] + ([Sweep(op)] + [Apply(id, true)]));
    Prepend(START, Reserve(op), [Append(id, e)] + ([Look(id)] + ([Sweep(op)] + [Apply(id, true)])));
  }

  // The gateway's own methods, one thread

  datatype Settlement = SettledNow | Declined | Deferred

  /** Whether the store takes the entry: it answers, and a charge has its reservation. */
  predicate Takes(s: Store, e: Entry, answering: set<OpId>) {
    e.op in answering && (e.release || e.op in s.reservations)
  }

  function Applied(s: Store, e: Entry): Store {
    Effect(s, e, if e.op in s.reservations then Some(s.reservations[e.op]) else None)
  }

  /** The replay loop: every entry the store takes is applied, in the order of the log. */
  function Replayed(s: Store, es: seq<Entry>, answering: set<OpId>): (Store, set<OpId>) {
    if es == [] then (s, {})
    else
      var (t, done) := Replayed(s, es[..|es| - 1], answering);
      var e := es[|es| - 1];
      if Takes(t, e, answering) then (Applied(t, e), done + {e.op}) else (t, done)
  }

  /** The log has a settlement of `op`, and every entry it has for `op` is that one. */
  ghost predicate OnlyLogged(es: seq<Entry>, op: OpId, n: nat) {
    Entry(op, false, n) in es && forall e :: e in es && e.op == op ==> e == Entry(op, false, n)
  }

  class Gateway {
    var lines: seq<Line>
    var tail: Tail
    var store: Store

    function LogView(): Log
      reads this
    {
      Log(lines, tail)
    }

    constructor (l: Log, s: Store)
      ensures LogView() == l && store == s
    {
      lines, tail, store := l.lines, l.tail, s;
    }

    method WalAppend(e: Entry)
      modifies this`lines, this`tail
      ensures LogView() == Appended(old(LogView()), e)
    {
      lines := lines + [if tail.Clean? then Good(e) else Junk];
      tail := Clean;
    }

    method WalEntries() returns (es: seq<Entry>)
      ensures es == Entries(LogView())
    {
      es := [];
      for i := 0 to |lines|
        invariant es == GoodLines(lines[..i])
      {
        assert lines[..i + 1][..i] == lines[..i];
        if lines[i].Good? { es := es + [lines[i].entry]; }
      }
      assert lines[..|lines|] == lines;
      if tail.Whole? { es := es + [tail.entry]; }
    }

    method WalCompact(done: set<OpId>)
      modifies this`lines, this`tail
      ensures LogView() == Compacted(old(LogView()), done)
    {
      var es := WalEntries();
      var remaining := [];
      for i := 0 to |es|
        invariant remaining == Keep(es[..i], done)
      {
        assert es[..i + 1][..i] == es[..i];
        if es[i].op !in done { remaining := remaining + [es[i]]; }
      }
      assert es[..|es|] == es;
      lines, tail := Written(remaining), Clean;
    }

    /** The store's settle or release of one entry; false is its exception. */
    method Apply1(e: Entry, answers: bool) returns (taken: bool)
      modifies this`store
      ensures taken == (answers && (e.release || e.op in old(store).reservations))
      ensures store == if taken then Applied(old(store), e) else old(store)
      // a reserved operation is settled or released, its seconds charged unless they are; nothing else is touched
      ensures taken && e.op in old(store).reservations && old(store).reservations[e.op].Reserved? ==>
        && store.reservations == old(store).reservations[e.op := if e.release then Released else Settled(e.seconds)]
        && store.ledger == old(store).ledger + (if e.release || Charged(old(store), e.op) then [] else [Charge(e.op, e.seconds)])
      ensures !(taken && e.op in old(store).reservations && old(store).reservations[e.op].Reserved?) ==> store == old(store)
    {
      if !answers || (!e.release && e.op !in store.reservations) { return false; }
      if e.release {
        store := Release(store, e.op);
      } else if store.reservations[e.op].Reserved? {
        store := Settle(store, e.op, e.seconds);
      }
      return true;
    }

    /** Log first, then charge; a store that does not answer leaves the entry for the replay. The caller
        learns whether the charge was taken, declined or deferred. */
    method SettleOp(op: OpId, seconds: nat, answers: bool) returns (outcome: Settlement)
      requires forall x :: Reconciled(store, x)
      modifies this
      ensures outcome.Deferred? <==> !(answers && op in old(store).reservations)
      ensures outcome.Deferred? ==> store == old(store) && LogView() == Appended(old(LogView()), Entry(op, false, seconds))
      ensures !outcome.Deferred? ==> Finished(store, op) && (forall e :: e in Entries(LogView()) ==> e.op != op)
      ensures outcome.SettledNow? <==> answers && op in store.reservations && store.reservations[op].Settled?
      ensures outcome.SettledNow? ==> Charged(store, op)
      // the seconds asked for, in the ledger and on the reservation, and only once
      ensures answers && op in old(store).reservations && old(store).reservations[op].Reserved? ==>
        && store.ledger == old(store).ledger + [Charge(op, seconds)]
        && store.reservations == old(store).reservations[op := Settled(seconds)]
      ensures !(answers && op in old(store).reservations && old(store).reservations[op].Reserved?) ==> store == old(store)
      ensures forall x :: Reconciled(store, x)
      ensures forall e :: e in GoodLines(old(lines)) && e.op != op ==> e in Entries(LogView())
    {
      var entry := Entry(op, false, seconds);
      ghost var l, s := LogView(), store;
      assert Reconciled(s, op);
      WalAppend(entry);
      var taken := Apply1(entry, answers);
      assert forall e :: e in GoodLines(l.lines) ==> e in Entries(LogView()) by {
        forall e | e in GoodLines(l.lines) ensures e in Entries(LogView()) { AppendKeepsOthers(l, entry, e); }
      }
      if !taken { return Deferred; }
      EffectReconciles(s, entry, Some(s.reservations[op]));
      ghost var before := LogView();
      WalCompact({op});
      forall e ensures e in Entries(LogView()) <==> e in Entries(before) && e.op != op { CompactionDropsExactly(before, {op}, e); }
      assert Reconciled(store, op);
      return if store.reservations[op].Settled? then SettledNow else Declined;
    }

    /** Replay whatever the log holds; `answering` are the operations the store answers for. */
    method ReplayOutbox(answering: set<OpId>) returns (replayed: nat, failed: nat)
      modifies this
      ensures store == Replayed(old(store), Entries(old(LogView())), answering).0
      ensures var done := Replayed(old(store), Entries(old(LogView())), answering).1;
        LogView() == if done == {} then old(LogView()) else Compacted(old(LogView()), done)
      ensures replayed + failed == |Entries(old(LogView()))|
      // what is charged is what the log says
      ensures forall c :: c in store.ledger ==> c in old(store).ledger || Entry(c.op, false, c.seconds) in Entries(old(LogView()))
      ensures forall op, n: nat ::
        (op in answering && op in old(store).reservations && old(store).reservations[op].Reserved? && OnlyLogged(Entries(old(LogView())), op, n)) ==>
          op in store.reservations && store.reservations[op] == Settled(n)
    {
      ReplayedCharges(store, Entries(LogView()), answering);

      var es := WalEntries();
      ghost var s := store;
      var done := {};
      replayed, failed := 0, 0;
      for i := 0 to |es|
        invariant (store, done) == Replayed(s, es[..i], answering)
        invariant replayed + failed == i && lines == old(lines) && tail == old(tail)
      {
        assert es[..i + 1][..i] == es[..i];
        var taken := Apply1(es[i], es[i].op in answering);
        if taken {
          done := done + {es[i].op};
          replayed := replayed + 1;
        } else {
          failed := failed + 1;
        }
      }
      assert es[..|es|] == es;
      if done != {} { WalCompact(done); }
    }
  }

  /** A replay charges the seconds it finds in the log, and settles for them. */
  lemma {:induction false} ReplayedCharges(s: Store, es: seq<Entry>, answering: set<OpId>)
    ensures var t := Replayed(s, es, answering).0;
      && (forall c :: c in t.ledger ==> c in s.ledger || Entry(c.op, false, c.seconds) in es)
      && (forall op, n: nat :: op in answering && op in s.reservations && s.reservations[op].Reserved? && OnlyLogged(es, op, n) ==>
            op in t.reservations && t.reservations[op] == Settled(n))
  {
    if es != [] {
      var front, e := es[..|es| - 1], es[|es| - 1];
      var b, t := Replayed(s, front, answering).0, Replayed(s, es, answering).0;
      ReplayedCharges(s, front, answering);
      assert es == front + [e];
      assert forall x :: x in es <==> x in front || x == e;
      forall op, n: nat | op in answering && op in s.reservations && s.reservations[op].Reserved? && OnlyLogged(es, op, n)
        ensures op in t.reservations && t.reservations[op] == Settled(n)
      {
        if Entry(op, false, n) in front {
          assert OnlyLogged(front, op, n);
        } else {
          ReplayedLeaves(s, front, answering, op);
        }
      }
    }
  }

  lemma {:induction false} ReplayedLeaves(s: Store, es: seq<Entry>, answering: set<OpId>, op: OpId)
    requires forall e :: e in es ==> e.op != op
    ensures var t := Replayed(s, es, answering).0;
      (op in t.reservations <==> op in s.reservations) && (op in s.reservations ==> t.reservations[op] == s.reservations[op])
  {
    if es != [] { ReplayedLeaves(s, es[..|es| - 1], answering, op); }
  }

  lemma AppliedGrows(s: Store, e: Entry)
    ensures Grows(s, Applied(s, e)) && (e.op in s.reservations ==> Finished(Applied(s, e), e.op))
    ensures AllReconciled(s) ==> AllReconciled(Applied(s, e))
  {
    if AllReconciled(s) {
      if e.op in s.reservations {
        EffectReconciles(s, e, Some(s.reservations[e.op]));
      }
    }
  }

  /** What a replay does for one operation: everything of it the store answers for is finished, reconciled
      and done with; the rest stays as it was. */
  lemma {:induction false} ReplayedFinishes(s: Store, es: seq<Entry>, answering: set<OpId>)
    requires forall e :: e in es ==> e.op in s.reservations
    ensures var (t, done) := Replayed(s, es, answering);
      && Grows(s, t) && done == Ops(es) * answering
      && (forall op :: op in done ==> Finished(t, op))
      && (AllReconciled(s) ==> AllReconciled(t))
  {
    if es != [] {
      var front, e := es[..|es| - 1], es[|es| - 1];
      ReplayedFinishes(s, front, answering);
      assert Ops(es) == Ops(front) + {e.op};
      AppliedGrows(Replayed(s, front, answering).0, e);
    }
  }

  /** Replaying twice is replaying once: a settled operation is charged no second time. */
  lemma ReplayTwiceChargesOnce(s: Store, e: Entry)
    requires e.op in s.reservations
    ensures Applied(Applied(s, e), e) == Applied(s, e)
  {
  }
}
