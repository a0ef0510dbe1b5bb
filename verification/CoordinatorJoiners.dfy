/** Joiners of a load in flight. Every undisposed joiner is on exactly one list, a reservation's or a
    load owner's custody; its disposition is written once; nobody is orphaned. No assumption on the
    environment. */
module CoordinatorJoiners {
  import opened Common
  import opened CoordinatorState
  import opened CoordinatorWorld
  import opened CoordinatorOwnership

  predicate CustodyPc(pc: Pc) { pc.Undoing? || pc.Undone? || pc.Failing? || pc.Disposing? }

  predicate AwaitsIt(pc: Pc, j: nat) { pc.Awaiting? && pc.waiter == j }

  predicate Placed(c: Coord, home: map<nat, Home>, j: nat) {
    && j in home
    && match home[j]
       case Registered(o) => o in c.reservations && j in c.reservations[o].waiters
       case InCustody(o) => o in c.custody && j in c.custody[o]
  }

  predicate JoinerOk(w: World, j: nat) {
    j in w.c.waiters ==>
      var op, d := w.c.waiters[j].op, w.c.waiters[j].disposition;
      && j < w.c.nextWaiter && op in w.pcs
      && (d == Unset ==> AwaitsIt(w.pcs[op], j) && op in w.c.live && w.c.live[op] == j && Placed(w.c, w.home, j))
      && (d.Shared? ==> AwaitsIt(w.pcs[op], j) || w.pcs[op].Holding? || w.pcs[op].Done?)
  }

  predicate ListedOk(w: World, o: OpId, j: nat)
    requires o in w.c.reservations
  {
    && j in w.c.waiters && w.c.waiters[j].disposition == Unset && j in w.home && w.home[j] == Registered(o)
    && w.c.waiters[j].op in w.pcs && w.pcs[w.c.waiters[j].op].Awaiting?
    && w.pcs[w.c.waiters[j].op].req.key == w.c.reservations[o].key
  }

  ghost predicate ListOk(w: World, o: OpId) {
    o in w.c.reservations ==>
      && Distinct(w.c.reservations[o].waiters)
      && forall j :: j in w.c.reservations[o].waiters ==> ListedOk(w, o, j)
  }

  predicate KeptOk(w: World, o: OpId, j: nat) {
    && j in w.c.waiters && j in w.home && w.home[j] == InCustody(o)
    && (w.c.waiters[j].disposition != Unset ==> w.c.waiters[j].op in w.pcs && w.pcs[w.c.waiters[j].op].Done?)
  }

  ghost predicate CustodyOk(w: World, o: OpId) {
    && (o in w.c.custody <==> o in w.pcs && CustodyPc(w.pcs[o]))
    && (o in w.c.custody ==> Distinct(w.c.custody[o]) && forall j :: j in w.c.custody[o] ==> KeptOk(w, o, j))
  }

  /** What an operation's own stage says about joiners. */
  ghost predicate StageOk(w: World, o: OpId) {
    && (o in w.pcs && (w.pcs[o].Undoing? || w.pcs[o].Undone? || w.pcs[o].Disposing?) ==>
          w.pcs[o].verdict.Refused? || w.pcs[o].verdict.Retry?)
    && (o in w.pcs && w.pcs[o].Awaiting? ==> w.pcs[o].waiter in w.c.waiters && w.c.waiters[w.pcs[o].waiter].op == o)
    && (o in w.pcs && w.pcs[o].Committed? ==>
          forall j :: j in w.pcs[o].joiners ==> j in w.c.waiters && w.c.waiters[j].disposition.Shared?)
  }

  ghost predicate Joined(w: World) {
    && (forall j :: JoinerOk(w, j))
    && (forall o :: ListOk(w, o))
    && (forall o :: CustodyOk(w, o))
    && (forall o :: StageOk(w, o))
  }

  // Shapes

  predicate SameJoiners(w: World, v: World) {
    v.c.waiters == w.c.waiters && v.home == w.home && v.c.live == w.c.live && v.c.nextWaiter == w.c.nextWaiter
  }

  ghost predicate SameLists(w: World, v: World) {
    forall o :: o in v.c.reservations && v.c.reservations[o].waiters != [] ==>
      o in w.c.reservations && v.c.reservations[o].waiters == w.c.reservations[o].waiters
      && v.c.reservations[o].key == w.c.reservations[o].key
  }

  /** One operation moves; no joiner, list or custody is touched. */
  lemma JoinedPlain(w: World, v: World, op: OpId)
    requires Joined(w) && Moves(w, v, op) && SameJoiners(w, v) && v.c.custody == w.c.custody && SameLists(w, v)
    requires forall o :: o in w.c.reservations && w.c.reservations[o].waiters != [] ==>
      o in v.c.reservations && v.c.reservations[o].waiters == w.c.reservations[o].waiters
    requires (op in w.pcs ==> !w.pcs[op].Awaiting? && (w.pcs[op].Done? ==> v.pcs[op].Done?)
                              && (w.pcs[op].Holding? ==> v.pcs[op].Holding? || v.pcs[op].Done?))
    requires !v.pcs[op].Awaiting? && !v.pcs[op].Committed?
    requires CustodyPc(v.pcs[op]) <==> op in w.pcs && CustodyPc(w.pcs[op])
    requires v.pcs[op].Undoing? || v.pcs[op].Undone? || v.pcs[op].Disposing? ==> v.pcs[op].verdict.Refused? || v.pcs[op].verdict.Retry?
    ensures Joined(v)
  {
    forall j ensures JoinerOk(v, j) { assert JoinerOk(w, j); }
    forall o ensures ListOk(v, o) {
      assert ListOk(w, o);
      if o in v.c.reservations && v.c.reservations[o].waiters != [] {
        forall j | j in v.c.reservations[o].waiters ensures ListedOk(v, o, j) { assert ListedOk(w, o, j) && JoinerOk(w, j); }
      }
    }
    forall o ensures CustodyOk(v, o) {
      assert CustodyOk(w, o);
      if o in v.c.custody {
        forall j | j in v.c.custody[o] ensures KeptOk(v, o, j) { assert KeptOk(w, o, j); }
      }
    }
    forall o ensures StageOk(v, o) { assert StageOk(w, o); }
  }

  lemma DistinctSnoc(s: seq<nat>, x: nat)
    requires Distinct(s) && x !in s
    ensures Distinct(s + [x])
  {
  }

  lemma JoinKeepsJoined(w: World, op: OpId, req: Request, owner: OpId)
    requires Joined(w) && op in w.pcs && w.pcs[op] == Ready(req)
    requires owner in w.c.reservations && w.c.reservations[owner].key == req.key
    ensures Joined(OnJoin(w, op, req, owner))
  {
    var v := OnJoin(w, op, req, owner);
    forall j ensures JoinerOk(v, j) { assert JoinerOk(w, j) && JoinerOk(w, w.c.nextWaiter); }
    forall o ensures ListOk(v, o) { JoinKeepsList(w, op, req, owner, o); }
    forall o ensures CustodyOk(v, o) { JoinKeepsCustody(w, op, req, owner, o); }
    forall o ensures StageOk(v, o) { assert StageOk(w, o) && JoinerOk(w, w.c.nextWaiter); }
  }

  lemma JoinKeepsList(w: World, op: OpId, req: Request, owner: OpId, o: OpId)
    requires Joined(w) && op in w.pcs && w.pcs[op] == Ready(req)
    requires owner in w.c.reservations && w.c.reservations[owner].key == req.key
    ensures ListOk(OnJoin(w, op, req, owner), o)
  {
    var v := OnJoin(w, op, req, owner);
    var n := w.c.nextWaiter;
    assert JoinerOk(w, n) && ListOk(w, o);
    if o in v.c.reservations {
      forall j | j in w.c.reservations[o].waiters ensures j != n && ListedOk(v, o, j) { assert ListedOk(w, o, j) && JoinerOk(w, j); }
      DistinctSnoc(w.c.reservations[o].waiters, n);
    }
  }

  lemma JoinKeepsCustody(w: World, op: OpId, req: Request, owner: OpId, o: OpId)
    requires Joined(w) && op in w.pcs && w.pcs[op] == Ready(req)
    requires owner in w.c.reservations && w.c.reservations[owner].key == req.key
    ensures CustodyOk(OnJoin(w, op, req, owner), o)
  {
    var v := OnJoin(w, op, req, owner);
    assert JoinerOk(w, w.c.nextWaiter) && CustodyOk(w, o);
    if o in v.c.custody {
      forall j | j in v.c.custody[o] ensures KeptOk(v, o, j) { assert KeptOk(w, o, j); }
    }
  }

  /** A load owner drops its reservation and takes its joiners into custody in the same section. */
  lemma AdoptKeepsJoined(w: World, v: World, op: OpId)
    requires Joined(w) && Moves(w, v, op) && op in w.c.reservations && op in w.pcs && LoadPc(w.pcs[op])
    requires v.pcs[op].Failing? || ((v.pcs[op].Undoing? || v.pcs[op].Disposing?) && (v.pcs[op].verdict.Refused? || v.pcs[op].verdict.Retry?))
    requires v.c.reservations == w.c.reservations - {op}
    requires v.c.custody == w.c.custody[op := w.c.reservations[op].waiters]
    requires v.home == Adopt(w.home, w.c.reservations[op].waiters, op)
    requires v.c.waiters == w.c.waiters && v.c.live == w.c.live && v.c.nextWaiter == w.c.nextWaiter
    ensures Joined(v)
  {
    assert ListOk(w, op) && CustodyOk(w, op);
    forall j ensures JoinerOk(v, j) { assert JoinerOk(w, j); }
    forall o ensures ListOk(v, o) && CustodyOk(v, o) { AdoptKeepsLists(w, v, op, o); }
    forall o ensures StageOk(v, o) { assert StageOk(w, o); }
  }

  lemma AdoptKeepsLists(w: World, v: World, op: OpId, o: OpId)
    requires Joined(w) && Moves(w, v, op) && op in w.c.reservations && op in w.pcs && LoadPc(w.pcs[op])
    requires v.pcs[op].Failing? || ((v.pcs[op].Undoing? || v.pcs[op].Disposing?) && (v.pcs[op].verdict.Refused? || v.pcs[op].verdict.Retry?))
    requires v.c.reservations == w.c.reservations - {op}
    requires v.c.custody == w.c.custody[op := w.c.reservations[op].waiters]
    requires v.home == Adopt(w.home, w.c.reservations[op].waiters, op)
    requires v.c.waiters == w.c.waiters && v.c.live == w.c.live && v.c.nextWaiter == w.c.nextWaiter
    ensures ListOk(v, o) && CustodyOk(v, o)
  {
    assert ListOk(w, op) && CustodyOk(w, op) && ListOk(w, o) && CustodyOk(w, o);
    if o in v.c.reservations {
      forall j | j in v.c.reservations[o].waiters ensures ListedOk(v, o, j) { assert ListedOk(w, o, j); }
    }
    if o in v.c.custody {
      forall j | j in v.c.custody[o] ensures KeptOk(v, o, j) {
        if o == op { assert ListedOk(w, op, j); } else { assert KeptOk(w, o, j); }
      }
    }
  }

  lemma CommitKeepsJoined(w: World, op: OpId, k: ModelKey, size: nat, deferred: bool)
    requires Joined(w) && op in w.pcs && w.pcs[op] == Loaded(k, size, deferred)
    requires op in w.c.reservations && k in w.c.residents
    ensures Joined(OnCommit(w, op, k, size, deferred))
  {
    CommitEffects(w, op, k, size, deferred);
    HandOutKeepsJoined(w, OnCommit(w, op, k, size, deferred), op, w.c.reservations[op].waiters);
  }

  predicate HandedOut(w: World, v: World, op: OpId, ws: seq<nat>) {
    && v.c.waiters.Keys == w.c.waiters.Keys
    && (forall j :: j in w.c.waiters && j !in ws ==> v.c.waiters[j] == w.c.waiters[j])
    && (forall j :: j in w.c.waiters && j in ws ==> v.c.waiters[j].op == w.c.waiters[j].op && v.c.waiters[j].disposition.Shared?)
  }

  lemma CommitEffects(w: World, op: OpId, k: ModelKey, size: nat, deferred: bool)
    requires op in w.c.reservations && k in w.c.residents
    ensures var v := OnCommit(w, op, k, size, deferred); HandedOut(w, v, op, w.c.reservations[op].waiters)
  {
  }

  lemma HandOutKeepsJoined(w: World, v: World, op: OpId, ws: seq<nat>)
    requires Joined(w) && Moves(w, v, op) && op in w.pcs && w.pcs[op].Loaded? && v.pcs[op].Committed? && v.pcs[op].joiners == ws
    requires v.c.live == w.c.live && v.c.nextWaiter == w.c.nextWaiter
    requires op in w.c.reservations && ws == w.c.reservations[op].waiters && v.c.reservations == w.c.reservations - {op}
    requires v.home == w.home && v.c.custody == w.c.custody && HandedOut(w, v, op, ws)
    ensures Joined(v)
  {
    assert ListOk(w, op);
    assert forall i :: i in ws ==> ListedOk(w, op, i);
    forall j ensures JoinerOk(v, j) { HandOutJoiner(w, v, op, ws, j); }
    forall o ensures StageOk(v, o) { HandOutStage(w, v, op, ws, o); }
    forall o ensures ListOk(v, o) && CustodyOk(v, o) { HandOutLists(w, v, op, ws, o); }
  }

  lemma HandOutJoiner(w: World, v: World, op: OpId, ws: seq<nat>, j: nat)
    requires JoinerOk(w, j) && Moves(w, v, op) && op in w.pcs && w.pcs[op].Loaded? && v.pcs[op].Committed? && v.pcs[op].joiners == ws
    requires v.c.live == w.c.live && v.c.nextWaiter == w.c.nextWaiter
    requires op in w.c.reservations && ws == w.c.reservations[op].waiters && v.c.reservations == w.c.reservations - {op}
    requires forall i :: i in ws ==> ListedOk(w, op, i)
    requires v.home == w.home && v.c.custody == w.c.custody && HandedOut(w, v, op, ws)
    ensures JoinerOk(v, j)
  {
  }

  lemma HandOutStage(w: World, v: World, op: OpId, ws: seq<nat>, o: OpId)
    requires StageOk(w, o) && Moves(w, v, op) && op in w.pcs && w.pcs[op].Loaded? && v.pcs[op].Committed? && v.pcs[op].joiners == ws
    requires v.c.live == w.c.live && v.c.nextWaiter == w.c.nextWaiter
    requires op in w.c.reservations && ws == w.c.reservations[op].waiters && v.c.reservations == w.c.reservations - {op}
    requires forall i :: i in ws ==> ListedOk(w, op, i)
    requires v.home == w.home && v.c.custody == w.c.custody && HandedOut(w, v, op, ws)
    ensures StageOk(v, o)
  {
  }

  lemma HandOutLists(w: World, v: World, op: OpId, ws: seq<nat>, o: OpId)
    requires Joined(w) && Moves(w, v, op) && op in w.pcs && w.pcs[op].Loaded? && v.pcs[op].Committed? && v.pcs[op].joiners == ws
    requires v.c.live == w.c.live && v.c.nextWaiter == w.c.nextWaiter
    requires op in w.c.reservations && ws == w.c.reservations[op].waiters && v.c.reservations == w.c.reservations - {op}
    requires forall i :: i in ws ==> ListedOk(w, op, i)
    requires v.home == w.home && v.c.custody == w.c.custody && HandedOut(w, v, op, ws)
    ensures ListOk(v, o) && CustodyOk(v, o)
  {
    assert ListOk(w, o) && CustodyOk(w, o);
    if o in v.c.reservations {
      forall j | j in v.c.reservations[o].waiters ensures ListedOk(v, o, j) { assert ListedOk(w, o, j); }
    }
    if o in v.c.custody {
      forall j | j in v.c.custody[o] ensures KeptOk(v, o, j) { assert KeptOk(w, o, j); }
    }
  }

  /** The owner hands out its verdict: dispositions are filled in where still open, never overwritten. */
  lemma DisposeKeepsJoined(w: World, op: OpId, verdict: Disposition)
    requires Joined(w) && op in w.pcs && w.pcs[op] == Disposing(verdict)
    ensures Joined(OnDispose(w, op, verdict))
  {
    var v := OnDispose(w, op, verdict);
    assert CustodyOk(w, op) && StageOk(w, op);
    var ws := w.c.custody[op];
    assert forall i :: i in ws ==> KeptOk(w, op, i);
    forall j ensures JoinerOk(v, j) {
      assert JoinerOk(w, j);
      if j in w.c.waiters && v.c.waiters[j].disposition == Unset {
        forall i | i in ws && i in w.c.waiters ensures w.c.waiters[i].op != w.c.waiters[j].op {
          assert KeptOk(w, op, i) && JoinerOk(w, i);
        }
      }
    }
    forall o ensures ListOk(v, o) {
      assert ListOk(w, o);
      if o in v.c.reservations {
        forall j | j in v.c.reservations[o].waiters ensures ListedOk(v, o, j) {
          assert ListedOk(w, o, j);
        }
      }
    }
    forall o ensures CustodyOk(v, o) {
      assert CustodyOk(w, o);
      if o in v.c.custody {
        forall j | j in v.c.custody[o] ensures KeptOk(v, o, j) {
          assert KeptOk(w, o, j);
        }
      }
    }
    forall o ensures StageOk(v, o) { assert StageOk(w, o); }
  }

  /** After a commit the joiners are only woken: they were handed their claims already. */
  lemma WakeKeepsJoined(w: World, op: OpId, k: ModelKey, claim: nat, ws: seq<nat>)
    requires Joined(w) && op in w.pcs && w.pcs[op] == Committed(k, claim, ws)
    ensures Joined(OnWake(w, op, k, claim, ws))
  {
    var v := OnWake(w, op, k, claim, ws);
    assert StageOk(w, op) && CustodyOk(w, op);
    assert v.c.waiters == w.c.waiters;
    assert v.c.custody == w.c.custody;
    forall j ensures JoinerOk(v, j) {
      assert JoinerOk(w, j);
      if j in w.c.waiters && w.c.waiters[j].disposition == Unset {
        forall i | i in ws && i in w.c.waiters ensures w.c.waiters[i].op != w.c.waiters[j].op { assert JoinerOk(w, i); }
      }
    }
    forall o ensures ListOk(v, o) {
      assert ListOk(w, o);
      if o in v.c.reservations {
        forall j | j in v.c.reservations[o].waiters ensures ListedOk(v, o, j) { assert ListedOk(w, o, j); }
      }
    }
    forall o ensures CustodyOk(v, o) {
      assert CustodyOk(w, o);
      if o in v.c.custody {
        forall j | j in v.c.custody[o] ensures KeptOk(v, o, j) { assert KeptOk(w, o, j); }
      }
    }
    forall o ensures StageOk(v, o) { assert StageOk(w, o); }
  }

  /** A joiner's deadline came first: it deregisters, so no commit can count it. */
  lemma DeregisterKeepsJoined(w: World, op: OpId, req: Request, j: nat)
    requires Joined(w) && op in w.pcs && w.pcs[op] == Awaiting(req, j)
    requires j in w.c.waiters && w.c.waiters[j].disposition == Unset
    ensures Joined(OnWaitEnds(w, op, req, j))
  {
    var v := OnWaitEnds(w, op, req, j);
    assert StageOk(w, op);
    forall i ensures JoinerOk(v, i) { assert JoinerOk(w, i); }
    forall o ensures ListOk(v, o) {
      assert ListOk(w, o);
      if o in v.c.reservations {
        WithoutDistinct(w.c.reservations[o].waiters, j);
        forall i | i in v.c.reservations[o].waiters ensures ListedOk(v, o, i) { assert ListedOk(w, o, i) && JoinerOk(w, i); }
      }
    }
    forall o ensures CustodyOk(v, o) {
      assert CustodyOk(w, o);
      if o in v.c.custody {
        forall i | i in v.c.custody[o] ensures KeptOk(v, o, i) { assert KeptOk(w, o, i); }
      }
    }
    forall o ensures StageOk(v, o) { assert StageOk(w, o); }
  }

  /** A disposition was there already: the joiner takes it, claim included. */
  lemma CollectKeepsJoined(w: World, op: OpId, req: Request, j: nat)
    requires Joined(w) && op in w.pcs && w.pcs[op] == Awaiting(req, j)
    requires j in w.c.waiters && w.c.waiters[j].disposition != Unset
    ensures Joined(OnWaitEnds(w, op, req, j))
  {
    var v := OnWaitEnds(w, op, req, j);
    assert StageOk(w, op);
    forall i ensures JoinerOk(v, i) { assert JoinerOk(w, i); }
    forall o ensures ListOk(v, o) {
      assert ListOk(w, o);
      if o in v.c.reservations {
        forall i | i in v.c.reservations[o].waiters ensures ListedOk(v, o, i) { assert ListedOk(w, o, i) && JoinerOk(w, i); }
      }
    }
    forall o ensures CustodyOk(v, o) {
      assert CustodyOk(w, o);
      if o in v.c.custody {
        forall i | i in v.c.custody[o] ensures KeptOk(v, o, i) { assert KeptOk(w, o, i); }
      }
    }
    forall o ensures StageOk(v, o) { assert StageOk(w, o); }
  }

  // Every step keeps it

  lemma AdmitKeepsJoined(w: World, cfg: Config, op: OpId, a: AdmitEvent)
    requires Owned(w) && Joined(w) && AdmitEnabled(w, op, a)
    ensures Joined(AdmitStep(w, cfg, op, a))
  {
    assert CustodyOk(w, op) && StageOk(w, op) && OwnsReservation(w.c.reservations, w.pcs, op);
    match a
    case Start(req) => JoinedPlain(w, At(w, op, Ready(req)), op);
    case Stage1(free, owner, victims) =>
      var req := w.pcs[op].req;
      Stage1KeepsJoined(w, op, req, Decide(w.c, cfg, req.key, req.est, free, owner, victims));
    case GiveUp => JoinedPlain(w, At(w, op, Done), op);
    case WaitEnds =>
      if w.c.waiters[w.pcs[op].waiter].disposition == Unset {
        DeregisterKeepsJoined(w, op, w.pcs[op].req, w.pcs[op].waiter);
      } else {
        CollectKeepsJoined(w, op, w.pcs[op].req, w.pcs[op].waiter);
      }
    case Release => JoinedPlain(w, OnRelease(w, op, w.pcs[op].key, w.pcs[op].claim), op);
  }

  lemma Stage1KeepsJoined(w: World, op: OpId, req: Request, plan: Plan)
    requires Joined(w) && op in w.pcs && w.pcs[op] == Ready(req)
    requires plan.Share? ==> req.key in w.c.residents
    requires plan.Join? ==> LoadInFlight(w.c, plan.owner, req.key)
    requires plan.LoadIt? ==> op !in w.c.reservations
    ensures Joined(OnStage1(w, op, req, plan))
  {
    assert CustodyOk(w, op);
    match plan
    case Share => JoinedPlain(w, OnShare(w, op, req), op);
    case Join(owner) => JoinKeepsJoined(w, op, req, owner);
    case AwaitTransient =>
    case LoadIt => JoinedPlain(w, OnReserve(w, op, req), op);
    case Mark(victims) => JoinedPlain(w, OnMark(w, op, req, victims), op);
    case Reject(_) => JoinedPlain(w, At(w, op, Done), op);
  }

  lemma LoadKeepsJoined(w: World, cfg: Config, op: OpId, l: LoadEvent)
    requires Owned(w) && Joined(w) && LoadEnabled(w, op, l)
    ensures Joined(LoadStep(w, cfg, op, l))
  {
    assert CustodyOk(w, op) && StageOk(w, op) && OwnsReservation(w.c.reservations, w.pcs, op);
    hide Joined, Owned;
    match l
    case Raised(childLeft) => AdoptKeepsJoined(w, OnRaised(w, op, w.pcs[op].req.key, childLeft), op);
    case Commit => RecheckKeepsJoined(w, cfg, op, w.pcs[op].key, w.pcs[op].size, w.pcs[op].deferred);
    case DisposeJoiners => DisposeKeepsJoined(w, op, w.pcs[op].verdict);
    case WakeJoiners => WakeKeepsJoined(w, op, w.pcs[op].key, w.pcs[op].claim, w.pcs[op].joiners);
    case _ => PlainLoadKeepsJoined(w, cfg, op, l);
  }

  lemma PlainLoadKeepsJoined(w: World, cfg: Config, op: OpId, l: LoadEvent)
    requires Joined(w) && LoadEnabled(w, op, l) && (l.Deferred? || l.Measured? || l.StopPartial? || l.UndoUnload? || l.UndoFinalize?)
    ensures Joined(LoadStep(w, cfg, op, l))
  {
    assert StageOk(w, op);
    hide Joined;
    JoinedPlain(w, LoadStep(w, cfg, op, l), op);
  }

  lemma RecheckKeepsJoined(w: World, cfg: Config, op: OpId, k: ModelKey, size: nat, deferred: bool)
    requires Owned(w) && Joined(w) && op in w.pcs && w.pcs[op] == Loaded(k, size, deferred)
    ensures Joined(OnRecheck(w, cfg, op, k, size, deferred))
  {
    ReservationNeverLost(w, op);
    var objection := Objection(w.c, cfg, op, k, size);
    if objection == Unset {
      CommitKeepsJoined(w, op, k, size, deferred);
    } else {
      AdoptKeepsJoined(w, OnUndo(w, op, k, objection), op);
    }
  }

  lemma EvictKeepsJoined(w: World, op: OpId, e: EvictEvent)
    requires Joined(w) && EvictEnabled(w, op, e)
    ensures Joined(EvictStep(w, op, e))
  {
    JoinedPlain(w, EvictStep(w, op, e), op);
  }

  lemma JobKeepsJoined(w: World, op: OpId, j: JobEvent)
    requires Joined(w) && JobEnabled(w, op, j)
    ensures Joined(JobStep(w, op, j))
  {
    assert CustodyOk(w, op);
    match j
    case Begin => JoinedPlain(w, OnJobBegin(w, op), op);
    case Collect(pending) => JoinedPlain(w, JobStep(w, op, j), op);
    case Finish(job, drained) => JoinedPlain(w, OnJobFinish(w, op, job, drained), op);
  }

  lemma OutsideKeepsJoined(w: World, x: OutsideEvent)
    requires Joined(w) && Enabled(w, Outside(x))
    ensures Joined(OutsideStep(w, x))
  {
    var v := OutsideStep(w, x);
    assert v.pcs == w.pcs && SameJoiners(w, v) && v.c.custody == w.c.custody && v.c.reservations == w.c.reservations;
    forall j ensures JoinerOk(v, j) { assert JoinerOk(w, j); }
    forall o ensures ListOk(v, o) {
      assert ListOk(w, o);
      if o in v.c.reservations {
        forall i | i in v.c.reservations[o].waiters ensures ListedOk(v, o, i) { assert ListedOk(w, o, i); }
      }
    }
    forall o ensures CustodyOk(v, o) {
      assert CustodyOk(w, o);
      if o in v.c.custody {
        forall i | i in v.c.custody[o] ensures KeptOk(v, o, i) { assert KeptOk(w, o, i); }
      }
    }
    forall o ensures StageOk(v, o) { assert StageOk(w, o); }
  }

  lemma JoinedKept(w: World, cfg: Config, e: Event)
    requires Owned(w) && Joined(w) && Enabled(w, e)
    ensures Joined(Step(w, cfg, e))
  {
    match e
    case Admit(op, a) => AdmitKeepsJoined(w, cfg, op, a);
    case Load(op, l) => LoadKeepsJoined(w, cfg, op, l);
    case Evict(op, v) => EvictKeepsJoined(w, op, v);
    case Job(op, j) => JobKeepsJoined(w, op, j);
    case Outside(x) => OutsideKeepsJoined(w, x);
  }

  // What it says about joiners

  /** Every place a joiner is listed at. */
  ghost function Places(c: Coord, j: nat): set<Home> {
    (set o | o in c.reservations && j in c.reservations[o].waiters :: Registered(o))
    + (set o | o in c.custody && j in c.custody[o] :: InCustody(o))
  }

  /** An undisposed joiner is on exactly one list, and once on it. */
  lemma OpenJoinerHasOnePlace(w: World, j: nat)
    requires Joined(w) && j in w.c.waiters && w.c.waiters[j].disposition == Unset
    ensures j in w.home && Places(w.c, j) == {w.home[j]}
    ensures forall o :: o in w.c.reservations ==> Distinct(w.c.reservations[o].waiters)
    ensures forall o :: o in w.c.custody ==> Distinct(w.c.custody[o])
  {
    assert JoinerOk(w, j);
    forall o | o in w.c.reservations ensures Distinct(w.c.reservations[o].waiters)
      && (j in w.c.reservations[o].waiters ==> w.home[j] == Registered(o))
    {
      assert ListOk(w, o);
      if j in w.c.reservations[o].waiters { assert ListedOk(w, o, j); }
    }
    forall o | o in w.c.custody ensures Distinct(w.c.custody[o])
      && (j in w.c.custody[o] ==> w.home[j] == InCustody(o))
    {
      assert CustodyOk(w, o);
      if j in w.c.custody[o] { assert KeptOk(w, o, j); }
    }
  }

  predicate StillSays(w: World, v: World, j: nat) {
    j in w.c.waiters && j in v.c.waiters && v.c.waiters[j] == w.c.waiters[j]
  }

  lemma PlanWritesOnce(w: World, op: OpId, req: Request, plan: Plan, j: nat)
    requires JoinerOk(w, j) && j in w.c.waiters
    requires plan.Share? ==> req.key in w.c.residents
    requires plan.Join? ==> plan.owner in w.c.reservations
    ensures StillSays(w, OnStage1(w, op, req, plan), j)
  {
  }

  lemma Stage1WritesOnce(w: World, cfg: Config, op: OpId, a: AdmitEvent, j: nat)
    requires JoinerOk(w, j) && AdmitEnabled(w, op, a) && j in w.c.waiters && a.Stage1?
    ensures StillSays(w, AdmitStep(w, cfg, op, a), j)
  {
    var req := w.pcs[op].req;
    PlanWritesOnce(w, op, req, Decide(w.c, cfg, req.key, req.est, a.free, a.owner, a.victims), j);
  }

  lemma AdmitWritesOnce(w: World, cfg: Config, op: OpId, a: AdmitEvent, j: nat)
    requires AdmitEnabled(w, op, a) && j in w.c.waiters && w.c.waiters[j].disposition != Unset && !a.Stage1? && !a.WaitEnds?
    ensures StillSays(w, AdmitStep(w, cfg, op, a), j)
  {
  }

  lemma WaitWritesOnce(w: World, op: OpId, req: Request, i: nat, j: nat)
    requires j in w.c.waiters && w.c.waiters[j].disposition != Unset
    ensures StillSays(w, OnWaitEnds(w, op, req, i), j)
  {
    if i in w.c.waiters {
      var d := EndWait(w.c, op, i);
      assert d.waiters == w.c.waiters || d.waiters == w.c.waiters[i := d.waiters[i]];
      if i == j { assert d.waiters == w.c.waiters; }
      assert OnWaitEnds(w, op, req, i).c == d;
    }
  }

  lemma CommitWritesOnce(w: World, op: OpId, k: ModelKey, size: nat, deferred: bool, j: nat)
    requires op in w.c.reservations && k in w.c.residents
    requires j in w.c.waiters && j !in w.c.reservations[op].waiters
    ensures StillSays(w, OnCommit(w, op, k, size, deferred), j)
  {
    CommitEffects(w, op, k, size, deferred);
  }

  lemma RecheckWritesOnce(w: World, cfg: Config, op: OpId, k: ModelKey, size: nat, deferred: bool, j: nat)
    requires op in w.c.reservations && j in w.c.waiters && j !in w.c.reservations[op].waiters
    ensures StillSays(w, OnRecheck(w, cfg, op, k, size, deferred), j)
  {
    if k in w.c.residents { CommitWritesOnce(w, op, k, size, deferred, j); }
  }

  lemma LoadWritesOnce(w: World, cfg: Config, op: OpId, l: LoadEvent, j: nat)
    requires LoadEnabled(w, op, l) && j in w.c.waiters && w.c.waiters[j].disposition != Unset && !l.Commit?
    ensures StillSays(w, LoadStep(w, cfg, op, l), j)
  {
  }

  lemma EvictLeavesWaiters(w: World, op: OpId, e: EvictEvent)
    requires EvictEnabled(w, op, e)
    ensures EvictStep(w, op, e).c.waiters == w.c.waiters
  {
  }

  lemma JobLeavesWaiters(w: World, op: OpId, j: JobEvent)
    ensures JobStep(w, op, j).c.waiters == w.c.waiters
  {
  }

  lemma OutsideLeavesWaiters(w: World, x: OutsideEvent)
    requires Enabled(w, Outside(x))
    ensures OutsideStep(w, x).c.waiters == w.c.waiters
  {
  }

  /** A disposition, once given, is never changed by any later section. */
  lemma DispositionWrittenOnce(w: World, cfg: Config, e: Event, j: nat)
    requires Owned(w) && Joined(w) && Enabled(w, e)
    requires j in w.c.waiters && w.c.waiters[j].disposition != Unset
    ensures StillSays(w, Step(w, cfg, e), j)
  {
    match e
    case Admit(op, a) =>
      assert JoinerOk(w, j);
      match a {
        case Stage1(_, _, _) => Stage1WritesOnce(w, cfg, op, a, j);
        case WaitEnds => WaitWritesOnce(w, op, w.pcs[op].req, w.pcs[op].waiter, j);
        case _ => AdmitWritesOnce(w, cfg, op, a, j);
      }
    case Load(op, l) =>
      assert OwnsReservation(w.c.reservations, w.pcs, op) && ListOk(w, op);
      assert op in w.c.reservations && j in w.c.reservations[op].waiters ==> ListedOk(w, op, j);
      if l.Commit? {
        RecheckWritesOnce(w, cfg, op, w.pcs[op].key, w.pcs[op].size, w.pcs[op].deferred, j);
      } else {
        LoadWritesOnce(w, cfg, op, l, j);
      }
    case Evict(op, v) => EvictLeavesWaiters(w, op, v);
    case Job(op, b) => JobLeavesWaiters(w, op, b);
    case Outside(x) => OutsideLeavesWaiters(w, x);
  }
}
