/** Claims: each entry's request count is the number of its granted, unreleased claims, each claim is in exactly
    one operation's hands, and no entry with a live claim is removed. One kind of step breaks it: removing, by
    key, an entry that has a request on it. */
module CoordinatorClaims {
  import opened Common
  import opened CoordinatorState
  import opened CoordinatorWorld
  import opened CoordinatorOwnership
  import opened CoordinatorJoiners
  import opened CoordinatorPhases
  import opened CoordinatorFlights

  datatype Grip = NoGrip | Grip(key: ModelKey, claim: nat)

  /** The claim an operation holds or has been handed and not yet collected. */
  function Held(w: World, o: OpId): Grip {
    if o !in w.pcs then NoGrip
    else match w.pcs[o]
      case Holding(k, claim) => Grip(k, claim)
      case Committed(k, claim, _) => Grip(k, claim)
      case Awaiting(req, j) =>
        if j in w.c.waiters && w.c.waiters[j].disposition.Shared? then Grip(req.key, w.c.waiters[j].disposition.claim) else NoGrip
      case _ => NoGrip
  }

  ghost predicate KeyClaims(c: Coord, k: ModelKey) {
    && (ClaimsOf(c, k) != {} ==> k in c.residents)
    && (k in c.residents ==> c.residents[k].active == |ClaimsOf(c, k)|)
    && (forall claim :: claim in ClaimsOf(c, k) ==> claim < c.nextClaim)
  }

  predicate ClaimHeld(w: World, k: ModelKey, claim: nat) {
    claim in ClaimsOf(w.c, k) ==> claim in w.holder && Held(w, w.holder[claim]) == Grip(k, claim)
  }

  predicate HeldOk(w: World, o: OpId) {
    Held(w, o).Grip? ==>
      var g := Held(w, o);
      g.claim in ClaimsOf(w.c, g.key) && g.claim in w.holder && w.holder[g.claim] == o
  }

  ghost predicate Claimed(w: World) {
    && (forall k :: KeyClaims(w.c, k))
    && (forall k, claim :: ClaimHeld(w, k, claim))
    && (forall o :: HeldOk(w, o))
  }

  // Shapes

  predicate CountStays(c: Coord, d: Coord, k: ModelKey) {
    && (k in d.residents ==>
          || (k in c.residents && d.residents[k].active == c.residents[k].active)
          || (d.residents[k].active == 0 && ClaimsOf(c, k) == {}))
    && (ClaimsOf(c, k) != {} ==> k in d.residents)
  }

  lemma ClaimsStill(w: World, v: World)
    requires Claimed(w)
    requires v.c.claims == w.c.claims && v.c.nextClaim == w.c.nextClaim && v.holder == w.holder
    requires forall o :: Held(v, o) == Held(w, o)
    requires forall k :: CountStays(w.c, v.c, k)
    ensures Claimed(v)
  {
    forall k ensures KeyClaims(v.c, k) { assert KeyClaims(w.c, k) && CountStays(w.c, v.c, k); }
    forall k, claim ensures ClaimHeld(v, k, claim) { assert ClaimHeld(w, k, claim); }
    forall o ensures HeldOk(v, o) { assert HeldOk(w, o); }
  }

  /** One operation moves without gaining or losing a claim; entries keep their counts. */
  lemma ClaimsMove(w: World, v: World, op: OpId)
    requires Claimed(w) && Moves(w, v, op) && Held(v, op) == Held(w, op) && v.c.waiters == w.c.waiters
    requires v.c.claims == w.c.claims && v.c.nextClaim == w.c.nextClaim && v.holder == w.holder
    requires forall k :: CountStays(w.c, v.c, k)
    ensures Claimed(v)
  {
    forall o ensures Held(v, o) == Held(w, o) {}
    ClaimsStill(w, v);
  }

  lemma CountsSame(c: Coord, d: Coord)
    requires forall k :: KeyClaims(c, k)
    requires d.residents.Keys == c.residents.Keys && d.claims == c.claims
    requires forall k :: k in c.residents ==> d.residents[k].active == c.residents[k].active
    ensures forall k :: CountStays(c, d, k)
  {
    forall k ensures CountStays(c, d, k) { assert KeyClaims(c, k); }
  }

  lemma CountsWithout(c: Coord, d: Coord, k: ModelKey)
    requires forall l :: KeyClaims(c, l)
    requires d.residents == c.residents - {k} && d.claims == c.claims && ClaimsOf(c, k) == {}
    ensures forall l :: CountStays(c, d, l)
  {
    forall l ensures CountStays(c, d, l) { assert KeyClaims(c, l); }
  }

  lemma ShareKeepsClaimed(w: World, op: OpId, req: Request)
    requires Claimed(w) && op in w.pcs && w.pcs[op] == Ready(req)
    requires req.key in w.c.residents && w.c.residents[req.key].phase == Resident
    ensures Claimed(OnShare(w, op, req))
  {
    var v := OnShare(w, op, req);
    var n := w.c.nextClaim;
    assert KeyClaims(w.c, req.key);
    forall k ensures KeyClaims(v.c, k) { assert KeyClaims(w.c, k); }
    forall k, claim ensures ClaimHeld(v, k, claim) { assert KeyClaims(w.c, k) && ClaimHeld(w, k, claim); }
    forall o ensures HeldOk(v, o) {
      assert HeldOk(w, o);
      if Held(w, o).Grip? { assert KeyClaims(w.c, Held(w, o).key); }
    }
  }

  lemma ReleaseKeepsClaimed(w: World, op: OpId, k: ModelKey, claim: nat)
    requires Claimed(w) && op in w.pcs && w.pcs[op] == Holding(k, claim)
    ensures Claimed(OnRelease(w, op, k, claim))
    ensures k in w.c.residents && w.c.residents[k].active > 0 // the decrement never saturates
  {
    var v := OnRelease(w, op, k, claim);
    assert HeldOk(w, op) && KeyClaims(w.c, k) && Held(w, op) == Grip(k, claim);
    assert claim in ClaimsOf(w.c, k) && k in w.c.claims;
    assert ClaimsOf(v.c, k) == ClaimsOf(w.c, k) - {claim};
    forall l ensures KeyClaims(v.c, l) { assert KeyClaims(w.c, l); }
    forall l, other ensures ClaimHeld(v, l, other) { assert ClaimHeld(w, l, other); }
    forall o ensures HeldOk(v, o) {
      assert HeldOk(w, o);
      if o != op && Held(w, o).Grip? { assert w.holder[Held(w, o).claim] == o; }
    }
  }

  // A commit mints one claim for the loader and one for each joiner

  /** What the commit did to claims, in the terms the proof needs. */
  ghost predicate Minted(w: World, v: World, op: OpId, k: ModelKey, ws: seq<nat>) {
    var n := w.c.nextClaim;
    && v.c.nextClaim == n + 1 + |ws|
    && (forall l :: l != k ==> ClaimsOf(v.c, l) == ClaimsOf(w.c, l))
    && ClaimsOf(v.c, k) == ClaimsOf(w.c, k) + ClaimRange(n, 1 + |ws|)
    && (forall claim :: claim < n && claim in w.holder ==> claim in v.holder && v.holder[claim] == w.holder[claim])
    && n in v.holder && v.holder[n] == op
    && (forall claim :: n < claim <= n + |ws| ==>
          claim in v.holder && v.holder[claim] == JoinerOp(w, ws[claim - n - 1], op))
  }

  lemma HoldersAre(w: World, op: OpId, ws: seq<nat>)
    ensures var h := Holders(w, op, ws); var n := w.c.nextClaim;
      && (forall claim :: claim < n && claim in w.holder ==> claim in h && h[claim] == w.holder[claim])
      && n in h && h[n] == op
      && (forall claim :: n < claim <= n + |ws| ==> claim in h && h[claim] == JoinerOp(w, ws[claim - n - 1], op))
  {
    var n := w.c.nextClaim;
    var minted := ClaimRange(n, 1 + |ws|);
    assert forall claim :: claim in minted <==> n <= claim <= n + |ws|;
    assert n in minted;
  }

  lemma CommitMints(w: World, op: OpId, k: ModelKey, size: nat, deferred: bool)
    requires op in w.c.reservations && k in w.c.residents
    ensures Minted(w, OnCommit(w, op, k, size, deferred), op, k, w.c.reservations[op].waiters)
  {
    hide CommitLoad, Holders, ClaimRange, JoinerOp;
    HoldersAre(w, op, w.c.reservations[op].waiters);
    CommitClaims(w.c, op, k, size, deferred);
  }

  lemma CommitClaims(c: Coord, op: OpId, k: ModelKey, size: nat, deferred: bool)
    requires op in c.reservations && k in c.residents
    ensures var d := CommitLoad(c, op, k, size, deferred); var n := |c.reservations[op].waiters|;
      && d.nextClaim == c.nextClaim + 1 + n
      && ClaimsOf(d, k) == ClaimsOf(c, k) + ClaimRange(c.nextClaim, 1 + n)
      && (forall l :: l != k ==> ClaimsOf(d, l) == ClaimsOf(c, l))
      && d.residents[k].phase == Resident && d.residents[k].active == c.residents[k].active + 1 + n
      && (forall l :: l != k ==> (l in d.residents <==> l in c.residents))
      && (forall l :: l != k && l in c.residents ==> d.residents[l] == c.residents[l])
  {
  }

  /** Joiner `ws[i]` is handed claim `n + 1 + i`, in arrival order. */
  lemma HandedInOrder(waiters: map<nat, Waiter>, ws: seq<nat>, first: nat, i: nat)
    requires Distinct(ws) && i < |ws| && ws[i] in waiters
    ensures HandClaims(waiters, ws, first)[ws[i]] == Waiter(waiters[ws[i]].op, Shared(first + i))
  {
    assert IndexOf(ws, ws[i]) == i;
  }

  lemma CommitHandsTable(w: World, op: OpId, k: ModelKey, size: nat, deferred: bool)
    requires op in w.c.reservations && k in w.c.residents
    ensures OnCommit(w, op, k, size, deferred).c.waiters == HandClaims(w.c.waiters, w.c.reservations[op].waiters, w.c.nextClaim + 1)
  {
    hide HandClaims, ClaimRange, Holders, ClaimsOf;
  }

  lemma CommitHands(w: World, op: OpId, k: ModelKey, size: nat, deferred: bool, i: nat)
    requires Joined(w) && op in w.c.reservations && k in w.c.residents && w.c.reservations[op].key == k
    requires i < |w.c.reservations[op].waiters|
    ensures JoinerFor(w, OnCommit(w, op, k, size, deferred), k, w.c.reservations[op].waiters[i], w.c.nextClaim + 1 + i)
  {
    hide OnCommit;
    var ws := w.c.reservations[op].waiters;
    assert ListOk(w, op) && ws[i] in ws && ListedOk(w, op, ws[i]) && JoinerOk(w, ws[i]);
    hide Joined, HandClaims, ClaimRange, Holders, ClaimsOf;
    HandedInOrder(w.c.waiters, ws, w.c.nextClaim + 1, i);
    CommitHandsTable(w, op, k, size, deferred);
  }

  lemma CommitKeepsClaimed(w: World, op: OpId, k: ModelKey, size: nat, deferred: bool)
    requires Owned(w) && Joined(w) && Claimed(w)
    requires op in w.pcs && w.pcs[op] == Loaded(k, size, deferred)
    requires op in w.c.reservations && w.c.reservations[op].key == k && k in w.c.residents
    ensures Claimed(OnCommit(w, op, k, size, deferred))
  {
    var v := OnCommit(w, op, k, size, deferred);
    var ws := w.c.reservations[op].waiters;
    assert forall i :: 0 <= i < |ws| ==> JoinerFor(w, v, k, ws[i], w.c.nextClaim + 1 + i) by {
      forall i | 0 <= i < |ws| ensures JoinerFor(w, v, k, ws[i], w.c.nextClaim + 1 + i) {
        CommitHands(w, op, k, size, deferred, i);
      }
    }
    CommitClaims(w.c, op, k, size, deferred);
    CommitMints(w, op, k, size, deferred);
    CommitEffects(w, op, k, size, deferred);
    MintKeepsClaimed(w, v, op, k, ws);
  }

  lemma MintKeepsClaimed(w: World, v: World, op: OpId, k: ModelKey, ws: seq<nat>)
    requires (forall o :: StageOk(w, o)) && Claimed(w) && Moves(w, v, op) && op in w.pcs && w.pcs[op].Loaded?
    requires v.pcs[op] == Committed(k, w.c.nextClaim, ws)
    requires Minted(w, v, op, k, ws) && HandedOut(w, v, op, ws)
    requires forall i :: 0 <= i < |ws| ==> JoinerFor(w, v, k, ws[i], w.c.nextClaim + 1 + i)
    requires k in w.c.residents && k in v.c.residents && v.c.residents[k].active == w.c.residents[k].active + 1 + |ws|
    requires forall l :: l != k ==> (l in v.c.residents <==> l in w.c.residents)
    requires forall l :: l != k && l in w.c.residents ==> v.c.residents[l] == w.c.residents[l]
    ensures Claimed(v)
  {
    forall l ensures KeyClaims(v.c, l) {
      assert KeyClaims(w.c, l);
      if l == k { assert ClaimsOf(w.c, k) !! ClaimRange(w.c.nextClaim, 1 + |ws|); }
    }
    forall l, claim: nat ensures ClaimHeld(v, l, claim) { MintKeepsClaim(w, v, op, k, ws, l, claim); }
    forall o ensures HeldOk(v, o) { MintKeepsHeld(w, v, op, k, ws, o); }
  }

  lemma MintKeepsClaim(w: World, v: World, op: OpId, k: ModelKey, ws: seq<nat>, l: ModelKey, claim: nat)
    requires Claimed(w) && Moves(w, v, op) && op in w.pcs && w.pcs[op].Loaded? && v.pcs[op] == Committed(k, w.c.nextClaim, ws)
    requires Minted(w, v, op, k, ws) && HandedOut(w, v, op, ws)
    requires forall i :: 0 <= i < |ws| ==> JoinerFor(w, v, k, ws[i], w.c.nextClaim + 1 + i)
    ensures ClaimHeld(v, l, claim)
  {
    var n := w.c.nextClaim;
    if claim in ClaimsOf(w.c, l) {
      JoinersWereOpen(w, v, k, ws);
      hide HandedOut, JoinerFor;
      OldClaimHeld(w, v, op, k, ws, l, claim);
    } else if l == k && n < claim <= n + |ws| {
      var i := claim - n - 1;
      assert JoinerFor(w, v, k, ws[i], n + 1 + i);
      hide HandedOut, JoinerFor, Claimed, ClaimHeld;
      JoinerClaimHeld(w, v, op, k, ws, i);
    }
  }

  lemma OldClaimHeld(w: World, v: World, op: OpId, k: ModelKey, ws: seq<nat>, l: ModelKey, claim: nat)
    requires Claimed(w) && Moves(w, v, op) && op in w.pcs && w.pcs[op].Loaded?
    requires Minted(w, v, op, k, ws) && HandedOut(w, v, op, ws) && claim in ClaimsOf(w.c, l)
    requires forall j :: j in ws ==> j in w.c.waiters && w.c.waiters[j].disposition == Unset
    ensures ClaimHeld(v, l, claim)
  {
    assert ClaimHeld(w, l, claim) && KeyClaims(w.c, l);
    hide HandedOut, Claimed;
    HeldElsewhere(w, v, op, ws, w.holder[claim]);
  }

  lemma JoinerClaimHeld(w: World, v: World, op: OpId, k: ModelKey, ws: seq<nat>, i: nat)
    requires Moves(w, v, op) && op in w.pcs && w.pcs[op].Loaded? && i < |ws| && Minted(w, v, op, k, ws)
    requires JoinerFor(w, v, k, ws[i], w.c.nextClaim + 1 + i)
    ensures ClaimHeld(v, k, w.c.nextClaim + 1 + i)
  {
    var claim := w.c.nextClaim + 1 + i;
    assert claim in v.holder && v.holder[claim] == JoinerOp(w, ws[claim - w.c.nextClaim - 1], op);
    hide Minted;
  }

  lemma JoinersWereOpen(w: World, v: World, k: ModelKey, ws: seq<nat>)
    requires forall i :: 0 <= i < |ws| ==> JoinerFor(w, v, k, ws[i], w.c.nextClaim + 1 + i)
    ensures forall j :: j in ws ==> j in w.c.waiters && w.c.waiters[j].disposition == Unset
  {
    forall j | j in ws ensures j in w.c.waiters && w.c.waiters[j].disposition == Unset {
      assert JoinerFor(w, v, k, ws[IndexOf(ws, j)], w.c.nextClaim + 1 + IndexOf(ws, j));
    }
  }

  lemma MintKeepsHeld(w: World, v: World, op: OpId, k: ModelKey, ws: seq<nat>, o: OpId)
    requires StageOk(w, o) && Claimed(w) && Moves(w, v, op) && v.pcs[op] == Committed(k, w.c.nextClaim, ws)
    requires Minted(w, v, op, k, ws) && HandedOut(w, v, op, ws)
    requires forall i :: 0 <= i < |ws| ==> JoinerFor(w, v, k, ws[i], w.c.nextClaim + 1 + i)
    ensures HeldOk(v, o)
  {
    var n := w.c.nextClaim;
    assert HeldOk(w, o);
    if o != op && o in w.pcs && w.pcs[o].Awaiting? && w.pcs[o].waiter in ws {
      MintReachesJoiner(w, v, op, k, ws, o);
    } else if o != op && Held(w, o).Grip? {
      assert KeyClaims(w.c, Held(w, o).key);
    }
  }

  lemma MintReachesJoiner(w: World, v: World, op: OpId, k: ModelKey, ws: seq<nat>, o: OpId)
    requires StageOk(w, o) && Moves(w, v, op) && Minted(w, v, op, k, ws)
    requires forall i :: 0 <= i < |ws| ==> JoinerFor(w, v, k, ws[i], w.c.nextClaim + 1 + i)
    requires o != op && o in w.pcs && w.pcs[o].Awaiting? && w.pcs[o].waiter in ws
    ensures HeldOk(v, o)
  {
    var n, i := w.c.nextClaim, IndexOf(ws, w.pcs[o].waiter);
    assert JoinerFor(w, v, k, ws[i], n + 1 + i);
    assert n + 1 + i in ClaimRange(n, 1 + |ws|);
    assert v.holder[n + 1 + i] == JoinerOp(w, ws[i], op);
  }

  predicate JoinerFor(w: World, v: World, k: ModelKey, j: nat, claim: nat) {
    && j in w.c.waiters && w.c.waiters[j].disposition == Unset
    && w.c.waiters[j].op in w.pcs && AwaitsIt(w.pcs[w.c.waiters[j].op], j) && w.pcs[w.c.waiters[j].op].req.key == k
    && j in v.c.waiters && v.c.waiters[j] == Waiter(w.c.waiters[j].op, Shared(claim))
  }

  lemma HeldElsewhere(w: World, v: World, op: OpId, ws: seq<nat>, o: OpId)
    requires Moves(w, v, op) && HandedOut(w, v, op, ws) && o != op && Held(w, o).Grip?
    requires forall j :: j in ws ==> j in w.c.waiters && w.c.waiters[j].disposition == Unset
    ensures Held(v, o) == Held(w, o)
  {
  }

  // Every step keeps it but one kind

  /** Somebody still has a request on the entry under `k`. */
  predicate Busy(c: Coord, k: ModelKey) { k in c.residents && c.residents[k].active > 0 }

  /** The step removes an entry by key, as an eviction, a rollback or the runtime's `forget` does, and the entry
      it meets there is in use. */
  ghost predicate PopsBusy(w: World, e: Event)
    requires Enabled(w, e)
  {
    match e
    case Load(op, l) => l.UndoFinalize? && Busy(w.c, w.pcs[op].key)
    case Evict(op, v) => v.Remove? && Busy(w.c, w.pcs[op].key)
    case Outside(x) => x.Forgotten? && Busy(w.c, x.key)
    case _ => false
  }

  lemma AdmitKeepsClaimed(w: World, cfg: Config, op: OpId, a: AdmitEvent)
    requires Owned(w) && Joined(w) && Claimed(w) && AdmitEnabled(w, op, a)
    ensures Claimed(AdmitStep(w, cfg, op, a))
  {
    match a
    case Start(req) => CountsSame(w.c, w.c); ClaimsMove(w, At(w, op, Ready(req)), op);
    case Stage1(free, owner, victims) =>
      var req := w.pcs[op].req;
      Stage1KeepsClaimed(w, op, req, Decide(w.c, cfg, req.key, req.est, free, owner, victims));
    case GiveUp => CountsSame(w.c, w.c); ClaimsMove(w, At(w, op, Done), op);
    case WaitEnds => WaitKeepsClaimed(w, op, w.pcs[op].req, w.pcs[op].waiter);
    case Release => ReleaseKeepsClaimed(w, op, w.pcs[op].key, w.pcs[op].claim);
  }

  lemma WaitKeepsClaimed(w: World, op: OpId, req: Request, j: nat)
    requires Joined(w) && Claimed(w) && op in w.pcs && w.pcs[op] == Awaiting(req, j)
    ensures Claimed(OnWaitEnds(w, op, req, j))
  {
    var v := OnWaitEnds(w, op, req, j);
    assert StageOk(w, op);
    CountsSame(w.c, v.c);
    if w.c.waiters[j].disposition == Unset {
      forall o ensures Held(v, o) == Held(w, o) { assert StageOk(w, o); }
      ClaimsStill(w, v);
    } else {
      ClaimsMove(w, v, op);
    }
  }

  lemma Stage1KeepsClaimed(w: World, op: OpId, req: Request, plan: Plan)
    requires Joined(w) && Claimed(w) && op in w.pcs && w.pcs[op] == Ready(req)
    requires plan.Share? ==> req.key in w.c.residents && w.c.residents[req.key].phase == Resident
    requires plan.Join? ==> plan.owner in w.c.reservations
    requires plan.LoadIt? ==> req.key !in w.c.residents
    requires plan.Mark? ==> AreVictims(w.c, req.key, plan.victims)
    ensures Claimed(OnStage1(w, op, req, plan))
  {
    match plan
    case Share => ShareKeepsClaimed(w, op, req);
    case Join(owner) => JoinKeepsClaimed(w, op, req, owner);
    case AwaitTransient =>
    case LoadIt => ReserveKeepsClaimed(w, op, req);
    case Mark(victims) => CountsSame(w.c, MarkVictims(w.c, op, victims)); ClaimsMove(w, OnMark(w, op, req, victims), op);
    case Reject(_) => CountsSame(w.c, w.c); ClaimsMove(w, At(w, op, Done), op);
  }

  lemma JoinKeepsClaimed(w: World, op: OpId, req: Request, owner: OpId)
    requires Joined(w) && Claimed(w) && op in w.pcs && w.pcs[op] == Ready(req) && owner in w.c.reservations
    ensures Claimed(OnJoin(w, op, req, owner))
  {
    var v := OnJoin(w, op, req, owner);
    CountsSame(w.c, v.c);
    forall o ensures Held(v, o) == Held(w, o) {
      assert StageOk(w, o);
      if o in w.pcs && w.pcs[o].Awaiting? { assert JoinerOk(w, w.pcs[o].waiter); }
    }
    ClaimsStill(w, v);
  }

  lemma ReserveKeepsClaimed(w: World, op: OpId, req: Request)
    requires Claimed(w) && op in w.pcs && w.pcs[op] == Ready(req) && req.key !in w.c.residents
    ensures Claimed(OnReserve(w, op, req))
  {
    var v := OnReserve(w, op, req);
    forall k ensures CountStays(w.c, v.c, k) { assert KeyClaims(w.c, k); }
    ClaimsMove(w, v, op);
  }

  lemma LoadKeepsClaimed(w: World, cfg: Config, op: OpId, l: LoadEvent)
    requires Owned(w) && Joined(w) && InFlightIdle(w) && Claimed(w) && LoadEnabled(w, op, l) && !PopsBusy(w, Load(op, l))
    ensures Claimed(LoadStep(w, cfg, op, l))
  {
    match l
    case Raised(childLeft) => RaisedKeepsClaimed(w, op, w.pcs[op].req, childLeft);
    case Commit => RecheckKeepsClaimed(w, cfg, op, w.pcs[op].key, w.pcs[op].size, w.pcs[op].deferred);
    case UndoFinalize => RemoveKeepsClaimed(w, LoadStep(w, cfg, op, l), op, w.pcs[op].key);
    case DisposeJoiners => DisposeKeepsClaimed(w, op, w.pcs[op].verdict);
    case WakeJoiners => WakeKeepsClaimed(w, op, w.pcs[op].key, w.pcs[op].claim, w.pcs[op].joiners);
    case _ => CountsSame(w.c, LoadStep(w, cfg, op, l).c); ClaimsMove(w, LoadStep(w, cfg, op, l), op);
  }

  lemma RaisedKeepsClaimed(w: World, op: OpId, req: Request, childLeft: bool)
    requires Owned(w) && InFlightIdle(w) && Claimed(w) && op in w.pcs && w.pcs[op] == LoadRunning(req)
    ensures Claimed(OnRaised(w, op, req.key, childLeft))
  {
    assert OwnsReservation(w.c.reservations, w.pcs, op) && FlightIdle(w.c, op) && KeyClaims(w.c, req.key);
    var v := OnRaised(w, op, req.key, childLeft);
    if v.c.residents == w.c.residents { CountsSame(w.c, v.c); } else { CountsWithout(w.c, v.c, req.key); }
    ClaimsMove(w, v, op);
  }

  lemma RecheckKeepsClaimed(w: World, cfg: Config, op: OpId, k: ModelKey, size: nat, deferred: bool)
    requires Owned(w) && Joined(w) && Claimed(w) && op in w.pcs && w.pcs[op] == Loaded(k, size, deferred)
    ensures Claimed(OnRecheck(w, cfg, op, k, size, deferred))
  {
    ReservationNeverLost(w, op);
    assert OwnsReservation(w.c.reservations, w.pcs, op);
    var objection := Objection(w.c, cfg, op, k, size);
    if objection == Unset {
      CommitKeepsClaimed(w, op, k, size, deferred);
    } else {
      UndoKeepsClaimed(w, op, k, size, deferred, objection);
    }
  }

  lemma UndoKeepsClaimed(w: World, op: OpId, k: ModelKey, size: nat, deferred: bool, verdict: Disposition)
    requires Claimed(w) && op in w.pcs && w.pcs[op] == Loaded(k, size, deferred)
    requires op in w.c.reservations && w.c.reservations[op].key == k
    ensures Claimed(OnUndo(w, op, k, verdict))
  {
    var v := OnUndo(w, op, k, verdict);
    CountsSame(w.c, v.c);
    ClaimsMove(w, v, op);
  }

  /** An entry removed while nobody has a request on it has no claim left on it. */
  lemma RemoveKeepsClaimed(w: World, v: World, op: OpId, k: ModelKey)
    requires Claimed(w) && Moves(w, v, op) && Held(v, op) == NoGrip && Held(w, op) == NoGrip
    requires v.c == Finalize(w.c, k) && v.holder == w.holder && !Busy(w.c, k)
    ensures ClaimsOf(w.c, k) == {} && Claimed(v)
  {
    assert KeyClaims(w.c, k);
    CountsWithout(w.c, v.c, k);
    ClaimsMove(w, v, op);
  }

  lemma DisposeKeepsClaimed(w: World, op: OpId, verdict: Disposition)
    requires Joined(w) && Claimed(w) && op in w.pcs && w.pcs[op] == Disposing(verdict)
    ensures Claimed(OnDispose(w, op, verdict))
  {
    var v := OnDispose(w, op, verdict);
    assert StageOk(w, op);
    CountsSame(w.c, v.c);
    forall o ensures Held(v, o) == Held(w, o) {}
    ClaimsStill(w, v);
  }

  lemma WakeKeepsClaimed(w: World, op: OpId, k: ModelKey, claim: nat, ws: seq<nat>)
    requires Joined(w) && Claimed(w) && op in w.pcs && w.pcs[op] == Committed(k, claim, ws)
    ensures Claimed(OnWake(w, op, k, claim, ws))
  {
    var v := OnWake(w, op, k, claim, ws);
    assert StageOk(w, op);
    CountsSame(w.c, v.c);
    assert v.c.waiters == w.c.waiters;
    ClaimsMove(w, v, op);
  }

  lemma EvictKeepsClaimed(w: World, op: OpId, e: EvictEvent)
    requires Claimed(w) && EvictEnabled(w, op, e) && !PopsBusy(w, Evict(op, e))
    ensures Claimed(EvictStep(w, op, e))
  {
    match e
    case Poll(expired) => PollKeepsClaimed(w, op, w.pcs[op].goal, w.pcs[op].key, w.pcs[op].rest, expired);
    case Remove => RemoveKeepsClaimed(w, EvictStep(w, op, e), op, w.pcs[op].key);
    case _ => CountsSame(w.c, EvictStep(w, op, e).c); ClaimsMove(w, EvictStep(w, op, e), op);
  }

  /** Only an entry nobody claims is committed to unload. */
  lemma PollKeepsClaimed(w: World, op: OpId, goal: Option<Request>, k: ModelKey, rest: seq<ModelKey>, expired: bool)
    requires Claimed(w) && op in w.pcs && w.pcs[op] == DrainWait(goal, k, rest)
    ensures Claimed(OnDrainPoll(w, op, goal, k, rest, expired))
    ensures OnDrainPoll(w, op, goal, k, rest, expired).pcs[op].Unloading? ==> ClaimsOf(w.c, k) == {}
  {
    var v := OnDrainPoll(w, op, goal, k, rest, expired);
    assert KeyClaims(w.c, k);
    CountsSame(w.c, v.c);
    ClaimsMove(w, v, op);
  }

  lemma BeginKeepsClaimed(w: World, op: OpId)
    requires Claimed(w) && op !in w.pcs
    ensures Claimed(OnJobBegin(w, op))
  {
    CountsSame(w.c, BeginJob(w.c));
    ClaimsMove(w, OnJobBegin(w, op), op);
  }

  lemma FinishKeepsClaimed(w: World, op: OpId, job: JobId, drained: bool)
    requires Claimed(w) && op in w.pcs && w.pcs[op] == Evictions(None, [])
    ensures Claimed(OnJobFinish(w, op, job, drained))
  {
    var d := FinishJob(w.c, job, drained);
    assert d.residents == w.c.residents || d.residents == SwapPhase(w.c.residents, Draining, Resident);
    CountsSame(w.c, d);
    assert OnJobFinish(w, op, job, drained).c == d;
    ClaimsMove(w, OnJobFinish(w, op, job, drained), op);
  }

  lemma JobKeepsClaimed(w: World, op: OpId, j: JobEvent)
    requires Claimed(w) && JobEnabled(w, op, j)
    ensures Claimed(JobStep(w, op, j))
  {
    match j
    case Begin => BeginKeepsClaimed(w, op);
    case Collect(pending) => CountsSame(w.c, w.c); ClaimsMove(w, JobStep(w, op, j), op);
    case Finish(job, drained) => FinishKeepsClaimed(w, op, job, drained);
  }

  lemma OutsideKeepsClaimed(w: World, x: OutsideEvent)
    requires Claimed(w) && Enabled(w, Outside(x)) && !PopsBusy(w, Outside(x))
    ensures Claimed(OutsideStep(w, x))
  {
    var v := OutsideStep(w, x);
    if x.Forgotten? && x.key in w.c.residents {
      assert KeyClaims(w.c, x.key);
      CountsWithout(w.c, v.c, x.key);
    } else {
      CountsSame(w.c, v.c);
    }
    forall o ensures Held(v, o) == Held(w, o) {}
    ClaimsStill(w, v);
  }

  lemma ClaimedKept(w: World, cfg: Config, e: Event)
    requires Owned(w) && Joined(w) && InFlightIdle(w) && Claimed(w) && Enabled(w, e) && !PopsBusy(w, e)
    ensures Claimed(Step(w, cfg, e))
  {
    match e
    case Admit(op, a) => AdmitKeepsClaimed(w, cfg, op, a);
    case Load(op, l) => LoadKeepsClaimed(w, cfg, op, l);
    case Evict(op, v) => EvictKeepsClaimed(w, op, v);
    case Job(op, j) => JobKeepsClaimed(w, op, j);
    case Outside(x) => OutsideKeepsClaimed(w, x);
  }

  /** Removing an entry in use leaves claims on a key that is not resident. */
  lemma BusyPopLosesClaims(w: World, v: World, k: ModelKey)
    requires Claimed(w) && Busy(w.c, k) && v.c == Finalize(w.c, k)
    ensures !Claimed(v)
  {
    assert KeyClaims(w.c, k);
    assert ClaimsOf(v.c, k) == ClaimsOf(w.c, k);
    assert !KeyClaims(v.c, k);
  }

  /** With nothing assumed of the surroundings, a step of anybody conserves claims if and only if it does not
      remove, by key, an entry that has a request on it. */
  lemma ClaimedExactly(w: World, cfg: Config, e: Event)
    requires Owned(w) && Joined(w) && InFlightIdle(w) && Claimed(w) && Enabled(w, e)
    ensures Claimed(Step(w, cfg, e)) <==> !PopsBusy(w, e)
  {
    if PopsBusy(w, e) {
      var k := if e.Outside? then e.x.key else w.pcs[e.op].key;
      BusyPopLosesClaims(w, Step(w, cfg, e), k);
    } else {
      ClaimedKept(w, cfg, e);
    }
  }

  /** In clean surroundings no entry in use is ever removed. */
  lemma CleanPopsIdle(w: World, cfg: Config, e: Event)
    requires Phased(w) && Claimed(w) && Enabled(w, e) && Clean(w, cfg, e)
    ensures !PopsBusy(w, e)
  {
    match e
    case Load(op, l) =>
      assert FinalizerOk(w, op);
      if l.UndoFinalize? { assert StageFits(w.c, w.pcs[op], w.pcs[op].key) && UnusableIdle(w.c, w.pcs[op].key); }
    case Evict(op, v) =>
      assert FinalizerOk(w, op);
      if v.Remove? { assert StageFits(w.c, w.pcs[op], w.pcs[op].key) && UnusableIdle(w.c, w.pcs[op].key); }
    case Outside(x) => if x.Forgotten? { assert KeyClaims(w.c, x.key); }
    case _ =>
  }
}
