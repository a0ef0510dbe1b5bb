/** The one-job launcher: validation, idempotent re-launch, the lease, the worker and its journal writes. */
module Jobs {
  import opened Common
  import opened Slot

  datatype JobKindName = Finetune | Hpo | Batch | Shadow

  const IDEMPOTENCY_WINDOW := 900
  const TRAINABLE: set<string> := {"llm", "vision", "embeddings", "asr"}
  const CPU_TRAINABLE: set<string> := {"tabular"}
  const BATCHABLE: set<string> := {"llm", "text-generation", "vision", "image-classification", "tabular"}
  const GPU_BATCHED: set<string> := {"llm", "vision", "asr"}

  function Required(kind: JobKindName): seq<string> {
    match kind
    case Finetune => ["dataset_name", "dataset_version", "output_name"]
    case Hpo => ["dataset_name", "dataset_version", "output_name"]
    case Batch => ["dataset_name", "dataset_version", "model"]
    case Shadow => ["name", "challenger", "champion_version", "modality", "shadow_id"]
  }

  /** Kinds that take the device, when their modality does. */
  predicate TakesGpu(kind: JobKindName) { !kind.Batch? }

  function Modalities(kind: JobKindName): Option<set<string>> {
    match kind
    case Finetune => Some(TRAINABLE + CPU_TRAINABLE)
    case Hpo => Some(TRAINABLE)
    case Batch => Some(BATCHABLE)
    case Shadow => None
  }

  predicate NeedsGpu(kind: JobKindName, modality: string) { TakesGpu(kind) && modality !in CPU_TRAINABLE }

  function Canonical(modality: string): string {
    if modality == "text-generation" then "llm" else if modality == "image-classification" then "vision" else modality
  }

  predicate IsGpuBatch(modality: string) { Canonical(modality) in GPU_BATCHED }

  type Request = map<string, string>

  predicate Given(r: Request, f: string) { f in r && r[f] != "" }

  function LowerChar(c: char): char { if 'A' <= c <= 'Z' then c - 'A' + 'a' else c }

  function Lower(s: string): string { seq(|s|, i requires 0 <= i < |s| => LowerChar(s[i])) }

  function ModalityOf(kind: JobKindName, r: Request): string {
    if Modalities(kind).None? then (if "modality" in r then r["modality"] else "")
    else if Given(r, "modality") then Lower(r["modality"]) else "llm"
  }

  predicate Acceptable(kind: JobKindName, r: Request) {
    && (forall f :: f in Required(kind) ==> Given(r, f))
    && (Modalities(kind).Some? ==> ModalityOf(kind, r) in Modalities(kind).value)
  }

  datatype JobState = Queued | Running | Ended

  datatype Record = Record(kind: JobKindName, modality: string, state: JobState, submittedAt: nat)

  datatype Desk = Desk(
    active: Option<string>,
    lease: bool,
    gpuBatch: bool,
    keys: map<string, string>,
    journal: map<string, Record>)

  /** A record that still answers for its key: a live job, or one submitted recently. */
  predicate Within(d: Desk, id: string, now: int) {
    id in d.journal && (d.journal[id].state in {Queued, Running} || now - d.journal[id].submittedAt <= IDEMPOTENCY_WINDOW)
  }

  datatype Verdict = BadRequest | Existing(id: string) | AgentBusy | GpuHeld | NoVram | StoreFailed | Started(id: string)

  /** One submission with what it meets: the clock, the memory reading and whether the store writes. */
  datatype Submission = Submission(kind: JobKindName, request: Request, freshId: string, now: nat, est: nat, reading: Reading,
                                   storeWorks: bool)
  {
    function Id(): string { if kind.Shadow? && "shadow_id" in request then request["shadow_id"] else freshId }
    function Key(): Option<string> {
      if "idempotency_key" in request then Some(request["idempotency_key"]) else None
    }
    function Modality(): string { ModalityOf(kind, request) }
    predicate OnGpu() { NeedsGpu(kind, Modality()) }
  }

  function Decide(d: Desk, s: State, u: Submission): Verdict {
    if !Acceptable(u.kind, u.request) then BadRequest
    else if u.Key().Some? && u.Key().value in d.keys && Within(d, d.keys[u.Key().value], u.now) then Existing(d.keys[u.Key().value])
    else if d.active.Some? then AgentBusy
    else if u.OnGpu() && Reply(s, Training, u.est, u.reading).Held? then GpuHeld
    else if u.OnGpu() && Reply(s, Training, u.est, u.reading).VramExceeded? then NoVram
    else if !u.storeWorks then StoreFailed
    else Started(u.Id())
  }

  function Launched(d: Desk, u: Submission): Desk {
    var journal := d.journal[u.Id() := Record(u.kind, u.Modality(), Queued, u.now)];
    var e := d.(journal := journal);
    Desk(Some(u.Id()), d.lease || u.OnGpu(), d.gpuBatch || (u.kind.Batch? && IsGpuBatch(u.Modality())),
         if u.Key().Some? then (map k | k in d.keys && Within(e, d.keys[k], u.now) :: d.keys[k])[u.Key().value := u.Id()] else d.keys,
         journal)
  }

  function Submitted(d: Desk, s: State, u: Submission): Desk {
    match Decide(d, s, u)
    case Started(_) => Launched(d, u)
    case StoreFailed => d.(lease := false)
    case _ => d
  }

  function SlotAfter(d: Desk, s: State, u: Submission): State {
    if Decide(d, s, u).Started? && u.OnGpu() then Acquire(s, Training, JobKind, u.est, u.reading)
    else if Decide(d, s, u).StoreFailed? && (d.lease || u.OnGpu()) then Release(s, Training)
    else s
  }

  function Freed(d: Desk): Desk { d.(active := None, lease := false, gpuBatch := false) }
  function SlotFreed(d: Desk, s: State): State { if d.lease then Release(s, Training) else s }

  /** The lease is taken before the launch, which counts on it. */
  lemma LeaseFirst(d: Desk, u: Submission)
    ensures u.OnGpu() ==> Launched(d.(lease := true), u) == Launched(d, u)
  {
  }

  // What a submission has to come to, said of what it finds alone

  predicate Filled(r: Request, f: string) { f in r && |r[f]| > 0 }

  /** Lower case, letter by letter. */
  lemma LowersLetters(i: nat)
    requires i < 26
    ensures LowerChar("ABCDEFGHIJKLMNOPQRSTUVWXYZ"[i]) == "abcdefghijklmnopqrstuvwxyz"[i]
  {
    assert i in {0, 1, 2, 3, 4, 5, 6, 7, 8, 9, 10, 11, 12, 13, 14, 15, 16, 17, 18, 19, 20, 21, 22, 23, 24, 25};
  }

  /** Nothing a kind needs is missing or empty, and its modality is one of the kind's. */
  predicate Complete(kind: JobKindName, r: Request) {
    var modality := if Filled(r, "modality") then Lower(r["modality"]) else "llm";
    match kind
    case Finetune =>
      && Filled(r, "dataset_name") && Filled(r, "dataset_version") && Filled(r, "output_name")
      && modality in {"llm", "vision", "embeddings", "asr", "tabular"}
    case Hpo =>
      && Filled(r, "dataset_name") && Filled(r, "dataset_version") && Filled(r, "output_name")
      && modality in {"llm", "vision", "embeddings", "asr"}
    case Batch =>
      && Filled(r, "dataset_name") && Filled(r, "dataset_version") && Filled(r, "model")
      && modality in {"llm", "text-generation", "vision", "image-classification", "tabular"}
    case Shadow =>
      && Filled(r, "name") && Filled(r, "challenger") && Filled(r, "champion_version") && Filled(r, "modality") && Filled(r, "shadow_id")
  }

  lemma AcceptableExactly(kind: JobKindName, r: Request)
    ensures Acceptable(kind, r) <==> Complete(kind, r)
    ensures ModalityOf(kind, r) ==
      if kind == Shadow then (if "modality" in r then r["modality"] else "")
      else if Filled(r, "modality") then Lower(r["modality"]) else "llm"
  {
    assert forall f :: Given(r, f) <==> Filled(r, f);
    hide Given, Filled, Lower;
    FieldsExactly(kind, r);
  }

  lemma FieldsExactly(kind: JobKindName, r: Request)
    ensures (forall f :: f in Required(kind) ==> Given(r, f)) <==>
      match kind
      case Batch => Given(r, "dataset_name") && Given(r, "dataset_version") && Given(r, "model")
      case Shadow =>
        Given(r, "name") && Given(r, "challenger") && Given(r, "champion_version") && Given(r, "modality") && Given(r, "shadow_id")
      case _ => Given(r, "dataset_name") && Given(r, "dataset_version") && Given(r, "output_name")
  {
    hide Given;
    assert forall i :: 0 <= i < |Required(kind)| ==> Required(kind)[i] in Required(kind);
    match kind
    case Batch => assert Required(kind) == ["dataset_name", "dataset_version", "model"];
    case Shadow => assert Required(kind) == ["name", "challenger", "champion_version", "modality", "shadow_id"];
    case _ => assert Required(kind) == ["dataset_name", "dataset_version", "output_name"];
  }

  /** A training kind on anything but tables trains on the device; a batch only drives an engine that is on it. */
  predicate WantsDevice(kind: JobKindName, modality: string) { kind in {Finetune, Hpo, Shadow} && modality != "tabular" }

  predicate DrivesDevice(kind: JobKindName, modality: string) {
    kind == Batch && modality in {"llm", "text-generation", "vision", "image-classification", "asr"}
  }

  lemma DeviceUseExactly(kind: JobKindName, modality: string)
    ensures NeedsGpu(kind, modality) <==> WantsDevice(kind, modality)
    ensures kind.Batch? && IsGpuBatch(modality) <==> DrivesDevice(kind, modality)
  {
  }

  /** The key was used for a job that is not over, or was submitted no longer than a quarter of an hour ago. */
  predicate AnswersFor(d: Desk, key: string, now: nat, id: string) {
    && key in d.keys && d.keys[key] == id && id in d.journal
    && (d.journal[id].state in {Queued, Running} || now <= d.journal[id].submittedAt + 900)
  }

  /** The slot is somebody else's, or kept for somebody else. */
  predicate SlotTaken(s: State) {
    if s.holder.Some? then s.holder.value.tenant != Training else s.reserved.Some? && s.reserved.value != Training
  }

  predicate SlotTooSmall(s: State, est: nat, r: Reading) {
    s.holder.None? && !(if r.free.Some? then est <= r.free.value else est * 100 <= r.budget * 95)
  }

  /** The one right reply, each by exactly when it is given. */
  ghost predicate RightReply(d: Desk, s: State, u: Submission, reply: Verdict) {
    var known := "idempotency_key" in u.request && exists id :: AnswersFor(d, u.request["idempotency_key"], u.now, id);
    var asks := Complete(u.kind, u.request) && !known && d.active.None?;
    var device := WantsDevice(u.kind, u.Modality());
    && (reply.BadRequest? <==> !Complete(u.kind, u.request))
    && (reply.Existing? <==> Complete(u.kind, u.request) && known)
    && (reply.Existing? ==> known && AnswersFor(d, u.request["idempotency_key"], u.now, reply.id))
    && (reply.AgentBusy? <==> Complete(u.kind, u.request) && !known && d.active.Some?)
    && (reply.GpuHeld? <==> asks && device && SlotTaken(s))
    && (reply.NoVram? <==> asks && device && !SlotTaken(s) && SlotTooSmall(s, u.est, u.reading))
    && (reply.StoreFailed? <==> asks && !(device && (SlotTaken(s) || SlotTooSmall(s, u.est, u.reading))) && !u.storeWorks)
    && (reply.Started? <==> asks && !(device && (SlotTaken(s) || SlotTooSmall(s, u.est, u.reading))) && u.storeWorks)
    && (reply.Started? ==> reply.id == u.Id())
    && (reply.Started? ==> if u.kind == Shadow then "shadow_id" in u.request && reply.id == u.request["shadow_id"] else reply.id == u.freshId)
  }

  /** What a reply does: a job started has the job slot, its record, its key, and the device or the batch flag exactly
      if it uses them; a store that failed gives the device back; nothing else changes anything. */
  ghost predicate RightLaunch(d: Desk, e: Desk, s: State, t: State, u: Submission, reply: Verdict) {
    var device := WantsDevice(u.kind, u.Modality());
    && (reply.Started? ==>
          && e.active == Some(u.Id())
          && e.journal == d.journal[u.Id() := Record(u.kind, u.Modality(), Queued, u.now)]
          && (e.lease <==> d.lease || device)
          && (e.gpuBatch <==> d.gpuBatch || DrivesDevice(u.kind, u.Modality()))
          && (u.Key().None? ==> e.keys == d.keys)
          && (u.Key().Some? ==> u.Key().value in e.keys && e.keys[u.Key().value] == u.Id())
          && (forall k, id :: u.Key().Some? && k != u.Key().value ==>
                (k in e.keys && e.keys[k] == id <==> AnswersFor(e.(keys := d.keys), k, u.now, id)))
          && t == s.(holder := if device then Some(if s.holder.Some? then s.holder.value else Holder(Training, JobKind)) else s.holder))
    && (reply.StoreFailed? ==>
          && e == d.(lease := false) && t.reserved == s.reserved
          && t.holder == (if (d.lease || device) && (s.holder.None? || s.holder.value.tenant == Training) then None else s.holder))
    && (!reply.Started? && !reply.StoreFailed? ==> e == d && t == s)
  }

  lemma ShadowHasId(kind: JobKindName, r: Request)
    ensures kind == Shadow && Complete(kind, r) ==> "shadow_id" in r
  {
  }

  lemma ReplyIsRight(d: Desk, s: State, u: Submission)
    ensures RightReply(d, s, u, Decide(d, s, u))
  {
    AcceptableExactly(u.kind, u.request);
    DeviceUseExactly(u.kind, u.Modality());
    hide Acceptable, Complete, NeedsGpu, WantsDevice;
    if "idempotency_key" in u.request && u.request["idempotency_key"] in d.keys {
      var key := u.request["idempotency_key"];
      assert Within(d, d.keys[key], u.now) <==> AnswersFor(d, key, u.now, d.keys[key]);
    }
    assert u.kind == Shadow && Complete(u.kind, u.request) ==> "shadow_id" in u.request by { ShadowHasId(u.kind, u.request); }
  }

  lemma LaunchIsRight(d: Desk, s: State, u: Submission)
    ensures RightLaunch(d, Submitted(d, s, u), s, SlotAfter(d, s, u), u, Decide(d, s, u))
  {
    DeviceUseExactly(u.kind, u.Modality());
    hide Acceptable, NeedsGpu, WantsDevice, IsGpuBatch, DrivesDevice;
    if Decide(d, s, u).Started? { KeysAreRight(d, u); }
  }

  lemma KeysAreRight(d: Desk, u: Submission)
    ensures var e := Launched(d, u);
      forall k, id :: u.Key().Some? && k != u.Key().value ==>
        (k in e.keys && e.keys[k] == id <==> AnswersFor(e.(keys := d.keys), k, u.now, id))
  {
    hide NeedsGpu, IsGpuBatch;
    var e := Launched(d, u);
    forall k, id | u.Key().Some? && k != u.Key().value
      ensures k in e.keys && e.keys[k] == id <==> AnswersFor(e.(keys := d.keys), k, u.now, id)
    {
      assert k in e.keys <==> k in d.keys && Within(d.(journal := e.journal), d.keys[k], u.now);
    }
  }

  /** The launcher object. Every method is one critical section under its lock. */
  class JobManager {
    const admission: Admission
    var active: Option<string>
    var leaseHeld: bool
    var gpuBatchActive: bool
    var runKeys: map<string, string>
    var journal: map<string, Record>

    function View(): Desk
      reads this
    {
      Desk(active, leaseHeld, gpuBatchActive, runKeys, journal)
    }

    constructor (slot: Admission)
      ensures admission == slot && View() == Desk(None, false, false, map[], map[])
    {
      admission, active, leaseHeld, gpuBatchActive, runKeys, journal := slot, None, false, false, map[], map[];
    }

    method Validate(kind: JobKindName, request: Request) returns (good: bool)
      ensures good == Acceptable(kind, request)
    {
      var fields := Required(kind);
      for i := 0 to |fields|
        invariant forall f :: f in fields[..i] ==> Given(request, f)
      {
        if !Given(request, fields[i]) { return false; }
      }
      assert fields[..|fields|] == fields;
      var allowed := Modalities(kind);
      return allowed.None? || ModalityOf(kind, request) in allowed.value;
    }

    method Submit(u: Submission) returns (reply: Verdict)
      requires u.reading.budget == admission.budget
      modifies this, admission`holder
      ensures reply == Decide(old(View()), old(admission.View()), u)
      ensures View() == Submitted(old(View()), old(admission.View()), u)
      ensures admission.View() == SlotAfter(old(View()), old(admission.View()), u)
      ensures RightReply(old(View()), old(admission.View()), u, reply)
      ensures RightLaunch(old(View()), View(), old(admission.View()), admission.View(), u, reply)
    {
      ghost var d, s := View(), admission.View();
      reply := SubmitLocked(u);
      hide *;
      ReplyIsRight(d, s, u);
      LaunchIsRight(d, s, u);
    }

    method SubmitLocked(u: Submission) returns (reply: Verdict)
      requires u.reading.budget == admission.budget
      modifies this, admission`holder
      ensures reply == Decide(old(View()), old(admission.View()), u)
      ensures View() == Submitted(old(View()), old(admission.View()), u)
      ensures admission.View() == SlotAfter(old(View()), old(admission.View()), u)
    {
      LeaseFirst(View(), u);
      hide Acceptable, NeedsGpu, Within, Launched;
      var good := Validate(u.kind, u.request);
      if !good { return BadRequest; }
      var key := u.Key();
      if key.Some? && key.value in runKeys && Within(View(), runKeys[key.value], u.now) { return Existing(runKeys[key.value]); }
      if active.Some? { return AgentBusy; }
      if u.OnGpu() {
        var answer := admission.AcquireSlot(Training, JobKind, u.est, u.reading.free);
        if answer.Held? { return GpuHeld; }
        if answer.VramExceeded? { return NoVram; }
        leaseHeld := true;
      }
      if !u.storeWorks {
        if leaseHeld {
          admission.ReleaseSlot(Training);
          leaseHeld := false;
        }
        return StoreFailed;
      }
      Launch(u);
      return Started(u.Id());
    }

    /** The durable record is in; prune the key table, take the job slot. The lease is already taken. */
    method Launch(u: Submission)
      requires u.OnGpu() ==> leaseHeld
      modifies this
      ensures View() == Launched(old(View()), u)
    {
      journal := journal[u.Id() := Record(u.kind, u.Modality(), Queued, u.now)];
      var key := u.Key();
      if key.Some? {
        runKeys := (map k | k in runKeys && Within(View(), runKeys[k], u.now) :: runKeys[k])[key.value := u.Id()];
      }
      active := Some(u.Id());
      if u.kind.Batch? && IsGpuBatch(u.Modality()) { gpuBatchActive := true; }
    }

    method ReleaseJob()
      modifies this`active, this`leaseHeld, this`gpuBatchActive, admission`holder
      ensures View() == Freed(old(View())) && admission.View() == SlotFreed(old(View()), old(admission.View()))
    {
      if leaseHeld {
        admission.ReleaseSlot(Training);
        leaseHeld := false;
      }
      active := None;
      gpuBatchActive := false;
    }

    /** The worker: mark running, run, write the outcome, and only then open the slot. `ran` tells whether
        the runner was reached. */
    method Worker(id: string, runningWritten: bool, endWritten: bool) returns (ran: bool)
      requires id in journal
      modifies this, admission`holder
      ensures ran == runningWritten
      ensures active.None? && !leaseHeld && !gpuBatchActive && runKeys == old(runKeys)
      ensures admission.View() == SlotFreed(old(View()), old(admission.View()))
      ensures admission.holder ==
        if old(leaseHeld) && old(admission.holder).Some? && old(admission.holder).value.tenant == Training then None else old(admission.holder)
      ensures journal == old(journal)[id := old(journal)[id].(state :=
        if !runningWritten then old(journal)[id].state else if endWritten then Ended else Running)]
    {
      if !runningWritten {
        ReleaseJob();
        return false;
      }
      journal := journal[id := journal[id].(state := Running)];
      if endWritten { journal := journal[id := journal[id].(state := Ended)]; }
      ReleaseJob();
      return true;
    }
  }

  // Submissions, the worker, engines and swaps interleaving

  datatype Stage = NoWorker | Launching | Starting | AtWork | Finishing | Attempted

  datatype World = World(desk: Desk, slot: State, stage: Stage)

  datatype Event =
    | Submit(u: Submission)
    | ThreadStarts(works: bool)
    | RunningWrite(works: bool)
    | RunnerEnds
    | TerminalWrite(works: bool)
    | Open
    | EngineAcquires(e: string, est: nat, r: Reading)
    | EngineReleases(e: string)
    | Reserve(reserved: Option<Tenant>)

  predicate Enabled(w: World, ev: Event) {
    match ev
    case Submit(_) => true
    case ThreadStarts(_) => w.stage == Launching
    case RunningWrite(_) => w.stage == Starting
    case RunnerEnds => w.stage == AtWork
    case TerminalWrite(_) => w.stage == Finishing
    case Open => w.stage == Attempted
    case _ => true
  }

  function Mark(d: Desk, state: JobState): Desk {
    if d.active.Some? && d.active.value in d.journal then
      d.(journal := d.journal[d.active.value := d.journal[d.active.value].(state := state)])
    else d
  }

  function OnOpen(w: World): World { World(Freed(w.desk), SlotFreed(w.desk, w.slot), NoWorker) }

  function Step(w: World, ev: Event): World {
    match ev
    case Submit(u) =>
      World(Submitted(w.desk, w.slot, u), SlotAfter(w.desk, w.slot, u),
            if Decide(w.desk, w.slot, u).Started? then Launching else w.stage)
    case ThreadStarts(works) => if works then w.(stage := Starting) else OnOpen(w)
    case RunningWrite(works) => if works then w.(desk := Mark(w.desk, Running), stage := AtWork) else OnOpen(w)
    case RunnerEnds => w.(stage := Finishing)
    case TerminalWrite(works) => w.(desk := if works then Mark(w.desk, Ended) else w.desk, stage := Attempted)
    case Open => OnOpen(w)
    case EngineAcquires(e, est, r) => w.(slot := Acquire(w.slot, Engine(e), Serving, est, r))
    case EngineReleases(e) => w.(slot := Release(w.slot, Engine(e)))
    case Reserve(reserved) => w.(slot := w.slot.(reserved := reserved))
  }

  /** The launcher and the slot agree. */
  ghost predicate Agreed(w: World) {
    var d := w.desk;
    && (d.lease <==> Holds(w.slot, Training))
    && (d.active.None? <==> w.stage.NoWorker?)
    && (d.active.None? ==> !d.lease && !d.gpuBatch)
    && (d.active.Some? ==>
          && d.active.value in d.journal
          && var rec := d.journal[d.active.value];
             && (d.lease <==> NeedsGpu(rec.kind, rec.modality))
             && (d.gpuBatch <==> rec.kind.Batch? && IsGpuBatch(rec.modality))
             && (w.stage.Launching? || w.stage.Starting? ==> rec.state.Queued?)
             && (w.stage.AtWork? || w.stage.Finishing? ==> rec.state.Running?))
    && (forall k :: k in d.keys ==> d.keys[k] in d.journal)
  }

  lemma AgreedKept(w: World, ev: Event)
    requires Agreed(w) && Enabled(w, ev)
    ensures Agreed(Step(w, ev))
  {
    if ev.Submit? { SubmitKeepsAgreed(w, ev.u); }
  }

  lemma SubmitKeepsAgreed(w: World, u: Submission)
    requires Agreed(w)
    ensures Agreed(Step(w, Submit(u)))
  {
    var v := Step(w, Submit(u));
    if Decide(w.desk, w.slot, u).Started? {
      assert v.desk.journal[u.Id()] == Record(u.kind, u.Modality(), Queued, u.now);
    }
  }

  ghost predicate IsRun(w: World, events: seq<Event>)
    decreases |events|
  {
    events == [] || (Enabled(w, events[0]) && IsRun(Step(w, events[0]), events[1..]))
  }

  ghost function After(w: World, events: seq<Event>): World
    decreases |events|
  {
    if events == [] then w else After(Step(w, events[0]), events[1..])
  }

  const START := World(Desk(None, false, false, map[], map[]), State(None, None), NoWorker)

  lemma {:induction false} AlwaysAgreed(w: World, events: seq<Event>)
    requires Agreed(w) && IsRun(w, events)
    ensures Agreed(After(w, events))
    decreases |events|
  {
    if events != [] {
      AgreedKept(w, events[0]);
      AlwaysAgreed(Step(w, events[0]), events[1..]);
    }
  }

  /** Whatever the store, the thread and the runner do: between calls the lease flag matches the slot; an
      open job slot means no lease and no batch flag; only a job that needs the device has the lease. While a job
      is live no submission changes anything, and one that needs no device never touches the slot. */
  lemma LeaseMatchesSlot(events: seq<Event>)
    requires IsRun(START, events)
    ensures var w := After(START, events);
      && (w.desk.lease <==> Holds(w.slot, Training))
      && (w.desk.active.None? ==> !w.desk.lease && !w.desk.gpuBatch && !Holds(w.slot, Training))
      && (w.desk.lease ==> w.desk.active.Some? && w.desk.active.value in w.desk.journal
                           && NeedsGpu(w.desk.journal[w.desk.active.value].kind, w.desk.journal[w.desk.active.value].modality))
      && (w.desk.active.Some? ==> forall u :: Step(w, Submit(u)) == w)
      && (forall u: Submission :: u.kind.Batch? || u.Modality() == "tabular" ==> Step(w, Submit(u)).slot == w.slot)
  {
    AlwaysAgreed(START, events);
    var w := After(START, events);
    if w.desk.active.Some? {
      forall u ensures Step(w, Submit(u)) == w { LiveJobStartsNothing(w, u); }
    }
    forall u: Submission | u.kind.Batch? || u.Modality() == "tabular" ensures Step(w, Submit(u)).slot == w.slot {
      OffGpuJobsLeaveSlotAlone(w, u);
    }
  }

  predicate RunnerReached(w: World) { w.stage.AtWork? || w.stage.Finishing? }

  /** Once its runner was reached a job keeps the job slot, its records and its hold on the device through any
      events of anybody, until its terminal write is attempted. */
  lemma {:induction false} HeldUntilTerminalWrite(w: World, events: seq<Event>)
    requires Agreed(w) && IsRun(w, events) && RunnerReached(w)
    requires forall i :: 0 <= i < |events| ==> !events[i].TerminalWrite?
    ensures var v := After(w, events);
      RunnerReached(v) && v.desk == w.desk && (Holds(v.slot, Training) <==> Holds(w.slot, Training))
    decreases |events|
  {
    if events != [] {
      HeldOneStep(w, events[0]);
      AgreedKept(w, events[0]);
      hide Step, Agreed;
      HeldUntilTerminalWrite(Step(w, events[0]), events[1..]);
    }
  }

  lemma HeldOneStep(w: World, ev: Event)
    requires Agreed(w) && Enabled(w, ev) && RunnerReached(w) && !ev.TerminalWrite?
    ensures var v := Step(w, ev);
      RunnerReached(v) && v.desk == w.desk && (Holds(v.slot, Training) <==> Holds(w.slot, Training))
  {
    AgreedKept(w, ev);
    if ev.Submit? { LiveJobStartsNothing(w, ev.u); }
  }

  /** A CPU fine-tune and a batch neither take nor free the slot, at their start or at their end. */
  lemma OffGpuJobsLeaveSlotAlone(w: World, u: Submission)
    requires Agreed(w) && (u.kind.Batch? || u.Modality() == "tabular")
    ensures Step(w, Submit(u)).slot == w.slot
    ensures Decide(w.desk, w.slot, u).Started? ==> OnOpen(Step(w, Submit(u))).slot == w.slot
  {
  }

  /** This submission repeats the key the live job was launched under. */
  predicate RepeatsLiveKey(w: World, u: Submission) {
    && w.desk.active.Some? && !w.stage.Attempted?
    && u.Key().Some? && u.Key().value in w.desk.keys && w.desk.keys[u.Key().value] == w.desk.active.value
  }

  /** While a job is live nothing else starts, and repeating its own key answers with the job itself. */
  lemma LiveJobStartsNothing(w: World, u: Submission)
    requires Agreed(w) && w.desk.active.Some?
    ensures Step(w, Submit(u)) == w
    ensures Acceptable(u.kind, u.request) && RepeatsLiveKey(w, u) ==> Decide(w.desk, w.slot, u) == Existing(w.desk.active.value)
  {
  }

  /** A key answers for its job at every later time exactly when the job's last durable state is not a
      terminal one. So a job whose thread never started, or whose terminal write failed, keeps its key for
      good although nothing runs. */
  lemma KeyHeldForGoodExactly(d: Desk, s: State, kind: JobKindName, request: Request, id: string)
    requires Acceptable(kind, request) && "idempotency_key" in request && request["idempotency_key"] in d.keys
    requires d.keys[request["idempotency_key"]] == id && id in d.journal
    ensures (forall freshId, now: nat, est, reading, works ::
               Decide(d, s, Submission(kind, request, freshId, now, est, reading, works)) == Existing(id))
            <==> !d.journal[id].state.Ended?
  {
    if d.journal[id].state.Ended? {
      var late := d.journal[id].submittedAt + IDEMPOTENCY_WINDOW + 1;
      var u := Submission(kind, request, "", late, 0, Reading(None, 0), true);
      assert !Within(d, id, u.now);
      assert !Decide(d, s, u).Existing?;
    }
  }

  /** How a job gets there: its thread fails to start, and the key keeps answering for a dead record. */
  lemma DeadJobKeepsItsKey(w: World, u: Submission)
    requires Agreed(w) && Decide(w.desk, w.slot, u).Started? && u.Key().Some?
    ensures var v := Step(Step(w, Submit(u)), ThreadStarts(false));
      && v.desk.active.None? && v.stage.NoWorker? && !Holds(v.slot, Training)
      && Decide(v.desk, v.slot, u) == Existing(u.Id())
  {
    SubmitKeepsAgreed(w, u);
    AgreedKept(Step(w, Submit(u)), ThreadStarts(false));
  }
}
