/** The reconcile protocol as a state machine: any number of reconciles run at once
    against one stored LabSession, every API call is one step, and a call may fail,
    take effect without its answer arriving, or be cut off by a crash.

    The version history is kept whole. A version's index is its resourceVersion. */
module Protocol {
  import opened Wrappers
  import opened Workload
  import opened Session

  // The objects a session owns, in the order reconcileCreating ensures them.
  type Slot = n: int | 0 <= n < 6
  const VM_DATA: Slot := 0
  const VSCODE_DATA: Slot := 1
  const SSH_SECRET: Slot := 2
  const POD: Slot := 3
  const SERVICE: Slot := 4
  const INGRESS: Slot := 5

  const CREATING_TIMEOUT := 600
  const POD_UNREADY_TIMEOUT := 120

  datatype Config = Config(events: bool, sessionId: string)

  /** The stored LabSession. `published` is the published-phase annotation and
      `storage` the requested vm-data size, standing for everything in spec and
      metadata that the controller does not write. */
  datatype Snapshot = Snapshot(status: Status, published: Phase, finalizer: bool, deleting: bool, storage: nat)

  /** A stored version and when it was written. */
  datatype Entry = Entry(snap: Snapshot, at: nat)

  /** An owned object: whether this session is its controller, and for the SSH
      Secret the key pair drawn when it was built. */
  datatype Object = Object(mine: bool, key: nat)

  /** A delivered event. `confirmed` is false when the broker's confirm was lost. */
  datatype Event = Event(phase: Phase, confirmed: bool)

  datatype Continuation = Finish | CheckTimeout

  /** What was in the store, as opposed to what was read, while a reconcile ran: the
      objects this session controlled and the pod at the moment it was checked. */
  datatype Evidence = Evidence(controlled: set<Slot>, pod: Option<Pod>)

  /** A reconcile between two API calls. `base` is the version held in memory. */
  datatype Worker =
    | Idle
    | AddFinalizer(base: nat)
    | Publish(base: nat, mem: Snapshot)
    | Record(base: nat, mem: Snapshot)
    | Create(base: nat, mem: Snapshot, slot: Slot, missing: bool, seen: set<Slot>)
    | CheckPod(base: nat, mem: Snapshot, seen: set<Slot>)
    | CheckRunning(base: nat, mem: Snapshot)
    | CheckUnready(base: nat, mem: Snapshot)
    | Write(base: nat, status: Status, next: Continuation, evidence: Evidence)
    | DeleteStatus(base: nat, mem: Snapshot)
    | DeletePublish(base: nat, mem: Snapshot)
    | DeleteFinalizer(base: nat, confirmed: bool)   // whether Terminating was just confirmed

  datatype State = State(
    config: Config,
    now: nat,
    history: seq<Entry>,
    gone: bool,
    farewell: bool,               // it was removed right after a confirmed Terminating
    workers: map<nat, Worker>,
    cached: nat,                  // the version read last
    objects: map<Slot, Object>,
    past: set<(Slot, Object)>,    // every object that was ever stored
    creates: seq<Slot>,           // the creates that took effect
    pod: Pod,                     // the Pod object's status, while there is one
    log: seq<Event>,
    missed: multiset<Phase>)      // confirmed publishes that ended without being recorded

  // Outcomes of API calls.
  datatype StoreOutcome = Applied | AnswerLost | Refused(notFound: bool)
  datatype PublishOutcome = Confirmed | Unconfirmed | NotDelivered
  datatype GetOutcome = Absent | Found(obj: Object) | GetError(error: ApiError)
  datatype CreateOutcome = Created | AlreadyExists | CreateLost(error: ApiError) | CreateError(error: ApiError)
  datatype PodOutcome = PodAbsent | PodFound(pod: Pod) | PodError

  datatype Step =
    | Tick(seconds: nat)
    | Read(worker: nat, version: nat)
    | Crash(worker: nat)
    | StoreCall(worker: nat, store: StoreOutcome)
    | PublishCall(worker: nat, publish: PublishOutcome)
    | GetCall(worker: nat, get: GetOutcome, usagePod: Option<Pod>)
    | CreateCall(worker: nat, create: CreateOutcome, key: nat, usagePod: Option<Pod>)
    | PodCall(worker: nat, look: PodOutcome, usagePod: Option<Pod>)
    | TimeoutCheck(worker: nat, usagePod: Option<Pod>)
    | UserDelete
    | UserEdit(storage: nat)
    | OutsiderPut(slot: Slot, obj: Object)
    | OutsiderDelete(slot: Slot)
    | Kubelet(pod: Pod)

  function Last(h: seq<Entry>): Entry
    requires |h| > 0
  {
    h[|h| - 1]
  }

  function WorkerAt(s: State, w: nat): Worker {
    if w in s.workers then s.workers[w] else Idle
  }

  function With(s: State, w: nat, wk: Worker): State {
    s.(workers := s.workers[w := wk])
  }

  /** A write that changes nothing keeps the resourceVersion. */
  function Store(s: State, snap: Snapshot): State
    requires |s.history| > 0
  {
    if snap == Last(s.history).snap then s else s.(history := s.history + [Entry(snap, s.now)])
  }

  function PodName(config: Config): string {
    "lab-session-" + config.sessionId
  }

  function ServiceName(config: Config): string {
    "lab-service-" + config.sessionId
  }

  function Controlled(objects: map<Slot, Object>): set<Slot> {
    set k | k in objects && objects[k].mine
  }

  function NoEvidence(): Evidence {
    Evidence({}, None)
  }

  // ---------------------------------------------------------------- the handlers

  /** Reconcile, after the session was read. */
  function Begin(s: State, base: nat, mem: Snapshot): Worker {
    if mem.deleting then DeleteStatus(base, mem)
    else if !mem.finalizer then AddFinalizer(base)
    else if s.config.events && mem.status.phase != NoPhase && mem.published != mem.status.phase then Publish(base, mem)
    else Dispatch(s, base, mem)
  }

  /** reconcilePhase. */
  function Dispatch(s: State, base: nat, mem: Snapshot): Worker {
    match mem.status.phase
    case NoPhase => Write(base, ToCreating(mem.status, s.now), Finish, NoEvidence())
    case Pending => Write(base, ToCreating(mem.status, s.now), Finish, NoEvidence())
    case Creating => Create(base, mem, VM_DATA, false, {})
    case Running => CheckRunning(base, mem)
    case Failed => Idle
    case Terminating => Idle
  }

  /** sessionPod: `pod` is what the lookup returned. */
  function SessionPod(mem: Snapshot, pod: Option<Pod>): Option<Pod> {
    if mem.status.podName == "" then None else pod
  }

  /** updateStatusFailed up to its status write. */
  function Fail(s: State, base: nat, mem: Snapshot, reason: Reason, pod: Option<Pod>): Worker {
    Write(base, ToFailed(mem.status, reason, SessionPod(mem, pod), Claims(mem.storage), s.now), Finish, NoEvidence())
  }

  predicate Expired(st: Status, now: nat) {
    st.startTime.Some? && now > st.startTime.value + CREATING_TIMEOUT
  }

  /** handleCreateError, and the unconditional failure of the SSH Secret step. */
  function OnCreateError(s: State, wk: Worker, e: ApiError, pod: Option<Pod>): Worker
    requires wk.Create?
  {
    if wk.slot == SSH_SECRET || Permanent(e) || Expired(wk.mem.status, s.now)
    then Fail(s, wk.base, wk.mem, CreateFailed(wk.slot, e), pod)
    else Idle
  }

  /** The object of this slot is there: record its name and go on. */
  function Advance(s: State, wk: Worker): Worker
    requires wk.Create?
  {
    var st := wk.mem.status;
    var st' := if wk.slot == POD then st.(podName := PodName(s.config))
               else if wk.slot == SERVICE then st.(serviceName := ServiceName(s.config))
               else st;
    var mem := wk.mem.(status := st');
    var seen := wk.seen + Controlled(s.objects);
    if wk.slot == INGRESS then CheckPod(wk.base, mem, seen)
    else Create(wk.base, mem, wk.slot + 1, false, seen)
  }

  /** Step 5 of reconcileCreating. */
  function OnCreatedPod(s: State, wk: Worker, look: PodOutcome, usagePod: Option<Pod>): Worker
    requires wk.CheckPod?
  {
    match look
    case PodAbsent => Idle
    case PodError => Idle
    case PodFound(pod) =>
      if TerminalReasonOf(pod) != Serving then Fail(s, wk.base, wk.mem, PodStopped(TerminalReasonOf(pod)), usagePod)
      else if IsReady(pod) then
        Write(wk.base, ToRunning(wk.mem.status, pod, Claims(wk.mem.storage), s.now), Finish,
              Evidence(wk.seen + Controlled(s.objects), if POD in s.objects then Some(s.pod) else None))
      else Idle
  }

  function SetPodReady(st: Status, ready: bool, now: nat): Status {
    st.(conditions := WithCondition(st.conditions, PodReady, ready, now))
  }

  /** reconcileRunning after the pod was looked up. */
  function OnRunningPod(s: State, wk: Worker, look: PodOutcome, usagePod: Option<Pod>): Worker
    requires wk.CheckRunning?
  {
    var st := wk.mem.status;
    if st.podName == "" || look.PodAbsent? then Fail(s, wk.base, wk.mem, PodGone, usagePod)
    else if look.PodError? then Idle
    else if TerminalReasonOf(look.pod) != Serving then
      Fail(s, wk.base, wk.mem, PodStopped(TerminalReasonOf(look.pod)), usagePod)
    else if IsReady(look.pod) then
      if IsTrue(st.conditions, PodReady) then Idle
      else Write(wk.base, SetPodReady(st, true, s.now), Finish, NoEvidence())
    else if IsTrue(st.conditions, PodReady) then
      Write(wk.base, SetPodReady(st, false, s.now), CheckTimeout, NoEvidence())
    else CheckUnready(wk.base, wk.mem)
  }

  /** The podUnreadyTimeout test at the end of reconcileRunning. */
  function OnUnready(s: State, wk: Worker, usagePod: Option<Pod>): Worker
    requires wk.CheckUnready?
  {
    var c := Find(wk.mem.status.conditions, PodReady);
    if c.Some? && s.now > c.value.since + POD_UNREADY_TIMEOUT
    then Fail(s, wk.base, wk.mem, PodUnready, usagePod)
    else Idle
  }

  // ---------------------------------------------------------------- the steps

  predicate CallsStore(wk: Worker) {
    wk.AddFinalizer? || wk.Record? || wk.Write? || wk.DeleteStatus? || wk.DeleteFinalizer?
  }

  /** Update and Status().Update compare the version; Patch does not. */
  predicate CanTakeEffect(s: State, wk: Worker)
    requires CallsStore(wk)
  {
    !s.gone && (wk.Record? || wk.base + 1 == |s.history|)
  }

  predicate Enabled(s: State, step: Step) {
    && |s.history| > 0
    && match step
       case Tick(_) => true
       case Read(w, i) => WorkerAt(s, w).Idle? && i < |s.history|
       case Crash(w) => !WorkerAt(s, w).Idle?
       case StoreCall(w, o) =>
         var wk := WorkerAt(s, w);
         CallsStore(wk) && (!o.Refused? ==> CanTakeEffect(s, wk)) && (o.Refused? && o.notFound ==> s.gone)
       case PublishCall(w, _) => WorkerAt(s, w).Publish? || WorkerAt(s, w).DeletePublish?
       case GetCall(w, g, _) =>
         var wk := WorkerAt(s, w);
         && wk.Create? && wk.slot != SSH_SECRET && !wk.missing
         && (g.Found? ==> (wk.slot, g.obj) in s.past)
         && (g.GetError? ==> g.error != NotOwned)
       case CreateCall(w, c, _, _) =>
         var wk := WorkerAt(s, w);
         && wk.Create? && (wk.slot == SSH_SECRET || wk.missing)
         && (c.Created? || c.CreateLost? ==> wk.slot !in s.objects)
         && (c.AlreadyExists? ==> wk.slot in s.objects)
         && (c.CreateLost? || c.CreateError? ==> c.error != NotOwned)
       case PodCall(w, _, _) => WorkerAt(s, w).CheckPod? || WorkerAt(s, w).CheckRunning?
       case TimeoutCheck(w, _) => WorkerAt(s, w).CheckUnready?
       case UserDelete => !s.gone && !Last(s.history).snap.deleting
       case UserEdit(_) => !s.gone
       case OutsiderPut(_, _) => true
       case OutsiderDelete(_) => true
       case Kubelet(_) => true
  }

  /** What the call makes of the current version. */
  function Written(snap: Snapshot, wk: Worker): Snapshot
    requires CallsStore(wk) && !wk.DeleteFinalizer?
  {
    match wk
    case AddFinalizer(_) => snap.(finalizer := true)
    case Record(_, mem) => snap.(published := mem.status.phase)
    case Write(_, status, _, _) => snap.(status := status)
    case DeleteStatus(_, mem) => snap.(status := ToTerminating(mem.status))
  }

  /** What a store call does when it takes effect. */
  function Effect(s: State, wk: Worker): State
    requires |s.history| > 0 && CallsStore(wk)
  {
    if wk.DeleteFinalizer? then s.(gone := true, farewell := wk.confirmed)
    else Store(s, Written(Last(s.history).snap, wk))
  }

  /** Where the reconcile goes after a store call; a successful call refreshes the
      in-memory session from the answer. */
  function AfterStore(s: State, wk: Worker, o: StoreOutcome): Worker
    requires |s.history| > 0 && CallsStore(wk)
  {
    var version := (|s.history| - 1) as nat;
    match wk
    case AddFinalizer(_) => Idle
    case Record(base, mem) =>
      if o.Applied? then Dispatch(s, version, Last(s.history).snap)
      else Dispatch(s, base, mem.(published := mem.status.phase))
    case Write(_, _, next, _) =>
      if o.Applied? && next.CheckTimeout? then CheckUnready(version, Last(s.history).snap) else Idle
    case DeleteStatus(base, mem) =>
      if o.Applied? then DeletePublish(version, Last(s.history).snap)
      else if o.Refused? && o.notFound then Idle
      else DeletePublish(base, mem.(status := ToTerminating(mem.status)))
    case DeleteFinalizer(_, _) => Idle
  }

  /** The confirmed publish a worker leaves unrecorded if it stops here without effect. */
  function Unrecorded(wk: Worker): multiset<Phase> {
    if wk.Record? then multiset{wk.mem.status.phase}
    else if wk.DeleteFinalizer? && wk.confirmed then multiset{Terminating}
    else multiset{}
  }

  function ApplyStore(s: State, w: nat, o: StoreOutcome): State
    requires |s.history| > 0 && CallsStore(WorkerAt(s, w))
  {
    var wk := WorkerAt(s, w);
    var s1 := if o.Refused? then s.(missed := s.missed + Unrecorded(wk)) else Effect(s, wk);
    With(s1, w, AfterStore(s1, wk, o))
  }

  function ApplyPublish(s: State, w: nat, o: PublishOutcome): State
    requires WorkerAt(s, w).Publish? || WorkerAt(s, w).DeletePublish?
  {
    var wk := WorkerAt(s, w);
    var phase := wk.mem.status.phase;
    var deliver := wk.Publish? || (s.config.events && wk.mem.published != Terminating);
    var s1 := if o.NotDelivered? || !deliver then s else s.(log := s.log + [Event(phase, o.Confirmed?)]);
    With(s1, w,
         if wk.DeletePublish? then DeleteFinalizer(wk.base, deliver && o.Confirmed?)
         else if o.Confirmed? then Record(wk.base, wk.mem)
         else Dispatch(s, wk.base, wk.mem))
  }

  function Put(s: State, slot: Slot, obj: Object): State {
    s.(objects := s.objects[slot := obj], past := s.past + {(slot, obj)})
  }

  function ApplyCreate(s: State, w: nat, c: CreateOutcome, key: nat, pod: Option<Pod>): State
    requires WorkerAt(s, w).Create?
  {
    var wk := WorkerAt(s, w);
    var s1 := if c.Created? || c.CreateLost?
              then Put(s, wk.slot, Object(true, key)).(creates := s.creates + [wk.slot]) else s;
    With(s1, w, if c.CreateLost? || c.CreateError? then OnCreateError(s1, wk, c.error, pod) else Advance(s1, wk))
  }

  function ApplyGet(s: State, w: nat, g: GetOutcome, pod: Option<Pod>): State
    requires WorkerAt(s, w).Create?
  {
    var wk := WorkerAt(s, w);
    With(s, w,
         match g
         case Absent => wk.(missing := true, seen := wk.seen + Controlled(s.objects))
         case Found(o) => if o.mine then Advance(s, wk) else OnCreateError(s, wk, NotOwned, pod)
         case GetError(e) => OnCreateError(s, wk, e, pod))
  }

  function Apply(s: State, step: Step): State
    requires Enabled(s, step)
  {
    match step
    case Tick(n) => s.(now := s.now + n)
    case Read(w, i) => With(s.(cached := i), w, Begin(s, i, s.history[i].snap))
    case Crash(w) => With(s.(missed := s.missed + Unrecorded(WorkerAt(s, w))), w, Idle)
    case StoreCall(w, o) => ApplyStore(s, w, o)
    case PublishCall(w, o) => ApplyPublish(s, w, o)
    case GetCall(w, g, pod) => ApplyGet(s, w, g, pod)
    case CreateCall(w, c, key, pod) => ApplyCreate(s, w, c, key, pod)
    case PodCall(w, look, pod) =>
      var wk := WorkerAt(s, w);
      With(s, w, if wk.CheckPod? then OnCreatedPod(s, wk, look, pod) else OnRunningPod(s, wk, look, pod))
    case TimeoutCheck(w, pod) => With(s, w, OnUnready(s, WorkerAt(s, w), pod))
    case UserDelete =>
      var snap := Last(s.history).snap;
      if snap.finalizer then Store(s, snap.(deleting := true)) else s.(gone := true)
    case UserEdit(storage) => Store(s, Last(s.history).snap.(storage := storage))
    case OutsiderPut(slot, o) => Put(s, slot, o)
    case OutsiderDelete(slot) => s.(objects := s.objects - {slot})
    case Kubelet(pod) => s.(pod := pod)
  }

  /** A session that was just created: no status written, nothing published, no reconcile running. */
  ghost predicate Init(s: State) {
    && |s.history| == 1
    && var first := s.history[0];
    && (first.snap.status == EMPTY_STATUS || first.snap.status == EMPTY_STATUS.(phase := Pending))
    && first.snap.published == NoPhase && !first.snap.deleting
    && first.at <= s.now
    && !s.gone && !s.farewell && s.workers == map[] && s.cached == 0 && s.creates == []
    && s.past == (set k | k in s.objects :: (k, s.objects[k]))
    && s.log == [] && s.missed == multiset{}
  }

  ghost predicate IsRun(run: seq<State>, steps: seq<Step>) {
    && |run| == |steps| + 1 && Init(run[0])
    && forall i {:trigger steps[i]} :: 0 <= i < |steps| ==> Enabled(run[i], steps[i]) && run[i + 1] == Apply(run[i], steps[i])
  }
}
