/** What every step of the protocol keeps, for any number of concurrent reconciles,
    any stale read, failed call or crash. */
module Safety {
  import opened Wrappers
  import opened Workload
  import opened Session
  import opened Protocol

  // ---------------------------------------------------------------- one version to the next

  ghost predicate PhaseEdge(a: Snapshot, p: Phase) {
    match p
    case Creating => a.status.phase == NoPhase || a.status.phase == Pending
    case Running => a.status.phase == Creating || a.status.phase == Running
    case Failed => a.status.phase == Creating || a.status.phase == Running
    case Terminating => a.deleting
    case NoPhase => false
    case Pending => false
  }

  /** The stored facts a write of Failed at time `at` over version `a` rests on. */
  ghost predicate Justified(a: Snapshot, reason: Reason, at: nat) {
    match reason
    case CreateFailed(slot, e) =>
      a.status.phase == Creating && (slot == SSH_SECRET || Permanent(e) || Expired(a.status, at))
    case PodStopped(why) => why != Serving
    case PodGone => a.status.phase == Running
    case PodUnready =>
      && a.status.phase == Running && IsFalse(a.status.conditions, PodReady)
      && at > Find(a.status.conditions, PodReady).value.since + POD_UNREADY_TIMEOUT
    case NoReason => false
  }

  /** PodReady keeps its transition time unless its value flips after `a` was written. */
  ghost predicate PodReadyEvolves(a: Entry, cs: seq<Condition>, at: nat) {
    var was, got := Find(a.snap.status.conditions, PodReady), Find(cs, PodReady);
    got == was || (got.Some? && (was.Some? ==> was.value.isTrue != got.value.isTrue) && a.at <= got.value.since <= at)
  }

  ghost predicate LegalStatus(a: Entry, st: Status, at: nat) {
    && PhaseEdge(a.snap, st.phase)
    && (a.snap.status.startTime.Some? ==> st.startTime == a.snap.status.startTime)
    && (a.snap.status.startTime.None? && st.startTime.Some? ==> a.at <= st.startTime.value <= at)
    && PodReadyEvolves(a, st.conditions, at)
    && (st.phase == Failed ==> Justified(a.snap, st.reason, at))
    && StatusOk(st)
  }

  ghost predicate Legal(a: Entry, b: Entry) {
    && a.at <= b.at
    && (a.snap.deleting ==> b.snap.deleting)
    && (a.snap.finalizer ==> b.snap.finalizer)
    && (b.snap.status == a.snap.status || LegalStatus(a, b.snap.status, b.at))
  }

  /** What holds of every stored status. */
  ghost predicate StatusOk(st: Status) {
    && Unique(st.conditions)
    && match st.phase
       case NoPhase => st.startTime.None?
       case Pending => st.startTime.None?
       case Creating => st.startTime.Some?
       case Running =>
         && st.startTime.Some? && st.podName != "" && st.serviceName != ""
         && Find(st.conditions, PodReady).Some? && IsTrue(st.conditions, Ready) && st.usage.running
       case Failed => st.startTime.Some? && IsFalse(st.conditions, Ready)
       case Terminating => st.usage == NO_USAGE
  }

  ghost predicate SnapshotOk(snap: Snapshot) {
    && StatusOk(snap.status)
    && (snap.status.phase == Terminating ==> snap.deleting)
    && (snap.deleting ==> snap.finalizer)
  }

  ghost predicate HistoryOk(h: seq<Entry>, now: nat) {
    && |h| > 0
    && (forall i :: 0 <= i < |h| ==> h[i].at <= now && SnapshotOk(h[i].snap))
    && (forall i :: 0 < i < |h| ==> Legal(h[i - 1], h[i]))
  }

  // ---------------------------------------------------------------- the reconciles in flight

  /** The in-memory session is a stored version, up to the names filled in since. */
  ghost predicate Holds(h: seq<Entry>, base: nat, mem: Snapshot) {
    && base < |h|
    && mem.status == h[base].snap.status.(podName := mem.status.podName, serviceName := mem.status.serviceName)
    && mem.deleting == h[base].snap.deleting && h[base].snap.finalizer
  }

  ghost predicate WorkerOk(h: seq<Entry>, now: nat, wk: Worker) {
    match wk
    case Idle => true
    case AddFinalizer(base) => base < |h| && !h[base].snap.deleting
    case Publish(base, mem) =>
      base < |h| && mem == h[base].snap && mem.finalizer && !mem.deleting && mem.status.phase != NoPhase
    case Record(base, mem) =>
      base < |h| && mem == h[base].snap && mem.finalizer && !mem.deleting && mem.status.phase != NoPhase
    case Create(base, mem, slot, _, _) =>
      && Holds(h, base, mem) && mem.status.phase == Creating
      && (slot > POD ==> mem.status.podName != "") && (slot > SERVICE ==> mem.status.serviceName != "")
    case CheckPod(base, mem, _) =>
      && Holds(h, base, mem) && mem.status.phase == Creating && mem.status.podName != "" && mem.status.serviceName != ""
    case CheckRunning(base, mem) => Holds(h, base, mem) && mem.status == h[base].snap.status && mem.status.phase == Running
    case CheckUnready(base, mem) =>
      && Holds(h, base, mem) && mem.status == h[base].snap.status
      && mem.status.phase == Running && IsFalse(mem.status.conditions, PodReady)
    case Write(base, st, next, _) =>
      && base < |h| && h[base].snap.finalizer && LegalStatus(h[base], st, now) && st.phase != Terminating
      && (next.CheckTimeout? ==> st.phase == Running && IsFalse(st.conditions, PodReady))
    case DeleteStatus(base, mem) => base < |h| && mem == h[base].snap && mem.deleting
    case DeletePublish(base, mem) =>
      && base < |h| && h[base].snap.deleting
      && mem.status.phase == Terminating && mem.published == h[base].snap.published
    case DeleteFinalizer(base, _) => base < |h| && h[base].snap.deleting
  }

  ghost predicate Inv(s: State) {
    && HistoryOk(s.history, s.now)
    && (s.gone ==> Last(s.history).snap.deleting || !Last(s.history).snap.finalizer)
    && forall w :: w in s.workers ==> WorkerOk(s.history, s.now, s.workers[w])
  }

  // ---------------------------------------------------------------- preservation

  lemma WorkerStays(h: seq<Entry>, now: nat, h': seq<Entry>, now': nat, wk: Worker)
    requires WorkerOk(h, now, wk) && h <= h' && now <= now'
    ensures WorkerOk(h', now', wk)
  {
  }

  /** The other reconciles are undisturbed by a step that extends the history. */
  lemma InvWith(s: State, s1: State, w: nat, wk: Worker)
    requires Inv(s) && s.history <= s1.history && s.now <= s1.now && s1.workers == s.workers
    requires HistoryOk(s1.history, s1.now) && WorkerOk(s1.history, s1.now, wk)
    requires s1.gone ==> Last(s1.history).snap.deleting || !Last(s1.history).snap.finalizer
    ensures Inv(With(s1, w, wk)) && Inv(s1)
  {
    forall v | v in s.workers
      ensures WorkerOk(s1.history, s1.now, s.workers[v])
    {
      WorkerStays(s.history, s.now, s1.history, s1.now, s.workers[v]);
    }
  }

  lemma StoreKeeps(s: State, snap: Snapshot)
    requires HistoryOk(s.history, s.now) && SnapshotOk(snap)
    requires Legal(Last(s.history), Entry(snap, s.now))
    ensures HistoryOk(Store(s, snap).history, s.now) && s.history <= Store(s, snap).history
    ensures Last(Store(s, snap).history).snap == snap
  {
  }

  lemma ToCreatingLegal(a: Entry, now: nat)
    requires a.at <= now && SnapshotOk(a.snap) && (a.snap.status.phase == NoPhase || a.snap.status.phase == Pending)
    ensures LegalStatus(a, ToCreating(a.snap.status, now), now)
  {
  }

  lemma ToFailedLegal(a: Entry, st: Status, reason: Reason, pod: Option<Pod>, claims: seq<nat>, now: nat)
    requires a.at <= now && SnapshotOk(a.snap)
    requires st == a.snap.status.(podName := st.podName, serviceName := st.serviceName)
    requires st.phase == Creating || st.phase == Running
    requires Justified(a.snap, reason, now)
    ensures LegalStatus(a, ToFailed(st, reason, pod, claims, now), now)
  {
    WithConditionFind(st.conditions, Ready, false, now, Ready);
    WithConditionFind(st.conditions, Ready, false, now, PodReady);
    WithConditionUnique(st.conditions, Ready, false, now);
  }

  lemma ToRunningLegal(a: Entry, st: Status, pod: Pod, claims: seq<nat>, now: nat)
    requires a.at <= now && SnapshotOk(a.snap)
    requires st == a.snap.status.(podName := st.podName, serviceName := st.serviceName)
    requires st.phase == Creating && st.podName != "" && st.serviceName != ""
    requires TerminalReasonOf(pod) == Serving
    ensures LegalStatus(a, ToRunning(st, pod, claims, now), now)
  {
    var c1 := WithCondition(st.conditions, PodReady, true, now);
    var c2 := WithCondition(c1, ServiceReady, true, now);
    WithConditionUnique(st.conditions, PodReady, true, now);
    WithConditionUnique(c1, ServiceReady, true, now);
    WithConditionUnique(c2, Ready, true, now);
    WithConditionFind(st.conditions, PodReady, true, now, PodReady);
    WithConditionFind(c1, ServiceReady, true, now, PodReady);
    WithConditionFind(c2, Ready, true, now, PodReady);
    WithConditionFind(c2, Ready, true, now, Ready);
  }

  lemma SetPodReadyLegal(a: Entry, ready: bool, now: nat)
    requires a.at <= now && SnapshotOk(a.snap) && a.snap.status.phase == Running
    ensures var st := SetPodReady(a.snap.status, ready, now);
            LegalStatus(a, st, now) && Find(st.conditions, PodReady).value.isTrue == ready
  {
    var cs := a.snap.status.conditions;
    WithConditionFind(cs, PodReady, ready, now, PodReady);
    WithConditionFind(cs, PodReady, ready, now, Ready);
    WithConditionUnique(cs, PodReady, ready, now);
  }

  lemma DispatchOk(s: State, base: nat, mem: Snapshot)
    requires HistoryOk(s.history, s.now) && Holds(s.history, base, mem) && mem.status == s.history[base].snap.status
    ensures WorkerOk(s.history, s.now, Dispatch(s, base, mem))
  {
    if mem.status.phase == NoPhase || mem.status.phase == Pending {
      ToCreatingLegal(s.history[base], s.now);
    }
  }

  lemma CreateErrorOk(s: State, wk: Worker, e: ApiError, pod: Option<Pod>)
    requires HistoryOk(s.history, s.now) && WorkerOk(s.history, s.now, wk) && wk.Create?
    ensures WorkerOk(s.history, s.now, OnCreateError(s, wk, e, pod))
  {
    if !OnCreateError(s, wk, e, pod).Idle? {
      ToFailedLegal(s.history[wk.base], wk.mem.status, CreateFailed(wk.slot, e), pod, Claims(wk.mem.storage), s.now);
    }
  }

  lemma CreatedPodOk(s: State, wk: Worker, look: PodOutcome, pod: Option<Pod>)
    requires HistoryOk(s.history, s.now) && WorkerOk(s.history, s.now, wk) && wk.CheckPod?
    ensures WorkerOk(s.history, s.now, OnCreatedPod(s, wk, look, pod))
  {
    if look.PodFound? {
      var why := TerminalReasonOf(look.pod);
      if why != Serving {
        ToFailedLegal(s.history[wk.base], wk.mem.status, PodStopped(why), pod, Claims(wk.mem.storage), s.now);
      } else {
        ToRunningLegal(s.history[wk.base], wk.mem.status, look.pod, Claims(wk.mem.storage), s.now);
      }
    }
  }

  lemma RunningPodOk(s: State, wk: Worker, look: PodOutcome, pod: Option<Pod>)
    requires HistoryOk(s.history, s.now) && WorkerOk(s.history, s.now, wk) && wk.CheckRunning?
    ensures WorkerOk(s.history, s.now, OnRunningPod(s, wk, look, pod))
  {
    var a := s.history[wk.base];
    ToFailedLegal(a, wk.mem.status, PodGone, pod, Claims(wk.mem.storage), s.now);
    if look.PodFound? {
      var why := TerminalReasonOf(look.pod);
      if why != Serving {
        ToFailedLegal(a, wk.mem.status, PodStopped(why), pod, Claims(wk.mem.storage), s.now);
      }
      SetPodReadyLegal(a, true, s.now);
      SetPodReadyLegal(a, false, s.now);
    }
  }

  lemma UnreadyOk(s: State, wk: Worker, pod: Option<Pod>)
    requires HistoryOk(s.history, s.now) && WorkerOk(s.history, s.now, wk) && wk.CheckUnready?
    ensures WorkerOk(s.history, s.now, OnUnready(s, wk, pod))
  {
    if !OnUnready(s, wk, pod).Idle? {
      ToFailedLegal(s.history[wk.base], wk.mem.status, PodUnready, pod, Claims(wk.mem.storage), s.now);
    }
  }

  /** A store call that takes effect adds a legal version, whichever call it is. */
  lemma EffectOk(s: State, wk: Worker)
    requires HistoryOk(s.history, s.now) && WorkerOk(s.history, s.now, wk)
    requires CallsStore(wk) && CanTakeEffect(s, wk)
    ensures var s1 := Effect(s, wk);
            && HistoryOk(s1.history, s1.now) && s.history <= s1.history && s1.workers == s.workers && s1.now == s.now
            && (wk.Write? ==> Last(s1.history).snap == Last(s.history).snap.(status := wk.status))
            && (wk.Record? ==> Last(s1.history).snap == Last(s.history).snap.(published := wk.mem.status.phase))
            && (wk.DeleteStatus? ==> Last(s1.history).snap == Last(s.history).snap.(status := ToTerminating(wk.mem.status)))
  {
    if !wk.DeleteFinalizer? {
      EffectLegal(s, wk);
      StoreKeeps(s, Written(Last(s.history).snap, wk));
    }
  }

  lemma EffectLegal(s: State, wk: Worker)
    requires HistoryOk(s.history, s.now) && WorkerOk(s.history, s.now, wk)
    requires CallsStore(wk) && CanTakeEffect(s, wk) && !wk.DeleteFinalizer?
    ensures var last := Last(s.history);
            SnapshotOk(Written(last.snap, wk)) && Legal(last, Entry(Written(last.snap, wk), s.now))
  {
    if wk.Write? {
      StatusLegal(Last(s.history), wk.status, s.now);
    } else if wk.DeleteStatus? {
      StatusLegal(Last(s.history), ToTerminating(wk.mem.status), s.now);
    }
  }

  /** A legal status over a version makes a legal next version. */
  lemma StatusLegal(a: Entry, st: Status, now: nat)
    requires SnapshotOk(a.snap) && a.at <= now && LegalStatus(a, st, now)
    ensures SnapshotOk(a.snap.(status := st)) && Legal(a, Entry(a.snap.(status := st), now))
  {
  }

  lemma {:induction false} FinalizerStays(h: seq<Entry>, now: nat, i: nat, j: nat)
    requires HistoryOk(h, now) && i <= j < |h| && h[i].snap.finalizer
    ensures h[j].snap.finalizer
  {
    if i < j {
      FinalizerStays(h, now, i, j - 1);
      assert Legal(h[j - 1], h[j]);
    }
  }

  /** The reconcile that made a store call goes on from a state that fits it. */
  lemma AfterStoreOk(s: State, s1: State, wk: Worker, o: StoreOutcome)
    requires HistoryOk(s.history, s.now) && WorkerOk(s.history, s.now, wk) && CallsStore(wk)
    requires if o.Refused? then s1.history == s.history && s1.now == s.now else CanTakeEffect(s, wk) && s1 == Effect(s, wk)
    ensures HistoryOk(s1.history, s1.now) && s.history <= s1.history && s1.now == s.now
    ensures s1.history == s.history || !s.gone
    ensures s1.gone && !s.gone && !o.Refused? ==> Last(s1.history).snap.deleting
    ensures WorkerOk(s1.history, s1.now, AfterStore(s1, wk, o))
  {
    if !o.Refused? { EffectOk(s, wk); }
    WorkerStays(s.history, s.now, s1.history, s1.now, wk);
    if wk.Record? { RecordResumes(s1, wk, o); }
  }

  lemma RecordResumes(s: State, wk: Worker, o: StoreOutcome)
    requires HistoryOk(s.history, s.now) && WorkerOk(s.history, s.now, wk) && wk.Record?
    ensures WorkerOk(s.history, s.now, AfterStore(s, wk, o))
  {
    var last := |s.history| - 1;
    FinalizerStays(s.history, s.now, wk.base, last);
    if o.Applied? { DispatchOk(s, last, s.history[last].snap); }
    else { DispatchOk(s, wk.base, wk.mem.(published := wk.mem.status.phase)); }
  }

  lemma StoreCallKeeps(s: State, w: nat, o: StoreOutcome)
    requires Inv(s) && Enabled(s, StoreCall(w, o))
    ensures Inv(ApplyStore(s, w, o))
  {
    var wk := WorkerAt(s, w);
    var s1 := if o.Refused? then s.(missed := s.missed + Unrecorded(wk)) else Effect(s, wk);
    AfterStoreOk(s, s1, wk, o);
    InvWith(s, s1, w, AfterStore(s1, wk, o));
  }

  lemma ReadKeeps(s: State, w: nat, i: nat)
    requires Inv(s) && Enabled(s, Read(w, i))
    ensures Inv(Apply(s, Read(w, i)))
  {
    var mem := s.history[i].snap;
    if mem.finalizer { DispatchOk(s, i, mem); }
    InvWith(s, s.(cached := i), w, Begin(s, i, mem));
  }

  lemma PublishKeeps(s: State, w: nat, o: PublishOutcome)
    requires Inv(s) && Enabled(s, PublishCall(w, o))
    ensures Inv(ApplyPublish(s, w, o))
  {
    var wk := WorkerAt(s, w);
    if wk.Publish? { DispatchOk(s, wk.base, wk.mem); }
    var s' := ApplyPublish(s, w, o);
    InvWith(s, s'.(workers := s.workers), w, WorkerAt(s', w));
  }

  lemma AdvanceOk(s: State, wk: Worker)
    requires HistoryOk(s.history, s.now) && WorkerOk(s.history, s.now, wk) && wk.Create?
    ensures WorkerOk(s.history, s.now, Advance(s, wk))
  {
  }

  lemma GetKeeps(s: State, w: nat, g: GetOutcome, pod: Option<Pod>)
    requires Inv(s) && Enabled(s, GetCall(w, g, pod))
    ensures Inv(ApplyGet(s, w, g, pod))
  {
    var wk := WorkerAt(s, w);
    AdvanceOk(s, wk);
    CreateErrorOk(s, wk, if g.GetError? then g.error else NotOwned, pod);
    InvWith(s, s, w, WorkerAt(ApplyGet(s, w, g, pod), w));
  }

  lemma CreateKeeps(s: State, w: nat, c: CreateOutcome, key: nat, pod: Option<Pod>)
    requires Inv(s) && Enabled(s, CreateCall(w, c, key, pod))
    ensures Inv(ApplyCreate(s, w, c, key, pod))
  {
    var wk := WorkerAt(s, w);
    var s' := ApplyCreate(s, w, c, key, pod);
    var s1 := s'.(workers := s.workers);
    AdvanceOk(s1, wk);
    if c.CreateLost? || c.CreateError? { CreateErrorOk(s1, wk, c.error, pod); }
    InvWith(s, s1, w, WorkerAt(s', w));
  }

  lemma PodCallKeeps(s: State, w: nat, look: PodOutcome, pod: Option<Pod>)
    requires Inv(s) && Enabled(s, PodCall(w, look, pod))
    ensures Inv(Apply(s, PodCall(w, look, pod)))
  {
    var wk := WorkerAt(s, w);
    if wk.CheckPod? { CreatedPodOk(s, wk, look, pod); } else { RunningPodOk(s, wk, look, pod); }
    InvWith(s, s, w, WorkerAt(Apply(s, PodCall(w, look, pod)), w));
  }

  lemma UserKeeps(s: State, step: Step)
    requires Inv(s) && Enabled(s, step) && (step.UserDelete? || step.UserEdit?)
    ensures Inv(Apply(s, step))
  {
    var snap := Last(s.history).snap;
    if step.UserEdit? {
      StoreKeeps(s, snap.(storage := step.storage));
    } else if snap.finalizer {
      StoreKeeps(s, snap.(deleting := true));
    }
    InvWith(s, Apply(s, step), 0, Idle);
  }

  lemma StepKeeps(s: State, step: Step)
    requires Inv(s) && Enabled(s, step)
    ensures Inv(Apply(s, step))
  {
    match step
    case Read(w, i) => ReadKeeps(s, w, i);
    case StoreCall(w, o) => StoreCallKeeps(s, w, o);
    case PublishCall(w, o) => PublishKeeps(s, w, o);
    case GetCall(w, g, pod) => GetKeeps(s, w, g, pod);
    case CreateCall(w, c, key, pod) => CreateKeeps(s, w, c, key, pod);
    case PodCall(w, look, pod) => PodCallKeeps(s, w, look, pod);
    case TimeoutCheck(w, pod) =>
      UnreadyOk(s, WorkerAt(s, w), pod);
      InvWith(s, s, w, OnUnready(s, WorkerAt(s, w), pod));
    case Crash(w) => InvWith(s, Apply(s, step).(workers := s.workers), w, Idle);
    case UserDelete => UserKeeps(s, step);
    case UserEdit(_) => UserKeeps(s, step);
    case Tick(_) => InvWith(s, Apply(s, step), 0, Idle);
    case OutsiderPut(_, _) =>
    case OutsiderDelete(_) =>
    case Kubelet(_) =>
  }

  lemma {:induction false} RunKeeps(run: seq<State>, steps: seq<Step>, n: nat)
    requires IsRun(run, steps) && n < |run|
    ensures Inv(run[n])
  {
    if n > 0 {
      RunKeeps(run, steps, n - 1);
      StepKeeps(run[n - 1], steps[n - 1]);
    }
  }

  lemma RunExtends(run: seq<State>, steps: seq<Step>, step: Step)
    requires IsRun(run, steps) && Enabled(run[|steps|], step)
    ensures IsRun(run + [Apply(run[|steps|], step)], steps + [step])
  {
    var run', steps' := run + [Apply(run[|steps|], step)], steps + [step];
    forall i {:trigger steps'[i]} | 0 <= i < |steps'|
      ensures Enabled(run'[i], steps'[i]) && run'[i + 1] == Apply(run'[i], steps'[i])
    {
      if i < |steps| { assert steps'[i] == steps[i]; }
    }
  }
}
