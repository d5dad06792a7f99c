/** What every answer leads a reconcile to do, over whole runs: from the read that starts it to
    the status it is about to write, with any steps of the others in between. Everything is
    stated over what was read, answered and stored, and over the constants of the source. */
module Outcomes {
  import opened Wrappers
  import opened Workload
  import opened Session
  import opened Protocol
  import opened Safety
  import opened Phases
  import opened Objects

  /** Reconcile w takes step a, and none after it before state c. */
  ghost predicate Acts(run: seq<State>, steps: seq<Step>, w: nat, a: nat, c: nat) {
    IsRun(run, steps) && a < c <= |steps| && StepOf(steps[a], w) && Rests(steps, w, a + 1, c)
  }

  // ---------------------------------------------------------------- what is written

  /** `got` is `was` with one condition set, its transition time moved only on a flip. */
  ghost predicate SetTo(was: seq<Condition>, got: seq<Condition>, kind: ConditionType, value: bool, now: nat) {
    && (forall k :: k != kind ==> Find(got, k) == Find(was, k))
    && var before := Find(was, kind);
       Find(got, kind) == if before.Some? && before.value.isTrue == value then before else Some(Condition(kind, value, now))
  }

  lemma SetsCondition(was: seq<Condition>, kind: ConditionType, value: bool, now: nat)
    ensures SetTo(was, WithCondition(was, kind, value, now), kind, value, now)
  {
    var got := WithCondition(was, kind, value, now);
    forall k
      ensures k != kind ==> Find(got, k) == Find(was, k)
    {
      WithConditionFind(was, kind, value, now, k);
    }
    WithConditionFind(was, kind, value, now, kind);
  }

  /** The claims' storage, and the containers' requests while the pod occupies them. */
  ghost predicate Reports(usage: Usage, pod: Option<Pod>, storage: nat) {
    && usage.storage == storage + 5 * 0x4000_0000
    && usage.running == Occupies(pod)
    && usage.cpuMilli == (if Occupies(pod) then CpuOf(pod.value.containers) else 0)
    && usage.memory == (if Occupies(pod) then MemoryOf(pod.value.containers) else 0)
  }

  lemma HeldReports(pod: Option<Pod>, storage: nat)
    ensures Reports(Held(pod, Claims(storage)), pod, storage)
  {
    var claims := Claims(storage);
    assert claims[1..] == [5 * 0x4000_0000];
    assert SumOf(claims) == claims[0] + SumOf(claims[1..]);
  }

  /** About to store Failed over version `base`, for this reason, with what the session's pod, if
      it was found, still holds; everything else is kept. */
  ghost predicate WritesFailed(wk: Worker, base: nat, mem: Snapshot, reason: Reason, pod: Option<Pod>, now: nat) {
    && wk.Write? && wk.base == base && wk.next == Finish
    && wk.status == mem.status.(phase := Failed, reason := reason, usage := wk.status.usage, conditions := wk.status.conditions)
    && SetTo(mem.status.conditions, wk.status.conditions, Ready, false, now)
    && Reports(wk.status.usage, if mem.status.podName == "" then None else pod, mem.storage)
  }

  lemma FailWrites(s: State, base: nat, mem: Snapshot, reason: Reason, pod: Option<Pod>)
    ensures WritesFailed(Fail(s, base, mem, reason, pod), base, mem, reason, pod, s.now)
  {
    SetsCondition(mem.status.conditions, Ready, false, s.now);
    HeldReports(SessionPod(mem, pod), mem.storage);
  }

  /** About to store Running, with every condition true and what the pod holds. */
  ghost predicate WritesRunning(wk: Worker, base: nat, mem: Snapshot, pod: Pod, now: nat) {
    && wk.Write? && wk.base == base && wk.next == Finish
    && wk.status == mem.status.(phase := Running, usage := wk.status.usage, conditions := wk.status.conditions)
    && Reports(wk.status.usage, Some(pod), mem.storage)
    && forall kind ::
         var before := Find(mem.status.conditions, kind);
         Find(wk.status.conditions, kind) == if before.Some? && before.value.isTrue then before else Some(Condition(kind, true, now))
  }

  lemma RunningWrites(mem: Snapshot, pod: Pod, now: nat, base: nat, evidence: Evidence)
    ensures WritesRunning(Write(base, ToRunning(mem.status, pod, Claims(mem.storage), now), Finish, evidence), base, mem, pod, now)
  {
    var c0 := mem.status.conditions;
    var c1 := WithCondition(c0, PodReady, true, now);
    var c2 := WithCondition(c1, ServiceReady, true, now);
    var c3 := WithCondition(c2, Ready, true, now);
    HeldReports(Some(pod), mem.storage);
    forall kind
      ensures var before := Find(c0, kind);
              Find(c3, kind) == if before.Some? && before.value.isTrue then before else Some(Condition(kind, true, now))
    {
      WithConditionFind(c0, PodReady, true, now, kind);
      WithConditionFind(c1, ServiceReady, true, now, kind);
      WithConditionFind(c2, Ready, true, now, kind);
    }
  }

  /** A status write that takes effect stores exactly that status over the version it was
      decided on, and changes nothing else; a refused one stores nothing. */
  lemma WriteOutcome(run: seq<State>, steps: seq<Step>, w: nat, a: nat)
    requires IsRun(run, steps) && a < |steps| && WorkerAt(run[a], w).Write? && steps[a].StoreCall? && steps[a].worker == w
    ensures |run[a].history| > 0 && |run[a + 1].history| > 0
    ensures var wk := WorkerAt(run[a], w);
            if steps[a].store.Refused? then run[a + 1].history == run[a].history
            else && wk.base + 1 == |run[a].history|
                 && Stored(run[a + 1]) == Stored(run[a]).(status := wk.status)
    ensures var wk, wk' := WorkerAt(run[a], w), WorkerAt(run[a + 1], w);
            if steps[a].store.Applied? && wk.next == CheckTimeout
            then wk' == CheckUnready(|run[a + 1].history| - 1, Stored(run[a + 1])) else wk'.Idle?
  {
    RunKeeps(run, steps, a);
    RunKeeps(run, steps, a + 1);
    if !steps[a].store.Refused? { EffectOk(run[a], WorkerAt(run[a], w)); }
  }

  // ---------------------------------------------------------------- starting and publishing

  /** The handler of the session's phase begins. */
  ghost predicate Enters(wk: Worker, base: nat, mem: Snapshot, now: nat) {
    match mem.status.phase
    case NoPhase => StartsCreating(wk, base, mem, now)
    case Pending => StartsCreating(wk, base, mem, now)
    case Creating => wk.Create? && wk.base == base && wk.mem == mem && wk.slot == 0 && !wk.missing
    case Running => wk == CheckRunning(base, mem)
    case Failed => wk.Idle?
    case Terminating => wk.Idle?
  }

  ghost predicate StartsCreating(wk: Worker, base: nat, mem: Snapshot, now: nat) {
    wk.Write? && wk.base == base && wk.next == Finish && wk.status == mem.status.(phase := Creating, startTime := Some(now))
  }

  /** A read leads to the deletion, to the finalizer, to the publish of a phase that is not yet
      recorded, or to the handler of its phase. */
  lemma ReadLeads(run: seq<State>, steps: seq<Step>, w: nat, a: nat, c: nat)
    requires Acts(run, steps, w, a, c) && steps[a].Read?
    ensures steps[a].version < |run[a].history|
    ensures var i := steps[a].version;
            var snap, wk := run[a].history[i].snap, WorkerAt(run[c], w);
            if snap.deleting then wk == DeleteStatus(i, snap)
            else if !snap.finalizer then wk == AddFinalizer(i)
            else if run[a].config.events && snap.status.phase != NoPhase && snap.published != snap.status.phase then wk == Publish(i, snap)
            else Enters(wk, i, snap, run[a].now)
  {
    WorkerRests(run, steps, w, a + 1, c);
  }

  /** A due publish is delivered as its outcome says; confirmed it is recorded next, otherwise
      the phase handler goes on without. */
  lemma PublishLeads(run: seq<State>, steps: seq<Step>, w: nat, a: nat, c: nat)
    requires Acts(run, steps, w, a, c) && steps[a].PublishCall? && WorkerAt(run[a], w).Publish?
    ensures var wk, wk', o := WorkerAt(run[a], w), WorkerAt(run[c], w), steps[a].publish;
            && run[a + 1].log == (if o.NotDelivered? then run[a].log else run[a].log + [Event(wk.mem.status.phase, o.Confirmed?)])
            && if o.Confirmed? then wk' == Record(wk.base, wk.mem) else Enters(wk', wk.base, wk.mem, run[a].now)
  {
    WorkerRests(run, steps, w, a + 1, c);
  }

  /** Recording a confirmed phase changes only the annotation of the current version, whatever
      version was read; the handler goes on with the session as stored, or as it was read. */
  lemma RecordLeads(run: seq<State>, steps: seq<Step>, w: nat, a: nat, c: nat)
    requires Acts(run, steps, w, a, c) && steps[a].StoreCall? && WorkerAt(run[a], w).Record?
    ensures |run[a].history| > 0 && |run[a + 1].history| > 0
    ensures var wk, wk', o := WorkerAt(run[a], w), WorkerAt(run[c], w), steps[a].store;
            var phase := wk.mem.status.phase;
            && Stored(run[a + 1]) == (if o.Refused? then Stored(run[a]) else Stored(run[a]).(published := phase))
            && if o.Applied? then Enters(wk', |run[a + 1].history| - 1, Stored(run[a + 1]), run[a].now)
               else Enters(wk', wk.base, wk.mem.(published := phase), run[a].now)
  {
    RunKeeps(run, steps, a);
    RunKeeps(run, steps, a + 1);
    if !steps[a].store.Refused? { EffectOk(run[a], WorkerAt(run[a], w)); }
    WorkerRests(run, steps, w, a + 1, c);
    RecordEnters(run[a], w, steps[a].store);
  }

  lemma RecordEnters(s: State, w: nat, o: StoreOutcome)
    requires Inv(s) && Enabled(s, StoreCall(w, o)) && WorkerAt(s, w).Record?
    ensures var s', wk := ApplyStore(s, w, o), WorkerAt(s, w);
            && |s'.history| > 0
            && if o.Applied? then Enters(WorkerAt(s', w), |s'.history| - 1, Stored(s'), s.now)
               else Enters(WorkerAt(s', w), wk.base, wk.mem.(published := wk.mem.status.phase), s.now)
  {
    if !o.Refused? { EffectOk(s, WorkerAt(s, w)); }
  }

  // ---------------------------------------------------------------- creating

  /** The object of `slot` is in place: the next one is ensured, or after the Ingress the pod is
      checked, with the Pod's and the Service's name recorded as they are passed. */
  ghost predicate GoesOn(wk: Worker, wk': Worker, sessionId: string)
    requires wk.Create?
  {
    var st := wk.mem.status;
    var mem := wk.mem.(status := if wk.slot == 3 then st.(podName := "lab-session-" + sessionId)
                                 else if wk.slot == 4 then st.(serviceName := "lab-service-" + sessionId) else st);
    if wk.slot == 5 then wk'.CheckPod? && wk'.base == wk.base && wk'.mem == mem
    else wk'.Create? && wk'.base == wk.base && wk'.mem == mem && wk'.slot == wk.slot + 1 && !wk'.missing
  }

  /** An object that is found and controlled is passed, one that is missing is created next. */
  lemma LookupLeads(run: seq<State>, steps: seq<Step>, w: nat, a: nat, c: nat)
    requires Acts(run, steps, w, a, c) && steps[a].GetCall? && MetError(run[a], steps[a], w).None?
    ensures WorkerAt(run[a], w).Create?
    ensures var wk, wk', g := WorkerAt(run[a], w), WorkerAt(run[c], w), steps[a].get;
            if g.Absent? then wk'.Create? && wk' == wk.(missing := true, seen := wk'.seen)
            else GoesOn(wk, wk', run[a].config.sessionId)
  {
    WorkerRests(run, steps, w, a + 1, c);
  }

  /** A create that succeeds stores an object of the session's own, and one that finds the name
      taken stores nothing; either way the object is passed. */
  lemma CreateLeads(run: seq<State>, steps: seq<Step>, w: nat, a: nat, c: nat)
    requires Acts(run, steps, w, a, c) && steps[a].CreateCall? && MetError(run[a], steps[a], w).None?
    ensures WorkerAt(run[a], w).Create?
    ensures var wk, s, s' := WorkerAt(run[a], w), run[a], run[a + 1];
            && GoesOn(wk, WorkerAt(run[c], w), s.config.sessionId)
            && if steps[a].create.Created?
               then wk.slot !in s.objects && s'.objects == s.objects[wk.slot := Object(true, steps[a].key)]
               else wk.slot in s.objects && s'.objects == s.objects
  {
    WorkerRests(run, steps, w, a + 1, c);
  }

  /** Once all is created: a pod that cannot serve fails the session, one that is ready makes it
      Running, any other answer leaves it Creating. */
  lemma CreatedPodLeads(run: seq<State>, steps: seq<Step>, w: nat, a: nat, c: nat)
    requires Acts(run, steps, w, a, c) && steps[a].PodCall? && WorkerAt(run[a], w).CheckPod?
    ensures var wk, wk', now := WorkerAt(run[a], w), WorkerAt(run[c], w), run[a].now;
            if !steps[a].look.PodFound? then wk'.Idle?
            else
              var pod := steps[a].look.pod;
              if !Serves(pod) then
                exists why :: why != Serving && Explains(why, pod) && WritesFailed(wk', wk.base, wk.mem, PodStopped(why), steps[a].usagePod, now)
              else if PodIsReady(pod) then WritesRunning(wk', wk.base, wk.mem, pod, now)
              else wk'.Idle?
  {
    WorkerRests(run, steps, w, a + 1, c);
    CreatedPodStep(run[a], w, steps[a].look, steps[a].usagePod);
  }

  ghost predicate PodIsReady(pod: Pod) {
    pod.phase == PodRunning && exists i :: 0 <= i < |pod.conditions| && pod.conditions[i] == PodCondition(PodReadyCondition, true)
  }

  lemma CreatedPodStep(s: State, w: nat, look: PodOutcome, usagePod: Option<Pod>)
    requires Enabled(s, PodCall(w, look, usagePod)) && WorkerAt(s, w).CheckPod?
    ensures var wk := WorkerAt(s, w);
            var wk' := OnCreatedPod(s, wk, look, usagePod);
            if !look.PodFound? then wk'.Idle?
            else if !Serves(look.pod) then
              var why := TerminalReasonOf(look.pod);
              why != Serving && Explains(why, look.pod) && WritesFailed(wk', wk.base, wk.mem, PodStopped(why), usagePod, s.now)
            else if PodIsReady(look.pod) then WritesRunning(wk', wk.base, wk.mem, look.pod, s.now)
            else wk'.Idle?
  {
    var wk := WorkerAt(s, w);
    if look.PodFound? {
      var why := TerminalReasonOf(look.pod);
      FailWrites(s, wk.base, wk.mem, PodStopped(why), usagePod);
      var evidence := Evidence(wk.seen + Controlled(s.objects), if POD in s.objects then Some(s.pod) else None);
      RunningWrites(wk.mem, look.pod, s.now, wk.base, evidence);
    }
  }

  // ---------------------------------------------------------------- running

  /** The lookup of a Running session's pod: gone or unable to serve, the session is about to
      fail; ready again, the recovery is about to be stored, with this moment as its transition;
      not ready, that is about to be stored before the timeout is checked, or the timeout is
      checked at once if it was stored before. */
  lemma RunningPodLeads(run: seq<State>, steps: seq<Step>, w: nat, a: nat, c: nat)
    requires Acts(run, steps, w, a, c) && steps[a].PodCall? && WorkerAt(run[a], w).CheckRunning?
    ensures var wk, wk', now := WorkerAt(run[a], w), WorkerAt(run[c], w), run[a].now;
            var ready := Find(wk.mem.status.conditions, PodReady);
            && ready.Some?
            && match steps[a].look
               case PodAbsent => WritesFailed(wk', wk.base, wk.mem, PodGone, steps[a].usagePod, now)
               case PodError => wk'.Idle?
               case PodFound(pod) =>
                 if !Serves(pod) then
                   exists why :: why != Serving && Explains(why, pod) && WritesFailed(wk', wk.base, wk.mem, PodStopped(why), steps[a].usagePod, now)
                 else if PodIsReady(pod) == ready.value.isTrue then
                   if PodIsReady(pod) then wk'.Idle? else wk' == CheckUnready(wk.base, wk.mem)
                 else WritesPodReady(wk', wk.base, wk.mem, PodIsReady(pod), now)
  {
    RunKeeps(run, steps, a);
    WorkerRests(run, steps, w, a + 1, c);
    RunningPodStep(run[a], w, steps[a].look, steps[a].usagePod);
  }

  /** About to store PodReady with this value, since now; the timeout is checked after False. */
  ghost predicate WritesPodReady(wk: Worker, base: nat, mem: Snapshot, value: bool, now: nat) {
    && wk.Write? && wk.base == base && wk.next == (if value then Finish else CheckTimeout)
    && wk.status == mem.status.(conditions := wk.status.conditions)
    && Find(wk.status.conditions, PodReady) == Some(Condition(PodReady, value, now))
    && SetTo(mem.status.conditions, wk.status.conditions, PodReady, value, now)
  }

  lemma RunningPodStep(s: State, w: nat, look: PodOutcome, usagePod: Option<Pod>)
    requires Inv(s) && Enabled(s, PodCall(w, look, usagePod)) && WorkerAt(s, w).CheckRunning?
    ensures var wk := WorkerAt(s, w);
            var wk', ready := OnRunningPod(s, wk, look, usagePod), Find(wk.mem.status.conditions, PodReady);
            && ready.Some?
            && match look
               case PodAbsent => WritesFailed(wk', wk.base, wk.mem, PodGone, usagePod, s.now)
               case PodError => wk'.Idle?
               case PodFound(pod) =>
                 if !Serves(pod) then
                   var why := TerminalReasonOf(pod);
                   why != Serving && Explains(why, pod) && WritesFailed(wk', wk.base, wk.mem, PodStopped(why), usagePod, s.now)
                 else if PodIsReady(pod) == ready.value.isTrue then
                   if PodIsReady(pod) then wk'.Idle? else wk' == CheckUnready(wk.base, wk.mem)
                 else WritesPodReady(wk', wk.base, wk.mem, PodIsReady(pod), s.now)
  {
    var wk := WorkerAt(s, w);
    assert WorkerOk(s.history, s.now, wk);
    FailWrites(s, wk.base, wk.mem, PodGone, usagePod);
    if look.PodFound? {
      FailWrites(s, wk.base, wk.mem, PodStopped(TerminalReasonOf(look.pod)), usagePod);
      SetsCondition(wk.mem.status.conditions, PodReady, PodIsReady(look.pod), s.now);
    }
  }

  /** The timeout check of a session stored as unready since `since`: more than 120 seconds later
      it is about to fail, otherwise it is left to recover. */
  lemma UnreadyLeads(run: seq<State>, steps: seq<Step>, w: nat, a: nat, c: nat)
    requires Acts(run, steps, w, a, c) && steps[a].TimeoutCheck?
    ensures WorkerAt(run[a], w).CheckUnready?
    ensures var wk, wk' := WorkerAt(run[a], w), WorkerAt(run[c], w);
            var ready := Find(wk.mem.status.conditions, PodReady);
            && ready.Some? && !ready.value.isTrue
            && if run[a].now > ready.value.since + 120
               then WritesFailed(wk', wk.base, wk.mem, PodUnready, steps[a].usagePod, run[a].now) else wk'.Idle?
  {
    RunKeeps(run, steps, a);
    assert WorkerOk(run[a].history, run[a].now, WorkerAt(run[a], w));
    WorkerRests(run, steps, w, a + 1, c);
    FailWrites(run[a], WorkerAt(run[a], w).base, WorkerAt(run[a], w).mem, PodUnready, steps[a].usagePod);
  }

  /** A whole reconcile of a Running session stored as unready since `since`: it reads version i,
      finds the pod still not ready and checks the timeout. More than 120 seconds after that
      transition it is about to make the session Failed over that version, and does once the
      write succeeds; earlier it stops and writes nothing. */
  lemma UnreadyTooLongFails(run: seq<State>, steps: seq<Step>, w: nat, r: nat, a: nat, b: nat, c: nat, i: nat, pod: Pod, since: nat)
    requires Acts(run, steps, w, r, a) && Acts(run, steps, w, a, b) && Acts(run, steps, w, b, c)
    requires steps[r] == Read(w, i) && i < |run[r].history| && Healthy(run[r], i)
    requires Find(run[r].history[i].snap.status.conditions, PodReady) == Some(Condition(PodReady, false, since))
    requires steps[a].PodCall? && steps[a].look == PodFound(pod) && Serves(pod) && !PodIsReady(pod)
    requires steps[b].TimeoutCheck?
    ensures var wk := WorkerAt(run[c], w);
            if run[b].now > since + 120
            then && wk.Write? && wk.base == i && wk.status.phase == Failed && wk.status.reason == PodUnready
                 && (c < |steps| && steps[c] == StoreCall(w, Applied) ==>
                       |run[c + 1].history| > 0 && Stored(run[c + 1]).status == wk.status)
            else wk.Idle?
  {
    ReadLeads(run, steps, w, r, a);
    RunningPodLeads(run, steps, w, a, b);
    UnreadyLeads(run, steps, w, b, c);
    if WorkerAt(run[c], w).Write? && c < |steps| && steps[c] == StoreCall(w, Applied) { WriteOutcome(run, steps, w, c); }
  }

  /** Version i is Running, not being deleted, and its phase needs no publish. */
  ghost predicate Healthy(s: State, i: nat)
    requires i < |s.history|
  {
    var snap := s.history[i].snap;
    snap.status.phase == Running && snap.finalizer && !snap.deleting && (s.config.events ==> snap.published == Running)
  }

  /** A whole reconcile of a Running session whose pod is gone or cannot serve is about to make
      it Failed, and does once the write succeeds. */
  lemma LostPodFails(run: seq<State>, steps: seq<Step>, w: nat, r: nat, a: nat, c: nat, i: nat)
    requires Acts(run, steps, w, r, a) && Acts(run, steps, w, a, c)
    requires steps[r] == Read(w, i) && i < |run[r].history| && Healthy(run[r], i)
    requires steps[a].PodCall? && (steps[a].look.PodAbsent? || (steps[a].look.PodFound? && !Serves(steps[a].look.pod)))
    ensures var wk, look := WorkerAt(run[c], w), steps[a].look;
            && wk.Write? && wk.base == i && wk.status.phase == Failed
            && (if look.PodAbsent? then wk.status.reason == PodGone
                else wk.status.reason.PodStopped? && wk.status.reason.why != Serving && Explains(wk.status.reason.why, look.pod))
            && (c < |steps| && steps[c] == StoreCall(w, Applied) ==>
                  |run[c + 1].history| > 0 && Stored(run[c + 1]).status == wk.status)
  {
    ReadLeads(run, steps, w, r, a);
    RunningPodLeads(run, steps, w, a, c);
    if c < |steps| && steps[c] == StoreCall(w, Applied) { WriteOutcome(run, steps, w, c); }
  }

  // ---------------------------------------------------------------- finalizer and deletion

  lemma FinalizerLeads(run: seq<State>, steps: seq<Step>, w: nat, a: nat)
    requires IsRun(run, steps) && a < |steps| && WorkerAt(run[a], w).AddFinalizer? && steps[a].StoreCall? && steps[a].worker == w
    ensures |run[a].history| > 0 && |run[a + 1].history| > 0 && WorkerAt(run[a + 1], w).Idle?
    ensures Stored(run[a + 1]) == if steps[a].store.Refused? then Stored(run[a]) else Stored(run[a]).(finalizer := true)
  {
    RunKeeps(run, steps, a);
    RunKeeps(run, steps, a + 1);
  }

  /** Deletion first stores Terminating with no usage, keeping the rest of the status, and goes on
      to the publish whatever the answer, unless the session is already gone. */
  lemma DeleteStatusLeads(run: seq<State>, steps: seq<Step>, w: nat, a: nat, c: nat)
    requires Acts(run, steps, w, a, c) && steps[a].StoreCall? && WorkerAt(run[a], w).DeleteStatus?
    ensures |run[a].history| > 0 && |run[a + 1].history| > 0
    ensures var wk, wk', o := WorkerAt(run[a], w), WorkerAt(run[c], w), steps[a].store;
            var st := wk.mem.status.(phase := Terminating, usage := Usage(false, 0, 0, 0));
            && Stored(run[a + 1]) == (if o.Refused? then Stored(run[a]) else Stored(run[a]).(status := st))
            && if o.Refused? && o.notFound then wk'.Idle?
               else wk'.DeletePublish? && wk'.mem.status == st
                    && wk'.base == (if o.Applied? then |run[a + 1].history| - 1 else wk.base)
  {
    RunKeeps(run, steps, a);
    RunKeeps(run, steps, a + 1);
    if !steps[a].store.Refused? { EffectOk(run[a], WorkerAt(run[a], w)); }
    WorkerRests(run, steps, w, a + 1, c);
  }

  /** With events on, deletion delivers Terminating as its outcome says, and nothing with events
      off; then it removes the finalizer, which removes the session. */
  lemma DeletePublishLeads(run: seq<State>, steps: seq<Step>, w: nat, a: nat, c: nat)
    requires Acts(run, steps, w, a, c) && steps[a].PublishCall? && WorkerAt(run[a], w).DeletePublish?
    requires WorkerAt(run[a], w).mem.published != Terminating
    ensures run[a + 1].log == if run[a].config.events && !steps[a].publish.NotDelivered?
                              then run[a].log + [Event(Terminating, steps[a].publish.Confirmed?)] else run[a].log
    ensures var wk := WorkerAt(run[c], w);
            && wk.DeleteFinalizer? && wk.base == WorkerAt(run[a], w).base
            && (c < |steps| && steps[c].StoreCall? && steps[c].worker == w ==> run[c + 1].gone == (run[c].gone || !steps[c].store.Refused?))
  {
    RunKeeps(run, steps, a);
    assert WorkerOk(run[a].history, run[a].now, WorkerAt(run[a], w));
    WorkerRests(run, steps, w, a + 1, c);
  }

  // ---------------------------------------------------------------- a clean reconcile

  /** The names recorded so far are those of the session's objects. */
  ghost predicate Named(wk: Worker, sessionId: string) {
    && (wk.Create? || wk.CheckPod? ==>
          && (wk.CheckPod? || wk.slot > 3 ==> wk.mem.status.podName == "lab-session-" + sessionId)
          && (wk.CheckPod? || wk.slot > 4 ==> wk.mem.status.serviceName == "lab-service-" + sessionId))
  }

  lemma CleanStep(run: seq<State>, steps: seq<Step>, w: nat, n: nat)
    requires IsRun(run, steps) && n < |steps| && StepOf(steps[n], w) && ErrorFree(steps[n]) && WorkerAt(run[n], w).Create?
    ensures var wk, wk' := WorkerAt(run[n], w), WorkerAt(run[n + 1], w);
            && (wk'.CheckPod? || (wk'.Create? && Left(wk') < Left(wk))) && wk'.base == wk.base
            && (Named(wk, run[n].config.sessionId) ==> Named(wk', run[n].config.sessionId))
  {
    if steps[n].GetCall? { LookupLeads(run, steps, w, n, n + 1); } else { CreateLeads(run, steps, w, n, n + 1); }
  }

  /** A reconcile of a Creating session whose create calls meet no error comes to check its pod
      within twelve of its steps, holding the version it read, with both names recorded,
      whatever the others and outsiders do and however stale its reads are. */
  lemma {:induction false} ReachesPodCheck(run: seq<State>, steps: seq<Step>, w: nat, a: nat, c: nat) returns (d: nat)
    requires IsRun(run, steps) && a <= c <= |steps|
    requires WorkerAt(run[a], w).Create? && WorkerAt(run[a], w).slot == 0 && !WorkerAt(run[a], w).missing
    requires forall i {:trigger StepOf(steps[i], w)} :: a <= i < c && StepOf(steps[i], w) && WorkerAt(run[i], w).Create? ==> ErrorFree(steps[i])
    ensures a <= d <= c && (WorkerAt(run[d], w).CheckPod? || WorkerAt(run[d], w).Create?)
    ensures WorkerAt(run[d], w).base == WorkerAt(run[a], w).base && Named(WorkerAt(run[d], w), run[a].config.sessionId)
    ensures run[d].config == run[a].config
    ensures WorkerAt(run[d], w).CheckPod? || (d == c && WorkerAt(run[c], w).Create? && Left(WorkerAt(run[c], w)) <= 12 - OwnSteps(steps, w, a, c))
    ensures OwnSteps(steps, w, a, c) >= 12 ==> WorkerAt(run[d], w).CheckPod?
    decreases c
  {
    if a == c { return c; }
    d := ReachesPodCheck(run, steps, w, a, c - 1);
    if WorkerAt(run[d], w).CheckPod? { return; }
    ConfigStays(run[c - 1], steps[c - 1]);
    if StepOf(steps[c - 1], w) { CleanStep(run, steps, w, c - 1); } else { OthersRest(run[c - 1], steps[c - 1], w); }
    d := c;
  }
}
