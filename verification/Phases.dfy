/** Whole-run results about the stored session: which phases it goes through, what
    every stored status says, and when it may fail. */
module Phases {
  import opened Wrappers
  import opened Workload
  import opened Session
  import opened Protocol
  import opened Safety

  function Stored(s: State): Snapshot
    requires |s.history| > 0
  {
    Last(s.history).snap
  }

  /** The documented phase changes. */
  predicate AllowedEdge(p: Phase, q: Phase) {
    || (p == NoPhase && q == Creating)
    || (p == Pending && q == Creating)
    || (p == Creating && q == Running)
    || (p == Creating && q == Failed)
    || (p == Running && q == Failed)
    || q == Terminating
  }

  lemma HistoryGrows(s: State, step: Step)
    requires Inv(s) && Enabled(s, step)
    ensures var s' := Apply(s, step);
            s.history <= s'.history && |s'.history| <= |s.history| + 1 && s.now <= s'.now
  {
    if step.StoreCall? { StoreGrows(s, step.worker, step.store); }
  }

  lemma StoreGrows(s: State, w: nat, o: StoreOutcome)
    requires Enabled(s, StoreCall(w, o))
    ensures var s' := ApplyStore(s, w, o);
            s.history <= s'.history && |s'.history| <= |s.history| + 1 && s.now == s'.now
  {
    var wk := WorkerAt(s, w);
    var s1 := if o.Refused? then s.(missed := s.missed + Unrecorded(wk)) else Effect(s, wk);
    assert s.history <= s1.history && |s1.history| <= |s.history| + 1;
  }

  lemma {:induction false} RunGrows(run: seq<State>, steps: seq<Step>, m: nat, n: nat)
    requires IsRun(run, steps) && m <= n < |run|
    ensures Inv(run[m]) && Inv(run[n]) && run[m].history <= run[n].history
  {
    RunKeeps(run, steps, m);
    RunKeeps(run, steps, n);
    if m < n {
      RunGrows(run, steps, m, n - 1);
      HistoryGrows(run[n - 1], steps[n - 1]);
    }
  }

  lemma OneVersion(h: seq<Entry>, h': seq<Entry>, now: nat)
    requires |h| > 0 && h <= h' && |h'| <= |h| + 1 && HistoryOk(h', now)
    ensures h' == h || Legal(Last(h), Last(h'))
  {
    if |h'| == |h| + 1 { assert Legal(h'[|h| - 1], h'[|h|]); }
  }

  /** Every step leaves the stored phase or moves it along a documented edge, and to
      Terminating only once deletion is marked. */
  lemma PhaseFollowsEdges(run: seq<State>, steps: seq<Step>, n: nat)
    requires IsRun(run, steps) && n < |steps|
    ensures |run[n].history| > 0 && |run[n + 1].history| > 0
    ensures var a, b := Stored(run[n]), Stored(run[n + 1]);
            a.status.phase != b.status.phase ==>
              AllowedEdge(a.status.phase, b.status.phase) && (b.status.phase == Terminating ==> a.deleting)
  {
    RunGrows(run, steps, n, n + 1);
    HistoryGrows(run[n], steps[n]);
    EdgeTaken(run[n].history, run[n + 1].history, run[n + 1].now);
  }

  lemma EdgeTaken(h: seq<Entry>, h': seq<Entry>, now: nat)
    requires |h| > 0 && h <= h' && |h'| <= |h| + 1 && HistoryOk(h', now)
    ensures var a, b := Last(h).snap, Last(h').snap;
            a.status.phase != b.status.phase ==>
              AllowedEdge(a.status.phase, b.status.phase) && (b.status.phase == Terminating ==> a.deleting)
  {
    OneVersion(h, h', now);
  }

  lemma {:induction false} RankGrows(h: seq<Entry>, now: nat, i: nat, j: nat)
    requires HistoryOk(h, now) && i <= j < |h|
    ensures h[i].at <= h[j].at
    ensures Rank(h[i].snap.status.phase) <= Rank(h[j].snap.status.phase)
    ensures h[i].snap.deleting ==> h[j].snap.deleting
    ensures h[i].snap.status.startTime.Some? ==> h[j].snap.status.startTime == h[i].snap.status.startTime
  {
    if i < j { RankGrows(h, now, i, j - 1); }
  }

  /** The rank of the stored phase never decreases, Terminating and the deletion mark
      are never left, and the start time never changes once set. */
  lemma PhaseNeverGoesBack(run: seq<State>, steps: seq<Step>, m: nat, n: nat)
    requires IsRun(run, steps) && m <= n < |run|
    ensures |run[m].history| > 0 && |run[n].history| > 0
    ensures var a, b := Stored(run[m]), Stored(run[n]);
            && Rank(a.status.phase) <= Rank(b.status.phase)
            && (a.status.phase == Terminating ==> b.status.phase == Terminating)
            && (a.deleting ==> b.deleting)
            && (a.status.startTime.Some? ==> b.status.startTime == a.status.startTime)
  {
    RunGrows(run, steps, m, n);
    RankGrows(run[n].history, run[n].now, |run[m].history| - 1, |run[n].history| - 1);
  }

  ghost predicate ExactlyOne(conditions: seq<Condition>, kind: ConditionType) {
    exists i :: 0 <= i < |conditions| && conditions[i].kind == kind
             && forall j :: 0 <= j < |conditions| && j != i ==> conditions[j].kind != kind
  }

  ghost predicate Says(conditions: seq<Condition>, kind: ConditionType, value: bool) {
    exists i :: 0 <= i < |conditions| && conditions[i].kind == kind && conditions[i].isTrue == value
  }

  lemma {:induction false} FindIndex(cs: seq<Condition>, kind: ConditionType) returns (i: nat)
    requires Find(cs, kind).Some?
    ensures i < |cs| && cs[i] == Find(cs, kind).value && cs[i].kind == kind
  {
    if cs[0].kind == kind { return 0; }
    i := FindIndex(cs[1..], kind);
    i := i + 1;
  }

  /** What a stored status of each phase says. */
  ghost predicate Promises(st: Status) {
    && (forall i, j :: 0 <= i < j < |st.conditions| ==> st.conditions[i].kind != st.conditions[j].kind)
    && (st.phase == Creating ==> st.startTime.Some?)
    && (st.phase == Running ==>
          && st.podName != "" && st.serviceName != "" && ExactlyOne(st.conditions, PodReady)
          && Says(st.conditions, Ready, true) && st.usage.running)
    && (st.phase == Failed ==> Says(st.conditions, Ready, false))
    && (st.phase == Terminating ==> st.usage == NO_USAGE)
  }

  lemma StatusKeepsPromises(run: seq<State>, steps: seq<Step>, n: nat)
    requires IsRun(run, steps) && n < |run|
    ensures |run[n].history| > 0 && Promises(Stored(run[n]).status)
  {
    RunKeeps(run, steps, n);
    var st := Stored(run[n]).status;
    if st.phase == Running {
      var i := FindIndex(st.conditions, PodReady);
    }
    if st.phase == Running || st.phase == Failed {
      var i := FindIndex(st.conditions, Ready);
      assert st.conditions[i].isTrue == (st.phase == Running);
    }
  }

  // ---------------------------------------------------------------- failing

  /** A stored Failed status goes back to the version that was replaced by it. */
  lemma {:induction false} FailureOrigin(h: seq<Entry>, now: nat, k: nat) returns (f: nat)
    requires HistoryOk(h, now) && k < |h| && h[0].snap.status.phase != Failed && h[k].snap.status.phase == Failed
    ensures f < k && h[f].snap.status.phase != Failed
    ensures h[f + 1].snap.status == h[k].snap.status
    ensures Justified(h[f].snap, h[k].snap.status.reason, h[f + 1].at)
  {
    assert Legal(h[k - 1], h[k]);
    if h[k - 1].snap.status.phase == Failed {
      f := FailureOrigin(h, now, k - 1);
    } else {
      f := k - 1;
    }
  }

  /** If PodReady is False since t in version m, every version written after t and up
      to m says the same: no recovery was recorded in between. */
  lemma {:induction false} NoRecoverySince(h: seq<Entry>, now: nat, j: nat, m: nat)
    requires HistoryOk(h, now) && j <= m < |h|
    requires Find(h[m].snap.status.conditions, PodReady).Some?
    requires h[j].at > Find(h[m].snap.status.conditions, PodReady).value.since
    ensures Find(h[j].snap.status.conditions, PodReady) == Find(h[m].snap.status.conditions, PodReady)
  {
    if j < m {
      assert Legal(h[m - 1], h[m]);
      RankGrows(h, now, j, m - 1);
      NoRecoverySince(h, now, j, m - 1);
    }
  }

  lemma InitialHistory(run: seq<State>, steps: seq<Step>, n: nat)
    requires IsRun(run, steps) && n < |run|
    ensures Inv(run[n]) && run[n].history[0] == run[0].history[0]
  {
    RunGrows(run, steps, 0, n);
  }

  /** A session stored as failed for unreadiness had PodReady=False stored with a
      transition more than podUnreadyTimeout before the failing write, and every version
      stored after that transition still said so. */
  lemma UnreadyFailureWasEarned(run: seq<State>, steps: seq<Step>, n: nat) returns (f: nat)
    requires IsRun(run, steps) && n < |run|
    requires |run[n].history| > 0 && Stored(run[n]).status.phase == Failed && Stored(run[n]).status.reason == PodUnready
    ensures var h := run[n].history;
            && f + 1 < |h| && h[f].snap.status.phase == Running && h[f + 1].snap.status.phase == Failed
            && var c := Find(h[f].snap.status.conditions, PodReady);
            && c.Some? && !c.value.isTrue && h[f + 1].at > c.value.since + 120
            && forall j :: 0 <= j <= f && h[j].at > c.value.since ==> Find(h[j].snap.status.conditions, PodReady) == c
  {
    InitialHistory(run, steps, n);
    var h := run[n].history;
    f := FailureOrigin(h, run[n].now, |h| - 1);
    var c := Find(h[f].snap.status.conditions, PodReady);
    forall j | 0 <= j <= f && h[j].at > c.value.since
      ensures Find(h[j].snap.status.conditions, PodReady) == c
    {
      NoRecoverySince(h, run[n].now, j, f);
    }
  }

  /** The version that first has a start time has one between the times the version before it
      and it itself were stored. */
  lemma {:induction false} StartTimeIsWhenStored(h: seq<Entry>, now: nat, k: nat) returns (i: nat)
    requires HistoryOk(h, now) && k < |h| && h[0].snap.status.startTime.None? && h[k].snap.status.startTime.Some?
    ensures 0 < i <= k && h[i - 1].snap.status.startTime.None? && h[i].snap.status.startTime == h[k].snap.status.startTime
    ensures h[i - 1].at <= h[k].snap.status.startTime.value <= h[i].at
  {
    assert Legal(h[k - 1], h[k]);
    if h[k - 1].snap.status.startTime.Some? {
      i := StartTimeIsWhenStored(h, now, k - 1);
    } else {
      i := k;
    }
  }

  /** A session stored as failed by a create step met an error that retrying cannot help, or any
      error in the SSH Secret step, or failed more than 600 seconds after its start time. */
  lemma CreateFailureWasEarned(run: seq<State>, steps: seq<Step>, n: nat)
    requires IsRun(run, steps) && n < |run|
    requires |run[n].history| > 0 && Stored(run[n]).status.phase == Failed && Stored(run[n]).status.reason.CreateFailed?
    ensures var st := Stored(run[n]).status;
            && st.startTime.Some?
            && (st.reason.error.Transient? && st.reason.slot != 2 ==> run[n].now > st.startTime.value + 600)
  {
    InitialHistory(run, steps, n);
    var h := run[n].history;
    var f := FailureOrigin(h, run[n].now, |h| - 1);
    RankGrows(h, run[n].now, f, |h| - 1);
    RankGrows(h, run[n].now, f + 1, |h| - 1);
  }

  /** A transient error outside the SSH Secret step fails no session within ten minutes: the
      failing version f + 1 was stored more than 600 seconds after i, the one that made it
      Creating, was decided, and so after the version before that was stored. */
  lemma TransientFailureIsLate(run: seq<State>, steps: seq<Step>, n: nat) returns (i: nat, f: nat)
    requires IsRun(run, steps) && n < |run|
    requires |run[n].history| > 0 && Stored(run[n]).status.phase == Failed
    requires Stored(run[n]).status.reason.CreateFailed? && Stored(run[n]).status.reason.error.Transient?
    requires Stored(run[n]).status.reason.slot != 2
    ensures var h := run[n].history;
            && 0 < i <= f < |h| - 1 && h[i].snap.status.startTime.Some? && h[i - 1].snap.status.startTime.None?
            && h[i - 1].at <= h[i].snap.status.startTime.value <= h[i].at
            && h[f].snap.status.phase == Creating && h[f + 1].snap.status.phase == Failed
            && h[f + 1].at > h[i].snap.status.startTime.value + 600 >= h[i - 1].at + 600
  {
    InitialHistory(run, steps, n);
    var h := run[n].history;
    f := FailureOrigin(h, run[n].now, |h| - 1);
    assert SnapshotOk(h[f].snap);
    i := StartTimeIsWhenStored(h, run[n].now, f);
  }

  // ---------------------------------------------------------------- failing, forwards

  predicate StepOf(step: Step, w: nat) {
    (step.Read? || step.Crash? || step.StoreCall? || step.PublishCall? || step.GetCall? || step.CreateCall?
     || step.PodCall? || step.TimeoutCheck?) && step.worker == w
  }

  ghost predicate Rests(steps: seq<Step>, w: nat, m: nat, n: nat) {
    n <= |steps| && forall i :: m <= i < n ==> !StepOf(steps[i], w)
  }

  /** The calls that touch neither the stored session nor the bus. */
  predicate QuietCall(step: Step) {
    step.GetCall? || step.CreateCall? || step.PodCall? || step.TimeoutCheck? || step.Crash?
  }

  predicate Quiet(wk: Worker) {
    wk.Idle? || wk.Create? || wk.CheckPod? || wk.CheckUnready? || wk.Write?
  }

  lemma QuietFrame(s: State, step: Step)
    requires Enabled(s, step) && QuietCall(step)
    ensures var s' := Apply(s, step);
            && s'.history == s.history && s'.gone == s.gone && s'.farewell == s.farewell && s'.log == s.log && s'.cached == s.cached && s'.now == s.now
            && (!step.Crash? ==> s'.missed == s.missed)
            && s'.workers == s.workers[step.worker := WorkerAt(s', step.worker)] && Quiet(WorkerAt(s', step.worker))
  {
    match step
    case GetCall(w, g, pod) => assert Quiet(WorkerAt(ApplyGet(s, w, g, pod), w));
    case CreateCall(w, c, key, pod) => assert Quiet(WorkerAt(ApplyCreate(s, w, c, key, pod), w));
    case PodCall(w, look, pod) =>
    case TimeoutCheck(w, pod) =>
    case Crash(w) =>
  }

  /** A reconcile that is not in the middle of its create calls. */
  predicate NotCreating(wk: Worker) {
    (wk.Create? ==> wk.slot == VM_DATA && !wk.missing) && !wk.CheckPod?
  }

  lemma StoreMoves(s: State, wk: Worker, o: StoreOutcome)
    requires |s.history| > 0 && CallsStore(wk)
    ensures var wk' := AfterStore(s, wk, o);
            NotCreating(wk') && !wk'.Publish? && !wk'.Record? && !wk'.DeleteStatus? && !wk'.DeleteFinalizer?
  {
  }

  /** A store call touches only the stored session and the reconcile that made it. */
  lemma StoreFrame(s: State, w: nat, o: StoreOutcome)
    requires Enabled(s, StoreCall(w, o))
    ensures var s' := ApplyStore(s, w, o);
            && s'.objects == s.objects && s'.past == s.past && s'.creates == s.creates
            && s'.log == s.log && s'.cached == s.cached && s'.now == s.now
            && s'.workers == s.workers[w := WorkerAt(s', w)]
            && var wk := WorkerAt(s', w);
            && NotCreating(wk) && !wk.Publish? && !wk.Record? && !wk.DeleteStatus? && !wk.DeleteFinalizer?
  {
    var wk := WorkerAt(s, w);
    var s1 := if o.Refused? then s.(missed := s.missed + Unrecorded(wk)) else Effect(s, wk);
    assert s1 == s.(history := s1.history, gone := s1.gone, farewell := s1.farewell, missed := s1.missed);
    StoreMoves(s1, wk, o);
  }

  lemma ConfigStays(s: State, step: Step)
    requires Enabled(s, step)
    ensures Apply(s, step).config == s.config
  {
    if step.StoreCall? {
      var wk := WorkerAt(s, step.worker);
      assert step.store.Refused? || Effect(s, wk).config == s.config;
    }
  }

  lemma OthersRest(s: State, step: Step, w: nat)
    requires Enabled(s, step) && !StepOf(step, w)
    ensures WorkerAt(Apply(s, step), w) == WorkerAt(s, w)
  {
    if step.StoreCall? {
      StoreFrame(s, step.worker, step.store);
    }
  }

  /** Only its own steps move a reconcile. */
  lemma {:induction false} WorkerRests(run: seq<State>, steps: seq<Step>, w: nat, m: nat, n: nat)
    requires IsRun(run, steps) && m <= n < |run| && Rests(steps, w, m, n)
    ensures WorkerAt(run[n], w) == WorkerAt(run[m], w)
  {
    if m < n {
      WorkerRests(run, steps, w, m, n - 1);
      OthersRest(run[n - 1], steps[n - 1], w);
    }
  }

  lemma WriteLands(run: seq<State>, steps: seq<Step>, w: nat, n: nat)
    requires IsRun(run, steps) && n < |steps|
    requires WorkerAt(run[n], w).Write? && steps[n] == StoreCall(w, Applied)
    ensures |run[n + 1].history| > 0 && Stored(run[n + 1]).status == WorkerAt(run[n], w).status
  {
    RunKeeps(run, steps, n);
    EffectOk(run[n], WorkerAt(run[n], w));
  }

  /** The error a create step of worker w meets at this step, if any. */
  function MetError(s: State, step: Step, w: nat): Option<ApiError> {
    if step.GetCall? && step.worker == w then
      if step.get.GetError? then Some(step.get.error)
      else if step.get.Found? && !step.get.obj.mine then Some(NotOwned) else None
    else if step.CreateCall? && step.worker == w && (step.create.CreateLost? || step.create.CreateError?) then
      Some(step.create.error)
    else None
  }

  /** An error retrying cannot help, any error in the SSH Secret step, or one that comes more
      than 600 seconds after the start time. */
  predicate Final(slot: int, e: ApiError, start: Option<nat>, now: nat) {
    e.Invalid? || e.BadRequest? || e.NotOwned? || slot == 2 || (start.Some? && now > start.value + 600)
  }

  lemma CreateErrorStep(s: State, step: Step, w: nat)
    requires Inv(s) && Enabled(s, step) && WorkerAt(s, w).Create? && MetError(s, step, w).Some?
    ensures WorkerAt(s, w).mem.status.startTime.Some? && Apply(s, step).history == s.history
    ensures var wk, e, wk' := WorkerAt(s, w), MetError(s, step, w).value, WorkerAt(Apply(s, step), w);
            if Final(wk.slot, e, wk.mem.status.startTime, s.now)
            then wk'.Write? && wk'.base == wk.base && wk'.status.phase == Failed && wk'.status.reason == CreateFailed(wk.slot, e)
            else wk'.Idle?
  {
    assert WorkerOk(s.history, s.now, WorkerAt(s, w));
  }

  /** After an error in a create step the reconcile is about to fail the session exactly when
      retrying cannot help (the object is invalid, the request bad or the object another's), in
      the SSH Secret step, or more than 600 seconds after the start time; the session is Failed
      once that write succeeds. After any other error it stops and nothing is written. */
  lemma CreateErrorOutcome(run: seq<State>, steps: seq<Step>, w: nat, a: nat, c: nat)
    requires IsRun(run, steps) && a < c <= |steps|
    requires WorkerAt(run[a], w).Create? && MetError(run[a], steps[a], w).Some?
    requires Rests(steps, w, a + 1, c)
    ensures var wk, e, wk' := WorkerAt(run[a], w), MetError(run[a], steps[a], w).value, WorkerAt(run[c], w);
            && wk.mem.status.startTime.Some? && run[a + 1].history == run[a].history
            && if e.Invalid? || e.BadRequest? || e.NotOwned? || wk.slot == 2 || run[a].now > wk.mem.status.startTime.value + 600
               then && wk'.Write? && wk'.base == wk.base && wk'.status.phase == Failed && wk'.status.reason == CreateFailed(wk.slot, e)
                    && (c < |steps| && steps[c] == StoreCall(w, Applied) ==>
                          |run[c + 1].history| > 0 && Stored(run[c + 1]).status == wk'.status)
               else wk'.Idle?
  {
    RunKeeps(run, steps, a);
    CreateErrorStep(run[a], steps[a], w);
    WorkerRests(run, steps, w, a + 1, c);
    if WorkerAt(run[c], w).Write? && c < |steps| && steps[c] == StoreCall(w, Applied) {
      WriteLands(run, steps, w, c);
    }
  }

  // ---------------------------------------------------------------- deletion

  /** Every create call is made for a version that carried the finalizer, and a version that
      carries it disappears only once deletion is marked. */
  lemma FinalizerGuards(run: seq<State>, steps: seq<Step>, n: nat)
    requires IsRun(run, steps) && n < |steps| && |run[n].history| > 0
    ensures steps[n].CreateCall? ==>
              var wk := WorkerAt(run[n], steps[n].worker);
              wk.Create? && wk.base < |run[n].history| && run[n].history[wk.base].snap.finalizer
    ensures run[n + 1].gone && !run[n].gone ==> Stored(run[n]).deleting || !Stored(run[n]).finalizer
  {
    RunKeeps(run, steps, n);
    if steps[n].StoreCall? {
      GoneByFinalizer(run[n], steps[n].worker, steps[n].store);
    }
  }

  lemma GoneByFinalizer(s: State, w: nat, o: StoreOutcome)
    requires Inv(s) && Enabled(s, StoreCall(w, o))
    ensures !s.gone && ApplyStore(s, w, o).gone ==> Stored(s).deleting
  {
    assert WorkerOk(s.history, s.now, WorkerAt(s, w));
  }

  /** Deletion does not wait for the status write or the broker: whatever their outcome,
      short of the session being gone already, the reconcile goes on to the finalizer, and
      once that update succeeds the session is gone. */
  lemma DeletionProceeds(run: seq<State>, steps: seq<Step>, w: nat, a: nat, b: nat, c: nat, o: StoreOutcome, p: PublishOutcome)
    requires IsRun(run, steps) && a < b < c < |steps|
    requires WorkerAt(run[a], w).DeleteStatus? && steps[a] == StoreCall(w, o) && !(o.Refused? && o.notFound)
    requires Rests(steps, w, a + 1, b) && steps[b] == PublishCall(w, p) && Rests(steps, w, b + 1, c)
    ensures WorkerAt(run[c], w).DeleteFinalizer?
    ensures steps[c] == StoreCall(w, Applied) ==> run[c + 1].gone
  {
    WorkerRests(run, steps, w, a + 1, b);
    WorkerRests(run, steps, w, b + 1, c);
  }
}
