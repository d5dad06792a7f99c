/** How often a phase is published when one controller reads the current session:
    once, plus once for every publish that could not be recorded. */
module Delivery {
  import opened Wrappers
  import opened Workload
  import opened Session
  import opened Protocol
  import opened Safety
  import opened Phases
  import opened Events

  /** One controller whose session reads are current. */
  ghost predicate CurrentSession(run: seq<State>, steps: seq<Step>) {
    && IsRun(run, steps)
    && forall i {:trigger steps[i]} :: 0 <= i < |steps| ==>
         OnlyWorker(steps[i]) && (steps[i].Read? ==> !run[i].gone && steps[i].version + 1 == |run[i].history|)
  }

  function Count(log: seq<Event>, p: Phase): nat {
    multiset(log)[Event(p, true)]
  }

  ghost predicate Recorded(h: seq<Entry>, p: Phase) {
    exists i :: 0 <= i < |h| && h[i].snap.published == p
  }

  /** The one confirmed publish of p that is recorded or may still be: in the annotation of
      a stored version, or for Terminating by the removal of the session. */
  ghost predicate Settled(s: State, p: Phase) {
    var wk := WorkerAt(s, 0);
    if p == Terminating then s.farewell || (wk.DeleteFinalizer? && wk.confirmed)
    else Recorded(s.history, p) || (wk.Record? && wk.mem.status.phase == p)
  }

  ghost predicate Fresh(s: State, wk: Worker)
    requires |s.history| > 0
  {
    && (wk.Publish? || wk.Record? ==>
          && wk.mem.status == Stored(s).status && wk.mem.published == Stored(s).published
          && wk.mem.published != wk.mem.status.phase)
    && (wk.DeleteStatus? || wk.DeletePublish? || wk.DeleteFinalizer? ==> !s.gone && Stored(s).deleting)
    && (s.farewell ==> s.gone)
  }

  ghost predicate CountOk(s: State, p: Phase) {
    Count(s.log, p) == s.missed[p] + (if Settled(s, p) then 1 else 0)
  }

  /** The current version records the furthest phase recorded so far. */
  ghost predicate AnnotationAdvances(h: seq<Entry>)
    requires |h| > 0
  {
    forall i :: 0 <= i < |h| ==> Rank(h[i].snap.published) <= Rank(Last(h).snap.published)
  }

  ghost predicate CountInv(s: State) {
    && |s.history| > 0
    && s.workers.Keys <= {0}
    && Fresh(s, WorkerAt(s, 0)) && AnnotationAdvances(s.history)
    && forall p :: p != NoPhase ==> CountOk(s, p)
  }

  lemma PublishedBehind(s: State)
    requires Inv(s) && AnnotationInv(s)
    ensures Rank(Stored(s).published) <= Rank(Stored(s).status.phase) && Stored(s).published != Terminating
  {
    var h := s.history;
    var i := |h| - 1;
    var p := h[i].snap.published;
    assert Vouched(h, s.log, i);
    if p != NoPhase {
      var j :| 0 <= j <= i && j < |h| && h[j].snap.status.phase == p;
      RankGrows(h, s.now, j, i);
    }
  }

  /** What a publish does to the log and where it leads. */
  ghost predicate PublishedAs(s: State, o: PublishOutcome, s': State)
    requires WorkerAt(s, 0).Publish? || WorkerAt(s, 0).DeletePublish?
  {
    var wk, wk' := WorkerAt(s, 0), WorkerAt(s', 0);
    var wanted := wk.Publish? || (s.config.events && wk.mem.published != Terminating);
    && s'.history == s.history && s'.gone == s.gone && s'.farewell == s.farewell && s'.missed == s.missed
    && s'.workers == s.workers[0 := wk']
    && s'.log == (if wanted && !o.NotDelivered? then s.log + [Event(wk.mem.status.phase, o.Confirmed?)] else s.log)
    && (wk'.Record? <==> wk.Publish? && o.Confirmed?) && (wk'.Record? ==> wk'.mem == wk.mem)
    && (wk'.DeleteFinalizer? <==> wk.DeletePublish?) && (wk'.DeleteFinalizer? ==> wk'.confirmed == (wanted && o.Confirmed?))
    && !wk'.Publish? && !wk'.DeleteStatus? && !wk'.DeletePublish?
  }

  lemma PublishOutcomes(s: State, o: PublishOutcome)
    requires Enabled(s, PublishCall(0, o))
    ensures PublishedAs(s, o, ApplyPublish(s, 0, o))
  {
  }

  lemma CountPublish(s: State, o: PublishOutcome)
    requires Inv(s) && AnnotationInv(s) && CountInv(s) && Enabled(s, PublishCall(0, o))
    ensures CountInv(ApplyPublish(s, 0, o))
  {
    var s' := ApplyPublish(s, 0, o);
    PublishOutcomes(s, o);
    PublishedBehind(s);
    assert WorkerOk(s.history, s.now, WorkerAt(s, 0));
    forall p | p != NoPhase
      ensures CountOk(s', p)
    {
      assert CountOk(s, p);
      PublishSettles(s, o, s', p);
      PublishCounts(s, s', WorkerAt(s, 0).mem.status.phase, p);
    }
  }

  lemma PublishSettles(s: State, o: PublishOutcome, s': State, p: Phase)
    requires Inv(s) && CountInv(s) && (WorkerAt(s, 0).Publish? || WorkerAt(s, 0).DeletePublish?) && PublishedAs(s, o, s')
    requires WorkerOk(s.history, s.now, WorkerAt(s, 0)) && p != NoPhase
    requires Rank(Stored(s).published) <= Rank(Stored(s).status.phase) && Stored(s).published != Terminating
    ensures var q := WorkerAt(s, 0).mem.status.phase;
            && !Settled(s, q)
            && (Settled(s', p) <==> Settled(s, p) || (p == q && s'.log == s.log + [Event(q, true)]))
  {
    var wk := WorkerAt(s, 0);
    var q := wk.mem.status.phase;
    assert s'.log == s.log + [Event(q, true)] ==> s'.log[|s.log|] == Event(q, true);
    assert !Recorded(s.history, Terminating);
    if wk.Publish? {
      assert SnapshotOk(s.history[wk.base].snap) && !Recorded(s.history, wk.mem.status.phase);
    }
  }

  /** A confirmed publish of q leaves it to be recorded and changes no other count. */
  lemma PublishCounts(s: State, s': State, q: Phase, p: Phase)
    requires CountOk(s, p) && s'.missed == s.missed && !Settled(s, q)
    requires Settled(s', p) <==> Settled(s, p) || (p == q && s'.log == s.log + [Event(q, true)])
    requires s'.log == s.log || s'.log == s.log + [Event(q, true)] || s'.log == s.log + [Event(q, false)]
    ensures CountOk(s', p)
  {
  }

  lemma CountStore(s: State, o: StoreOutcome)
    requires Inv(s) && AnnotationInv(s) && CountInv(s) && Enabled(s, StoreCall(0, o))
    ensures CountInv(ApplyStore(s, 0, o))
  {
    var s' := ApplyStore(s, 0, o);
    StoreOutcomes(s, o);
    PublishedBehind(s);
    assert Fresh(s', WorkerAt(s', 0)) && s'.workers.Keys <= {0};
    forall p | p != NoPhase
      ensures CountOk(s', p)
    {
      assert CountOk(s, p);
      CountStoreOf(s, o, s', p);
    }
  }

  /** The count of one phase, from what the store call did. */
  lemma CountStoreOf(s: State, o: StoreOutcome, s': State, p: Phase)
    requires Inv(s) && CountInv(s) && CallsStore(WorkerAt(s, 0)) && StoredAs(s, o, s') && p != NoPhase
    requires Rank(Stored(s).published) <= Rank(Stored(s).status.phase)
    ensures CountOk(s', p)
  {
    assert CountOk(s, p);
    RecordedAfter(s.history, s'.history, p);
    var wk := WorkerAt(s, 0);
    if wk.Record? && p == wk.mem.status.phase { assert !Recorded(s.history, p); }
  }

  lemma RecordedAfter(h: seq<Entry>, h': seq<Entry>, p: Phase)
    requires |h| > 0 && h <= h' && |h'| <= |h| + 1
    ensures Recorded(h', p) <==> Recorded(h, p) || Last(h').snap.published == p
  {
    if Recorded(h, p) {
      var i :| 0 <= i < |h| && h[i].snap.published == p;
      assert h'[i].snap.published == p;
    }
  }

  /** What a store call does to the annotation, the deletion mark and the missed records. */
  ghost predicate StoredAs(s: State, o: StoreOutcome, s': State)
    requires |s.history| > 0
  {
    var wk, wk' := WorkerAt(s, 0), WorkerAt(s', 0);
    && s.history <= s'.history && |s'.history| <= |s.history| + 1
    && Stored(s').published == (if wk.Record? && !o.Refused? then wk.mem.status.phase else Stored(s).published)
    && Stored(s').deleting == Stored(s).deleting
    && s'.gone == (s.gone || (wk.DeleteFinalizer? && !o.Refused?))
    && s'.farewell == (if wk.DeleteFinalizer? && !o.Refused? then wk.confirmed else s.farewell)
    && s'.missed == (if o.Refused? then s.missed + Unrecorded(wk) else s.missed)
    && s'.log == s.log && s'.workers == s.workers[0 := wk']
    && !wk'.Publish? && !wk'.Record? && !wk'.DeleteStatus? && !wk'.DeleteFinalizer?
    && (wk'.DeletePublish? ==> wk.DeleteStatus?)
  }

  lemma StoreOutcomes(s: State, o: StoreOutcome)
    requires Inv(s) && Enabled(s, StoreCall(0, o))
    ensures StoredAs(s, o, ApplyStore(s, 0, o))
  {
    var wk := WorkerAt(s, 0);
    StoreFrame(s, 0, o);
    HistoryGrows(s, StoreCall(0, o));
    if !o.Refused? { EffectOk(s, wk); }
  }

  lemma CountRead(s: State, i: nat)
    requires Inv(s) && CountInv(s) && Enabled(s, Read(0, i)) && !s.gone && i + 1 == |s.history|
    ensures CountInv(Apply(s, Read(0, i)))
  {
    var s' := Apply(s, Read(0, i));
    forall p | p != NoPhase
      ensures CountOk(s', p)
    {
      assert CountOk(s, p);
    }
  }

  lemma CountQuiet(s: State, step: Step)
    requires Inv(s) && AnnotationInv(s) && CountInv(s) && Enabled(s, step) && QuietCall(step) && step.worker == 0
    ensures CountInv(Apply(s, step))
  {
    var s' := Apply(s, step);
    QuietFrame(s, step);
    PublishedBehind(s);
    forall p | p != NoPhase
      ensures CountOk(s', p)
    {
      assert CountOk(s, p);
    }
  }

  lemma RecordedStays(h: seq<Entry>, h': seq<Entry>, p: Phase)
    requires |h| > 0 && h <= h' && |h'| <= |h| + 1 && Last(h').snap.published == Last(h).snap.published
    ensures Recorded(h', p) <==> Recorded(h, p)
  {
    if Recorded(h, p) {
      var i :| 0 <= i < |h| && h[i].snap.published == p;
      assert h'[i].snap.published == p;
    }
  }

  /** Steps of no reconcile leave the log, the reconciles and all the controller writes alone. */
  lemma EnvironmentFrame(s: State, step: Step)
    requires Enabled(s, step) && forall w :: !StepOf(step, w)
    ensures var s' := Apply(s, step);
            && s'.log == s.log && s'.missed == s.missed && s'.workers == s.workers && s'.farewell == s.farewell
            && |s'.history| > 0 && Stored(s').published == Stored(s).published && Stored(s').status == Stored(s).status
            && (s.gone ==> s'.gone) && (Stored(s).deleting ==> Stored(s').deleting)
            && (s'.gone && !s.gone ==> !Stored(s).finalizer)
  {
    assert !(step.Read? || QuietCall(step) || step.StoreCall? || step.PublishCall?) by {
      if step.Read? || QuietCall(step) || step.StoreCall? || step.PublishCall? { assert StepOf(step, step.worker); }
    }
  }

  lemma EnvironmentCounts(s: State, s': State, p: Phase)
    requires |s.history| > 0 && s.history <= s'.history && |s'.history| <= |s.history| + 1
    requires Stored(s').published == Stored(s).published && CountOk(s, p)
    requires s'.log == s.log && s'.missed == s.missed && s'.workers == s.workers && s'.farewell == s.farewell
    ensures CountOk(s', p)
  {
    RecordedStays(s.history, s'.history, p);
  }

  lemma EnvironmentFresh(s: State, s': State)
    requires Inv(s) && CountInv(s) && |s'.history| > 0 && s'.workers == s.workers && s'.farewell == s.farewell
    requires Stored(s').published == Stored(s).published && Stored(s').status == Stored(s).status
    requires (s.gone ==> s'.gone) && (Stored(s).deleting ==> Stored(s').deleting) && (s'.gone && !s.gone ==> !Stored(s).finalizer)
    ensures Fresh(s', WorkerAt(s', 0))
  {
    assert SnapshotOk(Stored(s));
  }

  lemma CountEnvironment(s: State, step: Step)
    requires Inv(s) && CountInv(s) && Enabled(s, step) && forall w :: !StepOf(step, w)
    ensures CountInv(Apply(s, step))
  {
    var s' := Apply(s, step);
    EnvironmentFrame(s, step);
    HistoryGrows(s, step);
    EnvironmentFresh(s, s');
    forall p | p != NoPhase
      ensures CountOk(s', p)
    {
      assert CountOk(s, p);
      EnvironmentCounts(s, s', p);
    }
  }

  lemma CountStep(s: State, step: Step)
    requires Inv(s) && AnnotationInv(s) && CountInv(s) && Enabled(s, step) && OnlyWorker(step)
    requires step.Read? ==> !s.gone && step.version + 1 == |s.history|
    ensures CountInv(Apply(s, step))
  {
    if step.StoreCall? {
      assert StepOf(step, step.worker);
      CountStore(s, step.store);
    } else if step.PublishCall? {
      assert StepOf(step, step.worker);
      CountPublish(s, step.publish);
    } else if step.Read? {
      assert StepOf(step, step.worker);
      CountRead(s, step.version);
    } else if QuietCall(step) {
      assert StepOf(step, step.worker);
      CountQuiet(s, step);
    } else {
      CountEnvironment(s, step);
    }
  }

  lemma {:induction false} CountRun(run: seq<State>, steps: seq<Step>, n: nat)
    requires CurrentSession(run, steps) && n < |run|
    ensures CountInv(run[n])
  {
    if n > 0 {
      CountRun(run, steps, n - 1);
      AnnotationRun(run, steps, n - 1);
      CountStep(run[n - 1], steps[n - 1]);
    }
  }

  /** Each phase is confirmed exactly as often as its confirmed publishes ended unrecorded (an
      annotation patch, or for Terminating the finalizer removal, that failed or was cut off by
      a crash), and once more if one was recorded or is about to be. So it is confirmed twice
      only after such a miss. */
  lemma PublishedOncePlusMisses(run: seq<State>, steps: seq<Step>, n: nat, p: Phase)
    requires CurrentSession(run, steps) && n < |run| && p != NoPhase
    ensures var s, wk := run[n], WorkerAt(run[n], 0);
            var recorded := if p == Terminating then s.farewell else exists i :: 0 <= i < |s.history| && s.history[i].snap.published == p;
            var pending := if p == Terminating then wk.DeleteFinalizer? && wk.confirmed else wk.Record? && wk.mem.status.phase == p;
            Count(s.log, p) == s.missed[p] + (if recorded || pending then 1 else 0)
    ensures Count(run[n].log, p) <= 1 + run[n].missed[p]
  {
    CountRun(run, steps, n);
    assert CountOk(run[n], p);
  }

  // ---------------------------------------------------------------- Terminating

  /** The annotation never says Terminating, so the delete handler's check for it never
      holds a publish back: every delete reconcile that gets that far publishes. */
  lemma DeleteAlwaysPublishes(run: seq<State>, steps: seq<Step>, n: nat, w: nat)
    requires IsRun(run, steps) && n < |steps| && run[n].config.events
    requires WorkerAt(run[n], w).DeletePublish? && steps[n] == PublishCall(w, Confirmed)
    ensures run[n + 1].log == run[n].log + [Event(Terminating, true)]
  {
    AnnotationRun(run, steps, n);
    var wk := WorkerAt(run[n], w);
    assert WorkerOk(run[n].history, run[n].now, wk);
    assert Vouched(run[n].history, run[n].log, wk.base);
  }

  /** A stored session waiting for its finalizer to go, with no reconcile running. */
  ghost predicate AwaitsDeletion(s: State) {
    Inv(s) && AnnotationInv(s) && WorkerAt(s, 0).Idle? && !s.gone && Stored(s).deleting && s.config.events
  }

  /** The steps lead from state to state, taken by one controller whose session reads are current. */
  ghost predicate Chain(states: seq<State>, steps: seq<Step>) {
    && |states| == |steps| + 1
    && forall i {:trigger steps[i]} :: 0 <= i < |steps| ==> CurrentStep(states[i], steps[i], states[i + 1])
  }

  ghost predicate CurrentStep(s: State, step: Step, s': State) {
    && Enabled(s, step) && s' == Apply(s, step) && OnlyWorker(step)
    && (step.Read? ==> !s.gone && step.version + 1 == |s.history|)
  }

  lemma FourSteps(s0: State, a: Step, s1: State, b: Step, s2: State, c: Step, s3: State, d: Step, s4: State)
    requires CurrentStep(s0, a, s1) && CurrentStep(s1, b, s2) && CurrentStep(s2, c, s3) && CurrentStep(s3, d, s4)
    ensures Chain([s0, s1, s2, s3, s4], [a, b, c, d])
  {
  }

  lemma RunThenChain(run: seq<State>, steps: seq<Step>, states: seq<State>, more: seq<Step>)
    requires CurrentSession(run, steps) && Chain(states, more) && states[0] == run[|steps|]
    ensures CurrentSession(run + states[1..], steps + more)
  {
    var run', steps' := run + states[1..], steps + more;
    assert forall i :: 0 <= i < |states| ==> run'[|steps| + i] == states[i];
    forall i {:trigger steps'[i]} | 0 <= i < |steps'|
      ensures Enabled(run'[i], steps'[i]) && run'[i + 1] == Apply(run'[i], steps'[i]) && OnlyWorker(steps'[i])
      ensures steps'[i].Read? ==> !run'[i].gone && steps'[i].version + 1 == |run'[i].history|
    {
      if i < |steps| {
        assert steps'[i] == steps[i];
      } else {
        assert steps'[i] == more[i - |steps|];
        assert CurrentStep(states[i - |steps|], more[i - |steps|], states[i - |steps| + 1]);
      }
    }
  }

  /** "Terminating is published once" does not hold: a delete reconcile whose finalizer
      removal fails publishes it and leaves the session as it found it, so the next one
      publishes it again, any number of times. */
  lemma FailedDeletionRepeatsTerminating(s: State) returns (states: seq<State>, steps: seq<Step>)
    requires AwaitsDeletion(s)
    ensures steps == [Read(0, |s.history| - 1), StoreCall(0, Applied), PublishCall(0, Confirmed), StoreCall(0, Refused(false))]
    ensures Chain(states, steps) && states[0] == s && AwaitsDeletion(states[4])
    ensures states[4].log == s.log + [Event(Terminating, true)] && states[4].missed == s.missed + multiset{Terminating}
  {
    var s1 := DeleteRead(s);
    var s2 := DeleteStored(s1, Stored(s));
    var s3, s4 := DeletePublished(s2);
    var read := Read(0, |s.history| - 1);
    states, steps := [s, s1, s2, s3, s4], [read, StoreCall(0, Applied), PublishCall(0, Confirmed), StoreCall(0, Refused(false))];
    FourSteps(s, read, s1, StoreCall(0, Applied), s2, PublishCall(0, Confirmed), s3, StoreCall(0, Refused(false)), s4);
  }

  lemma DeleteRead(s: State) returns (s': State)
    requires AwaitsDeletion(s)
    ensures CurrentStep(s, Read(0, |s.history| - 1), s')
    ensures Inv(s') && AnnotationInv(s') && !s'.gone && s'.history == s.history
    ensures s'.log == s.log && s'.missed == s.missed && s'.config == s.config
    ensures WorkerAt(s', 0) == DeleteStatus(|s.history| - 1, Stored(s))
  {
    var read := Read(0, |s.history| - 1);
    s' := Apply(s, read);
    AnnotationStep(s, read);
    StepKeeps(s, read);
  }

  /** Every new session can come to await its deletion. */
  lemma DeletionAwaited(s: State) returns (states: seq<State>, steps: seq<Step>)
    requires Init(s) && s.config.events
    ensures Chain(states, steps) && states[0] == s
    ensures var s' := states[|steps|];
            && |s'.history| > 0 && Stored(s').deleting && !s'.gone && WorkerAt(s', 0).Idle?
            && s'.config == s.config && s'.log == [] && s'.missed == multiset{}
  {
    if s.history[0].snap.finalizer {
      var s1 := DeletionMarked(s);
      states, steps := [s, s1], [UserDelete];
    } else {
      var s1, s2 := FinalizerAdded(s);
      var s3 := DeletionMarked(s2);
      states, steps := [s, s1, s2, s3], [Read(0, 0), StoreCall(0, Applied), UserDelete];
    }
  }

  lemma DeletionMarked(s: State) returns (s': State)
    requires |s.history| > 0 && !s.gone && Stored(s).finalizer && !Stored(s).deleting
    ensures CurrentStep(s, UserDelete, s') && |s'.history| > 0 && Stored(s').deleting
    ensures s' == s.(history := s'.history)
  {
    s' := Apply(s, UserDelete);
  }

  lemma FinalizerAdded(s: State) returns (s1: State, s': State)
    requires Init(s) && !Stored(s).finalizer
    ensures CurrentStep(s, Read(0, 0), s1) && CurrentStep(s1, StoreCall(0, Applied), s')
    ensures |s'.history| > 0 && Stored(s').finalizer && !Stored(s').deleting && WorkerAt(s', 0).Idle?
    ensures s' == s.(history := s'.history, workers := s'.workers)
  {
    s1 := Apply(s, Read(0, 0));
    assert WorkerAt(s1, 0) == AddFinalizer(0) && s1.history == s.history;
    s' := Apply(s1, StoreCall(0, Applied));
  }

  /** From every new session and for every k there is a run, of one controller with current
      reads, that confirms Terminating k times. */
  lemma {:induction false} TerminatingRepeats(s: State, k: nat) returns (run: seq<State>, steps: seq<Step>)
    requires Init(s) && s.config.events
    ensures CurrentSession(run, steps) && run[0] == s && AwaitsDeletion(run[|steps|])
    ensures Count(run[|steps|].log, Terminating) == run[|steps|].missed[Terminating] == k
  {
    var states, more;
    if k == 0 {
      states, more := DeletionAwaited(s);
      run, steps := [s], [];
    } else {
      run, steps := TerminatingRepeats(s, k - 1);
      states, more := FailedDeletionRepeatsTerminating(run[|steps|]);
    }
    RunThenChain(run, steps, states, more);
    run, steps := run + states[1..], steps + more;
    AnnotationRun(run, steps, |steps|);
  }

  lemma DeletePublished(s: State) returns (s1: State, s': State)
    requires Inv(s) && AnnotationInv(s) && !s.gone && Stored(s).deleting && s.config.events
    requires var wk := WorkerAt(s, 0);
             wk.DeletePublish? && wk.mem.published != Terminating && wk.mem.status.phase == Terminating
    ensures Enabled(s, PublishCall(0, Confirmed)) && s1 == Apply(s, PublishCall(0, Confirmed))
    ensures Enabled(s1, StoreCall(0, Refused(false))) && s' == Apply(s1, StoreCall(0, Refused(false)))
    ensures AwaitsDeletion(s')
    ensures s'.log == s.log + [Event(Terminating, true)] && s'.missed == s.missed + multiset{Terminating}
  {
    s1 := Apply(s, PublishCall(0, Confirmed));
    AnnotationStep(s, PublishCall(0, Confirmed));
    StepKeeps(s, PublishCall(0, Confirmed));
    s' := Apply(s1, StoreCall(0, Refused(false)));
    AnnotationStep(s1, StoreCall(0, Refused(false)));
    StepKeeps(s1, StoreCall(0, Refused(false)));
  }

  lemma DeleteStored(s: State, mem: Snapshot) returns (s': State)
    requires Inv(s) && AnnotationInv(s) && !s.gone && Stored(s) == mem && mem.deleting
    requires WorkerAt(s, 0) == DeleteStatus(|s.history| - 1, mem)
    ensures Enabled(s, StoreCall(0, Applied)) && s' == Apply(s, StoreCall(0, Applied))
    ensures Inv(s') && AnnotationInv(s') && !s'.gone && Stored(s').deleting
    ensures s'.log == s.log && s'.missed == s.missed && s'.config == s.config
    ensures var wk := WorkerAt(s', 0);
            wk.DeletePublish? && wk.mem.published != Terminating && wk.mem.status.phase == Terminating
  {
    s' := Apply(s, StoreCall(0, Applied));
    StepKeeps(s, StoreCall(0, Applied));
    AnnotationStep(s, StoreCall(0, Applied));
    EffectOk(s, WorkerAt(s, 0));
    assert Vouched(s'.history, s'.log, |s'.history| - 1);
  }
}
