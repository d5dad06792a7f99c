/** What reaches the event bus over whole runs: order, duplicates and the
    published-phase annotation. */
module Events {
  import opened Wrappers
  import opened Workload
  import opened Session
  import opened Protocol
  import opened Safety
  import opened Phases

  // ---------------------------------------------------------------- event identity

  function PhaseName(p: Phase): string {
    match p
    case NoPhase => ""
    case Pending => "Pending"
    case Creating => "Creating"
    case Running => "Running"
    case Failed => "Failed"
    case Terminating => "Terminating"
  }

  function EventId(uid: string, p: Phase): string {
    uid + "." + PhaseName(p)
  }

  lemma NameLengths(p: Phase, q: Phase)
    ensures '.' !in PhaseName(p)
    ensures PhaseName(p) == PhaseName(q) ==> p == q
  {
  }

  /** No phase name contains a dot, so an event ID determines the UID and the phase. */
  lemma EventIdInjective(uid: string, p: Phase, uid': string, q: Phase)
    ensures EventId(uid, p) == EventId(uid', q) <==> uid == uid' && p == q
  {
    if EventId(uid, p) == EventId(uid', q) {
      var id := EventId(uid, p);
      var n, n' := PhaseName(p), PhaseName(q);
      assert id[|uid|] == '.' && id[|uid'|] == '.';
      assert id[|uid| + 1..] == n && id[|uid'| + 1..] == n';
      assert |uid| < |uid'| ==> n[|uid'| - |uid| - 1] == '.';
      assert |uid'| < |uid| ==> n'[|uid| - |uid'| - 1] == '.';
      NameLengths(p, q);
      NameLengths(q, p);
      assert uid == id[..|uid|] && uid' == id[..|uid'|];
    }
  }

  predicate KeptFor(uid: string, e: Event, kept: seq<Event>) {
    exists k :: 0 <= k < |kept| && EventId(uid, kept[k].phase) == EventId(uid, e.phase)
  }

  /** The log without the events whose ID was seen before, as a consumer keeps it. */
  function Deduplicated(uid: string, log: seq<Event>): (kept: seq<Event>)
    ensures forall e :: e in kept ==> e in log
  {
    if log == [] then []
    else
      var e, kept := log[|log| - 1], Deduplicated(uid, log[..|log| - 1]);
      if KeptFor(uid, e, kept) then kept else kept + [e]
  }

  /** Every event is kept or has its ID kept before it, so nothing but repeats is dropped. */
  lemma {:induction false} DropsOnlyRepeats(uid: string, log: seq<Event>, i: nat)
    requires i < |log|
    ensures KeptFor(uid, log[i], Deduplicated(uid, log[..i + 1])) && KeptFor(uid, log[i], Deduplicated(uid, log))
    ensures Deduplicated(uid, log[..i + 1]) <= Deduplicated(uid, log)
    decreases |log|
  {
    var front, e := log[..|log| - 1], log[|log| - 1];
    var kept := Deduplicated(uid, front);
    if i == |log| - 1 {
      assert log[..i + 1] == log;
      if !KeptFor(uid, e, kept) { assert (kept + [e])[|kept|] == e; }
    } else {
      DropsOnlyRepeats(uid, front, i);
      assert front[..i + 1] == log[..i + 1];
      var k :| 0 <= k < |kept| && EventId(uid, kept[k].phase) == EventId(uid, log[i].phase);
      assert (kept + [e])[k] == kept[k] && kept <= kept + [e];
    }
  }

  ghost predicate RankSorted(log: seq<Event>) {
    forall i, j :: 0 <= i < j < |log| ==> Rank(log[i].phase) <= Rank(log[j].phase)
  }

  ghost predicate RankStrict(log: seq<Event>) {
    forall i, j :: 0 <= i < j < |log| ==> Rank(log[i].phase) < Rank(log[j].phase)
  }

  lemma {:induction false} SortedDeduplicatesStrictly(uid: string, log: seq<Event>)
    requires RankSorted(log)
    ensures RankStrict(Deduplicated(uid, log))
  {
    if log != [] {
      var front, e := log[..|log| - 1], log[|log| - 1];
      SortedDeduplicatesStrictly(uid, front);
      var kept := Deduplicated(uid, front);
      forall k | 0 <= k < |kept|
        ensures Rank(kept[k].phase) <= Rank(e.phase)
        ensures EventId(uid, kept[k].phase) != EventId(uid, e.phase) ==> Rank(kept[k].phase) < Rank(e.phase)
      {
        assert kept[k] in front;
        EventIdInjective(uid, kept[k].phase, uid, e.phase);
      }
    }
  }

  // ---------------------------------------------------------------- the annotation

  ghost predicate WasStored(h: seq<Entry>, i: nat, p: Phase) {
    exists j :: 0 <= j <= i && j < |h| && h[j].snap.status.phase == p
  }

  ghost predicate Vouched(h: seq<Entry>, log: seq<Event>, i: nat)
    requires i < |h|
  {
    var p := h[i].snap.published;
    p == NoPhase || (p != Terminating && Event(p, true) in log && WasStored(h, i, p))
  }

  ghost predicate AnnotationInv(s: State) {
    && (forall i :: 0 <= i < |s.history| ==> Vouched(s.history, s.log, i))
    && (forall w :: w in s.workers && s.workers[w].Record? ==> Event(s.workers[w].mem.status.phase, true) in s.log)
  }

  lemma VouchedStays(h: seq<Entry>, log: seq<Event>, h': seq<Entry>, log': seq<Event>, i: nat)
    requires i < |h| && Vouched(h, log, i) && h <= h' && log <= log'
    ensures Vouched(h', log', i)
  {
    var p := h[i].snap.published;
    if p != NoPhase {
      var j :| 0 <= j <= i && h[j].snap.status.phase == p;
      assert h'[j].snap.status.phase == p;
    }
  }

  /** How a step touches the log and the reconciles that are about to record. */
  lemma LogFrame(s: State, step: Step)
    requires Inv(s) && Enabled(s, step)
    ensures var s' := Apply(s, step);
            && s.log <= s'.log && (!step.PublishCall? ==> s'.log == s.log)
            && (forall w :: w in s'.workers && s'.workers[w].Record? ==>
                  || (w in s.workers && s'.workers[w] == s.workers[w])
                  || (Event(s'.workers[w].mem.status.phase, true) in s'.log))
  {
    if step.StoreCall? {
      StoreFrame(s, step.worker, step.store);
    } else if QuietCall(step) {
      QuietFrame(s, step);
    } else if step.PublishCall? {
      PublishFrame(s, step.worker, step.publish);
    }
  }

  lemma PublishFrame(s: State, w: nat, o: PublishOutcome)
    requires Enabled(s, PublishCall(w, o))
    ensures var s' := ApplyPublish(s, w, o);
            && s.log <= s'.log && s'.workers == s.workers[w := WorkerAt(s', w)]
            && (WorkerAt(s', w).Record? ==> Event(WorkerAt(s', w).mem.status.phase, true) in s'.log)
  {
    var s' := ApplyPublish(s, w, o);
    if WorkerAt(s', w).Record? { assert s'.log[|s.log|] == Event(WorkerAt(s, w).mem.status.phase, true); }
  }

  lemma NewVersion(s: State, step: Step)
    requires Inv(s) && Enabled(s, step)
    ensures var h, h' := s.history, Apply(s, step).history;
            h' == h || (|h'| == |h| + 1 && h <= h' &&
              (h'[|h|].snap.published == h[|h| - 1].snap.published
               || (step.StoreCall? && WorkerAt(s, step.worker).Record?
                   && h'[|h|].snap.published == WorkerAt(s, step.worker).mem.status.phase)))
  {
    HistoryGrows(s, step);
    if step.StoreCall? && !step.store.Refused? {
      EffectOk(s, WorkerAt(s, step.worker));
    }
  }

  lemma NewVersionVouched(s: State, step: Step)
    requires Inv(s) && AnnotationInv(s) && Enabled(s, step) && |Apply(s, step).history| > |s.history|
    ensures Vouched(Apply(s, step).history, s.log, |s.history|)
  {
    var h, h' := s.history, Apply(s, step).history;
    NewVersion(s, step);
    if h'[|h|].snap.published == h[|h| - 1].snap.published {
      VouchedStays(h, s.log, h', s.log, |h| - 1);
    } else {
      var wk := WorkerAt(s, step.worker);
      assert WorkerOk(h, s.now, wk);
      assert h'[wk.base].snap.status.phase == h'[|h|].snap.published;
    }
  }

  lemma AnnotationStep(s: State, step: Step)
    requires Inv(s) && AnnotationInv(s) && Enabled(s, step)
    ensures AnnotationInv(Apply(s, step))
  {
    var s' := Apply(s, step);
    LogFrame(s, step);
    NewVersion(s, step);
    forall i | 0 <= i < |s'.history|
      ensures Vouched(s'.history, s'.log, i)
    {
      if i < |s.history| {
        VouchedStays(s.history, s.log, s'.history, s'.log, i);
      } else {
        NewVersionVouched(s, step);
        VouchedStays(s'.history, s.log, s'.history, s'.log, i);
      }
    }
  }

  lemma AnnotationInit(s: State)
    requires Init(s)
    ensures AnnotationInv(s)
  {
    assert Vouched(s.history, s.log, 0);
  }

  lemma {:induction false} AnnotationRun(run: seq<State>, steps: seq<Step>, n: nat)
    requires IsRun(run, steps) && n < |run|
    ensures Inv(run[n]) && AnnotationInv(run[n])
  {
    RunKeeps(run, steps, n);
    if n == 0 {
      AnnotationInit(run[0]);
    } else {
      AnnotationRun(run, steps, n - 1);
      AnnotationStep(run[n - 1], steps[n - 1]);
    }
  }

  /** A stored published-phase was confirmed by the broker and was itself stored, by the
      time the annotation was; Terminating is never recorded. */
  lemma AnnotationMeansConfirmed(run: seq<State>, steps: seq<Step>, n: nat, i: nat)
    requires IsRun(run, steps) && n < |run| && i < |run[n].history|
    ensures var p := run[n].history[i].snap.published;
            p == NoPhase || (p != Terminating && Event(p, true) in run[n].log && WasStored(run[n].history, i, p))
  {
    AnnotationRun(run, steps, n);
    assert Vouched(run[n].history, run[n].log, i);
  }

  // ---------------------------------------------------------------- order

  /** One active controller. */
  ghost predicate OnlyWorker(step: Step) {
    forall w :: StepOf(step, w) ==> w == 0
  }

  /** One controller whose cache may lag but never goes backwards, restarts included. */
  ghost predicate MonotoneRun(run: seq<State>, steps: seq<Step>) {
    && IsRun(run, steps)
    && forall i {:trigger steps[i]} :: 0 <= i < |steps| ==>
         OnlyWorker(steps[i]) && (steps[i].Read? ==> steps[i].version >= run[i].cached)
  }

  function PublishRank(snap: Snapshot): nat {
    if snap.deleting then Rank(Terminating) else Rank(snap.status.phase)
  }

  ghost predicate AtCache(s: State, wk: Worker)
    requires s.cached < |s.history|
  {
    && (wk.Publish? || wk.Record? ==> wk.base == s.cached)
    && (wk.DeleteStatus? || wk.DeletePublish? ==> s.history[s.cached].snap.deleting)
  }

  ghost predicate OrderInv(s: State) {
    && s.cached < |s.history|
    && s.workers.Keys <= {0}
    && AtCache(s, WorkerAt(s, 0))
    && RankSorted(s.log)
    && forall e :: e in s.log ==> Rank(e.phase) <= PublishRank(s.history[s.cached].snap)
  }

  lemma OrderPublish(s: State, o: PublishOutcome)
    requires Inv(s) && OrderInv(s) && Enabled(s, PublishCall(0, o))
    ensures OrderInv(ApplyPublish(s, 0, o))
  {
    var wk := WorkerAt(s, 0);
    assert WorkerOk(s.history, s.now, wk);
    assert Rank(wk.mem.status.phase) == PublishRank(s.history[s.cached].snap);
  }

  lemma OrderStore(s: State, o: StoreOutcome)
    requires Inv(s) && OrderInv(s) && Enabled(s, StoreCall(0, o))
    ensures OrderInv(ApplyStore(s, 0, o))
  {
    var wk := WorkerAt(s, 0);
    if !o.Refused? { EffectOk(s, wk); }
    StoreFrame(s, 0, o);
    HistoryGrows(s, StoreCall(0, o));
    assert AtCache(s, wk);
  }

  lemma OrderRead(s: State, i: nat)
    requires Inv(s) && OrderInv(s) && Enabled(s, Read(0, i)) && i >= s.cached
    ensures OrderInv(Apply(s, Read(0, i)))
  {
    RankGrows(s.history, s.now, s.cached, i);
    assert Rank(s.history[i].snap.status.phase) <= Rank(Terminating);
  }

  lemma OrderStep(s: State, step: Step)
    requires Inv(s) && OrderInv(s) && Enabled(s, step) && OnlyWorker(step)
    requires step.Read? ==> step.version >= s.cached
    ensures OrderInv(Apply(s, step))
  {
    if step.Read? {
      assert StepOf(step, step.worker);
      OrderRead(s, step.version);
    } else if step.PublishCall? {
      assert StepOf(step, step.worker);
      OrderPublish(s, step.publish);
    } else if step.StoreCall? {
      assert StepOf(step, step.worker);
      OrderStore(s, step.store);
    } else if QuietCall(step) {
      assert StepOf(step, step.worker);
      QuietFrame(s, step);
    } else {
      HistoryGrows(s, step);
      assert Apply(s, step).workers == s.workers && Apply(s, step).log == s.log && Apply(s, step).cached == s.cached;
    }
  }

  lemma {:induction false} OrderRun(run: seq<State>, steps: seq<Step>, n: nat)
    requires MonotoneRun(run, steps) && n < |run|
    ensures Inv(run[n]) && OrderInv(run[n])
  {
    RunKeeps(run, steps, n);
    if n > 0 {
      OrderRun(run, steps, n - 1);
      OrderStep(run[n - 1], steps[n - 1]);
    }
  }

  /** With one controller and a cache that never goes backwards, delivered phases never
      step back, and after dropping repeated IDs they strictly advance. */
  lemma DeliveredPhasesAdvance(run: seq<State>, steps: seq<Step>, n: nat, uid: string)
    requires MonotoneRun(run, steps) && n < |run|
    ensures RankSorted(run[n].log) && RankStrict(Deduplicated(uid, run[n].log))
    ensures forall i :: 0 <= i < |run[n].log| ==> KeptFor(uid, run[n].log[i], Deduplicated(uid, run[n].log))
  {
    OrderRun(run, steps, n);
    forall i | 0 <= i < |run[n].log|
      ensures KeptFor(uid, run[n].log[i], Deduplicated(uid, run[n].log))
    {
      DropsOnlyRepeats(uid, run[n].log, i);
    }
    SortedDeduplicatesStrictly(uid, run[n].log);
  }
}
