/** The objects a session owns: the order they appear in, that each is created once,
    and what was there when a session became Running. */
module Objects {
  import opened Wrappers
  import opened Workload
  import opened Session
  import opened Protocol
  import opened Safety
  import opened Phases

  // ---------------------------------------------------------------- without outsiders

  /** Nobody but the controllers creates or deletes the session's objects. */
  ghost predicate NoOutsiders(run: seq<State>, steps: seq<Step>) {
    && IsRun(run, steps) && run[0].objects == map[]
    && forall i :: 0 <= i < |steps| ==> !steps[i].OutsiderPut? && !steps[i].OutsiderDelete?
  }

  ghost predicate Reached(objects: map<Slot, Object>, wk: Worker) {
    && (wk.Create? ==> forall j: Slot :: j < wk.slot ==> j in objects)
    && (wk.CheckPod? ==> forall j: Slot :: j in objects)
  }

  ghost predicate Ordered(s: State) {
    && (forall p :: p in s.past ==> p.0 in s.objects && s.objects[p.0] == p.1)
    && (forall j: Slot, k: Slot :: j < k && k in s.objects ==> j in s.objects)
    && (forall w :: w in s.workers ==> Reached(s.objects, s.workers[w]))
    && (forall k: Slot :: multiset(s.creates)[k] == if k in s.objects then 1 else 0)
  }

  lemma ReachedStays(s: State, s': State)
    requires Ordered(s) && s.objects.Keys <= s'.objects.Keys
    ensures forall w :: w in s.workers ==> Reached(s'.objects, s.workers[w])
  {
  }

  lemma OrderedGet(s: State, w: nat, g: GetOutcome, pod: Option<Pod>)
    requires Ordered(s) && Enabled(s, GetCall(w, g, pod))
    ensures Ordered(ApplyGet(s, w, g, pod)) && ApplyGet(s, w, g, pod).objects == s.objects
  {
    assert Reached(s.objects, WorkerAt(s, w));
    assert Reached(s.objects, WorkerAt(ApplyGet(s, w, g, pod), w));
  }

  lemma OrderedCreate(s: State, w: nat, c: CreateOutcome, key: nat, pod: Option<Pod>)
    requires Ordered(s) && Enabled(s, CreateCall(w, c, key, pod))
    ensures var s' := ApplyCreate(s, w, c, key, pod);
            Ordered(s') && forall k :: k in s.objects ==> k in s'.objects && s'.objects[k] == s.objects[k]
  {
    var s' := ApplyCreate(s, w, c, key, pod);
    var slot := WorkerAt(s, w).slot;
    CreateReaches(s, w, c, key, pod);
    if c.Created? || c.CreateLost? {
      OrderedPut(s, slot, Object(true, key));
      OrderedWorker(Put(s, slot, Object(true, key)).(creates := s.creates + [slot]), w, WorkerAt(s', w));
    } else {
      OrderedWorker(s, w, WorkerAt(s', w));
    }
  }

  lemma CreateReaches(s: State, w: nat, c: CreateOutcome, key: nat, pod: Option<Pod>)
    requires Ordered(s) && Enabled(s, CreateCall(w, c, key, pod))
    ensures Reached(s.objects, WorkerAt(s, w))
    ensures Reached(ApplyCreate(s, w, c, key, pod).objects, WorkerAt(ApplyCreate(s, w, c, key, pod), w))
  {
    assert Reached(s.objects, WorkerAt(s, w));
  }

  lemma OrderedWorker(s: State, w: nat, wk: Worker)
    requires Ordered(s) && Reached(s.objects, wk)
    ensures Ordered(With(s, w, wk))
  {
  }

  /** The next object in order is put in place. */
  lemma OrderedPut(s: State, slot: Slot, obj: Object)
    requires Ordered(s) && slot !in s.objects && forall j: Slot :: j < slot ==> j in s.objects
    ensures Ordered(Put(s, slot, obj).(creates := s.creates + [slot]))
  {
    var s' := Put(s, slot, obj).(creates := s.creates + [slot]);
    ReachedStays(s, s');
    assert multiset(s'.creates) == multiset(s.creates) + multiset{slot};
  }

  lemma PodCallLeaves(s: State, w: nat, look: PodOutcome, pod: Option<Pod>)
    requires Enabled(s, PodCall(w, look, pod))
    ensures var s' := Apply(s, PodCall(w, look, pod));
            s' == With(s, w, WorkerAt(s', w)) && NotCreating(WorkerAt(s', w))
  {
  }

  lemma PublishLeaves(s: State, w: nat, o: PublishOutcome)
    requires Enabled(s, PublishCall(w, o))
    ensures var s' := ApplyPublish(s, w, o);
            s' == With(s, w, WorkerAt(s', w)).(log := s'.log) && NotCreating(WorkerAt(s', w))
  {
  }

  /** The steps that make no create call leave the objects alone. */
  lemma ObjectsFrame(s: State, step: Step)
    requires Enabled(s, step)
    requires !step.GetCall? && !step.CreateCall? && !step.OutsiderPut? && !step.OutsiderDelete?
    ensures var s' := Apply(s, step);
            && s'.objects == s.objects && s'.past == s.past && s'.creates == s.creates
            && forall w :: w in s'.workers ==> (w in s.workers && s'.workers[w] == s.workers[w]) || NotCreating(s'.workers[w])
  {
    match step
    case StoreCall(w, o) => StoreFrame(s, w, o);
    case PodCall(w, look, pod) => PodCallLeaves(s, w, look, pod);
    case Read(w, i) => assert NotCreating(Begin(s, i, s.history[i].snap));
    case PublishCall(w, o) => PublishLeaves(s, w, o);
    case TimeoutCheck(w, pod) => assert NotCreating(OnUnready(s, WorkerAt(s, w), pod));
    case Crash(_) => case Tick(_) => case UserDelete => case UserEdit(_) => case Kubelet(_) =>
  }

  lemma OrderedStep(s: State, step: Step)
    requires Ordered(s) && Enabled(s, step) && !step.OutsiderPut? && !step.OutsiderDelete?
    ensures var s' := Apply(s, step);
            Ordered(s') && forall k :: k in s.objects ==> k in s'.objects && s'.objects[k] == s.objects[k]
  {
    if step.GetCall? {
      OrderedGet(s, step.worker, step.get, step.usagePod);
    } else if step.CreateCall? {
      OrderedCreate(s, step.worker, step.create, step.key, step.usagePod);
    } else {
      ObjectsFrame(s, step);
    }
  }

  lemma {:induction false} OrderedRun(run: seq<State>, steps: seq<Step>, m: nat, n: nat)
    requires NoOutsiders(run, steps) && m <= n < |run|
    ensures Inv(run[n]) && Ordered(run[n])
    ensures forall k :: k in run[m].objects ==> k in run[n].objects && run[n].objects[k] == run[m].objects[k]
  {
    RunKeeps(run, steps, n);
    if n > 0 {
      OrderedRun(run, steps, if m < n then m else n - 1, n - 1);
      RunKeeps(run, steps, n - 1);
      OrderedStep(run[n - 1], steps[n - 1]);
    }
  }

  ghost predicate FirstFew(objects: map<Slot, Object>, count: nat) {
    forall k: Slot :: k in objects <==> k < count
  }

  /** At any time the existing objects are the first few in creation order, each was
      created at most once, and what was created, the SSH key pair included, is kept. */
  lemma ObjectsFormPrefix(run: seq<State>, steps: seq<Step>, m: nat, n: nat)
    requires NoOutsiders(run, steps) && m <= n < |run|
    ensures exists count: nat :: count <= 6 && FirstFew(run[n].objects, count)
    ensures forall k: Slot :: multiset(run[n].creates)[k] <= 1
    ensures forall k: Slot :: k in run[m].objects ==> k in run[n].objects && run[n].objects[k] == run[m].objects[k]
  {
    OrderedRun(run, steps, m, n);
    var objects := run[n].objects;
    var count := 0;
    while count < 6 && count in objects
      invariant 0 <= count <= 6 && forall k: Slot :: k < count ==> k in objects
    {
      count := count + 1;
    }
    assert FirstFew(objects, count);
  }

  // ---------------------------------------------------------------- progress

  predicate ErrorFree(step: Step) {
    || (step.GetCall? && (step.get.Absent? || (step.get.Found? && step.get.obj.mine)))
    || (step.CreateCall? && (step.create.Created? || step.create.AlreadyExists?))
  }

  /** An upper bound on the create calls a reconcile still has to make. */
  function Left(wk: Worker): nat
    requires wk.Create?
  {
    2 * (6 - wk.slot) - (if wk.missing then 1 else 0)
  }

  function OwnSteps(steps: seq<Step>, w: nat, a: nat, c: nat): nat
    requires a <= c <= |steps|
    decreases c
  {
    if a == c then 0 else OwnSteps(steps, w, a, c - 1) + (if StepOf(steps[c - 1], w) then 1 else 0)
  }

  lemma CreateAdvances(s: State, step: Step, w: nat)
    requires Ordered(s) && Enabled(s, step) && StepOf(step, w) && WorkerAt(s, w).Create? && ErrorFree(step)
    ensures var s' := Apply(s, step);
            FirstFew(s'.objects, 6) || (WorkerAt(s', w).Create? && Left(WorkerAt(s', w)) < Left(WorkerAt(s, w)))
  {
    OrderedStep(s, step);
    assert Reached(Apply(s, step).objects, WorkerAt(Apply(s, step), w));
  }

  /** All six objects are there, or w is creating and has at most `budget` calls to make. */
  ghost predicate OnTrack(s: State, w: nat, budget: int) {
    FirstFew(s.objects, 6) || (WorkerAt(s, w).Create? && Left(WorkerAt(s, w)) <= budget)
  }

  lemma ProgressStep(s: State, step: Step, s': State, w: nat, budget: int)
    requires Ordered(s) && Enabled(s, step) && s' == Apply(s, step) && !step.OutsiderPut? && !step.OutsiderDelete?
    requires OnTrack(s, w, budget)
    requires StepOf(step, w) && WorkerAt(s, w).Create? ==> ErrorFree(step)
    ensures OnTrack(s', w, budget - (if StepOf(step, w) then 1 else 0))
  {
    OrderedStep(s, step);
    if !FirstFew(s.objects, 6) {
      if StepOf(step, w) { CreateAdvances(s, step, w); } else { OthersRest(s, step, w); }
    }
  }

  /** Every call w makes while creating, from state a to state c, succeeds. */
  ghost predicate CreatesCleanly(run: seq<State>, steps: seq<Step>, w: nat, a: nat, c: nat) {
    && |run| == |steps| + 1 && c <= |steps|
    && forall i {:trigger steps[i]} :: a <= i < c && StepOf(steps[i], w) && WorkerAt(run[i], w).Create? ==> ErrorFree(steps[i])
  }

  /** A step that costs one call of the budget if it is w's own. */
  ghost predicate Spends(s: State, s': State, w: nat, own: bool) {
    forall budget: int :: OnTrack(s, w, budget) ==> OnTrack(s', w, budget - (if own then 1 else 0))
  }

  lemma {:induction false} BudgetSpent(run: seq<State>, steps: seq<Step>, w: nat, a: nat, c: nat, budget: int)
    requires |run| == |steps| + 1 && a <= c <= |steps| && OnTrack(run[a], w, budget)
    requires forall i {:trigger StepOf(steps[i], w)} :: a <= i < c ==> Spends(run[i], run[i + 1], w, StepOf(steps[i], w))
    ensures OnTrack(run[c], w, budget - OwnSteps(steps, w, a, c))
    decreases c
  {
    if a < c {
      BudgetSpent(run, steps, w, a, c - 1, budget);
      assert Spends(run[c - 1], run[c], w, StepOf(steps[c - 1], w));
    }
  }

  lemma CleanStepSpends(run: seq<State>, steps: seq<Step>, w: nat, a: nat, c: nat, i: nat)
    requires NoOutsiders(run, steps) && a <= i < c <= |steps| && CreatesCleanly(run, steps, w, a, c)
    ensures Spends(run[i], run[i + 1], w, StepOf(steps[i], w))
  {
    OrderedRun(run, steps, i, i);
    forall budget: int | OnTrack(run[i], w, budget)
      ensures OnTrack(run[i + 1], w, budget - (if StepOf(steps[i], w) then 1 else 0))
    {
      ProgressStep(run[i], steps[i], run[i + 1], w, budget);
    }
  }

  /** A reconcile in Creating whose create calls meet no error and are not cut off has
      every object in place after at most twelve of its own steps, whatever the others do
      and however stale its reads are. */
  lemma ErrorFreeCreatingReachesAll(run: seq<State>, steps: seq<Step>, w: nat, a: nat, c: nat)
    requires NoOutsiders(run, steps) && a <= c < |run| && WorkerAt(run[a], w).Create?
    requires CreatesCleanly(run, steps, w, a, c)
    requires OwnSteps(steps, w, a, c) >= 12
    ensures forall k: Slot :: k in run[c].objects
  {
    forall i | a <= i < c
      ensures Spends(run[i], run[i + 1], w, StepOf(steps[i], w))
    {
      CleanStepSpends(run, steps, w, a, c, i);
    }
    BudgetSpent(run, steps, w, a, c, Left(WorkerAt(run[a], w)));
  }

  // ---------------------------------------------------------------- becoming Running

  /** Object reads return what is stored at that moment, or an error. */
  ghost predicate ReadsCurrent(s: State, step: Step)
    requires Enabled(s, step)
  {
    && (step.GetCall? && step.get.Absent? ==> WorkerAt(s, step.worker).slot !in s.objects)
    && (step.GetCall? && step.get.Found? ==>
          var k := WorkerAt(s, step.worker).slot; k in s.objects && s.objects[k] == step.get.obj)
    && (step.PodCall? && step.look.PodFound? ==> POD in s.objects && s.pod == step.look.pod)
  }

  /** No outsider puts an object of its own between a reconcile's failed lookup and its create. */
  ghost predicate NoRace(s: State, step: Step) {
    step.OutsiderPut? && !step.obj.mine ==>
      forall w :: w in s.workers && s.workers[w].Create? && s.workers[w].missing ==> s.workers[w].slot != step.slot
  }

  ghost predicate CurrentRun(run: seq<State>, steps: seq<Step>) {
    && IsRun(run, steps)
    && forall i {:trigger steps[i]} :: 0 <= i < |steps| ==> ReadsCurrent(run[i], steps[i]) && NoRace(run[i], steps[i])
  }

  const CHECKED: set<Slot> := {VM_DATA, VSCODE_DATA, POD, SERVICE, INGRESS}

  ghost predicate PodWasReady(pod: Option<Pod>) {
    pod.Some? && pod.value.phase == PodRunning && PodCondition(PodReadyCondition, true) in pod.value.conditions && Serves(pod.value)
  }

  ghost predicate Backed(h: seq<Entry>, objects: map<Slot, Object>, wk: Worker) {
    match wk
    case Create(_, _, slot, missing, seen) =>
      && (missing && slot in objects ==> objects[slot].mine)
      && (missing ==> slot != SSH_SECRET)
      && forall j: Slot :: j < slot && j != SSH_SECRET ==> j in seen
    case CheckPod(_, _, seen) => CHECKED <= seen
    case Write(base, st, _, ev) =>
      base < |h| && (st.phase == Running && h[base].snap.status.phase == Creating ==> CHECKED <= ev.controlled && PodWasReady(ev.pod))
    case _ => true
  }

  ghost predicate AllBacked(s: State) {
    forall w :: w in s.workers ==> Backed(s.history, s.objects, s.workers[w])
  }

  lemma BackedGet(s: State, w: nat, g: GetOutcome, pod: Option<Pod>)
    requires Inv(s) && AllBacked(s) && Enabled(s, GetCall(w, g, pod)) && ReadsCurrent(s, GetCall(w, g, pod))
    ensures Backed(s.history, s.objects, WorkerAt(ApplyGet(s, w, g, pod), w))
  {
    var wk := WorkerAt(s, w);
    assert Backed(s.history, s.objects, wk) && WorkerOk(s.history, s.now, wk);
  }

  lemma BackedCreator(s: State, w: nat, c: CreateOutcome, key: nat, pod: Option<Pod>)
    requires Inv(s) && AllBacked(s) && Enabled(s, CreateCall(w, c, key, pod))
    ensures var s' := ApplyCreate(s, w, c, key, pod);
            Backed(s'.history, s'.objects, WorkerAt(s', w))
  {
    var wk := WorkerAt(s, w);
    assert Backed(s.history, s.objects, wk) && WorkerOk(s.history, s.now, wk);
  }

  lemma BackedCreate(s: State, w: nat, c: CreateOutcome, key: nat, pod: Option<Pod>)
    requires Inv(s) && AllBacked(s) && Enabled(s, CreateCall(w, c, key, pod))
    ensures AllBacked(ApplyCreate(s, w, c, key, pod))
  {
    BackedCreator(s, w, c, key, pod);
    var s' := ApplyCreate(s, w, c, key, pod);
    forall v | v in s.workers && v != w
      ensures Backed(s'.history, s'.objects, s.workers[v])
    {
      BackedStays(s, s'.history, s'.objects, s.workers[v]);
    }
  }

  lemma BackedPodCall(s: State, w: nat, look: PodOutcome, pod: Option<Pod>)
    requires Inv(s) && AllBacked(s) && Enabled(s, PodCall(w, look, pod)) && ReadsCurrent(s, PodCall(w, look, pod))
    ensures Backed(s.history, s.objects, WorkerAt(Apply(s, PodCall(w, look, pod)), w))
  {
    var wk := WorkerAt(s, w);
    assert Backed(s.history, s.objects, wk) && WorkerOk(s.history, s.now, wk);
  }

  lemma BackedStays(s: State, h: seq<Entry>, objects: map<Slot, Object>, wk: Worker)
    requires Backed(s.history, s.objects, wk) && s.history <= h
    requires wk.Create? && wk.missing && wk.slot in objects ==> objects[wk.slot].mine
    ensures Backed(h, objects, wk)
  {
  }

  /** The reconciles that steps other than create and pod calls start or resume. */
  lemma BackedElse(s: State, step: Step)
    requires Inv(s) && AllBacked(s) && Enabled(s, step)
    requires !step.GetCall? && !step.CreateCall? && !step.PodCall? && !step.OutsiderPut? && !step.OutsiderDelete?
    ensures AllBacked(Apply(s, step))
  {
    var s' := Apply(s, step);
    ObjectsFrame(s, step);
    HistoryGrows(s, step);
    StepKeeps(s, step);
    forall w | w in s'.workers
      ensures Backed(s'.history, s'.objects, s'.workers[w])
    {
      var wk' := s'.workers[w];
      if w in s.workers && wk' == s.workers[w] {
        BackedStays(s, s'.history, s'.objects, wk');
      } else if wk'.Write? {
        NewWrite(s, step, w);
      }
    }
  }

  /** After a store call a reconcile writes again only to move to Creating. */
  lemma StoreResumes(s: State, w: nat, o: StoreOutcome)
    requires Enabled(s, StoreCall(w, o))
    ensures var wk := WorkerAt(ApplyStore(s, w, o), w);
            SeenBy(wk) == {} && (wk.Write? ==> wk.status.phase == Creating && wk.evidence == NoEvidence())
  {
    var wk := WorkerAt(s, w);
    var s1 := if o.Refused? then s.(missed := s.missed + Unrecorded(wk)) else Effect(s, wk);
    var wk' := AfterStore(s1, wk, o);
    assert SeenBy(wk') == {} && (wk'.Write? ==> wk'.status.phase == Creating && wk'.evidence == NoEvidence());
  }

  lemma NewWrite(s: State, step: Step, w: nat)
    requires Inv(s) && Enabled(s, step) && Inv(Apply(s, step))
    requires !step.GetCall? && !step.CreateCall? && !step.PodCall?
    requires WorkerAt(Apply(s, step), w).Write? && WorkerAt(Apply(s, step), w) != WorkerAt(s, w)
    ensures WorkerAt(Apply(s, step), w).status.phase != Running
  {
    if !StepOf(step, w) {
      OthersRest(s, step, w);
    } else if step.StoreCall? {
      StoreResumes(s, w, step.store);
    }
  }

  lemma BackedStep(s: State, step: Step)
    requires Inv(s) && AllBacked(s) && Enabled(s, step) && ReadsCurrent(s, step) && NoRace(s, step)
    ensures AllBacked(Apply(s, step))
  {
    if step.GetCall? {
      BackedGet(s, step.worker, step.get, step.usagePod);
    } else if step.CreateCall? {
      BackedCreate(s, step.worker, step.create, step.key, step.usagePod);
    } else if step.PodCall? {
      BackedPodCall(s, step.worker, step.look, step.usagePod);
    } else if !step.OutsiderPut? && !step.OutsiderDelete? {
      BackedElse(s, step);
    }
  }

  lemma {:induction false} BackedRun(run: seq<State>, steps: seq<Step>, n: nat)
    requires CurrentRun(run, steps) && n < |run|
    ensures Inv(run[n]) && AllBacked(run[n])
  {
    RunKeeps(run, steps, n);
    if n > 0 {
      BackedRun(run, steps, n - 1);
      assert ReadsCurrent(run[n - 1], steps[n - 1]) && NoRace(run[n - 1], steps[n - 1]);
      BackedStep(run[n - 1], steps[n - 1]);
    }
  }

  // ---------------------------------------------------------------- the evidence is real

  /** No new reconcile of w starts between states m and n. */
  ghost predicate SameReconcile(steps: seq<Step>, w: nat, m: nat, n: nat) {
    m <= n <= |steps| && forall i :: m <= i < n ==> !(steps[i].Read? && steps[i].worker == w)
  }

  function SeenBy(wk: Worker): set<Slot> {
    if wk.Create? || wk.CheckPod? then wk.seen else if wk.Write? then wk.evidence.controlled else {}
  }

  /** A slot a reconcile has seen is controlled now, or it had seen it before this step. */
  lemma SeenStep(s: State, step: Step, w: nat, k: Slot)
    requires Enabled(s, step) && k in SeenBy(WorkerAt(Apply(s, step), w))
    ensures var s' := Apply(s, step);
            (k in s'.objects && s'.objects[k].mine) || (k in SeenBy(WorkerAt(s, w)) && !(step.Read? && step.worker == w))
  {
    if !StepOf(step, w) {
      OthersRest(s, step, w);
    } else if step.CreateCall? {
      SeenCreate(s, w, step.create, step.key, step.usagePod);
    } else if !step.GetCall? && !step.PodCall? {
      SeenNothing(s, step, w);
    }
  }

  lemma SeenCreate(s: State, w: nat, c: CreateOutcome, key: nat, pod: Option<Pod>)
    requires Enabled(s, CreateCall(w, c, key, pod))
    ensures var s' := ApplyCreate(s, w, c, key, pod);
            SeenBy(WorkerAt(s', w)) <= SeenBy(WorkerAt(s, w)) + Controlled(s'.objects)
  {
  }

  lemma SeenNothing(s: State, step: Step, w: nat)
    requires Enabled(s, step) && StepOf(step, w) && !step.GetCall? && !step.CreateCall? && !step.PodCall?
    ensures SeenBy(WorkerAt(Apply(s, step), w)) == {}
  {
    if step.StoreCall? {
      StoreResumes(s, w, step.store);
    } else if step.PublishCall? {
      assert SeenBy(WorkerAt(ApplyPublish(s, w, step.publish), w)) == {};
    }
  }

  lemma {:induction false} SeenWasControlled(run: seq<State>, steps: seq<Step>, w: nat, n: nat, k: Slot) returns (m: nat)
    requires IsRun(run, steps) && n < |run| && k in SeenBy(WorkerAt(run[n], w))
    ensures SameReconcile(steps, w, m, n) && k in run[m].objects && run[m].objects[k].mine
  {
    if k in run[n].objects && run[n].objects[k].mine { return n; }
    SeenStep(run[n - 1], steps[n - 1], w, k);
    m := SeenWasControlled(run, steps, w, n - 1, k);
  }

  lemma {:induction false} PodEvidence(run: seq<State>, steps: seq<Step>, w: nat, n: nat) returns (m: nat)
    requires IsRun(run, steps) && n < |run|
    requires WorkerAt(run[n], w).Write? && WorkerAt(run[n], w).evidence.pod.Some?
    ensures SameReconcile(steps, w, m, n) && POD in run[m].objects && run[m].pod == WorkerAt(run[n], w).evidence.pod.value
  {
    assert n > 0;
    var s, step := run[n - 1], steps[n - 1];
    if StepOf(step, w) {
      PodEvidenceStep(s, step, w);
      m := n - 1;
    } else {
      OthersRest(s, step, w);
      m := PodEvidence(run, steps, w, n - 1);
    }
  }

  lemma PodEvidenceStep(s: State, step: Step, w: nat)
    requires Enabled(s, step) && StepOf(step, w)
    requires var wk := WorkerAt(Apply(s, step), w); wk.Write? && wk.evidence.pod.Some?
    ensures POD in s.objects && s.pod == WorkerAt(Apply(s, step), w).evidence.pod.value && !step.Read?
  {
    if step.StoreCall? {
      StoreResumes(s, w, step.store);
    }
  }

  /** With current object reads and no outsider racing a create, the session becomes
      Running only by a reconcile during which both volume claims, the Pod, the Service
      and the Ingress were each stored and controlled by this session, and the stored Pod
      was ready with no terminal reason. */
  lemma RunningOnlyWhenAllPresent(run: seq<State>, steps: seq<Step>, n: nat) returns (w: nat)
    requires CurrentRun(run, steps) && n < |steps|
    requires |run[n].history| > 0 && |run[n + 1].history| > 0
    requires Stored(run[n]).status.phase != Running && Stored(run[n + 1]).status.phase == Running
    ensures StepOf(steps[n], w) && steps[n].StoreCall?
    ensures forall k :: k in CHECKED ==>
              exists m: nat :: SameReconcile(steps, w, m, n) && k in run[m].objects && run[m].objects[k].mine
    ensures exists m: nat :: SameReconcile(steps, w, m, n) && POD in run[m].objects && PodWasReady(Some(run[m].pod))
  {
    BackedRun(run, steps, n);
    PhaseFollowsEdges(run, steps, n);
    BecomesRunning(run[n], steps[n]);
    w := steps[n].worker;
    var wk := WorkerAt(run[n], w);
    assert Backed(run[n].history, run[n].objects, wk);
    forall k | k in CHECKED
      ensures exists m: nat :: SameReconcile(steps, w, m, n) && k in run[m].objects && run[m].objects[k].mine
    {
      var m := SeenWasControlled(run, steps, w, n, k);
    }
    var m := PodEvidence(run, steps, w, n);
    assert SameReconcile(steps, w, m, n) && POD in run[m].objects && PodWasReady(Some(run[m].pod));
  }

  lemma BecomesRunning(s: State, step: Step)
    requires Inv(s) && Enabled(s, step)
    requires Stored(s).status.phase == Creating
    requires |Apply(s, step).history| > 0 && Stored(Apply(s, step)).status.phase == Running
    ensures step.StoreCall? && WorkerAt(s, step.worker).Write?
    ensures WorkerAt(s, step.worker).status.phase == Running && WorkerAt(s, step.worker).base + 1 == |s.history|
  {
    if step.StoreCall? && !step.store.Refused? {
      EffectOk(s, WorkerAt(s, step.worker));
    }
  }
}
