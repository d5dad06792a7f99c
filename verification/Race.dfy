/** Why becoming Running needs no outsider to race a create: the create that finds the name
    taken skips the ownership check (internal/controller/reconciler.go:485-495). */
module Race {
  import opened Wrappers
  import opened Workload
  import opened Session
  import opened Protocol
  import opened Safety
  import opened Phases
  import opened Objects

  const FOREIGN := Object(false, 0)
  const READY_POD := Pod(false, PodRunning, [], [PodCondition(PodReadyCondition, true)], [])
  const FIRST := Snapshot(EMPTY_STATUS, NoPhase, true, false, 0)
  const START := State(Config(false, "a"), 0, [Entry(FIRST, 0)], false, false, map[], 0, map[], {}, [], READY_POD, [], multiset{})

  /** A run with current object reads and no outsider but at step `race`, in which the
      session never controls a Pod. */
  ghost predicate PodNeverMine(run: seq<State>, steps: seq<Step>, race: int) {
    && IsRun(run, steps)
    && (forall i {:trigger steps[i]} :: 0 <= i < |steps| ==>
          ReadsCurrent(run[i], steps[i]) && (i != race ==> !steps[i].OutsiderPut? && !steps[i].OutsiderDelete?))
    && (forall m :: 0 <= m < |run| ==> POD in run[m].objects ==> !run[m].objects[POD].mine)
  }

  lemma Extend(run: seq<State>, steps: seq<Step>, race: int, step: Step) returns (run': seq<State>, steps': seq<Step>)
    requires PodNeverMine(run, steps, race)
    requires Enabled(run[|steps|], step) && ReadsCurrent(run[|steps|], step)
    requires |steps| != race ==> !step.OutsiderPut? && !step.OutsiderDelete?
    requires POD in Apply(run[|steps|], step).objects ==> !Apply(run[|steps|], step).objects[POD].mine
    ensures PodNeverMine(run', steps', race) && run <= run' && steps' == steps + [step]
    ensures run'[|steps'|] == Apply(run[|steps|], step)
  {
    run', steps' := run + [Apply(run[|steps|], step)], steps + [step];
    RunExtends(run, steps, step);
    forall i {:trigger steps'[i]} | 0 <= i < |steps'|
      ensures ReadsCurrent(run'[i], steps'[i]) && (i != race ==> !steps'[i].OutsiderPut? && !steps'[i].OutsiderDelete?)
    {
      if i < |steps| { assert steps'[i] == steps[i]; }
    }
  }

  /** The one reconcile holds the current version and is about to ensure `slot`. */
  ghost predicate Ensuring(s: State, slot: Slot) {
    var wk := WorkerAt(s, 0);
    && wk.Create? && wk.slot == slot && !wk.missing && wk.base + 1 == |s.history| && !s.gone
    && forall k: Slot :: k in s.objects <==> k < slot
  }

  /** Looks the object up in vain and creates it. */
  lemma CreatesOne(run: seq<State>, steps: seq<Step>, race: int, slot: Slot) returns (run': seq<State>, steps': seq<Step>)
    requires PodNeverMine(run, steps, race) && Ensuring(run[|steps|], slot) && slot != POD && slot != INGRESS
    requires race < |steps|
    ensures PodNeverMine(run', steps', race) && Ensuring(run'[|steps'|], slot + 1) && run <= run' && steps <= steps'
  {
    run', steps' := run, steps;
    if slot != SSH_SECRET {
      run', steps' := Extend(run', steps', race, GetCall(0, Absent, None));
    }
    run', steps' := Extend(run', steps', race, CreateCall(0, Created, 0, None));
  }

  /** Up to the Pod's lookup. */
  lemma ReachesPod() returns (run: seq<State>, steps: seq<Step>)
    ensures PodNeverMine(run, steps, -1) && Ensuring(run[|steps|], POD)
  {
    assert Init(START) by { assert START.past == (set k | k in START.objects :: (k, START.objects[k])); }
    run, steps := [START], [];
    run, steps := Extend(run, steps, -1, Read(0, 0));
    run, steps := Extend(run, steps, -1, StoreCall(0, Applied));
    run, steps := Extend(run, steps, -1, Read(0, 1));
    run, steps := CreatesOne(run, steps, -1, VM_DATA);
    run, steps := CreatesOne(run, steps, -1, VSCODE_DATA);
    run, steps := CreatesOne(run, steps, -1, SSH_SECRET);
  }

  /** The lookup finds no Pod, a foreign one lands, and the create takes it for its own. */
  lemma TakesForeignPod(run: seq<State>, steps: seq<Step>) returns (run': seq<State>, steps': seq<Step>, race: nat)
    requires PodNeverMine(run, steps, -1) && Ensuring(run[|steps|], POD)
    ensures PodNeverMine(run', steps', race) && Ensuring(run'[|steps'|], SERVICE)
    ensures race < |steps'| && steps'[race] == OutsiderPut(POD, FOREIGN) && !NoRace(run'[race], steps'[race])
  {
    run', steps' := Extend(run, steps, -1, GetCall(0, Absent, None));
    race := |steps'|;
    run', steps' := Extend(run', steps', race, OutsiderPut(POD, FOREIGN));
    run', steps' := Extend(run', steps', race, CreateCall(0, AlreadyExists, 0, None));
  }

  lemma CreatesIngress(run: seq<State>, steps: seq<Step>, race: int) returns (run': seq<State>, steps': seq<Step>)
    requires PodNeverMine(run, steps, race) && Ensuring(run[|steps|], INGRESS) && race < |steps|
    ensures PodNeverMine(run', steps', race) && run <= run' && steps <= steps'
    ensures var s, wk := run'[|steps'|], WorkerAt(run'[|steps'|], 0);
            wk.CheckPod? && wk.base + 1 == |s.history| && !s.gone && POD in s.objects
  {
    run', steps' := Extend(run, steps, race, GetCall(0, Absent, None));
    run', steps' := Extend(run', steps', race, CreateCall(0, Created, 0, None));
  }

  /** The Pod is found ready. */
  lemma FindsPodReady(run: seq<State>, steps: seq<Step>, race: int) returns (run': seq<State>, steps': seq<Step>)
    requires PodNeverMine(run, steps, race) && race < |steps|
    requires var s, wk := run[|steps|], WorkerAt(run[|steps|], 0);
             wk.CheckPod? && wk.base + 1 == |s.history| && !s.gone && POD in s.objects
    ensures PodNeverMine(run', steps', race) && run <= run' && steps <= steps'
    ensures var s, wk := run'[|steps'|], WorkerAt(run'[|steps'|], 0);
            wk.Write? && wk.status.phase == Running && wk.base + 1 == |s.history| && !s.gone
  {
    run', steps' := Extend(run, steps, race, Kubelet(READY_POD));
    assert IsReady(READY_POD) && TerminalReasonOf(READY_POD) == Serving;
    run', steps' := Extend(run', steps', race, PodCall(0, PodFound(READY_POD), None));
  }

  lemma WritesRunning(run: seq<State>, steps: seq<Step>, race: int) returns (run': seq<State>, steps': seq<Step>)
    requires PodNeverMine(run, steps, race) && race < |steps|
    requires var s, wk := run[|steps|], WorkerAt(run[|steps|], 0);
             wk.Write? && wk.status.phase == Running && wk.base + 1 == |s.history| && !s.gone
    ensures PodNeverMine(run', steps', race) && run <= run' && steps <= steps'
    ensures var s := run'[|steps'|]; |s.history| > 0 && Stored(s).status.phase == Running
  {
    StoreFrame(run[|steps|], 0, Applied);
    run', steps' := Extend(run, steps, race, StoreCall(0, Applied));
    assert steps'[|steps|] == StoreCall(0, Applied);
    WriteLands(run', steps', 0, |steps|);
  }

  /** Reads are current and one step of an outsider, between a reconcile's failed lookup and
      its create, is all that RunningOnlyWhenAllPresent rules out; yet the session becomes
      Running without ever having controlled a Pod. */
  lemma RacedSessionRunsForeignPod() returns (run: seq<State>, steps: seq<Step>, race: nat)
    ensures PodNeverMine(run, steps, race) && race < |steps| && steps[race] == OutsiderPut(POD, FOREIGN)
    ensures var s := run[|steps|]; |s.history| > 0 && Stored(s).status.phase == Running
    ensures !NoRace(run[race], steps[race]) && forall i :: 0 <= i < |steps| && i != race ==> NoRace(run[i], steps[i])
  {
    run, steps := ReachesPod();
    run, steps, race := TakesForeignPod(run, steps);
    run, steps := CreatesOne(run, steps, race, SERVICE);
    run, steps := CreatesIngress(run, steps, race);
    run, steps := FindsPodReady(run, steps, race);
    run, steps := WritesRunning(run, steps, race);
  }
}
