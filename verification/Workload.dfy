/** The session's pod as the controller observes it, and what the pod and the
    volume claims hold in the cluster (internal/controller/usage.go). */
module Workload {
  import opened Wrappers

  datatype PodPhase = PodPending | PodRunning | PodSucceeded | PodFailed | PodUnknown
  datatype PodConditionKind = PodReadyCondition | OtherCondition
  datatype PodCondition = PodCondition(kind: PodConditionKind, isTrue: bool)
  datatype Container = Container(cpuMilli: nat, memory: nat)

  /** `exited[i]` says whether the i-th container status is Terminated. */
  datatype Pod = Pod(deleting: bool, phase: PodPhase, exited: seq<bool>,
                     conditions: seq<PodCondition>, containers: seq<Container>)

  datatype TerminalReason = Serving | BeingDeleted | Finished(phase: PodPhase) | ContainerExited(index: nat)

  /** CPU in millicores, memory and storage in bytes. */
  datatype Usage = Usage(running: bool, cpuMilli: nat, memory: nat, storage: nat)

  const NO_USAGE := Usage(false, 0, 0, 0)

  const GI := 0x4000_0000
  const VSCODE_STORAGE := 5 * GI

  /** The sizes of the session's two volume claims, vm-data and vscode-data. */
  function Claims(storage: nat): seq<nat> {
    [storage, VSCODE_STORAGE]
  }

  predicate HasFinished(pod: Pod) {
    pod.phase == PodSucceeded || pod.phase == PodFailed
  }

  /** The reason is the pod's deletion, else the phase it finished in, else its first exited
      container, else there is none. */
  predicate Explains(r: TerminalReason, pod: Pod) {
    match r
    case BeingDeleted => pod.deleting
    case Finished(p) => !pod.deleting && p == pod.phase && (p == PodSucceeded || p == PodFailed)
    case ContainerExited(i) =>
      && !pod.deleting && pod.phase != PodSucceeded && pod.phase != PodFailed
      && i < |pod.exited| && pod.exited[i] && forall j :: 0 <= j < i ==> !pod.exited[j]
    case Serving => Serves(pod)
  }

  predicate Serves(pod: Pod) {
    !pod.deleting && pod.phase != PodSucceeded && pod.phase != PodFailed && forall i :: 0 <= i < |pod.exited| ==> !pod.exited[i]
  }

  function FirstExited(exited: seq<bool>): (i: nat)
    ensures i <= |exited| && (i < |exited| ==> exited[i])
    ensures forall j :: 0 <= j < i ==> !exited[j]
  {
    if exited == [] || exited[0] then 0 else 1 + FirstExited(exited[1..])
  }

  function TerminalReasonOf(pod: Pod): (r: TerminalReason)
    ensures Explains(r, pod)
  {
    if pod.deleting then BeingDeleted
    else if HasFinished(pod) then Finished(pod.phase)
    else
      var i := FirstExited(pod.exited);
      if i < |pod.exited| then ContainerExited(i) else Serving
  }

  method PodTerminalReason(pod: Pod) returns (r: TerminalReason)
    ensures r == TerminalReasonOf(pod) && Explains(r, pod)
  {
    if pod.deleting { return BeingDeleted; }
    if pod.phase == PodFailed || pod.phase == PodSucceeded { return Finished(pod.phase); }
    for i := 0 to |pod.exited|
      invariant forall j :: 0 <= j < i ==> !pod.exited[j]
    {
      if pod.exited[i] {
        assert FirstExited(pod.exited) == i;
        return ContainerExited(i);
      }
    }
    return Serving;
  }

  predicate IsReady(pod: Pod) {
    pod.phase == PodRunning && PodCondition(PodReadyCondition, true) in pod.conditions
  }

  method IsPodReady(pod: Pod) returns (ready: bool)
    ensures ready == IsReady(pod)
    ensures ready <==> pod.phase == PodRunning && exists i :: 0 <= i < |pod.conditions| && pod.conditions[i] == PodCondition(PodReadyCondition, true)
  {
    if pod.phase != PodRunning { return false; }
    for i := 0 to |pod.conditions|
      invariant PodCondition(PodReadyCondition, true) !in pod.conditions[..i]
    {
      if pod.conditions[i].kind == PodReadyCondition && pod.conditions[i].isTrue { return true; }
    }
    assert pod.conditions == pod.conditions[..|pod.conditions|];
    return false;
  }

  /** A pod holds its requests from creation until it has finished or is being deleted. */
  predicate HoldsResources(pod: Option<Pod>) {
    pod.Some? && !pod.value.deleting && !HasFinished(pod.value)
  }

  function SumOf(values: seq<nat>): nat {
    if values == [] then 0 else values[0] + SumOf(values[1..])
  }

  function CpuOf(containers: seq<Container>): nat {
    if containers == [] then 0 else containers[0].cpuMilli + CpuOf(containers[1..])
  }

  function MemoryOf(containers: seq<Container>): nat {
    if containers == [] then 0 else containers[0].memory + MemoryOf(containers[1..])
  }

  function Held(pod: Option<Pod>, claims: seq<nat>): Usage {
    if HoldsResources(pod)
    then Usage(true, CpuOf(pod.value.containers), MemoryOf(pod.value.containers), SumOf(claims))
    else Usage(false, 0, 0, SumOf(claims))
  }

  /** A pod that exists, is not being deleted and has not finished. */
  predicate Occupies(pod: Option<Pod>) {
    match pod
    case None => false
    case Some(p) => !p.deleting && p.phase != PodSucceeded && p.phase != PodFailed
  }

  /** Usage is additive: what one claim or one container adds is its own request, and CPU and
      memory count exactly while the pod occupies them. */
  lemma UsageAdds(pod: Pod, c: Container, claims: seq<nat>, claim: nat)
    ensures var more := pod.(containers := pod.containers + [c]);
            var u, u' := Held(Some(pod), claims), Held(Some(more), claims + [claim]);
            && u'.storage == u.storage + claim && u'.running == u.running == Occupies(Some(pod))
            && u'.cpuMilli == u.cpuMilli + (if Occupies(Some(pod)) then c.cpuMilli else 0)
            && u'.memory == u.memory + (if Occupies(Some(pod)) then c.memory else 0)
    ensures Held(None, claims) == Usage(false, 0, 0, Held(Some(pod), claims).storage)
    ensures Held(Some(pod.(containers := [])), []) == Usage(Occupies(Some(pod)), 0, 0, 0)
  {
    SumSplit(claims + [claim], |claims|);
    assert (claims + [claim])[..|claims|] == claims && (claims + [claim])[..|claims| + 1] == claims + [claim];
    var cs := pod.containers + [c];
    ContainerSumSplit(cs, |pod.containers|);
    assert cs[..|pod.containers|] == pod.containers && cs[..|pod.containers| + 1] == cs;
  }

  lemma {:induction false} SumSplit(claims: seq<nat>, i: nat)
    requires i < |claims|
    ensures SumOf(claims[..i + 1]) == SumOf(claims[..i]) + claims[i]
  {
    if i > 0 {
      SumSplit(claims[1..], i - 1);
      assert claims[1..][..i] == claims[..i + 1][1..];
      assert claims[1..][..i - 1] == claims[..i][1..];
    }
  }

  lemma {:induction false} ContainerSumSplit(cs: seq<Container>, i: nat)
    requires i < |cs|
    ensures CpuOf(cs[..i + 1]) == CpuOf(cs[..i]) + cs[i].cpuMilli
    ensures MemoryOf(cs[..i + 1]) == MemoryOf(cs[..i]) + cs[i].memory
  {
    if i > 0 {
      ContainerSumSplit(cs[1..], i - 1);
      assert cs[1..][..i] == cs[..i + 1][1..];
      assert cs[1..][..i - 1] == cs[..i][1..];
    }
  }

  method UsageOf(pod: Option<Pod>, claims: seq<nat>) returns (usage: Usage)
    ensures usage == Held(pod, claims)
  {
    var storage := 0;
    for i := 0 to |claims|
      invariant storage == SumOf(claims[..i])
    {
      SumSplit(claims, i);
      storage := storage + claims[i];
    }
    assert claims[..|claims|] == claims;
    if !HoldsResources(pod) { return Usage(false, 0, 0, storage); }
    var containers := pod.value.containers;
    var cpu, memory := 0, 0;
    for i := 0 to |containers|
      invariant cpu == CpuOf(containers[..i]) && memory == MemoryOf(containers[..i])
    {
      ContainerSumSplit(containers, i);
      cpu := cpu + containers[i].cpuMilli;
      memory := memory + containers[i].memory;
    }
    assert containers[..|containers|] == containers;
    usage := Usage(true, cpu, memory, storage);
  }
}
