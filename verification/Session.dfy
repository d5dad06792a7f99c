/** A LabSession's status: phases, conditions and the in-memory updates the phase
    handlers make before writing it back (internal/controller/reconciler.go). */
module Session {
  import opened Wrappers
  import opened Workload

  datatype Phase = NoPhase | Pending | Creating | Running | Failed | Terminating

  function Rank(p: Phase): nat {
    match p
    case NoPhase => 0
    case Pending => 1
    case Creating => 2
    case Running => 3
    case Failed => 4
    case Terminating => 5
  }

  datatype ConditionType = Ready | PodReady | ServiceReady

  /** `since` is the last transition time in whole seconds, as it is stored. */
  datatype Condition = Condition(kind: ConditionType, isTrue: bool, since: nat)

  datatype ApiError = Transient | Invalid | BadRequest | NotOwned

  predicate Permanent(e: ApiError) {
    !e.Transient?
  }

  /** Why a session failed (status.message and status.reason). */
  datatype Reason =
    | NoReason
    | CreateFailed(slot: nat, error: ApiError)
    | PodStopped(why: TerminalReason)
    | PodGone
    | PodUnready

  datatype Status = Status(
    phase: Phase,
    reason: Reason,
    podName: string,
    serviceName: string,
    startTime: Option<nat>,
    conditions: seq<Condition>,
    usage: Usage)

  /** The first condition of the given type, as meta.FindStatusCondition returns it. */
  function Find(conditions: seq<Condition>, kind: ConditionType): Option<Condition> {
    if conditions == [] then None
    else if conditions[0].kind == kind then Some(conditions[0])
    else Find(conditions[1..], kind)
  }

  /** It is the first of its type. */
  lemma {:induction false} FindAt(cs: seq<Condition>, kind: ConditionType, i: nat)
    requires i <= |cs| && (i < |cs| ==> cs[i].kind == kind)
    requires forall j :: 0 <= j < i ==> cs[j].kind != kind
    ensures Find(cs, kind) == if i < |cs| then Some(cs[i]) else None
  {
    if i > 0 { FindAt(cs[1..], kind, i - 1); }
  }

  predicate IsTrue(conditions: seq<Condition>, kind: ConditionType) {
    var c := Find(conditions, kind);
    c.Some? && c.value.isTrue
  }

  predicate IsFalse(conditions: seq<Condition>, kind: ConditionType) {
    var c := Find(conditions, kind);
    c.Some? && !c.value.isTrue
  }

  ghost predicate Unique(conditions: seq<Condition>) {
    forall i, j :: 0 <= i < j < |conditions| ==> conditions[i].kind != conditions[j].kind
  }

  /** The conditions with `kind` set: the transition time moves only when the value flips. */
  function WithCondition(conditions: seq<Condition>, kind: ConditionType, isTrue: bool, now: nat): seq<Condition> {
    if conditions == [] then [Condition(kind, isTrue, now)]
    else if conditions[0].kind == kind then
      if conditions[0].isTrue != isTrue then [Condition(kind, isTrue, now)] + conditions[1..] else conditions
    else [conditions[0]] + WithCondition(conditions[1..], kind, isTrue, now)
  }

  lemma {:induction false} WithConditionFind(cs: seq<Condition>, kind: ConditionType, isTrue: bool, now: nat, other: ConditionType)
    ensures var was, got := Find(cs, other), Find(WithCondition(cs, kind, isTrue, now), other);
            if other != kind then got == was
            else if was.Some? && was.value.isTrue == isTrue then got == was
            else got == Some(Condition(kind, isTrue, now))
  {
    if cs != [] && cs[0].kind != kind {
      WithConditionFind(cs[1..], kind, isTrue, now, other);
      assert WithCondition(cs, kind, isTrue, now)[1..] == WithCondition(cs[1..], kind, isTrue, now);
    }
  }

  /** The first match, at index i, is the only place that changes; no match appends. */
  lemma {:induction false} WithConditionAt(cs: seq<Condition>, kind: ConditionType, isTrue: bool, now: nat, i: nat)
    requires i <= |cs| && (i < |cs| ==> cs[i].kind == kind)
    requires forall j :: 0 <= j < i ==> cs[j].kind != kind
    ensures WithCondition(cs, kind, isTrue, now) ==
            if i == |cs| then cs + [Condition(kind, isTrue, now)]
            else if cs[i].isTrue != isTrue then cs[i := Condition(kind, isTrue, now)] else cs
  {
    if i > 0 {
      WithConditionAt(cs[1..], kind, isTrue, now, i - 1);
    }
  }

  lemma {:induction false} WithConditionKinds(cs: seq<Condition>, kind: ConditionType, isTrue: bool, now: nat)
    ensures var set' := WithCondition(cs, kind, isTrue, now);
            && |cs| <= |set'| <= |cs| + 1
            && (forall i :: 0 <= i < |cs| ==> set'[i].kind == cs[i].kind)
            && (|set'| == |cs| + 1 ==> set'[|cs|].kind == kind && forall i :: 0 <= i < |cs| ==> cs[i].kind != kind)
  {
    if cs != [] && cs[0].kind != kind {
      WithConditionKinds(cs[1..], kind, isTrue, now);
    }
  }

  lemma WithConditionUnique(cs: seq<Condition>, kind: ConditionType, isTrue: bool, now: nat)
    requires Unique(cs)
    ensures Unique(WithCondition(cs, kind, isTrue, now))
  {
    WithConditionKinds(cs, kind, isTrue, now);
  }

  const EMPTY_STATUS := Status(NoPhase, NoReason, "", "", None, [], NO_USAGE)

  function ToCreating(st: Status, now: nat): Status {
    st.(phase := Creating, startTime := Some(now))
  }

  function ToRunning(st: Status, pod: Pod, claims: seq<nat>, now: nat): Status {
    var podReady := WithCondition(st.conditions, PodReady, true, now);
    var serviceReady := WithCondition(podReady, ServiceReady, true, now);
    st.(phase := Running, usage := Held(Some(pod), claims),
        conditions := WithCondition(serviceReady, Ready, true, now))
  }

  function ToFailed(st: Status, reason: Reason, pod: Option<Pod>, claims: seq<nat>, now: nat): Status {
    st.(phase := Failed, reason := reason, usage := Held(pod, claims),
        conditions := WithCondition(st.conditions, Ready, false, now))
  }

  function ToTerminating(st: Status): Status {
    st.(phase := Terminating, usage := NO_USAGE)
  }

  /** The session object a handler holds in memory and updates in place. */
  class Draft {
    var status: Status

    constructor (st: Status)
      ensures status == st
    {
      status := st;
    }

    method SetCondition(kind: ConditionType, isTrue: bool, now: nat)
      modifies this
      ensures status == old(status).(conditions := WithCondition(old(status.conditions), kind, isTrue, now))
    {
      var cs := status.conditions;
      var condition := Condition(kind, isTrue, now);
      for i := 0 to |cs|
        invariant status == old(status)
        invariant forall j :: 0 <= j < i ==> cs[j].kind != kind
      {
        if cs[i].kind == kind {
          WithConditionAt(cs, kind, isTrue, now, i);
          if cs[i].isTrue != isTrue {
            status := status.(conditions := cs[i := condition]);
          }
          return;
        }
      }
      WithConditionAt(cs, kind, isTrue, now, |cs|);
      status := status.(conditions := cs + [condition]);
    }

    /** reconcilePending's update. */
    method StartCreating(now: nat)
      modifies this
      ensures status == ToCreating(old(status), now) == old(status).(phase := Creating, startTime := Some(now))
    {
      status := status.(phase := Creating);
      status := status.(startTime := Some(now));
    }

    /** reconcileCreating's update once the pod is ready. */
    method BecomeRunning(pod: Pod, claims: seq<nat>, now: nat)
      modifies this
      ensures status == ToRunning(old(status), pod, claims, now)
    {
      status := status.(phase := Running);
      var usage := UsageOf(Some(pod), claims);
      status := status.(usage := usage);
      SetCondition(PodReady, true, now);
      SetCondition(ServiceReady, true, now);
      SetCondition(Ready, true, now);
    }

    /** updateStatusFailed's update. */
    method BecomeFailed(reason: Reason, pod: Option<Pod>, claims: seq<nat>, now: nat)
      modifies this
      ensures status == ToFailed(old(status), reason, pod, claims, now)
    {
      status := status.(phase := Failed);
      status := status.(reason := reason);
      var usage := UsageOf(pod, claims);
      status := status.(usage := usage);
      SetCondition(Ready, false, now);
    }
  }
}
