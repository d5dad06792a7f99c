/** The reconcile handlers as they run: methods that update the session in memory and
    call the API (internal/controller/reconciler.go). Each is proved to follow the
    protocol step by step, so what is proved of every run of the protocol holds of them. */
module Reconciler {
  import opened Wrappers
  import opened Workload
  import opened Session
  import opened Protocol
  import opened Safety
  import opened Phases

  lemma CreateLeads(s: State, w: nat, c: CreateOutcome, key: nat, pod: Option<Pod>)
    requires Enabled(s, CreateCall(w, c, key, pod))
    ensures var s', wk := ApplyCreate(s, w, c, key, pod), WorkerAt(s, w);
            && s'.now == s.now && (c.Created? ==> wk.slot in s'.objects && s'.objects[wk.slot].mine)
            && WorkerAt(s', w) == if c.Created? || c.AlreadyExists? then Advance(s', wk) else OnCreateError(s', wk, c.error, pod)
  {
  }

  /** The API server and everything else that happens around one reconcile. `schedule` is
      what happens next, in order: any steps of any reconciles, users, outsiders and the
      clock. Steps that cannot be taken are passed over. */
  class Cluster {
    var state: State
    var schedule: seq<Step>
    ghost var run: seq<State>
    ghost var taken: seq<Step>
    ghost var last: Option<Step>   // the last of them

    ghost predicate Valid()
      reads this
    {
      IsRun(run, taken) && state == run[|taken|]
    }

    constructor (s: State, steps: seq<Step>)
      requires Init(s)
      ensures Valid() && state == s && schedule == steps && taken == [] && last == None
    {
      state, schedule := s, steps;
      run, taken, last := [s], [], None;
    }

    method Take(step: Step)
      requires Valid() && Enabled(state, step)
      modifies this
      ensures Valid() && state == Apply(old(state), step) && schedule == old(schedule)
      ensures taken == old(taken) + [step] && run == old(run) + [state] && last == Some(step)
    {
      RunExtends(run, taken, step);
      state := Apply(state, step);
      run, taken, last := run + [state], taken + [step], Some(step);
    }

    /** Lets the others go on until reconcile w takes a step of its own, which then
        has just been taken in state `before`. */
    method Await(w: nat) returns (step: Option<Step>, ghost before: State)
      requires Valid()
      modifies this
      ensures Valid() && |state.history| > 0 && old(taken) <= taken && old(run) <= run
      ensures WorkerAt(before, w) == old(WorkerAt(state, w)) && before.config == state.config == old(state.config)
      ensures if step.None? then state == before && schedule == []
              else && StepOf(step.value, w) && Enabled(before, step.value) && state == Apply(before, step.value)
                   && old(taken) < taken && taken[|taken| - 1] == step.value && last == step
    {
      before := state;
      while schedule != []
        invariant Valid() && old(taken) <= taken && old(run) <= run && state == before
        invariant WorkerAt(before, w) == old(WorkerAt(state, w)) && before.config == old(state.config)
        decreases |schedule|
      {
        var next := schedule[0];
        schedule := schedule[1..];
        if Enabled(state, next) {
          ConfigStays(state, next);
          Take(next);
          if StepOf(next, w) {
            RunKeeps(run, taken, |taken|);
            return Some(next), before;
          }
          OthersRest(before, next, w);
          before := state;
        }
      }
      RunKeeps(run, taken, |taken|);
      return None, before;
    }
  }

  datatype Answer = Succeeded | NotFound | Errored

  function AnswerOf(o: StoreOutcome): Answer {
    match o
    case Applied => Succeeded
    case AnswerLost => Errored
    case Refused(notFound) => if notFound then NotFound else Errored
  }

  datatype Ensured = Done | Failure(slot: Slot, error: ApiError)

  /** One reconcile. A call that returns None was never answered: the controller crashed
      or nothing more is scheduled, and the handler stops there. */
  class Reconcile {
    const cluster: Cluster
    const id: nat
    var base: nat
    var session: Snapshot
    var lookup: Option<Pod>   // what the pod lookup of updateStatusFailed will return

    constructor (c: Cluster, w: nat, blank: Snapshot)
      ensures cluster == c && id == w
    {
      cluster, id := c, w;
      base, session, lookup := 0, blank, None;
    }

    // -------------------------------------------------------------- where the protocol is

    ghost function Me(): Worker
      reads this, cluster
    {
      WorkerAt(cluster.state, id)
    }

    ghost predicate Live()
      reads this, cluster
    {
      cluster.Valid() && |cluster.state.history| > 0
    }

    twostate predicate Goes()
      reads this, cluster
    {
      Live() && old(cluster.taken) <= cluster.taken && old(cluster.run) <= cluster.run && cluster.state.config == old(cluster.state.config)
    }

    /** Nothing more is scheduled, or the controller has crashed since. */
    twostate predicate CutOff()
      reads this, cluster
    {
      || cluster.schedule == []
      || (old(cluster.taken) < cluster.taken && cluster.last == Some(Crash(id)))
    }

    /** The session was read for this reconcile since. */
    twostate predicate Started()
      reads this, cluster
    {
      exists i :: |old(cluster.taken)| <= i < |cluster.taken| && cluster.taken[i].Read? && cluster.taken[i].worker == id
    }

    ghost predicate AtCreate(slot: Slot, missing: bool)
      reads this, cluster
    {
      Me().Create? && Me().base == base && Me().mem == session && Me().slot == slot && Me().missing == missing
    }

    ghost predicate AtCheckPod()
      reads this, cluster
    {
      Me().CheckPod? && Me().base == base && Me().mem == session
    }

    ghost predicate AtWrite(next: Continuation)
      reads this, cluster
    {
      Me().Write? && Me().base == base && Me().status == session.status && Me().next == next
    }

    ghost predicate AtFailure(slot: Slot, e: ApiError)
      reads this, cluster
    {
      Me() == OnCreateError(cluster.state, Create(base, session, slot, false, {}), e, lookup)
    }

    /** Where the ensure step of `slot` leads. */
    ghost predicate Outcome(slot: Slot, r: Option<Ensured>)
      reads this, cluster
    {
      match r
      case None => true
      case Some(Done) => if slot == INGRESS then AtCheckPod() else AtCreate(slot + 1, false)
      case Some(Failure(k, e)) => k == slot && AtFailure(slot, e)
    }

    // -------------------------------------------------------------- API calls

    method Await() returns (step: Option<Step>, ghost before: State)
      requires Live()
      modifies cluster
      ensures Goes() && WorkerAt(before, id) == old(Me()) && before.config == cluster.state.config
      ensures step.None? ==> CutOff()
      ensures step.Some? ==>
                && StepOf(step.value, id) && !step.value.Crash? && Enabled(before, step.value)
                && cluster.state == Apply(before, step.value)
                && old(cluster.taken) < cluster.taken && cluster.last == step
    {
      step, before := cluster.Await(id);
      if step.Some? && step.value.Crash? { step := None; }
    }

    method Refresh()
      requires Live()
      modifies this
      ensures session == Stored(cluster.state) && base + 1 == |cluster.state.history| && lookup == old(lookup)
    {
      base := |cluster.state.history| - 1;
      session := cluster.state.history[base].snap;
    }

    /** Status().Update of the in-memory session. */
    method StatusUpdate(ghost next: Continuation) returns (a: Option<Answer>)
      requires Live() && AtWrite(next)
      modifies this, cluster
      ensures Goes()
      ensures a.None? ==> CutOff()
      ensures a == Some(Succeeded) ==> session == Stored(cluster.state) && session.status == old(session.status)
      ensures a.Some? ==> old(cluster.taken) < cluster.taken
      ensures a.Some? ==> if a.value.Succeeded? && next.CheckTimeout? then Me() == CheckUnready(base, session) else Me().Idle?
    {
      var step, before := Await();
      if step.None? { return None; }
      a := Some(AnswerOf(step.value.store));
      if a.value.Succeeded? { Refresh(); }
    }

    /** Status().Update in reconcileDelete. */
    method StatusUpdateTerminating() returns (a: Option<Answer>)
      requires Live() && Me().DeleteStatus? && Me().base == base
      requires session == Me().mem.(status := ToTerminating(Me().mem.status))
      modifies this, cluster
      ensures Goes()
      ensures a.None? ==> CutOff()
      ensures a == Some(Succeeded) ==> session == Stored(cluster.state) && session.status == old(session.status)
      ensures a.Some? ==> if a.value.NotFound? then Me().Idle? else Me() == DeletePublish(base, session)
    {
      var step, before := Await();
      if step.None? { return None; }
      a := Some(AnswerOf(step.value.store));
      if a.value.Succeeded? { Refresh(); }
    }

    /** Update of the finalizer. */
    method Update() returns (a: Option<Answer>)
      requires Live()
      requires (if session.finalizer then Me().AddFinalizer? else Me().DeleteFinalizer?) && Me().base == base
      modifies cluster
      ensures Goes() && (a.Some? ==> Me().Idle?)
      ensures a.None? ==> CutOff()
      ensures a == Some(Succeeded) ==> if session.finalizer then Stored(cluster.state).finalizer else cluster.state.gone
    {
      var step, before := Await();
      if step.None? { return None; }
      a := Some(AnswerOf(step.value.store));
    }

    /** Patch of the published-phase annotation. */
    method Patch() returns (a: Option<Answer>)
      requires Live() && Me().Record? && Me().base == base
      requires session == Me().mem.(published := Me().mem.status.phase)
      modifies this, cluster
      ensures Goes()
      ensures a.None? ==> CutOff()
      ensures a == Some(Succeeded) ==> session == Stored(cluster.state) && session.published == old(session.published)
      ensures a.Some? ==> Me() == Dispatch(cluster.state, base, session) && Lost() == !a.value.Succeeded?
    {
      var step, before := Await();
      if step.None? { return None; }
      a := Some(AnswerOf(step.value.store));
      if a.value.Succeeded? { Refresh(); }
    }

    /** PublishPhaseChange; ok says whether the broker confirmed. */
    method PublishPhaseChange() returns (ok: Option<bool>)
      requires Live() && Me() == Publish(base, session)
      modifies cluster
      ensures Goes()
      ensures ok.None? ==> CutOff()
      ensures ok.Some? ==> Me() == if ok.value then Record(base, session) else Dispatch(cluster.state, base, session)
      ensures ok.Some? ==> Lost() == !ok.value
      ensures ok == Some(true) ==> cluster.state.log != [] && cluster.state.log[|cluster.state.log| - 1] == Event(session.status.phase, true)
    {
      var step, before := Await();
      if step.None? { return None; }
      ok := Some(step.value.publish.Confirmed?);
    }

    /** The publish in reconcileDelete. One that is not wanted is a step without effect. */
    method PublishTerminating(wanted: bool) returns (ok: Option<bool>)
      requires Live() && Me() == DeletePublish(base, session)
      requires wanted <==> cluster.state.config.events && session.published != Terminating
      modifies cluster
      ensures Goes() && (ok.Some? ==> Me() == DeleteFinalizer(base, wanted && ok.value))
      ensures ok.None? ==> CutOff()
    {
      var step, before := Await();
      if step.None? { return None; }
      ok := Some(step.value.publish.Confirmed?);
    }

    /** The lookup of an owned object. */
    method Get(slot: Slot) returns (g: Option<GetOutcome>)
      requires Live() && AtCreate(slot, false) && slot != SSH_SECRET
      modifies this`lookup, cluster
      ensures Goes()
      ensures g.None? ==> CutOff()
      ensures g.Some? ==>
                match g.value
                case Absent => AtCreate(slot, true)
                case Found(o) => if o.mine then Moved(slot) else AtFailure(slot, NotOwned)
                case GetError(e) => AtFailure(slot, e)
    {
      var step, before := Await();
      if step.None? { return None; }
      g, lookup := Some(step.value.get), step.value.usagePod;
    }

    /** The protocol has gone on past `slot`, with the name it records there. */
    ghost predicate Moved(slot: Slot)
      reads this, cluster
    {
      && var st := session.status;
      && var mem := session.(status := if slot == POD then st.(podName := PodName(cluster.state.config))
                                       else if slot == SERVICE then st.(serviceName := ServiceName(cluster.state.config))
                                       else st);
      if slot == INGRESS then Me().CheckPod? && Me().base == base && Me().mem == mem
      else Me().Create? && Me().base == base && Me().mem == mem && Me().slot == slot + 1 && !Me().missing
    }

    /** The create of an owned object. */
    method CreateObject(slot: Slot) returns (c: Option<CreateOutcome>)
      requires Live() && AtCreate(slot, slot != SSH_SECRET)
      modifies this`lookup, cluster
      ensures Goes()
      ensures c.None? ==> CutOff()
      ensures c.Some? ==> if c.value.Created? || c.value.AlreadyExists? then Moved(slot) else AtFailure(slot, c.value.error)
      ensures c.Some? && c.value.Created? ==> slot in cluster.state.objects && cluster.state.objects[slot].mine
    {
      var step, before := Await();
      if step.None? { return None; }
      CreateLeads(before, id, step.value.create, step.value.key, step.value.usagePod);
      c, lookup := Some(step.value.create), step.value.usagePod;
    }

    method GetPod() returns (look: Option<PodOutcome>)
      requires Live() && (AtCheckPod() || Me() == CheckRunning(base, session))
      modifies this`lookup, cluster
      ensures Goes()
      ensures look.None? ==> CutOff()
      ensures look.Some? && old(Me()).CheckRunning? ==>
                Me() == OnRunningPod(cluster.state, old(Me()), look.value, lookup)
      ensures look.Some? && old(Me()).CheckPod? ==>
                match look.value
                case PodAbsent => Me().Idle?
                case PodError => Me().Idle?
                case PodFound(pod) =>
                  if TerminalReasonOf(pod) != Serving
                  then Me() == Fail(cluster.state, base, session, PodStopped(TerminalReasonOf(pod)), lookup)
                  else if IsReady(pod)
                  then && Me().Write? && Me().base == base && Me().next == Finish
                       && Me().status == ToRunning(session.status, pod, Claims(session.storage), cluster.state.now)
                  else Me().Idle?
    {
      var step, before := Await();
      if step.None? { return None; }
      look, lookup := Some(step.value.look), step.value.usagePod;
    }

    /** Reading the clock some time after the last call. */
    method Clock() returns (now: Option<nat>)
      requires Live() && Me() == CheckUnready(base, session)
      modifies this`lookup, cluster
      ensures Goes()
      ensures now.None? ==> CutOff()
      ensures now.Some? ==> now.value == cluster.state.now
                            && Me() == OnUnready(cluster.state, CheckUnready(base, session), lookup)
    {
      var step, before := Await();
      if step.None? { return None; }
      now, lookup := Some(cluster.state.now), step.value.usagePod;
    }

    // -------------------------------------------------------------- the handlers

    /** The read of the session that starts a reconcile, from a cache of any age. */
    method Fetch() returns (got: Option<()>)
      requires Live() && Me().Idle?
      modifies this, cluster
      ensures Goes()
      ensures got.None? ==> CutOff()
      ensures got.Some? ==> Me() == Begin(cluster.state, base, session) && Started()
    {
      var step, before := cluster.Await(id);
      if step.None? || step.value.Crash? { return None; }
      base := step.value.version;
      session := cluster.state.history[base].snap;
      assert Me() == Begin(before, base, session) && before.now == cluster.state.now;
      got := Some(());
    }

    /** Reconcile: a reconcile that ends has been started by a read of the session and has
        taken every step the protocol has for it. Ended or cut off, with whatever the others
        did meanwhile, the stored phase has not gone back and the status keeps its promises. */
    method Run() returns (done: Option<()>)
      requires Live() && Me().Idle?
      modifies this, cluster
      ensures Goes() && (done.Some? ==> Me().Idle?)
      ensures done.None? ==> CutOff()
      ensures done.Some? ==> Started()
      ensures old(Rank(Stored(cluster.state).status.phase)) <= Rank(Stored(cluster.state).status.phase)
      ensures Promises(Stored(cluster.state).status)
    {
      done := Handle();
      PhaseNeverGoesBack(cluster.run, cluster.taken, |old(cluster.taken)|, |cluster.taken|);
      StatusKeepsPromises(cluster.run, cluster.taken, |cluster.taken|);
    }

    method Handle() returns (done: Option<()>)
      requires Live() && Me().Idle?
      modifies this, cluster
      ensures Goes() && (done.Some? ==> Me().Idle?)
      ensures done.None? ==> CutOff()
      ensures done.Some? ==> Started()
    {
      var _ :- Fetch();
      done := Proceed();
    }

    /** Reconcile once the session was read. */
    method Proceed() returns (done: Option<()>)
      requires Live() && Me() == Begin(cluster.state, base, session)
      modifies this, cluster
      ensures Goes() && (done.Some? ==> Me().Idle?)
      ensures done.None? ==> CutOff()
    {
      if session.deleting {
        done := ReconcileDelete();
      } else if !session.finalizer {
        session := session.(finalizer := true);
        var _ :- Update();
        done := Some(());
      } else {
        var _ :- PublishPhase();
        done := ReconcilePhase();
      }
    }

    /** The last step was a publish or a store call that did not answer with success. */
    ghost predicate Lost()
      reads cluster
    {
      match cluster.last
      case Some(PublishCall(w, o)) => w == id && !o.Confirmed?
      case Some(StoreCall(w, o)) => w == id && !o.Applied?
      case _ => false
    }

    /** publishPhase; says whether the publish has to be retried: it was called for and the
        broker or the patch failed. Otherwise there was nothing to publish, or the session
        in memory and in the store records the phase. */
    method PublishPhase() returns (pending: Option<bool>)
      requires Live() && Me() == Begin(cluster.state, base, session) && !session.deleting && session.finalizer
      modifies this, cluster
      ensures Goes() && (pending.Some? ==> Me() == Dispatch(cluster.state, base, session))
      ensures var phase := old(session.status.phase);
              var wanted := cluster.state.config.events && phase != NoPhase && old(session.published) != phase;
              match pending
              case None => true
              case Some(true) => wanted && Lost()
              case Some(false) => wanted ==> session == Stored(cluster.state) && session.published == phase
      ensures pending.None? ==> CutOff()
    {
      var phase := session.status.phase;
      if !cluster.state.config.events || phase == NoPhase || session.published == phase { return Some(false); }
      var ok :- PublishPhaseChange();
      if !ok { return Some(true); }
      session := session.(published := phase);
      var a :- Patch();
      return Some(!a.Succeeded?);
    }

    method ReconcilePhase() returns (done: Option<()>)
      requires Live() && Me() == Dispatch(cluster.state, base, session)
      modifies this, cluster
      ensures Goes() && (done.Some? ==> Me().Idle?)
      ensures done.None? ==> CutOff()
    {
      match session.status.phase
      case NoPhase => done := ReconcilePending();
      case Pending => done := ReconcilePending();
      case Creating => done := ReconcileCreating();
      case Running => done := ReconcileRunning();
      case Failed => done := Some(());
      case Terminating => done := Some(());
    }

    method ReconcilePending() returns (done: Option<()>)
      requires Live() && Me() == Write(base, ToCreating(session.status, cluster.state.now), Finish, NoEvidence())
      modifies this, cluster
      ensures Goes() && (done.Some? ==> Me().Idle?)
      ensures done.None? ==> CutOff()
    {
      var draft := new Draft(session.status);
      draft.StartCreating(cluster.state.now);
      session := session.(status := draft.status);
      var _ :- StatusUpdate(Finish);
      done := Some(());
    }

    /** ensurePVCs: both claims in turn. */
    method EnsurePVCs() returns (r: Option<Ensured>)
      requires Live() && AtCreate(VM_DATA, false)
      modifies this, cluster
      ensures Goes()
      ensures r.None? ==> CutOff()
      ensures match r
              case None => true
              case Some(Done) => AtCreate(SSH_SECRET, false)
              case Some(Failure(k, e)) => k < SSH_SECRET && AtFailure(k, e)
    {
      for slot := VM_DATA to SSH_SECRET
        invariant Goes() && AtCreate(slot, false)
      {
        var one :- EnsureObject(slot);
        if one.Failure? { return Some(one); }
      }
      return Some(Done);
    }

    /** The body shared by the ensure methods: look up, create if missing, check the owner,
        record the name. */
    method EnsureObject(slot: Slot) returns (r: Option<Ensured>)
      requires Live() && AtCreate(slot, false) && slot != SSH_SECRET
      modifies this, cluster
      ensures Goes() && Outcome(slot, r)
      ensures r.None? ==> CutOff()
    {
      var g :- Get(slot);
      if g.Absent? {
        var c :- CreateObject(slot);
        if c.CreateLost? || c.CreateError? { return Some(Failure(slot, c.error)); }
      } else if g.GetError? {
        return Some(Failure(slot, g.error));
      } else if !g.obj.mine {
        return Some(Failure(slot, NotOwned));
      }
      if slot == POD {
        session := session.(status := session.status.(podName := PodName(cluster.state.config)));
      } else if slot == SERVICE {
        session := session.(status := session.status.(serviceName := ServiceName(cluster.state.config)));
      }
      return Some(Done);
    }

    /** EnsureSSHKeySecret: no lookup first, an existing Secret is kept. */
    method EnsureSshKeySecret() returns (r: Option<Ensured>)
      requires Live() && AtCreate(SSH_SECRET, false)
      modifies this, cluster
      ensures Goes() && Outcome(SSH_SECRET, r)
      ensures r.None? ==> CutOff()
    {
      var c :- CreateObject(SSH_SECRET);
      if c.CreateLost? || c.CreateError? { return Some(Failure(SSH_SECRET, c.error)); }
      return Some(Done);
    }

    /** Steps 1 to 4b of reconcileCreating, in order, up to the first error. */
    method EnsureAll() returns (r: Option<Ensured>)
      requires Live() && AtCreate(VM_DATA, false)
      modifies this, cluster
      ensures Goes()
      ensures r.None? ==> CutOff()
      ensures match r
              case None => true
              case Some(Done) => AtCheckPod()
              case Some(Failure(k, e)) => AtFailure(k, e)
    {
      r := EnsurePVCs();
      if r != Some(Done) { return; }
      r := EnsureSshKeySecret();
      if r != Some(Done) { return; }
      r := EnsureServing();
    }

    /** ensurePod, ensureService and ensureIngress. */
    method EnsureServing() returns (r: Option<Ensured>)
      requires Live() && AtCreate(POD, false)
      modifies this, cluster
      ensures Goes()
      ensures r.None? ==> CutOff()
      ensures match r
              case None => true
              case Some(Done) => AtCheckPod()
              case Some(Failure(k, e)) => AtFailure(k, e)
    {
      r := EnsureObject(POD);
      if r != Some(Done) { return; }
      r := EnsureObject(SERVICE);
      if r != Some(Done) { return; }
      r := EnsureObject(INGRESS);
    }

    method ReconcileCreating() returns (done: Option<()>)
      requires Live() && AtCreate(VM_DATA, false)
      modifies this, cluster
      ensures Goes() && (done.Some? ==> Me().Idle?)
      ensures done.None? ==> CutOff()
    {
      var r :- EnsureAll();
      if r.Done? {
        done := CheckCreatedPod();
      } else if r.slot == SSH_SECRET {
        done := UpdateStatusFailed(CreateFailed(r.slot, r.error));
      } else {
        done := HandleCreateError(r.slot, r.error);
      }
    }

    /** Step 5 of reconcileCreating. */
    method CheckCreatedPod() returns (done: Option<()>)
      requires Live() && AtCheckPod()
      modifies this, cluster
      ensures Goes() && (done.Some? ==> Me().Idle?)
      ensures done.None? ==> CutOff()
    {
      var look :- GetPod();
      if !look.PodFound? { return Some(()); }
      var reason := PodTerminalReason(look.pod);
      if reason != Serving { done := UpdateStatusFailed(PodStopped(reason)); return; }
      var ready := IsPodReady(look.pod);
      if !ready { return Some(()); }
      var draft := new Draft(session.status);
      draft.BecomeRunning(look.pod, Claims(session.storage), cluster.state.now);
      session := session.(status := draft.status);
      var _ :- StatusUpdate(Finish);
      return Some(());
    }

    /** The session is failed exactly on a final error; otherwise no call is made. */
    method HandleCreateError(slot: Slot, e: ApiError) returns (done: Option<()>)
      requires Live() && slot != SSH_SECRET && AtFailure(slot, e)
      modifies this, cluster
      ensures Goes() && (done.Some? ==> Me().Idle?)
      ensures done.Some? ==> (old(cluster.taken) < cluster.taken <==> Final(slot, e, old(session.status.startTime), old(cluster.state.now)))
      ensures done.None? ==> CutOff()
    {
      var start := session.status.startTime;
      var expired := start.Some? && cluster.state.now - start.value > CREATING_TIMEOUT;
      if Permanent(e) || expired {
        done := UpdateStatusFailed(CreateFailed(slot, e));
      } else {
        done := Some(());
      }
    }

    /** updateStatusFailed: a failed status write is only logged. */
    method UpdateStatusFailed(reason: Reason) returns (done: Option<()>)
      requires Live() && Me() == Fail(cluster.state, base, session, reason, lookup)
      modifies this, cluster
      ensures Goes() && (done.Some? ==> Me().Idle? && old(cluster.taken) < cluster.taken)
      ensures done.None? ==> CutOff()
    {
      var draft := new Draft(session.status);
      draft.BecomeFailed(reason, SessionPod(session, lookup), Claims(session.storage), cluster.state.now);
      session := session.(status := draft.status);
      var _ :- StatusUpdate(Finish);
      done := Some(());
    }

    method ReconcileRunning() returns (done: Option<()>)
      requires Live() && Me() == CheckRunning(base, session)
      modifies this, cluster
      ensures Goes() && (done.Some? ==> Me().Idle?)
      ensures done.None? ==> CutOff()
    {
      var look :- GetPod();
      if session.status.podName == "" || look.PodAbsent? { done := UpdateStatusFailed(PodGone); return; }
      if look.PodError? { return Some(()); }
      var reason := PodTerminalReason(look.pod);
      if reason != Serving { done := UpdateStatusFailed(PodStopped(reason)); return; }
      var ready := IsPodReady(look.pod);
      if ready { done := RecordRecovery(); } else { done := AwaitRecovery(); }
    }

    /** reconcileRunning with a ready pod. */
    method RecordRecovery() returns (done: Option<()>)
      requires Live()
      requires Me() == if IsTrue(session.status.conditions, PodReady) then Idle
                       else Write(base, SetPodReady(session.status, true, cluster.state.now), Finish, NoEvidence())
      modifies this, cluster
      ensures Goes() && (done.Some? ==> Me().Idle?)
      ensures done.None? ==> CutOff()
    {
      if !IsTrue(session.status.conditions, PodReady) {
        SetCondition(PodReady, true);
        var _ :- StatusUpdate(Finish);
      }
      done := Some(());
    }

    /** reconcileRunning with a pod that is not ready. */
    method AwaitRecovery() returns (done: Option<()>)
      requires Live()
      requires Me() == if IsTrue(session.status.conditions, PodReady)
                       then Write(base, SetPodReady(session.status, false, cluster.state.now), CheckTimeout, NoEvidence())
                       else CheckUnready(base, session)
      modifies this, cluster
      ensures Goes() && (done.Some? ==> Me().Idle?)
      ensures done.None? ==> CutOff()
    {
      if IsTrue(session.status.conditions, PodReady) {
        SetCondition(PodReady, false);
        var a :- StatusUpdate(CheckTimeout);
        if !a.Succeeded? { return Some(()); }
      }
      var now :- Clock();
      var c := Find(session.status.conditions, PodReady);
      if c.Some? && now - c.value.since > POD_UNREADY_TIMEOUT { done := UpdateStatusFailed(PodUnready); return; }
      done := Some(());
    }

    method SetCondition(kind: ConditionType, isTrue: bool)
      modifies this`session
      ensures session == old(session).(status := old(session.status).(conditions :=
                WithCondition(old(session.status.conditions), kind, isTrue, cluster.state.now)))
    {
      var draft := new Draft(session.status);
      draft.SetCondition(kind, isTrue, cluster.state.now);
      session := session.(status := draft.status);
    }

    method ReconcileDelete() returns (done: Option<()>)
      requires Live() && Me() == DeleteStatus(base, session)
      modifies this, cluster
      ensures Goes() && (done.Some? ==> Me().Idle?)
      ensures done.None? ==> CutOff()
    {
      session := session.(status := session.status.(phase := Terminating));
      session := session.(status := session.status.(usage := NO_USAGE));
      var a :- StatusUpdateTerminating();
      if a.NotFound? { return Some(()); }
      var _ :- PublishTerminating(cluster.state.config.events && session.published != Terminating);
      session := session.(finalizer := false);
      var _ :- Update();
      return Some(());
    }
  }
}
