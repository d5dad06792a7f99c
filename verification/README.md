# DozLab session controller: verified model

A Dafny model of the DozLab controller and proofs about it. The controller turns a
`LabSession` into a pod, its volume claims, an SSH key Secret, a Service and an Ingress,
moves the session through its phases, and publishes each phase on RabbitMQ.
`dafny verify dfyconfig.toml` checks everything.

| file | what it holds |
|---|---|
| `Protocol.dfy` | the reconcile protocol as a state machine: stored versions, reconciles in flight, owned objects, the event log, the clock |
| `Reconciler.dfy` | the reconcile handlers as imperative methods, proved to follow the protocol step by step |
| `Safety.dfy` | the invariant every step keeps |
| `Phases.dfy` | whole-run results about the stored phase, the stored status, failing and deletion |
| `Outcomes.dfy` | whole-run results about what every answer leads a reconcile to write |
| `Objects.dfy`, `Race.dfy` | whole-run results about the owned objects and becoming Running, and a run that shows why an outsider's race is ruled out |
| `Events.dfy`, `Delivery.dfy` | whole-run results about published events |
| `Session.dfy`, `Workload.dfy`, `Wrappers.dfy` | status updates, conditions, pod health, usage; `Option` |
| `CircuitBreaker.dfy` | the circuit breaker, its class and every interleaving of calls |
| `SshKeys.dfy`, `Base64.dfy` | the OpenSSH key encoders and readers for them |
| `Publisher.dfy` | the RabbitMQ connection lifecycle |
| `Retry.dfy`, `Sizing.dfy`, `Routes.dfy` | the legacy retry loop, VM sizing and usage, per-session routes |

## How the protocol is modelled

Any number of reconciles (`Worker`) run at once against one stored session. Each API call is
one step; between two calls of one reconcile the others, the user, the kubelet, outsiders and
the clock may do anything. The history of stored versions is kept whole and a version's index
is its resourceVersion.

- `Update` and `Status().Update` take effect only on the current version; a write that changes
  nothing keeps the version; `Status().Update` writes only the status; `Patch` carries no version
  and refreshes the in-memory session on success; `Create` fails if the name is taken.
- Every call may succeed, fail without effect, or take effect and lose its answer. A crash may
  end a reconcile between any two calls.
- A session read may return any version ever stored. An object read may miss an object that
  exists or return one that no longer does. Results that need more say so: `ReadsCurrent`,
  `MonotoneRun`, `CurrentSession`, `NoOutsiders`.
- Time is in whole seconds, as `metav1.Time` is stored, and shared by all controllers.
- `log` holds every delivered event, also one whose confirm was lost. `missed` counts the
  confirmed publishes that ended without being recorded (`Unrecorded`). `seen` and `evidence` record what
  was in the store while a reconcile ran; `SeenWasControlled` and `PodEvidence` prove that.

The handlers themselves are methods of `Reconciler.Reconcile`. They update the session in memory
with loops and assignments and call a `Cluster` that plays an arbitrary schedule of everyone
else's steps between two calls. Each API call requires its arguments to be what the protocol says
at that point, and each handler ensures where the protocol stands when it returns. It returns
without an answer only if it was cut off (`CutOff`): the controller crashed during the call or
nothing more is scheduled. A handler that skipped a call, took another branch or wrote another
status would not verify; what is proved of every run of the protocol therefore holds of the
handlers under every schedule.

## Where the code and its documentation differ

- The repository's README says Terminating is published once (README.md:215). The annotation is
  never set to Terminating, so the check before that publish never holds it back
  (`DeleteAlwaysPublishes`), and each delete reconcile whose finalizer removal fails publishes it
  again (`FailedDeletionRepeatsTerminating`): every new session has runs that publish it any number
  of times (`TerminatingRepeats`). `PublishedOncePlusMisses` gives the exact count.
- `Reset` says it resets the breaker to closed; it starts a generation and keeps the state
  (`ResetKeepsState`).
- Under the default trip rule a HalfOpen breaker with at most five allowed calls that have all
  failed neither reopens nor admits another call (`FailedProbeSticks`, `ExhaustedIsStuck`). A run
  from the first generation gets there exactly if at most five calls are allowed and the interval
  is not negative (`StuckExactly`); the default is one call.
- A CPU request within 999m of the int64 limit overflows when rounded up and gets one vCPU; the
  legacy cap hides that, so the two agree exactly below it (`CapKeepsVm`), and CPU is monotone
  exactly short of it (`CpusMonotone`). Memory is not monotone around zero, because zero takes the
  default (`MemoryMonotone`). A request that is missing or does not parse gets a larger VM through
  the cap (`CapChangesDefault`).
- The create that finds the name taken skips the ownership check, so a Pod an outsider creates at
  that moment is taken for the session's own (`RacedSessionRunsForeignPod`).

## Model

| member | source | states |
|---|---|---|
| Phases.PhaseFollowsEdges | internal/controller/reconciler.go:82-161 | for any number of controllers, stale reads, failures and crashes, every step leaves the stored phase or moves it along ""/Pending to Creating, Creating to Running, Creating or Running to Failed, or to Terminating once deletion is marked |
| Phases.PhaseNeverGoesBack | internal/controller/reconciler.go:124-161 | over any stretch of a run the phase rank never decreases, Terminating and the deletion mark are never left, the start time never changes |
| Phases.StatusKeepsPromises | internal/controller/reconciler.go:213-235 | every stored status: one condition per type; Creating has a start time; Running has pod and service names, exactly one PodReady, Ready=True and usage running; Failed has Ready=False; Terminating has no usage |
| Phases.UnreadyFailureWasEarned | internal/controller/reconciler.go:269-295 | a session failed for unreadiness had PodReady=False stored more than podUnreadyTimeout earlier, with no recovery stored since |
| Phases.NoRecoverySince | internal/controller/reconciler.go:596-618 | PodReady False since t in a version means every version written after t up to it says the same |
| Outcomes.UnreadyTooLongFails | internal/controller/reconciler.go:269-295 | a whole reconcile that reads a Running session stored as unready and finds its pod still not ready is about to make it Failed exactly if that is more than 120 seconds old, and does once the write succeeds; otherwise it writes nothing, whatever the others do in between |
| Phases.CreateFailureWasEarned | internal/controller/reconciler.go:58-61 | a session failed by a create step met an invalid object, a bad request or another's object, or any error in the Secret step, or a transient error more than 600 seconds after its start time |
| Phases.TransientFailureIsLate | internal/controller/reconciler.go:149-152 | a transient error outside the Secret step fails no session within 600 seconds of the version before Creating: the start time lies between the storing of that version and of the Creating one, and the failure comes more than 600 seconds after it |
| Phases.StartTimeIsWhenStored | internal/controller/reconciler.go:151 | the version that first has a start time has one between the times the version before it and it itself were stored |
| Phases.CreateErrorOutcome | internal/controller/reconciler.go:168-198 | after an error in a create step the reconcile is about to fail the session, and does once the write succeeds, exactly if the object is invalid, the request bad, the object another's, the step the Secret's, or the start time more than 600 seconds past; otherwise it stops and writes nothing |
| Phases.FailureOrigin | internal/controller/reconciler.go:574-590 | every stored Failed status traces back to the version it replaced, which justified its reason |
| Outcomes.ReadLeads | internal/controller/reconciler.go:82-141 | a read leads to the deletion, to the finalizer, to the publish of a phase not yet recorded, or to its phase's handler; a new session is about to be Creating, started at that moment |
| Outcomes.PublishLeads | internal/controller/reconciler.go:396-406 | a due publish is delivered as its outcome says, recorded next if confirmed, and otherwise the phase handler goes on |
| Outcomes.RecordLeads | internal/controller/reconciler.go:408-420 | recording changes only the annotation of the current version, whatever version was read; the handler goes on with the session as stored, or as read if the patch was not answered |
| Outcomes.LookupLeads | internal/controller/reconciler.go:447-467 | an object found and controlled is passed with its name recorded, a missing one is created next |
| Outcomes.CreateLeads | internal/controller/reconciler.go:485-495 | a create stores the session's own object, or nothing if the name is taken, and either way goes on to the next |
| Outcomes.ReachesPodCheck | internal/controller/reconciler.go:164-198 | a reconcile of a Creating session whose create calls meet no error checks its pod within twelve of its steps, holding the version it read, with both names recorded, whatever others and outsiders do |
| Outcomes.CreatedPodLeads | internal/controller/reconciler.go:200-244 | a pod that cannot serve is about to fail the session, a ready one to make it Running with all three conditions true and its usage, any other answer leaves it |
| Outcomes.RunningPodLeads | internal/controller/reconciler.go:247-295 | for every answer to a Running session's lookup: gone or unable to serve is about to be Failed with its reason, ready again is about to be recorded with this moment, newly unready too, long unready goes to the timeout check |
| Outcomes.UnreadyLeads | internal/controller/reconciler.go:288-294 | the timeout check is about to fail the session exactly if it was stored as unready more than 120 seconds before |
| Outcomes.LostPodFails | internal/controller/reconciler.go:247-265 | a whole reconcile of a Running session whose pod is gone or cannot serve is about to make it Failed with that reason, and does once the write succeeds |
| Outcomes.WriteOutcome | internal/controller/reconciler.go:574-593 | a status write that takes effect stores exactly that status over the version it was decided on and nothing else; a refused one stores nothing |
| Outcomes.DeleteStatusLeads | internal/controller/reconciler.go:351-367 | deletion stores Terminating without usage, keeps the rest of the status, and goes on unless the session is gone |
| Outcomes.DeletePublishLeads | internal/controller/reconciler.go:369-389 | Terminating is delivered exactly if events are on, and then the finalizer and with it the session is removed |
| Outcomes.FinalizerLeads | internal/controller/reconciler.go:103-110 | the finalizer is added to the current version and nothing else changes |
| Phases.FinalizerGuards | internal/controller/reconciler.go:97-110 | objects are created only for versions carrying the finalizer, and such a session disappears only once deletion is marked |
| Phases.DeletionProceeds | internal/controller/reconciler.go:351-389 | deletion goes on to the finalizer whatever the status write and the broker answer, and its success removes the session |
| Safety.StepKeeps | internal/controller/reconciler.go:82-421 | one step of any kind keeps the invariant tying every stored version to the one before it and every reconcile in flight to the version it holds |
| Safety.EffectOk | internal/controller/reconciler.go:588-590 | whichever store call takes effect, the version it adds is a legal successor of the current one |
| Safety.AfterStoreOk | internal/controller/reconciler.go:408-420 | a reconcile goes on from a state that fits it after any answer, including the refresh a patch or status write brings |
| Safety.ToRunningLegal | internal/controller/reconciler.go:213-235 | becoming Running over a Creating version keeps every status promise |
| Safety.ToFailedLegal | internal/controller/reconciler.go:574-593 | becoming Failed over a Creating or Running version keeps every status promise |
| Reconciler.Reconcile.Run | internal/controller/reconciler.go:82-121 | under any schedule a reconcile reads the session and takes every step the protocol has for it, unless cut off by a crash or the end of the schedule; either way the stored phase has not gone back and the stored status keeps its promises |
| Reconciler.Reconcile.PublishPhase | internal/controller/reconciler.go:396-421 | publish and patch exactly when the protocol does, ending where the phase handler starts; reports a retry exactly if a publish was called for and the broker or the patch failed, and otherwise the stored session records the phase or there was nothing to publish |
| Reconciler.Reconcile.ReconcilePhase | internal/controller/reconciler.go:124-141 | from each phase the handler takes the protocol's steps to its end |
| Reconciler.Reconcile.ReconcilePending | internal/controller/reconciler.go:144-161 | the status it writes is the protocol's move to Creating |
| Reconciler.Reconcile.ReconcileCreating | internal/controller/reconciler.go:164-244 | the handler follows the protocol to its end through every ensure step, error and pod check |
| Reconciler.Reconcile.EnsurePVCs | internal/controller/reconciler.go:439-470 | the loop takes the protocol through both claims in order, or stops at the failing one |
| Reconciler.Reconcile.EnsureObject | internal/controller/reconciler.go:473-505 | lookup, create, ownership check and recorded name lead where the protocol goes, or report its error |
| Reconciler.Reconcile.EnsureSshKeySecret | internal/controller/ssh_keys.go:105-121 | the Secret is created without a lookup and an existing one is kept |
| Reconciler.Reconcile.CheckCreatedPod | internal/controller/reconciler.go:200-244 | the pod check ends as the protocol does: Failed, Running or waiting |
| Reconciler.Reconcile.HandleCreateError | internal/controller/reconciler.go:301-309 | the session is failed exactly when the protocol fails it |
| Reconciler.Reconcile.UpdateStatusFailed | internal/controller/reconciler.go:574-593 | the status built in place is the protocol's Failed status and the reconcile ends whatever the write answers |
| Reconciler.Reconcile.ReconcileRunning | internal/controller/reconciler.go:247-296 | lookup, terminal, recovery and timeout branches follow the protocol to its end |
| Reconciler.Reconcile.AwaitRecovery | internal/controller/reconciler.go:278-294 | unreadiness is recorded first, and the timeout is checked on what was then stored |
| Reconciler.Reconcile.ReconcileDelete | internal/controller/reconciler.go:351-389 | status, publish and finalizer calls in the protocol's order, stopping early only if the session is gone |
| Reconciler.Reconcile.StatusUpdate | internal/controller/reconciler.go:231-234 | a successful status write stores exactly the in-memory status and refreshes the session |
| Reconciler.Reconcile.Patch | internal/controller/reconciler.go:408-418 | a successful patch stores the annotation and refreshes the session; a failed one leaves the one in memory |
| Objects.ObjectsFormPrefix | internal/controller/reconciler.go:164-198 | without outsiders the existing objects are always the first few of the creation order, each is created at most once, and what exists, the SSH key pair included, never changes |
| Objects.ErrorFreeCreatingReachesAll | internal/controller/reconciler.go:439-540 | a reconcile in Creating whose create calls meet no error has all six objects in place within twelve of its steps, however stale its reads |
| Objects.OrderedCreate | internal/controller/ssh_keys.go:105-121 | a create call, also one that finds the object there, keeps the order, the create count and the existing objects |
| Objects.RunningOnlyWhenAllPresent | internal/controller/reconciler.go:168-235 | with current object reads and no racing outsider, a session becomes Running only by a reconcile during which both claims, Pod, Service and Ingress were stored and controlled by it and the stored Pod was ready and serving |
| Race.RacedSessionRunsForeignPod | internal/controller/reconciler.go:485-495 | the race has to be ruled out: with current reads and one outsider's step between lookup and create, a run makes the session Running without it ever having controlled a Pod |
| Objects.SeenWasControlled | internal/controller/reconciler.go:464-466 | what a reconcile counts as seen was stored and controlled by the session at a moment of that same reconcile |
| Objects.BackedGet | internal/controller/ingress.go:95-121 | the lookup of an object with its ownership check keeps that every earlier object was seen controlled |
| Events.DeliveredPhasesAdvance | internal/controller/reconciler.go:396-421 | with one controller whose cache never goes backwards, delivered phases never step back, and strictly advance after dropping repeated IDs, which drops nothing else |
| Events.EventIdInjective | internal/events/publisher.go:57-79 | two event IDs are equal exactly when UID and phase are |
| Events.SortedDeduplicatesStrictly | internal/events/publisher.go:41-54 | dropping repeated IDs from a rank-ordered log leaves strictly advancing phases |
| Events.DropsOnlyRepeats | internal/events/publisher.go:41-54 | every delivered event is kept or has its ID kept before it |
| Events.AnnotationMeansConfirmed | internal/controller/reconciler.go:408-420 | a stored published-phase was confirmed by the broker and was itself stored by then; it is never Terminating |
| Delivery.PublishedOncePlusMisses | internal/controller/reconciler.go:396-421 | with one controller and current reads, each phase is confirmed exactly as often as its confirmed publishes ended unrecorded, plus once if one was recorded or is about to be; so twice only after such a miss |
| Delivery.DeleteAlwaysPublishes | internal/controller/reconciler.go:371-378 | every delete reconcile that reaches the publish publishes Terminating, whatever was published before |
| Delivery.FailedDeletionRepeatsTerminating | internal/controller/reconciler.go:351-385 | a delete reconcile whose finalizer removal fails publishes Terminating and leaves the session awaiting deletion as before |
| Delivery.TerminatingRepeats | internal/controller/reconciler.go:369-385 | from every new session and for every k there is a run of one controller with current reads that confirms Terminating k times |
| Session.Draft.SetCondition | internal/controller/reconciler.go:596-618 | the in-place loop sets the first condition of the type if its value flips, appends if there is none, and changes nothing else |
| Session.WithConditionFind | internal/controller/reconciler.go:596-618 | a set condition is found with the requested value, keeps its transition time if the value did not flip, and other types are untouched |
| Session.WithConditionUnique | internal/controller/reconciler.go:607-617 | setting a condition keeps at most one per type |
| Session.WithConditionAt | internal/controller/reconciler.go:608-617 | exactly the first match changes, or one condition is appended |
| Session.Draft.StartCreating | internal/controller/reconciler.go:149-152 | the in-place update to Creating with the start time |
| Session.Draft.BecomeRunning | internal/controller/reconciler.go:216-230 | the in-place update to Running with usage and the three conditions |
| Session.Draft.BecomeFailed | internal/controller/reconciler.go:577-586 | the in-place update to Failed with reason, usage and Ready=False |
| Workload.PodTerminalReason | internal/controller/reconciler.go:313-326 | the loop returns the specified reason: deletion, then a finished phase, then the first exited container |
| Workload.TerminalReasonOf | internal/controller/reconciler.go:313-326 | the pod's deletion, else the phase it finished in, else its first exited container, else none |
| Workload.IsPodReady | internal/controller/reconciler.go:329-339 | the loop decides whether a running pod has a true Ready condition |
| Workload.UsageOf | internal/controller/usage.go:13-45 | the loops sum the claims, and the containers' requests while the pod holds them |
| Workload.UsageAdds | internal/controller/usage.go:13-45 | each claim and container adds its own request, CPU and memory exactly while the pod exists, is not being deleted and has not finished |
| CircuitBreaker.CountersMatchHistory | pkg/circuitbreaker/circuit_breaker.go:188-240 | for every interleaving, Requests is successes plus failures plus calls in flight of the generation, and all five counters are functions of its outcome history, modulo 2^32 |
| CircuitBreaker.StateMeansCounts | pkg/circuitbreaker/circuit_breaker.go:188-254 | Open means all counts zero and nothing in flight; HalfOpen means no success and failures at most requests at most maxRequests |
| CircuitBreaker.NoAdmissionWhileOpen | pkg/circuitbreaker/circuit_breaker.go:242-288 | after opening at t no call is admitted up to t + timeout, whatever else happens |
| CircuitBreaker.GenerationsIncrease | pkg/circuitbreaker/circuit_breaker.go:256-288 | resets, rollovers and state changes start a new generation; nothing lowers it |
| CircuitBreaker.OpensAtSixthFailure | pkg/circuitbreaker/circuit_breaker.go:91-95 | under the default rule a counted failure opens the breaker exactly when it is the sixth in a row |
| CircuitBreaker.StepExactly | pkg/circuitbreaker/circuit_breaker.go:188-288 | every step of every run, for any trip rule, from the outcome history and the times alone: a success in HalfOpen closes, the rule tripping on the history with one more failure opens, an expired Open turns HalfOpen, and a generation ends exactly on a reset, when its time is over or when the state changes |
| CircuitBreaker.AdmittedExactly | pkg/circuitbreaker/circuit_breaker.go:188-203 | a call is admitted if and only if the breaker is closed, half-open with fewer than maxRequests calls, or open for longer than the timeout |
| CircuitBreaker.ProbeSuccessCloses | pkg/circuitbreaker/circuit_breaker.go:222-230 | a counted success in HalfOpen leaves the breaker closed with zero counts, admitting every call |
| CircuitBreaker.OpensOnlyOnFailure | pkg/circuitbreaker/circuit_breaker.go:232-240 | a breaker opens only by a failed call of its generation on whose history the rule trips |
| CircuitBreaker.RecoversAfterTimeout | pkg/circuitbreaker/circuit_breaker.go:242-254 | a call after the timeout is admitted, and once it succeeds in its generation the breaker admits every call, whatever happened in between |
| CircuitBreaker.StaleOutcomeIgnored | pkg/circuitbreaker/circuit_breaker.go:205-220 | an outcome from another generation has no effect, success or failure |
| CircuitBreaker.ExhaustedIsStuck | pkg/circuitbreaker/circuit_breaker.go:195-199 | a HalfOpen breaker whose allowed calls all failed rejects every call until Reset |
| CircuitBreaker.ExhaustedOnlyWithFewProbes | pkg/circuitbreaker/circuit_breaker.go:232-240 | under the default rule that needs at most five allowed calls |
| CircuitBreaker.FailedProbeSticks | pkg/circuitbreaker/circuit_breaker.go:195-240 | with at most five allowed calls, the last one failing leads there |
| CircuitBreaker.StuckExactly | pkg/circuitbreaker/circuit_breaker.go:82-95 | under the default rule some run from the first generation, on a clock that does not go back, gets stuck if and only if at most five calls are allowed and the interval is not negative |
| CircuitBreaker.NegativeIntervalNeverOpens | pkg/circuitbreaker/circuit_breaker.go:242-288 | with a negative interval every step starts a generation and the breaker never opens |
| CircuitBreaker.CircuitBreaker.constructor | pkg/circuitbreaker/circuit_breaker.go:70-104 | the three defaults, the trip rule's included, and the first generation |
| CircuitBreaker.CircuitBreaker.BeforeRequest | pkg/circuitbreaker/circuit_breaker.go:188-203 | admission and the new state as specified |
| CircuitBreaker.CircuitBreaker.AfterRequest | pkg/circuitbreaker/circuit_breaker.go:205-240 | the new state as specified, stale calls ignored |
| CircuitBreaker.CircuitBreaker.CurrentState | pkg/circuitbreaker/circuit_breaker.go:242-254 | rollover and half-opening as specified |
| CircuitBreaker.CircuitBreaker.SetState | pkg/circuitbreaker/circuit_breaker.go:256-269 | a change of state starts a generation, no change does nothing |
| CircuitBreaker.CircuitBreaker.ToNewGeneration | pkg/circuitbreaker/circuit_breaker.go:271-288 | the next generation, zero counts and the state's expiry |
| CircuitBreaker.CircuitBreaker.Reset | pkg/circuitbreaker/circuit_breaker.go:161-166 | a new generation in the same state |
| SshKeys.PrivateKeyRoundTrip | internal/controller/ssh_keys.go:78-100 | reading the encoded private key gives back check value, both key halves and comment, if and only if the private section's length fits in 32 bits |
| SshKeys.NamesOnTheWire | internal/controller/ssh_keys.go:91-94 | the magic, key type and cipher names are the bytes the readers expect |
| SshKeys.PrivateSectionPadded | internal/controller/ssh_keys.go:83-90 | the private section is a multiple of 8 bytes ending in 1..k with k at most 7 |
| SshKeys.OpenSshPrivateKey | internal/controller/ssh_keys.go:78-100 | the buffers grown step by step are the specified blob |
| SshKeys.Pad | internal/controller/ssh_keys.go:88-90 | the padding loop adds exactly the specified bytes |
| SshKeys.AuthorizedKeyRoundTrip | internal/controller/ssh_keys.go:71-73 | the authorized_keys line parses back to key and comment if and only if the comment is non-empty and free of whitespace |
| SshKeys.StringRoundTrip | internal/controller/ssh_keys.go:60-63 | a length-prefixed field reads back, with what follows it, if and only if its length fits in 32 bits |
| SshKeys.PublicBlobRoundTrip | internal/controller/ssh_keys.go:66-68 | the public key blob reads back to the key |
| Base64.RoundTrip | internal/controller/ssh_keys.go:72 | decoding the base64 text of any bytes gives the bytes back |
| Publisher.AtMostOneConnection | internal/events/publisher.go:147-185 | over any run of publishes, failures and drops, at most one dialed connection is open between calls and it is the stored one |
| Publisher.NothingAfterClose | internal/events/publisher.go:187-198 | after Close nothing is open and no publish dials or succeeds |
| Publisher.SucceedsExactly | internal/events/publisher.go:105-145 | a publish succeeds if and only if Close was never called, the channel is open or a new one can be set up, and the broker acknowledges; it then leaves one open connection with its channel |
| Publisher.PublishLeaves | internal/events/publisher.go:105-185 | what every publish leaves: it dials exactly if its channel is gone; a connection stays open exactly if one could be had and the broker answered; after a failed send, wait or set-up nothing is open |
| Publisher.RabbitPublisher.PublishPhaseChange | internal/events/publisher.go:117-145 | result and new connection state as specified |
| Publisher.RabbitPublisher.Channel | internal/events/publisher.go:148-177 | reuse, reconnect, and closing the new connection on every failure |
| Publisher.RabbitPublisher.Reset | internal/events/publisher.go:180-185 | the stored connection is closed and forgotten |
| Publisher.RabbitPublisher.Close | internal/events/publisher.go:188-198 | the connection is closed and the publisher marked closed |
| Retry.UpdateStatusWithRetry | controllers/labsession_controller.go:461-495 | despite any concurrent writers, stale refetches and lost answers it succeeds exactly with the first attempt that meets no fault while holding the current version, each attempt holding what the last conflict's refetch returned, and gives up only after maxAttempts; on success the stored object is the version replaced with exactly the caller's status, or for a caller without one the first found in a refetch; it sleeps exactly the back-off of its attempts |
| Retry.RefetchRecovers | controllers/labsession_controller.go:470-484 | after a conflict and an up-to-date refetch the next attempt lands if nobody writes in between |
| Retry.DelaysDouble | controllers/labsession_controller.go:443-458 | delays start at the base, or two seconds without one, and double up to a minute |
| Retry.TotalDelayBounded | controllers/labsession_controller.go:443-458 | n attempts sleep at most (2^(n-1)-1) times the base and a minute between two |
| Retry.FiveAttempts | controllers/labsession_controller.go:443-458 | five attempts sleep exactly 1, 2, 4 and 8 times the base, each at most a minute, so at most 15 times the base and 240 seconds |
| Sizing.SizeOf | internal/controller/resource_builder.go:512-527 | the field-by-field sizing, always within 1 to 8 vCPUs and 128 to 16384 MiB |
| Sizing.CapKeepsVm | controllers/labsession_controller.go:392-416 | capping first leaves the VM unchanged for every parsable memory request and exactly the CPU requests that do not overflow when rounded up |
| Sizing.CpusMonotone | internal/controller/resource_builder.go:515-524 | exactly when more CPU requested gives no fewer vCPUs: unless the larger request overflows when rounded up and the smaller is above 1000m and does not |
| Sizing.CpusOf | internal/controller/resource_builder.go:515-524 | the vCPUs are the millicores rounded up, at most 8, and one without a positive request or if rounding up overflows |
| Sizing.MemoryOfRequest | internal/controller/resource_builder.go:518-525 | the memory is the whole MiB requested, within 128 and 16384, and 1024 without a positive request |
| Sizing.CapLimits | controllers/labsession_controller.go:392-416 | the cap lowers to 8 CPUs and 16 GiB and keeps what is smaller |
| Sizing.MemoryMonotone | internal/controller/resource_builder.go:518-525 | exactly when more memory requested gives no less memory |
| Sizing.UsageOfSession | internal/controller/usage.go:13-45 | a pod holding its resources reports 850m CPU, VM memory plus 1408 MiB and disk plus 5 GiB; otherwise only storage |
| Routes.RoutesDisjoint | internal/controller/ingress.go:32-54 | a request path matches at most one (session, app) route |
| Routes.StripsMatchedRoute | deploy/session-ingress-middleware.yaml:10-12 | for every matching request the middleware strips exactly the route's prefix |
| Routes.EndpointServesRoot | internal/controller/ingress.go:83-92 | an endpoint's path matches its route, and stripping it leaves "/" if and only if the ID is non-empty |
| Routes.StripRoute | deploy/session-ingress-middleware.yaml:10-12 | a path under a route is stripped to what follows if and only if the ID is non-empty |
| Routes.StripSplits | deploy/session-ingress-middleware.yaml:10-12 | whatever is stripped was /sessions/, a non-empty ID, a slash, a non-empty app, and what is left begins there |
| Routes.BuildPaths | internal/controller/ingress.go:42-54 | the vscode and terminal routes, ports 8080 and 8081, to the session's Service |
| Routes.SessionEndpoints | internal/controller/ingress.go:85-92 | one URL per app on the trimmed base URL |

## Left out

- Aliasing between the session and its deep copy: a handler holds its session in one field that it reassigns. The read that starts a reconcile has no failing outcome; one that failed would change nothing.
- Requeue decisions and their delays: they only decide when the next reconcile starts, and a reconcile may start at any time here.
- Status message, pod IP, VM IP, endpoints in the status, observed generation, and Kubernetes event recording: they only add easy members.
- A second session with the same name and another UID while an old reconcile is still running, and finalizers of other controllers.
- Malformed storage requests, on which BuildPVCs panics.
- Clock skew between controllers.
- Fractions of a second: both timeouts compare whole seconds, where the code's clock is finer, so a session unready for 120.5 seconds is failed by the code and less than a second later here.
- Garbage collection of owned objects after the session is gone counts as an outsider's deletion.
- The breaker's Manager map, callbacks that panic or re-enter, and generations beyond 2^64.
- PEM armour, key generation, JSON, the AMQP client itself, Quantity parsing and printing.
- Retry.TotalDelayBounded: floating point is not modelled; the product is exact for base delays below 2^53 ns and five attempts.
- getWithRetry, updateWithRetry, the legacy controller's phases and its deletion: easy claims, or none that hold.
- Container specs, probes, images, ports and environment in BuildPod beyond the resource requests.
- Flag binding, manager and leader election set-up, logging, metrics, tracing and the error classification table.
