/** The circuit breaker (pkg/circuitbreaker/circuit_breaker.go): the class updated under
    its mutex, the transition functions that specify it, and every interleaving of calls
    through it. beforeRequest and afterRequest are separate steps. */
module CircuitBreaker {
  import opened Wrappers

  datatype CircuitState = Closed | HalfOpen | Open
  datatype Counts = Counts(requests: nat, totalSuccesses: nat, totalFailures: nat,
                           consecutiveSuccesses: nat, consecutiveFailures: nat)
  datatype Config = Config(maxRequests: nat, interval: int, timeout: int, readyToTrip: Counts -> bool)

  /** No expiry stands for the zero time. */
  datatype Breaker = Breaker(state: CircuitState, generation: nat, counts: Counts, expiry: Option<int>)

  const WORD := 0x1_0000_0000
  const ZERO := Counts(0, 0, 0, 0, 0)
  const DEFAULT_TIMEOUT := 60_000_000_000

  /** A uint32 increment. */
  function Inc(x: nat): nat {
    (x + 1) % WORD
  }

  predicate DefaultTrip(counts: Counts) {
    counts.consecutiveFailures > 5
  }

  // ---------------------------------------------------------------- transitions

  function NewGeneration(c: Config, b: Breaker, now: int): Breaker {
    b.(generation := b.generation + 1, counts := ZERO,
       expiry := match b.state
                 case Closed => if c.interval == 0 then None else Some(now + c.interval)
                 case Open => Some(now + c.timeout)
                 case HalfOpen => None)
  }

  function SetTo(c: Config, b: Breaker, state: CircuitState, now: int): Breaker {
    if b.state == state then b else NewGeneration(c, b.(state := state), now)
  }

  function Current(c: Config, b: Breaker, now: int): Breaker {
    match b.state
    case Closed => if b.expiry.Some? && b.expiry.value < now then NewGeneration(c, b, now) else b
    case Open => if b.expiry.None? || b.expiry.value < now then SetTo(c, b, HalfOpen, now) else b
    case HalfOpen => b
  }

  predicate Admits(c: Config, b: Breaker, now: int) {
    var b1 := Current(c, b, now);
    b1.state != Open && !(b1.state == HalfOpen && b1.counts.requests >= c.maxRequests)
  }

  function Before(c: Config, b: Breaker, now: int): Breaker {
    var b1 := Current(c, b, now);
    if Admits(c, b, now) then b1.(counts := b1.counts.(requests := Inc(b1.counts.requests))) else b1
  }

  function Succeeded(n: Counts): Counts {
    n.(totalSuccesses := Inc(n.totalSuccesses), consecutiveSuccesses := Inc(n.consecutiveSuccesses), consecutiveFailures := 0)
  }

  function FailedOnce(n: Counts): Counts {
    n.(totalFailures := Inc(n.totalFailures), consecutiveFailures := Inc(n.consecutiveFailures), consecutiveSuccesses := 0)
  }

  function After(c: Config, b: Breaker, generation: nat, success: bool, now: int): Breaker {
    var b1 := Current(c, b, now);
    if b1.generation != generation then b1
    else if success then
      var b2 := b1.(counts := Succeeded(b1.counts));
      if b1.state == HalfOpen then SetTo(c, b2, Closed, now) else b2
    else
      var b2 := b1.(counts := FailedOnce(b1.counts));
      if c.readyToTrip(b2.counts) then SetTo(c, b2, Open, now) else b2
  }

  // ---------------------------------------------------------------- the class

  class CircuitBreaker {
    const config: Config
    var state: CircuitState
    var generation: nat
    var counts: Counts
    var expiry: Option<int>

    function View(): Breaker
      reads this
    {
      Breaker(state, generation, counts, expiry)
    }

    /** A zero MaxRequests or Timeout and a missing ReadyToTrip take their defaults. */
    constructor (maxRequests: nat, interval: int, timeout: int, readyToTrip: Option<Counts -> bool>, now: int)
      ensures config == Config(if maxRequests == 0 then 1 else maxRequests, interval,
                               if timeout == 0 then 60_000_000_000 else timeout,
                               if readyToTrip.Some? then readyToTrip.value else DefaultTrip)
      ensures View() == NewGeneration(config, Breaker(Closed, 0, ZERO, None), now)
    {
      config := Config(if maxRequests == 0 then 1 else maxRequests, interval,
                       if timeout == 0 then DEFAULT_TIMEOUT else timeout,
                       if readyToTrip.Some? then readyToTrip.value else DefaultTrip);
      state, generation, counts, expiry := Closed, 0, ZERO, None;
      new;
      ToNewGeneration(now);
    }

    method ToNewGeneration(now: int)
      modifies this
      ensures View() == NewGeneration(config, old(View()), now)
    {
      generation := generation + 1;
      counts := ZERO;
      match state {
        case Closed =>
          if config.interval == 0 { expiry := None; } else { expiry := Some(now + config.interval); }
        case Open => expiry := Some(now + config.timeout);
        case HalfOpen => expiry := None;
      }
    }

    method SetState(target: CircuitState, now: int)
      modifies this
      ensures View() == SetTo(config, old(View()), target, now)
    {
      if state == target { return; }
      state := target;
      ToNewGeneration(now);
    }

    method CurrentState(now: int)
      modifies this
      ensures View() == Current(config, old(View()), now)
    {
      match state {
        case Closed => if expiry.Some? && expiry.value < now { ToNewGeneration(now); }
        case Open => if expiry.None? || expiry.value < now { SetState(HalfOpen, now); }
        case HalfOpen =>
      }
    }

    method BeforeRequest(now: int) returns (token: nat, admitted: bool)
      modifies this
      ensures admitted == Admits(config, old(View()), now)
      ensures View() == Before(config, old(View()), now) && token == generation
    {
      CurrentState(now);
      token := generation;
      if state == Open || (state == HalfOpen && counts.requests >= config.maxRequests) {
        admitted := false;
      } else {
        counts := counts.(requests := Inc(counts.requests));
        admitted := true;
      }
    }

    method AfterRequest(token: nat, success: bool, now: int)
      modifies this
      ensures View() == After(config, old(View()), token, success, now)
      ensures old(state) == HalfOpen && token == old(generation) ==>
                if success then state == Closed && counts == Counts(0, 0, 0, 0, 0) && generation == token + 1
                else state == HalfOpen || state == Open
    {
      CurrentState(now);
      if generation != token { return; }
      if success {
        counts := counts.(totalSuccesses := Inc(counts.totalSuccesses));
        counts := counts.(consecutiveSuccesses := Inc(counts.consecutiveSuccesses), consecutiveFailures := 0);
        if state == HalfOpen { SetState(Closed, now); }
      } else {
        counts := counts.(totalFailures := Inc(counts.totalFailures));
        counts := counts.(consecutiveFailures := Inc(counts.consecutiveFailures), consecutiveSuccesses := 0);
        if config.readyToTrip(counts) { SetState(Open, now); }
      }
    }

    method Reset(now: int)
      modifies this
      ensures View() == NewGeneration(config, old(View()), now)
    {
      ToNewGeneration(now);
    }
  }

  // ---------------------------------------------------------------- concurrent use

  /** The breaker, the generations of the admitted calls still running, and the outcomes
      counted in the current generation, oldest first. */
  datatype World = World(breaker: Breaker, inFlight: multiset<nat>, outcomes: seq<bool>)

  datatype Op = Call(now: int) | Done(generation: nat, success: bool, now: int) | GetState(now: int) | Reset(now: int)

  predicate CanDo(w: World, op: Op) {
    op.Done? ==> op.generation in w.inFlight
  }

  function Do(c: Config, w: World, op: Op): World {
    var b := w.breaker;
    var b' := match op
              case Call(now) => Before(c, b, now)
              case Done(g, success, now) => After(c, b, g, success, now)
              case GetState(now) => Current(c, b, now)
              case Reset(now) => NewGeneration(c, b, now);
    var inFlight := match op
                    case Call(now) => if Admits(c, b, now) then w.inFlight + multiset{b'.generation} else w.inFlight
                    case Done(g, _, _) => w.inFlight - multiset{g}
                    case GetState(_) => w.inFlight
                    case Reset(_) => w.inFlight;
    var outcomes := if b'.generation != b.generation then []
                    else if op.Done? && op.generation == b.generation then w.outcomes + [op.success]
                    else w.outcomes;
    World(b', inFlight, outcomes)
  }

  ghost predicate IsRun(c: Config, run: seq<World>, ops: seq<Op>, start: int) {
    && 0 < c.maxRequests < WORD
    && |run| == |ops| + 1
    && run[0] == World(NewGeneration(c, Breaker(Closed, 0, ZERO, None), start), multiset{}, [])
    && forall i {:trigger ops[i]} :: 0 <= i < |ops| ==> CanDo(run[i], ops[i]) && run[i + 1] == Do(c, run[i], ops[i])
  }

  function Tally(outcomes: seq<bool>, v: bool): nat {
    if outcomes == [] then 0
    else Tally(outcomes[..|outcomes| - 1], v) + (if outcomes[|outcomes| - 1] == v then 1 else 0)
  }

  /** The length of the run of v's at the end. */
  function Trailing(outcomes: seq<bool>, v: bool): (n: nat)
    ensures n <= |outcomes|
  {
    if outcomes == [] || outcomes[|outcomes| - 1] != v then 0 else 1 + Trailing(outcomes[..|outcomes| - 1], v)
  }

  /** All five counters are functions of the generation's history, modulo 2^32. */
  ghost predicate CountsMatch(w: World) {
    var n := w.breaker.counts;
    && n.requests == (|w.outcomes| + w.inFlight[w.breaker.generation]) % WORD
    && n.totalSuccesses == Tally(w.outcomes, true) % WORD
    && n.totalFailures == Tally(w.outcomes, false) % WORD
    && n.consecutiveSuccesses == Trailing(w.outcomes, true) % WORD
    && n.consecutiveFailures == Trailing(w.outcomes, false) % WORD
  }

  ghost predicate StateMatches(c: Config, w: World) {
    var calls := |w.outcomes| + w.inFlight[w.breaker.generation];
    match w.breaker.state
    case Open => calls == 0 && w.breaker.expiry.Some?
    case HalfOpen => true !in w.outcomes && calls <= c.maxRequests
    case Closed => true
  }

  ghost predicate Inv(c: Config, w: World) {
    && 0 < c.maxRequests < WORD
    && (forall g :: g in w.inFlight ==> g <= w.breaker.generation)
    && CountsMatch(w) && StateMatches(c, w)
  }

  lemma {:induction false} SplitTally(outcomes: seq<bool>)
    ensures Tally(outcomes, true) + Tally(outcomes, false) == |outcomes|
  {
    if outcomes != [] { SplitTally(outcomes[..|outcomes| - 1]); }
  }

  lemma {:induction false} AllFailures(outcomes: seq<bool>)
    requires true !in outcomes
    ensures Tally(outcomes, true) == 0 && Tally(outcomes, false) == |outcomes|
    ensures Trailing(outcomes, false) == |outcomes| && Trailing(outcomes, true) == 0
  {
    if outcomes != [] {
      var front := outcomes[..|outcomes| - 1];
      AllFailures(front);
      assert outcomes == front + [outcomes[|outcomes| - 1]];
    }
  }

  lemma TallyAppend(outcomes: seq<bool>, v: bool)
    ensures Tally(outcomes + [v], v) == Tally(outcomes, v) + 1 && Tally(outcomes + [v], !v) == Tally(outcomes, !v)
    ensures Trailing(outcomes + [v], v) == Trailing(outcomes, v) + 1 && Trailing(outcomes + [v], !v) == 0
  {
    assert (outcomes + [v])[..|outcomes|] == outcomes;
  }

  lemma IncMod(x: nat)
    ensures Inc(x % WORD) == (x + 1) % WORD
  {
  }

  /** A new generation starts with nothing counted and nothing in flight. */
  lemma FreshGeneration(c: Config, w: World, b: Breaker)
    requires 0 < c.maxRequests < WORD
    requires forall g :: g in w.inFlight ==> g < b.generation
    requires b.counts == ZERO && (b.state == Open ==> b.expiry.Some?)
    ensures Inv(c, World(b, w.inFlight, []))
  {
  }

  lemma CurrentKeeps(c: Config, w: World, now: int)
    requires Inv(c, w)
    ensures Inv(c, Do(c, w, GetState(now)))
  {
    var b' := Current(c, w.breaker, now);
    if b' != w.breaker { FreshGeneration(c, w, b'); }
  }

  lemma CallKeeps(c: Config, w: World, now: int)
    requires Inv(c, w)
    ensures Inv(c, Do(c, w, Call(now)))
  {
    var w1 := Do(c, w, GetState(now));
    CurrentKeeps(c, w, now);
    var w' := Do(c, w, Call(now));
    if Admits(c, w.breaker, now) {
      var g := w1.breaker.generation;
      IncMod(|w1.outcomes| + w1.inFlight[g]);
      assert w'.outcomes == w1.outcomes && w'.inFlight[g] == w1.inFlight[g] + 1;
    }
  }

  /** A counted outcome moves the counters along with the history. */
  lemma Counted(w: World, success: bool)
    requires CountsMatch(w) && w.breaker.generation in w.inFlight
    ensures var g, n := w.breaker.generation, w.breaker.counts;
            CountsMatch(World(w.breaker.(counts := if success then Succeeded(n) else FailedOnce(n)),
                              w.inFlight - multiset{g}, w.outcomes + [success]))
  {
    TallyAppend(w.outcomes, success);
    IncMod(Tally(w.outcomes, success));
    IncMod(Trailing(w.outcomes, success));
  }

  lemma DoneKeeps(c: Config, w: World, g: nat, success: bool, now: int)
    requires Inv(c, w) && g in w.inFlight
    ensures Inv(c, Do(c, w, Done(g, success, now)))
  {
    CurrentKeeps(c, w, now);
    var b1 := Current(c, w.breaker, now);
    var w' := Do(c, w, Done(g, success, now));
    if g != b1.generation {
      StaleDone(c, w, g, success, now);
    } else {
      assert b1 == w.breaker;
      Counted(w, success);
      if w'.breaker.generation != w.breaker.generation { FreshGeneration(c, w', w'.breaker); }
    }
  }

  lemma StaleDone(c: Config, w: World, g: nat, success: bool, now: int)
    requires Inv(c, w) && g in w.inFlight && g != Current(c, w.breaker, now).generation
    ensures Inv(c, Do(c, w, Done(g, success, now)))
  {
    CurrentKeeps(c, w, now);
    var w1, w' := Do(c, w, GetState(now)), Do(c, w, Done(g, success, now));
    assert w'.breaker == w1.breaker && w'.inFlight[w1.breaker.generation] == w1.inFlight[w1.breaker.generation];
    assert w'.outcomes == w1.outcomes;
  }

  lemma OpKeeps(c: Config, w: World, op: Op)
    requires Inv(c, w) && CanDo(w, op)
    ensures Inv(c, Do(c, w, op))
  {
    match op
    case Call(now) => CallKeeps(c, w, now);
    case Done(g, success, now) => DoneKeeps(c, w, g, success, now);
    case GetState(now) => CurrentKeeps(c, w, now);
    case Reset(now) => FreshGeneration(c, w, NewGeneration(c, w.breaker, now));
  }

  lemma {:induction false} RunKeeps(c: Config, run: seq<World>, ops: seq<Op>, start: int, n: nat)
    requires IsRun(c, run, ops, start) && n < |run|
    ensures Inv(c, run[n])
  {
    if n > 0 {
      RunKeeps(c, run, ops, start, n - 1);
      OpKeeps(c, run[n - 1], ops[n - 1]);
    }
  }

  // ---------------------------------------------------------------- results

  /** In every reachable state Requests is successes plus failures plus calls in flight in
      this generation, modulo 2^32, and each counter matches the outcome history. */
  lemma CountersMatchHistory(c: Config, run: seq<World>, ops: seq<Op>, start: int, n: nat)
    requires IsRun(c, run, ops, start) && n < |run|
    ensures CountsMatch(run[n])
    ensures var w := run[n];
            w.breaker.counts.requests
              == (Tally(w.outcomes, true) + Tally(w.outcomes, false) + w.inFlight[w.breaker.generation]) % WORD
  {
    RunKeeps(c, run, ops, start, n);
    SplitTally(run[n].outcomes);
  }

  /** What Open and HalfOpen mean in every reachable state. */
  lemma StateMeansCounts(c: Config, run: seq<World>, ops: seq<Op>, start: int, n: nat)
    requires IsRun(c, run, ops, start) && n < |run|
    ensures var b, inFlight := run[n].breaker, run[n].inFlight[run[n].breaker.generation];
            && (b.state == Open ==> b.counts == ZERO && inFlight == 0)
            && (b.state == HalfOpen ==>
                  && b.counts.totalSuccesses == 0
                  && b.counts.consecutiveFailures == b.counts.totalFailures <= b.counts.requests <= c.maxRequests
                  && b.counts.requests == b.counts.totalFailures + inFlight)
  {
    RunKeeps(c, run, ops, start, n);
    var w := run[n];
    if w.breaker.state == HalfOpen { AllFailures(w.outcomes); }
  }

  /** A reset, a rollover and a state change each start a new generation; nothing lowers it. */
  lemma GenerationsIncrease(c: Config, w: World, op: Op)
    requires Inv(c, w) && CanDo(w, op)
    ensures var b, b' := w.breaker, Do(c, w, op).breaker;
            && b'.generation >= b.generation
            && (op.Reset? || b'.state != b.state || b'.expiry != b.expiry ==> b'.generation > b.generation)
            && (b'.generation > b.generation ==> b'.counts == ZERO || (op.Call? && b'.counts == ZERO.(requests := 1)))
  {
    var b := w.breaker;
    match op
    case Call(now) => assert Before(c, b, now).generation == Current(c, b, now).generation;
    case Done(g, success, now) => DoneIncreases(c, w, g, success, now);
    case GetState(now) =>
    case Reset(now) =>
  }

  lemma DoneIncreases(c: Config, w: World, g: nat, success: bool, now: int)
    requires Inv(c, w) && g in w.inFlight
    ensures var b, b' := w.breaker, After(c, w.breaker, g, success, now);
            && b'.generation >= b.generation
            && (b'.state != b.state || b'.expiry != b.expiry ==> b'.generation > b.generation)
            && (b'.generation > b.generation ==> b'.counts == ZERO)
  {
    var b1 := Current(c, w.breaker, now);
    assert g != b1.generation || b1 == w.breaker;
  }

  /** The outcome of a call admitted in an older generation has no effect. */
  lemma StaleOutcomeIgnored(c: Config, w: World, g: nat, now: int)
    requires g in w.inFlight && g != Current(c, w.breaker, now).generation
    ensures Do(c, w, Done(g, true, now)) == Do(c, w, Done(g, false, now))
    ensures Do(c, w, Done(g, true, now)).breaker == Current(c, w.breaker, now)
  {
    var w1, w2 := Do(c, w, Done(g, true, now)), Do(c, w, Done(g, false, now));
    if w1.breaker.generation == w.breaker.generation {
      assert g != w.breaker.generation;
    }
  }

  /** Reset's comment says it closes the breaker. It does exactly when it was closed. */
  lemma ResetKeepsState(c: Config, w: World, now: int)
    ensures Do(c, w, Reset(now)).breaker.state == Closed <==> w.breaker.state == Closed
    ensures Do(c, w, Reset(now)).breaker.generation == w.breaker.generation + 1
  {
  }

  ghost predicate ClockMonotone(ops: seq<Op>) {
    forall i, j :: 0 <= i < j < |ops| ==> ops[i].now <= ops[j].now
  }

  lemma OpenStep(c: Config, w: World, op: Op, bound: int)
    requires Inv(c, w) && CanDo(w, op) && w.breaker.state == Open && w.breaker.expiry.value >= bound
    requires op.now <= bound <= op.now + c.timeout
    ensures var b := Do(c, w, op).breaker; b.state == Open && b.expiry.Some? && b.expiry.value >= bound
  {
  }

  lemma Opening(c: Config, w: World, op: Op)
    requires Inv(c, w) && CanDo(w, op) && w.breaker.state != Open && Do(c, w, op).breaker.state == Open
    ensures Do(c, w, op).breaker.expiry == Some(op.now + c.timeout)
  {
  }

  /** From an opening at time t on, up to state n, the breaker is still open. */
  lemma {:induction false} StaysOpen(c: Config, run: seq<World>, ops: seq<Op>, start: int, m: nat, n: nat)
    requires IsRun(c, run, ops, start) && ClockMonotone(ops) && m < n < |run|
    requires run[m].breaker.state != Open && run[m + 1].breaker.state == Open
    requires forall i :: m < i < n ==> ops[i].now <= ops[m].now + c.timeout
    ensures run[n].breaker.state == Open && run[n].breaker.expiry.Some?
    ensures run[n].breaker.expiry.value >= ops[m].now + c.timeout
    decreases n
  {
    if n > m + 1 {
      StaysOpen(c, run, ops, start, m, n - 1);
      RunKeeps(c, run, ops, start, n - 1);
      OpenStep(c, run[n - 1], ops[n - 1], ops[m].now + c.timeout);
    } else {
      RunKeeps(c, run, ops, start, m);
      Opening(c, run[m], ops[m]);
    }
  }

  /** After the breaker opens at time t, no call is admitted at any time up to
      t + timeout, whatever else happens, Reset included. */
  lemma NoAdmissionWhileOpen(c: Config, run: seq<World>, ops: seq<Op>, start: int, m: nat, n: nat)
    requires IsRun(c, run, ops, start) && ClockMonotone(ops) && m < n < |ops|
    requires run[m].breaker.state != Open && run[m + 1].breaker.state == Open
    requires ops[n].now <= ops[m].now + c.timeout
    ensures !Admits(c, run[n].breaker, ops[n].now)
  {
    StaysOpen(c, run, ops, start, m, n);
  }

  // ---------------------------------------------------------------- the history decides

  /** When the generation of state n began. */
  ghost function Since(run: seq<World>, ops: seq<Op>, start: int, n: nat): int
    requires |run| == |ops| + 1 && n < |run|
  {
    if n == 0 then start
    else if run[n].breaker.generation != run[n - 1].breaker.generation then ops[n - 1].now
    else Since(run, ops, start, n - 1)
  }

  /** The generation's time is over: a Closed one after the interval, if there is one, an
      Open one after the timeout. */
  ghost predicate TimeOver(c: Config, state: CircuitState, since: int, now: int) {
    match state
    case Closed => c.interval != 0 && now > since + c.interval
    case Open => now > since + c.timeout
    case HalfOpen => false
  }

  /** The counters of a generation with these outcomes and calls still in flight. */
  ghost function CountsOf(outcomes: seq<bool>, inFlight: nat): Counts {
    Counts((|outcomes| + inFlight) % WORD, Tally(outcomes, true) % WORD, Tally(outcomes, false) % WORD,
           Trailing(outcomes, true) % WORD, Trailing(outcomes, false) % WORD)
  }

  /** The stored expiry is the generation's end. */
  ghost predicate ExpiryOk(c: Config, b: Breaker, since: int) {
    forall now :: TimeOver(c, b.state, since, now) <==>
      b.state != HalfOpen && (b.expiry.None? ==> b.state == Open) && (b.expiry.Some? ==> b.expiry.value < now)
  }

  lemma ExpiryStep(c: Config, w: World, op: Op, since: int)
    requires Inv(c, w) && CanDo(w, op) && ExpiryOk(c, w.breaker, since)
    ensures var b, b' := w.breaker, Do(c, w, op).breaker;
            ExpiryOk(c, b', if b'.generation != b.generation then op.now else since)
  {
    GenerationsIncrease(c, w, op);
    var b' := Do(c, w, op).breaker;
    if b'.generation != w.breaker.generation { NewExpiry(c, w, op); }
  }

  lemma NewExpiry(c: Config, w: World, op: Op)
    requires Inv(c, w) && CanDo(w, op) && Do(c, w, op).breaker.generation != w.breaker.generation
    ensures var b := Do(c, w, op).breaker;
            b.expiry == match b.state
                        case Closed => if c.interval == 0 then None else Some(op.now + c.interval)
                        case Open => Some(op.now + c.timeout)
                        case HalfOpen => None
  {
    if op.Done? {
      var b1 := Current(c, w.breaker, op.now);
      assert op.generation != b1.generation || b1 == w.breaker;
    }
  }

  lemma {:induction false} ExpiryRun(c: Config, run: seq<World>, ops: seq<Op>, start: int, n: nat)
    requires IsRun(c, run, ops, start) && n < |run|
    ensures Inv(c, run[n]) && ExpiryOk(c, run[n].breaker, Since(run, ops, start, n))
  {
    RunKeeps(c, run, ops, start, n);
    if n == 0 {
      ExpiryInit(c, start);
    } else {
      ExpiryRun(c, run, ops, start, n - 1);
      ghost var since := Since(run, ops, start, n - 1);
      ExpiryNext(c, run, ops, start, n - 1, since);
    }
  }

  lemma ExpiryInit(c: Config, start: int)
    ensures ExpiryOk(c, NewGeneration(c, Breaker(Closed, 0, ZERO, None), start), start)
  {
  }

  lemma ExpiryNext(c: Config, run: seq<World>, ops: seq<Op>, start: int, n: nat, since: int)
    requires IsRun(c, run, ops, start) && n < |ops| && Inv(c, run[n]) && ExpiryOk(c, run[n].breaker, since)
    ensures ExpiryOk(c, run[n + 1].breaker,
                     if run[n + 1].breaker.generation != run[n].breaker.generation then ops[n].now else since)
  {
    ExpiryStep(c, run[n], ops[n], since);
  }

  /** A call is admitted exactly if the breaker is closed, is half-open with fewer than
      maxRequests calls so far, or has been open for longer than the timeout. */
  lemma AdmittedExactly(c: Config, run: seq<World>, ops: seq<Op>, start: int, n: nat, now: int)
    requires IsRun(c, run, ops, start) && n < |run|
    ensures var w := run[n];
            Admits(c, w.breaker, now) <==>
              match w.breaker.state
              case Closed => true
              case HalfOpen => |w.outcomes| + w.inFlight[w.breaker.generation] < c.maxRequests
              case Open => now > Since(run, ops, start, n) + c.timeout
  {
    ExpiryRun(c, run, ops, start, n);
    var b := run[n].breaker;
    assert TimeOver(c, b.state, Since(run, ops, start, n), now) <==>
      b.state != HalfOpen && (b.expiry.None? ==> b.state == Open) && (b.expiry.Some? ==> b.expiry.value < now);
  }

  /** The state after a step of a generation that began at `since`, from its outcome history. */
  ghost function NextState(c: Config, w: World, since: int, op: Op): CircuitState {
    var state, g := w.breaker.state, w.breaker.generation;
    var over := TimeOver(c, state, since, op.now);
    if op.Reset? then state
    else if state == Open then (if over then HalfOpen else Open)
    else if over || !op.Done? || op.generation != g then state
    else if op.success then Closed
    else if w.inFlight[g] > 0 && c.readyToTrip(CountsOf(w.outcomes + [false], w.inFlight[g] - 1)) then Open
    else state
  }

  lemma NextStateStep(c: Config, w: World, op: Op, since: int)
    requires Inv(c, w) && CanDo(w, op) && ExpiryOk(c, w.breaker, since)
    ensures var b, b' := w.breaker, Do(c, w, op).breaker;
            && b'.state == NextState(c, w, since, op)
            && b'.generation == b.generation
                 + (if op.Reset? || TimeOver(c, b.state, since, op.now) || b'.state != b.state then 1 else 0)
  {
    var b := w.breaker;
    var over := TimeOver(c, b.state, since, op.now);
    assert over <==> b.state != HalfOpen && (b.expiry.None? ==> b.state == Open) && (b.expiry.Some? ==> b.expiry.value < op.now);
    assert op.Reset? || (over <==> Current(c, b, op.now) != b);
    if op.Done? { NextStateDone(c, w, op.generation, op.success, op.now, over); } else { NextStateOther(c, w, op, over); }
  }

  lemma NextStateOther(c: Config, w: World, op: Op, over: bool)
    requires Inv(c, w) && !op.Done? && (over <==> Current(c, w.breaker, op.now) != w.breaker)
    ensures var b, b' := w.breaker, Do(c, w, op).breaker;
            if op.Reset? then b'.state == b.state && b'.generation == b.generation + 1
            else b'.state == (if over && b.state == Open then HalfOpen else b.state)
                 && b'.generation == b.generation + (if over then 1 else 0)
  {
  }

  lemma NextStateDone(c: Config, w: World, g: nat, success: bool, now: int, over: bool)
    requires Inv(c, w) && g in w.inFlight
    requires over <==> Current(c, w.breaker, now) != w.breaker
    ensures var b, b' := w.breaker, After(c, w.breaker, g, success, now);
            if over then b' == Current(c, b, now)
            else if g != b.generation then b' == b
            else if success then b'.state == Closed && b'.generation == b.generation + (if b.state == HalfOpen then 1 else 0)
            else if c.readyToTrip(CountsOf(w.outcomes + [false], w.inFlight[g] - 1))
            then b'.state == Open && b'.generation == b.generation + 1
            else b'.state == b.state && b'.generation == b.generation
  {
    if !over && g == w.breaker.generation {
      Counted(w, success);
      var n := w.breaker.counts;
      if !success { assert FailedOnce(n) == CountsOf(w.outcomes + [false], w.inFlight[g] - 1); }
    }
  }

  /** Every step of every run, from the outcome history and the times alone: a success in
      HalfOpen closes the breaker, it opens exactly when the rule trips on the history of a
      generation with one more failure, an expired Open turns HalfOpen, and a generation ends
      exactly on a reset, when its time is over or when the state changes. */
  lemma StepExactly(c: Config, run: seq<World>, ops: seq<Op>, start: int, n: nat)
    requires IsRun(c, run, ops, start) && n < |ops|
    ensures var w, op, since := run[n], ops[n], Since(run, ops, start, n);
            var b, b' := w.breaker, run[n + 1].breaker;
            && b'.state == NextState(c, w, since, op)
            && b'.generation == b.generation
                 + (if op.Reset? || TimeOver(c, b.state, since, op.now) || b'.state != b.state then 1 else 0)
  {
    ExpiryRun(c, run, ops, start, n);
    NextStateStep(c, run[n], ops[n], Since(run, ops, start, n));
  }

  /** For any trip rule a counted success in HalfOpen closes the breaker, with nothing
      counted; it then admits every call. */
  lemma ProbeSuccessCloses(c: Config, run: seq<World>, ops: seq<Op>, start: int, n: nat)
    requires IsRun(c, run, ops, start) && n < |ops| && run[n].breaker.state == HalfOpen
    requires ops[n].Done? && ops[n].success && ops[n].generation == run[n].breaker.generation
    ensures run[n + 1].breaker.state == Closed && run[n + 1].breaker.counts == Counts(0, 0, 0, 0, 0)
    ensures AdmitsAnyTime(c, run[n + 1].breaker)
  {
    StepExactly(c, run, ops, start, n);
    RunKeeps(c, run, ops, start, n);
    GenerationsIncrease(c, run[n], ops[n]);
    var b := run[n + 1].breaker;
    forall now
      ensures Admits(c, b, now)
    {
      AdmittedExactly(c, run, ops, start, n + 1, now);
    }
  }

  ghost predicate AdmitsAnyTime(c: Config, b: Breaker) {
    forall now :: Admits(c, b, now)
  }

  /** For any trip rule the breaker opens only by a call of its generation that failed. */
  lemma OpensOnlyOnFailure(c: Config, run: seq<World>, ops: seq<Op>, start: int, n: nat)
    requires IsRun(c, run, ops, start) && n < |ops|
    requires run[n].breaker.state != Open && run[n + 1].breaker.state == Open
    ensures ops[n].Done? && !ops[n].success && ops[n].generation == run[n].breaker.generation
    ensures c.readyToTrip(CountsOf(run[n].outcomes + [false], run[n].inFlight[ops[n].generation] - 1))
  {
    StepExactly(c, run, ops, start, n);
  }

  lemma {:induction false} SameGeneration(c: Config, run: seq<World>, ops: seq<Op>, start: int, m: nat, n: nat)
    requires IsRun(c, run, ops, start) && m <= n < |run|
    ensures run[m].breaker.generation <= run[n].breaker.generation
    ensures run[m].breaker.generation == run[n].breaker.generation ==> run[m].breaker.state == run[n].breaker.state
  {
    if m < n {
      SameGeneration(c, run, ops, start, m, n - 1);
      NextGeneration(c, run, ops, start, n - 1);
    }
  }

  lemma NextGeneration(c: Config, run: seq<World>, ops: seq<Op>, start: int, n: nat)
    requires IsRun(c, run, ops, start) && n < |ops|
    ensures run[n].breaker.generation <= run[n + 1].breaker.generation
    ensures run[n].breaker.generation == run[n + 1].breaker.generation ==> run[n].breaker.state == run[n + 1].breaker.state
  {
    RunKeeps(c, run, ops, start, n);
    GenerationsIncrease(c, run[n], ops[n]);
  }

  /** An open breaker recovers: a call after the timeout is admitted, and once it succeeds,
      in its own generation, the breaker admits every call, whatever happened in between. */
  lemma RecoversAfterTimeout(c: Config, run: seq<World>, ops: seq<Op>, start: int, m: nat, n: nat)
    requires IsRun(c, run, ops, start) && m < n < |ops| && run[m].breaker.state == Open
    requires ops[m].Call? && ops[m].now > Since(run, ops, start, m) + c.timeout
    requires ops[n].Done? && ops[n].success && ops[n].generation == run[m + 1].breaker.generation == run[n].breaker.generation
    ensures Admits(c, run[m].breaker, ops[m].now) && run[m + 1].breaker.generation in run[m + 1].inFlight
    ensures run[n + 1].breaker.state == Closed && AdmitsAnyTime(c, run[n + 1].breaker)
  {
    AdmittedExactly(c, run, ops, start, m, ops[m].now);
    StepExactly(c, run, ops, start, m);
    SameGeneration(c, run, ops, start, m + 1, n);
    ProbeSuccessCloses(c, run, ops, start, n);
  }

  // ---------------------------------------------------------------- the default trip rule

  lemma FewFailuresStep(c: Config, w: World, op: Op)
    requires Inv(c, w) && CanDo(w, op) && c.readyToTrip == DefaultTrip && Trailing(w.outcomes, false) <= 5
    ensures Trailing(Do(c, w, op).outcomes, false) <= 5
  {
    if op.Done? {
      TallyAppend(w.outcomes, op.success);
      FewFailuresDone(c, w, op.generation, op.success, op.now);
    }
  }

  lemma FewFailuresDone(c: Config, w: World, g: nat, success: bool, now: int)
    requires Inv(c, w) && g in w.inFlight && c.readyToTrip == DefaultTrip && Trailing(w.outcomes, false) <= 5
    ensures var w' := Do(c, w, Done(g, success, now));
            w'.outcomes == [] || w'.outcomes == w.outcomes
            || (w'.outcomes == w.outcomes + [success] && (success || Trailing(w.outcomes + [false], false) != 6))
  {
    if !success && g == Current(c, w.breaker, now).generation { CountedFailure(c, w, g, now); }
  }

  lemma {:induction false} FewFailures(c: Config, run: seq<World>, ops: seq<Op>, start: int, n: nat)
    requires IsRun(c, run, ops, start) && n < |run| && c.readyToTrip == DefaultTrip
    ensures Inv(c, run[n]) && Trailing(run[n].outcomes, false) <= 5
  {
    RunKeeps(c, run, ops, start, n);
    if n > 0 {
      FewFailures(c, run, ops, start, n - 1);
      FewFailuresStep(c, run[n - 1], ops[n - 1]);
    }
  }

  /** Under the default rule a counted failure opens the breaker exactly when it is the
      sixth in a row of its generation. */
  lemma OpensAtSixthFailure(c: Config, run: seq<World>, ops: seq<Op>, start: int, n: nat)
    requires IsRun(c, run, ops, start) && n < |ops| && c.readyToTrip == DefaultTrip
    requires ops[n].Done? && !ops[n].success && ops[n].generation == Current(c, run[n].breaker, ops[n].now).generation
    ensures run[n].breaker.state != Open
    ensures run[n + 1].breaker.state == Open <==> Trailing(run[n].outcomes + [false], false) == 6
  {
    FewFailures(c, run, ops, start, n);
    CountedFailure(c, run[n], ops[n].generation, ops[n].now);
  }

  lemma CountedFailure(c: Config, w: World, g: nat, now: int)
    requires Inv(c, w) && g in w.inFlight && c.readyToTrip == DefaultTrip && Trailing(w.outcomes, false) <= 5
    requires g == Current(c, w.breaker, now).generation
    ensures w.breaker.state != Open
    ensures Do(c, w, Done(g, false, now)).breaker.state == Open <==> Trailing(w.outcomes + [false], false) == 6
  {
    TallyAppend(w.outcomes, false);
    assert w.inFlight[g] > 0 && Current(c, w.breaker, now) == w.breaker;
  }

  /** HalfOpen with every allowed call made and failed. */
  ghost predicate Exhausted(c: Config, w: World) {
    w.breaker.state == HalfOpen && |w.outcomes| == c.maxRequests
  }

  /** An exhausted HalfOpen breaker rejects every call until Reset. */
  lemma {:induction false} ExhaustedIsStuck(c: Config, run: seq<World>, ops: seq<Op>, start: int, m: nat, n: nat)
    requires IsRun(c, run, ops, start) && m <= n < |run| && Exhausted(c, run[m])
    requires forall i :: m <= i < n ==> !ops[i].Reset?
    ensures Exhausted(c, run[n]) && forall now :: !Admits(c, run[n].breaker, now)
  {
    RunKeeps(c, run, ops, start, n);
    if m < n {
      ExhaustedIsStuck(c, run, ops, start, m, n - 1);
      RunKeeps(c, run, ops, start, n - 1);
      var op := ops[n - 1];
      if op.Done? { assert op.generation != run[n - 1].breaker.generation; }
    }
  }

  /** Under the default rule that can only happen when at most five probes are allowed:
      with six or more, the sixth failure reopens the breaker. */
  lemma ExhaustedOnlyWithFewProbes(c: Config, run: seq<World>, ops: seq<Op>, start: int, n: nat)
    requires IsRun(c, run, ops, start) && n < |run| && c.readyToTrip == DefaultTrip
    ensures Exhausted(c, run[n]) ==> c.maxRequests <= 5
    ensures run[n].breaker.state == HalfOpen && c.maxRequests >= 6 ==>
              run[n].breaker.counts.requests < c.maxRequests || run[n].inFlight[run[n].breaker.generation] > 0
  {
    FewFailures(c, run, ops, start, n);
    if run[n].breaker.state == HalfOpen { AllFailures(run[n].outcomes); }
  }

  /** And it does happen then: the last allowed probe failing leaves the breaker stuck. */
  lemma FailedProbeSticks(w: World, g: nat, now: int, c: Config)
    requires c.maxRequests <= 5 && c.readyToTrip == DefaultTrip && Inv(c, w)
    requires w.breaker.state == HalfOpen && |w.outcomes| == c.maxRequests - 1 && g == w.breaker.generation && g in w.inFlight
    ensures Exhausted(c, Do(c, w, Done(g, false, now)))
  {
    AllFailures(w.outcomes);
  }

  // ---------------------------------------------------------------- reaching the stuck state

  ghost predicate ClockFrom(ops: seq<Op>, start: int) {
    ClockMonotone(ops) && forall i :: 0 <= i < |ops| ==> start <= ops[i].now
  }

  /** A run on a clock that starts at `start`, does not go back and has not passed `now`. */
  ghost predicate TimedRun(c: Config, run: seq<World>, ops: seq<Op>, start: int, now: int) {
    IsRun(c, run, ops, start) && ClockFrom(ops, start) && start <= now && forall i :: 0 <= i < |ops| ==> ops[i].now <= now
  }

  lemma Extend(c: Config, run: seq<World>, ops: seq<Op>, start: int, op: Op) returns (run': seq<World>, ops': seq<Op>)
    requires TimedRun(c, run, ops, start, op.now) && CanDo(run[|ops|], op)
    ensures TimedRun(c, run', ops', start, op.now) && run'[|ops'|] == Do(c, run[|ops|], op)
  {
    run', ops' := run + [Do(c, run[|ops|], op)], ops + [op];
    forall i {:trigger ops'[i]} | 0 <= i < |ops'|
      ensures CanDo(run'[i], ops'[i]) && run'[i + 1] == Do(c, run'[i], ops'[i])
    {
      if i < |ops| { assert ops'[i] == ops[i]; }
    }
  }

  /** Only failures so far, nothing in flight and no expiry due. */
  ghost predicate OnlyFailures(c: Config, w: World, state: CircuitState, n: nat, now: int) {
    && Inv(c, w) && w.breaker.state == state != Open && w.inFlight == multiset{}
    && |w.outcomes| == n && true !in w.outcomes && Current(c, w.breaker, now) == w.breaker
  }

  /** The same with one call in flight. */
  ghost predicate OneInFlight(c: Config, w: World, state: CircuitState, n: nat, now: int) {
    && Inv(c, w) && w.breaker.state == state != Open && w.inFlight == multiset{w.breaker.generation}
    && |w.outcomes| == n && true !in w.outcomes && Current(c, w.breaker, now) == w.breaker
  }

  lemma CallAdmitted(c: Config, w: World, state: CircuitState, n: nat, now: int)
    requires OnlyFailures(c, w, state, n, now) && n <= 5 && (state == HalfOpen ==> n < c.maxRequests)
    ensures OneInFlight(c, Do(c, w, Call(now)), state, n, now)
  {
    assert Admits(c, w.breaker, now);
    CallKeeps(c, w, now);
  }

  lemma CallFails(c: Config, w: World, state: CircuitState, n: nat, now: int)
    requires c.readyToTrip == DefaultTrip && OneInFlight(c, w, state, n, now) && n <= 5
    ensures var w' := Do(c, w, Done(w.breaker.generation, false, now));
            if n < 5 then OnlyFailures(c, w', state, n + 1, now)
            else w'.breaker.state == Open && w'.breaker.expiry == Some(now + c.timeout) && w'.inFlight == multiset{}
  {
    AllFailures(w.outcomes);
    DoneKeeps(c, w, w.breaker.generation, false, now);
    assert FailedOnce(w.breaker.counts).consecutiveFailures == n + 1;
  }

  /** One more failing call: the sixth in a row opens the breaker, an earlier one is counted. */
  lemma FailingCall(c: Config, run: seq<World>, ops: seq<Op>, start: int, state: CircuitState, n: nat, now: int)
    returns (run': seq<World>, ops': seq<Op>)
    requires c.readyToTrip == DefaultTrip && TimedRun(c, run, ops, start, now)
    requires OnlyFailures(c, run[|ops|], state, n, now) && n <= 5 && (state == HalfOpen ==> n < c.maxRequests)
    ensures TimedRun(c, run', ops', start, now)
    ensures var w := run'[|ops'|];
            if n < 5 then OnlyFailures(c, w, state, n + 1, now)
            else w.breaker.state == Open && w.breaker.expiry == Some(now + c.timeout) && w.inFlight == multiset{}
  {
    CallAdmitted(c, run[|ops|], state, n, now);
    run', ops' := Extend(c, run, ops, start, Call(now));
    CallFails(c, run'[|ops'|], state, n, now);
    run', ops' := Extend(c, run', ops', start, Done(run'[|ops'|].breaker.generation, false, now));
  }

  lemma {:induction false} FailingCalls(c: Config, run: seq<World>, ops: seq<Op>, start: int, state: CircuitState, n: nat, now: int)
    returns (run': seq<World>, ops': seq<Op>)
    requires c.readyToTrip == DefaultTrip && TimedRun(c, run, ops, start, now)
    requires OnlyFailures(c, run[|ops|], state, 0, now) && n <= 5 && (state == HalfOpen ==> n <= c.maxRequests)
    ensures TimedRun(c, run', ops', start, now) && OnlyFailures(c, run'[|ops'|], state, n, now)
  {
    run', ops' := run, ops;
    if n > 0 {
      run', ops' := FailingCalls(c, run, ops, start, state, n - 1, now);
      run', ops' := FailingCall(c, run', ops', start, state, n - 1, now);
    }
  }

  ghost predicate CanGetStuck(c: Config, start: int) {
    exists run, ops :: IsRun(c, run, ops, start) && ClockFrom(ops, start) && Exhausted(c, run[|ops|])
  }

  /** Six failures open the breaker; once the timeout has passed, the allowed probes fail. */
  lemma GetsStuck(c: Config, start: int)
    requires 0 < c.maxRequests <= 5 && c.readyToTrip == DefaultTrip && c.interval >= 0
    ensures CanGetStuck(c, start)
  {
    var run, ops := [World(NewGeneration(c, Breaker(Closed, 0, ZERO, None), start), multiset{}, [])], [];
    assert OnlyFailures(c, run[|ops|], Closed, 0, start);
    run, ops := FailingCalls(c, run, ops, start, Closed, 5, start);
    run, ops := FailingCall(c, run, ops, start, Closed, 5, start);
    var later := start + (if c.timeout > 0 then c.timeout else 0) + 1;
    RunKeeps(c, run, ops, start, |ops|);
    CurrentKeeps(c, run[|ops|], later);
    run, ops := Extend(c, run, ops, start, GetState(later));
    assert OnlyFailures(c, run[|ops|], HalfOpen, 0, later);
    run, ops := FailingCalls(c, run, ops, start, HalfOpen, c.maxRequests, later);
  }

  lemma RollsOver(c: Config, w: World, op: Op)
    requires Inv(c, w) && CanDo(w, op) && c.interval < 0
    requires w.breaker.state == Closed && w.breaker.expiry.Some? && w.breaker.expiry.value < op.now
    ensures var b := Do(c, w, op).breaker; b.state == Closed && b.expiry == Some(op.now + c.interval)
  {
    var b1 := NewGeneration(c, w.breaker, op.now);
    assert Current(c, w.breaker, op.now) == b1;
    if op.Done? { assert op.generation != b1.generation; }
  }

  /** With a negative interval every step starts a new generation, so no outcome counts. */
  lemma {:induction false} NegativeIntervalNeverOpens(c: Config, run: seq<World>, ops: seq<Op>, start: int, n: nat)
    requires IsRun(c, run, ops, start) && ClockFrom(ops, start) && n < |run| && c.interval < 0
    ensures run[n].breaker.state == Closed && run[n].breaker.expiry.Some?
    ensures forall i :: n <= i < |ops| ==> run[n].breaker.expiry.value < ops[i].now
  {
    if n > 0 {
      NegativeIntervalNeverOpens(c, run, ops, start, n - 1);
      RunKeeps(c, run, ops, start, n - 1);
      RollsOver(c, run[n - 1], ops[n - 1]);
    }
  }

  /** Under the default rule, from the first generation and on a clock that does not go back,
      the stuck state is reached in some run exactly if at most five probes are allowed and
      the interval is not negative. */
  lemma StuckExactly(c: Config, start: int)
    requires 0 < c.maxRequests < WORD && c.readyToTrip == DefaultTrip
    ensures CanGetStuck(c, start) <==> c.maxRequests <= 5 && c.interval >= 0
  {
    if CanGetStuck(c, start) {
      var run, ops :| IsRun(c, run, ops, start) && ClockFrom(ops, start) && Exhausted(c, run[|ops|]);
      ExhaustedOnlyWithFewProbes(c, run, ops, start, |ops|);
      if c.interval < 0 { NegativeIntervalNeverOpens(c, run, ops, start, |ops|); }
    } else if c.maxRequests <= 5 && c.interval >= 0 {
      GetsStuck(c, start);
    }
  }
}
