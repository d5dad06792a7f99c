/** The legacy controller's conflict-retry loop (controllers/labsession_controller.go). */
module Retry {
  import opened Wrappers

  const SECOND := 1_000_000_000
  const BASE_RETRY_INTERVAL := 2 * SECOND
  const MAX_DELAY := 60 * SECOND

  // ---------------------------------------------------------------- back-off

  function Pow2(n: nat): nat {
    if n == 0 then 1 else 2 * Pow2(n - 1)
  }

  /** calculateRetryDelay in nanoseconds. The product is exact in float64 for base below 2^53. */
  function RetryDelay(base: int, attempt: int): int {
    var b := if base == 0 then BASE_RETRY_INTERVAL else base;
    if attempt <= 0 then b
    else
      var delay := b * Pow2(attempt - 1);
      if delay > MAX_DELAY then MAX_DELAY else delay
  }

  /** What `attempts` attempts sleep in all: after each but the last; a negative delay does not sleep. */
  function TotalDelay(base: int, attempts: nat): (d: nat) {
    if attempts <= 1 then 0
    else
      var delay := RetryDelay(base, attempts - 1);
      TotalDelay(base, attempts - 1) + (if delay > 0 then delay else 0)
  }

  /** The delays double from the base, or from two seconds without one, up to a minute. */
  lemma DelaysDouble(base: int, attempt: nat)
    requires attempt > 0
    ensures RetryDelay(0, attempt) == RetryDelay(2_000_000_000, attempt)
    ensures base != 0 ==> RetryDelay(base, 1) == if base > 60_000_000_000 then 60_000_000_000 else base
    ensures base != 0 ==>
              var doubled := 2 * RetryDelay(base, attempt);
              RetryDelay(base, attempt + 1) == if doubled > 60_000_000_000 then 60_000_000_000 else doubled
  {
    if base != 0 {
      var p := Pow2(attempt - 1);
      assert base * Pow2(attempt) == 2 * (base * p);
    }
  }

  /** n attempts sleep at most (2^(n-1) - 1) times the base and at most a minute between two. */
  lemma {:induction false} TotalDelayBounded(base: int, attempts: nat)
    requires base > 0 && attempts > 0
    ensures TotalDelay(base, attempts) <= (Pow2(attempts - 1) - 1) * base
    ensures TotalDelay(base, attempts) <= (attempts - 1) * 60_000_000_000
  {
    if attempts > 1 {
      TotalDelayBounded(base, attempts - 1);
      DelayBounded(base, attempts - 1);
      Distribute(Pow2(attempts - 2), base);
    }
  }

  lemma DelayBounded(base: int, attempt: nat)
    requires base > 0 && attempt > 0
    ensures 0 <= RetryDelay(base, attempt) <= Pow2(attempt - 1) * base
    ensures RetryDelay(base, attempt) <= MAX_DELAY
  {
    ProductPositive(Pow2(attempt - 1), base);
  }

  lemma ProductPositive(p: nat, base: nat)
    ensures p * base >= 0 && base * p == p * base
  {
  }

  lemma Distribute(p: int, base: int)
    ensures (p - 1) * base + p * base == (2 * p - 1) * base
  {
  }

  function AtMostMinute(delay: nat): nat {
    if delay > 60_000_000_000 then 60_000_000_000 else delay
  }

  /** Five attempts sleep exactly 1, 2, 4 and 8 times the base, each at most a minute: in all
      min(15 times the base, 240 seconds) at most, and 15 times the base for one up to 7.5 s. */
  lemma FiveAttempts(base: int)
    requires base > 0
    ensures TotalDelay(base, 5) == AtMostMinute(base) + AtMostMinute(2 * base) + AtMostMinute(4 * base) + AtMostMinute(8 * base)
    ensures TotalDelay(base, 5) <= 15 * base && TotalDelay(base, 5) <= 240_000_000_000
    ensures base <= 7_500_000_000 ==> TotalDelay(base, 5) == 15 * base
  {
    DelaysDouble(base, 1);
    DelaysDouble(base, 2);
    DelaysDouble(base, 3);
    assert RetryDelay(base, 1) > 0 && RetryDelay(base, 2) > 0 && RetryDelay(base, 3) > 0;
    assert TotalDelay(base, 2) == RetryDelay(base, 1);
    assert TotalDelay(base, 3) == RetryDelay(base, 1) + RetryDelay(base, 2);
    assert TotalDelay(base, 4) == TotalDelay(base, 3) + RetryDelay(base, 3);
  }

  // ---------------------------------------------------------------- the store

  /** A stored object: its status, if it has one, and the rest of it. */
  datatype Object = Object(status: Option<nat>, rest: nat)

  /** What happens around one attempt: other writers' versions before the update, whether the
      update fails without taking effect or loses its answer, other writers again, and how
      many versions behind the newest a refetch is, or its failure. */
  datatype Fault = NoFault | NotApplied | AnswerLost
  datatype Turn = Turn(before: seq<Object>, fault: Fault, between: seq<Object>, refetch: Option<nat>)

  datatype UpdateResult = Updated | Conflict | Failed

  /** The history after a status write on the current version. */
  function WithStatus(h: seq<Object>, status: Option<nat>): seq<Object>
    requires h != []
  {
    var current := h[|h| - 1];
    if current.status == status then h else h + [current.(status := status)]
  }

  /** One attempt: the version held, the one current at the write, and the one refetched. */
  datatype Try = Try(held: nat, current: nat, fetched: Option<nat>)

  /** The version `lag` behind the newest, or the first. */
  function Behind(newest: nat, lag: nat): nat {
    if lag <= newest then newest - lag else 0
  }

  /** The write is answered with success: no fault, and the version held is current. */
  predicate Lands(turn: Turn, t: Try) {
    turn.fault == NoFault && t.held == t.current
  }

  /** After a conflict, and only then, the refetch brings what it returns. */
  ghost predicate FetchOk(turn: Turn, t: Try) {
    t.fetched == if turn.fault != NotApplied && t.held != t.current && turn.refetch.Some?
                 then Some(Behind(t.current + |turn.between|, turn.refetch.value)) else None
  }

  /** The next attempt holds what was refetched, or what it held. */
  function HeldAfter(t: Try): nat {
    if t.fetched.Some? then t.fetched.value else t.held
  }

  /** The number of versions after an attempt: all that others wrote, and one more only if
      this attempt's write took effect without an answer. */
  ghost predicate LengthAfter(turn: Turn, t: Try, length: int) {
    var others := t.current + 1 + |turn.between|;
    length == others || (length == others + 1 && turn.fault == AnswerLost && t.held == t.current)
  }

  /** The attempts made, from a caller's version and the number of versions there were. */
  ghost predicate Tried(version: nat, first: nat, turns: seq<Turn>, tries: seq<Try>) {
    && |tries| <= |turns|
    && (forall i :: 0 <= i < |tries| ==> FetchOk(turns[i], tries[i]))
    && (forall i :: 0 <= i < |tries| ==>
          if i == 0 then tries[0].held == version && tries[0].current + 1 == first + |turns[0].before|
          else && tries[i].held == HeldAfter(tries[i - 1])
               && LengthAfter(turns[i - 1], tries[i - 1], tries[i].current + 1 - |turns[i].before|))
  }

  /** Where the next attempt starts. */
  ghost predicate NextTry(version: nat, first: nat, turns: seq<Turn>, tries: seq<Try>, held: nat, length: nat)
    requires |tries| <= |turns|
  {
    if tries == [] then held == version && length == first
    else held == HeldAfter(tries[|tries| - 1]) && LengthAfter(turns[|tries| - 1], tries[|tries| - 1], length)
  }

  lemma TriedOnce(version: nat, first: nat, turns: seq<Turn>, tries: seq<Try>, held: nat, length: nat, t: Try)
    requires Tried(version, first, turns, tries) && |tries| < |turns| && NextTry(version, first, turns, tries, held, length)
    requires var turn := turns[|tries|];
             t.held == held && t.current + 1 == length + |turn.before| && FetchOk(turn, t)
    ensures Tried(version, first, turns, tries + [t])
  {
  }

  /** A conflict is got over: after a refetch that is up to date, the next attempt lands if it
      meets no fault and nobody writes in between. */
  lemma RefetchRecovers(version: nat, first: nat, turns: seq<Turn>, tries: seq<Try>, i: nat)
    requires Tried(version, first, turns, tries) && i + 1 < |tries|
    requires tries[i].held != tries[i].current && turns[i].fault != NotApplied && turns[i].refetch == Some(0)
    requires turns[i + 1].before == [] && turns[i + 1].fault == NoFault
    ensures Lands(turns[i + 1], tries[i + 1])
  {
    assert FetchOk(turns[i], tries[i]);
    assert LengthAfter(turns[i], tries[i], tries[i + 1].current + 1 - |turns[i + 1].before|);
  }

  predicate Stored(h: seq<Object>, tries: seq<Try>) {
    forall i :: 0 <= i < |tries| && tries[i].fetched.Some? ==> tries[i].fetched.value < |h|
  }

  /** The first status there is: the caller's, or that of the first refetched version that
      has one. */
  function FirstStatus(status: Option<nat>, h: seq<Object>, tries: seq<Try>): Option<nat>
    requires Stored(h, tries)
    decreases |tries|
  {
    if status.Some? || tries == [] then status
    else FirstStatus(if tries[0].fetched.Some? then h[tries[0].fetched.value].status else None, h, tries[1..])
  }

  /** One more refetch matters only while there is no status. */
  lemma {:induction false} FirstStatusAppend(status: Option<nat>, h: seq<Object>, tries: seq<Try>, t: Try)
    requires Stored(h, tries) && (t.fetched.Some? ==> t.fetched.value < |h|)
    ensures Stored(h, tries + [t])
    ensures var st := FirstStatus(status, h, tries);
            FirstStatus(status, h, tries + [t]) == if st.None? && t.fetched.Some? then h[t.fetched.value].status else st
    decreases |tries|
  {
    if status.None? {
      if tries == [] {
        assert [t][1..] == [];
      } else {
        var next := if tries[0].fetched.Some? then h[tries[0].fetched.value].status else None;
        FirstStatusAppend(next, h, tries[1..], t);
        assert (tries + [t])[1..] == tries[1..] + [t];
      }
    }
  }

  lemma {:induction false} FirstStatusStays(status: Option<nat>, h: seq<Object>, h': seq<Object>, tries: seq<Try>)
    requires h <= h' && Stored(h, tries)
    ensures Stored(h', tries) && FirstStatus(status, h', tries) == FirstStatus(status, h, tries)
    decreases |tries|
  {
    if status.None? && tries != [] {
      var next := if tries[0].fetched.Some? then h[tries[0].fetched.value].status else None;
      FirstStatusStays(next, h, h', tries[1..]);
    }
  }

  /** The API server's copy. Every version is kept; its index is the resourceVersion. */
  class Store {
    var history: seq<Object>

    constructor (first: Object)
      ensures history == [first]
    {
      history := [first];
    }

    method OtherWrites(others: seq<Object>)
      modifies this
      ensures history == old(history) + others
    {
      history := history + others;
    }

    /** Status().Update: compare-and-swap on the version, status only; a status that is
        stored already gets no new version. */
    method UpdateStatus(version: nat, status: Option<nat>, fault: Fault) returns (r: UpdateResult)
      requires history != []
      modifies this
      ensures r == if fault == NotApplied then Failed
                   else if version + 1 != |old(history)| then Conflict
                   else if fault == AnswerLost then Failed else Updated
      ensures history == if fault != NotApplied && version + 1 == |old(history)|
                         then WithStatus(old(history), status) else old(history)
    {
      if fault == NotApplied { return Failed; }
      if version + 1 != |history| { return Conflict; }
      var current := history[|history| - 1];
      if current.status != status {
        history := history + [current.(status := status)];
      }
      return if fault == AnswerLost then Failed else Updated;
    }
  }

  lemma WrittenOver(h: seq<Object>, replaced: nat, status: Option<nat>)
    requires replaced < |h| && h == WithStatus(h[..replaced + 1], status)
    ensures h[|h| - 1] == h[replaced].(status := status)
  {
    assert h[..replaced + 1][replaced] == h[replaced];
  }

  /** One attempt of the loop: the update and, after a conflict, the refetch, which keeps the
      status if there is one. */
  method Attempt(store: Store, version: nat, status: Option<nat>, turn: Turn)
    returns (landed: bool, version': nat, status': Option<nat>, ghost t: Try)
    requires store.history != []
    modifies store
    ensures old(store.history) <= store.history && store.history != []
    ensures t.held == version && t.current + 1 == |old(store.history)| + |turn.before| <= |store.history| && FetchOk(turn, t)
    ensures landed <==> Lands(turn, t)
    ensures landed ==> store.history == WithStatus(store.history[..t.current + 1], status)
    ensures !landed ==> LengthAfter(turn, t, |store.history|)
    ensures version' == HeldAfter(t) && (t.fetched.Some? ==> t.fetched.value < |store.history|)
    ensures status' == if status.None? && t.fetched.Some? then store.history[t.fetched.value].status else status
  {
    version', status' := version, status;
    store.OtherWrites(turn.before);
    ghost var h := store.history;
    t := Try(version, |h| - 1, None);
    var r := store.UpdateStatus(version, status, turn.fault);
    if r.Updated? {
      assert store.history[..|h|] == h;
      return true, version', status', t;
    }
    store.OtherWrites(turn.between);
    if r.Conflict? && turn.refetch.Some? {
      version' := Behind(|store.history| - 1, turn.refetch.value);
      if status.None? { status' := store.history[version'].status; }
      t := t.(fetched := Some(version'));
    }
    landed := false;
  }

  /** updateStatusWithRetry. `turns` is everything the loop does not control and `tries` what
      it then held. It succeeds exactly with the first attempt that meets no fault while it
      holds the current version, and gives up only after maxAttempts. On success the stored
      object is the version that was current at that write, whoever wrote it, with exactly the
      status sent: the caller's, or for a caller without one the first found in the versions
      refetched after conflicts. */
  method UpdateStatusWithRetry(store: Store, version: nat, status: Option<nat>, maxAttempts: nat, base: int, turns: seq<Turn>)
    returns (ok: bool, writes: nat, slept: nat, ghost tries: seq<Try>)
    requires store.history != [] && |turns| >= maxAttempts
    modifies store
    ensures old(store.history) <= store.history && store.history != []
    ensures writes == |tries| <= maxAttempts && Tried(version, |old(store.history)|, turns, tries)
    ensures forall i :: 0 <= i < writes - 1 ==> !Lands(turns[i], tries[i])
    ensures ok <==> writes > 0 && Lands(turns[writes - 1], tries[writes - 1])
    ensures !ok ==> writes == maxAttempts
    ensures slept == TotalDelay(base, writes)
    ensures Stored(store.history, tries)
    ensures ok ==> var h, replaced := store.history, tries[writes - 1].current;
                   && replaced < |h| && h == WithStatus(h[..replaced + 1], FirstStatus(status, h, tries))
                   && h[|h| - 1] == h[replaced].(status := if status.Some? then status else FirstStatus(None, h, tries))
  {
    var v: nat, st := version, status;
    ghost var first := |store.history|;
    writes, slept, tries := 0, 0, [];
    while writes < maxAttempts
      invariant writes == |tries| <= maxAttempts && Tried(version, first, turns, tries)
      invariant store.history != [] && old(store.history) <= store.history
      invariant NextTry(version, first, turns, tries, v, |store.history|)
      invariant forall i :: 0 <= i < writes ==> !Lands(turns[i], tries[i])
      invariant Stored(store.history, tries) && st == FirstStatus(status, store.history, tries)
      invariant slept == TotalDelay(base, if writes < maxAttempts then writes + 1 else writes)
    {
      ghost var h0, held := store.history, v;
      var landed;
      ghost var t;
      landed, v, st, t := Attempt(store, v, st, turns[writes]);
      FirstStatusStays(status, h0, store.history, tries);
      FirstStatusAppend(status, store.history, tries, t);
      TriedOnce(version, first, turns, tries, held, |h0|, t);
      tries := tries + [t];
      if landed {
        WrittenOver(store.history, t.current, FirstStatus(status, store.history, tries));
        return true, writes + 1, slept, tries;
      }
      if writes < maxAttempts - 1 {
        var delay := RetryDelay(base, writes + 1);
        if delay > 0 { slept := slept + delay; }
      }
      writes := writes + 1;
    }
    return false, writes, slept, tries;
  }
}
