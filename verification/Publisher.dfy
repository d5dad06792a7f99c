/** The RabbitMQ publisher's connection lifecycle (internal/events/publisher.go), against a
    network in which every call can fail and the broker can drop a connection or a channel
    at any time between calls. */
module Publisher {
  import opened Wrappers

  /** The publisher's fields, and the network: how many connections were dialed so far
      (their numbers are their identities), and which connections and channels are open.
      A connection's one channel carries its number. */
  datatype Link = Link(conn: Option<nat>, ch: Option<nat>, closed: bool, dialed: nat, open: set<nat>, channels: set<nat>)

  datatype SendOutcome = SendFailed | WaitFailed | Nacked | Acked

  /** How the network answers, should the publisher ask. */
  datatype Replies = Replies(dial: bool, channel: bool, declare: bool, confirm: bool, send: SendOutcome)

  const NEW_LINK := Link(None, None, false, 0, {}, {})

  // ---------------------------------------------------------------- transitions

  function Hangup(l: Link, c: nat): Link {
    l.(open := l.open - {c}, channels := l.channels - {c})
  }

  function Dropped(l: Link): Link {
    var l1 := if l.conn.Some? && l.conn.value in l.open then Hangup(l, l.conn.value) else l;
    l1.(conn := None, ch := None)
  }

  function Connect(l: Link, r: Replies): (Link, bool) {
    if l.closed then (l, false)
    else if l.ch.Some? && l.ch.value in l.channels then (l, true)
    else
      var l1 := Dropped(l);
      if !r.dial then (l1, false)
      else
        var c := l1.dialed;
        var l2 := l1.(dialed := c + 1, open := l1.open + {c});
        if !r.channel || !r.declare || !r.confirm then (Hangup(l2, c), false)
        else (l2.(conn := Some(c), ch := Some(c), channels := l2.channels + {c}), true)
  }

  function Published(l: Link, r: Replies): (Link, bool) {
    var (l1, connected) := Connect(l, r);
    if !connected then (l1, false)
    else if r.send == SendFailed || r.send == WaitFailed then (Dropped(l1), false)
    else (l1, r.send == Acked)
  }

  function Closed(l: Link): Link {
    Dropped(l).(closed := true)
  }

  // ---------------------------------------------------------------- the class

  class RabbitPublisher {
    var conn: Option<nat>
    var ch: Option<nat>
    var closed: bool
    // the network
    var dialed: nat
    var open: set<nat>
    var channels: set<nat>

    function View(): Link
      reads this
    {
      Link(conn, ch, closed, dialed, open, channels)
    }

    constructor ()
      ensures View() == NEW_LINK
    {
      conn, ch, closed, dialed, open, channels := None, None, false, 0, {}, {};
    }

    method CloseConnection(c: nat)
      modifies this
      ensures View() == Hangup(old(View()), c)
    {
      open, channels := open - {c}, channels - {c};
    }

    method Reset()
      modifies this
      ensures View() == Dropped(old(View()))
    {
      if conn.Some? && conn.value in open { CloseConnection(conn.value); }
      conn, ch := None, None;
    }

    method Channel(r: Replies) returns (ok: bool)
      modifies this
      ensures (View(), ok) == Connect(old(View()), r)
    {
      if closed { return false; }
      if ch.Some? && ch.value in channels { return true; }
      Reset();
      if !r.dial { return false; }
      var c := dialed;
      dialed, open := dialed + 1, open + {c};
      if !r.channel { CloseConnection(c); return false; }
      if !r.declare { CloseConnection(c); return false; }
      if !r.confirm { CloseConnection(c); return false; }
      conn, ch, channels := Some(c), Some(c), channels + {c};
      return true;
    }

    method PublishPhaseChange(r: Replies) returns (ok: bool)
      modifies this
      ensures (View(), ok) == Published(old(View()), r)
    {
      var connected := Channel(r);
      if !connected { return false; }
      if r.send == SendFailed { Reset(); return false; }
      if r.send == WaitFailed { Reset(); return false; }
      return r.send == Acked;
    }

    method Close()
      modifies this
      ensures View() == Closed(old(View()))
    {
      closed := true;
      if conn.Some? && conn.value in open { CloseConnection(conn.value); }
      conn, ch := None, None;
    }
  }

  // ---------------------------------------------------------------- whole runs

  datatype Op = Publish(replies: Replies) | ConnectionLost(c: nat) | ChannelLost(c: nat) | Close

  function Do(l: Link, op: Op): Link {
    match op
    case Publish(r) => Published(l, r).0
    case ConnectionLost(c) => Hangup(l, c)
    case ChannelLost(c) => l.(channels := l.channels - {c})
    case Close => Closed(l)
  }

  ghost predicate IsRun(run: seq<Link>, ops: seq<Op>) {
    && |run| == |ops| + 1 && run[0] == NEW_LINK
    && forall i {:trigger ops[i]} :: 0 <= i < |ops| ==> run[i + 1] == Do(run[i], ops[i])
  }

  ghost predicate Inv(l: Link) {
    && (forall c :: c in l.open ==> l.conn == Some(c))
    && (forall c :: c in l.channels ==> c in l.open)
    && (l.ch.Some? ==> l.conn == l.ch)
    && (l.conn.Some? ==> l.conn.value < l.dialed)
    && (l.closed ==> l.conn.None?)
  }

  lemma ConnectKeeps(l: Link, r: Replies)
    requires Inv(l)
    ensures var (l', ok) := Connect(l, r);
            && Inv(l') && l'.closed == l.closed && l.dialed <= l'.dialed <= l.dialed + 1
            && (ok ==> l'.ch.Some? && l'.ch.value in l'.channels)
  {
  }

  lemma OpKeeps(l: Link, op: Op)
    requires Inv(l)
    ensures Inv(Do(l, op)) && (l.closed ==> Do(l, op).closed && Do(l, op).dialed == l.dialed)
  {
    if op.Publish? { ConnectKeeps(l, op.replies); }
  }

  lemma {:induction false} RunKeeps(run: seq<Link>, ops: seq<Op>, m: nat, n: nat)
    requires IsRun(run, ops) && m <= n < |run|
    ensures Inv(run[n]) && (run[m].closed ==> run[n].closed && run[n].dialed == run[m].dialed)
  {
    if n > 0 {
      RunKeeps(run, ops, if m < n then m else n - 1, n - 1);
      OpKeeps(run[n - 1], ops[n - 1]);
    }
  }

  /** Between calls at most one dialed connection is open, and it is the stored one. */
  lemma AtMostOneConnection(run: seq<Link>, ops: seq<Op>, n: nat)
    requires IsRun(run, ops) && n < |run|
    ensures |run[n].open| <= 1 && forall c :: c in run[n].open ==> run[n].conn == Some(c)
  {
    RunKeeps(run, ops, n, n);
    var l := run[n];
    if l.conn.Some? {
      assert l.open <= {l.conn.value};
      if l.open != {} { assert l.open == {l.conn.value}; }
    } else {
      assert l.open == {};
    }
  }

  /** After Close nothing is open, and no later publish dials or succeeds. */
  lemma NothingAfterClose(run: seq<Link>, ops: seq<Op>, m: nat, n: nat)
    requires IsRun(run, ops) && m < n < |run| && ops[m] == Close
    ensures run[n].open == {} && run[n].dialed == run[m].dialed
    ensures forall r :: !Published(run[n], r).1
  {
    assert run[m + 1] == Closed(run[m]);
    RunKeeps(run, ops, m + 1, n);
  }

  ghost predicate WasClosed(ops: seq<Op>, n: nat) {
    exists i :: 0 <= i < n && i < |ops| && ops[i] == Close
  }

  lemma {:induction false} ClosedByClose(run: seq<Link>, ops: seq<Op>, n: nat)
    requires IsRun(run, ops) && n < |run|
    ensures run[n].closed <==> WasClosed(ops, n)
  {
    if n > 0 {
      ClosedByClose(run, ops, n - 1);
      RunKeeps(run, ops, n - 1, n - 1);
      if ops[n - 1].Publish? { ConnectKeeps(run[n - 1], ops[n - 1].replies); }
      assert run[n].closed <==> run[n - 1].closed || ops[n - 1] == Close;
    }
  }

  /** A publish succeeds exactly if Close was never called, the channel is still open or a
      new one can be set up, and the broker acknowledges. It then leaves an open channel on
      the one open connection. */
  lemma SucceedsExactly(run: seq<Link>, ops: seq<Op>, n: nat, r: Replies)
    requires IsRun(run, ops) && n < |run|
    ensures var l := run[n];
            var usable := l.ch.Some? && l.ch.value in l.channels;
            var (l', ok) := Published(l, r);
            && (ok <==> !WasClosed(ops, n) && (usable || (r.dial && r.channel && r.declare && r.confirm)) && r.send == Acked)
            && (ok ==> l'.ch.Some? && l'.channels == l'.open == {l'.ch.value} && l'.conn == l'.ch)
  {
    RunKeeps(run, ops, n, n);
    ClosedByClose(run, ops, n);
    ConnectKeeps(run[n], r);
    var (l', ok) := Published(run[n], r);
    if ok { assert l'.open == {l'.ch.value} && l'.channels == {l'.ch.value}; }
  }

  /** What any publish leaves behind, in every reachable state. It dials exactly if it is not
      closed and its channel is gone. A connection and its channel stay open exactly if there
      was or could be set up a channel and the broker answered, acknowledging or not; after a
      failed send or wait, or a failed set-up, nothing is open and the next publish dials. */
  lemma PublishLeaves(run: seq<Link>, ops: seq<Op>, n: nat, r: Replies)
    requires IsRun(run, ops) && n < |run|
    ensures var l, l' := run[n], Published(run[n], r).0;
            var usable := l.ch.Some? && l.ch.value in l.channels;
            var connected := usable || (r.dial && r.channel && r.declare && r.confirm);
            if WasClosed(ops, n) then l' == l && l.open == {}
            else
              && l'.dialed == l.dialed + (if !usable && r.dial then 1 else 0)
              && if connected && (r.send == Acked || r.send == Nacked)
                 then l'.ch == l'.conn == Some(if usable then l.ch.value else l.dialed) && l'.channels == l'.open == {l'.ch.value}
                 else l'.open == {} && l'.channels == {} && l'.conn == None && l'.ch == None
  {
    RunKeeps(run, ops, n, n);
    ClosedByClose(run, ops, n);
    var l, l' := run[n], Published(run[n], r).0;
    if !l.closed {
      var usable := l.ch.Some? && l.ch.value in l.channels;
      if usable { assert l.open == {l.ch.value} && l.channels == {l.ch.value}; }
      else { assert Dropped(l).open == {} && Dropped(l).channels == {}; }
    } else {
      assert l.open == {};
    }
  }
}
