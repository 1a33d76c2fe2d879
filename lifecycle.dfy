/** The connection lifecycle of ExtTelephonyManager as a state machine over
    values: the five fields the manager keeps, plus the requests it has issued
    to the platform's binding transport. The class in module ExtTelephony is
    proved to take exactly these steps. */
module Lifecycle {
  import opened Remote

  /** A request issued to the transport through the Context. */
  datatype TransportRequest<C> = Bind(connection: C) | Unbind(connection: C)

  /** The manager's state. `C` identifies a ServiceConnection object, `L` a
      ServiceCallback listener. */
  datatype Manager<C, L> = Manager(
    connected: bool,                       // mServiceConnected
    clientCount: int32,                    // mClientCount
    connection: Option<C>,                 // mConnection
    service: Option<Handle>,               // mExtTelephonyService
    listener: Option<L>,                   // mServiceCb
    transport: seq<TransportRequest<C>>)   // binds and unbinds issued so far

  /** What can happen to the manager: the two client calls and the two
      transport signals. */
  datatype Event<C, L> =
    | Attach(listener: Option<L>, conn: C)     // connectService, with the new connection object
    | Detach                                   // disconnectService
    | ServiceConnected(converted: Option<Handle>)  // onServiceConnected, with the converted handle
    | ServiceDisconnected                      // onServiceDisconnected

  /** A freshly constructed manager over a transport that has already seen `log`. */
  function Initial<C, L>(log: seq<TransportRequest<C>>): Manager<C, L>
  {
    Manager(false, 0, None, None, None, log)
  }

  /** `x += 1` on a Java int: two's-complement addition modulo 2^32. */
  function Inc32(x: int32): (r: int32)
    ensures r as int == (x as int + 1 + 0x8000_0000) % 0x1_0000_0000 - 0x8000_0000
  {
    if x == INT_MAX then INT_MIN else x + 1
  }

  /** One transition. */
  function Step<C, L>(m: Manager<C, L>, e: Event<C, L>): Manager<C, L>
  {
    match e
    case Attach(l, c) =>
      m.(listener := l, clientCount := Inc32(m.clientCount),
         connection := Some(c), transport := m.transport + [Bind(c)])
    case Detach =>
      var n := if m.clientCount > 0 then m.clientCount - 1 else m.clientCount;
      if n <= 0 && m.connection.Some? then
        m.(clientCount := n, connection := None,
           transport := m.transport + [Unbind(m.connection.value)])
      else
        m.(clientCount := n)
    case ServiceConnected(h) =>
      m.(service := h, connected := true)
    case ServiceDisconnected =>
      m.(service := None, connected := false)
  }

  /** The state after a sequence of events, applied first to last. */
  function Run<C, L>(m: Manager<C, L>, es: seq<Event<C, L>>): Manager<C, L>
    decreases |es|
  {
    if es == [] then m else Step(Run(m, es[..|es| - 1]), es[|es| - 1])
  }

  /** The number of connectService calls among `es`. */
  function Attaches<C, L>(es: seq<Event<C, L>>): nat
    decreases |es|
  {
    if es == [] then 0
    else Attaches(es[..|es| - 1]) + (if es[|es| - 1].Attach? then 1 else 0)
  }

  /** The reference count a client would expect: one per attach, minus one per
      detach, never below zero, with no bound on its size. */
  function RefCount<C, L>(start: nat, es: seq<Event<C, L>>): nat
    decreases |es|
  {
    if es == [] then start
    else
      var c := RefCount(start, es[..|es| - 1]);
      match es[|es| - 1]
      case Attach(_, _) => c + 1
      case Detach => if c > 0 then c - 1 else 0
      case _ => c
  }

  /** The number of bind requests in a transport log. */
  function Binds<C>(log: seq<TransportRequest<C>>): nat
    decreases |log|
  {
    if log == [] then 0
    else Binds(log[..|log| - 1]) + (if log[|log| - 1].Bind? then 1 else 0)
  }

  /** Every unbind in the log is of a connection that was bound before it. */
  ghost predicate Paired<C>(log: seq<TransportRequest<C>>)
  {
    forall i :: 0 <= i < |log| && log[i].Unbind? ==> Bind(log[i].connection) in log[..i]
  }

  /** True of every state the manager reaches from a fresh start as long as no
      connectService finds the count at INT_MAX: the count is non-negative,
      `mConnection` is non-null exactly while the count is positive, a held connection
      was bound, a remote handle is only present while the flag is set, and the
      transport never unbinds what it did not bind. */
  ghost predicate Invariant<C, L>(m: Manager<C, L>)
  {
    m.clientCount >= 0 &&
    (m.connection.Some? <==> m.clientCount > 0) &&
    (m.connection.Some? ==> Bind(m.connection.value) in m.transport) &&
    (m.service.Some? ==> m.connected) &&
    Paired(m.transport)
  }

  /** A signal event, as opposed to a client call. */
  predicate IsSignal<C, L>(e: Event<C, L>)
  {
    e.ServiceConnected? || e.ServiceDisconnected?
  }

  /** No signal occurs among `es`: only connectService and disconnectService. */
  ghost predicate ClientCallsOnly<C, L>(es: seq<Event<C, L>>)
  {
    forall i :: 0 <= i < |es| ==> !IsSignal(es[i])
  }

  // ---------------------------------------------------------------------
  // Lemmas about single steps and runs

  lemma {:induction false} RunAppend<C, L>(m: Manager<C, L>, a: seq<Event<C, L>>, b: seq<Event<C, L>>)
    ensures Run(m, a + b) == Run(Run(m, a), b)
    decreases |b|
  {
    if b == [] {
      assert a + b == a;
    } else {
      var b' := b[..|b| - 1];
      assert (a + b)[..|a + b| - 1] == a + b';
      assert (a + b)[|a + b| - 1] == b[|b| - 1];
      RunAppend(m, a, b');
    }
  }

  /** No connectService in `es` finds the count already at INT_MAX, so the
      Java increment never wraps along the run. */
  ghost predicate NoAttachAtIntMax<C, L>(m: Manager<C, L>, es: seq<Event<C, L>>)
  {
    forall k :: 0 <= k < |es| && es[k].Attach? ==> Run(m, es[..k]).clientCount < INT_MAX
  }

  /** disconnectService never drives the count below zero, and releases the
      connection exactly when the decremented count is at most zero and a
      connection was held; it never touches the flag, the handle or the listener. */
  lemma DetachEffect<C, L>(m: Manager<C, L>)
    ensures var m' := Step(m, Detach);
      m'.clientCount == (if m.clientCount > 0 then m.clientCount - 1 else m.clientCount) &&
      (m.clientCount >= 0 ==> m'.clientCount >= 0) &&
      (m'.connection == None <==> m'.clientCount <= 0 || m.connection == None) &&
      (m'.clientCount <= 0 && m.connection.Some? ==>
         m'.transport == m.transport + [Unbind(m.connection.value)]) &&
      (m'.clientCount > 0 || m.connection.None? ==>
         m'.transport == m.transport && m'.connection == m.connection) &&
      m'.connected == m.connected && m'.service == m.service && m'.listener == m.listener
  {
  }

  /** One step keeps the invariant, provided an attach does not overflow the count. */
  lemma StepKeepsInvariant<C, L>(m: Manager<C, L>, e: Event<C, L>)
    requires Invariant(m)
    requires e.Attach? ==> m.clientCount < INT_MAX
    ensures Invariant(Step(m, e))
  {
    var m' := Step(m, e);
    match e
    case Attach(l, c) =>
      forall i | 0 <= i < |m'.transport| && m'.transport[i].Unbind?
        ensures Bind(m'.transport[i].connection) in m'.transport[..i]
      {
        assert i < |m.transport|;
        assert m'.transport[..i] == m.transport[..i];
      }
    case Detach =>
      if m'.transport != m.transport {
        var log := m'.transport;
        forall i | 0 <= i < |log| && log[i].Unbind?
          ensures Bind(log[i].connection) in log[..i]
        {
          if i < |m.transport| {
            assert log[..i] == m.transport[..i];
          } else {
            assert log[..i] == m.transport;
          }
        }
      }
    case ServiceConnected(_) =>
    case ServiceDisconnected =>
  }

  /** From a state satisfying the invariant, any run in which no attach finds
      the count at INT_MAX keeps the invariant and counts exactly like the
      unbounded reference count. This covers any number of attach/detach
      cycles; only the live count is bounded. */
  lemma {:induction false} RunKeepsInvariant<C, L>(m: Manager<C, L>, es: seq<Event<C, L>>)
    requires Invariant(m)
    requires NoAttachAtIntMax(m, es)
    ensures Invariant(Run(m, es))
    ensures Run(m, es).clientCount as int == RefCount(m.clientCount as nat, es)
    decreases |es|
  {
    if es != [] {
      var pre := es[..|es| - 1];
      var e := es[|es| - 1];
      forall k | 0 <= k < |pre| && pre[k].Attach?
        ensures Run(m, pre[..k]).clientCount < INT_MAX
      {
        assert pre[..k] == es[..k] && pre[k] == es[k];
      }
      RunKeepsInvariant(m, pre);
      assert e.Attach? ==> Run(m, pre).clientCount < INT_MAX;
      StepKeepsInvariant(Run(m, pre), e);
    }
  }

  /** From a fresh manager, the count never goes negative and `mConnection` is
      non-null exactly while it is positive, as long as no attach finds the
      count at INT_MAX. */
  lemma CountNeverNegative<C, L>(log: seq<TransportRequest<C>>, es: seq<Event<C, L>>)
    requires Paired(log)
    requires NoAttachAtIntMax(Initial<C, L>(log), es)
    ensures Run(Initial(log), es).clientCount >= 0
    ensures Run(Initial(log), es).connection.Some? <==> Run(Initial(log), es).clientCount > 0
  {
    RunKeepsInvariant(Initial<C, L>(log), es);
  }

  /** Once the count has reached INT_MAX, one more connectService wraps it to
      INT_MIN; a following disconnectService leaves it there and releases the
      connection although 2^31 clients are attached. */
  lemma CountWrapsAtIntMax<C, L>(m: Manager<C, L>, l: Option<L>, c: C)
    requires m.clientCount == INT_MAX
    ensures Step(m, Attach(l, c)).clientCount == INT_MIN
    ensures var m' := Step(Step(m, Attach(l, c)), Detach);
      m'.clientCount == INT_MIN && m'.connection == None &&
      m'.transport == m.transport + [Bind(c), Unbind(c)]
  {
  }

  /** Only the transport signals write the connected flag and the remote
      handle: any number of connectService and disconnectService calls leave
      both as they were. */
  lemma {:induction false} ClientCallsKeepStatus<C, L>(m: Manager<C, L>, es: seq<Event<C, L>>)
    requires ClientCallsOnly(es)
    ensures Run(m, es).connected == m.connected
    ensures Run(m, es).service == m.service
    decreases |es|
  {
    if es != [] {
      ClientCallsKeepStatus(m, es[..|es| - 1]);
    }
  }

  /** The last signal decides the status: after a connect signal carrying
      handle `h`, followed only by client calls, the flag is set and the handle
      is `h`; after a disconnect signal so followed, the flag is clear and the
      handle null. */
  lemma LastSignalDecides<C, L>(m: Manager<C, L>, pre: seq<Event<C, L>>, e: Event<C, L>, post: seq<Event<C, L>>)
    requires IsSignal(e)
    requires ClientCallsOnly(post)
    ensures Run(m, pre + [e] + post).connected == e.ServiceConnected?
    ensures Run(m, pre + [e] + post).service == if e.ServiceConnected? then e.converted else None
  {
    RunAppend(m, pre + [e], post);
    ClientCallsKeepStatus(Run(m, pre + [e]), post);
    assert (pre + [e])[..|pre + [e]| - 1] == pre;
  }

  /** The listener slot holds whatever the most recent connectService passed,
      whatever happened since. */
  lemma {:induction false} LastAttachOwnsListener<C, L>(m: Manager<C, L>, pre: seq<Event<C, L>>,
                                                       l: Option<L>, c: C, post: seq<Event<C, L>>)
    requires forall i :: 0 <= i < |post| ==> !post[i].Attach?
    ensures Run(m, pre + [Attach(l, c)] + post).listener == l
    decreases |post|
  {
    if post == [] {
      assert pre + [Attach(l, c)] + post == pre + [Attach(l, c)];
      assert (pre + [Attach(l, c)])[..|pre| ] == pre;
    } else {
      var post' := post[..|post| - 1];
      assert (pre + [Attach(l, c)] + post)[..|pre + [Attach(l, c)] + post| - 1]
          == pre + [Attach(l, c)] + post';
      LastAttachOwnsListener(m, pre, l, c, post');
    }
  }

  /** One step adds a bind to the log exactly when it is a connectService. */
  lemma StepBinds<C, L>(m: Manager<C, L>, e: Event<C, L>)
    ensures Binds(Step(m, e).transport) == Binds(m.transport) + (if e.Attach? then 1 else 0)
  {
    var log := Step(m, e).transport;
    if log != m.transport {
      assert log[..|log| - 1] == m.transport;
    }
  }

  /** Every connectService issues a bind, whatever the count was. */
  lemma {:induction false} BindPerAttach<C, L>(m: Manager<C, L>, es: seq<Event<C, L>>)
    ensures Binds(Run(m, es).transport) == Binds(m.transport) + Attaches(es)
    decreases |es|
  {
    if es != [] {
      BindPerAttach(m, es[..|es| - 1]);
      StepBinds(Run(m, es[..|es| - 1]), es[|es| - 1]);
    }
  }

  /** A connection that is not the held one, and that no later connectService
      passes again, is never unbound from then on: disconnectService only ever
      unbinds the connection currently held. In particular, once a second
      connectService has replaced `c`, the binding of `c` is leaked for good. */
  lemma {:induction false} ReplacedConnectionNeverUnbound<C, L>(m: Manager<C, L>, c: C, es: seq<Event<C, L>>)
    requires m.connection != Some(c)
    requires forall i :: 0 <= i < |es| && es[i].Attach? ==> es[i].conn != c
    ensures Run(m, es).connection != Some(c)
    ensures Unbind(c) in Run(m, es).transport ==> Unbind(c) in m.transport
    decreases |es|
  {
    if es != [] {
      var pre := es[..|es| - 1];
      forall i | 0 <= i < |pre| && pre[i].Attach? ensures pre[i].conn != c {
        assert pre[i] == es[i];
      }
      ReplacedConnectionNeverUnbound(m, c, pre);
    }
  }

  /** Two clients attach and both detach: two bindings are requested but only
      the second connection is ever released, because the second
      connectService overwrote the first connection object. */
  lemma SecondAttachLeaksFirstBinding<C, L>(l1: Option<L>, c1: C, l2: Option<L>, c2: C)
    requires c1 != c2
    ensures var r := Run(Initial<C, L>([]), [Attach(l1, c1), Attach(l2, c2), Detach, Detach]);
      r.transport == [Bind(c1), Bind(c2), Unbind(c2)] &&
      Unbind(c1) !in r.transport && r.clientCount == 0 && r.connection == None
  {
    var m0 := Initial<C, L>([]);
    var es1 := [Attach(l1, c1)];
    var es2 := es1 + [Attach(l2, c2)];
    var es3 := es2 + [Detach];
    var es4 := es3 + [Detach];
    assert es1[..0] == [] && es2[..1] == es1 && es3[..2] == es2 && es4[..3] == es3;
    assert es4 == [Attach(l1, c1), Attach(l2, c2), Detach, Detach];
    assert Run(m0, []) == m0;
    assert Run(m0, es1) == Step(Run(m0, es1[..0]), Attach(l1, c1));
    var m1 := Run(m0, es1);
    assert m1.clientCount == 1 && m1.transport == [] + [Bind(c1)];
    var m2 := Run(m0, es2);
    assert m2.clientCount == 2 && m2.connection == Some(c2);
    assert m2.transport == [Bind(c1), Bind(c2)];
    var m3 := Run(m0, es3);
    assert m3.clientCount == 1 && m3.transport == [Bind(c1), Bind(c2)];
  }
}
