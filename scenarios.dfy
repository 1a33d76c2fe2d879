/** What a caller of ExtTelephonyManager observes after a history of client
    calls and transport signals: the lifecycle machine decides the connected
    flag and the remote handle, and the forwarding contracts turn those into
    the outcome of an operation. */
module Scenarios {
  import opened Remote
  import opened Forwarding
  import opened Lifecycle

  /** Before the transport has ever signalled, guarded operations send nothing
      and return their sentinel, however many clients attached; the unguarded
      operations dereference the null handle. */
  lemma {:induction false} BeforeFirstSignal<C, L, T>(
    log: seq<TransportRequest<C>>, es: seq<Event<C, L>>,
    req: Request, sentinel: T, reply: Reply<T>,
    ret: Outcome<T>, sent: Option<Call>, uret: Outcome<T>, usent: Option<Call>)
    requires ClientCallsOnly(es)
    requires var m := Run(Initial<C, L>(log), es);
      SwallowsFaults(m.connected, m.service, req, sentinel, reply, ret, sent) &&
      RethrowsFaults(m.service, req, reply, uret, usent)
    ensures ret == Returned(sentinel) && sent == None
    ensures uret == Threw(NullHandle) && usent == None
  {
    ClientCallsKeepStatus(Initial<C, L>(log), es);
  }

  /** After a disconnect signal, and any client calls since, guarded
      operations send nothing and return their sentinel, and the unguarded
      ones dereference the null handle. */
  lemma AfterDisconnectSignal<C, L, T>(m: Manager<C, L>, pre: seq<Event<C, L>>, post: seq<Event<C, L>>,
                                       req: Request, sentinel: T, reply: Reply<T>,
                                       ret: Outcome<T>, sent: Option<Call>,
                                       uret: Outcome<T>, usent: Option<Call>)
    requires ClientCallsOnly(post)
    requires var r := Run(m, pre + [ServiceDisconnected] + post);
      SwallowsFaults(r.connected, r.service, req, sentinel, reply, ret, sent) &&
      RethrowsFaults(r.service, req, reply, uret, usent)
    ensures ret == Returned(sentinel) && sent == None
    ensures uret == Threw(NullHandle) && usent == None
  {
    LastSignalDecides(m, pre, ServiceDisconnected, post);
  }

  /** After a connect signal whose binder converted to handle `h`, and any
      client calls since (including the last disconnectService), every
      operation sends its request, with the caller's arguments, to `h`, and
      returns exactly what the remote answered; a RemoteException becomes the
      sentinel, propagates, or is rethrown according to the operation's shape. */
  lemma AfterConnectSignal<C, L, T>(m: Manager<C, L>, pre: seq<Event<C, L>>, h: Handle,
                                    post: seq<Event<C, L>>,
                                    req: Request, sentinel: T, reply: Reply<T>,
                                    ret: Outcome<T>, sent: Option<Call>,
                                    pret: Outcome<T>, psent: Option<Call>,
                                    uret: Outcome<T>, usent: Option<Call>)
    requires ClientCallsOnly(post)
    requires var r := Run(m, pre + [ServiceConnected(Some(h))] + post);
      SwallowsFaults(r.connected, r.service, req, sentinel, reply, ret, sent) &&
      PropagatesFaults(r.connected, r.service, req, sentinel, reply, pret, psent) &&
      RethrowsFaults(r.service, req, reply, uret, usent)
    ensures sent == psent == usent == Some(Call(h, req))
    ensures reply.Value? ==> ret == pret == uret == Returned(reply.value)
    ensures reply.RemoteException? ==>
      ret == Returned(sentinel) && pret == uret == Threw(RemoteFault)
  {
    LastSignalDecides(m, pre, ServiceConnected(Some(h)), post);
  }

  /** A connect signal whose binder did not convert still sets the flag, so
      every guarded operation then fails with a null dereference instead of
      returning its sentinel, until the next signal. */
  lemma AfterUnconvertedConnect<C, L, T>(m: Manager<C, L>, pre: seq<Event<C, L>>, post: seq<Event<C, L>>,
                                         req: Request, sentinel: T, reply: Reply<T>,
                                         ret: Outcome<T>, sent: Option<Call>)
    requires ClientCallsOnly(post)
    requires var r := Run(m, pre + [ServiceConnected(None)] + post);
      SwallowsFaults(r.connected, r.service, req, sentinel, reply, ret, sent)
    ensures Run(m, pre + [ServiceConnected(None)] + post).connected
    ensures ret == Threw(NullHandle) && sent == None
  {
    LastSignalDecides(m, pre, ServiceConnected(None), post);
  }

  /** The last client detaching releases the binding but does not disconnect:
      the flag stays set and the handle stays live, so a guarded operation
      still reaches the remote. */
  lemma LastDetachKeepsServiceReachable<C, L, T>(l: Option<L>, c: C, h: Handle,
                                                 req: Request, sentinel: T, reply: Reply<T>,
                                                 ret: Outcome<T>, sent: Option<Call>)
    requires var r := Run(Initial<C, L>([]), [Attach(l, c), ServiceConnected(Some(h)), Detach]);
      SwallowsFaults(r.connected, r.service, req, sentinel, reply, ret, sent)
    ensures var r := Run(Initial<C, L>([]), [Attach(l, c), ServiceConnected(Some(h)), Detach]);
      r.clientCount == 0 && r.connection == None && r.transport == [Bind(c), Unbind(c)] &&
      r.connected && r.service == Some(h)
    ensures sent == Some(Call(h, req))
  {
    var m0 := Initial<C, L>([]);
    var es1 := [Attach(l, c)];
    var es2 := es1 + [ServiceConnected(Some(h))];
    var es3 := es2 + [Detach];
    assert es1[..0] == [] && es2[..1] == es1 && es3[..2] == es2;
    assert es3 == [Attach(l, c), ServiceConnected(Some(h)), Detach];
    assert Run(m0, []) == m0;
    assert Run(m0, es1) == Step(m0, Attach(l, c));
    assert Run(m0, es2).transport == [Bind(c)] && Run(m0, es2).clientCount == 1;
  }
}
