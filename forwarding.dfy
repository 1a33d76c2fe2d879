/** The three shapes of "guard and forward" that the operations of
    ExtTelephonyManager wrap around the remote interface, stated as relations
    between the manager's connection fields, the remote's reply and what the
    operation returns and sends. */
module Forwarding {
  import opened Remote

  /** The Java exceptions an operation can let escape to its caller. */
  datatype Fault =
    | RemoteFault   // a RemoteException, rethrown or propagated
    | NullHandle    // a NullPointerException from calling through a null remote handle

  /** What the caller of an operation observes: a return value or an exception. */
  datatype Outcome<T> = Returned(value: T) | Threw(fault: Fault)

  /** The reply as the caller sees it when nothing catches the RemoteException. */
  function Lift<T>(reply: Reply<T>): Outcome<T>
  {
    match reply
    case Value(v) => Returned(v)
    case RemoteException => Threw(RemoteFault)
  }

  /** Guarded, fault-swallowing operations (most of the API): while the
      connected flag is false nothing is sent and the per-operation sentinel is
      returned; while it is true the request goes to the current handle and a
      RemoteException collapses into that same sentinel. A true flag with a null
      handle dereferences null before anything is sent. */
  ghost predicate SwallowsFaults<T>(connected: bool, service: Option<Handle>, req: Request,
                                    sentinel: T, reply: Reply<T>, ret: Outcome<T>, sent: Option<Call>)
  {
    (!connected ==> ret == Returned(sentinel) && sent == None) &&
    (connected && service.None? ==> ret == Threw(NullHandle) && sent == None) &&
    (connected && service.Some? ==>
       sent == Some(Call(service.value, req)) &&
       ret == Returned(if reply.Value? then reply.value else sentinel))
  }

  /** Guarded, fault-propagating operations (getQtiRadioCapability): the same
      guard, but a RemoteException reaches the caller. */
  ghost predicate PropagatesFaults<T>(connected: bool, service: Option<Handle>, req: Request,
                                      sentinel: T, reply: Reply<T>, ret: Outcome<T>, sent: Option<Call>)
  {
    (!connected ==> ret == Returned(sentinel) && sent == None) &&
    (connected && service.None? ==> ret == Threw(NullHandle) && sent == None) &&
    (connected && service.Some? ==> sent == Some(Call(service.value, req)) && ret == Lift(reply))
  }

  /** Unguarded, rethrowing operations: the connected flag is not consulted; a
      null handle fails with a null dereference and a RemoteException is
      rethrown as a fresh RemoteException. */
  ghost predicate RethrowsFaults<T>(service: Option<Handle>, req: Request,
                                    reply: Reply<T>, ret: Outcome<T>, sent: Option<Call>)
  {
    (service.None? ==> ret == Threw(NullHandle) && sent == None) &&
    (service.Some? ==> sent == Some(Call(service.value, req)) && ret == Lift(reply))
  }

  /** A caller of a fault-swallowing operation cannot tell a remote failure from
      a remote that answered with the sentinel, nor from a disconnected proxy. */
  lemma SwallowedFaultIsIndistinguishable<T>(service: Option<Handle>, req: Request, sentinel: T,
                                             ret1: Outcome<T>, sent1: Option<Call>,
                                             ret2: Outcome<T>, sent2: Option<Call>,
                                             ret3: Outcome<T>, sent3: Option<Call>)
    requires service.Some?
    requires SwallowsFaults(true, service, req, sentinel, RemoteException, ret1, sent1)
    requires SwallowsFaults(true, service, req, sentinel, Value(sentinel), ret2, sent2)
    requires SwallowsFaults(false, service, req, sentinel, Value(sentinel), ret3, sent3)
    ensures ret1 == ret2 == ret3 == Returned(sentinel)
    ensures sent1 == sent2 != sent3
  {
  }

  /** The three shapes agree whenever the remote answers; they differ only in
      what a RemoteException and a false flag become. */
  lemma ShapesAgreeOnSuccess<T>(service: Option<Handle>, req: Request, sentinel: T, v: T,
                                ret1: Outcome<T>, sent1: Option<Call>,
                                ret2: Outcome<T>, sent2: Option<Call>,
                                ret3: Outcome<T>, sent3: Option<Call>)
    requires SwallowsFaults(true, service, req, sentinel, Value(v), ret1, sent1)
    requires PropagatesFaults(true, service, req, sentinel, Value(v), ret2, sent2)
    requires RethrowsFaults(service, req, Value(v), ret3, sent3)
    ensures ret1 == ret2 == ret3
    ensures sent1 == sent2 == sent3
    ensures service.Some? ==> ret1 == Returned(v)
  {
  }
}
