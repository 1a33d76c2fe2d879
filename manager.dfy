/** The ExtTelephonyManager proxy: the object an application uses to reach
    the remote extended-telephony service. It keeps the binding's lifecycle in
    five fields and wraps every remote call in a guard. The remote service and
    the platform's binding transport are oracles: each operation takes the
    reply the remote would give, and each bind takes whether the transport
    accepts it. */
module ExtTelephony {
  import opened Remote
  import opened Forwarding
  import opened Lifecycle

  /** The sentinel some integer queries return when they cannot ask the service. */
  const INVALID: int32 := -1

  /** One binding to the remote service: a new one per connectService. */
  class ExtTelephonyServiceConnection {
    constructor ()
    {
    }
  }

  /** A connection-status notification delivered to a listener. */
  datatype ServiceEvent = Connected | Disconnected

  /** The connection-status listener an application hands to connectService;
      it records the notifications it receives. */
  class ServiceCallback {
    var received: seq<ServiceEvent>

    constructor ()
      ensures received == []
    {
      received := [];
    }

    method OnConnected()
      modifies this
      ensures received == old(received) + [Connected]
    {
      received := received + [Connected];
    }

    method OnDisconnected()
      modifies this
      ensures received == old(received) + [Disconnected]
    {
      received := received + [Disconnected];
    }
  }

  /** The application context through which bindings are requested and
      released; it records every request it has been given. Whether a bind
      request is accepted is decided by the platform and passed in. */
  class Context {
    var requests: seq<TransportRequest<ExtTelephonyServiceConnection>>

    constructor ()
      ensures requests == []
    {
      requests := [];
    }

    method BindService(conn: ExtTelephonyServiceConnection, accepted: bool) returns (ok: bool)
      modifies this
      ensures ok == accepted
      ensures requests == old(requests) + [Bind(conn)]
    {
      requests := requests + [Bind(conn)];
      ok := accepted;
    }

    method UnbindService(conn: ExtTelephonyServiceConnection)
      modifies this
      ensures requests == old(requests) + [Unbind(conn)]
    {
      requests := requests + [Unbind(conn)];
    }
  }

  /** A nullable listener reference as an optional listener. */
  function AsListener(cb: ServiceCallback?): (l: Option<ServiceCallback>)
    ensures l.Some? <==> cb != null
    ensures l.Some? ==> l.value == cb
  {
    if cb == null then None else Some(cb)
  }

  /** A nullable connection reference as an optional connection. */
  function AsConnection(conn: ExtTelephonyServiceConnection?): (c: Option<ExtTelephonyServiceConnection>)
    ensures c.Some? <==> conn != null
    ensures c.Some? ==> c.value == conn
  {
    if conn == null then None else Some(conn)
  }

  class ExtTelephonyManager {
    const mContext: Context
    var mServiceConnected: bool
    var mConnection: ExtTelephonyServiceConnection?
    var mExtTelephonyService: Option<Handle>
    var mServiceCb: ServiceCallback?
    var mClientCount: int32

    /** The manager's fields, with the context's request log, as a state of
        the lifecycle machine. */
    ghost function State(): Manager<ExtTelephonyServiceConnection, ServiceCallback>
      reads this, mContext
    {
      Manager(mServiceConnected, mClientCount, AsConnection(mConnection),
              mExtTelephonyService, AsListener(mServiceCb), mContext.requests)
    }

    ghost predicate Valid()
      reads this, mContext
    {
      Invariant(State())
    }

    constructor (context: Context)
      ensures mContext == context
      ensures State() == Initial(context.requests)
      ensures Paired(context.requests) ==> Valid()
    {
      mContext := context;
      mServiceConnected := false;
      mConnection := null;
      mExtTelephonyService := None;
      mServiceCb := null;
      mClientCount := 0;
    }

    /** Whether the last transport signal was a connect. */
    method IsServiceConnected() returns (connected: bool)
      ensures connected == State().connected
    {
      connected := mServiceConnected;
    }

    /** connectService: installs `cb` as the only listener, counts one more
        client and always requests a new binding, returning the transport's
        answer to that request. The connected flag and the handle are left
        to the transport signals. */
    method ConnectService(cb: ServiceCallback?, bindAccepted: bool) returns (success: bool)
      modifies this, mContext
      ensures success == bindAccepted
      ensures mConnection != null && fresh(mConnection)
      ensures var conn: ExtTelephonyServiceConnection := mConnection;
        State() == Step(old(State()), Attach(AsListener(cb), conn))
      ensures mServiceCb == cb
      ensures mContext.requests == old(mContext.requests) + [Bind(mConnection)]
      ensures mServiceConnected == old(mServiceConnected)
      ensures mExtTelephonyService == old(mExtTelephonyService)
      ensures old(Valid()) && old(mClientCount) < INT_MAX ==> Valid()
    {
      mServiceCb := cb;
      mClientCount := Inc32(mClientCount);
      var conn := new ExtTelephonyServiceConnection();
      mConnection := conn;
      success := mContext.BindService(conn, bindAccepted);
      ghost var e: Event<ExtTelephonyServiceConnection, ServiceCallback> := Attach(AsListener(cb), conn);
      if old(Valid()) && old(mClientCount) < INT_MAX {
        StepKeepsInvariant(old(State()), e);
      }
    }

    /** disconnectService: counts one client fewer, never going below zero,
        and releases the binding once no client is left. It leaves the
        connected flag and the remote handle as they were. */
    method DisconnectService()
      modifies this, mContext
      ensures State() == Step(old(State()), Detach)
      ensures mClientCount == if old(mClientCount) > 0 then old(mClientCount) - 1 else old(mClientCount)
      ensures mServiceConnected == old(mServiceConnected)
      ensures mExtTelephonyService == old(mExtTelephonyService)
      ensures old(Valid()) ==> Valid()
    {
      if mClientCount > 0 {
        mClientCount := mClientCount - 1;
      }
      if mClientCount <= 0 && mConnection != null {
        mContext.UnbindService(mConnection);
        mConnection := null;
      }
      if old(Valid()) {
        StepKeepsInvariant(old(State()), Detach);
      }
    }

    /** The transport's connect signal, with the binder already converted to
        a remote handle (None when the conversion yields null). The flag is set
        either way, and the listener, if any, is told once. */
    method OnServiceConnected(converted: Option<Handle>)
      modifies this, mServiceCb
      ensures State() == Step(old(State()), ServiceConnected(converted))
      ensures mServiceConnected && mExtTelephonyService == converted
      ensures mServiceCb == old(mServiceCb)
      ensures mServiceCb != null ==> mServiceCb.received == old(mServiceCb.received) + [Connected]
      ensures old(Valid()) ==> Valid()
    {
      mExtTelephonyService := converted;
      mServiceConnected := true;
      if mServiceCb != null {
        mServiceCb.OnConnected();
      }
      if old(Valid()) {
        StepKeepsInvariant(old(State()), ServiceConnected(converted));
      }
    }

    /** The transport's disconnect signal: clears the handle and the flag and
        tells the listener, if any, once. */
    method OnServiceDisconnected()
      modifies this, mServiceCb
      ensures State() == Step(old(State()), ServiceDisconnected)
      ensures !mServiceConnected && mExtTelephonyService == None
      ensures mServiceCb == old(mServiceCb)
      ensures mServiceCb != null ==> mServiceCb.received == old(mServiceCb.received) + [Disconnected]
      ensures old(Valid()) ==> Valid()
    {
      mExtTelephonyService := None;
      mServiceConnected := false;
      if mServiceCb != null {
        mServiceCb.OnDisconnected();
      }
      if old(Valid()) {
        StepKeepsInvariant(old(State()), ServiceDisconnected);
      }
    }

    // -----------------------------------------------------------------
    // The three forwarding shapes

    /** Check the flag, forward, and swallow a RemoteException into the sentinel. */
    method GuardedCall<T>(req: Request, sentinel: T, reply: Reply<T>)
      returns (ret: Outcome<T>, sent: Option<Call>)
      ensures SwallowsFaults(mServiceConnected, mExtTelephonyService, req, sentinel, reply, ret, sent)
    {
      if !mServiceConnected {
        return Returned(sentinel), None;
      }
      match mExtTelephonyService
      case None =>
        ret, sent := Threw(NullHandle), None;
      case Some(h) =>
        sent := Some(Call(h, req));
        match reply
        case Value(v) => ret := Returned(v);
        case RemoteException => ret := Returned(sentinel);
    }

    /** Check the flag and forward, letting a RemoteException through. */
    method GuardedCallPropagating<T>(req: Request, sentinel: T, reply: Reply<T>)
      returns (ret: Outcome<T>, sent: Option<Call>)
      ensures PropagatesFaults(mServiceConnected, mExtTelephonyService, req, sentinel, reply, ret, sent)
    {
      if !mServiceConnected {
        return Returned(sentinel), None;
      }
      match mExtTelephonyService
      case None =>
        ret, sent := Threw(NullHandle), None;
      case Some(h) =>
        sent := Some(Call(h, req));
        match reply
        case Value(v) => ret := Returned(v);
        case RemoteException => ret := Threw(RemoteFault);
    }

    /** Forward without checking the flag, rethrowing a RemoteException. */
    method UnguardedCall<T>(req: Request, reply: Reply<T>)
      returns (ret: Outcome<T>, sent: Option<Call>)
      ensures RethrowsFaults(mExtTelephonyService, req, reply, ret, sent)
    {
      match mExtTelephonyService
      case None =>
        ret, sent := Threw(NullHandle), None;
      case Some(h) =>
        sent := Some(Call(h, req));
        match reply
        case Value(v) => ret := Returned(v);
        case RemoteException => ret := Threw(RemoteFault);
    }

    // -----------------------------------------------------------------
    // The operations

    method IsFeatureSupported(feature: int32, reply: Reply<bool>)
      returns (ret: Outcome<bool>, sent: Option<Call>)
      ensures SwallowsFaults(mServiceConnected, mExtTelephonyService,
                             Request.IsFeatureSupported(feature), false, reply, ret, sent)
    {
      ret, sent := GuardedCall(Request.IsFeatureSupported(feature), false, reply);
    }

    method GetPropertyValueInt(property: string, def: int32, reply: Reply<int32>)
      returns (ret: Outcome<int32>, sent: Option<Call>)
      ensures SwallowsFaults(mServiceConnected, mExtTelephonyService,
                             Request.GetPropertyValueInt(property, def), INVALID, reply, ret, sent)
    {
      ret, sent := GuardedCall(Request.GetPropertyValueInt(property, def), INVALID, reply);
    }

    method GetPropertyValueBool(property: string, def: bool, reply: Reply<bool>)
      returns (ret: Outcome<bool>, sent: Option<Call>)
      ensures SwallowsFaults(mServiceConnected, mExtTelephonyService,
                             Request.GetPropertyValueBool(property, def), def, reply, ret, sent)
    {
      ret, sent := GuardedCall(Request.GetPropertyValueBool(property, def), def, reply);
    }

    method GetPropertyValueString(property: string, def: string, reply: Reply<string>)
      returns (ret: Outcome<string>, sent: Option<Call>)
      ensures SwallowsFaults(mServiceConnected, mExtTelephonyService,
                             Request.GetPropertyValueString(property, def), def, reply, ret, sent)
    {
      ret, sent := GuardedCall(Request.GetPropertyValueString(property, def), def, reply);
    }

    method IsPrimaryCarrierSlotId(slotId: int32, reply: Reply<bool>)
      returns (ret: Outcome<bool>, sent: Option<Call>)
      ensures SwallowsFaults(mServiceConnected, mExtTelephonyService,
                             Request.IsPrimaryCarrierSlotId(slotId), false, reply, ret, sent)
    {
      ret, sent := GuardedCall(Request.IsPrimaryCarrierSlotId(slotId), false, reply);
    }

    method GetCurrentPrimaryCardSlotId(reply: Reply<int32>)
      returns (ret: Outcome<int32>, sent: Option<Call>)
      ensures SwallowsFaults(mServiceConnected, mExtTelephonyService,
                             Request.GetCurrentPrimaryCardSlotId, INVALID, reply, ret, sent)
    {
      ret, sent := GuardedCall(Request.GetCurrentPrimaryCardSlotId, INVALID, reply);
    }

    method GetPrimaryCarrierSlotId(reply: Reply<int32>)
      returns (ret: Outcome<int32>, sent: Option<Call>)
      ensures SwallowsFaults(mServiceConnected, mExtTelephonyService,
                             Request.GetPrimaryCarrierSlotId, INVALID, reply, ret, sent)
    {
      ret, sent := GuardedCall(Request.GetPrimaryCarrierSlotId, INVALID, reply);
    }

    method SetPrimaryCardOnSlot(slotId: int32, reply: Reply<()>)
      returns (ret: Outcome<()>, sent: Option<Call>)
      ensures SwallowsFaults(mServiceConnected, mExtTelephonyService,
                             Request.SetPrimaryCardOnSlot(slotId), (), reply, ret, sent)
    {
      ret, sent := GuardedCall(Request.SetPrimaryCardOnSlot(slotId), (), reply);
    }

    method PerformIncrementalScan(slotId: int32, reply: Reply<bool>)
      returns (ret: Outcome<bool>, sent: Option<Call>)
      ensures SwallowsFaults(mServiceConnected, mExtTelephonyService,
                             Request.PerformIncrementalScan(slotId), false, reply, ret, sent)
    {
      ret, sent := GuardedCall(Request.PerformIncrementalScan(slotId), false, reply);
    }

    method AbortIncrementalScan(slotId: int32, reply: Reply<bool>)
      returns (ret: Outcome<bool>, sent: Option<Call>)
      ensures SwallowsFaults(mServiceConnected, mExtTelephonyService,
                             Request.AbortIncrementalScan(slotId), false, reply, ret, sent)
    {
      ret, sent := GuardedCall(Request.AbortIncrementalScan(slotId), false, reply);
    }

    method IsSMSPromptEnabled(reply: Reply<bool>)
      returns (ret: Outcome<bool>, sent: Option<Call>)
      ensures SwallowsFaults(mServiceConnected, mExtTelephonyService,
                             Request.IsSmsPromptEnabled, false, reply, ret, sent)
    {
      ret, sent := GuardedCall(Request.IsSmsPromptEnabled, false, reply);
    }

    method SetSMSPromptEnabled(enabled: bool, reply: Reply<()>)
      returns (ret: Outcome<()>, sent: Option<Call>)
      ensures SwallowsFaults(mServiceConnected, mExtTelephonyService,
                             Request.SetSmsPromptEnabled(enabled), (), reply, ret, sent)
    {
      ret, sent := GuardedCall(Request.SetSmsPromptEnabled(enabled), (), reply);
    }

    method SupplyIccDepersonalization(netpin: string, persoType: string, callback: DepersoResCallback, phoneId: int32, reply: Reply<()>)
      returns (ret: Outcome<()>, sent: Option<Call>)
      ensures SwallowsFaults(mServiceConnected, mExtTelephonyService,
                             Request.SupplyIccDepersonalization(netpin, persoType, callback, phoneId), (), reply, ret, sent)
    {
      ret, sent := GuardedCall(Request.SupplyIccDepersonalization(netpin, persoType, callback, phoneId), (), reply);
    }

    method EnableEndc(slot: int32, enable: bool, client: Client, reply: Reply<Option<Token>>)
      returns (token: Outcome<Option<Token>>, sent: Option<Call>)
      ensures SwallowsFaults(mServiceConnected, mExtTelephonyService,
                             Request.EnableEndc(slot, enable, client), None, reply, token, sent)
    {
      token, sent := GuardedCall(Request.EnableEndc(slot, enable, client), None, reply);
    }

    method QueryNrIconType(slot: int32, client: Client, reply: Reply<Option<Token>>)
      returns (token: Outcome<Option<Token>>, sent: Option<Call>)
      ensures SwallowsFaults(mServiceConnected, mExtTelephonyService,
                             Request.QueryNrIconType(slot, client), None, reply, token, sent)
    {
      token, sent := GuardedCall(Request.QueryNrIconType(slot, client), None, reply);
    }

    method QueryEndcStatus(slot: int32, client: Client, reply: Reply<Option<Token>>)
      returns (token: Outcome<Option<Token>>, sent: Option<Call>)
      ensures SwallowsFaults(mServiceConnected, mExtTelephonyService,
                             Request.QueryEndcStatus(slot, client), None, reply, token, sent)
    {
      token, sent := GuardedCall(Request.QueryEndcStatus(slot, client), None, reply);
    }

    method SetNrConfig(slot: int32, config: NrConfig, client: Client, reply: Reply<Option<Token>>)
      returns (token: Outcome<Option<Token>>, sent: Option<Call>)
      ensures SwallowsFaults(mServiceConnected, mExtTelephonyService,
                             Request.SetNrConfig(slot, config, client), None, reply, token, sent)
    {
      token, sent := GuardedCall(Request.SetNrConfig(slot, config, client), None, reply);
    }

    method QueryNrConfig(slot: int32, client: Client, reply: Reply<Option<Token>>)
      returns (token: Outcome<Option<Token>>, sent: Option<Call>)
      ensures SwallowsFaults(mServiceConnected, mExtTelephonyService,
                             Request.QueryNrConfig(slot, client), None, reply, token, sent)
    {
      token, sent := GuardedCall(Request.QueryNrConfig(slot, client), None, reply);
    }

    method SendCdmaSms(slot: int32, pdu: seq<bv8>, expectMore: bool, client: Client, reply: Reply<Option<Token>>)
      returns (token: Outcome<Option<Token>>, sent: Option<Call>)
      ensures SwallowsFaults(mServiceConnected, mExtTelephonyService,
                             Request.SendCdmaSms(slot, pdu, expectMore, client), None, reply, token, sent)
    {
      token, sent := GuardedCall(Request.SendCdmaSms(slot, pdu, expectMore, client), None, reply);
    }

    method GetQtiRadioCapability(slotId: int32, client: Client, reply: Reply<Option<Token>>)
      returns (token: Outcome<Option<Token>>, sent: Option<Call>)
      ensures PropagatesFaults(mServiceConnected, mExtTelephonyService,
                               Request.GetQtiRadioCapability(slotId, client), None, reply, token, sent)
    {
      token, sent := GuardedCallPropagating(Request.GetQtiRadioCapability(slotId, client), None, reply);
    }

    method Enable5g(slot: int32, client: Client, reply: Reply<Option<Token>>)
      returns (token: Outcome<Option<Token>>, sent: Option<Call>)
      ensures SwallowsFaults(mServiceConnected, mExtTelephonyService,
                             Request.Enable5g(slot, client), None, reply, token, sent)
    {
      token, sent := GuardedCall(Request.Enable5g(slot, client), None, reply);
    }

    method Disable5g(slot: int32, client: Client, reply: Reply<Option<Token>>)
      returns (token: Outcome<Option<Token>>, sent: Option<Call>)
      ensures SwallowsFaults(mServiceConnected, mExtTelephonyService,
                             Request.Disable5g(slot, client), None, reply, token, sent)
    {
      token, sent := GuardedCall(Request.Disable5g(slot, client), None, reply);
    }

    method QueryNrBearerAllocation(slot: int32, client: Client, reply: Reply<Option<Token>>)
      returns (token: Outcome<Option<Token>>, sent: Option<Call>)
      ensures SwallowsFaults(mServiceConnected, mExtTelephonyService,
                             Request.QueryNrBearerAllocation(slot, client), None, reply, token, sent)
    {
      token, sent := GuardedCall(Request.QueryNrBearerAllocation(slot, client), None, reply);
    }

    method SetCarrierInfoForImsiEncryption(slot: int32, info: ImsiEncryptionInfo, client: Client, reply: Reply<Option<Token>>)
      returns (token: Outcome<Option<Token>>, sent: Option<Call>)
      ensures SwallowsFaults(mServiceConnected, mExtTelephonyService,
                             Request.SetCarrierInfoForImsiEncryption(slot, info, client), None, reply, token, sent)
    {
      token, sent := GuardedCall(Request.SetCarrierInfoForImsiEncryption(slot, info, client), None, reply);
    }

    method Enable5gOnly(slot: int32, client: Client, reply: Reply<Option<Token>>)
      returns (token: Outcome<Option<Token>>, sent: Option<Call>)
      ensures SwallowsFaults(mServiceConnected, mExtTelephonyService,
                             Request.Enable5gOnly(slot, client), None, reply, token, sent)
    {
      token, sent := GuardedCall(Request.Enable5gOnly(slot, client), None, reply);
    }

    method Query5gStatus(slot: int32, client: Client, reply: Reply<Option<Token>>)
      returns (token: Outcome<Option<Token>>, sent: Option<Call>)
      ensures SwallowsFaults(mServiceConnected, mExtTelephonyService,
                             Request.Query5gStatus(slot, client), None, reply, token, sent)
    {
      token, sent := GuardedCall(Request.Query5gStatus(slot, client), None, reply);
    }

    method QueryNrDcParam(slot: int32, client: Client, reply: Reply<Option<Token>>)
      returns (token: Outcome<Option<Token>>, sent: Option<Call>)
      ensures SwallowsFaults(mServiceConnected, mExtTelephonyService,
                             Request.QueryNrDcParam(slot, client), None, reply, token, sent)
    {
      token, sent := GuardedCall(Request.QueryNrDcParam(slot, client), None, reply);
    }

    method QueryNrSignalStrength(slot: int32, client: Client, reply: Reply<Option<Token>>)
      returns (token: Outcome<Option<Token>>, sent: Option<Call>)
      ensures SwallowsFaults(mServiceConnected, mExtTelephonyService,
                             Request.QueryNrSignalStrength(slot, client), None, reply, token, sent)
    {
      token, sent := GuardedCall(Request.QueryNrSignalStrength(slot, client), None, reply);
    }

    method QueryUpperLayerIndInfo(slot: int32, client: Client, reply: Reply<Option<Token>>)
      returns (token: Outcome<Option<Token>>, sent: Option<Call>)
      ensures SwallowsFaults(mServiceConnected, mExtTelephonyService,
                             Request.QueryUpperLayerIndInfo(slot, client), None, reply, token, sent)
    {
      token, sent := GuardedCall(Request.QueryUpperLayerIndInfo(slot, client), None, reply);
    }

    method Query5gConfigInfo(slot: int32, client: Client, reply: Reply<Option<Token>>)
      returns (token: Outcome<Option<Token>>, sent: Option<Call>)
      ensures SwallowsFaults(mServiceConnected, mExtTelephonyService,
                             Request.Query5gConfigInfo(slot, client), None, reply, token, sent)
    {
      token, sent := GuardedCall(Request.Query5gConfigInfo(slot, client), None, reply);
    }

    method QueryCallForwardStatus(slotId: int32, cfReason: int32, serviceClass: int32, number: string, expectMore: bool, client: Client, reply: Reply<()>)
      returns (ret: Outcome<()>, sent: Option<Call>)
      ensures RethrowsFaults(mExtTelephonyService, Request.QueryCallForwardStatus(slotId, cfReason, serviceClass, number, expectMore, client), reply, ret, sent)
    {
      ret, sent := UnguardedCall(Request.QueryCallForwardStatus(slotId, cfReason, serviceClass, number, expectMore, client), reply);
    }

    method GetFacilityLockForApp(slotId: int32, facility: string, password: string, serviceClass: int32, appId: string, expectMore: bool, client: Client, reply: Reply<()>)
      returns (ret: Outcome<()>, sent: Option<Call>)
      ensures RethrowsFaults(mExtTelephonyService, Request.GetFacilityLockForApp(slotId, facility, password, serviceClass, appId, expectMore, client), reply, ret, sent)
    {
      ret, sent := UnguardedCall(Request.GetFacilityLockForApp(slotId, facility, password, serviceClass, appId, expectMore, client), reply);
    }

    method IsSmartDdsSwitchFeatureAvailable(reply: Reply<bool>)
      returns (ret: Outcome<bool>, sent: Option<Call>)
      ensures RethrowsFaults(mExtTelephonyService, Request.IsSmartDdsSwitchFeatureAvailable, reply, ret, sent)
    {
      ret, sent := UnguardedCall(Request.IsSmartDdsSwitchFeatureAvailable, reply);
    }

    method SetSmartDdsSwitchToggle(isEnabled: bool, client: Client, reply: Reply<()>)
      returns (ret: Outcome<()>, sent: Option<Call>)
      ensures RethrowsFaults(mExtTelephonyService, Request.SetSmartDdsSwitchToggle(isEnabled, client), reply, ret, sent)
    {
      ret, sent := UnguardedCall(Request.SetSmartDdsSwitchToggle(isEnabled, client), reply);
    }

    method RegisterCallback(packageName: string, callback: ExtPhoneCallback, reply: Reply<Option<Client>>)
      returns (client: Outcome<Option<Client>>, sent: Option<Call>)
      ensures SwallowsFaults(mServiceConnected, mExtTelephonyService,
                             Request.RegisterCallback(packageName, callback), None, reply, client, sent)
    {
      client, sent := GuardedCall(Request.RegisterCallback(packageName, callback), None, reply);
    }

    method UnRegisterCallback(callback: ExtPhoneCallback, reply: Reply<()>)
      returns (ret: Outcome<()>, sent: Option<Call>)
      ensures SwallowsFaults(mServiceConnected, mExtTelephonyService,
                             Request.UnRegisterCallback(callback), (), reply, ret, sent)
    {
      ret, sent := GuardedCall(Request.UnRegisterCallback(callback), (), reply);
    }

  }
}
