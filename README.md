# ExtTelephonyManager connection lifecycle and guarded forwarding, in Dafny

ExtTelephonyManager is the client-side proxy through which an Android
application talks to the vendor's extended-telephony service (the IExtPhone
interface) in another process. This project models its two pieces of logic:

- **The connection lifecycle.** The manager keeps five fields: the connected
  flag `mServiceConnected`, the client count `mClientCount`, the binding object
  `mConnection`, the remote handle `mExtTelephonyService` and the single
  listener slot `mServiceCb`. `connectService` and `disconnectService` change
  them on the client's behalf. The transport's `onServiceConnected` and
  `onServiceDisconnected` signals change them on the platform's behalf.
- **The guard around every remote call.** An operation checks the flag,
  forwards the call to the remote handle, and either swallows a
  RemoteException into a per-operation sentinel, propagates it, or (for four
  operations that skip the flag check) rethrows it.

Layout:

- `remote.dfy` (module `Remote`): Java `int` as `int32`, nullable references
  as `Option`, opaque payloads (Token, Client, NrConfig, ...), the remote
  handle, one `Request` constructor per remote call, and the `Reply` oracle.
  A `Reply` is what the remote does with a call: it answers a value or raises
  a RemoteException.
- `forwarding.dfy` (module `Forwarding`): what the caller observes (`Outcome`:
  a return value or an escaping exception). It also holds the three forwarding
  contracts as predicates over the flag, the handle, the request, the
  sentinel, the reply, the result and the call actually sent.
- `lifecycle.dfy` (module `Lifecycle`): the lifecycle as a state machine over
  values (`Manager`, `Event`, `Step`, `Run`), with the transport's log of bind
  and unbind requests. It proves the invariant and the properties of runs.
- `manager.dfy` (module `ExtTelephony`): the classes `ExtTelephonyManager`,
  `Context`, `ServiceCallback` and `ExtTelephonyServiceConnection`. The manager
  has the source's fields. Each state-changing method is proved to take
  exactly one `Lifecycle.Step` and to keep `Lifecycle.Invariant`
  (`connectService` only while the count is below INT_MAX). Each
  operation is proved against its forwarding contract.
- `scenarios.dfy` (module `Scenarios`): what an operation returns after a
  given history of client calls and signals.

The oracles:

- The platform's answer to `bindService` is a `bool` parameter of
  `ConnectService`.
- The conversion of the bound binder (`IExtPhone.Stub.asInterface`) is the
  `Option<Handle>` parameter of `OnServiceConnected`.
- The remote's behaviour is the `reply` parameter of every operation.
- Every operation also returns `sent`, the call it delivered to the remote
  (or `None`). This makes "no remote call" a checked statement.

Behaviour of the code that the model keeps as written:

- `connectService` requests a new binding on every call, not only when the
  count goes from 0 to 1. It replaces `mConnection` without releasing the
  previous binding. After two attaches and two detaches, only the second
  binding is ever unbound (`Lifecycle.SecondAttachLeaksFirstBinding`). In
  general, a replaced connection is never unbound unless a later
  connectService passes it again (`Lifecycle.ReplacedConnectionNeverUnbound`).
- `disconnectService` never clears the flag or the handle. After the last
  client detaches, the flag stays set and calls still reach the old handle
  until the transport signals a disconnect
  (`Scenarios.LastDetachKeepsServiceReachable`).
- `getPropertyValueInt` returns INVALID (-1) when the flag is clear, not the
  caller's default.
- The connect signal sets the flag even when the binder does not convert to a
  handle. Guarded operations then dereference null and throw a
  NullPointerException. The four unguarded operations do the same whenever
  the handle is null, for instance before the first connect. The model calls
  this fault `NullHandle`.
- `mClientCount` is a Java `int`, and `+= 1` wraps at 2^31 - 1. The count is
  non-negative on every run in which no `connectService` finds the count at
  2^31 - 1, however many attach/detach cycles it has
  (`Lifecycle.CountNeverNegative`). At the bound it wraps to -2^31
  (`Lifecycle.CountWrapsAtIntMax`).

## Model

| member | source | states |
|---|---|---|
| Lifecycle.Inc32 | extphone/src/com/qti/extphone/ExtTelephonyManager.java:125 | `mClientCount += 1` on a Java int is two's-complement addition: the result is x + 1 reduced into [-2^31, 2^31) modulo 2^32 |
| Lifecycle.DetachEffect | extphone/src/com/qti/extphone/ExtTelephonyManager.java:140-147 | disconnectService decrements only a positive count, so it never makes a non-negative count negative; it unbinds and clears the binding exactly when the new count is at most zero and a binding was held, otherwise the binding and transport log are unchanged; flag, handle and listener are untouched |
| Lifecycle.StepKeepsInvariant | extphone/src/com/qti/extphone/ExtTelephonyManager.java:123-175 | each of the four transitions keeps the invariant (count >= 0, `mConnection` is non-null exactly while the count is positive and was bound, a handle only while the flag is set, every unbind follows a bind of the same connection), provided an attach does not overflow |
| Lifecycle.RunKeepsInvariant | extphone/src/com/qti/extphone/ExtTelephonyManager.java:123-147 | over any run in which no attach finds the count at INT_MAX (any number of attach/detach cycles), the invariant holds and the count equals the unbounded floored-at-zero reference count |
| Lifecycle.CountNeverNegative | extphone/src/com/qti/extphone/ExtTelephonyManager.java:142 | from a new manager, the count never goes negative and `mConnection` is non-null iff the count is positive, as long as no attach finds the count at INT_MAX |
| Lifecycle.CountWrapsAtIntMax | extphone/src/com/qti/extphone/ExtTelephonyManager.java:123-147 | at INT_MAX one more connectService wraps the count to INT_MIN; the next disconnectService leaves it there and releases the binding |
| Lifecycle.ClientCallsKeepStatus | extphone/src/com/qti/extphone/ExtTelephonyManager.java:123-147 | any sequence of connectService and disconnectService calls leaves the connected flag and the remote handle unchanged |
| Lifecycle.LastSignalDecides | extphone/src/com/qti/extphone/ExtTelephonyManager.java:155-175 | after a connect signal with handle h (or a disconnect signal), followed only by client calls, the flag is set and the handle is h (or the flag is clear and the handle null) |
| Lifecycle.LastAttachOwnsListener | extphone/src/com/qti/extphone/ExtTelephonyManager.java:124 | the listener slot holds the argument of the most recent connectService, whatever followed it (last writer wins) |
| Lifecycle.BindPerAttach | extphone/src/com/qti/extphone/ExtTelephonyManager.java:127-131 | every connectService adds exactly one bind request to the transport, whatever the count was |
| Lifecycle.SecondAttachLeaksFirstBinding | extphone/src/com/qti/extphone/ExtTelephonyManager.java:123-147 | attach, attach, detach, detach issues Bind(c1), Bind(c2), Unbind(c2): the first binding is never released |
| Lifecycle.ReplacedConnectionNeverUnbound | extphone/src/com/qti/extphone/ExtTelephonyManager.java:123-147 | over any run: a connection that is not the held one and that no later connectService passes again stays unheld and gains no unbind request, because disconnectService unbinds only `mConnection` (line 144) and connectService overwrites it (line 130) |
| Forwarding.SwallowedFaultIsIndistinguishable | extphone/src/com/qti/extphone/ExtTelephonyManager.java:184-198 | for a swallowing operation, a RemoteException, a remote answering the sentinel and a clear flag all return the sentinel; the first two send the call, the last does not |
| Forwarding.ShapesAgreeOnSuccess | extphone/src/com/qti/extphone/ExtTelephonyManager.java:521-719 | when the flag is set and the remote answers with a value, the swallowing (e.g. 531-544), propagating (521-529) and rethrowing (682-719) shapes send the same call and return the same value |
| ExtTelephony.ServiceCallback.OnConnected | extphone/src/com/qti/extphone/ExtTelephonyManager.java:164 | the listener receives one connected notification |
| ExtTelephony.ServiceCallback.OnDisconnected | extphone/src/com/qti/extphone/ExtTelephonyManager.java:173 | the listener receives one disconnected notification |
| ExtTelephony.Context.BindService | extphone/src/com/qti/extphone/ExtTelephonyManager.java:131 | records one bind request for the given connection and returns the platform's answer unchanged |
| ExtTelephony.Context.UnbindService | extphone/src/com/qti/extphone/ExtTelephonyManager.java:144 | records one unbind request for the given connection |
| ExtTelephony.ExtTelephonyManager.constructor | extphone/src/com/qti/extphone/ExtTelephonyManager.java:70-74 | the new manager is disconnected, with count 0, no binding, no handle and no listener (the lifecycle's initial state over its context), and satisfies the invariant |
| ExtTelephony.ExtTelephonyManager.IsServiceConnected | extphone/src/com/qti/extphone/ExtTelephonyManager.java:92-94 | returns the connected flag, which only the transport signals write |
| ExtTelephony.ExtTelephonyManager.ConnectService | extphone/src/com/qti/extphone/ExtTelephonyManager.java:123-134 | sets the listener to `cb`, takes one Attach step (count + 1 with Java wrap, a fresh connection object, one Bind request), returns the transport's answer unchanged, leaves flag and handle unchanged, and keeps the invariant below INT_MAX |
| ExtTelephony.ExtTelephonyManager.DisconnectService | extphone/src/com/qti/extphone/ExtTelephonyManager.java:140-147 | takes one Detach step: floored decrement; unbind and null the connection iff the new count <= 0 and a connection is held; flag and handle unchanged; keeps the invariant |
| ExtTelephony.ExtTelephonyManager.OnServiceConnected | extphone/src/com/qti/extphone/ExtTelephonyManager.java:155-166 | stores the converted handle (possibly null), sets the flag, and notifies a present listener exactly once with a connected notification; keeps the invariant |
| ExtTelephony.ExtTelephonyManager.OnServiceDisconnected | extphone/src/com/qti/extphone/ExtTelephonyManager.java:168-175 | clears the handle and the flag, and notifies a present listener exactly once with a disconnected notification; keeps the invariant |
| ExtTelephony.ExtTelephonyManager.GuardedCall | extphone/src/com/qti/extphone/ExtTelephonyManager.java:96-109 | the swallowing shape: flag clear gives the sentinel and no call; flag set gives one call to the live handle and its value, or the sentinel on a RemoteException; null handle gives a NullPointerException |
| ExtTelephony.ExtTelephonyManager.GuardedCallPropagating | extphone/src/com/qti/extphone/ExtTelephonyManager.java:521-529 | the propagating shape: as the swallowing one, except that a RemoteException reaches the caller |
| ExtTelephony.ExtTelephonyManager.UnguardedCall | extphone/src/com/qti/extphone/ExtTelephonyManager.java:682-690 | the rethrowing shape: the flag is not read; a null handle gives a NullPointerException, a live one gets the call and returns its value, and a RemoteException is rethrown as a fresh RemoteException |
| ExtTelephony.ExtTelephonyManager.IsFeatureSupported | extphone/src/com/qti/extphone/ExtTelephonyManager.java:96-109 | flag clear: returns false and sends nothing; flag set: sends its own request with the caller's arguments to the live handle and returns exactly the remote's answer, or false again on a RemoteException; flag set with a null handle: NullPointerException, nothing sent |
| ExtTelephony.ExtTelephonyManager.GetPropertyValueInt | extphone/src/com/qti/extphone/ExtTelephonyManager.java:184-198 | flag clear: returns INVALID (-1) (not the caller's `def`) and sends nothing; flag set: sends its own request with the caller's arguments to the live handle and returns exactly the remote's answer, or INVALID (-1) again on a RemoteException; flag set with a null handle: NullPointerException, nothing sent |
| ExtTelephony.ExtTelephonyManager.GetPropertyValueBool | extphone/src/com/qti/extphone/ExtTelephonyManager.java:206-220 | flag clear: returns the caller's `def` and sends nothing; flag set: sends its own request with the caller's arguments to the live handle and returns exactly the remote's answer, or the caller's `def` again on a RemoteException; flag set with a null handle: NullPointerException, nothing sent |
| ExtTelephony.ExtTelephonyManager.GetPropertyValueString | extphone/src/com/qti/extphone/ExtTelephonyManager.java:228-242 | flag clear: returns the caller's `def` and sends nothing; flag set: sends its own request with the caller's arguments to the live handle and returns exactly the remote's answer, or the caller's `def` again on a RemoteException; flag set with a null handle: NullPointerException, nothing sent |
| ExtTelephony.ExtTelephonyManager.IsPrimaryCarrierSlotId | extphone/src/com/qti/extphone/ExtTelephonyManager.java:249-262 | flag clear: returns false and sends nothing; flag set: sends its own request with the caller's arguments to the live handle and returns exactly the remote's answer, or false again on a RemoteException; flag set with a null handle: NullPointerException, nothing sent |
| ExtTelephony.ExtTelephonyManager.GetCurrentPrimaryCardSlotId | extphone/src/com/qti/extphone/ExtTelephonyManager.java:269-282 | flag clear: returns INVALID (-1) and sends nothing; flag set: sends its own request with the caller's arguments to the live handle and returns exactly the remote's answer, or INVALID (-1) again on a RemoteException; flag set with a null handle: NullPointerException, nothing sent |
| ExtTelephony.ExtTelephonyManager.GetPrimaryCarrierSlotId | extphone/src/com/qti/extphone/ExtTelephonyManager.java:289-302 | flag clear: returns INVALID (-1) and sends nothing; flag set: sends its own request with the caller's arguments to the live handle and returns exactly the remote's answer, or INVALID (-1) again on a RemoteException; flag set with a null handle: NullPointerException, nothing sent |
| ExtTelephony.ExtTelephonyManager.SetPrimaryCardOnSlot | extphone/src/com/qti/extphone/ExtTelephonyManager.java:309-320 | flag clear: returns no value (void) and sends nothing; flag set: sends its own request with the caller's arguments to the live handle and returns exactly the remote's answer, or no value (void) again on a RemoteException; flag set with a null handle: NullPointerException, nothing sent |
| ExtTelephony.ExtTelephonyManager.PerformIncrementalScan | extphone/src/com/qti/extphone/ExtTelephonyManager.java:329-342 | flag clear: returns false and sends nothing; flag set: sends its own request with the caller's arguments to the live handle and returns exactly the remote's answer, or false again on a RemoteException; flag set with a null handle: NullPointerException, nothing sent |
| ExtTelephony.ExtTelephonyManager.AbortIncrementalScan | extphone/src/com/qti/extphone/ExtTelephonyManager.java:351-364 | flag clear: returns false and sends nothing; flag set: sends its own request with the caller's arguments to the live handle and returns exactly the remote's answer, or false again on a RemoteException; flag set with a null handle: NullPointerException, nothing sent |
| ExtTelephony.ExtTelephonyManager.IsSMSPromptEnabled | extphone/src/com/qti/extphone/ExtTelephonyManager.java:373-386 | flag clear: returns false and sends nothing; flag set: sends its own request with the caller's arguments to the live handle and returns exactly the remote's answer, or false again on a RemoteException; flag set with a null handle: NullPointerException, nothing sent |
| ExtTelephony.ExtTelephonyManager.SetSMSPromptEnabled | extphone/src/com/qti/extphone/ExtTelephonyManager.java:395-406 | flag clear: returns no value (void) and sends nothing; flag set: sends its own request with the caller's arguments to the live handle and returns exactly the remote's answer, or no value (void) again on a RemoteException; flag set with a null handle: NullPointerException, nothing sent |
| ExtTelephony.ExtTelephonyManager.SupplyIccDepersonalization | extphone/src/com/qti/extphone/ExtTelephonyManager.java:416-429 | flag clear: returns no value (void) and sends nothing; flag set: sends its own request with the caller's arguments to the live handle and returns exactly the remote's answer, or no value (void) again on a RemoteException; flag set with a null handle: NullPointerException, nothing sent |
| ExtTelephony.ExtTelephonyManager.EnableEndc | extphone/src/com/qti/extphone/ExtTelephonyManager.java:431-444 | flag clear: returns a null Token and sends nothing; flag set: sends its own request with the caller's arguments to the live handle and returns exactly the remote's answer, or a null Token again on a RemoteException; flag set with a null handle: NullPointerException, nothing sent |
| ExtTelephony.ExtTelephonyManager.QueryNrIconType | extphone/src/com/qti/extphone/ExtTelephonyManager.java:446-459 | flag clear: returns a null Token and sends nothing; flag set: sends its own request with the caller's arguments to the live handle and returns exactly the remote's answer, or a null Token again on a RemoteException; flag set with a null handle: NullPointerException, nothing sent |
| ExtTelephony.ExtTelephonyManager.QueryEndcStatus | extphone/src/com/qti/extphone/ExtTelephonyManager.java:461-474 | flag clear: returns a null Token and sends nothing; flag set: sends its own request with the caller's arguments to the live handle and returns exactly the remote's answer, or a null Token again on a RemoteException; flag set with a null handle: NullPointerException, nothing sent |
| ExtTelephony.ExtTelephonyManager.SetNrConfig | extphone/src/com/qti/extphone/ExtTelephonyManager.java:476-489 | flag clear: returns a null Token and sends nothing; flag set: sends its own request with the caller's arguments to the live handle and returns exactly the remote's answer, or a null Token again on a RemoteException; flag set with a null handle: NullPointerException, nothing sent |
| ExtTelephony.ExtTelephonyManager.QueryNrConfig | extphone/src/com/qti/extphone/ExtTelephonyManager.java:491-504 | flag clear: returns a null Token and sends nothing; flag set: sends its own request with the caller's arguments to the live handle and returns exactly the remote's answer, or a null Token again on a RemoteException; flag set with a null handle: NullPointerException, nothing sent |
| ExtTelephony.ExtTelephonyManager.SendCdmaSms | extphone/src/com/qti/extphone/ExtTelephonyManager.java:506-519 | flag clear: returns a null Token and sends nothing; flag set: sends its own request with the caller's arguments to the live handle and returns exactly the remote's answer, or a null Token again on a RemoteException; flag set with a null handle: NullPointerException, nothing sent |
| ExtTelephony.ExtTelephonyManager.Enable5g | extphone/src/com/qti/extphone/ExtTelephonyManager.java:531-544 | flag clear: returns a null Token and sends nothing; flag set: sends its own request with the caller's arguments to the live handle and returns exactly the remote's answer, or a null Token again on a RemoteException; flag set with a null handle: NullPointerException, nothing sent |
| ExtTelephony.ExtTelephonyManager.Disable5g | extphone/src/com/qti/extphone/ExtTelephonyManager.java:546-559 | flag clear: returns a null Token and sends nothing; flag set: sends its own request with the caller's arguments to the live handle and returns exactly the remote's answer, or a null Token again on a RemoteException; flag set with a null handle: NullPointerException, nothing sent |
| ExtTelephony.ExtTelephonyManager.QueryNrBearerAllocation | extphone/src/com/qti/extphone/ExtTelephonyManager.java:561-574 | flag clear: returns a null Token and sends nothing; flag set: sends its own request with the caller's arguments to the live handle and returns exactly the remote's answer, or a null Token again on a RemoteException; flag set with a null handle: NullPointerException, nothing sent |
| ExtTelephony.ExtTelephonyManager.SetCarrierInfoForImsiEncryption | extphone/src/com/qti/extphone/ExtTelephonyManager.java:576-590 | flag clear: returns a null Token and sends nothing; flag set: sends its own request with the caller's arguments to the live handle and returns exactly the remote's answer, or a null Token again on a RemoteException; flag set with a null handle: NullPointerException, nothing sent |
| ExtTelephony.ExtTelephonyManager.Enable5gOnly | extphone/src/com/qti/extphone/ExtTelephonyManager.java:592-605 | flag clear: returns a null Token and sends nothing; flag set: sends its own request with the caller's arguments to the live handle and returns exactly the remote's answer, or a null Token again on a RemoteException; flag set with a null handle: NullPointerException, nothing sent |
| ExtTelephony.ExtTelephonyManager.Query5gStatus | extphone/src/com/qti/extphone/ExtTelephonyManager.java:607-620 | flag clear: returns a null Token and sends nothing; flag set: sends its own request with the caller's arguments to the live handle and returns exactly the remote's answer, or a null Token again on a RemoteException; flag set with a null handle: NullPointerException, nothing sent |
| ExtTelephony.ExtTelephonyManager.QueryNrDcParam | extphone/src/com/qti/extphone/ExtTelephonyManager.java:622-635 | flag clear: returns a null Token and sends nothing; flag set: sends its own request with the caller's arguments to the live handle and returns exactly the remote's answer, or a null Token again on a RemoteException; flag set with a null handle: NullPointerException, nothing sent |
| ExtTelephony.ExtTelephonyManager.QueryNrSignalStrength | extphone/src/com/qti/extphone/ExtTelephonyManager.java:637-650 | flag clear: returns a null Token and sends nothing; flag set: sends its own request with the caller's arguments to the live handle and returns exactly the remote's answer, or a null Token again on a RemoteException; flag set with a null handle: NullPointerException, nothing sent |
| ExtTelephony.ExtTelephonyManager.QueryUpperLayerIndInfo | extphone/src/com/qti/extphone/ExtTelephonyManager.java:652-665 | flag clear: returns a null Token and sends nothing; flag set: sends its own request with the caller's arguments to the live handle and returns exactly the remote's answer, or a null Token again on a RemoteException; flag set with a null handle: NullPointerException, nothing sent |
| ExtTelephony.ExtTelephonyManager.Query5gConfigInfo | extphone/src/com/qti/extphone/ExtTelephonyManager.java:667-680 | flag clear: returns a null Token and sends nothing; flag set: sends its own request with the caller's arguments to the live handle and returns exactly the remote's answer, or a null Token again on a RemoteException; flag set with a null handle: NullPointerException, nothing sent |
| ExtTelephony.ExtTelephonyManager.RegisterCallback | extphone/src/com/qti/extphone/ExtTelephonyManager.java:721-734 | flag clear: returns a null Client and sends nothing; flag set: sends its own request with the caller's arguments to the live handle and returns exactly the remote's answer, or a null Client again on a RemoteException; flag set with a null handle: NullPointerException, nothing sent |
| ExtTelephony.ExtTelephonyManager.UnRegisterCallback | extphone/src/com/qti/extphone/ExtTelephonyManager.java:736-747 | flag clear: returns no value (void) and sends nothing; flag set: sends its own request with the caller's arguments to the live handle and returns exactly the remote's answer, or no value (void) again on a RemoteException; flag set with a null handle: NullPointerException, nothing sent |
| ExtTelephony.ExtTelephonyManager.GetQtiRadioCapability | extphone/src/com/qti/extphone/ExtTelephonyManager.java:521-529 | flag clear: returns a null Token and sends nothing; flag set: sends its request to the live handle and returns the remote's Token, or lets the RemoteException reach the caller |
| ExtTelephony.ExtTelephonyManager.QueryCallForwardStatus | extphone/src/com/qti/extphone/ExtTelephonyManager.java:682-690 | ignores the flag: with a live handle sends its request and returns the remote's answer or rethrows a RemoteException; with a null handle fails with a NullPointerException and sends nothing |
| ExtTelephony.ExtTelephonyManager.GetFacilityLockForApp | extphone/src/com/qti/extphone/ExtTelephonyManager.java:692-701 | ignores the flag: with a live handle sends its request and returns the remote's answer or rethrows a RemoteException; with a null handle fails with a NullPointerException and sends nothing |
| ExtTelephony.ExtTelephonyManager.IsSmartDdsSwitchFeatureAvailable | extphone/src/com/qti/extphone/ExtTelephonyManager.java:704-710 | ignores the flag: with a live handle sends its request and returns the remote's answer or rethrows a RemoteException; with a null handle fails with a NullPointerException and sends nothing |
| ExtTelephony.ExtTelephonyManager.SetSmartDdsSwitchToggle | extphone/src/com/qti/extphone/ExtTelephonyManager.java:712-719 | ignores the flag: with a live handle sends its request and returns the remote's answer or rethrows a RemoteException; with a null handle fails with a NullPointerException and sends nothing |
| Scenarios.BeforeFirstSignal | extphone/src/com/qti/extphone/ExtTelephonyManager.java:96-109 | before any transport signal, whatever attaches happened, a guarded operation returns its sentinel without a call and an unguarded one fails with a NullPointerException |
| Scenarios.AfterDisconnectSignal | extphone/src/com/qti/extphone/ExtTelephonyManager.java:168-175 | after a disconnect signal and any client calls since, a guarded operation returns its sentinel without a call and an unguarded one fails with a NullPointerException |
| Scenarios.AfterConnectSignal | extphone/src/com/qti/extphone/ExtTelephonyManager.java:155-166 | after a connect signal with handle h and any client calls since, every shape sends the request with the caller's arguments to h and returns exactly the remote's value or token; a RemoteException becomes the sentinel, propagates, or is rethrown, by shape |
| Scenarios.AfterUnconvertedConnect | extphone/src/com/qti/extphone/ExtTelephonyManager.java:155-162 | a connect signal whose binder does not convert sets the flag anyway, and guarded operations then fail with a NullPointerException instead of returning the sentinel |
| Scenarios.LastDetachKeepsServiceReachable | extphone/src/com/qti/extphone/ExtTelephonyManager.java:140-147 | attach, connect signal, detach: the count is 0, the binding is released, but the flag stays set and a guarded operation still sends its call to the old handle |

## Left out

- Logging (`log`, `Log.e`, `printStackTrace`) is output only and is not modelled.
- The `synchronized` singleton `getInstance` and thread interleavings are left out. The model is one manager driven sequentially. The static `mContext` and `mClientCount` are fields of that one manager, and the count starts at 0 when it is constructed.
- Android binding internals (`Intent`, `ComponentName`, `BIND_AUTO_CREATE`, `IExtPhone.Stub.asInterface`) are left out. The transport's answer to a bind and the converted handle are parameters.
- The transport signals are methods of the manager, not of the connection object that receives them. The source's handlers write only the manager's fields and do not check which connection they belong to.
- The remote service's semantics (property values, 5G/ENDC/NR results, SMS, IMSI encryption) are not modelled. Its answers are the `reply` parameter, and payloads are opaque values compared by equality.
- The asynchronous callbacks of the remote (ExtPhoneCallbackBase only logs them) and Token/Client correlation are left out. The proxy keeps no bookkeeping for them: a token or client is returned exactly as the remote gave it.
- A RemoteException carries no payload. The model does not distinguish the remote's own exception (its subclass and message), which getQtiRadioCapability propagates, from the fresh fixed-message RemoteException that queryCallForwardStatus, getFacilityLockForApp, isSmartDdsSwitchFeatureAvailable and setSmartDdsSwitchToggle throw instead.
- A remote fault other than RemoteException (an unchecked exception raised by the remote) is not modelled.
- String arguments and results are never null Java strings. The `Client`, `NrConfig`, `ImsiEncryptionInfo`, `IDepersoResCallback` and `IExtPhoneCallback` arguments and the `byte[] pdu` are never null either. The proxy passes them through unchanged, so no forwarding behaviour depends on this.
- `ServiceCallback` is a recording stand-in for the application's listener: it only logs the notifications it receives. Application code run from `onConnected`/`onDisconnected` that calls back into the manager (`connectService`, `disconnectService`) or throws is not modelled. A re-entrant call appears only as a separate, later event, so `OnServiceConnected`/`OnServiceDisconnected` promise a single `Step` and an unchanged listener slot only for a listener that does neither.
- `mServiceConnectionStatusHandler` and `mServiceConnectionStatusId` are never used by the code and are not modelled.
