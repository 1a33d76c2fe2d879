/** Values exchanged with the remote extended-telephony service (the IExtPhone
    interface). The proxy never looks inside any of them: payloads are opaque
    and compared for equality only. */
module Remote {

  /** Java's 32-bit `int`. */
  newtype int32 = x: int | -0x8000_0000 <= x < 0x8000_0000

  const INT_MAX: int32 := 0x7fff_ffff
  const INT_MIN: int32 := -0x8000_0000

  /** A Java reference that may be null. */
  datatype Option<+T> = None | Some(value: T)

  /** Opaque Parcelable payloads and callback identities. */
  datatype Token = Token(id: int)
  datatype Client = Client(id: int)
  datatype NrConfig = NrConfig(id: int)
  datatype ImsiEncryptionInfo = ImsiEncryptionInfo(id: int)
  datatype ExtPhoneCallback = ExtPhoneCallback(id: int)
  datatype DepersoResCallback = DepersoResCallback(id: int)

  /** The live remote interface obtained when the binding comes up. */
  datatype Handle = Handle(id: int)

  /** One call of the remote interface, with the arguments it carries. */
  datatype Request =
    | IsFeatureSupported(feature: int32)
    | GetPropertyValueInt(property: string, intDefault: int32)
    | GetPropertyValueBool(property: string, boolDefault: bool)
    | GetPropertyValueString(property: string, stringDefault: string)
    | IsPrimaryCarrierSlotId(slotId: int32)
    | GetCurrentPrimaryCardSlotId
    | GetPrimaryCarrierSlotId
    | SetPrimaryCardOnSlot(slotId: int32)
    | PerformIncrementalScan(slotId: int32)
    | AbortIncrementalScan(slotId: int32)
    | IsSmsPromptEnabled
    | SetSmsPromptEnabled(enabled: bool)
    | SupplyIccDepersonalization(netpin: string, persoType: string,
                                 depersoCallback: DepersoResCallback, phoneId: int32)
    | EnableEndc(slot: int32, enable: bool, client: Client)
    | QueryNrIconType(slot: int32, client: Client)
    | QueryEndcStatus(slot: int32, client: Client)
    | SetNrConfig(slot: int32, config: NrConfig, client: Client)
    | QueryNrConfig(slot: int32, client: Client)
    | SendCdmaSms(slot: int32, pdu: seq<bv8>, expectMore: bool, client: Client)
    | GetQtiRadioCapability(slotId: int32, client: Client)
    | Enable5g(slot: int32, client: Client)
    | Disable5g(slot: int32, client: Client)
    | QueryNrBearerAllocation(slot: int32, client: Client)
    | SetCarrierInfoForImsiEncryption(slot: int32, info: ImsiEncryptionInfo, client: Client)
    | Enable5gOnly(slot: int32, client: Client)
    | Query5gStatus(slot: int32, client: Client)
    | QueryNrDcParam(slot: int32, client: Client)
    | QueryNrSignalStrength(slot: int32, client: Client)
    | QueryUpperLayerIndInfo(slot: int32, client: Client)
    | Query5gConfigInfo(slot: int32, client: Client)
    | QueryCallForwardStatus(slotId: int32, cfReason: int32, serviceClass: int32,
                             number: string, expectMore: bool, client: Client)
    | GetFacilityLockForApp(slotId: int32, facility: string, password: string,
                            serviceClass: int32, appId: string, expectMore: bool, client: Client)
    | IsSmartDdsSwitchFeatureAvailable
    | SetSmartDdsSwitchToggle(isEnabled: bool, client: Client)
    | RegisterCallback(packageName: string, callback: ExtPhoneCallback)
    | UnRegisterCallback(callback: ExtPhoneCallback)

  /** A request delivered to a particular remote handle. */
  datatype Call = Call(target: Handle, request: Request)

  /** What the remote side does with a call: answer with a value, or fail
      at the IPC boundary with a RemoteException. This is the oracle every
      forwarding operation is parameterised by. */
  datatype Reply<T> = Value(value: T) | RemoteException
}
