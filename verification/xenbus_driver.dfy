/**
 * The XENBUS bus driver's entry points: the routing of every IRP to the
 * PDO or FDO handler, the choice of the one "active" device at AddDevice
 * time from the (DeviceID, InstanceID) pair persisted under the Parameters
 * key, and the load and unload of the driver singleton.
 *
 * PdoDispatch, FdoDispatch, FdoCreate, XenTouch, the registry module and
 * the IRP_MN_QUERY_ID round trip are not part of this model: their results
 * are inputs.
 */
module XenbusDriver {
  import opened Nt

  // ---------------------------------------------------------------------
  // DriverDispatch
  // ---------------------------------------------------------------------

  /** DEVICE_OBJECT_TYPE, with every value other than the two roles folded into one. */
  datatype DeviceObjectType = PhysicalDeviceObject | FunctionDeviceObject | OtherDeviceObject

  /** The fields of XENBUS_DX that DriverDispatch reads; of the PnP state only whether it is Deleted. */
  datatype DeviceExtension = DeviceExtension(kind: DeviceObjectType, deleted: bool)

  /** Which handler an IRP reached. */
  datatype Handler = NoHandler | PdoHandler | FdoHandler

  /**
   * The outcome of DriverDispatch: the status it returns, the handler it
   * called, and whether it completed the IRP itself.
   */
  datatype DispatchResult = DispatchResult(status: NtStatus, handler: Handler, completedHere: bool)

  /** DriverDispatch, given the statuses PdoDispatch and FdoDispatch would return. */
  function Dispatch(dx: DeviceExtension, pdoStatus: NtStatus, fdoStatus: NtStatus): DispatchResult
  {
    if dx.deleted then DispatchResult(StatusNoSuchDevice, NoHandler, true)
    else match dx.kind
      case PhysicalDeviceObject => DispatchResult(pdoStatus, PdoHandler, false)
      case FunctionDeviceObject => DispatchResult(fdoStatus, FdoHandler, false)
      case OtherDeviceObject => DispatchResult(StatusNotSupported, NoHandler, false)
  }

  /**
   * A deleted device's IRPs are completed with STATUS_NO_SUCH_DEVICE and
   * reach no handler; otherwise a PDO's IRPs reach only PdoDispatch, an
   * FDO's only FdoDispatch, each handler's status is returned unchanged,
   * and any other type yields STATUS_NOT_SUPPORTED.
   */
  lemma DispatchRoutes(dx: DeviceExtension, pdoStatus: NtStatus, fdoStatus: NtStatus)
    ensures var r := Dispatch(dx, pdoStatus, fdoStatus);
            && (r.completedHere <==> dx.deleted)
            && (dx.deleted ==> r.status == StatusNoSuchDevice && r.handler == NoHandler)
            && (r.handler == PdoHandler <==> !dx.deleted && dx.kind == PhysicalDeviceObject)
            && (r.handler == FdoHandler <==> !dx.deleted && dx.kind == FunctionDeviceObject)
            && (r.handler == PdoHandler ==> r.status == pdoStatus)
            && (r.handler == FdoHandler ==> r.status == fdoStatus)
            && (r.handler == NoHandler && !dx.deleted ==> r.status == StatusNotSupported)
  {
  }

  // ---------------------------------------------------------------------
  // The active device
  // ---------------------------------------------------------------------

  /** towlower in the "C" locale: only A to Z are folded. */
  function Lower(c: char): (l: char)
    ensures 'A' <= c <= 'Z' ==> 'a' <= l <= 'z' && l as int == c as int + 32
    ensures !('A' <= c <= 'Z') ==> l == c
  {
    if 'A' <= c <= 'Z' then (c as int - 'A' as int + 'a' as int) as char else c
  }

  /** _wcsicmp(a, b) == 0. */
  predicate EqualsIgnoringCase(a: string, b: string)
  {
    |a| == |b| && forall i :: 0 <= i < |a| ==> Lower(a[i]) == Lower(b[i])
  }

  /** Case-insensitive equality is an equivalence that contains equality. */
  lemma EqualsIgnoringCaseIsEquivalence(a: string, b: string, c: string)
    ensures EqualsIgnoringCase(a, a)
    ensures EqualsIgnoringCase(a, b) ==> EqualsIgnoringCase(b, a)
    ensures EqualsIgnoringCase(a, b) && EqualsIgnoringCase(b, c) ==> EqualsIgnoringCase(a, c)
  {
  }

  /**
   * Strings that differ only in the case of some letters compare equal:
   * each position holds the same character, or an upper-case letter on one
   * side and its lower-case partner on the other.
   */
  lemma CaseVariantsAreEqual(a: string, b: string)
    requires |a| == |b|
    requires forall i :: 0 <= i < |a| ==>
               || a[i] == b[i]
               || ('A' <= a[i] <= 'Z' && b[i] as int == a[i] as int + 32)
               || ('A' <= b[i] <= 'Z' && a[i] as int == b[i] as int + 32)
    ensures EqualsIgnoringCase(a, b)
  {
  }

  /** A device id written in upper case matches the same id written in lower case. */
  lemma UpperAndLowerIdsMatch()
    ensures EqualsIgnoringCase("PCI\\VEN_5853&DEV_0002", "pci\\ven_5853&dev_0002")
  {
    CaseVariantsAreEqual("PCI\\VEN_5853&DEV_0002", "pci\\ven_5853&dev_0002");
  }

  /** Two strings that differ other than in the case of a letter are told apart. */
  lemma EqualsIgnoringCaseOnlyFoldsLetters(a: string, b: string, i: nat)
    requires |a| == |b| && i < |a| && a[i] != b[i]
    requires !('A' <= a[i] <= 'Z' || 'a' <= a[i] <= 'z') || !('A' <= b[i] <= 'Z' || 'a' <= b[i] <= 'z')
    ensures !EqualsIgnoringCase(a, b)
  {
    assert Lower(a[i]) != Lower(b[i]);
  }

  /** What RegistryQuerySzValue reports for one value: its text, or a failure status. */
  datatype SzQuery = Sz(value: string) | QueryFailed(status: FailureStatus)

  /** What DriverQueryId reports: the identifier, or a failure status. */
  datatype IdQuery = Id(id: string) | IdFailed(status: FailureStatus)

  /**
   * The decision DriverAddDevice takes once both identities are known: the
   * device is active exactly when its DeviceID and InstanceID both match
   * the persisted pair, ignoring case.
   */
  predicate IsActive(deviceId: string, instanceId: string, activeDeviceId: string, activeInstanceId: string)
  {
    EqualsIgnoringCase(deviceId, activeDeviceId) && EqualsIgnoringCase(instanceId, activeInstanceId)
  }

  /** What DriverAddDevice did: its status, whether FdoCreate ran and with which Active, and how many identity queries it issued. */
  datatype AddDeviceResult = AddDeviceResult(status: NtStatus, fdoCreated: bool, active: bool, queries: nat)

  /** DriverGetActiveDeviceInstance. */
  method GetActiveDeviceInstance(activeDeviceId: SzQuery, activeInstanceId: SzQuery)
    returns (status: NtStatus, deviceId: Option<string>, instanceId: Option<string>)
    ensures NtSuccess(status) <==>
              activeDeviceId == QueryFailed(StatusObjectNameNotFound)
              || (activeDeviceId.Sz? && activeInstanceId.Sz?)
    ensures NtSuccess(status) ==> status == StatusSuccess && (deviceId.Some? <==> instanceId.Some?)
    ensures activeDeviceId.QueryFailed? ==> deviceId.None? && instanceId.None?
    ensures activeDeviceId.QueryFailed? && activeDeviceId.status != StatusObjectNameNotFound ==>
              status == activeDeviceId.status
    ensures activeDeviceId.Sz? && activeInstanceId.QueryFailed? ==>
              status == activeInstanceId.status && deviceId.None? && instanceId.None?
    ensures activeDeviceId.Sz? && activeInstanceId.Sz? ==>
              deviceId == Some(activeDeviceId.value) && instanceId == Some(activeInstanceId.value)
  {
    deviceId, instanceId := None, None;
    if activeDeviceId.QueryFailed? {
      if activeDeviceId.status != StatusObjectNameNotFound {
        status := activeDeviceId.status;
        return;
      }
      status := StatusSuccess;   // the active device is not yet set
      return;
    }
    deviceId := Some(activeDeviceId.value);
    if activeInstanceId.QueryFailed? {
      deviceId := None;
      status := activeInstanceId.status;
      return;
    }
    instanceId := Some(activeInstanceId.value);
    status := StatusSuccess;
  }

  /**
   * DriverAddDevice: with no persisted selection the FDO is created
   * inactive without any identity query; otherwise both identities are
   * queried, a failing query aborts the attach before FdoCreate, and the
   * FDO is active exactly when both identities match.
   */
  method AddDevice(activeDeviceId: SzQuery, activeInstanceId: SzQuery,
                   deviceId: IdQuery, instanceId: IdQuery, fdoCreate: NtStatus)
    returns (r: AddDeviceResult)
    ensures r.fdoCreated ==> NtSuccess(r.status) == NtSuccess(fdoCreate)
    ensures NtSuccess(r.status) ==> r.status == StatusSuccess && r.fdoCreated
    ensures r.active ==> r.fdoCreated && r.queries == 2
    ensures activeDeviceId == QueryFailed(StatusObjectNameNotFound) ==>
              r.fdoCreated && !r.active && r.queries == 0 && r.status == (if NtSuccess(fdoCreate) then StatusSuccess else fdoCreate)
    ensures r.fdoCreated && !NtSuccess(fdoCreate) ==> r.status == fdoCreate
    ensures activeDeviceId.Sz? && activeInstanceId.Sz? ==>
              && (deviceId.IdFailed? ==> r.status == deviceId.status && r.queries == 1)
              && (deviceId.Id? ==> r.queries == 2)
              && (deviceId.Id? && instanceId.IdFailed? ==> r.status == instanceId.status)
    ensures activeDeviceId.Sz? && activeInstanceId.Sz? ==>
              (r.fdoCreated <==> deviceId.Id? && instanceId.Id?)
              && (r.active <==> deviceId.Id? && instanceId.Id?
                                && IsActive(deviceId.id, instanceId.id, activeDeviceId.value, activeInstanceId.value))
    ensures activeDeviceId.QueryFailed? && activeDeviceId.status != StatusObjectNameNotFound ==>
              !r.fdoCreated && r.status == activeDeviceId.status && r.queries == 0
    ensures activeDeviceId.Sz? && activeInstanceId.QueryFailed? ==>
              !r.fdoCreated && r.status == activeInstanceId.status && r.queries == 0
  {
    var active, queries := false, 0;
    var status, device, instance := GetActiveDeviceInstance(activeDeviceId, activeInstanceId);
    if !NtSuccess(status) {
      return AddDeviceResult(status, false, false, 0);
    }
    if device.Some? {
      queries := 1;
      if deviceId.IdFailed? {
        return AddDeviceResult(deviceId.status, false, false, queries);
      }
      queries := 2;
      if instanceId.IdFailed? {
        return AddDeviceResult(instanceId.status, false, false, queries);
      }
      active := IsActive(deviceId.id, instanceId.id, device.value, instance.value);
    }
    if !NtSuccess(fdoCreate) {
      return AddDeviceResult(fdoCreate, true, active, queries);
    }
    r := AddDeviceResult(StatusSuccess, true, active, queries);
  }

  /** The decision depends on the four strings only up to case: repeating it on case variants gives the same answer. */
  lemma IsActiveIgnoresCase(d: string, i: string, ad: string, ai: string, d': string, i': string)
    requires EqualsIgnoringCase(d, d') && EqualsIgnoringCase(i, i')
    ensures IsActive(d, i, ad, ai) <==> IsActive(d', i', ad, ai)
  {
    EqualsIgnoringCaseIsEquivalence(d', d, ad);
    EqualsIgnoringCaseIsEquivalence(d, d', ad);
    EqualsIgnoringCaseIsEquivalence(i', i, ai);
    EqualsIgnoringCaseIsEquivalence(i, i', ai);
  }

  // ---------------------------------------------------------------------
  // DriverEntry and DriverUnload
  // ---------------------------------------------------------------------

  /** IRP_MJ_MAXIMUM_FUNCTION + 1: the number of MajorFunction slots. */
  const MajorFunctionCount: nat := 0x1c

  /** What a MajorFunction slot points at. */
  datatype Routine = DefaultRoutine | DriverDispatchRoutine

  /** The parts of DRIVER_OBJECT the driver fills in. */
  class DriverObject {
    var driverUnload: bool
    var addDevice: bool
    const majorFunction: array<Routine>

    constructor ()
      ensures !driverUnload && !addDevice && fresh(majorFunction)
      ensures majorFunction.Length == MajorFunctionCount
      ensures forall i :: 0 <= i < MajorFunctionCount ==> majorFunction[i] == DefaultRoutine
    {
      driverUnload, addDevice := false, false;
      majorFunction := new Routine[MajorFunctionCount](_ => DefaultRoutine);
    }

    /** The loop at the end of DriverEntry: every major function, 0 to IRP_MJ_MAXIMUM_FUNCTION, goes to DriverDispatch. */
    method InstallDispatch()
      modifies majorFunction
      ensures forall i :: 0 <= i < majorFunction.Length ==> majorFunction[i] == DriverDispatchRoutine
    {
      var index := 0;
      while index < majorFunction.Length
        invariant index <= majorFunction.Length
        invariant forall i :: 0 <= i < index ==> majorFunction[i] == DriverDispatchRoutine
      {
        majorFunction[index] := DriverDispatchRoutine;
        index := index + 1;
      }
    }
  }

  /** What DriverEntry leaves behind. */
  datatype EntryResult = EntryResult(status: NtStatus, registryInitialized: bool, parametersKey: bool, installed: bool)

  /**
   * DriverEntry, given the statuses of XenTouch, RegistryInitialize,
   * RegistryOpenServiceKey and the opening of the Parameters subkey.
   */
  function Entry(safeBoot: bool, touch: NtStatus, registry: NtStatus, serviceKey: NtStatus, parameters: NtStatus): EntryResult
  {
    if safeBoot || !NtSuccess(touch) then EntryResult(StatusSuccess, false, false, false)
    else if !NtSuccess(registry) then EntryResult(registry, false, false, false)
    else if !NtSuccess(serviceKey) then EntryResult(serviceKey, false, false, false)
    else if !NtSuccess(parameters) then EntryResult(parameters, false, false, false)
    else EntryResult(StatusSuccess, true, true, true)
  }

  /**
   * DriverEntry fails only when a registry step fails, and then holds
   * nothing; in safe mode, or when XenTouch refuses this build, it succeeds
   * without installing AddDevice or the dispatch table; otherwise it
   * installs them and keeps the Parameters key open.
   */
  lemma EntryOutcomes(safeBoot: bool, touch: NtStatus, registry: NtStatus, serviceKey: NtStatus, parameters: NtStatus)
    ensures var e := Entry(safeBoot, touch, registry, serviceKey, parameters);
            && (NtSuccess(e.status) <==> safeBoot || !NtSuccess(touch)
                                         || (NtSuccess(registry) && NtSuccess(serviceKey) && NtSuccess(parameters)))
            && (NtSuccess(e.status) ==> e.status == StatusSuccess)
            && (e.installed <==> !safeBoot && NtSuccess(touch) && NtSuccess(registry)
                                 && NtSuccess(serviceKey) && NtSuccess(parameters))
            && (e.installed <==> e.parametersKey)
            && (e.registryInitialized <==> e.parametersKey)
            && (!NtSuccess(e.status) ==> !e.registryInitialized && !e.parametersKey)
  {
  }

  /** Whether DriverUnload as written closes the Parameters key and tears the registry down: whenever not in safe mode. */
  function UnloadTearsDownAsWritten(safeBoot: bool): bool
  {
    !safeBoot
  }

  /** Whether DriverUnload should tear down: exactly when DriverEntry set up the Parameters key. */
  function UnloadTearsDown(parametersKey: bool): bool
  {
    parametersKey
  }

  /**
   * As written, a DriverEntry that XenTouch refused loads successfully
   * without initialising the registry, yet the matching DriverUnload tears
   * the registry down and closes a Parameters key that was never opened.
   */
  lemma UnloadAsWrittenUnbalanced()
    ensures var e := Entry(false, StatusIncompatibleDriverBlocked, StatusSuccess, StatusSuccess, StatusSuccess);
            && NtSuccess(e.status) && !e.registryInitialized
            && UnloadTearsDownAsWritten(false)
  {
  }

  /** With the gate on the Parameters key, unload tears down exactly what a successful load set up. */
  lemma UnloadBalanced(safeBoot: bool, touch: NtStatus, registry: NtStatus, serviceKey: NtStatus, parameters: NtStatus)
    requires NtSuccess(Entry(safeBoot, touch, registry, serviceKey, parameters).status)
    ensures var e := Entry(safeBoot, touch, registry, serviceKey, parameters);
            UnloadTearsDown(e.parametersKey) <==> e.registryInitialized
    ensures var e := Entry(safeBoot, touch, registry, serviceKey, parameters);
            UnloadTearsDownAsWritten(safeBoot) && !UnloadTearsDown(e.parametersKey) <==> !safeBoot && !NtSuccess(touch)
  {
  }

  /**
   * XENBUS_DRIVER together with the state of the registry module it drives
   * and the boot mode (*InitSafeBootMode > 0), fixed for the life of the system.
   */
  class BusDriver {
    const safeBoot: bool
    var driverObject: DriverObject?
    var parametersKey: bool
    var registryInitialized: bool

    /** The Parameters key is open exactly while the registry is initialised, and never in safe mode. */
    ghost predicate Valid()
      reads this
    {
      (registryInitialized <==> parametersKey) && (safeBoot ==> !parametersKey)
    }

    /** IsZeroMemory(&Driver, sizeof (XENBUS_DRIVER)). */
    predicate IsZero()
      reads this
    {
      driverObject == null && !parametersKey
    }

    constructor (safeBoot: bool)
      ensures Valid() && IsZero() && this.safeBoot == safeBoot
    {
      this.safeBoot := safeBoot;
      driverObject, parametersKey, registryInitialized := null, false, false;
    }

    /** DriverEntry. */
    method DriverEntry(obj: DriverObject, touch: NtStatus, registry: NtStatus,
                       serviceKey: NtStatus, parameters: NtStatus)
      returns (status: NtStatus)
      requires Valid() && IsZero()
      requires obj.majorFunction.Length == MajorFunctionCount
      requires forall i :: 0 <= i < MajorFunctionCount ==> obj.majorFunction[i] == DefaultRoutine
      requires !obj.addDevice
      modifies this, obj, obj.majorFunction
      ensures Valid()
      ensures var e := Entry(safeBoot, touch, registry, serviceKey, parameters);
              && status == e.status
              && registryInitialized == e.registryInitialized
              && parametersKey == e.parametersKey
              && obj.addDevice == e.installed
              && (forall i :: 0 <= i < MajorFunctionCount ==>
                    obj.majorFunction[i] == if e.installed then DriverDispatchRoutine else DefaultRoutine)
              && (NtSuccess(status) ==> driverObject == obj && obj.driverUnload)
              && (!NtSuccess(status) ==> IsZero())
    {
      driverObject := obj;
      obj.driverUnload := true;
      if safeBoot || !NtSuccess(touch) {
        return StatusSuccess;
      }
      if !NtSuccess(registry) {
        driverObject := null;
        return registry;
      }
      if !NtSuccess(serviceKey) {
        driverObject := null;           // RegistryTeardown
        return serviceKey;
      }
      if !NtSuccess(parameters) {
        driverObject := null;           // RegistryCloseKey(ServiceKey), RegistryTeardown
        return parameters;
      }
      registryInitialized := true;
      parametersKey := true;            // the service key is closed again here
      obj.addDevice := true;
      obj.InstallDispatch();
      status := StatusSuccess;
    }

    /** DriverUnload, tearing down only what DriverEntry set up. */
    method DriverUnload(obj: DriverObject)
      requires Valid() && driverObject == obj
      modifies this
      ensures Valid() && IsZero() && !registryInitialized
    {
      if !safeBoot && UnloadTearsDown(parametersKey) {
        parametersKey := false;         // RegistryCloseKey(ParametersKey)
        registryInitialized := false;   // RegistryTeardown
      }
      driverObject := null;
    }
  }
}
