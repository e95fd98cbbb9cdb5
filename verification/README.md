# XEN PV bus drivers: entry points, system context and co-installer

This project models, in Dafny, the core of the Windows PV bus driver package
for Xen: four C sources from three binaries.

- **XEN** (`xen_driver.dfy`, `xen_system.dfy`, `madt.dfy`) is the export
  driver. Its source files are `src/xen/driver.c` and `src/xen/system.c`.
  - `XenTouch` is the version gate every dependent driver calls.
  - `DllInitialize` and `DllUnload` bring the driver's subsystems up in a
    fixed order and take them down again.
  - The system context is reference counted. It holds the ACPI MADT
    (Multiple APIC Description Table, section 5.2.12 of the ACPI
    specification) and a table of processors. The processor-change callback
    grows that table on a hot-add start notification. On the matching
    completion it fills the processor's slot from CPUID and from a walk over
    the MADT.
- **XENBUS** (`xenbus_driver.dfy`) is the bus driver.
  - `DriverEntry` and `DriverUnload` load and unload it.
  - `DriverDispatch` routes every IRP to the PDO or FDO handler.
  - `DriverAddDevice` marks a device "active" when its DeviceID and
    InstanceID match, ignoring case, the pair persisted under the
    Parameters key.
- **The co-installer** (`coinst.dfy`) is what SetupAPI calls around
  installing and removing the bus device.
  - Before installation it refuses two situations. One is a legacy platform
    PCI device bound to a driver other than this product's PV bus driver. The
    other is an existing XENBUS child whose driver's MatchingDeviceId revision
    is missing from the revision table.
  - After installation it requests a reboot when the XEN or XENBUS service
    has set NeedReboot.

The model takes the form of the code it describes.
- **Classes for the state the C code mutates:**
  - `XenDriver.Driver`: the XEN_DRIVER singleton, with its stack of acquired
    stages.
  - `XenSystem.SystemContext`: SYSTEM_CONTEXT, with the processor table as an
    `array`.
  - `XenbusDriver.BusDriver`: XENBUS_DRIVER.
  - `XenbusDriver.DriverObject`: the MajorFunction array.
- **Methods with loops where the source loops.** Each is proved against a
  specification function:
  - the MADT walk;
  - the GetErrorMessage truncation;
  - the revision-table search;
  - the in-place upper-casing;
  - the subkey enumerations;
  - the child-driver walk;
  - the failure-label unwinding.
- **Pure functions and lemmas for the decisions.**

Kernel, hardware and registry services are inputs to the model:
- the statuses of the subsystem initialisers;
- AcpiGetTable, pool allocation and the CPUID registers;
- the registry as a value;
- the product name and revision table, which are build-time constants.

## Model

| member | source | states |
|---|---|---|
| XenDriver.TouchAllCounts | src/xen/driver.c:127-171 | Over any series of XenTouch calls: the static counter counts exactly the compatible callers; the hypervisor version is queried at most once, by the first caller when the counter started at zero; every incompatible caller fails; a reboot is requested exactly when some caller was incompatible |
| XenDriver.Driver.RequestReboot | src/xen/driver.c:112-123 | NeedReboot becomes set if the Status key is open, and is otherwise unchanged |
| XenDriver.Driver.XenTouch | src/xen/driver.c:127-171 | A caller whose version differs is refused with STATUS_INCOMPATIBLE_DRIVER_BLOCKED, requests a reboot and leaves the counter alone. A matching caller succeeds and increments the 32-bit counter; only the first queries the hypervisor |
| XenDriver.FirstFailure | src/xen/driver.c:206-287 | The index of the first stage whose initialiser fails is at least the starting index, and that stage does fail; the two log dispositions never fail |
| XenDriver.InitSucceedsIff | src/xen/driver.c:206-294 | DllInitialize succeeds iff every initialiser succeeds. It then has called them all in order, closed only the service key, and holds every other stage |
| XenDriver.InitFails | src/xen/driver.c:296-364 | A failed DllInitialize stopped at the first failing stage k and returns its status. It tore down exactly the stages before k, last first, and holds nothing |
| XenDriver.FailedInitUndoesEverything | src/xen/driver.c:206-364 | On failure the call log is the initialisations followed by their mirror image of teardowns |
| XenDriver.Driver.Unwind | src/xen/driver.c:296-364 | The failure labels tear down every acquired stage, most recent first, and leave the stack empty |
| XenDriver.Driver.Step | src/xen/driver.c:206-287 | One stage: on success it joins the stack; on failure everything acquired is unwound and the stage's status is returned |
| XenDriver.Driver.DllInitialize | src/xen/driver.c:189-365 | In safe mode nothing happens and the result is success. Otherwise the status, the call log and the held stages are exactly those of the goto chain for the given initialiser outcomes |
| XenDriver.UnloadAsWrittenMissesAcpi | src/xen/driver.c:380-419 | The teardown sequence as written omits exactly one running stage: ACPI |
| XenDriver.InitThenUnloadAsWrittenLeavesAcpi | src/xen/driver.c:380-419 | After a successful DllInitialize, DllUnload as written leaves the ACPI stage, and only it, initialised |
| XenDriver.UnloadOrderReversesInit | src/xen/driver.c:368-427 | The corrected teardown order is the exact reverse of the stages a successful DllInitialize holds |
| XenDriver.InitThenUnloadReleasesAll | src/xen/driver.c:368-427 | After a successful DllInitialize, the corrected DllUnload leaves nothing initialised |
| XenDriver.Driver.DllUnload | src/xen/driver.c:368-427 | Always returns STATUS_SUCCESS. In safe mode it changes nothing; otherwise it tears down every stage in the corrected order |
| Madt.Vendor | src/xen/system.c:366-370 | The 12 manufacturer bytes read back as EBX, EDX, ECX of CPUID leaf 0, little-endian |
| Madt.ApicIdOf | src/xen/system.c:372-374 | The APIC id is bits 31..24 of EBX of CPUID leaf 1 |
| Madt.LookupFromEncoded | src/xen/system.c:310-327 | Walking a run of encoded interrupt-controller records finds the first local APIC record with the requested APIC id |
| Madt.LookupTable | src/xen/system.c:302-328 | On a well-formed table, the walk returns the ProcessorID of the first local APIC record whose ApicID matches. It reports no match (the bug-check) exactly when there is none |
| Madt.FoundIsMatch | src/xen/system.c:310-327 | A found processor id comes from an in-bounds local APIC record carrying the requested APIC id |
| Madt.LookupFromChecked | src/xen/system.c:310-327 | Corrected walk: it always ends, so it is never Stuck |
| Madt.LookupChecked | src/xen/system.c:302-328 | Corrected walk over a whole table: never Stuck |
| Madt.LookupFromCheckedAgrees | src/xen/system.c:310-327 | From any offset, the corrected walk gives the as-written walk's verdict wherever that walk ends, and NotFound where it spins |
| Madt.LookupCheckedAgrees | src/xen/system.c:302-328 | The same agreement over a whole table |
| Madt.ZeroLengthRecordSpins | src/xen/system.c:311-316 | As written, a table whose only record is a zero-length I/O APIC record is Stuck for every APIC id; the corrected walk reports NotFound |
| Madt.LookupCheckedTable | src/xen/system.c:302-328 | On a well-formed table the corrected walk, too, returns the first local APIC record whose ApicID matches, or no match exactly when there is none |
| XenSystem.ProcessorInformation | src/xen/system.c:339-384 | The slot written holds the CPUID vendor and APIC id. When the corrected MADT walk (Findings row 3) finds a record, the slot's processor id is that record's |
| XenSystem.SystemContext.ApicIdToProcessorId | src/xen/system.c:302-328 | The loop over record offsets returns exactly the corrected walk's verdict: a zero-length record ends it as a missing record (Findings row 3) |
| XenSystem.SystemContext.ProcessorAddStart | src/xen/system.c:413-440 | A known index changes nothing. A new index grows the table to index + 1 entries: the old entries stay in place and the new ones are zero. A failed allocation sets STATUS_NO_MEMORY and changes nothing |
| XenSystem.SystemContext.ProcessorAddComplete | src/xen/system.c:441-462 | Only slot index is written: vendor, APIC id and processor id, or a bug-check when the MADT has no matching record |
| XenSystem.SystemContext.DeregisterProcessorChange | src/xen/system.c:503-515 | The callback is gone, the table is freed and the count is zero |
| XenSystem.AcpiInformationAsWritten | src/xen/system.c:262-296 | As written: success iff (probe overflowed, allocation worked, read succeeded) or the probe itself succeeded; the buffer stays allocated whenever it was allocated |
| XenSystem.AcpiInformationAsWrittenBreaks | src/xen/system.c:270-295 | As written, a failed read fails with the MADT buffer still allocated, and a succeeding probe returns success with no table |
| XenSystem.AcpiInformationOf | src/xen/system.c:262-296 | Corrected: success iff the probe overflowed, the allocation worked and the read succeeded; the buffer is held exactly on success |
| XenSystem.AcpiInformationAgrees | src/xen/system.c:262-296 | The corrected version equals the code as written on every input where the latter leaks nothing and succeeds only with a table |
| XenSystem.SystemContext.GetAcpiInformation | src/xen/system.c:262-296 | Returns the corrected status and keeps the table exactly when it succeeds |
| XenSystem.ProcessorChangeStatus | src/xen/system.c:475-500 | Registration succeeds iff a handle comes back; otherwise STATUS_UNSUCCESSFUL |
| XenSystem.RegisterCallbackStatus | src/xen/system.c:564-613 | Succeeds iff ExCreateCallback succeeds and a handle comes back. A failing ExCreateCallback status is returned unchanged; a missing handle is STATUS_UNSUCCESSFUL |
| XenSystem.FirstFailingStatus | src/xen/system.c:684-708 | Success iff every step succeeds, and then STATUS_SUCCESS. Otherwise the status of a failing step all of whose predecessors succeeded |
| XenSystem.FirstFailingStatusAt | src/xen/system.c:684-708 | A failing step preceded only by successes decides the status |
| XenSystem.InitStatusIsFirstFailure | src/xen/system.c:684-738 | SystemInitialize's status is that of its first failing step, in the order start options, version, memory, ACPI, processor-change callback, power-state callback |
| XenSystem.SystemContext.Initialize | src/xen/system.c:670-739 | Only the call that takes References from 0 to 1 proceeds; others get STATUS_OBJECTID_EXISTS. The first call returns the status of its first failing step, including each callback registration's own status. Success iff every step succeeds, leaving one reference, the MADT and both callbacks. A failure restores the reference count and the callbacks. It also restores the MADT, but only because the corrected ACPI step frees the buffer on a failed read (Findings row 2); as written, that buffer stays allocated |
| XenSystem.SystemContext.VirtualCpuIndex | src/xen/system.c:743-753 | Returns the ACPI processor id recorded for the processor |
| XenSystem.SystemContext.Teardown | src/xen/system.c:756-772 | After the one successful initialisation, the context is all zero again |
| XenbusDriver.DispatchRoutes | src/xenbus/driver.c:446-486 | A deleted device's IRPs are completed here with STATUS_NO_SUCH_DEVICE. A PDO's IRPs reach only PdoDispatch and an FDO's only FdoDispatch, whose status is returned unchanged. Any other type gets STATUS_NOT_SUPPORTED |
| XenbusDriver.Lower | src/xenbus/driver.c:401-403 | Maps each letter A to Z to its lower-case partner (code + 32) and leaves every other character as it is |
| XenbusDriver.CaseVariantsAreEqual | src/xenbus/driver.c:401-403 | Strings that differ only by upper-case letters against their lower-case partners compare equal |
| XenbusDriver.UpperAndLowerIdsMatch | src/xenbus/driver.c:401-403 | An upper-case device id matches the same id in lower case |
| XenbusDriver.EqualsIgnoringCaseIsEquivalence | src/xenbus/driver.c:401-403 | The case-insensitive comparison is reflexive, symmetric and transitive |
| XenbusDriver.EqualsIgnoringCaseOnlyFoldsLetters | src/xenbus/driver.c:401-403 | Strings differing in any character that is not a letter compare unequal |
| XenbusDriver.IsActiveIgnoresCase | src/xenbus/driver.c:401-403 | The active decision is the same for any case variant of the queried ids |
| XenbusDriver.GetActiveDeviceInstance | src/xenbus/driver.c:264-356 | Success iff ActiveDeviceID is absent, or both values are present. Then both ids or neither are returned; otherwise the failing query's status is returned, with nothing |
| XenbusDriver.AddDevice | src/xenbus/driver.c:362-441 | With no persisted selection, the FDO is created inactive with no query. Otherwise a failing DeviceID query returns its status after one query. A failing InstanceID query returns its status after two. Either failure stops before FdoCreate. The FDO is active exactly when both ids match ignoring case. Once the FDO is attempted, a FdoCreate failure is returned as it is, and success is STATUS_SUCCESS |
| XenbusDriver.DriverObject.InstallDispatch | src/xenbus/driver.c:550-553 | Every MajorFunction slot, 0 to IRP_MJ_MAXIMUM_FUNCTION, is set to DriverDispatch |
| XenbusDriver.EntryOutcomes | src/xenbus/driver.c:491-579 | DriverEntry fails only when a registry step fails, and then holds nothing. In safe mode or after a refused XenTouch it succeeds without AddDevice or dispatch. Otherwise it installs both and keeps the Parameters key |
| XenbusDriver.BusDriver.DriverEntry | src/xenbus/driver.c:491-579 | Status, registry state, Parameters key, AddDevice and every MajorFunction slot are as EntryOutcomes describes; a failure leaves the singleton zero |
| XenbusDriver.UnloadAsWrittenUnbalanced | src/xenbus/driver.c:124-159 | As written, DriverUnload tears the registry down after a DriverEntry whose XenTouch refused, which never set it up |
| XenbusDriver.UnloadBalanced | src/xenbus/driver.c:124-159 | Gated on the Parameters key, unload tears down exactly what a successful load set up; it differs from the code as written exactly after a refused XenTouch |
| XenbusDriver.BusDriver.DriverUnload | src/xenbus/driver.c:124-159 | Leaves the singleton zero and the registry torn down, with the Parameters key open exactly while the registry is initialised |
| CoInstaller.OpenKey | src/coinst/coinst.c:188-217 | An opened key is the requested path and exists |
| CoInstaller.StopIndex | src/coinst/coinst.c:122-127 | The index of the first NUL, CR or LF; none comes before it |
| CoInstaller.FirstLine | src/coinst/coinst.c:104-130 | The longest prefix without CR or LF |
| CoInstaller.TruncateMessage | src/coinst/coinst.c:122-127 | The message buffer with its first CR or LF before the NUL overwritten by NUL, and nothing else changed |
| CoInstaller.TruncatedMessageIsFirstLine | src/coinst/coinst.c:104-130 | The truncated message reads as the first line of the original |
| CoInstaller.AfterLastAmpersand | src/coinst/coinst.c:852-854 | The suffix after the last '&', which holds no '&' |
| CoInstaller.AfterLastAmpersandOf | src/coinst/coinst.c:852-854 | For an id ending in '&' then text without '&', the suffix is that text |
| CoInstaller.HexRun | src/coinst/coinst.c:856-858 | The %8x scan consumes the leading hex digits, at most eight, and stops before a non-digit |
| CoInstaller.HexValue | src/coinst/coinst.c:856-858 | The number n hex digits denote is below 16^n |
| CoInstaller.ParseRevision | src/coinst/coinst.c:856-862 | The scan yields a revision iff the text is REV_ followed by a hex digit |
| CoInstaller.ParseFormattedRevision | src/coinst/coinst.c:856-862 | Scanning REV_ and 1 to 8 hex digits gives back the revision. This holds whatever follows, unless a shorter run is followed by another hex digit |
| CoInstaller.DeviceIdVerdictOutcomes | src/coinst/coinst.c:842-892 | Aborted iff the id has no '&' (the assertion at line 853). Otherwise: Passed iff the suffix scans as a listed revision; ERROR_BAD_FORMAT iff it does not scan; ERROR_FILE_NOT_FOUND iff the revision is unlisted |
| CoInstaller.FormattedDeviceIdVerdict | src/coinst/coinst.c:842-892 | An id ending in &REV_xx passes exactly when xx is in the table |
| CoInstaller.SupportDeviceID | src/coinst/coinst.c:842-892 | The assertion check and the table search loop return that verdict |
| CoInstaller.UpperProperties | src/coinst/coinst.c:945-946 | Upper-casing keeps the length and leaves no lower-case letter. It changes nothing else, is idempotent, distributes over concatenation and preserves '&' |
| CoInstaller.MatchingDeviceIdOutcomes | src/coinst/coinst.c:894-975 | A missing value gives ERROR_FILE_NOT_FOUND; another type gives ERROR_BAD_FORMAT; a REG_SZ comes back upper-cased |
| CoInstaller.GetMatchingDeviceID | src/coinst/coinst.c:894-975 | The in-place toupper loop over the value's buffer produces that result |
| CoInstaller.FirstWithPrefix | src/coinst/coinst.c:309-328 | None iff no subkey starts with the prefix; otherwise the first that does, in enumeration order |
| CoInstaller.GetDeviceKeyName | src/coinst/coinst.c:266-366 | An unopenable bus key gives its error. Otherwise the enumeration loop returns the first subkey starting with the prefix, or none |
| CoInstaller.FirstDriver | src/coinst/coinst.c:460-527 | None iff no instance both opens and holds a REG_SZ Driver value; otherwise the first that does |
| CoInstaller.GetDriverKeyName | src/coinst/coinst.c:419-568 | The enumeration loop skips unopenable instances and those without a REG_SZ Driver, and returns the first driver name found |
| CoInstaller.PvBusDescriptionIff | src/coinst/coinst.c:749-762 | The strncmp and strcmp together accept exactly the product name followed by " PV Bus" |
| CoInstaller.DescriptionVerdictOutcomes | src/coinst/coinst.c:730-762 | A missing DriverDesc passes. A present one passes iff it is exactly REG_SZ "<product> PV Bus"; another type gives ERROR_BAD_FORMAT and other text ERROR_INSTALL_FAILURE |
| CoInstaller.NoPlatformDevicePasses | src/coinst/coinst.c:669-688 | With neither platform device on the PCI bus the check passes |
| CoInstaller.XenPlatformDeviceFirst | src/coinst/coinst.c:669-688 | A DEV_0001 device is examined in preference to any DEV_0002 device, whatever the enumeration order |
| CoInstaller.UnreadableDriverPasses | src/coinst/coinst.c:700-738 | A bound driver whose key cannot be opened, or has no DriverDesc, passes |
| CoInstaller.MatchExistingDriver | src/coinst/coinst.c:649-831 | The method's verdict is ExistingDriverVerdict: the platform device search, its bound driver and the description check, with each failing step's error |
| CoInstaller.FirstNotPassed | src/coinst/coinst.c:1029-1077 | Passed iff every verdict is a pass; otherwise the first verdict that is not |
| CoInstaller.FirstNotPassedAt | src/coinst/coinst.c:1029-1077 | A verdict that is not a pass, preceded only by passes, is the result |
| CoInstaller.ChildrenVerdict | src/coinst/coinst.c:1029-1077 | Passed iff every child passes; otherwise the verdict (failure or abort) of the first child in enumeration order that does not pass |
| CoInstaller.FreshInstallPasses | src/coinst/coinst.c:997-1003 | Without a XENBUS enumeration key the check passes |
| CoInstaller.ChildRevisionVerdict | src/coinst/coinst.c:1046-1067 | A child whose driver's MatchingDeviceId ends in &REV_xx passes iff xx is listed, and otherwise fails with ERROR_FILE_NOT_FOUND |
| CoInstaller.ChildWithoutAmpersandAborts | src/coinst/coinst.c:1046-1067 | A child whose driver's MatchingDeviceId has no '&' (as ROOT\MSSMBIOS) stops the co-installer at SupportDeviceID's assertion |
| CoInstaller.UpperFormattedId | src/coinst/coinst.c:945-946 | Upper-casing an id that ends in a formatted revision leaves the revision intact |
| CoInstaller.CheckChild | src/coinst/coinst.c:1046-1076 | The loop body for child index returns that child's verdict; a child with no bound driver is skipped |
| CoInstaller.CheckChildren | src/coinst/coinst.c:1029-1077 | The loop returns the first child verdict that is not a pass, or Passed |
| CoInstaller.SupportChildDrivers | src/coinst/coinst.c:977-1136 | Returns ChildDriversVerdict: a fresh installation passes, another failure to open XENBUS fails with its error, and otherwise the first child that fails or aborts ends the walk |
| CoInstaller.CheckStatusOutcomes | src/coinst/coinst.c:1138-1219 | A reboot is needed iff NeedReboot is a non-zero REG_DWORD, and a missing or zero value needs none. Another type gives ERROR_BAD_FORMAT if it fits four bytes, else ERROR_MORE_DATA |
| CoInstaller.DifInstallPostProcess | src/coinst/coinst.c:1310-1335 | A reboot is requested iff XEN's or XENBUS's check says so. XENBUS is consulted only when XEN did not ask, and a failed check counts as no request |
| CoInstaller.PreProcessError | src/coinst/coinst.c:1265-1308 | No reply at all exactly when the existing driver check passes and the child driver check stops at the assertion |
| CoInstaller.DifInstallPreProcess | src/coinst/coinst.c:1265-1308 | The first failing check's error (existing driver, then child drivers), else NO_ERROR; nothing when the child check stops |
| CoInstaller.DifPasses | src/coinst/coinst.c:1337-1479 | Pre-processing stops exactly when its checks stop. Otherwise it never answers NO_ERROR: success becomes ERROR_DI_POSTPROCESSING_REQUIRED and a failure keeps its error. Post-processing answers NO_ERROR and runs its body iff InstallResult is NO_ERROR |
| CoInstaller.DifInstall | src/coinst/coinst.c:1337-1391 | The reply is DifInstallReply: a parameter failure's error, else the pass the context names |
| CoInstaller.EntryRoutes | src/coinst/coinst.c:1481-1541 | Installing the NULL driver is handled exactly as a removal. Other DIF codes run nothing and answer NO_ERROR before and InstallResult after. Post-install runs only for DIF_INSTALLDEVICE with a selected driver after a successful installation. The co-installer stops without a reply exactly on DIF_INSTALLDEVICE pre-processing with a selected driver whose checks stop |
| CoInstaller.Entry | src/coinst/coinst.c:1481-1541 | The dispatch on the DIF code returns EntryReply |

## Left out

- Logging, tracing, version banners, `Version`, `DllMain` and `__FunctionName` only print. They are not modelled.
- Allocation failures are not modelled, except two: the processor-table grow in ProcessorAddStart and the MADT buffer in SystemGetAcpiInformation.
- Concurrency is not modelled. The interlocked reference count and the DPC that runs SystemProcessorInformation on the target processor are each one atomic call; the event wait is not modelled.
- The subsystems XEN initialises (log, registry, ACPI, hypercall, bug check, module, process, unplug) are opaque stages. Their initialisers report a status and their teardowns always succeed.
- PdoDispatch, FdoDispatch, FdoCreate, RegistryQuerySzValue and DriverQueryId (src/xenbus/driver.c:181-261) are inputs: only their statuses and strings enter the model. The ANSI-to-Unicode conversion of the persisted ids is not modelled.
- Of the PnP state, DriverDispatch only reads whether it is Deleted, and that is all the model keeps.
- The safe-boot flag (`*InitSafeBootMode > 0`) is a boolean input.
- Case folding (`_wcsicmp`, `toupper`) is the C locale's, ASCII letters only.
- Madt.Lookup: the ULONG offset wrap-around in the MADT walk is not modelled. A record that would be read past the end of the buffer ends the walk as Truncated, where the source reads out of bounds.
- XenDriver.Driver.DllInitialize: the straight-line goto chain is split into three group helpers, each proved against the same specification.
- The co-installer's registry is a value. RegQueryInfoKey, RegEnumKeyEx and enumeration-buffer failures are not modelled. A driver key name is one path component. REG_SZ data with embedded NULs is not modelled.
- Key handles are not modelled. So the DeviceKey handle that MatchExistingDriver leaves open on its "no bound driver" path is not captured.
- The SetupAPI calls are inputs: SetupDiGetDeviceInstallParams is an `Outcome<()>` (success, or its error) and SetupDiGetSelectedDriver is a boolean. RequestReboot is modelled only as the decision to request a reboot; whether SetupDiSetDeviceInstallParams accepts DI_NEEDREBOOT is not modelled.
- The product name (PRODUCT_NAME_STR) and the DeviceRevision table come from the build. revision.h is not part of this model; both are parameters.
- CoInstaller.ParseRevision: the leading white space, sign and "0x" prefix that `%x` also accepts are not modelled. Only REV_ followed by one to eight hex digits is.
- CoInstaller.SupportDeviceID: an id without an '&' is the verdict Aborted, and the co-installer's reply is Stopped. A checked build stops at the assertion on line 853. A build without assertions goes on to read through the pointer strrchr's NULL + 1; the model does not say what that read does.
- A FormatMessage failure in GetErrorMessage is not modelled. Its truncation loop is CoInstaller.TruncateMessage.
- GetLastError clobbering between a failure and its report is not modelled.

## Findings

| source | as written | input that shows it | evidently intended | confidence | as-written member | corrected member |
|---|---|---|---|---|---|---|
| src/xen/driver.c:380-419 | DllUnload tears down every subsystem except ACPI, although DllInitialize acquires it (line 261) and the failure label at line 324 releases it | A successful DllInitialize followed by DllUnload | AcpiTeardown between SystemTeardown and closing the Status key | not executed | XenDriver.InitThenUnloadAsWrittenLeavesAcpi | XenDriver.InitThenUnloadReleasesAll |
| src/xen/system.c:270-295 | The fail3 label does not free Context->Madt after a failed table read, and a probe that returns a success status is passed up as success with no table | probe = STATUS_BUFFER_OVERFLOW, allocation ok, read = STATUS_UNSUCCESSFUL; or probe = STATUS_SUCCESS | Free and clear the buffer on a failed read; treat any probe status other than STATUS_BUFFER_OVERFLOW as a failure | not executed | XenSystem.AcpiInformationAsWrittenBreaks | XenSystem.AcpiInformationOf |
| src/xen/system.c:311-316 | The offset advances by the record's Length before the type test, so a record with Length 0 that does not match leaves the offset where it was and the loop never ends | A MADT whose Length field is 46 and whose only record is type 1 with Length 0 | End the walk at a zero-length record as a missing record (the BUG that follows) rather than spin | not executed | Madt.ZeroLengthRecordSpins | Madt.LookupCheckedAgrees |
| src/xenbus/driver.c:130-141 | DriverUnload closes the Parameters key and calls RegistryTeardown whenever not in safe mode, but DriverEntry skips registry setup and still succeeds when XenTouch refuses (lines 524-530) | Not in safe mode, XenTouch returns STATUS_INCOMPATIBLE_DRIVER_BLOCKED, then the driver is unloaded | Tear down only what DriverEntry set up, i.e. only when the Parameters key is held | not executed | XenbusDriver.UnloadAsWrittenUnbalanced | XenbusDriver.UnloadBalanced |
