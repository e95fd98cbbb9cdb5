/**
 * The XEN driver's system context: the reference count that admits only the
 * first SystemInitialize, the MADT buffer fetched from ACPI, and the table
 * of processors that the processor-change callback grows on a hot-add start
 * notification and fills on the matching completion.
 *
 * Hardware and kernel services are inputs: the statuses AcpiGetTable and the
 * other initialisation steps report, whether a pool allocation succeeds, and
 * the CPUID registers the targeted processor reads. The DPC that runs on the
 * target processor is one atomic call here.
 */
module XenSystem {
  import opened Nt
  import opened Madt

  /** SYSTEM_PROCESSOR without its DPC: the CPUID vendor bytes and the two ids. */
  datatype SystemProcessor = SystemProcessor(manufacturer: seq<Byte>, apicId: Byte, processorId: Byte)

  /** A freshly allocated (zeroed) processor slot. */
  const ZeroProcessor: SystemProcessor := SystemProcessor([0, 0, 0, 0, 0, 0, 0, 0, 0, 0, 0, 0], 0, 0)

  /** The two notifications SystemProcessorChangeCallback handles. */
  datatype ProcessorChange = AddStart | AddComplete

  /** The CPUID register values a processor reports for leaves 0 and 1. */
  datatype Cpuid = Cpuid(ebx0: Word, ecx0: Word, edx0: Word, ebx1: Word)

  /** The slot SystemProcessorInformation writes, or NotFound/Truncated when it bug-checks. */
  function ProcessorInformation(madt: seq<Byte>, cpu: Cpuid): (r: (SystemProcessor, LookupResult))
    ensures r.0.manufacturer == Vendor(cpu.ebx0, cpu.edx0, cpu.ecx0)
    ensures r.0.apicId == ApicIdOf(cpu.ebx1)
    ensures r.1 == LookupChecked(madt, ApicIdOf(cpu.ebx1))
    ensures r.1.Found? ==> r.0.processorId == r.1.processorId
  {
    var apic := ApicIdOf(cpu.ebx1);
    var found := LookupChecked(madt, apic);
    (SystemProcessor(Vendor(cpu.ebx0, cpu.edx0, cpu.ecx0), apic, if found.Found? then found.processorId else 0), found)
  }

  /**
   * What SystemGetAcpiInformation leaves behind: its status, and whether
   * Context->Madt still points at an allocated buffer.
   */
  datatype AcpiInformation = AcpiInformation(status: NtStatus, madtAllocated: bool)

  /**
   * SystemGetAcpiInformation as written: the size probe must report
   * STATUS_BUFFER_OVERFLOW, the buffer is allocated, then the table read
   * into it. Any other probe status is returned as it is, even a success
   * status, with no buffer; when the read fails the buffer is neither freed
   * nor cleared.
   */
  function AcpiInformationAsWritten(probe: NtStatus, allocOk: bool, read: NtStatus): (r: AcpiInformation)
    ensures NtSuccess(r.status) <==>
              if probe == StatusBufferOverflow then allocOk && NtSuccess(read) else NtSuccess(probe)
    ensures r.madtAllocated <==> probe == StatusBufferOverflow && allocOk
  {
    if probe != StatusBufferOverflow then AcpiInformation(probe, false)
    else if !allocOk then AcpiInformation(StatusNoMemory, false)
    else if !NtSuccess(read) then AcpiInformation(read, true)
    else AcpiInformation(StatusSuccess, true)
  }

  /**
   * As written, a failed read returns failure with the buffer still
   * allocated, and a probe that reports success returns success with no
   * buffer at all.
   */
  lemma AcpiInformationAsWrittenBreaks()
    ensures var r := AcpiInformationAsWritten(StatusBufferOverflow, true, StatusUnsuccessful);
            !NtSuccess(r.status) && r.madtAllocated
    ensures var r := AcpiInformationAsWritten(StatusSuccess, true, StatusSuccess);
            NtSuccess(r.status) && !r.madtAllocated
  {
  }

  /**
   * SystemGetAcpiInformation as its failure labels intend: every path that
   * reaches them fails, and the buffer is freed on the failing read.
   */
  function AcpiInformationOf(probe: NtStatus, allocOk: bool, read: NtStatus): (r: AcpiInformation)
    ensures r.status == StatusSuccess <==> probe == StatusBufferOverflow && allocOk && NtSuccess(read)
    ensures !NtSuccess(r.status) <==> r.status != StatusSuccess
    ensures r.madtAllocated <==> r.status == StatusSuccess
  {
    if probe != StatusBufferOverflow then AcpiInformation(if NtSuccess(probe) then StatusUnsuccessful else probe, false)
    else if !allocOk then AcpiInformation(StatusNoMemory, false)
    else if !NtSuccess(read) then AcpiInformation(read, false)
    else AcpiInformation(StatusSuccess, true)
  }

  /** The corrected version agrees with the source on every input where the source fails cleanly or succeeds with a table. */
  lemma AcpiInformationAgrees(probe: NtStatus, allocOk: bool, read: NtStatus)
    requires var w := AcpiInformationAsWritten(probe, allocOk, read);
             w.madtAllocated == NtSuccess(w.status)
    ensures AcpiInformationOf(probe, allocOk, read) == AcpiInformationAsWritten(probe, allocOk, read)
  {
  }

  /**
   * The results of the steps of SystemInitialize that this model does not
   * interpret: whether KeRegisterProcessorChangeCallback hands back a handle,
   * and for the power-state callback the status of ExCreateCallback and
   * whether ExRegisterCallback hands back a handle.
   */
  datatype InitInputs = InitInputs(
    startOptions: NtStatus, versionInformation: NtStatus, memoryInformation: NtStatus,
    acpiProbe: NtStatus, madtAllocated: bool, acpiRead: NtStatus, madt: seq<Byte>,
    processorHandle: bool, powerCreate: NtStatus, powerHandle: bool)

  /** SystemRegisterProcessorChangeCallback: STATUS_UNSUCCESSFUL when no handle comes back. */
  function ProcessorChangeStatus(handle: bool): (s: NtStatus)
    ensures NtSuccess(s) <==> handle
    ensures !handle ==> s == StatusUnsuccessful
  {
    if handle then StatusSuccess else StatusUnsuccessful
  }

  /**
   * SystemRegisterCallback: a failing ExCreateCallback status is passed on
   * unchanged; a missing handle from ExRegisterCallback is STATUS_UNSUCCESSFUL.
   */
  function RegisterCallbackStatus(create: NtStatus, handle: bool): (s: NtStatus)
    ensures NtSuccess(s) <==> NtSuccess(create) && handle
    ensures !NtSuccess(create) ==> s == create
    ensures NtSuccess(create) && !handle ==> s == StatusUnsuccessful
  {
    if !NtSuccess(create) then create
    else if !handle then StatusUnsuccessful
    else StatusSuccess
  }

  /** A failing step after a run of successes decides the status of the whole run. */
  lemma FirstFailingStatusAt(steps: seq<NtStatus>, k: nat)
    requires k < |steps| && !NtSuccess(steps[k])
    requires forall j | 0 <= j < k :: NtSuccess(steps[j])
    ensures FirstFailingStatus(steps) == steps[k]
  {
  }

  /**
   * SystemInitialize reports the status of its first failing step, and
   * STATUS_SUCCESS when every step succeeds.
   */
  lemma {:induction false} InitStatusIsFirstFailure(input: InitInputs)
    ensures InitStatus(input) == FirstFailingStatus(InitSteps(input))
  {
    var steps := InitSteps(input);
    if !NtSuccess(steps[0]) {
      FirstFailingStatusAt(steps, 0);
    } else if !NtSuccess(steps[1]) {
      FirstFailingStatusAt(steps, 1);
    } else if !NtSuccess(steps[2]) {
      FirstFailingStatusAt(steps, 2);
    } else if !NtSuccess(steps[3]) {
      FirstFailingStatusAt(steps, 3);
    } else if !NtSuccess(steps[4]) {
      FirstFailingStatusAt(steps, 4);
    } else if !NtSuccess(steps[5]) {
      FirstFailingStatusAt(steps, 5);
    }
  }

  /** The statuses of the steps of SystemInitialize in the order it takes them. */
  function InitSteps(input: InitInputs): seq<NtStatus>
  {
    [input.startOptions, input.versionInformation, input.memoryInformation,
     AcpiInformationOf(input.acpiProbe, input.madtAllocated, input.acpiRead).status,
     ProcessorChangeStatus(input.processorHandle),
     RegisterCallbackStatus(input.powerCreate, input.powerHandle)]
  }

  /**
   * SystemInitialize's status when it is the first call: each step in turn,
   * stopping at the first failure.
   */
  function InitStatus(input: InitInputs): (s: NtStatus)
  {
    if !NtSuccess(input.startOptions) then input.startOptions
    else if !NtSuccess(input.versionInformation) then input.versionInformation
    else if !NtSuccess(input.memoryInformation) then input.memoryInformation
    else
      var acpi := AcpiInformationOf(input.acpiProbe, input.madtAllocated, input.acpiRead).status;
      if !NtSuccess(acpi) then acpi
      else if !input.processorHandle then ProcessorChangeStatus(input.processorHandle)
      else RegisterCallbackStatus(input.powerCreate, input.powerHandle)
  }

  /**
   * The status of a run of steps that stops at the first failure: that
   * failure's own status, or STATUS_SUCCESS when every step succeeds.
   */
  function FirstFailingStatus(steps: seq<NtStatus>): (s: NtStatus)
    ensures NtSuccess(s) <==> forall i | 0 <= i < |steps| :: NtSuccess(steps[i])
    ensures NtSuccess(s) ==> s == StatusSuccess
    ensures !NtSuccess(s) ==>
              exists i | 0 <= i < |steps| :: steps[i] == s && forall j | 0 <= j < i :: NtSuccess(steps[j])
  {
    if steps == [] then StatusSuccess
    else if !NtSuccess(steps[0]) then steps[0]
    else
      assert forall i | 1 <= i < |steps| :: steps[i] == steps[1..][i - 1];
      FirstFailingStatus(steps[1..])
  }

  /** SYSTEM_CONTEXT. A NULL Processor is the empty array. */
  class SystemContext {
    var references: int
    var madt: Option<seq<Byte>>
    var processor: array<SystemProcessor>
    var processorCount: nat
    var processorCallback: bool
    var powerCallback: bool

    /**
     * ProcessorCount is the size of the Processor table, the callback only
     * runs with a MADT, and an unreferenced context holds nothing.
     */
    ghost predicate Valid()
      reads this
    {
      && processor.Length == processorCount
      && (processorCallback ==> madt.Some?)
      && references >= 0
      && (references == 0 ==> madt.None? && !processorCallback && !powerCallback)
    }

    /** IsZeroMemory(Context, sizeof (SYSTEM_CONTEXT)). */
    ghost predicate IsZero()
      reads this
    {
      references == 0 && madt.None? && processorCount == 0 && !processorCallback && !powerCallback
    }

    constructor ()
      ensures Valid() && IsZero()
    {
      references := 0;
      madt := None;
      processor := new SystemProcessor[0];
      processorCount := 0;
      processorCallback, powerCallback := false, false;
    }

    /**
     * SystemProcessorChangeCallback, KeProcessorAddStartNotify: a known index
     * changes nothing; a new one grows the table to index + 1 entries, keeping
     * every old entry in place, unless the allocation fails, when the status
     * becomes STATUS_NO_MEMORY and nothing changes.
     */
    method ProcessorAddStart(index: nat, allocOk: bool, status: NtStatus) returns (status': NtStatus)
      requires Valid()
      modifies this`processor, this`processorCount
      ensures Valid()
      ensures index < old(processorCount) || !allocOk ==> processor == old(processor) && processorCount == old(processorCount)
      ensures status' == (if old(processorCount) <= index && !allocOk then StatusNoMemory else status)
      ensures old(processorCount) <= index && allocOk ==>
                && fresh(processor) && processorCount == index + 1
                && processor[..old(processorCount)] == old(processor[..])
                && forall i :: old(processorCount) <= i < processorCount ==> processor[i] == ZeroProcessor
      ensures processorCount >= old(processorCount)
    {
      status' := status;
      if index < processorCount {
        return;
      }
      var count := index + 1;
      if !allocOk {
        status' := StatusNoMemory;
        return;
      }
      var table := new SystemProcessor[count](_ => ZeroProcessor);
      forall i | 0 <= i < processorCount {
        table[i] := processor[i];
      }
      processor := table;
      processorCount := count;
    }

    /**
     * SystemApicIDToProcessorID: the walk over the MADT records, by offset,
     * with a zero-length record ending the walk as a missing record.
     */
    method ApicIdToProcessorId(table: seq<Byte>, apicId: Byte) returns (r: LookupResult)
      ensures r == LookupChecked(table, apicId)
    {
      if |table| < 8 {
        return Truncated;
      }
      var end := U32At(table, 4);
      var offset := MadtHeaderSize;
      while offset < end
        invariant LookupFromChecked(table, end, offset, apicId) == LookupChecked(table, apicId)
        decreases end - offset
      {
        if offset + 2 > |table| || (table[offset] == LocalApicType && offset + 4 > |table|) {
          return Truncated;
        }
        var kind, length := table[offset], table[offset + 1];
        if kind == LocalApicType && table[offset + 3] == apicId {
          return Found(table[offset + 2]);
        }
        if length == 0 {
          return NotFound;
        }
        offset := offset + length;
      }
      return NotFound;
    }

    /**
     * SystemProcessorChangeCallback, KeProcessorAddCompleteNotify: the
     * information routine runs on processor index and writes only slot
     * index: the CPUID vendor, the APIC id and, when the MADT has a local
     * APIC record for it, the processor id. Without one the driver bug-checks
     * (bugCheck), after the vendor and APIC id were written.
     */
    method ProcessorAddComplete(index: nat, cpu: Cpuid) returns (bugCheck: bool)
      requires Valid() && processorCallback && index < processorCount
      modifies processor
      ensures Valid()
      ensures var p := ProcessorInformation(madt.value, cpu);
              && bugCheck == !p.1.Found?
              && processor[index] == (if bugCheck then old(processor[index]).(manufacturer := p.0.manufacturer, apicId := p.0.apicId) else p.0)
      ensures forall i :: 0 <= i < processorCount && i != index ==> processor[i] == old(processor[i])
    {
      var table := madt.value;
      var apic := ApicIdOf(cpu.ebx1);
      processor[index] := processor[index].(manufacturer := Vendor(cpu.ebx0, cpu.edx0, cpu.ecx0), apicId := apic);
      var found := ApicIdToProcessorId(table, apic);
      bugCheck := !found.Found?;
      if !bugCheck {
        processor[index] := processor[index].(processorId := found.processorId);
      }
    }

    /** SystemDeregisterProcessorChangeCallback: the table is freed and the count reset. */
    method DeregisterProcessorChange()
      requires Valid()
      modifies this`processor, this`processorCount, this`processorCallback
      ensures Valid() && processorCount == 0 && !processorCallback
    {
      processorCallback := false;
      processor := new SystemProcessor[0];
      processorCount := 0;
    }

    /** SystemGetAcpiInformation (with the failing read freeing the buffer). */
    method GetAcpiInformation(probe: NtStatus, allocOk: bool, read: NtStatus, table: seq<Byte>)
      returns (status: NtStatus)
      modifies this`madt
      ensures var r := AcpiInformationOf(probe, allocOk, read);
              && status == r.status
              && madt == (if r.madtAllocated then Some(table) else old(madt))
    {
      if probe != StatusBufferOverflow {
        return if NtSuccess(probe) then StatusUnsuccessful else probe;
      }
      if !allocOk {
        return StatusNoMemory;
      }
      if !NtSuccess(read) {
        return read;
      }
      madt := Some(table);
      status := StatusSuccess;
    }

    /**
     * SystemInitialize: only the call that takes References from 0 to 1
     * proceeds; any other call, and any failing step, returns with the
     * reference taken back and with no MADT and no callback left behind.
     */
    method Initialize(input: InitInputs) returns (status: NtStatus)
      requires Valid()
      modifies this`references, this`madt, this`processor, this`processorCount,
               this`processorCallback, this`powerCallback
      ensures Valid()
      ensures old(references) != 0 ==> status == StatusObjectIdExists
      ensures NtSuccess(status) <==>
                && old(references) == 0
                && NtSuccess(input.startOptions) && NtSuccess(input.versionInformation)
                && NtSuccess(input.memoryInformation)
                && AcpiInformationOf(input.acpiProbe, input.madtAllocated, input.acpiRead).status == StatusSuccess
                && input.processorHandle && NtSuccess(input.powerCreate) && input.powerHandle
      ensures old(references) == 0 ==> status == InitStatus(input)
      ensures NtSuccess(status) ==>
                && references == 1 && madt == Some(input.madt) && processorCallback && powerCallback
      ensures !NtSuccess(status) ==>
                && references == old(references) && madt == old(madt)
                && processorCallback == old(processorCallback) && powerCallback == old(powerCallback)
                && (processorCount == old(processorCount) || processorCount == 0)
    {
      references := references + 1;
      if references != 1 {
        references := references - 1;
        return StatusObjectIdExists;
      }
      status := input.startOptions;
      if !NtSuccess(status) {
        references := references - 1;
        return;
      }
      status := input.versionInformation;
      if !NtSuccess(status) {
        references := references - 1;
        return;
      }
      status := input.memoryInformation;
      if !NtSuccess(status) {
        references := references - 1;
        return;
      }
      status := GetAcpiInformation(input.acpiProbe, input.madtAllocated, input.acpiRead, input.madt);
      if !NtSuccess(status) {
        references := references - 1;
        return;
      }
      status := ProcessorChangeStatus(input.processorHandle);
      if !NtSuccess(status) {
        madt := None;
        references := references - 1;
        return;
      }
      processorCallback := true;
      status := RegisterCallbackStatus(input.powerCreate, input.powerHandle);
      if !NtSuccess(status) {
        DeregisterProcessorChange();
        madt := None;
        references := references - 1;
        return;
      }
      powerCallback := true;
      status := StatusSuccess;
    }

    /** SystemVirtualCpuIndex: the ACPI processor id recorded for processor index. */
    method VirtualCpuIndex(index: nat) returns (id: Byte)
      requires Valid() && index < processorCount
      ensures id == processor[index].processorId
    {
      id := processor[index].processorId;
    }

    /**
     * SystemTeardown: both callbacks deregistered, the table and the MADT
     * freed, the reference dropped; after the one successful initialisation
     * the context is all zero again.
     */
    method Teardown()
      requires Valid() && references == 1
      modifies this`references, this`madt, this`processor, this`processorCount,
               this`processorCallback, this`powerCallback
      ensures Valid()
      ensures IsZero() && processorCount == 0
    {
      powerCallback := false;
      DeregisterProcessorChange();
      madt := None;
      references := references - 1;
    }
  }
}
