/**
 * The XEN export driver's entry points: the version gate that other drivers
 * call (XenTouch), and the staged initialisation and unload of the driver's
 * subsystems (DllInitialize / DllUnload).
 *
 * The subsystems themselves (log, registry, ACPI, system, hypercall, bug
 * check, module, process and unplug) live in files that are not part of this
 * model: each is an opaque stage whose initialiser reports a status.
 */
module XenDriver {
  import opened Nt

  /** MAJOR_VERSION, MINOR_VERSION, MICRO_VERSION and BUILD_NUMBER of one build. */
  datatype Version = Version(major: nat, minor: nat, micro: nat, build: nat)

  /** Counters declared ULONG wrap at this value. */
  const UlongLimit: nat := 0x1_0000_0000

  // ---------------------------------------------------------------------
  // Version gate
  // ---------------------------------------------------------------------

  /** What one XenTouch call decides, given the value of its static counter. */
  datatype TouchResult = TouchResult(
    status: NtStatus,
    reference: nat,          // the counter afterwards
    queriedHypervisor: bool, // XenVersion / XenVersionExtra were called and logged
    requestedReboot: bool)   // NeedReboot = 1 was written under the Status key

  /** XenTouch: an incompatible caller is refused before the counter is touched. */
  function Touch(own: Version, caller: Version, reference: nat): TouchResult
  {
    if caller != own then
      TouchResult(StatusIncompatibleDriverBlocked, reference, false, true)
    else
      TouchResult(StatusSuccess, (reference + 1) % UlongLimit, reference == 0, false)
  }

  /** The effect of a series of XenTouch calls, in order. */
  datatype TouchSummary = TouchSummary(reference: nat, queries: nat, rebootRequested: bool, failures: nat)

  function TouchAll(own: Version, callers: seq<Version>, reference: nat): TouchSummary
    decreases |callers|
  {
    if callers == [] then TouchSummary(reference, 0, false, 0)
    else
      var t := Touch(own, callers[0], reference);
      var rest := TouchAll(own, callers[1..], t.reference);
      TouchSummary(rest.reference,
                   rest.queries + (if t.queriedHypervisor then 1 else 0),
                   rest.rebootRequested || t.requestedReboot,
                   rest.failures + (if t.status == StatusSuccess then 0 else 1))
  }

  function CompatibleCount(own: Version, callers: seq<Version>): nat
    decreases |callers|
  {
    if callers == [] then 0
    else (if callers[0] == own then 1 else 0) + CompatibleCount(own, callers[1..])
  }

  /**
   * Over any series of calls (fewer than 2^32 compatible ones), the counter
   * counts exactly the compatible callers, the hypervisor version is queried
   * at most once (by the first compatible caller when the counter started at
   * zero), every incompatible caller fails, and a reboot is requested exactly
   * when some caller was incompatible.
   */
  lemma {:induction false} TouchAllCounts(own: Version, callers: seq<Version>, reference: nat)
    requires reference + CompatibleCount(own, callers) < UlongLimit
    ensures TouchAll(own, callers, reference).reference == reference + CompatibleCount(own, callers)
    ensures TouchAll(own, callers, reference).queries
            == (if reference == 0 && CompatibleCount(own, callers) > 0 then 1 else 0)
    ensures TouchAll(own, callers, reference).failures == |callers| - CompatibleCount(own, callers)
    ensures TouchAll(own, callers, reference).rebootRequested
            <==> exists i :: 0 <= i < |callers| && callers[i] != own
    decreases |callers|
  {
    if callers != [] {
      var t := Touch(own, callers[0], reference);
      TouchAllCounts(own, callers[1..], t.reference);
      CompatibleCountBound(own, callers[1..]);
      var rest := TouchAll(own, callers[1..], t.reference);
      if rest.rebootRequested {
        var i :| 0 <= i < |callers[1..]| && callers[1..][i] != own;
        assert callers[i + 1] != own;
      }
      if exists i :: 0 <= i < |callers| && callers[i] != own {
        var i :| 0 <= i < |callers| && callers[i] != own;
        if i > 0 {
          assert callers[1..][i - 1] != own;
        }
      }
    }
  }

  lemma {:induction false} CompatibleCountBound(own: Version, callers: seq<Version>)
    ensures CompatibleCount(own, callers) <= |callers|
    decreases |callers|
  {
    if callers != [] {
      CompatibleCountBound(own, callers[1..]);
    }
  }


  // ---------------------------------------------------------------------
  // Staged initialisation
  // ---------------------------------------------------------------------

  /**
   * The resources DllInitialize acquires, numbered in the order it acquires
   * them: the log and its two dispositions, the registry, the service key
   * and its Unplug and Status subkeys, then the subsystems.
   */
  type Stage = k: nat | k < 14
  const Log: Stage := 0
  const TraceDisposition: Stage := 1
  const InfoDisposition: Stage := 2
  const Registry: Stage := 3
  const ServiceKey: Stage := 4
  const UnplugKey: Stage := 5
  const StatusKey: Stage := 6
  const Acpi: Stage := 7
  const System: Stage := 8
  const Hypercall: Stage := 9
  const BugCheck: Stage := 10
  const Module: Stage := 11
  const Process: Stage := 12
  const Unplug: Stage := 13

  /** A call to a stage's initialiser that succeeded, or a call to its teardown. */
  datatype Action = Init(stage: Stage) | Teardown(stage: Stage)

  /** The number of stages DllInitialize goes through. */
  const StageCount: nat := 14

  /** The k-th stage DllInitialize goes through, counting from 0. */
  function StageAt(k: nat): Stage
    requires k < StageCount
  {
    k
  }

  /** The first k stages, in acquisition order. */
  function Prefix(k: nat): seq<Stage>
    requires k <= StageCount
  {
    seq(k, j requires 0 <= j < k => StageAt(j))
  }

  /** Acquiring stage k extends the first k stages by one. */
  lemma PrefixSnoc(k: nat)
    requires k < StageCount
    ensures Prefix(k + 1) == Prefix(k) + [StageAt(k)]
  {
    var a, b := Prefix(k + 1), Prefix(k) + [StageAt(k)];
    forall j | 0 <= j < k + 1
      ensures a[j] == b[j]
    {
    }
  }

  function InitOrder(): seq<Stage>
  {
    Prefix(StageCount)
  }

  /** Adding a log disposition is asserted to succeed; every other stage can fail. */
  predicate Fallible(s: Stage)
  {
    s != TraceDisposition && s != InfoDisposition
  }

  /** Whether stage s's initialiser succeeds when it reports outcome(s). */
  predicate Succeeds(outcome: Stage -> NtStatus, s: Stage)
  {
    !Fallible(s) || NtSuccess(outcome(s))
  }

  function Inits(s: seq<Stage>): seq<Action>
  {
    seq(|s|, i requires 0 <= i < |s| => Init(s[i]))
  }

  function Teardowns(s: seq<Stage>): seq<Action>
  {
    seq(|s|, i requires 0 <= i < |s| => Teardown(s[i]))
  }

  function Reverse(s: seq<Stage>): seq<Stage>
  {
    seq(|s|, i requires 0 <= i < |s| => s[|s| - 1 - i])
  }

  /** s with every occurrence of x removed, the others kept in order. */
  function Without(s: seq<Stage>, x: Stage): seq<Stage>
  {
    if s == [] then []
    else if s[|s| - 1] == x then Without(s[..|s| - 1], x)
    else Without(s[..|s| - 1], x) + [s[|s| - 1]]
  }

  /**
   * The index of the first stage, from stage i on, whose initialiser fails;
   * StageCount when none does.
   */
  function FirstFailure(i: nat, outcome: Stage -> NtStatus): (k: nat)
    requires i <= StageCount
    ensures i <= k <= StageCount
    ensures k < StageCount ==> !Succeeds(outcome, StageAt(k))
    decreases StageCount - i
  {
    if i == StageCount then StageCount
    else if !Succeeds(outcome, StageAt(i)) then i
    else FirstFailure(i + 1, outcome)
  }

  /** What DllInitialize does: the calls it makes, the status it returns, the stages it leaves acquired. */
  datatype InitRun = InitRun(actions: seq<Action>, status: NtStatus, acquired: seq<Stage>)

  /**
   * The goto chain of DllInitialize when the stages before k succeed and
   * stage k fails: the failure labels tear down everything done, last first.
   * When no stage fails (k == StageCount), only the service key is closed again.
   */
  function RunTo(k: nat, outcome: Stage -> NtStatus): InitRun
    requires k <= StageCount
  {
    if k == StageCount then
      InitRun(Inits(Prefix(k)) + [Teardown(ServiceKey)], StatusSuccess, Without(Prefix(k), ServiceKey))
    else
      InitRun(Inits(Prefix(k)) + Teardowns(Reverse(Prefix(k))), outcome(StageAt(k)), [])
  }

  function InitRunOf(outcome: Stage -> NtStatus): InitRun
  {
    RunTo(FirstFailure(0, outcome), outcome)
  }

  /** The stages a successful DllInitialize leaves acquired: all but the temporary service key. */
  function RunningStages(): seq<Stage>
  {
    Without(InitOrder(), ServiceKey)
  }

  /** Every stage from i up to the first failure succeeds. */
  lemma {:induction false} FirstFailureMinimal(i: nat, outcome: Stage -> NtStatus)
    requires i <= StageCount
    ensures forall j :: i <= j < FirstFailure(i, outcome) ==> Succeeds(outcome, StageAt(j))
    decreases StageCount - i
  {
    if i < StageCount && Succeeds(outcome, StageAt(i)) {
      FirstFailureMinimal(i + 1, outcome);
    }
  }

  /** When no stage between j and i fails, searching from j and from i find the same failure. */
  lemma {:induction false} FirstFailureShift(j: nat, i: nat, outcome: Stage -> NtStatus)
    requires j <= i <= StageCount && FirstFailure(j, outcome) >= i
    ensures FirstFailure(j, outcome) == FirstFailure(i, outcome)
    decreases i - j
  {
    if j < i {
      FirstFailureShift(j + 1, i, outcome);
    }
  }

  /**
   * DllInitialize succeeds exactly when every initialiser succeeds, and then
   * it has called every initialiser in order and closed only the service key.
   */
  lemma InitSucceedsIff(outcome: Stage -> NtStatus)
    ensures NtSuccess(InitRunOf(outcome).status)
            <==> forall j :: 0 <= j < StageCount ==> Succeeds(outcome, StageAt(j))
    ensures NtSuccess(InitRunOf(outcome).status) ==>
            && InitRunOf(outcome).actions == Inits(InitOrder()) + [Teardown(ServiceKey)]
            && InitRunOf(outcome).acquired == RunningStages()
  {
    FirstFailureMinimal(0, outcome);
  }

  /**
   * A failed DllInitialize stopped at the first failing stage k, returns that
   * stage's status, and tore down exactly the stages before k, last first,
   * leaving nothing acquired.
   */
  lemma InitFails(outcome: Stage -> NtStatus)
    requires !NtSuccess(InitRunOf(outcome).status)
    ensures var k := FirstFailure(0, outcome);
            && k < StageCount
            && (forall j :: 0 <= j < k ==> Succeeds(outcome, StageAt(j)))
            && !Succeeds(outcome, StageAt(k))
            && InitRunOf(outcome).status == outcome(StageAt(k))
            && InitRunOf(outcome).actions == Inits(Prefix(k)) + Teardowns(Reverse(Prefix(k)))
            && InitRunOf(outcome).acquired == []
  {
    FirstFailureMinimal(0, outcome);
  }

  /**
   * On a failed initialisation the net effect on every stage is nil: the
   * teardowns are exactly the initialisations, mirrored.
   */
  lemma FailedInitUndoesEverything(outcome: Stage -> NtStatus)
    requires !NtSuccess(InitRunOf(outcome).status)
    ensures var a := InitRunOf(outcome).actions;
            && |a| % 2 == 0
            && forall i :: 0 <= i < |a| / 2 ==>
                 && a[i] == Init(InitOrder()[i])
                 && a[|a| - 1 - i] == Teardown(InitOrder()[i])
  {
    InitFails(outcome);
  }

  /** Removing x keeps every other member. */
  lemma {:induction false} WithoutFacts(s: seq<Stage>, x: Stage)
    ensures forall y :: y in Without(s, x) <==> y in s && y != x
    decreases |s|
  {
    if s != [] {
      WithoutFacts(s[..|s| - 1], x);
      assert s == s[..|s| - 1] + [s[|s| - 1]];
    }
  }

  lemma {:induction false} WithoutAbsent(s: seq<Stage>, x: Stage)
    requires x !in s
    ensures Without(s, x) == s
    decreases |s|
  {
    if s != [] {
      WithoutAbsent(s[..|s| - 1], x);
    }
  }

  lemma {:induction false} WithoutAppend(a: seq<Stage>, b: seq<Stage>, x: Stage)
    ensures Without(a + b, x) == Without(a, x) + Without(b, x)
    decreases |b|
  {
    if b == [] {
      assert a + b == a;
    } else {
      var c := b[..|b| - 1];
      assert (a + b)[..|a + b| - 1] == a + c;
      assert (a + b)[|a + b| - 1] == b[|b| - 1];
      WithoutAppend(a, c, x);
    }
  }

  /** The teardown calls DllUnload makes, in the order the source makes them. */
  function UnloadOrderAsWritten(): seq<Stage>
  {
    [Unplug, Process, Module, BugCheck, Hypercall, System,
     StatusKey, UnplugKey, Registry, InfoDisposition, TraceDisposition, Log]
  }

  /** The teardown order DllUnload is meant to follow: every running stage, last acquired first. */
  function UnloadOrder(): seq<Stage>
  {
    [Unplug, Process, Module, BugCheck, Hypercall, System, Acpi,
     StatusKey, UnplugKey, Registry, InfoDisposition, TraceDisposition, Log]
  }

  /** The corrected order tears down every running stage, in the reverse of their acquisition order. */
  lemma UnloadOrderReversesInit()
    ensures UnloadOrder() == Reverse(RunningStages())
    ensures forall s :: s in RunningStages() <==> s in UnloadOrder()
  {
    var a := [Log, TraceDisposition, InfoDisposition, Registry];
    var b := [UnplugKey, StatusKey, Acpi, System, Hypercall, BugCheck, Module, Process, Unplug];
    assert InitOrder() == (a + [ServiceKey]) + b;
    WithoutAppend(a + [ServiceKey], b, ServiceKey);
    WithoutAppend(a, [ServiceKey], ServiceKey);
    WithoutAbsent(a, ServiceKey);
    WithoutAbsent(b, ServiceKey);
    assert Without([ServiceKey], ServiceKey) == [];
    assert RunningStages() == a + b;
  }

  /** As written, DllUnload skips exactly one running stage: ACPI. */
  lemma UnloadAsWrittenMissesAcpi()
    ensures forall s :: s in RunningStages() && s !in UnloadOrderAsWritten() <==> s == Acpi
  {
    UnloadOrderReversesInit();
  }

  /** s with every stage of xs removed: the effect of tearing down xs, one after the other. */
  function WithoutAll(s: seq<Stage>, xs: seq<Stage>): seq<Stage>
  {
    if xs == [] then s else Without(WithoutAll(s, xs[..|xs| - 1]), xs[|xs| - 1])
  }

  /** Tearing down xs leaves exactly the stages of s that are not in xs. */
  lemma {:induction false} WithoutAllFacts(s: seq<Stage>, xs: seq<Stage>)
    ensures forall y :: y in WithoutAll(s, xs) <==> y in s && y !in xs
    decreases |xs|
  {
    if xs != [] {
      WithoutAllFacts(s, xs[..|xs| - 1]);
      WithoutFacts(WithoutAll(s, xs[..|xs| - 1]), xs[|xs| - 1]);
      assert xs == xs[..|xs| - 1] + [xs[|xs| - 1]];
    }
  }

  /** The first element of a non-empty sequence is one of its members. */
  lemma HeadIn(s: seq<Stage>)
    requires s != []
    ensures s[0] in s
  {
  }

  /** After a successful DllInitialize, the corrected DllUnload leaves nothing initialised. */
  lemma InitThenUnloadReleasesAll()
    ensures WithoutAll(RunningStages(), UnloadOrder()) == []
  {
    WithoutAllFacts(RunningStages(), UnloadOrder());
    UnloadOrderReversesInit();
    var left := WithoutAll(RunningStages(), UnloadOrder());
    if left != [] {
      HeadIn(left);
      assert false;
    }
  }

  /** After a successful DllInitialize, DllUnload as written leaves the ACPI stage, and only it, initialised. */
  lemma InitThenUnloadAsWrittenLeavesAcpi()
    ensures forall s :: s in WithoutAll(RunningStages(), UnloadOrderAsWritten()) <==> s == Acpi
  {
    WithoutAllFacts(RunningStages(), UnloadOrderAsWritten());
    UnloadAsWrittenMissesAcpi();
  }

  /**
   * The XEN_DRIVER singleton together with the state the driver's entry
   * points change: the stack of acquired stages (each handle XEN_DRIVER keeps
   * is set exactly while its stage is on it), the log of initialiser and
   * teardown calls, XenTouch's static counter and the persisted NeedReboot flag.
   */
  class Driver {
    const version: Version
    var acquired: seq<Stage>
    var actions: seq<Action>
    var reference: nat
    var needReboot: bool

    /** IsZeroMemory(&Driver, sizeof (XEN_DRIVER)): no handle is held. */
    predicate IsZero()
      reads this
    {
      acquired == []
    }

    /** XEN_DRIVER's StatusKey handle is set. */
    predicate StatusKeyOpen()
      reads this
    {
      StatusKey in acquired
    }

    constructor (version: Version)
      ensures IsZero() && this.version == version && actions == []
      ensures reference == 0 && !needReboot
    {
      this.version := version;
      acquired, actions := [], [];
      reference, needReboot := 0, false;
    }

    /** __DriverRequestReboot: NeedReboot = 1 under the Status key, if that key is open. */
    method RequestReboot()
      modifies this`needReboot
      ensures needReboot == (old(needReboot) || StatusKeyOpen())
    {
      if StatusKeyOpen() {
        needReboot := true;
      }
    }

    /**
     * XenTouch: a caller built from different sources is refused and a reboot
     * requested; a compatible caller is counted, and only the first one
     * queries the hypervisor version.
     */
    method XenTouch(name: string, caller: Version) returns (status: NtStatus, queriedHypervisor: bool)
      requires reference < UlongLimit
      modifies this`reference, this`needReboot
      ensures reference < UlongLimit
      ensures var t := Touch(version, caller, old(reference));
              && status == t.status
              && reference == t.reference
              && queriedHypervisor == t.queriedHypervisor
              && needReboot == (old(needReboot) || (t.requestedReboot && StatusKeyOpen()))
    {
      if caller != version {
        RequestReboot();
        status, queriedHypervisor := StatusIncompatibleDriverBlocked, false;
        return;
      }
      queriedHypervisor := reference == 0;
      reference := (reference + 1) % UlongLimit;
      status := StatusSuccess;
    }

    /** A successful initialiser: the stage is pushed. */
    method Acquire(s: Stage)
      modifies this`acquired, this`actions
      ensures acquired == old(acquired) + [s] && actions == old(actions) + [Init(s)]
    {
      acquired := acquired + [s];
      actions := actions + [Init(s)];
    }

    /** The teardown of the most recently acquired stage. */
    method Pop()
      requires acquired != []
      modifies this`acquired, this`actions
      ensures acquired == old(acquired)[..|old(acquired)| - 1]
      ensures actions == old(actions) + [Teardown(old(acquired)[|old(acquired)| - 1])]
    {
      actions := actions + [Teardown(acquired[|acquired| - 1])];
      acquired := acquired[..|acquired| - 1];
    }

    /** A teardown of stage s, wherever it sits on the stack. */
    method Release(s: Stage)
      modifies this`acquired, this`actions
      ensures acquired == Without(old(acquired), s) && actions == old(actions) + [Teardown(s)]
    {
      acquired := Without(acquired, s);
      actions := actions + [Teardown(s)];
    }

    /** The failure labels of DllInitialize: tear down every acquired stage, last first. */
    method Unwind()
      modifies this`acquired, this`actions
      ensures acquired == [] && actions == old(actions) + Teardowns(Reverse(old(acquired)))
    {
      ghost var stack := acquired;
      while acquired != []
        invariant |acquired| <= |stack| && acquired == stack[..|acquired|]
        invariant actions == old(actions) + Teardowns(Reverse(stack[|acquired|..]))
        decreases |acquired|
      {
        var n := |acquired| - 1;
        assert Teardowns(Reverse(stack[n..])) == Teardowns(Reverse(stack[n + 1..])) + [Teardown(stack[n])];
        Pop();
      }
    }

    /**
     * The state of DllInitialize just before stage k: the stages before k
     * are acquired, their initialisers logged since start, and none failed.
     */
    ghost predicate Entered(k: nat, outcome: Stage -> NtStatus, start: seq<Action>)
      reads this
    {
      && k <= StageCount
      && acquired == Prefix(k)
      && actions == start + Inits(acquired)
      && FirstFailure(0, outcome) >= k
    }

    /** The state DllInitialize returns in after its first failing stage. */
    ghost predicate Failed(outcome: Stage -> NtStatus, start: seq<Action>, status: NtStatus)
      reads this
    {
      && status == InitRunOf(outcome).status
      && actions == start + InitRunOf(outcome).actions
      && acquired == InitRunOf(outcome).acquired
    }

    /**
     * Stage i of DllInitialize: on success the stage joins the stack; on
     * failure everything acquired so far is torn down, last first, and the
     * stage's status becomes DllInitialize's.
     */
    method Step(i: nat, outcome: Stage -> NtStatus, ghost start: seq<Action>)
      returns (ok: bool, status: NtStatus)
      requires i < StageCount && Entered(i, outcome, start)
      modifies this`acquired, this`actions
      ensures ok == Succeeds(outcome, StageAt(i))
      ensures ok ==> Entered(i + 1, outcome, start)
      ensures !ok ==> Failed(outcome, start, status)
    {
      FirstFailureShift(0, i, outcome);
      var s := StageAt(i);
      status := StatusSuccess;
      ok := Succeeds(outcome, s);
      if ok {
        Acquire(s);
        PrefixSnoc(i);
        assert Inits(acquired) == Inits(old(acquired)) + [Init(s)];
      } else {
        ghost var done := acquired;
        Unwind();
        status := outcome(s);
        assert actions == start + (Inits(done) + Teardowns(Reverse(done)));
      }
    }

    /** The logging stages: LogInitialize, then the two dispositions, which cannot fail. */
    method InitializeLogging(outcome: Stage -> NtStatus, ghost start: seq<Action>)
      returns (ok: bool, status: NtStatus)
      requires Entered(0, outcome, start)
      modifies this`acquired, this`actions
      ensures ok ==> Entered(3, outcome, start)
      ensures !ok ==> Failed(outcome, start, status)
    {
      ok, status := Step(0, outcome, start);   // LogInitialize
      if !ok { return; }
      ok, status := Step(1, outcome, start);   // LogAddDisposition (trace)
      ok, status := Step(2, outcome, start);   // LogAddDisposition (info)
    }

    /** The registry stages: RegistryInitialize, the service key and its Unplug and Status subkeys. */
    method InitializeRegistry(outcome: Stage -> NtStatus, ghost start: seq<Action>)
      returns (ok: bool, status: NtStatus)
      requires Entered(3, outcome, start)
      modifies this`acquired, this`actions
      ensures ok ==> Entered(7, outcome, start)
      ensures !ok ==> Failed(outcome, start, status)
    {
      ok, status := Step(3, outcome, start);   // RegistryInitialize
      if !ok { return; }
      ok, status := Step(4, outcome, start);   // RegistryCreateServiceKey
      if !ok { return; }
      ok, status := Step(5, outcome, start);   // RegistryCreateSubKey "Unplug"
      if !ok { return; }
      ok, status := Step(6, outcome, start);   // RegistryCreateSubKey "Status"
    }

    /** The subsystem initialisers, from AcpiInitialize to UnplugInitialize. */
    method InitializeSubsystems(outcome: Stage -> NtStatus, ghost start: seq<Action>)
      returns (ok: bool, status: NtStatus)
      requires Entered(7, outcome, start)
      modifies this`acquired, this`actions
      ensures ok ==> Entered(StageCount, outcome, start)
      ensures !ok ==> Failed(outcome, start, status)
    {
      ok, status := Step(7, outcome, start);   // AcpiInitialize
      if !ok { return; }
      ok, status := Step(8, outcome, start);   // SystemInitialize
      if !ok { return; }
      ok, status := Step(9, outcome, start);   // HypercallInitialize
      if !ok { return; }
      ok, status := Step(10, outcome, start);  // BugCheckInitialize
      if !ok { return; }
      ok, status := Step(11, outcome, start);  // ModuleInitialize
      if !ok { return; }
      ok, status := Step(12, outcome, start);  // ProcessInitialize
      if !ok { return; }
      ok, status := Step(13, outcome, start);  // UnplugInitialize
    }

    /**
     * DllInitialize: in safe mode nothing happens; otherwise the stages are
     * initialised in InitOrder(), and the first failure undoes exactly the
     * stages completed before it, in reverse order.
     */
    method DllInitialize(safeBoot: bool, outcome: Stage -> NtStatus) returns (status: NtStatus)
      requires IsZero()
      modifies this`acquired, this`actions
      ensures safeBoot ==> status == StatusSuccess && IsZero() && actions == old(actions)
      ensures !safeBoot ==> && status == InitRunOf(outcome).status
                            && actions == old(actions) + InitRunOf(outcome).actions
                            && acquired == InitRunOf(outcome).acquired
    {
      if safeBoot {
        return StatusSuccess;
      }
      ghost var start := actions;
      assert acquired == Prefix(0);
      var ok: bool;
      ok, status := InitializeLogging(outcome, start);
      if !ok { return; }
      ok, status := InitializeRegistry(outcome, start);
      if !ok { return; }
      ok, status := InitializeSubsystems(outcome, start);
      if !ok { return; }
      ghost var done := acquired;
      Release(ServiceKey);   // RegistryCloseKey(ServiceKey)
      assert actions == start + (Inits(done) + [Teardown(ServiceKey)]);
      status := StatusSuccess;
    }

    /**
     * The state of DllUnload after its first i teardowns, entered with
     * acquired == before and the log at start.
     */
    ghost predicate Unloaded(i: nat, start: seq<Action>, before: seq<Stage>)
      reads this
    {
      && i <= |UnloadOrder()|
      && actions == start + Teardowns(UnloadOrder()[..i])
      && acquired == WithoutAll(before, UnloadOrder()[..i])
    }

    /** Teardown number i of DllUnload. */
    method ReleaseNext(i: nat, ghost start: seq<Action>, ghost before: seq<Stage>)
      requires i < |UnloadOrder()| && Unloaded(i, start, before)
      modifies this`acquired, this`actions
      ensures Unloaded(i + 1, start, before)
    {
      var s := UnloadOrder()[i];
      Release(s);
      assert UnloadOrder()[..i + 1][..i] == UnloadOrder()[..i];
      assert Teardowns(UnloadOrder()[..i + 1]) == Teardowns(UnloadOrder()[..i]) + [Teardown(s)];
    }

    /** The subsystem teardowns, from UnplugTeardown down to AcpiTeardown. */
    method TeardownSubsystems(ghost start: seq<Action>, ghost before: seq<Stage>)
      requires Unloaded(0, start, before)
      modifies this`acquired, this`actions
      ensures Unloaded(7, start, before)
    {
      ReleaseNext(0, start, before);       // UnplugTeardown
      ReleaseNext(1, start, before);       // ProcessTeardown
      ReleaseNext(2, start, before);       // ModuleTeardown
      ReleaseNext(3, start, before);       // BugCheckTeardown
      ReleaseNext(4, start, before);       // HypercallTeardown
      ReleaseNext(5, start, before);       // SystemTeardown
      ReleaseNext(6, start, before);       // AcpiTeardown
    }

    /** The registry teardowns: the Status and Unplug keys, then RegistryTeardown. */
    method TeardownRegistry(ghost start: seq<Action>, ghost before: seq<Stage>)
      requires Unloaded(7, start, before)
      modifies this`acquired, this`actions
      ensures Unloaded(10, start, before)
    {
      ReleaseNext(7, start, before);       // RegistryCloseKey(StatusKey)
      ReleaseNext(8, start, before);       // RegistryCloseKey(UnplugKey)
      ReleaseNext(9, start, before);       // RegistryTeardown
    }

    /** The logging teardowns: both dispositions, then LogTeardown. */
    method TeardownLogging(ghost start: seq<Action>, ghost before: seq<Stage>)
      requires Unloaded(10, start, before)
      modifies this`acquired, this`actions
      ensures Unloaded(13, start, before)
    {
      ReleaseNext(10, start, before);      // LogRemoveDisposition (info)
      ReleaseNext(11, start, before);      // LogRemoveDisposition (trace)
      ReleaseNext(12, start, before);      // LogTeardown
    }

    /**
     * DllUnload: in safe mode nothing happens; otherwise every stage of
     * UnloadOrder() is torn down in turn. Always returns STATUS_SUCCESS.
     */
    method DllUnload(safeBoot: bool) returns (status: NtStatus)
      modifies this`acquired, this`actions
      ensures status == StatusSuccess
      ensures safeBoot ==> acquired == old(acquired) && actions == old(actions)
      ensures !safeBoot ==> && actions == old(actions) + Teardowns(UnloadOrder())
                            && acquired == WithoutAll(old(acquired), UnloadOrder())
    {
      status := StatusSuccess;
      if safeBoot {
        return;
      }
      ghost var start, before := actions, acquired;
      assert actions == start + Teardowns(UnloadOrder()[..0]);
      TeardownSubsystems(start, before);
      TeardownRegistry(start, before);
      TeardownLogging(start, before);
      assert UnloadOrder()[..13] == UnloadOrder();
    }
  }
}
