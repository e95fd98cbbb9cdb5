/**
 * The pieces of the XEN driver's processor bookkeeping that read raw data:
 * the walk over the ACPI Multiple APIC Description Table (MADT, section
 * 5.2.12 of the ACPI specification) that maps a local APIC id to its ACPI
 * processor id, and the decoding of CPUID register values.
 *
 * The table is the buffer AcpiGetTable returned, as bytes. The walk is given
 * here as a specification function; the loop that performs it is
 * SystemContext.ApicIdToProcessorId in xen_system.dfy.
 */
module Madt {

  type Byte = b: int | 0 <= b < 0x100

  /** A value of a 32-bit register. */
  type Word = w: int | 0 <= w < 0x1_0000_0000

  /** sizeof (ACPI_MADT): the 36-byte table header, the local APIC address and the flags. */
  const MadtHeaderSize: nat := 44

  /** Interrupt controller structure type 0: Processor Local APIC (section 5.2.12.2). */
  const LocalApicType: Byte := 0

  // ---------------------------------------------------------------------
  // Little-endian words
  // ---------------------------------------------------------------------

  /** The 32-bit little-endian value stored at bytes [at, at + 4). */
  function U32At(b: seq<Byte>, at: nat): (w: Word)
    requires at + 4 <= |b|
  {
    (b[at] as int) + 0x100 * (b[at + 1] as int) + 0x1_0000 * (b[at + 2] as int) + 0x100_0000 * (b[at + 3] as int)
  }

  /** The four bytes of w, least significant first, as RtlCopyMemory lays out a ULONG. */
  function LeBytes(w: Word): (b: seq<Byte>)
    ensures |b| == 4
  {
    [w % 0x100, (w / 0x100) % 0x100, (w / 0x1_0000) % 0x100, w / 0x100_0000]
  }

  /** Reading back the bytes of a word gives the word. */
  lemma LeBytesRoundTrip(w: Word, prefix: seq<Byte>, suffix: seq<Byte>)
    ensures U32At(prefix + LeBytes(w) + suffix, |prefix|) == w
  {
    var b := prefix + LeBytes(w) + suffix;
    var p := |prefix|;
    assert b[p..p + 4] == LeBytes(w);
    var q1, q2 := w / 0x100, w / 0x1_0000;
    assert q2 == q1 / 0x100;
    assert w / 0x100_0000 == q2 / 0x100;
    assert w == w % 0x100 + 0x100 * q1;
    assert q1 == q1 % 0x100 + 0x100 * q2;
    assert q2 == q2 % 0x100 + 0x100 * (w / 0x100_0000);
  }

  // ---------------------------------------------------------------------
  // CPUID
  // ---------------------------------------------------------------------

  /**
   * The manufacturer string of CPUID leaf 0: the bytes of EBX, then EDX,
   * then ECX (the terminating NUL is not part of it).
   */
  function Vendor(ebx: Word, edx: Word, ecx: Word): (v: seq<Byte>)
    ensures |v| == 12
    ensures U32At(v, 0) == ebx && U32At(v, 4) == edx && U32At(v, 8) == ecx
  {
    LeBytesRoundTrip(ebx, [], LeBytes(edx) + LeBytes(ecx));
    assert LeBytes(ebx) + LeBytes(edx) + LeBytes(ecx) == [] + LeBytes(ebx) + (LeBytes(edx) + LeBytes(ecx));
    LeBytesRoundTrip(edx, LeBytes(ebx), LeBytes(ecx));
    LeBytesRoundTrip(ecx, LeBytes(ebx) + LeBytes(edx), []);
    assert LeBytes(ebx) + LeBytes(edx) + LeBytes(ecx) == LeBytes(ebx) + LeBytes(edx) + LeBytes(ecx) + [];
    LeBytes(ebx) + LeBytes(edx) + LeBytes(ecx)
  }

  /** The initial APIC id: bits 31..24 of EBX from CPUID leaf 1. */
  function ApicIdOf(ebx: Word): (id: Byte)
    ensures id * 0x100_0000 <= ebx < (id + 1) * 0x100_0000
  {
    ebx / 0x100_0000
  }

  // ---------------------------------------------------------------------
  // The walk over the interrupt controller structures
  // ---------------------------------------------------------------------

  /**
   * How the walk ends: the processor id of the first matching local APIC
   * record; no match (the driver bug-checks); a zero-length record that does
   * not match, on which the walk never advances; or a record that would be
   * read beyond the end of the buffer.
   */
  datatype LookupResult = Found(processorId: Byte) | NotFound | Stuck | Truncated

  /**
   * The walk from offset on, where end is the table's own Length field:
   * each record is skipped by its Length byte, and only local APIC records
   * (ProcessorID at +2, ApicID at +3) are compared with apicId.
   */
  function LookupFrom(madt: seq<Byte>, end: nat, offset: nat, apicId: Byte): LookupResult
    decreases end - offset
  {
    if offset >= end then NotFound
    else if offset + 2 > |madt| then Truncated
    else if madt[offset] == LocalApicType && offset + 4 > |madt| then Truncated
    else if madt[offset] == LocalApicType && madt[offset + 3] == apicId then Found(madt[offset + 2])
    else if madt[offset + 1] == 0 then Stuck
    else LookupFrom(madt, end, offset + madt[offset + 1], apicId)
  }

  /** SystemApicIDToProcessorID's walk over a whole table. */
  function Lookup(madt: seq<Byte>, apicId: Byte): LookupResult
  {
    if |madt| < 8 then Truncated
    else LookupFrom(madt, U32At(madt, 4), MadtHeaderSize, apicId)
  }

  /**
   * The walk as it is evidently meant to behave: a zero-length record that
   * does not match ends the walk as a missing record (so the driver
   * bug-checks) instead of leaving it at the same offset for ever.
   */
  function LookupFromChecked(madt: seq<Byte>, end: nat, offset: nat, apicId: Byte): (r: LookupResult)
    ensures r != Stuck
    decreases end - offset
  {
    if offset >= end then NotFound
    else if offset + 2 > |madt| then Truncated
    else if madt[offset] == LocalApicType && offset + 4 > |madt| then Truncated
    else if madt[offset] == LocalApicType && madt[offset + 3] == apicId then Found(madt[offset + 2])
    else if madt[offset + 1] == 0 then NotFound
    else LookupFromChecked(madt, end, offset + madt[offset + 1], apicId)
  }

  /** The corrected walk over a whole table. */
  function LookupChecked(madt: seq<Byte>, apicId: Byte): (r: LookupResult)
    ensures r != Stuck
  {
    if |madt| < 8 then Truncated
    else LookupFromChecked(madt, U32At(madt, 4), MadtHeaderSize, apicId)
  }

  /** The corrected walk answers as the walk as written wherever that one ends, and NotFound where it spins. */
  lemma {:induction false} LookupFromCheckedAgrees(madt: seq<Byte>, end: nat, offset: nat, apicId: Byte)
    ensures LookupFromChecked(madt, end, offset, apicId)
            == if LookupFrom(madt, end, offset, apicId) == Stuck then NotFound else LookupFrom(madt, end, offset, apicId)
    decreases end - offset
  {
    if offset < end && offset + 2 <= |madt| && !(madt[offset] == LocalApicType && offset + 4 > |madt|)
       && !(madt[offset] == LocalApicType && madt[offset + 3] == apicId) && madt[offset + 1] != 0
    {
      LookupFromCheckedAgrees(madt, end, offset + madt[offset + 1], apicId);
    }
  }

  /** The same agreement over a whole table. */
  lemma LookupCheckedAgrees(madt: seq<Byte>, apicId: Byte)
    ensures LookupChecked(madt, apicId)
            == if Lookup(madt, apicId) == Stuck then NotFound else Lookup(madt, apicId)
  {
    if |madt| >= 8 {
      LookupFromCheckedAgrees(madt, U32At(madt, 4), MadtHeaderSize, apicId);
    }
  }

  /** A table whose only record is a zero-length I/O APIC record (type 1). */
  const ZeroLengthRecordTable: seq<Byte> := [0x41, 0x50, 0x49, 0x43] + LeBytes(46) + seq(36, _ => 0) + [1, 0]

  /**
   * As written, the walk never leaves that record when looking for any
   * APIC id; the corrected walk reports the id as missing.
   */
  lemma ZeroLengthRecordSpins(apicId: Byte)
    ensures Lookup(ZeroLengthRecordTable, apicId) == Stuck
    ensures LookupChecked(ZeroLengthRecordTable, apicId) == NotFound
  {
    var t := ZeroLengthRecordTable;
    LeBytesRoundTrip(46, [0x41, 0x50, 0x49, 0x43], seq(36, _ => 0) + [1, 0]);
    assert t == [0x41, 0x50, 0x49, 0x43] + LeBytes(46) + (seq(36, _ => 0) + [1, 0]);
    assert |t| == 46 && t[44] == 1 && t[45] == 0;
  }

  // ---------------------------------------------------------------------
  // Tables built from records: an independent reading of the walk
  // ---------------------------------------------------------------------

  /** One interrupt controller structure: its Type, and the bytes after Type and Length. */
  datatype Record = Record(kind: Byte, body: seq<Byte>)

  /** A record whose Length byte can hold its size, with a full body when it is a local APIC. */
  predicate WellFormed(r: Record)
  {
    |r.body| + 2 < 0x100 && (r.kind == LocalApicType ==> |r.body| >= 2)
  }

  function EncodeRecord(r: Record): (b: seq<Byte>)
    requires WellFormed(r)
    ensures |b| == |r.body| + 2
  {
    [r.kind, |r.body| + 2] + r.body
  }

  function Encode(rs: seq<Record>): (b: seq<Byte>)
    requires forall i :: 0 <= i < |rs| ==> WellFormed(rs[i])
  {
    if rs == [] then [] else EncodeRecord(rs[0]) + Encode(rs[1..])
  }

  /** A whole table: the signature, the Length field, the rest of the header, then the records. */
  function Table(signature: seq<Byte>, rest: seq<Byte>, rs: seq<Record>): seq<Byte>
    requires |signature| == 4 && |rest| == MadtHeaderSize - 8
    requires forall i :: 0 <= i < |rs| ==> WellFormed(rs[i])
    requires MadtHeaderSize + |Encode(rs)| < 0x1_0000_0000
  {
    signature + LeBytes(MadtHeaderSize + |Encode(rs)|) + rest + Encode(rs)
  }

  /** The reference answer: the first local APIC record with the given APIC id. */
  function FirstMatch(rs: seq<Record>, apicId: Byte): (r: LookupResult)
    requires forall i :: 0 <= i < |rs| ==> WellFormed(rs[i])
    ensures r.Found? || r == NotFound
  {
    if rs == [] then NotFound
    else
      var r := rs[0];
      assert WellFormed(r);
      if r.kind == LocalApicType && r.body[1] == apicId then Found(r.body[0])
      else FirstMatch(rs[1..], apicId)
  }

  /** Walking encoded records that run up to end finds the first matching one. */
  lemma {:induction false} LookupFromEncoded(madt: seq<Byte>, offset: nat, rs: seq<Record>, apicId: Byte)
    requires forall i :: 0 <= i < |rs| ==> WellFormed(rs[i])
    requires offset + |Encode(rs)| <= |madt|
    requires madt[offset..offset + |Encode(rs)|] == Encode(rs)
    ensures LookupFrom(madt, offset + |Encode(rs)|, offset, apicId) == FirstMatch(rs, apicId)
    decreases |rs|
  {
    var end := offset + |Encode(rs)|;
    if rs != [] {
      var r := rs[0];
      var e := EncodeRecord(r);
      assert Encode(rs) == e + Encode(rs[1..]);
      assert madt[offset] == Encode(rs)[0] == r.kind;
      assert madt[offset + 1] == Encode(rs)[1] == |r.body| + 2;
      if r.kind == LocalApicType {
        assert madt[offset + 2] == Encode(rs)[2] == r.body[0];
        assert madt[offset + 3] == Encode(rs)[3] == r.body[1];
      }
      var next := offset + |e|;
      assert madt[next..next + |Encode(rs[1..])|] == Encode(rs)[|e|..];
      LookupFromEncoded(madt, next, rs[1..], apicId);
    }
  }

  /**
   * On a well-formed table the walk of SystemApicIDToProcessorID returns
   * the ProcessorID of the first local APIC record whose ApicID matches, and
   * reports no match exactly when there is none.
   */
  lemma LookupTable(signature: seq<Byte>, rest: seq<Byte>, rs: seq<Record>, apicId: Byte)
    requires |signature| == 4 && |rest| == MadtHeaderSize - 8
    requires forall i :: 0 <= i < |rs| ==> WellFormed(rs[i])
    requires MadtHeaderSize + |Encode(rs)| < 0x1_0000_0000
    ensures Lookup(Table(signature, rest, rs), apicId) == FirstMatch(rs, apicId)
  {
    var t := Table(signature, rest, rs);
    LeBytesRoundTrip(MadtHeaderSize + |Encode(rs)|, signature, rest + Encode(rs));
    assert t == signature + LeBytes(MadtHeaderSize + |Encode(rs)|) + (rest + Encode(rs));
    assert t[MadtHeaderSize..MadtHeaderSize + |Encode(rs)|] == Encode(rs);
    LookupFromEncoded(t, MadtHeaderSize, rs, apicId);
  }

  /** A found processor id belongs to a local APIC record that carries the requested APIC id. */
  lemma {:induction false} FoundIsMatch(madt: seq<Byte>, end: nat, offset: nat, apicId: Byte)
    requires LookupFrom(madt, end, offset, apicId).Found?
    ensures exists o :: offset <= o < end && o + 4 <= |madt|
              && madt[o] == LocalApicType && madt[o + 3] == apicId
              && madt[o + 2] == LookupFrom(madt, end, offset, apicId).processorId
    decreases end - offset
  {
    if !(madt[offset] == LocalApicType && madt[offset + 3] == apicId) {
      FoundIsMatch(madt, end, offset + madt[offset + 1], apicId);
    }
  }

  /** On a well-formed table the corrected walk, too, finds the first matching local APIC record. */
  lemma LookupCheckedTable(signature: seq<Byte>, rest: seq<Byte>, rs: seq<Record>, apicId: Byte)
    requires |signature| == 4 && |rest| == MadtHeaderSize - 8
    requires forall i :: 0 <= i < |rs| ==> WellFormed(rs[i])
    requires MadtHeaderSize + |Encode(rs)| < 0x1_0000_0000
    ensures LookupChecked(Table(signature, rest, rs), apicId) == FirstMatch(rs, apicId)
  {
    LookupTable(signature, rest, rs, apicId);
    LookupCheckedAgrees(Table(signature, rest, rs), apicId);
  }
}
