/** Values shared by the kernel-mode drivers: optional values and NTSTATUS codes. */
module Nt {

  datatype Option<+T> = None | Some(value: T)

  /** A 32-bit NTSTATUS value, read as unsigned. */
  type NtStatus = s: int | 0 <= s < 0x1_0000_0000

  /** An NTSTATUS for which NT_SUCCESS is false. */
  type FailureStatus = s: NtStatus | 0x8000_0000 <= s witness 0xC000_0001

  const StatusSuccess: NtStatus := 0
  const StatusBufferOverflow: NtStatus := 0x8000_0005
  const StatusUnsuccessful: NtStatus := 0xC000_0001
  const StatusNoSuchDevice: NtStatus := 0xC000_000E
  const StatusNoMemory: NtStatus := 0xC000_0017
  const StatusObjectIdExists: NtStatus := 0xC000_002B
  const StatusObjectNameNotFound: NtStatus := 0xC000_0034
  const StatusNotSupported: NtStatus := 0xC000_00BB
  const StatusIncompatibleDriverBlocked: NtStatus := 0xC000_0424

  /** NT_SUCCESS: the status is not negative when read as a signed 32-bit value. */
  predicate NtSuccess(s: NtStatus) {
    s < 0x8000_0000
  }
}
