/**
 * The XENBUS co-installer, which SetupAPI calls around the installation and
 * removal of the XEN PV bus device.
 *
 * Before installation it refuses to proceed when the legacy platform PCI
 * device is bound to a driver that is not this product's bus driver, or when
 * an existing XENBUS child device is bound to a driver whose MatchingDeviceId
 * revision is not in the revision table. After installation it requests a
 * reboot when the XEN or XENBUS service has set its NeedReboot flag.
 *
 * The registry is a value: a map from key paths below HKEY_LOCAL_MACHINE to
 * keys, where each key holds its subkey names in enumeration order and its
 * typed values. An open key handle is the path it was opened at. The
 * co-installer only reads the registry. The product name and the revision
 * table are build-time constants; here they are inputs.
 */
module CoInstaller {
  import opened Nt

  // ---------------------------------------------------------------------
  // Win32 values
  // ---------------------------------------------------------------------

  type Dword = d: int | 0 <= d < 0x1_0000_0000

  /** A Win32 error code other than NO_ERROR. */
  type ErrorCode = e: Dword | e != 0 witness 2

  const NoError: Dword := 0
  const ErrorFileNotFound: ErrorCode := 2
  const ErrorAccessDenied: ErrorCode := 5
  const ErrorBadFormat: ErrorCode := 11
  const ErrorMoreData: ErrorCode := 234
  const ErrorInstallFailure: ErrorCode := 1603
  const ErrorDiPostprocessingRequired: ErrorCode := 0xE000_0230

  /** A result, or the error a failing call leaves for GetLastError. */
  datatype Outcome<+T> = Ok(value: T) | Fail(error: ErrorCode)

  /**
   * The result of a BOOLEAN check: TRUE, FALSE with the last error, or
   * Aborted when an assertion on the way stops the co-installer, so that
   * the check returns nothing at all.
   */
  datatype Check = Passed | Failed(error: ErrorCode) | Aborted

  // ---------------------------------------------------------------------
  // The registry
  // ---------------------------------------------------------------------

  type Path = seq<string>

  /** A registry value: REG_SZ text, a REG_DWORD, or data of any other type and its size in bytes. */
  datatype RegValue = Sz(text: string) | DwordValue(number: Dword) | OtherValue(size: nat)

  /** The bytes a value occupies: a REG_SZ includes its terminating NUL. */
  function ValueSize(v: RegValue): nat
  {
    match v
    case Sz(text) => |text| + 1
    case DwordValue(_) => 4
    case OtherValue(size) => size
  }

  datatype Key = Key(subkeys: seq<string>, values: map<string, RegValue>)

  /** The keys that exist, and those that exist or not but may not be opened for reading. */
  datatype Registry = Registry(keys: map<Path, Key>, denied: set<Path>)

  const EnumKey: Path := ["SYSTEM", "CurrentControlSet", "Enum"]
  const ClassKey: Path := ["SYSTEM", "CurrentControlSet", "Control", "Class"]
  const ServicesKey: Path := ["SYSTEM", "CurrentControlSet", "Services"]

  /** RegOpenKeyEx with KEY_READ. */
  function OpenKey(reg: Registry, path: Path): (r: Outcome<Path>)
    ensures r.Ok? ==> r.value == path && path in reg.keys
  {
    if path in reg.denied then Fail(ErrorAccessDenied)
    else if path in reg.keys then Ok(path)
    else Fail(ErrorFileNotFound)
  }

  /** RegQueryValueEx into a buffer sized from the key's longest value, so every value fits. */
  function QueryValue(reg: Registry, key: Path, name: string): Outcome<RegValue>
    requires key in reg.keys
  {
    if name in reg.keys[key].values then Ok(reg.keys[key].values[name])
    else Fail(ErrorFileNotFound)
  }

  /** RegQueryValueEx into a buffer of capacity bytes. */
  function QueryValueInto(reg: Registry, key: Path, name: string, capacity: nat): Outcome<RegValue>
    requires key in reg.keys
  {
    match QueryValue(reg, key, name)
    case Fail(e) => Fail(e)
    case Ok(v) => if ValueSize(v) > capacity then Fail(ErrorMoreData) else Ok(v)
  }

  /** OpenBusKey: the Enum key, then the bus below it. */
  function OpenBusKey(reg: Registry, bus: string): Outcome<Path>
  {
    match OpenKey(reg, EnumKey)
    case Fail(e) => Fail(e)
    case Ok(enum) => OpenKey(reg, enum + [bus])
  }

  /** OpenDeviceKey: a device key below a bus key. */
  function OpenDeviceKey(reg: Registry, bus: string, device: string): Outcome<Path>
  {
    match OpenBusKey(reg, bus)
    case Fail(e) => Fail(e)
    case Ok(busKey) => OpenKey(reg, busKey + [device])
  }

  /** OpenDriverKey: a driver key below the Class key. */
  function OpenDriverKey(reg: Registry, driver: string): Outcome<Path>
  {
    match OpenKey(reg, ClassKey)
    case Fail(e) => Fail(e)
    case Ok(classKey) => OpenKey(reg, classKey + [driver])
  }

  // ---------------------------------------------------------------------
  // GetErrorMessage: the message is cut at its first line break
  // ---------------------------------------------------------------------

  predicate EndsLine(c: char)
  {
    c == '\0' || c == '\r' || c == '\n'
  }

  /** The index of the first NUL, CR or LF of a NUL-terminated buffer. */
  function StopIndex(b: seq<char>): (k: nat)
    requires '\0' in b
    ensures k < |b| && EndsLine(b[k])
    ensures forall i :: 0 <= i < k ==> !EndsLine(b[i])
  {
    if EndsLine(b[0]) then 0
    else
      assert '\0' in b[1..] by {
        var j :| 0 <= j < |b| && b[j] == '\0';
        assert b[1..][j - 1] == '\0';
      }
      1 + StopIndex(b[1..])
  }

  /** The C string a buffer holds: its characters before the first NUL. */
  function CString(b: seq<char>): string
  {
    if b == [] || b[0] == '\0' then [] else [b[0]] + CString(b[1..])
  }

  /** The first line of a text: the longest prefix holding no CR and no LF. */
  function FirstLine(s: string): (line: string)
    ensures line <= s
    ensures '\r' !in line && '\n' !in line
    ensures line == s || s[|line|] == '\r' || s[|line|] == '\n'
  {
    if s == [] || s[0] == '\r' || s[0] == '\n' then []
    else
      var rest := FirstLine(s[1..]);
      assert s == [s[0]] + s[1..];
      [s[0]] + rest
  }

  /**
   * GetErrorMessage's loop over the buffer FormatMessage filled: the first
   * CR or LF before the terminating NUL is overwritten by a NUL, and nothing
   * else changes.
   */
  method TruncateMessage(message: array<char>)
    requires '\0' in message[..]
    modifies message
    ensures message[..] == old(message[..])[StopIndex(old(message[..])) := '\0']
  {
    ghost var b := message[..];
    ghost var k := StopIndex(b);
    var index := 0;
    while message[index] != '\0'
      invariant index <= k
      invariant message[..] == b
      decreases k - index
    {
      if message[index] == '\r' || message[index] == '\n' {
        message[index] := '\0';
        return;
      }
      index := index + 1;
    }
  }

  /** The truncated message reads as the first line of the original one. */
  lemma {:induction false} TruncatedMessageIsFirstLine(b: seq<char>)
    requires '\0' in b
    ensures CString(b[StopIndex(b) := '\0']) == FirstLine(CString(b))
  {
    var k := StopIndex(b);
    if !EndsLine(b[0]) {
      assert '\0' in b[1..] by {
        var j :| 0 <= j < |b| && b[j] == '\0';
        assert b[1..][j - 1] == '\0';
      }
      TruncatedMessageIsFirstLine(b[1..]);
      assert b[k := '\0'][1..] == b[1..][k - 1 := '\0'];
    }
  }

  // ---------------------------------------------------------------------
  // SupportDeviceID: the REV_ suffix of a device id and the revision table
  // ---------------------------------------------------------------------

  /** What strrchr(id, '&') + 1 points at: the text after the last '&'. */
  function AfterLastAmpersand(id: string): (s: string)
    requires '&' in id
    ensures |s| < |id| && id[|id| - |s| - 1] == '&'
    ensures s == id[|id| - |s|..] && '&' !in s
  {
    if id[|id| - 1] == '&' then []
    else
      var front := id[..|id| - 1];
      assert '&' in front by {
        var j :| 0 <= j < |id| && id[j] == '&';
        assert front[j] == '&';
      }
      var s := AfterLastAmpersand(front);
      assert id == front + [id[|id| - 1]];
      s + [id[|id| - 1]]
  }

  /** The text after an '&' that is followed by no other '&'. */
  lemma {:induction false} AfterLastAmpersandOf(prefix: string, tail: string)
    requires '&' !in tail
    ensures AfterLastAmpersand(prefix + "&" + tail) == tail
    decreases |tail|
  {
    var id := prefix + "&" + tail;
    if tail != [] {
      var front := tail[..|tail| - 1];
      assert id[..|id| - 1] == prefix + "&" + front;
      assert id[|id| - 1] == tail[|tail| - 1];
      AfterLastAmpersandOf(prefix, front);
      assert tail == front + [tail[|tail| - 1]];
    }
  }

  predicate IsHexDigit(c: char)
  {
    '0' <= c <= '9' || 'a' <= c <= 'f' || 'A' <= c <= 'F'
  }

  function DigitValue(c: char): (d: nat)
    requires IsHexDigit(c)
    ensures d < 16
  {
    if '0' <= c <= '9' then c as int - '0' as int
    else if 'a' <= c <= 'f' then c as int - 'a' as int + 10
    else c as int - 'A' as int + 10
  }

  function Pow16(n: nat): (p: nat)
    ensures p >= 1
  {
    if n == 0 then 1 else 16 * Pow16(n - 1)
  }

  lemma Pow16Bound(n: nat)
    requires n <= 8
    ensures Pow16(n) <= Pow16(8) == 0x1_0000_0000
    decreases 8 - n
  {
    if n < 8 {
      Pow16Bound(n + 1);
    }
  }

  /** The number a run of hexadecimal digits denotes, most significant first. */
  function HexValue(digits: string): (v: nat)
    requires forall i :: 0 <= i < |digits| ==> IsHexDigit(digits[i])
    ensures v < Pow16(|digits|)
  {
    if digits == [] then 0
    else
      var h := HexValue(digits[..|digits| - 1]);
      assert 16 * h <= 16 * (Pow16(|digits| - 1) - 1);
      16 * h + DigitValue(digits[|digits| - 1])
  }

  /** How many characters %<width>x consumes: the hexadecimal digits at the front, at most width of them. */
  function HexRun(s: string, width: nat): (n: nat)
    ensures n <= width && n <= |s|
    ensures forall i :: 0 <= i < n ==> IsHexDigit(s[i])
    ensures n < width && n < |s| ==> !IsHexDigit(s[n])
  {
    if width == 0 || s == [] || !IsHexDigit(s[0]) then 0
    else 1 + HexRun(s[1..], width - 1)
  }

  /**
   * sscanf_s(text, "REV_%8x", &Revision): the revision when the text starts
   * with REV_ followed by at least one hexadecimal digit, of which at most
   * eight are read; whatever follows is ignored.
   */
  function ParseRevision(text: string): (r: Option<Dword>)
    ensures r.Some? <==> |text| > 4 && text[..4] == "REV_" && IsHexDigit(text[4])
  {
    if |text| < 4 || text[..4] != "REV_" then None
    else
      var n := HexRun(text[4..], 8);
      if n == 0 then None
      else
        var v := HexValue(text[4..4 + n]);
        Pow16Bound(n);
        Some(v)
  }

  function HexDigit(d: nat): (c: char)
    requires d < 16
    ensures IsHexDigit(c) && DigitValue(c) == d && !('a' <= c <= 'z')
  {
    if d < 10 then ('0' as int + d) as char else ('A' as int + d - 10) as char
  }

  /** v as n upper-case hexadecimal digits, most significant first. */
  function HexDigits(v: nat, n: nat): (s: string)
    requires v < Pow16(n)
    ensures |s| == n
    ensures forall i :: 0 <= i < n ==> IsHexDigit(s[i]) && !('a' <= s[i] <= 'z')
  {
    if n == 0 then []
    else HexDigits(v / 16, n - 1) + [HexDigit(v % 16)]
  }

  /** A revision as a hardware id spells it: REV_ and width hexadecimal digits. */
  function FormatRevision(revision: Dword, width: nat): (s: string)
    requires 1 <= width <= 8 && revision < Pow16(width)
    ensures |s| == 4 + width && '&' !in s
  {
    "REV_" + HexDigits(revision, width)
  }

  lemma {:induction false} HexDigitsValue(v: nat, n: nat)
    requires v < Pow16(n)
    ensures HexValue(HexDigits(v, n)) == v
  {
    if n > 0 {
      var s := HexDigits(v, n);
      HexDigitsValue(v / 16, n - 1);
      assert s[..n - 1] == HexDigits(v / 16, n - 1);
    }
  }

  lemma {:induction false} HexRunOfDigits(digits: string, rest: string, width: nat)
    requires |digits| <= width
    requires forall i :: 0 <= i < |digits| ==> IsHexDigit(digits[i])
    requires |digits| == width || rest == [] || !IsHexDigit(rest[0])
    ensures HexRun(digits + rest, width) == |digits|
  {
    if digits != [] {
      assert (digits + rest)[1..] == digits[1..] + rest;
      HexRunOfDigits(digits[1..], rest, width - 1);
    } else if width > 0 && rest != [] {
      assert (digits + rest)[0] == rest[0];
    }
  }

  /**
   * The revision scan reads back a formatted revision whatever follows it,
   * provided a shorter than eight-digit revision is not followed by a
   * further hexadecimal digit.
   */
  lemma ParseFormattedRevision(revision: Dword, width: nat, rest: string)
    requires 1 <= width <= 8 && revision < Pow16(width)
    requires width == 8 || rest == [] || !IsHexDigit(rest[0])
    ensures ParseRevision(FormatRevision(revision, width) + rest) == Some(revision)
  {
    var digits := HexDigits(revision, width);
    var text := FormatRevision(revision, width) + rest;
    assert text[..4] == "REV_";
    assert text[4..] == digits + rest;
    HexRunOfDigits(digits, rest, 8);
    assert text[4..4 + width] == digits;
    HexDigitsValue(revision, width);
  }

  /** SupportDeviceID's verdict on a device id; an id without an '&' trips its assertion. */
  function DeviceIdVerdict(revisions: seq<Dword>, deviceId: string): Check
  {
    if '&' !in deviceId then Aborted
    else
    match ParseRevision(AfterLastAmpersand(deviceId))
    case None => Failed(ErrorBadFormat)
    case Some(revision) => if revision in revisions then Passed else Failed(ErrorFileNotFound)
  }

  /**
   * A device id is supported exactly when the text after its last '&' scans
   * as a revision in the table; text that does not scan is ERROR_BAD_FORMAT
   * and a revision missing from the table is ERROR_FILE_NOT_FOUND; an id
   * with no '&' at all stops the co-installer.
   */
  lemma DeviceIdVerdictOutcomes(revisions: seq<Dword>, deviceId: string)
    ensures DeviceIdVerdict(revisions, deviceId) == Aborted <==> '&' !in deviceId
    ensures '&' in deviceId ==>
            var parsed := ParseRevision(AfterLastAmpersand(deviceId));
            var r := DeviceIdVerdict(revisions, deviceId);
            && (r == Passed <==> parsed.Some? && parsed.value in revisions)
            && (r == Failed(ErrorBadFormat) <==> parsed.None?)
            && (r == Failed(ErrorFileNotFound) <==> parsed.Some? && parsed.value !in revisions)
  {
  }

  /** A device id ending in &REV_xx is supported exactly when xx is in the table. */
  lemma FormattedDeviceIdVerdict(revisions: seq<Dword>, prefix: string, revision: Dword, width: nat)
    requires 1 <= width <= 8 && revision < Pow16(width)
    ensures '&' in prefix + "&" + FormatRevision(revision, width)
    ensures DeviceIdVerdict(revisions, prefix + "&" + FormatRevision(revision, width))
            == if revision in revisions then Passed else Failed(ErrorFileNotFound)
  {
    var id := prefix + "&" + FormatRevision(revision, width);
    assert id[|prefix|] == '&';
    AfterLastAmpersandOf(prefix, FormatRevision(revision, width));
    ParseFormattedRevision(revision, width, []);
    assert FormatRevision(revision, width) + [] == FormatRevision(revision, width);
  }

  /** SupportDeviceID: scan the revision, then search the table for it. */
  method SupportDeviceID(revisions: seq<Dword>, deviceId: string) returns (r: Check)
    ensures r == DeviceIdVerdict(revisions, deviceId)
  {
    if '&' !in deviceId {
      return Aborted;
    }
    var text := AfterLastAmpersand(deviceId);
    var parsed := ParseRevision(text);
    if parsed.None? {
      return Failed(ErrorBadFormat);
    }
    var revision := parsed.value;
    var index := 0;
    while index < |revisions|
      invariant index <= |revisions|
      invariant revision !in revisions[..index]
    {
      if revision == revisions[index] {
        return Passed;
      }
      index := index + 1;
    }
    assert revisions[..index] == revisions;
    return Failed(ErrorFileNotFound);
  }

  // ---------------------------------------------------------------------
  // GetMatchingDeviceID: the driver's MatchingDeviceId, upper-cased
  // ---------------------------------------------------------------------

  /** toupper in the C locale. */
  function ToUpper(c: char): char
  {
    if 'a' <= c <= 'z' then (c as int - 32) as char else c
  }

  function Upper(s: string): string
  {
    seq(|s|, i requires 0 <= i < |s| => ToUpper(s[i]))
  }

  /**
   * Upper-casing keeps the length, leaves no lower-case letter, changes
   * nothing else, is idempotent and distributes over concatenation.
   */
  lemma UpperProperties(s: string, t: string)
    ensures |Upper(s)| == |s|
    ensures forall i :: 0 <= i < |s| ==> !('a' <= Upper(s)[i] <= 'z')
    ensures forall i :: 0 <= i < |s| && !('a' <= s[i] <= 'z') ==> Upper(s)[i] == s[i]
    ensures Upper(Upper(s)) == Upper(s)
    ensures Upper(s + t) == Upper(s) + Upper(t)
    ensures '&' in Upper(s) <==> '&' in s
  {
    if '&' in s {
      var j :| 0 <= j < |s| && s[j] == '&';
      assert Upper(s)[j] == '&';
    }
  }

  /** GetMatchingDeviceID's result: the REG_SZ MatchingDeviceId value, upper-cased. */
  function MatchingDeviceId(reg: Registry, driver: Path): Outcome<string>
    requires driver in reg.keys
  {
    match QueryValue(reg, driver, "MatchingDeviceId")
    case Fail(e) => Fail(e)
    case Ok(v) => if v.Sz? then Ok(Upper(v.text)) else Fail(ErrorBadFormat)
  }

  /**
   * A missing value is the query's error, a value of another type is
   * ERROR_BAD_FORMAT, and a REG_SZ value comes back upper-cased.
   */
  lemma MatchingDeviceIdOutcomes(reg: Registry, driver: Path)
    requires driver in reg.keys
    ensures var values := reg.keys[driver].values;
            var r := MatchingDeviceId(reg, driver);
            && (r == Fail(ErrorFileNotFound) <==> "MatchingDeviceId" !in values)
            && (r == Fail(ErrorBadFormat) <==> "MatchingDeviceId" in values && !values["MatchingDeviceId"].Sz?)
            && (r.Ok? <==> "MatchingDeviceId" in values && values["MatchingDeviceId"].Sz?)
            && (r.Ok? ==> r.value == Upper(values["MatchingDeviceId"].text)
                          && forall i :: 0 <= i < |r.value| ==> !('a' <= r.value[i] <= 'z'))
  {
    var values := reg.keys[driver].values;
    if "MatchingDeviceId" in values && values["MatchingDeviceId"].Sz? {
      UpperProperties(values["MatchingDeviceId"].text, []);
    }
  }

  /** GetMatchingDeviceID: read the value, then upper-case its buffer in place. */
  method GetMatchingDeviceID(reg: Registry, driver: Path) returns (r: Outcome<string>)
    requires driver in reg.keys
    ensures r == MatchingDeviceId(reg, driver)
  {
    var value := QueryValue(reg, driver, "MatchingDeviceId");
    if value.Fail? {
      return Fail(value.error);
    }
    if !value.value.Sz? {
      return Fail(ErrorBadFormat);
    }
    var text := value.value.text;
    var buffer := new char[|text|](i requires 0 <= i < |text| => text[i]);
    var index := 0;
    while index < buffer.Length
      invariant index <= buffer.Length
      invariant forall i :: 0 <= i < index ==> buffer[i] == ToUpper(text[i])
      invariant forall i :: index <= i < buffer.Length ==> buffer[i] == text[i]
    {
      buffer[index] := ToUpper(buffer[index]);
      index := index + 1;
    }
    assert buffer[..] == Upper(text);
    return Ok(buffer[..]);
  }

  // ---------------------------------------------------------------------
  // GetDeviceKeyName and GetDriverKeyName: searches over subkeys
  // ---------------------------------------------------------------------

  /** The first name, in enumeration order, that starts with prefix. */
  function FirstWithPrefix(names: seq<string>, prefix: string): (r: Option<string>)
    ensures r.None? <==> forall i :: 0 <= i < |names| ==> !(prefix <= names[i])
    ensures r.Some? ==> exists i :: 0 <= i < |names| && names[i] == r.value && prefix <= names[i]
                          && forall j :: 0 <= j < i ==> !(prefix <= names[j])
  {
    if names == [] then None
    else if prefix <= names[0] then Some(names[0])
    else
      var r := FirstWithPrefix(names[1..], prefix);
      assert forall i :: 1 <= i < |names| ==> names[i] == names[1..][i - 1];
      r
  }

  /** GetDeviceKeyName's result: the bus key's first subkey starting with prefix, if any. */
  function DeviceKeyName(reg: Registry, bus: string, prefix: string): Outcome<Option<string>>
  {
    match OpenBusKey(reg, bus)
    case Fail(e) => Fail(e)
    case Ok(busKey) => Ok(FirstWithPrefix(reg.keys[busKey].subkeys, prefix))
  }

  /** GetDeviceKeyName: enumerate the bus key's subkeys and stop at the first whose name starts with prefix. */
  method GetDeviceKeyName(reg: Registry, bus: string, prefix: string) returns (r: Outcome<Option<string>>)
    ensures r == DeviceKeyName(reg, bus, prefix)
  {
    var busKey := OpenBusKey(reg, bus);
    if busKey.Fail? {
      return Fail(busKey.error);
    }
    var subkeys := reg.keys[busKey.value].subkeys;
    var index := 0;
    while index < |subkeys|
      invariant index <= |subkeys|
      invariant FirstWithPrefix(subkeys[index..], prefix) == FirstWithPrefix(subkeys, prefix)
    {
      if prefix <= subkeys[index] {
        return Ok(Some(subkeys[index]));
      }
      assert subkeys[index..][1..] == subkeys[index + 1..];
      index := index + 1;
    }
    return Ok(None);
  }

  /** The Driver value of a device instance key, when the key opens and the value is a REG_SZ. */
  function InstanceDriver(reg: Registry, device: Path, instance: string): Option<string>
  {
    match OpenKey(reg, device + [instance])
    case Fail(_) => None
    case Ok(key) =>
      match QueryValue(reg, key, "Driver")
      case Ok(Sz(name)) => Some(name)
      case _ => None
  }

  /** The first instance, in enumeration order, that names its driver. */
  function FirstDriver(reg: Registry, device: Path, instances: seq<string>): (r: Option<string>)
    ensures r.None? <==> forall i :: 0 <= i < |instances| ==> InstanceDriver(reg, device, instances[i]).None?
    ensures r.Some? ==> exists i :: 0 <= i < |instances| && InstanceDriver(reg, device, instances[i]) == r
                          && forall j :: 0 <= j < i ==> InstanceDriver(reg, device, instances[j]).None?
  {
    if instances == [] then None
    else if InstanceDriver(reg, device, instances[0]).Some? then InstanceDriver(reg, device, instances[0])
    else
      var r := FirstDriver(reg, device, instances[1..]);
      assert forall i :: 1 <= i < |instances| ==> instances[i] == instances[1..][i - 1];
      r
  }

  /**
   * GetDriverKeyName: enumerate the device key's instances, skip those that
   * cannot be opened or hold no REG_SZ Driver value, and stop at the first
   * that holds one.
   */
  method GetDriverKeyName(reg: Registry, device: Path) returns (name: Option<string>)
    requires device in reg.keys
    ensures name == FirstDriver(reg, device, reg.keys[device].subkeys)
  {
    var instances := reg.keys[device].subkeys;
    var index := 0;
    while index < |instances|
      invariant index <= |instances|
      invariant FirstDriver(reg, device, instances[index..]) == FirstDriver(reg, device, instances)
    {
      var instance := OpenKey(reg, device + [instances[index]]);
      if instance.Ok? {
        var driver := QueryValue(reg, instance.value, "Driver");
        if driver.Ok? && driver.value.Sz? {
          return Some(driver.value.text);
        }
      }
      assert instances[index..][1..] == instances[index + 1..];
      index := index + 1;
    }
    return None;
  }

  // ---------------------------------------------------------------------
  // MatchExistingDriver
  // ---------------------------------------------------------------------

  const XenPlatformDevice: string := "VEN_5853&DEV_0001"
  const XenServerPlatformDevice: string := "VEN_5853&DEV_0002"
  const PvBusSuffix: string := " PV Bus"

  /** The legacy platform device: the first DEV_0001 device, else the first DEV_0002 device. */
  function PlatformDevice(reg: Registry): Outcome<Option<string>>
  {
    match DeviceKeyName(reg, "PCI", XenPlatformDevice)
    case Fail(e) => Fail(e)
    case Ok(Some(name)) => Ok(Some(name))
    case Ok(None) => DeviceKeyName(reg, "PCI", XenServerPlatformDevice)
  }

  /** The strncmp against the product name, then the strcmp of the rest against " PV Bus". */
  predicate IsPvBusDescription(text: string, product: string)
  {
    |text| >= |product| && text[..|product|] == product && text[|product|..] == PvBusSuffix
  }

  /** The two comparisons accept exactly the product name followed by " PV Bus". */
  lemma PvBusDescriptionIff(text: string, product: string)
    ensures IsPvBusDescription(text, product) <==> text == product + PvBusSuffix
  {
    if text == product + PvBusSuffix {
      assert text[..|product|] == product;
    }
    if IsPvBusDescription(text, product) {
      assert text == text[..|product|] + text[|product|..];
    }
  }

  /** The verdict on the DriverDesc value of the bound driver's key. */
  function DescriptionVerdict(desc: Outcome<RegValue>, product: string): Check
  {
    match desc
    case Fail(e) => if e == ErrorFileNotFound then Passed else Failed(e)
    case Ok(v) =>
      if !v.Sz? then Failed(ErrorBadFormat)
      else if !IsPvBusDescription(v.text, product) then Failed(ErrorInstallFailure)
      else Passed
  }

  /**
   * A missing DriverDesc passes; a present one passes exactly when it is a
   * REG_SZ reading the product name followed by " PV Bus"; a value of another
   * type is ERROR_BAD_FORMAT and any other text ERROR_INSTALL_FAILURE.
   */
  lemma DescriptionVerdictOutcomes(desc: Outcome<RegValue>, product: string)
    ensures desc == Fail(ErrorFileNotFound) ==> DescriptionVerdict(desc, product) == Passed
    ensures desc.Ok? ==>
              && (DescriptionVerdict(desc, product) == Passed <==> desc.value == Sz(product + PvBusSuffix))
              && (DescriptionVerdict(desc, product) == Failed(ErrorBadFormat) <==> !desc.value.Sz?)
              && ((DescriptionVerdict(desc, product) == Failed(ErrorInstallFailure))
                    <==> desc.value.Sz? && desc.value.text != product + PvBusSuffix)
  {
    if desc.Ok? && desc.value.Sz? {
      PvBusDescriptionIff(desc.value.text, product);
    }
  }

  /** The verdict once the platform device's key is open: the description of the driver bound to it. */
  function BoundDriverVerdict(reg: Registry, device: Path, product: string): Check
    requires device in reg.keys
  {
    match FirstDriver(reg, device, reg.keys[device].subkeys)
    case None => Passed
    case Some(driverName) =>
      match OpenDriverKey(reg, driverName)
      case Fail(_) => Passed
      case Ok(driver) => DescriptionVerdict(QueryValue(reg, driver, "DriverDesc"), product)
  }

  /** MatchExistingDriver's verdict. */
  function ExistingDriverVerdict(reg: Registry, product: string): Check
  {
    match PlatformDevice(reg)
    case Fail(e) => Failed(e)
    case Ok(None) => Passed
    case Ok(Some(name)) =>
      match OpenDeviceKey(reg, "PCI", name)
      case Fail(e) => Failed(e)
      case Ok(device) => BoundDriverVerdict(reg, device, product)
  }

  /** With no legacy platform device on the PCI bus there is nothing to check. */
  lemma NoPlatformDevicePasses(reg: Registry, product: string)
    requires OpenBusKey(reg, "PCI").Ok?
    requires forall i :: 0 <= i < |reg.keys[OpenBusKey(reg, "PCI").value].subkeys| ==>
               var name := reg.keys[OpenBusKey(reg, "PCI").value].subkeys[i];
               !(XenPlatformDevice <= name) && !(XenServerPlatformDevice <= name)
    ensures ExistingDriverVerdict(reg, product) == Passed
  {
  }

  /** A DEV_0001 device is examined in preference to any DEV_0002 device, whatever their order. */
  lemma XenPlatformDeviceFirst(reg: Registry, name: string)
    requires OpenBusKey(reg, "PCI").Ok?
    requires name in reg.keys[OpenBusKey(reg, "PCI").value].subkeys && XenPlatformDevice <= name
    ensures PlatformDevice(reg).Ok? && PlatformDevice(reg).value.Some?
    ensures XenPlatformDevice <= PlatformDevice(reg).value.value
  {
    var subkeys := reg.keys[OpenBusKey(reg, "PCI").value].subkeys;
    var i :| 0 <= i < |subkeys| && subkeys[i] == name;
    assert !(forall j :: 0 <= j < |subkeys| ==> !(XenPlatformDevice <= subkeys[j]));
  }

  /**
   * A platform device whose bound driver cannot be opened, or whose driver
   * key has no DriverDesc, passes.
   */
  lemma UnreadableDriverPasses(reg: Registry, product: string, device: Path, driverName: string)
    requires PlatformDevice(reg).Ok? && PlatformDevice(reg).value.Some?
    requires OpenDeviceKey(reg, "PCI", PlatformDevice(reg).value.value) == Ok(device)
    requires FirstDriver(reg, device, reg.keys[device].subkeys) == Some(driverName)
    requires OpenDriverKey(reg, driverName).Fail?
             || "DriverDesc" !in reg.keys[OpenDriverKey(reg, driverName).value].values
    ensures ExistingDriverVerdict(reg, product) == Passed
  {
  }

  /** MatchExistingDriver: find the platform device, its bound driver, and check the driver's description. */
  method MatchExistingDriver(reg: Registry, product: string) returns (r: Check)
    ensures r == ExistingDriverVerdict(reg, product)
  {
    var device := GetDeviceKeyName(reg, "PCI", XenPlatformDevice);
    if device.Ok? && device.value.None? {
      device := GetDeviceKeyName(reg, "PCI", XenServerPlatformDevice);
    }
    if device.Fail? {
      return Failed(device.error);
    }
    if device.value.None? {
      return Passed;
    }
    var deviceKey := OpenDeviceKey(reg, "PCI", device.value.value);
    if deviceKey.Fail? {
      return Failed(deviceKey.error);
    }
    var driverName := GetDriverKeyName(reg, deviceKey.value);
    if driverName.None? {
      return Passed;
    }
    var driverKey := OpenDriverKey(reg, driverName.value);
    if driverKey.Fail? {
      return Passed;
    }
    var desc := QueryValue(reg, driverKey.value, "DriverDesc");
    if desc.Fail? {
      if desc.error == ErrorFileNotFound {
        return Passed;
      }
      return Failed(desc.error);
    }
    if !desc.value.Sz? {
      return Failed(ErrorBadFormat);
    }
    var text := desc.value.text;
    if !(|text| >= |product| && text[..|product|] == product) {
      return Failed(ErrorInstallFailure);
    }
    if text[|product|..] != PvBusSuffix {
      return Failed(ErrorInstallFailure);
    }
    return Passed;
  }

  // ---------------------------------------------------------------------
  // SupportChildDrivers
  // ---------------------------------------------------------------------

  /** The verdict on one XENBUS child device. */
  function ChildVerdict(reg: Registry, revisions: seq<Dword>, child: string): Check
  {
    match OpenDeviceKey(reg, "XENBUS", child)
    case Fail(e) => Failed(e)
    case Ok(device) =>
      match FirstDriver(reg, device, reg.keys[device].subkeys)
      case None => Passed
      case Some(driverName) =>
        match OpenDriverKey(reg, driverName)
        case Fail(e) => Failed(e)
        case Ok(driver) =>
          match MatchingDeviceId(reg, driver)
          case Fail(e) => Failed(e)
          case Ok(id) => DeviceIdVerdict(revisions, id)
  }

  /** The first verdict that is not a pass, else a pass. */
  function FirstNotPassed(verdicts: seq<Check>): (r: Check)
    ensures r.Passed? <==> forall i :: 0 <= i < |verdicts| ==> verdicts[i].Passed?
    ensures !r.Passed? ==> exists i :: 0 <= i < |verdicts| && verdicts[i] == r
                                       && forall j :: 0 <= j < i ==> verdicts[j].Passed?
  {
    if verdicts == [] then Passed
    else if !verdicts[0].Passed? then verdicts[0]
    else
      var r := FirstNotPassed(verdicts[1..]);
      assert forall i :: 1 <= i < |verdicts| ==> verdicts[i] == verdicts[1..][i - 1];
      r
  }

  /** The verdict on each child, in enumeration order. */
  function ChildVerdicts(reg: Registry, revisions: seq<Dword>, children: seq<string>): (v: seq<Check>)
    ensures |v| == |children|
  {
    if children == [] then [] else [ChildVerdict(reg, revisions, children[0])] + ChildVerdicts(reg, revisions, children[1..])
  }

  /** The verdict at position i is the verdict on child i. */
  lemma {:induction false} ChildVerdictsAt(reg: Registry, revisions: seq<Dword>, children: seq<string>, i: nat)
    requires i < |children|
    ensures ChildVerdicts(reg, revisions, children)[i] == ChildVerdict(reg, revisions, children[i])
  {
    if i > 0 {
      ChildVerdictsAt(reg, revisions, children[1..], i - 1);
    }
  }

  /** The children in enumeration order: the first failure or abort, else success. */
  function ChildrenVerdict(reg: Registry, revisions: seq<Dword>, children: seq<string>): (r: Check)
    ensures r.Passed? <==> forall i :: 0 <= i < |children| ==> ChildVerdict(reg, revisions, children[i]).Passed?
    ensures !r.Passed? ==> exists i :: 0 <= i < |children| && ChildVerdict(reg, revisions, children[i]) == r
                                       && forall j :: 0 <= j < i ==> ChildVerdict(reg, revisions, children[j]).Passed?
  {
    forall i | 0 <= i < |children|
      ensures ChildVerdicts(reg, revisions, children)[i] == ChildVerdict(reg, revisions, children[i])
    {
      ChildVerdictsAt(reg, revisions, children, i);
    }
    FirstNotPassed(ChildVerdicts(reg, revisions, children))
  }

  /** A verdict that is not a pass after a run of passes decides the whole run. */
  lemma FirstNotPassedAt(verdicts: seq<Check>, k: nat)
    requires k < |verdicts| && !verdicts[k].Passed?
    requires forall j :: 0 <= j < k ==> verdicts[j].Passed?
    ensures FirstNotPassed(verdicts) == verdicts[k]
  {
  }

  /** SupportChildDrivers's verdict: no XENBUS key is a fresh installation. */
  function ChildDriversVerdict(reg: Registry, revisions: seq<Dword>): Check
  {
    match OpenBusKey(reg, "XENBUS")
    case Fail(e) => if e == ErrorFileNotFound then Passed else Failed(e)
    case Ok(bus) => ChildrenVerdict(reg, revisions, reg.keys[bus].subkeys)
  }

  /** Without a XENBUS enumeration key the installation is a fresh one and passes. */
  lemma FreshInstallPasses(reg: Registry, revisions: seq<Dword>)
    requires EnumKey !in reg.denied && EnumKey + ["XENBUS"] !in reg.denied
    requires EnumKey !in reg.keys || EnumKey + ["XENBUS"] !in reg.keys
    ensures ChildDriversVerdict(reg, revisions) == Passed
  {
  }

  /**
   * A child whose bound driver's MatchingDeviceId ends in &REV_xx passes
   * exactly when xx is in the revision table, and otherwise fails
   * pre-installation with ERROR_FILE_NOT_FOUND.
   */
  lemma ChildRevisionVerdict(reg: Registry, revisions: seq<Dword>, child: string, device: Path,
                             driverName: string, driver: Path, prefix: string, revision: Dword, width: nat)
    requires 1 <= width <= 8 && revision < Pow16(width)
    requires OpenDeviceKey(reg, "XENBUS", child) == Ok(device)
    requires FirstDriver(reg, device, reg.keys[device].subkeys) == Some(driverName)
    requires OpenDriverKey(reg, driverName) == Ok(driver)
    requires QueryValue(reg, driver, "MatchingDeviceId") == Ok(Sz(prefix + "&" + FormatRevision(revision, width)))
    ensures ChildVerdict(reg, revisions, child) == if revision in revisions then Passed else Failed(ErrorFileNotFound)
  {
    UpperFormattedId(prefix, revision, width);
    FormattedDeviceIdVerdict(revisions, Upper(prefix), revision, width);
  }

  /**
   * A child whose bound driver's MatchingDeviceId has no '&' at all (such as
   * ROOT\MSSMBIOS) trips the assertion in SupportDeviceID.
   */
  lemma ChildWithoutAmpersandAborts(reg: Registry, revisions: seq<Dword>, child: string, device: Path,
                                    driverName: string, driver: Path, id: string)
    requires '&' !in id
    requires OpenDeviceKey(reg, "XENBUS", child) == Ok(device)
    requires FirstDriver(reg, device, reg.keys[device].subkeys) == Some(driverName)
    requires OpenDriverKey(reg, driverName) == Ok(driver)
    requires QueryValue(reg, driver, "MatchingDeviceId") == Ok(Sz(id))
    ensures ChildVerdict(reg, revisions, child) == Aborted
  {
    UpperProperties(id, []);
  }

  /** Upper-casing a device id ending in a formatted revision leaves the revision as it was. */
  lemma UpperFormattedId(prefix: string, revision: Dword, width: nat)
    requires 1 <= width <= 8 && revision < Pow16(width)
    ensures Upper(prefix + "&" + FormatRevision(revision, width)) == Upper(prefix) + "&" + FormatRevision(revision, width)
  {
    var tail := FormatRevision(revision, width);
    UpperProperties(prefix + "&", tail);
    UpperProperties(prefix, "&");
    assert Upper("&") == "&";
    assert Upper(tail) == tail;
  }

  /**
   * The body of SupportChildDrivers's loop for child index: find its bound
   * driver, read the driver's MatchingDeviceId and check its revision; a
   * child with no bound driver is skipped.
   */
  method CheckChild(reg: Registry, revisions: seq<Dword>, children: seq<string>, index: nat) returns (r: Check)
    requires index < |children|
    ensures r == ChildVerdicts(reg, revisions, children)[index]
  {
    ChildVerdictsAt(reg, revisions, children, index);
    var child := children[index];
    var device := OpenDeviceKey(reg, "XENBUS", child);
    if device.Fail? {
      return Failed(device.error);
    }
    var driverName := GetDriverKeyName(reg, device.value);
    if driverName.None? {
      return Passed;
    }
    var driver := OpenDriverKey(reg, driverName.value);
    if driver.Fail? {
      return Failed(driver.error);
    }
    var id := GetMatchingDeviceID(reg, driver.value);
    if id.Fail? {
      return Failed(id.error);
    }
    r := SupportDeviceID(revisions, id.value);
  }

  /**
   * SupportChildDrivers's loop: check each XENBUS child in enumeration
   * order; the first failure ends the walk.
   */
  method CheckChildren(reg: Registry, revisions: seq<Dword>, children: seq<string>) returns (r: Check)
    ensures r == FirstNotPassed(ChildVerdicts(reg, revisions, children))
  {
    ghost var verdicts := ChildVerdicts(reg, revisions, children);
    var index := 0;
    while index < |children|
      invariant index <= |children|
      invariant forall j :: 0 <= j < index ==> verdicts[j].Passed?
    {
      var verdict := CheckChild(reg, revisions, children, index);
      if verdict != Passed {
        FirstNotPassedAt(verdicts, index);
        return verdict;
      }
      index := index + 1;
    }
    return Passed;
  }

  /** SupportChildDrivers: a missing XENBUS key passes; otherwise its children are checked. */
  method SupportChildDrivers(reg: Registry, revisions: seq<Dword>) returns (r: Check)
    ensures r == ChildDriversVerdict(reg, revisions)
  {
    var bus := OpenBusKey(reg, "XENBUS");
    if bus.Fail? {
      if bus.error == ErrorFileNotFound {
        return Passed;
      }
      return Failed(bus.error);
    }
    r := CheckChildren(reg, revisions, reg.keys[bus.value].subkeys);
  }

  // ---------------------------------------------------------------------
  // CheckStatus and the post-installation reboot request
  // ---------------------------------------------------------------------

  /** The Status key a service's driver uses to ask for a reboot. */
  function StatusKey(service: string): Path
  {
    ServicesKey + [service, "Status"]
  }

  /** CheckStatus: the service's NeedReboot flag, read into a DWORD-sized buffer; a missing value reads as 0. */
  function CheckStatus(reg: Registry, service: string): Outcome<bool>
  {
    match OpenKey(reg, StatusKey(service))
    case Fail(e) => Fail(e)
    case Ok(key) =>
      match QueryValueInto(reg, key, "NeedReboot", 4)
      case Fail(e) => if e == ErrorFileNotFound then Ok(false) else Fail(e)
      case Ok(v) => if v.DwordValue? then Ok(v.number != 0) else Fail(ErrorBadFormat)
  }

  /**
   * A reboot is needed exactly when NeedReboot is a non-zero REG_DWORD; a
   * missing value or a zero means no reboot; a value of another type fails
   * with ERROR_BAD_FORMAT when it fits the buffer and ERROR_MORE_DATA when
   * it does not.
   */
  lemma CheckStatusOutcomes(reg: Registry, service: string)
    requires OpenKey(reg, StatusKey(service)).Ok?
    ensures var values := reg.keys[StatusKey(service)].values;
            var r := CheckStatus(reg, service);
            && (r == Ok(true) <==> "NeedReboot" in values && values["NeedReboot"].DwordValue?
                                   && values["NeedReboot"].number != 0)
            && (r == Ok(false) <==> "NeedReboot" !in values
                                    || values["NeedReboot"] == DwordValue(0))
            && (r == Fail(ErrorBadFormat) <==> "NeedReboot" in values && !values["NeedReboot"].DwordValue?
                                               && ValueSize(values["NeedReboot"]) <= 4)
            && (r == Fail(ErrorMoreData) <==> "NeedReboot" in values && ValueSize(values["NeedReboot"]) > 4)
  {
  }

  /** What DifInstallPostProcess did: whether it asked for a reboot, and whose Status keys it read. */
  datatype PostInstall = PostInstall(rebootRequested: bool, consulted: seq<string>)

  /**
   * DifInstallPostProcess: XEN's flag first, XENBUS's only when XEN did not
   * ask for a reboot; a failed check counts as no request.
   */
  function DifInstallPostProcess(reg: Registry): (p: PostInstall)
    ensures p.rebootRequested <==> CheckStatus(reg, "XEN") == Ok(true) || CheckStatus(reg, "XENBUS") == Ok(true)
    ensures p.consulted == if CheckStatus(reg, "XEN") == Ok(true) then ["XEN"] else ["XEN", "XENBUS"]
  {
    var needReboot := CheckStatus(reg, "XEN") == Ok(true);
    if needReboot then PostInstall(true, ["XEN"])
    else PostInstall(CheckStatus(reg, "XENBUS") == Ok(true), ["XEN", "XENBUS"])
  }

  // ---------------------------------------------------------------------
  // DifInstall, DifRemove and Entry
  // ---------------------------------------------------------------------

  /** The build-time inputs and the registry the co-installer reads. */
  datatype Setup = Setup(reg: Registry, product: string, revisions: seq<Dword>)

  /**
   * DifInstallPreProcess's result: the first failing check's error, or
   * NO_ERROR; None when the child driver check stops the co-installer.
   */
  function PreProcessError(setup: Setup): (r: Option<Dword>)
    ensures r.None? <==> ExistingDriverVerdict(setup.reg, setup.product) == Passed
                         && ChildDriversVerdict(setup.reg, setup.revisions) == Aborted
  {
    match ExistingDriverVerdict(setup.reg, setup.product)
    case Failed(e) => Some(e)
    case Aborted => None
    case Passed =>
      match ChildDriversVerdict(setup.reg, setup.revisions)
      case Failed(e) => Some(e)
      case Aborted => None
      case Passed => Some(NoError)
  }

  /** DifInstallPreProcess: the existing driver check, then the child driver check. */
  method DifInstallPreProcess(setup: Setup) returns (error: Option<Dword>)
    ensures error == PreProcessError(setup)
  {
    var matched := MatchExistingDriver(setup.reg, setup.product);
    if matched.Failed? {
      return Some(matched.error);
    }
    var children := SupportChildDrivers(setup.reg, setup.revisions);
    if children.Failed? {
      return Some(children.error);
    }
    if children.Aborted? {
      return None;
    }
    return Some(NoError);
  }

  /** COINSTALLER_CONTEXT_DATA: which pass this is, and the result of installation on the post pass. */
  datatype Context = Context(postProcessing: bool, installResult: Dword)

  /** Which body ran. */
  datatype Ran = RanNothing | RanInstallPre | RanInstallPost(post: PostInstall) | RanRemovePre | RanRemovePost

  /**
   * What the co-installer returns to SetupAPI, and which body ran; Stopped
   * when an assertion ends it before it returns.
   */
  datatype Reply = Reply(error: Dword, ran: Ran) | Stopped

  /**
   * DifInstall's reply, given the outcome of SetupDiGetDeviceInstallParams:
   * a pre-processing success asks for post-processing, and post-processing
   * runs its body only after a successful installation.
   */
  function DifInstallReply(setup: Setup, context: Context, params: Outcome<()>): Reply
  {
    match params
    case Fail(e) => Reply(e, RanNothing)
    case Ok(_) =>
      if !context.postProcessing then
        match PreProcessError(setup)
        case None => Stopped
        case Some(e) => Reply(if e == NoError then ErrorDiPostprocessingRequired else e, RanInstallPre)
      else if context.installResult == NoError then
        Reply(NoError, RanInstallPost(DifInstallPostProcess(setup.reg)))
      else Reply(NoError, RanNothing)
  }

  /** DifRemove's reply: the same passes with bodies that do nothing. */
  function DifRemoveReply(context: Context, params: Outcome<()>): Reply
  {
    match params
    case Fail(e) => Reply(e, RanNothing)
    case Ok(_) =>
      if !context.postProcessing then Reply(ErrorDiPostprocessingRequired, RanRemovePre)
      else if context.installResult == NoError then Reply(NoError, RanRemovePost)
      else Reply(NoError, RanNothing)
  }

  /**
   * Pre-processing never answers NO_ERROR: success becomes
   * ERROR_DI_POSTPROCESSING_REQUIRED and a failure keeps its error.
   * Post-processing always answers NO_ERROR, and runs its body exactly when
   * InstallResult is NO_ERROR.
   */
  lemma DifPasses(setup: Setup, context: Context)
    ensures !context.postProcessing ==>
              && (DifInstallReply(setup, context, Ok(())) == Stopped <==> PreProcessError(setup).None?)
              && DifRemoveReply(context, Ok(())) == Reply(ErrorDiPostprocessingRequired, RanRemovePre)
    ensures !context.postProcessing && PreProcessError(setup).Some? ==>
              var e := PreProcessError(setup).value;
              var reply := DifInstallReply(setup, context, Ok(()));
              && reply.Reply? && reply.ran == RanInstallPre
              && ((reply.error == ErrorDiPostprocessingRequired) <==> e in {NoError, ErrorDiPostprocessingRequired})
              && (e != NoError ==> reply.error == e)
    ensures context.postProcessing ==>
              && DifInstallReply(setup, context, Ok(())).Reply?
              && DifInstallReply(setup, context, Ok(())).error == NoError
              && DifRemoveReply(context, Ok(())).Reply?
              && DifRemoveReply(context, Ok(())).error == NoError
              && (DifInstallReply(setup, context, Ok(())).ran.RanInstallPost? <==> context.installResult == NoError)
              && (DifRemoveReply(context, Ok(())).ran == RanRemovePost <==> context.installResult == NoError)
  {
  }

  /** DifInstall: the device install parameters, then the pass the context names. */
  method DifInstall(setup: Setup, context: Context, params: Outcome<()>) returns (reply: Reply)
    ensures reply == DifInstallReply(setup, context, params)
  {
    if params.Fail? {
      return Reply(params.error, RanNothing);
    }
    if !context.postProcessing {
      var result := DifInstallPreProcess(setup);
      if result.None? {
        return Stopped;
      }
      var error := result.value;
      if error == NoError {
        error := ErrorDiPostprocessingRequired;
      }
      return Reply(error, RanInstallPre);
    }
    if context.installResult == NoError {
      var post := DifInstallPostProcess(setup.reg);
      return Reply(NoError, RanInstallPost(post));
    }
    return Reply(NoError, RanNothing);
  }

  const DifInstallDevice: Dword := 0x02
  const DifRemove: Dword := 0x05

  /**
   * Entry's reply: DIF_INSTALLDEVICE is handled by DifInstall when a driver
   * is selected and by DifRemove when the NULL driver is being installed;
   * DIF_REMOVE by DifRemove; any other function passes the pass's result
   * through.
   */
  function EntryReply(setup: Setup, diFunction: Dword, context: Context, params: Outcome<()>, driverSelected: bool): Reply
  {
    if diFunction == DifInstallDevice then
      if driverSelected then DifInstallReply(setup, context, params) else DifRemoveReply(context, params)
    else if diFunction == DifRemove then DifRemoveReply(context, params)
    else Reply(if context.postProcessing then context.installResult else NoError, RanNothing)
  }

  /**
   * Installing the NULL driver is handled exactly as a removal, and
   * functions other than DIF_INSTALLDEVICE and DIF_REMOVE run nothing and
   * report NO_ERROR before installation and InstallResult after it.
   */
  lemma EntryRoutes(setup: Setup, diFunction: Dword, context: Context, params: Outcome<()>, driverSelected: bool)
    ensures diFunction == DifInstallDevice && !driverSelected ==>
              EntryReply(setup, diFunction, context, params, driverSelected)
              == EntryReply(setup, DifRemove, context, params, true)
    ensures diFunction != DifInstallDevice && diFunction != DifRemove ==>
              && EntryReply(setup, diFunction, context, params, driverSelected).ran == RanNothing
              && EntryReply(setup, diFunction, context, params, driverSelected).error
                 == if context.postProcessing then context.installResult else NoError
    ensures EntryReply(setup, diFunction, context, params, driverSelected).Reply?
            && EntryReply(setup, diFunction, context, params, driverSelected).ran.RanInstallPost? ==>
              diFunction == DifInstallDevice && driverSelected && context.postProcessing
              && context.installResult == NoError && params.Ok?
    ensures EntryReply(setup, diFunction, context, params, driverSelected) == Stopped <==>
              diFunction == DifInstallDevice && driverSelected && !context.postProcessing
              && params.Ok? && PreProcessError(setup).None?
  {
  }

  /** Entry: the co-installer's one export, dispatching on the DIF code. */
  method Entry(setup: Setup, diFunction: Dword, context: Context, params: Outcome<()>, driverSelected: bool)
    returns (reply: Reply)
    ensures reply == EntryReply(setup, diFunction, context, params, driverSelected)
  {
    if diFunction == DifInstallDevice {
      if driverSelected {
        reply := DifInstall(setup, context, params);
      } else {
        reply := DifRemoveReply(context, params);
      }
    } else if diFunction == DifRemove {
      reply := DifRemoveReply(context, params);
    } else if !context.postProcessing {
      reply := Reply(NoError, RanNothing);
    } else {
      reply := Reply(context.installResult, RanNothing);
    }
  }
}
