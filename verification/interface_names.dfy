/** Interface names across the Java/kernel boundary. A Java String reaches
    `struct ifreq` as its modified UTF-8 encoding (the JNI string format),
    padded with zeros to IFNAMSIZ bytes; a name the kernel reports comes back
    through the same encoding read as a C string. */
module InterfaceNames {
  import opened CanTypes

  const ILLEGAL_NAME: string := "illegal interface name"

  // ---- modified UTF-8 (the JNI string encoding) ----

  /** Bytes one UTF-16 unit takes: the NUL unit takes two, so that no
      encoded byte is zero. */
  function UnitSize(u: Unit): nat {
    if 1 <= u <= 0x7F then 1 else if u <= 0x7FF then 2 else 3
  }

  /** `GetStringUTFLength`: the length in bytes of the modified UTF-8 form. */
  function UtfLength(s: JString): (n: nat)
    ensures n <= 3 * |s|
  {
    if s == [] then 0 else UnitSize(s[0]) + UtfLength(s[1..])
  }

  /** A unit encoded on its own; surrogates are encoded unit by unit. */
  function EncodeUnit(u: Unit): (b: seq<uint8>)
    ensures |b| == UnitSize(u)
    ensures forall k :: 0 <= k < |b| ==> b[k] != 0
  {
    if 1 <= u <= 0x7F then [u as uint8]
    else if u <= 0x7FF then [(0xC0 + u / 0x40) as uint8, (0x80 + u % 0x40) as uint8]
    else [(0xE0 + u / 0x1000) as uint8, (0x80 + (u % 0x1000) / 0x40) as uint8, (0x80 + u % 0x40) as uint8]
  }

  /** The modified UTF-8 form of a Java String: exactly `UtfLength` bytes,
      none of them zero. */
  function ModifiedUtf8(s: JString): (b: seq<uint8>)
    ensures |b| == UtfLength(s)
    ensures forall k :: 0 <= k < |b| ==> b[k] != 0
  {
    if s == [] then [] else EncodeUnit(s[0]) + ModifiedUtf8(s[1..])
  }

  function Prepend(u: Unit, r: Option<JString>): Option<JString> {
    if r.Some? then Some([u] + r.value) else None
  }

  function IsContinuation(x: uint8): bool { 0x80 <= x < 0xC0 }

  /** `NewStringUTF`: reads modified UTF-8 back into UTF-16 units; None
      for bytes that are not well formed. Never yields more units than
      there are bytes. */
  function DecodeModifiedUtf8(b: seq<uint8>): (r: Option<JString>)
    ensures r.Some? ==> |r.value| <= |b|
  {
    if b == [] then Some([])
    else if b[0] < 0x80 then Prepend(b[0] as int, DecodeModifiedUtf8(b[1..]))
    else if 0xC0 <= b[0] < 0xE0 && |b| >= 2 && IsContinuation(b[1]) then
      Prepend((b[0] as int - 0xC0) * 0x40 + (b[1] as int - 0x80), DecodeModifiedUtf8(b[2..]))
    else if 0xE0 <= b[0] < 0xF0 && |b| >= 3 && IsContinuation(b[1]) && IsContinuation(b[2]) then
      Prepend((b[0] as int - 0xE0) * 0x1000 + (b[1] as int - 0x80) * 0x40 + (b[2] as int - 0x80),
              DecodeModifiedUtf8(b[3..]))
    else None
  }

  lemma DecodeOne(u: Unit, rest: seq<uint8>)
    requires 1 <= u <= 0x7F
    ensures DecodeModifiedUtf8(EncodeUnit(u) + rest) == Prepend(u, DecodeModifiedUtf8(rest))
  {
    assert (EncodeUnit(u) + rest)[1..] == rest;
  }

  lemma DecodeTwoBytes(u: Unit, rest: seq<uint8>)
    requires u == 0 || 0x80 <= u <= 0x7FF
    ensures DecodeModifiedUtf8(EncodeUnit(u) + rest) == Prepend(u, DecodeModifiedUtf8(rest))
  {
    var hi, lo := u / 0x40, u % 0x40;
    assert hi * 0x40 + lo == u;
    var e := EncodeUnit(u) + rest;
    assert e[0] as int == 0xC0 + hi && e[1] as int == 0x80 + lo;
    assert e[2..] == rest;
  }

  lemma DecodeThreeBytes(u: Unit, rest: seq<uint8>)
    requires 0x800 <= u
    ensures DecodeModifiedUtf8(EncodeUnit(u) + rest) == Prepend(u, DecodeModifiedUtf8(rest))
  {
    var hi, m := u / 0x1000, u % 0x1000;
    var mid, lo := m / 0x40, m % 0x40;
    assert hi * 0x1000 + m == u;
    assert mid * 0x40 + lo == m;
    assert lo == u % 0x40;
    var e := EncodeUnit(u) + rest;
    assert e[0] as int == 0xE0 + hi && e[1] as int == 0x80 + mid && e[2] as int == 0x80 + lo;
    assert e[3..] == rest;
  }

  lemma DecodeEncodeUnit(u: Unit, rest: seq<uint8>)
    ensures DecodeModifiedUtf8(EncodeUnit(u) + rest) == Prepend(u, DecodeModifiedUtf8(rest))
  {
    if 1 <= u <= 0x7F {
      DecodeOne(u, rest);
    } else if u <= 0x7FF {
      DecodeTwoBytes(u, rest);
    } else {
      DecodeThreeBytes(u, rest);
    }
  }

  /** Decoding inverts the encoding, surrogates and NUL units included. */
  lemma {:induction false} DecodeModifiedUtf8RoundTrip(s: JString)
    ensures DecodeModifiedUtf8(ModifiedUtf8(s)) == Some(s)
  {
    if s != [] {
      DecodeEncodeUnit(s[0], ModifiedUtf8(s[1..]));
      DecodeModifiedUtf8RoundTrip(s[1..]);
      assert [s[0]] + s[1..] == s;
    }
  }

  /** Every unit takes one byte at least, and exactly one only when it is in
      1..0x7F: the byte length equals the unit count just for such names. */
  lemma {:induction false} UtfLengthBounds(s: JString)
    ensures UtfLength(s) >= |s|
    ensures UtfLength(s) == |s| <==> forall k :: 0 <= k < |s| ==> 1 <= s[k] <= 0x7F
  {
    if s != [] {
      UtfLengthBounds(s[1..]);
      assert forall k :: 1 <= k < |s| ==> s[k] == s[1..][k - 1];
    }
  }

  // ---- C strings ----

  /** What C code reads as a string: the bytes before the first zero. */
  function CString(b: seq<uint8>): (c: seq<uint8>)
    ensures |c| <= |b| && c == b[..|c|]
    ensures forall k :: 0 <= k < |c| ==> c[k] != 0
    ensures |c| == |b| || b[|c|] == 0
  {
    if b == [] || b[0] == 0 then [] else [b[0]] + CString(b[1..])
  }

  lemma {:induction false} CStringOfTerminated(p: seq<uint8>, tail: seq<uint8>)
    requires forall k :: 0 <= k < |p| ==> p[k] != 0
    ensures CString(p + [0] + tail) == p
  {
    if p != [] {
      assert (p + [0] + tail)[1..] == p[1..] + [0] + tail;
      CStringOfTerminated(p[1..], tail);
      assert [p[0]] + p[1..] == p;
    }
  }

  // ---- the ifr_name buffer ----

  /** The length check of `_discoverInterfaceIndex` and `_fetchInterfaceMtu`:
      the encoded name must leave room for the terminator. */
  predicate NameFits(name: JString) {
    UtfLength(name) <= IFNAMSIZ - 1
  }

  /** `ifreq.ifr_name` after the memset and the copy of the encoded name. */
  function IfrName(name: JString): (b: seq<uint8>)
    requires NameFits(name)
    ensures |b| == IFNAMSIZ
    ensures b[UtfLength(name)] == 0
  {
    ModifiedUtf8(name) + Fill(IFNAMSIZ - UtfLength(name), 0)
  }

  /** The kernel reads the whole name back out of `ifr_name`, and a name the
      kernel returns in that form is the Java String it came from. */
  lemma IfrNameRoundTrip(name: JString)
    requires NameFits(name)
    ensures CString(IfrName(name)) == ModifiedUtf8(name)
    ensures DecodeModifiedUtf8(CString(IfrName(name))) == Some(name)
  {
    var utf := ModifiedUtf8(name);
    var pad := Fill(IFNAMSIZ - |utf|, 0);
    assert pad == [0] + pad[1..];
    assert IfrName(name) == utf + [0] + pad[1..];
    CStringOfTerminated(utf, pad[1..]);
    DecodeModifiedUtf8RoundTrip(name);
  }

  /** For plain ASCII names the check is a length check: fifteen characters
      pass, sixteen do not. */
  lemma AsciiNameFits(name: JString)
    requires forall k :: 0 <= k < |name| ==> 1 <= name[k] <= 0x7F
    ensures NameFits(name) <==> |name| <= 15
  {
    UtfLengthBounds(name);
  }

  // ---- GetStringUTFRegion ----

  /** `GetStringUTFRegion(s, 0, len, buf)`: `len` counts UTF-16 units; the
      JVM raises StringIndexOutOfBoundsException when the string is shorter. */
  function Utf8Region(s: JString, len: nat): (r: Result<seq<uint8>>)
    ensures r.Ok? <==> len <= |s|
    ensures r.Ok? ==> r.value == ModifiedUtf8(s[..len])
  {
    if len > |s| then Err(StringIndexOutOfBounds) else Ok(ModifiedUtf8(s[..len]))
  }

  /** The name bytes as the source computes them: the check against
      IFNAMSIZ-1, then the region copy with the BYTE length as the unit
      count. */
  function NameBytesAsWritten(name: JString): (r: Result<seq<uint8>>)
    ensures !NameFits(name) ==> r == Err(IllegalArgument(ILLEGAL_NAME))
  {
    var size := UtfLength(name);
    if size > IFNAMSIZ - 1 then Err(IllegalArgument(ILLEGAL_NAME))
    else Utf8Region(name, size)
  }

  /** A one-unit name of two bytes passes the length check and still never
      reaches the kernel: the copy asks for two units of a one-unit string. */
  lemma NameBytesAsWrittenRejectsNonAscii()
    ensures NameFits([0xE4])
    ensures NameBytesAsWritten([0xE4]) == Err(StringIndexOutOfBounds)
  {
    var s: JString := [0xE4];
    assert s[1..] == [];
    assert UtfLength(s) == 2;
  }

  /** Any name with a unit outside 1..0x7F that passes the length check
      is refused by the copy. */
  lemma NameBytesAsWrittenNonAscii(name: JString)
    ensures NameFits(name) && (exists k :: 0 <= k < |name| && !(1 <= name[k] <= 0x7F)) ==>
              NameBytesAsWritten(name) == Err(StringIndexOutOfBounds)
  {
    UtfLengthBounds(name);
  }

  /** The name bytes with the region length counted in units, as the length
      check evidently intends: every name that fits is copied whole. */
  function NameBytes(name: JString): (r: Result<seq<uint8>>)
    ensures r.Ok? <==> NameFits(name)
    ensures !NameFits(name) ==> r == Err(IllegalArgument(ILLEGAL_NAME))
    ensures r.Ok? ==> r.value == ModifiedUtf8(name) && |r.value| <= IFNAMSIZ - 1
  {
    if UtfLength(name) > IFNAMSIZ - 1 then Err(IllegalArgument(ILLEGAL_NAME))
    else
      assert name[..|name|] == name;
      Utf8Region(name, |name|)
  }

  /** On ASCII names, the only ones the as-written copy lets through, the
      two agree. */
  lemma NameBytesAgreeOnAscii(name: JString)
    requires forall k :: 0 <= k < |name| ==> 1 <= name[k] <= 0x7F
    ensures NameBytesAsWritten(name) == NameBytes(name)
  {
    UtfLengthBounds(name);
    assert name[..|name|] == name;
  }

  // ---- the ioctl calls ----

  /** The request handed to `ioctl`: its code and the `ifr_name` bytes. */
  datatype IfReq = IfReq(request: int, ifrName: seq<uint8>)

  /** What `ioctl` reported: failure with errno, or the integer field it
      filled in (`ifr_ifindex` or `ifr_mtu`). */
  datatype IoctlReply = IoctlFailed(errno: int) | IoctlDone(value: int32)

  /** memset of `ifr_name`, then the encoded name copied in. */
  method FillIfrName(ifrName: array<uint8>, utf: seq<uint8>)
    requires ifrName.Length == IFNAMSIZ && |utf| < IFNAMSIZ
    modifies ifrName
    ensures ifrName[..] == utf + Fill(IFNAMSIZ - |utf|, 0)
  {
    var i := 0;
    while i < ifrName.Length
      invariant 0 <= i <= ifrName.Length
      invariant forall k :: 0 <= k < i ==> ifrName[k] == 0
    {
      ifrName[i] := 0;
      i := i + 1;
    }
    var j := 0;
    while j < |utf|
      invariant 0 <= j <= |utf|
      invariant forall k :: 0 <= k < j ==> ifrName[k] == utf[k]
      invariant forall k :: j <= k < IFNAMSIZ ==> ifrName[k] == 0
    {
      ifrName[j] := utf[j];
      j := j + 1;
    }
  }

  /** The shared body of `_discoverInterfaceIndex` (SIOCGIFINDEX) and
      `_fetchInterfaceMtu` (SIOCGIFMTU): a name that does not fit is refused
      before any `ioctl`; otherwise the request carries the terminated name
      and the verdict is the ioctl's. */
  method QueryByName(request: int, name: JString, reply: IoctlReply)
    returns (issued: Option<IfReq>, r: Result<int32>)
    ensures issued.Some? <==> NameFits(name)
    ensures !NameFits(name) ==> r == Err(IllegalArgument(ILLEGAL_NAME))
    ensures issued.Some? ==> issued.value == IfReq(request, IfrName(name))
    ensures issued.Some? && reply.IoctlFailed? ==> r == Err(IOError(reply.errno))
    ensures issued.Some? && reply.IoctlDone? ==> r == Ok(reply.value)
  {
    var bytes := NameBytes(name);
    if bytes.Err? {
      return None, Err(bytes.failure);
    }
    var ifrName := new uint8[IFNAMSIZ];
    FillIfrName(ifrName, bytes.value);
    issued := Some(IfReq(request, ifrName[..]));
    match reply
    case IoctlFailed(errno) => r := Err(IOError(errno));
    case IoctlDone(value) => r := Ok(value);
  }

  /** `_discoverInterfaceIndex`: the interface index for a name. */
  method DiscoverInterfaceIndex(name: JString, reply: IoctlReply)
    returns (issued: Option<IfReq>, r: Result<int32>)
    ensures issued.Some? <==> NameFits(name)
    ensures !NameFits(name) ==> r == Err(IllegalArgument(ILLEGAL_NAME))
    ensures issued.Some? ==> issued.value == IfReq(SIOCGIFINDEX, IfrName(name))
    ensures issued.Some? && reply.IoctlFailed? ==> r == Err(IOError(reply.errno))
    ensures issued.Some? && reply.IoctlDone? ==> r == Ok(reply.value)
  {
    issued, r := QueryByName(SIOCGIFINDEX, name, reply);
  }

  /** `_fetchInterfaceMtu`: the MTU of the named interface. */
  method FetchInterfaceMtu(name: JString, reply: IoctlReply)
    returns (issued: Option<IfReq>, r: Result<int32>)
    ensures issued.Some? <==> NameFits(name)
    ensures !NameFits(name) ==> r == Err(IllegalArgument(ILLEGAL_NAME))
    ensures issued.Some? ==> issued.value == IfReq(SIOCGIFMTU, IfrName(name))
    ensures issued.Some? && reply.IoctlFailed? ==> r == Err(IOError(reply.errno))
    ensures issued.Some? && reply.IoctlDone? ==> r == Ok(reply.value)
  {
    issued, r := QueryByName(SIOCGIFMTU, name, reply);
  }

  /** What SIOCGIFNAME reported: failure with errno, or the `ifr_name`
      bytes the kernel filled in. */
  datatype NameReply = NameFailed(errno: int) | NameFound(ifrName: seq<uint8>)

  predicate DecodableName(reply: NameReply) {
    reply.NameFound? ==> DecodeModifiedUtf8(CString(reply.ifrName)).Some?
  }

  /** The SIOCGIFNAME request: its code and the `ifr_ifindex` it carries. */
  datatype IndexReq = IndexReq(request: int, ifIndex: int32)

  /** `_discoverInterfaceName`: asks the kernel for the name of interface
      `ifIndex`; the C string in `ifr_name` made a Java String, or the
      ioctl's errno. */
  function DiscoverInterfaceName(ifIndex: int32, reply: NameReply): (out: (IndexReq, Result<JString>))
    requires DecodableName(reply)
    ensures out.0 == IndexReq(SIOCGIFNAME, ifIndex)
    ensures out.1.Ok? <==> reply.NameFound?
    ensures reply.NameFailed? ==> out.1 == Err(IOError(reply.errno))
    ensures out.1.Ok? ==> Some(out.1.value) == DecodeModifiedUtf8(CString(reply.ifrName))
    ensures out.1.Ok? ==> |out.1.value| <= |CString(reply.ifrName)|
  {
    var req := IndexReq(SIOCGIFNAME, ifIndex);
    match reply
    case NameFailed(errno) => (req, Err(IOError(errno)))
    case NameFound(ifrName) => (req, Ok(DecodeModifiedUtf8(CString(ifrName)).value))
  }

  /** A name looked up by index in the form the kernel was given it by name
      comes back as the same Java String. */
  lemma NameLookupRoundTrip(ifIndex: int32, name: JString)
    requires NameFits(name)
    ensures DecodableName(NameFound(IfrName(name)))
    ensures DiscoverInterfaceName(ifIndex, NameFound(IfrName(name))).1 == Ok(name)
  {
    IfrNameRoundTrip(name);
  }
}
