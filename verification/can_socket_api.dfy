/** The Java face of the library: `CanSocket` and its nested `CanId`,
    `CanInterface` and `CanFrame` classes. Each native method is the model of
    it in the modules this one imports; what the kernel answered is again an
    input of the method that calls it. */
module CanSocketApi {
  import opened CanTypes
  import opened CanIdBits
  import opened FrameCodec
  import opened InterfaceNames
  import opened SocketCalls

  /** Java `int` arithmetic: the two's-complement value of x modulo 2^32. */
  function Wrap32(x: int): (r: int32)
    ensures (r as int - x) % 0x1_0000_0000 == 0
  {
    ((x + 0x8000_0000) % 0x1_0000_0000 - 0x8000_0000) as int32
  }

  // ---- CanId ----

  /** A mutable CAN identifier. The `int` field `_canId` is kept as its
      32-bit pattern; every flag operation rewrites it in place. */
  class CanId {
    var canId: bv32

    constructor(address: bv32)
      ensures canId == address
    {
      canId := address;
    }

    function IsSetEFFSFF(): (b: bool)
      reads this
      ensures b <==> canId >= 0x8000_0000
    {
      IsSetEff(canId)
    }

    function IsSetRTR(): (b: bool)
      reads this
      ensures b <==> (canId >> 30) & 1 == 1
    {
      IsSetRtr(canId)
    }

    function IsSetERR(): (b: bool)
      reads this
      ensures b <==> (canId >> 29) & 1 == 1
    {
      IsSetErr(canId)
    }

    method SetEFFSFF() returns (self: CanId)
      modifies this
      ensures self == this && canId == SetEff(old(canId)) && IsSetEFFSFF()
    {
      canId := SetEff(canId);
      return this;
    }

    method SetRTR() returns (self: CanId)
      modifies this
      ensures self == this && canId == SetRtr(old(canId)) && IsSetRTR()
    {
      canId := SetRtr(canId);
      return this;
    }

    method SetERR() returns (self: CanId)
      modifies this
      ensures self == this && canId == SetErr(old(canId)) && IsSetERR()
    {
      canId := SetErr(canId);
      return this;
    }

    method ClearEFFSFF() returns (self: CanId)
      modifies this
      ensures self == this && canId == ClearEff(old(canId)) && !IsSetEFFSFF()
    {
      canId := ClearEff(canId);
      return this;
    }

    method ClearRTR() returns (self: CanId)
      modifies this
      ensures self == this && canId == ClearRtr(old(canId)) && !IsSetRTR()
    {
      canId := ClearRtr(canId);
      return this;
    }

    method ClearERR() returns (self: CanId)
      modifies this
      ensures self == this && canId == ClearErr(old(canId)) && !IsSetERR()
    {
      canId := ClearErr(canId);
      return this;
    }

    function GetCanIdSFF(): (r: bv32)
      reads this
      ensures r < 0x800 && (r ^ canId) & CAN_SFF_MASK == 0
    {
      GetSff(canId)
    }

    function GetCanIdEFF(): (r: bv32)
      reads this
      ensures r < 0x2000_0000 && (r ^ canId) & CAN_EFF_MASK == 0
    {
      GetEff(canId)
    }

    function GetCanIdERR(): (r: bv32)
      reads this
      ensures r < 0x2000_0000 && (r ^ canId) & CAN_ERR_MASK == 0
    {
      GetErr(canId)
    }

    /** A new identifier object holding the same word. */
    method Clone() returns (c: CanId)
      ensures fresh(c) && c.canId == canId
    {
      c := new CanId(canId);
    }

    /** The set of flags that are on, each tested once. */
    function InferStatusBits(): (bits: set<StatusBit>)
      reads this
      ensures forall f: StatusBit :: f in bits <==> IsSet(f, canId)
    {
      (if IsSetERR() then {ERR} else {}) +
      (if IsSetEFFSFF() then {EFFSFF} else {}) +
      (if IsSetRTR() then {RTR} else {})
    }

    /** `31 * 1 + _canId` in Java `int` arithmetic. */
    function HashCode(): bv32
      reads this
    {
      31 * 1 + canId
    }

    /** Value equality: the same object, or another identifier with the
        same word. */
    function Equals(other: CanId?): (r: bool)
      reads this, other
      ensures r <==> other != null && other.canId == canId
    {
      if this == other then true
      else if other == null then false
      else canId == other.canId
    }
  }

  lemma HashCodeDeterminesId(a: CanId, b: CanId)
    ensures a.HashCode() == b.HashCode() ==> a.canId == b.canId
  {
    HashStepInjective(a.canId, b.canId);
  }

  lemma IdDeterminesHashCode(a: CanId, b: CanId)
    ensures a.canId == b.canId ==> a.HashCode() == b.HashCode()
  {
  }

  lemma HashStepInjective(x: bv32, y: bv32)
    ensures 31 + x == 31 + y <==> x == y
  {
  }

  /** Equal identifiers hash alike, and since the hash is `31 + _canId`
      modulo 2^32, equal hashes mean equal identifiers. */
  lemma CanIdHashCodeIffEquals(a: CanId, b: CanId)
    ensures a.Equals(b) <==> a.HashCode() == b.HashCode()
  {
    HashCodeDeterminesId(a, b);
    IdDeterminesHashCode(a, b);
  }

  /** Setting a flag makes it read as set, clearing it again makes it read
      as clear, and the word ends as if only the clear had happened. */
  method SetThenClear(id: CanId, f: StatusBit) returns (afterSet: bool, afterClear: bool)
    modifies id
    ensures afterSet && !afterClear
    ensures id.canId == Clear(f, old(id.canId))
  {
    match f {
      case ERR => var _ := id.SetERR();
      case EFFSFF => var _ := id.SetEFFSFF();
      case RTR => var _ := id.SetRTR();
    }
    afterSet := IsSet(f, id.canId);
    match f {
      case ERR => var _ := id.ClearERR();
      case EFFSFF => var _ := id.ClearEFFSFF();
      case RTR => var _ := id.ClearRTR();
    }
    afterClear := IsSet(f, id.canId);
    ClearAfterSet(f, old(id.canId));
  }

  /** A clone is a separate object: setting a flag on it leaves the
      original untouched. */
  method CloneThenSet(orig: CanId, f: StatusBit) returns (copy: CanId)
    ensures fresh(copy) && copy.canId == Set(f, orig.canId)
    ensures orig.canId == old(orig.canId)
    ensures orig.Equals(copy) <==> IsSet(f, orig.canId)
  {
    copy := orig.Clone();
    match f {
      case ERR => var _ := copy.SetERR();
      case EFFSFF => var _ := copy.SetEFFSFF();
      case RTR => var _ := copy.SetRTR();
    }
    SetWhenSet(f, orig.canId);
  }

  // ---- CanInterface ----

  /** `CAN_ALL_INTERFACES`: index 0 binds to every CAN interface. */
  const ALL_INTERFACES_INDEX: int32 := 0

  /** Java `String.hashCode`: `s[0]*31^(n-1) + ... + s[n-1]` in `int`
      arithmetic. */
  function StringHash(s: JString): int32 {
    if s == [] then 0
    else Wrap32(31 * StringHash(s[..|s| - 1]) as int + s[|s| - 1])
  }

  /** A network interface by index, with a name that is known from the start
      or looked up on demand and then kept. */
  class CanInterface {
    const ifIndex: int32
    var ifName: Option<JString>

    /** The private constructor `CanInterface(int, String)`. */
    constructor Of(ifIndex: int32, ifName: Option<JString>)
      ensures this.ifIndex == ifIndex && this.ifName == ifName
    {
      this.ifIndex := ifIndex;
      this.ifName := ifName;
    }

    /** The public constructor: the index the kernel has for `name`, and
        the name itself. A failed lookup constructs nothing. */
    static method Open(name: JString, reply: IoctlReply)
      returns (issued: Option<IfReq>, r: Result<CanInterface>)
      ensures issued.Some? <==> NameFits(name)
      ensures issued.Some? ==> issued.value == IfReq(SIOCGIFINDEX, IfrName(name))
      ensures r.Ok? <==> NameFits(name) && reply.IoctlDone?
      ensures !NameFits(name) ==> r == Err(IllegalArgument(ILLEGAL_NAME))
      ensures NameFits(name) && reply.IoctlFailed? ==> r == Err(IOError(reply.errno))
      ensures r.Ok? ==> fresh(r.value) && r.value.ifIndex == reply.value && r.value.ifName == Some(name)
    {
      var index;
      issued, index := DiscoverInterfaceIndex(name, reply);
      if index.Err? {
        return issued, Err(index.failure);
      }
      var c := new CanInterface.Of(index.value, Some(name));
      r := Ok(c);
    }

    /** `CAN_ALL_INTERFACES`: the wildcard interface, with no name. */
    static method AllInterfaces() returns (c: CanInterface)
      ensures fresh(c) && c.ifIndex == ALL_INTERFACES_INDEX && c.ifName == None
    {
      c := new CanInterface.Of(ALL_INTERFACES_INDEX, None);
    }

    /** `resolveIfName`: asks the kernel for the name of this interface's
        index only while no name is known; a failed lookup is swallowed and
        leaves the name unknown, a name once known is never asked for again.
        `asked` is the request handed to the kernel, if any. */
    method ResolveIfName(reply: NameReply) returns (name: Option<JString>, asked: Option<IndexReq>)
      requires DecodableName(reply)
      modifies this
      ensures asked.Some? <==> old(ifName).None?
      ensures asked.Some? ==> asked.value == IndexReq(SIOCGIFNAME, ifIndex)
      ensures asked.None? ==> ifName == old(ifName)
      ensures asked.Some? && reply.NameFailed? ==> ifName == None
      ensures asked.Some? && reply.NameFound? ==>
                ifName.Some? && Some(ifName.value) == DecodeModifiedUtf8(CString(reply.ifrName))
      ensures name == ifName
    {
      asked := None;
      if ifName.None? {
        var out := DiscoverInterfaceName(ifIndex, reply);
        asked := Some(out.0);
        if out.1.Ok? {
          ifName := Some(out.1.value);
        }
      }
      name := ifName;
    }

    /** `31 * (31 * 1 + _ifIndex) + hash of the name (0 when null)`. */
    function HashCode(): int32
      reads this
    {
      Wrap32(31 * Wrap32(31 * 1 + ifIndex as int) as int
             + (if ifName.None? then 0 else StringHash(ifName.value) as int))
    }

    /** Value equality on index and name, a null name equal only to a null
        name. */
    function Equals(other: CanInterface?): (r: bool)
      reads this, other
      ensures r <==> other != null && other.ifIndex == ifIndex && other.ifName == ifName
    {
      if this == other then true
      else if other == null then false
      else if ifIndex != other.ifIndex then false
      else if ifName.None? then other.ifName.None?
      else other.ifName.Some? && ifName.value == other.ifName.value
    }

    method Clone() returns (c: CanInterface)
      ensures fresh(c) && c.ifIndex == ifIndex && c.ifName == ifName
    {
      c := new CanInterface.Of(ifIndex, ifName);
    }
  }

  /** Equal interfaces hash alike. */
  lemma CanInterfaceEqualsImpliesHashCode(a: CanInterface, b: CanInterface)
    ensures a.Equals(b) ==> a.HashCode() == b.HashCode()
  {
  }

  /** Two lookups in a row: once the first has produced a name, the second
      does not ask the kernel and returns the same name. */
  method ResolveTwice(iface: CanInterface, first: NameReply, second: NameReply)
    returns (name1: Option<JString>, name2: Option<JString>, asked2: Option<IndexReq>)
    requires DecodableName(first) && DecodableName(second)
    modifies iface
    ensures old(iface.ifName).Some? ==> name1 == name2 == old(iface.ifName)
    ensures name1.Some? ==> asked2.None? && name2 == name1
    ensures old(iface.ifName).None? && first.NameFailed? ==>
              name1.None? && asked2 == Some(IndexReq(SIOCGIFNAME, iface.ifIndex))
  {
    var asked1;
    name1, asked1 := iface.ResolveIfName(first);
    name2, asked2 := iface.ResolveIfName(second);
  }

  // ---- CanFrame ----

  /** `new IllegalArgumentException()` is built without a message, so its
      message is null; the model writes that null message as the empty text. */
  const NO_MESSAGE: string := ""

  /** A frame: the interface it came from or goes to, its identifier and
      its payload. */
  class CanFrame {
    const canIf: CanInterface
    const canId: CanId
    const data: seq<bv8>

    /** The public constructor takes the payload as it is; its length is
        checked only when the frame is sent. */
    constructor(canIf: CanInterface, canId: CanId, data: seq<bv8>)
      ensures this.canIf == canIf && this.canId == canId && this.data == data
    {
      this.canIf := canIf;
      this.canId := canId;
      this.data := data;
    }

    /** The constructor native code calls: refuses a payload longer than
        eight bytes, otherwise wraps the index and the word in new objects. */
    static method FromNative(ifIndex: int32, canid: bv32, data: seq<bv8>) returns (r: Result<CanFrame>)
      ensures r.Err? <==> |data| > CAN_MAX_DLEN
      ensures r.Err? ==> r.failure == IllegalArgument(NO_MESSAGE)
      ensures r.Ok? ==> fresh(r.value) && fresh(r.value.canIf) && fresh(r.value.canId)
      ensures r.Ok? ==> r.value.canIf.ifIndex == ifIndex && r.value.canIf.ifName == None
      ensures r.Ok? ==> r.value.canId.canId == canid && r.value.data == data
    {
      if |data| > CAN_MAX_DLEN {
        return Err(IllegalArgument(NO_MESSAGE));
      }
      var i := new CanInterface.Of(ifIndex, None);
      var c := new CanId(canid);
      var f := new CanFrame(i, c, data);
      r := Ok(f);
    }

    /** A new frame sharing the interface, with a copy of the identifier and
        of the payload. */
    method Clone() returns (c: CanFrame)
      ensures fresh(c) && fresh(c.canId)
      ensures c.canIf == canIf && c.canId.canId == canId.canId && c.data == data
    {
      var id := canId.Clone();
      c := new CanFrame(canIf, id, data);
    }
  }

  // ---- CanSocket ----

  /** What the boolean socket options carry: 1 for on, 0 for off. */
  function OptionValue(on: bool): (v: int32)
    ensures v == 0 || v == 1
    ensures on <==> v == 1
  {
    if on then 1 else 0
  }

  /** What the boolean getters report: on exactly when the value is 1. */
  function OptionFlag(r: Result<int32>): (b: Result<bool>)
    ensures b.Ok? <==> r.Ok?
    ensures b.Err? ==> b.failure == r.failure
    ensures b.Ok? ==> (b.value <==> r.value == 1)
  {
    if r.Ok? then Ok(r.value == 1) else Err(r.failure)
  }

  /** When the kernel reports back the value last set, the getter reports
      the boolean last set. */
  lemma OptionRoundTrip(fd: int32, op: int32, on: bool, ret: int, errno: int)
    requires ret != -1
    ensures OptionFlag(GetSockOpt(fd, op, ret, errno, SIZEOF_INT, OptionValue(on)).1) == Ok(on)
  {
  }

  /** An open CAN socket: its descriptor, its kind and the interface it was
      last bound to. */
  class CanSocket {
    const fd: int32
    const mode: Mode
    var boundTo: CanInterface?

    constructor Of(fd: int32, mode: Mode)
      ensures this.fd == fd && this.mode == mode && boundTo == null
    {
      this.fd := fd;
      this.mode := mode;
      boundTo := null;
    }

    /** The constructor `CanSocket(Mode)`: opens a socket of the kind the
        mode names; `socket` returned `fd` and left `errno`. */
    static method Open(mode: Mode, fd: int32, errno: int) returns (call: SocketCall, r: Result<CanSocket>)
      ensures call == OpenCall(mode)
      ensures r.Ok? <==> fd != -1
      ensures r.Err? ==> r.failure == IOError(errno)
      ensures r.Ok? ==> fresh(r.value) && r.value.fd == fd && r.value.mode == mode && r.value.boundTo == null
    {
      call := OpenCall(mode);
      var socketFd := NewCanSocket(fd, errno);
      if socketFd.Err? {
        return call, Err(socketFd.failure);
      }
      var s := new CanSocket.Of(socketFd.value, mode);
      r := Ok(s);
    }

    /** `bind`: binds to the interface's index; the socket remembers the
        interface only when `bind` returned 0. */
    method Bind(canInterface: CanInterface, ret: int, errno: int) returns (call: BindCall, r: Result<()>)
      modifies this
      ensures call == BindCall(fd, SockAddrCan(AF_CAN, canInterface.ifIndex))
      ensures r.Ok? <==> ret == 0
      ensures r.Err? ==> r.failure == IOError(errno)
      ensures boundTo == if r.Ok? then canInterface else old(boundTo)
    {
      call := BindCall(fd, SockAddrCan(AF_CAN, canInterface.ifIndex));
      r := BindOutcome(ret, errno);
      if r.Ok? {
        boundTo := canInterface;
      }
    }

    /** `send`: the frame's interface index, word and payload go to
        `_sendFrame`; `sendto` returned `sent`. */
    method Send(frame: CanFrame, sent: int, errno: int) returns (call: SendCall, r: Result<()>)
      requires |frame.data| <= CAN_MAX_DLEN
      ensures call.fd == fd
      ensures call.addr == SockAddrCan(AF_CAN, frame.canIf.ifIndex)
      ensures call.wire == WireFrame(frame.canId.canId, frame.data)
      ensures r.Ok? <==> sent == CAN_MTU
      ensures r.Err? ==> r.failure == (if sent == -1 then IOError(errno) else IOMessage(SEND_PARTIAL))
    {
      call, r := SendFrame(fd, frame.canIf.ifIndex, frame.canId.canId, frame.data, sent, errno);
    }

    /** `recv`: `_recvFrame` over the buffer `recvfrom` filled, then the
        native-side frame constructor, whose length check never fires on
        a payload the codec cut out. */
    method Recv(buf: array<bv8>, nbytes: int, errno: int, addrLen: int, srcIf: int32)
      returns (call: RecvCall, r: Result<CanFrame>)
      requires buf.Length == CAN_MTU
      ensures call == RecvCall(fd, CAN_MTU)
      ensures r.Ok? <==> addrLen == SOCKADDR_CAN_SIZE && nbytes == CAN_MTU
      ensures r.Err? ==> r.failure == RecvOutcome(buf[..], nbytes, errno, addrLen, srcIf).failure
      ensures r.Ok? ==> fresh(r.value) && fresh(r.value.canIf) && fresh(r.value.canId)
      ensures r.Ok? ==> r.value.canIf.ifIndex == srcIf && r.value.canIf.ifName == None
      ensures r.Ok? ==> r.value.canId.canId == IdOfBytes(buf[..4])
      ensures r.Ok? ==> r.value.data == RecvOutcome(buf[..], nbytes, errno, addrLen, srcIf).value.data
      ensures r.Ok? ==> |r.value.data| <= CAN_MAX_DLEN
    {
      var raw;
      call, raw := RecvFrame(fd, buf, nbytes, errno, addrLen, srcIf);
      if raw.Err? {
        return call, Err(raw.failure);
      }
      r := CanFrame.FromNative(raw.value.ifIndex, raw.value.canId, raw.value.data);
    }

    /** `close`: closes this socket's descriptor; `closed` is the descriptor
        handed to `close`. */
    method Close(ret: int, errno: int) returns (closed: int32, r: Result<()>)
      ensures closed == fd
      ensures r.Ok? <==> ret != -1
      ensures r.Err? ==> r.failure == IOError(errno)
    {
      closed := fd;
      r := CloseOutcome(ret, errno);
    }

    /** `getMtu`: the MTU of the named interface. */
    method GetMtu(name: JString, reply: IoctlReply) returns (issued: Option<IfReq>, r: Result<int32>)
      ensures issued.Some? <==> NameFits(name)
      ensures !NameFits(name) ==> r == Err(IllegalArgument(ILLEGAL_NAME))
      ensures issued.Some? ==> issued.value == IfReq(SIOCGIFMTU, IfrName(name))
      ensures issued.Some? && reply.IoctlFailed? ==> r == Err(IOError(reply.errno))
      ensures issued.Some? && reply.IoctlDone? ==> r == Ok(reply.value)
    {
      issued, r := FetchInterfaceMtu(name, reply);
    }

    method SetLoopbackMode(on: bool, ret: int, errno: int) returns (call: SockOptCall, r: Result<()>)
      ensures call == SockOptCall(fd, SOL_CAN_RAW, CAN_RAW_LOOPBACK, if on then 1 else 0)
      ensures r.Ok? <==> ret != -1
      ensures r.Err? ==> r.failure == IOError(errno)
    {
      var out := SetSockOpt(fd, CAN_RAW_LOOPBACK, OptionValue(on), ret, errno);
      call, r := out.0, out.1;
    }

    method GetLoopbackMode(ret: int, errno: int, len: int, stat: int32) returns (call: SockOptCall, r: Result<bool>)
      ensures call.fd == fd && call.level == SOL_CAN_RAW && call.option == CAN_RAW_LOOPBACK
      ensures r.Ok? <==> ret != -1 && len == SIZEOF_INT
      ensures r.Ok? ==> (r.value <==> stat == 1)
      ensures r.Err? ==> r.failure == GetSockOpt(fd, CAN_RAW_LOOPBACK, ret, errno, len, stat).1.failure
    {
      var out := GetSockOpt(fd, CAN_RAW_LOOPBACK, ret, errno, len, stat);
      call, r := out.0, OptionFlag(out.1);
    }

    method SetRecvOwnMsgsMode(on: bool, ret: int, errno: int) returns (call: SockOptCall, r: Result<()>)
      ensures call == SockOptCall(fd, SOL_CAN_RAW, CAN_RAW_RECV_OWN_MSGS, if on then 1 else 0)
      ensures r.Ok? <==> ret != -1
      ensures r.Err? ==> r.failure == IOError(errno)
    {
      var out := SetSockOpt(fd, CAN_RAW_RECV_OWN_MSGS, OptionValue(on), ret, errno);
      call, r := out.0, out.1;
    }

    method GetRecvOwnMsgsMode(ret: int, errno: int, len: int, stat: int32) returns (call: SockOptCall, r: Result<bool>)
      ensures call.fd == fd && call.level == SOL_CAN_RAW && call.option == CAN_RAW_RECV_OWN_MSGS
      ensures r.Ok? <==> ret != -1 && len == SIZEOF_INT
      ensures r.Ok? ==> (r.value <==> stat == 1)
      ensures r.Err? ==> r.failure == GetSockOpt(fd, CAN_RAW_RECV_OWN_MSGS, ret, errno, len, stat).1.failure
    {
      var out := GetSockOpt(fd, CAN_RAW_RECV_OWN_MSGS, ret, errno, len, stat);
      call, r := out.0, OptionFlag(out.1);
    }
  }

  /** Setting a boolean option and reading it back, with the kernel storing
      the value it was given, yields the boolean that was set; this holds
      for both options. */
  method SetThenGetLoopback(sock: CanSocket, on: bool) returns (got: Result<bool>)
    ensures got == Ok(on)
  {
    var call, _ := sock.SetLoopbackMode(on, 0, 0);
    var _, r := sock.GetLoopbackMode(0, 0, SIZEOF_INT, call.value);
    got := r;
  }

  method SetThenGetRecvOwnMsgs(sock: CanSocket, on: bool) returns (got: Result<bool>)
    ensures got == Ok(on)
  {
    var call, _ := sock.SetRecvOwnMsgsMode(on, 0, 0);
    var _, r := sock.GetRecvOwnMsgsMode(0, 0, SIZEOF_INT, call.value);
    got := r;
  }

  /** A frame sent and looped back arrives with the interface, identifier
      and payload it was sent with. */
  method SendThenRecv(sock: CanSocket, frame: CanFrame, errno: int) returns (received: Result<CanFrame>)
    requires |frame.data| <= CAN_MAX_DLEN
    ensures received.Ok?
    ensures received.value.canIf.ifIndex == frame.canIf.ifIndex
    ensures received.value.canId.canId == frame.canId.canId && received.value.data == frame.data
  {
    var sent, _ := sock.Send(frame, CAN_MTU, errno);
    var wire := sent.wire;
    var buf := new bv8[CAN_MTU](k requires 0 <= k < CAN_MTU => wire[k]);
    assert buf[..] == wire;
    LoopbackRoundTrip(sent.addr.ifIndex, frame.canId.canId, frame.data, errno);
    var _, r := sock.Recv(buf, CAN_MTU, errno, SOCKADDR_CAN_SIZE, sent.addr.ifIndex);
    received := r;
  }
}
