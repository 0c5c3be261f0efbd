/** The classic-frame codec of the native layer: `_sendFrame` builds a
    zeroed 16-byte `struct can_frame` and hands it to `sendto`; `_recvFrame`
    checks what `recvfrom` reported and cuts the payload out of the buffer.
    The kernel calls are inputs: the byte count and errno they return, the
    address length and source interface `recvfrom` reports, and the buffer
    contents it leaves behind. */
module FrameCodec {
  import opened CanTypes

  const SEND_PARTIAL: string := "send partial frame"
  const RECV_BAD_LENGTH: string := "invalid length of received frame"
  const RECV_BAD_ADDRESS: string := "illegal AF_CAN address"

  /** The arguments of `sendto`: the socket, the destination address and
      the frame bytes. */
  datatype SendCall = SendCall(fd: int32, addr: SockAddrCan, wire: seq<bv8>)

  /** The arguments of `recvfrom`: the socket and the size of the frame
      buffer it may fill. */
  datatype RecvCall = RecvCall(fd: int32, size: int)

  /** What `_recvFrame` passes to the Java `CanFrame(int, int, byte[])`
      constructor: source interface, identifier word and payload. */
  datatype RawFrame = RawFrame(ifIndex: int32, canId: bv32, data: seq<bv8>)

  // ---- wire layout ----

  /** The four bytes of `can_id` in host byte order (a little-endian host). */
  function IdBytes(id: bv32): (b: seq<bv8>)
    ensures |b| == 4
  {
    [(id & 0xFF) as bv8, ((id >> 8) & 0xFF) as bv8,
     ((id >> 16) & 0xFF) as bv8, (id >> 24) as bv8]
  }

  /** Reads `can_id` back from its four bytes. */
  function IdOfBytes(b: seq<bv8>): bv32
    requires |b| == 4
  {
    (b[0] as bv32) | ((b[1] as bv32) << 8) | ((b[2] as bv32) << 16) | ((b[3] as bv32) << 24)
  }

  lemma IdBytesRoundTrip(id: bv32)
    ensures IdOfBytes(IdBytes(id)) == id
  {
  }

  /** The `can_dlc` byte of a payload of n bytes. */
  function Dlc(n: nat): bv8
    requires n <= CAN_MAX_DLEN
  {
    n as bv8
  }

  /** The 16 bytes `_sendFrame` hands to `sendto`: identifier, length byte,
      three zero bytes (padding and reserved), payload, zero tail. */
  function WireFrame(id: bv32, data: seq<bv8>): (w: seq<bv8>)
    requires |data| <= CAN_MAX_DLEN
    ensures |w| == CAN_MTU
  {
    IdBytes(id) + [Dlc(|data|), 0, 0, 0] + data + Fill(CAN_MAX_DLEN - |data|, 0)
  }

  /** Byte k of the wire frame, field by field. */
  lemma WireFrameAt(id: bv32, data: seq<bv8>, k: nat)
    requires |data| <= CAN_MAX_DLEN && k < CAN_MTU
    ensures k < 4 ==> WireFrame(id, data)[k] == IdBytes(id)[k]
    ensures k == CAN_DLC_OFFSET ==> WireFrame(id, data)[k] == Dlc(|data|)
    ensures CAN_DLC_OFFSET < k < CAN_DATA_OFFSET ==> WireFrame(id, data)[k] == 0
    ensures CAN_DATA_OFFSET <= k < CAN_DATA_OFFSET + |data| ==>
              WireFrame(id, data)[k] == data[k - CAN_DATA_OFFSET]
    ensures CAN_DATA_OFFSET + |data| <= k ==> WireFrame(id, data)[k] == 0
  {
  }

  // ---- send ----

  /** The verdict `_sendFrame` draws from what `sendto` returned. */
  function SendOutcome(sent: int, errno: int): (r: Result<()>)
    ensures r.Ok? <==> sent == CAN_MTU
    ensures sent == -1 ==> r == Err(IOError(errno))
    ensures sent != -1 && sent != CAN_MTU ==> r == Err(IOMessage(SEND_PARTIAL))
  {
    if sent == -1 then Err(IOError(errno))
    else if sent != CAN_MTU then Err(IOMessage(SEND_PARTIAL))
    else Ok(())
  }

  /** `memset(buf, 0, n)`. */
  method ZeroFill(buf: array<bv8>)
    modifies buf
    ensures buf[..] == Fill(buf.Length, 0)
  {
    var i := 0;
    while i < buf.Length
      invariant 0 <= i <= buf.Length
      invariant forall k :: 0 <= k < i ==> buf[k] == 0
    {
      buf[i] := 0;
      i := i + 1;
    }
  }

  /** The identifier bytes and the length byte; the three bytes after the
      length byte and the data field are left as they are. */
  method WriteHeader(frame: array<bv8>, canid: bv32, len: nat)
    requires frame.Length == CAN_MTU && len <= CAN_MAX_DLEN
    modifies frame
    ensures frame[..CAN_DLC_OFFSET + 1] == IdBytes(canid) + [Dlc(len)]
    ensures frame[CAN_DLC_OFFSET + 1..] == old(frame[CAN_DLC_OFFSET + 1..])
  {
    var idb := IdBytes(canid);
    frame[0], frame[1], frame[2], frame[3] := idb[0], idb[1], idb[2], idb[3];
    frame[CAN_DLC_OFFSET] := Dlc(len);
  }

  /** The payload copied into the data field; every other byte is kept. */
  method CopyPayload(frame: array<bv8>, data: seq<bv8>)
    requires frame.Length == CAN_MTU && |data| <= CAN_MAX_DLEN
    modifies frame
    ensures frame[..CAN_DATA_OFFSET] == old(frame[..CAN_DATA_OFFSET])
    ensures frame[CAN_DATA_OFFSET..CAN_DATA_OFFSET + |data|] == data
    ensures frame[CAN_DATA_OFFSET + |data|..] == old(frame[CAN_DATA_OFFSET + |data|..])
  {
    var j := 0;
    while j < |data|
      invariant 0 <= j <= |data|
      invariant forall k :: 0 <= k < j ==> frame[CAN_DATA_OFFSET + k] == data[k]
      invariant forall k :: 0 <= k < CAN_MTU && !(CAN_DATA_OFFSET <= k < CAN_DATA_OFFSET + j) ==>
                  frame[k] == old(frame[k])
    {
      frame[CAN_DATA_OFFSET + j] := data[j];
      j := j + 1;
    }
  }

  /** memset(&frame, 0, sizeof frame), then can_id, can_dlc and the payload. */
  method FillFrame(frame: array<bv8>, canid: bv32, data: seq<bv8>)
    requires frame.Length == CAN_MTU
    requires |data| <= CAN_MAX_DLEN
    modifies frame
    ensures frame[..] == WireFrame(canid, data)
  {
    ZeroFill(frame);
    WriteHeader(frame, canid, |data|);
    assert frame[CAN_DLC_OFFSET + 1..] == Fill(CAN_MTU - CAN_DLC_OFFSET - 1, 0);
    var header := frame[..CAN_DATA_OFFSET];
    assert header == IdBytes(canid) + [Dlc(|data|), 0, 0, 0];
    CopyPayload(frame, data);
    var end := CAN_DATA_OFFSET + |data|;
    assert frame[end..] == Fill(CAN_MAX_DLEN - |data|, 0);
    assert frame[..] == header + frame[CAN_DATA_OFFSET..end] + frame[end..];
  }

  /** `_sendFrame`: the socket, destination address and frame handed to
      `sendto`, and the verdict on the byte count `sent` that `sendto`
      returned. */
  method SendFrame(fd: int32, ifIndex: int32, canid: bv32, data: seq<bv8>, sent: int, errno: int)
    returns (call: SendCall, r: Result<()>)
    requires |data| <= CAN_MAX_DLEN
    ensures call.fd == fd
    ensures call.addr == SockAddrCan(AF_CAN, ifIndex)
    ensures call.wire == WireFrame(canid, data)
    ensures r == SendOutcome(sent, errno)
  {
    var addr := SockAddrCan(AF_CAN, ifIndex);
    var frame := new bv8[CAN_MTU];
    FillFrame(frame, canid, data);
    call := SendCall(fd, addr, frame[..]);
    if sent == -1 {
      r := Err(IOError(errno));
    } else if sent != CAN_MTU {
      r := Err(IOMessage(SEND_PARTIAL));
    } else {
      r := Ok(());
    }
  }

  // ---- receive ----

  /** What `_recvFrame` makes of a `recvfrom` that returned `nbytes` (and
      `errno`), reported an address of `addrLen` bytes from interface
      `srcIf`, and left `buf` in the frame buffer. The address length is
      checked before the byte count; the payload is the first
      min(can_dlc, nbytes - offsetof(data)) bytes of the data field. */
  function RecvOutcome(buf: seq<bv8>, nbytes: int, errno: int, addrLen: int, srcIf: int32)
    : (r: Result<RawFrame>)
    requires |buf| == CAN_MTU
    ensures r.Ok? <==> addrLen == SOCKADDR_CAN_SIZE && nbytes == CAN_MTU
    ensures addrLen != SOCKADDR_CAN_SIZE ==> r == Err(IllegalArgument(RECV_BAD_ADDRESS))
    ensures addrLen == SOCKADDR_CAN_SIZE && nbytes == -1 ==> r == Err(IOError(errno))
    ensures addrLen == SOCKADDR_CAN_SIZE && nbytes != -1 && nbytes != CAN_MTU ==>
              r == Err(IOMessage(RECV_BAD_LENGTH))
    ensures r.Ok? ==> r.value.ifIndex == srcIf && r.value.canId == IdOfBytes(buf[..4])
    ensures r.Ok? ==> |r.value.data| == Min(buf[CAN_DLC_OFFSET] as int, CAN_MAX_DLEN)
    ensures r.Ok? ==> r.value.data == buf[CAN_DATA_OFFSET..CAN_DATA_OFFSET + |r.value.data|]
  {
    if addrLen != SOCKADDR_CAN_SIZE then Err(IllegalArgument(RECV_BAD_ADDRESS))
    else if nbytes == -1 then Err(IOError(errno))
    else if nbytes != CAN_MTU then Err(IOMessage(RECV_BAD_LENGTH))
    else
      var fsize := Min(buf[CAN_DLC_OFFSET] as int, nbytes - CAN_DATA_OFFSET);
      Ok(RawFrame(srcIf, IdOfBytes(buf[..4]), buf[CAN_DATA_OFFSET..CAN_DATA_OFFSET + fsize]))
  }

  /** `_recvFrame` over the frame buffer `recvfrom` filled: the checks in
      source order, then the payload copied out byte by byte. */
  method RecvFrame(fd: int32, frame: array<bv8>, nbytes: int, errno: int, addrLen: int, srcIf: int32)
    returns (call: RecvCall, r: Result<RawFrame>)
    requires frame.Length == CAN_MTU
    ensures call == RecvCall(fd, CAN_MTU)
    ensures r == RecvOutcome(frame[..], nbytes, errno, addrLen, srcIf)
  {
    call := RecvCall(fd, frame.Length);
    if addrLen != SOCKADDR_CAN_SIZE {
      return call, Err(IllegalArgument(RECV_BAD_ADDRESS));
    }
    if nbytes == -1 {
      return call, Err(IOError(errno));
    } else if nbytes != CAN_MTU {
      return call, Err(IOMessage(RECV_BAD_LENGTH));
    }
    var fsize := Min(frame[CAN_DLC_OFFSET] as int, nbytes - CAN_DATA_OFFSET);
    var data := new bv8[fsize];
    var i := 0;
    while i < fsize
      invariant 0 <= i <= fsize
      invariant forall k :: 0 <= k < i ==> data[k] == frame[CAN_DATA_OFFSET + k]
    {
      data[i] := frame[CAN_DATA_OFFSET + i];
      i := i + 1;
    }
    assert data[..] == frame[CAN_DATA_OFFSET..CAN_DATA_OFFSET + fsize];
    r := Ok(RawFrame(srcIf, IdOfBytes(frame[..4]), data[..]));
  }

  /** A frame sent and received back unchanged (loopback) decodes to the
      identifier and payload it was built from; a zero-length payload
      decodes to the empty sequence. */
  lemma LoopbackRoundTrip(ifIndex: int32, id: bv32, data: seq<bv8>, errno: int)
    requires |data| <= CAN_MAX_DLEN
    ensures RecvOutcome(WireFrame(id, data), CAN_MTU, errno, SOCKADDR_CAN_SIZE, ifIndex)
            == Ok(RawFrame(ifIndex, id, data))
  {
    var w := WireFrame(id, data);
    assert w[..4] == IdBytes(id);
    IdBytesRoundTrip(id);
    assert w[CAN_DLC_OFFSET] == Dlc(|data|);
    assert w[CAN_DATA_OFFSET..CAN_DATA_OFFSET + |data|] == data;
  }
}
