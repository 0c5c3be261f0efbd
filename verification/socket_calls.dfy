/** The thin native wrappers around `socket`, `close`, `bind`, `setsockopt`
    and `getsockopt`. Each kernel call is an input: what it returned and the
    errno it left. What the wrapper hands to the kernel is an output. */
module SocketCalls {
  import opened CanTypes

  const GETSOCKOPT_BAD_SIZE: string := "setsockopt return size is different"

  /** The two socket kinds of the Java `CanSocket.Mode` enum. */
  datatype Mode = RAW | BCM

  /** The arguments of `socket(PF_CAN, type, protocol)`. */
  datatype SocketCall = SocketCall(domain: int, socketType: int, protocol: int)

  /** `_openSocketRAW` asks for a raw socket, `_openSocketBCM` for a
      datagram socket of the broadcast manager; both in the CAN family. */
  function OpenCall(mode: Mode): (c: SocketCall)
    ensures c.domain == AF_CAN
    ensures mode == RAW <==> c == SocketCall(AF_CAN, SOCK_RAW, CAN_RAW)
    ensures mode == BCM <==> c == SocketCall(AF_CAN, SOCK_DGRAM, CAN_BCM)
  {
    match mode
    case RAW => SocketCall(AF_CAN, SOCK_RAW, CAN_RAW)
    case BCM => SocketCall(AF_CAN, SOCK_DGRAM, CAN_BCM)
  }

  /** `newCanSocket`: the descriptor `socket` returned, unless that is -1. */
  function NewCanSocket(fd: int32, errno: int): (r: Result<int32>)
    ensures r.Ok? <==> fd != -1
    ensures r.Ok? ==> r.value == fd
    ensures r.Err? ==> r.failure == IOError(errno)
  {
    if fd != -1 then Ok(fd) else Err(IOError(errno))
  }

  /** `_close`: only a return of -1 is a failure. */
  function CloseOutcome(ret: int, errno: int): (r: Result<()>)
    ensures r.Ok? <==> ret != -1
    ensures r.Err? ==> r.failure == IOError(errno)
  {
    if ret == -1 then Err(IOError(errno)) else Ok(())
  }

  /** The arguments of `bind`: the socket and the address it is bound to. */
  datatype BindCall = BindCall(fd: int32, addr: SockAddrCan)

  /** `_bindToSocket`: any return but 0 is a failure. */
  function BindOutcome(ret: int, errno: int): (r: Result<()>)
    ensures r.Ok? <==> ret == 0
    ensures r.Err? ==> r.failure == IOError(errno)
  {
    if ret != 0 then Err(IOError(errno)) else Ok(())
  }

  /** The arguments of `setsockopt`/`getsockopt` on a raw CAN socket. */
  datatype SockOptCall = SockOptCall(fd: int32, level: int, option: int32, value: int32)

  /** `_setsockopt`: the option value goes to level SOL_CAN_RAW as a C int;
      only a return of -1 is a failure. */
  function SetSockOpt(fd: int32, op: int32, stat: int32, ret: int, errno: int)
    : (out: (SockOptCall, Result<()>))
    ensures out.0 == SockOptCall(fd, SOL_CAN_RAW, op, stat)
    ensures out.1.Ok? <==> ret != -1
    ensures out.1.Err? ==> out.1.failure == IOError(errno)
  {
    (SockOptCall(fd, SOL_CAN_RAW, op, stat), if ret == -1 then Err(IOError(errno)) else Ok(()))
  }

  /** `_getsockopt`: `getsockopt` returned `ret`, wrote `len` back as the
      size of the option and `stat` as its value. A failed call raises the
      errno (the model keeps that exception even where the size check that
      follows it would throw a second one). A size other than sizeof(int)
      is refused; otherwise the value is returned. */
  function GetSockOpt(fd: int32, op: int32, ret: int, errno: int, len: int, stat: int32)
    : (out: (SockOptCall, Result<int32>))
    ensures out.0 == SockOptCall(fd, SOL_CAN_RAW, op, 0)
    ensures out.1.Ok? <==> ret != -1 && len == SIZEOF_INT
    ensures ret == -1 ==> out.1 == Err(IOError(errno))
    ensures ret != -1 && len != SIZEOF_INT ==> out.1 == Err(IllegalArgument(GETSOCKOPT_BAD_SIZE))
    ensures out.1.Ok? ==> out.1.value == stat
  {
    var call := SockOptCall(fd, SOL_CAN_RAW, op, 0);
    if ret == -1 then (call, Err(IOError(errno)))
    else if len != SIZEOF_INT then (call, Err(IllegalArgument(GETSOCKOPT_BAD_SIZE)))
    else (call, Ok(stat))
  }
}
