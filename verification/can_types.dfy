/** Kernel ABI constants of Linux SocketCAN (linux/can.h, linux/can/raw.h,
    net/if.h, sys/socket.h) as the native layer sees them, and the error
    surface that the native layer raises into the Java host. */
module CanTypes {

  /** A Java `int` / C `int`. */
  newtype int32 = x: int | -0x8000_0000 <= x < 0x8000_0000

  /** A byte of a C string, by its unsigned value. */
  newtype uint8 = x: int | 0 <= x < 0x100

  // ---- CAN identifier word (linux/can.h) ----

  /** Extended frame format flag: the address is 29 bits wide. */
  const CAN_EFF_FLAG: bv32 := 0x8000_0000
  /** Remote transmission request flag. */
  const CAN_RTR_FLAG: bv32 := 0x4000_0000
  /** Error message frame flag. */
  const CAN_ERR_FLAG: bv32 := 0x2000_0000

  /** Standard frame format (11-bit) address mask. */
  const CAN_SFF_MASK: bv32 := 0x0000_07FF
  /** Extended frame format (29-bit) address mask. */
  const CAN_EFF_MASK: bv32 := 0x1FFF_FFFF
  /** Error class mask; the same 29 low bits as the extended mask. */
  const CAN_ERR_MASK: bv32 := 0x1FFF_FFFF

  // ---- struct can_frame ----

  /** Capacity of the payload buffer of a classic frame. */
  const CAN_MAX_DLEN: nat := 8
  /** sizeof(struct can_frame). */
  const CAN_MTU: nat := 16
  /** sizeof(struct canfd_frame). */
  const CANFD_MTU: nat := 72
  /** offsetof(struct can_frame, can_dlc). */
  const CAN_DLC_OFFSET: nat := 4
  /** offsetof(struct can_frame, data). */
  const CAN_DATA_OFFSET: nat := 8

  // ---- addresses and sockets ----

  /** AF_CAN == PF_CAN. */
  const AF_CAN: int := 29
  /** sizeof(struct sockaddr_can), including the transport-protocol/J1939 union. */
  const SOCKADDR_CAN_SIZE: nat := 24
  const SOCK_DGRAM: int := 2
  const SOCK_RAW: int := 3
  /** CAN protocol numbers. */
  const CAN_RAW: int := 1
  const CAN_BCM: int := 2
  /** sizeof(int). */
  const SIZEOF_INT: nat := 4

  /** Interface name buffer size of struct ifreq, terminator included. */
  const IFNAMSIZ: nat := 16
  const SIOCGIFNAME: int := 0x8910
  const SIOCGIFMTU: int := 0x8921
  const SIOCGIFINDEX: int := 0x8933

  // ---- raw socket options (linux/can/raw.h) ----

  /** SOL_CAN_BASE + CAN_RAW. */
  const SOL_CAN_RAW: int := 101
  const CAN_RAW_FILTER: int32 := 1
  const CAN_RAW_ERR_FILTER: int32 := 2
  const CAN_RAW_LOOPBACK: int32 := 3
  const CAN_RAW_RECV_OWN_MSGS: int32 := 4
  const CAN_RAW_FD_FRAMES: int32 := 5

  /** struct sockaddr_can as `bind` and `sendto` are given it: the family
      and the interface index. */
  datatype SockAddrCan = SockAddrCan(family: int, ifIndex: int32)

  // ---- errors ----

  /** The exceptions the native layer throws. */
  datatype Failure =
    | IOError(errno: int)            // IOException carrying strerror(errno)
    | IOMessage(message: string)     // IOException with a fixed message
    | IllegalArgument(message: string)
    | StringIndexOutOfBounds           // raised by the JVM inside a JNI string call

  datatype Result<T> = Ok(value: T) | Err(failure: Failure)

  /** A UTF-16 code unit, the element of a Java String. */
  type Unit = u: int | 0 <= u < 0x1_0000

  /** A Java String: its sequence of UTF-16 code units. */
  type JString = seq<Unit>

  /** A Java reference that may be null. */
  datatype Option<T> = None | Some(value: T)

  function Min(a: int, b: int): int { if a <= b then a else b }

  /** n copies of x: the bytes a memset leaves. */
  function Fill<T>(n: nat, x: T): (s: seq<T>)
    ensures |s| == n && forall k :: 0 <= k < n ==> s[k] == x
  {
    seq(n, _ => x)
  }
}
