# SocketCAN binding for Java — verified model

This project models the core of a Java binding to Linux SocketCAN. The binding has a Java class `CanSocket`
with nested classes `CanId`, `CanInterface` and `CanFrame`, backed by a C++ JNI library. The model covers:

- the 32-bit CAN identifier word: the 11-bit standard and 29-bit extended address masks and the EFF,
  RTR and ERR flag bits of `linux/can.h`;
- how a classic `struct can_frame` (16 bytes) is built for `sendto` and taken apart after `recvfrom`;
- how Java interface names are encoded into the 16-byte `ifr_name` of `struct ifreq` and decoded back;
- the error translation of every native call;
- the Java objects that hold an identifier, an interface (with its lazily resolved name), a frame and a
  socket (with the interface it is bound to).

Every kernel call is an input of the operation that makes it: the count or status it returned, the `errno`
it left, the address length and buffer contents `recvfrom` reported, and the `ifr_name` or integer an
`ioctl` filled in. What the binding hands to the kernel is an output: the socket triple; the descriptor
together with the `sockaddr_can` of `bind`; the descriptor, address and 16 wire bytes of `sendto`; the
descriptor and buffer size of `recvfrom`; the descriptor `close` closes; the `ifreq` of each `ioctl` (but
not the descriptor it is issued on, see "## Left out"); and the option call. Java exceptions are the `Failure` datatype:

- `IOError(errno)` is an `IOException` built from `strerror(errno)`;
- `IOMessage(text)` is an `IOException` with a fixed text;
- `IllegalArgument(text)` is an `IllegalArgumentException`;
- `StringIndexOutOfBounds` is raised by the JVM inside `GetStringUTFRegion`.

A Java `String` is a sequence of UTF-16 code units (`JString`). JNI hands strings to C in modified UTF-8.

Modules:

- `CanTypes` (`can_types.dfy`) holds the kernel constants and the shared datatypes.
- `CanIdBits` (`can_id_bits.dfy`) holds the identifier helpers.
- `FrameCodec` (`frame_codec.dfy`) holds `_sendFrame`/`_recvFrame` over a 16-byte array.
- `InterfaceNames` (`interface_names.dfy`) holds modified UTF-8, `ifr_name` and the three `ioctl` calls.
- `SocketCalls` (`socket_calls.dfy`) holds `socket`, `close`, `bind`, `setsockopt` and `getsockopt`.
- `CanSocketApi` (`can_socket_api.dfy`) holds the Java classes.

Three behaviours of the code shape the model:

- A wrong address length and a wrong option size raise `IllegalArgumentException`
  (jni/cansocket.cpp:178-181 and 258-260).
- Every received byte count other than 16 is refused with "invalid length of received frame"
  (jni/cansocket.cpp:185-187). The payload length `min(can_dlc, nbytes - 8)` is therefore always
  `min(can_dlc, 8)`.
- `send` uses the frame's own interface index as it is, with no substitution of the bound interface for
  the wildcard index (src/de/entropia/can/CanSocket.java:399).

## Model

| member | source | states |
|---|---|---|
| CanIdBits.GetSff | jni/cansocket.cpp:313-317 | the standard address is below 2^11 and agrees with the word on its low 11 bits |
| CanIdBits.GetEff | jni/cansocket.cpp:319-323 | the extended address is below 2^29 and agrees with the word on its low 29 bits |
| CanIdBits.GetErr | jni/cansocket.cpp:325-329 | the error class is below 2^29 and agrees with the word on its low 29 bits |
| CanIdBits.IsSetEff | jni/cansocket.cpp:331-335 | true exactly when bit 31 is set (the word is at least 0x80000000) |
| CanIdBits.IsSetRtr | jni/cansocket.cpp:337-341 | true exactly when bit 30 is set |
| CanIdBits.IsSetErr | jni/cansocket.cpp:343-347 | true exactly when bit 29 is set |
| CanIdBits.SetEff | jni/cansocket.cpp:349-353 | the result has the EFF flag set and agrees with the input on every other bit |
| CanIdBits.SetRtr | jni/cansocket.cpp:355-359 | the result has the RTR flag set and agrees with the input on every other bit |
| CanIdBits.SetErr | jni/cansocket.cpp:361-365 | the result has the ERR flag set and agrees with the input on every other bit |
| CanIdBits.ClearEff | jni/cansocket.cpp:367-371 | the result has the EFF flag clear and agrees with the input on every other bit |
| CanIdBits.ClearRtr | jni/cansocket.cpp:373-377 | the result has the RTR flag clear and agrees with the input on every other bit |
| CanIdBits.ClearErr | jni/cansocket.cpp:379-383 | the result has the ERR flag clear and agrees with the input on every other bit |
| CanIdBits.FlagLaws | jni/cansocket.cpp:349-383 | for each flag: set and clear are idempotent, clear after set equals clear, set after clear equals set, and updating a flag to its current value changes nothing |
| CanIdBits.UpdateKeepsOtherFields | jni/cansocket.cpp:349-383 | setting or clearing any flag keeps the standard address, the extended address and each of the other two flags |
| CanIdBits.FieldsDetermineId | jni/cansocket.cpp:319-347 | two words with the same extended address and the same three flags are equal: the word is exactly address plus flags |
| CanIdBits.FlagTestVectors | src.test/de/entropia/can/CanSocketTest.java:74-99 | 0 has no flag and 0xFFFFFFFF has all three; after setting and clearing each flag in turn from 0, the extended address is 0; setting EFF on 0x123 gives 0x80000123 |
| FrameCodec.IdBytesRoundTrip | jni/cansocket.cpp:150 | the four bytes `can_id` is stored as read back to the same identifier word |
| FrameCodec.WireFrame | jni/cansocket.cpp:141-152 | the frame handed to `sendto` is exactly 16 bytes |
| FrameCodec.WireFrameAt | jni/cansocket.cpp:142-152 | byte by byte: identifier bytes, length byte, three zero bytes, payload, then zeros up to byte 16 |
| FrameCodec.SendOutcome | jni/cansocket.cpp:156-162 | success exactly when `sendto` wrote 16 bytes; -1 gives the errno; any other count gives "send partial frame" |
| FrameCodec.ZeroFill | jni/cansocket.cpp:143 | every byte of the buffer is zero afterwards |
| FrameCodec.WriteHeader | jni/cansocket.cpp:150-151 | the first five bytes become the identifier bytes and the length byte; the rest is unchanged |
| FrameCodec.CopyPayload | jni/cansocket.cpp:152 | the data field starts with the payload; every other byte is unchanged |
| FrameCodec.FillFrame | jni/cansocket.cpp:141-152 | the 16-byte buffer ends equal to the wire frame of the identifier and payload |
| FrameCodec.SendFrame | jni/cansocket.cpp:135-163 | `sendto` is called on the given descriptor; the address is (AF_CAN, the interface index); the bytes sent are the wire frame; the verdict is the send outcome |
| FrameCodec.RecvOutcome | jni/cansocket.cpp:176-190 | success exactly when the address length is 24 and 16 bytes arrived; a bad address length wins over any byte count; -1 gives the errno; any other count but 16 gives "invalid length of received frame"; on success the frame carries the source interface, the stored identifier, and min(can_dlc, 8) payload bytes taken from the data field |
| FrameCodec.RecvFrame | jni/cansocket.cpp:165-216 | `recvfrom` reads at most 16 bytes from the given descriptor; the checks in source order and the byte-by-byte payload copy produce exactly the receive outcome of the buffer |
| FrameCodec.LoopbackRoundTrip | jni/cansocket.cpp:150-152 | a wire frame received unchanged decodes to the interface, identifier and payload (of any length 0..8) it was built from |
| InterfaceNames.EncodeUnit | jni/cansocket.cpp:94-95 | one UTF-16 unit becomes 1, 2 or 3 bytes, never a zero byte (the NUL unit takes two bytes) |
| InterfaceNames.ModifiedUtf8 | jni/cansocket.cpp:94-95 | the encoding of a name is exactly its `GetStringUTFLength` long and has no zero byte |
| InterfaceNames.DecodeModifiedUtf8 | jni/cansocket.cpp:119 | `NewStringUTF` yields no more units than there are bytes |
| InterfaceNames.DecodeModifiedUtf8RoundTrip | jni/cansocket.cpp:119 | decoding the encoding of any name, surrogates and NUL units included, gives the name back |
| InterfaceNames.UtfLengthBounds | jni/cansocket.cpp:86 | the byte length is at least the unit count, and equal to it exactly when every unit is in 1..0x7F |
| InterfaceNames.CString | jni/cansocket.cpp:119 | a C string is a zero-free prefix of the buffer that ends at the buffer's end or at a zero byte, i.e. the bytes before the first zero |
| InterfaceNames.IfrName | jni/cansocket.cpp:93-95 | `ifr_name` is 16 bytes with a zero right after the encoded name |
| InterfaceNames.IfrNameRoundTrip | jni/cansocket.cpp:86-95 | for a name that passes the check, the kernel reads exactly the encoded name, and decoding it gives the name back |
| InterfaceNames.AsciiNameFits | jni/cansocket.cpp:86-90 | for ASCII names the check passes exactly when the name has at most 15 characters |
| InterfaceNames.UtfLength | jni/cansocket.cpp:86 | `GetStringUTFLength` counts at most three bytes per unit (its lower bound is `UtfLengthBounds`) |
| InterfaceNames.Utf8Region | jni/cansocket.cpp:94-95 | `GetStringUTFRegion` succeeds exactly when the requested unit count is at most the string length, and then yields the encoding of that prefix |
| InterfaceNames.NameBytesAsWritten | jni/cansocket.cpp:86-98 | a name whose encoding is longer than 15 bytes is refused with "illegal interface name" |
| InterfaceNames.NameBytesAsWrittenRejectsNonAscii | jni/cansocket.cpp:86-98 | the one-unit name U+00E4 passes the length check, and the copy still fails with StringIndexOutOfBoundsException |
| InterfaceNames.NameBytesAsWrittenNonAscii | jni/cansocket.cpp:86-98 | any name with a unit outside 1..0x7F that passes the length check fails in the copy |
| InterfaceNames.NameBytes | jni/cansocket.cpp:86-98 | the name bytes are produced exactly when the encoding is at most 15 bytes, and are then the whole encoding; otherwise "illegal interface name" |
| InterfaceNames.NameBytesAgreeOnAscii | jni/cansocket.cpp:86-98 | on ASCII names the source's copy and the unit-counted copy agree |
| InterfaceNames.FillIfrName | jni/cansocket.cpp:93-95 | the 16-byte buffer ends as the encoded name followed by zeros |
| InterfaceNames.QueryByName | jni/cansocket.cpp:82-107 | no `ioctl` is issued for a name that does not fit (IllegalArgument); otherwise the request carries the terminated name, and the result is the ioctl's errno or the integer it filled in; the name is copied whole (see Findings and Left out) |
| InterfaceNames.DiscoverInterfaceIndex | jni/cansocket.cpp:82-107 | the same as QueryByName, with request SIOCGIFINDEX |
| InterfaceNames.FetchInterfaceMtu | jni/cansocket.cpp:218-239 | the same as QueryByName, with request SIOCGIFMTU |
| InterfaceNames.DiscoverInterfaceName | jni/cansocket.cpp:109-121 | the request is SIOCGIFNAME carrying the given index; success exactly when the ioctl succeeded; a failure carries its errno; the name is the decoding of the C string in `ifr_name`, with no more units than that string has bytes |
| InterfaceNames.NameLookupRoundTrip | jni/cansocket.cpp:109-121 | an `ifr_name` filled as the index lookup fills it decodes to the same Java name |
| SocketCalls.OpenCall | jni/cansocket.cpp:61-72 | RAW opens (PF_CAN, SOCK_RAW, CAN_RAW); BCM opens (PF_CAN, SOCK_DGRAM, CAN_BCM) |
| SocketCalls.NewCanSocket | jni/cansocket.cpp:51-59 | the descriptor is returned exactly when it is not -1; otherwise the errno |
| SocketCalls.CloseOutcome | jni/cansocket.cpp:74-80 | only a return of -1 fails, with the errno |
| SocketCalls.BindOutcome | jni/cansocket.cpp:124-133 | any return other than 0 fails, with the errno |
| SocketCalls.SetSockOpt | jni/cansocket.cpp:241-248 | the value goes to level SOL_CAN_RAW; only -1 fails, with the errno |
| SocketCalls.GetSockOpt | jni/cansocket.cpp:250-263 | success exactly when the call did not fail and the size written back is sizeof(int); a failed call gives the errno; a wrong size gives "setsockopt return size is different" and never a value |
| CanSocketApi.Wrap32 | src/de/entropia/can/CanSocket.java:289-296 | Java int arithmetic: the result is congruent to the exact value modulo 2^32 |
| CanSocketApi.CanId.constructor | src/de/entropia/can/CanSocket.java:139-141 | the word is the address given |
| CanSocketApi.CanId.IsSetEFFSFF | src/de/entropia/can/CanSocket.java:143-145 | true exactly when bit 31 of the word is set |
| CanSocketApi.CanId.IsSetRTR | src/de/entropia/can/CanSocket.java:147-149 | true exactly when bit 30 of the word is set |
| CanSocketApi.CanId.IsSetERR | src/de/entropia/can/CanSocket.java:151-153 | true exactly when bit 29 of the word is set |
| CanSocketApi.CanId.SetEFFSFF | src/de/entropia/can/CanSocket.java:155-158 | returns the same object, whose word is the old word with EFF set |
| CanSocketApi.CanId.SetRTR | src/de/entropia/can/CanSocket.java:160-163 | returns the same object, whose word is the old word with RTR set |
| CanSocketApi.CanId.SetERR | src/de/entropia/can/CanSocket.java:165-168 | returns the same object, whose word is the old word with ERR set |
| CanSocketApi.CanId.ClearEFFSFF | src/de/entropia/can/CanSocket.java:170-173 | returns the same object, whose word is the old word with EFF clear |
| CanSocketApi.CanId.ClearRTR | src/de/entropia/can/CanSocket.java:175-178 | returns the same object, whose word is the old word with RTR clear |
| CanSocketApi.CanId.ClearERR | src/de/entropia/can/CanSocket.java:180-183 | returns the same object, whose word is the old word with ERR clear |
| CanSocketApi.CanId.GetCanIdSFF | src/de/entropia/can/CanSocket.java:185-187 | below 2^11 and equal to the word on its low 11 bits |
| CanSocketApi.CanId.GetCanIdEFF | src/de/entropia/can/CanSocket.java:189-191 | below 2^29 and equal to the word on its low 29 bits |
| CanSocketApi.CanId.GetCanIdERR | src/de/entropia/can/CanSocket.java:193-195 | below 2^29 and equal to the word on its low 29 bits |
| CanSocketApi.CanId.Clone | src/de/entropia/can/CanSocket.java:197-200 | a new object holding the same word |
| CanSocketApi.CanId.InferStatusBits | src/de/entropia/can/CanSocket.java:202-214 | each of ERR, EFFSFF and RTR is in the set exactly when its flag is set |
| CanSocketApi.CanId.Equals | src/de/entropia/can/CanSocket.java:231-243 | true exactly when the other identifier is not null and holds the same word |
| CanSocketApi.CanIdHashCodeIffEquals | src/de/entropia/can/CanSocket.java:223-243 | two identifiers are equal exactly when their hash codes are equal |
| CanSocketApi.SetThenClear | src/de/entropia/can/CanSocket.java:155-183 | for every flag, it reads as set after the setter and as clear after the clearer; the word ends as the old word with that flag clear |
| CanSocketApi.CloneThenSet | src/de/entropia/can/CanSocket.java:197-200 | setting a flag on a clone leaves the original's word unchanged; the two stay equal exactly when the flag was already set |
| CanSocketApi.CanInterface.Of | src/de/entropia/can/CanSocket.java:256-263 | the interface holds the given index and name |
| CanSocketApi.CanInterface.Open | src/de/entropia/can/CanSocket.java:250-254 | a new interface with the index the kernel reported and the given name; no object when the name is refused or the lookup fails, with that failure |
| CanSocketApi.CanInterface.AllInterfaces | src/de/entropia/can/CanSocket.java:73 | the wildcard interface has index 0 and no name |
| CanSocketApi.CanInterface.ResolveIfName | src/de/entropia/can/CanSocket.java:279-286 | the kernel is asked, with SIOCGIFNAME and this interface's own index, exactly when no name is known; a known name is kept; a failed lookup leaves the name unknown; a successful one stores the decoded `ifr_name`; the returned name is the stored one |
| CanSocketApi.CanInterface.Equals | src/de/entropia/can/CanSocket.java:298-315 | true exactly when the other interface is not null and has the same index and the same name, or both have no name |
| CanSocketApi.CanInterface.Clone | src/de/entropia/can/CanSocket.java:317-320 | a new object with the same index and name |
| CanSocketApi.CanInterfaceEqualsImpliesHashCode | src/de/entropia/can/CanSocket.java:288-296 | equal interfaces have equal hash codes |
| CanSocketApi.ResolveTwice | src/de/entropia/can/CanSocket.java:279-286 | once a lookup has produced a name, the next one does not ask the kernel and returns the same name; after a failed first lookup the second asks again for the same index |
| CanSocketApi.CanFrame.constructor | src/de/entropia/can/CanSocket.java:328-333 | the frame holds the given interface, identifier and payload, unchecked |
| CanSocketApi.CanFrame.FromNative | src/de/entropia/can/CanSocket.java:337-344 | fails with IllegalArgumentException exactly when the payload is longer than 8 bytes; otherwise new interface and identifier objects for the index and the word |
| CanSocketApi.CanFrame.Clone | src/de/entropia/can/CanSocket.java:364-368 | a new frame sharing the interface, with a new identifier object holding the same word and the same payload |
| CanSocketApi.OptionValue | src/de/entropia/can/CanSocket.java:415-417 | on is passed as 1, off as 0 |
| CanSocketApi.OptionFlag | src/de/entropia/can/CanSocket.java:419-421 | the getter reports on exactly when the option value is 1, and passes failures through |
| CanSocketApi.OptionRoundTrip | src/de/entropia/can/CanSocket.java:415-429 | reading back the value that was set gives the boolean that was set |
| CanSocketApi.CanSocket.Open | src/de/entropia/can/CanSocket.java:379-391 | opens the socket kind of the mode; a new unbound socket exactly when the descriptor is not -1, otherwise the errno |
| CanSocketApi.CanSocket.Bind | src/de/entropia/can/CanSocket.java:393-396 | `bind` is made on this socket's descriptor, to (AF_CAN, the interface's index); the bound interface changes only when `bind` returned 0 |
| CanSocketApi.CanSocket.Send | src/de/entropia/can/CanSocket.java:398-400 | `sendto` goes to this socket's descriptor; the frame's index, word and payload become the address and the 16 wire bytes; success exactly when 16 bytes were sent |
| CanSocketApi.CanSocket.Recv | src/de/entropia/can/CanSocket.java:402-404 | `recvfrom` reads from this socket's descriptor; success exactly when the address length is 24 and 16 bytes arrived; failures are those of `_recvFrame`; the length check of the frame constructor never fires, and the frame has the source interface, the stored word and at most 8 payload bytes |
| CanSocketApi.CanSocket.Close | src/de/entropia/can/CanSocket.java:406-409 | `close` is given this socket's descriptor; only a return of -1 fails, with the errno |
| CanSocketApi.CanSocket.GetMtu | src/de/entropia/can/CanSocket.java:411-413 | the MTU query: refused before any ioctl when the name does not fit, otherwise the ioctl's result |
| CanSocketApi.CanSocket.SetLoopbackMode | src/de/entropia/can/CanSocket.java:415-417 | sets CAN_RAW_LOOPBACK on the socket's descriptor to 1 or 0 |
| CanSocketApi.CanSocket.GetLoopbackMode | src/de/entropia/can/CanSocket.java:419-421 | reads CAN_RAW_LOOPBACK; on exactly when the value is 1; failures are those of `_getsockopt` |
| CanSocketApi.CanSocket.SetRecvOwnMsgsMode | src/de/entropia/can/CanSocket.java:423-425 | sets CAN_RAW_RECV_OWN_MSGS on the socket's descriptor to 1 or 0 |
| CanSocketApi.CanSocket.GetRecvOwnMsgsMode | src/de/entropia/can/CanSocket.java:427-429 | reads CAN_RAW_RECV_OWN_MSGS; on exactly when the value is 1; failures are those of `_getsockopt` |
| CanSocketApi.SetThenGetLoopback | src/de/entropia/can/CanSocket.java:415-421 | with the kernel storing the value, setting loopback and reading it back gives the boolean set |
| CanSocketApi.SetThenGetRecvOwnMsgs | src/de/entropia/can/CanSocket.java:423-429 | with the kernel storing the value, setting recv-own-msgs and reading it back gives the boolean set |
| CanSocketApi.SendThenRecv | src/de/entropia/can/CanSocket.java:398-404 | a frame sent and looped back unchanged is received with its interface index, identifier word and payload |

## Findings

| source | as written | input that shows it | evidently intended | confidence | as-written member | corrected member |
|---|---|---|---|---|---|---|
| jni/cansocket.cpp:86-98 (and 223-232) | `GetStringUTFRegion` is passed the byte length from `GetStringUTFLength` as its `len`, which counts UTF-16 units | the name "ä" (one unit, two bytes): it passes the 15-byte check, then the JVM raises StringIndexOutOfBoundsException and no `ioctl` is made | copy the whole name (`len` = the unit count), so that every name whose encoding fits reaches the kernel | high; not executed | InterfaceNames.NameBytesAsWrittenRejectsNonAscii | InterfaceNames.NameBytes |

The two agree on ASCII names (`NameBytesAgreeOnAscii`). `QueryByName`, and through it the index and MTU
queries and the Java layer, use the corrected `NameBytes`; "## Left out" lists each of them.

## Left out

- InterfaceNames.QueryByName copies the name with the unit count, the corrected copy of "## Findings". On a
  name that fits but has a unit outside 1..0x7F, such as "ä", it issues the `ioctl`; the source raises
  StringIndexOutOfBoundsException first and issues none. On every other name the two agree.
- InterfaceNames.DiscoverInterfaceIndex goes through QueryByName and differs from the source in the same way.
- InterfaceNames.FetchInterfaceMtu goes through QueryByName and differs from the source in the same way.
- CanSocketApi.CanInterface.Open goes through DiscoverInterfaceIndex: for such a name it constructs an
  interface where the source throws StringIndexOutOfBoundsException.
- CanSocketApi.CanSocket.GetMtu goes through FetchInterfaceMtu: for such a name it reports the ioctl's
  result where the source throws StringIndexOutOfBoundsException.
- The kernel is not modelled. That covers `socket`, `close`, `bind`, `sendto`, `recvfrom`, `ioctl`,
  `setsockopt` and `getsockopt`, the interface name/index table and option storage. Their results are
  inputs. The round-trip lemmas state what holds when the kernel gives back what it was given.
- The text of `strerror_r` is not modelled: `IOError` carries the errno.
- JNI object plumbing is not modelled. That covers `FindClass`, `GetMethodID`, `NewObject`,
  `NewByteArray` and the OutOfMemoryError on a failed allocation.
- `new IllegalArgumentException()` in the `CanFrame` constructor has a null message; the model gives it
  the empty text.
- The `ExceptionCheck` after `GetArrayLength`/`GetByteArrayRegion` is not modelled: no exception is
  possible there for a non-null payload of at most 8 bytes.
- Native library loading (`loadLibFromJar`, `copyStream`) is not modelled: it is file I/O and class loading.
- The constant fetchers are not modelled: their kernel values are Dafny constants in `CanTypes`.
- The integration tests that need a live `vcan0` are not modelled. The flag test is the lemma `FlagTestVectors`.
- Broadcast-manager semantics and threading are not modelled: the binding only opens a BCM socket.
- The `toString` methods of `CanId`, `CanInterface` and `CanFrame` are left out: they only format strings.
- Plain field getters (`getIfName`, `getInterfaceIndex`, `getCanId`, `getData`, `getCanInterfacae`) are
  represented by the fields themselves.
- CanSocketApi.CanSocket.Send requires a payload of at most 8 bytes. The public `CanFrame` constructor
  does not check the length. `_sendFrame` would copy a longer array past the 8-byte `data` field, which
  is undefined behaviour in C, so the model says nothing about it.
- FrameCodec.SendFrame and FrameCodec.FillFrame carry the same at-most-8-bytes requirement, for the same reason.
- CanSocketApi.CanInterface.ResolveIfName and InterfaceNames.DiscoverInterfaceName require that the bytes
  the kernel reports are well-formed modified UTF-8. What `NewStringUTF` makes of other bytes depends
  on the JVM.
- SocketCalls.GetSockOpt reports the errno when `getsockopt` fails. If the kernel also changed the
  returned size, the source would raise a second exception while one is pending, which JNI leaves undefined.
- Java `byte[]` aliasing is not modelled. A frame's payload is a value. In Java the array is shared with
  the caller and can change after the frame is built.
- `equals` against an object of another class is not modelled: the argument's type rules it out.
- `CAN_ALL_INTERFACES` is one shared static object in Java. `AllInterfaces` returns a new object with the
  same index and name, so identity with the static object is not modelled.
- CanSocketApi.CanId.HashCode has no contract of its own. Its property, equal hash codes exactly for
  equal identifiers, is `CanIdHashCodeIffEquals`. It computes on the 32-bit pattern of `_canId`, which is
  the Java `int` arithmetic bit for bit.
- CanSocketApi.CanInterface.HashCode has no contract of its own. Its only property, equal interfaces
  hash alike, is `CanInterfaceEqualsImpliesHashCode`.
- The `IllegalStateException` default branch of the `CanSocket` constructor is not modelled: the mode
  type has exactly two values.
- The socket descriptor passed to the `ioctl` calls (`_discoverInterfaceIndex`, `_discoverInterfaceName`,
  `_fetchInterfaceMtu`) is not an output: these requests ask about an interface, not about the socket
  that carries them, so the answer does not depend on which CAN socket is used.
- The identifier is stored in host byte order, and the model assumes a little-endian host.
