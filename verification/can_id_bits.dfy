/** The identifier bit helpers of the native layer: each reads, sets or
    clears a fixed field of the 32-bit CAN identifier word with one mask. */
module CanIdBits {
  import opened CanTypes

  // ---- address extraction ----

  /** `_getCANID_SFF`: the 11-bit standard address. */
  function GetSff(id: bv32): (r: bv32)
    ensures r < 0x800
    ensures (r ^ id) & CAN_SFF_MASK == 0  // agrees with id on the low 11 bits
  {
    id & CAN_SFF_MASK
  }

  /** `_getCANID_EFF`: the 29-bit extended address. */
  function GetEff(id: bv32): (r: bv32)
    ensures r < 0x2000_0000
    ensures (r ^ id) & CAN_EFF_MASK == 0  // agrees with id on the low 29 bits
  {
    id & CAN_EFF_MASK
  }

  /** `_getCANID_ERR`: the error class bits (the low 29 bits). */
  function GetErr(id: bv32): (r: bv32)
    ensures r < 0x2000_0000
    ensures (r ^ id) & CAN_ERR_MASK == 0
  {
    id & CAN_ERR_MASK
  }

  // ---- flag tests ----

  /** `_isSetEFFSFF`: the top bit, bit 31. */
  function IsSetEff(id: bv32): (b: bool)
    ensures b <==> id >= 0x8000_0000
  {
    id & CAN_EFF_FLAG != 0
  }

  /** `_isSetRTR`: bit 30. */
  function IsSetRtr(id: bv32): (b: bool)
    ensures b <==> (id >> 30) & 1 == 1
  {
    id & CAN_RTR_FLAG != 0
  }

  /** `_isSetERR`: bit 29. */
  function IsSetErr(id: bv32): (b: bool)
    ensures b <==> (id >> 29) & 1 == 1
  {
    id & CAN_ERR_FLAG != 0
  }

  // ---- flag updates: the flag takes its new value, every other bit is kept ----

  /** `_setEFFSFF`. */
  function SetEff(id: bv32): (r: bv32)
    ensures IsSetEff(r)
    ensures r & !CAN_EFF_FLAG == id & !CAN_EFF_FLAG
  {
    id | CAN_EFF_FLAG
  }

  /** `_setRTR`. */
  function SetRtr(id: bv32): (r: bv32)
    ensures IsSetRtr(r)
    ensures r & !CAN_RTR_FLAG == id & !CAN_RTR_FLAG
  {
    id | CAN_RTR_FLAG
  }

  /** `_setERR`. */
  function SetErr(id: bv32): (r: bv32)
    ensures IsSetErr(r)
    ensures r & !CAN_ERR_FLAG == id & !CAN_ERR_FLAG
  {
    id | CAN_ERR_FLAG
  }

  /** `_clearEFFSFF`. */
  function ClearEff(id: bv32): (r: bv32)
    ensures !IsSetEff(r)
    ensures r & !CAN_EFF_FLAG == id & !CAN_EFF_FLAG
  {
    id & !CAN_EFF_FLAG
  }

  /** `_clearRTR`. */
  function ClearRtr(id: bv32): (r: bv32)
    ensures !IsSetRtr(r)
    ensures r & !CAN_RTR_FLAG == id & !CAN_RTR_FLAG
  {
    id & !CAN_RTR_FLAG
  }

  /** `_clearERR`. */
  function ClearErr(id: bv32): (r: bv32)
    ensures !IsSetErr(r)
    ensures r & !CAN_ERR_FLAG == id & !CAN_ERR_FLAG
  {
    id & !CAN_ERR_FLAG
  }

  // ---- the three flags uniformly (the Java enum CanId.StatusBits) ----

  datatype StatusBit = ERR | EFFSFF | RTR

  function IsSet(f: StatusBit, id: bv32): bool {
    match f
    case ERR => IsSetErr(id)
    case EFFSFF => IsSetEff(id)
    case RTR => IsSetRtr(id)
  }

  function Set(f: StatusBit, id: bv32): bv32 {
    match f
    case ERR => SetErr(id)
    case EFFSFF => SetEff(id)
    case RTR => SetRtr(id)
  }

  function Clear(f: StatusBit, id: bv32): bv32 {
    match f
    case ERR => ClearErr(id)
    case EFFSFF => ClearEff(id)
    case RTR => ClearRtr(id)
  }

  // Each helper below states one fact and proves it flag by flag; the
  // solver handles one bit-vector goal per flag cheaply, not several at once.

  lemma SetIdempotent(f: StatusBit, id: bv32)
    ensures Set(f, Set(f, id)) == Set(f, id)
  {
    match f
    case ERR =>
    case EFFSFF =>
    case RTR =>
  }

  lemma ClearIdempotent(f: StatusBit, id: bv32)
    ensures Clear(f, Clear(f, id)) == Clear(f, id)
  {
    match f
    case ERR =>
    case EFFSFF =>
    case RTR =>
  }

  lemma ClearAfterSet(f: StatusBit, id: bv32)
    ensures Clear(f, Set(f, id)) == Clear(f, id)
  {
    match f
    case ERR =>
    case EFFSFF =>
    case RTR =>
  }

  lemma SetAfterClear(f: StatusBit, id: bv32)
    ensures Set(f, Clear(f, id)) == Set(f, id)
  {
    match f
    case ERR =>
    case EFFSFF =>
    case RTR =>
  }

  lemma SetWhenSet(f: StatusBit, id: bv32)
    ensures IsSet(f, id) ==> Set(f, id) == id
  {
    match f
    case ERR =>
    case EFFSFF =>
    case RTR =>
  }

  lemma ClearWhenClear(f: StatusBit, id: bv32)
    ensures !IsSet(f, id) ==> Clear(f, id) == id
  {
    match f
    case ERR =>
    case EFFSFF =>
    case RTR =>
  }

  lemma SetKeepsSff(f: StatusBit, id: bv32)
    ensures GetSff(Set(f, id)) == GetSff(id)
  {
    match f
    case ERR =>
    case EFFSFF =>
    case RTR =>
  }

  lemma ClearKeepsSff(f: StatusBit, id: bv32)
    ensures GetSff(Clear(f, id)) == GetSff(id)
  {
    match f
    case ERR =>
    case EFFSFF =>
    case RTR =>
  }

  lemma SetKeepsEff(f: StatusBit, id: bv32)
    ensures GetEff(Set(f, id)) == GetEff(id)
  {
    match f
    case ERR =>
    case EFFSFF =>
    case RTR =>
  }

  lemma ClearKeepsEff(f: StatusBit, id: bv32)
    ensures GetEff(Clear(f, id)) == GetEff(id)
  {
    match f
    case ERR =>
    case EFFSFF =>
    case RTR =>
  }

  lemma SetKeepsOtherFlag(f: StatusBit, g: StatusBit, id: bv32)
    ensures f != g ==> IsSet(g, Set(f, id)) == IsSet(g, id)
  {
    match f
    case ERR => match g { case ERR => case EFFSFF => case RTR => }
    case EFFSFF => match g { case ERR => case EFFSFF => case RTR => }
    case RTR => match g { case ERR => case EFFSFF => case RTR => }
  }

  lemma ClearKeepsOtherFlag(f: StatusBit, g: StatusBit, id: bv32)
    ensures f != g ==> IsSet(g, Clear(f, id)) == IsSet(g, id)
  {
    match f
    case ERR => match g { case ERR => case EFFSFF => case RTR => }
    case EFFSFF => match g { case ERR => case EFFSFF => case RTR => }
    case RTR => match g { case ERR => case EFFSFF => case RTR => }
  }

  /** Set and clear of one flag: each is idempotent, the later of the two
      decides the word, and updating a flag to the value it has is a no-op. */
  lemma FlagLaws(f: StatusBit, id: bv32)
    ensures Set(f, Set(f, id)) == Set(f, id)
    ensures Clear(f, Clear(f, id)) == Clear(f, id)
    ensures Clear(f, Set(f, id)) == Clear(f, id)
    ensures Set(f, Clear(f, id)) == Set(f, id)
    ensures IsSet(f, id) ==> Set(f, id) == id
    ensures !IsSet(f, id) ==> Clear(f, id) == id
  {
    SetIdempotent(f, id);
    ClearIdempotent(f, id);
    ClearAfterSet(f, id);
    SetAfterClear(f, id);
    SetWhenSet(f, id);
    ClearWhenClear(f, id);
  }

  /** Setting or clearing one flag leaves both address fields and every
      other flag as they were. */
  lemma UpdateKeepsOtherFields(f: StatusBit, g: StatusBit, id: bv32)
    ensures GetSff(Set(f, id)) == GetSff(id) && GetSff(Clear(f, id)) == GetSff(id)
    ensures GetEff(Set(f, id)) == GetEff(id) && GetEff(Clear(f, id)) == GetEff(id)
    ensures f != g ==> IsSet(g, Set(f, id)) == IsSet(g, id)
    ensures f != g ==> IsSet(g, Clear(f, id)) == IsSet(g, id)
  {
    SetKeepsSff(f, id);
    ClearKeepsSff(f, id);
    SetKeepsEff(f, id);
    ClearKeepsEff(f, id);
    SetKeepsOtherFlag(f, g, id);
    ClearKeepsOtherFlag(f, g, id);
  }

  /** The word is exactly its 29-bit address plus the three flags: two
      identifiers that agree on the address and on every flag are equal. */
  lemma FieldsDetermineId(a: bv32, b: bv32)
    requires GetEff(a) == GetEff(b)
    requires IsSetEff(a) == IsSetEff(b) && IsSetRtr(a) == IsSetRtr(b) && IsSetErr(a) == IsSetErr(b)
    ensures a == b
  {
  }

  /** The identifier words exercised by the flag test and by the extended
      address example. */
  lemma FlagTestVectors()
    ensures !IsSetEff(0) && !IsSetRtr(0) && !IsSetErr(0)
    ensures IsSetEff(0xFFFF_FFFF) && IsSetRtr(0xFFFF_FFFF) && IsSetErr(0xFFFF_FFFF)
    ensures SetEff(0x123) == 0x8000_0123 && GetEff(0x8000_0123) == 0x123
    ensures GetEff(ClearErr(SetErr(ClearRtr(SetRtr(ClearEff(SetEff(0))))))) == 0
  {
  }
}
