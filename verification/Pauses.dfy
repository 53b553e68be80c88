/** The contract's pause flags: one bit for each area, all bits for everything. */
module Pauses {

  datatype Flag = NoFlag | Tips | Withdrawals | Registration | Subscriptions | Refunds | All

  function Bits(f: Flag): bv32 {
    match f
    case NoFlag => 0
    case Tips => 1
    case Withdrawals => 2
    case Registration => 4
    case Subscriptions => 8
    case Refunds => 16
    case All => 0xFFFF_FFFF
  }

  predicate IsSet(flags: bv32, f: Flag) {
    flags & Bits(f) != 0
  }

  function Set(flags: bv32, f: Flag): bv32 {
    flags | Bits(f)
  }

  /** Any bit in common with all bits counts as a pause of everything. */
  predicate IsPaused(flags: bv32, f: Flag) {
    IsSet(flags, f) || IsSet(flags, All)
  }

  /** An area is paused exactly when any flag at all is set, whichever area is asked about. */
  lemma PausedIffAnyFlag(flags: bv32, f: Flag)
    ensures IsPaused(flags, f) <==> flags != 0
  {
    assert flags & 0xFFFF_FFFF == flags;
  }

  /** Each area has a bit of its own. */
  lemma BitsAreSeparate(f: Flag, g: Flag)
    requires f != g && f != All && g != All
    ensures Bits(f) & Bits(g) == 0 && (f != NoFlag ==> Bits(f) != 0)
  {
  }

  /** Setting a flag sets it, and undoes no other. */
  lemma SetIsKept(flags: bv32, f: Flag, g: Flag)
    ensures f != NoFlag ==> IsSet(Set(flags, f), f)
    ensures IsSet(flags, g) ==> IsSet(Set(flags, f), g)
  {
    BitsStay(flags, Bits(f), Bits(g));
  }

  lemma BitsStay(flags: bv32, a: bv32, b: bv32)
    ensures (flags | a) & a == a
    ensures flags & b != 0 ==> (flags | a) & b != 0
  {
  }

  /** Pausing one area of a running contract pauses every other. */
  lemma OnePausePausesAll(paused: Flag, asked: Flag)
    ensures IsPaused(Set(0, paused), asked) <==> paused != NoFlag
  {
    PausedIffAnyFlag(Set(0, paused), asked);
    assert (0 as bv32) | Bits(paused) == Bits(paused);
  }
}
