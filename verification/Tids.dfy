/** Thread ids: a slot number and a version that the slot changes each time its task ends. */
module Tids {
  import opened Arithmetic
  import opened Bits
  import opened Wrappers

  const MAX32 := 0x1_0000_0000

  type Uint32 = x: nat | x < 0x1_0000_0000

  /** `(version << 32) | slot`. */
  function MakeTid(version: Uint32, slot: nat): nat {
    Or(version * Pow2(32), slot)
  }

  function GetSlot(tid: nat): nat {
    LowBits(tid, 32)
  }

  function GetVersion(tid: nat): nat {
    LowBits(ShiftRight(tid, 32), 32)
  }

  lemma Pow32()
    ensures Pow2(32) == MAX32
  {
    assert Pow2(8) == 256;
    assert Pow2(16) == 256 * Pow2(8) == 65536;
    assert Pow2(24) == 256 * Pow2(16);
    assert Pow2(32) == 256 * Pow2(24);
  }

  lemma TidParts(version: Uint32, slot: nat)
    ensures GetSlot(MakeTid(version, slot)) == LowBits(slot, 32)
    ensures GetVersion(MakeTid(version, slot)) == LowBits(Or(version, ShiftRight(slot, 32)), 32)
  {
    var high := Or(version, ShiftRight(slot, 32));
    OrShifted(version, slot, 32);
    ShiftAndMask(slot, 32);
    BitsOf(MakeTid(version, slot), 32, high, LowBits(slot, 32));
  }

  /** get_slot inverts make_tid exactly for 32-bit slots, and get_version exactly if bits 32 to 63 of the slot
      add none to the version. */
  lemma TidRoundTrip(version: Uint32, slot: nat)
    ensures GetSlot(MakeTid(version, slot)) == slot <==> slot < MAX32
    ensures GetVersion(MakeTid(version, slot)) == version <==> BitsWithin(ShiftRight(slot, 32), version, 32)
    ensures slot < MAX32 ==> GetVersion(MakeTid(version, slot)) == version
  {
    Pow32();
    TidParts(version, slot);
    SmallBits(slot, 32);
    SmallBits(version, 32);
    OrKeepsIff(version, ShiftRight(slot, 32), 32);
    if slot < MAX32 { OrZero(version); }
  }

  /** A wider slot can spoil the version. */
  lemma WideSlotSpoilsVersion()
    ensures GetVersion(MakeTid(1, 2 * MAX32)) == 3
  {
    Pow32();
    TidParts(1, 2 * MAX32);
    BitsOf(2 * MAX32, 32, 2, 0);
    assert Or(1, 2) == 1 + 2 * Or(0, 1) == 3;
    SmallBits(3, 32);
  }

  // ---------- versions ----------

  /** `if (0 == ++*version) ++*version`. */
  function NextVersion(v: Uint32): Uint32 {
    var w := (v + 1) % MAX32;
    if w == 0 then (w + 1) % MAX32 else w
  }

  function VersionAfter(v: Uint32, ends: nat): Uint32
    decreases ends
  {
    if ends == 0 then v else NextVersion(VersionAfter(v, ends - 1))
  }

  /** From a nonzero version on, the versions go round all nonzero values. */
  lemma {:induction false} VersionAfterIs(v: Uint32, ends: nat)
    requires v > 0
    ensures VersionAfter(v, ends) == 1 + (v - 1 + ends) % (MAX32 - 1)
    decreases ends
  {
    if ends > 0 {
      VersionAfterIs(v, ends - 1);
      NextRemainder(v - 1 + ends - 1, MAX32 - 1);
      NextIs(VersionAfter(v, ends - 1));
    }
  }

  lemma NextIs(v: Uint32)
    requires v > 0
    ensures NextVersion(v) == if v == MAX32 - 1 then 1 else v + 1
  {}

  /** A tid is never 0... */
  lemma TidNeverZero(ends: nat, slot: nat)
    requires slot < MAX32
    ensures MakeTid(VersionAfter(1, ends), slot) != 0
  {
    VersionAfterIs(1, ends);
    TidRoundTrip(VersionAfter(1, ends), slot);
    assert ShiftRight(0, 32) == 0 && LowBits(0, 32) == 0 by { Pow32(); SmallBits(0, 32); }
  }

  /** Versions repeat with period 2^32 - 1. */
  lemma VersionRecurs(first: nat, later: nat)
    requires first <= later
    ensures VersionAfter(1, first) == VersionAfter(1, later) <==> (later - first) % (MAX32 - 1) == 0
  {
    VersionAfterIs(1, first);
    VersionAfterIs(1, later);
    SameRemainder(first, later, MAX32 - 1);
  }

  /** ...and comes back in its slot after every 2^32 - 1 ends, and only then. */
  lemma TidRecurs(first: nat, later: nat, slot: nat, otherSlot: nat)
    requires slot < MAX32 && otherSlot < MAX32 && first <= later
    ensures MakeTid(VersionAfter(1, first), slot) == MakeTid(VersionAfter(1, later), otherSlot)
       <==> slot == otherSlot && (later - first) % (MAX32 - 1) == 0
  {
    VersionRecurs(first, later);
    TidRoundTrip(VersionAfter(1, first), slot);
    TidRoundTrip(VersionAfter(1, later), otherSlot);
  }

  lemma TidVersion(version: Uint32, slot: nat, current: Uint32)
    requires slot < MAX32
    ensures GetVersion(MakeTid(version, slot)) == current <==> version == current
  {
    TidRoundTrip(version, slot);
  }

  lemma SmallGap(d: nat)
    ensures d < MAX32 - 1 ==> (d % (MAX32 - 1) == 0 <==> d == 0)
  {}

  /** The tid of the task after `k` ends is matched when `ends` tasks have ended exactly if a multiple of
      2^32 - 1 ended since; so for less than that only while it has not ended itself. */
  lemma MatchesCurrent(k: nat, ends: nat, slot: nat)
    requires slot < MAX32 && k <= ends
    ensures GetVersion(MakeTid(VersionAfter(1, k), slot)) == VersionAfter(1, ends) <==> (ends - k) % (MAX32 - 1) == 0
    ensures ends - k < MAX32 - 1 ==> ((ends - k) % (MAX32 - 1) == 0 <==> k == ends)
  {
    VersionRecurs(k, ends);
    SmallGap(ends - k);
    TidVersion(VersionAfter(1, k), slot, VersionAfter(1, ends));
  }

  // ---------- the slot ----------

  class TaskMeta {
    const slot: nat
    var version: Uint32
    var stop: bool
    var attr: int
    /** How many tasks have ended in this slot. */
    ghost var ends: nat

    ghost predicate Valid()
      reads this
    {
      slot < MAX32 && version == VersionAfter(1, ends)
    }

    /** The tid of the task that is in the slot after `k` ends. */
    ghost function TidOf(k: nat): nat {
      MakeTid(VersionAfter(1, k), slot)
    }

    constructor (slot: nat)
      requires slot < MAX32
      ensures Valid() && ends == 0 && this.slot == slot
    {
      this.slot := slot;
      version, stop, attr, ends := 1, false, 0, 0;
    }

    /** The part of start_background and start_foreground that names the task. */
    method Start(attr: int) returns (tid: nat)
      requires Valid()
      modifies this`stop, this`attr
      ensures Valid() && tid == TidOf(ends) && !stop && this.attr == attr
    {
      stop := false;
      this.attr := attr;
      tid := MakeTid(version, slot);
    }

    /** The part of task_runner that ends it. */
    method End()
      requires Valid()
      modifies this`version, this`ends
      ensures Valid() && ends == old(ends) + 1
    {
      version := (version + 1) % MAX32;
      if version == 0 {
        version := (version + 1) % MAX32;
      }
      ends := ends + 1;
    }

    method Exists(tid: nat, ghost k: nat) returns (r: bool)
      requires Valid() && k <= ends && tid == TidOf(k)
      ensures r <==> (ends - k) % (MAX32 - 1) == 0
      ensures ends - k < MAX32 - 1 ==> (r <==> k == ends)
    {
      MatchesCurrent(k, ends, slot);
      VersionAfterIs(1, k);
      TidNeverZero(k, slot);
      r := tid != 0 && version == GetVersion(tid);
    }

    /** A task that has ended counts as stopped. */
    method IsStopped(tid: nat, ghost k: nat) returns (r: bool)
      requires Valid() && k <= ends && tid == TidOf(k)
      ensures r <==> stop || (ends - k) % (MAX32 - 1) != 0
    {
      MatchesCurrent(k, ends, slot);
      r := if version == GetVersion(tid) then stop else true;
    }

    /** A stale tid stops nobody. */
    method SetStopped(tid: nat, ghost k: nat)
      requires Valid() && k <= ends && tid == TidOf(k)
      modifies this`stop
      ensures Valid() && stop == (old(stop) || (ends - k) % (MAX32 - 1) == 0)
    {
      MatchesCurrent(k, ends, slot);
      if version == GetVersion(tid) {
        stop := true;
      }
    }

    method GetAttr(tid: nat, ghost k: nat) returns (r: Option<int>)
      requires Valid() && k <= ends && tid == TidOf(k)
      ensures r == if (ends - k) % (MAX32 - 1) == 0 then Some(attr) else None
    {
      MatchesCurrent(k, ends, slot);
      r := if version == GetVersion(tid) then Some(attr) else None;
    }
  }
}
