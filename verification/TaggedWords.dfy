/** The busy bit of the strand's word (src/exe/fiber/sync/strand.hpp). */
module BusyBit {

  const DUMMY: bv64 := 0xffff_ffff_ffff_ffff
  const MASK: bv64 := 0x7fff_ffff_ffff_ffff
  const BUSY: bv64 := 0x8000_0000_0000_0000

  function AddBusyBit(a: bv64): bv64
  {
    a | BUSY
  }

  function StripBusyBit(a: bv64): bv64
  {
    a & MASK
  }

  predicate IsBusy(a: bv64)
  {
    a & BUSY != 0
  }

  /** A user address: in the lower half, not null, and not the one whose tagged form is the dummy. */
  predicate IsAddress(a: bv64)
  {
    a != 0 && a & BUSY == 0 && a != MASK
  }

  lemma TagReads(a: bv64)
    requires IsAddress(a)
    ensures IsBusy(AddBusyBit(a)) && !IsBusy(a) && !IsBusy(0) && IsBusy(DUMMY)
  {
  }

  lemma TagIsNoDummy(a: bv64)
    requires IsAddress(a)
    ensures AddBusyBit(a) != DUMMY && AddBusyBit(a) != 0
  {
  }

  lemma TagStrips(a: bv64)
    requires IsAddress(a)
    ensures StripBusyBit(AddBusyBit(a)) == a && StripBusyBit(a) == a
  {
  }

  /** The word tells its four states apart: null, dummy, a busy list and a free list. */
  lemma TagsTellApart(a: bv64, b: bv64)
    requires IsAddress(a) && IsAddress(b)
    ensures AddBusyBit(a) != DUMMY && AddBusyBit(a) != 0 && AddBusyBit(a) != b && b != DUMMY
    ensures AddBusyBit(a) == AddBusyBit(b) ==> a == b
  {
    TagReads(a);
    TagReads(b);
    TagIsNoDummy(a);
    TagStrips(a);
    TagStrips(b);
  }
}

/** 48-bit pointer and 16-bit stamp in one 64-bit word (src/exe/util/stamped_ptr.hpp). */
module StampedPtr {

  const FREE_BITS: bv64 := 0xffff_0000_0000_0000
  const SIGN_BIT: bv64 := 0x0000_8000_0000_0000

  function ClearFreeBits(mask: bv64): bv64
  {
    mask & !FREE_BITS
  }

  function SetFreeBits(mask: bv64): bv64
  {
    mask | FREE_BITS
  }

  /** Bit 47 is copied into the sixteen bits above it. */
  function ToCanonicalForm(p: bv64): bv64
  {
    if p & SIGN_BIT != 0 then SetFreeBits(p) else ClearFreeBits(p)
  }

  function Pack(raw: bv64, stamp: bv64): bv64
  {
    ClearFreeBits(raw) | (stamp << 48)
  }

  function RawPointer(packed: bv64): bv64
  {
    ToCanonicalForm(packed)
  }

  function Stamp(packed: bv64): bv64
  {
    packed >> 48
  }

  predicate Canonical(raw: bv64)
  {
    ToCanonicalForm(raw) == raw
  }

  lemma PackLow(raw: bv64, stamp: bv64)
    ensures ClearFreeBits(Pack(raw, stamp)) == ClearFreeBits(raw)
  {
    assert (stamp << 48) & 0x0000_ffff_ffff_ffff == 0;
  }

  lemma CanonicalByLow(p: bv64, q: bv64)
    requires ClearFreeBits(p) == ClearFreeBits(q)
    ensures ToCanonicalForm(p) == ToCanonicalForm(q)
  {
    assert p & 0x0000_8000_0000_0000 == (p & 0x0000_ffff_ffff_ffff) & 0x0000_8000_0000_0000;
    assert q & 0x0000_8000_0000_0000 == (q & 0x0000_ffff_ffff_ffff) & 0x0000_8000_0000_0000;
    assert p | 0xffff_0000_0000_0000 == (p & 0x0000_ffff_ffff_ffff) | 0xffff_0000_0000_0000;
    assert q | 0xffff_0000_0000_0000 == (q & 0x0000_ffff_ffff_ffff) | 0xffff_0000_0000_0000;
  }

  /** The pointer comes back exactly when it is a canonical address, whatever the stamp. */
  lemma UnpackPointer(raw: bv64, stamp: bv64)
    ensures RawPointer(Pack(raw, stamp)) == raw <==> Canonical(raw)
  {
    PackLow(raw, stamp);
    CanonicalByLow(Pack(raw, stamp), raw);
  }

  /** The stamp comes back exactly when it fits in sixteen bits, whatever the pointer. */
  lemma UnpackStamp(raw: bv64, stamp: bv64)
    ensures Stamp(Pack(raw, stamp)) == stamp <==> stamp < 0x1_0000
  {
  }

  /** So comparing packed words is comparing (pointer, stamp) pairs, for canonical pointers and small stamps. */
  lemma PackedCompare(p: bv64, s: bv64, q: bv64, t: bv64)
    requires Canonical(p) && Canonical(q) && s < 0x1_0000 && t < 0x1_0000
    ensures Pack(p, s) == Pack(q, t) <==> p == q && s == t
  {
    UnpackPointer(p, s);
    UnpackPointer(q, t);
    UnpackStamp(p, s);
    UnpackStamp(q, t);
  }
}
