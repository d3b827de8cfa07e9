/**
The heap of the simulator (deps/twist: isolated/heap and isolated/shared_segment.hpp).
Blocks are carved from the low end of a segment whose high end holds the stacks; freed
blocks go to one list per size class; an index of all blocks answers whether an address
range lies inside a live allocation.  Block headers are kept in a map from addresses;
the payload of user blocks is not modelled.
*/
module SizeClasses {

  const MIN_CLASS := 4
  const CLASSES := 32

  function BlockSize(klass: nat): (r: nat)
    ensures r >= 1
  {
    if klass == 0 then 1 else 2 * BlockSize(klass - 1)
  }

  lemma {:induction false} BlockSizeGrows(a: nat, b: nat)
    requires a < b
    ensures BlockSize(a) < BlockSize(b)
  {
    if a + 1 < b { BlockSizeGrows(a, b - 1); }
  }

  lemma BlockSizeAligned(klass: nat)
    requires klass >= MIN_CLASS
    ensures BlockSize(klass) % 16 == 0 && BlockSize(klass) >= 16
  {
    var k := klass - 4;
    assert BlockSize(k + 4) == 2 * BlockSize(k + 3) == 4 * BlockSize(k + 2) == 8 * BlockSize(k + 1) == 16 * BlockSize(k);
    SixteenTimes(BlockSize(k));
  }

  lemma SixteenTimes(q: nat)
    ensures 16 * q % 16 == 0
  {}

  lemma LargestClass()
    ensures BlockSize(30) == 0x4000_0000
  {
    assert BlockSize(10) == 1024 by {
      assert BlockSize(4) == 16 && BlockSize(8) == 16 * BlockSize(4);
    }
    assert BlockSize(20) == 1024 * BlockSize(10) by {
      assert BlockSize(14) == 16 * BlockSize(10) && BlockSize(18) == 16 * BlockSize(14);
    }
    assert BlockSize(30) == 1024 * BlockSize(20) by {
      assert BlockSize(24) == 16 * BlockSize(20) && BlockSize(28) == 16 * BlockSize(24);
    }
  }

  /** The first class from k on that holds the size. */
  function ClassFrom(k: nat, size: nat): nat
    decreases CLASSES - k
  {
    if k + 1 >= CLASSES || BlockSize(k) >= size then k else ClassFrom(k + 1, size)
  }

  /** The smallest class, from 16 bytes on, that holds the size; not found where the source aborts. */
  method GetSizeClass(size: nat) returns (k: nat, found: bool)
    ensures found ==> MIN_CLASS <= k < CLASSES && BlockSize(k) >= size && (k > MIN_CLASS ==> BlockSize(k - 1) < size)
    ensures found ==> k == ClassFrom(MIN_CLASS, size)
    ensures found <==> size <= BlockSize(CLASSES - 1)
  {
    for i := MIN_CLASS to CLASSES
      invariant i > MIN_CLASS ==> BlockSize(i - 1) < size
      invariant i < CLASSES ==> ClassFrom(MIN_CLASS, size) == ClassFrom(i, size)
    {
      if BlockSize(i) >= size {
        FoundFits(i, size);
        return i, true;
      }
    }
    return 0, false;
  }

  lemma FoundFits(i: nat, size: nat)
    requires i < CLASSES && BlockSize(i) >= size
    ensures size <= BlockSize(CLASSES - 1) && ClassFrom(i, size) == i
  {
    if i < CLASSES - 1 { BlockSizeGrows(i, CLASSES - 1); }
  }
}

module SimulatedHeap {
  import opened SizeClasses

  type Addr = nat

  const HEADER := 16
  const ALLOC_LIMIT := 0x4000_0000   // 1 << 30
  const INDEX_CAPACITY := 1024 * 1024
  const ENTRY_BYTES := 8

  datatype BlockState = Allocated | Available

  datatype Header = Header(state: BlockState, klass: nat, service: bool, userSize: nat, allocId: nat)

  datatype Option<+X> = None | Some(value: X)

  /** A vector of blocks in a service block of its own (`buf`, unless the capacity is 0). */
  datatype FreeList = FreeList(items: seq<Addr>, capacity: nat, buf: Addr)

  function Data(b: Addr): Addr
  {
    b + HEADER
  }

  function DataEnd(b: Addr, h: Header): Addr
  {
    b + HEADER + BlockSize(h.klass)
  }

  function UserDataEnd(b: Addr, h: Header): Addr
  {
    b + HEADER + h.userSize
  }

  // ---- what holds between operations --------------------------------------------------------

  predicate HeaderOk(b: Addr, h: Header)
  {
    && b % 16 == 0 && MIN_CLASS <= h.klass < CLASSES && h.userSize <= BlockSize(h.klass)
    && (h.state.Available? ==> h.userSize == 0 && !h.service)
    && (h.service ==> h.userSize == 0)
  }

  /** The block at position i ends before the next one, or before the break. */
  predicate Spaced(index: seq<Addr>, headers: map<Addr, Header>, next: Addr, i: nat)
    requires i < |index|
  {
    index[i] in headers && DataEnd(index[i], headers[index[i]]) <= if i + 1 < |index| then index[i + 1] else next
  }

  predicate Layout(index: seq<Addr>, headers: map<Addr, Header>, next: Addr)
  {
    && (forall i {:trigger Spaced(index, headers, next, i)} :: 0 <= i < |index| ==> Spaced(index, headers, next, i))
    && (forall b {:trigger HeaderOk(b, headers[b])} :: b in headers ==> b in index && HeaderOk(b, headers[b]))
  }

  predicate Listed(free: seq<FreeList>, headers: map<Addr, Header>, k: nat, i: nat)
    requires k < |free| && i < |free[k].items|
  {
    var b := free[k].items[i];
    b in headers && headers[b].state.Available? && headers[b].klass == k && forall j :: 0 <= j < i ==> free[k].items[j] != b
  }

  predicate BufferOk(headers: map<Addr, Header>, l: FreeList)
  {
    && |l.items| <= l.capacity
    && (l.capacity > 0 ==> l.buf in headers && headers[l.buf].state.Allocated? && headers[l.buf].service
                           && ENTRY_BYTES * l.capacity <= BlockSize(headers[l.buf].klass))
  }

  /** The free lists hold the available blocks, each once, by class. */
  predicate FreeOk(free: seq<FreeList>, headers: map<Addr, Header>)
  {
    && |free| == CLASSES
    && (forall k {:trigger BufferOk(headers, free[k])} :: 0 <= k < CLASSES ==> BufferOk(headers, free[k]))
    && (forall k, i {:trigger Listed(free, headers, k, i)} :: 0 <= k < CLASSES && 0 <= i < |free[k].items| ==> Listed(free, headers, k, i))
    && (forall b :: b in headers && headers[b].state.Available? && headers[b].klass < CLASSES ==> b in free[headers[b].klass].items)
  }

  // ---- the index ----------------------------------------------------------------------------------

  lemma {:induction false} Ordered(index: seq<Addr>, headers: map<Addr, Header>, next: Addr, i: nat, j: nat)
    requires Layout(index, headers, next) && i < j < |index|
    ensures index[i] in headers && DataEnd(index[i], headers[index[i]]) <= index[j]
    decreases j - i
  {
    assert Spaced(index, headers, next, i);
    if i + 1 < j {
      Ordered(index, headers, next, i + 1, j);
    }
  }

  /** Two blocks do not overlap, and none reaches the break. */
  lemma Disjoint(index: seq<Addr>, headers: map<Addr, Header>, next: Addr, b: Addr, c: Addr)
    requires Layout(index, headers, next) && b in headers && c in headers && b < c
    ensures DataEnd(b, headers[b]) <= c && DataEnd(c, headers[c]) <= next
  {
    assert HeaderOk(b, headers[b]) && HeaderOk(c, headers[c]);
    var i :| 0 <= i < |index| && index[i] == b;
    var j :| 0 <= j < |index| && index[j] == c;
    if j < i { Ordered(index, headers, next, j, i); }
    Ordered(index, headers, next, i, j);
    BelowBreak(index, headers, next, j);
  }

  lemma BelowBreak(index: seq<Addr>, headers: map<Addr, Header>, next: Addr, i: nat)
    requires Layout(index, headers, next) && i < |index|
    ensures index[i] in headers && DataEnd(index[i], headers[index[i]]) <= next
  {
    assert Spaced(index, headers, next, i) && Spaced(index, headers, next, |index| - 1);
    if i < |index| - 1 { Ordered(index, headers, next, i, |index| - 1); }
  }

  lemma BlockBelow(index: seq<Addr>, headers: map<Addr, Header>, next: Addr, b: Addr)
    requires Layout(index, headers, next) && b in headers
    ensures DataEnd(b, headers[b]) <= next
  {
    assert HeaderOk(b, headers[b]);
    var i :| 0 <= i < |index| && index[i] == b;
    BelowBreak(index, headers, next, i);
  }

  /** A live user allocation that contains the range. */
  predicate Inside(headers: map<Addr, Header>, b: Addr, addr: Addr, size: nat)
  {
    b in headers && headers[b].state.Allocated? && !headers[b].service && Data(b) <= addr && addr + size <= UserDataEnd(b, headers[b])
  }

  /** std::lower_bound: the first position whose block is not below the address. */
  method LowerBound(index: seq<Addr>, addr: Addr) returns (k: nat)
    requires forall i, j :: 0 <= i < j < |index| ==> index[i] < index[j]
    ensures k <= |index| && (forall i :: 0 <= i < k ==> index[i] < addr) && (forall i :: k <= i < |index| ==> index[i] >= addr)
  {
    var hi := |index|;
    k := 0;
    while k < hi
      invariant k <= hi <= |index|
      invariant forall i :: 0 <= i < k ==> index[i] < addr
      invariant forall i :: hi <= i < |index| ==> index[i] >= addr
    {
      var mid := (k + hi) / 2;
      if index[mid] < addr { k := mid + 1; } else { hi := mid; }
    }
  }

  // ---- changes that keep the books -----------------------------------------------------------------

  lemma EndAligned(b: Addr, h: Header)
    requires b % 16 == 0 && h.klass >= MIN_CLASS
    ensures DataEnd(b, h) % 16 == 0
  {
    BlockSizeAligned(h.klass);
    AlignedSum(b, BlockSize(h.klass));
  }

  lemma AlignedSum(a: nat, b: nat)
    requires a % 16 == 0 && b % 16 == 0
    ensures (a + 16 + b) % 16 == 0
  {
    assert a + 16 + b == 16 * (a / 16 + 1 + b / 16);
  }

  /** A block is added at the break. */
  lemma LayoutGrows(index: seq<Addr>, headers: map<Addr, Header>, next: Addr, klass: nat)
    requires Layout(index, headers, next) && next % 16 == 0 && MIN_CLASS <= klass < CLASSES
    ensures var h := Header(Allocated, klass, false, 0, 0);
            && next !in headers && Layout(index + [next], headers[next := h], DataEnd(next, h)) && DataEnd(next, h) % 16 == 0
  {
    var h := Header(Allocated, klass, false, 0, 0);
    var index', headers', next' := index + [next], headers[next := h], DataEnd(next, h);
    EndAligned(next, h);
    forall i | 0 <= i < |index| ensures Spaced(index', headers', next', i) && index[i] != next {
      assert Spaced(index, headers, next, i);
      BelowBreak(index, headers, next, i);
    }
    assert Spaced(index', headers', next', |index|);
    if next in headers { BlockBelow(index, headers, next, next); assert false; }
    forall b | b in headers' ensures b in index' && HeaderOk(b, headers'[b]) {
      if b != next { assert HeaderOk(b, headers[b]); } else { assert index'[|index|] == b; }
    }
  }

  /** A header changes, but not its class. */
  lemma LayoutUpdates(index: seq<Addr>, headers: map<Addr, Header>, next: Addr, b: Addr, h: Header)
    requires Layout(index, headers, next) && b in headers && HeaderOk(b, h) && h.klass == headers[b].klass
    ensures Layout(index, headers[b := h], next)
  {
    var headers' := headers[b := h];
    forall i | 0 <= i < |index| ensures Spaced(index, headers', next, i) { assert Spaced(index, headers, next, i); }
    forall c | c in headers' ensures c in index && HeaderOk(c, headers'[c]) { assert HeaderOk(c, headers[c]); }
  }

  /** A header that is not in a free list changes, and stays out of them. */
  lemma FreeUpdates(free: seq<FreeList>, headers: map<Addr, Header>, b: Addr, h: Header)
    requires FreeOk(free, headers) && h.state.Allocated? && (b in headers ==> headers[b].state.Allocated? && headers[b].klass == h.klass)
    requires b in headers && headers[b].service ==> h.service
    ensures FreeOk(free, headers[b := h])
  {
    var headers' := headers[b := h];
    forall k | 0 <= k < CLASSES ensures BufferOk(headers', free[k]) { assert BufferOk(headers, free[k]); }
    forall k, i | 0 <= k < CLASSES && 0 <= i < |free[k].items| ensures Listed(free, headers', k, i) { assert Listed(free, headers, k, i); }
  }

  /** A list gets a new buffer. */
  lemma FreeResizes(free: seq<FreeList>, headers: map<Addr, Header>, k: nat, capacity: nat, buf: Addr)
    requires FreeOk(free, headers) && k < CLASSES && BufferOk(headers, FreeList(free[k].items, capacity, buf))
    ensures FreeOk(free[k := FreeList(free[k].items, capacity, buf)], headers)
  {
    var free' := free[k := FreeList(free[k].items, capacity, buf)];
    forall j | 0 <= j < CLASSES ensures BufferOk(headers, free'[j]) { assert BufferOk(headers, free[j]); }
    forall j, i | 0 <= j < CLASSES && 0 <= i < |free'[j].items| ensures Listed(free', headers, j, i) { assert Listed(free, headers, j, i); }
  }

  /** An allocated block becomes available and enters its list. */
  lemma FreePushes(free: seq<FreeList>, headers: map<Addr, Header>, b: Addr)
    requires FreeOk(free, headers) && b in headers && headers[b].state.Allocated? && !headers[b].service && headers[b].klass < CLASSES
    requires |free[headers[b].klass].items| < free[headers[b].klass].capacity
    ensures var k := headers[b].klass;
            FreeOk(free[k := free[k].(items := free[k].items + [b])], headers[b := headers[b].(state := Available, userSize := 0)])
  {
    var k := headers[b].klass;
    var free', headers' := free[k := free[k].(items := free[k].items + [b])], headers[b := headers[b].(state := Available, userSize := 0)];
    forall j | 0 <= j < CLASSES ensures BufferOk(headers', free'[j]) { assert BufferOk(headers, free[j]); }
    forall j, i | 0 <= j < CLASSES && 0 <= i < |free[j].items| ensures Listed(free', headers', j, i) && free[j].items[i] != b {
      assert Listed(free, headers, j, i);
    }
    assert Listed(free', headers', k, |free[k].items|);
    forall c | c in headers' && headers'[c].state.Available? && headers'[c].klass < CLASSES ensures c in free'[headers'[c].klass].items {
      if c == b { assert free'[k].items[|free[k].items|] == b; } else if headers[c].klass == k { assert c in free[k].items; }
    }
  }

  function SwapRemove(r: seq<Addr>, i: nat): seq<Addr>
    requires i < |r|
  {
    r[i := r[|r| - 1]][..|r| - 1]
  }

  /** A listed block leaves its list and is allocated. */
  lemma FreePops(free: seq<FreeList>, headers: map<Addr, Header>, k: nat, i: nat, h: Header)
    requires FreeOk(free, headers) && k < CLASSES && i < |free[k].items| && h.state.Allocated? && h.klass == k
    ensures var b := free[k].items[i];
            && b in headers && headers[b].state.Available? && headers[b].klass == k
            && FreeOk(free[k := free[k].(items := SwapRemove(free[k].items, i))], headers[b := h])
  {
    var r, b := free[k].items, free[k].items[i];
    var x := SwapRemove(r, i);
    assert Listed(free, headers, k, i);
    var free', headers' := free[k := free[k].(items := x)], headers[b := h];
    forall j, l | 0 <= j < l < |r| ensures r[j] != r[l] { assert Listed(free, headers, k, l); }
    forall j | 0 <= j < CLASSES ensures BufferOk(headers', free'[j]) { assert BufferOk(headers, free[j]); }
    forall j, l | 0 <= j < CLASSES && 0 <= l < |free'[j].items| ensures Listed(free', headers', j, l) {
      if j == k { assert Listed(free, headers, k, if l == i then |r| - 1 else l); } else { assert Listed(free, headers, j, l); }
    }
    forall c | c in headers' && headers'[c].state.Available? && headers'[c].klass < CLASSES ensures c in free'[headers'[c].klass].items {
      if headers[c].klass == k {
        var j :| 0 <= j < |r| && r[j] == c;
        if j == |r| - 1 { assert x[i] == c; } else { assert x[j] == c; }
      }
    }
  }

  // ---- the allocator ------------------------------------------------------------------------------------

  /** Overflow: the segment is full.  Panic: the simulator gives up.  Crash: a null pointer is dereferenced. */
  datatype Outcome = Ok(a: Addr) | Overflow | Panic | Crash

  /** The live allocations of the user. */
  ghost function Live(headers: map<Addr, Header>): set<Addr>
  {
    set b | b in headers && headers[b].state.Allocated? && !headers[b].service
  }

  /** Nothing changes for the live allocations except what happens to b. */
  ghost predicate OnlyLive(was: map<Addr, Header>, now: map<Addr, Header>, b: Addr)
  {
    forall c :: c in Live(was) && c != b ==> c in now && now[c] == was[c]
  }

  function NewCapacity(curr: nat): nat
  {
    if curr == 0 then 8 else curr * 2
  }

  /** What NewBlock needs: the block, its header and the next header. */
  function Needs(klass: nat): nat
  {
    BlockSize(klass) + HEADER + HEADER
  }

  /** The next block that is pushed needs a new buffer. */
  predicate IsFull(l: FreeList)
  {
    |l.items| == l.capacity
  }

  function BufferBytes(l: FreeList): nat
  {
    ENTRY_BYTES * NewCapacity(l.capacity)
  }

  /** The buffer has a size class. */
  predicate BufferFits(l: FreeList)
  {
    BufferBytes(l) <= BlockSize(CLASSES - 1)
  }

  /** The segment has space for the buffer. */
  predicate BufferSpace(l: FreeList, left: nat)
  {
    Needs(ClassFrom(MIN_CLASS, BufferBytes(l))) <= left
  }

  /** A push dereferences a null pointer. */
  predicate PushCrashes(l: FreeList, left: nat)
  {
    IsFull(l) && BufferFits(l) && !BufferSpace(l, left)
  }

  /** A push stops the simulator: the buffer is too large for any class, or the index has no entry left. */
  predicate PushPanics(l: FreeList, left: nat, indexed: nat)
  {
    IsFull(l) && (!BufferFits(l) || (BufferSpace(l, left) && indexed >= INDEX_CAPACITY))
  }

  /** The position that is popped. */
  function Chosen(items: seq<Addr>, random: Option<nat>): (i: nat)
    requires items != []
    ensures i < |items|
  {
    if random.Some? then random.value % |items| else |items| - 1
  }

  class Allocator {
    const begin: Addr
    const end: Addr
    var up: Addr
    var down: Addr
    var headers: map<Addr, Header>
    var index: seq<Addr>
    var free: seq<FreeList>
    var nextId: nat

    /** The break `next_` always equals the upper end of the reserved part of the segment. */
    ghost predicate Valid()
      reads this
    {
      && begin <= up <= down <= end && up % 16 == 0
      && Layout(index, headers, up) && FreeOk(free, headers)
      && forall b :: b in headers ==> begin <= b
    }

    constructor (b: Addr, e: Addr)
      requires b <= e && b % 16 == 0
      ensures Valid() && begin == b && end == e && up == b && down == e && headers == map[] && index == []
      ensures free == seq(CLASSES, _ => FreeList([], 0, 0))
    {
      begin, end, up, down := b, e, b, e;
      headers, index, nextId := map[], [], 0;
      free := seq(CLASSES, _ => FreeList([], 0, 0));
    }

    /** A stack: it takes the top of what is left, above all blocks. */
    method TryDown(size: nat) returns (r: Outcome)
      requires Valid()
      modifies this`down
      ensures Valid()
      ensures if size <= old(down) - up then r == Ok(down) && down == old(down) - size else r == Overflow && down == old(down)
      ensures forall b :: b in headers ==> DataEnd(b, headers[b]) <= down
    {
      if down - up < size {
        r := Overflow;
      } else {
        down := down - size;
        r := Ok(down);
      }
      forall b | b in headers ensures DataEnd(b, headers[b]) <= down {
        BlockBelow(index, headers, up, b);
      }
    }

    method TrySetUp(ptr: Addr) returns (ok: bool)
      requires up <= ptr && up <= down
      modifies this`up
      ensures ok == (ptr <= down) && up == if ok then ptr else old(up)
    {
      ok := ptr - up <= down - up;
      if ok { up := ptr; }
    }

    method Align(ptr: Addr) returns (r: Addr)
      ensures r % 16 == 0 && ptr <= r < ptr + 16
    {
      r := ptr;
      ghost var target := ptr + (16 - ptr % 16) % 16;
      while r % 16 != 0
        invariant ptr <= r <= target && target % 16 == 0
        decreases target - r
      {
        r := r + 1;
      }
    }

    /** A new block at the break, or nothing if the segment is full. */
    method NewBlock(klass: nat) returns (r: Outcome)
      requires Valid() && MIN_CLASS <= klass < CLASSES
      modifies this`up, this`headers, this`index
      ensures !r.Crash?
      ensures r.Overflow? <==> Needs(klass) > down - old(up)
      ensures r.Panic? <==> Needs(klass) <= down - old(up) && |old(index)| >= INDEX_CAPACITY
      ensures r.Overflow? ==> Valid() && headers == old(headers) && index == old(index) && up == old(up)
      ensures r.Ok? ==> Valid() && r.a == old(up) && r.a !in old(headers) && index == old(index) + [r.a]
      ensures r.Ok? ==> up == old(up) + BlockSize(klass) + HEADER
      ensures r.Ok? ==> headers == old(headers)[r.a := Header(Allocated, klass, false, 0, 0)]
    {
      var total := BlockSize(klass) + HEADER;
      if total + HEADER > down - up { return Overflow; }
      LayoutGrows(index, headers, up, klass);
      FreeUpdates(free, headers, up, Header(Allocated, klass, false, 0, 0));
      var block := up;
      var newNext := Align(up + total);
      assert newNext == up + total;
      var ok := TrySetUp(newNext);
      if !ok { return Overflow; }
      headers := headers[block := Header(Allocated, klass, false, 0, 0)];
      if |index| >= INDEX_CAPACITY { return Panic; }
      if |index| > 0 {
        BelowBreak(index, old(headers), block, |index| - 1);
        if index[|index| - 1] >= block { return Panic; }
      }
      index := index + [block];
      r := Ok(block);
    }

    /** The answer of the binary search. */
    method Lookup(addr: Addr) returns (r: Addr, found: bool)
      requires Valid()
      ensures found ==> r in headers && Data(r) <= addr < UserDataEnd(r, headers[r])
      ensures !found ==> forall b :: b in headers ==> !(Data(b) <= addr < UserDataEnd(b, headers[b]))
    {
      if |index| == 0 {
        NoBlocks(index, headers, up);
        return 0, false;
      }
      var last := index[|index| - 1];
      forall i, j | 0 <= i < j < |index| ensures index[i] < index[j] { Ordered(index, headers, up, i, j); }
      assert Spaced(index, headers, up, 0) && Spaced(index, headers, up, |index| - 1);
      if addr < Data(index[0]) || addr >= UserDataEnd(last, headers[last]) {
        forall b | b in headers ensures !(Data(b) <= addr < UserDataEnd(b, headers[b])) { OutOfBounds(index, headers, up, b, addr); }
        return 0, false;
      }
      var k := LowerBound(index, addr);
      assert k > 0;
      var c := index[k - 1];
      assert Spaced(index, headers, up, k - 1);
      forall b | b in headers && Data(b) <= addr < UserDataEnd(b, headers[b]) ensures b == c { OnlyCandidate(index, headers, up, k, b, addr); }
      if Data(c) <= addr && addr < UserDataEnd(c, headers[c]) { return c, true; }
      return 0, false;
    }

    /** True exactly if the range lies inside one live allocation of the user. */
    method Access(addr: Addr, size: nat) returns (ok: bool)
      requires Valid() && size >= 1
      ensures ok <==> exists b :: Inside(headers, b, addr, size)
    {
      var b, found := Lookup(addr);
      ok := found && headers[b].state.Allocated? && addr + size <= UserDataEnd(b, headers[b]);
      if found { assert HeaderOk(b, headers[b]); }
      if ok { assert Inside(headers, b, addr, size); }
      forall c | Inside(headers, c, addr, size) ensures ok {
        assert HeaderOk(c, headers[c]);
        if found && c != b { Apart(index, headers, up, b, c, addr); }
      }
    }

    /** TryPop: the last block of the list, or the one that a random number selects, swapped to the end. */
    method TryPop(k: nat, random: Option<nat>, h: Header) returns (r: Option<Addr>)
      requires Valid() && MIN_CLASS <= k < CLASSES && h.state.Allocated? && h.klass == k && !h.service && h.userSize <= BlockSize(k)
      modifies this`free, this`headers
      ensures Valid() && r.Some? == (old(free)[k].items != [])
      ensures r.None? ==> headers == old(headers) && free == old(free)
      ensures r.Some? ==> r.value in old(headers) && old(headers)[r.value].state.Available? && headers == old(headers)[r.value := h]
      ensures r.Some? ==>
                var items := old(free)[k].items;
                var i := Chosen(items, random);
                r.value == items[i] && free == old(free)[k := old(free)[k].(items := SwapRemove(items, i))]
    {
      var items := free[k].items;
      if items == [] { return None; }
      var i := Chosen(items, random);
      var b := items[i];
      FreePops(free, headers, k, i, h);
      assert HeaderOk(b, headers[b]);
      LayoutUpdates(index, headers, up, b, h);
      free := free[k := free[k].(items := SwapRemove(items, i))];
      headers := headers[b := h];
      r := Some(b);
    }

    /** GetFreeBlock, together with the header that Allocate writes into the block. */
    method GetFreeBlock(k: nat, random: Option<nat>, h: Header) returns (r: Outcome)
      requires Valid() && MIN_CLASS <= k < CLASSES && h.state.Allocated? && h.klass == k && !h.service && h.userSize <= BlockSize(k)
      modifies this`up, this`headers, this`index, this`free
      ensures !r.Crash?
      ensures r.Overflow? <==> old(free)[k].items == [] && Needs(k) > down - old(up)
      ensures r.Panic? <==> old(free)[k].items == [] && Needs(k) <= down - old(up) && |old(index)| >= INDEX_CAPACITY
      ensures r.Overflow? ==> Valid() && headers == old(headers)
      ensures r.Ok? ==> Valid() && headers == old(headers)[r.a := h] && r.a !in Live(old(headers)) && r.a % 16 == 0
      ensures r.Ok? && old(free)[k].items == [] ==> r.a == old(up) && up == old(up) + BlockSize(k) + HEADER && free == old(free)
      ensures r.Ok? && old(free)[k].items != [] ==> up == old(up) && r.a in old(free)[k].items
    {
      var popped := TryPop(k, random, h);
      if popped.Some? {
        assert HeaderOk(popped.value, headers[popped.value]);
        return Ok(popped.value);
      }
      r := NewBlock(k);
      if r.Ok? {
        assert HeaderOk(r.a, headers[r.a]);
        LayoutUpdates(index, headers, up, r.a, h);
        FreeUpdates(free, headers, r.a, h);
        headers := headers[r.a := h];
      }
    }

    /** An aligned block, large enough, that was not in use; everything that was live stays as it was. */
    method Allocate(size: nat, random: Option<nat>) returns (r: Outcome)
      requires Valid()
      modifies this`up, this`headers, this`index, this`free, this`nextId
      ensures size >= ALLOC_LIMIT ==> r.Panic?
      ensures size < ALLOC_LIMIT ==>
                var k := ClassFrom(MIN_CLASS, size);
                && k < |old(free)|
                && (r.Overflow? <==> old(free)[k].items == [] && Needs(k) > down - old(up))
                && (r.Panic? <==> old(free)[k].items == [] && Needs(k) <= down - old(up) && |old(index)| >= INDEX_CAPACITY)
                && (r.Ok? && old(free)[k].items == [] ==>
                      r.a == Data(old(up)) && up == old(up) + BlockSize(k) + HEADER && free == old(free))
      ensures r.Overflow? ==> Valid() && headers == old(headers)
      ensures r.Ok? ==>
                && Valid() && r.a % 16 == 0 && r.a >= HEADER
                && var b := r.a - HEADER;
                   && b !in Live(old(headers)) && b in Live(headers) && headers[b].userSize == size <= BlockSize(headers[b].klass)
                   && headers[b].klass == ClassFrom(MIN_CLASS, size)
                   && Live(headers) == Live(old(headers)) + {b} && OnlyLive(old(headers), headers, b)
      ensures !r.Crash?
    {
      if size >= ALLOC_LIMIT { return Panic; }
      var k, found := GetSizeClass(size);
      UserFits(size, found);
      var h := Header(Allocated, k, false, size, nextId + 1);
      r := GetFreeBlock(k, random, h);
      if r.Ok? {
        LiveAdds(old(headers), r.a, h);
        nextId := nextId + 1;
        r := Ok(Data(r.a));
      }
    }

    /** Make room in a free list: a new buffer, twice as large, in a service block. */
    method ResizeBuffer(k: nat) returns (r: Outcome)
      requires Valid() && MIN_CLASS <= k < CLASSES && |free[k].items| == free[k].capacity
      modifies this`up, this`headers, this`index, this`free
      ensures !r.Overflow?
      ensures r.Crash? <==> PushCrashes(old(free)[k], down - old(up))
      ensures r.Panic? <==> PushPanics(old(free)[k], down - old(up), |old(index)|)
      ensures r.Ok? ==> Valid() && free[k].items == old(free)[k].items && free[k].capacity == NewCapacity(old(free)[k].capacity)
      ensures r.Ok? ==> r.a !in old(headers) && r.a in headers && headers[r.a].service && headers == old(headers)[r.a := headers[r.a]]
    {
      var l := free[k];
      var capacity := NewCapacity(l.capacity);
      var c, found := GetSizeClass(ENTRY_BYTES * capacity);
      if !found { return Panic; }
      var block := NewBlock(c);
      if block.Panic? { return Panic; }
      if !block.Ok? { return Crash; }          // the result is not checked
      var b, h := block.a, Header(Allocated, c, true, 0, 0);
      assert HeaderOk(b, headers[b]);
      LayoutUpdates(index, headers, up, b, h);
      FreeUpdates(free, headers, b, h);
      headers := headers[b := h];
      FreeResizes(free, headers, k, capacity, b);
      free := free[k := FreeList(l.items, capacity, b)];
      r := Ok(b);
    }

    /** Free of a block: it must be allocated; the list gets room first if it has none. */
    method FreeBlock(b: Addr) returns (r: Outcome)
      requires Valid() && b in headers && !headers[b].service
      modifies this`up, this`headers, this`index, this`free
      ensures !r.Overflow? && old(headers)[b].klass < |old(free)|
      ensures old(headers)[b].state.Available? ==> r.Panic? && headers == old(headers)
      ensures old(headers)[b].state.Allocated? ==>
                var l := old(free)[old(headers)[b].klass];
                && (r.Crash? <==> PushCrashes(l, down - old(up)))
                && (r.Panic? <==> PushPanics(l, down - old(up), |old(index)|))
                && (r.Ok? ==> old(headers)[b].klass < |free| && free[old(headers)[b].klass].items == l.items + [b])
      ensures r.Ok? ==> Valid() && OnlyLive(old(headers), headers, b) && Live(headers) == Live(old(headers)) - {b}
    {
      assert HeaderOk(b, headers[b]);
      var k := headers[b].klass;
      if !headers[b].state.Allocated? { return Panic; }      // freed before
      if |free[k].items| == free[k].capacity {
        var room := ResizeBuffer(k);
        if !room.Ok? { return room; }
        LiveSame(old(headers), room.a, headers[room.a]);
      }
      LiveDrops(headers, b, Freed(headers[b]));
      assert BufferOk(headers, free[k]);
      PutBack(b);
      r := Ok(0);
    }

    /** The block joins the list of its class. */
    method PutBack(b: Addr)
      requires Valid() && b in headers && headers[b].state.Allocated? && !headers[b].service
      requires headers[b].klass < |free| && |free[headers[b].klass].items| < free[headers[b].klass].capacity
      modifies this`headers, this`free
      ensures Valid() && headers == old(headers)[b := Freed(old(headers)[b])]
      ensures var k := old(headers)[b].klass; free == old(free)[k := old(free)[k].(items := old(free)[k].items + [b])]
    {
      assert HeaderOk(b, headers[b]);
      var k, h := headers[b].klass, Freed(headers[b]);
      FreePushes(free, headers, b);
      LayoutUpdates(index, headers, up, b, h);
      headers := headers[b := h];
      free := free[k := free[k].(items := free[k].items + [b])];
    }

    /**
    Free: a pointer that does not come from Allocate, or that was freed before, is refused; otherwise
    exactly that allocation dies.  It crashes if and only if the free list is full and the segment has
    no space for a larger buffer.  Pointers to service blocks are never handed out.
    */
    method Free(ptr: Addr) returns (r: Outcome)
      requires Valid() && (ptr >= HEADER && ptr - HEADER in headers ==> !headers[ptr - HEADER].service)
      modifies this`up, this`headers, this`index, this`free
      ensures !r.Overflow?
      ensures ptr == 0 ==> r.Ok? && headers == old(headers)
      ensures ptr != 0 && !(ptr >= HEADER && ptr - HEADER in Live(old(headers))) ==> r.Panic? && headers == old(headers)
      ensures r.Ok? ==> Valid()
      ensures ptr >= HEADER && ptr - HEADER in Live(old(headers)) ==>
                && old(headers)[ptr - HEADER].klass < |old(free)|
                && var l := old(free)[old(headers)[ptr - HEADER].klass];
                   && (r.Crash? <==> PushCrashes(l, down - old(up)))
                   && (r.Panic? <==> PushPanics(l, down - old(up), |old(index)|))
      ensures r.Ok? && ptr != 0 ==>
                ptr >= HEADER && OnlyLive(old(headers), headers, ptr - HEADER) && Live(headers) == Live(old(headers)) - {ptr - HEADER}
    {
      if ptr == 0 { return Ok(0); }
      if ptr >= HEADER && ptr - HEADER in headers {
        assert HeaderOk(ptr - HEADER, headers[ptr - HEADER]);
        BlockBelow(index, headers, up, ptr - HEADER);
        BlockSizeAligned(headers[ptr - HEADER].klass);
      }
      if ptr < begin || ptr >= up || ptr % 16 != 0 || ptr < begin + HEADER { return Panic; }
      if ptr - HEADER !in headers { return Panic; }          // the canary is dead
      r := FreeBlock(ptr - HEADER);
    }
  }

  function Freed(h: Header): Header
  {
    h.(state := Available, userSize := 0)
  }

  lemma UserFits(size: nat, found: bool)
    requires size < ALLOC_LIMIT && (found <==> size <= BlockSize(CLASSES - 1))
    ensures found
  {
    LargestClass();
    BlockSizeGrows(30, CLASSES - 1);
  }

  lemma LiveAdds(was: map<Addr, Header>, b: Addr, h: Header)
    requires b !in Live(was) && h.state.Allocated? && !h.service
    ensures Live(was[b := h]) == Live(was) + {b} && OnlyLive(was, was[b := h], b)
  {}

  lemma LiveSame(was: map<Addr, Header>, b: Addr, h: Header)
    requires b !in was && h.service
    ensures Live(was[b := h]) == Live(was) && OnlyLive(was, was[b := h], b)
  {}

  lemma LiveDrops(was: map<Addr, Header>, b: Addr, h: Header)
    requires h.state.Available?
    ensures Live(was[b := h]) == Live(was) - {b} && OnlyLive(was, was[b := h], b)
  {}

  lemma NoBlocks(index: seq<Addr>, headers: map<Addr, Header>, next: Addr)
    requires Layout(index, headers, next) && index == []
    ensures headers == map[]
  {
    forall b | b in headers ensures b in index { assert HeaderOk(b, headers[b]); }
  }

  lemma OutOfBounds(index: seq<Addr>, headers: map<Addr, Header>, next: Addr, b: Addr, addr: Addr)
    requires Layout(index, headers, next) && b in headers && |index| > 0
    requires var last := index[|index| - 1]; last in headers && (addr < Data(index[0]) || addr >= UserDataEnd(last, headers[last]))
    ensures !(Data(b) <= addr < UserDataEnd(b, headers[b]))
  {
    assert HeaderOk(b, headers[b]);
    var i :| 0 <= i < |index| && index[i] == b;
    var n := |index| - 1;
    if i > 0 { Ordered(index, headers, next, 0, i); }
    if i < n { Ordered(index, headers, next, i, n); }
  }

  /** Only the last block below the address can contain it. */
  lemma OnlyCandidate(index: seq<Addr>, headers: map<Addr, Header>, next: Addr, k: nat, b: Addr, addr: Addr)
    requires Layout(index, headers, next) && b in headers && Data(b) <= addr < UserDataEnd(b, headers[b])
    requires 0 < k <= |index| && index[k - 1] < addr && (forall i :: k <= i < |index| ==> index[i] >= addr)
    ensures b == index[k - 1]
  {
    assert HeaderOk(b, headers[b]);
    var i :| 0 <= i < |index| && index[i] == b;
    if i < k - 1 { Ordered(index, headers, next, i, k - 1); }
  }

  /** An address lies in at most one block. */
  lemma Apart(index: seq<Addr>, headers: map<Addr, Header>, next: Addr, b: Addr, c: Addr, addr: Addr)
    requires Layout(index, headers, next) && b in headers && c in headers && b != c
    requires Data(b) <= addr < UserDataEnd(b, headers[b])
    ensures !(Data(c) <= addr < UserDataEnd(c, headers[c]))
  {
    assert HeaderOk(b, headers[b]) && HeaderOk(c, headers[c]);
    if b < c { Disjoint(index, headers, next, b, c); } else { Disjoint(index, headers, next, c, b); }
  }

  /** A live allocation of the user is aligned, large enough, inside the segment and below the stacks. */
  lemma LiveIsSound(h: Allocator, b: Addr)
    requires h.Valid() && b in Live(h.headers)
    ensures Data(b) % 16 == 0 && h.begin < Data(b) && h.headers[b].userSize <= BlockSize(h.headers[b].klass)
    ensures UserDataEnd(b, h.headers[b]) <= DataEnd(b, h.headers[b]) <= h.up <= h.down
  {
    assert HeaderOk(b, h.headers[b]);
    BlockBelow(h.index, h.headers, h.up, b);
  }

  /** Two live allocations of the user do not overlap. */
  lemma LiveAreApart(h: Allocator, b: Addr, c: Addr)
    requires h.Valid() && b in Live(h.headers) && c in Live(h.headers) && b < c
    ensures UserDataEnd(b, h.headers[b]) <= c < Data(c)
  {
    LiveIsSound(h, b);
    Disjoint(h.index, h.headers, h.up, b, c);
  }

  /** The crash is reachable: a segment of 48 bytes holds one small block, and freeing it needs a buffer. */
  method FreeMayCrash() returns (r: Outcome)
    ensures r.Crash?
  {
    var heap := new Allocator(0, 48);
    SmallClasses();
    var p := heap.Allocate(16, None);
    r := heap.Free(p.a);
  }

  lemma SmallClasses()
    ensures BlockSize(4) == 16 && ClassFrom(MIN_CLASS, 16) == 4
    ensures BlockSize(6) == 64 <= BlockSize(CLASSES - 1) && ClassFrom(MIN_CLASS, 64) == 6
  {
    assert BlockSize(4) == 16 && BlockSize(5) == 32 && BlockSize(6) == 64;
    BlockSizeGrows(6, CLASSES - 1);
  }
}
