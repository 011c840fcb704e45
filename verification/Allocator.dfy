// The size classes of the pool allocator (iloallocator.h).

module Allocator {

  function Pow2(n: nat): nat {
    if n == 0 then 1 else 2 * Pow2(n - 1)
  }

  // The number of binary digits of t.
  function BitLength(t: nat): nat {
    if t == 0 then 0 else BitLength(t / 2) + 1
  }

  datatype Index = InClass(index: int) | MemoryException

  // The table countBitsUnder16.
  const COUNT_BITS_UNDER_16: seq<nat> := [0, 1, 2, 2, 3, 3, 3, 3, 4, 4, 4, 4, 4, 4, 4, 4]

  lemma {:induction false} Pow2Positive(n: nat)
    ensures Pow2(n) >= 1
  {
    if n > 0 {
      Pow2Positive(n - 1);
    }
  }

  lemma {:induction false} Pow2Monotone(m: nat, n: nat)
    requires m <= n
    ensures Pow2(m) <= Pow2(n)
    decreases n - m
  {
    if m < n {
      Pow2Monotone(m + 1, n);
    }
  }

  // b digits hold exactly the numbers from 2^(b-1) up to 2^b.
  lemma {:induction false} BitLengthBounds(t: nat)
    ensures t < Pow2(BitLength(t))
    ensures t > 0 ==> BitLength(t) >= 1 && Pow2(BitLength(t) - 1) <= t
  {
    if t > 0 {
      BitLengthBounds(t / 2);
    }
  }

  lemma {:induction false} BitLengthMonotone(s: nat, t: nat)
    requires s <= t
    ensures BitLength(s) <= BitLength(t)
  {
    if s > 0 {
      BitLengthMonotone(s / 2, t / 2);
    }
  }

  // t shifted right by w digits, one at a time.
  function Shifted(t: nat, w: nat): nat
    decreases w
  {
    if w == 0 then t else Shifted(t / 2, w - 1)
  }

  // Shifting w digits out of a longer number drops w from its length.
  lemma {:induction false} BitLengthShift(t: nat, w: nat)
    requires t >= Pow2(w)
    ensures BitLength(t) == BitLength(Shifted(t, w)) + w
    decreases w
  {
    Pow2Positive(w);
    if w > 0 {
      BitLengthShift(t / 2, w - 1);
    }
  }

  lemma {:induction false} ShiftedTwice(t: nat, v: nat, w: nat)
    ensures Shifted(t, v + w) == Shifted(Shifted(t, v), w)
    decreases v
  {
    if v > 0 {
      ShiftedTwice(t / 2, v - 1, w);
    }
  }

  // The shifts of getIndex as divisions.
  lemma ShiftedIsDivision(t: nat)
    ensures Shifted(t, 4) == t / 0x10 && Shifted(t, 8) == t / 0x100
    ensures Shifted(t, 16) == t / 0x10000 && Shifted(t, 32) == t / 0x1_0000_0000
  {
    hide Shifted;
    ShiftByFour(t);
    ShiftByFour(t / 0x10);
    ShiftedTwice(t, 4, 4);
    ShiftBySixteen(t);
    ShiftBySixteen(t / 0x10000);
    ShiftedTwice(t, 16, 16);
  }

  lemma ShiftByFour(t: nat)
    ensures Shifted(t, 4) == t / 0x10
  {
    assert Shifted(t, 4) == Shifted(t / 2, 3) == Shifted(t / 2 / 2, 2) == Shifted(t / 2 / 2 / 2, 1);
  }

  lemma ShiftBySixteen(t: nat)
    ensures Shifted(t, 16) == t / 0x10000
  {
    hide Shifted;
    ShiftByFour(t);
    ShiftByFour(t / 0x10);
    ShiftedTwice(t, 4, 4);
    ShiftByFour(t / 0x100);
    ShiftByFour(t / 0x1000);
    ShiftedTwice(t / 0x100, 4, 4);
    ShiftedTwice(t, 8, 8);
  }

  lemma TableIsBitLength(t: nat)
    requires t < 16
    ensures COUNT_BITS_UNDER_16[t] == BitLength(t)
  {
    if t >= 8 { assert BitLength(t / 8) == 1; }
    else if t >= 4 { assert BitLength(t / 4) == 1; }
  }

  lemma SixteenBits()
    ensures Pow2(4) == 0x10 && Pow2(8) == 0x100 && Pow2(16) == 0x10000 && Pow2(32) == 0x1_0000_0000
  {
    assert Pow2(4) == 16;
    Pow2Add(4, 4);
    Pow2Add(8, 8);
    Pow2Add(16, 16);
  }

  lemma {:induction false} Pow2Add(m: nat, n: nat)
    ensures Pow2(m + n) == Pow2(m) * Pow2(n)
  {
    if m > 0 {
      Pow2Add(m - 1, n);
      assert Pow2(m) == 2 * Pow2(m - 1) && Pow2(m + n) == 2 * Pow2(m - 1 + n);
      TwiceProduct(Pow2(m - 1), Pow2(n));
    }
  }

  lemma TwiceProduct(a: nat, b: nat)
    ensures (2 * a) * b == 2 * (a * b)
  {
  }

  // The four steps of getIndex that shift a long number and credit the shift.
  lemma DropDigits(t: nat)
    ensures t >= 0x1_0000_0000 ==> BitLength(t) == BitLength(t / 0x1_0000_0000) + 32
    ensures t >= 0x10000 ==> BitLength(t) == BitLength(t / 0x10000) + 16
    ensures t >= 0x100 ==> BitLength(t) == BitLength(t / 0x100) + 8
    ensures t >= 0x10 ==> BitLength(t) == BitLength(t / 0x10) + 4
  {
    hide Pow2, BitLength, Shifted;
    SixteenBits();
    ShiftedIsDivision(t);
    if t >= 0x1_0000_0000 { BitLengthShift(t, 32); }
    if t >= 0x10000 { BitLengthShift(t, 16); }
    if t >= 0x100 { BitLengthShift(t, 8); }
    if t >= 0x10 { BitLengthShift(t, 4); }
  }

  // The class of a size, by its meaning: eight bytes per class up to 64 bytes, then one
  // class per doubling.
  function ClassOf(s: int): int {
    var t := (s - 1) / 8;
    if t < 8 then t else 8 + BitLength(t / 16)
  }

  // IloMemory::getIndex, with 64-bit integers (ILO64) or 32-bit ones. The table is always
  // read in range; only a class past the pools throws.
  method GetIndex(size: int, ilo64: bool, nbAllocator: int) returns (r: Index)
    requires if ilo64 then -0x8000_0000_0000_0000 < size < 0x8000_0000_0000_0000 else -0x8000_0000 < size < 0x8000_0000
    ensures r == if ClassOf(size) >= 8 && ClassOf(size) >= nbAllocator then MemoryException else InClass(ClassOf(size))
  {
    hide BitLength;
    var s := (size - 1) / 8;
    if s < 8 {
      return InClass(s);
    }
    s := s / 16;
    var index := 8;
    if ilo64 {
      if s >= 0x1_0000_0000 {
        DropDigits(s);
        index, s := index + 32, s / 0x1_0000_0000;
      }
    }
    if s >= 0x10000 {
      DropDigits(s);
      index, s := index + 16, s / 0x10000;
    }
    if s >= 0x100 {
      DropDigits(s);
      index, s := index + 8, s / 0x100;
    }
    if s >= 0x10 {
      DropDigits(s);
      index, s := index + 4, s / 0x10;
    }
    TableIsBitLength(s);
    index := index + COUNT_BITS_UNDER_16[s];
    if index >= nbAllocator {
      return MemoryException;
    }
    return InClass(index);
  }

  // Beyond 64 bytes, a class of b digits past the eighth holds (2^(6+b), 2^(7+b)].
  lemma SixtyFour()
    ensures Pow2(0) == 1 && Pow2(6) == 64 && Pow2(7) == 128
  {
    assert Pow2(3) == 8;
    Pow2Add(3, 3);
    Pow2Add(1, 6);
  }

  lemma LargeSize(s: int, b: nat)
    requires s > 64 && b == BitLength((s - 1) / 128)
    ensures Pow2(6 + b) < s <= Pow2(7 + b)
  {
    hide Pow2;
    var q := (s - 1) / 128;
    SixtyFour();
    BitLengthBounds(q);
    Pow2Add(7, b);
    assert Pow2(7 + b) == 128 * Pow2(b);
    if b > 0 {
      Pow2Add(7, b - 1);
      assert Pow2(6 + b) == 128 * Pow2(b - 1);
    }
  }

  lemma LargeClass(s: int)
    requires s > 64
    ensures ClassOf(s) == 8 + BitLength((s - 1) / 128)
  {
    assert (s - 1) / 8 / 16 == (s - 1) / 128;
  }

  // The ranges of different classes do not meet.
  lemma OneClass(s: int, i: nat, j: nat)
    requires 1 <= i < j && Pow2(j - 1) < s
    ensures s > Pow2(i)
  {
    Pow2Monotone(i, j - 1);
  }

  // Class i below 8 holds exactly the sizes in (8i, 8(i+1)], class i from 8 on exactly
  // those in (2^(i-2), 2^(i-1)].
  lemma ClassMeans(s: int, i: nat)
    requires s >= 1
    ensures i < 8 ==> (ClassOf(s) == i <==> 8 * i < s <= 8 * (i + 1))
    ensures i >= 8 ==> (ClassOf(s) == i <==> Pow2(i - 2) < s <= Pow2(i - 1))
  {
    if s <= 64 {
      if i >= 8 {
        SixtyFour();
        Pow2Monotone(6, i - 2);
      }
    } else {
      var b := BitLength((s - 1) / 128);
      LargeClass(s);
      LargeSize(s, b);
      if i >= 8 && i < 8 + b {
        OneClass(s, i - 1, 7 + b);
      } else if i > 8 + b {
        Pow2Monotone(7 + b, i - 2);
      }
    }
  }

  // The largest size of a class, what an allocation of that class reserves.
  function ClassBound(i: nat): nat {
    if i < 8 then 8 * (i + 1) else Pow2(i - 1)
  }

  // The reserved block holds the request and wastes less than 8 bytes or less than as
  // much again.
  lemma WasteIsBounded(s: int)
    requires s >= 1
    ensures ClassOf(s) >= 0 && s <= ClassBound(ClassOf(s))
    ensures ClassBound(ClassOf(s)) < s + 8 || ClassBound(ClassOf(s)) < 2 * s
  {
    ClassMeans(s, ClassOf(s));
  }

  // The classes below that of a size do not cover it.
  lemma SmallerClass(s: int, i: nat)
    requires s >= 1 && i < ClassOf(s)
    ensures ClassBound(i) < s
  {
    hide BitLength;
    ClassMeans(s, ClassOf(s));
    if i >= 8 {
      Pow2Monotone(i - 1, ClassOf(s) - 2);
    } else if ClassOf(s) >= 8 {
      Pow2Monotone(6, ClassOf(s) - 2);
      SixtyFour();
    }
  }

  lemma BoundsGrow(i: nat, j: nat)
    requires i <= j
    ensures ClassBound(i) <= ClassBound(j)
  {
    SixtyFour();
    if i >= 8 {
      Pow2Monotone(i - 1, j - 1);
    } else if j >= 8 {
      Pow2Monotone(6, j - 1);
    }
  }

  lemma ClassesAreMonotone(s: int, t: int)
    requires s <= t
    ensures ClassOf(s) <= ClassOf(t)
  {
    var a, b := (s - 1) / 8, (t - 1) / 8;
    assert a <= b;
    if a >= 8 {
      BitLengthMonotone(a / 16, b / 16);
    }
  }

  // The index is negative exactly for sizes below 1.
  lemma NegativeIffNoSize(s: int)
    ensures ClassOf(s) >= 0 <==> s >= 1
    ensures ClassOf(s) == -1 <==> -7 <= s <= 0
  {
  }

  // -------------------------------------------------------------------------
  // IloMemory::alloc and free

  // The length of the table of pools, ILO_NB_ALLOC.
  const TABLE_SIZE := 60

  // Where a call ends: nowhere, at an entry of the table of pools, at the default
  // allocator, or with the exception of getIndex. An index off the table is undefined.
  datatype Route = Nowhere | Pool(index: int) | Default | Thrown
  {
    predicate Defined() {
      Pool? ==> 0 <= index < TABLE_SIZE
    }
  }

  datatype Memory = Memory(limit: int, nbAllocator: int, ilo64: bool)
  {
    // The table holds the pools.
    predicate Valid() {
      nbAllocator <= TABLE_SIZE
    }

    predicate InRange(size: int) {
      if ilo64 then -0x8000_0000_0000_0000 < size < 0x8000_0000_0000_0000 else -0x8000_0000 < size < 0x8000_0000
    }

    method Look(size: int) returns (r: Route)
      requires InRange(size)
      ensures r == PoolOf(size)
    {
      var index := GetIndex(size, ilo64, nbAllocator);
      match index {
        case InClass(i) => r := Pool(i);
        case MemoryException => r := Thrown;
      }
    }

    // The pool getIndex leads to, unless it throws.
    function PoolOf(size: int): Route {
      if ClassOf(size) >= 8 && ClassOf(size) >= nbAllocator then Thrown else Pool(ClassOf(size))
    }

    function AllocRoute(size: int): Route {
      if size >= limit then Default else if size == 0 then Nowhere else PoolOf(size)
    }

    function FreeRoute(isNull: bool, size: int): Route {
      if isNull then Nowhere else if size >= limit then Default else PoolOf(size)
    }

    // The largest size that has a pool below the exception of getIndex.
    function Largest(): nat {
      ClassBound(if nbAllocator > 8 then nbAllocator - 1 else 7)
    }

    // The pool of a size is the one of the least class that covers it, up to the largest
    // size that has one.
    lemma PoolIsLeast(size: int)
      requires size >= 1
      ensures PoolOf(size) == Thrown <==> size > Largest()
      ensures PoolOf(size).Pool? ==>
                && 0 <= PoolOf(size).index && size <= ClassBound(PoolOf(size).index)
                && forall i: nat :: i < PoolOf(size).index ==> ClassBound(i) < size
    {
      hide BitLength;
      var k := ClassOf(size);
      WasteIsBounded(size);
      forall i: nat | i < k ensures ClassBound(i) < size {
        SmallerClass(size, i);
      }
      var top := if nbAllocator > 8 then nbAllocator - 1 else 7;
      if k <= top {
        BoundsGrow(k, top);
      }
    }

    // A request is served by the least pool that covers it, by the default allocator from
    // the limit on, or not at all.
    method Alloc(size: int) returns (r: Route)
      requires InRange(size)
      ensures r == AllocRoute(size)
      ensures r == Default <==> size >= limit
      ensures r == Nowhere <==> size == 0 < limit
      ensures size >= 1 ==> (r == Thrown <==> Largest() < size < limit)
      ensures r.Pool? && size >= 1 ==> 0 <= r.index && size <= ClassBound(r.index)
      ensures r.Pool? && size >= 1 ==> forall i: nat :: i < r.index ==> ClassBound(i) < size
    {
      if size >= 1 {
        PoolIsLeast(size);
      }
      if size < limit {
        if size != 0 {
          r := Look(size);
        } else {
          r := Nowhere;
        }
      } else {
        r := Default;
      }
    }

    // A block goes back to where alloc took it from; a block of size 0, which alloc never
    // hands out below the limit, to entry -1.
    method Free(isNull: bool, size: int) returns (r: Route)
      requires InRange(size)
      ensures isNull ==> r == Nowhere
      ensures !isNull && (size != 0 || limit <= 0) ==> r == AllocRoute(size)
      ensures !isNull && size == 0 < limit ==> r == Pool(-1)
      ensures r == FreeRoute(isNull, size)
    {
      r := Nowhere;
      if !isNull {
        if size < limit {
          r := Look(size);
        } else {
          r := Default;
        }
      }
    }

    // A block is freed where it was allocated, exactly unless nothing was allocated for it.
    lemma SamePoolIff(size: int)
      ensures FreeRoute(false, size) == AllocRoute(size) <==> size != 0 || limit <= 0
    {
    }

    // alloc reads the table off its range exactly for a negative size below the limit ...
    lemma AllocDefinedIff(size: int)
      requires Valid()
      ensures AllocRoute(size).Defined() <==> size >= 0 || size >= limit
    {
      NegativeIffNoSize(size);
    }

    // ... and free also for size 0 of a block that is not null, at entry -1 as it does for
    // sizes down to -7.
    lemma FreeDefinedIff(isNull: bool, size: int)
      requires Valid()
      ensures FreeRoute(isNull, size).Defined() <==> isNull || size >= 1 || size >= limit
      ensures FreeRoute(isNull, size) == Pool(-1) <==> !isNull && -7 <= size <= 0 && size < limit
    {
      NegativeIffNoSize(size);
    }
  }
}
