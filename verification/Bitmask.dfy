/**
 The fixed-size bit mask: an array of 32-bit words that stands for a set of bit numbers. Every
 operation is tied to the set operation it is meant to be, for any number of bits.
 */
module Bitmasks {

  // ---- one word ----

  function Mask(i: bv5): bv32 { 1 << i }

  function And(a: bv32, b: bv32): bv32 { a & b }

  function Or(a: bv32, b: bv32): bv32 { a | b }

  function Not(a: bv32): bv32 { !a }

  predicate Meets(a: bv32, b: bv32) { And(a, b) != 0 }

  predicate Bit(w: bv32, i: bv5) { Meets(w, Mask(i)) }

  function WithBit(w: bv32, i: bv5): bv32 { Or(w, Mask(i)) }

  function WithoutBit(w: bv32, i: bv5): bv32 { And(w, Not(Mask(i))) }

  function LowBits(n: bv5): bv32 { Mask(n) - 1 }

  lemma MasksMeet(i: bv5, j: bv5)
    ensures Meets(Mask(i), Mask(j)) <==> i == j
  {}

  lemma AndOverOr(a: bv32, b: bv32, m: bv32)
    ensures And(Or(a, b), m) == Or(And(a, m), And(b, m))
  {}

  lemma OrIsZero(a: bv32, b: bv32)
    ensures Or(a, b) == 0 <==> a == 0 && b == 0
  {}

  lemma AndShuffles(a: bv32, b: bv32, m: bv32)
    ensures And(And(a, b), m) == And(a, And(b, m))
  {}

  lemma NotMask(i: bv5, j: bv5)
    ensures And(Not(Mask(i)), Mask(j)) == if i == j then 0 else Mask(j)
  {}

  lemma AndZero(a: bv32)
    ensures And(a, 0) == 0
  {}

  lemma BitOfWith(w: bv32, i: bv5, j: bv5)
    ensures Bit(WithBit(w, i), j) <==> Bit(w, j) || i == j
  {
    hide Mask, And, Or;
    MasksMeet(i, j);
    AndOverOr(w, Mask(i), Mask(j));
    OrIsZero(And(w, Mask(j)), And(Mask(i), Mask(j)));
  }

  lemma BitOfWithout(w: bv32, i: bv5, j: bv5)
    ensures Bit(WithoutBit(w, i), j) <==> Bit(w, j) && i != j
  {
    hide Mask, And, Not;
    AndShuffles(w, Not(Mask(i)), Mask(j));
    NotMask(i, j);
    AndZero(w);
  }

  lemma BitOfLow(n: bv5, j: bv5)
    ensures Bit(LowBits(n), j) <==> j < n
  {}

  lemma BitOfConstants(j: bv5)
    ensures !Bit(0, j) && Bit(0xFFFF_FFFF, j)
  {}

  /** The place of bit `n` within its word. */
  function Place(n: nat): bv5 { (n % 32) as bv5 }

  lemma PlacesDiffer(n: nat, m: nat)
    requires n / 32 == m / 32
    ensures Place(n) == Place(m) <==> n == m
  {}

  lemma PlacesOrdered(n: nat, k: nat)
    requires k < 32
    ensures Place(n) < k as bv5 <==> n % 32 < k
  {
    ValuesOrdered(Place(n), k as bv5);
    ValueOfPlace(n % 32);
    ValueOfPlace(k);
  }

  lemma ValuesOrdered(i: bv5, j: bv5)
    ensures i < j <==> i as int < j as int
  {}

  lemma ValueOfPlace(k: nat)
    requires k < 32
    ensures (k as bv5) as int == k
  {}

  lemma PlaceOfValue(i: bv5)
    ensures i as int < 32 && Place(i as int) == i
  {}

  lemma SamePlace(k: nat, p: nat)
    requires p < 32
    ensures Place(32 * k + p) == Place(p) && (32 * k + p) / 32 == k
  {}

  /** A word that is not zero has a bit. */
  lemma SomeBit(w: bv32) returns (i: bv5)
    requires w != 0
    ensures Bit(w, i)
  {
    if w & 0xFFFF != 0 {
      i := SomeBitOf16(w, 0);
    } else {
      i := SomeBitOf16(w, 16);
    }
  }

  lemma SomeBitOf16(w: bv32, b: bv5) returns (i: bv5)
    requires b == 0 || b == 16
    requires w & (0xFFFF << b) != 0
    ensures Bit(w, i)
  {
    i := if Bit(w, b) then b else if Bit(w, b + 1) then b + 1 else if Bit(w, b + 2) then b + 2 else if Bit(w, b + 3) then b + 3
    else if Bit(w, b + 4) then b + 4 else if Bit(w, b + 5) then b + 5 else if Bit(w, b + 6) then b + 6 else if Bit(w, b + 7) then b + 7
    else if Bit(w, b + 8) then b + 8 else if Bit(w, b + 9) then b + 9 else if Bit(w, b + 10) then b + 10 else if Bit(w, b + 11) then b + 11
    else if Bit(w, b + 12) then b + 12 else if Bit(w, b + 13) then b + 13 else if Bit(w, b + 14) then b + 14 else b + 15;
  }

  /** Words that differ differ in a bit. */
  lemma DifferingBit(a: bv32, b: bv32) returns (i: bv5)
    requires a != b
    ensures Bit(a, i) != Bit(b, i)
  {
    XorIsZero(a, b);
    i := SomeBit(a ^ b);
    SingleBit(a, b, i);
  }

  lemma XorIsZero(a: bv32, b: bv32)
    ensures a ^ b == 0 <==> a == b
  {}

  lemma SingleBit(a: bv32, b: bv32, i: bv5)
    requires Bit(a ^ b, i)
    ensures Bit(a, i) != Bit(b, i)
  {}

  // ---- the set a word array stands for ----

  predicate Holds(words: seq<bv32>, n: nat)
    requires n < 32 * |words|
  {
    Bit(words[n / 32], Place(n))
  }

  function Members(words: seq<bv32>): set<nat> {
    set n: nat | n < 32 * |words| && Holds(words, n)
  }

  /** Setting a bit adds it to the set. */
  lemma MembersOfSet(words: seq<bv32>, n: nat)
    requires n < 32 * |words|
    ensures Members(words[n / 32 := WithBit(words[n / 32], Place(n))]) == Members(words) + {n}
  {
    hide Bit, WithBit, WithoutBit, Place;
    var changed := words[n / 32 := WithBit(words[n / 32], Place(n))];
    forall m: nat | m < 32 * |words|
      ensures Holds(changed, m) <==> Holds(words, m) || m == n
    {
      if m / 32 == n / 32 {
        BitOfWith(words[n / 32], Place(n), Place(m));
        PlacesDiffer(m, n);
      }
    }
  }

  /** Clearing a bit removes it. */
  lemma MembersOfClear(words: seq<bv32>, n: nat)
    requires n < 32 * |words|
    ensures Members(words[n / 32 := WithoutBit(words[n / 32], Place(n))]) == Members(words) - {n}
  {
    hide Bit, WithBit, WithoutBit, Place;
    var changed := words[n / 32 := WithoutBit(words[n / 32], Place(n))];
    forall m: nat | m < 32 * |words|
      ensures Holds(changed, m) <==> Holds(words, m) && m != n
    {
      if m / 32 == n / 32 {
        BitOfWithout(words[n / 32], Place(n), Place(m));
        PlacesDiffer(m, n);
      }
    }
  }

  /** Two arrays of one size stand for the same set only when their words are equal. */
  lemma MembersDecideWords(a: seq<bv32>, b: seq<bv32>)
    requires |a| == |b|
    ensures Members(a) == Members(b) <==> a == b
  {
    hide Bit, Place;
    if a != b {
      var k :| 0 <= k < |a| && a[k] != b[k];
      var i := DifferingBit(a[k], b[k]);
      PlaceOfValue(i);
      SamePlace(k, i as int);
      var n: nat := 32 * k + i as int;
      assert Holds(a, n) != Holds(b, n);
      assert (n in Members(a)) != (n in Members(b));
    }
  }

  lemma EmptyMembers(words: seq<bv32>)
    ensures Members(words) == {} <==> forall k :: 0 <= k < |words| ==> words[k] == 0
  {
    var zeros := seq(|words|, _ => 0 as bv32);
    assert Members(zeros) == {} by {
      hide Bit, Place;
      forall n: nat | n < 32 * |zeros|
        ensures !Holds(zeros, n)
      {
        BitOfConstants(Place(n));
      }
    }
    MembersDecideWords(words, zeros);
  }

  // ---- counting ----

  /** The bits of a word below place `k`, as `popcount` counts them. */
  function Ones(w: bv32, k: nat): (c: nat)
    requires k <= 32
    ensures c <= k
  {
    if k == 0 then 0 else Ones(w, k - 1) + (if Bit(w, Place(k - 1)) then 1 else 0)
  }

  /** The members word `k` contributes, up to place `p`. */
  function WordMembers(words: seq<bv32>, k: nat, p: nat): set<nat>
    requires k < |words| && p <= 32
  {
    set n: nat | 32 * k <= n < 32 * k + p && Holds(words, n)
  }

  lemma {:induction false} WordCount(words: seq<bv32>, k: nat, p: nat)
    requires k < |words| && p <= 32
    ensures |WordMembers(words, k, p)| == Ones(words[k], p)
  {
    hide Bit, Place;
    if p > 0 {
      WordCount(words, k, p - 1);
      var n := 32 * k + p - 1;
      SamePlace(k, p - 1);
      assert WordMembers(words, k, p) == if Holds(words, n) then WordMembers(words, k, p - 1) + {n} else WordMembers(words, k, p - 1);
    } else {
      assert WordMembers(words, k, p) == {};
    }
  }

  function TotalOnes(words: seq<bv32>): nat {
    if |words| == 0 then 0 else TotalOnes(words[..|words| - 1]) + Ones(words[|words| - 1], 32)
  }

  /** The word counts add up to the size of the set. */
  lemma {:induction false} TotalIsSize(words: seq<bv32>)
    ensures TotalOnes(words) == |Members(words)|
  {
    hide Bit, Place, Ones;
    if |words| == 0 {
      assert Members(words) == {};
    } else {
      var k := |words| - 1;
      TotalIsSize(words[..k]);
      WordCount(words, k, 32);
      var below, top := Members(words[..k]), WordMembers(words, k, 32);
      assert Members(words) == below + top;
      assert below !! top;
    }
  }

  // ---- the first bit ----

  /** One more than the lowest place at or above `i` that is set, or zero: `ffs` from place `i` on. */
  function FirstPlace(w: bv32, i: nat): (r: nat)
    requires i <= 32
    ensures r == 0 ==> forall j :: i <= j < 32 ==> !Bit(w, Place(j))
    ensures r != 0 ==> i < r <= 32 && Bit(w, Place(r - 1)) && forall j :: i <= j < r - 1 ==> !Bit(w, Place(j))
    decreases 32 - i
  {
    hide Bit, Place;
    if i == 32 then 0 else if Bit(w, Place(i)) then i + 1 else FirstPlace(w, i + 1)
  }

  lemma FirstPlaceExists(w: bv32)
    requires w != 0
    ensures FirstPlace(w, 0) != 0
  {
    hide Bit, Place;
    var i := SomeBit(w);
    PlaceOfValue(i);
    assert Bit(w, Place(i as int));
  }

  /** The first bit of the first word that is not zero is the least member. */
  lemma FirstIsLeast(words: seq<bv32>, k: nat, n: nat)
    requires k < |words| && words[k] != 0 && forall i :: 0 <= i < k ==> words[i] == 0
    requires n == 32 * k + FirstPlace(words[k], 0) - 1
    ensures n in Members(words) && forall m :: m in Members(words) ==> n <= m
  {
    hide Bit, Place;
    FirstPlaceExists(words[k]);
    var p := FirstPlace(words[k], 0) - 1;
    SamePlace(k, p);
    assert Holds(words, n);
    forall m | m in Members(words)
      ensures n <= m
    {
      if m / 32 < k {
        BitOfConstants(Place(m));
      } else if m < n {
        SamePlace(k, m - 32 * k);
        assert false;
      }
    }
  }

  // ---- the class ----

  type Bit16 = n: nat | n < 0x1_0000

  predicate Sized(numBits: nat) { 0 < numBits <= 32767 }

  function WordCountOf(numBits: nat): nat { (numBits + 31) / 32 }

  function InRange(listed: seq<Bit16>, numBits: nat): set<nat> {
    set i | 0 <= i < |listed| && listed[i] < numBits :: listed[i] as nat
  }

  class Bitmask {
    const numBits: nat
    const bits: array<bv32>

    ghost predicate Valid()
      reads this, bits
    {
      && Sized(numBits)
      && bits.Length == WordCountOf(numBits)
      && forall n :: n in Contents() ==> n < numBits
    }

    ghost function Contents(): set<nat>
      reads this, bits
    {
      Members(bits[..])
    }

    constructor (numBits: nat)
      requires Sized(numBits)
      ensures Valid() && fresh(bits) && this.numBits == numBits && Contents() == {}
    {
      this.numBits := numBits;
      bits := new bv32[WordCountOf(numBits)];
      new;
      ClearAll();
    }

    constructor FromList(numBits: nat, enabled: seq<Bit16>)
      requires Sized(numBits)
      ensures Valid() && fresh(bits) && this.numBits == numBits && Contents() == InRange(enabled, numBits)
    {
      this.numBits := numBits;
      bits := new bv32[WordCountOf(numBits)];
      new;
      ClearAll();
      for i := 0 to |enabled|
        invariant Valid() && Contents() == InRange(enabled[..i], numBits)
      {
        if enabled[i] < numBits {
          Set(enabled[i]);
        }
        assert InRange(enabled[..i + 1], numBits) == InRange(enabled[..i], numBits) + if enabled[i] < numBits then {enabled[i]} else {};
      }
      assert enabled[..|enabled|] == enabled;
    }

    method Set(bit: Bit16)
      requires Valid()
      modifies bits
      ensures Valid()
      ensures Contents() == if bit < numBits then old(Contents()) + {bit} else old(Contents())
      ensures bit >= numBits ==> bits[..] == old(bits[..])
    {
      hide Members, Place, Bit, WithBit, WithoutBit;
      if bit < numBits {
        MembersOfSet(bits[..], bit);
        bits[bit / 32] := WithBit(bits[bit / 32], Place(bit));
        assert bits[..] == old(bits[..])[bit / 32 := WithBit(old(bits[..])[bit / 32], Place(bit))];
        assert Contents() == old(Contents()) + {bit};
      }
    }

    method Clear(bit: Bit16)
      requires Valid()
      modifies bits
      ensures Valid()
      ensures Contents() == old(Contents()) - {bit}
      ensures bit >= numBits ==> bits[..] == old(bits[..])
    {
      hide Members, Place, Bit, WithBit, WithoutBit;
      if bit < numBits {
        MembersOfClear(bits[..], bit);
        bits[bit / 32] := WithoutBit(bits[bit / 32], Place(bit));
        assert bits[..] == old(bits[..])[bit / 32 := WithoutBit(old(bits[..])[bit / 32], Place(bit))];
        assert Contents() == old(Contents()) - {bit};
      }
    }

    method SetOnOff(bit: Bit16, onoff: bool)
      requires Valid()
      modifies bits
      ensures Valid()
      ensures Contents() == if !onoff then old(Contents()) - {bit} else if bit < numBits then old(Contents()) + {bit} else old(Contents())
    {
      if onoff {
        Set(bit);
      } else {
        Clear(bit);
      }
    }

    method SetAll()
      requires Valid()
      modifies bits
      ensures Valid() && forall n: nat :: n in Contents() <==> n < numBits
    {
      hide Place, Bit, LowBits;
      for k := 0 to bits.Length
        invariant forall i :: 0 <= i < k ==> bits[i] == 0xFFFF_FFFF
      {
        bits[k] := 0xFFFF_FFFF;
      }
      var valid := numBits % 32;
      if valid != 0 {
        bits[bits.Length - 1] := LowBits(valid as bv5);
      }
      forall n: nat | n < 32 * bits.Length
        ensures Holds(bits[..], n) <==> n < numBits
      {
        BitOfConstants(Place(n));
        if valid != 0 {
          BitOfLow(valid as bv5, Place(n));
          PlacesOrdered(n, valid);
        }
      }
    }

    method ClearAll()
      requires Sized(numBits) && bits.Length == WordCountOf(numBits)
      modifies bits
      ensures Valid() && Contents() == {}
    {
      hide Members;
      for k := 0 to bits.Length
        invariant forall i :: 0 <= i < k ==> bits[i] == 0
      {
        bits[k] := 0;
      }
      EmptyMembers(bits[..]);
    }

    method Assign(other: Bitmask)
      requires Valid() && other.Valid() && numBits == other.numBits
      modifies bits
      ensures Valid() && Contents() == old(other.Contents())
    {
      hide Members;
      for k := 0 to bits.Length
        invariant other.bits == bits || other.bits[..] == old(other.bits[..])
        invariant forall i :: 0 <= i < bits.Length ==> bits[i] == old(if i < k then other.bits[i] else bits[i])
      {
        bits[k] := other.bits[k];
      }
      assert bits[..] == old(other.bits[..]);
      assert Contents() == old(other.Contents());
    }

    method Equals(other: Bitmask) returns (same: bool)
      requires Valid() && other.Valid() && numBits == other.numBits
      ensures same <==> Contents() == other.Contents()
    {
      hide Members;
      MembersDecideWords(bits[..], other.bits[..]);
      for k := 0 to bits.Length
        invariant forall i :: 0 <= i < k ==> bits[i] == other.bits[i]
      {
        if bits[k] != other.bits[k] {
          assert bits[..][k] != other.bits[..][k];
          return false;
        }
      }
      assert bits[..] == other.bits[..];
      return true;
    }

    method Get(bit: Bit16) returns (on: bool)
      requires Valid()
      ensures on <==> bit in Contents()
    {
      hide Place, Mask;
      if bit >= numBits {
        return false;
      }
      assert Holds(bits[..], bit) <==> Bit(bits[bit / 32], Place(bit));
      on := Bit(bits[bit / 32], Place(bit));
    }

    method Empty() returns (none: bool)
      requires Valid()
      ensures none <==> Contents() == {}
    {
      hide Members;
      EmptyMembers(bits[..]);
      for k := 0 to bits.Length
        invariant forall i :: 0 <= i < k ==> bits[i] == 0
      {
        if bits[k] != 0 {
          assert bits[..][k] != 0;
          return false;
        }
      }
      return true;
    }

    method Count() returns (sum: nat)
      requires Valid()
      ensures sum == |Contents()|
    {
      hide Members, Ones;
      sum := 0;
      for k := 0 to bits.Length
        invariant sum == TotalOnes(bits[..k])
      {
        assert bits[..k + 1][..k] == bits[..k];
        sum := sum + Ones(bits[k], 32);
      }
      assert bits[..bits.Length] == bits[..];
      TotalIsSize(bits[..]);
    }

    method FirstSet() returns (first: int)
      requires Valid()
      ensures Contents() == {} ==> first == -1
      ensures Contents() != {} ==> first >= 0 && first in Contents() && forall n :: n in Contents() ==> first <= n
    {
      hide Members, FirstPlace;
      EmptyMembers(bits[..]);
      for k := 0 to bits.Length
        invariant forall i :: 0 <= i < k ==> bits[i] == 0
      {
        if bits[k] != 0 {
          FirstPlaceExists(bits[k]);
          assert bits[..][k] != 0;
          first := 32 * k + FirstPlace(bits[k], 0) - 1;
          FirstIsLeast(bits[..], k, first);
          return;
        }
      }
      return -1;
    }
  }
}
