/** The presence bitmap of partial blocks and sparse files: 64-bit words, packed
    little-endian into hexadecimal text. An unsigned word is its bits, least
    significant first, so masks, shifts and ors act on single positions. */
module Bitmap {

  type Word = w: seq<bool> | |w| == 64 witness seq(64, _ => false)

  type Octet = b: seq<bool> | |b| == 8 witness seq(8, _ => false)

  const ZERO: Word := seq(64, _ => false)

  function WordCount(total: nat): nat {
    (total + 63) / 64
  }

  predicate Has(bits: seq<Word>, i: nat) {
    i / 64 < |bits| && bits[i / 64][i % 64]
  }

  /** The indices below total whose bit is set. */
  function Present(bits: seq<Word>, total: nat): set<nat> {
    set i | 0 <= i < total && Has(bits, i)
  }

  function Range(n: nat): (r: set<nat>)
    ensures |r| == n && forall i :: i in r <==> 0 <= i < n
  {
    if n == 0 then {} else Range(n - 1) + {n - 1}
  }

  /** A set of indices below n has n members only when it has them all. */
  lemma FullMeansAll(p: set<nat>, n: nat)
    requires forall i :: i in p ==> i < n
    ensures |p| == n <==> p == Range(n)
  {
    assert p <= Range(n);
    assert |Range(n) - p| == n - |p|;
  }

  lemma MulMonotone(a: nat, b: nat, d: nat)
    requires a <= b
    ensures a * d <= b * d
  {
  }

  /** b / d is the one i with i * d <= b < (i + 1) * d. */
  lemma DivUnique(b: nat, i: nat, d: nat)
    requires d > 0
    ensures b / d == i <==> i * d <= b < (i + 1) * d
  {
    var q := b / d;
    assert q * d <= b < (q + 1) * d;
    if q < i {
      MulMonotone(q + 1, i, d);
    } else if q > i {
      MulMonotone(i + 1, q, d);
    }
  }

  lemma DivMonotone(a: nat, b: nat, d: nat)
    requires a <= b && d > 0
    ensures a / d <= b / d
  {
    DivUnique(a, a / d, d);
    DivUnique(b, b / d, d);
    if a / d > b / d {
      MulMonotone(b / d + 1, a / d, d);
    }
  }

  /** Sub-block i of a range it meets holds one of the range's bytes. */
  lemma SomeByteOf(off: nat, n: int, sub: nat, i: nat) returns (b: nat)
    requires n > 0 && sub > 0 && off / sub <= i <= (off + n - 1) / sub
    ensures off <= b < off + n && b / sub == i
  {
    if i == off / sub {
      b := off;
    } else {
      b := i * sub;
      DivUnique(off, off / sub, sub);
      MulMonotone(off / sub + 1, i, sub);
      DivUnique(off + n - 1, (off + n - 1) / sub, sub);
      MulMonotone(i, (off + n - 1) / sub, sub);
      DivUnique(b, i, sub);
    }
  }

  /** A bitmap in use. */
  class Partial {
    const sub: nat
    const total: nat
    var have: nat
    const bits: array<Word>

    ghost predicate Valid()
      reads this, bits
    {
      sub > 0 && bits.Length == WordCount(total) && have == |Marks()|
    }

    ghost function Marks(): set<nat>
      reads bits
    {
      Present(bits[..], total)
    }

    constructor (sub: nat, total: nat)
      requires sub > 0
      ensures Valid() && fresh(bits) && this.sub == sub && this.total == total && Marks() == {}
    {
      this.sub, this.total, have := sub, total, 0;
      bits := new Word[WordCount(total)](_ => ZERO);
      new;
      assert Marks() == {};
    }

    method Set(i: nat)
      requires Valid() && i < total
      modifies this`have, bits
      ensures Valid() && Marks() == old(Marks()) + {i}
    {
      var w := i / 64;
      if !bits[w][i % 64] {
        bits[w] := bits[w][i % 64 := true];
        have := have + 1;
        forall j | 0 <= j < total ensures Has(bits[..], j) <==> j == i || Has(old(bits[..]), j) {
          if j / 64 == w && j % 64 == i % 64 { assert j == i; }
        }
        assert Marks() == old(Marks()) + {i};
      } else {
        assert i in Marks();
      }
    }

    method Full() returns (full: bool)
      requires Valid()
      ensures full <==> Marks() == Range(total)
    {
      full := have == total;
      FullMeansAll(Marks(), total);
    }

    /** Whether every byte of [off, off+n) lies in a present sub-block. */
    method Covers(off: nat, n: int) returns (covered: bool)
      requires Valid()
      ensures covered <==> forall b :: off <= b < off + n ==> b / sub in Marks()
    {
      if n <= 0 {
        return true;
      }
      var first, last := off / sub, (off + n - 1) / sub;
      DivMonotone(off, off + n - 1, sub);
      if last >= total {
        assert (off + n - 1) / sub !in Marks();
        return false;
      }
      var i := first;
      while i <= last
        invariant first <= i <= last + 1
        invariant forall j :: first <= j < i ==> j in Marks()
      {
        if !bits[i / 64][i % 64] {
          ghost var b := SomeByteOf(off, n, sub, i);
          assert b / sub !in Marks();
          return false;
        }
        assert Has(bits[..], i);
        i := i + 1;
      }
      forall b | off <= b < off + n ensures b / sub in Marks() {
        DivMonotone(off, b, sub);
        DivMonotone(b, off + n - 1, sub);
      }
      return true;
    }
  }
}
