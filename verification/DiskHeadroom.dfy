/** Headroom for journal writes: the test on 64-bit numbers, and reservations that are
    given back once. */
module DiskHeadroom {

  import opened Common
  import opened Sums
  import opened CacheModel
  import opened CacheIndex

  newtype Int64 = x: int | -0x8000_0000_0000_0000 <= x <= 0x7fff_ffff_ffff_ffff

  type Size64 = x: Int64 | 0 <= x

  const MAX_INT64: Int64 := 0x7fff_ffff_ffff_ffff

  /** The code's test, term by term: on non-negative numbers it never overflows, and it
      holds exactly when all three amounts fit into the free space together. */
  method Enough(free: Size64, minFree: Size64, n: Size64, reserved: Size64) returns (ok: bool)
    ensures ok <==> minFree as int + n as int + reserved as int <= free as int
  {
    ok := free >= minFree && n <= free - minFree && reserved <= free - minFree - n;
  }

  /** The sum of what is asked for and what is reserved stays a 64-bit number. */
  method Addable(n: Int64, reserved: Size64) returns (ok: bool)
    ensures ok <==> n as int + reserved as int <= MAX_INT64 as int
  {
    ok := !(n > MAX_INT64 - reserved);
  }

  function Amount(n: nat): nat { n }

  class Journal {
    /** Reservations that have not been given back. */
    var held: map<nat, nat>
    var next: nat
    var writeReserved: int

    ghost predicate Valid()
      reads this
    {
      writeReserved == Sum(held, Amount) && forall t :: t in held ==> t < next
    }

    constructor ()
      ensures Valid() && held == map[]
    {
      held, next, writeReserved := map[], 0, 0;
    }

    function Reserved(c: Cache): int
      reads this, c
    {
      c.OnDisk(writeReserved)
    }

    /** What a reservation of n bytes asks of the disk beside the journal's own. */
    ghost function Room(n: Int64, minFree: Size64): Demand
      reads this
    {
      Demand(None, None, Some(minFree as int + n as int + writeReserved))
    }

    /** ReserveDisk: evict until the write fits beside everything already reserved, or
        until nothing more may go. Each round asks anew what is reserved and what is free.
        Each eviction is of the coldest entry, at a time when the write did not fit.
        A sum that is past 64 bits before n is added is refused like one that n takes there. */
    method Reserve(c: Cache, n: Int64, minFree: Size64)
      returns (token: Option<nat>, ghost victims: seq<Victim>, ghost whys: seq<Why>, ghost free: Option<Size64>)
      requires Valid() && c.Valid() && Ready(c.st)
      modifies this, c
      ensures Valid() && c.Valid() && Ready(c.st)
      ensures Evictions(old(c.st), victims, None) && c.st == EvictAll(old(c.st), victims, None)
      ensures Justified(old(c.st), victims, whys, None, old(Room(n, minFree)))
      ensures token.None? ==> held == old(held)
      ensures token.None? ==>
        || n < 0 || c.st.closed || n as int + Reserved(c) > MAX_INT64 as int || free.None?
        || forall v :: !Evictable(c.st, v, None)
      ensures token.Some? ==> n >= 0 && token.value !in old(held) && held == old(held)[token.value := n as int]
      ensures token.Some? && n > 0 ==> !c.st.closed && Reserved(c) <= MAX_INT64 as int
      ensures token.Some? && n > 0 && minFree > 0 ==> free.Some? && minFree as int + Reserved(c) <= free.value as int
      ensures token.Some? && n == 0 ==> victims == []
      ensures n >= 0 && minFree == 0 ==>
        victims == [] &&
          (token.Some? <==> n == 0 || (!old(c.st.closed) && n as int + old(Reserved(c)) <= MAX_INT64 as int))
    {
      hide Evict, Evictable, Ready, Evictions, EvictAll, Exact, Tidy, Charge, Entries, Recent, Reason;
      victims, whys, free := [], [], Some(0);
      ghost var s, d := c.st, Room(n, minFree);
      NoEvictions(s, None);
      if n < 0 { return None, victims, whys, free; }
      var enough := n == 0;
      while !enough
        invariant c.Valid() && Ready(c.st) && Evictions(s, victims, None) && c.st == EvictAll(s, victims, None)
        invariant Valid() && held == old(held) && writeReserved == old(writeReserved) && free.Some?
        invariant Justified(s, victims, whys, None, d)
        invariant enough && n > 0 ==> !c.st.closed && n as int + Reserved(c) <= MAX_INT64 as int
        invariant enough && n > 0 && minFree > 0 ==> minFree as int + n as int + Reserved(c) <= free.value as int
        invariant n >= 0 && (n == 0 ==> enough && victims == [])
        invariant minFree == 0 ==> victims == [] && c.st == s && (enough && n > 0 ==> !s.closed)
        decreases !enough, Population(c.st)
      {
        if c.st.closed || Reserved(c) > MAX_INT64 as int { return None, victims, whys, free; }
        SumsAreSizes(c.st);
        var reserved := Reserved(c) as Size64;
        var addable := Addable(n, reserved);
        if !addable { return None, victims, whys, free; }
        if minFree == 0 {
          enough := true;
        } else {
          var known: bool, now: Size64 := *, *;
          free := if known then Some(now) else None;
          if !known { return None, victims, whys, free; }
          enough := Enough(now, minFree, n, reserved);
          if !enough {
            var more;
            c.ReservedIs(writeReserved);
            victims, whys, more := c.Another(s, victims, whys, NoSpace(now as int), None, None, d);
            if !more { return None, victims, whys, free; }
          }
        }
      }
      token := Some(next);
      SumUpdate<nat, nat>(held, Amount, next, n as int);
      held, writeReserved, next := held[next := n as int], writeReserved + n as int, next + 1;
    }

    /** The release function: a second call does nothing. */
    method Release(token: nat)
      requires Valid()
      modifies this
      ensures Valid() && held == old(held) - {token} && next == old(next)
    {
      if token in held {
        SumRemove(held, Amount, token);
        writeReserved := writeReserved - held[token];
      }
      assert token !in held ==> held - {token} == held;
      held := held - {token};
    }
  }
}
