/** What a group's byte ceiling is checked against: `Holdings`, `Reservation` and
    `reserve_group_bytes` (`grants/group.rs`). */
module GroupCeiling {
  import opened Arithmetic
  import opened Sums

  const U64_MAX: nat := 0xFFFF_FFFF_FFFF_FFFF

  function SatAdd(a: nat, b: nat): nat {
    if a + b > U64_MAX then U64_MAX else a + b
  }

  // ---------- Holdings ----------

  /** The distinct blobs a group holds, with a running total of their sizes. */
  class Holdings {
    var blobs: map<string, nat>
    var total: nat

    ghost predicate Valid()
      reads this
    {
      total == Sum(blobs) && total <= U64_MAX
    }

    constructor ()
      ensures Valid() && blobs == map[] && fresh(this)
    {
      blobs, total := map[], 0;
    }

    /** The total stays the sum over distinct blobs unless it would pass 2^64. */
    method Insert(hash: string, size: nat)
      requires Valid()
      modifies this
      ensures blobs == old(blobs)[hash := size]
      ensures Sum(blobs) <= U64_MAX ==> Valid()
    {
      SumWith(blobs, hash, size);
      if hash in blobs {
        SumWithout(blobs, hash);
        total := SatSub(total, blobs[hash]);
      }
      blobs := blobs[hash := size];
      total := SatAdd(total, size);
    }

    method Remove(hash: string)
      requires Valid()
      modifies this
      ensures Valid() && blobs == old(blobs) - {hash}
    {
      if hash in blobs {
        SumWithout(blobs, hash);
        total := SatSub(total, blobs[hash]);
      }
      blobs := blobs - {hash};
      assert hash !in old(blobs) ==> blobs == old(blobs);
    }
  }

  /** The reserved counter of a group beside its holdings. */
  class Admission {
    const holdings: Holdings
    var reserved: nat

    constructor (holdings: Holdings)
      ensures this.holdings == holdings && reserved == 0
    {
      this.holdings := holdings;
      reserved := 0;
    }

    /** `reserve_group_bytes`: admitted exactly when the bytes fit beside what
        is held and what is already reserved. */
    method Reserve(ceiling: nat, need: nat) returns (admitted: bool)
      requires holdings.Valid() && ceiling < U64_MAX
      modifies this`reserved
      ensures admitted <==> need == 0 || Sum(holdings.blobs) + old(reserved) + need <= ceiling
      ensures reserved == old(reserved) + if admitted then need else 0
    {
      if need > 0 && SatAdd(SatAdd(holdings.total, reserved), need) > ceiling {
        return false;
      }
      reserved := reserved + need;
      admitted := true;
    }

    /** A dropped reservation gives back what it took. */
    method Release(need: nat)
      requires need <= reserved
      modifies this`reserved
      ensures reserved + need == old(reserved)
    {
      reserved := SatSub(reserved, need);
    }
  }
}
