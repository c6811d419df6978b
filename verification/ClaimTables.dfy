/** The move and owner-write tables as they are updated in place
    (`grants/db.rs`), and the sections of `grants/claims.rs` that run under the
    database lock. */
module ClaimTables {

  import opened Arithmetic
  import opened ClaimMoves

  class Tables {
    var ownerClaims: set<Held>
    var moves: map<Held, Move>
    var writes: map<Held, nat>

    /** The tables as the transition system sees them. */
    ghost function View(): State
      reads this
    {
      State(0, {}, ownerClaims, {}, moves, writes, {}, {}, map[], {}, Free)
    }

    constructor ()
      ensures View() == Initial(0)
    {
      ownerClaims, moves, writes := {}, map[], map[];
    }

    /** `mark_owner_write`: remember the write, and adopt every move of the blob to that owner. */
    method MarkOwnerWrite(owner: string, hash: string, now: nat)
      modifies this`moves, this`writes
      ensures writes == old(writes)[(owner, hash) := now]
      ensures moves.Keys == old(moves).Keys
      ensures forall m | m in moves ::
        moves[m] == if m.1 == hash && old(moves)[m].owner == owner then old(moves)[m].(adopted := true)
          else old(moves)[m]
    {
      writes := writes[(owner, hash) := now];
      moves := map m | m in moves :: if m.1 == hash && moves[m].owner == owner then moves[m].(adopted := true)
        else moves[m];
    }

    /** `prune` of the owner writes. */
    method PruneWrites(now: nat)
      modifies this`writes
      ensures forall w :: w in writes <==> w in old(writes) && old(writes)[w] + OWNER_WRITE_WINDOW >= now
      ensures forall w | w in writes :: writes[w] == old(writes)[w]
    {
      writes := map w | w in writes && writes[w] >= SatSub(now, OWNER_WRITE_WINDOW) :: writes[w];
    }

    /** `other_moves`: how many other keys moved the blob to this owner, and what their records say. */
    method OtherMoves(
        owner: string, hash: string, except: string) returns (count: nat, independent: bool, adopted: bool)
      ensures count == |Others(moves, owner, hash, except)|
      ensures count > 0 <==> OtherMove(View(), owner, hash, except)
      ensures independent <==> OtherIndependent(View(), owner, hash, except)
      ensures adopted <==> OtherAdopted(View(), owner, hash, except)
    {
      var rows := Others(moves, owner, hash, except);
      OthersMean(moves, rows, owner, hash, except, View());
      hide Others, OtherMove, OtherIndependent, OtherAdopted;
      count, independent, adopted := |rows|, false, false;
      var left := rows;
      while left != {}
        invariant left <= rows
        invariant independent <==> exists m | m in rows - left :: moves[m].independent
        invariant adopted <==> exists m | m in rows - left :: moves[m].adopted
        decreases |left|
      {
        var m :| m in left;
        assert rows - (left - {m}) == (rows - left) + {m};
        left := left - {m};
        independent, adopted := independent || moves[m].independent, adopted || moves[m].adopted;
      }
      assert rows - left == rows;
    }

    /** The locked section of `transfer`: a move is recorded first, unless a record is there already. */
    method RecordMove(key: string, owner: string, hash: string, startedAt: nat)
      modifies this`moves
      ensures moves == if (key, hash) in old(moves) then old(moves)
        else old(moves)[(key, hash) := NewMove(old(View()), key, owner, hash, startedAt)]
    {
      if (key, hash) in moves {
        return;
      }
      var count, independent, adopted := OtherMoves(owner, hash, key);
      var recent := (owner, hash) in writes && writes[(owner, hash)] >= SatSub(startedAt, OWNER_WRITE_WINDOW);
      var record := Move(owner, (owner, hash) in ownerClaims && (count == 0 || independent), adopted || recent);
      moves := moves[(key, hash) := record];
    }

    /** `drop_owner_claim_if_ours`. */
    method DropIfOurs(key: string, hash: string)
      modifies this`moves, this`ownerClaims
      ensures View() == DropOwnerClaimIfOurs(old(View()), key, hash)
      ensures ownerClaims == old(ownerClaims) - (if Drops(old(View()), key, hash) then
        {(old(moves)[(key, hash)].owner, hash)} else {})
      ensures moves == old(moves) - {(key, hash)}
    {
      if (key, hash) !in moves {
        return;
      }
      var record := moves[(key, hash)];
      var count, _, _ := OtherMoves(record.owner, hash, key);
      if record.OwnerClaimIsOurs() && count == 0 {
        ownerClaims := ownerClaims - {(record.owner, hash)};
      }
      moves := moves - {(key, hash)};
    }

    /** `release`: false when the key has no move of the blob to this owner. */
    method Release(key: string, owner: string, hash: string) returns (released: bool)
      modifies this`moves, this`ownerClaims
      ensures released <==> (key, hash) in old(moves) && old(moves)[(key, hash)].owner == owner
      ensures View() == if released then DropOwnerClaimIfOurs(old(View()), key, hash) else old(View())
    {
      released := (key, hash) in moves && moves[(key, hash)].owner == owner;
      if released {
        DropIfOurs(key, hash);
      }
    }
  }

  /** The other keys' moves of a blob to one owner. */
  function Others(moves: map<Held, Move>, owner: string, hash: string, except: string): set<Held> {
    set m | m in moves && m.1 == hash && m.0 != except && moves[m].owner == owner
  }

  lemma {:induction false} OthersMean(
      moves: map<Held, Move>, rows: set<Held>, owner: string, hash: string, except: string, view: State)
    requires view.moves == moves && rows == Others(moves, owner, hash, except)
    ensures rows <= moves.Keys
    ensures |rows| > 0 <==> OtherMove(view, owner, hash, except)
    ensures (exists m | m in rows :: moves[m].independent) <==> OtherIndependent(view, owner, hash, except)
    ensures (exists m | m in rows :: moves[m].adopted) <==> OtherAdopted(view, owner, hash, except)
  {
    if OtherMove(view, owner, hash, except) {
      var m :| m in moves && m.1 == hash && m.0 != except && moves[m].owner == owner;
      assert m in rows;
    }
    if |rows| > 0 {
      var m :| m in rows;
      assert m in moves && m.1 == hash && m.0 != except && moves[m].owner == owner;
    }
  }
}
