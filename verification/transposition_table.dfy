// The transposition table: evaluations of leaf positions stored under the
// Zobrist hash of the position.

module Transposition {
  import opened Wrappers
  import opened Pieces
  import opened Bits
  import opened Zobrist
  import Engine

  /** The value a table holds under a hash, if any. */
  function Lookup(m: map<u64, int>, hash: u64): (r: Option<int>)
    ensures r.Some? <==> hash in m
    ensures r.Some? ==> r.value == m[hash]
  {
    if hash in m then Some(m[hash]) else None
  }

  /** Reading back the value just inserted under a hash gives it. */
  lemma LookupInserted(m: map<u64, int>, hash: u64, value: int)
    ensures Lookup(m[hash := value], hash) == Some(value)
  {
  }

  /** Inserting under one hash leaves every other hash as it was. */
  lemma LookupOther(m: map<u64, int>, hash: u64, value: int, other: u64)
    requires other != hash
    ensures Lookup(m[hash := value], other) == Lookup(m, other)
  {
  }

  /** `TranspositionTable`: the hash map and the Zobrist keys it hashes with. */
  class TranspositionTable {
    var hashMap: map<u64, int>
    const zobrist: ZobristTable

    /** `init_transpo_table`: fresh keys from the draws and an empty map. */
    constructor (draw: nat -> u64)
      ensures zobrist == InitTable(draw) && hashMap == map[]
    {
      var z := InitZobristTable(draw);
      zobrist := z;
      hashMap := map[];
    }

    /** `get_hash`. */
    method GetHash(cb: Engine.ChessBoard) returns (r: Result<u64>)
      requires IsZobristTable(zobrist) && IsGrid(cb.board)
      ensures r == BoardHash(zobrist, cb.State())
    {
      r := ZobristHash(zobrist, cb);
    }

    /** `insert_into_table`: a later insert under the same hash replaces the
        earlier value. */
    method InsertIntoTable(hash: u64, value: int)
      modifies this
      ensures hashMap == old(hashMap)[hash := value]
    {
      hashMap := hashMap[hash := value];
    }

    /** `get_from_table`. */
    method GetFromTable(hash: u64) returns (r: Option<int>)
      ensures r == Lookup(hashMap, hash)
    {
      if hash in hashMap {
        r := Some(hashMap[hash]);
      } else {
        r := None;
      }
    }
  }
}
