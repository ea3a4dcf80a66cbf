/**
 The pool of tags and the pool of fids of a client (p/clnt/pool.go): a bitmap of the ids in use, searched
 through a table, and a count of the callers who wait for an id to come back.
 */
module IdPool {
  import opened Common

  const TWO32 := 0x1_0000_0000
  const NOFID := 0xFFFF_FFFF
  const NOTAG := 0xFFFF

  /* ---- bits ---- */

  function Mask(r: nat): bv8
    requires r < 8
  {
    match r
    case 0 => 1 case 1 => 2 case 2 => 4 case 3 => 8 case 4 => 16 case 5 => 32 case 6 => 64 case 7 => 128
  }

  predicate Bit(b: bv8, r: nat)
    requires r < 8
  {
    b & Mask(r) != 0
  }

  lemma SetClear(b: bv8, r: nat, q: nat)
    requires r < 8 && q < 8
    ensures Bit(b | Mask(r), q) == (q == r || Bit(b, q))
    ensures Bit(b & !Mask(r), q) == (q != r && Bit(b, q))
  {
  }

  /** The table m2id, whose rows of eight differ only at their end. */
  function M2id(b: bv8): (r: nat)
    ensures r < 8
  {
    match b & 7
    case 0 => 0 case 1 => 1 case 2 => 0 case 3 => 2 case 4 => 0 case 5 => 1 case 6 => 0
    case _ => RowEnd(b >> 3)
  }

  /** The last entry of each row. */
  function RowEnd(row: bv8): (r: nat)
    ensures r < 8
  {
    match row
    case 0 => 3 case 1 => 4 case 2 => 3 case 3 => 5 case 4 => 3 case 5 => 4 case 6 => 3 case 7 => 6
    case 8 => 3 case 9 => 4 case 10 => 3 case 11 => 5 case 12 => 3 case 13 => 4 case 14 => 3 case 15 => 7
    case 16 => 3 case 17 => 4 case 18 => 3 case 19 => 5 case 20 => 3 case 21 => 4 case 22 => 3 case 23 => 6
    case 24 => 3 case 25 => 4 case 26 => 3 case 27 => 5 case 28 => 3 case 29 => 4 case 30 => 3
    case _ => 0
  }

  /** The table gives the lowest bit that is not set. */
  lemma LowestZero(b: bv8)
    requires b != 0xFF
    ensures !Bit(b, M2id(b)) && forall q :: 0 <= q < M2id(b) ==> Bit(b, q)
  {
  }

  /* ---- the bitmap as a set of ids ---- */

  predicate In(s: seq<bv8>, i: nat) {
    i / 8 < |s| && Bit(s[i / 8], i % 8)
  }

  lemma SetIn(s: seq<bv8>, n: nat, r: nat, i: nat)
    requires n < |s| && r < 8
    ensures In(s[n := s[n] | Mask(r)], i) == (i == n * 8 + r || In(s, i))
  {
    if i / 8 == n { SetClear(s[n], r, i % 8); }
  }

  lemma ClearIn(s: seq<bv8>, n: nat, r: nat, i: nat)
    requires n < |s| && r < 8
    ensures In(s[n := s[n] & !Mask(r)], i) == (i != n * 8 + r && In(s, i))
  {
    if i / 8 == n { SetClear(s[n], r, i % 8); }
  }

  lemma GrowIn(s: seq<bv8>, t: seq<bv8>, i: nat)
    requires |s| <= |t| && t[..|s|] == s && forall k :: |s| <= k < |t| ==> t[k] == 0
    ensures In(t, i) == In(s, i)
  {
    if i / 8 < |s| { assert t[i / 8] == t[..|s|][i / 8]; }
  }

  ghost predicate Ones(s: seq<bv8>, n: nat) {
    n <= |s| && forall k :: 0 <= k < n ==> s[k] == 0xFF
  }

  lemma OnesIn(s: seq<bv8>, n: nat, i: nat)
    requires Ones(s, n) && i < n * 8
    ensures In(s, i)
  {
    assert s[i / 8] == 0xFF;
  }

  /** The id that the search finds: none below it is free. */
  lemma FirstFree(s: seq<bv8>, n: nat)
    requires Ones(s, n) && n < |s| && s[n] != 0xFF
    ensures var free := n * 8 + M2id(s[n]); !In(s, free) && forall i: nat :: i < free ==> In(s, i)
  {
    var free := n * 8 + M2id(s[n]);
    LowestZero(s[n]);
    forall i: nat | i < free ensures In(s, i) {
      if i < n * 8 { OnesIn(s, n, i); }
    }
  }

  /* ---- the pool ---- */

  class Pool {
    const maxid: nat
    var bits: array<bv8>
    var need: nat              // callers waiting for an id

    /** Whether id i is in use. */
    predicate Taken(i: nat)
      reads this, bits
    {
      In(bits[..], i)
    }

    /** The bitmap has its last size and no room. */
    ghost predicate Full()
      reads this, bits
    {
      bits.Length == maxid / 8 + 1 && Ones(bits[..], bits.Length)
    }

    /** Only the two pools of a client occur: the one of tags, and the one of fids, which does not end. */
    ghost predicate Valid()
      reads this, bits
    {
      && (maxid == NOTAG || maxid == NOFID)
      && bits.Length + 32 < TWO32
      && (maxid == NOTAG ==> bits.Length <= maxid / 8 + 1)
      && (need > 0 ==> maxid == NOTAG && Full())
    }

    constructor (m: nat)
      requires m == NOTAG || m == NOFID
      ensures Valid() && maxid == m && need == 0 && fresh(bits)
      ensures forall i: nat :: !Taken(i)
    {
      maxid := m;
      bits := new bv8[0];
      need := 0;
    }

    /** make and copy: 32 bytes more, but not beyond maxid.  The product wraps around at 2^32. */
    method Grow()
      requires Valid() && bits.Length + 64 < TWO32
      modifies this`bits
      ensures Valid() && fresh(bits)
      ensures bits.Length >= old(bits.Length)
      ensures bits.Length == old(bits.Length) ==> bits.Length == maxid / 8 + 1 && maxid == NOTAG
      ensures bits[..old(bits.Length)] == old(bits[..])
      ensures forall k :: old(bits.Length) <= k < bits.Length ==> bits[k] == 0
    {
      var m := bits.Length + 32;
      if m * 8 % TWO32 > maxid {
        m := maxid / 8 + 1;
      }
      var b := new bv8[m](_ => 0);
      forall k | 0 <= k < bits.Length {
        b[k] := bits[k];
      }
      bits := b;
    }

    /**
     The lowest id that is not in use, or None if the caller has to wait.  Ids have 32 bits: beyond that
     the pool of fids starts again from 0.
     */
    method GetId() returns (r: Option<nat>, ghost free: nat)
      requires Valid() && bits.Length + 64 < TWO32
      modifies this, bits
      ensures Valid() && (bits == old(bits) || fresh(bits))
      ensures r.None? ==> need == old(need) + 1 && Full() && forall i: nat :: Taken(i) == old(Taken(i))
      ensures r.Some? ==>
                && need == old(need) && r.value == free % TWO32 && (maxid == NOTAG ==> r.value == free <= NOTAG)
                && !old(Taken(free)) && (forall i: nat :: i < free ==> old(Taken(i)))
                && (forall i: nat :: Taken(i) == (i == free || old(Taken(i))))
      ensures maxid == NOTAG ==>
                (r == Some(NOTAG) <==> (forall i: nat :: i < NOTAG ==> old(Taken(i))) && !old(Taken(NOTAG)))
      ensures r.Some? ==> (old(Taken(r.value)) <==> free >= TWO32)
    {
      ghost var s0 := bits[..];
      var n := 0;
      while n < bits.Length && bits[n] == 0xFF
        invariant Ones(bits[..], n)
      {
        n := n + 1;
      }
      if n >= bits.Length {
        Grow();
        forall i: nat ensures Taken(i) == In(s0, i) { GrowIn(s0, bits[..], i); }
        assert forall k :: 0 <= k < n ==> bits[k] == bits[..n][k];
      }
      if n >= bits.Length {
        need := need + 1;
        r, free := None, 0;
      } else {
        r, free := Claim(n);
      }
    }

    /** Takes the lowest id of byte n, the first with room. */
    method Claim(n: nat) returns (r: Option<nat>, ghost free: nat)
      requires Valid() && n < bits.Length && Ones(bits[..], n) && bits[n] != 0xFF
      modifies bits
      ensures Valid() && r == Some(free % TWO32) && (maxid == NOTAG ==> free <= NOTAG)
      ensures !old(Taken(free)) && forall i: nat :: i < free ==> old(Taken(i))
      ensures forall i: nat :: Taken(i) == (i == free || old(Taken(i)))
    {
      ghost var s := bits[..];
      var ret := M2id(bits[n]);
      free := n * 8 + ret;
      FirstFree(s, n);
      bits[n] := bits[n] | Mask(ret);
      assert bits[..] == s[n := s[n] | Mask(ret)];
      forall i: nat ensures Taken(i) == (i == free || In(s, i)) { SetIn(s, n, ret, i); }
      r := Some((ret + n * 8 % TWO32) % TWO32);
    }

    /** Gives an id back: to a caller who waits, or to the bitmap. */
    method PutId(id: nat) returns (handed: bool)
      requires Valid() && Taken(id)
      modifies this`need, bits
      ensures Valid() && handed == (old(need) > 0)
      ensures handed ==> need == old(need) - 1 && forall i: nat :: Taken(i) == old(Taken(i))
      ensures !handed ==> need == 0 && forall i: nat :: Taken(i) == (i != id && old(Taken(i)))
    {
      handed := need > 0;
      if handed {
        need := need - 1;
      } else {
        Clear(id / 8, id % 8);
      }
    }

    method Clear(n: nat, r: nat)
      requires n < bits.Length && r < 8
      modifies bits
      ensures forall i: nat :: Taken(i) == (i != n * 8 + r && old(Taken(i)))
    {
      ghost var s := bits[..];
      bits[n] := bits[n] & !Mask(r);
      assert bits[..] == s[n := s[n] & !Mask(r)];
      forall i: nat ensures Taken(i) == (i != n * 8 + r && In(s, i)) { ClearIn(s, n, r, i); }
    }
  }
}
