/**
 The files of p/srv/examples/ramfs/ramfs.go: an array of blocks with holes, and a channel of recycled
 blocks that all files share.  To its user each file is one flat array of bytes.
 */
module RamFile {
  import opened Common

  const TWO64 := 0x1_0000_0000_0000_0000
  const TWO32 := 0x1_0000_0000

  /** The largest length a Go slice can have. */
  const MAXLEN := 0x7FFF_FFFF_FFFF_FFFF

  function Low64(n: nat): (r: nat)
    ensures n < 0x1_0000_0000_0000_0000 ==> r == n
  {
    n % 0x1_0000_0000_0000_0000
  }

  /* ---- positions and blocks ---- */

  lemma Times(x: nat, y: nat, b: nat)
    requires x <= y
    ensures x * b <= y * b
  {
  }

  lemma DivMod(n: nat, r: nat, b: nat)
    requires r < b
    ensures (n * b + r) / b == n && (n * b + r) % b == r
  {
    var q := (n * b + r) / b;
    Position(n * b + r, b);
    if q < n { Times(q + 1, n, b); }
    if q > n { Times(n + 1, q, b); }
  }

  lemma Position(i: nat, b: nat)
    requires b > 0
    ensures i == i / b * b + i % b && 0 <= i % b < b && 0 <= i / b
  {
  }

  /** The positions below n * b are those of the first n blocks. */
  lemma Below(i: nat, n: nat, b: nat)
    requires b > 0
    ensures i < n * b <==> i / b < n
  {
    Position(i, b);
    if i / b < n { Times(i / b + 1, n, b); } else { Times(n, i / b, b); }
  }

  /** The number of blocks that hold sz bytes. */
  function BlockCount(sz: nat, b: nat): nat
    requires b > 0
  {
    if sz % b != 0 then sz / b + 1 else sz / b
  }

  lemma BlockCountCovers(sz: nat, b: nat)
    requires b > 0
    ensures sz <= BlockCount(sz, b) * b < sz + b
  {
    Position(sz, b);
    assert (sz / b + 1) * b == sz / b * b + b;
  }

  lemma BlockCountMonotone(x: nat, y: nat, b: nat)
    requires b > 0 && x <= y
    ensures BlockCount(x, b) <= BlockCount(y, b)
  {
    BlockCountCovers(x, b);
    BlockCountCovers(y, b);
    if BlockCount(y, b) < BlockCount(x, b) { Times(BlockCount(y, b) + 1, BlockCount(x, b), b); }
  }

  function Zeros(n: nat): (z: seq<byte>)
    ensures |z| == n
  {
    seq(n, i => 0)
  }

  /* ---- a file as its blocks ---- */

  /** The byte at position i. */
  function Cell(v: seq<seq<byte>>, b: nat, i: nat): byte
    requires b > 0
  {
    CellAt(v, i / b, i % b)
  }

  function CellAt(v: seq<seq<byte>>, n: nat, r: nat): byte {
    if n < |v| && r < |v[n]| then v[n][r] else 0
  }

  /** The first len bytes. */
  function Flatten(v: seq<seq<byte>>, b: nat, len: nat): (s: seq<byte>)
    requires b > 0
    ensures |s| == len
  {
    seq(len, i requires 0 <= i => Cell(v, b, i))
  }

  /** What lies beyond the length is zero. */
  ghost predicate Slack(v: seq<seq<byte>>, b: nat, len: nat)
    requires b > 0
  {
    forall i :: len <= i ==> Cell(v, b, i) == 0
  }

  /** A stretch of the file inside one block. */
  lemma Part(v: seq<seq<byte>>, b: nat, len: nat, p: nat, m: nat)
    requires b > 0 && |v| == BlockCount(len, b) && m > 0 && p + m <= len && p % b + m <= b
    requires forall k :: 0 <= k < |v| ==> |v[k]| == b
    ensures p / b < |v| && Flatten(v, b, len)[p..p + m] == v[p / b][p % b..p % b + m]
  {
    var n, off := p / b, p % b;
    BlockCountCovers(len, b);
    Below(p, |v|, b);
    Position(p, b);
    var part, bytes := Flatten(v, b, len)[p..p + m], v[n][off..off + m];
    forall k | 0 <= k < m ensures part[k] == bytes[k] {
      DivMod(n, off + k, b);
    }
  }

  /** A flat file after a write: it grows with zeros up to the offset if it is too short. */
  function Overlay(flat: seq<byte>, buf: seq<byte>, offset: nat): (r: seq<byte>)
    ensures |r| == Max(|flat|, offset + |buf|)
  {
    seq(Max(|flat|, offset + |buf|), i requires 0 <= i =>
      if offset <= i < offset + |buf| then buf[i - offset] else if i < |flat| then flat[i] else 0)
  }

  /** A flat file cut, or grown with zeros, to a length. */
  function Resize(flat: seq<byte>, sz: nat): (r: seq<byte>)
    ensures |r| == sz
  {
    if sz <= |flat| then flat[..sz] else flat + Zeros(sz - |flat|)
  }

  /** Who holds a block: one place of one file, or one place of the channel. */
  datatype Owner = InFile(file: RFile, at: nat) | InPool(ticket: nat) | Nobody

  /** The blocks among these places, in order. */
  function Blocks(places: seq<array?<byte>>): (s: seq<array<byte>>)
    ensures |s| <= |places|
    ensures (forall x :: x in s ==> x in places) && forall x :: x in places && x != null ==> x in s
  {
    if places == [] then []
    else
      var front, x := Blocks(places[..|places| - 1]), places[|places| - 1];
      assert places == places[..|places| - 1] + [x];
      if x == null then front else front + [x]
  }

  /** A channel with room for limit blocks after these have been offered to it. */
  function Offered(chan: seq<array<byte>>, limit: nat, gone: seq<array<byte>>): seq<array<byte>> {
    chan + gone[..Min(|gone|, Max(0, limit - |chan|))]
  }

  lemma OfferOne(chan: seq<array<byte>>, limit: nat, gone: seq<array<byte>>, x: array<byte>)
    ensures var c := Offered(chan, limit, gone);
            Offered(chan, limit, gone + [x]) == if |c| < limit then c + [x] else c
  {
  }

  class Ramfs {
    const blksz: nat
    const zero: array<byte>
    const limit: nat                     // capacity of blkchan
    var blkchan: seq<array<byte>>
    ghost var files: set<RFile>
    ghost var owner: map<array<byte>, Owner>
    ghost var taken: nat                 // how many blocks have left blkchan

    /** Every block in use has one owner and the block size. */
    ghost predicate Shape()
      reads this, zero, files
    {
      && blksz > 0 && zero.Length == blksz && zero !in owner
      && (forall i :: 0 <= i < blksz ==> zero[i] == 0)
      && (forall x :: x in owner ==> x.Length == blksz)
      && (forall j :: 0 <= j < |blkchan| ==> blkchan[j] in owner && owner[blkchan[j]] == InPool(taken + j))
      && (forall f :: f in files ==> f.Shape(this))
    }

    constructor (b: nat, cap: nat)
      requires b > 0
      ensures Shape() && files == {} && blksz == b && limit == cap && blkchan == [] && fresh(zero)
    {
      blksz := b;
      limit := cap;
      zero := new byte[b](_ => 0);
      blkchan := [];
      files := {};
      owner := map[];
      taken := 0;
    }

    /** Sends a block its file has let go of to the channel, unless that is full. */
    method GiveBack(blk: array<byte>, ghost f: RFile, ghost at: nat)
      requires Shape() && blk in owner && owner[blk] == InFile(f, at) && (f in files ==> |f.data| <= at)
      modifies this
      ensures Shape() && files == old(files)
      ensures owner == old(owner) || owner == old(owner)[blk := InPool(old(taken) + |old(blkchan)|)]
      ensures blkchan == if |old(blkchan)| < limit then old(blkchan) + [blk] else old(blkchan)
    {
      if |blkchan| < limit {
        owner := owner[blk := InPool(taken + |blkchan|)];
        blkchan := blkchan + [blk];
      }
    }

    /** A cleared block: a recycled one if there is any, else a new one.  No place holds it yet. */
    method TakeBlock() returns (blk: array<byte>)
      requires Shape()
      modifies this, owner.Keys
      ensures Shape() && files == old(files)
      ensures blk.Length == blksz && forall i :: 0 <= i < blksz ==> blk[i] == 0
      ensures blk in owner && owner[blk].Nobody? && (blk in old(owner) ==> old(owner)[blk].InPool?)
      ensures blk !in old(owner) ==> fresh(blk)
      ensures if old(blkchan) == [] then fresh(blk) && blkchan == []
              else blk == old(blkchan)[0] && blkchan == old(blkchan)[1..]
      ensures owner == old(owner)[blk := Nobody]
      ensures forall x :: x in old(owner) && x != blk ==> x[..] == old(x[..])
    {
      if |blkchan| > 0 {
        blk := blkchan[0];
        blkchan := blkchan[1..];
        taken := taken + 1;
      } else {
        blk := new byte[blksz];
      }
      Copy(blk, 0, zero, 0, blksz);
      owner := owner[blk := Nobody];
    }
  }

  class RFile {
    var data: seq<array?<byte>>
    var Length: nat
    ghost var value: seq<seq<byte>>

    constructor ()
      ensures data == [] && Length == 0 && value == []
    {
      data, Length, value := [], 0, [];
    }

    ghost predicate Shape(fs: Ramfs)
      reads this, fs
    {
      && fs.blksz > 0
      && |data| == BlockCount(Length, fs.blksz) == |value|
      && forall k :: 0 <= k < |data| && data[k] != null ==> data[k] in fs.owner && fs.owner[data[k]] == InFile(this, k)
    }

    /** value shows the bytes of the blocks; a hole is a block of zeros. */
    ghost predicate Shown(fs: Ramfs)
      requires Shape(fs)
      reads this, fs, fs.owner.Keys
    {
      forall k :: 0 <= k < |data| ==> ShownAt(fs, k)
    }

    ghost predicate ShownAt(fs: Ramfs, k: nat)
      requires Shape(fs) && k < |data|
      reads this, fs, fs.owner.Keys
    {
      value[k] == if data[k] == null then Zeros(fs.blksz) else data[k][..]
    }

    /** The contents of the file. */
    ghost function Flat(b: nat): (s: seq<byte>)
      requires b > 0
      reads this
    {
      Flatten(value, b, Length)
    }

    /** What lies beyond the length is zero. */
    ghost predicate Tidy(b: nat)
      requires b > 0
      reads this
    {
      Slack(value, b, Length)
    }

    /* ---- reading ---- */

    method Read(fs: Ramfs, buf: array<byte>, offset: nat) returns (count: nat)
      requires fs.Shape() && this in fs.files && Shown(fs) && Length <= MAXLEN
      requires offset < TWO64 && buf.Length < TWO32
      requires buf !in fs.owner && buf != fs.zero
      modifies buf
      ensures count == if offset > Length then 0 else Min(buf.Length, Length - offset)
      ensures count > 0 ==> buf[..count] == old(Flat(fs.blksz))[offset..offset + count]
      ensures buf[count..] == old(buf[count..])
      ensures fs.Shape() && Shown(fs)
    {
      if offset > Length {
        return 0;
      }
      count := Low32(buf.Length);
      if Low64(offset + count) > Length {
        count := Low32(Length - offset);
      }
      ReadBlocks(fs, buf, offset, count);
    }

    /** One round of the loop: part of one block. */
    method ReadPart(fs: Ramfs, buf: array<byte>, done: nat, n: nat, off: nat, m: nat, ghost p: nat)
      requires fs.Shape() && this in fs.files && Shown(fs)
      requires buf !in fs.owner && buf != fs.zero && done + m <= buf.Length
      requires n == p / fs.blksz && off == p % fs.blksz && m > 0 && p + m <= Length && off + m <= fs.blksz
      modifies buf
      ensures fs.Shape() && Shown(fs)
      ensures forall i :: 0 <= i < buf.Length && !(done <= i < done + m) ==> buf[i] == old(buf[i])
      ensures forall i :: done <= i < done + m ==> buf[i] == Flat(fs.blksz)[p - done + i]
    {
      var b := fs.blksz;
      BlockCountCovers(Length, b);
      Below(p, |data|, b);
      assert ShownAt(fs, n);
      forall k | 0 <= k < |value| ensures |value[k]| == b { assert ShownAt(fs, k); }
      Part(value, b, Length, p, m);
      var blk := if data[n] == null then fs.zero else data[n];
      assert blk[..] == value[n];
      ghost var seen := Flat(b)[p..p + m];
      assert seen == blk[off..off + m];
      Copy(buf, done, blk, off, m);
      assert forall i :: done <= i < done + m ==> buf[i] == seen[i - done];
      forall k | 0 <= k < |data| ensures ShownAt(fs, k) { assert old(ShownAt(fs, k)); }
    }

    /** One round: the rest of block n, or what is still wanted. */
    method ReadNext(fs: Ramfs, buf: array<byte>, done: nat, n: nat, off: nat, offset: nat, count: nat) returns (m: nat)
      requires fs.Shape() && this in fs.files && Shown(fs)
      requires buf !in fs.owner && buf != fs.zero && done < count <= buf.Length && offset + count <= Length
      requires n == (offset + done) / fs.blksz && off == (offset + done) % fs.blksz
      modifies buf
      ensures fs.Shape() && Shown(fs) && 0 < m <= count - done
      ensures forall i :: 0 <= i < buf.Length && !(done <= i < done + m) ==> buf[i] == old(buf[i])
      ensures forall i :: done <= i < done + m ==> buf[i] == Flat(fs.blksz)[offset + i]
      ensures done + m < count ==> n + 1 == (offset + done + m) / fs.blksz && (offset + done + m) % fs.blksz == 0
    {
      BlockEnds(offset + done, n, off, fs.blksz);
      m := Min(fs.blksz - off, count - done);
      ReadPart(fs, buf, done, n, off, m, offset + done);
    }

    method ReadBlocks(fs: Ramfs, buf: array<byte>, offset: nat, count: nat)
      requires fs.Shape() && this in fs.files && Shown(fs)
      requires buf !in fs.owner && buf != fs.zero && count <= buf.Length && offset + count <= Length
      modifies buf
      ensures buf[..count] == old(Flat(fs.blksz))[offset..offset + count] && buf[count..] == old(buf[count..])
      ensures fs.Shape() && Shown(fs)
    {
      var b := fs.blksz;
      ghost var flat := Flat(b);
      Position(offset, b);
      var n, off, done := offset / b, offset % b, 0;
      while done < count
        invariant 0 <= n && 0 <= off && done <= count && fs.Shape() && Shown(fs)
        invariant done < count ==> n == (offset + done) / b && off == (offset + done) % b
        invariant forall i :: 0 <= i < done ==> buf[i] == flat[offset + i]
        invariant forall i :: done <= i < buf.Length ==> buf[i] == old(buf[i])
      {
        var m := ReadNext(fs, buf, done, n, off, offset, count);
        done := done + m;
        n, off := n + 1, 0;
      }
    }

    /* ---- writing ---- */

    /** No other file changes, nor any block of one; blocks that come to be known are new. */
    twostate predicate OthersKept(fs: Ramfs)
      reads fs, fs.files, fs.owner.Keys
    {
      && fs.files == old(fs.files)
      && (forall x :: x in fs.owner && x !in old(fs.owner) ==> fresh(x))
      && (forall g :: g in fs.files && g != this ==> unchanged(g))
      && (forall x :: x in old(fs.owner) && old(fs.owner)[x].InFile? && old(fs.owner)[x].file != this ==>
           x in fs.owner && fs.owner[x] == old(fs.owner)[x] && x[..] == old(x[..]))
    }

    /** Puts a cleared block where a hole was. */
    method PutBlock(fs: Ramfs, n: nat, blk: array<byte>)
      requires fs.Shape() && this in fs.files && Shown(fs) && n < |data| && data[n] == null
      requires blk in fs.owner && fs.owner[blk].Nobody? && blk[..] == Zeros(fs.blksz)
      modifies this`data, fs`owner
      ensures fs.Shape() && Shown(fs)
      ensures data == old(data)[n := blk] && fs.owner == old(fs.owner)[blk := InFile(this, n)]
    {
      assert ShownAt(fs, n);
      data := data[n := blk];
      fs.owner := fs.owner[blk := InFile(this, n)];
      forall k | 0 <= k < |data| ensures ShownAt(fs, k) { if k != n { assert old(ShownAt(fs, k)); } }
    }

    /** Fills a hole with a cleared block. */
    method FillHole(fs: Ramfs, n: nat)
      requires fs.Shape() && this in fs.files && Shown(fs) && n < |data| && data[n] == null
      modifies this`data, fs, fs.owner.Keys
      ensures fs.Shape() && OthersKept(fs) && Shown(fs)
      ensures |data| == old(|data|) && data[n] != null
      ensures if old(fs.blkchan) == [] then fs.blkchan == []
              else data[n] == old(fs.blkchan)[0] && fs.blkchan == old(fs.blkchan)[1..]
    {
      var blk := fs.TakeBlock();
      assert blk[..] == Zeros(fs.blksz);
      forall k | 0 <= k < |data| ensures ShownAt(fs, k) { assert old(ShownAt(fs, k)); }
      PutBlock(fs, n, blk);
    }

    /** Writes part of one block that is there. */
    method PutPart(fs: Ramfs, n: nat, off: nat, part: seq<byte>)
      requires fs.Shape() && this in fs.files && Shown(fs) && n < |data| && data[n] != null && off + |part| <= fs.blksz
      modifies fs.owner.Keys, this`value
      ensures fs.Shape() && OthersKept(fs) && Shown(fs)
      ensures value == old(value)[n := Overlay(old(value)[n], part, off)]
    {
      assert ShownAt(fs, n);
      var blk := data[n];
      forall k | off <= k < off + |part| {
        blk[k] := part[k - off];
      }
      value := value[n := Overlay(value[n], part, off)];
      assert blk[..] == value[n];
      forall k | 0 <= k < |data| ensures ShownAt(fs, k) { assert k < old(|data|) ==> old(ShownAt(fs, k)); }
    }

    method expand(fs: Ramfs, sz: nat)
      requires fs.Shape() && this in fs.files && Shown(fs) && Length <= sz
      modifies this
      ensures fs.Shape() && OthersKept(fs) && Shown(fs) && Length == sz
      ensures |data| >= old(|data|) && value == old(value) + Holes(|data| - old(|data|), fs.blksz)
    {
      var blknum := BlockCount(sz, fs.blksz);
      ghost var n := |data|;
      assert n <= blknum by { BlockCountMonotone(Length, sz, fs.blksz); }
      data := data + NoBlocks(blknum - |data|);
      value := value + Holes(blknum - n, fs.blksz);
      Length := sz;
      assert Shape(fs);
      forall k | 0 <= k < |data| ensures ShownAt(fs, k) {
        if k < n { assert old(ShownAt(fs, k)); }
      }
    }

    /** Clears the rest of the last block that stays and gives up the others. */
    method shrink(fs: Ramfs, sz: nat)
      requires fs.Shape() && this in fs.files && Shown(fs) && sz < Length
      modifies this, fs, fs.owner.Keys
      ensures fs.Shape() && OthersKept(fs) && Shown(fs) && Length == sz
      ensures sz / fs.blksz < |old(value)| && |old(value)[sz / fs.blksz]| == fs.blksz
      ensures value == Cut(old(value), fs.blksz, sz)
      ensures BlockCount(sz, fs.blksz) <= |old(data)|
      ensures fs.blkchan == Offered(old(fs.blkchan), fs.limit, Blocks(old(data)[BlockCount(sz, fs.blksz)..]))
    {
      var b := fs.blksz;
      var blknum, off := sz / b, sz % b;
      assert blknum < |data| by { BlockCountCovers(Length, b); Below(sz, |data|, b); }
      assert ShownAt(fs, blknum);
      assert BlockCount(sz, b) == if off > 0 then blknum + 1 else blknum;
      if off > 0 {
        if data[blknum] != null {
          PutPart(fs, blknum, off, Zeros(b - off));
        } else {
          assert Overlay(Zeros(b), Zeros(b - off), off) == Zeros(b);
        }
        blknum := blknum + 1;
      }
      Release(fs, blknum, sz);
    }

    /**
     Cuts the array of blocks and sends what was cut off to the channel until it is full.  The source
     sends first and cuts last; the file is locked, so nobody can tell.
     */
    method Release(fs: Ramfs, from: nat, sz: nat)
      requires fs.Shape() && this in fs.files && Shown(fs) && from <= |data| && from == BlockCount(sz, fs.blksz)
      modifies this, fs
      ensures fs.Shape() && OthersKept(fs) && Shown(fs) && Length == sz && value == old(value)[..from]
      ensures fs.blkchan == Offered(old(fs.blkchan), fs.limit, Blocks(old(data)[from..]))
    {
      var gone := data[from..];
      data := data[..from];
      value := value[..from];
      Length := sz;
      assert Shape(fs);
      forall k | 0 <= k < |data| ensures ShownAt(fs, k) { assert old(ShownAt(fs, k)); }
      Recycle(fs, gone, from);
    }

    method Recycle(fs: Ramfs, gone: seq<array?<byte>>, from: nat)
      requires fs.Shape() && this in fs.files && Shown(fs) && from == |data|
      requires forall k :: 0 <= k < |gone| && gone[k] != null ==>
                 gone[k] in fs.owner && fs.owner[gone[k]] == InFile(this, from + k)
      modifies fs
      ensures fs.Shape() && OthersKept(fs) && Shown(fs)
      ensures fs.blkchan == Offered(old(fs.blkchan), fs.limit, Blocks(gone))
    {
      for i := 0 to |gone|
        invariant fs.blkchan == Offered(old(fs.blkchan), fs.limit, Blocks(gone[..i]))
        invariant fs.Shape() && fs.files == old(fs.files) && fs.owner.Keys == old(fs.owner.Keys)
        invariant forall x :: x in fs.owner && fs.owner[x] != old(fs.owner)[x] ==>
                    old(fs.owner)[x].InFile? && old(fs.owner)[x].file == this && from <= old(fs.owner)[x].at < from + i
      {
        assert gone[..i + 1][..i] == gone[..i];
        if gone[i] != null {
          OfferOne(old(fs.blkchan), fs.limit, Blocks(gone[..i]), gone[i]);
          fs.GiveBack(gone[i], this, from + i);
        }
      }
      assert gone[..|gone|] == gone;
      forall k | 0 <= k < |data| ensures ShownAt(fs, k) { assert old(ShownAt(fs, k)); }
    }

    lemma Even(fs: Ramfs)
      requires fs.Shape() && this in fs.files && Shown(fs)
      ensures forall k :: 0 <= k < |value| ==> |value[k]| == fs.blksz
    {
      forall k | 0 <= k < |value| ensures |value[k]| == fs.blksz { assert ShownAt(fs, k); }
    }

    method Write(fs: Ramfs, buf: seq<byte>, offset: nat) returns (count: nat)
      requires fs.Shape() && this in fs.files && Shown(fs) && Tidy(fs.blksz) && offset + |buf| <= MAXLEN
      modifies this, fs, fs.owner.Keys
      ensures fs.Shape() && OthersKept(fs) && Shown(fs) && Tidy(fs.blksz)
      ensures count == |buf| && Flat(fs.blksz) == Overlay(old(Flat(fs.blksz)), buf, offset)
    {
      var sz := Low64(offset + |buf|);
      if Length < sz {
        expand(fs, sz);
        Expanded(old(value), fs.blksz, old(Length), |data| - old(|data|), sz);
        GrownOverlay(old(Flat(fs.blksz)), buf, offset);
      }
      ghost var v := value;
      count := WriteBlocks(fs, buf, offset);
      Written(v, value, fs.blksz, Length, buf, offset);
    }

    method WriteBlocks(fs: Ramfs, buf: seq<byte>, offset: nat) returns (count: nat)
      requires fs.Shape() && this in fs.files && Shown(fs) && offset + |buf| <= Length
      modifies this`data, this`value, fs, fs.owner.Keys
      ensures fs.Shape() && OthersKept(fs) && Shown(fs) && count == |buf|
      ensures Patched(old(value), value, fs.blksz, offset, buf)
    {
      count := 0;
      var b := fs.blksz;
      var n, off := offset / b, offset % b;
      while count < |buf|
        invariant count <= |buf| && fs.Shape() && OthersKept(fs) && Shown(fs)
        invariant count < |buf| ==> n == (offset + count) / b && off == (offset + count) % b
        invariant Patched(old(value), value, b, offset, buf[..count])
      {
        var m := Min(b - off, |buf| - count);
        BlockEnds(offset + count, n, off, b);
        WritePart(fs, n, off, buf[count..count + m], offset + count);
        count := count + m;
        n, off := n + 1, 0;
      }
    }

    /** One round of the loop: part of one block. */
    method WritePart(fs: Ramfs, n: nat, off: nat, part: seq<byte>, ghost p: nat)
      requires fs.Shape() && this in fs.files && Shown(fs) && part != []
      requires n == p / fs.blksz && off == p % fs.blksz && off + |part| <= fs.blksz && p + |part| <= Length
      modifies this`data, this`value, fs, fs.owner.Keys
      ensures fs.Shape() && OthersKept(fs) && Shown(fs)
      ensures Patched(old(value), value, fs.blksz, p, part)
    {
      assert n < |data| by { BlockCountCovers(Length, fs.blksz); Below(p, |data|, fs.blksz); }
      if data[n] == null {
        FillHole(fs, n);
      }
      Even(fs);
      PutCells(value, fs.blksz, p, part);
      PutPart(fs, n, off, part);
    }

    /** Sets the length: the file is cut, or grows with zeros. */
    method trunc(fs: Ramfs, sz: nat)
      requires fs.Shape() && this in fs.files && Shown(fs) && Tidy(fs.blksz)
      modifies this, fs, fs.owner.Keys
      ensures fs.Shape() && OthersKept(fs) && Shown(fs) && Tidy(fs.blksz)
      ensures Flat(fs.blksz) == Resize(old(Flat(fs.blksz)), sz)
    {
      if Length == sz {
        return;
      }
      if Length > sz {
        shrink(fs, sz);
        Shrunk(old(value), fs.blksz, old(Length), sz);
      } else {
        expand(fs, sz);
        Expanded(old(value), fs.blksz, old(Length), |data| - old(|data|), sz);
      }
    }
  }

  lemma SameBlock(i: nat, p: nat, b: nat)
    requires b > 0 && i / b == p / b
    ensures i - p == i % b - p % b
  {
    Position(i, b);
    Position(p, b);
  }

  lemma OtherBlock(i: nat, p: nat, b: nat, m: nat)
    requires b > 0 && i / b != p / b && p % b + m <= b
    ensures !(p <= i < p + m) && (i / b < p / b <==> i < p)
  {
    Position(i, b);
    Position(p, b);
    if i / b < p / b { Times(i / b + 1, p / b, b); } else { Times(p / b + 1, i / b, b); }
  }

  /** v' is v with the bytes of part from p on. */
  ghost predicate Patched(v: seq<seq<byte>>, v': seq<seq<byte>>, b: nat, p: nat, part: seq<byte>)
    requires b > 0
  {
    forall i :: 0 <= i ==> Cell(v', b, i) == if p <= i < p + |part| then part[i - p] else Cell(v, b, i)
  }

  /** Writing part of block p / b changes the cells from p on. */
  lemma PutCells(v: seq<seq<byte>>, b: nat, p: nat, part: seq<byte>)
    requires b > 0 && p / b < |v| && |v[p / b]| == b && p % b + |part| <= b
    ensures Patched(v, v[p / b := Overlay(v[p / b], part, p % b)], b, p, part)
  {
    var v' := v[p / b := Overlay(v[p / b], part, p % b)];
    forall i | 0 <= i ensures Cell(v', b, i) == if p <= i < p + |part| then part[i - p] else Cell(v, b, i) {
      PutCell(v, b, p, part, i);
    }
  }

  lemma PutAt(v: seq<seq<byte>>, b: nat, q: nat, off: nat, part: seq<byte>, n: nat, r: nat)
    requires q < |v| && |v[q]| == b && off + |part| <= b && r < b
    ensures CellAt(v[q := Overlay(v[q], part, off)], n, r) ==
            if n == q && off <= r < off + |part| then part[r - off] else CellAt(v, n, r)
  {
  }

  lemma PutCell(v: seq<seq<byte>>, b: nat, p: nat, part: seq<byte>, i: nat)
    requires b > 0 && p / b < |v| && |v[p / b]| == b && p % b + |part| <= b
    ensures Cell(v[p / b := Overlay(v[p / b], part, p % b)], b, i) ==
            if p <= i < p + |part| then part[i - p] else Cell(v, b, i)
  {
    Position(i, b);
    PutAt(v, b, p / b, p % b, part, i / b, i % b);
    if i / b == p / b {
      SameBlock(i, p, b);
    } else {
      OtherBlock(i, p, b, |part|);
    }
  }

  lemma CutAt(v: seq<seq<byte>>, b: nat, q: nat, off: nat, n: nat, r: nat)
    requires q < |v| && |v[q]| == b && off < b && r < b
    ensures var v' := if off == 0 then v[..q] else v[..q] + [Overlay(v[q], Zeros(b - off), off)];
            CellAt(v', n, r) == if n < q || (n == q && r < off) then CellAt(v, n, r) else 0
  {
  }

  lemma CutCell(v: seq<seq<byte>>, b: nat, sz: nat, i: nat)
    requires b > 0 && sz / b < |v| && |v[sz / b]| == b
    ensures Cell(Cut(v, b, sz), b, i) == if i < sz then Cell(v, b, i) else 0
  {
    Position(i, b);
    Position(sz, b);
    CutAt(v, b, sz / b, sz % b, i / b, i % b);
    if i / b == sz / b {
      SameBlock(i, sz, b);
    } else {
      OtherBlock(i, sz, b, 0);
    }
  }

  /** Growing a file with holes. */
  lemma Expanded(v: seq<seq<byte>>, b: nat, len: nat, n: nat, sz: nat)
    requires b > 0 && len <= sz && Slack(v, b, len)
    ensures Flatten(v + Holes(n, b), b, sz) == Resize(Flatten(v, b, len), sz)
    ensures Slack(v + Holes(n, b), b, sz)
  {
    assert forall i :: 0 <= i ==> Cell(v + Holes(n, b), b, i) == Cell(v, b, i);
  }

  /** Cutting a file. */
  lemma Shrunk(v: seq<seq<byte>>, b: nat, len: nat, sz: nat)
    requires b > 0 && sz < len && sz / b < |v| && |v[sz / b]| == b
    ensures Flatten(Cut(v, b, sz), b, sz) == Resize(Flatten(v, b, len), sz)
    ensures Slack(Cut(v, b, sz), b, sz)
  {
    forall i | 0 <= i ensures Cell(Cut(v, b, sz), b, i) == if i < sz then Cell(v, b, i) else 0 { CutCell(v, b, sz, i); }
  }

  /** Growing to the end of what is written and writing it, in one. */
  lemma Written(v: seq<seq<byte>>, v': seq<seq<byte>>, b: nat, len: nat, buf: seq<byte>, offset: nat)
    requires b > 0 && offset + |buf| <= len && Patched(v, v', b, offset, buf) && Slack(v, b, len)
    ensures Flatten(v', b, len) == Overlay(Flatten(v, b, len), buf, offset)
    ensures Slack(v', b, len)
  {
    assert forall i :: 0 <= i ==>
        Cell(v', b, i) == if offset <= i < offset + |buf| then buf[i - offset] else Cell(v, b, i);
  }

  lemma GrownOverlay(flat: seq<byte>, buf: seq<byte>, offset: nat)
    requires |flat| < offset + |buf|
    ensures Overlay(Resize(flat, offset + |buf|), buf, offset) == Overlay(flat, buf, offset)
  {
  }

  /** The blocks that stay when a file is cut, the rest of the last one cleared. */
  function Cut(v: seq<seq<byte>>, b: nat, sz: nat): seq<seq<byte>>
    requires b > 0 && sz / b < |v| && |v[sz / b]| == b
  {
    if sz % b == 0 then v[..sz / b] else v[..sz / b] + [Overlay(v[sz / b], Zeros(b - sz % b), sz % b)]
  }

  /** What make leaves in a new array of blocks. */
  function NoBlocks(n: nat): (d: seq<array?<byte>>)
    ensures |d| == n && forall k :: 0 <= k < n ==> d[k] == null
  {
    seq(n, k => null)
  }

  function Holes(n: nat, b: nat): (v: seq<seq<byte>>)
    ensures |v| == n && forall k :: 0 <= k < n ==> v[k] == Zeros(b)
  {
    seq(n, k => Zeros(b))
  }

  /** The first position of the block after p. */
  lemma NextBlock(p: nat, b: nat)
    requires b > 0
    ensures p + (b - p % b) == (p / b + 1) * b
    ensures (p + (b - p % b)) / b == p / b + 1 && (p + (b - p % b)) % b == 0
  {
    Position(p, b);
    DivMod(p / b + 1, 0, b);
  }

  /** From p the rest of block n is read or written, and block n + 1 comes next. */
  lemma BlockEnds(p: nat, n: nat, off: nat, b: nat)
    requires b > 0 && n == p / b && off == p % b
    ensures off < b && (p + (b - off)) / b == n + 1 && (p + (b - off)) % b == 0
  {
    Position(p, b);
    NextBlock(p, b);
  }

  /** The built-in copy between two arrays. */
  method Copy(dst: array<byte>, at: nat, src: array<byte>, from: nat, m: nat)
    requires dst != src && at + m <= dst.Length && from + m <= src.Length
    modifies dst
    ensures forall i :: at <= i < at + m ==> dst[i] == src[from - at + i]
    ensures forall i :: 0 <= i < dst.Length && !(at <= i < at + m) ==> dst[i] == old(dst[i])
  {
    forall k | at <= k < at + m {
      dst[k] := src[from + k - at];
    }
  }
}
