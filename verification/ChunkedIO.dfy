/**
 Reads and writes of any length in pieces that fit a message: Writen and Readn of the client
 (p/clnt/write.go, p/clnt/read.go) on a file of the memory server.
 */
module ChunkedIO {
  import opened Common
  import opened RamFile

  const IOHDRSZ := 24

  /** What Open leaves as the largest piece (p/clnt/open.go). */
  ghost predicate Opened(iounit: nat, msize: nat) {
    0 < iounit && iounit + IOHDRSZ <= msize < TWO32
  }

  /** Two pieces one after the other are one. */
  lemma OverlayTwice(flat: seq<byte>, a: seq<byte>, b: seq<byte>, offset: nat)
    requires b != []
    ensures Overlay(Overlay(flat, a, offset), b, offset + |a|) == Overlay(flat, a + b, offset)
  {
    var one, two := Overlay(flat, a + b, offset), Overlay(Overlay(flat, a, offset), b, offset + |a|);
    forall i | 0 <= i < |one| ensures one[i] == two[i] {
    }
  }

  /** A flat file after some of buf has been written; nothing at all leaves it alone. */
  function Wrote(flat: seq<byte>, buf: seq<byte>, offset: nat): seq<byte> {
    if buf == [] then flat else Overlay(flat, buf, offset)
  }

  lemma WroteMore(flat: seq<byte>, a: seq<byte>, b: seq<byte>, offset: nat)
    ensures Wrote(Wrote(flat, a, offset), b, offset + |a|) == Wrote(flat, a + b, offset)
  {
    if a == [] {
      assert a + b == b;
    } else if b == [] {
      assert a + b == a;
    } else {
      OverlayTwice(flat, a, b, offset);
    }
  }

  /**
   clnt.Write with the server's answer: at most iounit bytes; not ok if they do not fit the packet.  A write of
   no bytes is sent too, and fills the file up with zeros to where it would have begun.
   */
  method WriteAt(fs: Ramfs, f: RFile, iounit: nat, msize: nat, buf: seq<byte>, offset: nat) returns (n: nat, ok: bool)
    requires fs.Shape() && f in fs.files && f.Shown(fs) && f.Tidy(fs.blksz)
    requires Opened(iounit, msize) && offset + |buf| <= MAXLEN
    modifies f, fs, fs.owner.Keys
    ensures fs.Shape() && f.OthersKept(fs) && f.Shown(fs) && f.Tidy(fs.blksz)
    ensures ok <==> |buf| < TWO32 || Low32(|buf|) > iounit
    ensures n == if Low32(|buf|) > iounit then iounit else if ok then |buf| else 0
    ensures n <= |buf|
    ensures f.Flat(fs.blksz) == if ok then Overlay(old(f.Flat(fs.blksz)), buf[..n], offset) else old(f.Flat(fs.blksz))
  {
    var data := buf;
    if Low32(|buf|) > iounit {
      data := buf[..iounit];
    }
    if 4 + 8 + 4 + |data| + 7 > msize {
      return 0, false;
    }
    assert Low32(Low32(|data|) + IOHDRSZ) <= msize;  // so the server does not find it too large
    n := f.Write(fs, data, offset);
    assert data == buf[..n];
    ok := true;
  }

  lemma Regrouped(buf: seq<byte>, wrote: seq<byte>, rest: seq<byte>, n: nat)
    requires n <= |rest| && buf == wrote + rest
    ensures buf == (wrote + rest[..n]) + rest[n..]
  {
  }

  /** Writes the next piece: what is left is rest, what is written already is wrote. */
  method WriteNext(fs: Ramfs, f: RFile, iounit: nat, msize: nat, rest: seq<byte>, offset: nat, ghost flat: seq<byte>,
                   ghost wrote: seq<byte>)
    returns (n: nat, ok: bool)
    requires fs.Shape() && f in fs.files && f.Shown(fs) && f.Tidy(fs.blksz) && rest != []
    requires Opened(iounit, msize) && offset + |rest| <= MAXLEN && offset >= |wrote|
    requires f.Flat(fs.blksz) == Wrote(flat, wrote, offset - |wrote|)
    modifies f, fs, fs.owner.Keys
    ensures fs.Shape() && f.OthersKept(fs) && f.Shown(fs) && f.Tidy(fs.blksz)
    ensures ok <==> |rest| < TWO32 || Low32(|rest|) > iounit
    ensures n == if Low32(|rest|) > iounit then iounit else if ok then |rest| else 0
    ensures n <= |rest| && f.Flat(fs.blksz) == Wrote(flat, wrote + rest[..n], offset - |wrote|)
  {
    n, ok := WriteAt(fs, f, iounit, msize, rest, offset);
    WroteMore(flat, wrote, rest[..n], offset - |wrote|);
  }

  /**
     Writes all of buf and says so, exactly if it is shorter than 2^32; otherwise a piece comes up whose length
     does not fit the 32 bits it is cut by, and the write stops there.
   */
  method Writen(fs: Ramfs, f: RFile, iounit: nat, msize: nat, buf: seq<byte>, offset: nat) returns (ret: nat, ok: bool)
    requires fs.Shape() && f in fs.files && f.Shown(fs) && f.Tidy(fs.blksz)
    requires Opened(iounit, msize) && offset + |buf| <= MAXLEN
    modifies f, fs, fs.owner.Keys
    ensures fs.Shape() && f.OthersKept(fs) && f.Shown(fs) && f.Tidy(fs.blksz)
    ensures ok <==> |buf| < TWO32
    ensures ret <= |buf| && (ok ==> ret == |buf|)
    ensures f.Flat(fs.blksz) == Wrote(old(f.Flat(fs.blksz)), buf[..ret], offset)
  {
    ret, ok := 0, true;
    ghost var flat, wrote := f.Flat(fs.blksz), [];
    var rest := buf;
    while ok && |rest| > 0
      invariant fs.Shape() && f.OthersKept(fs) && f.Shown(fs) && f.Tidy(fs.blksz)
      invariant f.Flat(fs.blksz) == Wrote(flat, wrote, offset)
      invariant buf == wrote + rest && ret == |wrote|
      invariant if ok then |buf| < TWO32 || |rest| >= TWO32 else |buf| >= TWO32
      decreases ok, |rest|
    {
      var n;
      n, ok := WriteNext(fs, f, iounit, msize, rest, offset + ret, flat, wrote);
      Regrouped(buf, wrote, rest, n);
      wrote, rest, ret := wrote + rest[..n], rest[n..], ret + n;
    }
    assert buf[..ret] == wrote;
  }

  /** clnt.Read with the server's answer, at most iounit bytes, copied to buf from at on. */
  method ReadAt(fs: Ramfs, f: RFile, iounit: nat, msize: nat, buf: array<byte>, at: nat, offset: nat) returns (n: nat)
    requires fs.Shape() && f in fs.files && f.Shown(fs) && f.Length <= MAXLEN
    requires buf !in fs.owner && buf != fs.zero
    requires Opened(iounit, msize) && offset < TWO64 && at <= buf.Length
    modifies buf
    ensures fs.Shape() && f.Shown(fs)
    ensures n == if offset > f.Length then 0 else Min(Min(Low32(buf.Length - at), iounit), f.Length - offset)
    ensures at + n <= buf.Length && forall i :: at <= i < at + n ==> buf[i] == f.Flat(fs.blksz)[offset + i - at]
    ensures forall i :: 0 <= i < buf.Length && !(at <= i < at + n) ==> buf[i] == old(buf[i])
  {
    var count := Low32(buf.Length - at);
    if count > iounit {
      count := iounit;
    }
    assert Low32(count + IOHDRSZ) <= msize;  // so the server does not find it too large
    var b := new byte[count](_ => 0);
    n := f.Read(fs, b, offset);
    ghost var part := b[..n];
    assert n > 0 ==> part == f.Flat(fs.blksz)[offset..offset + n];
    Copy(buf, at, b, 0, n);
    assert forall i :: at <= i < at + n ==> buf[i] == part[i - at];
    forall k | 0 <= k < |f.data| ensures f.ShownAt(fs, k) { assert old(f.ShownAt(fs, k)); }
  }

  /**
     Fills buf and says so, exactly if the file reaches that far and buf is shorter than 2^32.  Otherwise the
     answer is end-of-file and no bytes, although some may have been read.
   */
  method Readn(fs: Ramfs, f: RFile, iounit: nat, msize: nat, buf: array<byte>, offset: nat) returns (ret: nat, ok: bool)
    requires fs.Shape() && f in fs.files && f.Shown(fs) && f.Length <= MAXLEN
    requires buf !in fs.owner && buf != fs.zero
    requires Opened(iounit, msize) && offset + buf.Length <= MAXLEN
    modifies buf
    ensures ok <==> buf.Length == 0 || (buf.Length < TWO32 && offset + buf.Length <= f.Length)
    ensures ok ==> ret == buf.Length && (ret > 0 ==> buf[..] == f.Flat(fs.blksz)[offset..offset + ret])
    ensures !ok ==> ret == 0
  {
    ret := 0;
    while ret < buf.Length
      invariant ret <= buf.Length && fs.Shape() && f.Shown(fs)
      invariant ret > 0 ==> offset + ret <= f.Length
      invariant forall i :: 0 <= i < ret ==> buf[i] == f.Flat(fs.blksz)[offset + i]
      invariant buf.Length >= TWO32 ==> buf.Length - ret >= TWO32
    {
      var n := ReadAt(fs, f, iounit, msize, buf, ret, offset + ret);
      if n == 0 {
        return 0, false;
      }
      ret := ret + n;
    }
    ok := true;
  }
}
