/**
 The printers of p/packt.go and p/packr.go: they compute the size of a message first, refuse if the
 buffer is smaller, and then write field after field into the buffer.
 */
module Packer {
  import opened Common
  import opened Codec

  function Header(size: u32, typ: byte, tag: u16): (h: seq<byte>)
    ensures |h| == 7
  {
    P32(size) + ([typ] + P16(tag))
  }

  lemma PacketIsHeaderAndBody(m: Msg, dotu: bool, tag: u16)
    requires Size(m, dotu) < 0x1_0000_0000
    ensures Packet(m, dotu, tag) == Header(Size(m, dotu), TypeOf(m), tag) + Body(m, dotu)
  {
  }

  lemma Bytes2(v: nat)
    ensures Bytes(v, 2) == [v % 256, v / 256 % 256]
  {
    assert Bytes(v / 256, 1) == [v / 256 % 256] + Bytes(v / 256 / 256, 0);
  }

  lemma BytesSplit(v: nat, n: nat)
    requires n >= 2
    ensures Bytes(v, n) == [v % 256, v / 256 % 256] + Bytes(v / 0x1_0000, n - 2)
  {
    assert v / 256 / 256 == v / 0x1_0000;
    assert Bytes(v / 256, n - 1) == [v / 256 % 256] + Bytes(v / 0x1_0000, n - 2);
  }

  /** What becomes of making room for data: Go panics if a slice ends before it starts. */
  datatype Room = Ready | TooSmall | Panicked

  lemma ReadPacket(size: u32, mid: seq<byte>, count: u32, data: seq<byte>)
    requires size == 11 + count && |data| == count && |mid| == 3
    ensures mid == [117] + P16(NOTAG) ==>
              P32(size) + mid + P32(count) + data == Packet(Rread(count, data), false, NOTAG)
  {
    if mid == [117] + P16(NOTAG) {
      PacketIsHeaderAndBody(Rread(count, data), false, NOTAG);
      Right2(P32(size), [117], P16(NOTAG));
      Right2(Header(size, 117, NOTAG), P32(count), data);
    }
  }

  class Fcall {
    const buf: array<byte>
    var pkt: nat                // Pkt is buf[..pkt]
    var data: nat               // Data is buf[11..11 + data], if there is any

    constructor (sz: u32)
      ensures Valid() && buf.Length == sz && pkt == 0 && data == 0 && fresh(buf)
    {
      buf := new byte[sz](_ => 0);
      pkt, data := 0, 0;
    }

    ghost predicate Valid()
      reads this
    {
      pkt <= buf.Length < 0x1_0000_0000 && (data > 0 ==> 11 + data <= buf.Length)
    }

    function Pkt(): seq<byte>
      requires Valid()
      reads this, buf
    {
      buf[..pkt]
    }

    /* ---- fields: each is written at p and returns where the next one goes ---- */

    method PInt8(v: byte, p: nat) returns (q: nat)
      requires p + 1 <= buf.Length
      modifies buf
      ensures q == p + 1 && buf[..q] == old(buf[..p]) + [v]
      ensures forall i :: 0 <= i < buf.Length && i != p ==> buf[i] == old(buf[i])
    {
      buf[p] := v;
      q := p + 1;
    }

    method PInt16(v: u16, p: nat) returns (q: nat)
      requires p + 2 <= buf.Length
      modifies buf
      ensures q == p + 2 && buf[..q] == old(buf[..p]) + P16(v)
      ensures forall i :: 0 <= i < buf.Length && !(p <= i < q) ==> buf[i] == old(buf[i])
    {
      Bytes2(v);
      buf[p] := v % 256;
      buf[p + 1] := v / 256 % 256;
      q := p + 2;
    }

    method PInt32(v: u32, p: nat) returns (q: nat)
      requires p + 4 <= buf.Length
      modifies buf
      ensures q == p + 4 && buf[..q] == old(buf[..p]) + P32(v)
      ensures forall i :: 0 <= i < buf.Length && !(p <= i < q) ==> buf[i] == old(buf[i])
    {
      BytesSplit(v, 4);
      Bytes2(v / 0x1_0000);
      buf[p] := v % 256;
      buf[p + 1] := v / 256 % 256;
      buf[p + 2] := v / 0x1_0000 % 256;
      buf[p + 3] := v / 0x1_0000 / 256 % 256;
      q := p + 4;
    }

    method PInt64(v: u64, p: nat) returns (q: nat)
      requires p + 8 <= buf.Length
      modifies buf
      ensures q == p + 8 && buf[..q] == old(buf[..p]) + P64(v)
      ensures forall i :: 0 <= i < buf.Length && !(p <= i < q) ==> buf[i] == old(buf[i])
    {
      var v2: nat := v / 0x1_0000;
      var v4: nat := v2 / 0x1_0000;
      var v6: nat := v4 / 0x1_0000;
      BytesSplit(v, 8);
      BytesSplit(v2, 6);
      BytesSplit(v4, 4);
      Bytes2(v6);
      buf[p], buf[p + 1] := v % 256, v / 256 % 256;
      buf[p + 2], buf[p + 3] := v2 % 256, v2 / 256 % 256;
      buf[p + 4], buf[p + 5] := v4 % 256, v4 / 256 % 256;
      buf[p + 6], buf[p + 7] := v6 % 256, v6 / 256 % 256;
      q := p + 8;
    }

    /** The built-in copy. */
    method PData(s: seq<byte>, p: nat) returns (q: nat)
      requires p + |s| <= buf.Length
      modifies buf
      ensures q == p + |s| && buf[..q] == old(buf[..p]) + s
      ensures forall i :: 0 <= i < buf.Length && !(p <= i < q) ==> buf[i] == old(buf[i])
    {
      forall k | p <= k < p + |s| {
        buf[k] := s[k - p];
      }
      q := p + |s|;
    }

    method PString(s: Text, p: nat) returns (q: nat)
      requires p + 2 + |s| <= buf.Length
      modifies buf
      ensures q == p + 2 + |s| && buf[..q] == old(buf[..p]) + PStr(s)
      ensures forall i :: 0 <= i < buf.Length && !(p <= i < q) ==> buf[i] == old(buf[i])
    {
      q := PInt16(|s|, p);
      q := PData(s, q);
      assert old(buf[..p]) + P16(|s|) + s == old(buf[..p]) + PStr(s);
    }

    method PutQid(qid: Qid, p: nat) returns (q: nat)
      requires p + 13 <= buf.Length
      modifies buf
      ensures q == p + 13 && buf[..q] == old(buf[..p]) + PQid(qid)
      ensures forall i :: 0 <= i < buf.Length && !(p <= i < q) ==> buf[i] == old(buf[i])
    {
      q := PInt8(qid.typ, p);
      q := PInt32(qid.version, q);
      q := PInt64(qid.path, q);
      assert old(buf[..p]) + [qid.typ] + P32(qid.version) + P64(qid.path) == old(buf[..p]) + PQid(qid);
    }

    /** A number that only 9P2000.u has. */
    method PInt32U(v: u32, p: nat, dotu: bool) returns (q: nat)
      requires p + |Only(dotu, P32(v))| <= buf.Length
      modifies buf
      ensures q == p + |Only(dotu, P32(v))| && buf[..q] == old(buf[..p]) + Only(dotu, P32(v))
    {
      q := p;
      if dotu {
        q := PInt32(v, p);
      }
    }

    /** A string that only 9P2000.u has. */
    method PStringU(s: Text, p: nat, dotu: bool) returns (q: nat)
      requires p + |Only(dotu, PStr(s))| <= buf.Length
      modifies buf
      ensures q == p + |Only(dotu, PStr(s))| && buf[..q] == old(buf[..p]) + Only(dotu, PStr(s))
    {
      q := p;
      if dotu {
        q := PString(s, p);
      }
    }

    method PutNames(wnames: seq<Text>, p: nat) returns (q: nat)
      requires p + |PNames(wnames)| <= buf.Length
      modifies buf
      ensures q == p + |PNames(wnames)| && buf[..q] == old(buf[..p]) + PNames(wnames)
    {
      q := p;
      for i := 0 to |wnames|
        invariant q == p + |PNames(wnames[..i])| && |PNames(wnames[..i])| <= |PNames(wnames)|
        invariant buf[..q] == old(buf[..p]) + PNames(wnames[..i])
      {
        assert wnames[..i + 1] == wnames[..i] + [wnames[i]] && wnames == wnames[..i + 1] + wnames[i + 1..];
        NamesSnoc(wnames[..i], wnames[i]);
        NamesConcat(wnames[..i + 1], wnames[i + 1..]);
        q := PString(wnames[i], q);
        Right2(old(buf[..p]), PNames(wnames[..i]), PStr(wnames[i]));
      }
      assert wnames[..|wnames|] == wnames;
    }

    method PutQids(wqids: seq<Qid>, p: nat) returns (q: nat)
      requires p + 13 * |wqids| <= buf.Length
      modifies buf
      ensures q == p + 13 * |wqids| && buf[..q] == old(buf[..p]) + PQids(wqids)
    {
      q := p;
      for i := 0 to |wqids|
        invariant q == p + 13 * i
        invariant buf[..q] == old(buf[..p]) + PQids(wqids[..i])
      {
        assert wqids[..i + 1] == wqids[..i] + [wqids[i]];
        QidsSnoc(wqids[..i], wqids[i]);
        q := PutQid(wqids[i], q);
        Right2(old(buf[..p]), PQids(wqids[..i]), PQid(wqids[i]));
      }
      assert wqids[..|wqids|] == wqids;
    }

    method PackCommon(size: nat, typ: byte) returns (ok: bool, p: nat)
      requires Valid()
      modifies this, buf
      ensures Valid() && ok == (7 + size <= buf.Length) && data == old(data)
      ensures !ok ==> unchanged(this) && unchanged(buf)
      ensures ok ==> p == 7 && pkt == 7 + size && buf[..7] == Header(7 + size, typ, NOTAG)
    {
      var sz := size + 7;
      if buf.Length < sz {
        return false, 0;
      }
      p := PInt32(sz, 0);
      p := PInt8(typ, p);
      p := PInt16(NOTAG, p);
      assert [] + P32(sz) + [typ] + P16(NOTAG) == Header(sz, typ, NOTAG);
      pkt := sz;
      ok := true;
    }

    method SetTag(tag: u16, ghost m: Msg, ghost dotu: bool, ghost was: u16)
      requires Valid() && Size(m, dotu) < 0x1_0000_0000 && Pkt() == Packet(m, dotu, was)
      modifies buf
      ensures Valid() && Pkt() == Packet(m, dotu, tag)
    {
      var q := PInt16(tag, 5);
      assert Pkt()[..7] == buf[..q] && old(Pkt())[..5] == old(buf[..5]);
      Retagged(old(Pkt()), Pkt(), P32(Size(m, dotu)), TypeOf(m), P16(was), P16(tag), Body(m, dotu));
    }

    /** The packet is in the buffer, or the buffer is too small and nothing changed. */
    twostate predicate Packed(ok: bool, m: Msg, dotu: bool)
      requires Size(m, dotu) < 0x1_0000_0000
      reads this, buf
    {
      && Valid() && ok == (Size(m, dotu) <= buf.Length)
      && if ok then Pkt() == Packet(m, dotu, NOTAG) else unchanged(this) && unchanged(buf)
    }

    /* ---- messages; those that differ only in their type share a method ---- */

    method PackVersion(m: Msg, ghost dotu: bool) returns (ok: bool)
      requires Valid() && Packable(m, dotu) && (m.Tversion? || m.Rversion?)
      modifies this, buf
      ensures Packed(ok, m, dotu)
    {
      var size, p := 4 + 2 + |m.version|, 0;
      ok, p := PackCommon(size, TypeOf(m));
      if !ok { return; }
      p := PInt32(m.msize, p);
      p := PString(m.version, p);
      PacketIsHeaderAndBody(m, dotu, NOTAG);
      Right2(Header(7 + size, TypeOf(m), NOTAG), P32(m.msize), PStr(m.version));
    }

    method PackTauth(fid: u32, uname: Text, aname: Text, unamenum: u32, dotu: bool) returns (ok: bool)
      requires Valid() && Packable(Tauth(fid, uname, aname, unamenum), dotu)
      modifies this, buf
      ensures Packed(ok, Tauth(fid, uname, aname, unamenum), dotu)
    {
      var size, p := 4 + 2 + 2 + |uname| + |aname|, 0;
      if dotu {
        size := size + 4;
      }
      ghost var tail := Only(dotu, P32(unamenum));
      TauthPacket(fid, uname, aname, unamenum, dotu, tail);
      ok, p := PackCommon(size, 102);
      if !ok { return; }
      p := PutAuth(fid, uname, aname, unamenum, dotu, p);
      PacketIsHeaderAndBody(Tauth(fid, uname, aname, unamenum), dotu, NOTAG);
    }

    /** The fields of a Tauth. */
    method PutAuth(fid: u32, uname: Text, aname: Text, unamenum: u32, dotu: bool, p: nat) returns (q: nat)
      requires p + 8 + |uname| + |aname| + |Only(dotu, P32(unamenum))| <= buf.Length
      modifies buf
      ensures q == p + 8 + |uname| + |aname| + |Only(dotu, P32(unamenum))|
      ensures buf[..q] == old(buf[..p]) + (P32(fid) + (PStr(uname) + (PStr(aname) + Only(dotu, P32(unamenum)))))
    {
      q := PInt32(fid, p);
      q := PString(uname, q);
      q := PString(aname, q);
      q := PInt32U(unamenum, q, dotu);
      Right4(old(buf[..p]), P32(fid), PStr(uname), PStr(aname), Only(dotu, P32(unamenum)));
    }

    method PackTattach(fid: u32, afid: u32, uname: Text, aname: Text, unamenum: u32, dotu: bool) returns (ok: bool)
      requires Valid() && Packable(Tattach(fid, afid, uname, aname, unamenum), dotu)
      modifies this, buf
      ensures Packed(ok, Tattach(fid, afid, uname, aname, unamenum), dotu)
    {
      var size, p := 4 + 4 + 2 + |uname| + 2 + |aname|, 0;
      if dotu {
        size := size + 4;
      }
      ghost var tail := Only(dotu, P32(unamenum));
      TattachPacket(fid, afid, uname, aname, unamenum, dotu, tail);
      ok, p := PackCommon(size, 104);
      if !ok { return; }
      p := PutAttach(fid, afid, uname, aname, unamenum, dotu, p);
      PacketIsHeaderAndBody(Tattach(fid, afid, uname, aname, unamenum), dotu, NOTAG);
    }

    /** The fields of a Tattach. */
    method PutAttach(fid: u32, afid: u32, uname: Text, aname: Text, unamenum: u32, dotu: bool, p: nat) returns (q: nat)
      requires p + 12 + |uname| + |aname| + |Only(dotu, P32(unamenum))| <= buf.Length
      modifies buf
      ensures q == p + 12 + |uname| + |aname| + |Only(dotu, P32(unamenum))|
      ensures buf[..q] ==
              old(buf[..p]) + (P32(fid) + (P32(afid) + (PStr(uname) + (PStr(aname) + Only(dotu, P32(unamenum))))))
    {
      q := PInt32(fid, p);
      q := PInt32(afid, q);
      q := PString(uname, q);
      q := PString(aname, q);
      q := PInt32U(unamenum, q, dotu);
      Right5(old(buf[..p]), P32(fid), P32(afid), PStr(uname), PStr(aname), Only(dotu, P32(unamenum)));
    }

    method PackTflush(oldtag: u16, ghost dotu: bool) returns (ok: bool)
      requires Valid()
      modifies this, buf
      ensures Packed(ok, Tflush(oldtag), dotu)
    {
      var p;
      ok, p := PackCommon(2, 108);
      if !ok { return; }
      p := PInt16(oldtag, p);
      PacketIsHeaderAndBody(Tflush(oldtag), dotu, NOTAG);
    }

    method PackTwalk(fid: u32, newfid: u32, wnames: seq<Text>, ghost dotu: bool) returns (ok: bool)
      requires Valid() && Packable(Twalk(fid, newfid, wnames), dotu)
      modifies this, buf
      ensures Packed(ok, Twalk(fid, newfid, wnames), dotu)
    {
      var nwname := |wnames|;
      var size, p := 4 + 4 + 2 + nwname * 2, 0;
      for i := 0 to nwname
        modifies {}
        invariant size == 10 + 2 * nwname - 2 * i + |PNames(wnames[..i])|
      {
        assert wnames[..i + 1] == wnames[..i] + [wnames[i]];
        NamesSnoc(wnames[..i], wnames[i]);
        size := size + |wnames[i]|;
      }
      assert wnames[..nwname] == wnames;
      TwalkPacket(fid, newfid, wnames, dotu, nwname, PNames(wnames));
      ok, p := PackCommon(size, 110);
      if !ok { return; }
      p := PInt32(fid, p);
      p := PInt32(newfid, p);
      p := PInt16(nwname, p);
      p := PutNames(wnames, p);
      PacketIsHeaderAndBody(Twalk(fid, newfid, wnames), dotu, NOTAG);
      Right4(Header(7 + size, 110, NOTAG), P32(fid), P32(newfid), P16(nwname), PNames(wnames));
    }

    method PackTopen(fid: u32, mode: byte, ghost dotu: bool) returns (ok: bool)
      requires Valid()
      modifies this, buf
      ensures Packed(ok, Topen(fid, mode), dotu)
    {
      var p;
      ok, p := PackCommon(4 + 1, 112);
      if !ok { return; }
      p := PInt32(fid, p);
      p := PInt8(mode, p);
      PacketIsHeaderAndBody(Topen(fid, mode), dotu, NOTAG);
      Right2(Header(12, 112, NOTAG), P32(fid), [mode]);
    }

    method PackTcreate(fid: u32, name: Text, perm: u32, mode: byte, ext: Text, dotu: bool) returns (ok: bool)
      requires Valid() && Packable(Tcreate(fid, name, perm, mode, ext), dotu)
      modifies this, buf
      ensures Packed(ok, Tcreate(fid, name, perm, mode, ext), dotu)
    {
      var size, p := 4 + 2 + |name| + 4 + 1, 0;
      if dotu {
        size := size + 2 + |ext|;
      }
      ghost var tail := Only(dotu, PStr(ext));
      TcreatePacket(fid, name, perm, mode, ext, dotu, tail);
      ok, p := PackCommon(size, 114);
      if !ok { return; }
      p := PutCreate(fid, name, perm, mode, ext, dotu, p);
      PacketIsHeaderAndBody(Tcreate(fid, name, perm, mode, ext), dotu, NOTAG);
    }

    /** The fields of a Tcreate. */
    method PutCreate(fid: u32, name: Text, perm: u32, mode: byte, ext: Text, dotu: bool, p: nat) returns (q: nat)
      requires p + 11 + |name| + |Only(dotu, PStr(ext))| <= buf.Length
      modifies buf
      ensures q == p + 11 + |name| + |Only(dotu, PStr(ext))|
      ensures buf[..q] == old(buf[..p]) + (P32(fid) + (PStr(name) + (P32(perm) + ([mode] + Only(dotu, PStr(ext))))))
    {
      q := PInt32(fid, p);
      q := PString(name, q);
      q := PInt32(perm, q);
      q := PInt8(mode, q);
      q := PStringU(ext, q, dotu);
      Right5(old(buf[..p]), P32(fid), PStr(name), P32(perm), [mode], Only(dotu, PStr(ext)));
    }

    method PackTread(fid: u32, offset: u64, count: u32, ghost dotu: bool) returns (ok: bool)
      requires Valid()
      modifies this, buf
      ensures Packed(ok, Tread(fid, offset, count), dotu)
    {
      var p;
      ok, p := PackCommon(4 + 8 + 4, 116);
      if !ok { return; }
      p := PInt32(fid, p);
      p := PInt64(offset, p);
      p := PInt32(count, p);
      PacketIsHeaderAndBody(Tread(fid, offset, count), dotu, NOTAG);
      Right3(Header(23, 116, NOTAG), P32(fid), P64(offset), P32(count));
    }

    /** The number written is count, whatever the length of the data. */
    method PackTwrite(fid: u32, offset: u64, count: u32, data: seq<byte>, ghost dotu: bool) returns (ok: bool)
      requires Valid() && Packable(Twrite(fid, offset, count, data), dotu)
      modifies this, buf
      ensures Packed(ok, Twrite(fid, offset, count, data), dotu)
    {
      var size, p := 4 + 8 + 4 + |data|, 0;
      ok, p := PackCommon(size, 118);
      if !ok { return; }
      p := PInt32(fid, p);
      p := PInt64(offset, p);
      p := PInt32(count, p);
      p := PData(data, p);
      PacketIsHeaderAndBody(Twrite(fid, offset, count, data), dotu, NOTAG);
      Right4(Header(7 + size, 118, NOTAG), P32(fid), P64(offset), P32(count), data);
    }

    /** Tclunk, Tremove, Tstat and Rwrite. */
    method PackNumber(m: Msg, ghost dotu: bool) returns (ok: bool)
      requires Valid() && (m.Tclunk? || m.Tremove? || m.Tstat? || m.Rwrite?)
      modifies this, buf
      ensures Packed(ok, m, dotu)
    {
      var p;
      ok, p := PackCommon(4, TypeOf(m));
      if !ok { return; }
      p := PInt32(if m.Rwrite? then m.count else m.fid, p);
      PacketIsHeaderAndBody(m, dotu, NOTAG);
    }

    method PackRerror(error: Text, errornum: u32, dotu: bool) returns (ok: bool)
      requires Valid() && Packable(Rerror(error, errornum), dotu)
      modifies this, buf
      ensures Packed(ok, Rerror(error, errornum), dotu)
    {
      var size, p := 2 + |error|, 0;
      if dotu {
        size := size + 4;
      }
      ok, p := PackCommon(size, 107);
      if !ok { return; }
      p := PString(error, p);
      p := PInt32U(errornum, p, dotu);
      PacketIsHeaderAndBody(Rerror(error, errornum), dotu, NOTAG);
      Right2(Header(7 + size, 107, NOTAG), PStr(error), Only(dotu, P32(errornum)));
    }

    /** Rauth and Rattach. */
    method PackQid(m: Msg, ghost dotu: bool) returns (ok: bool)
      requires Valid() && (m.Rauth? || m.Rattach?)
      modifies this, buf
      ensures Packed(ok, m, dotu)
    {
      var p;
      ok, p := PackCommon(13, TypeOf(m));
      if !ok { return; }
      p := PutQid(m.qid, p);
      PacketIsHeaderAndBody(m, dotu, NOTAG);
    }

    method PackRwalk(wqids: seq<Qid>, ghost dotu: bool) returns (ok: bool)
      requires Valid() && Packable(Rwalk(wqids), dotu)
      modifies this, buf
      ensures Packed(ok, Rwalk(wqids), dotu)
    {
      var nwqid := |wqids|;
      var size, p := 2 + nwqid * 13, 0;
      ok, p := PackCommon(size, 111);
      if !ok { return; }
      p := PInt16(nwqid, p);
      p := PutQids(wqids, p);
      PacketIsHeaderAndBody(Rwalk(wqids), dotu, NOTAG);
      Right2(Header(7 + size, 111, NOTAG), P16(nwqid), PQids(wqids));
    }

    /** Ropen and Rcreate. */
    method PackOpened(m: Msg, ghost dotu: bool) returns (ok: bool)
      requires Valid() && (m.Ropen? || m.Rcreate?)
      modifies this, buf
      ensures Packed(ok, m, dotu)
    {
      var p;
      ok, p := PackCommon(13 + 4, TypeOf(m));
      if !ok { return; }
      p := PutQid(m.qid, p);
      p := PInt32(m.iounit, p);
      PacketIsHeaderAndBody(m, dotu, NOTAG);
      Right2(Header(24, TypeOf(m), NOTAG), PQid(m.qid), P32(m.iounit));
    }

    /**
     Room for count bytes, to be filled in at Data, from 11 on.  The size is computed in 32 bits: from 2^32 - 4 on it
     wraps to a small packet, and Data would end before it starts.
     */
    method InitRread(count: u32) returns (r: Room)
      requires Valid()
      modifies this, buf
      ensures Valid()
      ensures r.TooSmall? <==> 7 + Low32(4 + count) > buf.Length
      ensures r.Panicked? <==> count >= 0xFFFF_FFFC && 7 + Low32(4 + count) <= buf.Length
      ensures r.TooSmall? ==> unchanged(this) && unchanged(buf)
      ensures r.Panicked? ==> pkt == 7 + Low32(4 + count) <= 10 && buf[..7] == Header(pkt, 117, NOTAG)
      ensures r.Ready? ==>
                && pkt == 11 + count && data == count && buf[..11] == Header(11 + count, 117, NOTAG) + P32(count)
                && buf[4..7] == [117] + P16(NOTAG)
    {
      var ok, p := PackCommon(Low32(4 + count), 117);
      if !ok {
        return TooSmall;
      }
      if Low32(4 + count) < 4 {
        return Panicked;
      }
      data := count;
      assert buf[4..7] == buf[..7][4..7] == [117] + P16(NOTAG);
      p := PInt32(count, p);
      r := Ready;
    }

    /**
     Cuts a reply to the count bytes that were filled in.  Type and tag stay what they are; it panics if there is no
     packet as long as the header of an Rread.
     */
    method SetRreadCount(count: u32) returns (ok: bool)
      requires Valid() && count <= data
      modifies this, buf
      ensures Valid() && ok == (old(pkt) >= 11)
      ensures ok ==> data == count && pkt == 11 + count && buf[4..7] == old(buf[4..7])
      ensures ok ==> Pkt() == P32(11 + count) + old(buf[4..7]) + P32(count) + old(buf[11..11 + count])
      ensures ok && old(buf[4..7]) == [117] + P16(NOTAG) ==>
                Pkt() == Packet(Rread(count, old(buf[11..11 + count])), false, NOTAG)
    {
      if pkt < 11 {
        return false;
      }
      var size := 4 + 1 + 2 + 4 + count;
      ghost var was := buf[11..11 + count];
      ghost var mid := buf[4..7];
      var p := PInt32(size, 0);
      assert buf[..7] == buf[..4] + mid;
      p := PInt32(count, 7);
      pkt, data := size, count;
      assert buf[11..size] == was && buf[4..7] == mid;
      assert Pkt() == buf[..11] + buf[11..size];
      ReadPacket(size, mid, count, was);
      ok := true;
    }

    /** One more than 32 bits can count is cut, and so is the data. */
    method PackRread(s: seq<byte>, ghost dotu: bool) returns (r: Room)
      requires Valid()
      modifies this, buf
      ensures Valid()
      ensures r.Ready? <==> 11 + Low32(|s|) <= buf.Length
      ensures r.Panicked? <==> Low32(|s|) >= 0xFFFF_FFFC && 7 + Low32(4 + Low32(|s|)) <= buf.Length
      ensures r.TooSmall? ==> unchanged(this) && unchanged(buf)
      ensures r.Ready? ==> Low32(|s|) <= |s| && Pkt() == Packet(Rread(Low32(|s|), s[..Low32(|s|)]), dotu, NOTAG)
    {
      var count := Low32(|s|);
      r := InitRread(count);
      if !r.Ready? { return; }
      var p := PData(s[..count], 11);
      PacketIsHeaderAndBody(Rread(count, s[..count]), dotu, NOTAG);
      Right2(Header(11 + count, 117, NOTAG), P32(count), s[..count]);
    }

    /** Rflush, Rclunk, Rremove and Rwstat. */
    method PackEmpty(m: Msg, ghost dotu: bool) returns (ok: bool)
      requires Valid() && (m.Rflush? || m.Rclunk? || m.Rremove? || m.Rwstat?)
      modifies this, buf
      ensures Packed(ok, m, dotu)
    {
      var p;
      ok, p := PackCommon(0, TypeOf(m));
      PacketIsHeaderAndBody(m, dotu, NOTAG);
    }

    method PutStatU(d: Dir, p: nat, dotu: bool) returns (q: nat)
      requires p + |PStatU(d, dotu)| <= buf.Length
      modifies buf
      ensures q == p + |PStatU(d, dotu)| && buf[..q] == old(buf[..p]) + PStatU(d, dotu)
    {
      q := p;
      if dotu {
        q := PString(d.ext, q);
        q := PInt32(d.uidnum, q);
        q := PInt32(d.gidnum, q);
        q := PInt32(d.muidnum, q);
        Right4(old(buf[..p]), PStr(d.ext), P32(d.uidnum), P32(d.gidnum), P32(d.muidnum));
      }
    }

    method PutStatNames(d: Dir, p: nat, dotu: bool) returns (q: nat)
      requires p + |PStatNames(d, dotu)| <= buf.Length
      modifies buf
      ensures q == p + |PStatNames(d, dotu)| && buf[..q] == old(buf[..p]) + PStatNames(d, dotu)
    {
      q := PString(d.name, p);
      q := PString(d.uid, q);
      q := PString(d.gid, q);
      q := PString(d.muid, q);
      q := PutStatU(d, q, dotu);
      Right5(old(buf[..p]), PStr(d.name), PStr(d.uid), PStr(d.gid), PStr(d.muid), PStatU(d, dotu));
    }

    /** pstat. */
    method PutStat(d: Dir, p: nat, dotu: bool) returns (q: nat)
      requires p + StatSize(d, dotu) <= buf.Length
      modifies buf
      ensures q == p + StatSize(d, dotu) && buf[..q] == old(buf[..p]) + PStat(d, dotu)
    {
      var sz := StatSize(d, dotu);
      q := PInt16(Low16(sz - 2), p);
      q := PInt16(d.typ, q);
      q := PInt32(d.dev, q);
      q := PutQid(d.qid, q);
      q := PInt32(d.mode, q);
      ghost var b4 := old(buf[..p]) + P16(Low16(sz - 2)) + P16(d.typ) + P32(d.dev) + PQid(d.qid) + P32(d.mode);
      assert buf[..q] == b4;
      q := PInt32(d.atime, q);
      q := PInt32(d.mtime, q);
      q := PInt64(d.length, q);
      q := PutStatNames(d, q, dotu);
      Right4(b4, P32(d.atime), P32(d.mtime), P64(d.length), PStatNames(d, dotu));
      ghost var tail := P32(d.atime) + (P32(d.mtime) + (P64(d.length) + PStatNames(d, dotu)));
      Right6(old(buf[..p]), P16(Low16(sz - 2)), P16(d.typ), P32(d.dev), PQid(d.qid), P32(d.mode), tail);
    }

    method PackRstat(d: Dir, dotu: bool) returns (ok: bool)
      requires Valid() && Packable(Rstat(d), dotu)
      modifies this, buf
      ensures Packed(ok, Rstat(d), dotu)
    {
      var stsz := StatSize(d, dotu);
      var p;
      RstatPacket(d, dotu);
      ok, p := PackCommon(2 + stsz, 125);
      if !ok { return; }
      p := PInt16(stsz, p);
      p := PutStat(d, p, dotu);
      Right2(Header(9 + stsz, 125, NOTAG), P16(stsz), PStat(d, dotu));
    }

    method PackTwstat(fid: u32, d: Dir, dotu: bool) returns (ok: bool)
      requires Valid() && Packable(Twstat(fid, d), dotu)
      modifies this, buf
      ensures Packed(ok, Twstat(fid, d), dotu)
    {
      var stsz := StatSize(d, dotu);
      var p;
      ok, p := PackCommon(4 + 2 + stsz, 126);
      if !ok { return; }
      p := PInt32(fid, p);
      p := PInt16(stsz, p);
      p := PutStat(d, p, dotu);
      PacketIsHeaderAndBody(Twstat(fid, d), dotu, NOTAG);
      Right3(Header(13 + stsz, 126, NOTAG), P32(fid), P16(stsz), PStat(d, dotu));
    }
  }

  lemma TauthPacket(fid: u32, uname: Text, aname: Text, unamenum: u32, dotu: bool, tail: seq<byte>)
    requires tail == Only(dotu, P32(unamenum))
    ensures Body(Tauth(fid, uname, aname, unamenum), dotu) == P32(fid) + (PStr(uname) + (PStr(aname) + tail))
  {
  }

  lemma TattachPacket(fid: u32, afid: u32, uname: Text, aname: Text, unamenum: u32, dotu: bool, tail: seq<byte>)
    requires tail == Only(dotu, P32(unamenum))
    ensures Body(Tattach(fid, afid, uname, aname, unamenum), dotu) ==
            P32(fid) + (P32(afid) + (PStr(uname) + (PStr(aname) + tail)))
  {
  }

  lemma TcreatePacket(fid: u32, name: Text, perm: u32, mode: byte, ext: Text, dotu: bool, tail: seq<byte>)
    requires tail == Only(dotu, PStr(ext))
    ensures Body(Tcreate(fid, name, perm, mode, ext), dotu) == P32(fid) + (PStr(name) + (P32(perm) + ([mode] + tail)))
  {
  }

  lemma TwalkPacket(fid: u32, newfid: u32, wname: seq<Text>, dotu: bool, n: u16, names: seq<byte>)
    requires |wname| == n && names == PNames(wname)
    ensures Size(Twalk(fid, newfid, wname), dotu) == 17 + |names|
    ensures Body(Twalk(fid, newfid, wname), dotu) == P32(fid) + (P32(newfid) + (P16(n) + names))
  {
    assert Low16(|wname|) == n;
  }

  lemma RstatPacket(d: Dir, dotu: bool)
    requires Packable(Rstat(d), dotu)
    ensures var stsz := StatSize(d, dotu);
            && Size(Rstat(d), dotu) == 9 + stsz
            && Packet(Rstat(d), dotu, NOTAG) == Header(9 + stsz, 125, NOTAG) + (P16(stsz) + PStat(d, dotu))
  {
    PacketIsHeaderAndBody(Rstat(d), dotu, NOTAG);
  }

  lemma {:induction false} NamesConcat(a: seq<Text>, b: seq<Text>)
    ensures PNames(a + b) == PNames(a) + PNames(b)
  {
    if a == [] {
      assert a + b == b;
    } else {
      assert (a + b)[1..] == a[1..] + b;
      NamesConcat(a[1..], b);
      Right2(PStr(a[0]), PNames(a[1..]), PNames(b));
    }
  }

  lemma NamesSnoc(a: seq<Text>, s: Text)
    ensures PNames(a + [s]) == PNames(a) + PStr(s)
  {
    NamesConcat(a, [s]);
    assert PNames([s][1..]) == [];
    assert PStr(s) + [] == PStr(s);
  }

  lemma {:induction false} QidsSnoc(a: seq<Qid>, q: Qid)
    ensures PQids(a + [q]) == PQids(a) + PQid(q)
  {
    if a == [] {
      assert PQids(([] + [q])[1..]) == [];
      assert PQid(q) + [] == PQid(q) && [] + PQid(q) == PQid(q);
    } else {
      assert (a + [q])[1..] == a[1..] + [q];
      QidsSnoc(a[1..], q);
      Right2(PQid(a[0]), PQids(a[1..]), PQid(q));
    }
  }

  lemma Right5(h: seq<byte>, a: seq<byte>, b: seq<byte>, c: seq<byte>, d: seq<byte>, e: seq<byte>)
    ensures h + a + b + c + d + e == h + (a + (b + (c + (d + e))))
  {
  }

  lemma Right6(h: seq<byte>, a: seq<byte>, b: seq<byte>, c: seq<byte>, d: seq<byte>, e: seq<byte>, f: seq<byte>)
    ensures h + a + b + c + d + e + f == h + (a + (b + (c + (d + (e + f)))))
  {
    Right5(h + a, b, c, d, e, f);
    Right2(h, a, b + (c + (d + (e + f))));
  }

  lemma Right2(h: seq<byte>, a: seq<byte>, b: seq<byte>)
    ensures h + a + b == h + (a + b)
  {
  }

  lemma Right3(h: seq<byte>, a: seq<byte>, b: seq<byte>, c: seq<byte>)
    ensures h + a + b + c == h + (a + (b + c))
  {
  }

  lemma Right4(h: seq<byte>, a: seq<byte>, b: seq<byte>, c: seq<byte>, d: seq<byte>)
    ensures h + a + b + c + d == h + (a + (b + (c + d)))
  {
  }

  lemma Retagged(s: seq<byte>, s': seq<byte>, size: seq<byte>, typ: byte, was: seq<byte>, tag: seq<byte>,
                 body: seq<byte>)
    requires |size| == 4 && |was| == |tag| == 2 && |s'| == |s|
    requires s == size + ([typ] + (was + body)) && s'[..7] == s[..5] + tag
    requires forall i :: 7 <= i < |s| ==> s'[i] == s[i]
    ensures s' == size + ([typ] + (tag + body))
  {
    assert s[..5] == size + [typ] && s[7..] == body;
    assert s' == s'[..7] + s'[7..] && s'[7..] == body;
  }
}
