/**
 Listing a directory: the server packs whole entries into replies and keeps the rest for later
 (p/srv/file.go, p/srv/fcall.go), the client reads until nothing more comes and unpacks
 (p/clnt/read.go, p/p9.go).
 */
module DirList {
  import opened Common
  import opened Codec
  import Packer
  import WireFormat

  const IOHDRSZ := 24

  /** How entries are printed and parsed; a parser also says how many bytes it took. */
  datatype Format = Format(pack: Dir -> seq<byte>, unpack: seq<byte> -> Option<(Dir, nat)>, wire: Dir -> Dir)

  ghost predicate SoundFor(f: Format, d: Dir, r: seq<byte>) {
    |f.pack(d)| > 0 && f.unpack(f.pack(d) + r) == Some((f.wire(d), |f.pack(d)|))
  }

  /** These entries can be parsed back, whatever follows them. */
  ghost predicate Sound(f: Format, dirs: seq<Dir>) {
    forall i, r :: 0 <= i < |dirs| ==> SoundFor(f, dirs[i], r)
  }

  /** How many entries go into room bytes. */
  function Fitting(f: Format, dirs: seq<Dir>, room: nat): (k: nat)
    ensures k <= |dirs|
  {
    if dirs == [] || |f.pack(dirs[0])| > room then 0 else 1 + Fitting(f, dirs[1..], room - |f.pack(dirs[0])|)
  }

  /** Entries one after the other. */
  function Packed(f: Format, dirs: seq<Dir>): seq<byte> {
    if dirs == [] then [] else f.pack(dirs[0]) + Packed(f, dirs[1..])
  }

  /** What a client can know of the entries. */
  function Seen(f: Format, dirs: seq<Dir>): (s: seq<Dir>)
    ensures |s| == |dirs|
  {
    seq(|dirs|, i requires 0 <= i < |dirs| => f.wire(dirs[i]))
  }

  /** The entries before the first that is larger than room. */
  function Small(f: Format, dirs: seq<Dir>, room: nat): (k: nat)
    ensures k <= |dirs| && (k < |dirs| ==> |f.pack(dirs[k])| > room)
    ensures forall i :: 0 <= i < k ==> |f.pack(dirs[i])| <= room
  {
    if dirs == [] || |f.pack(dirs[0])| > room then 0 else 1 + Small(f, dirs[1..], room)
  }

  lemma {:induction false} PackedConcat(f: Format, a: seq<Dir>, b: seq<Dir>)
    ensures Packed(f, a + b) == Packed(f, a) + Packed(f, b)
  {
    if a == [] {
      assert a + b == b;
    } else {
      assert (a + b)[1..] == a[1..] + b;
      PackedConcat(f, a[1..], b);
    }
  }

  lemma PackedOneMore(f: Format, dirs: seq<Dir>, i: nat, room: nat)
    requires i < |dirs| && |f.pack(dirs[i])| <= room
    ensures Packed(f, dirs[..i + 1]) == Packed(f, dirs[..i]) + f.pack(dirs[i])
    ensures Fitting(f, dirs[i..], room) == 1 + Fitting(f, dirs[i + 1..], room - |f.pack(dirs[i])|)
  {
    assert dirs[..i + 1] == dirs[..i] + [dirs[i]] && dirs[i..][1..] == dirs[i + 1..];
    PackedConcat(f, dirs[..i], [dirs[i]]);
    assert [dirs[i]][1..] == [] && f.pack(dirs[i]) + [] == f.pack(dirs[i]);
  }

  /** What fits is not larger than the room; and something fits unless the next entry is larger than all of it. */
  lemma {:induction false} FittingFits(f: Format, dirs: seq<Dir>, room: nat)
    ensures |Packed(f, dirs[..Fitting(f, dirs, room)])| <= room
    ensures Fitting(f, dirs, room) <= Small(f, dirs, room)
    ensures Fitting(f, dirs, room) == 0 <==> Small(f, dirs, room) == 0
  {
    var k := Fitting(f, dirs, room);
    if k > 0 {
      var size := |f.pack(dirs[0])|;
      FittingFits(f, dirs[1..], room - size);
      SmallGrows(f, dirs[1..], room - size, room);
      assert dirs[..k][1..] == dirs[1..][..k - 1];
    }
  }

  lemma {:induction false} SmallGrows(f: Format, dirs: seq<Dir>, room: nat, room': nat)
    requires room <= room'
    ensures Small(f, dirs, room) <= Small(f, dirs, room')
  {
    if dirs != [] && |f.pack(dirs[0])| <= room {
      SmallGrows(f, dirs[1..], room, room');
    }
  }

  lemma {:induction false} SmallRest(f: Format, dirs: seq<Dir>, room: nat, k: nat)
    requires k <= Small(f, dirs, room)
    ensures Small(f, dirs[k..], room) == Small(f, dirs, room) - k
  {
    if k == 0 {
      assert dirs[0..] == dirs;
    } else {
      SmallRest(f, dirs[1..], room, k - 1);
      assert dirs[1..][k - 1..] == dirs[k..];
    }
  }

  lemma FrontKept(b: seq<byte>, head: seq<byte>, data: seq<byte>)
    requires |head| == 11 && b == head + data
    ensures b[4..7] == head[4..7] && b[11..] == data
  {
  }

  /** What becomes of a Tread; a panic ends the server. */
  datatype Answer = TooLarge | BadOffset | Panicked | Listed(data: seq<byte>)

  /** An open directory on the server.  The directory itself does not change. */
  class DirFid {
    const kids: seq<Dir>
    const format: Format
    const msize: nat
    var dirs: seq<Dir>         // the rest of the listing
    var diroffset: nat

    constructor (k: seq<Dir>, f: Format, m: nat)
      ensures kids == k && format == f && msize == m && diroffset == 0 && dirs == []
    {
      kids, format, msize := k, f, m;
      dirs, diroffset := [], 0;
    }

    /** As many entries as go into the room of the reply. */
    method Fill(rc: Packer.Fcall) returns (data: seq<byte>, i: nat)
      requires rc.Valid() && 11 <= rc.buf.Length
      modifies rc.buf
      ensures i == Fitting(format, dirs, rc.data) && data == Packed(format, dirs[..i]) && |data| <= rc.data
      ensures 11 + |data| <= rc.buf.Length && rc.buf[4..7] == old(rc.buf[4..7]) && rc.buf[11..11 + |data|] == data
    {
      data, i := [], 0;
      var q := 11;
      ghost var head, all := rc.buf[..11], Fitting(format, dirs, rc.data);
      assert dirs[0..] == dirs;
      while i < |dirs| && |format.pack(dirs[i])| <= rc.data - |data|
        invariant i <= |dirs| && |data| <= rc.data && data == Packed(format, dirs[..i])
        invariant all == i + Fitting(format, dirs[i..], rc.data - |data|)
        invariant q == 11 + |data| <= rc.buf.Length && rc.buf[..q] == head + data
      {
        PackedOneMore(format, dirs, i, rc.data - |data|);
        var entry := format.pack(dirs[i]);
        q := rc.PData(entry, q);
        data := data + entry;
        i := i + 1;
      }
      FrontKept(rc.buf[..q], head, data);
      assert rc.buf[4..7] == rc.buf[..q][4..7] && rc.buf[11..q] == rc.buf[..q][11..];
    }

    /** The reply: rc has room for count bytes, or, if they do not fit it, what it was left with, unnoticed. */
    method Reply(count: u32, rc: Packer.Fcall) returns (a: Answer)
      requires rc.Valid() && IOHDRSZ <= rc.buf.Length
      modifies this`dirs, rc, rc.buf
      ensures rc.Valid() && (a.Panicked? || a.Listed?)
      ensures a.Panicked? <==> count >= 0xFFFF_FFFC || (11 + count > rc.buf.Length && old(rc.pkt) < 11)
      ensures a.Listed? ==>
                var room := if 11 + count <= rc.buf.Length then count else old(rc.data);
                var k := Fitting(format, old(dirs), room);
                && a.data == Packed(format, old(dirs)[..k]) && |a.data| <= room && dirs == old(dirs)[k..]
                && Carries(rc, a.data)
                && rc.buf[4..7] == (if 11 + count <= rc.buf.Length then [117] + P16(NOTAG) else old(rc.buf[4..7]))
    {
      var r := rc.InitRread(count);
      if r.Panicked? {
        return Panicked;
      }
      var data, i := Fill(rc);
      dirs := dirs[i..];
      var ok := rc.SetRreadCount(|data|);
      if !ok {
        return Panicked;
      }
      a := Listed(data);
    }

    /**
     A read of the directory.  From the start it takes the listing anew; otherwise it must go on where the
     last one ended, which is counted only if the reply is an Rread.
     */
    method Read(offset: nat, count: u32, rc: Packer.Fcall) returns (a: Answer)
      requires rc.Valid() && IOHDRSZ <= msize <= rc.buf.Length
      modifies this, rc, rc.buf
      ensures rc.Valid()
      ensures a.TooLarge? <==> Low32(count + IOHDRSZ) > msize
      ensures a.BadOffset? <==> !a.TooLarge? && offset != 0 && offset != old(diroffset)
      ensures a.Panicked? <==>
                && !a.TooLarge? && !a.BadOffset?
                && (count >= 0xFFFF_FFFC || (11 + count > rc.buf.Length && old(rc.pkt) < 11))
      ensures a.Listed? ==>
                var from := if offset == 0 then kids else old(dirs);
                var room := if 11 + count <= rc.buf.Length then count else old(rc.data);
                var k := Fitting(format, from, room);
                && a.data == Packed(format, from[..k]) && |a.data| <= room && dirs == from[k..]
                && Carries(rc, a.data) && diroffset == offset + (if rc.buf[4] == 117 then |a.data| else 0)
                && rc.buf[4..7] == (if 11 + count <= rc.buf.Length then [117] + P16(NOTAG) else old(rc.buf[4..7]))
    {
      if Low32(count + IOHDRSZ) > msize {
        return TooLarge;
      }
      if offset == 0 {
        diroffset := 0;
      } else if offset != diroffset {
        return BadOffset;
      }
      if offset == 0 {
        dirs := kids;
      }
      a := Reply(count, rc);
      if a.Listed? && rc.buf[4] == 117 {
        diroffset := diroffset + |a.data|;
      }
    }
  }

  /** The packet has this data, whatever its type and tag are. */
  ghost predicate Carries(rc: Packer.Fcall, data: seq<byte>)
    reads rc, rc.buf
  {
    && rc.Valid() && rc.pkt == 11 + |data| == 11 + rc.data
    && rc.Pkt() == P32(rc.pkt) + rc.buf[4..7] + P32(|data|) + data
  }

  /** A reply that could be made room for is an Rread. */
  lemma IsRread(rc: Packer.Fcall, data: seq<byte>)
    requires Carries(rc, data) && rc.buf[4..7] == [117] + P16(NOTAG)
    ensures rc.Pkt() == Packet(Rread(|data|, data), false, NOTAG)
  {
    Packer.ReadPacket(rc.pkt, rc.buf[4..7], |data|, data);
  }

  /** The counts that the server lets pass: those that fit, and the last twenty-four of all. */
  lemma CountsThatPass(count: u32, msize: nat)
    requires IOHDRSZ <= msize < 0x1_0000_0000
    ensures Low32(count + IOHDRSZ) <= msize <==> count + IOHDRSZ <= msize || count >= 0xFFFF_FFE8
  {
    if count >= 0xFFFF_FFE8 {
      assert (count + IOHDRSZ) % 0x1_0000_0000 == count + IOHDRSZ - 0x1_0000_0000;
    }
  }

  /** So the largest count is let pass, and the server panics. */
  method LargestRead(d: DirFid, rc: Packer.Fcall) returns (a: Answer)
    requires rc.Valid() && IOHDRSZ <= d.msize <= rc.buf.Length
    modifies d, rc, rc.buf
    ensures a.Panicked?
  {
    CountsThatPass(0xFFFF_FFFF, d.msize);
    a := d.Read(0, 0xFFFF_FFFF, rc);
  }

  lemma PackedNext(f: Format, dirs: seq<Dir>, k: nat)
    requires k < |dirs|
    ensures Packed(f, dirs[k..]) == f.pack(dirs[k]) + Packed(f, dirs[k + 1..])
  {
    assert dirs[k..][1..] == dirs[k + 1..];
  }

  lemma PackedSome(f: Format, dirs: seq<Dir>, k: nat)
    requires Sound(f, dirs) && k <= |dirs|
    ensures k < |dirs| ==> Packed(f, dirs[k..]) != []
  {
    if k < |dirs| {
      PackedNext(f, dirs, k);
      assert SoundFor(f, dirs[k], []);
    }
  }

  /** One round of a listing that has come to entry p. */
  lemma Round(f: Format, kids: seq<Dir>, p: nat, room: nat, rest: seq<Dir>, k: nat)
    requires Sound(f, kids) && p <= Small(f, kids, room) && rest == kids[p..] && k == Fitting(f, rest, room)
    ensures p + k <= Small(f, kids, room) && (k == 0 <==> p == Small(f, kids, room))
    ensures Sound(f, rest[..k]) && (Packed(f, rest[..k]) == [] <==> k == 0)
    ensures rest[k..] == kids[p + k..] && Seen(f, kids[..p]) + Seen(f, rest[..k]) == Seen(f, kids[..p + k])
  {
    FittingFits(f, rest, room);
    SmallRest(f, kids, room, p);
    SoundPart(f, kids, p, k);
    PackedSome(f, rest[..k], 0);
    assert rest[..k][0..] == rest[..k];
  }

  lemma SoundPart(f: Format, kids: seq<Dir>, p: nat, k: nat)
    requires Sound(f, kids) && p + k <= |kids|
    ensures Sound(f, kids[p..][..k])
  {
    forall i, r | 0 <= i < k ensures SoundFor(f, kids[p..][..k][i], r) { assert SoundFor(f, kids[p + i], r); }
  }

  /** The entries of one reply. */
  method UnpackAll(f: Format, data: seq<byte>, ghost dirs: seq<Dir>) returns (out: seq<Dir>, ok: bool)
    requires data == Packed(f, dirs) && Sound(f, dirs)
    ensures ok && out == Seen(f, dirs)
  {
    out, ok := [], true;
    var b := data;
    ghost var k := 0;
    assert dirs[0..] == dirs;
    while |b| > 0
      invariant ok && k <= |dirs| && b == Packed(f, dirs[k..]) && out == Seen(f, dirs[..k])
      decreases |dirs| - k
    {
      PackedNext(f, dirs, k);
      assert SoundFor(f, dirs[k], Packed(f, dirs[k + 1..]));
      var d := f.unpack(b);
      if d.None? {
        return out, false;
      }
      b := b[d.value.1..];
      out := out + [d.value.0];
      k := k + 1;
    }
    PackedSome(f, dirs, k);
    assert dirs[..k] == dirs;
  }

  /**
     Readdir(0) on a file opened a moment ago: the children in order, up to the first that does not fit a reply; so
     all of them exactly if each fits one.  The server never finds a bad offset, and no entry is cut.
   */
  method Readdir(f: DirFid, iounit: nat, rc: Packer.Fcall) returns (out: seq<Dir>, ok: bool)
    requires 0 < iounit <= f.msize - IOHDRSZ && f.diroffset == 0 && Sound(f.format, f.kids)
    requires rc.Valid() && f.msize <= rc.buf.Length
    modifies f, rc, rc.buf
    ensures ok && out == Seen(f.format, f.kids[..Small(f.format, f.kids, iounit)])
    ensures |out| == |f.kids| <==> forall i :: 0 <= i < |f.kids| ==> |f.format.pack(f.kids[i])| <= iounit
  {
    var offset := 0;
    ghost var p, all := 0, Small(f.format, f.kids, iounit);
    out, ok := [], true;
    while true
      invariant ok && rc.Valid() && p <= all && out == Seen(f.format, f.kids[..p]) && offset == f.diroffset
      invariant if offset == 0 then p == 0 else f.dirs == f.kids[p..]
      decreases |f.kids| - p
    {
      assert offset == 0 ==> f.kids[p..] == f.kids;
      var count := Min(f.msize - IOHDRSZ, iounit);
      CountsThatPass(count, f.msize);
      var data := f.Read(offset, count, rc);
      if !data.Listed? {
        return out, false;
      }
      assert rc.buf[4] == rc.buf[4..7][0] == 117;
      ghost var rest := f.kids[p..];
      ghost var k := Fitting(f.format, rest, iounit);
      Round(f.format, f.kids, p, iounit, rest, k);
      if |data.data| == 0 {
        break;
      }
      var more;
      more, ok := UnpackAll(f.format, data.data, rest[..k]);
      out := out + more;
      offset := offset + |data.data|;
      p := p + k;
    }
  }

  /* ---- with the entries of the protocol ---- */

  /** UnpackDir, and how far the source goes on behind the entry. */
  function Entry(stat: seq<byte> -> GotStat, b: seq<byte>, dotu: bool): Option<(Dir, nat)> {
    if |b| < (if dotu then 63 else 49) || !stat(b).GotStat? then None else Some((stat(b).dir, stat(b).dir.size + 2))
  }

  function Stat(dotu: bool): seq<byte> -> GotStat {
    b => GStat(b, dotu)
  }

  function Entries(dotu: bool): Format {
    Format(d => PStat(d, dotu), b => Entry(Stat(dotu), b, dotu), d => WireDir(d, dotu))
  }

  lemma WireSize(d: Dir, dotu: bool)
    requires StatSize(d, dotu) < 0x1_0000
    ensures WireDir(d, dotu).size == StatSize(d, dotu) - 2
  {
  }

  lemma EntryParsed(stat: seq<byte> -> GotStat, b: seq<byte>, dotu: bool, g: GotStat)
    requires |b| >= (if dotu then 63 else 49) && stat(b) == g && g.GotStat?
    ensures Entry(stat, b, dotu) == Some((g.dir, g.dir.size + 2))
  {
  }

  /** UnpackDir takes no bytes but those of the entry it returns, and demands room for the least one. */
  lemma EntryWas(b: seq<byte>, dotu: bool)
    requires Entry(Stat(dotu), b, dotu).Some?
    ensures var (d, n) := Entry(Stat(dotu), b, dotu).value;
            && n == d.size + 2 && |b| >= StatSize(d.(name := [], uid := [], gid := [], muid := [], ext := []), dotu)
            && WireFormat.Stat(d, dotu) <= b
  {
    WireFormat.WasStat(b, dotu);
  }

  /** PackDir and UnpackDir fit each other. */
  lemma EntryBack(d: Dir, dotu: bool, r: seq<byte>)
    requires StatSize(d, dotu) < 0x1_0000
    ensures SoundFor(Entries(dotu), d, r)
  {
    PutStat(d, dotu, r);
    WireSize(d, dotu);
    EntryParsed(Stat(dotu), PStat(d, dotu) + r, dotu, GotStat(WireDir(d, dotu), r));
  }

  /** So directories can be listed whose entries fit their own size fields. */
  lemma EntriesSound(kids: seq<Dir>, dotu: bool)
    requires forall i :: 0 <= i < |kids| ==> StatSize(kids[i], dotu) < 0x1_0000
    ensures Sound(Entries(dotu), kids)
  {
    forall i, r | 0 <= i < |kids| ensures SoundFor(Entries(dotu), kids[i], r) { EntryBack(kids[i], dotu, r); }
  }
}
