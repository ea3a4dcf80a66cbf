/**
 The messages of 9P2000 and 9P2000.u on the wire (p/p9.go, p/packt.go, p/packr.go, p/unpack.go).
 The first half is the format and the parser as functions, the second half the source's methods.
 */
module Codec {
  import opened Common

  type u16 = x: int | 0 <= x < 0x1_0000
  type u32 = x: int | 0 <= x < 0x1_0000_0000
  type u64 = x: int | 0 <= x < 0x1_0000_0000_0000_0000

  /** A string that fits its length field. */
  type Text = s: seq<byte> | |s| < 0x1_0000

  const NOTAG: u16 := 0xFFFF
  const NOUID: u32 := 0xFFFF_FFFF

  datatype Qid = Qid(typ: byte, version: u32, path: u64)

  datatype Dir = Dir(size: u16, typ: u16, dev: u32, qid: Qid, mode: u32, atime: u32, mtime: u32, length: u64,
                     name: Text, uid: Text, gid: Text, muid: Text,
                     ext: Text, uidnum: u32, gidnum: u32, muidnum: u32)

  datatype Msg =
    | Tversion(msize: u32, version: Text) | Rversion(msize: u32, version: Text)
    | Tauth(afid: u32, uname: Text, aname: Text, unamenum: u32) | Rauth(qid: Qid)
    | Tattach(fid: u32, afid: u32, uname: Text, aname: Text, unamenum: u32) | Rattach(qid: Qid)
    | Rerror(error: Text, errornum: u32)
    | Tflush(oldtag: u16) | Rflush
    | Twalk(fid: u32, newfid: u32, wname: seq<Text>) | Rwalk(wqid: seq<Qid>)
    | Topen(fid: u32, mode: byte) | Ropen(qid: Qid, iounit: u32)
    | Tcreate(fid: u32, name: Text, perm: u32, mode: byte, ext: Text) | Rcreate(qid: Qid, iounit: u32)
    | Tread(fid: u32, offset: u64, count: u32) | Rread(count: u32, data: seq<byte>)
    | Twrite(fid: u32, offset: u64, count: u32, data: seq<byte>) | Rwrite(count: u32)
    | Tclunk(fid: u32) | Rclunk
    | Tremove(fid: u32) | Rremove
    | Tstat(fid: u32) | Rstat(dir: Dir)
    | Twstat(fid: u32, dir: Dir) | Rwstat

  /* ---- printing ---- */

  function Pow256(n: nat): (r: nat)
    ensures r > 0
  {
    if n == 0 then 1 else 256 * Pow256(n - 1)
  }

  /** The n low bytes of v, lowest first. */
  function Bytes(v: nat, n: nat): (s: seq<byte>)
    ensures |s| == n
    decreases n, v
  {
    if n == 0 then [] else [v % 256] + Bytes(v / 256, n - 1)
  }

  /** The number that bytes stand for, lowest first. */
  function Value(s: seq<byte>): (v: nat)
    ensures v < Pow256(|s|)
  {
    if s == [] then 0 else
      var low: int := s[0];
      low + 256 * Value(s[1..])
  }

  lemma {:induction false} ValueOfBytes(v: nat, n: nat)
    requires v < Pow256(n)
    ensures Value(Bytes(v, n)) == v
    decreases n, v
  {
    if n > 0 {
      ValueOfBytes(v / 256, n - 1);
      assert Bytes(v, n)[1..] == Bytes(v / 256, n - 1);
    }
  }

  lemma Powers()
    ensures Pow256(2) == 0x1_0000 && Pow256(4) == 0x1_0000_0000 && Pow256(8) == 0x1_0000_0000_0000_0000
  {
  }

  function P16(v: u16): (s: seq<byte>)
    ensures |s| == 2
  {
    Bytes(v, 2)
  }

  /** A number cut to sixteen bits. */
  function Low16(n: nat): (v: u16)
    ensures n < 0x1_0000 ==> v == n
  {
    n % 0x1_0000
  }

  function P32(v: u32): (s: seq<byte>)
    ensures |s| == 4
  {
    Bytes(v, 4)
  }

  function P64(v: u64): (s: seq<byte>)
    ensures |s| == 8
  {
    Bytes(v, 8)
  }

  function PStr(s: Text): (r: seq<byte>)
    ensures |r| == 2 + |s|
  {
    P16(|s|) + s
  }

  function PQid(q: Qid): (r: seq<byte>)
    ensures |r| == 13
  {
    [q.typ] + (P32(q.version) + P64(q.path))
  }

  function PNames(names: seq<Text>): seq<byte> {
    if names == [] then [] else PStr(names[0]) + PNames(names[1..])
  }

  function PQids(qids: seq<Qid>): (r: seq<byte>)
    ensures |r| == 13 * |qids|
  {
    if qids == [] then [] else PQid(qids[0]) + PQids(qids[1..])
  }

  function StatSize(d: Dir, dotu: bool): nat {
    49 + |d.name| + |d.uid| + |d.gid| + |d.muid| + if dotu then 14 + |d.ext| else 0
  }

  /** The part of a stat that only 9P2000.u has. */
  function PStatU(d: Dir, dotu: bool): (r: seq<byte>)
    ensures |r| == if dotu then 14 + |d.ext| else 0
  {
    if dotu then PStr(d.ext) + (P32(d.uidnum) + (P32(d.gidnum) + P32(d.muidnum))) else []
  }

  function PStatNames(d: Dir, dotu: bool): (r: seq<byte>)
    ensures |r| == 8 + |d.name| + |d.uid| + |d.gid| + |d.muid| + if dotu then 14 + |d.ext| else 0
  {
    PStr(d.name) + (PStr(d.uid) + (PStr(d.gid) + (PStr(d.muid) + PStatU(d, dotu))))
  }

  function PStatHead(d: Dir, names: seq<byte>): (r: seq<byte>)
    ensures |r| == 41 + |names|
  {
    P16(d.size) + (P16(d.typ) + (P32(d.dev) + (PQid(d.qid) +
    (P32(d.mode) + (P32(d.atime) + (P32(d.mtime) + (P64(d.length) + names)))))))
  }

  /** d with the size it has on the wire. */
  function Sized(d: Dir, dotu: bool): Dir {
    d.(size := Low16(StatSize(d, dotu) - 2))
  }

  function PStat(d: Dir, dotu: bool): (r: seq<byte>)
    ensures |r| == StatSize(d, dotu)
  {
    PStatHead(Sized(d, dotu), PStatNames(d, dotu))
  }

  function Only(dotu: bool, s: seq<byte>): seq<byte> {
    if dotu then s else []
  }

  /** The message after its header. */
  function Body(m: Msg, dotu: bool): seq<byte> {
    match m
    case Tversion(msize, version) => P32(msize) + PStr(version)
    case Rversion(msize, version) => P32(msize) + PStr(version)
    case Tauth(afid, uname, aname, unamenum) => P32(afid) + (PStr(uname) + (PStr(aname) + Only(dotu, P32(unamenum))))
    case Rauth(qid) => PQid(qid)
    case Tattach(fid, afid, uname, aname, unamenum) =>
      P32(fid) + (P32(afid) + (PStr(uname) + (PStr(aname) + Only(dotu, P32(unamenum)))))
    case Rattach(qid) => PQid(qid)
    case Rerror(error, errornum) => PStr(error) + Only(dotu, P32(errornum))
    case Tflush(oldtag) => P16(oldtag)
    case Twalk(fid, newfid, wname) => P32(fid) + (P32(newfid) + (P16(Low16(|wname|)) + PNames(wname)))
    case Rwalk(wqid) => P16(Low16(|wqid|)) + PQids(wqid)
    case Topen(fid, mode) => P32(fid) + [mode]
    case Ropen(qid, iounit) => PQid(qid) + P32(iounit)
    case Tcreate(fid, name, perm, mode, ext) => P32(fid) + (PStr(name) + (P32(perm) + ([mode] + Only(dotu, PStr(ext)))))
    case Rcreate(qid, iounit) => PQid(qid) + P32(iounit)
    case Tread(fid, offset, count) => P32(fid) + (P64(offset) + P32(count))
    case Rread(count, data) => P32(count) + data
    case Twrite(fid, offset, count, data) => P32(fid) + (P64(offset) + (P32(count) + data))
    case Rwrite(count) => P32(count)
    case Tclunk(fid) => P32(fid)
    case Tremove(fid) => P32(fid)
    case Tstat(fid) => P32(fid)
    case Rstat(dir) => P16(Low16(StatSize(dir, dotu))) + PStat(dir, dotu)
    case Twstat(fid, dir) => P32(fid) + (P16(Low16(StatSize(dir, dotu))) + PStat(dir, dotu))
    case _ => []
  }

  function TypeOf(m: Msg): byte {
    match m
    case Tversion(_, _) => 100 case Rversion(_, _) => 101
    case Tauth(_, _, _, _) => 102 case Rauth(_) => 103
    case Tattach(_, _, _, _, _) => 104 case Rattach(_) => 105
    case Rerror(_, _) => 107
    case Tflush(_) => 108 case Rflush => 109
    case Twalk(_, _, _) => 110 case Rwalk(_) => 111
    case Topen(_, _) => 112 case Ropen(_, _) => 113
    case Tcreate(_, _, _, _, _) => 114 case Rcreate(_, _) => 115
    case Tread(_, _, _) => 116 case Rread(_, _) => 117
    case Twrite(_, _, _, _) => 118 case Rwrite(_) => 119
    case Tclunk(_) => 120 case Rclunk => 121
    case Tremove(_) => 122 case Rremove => 123
    case Tstat(_) => 124 case Rstat(_) => 125
    case Twstat(_, _) => 126 case Rwstat => 127
  }

  function Size(m: Msg, dotu: bool): nat {
    7 + |Body(m, dotu)|
  }

  function Packet(m: Msg, dotu: bool, tag: u16): (r: seq<byte>)
    requires Size(m, dotu) < 0x1_0000_0000
    ensures |r| == Size(m, dotu)
  {
    P32(Size(m, dotu)) + ([TypeOf(m)] + (P16(tag) + Body(m, dotu)))
  }

  /** The message keeps within its length fields. */
  ghost predicate Packable(m: Msg, dotu: bool) {
    && Size(m, dotu) < 0x1_0000_0000
    && (m.Twalk? ==> |m.wname| < 0x1_0000)
    && (m.Rwalk? ==> |m.wqid| < 0x1_0000)
    && (m.Rread? ==> m.count == |m.data|)
    && (m.Rstat? || m.Twstat? ==> StatSize(m.dir, dotu) < 0x1_0000)
  }

  /* ---- what a message says on the wire ---- */

  function WireDir(d: Dir, dotu: bool): Dir {
    Filled(Sized(d, dotu), d, dotu)
  }

  /** The fixed part of e, and from d what has a length of its own or belongs to 9P2000.u. */
  function Filled(e: Dir, d: Dir, dotu: bool): Dir {
    if dotu then
      e.(name := d.name, uid := d.uid, gid := d.gid, muid := d.muid,
         ext := d.ext, uidnum := d.uidnum, gidnum := d.gidnum, muidnum := d.muidnum)
    else
      e.(name := d.name, uid := d.uid, gid := d.gid, muid := d.muid,
         ext := [], uidnum := NOUID, gidnum := NOUID, muidnum := NOUID)
  }

  /** data, cut or filled up with zeros. */
  function Fit(data: seq<byte>, n: nat): (r: seq<byte>)
    ensures |r| == n && forall i :: 0 <= i < n ==> r[i] == if i < |data| then data[i] else 0
    ensures n == |data| ==> r == data
  {
    seq(n, i requires 0 <= i => if i < |data| then data[i] else 0)
  }

  /** The fields of m that a receiver sees; in plain 9P2000 those of 9P2000.u have fixed values. */
  function Wire(m: Msg, dotu: bool): Msg {
    match m
    case Tauth(afid, uname, aname, n) => Tauth(afid, uname, aname, if dotu then n else NOUID)
    case Tattach(fid, afid, uname, aname, n) => Tattach(fid, afid, uname, aname, if dotu then n else 0)
    case Rerror(error, n) => Rerror(error, if dotu then n else 0)
    case Tcreate(fid, name, perm, mode, ext) => Tcreate(fid, name, perm, mode, if dotu then ext else [])
    case Twrite(fid, offset, count, data) => Twrite(fid, offset, count, Fit(data, count))
    case Rstat(dir) => Rstat(WireDir(dir, dotu))
    case Twstat(fid, dir) => Twstat(fid, WireDir(dir, dotu))
    case _ => m
  }

  /* ---- parsing ---- */

  /** A value and what follows it; Nil when a string is longer than what is left; Panic when an index is. */
  datatype Got<+T> = Got(val: T, rest: seq<byte>) | Nil | Panic {
    predicate IsFailure() {
      !Got?
    }

    function PropagateFailure<U>(): Got<U>
      requires IsFailure()
    {
      if Nil? then Nil else Panic
    }

    /** What `:-` goes on with. */
    function Extract(): (T, seq<byte>)
      requires !IsFailure()
    {
      (val, rest)
    }
  }

  function V16(b: seq<byte>): u16
    requires |b| >= 2
  {
    Powers();
    Value(b[..2])
  }

  function V32(b: seq<byte>): u32
    requires |b| >= 4
  {
    Powers();
    Value(b[..4])
  }

  function V64(b: seq<byte>): u64
    requires |b| >= 8
  {
    Powers();
    Value(b[..8])
  }

  function G8(b: seq<byte>): Got<byte> {
    if |b| < 1 then Panic else Got(b[0], b[1..])
  }

  function G16(b: seq<byte>): Got<u16> {
    if |b| < 2 then Panic else Got(V16(b), b[2..])
  }

  function G32(b: seq<byte>): Got<u32> {
    if |b| < 4 then Panic else Got(V32(b), b[4..])
  }

  function G64(b: seq<byte>): Got<u64> {
    if |b| < 8 then Panic else Got(V64(b), b[8..])
  }

  function GStr(b: seq<byte>): Got<Text> {
    var (n, p) :- G16(b);
    if n > |p| then Nil else Got(p[..n], p[n..])
  }

  function GQid(b: seq<byte>): Got<Qid> {
    var (typ, p) :- G8(b);
    var (version, p) :- G32(p);
    var (path, p) :- G64(p);
    Got(Qid(typ, version, path), p)
  }

  function GNames(b: seq<byte>, n: nat): Got<seq<Text>> {
    if n == 0 then Got([], b)
    else
      var (name, p) :- GStr(b);
      var (names, p) :- GNames(p, n - 1);
      Got([name] + names, p)
  }

  function GQids(b: seq<byte>, n: nat): Got<seq<Qid>> {
    if n == 0 then Got([], b)
    else
      var (q, p) :- GQid(b);
      var (qids, p) :- GQids(p, n - 1);
      Got([q] + qids, p)
  }

  /** Like Got, but with what has been filled in so far when a string does not fit. */
  datatype GotStat = GotStat(dir: Dir, rest: seq<byte>) | StatNil(dir: Dir) | StatPanic

  function GStatU(d: Dir, b: seq<byte>, dotu: bool): GotStat {
    if !dotu then GotStat(d.(uidnum := NOUID, gidnum := NOUID, muidnum := NOUID), b)
    else match GStr(b)
      case Panic => StatPanic
      case Nil => StatNil(d)
      case Got(ext, p) =>
        if |p| < 12 then StatPanic
        else GotStat(d.(ext := ext, uidnum := V32(p), gidnum := V32(p[4..]), muidnum := V32(p[8..])), p[12..])
  }

  function GStatNames(d: Dir, b: seq<byte>, dotu: bool): GotStat {
    match GStr(b)
    case Panic => StatPanic
    case Nil => StatNil(d)
    case Got(name, p) => (match GStr(p)
      case Panic => StatPanic
      case Nil => StatNil(d.(name := name))
      case Got(uid, p) => (match GStr(p)
        case Panic => StatPanic
        case Nil => StatNil(d.(name := name, uid := uid))
        case Got(gid, p) => (match GStr(p)
          case Panic => StatPanic
          case Nil => StatNil(d.(name := name, uid := uid, gid := gid))
          case Got(muid, p) => GStatU(d.(name := name, uid := uid, gid := gid, muid := muid), p, dotu))))
  }

  function GStatHead(b: seq<byte>): Got<Dir> {
    var (size, p) :- G16(b); var (typ, p) :- G16(p); var (dev, p) :- G32(p); var (qid, p) :- GQid(p);
    var (mode, p) :- G32(p); var (atime, p) :- G32(p); var (mtime, p) :- G32(p); var (length, p) :- G64(p);
    Got(Dir(size, typ, dev, qid, mode, atime, mtime, length, [], [], [], [], [], 0, 0, 0), p)
  }

  function GStat(b: seq<byte>, dotu: bool): GotStat {
    match GStatHead(b)
    case Got(d, p) => GStatNames(d, p, dotu)
    case _ => StatPanic
  }

  /** The number at the end of a 9P2000.u message that may be left out. */
  function GUser(b: seq<byte>, dotu: bool, plain: u32): Got<u32> {
    if !dotu then Got(plain, b) else if |b| > 0 then G32(b) else Got(NOUID, b)
  }

  function GTauth(b: seq<byte>, dotu: bool): Got<Msg> {
    var (afid, p) :- G32(b); var (uname, p) :- GStr(p); var (aname, p) :- GStr(p);
    var (n, p) :- GUser(p, dotu, NOUID);
    Got(Tauth(afid, uname, aname, n), p)
  }

  function GTattach(b: seq<byte>, dotu: bool): Got<Msg> {
    var (fid, p) :- G32(b); var (afid, p) :- G32(p); var (uname, p) :- GStr(p); var (aname, p) :- GStr(p);
    var (n, p) :- GUser(p, dotu, 0);
    Got(Tattach(fid, afid, uname, aname, n), p)
  }

  function GRerror(b: seq<byte>, dotu: bool): Got<Msg> {
    var (error, p) :- GStr(b);
    var (n, p) :- if dotu then G32(p) else Got(0, p);
    Got(Rerror(error, n), p)
  }

  function GTwalk(b: seq<byte>): Got<Msg> {
    var (fid, p) :- G32(b); var (newfid, p) :- G32(p); var (m, p) :- G16(p);
    var (names, p) :- GNames(p, m);
    Got(Twalk(fid, newfid, names), p)
  }

  function GRwalk(b: seq<byte>): Got<Msg> {
    var (m, p) :- G16(b);
    var (qids, p) :- GQids(p, m);
    Got(Rwalk(qids), p)
  }

  function GTopen(b: seq<byte>): Got<Msg> {
    var (fid, p) :- G32(b); var (mode, p) :- G8(p);
    Got(Topen(fid, mode), p)
  }

  function GTcreate(b: seq<byte>, dotu: bool): Got<Msg> {
    var (fid, p) :- G32(b); var (name, p) :- GStr(p); var (perm, p) :- G32(p); var (mode, p) :- G8(p);
    var (ext, p) :- if dotu then GStr(p) else Got([], p);
    Got(Tcreate(fid, name, perm, mode, ext), p)
  }

  function GTread(b: seq<byte>): Got<Msg> {
    var (fid, p) :- G32(b); var (offset, p) :- G64(p); var (count, p) :- G32(p);
    Got(Tread(fid, offset, count), p)
  }

  function GRread(b: seq<byte>): Got<Msg> {
    var (count, p) :- G32(b);
    if |p| < count then Nil else Got(Rread(count, p), p[count..])
  }

  function GTwrite(b: seq<byte>): Got<Msg> {
    var (fid, p) :- G32(b); var (offset, p) :- G64(p); var (count, p) :- G32(p);
    Got(Twrite(fid, offset, count, Fit(p, count)), [])
  }

  function GRstat(b: seq<byte>, dotu: bool): Got<Msg> {
    var (m, p) :- G16(b);
    match GStat(p, dotu)
    case GotStat(dir, rest) => Got(Rstat(dir), rest)
    case StatNil(_) => Nil
    case StatPanic => Panic
  }

  /** A stat that does not fit is no error here: what has been filled in is kept. */
  function GTwstat(b: seq<byte>, dotu: bool): Got<Msg> {
    var (fid, p) :- G32(b); var (m, p) :- G16(p);
    match GStat(p, dotu)
    case GotStat(dir, rest) => Got(Twstat(fid, dir), rest)
    case StatNil(dir) => Got(Twstat(fid, dir), [])
    case StatPanic => Panic
  }

  function GTversion(b: seq<byte>): Got<Msg> {
    var (msize, p) :- G32(b); var (version, p) :- GStr(p);
    Got(Tversion(msize, version), p)
  }

  function GRversion(b: seq<byte>): Got<Msg> {
    var (msize, p) :- G32(b); var (version, p) :- GStr(p);
    Got(Rversion(msize, version), p)
  }

  function GOpen(b: seq<byte>, create: bool): Got<Msg> {
    var (qid, p) :- GQid(b); var (iounit, p) :- G32(p);
    Got(if create then Rcreate(qid, iounit) else Ropen(qid, iounit), p)
  }

  function GRqid(b: seq<byte>, attach: bool): Got<Msg> {
    var (qid, p) :- GQid(b);
    Got(if attach then Rattach(qid) else Rauth(qid), p)
  }

  function GNumber(b: seq<byte>, typ: byte): Got<Msg>
    requires typ in {119, 120, 122, 124}
  {
    var (n, p) :- G32(b);
    Got(if typ == 119 then Rwrite(n) else if typ == 120 then Tclunk(n) else if typ == 122 then Tremove(n)
        else Tstat(n), p)
  }

  function GTflush(b: seq<byte>): Got<Msg> {
    var (oldtag, p) :- G16(b);
    Got(Tflush(oldtag), p)
  }

  function GSession(typ: byte, b: seq<byte>, dotu: bool): Got<Msg> {
    match typ
    case 100 => GTversion(b)
    case 101 => GRversion(b)
    case 102 => GTauth(b, dotu)
    case 103 => GRqid(b, false)
    case 104 => GTattach(b, dotu)
    case 105 => GRqid(b, true)
    case 107 => GRerror(b, dotu)
    case _ => Nil
  }

  function GFile(typ: byte, b: seq<byte>, dotu: bool): Got<Msg> {
    match typ
    case 108 => GTflush(b)
    case 109 => Got(Rflush, b)
    case 110 => GTwalk(b)
    case 111 => GRwalk(b)
    case 112 => GTopen(b)
    case 113 => GOpen(b, false)
    case 114 => GTcreate(b, dotu)
    case 115 => GOpen(b, true)
    case _ => Nil
  }

  function GData(typ: byte, b: seq<byte>): Got<Msg> {
    match typ
    case 116 => GTread(b)
    case 117 => GRread(b)
    case 118 => GTwrite(b)
    case 119 => GNumber(b, 119)
    case 120 => GNumber(b, 120)
    case 121 => Got(Rclunk, b)
    case 122 => GNumber(b, 122)
    case _ => Nil
  }

  function GStats(typ: byte, b: seq<byte>, dotu: bool): Got<Msg> {
    match typ
    case 123 => Got(Rremove, b)
    case 124 => GNumber(b, 124)
    case 125 => GRstat(b, dotu)
    case 126 => GTwstat(b, dotu)
    case 127 => Got(Rwstat, b)
    case _ => Nil
  }

  /** The fields of a message of type typ. */
  function GBody(typ: byte, b: seq<byte>, dotu: bool): Got<Msg> {
    if typ < 108 then GSession(typ, b, dotu)
    else if typ < 116 then GFile(typ, b, dotu)
    else if typ < 123 then GData(typ, b)
    else GStats(typ, b, dotu)
  }

  datatype Unpacked = Ok(tag: u16, msg: Msg, used: nat) | Bad | Crash

  /** The smallest sizes the parser accepts; the tables of the source stand for each other's dialect. */
  function MinSize(typ: byte, dotu: bool): nat {
    match typ
    case 100 => 6 case 101 => 6
    case 102 => if dotu then 8 else 12
    case 103 => 13
    case 104 => if dotu then 12 else 16
    case 105 => 13
    case 107 => if dotu then 2 else 6
    case 108 => 2
    case 110 => 10 case 111 => 2 case 112 => 5 case 113 => 17
    case 114 => if dotu then 11 else 13
    case 115 => 17 case 116 => 16 case 117 => 4 case 118 => 16 case 119 => 4
    case 120 => 4 case 122 => 4 case 124 => 4 case 125 => 4 case 126 => 8
    case 127 => if dotu then 0 else 20
    case _ => 0
  }

  function Decode(buf: seq<byte>, dotu: bool): Unpacked {
    if |buf| < 7 || V32(buf) > |buf| || V32(buf) < 7 then Bad
    else
      var size, typ, tag := V32(buf), buf[4], V16(buf[5..]);
      if typ < 100 || typ >= 128 || size < MinSize(typ, dotu) then Bad
      else match GBody(typ, buf[7..size], dotu)
        case Got(msg, rest) => if |rest| > 0 then Bad else Ok(tag, msg, size)
        case Nil => Bad
        case Panic => Crash
  }

  /* ---- what was printed is parsed ---- */

  lemma Put16(v: u16, r: seq<byte>)
    ensures G16(P16(v) + r) == Got(v, r) && V16(P16(v) + r) == v
  {
    Powers();
    ValueOfBytes(v, 2);
    assert (P16(v) + r)[..2] == P16(v);
  }

  lemma Put32(v: u32, r: seq<byte>)
    ensures G32(P32(v) + r) == Got(v, r) && V32(P32(v) + r) == v
  {
    Powers();
    ValueOfBytes(v, 4);
    assert (P32(v) + r)[..4] == P32(v);
  }

  lemma Put64(v: u64, r: seq<byte>)
    ensures G64(P64(v) + r) == Got(v, r) && V64(P64(v) + r) == v
  {
    Powers();
    ValueOfBytes(v, 8);
    assert (P64(v) + r)[..8] == P64(v);
  }

  lemma PutStr(s: Text, r: seq<byte>)
    ensures GStr(PStr(s) + r) == Got(s, r)
  {
    assert PStr(s) + r == P16(|s|) + (s + r);
    Put16(|s|, s + r);
    assert (s + r)[..|s|] == s && (s + r)[|s|..] == r;
  }

  lemma PutQid(q: Qid, r: seq<byte>)
    ensures GQid(PQid(q) + r) == Got(q, r)
  {
    assert PQid(q) + r == [q.typ] + (P32(q.version) + (P64(q.path) + r));
    assert (PQid(q) + r)[1..] == P32(q.version) + (P64(q.path) + r);
    Put32(q.version, P64(q.path) + r);
    Put64(q.path, r);
  }

  lemma Assoc(a: seq<byte>, b: seq<byte>, c: seq<byte>)
    ensures (a + b) + c == a + (b + c)
  {
  }

  lemma NamesStep(b: seq<byte>, n: nat, name: Text, p: seq<byte>, names: seq<Text>, r: seq<byte>)
    requires n > 0 && GStr(b) == Got(name, p) && GNames(p, n - 1) == Got(names, r)
    ensures GNames(b, n) == Got([name] + names, r)
  {
  }

  lemma PutName(name: Text, names: seq<Text>, front: seq<byte>, rest: seq<byte>, r: seq<byte>)
    requires front == PStr(name) && GNames(rest, |names|) == Got(names, r)
    ensures GNames(front + rest, 1 + |names|) == Got([name] + names, r)
  {
    PutStr(name, rest);
    NamesStep(front + rest, 1 + |names|, name, rest, names, r);
  }

  lemma {:induction false} PutNames(names: seq<Text>, r: seq<byte>)
    ensures GNames(PNames(names) + r, |names|) == Got(names, r)
  {
    if names == [] {
      assert PNames(names) + r == r;
    } else {
      var rest := PNames(names[1..]) + r;
      PutNames(names[1..], r);
      PutName(names[0], names[1..], PStr(names[0]), rest, r);
      Assoc(PStr(names[0]), PNames(names[1..]), r);
      assert [names[0]] + names[1..] == names;
    }
  }

  lemma QidsStep(b: seq<byte>, n: nat, q: Qid, p: seq<byte>, qids: seq<Qid>, r: seq<byte>)
    requires n > 0 && GQid(b) == Got(q, p) && GQids(p, n - 1) == Got(qids, r)
    ensures GQids(b, n) == Got([q] + qids, r)
  {
  }

  lemma PutQidFront(q: Qid, qids: seq<Qid>, front: seq<byte>, rest: seq<byte>, r: seq<byte>)
    requires front == PQid(q) && GQids(rest, |qids|) == Got(qids, r)
    ensures GQids(front + rest, 1 + |qids|) == Got([q] + qids, r)
  {
    PutQid(q, rest);
    QidsStep(front + rest, 1 + |qids|, q, rest, qids, r);
  }

  lemma {:induction false} PutQids(qids: seq<Qid>, r: seq<byte>)
    ensures GQids(PQids(qids) + r, |qids|) == Got(qids, r)
  {
    if qids == [] {
      assert PQids(qids) + r == r;
    } else {
      PutQids(qids[1..], r);
      PutQidFront(qids[0], qids[1..], PQid(qids[0]), PQids(qids[1..]) + r, r);
      Assoc(PQid(qids[0]), PQids(qids[1..]), r);
      assert [qids[0]] + qids[1..] == qids;
    }
  }

  lemma PutStatU(d: Dir, e: Dir, dotu: bool, r: seq<byte>)
    ensures GStatU(e, PStatU(d, dotu) + r, dotu) ==
            if dotu then GotStat(e.(ext := d.ext, uidnum := d.uidnum, gidnum := d.gidnum, muidnum := d.muidnum), r)
            else GotStat(e.(uidnum := NOUID, gidnum := NOUID, muidnum := NOUID), r)
  {
    if dotu {
      var p := P32(d.uidnum) + (P32(d.gidnum) + (P32(d.muidnum) + r));
      assert PStatU(d, dotu) + r == PStr(d.ext) + p;
      PutStr(d.ext, p);
      Put32(d.uidnum, P32(d.gidnum) + (P32(d.muidnum) + r));
      assert p[4..] == P32(d.gidnum) + (P32(d.muidnum) + r);
      Put32(d.gidnum, P32(d.muidnum) + r);
      assert p[8..] == P32(d.muidnum) + r;
      Put32(d.muidnum, r);
      assert p[12..] == r;
    } else {
      assert PStatU(d, dotu) + r == r;
    }
  }

  lemma NamesSteps(d: Dir, e: Dir, dotu: bool, b: seq<byte>, b2: seq<byte>, b3: seq<byte>, b4: seq<byte>, b5: seq<byte>,
                   g: GotStat)
    requires GStr(b) == Got(d.name, b2) && GStr(b2) == Got(d.uid, b3) && GStr(b3) == Got(d.gid, b4)
    requires GStr(b4) == Got(d.muid, b5)
    requires GStatU(e.(name := d.name, uid := d.uid, gid := d.gid, muid := d.muid), b5, dotu) == g
    ensures GStatNames(e, b, dotu) == g
  {
  }

  lemma PutStatNames(e: Dir, d: Dir, dotu: bool, r: seq<byte>)
    ensures GStatNames(Bare(e), PStatNames(d, dotu) + r, dotu) == GotStat(Filled(e, d, dotu), r)
  {
    var b5 := PStatU(d, dotu) + r;
    var b4 := PStr(d.muid) + b5;
    var b3 := PStr(d.gid) + b4;
    var b2 := PStr(d.uid) + b3;
    var b := PStr(d.name) + b2;
    FiveAndRest(PStr(d.name), PStr(d.uid), PStr(d.gid), PStr(d.muid), PStatU(d, dotu), r);
    PutStr(d.name, b2);
    PutStr(d.uid, b3);
    PutStr(d.gid, b4);
    PutStr(d.muid, b5);
    PutStatU(d, Bare(e).(name := d.name, uid := d.uid, gid := d.gid, muid := d.muid), dotu, r);
    NamesSteps(d, Bare(e), dotu, b, b2, b3, b4, b5, GotStat(Filled(e, d, dotu), r));
  }

  lemma FiveAndRest(a: seq<byte>, b: seq<byte>, c: seq<byte>, d: seq<byte>, e: seq<byte>, r: seq<byte>)
    ensures (a + (b + (c + (d + e)))) + r == a + (b + (c + (d + (e + r))))
  {
  }

  lemma HeadSteps(d: Dir, b: seq<byte>, b2: seq<byte>, b3: seq<byte>, b4: seq<byte>, b5: seq<byte>, b6: seq<byte>,
                  b7: seq<byte>, b8: seq<byte>, rest: seq<byte>)
    requires G16(b) == Got(d.size, b2) && G16(b2) == Got(d.typ, b3) && G32(b3) == Got(d.dev, b4)
    requires GQid(b4) == Got(d.qid, b5)
    requires G32(b5) == Got(d.mode, b6) && G32(b6) == Got(d.atime, b7) && G32(b7) == Got(d.mtime, b8)
    requires G64(b8) == Got(d.length, rest)
    ensures GStatHead(b) == Got(Bare(d), rest)
  {
  }

  /** The part of a directory entry that has a fixed size. */
  function Bare(d: Dir): Dir {
    d.(name := [], uid := [], gid := [], muid := [], ext := [], uidnum := 0, gidnum := 0, muidnum := 0)
  }

  lemma PutStatHead(d: Dir, names: seq<byte>)
    ensures GStatHead(PStatHead(d, names)) == Got(Bare(d), names)
  {
    var b8 := P64(d.length) + names;
    var b7 := P32(d.mtime) + b8;
    var b6 := P32(d.atime) + b7;
    var b5 := P32(d.mode) + b6;
    var b4 := PQid(d.qid) + b5;
    var b3 := P32(d.dev) + b4;
    var b2 := P16(d.typ) + b3;
    var b := P16(d.size) + b2;
    assert G16(b) == Got(d.size, b2) by { Put16(d.size, b2); }
    assert G16(b2) == Got(d.typ, b3) by { Put16(d.typ, b3); }
    assert G32(b3) == Got(d.dev, b4) by { Put32(d.dev, b4); }
    assert GQid(b4) == Got(d.qid, b5) by { PutQid(d.qid, b5); }
    assert G32(b5) == Got(d.mode, b6) by { Put32(d.mode, b6); }
    assert G32(b6) == Got(d.atime, b7) by { Put32(d.atime, b7); }
    assert G32(b7) == Got(d.mtime, b8) by { Put32(d.mtime, b8); }
    assert G64(b8) == Got(d.length, names) by { Put64(d.length, names); }
    HeadSteps(d, b, b2, b3, b4, b5, b6, b7, b8, names);
  }

  lemma StatSteps(b: seq<byte>, d: Dir, p: seq<byte>, dotu: bool, r: GotStat)
    requires GStatHead(b) == Got(d, p) && GStatNames(d, p, dotu) == r
    ensures GStat(b, dotu) == r
  {
  }

  lemma HeadAndRest(d: Dir, names: seq<byte>, r: seq<byte>)
    ensures PStatHead(d, names) + r == PStatHead(d, names + r)
  {
    var head := P16(d.size) + P16(d.typ) + P32(d.dev) + PQid(d.qid);
    var more := P32(d.mode) + P32(d.atime) + P32(d.mtime) + P64(d.length);
    assert PStatHead(d, names) == head + (more + names);
    assert PStatHead(d, names + r) == head + (more + (names + r));
    Assoc(head, more + names, r);
    Assoc(more, names, r);
  }

  /** A directory entry in front of anything. */
  lemma PutStat(d: Dir, dotu: bool, r: seq<byte>)
    ensures GStat(PStat(d, dotu) + r, dotu) == GotStat(WireDir(d, dotu), r)
  {
    var e, names := Sized(d, dotu), PStatNames(d, dotu);
    HeadAndRest(e, names, r);
    PutStatHead(e, names + r);
    PutStatNames(e, d, dotu, r);
    StatSteps(PStatHead(e, names + r), Bare(e), names + r, dotu, GotStat(Filled(e, d, dotu), r));
  }

  lemma LastStat(d: Dir, dotu: bool)
    ensures GStat(PStat(d, dotu), dotu) == GotStat(WireDir(d, dotu), [])
  {
    PutStat(d, dotu, []);
    assert PStat(d, dotu) + [] == PStat(d, dotu);
  }

  lemma Last32(v: u32)
    ensures G32(P32(v)) == Got(v, [])
  {
    Put32(v, []);
    assert P32(v) + [] == P32(v);
  }

  lemma LastStr(s: Text)
    ensures GStr(PStr(s)) == Got(s, [])
  {
    PutStr(s, []);
    assert PStr(s) + [] == PStr(s);
  }

  lemma LastQid(q: Qid)
    ensures GQid(PQid(q)) == Got(q, [])
  {
    PutQid(q, []);
    assert PQid(q) + [] == PQid(q);
  }

  lemma Put8(v: byte, r: seq<byte>)
    ensures G8([v] + r) == Got(v, r)
  {
  }

  lemma LastUser(n: u32, dotu: bool, plain: u32)
    ensures GUser(Only(dotu, P32(n)), dotu, plain) == Got(if dotu then n else plain, [])
  {
    Last32(n);
  }

  ghost predicate Returns(m: Msg, dotu: bool) {
    GBody(TypeOf(m), Body(m, dotu), dotu) == Got(Wire(m, dotu), [])
  }

  lemma TversionBack(m: Msg, dotu: bool)
    requires Packable(m, dotu) && m.Tversion?
    ensures Returns(m, dotu)
  {
    var Tversion(msize, version) := m;
    Put32(msize, PStr(version));
    LastStr(version);
  }

  lemma RversionBack(m: Msg, dotu: bool)
    requires Packable(m, dotu) && m.Rversion?
    ensures Returns(m, dotu)
  {
    var Rversion(msize, version) := m;
    Put32(msize, PStr(version));
    LastStr(version);
  }

  lemma TauthBack(m: Msg, dotu: bool)
    requires Packable(m, dotu) && m.Tauth?
    ensures Returns(m, dotu)
  {
    var Tauth(afid, uname, aname, n) := m;
    var tail := Only(dotu, P32(n));
    DTauth(P32(afid) + (PStr(uname) + (PStr(aname) + tail)), dotu);
    Put32(afid, PStr(uname) + (PStr(aname) + tail));
    PutStr(uname, PStr(aname) + tail);
    PutStr(aname, tail);
    LastUser(n, dotu, NOUID);
  }

  lemma TattachBack(m: Msg, dotu: bool)
    requires Packable(m, dotu) && m.Tattach?
    ensures Returns(m, dotu)
  {
    var Tattach(fid, afid, uname, aname, n) := m;
    var tail := Only(dotu, P32(n));
    DTattach(P32(fid) + (P32(afid) + (PStr(uname) + (PStr(aname) + tail))), dotu);
    Put32(fid, P32(afid) + (PStr(uname) + (PStr(aname) + tail)));
    Put32(afid, PStr(uname) + (PStr(aname) + tail));
    PutStr(uname, PStr(aname) + tail);
    PutStr(aname, tail);
    LastUser(n, dotu, 0);
  }

  lemma RerrorBack(m: Msg, dotu: bool)
    requires Packable(m, dotu) && m.Rerror?
    ensures Returns(m, dotu)
  {
    var Rerror(error, n) := m;
    DRerror(PStr(error) + Only(dotu, P32(n)), dotu);
    PutStr(error, Only(dotu, P32(n)));
    Last32(n);
  }

  lemma TwalkBack(m: Msg, dotu: bool)
    requires Packable(m, dotu) && m.Twalk?
    ensures Returns(m, dotu)
  {
    TwalkBodyBack(m.fid, m.newfid, m.wname, dotu, Body(m, dotu));
  }

  lemma TwalkBodyBack(fid: u32, newfid: u32, wname: seq<Text>, dotu: bool, body: seq<byte>)
    requires |wname| < 0x1_0000 && body == P32(fid) + (P32(newfid) + (P16(|wname|) + PNames(wname)))
    ensures GBody(110, body, dotu) == Got(Twalk(fid, newfid, wname), [])
  {
    DTwalk(body, dotu);
    Put32(fid, P32(newfid) + (P16(|wname|) + PNames(wname)));
    Put32(newfid, P16(|wname|) + PNames(wname));
    Put16(|wname|, PNames(wname));
    PutNames(wname, []);
    assert PNames(wname) + [] == PNames(wname);
  }

  lemma RwalkBack(m: Msg, dotu: bool)
    requires Packable(m, dotu) && m.Rwalk?
    ensures Returns(m, dotu)
  {
    var Rwalk(wqid) := m;
    DRwalk(P16(|wqid|) + PQids(wqid), dotu);
    Put16(|wqid|, PQids(wqid));
    PutQids(wqid, []);
    assert PQids(wqid) + [] == PQids(wqid);
  }

  lemma TopenBack(m: Msg, dotu: bool)
    requires Packable(m, dotu) && m.Topen?
    ensures Returns(m, dotu)
  {
    var Topen(fid, mode) := m;
    Put32(fid, [mode]);
    Put8(mode, []);
  }

  lemma OpenBack(m: Msg, dotu: bool)
    requires m.Ropen? || m.Rcreate?
    ensures Returns(m, dotu)
  {
    PutQid(m.qid, P32(m.iounit));
    Last32(m.iounit);
  }

  lemma TcreateBack(m: Msg, dotu: bool)
    requires Packable(m, dotu) && m.Tcreate?
    ensures Returns(m, dotu)
  {
    var Tcreate(fid, name, perm, mode, ext) := m;
    var tail := Only(dotu, PStr(ext));
    DTcreate(P32(fid) + (PStr(name) + (P32(perm) + ([mode] + tail))), dotu);
    Put32(fid, PStr(name) + (P32(perm) + ([mode] + tail)));
    PutStr(name, P32(perm) + ([mode] + tail));
    Put32(perm, [mode] + tail);
    Put8(mode, tail);
    LastStr(ext);
  }

  lemma TreadBack(m: Msg, dotu: bool)
    requires Packable(m, dotu) && m.Tread?
    ensures Returns(m, dotu)
  {
    var Tread(fid, offset, count) := m;
    DTread(P32(fid) + (P64(offset) + P32(count)), dotu);
    Put32(fid, P64(offset) + P32(count));
    Put64(offset, P32(count));
    Last32(count);
  }

  lemma RreadBack(m: Msg, dotu: bool)
    requires Packable(m, dotu) && m.Rread?
    ensures Returns(m, dotu)
  {
    var Rread(_, data) := m;
    DRread(P32(|data|) + data, dotu);
    Put32(|data|, data);
  }

  lemma TwriteBack(m: Msg, dotu: bool)
    requires Packable(m, dotu) && m.Twrite?
    ensures Returns(m, dotu)
  {
    var Twrite(fid, offset, count, data) := m;
    DTwrite(P32(fid) + (P64(offset) + (P32(count) + data)), dotu);
    Put32(fid, P64(offset) + (P32(count) + data));
    Put64(offset, P32(count) + data);
    Put32(count, data);
  }

  lemma RstatParsed(d: Dir, dotu: bool, size: u16)
    ensures GRstat(P16(size) + PStat(d, dotu), dotu) == Got(Rstat(WireDir(d, dotu)), [])
  {
    LastStat(d, dotu);
    Put16(size, PStat(d, dotu));
  }

  lemma RstatBack(m: Msg, dotu: bool)
    requires Packable(m, dotu) && m.Rstat?
    ensures Returns(m, dotu)
  {
    RstatBodyBack(m.dir, dotu, Body(m, dotu), StatSize(m.dir, dotu));
  }

  lemma RstatBodyBack(d: Dir, dotu: bool, body: seq<byte>, size: u16)
    requires body == P16(size) + PStat(d, dotu)
    ensures GBody(125, body, dotu) == Got(Rstat(WireDir(d, dotu)), [])
  {
    DRstat(body, dotu);
    RstatParsed(d, dotu, size);
  }

  lemma TwstatParsed(fid: u32, d: Dir, dotu: bool, size: u16)
    ensures GTwstat(P32(fid) + (P16(size) + PStat(d, dotu)), dotu) == Got(Twstat(fid, WireDir(d, dotu)), [])
  {
    LastStat(d, dotu);
    Put16(size, PStat(d, dotu));
    Put32(fid, P16(size) + PStat(d, dotu));
  }

  lemma TwstatBack(m: Msg, dotu: bool)
    requires Packable(m, dotu) && m.Twstat?
    ensures Returns(m, dotu)
  {
    TwstatBodyBack(m.fid, m.dir, dotu, Body(m, dotu), StatSize(m.dir, dotu));
  }

  lemma TwstatBodyBack(fid: u32, d: Dir, dotu: bool, body: seq<byte>, size: u16)
    requires body == P32(fid) + (P16(size) + PStat(d, dotu))
    ensures GBody(126, body, dotu) == Got(Twstat(fid, WireDir(d, dotu)), [])
  {
    DTwstat(body, dotu);
    TwstatParsed(fid, d, dotu, size);
  }

  lemma QidBack(m: Msg, dotu: bool)
    requires m.Rauth? || m.Rattach?
    ensures Returns(m, dotu)
  {
    LastQid(m.qid);
  }

  lemma FidBack(m: Msg, dotu: bool)
    requires m.Tclunk? || m.Tremove? || m.Tstat? || m.Rwrite?
    ensures Returns(m, dotu)
  {
    Last32(if m.Rwrite? then m.count else m.fid);
  }

  lemma TflushBack(m: Msg, dotu: bool)
    requires Packable(m, dotu) && m.Tflush?
    ensures Returns(m, dotu)
  {
    var Tflush(oldtag) := m;
    Put16(oldtag, []);
    assert P16(oldtag) + [] == P16(oldtag);
  }

  lemma EmptyBack(m: Msg, dotu: bool)
    requires m.Rflush? || m.Rclunk? || m.Rremove? || m.Rwstat?
    ensures Returns(m, dotu)
  {
    NoFields(dotu);
  }

  lemma NoFields(dotu: bool)
    ensures GBody(109, [], dotu) == Got(Rflush, []) && GBody(121, [], dotu) == Got(Rclunk, [])
    ensures GBody(123, [], dotu) == Got(Rremove, []) && GBody(127, [], dotu) == Got(Rwstat, [])
  {
  }

  lemma DTauth(b: seq<byte>, dotu: bool)
    ensures GBody(102, b, dotu) == GTauth(b, dotu)
  {
  }

  lemma DTattach(b: seq<byte>, dotu: bool)
    ensures GBody(104, b, dotu) == GTattach(b, dotu)
  {
  }

  lemma DRerror(b: seq<byte>, dotu: bool)
    ensures GBody(107, b, dotu) == GRerror(b, dotu)
  {
  }

  lemma DTwalk(b: seq<byte>, dotu: bool)
    ensures GBody(110, b, dotu) == GTwalk(b)
  {
  }

  lemma DRwalk(b: seq<byte>, dotu: bool)
    ensures GBody(111, b, dotu) == GRwalk(b)
  {
  }

  lemma DTcreate(b: seq<byte>, dotu: bool)
    ensures GBody(114, b, dotu) == GTcreate(b, dotu)
  {
  }

  lemma DTread(b: seq<byte>, dotu: bool)
    ensures GBody(116, b, dotu) == GTread(b)
  {
  }

  lemma DRread(b: seq<byte>, dotu: bool)
    ensures GBody(117, b, dotu) == GRread(b)
  {
  }

  lemma DTwrite(b: seq<byte>, dotu: bool)
    ensures GBody(118, b, dotu) == GTwrite(b)
  {
  }

  lemma DRstat(b: seq<byte>, dotu: bool)
    ensures GBody(125, b, dotu) == GRstat(b, dotu)
  {
  }

  lemma DTwstat(b: seq<byte>, dotu: bool)
    ensures GBody(126, b, dotu) == GTwstat(b, dotu)
  {
  }

  predicate Request(m: Msg) {
    TypeOf(m) % 2 == 0
  }

  lemma RequestBack(m: Msg, dotu: bool)
    requires Packable(m, dotu) && Request(m)
    ensures Returns(m, dotu)
  {
    match m {
      case Tversion(_, _) => TversionBack(m, dotu);
      case Tauth(_, _, _, _) => TauthBack(m, dotu);
      case Tattach(_, _, _, _, _) => TattachBack(m, dotu);
      case Tflush(_) => TflushBack(m, dotu);
      case Twalk(_, _, _) => TwalkBack(m, dotu);
      case Topen(_, _) => TopenBack(m, dotu);
      case Tcreate(_, _, _, _, _) => TcreateBack(m, dotu);
      case Tread(_, _, _) => TreadBack(m, dotu);
      case Twrite(_, _, _, _) => TwriteBack(m, dotu);
      case Twstat(_, _) => TwstatBack(m, dotu);
      case _ => FidBack(m, dotu);
    }
  }

  lemma ReplyBack(m: Msg, dotu: bool)
    requires Packable(m, dotu) && !Request(m)
    ensures Returns(m, dotu)
  {
    match m {
      case Rversion(_, _) => RversionBack(m, dotu);
      case Rauth(_) => QidBack(m, dotu);
      case Rattach(_) => QidBack(m, dotu);
      case Rerror(_, _) => RerrorBack(m, dotu);
      case Rwalk(_) => RwalkBack(m, dotu);
      case Ropen(_, _) => OpenBack(m, dotu);
      case Rcreate(_, _) => OpenBack(m, dotu);
      case Rread(_, _) => RreadBack(m, dotu);
      case Rwrite(_) => FidBack(m, dotu);
      case Rstat(_) => RstatBack(m, dotu);
      case _ => EmptyBack(m, dotu);
    }
  }

  lemma BodyRoundTrip(m: Msg, dotu: bool)
    requires Packable(m, dotu)
    ensures Returns(m, dotu)
  {
    if Request(m) { RequestBack(m, dotu); } else { ReplyBack(m, dotu); }
  }

  lemma LargeEnough(m: Msg, dotu: bool)
    requires dotu || !m.Rwstat?
    ensures MinSize(TypeOf(m), dotu) <= Size(m, dotu)
  {
  }

  /**
     What was printed is parsed, whatever follows it in the buffer, in either dialect.  The one exception is
     Rwstat in plain 9P2000: it is seven bytes long, and the table the parser looks it up in demands twenty.
   */
  lemma RoundTrip(m: Msg, dotu: bool, tag: u16, rest: seq<byte>)
    requires Packable(m, dotu)
    ensures Decode(Packet(m, dotu, tag) + rest, dotu) == Ok(tag, Wire(m, dotu), Size(m, dotu)) <==> (dotu || !m.Rwstat?)
    ensures !dotu && m.Rwstat? ==> Decode(Packet(m, dotu, tag) + rest, dotu) == Bad
  {
    var size, body := Size(m, dotu), Body(m, dotu);
    var buf := Packet(m, dotu, tag) + rest;
    HeaderOf(size, TypeOf(m), tag, body, rest);
    BodyRoundTrip(m, dotu);
    if dotu || !m.Rwstat? { LargeEnough(m, dotu); }
  }

  /** The entry carries its own size and, in plain 9P2000, nothing that its bytes have no room for. */
  ghost predicate DirAsSent(d: Dir, dotu: bool) {
    && d.size == StatSize(d, dotu) - 2
    && (dotu || (d.ext == [] && d.uidnum == d.gidnum == d.muidnum == NOUID))
  }

  /** The same of a message; the data of a Twrite are as many as it counts. */
  ghost predicate AsSent(m: Msg, dotu: bool) {
    match m
    case Tauth(_, _, _, n) => dotu || n == NOUID
    case Tattach(_, _, _, _, n) => dotu || n == 0
    case Rerror(_, n) => dotu || n == 0
    case Tcreate(_, _, _, _, ext) => dotu || ext == []
    case Twrite(_, _, count, data) => count == |data|
    case Rstat(dir) => DirAsSent(dir, dotu)
    case Twstat(_, dir) => DirAsSent(dir, dotu)
    case _ => true
  }

  lemma DirIsWire(d: Dir, dotu: bool)
    requires StatSize(d, dotu) < 0x1_0000
    ensures WireDir(d, dotu) == d <==> DirAsSent(d, dotu)
  {
  }

  lemma AsSentIsWire(m: Msg, dotu: bool)
    requires Packable(m, dotu)
    ensures Wire(m, dotu) == m <==> AsSent(m, dotu)
  {
    if m.Rstat? || m.Twstat? { DirIsWire(m.dir, dotu); }
  }

  /** So a message arrives as it was, data and all, exactly if its bytes have room for all of it. */
  lemma ArrivesAsSent(m: Msg, dotu: bool, tag: u16, rest: seq<byte>)
    requires Packable(m, dotu)
    ensures Decode(Packet(m, dotu, tag) + rest, dotu) == Ok(tag, m, Size(m, dotu)) <==>
            AsSent(m, dotu) && (dotu || !m.Rwstat?)
  {
    RoundTrip(m, dotu, tag, rest);
    AsSentIsWire(m, dotu);
  }

  /** A write arrives with its data, cut or filled up with zeros to the count. */
  lemma WriteArrives(fid: u32, offset: u64, count: u32, data: seq<byte>, dotu: bool, tag: u16, rest: seq<byte>)
    returns (d: seq<byte>)
    requires |data| < 0xFFFF_FF00
    ensures Decode(Packet(Twrite(fid, offset, count, data), dotu, tag) + rest, dotu) ==
            Ok(tag, Twrite(fid, offset, count, d), 23 + |data|)
    ensures |d| == count && forall i :: 0 <= i < count ==> d[i] == if i < |data| then data[i] else 0
  {
    d := Fit(data, count);
    RoundTrip(Twrite(fid, offset, count, data), dotu, tag, rest);
  }

  /** The parser looks at nothing behind the message. */
  lemma DecodeIsLocal(buf: seq<byte>, n: nat, dotu: bool)
    requires 4 <= n <= |buf| && V32(buf) <= n
    ensures V32(buf[..n]) == V32(buf)
    ensures V32(buf) >= 7 ==> Decode(buf, dotu) == Decode(buf[..n], dotu)
    ensures V32(buf) < 7 ==> Decode(buf, dotu) == Bad
  {
    assert buf[..n][..4] == buf[..4];
    if V32(buf) >= 7 {
      var size := V32(buf);
      assert buf[..n][7..size] == buf[7..size];
      assert buf[..n][5..][..2] == buf[5..][..2];
    }
  }

  lemma HeaderOf(size: u32, typ: byte, tag: u16, body: seq<byte>, rest: seq<byte>)
    requires size == 7 + |body|
    ensures var buf := P32(size) + ([typ] + (P16(tag) + body)) + rest;
            V32(buf) == size && buf[4] == typ && V16(buf[5..]) == tag && buf[7..size] == body
  {
    var buf := P32(size) + ([typ] + (P16(tag) + body)) + rest;
    assert buf == P32(size) + (([typ] + (P16(tag) + body)) + rest);
    Put32(size, ([typ] + (P16(tag) + body)) + rest);
    assert buf[5..] == P16(tag) + (body + rest);
    Put16(tag, body + rest);
  }

  /* ---- the parser of the source ---- */

  function Before<T>(front: seq<T>, g: Got<seq<T>>): Got<seq<T>> {
    if g.Got? then Got(front + g.val, g.rest) else g
  }

  lemma BeforeNothing<T>(g: Got<seq<T>>, front: seq<T>, p: seq<byte>)
    ensures Before([], g) == g && Before(front, Got([], p)) == Got(front, p)
  {
    if g.Got? { assert [] + g.val == g.val; }
    assert front + [] == front;
  }

  lemma BeforeTwice<T>(front: seq<T>, x: T, g: Got<seq<T>>)
    ensures Before(front, Before([x], g)) == Before(front + [x], g)
  {
    if g.Got? { assert front + ([x] + g.val) == front + [x] + g.val; }
  }

  lemma OneName(p: seq<byte>, n: nat)
    requires n > 0
    ensures GNames(p, n) == match GStr(p)
                            case Got(s, rest) => Before([s], GNames(rest, n - 1))
                            case Nil => Nil
                            case Panic => Panic
  {
  }

  lemma OneQid(p: seq<byte>, n: nat)
    requires n > 0
    ensures GQids(p, n) == match GQid(p)
                           case Got(q, rest) => Before([q], GQids(rest, n - 1))
                           case Nil => Nil
                           case Panic => Panic
  {
  }

  method UnpackNames(b: seq<byte>, m: nat) returns (r: Got<seq<Text>>)
    ensures r == GNames(b, m)
  {
    var wname, p, i := [], b, 0;
    BeforeNothing(GNames(b, m), wname, b);
    while i < m
      invariant i <= m && GNames(b, m) == Before(wname, GNames(p, m - i))
    {
      var s := GStr(p);
      OneName(p, m - i);
      if !s.Got? {
        return s.PropagateFailure();
      }
      BeforeTwice(wname, s.val, GNames(s.rest, m - i - 1));
      wname, p, i := wname + [s.val], s.rest, i + 1;
    }
    BeforeNothing(GNames(p, 0), wname, p);
    r := Got(wname, p);
  }

  method UnpackQids(b: seq<byte>, m: nat) returns (r: Got<seq<Qid>>)
    ensures r == GQids(b, m)
  {
    var wqid, p, i := [], b, 0;
    BeforeNothing(GQids(b, m), wqid, b);
    while i < m
      invariant i <= m && GQids(b, m) == Before(wqid, GQids(p, m - i))
    {
      var q := GQid(p);
      OneQid(p, m - i);
      if !q.Got? {
        return q.PropagateFailure();
      }
      BeforeTwice(wqid, q.val, GQids(q.rest, m - i - 1));
      wqid, p, i := wqid + [q.val], q.rest, i + 1;
    }
    BeforeNothing(GQids(p, 0), wqid, p);
    r := Got(wqid, p);
  }

  method UnpackTwalk(b: seq<byte>) returns (r: Got<Msg>)
    ensures r == GTwalk(b)
  {
    var fid := G32(b);
    if !fid.Got? { return fid.PropagateFailure(); }
    var newfid := G32(fid.rest);
    if !newfid.Got? { return newfid.PropagateFailure(); }
    var m := G16(newfid.rest);
    if !m.Got? { return m.PropagateFailure(); }
    var names := UnpackNames(m.rest, m.val);
    if !names.Got? { return names.PropagateFailure(); }
    r := Got(Twalk(fid.val, newfid.val, names.val), names.rest);
  }

  method UnpackRwalk(b: seq<byte>) returns (r: Got<Msg>)
    ensures r == GRwalk(b)
  {
    var m := G16(b);
    if !m.Got? { return m.PropagateFailure(); }
    var qids := UnpackQids(m.rest, m.val);
    if !qids.Got? { return qids.PropagateFailure(); }
    r := Got(Rwalk(qids.val), qids.rest);
  }

  method Unpack(buf: seq<byte>, dotu: bool) returns (r: Unpacked)
    ensures r == Decode(buf, dotu)
  {
    if |buf| < 7 {
      return Bad;
    }
    var size, typ, tag := V32(buf), buf[4], V16(buf[5..]);
    if size > |buf| || size < 7 {
      return Bad;
    }
    if typ < 100 || typ >= 128 || size < MinSize(typ, dotu) {
      return Bad;
    }
    var p, got := buf[7..size], Nil;
    if typ == 110 {
      DTwalk(p, dotu);
      got := UnpackTwalk(p);
    } else if typ == 111 {
      DRwalk(p, dotu);
      got := UnpackRwalk(p);
    } else {
      got := GBody(typ, p, dotu);
    }
    if got.Panic? {
      return Crash;
    }
    r := if got.Nil? || |got.rest| > 0 then Bad else Ok(tag, got.val, size);
  }
}
