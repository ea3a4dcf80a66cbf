/**
 The format itself (p/p9.go, p/packt.go, p/packr.go, p/unpack.go): a parser accepts no bytes but those a message
 is printed as, and here is what each message is printed as, byte by byte.
 */
module WireFormat {
  import opened Common
  import opened Codec

  /* ---- from bytes back to bytes ---- */

  lemma {:induction false} BytesOfValue(s: seq<byte>)
    ensures Bytes(Value(s), |s|) == s
  {
    if s != [] {
      var low: int := s[0];
      BytesOfValue(s[1..]);
      assert Value(s) % 256 == low && Value(s) / 256 == Value(s[1..]);
      assert [s[0]] + s[1..] == s;
    }
  }

  lemma Was16(b: seq<byte>)
    requires |b| >= 2
    ensures b == P16(V16(b)) + b[2..]
  {
    BytesOfValue(b[..2]);
  }

  lemma Was32(b: seq<byte>)
    requires |b| >= 4
    ensures b == P32(V32(b)) + b[4..]
  {
    BytesOfValue(b[..4]);
  }

  lemma Was64(b: seq<byte>)
    requires |b| >= 8
    ensures b == P64(V64(b)) + b[8..]
  {
    BytesOfValue(b[..8]);
  }

  lemma WasStr(b: seq<byte>)
    requires GStr(b).Got?
    ensures b == PStr(GStr(b).val) + GStr(b).rest
  {
    Was16(b);
    var p := b[2..];
    assert p == p[..V16(b)] + p[V16(b)..];
  }

  lemma WasQid(b: seq<byte>)
    requires GQid(b).Got?
    ensures b == PQid(GQid(b).val) + GQid(b).rest
  {
    var p := b[1..];
    assert b == [b[0]] + p;
    Was32(p);
    Was64(p[4..]);
  }

  lemma {:induction false} WasNames(b: seq<byte>, n: nat)
    requires GNames(b, n).Got?
    ensures |GNames(b, n).val| == n && b == PNames(GNames(b, n).val) + GNames(b, n).rest
    decreases n
  {
    if n > 0 {
      WasStr(b);
      WasNames(GStr(b).rest, n - 1);
      var name, names := GStr(b).val, GNames(GStr(b).rest, n - 1).val;
      assert ([name] + names)[1..] == names;
      Assoc(PStr(name), PNames(names), GNames(b, n).rest);
    }
  }

  lemma {:induction false} WasQids(b: seq<byte>, n: nat)
    requires GQids(b, n).Got?
    ensures |GQids(b, n).val| == n && b == PQids(GQids(b, n).val) + GQids(b, n).rest
    decreases n
  {
    if n > 0 {
      WasQid(b);
      WasQids(GQid(b).rest, n - 1);
      var q, qids := GQid(b).val, GQids(GQid(b).rest, n - 1).val;
      assert ([q] + qids)[1..] == qids;
      Assoc(PQid(q), PQids(qids), GQids(b, n).rest);
    }
  }

  /** An entry with the size it says it has. */
  function Stat(d: Dir, dotu: bool): seq<byte> {
    PStatHead(d, PStatNames(d, dotu))
  }

  lemma WasStatHead(b: seq<byte>)
    requires GStatHead(b).Got?
    ensures var d := GStatHead(b).val; d == Bare(d) && b == PStatHead(d, GStatHead(b).rest)
  {
    var (size, b2) := (V16(b), b[2..]);
    var (typ, b3) := (V16(b2), b2[2..]);
    var (dev, b4) := (V32(b3), b3[4..]);
    Was16(b);
    Was16(b2);
    Was32(b3);
    WasQid(b4);
    var b5 := GQid(b4).rest;
    WasTimes(b5);
  }

  lemma WasTimes(b: seq<byte>)
    requires |b| >= 20
    ensures b == P32(V32(b)) + (P32(V32(b[4..])) + (P32(V32(b[4..][4..])) + (P64(V64(b[4..][4..][4..]))
                 + b[4..][4..][4..][8..])))
  {
    Was32(b);
    Was32(b[4..]);
    Was32(b[4..][4..]);
    Was64(b[4..][4..][4..]);
  }

  /** Only the fields that a part of an entry has differ. */
  ghost predicate SameHead(d: Dir, e: Dir) {
    Bare(d) == Bare(e)
  }

  lemma WasNumbers(p: seq<byte>)
    requires |p| >= 12
    ensures p == P32(V32(p)) + (P32(V32(p[4..])) + (P32(V32(p[8..])) + p[12..]))
  {
    Was32(p);
    Was32(p[4..]);
    Was32(p[8..]);
    assert p[4..][4..] == p[8..] && p[8..][4..] == p[12..];
  }

  lemma WasStatU(d: Dir, b: seq<byte>, dotu: bool)
    requires GStatU(d, b, dotu).GotStat?
    ensures var g := GStatU(d, b, dotu);
            && b == PStatU(g.dir, dotu) + g.rest && SameHead(g.dir, d)
            && g.dir.name == d.name && g.dir.uid == d.uid && g.dir.gid == d.gid && g.dir.muid == d.muid
            && (!dotu ==> g.dir.ext == d.ext && g.dir.uidnum == g.dir.gidnum == g.dir.muidnum == NOUID)
  {
    if dotu {
      WasStr(b);
      WasNumbers(GStr(b).rest);
    } else {
      assert [] + b == b;
    }
  }

  lemma WasStatNames(d: Dir, b: seq<byte>, dotu: bool)
    requires GStatNames(d, b, dotu).GotStat?
    ensures var g := GStatNames(d, b, dotu);
            && b == PStatNames(g.dir, dotu) + g.rest && SameHead(g.dir, d)
            && (!dotu ==> g.dir.ext == d.ext && g.dir.uidnum == g.dir.gidnum == g.dir.muidnum == NOUID)
  {
    var g := GStatNames(d, b, dotu);
    WasStr(b);
    var b2 := GStr(b).rest;
    WasStr(b2);
    var b3 := GStr(b2).rest;
    WasStr(b3);
    var b4 := GStr(b3).rest;
    WasStr(b4);
    var b5 := GStr(b4).rest;
    var e := d.(name := GStr(b).val, uid := GStr(b2).val, gid := GStr(b3).val, muid := GStr(b4).val);
    WasStatU(e, b5, dotu);
    FiveAndRest(PStr(e.name), PStr(e.uid), PStr(e.gid), PStr(e.muid), PStatU(g.dir, dotu), g.rest);
  }

  lemma WasStat(b: seq<byte>, dotu: bool)
    requires GStat(b, dotu).GotStat?
    ensures var g := GStat(b, dotu);
            && b == Stat(g.dir, dotu) + g.rest
            && (!dotu ==> g.dir.ext == [] && g.dir.uidnum == g.dir.gidnum == g.dir.muidnum == NOUID)
  {
    var g := GStat(b, dotu);
    WasStatHead(b);
    var d, names := GStatHead(b).val, GStatHead(b).rest;
    WasStatNames(d, names, dotu);
    assert PStatHead(d, names) == PStatHead(g.dir, names);
    HeadAndRest(g.dir, PStatNames(g.dir, dotu), g.rest);
  }

  /* ---- the fields of a message ---- */

  /** The bytes that a message can be printed as; four kinds have more than one form. */
  ghost predicate Says(m: Msg, dotu: bool, b: seq<byte>) {
    match m
    case Tauth(afid, uname, aname, n) =>
      || b == Body(m, dotu)
      || (dotu && n == NOUID && b == Body(m, false))
    case Tattach(fid, afid, uname, aname, n) =>
      || b == Body(m, dotu)
      || (dotu && n == NOUID && b == Body(m, false))
    case Rread(count, data) => count == |data| && b == Body(m, dotu)
    case Twrite(fid, offset, count, data) =>
      exists d: seq<byte> :: b == P32(fid) + (P64(offset) + (P32(count) + d)) && Cut(data, d, count)
    case Rstat(dir) => exists n: u16 :: b == P16(n) + Stat(dir, dotu)
    case Twstat(fid, dir) => exists n: u16, e: seq<byte> :: SaysStat(fid, n, e, b) && Entry(dir, dotu, e)
    case _ => b == Body(m, dotu)
  }

  ghost predicate SaysStat(fid: u32, n: u16, e: seq<byte>, b: seq<byte>) {
    b == P32(fid) + (P16(n) + e)
  }

  /** The bytes of an entry, or of one that ends in a string which does not fit: then d is what could be read. */
  ghost predicate Entry(d: Dir, dotu: bool, e: seq<byte>) {
    e == Stat(d, dotu) || GStat(e, dotu) == StatNil(d)
  }

  /** data is d, cut or filled up with zeros to count bytes. */
  ghost predicate Cut(data: seq<byte>, d: seq<byte>, count: nat) {
    |data| == count && forall i :: 0 <= i < count ==> data[i] == if i < |d| then d[i] else 0
  }

  /** The fields of type typ have been taken, and nothing is left. */
  ghost predicate Parses(typ: byte, b: seq<byte>, dotu: bool) {
    GBody(typ, b, dotu).Got? && GBody(typ, b, dotu).rest == []
  }

  ghost predicate Back(typ: byte, b: seq<byte>, dotu: bool)
    requires Parses(typ, b, dotu)
  {
    TypeOf(GBody(typ, b, dotu).val) == typ && Says(GBody(typ, b, dotu).val, dotu, b)
  }

  lemma Nothing(s: seq<byte>)
    ensures s + [] == s
  {
  }

  lemma VersionWas(typ: byte, b: seq<byte>, dotu: bool)
    requires (typ == 100 || typ == 101) && Parses(typ, b, dotu)
    ensures Back(typ, b, dotu)
  {
    Was32(b);
    WasStr(b[4..]);
    Nothing(PStr(GStr(b[4..]).val));
  }

  /** The number that may be left out. */
  lemma WasUser(b: seq<byte>, dotu: bool, plain: u32)
    requires GUser(b, dotu, plain).Got? && GUser(b, dotu, plain).rest == []
    ensures var n := GUser(b, dotu, plain).val; b == Only(dotu, P32(n)) || (dotu && n == NOUID && b == [])
  {
    if dotu && |b| > 0 {
      Was32(b);
      Nothing(P32(V32(b)));
    }
  }

  lemma TauthWas(b: seq<byte>, dotu: bool)
    requires Parses(102, b, dotu)
    ensures Back(102, b, dotu)
  {
    DTauth(b, dotu);
    Was32(b);
    WasStr(b[4..]);
    var p := GStr(b[4..]).rest;
    WasStr(p);
    WasUser(GStr(p).rest, dotu, NOUID);
  }

  lemma TattachWas(b: seq<byte>, dotu: bool)
    requires Parses(104, b, dotu)
    ensures Back(104, b, dotu)
  {
    DTattach(b, dotu);
    Was32(b);
    Was32(b[4..]);
    var q := b[4..][4..];
    WasStr(q);
    var p := GStr(q).rest;
    WasStr(p);
    WasUser(GStr(p).rest, dotu, 0);
  }

  lemma QidWas(typ: byte, b: seq<byte>, dotu: bool)
    requires (typ == 103 || typ == 105) && Parses(typ, b, dotu)
    ensures Back(typ, b, dotu)
  {
    WasQid(b);
    Nothing(PQid(GQid(b).val));
  }

  lemma RerrorWas(b: seq<byte>, dotu: bool)
    requires Parses(107, b, dotu)
    ensures Back(107, b, dotu)
  {
    DRerror(b, dotu);
    WasStr(b);
    if dotu {
      Was32(GStr(b).rest);
      Nothing(P32(V32(GStr(b).rest)));
    }
  }

  lemma TflushWas(b: seq<byte>, dotu: bool)
    requires Parses(108, b, dotu)
    ensures Back(108, b, dotu)
  {
    Was16(b);
    Nothing(P16(V16(b)));
  }

  lemma TwalkWas(b: seq<byte>, dotu: bool)
    requires Parses(110, b, dotu)
    ensures Back(110, b, dotu)
  {
    DTwalk(b, dotu);
    Was32(b);
    Was32(b[4..]);
    var p := b[4..][4..];
    Was16(p);
    WasNames(p[2..], V16(p));
    Nothing(PNames(GNames(p[2..], V16(p)).val));
  }

  lemma RwalkWas(b: seq<byte>, dotu: bool)
    requires Parses(111, b, dotu)
    ensures Back(111, b, dotu)
  {
    DRwalk(b, dotu);
    Was16(b);
    WasQids(b[2..], V16(b));
    Nothing(PQids(GQids(b[2..], V16(b)).val));
  }

  lemma TopenWas(b: seq<byte>, dotu: bool)
    requires Parses(112, b, dotu)
    ensures Back(112, b, dotu)
  {
    Was32(b);
    var p := b[4..];
    assert p == [p[0]] + p[1..];
  }

  lemma OpenWas(typ: byte, b: seq<byte>, dotu: bool)
    requires (typ == 113 || typ == 115) && Parses(typ, b, dotu)
    ensures Back(typ, b, dotu)
  {
    WasQid(b);
    Was32(GQid(b).rest);
    Nothing(P32(V32(GQid(b).rest)));
  }

  lemma TcreateWas(b: seq<byte>, dotu: bool)
    requires Parses(114, b, dotu)
    ensures Back(114, b, dotu)
  {
    DTcreate(b, dotu);
    Was32(b);
    WasStr(b[4..]);
    var p := GStr(b[4..]).rest;
    Was32(p);
    var q := p[4..];
    assert q == [q[0]] + q[1..];
    if dotu {
      WasStr(q[1..]);
      Nothing(PStr(GStr(q[1..]).val));
    }
  }

  lemma TreadWas(b: seq<byte>, dotu: bool)
    requires Parses(116, b, dotu)
    ensures Back(116, b, dotu)
  {
    DTread(b, dotu);
    Was32(b);
    Was64(b[4..]);
    Was32(b[4..][8..]);
    Nothing(P32(V32(b[4..][8..])));
  }

  lemma RreadWas(b: seq<byte>, dotu: bool)
    requires Parses(117, b, dotu)
    ensures Back(117, b, dotu)
  {
    DRread(b, dotu);
    Was32(b);
  }

  lemma TwriteWas(b: seq<byte>, dotu: bool)
    requires Parses(118, b, dotu)
    ensures Back(118, b, dotu)
  {
    DTwrite(b, dotu);
    Was32(b);
    Was64(b[4..]);
    Was32(b[4..][8..]);
    assert Cut(Fit(b[4..][8..][4..], V32(b[4..][8..])), b[4..][8..][4..], V32(b[4..][8..]));
  }

  lemma NumberWas(typ: byte, b: seq<byte>, dotu: bool)
    requires typ in {119, 120, 122, 124} && Parses(typ, b, dotu)
    ensures Back(typ, b, dotu)
  {
    Was32(b);
    Nothing(P32(V32(b)));
  }

  lemma StatAlone(e: seq<byte>, dotu: bool, g: GotStat)
    requires GStat(e, dotu) == g && g.GotStat? && g.rest == []
    ensures e == Stat(g.dir, dotu)
  {
    WasStat(e, dotu);
    Nothing(Stat(g.dir, dotu));
  }

  lemma RstatSays(d: Dir, dotu: bool, n: u16, e: seq<byte>)
    requires e == Stat(d, dotu)
    ensures Says(Rstat(d), dotu, P16(n) + e)
  {
  }

  lemma RstatWas(b: seq<byte>, dotu: bool)
    requires Parses(125, b, dotu)
    ensures Back(125, b, dotu)
  {
    DRstat(b, dotu);
    Was16(b);
    var g := GStat(b[2..], dotu);
    StatAlone(b[2..], dotu, g);
    RstatSays(g.dir, dotu, V16(b), b[2..]);
  }

  lemma TwstatSays(fid: u32, d: Dir, dotu: bool, n: u16, e: seq<byte>, b: seq<byte>)
    requires SaysStat(fid, n, e, b) && Entry(d, dotu, e)
    ensures Says(Twstat(fid, d), dotu, b)
  {
  }

  lemma TwstatForm(b: seq<byte>, dotu: bool)
    requires GTwstat(b, dotu).Got?
    ensures |b| >= 6 && SaysStat(V32(b), V16(b[4..]), b[4..][2..], b)
    ensures GTwstat(b, dotu) == match GStat(b[4..][2..], dotu)
                                case GotStat(dir, rest) => Got(Twstat(V32(b), dir), rest)
                                case StatNil(dir) => Got(Twstat(V32(b), dir), [])
                                case StatPanic => Panic
  {
    Was32(b);
    Was16(b[4..]);
  }

  lemma TwstatWas(b: seq<byte>, dotu: bool)
    requires Parses(126, b, dotu)
    ensures Back(126, b, dotu)
  {
    DTwstat(b, dotu);
    TwstatForm(b, dotu);
    var e := b[4..][2..];
    var g := GStat(e, dotu);
    if g.GotStat? { StatAlone(e, dotu, g); }
    TwstatSays(V32(b), g.dir, dotu, V16(b[4..]), e, b);
  }

  lemma EmptyWas(typ: byte, b: seq<byte>, dotu: bool)
    requires typ in {109, 121, 123, 127} && Parses(typ, b, dotu)
    ensures Back(typ, b, dotu)
  {
  }

  lemma NoSuchType(typ: byte, b: seq<byte>, dotu: bool)
    requires typ < 100 || typ > 127 || typ == 106
    ensures GBody(typ, b, dotu) == Nil
  {
  }

  lemma BodyWas(typ: byte, b: seq<byte>, dotu: bool)
    requires Parses(typ, b, dotu)
    ensures Back(typ, b, dotu)
  {
    if typ < 100 || typ > 127 || typ == 106 { NoSuchType(typ, b, dotu); }
    match typ
    case 102 => TauthWas(b, dotu);
    case 104 => TattachWas(b, dotu);
    case 107 => RerrorWas(b, dotu);
    case 108 => TflushWas(b, dotu);
    case 110 => TwalkWas(b, dotu);
    case 111 => RwalkWas(b, dotu);
    case 112 => TopenWas(b, dotu);
    case 114 => TcreateWas(b, dotu);
    case 116 => TreadWas(b, dotu);
    case 117 => RreadWas(b, dotu);
    case 118 => TwriteWas(b, dotu);
    case 125 => RstatWas(b, dotu);
    case 126 => TwstatWas(b, dotu);
    case _ =>
      if typ == 100 || typ == 101 { VersionWas(typ, b, dotu); }
      else if typ == 103 || typ == 105 { QidWas(typ, b, dotu); }
      else if typ == 113 || typ == 115 { OpenWas(typ, b, dotu); }
      else if typ in {119, 120, 122, 124} { NumberWas(typ, b, dotu); }
      else { EmptyWas(typ, b, dotu); }
  }

  /** What the parser accepts is a header with the size, type and tag it gives, and bytes that say the message. */
  lemma AcceptedBytes(buf: seq<byte>, dotu: bool)
    requires Decode(buf, dotu).Ok?
    ensures var Ok(tag, m, used) := Decode(buf, dotu);
            && 7 <= used <= |buf|
            && buf[..used] == P32(used) + ([TypeOf(m)] + (P16(tag) + buf[7..used])) && Says(m, dotu, buf[7..used])
  {
    var Ok(tag, m, used) := Decode(buf, dotu);
    BodyWas(buf[4], buf[7..used], dotu);
    HeaderWas(buf, used, tag);
  }

  lemma HeaderWas(buf: seq<byte>, size: u32, tag: u16)
    requires 7 <= size <= |buf| && size == V32(buf) && tag == V16(buf[5..])
    ensures buf[..size] == P32(size) + ([buf[4]] + (P16(tag) + buf[7..size]))
  {
    Was32(buf);
    Was16(buf[5..]);
    assert buf[7..] == buf[7..size] + buf[size..];
    assert buf == P32(size) + ([buf[4]] + (P16(tag) + buf[7..]));
  }

  /* ---- each message, field by field ---- */

  /** Numbers go lowest byte first. */
  lemma LowestFirst()
    ensures P16(0x0201) == [1, 2] && P32(0x0403_0201) == [1, 2, 3, 4]
    ensures P64(0x0807_0605_0403_0201) == [1, 2, 3, 4, 5, 6, 7, 8]
  {
  }

  /** b is the number v in w bytes. */
  ghost predicate Num(b: seq<byte>, w: nat, v: nat) {
    |b| == w && Value(b) == v
  }

  /** b is a string: its length in two bytes, and the string. */
  ghost predicate Str(b: seq<byte>, s: Text) {
    |b| == 2 + |s| && Num(b[..2], 2, |s|) && b[2..] == s
  }

  /** Thirteen bytes of a qid. */
  ghost predicate IsQid(b: seq<byte>, q: Qid) {
    |b| == 13 && b[0] == q.typ && Num(b[1..5], 4, q.version) && Num(b[5..], 8, q.path)
  }

  lemma Is16(b: seq<byte>, v: u16)
    requires Num(b, 2, v)
    ensures P16(v) == b
  {
    BytesOfValue(b);
  }

  lemma Is32(b: seq<byte>, v: u32)
    requires Num(b, 4, v)
    ensures P32(v) == b
  {
    BytesOfValue(b);
  }

  lemma Is64(b: seq<byte>, v: u64)
    requires Num(b, 8, v)
    ensures P64(v) == b
  {
    BytesOfValue(b);
  }

  lemma IsStr(b: seq<byte>, s: Text)
    requires Str(b, s)
    ensures PStr(s) == b
  {
    Is16(b[..2], |s|);
    assert b == b[..2] + b[2..];
  }

  lemma IsQidBytes(b: seq<byte>, q: Qid)
    requires IsQid(b, q)
    ensures PQid(q) == b
  {
    Is32(b[1..5], q.version);
    Is64(b[5..], q.path);
    assert b == [b[0]] + (b[1..5] + b[5..]);
  }

  /** Strings one after the other. */
  ghost predicate Strs(b: seq<byte>, ss: seq<Text>)
    decreases |ss|
  {
    if ss == [] then b == []
    else 2 + |ss[0]| <= |b| && Str(b[..2 + |ss[0]|], ss[0]) && Strs(b[2 + |ss[0]|..], ss[1..])
  }

  lemma {:induction false} IsStrs(b: seq<byte>, ss: seq<Text>)
    requires Strs(b, ss)
    ensures PNames(ss) == b
    decreases |ss|
  {
    if ss != [] {
      var n := 2 + |ss[0]|;
      IsStr(b[..n], ss[0]);
      IsStrs(b[n..], ss[1..]);
      assert b == b[..n] + b[n..];
    }
  }

  ghost predicate AreQids(b: seq<byte>, qs: seq<Qid>) {
    |b| == 13 * |qs| && forall i :: 0 <= i < |qs| ==> IsQid(b[13 * i..13 * i + 13], qs[i])
  }

  lemma {:induction false} IsQids(b: seq<byte>, qs: seq<Qid>)
    requires AreQids(b, qs)
    ensures PQids(qs) == b
  {
    if qs != [] {
      IsQidBytes(b[..13], qs[0]);
      forall i | 0 <= i < |qs| - 1 ensures IsQid(b[13..][13 * i..13 * i + 13], qs[1..][i]) {
        assert b[13..][13 * i..13 * i + 13] == b[13 * (i + 1)..13 * (i + 1) + 13];
      }
      IsQids(b[13..], qs[1..]);
      assert b == b[..13] + b[13..];
    }
  }

  /** Fields one after the other. */
  function Cat(p: seq<seq<byte>>): seq<byte> {
    if p == [] then [] else if |p| == 1 then p[0] else p[0] + Cat(p[1..])
  }

  lemma Cats(p: seq<seq<byte>>)
    ensures |p| == 2 ==> Cat(p) == p[0] + p[1]
    ensures |p| == 3 ==> Cat(p) == p[0] + (p[1] + p[2])
    ensures |p| == 4 ==> Cat(p) == p[0] + (p[1] + (p[2] + p[3]))
    ensures |p| == 5 ==> Cat(p) == p[0] + (p[1] + (p[2] + (p[3] + p[4])))
  {
    if 1 < |p| <= 5 { Cats(p[1..]); }
  }

  /** The type and the fields of each message; those of 9P2000.u are empty in plain 9P2000. */
  ghost predicate Laid(m: Msg, dotu: bool, typ: byte, p: seq<seq<byte>>) {
    match m
    case Tversion(msize, version) => typ == 100 && |p| == 2 && Num(p[0], 4, msize) && Str(p[1], version)
    case Rversion(msize, version) => typ == 101 && |p| == 2 && Num(p[0], 4, msize) && Str(p[1], version)
    case Tauth(afid, uname, aname, n) =>
      typ == 102 && |p| == 4 && Num(p[0], 4, afid) && Str(p[1], uname) && Str(p[2], aname) && User(p[3], dotu, n)
    case Rauth(qid) => typ == 103 && |p| == 1 && IsQid(p[0], qid)
    case Tattach(fid, afid, uname, aname, n) =>
      && typ == 104 && |p| == 5 && Num(p[0], 4, fid) && Num(p[1], 4, afid)
      && Str(p[2], uname) && Str(p[3], aname) && User(p[4], dotu, n)
    case Rattach(qid) => typ == 105 && |p| == 1 && IsQid(p[0], qid)
    case Rerror(error, n) => typ == 107 && |p| == 2 && Str(p[0], error) && User(p[1], dotu, n)
    case Tflush(oldtag) => typ == 108 && |p| == 1 && Num(p[0], 2, oldtag)
    case Rflush => typ == 109 && p == []
    case Twalk(fid, newfid, wname) =>
      && typ == 110 && |p| == 4 && Num(p[0], 4, fid) && Num(p[1], 4, newfid)
      && Num(p[2], 2, |wname|) && Strs(p[3], wname)
    case Rwalk(wqid) => typ == 111 && |p| == 2 && Num(p[0], 2, |wqid|) && AreQids(p[1], wqid)
    case Topen(fid, mode) => typ == 112 && |p| == 2 && Num(p[0], 4, fid) && p[1] == [mode]
    case Ropen(qid, iounit) => typ == 113 && |p| == 2 && IsQid(p[0], qid) && Num(p[1], 4, iounit)
    case Tcreate(fid, name, perm, mode, ext) =>
      && typ == 114 && |p| == 5 && Num(p[0], 4, fid) && Str(p[1], name) && Num(p[2], 4, perm) && p[3] == [mode]
      && if dotu then Str(p[4], ext) else p[4] == []
    case Rcreate(qid, iounit) => typ == 115 && |p| == 2 && IsQid(p[0], qid) && Num(p[1], 4, iounit)
    case Tread(fid, offset, count) =>
      typ == 116 && |p| == 3 && Num(p[0], 4, fid) && Num(p[1], 8, offset) && Num(p[2], 4, count)
    case Rread(count, data) => typ == 117 && |p| == 2 && Num(p[0], 4, count) && p[1] == data
    case Twrite(fid, offset, count, data) =>
      && typ == 118 && |p| == 4 && Num(p[0], 4, fid) && Num(p[1], 8, offset) && Num(p[2], 4, count) && p[3] == data
    case Rwrite(count) => typ == 119 && |p| == 1 && Num(p[0], 4, count)
    case Tclunk(fid) => typ == 120 && |p| == 1 && Num(p[0], 4, fid)
    case Rclunk => typ == 121 && p == []
    case Tremove(fid) => typ == 122 && |p| == 1 && Num(p[0], 4, fid)
    case Rremove => typ == 123 && p == []
    case Tstat(fid) => typ == 124 && |p| == 1 && Num(p[0], 4, fid)
    case Rstat(dir) => typ == 125 && |p| == 2 && Num(p[0], 2, StatSize(dir, dotu)) && p[1] == PStat(dir, dotu)
    case Twstat(fid, dir) =>
      && typ == 126 && |p| == 3 && Num(p[0], 4, fid) && Num(p[1], 2, StatSize(dir, dotu)) && p[2] == PStat(dir, dotu)
    case Rwstat => typ == 127 && p == []
  }

  ghost predicate User(b: seq<byte>, dotu: bool, n: u32) {
    if dotu then Num(b, 4, n) else b == []
  }

  lemma IsUser(b: seq<byte>, dotu: bool, n: u32)
    requires User(b, dotu, n)
    ensures Only(dotu, P32(n)) == b
  {
    if dotu { Is32(b, n); }
  }

  lemma LaidSession(m: Msg, dotu: bool, typ: byte, p: seq<seq<byte>>)
    requires Laid(m, dotu, typ, p) && typ < 110
    ensures TypeOf(m) == typ && Body(m, dotu) == Cat(p)
  {
    Cats(p);
    match m
    case Tauth(afid, uname, aname, n) =>
      Is32(p[0], afid); IsStr(p[1], uname); IsStr(p[2], aname); IsUser(p[3], dotu, n);
    case Tattach(fid, afid, uname, aname, n) =>
      Is32(p[0], fid); Is32(p[1], afid); IsStr(p[2], uname); IsStr(p[3], aname); IsUser(p[4], dotu, n);
    case Rerror(error, n) => IsStr(p[0], error); IsUser(p[1], dotu, n);
    case Tflush(oldtag) => Is16(p[0], oldtag);
    case Tversion(msize, version) => Is32(p[0], msize); IsStr(p[1], version);
    case Rversion(msize, version) => Is32(p[0], msize); IsStr(p[1], version);
    case Rauth(qid) => IsQidBytes(p[0], qid);
    case Rattach(qid) => IsQidBytes(p[0], qid);
    case _ =>
  }

  lemma LaidFile(m: Msg, dotu: bool, typ: byte, p: seq<seq<byte>>)
    requires Laid(m, dotu, typ, p) && 110 <= typ < 116
    ensures TypeOf(m) == typ && Body(m, dotu) == Cat(p)
  {
    Cats(p);
    match m
    case Twalk(fid, newfid, wname) =>
      Is32(p[0], fid); Is32(p[1], newfid); Is16(p[2], |wname|); IsStrs(p[3], wname);
    case Rwalk(wqid) => Is16(p[0], |wqid|); IsQids(p[1], wqid);
    case Topen(fid, _) => Is32(p[0], fid);
    case Ropen(qid, iounit) => IsQidBytes(p[0], qid); Is32(p[1], iounit);
    case Rcreate(qid, iounit) => IsQidBytes(p[0], qid); Is32(p[1], iounit);
    case Tcreate(fid, name, perm, _, ext) =>
      Is32(p[0], fid); IsStr(p[1], name); Is32(p[2], perm);
      if dotu { IsStr(p[4], ext); }
    case _ =>
  }

  lemma LaidData(m: Msg, dotu: bool, typ: byte, p: seq<seq<byte>>)
    requires Laid(m, dotu, typ, p) && 116 <= typ < 120
    ensures TypeOf(m) == typ && Body(m, dotu) == Cat(p)
  {
    Cats(p);
    match m
    case Tread(fid, offset, count) => Is32(p[0], fid); Is64(p[1], offset); Is32(p[2], count);
    case Rread(count, _) => Is32(p[0], count);
    case Twrite(fid, offset, count, _) => Is32(p[0], fid); Is64(p[1], offset); Is32(p[2], count);
    case Rwrite(count) => Is32(p[0], count);
    case _ =>
  }

  lemma LaidStats(m: Msg, dotu: bool, typ: byte, p: seq<seq<byte>>)
    requires Laid(m, dotu, typ, p) && 120 <= typ
    ensures TypeOf(m) == typ && Body(m, dotu) == Cat(p)
  {
    Cats(p);
    match m
    case Tclunk(fid) => Is32(p[0], fid);
    case Tremove(fid) => Is32(p[0], fid);
    case Tstat(fid) => Is32(p[0], fid);
    case Rstat(dir) => Is16(p[0], StatSize(dir, dotu));
    case Twstat(fid, dir) => Is32(p[0], fid); Is16(p[1], StatSize(dir, dotu));
    case _ =>
  }

  /** A packet: its size, its type, its tag, and its fields. */
  lemma PacketLaid(m: Msg, dotu: bool, typ: byte, tag: u16, size: seq<byte>, t: seq<byte>, p: seq<seq<byte>>)
    requires Laid(m, dotu, typ, p) && 7 + |Cat(p)| < 0x1_0000_0000
    requires Num(size, 4, 7 + |Cat(p)|) && Num(t, 2, tag)
    ensures Size(m, dotu) == 7 + |Cat(p)| && Packet(m, dotu, tag) == size + ([typ] + (t + Cat(p)))
  {
    if typ < 110 { LaidSession(m, dotu, typ, p); }
    else if typ < 116 { LaidFile(m, dotu, typ, p); }
    else if typ < 120 { LaidData(m, dotu, typ, p); }
    else { LaidStats(m, dotu, typ, p); }
    Is32(size, 7 + |Cat(p)|);
    Is16(t, tag);
  }

  /** The fields of a directory entry. */
  ghost predicate StatLaid(d: Dir, dotu: bool, p: seq<seq<byte>>) {
    && |p| == 13
    && Num(p[0], 2, Low16(StatSize(d, dotu) - 2)) && Num(p[1], 2, d.typ) && Num(p[2], 4, d.dev) && IsQid(p[3], d.qid)
    && Num(p[4], 4, d.mode) && Num(p[5], 4, d.atime) && Num(p[6], 4, d.mtime) && Num(p[7], 8, d.length)
    && Str(p[8], d.name) && Str(p[9], d.uid) && Str(p[10], d.gid) && Str(p[11], d.muid)
    && if dotu then UnixLaid(d, p[12]) else p[12] == []
  }

  /** Those of 9P2000.u. */
  ghost predicate UnixLaid(d: Dir, b: seq<byte>) {
    var n := 2 + |d.ext|;
    |b| == n + 12 && Str(b[..n], d.ext)
    && Num(b[n..n + 4], 4, d.uidnum) && Num(b[n + 4..n + 8], 4, d.gidnum) && Num(b[n + 8..], 4, d.muidnum)
  }

  lemma UnixIs(d: Dir, b: seq<byte>)
    requires UnixLaid(d, b)
    ensures PStatU(d, true) == b
  {
    var n := 2 + |d.ext|;
    IsStr(b[..n], d.ext);
    Is32(b[n..n + 4], d.uidnum);
    Is32(b[n + 4..n + 8], d.gidnum);
    Is32(b[n + 8..], d.muidnum);
    assert b == b[..n] + (b[n..n + 4] + (b[n + 4..n + 8] + b[n + 8..]));
  }

  lemma {:induction false} CatFront(p: seq<seq<byte>>, k: nat)
    requires k < |p|
    ensures k > 0 ==> Cat(p[k - 1..]) == p[k - 1] + Cat(p[k..])
    ensures k == |p| - 1 ==> Cat(p[k..]) == p[k]
  {
    if k > 0 { assert p[k - 1..][1..] == p[k..]; }
  }

  lemma NamesLaid(d: Dir, dotu: bool, p: seq<seq<byte>>)
    requires StatLaid(d, dotu, p)
    ensures PStatNames(d, dotu) == Cat(p[8..])
  {
    IsStr(p[8], d.name);
    IsStr(p[9], d.uid);
    IsStr(p[10], d.gid);
    IsStr(p[11], d.muid);
    if dotu { UnixIs(d, p[12]); }
    CatFront(p, 9);
    CatFront(p, 10);
    CatFront(p, 11);
    CatFront(p, 12);
  }

  /** An entry: two sizes, as the message has one in front of it too, and the fields of the dialect. */
  lemma EntryLaid(d: Dir, dotu: bool, p: seq<seq<byte>>)
    requires StatLaid(d, dotu, p)
    ensures PStat(d, dotu) == Cat(p)
  {
    NamesLaid(d, dotu, p);
    Is16(p[0], Low16(StatSize(d, dotu) - 2));
    Is16(p[1], d.typ);
    Is32(p[2], d.dev);
    IsQidBytes(p[3], d.qid);
    Is32(p[4], d.mode);
    Is32(p[5], d.atime);
    Is32(p[6], d.mtime);
    Is64(p[7], d.length);
    assert p[0..] == p;
    CatFront(p, 1);
    CatFront(p, 2);
    CatFront(p, 3);
    CatFront(p, 4);
    CatFront(p, 5);
    CatFront(p, 6);
    CatFront(p, 7);
    CatFront(p, 8);
  }

  /* ---- what may be left out, and what is too short ---- */

  /** In 9P2000.u the number of the user may be left out, and then is NOUID. */
  lemma AttachWithoutNumber(fid: u32, afid: u32, uname: Text, aname: Text, n: u32, tag: u16, rest: seq<byte>)
    ensures var m := Tattach(fid, afid, uname, aname, n);
            && Size(m, false) < 0x1_0000_0000
            && Decode(Packet(m, false, tag) + rest, true) ==
               Ok(tag, Tattach(fid, afid, uname, aname, NOUID), Size(m, false))
  {
    var m := Tattach(fid, afid, uname, aname, n);
    var body := Body(m, false);
    assert body == P32(fid) + (P32(afid) + (PStr(uname) + PStr(aname))) by { Nothing(PStr(aname)); }
    HeaderOf(Size(m, false), 104, tag, body, rest);
    DTattach(body, true);
    Put32(fid, P32(afid) + (PStr(uname) + PStr(aname)));
    Put32(afid, PStr(uname) + PStr(aname));
    PutStr(uname, PStr(aname));
    LastStr(aname);
  }

  lemma AuthWithoutNumber(afid: u32, uname: Text, aname: Text, n: u32, tag: u16, rest: seq<byte>)
    ensures var m := Tauth(afid, uname, aname, n);
            && Size(m, false) < 0x1_0000_0000
            && Decode(Packet(m, false, tag) + rest, true) == Ok(tag, Tauth(afid, uname, aname, NOUID), Size(m, false))
  {
    var m := Tauth(afid, uname, aname, n);
    var body := Body(m, false);
    assert body == P32(afid) + (PStr(uname) + PStr(aname)) by { Nothing(PStr(aname)); }
    HeaderOf(Size(m, false), 102, tag, body, rest);
    DTauth(body, true);
    Put32(afid, PStr(uname) + PStr(aname));
    PutStr(uname, PStr(aname));
    LastStr(aname);
  }

  /** An entry whose name is longer than what is left: its fixed part has been read. */
  lemma NameCut(d: Dir, n: u16, s: seq<byte>, dotu: bool)
    requires n > |s|
    ensures GStat(PStatHead(d, P16(n) + s), dotu) == StatNil(Bare(d))
  {
    PutStatHead(d, P16(n) + s);
    Put16(n, s);
  }

  lemma CutParsed(fid: u32, n: u16, e: seq<byte>, d: Dir, dotu: bool, body: seq<byte>)
    requires GStat(e, dotu) == StatNil(d) && body == P32(fid) + (P16(n) + e)
    ensures GBody(126, body, dotu) == Got(Twstat(fid, d), [])
  {
    DTwstat(body, dotu);
    Put32(fid, P16(n) + e);
    Put16(n, e);
  }

  /** A header in front of fields that parse to m and leave nothing. */
  lemma HeadedDecode(typ: byte, tag: u16, body: seq<byte>, m: Msg, dotu: bool, rest: seq<byte>)
    requires 7 + |body| < 0x1_0000_0000 && 100 <= typ < 128 && MinSize(typ, dotu) <= 7 + |body|
    requires GBody(typ, body, dotu) == Got(m, [])
    ensures Decode(P32(7 + |body|) + ([typ] + (P16(tag) + body)) + rest, dotu) == Ok(tag, m, 7 + |body|)
  {
    HeaderOf(7 + |body|, typ, tag, body, rest);
  }

  /** A Twstat whose entry is cut short inside a string is accepted, with what was read of the entry. */
  lemma CutTwstat(fid: u32, n: u16, e: seq<byte>, d: Dir, dotu: bool, tag: u16, rest: seq<byte>, body: seq<byte>)
    requires GStat(e, dotu) == StatNil(d) && SaysStat(fid, n, e, body) && 7 + |body| < 0x1_0000_0000
    ensures Decode(P32(7 + |body|) + ([126] + (P16(tag) + body)) + rest, dotu) == Ok(tag, Twstat(fid, d), 7 + |body|)
  {
    CutParsed(fid, n, e, d, dotu, body);
    LongEnough(dotu, 7 + |body|, |body|);
    HeadedDecode(126, tag, body, Twstat(fid, d), dotu, rest);
  }

  lemma LongEnough(dotu: bool, size: nat, n: nat)
    requires size == 7 + n && n >= 6
    ensures MinSize(126, dotu) <= size
  {
  }

  /** The types whose messages have no fields, and those that pass the table without the fields they have. */
  const EMPTY: set<int> := {109, 121, 123, 127}
  const UNGUARDED: set<int> := {100, 101, 107, 108, 111, 112, 117, 119, 120, 122, 124, 125}

  lemma NothingToParse(typ: byte, dotu: bool)
    ensures typ in EMPTY ==> GBody(typ, [], dotu).Got? && GBody(typ, [], dotu).rest == []
    ensures typ in UNGUARDED ==> GBody(typ, [], dotu).Panic?
    ensures typ == 106 ==> GBody(typ, [], dotu).Nil?
  {
  }

  lemma TestOfSeven(typ: byte, dotu: bool)
    requires 100 <= typ < 128
    ensures MinSize(typ, dotu) <= 7 <==> typ == 106 || typ in UNGUARDED || (typ in EMPTY && (dotu || typ != 127))
  {
  }

  /** A header alone is a message, ends the server, or is refused, by its type. */
  lemma HeaderAlone(typ: byte, tag: u16, dotu: bool, rest: seq<byte>)
    ensures var r := Decode(P32(7) + ([typ] + (P16(tag) + [])) + rest, dotu);
            && (r.Ok? <==> typ in EMPTY && (dotu || typ != 127))
            && (r.Crash? <==> typ in UNGUARDED)
  {
    HeaderOf(7, typ, tag, [], rest);
    NothingToParse(typ, dotu);
    if 100 <= typ < 128 { TestOfSeven(typ, dotu); }
  }

  /** What a message of this type has at least after its header, in a dialect; the entries of stats aside. */
  function Least(typ: byte, dotu: bool): (m: Msg)
    requires 100 <= typ < 125 && typ != 106
    ensures TypeOf(m) == typ
  {
    var q := Qid(0, 0, 0);
    match typ
    case 100 => Tversion(0, []) case 101 => Rversion(0, [])
    case 102 => Tauth(0, [], [], 0) case 103 => Rauth(q) case 104 => Tattach(0, 0, [], [], 0) case 105 => Rattach(q)
    case 107 => Rerror([], 0) case 108 => Tflush(0) case 109 => Rflush
    case 110 => Twalk(0, 0, []) case 111 => Rwalk([]) case 112 => Topen(0, 0) case 113 => Ropen(q, 0)
    case 114 => Tcreate(0, [], 0, 0, []) case 115 => Rcreate(q, 0) case 116 => Tread(0, 0, 0) case 117 => Rread(0, [])
    case 118 => Twrite(0, 0, 0, []) case 119 => Rwrite(0) case 120 => Tclunk(0) case 121 => Rclunk
    case 122 => Tremove(0) case 123 => Rremove case 124 => Tstat(0)
  }

  /**
   The table that is looked up in one dialect has the least sizes of the other one, and without the header: no
   message has fewer bytes after its header there, and the least one has as many.
   */
  lemma TablesSwapped(m: Msg, dotu: bool)
    requires !m.Rstat? && !m.Twstat? && !m.Rwstat?
    ensures |Body(Least(TypeOf(m), dotu), !dotu)| == MinSize(TypeOf(m), dotu) <= |Body(m, !dotu)|
  {
    LeastOf(TypeOf(m), dotu);
    NotLess(m, dotu);
  }

  lemma LeastOf(typ: byte, dotu: bool)
    requires 100 <= typ < 125 && typ != 106
    ensures |Body(Least(typ, dotu), !dotu)| == MinSize(typ, dotu)
  {
  }

  lemma NotLess(m: Msg, dotu: bool)
    requires !m.Rstat? && !m.Twstat? && !m.Rwstat?
    ensures MinSize(TypeOf(m), dotu) <= |Body(m, !dotu)|
  {
  }
}
