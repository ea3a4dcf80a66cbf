/**
 Messages that are cut short (p/unpack.go, p/p9.go): the parser takes its fields one after the other and
 indexes past the end, which is a panic in Go, unless a string that is too long ends it with an error first.
 */
module ShortMessages {
  import opened Common
  import opened Codec
  import Framing

  /** The fields of a message, in the order in which they are taken. */
  datatype Layout =
    | End
    | Fixed(size: nat, next: Layout)      // a number or a qid
    | Str(next: Layout)                   // a length of two bytes and the bytes of the string
    | Strs(next: Layout)                  // a count of two bytes and as many strings
    | Qids(next: Layout)                  // a count of two bytes and as many qids
    | Optional(size: nat)                 // a number, if anything is left

  function ManyStrs(n: nat, next: Layout): Layout {
    if n == 0 then next else Str(ManyStrs(n - 1, next))
  }

  /** The bytes end inside a field of fixed width, or inside the length of a string or list. */
  predicate RunsOut(b: seq<byte>, l: Layout)
    decreases |b|, l
  {
    match l
    case End => false
    case Fixed(n, next) => |b| < n || RunsOut(b[n..], next)
    case Str(next) => |b| < 2 || (V16(b) <= |b| - 2 && RunsOut(b[2 + V16(b)..], next))
    case Strs(next) => |b| < 2 || RunsOut(b[2..], ManyStrs(V16(b), next))
    case Qids(next) => |b| < 2 || |b| - 2 < 13 * V16(b) || RunsOut(b[2 + 13 * V16(b)..], next)
    case Optional(n) => 0 < |b| < n
  }

  function StatLayout(dotu: bool): Layout {
    Fixed(2, Fixed(2, Fixed(4, Fixed(13, Fixed(4, Fixed(4, Fixed(4, Fixed(8,
      Str(Str(Str(Str(if dotu then Str(Fixed(4, Fixed(4, Fixed(4, End)))) else End))))))))))))
  }

  /** The number that may be left out. */
  function User(dotu: bool): Layout {
    if dotu then Optional(4) else End
  }

  function LayoutOf(typ: byte, dotu: bool): Layout {
    match typ
    case 100 => Fixed(4, Str(End))
    case 101 => Fixed(4, Str(End))
    case 102 => Fixed(4, Str(Str(User(dotu))))
    case 103 => Fixed(13, End)
    case 104 => Fixed(4, Fixed(4, Str(Str(User(dotu)))))
    case 105 => Fixed(13, End)
    case 107 => Str(if dotu then Fixed(4, End) else End)
    case 108 => Fixed(2, End)
    case 110 => Fixed(4, Fixed(4, Strs(End)))
    case 111 => Qids(End)
    case 112 => Fixed(4, Fixed(1, End))
    case 113 => Fixed(13, Fixed(4, End))
    case 114 => Fixed(4, Str(Fixed(4, Fixed(1, if dotu then Str(End) else End))))
    case 115 => Fixed(13, Fixed(4, End))
    case 116 => Fixed(4, Fixed(8, Fixed(4, End)))
    case 117 => Fixed(4, End)
    case 118 => Fixed(4, Fixed(8, Fixed(4, End)))
    case 119 => Fixed(4, End)
    case 120 => Fixed(4, End)
    case 122 => Fixed(4, End)
    case 124 => Fixed(4, End)
    case 125 => Fixed(2, StatLayout(dotu))
    case 126 => Fixed(4, Fixed(2, StatLayout(dotu)))
    case _ => End
  }

  /** The tests that come before the fields. */
  predicate HeaderOk(buf: seq<byte>, dotu: bool) {
    && |buf| >= 7 && 7 <= V32(buf) <= |buf| && 100 <= buf[4] < 128 && V32(buf) >= MinSize(buf[4], dotu)
  }

  /* ---- each kind of field ---- */

  lemma TakesFixed(b: seq<byte>, n: nat, next: Layout)
    ensures RunsOut(b, Fixed(n, next)) == (|b| < n || RunsOut(b[n..], next))
  {
  }

  lemma TakesQid(b: seq<byte>)
    ensures GQid(b).Panic? <==> |b| < 13
    ensures |b| >= 13 ==> GQid(b).Got? && GQid(b).rest == b[13..]
  {
  }

  lemma TakesStr(b: seq<byte>, next: Layout)
    ensures GStr(b).Panic? ==> RunsOut(b, Str(next))
    ensures GStr(b).Nil? ==> !RunsOut(b, Str(next))
    ensures GStr(b).Got? ==> (RunsOut(b, Str(next)) <==> RunsOut(GStr(b).rest, next))
  {
    if |b| >= 2 && V16(b) <= |b| - 2 { assert b[2..][V16(b)..] == b[2 + V16(b)..]; }
  }

  lemma {:induction false} TakesNames(b: seq<byte>, n: nat)
    ensures GNames(b, n).Panic? <==> RunsOut(b, ManyStrs(n, End))
    decreases n
  {
    if n > 0 {
      TakesStr(b, ManyStrs(n - 1, End));
      if GStr(b).Got? { TakesNames(GStr(b).rest, n - 1); }
    }
  }

  lemma {:induction false} TakesQids(b: seq<byte>, n: nat)
    ensures !GQids(b, n).Nil? && (GQids(b, n).Panic? <==> |b| < 13 * n)
    decreases n
  {
    if n > 0 {
      TakesQid(b);
      if |b| >= 13 { TakesQids(b[13..], n - 1); }
    }
  }

  /** The numbers after the qid of an entry. */
  lemma TakesNumbers(b: seq<byte>, next: Layout)
    ensures RunsOut(b, Fixed(4, Fixed(4, Fixed(4, Fixed(8, next))))) ==
            (|b| < 20 || RunsOut(b[4..][4..][4..][8..], next))
  {
    TakesFixed(b, 4, Fixed(4, Fixed(4, Fixed(8, next))));
    if |b| >= 4 {
      TakesFixed(b[4..], 4, Fixed(4, Fixed(8, next)));
      if |b| >= 8 {
        TakesFixed(b[4..][4..], 4, Fixed(8, next));
        if |b| >= 12 { TakesFixed(b[4..][4..][4..], 8, next); }
      }
    }
  }

  lemma TakesHead(b: seq<byte>, next: Layout)
    ensures var head := Fixed(2, Fixed(2, Fixed(4, Fixed(13, Fixed(4, Fixed(4, Fixed(4, Fixed(8, next))))))));
            && !GStatHead(b).Nil?
            && (GStatHead(b).Panic? ==> RunsOut(b, head))
            && (GStatHead(b).Got? ==> (RunsOut(b, head) <==> RunsOut(GStatHead(b).rest, next)))
  {
    var numbers := Fixed(4, Fixed(4, Fixed(4, Fixed(8, next))));
    TakesFixed(b, 2, Fixed(2, Fixed(4, Fixed(13, numbers))));
    if |b| >= 2 {
      TakesFixed(b[2..], 2, Fixed(4, Fixed(13, numbers)));
      if |b| >= 4 {
        TakesFixed(b[2..][2..], 4, Fixed(13, numbers));
        if |b| >= 8 {
          var p := b[2..][2..][4..];
          TakesQid(p);
          TakesFixed(p, 13, numbers);
          if |p| >= 13 { TakesNumbers(p[13..], next); }
        }
      }
    }
  }

  lemma TakesStat(b: seq<byte>, dotu: bool)
    ensures GStat(b, dotu).StatPanic? <==> RunsOut(b, StatLayout(dotu))
  {
    var last := if dotu then Str(Fixed(4, Fixed(4, Fixed(4, End)))) else End;
    TakesHead(b, Str(Str(Str(Str(last)))));
    if GStatHead(b).Got? { TakesStatNames(GStatHead(b).val, GStatHead(b).rest, dotu, last); }
  }

  lemma TakesStatNames(d: Dir, b: seq<byte>, dotu: bool, last: Layout)
    requires last == if dotu then Str(Fixed(4, Fixed(4, Fixed(4, End)))) else End
    ensures GStatNames(d, b, dotu).StatPanic? <==> RunsOut(b, Str(Str(Str(Str(last)))))
  {
    TakesStr(b, Str(Str(Str(last))));
    if GStr(b).Got? {
      var b1 := GStr(b).rest;
      TakesStr(b1, Str(Str(last)));
      if GStr(b1).Got? {
        var b2 := GStr(b1).rest;
        TakesStr(b2, Str(last));
        if GStr(b2).Got? {
          var b3 := GStr(b2).rest;
          TakesStr(b3, last);
          if GStr(b3).Got? { TakesStatU(d, GStr(b3).rest, dotu, last); }
        }
      }
    }
  }

  lemma TakesStatU(d: Dir, b: seq<byte>, dotu: bool, last: Layout)
    requires last == if dotu then Str(Fixed(4, Fixed(4, Fixed(4, End)))) else End
    ensures forall e: Dir :: GStatU(e, b, dotu).StatPanic? <==> RunsOut(b, last)
  {
    if dotu {
      TakesStr(b, Fixed(4, Fixed(4, Fixed(4, End))));
      if GStr(b).Got? {
        var p := GStr(b).rest;
        TakesFixed(p, 4, Fixed(4, Fixed(4, End)));
        if |p| >= 4 {
          TakesFixed(p[4..], 4, Fixed(4, End));
          if |p| >= 8 { TakesFixed(p[4..][4..], 4, End); }
        }
      }
    }
  }

  /* ---- each type of message ---- */

  lemma SessionRunsOut(typ: byte, b: seq<byte>, dotu: bool)
    requires 100 <= typ < 108
    ensures GBody(typ, b, dotu).Panic? <==> RunsOut(b, LayoutOf(typ, dotu))
  {
    if typ == 100 || typ == 101 {
      TakesFixed(b, 4, Str(End));
      if |b| >= 4 { TakesStr(b[4..], End); }
    } else if typ == 103 || typ == 105 {
      TakesQid(b);
    } else if typ == 107 {
      TakesStr(b, if dotu then Fixed(4, End) else End);
    } else if typ == 102 {
      DTauth(b, dotu);
      TauthRunsOut(b, dotu);
    } else if typ == 104 {
      DTattach(b, dotu);
      TattachRunsOut(b, dotu);
    }
  }

  lemma TakesUser(b: seq<byte>, dotu: bool, plain: u32)
    ensures !GUser(b, dotu, plain).Nil? && (GUser(b, dotu, plain).Panic? <==> RunsOut(b, User(dotu)))
  {
  }

  lemma TauthRunsOut(b: seq<byte>, dotu: bool)
    ensures GTauth(b, dotu).Panic? <==> RunsOut(b, Fixed(4, Str(Str(User(dotu)))))
  {
    TakesFixed(b, 4, Str(Str(User(dotu))));
    if |b| >= 4 {
      TakesStr(b[4..], Str(User(dotu)));
      if GStr(b[4..]).Got? {
        var p := GStr(b[4..]).rest;
        TakesStr(p, User(dotu));
        if GStr(p).Got? { TakesUser(GStr(p).rest, dotu, NOUID); }
      }
    }
  }

  lemma TattachRunsOut(b: seq<byte>, dotu: bool)
    ensures GTattach(b, dotu).Panic? <==> RunsOut(b, Fixed(4, Fixed(4, Str(Str(User(dotu))))))
  {
    TakesFixed(b, 4, Fixed(4, Str(Str(User(dotu)))));
    if |b| >= 4 {
      TakesFixed(b[4..], 4, Str(Str(User(dotu))));
      if |b| >= 8 {
        var p := b[4..][4..];
        TakesStr(p, Str(User(dotu)));
        if GStr(p).Got? {
          TakesStr(GStr(p).rest, User(dotu));
          if GStr(GStr(p).rest).Got? { TakesUser(GStr(GStr(p).rest).rest, dotu, 0); }
        }
      }
    }
  }

  lemma CreateRunsOut(b: seq<byte>, dotu: bool)
    ensures GTcreate(b, dotu).Panic? <==> RunsOut(b, LayoutOf(114, dotu))
  {
    var ext := if dotu then Str(End) else End;
    TakesFixed(b, 4, Str(Fixed(4, Fixed(1, ext))));
    if |b| >= 4 {
      TakesStr(b[4..], Fixed(4, Fixed(1, ext)));
      if GStr(b[4..]).Got? {
        var p := GStr(b[4..]).rest;
        TakesFixed(p, 4, Fixed(1, ext));
        if |p| >= 4 {
          TakesFixed(p[4..], 1, ext);
          if |p| >= 5 { TakesStr(p[4..][1..], End); }
        }
      }
    }
  }

  lemma TakesStrs(b: seq<byte>)
    requires |b| >= 2
    ensures GNames(b[2..], V16(b)).Panic? <==> RunsOut(b, Strs(End))
  {
    TakesNames(b[2..], V16(b));
  }

  lemma WalkRunsOut(b: seq<byte>, strs: Layout)
    requires strs == Strs(End)
    ensures GTwalk(b).Panic? <==> RunsOut(b, Fixed(4, Fixed(4, strs)))
  {
    TakesFixed(b, 4, Fixed(4, strs));
    if |b| >= 4 {
      TakesFixed(b[4..], 4, strs);
      if |b| >= 10 { TakesStrs(b[4..][4..]); }
    }
  }

  lemma QidsRunOut(b: seq<byte>)
    ensures GRwalk(b).Panic? <==> RunsOut(b, LayoutOf(111, false))
  {
    if |b| >= 2 { TakesQids(b[2..], V16(b)); }
  }

  lemma FileRunsOut(typ: byte, b: seq<byte>, dotu: bool)
    requires 108 <= typ < 116
    ensures GBody(typ, b, dotu).Panic? <==> RunsOut(b, LayoutOf(typ, dotu))
  {
    if typ == 110 {
      DTwalk(b, dotu);
      WalkRunsOut(b, Strs(End));
    } else if typ == 111 {
      DRwalk(b, dotu);
      QidsRunOut(b);
    } else if typ == 112 {
      TakesFixed(b, 4, Fixed(1, End));
    } else if typ == 113 || typ == 115 {
      TakesQid(b);
      TakesFixed(b, 13, Fixed(4, End));
    } else if typ == 114 {
      DTcreate(b, dotu);
      CreateRunsOut(b, dotu);
    }
  }

  lemma DataRunsOut(typ: byte, b: seq<byte>, dotu: bool)
    requires 116 <= typ < 123
    ensures GBody(typ, b, dotu).Panic? <==> RunsOut(b, LayoutOf(typ, dotu))
  {
    if typ == 116 || typ == 118 {
      TakesFixed(b, 4, Fixed(8, Fixed(4, End)));
      if |b| >= 4 {
        TakesFixed(b[4..], 8, Fixed(4, End));
        if |b| >= 12 { TakesFixed(b[4..][8..], 4, End); }
      }
    } else {
      TakesFixed(b, 4, End);
    }
  }

  lemma RstatRunsOut(b: seq<byte>, dotu: bool)
    ensures GRstat(b, dotu).Panic? <==> RunsOut(b, Fixed(2, StatLayout(dotu)))
  {
    TakesFixed(b, 2, StatLayout(dotu));
    if |b| >= 2 { TakesStat(b[2..], dotu); }
  }

  lemma TwstatRunsOut(b: seq<byte>, dotu: bool)
    ensures GTwstat(b, dotu).Panic? <==> RunsOut(b, Fixed(4, Fixed(2, StatLayout(dotu))))
  {
    TakesFixed(b, 4, Fixed(2, StatLayout(dotu)));
    if |b| >= 4 {
      TakesFixed(b[4..], 2, StatLayout(dotu));
      if |b| >= 6 { TakesStat(b[4..][2..], dotu); }
    }
  }

  lemma StatsRunOut(typ: byte, b: seq<byte>, dotu: bool, stat: Layout)
    requires 123 <= typ < 128 && stat == StatLayout(dotu)
    ensures GBody(typ, b, dotu).Panic? <==>
            if typ == 125 then RunsOut(b, Fixed(2, stat)) else if typ == 126 then RunsOut(b, Fixed(4, Fixed(2, stat)))
            else typ == 124 && |b| < 4
  {
    if typ == 125 {
      DRstat(b, dotu);
      RstatRunsOut(b, dotu);
    } else if typ == 126 {
      DTwstat(b, dotu);
      TwstatRunsOut(b, dotu);
    }
  }

  lemma StatLayouts(dotu: bool)
    ensures LayoutOf(125, dotu) == Fixed(2, StatLayout(dotu))
    ensures LayoutOf(126, dotu) == Fixed(4, Fixed(2, StatLayout(dotu)))
    ensures LayoutOf(124, dotu) == Fixed(4, End) && LayoutOf(123, dotu) == LayoutOf(127, dotu) == End
  {
  }

  lemma LastRunOut(typ: byte, b: seq<byte>, dotu: bool, l: Layout)
    requires 123 <= typ < 128 && l == LayoutOf(typ, dotu)
    ensures GBody(typ, b, dotu).Panic? <==> RunsOut(b, l)
  {
    StatLayouts(dotu);
    StatsRunOut(typ, b, dotu, StatLayout(dotu));
    TakesFixed(b, 4, End);
  }

  lemma BodyRunsOut(typ: byte, b: seq<byte>, dotu: bool, l: Layout)
    requires 100 <= typ < 128 && l == LayoutOf(typ, dotu)
    ensures GBody(typ, b, dotu).Panic? <==> RunsOut(b, l)
  {
    if typ < 108 {
      SessionRunsOut(typ, b, dotu);
    } else if typ < 116 {
      FileRunsOut(typ, b, dotu);
    } else if typ < 123 {
      DataRunsOut(typ, b, dotu);
    } else {
      LastRunOut(typ, b, dotu, l);
    }
  }

  /**
   The parser panics exactly if the header passes its tests and the bytes run out inside a field of fixed
   width or a length.
   */
  lemma PanicsIffRunsOut(buf: seq<byte>, dotu: bool)
    ensures Decode(buf, dotu) == Crash <==> HeaderOk(buf, dotu) && RunsOut(buf[7..V32(buf)], LayoutOf(buf[4], dotu))
  {
    if HeaderOk(buf, dotu) {
      BodyRunsOut(buf[4], buf[7..V32(buf)], dotu, LayoutOf(buf[4], dotu));
    }
  }

  /** A Tread of sixteen bytes passes the table, which does not count the header, and lacks seven. */
  lemma ShortTread(dotu: bool)
    ensures Decode([16, 0, 0, 0, 116, 1, 0, 0, 0, 0, 0, 0, 0, 0, 0, 0], dotu) == Crash
  {
    var buf: seq<byte> := [16, 0, 0, 0, 116, 1, 0, 0, 0, 0, 0, 0, 0, 0, 0, 0];
    Put32(16, buf[4..]);
    assert P32(16) == [16, 0, 0, 0] by { BytesOf16(); }
    assert buf == P32(16) + buf[4..];
    assert V32(buf) == 16;
    var b := buf[7..16];
    TakesFixed(b, 4, Fixed(8, Fixed(4, End)));
    TakesFixed(b[4..], 8, Fixed(4, End));
    PanicsIffRunsOut(buf, dotu);
  }

  /** Wherever it stands in a stream after good messages, such a message ends the receiving loop with a panic. */
  lemma PanicEndsLoop(s: seq<byte>, msize: nat, dotu: bool)
    requires |s| > 4 && V32(s) <= msize && V32(s) <= |s|
    ensures Framing.Split(s, msize, Framing.Unpacker(dotu)) == Framing.Messages([], Framing.Panicked) <==>
            HeaderOk(s, dotu) && RunsOut(s[7..V32(s)], LayoutOf(s[4], dotu))
  {
    var size := V32(s);
    if size >= 7 {
      DecodeIsLocal(s, size, dotu);
    }
    PanicsIffRunsOut(s, dotu);
    PanicFront(s, msize, dotu);
  }

  lemma PanicFront(s: seq<byte>, msize: nat, dotu: bool)
    requires |s| > 4 && V32(s) <= msize && V32(s) <= |s|
    ensures Framing.Split(s, msize, Framing.Unpacker(dotu)) == Framing.Messages([], Framing.Panicked) <==>
            Decode(s[..V32(s)], dotu) == Crash
  {
    var m := Decode(s[..V32(s)], dotu);
    if m.Ok? && V32(s) > 0 {
      assert Framing.After(m, Framing.Split(s[V32(s)..], msize, Framing.Unpacker(dotu))).out[0] == m;
    }
  }

  lemma BytesOf16()
    ensures Bytes(16, 4) == [16, 0, 0, 0]
  {
    assert Bytes(16, 4) == [16] + Bytes(0, 3);
    assert Bytes(0, 3) == [0] + Bytes(0, 2);
    assert Bytes(0, 2) == [0] + Bytes(0, 1);
    assert Bytes(0, 1) == [0] + Bytes(0, 0);
  }
}
