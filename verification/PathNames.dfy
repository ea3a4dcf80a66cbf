/**
 Path names (p/chan9/nselem.go): cleaning a name without looking at any file, printing it and joining
 one to another.
 */
module PathNames {
  import opened Common

  /** Mustbedir says that only a directory will do. */
  datatype Elemlist = Elemlist(elems: seq<string>, ref: char, mustbedir: bool)

  /* ---- the meaning of a name ---- */

  /** Where one component leads from the directory at path dir.  The parent of the root is the root. */
  function Step(dir: seq<string>, s: string): seq<string> {
    if s == "" || s == "." then dir
    else if s == ".." then if dir == [] then [] else dir[..|dir| - 1]
    else dir + [s]
  }

  /** Where all components lead. */
  function Resolve(dir: seq<string>, comps: seq<string>): seq<string>
    decreases |comps|
  {
    if comps == [] then dir else Resolve(Step(dir, comps[0]), comps[1..])
  }

  lemma {:induction false} ResolveConcat(dir: seq<string>, a: seq<string>, b: seq<string>)
    ensures Resolve(dir, a + b) == Resolve(Resolve(dir, a), b)
    decreases |a|
  {
    if a == [] {
      assert a + b == b;
    } else {
      assert (a + b)[1..] == a[1..] + b;
      ResolveConcat(Step(dir, a[0]), a[1..], b);
    }
  }

  lemma ResolveSnoc(dir: seq<string>, a: seq<string>, s: string)
    ensures Resolve(dir, a + [s]) == Step(Resolve(dir, a), s)
  {
    ResolveConcat(dir, a, [s]);
    assert [s][1..] == [];
  }

  /** The components between slashes. */
  function Components(name: string): (comps: seq<string>)
    ensures comps != []
  {
    if name == "" then [""]
    else var rest := Components(name[1..]);
      if name[0] == '/' then [""] + rest else [[name[0]] + rest[0]] + rest[1..]
  }

  function RefOf(name: string): char {
    if name != "" && (name[0] == '/' || name[0] == '#') then name[0] else '.'
  }

  /** The part of the name after the mark that says where it starts. */
  function Body(name: string): string {
    if RefOf(name) == '.' then name else name[1..]
  }

  /** The directory a name starts from. */
  function Base(ref: char, dir: seq<string>): seq<string> {
    if ref == '/' then [] else dir
  }

  /* ---- what the parser promises ---- */

  predicate Word(s: string) {
    s != "" && s != "." && s != ".."
  }

  predicate Plain(s: string) {
    Word(s) && '/' !in s
  }

  /** How many leading elements are "..". */
  function Dots(elems: seq<string>): (n: nat)
    ensures n <= |elems| && (forall i :: 0 <= i < n ==> elems[i] == "..") && (n < |elems| ==> elems[n] != "..")
  {
    if elems == [] || elems[0] != ".." then 0 else 1 + Dots(elems[1..])
  }

  /** Names and, in front of them, steps up: none if the path is rooted. */
  ghost predicate Normal(ref: char, elems: seq<string>) {
    && (forall i :: Dots(elems) <= i < |elems| ==> Plain(elems[i]))
    && (ref == '/' ==> Dots(elems) == 0)
  }

  /** What the parser can produce. */
  ghost predicate Parsed(e: Elemlist) {
    && e.ref in ['/', '#', '.'] && Normal(e.ref, e.elems)
    && (e.elems == [] || e.elems[|e.elems| - 1] == ".." ==> e.mustbedir)
  }

  /* ---- parsing ---- */

  /** addelem, for any component: empty ones and "." never get that far in the source. */
  function Add(ref: char, elems: seq<string>, s: string): seq<string> {
    if s == "" || s == "." then elems
    else if s == ".." && elems != [] && elems[|elems| - 1] != ".." then elems[..|elems| - 1]
    else if s == ".." && elems == [] && ref == '/' then elems
    else elems + [s]
  }

  function AddAll(ref: char, elems: seq<string>, comps: seq<string>): seq<string>
    decreases |comps|
  {
    if comps == [] then elems else AddAll(ref, Add(ref, elems, comps[0]), comps[1..])
  }

  function Last(comps: seq<string>): string
    requires comps != []
  {
    comps[|comps| - 1]
  }

  /** A last component that only a directory can have. */
  predicate MeansDir(s: string) {
    s == "" || s == "." || s == ".."
  }

  function Parse(name: string): Elemlist {
    var comps := Components(Body(name));
    Elemlist(AddAll(RefOf(name), [], comps), RefOf(name), MeansDir(Last(comps)))
  }

  /** A component at the front of a name. */
  lemma {:induction false} FirstComponent(name: string, k: nat)
    requires k < |name| && '/' !in name[..k] && name[k] == '/'
    ensures Components(name) == [name[..k]] + Components(name[k + 1..])
    decreases k
  {
    if k > 0 {
      assert name[0] == name[..k][0];
      assert name[1..][..k - 1] == name[..k][1..];
      FirstComponent(name[1..], k - 1);
      assert name[..k] == [name[0]] + name[1..][..k - 1];
      assert name[1..][k..] == name[k + 1..];
      var rest := Components(name[1..]);
      assert rest[1..] == Components(name[k + 1..]);
    }
  }

  lemma {:induction false} OnlyComponent(name: string)
    requires '/' !in name
    ensures Components(name) == [name]
  {
    if name != "" {
      OnlyComponent(name[1..]);
      assert name == [name[0]] + name[1..];
      var rest := Components(name[1..]);
      assert rest[1..] == [] && rest[0] == name[1..];
    }
  }

  lemma AtSlash(ref: char, elems: seq<string>, rest: string, k: nat)
    requires k < |rest| && '/' !in rest[..k] && rest[k] == '/'
    ensures AddAll(ref, elems, Components(rest)) == AddAll(ref, Add(ref, elems, rest[..k]), Components(rest[k + 1..]))
    ensures Last(Components(rest)) == Last(Components(rest[k + 1..]))
  {
    FirstComponent(rest, k);
    assert Components(rest)[1..] == Components(rest[k + 1..]);
  }

  /** The same, inside a longer name. */
  lemma AtSlashIn(ref: char, elems: seq<string>, body: string, start: nat, i: nat)
    requires start <= i < |body| && '/' !in body[start..i] && body[i] == '/'
    ensures AddAll(ref, elems, Components(body[start..])) ==
            AddAll(ref, Add(ref, elems, body[start..i]), Components(body[i + 1..]))
    ensures Last(Components(body[start..])) == Last(Components(body[i + 1..]))
  {
    var rest := body[start..];
    assert rest[..i - start] == body[start..i] && rest[i - start + 1..] == body[i + 1..];
    AtSlash(ref, elems, rest, i - start);
  }

  lemma AtEnd(ref: char, elems: seq<string>, rest: string)
    requires '/' !in rest
    ensures AddAll(ref, elems, Components(rest)) == Add(ref, elems, rest)
    ensures Last(Components(rest)) == rest
  {
    OnlyComponent(rest);
    assert [rest][1..] == [];
  }

  /** What the loop knows of the component it is in, seen so far. */
  ghost predicate Seen(seen: string, ahead: string, mustbedir: bool) {
    && '/' !in seen
    && if mustbedir then seen == "" || (seen == "." && (ahead == "" || ahead[0] == '/'))
       else seen != "" && (seen == "." ==> ahead != "" && ahead[0] != '/')
  }

  lemma SeenMore(seen: string, ahead: string, mustbedir: bool)
    requires ahead != "" && ahead[0] != '/' && Seen(seen, ahead, mustbedir)
    ensures Seen(seen + [ahead[0]], ahead[1..], mustbedir && ahead[0] == '.' && (|ahead| == 1 || ahead[1] == '/'))
    ensures mustbedir ==> seen == ""
  {
    assert |seen + [ahead[0]]| == |seen| + 1 && (seen + [ahead[0]])[|seen|] == ahead[0];
  }

  /** The source's loop over the runes.  While mustbedir holds nothing but slashes and "." has been seen. */
  method ParseName(name: string) returns (e: Elemlist)
    ensures e == Parse(name)
  {
    var ref, body := '.', name;
    if name != "" && name[0] == '/' {
      ref, body := '/', name[1..];
    } else if name != "" && name[0] == '#' {
      ref, body := '#', name[1..];
    }
    var elems, mustbedir := Elements(ref, body);
    e := Elemlist(elems, ref, mustbedir);
  }

  /** What the loop has done up to rune i of the name, in the component from start on. */
  ghost predicate Sofar(ref: char, body: string, elems: seq<string>, mustbedir: bool, start: nat, i: nat) {
    && start <= i <= |body|
    && AddAll(ref, [], Components(body)) == AddAll(ref, elems, Components(body[start..]))
    && Last(Components(body)) == Last(Components(body[start..]))
    && Seen(body[start..i], body[i..], mustbedir)
  }

  lemma AfterSlash(ref: char, body: string, elems: seq<string>, mustbedir: bool, start: nat, i: nat)
    requires Sofar(ref, body, elems, mustbedir, start, i) && i < |body| && body[i] == '/'
    ensures Sofar(ref, body, Add(ref, elems, body[start..i]), true, i + 1, i + 1)
    ensures mustbedir ==> Add(ref, elems, body[start..i]) == elems
    ensures !mustbedir ==> body[start..i] != "" && body[start..i] != "."
  {
    AtSlashIn(ref, elems, body, start, i);
  }

  lemma AfterRune(ref: char, body: string, elems: seq<string>, mustbedir: bool, start: nat, i: nat)
    requires Sofar(ref, body, elems, mustbedir, start, i) && i < |body| && body[i] != '/'
    ensures Sofar(ref, body, elems, mustbedir && body[i] == '.' && (|body| == i + 1 || body[i + 1] == '/'),
                  start, i + 1)
    ensures mustbedir ==> start == i
  {
    SeenMore(body[start..i], body[i..], mustbedir);
    assert body[i..][1..] == body[i + 1..] && body[start..i] + [body[i]] == body[start..i + 1];
  }

  method Elements(ref: char, body: string) returns (elems: seq<string>, mustbedir: bool)
    ensures elems == AddAll(ref, [], Components(body))
    ensures mustbedir == MeansDir(Last(Components(body)))
  {
    var n, i := 0, 0;
    ghost var start := 0;
    elems, mustbedir := [], true;
    while i < |body|
      invariant i <= |body| && Sofar(ref, body, elems, mustbedir, start, i) && (!mustbedir ==> n == start)
    {
      if body[i] == '/' {
        AfterSlash(ref, body, elems, mustbedir, start, i);
        start := i + 1;
      } else {
        AfterRune(ref, body, elems, mustbedir, start, i);
      }
      if mustbedir {
        if body[i] != '/' {
          if body[i] != '.' || (|body| > i + 1 && body[i + 1] != '/') {
            mustbedir := false;
            n := i;
          }
        }
      } else if body[i] == '/' {
        mustbedir := true;
        elems := AddElem(ref, elems, body[n..i]);
      }
      i := i + 1;
    }
    assert body[start..i] == body[start..];
    AtEnd(ref, elems, body[start..]);
    if !mustbedir && |body| > 0 {
      if body[n..] == ".." {
        mustbedir := true;
      }
      elems := AddElem(ref, elems, body[n..]);
    }
  }

  method AddElem(ref: char, elems: seq<string>, s: string) returns (r: seq<string>)
    requires s != "" && s != "."
    ensures r == Add(ref, elems, s)
  {
    if s == ".." {
      if |elems| > 0 {
        if elems[|elems| - 1] != ".." {
          return elems[..|elems| - 1];
        }
      } else if ref == '/' {
        return elems;
      }
    }
    r := elems + [s];
  }

  /* ---- the form of what is parsed ---- */

  lemma {:induction false} DotsIs(elems: seq<string>, d: nat)
    requires d <= |elems| && (forall i :: 0 <= i < d ==> elems[i] == "..") && (d < |elems| ==> elems[d] != "..")
    ensures Dots(elems) == d
  {
    if d > 0 {
      DotsIs(elems[1..], d - 1);
    }
  }

  lemma NormalAdd(ref: char, elems: seq<string>, s: string)
    requires Normal(ref, elems) && '/' !in s
    ensures Normal(ref, Add(ref, elems, s))
  {
    var d, n := Dots(elems), |elems|;
    if Add(ref, elems, s) == elems + [s] {
      if s == ".." {
        assert d == n;
        DotsIs(elems + [s], n + 1);
      } else {
        DotsIs(elems + [s], d);
      }
    } else if n > 0 {
      DotsIs(elems[..n - 1], if d < n then d else n - 1);
    }
  }

  lemma {:induction false} NormalAddAll(ref: char, elems: seq<string>, comps: seq<string>)
    requires Normal(ref, elems) && forall i :: 0 <= i < |comps| ==> '/' !in comps[i]
    ensures Normal(ref, AddAll(ref, elems, comps))
    decreases |comps|
  {
    if comps != [] {
      NormalAdd(ref, elems, comps[0]);
      NormalAddAll(ref, Add(ref, elems, comps[0]), comps[1..]);
    }
  }

  lemma {:induction false} NoSlash(name: string)
    ensures forall i :: 0 <= i < |Components(name)| ==> '/' !in Components(name)[i]
  {
    if name != "" {
      NoSlash(name[1..]);
    }
  }

  lemma {:induction false} AddAllSnoc(ref: char, elems: seq<string>, comps: seq<string>, s: string)
    ensures AddAll(ref, elems, comps + [s]) == Add(ref, AddAll(ref, elems, comps), s)
    decreases |comps|
  {
    if comps == [] {
      assert ([] + [s])[1..] == [];
    } else {
      assert (comps + [s])[1..] == comps[1..] + [s];
      AddAllSnoc(ref, Add(ref, elems, comps[0]), comps[1..], s);
    }
  }

  /** What the parser produces is clean, and a directory whenever it could not be a file. */
  lemma ParseIsClean(name: string)
    ensures Parsed(Parse(name))
  {
    var ref, comps := RefOf(name), Components(Body(name));
    NoSlash(Body(name));
    assert Normal(ref, []);
    NormalAddAll(ref, [], comps);
    var front := comps[..|comps| - 1];
    assert comps == front + [Last(comps)];
    AddAllSnoc(ref, [], front, Last(comps));
  }

  /* ---- cleaning keeps the meaning ---- */

  lemma AddMeans(ref: char, elems: seq<string>, s: string, dir: seq<string>)
    requires Normal(ref, elems) && (ref == '/' ==> dir == [])
    ensures Resolve(dir, Add(ref, elems, s)) == Step(Resolve(dir, elems), s)
  {
    var n := |elems|;
    if Add(ref, elems, s) == elems + [s] {
      ResolveSnoc(dir, elems, s);
    } else if s == ".." && n > 0 {
      assert elems == elems[..n - 1] + [elems[n - 1]];
      ResolveSnoc(dir, elems[..n - 1], elems[n - 1]);
      assert Plain(elems[n - 1]);
    }
  }

  lemma {:induction false} AddAllMeans(ref: char, elems: seq<string>, comps: seq<string>, dir: seq<string>)
    requires Normal(ref, elems) && (ref == '/' ==> dir == [])
    requires forall i :: 0 <= i < |comps| ==> '/' !in comps[i]
    ensures Resolve(dir, AddAll(ref, elems, comps)) == Resolve(Resolve(dir, elems), comps)
    decreases |comps|
  {
    if comps != [] {
      AddMeans(ref, elems, comps[0], dir);
      NormalAdd(ref, elems, comps[0]);
      AddAllMeans(ref, Add(ref, elems, comps[0]), comps[1..], dir);
    }
  }

  /** A parsed name leads from every directory where the name itself leads. */
  lemma ParseKeepsMeaning(name: string, dir: seq<string>)
    ensures var e := Parse(name);
            Resolve(Base(e.ref, dir), e.elems) == Resolve(Base(e.ref, dir), Components(Body(name)))
  {
    NoSlash(Body(name));
    assert Normal(RefOf(name), []);
    AddAllMeans(RefOf(name), [], Components(Body(name)), Base(RefOf(name), dir));
  }

  /* ---- clean names are canonical ---- */

  lemma {:induction false} ResolvePlain(dir: seq<string>, names: seq<string>)
    requires forall i :: 0 <= i < |names| ==> Word(names[i])
    ensures Resolve(dir, names) == dir + names
    decreases |names|
  {
    if names == [] {
      assert dir + names == dir;
    } else {
      ResolvePlain(dir + [names[0]], names[1..]);
      assert dir + [names[0]] + names[1..] == dir + names;
    }
  }

  /** Pop as often as there are "..", then push the names. */
  function PopPush(dir: seq<string>, elems: seq<string>): seq<string> {
    dir[..Max(0, |dir| - Dots(elems))] + elems[Dots(elems)..]
  }

  lemma {:induction false} ResolveClean(dir: seq<string>, elems: seq<string>)
    requires forall i :: Dots(elems) <= i < |elems| ==> Word(elems[i])
    ensures Resolve(dir, elems) == PopPush(dir, elems)
    decreases |elems|
  {
    if Dots(elems) == 0 {
      ResolvePlain(dir, elems);
      assert dir[..|dir|] == dir && elems[0..] == elems;
    } else {
      DotsIs(elems[1..], Dots(elems) - 1);
      ResolveClean(Step(dir, ".."), elems[1..]);
      assert elems[1..][Dots(elems) - 1..] == elems[Dots(elems)..];
    }
  }

  /** A name of its own: longer than all of elems. */
  lemma {:induction false} NewName(elems: seq<string>) returns (z: string)
    ensures Plain(z) && |z| > 2 && forall i :: 0 <= i < |elems| ==> |z| > |elems[i]|
  {
    if elems == [] {
      z := "zzz";
    } else {
      var y := NewName(elems[1..]);
      z := y + seq(|elems[0]|, i => 'z');
    }
  }

  /** From a deep directory of equal names, lists with different numbers of steps up lead to different places. */
  lemma DepthShows(e1: seq<string>, e2: seq<string>, z: string, dir: seq<string>)
    requires |dir| == Dots(e1) + Dots(e2) && forall i :: 0 <= i < |dir| ==> dir[i] == z
    requires z !in e2 && Dots(e1) < Dots(e2)
    ensures PopPush(dir, e1) != PopPush(dir, e2)
  {
    var d := Dots(e1);
    assert PopPush(dir, e1)[d] == z;
    if |PopPush(dir, e2)| > d { assert PopPush(dir, e2)[d] == e2[Dots(e2)]; }
  }

  lemma SameFromDeep(e1: seq<string>, e2: seq<string>, z: string, dir: seq<string>)
    requires |dir| == Dots(e1) + Dots(e2) && forall i :: 0 <= i < |dir| ==> dir[i] == z
    requires z !in e1 && z !in e2
    requires PopPush(dir, e1) == PopPush(dir, e2)
    ensures e1 == e2
  {
    var d1, d2 := Dots(e1), Dots(e2);
    if d1 != d2 {
      if d1 < d2 { DepthShows(e1, e2, z, dir); } else { DepthShows(e2, e1, z, dir); }
    }
    assert e1[d1..] == PopPush(dir, e1)[d1..] && e2[d1..] == PopPush(dir, e2)[d1..];
    assert e1 == e1[..d1] + e1[d1..] && e2 == e2[..d1] + e2[d1..] && e1[..d1] == e2[..d1];
  }

  /** Two clean lists that lead from every directory to the same place are the same list. */
  lemma CleanIsCanonical(e1: seq<string>, e2: seq<string>)
    requires Normal('.', e1) && Normal('.', e2)
    requires forall dir :: Resolve(dir, e1) == Resolve(dir, e2)
    ensures e1 == e2
  {
    var z := NewName(e1 + e2);
    assert z !in e1 by { assert forall i :: 0 <= i < |e1| ==> (e1 + e2)[i] == e1[i]; }
    assert z !in e2 by { assert forall i :: 0 <= i < |e2| ==> (e1 + e2)[|e1| + i] == e2[i]; }
    var dir := seq(Dots(e1) + Dots(e2), i => z);
    assert PopPush(dir, e1) == PopPush(dir, e2) by {
      ResolveClean(dir, e1);
      ResolveClean(dir, e2);
    }
    SameFromDeep(e1, e2, z, dir);
  }

  /** Names that start from the same place parse to the same elements exactly when they mean the same. */
  lemma ParseDecidesMeaning(x: string, y: string)
    requires RefOf(x) == RefOf(y)
    ensures Parse(x).elems == Parse(y).elems <==>
            forall dir :: Resolve(Base(RefOf(x), dir), Components(Body(x))) ==
              Resolve(Base(RefOf(x), dir), Components(Body(y)))
  {
    var e1, e2, ref := Parse(x).elems, Parse(y).elems, RefOf(x);
    ParseIsClean(x);
    ParseIsClean(y);
    forall dir
      ensures Resolve(Base(ref, dir), Components(Body(x))) == Resolve(Base(ref, dir), e1)
      ensures Resolve(Base(ref, dir), Components(Body(y))) == Resolve(Base(ref, dir), e2)
    {
      ParseKeepsMeaning(x, dir);
      ParseKeepsMeaning(y, dir);
    }
    if forall dir :: Resolve(Base(ref, dir), Components(Body(x))) == Resolve(Base(ref, dir), Components(Body(y))) {
      if ref == '/' {
        assert Resolve(Base(ref, []), e1) == Resolve(Base(ref, []), e2);
        ResolvePlain([], e1);
        ResolvePlain([], e2);
        assert [] + e1 == e1 && [] + e2 == e2;
      } else {
        forall dir ensures Resolve(dir, e1) == Resolve(dir, e2) { assert Base(ref, dir) == dir; }
        CleanIsCanonical(e1, e2);
      }
    }
  }

  /* ---- printing ---- */

  function Join(elems: seq<string>): string {
    if elems == [] then "" else if |elems| == 1 then elems[0] else elems[0] + "/" + Join(elems[1..])
  }

  function String(e: Elemlist): string {
    (if e.ref == '/' then "/" else if e.ref == '#' then "#" else "") + Join(e.elems) + (if e.mustbedir then "/" else "")
  }

  lemma {:induction false} JoinComponents(elems: seq<string>, dir: bool)
    requires elems != [] && forall i :: 0 <= i < |elems| ==> '/' !in elems[i]
    ensures Components(Join(elems) + if dir then "/" else "") == elems + if dir then [""] else []
    decreases |elems|
  {
    var tail, more := if dir then "/" else "", if dir then [""] else [];
    var first := elems[0];
    if |elems| > 1 {
      JoinComponents(elems[1..], dir);
      FrontComponent(first, Join(elems[1..]) + tail);
      assert Join(elems) + tail == first + "/" + (Join(elems[1..]) + tail);
      assert [first] + (elems[1..] + more) == elems + more;
    } else if dir {
      FrontComponent(first, "");
      assert first + "/" + "" == Join(elems) + tail;
    } else {
      OnlyComponent(first);
      assert Join(elems) + tail == first;
    }
  }

  lemma FrontComponent(first: string, rest: string)
    requires '/' !in first
    ensures Components(first + "/" + rest) == [first] + Components(rest)
  {
    var name := first + "/" + rest;
    assert name[..|first|] == first && name[|first| + 1..] == rest;
    FirstComponent(name, |first|);
  }

  lemma {:induction false} AddAllClean(ref: char, elems: seq<string>, k: nat)
    requires Normal(ref, elems) && k <= |elems|
    ensures AddAll(ref, [], elems[..k]) == elems[..k]
  {
    if k > 0 {
      AddAllClean(ref, elems, k - 1);
      assert elems[..k] == elems[..k - 1] + [elems[k - 1]];
      AddAllSnoc(ref, [], elems[..k - 1], elems[k - 1]);
      if k - 1 >= Dots(elems) { assert Plain(elems[k - 1]); }
    }
  }

  lemma BodyRoundTrip(e: Elemlist, body: string)
    requires Parsed(e) && body == Join(e.elems) + if e.mustbedir then "/" else ""
    ensures AddAll(e.ref, [], Components(body)) == e.elems
    ensures MeansDir(Last(Components(body))) == e.mustbedir
  {
    var elems := e.elems;
    AddAllClean(e.ref, elems, |elems|);
    assert elems[..|elems|] == elems;
    if elems == [] {
      FirstComponent(body, 0);
      assert body[1..] == "";
      AddAllSnoc(e.ref, [], [""], "");
      assert [""][1..] == [];
    } else {
      assert forall i :: Dots(elems) <= i < |elems| ==> Plain(elems[i]);
      JoinComponents(elems, e.mustbedir);
      AddAllSnoc(e.ref, [], elems, "");
      assert elems + [] == elems;
    }
  }

  /**
     Printing a parsed name and parsing it again gives it back, unless it is a relative name that prints
     like one of another kind: the empty list, or a list that starts with '#'.
   */
  lemma PrintParse(e: Elemlist)
    requires Parsed(e)
    ensures Parse(String(e)) == e <==> !(e.ref == '.' && (e.elems == [] || e.elems[0][0] == '#'))
  {
    var body := Join(e.elems) + if e.mustbedir then "/" else "";
    assert e.elems != [] ==> e.elems[0] != "" && '/' !in e.elems[0] by {
      if e.elems != [] && Dots(e.elems) == 0 { assert Plain(e.elems[0]); }
    }
    assert e.elems != [] ==> body != "" && body[0] == e.elems[0][0];
    BodyRoundTrip(e, body);
    if e.ref == '.' {
      assert String(e) == body;
    } else {
      assert String(e) == [e.ref] + body;
      assert String(e)[1..] == body;
    }
  }

  /* ---- joining ---- */

  /** The new path of a fid that was walked along add, and the files on it. */
  method PathJoin<ID>(from: seq<string>, add: seq<string>, pfrom: seq<ID>, padd: seq<ID>)
    returns (out: seq<string>, pout: seq<ID>)
    ensures out == PopPush(from, add)
    ensures |pfrom| == |from| && |padd| == |add| ==> |pout| == |out| && forall k :: 0 <= k < |out| ==>
              if k < |from| - Dots(add) then out[k] == from[k] && pout[k] == pfrom[k]
              else var j := k - Max(0, |from| - Dots(add)) + Dots(add);
                   j < |add| && out[k] == add[j] && pout[k] == padd[j]
    ensures var d := Min(Dots(add), |padd|); pout == pfrom[..Max(0, |pfrom| - d)] + padd[d..]
  {
    var ndotdot := 0;
    while ndotdot < |add| && add[ndotdot] == ".."
      invariant ndotdot <= |add| && forall i :: 0 <= i < ndotdot ==> add[i] == ".."
    {
      ndotdot := ndotdot + 1;
    }
    DotsIs(add, ndotdot);
    out := from[..Max(0, |from| - ndotdot)] + add[ndotdot..];
    var l := Min(ndotdot, |padd|);
    pout := pfrom[..Max(0, |pfrom| - l)] + padd[l..];
  }

  lemma {:induction false} ResolveWords(dir: seq<string>, comps: seq<string>)
    requires forall i :: 0 <= i < |dir| ==> Word(dir[i])
    ensures forall i :: 0 <= i < |Resolve(dir, comps)| ==> Word(Resolve(dir, comps)[i])
    decreases |comps|
  {
    if comps != [] {
      ResolveWords(Step(dir, comps[0]), comps[1..]);
    }
  }

  ghost predicate Words(s: seq<string>, k: nat) {
    forall i :: k <= i < |s| ==> Word(s[i])
  }

  lemma PushKeepsWords(dir: seq<string>, add: seq<string>)
    requires Words(dir, 0)
    ensures Words(PopPush(dir, add), 0) <==> Words(add, Dots(add))
  {
    var to, keep, d := PopPush(dir, add), Max(0, |dir| - Dots(add)), Dots(add);
    assert forall i :: d <= i < |add| ==> to[keep + i - d] == add[i];
    assert forall k :: keep <= k < |to| ==> to[k] == add[k - keep + d];
  }

  /** Joining resolves add from the directory dir exactly when add steps up only at its start and has no empty part. */
  lemma JoinIsResolve(dir: seq<string>, add: seq<string>)
    requires Words(dir, 0)
    ensures PopPush(dir, add) == Resolve(dir, add) <==> Words(add, Dots(add))
  {
    PushKeepsWords(dir, add);
    ResolveWords(dir, add);
    if Words(add, Dots(add)) {
      ResolveClean(dir, add);
    }
  }
}
