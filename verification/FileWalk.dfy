/**
 Walking to a file by its path and giving fids back, on both sides of a connection with replies in order:
 FWalk, Clunk and Remove of the client (p/clnt/walk.go, p/clnt/close.go, p/clnt/remove.go) against walk, clunk
 and remove of the server (p/srv/fcall.go, p/srv/file.go).
 */
module FileWalk {
  import opened Common
  import Codec
  import PathNames

  const BLOCK := 16

  type File = nat

  /** A tree of files on the server.  clunkErr says whose Clunk operation fails. */
  datatype Tree = Tree(root: File, find: (File, string) -> Option<File>, parent: File -> File, isdir: File -> bool,
                       clunkErr: File -> bool)

  function Step(t: Tree, f: File, name: string): Option<File> {
    if name == ".." then Some(t.parent(f)) else t.find(f, name)
  }

  /** All names in one go. */
  function WalkAll(t: Tree, f: File, names: seq<string>): Option<File>
    decreases |names|
  {
    if names == [] then Some(f)
    else match Step(t, f, names[0])
      case Some(g) => WalkAll(t, g, names[1..])
      case None => None
  }

  /** Each file is the parent of the one before, or the file in it that the name says. */
  ghost predicate Trail(t: Tree, names: seq<string>, files: seq<File>) {
    && |files| == |names| + 1
    && forall k :: 0 <= k < |names| ==>
         if names[k] == ".." then files[k + 1] == t.parent(files[k])
         else t.find(files[k], names[k]) == Some(files[k + 1])
  }

  /** All names lead from f to g if and only if there is such a trail. */
  lemma {:induction false} WalkIsTrail(t: Tree, f: File, names: seq<string>, g: File)
    ensures WalkAll(t, f, names) == Some(g) <==>
            exists files :: Trail(t, names, files) && files[0] == f && files[|names|] == g
    decreases |names|
  {
    if names == [] {
      assert Trail(t, names, [f]);
    } else {
      var step := Step(t, f, names[0]);
      if step.Some? { WalkIsTrail(t, step.value, names[1..], g); }
      if WalkAll(t, f, names) == Some(g) {
        var files :| Trail(t, names[1..], files) && files[0] == step.value && files[|names| - 1] == g;
        assert Trail(t, names, [f] + files);
      }
      if files :| Trail(t, names, files) && files[0] == f && files[|names|] == g {
        assert step == Some(files[1]);
        assert Trail(t, names[1..], files[1..]);
      }
    }
  }

  /** How many of the names are there. */
  function Far(t: Tree, f: File, names: seq<string>): (k: nat)
    ensures k <= |names| && WalkAll(t, f, names[..k]).Some? && (k == |names| <==> WalkAll(t, f, names).Some?)
    decreases |names|
  {
    if names == [] then 0
    else match Step(t, f, names[0])
      case None => 0
      case Some(g) =>
        var k := 1 + Far(t, g, names[1..]);
        assert names[..k][1..] == names[1..][..k - 1];
        k
  }

  lemma {:induction false} FarIs(t: Tree, f: File, names: seq<string>, i: nat)
    requires i <= |names| && WalkAll(t, f, names[..i]).Some?
    requires i < |names| ==> Step(t, WalkAll(t, f, names[..i]).value, names[i]).None?
    ensures Far(t, f, names) == i
    decreases i
  {
    if i > 0 {
      assert names[..i][1..] == names[1..][..i - 1];
      FarIs(t, Step(t, f, names[0]).value, names[1..], i - 1);
    }
  }

  /** Walking in two parts. */
  lemma {:induction false} WalkConcat(t: Tree, f: File, a: seq<string>, b: seq<string>)
    ensures WalkAll(t, f, a + b) == match WalkAll(t, f, a) case Some(g) => WalkAll(t, g, b) case None => None
    decreases |a|
  {
    if a == [] {
      assert a + b == b;
    } else {
      assert (a + b)[1..] == a[1..] + b;
      match Step(t, f, a[0]) {
        case Some(g) => WalkConcat(t, g, a[1..], b);
        case None =>
      }
    }
  }

  /** ".." at the root stays there, however often. */
  lemma {:induction false} AboveRoot(t: Tree, names: seq<string>)
    requires t.parent(t.root) == t.root && forall i :: 0 <= i < |names| ==> names[i] == ".."
    ensures WalkAll(t, t.root, names) == Some(t.root)
  {
    if names != [] {
      AboveRoot(t, names[1..]);
    }
  }

  function NonEmpty(names: seq<string>): (r: seq<string>)
    ensures |r| <= |names| && forall i :: 0 <= i < |r| ==> r[i] != ""
    ensures (forall i :: 0 <= i < |names| ==> names[i] != "") ==> r == names
  {
    if names == [] then []
    else
      assert names == names[..|names| - 1] + [names[|names| - 1]];
      if names[|names| - 1] == "" then NonEmpty(names[..|names| - 1])
      else NonEmpty(names[..|names| - 1]) + [names[|names| - 1]]
  }

  lemma {:induction false} NonEmptyConcat(a: seq<string>, b: seq<string>)
    ensures NonEmpty(a + b) == NonEmpty(a) + NonEmpty(b)
    decreases |b|
  {
    if b == [] {
      assert a + b == a;
    } else {
      assert (a + b)[..|a + b| - 1] == a + b[..|b| - 1];
      NonEmptyConcat(a, b[..|b| - 1]);
    }
  }

  /** No name goes but the empty ones, and none twice. */
  lemma {:induction false} NonEmptyKeeps(names: seq<string>)
    ensures multiset(NonEmpty(names)) == multiset(names)["" := 0]
    decreases |names|
  {
    if names != [] {
      NonEmptyKeeps(names[..|names| - 1]);
      assert names == names[..|names| - 1] + [names[|names| - 1]];
    }
  }

  lemma {:induction false} EmptyInFront(names: seq<string>)
    ensures NonEmpty([""] + names) == NonEmpty(names)
    decreases |names|
  {
    var all := [""] + names;
    if names == [] {
      assert all[..0] == [];
    } else {
      assert all[..|all| - 1] == [""] + names[..|names| - 1];
      EmptyInFront(names[..|names| - 1]);
    }
  }

  /** The names of a path. */
  function NamesOf(path: string): seq<string> {
    NonEmpty(PathNames.Components(path))
  }

  lemma {:induction false} LeadingSlashes(path: string, i: nat)
    requires i <= |path| && forall k :: 0 <= k < i ==> path[k] == '/'
    ensures NamesOf(path[i..]) == NamesOf(path)
    decreases i
  {
    if i == 0 {
      assert path[0..] == path;
    } else {
      EmptyInFront(PathNames.Components(path[1..]));
      LeadingSlashes(path[1..], i - 1);
      assert path[1..][i - 1..] == path[i..];
    }
  }

  function Slashes(k: nat): (s: string)
    ensures |s| == k && forall i :: 0 <= i < k ==> s[i] == '/'
  {
    seq(k, i => '/')
  }

  /** Names with slashes in front, between and behind. */
  function Slashed(names: seq<string>, gaps: seq<nat>): string
    requires |gaps| == |names| + 1
  {
    Slashes(gaps[0]) + if names == [] then "" else names[0] + Slashed(names[1..], gaps[1..])
  }

  /** The path is these names, of at least one character other than a slash, with one or more slashes between them. */
  ghost predicate Spells(path: string, names: seq<string>, gaps: seq<nat>) {
    && |gaps| == |names| + 1 && path == Slashed(names, gaps)
    && (forall k :: 0 <= k < |names| ==> names[k] != "" && '/' !in names[k])
    && forall k :: 0 < k < |names| ==> gaps[k] > 0
  }

  /** The names of such a path are those names. */
  lemma {:induction false} NamesAsSpelled(path: string, names: seq<string>, gaps: seq<nat>)
    requires Spells(path, names, gaps)
    ensures NamesOf(path) == names
    decreases |names|
  {
    LeadingSlashes(path, gaps[0]);
    if names == [] {
      assert path[gaps[0]..] == "";
    } else {
      var rest := Slashed(names[1..], gaps[1..]);
      assert path[gaps[0]..] == names[0] + rest;
      NamesAsSpelled(rest, names[1..], gaps[1..]);
      NameInFront(names[0], rest);
      assert [names[0]] + names[1..] == names;
    }
  }

  lemma NameInFront(name: string, rest: string)
    requires name != "" && '/' !in name && (rest == "" || rest[0] == '/')
    ensures NamesOf(name + rest) == [name] + NamesOf(rest)
  {
    if rest == "" {
      PathNames.OnlyComponent(name);
      assert name + rest == name;
      assert NamesOf("") == [] && NonEmpty([name]) == [name];
    } else {
      assert name + rest == name + "/" + rest[1..];
      PathNames.FrontComponent(name, rest[1..]);
      NonEmptyConcat([name], PathNames.Components(rest[1..]));
      LeadingSlashes(rest, 1);
    }
  }

  /** Room for the names in a Twalk. */
  function NamesSize(names: seq<string>): nat {
    if names == [] then 0 else 2 + |names[0]| + NamesSize(names[1..])
  }

  predicate Fits(names: seq<string>, msize: nat) {
    17 + NamesSize(names) <= msize
  }

  /** That is the size of the packet. */
  lemma {:induction false} NamesSizeIs(names: seq<string>, wname: seq<Codec.Text>)
    requires |wname| == |names| && forall k :: 0 <= k < |names| ==> |wname[k]| == |names[k]|
    ensures NamesSize(names) == |Codec.PNames(wname)|
  {
    if names != [] { NamesSizeIs(names[1..], wname[1..]); }
  }

  lemma FitsIsPacket(names: seq<string>, wname: seq<Codec.Text>, fid: Codec.u32, newfid: Codec.u32, dotu: bool,
                     msize: nat)
    requires |wname| == |names| && forall k :: 0 <= k < |names| ==> |wname[k]| == |names[k]|
    ensures Fits(names, msize) <==> Codec.Size(Codec.Twalk(fid, newfid, wname), dotu) <= msize
  {
    NamesSizeIs(names, wname);
  }

  /**
     What a walk in blocks needs beyond the names being there: that each block starts at a directory, and
     fits the packet.
   */
  predicate Blockwise(t: Tree, f: File, names: seq<string>, msize: nat)
    decreases |names|
  {
    var n := Min(|names|, BLOCK);
    && Fits(names[..n], msize)
    && (n > 0 ==> t.isdir(f))
    && (n < |names| ==>
          && WalkAll(t, f, names[..n]).Some?
          && Blockwise(t, WalkAll(t, f, names[..n]).value, names[n..], msize))
  }

  /**
     A path that leads through a plain file and back can be walked in one go, but not if the file comes
     sixteenth: the second block would start there, and the server walks plain files nowhere.
   */
  lemma FileAtBoundary(t: Tree, f: File, msize: nat)
    requires t.parent(t.root) == t.root && t.find(t.root, "f") == Some(f) && !t.isdir(f)
    ensures var names := seq(15, i => "..") + ["f", ".."];
            WalkAll(t, t.root, names) == Some(t.parent(f)) && !Blockwise(t, t.root, names, msize)
  {
    var up := seq(15, i => "..");
    AboveRoot(t, up);
    WalkConcat(t, t.root, up, ["f"]);
    WalkConcat(t, t.root, up + ["f"], [".."]);
    assert ["f"][1..] == [] && [".."][1..] == [];
    var names := up + ["f", ".."];
    assert names == up + ["f"] + [".."];
    assert names[..BLOCK] == up + ["f"] && names[BLOCK..] == [".."];
    assert !Blockwise(t, f, [".."], msize);
  }

  datatype Reply = Rwalk(n: nat) | Rclunk | Rremove | Rerror

  /** A fid as the server keeps it. */
  datatype SFid = SFid(file: File, dir: bool, isOpen: bool)

  class Srv {
    const tree: Tree
    var fidpool: map<nat, SFid>

    constructor (t: Tree, r: nat)
      ensures tree == t && fidpool == map[r := SFid(t.root, t.isdir(t.root), false)]
    {
      tree := t;
      fidpool := map[r := SFid(t.root, t.isdir(t.root), false)];
    }

    /** What the pool remembers of a file's kind is right. */
    ghost predicate Valid()
      reads this
    {
      forall n :: n in fidpool ==> fidpool[n].dir == tree.isdir(fidpool[n].file)
    }

    /** Fsrv.Walk: as many names as are there. */
    method WalkNames(from: File, names: seq<string>) returns (f: File, i: nat)
      ensures i == Far(tree, from, names) && WalkAll(tree, from, names[..i]) == Some(f)
      ensures WalkAll(tree, from, names) == if i == |names| then Some(f) else None
    {
      f, i := from, 0;
      while i < |names|
        invariant i <= |names| && WalkAll(tree, from, names[..i]) == Some(f)
      {
        assert names[..i + 1] == names[..i] + [names[i]];
        WalkConcat(tree, from, names[..i], [names[i]]);
        assert names == names[..i] + names[i..] && [names[i]][1..] == [];
        WalkConcat(tree, from, names[..i], names[i..]);
        if names[i] == ".." {
          f, i := tree.parent(f), i + 1;
          continue;
        }
        var p := tree.find(f, names[i]);
        if p.None? {
          FarIs(tree, from, names, i);
          return;
        }
        f, i := p.value, i + 1;
      }
      assert names[..i] == names;
      FarIs(tree, from, names, i);
    }

    /** A Twalk.  A fid that walks itself moves even if not all names are there. */
    method Walk(fid: nat, newfid: nat, names: seq<string>) returns (r: Reply)
      requires Valid()
      modifies this
      ensures Valid()
      ensures var old_ := old(fidpool);
              if fid !in old_ || (names != [] && !old_[fid].dir) || old_[fid].isOpen
                 || (fid != newfid && newfid in old_)
              then r.Rerror? && fidpool == old_
              else
                var k := Far(tree, old_[fid].file, names);
                var to := WalkAll(tree, old_[fid].file, names[..k]).value;
                && r == (if k == 0 < |names| then Rerror else Rwalk(k))
                && fidpool == if k == |names| || (k > 0 && fid == newfid)
                              then old_[newfid := SFid(to, tree.isdir(to), false)] else old_
    {
      if fid !in fidpool {
        return Rerror;
      }
      var sf := fidpool[fid];
      if |names| > 0 && !sf.dir {
        return Rerror;
      }
      if sf.isOpen {
        return Rerror;
      }
      if fid != newfid && newfid in fidpool {
        return Rerror;
      }
      var f, i := WalkNames(sf.file, names);
      if |names| > 0 && i == 0 {
        return Rerror;
      }
      if i == |names| || fid == newfid {
        fidpool := fidpool[newfid := SFid(f, tree.isdir(f), false)];
      }
      r := Rwalk(i);
    }

    /** A Tclunk.  The fid stays if the file's own Clunk operation fails. */
    method Clunk(fid: nat) returns (r: Reply)
      requires Valid()
      modifies this
      ensures Valid()
      ensures if fid !in old(fidpool) || tree.clunkErr(old(fidpool)[fid].file) then r.Rerror? && fidpool == old(fidpool)
              else r.Rclunk? && fidpool == old(fidpool) - {fid}
    {
      if fid !in fidpool || tree.clunkErr(fidpool[fid].file) {
        return Rerror;
      }
      fidpool := fidpool - {fid};
      r := Rclunk;
    }

    /** A Tremove gives the fid up whether or not the file can be removed. */
    method Remove(fid: nat, can: bool) returns (r: Reply)
      requires Valid()
      modifies this
      ensures Valid() && fidpool == old(fidpool) - {fid}
      ensures r.Rremove? <==> fid in old(fidpool) && can
    {
      if fid !in fidpool {
        assert fidpool - {fid} == fidpool;
        return Rerror;
      }
      fidpool := fidpool - {fid};
      r := if can then Rremove else Rerror;
    }
  }

  class CFid {
    var fid: nat
    var walked: bool

    constructor (n: nat)
      ensures fid == n && !walked
    {
      fid := n;
      walked := false;
    }
  }

  const NOFID := 0xFFFF_FFFF

  datatype Op = WalkOp(path: string) | ClunkOp(i: nat) | RemoveOp(i: nat, can: bool)

  /** What calls do to the list of files that callers have, if nothing goes astray. */
  function Did(t: Tree, from: File, msize: nat, at: seq<File>, op: Op): seq<File> {
    match op
    case WalkOp(path) =>
      var to := WalkAll(t, from, NamesOf(path));
      if to.Some? && Blockwise(t, from, NamesOf(path), msize) then at + [to.value] else at
    case ClunkOp(i) => if i < |at| then at[..i] + at[i + 1..] else at
    case RemoveOp(i, _) => if i < |at| then at[..i] + at[i + 1..] else at
  }

  /** Opened last is the file that the names lead to; closed again, nothing is left of it. */
  lemma OpenAndClose(t: Tree, from: File, msize: nat, at: seq<File>, path: string, can: bool)
    requires WalkAll(t, from, NamesOf(path)).Some? && Blockwise(t, from, NamesOf(path), msize)
    ensures var at' := Did(t, from, msize, at, WalkOp(path));
            && |at'| == |at| + 1 && at'[..|at|] == at && Some(at'[|at|]) == WalkAll(t, from, NamesOf(path))
            && Did(t, from, msize, at', ClunkOp(|at|)) == Did(t, from, msize, at', RemoveOp(|at|, can)) == at
  {
  }

  function DidAll(t: Tree, from: File, msize: nat, at: seq<File>, ops: seq<Op>): seq<File>
    decreases |ops|
  {
    if ops == [] then at else DidAll(t, from, msize, Did(t, from, msize, at, ops[0]), ops[1..])
  }

  class Clnt {
    const srv: Srv
    const root: nat
    const msize: nat
    var fidpool: set<nat>
    ghost var walked: set<nat>    // walked and not given up
    ghost var stale: set<nat>     // given up, but the file's own Clunk operation failed

    constructor (t: Tree, r: nat, m: nat)
      ensures Agree() && srv.tree == t && root == r && msize == m && fidpool == walked == {r} && stale == {}
      ensures fresh(srv)
      ensures srv.fidpool == map[r := SFid(t.root, t.isdir(t.root), false)]
    {
      srv := new Srv(t, r);
      root, msize := r, m;
      fidpool, walked, stale := {r}, {r}, {};
    }

    /** The server keeps exactly the fids walked and not given up, and those it did not let go. */
    ghost predicate Agree()
      reads this, srv
    {
      && srv.Valid() && root in walked
      && srv.fidpool.Keys == walked + stale && walked !! stale && walked <= fidpool
      && forall n :: n in stale ==> srv.tree.clunkErr(srv.fidpool[n].file)
    }

    /** The root fid can be walked. */
    ghost predicate RootIdle()
      reads this, srv
    {
      root in srv.fidpool && !srv.fidpool[root].isOpen
    }

    method FidAlloc() returns (f: CFid)
      requires Agree()
      modifies this`fidpool
      ensures Agree() && fresh(f) && !f.walked && f.fid !in old(fidpool) && fidpool == old(fidpool) + {f.fid}
    {
      Unused(fidpool);
      var n: nat :| n !in fidpool;
      f := new CFid(n);
      fidpool := fidpool + {n};
    }

    /**
     One Twalk, if it fits the packet.  If it fails nothing changes on either side, except that a fid which
     walks itself has moved as far as there are names.
     */
    method Walk(fid: nat, newfid: CFid, names: seq<string>) returns (ok: bool)
      requires Agree() && fid in srv.fidpool && !srv.fidpool[fid].isOpen
      requires newfid.fid in fidpool && (newfid.fid == fid ==> fid in walked)
      modifies srv, newfid`walked, this`walked
      ensures Agree()
      ensures var from := old(srv.fidpool)[fid];
              var k := Far(srv.tree, from.file, names);
              var to := WalkAll(srv.tree, from.file, names[..k]).value;
              var sent := Fits(names, msize) && (names != [] ==> from.dir) &&
                (newfid.fid == fid || newfid.fid !in old(srv.fidpool));
              && ok == (sent && k == |names|)
              && srv.fidpool == (if sent && (k == |names| || (k > 0 && newfid.fid == fid))
                                 then old(srv.fidpool)[newfid.fid := SFid(to, srv.tree.isdir(to), false)]
                                 else old(srv.fidpool))
              && newfid.walked == (ok || old(newfid.walked))
              && walked == if ok then old(walked) + {newfid.fid} else old(walked)
    {
      if 17 + NamesSize(names) > msize {
        return false;
      }
      var r := srv.Walk(fid, newfid.fid, names);
      if r.Rerror? {
        return false;
      }
      ok := r.n == |names|;
      if ok {
        newfid.walked := true;
        walked := walked + {newfid.fid};
      }
    }

    /** Gives a fid back.  The client forgets it whatever the server answers. */
    method Clunk(f: CFid)
      requires Agree() && f.fid in fidpool && f.fid != root && (f.walked <==> f.fid in walked)
      modifies this`fidpool, this`walked, this`stale, srv, f
      ensures Agree() && fidpool == old(fidpool) - {old(f.fid)} && walked == old(walked) - {old(f.fid)}
      ensures var n := old(f.fid);
              var refused := old(f.walked) && srv.tree.clunkErr(old(srv.fidpool)[n].file);
              && stale == (if refused then old(stale) + {n} else old(stale))
              && srv.fidpool == if refused || !old(f.walked) then old(srv.fidpool) else old(srv.fidpool) - {n}
    {
      if f.walked {
        var r := srv.Clunk(f.fid);
        if f.fid in srv.fidpool { stale := stale + {f.fid}; }
      }
      fidpool, walked := fidpool - {f.fid}, walked - {f.fid};
      f.walked := false;
      f.fid := NOFID;
    }

    /** Removes the file of a fid and gives the fid back. */
    method Remove(f: CFid, can: bool) returns (ok: bool)
      requires Agree() && f.fid in fidpool && f.fid != root
      modifies this`fidpool, this`walked, this`stale, srv, f`fid
      ensures Agree() && ok == (can && old(f.fid in srv.fidpool))
      ensures fidpool == old(fidpool) - {old(f.fid)} && srv.fidpool == old(srv.fidpool) - {old(f.fid)}
      ensures walked == old(walked) - {old(f.fid)} && stale == old(stale) - {old(f.fid)}
    {
      var r := srv.Remove(f.fid, can);
      fidpool, walked, stale := fidpool - {f.fid}, walked - {f.fid}, stale - {f.fid};
      f.fid := NOFID;
      ok := r.Rremove?;
    }

    /** Moves the names that are not empty to the front. */
    method Compact(names: array<string>) returns (m: nat)
      modifies names
      ensures m <= names.Length && names[..m] == NonEmpty(old(names[..]))
    {
      m := 0;
      ghost var all := names[..];
      for i := 0 to names.Length
        invariant m <= i && names[..m] == NonEmpty(all[..i])
        invariant forall k :: i <= k < names.Length ==> names[k] == all[k]
      {
        assert all[..i + 1][..i] == all[..i];
        if names[i] != "" {
          names[m] := names[i];
          m := m + 1;
        }
      }
      assert all[..names.Length] == all;
    }

    /** Only fid n has changed on the server. */
    twostate predicate OnlyAt(n: nat)
      reads srv
    {
      forall m :: m != n ==>
        && (m in srv.fidpool <==> m in old(srv.fidpool))
        && (m in srv.fidpool ==> srv.fidpool[m] == old(srv.fidpool)[m])
    }

    /** The walk in blocks from the root to newfid.  A number the server still keeps cannot be walked to. */
    method WalkBlocks(names: seq<string>, newfid: CFid) returns (ok: bool)
      requires Agree() && !srv.fidpool[root].isOpen
      requires newfid.fid in fidpool && newfid.fid !in walked && !newfid.walked
      modifies srv, newfid`walked, this`walked
      ensures Agree() && OnlyAt(newfid.fid)
      ensures walked == if newfid.walked then old(walked) + {newfid.fid} else old(walked)
      ensures newfid.walked ==> newfid.fid !in old(srv.fidpool)
      ensures !newfid.walked ==> srv.fidpool == old(srv.fidpool)
      ensures var from, to := old(srv.fidpool)[root].file, WalkAll(srv.tree, old(srv.fidpool)[root].file, names);
              && ok == (newfid.fid !in old(srv.fidpool) && to.Some? && Blockwise(srv.tree, from, names, msize))
              && (ok ==> newfid.walked && srv.fidpool[newfid.fid] == SFid(to.value, srv.tree.isdir(to.value), false))
    {
      var fid, rest := root, names;
      ghost var from := srv.fidpool[root].file;
      ghost var at := from;
      while true
        invariant Agree() && fid in walked && srv.fidpool[fid].file == at && !srv.fidpool[fid].isOpen
        invariant fid == if newfid.walked then newfid.fid else root
        invariant walked == if newfid.walked then old(walked) + {newfid.fid} else old(walked)
        invariant newfid.walked ==> newfid.fid !in old(srv.fidpool) && rest != []
        invariant !newfid.walked ==> srv.fidpool == old(srv.fidpool)
        invariant OnlyAt(newfid.fid)
        invariant WalkAll(srv.tree, from, names) == WalkAll(srv.tree, at, rest)
        invariant Blockwise(srv.tree, from, names, msize) <==> Blockwise(srv.tree, at, rest, msize)
        decreases |rest|
      {
        var n := Min(|rest|, BLOCK);
        assert rest == rest[..n] + rest[n..];
        WalkConcat(srv.tree, at, rest[..n], rest[n..]);
        assert rest[..n][..n] == rest[..n];
        ok := Walk(fid, newfid, rest[..n]);
        if !ok {
          return;
        }
        at := WalkAll(srv.tree, at, rest[..n]).value;
        rest := rest[n..];
        fid := newfid.fid;
        if |rest| == 0 {
          break;
        }
      }
    }

    /**
     Walks to a file.  It is found if all names are there, each block starts at a directory and fits a
     packet, and the number n that is tried is not one the server did not let go.  After a failure the server
     has the fids it had, and n if the Clunk operation of the file reached failed.
     */
    method FWalk(path: string) returns (fid: CFid?, ghost n: nat)
      requires Agree() && RootIdle()
      modifies this`fidpool, this`walked, this`stale, srv
      ensures Agree() && RootIdle() && n !in old(fidpool) && n != root && OnlyAt(n)
      ensures var from := old(srv.fidpool)[root].file;
              var to := WalkAll(srv.tree, from, NamesOf(path));
              && (fid != null <==> n !in old(stale) && to.Some? && Blockwise(srv.tree, from, NamesOf(path), msize))
              && (fid != null ==>
                    && fresh(fid) && fid.walked && fid.fid == n && fidpool == old(fidpool) + {n}
                    && walked == old(walked) + {n} && stale == old(stale)
                    && srv.fidpool == old(srv.fidpool)[n := SFid(to.value, srv.tree.isdir(to.value), false)])
      ensures fid == null ==>
                fidpool == old(fidpool) && walked == old(walked) && (stale == old(stale) || stale == old(stale) + {n})
      ensures forall names, gaps :: Spells(path, names, gaps) ==>
                var to := WalkAll(srv.tree, old(srv.fidpool)[root].file, names);
                && (fid != null ==> to.Some? && srv.fidpool[n].file == to.value)
                && (to.Some? && Blockwise(srv.tree, old(srv.fidpool)[root].file, names, msize) && n !in old(stale) ==>
                      fid != null)
    {
      forall names, gaps | Spells(path, names, gaps) ensures NamesOf(path) == names {
        NamesAsSpelled(path, names, gaps);
      }
      var wnames := SplitPath(path);
      var newfid := FidAlloc();
      n := newfid.fid;
      var ok := WalkBlocks(wnames, newfid);
      if !ok {
        Clunk(newfid);
        return null, n;
      }
      fid := newfid;
    }

    /** The names of a path, as the source gets them. */
    method SplitPath(path: string) returns (names: seq<string>)
      ensures names == NamesOf(path)
    {
      var i := 0;
      while i < |path| && path[i] == '/'
        invariant i <= |path| && forall k :: 0 <= k < i ==> path[k] == '/'
      {
        i := i + 1;
      }
      LeadingSlashes(path, i);
      var parts := PathNames.Components(path[i..]);
      var wnames := new string[|parts|](k requires 0 <= k < |parts| => parts[k]);
      assert wnames[..] == parts;
      var m := Compact(wnames);
      names := wnames[..m];
    }

    /** The files that callers have: their numbers, with that of the root, are the fids walked and not given up. */
    ghost predicate Held(files: seq<CFid>)
      reads this, files
    {
      HeldFor(files, walked)
    }

    ghost predicate HeldFor(files: seq<CFid>, walked: set<nat>)
      reads files
    {
      && (forall i :: 0 <= i < |files| ==> files[i].walked && files[i].fid in walked && files[i].fid != root)
      && (forall i, j :: 0 <= i < j < |files| ==> files[i] != files[j] && files[i].fid != files[j].fid)
      && (forall n :: n in walked && n != root ==> n in Numbers(files))
    }

    ghost function Numbers(files: seq<CFid>): seq<nat>
      reads files
    {
      seq(|files|, i requires 0 <= i < |files| reads files => files[i].fid)
    }

    /** Without file i, whose number is no longer walked. */
    lemma OneLess(files: seq<CFid>, i: nat, n: nat, was: seq<nat>, walked0: set<nat>)
      requires i < |files| && |was| == |files| && was[i] == n && walked == walked0 - {n} && n != root
      requires forall k :: 0 <= k < |files| && k != i ==>
                 files[k].walked && files[k].fid == was[k] && was[k] in walked0 && was[k] != root
      requires forall j, k :: 0 <= j < k < |files| ==> files[j] != files[k] && was[j] != was[k]
      requires forall m :: m in walked0 && m != root ==> m in was
      ensures Held(files[..i] + files[i + 1..])
    {
      var rest := files[..i] + files[i + 1..];
      forall m | m in walked && m != root ensures m in Numbers(rest) {
        var k :| 0 <= k < |was| && was[k] == m;
        assert rest[if k < i then k else k - 1] == files[k];
        assert Numbers(rest)[if k < i then k else k - 1] == m;
      }
    }

    lemma OneMore(files: seq<CFid>, f: CFid, walked0: set<nat>)
      requires f.walked && f.fid != root && f.fid !in walked0 && walked == walked0 + {f.fid} && f !in files
      requires HeldFor(files, walked0)
      ensures Held(files + [f])
    {
      var more := files + [f];
      forall n | n in walked && n != root ensures n in Numbers(more) {
        if n == f.fid {
          assert Numbers(more)[|files|] == n;
        } else {
          var k :| 0 <= k < |files| && Numbers(files)[k] == n;
          assert Numbers(more)[k] == n;
        }
      }
    }

    /** The files on the server that the callers' files stand for. */
    ghost function Places(files: seq<CFid>): seq<File>
      requires Agree() && Held(files)
      reads this, srv, files
    {
      seq(|files|, i requires 0 <= i < |files| && files[i].fid in srv.fidpool reads srv, files =>
        srv.fidpool[files[i].fid].file)
    }

    /** Where the root fid is. */
    ghost function RootFile(): File
      requires Agree()
      reads this, srv
    {
      srv.fidpool[root].file
    }

    /** FWalk leaves the files that callers have where they are. */
    method Found(path: string, files: seq<CFid>) returns (f: CFid?)
      requires Agree() && Held(files) && RootIdle()
      modifies this`fidpool, this`walked, this`stale, srv
      ensures Agree() && RootIdle() && RootFile() == old(RootFile()) && HeldFor(files, old(walked))
      ensures forall k :: 0 <= k < |files| ==>
                files[k].fid in srv.fidpool && srv.fidpool[files[k].fid].file == old(Places(files))[k]
      ensures f == null ==> walked == old(walked)
      ensures f != null ==>
                && fresh(f) && f.walked && f.fid != root && f.fid !in old(walked) && walked == old(walked) + {f.fid}
                && Did(srv.tree, RootFile(), msize, old(Places(files)), WalkOp(path)) ==
                   old(Places(files)) + [srv.fidpool[f.fid].file]
      ensures f == null && old(stale) == {} ==>
                Did(srv.tree, RootFile(), msize, old(Places(files)), WalkOp(path)) == old(Places(files))
    {
      ghost var n;
      ghost var at := Places(files);
      f, n := FWalk(path);
      forall k | 0 <= k < |files| ensures files[k].fid in srv.fidpool && srv.fidpool[files[k].fid].file == at[k] {
        assert files[k].fid in old(walked);
      }
    }

    lemma OpenedToo(files: seq<CFid>, f: CFid, at: seq<File>, walked0: set<nat>)
      requires Agree() && f.walked && f.fid != root && f.fid !in walked0 && walked == walked0 + {f.fid} && f !in files
      requires HeldFor(files, walked0) && |at| == |files|
      requires forall k :: 0 <= k < |files| ==> files[k].fid in srv.fidpool && srv.fidpool[files[k].fid].file == at[k]
      ensures Held(files + [f]) && f.fid in srv.fidpool
      ensures Places(files + [f]) == at + [srv.fidpool[f.fid].file]
    {
      OneMore(files, f, walked0);
    }

    method Opens(path: string, files: seq<CFid>) returns (r: seq<CFid>)
      requires Agree() && Held(files) && RootIdle()
      modifies this`fidpool, this`walked, this`stale, srv
      ensures Agree() && Held(r) && RootIdle() && RootFile() == old(RootFile())
      ensures forall k :: 0 <= k < |r| ==> r[k] in files || fresh(r[k])
      ensures Places(r) == Did(srv.tree, RootFile(), msize, old(Places(files)), WalkOp(path))
              || (old(stale) != {} && r == files && Places(r) == old(Places(files)))
    {
      r := files;
      ghost var at := Places(files);
      var f := Found(path, files);
      if f != null {
        r := files + [f];
        OpenedToo(files, f, at, old(walked));
      } else {
        assert Places(r) == at;
      }
    }

    /** File i has been given up; the others are where they were. */
    lemma GivenUp(files: seq<CFid>, i: nat, was: seq<nat>, at: seq<File>, walked0: set<nat>)
      requires Agree() && i < |files| && |was| == |at| == |files| && walked == walked0 - {was[i]} && was[i] != root
      requires forall k :: 0 <= k < |files| && k != i ==>
                 && files[k].walked && files[k].fid == was[k] && was[k] in walked0 && was[k] != root
                 && files[k].fid in srv.fidpool && srv.fidpool[files[k].fid].file == at[k]
      requires forall j, k :: 0 <= j < k < |files| ==> files[j] != files[k] && was[j] != was[k]
      requires forall m :: m in walked0 && m != root ==> m in was
      ensures Held(files[..i] + files[i + 1..]) && Places(files[..i] + files[i + 1..]) == at[..i] + at[i + 1..]
    {
      OneLess(files, i, was[i], was, walked0);
      LessPlaces(files, i, at);
    }

    lemma LessPlaces(files: seq<CFid>, i: nat, at: seq<File>)
      requires i < |files| && |at| == |files| && Agree() && Held(files[..i] + files[i + 1..])
      requires forall k :: 0 <= k < |files| && k != i ==>
                 files[k].fid in srv.fidpool && srv.fidpool[files[k].fid].file == at[k]
      ensures Places(files[..i] + files[i + 1..]) == at[..i] + at[i + 1..]
    {
      var r := files[..i] + files[i + 1..];
      forall k | 0 <= k < |r| ensures Places(r)[k] == (at[..i] + at[i + 1..])[k] {
        assert r[k] == files[if k < i then k else k + 1];
      }
    }

    method Closes(i: nat, files: seq<CFid>) returns (r: seq<CFid>)
      requires Agree() && Held(files) && RootIdle() && i < |files|
      modifies this`fidpool, this`walked, this`stale, srv, files[i]
      ensures Agree() && Held(r) && RootIdle() && RootFile() == old(RootFile())
      ensures r == files[..i] + files[i + 1..] && Places(r) == old(Places(files)[..i] + Places(files)[i + 1..])
    {
      ghost var was, at := Numbers(files), Places(files);
      Clunk(files[i]);
      r := files[..i] + files[i + 1..];
      GivenUp(files, i, was, at, old(walked));
    }

    method Removes(i: nat, can: bool, files: seq<CFid>) returns (r: seq<CFid>)
      requires Agree() && Held(files) && RootIdle() && i < |files|
      modifies this`fidpool, this`walked, this`stale, srv, files[i]
      ensures Agree() && Held(r) && RootIdle() && RootFile() == old(RootFile())
      ensures r == files[..i] + files[i + 1..] && Places(r) == old(Places(files)[..i] + Places(files)[i + 1..])
    {
      ghost var was, at := Numbers(files), Places(files);
      var ok := Remove(files[i], can);
      r := files[..i] + files[i + 1..];
      GivenUp(files, i, was, at, old(walked));
    }

    /** One call of a caller.  A walk can also fail because it tries a number that has gone astray. */
    method Do(op: Op, files: seq<CFid>) returns (r: seq<CFid>)
      requires Agree() && Held(files) && RootIdle()
      modifies this`fidpool, this`walked, this`stale, srv, files
      ensures Agree() && Held(r) && RootIdle() && RootFile() == old(RootFile())
      ensures forall k :: 0 <= k < |r| ==> r[k] in files || fresh(r[k])
      ensures Places(r) == Did(srv.tree, RootFile(), msize, old(Places(files)), op)
              || (op.WalkOp? && old(stale) != {} && r == files && Places(r) == old(Places(files)))
    {
      r := files;
      match op
      case WalkOp(path) => r := Opens(path, files);
      case ClunkOp(i) => if i < |files| { r := Closes(i, files); }
      case RemoveOp(i, can) => if i < |files| { r := Removes(i, can, files); }
    }

    /**
     After any sequence of calls the server keeps exactly the root, the files that callers have, and those
     whose own Clunk operation failed.  If that never fails, the callers have what the calls ask for.
     */
    method Run(ops: seq<Op>, files: seq<CFid>) returns (r: seq<CFid>)
      requires Agree() && Held(files) && RootIdle()
      modifies this`fidpool, this`walked, this`stale, srv, files
      ensures Agree() && Held(r)
      ensures forall n :: n in srv.fidpool <==> n == root || n in Numbers(r) || n in stale
      ensures forall n :: n in stale ==> n in srv.fidpool && srv.tree.clunkErr(srv.fidpool[n].file)
      ensures (forall f :: !srv.tree.clunkErr(f)) ==>
                Places(r) == DidAll(srv.tree, old(RootFile()), msize, old(Places(files)), ops)
    {
      r := files;
      ghost var want := DidAll(srv.tree, RootFile(), msize, Places(files), ops);
      assert ops[0..] == ops;
      for i := 0 to |ops|
        invariant Agree() && Held(r) && RootIdle() && RootFile() == old(RootFile())
        invariant forall k :: 0 <= k < |r| ==> r[k] in files || fresh(r[k])
        invariant (forall f :: !srv.tree.clunkErr(f)) ==>
                    DidAll(srv.tree, RootFile(), msize, Places(r), ops[i..]) == want
      {
        assert ops[i..][0] == ops[i] && ops[i..][1..] == ops[i + 1..];
        r := Do(ops[i], r);
      }
    }
  }
}
