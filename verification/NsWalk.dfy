/**
 Walking through a namespace with mounts (p/chan9/walk.go): the walk itself, with the fids it takes and
 gives up on both sides of the connections.  What it comes to is in NsBlock.
 */
module NsWalk {
  import opened Common
  import opened NsBlock

  datatype Error = NoError | Ebaduse | Enofile | Remote

  const NOFID := 0xFFFF_FFFF

  class Fid {
    var number: nat
    var walked: bool
    var id: FileID
    var path: seq<FileID>
    var next: Fid?

    constructor (n: nat)
      ensures number == n && !walked && next == null && path == []
    {
      number := n;
      walked := false;
      id := FileID(0, false, 0, Qid(0, 0, 0));
      path := [];
      next := null;
    }
  }

  /** A fid as its server knows it. */
  datatype Handle = Handle(typ: nat, dev: nat, number: nat)

  ghost function HandleOf(f: Fid): Handle
    reads f
  {
    Handle(f.id.typ, f.id.dev, f.number)
  }

  /** f is in use, and its server keeps it at its file. */
  ghost predicate Live(f: Fid, held: set<nat>, table: map<Handle, Qid>)
    reads f
  {
    f.walked && f.number in held && HandleOf(f) in table && table[HandleOf(f)] == f.id.qid
  }

  /** u is a union, each fid linked to the next; files are theirs. */
  ghost predicate Union(u: seq<Fid>, files: seq<FileID>, held: set<nat>, table: map<Handle, Qid>)
    reads u
    decreases |u|, 0
  {
    && u != [] && |u| == |files|
    && u[0].id == files[0] && Live(u[0], held, table)
    && Tail(u[0], u[1..], files[1..], held, table)
  }

  /** What f is linked to. */
  ghost predicate Tail(f: Fid, u: seq<Fid>, files: seq<FileID>, held: set<nat>, table: map<Handle, Qid>)
    reads f, u
    decreases |u|, 1
  {
    if u == [] then files == [] && f.next == null
    else f.next == u[0] && Union(u, files, held, table)
  }

  class Namespace {
    const tree: Tree
    const rude: FileID -> bool            // at these files a missing first name is answered without an error
    const children: map<FileID, Fid>      // the mount table
    ghost const fids: set<Fid>            // the fids it holds
    ghost const ids: map<Fid, FileID>     // and their files
    ghost const links: map<Fid, Fid?>     // and links
    ghost const unions: map<FileID, seq<Fid>>
    ghost const mounts: Mounts
    var held: set<nat>                    // the fid numbers in use
    var table: map<Handle, Qid>           // the fids the servers keep

    /** How the fids of the mount table are linked to unions. */
    ghost predicate Wired() {
      && children.Keys == mounts.Keys == unions.Keys
      && (forall id :: id in mounts ==> Laid(unions[id], mounts[id]) && children[id] == unions[id][0])
    }

    ghost predicate Laid(u: seq<Fid>, files: seq<FileID>) {
      && u != [] && |u| == |files|
      && u[0] in fids && u[0] in ids && u[0] in links
      && ids[u[0]] == files[0] && links[u[0]] == (if |u| > 1 then u[1] else null)
      && (|u| > 1 ==> Laid(u[1..], files[1..]))
    }

    /** Every fid of the mount table is in use, and servers keep no other fids than those in use. */
    ghost predicate Kept(held0: set<nat>, table0: map<Handle, Qid>)
      reads fids
    {
      && (forall h :: h in table0 ==> h.number in held0)
      && (forall f :: f in fids ==>
          Live(f, held0, table0) && f in ids && f in links && f.id == ids[f] && f.next == links[f])
    }

    lemma {:induction false} LaidUnion(u: seq<Fid>, files: seq<FileID>, held0: set<nat>, table0: map<Handle, Qid>)
      requires Kept(held0, table0) && Laid(u, files)
      ensures Union(u, files, held0, table0) && forall f :: f in u ==> f in fids
      decreases |u|
    {
      if |u| > 1 {
        LaidUnion(u[1..], files[1..], held0, table0);
      }
    }

    /** newfid is the one fid in use beyond held0, and the only one the servers keep beyond table0. */
    ghost predicate OneMore(newfid: Fid, held0: set<nat>, table0: map<Handle, Qid>)
      reads this, newfid
    {
      && newfid !in fids && newfid.next == null
      && newfid.number !in held0 && held == held0 + {newfid.number}
      && table == if newfid.walked then table0[HandleOf(newfid) := newfid.id.qid] else table0
    }

    /** The same, wherever the server has the fid: a walk from a fid to itself may have moved it half way. */
    ghost predicate InHand(newfid: Fid, held0: set<nat>, table0: map<Handle, Qid>)
      reads this, newfid
    {
      && newfid !in fids && newfid.next == null
      && newfid.number !in held0 && held == held0 + {newfid.number}
      && if newfid.walked then HandleOf(newfid) in table && table == table0[HandleOf(newfid) := table[HandleOf(newfid)]]
         else table == table0
    }

    method FidAlloc() returns (f: Fid)
      modifies this`held
      ensures fresh(f) && OneMore(f, old(held), table) && !f.walked
    {
      Unused(held);
      var n: nat :| n !in held;
      f := new Fid(n);
      held := held + {n};
    }

    /** Gives up the one fid in use beyond held0. */
    method Clunk(f: Fid, ghost held0: set<nat>, ghost table0: map<Handle, Qid>)
      requires Kept(held0, table0) && InHand(f, held0, table0)
      modifies this`held, this`table, f
      ensures Kept(held0, table0) && held == held0 && table == table0
    {
      if f.walked {
        table := table - {Handle(f.id.typ, f.id.dev, f.number)};
      }
      held := held - {f.number};
      f.walked := false;
      f.number := NOFID;
    }

    /**
     One Twalk: newfid moves only if all names are walked, except that a server may move a fid that is
     walked to itself.
     */
    method FidWalk(fid: Fid, newfid: Fid, names: seq<string>) returns (ok: bool, qs: seq<Qid>)
      requires Live(fid, held, table)
      modifies this`table, newfid`id, newfid`walked
      ensures ok ==> qs == Steps(tree, old(fid.id), names)
      ensures !ok <==> names != [] && Steps(tree, old(fid.id), names) == [] && !rude(old(fid.id))
      ensures ok && |qs| == |names| ==>
                && newfid.walked
                && newfid.id == (if names == [] then Clear(old(fid.id)) else At(old(fid.id), qs[|qs| - 1]))
                && table == old(table)[HandleOf(newfid) := newfid.id.qid]
      ensures !ok || |qs| < |names| ==>
                && newfid.id == old(newfid.id) && newfid.walked == old(newfid.walked)
                && (table == old(table) ||
                    (fid == newfid && HandleOf(newfid) in table &&
                     table == old(table)[HandleOf(newfid) := table[HandleOf(newfid)]]))
    {
      qs := Steps(tree, fid.id, names);
      ok := names == [] || qs != [] || rude(fid.id);
      if ok && |qs| == |names| {
        var to := if qs == [] then Clear(fid.id) else At(fid.id, qs[|qs| - 1]);
        newfid.id := to;
        newfid.walked := true;
        table := table[Handle(to.typ, to.dev, newfid.number) := to.qid];
      } else if qs != [] && fid == newfid {
        var moves: bool := *;
        if moves { table := table[Handle(fid.id.typ, fid.id.dev, fid.number) := qs[|qs| - 1]]; }
      }
    }

    /** How a walk ends: one more fid in use and kept by its server, or none. */
    ghost predicate Ended(outcome: Outcome, r: Fid?, u: seq<Fid>, held0: set<nat>, table0: map<Handle, Qid>)
      reads this, r, u
    {
      match outcome
      case Missing => r == null && held == held0 && table == table0
      case Reached(files, path) =>
        && r != null && r.number !in held0 && held == held0 + {r.number} && r.walked
        && table == table0[HandleOf(r) := r.id.qid]
        && r.path == path && |files| > 0 && r.id == files[0] && Tail(r, u, files[1..], held0, table0)
    }

    /** The next block can be walked from the union u: one that was there before, or the fid walked to. */
    ghost predicate Ready(u: seq<Fid>, fl: seq<FileID>, newfid: Fid, held0: set<nat>, table0: map<Handle, Qid>)
      reads u, newfid
    {
      if newfid.walked then u == [newfid] && fl == [newfid.id]
      else newfid !in u && Union(u, fl, held0, table0)
    }

    lemma Members(u: seq<Fid>, fl: seq<FileID>, newfid: Fid, held0: set<nat>, table0: map<Handle, Qid>)
      requires OneMore(newfid, held0, table0) && Ready(u, fl, newfid, held0, table0)
      ensures |u| == |fl| && u[0].id == fl[0]
      ensures u[0].next == if |u| > 1 then u[1] else null
      ensures |u| > 1 ==> !newfid.walked && Union(u[1..], fl[1..], held0, table0) && newfid !in u[1..]
      ensures Tail(u[0], u[1..], fl[1..], held0, table0)
      ensures !newfid.walked ==> u[0] != newfid
      ensures newfid.walked ==> u[0] == newfid
    {
      if newfid.walked {
        assert u[1..] == [] && fl[1..] == [];
      } else {
        assert Tail(u[0], u[1..], fl[1..], held0, table0);
      }
    }

    /** Gives newfid up and goes on from the union mounted on id. */
    method EnterMount(id: FileID, newfid: Fid, ghost held0: set<nat>, ghost table0: map<Handle, Qid>)
      returns (fd: Fid, f: Fid, ghost u: seq<Fid>)
      requires Kept(held0, table0) && Wired() && InHand(newfid, held0, table0)
      requires id in children
      modifies this`held, this`table, newfid
      ensures Kept(held0, table0) && fresh(f) && !f.walked
      ensures OneMore(f, held0, table0) && Ready(u, mounts[id], f, held0, table0) && u[0] == fd
    {
      fd, u := children[id], unions[id];
      Clunk(newfid, held0, table0);
      f := FidAlloc();
      LaidUnion(u, mounts[id], held0, table0);
    }

    /** Gives newfid up and goes on from the next member of the union. */
    method NextMember(fd: Fid, newfid: Fid, ghost u: seq<Fid>, ghost fl: seq<FileID>, ghost held0: set<nat>,
                      ghost table0: map<Handle, Qid>)
      returns (fd': Fid, f: Fid)
      requires Kept(held0, table0) && InHand(newfid, held0, table0) && !newfid.walked
      requires Ready(u, fl, newfid, held0, table0) && u[0] == fd && fd.next != null
      modifies this`held, this`table, newfid
      ensures Kept(held0, table0) && fresh(f) && !f.walked
      ensures |u| > 1 && OneMore(f, held0, table0) && Ready(u[1..], fl[1..], f, held0, table0) && u[1] == fd'
    {
      fd' := fd.next;
      Members(u, fl, newfid, held0, table0);
      Clunk(newfid, held0, table0);
      f := FidAlloc();
    }

    /** What one block came to, when it did not fail. */
    ghost predicate Turned(t: Turn, done: bool, fd: Fid, newfid: Fid, names: seq<string>, path: seq<FileID>,
                           u: seq<Fid>, fl: seq<FileID>, held0: set<nat>, table0: map<Handle, Qid>)
      reads this, newfid, u
    {
      if done then t == Done(fl, path) && Ended(Reached(fl, path), newfid, u, held0, table0)
      else
        && t == More(fl, names, path) && fl != [] && u != [] && u[0] == fd
        && OneMore(newfid, held0, table0) && Ready(u, fl, newfid, held0, table0) && (newfid.walked ==> names != [])
    }

    /** The error of a block that failed: of the server, of the walk, or none although there is no fid. */
    function WhyFailed(fl: seq<FileID>, names: seq<string>): Error {
      if fl == [] || Steps(tree, fl[0], names[..Min(|names|, BLOCK)]) != [] then Enofile
      else if rude(fl[0]) then NoError
      else Remote
    }

    /** One block of a walk.  The fid is given up if the walk fails here. */
    method WalkBlock(fd: Fid, newfid: Fid, names: seq<string>, path: seq<FileID>,
                     ghost u: seq<Fid>, ghost fl: seq<FileID>, ghost held0: set<nat>, ghost table0: map<Handle, Qid>)
      returns (done: bool, err: Error, fd': Fid, newfid': Fid?, names': seq<string>, path': seq<FileID>,
               ghost u': seq<Fid>, ghost fl': seq<FileID>)
      requires Kept(held0, table0) && Wired() && OneMore(newfid, held0, table0)
      requires Ready(u, fl, newfid, held0, table0) && u[0] == fd && (newfid.walked ==> names != [])
      requires forall id :: id in mounts ==> mounts[id] != []
      modifies this`held, this`table, newfid
      ensures Kept(held0, table0)
      ensures newfid' == null || newfid' == newfid || fresh(newfid')
      ensures newfid' == null ==> Block(tree, mounts, fl, names, path).Fail? && held == held0 && table == table0
      ensures newfid' == null ==> err == WhyFailed(fl, names)
      ensures newfid' != null ==>
                Turned(Block(tree, mounts, fl, names, path), done, fd', newfid', names', path', u', fl', held0, table0)
    {
      Members(u, fl, newfid, held0, table0);
      var n := Min(|names|, BLOCK);
      var from := fd.id;
      var ok, qs := FidWalk(fd, newfid, names[..n]);
      if !ok || (n > 0 && |qs| == 0) {
        done, fd', newfid', names', path', u', fl' := false, fd, null, names, path, u[1..], fl[1..];
        err := if ok then NoError else Remote;
        if fd.next != null {
          fd', newfid' := NextMember(fd, newfid, u, fl, held0, table0);
        } else {
          Clunk(newfid, held0, table0);
        }
      } else {
        done, err, fd', newfid', names', path', u', fl' :=
          Follow(fd, newfid, names, path, from, qs, u, fl, held0, table0);
      }
    }

    /** What follows a reply that found something. */
    method Follow(fd: Fid, newfid: Fid, names: seq<string>, path: seq<FileID>, from: FileID, qs: seq<Qid>,
                  ghost u: seq<Fid>, ghost fl: seq<FileID>, ghost held0: set<nat>, ghost table0: map<Handle, Qid>)
      returns (done: bool, err: Error, fd': Fid, newfid': Fid?, names': seq<string>, path': seq<FileID>,
               ghost u': seq<Fid>, ghost fl': seq<FileID>)
      requires Kept(held0, table0) && Wired() && InHand(newfid, held0, table0)
      requires |qs| == Min(|names|, BLOCK) ==> OneMore(newfid, held0, table0)
      requires forall id :: id in mounts ==> mounts[id] != []
      requires |u| == |fl| > 0 && u[0] == fd && fl[0] == from
      requires qs == Steps(tree, from, names[..Min(|names|, BLOCK)]) && (names != [] ==> qs != [])
      requires |qs| == Min(|names|, BLOCK) ==>
                 newfid.walked && newfid.id == if qs == [] then Clear(from) else At(from, qs[|qs| - 1])
      requires names == [] ==> Tail(fd, u[1..], fl[1..], held0, table0) && newfid !in u
      modifies this`held, this`table, newfid
      ensures Kept(held0, table0)
      ensures newfid' == null || newfid' == newfid || fresh(newfid')
      ensures newfid' == null ==> Block(tree, mounts, fl, names, path).Fail? && held == held0 && table == table0
      ensures newfid' == null ==> err == WhyFailed(fl, names)
      ensures newfid' != null ==>
                Turned(Block(tree, mounts, fl, names, path), done, fd', newfid', names', path', u', fl', held0, table0)
    {
      var i := FirstMount(from, qs);
      if i < |qs| {
        fd', newfid', u' := EnterMount(from.(qid := qs[i]), newfid, held0, table0);
        fl' := mounts[from.(qid := qs[i])];
        done, err, path', names' := false, NoError, path + Ids(from, qs[..i + 1]), names[i + 1..];
        BlockGoes(tree, mounts, fl, names, path, Min(|names|, BLOCK), qs);
        assert Block(tree, mounts, fl, names, path) == More(fl', names', path');
      } else {
        done, err, fd', newfid', names', path', u', fl' :=
          Settle(fd, newfid, names, path, from, qs, u, fl, held0, table0);
      }
    }

    /** What follows a reply that found something and crossed no mount point. */
    method Settle(fd: Fid, newfid: Fid, names: seq<string>, path: seq<FileID>, from: FileID, qs: seq<Qid>,
                  ghost u: seq<Fid>, ghost fl: seq<FileID>, ghost held0: set<nat>, ghost table0: map<Handle, Qid>)
      returns (done: bool, err: Error, fd': Fid, newfid': Fid?, names': seq<string>, path': seq<FileID>,
               ghost u': seq<Fid>, ghost fl': seq<FileID>)
      requires Kept(held0, table0) && Wired() && InHand(newfid, held0, table0)
      requires |qs| == Min(|names|, BLOCK) ==> OneMore(newfid, held0, table0)
      requires forall id :: id in mounts ==> mounts[id] != []
      requires |u| == |fl| > 0 && u[0] == fd && fl[0] == from
      requires qs == Steps(tree, from, names[..Min(|names|, BLOCK)]) && (names != [] ==> qs != [])
      requires Clean(mounts, from, qs) == |qs|
      requires |qs| == Min(|names|, BLOCK) ==>
                 newfid.walked && newfid.id == if qs == [] then Clear(from) else At(from, qs[|qs| - 1])
      requires names == [] ==> Tail(fd, u[1..], fl[1..], held0, table0) && newfid !in u
      modifies this`held, this`table, newfid
      ensures Kept(held0, table0)
      ensures newfid' == null || newfid' == newfid || fresh(newfid')
      ensures newfid' == null ==> Block(tree, mounts, fl, names, path).Fail? && held == held0 && table == table0
      ensures newfid' == null ==> err == WhyFailed(fl, names)
      ensures newfid' != null ==>
                Turned(Block(tree, mounts, fl, names, path), done, fd', newfid', names', path', u', fl', held0, table0)
    {
      var n := Min(|names|, BLOCK);
      done, err, fd', newfid', names', path', u', fl' :=
        false, NoError, newfid, newfid, names, path, [newfid], [newfid.id];
      if |qs| != n {
        Clunk(newfid, held0, table0);
        newfid', err := null, Enofile;
        return;
      }
      path', names' := path + Ids(from, qs), names[n..];
      if |names'| == 0 {
        done := true;
        u' := Arrive(fd, newfid, n == 0, path', u, fl, held0, table0);
        fl' := [newfid.id] + (if n == 0 then fl[1..] else []);
        assert Ids(from, []) == [] && path + [] == path;
      }
    }

    /** The end of a walk.  With no names at all the new fid stands for the whole union. */
    method Arrive(fd: Fid, newfid: Fid, whole: bool, path: seq<FileID>, ghost u: seq<Fid>, ghost fl: seq<FileID>,
                  ghost held0: set<nat>, ghost table0: map<Handle, Qid>) returns (ghost tail: seq<Fid>)
      requires newfid.walked && OneMore(newfid, held0, table0) && |u| == |fl| > 0
      requires whole ==> Tail(fd, u[1..], fl[1..], held0, table0) && newfid !in u
      modifies newfid`next, newfid`path
      ensures newfid.id == old(newfid.id)
      ensures tail == if whole then u[1..] else []
      ensures Ended(Reached([newfid.id] + (if whole then fl[1..] else []), path), newfid, tail, held0, table0)
    {
      tail := if whole then u[1..] else [];
      if whole {
        newfid.next := fd.next;
      }
      newfid.path := path;
    }

    method FirstMount(from: FileID, qs: seq<Qid>) returns (i: nat)
      requires Wired()
      ensures i == Clean(mounts, from, qs)
    {
      i := 0;
      while i < |qs| && from.(qid := qs[i]) !in children
        invariant i <= |qs| && Clean(mounts, from, qs) == i + Clean(mounts, from, qs[i..])
      {
        i := i + 1;
      }
    }

    /**
     The walk in blocks.  union and files tell where it starts: fid, the members behind it and their
     files.  tail is what the resulting fid is linked to.
     */
    method Walk(fid: Fid?, names: seq<string>, ghost union: seq<Fid>, ghost files: seq<FileID>)
      returns (r: Fid?, err: Error, ghost tail: seq<Fid>)
      requires Kept(held, table) && Wired() && (forall id :: id in mounts ==> mounts[id] != [])
      requires fid != null ==> Union(union, files, held, table) && union[0] == fid
      requires names == [] || names[0] != ".."
      modifies this`held, this`table
      ensures fid == null ==> r == null && err == Ebaduse && unchanged(this)
      ensures fid != null ==> Ended(BlockWalk(tree, mounts, files, names, fid.path), r, tail, old(held), old(table))
      ensures fid != null && Plain(files) && AllPlain(mounts) ==>
                Ended(NameWalk(tree, mounts, files, names, fid.path), r, tail, old(held), old(table))
      ensures fid != null && Faithful(tree, mounts, files, names, fid.path) ==>
                Ended(NameWalk(tree, mounts, files, names, fid.path), r, tail, old(held), old(table))
      ensures r != null ==> fresh(r) && err == NoError
      ensures r == null && fid != null ==>
                err == match Refused(tree, mounts, files, names, fid.path)
                       case None => Enofile
                       case Some(last) => if rude(last) then NoError else Remote
    {
      if fid == null {
        return null, Ebaduse, [];
      }
      r, err, tail := WalkBlocks(fid, names, union, files);
      if Faithful(tree, mounts, files, names, fid.path) {
        FaithfulAgrees(tree, mounts, files, names, fid.path);
      }
      if Plain(files) && AllPlain(mounts) {
        BlockWalkIsNameWalk(tree, mounts, files, names, fid.path);
      }
    }

    method WalkBlocks(fid: Fid, names: seq<string>, ghost union: seq<Fid>, ghost files: seq<FileID>)
      returns (r: Fid?, err: Error, ghost tail: seq<Fid>)
      requires Kept(held, table) && Wired() && (forall id :: id in mounts ==> mounts[id] != [])
      requires Union(union, files, held, table) && union[0] == fid
      modifies this`held, this`table
      ensures Ended(BlockWalk(tree, mounts, files, names, fid.path), r, tail, old(held), old(table))
      ensures r != null ==> fresh(r) && err == NoError
      ensures r == null ==>
                err == match Refused(tree, mounts, files, names, fid.path)
                       case None => Enofile
                       case Some(last) => if rude(last) then NoError else Remote
    {
      var newfid: Fid? := FidAlloc();
      var fd, path, rest := fid, fid.path, names;
      ghost var u, fl := union, files;
      var done := false;
      while !done
        invariant Kept(old(held), old(table)) && newfid != null && fresh(newfid)
        invariant !done ==> OneMore(newfid, old(held), old(table))
        invariant !done ==> Ready(u, fl, newfid, old(held), old(table)) && u[0] == fd
        invariant !done && newfid.walked ==> rest != []
        invariant !done ==> BlockWalk(tree, mounts, fl, rest, path) == BlockWalk(tree, mounts, files, names, fid.path)
        invariant !done ==> Refused(tree, mounts, fl, rest, path) == Refused(tree, mounts, files, names, fid.path)
        invariant done ==> Ended(BlockWalk(tree, mounts, files, names, fid.path), newfid, u, old(held), old(table))
        decreases !done, |rest|, |u|
      {
        done, err, fd, newfid, rest, path, u, fl := WalkBlock(fd, newfid, rest, path, u, fl, old(held), old(table));
        if newfid == null {
          return null, err, [];
        }
      }
      r, err, tail := newfid, NoError, u;
    }
  }
}
