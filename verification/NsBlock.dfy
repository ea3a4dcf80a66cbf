/**
 Walking through a namespace with mounts (p/chan9/walk.go): what the walk comes to.  It sends up to sixteen
 names at a time and looks for mount points in what came back; the reference takes one name at a time.
 */
module NsBlock {
  import opened Common

  const BLOCK := 16

  datatype Qid = Qid(typ: byte, version: nat, path: nat)

  /** noremap is the top bit of the source's Type field. */
  datatype FileID = FileID(typ: nat, noremap: bool, dev: nat, qid: Qid)

  /** What the servers hold: the file a name leads to, if any. */
  type Tree = (FileID, string) -> Option<Qid>

  /** The unions that stand in for a file. */
  type Mounts = map<FileID, seq<FileID>>

  datatype Outcome = Missing | Reached(union: seq<FileID>, path: seq<FileID>)

  function Clear(f: FileID): FileID {
    f.(noremap := false)
  }

  /** The file qid on the server of f. */
  function At(f: FileID, qid: Qid): FileID {
    FileID(f.typ, false, f.dev, qid)
  }

  /* ---- the reference: one name at a time ---- */

  /** The file that name leads to in the first union member that has it. */
  function Look(tree: Tree, union: seq<FileID>, name: string): Option<FileID> {
    if union == [] then None
    else match tree(Clear(union[0]), name)
      case Some(q) => Some(At(union[0], q))
      case None => Look(tree, union[1..], name)
  }

  function Cross(mounts: Mounts, f: FileID): seq<FileID> {
    if f in mounts then mounts[f] else [f]
  }

  function NameWalk(tree: Tree, mounts: Mounts, union: seq<FileID>, names: seq<string>, path: seq<FileID>): (r: Outcome)
    requires union != [] && forall f :: f in mounts ==> mounts[f] != []
    ensures r.Reached? ==> |r.path| == |path| + |names| && path <= r.path && r.union != []
    decreases |names|
  {
    if names == [] then Reached([Clear(union[0])] + union[1..], path)
    else match Look(tree, union, names[0])
      case None => Missing
      case Some(f) => NameWalk(tree, mounts, Cross(mounts, f), names[1..], path + [f])
  }

  /* ---- what one Twalk does ---- */

  /** The longest part of names that a server can walk from f. */
  function Steps(tree: Tree, f: FileID, names: seq<string>): (qs: seq<Qid>)
    ensures |qs| <= |names|
    decreases |names|
  {
    if names == [] then [] else
      match tree(Clear(f), names[0])
      case None => []
      case Some(q) => [q] + Steps(tree, At(f, q), names[1..])
  }

  function Ids(f: FileID, qs: seq<Qid>): (s: seq<FileID>)
    ensures |s| == |qs|
  {
    seq(|qs|, i requires 0 <= i < |qs| => At(f, qs[i]))
  }

  /** How many files come before the first mount point.  A fid with the noremap bit finds none. */
  function Clean(mounts: Mounts, f: FileID, qs: seq<Qid>): (i: nat)
    ensures i <= |qs| && (i < |qs| ==> f.(qid := qs[i]) in mounts)
    ensures forall k :: 0 <= k < i ==> f.(qid := qs[k]) !in mounts
  {
    if qs == [] || f.(qid := qs[0]) in mounts then 0 else 1 + Clean(mounts, f, qs[1..])
  }

  datatype Turn =
    | Fail
    | Done(union: seq<FileID>, path: seq<FileID>)
    | More(union: seq<FileID>, names: seq<string>, path: seq<FileID>)

  /** What follows when the server walked qs from f: on into a mount, to the end, or to the next block. */
  function Go(mounts: Mounts, f: FileID, names: seq<string>, path: seq<FileID>, n: nat, qs: seq<Qid>): (t: Turn)
    requires 0 < |qs| <= n <= |names| && forall f :: f in mounts ==> mounts[f] != []
    ensures t.More? ==> t.union != [] && |t.names| < |names|
    ensures !t.Fail? ==> path <= t.path
  {
    var i := Clean(mounts, f, qs);
    if i < |qs| then More(mounts[f.(qid := qs[i])], names[i + 1..], path + Ids(f, qs[..i + 1]))
    else if |qs| < n then Fail
    else if n == |names| then Done([At(f, qs[n - 1])], path + Ids(f, qs))
    else More([At(f, qs[n - 1])], names[n..], path + Ids(f, qs))
  }

  /** One block: a union member is chosen by the first name of the block only. */
  function Block(tree: Tree, mounts: Mounts, union: seq<FileID>, names: seq<string>, path: seq<FileID>): (t: Turn)
    requires union != [] && forall f :: f in mounts ==> mounts[f] != []
    ensures t.More? ==> t.union != [] && (|t.names| < |names| || (t.names == names && |t.union| < |union|))
    ensures !t.Fail? ==> path <= t.path
  {
    var f, n := union[0], Min(|names|, BLOCK);
    var qs := Steps(tree, f, names[..n]);
    if n == 0 then Done([Clear(f)] + union[1..], path)
    else if qs == [] then if |union| > 1 then More(union[1..], names, path) else Fail
    else Go(mounts, f, names, path, n, qs)
  }

  /** The walk in blocks. */
  function BlockWalk(tree: Tree, mounts: Mounts, union: seq<FileID>, names: seq<string>,
                     path: seq<FileID>): (r: Outcome)
    requires union != [] && forall f :: f in mounts ==> mounts[f] != []
    ensures r.Reached? ==> path <= r.path
    decreases |names|, |union|
  {
    match Block(tree, mounts, union, names, path)
    case Fail => Missing
    case Done(to, p) => Reached(to, p)
    case More(u, ns, p) => BlockWalk(tree, mounts, u, ns, p)
  }

  /* ---- one name ---- */

  /** What a walk makes of a union when no names are left. */
  function Whole(u: seq<FileID>): seq<FileID>
    requires u != []
  {
    [Clear(u[0])] + u[1..]
  }

  /** Two unions that names cannot tell apart: the first name leads from both to the same file. */
  ghost predicate Same(tree: Tree, u: seq<FileID>, v: seq<FileID>, names: seq<string>)
    requires u != [] && v != []
  {
    if names == [] then Whole(u) == Whole(v) else Look(tree, u, names[0]) == Look(tree, v, names[0])
  }

  lemma SameWalk(tree: Tree, mounts: Mounts, u: seq<FileID>, v: seq<FileID>, names: seq<string>, path: seq<FileID>)
    requires u != [] && v != [] && forall g :: g in mounts ==> mounts[g] != []
    requires Same(tree, u, v, names)
    ensures NameWalk(tree, mounts, u, names, path) == NameWalk(tree, mounts, v, names, path)
  {
  }

  lemma NoSuchName(tree: Tree, mounts: Mounts, f: FileID, names: seq<string>, path: seq<FileID>)
    requires names != [] && forall g :: g in mounts ==> mounts[g] != []
    requires tree(Clear(f), names[0]).None?
    ensures NameWalk(tree, mounts, [f], names, path) == Missing
  {
    assert Look(tree, [f][1..], names[0]).None?;
  }

  lemma OneName(tree: Tree, mounts: Mounts, f: FileID, g: FileID, names: seq<string>, path: seq<FileID>)
    requires names != [] && forall g :: g in mounts ==> mounts[g] != []
    requires tree(Clear(f), names[0]) == Some(g.qid) && g == At(f, g.qid)
    ensures NameWalk(tree, mounts, [f], names, path) == NameWalk(tree, mounts, Cross(mounts, g), names[1..], path + [g])
  {
    assert Look(tree, [f], names[0]) == Some(g);
  }

  /** A walk that ended in r went on from u, with names left: it found the first of them there. */
  ghost predicate Onward(tree: Tree, r: Outcome, u: seq<FileID>, names: seq<string>, path: seq<FileID>)
    requires r.Reached? && u != []
  {
    if names == [] then r.union == Whole(u)
    else |r.path| > |path| && Look(tree, u, names[0]) == Some(r.path[|path|])
  }

  /** What the reference finds first. */
  lemma NameHead(tree: Tree, mounts: Mounts, u: seq<FileID>, names: seq<string>, path: seq<FileID>)
    requires u != [] && forall g :: g in mounts ==> mounts[g] != []
    requires NameWalk(tree, mounts, u, names, path).Reached?
    ensures Onward(tree, NameWalk(tree, mounts, u, names, path), u, names, path)
  {
    if names != [] {
      var f := Look(tree, u, names[0]).value;
      assert (path + [f])[|path|] == f;
    }
  }

  /** What a walk in blocks finds first. */
  lemma {:induction false} BlockHead(tree: Tree, mounts: Mounts, u: seq<FileID>, names: seq<string>, path: seq<FileID>)
    requires u != [] && forall g :: g in mounts ==> mounts[g] != []
    requires BlockWalk(tree, mounts, u, names, path).Reached?
    ensures Onward(tree, BlockWalk(tree, mounts, u, names, path), u, names, path)
    decreases |u|
  {
    if names != [] {
      var f, n := u[0], Min(|names|, BLOCK);
      assert names[..n][0] == names[0];
      var qs := Steps(tree, f, names[..n]);
      if qs == [] {
        BlockHead(tree, mounts, u[1..], names, path);
      } else {
        TurnPath(tree, mounts, u, names, path, 0);
      }
    }
  }

  /* ---- one block ---- */

  /** Each file of a walk is found from the one before; the walk ends where a name is not found. */
  lemma {:induction false} StepsAt(tree: Tree, f: FileID, names: seq<string>, j: nat)
    requires j <= |Steps(tree, f, names)| && j < |names|
    ensures var qs := Steps(tree, f, names);
            tree(Clear(Here(f, qs, j)), names[j]) == if j < |qs| then Some(qs[j]) else None
    decreases j
  {
    if j > 0 {
      var qs := Steps(tree, f, names);
      StepsAt(tree, At(f, qs[0]), names[1..], j - 1);
    }
  }

  /** The file reached after j names. */
  function Here(f: FileID, qs: seq<Qid>, j: nat): FileID
    requires j <= |qs|
  {
    if j == 0 then f else At(f, qs[j - 1])
  }

  /** Where the block goes on after a file, by the mount table as the block asks it. */
  function Onto(mounts: Mounts, f: FileID, q: Qid): seq<FileID> {
    if f.(qid := q) in mounts then mounts[f.(qid := q)] else [At(f, q)]
  }

  /** How many files a block passes: up to the mount point it crosses. */
  function Passed(mounts: Mounts, f: FileID, qs: seq<Qid>): (k: nat)
    ensures k <= |qs| && (qs != [] ==> k > 0)
    ensures forall j :: 0 <= j < k - 1 ==> Onto(mounts, f, qs[j]) == [At(f, qs[j])]
  {
    Min(|qs|, Clean(mounts, f, qs) + 1)
  }

  /** After file j of a block, the reference is at a union from which the next name leads to the same file. */
  ghost predicate PassOk(tree: Tree, mounts: Mounts, f: FileID, names: seq<string>, qs: seq<Qid>, j: nat)
    requires j < |qs| <= |names| && forall g :: g in mounts ==> mounts[g] != []
  {
    Same(tree, Cross(mounts, At(f, qs[j])), Onto(mounts, f, qs[j]), names[j + 1..])
  }

  ghost predicate TurnOk(tree: Tree, mounts: Mounts, f: FileID, names: seq<string>, qs: seq<Qid>)
    requires |qs| <= |names| && forall g :: g in mounts ==> mounts[g] != []
  {
    forall j :: 0 <= j < Passed(mounts, f, qs) ==> PassOk(tree, mounts, f, names, qs, j)
  }

  /** The union a block is at after j files. */
  function After(mounts: Mounts, f: FileID, qs: seq<Qid>, j: nat): (u: seq<FileID>)
    requires j <= |qs| && forall g :: g in mounts ==> mounts[g] != []
    ensures u != []
  {
    if j == 0 then [f] else Onto(mounts, f, qs[j - 1])
  }

  /** The reference takes one name from where a block is. */
  lemma RefStep(tree: Tree, mounts: Mounts, f: FileID, names: seq<string>, n: nat, path: seq<FileID>, qs: seq<Qid>,
                j: nat)
    requires n <= |names| && qs == Steps(tree, f, names[..n]) && j < Passed(mounts, f, qs)
    requires forall g :: g in mounts ==> mounts[g] != []
    ensures NameWalk(tree, mounts, After(mounts, f, qs, j), names[j..], path + Ids(f, qs[..j])) ==
            NameWalk(tree, mounts, Cross(mounts, At(f, qs[j])), names[j + 1..], path + Ids(f, qs[..j + 1]))
  {
    StepsAt(tree, f, names[..n], j);
    OneName(tree, mounts, Here(f, qs, j), At(f, qs[j]), names[j..], path + Ids(f, qs[..j]));
    assert names[j..][1..] == names[j + 1..];
    assert path + Ids(f, qs[..j]) + [At(f, qs[j])] == path + Ids(f, qs[..j + 1]);
  }

  /** The reference follows a block as long as each file is passed well. */
  lemma {:induction false} Along(tree: Tree, mounts: Mounts, f: FileID, names: seq<string>, n: nat, path: seq<FileID>,
                                 qs: seq<Qid>, j: nat)
    requires n <= |names| && qs == Steps(tree, f, names[..n]) && j <= Passed(mounts, f, qs)
    requires forall g :: g in mounts ==> mounts[g] != []
    requires forall k :: 0 <= k < j ==> PassOk(tree, mounts, f, names, qs, k)
    ensures NameWalk(tree, mounts, [f], names, path) ==
            NameWalk(tree, mounts, After(mounts, f, qs, j), names[j..], path + Ids(f, qs[..j]))
    decreases j
  {
    if j == 0 {
      assert path + Ids(f, qs[..0]) == path && names[0..] == names;
    } else {
      Along(tree, mounts, f, names, n, path, qs, j - 1);
      RefStep(tree, mounts, f, names, n, path, qs, j - 1);
      assert PassOk(tree, mounts, f, names, qs, j - 1);
      SameWalk(tree, mounts, Cross(mounts, At(f, qs[j - 1])), Onto(mounts, f, qs[j - 1]), names[j..],
               path + Ids(f, qs[..j]));
    }
  }

  /** A union matters only as its first member that has the name. */
  lemma FirstMember(tree: Tree, mounts: Mounts, union: seq<FileID>, names: seq<string>, path: seq<FileID>)
    requires union != [] && names != [] && forall g :: g in mounts ==> mounts[g] != []
    ensures tree(Clear(union[0]), names[0]).Some? ==>
              NameWalk(tree, mounts, union, names, path) == NameWalk(tree, mounts, [union[0]], names, path)
    ensures tree(Clear(union[0]), names[0]).None? ==>
              NameWalk(tree, mounts, union, names, path) ==
              if |union| == 1 then Missing else NameWalk(tree, mounts, union[1..], names, path)
  {
    if tree(Clear(union[0]), names[0]).Some? {
      assert Look(tree, union, names[0]) == Look(tree, [union[0]], names[0]);
    } else {
      assert Look(tree, union, names[0]) == Look(tree, union[1..], names[0]);
    }
  }

  /** What is left to do after a turn, left to the reference. */
  function ByNames(tree: Tree, mounts: Mounts, t: Turn): Outcome
    requires (t.More? ==> t.union != []) && forall f :: f in mounts ==> mounts[f] != []
  {
    match t
    case Fail => Missing
    case Done(u, p) => Reached(u, p)
    case More(u, ns, p) => NameWalk(tree, mounts, u, ns, p)
  }

  /** What a block comes to, by what it passed. */
  lemma GoShape(mounts: Mounts, f: FileID, names: seq<string>, path: seq<FileID>, n: nat, qs: seq<Qid>, k: nat)
    requires 0 < |qs| <= n == Min(|names|, BLOCK) && k == Passed(mounts, f, qs)
    requires forall f :: f in mounts ==> mounts[f] != []
    ensures var p := path + Ids(f, qs[..k]);
            Go(mounts, f, names, path, n, qs) ==
            if Clean(mounts, f, qs) == |qs| < n then Fail
            else if Clean(mounts, f, qs) == |qs| == |names| then Done(Onto(mounts, f, qs[k - 1]), p)
            else More(Onto(mounts, f, qs[k - 1]), names[k..], p)
  {
    assert qs[..|qs|] == qs;
  }

  lemma BlockGoes(tree: Tree, mounts: Mounts, union: seq<FileID>, names: seq<string>, path: seq<FileID>, n: nat,
                  qs: seq<Qid>)
    requires union != [] && names != [] && forall f :: f in mounts ==> mounts[f] != []
    requires n == Min(|names|, BLOCK) && qs == Steps(tree, union[0], names[..n]) != []
    ensures Block(tree, mounts, union, names, path) == Go(mounts, union[0], names, path, n, qs)
  {
  }

  /** The reference fails where the block found nothing. */
  lemma EndsThere(tree: Tree, mounts: Mounts, f: FileID, names: seq<string>, n: nat, qs: seq<Qid>, path: seq<FileID>)
    requires n <= |names| && qs == Steps(tree, f, names[..n]) && 0 < |qs| < n
    requires forall g :: g in mounts ==> mounts[g] != []
    ensures NameWalk(tree, mounts, [At(f, qs[|qs| - 1])], names[|qs|..], path) == Missing
  {
    StepsAt(tree, f, names[..n], |qs|);
    NoSuchName(tree, mounts, At(f, qs[|qs| - 1]), names[|qs|..], path);
  }

  /** A block that passes its files well takes the reference along. */
  lemma TurnAlong(tree: Tree, mounts: Mounts, union: seq<FileID>, names: seq<string>, path: seq<FileID>, n: nat,
                  qs: seq<Qid>)
    requires union != [] && names != [] && forall f :: f in mounts ==> mounts[f] != []
    requires n == Min(|names|, BLOCK) && qs == Steps(tree, union[0], names[..n]) != []
    requires TurnOk(tree, mounts, union[0], names, qs)
    ensures NameWalk(tree, mounts, [union[0]], names, path) ==
            ByNames(tree, mounts, Block(tree, mounts, union, names, path))
  {
    var f, k := union[0], Passed(mounts, union[0], qs);
    Along(tree, mounts, f, names, n, path, qs, k);
    BlockGoes(tree, mounts, union, names, path, n, qs);
    GoShape(mounts, f, names, path, n, qs, k);
    if Clean(mounts, f, qs) == |qs| < n {
      EndsThere(tree, mounts, f, names, n, qs, path + Ids(f, qs[..k]));
    }
  }

  /** One turn of the block walk takes the reference along. */
  lemma OneTurn(tree: Tree, mounts: Mounts, union: seq<FileID>, names: seq<string>, path: seq<FileID>)
    requires union != [] && forall f :: f in mounts ==> mounts[f] != []
    requires names != [] ==>
               TurnOk(tree, mounts, union[0], names, Steps(tree, union[0], names[..Min(|names|, BLOCK)]))
    ensures NameWalk(tree, mounts, union, names, path) == ByNames(tree, mounts, Block(tree, mounts, union, names, path))
  {
    if names != [] {
      var n := Min(|names|, BLOCK);
      FirstMember(tree, mounts, union, names, path);
      assert names[..n][0] == names[0];
      var qs := Steps(tree, union[0], names[..n]);
      if qs != [] {
        TurnAlong(tree, mounts, union, names, path, n, qs);
      }
    }
  }

  /* ---- the two walks agree, and exactly when ---- */

  /** At each mount point, or file with the noremap bit, that the walk in blocks passes, it passes it well. */
  ghost predicate Faithful(tree: Tree, mounts: Mounts, union: seq<FileID>, names: seq<string>, path: seq<FileID>)
    requires union != [] && forall f :: f in mounts ==> mounts[f] != []
    decreases |names|, |union|
  {
    names == [] ||
    (&& TurnOk(tree, mounts, union[0], names, Steps(tree, union[0], names[..Min(|names|, BLOCK)]))
     && match Block(tree, mounts, union, names, path)
        case More(u, ns, p) => Faithful(tree, mounts, u, ns, p)
        case _ => true)
  }

  lemma {:induction false} FaithfulAgrees(tree: Tree, mounts: Mounts, union: seq<FileID>, names: seq<string>,
                                          path: seq<FileID>)
    requires union != [] && forall f :: f in mounts ==> mounts[f] != []
    requires Faithful(tree, mounts, union, names, path)
    ensures BlockWalk(tree, mounts, union, names, path) == NameWalk(tree, mounts, union, names, path)
    decreases |names|, |union|
  {
    OneTurn(tree, mounts, union, names, path);
    match Block(tree, mounts, union, names, path) {
      case More(u, ns, p) => if names != [] { FaithfulAgrees(tree, mounts, u, ns, p); }
      case Fail =>
      case Done(u, p) =>
    }
  }

  /** The files a turn passes are on the path in the end. */
  lemma TurnPath(tree: Tree, mounts: Mounts, union: seq<FileID>, names: seq<string>, path: seq<FileID>, j: nat)
    requires union != [] && names != [] && forall f :: f in mounts ==> mounts[f] != []
    requires var qs := Steps(tree, union[0], names[..Min(|names|, BLOCK)]); qs != [] && j < Passed(mounts, union[0], qs)
    requires BlockWalk(tree, mounts, union, names, path).Reached?
    ensures var r := BlockWalk(tree, mounts, union, names, path);
            && |path| + j < |r.path|
            && r.path[|path| + j] == At(union[0], Steps(tree, union[0], names[..Min(|names|, BLOCK)])[j])
  {
    var f := union[0];
    var qs := Steps(tree, f, names[..Min(|names|, BLOCK)]);
    var k := Passed(mounts, f, qs);
    var p := path + Ids(f, qs[..k]);
    BlockGoes(tree, mounts, union, names, path, Min(|names|, BLOCK), qs);
    GoShape(mounts, f, names, path, Min(|names|, BLOCK), qs, k);
    assert p[|path| + j] == At(f, qs[j]);
  }

  lemma Unfold(tree: Tree, mounts: Mounts, union: seq<FileID>, names: seq<string>, path: seq<FileID>, t: Turn)
    requires union != [] && forall f :: f in mounts ==> mounts[f] != []
    requires t == Block(tree, mounts, union, names, path)
    ensures t.More? ==> t.union != []
    ensures BlockWalk(tree, mounts, union, names, path) ==
            match t
            case Fail => Missing
            case Done(u, p) => Reached(u, p)
            case More(u, ns, p) => BlockWalk(tree, mounts, u, ns, p)
  {
  }

  /** What the walk in blocks does after the last file of a turn. */
  lemma BlockNextTurn(tree: Tree, mounts: Mounts, union: seq<FileID>, names: seq<string>, path: seq<FileID>, n: nat,
                      qs: seq<Qid>, k: nat)
    requires union != [] && names != [] && forall f :: f in mounts ==> mounts[f] != []
    requires n == Min(|names|, BLOCK) && qs == Steps(tree, union[0], names[..n]) != []
    requires k == Passed(mounts, union[0], qs)
    requires BlockWalk(tree, mounts, union, names, path).Reached?
    ensures Onward(tree, BlockWalk(tree, mounts, union, names, path), Onto(mounts, union[0], qs[k - 1]), names[k..],
                   path + Ids(union[0], qs[..k]))
  {
    var t := Block(tree, mounts, union, names, path);
    BlockGoes(tree, mounts, union, names, path, n, qs);
    GoShape(mounts, union[0], names, path, n, qs, k);
    Unfold(tree, mounts, union, names, path, t);
    if t.More? { BlockHead(tree, mounts, t.union, t.names, t.path); }
  }

  /** What the walk in blocks does after a file of a turn that is not the last. */
  lemma BlockNextFile(tree: Tree, mounts: Mounts, union: seq<FileID>, names: seq<string>, path: seq<FileID>,
                      qs: seq<Qid>, j: nat)
    requires union != [] && names != [] && forall f :: f in mounts ==> mounts[f] != []
    requires qs == Steps(tree, union[0], names[..Min(|names|, BLOCK)]) && j + 1 < Passed(mounts, union[0], qs)
    requires BlockWalk(tree, mounts, union, names, path).Reached?
    ensures Onward(tree, BlockWalk(tree, mounts, union, names, path), Onto(mounts, union[0], qs[j]), names[j + 1..],
                   path + Ids(union[0], qs[..j + 1]))
  {
    TurnPath(tree, mounts, union, names, path, j + 1);
    StepsAt(tree, union[0], names[..Min(|names|, BLOCK)], j + 1);
    LookOne(tree, At(union[0], qs[j]), names[j + 1]);
  }

  /** What the walk in blocks does after file j of a turn. */
  lemma BlockNext(tree: Tree, mounts: Mounts, union: seq<FileID>, names: seq<string>, path: seq<FileID>, qs: seq<Qid>,
                  j: nat)
    requires union != [] && names != [] && forall f :: f in mounts ==> mounts[f] != []
    requires qs == Steps(tree, union[0], names[..Min(|names|, BLOCK)]) && j < Passed(mounts, union[0], qs)
    requires BlockWalk(tree, mounts, union, names, path).Reached?
    ensures Onward(tree, BlockWalk(tree, mounts, union, names, path), Onto(mounts, union[0], qs[j]), names[j + 1..],
                   path + Ids(union[0], qs[..j + 1]))
  {
    if j + 1 < Passed(mounts, union[0], qs) {
      BlockNextFile(tree, mounts, union, names, path, qs, j);
    } else {
      BlockNextTurn(tree, mounts, union, names, path, Min(|names|, BLOCK), qs, j + 1);
    }
  }

  lemma LookOne(tree: Tree, f: FileID, name: string)
    ensures Look(tree, [f], name) == match tree(Clear(f), name) case Some(q) => Some(At(f, q)) case None => None
  {
    assert Look(tree, [f][1..], name).None?;
  }

  /** If the walks end alike, the turn passed file j well, given that it did so before. */
  lemma PassedWell(tree: Tree, mounts: Mounts, union: seq<FileID>, names: seq<string>, path: seq<FileID>, qs: seq<Qid>,
                   j: nat)
    requires union != [] && names != [] && forall f :: f in mounts ==> mounts[f] != []
    requires qs == Steps(tree, union[0], names[..Min(|names|, BLOCK)]) && j < Passed(mounts, union[0], qs)
    requires forall k :: 0 <= k < j ==> PassOk(tree, mounts, union[0], names, qs, k)
    requires BlockWalk(tree, mounts, union, names, path).Reached?
    requires NameWalk(tree, mounts, [union[0]], names, path) == BlockWalk(tree, mounts, union, names, path)
    ensures PassOk(tree, mounts, union[0], names, qs, j)
  {
    var f, n := union[0], Min(|names|, BLOCK);
    Along(tree, mounts, f, names, n, path, qs, j);
    RefStep(tree, mounts, f, names, n, path, qs, j);
    NameHead(tree, mounts, Cross(mounts, At(f, qs[j])), names[j + 1..], path + Ids(f, qs[..j + 1]));
    BlockNext(tree, mounts, union, names, path, qs, j);
  }

  lemma {:induction false} TurnPassedWell(tree: Tree, mounts: Mounts, union: seq<FileID>, names: seq<string>,
                                          path: seq<FileID>, qs: seq<Qid>, j: nat)
    requires union != [] && names != [] && forall f :: f in mounts ==> mounts[f] != []
    requires qs == Steps(tree, union[0], names[..Min(|names|, BLOCK)]) && j <= Passed(mounts, union[0], qs)
    requires BlockWalk(tree, mounts, union, names, path).Reached?
    requires NameWalk(tree, mounts, [union[0]], names, path) == BlockWalk(tree, mounts, union, names, path)
    ensures forall k :: 0 <= k < j ==> PassOk(tree, mounts, union[0], names, qs, k)
    decreases j
  {
    if j > 0 {
      TurnPassedWell(tree, mounts, union, names, path, qs, j - 1);
      PassedWell(tree, mounts, union, names, path, qs, j - 1);
    }
  }

  lemma {:induction false} AgreeingIsFaithful(tree: Tree, mounts: Mounts, union: seq<FileID>, names: seq<string>,
                                              path: seq<FileID>)
    requires union != [] && forall f :: f in mounts ==> mounts[f] != []
    requires BlockWalk(tree, mounts, union, names, path).Reached?
    requires NameWalk(tree, mounts, union, names, path) == BlockWalk(tree, mounts, union, names, path)
    ensures Faithful(tree, mounts, union, names, path)
    decreases |names|, |union|
  {
    if names != [] {
      var f, n := union[0], Min(|names|, BLOCK);
      assert names[..n][0] == names[0];
      var qs := Steps(tree, f, names[..n]);
      FirstMember(tree, mounts, union, names, path);
      if qs != [] { TurnPassedWell(tree, mounts, union, names, path, qs, Passed(mounts, f, qs)); }
      OneTurn(tree, mounts, union, names, path);
      match Block(tree, mounts, union, names, path) {
        case More(u, ns, p) => AgreeingIsFaithful(tree, mounts, u, ns, p);
        case Fail =>
        case Done(u, p) =>
      }
    }
  }

  /**
   For every namespace, with noremap fids or without: the two walks come to the same if and only if the walk
   in blocks passes every file well, or both fail.
   */
  lemma WalksAgree(tree: Tree, mounts: Mounts, union: seq<FileID>, names: seq<string>, path: seq<FileID>)
    requires union != [] && forall f :: f in mounts ==> mounts[f] != []
    ensures BlockWalk(tree, mounts, union, names, path) == NameWalk(tree, mounts, union, names, path) <==>
            || Faithful(tree, mounts, union, names, path)
            || (BlockWalk(tree, mounts, union, names, path).Missing? &&
                NameWalk(tree, mounts, union, names, path).Missing?)
  {
    if Faithful(tree, mounts, union, names, path) {
      FaithfulAgrees(tree, mounts, union, names, path);
    } else if BlockWalk(tree, mounts, union, names, path).Reached?
              && BlockWalk(tree, mounts, union, names, path) == NameWalk(tree, mounts, union, names, path) {
      AgreeingIsFaithful(tree, mounts, union, names, path);
    }
  }

  /* ---- what a caller can look up ---- */

  /** Nothing is mounted on the file but the file itself. */
  ghost predicate Bare(mounts: Mounts, g: FileID) {
    g in mounts ==> mounts[g] == [g]
  }

  /** The member has no noremap bit, or its block meets no mounts, or only files mounted on themselves. */
  ghost predicate BareTurn(mounts: Mounts, f: FileID, qs: seq<Qid>) {
    f.noremap ==>
      && Clean(mounts, f, qs) == |qs|
      && (Clean(mounts, Clear(f), qs) == |qs| || forall j :: 0 <= j < |qs| ==> Bare(mounts, At(f, qs[j])))
  }

  /** Then it passes its files well. */
  lemma BarePassesWell(tree: Tree, mounts: Mounts, f: FileID, names: seq<string>, qs: seq<Qid>)
    requires |qs| <= |names| && (forall g :: g in mounts ==> mounts[g] != []) && BareTurn(mounts, f, qs)
    ensures TurnOk(tree, mounts, f, names, qs)
  {
    forall j | 0 <= j < Passed(mounts, f, qs) ensures PassOk(tree, mounts, f, names, qs, j) {
      assert Clear(f).(qid := qs[j]) == At(f, qs[j]);
      if f.noremap { assert Bare(mounts, At(f, qs[j])); } else { assert f.(qid := qs[j]) == At(f, qs[j]); }
    }
  }

  ghost predicate BareTurns(tree: Tree, mounts: Mounts, union: seq<FileID>, names: seq<string>, path: seq<FileID>)
    requires union != [] && forall f :: f in mounts ==> mounts[f] != []
    decreases |names|, |union|
  {
    names == [] ||
    (&& BareTurn(mounts, union[0], Steps(tree, union[0], names[..Min(|names|, BLOCK)]))
     && match Block(tree, mounts, union, names, path)
        case More(u, ns, p) => BareTurns(tree, mounts, u, ns, p)
        case _ => true)
  }

  lemma {:induction false} BareIsFaithful(tree: Tree, mounts: Mounts, union: seq<FileID>, names: seq<string>,
                                          path: seq<FileID>)
    requires union != [] && (forall f :: f in mounts ==> mounts[f] != []) && BareTurns(tree, mounts, union, names, path)
    ensures Faithful(tree, mounts, union, names, path)
    decreases |names|, |union|
  {
    if names != [] {
      BarePassesWell(tree, mounts, union[0], names, Steps(tree, union[0], names[..Min(|names|, BLOCK)]));
      match Block(tree, mounts, union, names, path) {
        case More(u, ns, p) => BareIsFaithful(tree, mounts, u, ns, p);
        case Fail =>
        case Done(u, p) =>
      }
    }
  }

  /** With noremap members in any unions: if each turn is such a one, the two walks come to the same. */
  lemma BareWalksAgree(tree: Tree, mounts: Mounts, union: seq<FileID>, names: seq<string>, path: seq<FileID>)
    requires union != [] && (forall f :: f in mounts ==> mounts[f] != []) && BareTurns(tree, mounts, union, names, path)
    ensures BlockWalk(tree, mounts, union, names, path) == NameWalk(tree, mounts, union, names, path)
  {
    BareIsFaithful(tree, mounts, union, names, path);
    FaithfulAgrees(tree, mounts, union, names, path);
  }

  /** The union lies on other devices than g. */
  ghost predicate Elsewhere(g: FileID, u: seq<FileID>) {
    forall k :: 0 <= k < |u| ==> u[k].typ != g.typ || u[k].dev != g.dev
  }

  lemma {:induction false} LookElsewhere(tree: Tree, g: FileID, u: seq<FileID>, name: string)
    requires Elsewhere(g, u)
    ensures Look(tree, u, name).Some? ==>
              Look(tree, u, name).value.typ != g.typ || Look(tree, u, name).value.dev != g.dev
  {
    if u != [] { LookElsewhere(tree, g, u[1..], name); }
  }

  /** But a mount of another device that a noremap member passes by is not passed well, unless the walk ends there. */
  lemma OtherDevice(tree: Tree, mounts: Mounts, f: FileID, names: seq<string>, qs: seq<Qid>, j: nat)
    requires j < |qs| <= |names| && forall g :: g in mounts ==> mounts[g] != []
    requires f.(qid := qs[j]) !in mounts && At(f, qs[j]) in mounts && Elsewhere(At(f, qs[j]), mounts[At(f, qs[j])])
    requires j + 1 < |names| ==> tree(At(f, qs[j]), names[j + 1]).Some?
    ensures !PassOk(tree, mounts, f, names, qs, j)
  {
    var g := At(f, qs[j]);
    if j + 1 < |names| {
      LookElsewhere(tree, g, mounts[g], names[j + 1]);
      assert Look(tree, [g], names[j + 1]).Some?;
    } else {
      assert Whole(mounts[g])[0] != Whole([g])[0];
    }
  }

  /** So where a block passes such a mount by and reaches a file, the reference fails or reaches another. */
  lemma MountPassedBy(tree: Tree, mounts: Mounts, union: seq<FileID>, names: seq<string>, path: seq<FileID>,
                      qs: seq<Qid>, j: nat)
    requires union != [] && names != [] && forall g :: g in mounts ==> mounts[g] != []
    requires qs == Steps(tree, union[0], names[..Min(|names|, BLOCK)]) && j < Passed(mounts, union[0], qs)
    requires var g := At(union[0], qs[j]); union[0].(qid := qs[j]) !in mounts && g in mounts && Elsewhere(g, mounts[g])
    requires BlockWalk(tree, mounts, union, names, path).Reached?
    ensures NameWalk(tree, mounts, union, names, path) != BlockWalk(tree, mounts, union, names, path)
  {
    if NameWalk(tree, mounts, union, names, path) == BlockWalk(tree, mounts, union, names, path) {
      AgreeingIsFaithful(tree, mounts, union, names, path);
      assert PassOk(tree, mounts, union[0], names, qs, j);
      BlockNext(tree, mounts, union, names, path, qs, j);
      if j + 1 < |names| { LookOne(tree, At(union[0], qs[j]), names[j + 1]); }
      OtherDevice(tree, mounts, union[0], names, qs, j);
    }
  }

  ghost predicate Plain(union: seq<FileID>) {
    forall k :: 0 <= k < |union| ==> !union[k].noremap
  }

  ghost predicate AllPlain(mounts: Mounts) {
    forall f :: f in mounts ==> Plain(mounts[f])
  }

  /** Without noremap fids every turn is such a one. */
  lemma {:induction false} PlainTurns(tree: Tree, mounts: Mounts, union: seq<FileID>, names: seq<string>,
                                      path: seq<FileID>)
    requires union != [] && forall f :: f in mounts ==> mounts[f] != []
    requires Plain(union) && AllPlain(mounts)
    ensures BareTurns(tree, mounts, union, names, path)
    decreases |names|, |union|
  {
    if names != [] {
      match Block(tree, mounts, union, names, path) {
        case More(u, ns, p) => PlainTurns(tree, mounts, u, ns, p);
        case Fail =>
        case Done(u, p) =>
      }
    }
  }

  /** In a namespace without noremap fids the block walk is the name-by-name walk. */
  lemma BlockWalkIsNameWalk(tree: Tree, mounts: Mounts, union: seq<FileID>, names: seq<string>, path: seq<FileID>)
    requires union != [] && forall f :: f in mounts ==> mounts[f] != []
    requires Plain(union) && AllPlain(mounts)
    ensures BlockWalk(tree, mounts, union, names, path) == NameWalk(tree, mounts, union, names, path)
  {
    PlainTurns(tree, mounts, union, names, path);
    BareWalksAgree(tree, mounts, union, names, path);
  }

  /** Sixteen names go at a time: of more, the rest is left for the next block. */
  lemma SixteenAtATime(tree: Tree, f: FileID, names: seq<string>, path: seq<FileID>)
    requires |names| > 16 && |Steps(tree, f, names[..16])| == 16
    ensures var qs := Steps(tree, f, names[..16]);
            Block(tree, map[], [f], names, path) == More([At(f, qs[15])], names[16..], path + Ids(f, qs))
  {
  }

  /** A block from a noremap member crosses no mount point, if the table is asked for no noremap id. */
  lemma NoremapCrossesNothing(tree: Tree, mounts: Mounts, union: seq<FileID>, names: seq<string>, path: seq<FileID>)
    requires union != [] && union[0].noremap && names != [] && forall g :: g in mounts ==> mounts[g] != [] && !g.noremap
    requires Steps(tree, union[0], names[..Min(|names|, BLOCK)]) != []
    ensures var n := Min(|names|, BLOCK);
            var qs := Steps(tree, union[0], names[..n]);
            Block(tree, mounts, union, names, path) ==
            if |qs| < n then Fail
            else if n == |names| then Done([At(union[0], qs[n - 1])], path + Ids(union[0], qs))
            else More([At(union[0], qs[n - 1])], names[n..], path + Ids(union[0], qs))
  {
    var qs := Steps(tree, union[0], names[..Min(|names|, BLOCK)]);
    assert Clean(mounts, union[0], qs) == |qs|;
  }

  /** So the walks differ: of two names, the second leads to a mount point that only the reference crosses. */
  lemma NoremapWalksDiffer(f: FileID, to: FileID)
    requires f.noremap && f.qid.path == 0 && to.dev != f.dev
    ensures var tree: Tree := (g: FileID, name: string) => Some(g.qid.(path := g.qid.path + 1));
            var on := At(f, f.qid.(path := 2));
            var mounts: Mounts := map[on := [to]];
            && BlockWalk(tree, mounts, [f], ["a", "b"], []).Reached?
            && NameWalk(tree, mounts, [f], ["a", "b"], []).Reached?
            && BlockWalk(tree, mounts, [f], ["a", "b"], []).union == [on]
            && NameWalk(tree, mounts, [f], ["a", "b"], []).union == [Clear(to)]
  {
    var tree: Tree := (g: FileID, name: string) => Some(g.qid.(path := g.qid.path + 1));
    var a, on := At(f, f.qid.(path := 1)), At(f, f.qid.(path := 2));
    var mounts: Mounts := map[on := [to]];
    assert Steps(tree, on, []) == [];
    assert Steps(tree, a, ["b"]) == [on.qid] by { assert ["b"][1..] == []; }
    assert Steps(tree, f, ["a", "b"]) == [a.qid, on.qid] by { assert ["a", "b"][1..] == ["b"]; }
    assert ["a", "b"][..2] == ["a", "b"];
    NoremapCrossesNothing(tree, mounts, [f], ["a", "b"], []);
    OneName(tree, mounts, f, a, ["a", "b"], []);
    assert ["a", "b"][1..] == ["b"] && ["b"][1..] == [] && Cross(mounts, a) == [a];
    OneName(tree, mounts, a, on, ["b"], [a]);
    assert Cross(mounts, on) == [to];
  }

  /* ---- why a walk failed ---- */

  /** The union member tried last, if the walk failed because the server did not have the first name there. */
  function Refused(tree: Tree, mounts: Mounts, union: seq<FileID>, names: seq<string>,
                   path: seq<FileID>): (r: Option<FileID>)
    requires union != [] && forall f :: f in mounts ==> mounts[f] != []
    decreases |names|, |union|
  {
    match Block(tree, mounts, union, names, path)
    case Fail => if Steps(tree, union[0], names[..Min(|names|, BLOCK)]) == [] then Some(union[0]) else None
    case Done(_, _) => None
    case More(u, ns, p) => Refused(tree, mounts, u, ns, p)
  }

  /** It is the last of a union, and has not the name that is looked for there. */
  lemma {:induction false} RefusedHasNot(tree: Tree, mounts: Mounts, union: seq<FileID>, names: seq<string>,
                                         path: seq<FileID>)
    returns (last: seq<FileID>, rest: seq<string>)
    requires union != [] && forall f :: f in mounts ==> mounts[f] != []
    requires Refused(tree, mounts, union, names, path).Some?
    ensures BlockWalk(tree, mounts, union, names, path) == Missing
    ensures last == [Refused(tree, mounts, union, names, path).value] && rest != []
    ensures |rest| <= |names| && rest == names[|names| - |rest|..] && tree(Clear(last[0]), rest[0]).None?
    decreases |names|, |union|
  {
    match Block(tree, mounts, union, names, path) {
      case More(u, ns, p) => last, rest := RefusedHasNot(tree, mounts, u, ns, p);
      case Fail =>
        last, rest := [union[0]], names;
        assert names[..Min(|names|, BLOCK)][0] == names[0];
    }
  }

  /** A walk of one name from a single file that has it not. */
  lemma RefusedAtOnce(tree: Tree, mounts: Mounts, f: FileID, name: string, path: seq<FileID>)
    requires tree(Clear(f), name).None? && forall g :: g in mounts ==> mounts[g] != []
    ensures Refused(tree, mounts, [f], [name], path) == Some(f)
  {
    assert [name][..1] == [name];
  }
}
