/**
 The directories of a synthetic file tree (p/srv/file.go): each holds its files in a list with links in both
 directions, and no two of them with one name.
 */
module Siblings {
  import opened Common

  function At(s: seq<File>, i: int): File? {
    if 0 <= i < |s| then s[i] else null
  }

  ghost predicate LinkedAt(d: File, s: seq<File>, i: nat)
    requires i < |s|
    reads s`prev, s`next, s`parent, s`removed
  {
    && s[i].prev == At(s, i - 1) && s[i].next == At(s, i + 1)
    && s[i].parent == d && !s[i].removed
  }

  ghost predicate NamesDiffer(s: seq<File>)
    reads s`name
  {
    forall i, j :: 0 <= i < j < |s| ==> s[i].name != s[j].name
  }

  /* ---- all files of a tree, as they are at one time ---- */

  datatype Look = Look(name: string, removed: bool, parent: File, next: File?, prev: File?,
                       cfirst: File?, clast: File?, kids: seq<File>)

  ghost function Snap(all: set<File>): (m: map<File, Look>)
    reads all
    ensures m.Keys == all && forall f :: f in all ==> m[f] == f.Now()
  {
    map f | f in all :: f.Now()
  }

  ghost predicate LinkedIn(m: map<File, Look>, d: File, s: seq<File>, i: nat)
    requires i < |s| && s[i] in m
  {
    && m[s[i]].prev == At(s, i - 1) && m[s[i]].next == At(s, i + 1)
    && m[s[i]].parent == d && !m[s[i]].removed
  }

  /** d is in order as a directory. */
  ghost predicate OkIn(m: map<File, Look>, d: File)
    requires d in m
  {
    var s := m[d].kids;
    && m[d].cfirst == At(s, 0) && m[d].clast == At(s, |s| - 1)
    && Distinct(s) && (forall k :: k in s ==> k in m)
    && (forall i {:trigger LinkedIn(m, d, s, i)} :: 0 <= i < |s| ==> LinkedIn(m, d, s, i))
    && (forall i, j :: 0 <= i < j < |s| ==> m[s[i]].name != m[s[j]].name)
  }

  /** And it is in its parent, or linked to nothing. */
  ghost predicate Planted(m: map<File, Look>, d: File)
    requires d in m
  {
    OkIn(m, d) && m[d].parent in m && (d !in m[m[d].parent].kids ==> m[d].next == null && m[d].prev == null)
  }

  ghost predicate ForestIn(m: map<File, Look>) {
    forall d {:trigger Planted(m, d)} :: d in m ==> Planted(m, d)
  }

  /** Every one of these files is in order, and they hold no others. */
  ghost predicate Forest(all: set<File>)
    reads all
  {
    ForestIn(Snap(all))
  }

  /** The file is in no directory. */
  ghost predicate Loose(f: File, all: set<File>)
    reads all`kids
  {
    forall d :: d in all ==> f !in d.kids
  }

  lemma InOrder(all: set<File>, d: File)
    requires Forest(all) && d in all
    ensures d.Ok() && d.parent in all && forall k :: k in d.kids ==> k in all && k.parent == d && !k.removed
    ensures d !in d.parent.kids ==> d.next == null && d.prev == null
  {
    var m := Snap(all);
    assert Planted(m, d);
    forall i | 0 <= i < |d.kids| ensures LinkedAt(d, d.kids, i) { assert LinkedIn(m, d, d.kids, i); }
    forall k | k in d.kids ensures k in all && k.parent == d && !k.removed { ChildOf(m, d, k); }
  }

  lemma ChildOf(m: map<File, Look>, d: File, k: File)
    requires d in m && OkIn(m, d) && k in m[d].kids
    ensures m[k].parent == d && !m[k].removed
  {
    var i :| 0 <= i < |m[d].kids| && m[d].kids[i] == k;
    assert LinkedIn(m, d, m[d].kids, i);
  }

  lemma OrderShows(all: set<File>, d: File)
    requires d in all && d.Ok() && forall k :: k in d.kids ==> k in all
    ensures OkIn(Snap(all), d)
  {
    forall i | 0 <= i < |d.kids| ensures LinkedIn(Snap(all), d, d.kids, i) { assert LinkedAt(d, d.kids, i); }
  }

  /** A directory that shows what it showed, with files that show what they showed. */
  ghost predicate SameDir(m: map<File, Look>, m': map<File, Look>, d: File)
    requires d in m && d in m'
  {
    && m'[d].cfirst == m[d].cfirst && m'[d].clast == m[d].clast && m'[d].kids == m[d].kids
    && forall k :: k in m[d].kids ==> k in m && k in m' && SameFile(m[k], m'[k])
  }

  ghost predicate SameFile(l: Look, l': Look) {
    l'.next == l.next && l'.prev == l.prev && l'.parent == l.parent && l'.removed == l.removed && l'.name == l.name
  }

  lemma SameOk(m: map<File, Look>, m': map<File, Look>, d: File)
    requires d in m && d in m' && OkIn(m, d) && SameDir(m, m', d)
    ensures OkIn(m', d)
  {
    var s := m[d].kids;
    forall i | 0 <= i < |s| ensures LinkedIn(m', d, s, i) { assert LinkedIn(m, d, s, i); }
  }

  /** A file that is in no directory got a name and a parent. */
  lemma Renamed(m: map<File, Look>, m': map<File, Look>, f: File, d: File)
    requires ForestIn(m) && f in m && d in m && m'.Keys == m.Keys && forall e :: e in m ==> f !in m[e].kids
    requires m'[f].parent in m && m'[f] == m[f].(name := m'[f].name, parent := m'[f].parent)
    requires forall g :: g in m && g != f ==> m'[g] == m[g]
    ensures Planted(m', d)
  {
    assert Planted(m, d) && Planted(m, f);
    SameOk(m, m', d);
  }

  lemma AllRenamed(m: map<File, Look>, m': map<File, Look>, f: File)
    requires ForestIn(m) && f in m && m'.Keys == m.Keys && forall e :: e in m ==> f !in m[e].kids
    requires m'[f].parent in m && m'[f] == m[f].(name := m'[f].name, parent := m'[f].parent)
    requires forall g :: g in m && g != f ==> m'[g] == m[g]
    ensures ForestIn(m')
  {
    forall d | d in m' ensures Planted(m', d) { Renamed(m, m', f, d); }
  }

  /** No file is in two directories. */
  lemma OneParent(m: map<File, Look>, d: File, e: File, k: File)
    requires d in m && e in m && OkIn(m, d) && OkIn(m, e) && k in m[d].kids && k in m[e].kids
    ensures d == e
  {
    ChildOf(m, d, k);
    ChildOf(m, e, k);
  }

  /** Only links of f, dir and its files have changed. */
  ghost predicate PutIn(m: map<File, Look>, m': map<File, Look>, f: File, dir: File)
    requires f in m && dir in m && m'.Keys == m.Keys
  {
    && (forall g :: g in m && g != dir ==>
        m'[g].kids == m[g].kids && m'[g].cfirst == m[g].cfirst && m'[g].clast == m[g].clast)
    && (forall g :: g in m ==> m'[g].parent == m[g].parent && m'[g].removed == m[g].removed && m'[g].name == m[g].name)
    && (forall g :: g in m && g != f ==> m'[g].prev == m[g].prev && (g !in m[dir].kids ==> m'[g].next == m[g].next))
  }

  /** A file was put at the end of dir. */
  lemma Appended(m: map<File, Look>, m': map<File, Look>, f: File, dir: File, d: File)
    requires ForestIn(m) && f in m && dir in m && d in m && m'.Keys == m.Keys && forall e :: e in m ==> f !in m[e].kids
    requires m'[f].parent == dir && OkIn(m', dir) && m'[dir].kids == m[dir].kids + [f]
    requires PutIn(m, m', f, dir)
    ensures Planted(m', d)
  {
    assert Planted(m, d) && Planted(m, dir);
    assert f in m'[dir].kids;
    if d in m[dir].kids { ChildOf(m, dir, d); }
    if d != dir {
      forall k | k in m[d].kids ensures k !in m[dir].kids && k != f {
        if k in m[dir].kids { OneParent(m, d, dir, k); }
      }
      SameOk(m, m', d);
    }
  }

  lemma AllAppended(m: map<File, Look>, m': map<File, Look>, f: File, dir: File)
    requires ForestIn(m) && f in m && dir in m && m'.Keys == m.Keys && forall e :: e in m ==> f !in m[e].kids
    requires m'[f].parent == dir && OkIn(m', dir) && m'[dir].kids == m[dir].kids + [f]
    requires PutIn(m, m', f, dir)
    ensures ForestIn(m')
  {
    forall d | d in m' ensures Planted(m', d) { Appended(m, m', f, dir, d); }
  }

  /** A file got a name that no other of its directory has. */
  lemma Named(m: map<File, Look>, m': map<File, Look>, f: File, n: string, d: File)
    requires f in m && d in m && m'.Keys == m.Keys && m[f].parent in m && Planted(m, d)
    requires m'[f] == m[f].(name := n) && forall g :: g in m && g != f ==> m'[g] == m[g]
    requires forall g :: g in m[m[f].parent].kids ==> g in m && m[g].name != n
    ensures Planted(m', d)
  {
    var s := m[d].kids;
    if f !in s {
      SameOk(m, m', d);
    } else {
      ChildOf(m, d, f);
      NamedInside(m, m', f, n, d);
    }
  }

  lemma NamedInside(m: map<File, Look>, m': map<File, Look>, f: File, n: string, d: File)
    requires f in m && d in m && m'.Keys == m.Keys && OkIn(m, d)
    requires m'[f] == m[f].(name := n) && forall g :: g in m && g != f ==> m'[g] == m[g]
    requires forall g :: g in m[d].kids ==> g in m && m[g].name != n
    ensures OkIn(m', d)
  {
    var s := m[d].kids;
    forall i | 0 <= i < |s| ensures LinkedIn(m', d, s, i) { assert LinkedIn(m, d, s, i); }
    forall i, j | 0 <= i < j < |s| ensures m'[s[i]].name != m'[s[j]].name {
      assert s[i] != s[j] && s[i] in s && s[j] in s;
    }
  }

  lemma AllNamed(m: map<File, Look>, m': map<File, Look>, f: File, n: string)
    requires ForestIn(m) && f in m && m'.Keys == m.Keys && m[f].parent in m
    requires m'[f] == m[f].(name := n) && forall g :: g in m && g != f ==> m'[g] == m[g]
    requires forall g :: g in m[m[f].parent].kids ==> g in m && m[g].name != n
    ensures ForestIn(m')
  {
    forall d | d in m' ensures Planted(m', d) {
      assert Planted(m, d);
      Named(m, m', f, n, d);
    }
  }

  /** f is linked to nothing now, and only dir and its files have changed otherwise. */
  ghost predicate TakenOut(m: map<File, Look>, m': map<File, Look>, f: File, dir: File)
    requires f in m && dir in m && m'.Keys == m.Keys
  {
    && m'[f].next == null && m'[f].prev == null
    && (forall g :: g in m && g != dir ==>
        m'[g].kids == m[g].kids && m'[g].cfirst == m[g].cfirst && m'[g].clast == m[g].clast)
    && (forall g :: g in m ==>
        m'[g].parent == m[g].parent && m'[g].name == m[g].name && (g != f ==> m'[g].removed == m[g].removed))
    && (forall g :: g in m && g != f && g !in m[dir].kids ==> m'[g].prev == m[g].prev && m'[g].next == m[g].next)
  }

  /** A file was taken out of dir. */
  lemma Detached(m: map<File, Look>, m': map<File, Look>, f: File, dir: File, k: nat, d: File)
    requires ForestIn(m) && f in m && dir in m && d in m && m'.Keys == m.Keys && m[f].parent == dir
    requires k < |m[dir].kids| && m[dir].kids[k] == f && m'[dir].kids == Without(m[dir].kids, k) && OkIn(m', dir)
    requires TakenOut(m, m', f, dir)
    ensures Planted(m', d)
  {
    assert Planted(m, d) && Planted(m, dir);
    WithoutIs(m[dir].kids, k);
    if d != dir {
      forall j | j in m[d].kids ensures j !in m[dir].kids {
        if j in m[dir].kids { OneParent(m, d, dir, j); }
      }
      assert f in m[dir].kids;
      SameOk(m, m', d);
    }
    if d in m[dir].kids { ChildOf(m, dir, d); }
  }

  lemma AllDetached(m: map<File, Look>, m': map<File, Look>, f: File, dir: File, k: nat)
    requires ForestIn(m) && f in m && dir in m && m'.Keys == m.Keys && m[f].parent == dir
    requires k < |m[dir].kids| && m[dir].kids[k] == f && m'[dir].kids == Without(m[dir].kids, k) && OkIn(m', dir)
    requires TakenOut(m, m', f, dir)
    ensures ForestIn(m')
  {
    forall d | d in m' ensures Planted(m', d) { Detached(m, m', f, dir, k, d); }
  }

  /** A file that is in no directory was taken out of dir: dir is in order only if it was empty. */
  lemma AllStray(m: map<File, Look>, m': map<File, Look>, f: File, dir: File)
    requires ForestIn(m) && f in m && dir in m && m'.Keys == m.Keys && m[f].parent == dir && f !in m[dir].kids
    requires TakenOut(m, m', f, dir)
    requires m'[dir].kids == m[dir].kids && m'[dir].cfirst == null && m'[dir].clast == null
    requires forall g :: g in m && g != f ==> m'[g].prev == m[g].prev && m'[g].next == m[g].next
    ensures ForestIn(m') <==> m[dir].kids == []
  {
    if m[dir].kids == [] {
      forall d | d in m' ensures Planted(m', d) {
        assert Planted(m, d);
        if f in m[d].kids { ChildOf(m, d, f); }
        SameOk(m, m', d);
      }
    } else {
      assert !Planted(m', dir);
    }
  }

  /** Who stands beside i once k is gone. */
  lemma WithoutAt(s: seq<File>, k: nat, i: nat, j: nat)
    requires k < |s| && i < |s| - 1 && j == if i < k then i else i + 1
    ensures At(Without(s, k), i - 1) == if i == k then At(s, k - 1) else At(s, j - 1)
    ensures At(Without(s, k), i + 1) == if i + 1 == k then At(s, k + 1) else At(s, j + 1)
  {
  }

  lemma WithoutIs(s: seq<File>, k: nat)
    requires Distinct(s) && k < |s|
    ensures Distinct(Without(s, k)) && forall q :: q in Without(s, k) <==> q in s && q != s[k]
  {
    forall q ensures q in Without(s, k) <==> q in s && q != s[k] {
      if q in s && q != s[k] {
        var i :| 0 <= i < |s| && s[i] == q;
        assert Without(s, k)[if i < k then i else i - 1] == q;
      }
    }
  }

  /** The k-th of its files s has been unlinked from dir. */
  ghost predicate OutOf(dir: File, s: seq<File>, k: nat)
    requires k < |s|
    reads dir, s
  {
    && dir.kids == Without(s, k) && dir.cfirst == At(dir.kids, 0) && dir.clast == At(dir.kids, |dir.kids| - 1)
    && Distinct(s) && NamesDiffer(s) && forall i :: 0 <= i < |s| - 1 ==> dir.kids[i] in s && LinkedAt(dir, dir.kids, i)
  }

  lemma OkWithout(dir: File, s: seq<File>, k: nat)
    requires k < |s| && OutOf(dir, s, k)
    ensures dir.Ok() && forall g :: g in dir.kids ==> g in s
  {
    WithoutIs(s, k);
    assert forall i :: 0 <= i < |s| - 1 ==> dir.kids[i] == s[if i < k then i else i + 1];
  }

  class File {
    var name: string
    var removed: bool
    var parent: File
    var next: File?
    var prev: File?
    var cfirst: File?
    var clast: File?
    ghost var kids: seq<File>

    constructor ()
      ensures name == "" && !removed && parent == this && kids == [] && Ok() && prev == null && next == null
    {
      name, removed := "", false;
      parent, next, prev, cfirst, clast := this, null, null, null, null;
      kids := [];
    }

    /** How this file looks now. */
    ghost function Now(): Look
      reads this
    {
      Look(name, removed, parent, next, prev, cfirst, clast, kids)
    }

    /** The links show the files of this directory, in order, with names of their own. */
    ghost predicate Ok()
      reads this, kids
    {
      && cfirst == At(kids, 0) && clast == At(kids, |kids| - 1)
      && (forall i :: 0 <= i < |kids| ==> LinkedAt(this, kids, i))
      && Distinct(kids) && NamesDiffer(kids)
    }

    /** Find: the file with this name, or null. */
    method Find(n: string) returns (f: File?)
      requires Ok()
      ensures f != null ==> f in kids && f.name == n && forall g :: g in kids && g.name == n ==> g == f
      ensures f == null ==> forall g :: g in kids ==> g.name != n
    {
      f := cfirst;
      ghost var i := 0;
      while f != null && f.name != n
        invariant i <= |kids| && f == At(kids, i) && forall k :: 0 <= k < i ==> kids[k].name != n
        decreases |kids| - i
      {
        assert LinkedAt(this, kids, i);
        f, i := f.next, i + 1;
      }
    }

    /** Links this file, which is in no directory, to the end of dir. */
    method Append(dir: File)
      requires dir.Ok() && this !in dir.kids && this != dir && parent == dir && !removed
      requires forall g :: g in dir.kids ==> g.name != name
      modifies this`next, this`prev, dir`cfirst, dir`clast, dir`kids, dir.kids`next
      ensures dir.Ok() && dir.kids == old(dir.kids) + [this]
    {
      ghost var s := dir.kids;
      assert NamesDiffer(s + [this]) && Distinct(s + [this]);
      LinkLast(dir, s);
    }

    method LinkLast(dir: File, ghost s: seq<File>)
      requires s == dir.kids && this !in s && this != dir && parent == dir && !removed && Distinct(s)
      requires dir.cfirst == At(s, 0) && dir.clast == At(s, |s| - 1) && forall i :: 0 <= i < |s| ==> LinkedAt(dir, s, i)
      modifies this`next, this`prev, dir`cfirst, dir`clast, dir`kids, s`next
      ensures dir.kids == s + [this] && dir.cfirst == At(s + [this], 0) && dir.clast == this
      ensures forall i :: 0 <= i < |s| + 1 ==> LinkedAt(dir, s + [this], i)
    {
      if dir.clast != null {
        assert LinkedAt(dir, s, |s| - 1);
        dir.clast.next := this;
      } else {
        dir.cfirst := this;
      }
      prev := dir.clast;
      next := null;
      dir.clast := this;
      dir.kids := s + [this];
      forall i | 0 <= i < |s| + 1 ensures LinkedAt(dir, s + [this], i) {
        if i < |s| { assert old(LinkedAt(dir, s, i)); }
      }
    }

    /**
     Names this file and puts it into dir, or makes it a root if there is no dir.  If dir has a file of that name
     this one stays outside, but takes dir for its parent.
     */
    method Add(dir: File?, n: string, ghost all: set<File>) returns (taken: bool)
      requires Forest(all) && this in all && Loose(this, all) && !removed && dir != this && (dir != null ==> dir in all)
      modifies this`name, this`parent, this`next, this`prev, all`cfirst, all`clast, all`kids, all`next
      ensures Forest(all) && name == n && parent == if dir == null then this else dir
      ensures dir == null ==> !taken
      ensures dir != null ==> (taken <==> exists g :: g in old(dir.kids) && old(g.name) == n)
      ensures forall d :: d in all ==> d.kids == if d == dir && !taken then old(d.kids) + [this] else old(d.kids)
    {
      Baptize(n, if dir == null then this else dir, all);
      taken := false;
      if dir != null {
        InOrder(all, dir);
        assert this !in dir.kids && forall g :: g in dir.kids ==> g.name == old(g.name);
        taken := AddTo(dir, all);
      }
    }

    method Baptize(n: string, dir: File, ghost all: set<File>)
      requires Forest(all) && this in all && Loose(this, all) && dir in all
      modifies this`name, this`parent
      ensures Forest(all) && Loose(this, all) && name == n && parent == dir
    {
      ghost var m := Snap(all);
      name, parent := n, dir;
      AllRenamed(m, Snap(all), this);
    }

    method AddTo(dir: File, ghost all: set<File>) returns (taken: bool)
      requires Forest(all) && this in all && Loose(this, all) && !removed && dir != this && dir in all && parent == dir
      modifies this`next, this`prev, dir`cfirst, dir`clast, dir`kids, dir.kids`next
      ensures Forest(all)
      ensures taken <==> exists g :: g in old(dir.kids) && g.name == name
      ensures dir.kids == if taken then old(dir.kids) else old(dir.kids) + [this]
    {
      InOrder(all, dir);
      var g := dir.Find(name);
      taken := g != null;
      if !taken { Put(dir, all); }
    }

    method Put(dir: File, ghost all: set<File>)
      requires Forest(all) && this in all && Loose(this, all) && !removed && dir != this && dir in all && parent == dir
      requires dir.Ok() && forall g :: g in dir.kids ==> g in all && g.name != name
      modifies this`next, this`prev, dir`cfirst, dir`clast, dir`kids, dir.kids`next
      ensures Forest(all) && dir.kids == old(dir.kids) + [this]
    {
      ghost var m := Hook(dir, all);
      OrderShows(all, dir);
      AllAppended(m, Snap(all), this, dir);
    }

    method Hook(dir: File, ghost all: set<File>) returns (ghost m: map<File, Look>)
      requires this in all && dir in all && this !in dir.kids && !removed && dir != this && parent == dir
      requires dir.Ok() && forall g :: g in dir.kids ==> g.name != name
      modifies this`next, this`prev, dir`cfirst, dir`clast, dir`kids, dir.kids`next
      ensures m == old(Snap(all)) && PutIn(m, Snap(all), this, dir)
      ensures dir.Ok() && dir.kids == old(dir.kids) + [this]
    {
      m := Snap(all);
      Append(dir);
    }

    /** Gives this file a name that no file of its directory has. */
    method Rename(n: string, ghost all: set<File>) returns (taken: bool)
      requires Forest(all) && this in all
      modifies this`name
      ensures Forest(all)
      ensures taken <==> exists g :: g in parent.kids && old(g.name) == n
      ensures name == if taken then old(name) else n
    {
      ghost var m := Snap(all);
      InOrder(all, this);
      InOrder(all, parent);
      var g := parent.Find(n);
      taken := g != null;
      if !taken {
        name := n;
        AllNamed(m, Snap(all), this, n);
      }
    }

    /** Takes this file, the k-th of s if it is linked, out of the links. */
    method UnlinkFrom(dir: File, ghost s: seq<File>, ghost k: nat, ghost linked: bool)
      requires dir.cfirst == At(s, 0) && dir.clast == At(s, |s| - 1) && Distinct(s)
      requires forall i :: 0 <= i < |s| ==> LinkedAt(dir, s, i)
      requires if linked then k < |s| && s[k] == this else next == null && prev == null && this !in s
      modifies this`next, this`prev, this`removed, dir`cfirst, dir`clast, dir`kids, s`next, s`prev
      ensures removed && next == null && prev == null
      ensures linked ==> dir.kids == Without(s, k)
      ensures linked ==> dir.cfirst == At(dir.kids, 0) && dir.clast == At(dir.kids, |dir.kids| - 1)
      ensures linked ==> forall i :: 0 <= i < |s| - 1 ==> LinkedAt(dir, dir.kids, i)
      ensures !linked ==> dir.cfirst == null && dir.clast == null && dir.kids == old(dir.kids)
      ensures !linked ==> forall f :: f in s ==> f.next == old(f.next) && f.prev == old(f.prev)
    {
      if linked {
        assert LinkedAt(dir, s, k);
        if k > 0 { assert LinkedAt(dir, s, k - 1); }
        if k + 1 < |s| { assert LinkedAt(dir, s, k + 1); }
      }
      if next != null {
        next.prev := prev;
      } else {
        dir.clast := prev;
      }
      if prev != null {
        prev.next := next;
      } else {
        dir.cfirst := next;
      }
      next, prev, removed := null, null, true;
      if linked {
        dir.kids := Without(s, k);
        forall i | 0 <= i < |s| - 1 ensures LinkedAt(dir, dir.kids, i) {
          var j := if i < k then i else i + 1;
          assert old(LinkedAt(dir, s, j)) && dir.kids[i] == s[j] && s[j] != s[k];
          WithoutAt(s, k, i, j);
        }
      }
    }

    /** Takes this file out of the directory it has for its parent; linked if it is its k-th file. */
    method Detach(ghost k: nat, ghost linked: bool, ghost all: set<File>)
      requires Forest(all) && this in all && !removed && parent in all && parent.Ok()
      requires forall g :: g in parent.kids ==> g in all
      requires if linked then k < |parent.kids| && parent.kids[k] == this
               else next == null && prev == null && this !in parent.kids
      modifies this`next, this`prev, this`removed, parent`cfirst, parent`clast, parent`kids, parent.kids`next,
        parent.kids`prev
      ensures removed
      ensures linked ==> Forest(all) && parent.kids == Without(old(parent.kids), k)
      ensures !linked ==> parent.cfirst == null && parent.clast == null && parent.kids == old(parent.kids)
      ensures !linked ==> (Forest(all) <==> parent.kids == [])
    {
      ghost var m := Unhook(k, linked, all);
      if linked {
        OkWithout(parent, old(parent.kids), k);
        OrderShows(all, parent);
        AllDetached(m, Snap(all), this, parent, k);
      } else {
        AllStray(m, Snap(all), this, parent);
      }
    }

    method Unhook(ghost k: nat, ghost linked: bool, ghost all: set<File>) returns (ghost m: map<File, Look>)
      requires this in all && parent in all && parent.Ok() && forall g :: g in parent.kids ==> g in all
      requires if linked then k < |parent.kids| && parent.kids[k] == this
               else next == null && prev == null && this !in parent.kids
      modifies this`next, this`prev, this`removed, parent`cfirst, parent`clast, parent`kids, parent.kids`next,
        parent.kids`prev
      ensures m == old(Snap(all)) && TakenOut(m, Snap(all), this, parent) && removed
      ensures linked ==> OutOf(parent, old(parent.kids), k)
      ensures !linked ==> parent.cfirst == null && parent.clast == null && parent.kids == old(parent.kids)
      ensures !linked ==> forall f :: f in parent.kids ==> f.next == old(f.next) && f.prev == old(f.prev)
    {
      ghost var s := parent.kids;
      m := Snap(all);
      UnlinkFrom(parent, s, k, linked);
      ghost var m' := Snap(all);
      forall g | g in all && g != parent
        ensures m'[g].kids == m[g].kids && m'[g].cfirst == m[g].cfirst && m'[g].clast == m[g].clast
      {
        assert m'[g] == g.Now() && m[g] == old(g.Now());
      }
      forall g | g in all && g != this && g !in s ensures m'[g].prev == m[g].prev && m'[g].next == m[g].next {
        assert m'[g] == g.Now() && m[g] == old(g.Now());
      }
    }

    /**
     Takes this file out of its directory, if it has not been taken out before.  A file that is not in the
     directory it has for its parent, because it is a root or could not be added, takes all others out instead.
     */
    method Remove(ghost all: set<File>)
      requires Forest(all) && this in all
      modifies this`removed, all`next, all`prev, all`cfirst, all`clast, all`kids
      ensures removed && forall d :: d in all && d != parent ==> d.kids == old(d.kids)
      ensures old(removed) ==> Forest(all) && unchanged(this) && unchanged(parent)
      ensures !old(removed) && old(this in parent.kids) ==>
                && Forest(all)
                && exists k :: 0 <= k < |old(parent.kids)| && old(parent.kids)[k] == this
                               && parent.kids == Without(old(parent.kids), k)
      ensures !old(removed) && old(this !in parent.kids) ==>
                && parent.cfirst == null && parent.clast == null && parent.kids == old(parent.kids)
                && (Forest(all) <==> parent.kids == [])
    {
      if removed {
        return;
      }
      InOrder(all, this);
      InOrder(all, parent);
      ghost var s, k := parent.kids, 0;
      if this in s { k :| 0 <= k < |s| && s[k] == this; }
      Detach(k, this in s, all);
    }
  }

  function Without(s: seq<File>, k: nat): seq<File>
    requires k < |s|
  {
    s[..k] + s[k + 1..]
  }

  /* ---- sequences of calls ---- */

  datatype Op = RootOp(name: string) | AddOp(dir: nat, name: string) | RenameOp(i: nat, name: string) | RemoveOp(i: nat)

  /** A new file is a tree of its own. */
  lemma OneMoreFile(m: map<File, Look>, f: File, l: Look)
    requires ForestIn(m) && f !in m && l.parent == f && l.kids == [] && l.cfirst == l.clast == l.next == l.prev == null
    ensures ForestIn(m[f := l])
  {
    var m' := m[f := l];
    forall d | d in m' ensures Planted(m', d) {
      if d != f {
        assert Planted(m, d);
        SameOk(m, m', d);
      }
    }
  }

  /** f is in the directory it has for its parent. */
  ghost predicate Held(m: map<File, Look>, f: File) {
    f in m && !m[f].removed && m[f].parent in m && f in m[m[f].parent].kids
  }

  ghost predicate HoldsOnly(m: map<File, Look>, d: File, linked: seq<File>)
    requires d in m
  {
    forall k :: k in m[d].kids ==> k in linked
  }

  /** These are the files that are in directories. */
  ghost predicate LinkedIs(m: map<File, Look>, linked: seq<File>) {
    && Distinct(linked)
    && (forall f {:trigger Held(m, f)} :: f in linked ==> Held(m, f))
    && (forall d {:trigger HoldsOnly(m, d, linked)} :: d in m ==> HoldsOnly(m, d, linked))
  }

  lemma Outside(m: map<File, Look>, linked: seq<File>, f: File)
    requires LinkedIs(m, linked) && forall d :: d in m ==> f !in m[d].kids
    ensures f !in linked
  {
    assert f in linked ==> Held(m, f);
  }

  /** What LinkedIs depends on is the same. */
  ghost predicate SamePlace(l: Look, l': Look) {
    l'.removed == l.removed && l'.parent == l.parent && l'.kids == l.kids
  }

  lemma LinkedStill(m: map<File, Look>, m': map<File, Look>, linked: seq<File>)
    requires LinkedIs(m, linked) && m.Keys <= m'.Keys && forall g :: g in m ==> SamePlace(m[g], m'[g])
    requires forall g :: g in m' && g !in m ==> m'[g].kids == []
    ensures LinkedIs(m', linked)
  {
    forall f | f in linked ensures Held(m', f) { assert Held(m, f); }
    forall d | d in m' ensures HoldsOnly(m', d, linked) {
      if d in m { assert HoldsOnly(m, d, linked); }
    }
  }

  /** The same if a file that is in no directory gets another parent. */
  lemma LinkedElsewhere(m: map<File, Look>, m': map<File, Look>, linked: seq<File>, f: File)
    requires LinkedIs(m, linked) && m.Keys == m'.Keys && f in m && (forall d :: d in m ==> f !in m[d].kids)
    requires m'[f].kids == m[f].kids && forall g :: g in m && g != f ==> SamePlace(m[g], m'[g])
    ensures LinkedIs(m', linked)
  {
    forall g | g in linked ensures Held(m', g) { assert Held(m, g); }
    forall d | d in m' ensures HoldsOnly(m', d, linked) { assert HoldsOnly(m, d, linked); }
  }

  lemma LinkedMore(m: map<File, Look>, m': map<File, Look>, linked: seq<File>, f: File, dir: File)
    requires LinkedIs(m, linked) && m'.Keys == m.Keys && f in m && dir in m && f !in linked && f != dir
    requires m'[f].parent == dir && !m'[f].removed && m'[f].kids == m[f].kids
    requires m'[dir].parent == m[dir].parent && m'[dir].removed == m[dir].removed && m'[dir].kids == m[dir].kids + [f]
    requires forall g :: g in m && g != f && g != dir ==> SamePlace(m[g], m'[g])
    ensures LinkedIs(m', linked + [f])
  {
    assert f in m'[dir].kids;
    forall g | g in linked + [f] ensures Held(m', g) {
      if g in linked { assert Held(m, g); }
    }
    forall d | d in m' ensures HoldsOnly(m', d, linked + [f]) { assert HoldsOnly(m, d, linked); }
  }

  /** f, the k-th file of its parent, is not in it any more. */
  ghost predicate Removed(m: map<File, Look>, m': map<File, Look>, f: File, k: nat) {
    && m'.Keys == m.Keys && f in m && m[f].parent in m
    && (var s := m[m[f].parent].kids; k < |s| && s[k] == f && Distinct(s) && m'[m[f].parent].kids == Without(s, k))
    && forall g {:trigger RemovedAt(m, m', f, g)} :: g in m ==> RemovedAt(m, m', f, g)
  }

  ghost predicate RemovedAt(m: map<File, Look>, m': map<File, Look>, f: File, g: File)
    requires f in m && g in m && g in m'
  {
    && m'[g].name == m[g].name && m'[g].parent == m[g].parent && (g != f ==> m'[g].removed == m[g].removed)
    && (g != m[f].parent ==> m'[g].kids == m[g].kids)
  }

  lemma LinkedLess(m: map<File, Look>, m': map<File, Look>, linked: seq<File>, i: nat, k: nat)
    requires LinkedIs(m, linked) && ForestIn(m) && i < |linked| && Removed(m, m', linked[i], k)
    ensures LinkedIs(m', Without(linked, i))
  {
    var f, dir := linked[i], m[linked[i]].parent;
    assert Planted(m, dir);
    WithoutIs(linked, i);
    WithoutIs(m[dir].kids, k);
    forall g | g in Without(linked, i) ensures Held(m', g) {
      assert Held(m, g);
      assert RemovedAt(m, m', f, g) && RemovedAt(m, m', f, m[g].parent);
    }
    forall d | d in m' ensures HoldsOnly(m', d, Without(linked, i)) {
      assert RemovedAt(m, m', f, d);
      assert Planted(m, d) && HoldsOnly(m, d, linked);
      if d != dir && f in m[d].kids { OneParent(m, d, dir, f); }
    }
  }

  /* ---- what a tree is to its users ---- */

  /** Files are numbered as they are made: their names, parents and files, and all that are in directories. */
  datatype Shape = Shape(names: seq<string>, parents: seq<nat>, kids: seq<seq<nat>>, linked: seq<nat>)

  ghost predicate Below(ids: seq<nat>, n: nat) {
    forall i :: 0 <= i < |ids| ==> ids[i] < n
  }

  ghost predicate Whole(t: Shape) {
    && |t.parents| == |t.names| == |t.kids| && Below(t.parents, |t.names|) && Below(t.linked, |t.names|)
    && forall k :: 0 <= k < |t.kids| ==> Below(t.kids[k], |t.names|)
  }

  /** Directory d has a file with this name. */
  predicate Has(t: Shape, d: nat, n: string) {
    d < |t.kids| && exists k :: 0 <= k < |t.kids[d]| && t.kids[d][k] < |t.names| && t.names[t.kids[d][k]] == n
  }

  /** A file more. */
  function Made(t: Shape): Shape {
    Shape(t.names + [""], t.parents + [|t.names|], t.kids + [[]], t.linked)
  }

  /** The last file is put into a directory, unless a file of this name is there, or made a root. */
  function Put(t: Shape, dir: Option<nat>, n: string): Shape
    requires Whole(t) && t.names != []
  {
    var i := |t.names| - 1;
    var named := t.(names := t.names[i := n], parents := t.parents[i := if dir.Some? then dir.value else i]);
    if dir.Some? && dir.value < |t.kids| && !Has(t, dir.value, n) then
      named.(kids := t.kids[dir.value := t.kids[dir.value] + [i]], linked := t.linked + [i])
    else named
  }

  function Pos(ids: seq<nat>, x: nat): (r: nat)
    ensures r <= |ids| && (r < |ids| ==> ids[r] == x) && forall i :: 0 <= i < r ==> ids[i] != x
  {
    if ids == [] || ids[0] == x then 0 else 1 + Pos(ids[1..], x)
  }

  function Except(ids: seq<nat>, x: nat): (r: seq<nat>) {
    var k := Pos(ids, x);
    if k < |ids| then ids[..k] + ids[k + 1..] else ids
  }

  function Did(t: Shape, op: Op): Shape
    requires Whole(t)
  {
    match op
    case RootOp(n) => Put(Made(t), None, n)
    case AddOp(j, n) => if j < |t.names| then Put(Made(t), Some(j), n) else t
    case RenameOp(i, n) => if i < |t.names| && !Has(t, t.parents[i], n) then t.(names := t.names[i := n]) else t
    case RemoveOp(i) =>
      if i < |t.linked| then
        var d := t.parents[t.linked[i]];
        t.(kids := t.kids[d := Except(t.kids[d], t.linked[i])], linked := t.linked[..i] + t.linked[i + 1..])
      else t
  }

  lemma WholeStill(t: Shape, op: Op)
    requires Whole(t)
    ensures Whole(Did(t, op))
  {
    assert op.RemoveOp? && op.i < |t.linked| ==> Below(t.kids[t.parents[t.linked[op.i]]], |t.names|);
  }

  ghost function DidAll(t: Shape, ops: seq<Op>): Shape
    requires Whole(t)
    decreases |ops|
  {
    WholeStill(t, if ops == [] then RemoveOp(|t.linked|) else ops[0]);
    if ops == [] then t else DidAll(Did(t, ops[0]), ops[1..])
  }

  /**
   In words: a file that is made has the name and the parent it was given.  It is the last file of its directory if
   no other there had the name, and in none otherwise; a root is in none.  Nothing else changes.
   */
  lemma MadeIn(t: Shape, j: nat, n: string)
    requires Whole(t) && j < |t.names|
    ensures var t', i := Did(t, AddOp(j, n)), |t.names|;
            && t'.names == t.names + [n] && t'.parents == t.parents + [j] && t'.kids[i] == []
            && (forall d :: 0 <= d < i ==> t'.kids[d] == if d == j && !Has(t, j, n) then t.kids[d] + [i] else t.kids[d])
            && t'.linked == if Has(t, j, n) then t.linked else t.linked + [i]
  {
    HadBefore(t, j, n);
  }

  /** Making a file puts it in no directory. */
  lemma HadBefore(t: Shape, j: nat, n: string)
    requires Whole(t) && j < |t.names|
    ensures Whole(Made(t)) && Has(Made(t), j, n) == Has(t, j, n)
  {
  }

  lemma MadeRoot(t: Shape, n: string)
    requires Whole(t)
    ensures var r := Did(t, RootOp(n));
            && r.names == t.names + [n] && r.parents == t.parents + [|t.names|]
            && r.kids == t.kids + [[]] && r.linked == t.linked
  {
  }

  /** A file gets its new name, and no other does, exactly if no file of its directory has that name. */
  lemma NamedAnew(t: Shape, i: nat, n: string)
    requires Whole(t) && i < |t.names|
    ensures var t' := Did(t, RenameOp(i, n));
            && |t'.names| == |t.names| && t' == t.(names := t'.names)
            && forall k :: 0 <= k < |t.names| ==>
                 t'.names[k] == if k == i && !Has(t, t.parents[i], n) then n else t.names[k]
  {
  }

  /** A file that is taken out is in no place of its directory any more; the others there keep their order. */
  lemma TakenOutOf(t: Shape, i: nat)
    requires Whole(t) && i < |t.linked| && Distinct(t.kids[t.parents[t.linked[i]]])
    ensures var t', x := Did(t, RemoveOp(i)), t.linked[i];
            var d := t.parents[x];
            && x !in t'.kids[d] && t'.names == t.names && t'.parents == t.parents
            && t'.linked == t.linked[..i] + t.linked[i + 1..]
            && (forall e :: 0 <= e < |t.kids| && e != d ==> t'.kids[e] == t.kids[e])
            && (x in t.kids[d] ==>
                  exists k :: 0 <= k < |t.kids[d]| && t.kids[d][k] == x
                              && t'.kids[d] == t.kids[d][..k] + t.kids[d][k + 1..])
  {
    var x := t.linked[i];
    var ids := t.kids[t.parents[x]];
    var k := Pos(ids, x);
    if k < |ids| { assert Except(ids, x) == ids[..k] + ids[k + 1..]; }
  }

  function Files(files: seq<File>, ids: seq<nat>): (s: seq<File>)
    requires forall i :: 0 <= i < |ids| ==> ids[i] < |files|
    ensures |s| == |ids| && forall i :: 0 <= i < |s| ==> s[i] == files[ids[i]]
  {
    seq(|ids|, i requires 0 <= i < |ids| => files[ids[i]])
  }

  ghost predicate ShowsAt(m: map<File, Look>, files: seq<File>, t: Shape, k: nat)
    requires Whole(t) && |files| == |t.names| && k < |files|
  {
    && files[k] in m && m[files[k]].name == t.names[k] && m[files[k]].parent == files[t.parents[k]]
    && m[files[k]].kids == Files(files, t.kids[k])
  }

  /** The files are as t says. */
  ghost predicate Shows(m: map<File, Look>, files: seq<File>, linked: seq<File>, t: Shape) {
    && Whole(t) && |files| == |t.names| && Distinct(files) && linked == Files(files, t.linked)
    && (forall f :: f in files ==> f in m)
    && forall k {:trigger ShowsAt(m, files, t, k)} :: 0 <= k < |files| ==> ShowsAt(m, files, t, k)
  }

  lemma HasShown(m: map<File, Look>, files: seq<File>, linked: seq<File>, t: Shape, d: nat, n: string)
    requires Shows(m, files, linked, t) && d < |files| && forall g :: g in m[files[d]].kids ==> g in m
    ensures Has(t, d, n) <==> exists g :: g in m[files[d]].kids && m[g].name == n
  {
    assert ShowsAt(m, files, t, d);
    var s := m[files[d]].kids;
    forall k | 0 <= k < |s| ensures m[s[k]].name == t.names[t.kids[d][k]] { assert ShowsAt(m, files, t, t.kids[d][k]); }
    if Has(t, d, n) {
      var k :| 0 <= k < |t.kids[d]| && t.names[t.kids[d][k]] == n;
      assert s[k] in s && m[s[k]].name == n;
    }
    if g :| g in s && m[g].name == n {
      var k :| 0 <= k < |s| && s[k] == g;
      assert t.names[t.kids[d][k]] == n;
    }
  }

  function Newborn(f: File): Look {
    Look("", false, f, null, null, null, null, [])
  }

  lemma MadeShown(m: map<File, Look>, files: seq<File>, linked: seq<File>, t: Shape, f: File)
    requires Shows(m, files, linked, t) && f !in m
    ensures Shows(m[f := Newborn(f)], files + [f], linked, Made(t))
  {
    var m', files', t' := m[f := Newborn(f)], files + [f], Made(t);
    forall k | 0 <= k < |files'| ensures ShowsAt(m', files', t', k) {
      if k < |files| {
        assert ShowsAt(m, files, t, k);
        assert Files(files', t'.kids[k]) == Files(files, t.kids[k]);
      }
    }
    assert Files(files', t'.linked) == Files(files, t.linked);
  }

  /** f has a name and a parent now, and is the last file of its parent if no other had the name. */
  ghost predicate Added(m: map<File, Look>, m': map<File, Look>, f: File, dir: File?, n: string, taken: bool) {
    && PutIs(m, m', f, dir, n, taken) && (dir != null ==> forall g :: g in m[dir].kids ==> g in m)
    && (taken <==> dir != null && exists g :: g in m[dir].kids && m[g].name == n)
  }

  ghost predicate PutAt(m: map<File, Look>, m': map<File, Look>, f: File, dir: File?, n: string, taken: bool, g: File)
    requires g in m && g in m'
  {
    var l, l' := m[g], m'[g];
    && l'.removed == l.removed && l'.kids == (if g == dir && !taken then l.kids + [f] else l.kids)
    && l'.name == (if g == f then n else l.name)
    && l'.parent == (if g != f then l.parent else if dir == null then f else dir)
  }

  ghost predicate PutIs(m: map<File, Look>, m': map<File, Look>, f: File, dir: File?, n: string, taken: bool) {
    && m'.Keys == m.Keys && f in m && (dir != null ==> dir in m)
    && forall g {:trigger PutAt(m, m', f, dir, n, taken, g)} :: g in m ==> PutAt(m, m', f, dir, n, taken, g)
  }

  lemma MoreFiles(files: seq<File>, ids: seq<nat>, i: nat)
    requires Below(ids, |files|) && i < |files|
    ensures Files(files, ids + [i]) == Files(files, ids) + [files[i]]
  {
  }

  lemma PutParts(t: Shape, j: Option<nat>, n: string, k: nat)
    requires Whole(t) && k < |t.names| && (j.Some? ==> j.value < |t.names|)
    ensures var t', i := Put(t, j, n), |t.names| - 1;
            && Whole(t') && |t'.names| == |t.names|
            && t'.names[k] == (if k == i then n else t.names[k])
            && t'.parents[k] == (if k != i then t.parents[k] else if j.Some? then j.value else i)
            && t'.kids[k] == (if j == Some(k) && !Has(t, k, n) then t.kids[k] + [i] else t.kids[k])
  {
  }

  /** What has become of one file: f, its directory, or another. */
  lemma PutLooks(m: map<File, Look>, m': map<File, Look>, files: seq<File>, g: File, f: File, dir: File?, n: string,
                 taken: bool, ids: seq<nat>)
    requires g in m && g in m' && PutAt(m, m', f, dir, n, taken, g) && Below(ids, |files|)
    requires m[g].kids == Files(files, ids)
    requires files != [] && f == files[|files| - 1]
    ensures m'[g].name == if g == f then n else m[g].name
    ensures m'[g].parent == if g != f then m[g].parent else if dir == null then f else dir
    ensures m'[g].kids == Files(files, if g == dir && !taken then ids + [|files| - 1] else ids)
  {
    MoreFiles(files, ids, |files| - 1);
  }

  lemma PutShown(m: map<File, Look>, m': map<File, Look>, files: seq<File>, linked: seq<File>, t: Shape, j: Option<nat>,
                 n: string, taken: bool)
    requires Shows(m, files, linked, t) && files != [] && (j.Some? ==> j.value < |files|)
    requires Added(m, m', files[|files| - 1], if j.Some? then files[j.value] else null, n, taken)
    ensures Shows(m', files, if j.Some? && !taken then linked + [files[|files| - 1]] else linked, Put(t, j, n))
  {
    var t', f, dir := Put(t, j, n), files[|files| - 1], if j.Some? then files[j.value] else null;
    if j.Some? {
      HasShown(m, files, linked, t, j.value, n);
      MoreFiles(files, t.linked, |files| - 1);
    }
    PutParts(t, j, n, 0);
    forall k | 0 <= k < |files| ensures ShowsAt(m', files, t', k) {
      assert ShowsAt(m, files, t, k) && PutAt(m, m', f, dir, n, taken, files[k]);
      PutParts(t, j, n, k);
      PutLooks(m, m', files, files[k], f, dir, n, taken, t.kids[k]);
      assert (files[k] == f <==> k == |files| - 1) && (j.Some? ==> (files[k] == dir <==> k == j.value));
    }
  }

  lemma PutLinked(m: map<File, Look>, m': map<File, Look>, linked: seq<File>, f: File, dir: File?, n: string,
                  taken: bool)
    requires LinkedIs(m, linked) && Added(m, m', f, dir, n, taken) && f != dir && !m[f].removed
    requires forall d :: d in m ==> f !in m[d].kids
    ensures LinkedIs(m', if dir != null && !taken then linked + [f] else linked)
  {
    Outside(m, linked, f);
    assert PutAt(m, m', f, dir, n, taken, f);
    forall g | g in m && g != f && g != dir ensures SamePlace(m[g], m'[g]) { assert PutAt(m, m', f, dir, n, taken, g); }
    if dir != null { assert PutAt(m, m', f, dir, n, taken, dir); }
    if taken || dir == null {
      LinkedElsewhere(m, m', linked, f);
    } else {
      LinkedMore(m, m', linked, f, dir);
    }
  }

  lemma RenameShown(m: map<File, Look>, m': map<File, Look>, files: seq<File>, linked: seq<File>, t: Shape, i: nat,
                    n: string)
    requires Shows(m, files, linked, t) && i < |files| && m'.Keys == m.Keys
    requires m'[files[i]] == m[files[i]].(name := n) && forall g :: g in m && g != files[i] ==> m'[g] == m[g]
    ensures Shows(m', files, linked, t.(names := t.names[i := n]))
  {
    var t' := t.(names := t.names[i := n]);
    forall k | 0 <= k < |files| ensures ShowsAt(m', files, t', k) { assert ShowsAt(m, files, t, k); }
  }

  lemma PosIs(files: seq<File>, ids: seq<nat>, k: nat)
    requires Below(ids, |files|) && k < |ids| && Distinct(Files(files, ids))
    ensures Pos(ids, ids[k]) == k
  {
    var s, p := Files(files, ids), Pos(ids, ids[k]);
    assert p < |s| && s[p] == s[k];
    assert p == k;
  }

  lemma ExceptIs(files: seq<File>, ids: seq<nat>, k: nat)
    requires Below(ids, |files|) && k < |ids| && Distinct(Files(files, ids))
    ensures Below(Except(ids, ids[k]), |files|) && Files(files, Except(ids, ids[k])) == Without(Files(files, ids), k)
  {
    PosIs(files, ids, k);
    var rest := Except(ids, ids[k]);
    assert rest == ids[..k] + ids[k + 1..];
    forall i | 0 <= i < |rest| ensures rest[i] == ids[if i < k then i else i + 1] {}
    var s := Files(files, rest);
    forall i | 0 <= i < |rest| ensures s[i] == Without(Files(files, ids), k)[i] {}
  }

  lemma RemoveShown(m: map<File, Look>, m': map<File, Look>, files: seq<File>, linked: seq<File>, t: Shape, i: nat,
                    k: nat)
    requires Shows(m, files, linked, t) && i < |linked| && Removed(m, m', linked[i], k)
    ensures Shows(m', files, Without(linked, i), Did(t, RemoveOp(i)))
  {
    var x, t' := t.linked[i], Did(t, RemoveOp(i));
    WholeStill(t, RemoveOp(i));
    var d := t.parents[x];
    assert ShowsAt(m, files, t, x) && ShowsAt(m, files, t, d);
    assert files[t.kids[d][k]] == files[x];
    ExceptIs(files, t.kids[d], k);
    assert Files(files, t'.linked) == Without(linked, i);
    forall j | 0 <= j < |files| ensures ShowsAt(m', files, t', j) {
      assert ShowsAt(m, files, t, j) && RemovedAt(m, m', linked[i], files[j]);
      if j != d { assert files[j] != files[d] && t'.kids[j] == t.kids[j]; }
    }
  }

  /** The directory has a file with this name. */
  ghost predicate NameIn(m: map<File, Look>, d: File, n: string) {
    d in m && exists g :: g in m[d].kids && g in m && m[g].name == n
  }

  /** What one call does to the files, and to those of them that are in directories. */
  ghost predicate Stepped(op: Op, m: map<File, Look>, files: seq<File>, linked: seq<File>,
                          m': map<File, Look>, files': seq<File>, linked': seq<File>) {
    match op
    case RootOp(n) =>
      && NewOne(files, files', m) && linked' == linked
      && Added(m[Last(files') := Newborn(Last(files'))], m', Last(files'), null, n, false)
    case AddOp(j, n) =>
      if j < |files| then
        && NewOne(files, files', m)
        && Added(m[Last(files') := Newborn(Last(files'))], m', Last(files'), files[j], n, NameIn(m, files[j], n))
        && linked' == if NameIn(m, files[j], n) then linked else linked + [Last(files')]
      else m' == m && files' == files && linked' == linked
    case RenameOp(i, n) =>
      && files' == files && linked' == linked
      && if i < |files| && files[i] in m && !NameIn(m, m[files[i]].parent, n)
         then m' == m[files[i] := m[files[i]].(name := n)]
         else m' == m
    case RemoveOp(i) =>
      && files' == files
      && if i < |linked| then linked' == Without(linked, i) && exists k :: Removed(m, m', linked[i], k)
         else m' == m && linked' == linked
  }

  ghost predicate NewOne(files: seq<File>, files': seq<File>, m: map<File, Look>) {
    |files'| == |files| + 1 && files' == files + [files'[|files|]] && files'[|files|] !in m
  }

  function Last(files: seq<File>): File
    requires files != []
  {
    files[|files| - 1]
  }

  lemma AddShows(m: map<File, Look>, m': map<File, Look>, files: seq<File>, files': seq<File>, linked: seq<File>,
                 t: Shape, j: Option<nat>, n: string, taken: bool)
    requires Shows(m, files, linked, t) && NewOne(files, files', m) && (j.Some? ==> j.value < |files|)
    requires var f := Last(files'); Added(m[f := Newborn(f)], m', f, if j.Some? then files[j.value] else null, n, taken)
    ensures Shows(m', files', if j.Some? && !taken then linked + [Last(files')] else linked, Put(Made(t), j, n))
  {
    var f := Last(files');
    MadeShown(m, files, linked, t, f);
    PutShown(m[f := Newborn(f)], m', files', linked, Made(t), j, n, taken);
  }

  /** A call that does this does what it should to the tree. */
  lemma StepShows(op: Op, m: map<File, Look>, files: seq<File>, linked: seq<File>,
                  m': map<File, Look>, files': seq<File>, linked': seq<File>, t: Shape)
    requires Shows(m, files, linked, t) && Stepped(op, m, files, linked, m', files', linked')
    requires forall d, g :: d in m && g in m[d].kids ==> g in m
    ensures Shows(m', files', linked', Did(t, op))
  {
    match op
    case RootOp(n) => AddShows(m, m', files, files', linked, t, None, n, false);
    case AddOp(j, n) =>
      if j < |files| { AddShows(m, m', files, files', linked, t, Some(j), n, NameIn(m, files[j], n)); }
    case RenameOp(i, n) =>
      if i < |files| {
        assert ShowsAt(m, files, t, i);
        HasShown(m, files, linked, t, t.parents[i], n);
        if !Has(t, t.parents[i], n) { RenameShown(m, m', files, linked, t, i, n); }
      }
    case RemoveOp(i) =>
      if i < |linked| {
        var k :| Removed(m, m', linked[i], k);
        RemoveShown(m, m', files, linked, t, i, k);
      }
  }

  /** Some files, and those of them that are in directories. */
  class Tree {
    var files: seq<File>
    var linked: seq<File>

    ghost var all: set<File>

    ghost predicate Valid()
      reads this, all
    {
      && (forall f :: f in files ==> f in all) && (forall f :: f in all ==> f in files)
      && Forest(all) && LinkedIs(Snap(all), linked)
    }

    constructor ()
      ensures Valid() && files == [] && linked == [] && all == {}
      ensures Shows(Snap(all), files, linked, Shape([], [], [], []))
    {
      files, linked, all := [], [], {};
    }

    method NewFile() returns (f: File)
      requires Valid()
      modifies this`files, this`all
      ensures Valid() && fresh(f) && fresh(all - old(all)) && all == old(all) + {f} && !f.removed && Loose(f, all)
      ensures files == old(files) + [f] && Snap(all) == old(Snap(all))[f := Newborn(f)]
    {
      ghost var m := Snap(all);
      f := new File();
      files, all := files + [f], all + {f};
      OneMoreFile(m, f, f.Now());
      assert Snap(all) == m[f := f.Now()];
      LinkedStill(m, Snap(all), linked);
      forall d | d in all ensures f !in d.kids {
        if d != f { InOrder(old(all), d); }
      }
    }

    /** A new file, in directory j or a root. */
    method AddFile(dir: File?, n: string) returns (taken: bool)
      requires Valid() && (dir == null || dir in all)
      modifies this, all
      ensures Valid() && fresh(all - old(all)) && NewOne(old(files), files, old(Snap(all)))
      ensures var f := Last(files); Added(old(Snap(all))[f := Newborn(f)], Snap(all), f, dir, n, taken)
      ensures linked == if dir != null && !taken then old(linked) + [Last(files)] else old(linked)
    {
      var f := NewFile();
      taken := Place(f, dir, n);
    }

    method Place(f: File, dir: File?, n: string) returns (taken: bool)
      requires Valid() && f in all && (dir == null || dir in all) && f != dir && !f.removed && Loose(f, all)
      modifies this`linked, all
      ensures Valid() && Added(old(Snap(all)), Snap(all), f, dir, n, taken)
      ensures linked == if dir != null && !taken then old(linked) + [f] else old(linked)
    {
      ghost var m := Snap(all);
      taken := TryAdd(f, dir, n);
      ghost var m' := Snap(all);
      PutLinked(m, m', linked, f, dir, n, taken);
      if !taken && dir != null {
        label Placed:
        linked := linked + [f];
        assert forall g :: g in all ==> g.Now() == old@Placed(g.Now());
        assert Snap(all) == m';
      }
    }

    method TryAdd(f: File, dir: File?, n: string) returns (taken: bool)
      requires Forest(all) && f in all && (dir == null || dir in all) && f != dir && !f.removed && Loose(f, all)
      modifies all
      ensures Forest(all) && Added(old(Snap(all)), Snap(all), f, dir, n, taken)
    {
      ghost var m := Snap(all);
      if dir != null { InOrder(all, dir); }
      taken := f.Add(dir, n, all);
      forall g | g in all ensures PutAt(m, Snap(all), f, dir, n, taken, g) {}
    }

    method RenameFile(f: File, n: string) returns (taken: bool)
      requires Valid() && f in all
      modifies all
      ensures Valid() && taken == NameIn(old(Snap(all)), old(f.parent), n)
      ensures var m := old(Snap(all)); Snap(all) == if taken then m else m[f := m[f].(name := n)]
    {
      ghost var m := Snap(all);
      InOrder(all, f);
      InOrder(all, f.parent);
      taken := f.Rename(n, all);
      LinkedStill(m, Snap(all), linked);
    }

    method RemoveFile(i: nat) returns (ghost k: nat)
      requires Valid() && i < |linked|
      modifies this`linked, all
      ensures Valid() && linked == Without(old(linked), i) && Removed(old(Snap(all)), Snap(all), old(linked)[i], k)
    {
      var f, was := linked[i], linked;
      ghost var m := Snap(all);
      assert Held(m, f);
      linked := Without(linked, i);
      assert Snap(all) == m;
      k := TakeOut(f);
      LinkedLess(m, Snap(all), was, i, k);
    }

    method TakeOut(f: File) returns (ghost k: nat)
      requires Forest(all) && f in all && !f.removed && f in f.parent.kids
      modifies all
      ensures Forest(all) && Removed(old(Snap(all)), Snap(all), f, k)
    {
      ghost var m := Snap(all);
      InOrder(all, f);
      InOrder(all, f.parent);
      f.Remove(all);
      forall g | g in all ensures RemovedAt(m, Snap(all), f, g) {}
      k :| 0 <= k < |old(f.parent.kids)| && old(f.parent.kids)[k] == f &&
        f.parent.kids == Without(old(f.parent.kids), k);
    }

    /** One call; one that cannot be made is not. */
    method Do(op: Op)
      requires Valid()
      modifies this, all
      ensures Valid() && fresh(all - old(all))
      ensures Stepped(op, old(Snap(all)), old(files), old(linked), Snap(all), files, linked)
    {
      match op
      case RootOp(n) => var taken := AddFile(null, n);
      case AddOp(j, n) => if j < |files| { var taken := AddFile(files[j], n); }
      case RenameOp(i, n) => if i < |files| { var taken := RenameFile(files[i], n); }
      case RemoveOp(i) => if i < |linked| { ghost var k := RemoveFile(i); }
    }

    /**
     After any sequence of calls every directory is one sequence in both directions, and names, directories and their
     files are what the calls make of them.
     */
    method Run(ops: seq<Op>, ghost t: Shape)
      requires Valid() && Shows(Snap(all), files, linked, t)
      modifies this, all
      ensures Valid() && Shows(Snap(all), files, linked, DidAll(t, ops))
    {
      ghost var now := t;
      assert ops[0..] == ops;
      for i := 0 to |ops|
        invariant Valid() && fresh(all - old(all)) && Shows(Snap(all), files, linked, now)
        invariant DidAll(now, ops[i..]) == DidAll(t, ops)
      {
        assert ops[i..][1..] == ops[i + 1..] && ops[i..][0] == ops[i];
        ghost var m, fs, ls := Snap(all), files, linked;
        forall d | d in all ensures forall g :: g in d.kids ==> g in all { InOrder(all, d); }
        Do(ops[i]);
        StepShows(ops[i], m, fs, ls, Snap(all), files, linked, now);
        now := Did(now, ops[i]);
      }
    }
  }
}
