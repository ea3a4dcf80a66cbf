/**
 Any number of files of the memory server (p/srv/examples/ramfs/ramfs.go) sharing one channel of recycled
 blocks, in any sequence of creations, reads, writes and truncations.
 */
module RamTree {
  import opened Common
  import opened RamFile

  /** Files are numbered as they are created; an operation on a number that is not there does nothing. */
  datatype Op =
    | CreateOp
    | ReadOp(file: nat, count: nat, offset: nat)
    | WriteOp(file: nat, buf: seq<byte>, offset: nat)
    | TruncOp(file: nat, size: nat)

  /** What the files are to their users: flat arrays of bytes. */
  type Flats = seq<seq<byte>>

  function Do(m: Flats, op: Op): Flats {
    match op
    case CreateOp => m + [[]]
    case ReadOp(_, _, _) => m
    case WriteOp(i, buf, offset) => if i < |m| then m[i := Overlay(m[i], buf, offset)] else m
    case TruncOp(i, size) => if i < |m| then m[i := Resize(m[i], size)] else m
  }

  /** What a read of a flat file gives. */
  function ReadOf(flat: seq<byte>, count: nat, offset: nat): seq<byte> {
    if offset > |flat| then [] else flat[offset..offset + Min(count, |flat| - offset)]
  }

  function Gives(m: Flats, op: Op): Option<seq<byte>> {
    if op.ReadOp? && op.file < |m| then Some(ReadOf(m[op.file], op.count, op.offset)) else None
  }

  function DoAll(m: Flats, ops: seq<Op>): Flats
    decreases |ops|
  {
    if ops == [] then m else DoAll(Do(m, ops[0]), ops[1..])
  }

  /** What all reads give. */
  function Reads(m: Flats, ops: seq<Op>): seq<seq<byte>>
    decreases |ops|
  {
    if ops == [] then []
    else
      var rest := Reads(Do(m, ops[0]), ops[1..]);
      match Gives(m, ops[0]) case Some(data) => [data] + rest case None => rest
  }

  /** What has been written is read back, by this file and by no other; so is what was there before, around it. */
  lemma ReadsBack(m: Flats, i: nat, buf: seq<byte>, offset: nat, j: nat, count: nat, at: nat)
    requires i < |m| && j < |m|
    ensures var m' := Do(m, WriteOp(i, buf, offset));
            && Gives(m', ReadOp(i, |buf|, offset)) == Some(buf)
            && (j != i || (at + count <= offset <= |m[i]|) ==>
                  Gives(m', ReadOp(j, count, at)) == Gives(m, ReadOp(j, count, at)))
  {
    var flat := Overlay(m[i], buf, offset);
    assert flat[offset..offset + |buf|] == buf;
    if j == i && at + count <= offset <= |m[i]| { assert flat[at..at + count] == m[i][at..at + count]; }
  }

  /** A new file is one more, and empty; a file cut is read as far as it was left. */
  lemma NewAndCut(m: Flats, i: nat, size: nat, count: nat, at: nat)
    requires i < |m|
    ensures |Do(m, CreateOp)| == |m| + 1 && Gives(Do(m, CreateOp), ReadOp(|m|, count, at)) == Some([])
    ensures Gives(Do(m, CreateOp), ReadOp(i, count, at)) == Gives(m, ReadOp(i, count, at))
    ensures size <= |m[i]| ==> Gives(Do(m, TruncOp(i, size)), ReadOp(i, |m[i]|, 0)) == Some(m[i][..size])
    ensures size >= |m[i]| ==> Gives(Do(m, TruncOp(i, size)), ReadOp(i, size, 0)) ==
                               Some(m[i] + Zeros(size - |m[i]|))
  {
    var flat := Resize(m[i], size);
    assert flat[0..|flat|] == flat && m[i] + Zeros(0) == m[i] && m[i][..|m[i]|] == m[i];
  }

  /** The files show their flat contents. */
  ghost predicate Represents(fs: Ramfs, files: seq<RFile>, m: Flats)
    requires fs.Shape()
    reads fs, fs.zero, fs.files, fs.owner.Keys
  {
    && |files| == |m| && Distinct(files) && (forall f :: f in fs.files ==> f in files)
    && (forall i {:trigger files[i]} :: 0 <= i < |files| ==> files[i] in fs.files)
    && forall i {:trigger RepresentsAt(fs, files[i], m[i])} :: 0 <= i < |files| ==> RepresentsAt(fs, files[i], m[i])
  }

  ghost predicate RepresentsAt(fs: Ramfs, f: RFile, flat: seq<byte>)
    requires fs.Shape() && f in fs.files
    reads fs, fs.zero, fs.files, fs.owner.Keys
  {
    f.Shown(fs) && f.Tidy(fs.blksz) && f.Flat(fs.blksz) == flat && f.Length <= MAXLEN
  }

  /** Counts of 32 bits, and ends that a slice can have. */
  predicate Allowed(op: Op) {
    match op
    case CreateOp => true
    case ReadOp(_, count, offset) => count < TWO32 && offset < TWO64
    case WriteOp(_, buf, offset) => offset + |buf| <= MAXLEN
    case TruncOp(_, size) => size <= MAXLEN
  }

  method Change(fs: Ramfs, files: seq<RFile>, op: Op, ghost m: Flats)
    requires fs.Shape() && Represents(fs, files, m) && Allowed(op) && (op.WriteOp? || op.TruncOp?) && op.file < |files|
    modifies files[op.file], fs, fs.owner.Keys
    ensures fs.Shape() && fs.files == old(fs.files) && Represents(fs, files, Do(m, op))
    ensures forall x :: x in fs.owner && x !in old(fs.owner) ==> fresh(x)
  {
    var f := files[op.file];
    assert RepresentsAt(fs, f, m[op.file]);
    match op {
      case WriteOp(_, buf, offset) => var n := f.Write(fs, buf, offset);
      case TruncOp(_, size) => f.trunc(fs, size);
    }
    assert RepresentsAt(fs, f, Do(m, op)[op.file]);
    forall i | 0 <= i < |files| && i != op.file ensures RepresentsAt(fs, files[i], Do(m, op)[i]) {
      assert old(RepresentsAt(fs, files[i], m[i])) && files[i] != f;
      forall k | 0 <= k < |files[i].data| ensures files[i].ShownAt(fs, k) { assert old(files[i].ShownAt(fs, k)); }
    }
  }

  method Fetch(fs: Ramfs, files: seq<RFile>, i: nat, count: nat, offset: nat, ghost m: Flats) returns (data: seq<byte>)
    requires fs.Shape() && Represents(fs, files, m) && i < |files| && count < TWO32 && offset < TWO64
    ensures data == ReadOf(m[i], count, offset)
    ensures fs.Shape() && Represents(fs, files, m)
  {
    assert RepresentsAt(fs, files[i], m[i]);
    var buf := new byte[count](_ => 0);
    var n := files[i].Read(fs, buf, offset);
    data := buf[..n];
    forall j | 0 <= j < |files| ensures RepresentsAt(fs, files[j], m[j]) {
      assert old(RepresentsAt(fs, files[j], m[j]));
      forall k | 0 <= k < |files[j].data| ensures files[j].ShownAt(fs, k) { assert old(files[j].ShownAt(fs, k)); }
    }
  }

  /** A new file is empty and disturbs no other. */
  method Create(fs: Ramfs, files: seq<RFile>, ghost m: Flats) returns (f: RFile)
    requires fs.Shape() && Represents(fs, files, m)
    modifies fs
    ensures fs.Shape() && fresh(f) && fs.files == old(fs.files) + {f} && Represents(fs, files + [f], m + [[]])
    ensures fs.owner == old(fs.owner)
  {
    f := Join(fs);
    var all := files + [f];
    forall i | 0 <= i < |all| ensures RepresentsAt(fs, all[i], (m + [[]])[i]) {
      if i < |files| {
        assert old(RepresentsAt(fs, files[i], m[i]));
        forall k | 0 <= k < |files[i].data| ensures files[i].ShownAt(fs, k) { assert old(files[i].ShownAt(fs, k)); }
      }
    }
  }

  method Join(fs: Ramfs) returns (f: RFile)
    requires fs.Shape()
    modifies fs`files
    ensures fs.Shape() && fresh(f) && fs.files == old(fs.files) + {f} && RepresentsAt(fs, f, [])
  {
    f := new RFile();
    fs.files := fs.files + {f};
    assert BlockCount(0, fs.blksz) == 0 by { BlockCountCovers(0, fs.blksz); }
    forall g | g in fs.files ensures g.Shape(fs) { assert g != f ==> old(g.Shape(fs)); }
  }

  /** One operation; files gets longer if it creates one. */
  method Serve(fs: Ramfs, files: seq<RFile>, op: Op, ghost m: Flats) returns (data: Option<seq<byte>>, all: seq<RFile>)
    requires fs.Shape() && Represents(fs, files, m) && Allowed(op)
    modifies fs, fs.files, fs.owner.Keys
    ensures fs.Shape() && Represents(fs, all, Do(m, op)) && data == Gives(m, op)
    ensures forall f :: f in fs.files && f !in old(fs.files) ==> fresh(f)
    ensures forall x :: x in fs.owner && x !in old(fs.owner) ==> fresh(x)
  {
    data, all := None, files;
    if op.CreateOp? {
      var f := Create(fs, files, m);
      all := files + [f];
    } else if op.file < |files| {
      if op.ReadOp? {
        var bytes := Fetch(fs, files, op.file, op.count, op.offset, m);
        data := Some(bytes);
      } else {
        Change(fs, files, op, m);
      }
    }
  }

  /** One step of a run, in the model. */
  lemma Next(now: Flats, ops: seq<Op>, i: nat, read: seq<seq<byte>>)
    requires i < |ops|
    ensures DoAll(now, ops[i..]) == DoAll(Do(now, ops[i]), ops[i + 1..])
    ensures read + Reads(now, ops[i..]) ==
            match Gives(now, ops[i])
            case Some(data) => read + [data] + Reads(Do(now, ops[i]), ops[i + 1..])
            case None => read + Reads(Do(now, ops[i]), ops[i + 1..])
  {
    assert ops[i..][1..] == ops[i + 1..] && ops[i..][0] == ops[i];
  }

  /** Over any run the files are flat arrays, and every read gives what such an array would. */
  method Run(fs: Ramfs, ops: seq<Op>, files: seq<RFile>, ghost m: Flats) returns (read: seq<seq<byte>>, all: seq<RFile>)
    requires fs.Shape() && Represents(fs, files, m) && forall i :: 0 <= i < |ops| ==> Allowed(ops[i])
    modifies fs, fs.files, fs.owner.Keys
    ensures fs.Shape() && Represents(fs, all, DoAll(m, ops)) && read == Reads(m, ops)
  {
    read, all := [], files;
    ghost var now := m;
    assert ops[0..] == ops;
    for i := 0 to |ops|
      invariant fs.Shape() && Represents(fs, all, now)
      invariant forall f :: f in fs.files && f !in old(fs.files) ==> fresh(f)
      invariant forall x :: x in fs.owner && x !in old(fs.owner) ==> fresh(x)
      invariant DoAll(now, ops[i..]) == DoAll(m, ops) && read + Reads(now, ops[i..]) == Reads(m, ops)
    {
      Next(now, ops, i, read);
      var data;
      data, all := Serve(fs, all, ops[i], now);
      if data.Some? {
        read := read + [data.value];
      }
      now := Do(now, ops[i]);
    }
    assert read + [] == read;
  }
}
