/**
 What a request does to the pool of fids when it is served alone: the counting of FidRefs, step by step,
 comes to what a table of fids without counts would do.
 */
module FidServed {
  import opened Common
  import opened FidRefs

  /** All requests are done. */
  ghost predicate Quiet(s: State) {
    OrderlyInv(s) && forall i :: 0 <= i < |s.reqs| ==> Finished(s.reqs[i])
  }

  /** Request i runs to its end, in at most n steps; valid and done are what the file server decides. */
  ghost function Serve(s: State, i: nat, valid: bool, done: bool, n: nat): State
    requires Typed(s) && i < |s.reqs|
    decreases n
  {
    if n == 0 || Finished(s.reqs[i]) then s
    else
      TypedStep(s, Turn(s, i, valid, done));
      Serve(Apply(s, Turn(s, i, valid, done)), i, valid, done, n - 1)
  }

  ghost function Turn(s: State, i: nat, valid: bool, done: bool): Step
    requires i < |s.reqs|
  {
    Run(i, if s.reqs[i].pc.Held? then valid else done)
  }

  /** The table: which numbers name which fids afterwards. */
  function PoolAfter(pool: map<No, F>, made: F, kind: Kind, valid: bool, done: bool): map<No, F> {
    match kind
    case Attach(n) => if n !in pool && done then pool[n := made] else pool
    case Walk(n, m) => if n in pool && valid && m !in pool && done then pool[m := made] else pool
    case Clunk(n) => if done then pool - {n} else pool
    case Remove(n) => pool - {n}
    case Use(_) => pool
  }

  lemma {:induction false} ServeKeeps(s: State, i: nat, valid: bool, done: bool, n: nat)
    requires OrderlyInv(s) && i < |s.reqs|
    ensures OrderlyInv(Serve(s, i, valid, done, n))
    decreases n
  {
    if n > 0 && !Finished(s.reqs[i]) {
      OrderlyStep(s, Turn(s, i, valid, done));
      ServeKeeps(Apply(s, Turn(s, i, valid, done)), i, valid, done, n - 1);
    }
  }

  ghost predicate KeptOrGone(s: State, f: F)
    requires f < |s.fids|
  {
    var fid := s.fids[f];
    if fid.no in s.pool && s.pool[fid.no] == f then fid == Fid(fid.no, 1, true, Live, 0)
    else fid.refcount == 0 && fid.destroyed == 1
  }

  /** A fid in a quiet pool is retained and counted once; the others are destroyed once. */
  lemma QuietFid(s: State, f: F)
    requires Quiet(s) && f < |s.fids|
    ensures KeptOrGone(s, f)
  {
    assert Sound(s, f);
    SumZero(References, s.reqs, f);
    SumZero(Removals, s.reqs, f);
  }

  /** The state while the one request that runs is at pc, with pool and fids as given. */
  function At(s: State, kind: Kind, pool: map<No, F>, fids: seq<Fid>, pc: Pc): State {
    State(pool, fids, s.reqs + [Req(kind, pc)])
  }

  lemma Moved(s: State, kind: Kind, pool: map<No, F>, fids: seq<Fid>, pc: Pc, pc': Pc)
    ensures Go(At(s, kind, pool, fids, pc), |s.reqs|, pc') == At(s, kind, pool, fids, pc')
  {
    var a := At(s, kind, pool, fids, pc);
    assert a.reqs[|s.reqs| := Req(kind, pc')] == s.reqs + [Req(kind, pc')];
  }

  /** One step on the way. */
  lemma Once(a: State, b: State, i: nat, valid: bool, done: bool, n: nat)
    requires Typed(a) && i < |a.reqs| && !Finished(a.reqs[i]) && n > 0
    requires Advance(a, i, if a.reqs[i].pc.Held? then valid else done) == b
    ensures Typed(b) && |b.reqs| == |a.reqs| && Serve(a, i, valid, done, n) == Serve(b, i, valid, done, n - 1)
  {
    TypedStep(a, Turn(a, i, valid, done));
  }

  function Counted(fid: Fid, n: int): Fid {
    fid.(refcount := n)
  }

  /** The request goes from pc to pc', and pool and fids from one to the other. */
  ghost predicate Goes(s: State, kind: Kind, pool: map<No, F>, fids: seq<Fid>, pc: Pc, pool': map<No, F>,
                       fids': seq<Fid>, pc': Pc, ok: bool) {
    var a := At(s, kind, pool, fids, pc);
    && Typed(a) && !Finished(a.reqs[|s.reqs|])
    && Advance(a, |s.reqs|, ok) == At(s, kind, pool', fids', pc')
  }

  /** Giving up one of several references. */
  lemma GivesUp(s: State, kind: Kind, pool: map<No, F>, fids: seq<Fid>, f: F, rest: seq<Action>, ok: bool)
    requires f < |fids| && fids[f].refcount > 1 && Typed(At(s, kind, pool, fids, Doing([Dec(f)] + rest)))
    ensures Goes(s, kind, pool, fids, Doing([Dec(f)] + rest), pool, fids[f := Counted(fids[f], fids[f].refcount - 1)],
                 Doing(rest), ok)
  {
    var todo := [Dec(f)] + rest;
    assert todo[1..] == rest;
    Moved(s, kind, pool, fids[f := Counted(fids[f], fids[f].refcount - 1)], Doing(todo), Doing(rest));
  }

  lemma Releases(s: State, kind: Kind, pool: map<No, F>, fids: seq<Fid>, f: F, rest: seq<Action>, ok: bool)
    requires f < |fids| && fids[f].refcount > 1 && Typed(At(s, kind, pool, fids, Doing([Rel(f)] + rest)))
    ensures Goes(s, kind, pool, fids, Doing([Rel(f)] + rest), pool,
                 fids[f := Counted(fids[f], fids[f].refcount - 1).(retained := false)], Doing(rest), ok)
  {
    var todo := [Rel(f)] + rest;
    assert todo[1..] == rest;
    Moved(s, kind, pool, fids[f := Counted(fids[f], fids[f].refcount - 1).(retained := false)], Doing(todo),
          Doing(rest));
  }

  lemma Retains(s: State, kind: Kind, pool: map<No, F>, fids: seq<Fid>, f: F, rest: seq<Action>, ok: bool)
    requires f < |fids| && Typed(At(s, kind, pool, fids, Doing([Inc(f)] + rest)))
    ensures Goes(s, kind, pool, fids, Doing([Inc(f)] + rest), pool,
                 fids[f := Counted(fids[f], fids[f].refcount + 1).(retained := true)], Doing(rest), ok)
  {
    var todo := [Inc(f)] + rest;
    assert todo[1..] == rest;
    Moved(s, kind, pool, fids[f := Counted(fids[f], fids[f].refcount + 1).(retained := true)], Doing(todo),
          Doing(rest));
  }

  /** Giving up the last reference, in two steps. */
  lemma Dies(s: State, kind: Kind, pool: map<No, F>, fids: seq<Fid>, f: F, rest: seq<Action>, ok: bool)
    requires f < |fids| && fids[f].refcount == 1 && Typed(At(s, kind, pool, fids, Doing([Dec(f)] + rest)))
    ensures Goes(s, kind, pool, fids, Doing([Dec(f)] + rest), pool,
                 fids[f := Counted(fids[f], 0).(stage := Dying)], Doing([Drop(f)] + rest), ok)
  {
    var todo := [Dec(f)] + rest;
    assert todo[1..] == rest;
    Moved(s, kind, pool, fids[f := Counted(fids[f], 0).(stage := Dying)], Doing(todo), Doing([Drop(f)] + rest));
  }

  lemma Drops(s: State, kind: Kind, pool: map<No, F>, fids: seq<Fid>, f: F, rest: seq<Action>, ok: bool)
    requires f < |fids| && Typed(At(s, kind, pool, fids, Doing([Drop(f)] + rest)))
    ensures Goes(s, kind, pool, fids, Doing([Drop(f)] + rest), pool - {fids[f].no},
                 fids[f := fids[f].(stage := Dead, destroyed := fids[f].destroyed + 1)], Doing(rest), ok)
  {
    var todo := [Drop(f)] + rest;
    assert todo[1..] == rest;
    Moved(s, kind, pool - {fids[f].no}, fids[f := fids[f].(stage := Dead, destroyed := fids[f].destroyed + 1)],
          Doing(todo), Doing(rest));
  }

  /** A step of Serve. */
  lemma Follow(s: State, kind: Kind, pool: map<No, F>, fids: seq<Fid>, pc: Pc, pool': map<No, F>, fids': seq<Fid>,
               pc': Pc, valid: bool, done: bool, n: nat)
    requires Goes(s, kind, pool, fids, pc, pool', fids', pc', if pc.Held? then valid else done) && n > 0
    ensures Typed(At(s, kind, pool', fids', pc'))
    ensures Serve(At(s, kind, pool, fids, pc), |s.reqs|, valid, done, n) ==
            Serve(At(s, kind, pool', fids', pc'), |s.reqs|, valid, done, n - 1)
  {
    Once(At(s, kind, pool, fids, pc), At(s, kind, pool', fids', pc'), |s.reqs|, valid, done, n);
  }

  /** Serving from here ends with this pool. */
  ghost predicate Ends(s: State, kind: Kind, pool: map<No, F>, fids: seq<Fid>, pc: Pc, valid: bool, done: bool, n: nat,
                       end: map<No, F>) {
    var a := At(s, kind, pool, fids, pc);
    Typed(a) &&
    var r := Serve(a, |s.reqs|, valid, done, n);
    |r.reqs| == |a.reqs| && Finished(r.reqs[|s.reqs|]) && r.pool == end
  }

  /** The rest of a request that only gives up its fid. */
  lemma EndsHolding(s: State, kind: Kind, pool: map<No, F>, fids: seq<Fid>, f: F, valid: bool, done: bool, n: nat)
    requires f < |fids| && fids[f].refcount > 1 && n > 0
    requires Typed(At(s, kind, pool, fids, Doing([Dec(f)])))
    ensures Ends(s, kind, pool, fids, Doing([Dec(f)]), valid, done, n, pool)
  {
    assert [Dec(f)] + [] == [Dec(f)];
    GivesUp(s, kind, pool, fids, f, [], done);
    Follow(s, kind, pool, fids, Doing([Dec(f)]), pool, fids[f := Counted(fids[f], fids[f].refcount - 1)], Doing([]),
           valid, done, n);
  }

  /** The rest of a request that gives up the last reference to its fid. */
  lemma EndsDying(s: State, kind: Kind, pool: map<No, F>, fids: seq<Fid>, f: F, valid: bool, done: bool, n: nat)
    requires f < |fids| && fids[f].refcount == 1 && n > 1
    requires Typed(At(s, kind, pool, fids, Doing([Dec(f)])))
    ensures Ends(s, kind, pool, fids, Doing([Dec(f)]), valid, done, n, pool - {fids[f].no})
  {
    assert [Dec(f)] + [] == [Dec(f)] && [Drop(f)] + [] == [Drop(f)];
    var fids1 := fids[f := Counted(fids[f], 0).(stage := Dying)];
    Dies(s, kind, pool, fids, f, [], done);
    Follow(s, kind, pool, fids, Doing([Dec(f)]), pool, fids1, Doing([Drop(f)]), valid, done, n);
    Drops(s, kind, pool, fids1, f, [], done);
    Follow(s, kind, pool, fids1, Doing([Drop(f)]), pool - {fids[f].no},
           fids1[f := fids1[f].(stage := Dead, destroyed := fids1[f].destroyed + 1)], Doing([]), valid, done, n - 1);
  }

  /** The rest of a Tclunk that succeeded, or of a Tremove. */
  lemma EndsReleasing(s: State, kind: Kind, pool: map<No, F>, fids: seq<Fid>, f: F, valid: bool, done: bool, n: nat)
    requires f < |fids| && fids[f].refcount == 2 && n > 2
    requires Typed(At(s, kind, pool, fids, Doing([Rel(f), Dec(f)])))
    ensures Ends(s, kind, pool, fids, Doing([Rel(f), Dec(f)]), valid, done, n, pool - {fids[f].no})
  {
    assert [Rel(f)] + [Dec(f)] == [Rel(f), Dec(f)];
    var fids1 := fids[f := Counted(fids[f], 1).(retained := false)];
    Releases(s, kind, pool, fids, f, [Dec(f)], done);
    Follow(s, kind, pool, fids, Doing([Rel(f), Dec(f)]), pool, fids1, Doing([Dec(f)]), valid, done, n);
    EndsDying(s, kind, pool, fids1, f, valid, done, n - 1);
  }

  /** The rest of a request that retains the fid it made. */
  lemma EndsRetaining(s: State, kind: Kind, pool: map<No, F>, fids: seq<Fid>, f: F, valid: bool, done: bool, n: nat)
    requires f < |fids| && fids[f].refcount == 1 && n > 1
    requires Typed(At(s, kind, pool, fids, Doing([Inc(f), Dec(f)])))
    ensures Ends(s, kind, pool, fids, Doing([Inc(f), Dec(f)]), valid, done, n, pool)
  {
    assert [Inc(f)] + [Dec(f)] == [Inc(f), Dec(f)];
    var fids1 := fids[f := Counted(fids[f], 2).(retained := true)];
    Retains(s, kind, pool, fids, f, [Dec(f)], done);
    Follow(s, kind, pool, fids, Doing([Inc(f), Dec(f)]), pool, fids1, Doing([Dec(f)]), valid, done, n);
    EndsHolding(s, kind, pool, fids1, f, valid, done, n - 1);
  }

  /* ---- each kind of request, from its arrival ---- */

  ghost predicate Served(s: State, kind: Kind, valid: bool, done: bool, n: nat) {
    Ends(s, kind, s.pool, s.fids, Start, valid, done, n, PoolAfter(s.pool, |s.fids|, kind, valid, done))
  }

  lemma AttachServed(s: State, no: No, valid: bool, done: bool)
    requires Quiet(s)
    ensures Served(s, Attach(no), valid, done, 8)
  {
    var kind := Attach(no);
    assert Typed(At(s, kind, s.pool, s.fids, Start));
    if no in s.pool {
      Moved(s, kind, s.pool, s.fids, Start, Doing([]));
      Follow(s, kind, s.pool, s.fids, Start, s.pool, s.fids, Doing([]), valid, done, 8);
    } else {
      var f := |s.fids|;
      var pool, fids := s.pool[no := f], s.fids + [Fid(no, 1, false, Live, 0)];
      Moved(s, kind, pool, fids, Start, Working(f, None));
      Follow(s, kind, s.pool, s.fids, Start, pool, fids, Working(f, None), valid, done, 8);
      var todo := if done then [Inc(f), Dec(f)] else [Dec(f)];
      Moved(s, kind, pool, fids, Working(f, None), Doing(todo));
      Follow(s, kind, pool, fids, Working(f, None), pool, fids, Doing(todo), valid, done, 7);
      if done {
        EndsRetaining(s, kind, pool, fids, f, valid, done, 6);
      } else {
        EndsDying(s, kind, pool, fids, f, valid, done, 6);
        assert pool - {no} == s.pool;
      }
    }
  }

  /** The fid is not there. */
  lemma UnknownServed(s: State, kind: Kind, valid: bool, done: bool)
    requires Quiet(s) && !kind.Attach? && kind.fid !in s.pool
    ensures Served(s, kind, valid, done, 8)
  {
    assert Typed(At(s, kind, s.pool, s.fids, Start));
    Moved(s, kind, s.pool, s.fids, Start, Doing([]));
    Follow(s, kind, s.pool, s.fids, Start, s.pool, s.fids, Doing([]), valid, done, 8);
  }

  /** FidGet: the fid is found and counted. */
  lemma Gets(s: State, kind: Kind, valid: bool, done: bool, pc: Pc)
    requires Quiet(s) && !kind.Attach? && kind.fid in s.pool
    requires pc == if kind.Walk? then Held(s.pool[kind.fid]) else Working(s.pool[kind.fid], None)
    ensures var f := s.pool[kind.fid];
            && f < |s.fids| && s.fids[f] == Fid(kind.fid, 1, true, Live, 0)
            && Typed(At(s, kind, s.pool, s.fids[f := Counted(s.fids[f], 2)], pc))
            && Serve(At(s, kind, s.pool, s.fids, Start), |s.reqs|, valid, done, 8) ==
               Serve(At(s, kind, s.pool, s.fids[f := Counted(s.fids[f], 2)], pc), |s.reqs|, valid, done, 6)
  {
    var f := s.pool[kind.fid];
    assert Sound(s, f);
    QuietFid(s, f);
    var fids := s.fids[f := Counted(s.fids[f], 2)];
    assert Typed(At(s, kind, s.pool, s.fids, Start));
    Moved(s, kind, s.pool, s.fids, Start, Looked(f));
    Follow(s, kind, s.pool, s.fids, Start, s.pool, s.fids, Looked(f), valid, done, 8);
    Moved(s, kind, s.pool, fids, Looked(f), pc);
    Follow(s, kind, s.pool, s.fids, Looked(f), s.pool, fids, pc, valid, done, 7);
  }

  lemma PlainServed(s: State, kind: Kind, valid: bool, done: bool)
    requires Quiet(s) && !kind.Attach? && !kind.Walk? && kind.fid in s.pool
    ensures Served(s, kind, valid, done, 8)
  {
    var f := s.pool[kind.fid];
    var pc := Working(f, None);
    Gets(s, kind, valid, done, pc);
    var fids := s.fids[f := Counted(s.fids[f], 2)];
    var release := kind.Remove? || (kind.Clunk? && done);
    var todo := if release then [Rel(f), Dec(f)] else [Dec(f)];
    Moved(s, kind, s.pool, fids, pc, Doing(todo));
    Follow(s, kind, s.pool, fids, pc, s.pool, fids, Doing(todo), valid, done, 6);
    if release {
      EndsReleasing(s, kind, s.pool, fids, f, valid, done, 5);
    } else {
      EndsHolding(s, kind, s.pool, fids, f, valid, done, 5);
    }
  }

  /** A Twalk that gets no new fid, or goes back to its own. */
  lemma WalkInPlace(s: State, kind: Kind, valid: bool, done: bool)
    requires Quiet(s) && kind.Walk? && kind.fid in s.pool && (!valid || kind.newfid in s.pool)
    ensures Served(s, kind, valid, done, 8)
  {
    var f := s.pool[kind.fid];
    Gets(s, kind, valid, done, Held(f));
    var fids := s.fids[f := Counted(s.fids[f], 2)];
    if valid && kind.newfid == kind.fid {
      var fids1 := fids[f := Counted(fids[f], 3)];
      Moved(s, kind, s.pool, fids1, Held(f), Working(f, Some(f)));
      Follow(s, kind, s.pool, fids, Held(f), s.pool, fids1, Working(f, Some(f)), valid, done, 6);
      Moved(s, kind, s.pool, fids1, Working(f, Some(f)), Doing([Dec(f), Dec(f)]));
      Follow(s, kind, s.pool, fids1, Working(f, Some(f)), s.pool, fids1, Doing([Dec(f), Dec(f)]), valid, done, 5);
      assert [Dec(f)] + [Dec(f)] == [Dec(f), Dec(f)];
      GivesUp(s, kind, s.pool, fids1, f, [Dec(f)], done);
      Follow(s, kind, s.pool, fids1, Doing([Dec(f), Dec(f)]), s.pool, fids1[f := Counted(fids1[f], 2)], Doing([Dec(f)]),
             valid, done, 4);
      EndsHolding(s, kind, s.pool, fids1[f := Counted(fids1[f], 2)], f, valid, done, 3);
    } else {
      Moved(s, kind, s.pool, fids, Held(f), Doing([Dec(f)]));
      Follow(s, kind, s.pool, fids, Held(f), s.pool, fids, Doing([Dec(f)]), valid, done, 6);
      EndsHolding(s, kind, s.pool, fids, f, valid, done, 5);
    }
  }

  /** FidNew, and the outcome of the walk. */
  lemma WalkMakes(s: State, kind: Kind, fids: seq<Fid>, f: F, pool: map<No, F>, fids1: seq<Fid>, todo: seq<Action>,
                  done: bool)
    requires kind.Walk? && kind.newfid != kind.fid && kind.newfid !in s.pool && f < |fids| && fids[f].no == kind.fid
    requires Typed(At(s, kind, s.pool, fids, Held(f)))
    requires pool == s.pool[kind.newfid := |fids|] && fids1 == fids + [Fid(kind.newfid, 1, false, Live, 0)]
    requires todo == if done then [Inc(|fids|), Dec(f), Dec(|fids|)] else [Dec(f), Dec(|fids|)]
    ensures Typed(At(s, kind, pool, fids1, Doing(todo)))
    ensures Serve(At(s, kind, s.pool, fids, Held(f)), |s.reqs|, true, done, 6) ==
            Serve(At(s, kind, pool, fids1, Doing(todo)), |s.reqs|, true, done, 4)
  {
    var at := Working(f, Some(|fids|));
    Moved(s, kind, pool, fids1, Held(f), at);
    Follow(s, kind, s.pool, fids, Held(f), pool, fids1, at, true, done, 6);
    Moved(s, kind, pool, fids1, at, Doing(todo));
    Follow(s, kind, pool, fids1, at, pool, fids1, Doing(todo), true, done, 5);
  }

  /** A Twalk that made its new fid. */
  lemma WalkEnds(s: State, kind: Kind, fids: seq<Fid>, f: F, pool: map<No, F>, fids1: seq<Fid>, todo: seq<Action>,
                 done: bool)
    requires kind.Walk? && kind.newfid !in s.pool && f < |fids| && fids[f].refcount == 2
    requires pool == s.pool[kind.newfid := |fids|] && fids1 == fids + [Fid(kind.newfid, 1, false, Live, 0)]
    requires todo == if done then [Inc(|fids|), Dec(f), Dec(|fids|)] else [Dec(f), Dec(|fids|)]
    requires Typed(At(s, kind, pool, fids1, Doing(todo)))
    ensures Ends(s, kind, pool, fids1, Doing(todo), true, done, 4, if done then pool else s.pool)
  {
    if done {
      WalkRetains(s, kind, pool, fids1, f, |fids|);
    } else {
      WalkDrops(s, kind, pool, fids1, f, |fids|);
      assert pool - {kind.newfid} == s.pool;
    }
  }

  /** A Twalk to a new fid. */
  lemma WalkToNew(s: State, kind: Kind, done: bool)
    requires Quiet(s) && kind.Walk? && kind.fid in s.pool && kind.newfid !in s.pool
    ensures Served(s, kind, true, done, 8)
  {
    var f, g := s.pool[kind.fid], |s.fids|;
    Gets(s, kind, true, done, Held(f));
    var fids := s.fids[f := Counted(s.fids[f], 2)];
    var pool, fids1 := s.pool[kind.newfid := g], fids + [Fid(kind.newfid, 1, false, Live, 0)];
    var todo := if done then [Inc(g), Dec(f), Dec(g)] else [Dec(f), Dec(g)];
    WalkMakes(s, kind, fids, f, pool, fids1, todo, done);
    WalkEnds(s, kind, fids, f, pool, fids1, todo, done);
  }

  lemma WalkRetains(s: State, kind: Kind, pool: map<No, F>, fids: seq<Fid>, f: F, g: F)
    requires f < |fids| && g < |fids| && f != g && fids[f].refcount == 2 && fids[g].refcount == 1
    requires Typed(At(s, kind, pool, fids, Doing([Inc(g), Dec(f), Dec(g)])))
    ensures Ends(s, kind, pool, fids, Doing([Inc(g), Dec(f), Dec(g)]), true, true, 4, pool)
  {
    var todo := [Inc(g), Dec(f), Dec(g)];
    assert [Inc(g)] + [Dec(f), Dec(g)] == todo && [Dec(f)] + [Dec(g)] == [Dec(f), Dec(g)];
    var fids1 := fids[g := Counted(fids[g], 2).(retained := true)];
    Retains(s, kind, pool, fids, g, [Dec(f), Dec(g)], true);
    Follow(s, kind, pool, fids, Doing(todo), pool, fids1, Doing([Dec(f), Dec(g)]), true, true, 4);
    var fids2 := fids1[f := Counted(fids1[f], 1)];
    GivesUp(s, kind, pool, fids1, f, [Dec(g)], true);
    Follow(s, kind, pool, fids1, Doing([Dec(f), Dec(g)]), pool, fids2, Doing([Dec(g)]), true, true, 3);
    EndsHolding(s, kind, pool, fids2, g, true, true, 2);
  }

  lemma WalkDrops(s: State, kind: Kind, pool: map<No, F>, fids: seq<Fid>, f: F, g: F)
    requires f < |fids| && g < |fids| && f != g && fids[f].refcount == 2 && fids[g].refcount == 1
    requires Typed(At(s, kind, pool, fids, Doing([Dec(f), Dec(g)])))
    ensures Ends(s, kind, pool, fids, Doing([Dec(f), Dec(g)]), true, false, 4, pool - {fids[g].no})
  {
    assert [Dec(f)] + [Dec(g)] == [Dec(f), Dec(g)];
    var fids1 := fids[f := Counted(fids[f], 1)];
    GivesUp(s, kind, pool, fids, f, [Dec(g)], false);
    Follow(s, kind, pool, fids, Doing([Dec(f), Dec(g)]), pool, fids1, Doing([Dec(g)]), true, false, 4);
    EndsDying(s, kind, pool, fids1, g, true, false, 3);
  }

  /**
   A request served alone ends, leaves the pool as the table says, with every fid in it retained and
   counted once, and every other fid destroyed once.
   */
  lemma ServedAlone(s: State, kind: Kind, valid: bool, done: bool)
    requires Quiet(s)
    ensures Typed(Apply(s, Arrive(kind)))
    ensures var s' := Serve(Apply(s, Arrive(kind)), |s.reqs|, valid, done, 8);
            && Quiet(s') && s'.pool == PoolAfter(s.pool, |s.fids|, kind, valid, done)
            && forall f :: 0 <= f < |s'.fids| ==> KeptOrGone(s', f)
  {
    var a := At(s, kind, s.pool, s.fids, Start);
    assert a == Apply(s, Arrive(kind));
    OrderlyStep(s, Arrive(kind));
    ServeKeeps(a, |s.reqs|, valid, done, 8);
    OthersRest(a, |s.reqs|, valid, done, 8);
    if kind.Attach? {
      AttachServed(s, kind.fid, valid, done);
    } else if kind.fid !in s.pool {
      UnknownServed(s, kind, valid, done);
      assert s.pool - {kind.fid} == s.pool;
    } else if !kind.Walk? {
      PlainServed(s, kind, valid, done);
    } else if valid && kind.newfid !in s.pool {
      WalkToNew(s, kind, done);
    } else {
      WalkInPlace(s, kind, valid, done);
    }
    var s' := Serve(a, |s.reqs|, valid, done, 8);
    forall f | 0 <= f < |s'.fids| ensures KeptOrGone(s', f) { QuietFid(s', f); }
  }

  lemma {:induction false} OthersRest(s: State, i: nat, valid: bool, done: bool, n: nat)
    requires Typed(s) && i < |s.reqs|
    ensures var s' := Serve(s, i, valid, done, n);
            |s'.reqs| == |s.reqs| && forall j :: 0 <= j < |s.reqs| && j != i ==> s'.reqs[j] == s.reqs[j]
    decreases n
  {
    if n > 0 && !Finished(s.reqs[i]) {
      TypedStep(s, Turn(s, i, valid, done));
      assert TypedPc(|s.fids|, s.reqs[i].pc);
      OthersRest(Apply(s, Turn(s, i, valid, done)), i, valid, done, n - 1);
    }
  }
}
