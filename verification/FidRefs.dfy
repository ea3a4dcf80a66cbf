/**
 Reference counts of fids: FidGet, FidNew, IncRef and DecRef of p/srv/srv.go, and the handlers of
 p/srv/srv.go and p/srv/fcall.go that hold, retain and release fids.

 Each step is one critical section, so FidGet is two steps (the lookup and the count) and the last
 DecRef of a fid is two (the count, then the removal and FidDestroy).
 */
module FidRefs {
  import opened Common

  type F = nat       // a Fid object
  type No = nat      // a fid number

  datatype Kind =
    | Attach(fid: No)              // Tattach without afid, or Tauth
    | Walk(fid: No, newfid: No)
    | Clunk(fid: No)
    | Remove(fid: No)
    | Use(fid: No)                 // Topen, Tcreate, Tread, Twrite, Tstat, Twstat

  datatype Stage = Live | Dying | Dead

  /** refcount is the field of the source; the rest records what happened. */
  datatype Fid = Fid(no: No, refcount: int, retained: bool, stage: Stage, destroyed: nat)

  datatype Action =
    | Inc(f: F)     // IncRef that retains the fid for the client
    | Rel(f: F)     // DecRef that gives up what the client retained
    | Dec(f: F)     // DecRef of a reference the request holds
    | Drop(f: F)    // removal from the pool and FidDestroy

  datatype Pc =
    | Start
    | Looked(f: F)                                // found in the pool, not yet counted
    | Held(f: F)                                  // a Twalk before its newfid
    | Working(f: F, newf: Option<F>)
    | Doing(todo: seq<Action>)                    // PostProcess

  datatype Req = Req(kind: Kind, pc: Pc)

  datatype State = State(pool: map<No, F>, fids: seq<Fid>, reqs: seq<Req>)

  datatype Step = Arrive(kind: Kind) | Run(i: nat, ok: bool)

  const Init := State(map[], [], [])

  function Set(s: State, f: F, fid: Fid): State
    requires f < |s.fids|
  {
    s.(fids := s.fids[f := fid])
  }

  function Go(s: State, i: nat, pc: Pc): State
    requires i < |s.reqs|
  {
    s.(reqs := s.reqs[i := s.reqs[i].(pc := pc)])
  }

  /** FidNew of an unused number: a Fid with one reference, already in the pool. */
  function Fresh(s: State, no: No): State {
    s.(pool := s.pool[no := |s.fids|], fids := s.fids + [Fid(no, 1, false, Live, 0)])
  }

  /** What PostProcess does once the reply is known. */
  function PostActions(s: State, kind: Kind, f: F, newf: Option<F>, ok: bool): seq<Action>
    requires f < |s.fids| && (newf.Some? ==> newf.value < |s.fids|)
  {
    match kind
    case Attach(_) => if ok then [Inc(f), Dec(f)] else [Dec(f)]
    case Walk(_, _) =>
      if newf.None? then [Dec(f)]
      else if ok && s.fids[newf.value].no != s.fids[f].no then [Inc(newf.value), Dec(f), Dec(newf.value)]
      else [Dec(f), Dec(newf.value)]
    case Clunk(_) => if ok then [Rel(f), Dec(f)] else [Dec(f)]
    case Remove(_) => [Rel(f), Dec(f)]
    case Use(_) => [Dec(f)]
  }

  /** DecRef: the last reference leaves the removal to be done. */
  function DecRef(s: State, i: nat, f: F, rest: seq<Action>, release: bool): State
    requires i < |s.reqs| && f < |s.fids|
  {
    var fid := s.fids[f];
    var n := fid.refcount - 1;
    var last := n <= 0;
    Go(Set(s, f, fid.(refcount := n,
                      retained := fid.retained && !release,
                      stage := if last then Dying else fid.stage)),
       i, Doing(if last then [Drop(f)] + rest else rest))
  }

  function Act(s: State, i: nat, act: Action, rest: seq<Action>): State
    requires i < |s.reqs| && act.f < |s.fids|
  {
    var fid := s.fids[act.f];
    match act
    case Inc(f) => Go(Set(s, f, fid.(refcount := fid.refcount + 1, retained := true)), i, Doing(rest))
    case Rel(f) => DecRef(s, i, f, rest, true)
    case Dec(f) => DecRef(s, i, f, rest, false)
    case Drop(f) =>
      Go(Set(s.(pool := s.pool - {fid.no}), f, fid.(stage := Dead, destroyed := fid.destroyed + 1)), i, Doing(rest))
  }

  ghost predicate TypedPc(n: nat, pc: Pc) {
    match pc
    case Start => true
    case Looked(f) => f < n
    case Held(f) => f < n
    case Working(f, newf) => f < n && (newf.Some? ==> newf.value < n)
    case Doing(todo) => forall k :: 0 <= k < |todo| ==> todo[k].f < n
  }

  ghost predicate Typed(s: State) {
    && (forall no :: no in s.pool ==> s.pool[no] < |s.fids|)
    && (forall i :: 0 <= i < |s.reqs| ==> TypedPc(|s.fids|, s.reqs[i].pc))
  }

  predicate Finished(r: Req) { r.pc == Doing([]) }

  /** The request moves; ok is the outcome the file server chooses. */
  function Advance(s: State, i: nat, ok: bool): State
    requires Typed(s) && i < |s.reqs| && !Finished(s.reqs[i])
  {
    var kind := s.reqs[i].kind;
    assert TypedPc(|s.fids|, s.reqs[i].pc);
    match s.reqs[i].pc
    case Start =>
      if kind.Attach? then
        if kind.fid in s.pool then Go(s, i, Doing([]))
        else Go(Fresh(s, kind.fid), i, Working(|s.fids|, None))
      else if kind.fid in s.pool then Go(s, i, Looked(s.pool[kind.fid]))
      else Go(s, i, Doing([]))
    case Looked(f) =>
      var s1 := Set(s, f, s.fids[f].(refcount := s.fids[f].refcount + 1));
      Go(s1, i, if kind.Walk? then Held(f) else Working(f, None))
    case Held(f) =>
      var newno := if kind.Walk? then kind.newfid else kind.fid;
      if !ok then Go(s, i, Doing([Dec(f)]))
      else if newno == kind.fid then
        Go(Set(s, f, s.fids[f].(refcount := s.fids[f].refcount + 1)), i, Working(f, Some(f)))
      else if newno in s.pool then Go(s, i, Doing([Dec(f)]))
      else Go(Fresh(s, newno), i, Working(f, Some(|s.fids|)))
    case Working(f, newf) => Go(s, i, Doing(PostActions(s, kind, f, newf, ok)))
    case Doing(todo) => Act(s, i, todo[0], todo[1..])
  }

  ghost predicate Enabled(s: State, step: Step) {
    step.Run? ==> step.i < |s.reqs| && !Finished(s.reqs[step.i])
  }

  function Apply(s: State, step: Step): State
    requires Typed(s) && Enabled(s, step)
  {
    match step
    case Arrive(kind) => s.(reqs := s.reqs + [Req(kind, Start)])
    case Run(i, ok) => Advance(s, i, ok)
  }

  /* ---- references ---- */

  function Count(todo: seq<Action>, act: Action): nat {
    if todo == [] then 0 else (if todo[0] == act then 1 else 0) + Count(todo[1..], act)
  }

  /** What is counted for a fid: references held, removals pending, retentions to come. */
  datatype What = References | Removals | Births

  function Weigh(w: What, r: Req, f: F): nat {
    match r.pc
    case Start => 0
    case Looked(_) => 0
    case Held(g) => if w.References? && g == f then 1 else 0
    case Working(g, newf) =>
      (match w
       case References => (if g == f then 1 else 0) + (if newf == Some(f) then 1 else 0)
       case Removals => 0
       case Births => if (r.kind.Attach? && g == f) || (newf == Some(f) && g != f) then 1 else 0)
    case Doing(todo) =>
      Count(todo, match w case References => Dec(f) case Removals => Drop(f) case Births => Inc(f))
  }

  function Sum(w: What, reqs: seq<Req>, f: F): nat {
    if reqs == [] then 0 else Sum(w, reqs[..|reqs| - 1], f) + Weigh(w, reqs[|reqs| - 1], f)
  }

  /**
   The count is exact, the pool holds the live fids and those whose removal is under way, and
   FidDestroy has run once for each fid that is gone.
   */
  ghost predicate Sound(s: State, f: F)
    requires f < |s.fids|
  {
    var fid := s.fids[f];
    && fid.refcount == (if fid.retained then 1 else 0) + Sum(References, s.reqs, f)
    && (fid.refcount > 0 <==> fid.stage.Live?)
    && (!fid.stage.Dead? <==> fid.no in s.pool && s.pool[fid.no] == f)
    && fid.destroyed == (if fid.stage.Dead? then 1 else 0)
    && (if fid.retained then 1 else 0) + Sum(Births, s.reqs, f) <= 1
    && Sum(Removals, s.reqs, f) == (if fid.stage.Dying? then 1 else 0)
  }

  ghost predicate AllSound(s: State) {
    && Typed(s)
    && (forall f :: 0 <= f < |s.fids| ==> Sound(s, f))
    && (forall no :: no in s.pool ==> s.fids[s.pool[no]].no == no)
  }

  /**
   The two places where the code relies on its callers: FidGet counts a fid that is still referenced,
   and what is released was retained.
   */
  ghost predicate Guarded(s: State, step: Step)
    requires Typed(s) && Enabled(s, step)
  {
    step.Run? ==>
      match s.reqs[step.i].pc
      case Looked(f) => f < |s.fids| && s.fids[f].refcount > 0
      case Doing(todo) => todo != [] && (todo[0].Rel? ==> todo[0].f < |s.fids| && s.fids[todo[0].f].retained)
      case _ => true
  }

  lemma {:induction false} SumUpdate(w: What, reqs: seq<Req>, i: nat, r: Req, f: F)
    requires i < |reqs|
    ensures Sum(w, reqs[i := r], f) + Weigh(w, reqs[i], f) == Sum(w, reqs, f) + Weigh(w, r, f)
    decreases |reqs|
  {
    var n := |reqs| - 1;
    if i == n {
      assert reqs[i := r][..n] == reqs[..n];
    } else {
      SumUpdate(w, reqs[..n], i, r, f);
      assert reqs[i := r][..n] == reqs[..n][i := r];
    }
  }

  lemma {:induction false} SumZero(w: What, reqs: seq<Req>, f: F)
    requires forall i :: 0 <= i < |reqs| ==> Weigh(w, reqs[i], f) == 0
    ensures Sum(w, reqs, f) == 0
    decreases |reqs|
  {
    if reqs != [] { SumZero(w, reqs[..|reqs| - 1], f); }
  }

  lemma {:induction false} SumPart(w: What, reqs: seq<Req>, i: nat, f: F)
    requires i < |reqs|
    ensures Weigh(w, reqs[i], f) <= Sum(w, reqs, f)
    decreases |reqs|
  {
    if i < |reqs| - 1 { SumPart(w, reqs[..|reqs| - 1], i, f); }
  }

  lemma {:induction false} NoCount(todo: seq<Action>, act: Action)
    requires act !in todo
    ensures Count(todo, act) == 0
  {
    if todo != [] { NoCount(todo[1..], act); }
  }

  /** Nothing refers to a fid that does not exist yet. */
  lemma SumFresh(w: What, s: State)
    requires Typed(s)
    ensures Sum(w, s.reqs, |s.fids|) == 0
  {
    forall i | 0 <= i < |s.reqs| ensures Weigh(w, s.reqs[i], |s.fids|) == 0 {
      assert TypedPc(|s.fids|, s.reqs[i].pc);
      match s.reqs[i].pc
      case Doing(todo) =>
        NoCount(todo, Dec(|s.fids|));
        NoCount(todo, Drop(|s.fids|));
        NoCount(todo, Inc(|s.fids|));
      case _ =>
    }
    SumZero(w, s.reqs, |s.fids|);
  }

  /** How the sums of every fid move when request i goes on to pc. */
  lemma SumsGo(s: State, i: nat, pc: Pc)
    requires i < |s.reqs|
    ensures forall w: What, f: F {:trigger Sum(w, Go(s, i, pc).reqs, f)} ::
              Sum(w, Go(s, i, pc).reqs, f) + Weigh(w, s.reqs[i], f) ==
                Sum(w, s.reqs, f) + Weigh(w, s.reqs[i].(pc := pc), f)
  {
    forall w: What, f: F
      ensures Sum(w, Go(s, i, pc).reqs, f) + Weigh(w, s.reqs[i], f) ==
              Sum(w, s.reqs, f) + Weigh(w, s.reqs[i].(pc := pc), f)
    {
      SumUpdate(w, s.reqs, i, s.reqs[i].(pc := pc), f);
    }
  }

  lemma KeepArrive(s: State, kind: Kind)
    requires AllSound(s)
    ensures AllSound(Apply(s, Arrive(kind)))
  {
    var s' := Apply(s, Arrive(kind));
    forall f | 0 <= f < |s'.fids| ensures Sound(s', f) {
      assert Sound(s, f);
      assert s'.reqs[..|s.reqs|] == s.reqs;
    }
  }

  lemma TypedDec(s: State, i: nat, f: F, rest: seq<Action>, release: bool)
    requires Typed(s) && i < |s.reqs| && f < |s.fids|
    requires s.reqs[i].pc == Doing([if release then Rel(f) else Dec(f)] + rest)
    ensures Typed(DecRef(s, i, f, rest, release))
  {
    var todo := [if release then Rel(f) else Dec(f)] + rest;
    assert TypedPc(|s.fids|, s.reqs[i].pc);
    forall k | 0 <= k < |rest| ensures rest[k].f < |s.fids| { assert rest[k] == todo[k + 1]; }
  }

  lemma CountCons(x: Action, rest: seq<Action>, act: Action)
    ensures Count([x] + rest, act) == (if x == act then 1 else 0) + Count(rest, act)
  {
    assert ([x] + rest)[1..] == rest;
  }

  lemma SoundDec(s: State, i: nat, f: F, rest: seq<Action>, release: bool, g: F)
    requires AllSound(s) && i < |s.reqs| && f < |s.fids| && g < |s.fids|
    requires s.reqs[i].pc == Doing([if release then Rel(f) else Dec(f)] + rest)
    requires release ==> s.fids[f].retained
    ensures Sound(DecRef(s, i, f, rest, release), g)
  {
    var s' := DecRef(s, i, f, rest, release);
    var r' := s'.reqs[i];
    assert s'.reqs == s.reqs[i := r'];
    DecWeighs(s, i, f, rest, release, g);
    SumUpdate(References, s.reqs, i, r', g);
    SumUpdate(Removals, s.reqs, i, r', g);
    SumUpdate(Births, s.reqs, i, r', g);
    SumPart(References, s.reqs, i, f);
    assert Sound(s, g) && Sound(s, f);
  }

  /** A DecRef takes its own reference from what the request holds, and may leave a removal to be done. */
  lemma DecWeighs(s: State, i: nat, f: F, rest: seq<Action>, release: bool, g: F)
    requires i < |s.reqs| && f < |s.fids| && s.reqs[i].pc == Doing([if release then Rel(f) else Dec(f)] + rest)
    ensures var r, r', last := s.reqs[i], DecRef(s, i, f, rest, release).reqs[i], s.fids[f].refcount <= 1;
            && Weigh(References, r, g) == Weigh(References, r', g) + (if !release && g == f then 1 else 0)
            && Weigh(Removals, r', g) == Weigh(Removals, r, g) + (if last && g == f then 1 else 0)
            && Weigh(Births, r', g) == Weigh(Births, r, g)
  {
    var act := if release then Rel(f) else Dec(f);
    forall x {:trigger Count(rest, x)} ensures Count([act] + rest, x) == (if act == x then 1 else 0) + Count(rest, x) {
      CountCons(act, rest, x);
    }
    forall x {:trigger Count(rest, x)}
      ensures Count([Drop(f)] + rest, x) == (if Drop(f) == x then 1 else 0) + Count(rest, x)
    {
      CountCons(Drop(f), rest, x);
    }
  }

  lemma KeepDec(s: State, i: nat, f: F, rest: seq<Action>, release: bool)
    requires AllSound(s) && i < |s.reqs| && f < |s.fids|
    requires s.reqs[i].pc == Doing([if release then Rel(f) else Dec(f)] + rest)
    requires release ==> s.fids[f].retained
    ensures AllSound(DecRef(s, i, f, rest, release))
  {
    var s' := DecRef(s, i, f, rest, release);
    TypedDec(s, i, f, rest, release);
    forall g | 0 <= g < |s'.fids| ensures Sound(s', g) { SoundDec(s, i, f, rest, release, g); }
  }

  lemma KeepInc(s: State, i: nat, f: F, rest: seq<Action>)
    requires AllSound(s) && i < |s.reqs| && f < |s.fids| && s.reqs[i].pc == Doing([Inc(f)] + rest)
    requires s.fids[f].refcount > 0
    ensures AllSound(Act(s, i, Inc(f), rest))
  {
    var s' := Act(s, i, Inc(f), rest);
    var todo := [Inc(f)] + rest;
    assert TypedPc(|s.fids|, s.reqs[i].pc);
    assert todo[1..] == rest;
    forall k | 0 <= k < |rest| ensures rest[k].f < |s.fids| { assert rest[k] == todo[k + 1]; }
    SumsGo(s, i, Doing(rest));
    SumPart(Births, s.reqs, i, f);
    assert s'.reqs == Go(s, i, Doing(rest)).reqs;
    forall g | 0 <= g < |s'.fids| ensures Sound(s', g) { assert Sound(s, g); }
  }

  lemma KeepDrop(s: State, i: nat, f: F, rest: seq<Action>)
    requires AllSound(s) && i < |s.reqs| && f < |s.fids| && s.reqs[i].pc == Doing([Drop(f)] + rest)
    ensures AllSound(Act(s, i, Drop(f), rest))
  {
    var s' := Act(s, i, Drop(f), rest);
    var todo := [Drop(f)] + rest;
    assert TypedPc(|s.fids|, s.reqs[i].pc);
    assert todo[1..] == rest;
    forall k | 0 <= k < |rest| ensures rest[k].f < |s.fids| { assert rest[k] == todo[k + 1]; }
    SumsGo(s, i, Doing(rest));
    SumPart(Removals, s.reqs, i, f);
    assert s'.reqs == Go(s, i, Doing(rest)).reqs;
    forall g | 0 <= g < |s'.fids| ensures Sound(s', g) {
      assert Sound(s, g) && Sound(s, f);
    }
  }

  /** A move that touches no fid and changes no reference. */
  lemma KeepGo(s: State, i: nat, pc: Pc)
    requires AllSound(s) && i < |s.reqs| && TypedPc(|s.fids|, pc)
    requires forall w: What, f: F :: Weigh(w, s.reqs[i].(pc := pc), f) == Weigh(w, s.reqs[i], f)
               || (w.Births? && Weigh(w, s.reqs[i].(pc := pc), f) == 0)
    ensures AllSound(Go(s, i, pc))
  {
    SumsGo(s, i, pc);
    forall g | 0 <= g < |s.fids| ensures Sound(Go(s, i, pc), g) { assert Sound(s, g); }
  }

  lemma KeepIncRef(s: State, i: nat, f: F, pc: Pc)
    requires AllSound(s) && i < |s.reqs| && f < |s.fids| && s.fids[f].refcount > 0
    requires (s.reqs[i].pc == Looked(f) && (pc == Held(f) || (pc == Working(f, None) && !s.reqs[i].kind.Attach?)))
          || (s.reqs[i].pc == Held(f) && pc == Working(f, Some(f)) && !s.reqs[i].kind.Attach?)
    ensures AllSound(Go(Set(s, f, s.fids[f].(refcount := s.fids[f].refcount + 1)), i, pc))
  {
    var s' := Go(Set(s, f, s.fids[f].(refcount := s.fids[f].refcount + 1)), i, pc);
    SumsGo(s, i, pc);
    assert s'.reqs == Go(s, i, pc).reqs;
    forall g | 0 <= g < |s'.fids| ensures Sound(s', g) { assert Sound(s, g); }
  }

  lemma KeepFresh(s: State, i: nat, no: No, pc: Pc)
    requires AllSound(s) && i < |s.reqs| && no !in s.pool
    requires (s.reqs[i].pc.Start? && s.reqs[i].kind.Attach? && pc == Working(|s.fids|, None))
          || (s.reqs[i].pc.Held? && !s.reqs[i].kind.Attach? && pc == Working(s.reqs[i].pc.f, Some(|s.fids|)))
    ensures AllSound(Go(Fresh(s, no), i, pc))
  {
    var s' := Go(Fresh(s, no), i, pc);
    SumsGo(s, i, pc);
    assert s'.reqs == Go(s, i, pc).reqs;
    assert TypedPc(|s.fids|, s.reqs[i].pc);
    SumFresh(References, s);
    SumFresh(Removals, s);
    SumFresh(Births, s);
    forall g | 0 <= g < |s'.fids| ensures Sound(s', g) {
      if g < |s.fids| { assert Sound(s, g); }
    }
    forall j | 0 <= j < |s'.reqs| ensures TypedPc(|s'.fids|, s'.reqs[j].pc) {
      assert TypedPc(|s.fids|, s.reqs[j].pc);
    }
  }

  lemma CountList(todo: seq<Action>, act: Action)
    requires 1 <= |todo| <= 3
    ensures Count(todo, act) == (if todo[0] == act then 1 else 0) + (if |todo| > 1 && todo[1] == act then 1 else 0)
                                + (if |todo| > 2 && todo[2] == act then 1 else 0)
  {
    assert todo == [todo[0]] + todo[1..];
    CountCons(todo[0], todo[1..], act);
    if |todo| > 1 {
      assert todo[1..] == [todo[1]] + todo[2..];
      CountCons(todo[1], todo[2..], act);
      if |todo| > 2 {
        assert todo[2..] == [todo[2]] + todo[3..];
        CountCons(todo[2], todo[3..], act);
      }
    }
  }

  /** The actions of PostProcess hold what the request held. */
  lemma PostWeighs(s: State, r: Req, f: F, newf: Option<F>, ok: bool, g: F)
    requires f < |s.fids| && (newf.Some? ==> newf.value < |s.fids|) && r.pc == Working(f, newf)
    requires newf.Some? ==> r.kind.Walk?
    ensures var r' := r.(pc := Doing(PostActions(s, r.kind, f, newf, ok)));
            && Weigh(References, r', g) == Weigh(References, r, g)
            && Weigh(Removals, r', g) == 0
            && Weigh(Births, r', g) <= Weigh(Births, r, g)
  {
    var todo := PostActions(s, r.kind, f, newf, ok);
    CountList(todo, Dec(g));
    CountList(todo, Drop(g));
    CountList(todo, Inc(g));
  }

  /** Only a Twalk gets as far as its newfid; what is retained last of all is still referenced. */
  ghost predicate ShapedReq(r: Req) {
    match r.pc
    case Start => true
    case Looked(f) => !r.kind.Attach?
    case Held(f) => r.kind.Walk?
    case Working(f, newf) => newf.Some? ==> r.kind.Walk?
    case Doing(todo) =>
      && (forall k :: 1 <= k < |todo| ==> todo[k].Dec?)
      && (todo != [] && todo[0].Inc? ==> Dec(todo[0].f) in todo)
      && (todo != [] && todo[0].Rel? ==> r.kind.Clunk? || r.kind.Remove?)
  }

  ghost predicate Shaped(s: State) {
    forall i :: 0 <= i < |s.reqs| ==> ShapedReq(s.reqs[i])
  }

  lemma ShapedStep(s: State, step: Step)
    requires Typed(s) && Enabled(s, step) && Shaped(s)
    ensures Shaped(Apply(s, step))
  {
    if step.Run? {
      var r := s.reqs[step.i];
      assert ShapedReq(r) && TypedPc(|s.fids|, r.pc);
      assert ShapedReq(Apply(s, step).reqs[step.i]);
    }
  }

  lemma {:induction false} CountIn(todo: seq<Action>, act: Action)
    requires act in todo
    ensures Count(todo, act) > 0
  {
    if todo[0] != act { CountIn(todo[1..], act); }
  }

  lemma KeepDoing(s: State, i: nat, todo: seq<Action>)
    requires AllSound(s) && i < |s.reqs| && s.reqs[i].pc == Doing(todo) && todo != [] && ShapedReq(s.reqs[i])
    requires todo[0].Rel? ==> todo[0].f < |s.fids| && s.fids[todo[0].f].retained
    ensures todo[0].f < |s.fids| && AllSound(Act(s, i, todo[0], todo[1..]))
  {
    assert TypedPc(|s.fids|, s.reqs[i].pc);
    var f := todo[0].f;
    assert todo == [todo[0]] + todo[1..];
    match todo[0]
    case Inc(_) =>
      CountIn(todo, Dec(f));
      SumPart(References, s.reqs, i, f);
      assert Sound(s, f);
      KeepInc(s, i, f, todo[1..]);
    case Rel(_) => KeepDec(s, i, f, todo[1..], true);
    case Dec(_) => KeepDec(s, i, f, todo[1..], false);
    case Drop(_) => KeepDrop(s, i, f, todo[1..]);
  }

  lemma KeepHeld(s: State, i: nat, f: F, ok: bool)
    requires AllSound(s) && i < |s.reqs| && s.reqs[i].pc == Held(f) && ShapedReq(s.reqs[i])
    ensures AllSound(Advance(s, i, ok))
  {
    var kind := s.reqs[i].kind;
    assert TypedPc(|s.fids|, s.reqs[i].pc);
    SumPart(References, s.reqs, i, f);
    assert Sound(s, f);
    if !ok || (kind.newfid != kind.fid && kind.newfid in s.pool) {
      forall w: What, g: F
        ensures Weigh(w, s.reqs[i].(pc := Doing([Dec(f)])), g) == Weigh(w, s.reqs[i], g)
      {
        CountList([Dec(f)], Dec(g));
        CountList([Dec(f)], Drop(g));
        CountList([Dec(f)], Inc(g));
      }
      KeepGo(s, i, Doing([Dec(f)]));
    } else if kind.newfid == kind.fid {
      KeepIncRef(s, i, f, Working(f, Some(f)));
    } else {
      KeepFresh(s, i, kind.newfid, Working(f, Some(|s.fids|)));
    }
  }

  lemma KeepWorking(s: State, i: nat, f: F, newf: Option<F>, ok: bool)
    requires AllSound(s) && i < |s.reqs| && s.reqs[i].pc == Working(f, newf) && ShapedReq(s.reqs[i])
    ensures AllSound(Advance(s, i, ok))
  {
    assert TypedPc(|s.fids|, s.reqs[i].pc);
    var pc := Doing(PostActions(s, s.reqs[i].kind, f, newf, ok));
    SumsGo(s, i, pc);
    forall g | 0 <= g < |s.fids| ensures Sound(Go(s, i, pc), g) {
      assert Sound(s, g);
      PostWeighs(s, s.reqs[i], f, newf, ok, g);
    }
  }

  /** Every step that keeps to the two conditions keeps every fid sound. */
  lemma SoundStep(s: State, step: Step)
    requires AllSound(s) && Shaped(s) && Enabled(s, step) && Guarded(s, step)
    ensures AllSound(Apply(s, step)) && Shaped(Apply(s, step))
  {
    ShapedStep(s, step);
    if step.Arrive? {
      KeepArrive(s, step.kind);
    } else {
      var i := step.i;
      var kind := s.reqs[i].kind;
      var pc := s.reqs[i].pc;
      assert TypedPc(|s.fids|, pc) && ShapedReq(s.reqs[i]);
      if pc.Start? {
        if kind.Attach? && kind.fid !in s.pool {
          KeepFresh(s, i, kind.fid, Working(|s.fids|, None));
        } else if kind.Attach? || kind.fid !in s.pool {
          KeepGo(s, i, Doing([]));
        } else {
          KeepGo(s, i, Looked(s.pool[kind.fid]));
        }
      } else if pc.Looked? {
        KeepIncRef(s, i, pc.f, if kind.Walk? then Held(pc.f) else Working(pc.f, None));
      } else if pc.Held? {
        KeepHeld(s, i, pc.f, step.ok);
      } else if pc.Working? {
        KeepWorking(s, i, pc.f, pc.newf, step.ok);
      } else {
        KeepDoing(s, i, pc.todo);
      }
    }
  }

  /* ---- clients ---- */

  datatype Client =
    | Anyone      // sends what it likes
    | Careful     // keeps to the two conditions
    | Orderly     // a fid number is created, clunked or removed by one request at a time, used by no other meanwhile
    | Atomic      // a clunk or remove is sent for a retained fid and not while another of it is pending; the
                  // halves of FidGet and of the last DecRef are not interleaved with anything

  function Uses(k: Kind): set<No> {
    if k.Walk? then {k.fid, k.newfid} else {k.fid}
  }

  /** The numbers a request brings to life or ends. */
  function Ends(k: Kind): set<No> {
    match k
    case Attach(n) => {n}
    case Walk(n, m) => {m} - {n}
    case Clunk(n) => {n}
    case Remove(n) => {n}
    case Use(_) => {}
  }

  predicate Compatible(k: Kind, l: Kind) {
    Ends(k) * Uses(l) == {} && Ends(l) * Uses(k) == {}
  }

  /** The client gives the fid up. */
  predicate Gives(k: Kind) {
    k.Clunk? || k.Remove?
  }

  /** A request between the halves of a FidGet or of a last DecRef. */
  predicate Midway(r: Req) {
    r.pc.Looked? || (r.pc.Doing? && r.pc.todo != [] && r.pc.todo[0].Drop?)
  }

  ghost predicate Allowed(c: Client, s: State, step: Step)
    requires Typed(s) && Enabled(s, step)
  {
    match c
    case Anyone => true
    case Careful => Guarded(s, step)
    case Orderly =>
      step.Arrive? ==> forall i :: 0 <= i < |s.reqs| && !Finished(s.reqs[i]) ==> Compatible(step.kind, s.reqs[i].kind)
    case Atomic =>
      && (forall i :: 0 <= i < |s.reqs| && Midway(s.reqs[i]) ==> step.Run? && step.i == i)
      && (step.Arrive? && Gives(step.kind) ==>
            && step.kind.fid in s.pool && s.fids[s.pool[step.kind.fid]].retained
            && forall i :: 0 <= i < |s.reqs| && !Finished(s.reqs[i]) && Gives(s.reqs[i].kind) ==>
                s.reqs[i].kind.fid != step.kind.fid)
  }

  ghost predicate Move(c: Client, s: State, step: Step, s': State) {
    Typed(s) && Enabled(s, step) && Allowed(c, s, step) && s' == Apply(s, step)
  }

  ghost predicate Next(c: Client, s: State, s': State) {
    exists step :: Move(c, s, step, s')
  }

  ghost predicate Reachable(c: Client, run: seq<State>) {
    |run| > 0 && run[0] == Init && forall k :: 0 < k < |run| ==> Next(c, run[k - 1], run[k])
  }

  function Last(run: seq<State>): State
    requires |run| > 0
  {
    run[|run| - 1]
  }

  /* ---- an orderly client is careful ---- */

  /** A request refers only to fids whose number it names, and what it is to release is retained. */
  ghost predicate Touches(s: State, r: Req) {
    match r.pc
    case Start => true
    case Looked(f) => f < |s.fids| && s.fids[f].no == r.kind.fid && s.fids[f].retained
    case Held(f) => f < |s.fids| && s.fids[f].no == r.kind.fid
    case Working(f, newf) =>
      && f < |s.fids| && s.fids[f].no == r.kind.fid
      && (newf.Some? ==> newf.value < |s.fids| && s.fids[newf.value].no in Uses(r.kind))
      && (r.kind.Clunk? || r.kind.Remove? ==> s.fids[f].retained)
    case Doing(todo) => forall k :: 0 <= k < |todo| ==> TouchesBy(s, r.kind, todo[k])
  }

  ghost predicate TouchesBy(s: State, kind: Kind, act: Action) {
    && act.f < |s.fids| && s.fids[act.f].no in Uses(kind)
    && (act.Rel? ==> s.fids[act.f].retained && s.fids[act.f].no in Ends(kind))
  }

  /** The request is past the point where it may leave a fid of number no unretained. */
  ghost predicate Owns(r: Req, no: No) {
    && !Finished(r) && no in Ends(r.kind)
    && (r.pc.Doing? || (r.pc.Working? && (r.kind.Attach? || r.kind.Walk?)))
  }

  ghost predicate Accounted(s: State, f: F)
    requires f < |s.fids|
  {
    s.fids[f].stage.Dead? || s.fids[f].retained || exists i :: 0 <= i < |s.reqs| && Owns(s.reqs[i], s.fids[f].no)
  }

  ghost predicate Exclusive(s: State) {
    forall i, j :: 0 <= i < j < |s.reqs| && !Finished(s.reqs[i]) && !Finished(s.reqs[j]) ==>
      Compatible(s.reqs[i].kind, s.reqs[j].kind)
  }

  ghost predicate OrderlyInv(s: State) {
    && AllSound(s) && Shaped(s) && Exclusive(s)
    && (forall i :: 0 <= i < |s.reqs| ==> Touches(s, s.reqs[i]))
    && (forall f :: 0 <= f < |s.fids| ==> Accounted(s, f))
  }

  lemma OrderlyGuards(s: State, step: Step)
    requires OrderlyInv(s) && Enabled(s, step)
    ensures Guarded(s, step)
  {
    if step.Run? {
      var r := s.reqs[step.i];
      assert Touches(s, r) && TypedPc(|s.fids|, r.pc);
      if r.pc.Looked? {
        assert Sound(s, r.pc.f);
      } else if r.pc.Doing? {
        assert TouchesBy(s, r.kind, r.pc.todo[0]);
      }
    }
  }

  lemma Apart(s: State, i: nat, j: nat)
    requires Exclusive(s) && i < |s.reqs| && j < |s.reqs| && i != j
    requires !Finished(s.reqs[i]) && !Finished(s.reqs[j])
    ensures Compatible(s.reqs[i].kind, s.reqs[j].kind)
  {
    if i > j { assert Compatible(s.reqs[j].kind, s.reqs[i].kind); }
  }

  lemma UntouchedTodo(s: State, kind: Kind, todo: seq<Action>, f: F)
    requires f < |s.fids| && s.fids[f].no !in Uses(kind)
    requires forall k :: 0 <= k < |todo| ==> TouchesBy(s, kind, todo[k])
    ensures Count(todo, Dec(f)) == 0 && Count(todo, Drop(f)) == 0 && Count(todo, Inc(f)) == 0
  {
    NoCount(todo, Dec(f));
    NoCount(todo, Drop(f));
    NoCount(todo, Inc(f));
  }

  /** A number that request i ends is touched by no other request. */
  lemma Untouched(s: State, i: nat, j: nat, w: What, f: F)
    requires Exclusive(s) && Typed(s) && i < |s.reqs| && j < |s.reqs| && i != j && f < |s.fids|
    requires !Finished(s.reqs[i]) && s.fids[f].no in Ends(s.reqs[i].kind)
    requires Touches(s, s.reqs[j])
    ensures Weigh(w, s.reqs[j], f) == 0
  {
    var r := s.reqs[j];
    if Finished(r) {
    } else {
      Apart(s, i, j);
      assert s.fids[f].no !in Uses(r.kind);
      if r.pc.Doing? {
        UntouchedTodo(s, r.kind, r.pc.todo, f);
      }
    }
  }

  /* each part of the invariant, step by step */

  lemma ExclusiveKept(s: State, step: Step)
    requires Typed(s) && Exclusive(s) && Enabled(s, step) && Allowed(Orderly, s, step)
    ensures Exclusive(Apply(s, step))
  {
    var s' := Apply(s, step);
    forall i, j | 0 <= i < j < |s'.reqs| && !Finished(s'.reqs[i]) && !Finished(s'.reqs[j])
      ensures Compatible(s'.reqs[i].kind, s'.reqs[j].kind)
    {
      if j < |s.reqs| {
        assert !Finished(s.reqs[i]) && !Finished(s.reqs[j]);
      }
    }
  }

  /** Fids keep their numbers; a fid loses its retention only to a release. */
  ghost predicate FidsGrow(s: State, s': State) {
    && |s.fids| <= |s'.fids|
    && (forall f :: 0 <= f < |s.fids| ==> s'.fids[f].no == s.fids[f].no)
  }

  lemma TouchesKept(s: State, s': State, r: Req)
    requires Touches(s, r) && FidsGrow(s, s')
    requires forall f :: 0 <= f < |s.fids| && s.fids[f].retained && s.fids[f].no in Uses(r.kind) ==> s'.fids[f].retained
    ensures Touches(s', r)
  {
    if r.pc.Doing? {
      forall k | 0 <= k < |r.pc.todo| ensures TouchesBy(s', r.kind, r.pc.todo[k]) {
        assert TouchesBy(s, r.kind, r.pc.todo[k]);
      }
    }
  }

  lemma GrowStep(s: State, i: nat, ok: bool)
    requires Typed(s) && Enabled(s, Run(i, ok))
    ensures FidsGrow(s, Apply(s, Run(i, ok)))
  {
    assert TypedPc(|s.fids|, s.reqs[i].pc);
  }

  /** Only a request that ends with a fid's number takes its retention away. */
  lemma RetentionKept(s: State, i: nat, ok: bool, f: F)
    requires Typed(s) && Enabled(s, Run(i, ok)) && Touches(s, s.reqs[i]) && f < |s.fids|
    requires s.fids[f].retained && s.fids[f].no !in Ends(s.reqs[i].kind)
    ensures f < |Apply(s, Run(i, ok)).fids| && Apply(s, Run(i, ok)).fids[f].retained
  {
    var r := s.reqs[i];
    assert TypedPc(|s.fids|, r.pc);
    if r.pc.Doing? { assert TouchesBy(s, r.kind, r.pc.todo[0]); }
  }

  lemma OthersTouch(s: State, i: nat, ok: bool, j: nat)
    requires OrderlyInv(s) && Enabled(s, Run(i, ok)) && j < |s.reqs| && j != i
    ensures Touches(Apply(s, Run(i, ok)), s.reqs[j])
  {
    var s' := Apply(s, Run(i, ok));
    assert Touches(s, s.reqs[j]) && Touches(s, s.reqs[i]);
    if !Finished(s.reqs[j]) {
      Apart(s, i, j);
      GrowStep(s, i, ok);
      forall f | 0 <= f < |s.fids| && s.fids[f].retained && s.fids[f].no in Uses(s.reqs[j].kind)
        ensures s'.fids[f].retained
      {
        var no, ends, uses := s.fids[f].no, Ends(s.reqs[i].kind), Uses(s.reqs[j].kind);
        assert no in ends * uses <==> no in ends && no in uses;
        RetentionKept(s, i, ok, f);
      }
      TouchesKept(s, s', s.reqs[j]);
    }
  }

  /** Nobody else owns a number that an unfinished request uses. */
  lemma SoleOwner(s: State, i: nat, no: No)
    requires Exclusive(s) && i < |s.reqs| && !Finished(s.reqs[i]) && no in Uses(s.reqs[i].kind)
    ensures forall j :: 0 <= j < |s.reqs| && j != i ==> !Owns(s.reqs[j], no)
  {
    forall j | 0 <= j < |s.reqs| && j != i ensures !Owns(s.reqs[j], no) {
      if !Finished(s.reqs[j]) {
        Apart(s, i, j);
        assert no !in Ends(s.reqs[j].kind) * Uses(s.reqs[i].kind);
      }
    }
  }

  lemma SelfTouches(s: State, i: nat, ok: bool)
    requires OrderlyInv(s) && Enabled(s, Run(i, ok))
    ensures Touches(Apply(s, Run(i, ok)), Apply(s, Run(i, ok)).reqs[i])
  {
    var s' := Apply(s, Run(i, ok));
    var r := s.reqs[i];
    assert Touches(s, r) && TypedPc(|s.fids|, r.pc) && ShapedReq(r);
    match r.pc
    case Start =>
      if !r.kind.Attach? && r.kind.fid in s.pool {
        var f := s.pool[r.kind.fid];
        assert Sound(s, f) && Accounted(s, f);
        SoleOwner(s, i, r.kind.fid);
      }
    case Doing(todo) =>
      assert TouchesBy(s, r.kind, todo[0]);
      DoingTouches(s, i, todo);
    case _ =>
  }

  lemma DoingTouches(s: State, i: nat, todo: seq<Action>)
    requires Typed(s) && i < |s.reqs| && s.reqs[i].pc == Doing(todo) && todo != [] && ShapedReq(s.reqs[i])
    requires forall k :: 0 <= k < |todo| ==> TouchesBy(s, s.reqs[i].kind, todo[k])
    ensures TouchesBy(s, s.reqs[i].kind, todo[0])
    ensures Touches(Act(s, i, todo[0], todo[1..]), Act(s, i, todo[0], todo[1..]).reqs[i])
  {
    var kind := s.reqs[i].kind;
    assert TouchesBy(s, kind, todo[0]);
    var s' := Act(s, i, todo[0], todo[1..]);
    var todo' := s'.reqs[i].pc.todo;
    forall k | 0 <= k < |todo'| ensures TouchesBy(s', kind, todo'[k]) {
      var o := |todo| - |todo'|;
      if k + o > 0 {
        assert todo'[k] == todo[k + o];
        assert TouchesBy(s, kind, todo[k + o]);
      } else {
        assert todo'[k] == Drop(todo[0].f);
      }
    }
  }

  /** A request that ends alone with a number leaves its fid retained or gone. */
  lemma FinishedAccounts(s: State, s': State, i: nat, f: F)
    requires AllSound(s) && AllSound(s') && Exclusive(s) && i < |s.reqs| && f < |s.fids| && f < |s'.fids|
    requires !Finished(s.reqs[i]) && s.fids[f].no in Ends(s.reqs[i].kind)
    requires |s'.reqs| == |s.reqs| && Finished(s'.reqs[i])
    requires forall j :: 0 <= j < |s.reqs| && j != i ==> s'.reqs[j] == s.reqs[j] && Touches(s, s.reqs[j])
    ensures s'.fids[f].stage.Dead? || s'.fids[f].retained
  {
    forall w: What, j | 0 <= j < |s'.reqs| ensures Weigh(w, s'.reqs[j], f) == 0 {
      if j != i { Untouched(s, i, j, w, f); }
    }
    SumZero(References, s'.reqs, f);
    SumZero(Removals, s'.reqs, f);
    assert Sound(s', f);
  }

  lemma AccountedKept(s: State, i: nat, ok: bool, f: F)
    requires OrderlyInv(s) && Enabled(s, Run(i, ok)) && AllSound(Apply(s, Run(i, ok)))
    requires f < |Apply(s, Run(i, ok)).fids|
    ensures Accounted(Apply(s, Run(i, ok)), f)
  {
    var s' := Apply(s, Run(i, ok));
    var r := s.reqs[i];
    assert Touches(s, r) && TypedPc(|s.fids|, r.pc) && ShapedReq(r);
    if f >= |s.fids| {
      assert Owns(s'.reqs[i], s'.fids[f].no);
    } else {
      assert Accounted(s, f);
      var no := s.fids[f].no;
      assert s'.fids[f].no == no;
      if j :| 0 <= j < |s.reqs| && j != i && Owns(s.reqs[j], no) {
        assert Owns(s'.reqs[j], no);
      } else if Owns(r, no) {
        if Finished(s'.reqs[i]) {
          FinishedAccounts(s, s', i, f);
        } else {
          assert Owns(s'.reqs[i], no);
        }
      } else {
        NotOwned(s, i, ok, f);
      }
    }
  }

  /** What a request does not own it leaves accounted for. */
  lemma NotOwned(s: State, i: nat, ok: bool, f: F)
    requires OrderlyInv(s) && Enabled(s, Run(i, ok)) && f < |s.fids|
    requires !Owns(s.reqs[i], s.fids[f].no) && (s.fids[f].stage.Dead? || s.fids[f].retained)
    ensures var s' := Apply(s, Run(i, ok)); f < |s'.fids| && (s'.fids[f].stage.Dead? || s'.fids[f].retained)
  {
    var r := s.reqs[i];
    assert Touches(s, r) && TypedPc(|s.fids|, r.pc);
    assert Sound(s, f);
    if r.pc.Doing? {
      assert TouchesBy(s, r.kind, r.pc.todo[0]);
      SumPart(References, s.reqs, i, f);
      SumPart(Removals, s.reqs, i, f);
    }
  }

  lemma OrderlyStep(s: State, step: Step)
    requires OrderlyInv(s) && Enabled(s, step) && Allowed(Orderly, s, step)
    ensures OrderlyInv(Apply(s, step)) && Guarded(s, step)
  {
    var s' := Apply(s, step);
    OrderlyGuards(s, step);
    SoundStep(s, step);
    ExclusiveKept(s, step);
    if step.Run? {
      forall j | 0 <= j < |s'.reqs| ensures Touches(s', s'.reqs[j]) {
        if j == step.i { SelfTouches(s, step.i, step.ok); } else { OthersTouch(s, step.i, step.ok, j); }
      }
      forall f | 0 <= f < |s'.fids| ensures Accounted(s', f) { AccountedKept(s, step.i, step.ok, f); }
    } else {
      forall j | 0 <= j < |s'.reqs| ensures Touches(s', s'.reqs[j]) {
        if j < |s.reqs| { assert Touches(s, s.reqs[j]); TouchesKept(s, s', s.reqs[j]); }
      }
      forall f | 0 <= f < |s'.fids| ensures Accounted(s', f) {
        assert Accounted(s, f);
        if i :| 0 <= i < |s.reqs| && Owns(s.reqs[i], s.fids[f].no) { assert Owns(s'.reqs[i], s'.fids[f].no); }
      }
    }
  }

  /* ---- a client served atomically is careful ---- */

  ghost predicate AtomicInv(s: State) {
    && AllSound(s) && Shaped(s)
    && (forall i, j :: 0 <= i < |s.reqs| && 0 <= j < |s.reqs| && Midway(s.reqs[i]) && Midway(s.reqs[j]) ==> i == j)
    && (forall i :: 0 <= i < |s.reqs| ==> LookedLive(s, s.reqs[i]) && Owed(s, s.reqs[i]))
    && GivenOnce(s)
  }

  /** No two requests are about to give up the same number. */
  ghost predicate GivenOnce(s: State) {
    forall i, j :: 0 <= i < j < |s.reqs| && Owing(s.reqs[i]) && Owing(s.reqs[j]) ==>
        s.reqs[i].kind.fid != s.reqs[j].kind.fid
  }

  /** The request may still give up what the client retained. */
  ghost predicate Owing(r: Req) {
    Gives(r.kind) && !r.pc.Held? && (r.pc.Doing? ==> r.pc.todo != [] && r.pc.todo[0].Rel?)
  }

  /** What it may give up is retained, and is the fid it works on. */
  ghost predicate Owed(s: State, r: Req) {
    Owing(r) ==>
      && r.kind.fid in s.pool && s.pool[r.kind.fid] < |s.fids| && s.fids[s.pool[r.kind.fid]].retained
      && match r.pc
         case Looked(f) => f == s.pool[r.kind.fid]
         case Working(f, _) => f == s.pool[r.kind.fid]
         case Doing(todo) => todo[0].f == s.pool[r.kind.fid]
         case _ => true
  }

  lemma AtomicGuards(s: State, step: Step)
    requires AtomicInv(s) && Enabled(s, step) && Allowed(Atomic, s, step)
    ensures Guarded(s, step)
  {
    if step.Run? {
      var r := s.reqs[step.i];
      assert LookedLive(s, r) && Owed(s, r) && ShapedReq(r) && TypedPc(|s.fids|, r.pc);
    }
  }

  /** A retained fid stays in the pool, retained, until a request that owes it moves. */
  lemma RetainedStays(s: State, i: nat, ok: bool, no: No)
    requires AllSound(s) && Enabled(s, Run(i, ok)) && Owed(s, s.reqs[i]) && ShapedReq(s.reqs[i])
    requires no in s.pool && s.fids[s.pool[no]].retained
    requires Owing(s.reqs[i]) ==> s.reqs[i].kind.fid != no
    ensures var s' := Apply(s, Run(i, ok));
            no in s'.pool && s'.pool[no] == s.pool[no] && s.pool[no] < |s'.fids| && s'.fids[s.pool[no]].retained
  {
    var r := s.reqs[i];
    assert TypedPc(|s.fids|, r.pc) && Sound(s, s.pool[no]);
    if r.pc.Doing? {
      var f := r.pc.todo[0].f;
      assert Sound(s, f);
      if r.pc.todo[0].Drop? {
        SumPart(Removals, s.reqs, i, f);
        assert s.fids[f].stage.Dying? && f != s.pool[no];
      } else if r.pc.todo[0].Rel? {
        assert s.fids[f].no == r.kind.fid;
      }
    }
  }

  lemma OthersOwed(s: State, i: nat, ok: bool, j: nat)
    requires AtomicInv(s) && Enabled(s, Run(i, ok)) && j < |s.reqs| && j != i
    ensures Owed(Apply(s, Run(i, ok)), s.reqs[j])
  {
    var r := s.reqs[j];
    assert Owed(s, r) && Owed(s, s.reqs[i]) && ShapedReq(s.reqs[i]);
    if Owing(r) {
      assert Owing(s.reqs[i]) ==> s.reqs[i].kind.fid != r.kind.fid;
      RetainedStays(s, i, ok, r.kind.fid);
    }
  }

  lemma SelfOwed(s: State, i: nat, ok: bool)
    requires AtomicInv(s) && Enabled(s, Run(i, ok))
    ensures Owed(Apply(s, Run(i, ok)), Apply(s, Run(i, ok)).reqs[i])
    ensures Owing(Apply(s, Run(i, ok)).reqs[i]) ==> Owing(s.reqs[i])
  {
    var r := s.reqs[i];
    assert Owed(s, r) && ShapedReq(r) && TypedPc(|s.fids|, r.pc);
  }

  lemma OwedKept(s: State, step: Step)
    requires AtomicInv(s) && Enabled(s, step) && Allowed(Atomic, s, step)
    ensures var s' := Apply(s, step); GivenOnce(s') && forall j :: 0 <= j < |s'.reqs| ==> Owed(s', s'.reqs[j])
  {
    var s' := Apply(s, step);
    forall j | 0 <= j < |s'.reqs| ensures Owed(s', s'.reqs[j]) {
      if step.Run? {
        if j == step.i { SelfOwed(s, j, step.ok); } else { OthersOwed(s, step.i, step.ok, j); }
      } else if j < |s.reqs| {
        assert Owed(s, s.reqs[j]);
      }
    }
    GivenKept(s, step);
  }

  lemma GivenKept(s: State, step: Step)
    requires AtomicInv(s) && Enabled(s, step) && Allowed(Atomic, s, step)
    ensures GivenOnce(Apply(s, step))
  {
    if step.Run? {
      SelfOwed(s, step.i, step.ok);
      OneMoves(s, step.i, step.ok);
      GivenLess(s, Apply(s, step));
    } else {
      GivenMore(s, step.kind);
    }
  }

  lemma OneMoves(s: State, i: nat, ok: bool)
    requires Typed(s) && Enabled(s, Run(i, ok))
    ensures var s' := Apply(s, Run(i, ok));
            && |s'.reqs| == |s.reqs| && s'.reqs[i].kind == s.reqs[i].kind
            && forall j :: 0 <= j < |s.reqs| && j != i ==> s'.reqs[j] == s.reqs[j]
  {
    assert TypedPc(|s.fids|, s.reqs[i].pc);
  }

  lemma GivenLess(s: State, s': State)
    requires GivenOnce(s) && |s'.reqs| == |s.reqs|
    requires forall i :: 0 <= i < |s.reqs| ==>
               s'.reqs[i].kind == s.reqs[i].kind && (Owing(s'.reqs[i]) ==> Owing(s.reqs[i]))
    ensures GivenOnce(s')
  {
  }

  lemma GivenMore(s: State, kind: Kind)
    requires Typed(s) && GivenOnce(s) && Allowed(Atomic, s, Arrive(kind))
    ensures GivenOnce(Apply(s, Arrive(kind)))
  {
    var s' := Apply(s, Arrive(kind));
    forall i, j | 0 <= i < j < |s'.reqs| && Owing(s'.reqs[i]) && Owing(s'.reqs[j])
      ensures s'.reqs[i].kind.fid != s'.reqs[j].kind.fid
    {
      if j < |s.reqs| { assert Owing(s.reqs[i]) && Owing(s.reqs[j]); } else { assert !Finished(s.reqs[i]); }
    }
  }

  ghost predicate LookedLive(s: State, r: Req) {
    r.pc.Looked? ==> r.pc.f < |s.fids| && s.fids[r.pc.f].refcount > 0
  }

  lemma {:induction false} SumSome(w: What, reqs: seq<Req>, f: F) returns (i: nat)
    requires Sum(w, reqs, f) > 0
    ensures i < |reqs| && Weigh(w, reqs[i], f) > 0
    decreases |reqs|
  {
    i := |reqs| - 1;
    if Weigh(w, reqs[i], f) == 0 { i := SumSome(w, reqs[..i], f); }
  }

  /** A removal under way belongs to a request midway. */
  lemma DyingIsMidway(s: State, f: F) returns (i: nat)
    requires AllSound(s) && Shaped(s) && f < |s.fids| && s.fids[f].stage.Dying?
    ensures i < |s.reqs| && Midway(s.reqs[i]) && s.reqs[i].pc.Doing?
  {
    assert Sound(s, f);
    i := SumSome(Removals, s.reqs, f);
    assert ShapedReq(s.reqs[i]);
    if !Midway(s.reqs[i]) { NoCount(s.reqs[i].pc.todo, Drop(f)); }
  }

  lemma AtomicStep(s: State, step: Step)
    requires AtomicInv(s) && Enabled(s, step) && Allowed(Atomic, s, step)
    ensures AtomicInv(Apply(s, step)) && Guarded(s, step)
  {
    var s' := Apply(s, step);
    AtomicGuards(s, step);
    SoundStep(s, step);
    OwedKept(s, step);
    forall j | 0 <= j < |s'.reqs| ensures LookedLive(s', s'.reqs[j]) {
      if step.Run? && s.reqs[step.i].pc.Start? && j == step.i && s'.reqs[j].pc.Looked? {
        var f := s'.reqs[j].pc.f;
        assert Sound(s, f);
        if s.fids[f].stage.Dying? {
          var k := DyingIsMidway(s, f);
        }
      } else if j < |s.reqs| {
        assert LookedLive(s, s.reqs[j]);
      }
    }
  }

  /* ---- what the counts promise ---- */

  lemma {:induction false} SoundRun(c: Client, run: seq<State>)
    requires Reachable(c, run) && !c.Anyone?
    ensures AllSound(Last(run)) && Shaped(Last(run))
    ensures c.Orderly? ==> OrderlyInv(Last(run))
    ensures c.Atomic? ==> AtomicInv(Last(run))
    decreases |run|
  {
    if |run| > 1 {
      var k := |run| - 2;
      SoundRun(c, run[..k + 1]);
      assert Next(c, run[k], run[k + 1]);
      var step :| Move(c, run[k], step, run[k + 1]);
      match c
      case Careful => SoundStep(run[k], step);
      case Orderly => OrderlyStep(run[k], step);
      case Atomic => AtomicStep(run[k], step);
    }
  }

  /**
   In every state of every run the count of a fid is what the client retains plus what requests hold,
   the fid is in the pool exactly while it is referenced or its removal is under way, and FidDestroy
   has run once if the fid is gone and never otherwise.
   */
  lemma CountsAreExact(c: Client, run: seq<State>, f: F)
    requires Reachable(c, run) && !c.Anyone? && f < |Last(run).fids|
    ensures var s := Last(run);
            var fid := s.fids[f];
            && fid.refcount == (if fid.retained then 1 else 0) + Sum(References, s.reqs, f)
            && (fid.refcount > 0 ==> fid.no in s.pool && s.pool[fid.no] == f && fid.destroyed == 0)
            && (fid.no in s.pool && s.pool[fid.no] == f && fid.refcount == 0 ==> Sum(Removals, s.reqs, f) == 1)
            && (fid.destroyed == if fid.no in s.pool && s.pool[fid.no] == f then 0 else 1)
  {
    SoundRun(c, run);
    assert Sound(Last(run), f);
  }

  /** When all requests are done, a fid is retained, in the pool and counted once, or gone and destroyed once. */
  lemma AtRest(c: Client, run: seq<State>, f: F)
    requires Reachable(c, run) && !c.Anyone? && f < |Last(run).fids|
    requires forall i :: 0 <= i < |Last(run).reqs| ==> Finished(Last(run).reqs[i])
    ensures var s := Last(run);
            var fid := s.fids[f];
            if fid.retained then fid.refcount == 1 && fid.no in s.pool && s.pool[fid.no] == f && fid.destroyed == 0
            else fid.refcount == 0 && !(fid.no in s.pool && s.pool[fid.no] == f) && fid.destroyed == 1
  {
    SoundRun(c, run);
    var s := Last(run);
    assert Sound(s, f);
    SumZero(References, s.reqs, f);
    SumZero(Removals, s.reqs, f);
  }

  /** The half of FidGet that counts keeps the fid sound exactly when the fid is still referenced. */
  lemma FidGetIsSound(s: State, i: nat, ok: bool)
    requires AllSound(s) && Shaped(s) && i < |s.reqs| && s.reqs[i].pc.Looked?
    ensures TypedPc(|s.fids|, s.reqs[i].pc)
    ensures Sound(Advance(s, i, ok), s.reqs[i].pc.f) <==> s.fids[s.reqs[i].pc.f].refcount > 0
  {
    assert TypedPc(|s.fids|, s.reqs[i].pc);
    var f := s.reqs[i].pc.f;
    assert Sound(s, f);
    if s.fids[f].refcount > 0 {
      SoundStep(s, Run(i, ok));
    } else {
      assert Advance(s, i, ok).fids[f].refcount == 1;
      assert !Advance(s, i, ok).fids[f].stage.Live?;
    }
  }

  /** Giving up what the client retained keeps the fid sound exactly when it is retained. */
  lemma ReleaseIsSound(s: State, i: nat, ok: bool)
    requires AllSound(s) && Shaped(s) && i < |s.reqs| && s.reqs[i].pc.Doing?
    requires s.reqs[i].pc.todo != [] && s.reqs[i].pc.todo[0].Rel?
    ensures TypedPc(|s.fids|, s.reqs[i].pc)
    ensures Sound(Advance(s, i, ok), s.reqs[i].pc.todo[0].f) <==> s.fids[s.reqs[i].pc.todo[0].f].retained
  {
    assert TypedPc(|s.fids|, s.reqs[i].pc);
    var todo := s.reqs[i].pc.todo;
    var f := todo[0].f;
    if s.fids[f].retained {
      SoundStep(s, Run(i, ok));
    } else {
      var s' := Advance(s, i, ok);
      assert Sound(s, f) && todo == [todo[0]] + todo[1..] && s'.reqs == s.reqs[i := s'.reqs[i]];
      SumUpdate(References, s.reqs, i, s'.reqs[i], f);
      CountCons(todo[0], todo[1..], Dec(f));
      CountCons(Drop(f), todo[1..], Dec(f));
      assert s'.fids[f].refcount == Sum(References, s'.reqs, f) - 1;
    }
  }

  /** So a step keeps all fids sound if and only if it meets the two conditions. */
  lemma GuardsAreExact(s: State, step: Step)
    requires AllSound(s) && Shaped(s) && Enabled(s, step)
    ensures AllSound(Apply(s, step)) <==> Guarded(s, step)
  {
    if Guarded(s, step) {
      SoundStep(s, step);
    } else if s.reqs[step.i].pc.Looked? {
      FidGetIsSound(s, step.i, step.ok);
    } else {
      ReleaseIsSound(s, step.i, step.ok);
    }
  }

  /* ---- a client that is not orderly ---- */

  /** A state that some run of an unrestrained client ends in. */
  ghost predicate Possible(s: State) {
    exists run :: Reachable(Anyone, run) && Last(run) == s
  }

  lemma TypedStep(s: State, step: Step)
    requires Typed(s) && Enabled(s, step)
    ensures Typed(Apply(s, step))
  {
    if step.Run? {
      assert TypedPc(|s.fids|, s.reqs[step.i].pc);
      var s' := Apply(s, step);
      forall i | 0 <= i < |s'.reqs| ensures TypedPc(|s'.fids|, s'.reqs[i].pc) {
        assert TypedPc(|s.fids|, s.reqs[i].pc);
      }
    }
  }

  lemma {:induction false} TypedRun(run: seq<State>)
    requires Reachable(Anyone, run)
    ensures Typed(Last(run))
    decreases |run|
  {
    if |run| > 1 {
      var k := |run| - 2;
      TypedRun(run[..k + 1]);
      assert Next(Anyone, run[k], run[k + 1]);
      var step :| Move(Anyone, run[k], step, run[k + 1]);
      TypedStep(run[k], step);
    }
  }

  lemma Then(s: State, step: Step)
    requires Possible(s) && Enabled(s, step)
    ensures Typed(s) && Possible(Apply(s, step))
  {
    var run :| Reachable(Anyone, run) && Last(run) == s;
    TypedRun(run);
    var s' := Apply(s, step);
    assert Move(Anyone, s, step, s');
    assert Reachable(Anyone, run + [s']);
    assert Last(run + [s']) == s';
  }

  const A := Req(Attach(5), Doing([]))
  const Fid5 := Fid(5, 1, true, Live, 0)

  lemma Attached()
    ensures Possible(State(map[5 := 0], [Fid5], [A]))
  {
    var k := Attach(5);
    assert Last([Init]) == Init && Reachable(Anyone, [Init]);
    var s1 := State(map[], [], [Req(k, Start)]);
    Then(Init, Arrive(k));
    assert Apply(Init, Arrive(k)) == s1;
    var s2 := State(map[5 := 0], [Fid(5, 1, false, Live, 0)], [Req(k, Working(0, None))]);
    Then(s1, Run(0, true));
    assert Apply(s1, Run(0, true)) == s2;
    var s3 := s2.(reqs := [Req(k, Doing([Inc(0), Dec(0)]))]);
    Then(s2, Run(0, true));
    assert Apply(s2, Run(0, true)) == s3;
    var s4 := State(map[5 := 0], [Fid(5, 2, true, Live, 0)], [Req(k, Doing([Dec(0)]))]);
    Then(s3, Run(0, true));
    assert [Inc(0), Dec(0)][1..] == [Dec(0)];
    assert Apply(s3, Run(0, true)) == s4;
    Then(s4, Run(0, true));
    assert [Dec(0)][1..] == [];
    assert Apply(s4, Run(0, true)) == State(map[5 := 0], [Fid5], [A]);
  }

  const U := Req(Use(5), Looked(0))

  /** One request has looked fid 5 up when a Tclunk of it arrives. */
  lemma LookedUp()
    ensures Possible(State(map[5 := 0], [Fid5], [A, U, Req(Clunk(5), Looked(0))]))
  {
    Attached();
    var s0 := State(map[5 := 0], [Fid5], [A]);
    var s1 := s0.(reqs := [A, Req(Use(5), Start)]);
    Then(s0, Arrive(Use(5)));
    assert Apply(s0, Arrive(Use(5))) == s1;
    var s2 := s0.(reqs := [A, U]);
    Then(s1, Run(1, true));
    assert Apply(s1, Run(1, true)) == s2;
    var s3 := s0.(reqs := [A, U, Req(Clunk(5), Start)]);
    Then(s2, Arrive(Clunk(5)));
    assert Apply(s2, Arrive(Clunk(5))) == s3;
    Then(s3, Run(2, true));
    assert Apply(s3, Run(2, true)) == s0.(reqs := [A, U, Req(Clunk(5), Looked(0))]);
  }

  /** The Tclunk runs to its end. */
  lemma ClunkedBetween()
    ensures Possible(State(map[], [Fid(5, 0, false, Dead, 1)], [A, U, Req(Clunk(5), Doing([]))]))
  {
    LookedUp();
    var p := map[5 := 0];
    var s4 := State(p, [Fid5], [A, U, Req(Clunk(5), Looked(0))]);
    var s5 := State(p, [Fid(5, 2, true, Live, 0)], [A, U, Req(Clunk(5), Working(0, None))]);
    Then(s4, Run(2, true));
    assert Apply(s4, Run(2, true)) == s5;
    var s6 := s5.(reqs := [A, U, Req(Clunk(5), Doing([Rel(0), Dec(0)]))]);
    Then(s5, Run(2, true));
    assert Apply(s5, Run(2, true)) == s6;
    var s7 := State(p, [Fid(5, 1, false, Live, 0)], [A, U, Req(Clunk(5), Doing([Dec(0)]))]);
    Then(s6, Run(2, true));
    assert [Rel(0), Dec(0)][1..] == [Dec(0)];
    assert Apply(s6, Run(2, true)) == s7;
    ClunkEnds(s7);
  }

  lemma ClunkEnds(s7: State)
    requires s7 == State(map[5 := 0], [Fid(5, 1, false, Live, 0)], [A, U, Req(Clunk(5), Doing([Dec(0)]))])
    requires Possible(s7)
    ensures Possible(State(map[], [Fid(5, 0, false, Dead, 1)], [A, U, Req(Clunk(5), Doing([]))]))
  {
    var s8 := State(map[5 := 0], [Fid(5, 0, false, Dying, 0)], [A, U, Req(Clunk(5), Doing([Drop(0)]))]);
    Then(s7, Run(2, true));
    assert [Drop(0)] + [Dec(0)][1..] == [Drop(0)] && [Drop(0)][1..] == [];
    assert Apply(s7, Run(2, true)) == s8;
    Then(s8, Run(2, true));
    assert Apply(s8, Run(2, true)) == State(map[], [Fid(5, 0, false, Dead, 1)], [A, U, Req(Clunk(5), Doing([]))]);
  }

  /** The first request then counts the fid that is gone: FidDestroy runs twice for one Fid. */
  lemma DestroyedTwice()
    ensures exists s :: Possible(s) && |s.fids| == 1 && s.fids[0].destroyed == 2
  {
    ClunkedBetween();
    var c := Req(Clunk(5), Doing([]));
    var s0 := State(map[], [Fid(5, 0, false, Dead, 1)], [A, U, c]);
    var s1 := State(map[], [Fid(5, 1, false, Dead, 1)], [A, Req(Use(5), Working(0, None)), c]);
    Then(s0, Run(1, true));
    assert Apply(s0, Run(1, true)) == s1;
    var s2 := s1.(reqs := [A, Req(Use(5), Doing([Dec(0)])), c]);
    Then(s1, Run(1, true));
    assert Apply(s1, Run(1, true)) == s2;
    assert [Drop(0)] + [Dec(0)][1..] == [Drop(0)] && [Drop(0)][1..] == [];
    var s3 := State(map[], [Fid(5, 0, false, Dying, 1)], [A, Req(Use(5), Doing([Drop(0)])), c]);
    Then(s2, Run(1, true));
    assert Apply(s2, Run(1, true)) == s3;
    var s4 := State(map[], [Fid(5, 0, false, Dead, 2)], [A, Req(Use(5), Doing([])), c]);
    Then(s3, Run(1, true));
    assert Apply(s3, Run(1, true)) == s4;
  }

  /* ---- two Tclunks at once ---- */

  const C1 := Req(Clunk(5), Looked(0))
  const C2 := Req(Clunk(5), Working(0, None))
  const C3 := Req(Clunk(5), Doing([Rel(0), Dec(0)]))
  const C4 := Req(Clunk(5), Doing([Dec(0)]))
  const C5 := Req(Clunk(5), Doing([]))

  /** Both have found the fid, which is still referenced, and counted it. */
  lemma CountedTwice()
    ensures Possible(State(map[5 := 0], [Fid(5, 3, true, Live, 0)], [A, C2, C2]))
  {
    Attached();
    var s0 := State(map[5 := 0], [Fid5], [A]);
    var s1 := s0.(reqs := [A, Req(Clunk(5), Start)]);
    Then(s0, Arrive(Clunk(5)));
    assert Apply(s0, Arrive(Clunk(5))) == s1;
    var s2 := s0.(reqs := [A, C1]);
    Then(s1, Run(1, true));
    assert Apply(s1, Run(1, true)) == s2;
    var s3 := s0.(reqs := [A, C1, Req(Clunk(5), Start)]);
    Then(s2, Arrive(Clunk(5)));
    assert Apply(s2, Arrive(Clunk(5))) == s3;
    var s4 := s0.(reqs := [A, C1, C1]);
    Then(s3, Run(2, true));
    assert Apply(s3, Run(2, true)) == s4;
    var s5 := s0.(fids := [Fid(5, 2, true, Live, 0)], reqs := [A, C2, C1]);
    Then(s4, Run(1, true));
    assert Guarded(s4, Run(1, true)) && Apply(s4, Run(1, true)) == s5;
    Then(s5, Run(2, true));
    assert Guarded(s5, Run(2, true)) &&
      Apply(s5, Run(2, true)) == s5.(fids := [Fid(5, 3, true, Live, 0)], reqs := [A, C2, C2]);
  }

  /** Both succeed, and the second gives up what is not retained any more. */
  lemma ReleasedTwice()
    ensures Possible(State(map[5 := 0], [Fid(5, 1, false, Live, 0)], [A, C4, C4]))
  {
    CountedTwice();
    var s0 := State(map[5 := 0], [Fid(5, 3, true, Live, 0)], [A, C2, C2]);
    var s1 := s0.(reqs := [A, C3, C2]);
    Then(s0, Run(1, true));
    assert Apply(s0, Run(1, true)) == s1;
    var s2 := s0.(reqs := [A, C3, C3]);
    Then(s1, Run(2, true));
    assert Apply(s1, Run(2, true)) == s2;
    assert [Rel(0), Dec(0)][1..] == [Dec(0)];
    var s3 := s0.(fids := [Fid(5, 2, false, Live, 0)], reqs := [A, C4, C3]);
    Then(s2, Run(1, true));
    assert Apply(s2, Run(1, true)) == s3;
    Then(s3, Run(2, true));
    assert !Guarded(s3, Run(2, true)) &&
      Apply(s3, Run(2, true)) == s3.(fids := [Fid(5, 1, false, Live, 0)], reqs := [A, C4, C4]);
  }

  /** Then each gives back its own reference, and FidDestroy runs twice for one Fid. */
  lemma ClunkedTwice()
    ensures exists s :: Possible(s) && |s.fids| == 1 && s.fids[0].refcount == -1 && s.fids[0].destroyed == 2
  {
    ReleasedTwice();
    var d := Req(Clunk(5), Doing([Drop(0)]));
    assert [Dec(0)][1..] == [] && [Drop(0)] + [] == [Drop(0)] && [Drop(0)][1..] == [];
    var s0 := State(map[5 := 0], [Fid(5, 1, false, Live, 0)], [A, C4, C4]);
    var s1 := s0.(fids := [Fid(5, 0, false, Dying, 0)], reqs := [A, d, C4]);
    Then(s0, Run(1, true));
    assert Apply(s0, Run(1, true)) == s1;
    var s2 := State(map[], [Fid(5, 0, false, Dead, 1)], [A, C5, C4]);
    Then(s1, Run(1, true));
    assert Apply(s1, Run(1, true)) == s2;
    var s3 := s2.(fids := [Fid(5, -1, false, Dying, 1)], reqs := [A, C5, d]);
    Then(s2, Run(2, true));
    assert Apply(s2, Run(2, true)) == s3;
    Then(s3, Run(2, true));
    assert Apply(s3, Run(2, true)) == s3.(fids := [Fid(5, -1, false, Dead, 2)], reqs := [A, C5, C5]);
  }

  /* ---- a Tclunk of a number that is still being walked to ---- */

  const W1 := Req(Walk(5, 6), Working(0, Some(1)))
  const W2 := Req(Walk(5, 6), Doing([Inc(1), Dec(0), Dec(1)]))

  /** The Twalk has made fid 6, but not retained it. */
  lemma WalkedTo()
    ensures Possible(State(map[5 := 0, 6 := 1], [Fid(5, 2, true, Live, 0), Fid(6, 1, false, Live, 0)], [A, W1]))
  {
    Attached();
    var k := Walk(5, 6);
    var s0 := State(map[5 := 0], [Fid5], [A]);
    var s1 := s0.(reqs := [A, Req(k, Start)]);
    Then(s0, Arrive(k));
    assert Apply(s0, Arrive(k)) == s1;
    var s2 := s0.(reqs := [A, Req(k, Looked(0))]);
    Then(s1, Run(1, true));
    assert Apply(s1, Run(1, true)) == s2;
    var s3 := s0.(fids := [Fid(5, 2, true, Live, 0)], reqs := [A, Req(k, Held(0))]);
    Then(s2, Run(1, true));
    assert Apply(s2, Run(1, true)) == s3;
    Then(s3, Run(1, true));
    assert Apply(s3, Run(1, true)) ==
           State(map[5 := 0, 6 := 1], [Fid(5, 2, true, Live, 0), Fid(6, 1, false, Live, 0)], [A, W1]);
  }

  /** A Tclunk finds it and gives it up. */
  lemma ReleasedSoon()
    ensures Possible(State(map[5 := 0, 6 := 1], [Fid(5, 2, true, Live, 0), Fid(6, 1, false, Live, 0)],
                           [A, W1, Req(Clunk(6), Doing([Dec(1)]))]))
  {
    WalkedTo();
    var k := Clunk(6);
    var s0 := State(map[5 := 0, 6 := 1], [Fid(5, 2, true, Live, 0), Fid(6, 1, false, Live, 0)], [A, W1]);
    var s1 := s0.(reqs := [A, W1, Req(k, Start)]);
    Then(s0, Arrive(k));
    assert Apply(s0, Arrive(k)) == s1;
    var s2 := s0.(reqs := [A, W1, Req(k, Looked(1))]);
    Then(s1, Run(2, true));
    assert Apply(s1, Run(2, true)) == s2;
    var counted := [Fid(5, 2, true, Live, 0), Fid(6, 2, false, Live, 0)];
    var s3 := s0.(fids := counted, reqs := [A, W1, Req(k, Working(1, None))]);
    Then(s2, Run(2, true));
    assert Guarded(s2, Run(2, true)) && Apply(s2, Run(2, true)) == s3;
    var s4 := s0.(fids := counted, reqs := [A, W1, Req(k, Doing([Rel(1), Dec(1)]))]);
    Then(s3, Run(2, true));
    assert Apply(s3, Run(2, true)) == s4;
    Then(s4, Run(2, true));
    assert [Rel(1), Dec(1)][1..] == [Dec(1)];
    assert !Guarded(s4, Run(2, true)) && Apply(s4, Run(2, true)) == s0.(reqs := [A, W1, Req(k, Doing([Dec(1)]))]);
  }

  lemma EndedSoon()
    ensures Possible(State(map[5 := 0], [Fid(5, 2, true, Live, 0), Fid(6, 0, false, Dead, 1)],
                           [A, W2, Req(Clunk(6), Doing([]))]))
  {
    ReleasedSoon();
    var k, walked := Clunk(6), Fid(5, 2, true, Live, 0);
    var s0 := State(map[5 := 0, 6 := 1], [walked, Fid(6, 1, false, Live, 0)], [A, W1, Req(k, Doing([Dec(1)]))]);
    var s1 := s0.(fids := [walked, Fid(6, 0, false, Dying, 0)], reqs := [A, W1, Req(k, Doing([Drop(1)]))]);
    assert [Dec(1)][1..] == [] && [Drop(1)] + [] == [Drop(1)] && [Drop(1)][1..] == [];
    Then(s0, Run(2, true));
    assert Apply(s0, Run(2, true)) == s1;
    var s2 := State(map[5 := 0], [walked, Fid(6, 0, false, Dead, 1)], [A, W1, Req(k, Doing([]))]);
    Then(s1, Run(2, true));
    assert Apply(s1, Run(2, true)) == s2;
    Then(s2, Run(1, true));
    assert Apply(s2, Run(1, true)) == s2.(reqs := [A, W2, Req(k, Doing([]))]);
  }

  /** The Twalk then retains a fid that is gone, and FidDestroy runs twice for it too. */
  lemma ClunkedTooSoon()
    ensures exists s :: Possible(s) && |s.fids| == 2 && s.fids[1].destroyed == 2
  {
    EndedSoon();
    var k, c := Walk(5, 6), Req(Clunk(6), Doing([]));
    var s0 := State(map[5 := 0], [Fid(5, 2, true, Live, 0), Fid(6, 0, false, Dead, 1)], [A, W2, c]);
    assert [Inc(1), Dec(0), Dec(1)][1..] == [Dec(0), Dec(1)] && [Dec(0), Dec(1)][1..] == [Dec(1)];
    assert [Dec(1)][1..] == [] && [Drop(1)] + [] == [Drop(1)] && [Drop(1)][1..] == [];
    var s1 := s0.(fids := [Fid(5, 2, true, Live, 0), Fid(6, 1, true, Dead, 1)],
                  reqs := [A, Req(k, Doing([Dec(0), Dec(1)])), c]);
    Then(s0, Run(1, true));
    assert Apply(s0, Run(1, true)) == s1;
    var s2 := s0.(fids := [Fid(5, 1, true, Live, 0), Fid(6, 1, true, Dead, 1)],
                  reqs := [A, Req(k, Doing([Dec(1)])), c]);
    Then(s1, Run(1, true));
    assert Apply(s1, Run(1, true)) == s2;
    var s3 := s0.(fids := [Fid(5, 1, true, Live, 0), Fid(6, 0, true, Dying, 1)],
                  reqs := [A, Req(k, Doing([Drop(1)])), c]);
    Then(s2, Run(1, true));
    assert Apply(s2, Run(1, true)) == s3;
    Then(s3, Run(1, true));
    assert Apply(s3, Run(1, true)) ==
           s0.(fids := [Fid(5, 1, true, Live, 0), Fid(6, 0, true, Dead, 2)], reqs := [A, Req(k, Doing([])), c]);
  }
}
