/**
 Which flushes are answered when ordinary requests share tags and are flushed: once every goroutine is at rest, all
 but those that wait for a request not answered yet, and those that were lost when they were handed on.
 */
module GroupRest {
  import opened Common
  import opened Engine
  import opened SharedTags
  import opened LostFlush
  import F = FlushProtocol
  import Rest

  /* ---- what requests and activations show ---- */

  ghost predicate Fits(s: State, i: Id)
    requires Is(s, i)
  {
    var r := s.reqs[i];
    && (r.flush || r.past.suppressed ==> r.past.flushers != [])
    && (r.kind.Tflush? ==> r.past.flushers == [])
    && (r.past.flushers != [] ==> F.Flushes(s, r.past.flushers[0], i))
    && (r.past.after.None? ==> r.past.proc.Some?)
    && (r.past.after.Some? ==> Is(s, r.past.after.value) && s.reqs[r.past.after.value].prev == Some(i))
    && (r.kind.Tflush? && r.next.Some? ==> TailOk(s, i))
  }

  /** A Tflush whose next is set came last when the request it flushed was handed more flushes. */
  ghost predicate TailOk(s: State, p: Id)
    requires Is(s, p) && s.reqs[p].next.Some?
  {
    && Waits(s, p) && Waits(s, s.reqs[p].next.value) && Is(s, s.reqs[p].past.victim.value)
    && var o := s.reqs[s.reqs[p].past.victim.value].past.after; o.Some? && Is(s, o.value) && Unlinked(s, o.value)
  }

  /** The flush its list begins with has been answered. */
  ghost predicate FirstAnswered(s: State, i: Id)
    requires Is(s, i)
  {
    var h := s.reqs[i].flushreq;
    s.reqs[i].prev.None? && h.Some? ==> Is(s, h.value) && s.reqs[h.value].responded
  }

  /** The request queued behind it has been started. */
  ghost predicate NextStarted(s: State, i: Id)
    requires Is(s, i)
  {
    var n := s.reqs[i].prev;
    n.Some? ==> Is(s, n.value) && s.reqs[n.value].past.proc.Some?
  }

  ghost predicate Walked(s: State, i: Id, cur: Option<Id>, done: nat)
    requires Is(s, i)
  {
    && NextStarted(s, i)
    && (s.reqs[i].prev.None? ==>
        if done == 0 then cur == s.reqs[i].flushreq else s.reqs[i].flushreq.Some? && FirstAnswered(s, i))
  }

  ghost predicate Working(s: State, a: nat)
    requires a < |s.acts| && Is(s, s.acts[a].req)
  {
    var i := s.acts[a].req;
    var r := s.reqs[i];
    match s.acts[a]
    case Process(_, pp) =>
      && (pp.Judge? ==> Is(s, pp.victim) && s.reqs[pp.victim].past.flushers != [])
      && (pp.AskServer? ==> Is(s, pp.victim) && s.reqs[pp.victim].past.flushers != [])
    case Respond(_, rp) =>
      && (r.kind.Plain? ==> r.past.handed || r.past.flushers != [])
      && match rp
         case Claim => true
         case Unlink(fl) => fl ==> r.past.flushers != []
         case Post(fl, n, h) => (fl ==> r.past.flushers != []) && n == r.prev && (r.prev.None? ==> h == r.flushreq)
         case StartNext(n, h) => n == r.prev && (r.prev.None? ==> h == r.flushreq)
         case Loop(cur, done) => Walked(s, i, cur, done)
         case InLoop(cur, done, _) => Walked(s, i, cur, done)
         case Closed => r.past.winner == Some(a) ==> NextStarted(s, i) && FirstAnswered(s, i)
  }

  /** What the next of a Tflush names. */
  ghost predicate Dangles(s: State, h: Id) {
    exists g :: 0 <= g < |s.reqs| && s.reqs[g].kind.Tflush? && s.reqs[g].next == Some(h)
  }

  /** f is led to by an ordinary request that has not handed its flushes on, or by the next of a Tflush. */
  ghost predicate RootAt(s: State, j: Id, n: nat, f: Id) {
    && Is(s, j) && F.After(s.reqs, j, n) == Some(f)
    && if s.reqs[j].kind.Plain? then n > 0 && !Gone(s, j) else Dangles(s, j)
  }

  ghost predicate Rooted(s: State, f: Id) {
    exists j: Id, n: nat :: RootAt(s, j, n, f)
  }

  /** f hangs on the next of a Tflush, where nothing that answers looks. */
  ghost predicate Hangs(s: State, f: Id) {
    exists h: Id, n: nat :: Dangles(s, h) && F.After(s.reqs, h, n) == Some(f)
  }

  ghost function Hanging(s: State): (c: set<Id>)
    ensures forall f: nat :: f in c <==> f < |s.reqs| && Hangs(s, f)
  {
    set f: nat | 0 <= f < |s.reqs| && Hangs(s, f)
  }

  ghost predicate Resting(s: State) {
    && Held(s)
    && (forall i {:trigger Fits(s, i)} :: 0 <= i < |s.reqs| ==> Fits(s, i))
    && (forall a {:trigger Working(s, a)} :: 0 <= a < |s.acts| ==> Working(s, a))
    && (forall f {:trigger Rooted(s, f)} :: 0 <= f < |s.reqs| && Waits(s, f) ==> Rooted(s, f))
    && Lost(s, Hanging(s))
  }

  /* ---- what a step keeps of the others ---- */

  /** The links are the same, and what has happened to the request stays so. */
  ghost predicate Still(r: Req, r': Req) {
    && r'.kind == r.kind && r'.flushreq == r.flushreq && r'.prev == r.prev && r'.next == r.next
    && r'.past.after == r.past.after && r'.past.victim == r.past.victim && r'.past.flushers == r.past.flushers
    && Later(r, r')
  }

  ghost predicate Later(r: Req, r': Req) {
    && (r.past.handed ==> r'.past.handed) && (r.responded ==> r'.responded)
    && (r.past.proc.Some? ==> r'.past.proc.Some?)
    && (r.past.winner.Some? ==> r'.past.winner == r.past.winner)
  }

  /** What an activation that stands still looks at. */
  ghost predicate Unmoved(s: State, s': State) {
    && |s.reqs| <= |s'.reqs|
    && (forall i :: 0 <= i < |s.reqs| ==>
          && s'.reqs[i].kind == s.reqs[i].kind && Later(s.reqs[i], s'.reqs[i])
          && (s.reqs[i].past.flushers != [] ==> s'.reqs[i].past.flushers != []))
    && (forall i {:trigger Unlinked(s, i)} :: 0 <= i < |s.reqs| && Unlinked(s, i) ==>
          s'.reqs[i].prev == s.reqs[i].prev && (s.reqs[i].prev.None? ==> s'.reqs[i].flushreq == s.reqs[i].flushreq))
  }

  lemma WorkingKept(s: State, s': State, a: nat)
    requires Base(s) && Unmoved(s, s') && a < |s.acts| && a < |s'.acts| && s'.acts[a] == s.acts[a] && Working(s, a)
    ensures Working(s', a)
  {
    var i := s.acts[a].req;
    assert BaseAct(s, a) && BaseReq(s, i);
    if s.acts[a].Respond? && !s.acts[a].rp.Claim? && !s.acts[a].rp.Unlink? {
      if !s.acts[a].rp.Closed? || s.reqs[i].past.winner == Some(a) { assert Unlinked(s, i); }
    }
  }

  /** A step of an activation that leaves all links alone. */
  ghost predicate Undisturbed(s: State, s': State, a: nat) {
    && |s'.reqs| == |s.reqs| && |s.acts| <= |s'.acts|
    && (forall i :: 0 <= i < |s.reqs| ==> Still(s.reqs[i], s'.reqs[i]))
    && (forall i :: 0 <= i < |s.reqs| && (s'.reqs[i].flush || s'.reqs[i].past.suppressed) ==>
          s.reqs[i].flush || s.reqs[i].past.suppressed || s.reqs[i].past.flushers != [])
    && (forall b :: 0 <= b < |s.acts| && b != a ==> s'.acts[b] == s.acts[b])
  }

  lemma FitsStill(s: State, s': State, a: nat, i: Id)
    requires Undisturbed(s, s', a) && Is(s, i) && Fits(s, i)
    requires forall j :: 0 <= j < |s.reqs| && Unlinked(s, j) ==> Unlinked(s', j)
    ensures Fits(s', i)
  {
  }

  /* ---- paths ---- */

  /** Every flushreq leads to a Tflush that has found its victim. */
  ghost predicate LeadsWell(s: State) {
    forall j {:trigger WellAt(s, j)} :: 0 <= j < |s.reqs| ==> WellAt(s, j)
  }

  ghost predicate WellAt(s: State, j: Id)
    requires Is(s, j)
  {
    s.reqs[j].flushreq.Some? ==> Waits(s, s.reqs[j].flushreq.value)
  }

  lemma AllLeadWell(s: State)
    requires Inv(s)
    ensures LeadsWell(s)
  {
    forall j | 0 <= j < |s.reqs| ensures WellAt(s, j) { assert ReqOk(s, j); }
  }

  lemma NobodyNew(s: State)
    requires LeadsWell(s)
    ensures Free(s, |s.reqs|)
  {
    forall j | 0 <= j < |s.reqs| ensures s.reqs[j].flushreq != Some(|s.reqs|) { assert WellAt(s, j); }
  }

  /** A way that does not meet g, whose flushreq may have changed. */
  lemma {:induction false} SameWay(s: State, s': State, g: Id, j: Id, n: nat)
    requires LeadsWell(s) && Is(s, j) && |s.reqs| <= |s'.reqs| && Free(s, g) && j != g
    requires s'.reqs[j].flushreq == s.reqs[j].flushreq
    requires forall x :: 0 <= x < |s.reqs| && s.reqs[x].kind.Tflush? && x != g ==>
               s'.reqs[x].flushreq == s.reqs[x].flushreq
    ensures F.After(s'.reqs, j, n) == F.After(s.reqs, j, n)
    ensures n > 0 && F.After(s.reqs, j, n).Some? ==>
              Waits(s, F.After(s.reqs, j, n).value) && F.After(s.reqs, j, n).value != g
    decreases n
  {
    if n > 0 {
      SameWay(s, s', g, j, n - 1);
      var x := F.After(s.reqs, j, n - 1);
      assert x.Some? ==> WellAt(s, x.value);
    }
  }

  /** One link more in front. */
  lemma {:induction false} FromHead(reqs: seq<Req>, i: Id, h: Id, n: nat)
    requires i < |reqs| && reqs[i].flushreq == Some(h)
    ensures F.After(reqs, i, n + 1) == F.After(reqs, h, n)
    decreases n
  {
    if n > 0 { FromHead(reqs, i, h, n - 1); } else { assert F.After(reqs, i, 0) == Some(i); }
  }

  /** No link has changed, and no request has newly handed on its flushes. */
  ghost predicate SameLinks(s: State, s': State) {
    && |s.reqs| <= |s'.reqs|
    && (forall i :: 0 <= i < |s.reqs| ==>
        s'.reqs[i].kind == s.reqs[i].kind && s'.reqs[i].flushreq == s.reqs[i].flushreq)
    && (forall i :: 0 <= i < |s.reqs| && s.reqs[i].kind.Tflush? ==> s'.reqs[i].next == s.reqs[i].next)
    && (forall i {:trigger Gone(s', i)} :: 0 <= i < |s.reqs| && Gone(s', i) ==> Gone(s, i))
    && (forall i :: |s.reqs| <= i < |s'.reqs| && s'.reqs[i].kind.Tflush? ==> s'.reqs[i].next.None?)
  }

  lemma RootedStill(s: State, s': State, f: Id)
    requires Inv(s) && SameLinks(s, s') && Rooted(s, f)
    ensures Rooted(s', f)
  {
    var j: Id, n: nat :| RootAt(s, j, n, f);
    AllLeadWell(s);
    NobodyLeads(s, |s.reqs|);
    SameWay(s, s', |s.reqs|, j, n);
    if Dangles(s, j) {
      var g :| 0 <= g < |s.reqs| && s.reqs[g].kind.Tflush? && s.reqs[g].next == Some(j);
      assert s'.reqs[g].next == Some(j);
    }
    assert RootAt(s', j, n, f);
  }

  lemma HangsStill(s: State, s': State, f: Id)
    requires Inv(s) && SameLinks(s, s') && f < |s.reqs|
    requires forall g :: 0 <= g < |s.reqs| && s.reqs[g].kind.Tflush? && s.reqs[g].next.Some? ==>
               Is(s, s.reqs[g].next.value)
    ensures Hangs(s', f) <==> Hangs(s, f)
  {
    AllLeadWell(s);
    NobodyLeads(s, |s.reqs|);
    forall h: Id, n: nat
      ensures Dangles(s', h) && F.After(s'.reqs, h, n) == Some(f) <==> Dangles(s, h) && F.After(s.reqs, h, n) == Some(f)
    {
      DanglesStill(s, s', h);
      if Dangles(s, h) { SameWay(s, s', |s.reqs|, h, n); }
    }
  }

  lemma DanglesStill(s: State, s': State, h: Id)
    requires SameLinks(s, s')
    ensures Dangles(s', h) <==> Dangles(s, h)
  {
    if Dangles(s, h) {
      var g :| 0 <= g < |s.reqs| && s.reqs[g].kind.Tflush? && s.reqs[g].next == Some(h);
      assert s'.reqs[g].next == Some(h);
    }
    if Dangles(s', h) {
      var g :| 0 <= g < |s'.reqs| && s'.reqs[g].kind.Tflush? && s'.reqs[g].next == Some(h);
      assert s.reqs[g].next == Some(h);
    }
  }

  /* ---- steps that leave the links alone ---- */

  predicate Beyond(act: Act) {
    act.Respond? && !act.rp.Claim? && !act.rp.Unlink?
  }

  /** No request is newly past Unlink, but for one with none behind it. */
  ghost predicate StaysIn(s: State, s': State, a: nat) {
    forall j :: 0 <= j < |s.reqs| && j < |s'.reqs| ==>
      && (s'.reqs[j].past.winner == s.reqs[j].past.winner || s'.reqs[j].past.winner == Some(a))
      && (s'.reqs[j].past.winner == Some(a) && a < |s'.acts| && Beyond(s'.acts[a]) ==>
            s.reqs[j].past.winner == Some(a) && a < |s.acts| && (Beyond(s.acts[a]) || s.reqs[j].prev.None?))
  }

  lemma GoneBefore(s: State, s': State, a: nat, j: Id)
    requires Base(s) && Undisturbed(s, s', a) && StaysIn(s, s', a) && Is(s, j) && Gone(s', j)
    ensures Gone(s, j)
  {
    assert BaseReq(s, j);
  }

  lemma QuietRests(s: State, s': State, a: nat)
    requires Resting(s) && Held(s') && Onward(s, s') && Undisturbed(s, s', a) && StaysIn(s, s', a)
    requires Lost(s', Hanging(s))
    requires forall b :: 0 <= b < |s'.acts| && (b == a || b >= |s.acts|) ==> Working(s', b)
    ensures Resting(s')
  {
    forall i | 0 <= i < |s'.reqs| ensures Fits(s', i) {
      assert Fits(s, i);
      FitsStill(s, s', a, i);
    }
    forall b | 0 <= b < |s'.acts| ensures Working(s', b) {
      if b < |s.acts| && b != a {
        assert Working(s, b);
        WorkingKept(s, s', b);
      }
    }
    forall j | 0 <= j < |s.reqs| && Gone(s', j) ensures Gone(s, j) { GoneBefore(s, s', a, j); }
    SameRoots(s, s');
  }

  lemma SameRoots(s: State, s': State)
    requires Resting(s) && Inv(s') && SameLinks(s, s') && Lost(s', Hanging(s))
    requires forall f :: Waits(s', f) ==> Waits(s, f)
    ensures forall f {:trigger Rooted(s', f)} :: 0 <= f < |s'.reqs| && Waits(s', f) ==> Rooted(s', f)
    ensures Lost(s', Hanging(s'))
  {
    forall f | 0 <= f < |s'.reqs| && Waits(s', f) ensures Rooted(s', f) {
      assert Rooted(s, f);
      RootedStill(s, s', f);
    }
    forall g | 0 <= g < |s.reqs| && s.reqs[g].kind.Tflush? && s.reqs[g].next.Some? ensures Is(s, s.reqs[g].next.value) {
      assert Fits(s, g);
    }
    forall f: nat ensures f in Hanging(s') <==> f in Hanging(s) {
      if f < |s.reqs| { HangsStill(s, s', f); } else { NewHangsNot(s, s', f); }
    }
    assert Hanging(s') == Hanging(s);
  }

  /** A request that was not there is on no chain. */
  lemma NewHangsNot(s: State, s': State, f: Id)
    requires Inv(s) && Inv(s') && SameLinks(s, s') && f >= |s.reqs| && !Waits(s', f)
    requires forall g :: 0 <= g < |s.reqs| && s.reqs[g].kind.Tflush? && s.reqs[g].next.Some? ==>
               Is(s, s.reqs[g].next.value)
    ensures !Hangs(s', f)
  {
    forall h: Id, n: nat | Dangles(s', h) ensures F.After(s'.reqs, h, n) != Some(f) {
      DanglesStill(s, s', h);
      NobodyLeads(s', f);
    }
  }

  lemma AnswerRests(s: State, i: Id)
    requires Resting(s) && Is(s, i) && s.reqs[i].kind.Plain? && s.reqs[i].past.handed
    requires var s' := Spawn(s, Respond(i, Claim)); Held(s') && Onward(s, s') && Lost(s', Hanging(s))
    ensures Resting(Spawn(s, Respond(i, Claim)))
  {
    QuietRests(s, Spawn(s, Respond(i, Claim)), |s.acts|);
  }

  /** The activation of a process moved on, and may have asked for the answering of v. */
  lemma OneRests(s: State, s': State, a: nat, v: Id)
    requires Resting(s) && Held(s') && Onward(s, s') && Lost(s', Hanging(s)) && a < |s.acts| && Is(s, v)
    requires s'.reqs == s.reqs[v := s'.reqs[v]] && Still(s.reqs[v], s'.reqs[v])
    requires s'.reqs[v].past.winner == s.reqs[v].past.winner
    requires s'.reqs[v].flush || s'.reqs[v].past.suppressed ==>
               s.reqs[v].flush || s.reqs[v].past.suppressed || s.reqs[v].past.flushers != []
    requires |s.acts| <= |s'.acts| && s'.acts[a].Process? && s'.acts[..|s.acts|] == s.acts[a := s'.acts[a]]
    requires Working(s', a)
    requires forall b :: |s.acts| <= b < |s'.acts| ==>
               s'.acts[b] == Respond(v, Claim) && (s.reqs[v].kind.Plain? ==> s.reqs[v].past.flushers != [])
    ensures Resting(s')
  {
    forall b | 0 <= b < |s.acts| && b != a
      ensures s'.acts[b] == s.acts[b]
    {
      assert s'.acts[..|s.acts|][b] == s'.acts[b];
    }
    QuietRests(s, s', a);
  }

  lemma FlushVictimRests(s: State, a: nat, i: Id, v: Id)
    requires Resting(s) && a < |s.acts| && s.acts[a].Process? && s.acts[a].req == i && Is(s, v)
    requires s.reqs[v].past.flushers != []
    requires var s' := FlushVictim(s, a, i, v); Held(s') && Onward(s, s') && Lost(s', Hanging(s))
    ensures Resting(FlushVictim(s, a, i, v))
  {
    OneRests(s, FlushVictim(s, a, i, v), a, v);
  }

  lemma ResumeRests(s: State, a: nat, i: Id, pp: ProcPc)
    requires Resting(s) && a < |s.acts| && s.acts[a].Process? && s.acts[a].req == i && Is(s, i)
    requires pp.Finish? || pp.Handle? || (pp.AskServer? && s.acts[a].pp == Judge(pp.victim))
    requires var s' := Go(s, a, Process(i, pp)); Held(s') && Onward(s, s') && Lost(s', Hanging(s))
    ensures Resting(Go(s, a, Process(i, pp)))
  {
    assert Working(s, a);
    OneRests(s, Go(s, a, Process(i, pp)), a, i);
  }

  lemma BeginRests(s: State, a: nat, i: Id)
    requires Resting(s) && a < |s.acts| && s.acts[a] == Process(i, Begin) && Is(s, i)
    requires var s' := BeginStep(s, a, i); Held(s') && Onward(s, s') && Lost(s', Hanging(s))
    ensures Resting(BeginStep(s, a, i))
  {
    assert Fits(s, i);
    OneRests(s, BeginStep(s, a, i), a, i);
  }

  lemma FinishRests(s: State, a: nat, i: Id)
    requires Resting(s) && a < |s.acts| && s.acts[a] == Process(i, Finish) && Is(s, i)
    requires var s' := FinishStep(s, a, i); Held(s') && Onward(s, s') && Lost(s', Hanging(s))
    ensures Resting(FinishStep(s, a, i))
  {
    OneRests(s, FinishStep(s, a, i), a, i);
  }

  lemma ProcessRests(s: State, a: nat, flushOp: bool)
    requires Resting(s) && Enabled(s, Run(a, flushOp)) && s.acts[a].Process? && !s.acts[a].pp.Handle?
    requires var s' := Advance(s, a, flushOp); Held(s') && Onward(s, s') && Lost(s', Hanging(s))
    ensures Resting(Advance(s, a, flushOp))
  {
    var i := s.acts[a].req;
    assert Working(s, a);
    match s.acts[a].pp
    case Begin => BeginRests(s, a, i);
    case Finish => FinishRests(s, a, i);
    case Judge(v) =>
      if !s.reqs[v].work && !s.reqs[v].saved {
        FlushVictimRests(s, a, i, v);
      } else {
        ResumeRests(s, a, i, AskServer(v));
      }
    case AskServer(v) =>
      if flushOp { FlushVictimRests(s, a, i, v); } else { ResumeRests(s, a, i, Finish); }
    case Flushed(_) => ResumeRests(s, a, i, Handle);
    case NoVictim(_) => ResumeRests(s, a, i, Finish);
    case Calling(_) => ResumeRests(s, a, i, Finish);
    case Handle =>
    case Ended =>
  }

  lemma HandRests(s: State, a: nat, flushOp: bool)
    requires Resting(s) && Enabled(s, Run(a, flushOp)) && s.acts[a].Process? && s.acts[a].pp.Handle?
    requires Links(s, a).None?
    requires var s' := Advance(s, a, flushOp); Held(s') && Onward(s, s') && Lost(s', Hanging(s))
    ensures Resting(Advance(s, a, flushOp))
  {
    var i := s.acts[a].req;
    OneRests(s, Advance(s, a, flushOp), a, i);
  }

  /* ---- answering ---- */

  lemma ClaimIsQuiet(s: State, a: nat, i: Id)
    requires Typed(s) && a < |s.acts| && s.acts[a] == Respond(i, Claim) && Is(s, i) && Fits(s, i) && BaseReq(s, i)
    ensures Undisturbed(s, ClaimStep(s, a, i), a)
  {
  }

  lemma ClaimStays(s: State, a: nat, i: Id)
    requires Base(s) && a < |s.acts| && s.acts[a] == Respond(i, Claim) && Is(s, i)
    ensures StaysIn(s, ClaimStep(s, a, i), a)
  {
    forall j | 0 <= j < |s.reqs| ensures s.reqs[j].past.winner != Some(a) { assert BaseReq(s, j); }
  }

  lemma ClaimWorks(s: State, a: nat, i: Id)
    requires Typed(s) && a < |s.acts| && s.acts[a] == Respond(i, Claim) && Is(s, i) && Working(s, a) && Fits(s, i)
    requires BaseReq(s, i)
    ensures Working(ClaimStep(s, a, i), a)
  {
  }

  lemma ClaimRests(s: State, a: nat, i: Id)
    requires Resting(s) && a < |s.acts| && s.acts[a] == Respond(i, Claim) && Is(s, i)
    requires var s' := ClaimStep(s, a, i); Held(s') && Onward(s, s') && Lost(s', Hanging(s))
    ensures Resting(ClaimStep(s, a, i))
  {
    assert Working(s, a) && Fits(s, i) && BaseReq(s, i);
    ClaimIsQuiet(s, a, i);
    ClaimStays(s, a, i);
    ClaimWorks(s, a, i);
    QuietRests(s, ClaimStep(s, a, i), a);
  }

  lemma PostRests(s: State, a: nat, i: Id, fl: bool, n: Option<Id>, f: Option<Id>)
    requires Resting(s) && a < |s.acts| && s.acts[a] == Respond(i, Post(fl, n, f)) && Is(s, i)
    requires Named(|s.reqs|, n) && Named(|s.reqs|, f)
    requires var s' := PostStep(s, a, i, fl, n, f); Held(s') && Onward(s, s') && Lost(s', Hanging(s))
    ensures Resting(PostStep(s, a, i, fl, n, f))
  {
    assert Working(s, a);
    QuietRests(s, PostStep(s, a, i, fl, n, f), a);
  }

  lemma StartNextRests(s: State, a: nat, i: Id, n: Option<Id>, f: Option<Id>)
    requires Resting(s) && a < |s.acts| && s.acts[a] == Respond(i, StartNext(n, f)) && Is(s, i)
    requires Named(|s.reqs|, n) && Named(|s.reqs|, f)
    requires var s' := StartNextStep(s, a, i, n, f); Held(s') && Onward(s, s') && Lost(s', Hanging(s))
    ensures Resting(StartNextStep(s, a, i, n, f))
  {
    assert Working(s, a);
    QuietRests(s, StartNextStep(s, a, i, n, f), a);
  }

  lemma LoopRests(s: State, a: nat, i: Id, cur: Option<Id>, done: nat)
    requires Resting(s) && a < |s.acts| && s.acts[a] == Respond(i, Loop(cur, done)) && Named(|s.reqs|, cur) && Is(s, i)
    requires var s' := LoopStep(s, a, i, cur, done); Held(s') && Onward(s, s') && Lost(s', Hanging(s))
    ensures Resting(LoopStep(s, a, i, cur, done))
  {
    assert Working(s, a) && ActOk(s, a);
    QuietRests(s, LoopStep(s, a, i, cur, done), a);
  }

  lemma InLoopRests(s: State, a: nat, i: Id, cur: Option<Id>, done: nat, call: nat)
    requires Resting(s) && a < |s.acts| && s.acts[a] == Respond(i, InLoop(cur, done, call)) && cur.Some?
    requires Is(s, cur.value)
    requires call < |s.acts| && s.acts[call].Over() && Is(s, i)
    requires var s' := Go(s, a, Respond(i, Loop(s.reqs[cur.value].flushreq, done + 1)));
             Held(s') && Onward(s, s') && Lost(s', Hanging(s))
    ensures Resting(Go(s, a, Respond(i, Loop(s.reqs[cur.value].flushreq, done + 1))))
  {
    assert Working(s, a) && ActOk(s, a) && BaseAct(s, call);
    QuietRests(s, Go(s, a, Respond(i, Loop(s.reqs[cur.value].flushreq, done + 1))), a);
  }

  lemma UnlinkLastRests(s: State, a: nat, i: Id, fl: bool)
    requires Resting(s) && a < |s.acts| && s.acts[a] == Respond(i, Unlink(fl)) && Is(s, i) && s.reqs[i].prev.None?
    requires var s' := UnlinkStep(s, a, i, fl); Held(s') && Onward(s, s') && Lost(s', Hanging(s))
    ensures Resting(UnlinkStep(s, a, i, fl))
  {
    assert Working(s, a) && BaseAct(s, a);
    forall j | 0 <= j < |s.reqs| && s.reqs[j].past.winner == Some(a) ensures j == i { assert BaseReq(s, j); }
    QuietRests(s, UnlinkStep(s, a, i, fl), a);
  }

  /* ---- a request comes in ---- */

  lemma RecvFits(s: State, s': State, tag: Tag, kind: Kind, j: Id)
    requires Received(s, s', tag, kind) && JoinsPlain(s, tag, kind) && Is(s, j) && Fits(s, j)
    requires tag in s.conn ==> TagOk(s, tag)
    requires forall i :: 0 <= i < |s.reqs| ==> SameButPrev(s.reqs[i], s'.reqs[i])
    requires forall i {:trigger Unlinked(s', i)} :: 0 <= i < |s.reqs| ==> Unlinked(s', i) == Unlinked(s, i)
    ensures Fits(s', j)
  {
  }

  ghost predicate SameButPrev(r: Req, r': Req) {
    r' == r.(prev := r'.prev)
  }

  lemma RecvIs(s: State, tag: Tag, kind: Kind)
    requires Inv(s) && JoinsPlain(s, tag, kind)
    ensures var s' := Receive(s, tag, kind);
            && Received(s, s', tag, kind) && (tag in s.conn || s'.reqs[|s.reqs|].past.proc.Some?)
            && forall b :: |s.acts| <= b < |s'.acts| ==>
                s'.acts[b].Process? && s'.acts[b].pp.Begin? && Is(s', s'.acts[b].req)
  {
  }

  lemma RecvRests(s: State, tag: Tag, kind: Kind)
    requires Resting(s) && JoinsPlain(s, tag, kind)
    requires var s' := Receive(s, tag, kind); Held(s') && Onward(s, s') && Lost(s', Hanging(s))
    ensures Resting(Receive(s, tag, kind))
  {
    RecvIs(s, tag, kind);
    ReceivedRests(s, Receive(s, tag, kind), tag, kind);
  }

  lemma ReceivedRests(s: State, s': State, tag: Tag, kind: Kind)
    requires Resting(s) && JoinsPlain(s, tag, kind) && Received(s, s', tag, kind) && Held(s') && Lost(s', Hanging(s))
    requires tag in s.conn || s'.reqs[|s.reqs|].past.proc.Some?
    requires forall b :: |s.acts| <= b < |s'.acts| ==>
               s'.acts[b].Process? && s'.acts[b].pp.Begin? && Is(s', s'.acts[b].req)
    ensures Resting(s')
  {
    RecvAllFit(s, s', tag, kind);
    MoreWork(s, s');
    SameRoots(s, s');
  }

  /** The new activations have not begun. */
  lemma MoreWork(s: State, s': State)
    requires Base(s) && Unmoved(s, s') && |s.acts| <= |s'.acts|
    requires forall b :: 0 <= b < |s.acts| ==> s'.acts[b] == s.acts[b]
    requires forall a {:trigger Working(s, a)} :: 0 <= a < |s.acts| ==> Working(s, a)
    requires forall b :: |s.acts| <= b < |s'.acts| ==>
               s'.acts[b].Process? && s'.acts[b].pp.Begin? && Is(s', s'.acts[b].req)
    ensures forall a {:trigger Working(s', a)} :: 0 <= a < |s'.acts| ==> Working(s', a)
  {
    forall b | 0 <= b < |s'.acts| ensures Working(s', b) {
      if b < |s.acts| {
        assert Working(s, b);
        WorkingKept(s, s', b);
      }
    }
  }

  lemma RecvAllFit(s: State, s': State, tag: Tag, kind: Kind)
    requires Resting(s) && JoinsPlain(s, tag, kind) && Received(s, s', tag, kind)
    requires tag in s.conn || s'.reqs[|s.reqs|].past.proc.Some?
    ensures forall j {:trigger Fits(s', j)} :: 0 <= j < |s'.reqs| ==> Fits(s', j)
    ensures Unmoved(s, s') && SameLinks(s, s')
  {
    assert tag in s.conn ==> TagOk(s, tag);
    forall i | 0 <= i < |s.reqs| ensures SameButPrev(s.reqs[i], s'.reqs[i]) {}
    JoinedGrown(s, s');
    RecvLinks(s, s', tag, kind);
    RecvNewFits(s, s', tag, kind);
    forall j | 0 <= j < |s'.reqs| ensures Fits(s', j) {
      if j < |s.reqs| {
        assert Fits(s, j);
        RecvFits(s, s', tag, kind, j);
      }
    }
  }

  lemma RecvNewFits(s: State, s': State, tag: Tag, kind: Kind)
    requires Received(s, s', tag, kind) && JoinsPlain(s, tag, kind) && (tag in s.conn ==> TagOk(s, tag))
    requires tag in s.conn || s'.reqs[|s.reqs|].past.proc.Some?
    ensures Fits(s', |s.reqs|)
  {
  }

  lemma RecvLinks(s: State, s': State, tag: Tag, kind: Kind)
    requires Received(s, s', tag, kind) && JoinsPlain(s, tag, kind) && (tag in s.conn ==> TagOk(s, tag))
    requires forall i :: 0 <= i < |s.reqs| ==> SameButPrev(s.reqs[i], s'.reqs[i])
    requires forall i {:trigger Unlinked(s', i)} :: 0 <= i < |s.reqs| ==> Unlinked(s', i) == Unlinked(s, i)
    ensures Unmoved(s, s') && SameLinks(s, s')
  {
    forall i | 0 <= i < |s.reqs| && Unlinked(s, i) ensures s'.reqs[i] == s.reqs[i] { assert Unlinked(s', i); }
  }

  /* ---- a flush is linked ---- */

  /** The way from v has one more flush in front. */
  lemma WayThrough(s: State, s': State, g: Id, v: Id, n: nat)
    requires LeadsWell(s) && Is(s, g) && Is(s, v) && Linking(s, s', g, v) && Free(s, g) && n > 0
    requires F.After(s.reqs, v, n).Some?
    ensures F.After(s'.reqs, v, n + 1) == F.After(s.reqs, v, n)
  {
    FromHead(s'.reqs, v, g, n);
    if s.reqs[v].flushreq.None? {
      NoWay(s.reqs, v, n);
    } else {
      var h := s.reqs[v].flushreq.value;
      assert WellAt(s, v);
      FromHead(s'.reqs, g, h, n - 1);
      FromHead(s.reqs, v, h, n - 1);
      SameWay(s, s', g, h, n - 1);
    }
  }

  lemma {:induction false} NoWay(reqs: seq<Req>, i: Id, n: nat)
    requires i < |reqs| && reqs[i].flushreq.None? && n > 0
    ensures F.After(reqs, i, n).None?
    decreases n
  {
    if n > 1 { NoWay(reqs, i, n - 1); } else { assert F.After(reqs, i, 0) == Some(i); }
  }

  lemma LinkRooted(s: State, s': State, g: Id, v: Id, f: Id)
    requires LeadsWell(s) && Is(s, g) && Is(s, v) && Linking(s, s', g, v) && Free(s, g) && !Unlinked(s', v)
    requires forall j {:trigger Unlinked(s', j)} :: 0 <= j < |s.reqs| ==> Unlinked(s', j) == Unlinked(s, j)
    requires f == g || Rooted(s, f)
    requires !Dangles(s, g)
    ensures Rooted(s', f)
  {
    if f == g {
      assert F.After(s'.reqs, v, 0) == Some(v);
      assert RootAt(s', v, 1, g);
    } else {
      var j: Id, n: nat :| RootAt(s, j, n, f);
      if j == v {
        WayThrough(s, s', g, v, n);
        assert RootAt(s', v, n + 1, f);
      } else {
        if s.reqs[j].kind.Plain? { assert j != g; } else { LinkDangles(s, s', g, v, j); }
        SameWay(s, s', g, j, n);
        assert RootAt(s', j, n, f);
      }
    }
  }

  lemma LinkDangles(s: State, s': State, g: Id, v: Id, h: Id)
    requires Is(s, g) && Is(s, v) && Linking(s, s', g, v)
    ensures Dangles(s', h) <==> Dangles(s, h)
  {
    forall x | 0 <= x < |s.reqs| ensures s'.reqs[x].next == s.reqs[x].next && s'.reqs[x].kind == s.reqs[x].kind {}
    if Dangles(s, h) {
      var x :| 0 <= x < |s.reqs| && s.reqs[x].kind.Tflush? && s.reqs[x].next == Some(h);
      assert s'.reqs[x].next == Some(h);
    }
    if Dangles(s', h) {
      var x :| 0 <= x < |s'.reqs| && s'.reqs[x].kind.Tflush? && s'.reqs[x].next == Some(h);
      assert s.reqs[x].next == Some(h);
    }
  }

  /** What a Tflush's next names has found its victim. */
  lemma DangleWaits(s: State, h: Id)
    requires Resting(s) && Dangles(s, h)
    ensures Waits(s, h)
  {
    var g :| 0 <= g < |s.reqs| && s.reqs[g].kind.Tflush? && s.reqs[g].next == Some(h);
    assert Fits(s, g);
  }

  lemma LinkFits(s: State, s': State, g: Id, v: Id, j: Id)
    requires Is(s, g) && Is(s, v) && Is(s, j) && Linking(s, s', g, v) && Fits(s, j)
    requires forall i {:trigger Unlinked(s', i)} :: 0 <= i < |s.reqs| ==> Unlinked(s', i) == Unlinked(s, i)
    ensures Fits(s', j)
  {
  }

  lemma LinkHangs(s: State, s': State, g: Id, v: Id, f: Id)
    requires Resting(s) && Is(s, g) && Is(s, v) && Linking(s, s', g, v) && Free(s, g) && !Dangles(s, g)
    ensures Hangs(s', f) <==> Hangs(s, f)
  {
    AllLeadWell(s);
    forall h: Id, n: nat
      ensures Dangles(s', h) && F.After(s'.reqs, h, n) == Some(f) <==> Dangles(s, h) && F.After(s.reqs, h, n) == Some(f)
    {
      LinkDangles(s, s', g, v, h);
      if Dangles(s, h) {
        DangleWaits(s, h);
        SameWay(s, s', g, h, n);
      }
    }
  }

  lemma LinkAllFit(s: State, s': State, g: Id, v: Id)
    requires Resting(s) && Is(s, g) && Is(s, v) && Linking(s, s', g, v) && !Unlinked(s, v) && !Unlinked(s, g)
    requires forall j {:trigger Unlinked(s', j)} :: 0 <= j < |s.reqs| ==> Unlinked(s', j) == Unlinked(s, j)
    ensures Unmoved(s, s') && forall j {:trigger Fits(s', j)} :: 0 <= j < |s'.reqs| ==> Fits(s', j)
  {
    forall j | 0 <= j < |s'.reqs| ensures Fits(s', j) {
      assert Fits(s, j);
      LinkFits(s, s', g, v, j);
    }
  }

  lemma LinkRests(s: State, a: nat, g: Id, v: Id)
    requires Resting(s) && a < |s.acts| && s.acts[a] == Process(g, Handle) && Is(s, v) && !Unlinked(s, v)
    requires s.reqs[g].kind.Tflush? && s.reqs[v].kind.Plain?
    requires var s' := Go(LinkFlush(s, g, v), a, Process(g, Judge(v)));
             Held(s') && Onward(s, s') && Lost(s', Hanging(s))
    ensures Resting(Go(LinkFlush(s, g, v), a, Process(g, Judge(v))))
  {
    var s' := Go(LinkFlush(s, g, v), a, Process(g, Judge(v)));
    assert ActOk(s, a) && ReqOk(s, g);
    NobodyLeads(s, g);
    if Dangles(s, g) { DangleWaits(s, g); }
    forall j | 0 <= j < |s.reqs| ensures Unlinked(s', j) == Unlinked(s, j) { assert BaseReq(s, j); }
    NotAnswered(s, a, g);
    LinkAllFit(s, s', g, v);
    forall b | 0 <= b < |s'.acts| ensures Working(s', b) {
      assert Working(s, b);
      if b != a { WorkingKept(s, s', b); }
    }
    LinkRoots(s, s', g, v);
  }

  lemma LinkRoots(s: State, s': State, g: Id, v: Id)
    requires Resting(s) && Is(s, g) && Is(s, v) && Linking(s, s', g, v) && Free(s, g) && !Dangles(s, g)
    requires !Unlinked(s', v)
    requires forall j {:trigger Unlinked(s', j)} :: 0 <= j < |s.reqs| ==> Unlinked(s', j) == Unlinked(s, j)
    requires Lost(s', Hanging(s))
    ensures forall f {:trigger Rooted(s', f)} :: 0 <= f < |s'.reqs| && Waits(s', f) ==> Rooted(s', f)
    ensures Lost(s', Hanging(s'))
  {
    AllLeadWell(s);
    forall f | 0 <= f < |s'.reqs| && Waits(s', f) ensures Rooted(s', f) {
      if f != g { assert Rooted(s, f); }
      LinkRooted(s, s', g, v, f);
    }
    forall f: nat ensures f in Hanging(s') <==> f in Hanging(s) {
      if f < |s.reqs| { LinkHangs(s, s', g, v, f); }
    }
    assert Hanging(s') == Hanging(s);
  }

  /** A Tflush that is about to find its victim has not been answered. */
  lemma NotAnswered(s: State, a: nat, g: Id)
    requires Inv(s) && a < |s.acts| && s.acts[a] == Process(g, Handle) && s.reqs[g].kind.Tflush?
    ensures !Unlinked(s, g) && !s.reqs[g].responded
  {
    assert ActOk(s, a) && BaseReq(s, g);
    assert s.reqs[g].responded ==> ActOk(s, s.reqs[g].past.winner.value);
  }

  /* ---- flushes are handed on ---- */

  /** The flushes of n lead to flushes of n only, so its list ends in one. */
  lemma {:induction false} EndIsFlusher(reqs: seq<Req>, n: Id, r: Id, fuel: nat)
    requires AllLinked(reqs) && r < |reqs| && OnlyFlushers(reqs, n) && reqs[r].kind.Tflush?
    requires reqs[r].past.victim == Some(n)
    ensures var p := ChainEnd(reqs, r, fuel); reqs[p].kind.Tflush? && reqs[p].past.victim == Some(n)
    decreases fuel
  {
    if fuel > 0 && reqs[r].flushreq.Some? { EndIsFlusher(reqs, n, reqs[r].flushreq.value, fuel - 1); }
  }

  ghost predicate OnlyFlushers(reqs: seq<Req>, n: Id) {
    forall x :: 0 <= x < |reqs| && reqs[x].kind.Tflush? && reqs[x].past.victim == Some(n) && reqs[x].flushreq.Some? ==>
      var y := reqs[x].flushreq.value; y < |reqs| && reqs[y].kind.Tflush? && reqs[y].past.victim == Some(n)
  }

  lemma ExactIsOnly(s: State, n: Id)
    requires Inv(s) && Is(s, n) && s.reqs[n].kind.Plain? && F.Chain(s, n)
    ensures OnlyFlushers(s.reqs, n)
  {
    var q := s.reqs[n].past.flushers;
    forall x | 0 <= x < |s.reqs| && s.reqs[x].kind.Tflush? && s.reqs[x].past.victim == Some(n)
               && s.reqs[x].flushreq.Some?
      ensures var y := s.reqs[x].flushreq.value;
              y < |s.reqs| && s.reqs[y].kind.Tflush? && s.reqs[y].past.victim == Some(n)
    {
      assert ReqOk(s, x);
      var k :| 0 <= k < |q| && q[k] == x;
      assert F.Flushes(s, q[k], n) && F.Flushes(s, q[k + 1], n);
    }
  }

  /** The flushes of i go to n, or, if n has some, hang on the last of those. */
  ghost predicate HandsOver(s: State, s': State, i: Id, n: Id, p: Id) {
    && HandedOn(s, s', i, n)
    && (s.reqs[i].flushreq.Some? && s.reqs[n].flushreq.Some? ==>
          && Is(s, p) && s.reqs[p].kind.Tflush? && s.reqs[p].past.victim == Some(n)
          && s'.reqs[p].next == s.reqs[i].flushreq)
    && forall x :: 0 <= x < |s.reqs| && s.reqs[x].kind.Tflush? ==>
         s'.reqs[x].next == s.reqs[x].next || (x == p && s.reqs[i].flushreq.Some? && s.reqs[n].flushreq.Some?)
  }

  lemma MovesOver(s: State, s1: State, i: Id, n: Id) returns (p: Id)
    requires Is(s, i) && Is(s, n) && AllLinked(s.reqs) && s.reqs[n].kind.Plain? && i != n && OnlyFlushers(s.reqs, n)
    requires s1.reqs == s.reqs[n := s.reqs[n].(next := None)] && s1.conn == s.conn && s.reqs[i].flushreq.Some?
    requires s.reqs[n].flushreq.Some? ==>
               var h := s.reqs[n].flushreq.value; Is(s, h) && s.reqs[h].kind.Tflush? && s.reqs[h].past.victim == Some(n)
    ensures AllLinked(s1.reqs) && Named(|s1.reqs|, s.reqs[i].flushreq)
    ensures HandsOver(s, MoveFlushes(s1, n, s.reqs[i].flushreq), i, n, p)
  {
    assert Engine.Linked(|s.reqs|, s.reqs[i]);
    p := n;
    forall j | 0 <= j < |s1.reqs|
      ensures Engine.Linked(|s1.reqs|, s1.reqs[j])
    {
      assert Engine.Linked(|s.reqs|, s.reqs[j]);
    }
    var head := s.reqs[i].flushreq;
    if s.reqs[n].flushreq.None? {
      ToNext(s, MoveFlushes(s1, n, head), i, n);
    } else {
      p := ChainEnd(s1.reqs, s1.reqs[n].flushreq.value, |s1.reqs|);
      EndIsFlusher(s1.reqs, n, s1.reqs[n].flushreq.value, |s1.reqs|);
      ToFlush(s, MoveFlushes(s1, n, head), i, n, p);
    }
  }

  lemma UnlinkHandsOver(s: State, a: nat, i: Id, fl: bool, n: Id) returns (p: Id)
    requires Inv(s) && a < |s.acts| && s.acts[a] == Respond(i, Unlink(fl)) && s.reqs[i].prev == Some(n)
    ensures Is(s, n) && i < n && s.reqs[i].kind.Plain? && s.reqs[n].kind.Plain? && F.Chain(s, n)
    ensures HandsOver(s, UnlinkStep(s, a, i, fl), i, n, p)
  {
    p := n;
    NextHandedOn(s, a, i, fl, n);
    NextIsExact(s, a, i, fl, n);
    ExactIsOnly(s, n);
    var s0 := s.(queues := s.queues[s.reqs[i].tag := Without(Queue(s, s.reqs[i].tag), i)]);
    var s1 := Set(s0, n, s.reqs[n].(next := None));
    if s.reqs[i].flushreq.None? {
      assert UnlinkStep(s, a, i, fl).reqs == s1.reqs;
    } else {
      if s.reqs[n].flushreq.Some? { assert F.Flushes(s, s.reqs[n].past.flushers[0], n); }
      var s2 := MoveFlushes(s1, n, s.reqs[i].flushreq);
      assert UnlinkStep(s, a, i, fl).reqs == s2.reqs;
      p := MovesOver(s, s1, i, n);
      OverOnly(s, s2, UnlinkStep(s, a, i, fl), i, n, p);
    }
  }

  lemma OverOnly(s: State, s2: State, s': State, i: Id, n: Id, p: Id)
    requires HandsOver(s, s2, i, n, p) && s'.reqs == s2.reqs && HandedOn(s, s', i, n)
    ensures HandsOver(s, s', i, n, p)
  {
  }

  /** Every request is where it was, but for i. */
  ghost predicate OnlyGone(s: State, s': State, i: Id) {
    forall j {:trigger Unlinked(s', j)} :: 0 <= j < |s.reqs| && j < |s'.reqs| ==>
        Unlinked(s', j) == (Unlinked(s, j) || j == i)
  }

  /** A request that has not been handed over cannot have been answered before it was flushed. */
  lemma NextIsIn(s: State, a: nat, i: Id, fl: bool, n: Id)
    requires Resting(s) && a < |s.acts| && s.acts[a] == Respond(i, Unlink(fl)) && s.reqs[i].prev == Some(n) && Is(s, n)
    requires s.reqs[n].kind.Plain? && F.Chain(s, n) && s.reqs[n].flushreq.None? && s.reqs[n].past.after == Some(i)
    ensures !Unlinked(s, n)
  {
    OneWinner(s, a);
    assert BaseReq(s, n) && WorkOk(s, n);
    assert s.reqs[n].past.winner.Some? ==> Working(s, s.reqs[n].past.winner.value);
  }

  lemma TailIsFree(s: State, i: Id, n: Id, p: Id)
    requires Resting(s) && Is(s, i) && Is(s, n) && Is(s, p) && s.reqs[p].kind.Tflush?
    requires s.reqs[p].past.victim == Some(n)
    requires s.reqs[n].past.after == Some(i) && !Unlinked(s, i)
    ensures s.reqs[p].next.None?
  {
    assert Fits(s, p);
  }

  lemma OverFits(s: State, s': State, i: Id, n: Id, p: Id, j: Id)
    requires HandsOver(s, s', i, n, p) && OnlyGone(s, s', i) && Is(s, j) && Fits(s, j)
    requires s.reqs[n].past.after == Some(i)
    requires s.reqs[i].flushreq.Some? ==> Waits(s, s.reqs[i].flushreq.value)
    ensures Fits(s', j)
  {
  }

  lemma OverUnmoved(s: State, s': State, i: Id, n: Id, p: Id)
    requires HandsOver(s, s', i, n, p) && (s.reqs[n].flushreq.None? ==> !Unlinked(s, n))
    ensures Unmoved(s, s')
  {
  }

  /* ---- who leads to a flush then ---- */

  lemma OverDangles(s: State, s': State, i: Id, n: Id, p: Id, h: Id)
    requires HandsOver(s, s', i, n, p)
    requires s.reqs[i].flushreq.Some? && s.reqs[n].flushreq.Some? ==> s.reqs[p].next.None?
    ensures Dangles(s', h) <==> Dangles(s, h) || (s.reqs[n].flushreq.Some? && s.reqs[i].flushreq == Some(h))
  {
    if Dangles(s, h) {
      var x :| 0 <= x < |s.reqs| && s.reqs[x].kind.Tflush? && s.reqs[x].next == Some(h);
      assert s'.reqs[x].next == Some(h);
    }
    if Dangles(s', h) {
      var x :| 0 <= x < |s'.reqs| && s'.reqs[x].kind.Tflush? && s'.reqs[x].next == Some(h);
      assert x != p ==> s.reqs[x].next == Some(h);
    }
    if s.reqs[n].flushreq.Some? && s.reqs[i].flushreq == Some(h) { assert s'.reqs[p].next == Some(h); }
  }

  /** Ways from Tflushes, and from requests other than n, are what they were. */
  lemma OverWay(s: State, s': State, i: Id, n: Id, p: Id, j: Id, k: nat)
    requires LeadsWell(s) && HandsOver(s, s', i, n, p) && Is(s, j) && s.reqs[n].kind.Plain?
    requires j != n || s.reqs[n].flushreq.Some? || s.reqs[i].flushreq.None?
    ensures F.After(s'.reqs, j, k) == F.After(s.reqs, j, k)
  {
    NobodyNew(s);
    SameWay(s, s', |s.reqs|, j, k);
  }

  /** A way from i goes on from what hangs on the last flush of n. */
  lemma OverFromOld(s: State, s': State, i: Id, n: Id, p: Id, k: nat, f: Id)
    requires LeadsWell(s) && HandsOver(s, s', i, n, p) && k > 0 && F.After(s.reqs, i, k) == Some(f)
    requires s.reqs[n].kind.Plain?
    requires s.reqs[n].flushreq.Some? && (s.reqs[i].flushreq.Some? ==> s.reqs[p].next.None?)
    ensures Rooted(s', f)
  {
    if s.reqs[i].flushreq.None? {
      NoWay(s.reqs, i, k);
    } else {
      FromHead(s.reqs, i, s.reqs[i].flushreq.value, k - 1);
      OverHead(s, s', i, n, p, s.reqs[i].flushreq.value, k - 1, f);
    }
  }

  lemma OverHead(s: State, s': State, i: Id, n: Id, p: Id, h: Id, k: nat, f: Id)
    requires LeadsWell(s) && HandsOver(s, s', i, n, p) && s.reqs[i].flushreq == Some(h)
    requires F.After(s.reqs, h, k) == Some(f)
    requires s.reqs[n].kind.Plain? && s.reqs[n].flushreq.Some? && s.reqs[p].next.None?
    ensures Rooted(s', f)
  {
    assert WellAt(s, i);
    OverWay(s, s', i, n, p, h, k);
    OverDangles(s, s', i, n, p, h);
    assert RootAt(s', h, k, f);
  }

  lemma OverFromOther(s: State, s': State, i: Id, n: Id, p: Id, j: Id, k: nat, f: Id)
    requires LeadsWell(s) && HandsOver(s, s', i, n, p) && OnlyGone(s, s', i) && RootAt(s, j, k, f) && j != i
    requires s.reqs[n].kind.Plain?
    requires j != n || s.reqs[n].flushreq.Some? || s.reqs[i].flushreq.None?
    requires s.reqs[i].flushreq.Some? && s.reqs[n].flushreq.Some? ==> s.reqs[p].next.None?
    ensures Rooted(s', f)
  {
    OverWay(s, s', i, n, p, j, k);
    OverDangles(s, s', i, n, p, j);
    assert RootAt(s', j, k, f);
  }

  lemma OverRooted(s: State, s': State, i: Id, n: Id, p: Id, f: Id)
    requires Inv(s) && HandsOver(s, s', i, n, p) && OnlyGone(s, s', i) && Rooted(s, f) && i != n
    requires s.reqs[i].kind.Plain? && s.reqs[n].kind.Plain? && (s.reqs[n].flushreq.None? ==> !Unlinked(s, n))
    requires s.reqs[i].flushreq.Some? && s.reqs[n].flushreq.Some? ==> s.reqs[p].next.None?
    ensures Rooted(s', f)
  {
    AllLeadWell(s);
    var j: Id, k: nat :| RootAt(s, j, k, f);
    if j == i && s.reqs[n].flushreq.Some? {
      OverFromOld(s, s', i, n, p, k, f);
    } else if j == i {
      FollowNext(s, s', i, n, k);
      assert RootAt(s', n, k, f);
    } else if j == n && s.reqs[n].flushreq.None? {
      NoWay(s.reqs, n, k);
    } else {
      OverFromOther(s, s', i, n, p, j, k, f);
    }
  }

  lemma OverHangs(s: State, s': State, i: Id, n: Id, p: Id, f: Id)
    requires Resting(s) && HandsOver(s, s', i, n, p) && s.reqs[i].kind.Plain? && s.reqs[n].kind.Plain? && i != n
    requires s.reqs[i].flushreq.Some? && s.reqs[n].flushreq.Some? ==> s.reqs[p].next.None?
    ensures Hangs(s', f) <==> Hangs(s, f) || (s.reqs[n].flushreq.Some? && F.OnChain(s.reqs, i, f))
  {
    AllLeadWell(s);
    forall h: Id, k: nat | Dangles(s, h) ensures F.After(s'.reqs, h, k) == F.After(s.reqs, h, k) && Dangles(s', h) {
      DangleWaits(s, h);
      OverWay(s, s', i, n, p, h, k);
      OverDangles(s, s', i, n, p, h);
    }
    if s.reqs[n].flushreq.Some? && F.OnChain(s.reqs, i, f) { ChainHangs(s, s', i, n, p, f); }
    if Hangs(s', f) { HangsOrChain(s, s', i, n, p, f); }
  }

  lemma ChainHangs(s: State, s': State, i: Id, n: Id, p: Id, f: Id)
    requires LeadsWell(s) && HandsOver(s, s', i, n, p) && s.reqs[n].kind.Plain? && s.reqs[n].flushreq.Some?
    requires F.OnChain(s.reqs, i, f)
    requires s.reqs[i].flushreq.Some? ==> s.reqs[p].next.None?
    ensures Hangs(s', f)
  {
    var k: nat :| k > 0 && F.After(s.reqs, i, k) == Some(f);
    if s.reqs[i].flushreq.None? {
      NoWay(s.reqs, i, k);
    } else {
      var h := s.reqs[i].flushreq.value;
      assert WellAt(s, i);
      FromHead(s.reqs, i, h, k - 1);
      OverWay(s, s', i, n, p, h, k - 1);
      OverDangles(s, s', i, n, p, h);
    }
  }

  lemma HangsOrChain(s: State, s': State, i: Id, n: Id, p: Id, f: Id)
    requires Resting(s) && HandsOver(s, s', i, n, p) && s.reqs[n].kind.Plain? && Hangs(s', f)
    requires s.reqs[i].flushreq.Some? && s.reqs[n].flushreq.Some? ==> s.reqs[p].next.None?
    ensures Hangs(s, f) || (s.reqs[n].flushreq.Some? && F.OnChain(s.reqs, i, f))
  {
    AllLeadWell(s);
    var h: Id, k: nat :| Dangles(s', h) && F.After(s'.reqs, h, k) == Some(f);
    OverDangles(s, s', i, n, p, h);
    if Dangles(s, h) { DangleWaits(s, h); }
    assert WellAt(s, i);
    OverWay(s, s', i, n, p, h, k);
    if !Dangles(s, h) {
      FromHead(s.reqs, i, h, k);
      assert F.After(s.reqs, i, k + 1) == Some(f);
    }
  }

  lemma LostBoth(s: State, l: set<Id>, k: set<Id>)
    requires Lost(s, l) && Lost(s, k)
    ensures Lost(s, l + k)
  {
    forall j | 0 <= j < |s.reqs| ensures LeadsNot(s, l + k, j) { assert LeadsNot(s, l, j) && LeadsNot(s, k, j); }
  }

  lemma UnlinkNextRests(s: State, a: nat, i: Id, fl: bool, n: Id)
    requires Resting(s) && a < |s.acts| && s.acts[a] == Respond(i, Unlink(fl)) && s.reqs[i].prev == Some(n)
    requires var s' := UnlinkStep(s, a, i, fl); Held(s') && Onward(s, s') && Lost(s', Hanging(s))
    ensures Resting(UnlinkStep(s, a, i, fl))
  {
    var s' := UnlinkStep(s, a, i, fl);
    var p := UnlinkHandsOver(s, a, i, fl, n);
    OneWinner(s, a);
    assert ReqOk(s, i) && Working(s, a);
    UnlinkGrows(s, a, i, fl, n);
    if s.reqs[n].flushreq.None? { NextIsIn(s, a, i, fl, n); }
    if s.reqs[i].flushreq.Some? && s.reqs[n].flushreq.Some? { TailIsFree(s, i, n, p); }
    OverUnmoved(s, s', i, n, p);
    forall j | 0 <= j < |s'.reqs| ensures Fits(s', j) {
      assert Fits(s, j);
      OverFits(s, s', i, n, p, j);
    }
    forall b | 0 <= b < |s'.acts| ensures Working(s', b) {
      assert Working(s, b);
      if b != a { WorkingKept(s, s', b); }
    }
    forall f | 0 <= f < |s'.reqs| && Waits(s', f) ensures Rooted(s', f) {
      assert Rooted(s, f);
      OverRooted(s, s', i, n, p, f);
    }
    OverLost(s, a, i, fl, n, p);
  }

  /** What hangs afterwards hung before or has been lost just now. */
  lemma OverLost(s: State, a: nat, i: Id, fl: bool, n: Id, p: Id)
    requires Resting(s) && a < |s.acts| && s.acts[a] == Respond(i, Unlink(fl)) && s.reqs[i].prev == Some(n)
    requires var s' := UnlinkStep(s, a, i, fl); HandsOver(s, s', i, n, p) && Lost(s', Hanging(s))
    requires s.reqs[i].kind.Plain? && s.reqs[n].kind.Plain? && i != n
    requires s.reqs[i].flushreq.Some? && s.reqs[n].flushreq.Some? ==> s.reqs[p].next.None?
    ensures Lost(UnlinkStep(s, a, i, fl), Hanging(UnlinkStep(s, a, i, fl)))
  {
    var s' := UnlinkStep(s, a, i, fl);
    NextIsExact(s, a, i, fl, n);
    forall f: nat ensures f in Hanging(s') <==> f in Hanging(s) || (s.reqs[n].flushreq.Some? && f in OnChainOf(s, i)) {
      if f < |s.reqs| { OverHangs(s, s', i, n, p, f); }
    }
    if s.reqs[n].flushreq.Some? {
      LostAtUnlink(s, a, i, fl, n);
      LostBoth(s', Hanging(s), OnChainOf(s, i));
      assert Hanging(s') == Hanging(s) + OnChainOf(s, i);
    } else {
      assert Hanging(s') == Hanging(s);
    }
  }

  /* ---- every run ---- */

  lemma RespondRests(s: State, a: nat, flushOp: bool)
    requires Resting(s) && Enabled(s, Run(a, flushOp)) && s.acts[a].Respond?
    requires var s' := Advance(s, a, flushOp); Held(s') && Onward(s, s') && Lost(s', Hanging(s))
    ensures Resting(Advance(s, a, flushOp))
  {
    var i := s.acts[a].req;
    match s.acts[a].rp
    case Claim => ClaimRests(s, a, i);
    case Unlink(fl) =>
      if s.reqs[i].prev.None? {
        UnlinkLastRests(s, a, i, fl);
      } else {
        UnlinkNextRests(s, a, i, fl, s.reqs[i].prev.value);
      }
    case Post(fl, n, f) => PostRests(s, a, i, fl, n, f);
    case StartNext(n, f) => StartNextRests(s, a, i, n, f);
    case Loop(cur, done) => LoopRests(s, a, i, cur, done);
    case InLoop(cur, done, call) => InLoopRests(s, a, i, cur, done, call);
    case Closed =>
  }

  lemma HandleRests(s: State, a: nat, flushOp: bool)
    requires Resting(s) && Enabled(s, Run(a, flushOp)) && s.acts[a].Process? && s.acts[a].pp.Handle? && AimsRight(s, a)
    requires var s' := Advance(s, a, flushOp); Held(s') && Onward(s, s') && Lost(s', Hanging(s))
    ensures Resting(Advance(s, a, flushOp))
  {
    var i := s.acts[a].req;
    if Links(s, a).None? {
      HandRests(s, a, flushOp);
    } else {
      assert TagOk(s, s.reqs[i].kind.oldtag);
      LinkRests(s, a, i, Links(s, a).value);
    }
  }

  lemma RestStep(s: State, step: Step)
    requires Resting(s) && Enabled(s, step) && Allowed(GroupClient, s, step)
    ensures Resting(Apply(s, step))
  {
    KeepStep(s, step);
    HeldStep(s, step);
    LostStep(s, step, Hanging(s));
    match step
    case Recv(tag, kind) => RecvRests(s, tag, kind);
    case Answer(i) => AnswerRests(s, i);
    case Run(a, flushOp) =>
      if s.acts[a].Respond? {
        RespondRests(s, a, flushOp);
      } else if s.acts[a].pp.Handle? {
        HandleRests(s, a, flushOp);
      } else {
        ProcessRests(s, a, flushOp);
      }
  }

  lemma {:induction false} RestRun(run: seq<State>)
    requires Reachable(GroupClient, run)
    ensures Resting(Last(run))
    decreases |run|
  {
    if |run| > 1 {
      var was := run[..|run| - 1];
      Before(GroupClient, run);
      RestRun(was);
      var step :| Move(GroupClient, Last(was), step, Last(run));
      RestStep(Last(was), step);
    }
  }

  /* ---- at rest ---- */

  /** f waits for a request that has not been answered. */
  ghost predicate Awaited(s: State, f: Id) {
    exists r :: Unanswered(s, r) && F.OnChain(s.reqs, r, f)
  }

  ghost predicate Unanswered(s: State, r: Id) {
    Is(s, r) && s.reqs[r].kind.Plain? && !s.reqs[r].responded
  }

  /** Once a request that has handed nothing on is answered, the whole way from it is. */
  lemma {:induction false} WayAnswered(s: State, j: Id, n: nat)
    requires Resting(s) && F.AtRest(s) && Is(s, j) && s.reqs[j].responded && s.reqs[j].prev.None?
    requires F.After(s.reqs, j, n).Some?
    ensures var f := F.After(s.reqs, j, n).value; Is(s, f) && s.reqs[f].responded && s.reqs[f].prev.None?
    decreases n
  {
    if n > 0 {
      WayAnswered(s, j, n - 1);
      var x := F.After(s.reqs, j, n - 1).value;
      assert BaseReq(s, x) && ReqOk(s, x);
      var w := s.reqs[x].past.winner.value;
      assert s.acts[w].Over() && Working(s, w);
      assert ReqOk(s, s.reqs[x].flushreq.value);
    }
  }

  lemma AnsweredIsUnlinked(s: State, j: Id)
    requires Base(s) && F.AtRest(s) && Is(s, j) && s.reqs[j].responded
    ensures Unlinked(s, j) && Started(s, j)
  {
    assert BaseReq(s, j);
    assert s.acts[s.reqs[j].past.winner.value].Over();
  }

  lemma AnsweredStartsNext(s: State, o: Id)
    requires Resting(s) && F.AtRest(s) && Is(s, o) && s.reqs[o].responded
    ensures NextStarted(s, o)
  {
    assert BaseReq(s, o);
    var w := s.reqs[o].past.winner.value;
    assert s.acts[w].Over() && Working(s, w);
  }

  /** A flush that is led to from a place that was not given up is answered, awaited, or hangs. */
  lemma RootDecides(s: State, j: Id, n: nat, f: Id)
    requires Resting(s) && F.AtRest(s) && RootAt(s, j, n, f)
    ensures (Is(s, f) && s.reqs[f].responded) || Awaited(s, f) || Hangs(s, f)
  {
    if s.reqs[j].kind.Plain? && s.reqs[j].responded {
      AnsweredIsUnlinked(s, j);
      WayAnswered(s, j, n);
    } else if s.reqs[j].kind.Plain? {
      assert Unanswered(s, j) && F.OnChain(s.reqs, j, f);
    }
  }

  lemma AwaitedIsNot(s: State, f: Id)
    requires Resting(s) && Awaited(s, f)
    ensures Is(s, f) && !s.reqs[f].responded
  {
    var r :| Unanswered(s, r) && F.OnChain(s.reqs, r, f);
    assert BaseReq(s, r);
    ChainWaits(s, r, f);
  }

  lemma HangsIsNot(s: State, f: Id)
    requires Resting(s) && Hangs(s, f)
    ensures Is(s, f) && !s.reqs[f].responded
  {
    var h: Id, n: nat :| Dangles(s, h) && F.After(s.reqs, h, n) == Some(f);
    DangleWaits(s, h);
    AllLeadWell(s);
    NobodyLeads(s, |s.reqs|);
    SameWay(s, s, |s.reqs|, h, n);
    assert f in Hanging(s);
  }

  /** A Tflush that found no victim is answered; every other is led to from somewhere. */
  lemma StartedFlush(s: State, f: Id)
    requires Resting(s) && Rest.Inv(s) && F.AtRest(s) && Is(s, f) && s.reqs[f].kind.Tflush?
    ensures s.reqs[f].responded || Waits(s, f)
  {
    assert Fits(s, f) && ReqOk(s, f);
    if !s.reqs[f].responded { Rest.StartedIsThrough(s, f); }
  }

  /**
   At rest a Tflush is answered if and only if it is not on the chain of a request that is not answered yet, and does
   not hang on the next of another Tflush.
   */
  lemma FlushesAtRest(run: seq<State>, f: Id)
    requires Reachable(GroupClient, run) && F.AtRest(Last(run)) && Is(Last(run), f) && Last(run).reqs[f].kind.Tflush?
    ensures f in Last(run).out <==> !Awaited(Last(run), f) && !Hangs(Last(run), f)
  {
    var s := Last(run);
    RestRun(run);
    Rest.InvRun(GroupClient, run);
    StartedFlush(s, f);
    if s.reqs[f].responded {
      Rest.AnsweredIsOut(s, f);
      assert Fits(s, f);
      if Awaited(s, f) { AwaitedIsNot(s, f); }
      if Hangs(s, f) { HangsIsNot(s, f); }
    } else {
      assert Rooted(s, f) && BaseReq(s, f);
      var j: Id, n: nat :| RootAt(s, j, n, f);
      RootDecides(s, j, n, f);
    }
  }

  /**
   And an ordinary request is answered, or dropped because some Tflush found it, or with the file server, or has not
   been started, and the older one of its tag is not answered.
   */
  lemma RequestsAtRest(run: seq<State>, i: Id)
    requires Reachable(GroupClient, run) && F.AtRest(Last(run)) && Is(Last(run), i) && Last(run).reqs[i].kind.Plain?
    ensures var s := Last(run);
            || i in s.out
            || (s.reqs[i].past.suppressed && exists g :: F.Flushes(s, g, i))
            || Rest.WithServer(s, i)
            || (s.reqs[i].past.proc.None? && s.reqs[i].past.after.Some? && Unanswered(s, s.reqs[i].past.after.value))
  {
    var s := Last(run);
    RestRun(run);
    Rest.InvRun(GroupClient, run);
    assert Fits(s, i) && ReqOk(s, i);
    if s.reqs[i].responded {
      Rest.AnsweredIsOut(s, i);
    } else if s.reqs[i].past.proc.Some? {
      Rest.StartedIsThrough(s, i);
    } else {
      var o := s.reqs[i].past.after.value;
      assert ReqOk(s, o);
      if s.reqs[o].responded { AnsweredStartsNext(s, o); }
    }
  }
}
