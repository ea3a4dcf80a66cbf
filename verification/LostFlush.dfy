/**
 What becomes of the flushes of a request when the next of its tag takes its place: they go on waiting for that
 one exactly when it has not been flushed itself, and are never answered otherwise.
 */
module LostFlush {
  import opened Common
  import opened Engine
  import opened SharedTags
  import F = FlushProtocol

  /* ---- who holds a flush ---- */

  /** Its flushes have been handed to the next of its tag. */
  ghost predicate Gone(s: State, i: Id)
    requires Is(s, i)
  {
    s.reqs[i].kind.Plain? && s.reqs[i].prev.Some? && Unlinked(s, i)
  }

  ghost predicate Answers(s: State, a: nat, i: Id) {
    a < |s.acts| && s.acts[a].Respond? && s.acts[a].req == i
  }

  /** The flushes of i are being answered. */
  ghost predicate Done(s: State, i: Id)
    requires Is(s, i)
  {
    if s.reqs[i].kind.Plain? then Unlinked(s, i) else exists a :: Answers(s, a, i)
  }

  /** The activation answers f, or is about to. */
  predicate InHand(act: Act, f: Id) {
    match act
    case Process(_, _) => false
    case Respond(i, rp) =>
      i == f ||
      match rp
      case Post(_, _, g) => g == Some(f)
      case StartNext(_, g) => g == Some(f)
      case Loop(g, _) => g == Some(f)
      case InLoop(g, _, _) => g == Some(f)
      case _ => false
  }

  ghost predicate HandOk(s: State, a: nat, j: Id)
    requires a < |s.acts| && Is(s, j)
  {
    s.reqs[j].flushreq.Some? && InHand(s.acts[a], s.reqs[j].flushreq.value) ==> Done(s, j)
  }

  /** Two requests lead to one flush only if one of them has handed it on. */
  ghost predicate SoleAt(s: State, j: Id, k: Id)
    requires Is(s, j) && Is(s, k)
  {
    s.reqs[j].flushreq.Some? && s.reqs[j].flushreq == s.reqs[k].flushreq && j != k ==> Gone(s, j) || Gone(s, k)
  }

  ghost predicate Sole(s: State) {
    forall j, k {:trigger SoleAt(s, j, k)} :: 0 <= j < |s.reqs| && 0 <= k < |s.reqs| ==> SoleAt(s, j, k)
  }

  ghost predicate Hands(s: State) {
    forall a, j {:trigger HandOk(s, a, j)} :: 0 <= a < |s.acts| && 0 <= j < |s.reqs| ==> HandOk(s, a, j)
  }

  ghost predicate Held(s: State) { Inv(s) && Sole(s) && Hands(s) }

  lemma GoneOn(s: State, s': State, i: Id)
    requires Onward(s, s') && Is(s, i)
    ensures Gone(s, i) ==> Gone(s', i)
    ensures Done(s, i) ==> Done(s', i)
  {
    if s.reqs[i].kind.Tflush? && Done(s, i) {
      var a :| Answers(s, a, i);
      assert Answers(s', a, i);
    }
  }

  /** No request leads elsewhere than before. */
  ghost predicate SameHeads(s: State, s': State) {
    && |s.reqs| <= |s'.reqs|
    && (forall j :: 0 <= j < |s.reqs| ==> s'.reqs[j].flushreq == s.reqs[j].flushreq)
    && (forall j :: |s.reqs| <= j < |s'.reqs| ==> s'.reqs[j].flushreq.None?)
  }

  lemma SoleKept(s: State, s': State)
    requires Sole(s) && Onward(s, s') && SameHeads(s, s')
    ensures Sole(s')
  {
    forall j, k | 0 <= j < |s'.reqs| && 0 <= k < |s'.reqs| ensures SoleAt(s', j, k) {
      if j < |s.reqs| && k < |s.reqs| {
        assert SoleAt(s, j, k);
        GoneOn(s, s', j);
        GoneOn(s, s', k);
      }
    }
  }

  ghost predicate Taken(s: State, f: Id) {
    exists a :: 0 <= a < |s.acts| && InHand(s.acts[a], f)
  }

  /** No flush that waits is taken in hand, and no request answered that was not in hand. */
  ghost predicate TakesNone(s: State, s': State) {
    && |s.acts| <= |s'.acts| && |s.reqs| <= |s'.reqs|
    && (forall b, f :: 0 <= b < |s.acts| && InHand(s'.acts[b], f) ==> InHand(s.acts[b], f))
    && (forall b, f :: |s.acts| <= b < |s'.acts| && InHand(s'.acts[b], f) ==> !Waits(s, f) || Taken(s, f))
    && (forall i :: 0 <= i < |s.reqs| && s'.reqs[i].responded && !s.reqs[i].responded ==> Taken(s, i))
  }

  ghost predicate Quietly(s: State, s': State) {
    Onward(s, s') && SameHeads(s, s') && TakesNone(s, s')
  }

  lemma RecvQuiet(s: State, tag: Tag, kind: Kind)
    requires Typed(s) && Onward(s, Receive(s, tag, kind))
    ensures Quietly(s, Receive(s, tag, kind))
  {
  }

  lemma AnswerQuiet(s: State, i: Id)
    requires Typed(s) && Is(s, i) && s.reqs[i].kind.Plain? && Onward(s, Spawn(s, Respond(i, Claim)))
    ensures Quietly(s, Spawn(s, Respond(i, Claim)))
  {
  }

  /** The activation of a process moved on, and may have asked for the answering of v. */
  lemma OneQuiet(s: State, s': State, a: nat, v: Id)
    requires Onward(s, s') && a < |s.acts| && Is(s, v) && |s'.reqs| == |s.reqs|
    requires s'.reqs == s.reqs[v := s'.reqs[v]] && s'.reqs[v].flushreq == s.reqs[v].flushreq
    requires s'.reqs[v].responded == s.reqs[v].responded
    requires |s.acts| <= |s'.acts| && s'.acts[a].Process? && s'.acts[..|s.acts|] == s.acts[a := s'.acts[a]]
    requires forall b :: |s.acts| <= b < |s'.acts| ==> s'.acts[b] == Respond(v, Claim) && !Waits(s, v)
    ensures Quietly(s, s')
  {
    forall b | 0 <= b < |s.acts| && b != a
      ensures s'.acts[b] == s.acts[b]
    {
      assert s'.acts[..|s.acts|][b] == s'.acts[b];
    }
  }

  lemma FlushVictimQuiet(s: State, a: nat, i: Id, v: Id)
    requires Typed(s) && a < |s.acts| && s.acts[a].Process? && s.acts[a].req == i && Is(s, i) && Is(s, v)
    requires s.reqs[v].kind.Plain?
    requires Onward(s, FlushVictim(s, a, i, v))
    ensures Quietly(s, FlushVictim(s, a, i, v))
  {
    OneQuiet(s, FlushVictim(s, a, i, v), a, v);
  }

  lemma ResumeQuiet(s: State, a: nat, i: Id, pp: ProcPc)
    requires Typed(s) && a < |s.acts| && s.acts[a].Process? && s.acts[a].req == i && Is(s, i)
    requires Onward(s, Go(s, a, Process(i, pp)))
    ensures Quietly(s, Go(s, a, Process(i, pp)))
  {
    OneQuiet(s, Go(s, a, Process(i, pp)), a, i);
  }

  lemma ProcessQuiet(s: State, a: nat, flushOp: bool)
    requires Inv(s) && Enabled(s, Run(a, flushOp)) && s.acts[a].Process? && !s.acts[a].pp.Handle?
    requires Onward(s, Advance(s, a, flushOp))
    ensures Quietly(s, Advance(s, a, flushOp))
  {
    var i := s.acts[a].req;
    assert ActOk(s, a) && ReqOk(s, i);
    match s.acts[a].pp
    case Begin => OneQuiet(s, BeginStep(s, a, i), a, i);
    case Finish => OneQuiet(s, FinishStep(s, a, i), a, i);
    case Judge(v) =>
      if !s.reqs[v].work && !s.reqs[v].saved {
        FlushVictimQuiet(s, a, i, v);
      } else {
        ResumeQuiet(s, a, i, AskServer(v));
      }
    case AskServer(v) =>
      if flushOp { FlushVictimQuiet(s, a, i, v); } else { ResumeQuiet(s, a, i, Finish); }
    case Flushed(_) => ResumeQuiet(s, a, i, Handle);
    case NoVictim(_) => ResumeQuiet(s, a, i, Finish);
    case Calling(_) => ResumeQuiet(s, a, i, Finish);
    case Handle =>
    case Ended =>
  }

  lemma HandleQuiet(s: State, a: nat, flushOp: bool)
    requires Inv(s) && Enabled(s, Run(a, flushOp)) && s.acts[a].Process? && s.acts[a].pp.Handle? && Links(s, a).None?
    requires Onward(s, Advance(s, a, flushOp))
    ensures Quietly(s, Advance(s, a, flushOp))
  {
    var i := s.acts[a].req;
    assert ActOk(s, a) && ReqOk(s, i);
    OneQuiet(s, Advance(s, a, flushOp), a, i);
  }

  lemma ClaimQuiet(s: State, a: nat, i: Id)
    requires Typed(s) && a < |s.acts| && s.acts[a] == Respond(i, Claim) && Is(s, i) && Onward(s, ClaimStep(s, a, i))
    ensures Quietly(s, ClaimStep(s, a, i))
  {
    assert InHand(s.acts[a], i);
  }

  lemma PostQuiet(s: State, a: nat, i: Id, fl: bool, n: Option<Id>, f: Option<Id>)
    requires Typed(s) && a < |s.acts| && s.acts[a] == Respond(i, Post(fl, n, f)) && Is(s, i)
    requires Named(|s.reqs|, n) && Named(|s.reqs|, f) && Onward(s, PostStep(s, a, i, fl, n, f))
    ensures Quietly(s, PostStep(s, a, i, fl, n, f))
  {
  }

  lemma StartNextQuiet(s: State, a: nat, i: Id, n: Option<Id>, f: Option<Id>)
    requires Typed(s) && a < |s.acts| && s.acts[a] == Respond(i, StartNext(n, f)) && Is(s, i)
    requires Named(|s.reqs|, n) && Named(|s.reqs|, f) && Onward(s, StartNextStep(s, a, i, n, f))
    ensures Quietly(s, StartNextStep(s, a, i, n, f))
  {
  }

  lemma LoopQuiet(s: State, a: nat, i: Id, cur: Option<Id>, done: nat)
    requires Typed(s) && a < |s.acts| && s.acts[a] == Respond(i, Loop(cur, done)) && Named(|s.reqs|, cur) && Is(s, i)
    requires Onward(s, LoopStep(s, a, i, cur, done))
    ensures Quietly(s, LoopStep(s, a, i, cur, done))
  {
    assert cur.Some? ==> Taken(s, cur.value) by { assert cur.Some? ==> InHand(s.acts[a], cur.value); }
  }

  /** The request the activation is about to link its Tflush to. */
  function Links(s: State, a: nat): Option<Id>
    requires a < |s.acts|
  {
    match s.acts[a]
    case Process(i, Handle) =>
      if Is(s, i) && s.reqs[i].kind.Tflush? then Lookup(s.conn, s.reqs[i].kind.oldtag) else None
    case _ => None
  }

  /** The step moves flushes, or takes one in hand. */
  predicate Moving(s: State, step: Step) {
    step.Run? && step.a < |s.acts| &&
    (Links(s, step.a).Some? || (s.acts[step.a].Respond? && (s.acts[step.a].rp.Unlink? || s.acts[step.a].rp.InLoop?)))
  }

  lemma QuietStep(s: State, step: Step)
    requires Inv(s) && Enabled(s, step) && Allowed(GroupClient, s, step) && !Moving(s, step)
    requires Onward(s, Apply(s, step))
    ensures Quietly(s, Apply(s, step))
  {
    match step
    case Recv(tag, kind) => RecvQuiet(s, tag, kind);
    case Answer(i) => AnswerQuiet(s, i);
    case Run(a, flushOp) =>
      if s.acts[a].Respond? {
        RespondQuiet(s, a, flushOp);
      } else if s.acts[a].pp.Handle? {
        HandleQuiet(s, a, flushOp);
      } else {
        ProcessQuiet(s, a, flushOp);
      }
  }

  lemma RespondQuiet(s: State, a: nat, flushOp: bool)
    requires Inv(s) && Enabled(s, Run(a, flushOp)) && s.acts[a].Respond? && !s.acts[a].rp.Unlink?
    requires !s.acts[a].rp.InLoop?
    requires Onward(s, Advance(s, a, flushOp))
    ensures Quietly(s, Advance(s, a, flushOp))
  {
    var i := s.acts[a].req;
    match s.acts[a].rp
    case Claim => ClaimQuiet(s, a, i);
    case Post(fl, n, f) => PostQuiet(s, a, i, fl, n, f);
    case StartNext(n, f) => StartNextQuiet(s, a, i, n, f);
    case Loop(cur, done) => LoopQuiet(s, a, i, cur, done);
    case Unlink(_) =>
    case InLoop(_, _, _) =>
    case Closed =>
  }

  /* ---- what every run keeps ---- */

  lemma HeldQuietly(s: State, s': State)
    requires Held(s) && Inv(s') && Quietly(s, s')
    ensures Held(s')
  {
    SoleKept(s, s');
    forall b, j | 0 <= b < |s'.acts| && 0 <= j < |s'.reqs| ensures HandOk(s', b, j) {
      if j < |s.reqs| && s.reqs[j].flushreq.Some? && InHand(s'.acts[b], s.reqs[j].flushreq.value) {
        GoneOn(s, s', j);
        assert ReqOk(s, j);
        if b < |s.acts| {
          assert HandOk(s, b, j);
        } else {
          assert Taken(s, s.reqs[j].flushreq.value);
          var a :| 0 <= a < |s.acts| && InHand(s.acts[a], s.reqs[j].flushreq.value);
          assert HandOk(s, a, j);
        }
      }
    }
  }

  /** Nobody leads to a flush that has not found its victim. */
  lemma NobodyLeads(s: State, g: Id)
    requires Inv(s) && !Waits(s, g)
    ensures Free(s, g)
  {
    forall j | 0 <= j < |s.reqs| ensures s.reqs[j].flushreq != Some(g) { assert ReqOk(s, j); }
  }

  ghost predicate Free(s: State, f: Id) {
    forall j :: 0 <= j < |s.reqs| ==> s.reqs[j].flushreq != Some(f)
  }

  lemma HeldLink(s: State, a: nat, g: Id, v: Id)
    requires Held(s) && a < |s.acts| && s.acts[a] == Process(g, Handle) && Is(s, v) && !Unlinked(s, v)
    requires s.reqs[g].kind.Tflush? && s.reqs[v].kind.Plain?
    requires var s' := Go(LinkFlush(s, g, v), a, Process(g, Judge(v))); Inv(s') && Onward(s, s')
    ensures Held(Go(LinkFlush(s, g, v), a, Process(g, Judge(v))))
  {
    var s' := Go(LinkFlush(s, g, v), a, Process(g, Judge(v)));
    assert ActOk(s, a) && ReqOk(s, g);
    NobodyLeads(s, g);
    forall j, k | 0 <= j < |s'.reqs| && 0 <= k < |s'.reqs| ensures SoleAt(s', j, k) {
      LinkSole(s, s', g, v, j, k);
    }
    forall b, j | 0 <= b < |s'.acts| && 0 <= j < |s'.reqs| ensures HandOk(s', b, j) {
      assert ActOk(s, b);
      LinkHand(s, s', a, g, v, b, j);
    }
  }

  lemma LinkSole(s: State, s': State, g: Id, v: Id, j: Id, k: Id)
    requires Is(s, g) && Is(s, v) && Is(s, j) && Is(s, k) && Linking(s, s', g, v) && Sole(s) && Onward(s, s')
    requires Free(s, g) && !Unlinked(s, v)
    ensures SoleAt(s', j, k)
  {
    var j0, k0 := if j == g then v else j, if k == g then v else k;
    assert SoleAt(s, j0, k0) && SoleAt(s, j, k0) && SoleAt(s, j0, k);
    GoneOn(s, s', j);
    GoneOn(s, s', k);
  }

  lemma LinkHand(s: State, s': State, a: nat, g: Id, v: Id, b: nat, j: Id)
    requires Is(s, g) && Is(s, v) && Is(s, j) && Linking(s, s', g, v) && Hands(s) && Onward(s, s') && !Unlinked(s, v)
    requires a < |s.acts| && b < |s.acts| && s'.acts == s.acts[a := s'.acts[a]] && s'.acts[a].Process?
    requires Is(s, s.acts[b].req) && ActOk(s, b) && !s.reqs[g].past.handed && s.reqs[g].past.victim.None?
    ensures HandOk(s', b, j)
  {
    assert HandOk(s, b, j) && HandOk(s, b, v);
    GoneOn(s, s', j);
  }

  /** The activation took one more flush in hand, of which only i had led. */
  lemma HeldTaking(s: State, s': State, a: nat, f: Id)
    requires Held(s) && Inv(s') && Onward(s, s') && SameHeads(s, s') && a < |s.acts|
    requires s'.acts == s.acts[a := s'.acts[a]]
    requires forall g :: InHand(s'.acts[a], g) ==> InHand(s.acts[a], g) || g == f
    requires forall j :: 0 <= j < |s.reqs| && s.reqs[j].flushreq == Some(f) ==> Done(s', j)
    ensures Held(s')
  {
    SoleKept(s, s');
    forall b, j | 0 <= b < |s'.acts| && 0 <= j < |s'.reqs| ensures HandOk(s', b, j) {
      if j < |s.reqs| && s.reqs[j].flushreq.Some? && s.reqs[j].flushreq != Some(f) {
        assert HandOk(s, b, j);
        GoneOn(s, s', j);
      } else if j < |s.reqs| && s.reqs[j].flushreq.Some? {
        assert Done(s', j);
      }
    }
  }

  /** All that lead to a flush are done once the one that has not handed it on is. */
  lemma OthersDone(s: State, s': State, i: Id, f: Id)
    requires Held(s) && Onward(s, s') && Is(s, i) && s.reqs[i].flushreq == Some(f) && !Gone(s, i) && Done(s', i)
    ensures forall j :: 0 <= j < |s.reqs| && s.reqs[j].flushreq == Some(f) ==> Done(s', j)
  {
    forall j | 0 <= j < |s.reqs| && s.reqs[j].flushreq == Some(f) ensures Done(s', j) {
      assert SoleAt(s, i, j);
      GoneOn(s, s', j);
    }
  }

  lemma HeldInLoop(s: State, a: nat, i: Id, cur: Option<Id>, done: nat, call: nat)
    requires Held(s) && a < |s.acts| && s.acts[a] == Respond(i, InLoop(cur, done, call)) && cur.Some?
    requires Is(s, cur.value)
    requires var s' := Go(s, a, Respond(i, Loop(s.reqs[cur.value].flushreq, done + 1))); Inv(s') && Onward(s, s')
    ensures Held(Go(s, a, Respond(i, Loop(s.reqs[cur.value].flushreq, done + 1))))
  {
    var c := cur.value;
    var s' := Go(s, a, Respond(i, Loop(s.reqs[c].flushreq, done + 1)));
    assert ActOk(s, a);
    if s.reqs[c].flushreq.Some? {
      assert Answers(s', call, c);
      OthersDone(s, s', c, s.reqs[c].flushreq.value);
      HeldTaking(s, s', a, s.reqs[c].flushreq.value);
    } else {
      SoleKept(s, s');
      forall b, j | 0 <= b < |s'.acts| && 0 <= j < |s'.reqs| ensures HandOk(s', b, j) {
        assert HandOk(s, b, j);
        GoneOn(s, s', j);
      }
    }
  }

  lemma HeldUnlinkLast(s: State, a: nat, i: Id, fl: bool)
    requires Held(s) && a < |s.acts| && s.acts[a] == Respond(i, Unlink(fl)) && Is(s, i) && s.reqs[i].prev.None?
    requires Inv(UnlinkStep(s, a, i, fl)) && Onward(s, UnlinkStep(s, a, i, fl))
    ensures Held(UnlinkStep(s, a, i, fl))
  {
    var s' := UnlinkStep(s, a, i, fl);
    if s.reqs[i].flushreq.Some? {
      OneWinner(s, a);
      UnlinkStages(s, s', a, i, i);
      assert Answers(s', a, i);
      OthersDone(s, s', i, s.reqs[i].flushreq.value);
      HeldTaking(s, s', a, s.reqs[i].flushreq.value);
    } else {
      SoleKept(s, s');
      forall b, j | 0 <= b < |s'.acts| && 0 <= j < |s'.reqs| ensures HandOk(s', b, j) {
        assert HandOk(s, b, j);
        GoneOn(s, s', j);
      }
    }
  }

  lemma HeldUnlinkNext(s: State, a: nat, i: Id, fl: bool, n: Id)
    requires Held(s) && a < |s.acts| && s.acts[a] == Respond(i, Unlink(fl)) && s.reqs[i].prev == Some(n)
    requires Inv(UnlinkStep(s, a, i, fl)) && Onward(s, UnlinkStep(s, a, i, fl))
    ensures Held(UnlinkStep(s, a, i, fl))
  {
    var s' := UnlinkStep(s, a, i, fl);
    NextHandedOn(s, a, i, fl, n);
    OneWinner(s, a);
    UnlinkStages(s, s', a, i, i);
    forall j, k | 0 <= j < |s'.reqs| && 0 <= k < |s'.reqs| ensures SoleAt(s', j, k) { HandedSole(s, s', i, n, j, k); }
    forall b, j | 0 <= b < |s'.acts| && 0 <= j < |s'.reqs| ensures HandOk(s', b, j) {
      assert HandOk(s, b, i) && HandOk(s, b, j);
      GoneOn(s, s', j);
    }
  }

  lemma HandedSole(s: State, s': State, i: Id, n: Id, j: Id, k: Id)
    requires Is(s, i) && Is(s, n) && Is(s, j) && Is(s, k) && HandedOn(s, s', i, n) && Sole(s) && Onward(s, s')
    requires s.reqs[i].kind.Plain? && s.reqs[i].prev.Some? && Unlinked(s', i) && !Unlinked(s, i)
    ensures SoleAt(s', j, k)
  {
    assert SoleAt(s, j, k) && SoleAt(s, i, j) && SoleAt(s, i, k);
    GoneOn(s, s', j);
    GoneOn(s, s', k);
  }

  lemma HeldMoving(s: State, a: nat, flushOp: bool)
    requires Held(s) && Enabled(s, Run(a, flushOp)) && AimsRight(s, a) && Moving(s, Run(a, flushOp))
    requires Inv(Advance(s, a, flushOp)) && Onward(s, Advance(s, a, flushOp))
    ensures Held(Advance(s, a, flushOp))
  {
    var i := s.acts[a].req;
    assert ActOk(s, a);
    match s.acts[a]
    case Process(_, _) =>
      var v := Links(s, a).value;
      assert TagOk(s, s.reqs[i].kind.oldtag);
      HeldLink(s, a, i, v);
    case Respond(_, rp) =>
      if rp.InLoop? {
        HeldInLoop(s, a, i, rp.cur, rp.done, rp.call);
      } else if s.reqs[i].prev.None? {
        HeldUnlinkLast(s, a, i, rp.flushed);
      } else {
        HeldUnlinkNext(s, a, i, rp.flushed, s.reqs[i].prev.value);
      }
  }

  lemma HeldStep(s: State, step: Step)
    requires Held(s) && Enabled(s, step) && Allowed(GroupClient, s, step)
    ensures Held(Apply(s, step))
  {
    KeepStep(s, step);
    if Moving(s, step) {
      HeldMoving(s, step.a, step.flushOp);
    } else {
      QuietStep(s, step);
      HeldQuietly(s, Apply(s, step));
    }
  }

  lemma {:induction false} HeldRun(run: seq<State>)
    requires Reachable(GroupClient, run)
    ensures Held(Last(run))
    decreases |run|
  {
    if |run| > 1 {
      var was := run[..|run| - 1];
      Before(GroupClient, run);
      HeldRun(was);
      var step :| Move(GroupClient, Last(was), step, Last(run));
      HeldStep(Last(was), step);
    }
  }

  /* ---- what is on a chain ---- */

  /** What is on the chain of a request waits for it or for an older one. */
  lemma {:induction false} OnChainWaits(s: State, i: Id, m: nat)
    requires Inv(s) && Is(s, i) && s.reqs[i].kind.Plain? && m > 0 && F.After(s.reqs, i, m).Some?
    ensures var f := F.After(s.reqs, i, m).value; Waits(s, f) && s.reqs[f].past.victim.value <= i
    decreases m
  {
    var j := F.After(s.reqs, i, m - 1).value;
    if m > 1 { OnChainWaits(s, i, m - 1); } else { assert j == i; }
    assert ReqOk(s, j);
  }

  /** A chain that is exactly the flushes of its request. */
  lemma {:induction false} ExactAfter(s: State, n: Id, m: nat)
    requires Is(s, n) && s.reqs[n].kind.Plain? && F.Chain(s, n) && m > 0
    ensures F.After(s.reqs, n, m) == F.At(s.reqs[n].past.flushers, m - 1)
    decreases m
  {
    if m > 1 {
      ExactAfter(s, n, m - 1);
      var q := s.reqs[n].past.flushers;
      if m - 2 < |q| { assert F.Flushes(s, q[m - 2], n); }
    } else {
      assert F.After(s.reqs, n, 0) == Some(n);
    }
  }

  /** The flushes of i follow n from now on. */
  lemma {:induction false} FollowNext(s: State, s': State, i: Id, n: Id, m: nat)
    requires Inv(s) && HandedOn(s, s', i, n) && s.reqs[i].kind.Plain? && s.reqs[n].kind.Plain?
    requires s.reqs[n].flushreq.None? && m > 0
    ensures F.After(s'.reqs, n, m) == F.After(s.reqs, i, m)
    decreases m
  {
    if m > 1 {
      FollowNext(s, s', i, n, m - 1);
      if F.After(s.reqs, i, m - 1).Some? { OnChainWaits(s, i, m - 1); }
    } else {
      assert F.After(s'.reqs, n, 0) == Some(n) && F.After(s.reqs, i, 0) == Some(i);
    }
  }

  /** No Tflush of the client found n. */
  ghost predicate NotFlushed(s: State, n: Id) {
    forall g :: !F.Flushes(s, g, n)
  }

  /** While its predecessor is not unlinked, a request has its own flushes on its chain, and no others. */
  lemma NextIsExact(s: State, a: nat, i: Id, fl: bool, n: Id)
    requires Inv(s) && a < |s.acts| && s.acts[a] == Respond(i, Unlink(fl)) && s.reqs[i].prev == Some(n)
    ensures i < n && Is(s, n) && s.reqs[n].kind.Plain? && F.Chain(s, n)
    ensures NotFlushed(s, n) <==> s.reqs[n].flushreq.None?
  {
    NextHandedOn(s, a, i, fl, n);
    OneWinner(s, a);
    assert ReqOk(s, i);
    assert ReqOk(s, n);
    var q := s.reqs[n].past.flushers;
    forall g | F.Flushes(s, g, n) ensures q != [] { assert ReqOk(s, g); }
    if q != [] { assert F.Flushes(s, q[0], n); }
  }

  lemma MovedOn(s: State, a: nat, i: Id, fl: bool, n: Id, f: Id)
    requires Inv(s) && a < |s.acts| && s.acts[a] == Respond(i, Unlink(fl)) && s.reqs[i].prev == Some(n)
    requires F.OnChain(s.reqs, i, f)
    ensures F.OnChain(UnlinkStep(s, a, i, fl).reqs, n, f) <==> NotFlushed(s, n)
  {
    var s' := UnlinkStep(s, a, i, fl);
    NextHandedOn(s, a, i, fl, n);
    NextIsExact(s, a, i, fl, n);
    var m: nat :| m > 0 && F.After(s.reqs, i, m) == Some(f);
    if s.reqs[n].flushreq.None? {
      FollowNext(s, s', i, n, m);
    } else {
      OnChainWaits(s, i, m);
      forall k: nat | k > 0 ensures F.After(s'.reqs, n, k) != Some(f) {
        F.SameAfter(s.reqs, s'.reqs, n, k);
        ExactAfter(s, n, k);
        var q := s.reqs[n].past.flushers;
        if k - 1 < |q| { assert F.Flushes(s, q[k - 1], n); }
      }
    }
  }

  /**
   In any run, when a request is answered while another of its tag waits behind it, every flush on its chain goes
   to the chain of that one if the client has not flushed it; otherwise none does.
   */
  lemma FlushesMoveOn(run: seq<State>, a: nat, i: Id, fl: bool, n: Id, f: Id)
    requires Reachable(GroupClient, run) && a < |Last(run).acts| && Last(run).acts[a] == Respond(i, Unlink(fl))
    requires Is(Last(run), i) && Last(run).reqs[i].prev == Some(n) && F.OnChain(Last(run).reqs, i, f)
    requires Typed(Last(run))
    ensures F.OnChain(UnlinkStep(Last(run), a, i, fl).reqs, n, f) <==> NotFlushed(Last(run), n)
  {
    InvRun(run);
    MovedOn(Last(run), a, i, fl, n, f);
  }

  /* ---- lost for good ---- */

  /** Nothing that will be answered leads to any of these flushes. */
  ghost predicate Lost(s: State, lost: set<Id>) {
    && (forall f :: f in lost ==> Waits(s, f) && !s.reqs[f].responded)
    && (forall a, f :: 0 <= a < |s.acts| && f in lost ==> !InHand(s.acts[a], f))
    && (forall j {:trigger LeadsNot(s, lost, j)} :: 0 <= j < |s.reqs| ==> LeadsNot(s, lost, j))
  }

  ghost predicate LeadsNot(s: State, lost: set<Id>, j: Id)
    requires Is(s, j)
  {
    s.reqs[j].flushreq.Some? && s.reqs[j].flushreq.value in lost ==> j in lost || Gone(s, j)
  }

  lemma LostQuietly(s: State, s': State, lost: set<Id>)
    requires Inv(s') && Lost(s, lost) && Quietly(s, s')
    ensures Lost(s', lost)
  {
    forall f | f in lost ensures Waits(s', f) { assert ReqOk(s', f); }
    forall j | 0 <= j < |s'.reqs| ensures LeadsNot(s', lost, j) {
      if j < |s.reqs| {
        assert LeadsNot(s, lost, j);
        GoneOn(s, s', j);
      }
    }
  }

  /** Flushes move, but no lost one is taken in hand, and only i may lead to more than before. */
  lemma LostMoving(s: State, s': State, a: nat, lost: set<Id>)
    requires Inv(s) && Lost(s, lost) && Onward(s, s') && |s'.reqs| == |s.reqs| && a < |s.acts|
    requires s'.acts == s.acts[a := s'.acts[a]]
    requires forall i :: 0 <= i < |s.reqs| ==> s'.reqs[i].responded == s.reqs[i].responded
    requires forall f :: f in lost ==> !InHand(s'.acts[a], f)
    requires forall j :: 0 <= j < |s.reqs| && s'.reqs[j].flushreq != s.reqs[j].flushreq ==>
               s'.reqs[j].flushreq.Some? && s'.reqs[j].flushreq.value !in lost
    ensures Lost(s', lost)
  {
    forall j | 0 <= j < |s'.reqs| ensures LeadsNot(s', lost, j) {
      assert LeadsNot(s, lost, j);
      GoneOn(s, s', j);
    }
  }

  lemma LostLink(s: State, a: nat, g: Id, v: Id, lost: set<Id>)
    requires Inv(s) && Lost(s, lost) && a < |s.acts| && s.acts[a] == Process(g, Handle) && Is(s, v) && !Unlinked(s, v)
    requires s.reqs[g].kind.Tflush? && s.reqs[v].kind.Plain?
    requires Onward(s, Go(LinkFlush(s, g, v), a, Process(g, Judge(v))))
    ensures Lost(Go(LinkFlush(s, g, v), a, Process(g, Judge(v))), lost)
  {
    assert ActOk(s, a) && ReqOk(s, g) && LeadsNot(s, lost, v) && LeadsNot(s, lost, g);
    LostLinked(s, Go(LinkFlush(s, g, v), a, Process(g, Judge(v))), a, g, v, lost);
  }

  lemma LostLinked(s: State, s': State, a: nat, g: Id, v: Id, lost: set<Id>)
    requires Inv(s) && Lost(s, lost) && Onward(s, s') && Is(s, g) && Is(s, v) && Linking(s, s', g, v)
    requires a < |s.acts| && s'.acts == s.acts[a := s'.acts[a]] && s'.acts[a].Process?
    requires s.reqs[v].flushreq.Some? ==> s.reqs[v].flushreq.value !in lost
    ensures Lost(s', lost)
  {
    forall j | 0 <= j < |s'.reqs| ensures LeadsNot(s', lost, j) {
      assert LeadsNot(s, lost, j);
      GoneOn(s, s', j);
    }
  }

  lemma LostMoves(s: State, a: nat, flushOp: bool, lost: set<Id>)
    requires Inv(s) && Lost(s, lost) && Enabled(s, Run(a, flushOp)) && AimsRight(s, a) && Moving(s, Run(a, flushOp))
    requires Onward(s, Advance(s, a, flushOp))
    ensures Lost(Advance(s, a, flushOp), lost)
  {
    var i, s' := s.acts[a].req, Advance(s, a, flushOp);
    assert ActOk(s, a) && LeadsNot(s, lost, i);
    match s.acts[a]
    case Process(_, _) =>
      assert TagOk(s, s.reqs[i].kind.oldtag);
      LostLink(s, a, i, Links(s, a).value, lost);
    case Respond(_, rp) =>
      assert InHand(s.acts[a], i);
      if rp.InLoop? {
        assert LeadsNot(s, lost, rp.cur.value) && InHand(s.acts[a], rp.cur.value);
        LostMoving(s, s', a, lost);
      } else {
        OneWinner(s, a);
        LostUnlink(s, a, i, rp.flushed, lost);
      }
  }

  lemma LostUnlink(s: State, a: nat, i: Id, fl: bool, lost: set<Id>)
    requires Inv(s) && Lost(s, lost) && a < |s.acts| && s.acts[a] == Respond(i, Unlink(fl)) && Is(s, i)
    requires s.reqs[i].flushreq.Some? ==> s.reqs[i].flushreq.value !in lost
    requires Onward(s, UnlinkStep(s, a, i, fl))
    ensures Lost(UnlinkStep(s, a, i, fl), lost)
  {
    assert InHand(s.acts[a], i);
    if s.reqs[i].prev.Some? { NextHandedOn(s, a, i, fl, s.reqs[i].prev.value); }
    LostMoving(s, UnlinkStep(s, a, i, fl), a, lost);
  }

  lemma LostStep(s: State, step: Step, lost: set<Id>)
    requires Inv(s) && Lost(s, lost) && Enabled(s, step) && Allowed(GroupClient, s, step)
    ensures Lost(Apply(s, step), lost)
  {
    KeepStep(s, step);
    if Moving(s, step) {
      LostMoves(s, step.a, step.flushOp, lost);
    } else {
      QuietStep(s, step);
      LostQuietly(s, Apply(s, step), lost);
    }
  }

  /** What is lost stays lost, however the run goes on. */
  lemma {:induction false} LostForever(run: seq<State>, k: nat, lost: set<Id>)
    requires Reachable(GroupClient, run) && k < |run| && Lost(run[k], lost)
    ensures Lost(Last(run), lost)
    ensures forall f :: f in lost ==> f !in Last(run).out
    decreases |run|
  {
    if k < |run| - 1 {
      var was := run[..|run| - 1];
      Before(GroupClient, run);
      InvRun(was);
      LostForever(was, k, lost);
      var step :| Move(GroupClient, Last(was), step, Last(run));
      LostStep(Last(was), step, lost);
    }
    BaseRun(GroupClient, run);
    forall f | f in lost ensures f !in Last(run).out { assert BaseReq(Last(run), f); }
  }

  /* ---- a flushed successor loses the flushes it is handed ---- */

  /** No activation has in hand what is on the chain of a request that is not unlinked. */
  lemma {:induction false} ChainNotInHand(s: State, i: Id, m: nat, b: nat)
    requires Held(s) && Is(s, i) && s.reqs[i].kind.Plain? && !Unlinked(s, i) && m > 0 && F.After(s.reqs, i, m).Some?
    requires b < |s.acts|
    ensures !InHand(s.acts[b], F.After(s.reqs, i, m).value)
    decreases m
  {
    var j := F.After(s.reqs, i, m - 1).value;
    if m == 1 {
      assert j == i;
    } else {
      OnChainWaits(s, i, m - 1);
      forall c | 0 <= c < |s.acts| ensures !Answers(s, c, j) { ChainNotInHand(s, i, m - 1, c); }
    }
    assert HandOk(s, b, j);
  }

  ghost function OnChainOf(s: State, i: Id): (c: set<Id>)
    ensures forall f: nat :: f in c <==> f < |s.reqs| && F.OnChain(s.reqs, i, f)
  {
    set f: nat | 0 <= f < |s.reqs| && F.OnChain(s.reqs, i, f)
  }

  lemma ChainWaits(s: State, i: Id, f: Id)
    requires Held(s) && Is(s, i) && s.reqs[i].kind.Plain? && !Unlinked(s, i) && F.OnChain(s.reqs, i, f)
    ensures Waits(s, f) && !s.reqs[f].responded && forall b :: 0 <= b < |s.acts| ==> !InHand(s.acts[b], f)
  {
    var m: nat :| m > 0 && F.After(s.reqs, i, m) == Some(f);
    OnChainWaits(s, i, m);
    forall b | 0 <= b < |s.acts| ensures !InHand(s.acts[b], f) { ChainNotInHand(s, i, m, b); }
    assert BaseReq(s, f);
  }

  /** Who leads to a flush of the chain is on the chain, or is its request, or has handed it on. */
  lemma ChainLeads(s: State, i: Id, f: Id, j: Id)
    requires Held(s) && Is(s, i) && s.reqs[i].kind.Plain? && !Unlinked(s, i) && F.OnChain(s.reqs, i, f)
    requires Is(s, j) && s.reqs[j].flushreq == Some(f)
    ensures j == i || Gone(s, j) || F.OnChain(s.reqs, i, j)
  {
    var m: nat :| m > 0 && F.After(s.reqs, i, m) == Some(f);
    var p := F.After(s.reqs, i, m - 1).value;
    if m > 1 { OnChainWaits(s, i, m - 1); } else { assert p == i; }
    assert SoleAt(s, j, p);
  }

  lemma LostAtUnlink(s: State, a: nat, i: Id, fl: bool, n: Id)
    requires Held(s) && a < |s.acts| && s.acts[a] == Respond(i, Unlink(fl)) && s.reqs[i].prev == Some(n)
    requires !NotFlushed(s, n)
    ensures Lost(UnlinkStep(s, a, i, fl), OnChainOf(s, i))
  {
    var s', lost := UnlinkStep(s, a, i, fl), OnChainOf(s, i);
    NextHandedOn(s, a, i, fl, n);
    NextIsExact(s, a, i, fl, n);
    OneWinner(s, a);
    UnlinkStages(s, s', a, i, i);
    UnlinkGrows(s, a, i, fl, n);
    forall f | f in lost
      ensures Waits(s', f) && !s'.reqs[f].responded && forall b :: 0 <= b < |s'.acts| ==> !InHand(s'.acts[b], f)
    {
      ChainWaits(s, i, f);
    }
    forall j | 0 <= j < |s'.reqs| ensures LeadsNot(s', lost, j) {
      if s.reqs[j].flushreq.Some? && s.reqs[j].flushreq.value in lost { ChainLeads(s, i, s.reqs[j].flushreq.value, j); }
    }
  }

  /**
   In any run, if a request is answered while the next of its tag has been flushed, no flush that was on its chain is
   ever answered.
   */
  lemma MovedFlushIsLost(run: seq<State>, k: nat, a: nat, i: Id, fl: bool, n: Id, f: Id)
    requires Reachable(GroupClient, run) && k + 1 < |run| && Typed(run[k])
    requires a < |run[k].acts| && run[k].acts[a] == Respond(i, Unlink(fl)) && Is(run[k], i)
    requires run[k].reqs[i].prev == Some(n)
    requires F.OnChain(run[k].reqs, i, f) && !NotFlushed(run[k], n) && run[k + 1] == UnlinkStep(run[k], a, i, fl)
    ensures f !in Last(run).out
  {
    Prefix(run, k);
    HeldRun(run[..k + 1]);
    var s := run[k];
    NextHandedOn(s, a, i, fl, n);
    OneWinner(s, a);
    ChainWaits(s, i, f);
    LostAtUnlink(s, a, i, fl, n);
    LostForever(run, k + 1, OnChainOf(s, i));
  }

  lemma Prefix(run: seq<State>, k: nat)
    requires Reachable(GroupClient, run) && k < |run|
    ensures Reachable(GroupClient, run[..k + 1]) && Last(run[..k + 1]) == run[k]
  {
    var was := run[..k + 1];
    forall j: nat ensures NextAt(GroupClient, was, j) { assert NextAt(GroupClient, run, j); }
  }
}
