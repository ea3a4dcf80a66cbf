/**
 Cancelling a request (p/srv/srv.go, `flush` of p/srv/fcall.go): the engine drops the reply of a request
 only before the file server got it; from then on the file server alone may have it dropped.
 */
module Cancel {
  import opened Common
  import opened Engine

  /** The file server has the request, so the engine may not cancel it. */
  ghost predicate Given(r: Req) {
    r.responded || ((r.work || r.saved) && !r.flush)
  }

  ghost predicate ActOk(s: State, a: nat)
    requires a < |s.acts| && Is(s, s.acts[a].req)
  {
    match s.acts[a]
    case Respond(_, _) => true
    case Process(i, pp) =>
      match pp
      case Begin => true
      case Flushed(c) => c < |s.acts| && s.acts[c].Respond? && s.acts[c].req == i
      case _ => Given(s.reqs[i])
  }

  ghost predicate Inv(s: State) {
    && Base(s)
    && (forall i :: 0 <= i < |s.reqs| && s.reqs[i].past.handed ==> Given(s.reqs[i]))
    && (forall a :: 0 <= a < |s.acts| ==> ActOk(s, a))
  }

  /** The activation does not drop a reply. */
  ghost predicate Keeps(act: Act) {
    match act
    case Respond(_, Unlink(fl)) => !fl
    case Respond(_, Post(fl, _, _)) => !fl
    case _ => true
  }

  /** What may happen to request i when activation a moves; a new one moves if there is no a yet. */
  ghost predicate Tick(r: Req, r': Req, i: Id, acts: seq<Act>, a: nat) {
    && (r.responded ==> r'.responded && r'.past.winner == r.past.winner)
    && (r'.responded && !r.responded ==> a < |acts| && acts[a] == Respond(i, Claim) && r'.past.winner == Some(a))
    && (!r'.responded && (r.work || r.saved) ==> (r'.work || r'.saved) && (r'.flush ==> r.flush))
    && (r.past.handed ==> r'.past.handed)
    && (r'.past.handed && !r.past.handed ==> a < |acts| && acts[a] == Process(i, Handle))
    && (r'.past.suppressed && !r.past.suppressed ==> a < |acts| && acts[a].req == i && !Keeps(acts[a]))
  }

  /** What becomes of the activation that moves. */
  ghost predicate Proceeds(s: State, act: Act, act': Act) {
    && act'.req == act.req && act'.Process? == act.Process?
    && (act.Respond? && !act.rp.Claim? && Keeps(act) ==> Keeps(act'))
    && (act.Respond? && act.rp.Claim? && Is(s, act.req) && !s.reqs[act.req].flush ==> Keeps(act'))
  }

  ghost predicate Moves(s: State, s': State, a: nat) {
    && |s.reqs| <= |s'.reqs| && |s.acts| <= |s'.acts|
    && (forall j :: 0 <= j < |s.reqs| ==> Tick(s.reqs[j], s'.reqs[j], j, s.acts, a))
    && (forall j :: |s.reqs| <= j < |s'.reqs| ==> !s'.reqs[j].past.handed)
    && (forall b :: 0 <= b < |s.acts| && b != a ==> s'.acts[b] == s.acts[b])
    && (a < |s.acts| ==> Proceeds(s, s.acts[a], s'.acts[a]))
    && (forall b :: |s.acts| <= b < |s'.acts| ==> s'.acts[b].Respond? || s'.acts[b].pp.Begin?)
  }

  lemma ReceiveMoves(s: State, tag: Tag, kind: Kind)
    requires Typed(s)
    ensures Moves(s, Receive(s, tag, kind), |s.acts|)
  {
  }

  lemma LinkMoves(s: State, a: nat, i: Id, v: Id)
    requires Typed(s) && a < |s.acts| && s.acts[a] == Process(i, Handle) && Is(s, i) && Is(s, v)
    ensures Moves(s, Go(LinkFlush(s, i, v), a, Process(i, Judge(v))), a)
  {
  }

  lemma HandleMoves(s: State, a: nat, i: Id)
    requires Typed(s) && a < |s.acts| && s.acts[a] == Process(i, Handle) && Is(s, i)
    ensures Moves(s, HandleStep(s, a, i), a)
  {
    if s.reqs[i].kind.Tflush? && s.reqs[i].kind.oldtag in s.conn {
      LinkMoves(s, a, i, s.conn[s.reqs[i].kind.oldtag]);
    }
  }

  lemma JudgeMoves(s: State, a: nat, i: Id, v: Id)
    requires Typed(s) && a < |s.acts| && s.acts[a] == Process(i, Judge(v)) && Is(s, i) && Is(s, v)
    ensures Moves(s, JudgeStep(s, a, i, v), a)
  {
  }

  /** Only links change. */
  ghost predicate SameStatus(r: Req, r': Req) {
    r'.kind == r.kind && r'.work == r.work && r'.saved == r.saved && r'.flush == r.flush &&
      r'.responded == r.responded && r'.past == r.past
  }

  lemma MoveStatus(s: State, n: Id, head: Option<Id>)
    requires Is(s, n) && AllLinked(s.reqs) && Named(|s.reqs|, head)
    ensures var s' := MoveFlushes(s, n, head);
            && |s'.reqs| == |s.reqs| && forall j :: 0 <= j < |s.reqs| ==> SameStatus(s.reqs[j], s'.reqs[j])
  {
  }

  lemma UnlinkStatus(s: State, a: nat, i: Id, fl: bool)
    requires Typed(s) && a < |s.acts| && s.acts[a] == Respond(i, Unlink(fl)) && Is(s, i)
    ensures var s' := UnlinkStep(s, a, i, fl);
            && |s'.reqs| == |s.reqs| && forall j :: 0 <= j < |s.reqs| ==> SameStatus(s.reqs[j], s'.reqs[j])
  {
    var r := s.reqs[i];
    if r.prev.Some? && r.flushreq.Some? {
      var n := r.prev.value;
      var s0 := s.(queues := s.queues[r.tag := Without(Queue(s, r.tag), i)]);
      MoveStatus(Set(s0, n, s.reqs[n].(next := None)), n, r.flushreq);
    }
  }

  lemma UnlinkMoves(s: State, a: nat, i: Id, fl: bool)
    requires Typed(s) && a < |s.acts| && s.acts[a] == Respond(i, Unlink(fl)) && Is(s, i)
    ensures Moves(s, UnlinkStep(s, a, i, fl), a)
  {
    var s' := UnlinkStep(s, a, i, fl);
    assert |s'.acts| == |s.acts| && forall b :: 0 <= b < |s.acts| && b != a ==> s'.acts[b] == s.acts[b];
    assert Proceeds(s, s.acts[a], s'.acts[a]);
    UnlinkStatus(s, a, i, fl);
    forall j | 0 <= j < |s.reqs| ensures Tick(s.reqs[j], s'.reqs[j], j, s.acts, a) {
      assert SameStatus(s.reqs[j], s'.reqs[j]);
    }
  }

  lemma StartNextMoves(s: State, a: nat, i: Id, n: Option<Id>, f: Option<Id>)
    requires Typed(s) && a < |s.acts| && s.acts[a] == Respond(i, StartNext(n, f)) && Is(s, i)
    requires Named(|s.reqs|, n) && Named(|s.reqs|, f)
    ensures Moves(s, StartNextStep(s, a, i, n, f), a)
  {
  }

  lemma ClaimMoves(s: State, a: nat, i: Id)
    requires Typed(s) && a < |s.acts| && s.acts[a] == Respond(i, Claim) && Is(s, i)
    ensures Moves(s, ClaimStep(s, a, i), a)
  {
  }

  lemma PostMoves(s: State, a: nat, i: Id, fl: bool, n: Option<Id>, f: Option<Id>)
    requires Typed(s) && a < |s.acts| && s.acts[a] == Respond(i, Post(fl, n, f)) && Is(s, i)
    requires Named(|s.reqs|, n) && Named(|s.reqs|, f)
    ensures Moves(s, PostStep(s, a, i, fl, n, f), a)
  {
  }

  lemma RespondMoves(s: State, a: nat)
    requires Typed(s) && Enabled(s, Run(a, false)) && s.acts[a].Respond?
    ensures Moves(s, Advance(s, a, false), a)
  {
    var i := s.acts[a].req;
    match s.acts[a].rp
    case Claim => ClaimMoves(s, a, i);
    case Post(fl, n, f) => PostMoves(s, a, i, fl, n, f);
    case Unlink(fl) => UnlinkMoves(s, a, i, fl);
    case StartNext(n, f) => StartNextMoves(s, a, i, n, f);
    case _ =>
  }

  lemma ProcessMoves(s: State, a: nat)
    requires Typed(s) && Enabled(s, Run(a, false)) && s.acts[a].Process?
    ensures Moves(s, Advance(s, a, false), a)
  {
    var i := s.acts[a].req;
    match s.acts[a].pp
    case Handle => HandleMoves(s, a, i);
    case Judge(v) => JudgeMoves(s, a, i, v);
    case _ =>
  }

  lemma StepMoves(s: State, step: Step)
    requires Typed(s) && Enabled(s, step) && Allowed(Passive, s, step)
    ensures Moves(s, Apply(s, step), if step.Run? then step.a else |s.acts|)
  {
    match step
    case Recv(tag, kind) => ReceiveMoves(s, tag, kind);
    case Answer(_) =>
    case Run(a, _) => if s.acts[a].Process? { ProcessMoves(s, a); } else { RespondMoves(s, a); }
  }

  /** Once given, always given. */
  lemma GivenKept(s: State, s': State, a: nat, i: Id)
    requires Moves(s, s', a) && Is(s, i) && Given(s.reqs[i])
    ensures Is(s', i) && Given(s'.reqs[i])
  {
    assert Tick(s.reqs[i], s'.reqs[i], i, s.acts, a);
  }

  /** A request is handed over by its own activation only, which has it marked first. */
  lemma HandedKept(s: State, s': State, a: nat, i: Id)
    requires Inv(s) && Moves(s, s', a) && i < |s'.reqs| && s'.reqs[i].past.handed
    ensures Given(s'.reqs[i])
  {
    if !s.reqs[i].past.handed { assert ActOk(s, a); }
    GivenKept(s, s', a, i);
  }

  /** The activation that moves. */
  lemma OwnKept(s: State, a: nat)
    requires Inv(s) && Enabled(s, Run(a, false)) && s.acts[a].Process?
    ensures ActOk(Advance(s, a, false), a)
  {
    assert ActOk(s, a);
    var i := s.acts[a].req;
    ProcessMoves(s, a);
    if Given(s.reqs[i]) { GivenKept(s, Advance(s, a, false), a, i); }
    if s.acts[a].pp.Flushed? {
      assert BaseAct(s, s.acts[a].pp.call);
    }
  }

  lemma ActKept(s: State, s': State, a: nat, b: nat)
    requires Inv(s) && Moves(s, s', a) && b < |s.acts| && b != a
    ensures Is(s', s'.acts[b].req) && ActOk(s', b)
  {
    assert ActOk(s, b);
    var i := s.acts[b].req;
    if Given(s.reqs[i]) { GivenKept(s, s', a, i); }
  }

  lemma KeepStep(s: State, step: Step)
    requires Inv(s) && Enabled(s, step) && Allowed(Passive, s, step)
    ensures Inv(Apply(s, step))
  {
    var s' := Apply(s, step);
    var a := if step.Run? then step.a else |s.acts|;
    BaseStep(s, step);
    StepMoves(s, step);
    forall i | 0 <= i < |s'.reqs| && s'.reqs[i].past.handed ensures Given(s'.reqs[i]) { HandedKept(s, s', a, i); }
    forall b | 0 <= b < |s'.acts| ensures ActOk(s', b) {
      if b < |s.acts| {
        if b != a { ActKept(s, s', a, b); } else if s.acts[a].Process? { OwnKept(s, a); }
      }
    }
  }

  lemma {:induction false} InvRun(run: seq<State>)
    requires Reachable(Passive, run)
    ensures Inv(Last(run))
    decreases |run|
  {
    if |run| > 1 {
      var was := run[..|run| - 1];
      Before(Passive, run);
      InvRun(was);
      var step :| Move(Passive, Last(was), step, Last(run));
      KeepStep(Last(was), step);
    }
  }

  /** The request is with the file server, or its answer is on its way to the client. */
  ghost predicate Kept(s: State, v: Id) {
    && Is(s, v) && s.reqs[v].past.handed && !s.reqs[v].past.suppressed
    && (s.reqs[v].responded ==>
          var w := s.reqs[v].past.winner;
          w.Some? && w.value < |s.acts| && Keeps(s.acts[w.value]))
  }

  lemma KeptStep(s: State, s': State, a: nat, v: Id)
    requires Inv(s) && Moves(s, s', a) && Kept(s, v)
    ensures Kept(s', v)
  {
    assert BaseReq(s, v) && Given(s.reqs[v]) && Tick(s.reqs[v], s'.reqs[v], v, s.acts, a);
    if a < |s.acts| { assert BaseAct(s, a); }
  }

  lemma ServedIsKept(s: State, v: Id)
    requires Inv(s) && Is(s, v) && s.reqs[v].past.handed && !s.reqs[v].responded
    ensures Kept(s, v)
  {
    assert BaseReq(s, v);
  }

  lemma KeptNext(s: State, s': State, v: Id)
    requires Inv(s) && Next(Passive, s, s') && Kept(s, v)
    ensures Kept(s', v)
  {
    var step :| Move(Passive, s, step, s');
    StepMoves(s, step);
    KeptStep(s, s', if step.Run? then step.a else |s.acts|, v);
  }

  /**
   A request that reached the file server before it was answered keeps its reply to the end, unless the
   file server itself cancels it.
   */
  lemma {:induction false} ServedIsNotDropped(run: seq<State>, j: nat, v: Id)
    requires Reachable(Passive, run) && j < |run|
    requires Is(run[j], v) && run[j].reqs[v].past.handed && !run[j].reqs[v].responded
    ensures Kept(Last(run), v)
    decreases |run|
  {
    if j == |run| - 1 {
      InvRun(run);
      ServedIsKept(Last(run), v);
    } else {
      var was := run[..|run| - 1];
      Before(Passive, run);
      ServedIsNotDropped(was, j, v);
      InvRun(was);
      KeptNext(Last(was), Last(run), v);
    }
  }

  /** Such a request, once answered and at rest, has its reply on reqout. */
  lemma ServedIsReplied(run: seq<State>, j: nat, v: Id)
    requires Reachable(Passive, run) && j < |run|
    requires Is(run[j], v) && run[j].reqs[v].past.handed && !run[j].reqs[v].responded
    requires Is(Last(run), v) && Last(run).reqs[v].responded
    requires forall a :: 0 <= a < |Last(run).acts| ==> Last(run).acts[a].Over()
    ensures v in Last(run).out
  {
    ServedIsNotDropped(run, j, v);
    InvRun(run);
    var s := Last(run);
    assert BaseReq(s, v);
    assert s.acts[s.reqs[v].past.winner.value].Over();
  }
}
