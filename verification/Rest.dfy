/**
 What is left when every goroutine of the engine is at rest: no request is lost on its way.
 */
module Rest {
  import opened Common
  import opened Engine
  import Cancel
  import FlushProtocol
  import TagQueue

  /** The request is with the file server, which has not answered yet. */
  ghost predicate WithServer(s: State, i: Id) {
    Is(s, i) && s.reqs[i].kind.Plain? && s.reqs[i].past.handed && s.reqs[i].saved && !s.reqs[i].responded
  }

  /** The activation of a started request exists. */
  ghost predicate ReqOk(s: State, i: Id)
    requires Is(s, i)
  {
    var p := s.reqs[i].past.proc;
    p.Some? ==> p.value < |s.acts| && s.acts[p.value].Process? && s.acts[p.value].req == i
  }

  /** Past its call of Process, a request was handed over; a Tflush has found its victim or is answered. */
  ghost predicate ActOk(s: State, a: nat)
    requires a < |s.acts| && Is(s, s.acts[a].req)
  {
    match s.acts[a]
    case Respond(_, _) => true
    case Process(i, pp) =>
      var r := s.reqs[i];
      match pp
      case Begin => true
      case Flushed(_) => true
      case Handle => true
      case NoVictim(c) => r.past.handed && c < |s.acts| && s.acts[c].Respond? && s.acts[c].req == i
      case Finish => Through(r)
      case Ended => Through(r) && (r.saved || r.responded)
      case _ => r.past.handed && r.past.victim.Some?
  }

  ghost predicate Through(r: Req) {
    r.past.handed && (r.kind.Tflush? ==> r.past.victim.Some? || r.responded)
  }

  ghost predicate Inv(s: State) {
    && Base(s)
    && (forall i :: 0 <= i < |s.reqs| ==> ReqOk(s, i))
    && (forall a :: 0 <= a < |s.acts| ==> ActOk(s, a))
  }

  /** Every request was started as it came in. */
  ghost predicate AllStarted(s: State) {
    forall i :: 0 <= i < |s.reqs| ==> s.reqs[i].past.proc.Some?
  }

  /* ---- what a step does, for any client ---- */

  ghost predicate Onward(r: Req, r': Req) {
    && r'.kind == r.kind
    && (r.responded ==> r'.responded) && (r.saved ==> r'.saved) && (r.past.handed ==> r'.past.handed)
    && (r.past.victim.Some? ==> r'.past.victim.Some?)
    && (r.past.proc.Some? ==> r'.past.proc.Some?)
  }

  /** A request names the activation it named before, or a new one of its own. */
  ghost predicate ProcOk(r: Req, r': Req, j: Id, acts: seq<Act>, acts': seq<Act>) {
    r'.past.proc == r.past.proc ||
      (r'.past.proc == Some(|acts|) && |acts'| > |acts| && acts'[|acts|] == Process(j, Begin))
  }

  ghost predicate Moves(s: State, s': State, a: nat) {
    && |s.reqs| <= |s'.reqs| && |s.acts| <= |s'.acts|
    && (forall j :: 0 <= j < |s.reqs| ==>
        Onward(s.reqs[j], s'.reqs[j]) && ProcOk(s.reqs[j], s'.reqs[j], j, s.acts, s'.acts))
    && (forall j :: |s.reqs| <= j < |s'.reqs| ==> ProcOk(NewReq(0, Plain, None), s'.reqs[j], j, s.acts, s'.acts))
    && (forall b :: 0 <= b < |s.acts| && b != a ==> s'.acts[b] == s.acts[b])
    && (a < |s.acts| ==> s'.acts[a].req == s.acts[a].req && s'.acts[a].Process? == s.acts[a].Process?)
    && (forall b :: |s.acts| <= b < |s'.acts| ==> s'.acts[b].Respond? || s'.acts[b].pp.Begin?)
  }

  lemma ReceiveMoves(s: State, tag: Tag, kind: Kind)
    requires Typed(s)
    ensures Moves(s, Receive(s, tag, kind), |s.acts|)
  {
  }

  lemma LinkMoves(s: State, a: nat, i: Id, v: Id)
    requires Typed(s) && a < |s.acts| && s.acts[a] == Process(i, Handle) && Is(s, i) && Is(s, v)
    ensures Moves(s, Go(LinkFlush(s, i, v), a, Process(i, Judge(v))), a)
  {
  }

  lemma HandleMoves(s: State, a: nat, i: Id)
    requires Typed(s) && a < |s.acts| && s.acts[a] == Process(i, Handle) && Is(s, i)
    ensures Moves(s, HandleStep(s, a, i), a)
  {
    if s.reqs[i].kind.Tflush? && s.reqs[i].kind.oldtag in s.conn {
      LinkMoves(s, a, i, s.conn[s.reqs[i].kind.oldtag]);
    }
  }

  lemma CancelMoves(s: State, a: nat, i: Id, v: Id)
    requires Typed(s) && a < |s.acts| && s.acts[a].Process? && s.acts[a].req == i && Is(s, i) && Is(s, v)
    ensures Moves(s, FlushVictim(s, a, i, v), a)
  {
  }

  lemma BeginMoves(s: State, a: nat, i: Id)
    requires Typed(s) && a < |s.acts| && s.acts[a] == Process(i, Begin) && Is(s, i)
    ensures Moves(s, BeginStep(s, a, i), a)
  {
  }

  lemma FinishMoves(s: State, a: nat, i: Id)
    requires Typed(s) && a < |s.acts| && s.acts[a] == Process(i, Finish) && Is(s, i)
    ensures Moves(s, FinishStep(s, a, i), a)
  {
  }

  lemma ProcessMoves(s: State, a: nat, flushOp: bool)
    requires Typed(s) && Enabled(s, Run(a, flushOp)) && s.acts[a].Process?
    ensures Moves(s, Advance(s, a, flushOp), a)
  {
    var i := s.acts[a].req;
    match s.acts[a].pp
    case Begin => BeginMoves(s, a, i);
    case Finish => FinishMoves(s, a, i);
    case Handle => HandleMoves(s, a, i);
    case Judge(v) => CancelMoves(s, a, i, v);
    case AskServer(v) => CancelMoves(s, a, i, v);
    case _ =>
  }

  lemma UnlinkMoves(s: State, a: nat, i: Id, fl: bool)
    requires Typed(s) && a < |s.acts| && s.acts[a] == Respond(i, Unlink(fl)) && Is(s, i)
    ensures Moves(s, UnlinkStep(s, a, i, fl), a)
  {
    var s' := UnlinkStep(s, a, i, fl);
    assert && |s'.acts| == |s.acts| && s'.acts[a].req == i
           && forall b :: 0 <= b < |s.acts| && b != a ==> s'.acts[b] == s.acts[b];
    Cancel.UnlinkStatus(s, a, i, fl);
    forall j | 0 <= j < |s.reqs|
      ensures Onward(s.reqs[j], s'.reqs[j]) && ProcOk(s.reqs[j], s'.reqs[j], j, s.acts, s'.acts)
    {
      assert Cancel.SameStatus(s.reqs[j], s'.reqs[j]);
    }
  }

  lemma StartNextMoves(s: State, a: nat, i: Id, n: Option<Id>, f: Option<Id>)
    requires Typed(s) && a < |s.acts| && s.acts[a] == Respond(i, StartNext(n, f)) && Is(s, i)
    requires Named(|s.reqs|, n) && Named(|s.reqs|, f)
    ensures Moves(s, StartNextStep(s, a, i, n, f), a)
  {
  }

  lemma ClaimMoves(s: State, a: nat, i: Id)
    requires Typed(s) && a < |s.acts| && s.acts[a] == Respond(i, Claim) && Is(s, i)
    ensures Moves(s, ClaimStep(s, a, i), a)
  {
  }

  lemma PostMoves(s: State, a: nat, i: Id, fl: bool, n: Option<Id>, f: Option<Id>)
    requires Typed(s) && a < |s.acts| && s.acts[a] == Respond(i, Post(fl, n, f)) && Is(s, i)
    requires Named(|s.reqs|, n) && Named(|s.reqs|, f)
    ensures Moves(s, PostStep(s, a, i, fl, n, f), a)
  {
  }

  lemma RespondMoves(s: State, a: nat, flushOp: bool)
    requires Typed(s) && Enabled(s, Run(a, flushOp)) && s.acts[a].Respond?
    ensures Moves(s, Advance(s, a, flushOp), a)
  {
    var i := s.acts[a].req;
    match s.acts[a].rp
    case Claim => ClaimMoves(s, a, i);
    case Post(fl, n, f) => PostMoves(s, a, i, fl, n, f);
    case Unlink(fl) => UnlinkMoves(s, a, i, fl);
    case StartNext(n, f) => StartNextMoves(s, a, i, n, f);
    case _ =>
  }

  lemma StepMoves(s: State, step: Step)
    requires Typed(s) && Enabled(s, step)
    ensures Moves(s, Apply(s, step), if step.Run? then step.a else |s.acts|)
  {
    match step
    case Recv(tag, kind) => ReceiveMoves(s, tag, kind);
    case Answer(_) =>
    case Run(a, fl) => if s.acts[a].Process? { ProcessMoves(s, a, fl); } else { RespondMoves(s, a, fl); }
  }

  /* ---- the invariant ---- */

  lemma ReqKept(s: State, s': State, a: nat, j: Id)
    requires Inv(s) && Moves(s, s', a) && j < |s'.reqs|
    ensures ReqOk(s', j)
  {
    if j < |s.reqs| { assert ReqOk(s, j); }
  }

  lemma ActKept(s: State, s': State, a: nat, b: nat)
    requires Inv(s) && Moves(s, s', a) && b < |s.acts| && b != a
    ensures Is(s', s'.acts[b].req) && ActOk(s', b)
  {
    assert ActOk(s, b) && Onward(s.reqs[s.acts[b].req], s'.reqs[s.acts[b].req]);
  }

  lemma OwnKept(s: State, a: nat, flushOp: bool)
    requires Inv(s) && Enabled(s, Run(a, flushOp)) && s.acts[a].Process?
    ensures ActOk(Advance(s, a, flushOp), a)
  {
    assert ActOk(s, a);
    match s.acts[a].pp
    case NoVictim(c) => assert BaseAct(s, c);
    case Handle => HandleKept(s, a, s.acts[a].req);
    case _ =>
  }

  lemma HandleKept(s: State, a: nat, i: Id)
    requires Typed(s) && a < |s.acts| && s.acts[a] == Process(i, Handle) && Is(s, i)
    ensures ActOk(HandleStep(s, a, i), a)
  {
  }

  lemma KeepStep(s: State, step: Step)
    requires Inv(s) && Enabled(s, step)
    ensures Inv(Apply(s, step))
    ensures Allowed(FlushClient, s, step) && AllStarted(s) ==> AllStarted(Apply(s, step))
  {
    var s' := Apply(s, step);
    var a := if step.Run? then step.a else |s.acts|;
    BaseStep(s, step);
    StepMoves(s, step);
    forall j | 0 <= j < |s'.reqs| ensures ReqOk(s', j) { ReqKept(s, s', a, j); }
    forall b | 0 <= b < |s'.acts| ensures ActOk(s', b) {
      if b < |s.acts| {
        if b != a { ActKept(s, s', a, b); } else if s.acts[a].Process? { OwnKept(s, a, step.flushOp); }
      }
    }
    if Allowed(FlushClient, s, step) && AllStarted(s) { StartedKept(s, step); }
  }

  lemma StartedKept(s: State, step: Step)
    requires Typed(s) && Enabled(s, step) && Allowed(FlushClient, s, step) && AllStarted(s)
    ensures AllStarted(Apply(s, step))
  {
    StepMoves(s, step);
    var s' := Apply(s, step);
    forall j | 0 <= j < |s'.reqs| ensures s'.reqs[j].past.proc.Some? {
      if j < |s.reqs| { assert Onward(s.reqs[j], s'.reqs[j]); }
    }
  }

  lemma {:induction false} InvRun(c: Client, run: seq<State>)
    requires Reachable(c, run)
    ensures Inv(Last(run)) && (c.FlushClient? ==> AllStarted(Last(run)))
    decreases |run|
  {
    if |run| > 1 {
      var was := run[..|run| - 1];
      Before(c, run);
      InvRun(c, was);
      var step :| Move(c, Last(was), step, Last(run));
      KeepStep(Last(was), step);
    }
  }

  /* ---- at rest ---- */

  ghost predicate AtRest(s: State) {
    forall a :: 0 <= a < |s.acts| ==> s.acts[a].Over()
  }

  /** A started request that is not answered has been handed over. */
  lemma StartedIsThrough(s: State, i: Id)
    requires Inv(s) && AtRest(s) && Is(s, i) && s.reqs[i].past.proc.Some? && !s.reqs[i].responded
    ensures s.reqs[i].saved && Through(s.reqs[i])
  {
    assert ReqOk(s, i);
    assert ActOk(s, s.reqs[i].past.proc.value);
  }

  /** An answered request has its reply on reqout, unless that was dropped. */
  lemma AnsweredIsOut(s: State, i: Id)
    requires Base(s) && AtRest(s) && Is(s, i) && s.reqs[i].responded
    ensures i in s.out || s.reqs[i].past.suppressed
  {
    assert BaseReq(s, i);
    assert s.acts[s.reqs[i].past.winner.value].Over();
  }

  /**
   With flushes: at rest an ordinary request is answered, dropped, or with the file server, and a Tflush is
   answered unless the request it flushes is with the file server.
   */
  lemma FlushesAtRest(run: seq<State>, i: Id)
    requires Reachable(FlushClient, run) && AtRest(Last(run)) && Is(Last(run), i)
    ensures var s := Last(run);
            match s.reqs[i].kind
            case Plain => i in s.out || s.reqs[i].past.suppressed || WithServer(s, i)
            case Tflush(_) => i in s.out || (s.reqs[i].past.victim.Some? && WithServer(s, s.reqs[i].past.victim.value))
  {
    var s := Last(run);
    InvRun(FlushClient, run);
    FlushProtocol.InvRun(run);
    assert FlushProtocol.FlatReq(s, i);
    if s.reqs[i].responded {
      AnsweredIsOut(s, i);
    } else {
      StartedIsThrough(s, i);
      if s.reqs[i].kind.Tflush? {
        var v := s.reqs[i].past.victim.value;
        if s.reqs[v].responded {
          FlushProtocol.NoFlushIsLost(run, i, v);
        } else {
          StartedIsThrough(s, v);
        }
      }
    }
  }

  /**
   With requests that share tags: at rest a request is answered, or is the oldest of its tag and with the
   file server, or waits behind the older one it is chained to.
   */
  lemma QueuesAtRest(run: seq<State>, i: Id)
    requires Reachable(QueueClient, run) && AtRest(Last(run)) && Is(Last(run), i)
    ensures var s := Last(run);
            var q := Queue(s, s.reqs[i].tag);
            || i in s.out
            || (q != [] && q[|q| - 1] == i && WithServer(s, i))
            || (s.reqs[i].past.proc.None? && s.reqs[i].next.Some? && s.reqs[i].next.value in q)
  {
    var s := Last(run);
    InvRun(QueueClient, run);
    TagQueue.InvRun(run);
    assert TagQueue.ReqOk(s, i) && BaseReq(s, i);
    if s.reqs[i].responded {
      AnsweredIsOut(s, i);
    } else {
      var t := s.reqs[i].tag;
      var q := Queue(s, t);
      TagQueue.ChainOfTag(run, t);
      assert i in q;
      var k :| 0 <= k < |q| && q[k] == i;
      assert TagQueue.MemberOfChain(s, t, q, k);
      if k == |q| - 1 {
        TagQueue.OldestIsStarted(run, t);
        StartedIsThrough(s, i);
      }
    }
  }
}
