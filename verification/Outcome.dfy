/**
 What becomes of a request that was flushed, or answered by the file server (p/srv/srv.go, `flush` of
 p/srv/fcall.go), in every run, whatever the client and the file server do.
 */
module Outcome {
  import opened Common
  import opened Engine
  import F = FlushProtocol
  import GroupRest
  import Rest
  import SharedTags

  /** The reply of v is decided: it has been dropped or sent as drop says, or is on its way to be. */
  ghost predicate Decided(s: State, v: Id, drop: bool) {
    && Is(s, v) && s.reqs[v].responded && s.reqs[v].past.winner.Some?
    && var w := s.reqs[v].past.winner.value;
       && w < |s.acts| && s.acts[w].Respond? && s.acts[w].req == v
       && match s.acts[w].rp
          case Claim => false
          case Unlink(fl) => fl == drop
          case Post(fl, _, _) => fl == drop
          case _ => s.reqs[v].past.suppressed == drop
  }

  /** Nothing will be sent for v any more. */
  ghost predicate Doomed(s: State, v: Id) {
    Is(s, v) && if s.reqs[v].responded then Decided(s, v, true) else s.reqs[v].flush
  }

  /** Some call of Respond has been made for v. */
  ghost predicate Called(s: State, v: Id) {
    exists b: nat :: CalledBy(s, v, b)
  }

  ghost predicate CalledBy(s: State, v: Id, b: nat) {
    b < |s.acts| && s.acts[b].Respond? && s.acts[b].req == v
  }

  /** The step cancels v: nobody has worked on v yet, or the file server's own Flush operation cancels it. */
  ghost predicate Cancels(s: State, step: Step, v: Id) {
    && step.Run? && step.a < |s.acts| && Is(s, v) && s.acts[step.a].Process?
    && ((s.acts[step.a].pp == AskServer(v) && step.flushOp)
        || (s.acts[step.a].pp == Judge(v) && !s.reqs[v].work && !s.reqs[v].saved))
  }

  /* ---- one step ---- */

  /** What a step does to the request v, but for the steps that answer it. */
  ghost predicate Tick(s: State, step: Step, s': State, v: Id) {
    && Is(s, v) && Is(s', v)
    && s'.reqs[v].tag == s.reqs[v].tag && s'.reqs[v].kind == s.reqs[v].kind
    && (s'.reqs[v].flush <==> s.reqs[v].flush || Cancels(s, step, v))
    && (forall f :: f in s.reqs[v].past.flushers ==> f in s'.reqs[v].past.flushers)
  }

  lemma UnlinkTicks(s: State, a: nat, i: Id, fl: bool, v: Id)
    requires Typed(s) && a < |s.acts| && s.acts[a] == Respond(i, Unlink(fl)) && Is(s, i) && Is(s, v)
    ensures var s' := UnlinkStep(s, a, i, fl);
            Is(s', v) && s'.reqs[v].tag == s.reqs[v].tag && s'.reqs[v].kind == s.reqs[v].kind
            && s'.reqs[v].flush == s.reqs[v].flush && s'.reqs[v].past.flushers == s.reqs[v].past.flushers
  {
  }

  lemma ReceiveTicks(s: State, tag: Tag, kind: Kind, v: Id)
    requires Typed(s) && Is(s, v)
    ensures Tick(s, Recv(tag, kind), Receive(s, tag, kind), v)
  {
  }

  lemma HandleTicks(s: State, a: nat, flushOp: bool, v: Id)
    requires Typed(s) && Enabled(s, Run(a, flushOp)) && s.acts[a].Process? && s.acts[a].pp.Handle? && Is(s, v)
    ensures Tick(s, Run(a, flushOp), Advance(s, a, flushOp), v)
  {
  }

  lemma ProcessTicks(s: State, a: nat, flushOp: bool, v: Id)
    requires Typed(s) && Enabled(s, Run(a, flushOp)) && s.acts[a].Process? && Is(s, v)
    ensures Tick(s, Run(a, flushOp), Advance(s, a, flushOp), v)
  {
    if s.acts[a].pp.Handle? { HandleTicks(s, a, flushOp, v); }
  }

  lemma RespondTicks(s: State, a: nat, flushOp: bool, v: Id)
    requires Typed(s) && Enabled(s, Run(a, flushOp)) && s.acts[a].Respond? && Is(s, v)
    ensures Tick(s, Run(a, flushOp), Advance(s, a, flushOp), v)
  {
    if s.acts[a].rp.Unlink? { UnlinkTicks(s, a, s.acts[a].req, s.acts[a].rp.flushed, v); }
  }

  /** The bit that marks a request as flushed is set by the steps that cancel it, and by no others. */
  lemma StepTicks(s: State, step: Step, v: Id)
    requires Typed(s) && Enabled(s, step) && Is(s, v)
    ensures Tick(s, step, Apply(s, step), v)
  {
    match step
    case Recv(tag, kind) => ReceiveTicks(s, tag, kind, v);
    case Answer(_) =>
    case Run(a, fl) => if s.acts[a].Process? { ProcessTicks(s, a, fl, v); } else { RespondTicks(s, a, fl, v); }
  }

  /** Calls of Respond stay, and those the step makes are for the right request. */
  lemma StepCalls(s: State, step: Step, v: Id)
    requires Typed(s) && Enabled(s, step)
    ensures Called(s, v) ==> Called(Apply(s, step), v)
    ensures Cancels(s, step, v) || step == Answer(v) ==> Called(Apply(s, step), v)
  {
    Rest.StepMoves(s, step);
    var s' := Apply(s, step);
    if Called(s, v) {
      var b: nat :| CalledBy(s, v, b);
      assert CalledBy(s', v, b);
    }
    if Cancels(s, step, v) || step == Answer(v) { assert CalledBy(s', v, |s.acts|); }
  }

  /** The step that claims v decides by the bit it finds. */
  lemma ClaimDecides(s: State, a: nat, flushOp: bool, v: Id)
    requires Base(s) && Enabled(s, Run(a, flushOp)) && s.acts[a] == Respond(v, Claim) && !s.reqs[v].responded
    ensures Decided(Apply(s, Run(a, flushOp)), v, s.reqs[v].flush)
  {
  }

  /** Two kinds of steps change the outcome of some request. */
  ghost predicate Answers(s: State, step: Step)
    requires Typed(s) && Enabled(s, step)
  {
    step.Run? && s.acts[step.a].Respond? && (s.acts[step.a].rp.Claim? || s.acts[step.a].rp.Post?)
  }

  lemma OthersAlone(s: State, a: nat, flushOp: bool, v: Id)
    requires Typed(s) && Enabled(s, Run(a, flushOp)) && Is(s, v) && s.acts[a].req != v
    ensures Is(Advance(s, a, flushOp), v) && SameOutcome(s.reqs[v], Advance(s, a, flushOp).reqs[v])
  {
    if Answers(s, Run(a, flushOp)) {
    } else {
      assert Quiet(s, Advance(s, a, flushOp));
    }
  }

  /** The outcome of v and the activation that answers it are as before. */
  lemma DecidedFrame(s: State, s': State, v: Id, drop: bool)
    requires Decided(s, v, drop) && Is(s', v) && SameOutcome(s.reqs[v], s'.reqs[v])
    requires var w := s.reqs[v].past.winner.value; w < |s'.acts| && s'.acts[w] == s.acts[w]
    ensures Decided(s', v, drop)
  {
  }

  lemma ClaimedAgain(s: State, a: nat, flushOp: bool)
    requires Base(s) && Enabled(s, Run(a, flushOp)) && s.acts[a].Respond? && Answers(s, Run(a, flushOp))
    requires s.reqs[s.acts[a].req].responded && s.reqs[s.acts[a].req].past.winner != Some(a)
    ensures SameOutcome(s.reqs[s.acts[a].req], Advance(s, a, flushOp).reqs[s.acts[a].req])
  {
    assert BaseAct(s, a);
  }

  /** A step that does not move the activation which answers v leaves the outcome of v alone. */
  lemma OtherDecided(s: State, a: nat, flushOp: bool, v: Id, drop: bool)
    requires Base(s) && Enabled(s, Run(a, flushOp)) && Decided(s, v, drop) && s.reqs[v].past.winner != Some(a)
    ensures Decided(Apply(s, Run(a, flushOp)), v, drop)
  {
    var s' := Advance(s, a, flushOp);
    Rest.StepMoves(s, Run(a, flushOp));
    if s.acts[a].req != v {
      OthersAlone(s, a, flushOp, v);
    } else if Answers(s, Run(a, flushOp)) {
      ClaimedAgain(s, a, flushOp);
    } else {
      assert SameOutcome(s.reqs[v], s'.reqs[v]);
    }
    DecidedFrame(s, s', v, drop);
  }

  lemma OwnDecided(s: State, a: nat, flushOp: bool, v: Id, drop: bool)
    requires Base(s) && Enabled(s, Run(a, flushOp)) && Decided(s, v, drop) && s.reqs[v].past.winner == Some(a)
    ensures Decided(Apply(s, Run(a, flushOp)), v, drop)
  {
    assert BaseReq(s, v);
    if !s.acts[a].rp.Post? {
      var s' := Advance(s, a, flushOp);
      assert SameOutcome(s.reqs[v], s'.reqs[v]);
    }
  }

  lemma DecidedStays(s: State, step: Step, v: Id, drop: bool)
    requires Base(s) && Enabled(s, step) && Decided(s, v, drop)
    ensures Decided(Apply(s, step), v, drop)
  {
    match step
    case Run(a, fl) =>
      if s.reqs[v].past.winner == Some(a) { OwnDecided(s, a, fl, v, drop); } else { OtherDecided(s, a, fl, v, drop); }
    case _ =>
      var s' := Apply(s, step);
      Rest.StepMoves(s, step);
      assert Quiet(s, s') && SameOutcome(s.reqs[v], s'.reqs[v]);
  }

  lemma DoomedStays(s: State, step: Step, v: Id)
    requires Base(s) && Enabled(s, step) && Doomed(s, v)
    ensures Doomed(Apply(s, step), v)
  {
    var s' := Apply(s, step);
    StepTicks(s, step, v);
    if s.reqs[v].responded {
      DecidedStays(s, step, v, true);
    } else if s'.reqs[v].responded {
      BecameAnswered(s, step, v);
      ClaimDecides(s, step.a, step.flushOp, v);
    }
  }

  /** Only a claim answers. */
  lemma BecameAnswered(s: State, step: Step, v: Id)
    requires Base(s) && Enabled(s, step) && Is(s, v) && !s.reqs[v].responded
    requires Is(Apply(s, step), v) && Apply(s, step).reqs[v].responded
    ensures step.Run? && s.acts[step.a] == Respond(v, Claim)
  {
    assert Answers(s, step) || SameOutcome(s.reqs[v], Apply(s, step).reqs[v]);
  }

  /** A dropped reply is that of a request marked as flushed. */
  ghost predicate DropsFlushed(s: State) {
    forall v: Id {:trigger Decided(s, v, true)} :: Decided(s, v, true) ==> s.reqs[v].flush
  }

  lemma DropsStay(s: State, step: Step)
    requires Base(s) && Enabled(s, step) && DropsFlushed(s)
    ensures DropsFlushed(Apply(s, step))
  {
    var s' := Apply(s, step);
    forall v: Id | Decided(s', v, true) ensures s'.reqs[v].flush {
      if Is(s, v) {
        StepTicks(s, step, v);
        if s.reqs[v].responded {
          DecidedBefore(s, step, v);
        } else {
          BecameAnswered(s, step, v);
          ClaimDecides(s, step.a, step.flushOp, v);
        }
      }
    }
  }

  lemma DecidedBefore(s: State, step: Step, v: Id)
    requires Base(s) && Enabled(s, step) && Is(s, v) && s.reqs[v].responded && Decided(Apply(s, step), v, true)
    ensures Decided(s, v, true)
  {
    assert BaseReq(s, v);
    if Decided(s, v, false) { DecidedStays(s, step, v, false); }
  }

  /* ---- runs ---- */

  lemma {:induction false} DropsRun(c: Client, run: seq<State>)
    requires Reachable(c, run)
    ensures DropsFlushed(Last(run))
    decreases |run|
  {
    if |run| > 1 {
      var was := run[..|run| - 1];
      Before(c, run);
      DropsRun(c, was);
      BaseRun(c, was);
      var step :| Move(c, Last(was), step, Last(run));
      DropsStay(Last(was), step);
    }
  }

  /** What holds of v in state j, if every step keeps it, holds at the end: here for the four facts above. */
  lemma {:induction false} StaysInRun(c: Client, run: seq<State>, j: nat, v: Id)
    requires Reachable(c, run) && j < |run|
    ensures Base(run[j])
    ensures Doomed(run[j], v) ==> Doomed(Last(run), v)
    ensures Decided(run[j], v, false) ==> Decided(Last(run), v, false)
    ensures Called(run[j], v) ==> Called(Last(run), v)
    ensures Is(run[j], v) ==> SameMessage(run[j], Last(run), v)
    decreases |run|
  {
    if j == |run| - 1 {
      BaseRun(c, run);
    } else {
      var was := run[..|run| - 1];
      Before(c, run);
      StaysInRun(c, was, j, v);
      BaseRun(c, was);
      var step :| Move(c, Last(was), step, Last(run));
      if Doomed(Last(was), v) { DoomedStays(Last(was), step, v); }
      if Decided(Last(was), v, false) { DecidedStays(Last(was), step, v, false); }
      if Called(Last(was), v) { StepCalls(Last(was), step, v); }
      if Is(Last(was), v) { StepTicks(Last(was), step, v); }
    }
  }

  ghost predicate SameMessage(s: State, s': State, v: Id) {
    && Is(s, v) && Is(s', v) && s'.reqs[v].tag == s.reqs[v].tag && s'.reqs[v].kind == s.reqs[v].kind
    && forall f :: f in s.reqs[v].past.flushers ==> f in s'.reqs[v].past.flushers
  }

  /** A call of Respond that has returned leaves the request answered. */
  lemma CalledIsAnswered(s: State, v: Id)
    requires Base(s) && F.AtRest(s) && Called(s, v)
    ensures Is(s, v) && s.reqs[v].responded
  {
    var b: nat :| CalledBy(s, v, b);
    assert BaseAct(s, b) && s.acts[b].Over();
  }

  lemma DecidedAtRest(s: State, v: Id, drop: bool)
    requires Base(s) && F.AtRest(s) && Decided(s, v, drop)
    ensures v in s.out <==> !drop
  {
    assert BaseReq(s, v);
    assert s.acts[s.reqs[v].past.winner.value].Over();
  }

  /** The reply of a doomed request is not sent. */
  lemma DoomedIsNotOut(s: State, v: Id)
    requires Base(s) && Doomed(s, v)
    ensures v !in s.out
  {
    assert BaseReq(s, v);
  }

  /** A message that came in is the request that it was. */
  lemma Arrived(c: Client, run: seq<State>, k: nat, tag: Tag, kind: Kind)
    requires Reachable(c, run) && k + 1 < |run| && Move(c, run[k], Recv(tag, kind), run[k + 1])
    ensures var v := |run[k].reqs|; Is(Last(run), v) && Last(run).reqs[v].tag == tag && Last(run).reqs[v].kind == kind
  {
    StaysInRun(c, run, k + 1, |run[k].reqs|);
  }

  /**
   Whether the reply of a request is sent is decided by the first call of Respond, at its first lock: it is sent
   if and only if the request is not marked as flushed then.
   */
  lemma ReplyOrDrop(c: Client, run: seq<State>, k: nat, a: nat, flushOp: bool, v: Id)
    requires Reachable(c, run) && k + 1 < |run| && Move(c, run[k], Run(a, flushOp), run[k + 1])
    requires run[k].acts[a] == Respond(v, Claim) && !run[k].reqs[v].responded
    ensures run[k].reqs[v].flush ==> v !in Last(run).out
    ensures F.AtRest(Last(run)) ==> (v in Last(run).out <==> !run[k].reqs[v].flush)
  {
    StaysInRun(c, run, k, v);
    ClaimDecides(run[k], a, flushOp, v);
    StaysInRun(c, run, k + 1, v);
    BaseRun(c, run);
    if run[k].reqs[v].flush { DoomedIsNotOut(Last(run), v); }
    if F.AtRest(Last(run)) {
      if run[k].reqs[v].flush { CalledAtRest(c, run, k, a, v); } else { DecidedAtRest(Last(run), v, false); }
    }
  }

  lemma CalledAtRest(c: Client, run: seq<State>, k: nat, a: nat, v: Id)
    requires Reachable(c, run) && k < |run| && CalledBy(run[k], v, a) && F.AtRest(Last(run))
    ensures Is(Last(run), v) && Last(run).reqs[v].responded
  {
    StaysInRun(c, run, k, v);
    BaseRun(c, run);
    CalledIsAnswered(Last(run), v);
  }

  /**
   A request that is cancelled, by the engine or by the Flush operation of the file server, before it was answered
   gets no reply, and counts as answered as soon as all goroutines are at rest.
   */
  lemma CancelledIsDropped(c: Client, run: seq<State>, k: nat, step: Step, v: Id)
    requires Reachable(c, run) && k + 1 < |run| && Move(c, run[k], step, run[k + 1]) && Cancels(run[k], step, v)
    ensures !run[k].reqs[v].responded ==> v !in Last(run).out
    ensures F.AtRest(Last(run)) ==> Is(Last(run), v) && Last(run).reqs[v].responded
    ensures F.AtRest(Last(run)) && !run[k].reqs[v].responded ==> Last(run).reqs[v].past.suppressed
  {
    StaysInRun(c, run, k, v);
    StepTicks(run[k], step, v);
    StepCalls(run[k], step, v);
    if !run[k].reqs[v].responded { NotAnsweredHere(run[k], step, v); }
    StaysInRun(c, run, k + 1, v);
    BaseRun(c, run);
    if !run[k].reqs[v].responded { DoomedIsNotOut(Last(run), v); }
    if F.AtRest(Last(run)) {
      CalledIsAnswered(Last(run), v);
      Rest.AnsweredIsOut(Last(run), v);
    }
  }

  lemma NotAnsweredHere(s: State, step: Step, v: Id)
    requires Base(s) && Enabled(s, step) && Cancels(s, step, v) && !s.reqs[v].responded
    ensures Doomed(Apply(s, step), v)
  {
    StepTicks(s, step, v);
    assert SameOutcome(s.reqs[v], Apply(s, step).reqs[v]);
  }

  /** Nothing else loses a reply: at rest an answered request that no step has cancelled has its reply on reqout. */
  lemma UncancelledIsSent(c: Client, run: seq<State>, v: Id)
    requires Reachable(c, run) && F.AtRest(Last(run)) && Is(Last(run), v) && Last(run).reqs[v].responded
    requires !Last(run).reqs[v].flush
    ensures v in Last(run).out
  {
    BaseRun(c, run);
    DropsRun(c, run);
    var s := Last(run);
    assert BaseReq(s, v);
    assert s.acts[s.reqs[v].past.winner.value].Over();
    assert !Decided(s, v, true);
  }

  /** What the file server answers is answered, and sent unless it was cancelled. */
  lemma ServerAnswers(c: Client, run: seq<State>, k: nat, v: Id)
    requires Reachable(c, run) && k + 1 < |run| && Move(c, run[k], Answer(v), run[k + 1]) && F.AtRest(Last(run))
    ensures Is(Last(run), v) && Last(run).reqs[v].responded
    ensures v in Last(run).out || Last(run).reqs[v].flush
  {
    StaysInRun(c, run, k, v);
    StepCalls(run[k], Answer(v), v);
    StaysInRun(c, run, k + 1, v);
    BaseRun(c, run);
    CalledIsAnswered(Last(run), v);
    if !Last(run).reqs[v].flush { UncancelledIsSent(c, run, v); }
  }

  /* ---- the Tflush itself ---- */

  lemma {:induction false} Front(c: Client, run: seq<State>, k: nat)
    requires Reachable(c, run) && k < |run|
    ensures Reachable(c, run[..k + 1]) && Last(run[..k + 1]) == run[k]
    decreases |run|
  {
    if k + 1 < |run| {
      Before(c, run);
      Front(c, run[..|run| - 1], k);
      assert run[..|run| - 1][..k + 1] == run[..k + 1];
    } else {
      assert run[..k + 1] == run;
    }
  }

  /** If tags are not reused while outstanding, the Tflush that had a request cancelled gets its Rflush. */
  lemma CancelIsAnswered(run: seq<State>, k: nat, step: Step, v: Id)
    requires Reachable(FlushClient, run) && k + 1 < |run| && Move(FlushClient, run[k], step, run[k + 1])
    requires Cancels(run[k], step, v) && F.AtRest(Last(run))
    ensures run[k].acts[step.a].req in Last(run).out
  {
    var f, s := run[k].acts[step.a].req, Last(run);
    Front(FlushClient, run, k);
    F.InvRun(run[..k + 1]);
    assert F.ActOk(run[k], step.a) && F.FlatReq(run[k], f);
    StaysInRun(FlushClient, run, k, v);
    F.InvRun(run);
    assert F.Chain(s, v);
    var j :| 0 <= j < |s.reqs[v].past.flushers| && s.reqs[v].past.flushers[j] == f;
    CancelledIsDropped(FlushClient, run, k, step, v);
    F.NoFlushIsLost(run, f, v);
  }

  /** And if ordinary requests share tags, it does if it waits for that request and nothing was queued behind that. */
  lemma GroupCancelIsAnswered(run: seq<State>, k: nat, step: Step, v: Id, f: Id)
    requires Reachable(GroupClient, run) && k + 1 < |run| && Move(GroupClient, run[k], step, run[k + 1])
    requires Cancels(run[k], step, v) && F.AtRest(Last(run))
    requires F.OnChain(Last(run).reqs, v, f) && Is(Last(run), v) && Last(run).reqs[v].prev.None?
    ensures f in Last(run).out
  {
    CancelledIsDropped(GroupClient, run, k, step, v);
    GroupRest.RestRun(run);
    var s := Last(run);
    var n: nat :| n > 0 && F.After(s.reqs, v, n) == Some(f);
    GroupRest.WayAnswered(s, v, n - 1);
    GroupRest.WayAnswered(s, v, n);
    assert SharedTags.ReqOk(s, F.After(s.reqs, v, n - 1).value);
    Rest.AnsweredIsOut(s, f);
    assert GroupRest.Fits(s, f);
  }
}
