/**
 Requests that share a tag, and flushes of them: when the oldest is answered, the flushes that wait for it
 are handed to the next, and are lost if that one has been flushed itself.
 */
module SharedTags {
  import opened Common
  import opened Engine
  import F = FlushProtocol

  /** The activation that answers i has taken it out of the chain of its tag. */
  ghost predicate Unlinked(s: State, i: Id)
    requires Is(s, i)
  {
    var w := F.Winner(s, i);
    w.Some? && !w.value.Claim? && !w.value.Unlink?
  }

  /** It has started the next request of the tag too. */
  ghost predicate Started(s: State, i: Id)
    requires Is(s, i)
  {
    var w := F.Winner(s, i);
    w.Some? && (w.value.Loop? || w.value.InLoop? || w.value.Closed?)
  }

  /** A Tflush that found its victim. */
  ghost predicate Waits(s: State, f: Id) {
    Is(s, f) && s.reqs[f].kind.Tflush? && s.reqs[f].past.victim.Some?
  }

  function Root(r: Req, i: Id): Option<Id> {
    if r.kind.Plain? then Some(i) else r.past.victim
  }

  ghost predicate Inv(s: State) {
    && Base(s)
    && (forall t :: t in s.conn ==> TagOk(s, t))
    && (forall i {:trigger ReqOk(s, i)} :: 0 <= i < |s.reqs| ==> ReqOk(s, i))
    && (forall i {:trigger WorkOk(s, i)} :: 0 <= i < |s.reqs| ==> WorkOk(s, i))
    && (forall a {:trigger ActOk(s, a)} :: 0 <= a < |s.acts| ==> ActOk(s, a))
  }

  ghost predicate TagOk(s: State, t: Tag)
    requires t in s.conn
  {
    var c := s.conn[t];
    Is(s, c) && s.reqs[c].tag == t && s.reqs[c].prev.None? && !Unlinked(s, c)
  }

  ghost predicate ReqOk(s: State, i: Id)
    requires Is(s, i)
  {
    && PlaceOk(s, i) && HeadOk(s, i)
    && (s.reqs[i].kind.Plain? && (s.reqs[i].next.Some? || s.reqs[i].past.after.None?) ==> F.Chain(s, i))
  }

  /** Its place in the chain of its tag. */
  ghost predicate PlaceOk(s: State, i: Id)
    requires Is(s, i)
  {
    var r := s.reqs[i];
    && (r.prev.Some? ==> PrevOk(s, i, r.prev.value))
    && (r.prev.None? && !Unlinked(s, i) ==> F.InConn(s, i))
    && (r.kind.Tflush? ==> r.prev.None? && r.past.after.None? && !r.flush)
    && (r.past.victim.Some? ==>
          && r.kind.Tflush? && r.past.handed && Is(s, r.past.victim.value)
          && i in s.reqs[r.past.victim.value].past.flushers)
  }

  ghost predicate PrevOk(s: State, i: Id, n: Id)
    requires Is(s, i)
  {
    && i < n && Is(s, n) && s.reqs[n].past.after == Some(i)
    && (!Unlinked(s, i) ==> s.reqs[n].next == Some(i))
  }

  /** What its flushreq leads to waits for it or for an older request. */
  ghost predicate HeadOk(s: State, i: Id)
    requires Is(s, i)
  {
    var r := s.reqs[i];
    r.flushreq.Some? ==>
      Waits(s, r.flushreq.value) && Root(r, i).Some? && s.reqs[r.flushreq.value].past.victim.value <= Root(r, i).value
  }

  /** It is processed only once the request it was queued behind has been answered. */
  ghost predicate WorkOk(s: State, i: Id)
    requires Is(s, i)
  {
    var r := s.reqs[i].past;
    && (r.handed ==> r.proc.Some?)
    && (r.proc.Some? && r.after.Some? ==> Is(s, r.after.value) && Started(s, r.after.value))
  }

  ghost predicate ActOk(s: State, a: nat)
    requires a < |s.acts| && Is(s, s.acts[a].req)
  {
    var i := s.acts[a].req;
    match s.acts[a]
    case Process(_, pp) =>
      && s.reqs[i].past.proc == Some(a)
      && (pp.Begin? || pp.Flushed? || pp.Handle? ==> !s.reqs[i].past.handed)
      && (pp.Judge? ==> Is(s, pp.victim) && s.reqs[pp.victim].kind.Plain?)
      && (pp.AskServer? ==> Is(s, pp.victim) && s.reqs[pp.victim].kind.Plain?)
    case Respond(_, rp) =>
      && (s.reqs[i].kind.Tflush? ==> s.reqs[i].past.handed)
      && match rp
         case Post(_, n, f) => NextOk(s, i, n) && HeldOk(s, f)
         case StartNext(n, f) => NextOk(s, i, n) && HeldOk(s, f)
         case Loop(c, _) => HeldOk(s, c)
         case InLoop(c, _, call) => c.Some? && HeldOk(s, c) && call < |s.acts| && s.acts[call].Respond? &&
           s.acts[call].req == c.value
         case _ => true
  }

  ghost predicate NextOk(s: State, i: Id, n: Option<Id>) {
    n.Some? ==> Is(s, n.value) && s.reqs[n.value].past.after == Some(i)
  }

  ghost predicate HeldOk(s: State, f: Option<Id>) {
    f.Some? ==> Waits(s, f.value)
  }

  /* ---- what every step keeps ---- */

  ghost predicate SameReq(r: Req, r': Req) {
    && r'.kind == r.kind && r'.tag == r.tag && r'.past.after == r.past.after
    && (r.past.handed ==> r'.past.handed)
    && (r.past.victim.Some? ==> r'.past.victim == r.past.victim)
  }

  /** Requests and activations stay what they are, and answering goes on. */
  ghost predicate Grown(s: State, s': State) {
    && |s.reqs| <= |s'.reqs| && |s.acts| <= |s'.acts|
    && (forall i :: 0 <= i < |s.reqs| ==> SameReq(s.reqs[i], s'.reqs[i]))
    && (forall b :: 0 <= b < |s.acts| ==> s'.acts[b].req == s.acts[b].req && s'.acts[b].Respond? == s.acts[b].Respond?)
    && (forall i {:trigger Started(s, i)} :: 0 <= i < |s.reqs| && Started(s, i) ==> Started(s', i))
  }

  /** And what has been taken out of the chain of its tag stays out. */
  ghost predicate Onward(s: State, s': State) {
    && Grown(s, s')
    && (forall i {:trigger Unlinked(s', i)} :: 0 <= i < |s.reqs| && Unlinked(s, i) ==> Unlinked(s', i))
    && (forall i :: 0 <= i < |s.reqs| && s.reqs[i].prev.Some? ==> s'.reqs[i].prev.Some?)
  }

  /** An activation that stands where it stood. */
  lemma ActKept(s: State, s': State, b: nat)
    requires Grown(s, s') && b < |s.acts| && Is(s, s.acts[b].req) && s'.acts[b] == s.acts[b] && ActOk(s, b)
    requires s.acts[b].Process? ==>
               var r, r' := s.reqs[s.acts[b].req], s'.reqs[s.acts[b].req];
                 r'.past.proc == r.past.proc && r'.past.handed == r.past.handed
    ensures ActOk(s', b)
  {
  }

  /** Nothing the chains are made of changes. */
  ghost predicate SameLink(r: Req, r': Req) {
    && SameReq(r, r') && r'.flushreq == r.flushreq && r'.prev == r.prev && r'.next == r.next
    && (r.kind.Plain? || r'.flush == r.flush)
    && r'.past.flushers == r.past.flushers && r'.past.victim == r.past.victim
  }

  ghost predicate Calm(s: State, s': State, a: nat)
    requires a < |s.acts|
  {
    && Grown(s, s') && |s'.reqs| == |s.reqs| && s'.conn == s.conn
    && (forall i :: 0 <= i < |s.reqs| ==> SameLink(s.reqs[i], s'.reqs[i]))
    && (forall i {:trigger Unlinked(s', i)} :: 0 <= i < |s.reqs| ==> Unlinked(s', i) == Unlinked(s, i))
    && (forall b :: 0 <= b < |s.acts| && b != a ==> s'.acts[b] == s.acts[b])
    && (forall b :: 0 <= b < |s.acts| && b != a && s.acts[b].Process? ==> SameWork(s, s', s.acts[b].req))
  }

  ghost predicate SameWork(s: State, s': State, i: Id) {
    Is(s, i) && Is(s', i) && s'.reqs[i].past.proc == s.reqs[i].past.proc &&
      s'.reqs[i].past.handed == s.reqs[i].past.handed
  }

  lemma CalmReq(s: State, s': State, a: nat, i: Id)
    requires a < |s.acts| && Calm(s, s', a) && Is(s, i) && ReqOk(s, i)
    ensures ReqOk(s', i)
  {
  }

  lemma KeepCalm(s: State, s': State, a: nat)
    requires Inv(s) && Base(s') && a < |s.acts| && Calm(s, s', a)
    requires forall i {:trigger WorkOk(s', i)} :: 0 <= i < |s'.reqs| ==> WorkOk(s', i)
    requires Is(s', s'.acts[a].req) && ActOk(s', a)
    requires forall b :: |s.acts| <= b < |s'.acts| ==> ActOk(s', b)
    ensures Inv(s') && Onward(s, s')
  {
    forall t | t in s'.conn ensures TagOk(s', t) { assert TagOk(s, t); }
    forall i | 0 <= i < |s'.reqs| ensures ReqOk(s', i) {
      assert ReqOk(s, i);
      CalmReq(s, s', a, i);
    }
    forall b | 0 <= b < |s'.acts| ensures ActOk(s', b) {
      if b < |s.acts| && b != a {
        assert ActOk(s, b);
        ActKept(s, s', b);
      }
    }
  }

  /** The activation that answers a request is the only one that can be past Claim with it. */
  lemma OneWinner(s: State, a: nat)
    requires Base(s) && a < |s.acts| && s.acts[a].Respond? && !s.acts[a].rp.Claim? && !s.acts[a].rp.Closed?
    ensures F.Winner(s, s.acts[a].req) == Some(s.acts[a].rp)
  {
    assert BaseAct(s, a) && BaseReq(s, s.acts[a].req);
  }

  /** Where the answering of each request stands after activation a moved on. */
  lemma Stages(s: State, s': State, a: nat, i: Id)
    requires Base(s) && a < |s.acts| && Is(s, i) && |s.reqs| == |s'.reqs| && |s.acts| <= |s'.acts|
    requires forall b :: 0 <= b < |s.acts| && b != a ==> s'.acts[b] == s.acts[b]
    requires s'.acts[a].Respond? == s.acts[a].Respond? && s'.acts[a].req == s.acts[a].req
    requires s'.reqs[i].past.winner == s.reqs[i].past.winner
    requires s.acts[a].Respond? ==> !s.acts[a].rp.Claim? && !s'.acts[a].rp.Claim?
    requires s.acts[a].Respond? ==> (s.acts[a].rp.Unlink? <==> s'.acts[a].rp.Unlink?)
    requires s.acts[a].Respond? && !s.acts[a].rp.Unlink? && !s.acts[a].rp.Post? && !s.acts[a].rp.StartNext? ==>
               !s'.acts[a].rp.Post? && !s'.acts[a].rp.StartNext?
    ensures Unlinked(s', i) == Unlinked(s, i)
    ensures Started(s, i) ==> Started(s', i)
  {
    assert BaseReq(s, i);
  }

  /** Activation a moved on; no request was claimed. */
  ghost predicate Small(s: State, s': State, a: nat)
    requires a < |s.acts|
  {
    && |s'.reqs| == |s.reqs| && |s.acts| <= |s'.acts| && s'.conn == s.conn
    && (forall i :: 0 <= i < |s.reqs| ==>
        SameLink(s.reqs[i], s'.reqs[i]) && s'.reqs[i].past.winner == s.reqs[i].past.winner)
    && (forall b :: 0 <= b < |s.acts| && b != a ==> s'.acts[b] == s.acts[b])
    && s'.acts[a].Respond? == s.acts[a].Respond? && s'.acts[a].req == s.acts[a].req
    && (s.acts[a].Respond? ==>
          && !s.acts[a].rp.Claim? && !s'.acts[a].rp.Claim? && !s.acts[a].rp.Unlink? && !s'.acts[a].rp.Unlink?
          && (!s.acts[a].rp.Post? && !s.acts[a].rp.StartNext? ==> !s'.acts[a].rp.Post? && !s'.acts[a].rp.StartNext?))
  }

  lemma KeepSmall(s: State, s': State, a: nat)
    requires Inv(s) && Base(s') && a < |s.acts| && Small(s, s', a)
    requires forall b :: 0 <= b < |s.acts| && b != a && s.acts[b].Process? ==> SameWork(s, s', s.acts[b].req)
    requires forall i {:trigger WorkOk(s', i)} :: 0 <= i < |s'.reqs| ==> WorkOk(s', i)
    requires ActOk(s', a) && forall b :: |s.acts| <= b < |s'.acts| ==> ActOk(s', b)
    ensures Inv(s') && Onward(s, s')
  {
    forall i | 0 <= i < |s.reqs| ensures Unlinked(s', i) == Unlinked(s, i) { Stages(s, s', a, i); }
    forall i | 0 <= i < |s.reqs| && Started(s, i) ensures Started(s', i) { Stages(s, s', a, i); }
    assert Grown(s, s') && Calm(s, s', a);
    KeepCalm(s, s', a);
  }

  /** No other activation processes the same request. */
  lemma OneProcess(s: State, a: nat, b: nat)
    requires Inv(s) && a < |s.acts| && b < |s.acts| && a != b && s.acts[a].Process? && s.acts[b].Process?
    ensures s.acts[a].req != s.acts[b].req
  {
    assert ActOk(s, a) && ActOk(s, b);
  }

  lemma WorkKept(s: State, s': State, a: nat)
    requires Inv(s) && a < |s.acts| && Small(s, s', a) && Is(s, s.acts[a].req) && s.reqs[s.acts[a].req].past.proc.Some?
    requires forall i :: 0 <= i < |s.reqs| ==> s'.reqs[i].past.proc == s.reqs[i].past.proc
    requires forall i :: 0 <= i < |s.reqs| && i != s.acts[a].req ==> s'.reqs[i].past.handed == s.reqs[i].past.handed
    ensures forall i {:trigger WorkOk(s', i)} :: 0 <= i < |s'.reqs| ==> WorkOk(s', i)
  {
    forall i | 0 <= i < |s'.reqs| ensures WorkOk(s', i) {
      assert WorkOk(s, i);
      if s.reqs[i].past.proc.Some? && s.reqs[i].past.after.Some? { Stages(s, s', a, s.reqs[i].past.after.value); }
    }
  }

  lemma KeepProcess(s: State, s': State, a: nat)
    requires Inv(s) && Base(s') && a < |s.acts| && Small(s, s', a) && s.acts[a].Process? && s'.acts[a].Process?
    requires forall i {:trigger SameWork(s, s', i)} :: 0 <= i < |s.reqs| && i != s.acts[a].req ==> SameWork(s, s', i)
    requires var r, r' := s.reqs[s.acts[a].req].past, s'.reqs[s.acts[a].req].past;
             r'.proc == r.proc && (r'.handed == r.handed || s'.acts[a].pp.Finish? || s'.acts[a].pp.NoVictim?)
    requires var pp, pp' := s.acts[a].pp, s'.acts[a].pp;
             && (pp'.Begin? || pp'.Flushed? || pp'.Handle? ==> pp.Begin? || pp.Flushed?)
             && (pp'.Judge? ==> false)
             && (pp'.AskServer? ==> pp == Judge(pp'.victim))
    requires forall b :: |s.acts| <= b < |s'.acts| ==>
               s'.acts[b].Respond? && s'.acts[b].rp.Claim? && Is(s', s'.acts[b].req) &&
                 (s'.reqs[s'.acts[b].req].kind.Tflush? ==> s'.reqs[s'.acts[b].req].past.handed)
    ensures Inv(s') && Onward(s, s')
  {
    assert ActOk(s, a);
    forall b | 0 <= b < |s.acts| && b != a && s.acts[b].Process?
      ensures SameWork(s, s', s.acts[b].req)
    {
      OneProcess(s, a, b);
    }
    forall i | 0 <= i < |s.reqs|
      ensures s'.reqs[i].past.proc == s.reqs[i].past.proc
      ensures i != s.acts[a].req ==> s'.reqs[i].past.handed == s.reqs[i].past.handed
    {
      assert i != s.acts[a].req ==> SameWork(s, s', i);
    }
    WorkKept(s, s', a);
    KeepSmall(s, s', a);
  }

  /** The step is for the request of a, or flushes another. */
  lemma KeepOne(s: State, s': State, a: nat, v: Id)
    requires Inv(s) && Base(s') && a < |s.acts| && s.acts[a].Process? && Is(s, v) && |s'.reqs| == |s.reqs|
    requires s'.conn == s.conn
    requires s'.reqs == s.reqs[v := s'.reqs[v]] && SameLink(s.reqs[v], s'.reqs[v])
    requires s'.reqs[v].past.winner == s.reqs[v].past.winner && s'.reqs[v].past.proc == s.reqs[v].past.proc
    requires |s.acts| <= |s'.acts| && s'.acts[a].Process? && s'.acts[a].req == s.acts[a].req
    requires s'.acts[..|s.acts|] == s.acts[a := s'.acts[a]]
    requires s'.reqs[v].past.handed == s.reqs[v].past.handed ||
             (v == s.acts[a].req && (s'.acts[a].pp.Finish? || s'.acts[a].pp.NoVictim?))
    requires var pp, pp' := s.acts[a].pp, s'.acts[a].pp;
             && (pp'.Begin? || pp'.Flushed? || pp'.Handle? ==> pp.Begin? || pp.Flushed?)
             && (pp'.Judge? ==> false)
             && (pp'.AskServer? ==> pp == Judge(pp'.victim))
    requires forall b :: |s.acts| <= b < |s'.acts| ==>
               s'.acts[b] == Respond(v, Claim) && (s'.reqs[v].kind.Tflush? ==> s'.reqs[v].past.handed)
    ensures Inv(s') && Onward(s, s')
  {
    forall b | 0 <= b < |s.acts| && b != a
      ensures s'.acts[b] == s.acts[b]
    {
      assert s'.acts[..|s.acts|][b] == s'.acts[b];
    }
    KeepProcess(s, s', a);
  }

  lemma KeepBegin(s: State, a: nat, i: Id)
    requires Inv(s) && a < |s.acts| && s.acts[a] == Process(i, Begin) && Base(BeginStep(s, a, i))
    ensures Inv(BeginStep(s, a, i)) && Onward(s, BeginStep(s, a, i))
  {
    assert ActOk(s, a) && ReqOk(s, i);
    KeepOne(s, BeginStep(s, a, i), a, i);
  }

  lemma KeepFinish(s: State, a: nat, i: Id)
    requires Inv(s) && a < |s.acts| && s.acts[a] == Process(i, Finish) && Base(FinishStep(s, a, i))
    ensures Inv(FinishStep(s, a, i)) && Onward(s, FinishStep(s, a, i))
  {
    KeepOne(s, FinishStep(s, a, i), a, i);
  }

  lemma KeepFlushVictim(s: State, a: nat, i: Id, v: Id)
    requires Inv(s) && a < |s.acts| && s.acts[a].Process? && s.acts[a].req == i && Is(s, v) && s.reqs[v].kind.Plain?
    requires Base(FlushVictim(s, a, i, v))
    ensures Inv(FlushVictim(s, a, i, v)) && Onward(s, FlushVictim(s, a, i, v))
  {
    KeepOne(s, FlushVictim(s, a, i, v), a, v);
  }

  /** A call returned, or the victim is being worked on. */
  lemma KeepResume(s: State, a: nat, i: Id, pp: ProcPc)
    requires Inv(s) && a < |s.acts| && s.acts[a].Process? && s.acts[a].req == i && Base(Go(s, a, Process(i, pp)))
    requires pp.Finish? || (pp.Handle? && s.acts[a].pp.Flushed?) || (pp.AskServer? && s.acts[a].pp == Judge(pp.victim))
    ensures Inv(Go(s, a, Process(i, pp))) && Onward(s, Go(s, a, Process(i, pp)))
  {
    KeepOne(s, Go(s, a, Process(i, pp)), a, i);
  }

  lemma KeepHand(s: State, a: nat, i: Id)
    requires Inv(s) && a < |s.acts| && s.acts[a] == Process(i, Handle) && Base(Go(Hand(s, i), a, Process(i, Finish)))
    ensures Inv(Go(Hand(s, i), a, Process(i, Finish))) && Onward(s, Go(Hand(s, i), a, Process(i, Finish)))
  {
    KeepOne(s, Go(Hand(s, i), a, Process(i, Finish)), a, i);
  }

  lemma KeepFlushNobody(s: State, a: nat, i: Id)
    requires Inv(s) && a < |s.acts| && s.acts[a] == Process(i, Handle) && Base(FlushNobody(s, a, i))
    ensures Inv(FlushNobody(s, a, i)) && Onward(s, FlushNobody(s, a, i))
  {
    KeepOne(s, FlushNobody(s, a, i), a, i);
  }

  lemma KeepProcessStep(s: State, a: nat, flushOp: bool)
    requires Inv(s) && Enabled(s, Run(a, flushOp)) && s.acts[a].Process? && !s.acts[a].pp.Handle?
    requires Base(Advance(s, a, flushOp))
    ensures Inv(Advance(s, a, flushOp)) && Onward(s, Advance(s, a, flushOp))
  {
    var i := s.acts[a].req;
    assert ActOk(s, a);
    match s.acts[a].pp
    case Begin => KeepBegin(s, a, i);
    case Finish => KeepFinish(s, a, i);
    case Flushed(_) => KeepResume(s, a, i, Handle);
    case Judge(v) =>
      if !s.reqs[v].work && !s.reqs[v].saved {
        KeepFlushVictim(s, a, i, v);
      } else {
        KeepResume(s, a, i, AskServer(v));
      }
    case AskServer(v) =>
      if flushOp { KeepFlushVictim(s, a, i, v); } else { KeepResume(s, a, i, Finish); }
    case _ => KeepResume(s, a, i, Finish);
  }

  /* ---- answering ---- */

  lemma ClaimStages(s: State, a: nat, i: Id, j: Id)
    requires Base(s) && a < |s.acts| && s.acts[a] == Respond(i, Claim) && Is(s, i) && Is(s, j)
    ensures Unlinked(ClaimStep(s, a, i), j) == Unlinked(s, j)
    ensures Started(s, j) ==> Started(ClaimStep(s, a, i), j)
  {
    assert BaseReq(s, j) && BaseReq(s, i);
  }

  lemma ClaimCalm(s: State, a: nat, i: Id)
    requires Base(s) && a < |s.acts| && s.acts[a] == Respond(i, Claim)
    ensures Calm(s, ClaimStep(s, a, i), a)
  {
    var s' := ClaimStep(s, a, i);
    forall j | 0 <= j < |s.reqs| ensures Unlinked(s', j) == Unlinked(s, j) { ClaimStages(s, a, i, j); }
    forall j | 0 <= j < |s.reqs| && Started(s, j) ensures Started(s', j) { ClaimStages(s, a, i, j); }
  }

  lemma KeepClaim(s: State, a: nat, i: Id)
    requires Inv(s) && a < |s.acts| && s.acts[a] == Respond(i, Claim) && Base(ClaimStep(s, a, i))
    ensures Inv(ClaimStep(s, a, i)) && Onward(s, ClaimStep(s, a, i))
  {
    var s' := ClaimStep(s, a, i);
    assert ActOk(s, a);
    ClaimCalm(s, a, i);
    forall j | 0 <= j < |s'.reqs| ensures WorkOk(s', j) { assert WorkOk(s, j); }
    KeepCalm(s, s', a);
  }

  lemma RespondWork(s: State, s': State, a: nat)
    requires Inv(s) && a < |s.acts| && Small(s, s', a) && s.acts[a].Respond?
    requires forall i :: 0 <= i < |s.reqs| ==>
               s'.reqs[i].past.proc == s.reqs[i].past.proc && s'.reqs[i].past.handed == s.reqs[i].past.handed
    requires Base(s') && ActOk(s', a) && forall b :: |s.acts| <= b < |s'.acts| ==> ActOk(s', b)
    ensures Inv(s') && Onward(s, s')
  {
    forall i | 0 <= i < |s'.reqs| ensures WorkOk(s', i) {
      assert WorkOk(s, i);
      if s.reqs[i].past.proc.Some? && s.reqs[i].past.after.Some? { Stages(s, s', a, s.reqs[i].past.after.value); }
    }
    KeepSmall(s, s', a);
  }

  lemma KeepPost(s: State, a: nat, i: Id, fl: bool, n: Option<Id>, f: Option<Id>)
    requires Inv(s) && a < |s.acts| && s.acts[a] == Respond(i, Post(fl, n, f)) && Base(PostStep(s, a, i, fl, n, f))
    ensures Inv(PostStep(s, a, i, fl, n, f)) && Onward(s, PostStep(s, a, i, fl, n, f))
  {
    assert ActOk(s, a);
    RespondWork(s, PostStep(s, a, i, fl, n, f), a);
  }

  lemma KeepLoop(s: State, a: nat, i: Id, cur: Option<Id>, done: nat)
    requires Inv(s) && a < |s.acts| && s.acts[a] == Respond(i, Loop(cur, done)) && Named(|s.reqs|, cur)
    requires Base(LoopStep(s, a, i, cur, done))
    ensures Inv(LoopStep(s, a, i, cur, done)) && Onward(s, LoopStep(s, a, i, cur, done))
  {
    assert ActOk(s, a);
    if cur.Some? { assert ReqOk(s, cur.value); }
    RespondWork(s, LoopStep(s, a, i, cur, done), a);
  }

  lemma KeepInLoop(s: State, a: nat, i: Id, cur: Option<Id>, done: nat, call: nat)
    requires Inv(s) && a < |s.acts| && s.acts[a] == Respond(i, InLoop(cur, done, call)) && cur.Some? && Is(s, cur.value)
    requires Base(Go(s, a, Respond(i, Loop(s.reqs[cur.value].flushreq, done + 1))))
    ensures Inv(Go(s, a, Respond(i, Loop(s.reqs[cur.value].flushreq, done + 1))))
    ensures Onward(s, Go(s, a, Respond(i, Loop(s.reqs[cur.value].flushreq, done + 1))))
  {
    assert ActOk(s, a) && ReqOk(s, cur.value);
    RespondWork(s, Go(s, a, Respond(i, Loop(s.reqs[cur.value].flushreq, done + 1))), a);
  }

  lemma StartNextWork(s: State, a: nat, i: Id, n: Id, f: Option<Id>)
    requires Inv(s) && a < |s.acts| && s.acts[a] == Respond(i, StartNext(Some(n), f)) && Is(s, n) && Named(|s.reqs|, f)
    ensures var s' := StartNextStep(s, a, i, Some(n), f); Small(s, s', a) && Started(s', i)
    ensures forall j {:trigger WorkOk(StartNextStep(s, a, i, Some(n), f), j)} :: 0 <= j < |s.reqs| ==>
              WorkOk(StartNextStep(s, a, i, Some(n), f), j)
  {
    var s' := StartNextStep(s, a, i, Some(n), f);
    assert ActOk(s, a) && BaseAct(s, a);
    assert Small(s, s', a) && Started(s', i);
    forall j | 0 <= j < |s'.reqs| ensures WorkOk(s', j) {
      assert WorkOk(s, j);
      if s.reqs[j].past.proc.Some? && s.reqs[j].past.after.Some? { Stages(s, s', a, s.reqs[j].past.after.value); }
    }
  }

  lemma KeepStartNext(s: State, a: nat, i: Id, n: Option<Id>, f: Option<Id>)
    requires Inv(s) && a < |s.acts| && s.acts[a] == Respond(i, StartNext(n, f)) && Named(|s.reqs|, n)
    requires Named(|s.reqs|, f)
    requires Base(StartNextStep(s, a, i, n, f))
    ensures Inv(StartNextStep(s, a, i, n, f)) && Onward(s, StartNextStep(s, a, i, n, f))
  {
    var s' := StartNextStep(s, a, i, n, f);
    assert ActOk(s, a);
    if n.None? {
      RespondWork(s, s', a);
    } else {
      OneWinner(s, a);
      StartNextWork(s, a, i, n.value, f);
      assert WorkOk(s, n.value);
      forall b | 0 <= b < |s.acts| && b != a && s.acts[b].Process? ensures SameWork(s, s', s.acts[b].req) {
        assert ActOk(s, b);
      }
      KeepSmall(s, s', a);
    }
  }

  /* ---- arrivals ---- */

  /** No activation moved; some may be new. */
  ghost predicate Joined(s: State, s': State) {
    && |s.acts| <= |s'.acts| && (forall b :: 0 <= b < |s.acts| ==> s'.acts[b] == s.acts[b])
    && |s.reqs| <= |s'.reqs| && (forall j :: 0 <= j < |s.reqs| ==> s'.reqs[j].past == s.reqs[j].past)
  }

  lemma SameStage(s: State, s': State, j: Id)
    requires Joined(s, s') && Is(s, j) && BaseReq(s, j)
    ensures Unlinked(s', j) == Unlinked(s, j) && Started(s', j) == Started(s, j)
  {
  }

  lemma KeepAnswer(s: State, i: Id)
    requires Inv(s) && Is(s, i) && s.reqs[i].kind.Plain? && Base(Spawn(s, Respond(i, Claim)))
    ensures Inv(Spawn(s, Respond(i, Claim))) && Onward(s, Spawn(s, Respond(i, Claim)))
  {
    var s' := Spawn(s, Respond(i, Claim));
    forall j | 0 <= j < |s.reqs|
      ensures Unlinked(s', j) == Unlinked(s, j)
    {
      assert BaseReq(s, j); SameStage(s, s', j);
    }
    forall j | 0 <= j < |s.reqs| && Started(s, j) ensures Started(s', j) { assert BaseReq(s, j); SameStage(s, s', j); }
    forall t | t in s'.conn ensures TagOk(s', t) { assert TagOk(s, t); }
    forall j | 0 <= j < |s'.reqs| ensures ReqOk(s', j) { assert ReqOk(s, j); }
    forall j | 0 <= j < |s'.reqs| ensures WorkOk(s', j) { assert WorkOk(s, j); }
    forall b | 0 <= b < |s'.acts| ensures ActOk(s', b) {
      if b < |s.acts| {
        assert ActOk(s, b);
        ActKept(s, s', b);
      }
    }
  }

  /** A request came in at the head of the chain of its tag. */
  ghost predicate Received(s: State, s': State, tag: Tag, kind: Kind) {
    var n := |s.reqs|;
    && |s'.reqs| == n + 1 && s'.conn == s.conn[tag := n] && Joined(s, s')
    && (forall j :: 0 <= j < n && Lookup(s.conn, tag) != Some(j) ==> s'.reqs[j] == s.reqs[j])
    && (tag in s.conn && s.conn[tag] < n ==> s'.reqs[s.conn[tag]] == s.reqs[s.conn[tag]].(prev := Some(n)))
    && s'.reqs[n] == NewReq(tag, kind, Lookup(s.conn, tag)).(past := s'.reqs[n].past)
    && s'.reqs[n].past == NewReq(tag, kind, Lookup(s.conn, tag)).past.(proc := s'.reqs[n].past.proc)
  }

  lemma RecvPlace(s: State, s': State, tag: Tag, kind: Kind, j: Id)
    requires Received(s, s', tag, kind) && JoinsPlain(s, tag, kind) && Is(s, j) && PlaceOk(s, j)
    requires Unlinked(s', j) == Unlinked(s, j)
    requires tag in s.conn ==> TagOk(s, tag)
    ensures PlaceOk(s', j)
  {
  }

  lemma RecvReq(s: State, s': State, tag: Tag, kind: Kind, j: Id)
    requires Received(s, s', tag, kind) && JoinsPlain(s, tag, kind) && Is(s, j) && ReqOk(s, j)
    requires Unlinked(s', j) == Unlinked(s, j)
    requires tag in s.conn ==> TagOk(s, tag)
    requires forall i :: 0 <= i < |s.reqs| ==>
               s'.reqs[i].kind == s.reqs[i].kind && s'.reqs[i].flushreq == s.reqs[i].flushreq
    ensures ReqOk(s', j)
  {
    RecvPlace(s, s', tag, kind, j);
  }

  lemma JoinedGrown(s: State, s': State)
    requires Inv(s) && Joined(s, s')
    requires forall j :: 0 <= j < |s.reqs| ==> s'.reqs[j].kind == s.reqs[j].kind && s'.reqs[j].tag == s.reqs[j].tag
    ensures Grown(s, s')
    ensures forall j {:trigger Unlinked(s', j)} :: 0 <= j < |s.reqs| ==> Unlinked(s', j) == Unlinked(s, j)
  {
    forall j | 0 <= j < |s.reqs|
      ensures Unlinked(s', j) == Unlinked(s, j)
    {
      assert BaseReq(s, j); SameStage(s, s', j);
    }
    forall j | 0 <= j < |s.reqs| && Started(s, j) ensures Started(s', j) { assert BaseReq(s, j); SameStage(s, s', j); }
  }

  lemma RecvNew(s: State, s': State, tag: Tag, kind: Kind)
    requires Received(s, s', tag, kind) && JoinsPlain(s, tag, kind)
    requires tag in s.conn ==> TagOk(s, tag) && s'.reqs[|s.reqs|].past.proc.None?
    ensures ReqOk(s', |s.reqs|) && WorkOk(s', |s.reqs|) && TagOk(s', tag)
  {
  }

  lemma RecvReqs(s: State, s': State, tag: Tag, kind: Kind)
    requires Inv(s) && Received(s, s', tag, kind) && JoinsPlain(s, tag, kind)
    requires tag in s.conn ==> s'.reqs[|s.reqs|].past.proc.None?
    ensures Onward(s, s') && forall j {:trigger ReqOk(s', j)} :: 0 <= j < |s'.reqs| ==> ReqOk(s', j)
    ensures forall j {:trigger WorkOk(s', j)} :: 0 <= j < |s'.reqs| ==> WorkOk(s', j)
    ensures forall t :: t in s'.conn ==> TagOk(s', t)
  {
    JoinedGrown(s, s');
    assert tag in s.conn ==> TagOk(s, tag);
    RecvNew(s, s', tag, kind);
    forall j | 0 <= j < |s'.reqs| ensures ReqOk(s', j) {
      if j < |s.reqs| {
        assert ReqOk(s, j);
        RecvReq(s, s', tag, kind, j);
      }
    }
    forall j | 0 <= j < |s'.reqs| ensures WorkOk(s', j) {
      if j < |s.reqs| { assert WorkOk(s, j); }
    }
    forall t | t in s'.conn ensures TagOk(s', t) {
      if t != tag { assert TagOk(s, t); }
    }
  }

  lemma KeepRecv(s: State, tag: Tag, kind: Kind)
    requires Inv(s) && JoinsPlain(s, tag, kind) && Base(Receive(s, tag, kind))
    ensures Inv(Receive(s, tag, kind)) && Onward(s, Receive(s, tag, kind))
  {
    var s' := Receive(s, tag, kind);
    RecvReqs(s, s', tag, kind);
    forall b | 0 <= b < |s'.acts| ensures ActOk(s', b) {
      if b < |s.acts| {
        assert ActOk(s, b);
        ActKept(s, s', b);
      }
    }
  }

  /* ---- linking a flush to its victim ---- */

  lemma LinkPlace(s: State, s': State, g: Id, v: Id, j: Id)
    requires Is(s, g) && Is(s, v) && Is(s, j) && PlaceOk(s, j) && HeadOk(s, j) && HeadOk(s, v)
    requires Linking(s, s', g, v) && Unlinked(s', j) == Unlinked(s, j)
    ensures PlaceOk(s', j) && HeadOk(s', j)
  {
  }

  /** Tflush g was put at the head of the flushes of v. */
  ghost predicate Linking(s: State, s': State, g: Id, v: Id)
    requires Is(s, g) && Is(s, v)
  {
    var r, w := s.reqs[g], s.reqs[v];
    && r.kind.Tflush? && w.kind.Plain? && r.past.victim.None?
    && s'.conn == s.conn
    && s'.reqs == s.reqs[g := r.(flushreq := w.flushreq, past := r.past.(handed := true, victim := Some(v)))]
                        [v := w.(flushreq := Some(g), past := w.past.(flushers := [g] + w.past.flushers))]
  }

  lemma LinkReq(s: State, s': State, g: Id, v: Id, j: Id)
    requires Typed(s) && Is(s, g) && Is(s, v) && Is(s, j) && ReqOk(s, j) && ReqOk(s, v)
    requires Linking(s, s', g, v) && Unlinked(s', j) == Unlinked(s, j)
    ensures ReqOk(s', j)
  {
    LinkPlace(s, s', g, v, j);
    if F.Chain(s, j) {
      F.LinkChain(s, g, v, j);
      assert LinkFlush(s, g, v).reqs == s'.reqs;
    }
  }

  lemma LinkReqs(s: State, s': State, g: Id, v: Id)
    requires Inv(s) && Is(s, g) && Is(s, v) && Linking(s, s', g, v) && s.reqs[g].past.proc.Some?
    requires forall j {:trigger Unlinked(s', j)} :: 0 <= j < |s.reqs| ==> Unlinked(s', j) == Unlinked(s, j)
    requires forall j {:trigger Started(s', j)} :: 0 <= j < |s.reqs| && Started(s, j) ==> Started(s', j)
    ensures forall j {:trigger ReqOk(s', j)} :: 0 <= j < |s'.reqs| ==> ReqOk(s', j)
    ensures forall j {:trigger WorkOk(s', j)} :: 0 <= j < |s'.reqs| ==> WorkOk(s', j)
    ensures forall t :: t in s'.conn ==> TagOk(s', t)
  {
    forall j | 0 <= j < |s'.reqs| ensures ReqOk(s', j) {
      assert ReqOk(s, j) && ReqOk(s, v);
      LinkReq(s, s', g, v, j);
    }
    forall j | 0 <= j < |s'.reqs| ensures WorkOk(s', j) { assert WorkOk(s, j); }
    forall t | t in s'.conn ensures TagOk(s', t) { assert TagOk(s, t); }
  }

  lemma KeepLink(s: State, a: nat, g: Id, v: Id)
    requires Inv(s) && a < |s.acts| && s.acts[a] == Process(g, Handle) && Is(s, v)
    requires s.reqs[g].kind.Tflush? && s.reqs[v].kind.Plain? && Base(Go(LinkFlush(s, g, v), a, Process(g, Judge(v))))
    ensures Inv(Go(LinkFlush(s, g, v), a, Process(g, Judge(v))))
    ensures Onward(s, Go(LinkFlush(s, g, v), a, Process(g, Judge(v))))
  {
    var s' := Go(LinkFlush(s, g, v), a, Process(g, Judge(v)));
    assert ActOk(s, a) && ReqOk(s, g) && WorkOk(s, g);
    forall j | 0 <= j < |s.reqs| ensures Unlinked(s', j) == Unlinked(s, j) { assert BaseReq(s, j); }
    forall j | 0 <= j < |s.reqs| && Started(s, j) ensures Started(s', j) { assert BaseReq(s, j); }
    LinkReqs(s, s', g, v);
    forall b | 0 <= b < |s'.acts| ensures ActOk(s', b) {
      assert ActOk(s, b);
      if b != a { ActKept(s, s', b); }
    }
  }

  /* ---- taking a request out of the chain of its tag ---- */

  lemma UnlinkStages(s: State, s': State, a: nat, i: Id, j: Id)
    requires Base(s) && Is(s, j) && |s'.reqs| == |s.reqs| && s'.reqs[j].past == s.reqs[j].past
    requires a < |s.acts| && s.acts[a].Respond? && s.acts[a].rp.Unlink? && s.acts[a].req == i && |s'.acts| == |s.acts|
    requires s'.acts == s.acts[a := s'.acts[a]] && s'.acts[a].Respond? && s'.acts[a].rp.Post?
    ensures Unlinked(s', j) == (Unlinked(s, j) || j == i)
    ensures Started(s, j) ==> Started(s', j)
  {
    assert BaseReq(s, j) && BaseAct(s, a);
  }

  lemma UnlinkActs(s: State, s': State, a: nat)
    requires Inv(s) && Grown(s, s') && a < |s.acts| && s'.acts == s.acts[a := s'.acts[a]] && ActOk(s', a)
    requires forall j :: 0 <= j < |s.reqs| ==> s'.reqs[j].past == s.reqs[j].past
    ensures forall b {:trigger ActOk(s', b)} :: 0 <= b < |s'.acts| ==> ActOk(s', b)
  {
    forall b | 0 <= b < |s'.acts| ensures ActOk(s', b) {
      assert ActOk(s, b);
      if b != a { ActKept(s, s', b); }
    }
  }

  lemma KeepUnlinkLast(s: State, a: nat, i: Id, fl: bool)
    requires Inv(s) && a < |s.acts| && s.acts[a] == Respond(i, Unlink(fl)) && s.reqs[i].prev.None?
    requires Base(UnlinkStep(s, a, i, fl))
    ensures Inv(UnlinkStep(s, a, i, fl)) && Onward(s, UnlinkStep(s, a, i, fl))
  {
    var s' := UnlinkStep(s, a, i, fl);
    OneWinner(s, a);
    assert ActOk(s, a) && ReqOk(s, i);
    forall j | 0 <= j < |s.reqs| ensures Unlinked(s', j) == (Unlinked(s, j) || j == i) { UnlinkStages(s, s', a, i, j); }
    forall j | 0 <= j < |s.reqs| && Started(s, j) ensures Started(s', j) { UnlinkStages(s, s', a, i, j); }
    forall t | t in s'.conn ensures TagOk(s', t) { assert TagOk(s, t); }
    forall j | 0 <= j < |s'.reqs| ensures ReqOk(s', j) { assert ReqOk(s, j); }
    forall j | 0 <= j < |s'.reqs| ensures WorkOk(s', j) { assert WorkOk(s, j); }
    UnlinkActs(s, s', a);
  }

  ghost predicate HeadsAreFlushes(reqs: seq<Req>) {
    forall j :: 0 <= j < |reqs| && reqs[j].flushreq.Some? ==>
        reqs[j].flushreq.value < |reqs| && reqs[reqs[j].flushreq.value].kind.Tflush?
  }

  lemma {:induction false} EndsInFlush(reqs: seq<Req>, r: Id, fuel: nat)
    requires AllLinked(reqs) && HeadsAreFlushes(reqs) && r < |reqs| && reqs[r].kind.Tflush?
    ensures reqs[ChainEnd(reqs, r, fuel)].kind.Tflush?
    decreases fuel
  {
    if fuel > 0 && reqs[r].flushreq.Some? { EndsInFlush(reqs, reqs[r].flushreq.value, fuel - 1); }
  }

  /** The flushes of i go to n if there are none there. */
  ghost predicate HandedOn(s: State, s': State, i: Id, n: Id) {
    && Is(s, i) && Is(s, n) && |s'.reqs| == |s.reqs| && s'.conn == s.conn
    && (forall j :: 0 <= j < |s.reqs| && j != n && s.reqs[j].kind.Plain? ==> s'.reqs[j] == s.reqs[j])
    && (forall j :: 0 <= j < |s.reqs| && s.reqs[j].kind.Tflush? ==> s'.reqs[j] == s.reqs[j].(next := s'.reqs[j].next))
    && s'.reqs[n] == s.reqs[n].(next := None,
                                flushreq := if s.reqs[n].flushreq.None? then s.reqs[i].flushreq
                                            else s.reqs[n].flushreq)
  }

  /** If n has flushes already, the last of them gets a link that nothing follows. */
  lemma MovesTo(s: State, n: Id, head: Option<Id>) returns (p: Id)
    requires Is(s, n) && AllLinked(s.reqs) && HeadsAreFlushes(s.reqs) && Named(|s.reqs|, head)
    ensures s.reqs[n].flushreq.None? ==> MoveFlushes(s, n, head) == Set(s, n, s.reqs[n].(flushreq := head))
    ensures s.reqs[n].flushreq.Some? ==>
              Is(s, p) && s.reqs[p].kind.Tflush? && MoveFlushes(s, n, head) == Set(s, p, s.reqs[p].(next := head))
  {
    p := n;
    if s.reqs[n].flushreq.Some? {
      p := ChainEnd(s.reqs, s.reqs[n].flushreq.value, |s.reqs|);
      EndsInFlush(s.reqs, s.reqs[n].flushreq.value, |s.reqs|);
    }
  }

  lemma UnlinkHandsOn(s: State, a: nat, i: Id, fl: bool, n: Id)
    requires Typed(s) && HeadsAreFlushes(s.reqs) && a < |s.acts| && s.acts[a] == Respond(i, Unlink(fl))
    requires s.reqs[i].prev == Some(n)
    requires Is(s, n) && s.reqs[n].kind.Plain? && i != n
    ensures HandedOn(s, UnlinkStep(s, a, i, fl), i, n)
  {
    var s0 := s.(queues := s.queues[s.reqs[i].tag := Without(Queue(s, s.reqs[i].tag), i)]);
    var s1 := Set(s0, n, s.reqs[n].(next := None));
    if s.reqs[i].flushreq.None? {
      assert UnlinkStep(s, a, i, fl).reqs == s1.reqs;
    } else {
      var s2 := MoveFlushes(s1, n, s.reqs[i].flushreq);
      assert UnlinkStep(s, a, i, fl).reqs == s2.reqs && UnlinkStep(s, a, i, fl).conn == s.conn;
      MovesOn(s, s1, i, n);
      HandedOnly(s, s2, UnlinkStep(s, a, i, fl), i, n);
    }
  }

  lemma HandedOnly(s: State, s2: State, s': State, i: Id, n: Id)
    requires HandedOn(s, s2, i, n) && s'.reqs == s2.reqs && s'.conn == s2.conn
    ensures HandedOn(s, s', i, n)
  {
  }

  lemma MovesOn(s: State, s1: State, i: Id, n: Id)
    requires Is(s, i) && Is(s, n) && AllLinked(s.reqs) && HeadsAreFlushes(s.reqs) && s.reqs[n].kind.Plain? && i != n
    requires s1.reqs == s.reqs[n := s.reqs[n].(next := None)] && s1.conn == s.conn
    ensures AllLinked(s1.reqs) && Named(|s1.reqs|, s.reqs[i].flushreq)
    ensures HandedOn(s, MoveFlushes(s1, n, s.reqs[i].flushreq), i, n)
  {
    assert Linked(|s.reqs|, s.reqs[i]);
    forall j | 0 <= j < |s1.reqs| ensures Linked(|s1.reqs|, s1.reqs[j]) { assert Linked(|s.reqs|, s.reqs[j]); }
    var head := s.reqs[i].flushreq;
    var p := MovesTo(s1, n, head);
    if s.reqs[n].flushreq.None? {
      ToNext(s, MoveFlushes(s1, n, head), i, n);
    } else {
      ToFlush(s, MoveFlushes(s1, n, head), i, n, p);
    }
  }

  lemma ToNext(s: State, s': State, i: Id, n: Id)
    requires Is(s, i) && Is(s, n) && s.reqs[n].kind.Plain? && s.reqs[n].flushreq.None? && s'.conn == s.conn
    requires s'.reqs == s.reqs[n := s.reqs[n].(next := None)]
                              [n := s.reqs[n].(next := None, flushreq := s.reqs[i].flushreq)]
    ensures HandedOn(s, s', i, n)
  {
  }

  lemma ToFlush(s: State, s': State, i: Id, n: Id, p: Id)
    requires Is(s, i) && Is(s, n) && Is(s, p) && s.reqs[n].kind.Plain? && s.reqs[p].kind.Tflush?
    requires s.reqs[n].flushreq.Some?
    requires s'.conn == s.conn
    requires s'.reqs == s.reqs[n := s.reqs[n].(next := None)][p := s.reqs[p].(next := s.reqs[i].flushreq)]
    ensures HandedOn(s, s', i, n)
  {
  }

  lemma HandedPlace(s: State, s': State, i: Id, n: Id, j: Id)
    requires HandedOn(s, s', i, n) && Is(s, j) && PlaceOk(s, j) && PlaceOk(s, n) && PlaceOk(s, i)
    requires s.reqs[i].prev == Some(n) && s.reqs[n].kind.Plain?
    requires s.reqs[j].prev.Some? ==> Is(s, s.reqs[j].prev.value) && s.reqs[s.reqs[j].prev.value].kind.Plain?
    requires Unlinked(s', j) == (Unlinked(s, j) || j == i)
    ensures PlaceOk(s', j)
  {
  }

  lemma HandedReq(s: State, s': State, i: Id, n: Id, j: Id)
    requires HandedOn(s, s', i, n) && Is(s, j) && ReqOk(s, j) && ReqOk(s, n) && ReqOk(s, i)
    requires s.reqs[i].prev == Some(n) && s.reqs[i].kind.Plain? && s.reqs[n].kind.Plain?
    requires s.reqs[j].prev.Some? ==> Is(s, s.reqs[j].prev.value) && s.reqs[s.reqs[j].prev.value].kind.Plain?
    requires Unlinked(s', j) == (Unlinked(s, j) || j == i)
    ensures ReqOk(s', j)
  {
    HandedPlace(s, s', i, n, j);
    if F.Chain(s, j) && j != n {
      var q := s.reqs[j].past.flushers;
      forall k | 0 <= k < |q| ensures F.Flushes(s', q[k], j) && s'.reqs[q[k]].flushreq == F.At(q, k + 1) {
        assert F.Flushes(s, q[k], j);
      }
    }
  }

  lemma HandedReqs(s: State, s': State, i: Id, n: Id)
    requires Inv(s) && HandedOn(s, s', i, n) && s.reqs[i].prev == Some(n) && s.reqs[i].kind.Plain?
    requires s.reqs[n].kind.Plain?
    requires forall j {:trigger Unlinked(s', j)} :: 0 <= j < |s.reqs| ==> Unlinked(s', j) == (Unlinked(s, j) || j == i)
    ensures forall j {:trigger ReqOk(s', j)} :: 0 <= j < |s'.reqs| ==> ReqOk(s', j)
  {
    forall j | 0 <= j < |s'.reqs| ensures ReqOk(s', j) {
      assert ReqOk(s, j) && ReqOk(s, i) && ReqOk(s, n);
      if s.reqs[j].prev.Some? { assert ReqOk(s, s.reqs[j].prev.value); }
      HandedReq(s, s', i, n, j);
    }
  }

  /** Request i is out of the chain of its tag now. */
  ghost predicate OnlyUnlinked(s: State, s': State, i: Id) {
    && Grown(s, s') && |s'.reqs| == |s.reqs| && (forall j :: 0 <= j < |s.reqs| ==> s'.reqs[j].past == s.reqs[j].past)
    && forall j {:trigger Unlinked(s', j)} :: 0 <= j < |s.reqs| ==> Unlinked(s', j) == (Unlinked(s, j) || j == i)
  }

  lemma UnlinkGrows(s: State, a: nat, i: Id, fl: bool, n: Id)
    requires Inv(s) && a < |s.acts| && s.acts[a] == Respond(i, Unlink(fl)) && Is(s, n)
    requires HandedOn(s, UnlinkStep(s, a, i, fl), i, n)
    ensures OnlyUnlinked(s, UnlinkStep(s, a, i, fl), i)
  {
    var s' := UnlinkStep(s, a, i, fl);
    forall j | 0 <= j < |s.reqs| ensures SameReq(s.reqs[j], s'.reqs[j]) && s'.reqs[j].past == s.reqs[j].past {}
    forall j | 0 <= j < |s.reqs| ensures Unlinked(s', j) == (Unlinked(s, j) || j == i) { UnlinkStages(s, s', a, i, j); }
    forall j | 0 <= j < |s.reqs| && Started(s, j) ensures Started(s', j) { UnlinkStages(s, s', a, i, j); }
  }

  lemma UnlinkRest(s: State, s': State, i: Id, n: Id)
    requires Inv(s) && HandedOn(s, s', i, n) && OnlyUnlinked(s, s', i) && s.reqs[i].prev == Some(n)
    ensures forall t :: t in s'.conn ==> TagOk(s', t)
    ensures forall j {:trigger WorkOk(s', j)} :: 0 <= j < |s'.reqs| ==> WorkOk(s', j)
  {
    forall t | t in s'.conn ensures TagOk(s', t) { assert TagOk(s, t); }
    forall j | 0 <= j < |s'.reqs| ensures WorkOk(s', j) { assert WorkOk(s, j); }
  }

  lemma KeepUnlinkNext(s: State, a: nat, i: Id, fl: bool, n: Id)
    requires Inv(s) && a < |s.acts| && s.acts[a] == Respond(i, Unlink(fl)) && s.reqs[i].prev == Some(n)
    requires Base(UnlinkStep(s, a, i, fl))
    ensures Inv(UnlinkStep(s, a, i, fl)) && Onward(s, UnlinkStep(s, a, i, fl))
  {
    var s' := UnlinkStep(s, a, i, fl);
    assert ActOk(s, a) && ReqOk(s, i);
    NextHandedOn(s, a, i, fl, n);
    UnlinkGrows(s, a, i, fl, n);
    HandedReqs(s, s', i, n);
    UnlinkRest(s, s', i, n);
    UnlinkActs(s, s', a);
  }

  lemma NextHandedOn(s: State, a: nat, i: Id, fl: bool, n: Id)
    requires Inv(s) && a < |s.acts| && s.acts[a] == Respond(i, Unlink(fl)) && s.reqs[i].prev == Some(n)
    ensures Is(s, n) && i != n && s.reqs[i].kind.Plain? && s.reqs[n].kind.Plain?
    ensures HandedOn(s, UnlinkStep(s, a, i, fl), i, n)
  {
    assert ReqOk(s, i);
    assert ReqOk(s, n);
    forall j | 0 <= j < |s.reqs| && s.reqs[j].flushreq.Some?
      ensures Waits(s, s.reqs[j].flushreq.value)
    {
      assert ReqOk(s, j);
    }
    UnlinkHandsOn(s, a, i, fl, n);
  }

  /* ---- every run ---- */

  lemma KeepRespondStep(s: State, a: nat, flushOp: bool)
    requires Inv(s) && Enabled(s, Run(a, flushOp)) && s.acts[a].Respond? && Base(Advance(s, a, flushOp))
    ensures Inv(Advance(s, a, flushOp)) && Onward(s, Advance(s, a, flushOp))
  {
    var i := s.acts[a].req;
    assert ActOk(s, a) && ReqOk(s, i);
    match s.acts[a].rp
    case Claim => KeepClaim(s, a, i);
    case Unlink(fl) =>
      if s.reqs[i].prev.None? {
        KeepUnlinkLast(s, a, i, fl);
      } else {
        KeepUnlinkNext(s, a, i, fl, s.reqs[i].prev.value);
      }
    case Post(fl, n, f) => KeepPost(s, a, i, fl, n, f);
    case StartNext(n, f) => KeepStartNext(s, a, i, n, f);
    case Loop(cur, done) => KeepLoop(s, a, i, cur, done);
    case InLoop(cur, done, call) => KeepInLoop(s, a, i, cur, done, call);
    case Closed =>
  }

  lemma KeepHandleStep(s: State, a: nat, flushOp: bool)
    requires Inv(s) && Enabled(s, Run(a, flushOp)) && s.acts[a].Process? && s.acts[a].pp.Handle? && AimsRight(s, a)
    requires Base(Advance(s, a, flushOp))
    ensures Inv(Advance(s, a, flushOp)) && Onward(s, Advance(s, a, flushOp))
  {
    var i := s.acts[a].req;
    if s.reqs[i].kind.Plain? {
      KeepHand(s, a, i);
    } else if s.reqs[i].kind.oldtag in s.conn {
      assert TagOk(s, s.reqs[i].kind.oldtag);
      KeepLink(s, a, i, s.conn[s.reqs[i].kind.oldtag]);
    } else {
      KeepFlushNobody(s, a, i);
    }
  }

  lemma KeepStep(s: State, step: Step)
    requires Inv(s) && Enabled(s, step) && Allowed(GroupClient, s, step)
    ensures Inv(Apply(s, step)) && Onward(s, Apply(s, step))
  {
    BaseStep(s, step);
    match step
    case Recv(tag, kind) => KeepRecv(s, tag, kind);
    case Answer(i) => KeepAnswer(s, i);
    case Run(a, flushOp) =>
      if s.acts[a].Respond? {
        KeepRespondStep(s, a, flushOp);
      } else if s.acts[a].pp.Handle? {
        KeepHandleStep(s, a, flushOp);
      } else {
        KeepProcessStep(s, a, flushOp);
      }
  }

  lemma {:induction false} InvRun(run: seq<State>)
    requires Reachable(GroupClient, run)
    ensures Inv(Last(run))
    decreases |run|
  {
    if |run| > 1 {
      var was := run[..|run| - 1];
      Before(GroupClient, run);
      InvRun(was);
      var step :| Move(GroupClient, Last(was), step, Last(run));
      KeepStep(Last(was), step);
    }
  }
}
