/**
 Requests that share a tag: what the engine keeps when nothing is flushed.  They form a chain, newest
 first; only the oldest is started, and the next one starts after the reply of the oldest was sent.
 */
module TagQueue {
  import opened Common
  import opened Engine

  function At(q: seq<Id>, k: int): Option<Id> {
    if 0 <= k < |q| then Some(q[k]) else None
  }

  /** The requests of a tag, as chained through next and prev. */
  ghost predicate QueueOk(s: State, t: Tag) {
    var q := Queue(s, t);
    && (t in s.conn <==> q != [])
    && (q != [] ==> s.conn[t] == q[0] && Ready(s, q[|q| - 1]))
    && (forall j, k :: 0 <= j < k < |q| ==> q[j] > q[k])
    && (forall k :: 0 <= k < |q| ==> Is(s, q[k]) && Linked(s, t, q, k))
  }

  ghost predicate Linked(s: State, t: Tag, q: seq<Id>, k: nat)
    requires k < |q| && Is(s, q[k])
  {
    var r := s.reqs[q[k]];
    && r.tag == t && r.next == At(q, k + 1) && r.prev == At(q, k - 1)
    && (k < |q| - 1 ==> r.past.after == Some(q[k + 1]) && r.past.proc.None?)
  }

  /** The request was started, or the answer of the one before it is about to start it. */
  ghost predicate Ready(s: State, l: Id) {
    Is(s, l) && (s.reqs[l].past.proc.Some? || HandedOn(s, l))
  }

  ghost predicate HandedOn(s: State, l: Id)
    requires Is(s, l)
  {
    var i := s.reqs[l].past.after;
    && i.Some? && Is(s, i.value)
    && var a := s.reqs[i.value].past.winner;
       a.Some? && a.value < |s.acts| && NextReq(s.acts[a.value]) == Some(l)
  }

  function NextReq(act: Act): Option<Id> {
    match act
    case Process(_, _) => None
    case Respond(_, rp) =>
      match rp
      case Post(_, n, _) => n
      case StartNext(n, _) => n
      case _ => None
  }

  ghost predicate Unlinked(s: State, i: Id)
    requires Is(s, i)
  {
    var a := s.reqs[i].past.winner;
    && a.Some? && a.value < |s.acts| && s.acts[a.value].Respond?
    && !s.acts[a.value].rp.Unlink?
  }

  ghost predicate ReqOk(s: State, i: Id)
    requires Is(s, i)
  {
    var r := s.reqs[i];
    && r.kind.Plain? && !r.flush && r.flushreq.None? && !r.past.suppressed
    && (i in Queue(s, r.tag) <==> !Unlinked(s, i))
    && (r.past.proc.None? ==> !r.past.handed && !r.responded)
    && (r.past.after.Some? ==>
        Is(s, r.past.after.value) && (r.past.proc.Some? ==> s.reqs[r.past.after.value].past.settled))
  }

  ghost predicate ActOk(s: State, a: nat)
    requires a < |s.acts| && Is(s, s.acts[a].req)
  {
    var i := s.acts[a].req;
    match s.acts[a]
    case Process(_, pp) => s.reqs[i].past.proc == Some(a) && (pp.Begin? || pp.Handle? || pp.Finish? || pp.Ended?)
    case Respond(_, rp) =>
      && s.reqs[i].past.proc.Some?
      && match rp
         case Claim => true
         case Unlink(fl) => !fl
         case Post(fl, n, f) => !fl && f.None? && Waits(s, i, n)
         case StartNext(n, f) => f.None? && Waits(s, i, n)
         case Loop(c, _) => c.None?
         case InLoop(_, _, _) => false
         case Closed => true
  }

  /** n was queued behind i, is now the oldest of its tag, and has not been started. */
  ghost predicate Waits(s: State, i: Id, n: Option<Id>) {
    n.Some? ==>
      && Is(s, n.value)
      && s.reqs[n.value].past.after == Some(i) && s.reqs[n.value].past.proc.None?
      && var q := Queue(s, s.reqs[n.value].tag); q != [] && q[|q| - 1] == n.value
  }

  /** A reply comes after the reply of the request it was queued behind. */
  ghost predicate InOrder(s: State, k: nat)
    requires k < |s.out|
  {
    var v := if Is(s, s.out[k]) then s.reqs[s.out[k]].past.after else None;
    v.Some? ==> v.value in s.out[..k]
  }

  ghost predicate Inv(s: State) {
    && Base(s)
    && (forall t :: QueueOk(s, t))
    && (forall i :: 0 <= i < |s.reqs| ==> ReqOk(s, i))
    && (forall a :: 0 <= a < |s.acts| ==> ActOk(s, a))
    && (forall k :: 0 <= k < |s.out| ==> InOrder(s, k))
  }

  /* ---- steps that leave the chains alone ---- */

  ghost predicate SameQueues(s: State, s': State) {
    && s'.queues == s.queues && s'.conn == s.conn && |s'.reqs| == |s.reqs|
    && (forall i :: 0 <= i < |s.reqs| ==> SameLink(s.reqs[i], s'.reqs[i]))
  }

  ghost predicate SameLink(r: Req, r': Req) {
    && r'.kind == r.kind && r'.tag == r.tag && r'.prev == r.prev && r'.next == r.next
    && r'.flush == r.flush && r'.flushreq == r.flushreq
    && r'.past.after == r.past.after && r'.past.proc == r.past.proc
  }

  /** Activation a advances for its request i. */
  ghost predicate Local(s: State, s': State, a: nat, i: Id)
    requires a < |s.acts|
  {
    && Is(s, i) && s.acts[a].req == i && SameQueues(s, s')
    && (forall j :: 0 <= j < |s.reqs| && j != i ==> s'.reqs[j] == s.reqs[j])
    && |s'.acts| == |s.acts|
    && (forall b :: 0 <= b < |s.acts| && b != a ==> s'.acts[b] == s.acts[b])
    && NextReq(s'.acts[a]) == NextReq(s.acts[a])
    && (s'.out == s.out || s'.out == s.out + [i])
  }

  lemma ReadyKept(s: State, s': State, a: nat, i: Id, l: Id)
    requires Base(s) && a < |s.acts| && Local(s, s', a, i) && Ready(s, l)
    requires s.reqs[i].responded ==> s'.reqs[i].past.winner == s.reqs[i].past.winner
    ensures Ready(s', l)
  {
    if s.reqs[l].past.proc.None? {
      assert BaseReq(s, s.reqs[l].past.after.value);
    }
  }

  lemma QueueKept(s: State, s': State, a: nat, i: Id, t: Tag)
    requires Base(s) && a < |s.acts| && Local(s, s', a, i) && QueueOk(s, t)
    requires s.reqs[i].responded ==> s'.reqs[i].past.winner == s.reqs[i].past.winner
    ensures QueueOk(s', t)
  {
    var q := Queue(s, t);
    if q != [] { ReadyKept(s, s', a, i, q[|q| - 1]); }
    forall k | 0 <= k < |q| ensures Is(s', q[k]) && Linked(s', t, q, k) {
      assert Linked(s, t, q, k);
    }
  }

  lemma OtherKept(s: State, s': State, a: nat, i: Id, j: Id)
    requires a < |s.acts| && Local(s, s', a, i) && Is(s, j) && j != i && ReqOk(s, j)
    requires s.reqs[j].past.winner.Some? ==>
               var w := s.reqs[j].past.winner.value; w < |s.acts| && s.acts[w].req == j
    requires s.reqs[i].past.settled ==> s'.reqs[i].past.settled
    ensures ReqOk(s', j)
  {
  }

  lemma KeepLocal(s: State, s': State, a: nat, i: Id)
    requires Inv(s) && Base(s') && a < |s.acts| && Local(s, s', a, i)
    requires s.reqs[i].responded ==> s'.reqs[i].past.winner == s.reqs[i].past.winner
    requires s.reqs[i].past.settled ==> s'.reqs[i].past.settled
    requires ReqOk(s', i) && ActOk(s', a)
    requires s'.out == s.out + [i] ==> InOrder(s', |s.out|)
    ensures Inv(s')
  {
    forall t ensures QueueOk(s', t) { QueueKept(s, s', a, i, t); }
    forall j | 0 <= j < |s'.reqs| ensures ReqOk(s', j) {
      if j != i {
        assert BaseReq(s, j);
        OtherKept(s, s', a, i, j);
      }
    }
    forall b | 0 <= b < |s'.acts| ensures ActOk(s', b) {
      if b != a { assert ActOk(s, b); }
    }
    OutKept(s, s', a, i);
  }

  lemma OutKept(s: State, s': State, a: nat, i: Id)
    requires Inv(s) && a < |s.acts| && Local(s, s', a, i)
    requires s'.out == s.out + [i] ==> InOrder(s', |s.out|)
    ensures forall k :: 0 <= k < |s'.out| ==> InOrder(s', k)
  {
    forall k | 0 <= k < |s'.out| ensures InOrder(s', k) {
      if k < |s.out| {
        assert InOrder(s, k) && SameLink(s.reqs[s.out[k]], s'.reqs[s.out[k]]);
        assert s'.out[..k] == s.out[..k];
      }
    }
  }

  /** A step of process: it rewrites its own request and moves on. */
  lemma KeepProcessTo(s: State, a: nat, i: Id, r: Req, pp: ProcPc)
    requires Inv(s) && a < |s.acts| && s.acts[a].Process? && s.acts[a].req == i && Is(s, i)
    requires SameLink(s.reqs[i], r) && SameOutcome(s.reqs[i], r) && (pp.Handle? || pp.Finish? || pp.Ended?)
    requires Base(Go(Set(s, i, r), a, Process(i, pp)))
    ensures Inv(Go(Set(s, i, r), a, Process(i, pp)))
  {
    var s' := Go(Set(s, i, r), a, Process(i, pp));
    assert ActOk(s, a) && ReqOk(s, i) && BaseReq(s, i);
    assert Local(s, s', a, i);
    assert Unlinked(s', i) <==> Unlinked(s, i);
    assert ReqOk(s', i);
    KeepLocal(s, s', a, i);
  }

  lemma KeepProcess(s: State, a: nat, flushOp: bool)
    requires Inv(s) && Enabled(s, Run(a, flushOp)) && s.acts[a].Process?
    requires Base(Advance(s, a, flushOp))
    ensures Inv(Advance(s, a, flushOp))
  {
    var i := s.acts[a].req;
    var r := s.reqs[i];
    assert ActOk(s, a) && ReqOk(s, i);
    if s.acts[a].pp.Begin? {
      KeepProcessTo(s, a, i, r.(work := true), Handle);
    } else if s.acts[a].pp.Handle? {
      KeepProcessTo(s, a, i, r.(past := r.past.(handed := true)), Finish);
    } else {
      KeepProcessTo(s, a, i, r.(work := false, saved := r.saved || !r.responded), Ended);
    }
  }

  lemma KeepClaim(s: State, a: nat, i: Id)
    requires Inv(s) && a < |s.acts| && s.acts[a] == Respond(i, Claim)
    requires Base(ClaimStep(s, a, i))
    ensures Inv(ClaimStep(s, a, i))
  {
    var s' := ClaimStep(s, a, i);
    assert ActOk(s, a) && ReqOk(s, i) && BaseReq(s, i);
    assert Local(s, s', a, i);
    assert ReqOk(s', i);
    KeepLocal(s, s', a, i);
  }

  lemma KeepPost(s: State, a: nat, i: Id, fl: bool, n: Option<Id>, f: Option<Id>)
    requires Inv(s) && a < |s.acts| && s.acts[a] == Respond(i, Post(fl, n, f))
    requires Base(PostStep(s, a, i, fl, n, f))
    ensures Inv(PostStep(s, a, i, fl, n, f))
  {
    var s' := PostStep(s, a, i, fl, n, f);
    assert ActOk(s, a) && ReqOk(s, i) && BaseAct(s, a);
    assert Local(s, s', a, i);
    assert ReqOk(s', i);
    var v := s.reqs[i].past.after;
    if v.Some? { assert BaseReq(s, v.value) && ReqOk(s, v.value); }
    assert s'.out[..|s.out|] == s.out;
    KeepLocal(s, s', a, i);
  }

  lemma KeepLoop(s: State, a: nat, i: Id, done: nat)
    requires Inv(s) && a < |s.acts| && s.acts[a] == Respond(i, Loop(None, done))
    requires Base(LoopStep(s, a, i, None, done))
    ensures Inv(LoopStep(s, a, i, None, done))
  {
    var s' := LoopStep(s, a, i, None, done);
    assert ActOk(s, a) && ReqOk(s, i) && BaseAct(s, a);
    assert Local(s, s', a, i);
    assert ReqOk(s', i);
    KeepLocal(s, s', a, i);
  }

  /* ---- steps that change the chains ---- */

  /** Activations keep what they hand on, requests are started at most, none is unanswered. */
  ghost predicate Grows(s: State, s': State) {
    && |s.reqs| <= |s'.reqs| && |s.acts| <= |s'.acts|
    && (forall j :: 0 <= j < |s.reqs| ==> Grown(s.reqs[j], s'.reqs[j]))
    && (forall b :: 0 <= b < |s.acts| ==> HandsOn(s, s', b))
  }

  ghost predicate Grown(r: Req, r': Req) {
    && r'.past.after == r.past.after
    && (r.past.proc.Some? ==> r'.past.proc.Some?)
    && (r.past.winner.Some? ==> r'.past.winner == r.past.winner)
  }

  ghost predicate HandsOn(s: State, s': State, b: nat)
    requires b < |s.acts|
  {
    match NextReq(s.acts[b])
    case None => true
    case Some(l) =>
      b < |s'.acts| && (NextReq(s'.acts[b]) == Some(l) || (Is(s', l) && s'.reqs[l].past.proc.Some?))
  }

  lemma ReadyGrows(s: State, s': State, l: Id)
    requires Grows(s, s') && Ready(s, l)
    ensures Ready(s', l)
  {
    assert Grown(s.reqs[l], s'.reqs[l]);
    if s.reqs[l].past.proc.None? {
      var i := s.reqs[l].past.after.value;
      assert Grown(s.reqs[i], s'.reqs[i]) && HandsOn(s, s', s.reqs[i].past.winner.value);
    }
  }

  /** A chain nobody touched. */
  lemma QueueFrame(s: State, s': State, t: Tag)
    requires QueueOk(s, t) && Grows(s, s')
    requires Queue(s', t) == Queue(s, t)
    requires t in s'.conn <==> t in s.conn
    requires t in s.conn ==> s'.conn[t] == s.conn[t]
    requires var q := Queue(s, t);
             forall k :: 0 <= k < |q| && Is(s, q[k]) && Linked(s, t, q, k) ==> Is(s', q[k]) && Linked(s', t, q, k)
    ensures QueueOk(s', t)
  {
    var q := Queue(s, t);
    if q != [] { ReadyGrows(s, s', q[|q| - 1]); }
    assert forall k :: 0 <= k < |q| ==> Is(s, q[k]) && Linked(s, t, q, k);
  }

  lemma KeepAnswer(s: State, i: Id)
    requires Inv(s) && Is(s, i) && s.reqs[i].past.handed
    requires Base(Spawn(s, Respond(i, Claim)))
    ensures Inv(Spawn(s, Respond(i, Claim)))
  {
    var s' := Spawn(s, Respond(i, Claim));
    assert ReqOk(s, i);
    assert Grows(s, s');
    forall t ensures QueueOk(s', t) {
      assert QueueOk(s, t);
      QueueFrame(s, s', t);
    }
    forall j | 0 <= j < |s'.reqs| ensures ReqOk(s', j) { assert ReqOk(s, j) && BaseReq(s, j); }
    forall b | 0 <= b < |s'.acts| ensures ActOk(s', b) {
      if b < |s.acts| { assert ActOk(s, b); }
    }
    forall k | 0 <= k < |s'.out| ensures InOrder(s', k) { assert InOrder(s, k); }
  }

  lemma KeepStartNext(s: State, a: nat, i: Id, n: Option<Id>)
    requires Inv(s) && a < |s.acts| && s.acts[a] == Respond(i, StartNext(n, None)) && Named(|s.reqs|, n)
    requires Base(StartNextStep(s, a, i, n, None))
    ensures Inv(StartNextStep(s, a, i, n, None))
  {
    var s' := StartNextStep(s, a, i, n, None);
    assert ActOk(s, a) && BaseAct(s, a) && BaseReq(s, i);
    forall t ensures QueueOk(s', t) {
      assert QueueOk(s, t);
      StartNextQueue(s, a, i, n, t);
    }
    forall j | 0 <= j < |s'.reqs| ensures ReqOk(s', j) {
      assert ReqOk(s, j) && BaseReq(s, j);
      if n.Some? && j == n.value { assert s'.reqs[i].past.settled; }
    }
    forall b | 0 <= b < |s'.acts| ensures ActOk(s', b) {
      if b < |s.acts| && b != a { StartNextOther(s, a, i, n, b); }
    }
    forall k | 0 <= k < |s'.out| ensures InOrder(s', k) { assert InOrder(s, k); }
  }

  lemma StartNextOther(s: State, a: nat, i: Id, n: Option<Id>, b: nat)
    requires Inv(s) && a < |s.acts| && s.acts[a] == Respond(i, StartNext(n, None)) && Named(|s.reqs|, n)
    requires b < |s.acts| && b != a
    ensures Is(StartNextStep(s, a, i, n, None), s.acts[b].req) && ActOk(StartNextStep(s, a, i, n, None), b)
  {
    assert ActOk(s, a) && ActOk(s, b) && BaseAct(s, a) && BaseAct(s, b);
  }

  lemma StartNextQueue(s: State, a: nat, i: Id, n: Option<Id>, t: Tag)
    requires Typed(s) && a < |s.acts| && s.acts[a] == Respond(i, StartNext(n, None)) && Named(|s.reqs|, n) && Is(s, i)
    requires ActOk(s, a) && QueueOk(s, t)
    ensures QueueOk(StartNextStep(s, a, i, n, None), t)
  {
    var s' := StartNextStep(s, a, i, n, None);
    var q := Queue(s, t);
    assert Grows(s, s');
    forall k | 0 <= k < |q| && Is(s, q[k]) && Linked(s, t, q, k) ensures Linked(s', t, q, k) {
      if n.Some? && q[k] == n.value { assert s.reqs[n.value].tag == t; }
    }
    QueueFrame(s, s', t);
  }

  lemma {:induction false} WithoutLast(q: seq<Id>)
    requires q != [] && forall j, k :: 0 <= j < k < |q| ==> q[j] > q[k]
    ensures Without(q, q[|q| - 1]) == q[..|q| - 1]
  {
    if |q| == 1 {
      assert Without(q[1..], q[0]) == [];
    } else {
      WithoutLast(q[1..]);
      assert q[..|q| - 1] == [q[0]] + q[1..][..|q| - 2];
    }
  }

  /** An answered request that is still chained is the oldest of its tag. */
  lemma AnsweredIsOldest(s: State, i: Id)
    requires Inv(s) && Is(s, i) && s.reqs[i].past.proc.Some? && !Unlinked(s, i)
    ensures var q := Queue(s, s.reqs[i].tag); q != [] && q[|q| - 1] == i
  {
    assert ReqOk(s, i);
    var q := Queue(s, s.reqs[i].tag);
    assert QueueOk(s, s.reqs[i].tag);
    var k :| 0 <= k < |q| && q[k] == i;
    assert Linked(s, s.reqs[i].tag, q, k);
  }

  lemma UnlinkPlace(s: State, a: nat, i: Id, fl: bool)
    requires Inv(s) && a < |s.acts| && s.acts[a] == Respond(i, Unlink(fl))
    ensures !fl && QueueOk(s, s.reqs[i].tag) && s.reqs[i].past.winner == Some(a) && s.reqs[i].flushreq.None?
    ensures var q := Queue(s, s.reqs[i].tag);
            q != [] && q[|q| - 1] == i && s.reqs[i].prev == At(q, |q| - 2)
  {
    var q := Queue(s, s.reqs[i].tag);
    assert ActOk(s, a) && ReqOk(s, i) && BaseAct(s, a) && QueueOk(s, s.reqs[i].tag);
    AnsweredIsOldest(s, i);
    assert Linked(s, s.reqs[i].tag, q, |q| - 1);
  }

  /** What the step does to the chain of its tag. */
  ghost predicate Oldest(s: State, a: nat, i: Id)
    requires Is(s, i)
  {
    var q := Queue(s, s.reqs[i].tag);
    && QueueOk(s, s.reqs[i].tag) && s.reqs[i].past.winner == Some(a) && s.reqs[i].flushreq.None?
    && q != [] && q[|q| - 1] == i && s.reqs[i].prev == At(q, |q| - 2)
  }

  /** The step, when nothing is flushed: the oldest leaves, the one behind it becomes the oldest. */
  ghost predicate Unlinks(s: State, s': State, a: nat, i: Id, fl: bool)
    requires Is(s, i) && a < |s.acts|
  {
    var t := s.reqs[i].tag;
    var q := Queue(s, t);
    var n := s.reqs[i].prev;
    && q != [] && s'.out == s.out
    && (forall u :: Queue(s', u) == if u == t then q[..|q| - 1] else Queue(s, u))
    && s'.conn == (if n.None? then s.conn - {t} else s.conn)
    && s'.acts == s.acts[a := Respond(i, Post(fl, n, None))]
    && |s'.reqs| == |s.reqs|
    && (forall j :: 0 <= j < |s.reqs| ==> s'.reqs[j] == if n == Some(j) then s.reqs[j].(next := None) else s.reqs[j])
  }

  lemma UnlinkShape(s: State, a: nat, i: Id, fl: bool)
    requires Typed(s) && a < |s.acts| && s.acts[a] == Respond(i, Unlink(fl)) && Is(s, i) && Oldest(s, a, i)
    ensures Unlinks(s, UnlinkStep(s, a, i, fl), a, i, fl)
  {
    WithoutLast(Queue(s, s.reqs[i].tag));
  }

  lemma UnlinkQueue(s: State, s': State, a: nat, i: Id, fl: bool)
    requires a < |s.acts| && s.acts[a] == Respond(i, Unlink(fl)) && Is(s, i) && Oldest(s, a, i)
    requires Unlinks(s, s', a, i, fl)
    ensures QueueOk(s', s.reqs[i].tag)
  {
    var t := s.reqs[i].tag;
    var q := Queue(s, t);
    var q' := Queue(s', t);
    assert Linked(s, t, q, |q| - 1);
    if |q| > 1 {
      assert Linked(s, t, q, |q| - 2);
      forall k | 0 <= k < |q'| ensures Is(s', q'[k]) && Linked(s', t, q', k) {
        assert Linked(s, t, q, k);
      }
      assert Ready(s', q'[|q'| - 1]);
    }
  }

  lemma UnlinkGrows(s: State, s': State, a: nat, i: Id, fl: bool)
    requires a < |s.acts| && s.acts[a] == Respond(i, Unlink(fl)) && Is(s, i) && Unlinks(s, s', a, i, fl)
    ensures Grows(s, s')
  {
  }

  lemma UnlinkOther(s: State, s': State, a: nat, i: Id, fl: bool, t: Tag)
    requires a < |s.acts| && s.acts[a] == Respond(i, Unlink(fl)) && Is(s, i) && Oldest(s, a, i)
    requires Unlinks(s, s', a, i, fl)
    requires QueueOk(s, t) && t != s.reqs[i].tag
    ensures QueueOk(s', t)
  {
    var p := Queue(s, s.reqs[i].tag);
    if |p| > 1 { assert Linked(s, s.reqs[i].tag, p, |p| - 2); }
    UnlinkGrows(s, s', a, i, fl);
    var q := Queue(s, t);
    forall k | 0 <= k < |q| && Is(s, q[k]) && Linked(s, t, q, k) ensures Linked(s', t, q, k) {
      assert s.reqs[i].prev != Some(q[k]);
    }
    QueueFrame(s, s', t);
  }

  lemma UnlinkReq(s: State, s': State, a: nat, i: Id, fl: bool, j: Id)
    requires a < |s.acts| && s.acts[a] == Respond(i, Unlink(fl)) && Is(s, i) && Oldest(s, a, i)
    requires Unlinks(s, s', a, i, fl)
    requires Is(s, j) && ReqOk(s, j)
    requires s.reqs[j].past.winner.Some? ==>
               var w := s.reqs[j].past.winner.value; w < |s.acts| && s.acts[w].req == j
    ensures ReqOk(s', j)
  {
    var q := Queue(s, s.reqs[i].tag);
    if j != i {
      assert j in q <==> j in q[..|q| - 1];
    } else {
      assert i !in q[..|q| - 1];
    }
  }

  lemma UnlinkWaits(s: State, s': State, a: nat, i: Id, fl: bool, j: Id, n: Option<Id>)
    requires a < |s.acts| && Is(s, i) && Unlinks(s, s', a, i, fl)
    requires var q := Queue(s, s.reqs[i].tag); q != [] && q[|q| - 1] == i
    requires s.reqs[i].past.proc.Some? && Waits(s, j, n)
    ensures Waits(s', j, n)
  {
    if n.Some? {
      assert s.reqs[n.value].tag != s.reqs[i].tag;
      assert s'.reqs[n.value].past == s.reqs[n.value].past;
    }
  }

  /** The request behind the oldest now waits for it. */
  lemma UnlinkHandsOn(s: State, s': State, a: nat, i: Id, fl: bool)
    requires a < |s.acts| && Is(s, i) && Oldest(s, a, i) && Unlinks(s, s', a, i, fl)
    ensures Waits(s', i, s.reqs[i].prev)
  {
    var q := Queue(s, s.reqs[i].tag);
    if |q| > 1 { assert Linked(s, s.reqs[i].tag, q, |q| - 2); }
  }

  lemma UnlinkAct(s: State, s': State, a: nat, i: Id, fl: bool, b: nat)
    requires a < |s.acts| && s.acts[a] == Respond(i, Unlink(fl)) && Is(s, i) && Oldest(s, a, i)
    requires Unlinks(s, s', a, i, fl)
    requires b < |s.acts| && Is(s, s.acts[b].req) && ActOk(s, b)
    requires s.reqs[i].past.proc.Some?
    ensures ActOk(s', b)
  {
    if b == a {
      UnlinkHandsOn(s, s', a, i, fl);
    } else {
      UnlinkWaits(s, s', a, i, fl, s.acts[b].req, NextReq(s.acts[b]));
    }
  }

  lemma KeepUnlink(s: State, a: nat, i: Id, fl: bool)
    requires Inv(s) && a < |s.acts| && s.acts[a] == Respond(i, Unlink(fl))
    requires Base(UnlinkStep(s, a, i, fl))
    ensures Inv(UnlinkStep(s, a, i, fl))
  {
    var s' := UnlinkStep(s, a, i, fl);
    UnlinkPlace(s, a, i, fl);
    UnlinkShape(s, a, i, fl);
    assert ActOk(s, a);
    forall t ensures QueueOk(s', t) {
      assert QueueOk(s, t);
      if t == s.reqs[i].tag { UnlinkQueue(s, s', a, i, fl); } else { UnlinkOther(s, s', a, i, fl, t); }
    }
    forall j | 0 <= j < |s'.reqs| ensures ReqOk(s', j) {
      assert ReqOk(s, j) && BaseReq(s, j);
      UnlinkReq(s, s', a, i, fl, j);
    }
    forall b | 0 <= b < |s'.acts| ensures ActOk(s', b) {
      assert ActOk(s, b);
      UnlinkAct(s, s', a, i, fl, b);
    }
    forall k | 0 <= k < |s'.out| ensures InOrder(s', k) { assert InOrder(s, k); }
  }

  /** What recv does to the chain of a tag. */
  ghost predicate Receives(s: State, s': State, tag: Tag) {
    var n := |s.reqs|;
    var o := Lookup(s.conn, tag);
    && s'.out == s.out && s'.conn == s.conn[tag := n]
    && (forall u :: Queue(s', u) == if u == tag then [n] + Queue(s, u) else Queue(s, u))
    && |s'.reqs| == n + 1
    && (forall j :: 0 <= j < n ==> s'.reqs[j] == if o == Some(j) then s.reqs[j].(prev := Some(n)) else s.reqs[j])
    && var r := NewReq(tag, Plain, o);
       if o.Some? then s'.reqs[n] == r && s'.acts == s.acts
       else s'.reqs[n] == r.(past := r.past.(proc := Some(|s.acts|))) && s'.acts == s.acts + [Process(n, Begin)]
  }

  lemma RecvShape(s: State, tag: Tag)
    requires Typed(s)
    ensures Receives(s, Receive(s, tag, Plain), tag)
  {
  }

  lemma RecvGrows(s: State, s': State, tag: Tag)
    requires Receives(s, s', tag)
    ensures Grows(s, s')
  {
  }

  lemma RecvLinks(s: State, s': State, tag: Tag, k: nat)
    requires Receives(s, s', tag) && QueueOk(s, tag) && k <= |Queue(s, tag)|
    ensures var q' := Queue(s', tag); k < |q'| && Is(s', q'[k]) && Linked(s', tag, q', k)
  {
    var q := Queue(s, tag);
    var q' := Queue(s', tag);
    assert q' == [|s.reqs|] + q;
    if q != [] { assert Linked(s, tag, q, 0); }
    if k > 0 {
      assert Linked(s, tag, q, k - 1);
      assert At(q', k + 1) == At(q, k) && q'[k] == q[k - 1];
      assert Lookup(s.conn, tag) == Some(q[0]);
      if k > 1 { assert q[k - 1] != q[0] && At(q', k - 1) == At(q, k - 2); }
    }
  }

  lemma RecvQueue(s: State, s': State, tag: Tag)
    requires Receives(s, s', tag) && QueueOk(s, tag)
    ensures QueueOk(s', tag)
  {
    var q := Queue(s, tag);
    var q' := Queue(s', tag);
    RecvGrows(s, s', tag);
    if q != [] { ReadyGrows(s, s', q[|q| - 1]); }
    forall k | 0 <= k < |q'| ensures Is(s', q'[k]) && Linked(s', tag, q', k) {
      RecvLinks(s, s', tag, k);
    }
  }

  lemma RecvOther(s: State, s': State, tag: Tag, t: Tag)
    requires Receives(s, s', tag) && QueueOk(s, tag) && QueueOk(s, t) && t != tag
    ensures QueueOk(s', t)
  {
    var p := Queue(s, tag);
    if p != [] { assert Linked(s, tag, p, 0); }
    RecvGrows(s, s', tag);
    var q := Queue(s, t);
    forall k | 0 <= k < |q| && Is(s, q[k]) && Linked(s, t, q, k) ensures Linked(s', t, q, k) {
      assert Lookup(s.conn, tag) != Some(q[k]);
    }
    QueueFrame(s, s', t);
  }

  lemma RecvReq(s: State, s': State, tag: Tag, j: Id)
    requires Receives(s, s', tag) && Is(s, j) && ReqOk(s, j)
    requires s.reqs[j].past.winner.Some? ==> s.reqs[j].past.winner.value < |s.acts|
    ensures ReqOk(s', j)
  {
    assert j in Queue(s', s.reqs[j].tag) <==> j in Queue(s, s.reqs[j].tag);
    assert Unlinked(s', j) <==> Unlinked(s, j);
  }

  lemma RecvNew(s: State, s': State, tag: Tag)
    requires Receives(s, s', tag) && QueueOk(s, tag)
    ensures ReqOk(s', |s.reqs|)
  {
    assert Queue(s', tag)[0] == |s.reqs|;
  }

  lemma RecvAct(s: State, s': State, tag: Tag, b: nat)
    requires Receives(s, s', tag) && QueueOk(s, tag)
    requires b < |s.acts| && Is(s, s.acts[b].req) && ActOk(s, b)
    ensures ActOk(s', b)
  {
    assert s'.acts[b] == s.acts[b];
    assert s'.reqs[s.acts[b].req].past == s.reqs[s.acts[b].req].past;
    RecvWaits(s, s', tag, s.acts[b].req, NextReq(s.acts[b]));
  }

  lemma RecvWaits(s: State, s': State, tag: Tag, i: Id, n: Option<Id>)
    requires Receives(s, s', tag) && Waits(s, i, n)
    ensures Waits(s', i, n)
  {
    if n.Some? {
      var q := Queue(s, s.reqs[n.value].tag);
      var q' := Queue(s', s.reqs[n.value].tag);
      assert q'[|q'| - 1] == q[|q| - 1];
    }
  }

  lemma KeepRecv(s: State, tag: Tag)
    requires Inv(s) && Base(Receive(s, tag, Plain))
    ensures Inv(Receive(s, tag, Plain))
  {
    var s' := Receive(s, tag, Plain);
    assert QueueOk(s, tag);
    RecvShape(s, tag);
    forall t ensures QueueOk(s', t) {
      assert QueueOk(s, t);
      if t == tag { RecvQueue(s, s', tag); } else { RecvOther(s, s', tag, t); }
    }
    forall j | 0 <= j < |s'.reqs| ensures ReqOk(s', j) {
      if j < |s.reqs| {
        assert BaseReq(s, j);
        RecvReq(s, s', tag, j);
      } else {
        RecvNew(s, s', tag);
      }
    }
    forall b | 0 <= b < |s'.acts| ensures ActOk(s', b) {
      if b < |s.acts| { RecvAct(s, s', tag, b); }
    }
    forall k | 0 <= k < |s'.out| ensures InOrder(s', k) { assert InOrder(s, k); }
  }

  lemma KeepStep(s: State, step: Step)
    requires Inv(s) && Enabled(s, step) && Allowed(QueueClient, s, step)
    ensures Inv(Apply(s, step))
  {
    BaseStep(s, step);
    if step.Recv? {
      KeepRecv(s, step.tag);
    } else if step.Answer? {
      KeepAnswer(s, step.i);
    } else if s.acts[step.a].Process? {
      KeepProcess(s, step.a, step.flushOp);
    } else {
      KeepRespond(s, step.a, step.flushOp);
    }
  }

  lemma KeepRespond(s: State, a: nat, flushOp: bool)
    requires Inv(s) && Enabled(s, Run(a, flushOp)) && s.acts[a].Respond?
    requires Base(Advance(s, a, flushOp))
    ensures Inv(Advance(s, a, flushOp))
  {
    var i := s.acts[a].req;
    var rp := s.acts[a].rp;
    assert ActOk(s, a);
    if rp.Claim? {
      KeepClaim(s, a, i);
    } else if rp.Unlink? {
      KeepUnlink(s, a, i, rp.flushed);
    } else if rp.Post? {
      KeepPost(s, a, i, rp.flushed, rp.nextreq, rp.flushreqs);
    } else if rp.StartNext? {
      KeepStartNext(s, a, i, rp.nextreq);
    } else {
      KeepLoop(s, a, i, rp.done);
    }
  }

  lemma {:induction false} InvRun(run: seq<State>)
    requires Reachable(QueueClient, run)
    ensures Inv(Last(run))
    decreases |run|
  {
    if |run| > 1 {
      var was := run[..|run| - 1];
      Before(QueueClient, run);
      InvRun(was);
      var step :| Move(QueueClient, Last(was), step, Last(run));
      KeepStep(Last(was), step);
    }
  }

  /* ---- what the queue of a tag promises ---- */

  /** A request queued behind another is started only once the older reply is on reqout. */
  lemma StartedAfterOlderReply(run: seq<State>, i: Id, j: Id)
    requires Reachable(QueueClient, run) && Is(Last(run), j)
    requires Last(run).reqs[j].past.after == Some(i) && Last(run).reqs[j].past.proc.Some?
    ensures i in Last(run).out
  {
    InvRun(run);
    var s := Last(run);
    assert ReqOk(s, j) && ReqOk(s, i) && BaseReq(s, i);
  }

  /** Replies leave in the order in which the requests were queued behind each other. */
  lemma RepliesInOrder(run: seq<State>, k: nat)
    requires Reachable(QueueClient, run) && k < |Last(run).out| && Is(Last(run), Last(run).out[k])
    ensures var i := Last(run).reqs[Last(run).out[k]].past.after;
            i.Some? ==> i.value in Last(run).out[..k]
  {
    InvRun(run);
    assert InOrder(Last(run), k);
  }

  /** The chain of a tag is well formed, and its unstarted members are the non-oldest ones. */
  lemma ChainOfTag(run: seq<State>, t: Tag)
    requires Reachable(QueueClient, run)
    ensures var s := Last(run);
            var q := Queue(s, t);
            && (t in s.conn <==> q != []) && (q != [] ==> s.conn[t] == q[0])
            && forall k :: 0 <= k < |q| ==> MemberOfChain(s, t, q, k)
  {
    InvRun(run);
    var s := Last(run);
    assert QueueOk(s, t);
    var q := Queue(s, t);
    forall k | 0 <= k < |q| ensures MemberOfChain(s, t, q, k) {
      assert Linked(s, t, q, k) && ReqOk(s, q[k]) && BaseReq(s, q[k]);
    }
  }

  /** Member k links to its neighbours; unless it is the oldest it is neither started nor answered. */
  ghost predicate MemberOfChain(s: State, t: Tag, q: seq<Id>, k: nat)
    requires k < |q|
  {
    && Is(s, q[k])
    && var r := s.reqs[q[k]];
       && r.tag == t && r.next == At(q, k + 1) && r.prev == At(q, k - 1) && q[k] !in s.out
       && (k < |q| - 1 ==> r.past.proc.None? && !r.past.handed && !r.responded)
  }

  /** At rest the oldest request of every tag has been started: none waits for a goroutine that is gone. */
  lemma OldestIsStarted(run: seq<State>, t: Tag)
    requires Reachable(QueueClient, run) && t in Last(run).conn
    requires forall a :: 0 <= a < |Last(run).acts| ==> Last(run).acts[a].Over()
    ensures var q := Queue(Last(run), t);
            q != [] && Is(Last(run), q[|q| - 1]) && Last(run).reqs[q[|q| - 1]].past.proc.Some?
  {
    InvRun(run);
    var s := Last(run);
    assert QueueOk(s, t);
    var q := Queue(s, t);
    var l := q[|q| - 1];
    assert forall a :: 0 <= a < |s.acts| ==> NextReq(s.acts[a]).None?;
    assert !HandedOn(s, l);
  }
}
