/**
 The flush protocol of flush(5): what the engine keeps when the client never reuses an outstanding
 tag and flushes ordinary requests only.
 */
module FlushProtocol {
  import opened Common
  import opened Engine

  function At(q: seq<Id>, k: nat): Option<Id> {
    if k < |q| then Some(q[k]) else None
  }

  ghost predicate InConn(s: State, i: Id)
    requires Is(s, i)
  {
    s.reqs[i].tag in s.conn && s.conn[s.reqs[i].tag] == i
  }

  ghost predicate Settled(s: State, v: Id) { Is(s, v) && s.reqs[v].past.settled }

  ghost predicate HasResponded(s: State, v: Id) { Is(s, v) && s.reqs[v].responded }

  /** Tflush f found request v. */
  ghost predicate Flushes(s: State, f: Id, v: Id) {
    && Is(s, f) && Is(s, v)
    && s.reqs[f].kind.Tflush? && s.reqs[f].past.victim == Some(v)
    && s.reqs[v].kind.Plain?
  }

  ghost predicate Inv(s: State) {
    && Base(s)
    && (forall t :: t in s.conn ==> s.reqs[s.conn[t]].tag == t)
    && (forall i :: 0 <= i < |s.reqs| ==> FlatReq(s, i) && Chain(s, i) && Progress(s, i))
    && (forall a :: 0 <= a < |s.acts| ==> ActOk(s, a))
    && (forall k :: 0 <= k < |s.out| ==> InOrder(s, k))
  }

  ghost predicate FlatReq(s: State, i: Id)
    requires Is(s, i)
  {
    var r := s.reqs[i];
    && r.prev.None? && r.next.None?
    && (!r.responded ==> InConn(s, i))
    && (r.kind.Tflush? ==> !r.flush && r.past.flushers == [] && (r.past.victim.None? ==> r.flushreq.None?))
    && (r.kind.Plain? ==> r.past.victim.None?)
    && (r.past.victim.Some? ==>
        r.past.handed && Flushes(s, i, r.past.victim.value) && i in s.reqs[r.past.victim.value].past.flushers)
    && (r.flush || r.past.suppressed ==> r.past.flushers != [])
  }

  /** The flushes of a request are exactly the list its flushreq heads. */
  ghost predicate Chain(s: State, i: Id)
    requires Is(s, i)
  {
    var q := s.reqs[i].past.flushers;
    && (s.reqs[i].kind.Plain? ==> s.reqs[i].flushreq == At(q, 0))
    && Distinct(q)
    && forall k :: 0 <= k < |q| ==> Flushes(s, q[k], i) && s.reqs[q[k]].flushreq == At(q, k + 1)
  }

  ghost predicate FirstResponded(s: State, q: seq<Id>, n: nat) {
    forall k :: 0 <= k < n && k < |q| ==> HasResponded(s, q[k])
  }

  /** The activation that answers a request. */
  function Winner(s: State, i: Id): Option<RespPc>
    requires Is(s, i)
  {
    var w := s.reqs[i].past.winner;
    if w.Some? && w.value < |s.acts| && s.acts[w.value].Respond? then Some(s.acts[w.value].rp) else None
  }

  /** Where the activation that answers a request stands with the flushes of that request. */
  ghost predicate Progress(s: State, i: Id)
    requires Is(s, i)
  {
    var r := s.reqs[i];
    var q := r.past.flushers;
    match Winner(s, i)
    case None => true
    case Some(rp) =>
      && (InConn(s, i) <==> rp.Claim? || rp.Unlink?)
      && match rp
         case Claim => true
         case Unlink(fl) => fl ==> q != []
         case Post(fl, n, f) => n.None? && f == r.flushreq && (fl ==> q != [])
         case StartNext(n, f) => n.None? && f == r.flushreq
         case Loop(cur, done) =>
           r.kind.Plain? ==> done <= |q| && cur == At(q, done) && FirstResponded(s, q, done)
         case InLoop(cur, done, call) =>
           r.kind.Plain? ==>
             && done < |q| && cur == At(q, done) && FirstResponded(s, q, done)
             && call < |s.acts| && s.acts[call].req == q[done]
         case Closed => r.kind.Plain? ==> FirstResponded(s, q, |q|)
  }

  /** A flush is answered only after its victim's reply was sent or dropped. */
  ghost predicate MayAnswer(s: State, f: Id)
    requires Is(s, f)
  {
    s.reqs[f].kind.Tflush? ==>
      && s.reqs[f].past.handed
      && (s.reqs[f].past.victim.Some? ==> Settled(s, s.reqs[f].past.victim.value))
  }

  /** g waits for the same request that i is, or flushes. */
  ghost predicate Behind(s: State, i: Id, g: Option<Id>)
    requires Is(s, i)
  {
    g.Some? ==>
      var v := if s.reqs[i].kind.Plain? then Some(i) else s.reqs[i].past.victim;
      v.Some? && Flushes(s, g.value, v.value)
  }

  ghost predicate ActOk(s: State, a: nat)
    requires a < |s.acts| && Is(s, s.acts[a].req)
  {
    var i := s.acts[a].req;
    match s.acts[a]
    case Process(_, pp) =>
      && s.reqs[i].past.proc == Some(a)
      && (pp.Begin? || pp.Flushed? || pp.Handle? ==> !s.reqs[i].past.handed)
      && (pp.Flushed? ==> s.reqs[i].kind.Plain?)
      && (pp.Judge? ==> Flushes(s, i, pp.victim))
      && (pp.AskServer? ==> Flushes(s, i, pp.victim))
    case Respond(_, rp) =>
      && MayAnswer(s, i)
      && match rp
         case Post(_, _, f) => Behind(s, i, f)
         case StartNext(_, f) => Behind(s, i, f)
         case Loop(c, _) => Behind(s, i, c)
         case InLoop(c, _, _) => Behind(s, i, c)
         case _ => true
  }

  /** An Rflush on reqout comes after the reply of its victim, unless that was dropped. */
  ghost predicate InOrder(s: State, k: nat)
    requires k < |s.out|
  {
    var v := if Is(s, s.out[k]) then s.reqs[s.out[k]].past.victim else None;
    v.Some? ==> v.value in s.out[..k] || (Is(s, v.value) && s.reqs[v.value].past.suppressed)
  }

  /** Nothing the flush chains are made of changes; requests may be added, answered and settled. */
  ghost predicate SameLinks(reqs: seq<Req>, reqs': seq<Req>) {
    && |reqs| <= |reqs'|
    && (forall i :: 0 <= i < |reqs| ==> SameLink(reqs[i], reqs'[i]))
    && (forall i :: |reqs| <= i < |reqs'| ==> Blank(reqs'[i]))
  }

  ghost predicate SameLink(r: Req, r': Req) {
    && r'.kind == r.kind && r'.tag == r.tag && r'.flushreq == r.flushreq && r'.flush == r.flush
    && r'.prev == r.prev && r'.next == r.next
    && r'.past.flushers == r.past.flushers && r'.past.victim == r.past.victim
    && r'.past.handed == r.past.handed
    && Onward(r, r')
  }

  ghost predicate Onward(r: Req, r': Req) {
    && (r.responded ==> r'.responded) && (r.past.settled ==> r'.past.settled)
    && (r.past.suppressed ==> r'.past.suppressed)
  }

  ghost predicate Blank(r: Req) {
    && r.flushreq.None? && r.prev.None? && r.next.None? && !r.flush
    && r.past.flushers == [] && r.past.victim.None? && !r.past.handed && !r.past.suppressed
  }

  lemma ChainsKept(s: State, s': State)
    requires SameLinks(s.reqs, s'.reqs)
    requires forall i :: 0 <= i < |s.reqs| ==> Chain(s, i)
    ensures forall i :: 0 <= i < |s'.reqs| ==> Chain(s', i)
  {
    forall i | 0 <= i < |s'.reqs| ensures Chain(s', i) {
      if i < |s.reqs| { assert Chain(s, i); }
    }
  }

  lemma ActKept(s: State, s': State, a: nat)
    requires SameLinks(s.reqs, s'.reqs)
    requires a < |s.acts| && a < |s'.acts| && s'.acts[a] == s.acts[a] && Is(s, s.acts[a].req)
    requires forall i :: 0 <= i < |s.reqs| && s.reqs[i].past.proc.Some? ==> s'.reqs[i].past.proc == s.reqs[i].past.proc
    requires ActOk(s, a)
    ensures ActOk(s', a)
  {
  }

  /** A request that was there keeps its place when another comes in. */
  lemma RecvKept(s: State, s': State, j: Id)
    requires Is(s, j) && |s.reqs| <= |s'.reqs| && (forall i :: 0 <= i < |s.reqs| ==> s'.reqs[i] == s.reqs[i])
    requires |s.acts| <= |s'.acts| && (forall b :: 0 <= b < |s.acts| ==> s'.acts[b] == s.acts[b])
    requires forall t :: t in s.conn ==> t in s'.conn && s'.conn[t] == s.conn[t]
    requires forall t :: t in s'.conn && t !in s.conn ==> s'.conn[t] >= |s.reqs|
    requires s.reqs[j].past.winner.Some? ==> s.reqs[j].past.winner.value < |s.acts|
    requires FlatReq(s, j) && Progress(s, j)
    ensures FlatReq(s', j) && Progress(s', j)
  {
    assert Winner(s', j) == Winner(s, j);
    assert InConn(s', j) <==> InConn(s, j);
  }

  lemma RecvReqs(s: State, tag: Tag, kind: Kind)
    requires Inv(s) && tag !in s.conn
    ensures var s' := Receive(s, tag, kind); forall i :: 0 <= i < |s'.reqs| ==> FlatReq(s', i) && Progress(s', i)
  {
    var s' := Receive(s, tag, kind);
    var n := |s.reqs|;
    assert Blank(s'.reqs[n]) && s'.reqs[n].past.winner.None?;
    forall i | 0 <= i < |s'.reqs| ensures FlatReq(s', i) && Progress(s', i) {
      if i < n {
        assert FlatReq(s, i) && Progress(s, i) && BaseReq(s, i);
        RecvKept(s, s', i);
      }
    }
  }

  lemma KeepRecv(s: State, tag: Tag, kind: Kind)
    requires Inv(s) && tag !in s.conn
    requires Base(Receive(s, tag, kind))
    ensures Inv(Receive(s, tag, kind))
  {
    var s' := Receive(s, tag, kind);
    assert forall i :: 0 <= i < |s.reqs| ==> s'.reqs[i] == s.reqs[i];
    assert Blank(s'.reqs[|s.reqs|]);
    assert SameLinks(s.reqs, s'.reqs);
    ChainsKept(s, s');
    RecvReqs(s, tag, kind);
    forall a | 0 <= a < |s'.acts| ensures ActOk(s', a) {
      if a < |s.acts| { ActKept(s, s', a); }
    }
    forall k | 0 <= k < |s'.out| ensures InOrder(s', k) { assert InOrder(s, k); }
  }

  /** The step of activation a, for request i, leaves the links and all else alone. */
  ghost predicate Local(s: State, s': State, a: nat, i: Id)
    requires a < |s.acts|
  {
    && Is(s, i) && s.acts[a].req == i
    && SameLinks(s.reqs, s'.reqs) && |s'.reqs| == |s.reqs|
    && (forall j :: 0 <= j < |s.reqs| && j != i ==> s'.reqs[j] == s.reqs[j])
    && s'.reqs[i].past.proc == s.reqs[i].past.proc
    && |s.acts| <= |s'.acts| && s'.acts[a].req == i
    && (forall b :: 0 <= b < |s.acts| && b != a ==> s'.acts[b] == s.acts[b])
    && (forall t :: t in s'.conn ==> t in s.conn && s'.conn[t] == s.conn[t])
    && (forall t :: t in s.conn && s.conn[t] != i ==> t in s'.conn)
    && (s'.out == s.out || s'.out == s.out + [i])
  }

  /** A request the step is not for keeps its place. */
  lemma OtherKept(s: State, s': State, a: nat, i: Id, j: Id)
    requires a < |s.acts| && Local(s, s', a, i) && Is(s, j) && j != i
    requires FlatReq(s, j) && Progress(s, j)
    requires s.reqs[j].past.winner.Some? ==>
               var w := s.reqs[j].past.winner.value; w < |s.acts| && s.acts[w].req == j
    requires s.reqs[j].past.victim.Some? ==> Is(s', s.reqs[j].past.victim.value)
    ensures FlatReq(s', j) && Progress(s', j)
  {
    assert InConn(s', j) <==> InConn(s, j);
    assert Winner(s', j) == Winner(s, j);
  }

  lemma LocalReqs(s: State, s': State, a: nat, i: Id)
    requires Inv(s) && a < |s.acts| && Local(s, s', a, i)
    requires FlatReq(s', i) && Progress(s', i)
    ensures forall j :: 0 <= j < |s'.reqs| ==> FlatReq(s', j) && Progress(s', j)
  {
    forall j | 0 <= j < |s'.reqs| ensures FlatReq(s', j) && Progress(s', j) {
      if j != i {
        assert FlatReq(s, j) && Progress(s, j) && BaseReq(s, j);
        OtherKept(s, s', a, i, j);
      }
    }
  }

  lemma LocalOut(s: State, s': State, a: nat, i: Id)
    requires Inv(s) && a < |s.acts| && Local(s, s', a, i)
    requires s'.out == s.out + [i] ==> InOrder(s', |s.out|)
    ensures forall k :: 0 <= k < |s'.out| ==> InOrder(s', k)
  {
    forall k | 0 <= k < |s'.out| ensures InOrder(s', k) {
      if k < |s.out| {
        assert InOrder(s, k);
        assert s'.out[..k] == s.out[..k];
      }
    }
  }

  lemma KeepLocal(s: State, s': State, a: nat, i: Id)
    requires Inv(s) && Base(s') && a < |s.acts| && Local(s, s', a, i)
    requires FlatReq(s', i) && Progress(s', i)
    requires ActOk(s', a)
    requires forall b :: |s.acts| <= b < |s'.acts| ==> ActOk(s', b)
    requires s'.out == s.out + [i] ==> InOrder(s', |s.out|)
    ensures Inv(s')
  {
    ChainsKept(s, s');
    LocalReqs(s, s', a, i);
    LocalOut(s, s', a, i);
    forall b | 0 <= b < |s'.acts| ensures ActOk(s', b) {
      if b < |s.acts| && b != a { ActKept(s, s', b); }
    }
    forall t | t in s'.conn ensures s'.reqs[s'.conn[t]].tag == t {
      assert SameLink(s.reqs[s.conn[t]], s'.reqs[s.conn[t]]);
    }
  }

  lemma KeepAnswer(s: State, i: Id)
    requires Inv(s) && Is(s, i) && s.reqs[i].kind.Plain?
    requires Base(Spawn(s, Respond(i, Claim)))
    ensures Inv(Spawn(s, Respond(i, Claim)))
  {
    var s' := Spawn(s, Respond(i, Claim));
    ChainsKept(s, s');
    forall j | 0 <= j < |s'.reqs| ensures FlatReq(s', j) && Progress(s', j) {
      assert FlatReq(s, j) && Progress(s, j) && BaseReq(s, j);
      assert Winner(s', j) == Winner(s, j);
    }
    forall b | 0 <= b < |s'.acts| ensures ActOk(s', b) {
      if b < |s.acts| { ActKept(s, s', b); }
    }
    forall k | 0 <= k < |s'.out| ensures InOrder(s', k) { assert InOrder(s, k); }
  }

  /** A step of an activation that does not answer its request leaves the request in place. */
  lemma AsideReq(s: State, s': State, a: nat, i: Id)
    requires a < |s.acts| && Local(s, s', a, i)
    requires s'.conn == s.conn && s'.reqs[i].past == s.reqs[i].past
    requires s.reqs[i].past.winner.Some? ==>
               var w := s.reqs[i].past.winner.value; w < |s.acts| && w != a
    requires FlatReq(s, i) && Progress(s, i)
    ensures FlatReq(s', i) && Progress(s', i)
  {
    assert Winner(s', i) == Winner(s, i);
  }

  lemma KeepClaimLost(s: State, a: nat, i: Id)
    requires Inv(s) && a < |s.acts| && s.acts[a] == Respond(i, Claim) && s.reqs[i].responded
    requires Base(ClaimStep(s, a, i))
    ensures Inv(ClaimStep(s, a, i))
  {
    var s' := ClaimStep(s, a, i);
    assert FlatReq(s, i) && Progress(s, i) && ActOk(s, a) && BaseReq(s, i);
    assert Local(s, s', a, i);
    assert ActOk(s', a);
    AsideReq(s, s', a, i);
    KeepLocal(s, s', a, i);
  }

  lemma KeepClaimWon(s: State, a: nat, i: Id)
    requires Inv(s) && a < |s.acts| && s.acts[a] == Respond(i, Claim) && !s.reqs[i].responded
    requires Base(ClaimStep(s, a, i))
    ensures Inv(ClaimStep(s, a, i))
  {
    var s' := ClaimStep(s, a, i);
    assert FlatReq(s, i) && ActOk(s, a) && BaseReq(s, i);
    assert Local(s, s', a, i);
    assert ActOk(s', a);
    assert Winner(s', i) == Some(Unlink(s.reqs[i].flush));
    assert FlatReq(s', i) && Progress(s', i);
    KeepLocal(s, s', a, i);
  }

  lemma KeepUnlink(s: State, a: nat, i: Id, fl: bool)
    requires Inv(s) && a < |s.acts| && s.acts[a] == Respond(i, Unlink(fl))
    requires Base(UnlinkStep(s, a, i, fl))
    ensures Inv(UnlinkStep(s, a, i, fl))
  {
    var s' := UnlinkStep(s, a, i, fl);
    assert FlatReq(s, i) && Chain(s, i) && Progress(s, i) && ActOk(s, a) && BaseAct(s, a);
    assert Local(s, s', a, i);
    assert Behind(s', i, s.reqs[i].flushreq) by {
      if s.reqs[i].kind.Plain? && |s.reqs[i].past.flushers| > 0 {
        assert Flushes(s, s.reqs[i].past.flushers[0], i);
      } else if s.reqs[i].kind.Tflush? && s.reqs[i].flushreq.Some? {
        NextFlush(s, i);
      }
    }
    KeepLocal(s, s', a, i);
  }

  /** What a Tflush is linked to flushes the same request. */
  lemma NextFlush(s: State, f: Id)
    requires Inv(s) && Is(s, f) && s.reqs[f].kind.Tflush? && s.reqs[f].flushreq.Some?
    ensures Behind(s, f, s.reqs[f].flushreq)
  {
    assert FlatReq(s, f);
    var v := s.reqs[f].past.victim.value;
    assert Chain(s, v);
    var k :| 0 <= k < |s.reqs[v].past.flushers| && s.reqs[v].past.flushers[k] == f;
    assert Flushes(s, s.reqs[v].past.flushers[k + 1], v);
  }

  lemma KeepPost(s: State, a: nat, i: Id, fl: bool, n: Option<Id>, f: Option<Id>)
    requires Inv(s) && a < |s.acts| && s.acts[a] == Respond(i, Post(fl, n, f))
    requires Base(PostStep(s, a, i, fl, n, f))
    ensures Inv(PostStep(s, a, i, fl, n, f))
  {
    var s' := PostStep(s, a, i, fl, n, f);
    assert FlatReq(s, i) && Progress(s, i) && ActOk(s, a) && BaseAct(s, a) && BaseReq(s, i);
    assert !s.reqs[i].past.suppressed;
    assert Local(s, s', a, i);
    assert ActOk(s', a);
    assert FlatReq(s', i);
    assert Progress(s', i);
    if !fl {
      var v := s.reqs[i].past.victim;
      if v.Some? {
        assert Settled(s, v.value) && BaseReq(s, v.value) && BaseReq(s', v.value);
        assert s'.out[..|s.out|] == s.out;
      }
      assert InOrder(s', |s.out|);
    }
    KeepLocal(s, s', a, i);
  }

  lemma KeepStartNext(s: State, a: nat, i: Id, n: Option<Id>, f: Option<Id>)
    requires Inv(s) && a < |s.acts| && s.acts[a] == Respond(i, StartNext(n, f)) && Typed(s)
    requires Named(|s.reqs|, n) && Named(|s.reqs|, f)
    requires Base(StartNextStep(s, a, i, n, f))
    ensures Inv(StartNextStep(s, a, i, n, f))
  {
    var s' := StartNextStep(s, a, i, n, f);
    assert FlatReq(s, i) && Chain(s, i) && Progress(s, i) && ActOk(s, a) && BaseAct(s, a);
    assert Local(s, s', a, i);
    assert ActOk(s', a);
    assert FlatReq(s', i);
    assert Progress(s', i);
    KeepLocal(s, s', a, i);
  }

  lemma LoopReq(s: State, a: nat, i: Id, cur: Option<Id>, done: nat)
    requires Inv(s) && a < |s.acts| && s.acts[a] == Respond(i, Loop(cur, done))
    requires Named(|s.reqs|, cur)
    ensures FlatReq(LoopStep(s, a, i, cur, done), i) && Progress(LoopStep(s, a, i, cur, done), i)
  {
    assert FlatReq(s, i) && Progress(s, i) && BaseAct(s, a) && BaseReq(s, i);
  }

  lemma LoopActs(s: State, a: nat, i: Id, cur: Option<Id>, done: nat)
    requires Inv(s) && a < |s.acts| && s.acts[a] == Respond(i, Loop(cur, done))
    requires Named(|s.reqs|, cur)
    ensures var s' := LoopStep(s, a, i, cur, done);
            && Local(s, s', a, i) && ActOk(s', a) && (cur.Some? ==> ActOk(s', |s.acts|))
  {
    assert ActOk(s, a) && BaseAct(s, a) && BaseReq(s, i);
    assert Settled(s, i);
    if cur.Some? { assert FlatReq(s, cur.value) && FlatReq(s, i); }
  }

  lemma KeepLoop(s: State, a: nat, i: Id, cur: Option<Id>, done: nat)
    requires Inv(s) && a < |s.acts| && s.acts[a] == Respond(i, Loop(cur, done))
    requires Named(|s.reqs|, cur)
    requires Base(LoopStep(s, a, i, cur, done))
    ensures Inv(LoopStep(s, a, i, cur, done))
  {
    LoopReq(s, a, i, cur, done);
    LoopActs(s, a, i, cur, done);
    KeepLocal(s, LoopStep(s, a, i, cur, done), a, i);
  }

  lemma KeepInLoop(s: State, a: nat, i: Id, cur: Option<Id>, done: nat, call: nat)
    requires Inv(s) && a < |s.acts| && s.acts[a] == Respond(i, InLoop(cur, done, call))
    requires call < |s.acts| && s.acts[call].Respond? && s.acts[call].Over() && cur.Some? && Is(s, cur.value)
    requires Base(Go(s, a, Respond(i, Loop(s.reqs[cur.value].flushreq, done + 1))))
    ensures Inv(Go(s, a, Respond(i, Loop(s.reqs[cur.value].flushreq, done + 1))))
  {
    var g := cur.value;
    var s' := Go(s, a, Respond(i, Loop(s.reqs[g].flushreq, done + 1)));
    assert FlatReq(s, i) && Chain(s, i) && Progress(s, i) && ActOk(s, a) && BaseAct(s, a) && BaseAct(s, call);
    assert Local(s, s', a, i);
    assert ActOk(s', a) by {
      if s.reqs[g].flushreq.Some? { NextFlush(s, g); }
    }
    assert FlatReq(s', i);
    assert Progress(s', i);
    KeepLocal(s, s', a, i);
  }

  /** Steps of process that leave the links alone. */
  lemma KeepProcess(s: State, s': State, a: nat, i: Id)
    requires Inv(s) && a < |s.acts| && s.acts[a].Process? && s.acts[a].req == i && Base(s') && Local(s, s', a, i)
    requires s'.conn == s.conn && s'.out == s.out
    requires s'.reqs[i].past == s.reqs[i].past
    requires s'.acts[a].Process?
    requires ActOk(s', a)
    requires |s'.acts| == |s.acts| ||
             (|s'.acts| == |s.acts| + 1 && s'.acts[|s.acts|] == Respond(i, Claim) && s.reqs[i].kind.Plain?)
    ensures Inv(s')
  {
    assert FlatReq(s, i) && Progress(s, i) && BaseReq(s, i);
    AsideReq(s, s', a, i);
    KeepLocal(s, s', a, i);
  }

  /** Links that only grow: one request is handed over, flushed, or linked as a flush. */
  ghost predicate Elsewhere(s: State, s': State, a: nat)
    requires a < |s.acts|
  {
    && Base(s') && |s'.reqs| == |s.reqs| && s'.conn == s.conn && s'.out == s.out
    && |s.acts| <= |s'.acts| && s'.acts[a].req == s.acts[a].req && s.acts[a].Process? && s'.acts[a].Process?
    && (forall b :: 0 <= b < |s.acts| && b != a ==> s'.acts[b] == s.acts[b])
    && (forall j :: 0 <= j < |s.reqs| ==> Steady(s.reqs[j], s'.reqs[j]))
  }

  ghost predicate Steady(r: Req, r': Req) {
    && r'.kind == r.kind && r'.tag == r.tag && r'.prev == r.prev && r'.next == r.next
    && r'.responded == r.responded && r'.past.settled == r.past.settled && r'.past.suppressed == r.past.suppressed
    && r'.past.winner == r.past.winner && r'.past.proc == r.past.proc
    && (r.past.handed ==> r'.past.handed) && (r.past.victim.Some? ==> r'.past.victim == r.past.victim)
  }

  lemma KeepHand(s: State, a: nat, i: Id, act: Act)
    requires Inv(s) && a < |s.acts| && s.acts[a] == Process(i, Handle)
    requires act == Process(i, Finish)
    requires Base(Go(Hand(s, i), a, act))
    ensures Inv(Go(Hand(s, i), a, act))
  {
    var s' := Go(Hand(s, i), a, act);
    assert ActOk(s, a);
    HandReqs(s, s', a, i);
    forall b | 0 <= b < |s'.acts| ensures ActOk(s', b) {
      if b < |s.acts| { assert ActOk(s, b); }
    }
    forall k | 0 <= k < |s'.out| ensures InOrder(s', k) { assert InOrder(s, k); }
  }

  lemma HandReq(s: State, s': State, a: nat, i: Id, j: Id)
    requires a < |s.acts| && Is(s, i) && Is(s, j) && Elsewhere(s, s', a)
    requires s'.reqs == s.reqs[i := s.reqs[i].(past := s.reqs[i].past.(handed := true))]
    requires FlatReq(s, j) && Progress(s, j)
    requires s.reqs[j].past.winner.Some? ==>
               var w := s.reqs[j].past.winner.value; w < |s.acts| && s.acts[w].Respond?
    ensures FlatReq(s', j) && Progress(s', j)
  {
    assert Winner(s', j) == Winner(s, j);
  }

  lemma HandReqs(s: State, s': State, a: nat, i: Id)
    requires Inv(s) && a < |s.acts| && Is(s, i) && Elsewhere(s, s', a)
    requires s'.reqs == Hand(s, i).reqs
    ensures forall j :: 0 <= j < |s'.reqs| ==> FlatReq(s', j) && Chain(s', j) && Progress(s', j)
  {
    forall j | 0 <= j < |s'.reqs| ensures FlatReq(s', j) && Chain(s', j) && Progress(s', j) {
      assert FlatReq(s, j) && Progress(s, j) && BaseReq(s, j);
      HandReq(s, s', a, i, j);
      assert Chain(s, j);
    }
  }

  lemma KeepFlushNobody(s: State, a: nat, i: Id)
    requires Inv(s) && a < |s.acts| && s.acts[a] == Process(i, Handle) && s.reqs[i].kind.Tflush?
    requires Base(FlushNobody(s, a, i))
    ensures Inv(FlushNobody(s, a, i))
  {
    var s' := FlushNobody(s, a, i);
    assert ActOk(s, a) && FlatReq(s, i);
    HandReqs(s, s', a, i);
    forall b | 0 <= b < |s'.acts| ensures ActOk(s', b) {
      if b < |s.acts| { assert ActOk(s, b); }
    }
    forall k | 0 <= k < |s'.out| ensures InOrder(s', k) { assert InOrder(s, k); }
  }

  /* ---- linking a flush to its victim ---- */

  lemma LinkChain(s: State, f: Id, v: Id, j: Id)
    requires Typed(s) && Is(s, f) && Is(s, v) && Is(s, j)
    requires s.reqs[f].kind.Tflush? && s.reqs[v].kind.Plain? && s.reqs[f].past.victim.None?
    requires Chain(s, j)
    ensures Chain(LinkFlush(s, f, v), j)
  {
    var s' := LinkFlush(s, f, v);
    var q := s.reqs[j].past.flushers;
    var q' := s'.reqs[j].past.flushers;
    if j == v {
      assert q' == [f] + q;
      forall k | 0 <= k < |q'| ensures Flushes(s', q'[k], j) && s'.reqs[q'[k]].flushreq == At(q', k + 1) {
        if k > 0 { assert Flushes(s, q[k - 1], j); }
      }
      assert Distinct(q') by {
        forall m, k | 0 <= m < k < |q'| ensures q'[m] != q'[k] {
          assert Flushes(s, q[k - 1], j);
        }
      }
    } else {
      assert q' == q;
      forall k | 0 <= k < |q| ensures Flushes(s', q[k], j) && s'.reqs[q[k]].flushreq == At(q, k + 1) {
        assert Flushes(s, q[k], j);
      }
    }
  }

  lemma LinkReq(s: State, s': State, a: nat, f: Id, v: Id, j: Id)
    requires Typed(s) && a < |s.acts| && Is(s, f) && Is(s, v) && Is(s, j) && Elsewhere(s, s', a)
    requires s'.reqs == LinkFlush(s, f, v).reqs
    requires s.reqs[f].kind.Tflush? && s.reqs[v].kind.Plain? && s.reqs[f].past.victim.None?
    requires !s.reqs[f].responded && s.reqs[f].past.winner.None?
    requires InConn(s, v)
    requires FlatReq(s, j) && Progress(s, j)
    requires s.reqs[j].past.winner.Some? ==>
               var w := s.reqs[j].past.winner.value; w < |s.acts| && s.acts[w].Respond?
    ensures FlatReq(s', j) && Progress(s', j)
  {
    assert Winner(s', j) == Winner(s, j);
    assert InConn(s', j) <==> InConn(s, j);
    if j != v && j != f {
      assert s'.reqs[j] == s.reqs[j];
    }
    if s'.reqs[j].past.victim.Some? {
      var u := s'.reqs[j].past.victim.value;
      if j == f {
        assert s'.reqs[v].past.flushers[0] == f;
      } else {
        assert j in s.reqs[u].past.flushers;
        assert j in s'.reqs[u].past.flushers;
      }
    }
  }

  lemma AnsweredIsHanded(s: State, f: Id)
    requires Inv(s) && Is(s, f) && s.reqs[f].kind.Tflush? && s.reqs[f].responded
    ensures s.reqs[f].past.handed
  {
    assert BaseReq(s, f);
    assert ActOk(s, s.reqs[f].past.winner.value);
  }

  lemma LinkReqs(s: State, s': State, a: nat, i: Id, v: Id)
    requires Inv(s) && a < |s.acts| && Is(s, i) && Is(s, v) && Elsewhere(s, s', a)
    requires s' == Go(LinkFlush(s, i, v), a, Process(i, Judge(v)))
    requires s.reqs[i].kind.Tflush? && s.reqs[v].kind.Plain? && s.reqs[i].past.victim.None?
    requires !s.reqs[i].responded && s.reqs[i].past.winner.None? && InConn(s, v)
    ensures forall j :: 0 <= j < |s'.reqs| ==> FlatReq(s', j) && Chain(s', j) && Progress(s', j)
  {
    forall j | 0 <= j < |s'.reqs| ensures FlatReq(s', j) && Chain(s', j) && Progress(s', j) {
      assert FlatReq(s, j) && Progress(s, j) && BaseReq(s, j);
      LinkReq(s, s', a, i, v, j);
      assert Chain(s, j) && FlatReq(s, i);
      LinkChain(s, i, v, j);
      assert Chain(LinkFlush(s, i, v), j);
    }
  }

  lemma KeepLink(s: State, a: nat, i: Id, v: Id)
    requires Inv(s) && a < |s.acts| && s.acts[a] == Process(i, Handle) && Is(s, v)
    requires s.reqs[i].kind.Tflush? && s.reqs[v].kind.Plain? && InConn(s, v)
    requires Base(Go(LinkFlush(s, i, v), a, Process(i, Judge(v))))
    ensures Inv(Go(LinkFlush(s, i, v), a, Process(i, Judge(v))))
  {
    var s1 := LinkFlush(s, i, v);
    var s' := Go(s1, a, Process(i, Judge(v)));
    assert ActOk(s, a) && FlatReq(s, i) && BaseReq(s, i);
    if s.reqs[i].responded { AnsweredIsHanded(s, i); }
    LinkReqs(s, s', a, i, v);
    LinkActs(s, s', a, i, v);
    forall k | 0 <= k < |s'.out| ensures InOrder(s', k) {
      assert InOrder(s, k) && BaseReq(s, s.out[k]);
    }
  }

  lemma LinkActs(s: State, s': State, a: nat, i: Id, v: Id)
    requires Inv(s) && Typed(s) && a < |s.acts| && s.acts[a] == Process(i, Handle) && Is(s, v) && Is(s, i)
    requires s.reqs[i].kind.Tflush? && s.reqs[v].kind.Plain? && s.reqs[i].past.victim.None?
    requires s' == Go(LinkFlush(s, i, v), a, Process(i, Judge(v)))
    ensures forall b :: 0 <= b < |s'.acts| ==> Is(s', s'.acts[b].req) && ActOk(s', b)
  {
    assert ActOk(s, a);
    forall b | 0 <= b < |s'.acts| ensures Is(s', s'.acts[b].req) && ActOk(s', b) {
      assert ActOk(s, b);
    }
  }

  /* ---- flushing a request ---- */

  lemma FlushedReq(s: State, s': State, a: nat, v: Id, j: Id)
    requires a < |s.acts| && Is(s, v) && Is(s, j) && Elsewhere(s, s', a)
    requires s'.reqs == s.reqs[v := s.reqs[v].(flush := true)]
    requires s.reqs[v].kind.Plain? && s.reqs[v].past.flushers != []
    requires FlatReq(s, j) && Progress(s, j)
    requires s.reqs[j].past.winner.Some? ==>
               var w := s.reqs[j].past.winner.value; w < |s.acts| && s.acts[w].Respond?
    ensures FlatReq(s', j) && Progress(s', j)
  {
    assert Winner(s', j) == Winner(s, j);
  }

  lemma FlushedChain(s: State, s': State, v: Id, j: Id)
    requires Is(s, v) && Is(s, j) && s'.reqs == s.reqs[v := s.reqs[v].(flush := true)]
    requires Chain(s, j)
    ensures Chain(s', j)
  {
  }

  lemma FlushedReqs(s: State, a: nat, i: Id, v: Id)
    requires Inv(s) && a < |s.acts| && s.acts[a].Process? && s.acts[a].req == i && Flushes(s, i, v)
    requires Base(FlushVictim(s, a, i, v))
    ensures var s' := FlushVictim(s, a, i, v);
            forall j :: 0 <= j < |s'.reqs| ==> FlatReq(s', j) && Chain(s', j) && Progress(s', j)
  {
    var s' := FlushVictim(s, a, i, v);
    assert FlatReq(s, i);
    assert s.reqs[v].past.flushers != [];
    forall j | 0 <= j < |s'.reqs| ensures FlatReq(s', j) && Chain(s', j) && Progress(s', j) {
      assert FlatReq(s, j) && Chain(s, j) && Progress(s, j) && BaseReq(s, j);
      FlushedReq(s, s', a, v, j);
      FlushedChain(s, s', v, j);
    }
  }

  lemma KeepFlushVictim(s: State, a: nat, i: Id, v: Id)
    requires Inv(s) && a < |s.acts| && s.acts[a].Process? && s.acts[a].req == i && Flushes(s, i, v)
    requires Base(FlushVictim(s, a, i, v))
    ensures Inv(FlushVictim(s, a, i, v))
  {
    var s' := FlushVictim(s, a, i, v);
    assert ActOk(s, a);
    FlushedReqs(s, a, i, v);
    forall b | 0 <= b < |s'.acts| ensures ActOk(s', b) {
      if b < |s.acts| { assert ActOk(s, b); }
    }
    forall k | 0 <= k < |s'.out| ensures InOrder(s', k) { assert InOrder(s, k); }
  }

  lemma KeepRespondStep(s: State, a: nat, flushOp: bool)
    requires Inv(s) && Enabled(s, Run(a, flushOp)) && s.acts[a].Respond?
    requires Base(Advance(s, a, flushOp))
    ensures Inv(Advance(s, a, flushOp))
  {
    var i := s.acts[a].req;
    var rp := s.acts[a].rp;
    assert BaseAct(s, a);
    if rp.Claim? {
      if s.reqs[i].responded { KeepClaimLost(s, a, i); } else { KeepClaimWon(s, a, i); }
    } else if rp.Unlink? {
      KeepUnlink(s, a, i, rp.flushed);
    } else if rp.Post? {
      KeepPost(s, a, i, rp.flushed, rp.nextreq, rp.flushreqs);
    } else if rp.StartNext? {
      KeepStartNext(s, a, i, rp.nextreq, rp.flushreqs);
    } else if rp.Loop? {
      KeepLoop(s, a, i, rp.cur, rp.done);
    } else {
      KeepInLoop(s, a, i, rp.cur, rp.done, rp.call);
    }
  }

  lemma KeepHandleStep(s: State, a: nat, flushOp: bool)
    requires Inv(s) && Enabled(s, Run(a, flushOp)) && s.acts[a].Process? && s.acts[a].pp.Handle?
    requires AimsAtPlain(s, s.acts[a])
    requires Base(Advance(s, a, flushOp))
    ensures Inv(Advance(s, a, flushOp))
  {
    var i := s.acts[a].req;
    if s.reqs[i].kind.Plain? {
      KeepHand(s, a, i, Process(i, Finish));
    } else if s.reqs[i].kind.oldtag in s.conn {
      KeepLink(s, a, i, s.conn[s.reqs[i].kind.oldtag]);
    } else {
      KeepFlushNobody(s, a, i);
    }
  }

  lemma KeepBegin(s: State, a: nat, i: Id)
    requires Inv(s) && a < |s.acts| && s.acts[a] == Process(i, Begin)
    requires Base(BeginStep(s, a, i))
    ensures Inv(BeginStep(s, a, i))
  {
    var s' := BeginStep(s, a, i);
    assert ActOk(s, a) && FlatReq(s, i);
    assert Local(s, s', a, i);
    KeepProcess(s, s', a, i);
  }

  lemma KeepFinish(s: State, a: nat, i: Id)
    requires Inv(s) && a < |s.acts| && s.acts[a] == Process(i, Finish)
    requires Base(FinishStep(s, a, i))
    ensures Inv(FinishStep(s, a, i))
  {
    var s' := FinishStep(s, a, i);
    assert ActOk(s, a);
    assert Local(s, s', a, i);
    KeepProcess(s, s', a, i);
  }

  /** A call returned, or the file server was not asked to flush. */
  lemma KeepResume(s: State, a: nat, i: Id, pp: ProcPc)
    requires Inv(s) && a < |s.acts| && s.acts[a].Process? && s.acts[a].req == i
    requires pp.Finish? || (pp.Handle? && s.acts[a].pp.Flushed?) || (pp.AskServer? && s.acts[a].pp == Judge(pp.victim))
    requires Base(Go(s, a, Process(i, pp)))
    ensures Inv(Go(s, a, Process(i, pp)))
  {
    var s' := Go(s, a, Process(i, pp));
    assert ActOk(s, a);
    assert s'.reqs == s.reqs;
    assert Local(s, s', a, i);
    KeepProcess(s, s', a, i);
  }

  lemma KeepProcessStep(s: State, a: nat, flushOp: bool)
    requires Inv(s) && Enabled(s, Run(a, flushOp)) && s.acts[a].Process? && !s.acts[a].pp.Handle?
    requires Base(Advance(s, a, flushOp))
    ensures Inv(Advance(s, a, flushOp))
  {
    var i := s.acts[a].req;
    var pp := s.acts[a].pp;
    assert ActOk(s, a);
    if pp.Judge? {
      if !s.reqs[pp.victim].work && !s.reqs[pp.victim].saved {
        KeepFlushVictim(s, a, i, pp.victim);
      } else {
        KeepResume(s, a, i, AskServer(pp.victim));
      }
    } else if pp.AskServer? && flushOp {
      KeepFlushVictim(s, a, i, pp.victim);
    } else if pp.Begin? {
      KeepBegin(s, a, i);
    } else if pp.Finish? {
      KeepFinish(s, a, i);
    } else if pp.Flushed? {
      KeepResume(s, a, i, Handle);
    } else {
      KeepResume(s, a, i, Finish);
    }
  }

  lemma KeepStep(s: State, step: Step)
    requires Inv(s) && Enabled(s, step) && Allowed(FlushClient, s, step)
    ensures Inv(Apply(s, step))
  {
    BaseStep(s, step);
    if step.Recv? {
      KeepRecv(s, step.tag, step.kind);
    } else if step.Answer? {
      KeepAnswer(s, step.i);
    } else if s.acts[step.a].Respond? {
      KeepRespondStep(s, step.a, step.flushOp);
    } else if s.acts[step.a].pp.Handle? {
      KeepHandleStep(s, step.a, step.flushOp);
    } else {
      KeepProcessStep(s, step.a, step.flushOp);
    }
  }

  lemma {:induction false} InvRun(run: seq<State>)
    requires Reachable(FlushClient, run)
    ensures Inv(Last(run))
    decreases |run|
  {
    if |run| > 1 {
      var was := run[..|run| - 1];
      Before(FlushClient, run);
      InvRun(was);
      var step :| Move(FlushClient, Last(was), step, Last(run));
      KeepStep(Last(was), step);
    }
  }

  /* ---- what flush(5) promises ---- */

  /** The request n links of flushreq away from i. */
  function After(reqs: seq<Req>, i: Id, n: nat): Option<Id>
    decreases n
  {
    if n == 0 then Some(i)
    else
      match After(reqs, i, n - 1)
      case None => None
      case Some(j) => if j < |reqs| then reqs[j].flushreq else None
  }

  ghost predicate OnChain(reqs: seq<Req>, i: Id, f: Id) {
    exists n: nat :: n > 0 && After(reqs, i, n) == Some(f)
  }

  lemma {:induction false} AfterIsFlusher(s: State, v: Id, k: nat)
    requires Inv(s) && Is(s, v) && s.reqs[v].kind.Plain? && k < |s.reqs[v].past.flushers|
    ensures After(s.reqs, v, k + 1) == Some(s.reqs[v].past.flushers[k])
    decreases k
  {
    assert Chain(s, v);
    if k > 0 {
      AfterIsFlusher(s, v, k - 1);
      assert Flushes(s, s.reqs[v].past.flushers[k - 1], v);
    } else {
      assert After(s.reqs, v, 0) == Some(v);
    }
  }

  /** A Tflush that found its victim is on the victim's chain, from then on. */
  lemma FlushStaysOnChain(run: seq<State>, f: Id, v: Id)
    requires Reachable(FlushClient, run) && Is(Last(run), f) && Last(run).reqs[f].past.victim == Some(v)
    ensures OnChain(Last(run).reqs, v, f)
  {
    InvRun(run);
    var s := Last(run);
    assert FlatReq(s, f);
    var q := s.reqs[v].past.flushers;
    var k :| 0 <= k < |q| && q[k] == f;
    AfterIsFlusher(s, v, k);
  }

  /** Every Rflush on reqout follows the reply of its victim, unless that reply was dropped for good. */
  lemma RflushFollowsVictim(run: seq<State>, k: nat, v: Id)
    requires Reachable(FlushClient, run) && k < |Last(run).out|
    requires Is(Last(run), Last(run).out[k]) && Last(run).reqs[Last(run).out[k]].past.victim == Some(v)
    ensures v in Last(run).out[..k] || (v !in Last(run).out && Is(Last(run), v) && Last(run).reqs[v].past.suppressed)
  {
    InvRun(run);
    var s := Last(run);
    assert InOrder(s, k);
    if v !in s.out[..k] { assert BaseReq(s, v); }
  }

  /** Only a flushed request loses its reply. */
  lemma DroppedWasFlushed(run: seq<State>, v: Id)
    requires Reachable(FlushClient, run) && Is(Last(run), v) && Last(run).reqs[v].past.suppressed
    ensures exists f :: Flushes(Last(run), f, v)
  {
    InvRun(run);
    var s := Last(run);
    assert FlatReq(s, v) && Chain(s, v);
    assert Flushes(s, s.reqs[v].past.flushers[0], v);
  }

  ghost predicate AtRest(s: State) {
    forall a :: 0 <= a < |s.acts| ==> s.acts[a].Over()
  }

  /** Once every goroutine is at rest, each flush whose victim was answered has been answered too. */
  lemma NoFlushIsLost(run: seq<State>, f: Id, v: Id)
    requires Reachable(FlushClient, run) && AtRest(Last(run)) && Flushes(Last(run), f, v)
    requires Last(run).reqs[v].responded
    ensures f in Last(run).out
  {
    InvRun(run);
    var s := Last(run);
    assert FlatReq(s, f) && BaseReq(s, v) && Progress(s, v);
    assert s.acts[s.reqs[v].past.winner.value].Over();
    var q := s.reqs[v].past.flushers;
    var k :| 0 <= k < |q| && q[k] == f;
    assert HasResponded(s, q[k]);
    assert BaseReq(s, f);
    assert s.acts[s.reqs[f].past.winner.value].Over();
  }

  /* ---- the case the protocol does not keep ---- */

  lemma {:induction false} SameAfter(reqs: seq<Req>, reqs': seq<Req>, i: Id, n: nat)
    requires |reqs'| == |reqs| && forall j :: 0 <= j < |reqs| ==> reqs'[j].flushreq == reqs[j].flushreq
    ensures After(reqs', i, n) == After(reqs, i, n)
    decreases n
  {
    if n > 0 { SameAfter(reqs, reqs', i, n - 1); }
  }

  /**
   When the oldest request of a tag is answered, a flush that waits for it is handed to the next
   request of the tag.  It stays on a chain exactly when no other flush waits there already.
   */
  lemma MovedFlushSurvives(s: State, a: nat, i: Id, fl: bool, n: Id, f: Id)
    requires Typed(s) && a < |s.acts| && s.acts[a] == Respond(i, Unlink(fl))
    requires s.reqs[i].prev == Some(n) && n != i && s.reqs[i].flushreq == Some(f) && !OnChain(s.reqs, n, f)
    ensures OnChain(UnlinkStep(s, a, i, fl).reqs, n, f) <==> s.reqs[n].flushreq.None?
  {
    var s' := UnlinkStep(s, a, i, fl);
    if s.reqs[n].flushreq.None? {
      assert s'.reqs[n].flushreq == Some(f);
      assert After(s'.reqs, n, 0) == Some(n);
      assert After(s'.reqs, n, 1) == Some(f);
    } else {
      assert forall j :: 0 <= j < |s.reqs| ==> s'.reqs[j].flushreq == s.reqs[j].flushreq;
      forall m: nat | m > 0 ensures After(s'.reqs, n, m) != Some(f) {
        SameAfter(s.reqs, s'.reqs, n, m);
      }
    }
  }
}
