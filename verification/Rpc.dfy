/**
 Remote calls of a client (Rpc of p/clnt/clnt.go) with a server that answers each request once, in any order:
 tags are handed from request to request, through the cache and through the pool, but no reply reaches
 another request than the one it was made for.
 */
module Rpc {
  import opened Common
  import opened IdPool
  import opened Routing

  /** A message on its way: its tag, and which sending it is, or answers. */
  datatype Message = Message(tag: nat, no: nat)

  /** The last time r was sent. */
  function LastOf(log: seq<Req>, r: Req): (k: nat)
    ensures r in log ==> k < |log| && log[k] == r && forall j :: k < j < |log| ==> log[j] != r
  {
    if log == [] then 0
    else if log[|log| - 1] == r then |log| - 1
    else
      assert r in log ==> r in log[..|log| - 1];
      LastOf(log[..|log| - 1], r)
  }

  /** The message that r waits for the answer to. */
  function Own(log: seq<Req>, r: Req): Message {
    Message(r.tag, LastOf(log, r))
  }

  /** The messages on their way are those of the requests without a reply, one each. */
  ghost predicate InFlight(pending: seq<Req>, byTag: map<nat, Req>, flight: seq<Message>, log: seq<Req>) {
    && Distinct(flight)
    && (forall m :: m in flight ==> m.tag in byTag && byTag[m.tag] in pending && m == Own(log, byTag[m.tag]))
    && (forall r :: r in pending ==> r in log && Own(log, r) in flight)
  }

  lemma SentAgain(log: seq<Req>, r: Req, q: Req)
    ensures LastOf(log + [r], q) == if q == r then |log| else LastOf(log, q)
  {
    assert (log + [r])[..|log|] == log;
  }

  /** Tags may have been given to other requests, but not those of requests that wait. */
  lemma OthersRetagged(pending: seq<Req>, byTag: map<nat, Req>, byTag': map<nat, Req>, flight: seq<Message>,
                       log: seq<Req>)
    requires InFlight(pending, byTag, flight, log)
    requires forall t :: t in byTag ==> byTag[t].tag == t
    requires forall r :: r in pending ==> r.tag in byTag' && byTag'[r.tag] == r
    ensures InFlight(pending, byTag', flight, log)
  {
    forall m | m in flight ensures m.tag in byTag' && byTag'[m.tag] == byTag[m.tag] {
      assert byTag[m.tag] in pending;
    }
  }

  lemma OneSent(pending: seq<Req>, byTag: map<nat, Req>, flight: seq<Message>, log: seq<Req>, r: Req)
    requires InFlight(pending, byTag, flight, log) && r !in pending && r.tag in byTag && byTag[r.tag] == r
    ensures InFlight(pending + [r], byTag, flight + [Message(r.tag, |log|)], log + [r])
  {
    var m := Message(r.tag, |log|);
    var flight', log' := flight + [m], log + [r];
    assert m !in flight;
    forall x | x in flight' ensures x.tag in byTag && byTag[x.tag] in pending + [r] && x == Own(log', byTag[x.tag]) {
      SentAgain(log, r, byTag[x.tag]);
    }
    forall q | q in pending + [r] ensures q in log' && Own(log', q) in flight' {
      SentAgain(log, r, q);
    }
  }

  lemma OneAnswered(pending: seq<Req>, byTag: map<nat, Req>, flight: seq<Message>, flight': seq<Message>, log: seq<Req>)
    requires InFlight(pending, byTag, flight, log)
    requires Distinct(flight') && forall m :: m in flight' <==> m in flight
    ensures InFlight(pending, byTag, flight', log)
  {
  }

  lemma SendsOne(pending: seq<Req>, byTag: map<nat, Req>, calls: seq<Message>, replies: seq<Message>, log: seq<Req>,
                 r: Req)
    requires InFlight(pending, byTag, calls + replies, log) && r !in pending && r.tag in byTag && byTag[r.tag] == r
    ensures InFlight(pending + [r], byTag, calls + [Message(r.tag, |log|)] + replies, log + [r])
  {
    var m := Message(r.tag, |log|);
    var flight, flight' := calls + replies + [m], calls + [m] + replies;
    OneSent(pending, byTag, calls + replies, log, r);
    var n, k := |flight| - 1, |calls|;
    forall i | 0 <= i <= n ensures flight'[i] == flight[if i < k then i else if i == k then n else i - 1] {
    }
    forall x ensures x in flight' <==> x in flight {
      if x in flight {
        var i :| 0 <= i <= n && flight[i] == x;
        assert flight'[if i < k then i else if i == n then k else i + 1] == x;
      }
    }
    OneAnswered(pending + [r], byTag, flight, flight', log + [r]);
  }

  lemma OneDelivered(pending: seq<Req>, byTag: map<nat, Req>, flight: seq<Message>, flight': seq<Message>,
                     log: seq<Req>, k: nat)
    requires Distinct(pending) && (forall r :: r in pending ==> r.tag in byTag && byTag[r.tag] == r)
    requires InFlight(pending, byTag, flight, log) && k < |pending|
    requires Distinct(flight') && forall m :: m in flight' <==> m in flight && m != Own(log, pending[k])
    ensures InFlight(Without(pending, k), byTag, flight', log)
  {
    var rest := Without(pending, k);
    forall r | r in rest ensures r in pending && r != pending[k] {
      var i :| 0 <= i < |rest| && rest[i] == r;
      assert r == pending[if i < k then i else i + 1];
    }
    forall m | m in flight' ensures m.tag in byTag && byTag[m.tag] in rest && m == Own(log, byTag[m.tag]) {
      assert byTag[m.tag] in pending && byTag[m.tag] != pending[k];
      var i :| 0 <= i < |pending| && pending[i] == byTag[m.tag];
      assert rest[if i < k then i else i - 1] == byTag[m.tag];
    }
    forall r | r in rest ensures r in log && Own(log, r) in flight' {
      assert Own(log, r).tag == r.tag && pending[k].tag != r.tag by { assert byTag[r.tag] == r; }
    }
  }

  /** The server answers message k. */
  lemma Turned(calls: seq<Message>, replies: seq<Message>, k: nat)
    requires Distinct(calls + replies) && k < |calls|
    ensures var flight' := calls[..k] + calls[k + 1..] + (replies + [calls[k]]);
            Distinct(flight') && forall m :: m in flight' <==> m in calls + replies
  {
    var flight, flight' := calls + replies, calls[..k] + calls[k + 1..] + (replies + [calls[k]]);
    var n := |flight|;
    forall i | 0 <= i < n ensures flight'[i] == flight[if i < k then i else if i < n - 1 then i + 1 else k] {
    }
    forall m ensures m in flight' <==> m in flight {
      if m in flight {
        var i :| 0 <= i < n && flight[i] == m;
        assert flight'[if i < k then i else if i == k then n - 1 else i - 1] == m;
      }
    }
  }

  lemma Popped(calls: seq<Message>, replies: seq<Message>)
    requires Distinct(calls + replies) && replies != []
    ensures Distinct(calls + replies[1..])
    ensures forall m :: m in calls + replies[1..] <==> m in calls + replies && m != replies[0]
  {
    var flight, flight', n := calls + replies, calls + replies[1..], |calls|;
    forall i | 0 <= i < |flight'| ensures flight'[i] == flight[if i < n then i else i + 1] {
    }
    forall m ensures m in flight' <==> m in flight && m != flight[n] {
      if m in flight && m != flight[n] {
        var i :| 0 <= i < |flight| && flight[i] == m;
        assert flight'[if i < n then i else i - 1] == m;
      }
    }
  }

  /** What callers hold is either not sent yet or answered. */
  ghost predicate Callers(held: set<Req>, ready: seq<Req>, done: seq<Req>) {
    && Distinct(ready) && Distinct(done) && (forall r :: r in ready ==> r !in done)
    && (forall r :: r in held ==> r in ready || r in done)
    && (forall r :: r in ready ==> r in held) && (forall r :: r in done ==> r in held)
  }

  lemma OneReady(held: set<Req>, ready: seq<Req>, done: seq<Req>, r: Req)
    requires Callers(held, ready, done) && r !in held
    ensures Callers(held + {r}, ready + [r], done)
  {
    assert forall q :: q in ready + [r] <==> q in ready || q == r;
  }

  lemma OneDone(held: set<Req>, ready: seq<Req>, done: seq<Req>, r: Req)
    requires Callers(held, ready, done) && r !in held
    ensures Callers(held + {r}, ready, done + [r])
  {
    assert forall q :: q in done + [r] <==> q in done || q == r;
  }

  lemma WithoutIs(s: seq<Req>, k: nat)
    requires Distinct(s) && k < |s|
    ensures Distinct(Without(s, k)) && forall q :: q in Without(s, k) <==> q in s && q != s[k]
  {
    forall q ensures q in Without(s, k) <==> q in s && q != s[k] {
      if q in s && q != s[k] {
        var i :| 0 <= i < |s| && s[i] == q;
        assert Without(s, k)[if i < k then i else i - 1] == q;
      }
    }
  }

  lemma NotReady(held: set<Req>, ready: seq<Req>, done: seq<Req>, k: nat)
    requires Callers(held, ready, done) && k < |ready|
    ensures Callers(held - {ready[k]}, Without(ready, k), done) && forall q :: q in Without(ready, k) ==> q in ready
  {
    WithoutIs(ready, k);
  }

  lemma NotDone(held: set<Req>, ready: seq<Req>, done: seq<Req>, k: nat)
    requires Callers(held, ready, done) && k < |done|
    ensures Callers(held - {done[k]}, ready, Without(done, k)) && forall q :: q in Without(done, k) ==> q in done
  {
    WithoutIs(done, k);
  }

  ghost predicate Unsent(ready: seq<Req>)
    reads ready`rc, ready`next
  {
    forall r :: r in ready ==> r.rc == None && r.next == null
  }

  ghost predicate Waiting(pending: seq<Req>)
    reads pending`rc
  {
    forall r :: r in pending ==> r.rc == None
  }

  /** Each reply was made for the last sending of its request. */
  ghost predicate Answered(done: seq<Req>, log: seq<Req>)
    reads done`rc
  {
    forall r :: r in done ==> r in log && r.rc == Some(LastOf(log, r))
  }

  /** Another request that is sent does not touch them. */
  lemma AnsweredStill(done: seq<Req>, log: seq<Req>, r: Req)
    requires Answered(done, log) && r !in done
    ensures Answered(done, log + [r])
  {
    forall q | q in done ensures LastOf(log + [r], q) == LastOf(log, q) { SentAgain(log, r, q); }
  }

  datatype Op = AllocOp | SendOp(i: nat) | AnswerOp(k: nat) | ReceiveOp | FreeOp(i: nat) | DiscardOp(i: nat)

  /** What callers, wires and server have; done holds the number of the sending that was answered, too. */
  datatype View = View(ready: seq<Req>, calls: seq<Message>, replies: seq<Message>, pending: seq<Req>,
                       done: seq<(Req, nat)>, sent: nat)

  function Given(got: Option<Req>): seq<Req> {
    if got.Some? then [got.value] else []
  }

  function Except<T>(s: seq<T>, k: nat): seq<T>
    requires k < |s|
  {
    s[..k] + s[k + 1..]
  }

  /** What a move does, if some caller gets the request got in it; one that cannot be made does nothing. */
  function Did(v: View, op: Op, got: Option<Req>): View {
    match op
    case AllocOp => v.(ready := v.ready + Given(got))
    case SendOp(i) =>
      if i >= |v.ready| then v
      else
        var r := v.ready[i];
        v.(ready := Without(v.ready, i), calls := v.calls + [Message(r.tag, v.sent)], pending := v.pending + [r],
           sent := v.sent + 1)
    case AnswerOp(k) =>
      if k >= |v.calls| then v else v.(calls := Except(v.calls, k), replies := v.replies + [v.calls[k]])
    case ReceiveOp =>
      if v.replies == [] then v
      else
        var m := v.replies[0];
        var k := Find(v.pending, m.tag);
        if k >= |v.pending| then v
        else v.(replies := v.replies[1..], pending := Without(v.pending, k), done := v.done + [(v.pending[k], m.no)])
    case FreeOp(i) => if i >= |v.done| then v else v.(done := Except(v.done, i), ready := v.ready + Given(got))
    case DiscardOp(i) => if i >= |v.ready| then v else v.(ready := Without(v.ready, i) + Given(got))
  }

  function DidAll(v: View, ops: seq<Op>, given: seq<Option<Req>>): View
    requires |given| == |ops|
    decreases |ops|
  {
    if ops == [] then v else DidAll(Did(v, ops[0], given[0]), ops[1..], given[1..])
  }

  lemma {:induction false} DidAllConcat(v: View, a: seq<Op>, b: seq<Op>, ga: seq<Option<Req>>, gb: seq<Option<Req>>)
    requires |ga| == |a| && |gb| == |b|
    ensures DidAll(v, a + b, ga + gb) == DidAll(DidAll(v, a, ga), b, gb)
    decreases |a|
  {
    if a == [] {
      assert a + b == b && ga + gb == gb;
    } else {
      assert (a + b)[1..] == a[1..] + b && (ga + gb)[1..] == ga[1..] + gb;
      DidAllConcat(Did(v, a[0], ga[0]), a[1..], b, ga[1..], gb);
    }
  }

  /** A life is an allocation, a call, and a free. */
  lemma LifeIsCall(v: View, r: Req, n: nat, k: nat, d: nat)
    ensures var v1 := Did(v, AllocOp, Some(r));
            DidAll(v, [AllocOp, SendOp(n), AnswerOp(k), ReceiveOp, FreeOp(d)], [Some(r), None, None, None, None]) ==
            Did(DidAll(v1, [SendOp(n), AnswerOp(k), ReceiveOp], [None, None, None]), FreeOp(d), None)
  {
    var v1 := Did(v, AllocOp, Some(r));
    var none: seq<Option<Req>> := [None];
    var nones: seq<Option<Req>> := [None, None, None];
    DidAllConcat(v1, [SendOp(n), AnswerOp(k), ReceiveOp], [FreeOp(d)], nones, none);
    assert none[1..] == [] && [FreeOp(d)][1..] == [];
    var ops := [AllocOp, SendOp(n), AnswerOp(k), ReceiveOp, FreeOp(d)];
    var given: seq<Option<Req>> := [Some(r), None, None, None, None];
    assert ops[1..] == [SendOp(n), AnswerOp(k), ReceiveOp] + [FreeOp(d)] && given[1..] == nones + none;
  }

  lemma AfterCall(v: View, r: Req)
    requires v.replies == [] && forall q :: q in v.pending ==> q.tag != r.tag
    ensures var v1 := Did(v, AllocOp, Some(r));
            var v2 := DidAll(v1, [SendOp(|v.ready|), AnswerOp(|v.calls|), ReceiveOp], [None, None, None]);
            Did(v2, FreeOp(|v.done|), None) == v.(sent := v.sent + 1)
  {
    var v1 := Did(v, AllocOp, Some(r));
    OneCall(v1, |v.ready|);
    assert Without(v1.ready, |v.ready|) == v.ready;
    assert Except(v.done + [(r, v.sent)], |v.done|) == v.done && v.ready + [] == v.ready;
  }

  /** From the allocation to the free, nothing is left of a call but that one more was sent. */
  lemma OneLife(v: View, r: Req)
    requires v.replies == [] && forall q :: q in v.pending ==> q.tag != r.tag
    ensures DidAll(v, [AllocOp, SendOp(|v.ready|), AnswerOp(|v.calls|), ReceiveOp, FreeOp(|v.done|)],
                   [Some(r), None, None, None, None]) == v.(sent := v.sent + 1)
  {
    LifeIsCall(v, r, |v.ready|, |v.calls|, |v.done|);
    AfterCall(v, r);
  }

  /** Nor of a request that is freed without having been sent. */
  lemma Discarded(v: View, r: Req)
    ensures Did(Did(v, AllocOp, Some(r)), DiscardOp(|v.ready|), None) == v
  {
  }

  /** The requests, and the last time each was sent. */
  function Numbered(done: seq<Req>, log: seq<Req>): (d: seq<(Req, nat)>)
    ensures |d| == |done| && forall i :: 0 <= i < |d| ==> d[i] == (done[i], LastOf(log, done[i]))
  {
    seq(|done|, i requires 0 <= i < |done| => (done[i], LastOf(log, done[i])))
  }

  lemma NumberedMore(done: seq<Req>, log: seq<Req>, r: Req)
    ensures Numbered(done + [r], log) == Numbered(done, log) + [(r, LastOf(log, r))]
  {
  }

  lemma NumberedLess(done: seq<Req>, log: seq<Req>, i: nat)
    requires i < |done|
    ensures Numbered(Without(done, i), log) == Except(Numbered(done, log), i)
  {
  }

  lemma Received(v: View, v': View, done: seq<Req>, log: seq<Req>)
    requires v.replies != [] && v.done == Numbered(done, log)
    requires var k := Find(v.pending, v.replies[0].tag);
             && k < |v.pending| && v.replies[0] == Own(log, v.pending[k])
             && v'.pending == Without(v.pending, k) && v'.done == Numbered(done + [v.pending[k]], log)
    requires v'.ready == v.ready && v'.calls == v.calls && v'.replies == v.replies[1..] && v'.sent == v.sent
    ensures v' == Did(v, ReceiveOp, None)
  {
    NumberedMore(done, log, v.pending[Find(v.pending, v.replies[0].tag)]);
  }

  lemma NumberedStill(done: seq<Req>, log: seq<Req>, r: Req)
    requires r !in done
    ensures Numbered(done, log + [r]) == Numbered(done, log)
  {
    forall q | q in done ensures LastOf(log + [r], q) == LastOf(log, q) { SentAgain(log, r, q); }
  }

  /** A request that is sent while no reply is on its way, answered and received comes back with its own reply. */
  lemma OneCall(v: View, i: nat)
    requires i < |v.ready| && v.replies == [] && forall q :: q in v.pending ==> q.tag != v.ready[i].tag
    ensures var r := v.ready[i];
            DidAll(v, [SendOp(i), AnswerOp(|v.calls|), ReceiveOp], [None, None, None]) ==
            v.(ready := Without(v.ready, i), done := v.done + [(r, v.sent)], sent := v.sent + 1)
  {
    var r := v.ready[i];
    var m := Message(r.tag, v.sent);
    var ops, given: seq<Option<Req>> := [SendOp(i), AnswerOp(|v.calls|), ReceiveOp], [None, None, None];
    assert ops[1..] == [AnswerOp(|v.calls|), ReceiveOp] && ops[1..][1..] == [ReceiveOp] && ops[1..][1..][1..] == [];
    assert given[1..] == [None, None] && given[1..][1..] == [None];
    var v1 := Did(v, SendOp(i), None);
    var v2 := Did(v1, AnswerOp(|v.calls|), None);
    assert Except(v1.calls, |v.calls|) == v.calls && v2 == v1.(calls := v.calls, replies := [m]);
    FindFirst(v2.pending, r.tag, |v.pending|);
    assert [m][1..] == [] && Without(v2.pending, |v.pending|) == v.pending;
    assert Did(v2, ReceiveOp, None) == v2.(replies := [], pending := v.pending, done := v.done + [(r, v.sent)]);
    assert DidAll(v2, [ReceiveOp], [None]) == Did(v2, ReceiveOp, None);
    assert DidAll(v1, ops[1..], given[1..]) == DidAll(v2, ops[1..][1..], given[1..][1..]);
  }

  /** A client, its callers, and the server and wires it talks to. */
  class Session {
    const clnt: Clnt
    var ready: seq<Req>          // with callers, not sent yet
    var done: seq<Req>           // with callers, answered
    var calls: seq<Message>      // with the server, or on the way to it
    var replies: seq<Message>    // on the way back
    var count: nat
    ghost var log: seq<Req>      // all sendings
    ghost var born: set<Req>     // all requests there are

    ghost predicate Valid()
      reads this, clnt, clnt.pending, clnt.reqchan, clnt.tagpool, clnt.tagpool.bits, ready, done
    {
      clnt.Valid() && !clnt.err && Sound(clnt.held, clnt.pending)
    }

    /** All is in order, with the client holding these requests for callers and these for the server. */
    ghost predicate Sound(held: set<Req>, pending: seq<Req>)
      reads this, clnt`byTag, clnt`reqchan, pending`rc, ready`rc, ready`next, done`rc
    {
      && count == |log|
      && Callers(held, ready, done)
      && InFlight(pending, clnt.byTag, calls + replies, log)
      && Unsent(ready) && Waiting(pending) && Answered(done, log)
      && (forall r :: r in pending ==> r in born) && (forall r :: r in clnt.reqchan ==> r in born)
      && held <= born
    }

    constructor ()
      ensures Valid() && fresh(clnt) && fresh(clnt.tagpool) && fresh(clnt.tagpool.bits) && born == {}
    {
      clnt := new Clnt();
      ready, done, calls, replies, count := [], [], [], [], 0;
      log, born := [], {};
    }

    /** The state as callers, wires and server have it. */
    ghost function Look(): View
      reads this, clnt
    {
      View(ready, calls, replies, clnt.pending, Numbered(done, log), |log|)
    }

    /** Whatever is known now was known before, or is new. */
    twostate predicate Grown()
      reads this, clnt, clnt.tagpool
    {
      && old(born) <= born && fresh(born - old(born))
      && (clnt.tagpool.bits == old(clnt.tagpool.bits) || fresh(clnt.tagpool.bits))
    }

    /** A caller gets a request. */
    method Take(req: Req, ghost was: set<Req>)
      requires clnt.Valid() && !clnt.err && Sound(was, clnt.pending) && clnt.held == was + {req} && req !in was
      requires req.rc == None && req.next == null
      modifies this`ready, this`born
      ensures Valid() && ready == old(ready) + [req] && born == old(born) + {req}
    {
      OneReady(was, ready, done, req);
      born := born + {req};
      ready := ready + [req];
    }

    /** A caller gets a request, if there is one. */
    method Gets(req: Req?, ghost was: set<Req>) returns (ghost got: Option<Req>)
      requires clnt.Valid() && !clnt.err && Sound(was, clnt.pending)
      requires req == null ==> clnt.held == was
      requires req != null ==> clnt.held == was + {req} && req !in was && req.rc == None && req.next == null
      modifies this`ready, this`born
      ensures Valid() && ready == old(ready) + Given(got) && born == old(born) + if req == null then {} else {req}
      ensures got == if req == null then None else Some(req)
    {
      got := None;
      if req != null {
        Take(req, was);
        got := Some(req);
      }
    }

    /** ReqAlloc of a caller; one who has to wait for a tag goes on when a request is freed. */
    method Allocate() returns (ghost got: Option<Req>)
      requires Valid()
      modifies this`ready, this`born, clnt`reqchan, clnt`held, clnt`byTag, clnt.tagpool, clnt.tagpool.bits
      ensures Valid() && Grown() && ready == old(ready) + Given(got)
      ensures got.None? ==> clnt.reqchan == [] && clnt.tagpool.need > 0
    {
      ghost var was := clnt.held;
      var req := Obtain();
      got := Gets(req, was);
    }

    method Obtain() returns (req: Req?)
      requires Valid()
      modifies clnt`reqchan, clnt`held, clnt`byTag, clnt.tagpool, clnt.tagpool.bits
      ensures clnt.Valid() && !clnt.err && Sound(old(clnt.held), clnt.pending)
      ensures clnt.tagpool.bits == old(clnt.tagpool.bits) || fresh(clnt.tagpool.bits)
      ensures req == null ==> clnt.held == old(clnt.held) && clnt.reqchan == [] && clnt.tagpool.need > 0
      ensures req != null ==>
                && clnt.held == old(clnt.held) + {req} && req !in old(clnt.held) && req.rc == None && req.next == null
                && (fresh(req) || req in born)
    {
      ghost var byTag := clnt.byTag;
      req := clnt.ReqAlloc();
      OthersRetagged(clnt.pending, byTag, clnt.byTag, calls + replies, log);
    }

    /** A caller gives request i back to the client, to be sent or freed. */
    method Leave(i: nat) returns (r: Req)
      requires Sound(clnt.held, clnt.pending) && i < |ready|
      modifies this`ready
      ensures r == old(ready)[i] && r in clnt.held && r !in done && r.rc == None && r.next == null
      ensures ready == Without(old(ready), i)
      ensures Sound(clnt.held - {r}, clnt.pending)
    {
      r := ready[i];
      NotReady(clnt.held, ready, done, i);
      ready := Without(ready, i);
    }

    /** What is sent goes on the wire. */
    method Record(r: Req, ghost held: set<Req>, ghost pending: seq<Req>)
      requires Sound(held, pending) && r in born && r.rc == None && r !in done
      requires r !in pending && r.tag in clnt.byTag && clnt.byTag[r.tag] == r
      modifies this`calls, this`count, this`log
      ensures Sound(held, pending + [r])
      ensures calls == old(calls) + [Message(r.tag, |old(log)|)] && log == old(log) + [r]
    {
      SendsOne(pending, clnt.byTag, calls, replies, log, r);
      AnsweredStill(done, log, r);
      calls, count, log := calls + [Message(r.tag, count)], count + 1, log + [r];
    }

    method Post(r: Req)
      requires clnt.Valid() && !clnt.err && Sound(clnt.held - {r}, clnt.pending + [r]) && r in clnt.held
      requires r.next == null
      modifies clnt`reqfirst, clnt`reqlast, clnt`pending, clnt`held, r`prev, clnt.pending`next
      ensures Valid() && clnt.pending == old(clnt.pending) + [r]
    {
      assert forall q :: q in ready ==> q !in clnt.pending;
      var ok := clnt.Rpcnb(r);
    }

    /** Rpcnb: request i is sent. */
    method Send(i: nat)
      requires Valid() && i < |ready|
      modifies this`ready, this`calls, this`count, this`log
      modifies clnt`reqfirst, clnt`reqlast, clnt`pending, clnt`held, ready`prev, clnt.pending`next
      ensures Valid() && Grown()
      ensures ready == Without(old(ready), i) && clnt.pending == old(clnt.pending) + [old(ready)[i]]
      ensures calls == old(calls) + [Message(old(ready)[i].tag, |old(log)|)] && log == old(log) + [old(ready)[i]]
    {
      var r := Leave(i);
      Record(r, clnt.held - {r}, clnt.pending);
      Post(r);
    }

    /** The server answers one of the requests it has, whichever it likes. */
    method ServerAnswers(k: nat)
      requires Valid() && k < |calls|
      modifies this`calls, this`replies
      ensures Valid() && Grown()
      ensures calls == old(calls)[..k] + old(calls)[k + 1..] && replies == old(replies) + [old(calls)[k]]
    {
      Turned(calls, replies, k);
      OneAnswered(clnt.pending, clnt.byTag, calls + replies, calls[..k] + calls[k + 1..] + (replies + [calls[k]]), log);
      calls, replies := calls[..k] + calls[k + 1..], replies + [calls[k]];
    }

    /** The next reply comes off the wire; it belongs to request k of those that wait. */
    method Arrive() returns (m: Message, ghost k: nat)
      requires Valid() && replies != []
      modifies this`replies
      ensures m == old(replies)[0] && replies == old(replies)[1..]
      ensures k == Find(clnt.pending, m.tag) < |clnt.pending|
      ensures m == Own(log, clnt.pending[k]) && clnt.pending[k] in log && Sound(clnt.held, Without(clnt.pending, k))
    {
      m := replies[0];
      ghost var r := clnt.byTag[m.tag];
      assert m in calls + replies;
      OwnReply(clnt.pending, clnt.reqchan, clnt.held, clnt.byTag, r);
      k := Find(clnt.pending, m.tag);
      Popped(calls, replies);
      OneDelivered(clnt.pending, clnt.byTag, calls + replies, calls + replies[1..], log, k);
      assert forall q :: q in Without(clnt.pending, k) ==> q in clnt.pending;
      replies := replies[1..];
    }

    /** The reply reaches its request. */
    method Settle(m: Message, ghost k: nat)
      requires clnt.Valid() && !clnt.err && k == Find(clnt.pending, m.tag) < |clnt.pending|
      requires m == Own(log, clnt.pending[k]) && clnt.pending[k] in log && clnt.pending[k] in born
      requires Sound(clnt.held, Without(clnt.pending, k))
      modifies this`done, clnt`reqfirst, clnt`reqlast, clnt`pending, clnt`held, clnt`err
      modifies clnt.pending`next, clnt.pending`prev, clnt.pending`rc
      ensures Valid() && done == old(done) + [old(clnt.pending)[k]] && clnt.pending == Without(old(clnt.pending), k)
      ensures old(clnt.pending)[k].rc == Some(m.no)
      ensures forall q :: q in old(clnt.pending) && q != old(clnt.pending)[k] ==> q.rc == old(q.rc)
    {
      ghost var held, own := clnt.held, clnt.pending[k];
      assert forall q :: q in ready || q in done ==> q !in clnt.pending;
      assert own !in Without(clnt.pending, k) by { Answer(clnt.pending, clnt.reqchan, clnt.held, clnt.byTag, k); }
      var r := clnt.Reply(m.tag, m.no);
      assert r == own;
      HandOver(r, held);
    }

    /** A caller has its reply. */
    method HandOver(r: Req, ghost was: set<Req>)
      requires clnt.Valid() && !clnt.err && Sound(was, clnt.pending) && clnt.held == was + {r} && r !in was && r in born
      requires r in log && r.rc == Some(LastOf(log, r))
      modifies this`done
      ensures Valid() && done == old(done) + [r]
    {
      OneDone(was, ready, done, r);
      done := done + [r];
    }

    /** The receiving loop takes one reply. */
    method Receive()
      requires Valid() && replies != []
      modifies this`replies, this`done, clnt`reqfirst, clnt`reqlast, clnt`pending, clnt`held, clnt`err
      modifies clnt.pending`next, clnt.pending`prev, clnt.pending`rc
      ensures Valid() && Grown() && replies == old(replies)[1..]
      ensures var k := Find(old(clnt.pending), old(replies)[0].tag);
              && k < |old(clnt.pending)| && clnt.pending == Without(old(clnt.pending), k)
              && done == old(done) + [old(clnt.pending)[k]]
              && old(clnt.pending)[k].rc == Some(old(replies)[0].no)
              && old(replies)[0] == Own(log, old(clnt.pending)[k])
              && forall q :: q in old(clnt.pending) && q != old(clnt.pending)[k] ==> q.rc == old(q.rc)
    {
      var m;
      ghost var k;
      m, k := Arrive();
      Settle(m, k);
    }

    /** The request goes into the cache, or its tag to a caller who waits, or back to the pool. */
    method PutBack(r: Req) returns (ghost got: Option<Req>)
      requires clnt.Valid() && !clnt.err && r in clnt.held && r !in ready && r !in done && r in born
      requires Sound(clnt.held - {r}, clnt.pending)
      modifies this`ready, this`born, clnt`reqchan, clnt`held, clnt`byTag, r, clnt.tagpool`need, clnt.tagpool.bits
      ensures Valid() && Grown() && ready == old(ready) + Given(got)
      ensures got.Some? ==> old(clnt.tagpool.need) > 0 && clnt.tagpool.need == old(clnt.tagpool.need) - 1
      ensures got.Some? ==> fresh(got.value) && got.value.tag == r.tag
    {
      ghost var was := clnt.held - {r};
      var woken := Return(r);
      got := Gets(woken, was);
    }

    method Return(r: Req) returns (woken: Req?)
      requires clnt.Valid() && !clnt.err && r in clnt.held && r !in ready && r !in done && r in born
      requires Sound(clnt.held - {r}, clnt.pending)
      modifies clnt`reqchan, clnt`held, clnt`byTag, r, clnt.tagpool`need, clnt.tagpool.bits
      ensures clnt.Valid() && !clnt.err && Sound(old(clnt.held) - {r}, clnt.pending)
      ensures woken == null ==> clnt.held == old(clnt.held) - {r}
      ensures woken != null ==>
                && clnt.held == old(clnt.held) - {r} + {woken} && fresh(woken) && woken.tag == r.tag
                && woken.rc == None && woken.next == null
                && old(clnt.tagpool.need) > 0 && clnt.tagpool.need == old(clnt.tagpool.need) - 1
    {
      ghost var byTag, pending := clnt.byTag, clnt.pending;
      assert r !in pending;
      woken := clnt.ReqFree(r);
      OthersRetagged(pending, byTag, clnt.byTag, calls + replies, log);
    }

    /** ReqFree of an answered request. */
    method Free(i: nat) returns (ghost got: Option<Req>)
      requires Valid() && i < |done|
      modifies this`ready, this`done, this`born, clnt`reqchan, clnt`held, clnt`byTag, done, clnt.tagpool`need,
        clnt.tagpool.bits
      ensures Valid() && Grown() && done == Without(old(done), i) && ready == old(ready) + Given(got)
    {
      var r := done[i];
      NotDone(clnt.held, ready, done, i);
      done := Without(done, i);
      got := PutBack(r);
    }

    /** ReqFree of a request that was not sent. */
    method Discard(i: nat) returns (ghost got: Option<Req>)
      requires Valid() && i < |ready|
      modifies this`ready, this`born, clnt`reqchan, clnt`held, clnt`byTag, ready, clnt.tagpool`need, clnt.tagpool.bits
      ensures Valid() && Grown() && ready == Without(old(ready), i) + Given(got)
    {
      var r := Leave(i);
      got := PutBack(r);
    }

    /** One move of a caller, the server, or the receiving loop; one that cannot be made is not. */
    method Do(op: Op) returns (ghost got: Option<Req>)
      requires Valid()
      modifies this, clnt, clnt.tagpool, clnt.tagpool.bits, born
      ensures Valid() && Grown() && Look() == Did(old(Look()), op, got)
      ensures op.AllocOp? && got.None? ==> clnt.reqchan == [] && clnt.tagpool.need > 0
    {
      got := None;
      match op
      case AllocOp => got := Allocate();
      case SendOp(i) => if i < |ready| { Sends(i); }
      case AnswerOp(k) => if k < |calls| { ServerAnswers(k); }
      case ReceiveOp => if replies != [] { Receives(); }
      case FreeOp(i) => if i < |done| { got := Frees(i); }
      case DiscardOp(i) => if i < |ready| { got := Discard(i); }
    }

    method Sends(i: nat)
      requires Valid() && i < |ready|
      modifies this`ready, this`calls, this`count, this`log
      modifies clnt`reqfirst, clnt`reqlast, clnt`pending, clnt`held, ready`prev, clnt.pending`next
      ensures Valid() && Grown() && Look() == Did(old(Look()), SendOp(i), None)
    {
      ghost var r, d, l := ready[i], done, log;
      NotReadyIsNotDone(i);
      Send(i);
      NumberedStill(d, l, r);
    }

    method Receives()
      requires Valid() && replies != []
      modifies this`replies, this`done, clnt`reqfirst, clnt`reqlast, clnt`pending, clnt`held, clnt`err
      modifies clnt.pending`next, clnt.pending`prev, clnt.pending`rc
      ensures Valid() && Grown() && Look() == Did(old(Look()), ReceiveOp, None)
    {
      ghost var v, d, l := Look(), done, log;
      Receive();
      Received(v, Look(), d, l);
    }

    method Frees(i: nat) returns (ghost got: Option<Req>)
      requires Valid() && i < |done|
      modifies this`ready, this`done, this`born, clnt`reqchan, clnt`held, clnt`byTag, done, clnt.tagpool`need,
        clnt.tagpool.bits
      ensures Valid() && Grown() && Look() == Did(old(Look()), FreeOp(i), got)
    {
      NumberedLess(done, log, i);
      got := Free(i);
    }

    lemma NotReadyIsNotDone(i: nat)
      requires Valid() && i < |ready|
      ensures ready[i] !in done
    {
    }

    /**
     After any sequence of moves: callers, wires and server have what the moves make of them, the connection has
     not been given up for a reply that nobody waits for, and each request that a caller got back carries the reply
     made for its last sending, and no other does.
     */
    method Run(ops: seq<Op>) returns (ghost given: seq<Option<Req>>)
      requires Valid()
      modifies this, clnt, clnt.tagpool, clnt.tagpool.bits, born
      ensures Valid() && Grown()
      ensures |given| == |ops| && Look() == DidAll(old(Look()), ops, given)
      ensures !clnt.err && forall r :: r in done ==> r in log && r.rc == Some(LastOf(log, r))
      ensures forall r :: r in ready || r in clnt.pending || r in clnt.reqchan ==> r.rc == None
    {
      given := [];
      ghost var was := Look();
      for i := 0 to |ops|
        invariant Valid() && Grown() && |given| == i && Look() == DidAll(was, ops[..i], given)
      {
        ghost var got := Do(ops[i]);
        DidAllConcat(was, ops[..i], [ops[i]], given, [got]);
        assert ops[..i + 1] == ops[..i] + [ops[i]] && [ops[i]][1..] == [];
        given := given + [got];
      }
      assert ops[..|ops|] == ops;
    }

    /** The tags on the wire are exactly those of the requests that wait, each once. */
    lemma TagsInFlight()
      requires Valid()
      ensures forall i, j :: 0 <= i < j < |calls + replies| ==> (calls + replies)[i].tag != (calls + replies)[j].tag
      ensures forall m :: m in calls + replies ==> exists r :: r in clnt.pending && r.tag == m.tag
      ensures forall r :: r in clnt.pending ==> Own(log, r) in calls + replies
    {
      var flight := calls + replies;
      forall i, j | 0 <= i < j < |flight| ensures flight[i].tag != flight[j].tag {
        assert flight[i] in flight && flight[j] in flight;
      }
      forall m | m in flight ensures exists r :: r in clnt.pending && r.tag == m.tag {
        assert clnt.byTag[m.tag] in clnt.pending;
      }
    }

    /** While a request waits, something is on its way: with the server, or back. */
    lemma NobodyForgotten()
      requires Valid() && clnt.pending != []
      ensures calls != [] || replies != []
    {
      assert Own(log, clnt.pending[0]) in calls + replies;
    }
  }
}
